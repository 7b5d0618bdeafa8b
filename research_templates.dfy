/** Research templates: the six built-in templates, the custom templates kept
    in the browser's "research_templates" entry, and the filling of a
    template's "[KEY]" placeholders with the values the user typed. */
module Templates {
  import opened Base
  import opened Text
  import opened MultiSource

  datatype Category = CryptoCategory | CodeCategory | NewsCategory | GeneralCategory | CustomCategory

  datatype Template = Template(
    id: string,
    name: string,
    category: Category,
    description: string,
    questions: seq<string>,
    sources: seq<SourceType>,
    icon: string)

  // ---------------------------------------------------------------------------
  // The built-in templates

  const CryptoQuestions: seq<string> := [
    "What is [PROJECT] and what problem does it solve?",
    "What is the tokenomics of [PROJECT]?",
    "Who are the team members and investors behind [PROJECT]?",
    "What are the latest developments and roadmap for [PROJECT]?",
    "What are the risks and criticisms of [PROJECT]?"]

  const RepoQuestions: seq<string> := [
    "What does [REPO] do and what are its main features?",
    "How active is the development of [REPO]?",
    "What are the main dependencies and tech stack of [REPO]?",
    "What are the open issues and recent pull requests in [REPO]?",
    "How can I contribute to [REPO]?"]

  const SentimentQuestions: seq<string> := [
    "What is the general sentiment about [TOPIC] on Twitter?",
    "Who are the key influencers discussing [TOPIC]?",
    "What are the trending discussions about [TOPIC]?",
    "What are the main concerns or criticisms about [TOPIC]?"]

  const NewsQuestions: seq<string> := [
    "What are the latest news about [TOPIC]?",
    "What major announcements or updates happened recently for [TOPIC]?",
    "What are experts saying about [TOPIC]?",
    "What are the future predictions for [TOPIC]?"]

  const ComparisonQuestions: seq<string> := [
    "What are the key differences between [PROJECT A] and [PROJECT B]?",
    "Which one has better performance: [PROJECT A] or [PROJECT B]?",
    "What are the pros and cons of [PROJECT A] vs [PROJECT B]?",
    "Which one should I choose: [PROJECT A] or [PROJECT B]?"]

  const LearningQuestions: seq<string> := [
    "What are the fundamentals I need to learn about [TOPIC]?",
    "What are the best resources to learn [TOPIC]?",
    "What projects should I build to practice [TOPIC]?",
    "What are common mistakes beginners make with [TOPIC]?"]

  /** `defaultTemplates`, in their fixed order. */
  const DefaultTemplates: seq<Template> := [
    Template("crypto-analysis", "Crypto Project Analysis", CryptoCategory,
             "Deep dive into a cryptocurrency project", CryptoQuestions, [Web, Twitter, Crypto], "coins"),
    Template("github-repo-analysis", "GitHub Repository Analysis", CodeCategory,
             "Analyze a GitHub repository in detail", RepoQuestions, [Web, GitHub], "code"),
    Template("twitter-sentiment", "Twitter Sentiment Analysis", NewsCategory,
             "Analyze community sentiment on Twitter", SentimentQuestions, [Twitter, Web], "trending-up"),
    Template("news-research", "Latest News Research", NewsCategory,
             "Get the latest news and updates on a topic", NewsQuestions, [Web, Twitter], "newspaper"),
    Template("comparison", "Project Comparison", GeneralCategory,
             "Compare two projects or technologies", ComparisonQuestions, [Web, GitHub, Crypto], "git-compare"),
    Template("learning", "Learning Path", GeneralCategory,
             "Create a learning path for a new topic", LearningQuestions, [Web, GitHub], "graduation-cap")]

  // ---------------------------------------------------------------------------
  // Custom templates

  function OtherId(id: string): Template -> bool
  {
    (t: Template) => t.id != id
  }

  /** The custom list after `save(t)`: every earlier template with t's id is
      dropped, the others keep their order, and t comes last. */
  function Saved(cs: seq<Template>, t: Template): (r: seq<Template>)
    ensures |r| > 0 && r[|r| - 1] == t
    ensures forall i :: 0 <= i < |r| - 1 ==> r[i].id != t.id && r[i] in cs
    ensures forall c :: c in cs && c.id != t.id ==> c in r
    ensures SubList(r[..|r| - 1], cs)
  {
    var kept := Filter(cs, OtherId(t.id));
    FilterSubList(cs, OtherId(t.id));
    assert (kept + [t])[..|kept|] == kept;
    kept + [t]
  }

  /** The custom list after `delete(id)`: every template with the id is
      dropped and the others keep their order. */
  function Deleted(cs: seq<Template>, id: string): (r: seq<Template>)
    ensures forall i :: 0 <= i < |r| ==> r[i].id != id && r[i] in cs
    ensures forall c :: c in cs && c.id != id ==> c in r
    ensures SubList(r, cs)
  {
    FilterSubList(cs, OtherId(id));
    Filter(cs, OtherId(id))
  }

  /** Saving a template leaves exactly one custom template with its id: the
      saved one, at the end. */
  lemma SavedOnce(cs: seq<Template>, t: Template)
    ensures var r := Saved(cs, t);
            Count(MapSeq(r, (c: Template) => c.id), t.id) == 1
  {
    var r := Saved(cs, t);
    var ids := MapSeq(r, (c: Template) => c.id);
    assert ids[..|ids| - 1] == MapSeq(r[..|r| - 1], (c: Template) => c.id);
    CountAbsent(ids[..|ids| - 1], t.id);
  }

  /** The "research_templates" entry of `localStorage`: the JSON list of the
      custom templates. */
  class TemplateStore {
    var stored: Slot<seq<Template>>

    constructor ()
      ensures stored == Absent
    {
      stored := Absent;
    }

    /** `getCustom`: the stored list; [] when nothing is stored or the stored
        text does not parse. */
    function Custom(): (cs: seq<Template>)
      reads this
      ensures stored.Holds? ==> cs == stored.value
      ensures !stored.Holds? ==> cs == []
    {
      if stored.Holds? then stored.value else []
    }

    /** `getAll`: the built-in templates followed by the custom ones; just the
        built-in ones when nothing is stored or the stored text does not
        parse. */
    function All(): (ts: seq<Template>)
      reads this
      ensures |ts| == |DefaultTemplates| + |Custom()|
      ensures ts[..|DefaultTemplates|] == DefaultTemplates
      ensures ts[|DefaultTemplates|..] == Custom()
    {
      DefaultTemplates + Custom()
    }

    /** `save`: the custom list with the template saved, written back. */
    method Save(t: Template)
      modifies this
      ensures stored == Holds(Saved(old(Custom()), t))
    {
      var cs := Custom();
      stored := Holds(Filter(cs, OtherId(t.id)) + [t]);
    }

    /** `delete`: the custom list without the id, written back. */
    method Delete(id: string)
      modifies this
      ensures stored == Holds(Deleted(old(Custom()), id))
    {
      var cs := Custom();
      stored := Holds(Filter(cs, OtherId(id)));
    }
  }

  // ---------------------------------------------------------------------------
  // Filling placeholders

  /** The text a variable replaces: its key in square brackets. */
  function Placeholder(key: string): (p: string)
    ensures |p| == |key| + 2 && p[0] == '[' && p[|p| - 1] == ']' && p[1..|p| - 1] == key
  {
    "[" + key + "]"
  }

  /** The replacement text of `String.prototype.replace` for a string pattern
      (GetSubstitution in ECMAScript): "$$" stands for "$", "$&" for the
      matched text, "$`" for the text before it and "$'" for the text after
      it; every other character, "$" included, stands for itself. */
  function Expand(rep: string, matched: string, before: string, after: string): (r: string)
    ensures '$' !in rep ==> r == rep
    decreases |rep|
  {
    if rep == [] then ""
    else if rep[0] == '$' && |rep| >= 2 && rep[1] == '$' then "$" + Expand(rep[2..], matched, before, after)
    else if rep[0] == '$' && |rep| >= 2 && rep[1] == '&' then matched + Expand(rep[2..], matched, before, after)
    else if rep[0] == '$' && |rep| >= 2 && rep[1] == '`' then before + Expand(rep[2..], matched, before, after)
    else if rep[0] == '$' && |rep| >= 2 && rep[1] == '\'' then after + Expand(rep[2..], matched, before, after)
    else [rep[0]] + Expand(rep[1..], matched, before, after)
  }

  /** `s.replace(pat, rep)` for a string `pat`: only the first occurrence is
      replaced. */
  function ReplaceFirst(s: string, pat: string, rep: string): string
  {
    match IndexOfFrom(s, pat, 0)
    case None => s
    case Some(k) => s[..k] + Expand(rep, pat, s[..k], s[k + |pat|..]) + s[k + |pat|..]
  }

  /** Where `pat` first occurs at `k`, the text before `k` and everything
      after that occurrence, later occurrences included, are kept, and the
      occurrence becomes `rep` when `rep` holds no "$". */
  lemma ReplaceFirstAt(s: string, pat: string, rep: string, k: nat)
    requires MatchesAt(s, pat, k) && forall j :: 0 <= j < k ==> !MatchesAt(s, pat, j)
    requires '$' !in rep
    ensures ReplaceFirst(s, pat, rep) == s[..k] + rep + s[k + |pat|..]
  {
  }

  /** Without an occurrence of `pat`, nothing changes. */
  lemma ReplaceAbsent(s: string, pat: string, rep: string)
    requires forall j :: !MatchesAt(s, pat, j)
    ensures ReplaceFirst(s, pat, rep) == s
  {
  }

  /** One question filled: each entry, in order, replaces the first
      occurrence of its placeholder in what the earlier entries left. A
      question without "[" has no placeholder and is left as it is. */
  function Filled(q: string, vars: seq<(string, string)>): (r: string)
    ensures '[' !in q ==> r == q
    decreases |vars|
  {
    if vars == [] then q
    else
      var p := Placeholder(vars[0].0);
      NoBracketUnchanged(q, p, vars[0].1);
      Filled(ReplaceFirst(q, p, vars[0].1), vars[1..])
  }

  /** A text without "[" holds no placeholder, so `replace` leaves it as it is. */
  lemma NoBracketUnchanged(q: string, p: string, rep: string)
    requires p != [] && p[0] == '['
    ensures '[' !in q ==> ReplaceFirst(q, p, rep) == q
  {
    if '[' !in q {
      forall j ensures !MatchesAt(q, p, j) {
        if 0 <= j < |q| {
          assert q[j] in q;
        }
      }
      ReplaceAbsent(q, p, rep);
    }
  }

  /** A single variable whose placeholder first occurs at `k` replaces that
      occurrence alone: a second occurrence further on stays. */
  lemma FilledOneVariable(q: string, key: string, value: string, k: nat)
    requires MatchesAt(q, Placeholder(key), k)
    requires forall j :: 0 <= j < k ==> !MatchesAt(q, Placeholder(key), j)
    requires '$' !in value
    ensures Filled(q, [(key, value)]) == q[..k] + value + q[k + |key| + 2..]
  {
    ReplaceFirstAt(q, Placeholder(key), value, k);
    assert [(key, value)][1..] == [];
  }

  /** `fillTemplate`: each question, in order, with the variables applied in
      their entry order. */
  method FillTemplate(t: Template, vars: seq<(string, string)>) returns (filled: seq<string>)
    ensures |filled| == |t.questions|
    ensures forall i :: 0 <= i < |filled| ==> filled[i] == Filled(t.questions[i], vars)
  {
    filled := [];
    for i := 0 to |t.questions|
      invariant |filled| == i
      invariant forall n :: 0 <= n < i ==> filled[n] == Filled(t.questions[n], vars)
    {
      var f := FillQuestion(t.questions[i], vars);
      filled := filled + [f];
    }
  }

  /** One question of `fillTemplate`: the entries replace their placeholders
      one after the other. */
  method FillQuestion(q: string, vars: seq<(string, string)>) returns (f: string)
    ensures f == Filled(q, vars)
  {
    f := q;
    assert vars[0..] == vars;
    for j := 0 to |vars|
      invariant Filled(f, vars[j..]) == Filled(q, vars)
    {
      FilledStep(f, vars, j);
      f := ReplaceFirst(f, Placeholder(vars[j].0), vars[j].1);
    }
    assert vars[|vars|..] == [];
  }

  /** Applying the entries from `j` on is applying entry `j`, then the rest. */
  lemma FilledStep(f: string, vars: seq<(string, string)>, j: nat)
    requires j < |vars|
    ensures Filled(f, vars[j..]) == Filled(ReplaceFirst(f, Placeholder(vars[j].0), vars[j].1), vars[j + 1..])
  {
    assert vars[j..][0] == vars[j];
    assert vars[j..][1..] == vars[j + 1..];
  }
}
