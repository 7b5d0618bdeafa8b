/** The template picker: reading the "[KEY]" placeholders out of a template's
    questions, asking for their values, and handing the filled questions
    and the template's sources to the chat. */
module Selector {
  import opened Base
  import opened Text
  import opened MultiSource
  import opened Templates

  // ---------------------------------------------------------------------------
  // Placeholder extraction

  /** The keys of the matches of /\[([^\]]+)\]/g in `s`, leftmost first: at a
      "[" followed by at least one character other than "]" and then a "]",
      the text in between is a key and the search goes on after the "]";
      anywhere else the search moves one character on. */
  function Placeholders(s: string): (keys: seq<string>)
    ensures forall k :: k in keys ==> k != "" && ']' !in k
    decreases |s|
  {
    if s == [] then []
    else if s[0] == '[' && ']' in s[1..] then
      var j := FirstIndex(s[1..], ']');
      if j > 0 then [s[1..j + 1]] + Placeholders(s[j + 2..])
      else Placeholders(s[1..])
    else Placeholders(s[1..])
  }

  /** An occurrence in a suffix is an occurrence in the whole text. */
  lemma MatchInSuffix(s: string, d: nat, x: string, p: int)
    requires d <= |s| && MatchesAt(s[d..], x, p)
    ensures MatchesAt(s, x, d + p)
  {
    assert s[d + p..d + p + |x|] == s[d..][p..p + |x|];
  }

  /** Every extracted key occurs in `s` as its placeholder. */
  lemma {:induction false} PlaceholdersOccur(s: string, k: string)
    requires k in Placeholders(s)
    ensures exists p :: MatchesAt(s, Placeholder(k), p)
    decreases |s|
  {
    var d: nat := 1;
    if s[0] == '[' && ']' in s[1..] && FirstIndex(s[1..], ']') > 0 {
      var j := FirstIndex(s[1..], ']');
      if k == s[1..j + 1] {
        assert s[0..j + 2] == Placeholder(k);
        assert MatchesAt(s, Placeholder(k), 0);
        return;
      }
      d := j + 2;
    }
    assert k in Placeholders(s[d..]);
    PlaceholdersOccur(s[d..], k);
    var p :| MatchesAt(s[d..], Placeholder(k), p);
    MatchInSuffix(s, d, Placeholder(k), p);
  }

  /** A text without "[" has no placeholder. */
  lemma {:induction false} NoBracketNoPlaceholders(s: string)
    requires '[' !in s
    ensures Placeholders(s) == []
    decreases |s|
  {
    if s != [] {
      assert s[0] in s;
      NoBracketNoPlaceholders(s[1..]);
    }
  }

  /** A placeholder at the start of the text is its first key. */
  lemma LeadingPlaceholder(key: string, rest: string)
    requires key != "" && ']' !in key
    ensures Placeholders(Placeholder(key) + rest) == [key] + Placeholders(rest)
  {
    var s := Placeholder(key) + rest;
    assert s[1..] == key + "]" + rest;
    assert s[1..][|key|] == ']';
    assert ']' !in s[1..][..|key|];
    FirstIndexUnique(s[1..], ']', |key|);
    assert s[1..|key| + 1] == key;
    assert s[|key| + 2..] == rest;
  }

  function PlaceholderDecoder(): string -> seq<string>
  {
    (q: string) => Placeholders(q)
  }

  /** The names a plain JavaScript object inherits from `Object.prototype`:
      `vars[key]` is truthy for them before anything is stored. */
  const InheritedNames: set<string> := {
    "constructor", "hasOwnProperty", "isPrototypeOf", "propertyIsEnumerable",
    "toLocaleString", "toString", "valueOf", "__proto__",
    "__defineGetter__", "__defineSetter__", "__lookupGetter__", "__lookupSetter__"}

  /** `if (!vars[key]) vars[key] = ""`: a key is recorded unless it is already
      there or names an inherited member. */
  function Record(vars: seq<string>, key: string): seq<string>
  {
    if key in InheritedNames || key in vars then vars else vars + [key]
  }

  /** The keys recorded while walking `keys` in order. */
  function Gather(vars: seq<string>, keys: seq<string>): (r: seq<string>)
    ensures vars <= r
    ensures |r| <= |vars| + |keys|
    decreases |keys|
  {
    if keys == [] then vars
    else Record(Gather(vars, keys[..|keys| - 1]), keys[|keys| - 1])
  }

  lemma {:induction false} GatherAppend(vars: seq<string>, a: seq<string>, b: seq<string>)
    ensures Gather(vars, a + b) == Gather(Gather(vars, a), b)
    decreases |b|
  {
    if b == [] {
      assert a + b == a;
    } else {
      assert (a + b)[..|a + b| - 1] == a + b[..|b| - 1];
      GatherAppend(vars, a, b[..|b| - 1]);
    }
  }

  /** The keys of the variables form: each key of a placeholder in the
      questions once, in the order first seen, leaving out inherited names;
      what was recorded before stays in front. */
  lemma {:induction false} GatherKeys(vars: seq<string>, keys: seq<string>)
    requires Distinct(vars) && forall v :: v in vars ==> v !in InheritedNames
    ensures var r := Gather(vars, keys);
            Distinct(r) && vars <= r
            && (forall k :: k in r <==> k in vars || (k in keys && k !in InheritedNames))
    decreases |keys|
  {
    if keys != [] {
      var init := keys[..|keys| - 1];
      var last := keys[|keys| - 1];
      GatherKeys(vars, init);
      var g := Gather(vars, init);
      assert keys == init + [last];
      if !(last in InheritedNames || last in g) {
        assert forall i :: 0 <= i < |g| ==> (g + [last])[i] == g[i];
      }
    }
  }

  /** The variables form as `handleTemplateClick` fills it: every value
      empty. */
  function Blank(keys: seq<string>): (vars: seq<(string, string)>)
    ensures |vars| == |keys|
    ensures forall i :: 0 <= i < |keys| ==> vars[i] == (keys[i], "")
  {
    MapSeq(keys, (k: string) => (k, ""))
  }

  /** The placeholder walk of `handleTemplateClick`: over the questions, over
      each question's matches. */
  method ExtractKeys(questions: seq<string>) returns (keys: seq<string>)
    ensures keys == Gather([], ConcatMap(questions, PlaceholderDecoder()))
  {
    keys := [];
    for i := 0 to |questions|
      invariant keys == Gather([], ConcatMap(questions[..i], PlaceholderDecoder()))
    {
      var matches := Placeholders(questions[i]);
      ghost var before := keys;
      for j := 0 to |matches|
        invariant keys == Gather(before, matches[..j])
      {
        assert matches[..j + 1][..j] == matches[..j];
        if !(matches[j] in InheritedNames || matches[j] in keys) {
          keys := keys + [matches[j]];
        }
      }
      assert matches[..|matches|] == matches;
      ConcatMapStep(questions, PlaceholderDecoder(), i);
      GatherAppend([], ConcatMap(questions[..i], PlaceholderDecoder()), matches);
    }
    assert questions[..|questions|] == questions;
  }

  /** The new form after typing `value` into the field for `key`: the key
      keeps its place with the new value, or comes last when it was not
      there. */
  function Assign(vars: seq<(string, string)>, key: string, value: string): (r: seq<(string, string)>)
    ensures forall i :: 0 <= i < |vars| && vars[i].0 != key ==> i < |r| && r[i] == vars[i]
    ensures forall i :: 0 <= i < |vars| && vars[i].0 == key ==> i < |r| && r[i] == (key, value)
    ensures (exists i :: 0 <= i < |vars| && vars[i].0 == key) ==> |r| == |vars|
    ensures (forall i :: 0 <= i < |vars| ==> vars[i].0 != key) ==> r == vars + [(key, value)]
  {
    if exists i :: 0 <= i < |vars| && vars[i].0 == key then
      MapSeq(vars, (e: (string, string)) => if e.0 == key then (key, value) else e)
    else vars + [(key, value)]
  }

  // ---------------------------------------------------------------------------
  // Category tabs

  function InCategory(c: Category): Template -> bool
  {
    (t: Template) => t.category == c
  }

  /** A category tab: the built-in templates of the category, then the
      custom ones, each list in its own order. */
  function CategoryTab(defaults: seq<Template>, custom: seq<Template>, c: Category): (r: seq<Template>)
    ensures |r| <= |defaults| + |custom|
    ensures forall i :: 0 <= i < |r| ==> r[i].category == c
  {
    Filter(defaults, InCategory(c)) + Filter(custom, InCategory(c))
  }

  /** A tab lists exactly the templates of its category; the built-in ones
      come first, and each part keeps the order of its list. */
  lemma CategoryTabLists(defaults: seq<Template>, custom: seq<Template>, c: Category)
    ensures var r := CategoryTab(defaults, custom, c);
            var k := |Filter(defaults, InCategory(c))|;
            k <= |r|
            && (forall t :: t in r <==> (t in defaults || t in custom) && t.category == c)
            && SubList(r[..k], defaults) && SubList(r[k..], custom)
            && (forall i :: 0 <= i < k ==> r[i] in defaults)
  {
    var d := Filter(defaults, InCategory(c));
    var u := Filter(custom, InCategory(c));
    FilterSubList(defaults, InCategory(c));
    FilterSubList(custom, InCategory(c));
    var r := d + u;
    assert r[..|d|] == d && r[|d|..] == u;
    forall t | t in r ensures (t in defaults || t in custom) && t.category == c {
      assert t in d || t in u;
    }
    forall t | (t in defaults || t in custom) && t.category == c ensures t in r {
      if t in defaults {
        var i :| 0 <= i < |defaults| && defaults[i] == t;
        assert t in d;
      } else {
        var i :| 0 <= i < |custom| && custom[i] == t;
        assert t in u;
      }
    }
  }

  /** The tabs of the dialog. */
  datatype Tab = AllTab | CategoryOnly(category: Category)

  // ---------------------------------------------------------------------------
  // The dialog

  /** A question list and its sources, as handed to `onSelectTemplate`. */
  datatype Selection = Selection(questions: seq<string>, sources: seq<SourceType>)

  class TemplateDialog {
    var open: bool
    var selected: Option<Template>
    var variables: seq<(string, string)>
    /** The custom templates, read once when the dialog is made. */
    var custom: seq<Template>

    constructor (store: TemplateStore)
      ensures !open && selected == None && variables == [] && custom == store.Custom()
    {
      open := false;
      selected := None;
      variables := [];
      custom := store.Custom();
    }

    /** What a tab lists: all built-in then all custom templates, or one
        category of each. A template is listed exactly when it is built in or
        custom and, on a category tab, of that category. */
    function Listed(tab: Tab): (r: seq<Template>)
      reads this
      ensures tab.AllTab? ==>
                |r| == |DefaultTemplates| + |custom|
                && r[..|DefaultTemplates|] == DefaultTemplates && r[|DefaultTemplates|..] == custom
      ensures forall t :: t in r <==> (t in DefaultTemplates || t in custom) && (tab.AllTab? || t.category == tab.category)
    {
      match tab
      case AllTab => DefaultTemplates + custom
      case CategoryOnly(c) =>
        CategoryTabLists(DefaultTemplates, custom, c);
        CategoryTab(DefaultTemplates, custom, c)
    }

    /** `handleTemplateClick`: select the template and collect its
        placeholders; without any, hand over its questions and sources as
        they are and close; otherwise show the form with empty values. */
    method TemplateClick(t: Template) returns (sent: Option<Selection>)
      modifies this
      ensures selected == Some(t) && custom == old(custom)
      ensures var keys := Gather([], ConcatMap(t.questions, PlaceholderDecoder()));
              (keys == [] ==> sent == Some(Selection(t.questions, t.sources)) && !open
                              && variables == old(variables))
              && (keys != [] ==> sent == None && variables == Blank(keys) && open == old(open))
    {
      selected := Some(t);
      var keys := ExtractKeys(t.questions);
      if |keys| == 0 {
        sent := Some(Selection(t.questions, t.sources));
        open := false;
      } else {
        variables := Blank(keys);
        sent := None;
      }
    }

    /** The form field's `onChange`. */
    method SetVariable(key: string, value: string)
      modifies this
      ensures variables == Assign(old(variables), key, value)
      ensures open == old(open) && selected == old(selected) && custom == old(custom)
    {
      variables := Assign(variables, key, value);
    }

    /** `handleApplyTemplate`: nothing without a selected template; otherwise
        hand over the filled questions with the template's sources, close,
        and clear the selection and the form. */
    method ApplyTemplate() returns (sent: Option<Selection>)
      modifies this
      ensures old(selected).None? ==>
                sent == None && open == old(open) && selected == None && variables == old(variables)
      ensures old(selected).Some? ==>
                var t := old(selected).value;
                sent.Some? && sent.value.sources == t.sources
                && |sent.value.questions| == |t.questions|
                && (forall i :: 0 <= i < |t.questions| ==>
                      sent.value.questions[i] == Filled(t.questions[i], old(variables)))
                && !open && selected == None && variables == []
      ensures custom == old(custom)
    {
      if selected.None? {
        return None;
      }
      var t := selected.value;
      var filled := FillTemplate(t, variables);
      sent := Some(Selection(filled, t.sources));
      open := false;
      selected := None;
      variables := [];
    }
  }

  /** A template without "[" in any question is handed over unchanged on
      click, and applying a form to it would change none of its questions. */
  lemma PlainTemplate(t: Template, vars: seq<(string, string)>)
    requires forall q :: q in t.questions ==> '[' !in q
    ensures Gather([], ConcatMap(t.questions, PlaceholderDecoder())) == []
    ensures forall i :: 0 <= i < |t.questions| ==> Filled(t.questions[i], vars) == t.questions[i]
  {
    NoPlaceholders(t.questions);
  }

  lemma {:induction false} NoPlaceholders(qs: seq<string>)
    requires forall q :: q in qs ==> '[' !in q
    ensures ConcatMap(qs, PlaceholderDecoder()) == []
    ensures Gather([], ConcatMap(qs, PlaceholderDecoder())) == []
    decreases |qs|
  {
    if qs != [] {
      var init := qs[..|qs| - 1];
      assert forall q :: q in init ==> q in qs;
      NoPlaceholders(init);
      NoBracketNoPlaceholders(qs[|qs| - 1]);
    }
  }
}
