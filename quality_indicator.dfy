/** The quality badges under an answer: a confidence level from the number
    of sources and whether any of them is official, a "Verified" badge and an
    "Official Sources" badge. */
module Quality {
  import opened Base
  import opened Text
  import opened MultiSource

  /** A cited source as the indicator sees it: its tag, if any, and its url. */
  datatype Cited = Cited(tag: Option<SourceType>, url: string)

  const DocsWord := "docs"
  const VerifiedCount := 3
  const HighCount := 5

  /** An official source: a GitHub result or a url with "docs" in it. */
  predicate Official(s: Cited)
  {
    s.tag == Some(GitHub) || Contains(s.url, DocsWord)
  }

  /** `sources.some(...)` over the official test. */
  predicate HasOfficial(ss: seq<Cited>)
  {
    exists i :: 0 <= i < |ss| && Official(ss[i])
  }

  datatype Confidence = Low | Medium | High {
    /** The badge text. */
    function Label(): string
    {
      match this
      case High => "High"
      case Medium => "Medium"
      case Low => "Low"
    }

    /** The colour class of the badge. */
    function Color(): string
    {
      match this
      case High => "text-green-500"
      case Medium => "text-yellow-500"
      case Low => "text-orange-500"
    }

    /** The levels in increasing order. */
    function Rank(): nat
    {
      match this
      case Low => 0
      case Medium => 1
      case High => 2
    }
  }

  /** `getConfidenceLevel`. */
  function ConfidenceLevel(ss: seq<Cited>): (c: Confidence)
    ensures c == Low <==> |ss| < VerifiedCount
    ensures c == High ==> |ss| >= HighCount && HasOfficial(ss)
  {
    if |ss| >= HighCount && HasOfficial(ss) then High
    else if |ss| >= VerifiedCount then Medium
    else Low
  }

  /** What the indicator shows: the level, whether the "Verified" and the
      "Official Sources" badges appear, and the source count. */
  datatype Indicator = Indicator(confidence: Confidence, verified: bool, official: bool, count: nat)

  /** The rendered indicator; nothing when the list is absent or empty. */
  function Indicate(sources: Option<seq<Cited>>): (r: Option<Indicator>)
    ensures r.None? <==> sources.None? || sources.value == []
    ensures r.Some? ==> r.value.count == |sources.value| > 0
  {
    if sources.None? || |sources.value| == 0 then None
    else
      var ss := sources.value;
      Some(Indicator(ConfidenceLevel(ss), |ss| >= VerifiedCount, HasOfficial(ss), |ss|))
  }

  /** The badges of a shown indicator, each as an if-and-only-if: High with
      five sources or more of which one is official, Medium otherwise from
      three sources, Low below three; "Verified" from three sources;
      "Official Sources" when some source is a GitHub result or a docs url. */
  lemma IndicatorIff(ss: seq<Cited>)
    requires ss != []
    ensures var r := Indicate(Some(ss)).value;
            && (r.confidence == High <==> |ss| >= 5 && HasOfficial(ss))
            && (r.confidence == Medium <==> |ss| >= 3 && !(|ss| >= 5 && HasOfficial(ss)))
            && (r.confidence == Low <==> |ss| < 3)
            && (r.verified <==> |ss| >= 3)
            && (r.official <==> exists i :: 0 <= i < |ss| && (ss[i].tag == Some(GitHub) || Contains(ss[i].url, DocsWord)))
            && (r.confidence != Low <==> r.verified)
  {
  }

  /** One more source never lowers the confidence level. */
  lemma MoreSourcesNoLower(ss: seq<Cited>, s: Cited)
    ensures ConfidenceLevel(ss).Rank() <= ConfidenceLevel(ss + [s]).Rank()
  {
    if HasOfficial(ss) {
      var i :| 0 <= i < |ss| && Official(ss[i]);
      assert (ss + [s])[i] == ss[i];
    }
  }

  /** An official source among five or more gives High confidence wherever it
      stands in the list. */
  lemma OfficialGivesHigh(ss: seq<Cited>, i: nat)
    requires i < |ss| && |ss| >= HighCount
    requires ss[i].tag == Some(GitHub) || Contains(ss[i].url, DocsWord)
    ensures ConfidenceLevel(ss) == High
  {
  }
}
