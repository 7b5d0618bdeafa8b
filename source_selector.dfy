/** The source picker: which searches a question goes to. */
module SourcePicker {
  import opened Base
  import opened MultiSource

  function OtherThan(s: SourceType): SourceType -> bool
  {
    (x: SourceType) => x != s
  }

  /** `toggleSource`: an unselected source is added at the end; a selected
      one is dropped unless it is the only one. */
  function Toggle(selected: seq<SourceType>, s: SourceType): (r: seq<SourceType>)
    ensures s in r <==> s !in selected || |selected| == 1
    ensures |r| <= |selected| + 1
  {
    if s in selected then
      if |selected| > 1 then Filter(selected, OtherThan(s)) else selected
    else selected + [s]
  }

  /** An unselected source is appended. */
  lemma ToggleAdds(selected: seq<SourceType>, s: SourceType)
    requires s !in selected
    ensures Toggle(selected, s) == selected + [s]
  {
  }

  /** A selected source among several is removed, every other selected
      source staying, in its order. */
  lemma ToggleRemoves(selected: seq<SourceType>, s: SourceType)
    requires s in selected && |selected| > 1
    ensures var r := Toggle(selected, s);
            && s !in r
            && SubList(r, selected)
            && forall x :: x in selected && x != s ==> x in r
  {
    FilterSubList(selected, OtherThan(s));
  }

  /** Toggling keeps a selection free of repeats; every selection the
      picker builds from one source is such a list. */
  lemma ToggleDistinct(selected: seq<SourceType>, s: SourceType)
    requires Distinct(selected)
    ensures Distinct(Toggle(selected, s))
  {
    if s in selected {
      FilterDistinct(selected, OtherThan(s));
    }
  }

  /** The only selected source stays selected, so a non-empty selection
      without repeats never becomes empty. */
  lemma ToggleKeepsOne(selected: seq<SourceType>, s: SourceType)
    requires selected != [] && Distinct(selected)
    ensures s in selected && |selected| == 1 ==> Toggle(selected, s) == selected
    ensures Toggle(selected, s) != []
  {
    if s in selected && |selected| > 1 {
      var x := if selected[0] != s then selected[0] else selected[1];
      assert x in selected && x != s;
      assert x in Toggle(selected, s);
    }
  }

  /** Switching an unselected source on and then off gives back a non-empty
      selection as it was, repeats and order included. */
  lemma {:induction false} ToggleOnOff(selected: seq<SourceType>, s: SourceType)
    requires selected != [] && s !in selected
    ensures Toggle(Toggle(selected, s), s) == selected
  {
    var on := selected + [s];
    assert s in on && |on| > 1;
    FilterAppend(selected, [s], OtherThan(s));
    FilterSingle(s, OtherThan(s));
    FilterKeepsAll(selected, OtherThan(s));
  }

  /** Filtering by a test every element passes changes nothing. */
  lemma {:induction false} FilterKeepsAll<T>(xs: seq<T>, p: T -> bool)
    requires forall i :: 0 <= i < |xs| ==> p(xs[i])
    ensures Filter(xs, p) == xs
  {
    if xs != [] {
      var n := |xs| - 1;
      assert xs == xs[..n] + [xs[n]];
      FilterAppend(xs[..n], [xs[n]], p);
      FilterSingle(xs[n], p);
      FilterKeepsAll(xs[..n], p);
    }
  }

  /** Filtering a list without repeats leaves a list without repeats. */
  lemma {:induction false} FilterDistinct<T>(xs: seq<T>, p: T -> bool)
    requires Distinct(xs)
    ensures Distinct(Filter(xs, p))
  {
    if xs != [] {
      var n := |xs| - 1;
      var q := xs[..n];
      FilterDistinct(q, p);
      assert xs[n] !in q;
      var f := Filter(q, p);
      assert forall i :: 0 <= i < |f| ==> f[i] in q;
    }
  }
}
