/** Small shared vocabulary: an Option type and the sequence operations the
    application performs again and again (first-seen deduplication, counting,
    order-preserving sub-lists). */
module Base {

  datatype Option<+T> = None | Some(value: T) {
    function GetOr(default: T): T {
      if Some? then value else default
    }
  }

  /** Concatenation is associative. Stating it as a lemma lets a proof regroup
      a concatenation without unfolding its parts. */
  lemma AppendAssoc<T>(a: seq<T>, b: seq<T>, c: seq<T>)
    ensures (a + b) + c == a + (b + c)
  {
  }

  /** A prefix stays a prefix when the longer sequence grows. */
  lemma PrefixGrow<T>(a: seq<T>, b: seq<T>, c: seq<T>)
    requires a <= b
    ensures a <= b + c
  {
    assert (b + c)[..|a|] == b[..|a|];
  }

  /** A slice cut at one point. */
  lemma SliceSplit<T>(s: seq<T>, a: nat, b: nat, c: nat)
    requires a <= b <= c <= |s|
    ensures s[a..c] == s[a..b] + s[b..c]
  {
  }

  /** A slice made of five consecutive pieces. */
  lemma SliceOfFive<T>(s: seq<T>, p0: nat, p1: nat, p2: nat, p3: nat, p4: nat, p5: nat,
                       x1: seq<T>, x2: seq<T>, x3: seq<T>, x4: seq<T>, x5: seq<T>)
    requires p0 <= p1 <= p2 <= p3 <= p4 <= p5 <= |s|
    requires s[p0..p1] == x1 && s[p1..p2] == x2 && s[p2..p3] == x3 && s[p3..p4] == x4 && s[p4..p5] == x5
    ensures s[p0..p5] == x1 + x2 + x3 + x4 + x5
  {
    SliceSplit(s, p0, p1, p5);
    SliceSplit(s, p1, p2, p5);
    SliceSplit(s, p2, p3, p5);
    SliceSplit(s, p3, p4, p5);
  }

  /** A suffix cut at two points. */
  lemma SliceJoin<T>(s: seq<T>, a: nat, b: nat, c: nat)
    requires a <= b <= c <= |s|
    ensures s[a..] == s[a..b] + s[b..c] + s[c..]
  {
    assert s[a..] == s[a..b] + s[b..];
    assert s[b..] == s[b..c] + s[c..];
  }

  /** Regrouping four parts, as a loop that appends two of them needs. */
  lemma AppendRegroup<T>(p: seq<T>, h: seq<T>, c: seq<T>, r: seq<T>)
    ensures p + (h + c + r) == (p + h + c) + r
  {
  }

  /** The middle of three parts, cut back out of their concatenation. */
  lemma Enclosed<T>(a: seq<T>, b: seq<T>, c: seq<T>)
    ensures var p := a + b + c;
            |p| >= |a| + |c| && a <= p && p[|p| - |c|..] == c && p[|a|..|p| - |c|] == b
  {
    var p := a + b + c;
    assert p[..|a|] == a;
    assert p[|a| + |b|..] == c;
    assert p[|a|..|a| + |b|] == b;
  }

  /** Number of occurrences of `x` in `xs`. */
  function Count<T(==)>(xs: seq<T>, x: T): nat
  {
    if xs == [] then 0
    else Count(xs[..|xs| - 1], x) + (if xs[|xs| - 1] == x then 1 else 0)
  }

  predicate Distinct<T(==)>(xs: seq<T>)
  {
    forall i, j :: 0 <= i < j < |xs| ==> xs[i] != xs[j]
  }

  /** The distinct elements of `xs`, each at the place where it is first seen
      (the key order of a JavaScript object filled while walking `xs`). */
  function Dedup<T(==)>(xs: seq<T>): (d: seq<T>)
    ensures forall i :: 0 <= i < |d| ==> d[i] in xs
    ensures forall i :: 0 <= i < |xs| ==> xs[i] in d
    ensures Distinct(d)
    ensures |d| <= |xs|
  {
    if xs == [] then []
    else
      var p := xs[..|xs| - 1];
      assert xs == p + [xs[|xs| - 1]];
      var d := Dedup(p);
      if xs[|xs| - 1] in d then d else d + [xs[|xs| - 1]]
  }

  /** `Dedup` of a list grown by one element. */
  lemma DedupSnoc<T>(xs: seq<T>, y: T)
    ensures Dedup(xs + [y]) == if y in Dedup(xs) then Dedup(xs) else Dedup(xs) + [y]
  {
    assert (xs + [y])[..|xs|] == xs;
  }

  /** Index of the first occurrence of `x` in `xs`. */
  function FirstIndex<T(==)>(xs: seq<T>, x: T): (k: nat)
    requires x in xs
    ensures k < |xs| && xs[k] == x && x !in xs[..k]
  {
    if xs[0] == x then 0
    else
      assert x in xs[1..];
      var k := FirstIndex(xs[1..], x);
      assert xs[..k + 1] == [xs[0]] + xs[1..][..k];
      k + 1
  }

  lemma FirstIndexUnique<T>(xs: seq<T>, x: T, k: nat)
    requires k < |xs| && xs[k] == x && x !in xs[..k]
    ensures FirstIndex(xs, x) == k
  {
  }

  /** Appending an element does not move the first occurrence of an element
      already present. */
  lemma FirstIndexSnoc<T>(p: seq<T>, z: T, y: T)
    requires y in p
    ensures FirstIndex(p + [z], y) == FirstIndex(p, y)
  {
    var k := FirstIndex(p, y);
    assert (p + [z])[..k] == p[..k];
    FirstIndexUnique(p + [z], y, k);
  }

  /** Deduplication keeps the order in which elements are first seen. */
  lemma {:induction false} DedupFirstSeenOrder<T>(xs: seq<T>)
    ensures forall i, j :: 0 <= i < j < |Dedup(xs)| ==>
              FirstIndex(xs, Dedup(xs)[i]) < FirstIndex(xs, Dedup(xs)[j])
  {
    if xs != [] {
      var n := |xs| - 1;
      var p := xs[..n];
      assert xs == p + [xs[n]];
      DedupFirstSeenOrder(p);
      var d := Dedup(p);
      forall i | 0 <= i < |d|
        ensures FirstIndex(xs, d[i]) == FirstIndex(p, d[i])
      {
        FirstIndexSnoc(p, xs[n], d[i]);
      }
      if xs[n] !in d {
        assert xs[..n] == p;
        FirstIndexUnique(xs, xs[n], n);
        assert Dedup(xs) == d + [xs[n]];
      }
    }
  }

  /** Sum, over `keys`, of the number of occurrences of each key in `xs`. */
  function SumCounts<T(==)>(keys: seq<T>, xs: seq<T>): nat
  {
    if keys == [] then 0
    else SumCounts(keys[..|keys| - 1], xs) + Count(xs, keys[|keys| - 1])
  }

  lemma {:induction false} CountAbsent<T>(xs: seq<T>, x: T)
    requires x !in xs
    ensures Count(xs, x) == 0
  {
    if xs != [] {
      assert xs == xs[..|xs| - 1] + [xs[|xs| - 1]];
      CountAbsent(xs[..|xs| - 1], x);
    }
  }

  lemma {:induction false} CountPositive<T>(xs: seq<T>, x: T)
    requires x in xs
    ensures Count(xs, x) >= 1
  {
    var n := |xs| - 1;
    assert xs == xs[..n] + [xs[n]];
    if xs[n] != x {
      CountPositive(xs[..n], x);
    }
  }

  lemma CountSnoc<T>(xs: seq<T>, y: T, x: T)
    ensures Count(xs + [y], x) == Count(xs, x) + (if y == x then 1 else 0)
  {
    assert (xs + [y])[..|xs|] == xs;
  }

  lemma {:induction false} SumCountsSnoc<T>(keys: seq<T>, xs: seq<T>, y: T)
    requires Distinct(keys)
    ensures SumCounts(keys, xs + [y]) == SumCounts(keys, xs) + (if y in keys then 1 else 0)
  {
    if keys != [] {
      var m := |keys| - 1;
      var prefix := keys[..m];
      assert keys == prefix + [keys[m]];
      SumCountsSnoc(prefix, xs, y);
      CountSnoc(xs, y, keys[m]);
      if y == keys[m] {
        assert y !in prefix;
      }
    }
  }

  /** Every element of `xs` is counted exactly once under its first-seen key:
      the per-key counts add up to the length of the input. */
  lemma {:induction false} SumCountsDedup<T>(xs: seq<T>)
    ensures SumCounts(Dedup(xs), xs) == |xs|
  {
    if xs != [] {
      var n := |xs| - 1;
      var p := xs[..n];
      assert xs == p + [xs[n]];
      var d := Dedup(p);
      SumCountsDedup(p);
      SumCountsSnoc(d, p, xs[n]);
      if xs[n] !in d {
        assert Dedup(xs) == d + [xs[n]];
        assert Dedup(xs)[..|d|] == d;
        CountAbsent(p, xs[n]);
        CountSnoc(p, xs[n], xs[n]);
      }
    }
  }

  /** `xs.map(g)` */
  function MapSeq<A, B>(xs: seq<A>, g: A -> B): (r: seq<B>)
    ensures |r| == |xs|
    ensures forall i :: 0 <= i < |xs| ==> r[i] == g(xs[i])
  {
    seq(|xs|, i requires 0 <= i < |xs| => g(xs[i]))
  }

  lemma MapSeqSingle<A, B>(x: A, g: A -> B)
    ensures MapSeq([x], g) == [g(x)]
  {
  }

  lemma MapSeqAppend<A, B>(a: seq<A>, b: seq<A>, g: A -> B)
    ensures MapSeq(a + b, g) == MapSeq(a, g) + MapSeq(b, g)
  {
  }

  /** The lists `f` gives for the elements of `xs`, concatenated in order. */
  function ConcatMap<A, B>(xs: seq<A>, f: A -> seq<B>): seq<B>
  {
    if xs == [] then [] else ConcatMap(xs[..|xs| - 1], f) + f(xs[|xs| - 1])
  }

  lemma ConcatMapStep<A, B>(xs: seq<A>, f: A -> seq<B>, i: nat)
    requires i < |xs|
    ensures ConcatMap(xs[..i + 1], f) == ConcatMap(xs[..i], f) + f(xs[i])
  {
    assert xs[..i + 1][..i] == xs[..i];
  }

  lemma ConcatMapSingle<A, B>(x: A, f: A -> seq<B>)
    ensures ConcatMap([x], f) == f(x)
  {
    assert [x][..0] == [];
  }

  lemma {:induction false} ConcatMapAppend<A, B>(xs: seq<A>, ys: seq<A>, f: A -> seq<B>)
    ensures ConcatMap(xs + ys, f) == ConcatMap(xs, f) + ConcatMap(ys, f)
    decreases |ys|
  {
    if ys != [] {
      var ys' := ys[..|ys| - 1];
      var y := ys[|ys| - 1];
      assert (xs + ys)[..|xs + ys| - 1] == xs + ys';
      assert (xs + ys)[|xs + ys| - 1] == y;
      assert ConcatMap(xs + ys, f) == ConcatMap(xs + ys', f) + f(y);
      ConcatMapAppend(xs, ys', f);
      AppendAssoc(ConcatMap(xs, f), ConcatMap(ys', f), f(y));
      assert ConcatMap(ys, f) == ConcatMap(ys', f) + f(y);
    } else {
      assert xs + ys == xs;
    }
  }

  /** Every element of the concatenation comes from the list of some element. */
  lemma {:induction false} ConcatMapOrigin<A, B>(xs: seq<A>, f: A -> seq<B>, k: nat)
    requires k < |ConcatMap(xs, f)|
    ensures exists i :: 0 <= i < |xs| && ConcatMap(xs, f)[k] in f(xs[i])
  {
    var n := |xs| - 1;
    var front := ConcatMap(xs[..n], f);
    if k < |front| {
      ConcatMapOrigin(xs[..n], f, k);
      var i :| 0 <= i < n && front[k] in f(xs[..n][i]);
      assert xs[..n][i] == xs[i];
    } else {
      assert ConcatMap(xs, f)[k] == f(xs[n])[k - |front|];
    }
  }

  /** `xs` with every element equal to `x` removed, the rest in order
      (JavaScript's `xs.filter((t) => t !== x)`). */
  function RemoveAll<T(==)>(xs: seq<T>, x: T): (r: seq<T>)
    ensures forall i :: 0 <= i < |r| ==> r[i] in xs && r[i] != x
    ensures forall i :: 0 <= i < |xs| && xs[i] != x ==> xs[i] in r
    ensures |r| <= |xs|
    ensures x !in xs ==> r == xs
  {
    if xs == [] then []
    else
      var p := xs[..|xs| - 1];
      assert xs == p + [xs[|xs| - 1]];
      RemoveAll(p, x) + (if xs[|xs| - 1] == x then [] else [xs[|xs| - 1]])
  }

  /** `a` is `b` with some elements left out, the rest in their order. */
  predicate SubList<T(==)>(a: seq<T>, b: seq<T>)
    decreases |b|
  {
    if a == [] then true
    else if b == [] then false
    else if a[|a| - 1] == b[|b| - 1] then SubList(a[..|a| - 1], b[..|b| - 1])
    else SubList(a, b[..|b| - 1])
  }

  lemma {:induction false} RemoveAllSubList<T>(xs: seq<T>, x: T)
    ensures SubList(RemoveAll(xs, x), xs)
  {
    if xs != [] {
      var p := xs[..|xs| - 1];
      assert xs == p + [xs[|xs| - 1]];
      RemoveAllSubList(p, x);
      if xs[|xs| - 1] == x {
        assert RemoveAll(xs, x) == RemoveAll(p, x);
        SubListExtend(RemoveAll(p, x), p, x);
      } else {
        var r := RemoveAll(xs, x);
        assert r == RemoveAll(p, x) + [xs[|xs| - 1]];
        assert r[..|r| - 1] == RemoveAll(p, x);
      }
    }
  }

  /** A sub-list stays a sub-list when the longer list grows. */
  lemma {:induction false} SubListExtend<T>(a: seq<T>, b: seq<T>, y: T)
    requires SubList(a, b)
    ensures SubList(a, b + [y])
    decreases |b|, 1
  {
    var b' := b + [y];
    assert b'[..|b'| - 1] == b;
    if a != [] && a[|a| - 1] == y {
      SubListDropLast(a, b);
    }
  }

  /** Dropping the last element of a sub-list leaves a sub-list. */
  lemma {:induction false} SubListDropLast<T>(a: seq<T>, b: seq<T>)
    requires a != [] && SubList(a, b)
    ensures SubList(a[..|a| - 1], b)
    decreases |b|, 0
  {
    var a', b' := a[..|a| - 1], b[..|b| - 1];
    assert b == b' + [b[|b| - 1]];
    if a[|a| - 1] == b[|b| - 1] {
      SubListExtend(a', b', b[|b| - 1]);
    } else {
      SubListDropLast(a, b');
      SubListExtend(a', b', b[|b| - 1]);
    }
  }

  /** The elements of `xs` satisfying `p`, in order (JavaScript's
      `xs.filter(p)`). */
  function Filter<T>(xs: seq<T>, p: T -> bool): (r: seq<T>)
    ensures forall i :: 0 <= i < |r| ==> r[i] in xs && p(r[i])
    ensures forall i :: 0 <= i < |xs| && p(xs[i]) ==> xs[i] in r
    ensures |r| <= |xs|
  {
    if xs == [] then []
    else
      var q := xs[..|xs| - 1];
      assert xs == q + [xs[|xs| - 1]];
      Filter(q, p) + (if p(xs[|xs| - 1]) then [xs[|xs| - 1]] else [])
  }

  /** Filtering by two tests that agree everywhere gives the same list. */
  lemma {:induction false} FilterCongruent<T>(xs: seq<T>, p: T -> bool, q: T -> bool)
    requires forall x :: p(x) == q(x)
    ensures Filter(xs, p) == Filter(xs, q)
  {
    if xs != [] {
      FilterCongruent(xs[..|xs| - 1], p, q);
    }
  }

  lemma {:induction false} FilterSubList<T>(xs: seq<T>, p: T -> bool)
    ensures SubList(Filter(xs, p), xs)
  {
    if xs != [] {
      var q, y := xs[..|xs| - 1], xs[|xs| - 1];
      assert xs == q + [y];
      FilterSubList(q, p);
      if p(y) {
        var r := Filter(xs, p);
        assert r == Filter(q, p) + [y];
        assert r[..|r| - 1] == Filter(q, p);
      } else {
        assert Filter(xs, p) == Filter(q, p);
        SubListExtend(Filter(q, p), q, y);
      }
    }
  }

  lemma FilterSingle<T>(x: T, p: T -> bool)
    ensures Filter([x], p) == if p(x) then [x] else []
  {
    assert [x][..0] == [];
  }

  /** A filter of a concatenation is the concatenation of the filters. */
  lemma {:induction false} FilterAppend<T>(xs: seq<T>, ys: seq<T>, p: T -> bool)
    ensures Filter(xs + ys, p) == Filter(xs, p) + Filter(ys, p)
    decreases |ys|
  {
    if ys == [] {
      assert xs + ys == xs;
    } else {
      var q, y := ys[..|ys| - 1], ys[|ys| - 1];
      assert (xs + ys)[..|xs + ys| - 1] == xs + q;
      assert (xs + ys)[|xs + ys| - 1] == y;
      FilterAppend(xs, q, p);
      var last := if p(y) then [y] else [];
      assert Filter(xs + ys, p) == Filter(xs + q, p) + last;
      assert Filter(ys, p) == Filter(q, p) + last;
      AppendAssoc(Filter(xs, p), Filter(q, p), last);
    }
  }

  /** The index of the first element satisfying `p` (JavaScript's
      `findIndex`, with None for -1). */
  function FirstWhere<T>(xs: seq<T>, p: T -> bool): (k: Option<nat>)
    ensures k.Some? ==> k.value < |xs| && p(xs[k.value]) && forall j :: 0 <= j < k.value ==> !p(xs[j])
    ensures k.None? ==> forall j :: 0 <= j < |xs| ==> !p(xs[j])
    decreases |xs|
  {
    if xs == [] then None
    else if p(xs[0]) then Some(0)
    else match FirstWhere(xs[1..], p)
      case None => None
      case Some(j) => Some(j + 1)
  }

  /** A browser `localStorage` entry holding a JSON value: absent (or
      empty), present but not parseable, or holding a value. */
  datatype Slot<T> = Absent | Corrupt | Holds(value: T)
}
