/** The source distribution card: how many of an answer's sources came from
    each search, in the order the searches first appear. */
module Distribution {
  import opened Base
  import opened MultiSource

  /** `item.source || "web"`: an untagged source counts as a web result. */
  function TagOf(tag: Option<SourceType>): SourceType
  {
    tag.GetOr(Web)
  }

  /** The effective tag of every source, in order. */
  function Tags(sources: seq<Option<SourceType>>): (ts: seq<SourceType>)
    ensures |ts| == |sources|
    ensures forall i :: 0 <= i < |sources| ==> ts[i] == TagOf(sources[i])
  {
    MapSeq(sources, TagOf)
  }

  /** `Object.entries(distribution)`: each tag met, where it is first met,
      with the number of sources carrying it. */
  function Entries(sources: seq<Option<SourceType>>): (es: seq<(SourceType, nat)>)
    ensures |es| <= |sources|
    ensures forall i, j :: 0 <= i < j < |es| ==> es[i].0 != es[j].0
  {
    var ts := Tags(sources);
    MapSeq(Dedup(ts), (k: SourceType) => (k, Count(ts, k)))
  }

  /** The reduce as written: the counts object filled source by source, its
      keys in the order they were first set. */
  method Distribute(sources: seq<Option<SourceType>>) returns (entries: seq<(SourceType, nat)>)
    ensures entries == Entries(sources)
  {
    var keys: seq<SourceType> := [];
    var counts: map<SourceType, nat> := map[];
    for i := 0 to |sources|
      invariant Tallied(sources, i, keys, counts)
    {
      var source := TagOf(sources[i]);
      TallyStep(sources, i, keys, counts);
      if source !in counts {
        keys := keys + [source];
      }
      counts := counts[source := (if source in counts then counts[source] else 0) + 1];
    }
    entries := MapSeq(keys, (k: SourceType) => (k, if k in counts then counts[k] else 0));
    TalliedEntries(sources, keys, counts, entries);
  }

  /** The state of the reduce after the first `n` sources: the tags set so
      far in first-seen order, and for each its number of occurrences. */
  ghost predicate Tallied(sources: seq<Option<SourceType>>, n: nat, keys: seq<SourceType>, counts: map<SourceType, nat>)
  {
    TalliedTags(Tags(sources), n, keys, counts)
  }

  ghost predicate TalliedTags(ts: seq<SourceType>, n: nat, keys: seq<SourceType>, counts: map<SourceType, nat>)
  {
    n <= |ts|
    && keys == Dedup(ts[..n])
    && (forall k :: k in counts <==> k in keys)
    && (forall k :: k in counts ==> counts[k] == Count(ts[..n], k))
  }

  /** Once every source is tallied, the counts object's entries are the rows. */
  lemma TalliedEntries(sources: seq<Option<SourceType>>, keys: seq<SourceType>, counts: map<SourceType, nat>,
                       entries: seq<(SourceType, nat)>)
    requires Tallied(sources, |sources|, keys, counts)
    requires |entries| == |keys|
    requires forall j :: 0 <= j < |keys| ==> entries[j] == (keys[j], if keys[j] in counts then counts[keys[j]] else 0)
    ensures entries == Entries(sources)
  {
    var ts := Tags(sources);
    assert ts[..|sources|] == ts;
    assert forall j :: 0 <= j < |keys| ==> entries[j] == (keys[j], Count(ts, keys[j]));
  }

  /** One more source: its tag joins the keys when it is new, and its count
      alone grows by one, from nothing when the tag is new. */
  lemma TallyStep(sources: seq<Option<SourceType>>, i: nat, keys: seq<SourceType>, counts: map<SourceType, nat>)
    requires i < |sources| && Tallied(sources, i, keys, counts)
    ensures var t := TagOf(sources[i]);
            Tallied(sources, i + 1, if t in counts then keys else keys + [t],
                    counts[t := (if t in counts then counts[t] else 0) + 1])
  {
    assert Tags(sources)[i] == TagOf(sources[i]);
    TallyTagStep(Tags(sources), i, keys, counts);
  }

  lemma TallyTagStep(ts: seq<SourceType>, i: nat, keys: seq<SourceType>, counts: map<SourceType, nat>)
    requires i < |ts| && TalliedTags(ts, i, keys, counts)
    ensures TalliedTags(ts, i + 1, if ts[i] in counts then keys else keys + [ts[i]],
                        counts[ts[i] := (if ts[i] in counts then counts[ts[i]] else 0) + 1])
  {
    var after := counts[ts[i] := (if ts[i] in counts then counts[ts[i]] else 0) + 1];
    KeysStep(ts, i, keys);
    CountsStep(ts, i, counts, after);
  }

  /** The keys after one more source. */
  lemma KeysStep(ts: seq<SourceType>, i: nat, keys: seq<SourceType>)
    requires i < |ts| && keys == Dedup(ts[..i])
    ensures Dedup(ts[..i + 1]) == if ts[i] in keys then keys else keys + [ts[i]]
  {
    assert ts[..i + 1] == ts[..i] + [ts[i]];
    DedupSnoc(ts[..i], ts[i]);
  }

  /** The counts after one more source. */
  lemma CountsStep(ts: seq<SourceType>, i: nat, before: map<SourceType, nat>, after: map<SourceType, nat>)
    requires i < |ts|
    requires forall k :: k in before <==> k in Dedup(ts[..i])
    requires forall k :: k in before ==> before[k] == Count(ts[..i], k)
    requires after == before[ts[i] := (if ts[i] in before then before[ts[i]] else 0) + 1]
    ensures forall k :: k in after ==> after[k] == Count(ts[..i + 1], k)
  {
    assert ts[..i + 1] == ts[..i] + [ts[i]];
    forall k | k in after
      ensures after[k] == Count(ts[..i + 1], k)
    {
      CountSnoc(ts[..i], ts[i], k);
      if k != ts[i] {
        assert after[k] == before[k] == Count(ts[..i], k);
      } else if k !in before {
        assert k !in Dedup(ts[..i]);
        CountAbsent(ts[..i], k);
      }
    }
  }

  /** The sum of the counts of a list of entries. */
  function Total(entries: seq<(SourceType, nat)>): nat
  {
    if entries == [] then 0
    else Total(entries[..|entries| - 1]) + entries[|entries| - 1].1
  }

  lemma {:induction false} TotalIsSumCounts(keys: seq<SourceType>, ts: seq<SourceType>)
    ensures Total(MapSeq(keys, (k: SourceType) => (k, Count(ts, k)))) == SumCounts(keys, ts)
  {
    if keys != [] {
      var n := |keys| - 1;
      var m := MapSeq(keys, (k: SourceType) => (k, Count(ts, k)));
      assert m[..n] == MapSeq(keys[..n], (k: SourceType) => (k, Count(ts, k)));
      TotalIsSumCounts(keys[..n], ts);
    }
  }

  /** The counts of the card's rows add up to the number of sources. */
  lemma EntriesTotal(sources: seq<Option<SourceType>>)
    ensures Total(Entries(sources)) == |sources|
  {
    var ts := Tags(sources);
    TotalIsSumCounts(Dedup(ts), ts);
    SumCountsDedup(ts);
  }

  /** Every row is a tag some source carries, with a count of at least one,
      and every source's tag has its row. */
  lemma EntriesCounted(sources: seq<Option<SourceType>>)
    ensures var es := Entries(sources);
            && (forall i :: 0 <= i < |es| ==> es[i].1 >= 1 && es[i].0 in Tags(sources))
            && (forall i :: 0 <= i < |sources| ==> exists j :: 0 <= j < |es| && es[j].0 == TagOf(sources[i]))
  {
    var ts := Tags(sources);
    var d := Dedup(ts);
    var es := Entries(sources);
    forall i | 0 <= i < |es|
      ensures es[i].1 >= 1
    {
      CountPositive(ts, d[i]);
    }
    forall i | 0 <= i < |sources|
      ensures exists j :: 0 <= j < |es| && es[j].0 == TagOf(sources[i])
    {
      assert ts[i] in d;
      var j :| 0 <= j < |d| && d[j] == ts[i];
      assert es[j].0 == TagOf(sources[i]);
    }
  }

  /** The rows come in the order their tags are first met. */
  lemma EntriesFirstSeenOrder(sources: seq<Option<SourceType>>)
    ensures var es := Entries(sources);
            forall i, j :: 0 <= i < j < |es| ==>
              FirstIndex(Tags(sources), es[i].0) < FirstIndex(Tags(sources), es[j].0)
  {
    DedupFirstSeenOrder(Tags(sources));
  }

  /** An untagged source is counted with the web results. */
  lemma {:induction false} UntaggedCountsAsWeb(sources: seq<Option<SourceType>>)
    ensures Count(Tags(sources), Web) == Count(sources, None) + Count(sources, Some(Web))
  {
    if sources != [] {
      var n := |sources| - 1;
      assert Tags(sources)[..n] == Tags(sources[..n]);
      UntaggedCountsAsWeb(sources[..n]);
    }
  }

  /** The card: nothing when there are no sources, otherwise its rows. */
  function Card(sources: seq<Option<SourceType>>): (r: Option<seq<(SourceType, nat)>>)
    ensures r.None? <==> sources == []
    ensures r.Some? ==> r.value == Entries(sources) && r.value != []
  {
    if |sources| == 0 then None
    else
      assert Tags(sources)[0] in Dedup(Tags(sources));
      Some(Entries(sources))
  }
}
