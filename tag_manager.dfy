/** The tag editor of a session: adding a typed or suggested tag, removing a
    tag, and the suggested tags still on offer. */
module TagEditing {
  import opened Base
  import opened Text
  import opened Sessions

  const SuggestedTags: seq<string> := ["crypto", "ai", "research", "code", "news", "tutorial", "comparison"]

  /** The stored form of a tag: trimmed, then lower-cased. */
  function Normalize(tag: string): (n: string)
    ensures |n| <= |tag|
    ensures n == [] <==> Trim(tag) == []
  {
    ToLower(Trim(tag))
  }

  /** A stored tag is already in its normal form, so typing it again is
      recognised as the same tag. */
  lemma NormalizeIdempotent(tag: string)
    ensures Normalize(Normalize(tag)) == Normalize(tag)
  {
    var r := Trim(tag);
    var l := ToLower(r);
    if l != [] {
      assert !IsJsWhitespace(l[0]) && !IsJsWhitespace(l[|l| - 1]);
    }
    TrimUnchanged(l);
    ToLowerIdempotent(r);
  }

  /** The add handler's test: a tag that is not blank and whose normal form
      the session does not have yet. */
  predicate Addable(tags: seq<string>, tag: string)
    ensures Addable(tags, tag) <==> Normalize(tag) != [] && Normalize(tag) !in tags
  {
    Trim(tag) != [] && Normalize(tag) !in tags
  }

  /** A tag that was just added, in whatever spelling or padding it is typed
      again, is refused. */
  lemma AddedTagRefused(tags: seq<string>, tag: string, again: string)
    requires Normalize(again) == Normalize(tag)
    ensures !Addable(tags + [Normalize(tag)], again)
  {
    assert (tags + [Normalize(tag)])[|tags|] == Normalize(tag);
  }

  function NotIn(tags: seq<string>): string -> bool
  {
    (t: string) => t !in tags
  }

  /** The suggestions on offer: the suggested tags the session does not have,
      in their fixed order. */
  function Offered(suggested: seq<string>, tags: seq<string>): (r: seq<string>)
    ensures |r| <= |suggested|
    ensures forall i :: 0 <= i < |r| ==> r[i] in suggested && r[i] !in tags
  {
    Filter(suggested, NotIn(tags))
  }

  /** A tag is offered exactly when it is suggested and the session lacks
      it, and the offers keep the suggestion order. */
  lemma OfferedIff(suggested: seq<string>, tags: seq<string>, t: string)
    ensures t in Offered(suggested, tags) <==> t in suggested && t !in tags
    ensures SubList(Offered(suggested, tags), suggested)
  {
    FilterSubList(suggested, NotIn(tags));
    if t in suggested && t !in tags {
      var i :| 0 <= i < |suggested| && suggested[i] == t;
    }
  }

  /** The editor's own state: the text being typed and whether the input
      shows. The session's tags come from the session itself. */
  class TagEditor {
    var newTag: string
    var showInput: bool

    constructor ()
      ensures newTag == "" && !showInput
    {
      newTag := "";
      showInput := false;
    }

    /** `handleAddTag`: a blank tag or one the session already has changes
        nothing; otherwise its normal form is added to the stored session
        and the input is cleared and hidden. The result says whether the
        parent is told to reload the tags. */
    method HandleAddTag(store: SessionStore, sessionId: string, tags: seq<string>, tag: string, now: int)
      returns (changed: bool)
      modifies this, store
      ensures changed <==> Addable(tags, tag)
      ensures !changed ==>
                newTag == old(newTag) && showInput == old(showInput)
                && store.sessions == old(store.sessions) && store.currentId == old(store.currentId)
      ensures changed ==> newTag == "" && !showInput && store.currentId == old(store.currentId)
      ensures changed ==>
                var s := old(store.Get(sessionId));
                var t := Normalize(tag);
                if s.None? || t in s.value.tags then store.sessions == old(store.sessions)
                else store.sessions == Holds(SortNewestFirst(Upsert(old(store.All()), s.value.(tags := s.value.tags + [t]), now)))
    {
      changed := false;
      if Trim(tag) != [] && ToLower(Trim(tag)) !in tags {
        store.AddTag(sessionId, ToLower(Trim(tag)), now);
        newTag := "";
        showInput := false;
        changed := true;
      }
    }

    /** `handleRemoveTag`: every occurrence of the tag leaves the stored
        session. */
    method HandleRemoveTag(store: SessionStore, sessionId: string, tag: string, now: int)
      modifies store
      ensures var s := old(store.Get(sessionId));
              if s.None? then store.sessions == old(store.sessions)
              else store.sessions == Holds(SortNewestFirst(Upsert(old(store.All()), s.value.(tags := RemoveAll(s.value.tags, tag)), now)))
      ensures store.currentId == old(store.currentId)
    {
      store.RemoveTag(sessionId, tag, now);
    }
  }
}
