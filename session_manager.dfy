/** The session history panel: the search over saved sessions and the two
    delete actions. */
module History {
  import opened Base
  import opened Text
  import opened Sessions

  /** Some message of the session mentions the query, case aside. */
  predicate MessageMentions(ms: seq<Message>, lq: string)
  {
    exists i :: 0 <= i < |ms| && Contains(ToLower(ms[i].content), lq)
  }

  /** The search test: the lower-cased query occurs in the lower-cased title
      or in some message's lower-cased content. */
  predicate Matches(query: string, s: Session)
  {
    Contains(ToLower(s.title), ToLower(query)) || MessageMentions(s.messages, ToLower(query))
  }

  function MatchesQuery(query: string): Session -> bool
  {
    (s: Session) => Matches(query, s)
  }

  /** `filteredSessions`. */
  function Search(sessions: seq<Session>, query: string): (r: seq<Session>)
    ensures |r| <= |sessions|
    ensures forall i :: 0 <= i < |r| ==> r[i] in sessions && Matches(query, r[i])
  {
    Filter(sessions, MatchesQuery(query))
  }

  /** The sessions shown are, in their order, exactly the loaded ones that
      match. */
  lemma SearchIff(sessions: seq<Session>, query: string, s: Session)
    ensures s in Search(sessions, query) <==> s in sessions && Matches(query, s)
    ensures SubList(Search(sessions, query), sessions)
  {
    FilterSubList(sessions, MatchesQuery(query));
    if s in sessions && Matches(query, s) {
      var i :| 0 <= i < |sessions| && sessions[i] == s;
    }
  }

  /** An empty search shows every session. */
  lemma {:induction false} EmptySearchKeepsAll(sessions: seq<Session>)
    ensures Search(sessions, "") == sessions
  {
    if sessions != [] {
      var n := |sessions| - 1;
      assert ToLower("") == "";
      assert MatchesAt(ToLower(sessions[n].title), "", 0);
      assert sessions == sessions[..n] + [sessions[n]];
      FilterAppend(sessions[..n], [sessions[n]], MatchesQuery(""));
      FilterSingle(sessions[n], MatchesQuery(""));
      EmptySearchKeepsAll(sessions[..n]);
    }
  }

  /** The search ignores the case of the query. */
  lemma SearchCaseInsensitive(sessions: seq<Session>, query: string)
    ensures Search(sessions, ToLower(query)) == Search(sessions, query)
  {
    ToLowerIdempotent(query);
    FilterCongruent(sessions, MatchesQuery(ToLower(query)), MatchesQuery(query));
  }

  /** The panel's list of loaded sessions. */
  class HistoryPanel {
    var sessions: seq<Session>

    constructor ()
      ensures sessions == []
    {
      sessions := [];
    }

    /** `loadSessions`: the stored sessions. */
    method Load(store: SessionStore)
      modifies this
      ensures sessions == store.All()
    {
      sessions := store.All();
    }

    /** `handleDelete`, given the answer to its confirmation: the session
        leaves the store, the list is reloaded without it, and its id is
        passed on; nothing happens when the answer is no. */
    method HandleDelete(store: SessionStore, id: string, confirmed: bool) returns (deleted: Option<string>)
      modifies this, store
      ensures !confirmed ==>
                deleted == None && sessions == old(sessions)
                && store.sessions == old(store.sessions) && store.currentId == old(store.currentId)
      ensures confirmed ==>
                deleted == Some(id)
                && store.sessions == Holds(Filter(old(store.All()), OtherId(id)))
                && sessions == store.All()
                && store.currentId == (if old(store.currentId) == Some(id) then None else old(store.currentId))
                && forall s :: s in sessions ==> s.id != id
    {
      deleted := None;
      if confirmed {
        store.Delete(id);
        Load(store);
        deleted := Some(id);
      }
    }

    /** `handleDeleteAll`, given the answer to its confirmation: the store is
        emptied, the list is reloaded empty and a new session is started. */
    method HandleDeleteAll(store: SessionStore, confirmed: bool) returns (newSession: bool)
      modifies this, store
      ensures !confirmed ==>
                !newSession && sessions == old(sessions)
                && store.sessions == old(store.sessions) && store.currentId == old(store.currentId)
      ensures confirmed ==> newSession && store.sessions == Absent && store.currentId == None && sessions == []
    {
      newSession := false;
      if confirmed {
        store.DeleteAll();
        Load(store);
        newSession := true;
      }
    }
  }
}
