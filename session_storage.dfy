/** The research-session store (lib/session-storage.ts): the sessions kept in
    one browser `localStorage` entry as a JSON list, newest first, and the id
    of the current session in another. The clock is a `now` parameter and
    the JSON text of the entry is abstracted by the `Slot` it holds. */
module Sessions {
  import opened Base
  import opened Text

  datatype Role = User | Assistant

  /** A source as saved with a message. */
  datatype SourceRef = SourceRef(title: string, url: string, snippet: string)

  /** A saved message; an absent `bookmarked` flag reads as false.
      Timestamps are milliseconds. */
  datatype Message = Message(id: string, role: Role, content: string,
                             sources: Option<seq<SourceRef>>, timestamp: int, bookmarked: bool)

  /** A saved session; absent `tags` read as the empty list. */
  datatype Session = Session(id: string, title: string, messages: seq<Message>,
                             createdAt: int, updatedAt: int, tags: seq<string>)

  // ---------------------------------------------------------------------------
  // Looking a session up

  function HasId(id: string): Session -> bool
  {
    (s: Session) => s.id == id
  }

  function OtherId(id: string): Session -> bool
  {
    (s: Session) => s.id != id
  }

  predicate Known(ss: seq<Session>, id: string)
  {
    exists s :: s in ss && s.id == id
  }

  /** `sessions.find((s) => s.id === id) || null`. */
  function Find(ss: seq<Session>, id: string): (r: Option<Session>)
    ensures r.Some? <==> Known(ss, id)
    ensures r.Some? ==> r.value.id == id
                        && exists k :: 0 <= k < |ss| && ss[k] == r.value
                                       && forall j :: 0 <= j < k ==> ss[j].id != id
  {
    match FirstWhere(ss, HasId(id))
    case Some(k) => Some(ss[k])
    case None =>
      assert forall s :: s in ss ==> s.id != id by {
        forall s | s in ss ensures s.id != id {
          var j :| 0 <= j < |ss| && ss[j] == s;
          assert !HasId(id)(ss[j]);
        }
      }
      None
  }

  /** No two sessions share an id: what `save` keeps once it holds. */
  predicate UniqueIds(ss: seq<Session>)
  {
    forall i, j :: 0 <= i < j < |ss| ==> ss[i].id != ss[j].id
  }

  // ---------------------------------------------------------------------------
  // Saving

  /** The list `save` sorts: the first session with the new one's id replaced
      by it, stamped with `now`; or the new one appended, as given. */
  function Upsert(ss: seq<Session>, session: Session, now: int): (r: seq<Session>)
    ensures |ss| <= |r| <= |ss| + 1
    ensures forall i :: 0 <= i < |ss| && ss[i].id != session.id ==> r[i] == ss[i]
  {
    match FirstWhere(ss, HasId(session.id))
    case Some(k) => ss[k := session.(updatedAt := now)]
    case None => ss + [session]
  }

  /** The session `save` stores: stamped with `now` when it replaces one. */
  function Stored(ss: seq<Session>, session: Session, now: int): Session
  {
    if Known(ss, session.id) then session.(updatedAt := now) else session
  }

  /** The count grows by one exactly when the id was absent. */
  lemma UpsertLength(ss: seq<Session>, session: Session, now: int)
    ensures |Upsert(ss, session, now)| == |ss| + (if Known(ss, session.id) then 0 else 1)
  {
    if FirstWhere(ss, HasId(session.id)).None? {
      UpsertUnknown(ss, session, now);
    } else {
      var k := FirstWhere(ss, HasId(session.id)).value;
      assert ss[k] in ss && HasId(session.id)(ss[k]);
    }
  }

  /** A known id is replaced, stamped with `now`, at its first position;
      every other session stays where it was. */
  lemma UpsertKnown(ss: seq<Session>, session: Session, now: int, k: nat)
    requires k < |ss| && ss[k].id == session.id
    requires forall j :: 0 <= j < k ==> ss[j].id != session.id
    ensures Known(ss, session.id)
    ensures Upsert(ss, session, now) == ss[k := Stored(ss, session, now)]
  {
    assert ss[k] in ss;
    var f := FirstWhere(ss, HasId(session.id));
    assert HasId(session.id)(ss[k]);
  }

  /** An unknown id is appended as given. */
  lemma UpsertUnknown(ss: seq<Session>, session: Session, now: int)
    ensures !Known(ss, session.id) <==> FirstWhere(ss, HasId(session.id)).None?
    ensures !Known(ss, session.id) ==> Upsert(ss, session, now) == ss + [session]
  {
    var f := FirstWhere(ss, HasId(session.id));
    if f.None? {
      forall s | s in ss ensures s.id != session.id {
        var j :| 0 <= j < |ss| && ss[j] == s;
        assert !HasId(session.id)(ss[j]);
      }
    } else {
      assert ss[f.value] in ss && HasId(session.id)(ss[f.value]);
    }
  }

  /** Upserting into a list without duplicate ids keeps it without duplicate
      ids, and the stored session is the only one with its id. */
  lemma UpsertUnique(ss: seq<Session>, session: Session, now: int)
    requires UniqueIds(ss)
    ensures UniqueIds(Upsert(ss, session, now))
    ensures forall s :: s in Upsert(ss, session, now) && s.id == session.id ==> s == Stored(ss, session, now)
  {
    var r := Upsert(ss, session, now);
    UpsertUnknown(ss, session, now);
    if Known(ss, session.id) {
      var k := FirstWhere(ss, HasId(session.id)).value;
      UpsertKnown(ss, session, now, k);
      assert forall j :: 0 <= j < |ss| && j != k ==> r[j] == ss[j];
      forall s | s in r && s.id == session.id ensures s == Stored(ss, session, now) {
        var i :| 0 <= i < |r| && r[i] == s;
      }
    } else {
      forall s | s in r && s.id == session.id ensures s == Stored(ss, session, now) {
        var i :| 0 <= i < |r| && r[i] == s;
      }
      forall i, j | 0 <= i < j < |r| ensures r[i].id != r[j].id {
        assert ss[i] in ss;
      }
    }
  }

  /** Sessions in order of decreasing `updatedAt`. */
  predicate NewestFirst(ss: seq<Session>)
  {
    forall i, j :: 0 <= i < j < |ss| ==> ss[i].updatedAt >= ss[j].updatedAt
  }

  /** `x` placed after every session at least as recent, before the older
      ones. */
  function InsertNewestFirst(ss: seq<Session>, x: Session): seq<Session>
    decreases |ss|
  {
    if ss == [] || ss[|ss| - 1].updatedAt >= x.updatedAt then ss + [x]
    else InsertNewestFirst(ss[..|ss| - 1], x) + [ss[|ss| - 1]]
  }

  lemma {:induction false} InsertPermutes(ss: seq<Session>, x: Session)
    ensures multiset(InsertNewestFirst(ss, x)) == multiset(ss) + multiset{x}
    decreases |ss|
  {
    if !(ss == [] || ss[|ss| - 1].updatedAt >= x.updatedAt) {
      var p, y := ss[..|ss| - 1], ss[|ss| - 1];
      assert ss == p + [y];
      InsertPermutes(p, x);
    }
  }

  lemma {:induction false} InsertKeepsOrder(ss: seq<Session>, x: Session)
    requires NewestFirst(ss)
    ensures NewestFirst(InsertNewestFirst(ss, x))
    decreases |ss|
  {
    if !(ss == [] || ss[|ss| - 1].updatedAt >= x.updatedAt) {
      var p, y := ss[..|ss| - 1], ss[|ss| - 1];
      InsertKeepsOrder(p, x);
      InsertPermutes(p, x);
      var q := InsertNewestFirst(p, x);
      forall i | 0 <= i < |q| ensures q[i].updatedAt >= y.updatedAt {
        assert q[i] in multiset(q);
        assert q[i] == x || q[i] in multiset(p);
      }
    }
  }

  /** `sessions.sort((a, b) => b.updatedAt - a.updatedAt)`: JavaScript's sort
      is stable, so this is an insertion sort that puts each session after
      the ones at least as recent. */
  function SortNewestFirst(ss: seq<Session>): (r: seq<Session>)
    ensures NewestFirst(r)
    ensures multiset(r) == multiset(ss)
  {
    if ss == [] then []
    else
      var p, y := ss[..|ss| - 1], ss[|ss| - 1];
      assert ss == p + [y];
      InsertKeepsOrder(SortNewestFirst(p), y);
      InsertPermutes(SortNewestFirst(p), y);
      InsertNewestFirst(SortNewestFirst(p), y)
  }

  function UpdatedAt(t: int): Session -> bool
  {
    (s: Session) => s.updatedAt == t
  }

  /** The sessions last updated at `t`, in order. */
  function Tied(ss: seq<Session>, t: int): seq<Session>
  {
    Filter(ss, UpdatedAt(t))
  }

  lemma {:induction false} InsertKeepsTies(ss: seq<Session>, x: Session, t: int)
    ensures Tied(InsertNewestFirst(ss, x), t) == Tied(ss, t) + (if x.updatedAt == t then [x] else [])
    decreases |ss|
  {
    var last := if x.updatedAt == t then [x] else [];
    FilterSingle(x, UpdatedAt(t));
    if ss == [] || ss[|ss| - 1].updatedAt >= x.updatedAt {
      FilterAppend(ss, [x], UpdatedAt(t));
    } else {
      var p, y := ss[..|ss| - 1], ss[|ss| - 1];
      assert ss == p + [y];
      InsertKeepsTies(p, x, t);
      var q := InsertNewestFirst(p, x);
      var mid := if y.updatedAt == t then [y] else [];
      FilterSingle(y, UpdatedAt(t));
      FilterAppend(q, [y], UpdatedAt(t));
      FilterAppend(p, [y], UpdatedAt(t));
      OneOfTwoEmpty(Tied(p, t), last, mid);
    }
  }

  lemma OneOfTwoEmpty(a: seq<Session>, b: seq<Session>, c: seq<Session>)
    requires b == [] || c == []
    ensures a + b + c == a + c + b
  {
    if b == [] {
      assert a + b == a;
      assert a + c + b == a + c;
    } else {
      assert a + c == a;
      assert a + b + c == a + b;
    }
  }

  /** The sort is stable: sessions updated at the same time keep their order. */
  lemma {:induction false} SortIsStable(ss: seq<Session>, t: int)
    ensures Tied(SortNewestFirst(ss), t) == Tied(ss, t)
  {
    if ss != [] {
      var p, y := ss[..|ss| - 1], ss[|ss| - 1];
      assert ss == p + [y];
      SortIsStable(p, t);
      InsertKeepsTies(SortNewestFirst(p), y, t);
      FilterAppend(p, [y], UpdatedAt(t));
      FilterSingle(y, UpdatedAt(t));
    }
  }

  /** A list without duplicate ids holds each session at most once. */
  lemma {:induction false} UniqueIdsOnce(ss: seq<Session>, x: Session)
    requires UniqueIds(ss)
    ensures multiset(ss)[x] <= 1
  {
    if ss != [] {
      var rest := ss[1..];
      assert ss == [ss[0]] + rest;
      assert UniqueIds(rest) by {
        forall i, j | 0 <= i < j < |rest| ensures rest[i].id != rest[j].id {
          assert rest[i] == ss[i + 1] && rest[j] == ss[j + 1];
        }
      }
      UniqueIdsOnce(rest, x);
      if x == ss[0] {
        forall i | 0 <= i < |rest| ensures rest[i] != x {
          assert rest[i] == ss[i + 1];
        }
        assert x !in rest;
      }
    }
  }

  /** Reordering a list without duplicate ids leaves it without duplicate ids. */
  lemma PermutationKeepsUniqueIds(a: seq<Session>, b: seq<Session>)
    requires UniqueIds(a)
    requires multiset(a) == multiset(b)
    ensures UniqueIds(b)
  {
    forall i, j | 0 <= i < j < |b| ensures b[i].id != b[j].id {
      var x := b[j];
      assert b == b[..j] + [x] + b[j + 1..];
      UniqueIdsOnce(a, x);
      assert x !in multiset(b[..j]);
      assert b[i] in b[..j];
      assert b[i] in multiset(a) && x in multiset(a);
      var k :| 0 <= k < |a| && a[k] == b[i];
      var l :| 0 <= l < |a| && a[l] == x;
    }
  }

  /** After a save into a store without duplicate ids, `get` finds the saved
      session (stamped with `now` when it replaced one), ids stay unique, and
      the list is newest first. */
  lemma SaveThenGet(ss: seq<Session>, session: Session, now: int)
    requires UniqueIds(ss)
    ensures var r := SortNewestFirst(Upsert(ss, session, now));
            Find(r, session.id) == Some(Stored(ss, session, now)) && NewestFirst(r) && UniqueIds(r)
  {
    UpsertUnique(ss, session, now);
    PermutationKeepsUniqueIds(Upsert(ss, session, now), SortNewestFirst(Upsert(ss, session, now)));
    UpsertUnknown(ss, session, now);
    var u := Upsert(ss, session, now);
    var r := SortNewestFirst(u);
    var stored := Stored(ss, session, now);
    assert stored in u by {
      if Known(ss, session.id) {
        var k := FirstWhere(ss, HasId(session.id)).value;
        UpsertKnown(ss, session, now, k);
        assert u[k] == stored;
      } else {
        assert u[|ss|] == stored;
      }
    }
    assert stored in multiset(r);
    var f := Find(r, session.id);
    assert f.Some?;
    assert f.value in multiset(u);
  }

  // ---------------------------------------------------------------------------
  // Titles, tags, bookmarks and the shareable text

  const NewSessionTitle := "New Research Session"
  const Ellipsis := "..."

  function IsUserMessage(m: Message): bool
  {
    m.role == User
  }

  /** `generateTitle`: the first user message, trimmed, cut to 47 characters
      and "..." when longer than 50; "New Research Session" without one. */
  function GenerateTitle(ms: seq<Message>): (t: string)
    ensures |t| <= 50
    ensures (forall i :: 0 <= i < |ms| ==> ms[i].role != User) ==> t == NewSessionTitle
  {
    match FirstWhere(ms, IsUserMessage)
    case None => NewSessionTitle
    case Some(k) =>
      var c := Trim(ms[k].content);
      if |c| <= 50 then c else c[..47] + Ellipsis
  }

  /** The three cases of the title; every title has at most 50 characters. */
  lemma GenerateTitleCases(ms: seq<Message>)
    ensures |GenerateTitle(ms)| <= 50
    ensures (forall i :: 0 <= i < |ms| ==> ms[i].role != User) ==> GenerateTitle(ms) == NewSessionTitle
    ensures forall k :: 0 <= k < |ms| && ms[k].role == User && (forall j :: 0 <= j < k ==> ms[j].role != User) ==>
              var c := Trim(ms[k].content);
              (|c| <= 50 ==> GenerateTitle(ms) == c)
              && (|c| > 50 ==> |GenerateTitle(ms)| == 50 && GenerateTitle(ms) == c[..47] + Ellipsis)
  {
    match FirstWhere(ms, IsUserMessage)
    case None =>
    case Some(k) =>
      assert forall j :: 0 <= j < k ==> !IsUserMessage(ms[j]);
      forall k' | 0 <= k' < |ms| && ms[k'].role == User && (forall j :: 0 <= j < k' ==> ms[j].role != User)
        ensures k' == k
      {
      }
  }

  /** The messages with `id` have their bookmark flag flipped, the others
      stay as they are. */
  function ToggleBookmarks(ms: seq<Message>, id: string): (r: seq<Message>)
    ensures |r| == |ms|
    ensures forall i :: 0 <= i < |ms| ==> r[i].id == ms[i].id && r[i].content == ms[i].content
    ensures forall i :: 0 <= i < |ms| && ms[i].id != id ==> r[i] == ms[i]
  {
    MapSeq(ms, (m: Message) => if m.id == id then m.(bookmarked := !m.bookmarked) else m)
  }

  /** Toggling flips exactly the flags of the messages with `id`, leaves every
      other field and message alone, and twice is the identity. */
  lemma ToggleBookmarksFlips(ms: seq<Message>, id: string)
    ensures var r := ToggleBookmarks(ms, id);
            |r| == |ms|
            && (forall i :: 0 <= i < |ms| ==>
                  r[i].bookmarked == (if ms[i].id == id then !ms[i].bookmarked else ms[i].bookmarked)
                  && r[i] == ms[i].(bookmarked := r[i].bookmarked))
            && ToggleBookmarks(r, id) == ms
  {
    var r := ToggleBookmarks(ms, id);
    var rr := ToggleBookmarks(r, id);
    assert forall i :: 0 <= i < |ms| ==> rr[i] == ms[i];
  }

  /** The bookmarked messages of one session, each with its session. */
  function MarkedIn(s: Session, ms: seq<Message>): (r: seq<(Session, Message)>)
    ensures forall k :: 0 <= k < |r| ==> r[k].0 == s && r[k].1.bookmarked
  {
    if ms == [] then []
    else MarkedIn(s, ms[..|ms| - 1]) + (if ms[|ms| - 1].bookmarked then [(s, ms[|ms| - 1])] else [])
  }

  /** `getBookmarkedMessages`, as a value: session order, then message order. */
  function Bookmarked(ss: seq<Session>): (r: seq<(Session, Message)>)
    ensures forall k :: 0 <= k < |r| ==> r[k].0 in ss && r[k].1.bookmarked
  {
    if ss == [] then []
    else Bookmarked(ss[..|ss| - 1]) + MarkedIn(ss[|ss| - 1], ss[|ss| - 1].messages)
  }

  lemma {:induction false} MarkedInIff(s: Session, ms: seq<Message>, p: (Session, Message))
    ensures p in MarkedIn(s, ms) <==> p.0 == s && p.1 in ms && p.1.bookmarked
  {
    if ms != [] {
      var q := ms[..|ms| - 1];
      assert ms == q + [ms[|ms| - 1]];
      MarkedInIff(s, q, p);
    }
  }

  /** A pair is listed exactly when its message is a bookmarked message of
      its session, a stored session. */
  lemma {:induction false} BookmarkedIff(ss: seq<Session>, p: (Session, Message))
    ensures p in Bookmarked(ss) <==> p.0 in ss && p.1 in p.0.messages && p.1.bookmarked
  {
    if ss != [] {
      var q, s := ss[..|ss| - 1], ss[|ss| - 1];
      assert ss == q + [s];
      BookmarkedIff(q, p);
      MarkedInIff(s, s.messages, p);
    }
  }

  const TitleBreak := "\n\n"
  const QuestionMark := "Q: "
  const AnswerMark := "A: "
  const SourcesLine := "Sources:\n"
  const ItemMark := "- "
  const ItemSep := ": "

  /** "- <title>: <url>" and a line break. */
  function SourceLine(r: SourceRef): string
  {
    ItemMark + r.title + ItemSep + r.url + "\n"
  }

  function SourceLines(rs: seq<SourceRef>): string
  {
    ConcatMap(rs, SourceLine)
  }

  /** One message of the shareable text: "Q: …" or "A: …" and, for an answer
      with sources, a "Sources:" list. */
  function MessageText(m: Message): string
  {
    if m.role == User then QuestionMark + m.content + TitleBreak
    else
      AnswerMark + m.content + TitleBreak
      + (if m.sources.Some? && |m.sources.value| > 0 then SourcesLine + SourceLines(m.sources.value) + "\n" else "")
  }

  function MessagesText(ms: seq<Message>): string
  {
    ConcatMap(ms, MessageText)
  }

  /** `generateShareableText`, as a value. */
  function ShareText(s: Session): (r: string)
    ensures |r| >= |s.title| + |TitleBreak| && r[..|s.title|] == s.title
    ensures s.messages == [] ==> r == s.title + TitleBreak
  {
    s.title + TitleBreak + MessagesText(s.messages)
  }

  /** The messages' text around the block of message `i`. */
  lemma MessagesTextAround(ms: seq<Message>, i: nat)
    requires i < |ms|
    ensures MessagesText(ms) == MessagesText(ms[..i]) + MessageText(ms[i]) + MessagesText(ms[i + 1..])
  {
    var head, tail := ms[..i + 1], ms[i + 1..];
    assert ms == head + tail;
    ConcatMapAppend(head, tail, MessageText);
    ConcatMapStep(ms, MessageText, i);
  }

  /** The shareable text starts with the title and holds every message's
      block, in order: each question as "Q: <content>" and each answer as
      "A: <content>". */
  lemma ShareTextHolds(s: Session, i: nat)
    requires i < |s.messages|
    ensures StartsWith(ShareText(s), s.title + TitleBreak)
    ensures Contains(ShareText(s), MessageText(s.messages[i]))
  {
    var ms := s.messages;
    MessagesTextAround(ms, i);
    var pre := MessagesText(ms[..i]);
    var block := MessageText(ms[i]);
    var post := MessagesText(ms[i + 1..]);
    AppendAssoc(s.title + TitleBreak, pre + block, post);
    AppendAssoc(s.title + TitleBreak, pre, block);
    ContainsSelfAppended(s.title + TitleBreak + pre, block, post);
  }

  // ---------------------------------------------------------------------------
  // The store

  class SessionStore {
    /** The "research_sessions" entry. */
    var sessions: Slot<seq<Session>>
    /** The "current_session_id" entry. */
    var currentId: Option<string>

    constructor ()
      ensures sessions == Absent && currentId == None
    {
      sessions := Absent;
      currentId := None;
    }

    /** `getAll`: the stored list; [] when the entry is absent or does not
        parse. */
    function All(): (ss: seq<Session>)
      reads this
      ensures sessions.Holds? ==> ss == sessions.value
      ensures !sessions.Holds? ==> ss == []
    {
      if sessions.Holds? then sessions.value else []
    }

    /** `get`: the first stored session with the id, or None. */
    function Get(id: string): (r: Option<Session>)
      reads this
      ensures r == Find(All(), id)
    {
      Find(All(), id)
    }

    /** `save`: upsert, then sort newest first, then store. */
    method Save(session: Session, now: int)
      modifies this
      ensures sessions == Holds(SortNewestFirst(Upsert(old(All()), session, now)))
      ensures currentId == old(currentId)
    {
      var ss := All();
      var k := FirstWhere(ss, HasId(session.id));
      if k.Some? {
        ss := ss[k.value := session.(updatedAt := now)];
      } else {
        ss := ss + [session];
      }
      sessions := Holds(SortNewestFirst(ss));
    }

    /** `delete`: every session with the id goes, the rest keep their order;
        the current id is cleared only when it is the deleted one. */
    method Delete(id: string)
      modifies this
      ensures sessions == Holds(Filter(old(All()), OtherId(id)))
      ensures currentId == if old(currentId) == Some(id) then None else old(currentId)
    {
      sessions := Holds(Filter(All(), OtherId(id)));
      if currentId == Some(id) {
        currentId := None;
      }
    }

    /** `deleteAll`: both entries removed. */
    method DeleteAll()
      modifies this
      ensures sessions == Absent && currentId == None
    {
      sessions := Absent;
      currentId := None;
    }

    /** `getCurrentSessionId`. */
    function CurrentSessionId(): (r: Option<string>)
      reads this
      ensures r == currentId
    {
      currentId
    }

    /** `setCurrentSessionId`: a non-empty id is stored; None or "" removes
        the entry. */
    method SetCurrentSessionId(id: Option<string>)
      modifies this
      ensures id.Some? && id.value != "" ==> CurrentSessionId() == id
      ensures id.None? || id.value == "" ==> CurrentSessionId() == None
      ensures sessions == old(sessions)
    {
      if id.Some? && id.value != "" {
        currentId := id;
      } else {
        currentId := None;
      }
    }

    /** `addTag`: nothing without the session or when it has the tag;
        otherwise the tag is appended and the session saved. */
    method AddTag(sessionId: string, tag: string, now: int)
      modifies this
      ensures old(Get(sessionId)).None? || tag in old(Get(sessionId)).value.tags ==>
                sessions == old(sessions) && currentId == old(currentId)
      ensures old(Get(sessionId)).Some? && tag !in old(Get(sessionId)).value.tags ==>
                var s := old(Get(sessionId)).value;
                sessions == Holds(SortNewestFirst(Upsert(old(All()), s.(tags := s.tags + [tag]), now)))
                && currentId == old(currentId)
    {
      var s := Get(sessionId);
      if s.None? {
        return;
      }
      if tag !in s.value.tags {
        Save(s.value.(tags := s.value.tags + [tag]), now);
      }
    }

    /** `removeTag`: every occurrence of the tag goes and the session is saved
        (also when it did not have the tag). */
    method RemoveTag(sessionId: string, tag: string, now: int)
      modifies this
      ensures old(Get(sessionId)).None? ==> sessions == old(sessions) && currentId == old(currentId)
      ensures old(Get(sessionId)).Some? ==>
                var s := old(Get(sessionId)).value;
                sessions == Holds(SortNewestFirst(Upsert(old(All()), s.(tags := RemoveAll(s.tags, tag)), now)))
                && currentId == old(currentId)
    {
      var s := Get(sessionId);
      if s.None? {
        return;
      }
      Save(s.value.(tags := RemoveAll(s.value.tags, tag)), now);
    }

    /** `toggleBookmark`: flips the flag of the session's messages with the
        id and saves the session. */
    method ToggleBookmark(sessionId: string, messageId: string, now: int)
      modifies this
      ensures old(Get(sessionId)).None? ==> sessions == old(sessions) && currentId == old(currentId)
      ensures old(Get(sessionId)).Some? ==>
                var s := old(Get(sessionId)).value;
                sessions == Holds(SortNewestFirst(Upsert(old(All()),
                                    s.(messages := ToggleBookmarks(s.messages, messageId)), now)))
                && currentId == old(currentId)
    {
      var s := Get(sessionId);
      if s.None? {
        return;
      }
      Save(s.value.(messages := ToggleBookmarks(s.value.messages, messageId)), now);
    }

    /** `getBookmarkedMessages`: walks the sessions and their messages,
        collecting the bookmarked ones. */
    method BookmarkedMessages() returns (pairs: seq<(Session, Message)>)
      ensures pairs == Bookmarked(All())
    {
      var ss := All();
      pairs := [];
      var i := 0;
      while i < |ss|
        invariant 0 <= i <= |ss|
        invariant pairs == Bookmarked(ss[..i])
      {
        var s := ss[i];
        var before := pairs;
        var j := 0;
        while j < |s.messages|
          invariant 0 <= j <= |s.messages|
          invariant pairs == before + MarkedIn(s, s.messages[..j])
        {
          assert s.messages[..j + 1][..j] == s.messages[..j];
          if s.messages[j].bookmarked {
            pairs := pairs + [(s, s.messages[j])];
          }
          AppendAssoc(before, MarkedIn(s, s.messages[..j]),
                      if s.messages[j].bookmarked then [(s, s.messages[j])] else []);
          j := j + 1;
        }
        assert s.messages[..j] == s.messages;
        assert ss[..i + 1][..i] == ss[..i];
        i := i + 1;
      }
      assert ss[..i] == ss;
    }
  }

  /** `generateShareableText`: the title, then each message's block, grown
      one piece at a time. */
  method GenerateShareableText(s: Session) returns (text: string)
    ensures text == ShareText(s)
  {
    text := s.title + TitleBreak;
    var i := 0;
    while i < |s.messages|
      invariant 0 <= i <= |s.messages|
      invariant text == s.title + TitleBreak + MessagesText(s.messages[..i])
    {
      var m := s.messages[i];
      var block := AppendMessage(text, m);
      ConcatMapStep(s.messages, MessageText, i);
      AppendAssoc(s.title + TitleBreak, MessagesText(s.messages[..i]), MessageText(m));
      text := block;
      i := i + 1;
    }
    assert s.messages[..i] == s.messages;
  }

  /** One message's block appended to the text, piece by piece. */
  method AppendMessage(prefix: string, m: Message) returns (text: string)
    ensures text == prefix + MessageText(m)
  {
    if m.role == User {
      text := prefix + QuestionMark + m.content + TitleBreak;
    } else {
      var answer := prefix + AnswerMark + m.content + TitleBreak;
      if m.sources.Some? && |m.sources.value| > 0 {
        text := AppendSourceLines(answer + SourcesLine, m.sources.value);
        text := text + "\n";
      } else {
        text := answer;
      }
    }
  }

  /** One "- <title>: <url>" line per source appended to the text. */
  method AppendSourceLines(prefix: string, rs: seq<SourceRef>) returns (text: string)
    ensures text == prefix + SourceLines(rs)
  {
    text := prefix;
    var j := 0;
    while j < |rs|
      invariant 0 <= j <= |rs|
      invariant text == prefix + SourceLines(rs[..j])
    {
      ConcatMapStep(rs, SourceLine, j);
      var line := SourceLine(rs[j]);
      AppendAssoc(prefix, SourceLines(rs[..j]), line);
      text := text + line;
      j := j + 1;
    }
    assert rs[..j] == rs;
  }
}
