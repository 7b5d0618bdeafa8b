/** The chat view's submit handler and bookmark toggle
    (components/chat-interface.tsx): the guard, the two messages a submit
    appends, the decoding of the event stream the chat endpoint sends, and
    the updates that decoding makes to the assistant message, found by id.
    The clock, the transport's reads and outcome, and `JSON.parse` of each
    `data:` payload are inputs. */
module ChatInterface {
  import opened Base
  import opened Text
  import opened MultiSource
  import opened ChatRoute
  import Sessions

  datatype Role = User | Assistant

  /** A message of the view; absent `isStreaming` and `bookmarked` flags read
      as false. Timestamps are milliseconds. */
  datatype Message = Message(id: string, role: Role, content: string, sources: Option<seq<SourceEntry>>,
                             timestamp: int, isStreaming: bool, bookmarked: bool)

  /** The request a submit sends: the trimmed message and the selected
      sources. */
  datatype ChatRequest = ChatRequest(message: string, sources: seq<SourceType>)

  /** What `JSON.parse` gave for a `data:` payload: an exception, or a value
      whose `content` field is the given string (None when it is absent or
      not a string) and whose `sources` field is the given list (None when it
      is absent or not an array). */
  datatype Parsed = NotJson | Fields(content: Option<string>, sources: Option<seq<SourceEntry>>)

  /** How the request went: `fetch` rejected (aborted or not), a non-success
      status, no body, or a body whose reads are given, ending normally or
      with an exception (aborted or not). */
  datatype Response = Rejected(aborted: bool) | NotOk | NoBody | Body(chunks: seq<string>, end: End)
  datatype End = Finished | Broken(aborted: bool)

  const Stopped := "\n\n[Response stopped]"
  const ClientApology := "Sorry, I encountered an error. "
    + "Please try again."

  // ---------------------------------------------------------------------------
  // Decoding

  /** A truthy field of a decoded frame: a piece of content or a list of
      sources. */
  datatype Event = Text(text: string) | List(sources: seq<SourceEntry>)

  /** The events one line gives: a line starting with "data: " whose rest is
      not "[DONE]" and parses gives its non-empty `content`, then its
      `sources`; every other line gives nothing. */
  function LineEvents(line: string, parse: string -> Parsed): (evs: seq<Event>)
    ensures |evs| <= 2
  {
    if StartsWith(line, DataPrefix) && line[|DataPrefix|..] != DoneMarker then
      match parse(line[|DataPrefix|..])
      case NotJson => []
      case Fields(c, es) =>
        (if c.Some? && c.value != "" then [Text(c.value)] else [])
        + (if es.Some? then [List(es.value)] else [])
    else []
  }

  function LineDecoder(parse: string -> Parsed): string -> seq<Event>
  {
    (line: string) => LineEvents(line, parse)
  }

  /** The events of one read: its lines, split on "\n", each decoded alone. */
  function ReadEvents(chunk: string, parse: string -> Parsed): seq<Event>
  {
    ConcatMap(Split(chunk, '\n'), LineDecoder(parse))
  }

  function ReadDecoder(parse: string -> Parsed): string -> seq<Event>
  {
    (chunk: string) => ReadEvents(chunk, parse)
  }

  /** The events of all reads, in order. */
  function StreamEvents(chunks: seq<string>, parse: string -> Parsed): seq<Event>
  {
    ConcatMap(chunks, ReadDecoder(parse))
  }

  function TextOf(e: Event): string
  {
    if e.Text? then e.text else ""
  }

  /** `accumulatedContent` after the events: their contents, in order. */
  function Accumulated(evs: seq<Event>): string
  {
    if evs == [] then "" else TextOf(evs[0]) + Accumulated(evs[1..])
  }

  lemma {:induction false} AccumulatedAppend(a: seq<Event>, b: seq<Event>)
    ensures Accumulated(a + b) == Accumulated(a) + Accumulated(b)
  {
    if a != [] {
      assert (a + b)[0] == a[0] && (a + b)[1..] == a[1..] + b;
      AccumulatedAppend(a[1..], b);
      AppendAssoc(TextOf(a[0]), Accumulated(a[1..]), Accumulated(b));
    } else {
      assert a + b == b;
    }
  }

  /** The sources of the last `List` event, or `d` when there is none. */
  function LastList(evs: seq<Event>, d: Option<seq<SourceEntry>>): Option<seq<SourceEntry>>
  {
    if evs == [] then d else LastList(evs[1..], if evs[0].List? then Some(evs[0].sources) else d)
  }

  lemma {:induction false} LastListAppend(a: seq<Event>, b: seq<Event>, d: Option<seq<SourceEntry>>)
    ensures LastList(a + b, d) == LastList(b, LastList(a, d))
  {
    if a != [] {
      assert (a + b)[0] == a[0] && (a + b)[1..] == a[1..] + b;
      LastListAppend(a[1..], b, if a[0].List? then Some(a[0].sources) else d);
    } else {
      assert a + b == b;
    }
  }

  // ---------------------------------------------------------------------------
  // Message updates

  /** One `setMessages` update of the assistant message. */
  datatype Update = ShowContent(content: string) | ShowSources(sources: seq<SourceEntry>)
                  | EndStreaming | MarkStopped | ShowApology

  function Apply(m: Message, u: Update): (r: Message)
    ensures r.id == m.id && r.role == m.role && r.timestamp == m.timestamp && r.bookmarked == m.bookmarked
  {
    match u
    case ShowContent(c) => m.(content := c, isStreaming := true)
    case ShowSources(es) => m.(sources := Some(es), isStreaming := false)
    case EndStreaming => m.(isStreaming := false)
    case MarkStopped => m.(content := m.content + Stopped, isStreaming := false)
    case ShowApology => m.(content := ClientApology, isStreaming := false)
  }

  function ApplyAll(m: Message, us: seq<Update>): (r: Message)
    ensures r.id == m.id && r.role == m.role && r.timestamp == m.timestamp && r.bookmarked == m.bookmarked
    decreases |us|
  {
    if us == [] then m else ApplyAll(Apply(m, us[0]), us[1..])
  }

  lemma {:induction false} ApplyAllAppend(m: Message, a: seq<Update>, b: seq<Update>)
    ensures ApplyAll(m, a + b) == ApplyAll(ApplyAll(m, a), b)
    decreases |a|
  {
    if a != [] {
      assert (a + b)[0] == a[0] && (a + b)[1..] == a[1..] + b;
      ApplyAllAppend(Apply(m, a[0]), a[1..], b);
    } else {
      assert a + b == b;
    }
  }

  /** `prev.map((msg) => msg.id === id ? <update> : msg)`. */
  function UpdateById(ms: seq<Message>, id: string, u: Update): seq<Message>
  {
    MapSeq(ms, (m: Message) => if m.id == id then Apply(m, u) else m)
  }

  /** The messages after a series of updates by id. */
  function UpdateAllById(ms: seq<Message>, id: string, us: seq<Update>): seq<Message>
  {
    MapSeq(ms, (m: Message) => if m.id == id then ApplyAll(m, us) else m)
  }

  /** Only the messages with the id change; the others stay identical. */
  lemma UpdateOnlyById(ms: seq<Message>, id: string, us: seq<Update>)
    ensures |UpdateAllById(ms, id, us)| == |ms|
    ensures forall i :: 0 <= i < |ms| && ms[i].id != id ==> UpdateAllById(ms, id, us)[i] == ms[i]
    ensures forall i :: 0 <= i < |ms| && ms[i].id == id ==> UpdateAllById(ms, id, us)[i] == ApplyAll(ms[i], us)
  {
  }

  lemma UpdateNone(ms: seq<Message>, id: string)
    ensures UpdateAllById(ms, id, []) == ms
  {
  }

  /** One more update by id extends the series. */
  lemma UpdateStep(ms: seq<Message>, id: string, us: seq<Update>, u: Update)
    ensures UpdateById(UpdateAllById(ms, id, us), id, u) == UpdateAllById(ms, id, us + [u])
  {
    forall m: Message ensures Apply(ApplyAll(m, us), u) == ApplyAll(m, us + [u]) {
      ApplyAllAppend(m, us, [u]);
    }
  }

  lemma UpdateAllAppend(ms: seq<Message>, id: string, a: seq<Update>, b: seq<Update>)
    ensures UpdateAllById(UpdateAllById(ms, id, a), id, b) == UpdateAllById(ms, id, a + b)
  {
    forall m: Message ensures ApplyAll(ApplyAll(m, a), b) == ApplyAll(m, a + b) {
      ApplyAllAppend(m, a, b);
    }
  }

  /** The updates the decode loop makes for the events, when the content
      accumulated so far is `acc`: each piece of content shows everything
      accumulated up to it, each list of sources is shown. */
  function UpdatesFrom(acc: string, evs: seq<Event>): (r: seq<Update>)
    ensures |r| == |evs|
    ensures forall i :: 0 <= i < |evs| ==> (r[i].ShowContent? <==> evs[i].Text?)
    ensures forall i :: 0 <= i < |evs| && evs[i].List? ==> r[i] == ShowSources(evs[i].sources)
    decreases |evs|
  {
    if evs == [] then []
    else
      var acc' := acc + TextOf(evs[0]);
      (if evs[0].Text? then [ShowContent(acc')] else [ShowSources(evs[0].sources)])
      + UpdatesFrom(acc', evs[1..])
  }

  lemma {:induction false} UpdatesFromAppend(acc: string, a: seq<Event>, b: seq<Event>)
    ensures UpdatesFrom(acc, a + b) == UpdatesFrom(acc, a) + UpdatesFrom(acc + Accumulated(a), b)
    decreases |a|
  {
    if a != [] {
      var acc' := acc + TextOf(a[0]);
      assert (a + b)[0] == a[0] && (a + b)[1..] == a[1..] + b;
      UpdatesFromAppend(acc', a[1..], b);
      AppendAssoc(acc, TextOf(a[0]), Accumulated(a[1..]));
      var first := if a[0].Text? then [ShowContent(acc')] else [ShowSources(a[0].sources)];
      AppendAssoc(first, UpdatesFrom(acc', a[1..]), UpdatesFrom(acc + Accumulated(a), b));
    } else {
      assert a + b == b;
      assert acc + "" == acc;
    }
  }

  /** After the decode updates, a message whose content was the accumulated
      text holds the accumulated text with every event's content appended,
      and the sources of the last list, if any. */
  lemma {:induction false} DecodedMessage(m: Message, acc: string, evs: seq<Event>)
    requires m.content == acc
    ensures ApplyAll(m, UpdatesFrom(acc, evs)).content == acc + Accumulated(evs)
    ensures ApplyAll(m, UpdatesFrom(acc, evs)).sources == LastList(evs, m.sources)
    decreases |evs|
  {
    if evs == [] {
      assert acc + "" == acc;
    } else {
      var acc' := acc + TextOf(evs[0]);
      var first := if evs[0].Text? then ShowContent(acc') else ShowSources(evs[0].sources);
      assert UpdatesFrom(acc, evs) == [first] + UpdatesFrom(acc', evs[1..]);
      ApplyAllAppend(m, [first], UpdatesFrom(acc', evs[1..]));
      assert ApplyAll(m, [first]) == Apply(m, first);
      DecodedMessage(Apply(m, first), acc', evs[1..]);
      AppendAssoc(acc, TextOf(evs[0]), Accumulated(evs[1..]));
    }
  }

  /** The error update: "[Response stopped]" appended on an abort, the
      apology otherwise. */
  function Failure(aborted: bool): Update
  {
    if aborted then MarkStopped else ShowApology
  }

  /** Every update a submit makes to the assistant message, in order. */
  function SubmitUpdates(response: Response, parse: string -> Parsed): seq<Update>
  {
    match response
    case Rejected(aborted) => [Failure(aborted)]
    case NotOk => [ShowApology]
    case NoBody => [ShowApology]
    case Body(chunks, end) =>
      UpdatesFrom("", StreamEvents(chunks, parse))
      + (if end.Finished? then [EndStreaming] else [Failure(end.aborted)])
  }

  /** The user message of a submit. */
  function UserMessage(now: nat, text: string): Message
  {
    Message(NatToString(now), User, text, None, now, false, false)
  }

  /** The empty, streaming assistant message of a submit. */
  function AssistantMessage(later: nat): Message
  {
    Message(NatToString(later + 1), Assistant, "", None, later, true, false)
  }

  /** What the assistant message of a submit ends as: after a finished stream
      it holds the accumulated content and the last sources and no longer
      streams; an abort appends "[Response stopped]" to what had arrived;
      any other failure replaces it with the apology. */
  lemma SubmitOutcome(later: nat, response: Response, parse: string -> Parsed)
    ensures var m := ApplyAll(AssistantMessage(later), SubmitUpdates(response, parse));
            !m.isStreaming
            && (response.Body? && response.end.Finished? ==>
                  var evs := StreamEvents(response.chunks, parse);
                  m.content == Accumulated(evs) && m.sources == LastList(evs, None))
            && (response.Body? && response.end == Broken(true) ==>
                  m.content == Accumulated(StreamEvents(response.chunks, parse)) + Stopped)
            && (response == Rejected(true) ==> m.content == Stopped)
            && (((response.Body? && response.end == Broken(false)) || response.NotOk? || response.NoBody?
                 || response == Rejected(false)) ==> m.content == ClientApology)
  {
    var a := AssistantMessage(later);
    match response
    case Body(chunks, end) =>
      var evs := StreamEvents(chunks, parse);
      var last := if end.Finished? then EndStreaming else Failure(end.aborted);
      ApplyAllAppend(a, UpdatesFrom("", evs), [last]);
      DecodedMessage(a, "", evs);
      assert "" + Accumulated(evs) == Accumulated(evs);
      assert ApplyAll(ApplyAll(a, UpdatesFrom("", evs)), [last])
             == Apply(ApplyAll(a, UpdatesFrom("", evs)), last);
    case _ =>
      assert "" + Stopped == Stopped;
  }

  // ---------------------------------------------------------------------------
  // The view

  class ChatView {
    var messages: seq<Message>
    var input: string
    var isLoading: bool
    var selected: seq<SourceType>

    constructor ()
      ensures messages == [] && input == "" && !isLoading && selected == [Web]
    {
      messages := [];
      input := "";
      isLoading := false;
      selected := [Web];
    }

    /** `handleSubmit`: nothing when the trimmed input is empty or a request
        is in flight. Otherwise the user message with the trimmed input and
        the empty streaming assistant message are appended, the input is
        cleared, the request carries the trimmed input and the selected
        sources, every message with the assistant id receives the submit's
        updates, and loading ends. `now` and `later` are the two clock
        readings the handler takes. */
    method Submit(now: nat, later: nat, response: Response, parse: string -> Parsed)
      returns (request: Option<ChatRequest>)
      modifies this
      ensures Trim(old(input)) == "" || old(isLoading) ==>
                request == None && messages == old(messages) && input == old(input)
                && isLoading == old(isLoading)
      ensures Trim(old(input)) != "" && !old(isLoading) ==>
                request == Some(ChatRequest(Trim(old(input)), old(selected)))
                && messages == UpdateAllById(old(messages) + [UserMessage(now, Trim(old(input))), AssistantMessage(later)],
                                             NatToString(later + 1), SubmitUpdates(response, parse))
                && input == "" && !isLoading
      ensures selected == old(selected)
    {
      var text := Trim(input);
      if text == "" || isLoading {
        return None;
      }
      messages := messages + [UserMessage(now, text)];
      input := "";
      isLoading := true;
      var id := NatToString(later + 1);
      messages := messages + [AssistantMessage(later)];
      request := Some(ChatRequest(text, selected));
      ReceiveReply(response, id, parse);
      isLoading := false;
    }

    /** The reply, applied to every message with the assistant id: the
        decoded reads and then the end of streaming, or the failure. */
    method ReceiveReply(response: Response, id: string, parse: string -> Parsed)
      modifies this
      ensures messages == UpdateAllById(old(messages), id, SubmitUpdates(response, parse))
      ensures input == old(input) && isLoading == old(isLoading) && selected == old(selected)
    {
      ghost var base := messages;
      UpdateNone(base, id);
      match response {
        case Body(chunks, end) =>
          var acc := DecodeReads(chunks, id, parse);
          var last := if end.Finished? then EndStreaming else Failure(end.aborted);
          UpdateStep(base, id, UpdatesFrom("", StreamEvents(chunks, parse)), last);
          messages := UpdateById(messages, id, last);
        case Rejected(aborted) =>
          UpdateStep(base, id, [], Failure(aborted));
          assert [] + [Failure(aborted)] == SubmitUpdates(response, parse);
          messages := UpdateById(messages, id, Failure(aborted));
        case _ =>
          UpdateStep(base, id, [], ShowApology);
          assert [] + [ShowApology] == SubmitUpdates(response, parse);
          messages := UpdateById(messages, id, ShowApology);
      }
    }

    /** The read loop: each read decoded line by line, in order. */
    method DecodeReads(chunks: seq<string>, id: string, parse: string -> Parsed) returns (acc: string)
      modifies this
      ensures acc == Accumulated(StreamEvents(chunks, parse))
      ensures messages == UpdateAllById(old(messages), id, UpdatesFrom("", StreamEvents(chunks, parse)))
      ensures input == old(input) && isLoading == old(isLoading) && selected == old(selected)
    {
      acc := "";
      var i := 0;
      ghost var base := messages;
      UpdateNone(base, id);
      while i < |chunks|
        invariant 0 <= i <= |chunks|
        invariant acc == Accumulated(StreamEvents(chunks[..i], parse))
        invariant messages == UpdateAllById(base, id, UpdatesFrom("", StreamEvents(chunks[..i], parse)))
        invariant input == old(input) && isLoading == old(isLoading) && selected == old(selected)
      {
        ghost var before := StreamEvents(chunks[..i], parse);
        ghost var read := ReadEvents(chunks[i], parse);
        ConcatMapStep(chunks, ReadDecoder(parse), i);
        assert StreamEvents(chunks[..i + 1], parse) == before + read;
        UpdatesFromAppend("", before, read);
        AccumulatedAppend(before, read);
        assert "" + Accumulated(before) == acc;
        UpdateAllAppend(base, id, UpdatesFrom("", before), UpdatesFrom(acc, read));
        acc := DecodeRead(chunks[i], id, parse, acc);
        i := i + 1;
      }
      assert chunks[..i] == chunks;
    }

    /** One read: split on "\n", each line handled in order. */
    method DecodeRead(chunk: string, id: string, parse: string -> Parsed, acc0: string) returns (acc: string)
      modifies this
      ensures acc == acc0 + Accumulated(ReadEvents(chunk, parse))
      ensures messages == UpdateAllById(old(messages), id, UpdatesFrom(acc0, ReadEvents(chunk, parse)))
      ensures input == old(input) && isLoading == old(isLoading) && selected == old(selected)
    {
      var lines := Split(chunk, '\n');
      acc := acc0;
      var j := 0;
      ghost var base := messages;
      UpdateNone(base, id);
      assert acc0 + "" == acc0;
      while j < |lines|
        invariant 0 <= j <= |lines|
        invariant acc == acc0 + Accumulated(ConcatMap(lines[..j], LineDecoder(parse)))
        invariant messages == UpdateAllById(base, id, UpdatesFrom(acc0, ConcatMap(lines[..j], LineDecoder(parse))))
        invariant input == old(input) && isLoading == old(isLoading) && selected == old(selected)
      {
        ghost var before := ConcatMap(lines[..j], LineDecoder(parse));
        ghost var line := LineEvents(lines[j], parse);
        ConcatMapStep(lines, LineDecoder(parse), j);
        assert ConcatMap(lines[..j + 1], LineDecoder(parse)) == before + line;
        UpdatesFromAppend(acc0, before, line);
        AccumulatedAppend(before, line);
        AppendAssoc(acc0, Accumulated(before), Accumulated(line));
        UpdateAllAppend(base, id, UpdatesFrom(acc0, before), UpdatesFrom(acc, line));
        acc := HandleLine(lines[j], id, parse, acc);
        j := j + 1;
      }
      assert lines[..j] == lines;
    }

    /** One line: a data line other than "[DONE]" that parses appends its
        content to the accumulated text and shows it, then shows its
        sources. */
    method HandleLine(line: string, id: string, parse: string -> Parsed, acc0: string) returns (acc: string)
      modifies this
      ensures acc == acc0 + Accumulated(LineEvents(line, parse))
      ensures messages == UpdateAllById(old(messages), id, UpdatesFrom(acc0, LineEvents(line, parse)))
      ensures input == old(input) && isLoading == old(isLoading) && selected == old(selected)
    {
      acc := acc0;
      ghost var base := messages;
      ghost var evs := LineEvents(line, parse);
      UpdateNone(base, id);
      assert acc0 + "" == acc0;
      assert UpdatesFrom(acc0, []) == [] && Accumulated([]) == "";
      if StartsWith(line, DataPrefix) {
        var data := line[|DataPrefix|..];
        if data != DoneMarker {
          match parse(data) {
            case NotJson =>
              assert evs == [];
            case Fields(c, es) =>
              ghost var us: seq<Update> := [];
              if c.Some? && c.value != "" {
                acc := acc + c.value;
                UpdateStep(base, id, us, ShowContent(acc));
                messages := UpdateById(messages, id, ShowContent(acc));
                us := us + [ShowContent(acc)];
              }
              if es.Some? {
                UpdateStep(base, id, us, ShowSources(es.value));
                messages := UpdateById(messages, id, ShowSources(es.value));
                us := us + [ShowSources(es.value)];
              }
              LineUpdates(acc0, c, es);
              assert evs == (if c.Some? && c.value != "" then [Text(c.value)] else [])
                            + (if es.Some? then [List(es.value)] else []);
              assert messages == UpdateAllById(base, id, us);
              assert us == UpdatesFrom(acc0, evs);
              assert acc == acc0 + Accumulated(evs);
          }
        }
      }
    }

    /** `handleToggleBookmark`: nothing without a current session; otherwise
        the store flips the message's flag in the session and the view flips
        it on its messages with that id. */
    method ToggleBookmark(store: Sessions.SessionStore, currentSessionId: Option<string>, messageId: string, now: int)
      modifies this, store
      ensures currentSessionId.None? || currentSessionId.value == "" ==>
                messages == old(messages) && store.sessions == old(store.sessions)
                && store.currentId == old(store.currentId)
      ensures currentSessionId.Some? && currentSessionId.value != "" ==>
                messages == FlipBookmarks(old(messages), messageId)
                && (old(store.Get(currentSessionId.value)).None? ==> store.sessions == old(store.sessions))
                && (old(store.Get(currentSessionId.value)).Some? ==>
                      var s := old(store.Get(currentSessionId.value)).value;
                      store.sessions == Base.Holds(Sessions.SortNewestFirst(Sessions.Upsert(old(store.All()),
                        s.(messages := Sessions.ToggleBookmarks(s.messages, messageId)), now))))
                && store.currentId == old(store.currentId)
      ensures input == old(input) && isLoading == old(isLoading) && selected == old(selected)
    {
      if currentSessionId.None? || currentSessionId.value == "" {
        return;
      }
      store.ToggleBookmark(currentSessionId.value, messageId, now);
      messages := FlipBookmarks(messages, messageId);
    }
  }

  /** The updates of one parsed line, as the handler makes them. */
  lemma LineUpdates(acc0: string, c: Option<string>, es: Option<seq<SourceEntry>>)
    ensures var evs := (if c.Some? && c.value != "" then [Text(c.value)] else [])
                       + (if es.Some? then [List(es.value)] else []);
            var acc := acc0 + (if c.Some? && c.value != "" then c.value else "");
            Accumulated(evs) == (if c.Some? && c.value != "" then c.value else "")
            && UpdatesFrom(acc0, evs) == (if c.Some? && c.value != "" then [ShowContent(acc)] else [])
                                         + (if es.Some? then [ShowSources(es.value)] else [])
  {
    var t: seq<Event> := if c.Some? && c.value != "" then [Text(c.value)] else [];
    var l: seq<Event> := if es.Some? then [List(es.value)] else [];
    UpdatesFromAppend(acc0, t, l);
    AccumulatedAppend(t, l);
    var text := if c.Some? && c.value != "" then c.value else "";
    assert Accumulated(t) == text by {
      if t != [] {
        assert t[1..] == [];
        assert text + "" == text;
      }
    }
    assert Accumulated(l) == "" by {
      if l != [] {
        assert l[1..] == [];
      }
    }
    assert text + "" == text;
    assert acc0 + "" == acc0;
  }

  /** The view's bookmark flip: messages with the id have their flag
      negated, the others stay as they are. */
  function FlipBookmarks(ms: seq<Message>, id: string): (r: seq<Message>)
  {
    MapSeq(ms, (m: Message) => if m.id == id then m.(bookmarked := !m.bookmarked) else m)
  }

  /** Exactly the flags of the messages with the id flip; flipping twice is
      the identity. */
  lemma FlipBookmarksFlips(ms: seq<Message>, id: string)
    ensures var r := FlipBookmarks(ms, id);
            |r| == |ms|
            && (forall i :: 0 <= i < |ms| ==>
                  r[i].bookmarked == (if ms[i].id == id then !ms[i].bookmarked else ms[i].bookmarked)
                  && r[i] == ms[i].(bookmarked := r[i].bookmarked))
            && FlipBookmarks(r, id) == ms
  {
    var r := FlipBookmarks(ms, id);
    var rr := FlipBookmarks(r, id);
    assert forall i :: 0 <= i < |ms| ==> rr[i] == ms[i];
  }

  // ---------------------------------------------------------------------------
  // The endpoint and the view together

  /** The events a frame gives once decoded. */
  function FrameEvents(f: Frame): seq<Event>
  {
    match f
    case ContentFrame(t) => if t != "" then [Text(t)] else []
    case SourcesFrame(es) => [List(es)]
    case DoneFrame => []
  }

  /** A `JSON.parse` that reads the endpoint's payloads back as the values
      they were built from. */
  ghost predicate ReadsPayloads(parse: string -> Parsed)
  {
    (forall t :: parse(ContentPayload(t)) == Fields(Some(t), None))
    && (forall es :: parse(SourcesPayload(es)) == Fields(None, Some(es)))
  }

  /** The data line of a frame decodes to the frame's events. */
  lemma DataLineEvents(f: Frame, parse: string -> Parsed)
    requires ReadsPayloads(parse)
    ensures LineEvents(DataPrefix + Payload(f), parse) == FrameEvents(f)
  {
    DataLineParts(Payload(f));
    match f
    case DoneFrame =>
    case ContentFrame(t) =>
      assert Payload(f)[0] == '{';
      assert parse(Payload(f)) == Fields(Some(t), None);
    case SourcesFrame(es) =>
      assert Payload(f)[0] == '{';
      assert parse(Payload(f)) == Fields(None, Some(es));
  }

  /** A data line starts with the prefix, and the payload follows it. */
  lemma DataLineParts(p: string)
    ensures StartsWith(DataPrefix + p, DataPrefix) && (DataPrefix + p)[|DataPrefix|..] == p
  {
    assert (DataPrefix + p)[..|DataPrefix|] == DataPrefix;
  }

  /** A line followed by two empty lines decodes to the line's events. */
  lemma TrailingBlankLines(line: string, parse: string -> Parsed)
    ensures ConcatMap([line, "", ""], LineDecoder(parse)) == LineEvents(line, parse)
  {
    var g := LineDecoder(parse);
    assert [line, "", ""] == [line] + [""] + [""];
    ConcatMapAppend([line] + [""], [""], g);
    ConcatMapAppend([line], [""], g);
    ConcatMapSingle(line, g);
    ConcatMapSingle("", g);
    assert LineEvents("", parse) == [];
    assert LineEvents(line, parse) + [] + [] == LineEvents(line, parse);
  }

  /** One rendered frame, arriving as one read, decodes to its events. */
  lemma DecodesFrame(f: Frame, parse: string -> Parsed)
    requires ReadsPayloads(parse)
    ensures ReadEvents(Render(f), parse) == FrameEvents(f)
  {
    RenderLines(f);
    TrailingBlankLines(DataPrefix + Payload(f), parse);
    DataLineEvents(f, parse);
  }

  /** Frames sent one per read decode to their events, in order. */
  lemma {:induction false} DecodesWire(fs: seq<Frame>, parse: string -> Parsed)
    requires ReadsPayloads(parse)
    ensures StreamEvents(Wire(fs), parse) == ConcatMap(fs, FrameEvents)
  {
    if fs != [] {
      var p, f := fs[..|fs| - 1], fs[|fs| - 1];
      assert fs == p + [f];
      MapSeqAppend(p, [f], Render);
      MapSeqSingle(f, Render);
      assert Wire(fs) == Wire(p) + [Render(f)];
      ConcatMapAppend(Wire(p), [Render(f)], ReadDecoder(parse));
      ConcatMapSingle(Render(f), ReadDecoder(parse));
      ConcatMapAppend(p, [f], FrameEvents);
      ConcatMapSingle(f, FrameEvents);
      DecodesWire(p, parse);
      DecodesFrame(f, parse);
    }
  }

  /** The content of the relayed frames: the texts of the content frames. */
  function FrameText(f: Frame): string
  {
    if f.ContentFrame? then f.text else ""
  }

  lemma {:induction false} AccumulatedFrames(fs: seq<Frame>)
    ensures Accumulated(ConcatMap(fs, FrameEvents)) == ConcatMap(fs, FrameText)
  {
    if fs != [] {
      var p, f := fs[..|fs| - 1], fs[|fs| - 1];
      AccumulatedFrames(p);
      AccumulatedAppend(ConcatMap(p, FrameEvents), FrameEvents(f));
      assert Accumulated(FrameEvents(f)) == FrameText(f) by {
        if FrameEvents(f) != [] {
          assert FrameEvents(f)[1..] == [];
          assert FrameText(f) + "" == FrameText(f);
        }
      }
    }
  }

  lemma {:induction false} NoListsInStream(chunks: seq<string>, delta: string -> Delta, d: Option<seq<SourceEntry>>)
    ensures LastList(ConcatMap(StreamFrames(chunks, delta), FrameEvents), d) == d
  {
    var fs := StreamFrames(chunks, delta);
    forall k | 0 <= k < |fs| ensures fs[k].ContentFrame? {
      StreamFramesAreContent(chunks, delta, k);
    }
    ContentOnlyNoLists(fs, d);
  }

  lemma {:induction false} ContentOnlyNoLists(fs: seq<Frame>, d: Option<seq<SourceEntry>>)
    requires forall k :: 0 <= k < |fs| ==> fs[k].ContentFrame?
    ensures LastList(ConcatMap(fs, FrameEvents), d) == d
  {
    if fs != [] {
      var p, f := fs[..|fs| - 1], fs[|fs| - 1];
      ContentOnlyNoLists(p, d);
      LastListAppend(ConcatMap(p, FrameEvents), FrameEvents(f), d);
      if FrameEvents(f) != [] {
        assert FrameEvents(f)[1..] == [];
      }
    }
  }

  /** End to end, when each frame arrives as one read and `JSON.parse` reads
      the payloads back: after a successful relay the assistant message holds
      exactly the upstream's contents, in order, and the sources frame's
      entries exactly when the search found something. */
  lemma RelayThenDecode(later: nat, results: seq<MultiSourceResult>, chunks: seq<string>,
                        delta: string -> Delta, parse: string -> Parsed)
    requires ReadsPayloads(parse)
    ensures var wire := Wire(RelayFrames(results, Streamed(chunks, false), delta));
            var m := ApplyAll(AssistantMessage(later), SubmitUpdates(Body(wire, Finished), parse));
            m.content == ConcatMap(StreamFrames(chunks, delta), FrameText)
            && m.sources == (if |results| > 0 then Some(SourceEntries(results)) else None)
            && !m.isStreaming
  {
    var stream := StreamFrames(chunks, delta);
    var fs := RelayFrames(results, Streamed(chunks, false), delta);
    assert fs == stream + Closing(results);
    FinishedOutcome(later, Wire(fs), parse);
    DecodesWire(fs, parse);
    RelayText(stream, results);
    RelayLists(chunks, delta, results);
  }

  /** A reply read to its end leaves the message complete, holding the
      decoded texts and the last decoded list. */
  lemma FinishedOutcome(later: nat, chunks: seq<string>, parse: string -> Parsed)
    ensures var m := ApplyAll(AssistantMessage(later), SubmitUpdates(Body(chunks, Finished), parse));
            var evs := StreamEvents(chunks, parse);
            !m.isStreaming && m.content == Accumulated(evs) && m.sources == LastList(evs, None)
  {
    SubmitOutcome(later, Body(chunks, Finished), parse);
  }

  /** The text decoded from the relayed frames is the streamed content. */
  lemma RelayText(stream: seq<Frame>, results: seq<MultiSourceResult>)
    ensures Accumulated(ConcatMap(stream + Closing(results), FrameEvents)) == ConcatMap(stream, FrameText)
  {
    var fs := stream + Closing(results);
    AccumulatedFrames(fs);
    ConcatMapAppend(stream, Closing(results), FrameText);
    ClosingDecodes(results);
    assert ConcatMap(fs, FrameText) == ConcatMap(stream, FrameText) + "";
  }

  /** The list decoded from the relayed frames is the sources frame's, when
      there is one. */
  lemma RelayLists(chunks: seq<string>, delta: string -> Delta, results: seq<MultiSourceResult>)
    ensures LastList(ConcatMap(StreamFrames(chunks, delta) + Closing(results), FrameEvents), None)
            == if |results| > 0 then Some(SourceEntries(results)) else None
  {
    var stream := StreamFrames(chunks, delta);
    ConcatMapAppend(stream, Closing(results), FrameEvents);
    ClosingDecodes(results);
    NoListsInStream(chunks, delta, None);
    LastListAppend(ConcatMap(stream, FrameEvents), ConcatMap(Closing(results), FrameEvents), None);
    if |results| > 0 {
      assert [List(SourceEntries(results))][1..] == [];
    }
  }

  /** The closing frames carry no content, and decode to the result list
      when there were results and to nothing otherwise. */
  lemma ClosingDecodes(results: seq<MultiSourceResult>)
    ensures ConcatMap(Closing(results), FrameText) == ""
    ensures ConcatMap(Closing(results), FrameEvents)
            == if |results| > 0 then [List(SourceEntries(results))] else []
  {
    var tail := if |results| > 0 then [SourcesFrame(SourceEntries(results))] else [];
    ConcatMapAppend(tail, [DoneFrame], FrameText);
    ConcatMapSingle(DoneFrame, FrameText);
    ConcatMapAppend(tail, [DoneFrame], FrameEvents);
    ConcatMapSingle(DoneFrame, FrameEvents);
    if |results| > 0 {
      ConcatMapSingle(SourcesFrame(SourceEntries(results)), FrameText);
      ConcatMapSingle(SourcesFrame(SourceEntries(results)), FrameEvents);
    }
  }
}
