/** The chat endpoint (app/api/chat/route.ts): the configuration check, the
    search-context splice into the system prompt, and the relay that turns
    the upstream model's streamed chunks into Server-Sent-Events frames for
    the browser. The upstream reply, its chunks and the parsing of each
    upstream `data:` line are inputs. */
module ChatRoute {
  import opened Base
  import opened Text
  import opened Json
  import opened MultiSource

  // ---------------------------------------------------------------------------
  // Frames

  /** One entry of the closing sources frame: a result without its content
      and metadata. */
  datatype SourceEntry = SourceEntry(title: string, url: string, snippet: string, source: SourceType)

  /** A frame the relay writes: a piece of the answer, the list of sources,
      or the end marker. */
  datatype Frame = ContentFrame(text: string) | SourcesFrame(sources: seq<SourceEntry>) | DoneFrame

  const DataPrefix := "data: "
  const DoneMarker := "[DONE]"
  const FrameEnd := "\n\n"
  const ContentKey := "{\"content\":"
  const SourcesKey := "{\"sources\":["
  const SourcesEnd := "]}"
  const TitleKey := "{\"title\":"
  const UrlKey := ",\"url\":"
  const SnippetKey := ",\"snippet\":"
  const SourceKey := ",\"source\":"
  const Apology := "Sorry, I encountered an error. "
    + "Please check your API key and try again."

  /** `JSON.stringify({ content })`: one line of text. */
  function ContentPayload(text: string): (p: string)
    ensures '\n' !in p && |p| > 0 && p[0] == '{'
  {
    ContentKey + Quote(text) + "}"
  }

  /** A key, as it appears in the object text, and its quoted value. */
  function Field(key: string, value: string): (r: string)
    requires '\n' !in key
    ensures '\n' !in r
  {
    key + Quote(value)
  }

  /** `JSON.stringify` of an entry: its four fields in order. */
  function SourceJson(e: SourceEntry): (j: string)
    ensures '\n' !in j
  {
    Field(TitleKey, e.title) + Field(UrlKey, e.url) + Field(SnippetKey, e.snippet)
    + Field(SourceKey, TagName(e.source)) + "}"
  }

  /** The entries, comma separated. */
  function SourceList(es: seq<SourceEntry>): (j: string)
    ensures '\n' !in j
  {
    if es == [] then ""
    else if |es| == 1 then SourceJson(es[0])
    else SourceList(es[..|es| - 1]) + "," + SourceJson(es[|es| - 1])
  }

  /** `JSON.stringify({ sources })`: one line of text. */
  function SourcesPayload(es: seq<SourceEntry>): (p: string)
    ensures '\n' !in p && |p| > 0 && p[0] == '{'
  {
    SourcesKey + SourceList(es) + SourcesEnd
  }

  /** What follows "data: " in the frame. */
  function Payload(f: Frame): string
  {
    match f
    case ContentFrame(t) => ContentPayload(t)
    case SourcesFrame(es) => SourcesPayload(es)
    case DoneFrame => DoneMarker
  }

  /** The text enqueued for a frame: "data: <payload>" and a blank line. */
  function Render(f: Frame): string
  {
    DataPrefix + Payload(f) + FrameEnd
  }

  /** The chunks enqueued for a list of frames, one per frame. */
  function Wire(fs: seq<Frame>): seq<string>
  {
    MapSeq(fs, Render)
  }

  /** A rendered frame holds exactly two line breaks, at its end: split on
      "\n" it gives its data line and two empty lines. */
  lemma RenderLines(f: Frame)
    ensures Split(Render(f), '\n') == [DataPrefix + Payload(f), "", ""]
  {
    assert '\n' !in DataPrefix + Payload(f);
    TwoBreaks(DataPrefix + Payload(f));
  }

  /** A line without a line break, followed by two: its split. */
  lemma TwoBreaks(line: string)
    requires '\n' !in line
    ensures Split(line + FrameEnd, '\n') == [line, "", ""]
  {
    var r := line + FrameEnd;
    assert r[..|line|] == line;
    SplitAt(r, '\n', |line|);
    assert r[|line| + 1..] == "\n";
    SplitAt("\n", '\n', 0);
    assert Split("", '\n') == [""];
  }

  // ---------------------------------------------------------------------------
  // Reading the upstream stream

  /** What parsing one upstream `data:` payload gave: not JSON, or an object
      whose `choices[0].delta.content` is the given string or absent. */
  datatype Delta = Malformed | Parsed(content: Option<string>)

  /** The frames one upstream line produces: a line starting with "data: ",
      whose rest is not "[DONE]", parses, and carries non-empty content gives
      one content frame; every other line gives nothing. */
  function LineFrames(line: string, delta: string -> Delta): (fs: seq<Frame>)
    ensures |fs| <= 1
    ensures forall i :: 0 <= i < |fs| ==> fs[i].ContentFrame? && fs[i].text != ""
  {
    if StartsWith(line, DataPrefix) && line[|DataPrefix|..] != DoneMarker then
      match delta(line[|DataPrefix|..])
      case Parsed(Some(c)) => if c != "" then [ContentFrame(c)] else []
      case _ => []
    else []
  }

  function LineHandler(delta: string -> Delta): string -> seq<Frame>
  {
    (line: string) => LineFrames(line, delta)
  }

  /** The frames of one read: its lines split on "\n", each handled alone. */
  function ReadFrames(chunk: string, delta: string -> Delta): seq<Frame>
  {
    ConcatMap(Split(chunk, '\n'), LineHandler(delta))
  }

  function ReadHandler(delta: string -> Delta): string -> seq<Frame>
  {
    (chunk: string) => ReadFrames(chunk, delta)
  }

  /** The content frames of the whole upstream stream, in order. */
  function StreamFrames(chunks: seq<string>, delta: string -> Delta): seq<Frame>
  {
    ConcatMap(chunks, ReadHandler(delta))
  }

  /** A line yields a frame exactly when it is a data line other than
      "[DONE]" whose parse carries non-empty content; the frame holds that
      content. */
  lemma LineFramesIff(line: string, delta: string -> Delta)
    ensures LineFrames(line, delta) != [] <==>
              StartsWith(line, DataPrefix) && line[6..] != DoneMarker
              && delta(line[6..]).Parsed? && delta(line[6..]).content.Some?
              && delta(line[6..]).content.value != ""
    ensures LineFrames(line, delta) != [] ==>
              LineFrames(line, delta) == [ContentFrame(delta(line[6..]).content.value)]
  {
  }

  /** Reads are handled independently and their frames keep the read order. */
  lemma StreamFramesAppend(a: seq<string>, b: seq<string>, delta: string -> Delta)
    ensures StreamFrames(a + b, delta) == StreamFrames(a, delta) + StreamFrames(b, delta)
  {
    ConcatMapAppend(a, b, ReadHandler(delta));
  }

  /** The stream only ever yields content frames with non-empty text: no
      upstream line can produce a sources frame or an end marker. */
  lemma StreamFramesAreContent(chunks: seq<string>, delta: string -> Delta, k: nat)
    requires k < |StreamFrames(chunks, delta)|
    ensures StreamFrames(chunks, delta)[k].ContentFrame? && StreamFrames(chunks, delta)[k].text != ""
  {
    var f := StreamFrames(chunks, delta)[k];
    ConcatMapOrigin(chunks, ReadHandler(delta), k);
    var i :| 0 <= i < |chunks| && f in ReadFrames(chunks[i], delta);
    var rf := ReadFrames(chunks[i], delta);
    var m :| 0 <= m < |rf| && rf[m] == f;
    ConcatMapOrigin(Split(chunks[i], '\n'), LineHandler(delta), m);
  }

  // ---------------------------------------------------------------------------
  // The relay

  /** How the upstream request went: a non-success status, a reply without a
      body, or a body whose chunks arrived in order, possibly interrupted by an
      exception after them (`broken`). */
  datatype Upstream = UpstreamNotOk | NoBody | Streamed(chunks: seq<string>, broken: bool)

  function EntryOf(r: MultiSourceResult): SourceEntry
  {
    SourceEntry(r.title, r.url, r.snippet, r.source)
  }

  function SourceEntries(rs: seq<MultiSourceResult>): (es: seq<SourceEntry>)
    ensures |es| == |rs|
    ensures forall i :: 0 <= i < |rs| ==> es[i] == EntryOf(rs[i])
  {
    seq(|rs|, i requires 0 <= i < |rs| => EntryOf(rs[i]))
  }

  /** After the upstream ends: a sources frame when there were results, then
      the end marker. */
  function Closing(results: seq<MultiSourceResult>): seq<Frame>
  {
    (if |results| > 0 then [SourcesFrame(SourceEntries(results))] else []) + [DoneFrame]
  }

  /** The frames the relay sends for a request whose search gave `results`.
      Any failure (non-success status, no body, an exception while reading)
      ends the stream with the apology frame and no end marker. */
  function RelayFrames(results: seq<MultiSourceResult>, upstream: Upstream, delta: string -> Delta): (fs: seq<Frame>)
    ensures fs != []
    ensures fs[|fs| - 1] == DoneFrame <==> upstream.Streamed? && !upstream.broken
    ensures fs[|fs| - 1] != DoneFrame ==> fs[|fs| - 1] == ContentFrame(Apology)
  {
    match upstream
    case Streamed(chunks, broken) =>
      StreamFrames(chunks, delta) + (if broken then [ContentFrame(Apology)] else Closing(results))
    case _ => [ContentFrame(Apology)]
  }

  predicate IsContent(f: Frame) { f.ContentFrame? }

  /** The success path: content frames first, then exactly one sources frame
      if and only if there were results (listing them in order by title, url,
      snippet and source), then the end marker, which occurs nowhere else. */
  lemma RelaySuccessOrder(results: seq<MultiSourceResult>, chunks: seq<string>, delta: string -> Delta)
    ensures var fs := RelayFrames(results, Streamed(chunks, false), delta);
            var n := |StreamFrames(chunks, delta)|;
            fs[..n] == StreamFrames(chunks, delta)
            && (forall k :: 0 <= k < n ==> IsContent(fs[k]))
            && |fs| == n + (if |results| > 0 then 2 else 1)
            && fs[|fs| - 1] == DoneFrame
            && (forall k :: 0 <= k < |fs| - 1 ==> fs[k] != DoneFrame)
            && (|results| > 0 ==> fs[n] == SourcesFrame(SourceEntries(results)))
            && (forall k :: 0 <= k < |fs| && fs[k].SourcesFrame? ==> |results| > 0 && k == n)
  {
    var fs := RelayFrames(results, Streamed(chunks, false), delta);
    var sf := StreamFrames(chunks, delta);
    assert fs == sf + Closing(results);
    forall k | 0 <= k < |sf|
      ensures IsContent(fs[k])
    {
      StreamFramesAreContent(chunks, delta, k);
    }
  }

  /** The failure paths: the last frame is the apology, no end marker is sent,
      and everything before the apology is what the stream had yielded. */
  lemma RelayFailureEndsWithApology(results: seq<MultiSourceResult>, upstream: Upstream, delta: string -> Delta)
    requires !upstream.Streamed? || upstream.broken
    ensures var fs := RelayFrames(results, upstream, delta);
            |fs| >= 1 && fs[|fs| - 1] == ContentFrame(Apology)
            && (forall k :: 0 <= k < |fs| ==> IsContent(fs[k]))
            && (upstream.Streamed? ==> fs[..|fs| - 1] == StreamFrames(upstream.chunks, delta))
  {
    if upstream.Streamed? {
      var sf := StreamFrames(upstream.chunks, delta);
      forall k | 0 <= k < |sf|
        ensures IsContent(sf[k])
      {
        StreamFramesAreContent(upstream.chunks, delta, k);
      }
    }
  }

  /** The stream the handler returns, as its controller sees it: the frames
      enqueued so far (each goes out as its `Render` text) and whether it is
      closed. */
  class EventStream {
    var frames: seq<Frame>
    var closed: bool

    constructor ()
      ensures frames == [] && !closed
    {
      frames := [];
      closed := false;
    }

    method Enqueue(f: Frame)
      requires !closed
      modifies this
      ensures frames == old(frames) + [f] && !closed
    {
      frames := frames + [f];
    }

    method Close()
      requires !closed
      modifies this
      ensures closed && frames == old(frames)
    {
      closed := true;
    }
  }

  /** The `for` loop over the lines of one read. */
  method ForwardRead(stream: EventStream, chunk: string, delta: string -> Delta)
    requires !stream.closed
    modifies stream
    ensures !stream.closed
    ensures stream.frames == old(stream.frames) + ReadFrames(chunk, delta)
  {
    var lines := Split(chunk, '\n');
    var j := 0;
    while j < |lines|
      invariant 0 <= j <= |lines| && !stream.closed
      invariant stream.frames == old(stream.frames) + ConcatMap(lines[..j], LineHandler(delta))
    {
      var line := lines[j];
      ConcatMapStep(lines, LineHandler(delta), j);
      AppendAssoc(old(stream.frames), ConcatMap(lines[..j], LineHandler(delta)), LineFrames(line, delta));
      if StartsWith(line, DataPrefix) {
        var data := line[|DataPrefix|..];
        if data != DoneMarker {
          var parsed := delta(data);
          if parsed.Parsed? && parsed.content.Some? && parsed.content.value != "" {
            stream.Enqueue(ContentFrame(parsed.content.value));
          }
        }
      }
      j := j + 1;
    }
    assert lines[..j] == lines;
  }

  /** The `while` loop over the upstream reads. */
  method ForwardReads(stream: EventStream, chunks: seq<string>, delta: string -> Delta)
    requires !stream.closed
    modifies stream
    ensures !stream.closed
    ensures stream.frames == old(stream.frames) + StreamFrames(chunks, delta)
  {
    var i := 0;
    while i < |chunks|
      invariant 0 <= i <= |chunks| && !stream.closed
      invariant stream.frames == old(stream.frames) + StreamFrames(chunks[..i], delta)
    {
      ConcatMapStep(chunks, ReadHandler(delta), i);
      AppendAssoc(old(stream.frames), StreamFrames(chunks[..i], delta), ReadFrames(chunks[i], delta));
      ForwardRead(stream, chunks[i], delta);
      i := i + 1;
    }
    assert chunks[..i] == chunks;
  }

  const ResultsHeading := "\n\nCURRENT SEARCH RESULTS:\n"

  /** The part of the system prompt that carries the search context: the
      context under a heading when there is one, nothing otherwise. */
  function SearchSplice(context: string): string
  {
    if context != "" then ResultsHeading + context else ""
  }

  /** The prompt has a results section exactly when the context is non-empty. */
  lemma SearchSpliceIff(context: string)
    ensures Contains(SearchSplice(context), ResultsHeading) <==> context != ""
    ensures context != "" ==> Contains(SearchSplice(context), context)
  {
    if context != "" {
      ContainsSelfAppended("", ResultsHeading, context);
      ContainsSelfAppended(ResultsHeading, context, "");
      assert "" + ResultsHeading + context == ResultsHeading + context;
      assert ResultsHeading + context + "" == ResultsHeading + context;
    } else {
      ContainsIff("", ResultsHeading);
    }
  }

  /** After the search: relay the upstream reads, then the closing frames;
      on any failure the apology instead, and no end marker. Closes the
      stream. */
  method Relay(stream: EventStream, results: seq<MultiSourceResult>, upstream: Upstream, delta: string -> Delta)
    requires !stream.closed
    modifies stream
    ensures stream.closed
    ensures stream.frames == old(stream.frames) + RelayFrames(results, upstream, delta)
  {
    ghost var before := stream.frames;
    match upstream {
      case Streamed(chunks, broken) =>
        ForwardReads(stream, chunks, delta);
        ghost var streamed := stream.frames;
        if broken {
          stream.Enqueue(ContentFrame(Apology));
        } else {
          if |results| > 0 {
            stream.Enqueue(SourcesFrame(SourceEntries(results)));
          }
          stream.Enqueue(DoneFrame);
        }
        AppendAssoc(before, StreamFrames(chunks, delta), stream.frames[|streamed|..]);
        assert stream.frames == streamed + stream.frames[|streamed|..];
      case _ =>
        stream.Enqueue(ContentFrame(Apology));
    }
    stream.Close();
  }

  /** The stream's `start`: search, build the context, call the model with
      the context spliced into its prompt, and relay. Returns the search
      results, the splice and the adapters run, one per requested tag. */
  method Start(stream: EventStream, message: string, sources: seq<string>, net: Network,
               upstream: Upstream, delta: string -> Delta)
    returns (results: seq<MultiSourceResult>, splice: string, searched: seq<SourceType>)
    requires !stream.closed
    modifies stream
    ensures results == Aggregate(message, sources, net)
    ensures stream.closed && stream.frames == old(stream.frames) + RelayFrames(results, upstream, delta)
    ensures splice == SearchSplice(MultiContext(results))
    ensures |searched| == |sources| && forall i :: 0 <= i < |sources| ==> searched[i] == SourceOfTag(sources[i])
  {
    results, searched := MultiSourceSearch(message, sources, net);
    var context := BuildMultiSourceContext(results);
    splice := SearchSplice(context);
    Relay(stream, results, upstream, delta);
  }

  // ---------------------------------------------------------------------------
  // The handler

  /** The parsed request body: the message and the `sources` field, None when
      the field is absent. */
  datatype RequestBody = RequestBody(message: string, sources: Option<seq<string>>)

  /** A JSON error response `{"error": message}` with its status, or the
      event stream with what it carried. */
  datatype Reply = JsonError(status: nat, message: string) | EventStreamReply(sent: seq<string>)

  const ConfigError := "Fireworks API key not configured"
  const InternalError := "Internal server error"

  /** `sources` defaults to ["web"] only when the field is absent. */
  function RequestedSources(field: Option<seq<string>>): (tags: seq<string>)
    ensures field.Some? ==> tags == field.value
    ensures field.None? ==> tags == ["web"]
  {
    if field.Some? then field.value else ["web"]
  }

  /** What handling one request produced: the reply, the search-context
      splice of the prompt sent upstream (None when no upstream call is
      made), and the adapters run. */
  datatype Handled = Handled(reply: Reply, splice: Option<string>, searched: seq<SourceType>)

  /** The error replies: a body that is not JSON, and a missing or empty
      key. */
  const InternalErrorReply := Handled(JsonError(500, InternalError), None, [])
  const ConfigErrorReply := Handled(JsonError(500, ConfigError), None, [])

  predicate HasKey(apiKey: Option<string>)
  {
    apiKey.Some? && apiKey.value != ""
  }

  /** The streaming reply for the requested tags and the search results: the
      relayed frames on the wire, the prompt's search splice, and one adapter
      per tag. It runs exactly one adapter per requested tag, and its prompt
      carries the results section exactly when the search found something. */
  function Streaming(tags: seq<string>, results: seq<MultiSourceResult>, upstream: Upstream,
                     delta: string -> Delta): (h: Handled)
    ensures h.reply.EventStreamReply? && h.splice.Some?
    ensures |h.searched| == |tags| && forall i :: 0 <= i < |tags| ==> h.searched[i] == SourceOfTag(tags[i])
    ensures Contains(h.splice.value, ResultsHeading) <==> results != []
  {
    SearchSpliceIff(MultiContext(results));
    Handled(EventStreamReply(Wire(RelayFrames(results, upstream, delta))),
      Some(SearchSplice(MultiContext(results))), MapSeq(tags, SourceOfTag))
  }

  /** The stream's reply once body and key are accepted. */
  method StreamReply(message: string, tags: seq<string>, net: Network, upstream: Upstream,
                     delta: string -> Delta)
    returns (h: Handled, results: seq<MultiSourceResult>)
    ensures results == Aggregate(message, tags, net)
    ensures h == Streaming(tags, results, upstream, delta)
  {
    var stream := new EventStream();
    var splice, searched;
    results, splice, searched := Start(stream, message, tags, net, upstream, delta);
    assert stream.frames == RelayFrames(results, upstream, delta);
    assert searched == MapSeq(tags, SourceOfTag);
    h := Handled(EventStreamReply(Wire(stream.frames)), Some(splice), searched);
  }

  /** `POST`: a body that is not JSON gives a 500 "Internal server error"; a
      missing or empty key gives a 500 configuration error; in both cases no
      adapter runs and no upstream call is made. Otherwise the results are
      the aggregate for the requested tags (["web"] when the field is absent)
      and the reply is the stream built from them. */
  method Post(body: Option<RequestBody>, apiKey: Option<string>, net: Network,
              upstream: Upstream, delta: string -> Delta)
    returns (h: Handled, results: seq<MultiSourceResult>)
    ensures body.None? ==> h == InternalErrorReply && results == []
    ensures body.Some? && !HasKey(apiKey) ==> h == ConfigErrorReply && results == []
    ensures body.Some? && HasKey(apiKey) ==>
              var tags := RequestedSources(body.value.sources);
              results == Aggregate(body.value.message, tags, net)
              && h == Streaming(tags, results, upstream, delta)
  {
    if body.None? {
      return InternalErrorReply, [];
    }
    if !HasKey(apiKey) {
      return ConfigErrorReply, [];
    }
    h, results := StreamReply(body.value.message, RequestedSources(body.value.sources), net, upstream, delta);
  }

  // ---------------------------------------------------------------------------
  // Reading a content payload back

  const QuotedContentKey := "{\"content\":\""
  const QuotedEnd := "\"}"

  /** Reads the text out of a `{"content":"…"}` payload; None for any other
      text. */
  function ReadContentPayload(data: string): Option<string>
  {
    if |data| >= |QuotedContentKey| + |QuotedEnd| && StartsWith(data, QuotedContentKey)
       && data[|data| - 2..] == QuotedEnd
    then Unescape(data[|QuotedContentKey|..|data| - 2])
    else None
  }

  /** The content payload chunks back as the text it was built from. */
  lemma ReadContentPayloadInverts(text: string)
    ensures ReadContentPayload(ContentPayload(text)) == Some(text)
  {
    var e := Escape(text);
    assert QuotedContentKey == ContentKey + "\"" && QuotedEnd == "\"" + "}";
    AppendRegroup(ContentKey, "\"", e, "\"");
    assert ContentPayload(text) == QuotedContentKey + e + QuotedEnd;
    Enclosed(QuotedContentKey, e, QuotedEnd);
    UnescapeEscape(text);
  }
}
