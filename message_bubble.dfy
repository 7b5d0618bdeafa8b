/** What a chat bubble shows: the answer cut into text and fenced code
    blocks, the label, icon and colour of each source's tag, and how many
    sources are listed. */
module Bubble {
  import opened Base
  import opened Text
  import opened MultiSource

  // ---------------------------------------------------------------------------
  // Fenced code blocks

  const Fence := "```"

  /** A character of the regular-expression class \w. */
  predicate IsWordChar(c: char)
  {
    ('a' <= c <= 'z') || ('A' <= c <= 'Z') || ('0' <= c <= '9') || c == '_'
  }

  /** The number of word characters from `i` on. */
  function WordRun(s: string, i: nat): (n: nat)
    requires i <= |s|
    ensures i + n <= |s|
    ensures forall j :: i <= j < i + n ==> IsWordChar(s[j])
    ensures i + n < |s| ==> !IsWordChar(s[i + n])
    decreases |s| - i
  {
    if i < |s| && IsWordChar(s[i]) then 1 + WordRun(s, i + 1) else 0
  }

  /** A match of /```(\w+)?\n([\s\S]*?)```/: the language word, the body,
      and the position just past the closing fence. */
  datatype Block = Block(language: Option<string>, body: string, end: nat)

  /** The match starting at `i`, if any: "```", a run of word characters
      that a line break must follow, then the body up to the first "```"
      after the line break. */
  function BlockAt(s: string, i: nat): (b: Option<Block>)
    ensures b.Some? ==> i + 7 <= b.value.end <= |s|
    ensures b.Some? ==> MatchesAt(s, Fence, i) && MatchesAt(s, Fence, b.value.end - 3)
  {
    if i + 3 <= |s| && s[i..i + 3] == Fence then
      var w := WordRun(s, i + 3);
      var nl := i + 3 + w;
      if nl < |s| && s[nl] == '\n' then
        match IndexOfFrom(s, Fence, nl + 1)
        case None => None
        case Some(e) => Some(Block(if w > 0 then Some(s[i + 3..nl]) else None, s[nl + 1..e], e + 3))
      else None
    else None
  }

  /** `exec` from `from`: the leftmost position at or after `from` where a
      block starts. */
  function NextBlock(s: string, from: nat): (i: Option<nat>)
    ensures i.Some? ==> from <= i.value && BlockAt(s, i.value).Some?
    ensures i.Some? ==> forall j :: from <= j < i.value ==> BlockAt(s, j).None?
    ensures i.None? ==> forall j :: from <= j ==> BlockAt(s, j).None?
    decreases |s| - from
  {
    if from >= |s| then None
    else if BlockAt(s, from).Some? then Some(from)
    else NextBlock(s, from + 1)
  }

  /** A piece of the content: plain text, or a block with its raw text. */
  datatype Piece = Plain(text: string) | Fenced(raw: string, block: Block)

  function RawText(p: Piece): string
  {
    match p
    case Plain(t) => t
    case Fenced(r, _) => r
  }

  /** The content from `from` on, cut at the blocks: the text before each
      block (when there is any), the block, and the text after the last
      block (when there is any). */
  function Scan(s: string, from: nat): (ps: seq<Piece>)
    requires from <= |s|
    ensures forall k :: 0 <= k < |ps| && ps[k].Plain? ==> ps[k].text != ""
    ensures forall k :: 0 <= k < |ps| - 1 && ps[k].Plain? ==> ps[k + 1].Fenced?
    decreases |s| - from
  {
    match NextBlock(s, from)
    case None => if from < |s| then [Plain(s[from..])] else []
    case Some(i) =>
      var b := BlockAt(s, i).value;
      (if i > from then [Plain(s[from..i])] else []) + [Fenced(s[i..b.end], b)] + Scan(s, b.end)
  }

  /** Putting the pieces' raw texts back together gives the content. */
  lemma {:induction false} ScanTiles(s: string, from: nat)
    requires from <= |s|
    ensures ConcatMap(Scan(s, from), RawText) == s[from..]
    decreases |s| - from
  {
    match NextBlock(s, from)
    case None =>
      if from < |s| {
        ConcatMapSingle(Plain(s[from..]), RawText);
      }
    case Some(i) =>
      var b := BlockAt(s, i).value;
      ScanTiles(s, b.end);
      TilesJoin(s, from, i, b.end, b, Scan(s, b.end));
  }

  /** The text before a block, the block and the pieces after it tile the
      content from `from` on. */
  lemma TilesJoin(s: string, from: nat, i: nat, e: nat, b: Block, rest: seq<Piece>)
    requires from <= i <= e <= |s|
    requires ConcatMap(rest, RawText) == s[e..]
    ensures ConcatMap((if i > from then [Plain(s[from..i])] else []) + [Fenced(s[i..e], b)] + rest, RawText)
            == s[from..]
  {
    var pre: seq<Piece> := if i > from then [Plain(s[from..i])] else [];
    var fenced := Fenced(s[i..e], b);
    ConcatMapAppend(pre + [fenced], rest, RawText);
    ConcatMapAppend(pre, [fenced], RawText);
    ConcatMapSingle(fenced, RawText);
    SliceJoin(s, from, i, e);
    if i > from {
      ConcatMapSingle(Plain(s[from..i]), RawText);
    } else {
      assert s[from..i] == [] && pre == [];
    }
    assert ConcatMap(pre, RawText) == s[from..i];
  }

  /** The first fence after the line break closes the block: the body
      holds none, not even one running into the closing fence. */
  lemma BlockBodyFenceFree(s: string, i: nat)
    requires BlockAt(s, i).Some?
    ensures var b := BlockAt(s, i).value;
            forall j :: 0 <= j < |b.body| ==> !MatchesAt(b.body + Fence, Fence, j)
  {
    var b := BlockAt(s, i).value;
    var nl := i + 3 + WordRun(s, i + 3);
    var t := b.body + Fence;
    assert t == s[nl + 1..b.end];
    assert forall k :: 0 <= k < |t| ==> t[k] == s[nl + 1 + k];
    forall j | 0 <= j < |b.body| ensures !MatchesAt(t, Fence, j) {
      assert !MatchesAt(s, Fence, nl + 1 + j);
      if j + 3 <= |t| {
        assert t[j..j + 3] == s[nl + 1 + j..nl + 4 + j];
      }
    }
  }

  /** A block's raw text is the opening fence, the language word, a line
      break, the body and the closing fence. */
  lemma BlockShape(s: string, i: nat)
    requires BlockAt(s, i).Some?
    ensures var b := BlockAt(s, i).value;
            var lang := if b.language.Some? then b.language.value else "";
            s[i..b.end] == Fence + lang + "\n" + b.body + Fence
            && (forall c :: c in lang ==> IsWordChar(c))
  {
    var b := BlockAt(s, i).value;
    var nl := i + 3 + WordRun(s, i + 3);
    var lang := if b.language.Some? then b.language.value else "";
    var e := b.end;
    assert lang == s[i + 3..nl];
    assert s[nl..nl + 1] == "\n";
    SliceOfFive(s, i, i + 3, nl, nl + 1, e - 3, e, Fence, lang, "\n", b.body, Fence);
  }

  /** One step of the scan. */
  lemma ScanStep(s: string, from: nat)
    requires from <= |s|
    ensures NextBlock(s, from).None? ==> Scan(s, from) == if from < |s| then [Plain(s[from..])] else []
    ensures NextBlock(s, from).Some? ==>
              var i := NextBlock(s, from).value;
              var b := BlockAt(s, i).value;
              Scan(s, from) == (if i > from then [Plain(s[from..i])] else []) + [Fenced(s[i..b.end], b)] + Scan(s, b.end)
  {
  }

  /** A part of the rendered content. */
  datatype Part = TextPart(text: string) | CodePart(code: string, language: Option<string>)

  /** A block shows its trimmed body under its language word. */
  function PartOf(p: Piece): Part
  {
    match p
    case Plain(t) => TextPart(t)
    case Fenced(_, b) => CodePart(Trim(b.body), b.language)
  }

  /** The parts `FormattedContent` renders: the pieces, or the whole content
      as one text part when there are none. */
  function Parts(s: string): (r: seq<Part>)
    ensures r != []
    ensures NextBlock(s, 0).None? ==> r == [TextPart(s)]
  {
    assert s[0..] == s;
    var ps := MapSeq(Scan(s, 0), PartOf);
    if ps == [] then [TextPart(s)] else ps
  }

  /** There is always a part; without a block the one part is the whole
      content; text parts are never empty (unless the content is) and never
      follow one another; every code body is trimmed. */
  lemma PartsShape(s: string)
    ensures var r := Parts(s);
            |r| >= 1
            && (NextBlock(s, 0).None? ==> r == [TextPart(s)])
            && (s != "" ==> forall k :: 0 <= k < |r| && r[k].TextPart? ==> r[k].text != "")
            && (forall k :: 0 <= k < |r| - 1 && r[k].TextPart? ==> r[k + 1].CodePart?)
            && (forall k :: 0 <= k < |r| && r[k].CodePart? ==> Trim(r[k].code) == r[k].code)
  {
    var ps := Scan(s, 0);
    if s != "" && NextBlock(s, 0).None? {
      assert s[0..] == s;
    }
    if NextBlock(s, 0).Some? {
      var i := NextBlock(s, 0).value;
      assert |ps| > 0 by {
        var b := BlockAt(s, i).value;
        assert ps == (if i > 0 then [Plain(s[0..i])] else []) + [Fenced(s[i..b.end], b)] + Scan(s, b.end);
      }
    }
    forall k | 0 <= k < |Parts(s)| && Parts(s)[k].CodePart?
      ensures Trim(Parts(s)[k].code) == Parts(s)[k].code
    {
      TrimIdempotent(ps[k].block.body);
    }
  }

  /** The parts from `from` on, one block at a time. */
  lemma PartsStep(s: string, from: nat)
    requires from <= |s|
    ensures NextBlock(s, from).None? ==>
              MapSeq(Scan(s, from), PartOf) == if from < |s| then [TextPart(s[from..])] else []
    ensures NextBlock(s, from).Some? ==>
              var i := NextBlock(s, from).value;
              var b := BlockAt(s, i).value;
              MapSeq(Scan(s, from), PartOf)
              == (if i > from then [TextPart(s[from..i])] else [])
                 + [CodePart(Trim(b.body), b.language)] + MapSeq(Scan(s, b.end), PartOf)
  {
    ScanStep(s, from);
    if NextBlock(s, from).Some? {
      var i := NextBlock(s, from).value;
      var b := BlockAt(s, i).value;
      var pre: seq<Piece> := if i > from then [Plain(s[from..i])] else [];
      var f := Fenced(s[i..b.end], b);
      var rest := MapSeq(Scan(s, b.end), PartOf);
      var code := CodePart(Trim(b.body), b.language);
      MapSeqAppend(pre + [f], Scan(s, b.end), PartOf);
      MapSeqAppend(pre, [f], PartOf);
      MapSeqSingle(f, PartOf);
      assert MapSeq([f], PartOf) == [code];
      if i > from {
        MapSeqSingle(Plain(s[from..i]), PartOf);
        assert MapSeq(pre, PartOf) == [TextPart(s[from..i])];
      } else {
        assert MapSeq(pre, PartOf) == [];
      }
    } else if from < |s| {
      MapSeqSingle(Plain(s[from..]), PartOf);
    }
  }

  /** The splitting loop of `FormattedContent`. */
  method FormattedContent(s: string) returns (parts: seq<Part>)
    ensures parts == Parts(s)
  {
    parts := [];
    var last := 0;
    while true
      invariant last <= |s|
      invariant MapSeq(Scan(s, 0), PartOf) == parts + MapSeq(Scan(s, last), PartOf)
      decreases |s| - last
    {
      var next := NextBlock(s, last);
      if next.None? {
        break;
      }
      var i := next.value;
      var b := BlockAt(s, i).value;
      PartsStep(s, last);
      var head: seq<Part> := if i > last then [TextPart(s[last..i])] else [];
      AppendRegroup(parts, head, [CodePart(Trim(b.body), b.language)], MapSeq(Scan(s, b.end), PartOf));
      parts := parts + head + [CodePart(Trim(b.body), b.language)];
      last := b.end;
    }
    PartsStep(s, last);
    if last < |s| {
      parts := parts + [TextPart(s[last..])];
    }
    if |parts| == 0 {
      parts := [TextPart(s)];
    }
  }

  // ---------------------------------------------------------------------------
  // Source tags

  datatype Icon = GlobeIcon | GithubIcon | TwitterIcon | TrendingUpIcon

  const WebColor := "text-blue-500"
  const GitHubColor := "text-purple-500"
  const TwitterColor := "text-sky-500"
  const CryptoColor := "text-green-500"

  /** `getSourceLabel`: a missing tag reads as "web". */
  function SourceLabel(tag: Option<SourceType>): string
  {
    match tag
    case Some(GitHub) => "GitHub"
    case Some(Twitter) => "Twitter"
    case Some(Crypto) => "Crypto"
    case _ => "Web"
  }

  /** `getSourceIcon` */
  function SourceIcon(tag: Option<SourceType>): Icon
  {
    match tag
    case Some(GitHub) => GithubIcon
    case Some(Twitter) => TwitterIcon
    case Some(Crypto) => TrendingUpIcon
    case _ => GlobeIcon
  }

  /** `getSourceColor` */
  function SourceColor(tag: Option<SourceType>): string
  {
    match tag
    case Some(GitHub) => GitHubColor
    case Some(Twitter) => TwitterColor
    case Some(Crypto) => CryptoColor
    case _ => WebColor
  }

  /** A missing tag is shown as web; otherwise each tag has its own label,
      icon and colour, so two tags are shown alike exactly when they are the
      same tag. */
  lemma SourceStyles(a: SourceType, b: SourceType)
    ensures SourceLabel(None) == SourceLabel(Some(Web)) && SourceIcon(None) == SourceIcon(Some(Web))
            && SourceColor(None) == SourceColor(Some(Web))
    ensures SourceLabel(Some(a)) == SourceLabel(Some(b)) <==> a == b
    ensures SourceIcon(Some(a)) == SourceIcon(Some(b)) <==> a == b
    ensures SourceColor(Some(a)) == SourceColor(Some(b)) <==> a == b
  {
  }

  // ---------------------------------------------------------------------------
  // The sources list

  const CollapsedCount := 3

  /** The expand/collapse button is there only with more than three sources. */
  predicate HasManySources(sources: Option<seq<Source>>)
  {
    sources.Some? && |sources.value| > CollapsedCount
  }

  /** A listed source: its title, url, snippet and optional tag. */
  datatype Source = Source(title: string, url: string, snippet: string, tag: Option<SourceType>)

  /** The sources listed: all when expanded, the first three when collapsed. */
  function Shown(sources: seq<Source>, expanded: bool): (r: seq<Source>)
    ensures expanded ==> r == sources
    ensures !expanded ==> |r| == if |sources| < CollapsedCount then |sources| else CollapsedCount
    ensures r <= sources
  {
    if expanded then sources else sources[..if |sources| < CollapsedCount then |sources| else CollapsedCount]
  }

  /** Without the button the list looks the same whichever the state; with
      it, collapsing hides exactly the sources after the third. */
  lemma CollapseRule(sources: seq<Source>)
    ensures !HasManySources(Some(sources)) ==> Shown(sources, false) == Shown(sources, true)
    ensures HasManySources(Some(sources)) ==> Shown(sources, false) == sources[..3]
  {
    if |sources| <= CollapsedCount {
      assert sources[..|sources|] == sources;
    }
  }
}
