/** Web search (lib/search.ts): mapping a Tavily reply to search results, the
    keyword-dispatched fallback list used when Tavily fails, and the numbered
    context text built from the results. The Tavily request itself is an input:
    its reply arrives as a `TavilyReply` value. */
module WebSearch {
  import opened Base
  import opened Text

  datatype SearchResult = SearchResult(title: string, url: string, snippet: string, content: Option<string>)

  /** One hit of a Tavily reply; `content` is None when the field is missing. */
  datatype TavilyHit = TavilyHit(title: string, url: string, content: Option<string>)

  /** What the Tavily request produced: an exception, a non-success status, or
      a success whose body may lack the `results` array. */
  datatype TavilyReply = TavilyThrew | TavilyNotOk | TavilyOk(results: Option<seq<TavilyHit>>)

  const SnippetLength: nat := 200

  // ---------------------------------------------------------------------------
  // Fallback results

  // The canned texts are kept in named constants.
  const SentientSnippet := "Sentient is building the world's first "
    + "open, monetizable, and loyal AI. "
    + "Community-owned models and "
    + "decentralized infrastructure for the "
    + "future of AI."
  const SentientContent := "Sentient is building decentralized AI "
    + "infrastructure with community-owned "
    + "models like Dobby, frameworks for "
    + "confidential computing, and tools for "
    + "building AI agents."
  const AgentFrameworkSnippet := "Python package for building agents that "
    + "serve Sentient Chat events with "
    + "multimodal inputs and real-time "
    + "rendering."
  const DeepSearchSnippet := "Lightweight yet powerful search tool "
    + "for AI agents, enabling deep web search "
    + "and retrieval with state-of-the-art "
    + "performance."
  const DobbySnippet := "Community-owned AI model with "
    + "pro-crypto, pro-freedom stance. First "
    + "truly decentralized LLM owned by "
    + "700,000+ people."
  const DobbyContent := "Dobby is a fine-tuned Llama 3.3 70B "
    + "model with strong conviction towards "
    + "personal freedom, decentralization, and "
    + "crypto. It's loyal, conversational, and "
    + "maintains broad skills."
  const DecentralizedAiSnippet := "Decentralized AI combines blockchain "
    + "technology with artificial intelligence "
    + "to create transparent, "
    + "censorship-resistant AI systems owned "
    + "by communities."
  const CryptoAiSnippet := "Cryptocurrency and AI are converging to "
    + "create new economic models for AI "
    + "development, ownership, and "
    + "monetization."
  const GoogleSnippet := "For more information, try searching on "
    + "Google or other search engines."

  const SentientResults: seq<SearchResult> :=
    [ SearchResult("Sentient AGI - GitHub", "https://github.com/sentient-agi", SentientSnippet, Some(SentientContent)),
      SearchResult("Sentient Agent Framework", "https://github.com/sentient-agi/Sentient-Agent-Framework",
        AgentFrameworkSnippet, None),
      SearchResult("OpenDeepSearch by Sentient", "https://github.com/sentient-agi/OpenDeepSearch",
        DeepSearchSnippet, None) ]

  const DobbyResults: seq<SearchResult> :=
    [ SearchResult("Dobby Unhinged Llama Model", "https://huggingface.co/SentientAGI/Dobby-Unhinged-Llama-3.3-70B",
        DobbySnippet, Some(DobbyContent)) ]

  const CryptoResults: seq<SearchResult> :=
    [ SearchResult("Decentralized AI Explained", "https://ethereum.org/en/decentralized-ai/",
        DecentralizedAiSnippet, None),
      SearchResult("The Future of Crypto and AI", "https://a16z.com/crypto-ai/", CryptoAiSnippet, None) ]

  const GoogleSearchPrefix := "https://www.google.com/search?q="

  function GoogleResult(query: string): SearchResult
  {
    SearchResult("Search Results", GoogleSearchPrefix + EncodeUriComponent(query),
      GoogleSnippet, None)
  }

  const SentientWord := "sentient"
  const DobbyWord := "dobby"
  const CryptoWords := ["crypto", "blockchain", "decentrali"]

  predicate MentionsSentient(query: string) { Contains(ToLower(query), SentientWord) }
  predicate MentionsDobby(query: string) { Contains(ToLower(query), DobbyWord) }
  predicate MentionsCrypto(query: string)
  {
    var q := ToLower(query);
    Contains(q, CryptoWords[0]) || Contains(q, CryptoWords[1]) || Contains(q, CryptoWords[2])
  }

  /** The canned results used when Tavily cannot be reached: keyword groups
      tried in a fixed priority on the lower-cased query, and a Google search
      link for the query when none matches. Never empty. */
  function FallbackResults(query: string): (r: seq<SearchResult>)
    ensures |r| >= 1
  {
    if MentionsSentient(query) then SentientResults
    else if MentionsDobby(query) then DobbyResults
    else if MentionsCrypto(query) then CryptoResults
    else [GoogleResult(query)]
  }

  /** The dispatch priority: "sentient" beats "dobby", which beats the crypto
      words; any other query gets exactly one result, a link to a Google
      search whose query part is the encoded query. */
  lemma FallbackDispatch(query: string)
    ensures MentionsSentient(query) ==> |FallbackResults(query)| == 3
    ensures !MentionsSentient(query) && MentionsDobby(query) ==> |FallbackResults(query)| == 1
    ensures !MentionsSentient(query) && !MentionsDobby(query) && MentionsCrypto(query) ==>
              |FallbackResults(query)| == 2
    ensures !MentionsSentient(query) && !MentionsDobby(query) && !MentionsCrypto(query) ==>
              var r := FallbackResults(query);
              |r| == 1 && StartsWith(r[0].url, GoogleSearchPrefix)
              && r[0].url[|GoogleSearchPrefix|..] == EncodeUriComponent(query)
  {
  }

  /** Keyword matching ignores case: two queries that lower-case to the same
      text fall back to the same canned results whenever a keyword matches. */
  lemma FallbackIgnoresCase(a: string, b: string)
    requires ToLower(a) == ToLower(b)
    requires MentionsSentient(a) || MentionsDobby(a) || MentionsCrypto(a)
    ensures FallbackResults(a) == FallbackResults(b)
  {
  }

  /** A query made of unreserved characters reaches Google unchanged. */
  lemma GoogleUrlKeepsPlainQuery(query: string)
    requires forall i :: 0 <= i < |query| ==> IsUnreserved(query[i])
    ensures GoogleResult(query).url == GoogleSearchPrefix + query
  {
  }

  // ---------------------------------------------------------------------------
  // Tavily mapping

  /** First `SnippetLength` characters of the content, then "...". */
  function SnippetOf(content: string): (s: string)
    ensures |s| == (if |content| < SnippetLength then |content| else SnippetLength) + 3
    ensures s[..|s| - 3] <= content && s[|s| - 3..] == "..."
  {
    (if |content| < SnippetLength then content else content[..SnippetLength]) + "..."
  }

  predicate AllHaveContent(hits: seq<TavilyHit>)
  {
    forall i :: 0 <= i < |hits| ==> hits[i].content.Some?
  }

  function MapHit(h: TavilyHit): SearchResult
    requires h.content.Some?
  {
    SearchResult(h.title, h.url, SnippetOf(h.content.value), h.content)
  }

  /** `performWebSearch`: a failed request or thrown error gives the fallback
      list; a reply without `results` gives []; a hit without content makes
      the mapping throw, which the handler also turns into the fallback list;
      otherwise one result per hit, in order, the snippet being the start of
      the content followed by "..." and the content kept whole. */
  function PerformWebSearch(query: string, reply: TavilyReply): (r: seq<SearchResult>)
    ensures !reply.TavilyOk? ==> r == FallbackResults(query)
    ensures reply.TavilyOk? && reply.results.None? ==> r == []
    ensures reply.TavilyOk? && reply.results.Some? && !AllHaveContent(reply.results.value) ==>
              r == FallbackResults(query)
    ensures reply.TavilyOk? && reply.results.Some? && AllHaveContent(reply.results.value) ==>
              var hits := reply.results.value;
              |r| == |hits|
              && forall i :: 0 <= i < |hits| ==>
                   r[i].title == hits[i].title && r[i].url == hits[i].url
                   && r[i].content == hits[i].content
                   && 3 <= |r[i].snippet| <= SnippetLength + 3
                   && r[i].snippet[..|r[i].snippet| - 3] <= hits[i].content.value
                   && r[i].snippet == SnippetOf(hits[i].content.value)
  {
    match reply
    case TavilyThrew => FallbackResults(query)
    case TavilyNotOk => FallbackResults(query)
    case TavilyOk(None) => []
    case TavilyOk(Some(hits)) =>
      if AllHaveContent(hits) then seq(|hits|, i requires 0 <= i < |hits| => MapHit(hits[i]))
      else FallbackResults(query)
  }

  // ---------------------------------------------------------------------------
  // Context text

  const EntryOpen := "["
  const EntryClose := "] "
  const Newline := "\n"
  const SourceLabel := "Source: "
  const BlankLine := "\n\n"

  /** One numbered block: "[n] title", the body, and a "Source:" line. */
  function Entry(n: nat, title: string, body: string, url: string): string
  {
    EntryOpen + NatToString(n) + EntryClose + title + Newline + body + Newline + SourceLabel + url + BlankLine
  }

  function EntryOf(n: nat, r: SearchResult): string
  {
    Entry(n, r.title, OrElse(r.content, r.snippet), r.url)
  }

  /** The blocks for `rs`, numbered from 1 in order. */
  function Blocks(rs: seq<SearchResult>): string
  {
    if rs == [] then "" else Blocks(rs[..|rs| - 1]) + EntryOf(|rs|, rs[|rs| - 1])
  }

  lemma BlocksStep(rs: seq<SearchResult>, i: nat)
    requires i < |rs|
    ensures Blocks(rs[..i + 1]) == Blocks(rs[..i]) + EntryOf(i + 1, rs[i])
  {
    assert rs[..i + 1][..i] == rs[..i];
  }

  const WebHeader := "Here's what I found from web search:\n\n"

  /** The numbered context: empty exactly when there are no results, and
      otherwise the fixed header followed by the blocks. */
  function WebContext(rs: seq<SearchResult>): (c: string)
    ensures c == "" <==> rs == []
    ensures rs != [] ==> StartsWith(c, WebHeader)
  {
    if rs == [] then "" else WebHeader + Blocks(rs)
  }

  /** `buildContextFromResults`, growing the text block by block. */
  method BuildContextFromResults(results: seq<SearchResult>) returns (context: string)
    ensures context == WebContext(results)
  {
    if |results| == 0 {
      return "";
    }
    context := WebHeader;
    var i := 0;
    while i < |results|
      invariant 0 <= i <= |results|
      invariant context == WebHeader + Blocks(results[..i])
    {
      BlocksStep(results, i);
      AppendAssoc(WebHeader, Blocks(results[..i]), EntryOf(i + 1, results[i]));
      context := context + EntryOf(i + 1, results[i]);
      i := i + 1;
    }
    assert results[..i] == results;
  }

  /** The blocks come in input order: the blocks of the first `k` results,
      followed by the block numbered k+1 for result k, start the text. */
  lemma BlocksInOrder(rs: seq<SearchResult>, k: nat)
    requires k < |rs|
    ensures Blocks(rs[..k]) + EntryOf(k + 1, rs[k]) <= Blocks(rs)
  {
    BlocksStep(rs, k);
    BlocksPrefix(rs, k + 1);
  }

  /** The blocks of a prefix of the results start the blocks of all. */
  lemma {:induction false} BlocksPrefix(rs: seq<SearchResult>, m: nat)
    requires m <= |rs|
    ensures Blocks(rs[..m]) <= Blocks(rs)
    decreases |rs|
  {
    if m == |rs| {
      assert rs[..m] == rs;
    } else {
      var p := rs[..|rs| - 1];
      BlocksPrefix(p, m);
      assert p[..m] == rs[..m];
      PrefixGrow(Blocks(rs[..m]), Blocks(p), EntryOf(|rs|, rs[|rs| - 1]));
    }
  }

  /** Every result's numbered block occurs in the context. */
  lemma WebContextListsEveryResult(rs: seq<SearchResult>, k: nat)
    requires k < |rs|
    ensures Contains(WebContext(rs), EntryOf(k + 1, rs[k]))
  {
    BlocksInOrder(rs, k);
    ContainsInfix(WebHeader, Blocks(rs), Blocks(rs[..k]), EntryOf(k + 1, rs[k]));
  }
}
