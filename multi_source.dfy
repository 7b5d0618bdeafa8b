/** Multi-source search (lib/multi-source-search.ts): the GitHub, Twitter and
    CoinGecko adapters, the aggregator that runs one adapter per requested
    source and concatenates their lists, and the context text that groups the
    results by source. Every network reply is an input (`Network`). */
module MultiSource {
  import opened Base
  import opened Text
  import opened WebSearch

  /** The closed set of source tags. */
  datatype SourceType = Web | GitHub | Twitter | Crypto

  function TagName(s: SourceType): string
  {
    match s
    case Web => "web"
    case GitHub => "github"
    case Twitter => "twitter"
    case Crypto => "crypto"
  }

  /** The adapter the aggregator's `switch` picks for a requested tag: the three
      named ones, and web search for "web" and for anything else. */
  function SourceOfTag(tag: string): (s: SourceType)
    ensures s != Web ==> tag == TagName(s)
  {
    if tag == "github" then GitHub
    else if tag == "twitter" then Twitter
    else if tag == "crypto" then Crypto
    else Web
  }

  lemma SourceOfTagName(s: SourceType)
    ensures SourceOfTag(TagName(s)) == s
  {
  }

  /** The `metadata` record: repository facts for GitHub results, market
      figures (as the text the API returned) for coin results, none otherwise. */
  datatype Metadata =
    | NoMetadata
    | RepoMetadata(stars: nat, language: Option<string>, author: string)
    | CoinMetadata(price: string, change24h: string, marketCap: string)

  datatype MultiSourceResult = MultiSourceResult(
    title: string, url: string, snippet: string, content: Option<string>,
    source: SourceType, metadata: Metadata)

  // ---------------------------------------------------------------------------
  // Network replies

  /** A repository of the GitHub search reply; `owner` is the owner's login,
      None when the `owner` object is missing. */
  datatype Repo = Repo(
    fullName: string, htmlUrl: string, description: Option<string>, stars: nat,
    language: Option<string>, forks: nat, owner: Option<string>)

  datatype GitHubReply = GitHubThrew | GitHubNotOk | GitHubOk(items: Option<seq<Repo>>)

  datatype CoinHit = CoinHit(id: string, name: string, symbol: Option<string>)

  datatype CoinSearchReply = CoinSearchThrew | CoinSearchNotOk | CoinSearchOk(coins: Option<seq<CoinHit>>)

  /** One coin of the market-data reply. The numbers arrive already formatted
      the way the adapter prints them (price with thousands separators, change
      and market cap in billions with two decimals, the rank). */
  datatype CoinQuote = CoinQuote(
    id: string, name: string, symbol: Option<string>,
    priceText: string, changeText: string, capText: string, rankText: string)

  datatype DetailsReply = DetailsThrew | DetailsNotOk | DetailsOk(quotes: seq<CoinQuote>)

  /** Everything the network answers during one search. The market-data
      reply depends on the comma-separated id list the adapter asks for. */
  datatype Network = Network(
    web: TavilyReply, github: GitHubReply, coinSearch: CoinSearchReply,
    coinDetails: string -> DetailsReply)

  // ---------------------------------------------------------------------------
  // GitHub

  const NoDescription := "No description available"
  const StarsLabel := "\n\nStars: "
  const LanguageLabel := " | Language: "
  const ForksLabel := " | Forks: "
  const NoLanguage := "N/A"

  function RepoContent(r: Repo): string
  {
    OrElse(r.description, "") + StarsLabel + NatToString(r.stars) + LanguageLabel
    + OrElse(r.language, NoLanguage) + ForksLabel + NatToString(r.forks)
  }

  /** A repository's result: tagged github, never without a snippet, and
      its content opening with the description. */
  function RepoResult(r: Repo): (m: MultiSourceResult)
    requires r.owner.Some?
    ensures m.source == GitHub && m.snippet != ""
    ensures m.content.Some? && StartsWith(m.content.value, OrElse(r.description, ""))
  {
    MultiSourceResult(r.fullName, r.htmlUrl, OrElse(r.description, NoDescription),
      Some(RepoContent(r)), GitHub, RepoMetadata(r.stars, r.language, r.owner.value))
  }

  predicate AllOwned(repos: seq<Repo>)
  {
    forall i :: 0 <= i < |repos| ==> repos[i].owner.Some?
  }

  /** `searchGitHub`: [] on an exception, a non-success status or a missing
      `items` array, and also when a repository lacks its owner (reading the
      login throws); otherwise one result per repository, in order. */
  function SearchGitHub(reply: GitHubReply): (r: seq<MultiSourceResult>)
    ensures !reply.GitHubOk? || reply.items.None? ==> r == []
    ensures reply.GitHubOk? && reply.items.Some? && !AllOwned(reply.items.value) ==> r == []
    ensures reply.GitHubOk? && reply.items.Some? && AllOwned(reply.items.value) ==>
              var repos := reply.items.value;
              |r| == |repos|
              && forall i :: 0 <= i < |repos| ==>
                   r[i].title == repos[i].fullName && r[i].url == repos[i].htmlUrl
                   && r[i].snippet != ""
                   && r[i].snippet == OrElse(repos[i].description, NoDescription)
                   && r[i].content == Some(RepoContent(repos[i]))
                   && r[i].metadata == RepoMetadata(repos[i].stars, repos[i].language, repos[i].owner.value)
    ensures forall i :: 0 <= i < |r| ==> r[i].source == GitHub
  {
    match reply
    case GitHubOk(Some(repos)) =>
      if AllOwned(repos) then seq(|repos|, i requires 0 <= i < |repos| => RepoResult(repos[i]))
      else []
    case _ => []
  }

  // ---------------------------------------------------------------------------
  // Twitter

  const TwitterTitlePrefix := "Twitter Search: "
  const TwitterUrlPrefix := "https://twitter.com/search?q="
  const TwitterUrlSuffix := "&src=typed_query&f=live"
  const TwitterSnippetPrefix := "Search Twitter for recent discussions about \""
  const TwitterSnippetSuffix := "\". Click to view live results."
  const TwitterContentPrefix := "Twitter search results for \""
  const TwitterContentSuffix := "\". This will show you the latest tweets and discussions."

  /** `searchTwitter`: no request is made; the single result links to a live
      Twitter search for the query. */
  function SearchTwitter(query: string): (r: seq<MultiSourceResult>)
    ensures |r| == 1 && r[0].source == Twitter
    ensures r[0].title == TwitterTitlePrefix + query
    ensures StartsWith(r[0].url, TwitterUrlPrefix)
  {
    [ MultiSourceResult(
        TwitterTitlePrefix + query,
        TwitterUrlPrefix + EncodeUriComponent(query) + TwitterUrlSuffix,
        TwitterSnippetPrefix + query + TwitterSnippetSuffix,
        Some(TwitterContentPrefix + query + TwitterContentSuffix),
        Twitter, NoMetadata) ]
  }

  // ---------------------------------------------------------------------------
  // CoinGecko

  const CoinUrlPrefix := "https://www.coingecko.com/en/coins/"
  const CoinSnippetPrefix := "Cryptocurrency: "
  const Undefined := "undefined"
  const PriceLabel := "Price: $"
  const DayLabel := " | 24h: "
  const CapLabel := "% | Market Cap: $"
  const BillionSuffix := "B"
  const CurrentPriceLabel := "\n\nCurrent Price: $"
  const DayChangeLabel := "\n24h Change: "
  const CapLineLabel := "%\nMarket Cap: $"
  const RankLabel := "B\nRank: #"

  /** `${name} (${symbol?.toUpperCase()})`; a missing symbol prints as "undefined". */
  function CoinTitle(name: string, symbol: Option<string>): string
  {
    name + " (" + (if symbol.Some? then ToUpper(symbol.value) else Undefined) + ")"
  }

  /** At most the first three coins of the search reply. */
  function KeptCoins(found: seq<CoinHit>): (k: seq<CoinHit>)
    ensures |k| <= 3 && k <= found
    ensures |found| >= 3 ==> |k| == 3
    ensures |found| < 3 ==> k == found
  {
    if |found| <= 3 then found else found[..3]
  }

  function CoinIds(coins: seq<CoinHit>): (ids: seq<string>)
    ensures |ids| == |coins| && forall i :: 0 <= i < |coins| ==> ids[i] == coins[i].id
  {
    seq(|coins|, i requires 0 <= i < |coins| => coins[i].id)
  }

  /** The result for a coin when market data is not available: name and link only. */
  function CoinLink(c: CoinHit): MultiSourceResult
  {
    MultiSourceResult(CoinTitle(c.name, c.symbol), CoinUrlPrefix + c.id,
      CoinSnippetPrefix + c.name, None, Crypto, NoMetadata)
  }

  /** A quote's result: tagged crypto, linking to the coin's page, its
      content opening with the same title. */
  function QuoteResult(q: CoinQuote): (m: MultiSourceResult)
    ensures m.source == Crypto && m.url == CoinUrlPrefix + q.id
    ensures m.content.Some? && StartsWith(m.content.value, m.title)
  {
    MultiSourceResult(
      CoinTitle(q.name, q.symbol), CoinUrlPrefix + q.id,
      PriceLabel + q.priceText + DayLabel + q.changeText + CapLabel + q.capText + BillionSuffix,
      Some(CoinTitle(q.name, q.symbol) + CurrentPriceLabel + q.priceText + DayChangeLabel
           + q.changeText + CapLineLabel + q.capText + RankLabel + q.rankText),
      Crypto, CoinMetadata(q.priceText, q.changeText, q.capText))
  }

  /** `searchCrypto`: [] on a failed or throwing coin search or when no coin
      is found; otherwise market data is asked for the first three coins by
      id. If that request fails the result is a name-and-link entry per kept
      coin, in order; if it succeeds, one entry per returned quote. */
  function SearchCrypto(net: Network): (r: seq<MultiSourceResult>)
    ensures !net.coinSearch.CoinSearchOk? ==> r == []
    ensures net.coinSearch.CoinSearchOk? && net.coinSearch.coins.GetOr([]) == [] ==> r == []
    ensures net.coinSearch.CoinSearchOk? ==>
              var coins := KeptCoins(net.coinSearch.coins.GetOr([]));
              coins != [] && net.coinDetails(Join(CoinIds(coins), ",")).DetailsNotOk? ==>
                |r| == |coins| <= 3
                && forall i :: 0 <= i < |coins| ==>
                     r[i].url == CoinUrlPrefix + coins[i].id && r[i].content.None?
    ensures net.coinSearch.CoinSearchOk? ==>
              var coins := KeptCoins(net.coinSearch.coins.GetOr([]));
              coins != [] ==>
                match net.coinDetails(Join(CoinIds(coins), ","))
                case DetailsThrew => r == []
                case DetailsNotOk =>
                  |r| == |coins| && forall i :: 0 <= i < |coins| ==> r[i] == CoinLink(coins[i])
                case DetailsOk(quotes) =>
                  |r| == |quotes| && forall i :: 0 <= i < |quotes| ==> r[i] == QuoteResult(quotes[i])
    ensures forall i :: 0 <= i < |r| ==> r[i].source == Crypto
  {
    match net.coinSearch
    case CoinSearchOk(found) =>
      var coins := KeptCoins(found.GetOr([]));
      if coins == [] then []
      else
        (match net.coinDetails(Join(CoinIds(coins), ","))
         case DetailsThrew => []
         case DetailsNotOk => seq(|coins|, i requires 0 <= i < |coins| => CoinLink(coins[i]))
         case DetailsOk(quotes) => seq(|quotes|, i requires 0 <= i < |quotes| => QuoteResult(quotes[i])))
    case CoinSearchNotOk => []
    case CoinSearchThrew => []
  }

  // ---------------------------------------------------------------------------
  // Aggregation

  /** `webResults.map((r) => ({ ...r, source: "web" }))`: the same results,
      in order, tagged "web". */
  function RetagAll(rs: seq<SearchResult>): (r: seq<MultiSourceResult>)
    ensures |r| == |rs|
    ensures forall i :: 0 <= i < |rs| ==>
              r[i].source == Web && r[i].title == rs[i].title && r[i].url == rs[i].url
              && r[i].snippet == rs[i].snippet && r[i].content == rs[i].content
  {
    seq(|rs|, i requires 0 <= i < |rs| =>
      MultiSourceResult(rs[i].title, rs[i].url, rs[i].snippet, rs[i].content, Web, NoMetadata))
  }

  /** The list one adapter contributes. Web results are re-tagged "web". */
  function AdapterResults(s: SourceType, query: string, net: Network): (r: seq<MultiSourceResult>)
    ensures forall i :: 0 <= i < |r| ==> r[i].source == s
  {
    match s
    case GitHub => SearchGitHub(net.github)
    case Twitter => SearchTwitter(query)
    case Crypto => SearchCrypto(net)
    case Web => RetagAll(PerformWebSearch(query, net.web))
  }

  /** The adapter the aggregator runs for one requested tag. */
  function Adapter(query: string, net: Network): string -> seq<MultiSourceResult>
  {
    (tag: string) => AdapterResults(SourceOfTag(tag), query, net)
  }

  /** The aggregate: each requested source's list, in request order. A
      single request runs just its own adapter; in particular "web", and any
      tag the switch does not name, give the web results re-tagged. */
  function Aggregate(query: string, tags: seq<string>, net: Network): (r: seq<MultiSourceResult>)
    ensures |tags| == 1 ==> r == AdapterResults(SourceOfTag(tags[0]), query, net)
    ensures |tags| == 1 && tags[0] != "github" && tags[0] != "twitter" && tags[0] != "crypto" ==>
              r == RetagAll(PerformWebSearch(query, net.web))
  {
    if |tags| == 1 then
      ConcatMapSingle(tags[0], Adapter(query, net));
      assert tags == [tags[0]];
      ConcatMap(tags, Adapter(query, net))
    else ConcatMap(tags, Adapter(query, net))
  }

  /** `multiSourceSearch`: runs one adapter per requested tag and appends its
      list to the results. `calls` records which adapter each tag ran. */
  method MultiSourceSearch(query: string, sources: seq<string>, net: Network)
    returns (results: seq<MultiSourceResult>, calls: seq<SourceType>)
    ensures results == Aggregate(query, sources, net)
    ensures |calls| == |sources| && forall i :: 0 <= i < |sources| ==> calls[i] == SourceOfTag(sources[i])
  {
    results := [];
    calls := [];
    var i := 0;
    while i < |sources|
      invariant 0 <= i <= |sources|
      invariant results == ConcatMap(sources[..i], Adapter(query, net))
      invariant |calls| == i && forall j :: 0 <= j < i ==> calls[j] == SourceOfTag(sources[j])
    {
      ConcatMapStep(sources, Adapter(query, net), i);
      var s := SourceOfTag(sources[i]);
      results := results + AdapterResults(s, query, net);
      calls := calls + [s];
      i := i + 1;
    }
    assert sources[..i] == sources;
  }

  /** Requesting `a` then `b` gives `a`'s aggregate followed by `b`'s. */
  lemma AggregateAppend(query: string, a: seq<string>, b: seq<string>, net: Network)
    ensures Aggregate(query, a + b, net) == Aggregate(query, a, net) + Aggregate(query, b, net)
  {
    ConcatMapAppend(a, b, Adapter(query, net));
  }

  /** Every aggregated result carries the tag of an adapter that some
      requested tag selected: sources that were not asked for contribute
      nothing. */
  lemma AggregateProvenance(query: string, tags: seq<string>, net: Network, k: nat)
    requires k < |Aggregate(query, tags, net)|
    ensures exists i :: 0 <= i < |tags| && SourceOfTag(tags[i]) == Aggregate(query, tags, net)[k].source
  {
    var f := Adapter(query, net);
    ConcatMapOrigin(tags, f, k);
    var i :| 0 <= i < |tags| && ConcatMap(tags, f)[k] in f(tags[i]);
    var r := AdapterResults(SourceOfTag(tags[i]), query, net);
    var j :| 0 <= j < |r| && r[j] == ConcatMap(tags, f)[k];
  }

  // ---------------------------------------------------------------------------
  // Context text

  /** The tags of `rs`, in order. */
  function Sources(rs: seq<MultiSourceResult>): (t: seq<SourceType>)
    ensures |t| == |rs|
  {
    if rs == [] then [] else Sources(rs[..|rs| - 1]) + [rs[|rs| - 1].source]
  }

  /** The results tagged `s`, in input order. */
  function Members(rs: seq<MultiSourceResult>, s: SourceType): (ms: seq<MultiSourceResult>)
    ensures forall i :: 0 <= i < |ms| ==> ms[i].source == s
  {
    if rs == [] then []
    else Members(rs[..|rs| - 1], s) + (if rs[|rs| - 1].source == s then [rs[|rs| - 1]] else [])
  }

  /** `source.charAt(0).toUpperCase() + source.slice(1)` */
  function Label(s: SourceType): string
  {
    var t := TagName(s);
    [UpperChar(t[0])] + t[1..]
  }

  const SectionOpen := "## "
  const SectionClose := " Results\n\n"
  const MultiHeader := "Here's what I found from multiple sources:\n\n"

  function Heading(s: SourceType): string
  {
    SectionOpen + Label(s) + SectionClose
  }

  function ResultEntry(n: nat, r: MultiSourceResult): string
  {
    Entry(n, r.title, OrElse(r.content, r.snippet), r.url)
  }

  /** The entries of one group, numbered from 1. */
  function Entries(ms: seq<MultiSourceResult>): string
  {
    if ms == [] then "" else Entries(ms[..|ms| - 1]) + ResultEntry(|ms|, ms[|ms| - 1])
  }

  function Section(s: SourceType, rs: seq<MultiSourceResult>): string
  {
    Heading(s) + Entries(Members(rs, s))
  }

  /** One section per key, in key order. */
  function Sections(keys: seq<SourceType>, rs: seq<MultiSourceResult>): string
  {
    if keys == [] then "" else Sections(keys[..|keys| - 1], rs) + Section(keys[|keys| - 1], rs)
  }

  /** The grouped context: empty exactly when there are no results, and
      otherwise the header followed by one section per tag. */
  function MultiContext(rs: seq<MultiSourceResult>): (c: string)
    ensures c == "" <==> rs == []
    ensures rs != [] ==> StartsWith(c, MultiHeader)
  {
    if rs == [] then "" else MultiHeader + Sections(Dedup(Sources(rs)), rs)
  }

  lemma SourcesStep(rs: seq<MultiSourceResult>, i: nat)
    requires i < |rs|
    ensures Sources(rs[..i + 1]) == Sources(rs[..i]) + [rs[i].source]
    ensures forall s :: Members(rs[..i + 1], s) == Members(rs[..i], s) + (if rs[i].source == s then [rs[i]] else [])
  {
    assert rs[..i + 1][..i] == rs[..i];
  }

  /** A tag that does not occur has no members. */
  lemma {:induction false} MembersAbsent(rs: seq<MultiSourceResult>, s: SourceType)
    requires s !in Sources(rs)
    ensures Members(rs, s) == []
  {
    if rs != [] {
      var p := rs[..|rs| - 1];
      assert Sources(rs) == Sources(p) + [rs[|rs| - 1].source];
      MembersAbsent(p, s);
    }
  }

  /** Groups results by tag (the `reduce` into `acc`), recording the tags in
      the order they are first seen. */
  method Group(results: seq<MultiSourceResult>)
    returns (keys: seq<SourceType>, groups: map<SourceType, seq<MultiSourceResult>>)
    ensures keys == Dedup(Sources(results))
    ensures forall s :: s in groups <==> s in keys
    ensures forall s :: s in groups ==> groups[s] == Members(results, s)
  {
    keys := [];
    groups := map[];
    var i := 0;
    while i < |results|
      invariant Grouped(results, i, keys, groups)
    {
      var r := results[i];
      if r.source !in groups {
        GroupNew(results, i, keys, groups);
        groups := groups[r.source := []];
        keys := keys + [r.source];
      } else {
        GroupSeen(results, i, keys, groups);
      }
      groups := groups[r.source := groups[r.source] + [r]];
      i := i + 1;
    }
    assert results[..i] == results;
  }

  /** The state of the reduce after the first `n` results: the tags seen so
      far in first-seen order, and each tag's results in input order. */
  ghost predicate Grouped(rs: seq<MultiSourceResult>, n: nat, keys: seq<SourceType>,
                          groups: map<SourceType, seq<MultiSourceResult>>)
  {
    n <= |rs|
    && keys == Dedup(Sources(rs[..n]))
    && (forall s :: s in groups <==> s in keys)
    && (forall s :: s in groups ==> groups[s] == Members(rs[..n], s))
  }

  /** One more result whose tag was seen before: the keys stay, and the
      result joins its tag's group. */
  lemma GroupSeen(rs: seq<MultiSourceResult>, i: nat, keys: seq<SourceType>,
                  groups: map<SourceType, seq<MultiSourceResult>>)
    requires i < |rs| && Grouped(rs, i, keys, groups) && rs[i].source in groups
    ensures Grouped(rs, i + 1, keys, groups[rs[i].source := groups[rs[i].source] + [rs[i]]])
  {
    var r := rs[i];
    var after := groups[r.source := groups[r.source] + [r]];
    assert keys == Dedup(Sources(rs[..i + 1])) by {
      KeysStep(rs, i, keys);
    }
    assert forall s :: s in after <==> s in keys;
    assert forall s :: s in after ==> after[s] == Members(rs[..i + 1], s) by {
      GroupJoin(rs, i, groups);
    }
    GroupedIntro(rs, i + 1, keys, after);
  }

  /** One more result with a new tag: the tag joins the keys, and its group
      starts empty and receives the result. */
  lemma GroupNew(rs: seq<MultiSourceResult>, i: nat, keys: seq<SourceType>,
                 groups: map<SourceType, seq<MultiSourceResult>>)
    requires i < |rs| && Grouped(rs, i, keys, groups) && rs[i].source !in groups
    ensures var g := groups[rs[i].source := []];
            Grouped(rs, i + 1, keys + [rs[i].source], g[rs[i].source := g[rs[i].source] + [rs[i]]])
  {
    var r := rs[i];
    var g := groups[r.source := []];
    var after := g[r.source := g[r.source] + [r]];
    KeysStep(rs, i, keys);
    NewDomain(groups, keys, r.source, r);
    NewMembers(rs, i, keys, groups);
    GroupedIntro(rs, i + 1, keys + [r.source], after);
  }

  /** The domain of the groups after a new tag's first result. */
  lemma NewDomain(groups: map<SourceType, seq<MultiSourceResult>>, keys: seq<SourceType>,
                  t: SourceType, r: MultiSourceResult)
    requires forall s :: s in groups <==> s in keys
    ensures var g := groups[t := []];
            forall s :: s in g[t := g[t] + [r]] <==> s in keys + [t]
  {
  }

  /** The groups after a new tag's first result, against the first `i + 1`
      results. */
  lemma NewMembers(rs: seq<MultiSourceResult>, i: nat, keys: seq<SourceType>,
                   groups: map<SourceType, seq<MultiSourceResult>>)
    requires i < |rs| && keys == Dedup(Sources(rs[..i])) && rs[i].source !in keys
    requires forall s :: s in groups ==> groups[s] == Members(rs[..i], s)
    ensures var g := groups[rs[i].source := []];
            var after := g[rs[i].source := g[rs[i].source] + [rs[i]]];
            forall s :: s in after ==> after[s] == Members(rs[..i + 1], s)
  {
    NewTagAbsent(rs, i, keys);
    MembersAbsent(rs[..i], rs[i].source);
    GroupJoin(rs, i, groups[rs[i].source := []]);
  }

  lemma GroupedIntro(rs: seq<MultiSourceResult>, n: nat, keys: seq<SourceType>,
                     groups: map<SourceType, seq<MultiSourceResult>>)
    requires n <= |rs| && keys == Dedup(Sources(rs[..n]))
    requires forall s :: s in groups <==> s in keys
    requires forall s :: s in groups ==> groups[s] == Members(rs[..n], s)
    ensures Grouped(rs, n, keys, groups)
  {
  }

  /** The keys after one more result: its tag is appended when it is new,
      and a new tag does not occur among the earlier results. */
  lemma KeysStep(rs: seq<MultiSourceResult>, i: nat, keys: seq<SourceType>)
    requires i < |rs| && keys == Dedup(Sources(rs[..i]))
    ensures Dedup(Sources(rs[..i + 1])) == if rs[i].source in keys then keys else keys + [rs[i].source]
    ensures rs[i].source !in keys ==> rs[i].source !in Sources(rs[..i])
  {
    SourcesStep(rs, i);
    DedupSnoc(Sources(rs[..i]), rs[i].source);
    if rs[i].source !in keys {
      NewTagAbsent(rs, i, keys);
    }
  }

  /** A tag missing from the keys of the first `i` results does not occur
      among them. */
  lemma NewTagAbsent(rs: seq<MultiSourceResult>, i: nat, keys: seq<SourceType>)
    requires i < |rs| && keys == Dedup(Sources(rs[..i])) && rs[i].source !in keys
    ensures rs[i].source !in Sources(rs[..i])
  {
    var ss := Sources(rs[..i]);
    assert forall k :: 0 <= k < |ss| ==> ss[k] in keys;
  }

  /** Appending result `i` to its tag's group extends each group to the
      first `i + 1` results. */
  lemma GroupJoin(rs: seq<MultiSourceResult>, i: nat, g: map<SourceType, seq<MultiSourceResult>>)
    requires i < |rs| && rs[i].source in g
    requires forall s :: s in g ==> g[s] == Members(rs[..i], s)
    ensures var after := g[rs[i].source := g[rs[i].source] + [rs[i]]];
            forall s :: s in after ==> after[s] == Members(rs[..i + 1], s)
  {
    SourcesStep(rs, i);
  }

  lemma EntriesStep(ms: seq<MultiSourceResult>, m: nat)
    requires m < |ms|
    ensures Entries(ms[..m + 1]) == Entries(ms[..m]) + ResultEntry(m + 1, ms[m])
  {
    assert ms[..m + 1][..m] == ms[..m];
  }

  lemma SectionsStep(keys: seq<SourceType>, rs: seq<MultiSourceResult>, j: nat)
    requires j < |keys|
    ensures Sections(keys[..j + 1], rs) == Sections(keys[..j], rs) + Section(keys[j], rs)
  {
    assert keys[..j + 1][..j] == keys[..j];
  }

  /** The inner loop of `buildMultiSourceContext`: one numbered entry per
      member, appended to `prefix`. */
  method AppendEntries(prefix: string, members: seq<MultiSourceResult>) returns (context: string)
    ensures context == prefix + Entries(members)
  {
    context := prefix;
    var m := 0;
    while m < |members|
      invariant 0 <= m <= |members|
      invariant context == prefix + Entries(members[..m])
    {
      EntriesStep(members, m);
      AppendAssoc(prefix, Entries(members[..m]), ResultEntry(m + 1, members[m]));
      context := context + ResultEntry(m + 1, members[m]);
      m := m + 1;
    }
    assert members[..m] == members;
  }

  lemma MultiContextOfKeys(rs: seq<MultiSourceResult>, keys: seq<SourceType>)
    requires rs != [] && keys == Dedup(Sources(rs))
    ensures MultiContext(rs) == MultiHeader + Sections(keys, rs)
  {
  }

  /** One more section on a context that holds the first `j`. */
  lemma SectionsGrow(keys: seq<SourceType>, rs: seq<MultiSourceResult>, j: nat, before: string)
    requires j < |keys|
    requires before == MultiHeader + Sections(keys[..j], rs)
    ensures before + Heading(keys[j]) + Entries(Members(rs, keys[j])) == MultiHeader + Sections(keys[..j + 1], rs)
  {
    SectionsStep(keys, rs, j);
    AppendAssoc(before, Heading(keys[j]), Entries(Members(rs, keys[j])));
    AppendAssoc(MultiHeader, Sections(keys[..j], rs), Section(keys[j], rs));
  }

  /** `buildMultiSourceContext`: "" for no results; otherwise the header, then
      for each tag in first-seen order a "## <Label> Results" heading and that
      tag's results numbered from 1. */
  method BuildMultiSourceContext(results: seq<MultiSourceResult>) returns (context: string)
    ensures context == MultiContext(results)
  {
    if |results| == 0 {
      return "";
    }
    context := MultiHeader;
    assert MultiHeader + "" == MultiHeader;
    var keys, groups := Group(results);
    var j := 0;
    while j < |keys|
      invariant 0 <= j <= |keys|
      invariant context == MultiHeader + Sections(keys[..j], results)
      invariant forall t :: t in groups ==> groups[t] == Members(results, t)
    {
      var s := keys[j];
      SectionsGrow(keys, results, j, context);
      context := AppendEntries(context + Heading(s), groups[s]);
      j := j + 1;
    }
    assert keys[..j] == keys;
    MultiContextOfKeys(results, keys);
  }

  // ---------------------------------------------------------------------------
  // Properties of the context

  /** Each group is a sub-list of the results: it keeps their input order. */
  lemma {:induction false} MembersInOrder(rs: seq<MultiSourceResult>, s: SourceType)
    ensures SubList(Members(rs, s), rs)
  {
    if rs != [] {
      var n := |rs| - 1;
      var p := rs[..n];
      assert rs == p + [rs[n]];
      MembersInOrder(p, s);
      var m := Members(p, s);
      if rs[n].source == s {
        assert Members(rs, s) == m + [rs[n]];
        assert Members(rs, s)[..|m|] == m;
      } else {
        assert Members(rs, s) == m + [];
        assert m + [] == m;
        SubListExtend(m, p, rs[n]);
      }
    }
  }

  /** Every result tagged `s` is in the group of `s`. */
  lemma {:induction false} MembersComplete(rs: seq<MultiSourceResult>, s: SourceType, i: nat)
    requires i < |rs| && rs[i].source == s
    ensures rs[i] in Members(rs, s)
  {
    var n := |rs| - 1;
    if i < n {
      var p := rs[..n];
      MembersComplete(p, s, i);
      assert p[i] == rs[i];
    }
  }

  /** A group has as many entries as its tag has occurrences. */
  lemma {:induction false} MembersCount(rs: seq<MultiSourceResult>, s: SourceType)
    ensures |Members(rs, s)| == Count(Sources(rs), s)
  {
    if rs != [] {
      var n := |rs| - 1;
      var p := rs[..n];
      MembersCount(p, s);
      assert Sources(rs) == Sources(p) + [rs[n].source];
      CountSnoc(Sources(p), rs[n].source, s);
    }
  }

  /** Total number of entries in the sections for `keys`. */
  function GroupSizes(keys: seq<SourceType>, rs: seq<MultiSourceResult>): nat
  {
    if keys == [] then 0 else GroupSizes(keys[..|keys| - 1], rs) + |Members(rs, keys[|keys| - 1])|
  }

  lemma {:induction false} GroupSizesCounts(keys: seq<SourceType>, rs: seq<MultiSourceResult>)
    ensures GroupSizes(keys, rs) == SumCounts(keys, Sources(rs))
  {
    if keys != [] {
      GroupSizesCounts(keys[..|keys| - 1], rs);
      MembersCount(rs, keys[|keys| - 1]);
    }
  }

  /** The sections list every result exactly once: there is one section per
      distinct tag, the tags are distinct and in first-seen order, and the
      section sizes add up to the number of results. */
  lemma GroupsPartitionResults(rs: seq<MultiSourceResult>)
    ensures Distinct(Dedup(Sources(rs)))
    ensures forall i :: 0 <= i < |rs| ==> rs[i].source in Dedup(Sources(rs))
    ensures forall i, j :: 0 <= i < j < |Dedup(Sources(rs))| ==>
              FirstIndex(Sources(rs), Dedup(Sources(rs))[i]) < FirstIndex(Sources(rs), Dedup(Sources(rs))[j])
    ensures GroupSizes(Dedup(Sources(rs)), rs) == |rs|
  {
    var t := Sources(rs);
    forall i | 0 <= i < |rs|
      ensures rs[i].source in Dedup(t)
    {
      SourceAt(rs, i);
    }
    DedupFirstSeenOrder(t);
    GroupSizesCounts(Dedup(t), rs);
    SumCountsDedup(t);
  }

  lemma {:induction false} SourceAt(rs: seq<MultiSourceResult>, i: nat)
    requires i < |rs|
    ensures Sources(rs)[i] == rs[i].source
  {
    var n := |rs| - 1;
    if i < n {
      SourceAt(rs[..n], i);
    }
  }
}
