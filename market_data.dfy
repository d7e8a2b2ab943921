/** `fetch_market_data` (backend.py): resolve the user's text to a ticker
    with non-empty price history, then assemble the market record.  The
    providers are parameters; the run also reports, in order, every call it
    makes to them, so that what is never fetched can be stated. */
module MarketData {
  import opened Values
  import opened Strings
  import opened TickerSearch
  import opened Record

  /** The external providers, as functions of their query. */
  datatype Providers = Providers(
    history: string -> seq<Bar>,                 // price provider: 6-month daily history
    info: string -> map<string, Value>,          // price provider: metadata record
    news: string -> seq<map<string, Value>>,     // price provider: headline feed
    search: Query -> SearchResponse,             // search provider: quote page lookup
    searchAndContents: Query -> SearchResponse   // search provider: recent news with text
  )

  /** Which provider entry point a call goes to. */
  datatype Endpoint = History | Info | News | TickerSearch | ContentSearch

  /** One call to a provider: the entry point and what it is asked about
      (the ticker, or for the quote page lookup the user's text). */
  datatype Call = Call(endpoint: Endpoint, arg: string)

  /** The record handed to the analysis step. */
  datatype MarketRecord = MarketRecord(
    asset: string,
    name: Value,
    currentPrice: real,
    priceHistory: seq<Row>,    // the trailing bars the text summary is rendered from
    chartData: seq<Row>,       // every bar
    fundamentals: map<string, Value>,
    webData: string
  )

  datatype Outcome = Found(record: MarketRecord) | NotFound(message: string)

  const NotFoundPrefix: string := "Could not find market data for '"
  const NotFoundSuffix: string := "'. Try entering the exact ticker (e.g., AAPL)."

  /** The resolution failure message: it quotes the user's own text, as typed. */
  function NotFoundMessage(userInput: string): (m: string)
    ensures |NotFoundPrefix| + |userInput| <= |m|
    ensures m[..|NotFoundPrefix|] == NotFoundPrefix
    ensures m[|NotFoundPrefix|..|NotFoundPrefix| + |userInput|] == userInput
  {
    NotFoundPrefix + userInput + NotFoundSuffix
  }

  // ---------------------------------------------------------------------
  // Specification of one run

  /** The symbol the search resolves the raw input to, if any. */
  function Resolved(userInput: string, apiKey: Option<string>, p: Providers): Option<string>
  {
    GetTickerFromExa(userInput, apiKey, p.search)
  }

  /** The direct fetch came back empty and the search gave a different,
      non-empty symbol: history is fetched a second time, for that symbol. */
  predicate Refetches(userInput: string, apiKey: Option<string>, p: Providers)
  {
    var r := Resolved(userInput, apiKey, p);
    p.history(Normalize(userInput)) == [] && r.Some? && r.value != Normalize(userInput)
  }

  /** The ticker the run ends up with. */
  function Ticker(userInput: string, apiKey: Option<string>, p: Providers): string
  {
    if Refetches(userInput, apiKey, p) then Resolved(userInput, apiKey, p).value
    else Normalize(userInput)
  }

  /** The provider calls made while resolving. */
  function ResolutionCalls(userInput: string, apiKey: Option<string>, p: Providers): seq<Call>
  {
    [Call(History, Normalize(userInput))]
    + (if p.history(Normalize(userInput)) == [] && Truthy(apiKey)
       then [Call(TickerSearch, userInput)] else [])
    + (if Refetches(userInput, apiKey, p) then [Call(History, Resolved(userInput, apiKey, p).value)] else [])
  }

  /** The context block and the calls made to build it. */
  datatype Context = Context(text: string, calls: seq<Call>)

  /** The search provider's results when a key is configured and the search
      succeeds; the price provider's headline feed otherwise. */
  function WebContext(ticker: string, name: Value, apiKey: Option<string>, p: Providers): Context
  {
    var q := MoatNews(name, ticker);
    if Truthy(apiKey) && p.searchAndContents(q).SearchResults? then
      Context(ExaBlock(p.searchAndContents(q).hits), [Call(ContentSearch, ticker)])
    else
      Context(FallbackBlock(p.news(ticker)),
              (if Truthy(apiKey) then [Call(ContentSearch, ticker)] else []) + [Call(News, ticker)])
  }

  /** The record for a confirmed ticker, its history and its metadata. */
  function Assemble(t: string, bars: seq<Bar>, info: map<string, Value>, webData: string): MarketRecord
    requires bars != []
  {
    MarketRecord(t, DisplayName(info, t), bars[|bars| - 1].close, Rows(Tail(bars, TailWindow)),
                 Rows(bars), Fundamentals(info), webData)
  }

  /** What a run returns. */
  function Fetch(userInput: string, apiKey: Option<string>, p: Providers): Outcome
  {
    var t := Ticker(userInput, apiKey, p);
    var bars := p.history(t);
    if bars == [] then NotFound(NotFoundMessage(userInput))
    else
      var info := p.info(t);
      Found(Assemble(t, bars, info, WebContext(t, DisplayName(info, t), apiKey, p).text))
  }

  /** The provider calls a run makes, in order. */
  function FetchCalls(userInput: string, apiKey: Option<string>, p: Providers): seq<Call>
  {
    var t := Ticker(userInput, apiKey, p);
    var rc := ResolutionCalls(userInput, apiKey, p);
    if p.history(t) == [] then rc
    else rc + [Call(Info, t)] + WebContext(t, DisplayName(p.info(t), t), apiKey, p).calls
  }

  // ---------------------------------------------------------------------
  // The backend's procedure

  /** The loop that renders each search result as a context entry. */
  method CollectEntries(hits: seq<SearchHit>) returns (exaResults: seq<string>)
    ensures exaResults == Entries(hits)
  {
    exaResults := [];
    var i := 0;
    while i < |hits|
      invariant 0 <= i <= |hits|
      invariant |exaResults| == i
      invariant forall k :: 0 <= k < i ==> exaResults[k] == Entry(hits[k])
    {
      exaResults := exaResults + [Entry(hits[i])];
      i := i + 1;
    }
  }

  /** The loop that renders the first five headlines as bullets. */
  method CollectHeadlines(newsItems: seq<map<string, Value>>) returns (summary: seq<string>)
    ensures summary == Headlines(newsItems)
  {
    summary := [];
    if newsItems != [] {
      var top := newsItems[..if |newsItems| < HeadlineLimit then |newsItems| else HeadlineLimit];
      var j := 0;
      while j < |top|
        invariant 0 <= j <= |top|
        invariant |summary| == j
        invariant forall k :: 0 <= k < j ==> summary[k] == Headline(top[k])
      {
        summary := summary + [Headline(top[j])];
        j := j + 1;
      }
    }
  }

  /** Building `web_data_str`: empty at first, set from the search results
      when a key is configured and the search succeeds, reset to empty when
      it fails, and filled from the headline feed while it is still empty. */
  method BuildWebData(ticker: string, name: Value, apiKey: Option<string>, p: Providers)
    returns (webData: string, calls: seq<Call>)
    ensures Context(webData, calls) == WebContext(ticker, name, apiKey, p)
  {
    webData := "";
    calls := [];
    if Truthy(apiKey) {
      var query := MoatNews(name, ticker);
      var response := p.searchAndContents(query);
      calls := calls + [Call(ContentSearch, ticker)];
      if response.SearchResults? {
        var exaResults := CollectEntries(response.hits);
        if exaResults != [] {
          webData := ExaHeader + Join(EntrySeparator, exaResults);
        } else {
          webData := NoExaResults;
        }
      } else {
        webData := "";
      }
    }

    if webData == "" {
      var newsItems := p.news(ticker);
      calls := calls + [Call(News, ticker)];
      var summary := CollectHeadlines(newsItems);
      var fallback := if summary != [] then Join("\n", summary) else NoNews;
      webData := FallbackHeader + fallback;
    }
  }

  /** The resolution half of `fetch_market_data`: fetch the normalized
      input's history and, only when it is empty, ask the search for a
      symbol and fetch again if that symbol is new.  `ticker` and `history`
      are reassigned as the backend does. */
  method Resolve(userInput: string, apiKey: Option<string>, p: Providers)
    returns (ticker: string, history: seq<Bar>, calls: seq<Call>)
    ensures ticker == Ticker(userInput, apiKey, p)
    ensures history == p.history(ticker)
    ensures calls == ResolutionCalls(userInput, apiKey, p)
  {
    ticker := Normalize(userInput);
    history := p.history(ticker);
    calls := [Call(History, ticker)];

    if history == [] {
      var resolved := GetTickerFromExa(userInput, apiKey, p.search);
      if Truthy(apiKey) {
        calls := calls + [Call(TickerSearch, userInput)];
      }
      if resolved.Some? && resolved.value != "" && resolved.value != ticker {
        ticker := resolved.value;
        history := p.history(ticker);
        calls := calls + [Call(History, ticker)];
      }
    }
  }

  /** `fetch_market_data`, step by step as the backend runs it. */
  method FetchMarketData(userInput: string, apiKey: Option<string>, p: Providers)
    returns (outcome: Outcome, calls: seq<Call>)
    ensures outcome == Fetch(userInput, apiKey, p)
    ensures calls == FetchCalls(userInput, apiKey, p)
  {
    var ticker, history;
    ticker, history, calls := Resolve(userInput, apiKey, p);
    if history == [] {
      outcome := NotFound(NotFoundMessage(userInput));
      return;
    }

    var currentPrice := history[|history| - 1].close;
    var chartData := Rows(history);
    var recentHistory := Rows(Tail(history, TailWindow));

    var info := p.info(ticker);
    calls := calls + [Call(Info, ticker)];
    var fundamentals := Fundamentals(info);

    var webData, contextCalls := BuildWebData(ticker, DisplayName(info, ticker), apiKey, p);
    calls := calls + contextCalls;

    outcome := Found(MarketRecord(ticker, DisplayName(info, ticker), currentPrice, recentHistory,
                                  chartData, fundamentals, webData));
  }

  // ---------------------------------------------------------------------
  // Properties of a run

  /** The arguments of the calls to one entry point, in order. */
  function Args(calls: seq<Call>, e: Endpoint): seq<string>
  {
    if calls == [] then []
    else (if calls[0].endpoint == e then [calls[0].arg] else []) + Args(calls[1..], e)
  }

  lemma {:induction false} ArgsAppend(a: seq<Call>, b: seq<Call>, e: Endpoint)
    ensures Args(a + b, e) == Args(a, e) + Args(b, e)
  {
    if a == [] {
      assert a + b == b;
    } else {
      assert (a + b)[0] == a[0];
      assert (a + b)[1..] == a[1..] + b;
      ArgsAppend(a[1..], b, e);
    }
  }

  /** Three optional calls in a row, endpoint by endpoint. */
  lemma ResolutionShape(n: string, userInput: string, searched: bool, again: Option<string>, e: Endpoint)
    ensures Args([Call(History, n)]
                 + (if searched then [Call(TickerSearch, userInput)] else [])
                 + (if again.Some? then [Call(History, again.value)] else []), e) ==
      match e
      case History => [n] + (if again.Some? then [again.value] else [])
      case TickerSearch => if searched then [userInput] else []
      case _ => []
  {
    var first: seq<Call> := [Call(History, n)];
    var search: seq<Call> := if searched then [Call(TickerSearch, userInput)] else [];
    var more: seq<Call> := if again.Some? then [Call(History, again.value)] else [];
    ArgsAppend(first + search, more, e);
    ArgsAppend(first, search, e);
    ArgsOne(Call(History, n), e);
    if searched { ArgsOne(Call(TickerSearch, userInput), e); }
    if again.Some? { ArgsOne(Call(History, again.value), e); }
  }

  /** The calls made while resolving, endpoint by endpoint. */
  lemma ResolutionArgs(userInput: string, apiKey: Option<string>, p: Providers, e: Endpoint)
    ensures var n, r := Normalize(userInput), Resolved(userInput, apiKey, p);
      Args(ResolutionCalls(userInput, apiKey, p), e) ==
        match e
        case History => [n] + (if Refetches(userInput, apiKey, p) then [r.value] else [])
        case TickerSearch =>
          if p.history(n) == [] && Truthy(apiKey) then [userInput] else []
        case _ => []
  {
    var n := Normalize(userInput);
    var again := if Refetches(userInput, apiKey, p) then Some(Resolved(userInput, apiKey, p).value) else None;
    ResolutionShape(n, userInput, p.history(n) == [] && Truthy(apiKey), again, e);
  }

  lemma ArgsOne(c: Call, e: Endpoint)
    ensures Args([c], e) == if c.endpoint == e then [c.arg] else []
  {
    assert [c][1..] == [];
  }

  /** The calls made while building the context, endpoint by endpoint. */
  lemma ContextArgs(ticker: string, name: Value, apiKey: Option<string>, p: Providers, e: Endpoint)
    ensures var q := MoatNews(name, ticker);
      var fallback := !Truthy(apiKey) || p.searchAndContents(q).SearchFailed?;
      Args(WebContext(ticker, name, apiKey, p).calls, e) ==
        match e
        case ContentSearch => if Truthy(apiKey) then [ticker] else []
        case News => if fallback then [ticker] else []
        case _ => []
  {
    var q := MoatNews(name, ticker);
    var searched: seq<Call> := if Truthy(apiKey) then [Call(ContentSearch, ticker)] else [];
    if !(Truthy(apiKey) && p.searchAndContents(q).SearchResults?) {
      ArgsAppend(searched, [Call(News, ticker)], e);
    }
  }

  /** The calls around the metadata fetch, endpoint by endpoint. */
  lemma InfoArgs(rc: seq<Call>, t: string, cc: seq<Call>, e: Endpoint)
    ensures Args(rc + [Call(Info, t)] + cc, e) == Args(rc, e) + (if e == Info then [t] else []) + Args(cc, e)
  {
    ArgsAppend(rc + [Call(Info, t)], cc, e);
    ArgsAppend(rc, [Call(Info, t)], e);
    assert [Call(Info, t)][1..] == [];
  }

  /** The calls of a whole run: resolution, then, once a ticker is
      confirmed, its metadata and the context. */
  lemma RunArgs(userInput: string, apiKey: Option<string>, p: Providers, e: Endpoint)
    ensures var t := Ticker(userInput, apiKey, p);
      var rc := Args(ResolutionCalls(userInput, apiKey, p), e);
      Args(FetchCalls(userInput, apiKey, p), e) ==
        if p.history(t) == [] then rc
        else rc + (if e == Info then [t] else [])
                + Args(WebContext(t, DisplayName(p.info(t), t), apiKey, p).calls, e)
  {
    var t := Ticker(userInput, apiKey, p);
    if p.history(t) != [] {
      InfoArgs(ResolutionCalls(userInput, apiKey, p), t, WebContext(t, DisplayName(p.info(t), t), apiKey, p).calls, e);
    }
  }

  /** A direct hit: when the normalized input has history, the search is never
      consulted, history is fetched once, and the record is for that
      normalized input. */
  lemma DirectHitSkipsSearch(userInput: string, apiKey: Option<string>, p: Providers)
    requires p.history(Normalize(userInput)) != []
    ensures Fetch(userInput, apiKey, p).Found?
    ensures Fetch(userInput, apiKey, p).record.asset == Normalize(userInput)
    ensures Args(FetchCalls(userInput, apiKey, p), TickerSearch) == []
    ensures Args(FetchCalls(userInput, apiKey, p), History) == [Normalize(userInput)]
  {
    var t := Normalize(userInput);
    assert !Refetches(userInput, apiKey, p) && Ticker(userInput, apiKey, p) == t;
    var info := p.info(t);
    assert Fetch(userInput, apiKey, p)
        == Found(Assemble(t, p.history(t), info, WebContext(t, DisplayName(info, t), apiKey, p).text));
    ResolutionArgs(userInput, apiKey, p, TickerSearch);
    ResolutionArgs(userInput, apiKey, p, History);
    RunArgs(userInput, apiKey, p, TickerSearch);
    RunArgs(userInput, apiKey, p, History);
    ContextArgs(t, DisplayName(p.info(t), t), apiKey, p, TickerSearch);
    ContextArgs(t, DisplayName(p.info(t), t), apiKey, p, History);
  }

  /** The search is consulted once, with the user's own text, exactly when
      the direct fetch is empty and a key is configured. */
  lemma SearchOnlyAfterEmptyFetch(userInput: string, apiKey: Option<string>, p: Providers)
    ensures Args(FetchCalls(userInput, apiKey, p), TickerSearch) ==
      if p.history(Normalize(userInput)) == [] && Truthy(apiKey) then [userInput] else []
  {
    var t := Ticker(userInput, apiKey, p);
    ResolutionArgs(userInput, apiKey, p, TickerSearch);
    RunArgs(userInput, apiKey, p, TickerSearch);
    ContextArgs(t, DisplayName(p.info(t), t), apiKey, p, TickerSearch);
  }

  /** History is fetched a second time exactly when the direct fetch was
      empty and the search resolved a symbol other than the normalized
      input, and then for that symbol. */
  lemma SecondFetchOnlyWhenDistinct(userInput: string, apiKey: Option<string>, p: Providers)
    ensures var n, r := Normalize(userInput), Resolved(userInput, apiKey, p);
      Args(FetchCalls(userInput, apiKey, p), History) ==
        [n] + (if p.history(n) == [] && r.Some? && r.value != n then [r.value] else [])
  {
    var t := Ticker(userInput, apiKey, p);
    assert Refetches(userInput, apiKey, p) <==>
      p.history(Normalize(userInput)) == [] && Resolved(userInput, apiKey, p).Some?
      && Resolved(userInput, apiKey, p).value != Normalize(userInput);
    ResolutionArgs(userInput, apiKey, p, History);
    RunArgs(userInput, apiKey, p, History);
    ContextArgs(t, DisplayName(p.info(t), t), apiKey, p, History);
  }

  /** Resolution fails exactly when both attempts leave the history empty. */
  lemma NotFoundExactly(userInput: string, apiKey: Option<string>, p: Providers)
    ensures var n, r := Normalize(userInput), Resolved(userInput, apiKey, p);
      Fetch(userInput, apiKey, p).NotFound? <==>
        p.history(n) == [] && (r.None? || r.value == n || p.history(r.value) == [])
  {
  }

  /** A failed resolution quotes the input verbatim and fetches neither
      metadata nor news: nothing is called after resolution. */
  lemma NotFoundEchoesInput(userInput: string, apiKey: Option<string>, p: Providers)
    requires Fetch(userInput, apiKey, p).NotFound?
    ensures var m := Fetch(userInput, apiKey, p).message;
      m[|NotFoundPrefix|..|NotFoundPrefix| + |userInput|] == userInput
    ensures FetchCalls(userInput, apiKey, p) == ResolutionCalls(userInput, apiKey, p)
    ensures Args(FetchCalls(userInput, apiKey, p), Info) == []
    ensures Args(FetchCalls(userInput, apiKey, p), News) == []
    ensures Args(FetchCalls(userInput, apiKey, p), ContentSearch) == []
  {
    ResolutionArgs(userInput, apiKey, p, Info);
    ResolutionArgs(userInput, apiKey, p, News);
    ResolutionArgs(userInput, apiKey, p, ContentSearch);
  }

  /** The record for a ticker: the current price is the last close, the
      chart keeps every bar, the text summary the last `min(14, n)` bars in
      order, the fundamentals are the projection of the metadata and the name
      its long name. */
  lemma AssembleFromHistory(t: string, bars: seq<Bar>, info: map<string, Value>, webData: string)
    requires bars != []
    ensures var rec := Assemble(t, bars, info, webData);
      && rec.asset == t
      && rec.currentPrice == bars[|bars| - 1].close
      && |rec.chartData| == |bars|
      && (forall k :: 0 <= k < |bars| ==> rec.chartData[k] == Project(bars[k]))
      && |rec.priceHistory| == (if |bars| < TailWindow then |bars| else TailWindow)
      && (forall k :: 0 <= k < |rec.priceHistory| ==>
            rec.priceHistory[k] == Project(bars[|bars| - |rec.priceHistory| + k]))
      && rec.fundamentals == Fundamentals(info)
      && rec.name == DisplayName(info, t)
      && rec.webData == webData
  {
    var rec := Assemble(t, bars, info, webData);
    assert rec.priceHistory == Rows(Tail(bars, TailWindow));
    assert rec.chartData == Rows(bars);
    TailIsLastBars(bars);
  }

  /** A found record is assembled from the resolved ticker, its non-empty
      history, its metadata and its context block. */
  lemma FoundRecordFromHistory(userInput: string, apiKey: Option<string>, p: Providers)
    requires Fetch(userInput, apiKey, p).Found?
    ensures var t := Ticker(userInput, apiKey, p);
      && p.history(t) != []
      && Fetch(userInput, apiKey, p).record ==
           Assemble(t, p.history(t), p.info(t), WebContext(t, DisplayName(p.info(t), t), apiKey, p).text)
  {
  }

  predicate StartsWith(s: string, prefix: string)
  {
    |prefix| <= |s| && s[..|prefix|] == prefix
  }

  /** The context block: exactly one source is used, never both, and the
      block is never empty.  With a key and a successful search it holds the
      search results (or the "no results" notice when there are none, which
      does not fall back); without a key, or when the search fails, it holds
      the headline feed, or the "no news" placeholder when the feed is empty. */
  lemma ContextSource(ticker: string, name: Value, apiKey: Option<string>, p: Providers)
    ensures var ctx := WebContext(ticker, name, apiKey, p);
      var resp := p.searchAndContents(MoatNews(name, ticker));
      var fallback := !Truthy(apiKey) || resp.SearchFailed?;
      && ctx.text != ""
      && (StartsWith(ctx.text, FallbackHeader) <==> fallback)
      && (StartsWith(ctx.text, ExaHeader) <==> !fallback && resp.hits != [])
      && (ctx.text == NoExaResults <==> !fallback && resp.hits == [])
      && (!fallback && resp.hits != [] ==>
            ctx.text == ExaHeader + Join(EntrySeparator, Entries(resp.hits)))
      && (fallback && p.news(ticker) == [] ==> ctx.text == FallbackHeader + NoNews)
      && (fallback && p.news(ticker) != [] ==>
            ctx.text == FallbackHeader + Join("\n", Headlines(p.news(ticker))))
  {
    var ctx := WebContext(ticker, name, apiKey, p);
    assert ExaHeader[4] == 'E' && FallbackHeader[4] == 'F' && NoExaResults[0] == 'E';
    assert StartsWith(ctx.text, FallbackHeader) ==> ctx.text[4] == 'F';
    assert StartsWith(ctx.text, ExaHeader) ==> ctx.text[4] == 'E';
  }

  /** Without a key the search provider is never called: resolution relies on
      the direct fetch alone and the context comes from the headline feed. */
  lemma NoKeyNoSearch(userInput: string, apiKey: Option<string>, p: Providers)
    requires !Truthy(apiKey)
    ensures Args(FetchCalls(userInput, apiKey, p), TickerSearch) == []
    ensures Args(FetchCalls(userInput, apiKey, p), ContentSearch) == []
    ensures Fetch(userInput, apiKey, p).NotFound? <==> p.history(Normalize(userInput)) == []
    ensures Fetch(userInput, apiKey, p).Found? ==>
      StartsWith(Fetch(userInput, apiKey, p).record.webData, FallbackHeader)
  {
    var t := Ticker(userInput, apiKey, p);
    var name := DisplayName(p.info(t), t);
    ResolutionArgs(userInput, apiKey, p, TickerSearch);
    ResolutionArgs(userInput, apiKey, p, ContentSearch);
    RunArgs(userInput, apiKey, p, TickerSearch);
    RunArgs(userInput, apiKey, p, ContentSearch);
    ContextArgs(t, name, apiKey, p, TickerSearch);
    ContextArgs(t, name, apiKey, p, ContentSearch);
    ContextSource(t, name, apiKey, p);
  }
}
