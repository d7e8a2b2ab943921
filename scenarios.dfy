/** Worked cases of the resolution: an index symbol read back from its
    percent-encoded quote URL, a company name resolved through the search,
    and text that resolves to nothing. */
module Scenarios {
  import opened Values
  import opened Strings
  import opened TickerSearch
  import opened Record
  import opened MarketData

  /** No quote page pattern can begin inside a prefix free of 'q': the
      pattern's second character is 'q'. */
  lemma NoMatchBeforeQFree(prefix: string, rest: string)
    requires forall k :: 0 <= k < |prefix| ==> prefix[k] != 'q'
    requires rest == [] || rest[0] == '/'
    ensures forall j :: 0 <= j < |prefix| ==> !MatchAt(prefix + rest, j)
  {
    var url := prefix + rest;
    forall j | 0 <= j < |prefix| ensures !MatchAt(url, j) {
      if j + 7 < |url| {
        assert url[j..j + 7][1] == url[j + 1];
        if j + 1 < |prefix| {
          assert url[j + 1] == prefix[j + 1];
        } else {
          assert url[j + 1] == rest[0];
        }
      }
    }
  }

  /** `^` is reserved, so it travels as `%5E`. */
  lemma IndexSymbolEncoded()
    ensures Quote("^NSEI") == "%5ENSEI"
  {
    var symbol := "^NSEI";
    QuoteUnreserved(symbol[1..]);
    assert symbol[0] as int == 94;
  }

  /** The NIFTY 50 index: its quote page URL (on a host such as
      `https://finance.yahoo.com`, which has no 'q') carries `^NSEI` as
      `%5ENSEI`, and the extraction decodes it back. */
  lemma IndexSymbolDecoded(site: string)
    requires forall k :: 0 <= k < |site| ==> site[k] != 'q'
    ensures ExtractTicker(site + "/quote/%5ENSEI") == Some("^NSEI")
  {
    var symbol := "^NSEI";
    IndexSymbolEncoded();
    var url := site + QuoteMarker + Quote(symbol) + "";
    var tail := QuoteMarker + Quote(symbol) + "";
    assert tail == "/quote/%5ENSEI";
    assert url == site + tail;
    NoMatchBeforeQFree(site, tail);
    ExtractFromQuoteUrl(site, symbol, "");
  }

  /** A plain symbol followed by a trailing slash. */
  lemma PlainSymbolRead(site: string)
    requires forall k :: 0 <= k < |site| ==> site[k] != 'q'
    ensures ExtractTicker(site + "/quote/AAPL/") == Some("AAPL")
  {
    var symbol := "AAPL";
    QuoteUnreserved(symbol);
    var url := site + QuoteMarker + Quote(symbol) + "/";
    var tail := QuoteMarker + Quote(symbol) + "/";
    assert tail == "/quote/AAPL/";
    assert url == site + tail;
    NoMatchBeforeQFree(site, tail);
    ExtractFromQuoteUrl(site, symbol, "/");
  }

  /** A company name that is not a symbol: the direct fetch is empty, the
      top search result is Apple's quote page, and the run ends with a
      record for AAPL after fetching history for the name and then for
      the symbol. */
  lemma CompanyNameResolved(userInput: string, apiKey: Option<string>, p: Providers, site: string)
    requires forall k :: 0 <= k < |site| ==> site[k] != 'q'
    requires Truthy(apiKey)
    requires Normalize(userInput) != "AAPL"
    requires p.history(Normalize(userInput)) == []
    requires p.search(QuotePage(userInput)).SearchResults?
    requires p.search(QuotePage(userInput)).hits != []
    requires p.search(QuotePage(userInput)).hits[0].url == site + "/quote/AAPL/"
    requires p.history("AAPL") != []
    ensures Fetch(userInput, apiKey, p).Found?
    ensures Fetch(userInput, apiKey, p).record.asset == "AAPL"
    ensures Args(FetchCalls(userInput, apiKey, p), TickerSearch) == [userInput]
    ensures Args(FetchCalls(userInput, apiKey, p), History) == [Normalize(userInput), "AAPL"]
  {
    PlainSymbolRead(site);
    assert Resolved(userInput, apiKey, p) == Some("AAPL");
    FoundRecordFromHistory(userInput, apiKey, p);
    SearchOnlyAfterEmptyFetch(userInput, apiKey, p);
    SecondFetchOnlyWhenDistinct(userInput, apiKey, p);
  }

  /** Text that neither names a symbol nor is found by the search: the run
      reports it back as typed and fetches nothing beyond the resolution. */
  lemma NothingResolved(userInput: string, apiKey: Option<string>, p: Providers)
    requires p.history(Normalize(userInput)) == []
    requires p.search(QuotePage(userInput)) == SearchResults([])
    ensures Fetch(userInput, apiKey, p) == NotFound(NotFoundMessage(userInput))
    ensures Args(FetchCalls(userInput, apiKey, p), History) == [Normalize(userInput)]
    ensures Args(FetchCalls(userInput, apiKey, p), Info) == []
  {
    NotFoundExactly(userInput, apiKey, p);
    SecondFetchOnlyWhenDistinct(userInput, apiKey, p);
    NotFoundEchoesInput(userInput, apiKey, p);
  }
}
