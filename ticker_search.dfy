/** Resolving a company name to a ticker through the search provider:
    take the top result's URL and read the symbol out of its
    `/quote/<TOKEN>` path segment (backend.py, `get_ticker_from_exa`). */
module TickerSearch {
  import opened Values

  /** One ranked result of the search provider. */
  datatype SearchHit = SearchHit(url: string, title: Option<string>, text: Option<string>,
                                 publishedDate: Option<string>)

  /** What a search call gives back: its results, or an exception (any failure
      of the client, including building it). */
  datatype SearchResponse = SearchFailed | SearchResults(hits: seq<SearchHit>)

  const QuoteMarker: string := "/quote/"

  /** The characters that end the token: the regex class `[^/?]` excludes them. */
  predicate Stop(c: char)
  {
    c == '/' || c == '?'
  }

  /** `/quote/([^/?]+)` matches at position `i`: the marker, then at least one
      token character. */
  predicate MatchAt(url: string, i: int)
  {
    0 <= i && i + 7 < |url| && url[i..i + 7] == QuoteMarker && !Stop(url[i + 7])
  }

  /** The end of the longest run of token characters starting at `j`. */
  function RunEnd(url: string, j: nat): (e: nat)
    requires j <= |url|
    ensures j <= e <= |url|
    ensures forall k :: j <= k < e ==> !Stop(url[k])
    ensures e == |url| || Stop(url[e])
    decreases |url| - j
  {
    if j == |url| || Stop(url[j]) then j else RunEnd(url, j + 1)
  }

  /** The leftmost position at or after `from` where the pattern matches,
      as `re.search` scans. */
  function FindQuote(url: string, from: nat): (r: Option<nat>)
    requires from <= |url|
    ensures r.None? ==> forall i :: from <= i < |url| ==> !MatchAt(url, i)
    ensures r.Some? ==> from <= r.value < |url| && MatchAt(url, r.value)
                        && forall i :: from <= i < r.value ==> !MatchAt(url, i)
    decreases |url| - from
  {
    if from == |url| then None
    else if MatchAt(url, from) then Some(from)
    else FindQuote(url, from + 1)
  }

  /** Group 1 of the first match: the raw token, which is never empty and
      holds neither `/` nor `?`, and which runs up to the next `/`, `?` or the
      end of the URL. */
  function QuoteToken(url: string): (r: Option<string>)
    ensures r.None? <==> forall i :: 0 <= i < |url| ==> !MatchAt(url, i)
    ensures r.Some? ==> r.value != [] && forall k :: 0 <= k < |r.value| ==> !Stop(r.value[k])
    ensures r.Some? ==>
      exists i :: (MatchAt(url, i) && (forall j :: 0 <= j < i ==> !MatchAt(url, j))
                   && i + 7 + |r.value| <= |url| && url[i + 7..i + 7 + |r.value|] == r.value
                   && (i + 7 + |r.value| == |url| || Stop(url[i + 7 + |r.value|])))
  {
    match FindQuote(url, 0)
    case None => None
    case Some(i) =>
      var e := RunEnd(url, i + 7);
      assert MatchAt(url, i) && url[i + 7..e] == url[i + 7..i + 7 + |url[i + 7..e]|];
      Some(url[i + 7..e])
  }

  predicate IsHex(c: char)
  {
    '0' <= c <= '9' || 'a' <= c <= 'f' || 'A' <= c <= 'F'
  }

  function HexVal(c: char): (v: nat)
    requires IsHex(c)
    ensures v < 16
  {
    if '0' <= c <= '9' then c as int - '0' as int
    else if 'a' <= c <= 'f' then c as int - 'a' as int + 10
    else c as int - 'A' as int + 10
  }

  /** `%XX` at the head of `s` whose byte is an ASCII character. */
  predicate AsciiEscapeAt(s: string, i: nat)
  {
    i + 2 < |s| && s[i] == '%' && IsHex(s[i + 1]) && IsHex(s[i + 2])
    && HexVal(s[i + 1]) * 16 + HexVal(s[i + 2]) < 128
  }

  /** `urllib.parse.unquote` for ASCII escapes: each `%XX` naming an ASCII
      byte becomes that character, in one left-to-right pass; every other
      character, a malformed escape included, is kept.  The result is never
      longer, and empty only for the empty string. */
  function Unquote(s: string): (r: string)
    ensures |r| <= |s|
    ensures r == [] <==> s == []
  {
    if s == [] then []
    else if AsciiEscapeAt(s, 0) then
      [(HexVal(s[1]) * 16 + HexVal(s[2])) as char] + Unquote(s[3..])
    else [s[0]] + Unquote(s[1..])
  }

  /** The characters a URL carries as they are (section 2.3 of RFC 3986). */
  predicate Unreserved(c: char)
  {
    'A' <= c <= 'Z' || 'a' <= c <= 'z' || '0' <= c <= '9'
    || c == '-' || c == '.' || c == '_' || c == '~'
  }

  function HexDigit(n: nat): (c: char)
    requires n < 16
    ensures IsHex(c) && HexVal(c) == n
  {
    "0123456789ABCDEF"[n]
  }

  /** Percent-encoding of a symbol as a quote page URL carries it: every
      ASCII character outside the unreserved set becomes `%XX`. */
  function Quote(s: string): (r: string)
    ensures |r| >= |s|
    ensures forall k :: 0 <= k < |r| ==> !Stop(r[k])
  {
    if s == [] then []
    else if Unreserved(s[0]) || s[0] as int >= 128 then [s[0]] + Quote(s[1..])
    else ['%', HexDigit(s[0] as int / 16), HexDigit(s[0] as int % 16)] + Quote(s[1..])
  }

  /** Decoding undoes the encoding: a symbol read back from its quote URL
      token is the symbol. */
  lemma {:induction false} UnquoteQuote(s: string)
    ensures Unquote(Quote(s)) == s
  {
    if s != [] {
      var rest := Quote(s[1..]);
      UnquoteQuote(s[1..]);
      if Unreserved(s[0]) || s[0] as int >= 128 {
        var q := [s[0]] + rest;
        assert q == Quote(s);
        assert !AsciiEscapeAt(q, 0);
        assert q[1..] == rest;
      } else {
        var n := s[0] as int;
        var q := ['%', HexDigit(n / 16), HexDigit(n % 16)] + rest;
        assert q == Quote(s);
        assert AsciiEscapeAt(q, 0);
        assert q[3..] == rest;
        assert (HexVal(q[1]) * 16 + HexVal(q[2])) as char == s[0];
      }
    }
  }

  /** A string with no `%` decodes to itself. */
  lemma {:induction false} UnquotePlain(s: string)
    requires forall k :: 0 <= k < |s| ==> s[k] != '%'
    ensures Unquote(s) == s
  {
    if s != [] {
      UnquotePlain(s[1..]);
    }
  }

  /** A symbol made of unreserved characters is carried unchanged. */
  lemma {:induction false} QuoteUnreserved(s: string)
    requires forall k :: 0 <= k < |s| ==> Unreserved(s[k])
    ensures Quote(s) == s
  {
    if s != [] {
      QuoteUnreserved(s[1..]);
    }
  }

  /** The symbol read from a URL: the percent-decoded token, or nothing when
      the URL has no `/quote/<TOKEN>` segment. */
  function ExtractTicker(url: string): (r: Option<string>)
    ensures r.Some? <==> QuoteToken(url).Some?
    ensures r.Some? ==> r.value != [] && r.value == Unquote(QuoteToken(url).value)
  {
    match QuoteToken(url)
    case None => None
    case Some(t) => Some(Unquote(t))
  }

  /** A quote page URL for any symbol gives that symbol back, whatever comes
      after the token (nothing, a path or a query), provided the pattern
      does not match earlier in the URL. */
  lemma ExtractFromQuoteUrl(prefix: string, symbol: string, suffix: string)
    requires symbol != []
    requires suffix == [] || Stop(suffix[0])
    requires forall j :: 0 <= j < |prefix| ==> !MatchAt(prefix + QuoteMarker + Quote(symbol) + suffix, j)
    ensures ExtractTicker(prefix + QuoteMarker + Quote(symbol) + suffix) == Some(symbol)
  {
    var tok := Quote(symbol);
    var url := prefix + QuoteMarker + tok + suffix;
    var i := |prefix|;
    assert url[i..i + 7] == QuoteMarker;
    assert url[i + 7] == tok[0];
    assert MatchAt(url, i);
    assert FindQuote(url, 0) == Some(i);
    forall k | i + 7 <= k < i + 7 + |tok| ensures !Stop(url[k]) {
      assert url[k] == tok[k - i - 7];
    }
    RunEndOver(url, i + 7, i + 7 + |tok|);
    assert url[i + 7..i + 7 + |tok|] == tok;
    UnquoteQuote(symbol);
  }

  lemma {:induction false} RunEndOver(url: string, j: nat, e: nat)
    requires j <= e <= |url|
    requires forall k :: j <= k < e ==> !Stop(url[k])
    requires e == |url| || Stop(url[e])
    ensures RunEnd(url, j) == e
    decreases e - j
  {
    if j < e {
      RunEndOver(url, j + 1, e);
    }
  }

  /** A query to the search provider: the quote page lookup for a name, or
      the news search for a company.  The provider is given the query as
      this value; `QueryText` is the text the backend sends for it. */
  datatype Query = QuotePage(name: string) | MoatNews(company: Value, ticker: string)

  function QueryText(q: Query): (text: string)
    ensures q.QuotePage? ==> |q.name| <= |text| && text[|text| - |q.name|..] == q.name
    ensures q.MoatNews? ==>
      (|q.ticker| + 3 <= |text| && text[|text| - |q.ticker| - 3..] == " (" + q.ticker + ")")
  {
    match q
    case QuotePage(name) => "site:finance.yahoo.com/quote " + name
    case MoatNews(company, ticker) =>
      "competitive advantage, economic moat analysis, and recent financial news for "
      + Show(company) + " (" + ticker + ")"
  }

  /** `get_ticker_from_exa`: with an API key, search for the quote page and
      read the symbol from the top result's URL.  A missing key, a failed
      search, an empty result list and a top URL without the pattern are
      exactly the cases that give no symbol. */
  function GetTickerFromExa(queryName: string, apiKey: Option<string>,
                            search: Query -> SearchResponse): (r: Option<string>)
    ensures var resp := search(QuotePage(queryName));
      && (r.None? <==> (!Truthy(apiKey) || resp.SearchFailed? || resp.hits == []
                        || QuoteToken(resp.hits[0].url).None?))
      && (r.Some? ==> r.value != [] && r.value == Unquote(QuoteToken(resp.hits[0].url).value))
  {
    if !Truthy(apiKey) then None
    else match search(QuotePage(queryName))
      case SearchFailed => None
      case SearchResults(hits) => if hits == [] then None else ExtractTicker(hits[0].url)
  }

  /** Only the top result counts: two searches whose first results share a
      URL resolve alike. */
  lemma TopResultOnly(queryName: string, apiKey: Option<string>,
                      s1: Query -> SearchResponse, s2: Query -> SearchResponse)
    requires s1(QuotePage(queryName)).SearchResults? && s2(QuotePage(queryName)).SearchResults?
    requires s1(QuotePage(queryName)).hits != [] && s2(QuotePage(queryName)).hits != []
    requires s1(QuotePage(queryName)).hits[0].url == s2(QuotePage(queryName)).hits[0].url
    ensures GetTickerFromExa(queryName, apiKey, s1) == GetTickerFromExa(queryName, apiKey, s2)
  {
  }
}
