/** The pieces of the market record assembled once a ticker is confirmed:
    prices, fundamentals, display name and the news context block
    (backend.py, `fetch_market_data` after resolution). */
module Record {
  import opened Values
  import opened Strings
  import opened TickerSearch

  /** One daily bar of the 6-month history, oldest first, with the two
      columns the backend reads. */
  datatype Bar = Bar(date: string, close: real, volume: int)

  /** A bar reduced to the `Close` and `Volume` columns, as charted and as
      summarised for the prompt. */
  datatype Row = Row(date: string, close: real, volume: int)

  function Project(b: Bar): Row
  {
    Row(b.date, b.close, b.volume)
  }

  function Rows(bars: seq<Bar>): (rows: seq<Row>)
    ensures |rows| == |bars|
    ensures forall k {:trigger rows[k]} :: 0 <= k < |bars| ==> rows[k] == Project(bars[k])
  {
    seq(|bars|, k requires 0 <= k < |bars| => Project(bars[k]))
  }

  /** How many trailing bars the text summary shows. */
  const TailWindow: nat := 14

  /** `DataFrame.tail(n)`: the last `min(n, |s|)` elements, in order. */
  function Tail<T>(s: seq<T>, n: nat): (r: seq<T>)
    ensures |r| == (if |s| < n then |s| else n)
    ensures r == s[|s| - |r|..]
  {
    if |s| <= n then s else s[|s| - n..]
  }

  /** The trailing summary holds exactly the last `min(14, n)` bars, in their
      order. */
  lemma TailIsLastBars(bars: seq<Bar>)
    ensures var t := Rows(Tail(bars, TailWindow));
      && |t| == (if |bars| < TailWindow then |bars| else TailWindow)
      && forall k :: 0 <= k < |t| ==> t[k] == Project(bars[|bars| - |t| + k])
  {
    var tail := Tail(bars, TailWindow);
    var t := Rows(tail);
    forall k | 0 <= k < |t| ensures t[k] == Project(bars[|bars| - |t| + k]) {
      assert t[k] == Project(tail[k]);
      assert tail[k] == bars[|bars| - |tail| + k];
    }
  }

  /** The fundamentals: each field of the record and the provider key it is
      read from. */
  const FundamentalKeys: map<string, string> := map[
    "Long Name" := "longName",
    "Business Summary" := "longBusinessSummary",
    "Market Cap" := "marketCap",
    "Trailing PE" := "trailingPE",
    "Forward PE" := "forwardPE",
    "ROE" := "returnOnEquity",
    "Debt to Equity" := "debtToEquity",
    "Free Cashflow" := "freeCashflow",
    "Gross Margins" := "grossMargins",
    "Operating Margins" := "operatingMargins"
  ]

  /** The projection of the provider's metadata onto the ten labels: a field
      the provider omits is `None`, never a default; one it supplies is kept
      as it is. */
  function Fundamentals(info: map<string, Value>): (f: map<string, Value>)
    ensures f.Keys == {"Long Name", "Business Summary", "Market Cap", "Trailing PE", "Forward PE",
                       "ROE", "Debt to Equity", "Free Cashflow", "Gross Margins", "Operating Margins"}
    ensures forall field :: field in f ==>
      (FundamentalKeys[field] in info ==> f[field] == info[FundamentalKeys[field]])
      && (FundamentalKeys[field] !in info ==> f[field] == Null)
  {
    map field | field in FundamentalKeys :: Get(info, FundamentalKeys[field])
  }

  /** `info.get("longName", ticker)`: the provider's long name whenever the
      key is present (even if it holds `None`), the ticker otherwise. */
  function DisplayName(info: map<string, Value>, ticker: string): (v: Value)
    ensures "longName" in info ==> v == info["longName"]
    ensures "longName" !in info ==> v == Text(ticker)
  {
    GetOr(info, "longName", Text(ticker))
  }

  /** How much of a search result's text goes into the context. */
  const ContentLimit: nat := 1000

  /** A text longer than the limit is cut to its first 1000 characters and
      marked with `...`; a shorter one, or a missing one, is kept as it is. */
  function Truncate(text: Option<string>): (r: Option<string>)
    ensures text.None? ==> r.None?
    ensures text.Some? && |text.value| > ContentLimit ==>
      r.Some? && |r.value| == ContentLimit + 3
      && r.value[..ContentLimit] == text.value[..ContentLimit] && r.value[ContentLimit..] == "..."
    ensures text.Some? && |text.value| <= ContentLimit ==> r == text
  {
    if text.Some? && |text.value| > ContentLimit then Some(text.value[..ContentLimit] + "...")
    else text
  }

  /** A missing or empty publication date reads `Unknown Date`. */
  function Published(date: Option<string>): (d: string)
    ensures Truthy(date) ==> d == date.value
    ensures !Truthy(date) ==> d == "Unknown Date"
  {
    if Truthy(date) then date.value else "Unknown Date"
  }

  /** One search result as it appears in the context block. */
  function Entry(hit: SearchHit): string
  {
    "Title: " + ShowOpt(hit.title) + "\n"
    + "Source: " + hit.url + "\n"
    + "Date: " + Published(hit.publishedDate) + "\n"
    + "Content: " + ShowOpt(Truncate(hit.text)) + "\n"
  }

  function Entries(hits: seq<SearchHit>): (es: seq<string>)
    ensures |es| == |hits|
    ensures forall k {:trigger es[k]} :: 0 <= k < |hits| ==> es[k] == Entry(hits[k])
  {
    seq(|hits|, k requires 0 <= k < |hits| => Entry(hits[k]))
  }

  const ExaHeader: string := "--- Exa AI Web Search Results ---\n"
  const EntrySeparator: string := "\n---"
  const NoExaResults: string := "Exa AI search returned no results."
  const FallbackHeader: string := "--- Fallback Source (yfinance) ---\n"
  const NoNews: string := "No recent news fetched."

  /** The context built from the search provider's results. */
  function ExaBlock(hits: seq<SearchHit>): string
  {
    if hits == [] then NoExaResults else ExaHeader + Join(EntrySeparator, Entries(hits))
  }

  /** How many provider headlines the fallback shows. */
  const HeadlineLimit: nat := 5

  /** One headline bullet: `- {title} ({publisher})`. */
  function Headline(item: map<string, Value>): string
  {
    "- " + Show(Get(item, "title")) + " (" + Show(Get(item, "publisher")) + ")"
  }

  /** The bullets of the first five headlines, in feed order. */
  function Headlines(news: seq<map<string, Value>>): (lines: seq<string>)
    ensures |lines| == (if |news| < HeadlineLimit then |news| else HeadlineLimit)
    ensures forall k {:trigger lines[k]} :: 0 <= k < |lines| ==> lines[k] == Headline(news[k])
  {
    var top := news[..if |news| < HeadlineLimit then |news| else HeadlineLimit];
    seq(|top|, k requires 0 <= k < |top| => Headline(top[k]))
  }

  /** The context built from the price provider's own headline feed. */
  function FallbackBlock(news: seq<map<string, Value>>): string
  {
    FallbackHeader + (if news == [] then NoNews else Join("\n", Headlines(news)))
  }
}
