# TradeSage market-data backend, modelled in Dafny

TradeSage turns what a user types (a ticker such as `AAPL`, an index such
as `^NSEI`, or a company name such as "the iphone company") into a market
record for an analysis step. This project models the core of
`backend.py`:

- `get_ticker_from_exa` asks the search provider for a Yahoo Finance quote
  page. It reads the `/quote/<TOKEN>` segment of the top result's URL and
  percent-decodes the token.
- `fetch_market_data` does four things:
  - It resolves the input. It fetches history for the upper-cased, trimmed
    text. If that is empty, it asks the search and fetches again for a new
    symbol. If history is still empty, it reports "not found".
  - It assembles the record: last close, chart rows, the trailing 14 rows
    and ten fundamentals.
  - It builds the news context block. This is a small state machine over
    `web_data_str`: search results, then the "no results" notice, then a
    reset to empty on failure, then the headline-feed fallback.

The price provider and the search provider are parameters: plain functions
from their query to their answer (`MarketData.Providers`). A failed search,
whatever exception caused it, is the value `SearchFailed`. The optional
`EXA_API_KEY` is an `Option<string>` that counts only when non-empty
(`Values.Truthy`). The backend itself returns only the record or the
failure message; the model adds, beside that result, the trace of provider
calls the run makes, in order (`seq<Call>`). That trace is what the "the search is
never consulted" and "no further fetch" properties are stated over.

Modules:

| file | module | contents |
|---|---|---|
| `values.dfy` | `Values` | dynamic values, `str()` of them, `dict.get` |
| `strings.dfy` | `Strings` | `str.upper`, `str.strip` (Python's whitespace set), `str.join`, the normalization of the input |
| `ticker_search.dfy` | `TickerSearch` | the quote URL pattern, `urllib.parse.unquote`, the search queries, `get_ticker_from_exa` |
| `record.dfy` | `Record` | bars, rows, `tail(14)`, the fundamentals, the display name, the search-result entries and the headline bullets |
| `market_data.dfy` | `MarketData` | the functions that define one run (`Fetch`, `FetchCalls`, `WebContext`), the imperative procedure (`FetchMarketData` and its loops), and the properties of a run |
| `scenarios.dfy` | `Scenarios` | worked cases: `%5ENSEI`, a company name, unknown text |

When a key is configured and the content search succeeds with an empty
result list, the block is `Exa AI search returned no results.` and the
headline feed is not consulted (`backend.py:130-133`, then `139`).

## Model

| member | source | states |
|---|---|---|
| Strings.Upper | backend.py:52 | same length; each character is the ASCII upper-case of the input's character |
| Strings.Strip | backend.py:52 | the result is a contiguous slice of the input; only whitespace lies outside it; no whitespace at either end of the result |
| Strings.NormalizeShape | backend.py:52 | the candidate ticker has no lower-case letter and no whitespace at either end, and it is the upper-cased input with exactly the surrounding whitespace removed |
| Strings.NormalizeIdempotent | backend.py:52 | normalizing a normalized ticker changes nothing |
| Strings.NormalizeKeepsTicker | backend.py:52 | an already upper-case, trimmed input is its own candidate ticker |
| TickerSearch.FindQuote | backend.py:35 | the position found is a match of `/quote/` followed by a token character, and no earlier position matches (leftmost match, as `re.search` finds it) |
| TickerSearch.QuoteToken | backend.py:35 | no group exactly when `/quote/` followed by a token character occurs nowhere; otherwise the group is the non-empty, maximal run of characters other than `/` and `?` after the leftmost match, ending at `/`, `?` or the end of the URL |
| TickerSearch.QueryText | backend.py:107 | the news query ends with ` (<ticker>)`; the quote page query (line 23) ends with the user's text |
| TickerSearch.Unquote | backend.py:38 | decoding never lengthens the text, and it is empty exactly when its input is |
| TickerSearch.UnquoteQuote | backend.py:37-38 | percent-decoding undoes percent-encoding: `Unquote(Quote(s)) == s` for every symbol |
| TickerSearch.UnquotePlain | backend.py:38 | a token without `%` decodes to itself |
| TickerSearch.ExtractTicker | backend.py:35-39 | a symbol is returned exactly when the URL has a `/quote/<TOKEN>` segment; it is then non-empty and is the decoded token |
| TickerSearch.ExtractFromQuoteUrl | backend.py:34-39 | for any symbol, a URL with its percent-encoded form after `/quote/`, ending there or at `/` or `?`, gives that symbol back |
| TickerSearch.GetTickerFromExa | backend.py:12-43 | no symbol exactly when the key is missing or empty, the search fails, it returns no results, or the top URL has no quote segment; otherwise the non-empty decoded token of the top result |
| TickerSearch.TopResultOnly | backend.py:26-33 | only the first result's URL decides the outcome |
| Record.Rows | backend.py:76 | one row per bar, in order, each keeping date, close and volume |
| Record.Tail | backend.py:79 | `tail(n)` is the last `min(n, len)` elements, in order |
| Record.TailIsLastBars | backend.py:79-80 | the text summary holds exactly the last `min(14, n)` bars, in order |
| Record.Fundamentals | backend.py:84-95 | exactly the ten labels; each holds the provider's value for its key, or `None` when the key is absent |
| Record.DisplayName | backend.py:106 | the provider's long name whenever the key is present, the ticker otherwise |
| Record.Truncate | backend.py:121 | a text over 1000 characters becomes its first 1000 characters plus `...` (1003 in all); a shorter or missing text is unchanged |
| Record.Published | backend.py:122 | a missing or empty date reads `Unknown Date`; any other is kept |
| Record.Entries | backend.py:119-128 | one entry per result, in result order |
| Record.Headlines | backend.py:142-146 | the bullets of the first `min(5, n)` headlines, in feed order |
| MarketData.NotFoundMessage | backend.py:69 | the failure message starts with its fixed prefix and quotes the user's text verbatim right after it |
| MarketData.CollectEntries | backend.py:119-128 | the loop produces exactly the entries of the results, in order |
| MarketData.CollectHeadlines | backend.py:140-146 | the loop produces exactly the bullets of the first five headlines |
| MarketData.BuildWebData | backend.py:98-149 | the block and the calls produced by the `web_data_str` steps are exactly `WebContext`: search results when a key is set and the search succeeds, the headline fallback otherwise |
| MarketData.Resolve | backend.py:52-69 | the ticker, history and calls left by the resolution steps are exactly `Ticker`, its history and `ResolutionCalls`: refetch only after an empty direct fetch, and only for a new non-empty symbol |
| MarketData.FetchMarketData | backend.py:45-159 | the procedure returns exactly `Fetch` (the record or the failure message) and `FetchCalls` (the calls it made); the lemmas below prove what a run promises about both |
| MarketData.ResolutionArgs | backend.py:52-66 | during resolution: history for the normalized input, then the search with the raw input only after an empty fetch with a key, then history for the resolved symbol only on a refetch |
| MarketData.ContextArgs | backend.py:101-140 | the context search is called once exactly when a key is set; the headline feed exactly when there is no key or the search failed |
| MarketData.RunArgs | backend.py:51-149 | a run's calls are the resolution's calls, followed by metadata and context calls only when history was found |
| MarketData.DirectHitSkipsSearch | backend.py:52-58 | a direct hit never consults the search, fetches history once, and the record is for the normalized input |
| MarketData.SearchOnlyAfterEmptyFetch | backend.py:58-60 | the search is called, once and with the user's own text, exactly when the direct fetch is empty and a key is set |
| MarketData.SecondFetchOnlyWhenDistinct | backend.py:62-66 | history is fetched a second time exactly when the direct fetch was empty and the search gave a different symbol, and then for that symbol |
| MarketData.NotFoundExactly | backend.py:58-69 | "not found" exactly when the direct fetch is empty and the search gives nothing, the same ticker, or a symbol without history |
| MarketData.NotFoundEchoesInput | backend.py:68-69 | a failure quotes the input verbatim, and nothing is fetched after resolution: no metadata, no news, no context search |
| MarketData.AssembleFromHistory | backend.py:71-95 | the record's price is the last close; the chart has every bar; the summary has the last `min(14, n)`; fundamentals and name come from the metadata |
| MarketData.FoundRecordFromHistory | backend.py:151-159 | a found record is assembled from the resolved ticker's non-empty history, its metadata and its context block |
| MarketData.ContextSource | backend.py:98-149 | exactly one source, never empty: search results, or the "no results" notice (no fallback), with a key and a successful search; otherwise the headline feed or the "no news" placeholder, under the fallback header |
| MarketData.NoKeyNoSearch | backend.py:16-18 | without a key the search provider is never called, "not found" is exactly an empty direct fetch, and the context is the fallback |
| Scenarios.IndexSymbolDecoded | backend.py:34-38 | `.../quote/%5ENSEI` resolves to `^NSEI` |
| Scenarios.PlainSymbolRead | backend.py:34-38 | `.../quote/AAPL/` resolves to `AAPL` |
| Scenarios.CompanyNameResolved | backend.py:56-66 | a company name whose top search result is Apple's quote page yields a record for `AAPL`, after one search and two history fetches |
| Scenarios.NothingResolved | backend.py:68-69 | text that the search cannot resolve gives the failure message and a single history fetch, with no metadata fetch |

## Left out

- TickerSearch.Unquote: only ASCII escapes (`%00`-`%7F`) are decoded. Python's `unquote` also decodes escapes of non-ASCII UTF-8 bytes, with replacement characters for invalid sequences; the model keeps those verbatim, because Dafny strings have no UTF-8 codec here. A `%2F` in the token decodes to `/`, as in Python.
- Strings.Upper: only ASCII letters are upper-cased. Python's `str.upper` also maps non-ASCII letters (and `ß` to `SS`).
- The search parameters `num_results`, `type`, `category`, `text` and `start_published_date` are not modelled. The search provider receives a structured `TickerSearch.Query`. `TickerSearch.QueryText` gives the exact text the backend sends for it. The clock and the seven-day window (`backend.py:104`) are therefore not modelled.
- `DataFrame.to_string` is not modelled. `priceHistory` is the row sequence the text is rendered from. Prices are `real`s, and the numeric formatting of fundamentals is not modelled: provider values are opaque (`Values.Value`).
- The catch-all `except Exception` of `fetch_market_data` (`backend.py:161-162`) is not modelled: providers are total functions. Exceptions inside the two searches are modelled as `SearchFailed`.
- `print` diagnostics (`backend.py:41`, `59`, `63`, `136`) and environment loading (`load_dotenv`, `os.getenv`) are left out: the key is a parameter.
- The order of the keys in the fundamentals dictionary is not modelled: it is a `map`.
- `agent.py` and `app.py` are not part of this model.
