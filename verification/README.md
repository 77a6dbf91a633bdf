# Verified model of the two UDF data-feed servers

Two small HTTP servers answer a charting library's UDF datafeed protocol from
Yahoo Finance data. This project models, in Dafny, the part of them that holds
logic:

- **live_data_server.py** (`LiveDataServer`)
  - `handle_history` keeps a five-minute cache in two class-level
    dictionaries, keyed by symbol, resolution, `from` and `to`.
  - On a miss it asks the provider for a fixed look-back window chosen by
    resolution alone. It keeps the rows whose second timestamp lies in
    `[from, to]`, stamps each bar in milliseconds and sorts the bars by time.
  - It answers with six index-aligned columns, `{"s": "no_data"}` or
    `{"s": "error", "errmsg": ...}`.
  - `handle_search` filters a seven-symbol catalog and slices the result to
    `limit`.
- **yfinance_server.py** (`YFinanceDataHandler`)
  - `get_bars` widens a request window shorter than 30 days to the year
    before `to`, asks the provider for that range and drops weekend rows at
    daily resolution.
  - It keeps timestamps in seconds, sorts and answers in the same columnar
    format.
  - `search_symbols` filters a twelve-symbol catalog and returns at most
    ten entries.

The provider (`yfinance`'s `Ticker.history`) is a function parameter
`upstream` from the query to a `Fetch`: either the frame's rows or an
exception message. Each row is `(ts, open, high, low, close, volume,
weekday)`. The clock is a `now: real` parameter. The handlers return the
query they sent, so "the provider was not called" is observable.

Files:

- `seqs.dfy` (module `Seqs`): an order-keeping `Filter`, `Map` and Python's
  `s[:n]`.
- `text.dfy` (module `Text`): ASCII `upper`/`lower`, the substring test, and
  `int()` on a query parameter.
- `feed.dfy` (module `Feed`): rows, bars and the history reply. It also holds
  the stable sort by time, as a function `SortByTime` and an in-place
  insertion sort `SortInPlace` proved equal to it, and the columnar envelope.
- `live_data_server.dfy` (module `LiveData`): the history normaliser, the
  cache as a pure transition `Serve` over `CacheState`, and the class
  `LiveDataServer`, whose `HandleHistory` updates the two dictionaries in
  place and is proved equal to `Serve`. Also `/search`.
- `yfinance_server.dfy` (module `YFinance`): `GetBars`, its window and
  interval choice, and `SearchSymbols`.

## Model

| member | source | states |
|---|---|---|
| `Seqs.Filter` | live_data_server.py:144 | the comprehension's result holds exactly the elements that satisfy the test, and is no longer than its input |
| `Seqs.FilterAppend` | live_data_server.py:144 | filtering keeps catalog order: the filter of a concatenation is the concatenation of the filters |
| `Seqs.FilterKeepsAll` | yfinance_server.py:192-207 | a filter whose test always holds returns its input unchanged |
| `Seqs.FilterMultiset` | live_data_server.py:211-212 | a filter keeps every passing element as often as the input holds it, and drops every failing one |
| `Seqs.PySliceTo` | live_data_server.py:149 | `s[:n]` is a prefix: `min(n, len)` elements for `n >= 0`, all but the last `-n` for `n < 0` |
| `Text.Upper` | live_data_server.py:128 | `upper()` maps every character through the ASCII upper-case map and leaves no lower-case letter |
| `Text.Lower` | yfinance_server.py:122-123 | `lower()` maps every character through the ASCII lower-case map and leaves no upper-case letter |
| `Text.ContainsAt` | live_data_server.py:144 | `needle in hay` holds exactly when the needle occurs at some offset of the haystack |
| `Text.ParseIntArg` | live_data_server.py:166-167 | an absent parameter takes its default, integer text its value, and any other text makes `int()` fail |
| `Feed.InsertKeeps` | live_data_server.py:223 | one insertion step adds exactly the new bar and keeps a time-ordered list time-ordered |
| `Feed.SortByTimeCorrect` | live_data_server.py:223 | the sort result is non-decreasing in time and a permutation (same multiset) of its input |
| `Feed.SortByTimeOfSorted` | yfinance_server.py:212 | a list already in time order comes back unchanged |
| `Feed.InsertAtTime` | live_data_server.py:223 | one insertion keeps, for every time `t`, the bars with time `t` in their order, and puts the new bar after the bars of its own time |
| `Feed.SortByTimeStable` | live_data_server.py:223 | the sort is stable: for every time `t`, the bars with time `t` leave the sort in the order they came in |
| `Feed.Insert` | yfinance_server.py:212 | the insertion step adds exactly one element; the lemmas `InsertKeeps` and `InsertAtTime` state what it keeps |
| `Feed.SortByTime` | live_data_server.py:223 | the specification of `list.sort(key=time)` keeps the length; `SortByTimeCorrect` and `SortByTimeStable` state it is the stable sort |
| `Feed.VolumeOrZero` | live_data_server.py:219 | a numeric volume cell is taken as is, and a NaN cell or a missing column gives 0 |
| `Feed.SortInPlace` | yfinance_server.py:212 | the in-place sort leaves the array equal to the stable sort of its old contents |
| `Feed.InsertInPlace` | live_data_server.py:223 | shifting later bars right and dropping the new one in yields the insertion of it into the sorted prefix; the rest of the array is untouched |
| `Feed.Columnar` | live_data_server.py:225-233 | the six columns have one entry per bar, and reading them row by row gives the bars back |
| `LiveData.PeriodAndInterval` | live_data_server.py:188-196 | "1D" asks for 2y at 1d; "60" and "240" ask for 60d at 1h; every other resolution asks for 7d at 5m |
| `LiveData.LiveBarsExact` | live_data_server.py:207-220 | a bar is collected exactly when some provider row with `from <= ts <= to` produced it |
| `LiveData.CollectBars` | live_data_server.py:207-220 | the append loop collects, in provider order, the bar of every in-range row |
| `LiveData.LiveHistory` | live_data_server.py:199-204 | a provider exception gives the error shape with its message; exactly an empty frame gives `no_data` |
| `LiveData.LiveHistoryOk` | live_data_server.py:207-233 | a success reply has six equal-length columns in time order, and its bars are the in-range rows' bars with the same multiplicities. Each bar has time `ts * 1000` and volume as the row has it or 0 |
| `LiveData.LiveBar` | live_data_server.py:209-220 | the bar's time is the row's second timestamp times 1000, and its volume is the row's number or 0 |
| `LiveData.LiveBars` | live_data_server.py:207-220 | the collected bars are no more than the rows; `LiveBarsExact` states which they are |
| `LiveData.MillisInRange` | live_data_server.py:209-214 | every emitted time is a whole number of seconds in milliseconds, and that second lies in `[from, to]` |
| `LiveData.LiveHistoryEmitsRange` | live_data_server.py:211-213 | every provider row inside `[from, to]` reaches the reply |
| `LiveData.DecimalString` | live_data_server.py:172 | `str()` of an integer is non-empty and made of digits and `-`, of digits alone for a non-negative number, so it never holds `_` |
| `LiveData.FlatKey` | live_data_server.py:172 | the key as written starts with the symbol, `_`, the resolution and `_`, and its length is the four parts' lengths plus three separators |
| `LiveData.FlatKeyCollides` | live_data_server.py:172 | the string key as written maps two different requests to one key when an `_` segment moves from the symbol to the resolution |
| `LiveData.FlatKeyCollisionExample` | live_data_server.py:172 | a concrete pair of distinct requests with one string key |
| `LiveData.KeyDeterminesRequest` | live_data_server.py:164-172 | requests that share a cache key agree on symbol, resolution, `from` and `to` |
| `LiveData.Trunc` | live_data_server.py:167 | `int(time.time())` truncates the clock toward zero |
| `LiveData.ParseRequest` | live_data_server.py:164-167 | defaults are "AAPL", "1D", 0 and the current second; a malformed `from` or `to` is the only way to fail |
| `LiveData.Serve` | live_data_server.py:164-245 | one request as a transition: with no provider call the cache is unchanged, and the cache changes only with a success reply that followed a provider call |
| `LiveData.ServeKeepsInvariant` | live_data_server.py:236-237 | both dictionaries keep the same keys, and every cached reply stays valid for its key's range |
| `LiveData.ServeReplyValid` | live_data_server.py:175-233 | every success reply, cached or fresh, is well shaped, time-ordered and inside the requested range |
| `LiveData.ServeHitOrMiss` | live_data_server.py:175-199 | the cache answers iff the key is present and `now < expiry`. A hit returns the stored reply and changes nothing; a miss sends the resolution's query |
| `LiveData.ServeWritesOnSuccess` | live_data_server.py:201-237 | only a success writes the cache: the reply and `now + 300` for its own key. `no_data` and errors leave both dictionaries unchanged |
| `LiveData.ServeFramesOtherKeys` | live_data_server.py:236-237 | entries and expiries of every other key are unchanged |
| `LiveData.RepeatWithinTtlIsCached` | live_data_server.py:175-178 | within 300 seconds of a successful fetch, the same request gets the same reply without a provider call |
| `LiveData.ExpiredEntryRefetches` | live_data_server.py:175 | once `now` reaches the expiry, the request goes to the provider again |
| `LiveData.QueryIgnoresRange` | live_data_server.py:188-199 | the provider query does not depend on `from` or `to` |
| `LiveData.LiveDataServer.constructor` | live_data_server.py:18-20 | the two dictionaries start empty |
| `LiveData.LiveDataServer.HandleHistory` | live_data_server.py:161-245 | the reply, the query sent and the new dictionaries are those of `Serve` on the old dictionaries, and the cache invariant is kept |
| `LiveData.HandleSearch` | live_data_server.py:126-159 | the reply is the search specification: upper-case the query, filter, slice to `limit`, add `ticker`. A malformed `limit` is the only failure |
| `LiveData.SearchReplyFor` | live_data_server.py:128-157 | the reply fails exactly when `limit` is not an integer, and otherwise holds at most the seven catalog entries |
| `LiveData.ToHits` | live_data_server.py:148-157 | the result loop gives one hit per entry, in order |
| `LiveData.SearchEmptyQuery` | live_data_server.py:145-149 | an empty or absent query returns the first `min(limit, 7)` catalog entries in order |
| `LiveData.SearchFindsMatches` | live_data_server.py:143-149 | for a non-empty query every result is a catalog entry that matches. With `limit >= 7` every matching entry appears; results are the filtered catalog in order, sliced |
| `YFinance.IntervalAndPeriod` | yfinance_server.py:154-171 | "1D" gives 1d/2y; "60" gives 1h, "30"/"15"/"5" give 30m/15m/5m, all four with 1mo; any other resolution gives 1d/2y |
| `YFinance.QueryWindow` | yfinance_server.py:177-182 | `end` is `to`; `start` stays `from` when the range spans 30 days or more, and becomes `to` minus 365 days when it spans less |
| `YFinance.QueryFor` | yfinance_server.py:154-184 | the provider query is for the requested symbol, ends at `to`, starts no later than `from`, spans at least 30 days, and uses the resolution's interval |
| `YFinance.KeepRow` | yfinance_server.py:195-197 | at any resolution other than "1D" every row is kept; at "1D" a row is kept exactly when its weekday is Monday to Friday |
| `YFinance.YBar` | yfinance_server.py:199-206 | a bar keeps its row's timestamp in seconds, and takes the volume or 0 |
| `YFinance.YBars` | yfinance_server.py:191-207 | the collected bars are no more than the rows; `YBarsExact` states which they are |
| `YFinance.SymbolMatches` | yfinance_server.py:121-123 | an entry whose symbol starts with the query always matches it |
| `YFinance.QueryWindowCovers` | yfinance_server.py:180-182 | the window sent upstream always starts no later than `from` and spans at least 30 days |
| `YFinance.YHistory` | yfinance_server.py:184-188 | a provider exception gives the error shape with its message; exactly an empty frame gives `no_data` |
| `YFinance.YBarsExact` | yfinance_server.py:191-207 | a bar is collected exactly when some row that the weekend rule keeps produced it |
| `YFinance.YHistoryOk` | yfinance_server.py:191-222 | a success reply has six equal-length columns in time order, and its bars are the kept rows' bars with their second timestamps |
| `YFinance.DailySkipsWeekends` | yfinance_server.py:195-197 | at "1D" every bar comes from a Monday-to-Friday row, and every such row reaches the reply |
| `YFinance.IntradayKeepsEveryRow` | yfinance_server.py:192-207 | at any other resolution every provider row becomes a bar, with no range filter |
| `YFinance.CollectYBars` | yfinance_server.py:191-207 | the loop with its `continue` collects the bars of the kept rows in provider order |
| `YFinance.GetBars` | yfinance_server.py:148-226 | the query is the widened window with the resolution's interval, and the reply is `YHistory` of what the provider returned |
| `YFinance.MatchingSymbols` | yfinance_server.py:119-124 | the filtering loop collects, in catalog order, exactly the entries whose symbol contains the query or whose lower-cased name or description contains the lower-cased query |
| `YFinance.SearchSymbols` | yfinance_server.py:97-126 | at most 10 results. An empty query gives the first 10 of the 12 entries; otherwise the matching entries in catalog order, cut to 10 |
| `YFinance.SearchSymbolsExact` | yfinance_server.py:118-126 | every result matches the query, and when at most ten entries match, all of them are returned |

## Left out

- HTTP routing, CORS headers and JSON writing are not modelled. This covers
  `do_GET`, `do_OPTIONS` and `send_json_response` in both servers. So is the
  yfinance router's own error reply for a malformed `from`/`to`.
- `handle_config`, `handle_symbol_info`, `handle_symbols`, `handle_time` and
  `get_symbol_info` are not modelled. They return constant literals.
- start-server.py and serve.py are not part of this model. They are static
  file servers.
- The provider call and pandas iteration are not modelled. A `Fetch` value
  stands for them; an exception raised while rows are iterated or converted
  is not modelled separately.
- `round(float(x), 2)` is not modelled: prices are integers carried through
  unchanged.
- Volume cells are a number, NaN or an absent column. A `None` cell is not
  modelled; it would give 0 in the live server and an exception in the
  yfinance server.
- `datetime.fromtimestamp` is not modelled. Timestamps are epoch seconds and
  weekdays are given per row. A timestamp that `fromtimestamp` rejects would
  raise. That gives an error reply in `handle_history` and `get_bars`, but
  the model accepts every integer. The naive local-time arithmetic of the
  30-day check in `get_bars` is also modelled as plain seconds, so a DST
  change inside the range is ignored.
- `LiveData.HandleSearch` returns `Failed` for a malformed `limit`. In the
  source, `int()` at line 129 sits outside any `try`, so the exception goes
  to the HTTP server instead of producing a reply.
- `LiveData.LiveDataServer.HandleHistory`: the progress message at line 239
  calls `datetime.fromtimestamp` on the last bar after the cache write. Its
  possible failure, which would cache a success but answer with an error, is
  not modelled.
- `LiveData.LiveDataServer.HandleHistory` reads the clock once. The source
  reads it twice (lines 167 and 173), microseconds apart.
- `LiveData.ParseRequest` writes the `int()` error message with the text in
  single quotes. Python's `repr` may choose other quoting.
- `Text.Upper` and `Text.Lower` map ASCII letters only. Python's Unicode case
  mapping is not modelled.
- Concurrency is not modelled: the yfinance server's `ThreadingMixIn` and
  the unguarded shared cache under concurrent requests.
- The yfinance `period` is computed (lines 154-171) but never passed to
  `history()`. The model keeps it in `IntervalAndPeriod` and leaves it out
  of the query.

## Findings

| source | as written | input that shows it | evidently intended | confidence | as-written member | corrected member |
|---|---|---|---|---|---|---|
| live_data_server.py:172 | the cache key is the string `f"{symbol}_{resolution}_{from_ts}_{to_ts}"`, so `_` inside a symbol or resolution makes different requests share one entry | `symbol=AAPL&resolution=1_2` is cached first; then `symbol=AAPL_1&resolution=2` with the same `from` and `to` is answered with AAPL's bars from that entry | one cache entry per (symbol, resolution, from, to) | medium, not executed | `LiveData.FlatKeyCollides` | `LiveData.KeyDeterminesRequest` |

The model's cache is keyed by the datatype `HistoryKey`, which keeps the four
values apart. `Serve` and `HandleHistory` use it.
