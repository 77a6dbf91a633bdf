/** The Yahoo Finance data server (`YFinanceDataHandler`): `get_bars` asks
    the provider for the caller's range (widened to a year when it spans less
    than 30 days), drops weekend rows at daily resolution, keeps timestamps in
    seconds, sorts and answers in the columnar UDF format; `search_symbols`
    filters a fixed catalog of twelve symbols and returns at most ten. */
module YFinance {
  import opened Seqs
  import opened Text
  import opened Feed

  // ---------------------------------------------------------------------
  // The upstream query

  /** The provider call `ticker.history(start=..., end=..., interval=...)`,
      with the two datetimes as epoch seconds. */
  datatype RangeQuery = RangeQuery(symbol: string, start: int, end: int, interval: string)

  /** The sampling interval and period per resolution, as (interval, period).
      The period is computed but the provider call does not receive it. */
  function IntervalAndPeriod(resolution: string): (r: (string, string))
    ensures r.1 == "2y" <==> r.0 == "1d"
    ensures r.1 == "1mo" <==> resolution in ["60", "30", "15", "5"]
    ensures resolution == "60" ==> r.0 == "1h"
    ensures resolution in ["30", "15", "5"] ==> r.0 == resolution + "m"
    ensures resolution !in ["60", "30", "15", "5"] ==> r == ("1d", "2y")
  {
    if resolution == "1D" then ("1d", "2y")
    else if resolution == "60" then ("1h", "1mo")
    else if resolution == "30" then ("30m", "1mo")
    else if resolution == "15" then ("15m", "1mo")
    else if resolution == "5" then ("5m", "1mo")
    else ("1d", "2y")
  }

  const Day: int := 86400

  /** The provider window for a request: `end` is `to`; `start` is `from`
      unless the range spans less than 30 days, in which case it is moved
      back to a year before `end`. */
  function QueryWindow(from: int, to: int): (w: (int, int))
    ensures w.1 == to
    ensures to - from >= 30 * Day ==> w.0 == from
    ensures to - from < 30 * Day ==> w.0 == to - 365 * Day
  {
    if to - from < 30 * Day then (to - 365 * Day, to) else (from, to)
  }

  /** The widened window always covers the requested one and spans at least
      30 days. */
  lemma QueryWindowCovers(from: int, to: int)
    ensures QueryWindow(from, to).0 <= from
    ensures QueryWindow(from, to).1 - QueryWindow(from, to).0 >= 30 * Day
  {
  }

  function QueryFor(symbol: string, resolution: string, from: int, to: int): (q: RangeQuery)
    ensures q.symbol == symbol && q.end == to && q.start <= from
    ensures q.end - q.start >= 30 * Day
    ensures q.interval == IntervalAndPeriod(resolution).0
  {
    var (start, end) := QueryWindow(from, to);
    RangeQuery(symbol, start, end, IntervalAndPeriod(resolution).0)
  }

  // ---------------------------------------------------------------------
  // Normalising the provider's rows

  /** The row filter: at resolution "1D" rows falling on Saturday or Sunday
      are skipped; at any other resolution every row is kept. */
  function KeepRow(resolution: string): (keep: Row -> bool)
    ensures resolution != "1D" ==> forall r: Row :: keep(r)
    ensures resolution == "1D" ==> forall r: Row :: keep(r) <==> r.weekday < 5
  {
    (r: Row) => !(resolution == "1D" && r.weekday >= 5)
  }

  /** The bar built from a row: the time stays in seconds. */
  function YBar(r: Row): (b: Bar)
    ensures b.time == r.ts
    ensures b.volume == if r.volume.Count? then r.volume.n else 0
  {
    Bar(r.ts, r.open, r.high, r.low, r.close, VolumeOrZero(r.volume))
  }

  /** The bars the append loop collects, in provider order. */
  function YBars(rows: seq<Row>, resolution: string): (bars: seq<Bar>)
    ensures |bars| <= |rows|
  {
    Map(YBar, Filter(KeepRow(resolution), rows))
  }

  /** The reply built from what the provider returned. */
  function YHistory(fetch: Fetch, resolution: string): (r: History)
    ensures r.Error? <==> fetch.Raised?
    ensures fetch.Raised? ==> r.errmsg == fetch.msg
    ensures r.NoData? <==> fetch == Rows([])
  {
    match fetch
    case Raised(msg) => Error(msg)
    case Rows(rows) => if rows == [] then NoData else Columnar(SortByTime(YBars(rows, resolution)))
  }

  /** `b` is the bar of some provider row the filter keeps. */
  predicate FromKeptRow(b: Bar, rows: seq<Row>, resolution: string)
  {
    exists r :: r in rows && KeepRow(resolution)(r) && b == YBar(r)
  }

  lemma YBarsExact(rows: seq<Row>, resolution: string, b: Bar)
    ensures b in YBars(rows, resolution) <==> FromKeptRow(b, rows, resolution)
  {
    var kept := Filter(KeepRow(resolution), rows);
    if b in YBars(rows, resolution) {
      var i :| 0 <= i < |kept| && YBars(rows, resolution)[i] == b;
      assert kept[i] in kept;
    }
    if FromKeptRow(b, rows, resolution) {
      var r :| r in rows && KeepRow(resolution)(r) && b == YBar(r);
      var i :| 0 <= i < |kept| && kept[i] == r;
      assert YBars(rows, resolution)[i] == b;
    }
  }

  /** A success envelope has six index-aligned columns in time order, and
      its bars are exactly the kept rows' bars (same multiset), each with
      its row's second timestamp; at daily resolution none of them comes
      from a weekend row. */
  lemma YHistoryOk(rows: seq<Row>, resolution: string)
    requires rows != []
    ensures var r := YHistory(Rows(rows), resolution);
            && WellShaped(r)
            && SortedByTime(Zip(r))
            && multiset(Zip(r)) == multiset(YBars(rows, resolution))
            && forall b :: b in Zip(r) ==> FromKeptRow(b, rows, resolution)
  {
    var bars := YBars(rows, resolution);
    SortByTimeCorrect(bars);
    var r := YHistory(Rows(rows), resolution);
    assert Zip(r) == SortByTime(bars);
    forall b | b in Zip(r) ensures FromKeptRow(b, rows, resolution) {
      assert b in multiset(bars);
      YBarsExact(rows, resolution, b);
    }
  }

  /** At daily resolution every bar comes from a row falling Monday to
      Friday, and every such row reaches the reply. */
  lemma DailySkipsWeekends(rows: seq<Row>, row: Row)
    requires rows != []
    ensures var r := YHistory(Rows(rows), "1D");
            && (forall b :: b in Zip(r) ==> exists w :: w in rows && w.weekday < 5 && b == YBar(w))
            && (row in rows && row.weekday < 5 ==> YBar(row) in Zip(r))
  {
    YHistoryOk(rows, "1D");
    if row in rows && row.weekday < 5 {
      YBarsExact(rows, "1D", YBar(row));
      assert YBar(row) in multiset(YBars(rows, "1D"));
    }
  }

  /** At any resolution other than "1D" every provider row becomes a bar:
      the reply holds all of them, with nothing filtered by range. */
  lemma IntradayKeepsEveryRow(rows: seq<Row>, resolution: string)
    requires rows != [] && resolution != "1D"
    ensures var r := YHistory(Rows(rows), resolution);
            |r.t| == |rows| && multiset(Zip(r)) == multiset(Map(YBar, rows))
  {
    FilterKeepsAll(KeepRow(resolution), rows);
    YHistoryOk(rows, resolution);
    SortByTimeCorrect(YBars(rows, resolution));
  }

  /** The append loop of `get_bars` (lines 191-207), with its `continue`
      for weekend rows at daily resolution. */
  method CollectYBars(rows: seq<Row>, resolution: string) returns (bars: seq<Bar>)
    ensures bars == YBars(rows, resolution)
  {
    bars := [];
    var i := 0;
    while i < |rows|
      invariant 0 <= i <= |rows|
      invariant bars == YBars(rows[..i], resolution)
    {
      var row := rows[i];
      ghost var kept := Filter(KeepRow(resolution), rows[..i]);
      FilterPrefix(KeepRow(resolution), rows, i);
      ghost var keep := KeepRow(resolution)(row);
      i := i + 1;
      if resolution == "1D" && row.weekday >= 5 {
        assert !keep && YBars(rows[..i], resolution) == Map(YBar, kept);
        continue;
      }
      assert keep && YBars(rows[..i], resolution) == Map(YBar, kept + [row]);
      MapAppend(YBar, kept, [row]);
      bars := bars + [YBar(row)];
    }
    assert rows[..|rows|] == rows;
  }

  /** `get_bars`: choose the interval, widen a short window, query the
      provider, skip weekend rows at daily resolution, sort and build the
      columnar reply. Returns the reply and the provider query. */
  method GetBars(symbol: string, resolution: string, fromTime: int, toTime: int,
                 upstream: RangeQuery -> Fetch)
    returns (response: History, query: RangeQuery)
    ensures query == QueryFor(symbol, resolution, fromTime, toTime)
    ensures response == YHistory(upstream(query), resolution)
  {
    var (interval, _) := IntervalAndPeriod(resolution);
    var startDate, endDate := fromTime, toTime;
    if endDate - startDate < 30 * Day {
      startDate := endDate - 365 * Day;
    }
    query := RangeQuery(symbol, startDate, endDate, interval);
    var hist := upstream(query);
    if hist.Raised? {
      return Error(hist.msg), query;
    }
    if hist.rows == [] {
      return NoData, query;
    }
    var bars := CollectYBars(hist.rows, resolution);
    var a := new Bar[|bars|](k requires 0 <= k < |bars| => bars[k]);
    assert a[..] == bars;
    SortInPlace(a);
    response := Columnar(a[..]);
  }

  // ---------------------------------------------------------------------
  // Symbol search

  /** The twelve symbols `search_symbols` searches; each description is the
      symbol itself. */
  const PopularSymbols: seq<SymbolEntry> := [
    SymbolEntry("AAPL", "Apple Inc.", "AAPL", "NASDAQ", "stock"),
    SymbolEntry("MSFT", "Microsoft Corporation", "MSFT", "NASDAQ", "stock"),
    SymbolEntry("GOOGL", "Alphabet Inc.", "GOOGL", "NASDAQ", "stock"),
    SymbolEntry("AMZN", "Amazon.com Inc.", "AMZN", "NASDAQ", "stock"),
    SymbolEntry("TSLA", "Tesla Inc.", "TSLA", "NASDAQ", "stock"),
    SymbolEntry("NVDA", "NVIDIA Corporation", "NVDA", "NASDAQ", "stock"),
    SymbolEntry("META", "Meta Platforms Inc.", "META", "NASDAQ", "stock"),
    SymbolEntry("JPM", "JPMorgan Chase & Co.", "JPM", "NYSE", "stock"),
    SymbolEntry("JNJ", "Johnson & Johnson", "JNJ", "NYSE", "stock"),
    SymbolEntry("V", "Visa Inc.", "V", "NYSE", "stock"),
    SymbolEntry("SPY", "SPDR S&P 500 ETF", "SPY", "NYSE", "index"),
    SymbolEntry("QQQ", "Invesco QQQ Trust", "QQQ", "NASDAQ", "index")
  ]

  /** At most this many results are returned. */
  const MaxResults: int := 10

  /** The query is in the symbol as given, or its lower-case form is in the
      lower-cased full name or description. */
  function SymbolMatches(query: string): (m: SymbolEntry -> bool)
    ensures forall e: SymbolEntry :: query <= e.symbol ==> m(e)
  {
    (e: SymbolEntry) =>
      Contains(query, e.symbol) || Contains(Lower(query), Lower(e.fullName))
      || Contains(Lower(query), Lower(e.description))
  }

  /** `search_symbols`: the first ten catalog entries for an empty query,
      otherwise the matching entries in catalog order, cut to ten. */
  method SearchSymbols(query: string) returns (results: seq<SymbolEntry>)
    ensures |results| <= MaxResults
    ensures query == "" ==> results == PopularSymbols[..MaxResults]
    ensures query != "" ==> results == PySliceTo(Filter(SymbolMatches(query), PopularSymbols), MaxResults)
  {
    if query == "" {
      return PySliceTo(PopularSymbols, MaxResults);
    }
    results := MatchingSymbols(query, PopularSymbols);
    results := PySliceTo(results, MaxResults);
  }

  /** The filtering loop of `search_symbols`: appends, in order, each entry
      that the query matches. */
  method MatchingSymbols(query: string, catalog: seq<SymbolEntry>) returns (results: seq<SymbolEntry>)
    ensures results == Filter(SymbolMatches(query), catalog)
  {
    results := [];
    for i := 0 to |catalog|
      invariant results == Filter(SymbolMatches(query), catalog[..i])
    {
      var symbol := catalog[i];
      FilterPrefix(SymbolMatches(query), catalog, i);
      if SymbolMatches(query)(symbol) {
        results := results + [symbol];
      }
    }
    assert catalog[..|catalog|] == catalog;
  }

  /** For a non-empty query, every result matches and comes from the
      catalog, and when at most ten entries match all of them are returned. */
  lemma SearchSymbolsExact(query: string, e: SymbolEntry)
    ensures var r := PySliceTo(Filter(SymbolMatches(query), PopularSymbols), MaxResults);
            && (e in r ==> e in PopularSymbols && SymbolMatches(query)(e))
            && ((|Filter(SymbolMatches(query), PopularSymbols)| <= MaxResults
                 && e in PopularSymbols && SymbolMatches(query)(e)) ==> e in r)
  {
  }
}
