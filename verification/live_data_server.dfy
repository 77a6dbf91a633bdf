/** The live data server (`LiveDataServer`): `/history` answers from a
    five-minute in-memory cache or asks the provider for a fixed look-back
    window, keeps the rows inside the caller's [from, to] range (compared in
    seconds), stamps each bar in milliseconds, sorts by time and answers in
    the columnar UDF format; `/search` filters a fixed catalog of seven
    symbols. */
module LiveData {
  import opened Seqs
  import opened Text
  import opened Feed

  // ---------------------------------------------------------------------
  // The upstream query

  /** The provider call `ticker.history(period=..., interval=...)`. */
  datatype PeriodQuery = PeriodQuery(symbol: string, period: string, interval: string)

  /** The fixed look-back window and sampling interval per resolution, as
      (period, interval). The caller's from/to play no part. */
  function PeriodAndInterval(resolution: string): (r: (string, string))
    ensures r in {("2y", "1d"), ("60d", "1h"), ("7d", "5m")}
    ensures r.1 == "1d" <==> resolution == "1D"
    ensures r.1 == "1h" <==> resolution == "60" || resolution == "240"
    ensures r.1 == "5m" <==> resolution != "1D" && resolution != "60" && resolution != "240"
  {
    if resolution == "1D" then ("2y", "1d")
    else if resolution in ["60", "240"] then ("60d", "1h")
    else ("7d", "5m")
  }

  function UpstreamQuery(symbol: string, resolution: string): PeriodQuery
  {
    var (period, interval) := PeriodAndInterval(resolution);
    PeriodQuery(symbol, period, interval)
  }

  // ---------------------------------------------------------------------
  // Normalising the provider's rows

  /** The range test `from_ts <= timestamp <= to_ts`, on seconds. */
  function InWindow(from: int, to: int): Row -> bool
  {
    (r: Row) => from <= r.ts <= to
  }

  /** The bar built from a row: the time in milliseconds, the prices as they
      are, the volume or 0. */
  function LiveBar(r: Row): (b: Bar)
    ensures b.time % 1000 == 0 && b.time / 1000 == r.ts
    ensures b.volume == if r.volume.Count? then r.volume.n else 0
  {
    Bar(r.ts * 1000, r.open, r.high, r.low, r.close, VolumeOrZero(r.volume))
  }

  /** The bars the append loop collects, in provider order. */
  function LiveBars(rows: seq<Row>, from: int, to: int): (bars: seq<Bar>)
    ensures |bars| <= |rows|
  {
    Map(LiveBar, Filter(InWindow(from, to), rows))
  }

  /** `b` is the bar of some provider row inside [from, to]. */
  predicate FromRowInRange(b: Bar, rows: seq<Row>, from: int, to: int)
  {
    exists r :: r in rows && from <= r.ts <= to && b == LiveBar(r)
  }

  /** A bar is collected exactly when some provider row inside the range
      produced it. */
  lemma LiveBarsExact(rows: seq<Row>, from: int, to: int, b: Bar)
    ensures b in LiveBars(rows, from, to) <==> FromRowInRange(b, rows, from, to)
  {
    var kept := Filter(InWindow(from, to), rows);
    if b in LiveBars(rows, from, to) {
      var i :| 0 <= i < |kept| && LiveBars(rows, from, to)[i] == b;
      assert kept[i] in kept;
    }
    if FromRowInRange(b, rows, from, to) {
      var r :| r in rows && from <= r.ts <= to && b == LiveBar(r);
      assert InWindow(from, to)(r);
      var i :| 0 <= i < |kept| && kept[i] == r;
      assert LiveBars(rows, from, to)[i] == b;
    }
  }

  /** The append loop of `handle_history` (lines 207-220). */
  method CollectBars(rows: seq<Row>, from: int, to: int) returns (bars: seq<Bar>)
    ensures bars == LiveBars(rows, from, to)
  {
    bars := [];
    var i := 0;
    while i < |rows|
      invariant 0 <= i <= |rows|
      invariant bars == LiveBars(rows[..i], from, to)
    {
      var timestamp := rows[i].ts;
      ghost var kept := Filter(InWindow(from, to), rows[..i]);
      FilterPrefix(InWindow(from, to), rows, i);
      if from <= timestamp <= to {
        MapAppend(LiveBar, kept, [rows[i]]);
        bars := bars + [LiveBar(rows[i])];
      }
      i := i + 1;
    }
    assert rows[..|rows|] == rows;
  }

  /** The history reply built from what the provider returned: its exception
      becomes the error shape, an empty frame `no_data`, anything else the
      sorted columnar envelope of the in-range bars. */
  function LiveHistory(fetch: Fetch, from: int, to: int): (r: History)
    ensures r.Error? <==> fetch.Raised?
    ensures fetch.Raised? ==> r.errmsg == fetch.msg
    ensures r.NoData? <==> fetch == Rows([])
  {
    match fetch
    case Raised(msg) => Error(msg)
    case Rows(rows) =>
      if rows == [] then NoData else Columnar(SortByTime(LiveBars(rows, from, to)))
  }

  /** What every success envelope of the live server guarantees for the
      range it was asked about: six columns of equal length, times in
      non-decreasing order, each a whole number of seconds in milliseconds
      whose second value lies inside [from, to]. */
  predicate ValidFor(r: History, from: int, to: int)
  {
    && WellShaped(r)
    && SortedByTime(Zip(r))
    && forall i :: 0 <= i < |r.t| ==> r.t[i] % 1000 == 0 && from <= r.t[i] / 1000 <= to
  }

  /** A success envelope is valid for its range, and its bars are exactly the
      in-range rows' bars (same multiset), each stamped with its row's
      second timestamp times 1000. */
  lemma LiveHistoryOk(rows: seq<Row>, from: int, to: int)
    requires rows != []
    ensures var r := LiveHistory(Rows(rows), from, to);
            && ValidFor(r, from, to)
            && multiset(Zip(r)) == multiset(LiveBars(rows, from, to))
            && forall b :: b in Zip(r) ==> FromRowInRange(b, rows, from, to)
  {
    var bars := LiveBars(rows, from, to);
    var sorted := SortByTime(bars);
    SortByTimeCorrect(bars);
    var r := LiveHistory(Rows(rows), from, to);
    assert r == Columnar(sorted);
    assert Zip(r) == sorted;
    forall b | b in sorted ensures FromRowInRange(b, rows, from, to) {
      assert b in multiset(bars);
      LiveBarsExact(rows, from, to, b);
    }
    forall i | 0 <= i < |r.t| ensures r.t[i] % 1000 == 0 && from <= r.t[i] / 1000 <= to {
      assert sorted[i] in sorted;
      MillisInRange(sorted[i], rows, from, to);
    }
  }

  /** A bar from an in-range row carries a whole number of seconds, in
      milliseconds, inside the range. */
  lemma MillisInRange(b: Bar, rows: seq<Row>, from: int, to: int)
    requires FromRowInRange(b, rows, from, to)
    ensures b.time % 1000 == 0 && from <= b.time / 1000 <= to
  {
    var r :| r in rows && from <= r.ts <= to && b == LiveBar(r);
    assert b.time == r.ts * 1000;
  }

  /** Every provider row inside the range reaches the reply. */
  lemma LiveHistoryEmitsRange(rows: seq<Row>, from: int, to: int, row: Row)
    requires row in rows && from <= row.ts <= to
    ensures LiveBar(row) in Zip(LiveHistory(Rows(rows), from, to))
  {
    LiveHistoryOk(rows, from, to);
    LiveBarsExact(rows, from, to, LiveBar(row));
    assert LiveBar(row) in multiset(LiveBars(rows, from, to));
  }

  // ---------------------------------------------------------------------
  // The cache key

  /** The cache key: the four request values, kept apart. */
  datatype HistoryKey = HistoryKey(symbol: string, resolution: string, from: int, to: int)

  /** Python's `str(n)` for an integer. */
  function DecimalString(n: int): (r: string)
    ensures r != []
    ensures forall i :: 0 <= i < |r| ==> r[i] == '-' || '0' <= r[i] <= '9'
    ensures 0 <= n ==> forall i :: 0 <= i < |r| ==> '0' <= r[i] <= '9'
    decreases if n < 0 then 1 - n else n
  {
    if n < 0 then "-" + DecimalString(-n)
    else if n < 10 then [('0' as int + n) as char]
    else DecimalString(n / 10) + DecimalString(n % 10)
  }

  /** The key as the source writes it, `f"{symbol}_{resolution}_{from_ts}_{to_ts}"`. */
  function FlatKey(symbol: string, resolution: string, from: int, to: int): (k: string)
    ensures symbol + "_" + resolution + "_" <= k
    ensures |k| == |symbol| + |resolution| + |DecimalString(from)| + |DecimalString(to)| + 3
  {
    symbol + "_" + resolution + "_" + DecimalString(from) + "_" + DecimalString(to)
  }

  /** The flat key cannot tell where the symbol ends: moving an underscore
      segment from the symbol to the resolution gives the same key. */
  lemma FlatKeyCollides(symbol: string, segment: string, resolution: string, from: int, to: int)
    ensures FlatKey(symbol + "_" + segment, resolution, from, to) ==
            FlatKey(symbol, segment + "_" + resolution, from, to)
  {
    var tail := "_" + DecimalString(from) + "_" + DecimalString(to);
    calc {
      FlatKey(symbol + "_" + segment, resolution, from, to);
      (symbol + "_" + segment) + "_" + resolution + tail;
      { assert (symbol + "_" + segment) + "_" + resolution == symbol + "_" + (segment + "_" + resolution); }
      symbol + "_" + (segment + "_" + resolution) + tail;
      FlatKey(symbol, segment + "_" + resolution, from, to);
    }
  }

  /** A concrete pair: once `symbol=AAPL&resolution=1_2` is cached, the
      request `symbol=AAPL_1&resolution=2` over the same range has the same
      flat key, so it would be answered with AAPL's bars. */
  lemma FlatKeyCollisionExample()
    ensures FlatKey("AAPL_1", "2", 0, 60) == FlatKey("AAPL", "1_2", 0, 60)
    ensures HistoryKey("AAPL_1", "2", 0, 60) != HistoryKey("AAPL", "1_2", 0, 60)
  {
    FlatKeyCollides("AAPL", "1", "2", 0, 60);
    assert "AAPL" + "_" + "1" == "AAPL_1";
    assert "1" + "_" + "2" == "1_2";
  }

  // ---------------------------------------------------------------------
  // Request parameters

  /** The query parameters of `/history`, each absent or given as text. */
  datatype HistoryRequest = HistoryRequest(symbol: Option<string>, resolution: Option<string>,
                                           from: IntParam, to: IntParam)

  /** Python's `int(x)` on a float: truncation toward zero. */
  function Trunc(x: real): (n: int)
    ensures 0.0 <= x ==> n as real <= x < n as real + 1.0
    ensures x < 0.0 ==> n as real - 1.0 < x <= n as real
  {
    if x >= 0.0 then x.Floor else -((-x).Floor)
  }

  datatype KeyOrError = Key(key: HistoryKey) | BadParam(msg: string)

  /** Reads the request with its defaults: symbol "AAPL", resolution "1D",
      from 0, to the current second; `int()` failing on `from` (checked
      first) or `to` is reported with its message. */
  function ParseRequest(req: HistoryRequest, now: real): (k: KeyOrError)
    ensures k.Key? <==> !req.from.Malformed? && !req.to.Malformed?
    ensures k.Key? ==>
              && k.key.symbol == GetOr(req.symbol, "AAPL")
              && k.key.resolution == GetOr(req.resolution, "1D")
              && k.key.from == (if req.from.Digits? then req.from.value else 0)
              && k.key.to == (if req.to.Digits? then req.to.value else Trunc(now))
  {
    match ParseIntArg(req.from, 0)
    case Invalid(msg) => BadParam(msg)
    case Value(from) =>
      match ParseIntArg(req.to, Trunc(now))
      case Invalid(msg) => BadParam(msg)
      case Value(to) => Key(HistoryKey(GetOr(req.symbol, "AAPL"), GetOr(req.resolution, "1D"), from, to))
  }

  /** Requests that resolve to one cache key agree on all four values that
      decide the reply. */
  lemma KeyDeterminesRequest(r1: HistoryRequest, r2: HistoryRequest, now: real)
    requires ParseRequest(r1, now).Key? && ParseRequest(r1, now) == ParseRequest(r2, now)
    ensures GetOr(r1.symbol, "AAPL") == GetOr(r2.symbol, "AAPL")
    ensures GetOr(r1.resolution, "1D") == GetOr(r2.resolution, "1D")
    ensures ParseIntArg(r1.from, 0) == ParseIntArg(r2.from, 0)
    ensures ParseIntArg(r1.to, Trunc(now)) == ParseIntArg(r2.to, Trunc(now))
  {
  }

  // ---------------------------------------------------------------------
  // The cache and one `/history` request

  /** Seconds an entry stays usable. */
  const Ttl: real := 300.0

  /** The two class-level dictionaries `data_cache` and `cache_expiry`. */
  datatype CacheState = CacheState(data: map<HistoryKey, History>, expiry: map<HistoryKey, real>)

  /** `cache_expiry.get(key, 0)`. */
  function ExpiryOf(st: CacheState, key: HistoryKey): real
  {
    if key in st.expiry then st.expiry[key] else 0.0
  }

  /** The hit test `key in data_cache and now < cache_expiry.get(key, 0)`. */
  predicate IsFresh(st: CacheState, key: HistoryKey, now: real)
  {
    key in st.data && now < ExpiryOf(st, key)
  }

  /** Both dictionaries hold the same keys, and every stored reply is a
      success envelope valid for its key's range. */
  predicate CacheInvariant(st: CacheState)
  {
    && st.data.Keys == st.expiry.Keys
    && forall k :: k in st.data ==> ValidFor(st.data[k], k.from, k.to)
  }

  /** The reply, the provider query made (None when none was made) and the
      cache afterwards. */
  datatype Served = Served(response: History, query: Option<PeriodQuery>, cache: CacheState)

  /** One `/history` request against cache `st` at clock reading `now`, with
      `upstream` standing for the provider. */
  function Serve(st: CacheState, req: HistoryRequest, now: real, upstream: PeriodQuery -> Fetch): (s: Served)
    ensures s.query.None? ==> s.cache == st
    ensures s.cache != st ==> s.response.Ok? && s.query.Some?
  {
    match ParseRequest(req, now)
    case BadParam(msg) => Served(Error(msg), None, st)
    case Key(key) =>
      if IsFresh(st, key, now) then Served(st.data[key], None, st)
      else
        var q := UpstreamQuery(key.symbol, key.resolution);
        var r := LiveHistory(upstream(q), key.from, key.to);
        if r.Ok? then Served(r, Some(q), CacheState(st.data[key := r], st.expiry[key := now + Ttl]))
        else Served(r, Some(q), st)
  }

  /** Serving a request keeps the cache invariant. */
  lemma ServeKeepsInvariant(st: CacheState, req: HistoryRequest, now: real, upstream: PeriodQuery -> Fetch)
    requires CacheInvariant(st)
    ensures CacheInvariant(Serve(st, req, now, upstream).cache)
  {
    if ParseRequest(req, now).Key? {
      var key := ParseRequest(req, now).key;
      var fetch := upstream(UpstreamQuery(key.symbol, key.resolution));
      if !IsFresh(st, key, now) && fetch.Rows? && fetch.rows != [] {
        LiveHistoryOk(fetch.rows, key.from, key.to);
      }
    }
  }

  /** Every reply is one of the three shapes, and a success envelope is
      valid for the range the request asked for, whether it came from the
      cache or from the provider. */
  lemma ServeReplyValid(st: CacheState, req: HistoryRequest, now: real, upstream: PeriodQuery -> Fetch)
    requires CacheInvariant(st)
    ensures var s := Serve(st, req, now, upstream);
            s.response.Ok? ==>
              && ParseRequest(req, now).Key?
              && ValidFor(s.response, ParseRequest(req, now).key.from, ParseRequest(req, now).key.to)
  {
    ServeKeepsInvariant(st, req, now, upstream);
    var s := Serve(st, req, now, upstream);
    if s.response.Ok? {
      var key := ParseRequest(req, now).key;
      assert key in s.cache.data && s.cache.data[key] == s.response;
    }
  }

  /** The cache answers exactly when the key is present and not expired; the
      provider is queried exactly on a miss, with the query fixed by symbol
      and resolution. */
  lemma ServeHitOrMiss(st: CacheState, req: HistoryRequest, now: real, upstream: PeriodQuery -> Fetch)
    requires ParseRequest(req, now).Key?
    ensures var key := ParseRequest(req, now).key;
            var s := Serve(st, req, now, upstream);
            && (s.query.None? <==> IsFresh(st, key, now))
            && (IsFresh(st, key, now) ==> s.response == st.data[key] && s.cache == st)
            && (!IsFresh(st, key, now) ==> s.query == Some(UpstreamQuery(key.symbol, key.resolution)))
  {
  }

  /** The cache is written only by a successful fetch, which sets the reply
      and an expiry 300 seconds ahead for its own key and nothing else. */
  lemma ServeWritesOnSuccess(st: CacheState, req: HistoryRequest, now: real, upstream: PeriodQuery -> Fetch)
    ensures var s := Serve(st, req, now, upstream);
            s.cache == st ||
            (&& s.response.Ok? && s.query.Some? && ParseRequest(req, now).Key?
             && var key := ParseRequest(req, now).key;
                s.cache.data == st.data[key := s.response] && s.cache.expiry == st.expiry[key := now + Ttl])
    ensures var s := Serve(st, req, now, upstream);
            !s.response.Ok? ==> s.cache == st
  {
  }

  /** Writing one key leaves the other keys' entries untouched. */
  lemma ServeFramesOtherKeys(st: CacheState, req: HistoryRequest, now: real, upstream: PeriodQuery -> Fetch,
                             other: HistoryKey)
    requires ParseRequest(req, now) != Key(other)
    ensures var s := Serve(st, req, now, upstream);
            && (other in s.cache.data <==> other in st.data)
            && (other in st.data ==> s.cache.data[other] == st.data[other])
            && ExpiryOf(s.cache, other) == ExpiryOf(st, other)
  {
  }

  /** Repeating a request within 300 seconds of a successful fetch returns
      the same reply without querying the provider again. */
  lemma RepeatWithinTtlIsCached(st: CacheState, req: HistoryRequest, t1: real, t2: real,
                                up1: PeriodQuery -> Fetch, up2: PeriodQuery -> Fetch)
    requires ParseRequest(req, t1).Key? && ParseRequest(req, t2) == ParseRequest(req, t1)
    requires Serve(st, req, t1, up1).query.Some? && Serve(st, req, t1, up1).response.Ok?
    requires t1 <= t2 < t1 + Ttl
    ensures var s1 := Serve(st, req, t1, up1);
            var s2 := Serve(s1.cache, req, t2, up2);
            s2.response == s1.response && s2.query.None? && s2.cache == s1.cache
  {
  }

  /** Once an entry's expiry has passed, the same request queries the
      provider again. */
  lemma ExpiredEntryRefetches(st: CacheState, req: HistoryRequest, now: real, upstream: PeriodQuery -> Fetch)
    requires ParseRequest(req, now).Key?
    requires now >= ExpiryOf(st, ParseRequest(req, now).key)
    ensures Serve(st, req, now, upstream).query.Some?
  {
  }

  /** Requests that differ only in their range send the same provider query. */
  lemma QueryIgnoresRange(st1: CacheState, st2: CacheState, r1: HistoryRequest, r2: HistoryRequest,
                          n1: real, n2: real, upstream: PeriodQuery -> Fetch)
    requires r1.symbol == r2.symbol && r1.resolution == r2.resolution
    requires Serve(st1, r1, n1, upstream).query.Some? && Serve(st2, r2, n2, upstream).query.Some?
    ensures Serve(st1, r1, n1, upstream).query == Serve(st2, r2, n2, upstream).query
  {
  }

  /** The handler class; its two dictionaries are class attributes, so one
      object stands for the whole process. */
  class LiveDataServer {
    var dataCache: map<HistoryKey, History>
    var cacheExpiry: map<HistoryKey, real>

    function State(): CacheState
      reads this
    {
      CacheState(dataCache, cacheExpiry)
    }

    ghost predicate Valid()
      reads this
    {
      CacheInvariant(State())
    }

    constructor ()
      ensures Valid() && dataCache == map[] && cacheExpiry == map[]
    {
      dataCache := map[];
      cacheExpiry := map[];
    }

    /** `handle_history`: `now` is the clock reading, `upstream` the provider.
        Returns the reply and the provider query made, if any. */
    method HandleHistory(req: HistoryRequest, now: real, upstream: PeriodQuery -> Fetch)
      returns (response: History, query: Option<PeriodQuery>)
      requires Valid()
      modifies this
      ensures Valid()
      ensures Served(response, query, State()) == Serve(old(State()), req, now, upstream)
    {
      ServeKeepsInvariant(State(), req, now, upstream);
      var symbol := GetOr(req.symbol, "AAPL");
      var resolution := GetOr(req.resolution, "1D");
      var fromArg := ParseIntArg(req.from, 0);
      if fromArg.Invalid? {
        return Error(fromArg.msg), None;
      }
      var toArg := ParseIntArg(req.to, Trunc(now));
      if toArg.Invalid? {
        return Error(toArg.msg), None;
      }
      var from, to := fromArg.n, toArg.n;
      var key := HistoryKey(symbol, resolution, from, to);
      if key in dataCache && now < (if key in cacheExpiry then cacheExpiry[key] else 0.0) {
        return dataCache[key], None;
      }
      var (period, interval) := PeriodAndInterval(resolution);
      query := Some(PeriodQuery(symbol, period, interval));
      var hist := upstream(query.value);
      if hist.Raised? {
        return Error(hist.msg), query;
      }
      if hist.rows == [] {
        return NoData, query;
      }
      var bars := CollectBars(hist.rows, from, to);
      var a := new Bar[|bars|](i requires 0 <= i < |bars| => bars[i]);
      assert a[..] == bars;
      SortInPlace(a);
      response := Columnar(a[..]);
      dataCache := dataCache[key := response];
      cacheExpiry := cacheExpiry[key := now + Ttl];
    }
  }

  // ---------------------------------------------------------------------
  // `/search`

  /** The seven symbols `handle_search` searches. */
  const SearchCatalog: seq<SymbolEntry> := [
    SymbolEntry("AAPL", "Apple Inc.", "Apple Inc.", "NASDAQ", "stock"),
    SymbolEntry("MSFT", "Microsoft Corporation", "Microsoft Corporation", "NASDAQ", "stock"),
    SymbolEntry("GOOGL", "Alphabet Inc.", "Alphabet Inc.", "NASDAQ", "stock"),
    SymbolEntry("AMZN", "Amazon.com Inc.", "Amazon.com Inc.", "NASDAQ", "stock"),
    SymbolEntry("TSLA", "Tesla Inc.", "Tesla Inc.", "NASDAQ", "stock"),
    SymbolEntry("NVDA", "NVIDIA Corporation", "NVIDIA Corporation", "NASDAQ", "stock"),
    SymbolEntry("META", "Meta Platforms Inc.", "Meta Platforms Inc.", "NASDAQ", "stock")
  ]

  /** One search result: the entry with `ticker` set to its symbol. */
  datatype SearchHit = SearchHit(symbol: string, fullName: string, description: string,
                                 exchange: string, ticker: string, kind: string)

  function ToHit(e: SymbolEntry): SearchHit
  {
    SearchHit(e.symbol, e.fullName, e.description, e.exchange, e.symbol, e.kind)
  }

  /** `query in s['symbol'] or query in s['full_name'].upper()`, for an
      already upper-cased query. */
  function MatchesQuery(query: string): SymbolEntry -> bool
  {
    (e: SymbolEntry) => Contains(query, e.symbol) || Contains(query, Upper(e.fullName))
  }

  /** The list `filtered`: the whole catalog for an empty query, otherwise
      the matching entries in catalog order. */
  function Candidates(query: string): seq<SymbolEntry>
  {
    if query == "" then SearchCatalog else Filter(MatchesQuery(query), SearchCatalog)
  }

  /** A search answer, or the `int()` error that escapes the handler (the
      router turns it into HTTP 500). */
  datatype SearchReply = Hits(hits: seq<SearchHit>) | Failed(msg: string)

  /** The reply `handle_search` computes for its `query` and `limit`
      parameters. */
  function SearchReplyFor(query: Option<string>, limit: IntParam): (r: SearchReply)
    ensures r.Failed? <==> limit.Malformed?
    ensures r.Hits? ==> |r.hits| <= |SearchCatalog|
  {
    match ParseIntArg(limit, 10)
    case Invalid(msg) => Failed(msg)
    case Value(n) => Hits(Map(ToHit, PySliceTo(Candidates(Upper(GetOr(query, ""))), n)))
  }

  /** `handle_search`: upper-case the query, read the limit, filter, then
      append one result per entry of `filtered[:limit]`. */
  method HandleSearch(query: Option<string>, limit: IntParam) returns (reply: SearchReply)
    ensures reply == SearchReplyFor(query, limit)
    ensures reply.Failed? <==> limit.Malformed?
  {
    var q := Upper(GetOr(query, ""));
    var n := ParseIntArg(limit, 10);
    if n.Invalid? {
      return Failed(n.msg);
    }
    var results := ToHits(PySliceTo(Candidates(q), n.n));
    return Hits(results);
  }

  /** The result loop of `handle_search` (lines 148-157). */
  method ToHits(page: seq<SymbolEntry>) returns (results: seq<SearchHit>)
    ensures results == Map(ToHit, page)
  {
    results := [];
    for i := 0 to |page|
      invariant results == Map(ToHit, page[..i])
    {
      assert page[..i + 1] == page[..i] + [page[i]];
      MapAppend(ToHit, page[..i], [page[i]]);
      results := results + [ToHit(page[i])];
    }
    assert page[..|page|] == page;
  }

  /** An empty query lists the catalog from the start: the first
      min(limit, 7) entries for a non-negative limit. */
  lemma SearchEmptyQuery(n: int)
    requires 0 <= n
    ensures SearchReplyFor(None, Digits(n)) == SearchReplyFor(Some(""), Digits(n))
    ensures SearchReplyFor(None, Digits(n)) ==
            Hits(Map(ToHit, SearchCatalog[..if n < |SearchCatalog| then n else |SearchCatalog|]))
  {
  }

  /** For a non-empty query every result matches it, results keep catalog
      order, and with a limit of at least 7 every matching entry appears. */
  lemma SearchFindsMatches(query: string, n: int, e: SymbolEntry)
    requires Upper(query) != ""
    ensures var r := SearchReplyFor(Some(query), Digits(n));
            && r.Hits?
            && r.hits == Map(ToHit, PySliceTo(Filter(MatchesQuery(Upper(query)), SearchCatalog), n))
            && (ToHit(e) in r.hits ==> e in SearchCatalog && MatchesQuery(Upper(query))(e))
            && (n >= |SearchCatalog| && e in SearchCatalog && MatchesQuery(Upper(query))(e) ==> ToHit(e) in r.hits)
  {
    HitsOfFilter(MatchesQuery(Upper(query)), SearchCatalog, n, e);
  }

  /** Hits built from a filtered, sliced catalog come from entries that pass
      the filter, and a slice at least as long as the catalog loses none. */
  lemma HitsOfFilter(p: SymbolEntry -> bool, catalog: seq<SymbolEntry>, n: int, e: SymbolEntry)
    ensures ToHit(e) in Map(ToHit, PySliceTo(Filter(p, catalog), n)) ==> e in catalog && p(e)
    ensures n >= |catalog| && e in catalog && p(e) ==> ToHit(e) in Map(ToHit, PySliceTo(Filter(p, catalog), n))
  {
    var filtered := Filter(p, catalog);
    var page := PySliceTo(filtered, n);
    var hits := Map(ToHit, page);
    if ToHit(e) in hits {
      var i :| 0 <= i < |hits| && hits[i] == ToHit(e);
      assert page[i] == filtered[i];
      assert ToHit(page[i]) == ToHit(e);
      assert e in filtered;
    }
    if n >= |catalog| && e in catalog && p(e) {
      assert page == filtered;
      var i :| 0 <= i < |page| && page[i] == e;
      assert hits[i] == ToHit(e);
    }
  }
}
