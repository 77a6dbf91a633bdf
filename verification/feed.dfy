/** What both data-feed servers share: the provider's bar rows, the bar they
    build from each row, the stable sort by time, and the columnar UDF history
    envelope (`s`, `t`, `o`, `h`, `l`, `c`, `v`). */
module Feed {
  import opened Seqs

  datatype Option<T> = None | Some(value: T)

  function GetOr<T>(o: Option<T>, default: T): T
  {
    match o
    case Some(v) => v
    case None => default
  }

  /** Prices are carried through unchanged; the servers' rounding to two
      decimals is not modelled. */
  type Price = int

  /** The `Volume` cell of a provider row: no such column, a missing value
      (pandas NaN), or a count. */
  datatype Volume = NoColumn | NaN | Count(n: int)

  /** One row of the provider's history frame: the index timestamp in whole
      seconds, the prices, the volume, and the weekday of the index
      (Monday = 0 ... Sunday = 6). */
  datatype Row = Row(ts: int, open: Price, high: Price, low: Price, close: Price,
                     volume: Volume, weekday: int)

  /** What the provider call yields: the rows of its frame, or an exception
      with its message. */
  datatype Fetch = Rows(rows: seq<Row>) | Raised(msg: string)

  /** One output bar before it is split into columns. */
  datatype Bar = Bar(time: int, open: Price, high: Price, low: Price, close: Price, volume: int)

  /** The `/history` reply: the columnar success envelope, `{"s": "no_data"}`
      or `{"s": "error", "errmsg": ...}`. */
  datatype History =
    | Ok(t: seq<int>, o: seq<Price>, h: seq<Price>, l: seq<Price>, c: seq<Price>, v: seq<int>)
    | NoData
    | Error(errmsg: string)

  /** An entry of a server's hard-coded symbol catalog. */
  datatype SymbolEntry = SymbolEntry(symbol: string, fullName: string, description: string,
                                     exchange: string, kind: string)

  /** Both servers take the volume when the cell holds a number and 0 when
      the column is missing or the value is NaN. */
  function VolumeOrZero(v: Volume): (n: int)
    ensures v.Count? ==> n == v.n
    ensures !v.Count? ==> n == 0
  {
    match v
    case Count(n) => n
    case _ => 0
  }

  // ---------------------------------------------------------------------
  // Sorting by time (Python's stable `list.sort(key=...)`)

  predicate SortedByTime(s: seq<Bar>)
  {
    forall i, j :: 0 <= i < j < |s| ==> s[i].time <= s[j].time
  }

  /** Inserts `x` behind every trailing element whose time is larger, so it
      lands after all elements with an equal time: the insertion step of a
      stable sort. */
  function Insert(s: seq<Bar>, x: Bar): (r: seq<Bar>)
    ensures |r| == |s| + 1
    decreases |s|
  {
    if s == [] || s[|s| - 1].time <= x.time then s + [x]
    else Insert(s[..|s| - 1], x) + [s[|s| - 1]]
  }

  /** Stable insertion sort by `time`, taking the elements left to right. */
  function SortByTime(s: seq<Bar>): (r: seq<Bar>)
    ensures |r| == |s|
    decreases |s|
  {
    if s == [] then [] else Insert(SortByTime(s[..|s| - 1]), s[|s| - 1])
  }

  lemma {:induction false} InsertKeeps(s: seq<Bar>, x: Bar)
    ensures multiset(Insert(s, x)) == multiset(s) + multiset{x}
    ensures SortedByTime(s) ==> SortedByTime(Insert(s, x))
    ensures |Insert(s, x)| == |s| + 1
    decreases |s|
  {
    if s == [] || s[|s| - 1].time <= x.time {
    } else {
      var init, last := s[..|s| - 1], s[|s| - 1];
      assert s == init + [last];
      InsertKeeps(init, x);
      var r := Insert(init, x);
      assert Insert(s, x) == r + [last];
      if SortedByTime(s) {
        assert SortedByTime(init);
        // every element of `r` is either `x` or from `init`, and neither is later than `last`
        forall y | y in r ensures y.time <= last.time {
          assert y in multiset(r);
          assert y == x || y in init;
        }
        AppendLatest(r, last);
      }
    }
  }

  /** Appending a bar no earlier than every element keeps a sequence sorted. */
  lemma AppendLatest(r: seq<Bar>, last: Bar)
    requires SortedByTime(r)
    requires forall y :: y in r ==> y.time <= last.time
    ensures SortedByTime(r + [last])
  {
    forall i, j | 0 <= i < j < |r + [last]| ensures (r + [last])[i].time <= (r + [last])[j].time {
      if j == |r| {
        assert (r + [last])[i] == r[i] && r[i] in r;
      }
    }
  }

  /** The sort yields a time-ordered permutation of its input. */
  lemma {:induction false} SortByTimeCorrect(s: seq<Bar>)
    ensures SortedByTime(SortByTime(s))
    ensures multiset(SortByTime(s)) == multiset(s)
    ensures |SortByTime(s)| == |s|
    decreases |s|
  {
    if s != [] {
      assert s == s[..|s| - 1] + [s[|s| - 1]];
      SortByTimeCorrect(s[..|s| - 1]);
      InsertKeeps(SortByTime(s[..|s| - 1]), s[|s| - 1]);
    }
  }

  /** Sorting a sequence that is already in time order changes nothing, so
      bars with equal times keep their relative order. */
  lemma {:induction false} SortByTimeOfSorted(s: seq<Bar>)
    requires SortedByTime(s)
    ensures SortByTime(s) == s
    decreases |s|
  {
    if s != [] {
      assert s == s[..|s| - 1] + [s[|s| - 1]];
      SortByTimeOfSorted(s[..|s| - 1]);
    }
  }

  /** The test "this bar has time `t`". */
  function AtTime(t: int): Bar -> bool
  {
    (b: Bar) => b.time == t
  }

  /** Inserting `x` leaves the bars of any one time in their order, with `x`
      after those already present. */
  lemma {:induction false} InsertAtTime(t: int, s: seq<Bar>, x: Bar)
    ensures Filter(AtTime(t), Insert(s, x)) == Filter(AtTime(t), s) + Filter(AtTime(t), [x])
    decreases |s|
  {
    var p := AtTime(t);
    if s == [] || s[|s| - 1].time <= x.time {
      FilterAppend(p, s, [x]);
    } else {
      var init, last := s[..|s| - 1], s[|s| - 1];
      assert s == init + [last];
      var ins := Insert(init, x);
      assert Insert(s, x) == ins + [last];
      var fi, fx, fl := Filter(p, init), Filter(p, [x]), Filter(p, [last]);
      InsertAtTime(t, init, x);
      FilterAppend(p, ins, [last]);
      FilterAppend(p, init, [last]);
      // `last` is later than `x`, so at most one of them has time `t`
      SingletonFilter(p, x);
      SingletonFilter(p, last);
      assert Filter(p, Insert(s, x)) == (fi + fx) + fl;
      assert Filter(p, s) == fi + fl;
      SwapEmpty(fi, fx, fl);
    }
  }

  /** Two pieces of which one is empty can be appended in either order. */
  lemma SwapEmpty<T>(a: seq<T>, b: seq<T>, c: seq<T>)
    requires b == [] || c == []
    ensures (a + b) + c == (a + c) + b
  {
  }

  lemma SingletonFilter<T(!new)>(p: T -> bool, x: T)
    ensures Filter(p, [x]) == if p(x) then [x] else []
  {
    assert [x][..0] == [];
  }

  /** The sort is stable: for every time `t`, the bars with that time appear
      in the output in the order they had in the input. */
  lemma {:induction false} SortByTimeStable(t: int, s: seq<Bar>)
    ensures Filter(AtTime(t), SortByTime(s)) == Filter(AtTime(t), s)
    decreases |s|
  {
    if s != [] {
      var init, last := s[..|s| - 1], s[|s| - 1];
      assert s == init + [last];
      SortByTimeStable(t, init);
      InsertAtTime(t, SortByTime(init), last);
      FilterAppend(AtTime(t), init, [last]);
    }
  }

  /** Python's in-place `bars.sort(key=lambda b: b.time)`, as an insertion
      sort on the array that holds the list. */
  method SortInPlace(a: array<Bar>)
    modifies a
    ensures a[..] == SortByTime(old(a[..]))
  {
    ghost var input := a[..];
    var i := 0;
    while i < a.Length
      invariant 0 <= i <= a.Length
      invariant a[..i] == SortByTime(input[..i])
      invariant a[i..] == input[i..]
    {
      ghost var before := a[..];
      assert before[..i] == SortByTime(input[..i]) && before[i] == input[i];
      assert before[i + 1..] == input[i + 1..] by {
        assert before[i + 1..] == a[i..][1..] && input[i + 1..] == input[i..][1..];
      }
      InsertInPlace(a, i);
      assert input[..i + 1][..i] == input[..i];
      assert SortByTime(input[..i + 1]) == Insert(SortByTime(input[..i]), input[i]);
      i := i + 1;
    }
    assert input[..a.Length] == input;
  }

  /** One step of the insertion sort: `a[i]` is inserted into the sorted
      prefix `a[..i]` by shifting larger elements one place right. */
  method InsertInPlace(a: array<Bar>, i: nat)
    requires i < a.Length
    modifies a
    ensures a[..i + 1] == Insert(old(a[..i]), old(a[i]))
    ensures a[i + 1..] == old(a[i + 1..])
  {
    var x := a[i];
    ghost var done := a[..i];
    var j := i;
    while j > 0 && a[j - 1].time > x.time
      invariant 0 <= j <= i
      invariant forall k :: 0 <= k < j ==> a[k] == done[k]
      invariant forall k :: j < k <= i ==> a[k] == done[k - 1]
      invariant forall k :: i < k < a.Length ==> a[k] == old(a[k])
      invariant forall k :: j <= k < i ==> done[k].time > x.time
    {
      a[j] := a[j - 1];
      j := j - 1;
    }
    a[j] := x;
    InsertPlaced(done, a[..i + 1], j, x);
  }

  /** The array prefix left by the shifting loop, with `x` dropped into the
      gap at `j`, is the insertion of `x` into the sorted prefix. */
  lemma InsertPlaced(done: seq<Bar>, after: seq<Bar>, j: nat, x: Bar)
    requires j <= |done| && |after| == |done| + 1
    requires forall k :: 0 <= k < j ==> after[k] == done[k]
    requires after[j] == x
    requires forall k :: j < k <= |done| ==> after[k] == done[k - 1]
    requires j == 0 || done[j - 1].time <= x.time
    requires forall k :: j <= k < |done| ==> done[k].time > x.time
    ensures after == Insert(done, x)
  {
    InsertAt(done, j, x);
    assert after == done[..j] + [x] + done[j..];
  }

  /** `Insert` puts `x` right after the last element not later than it, when
      everything from `j` on is later. */
  lemma {:induction false} InsertAt(done: seq<Bar>, j: nat, x: Bar)
    requires j <= |done|
    requires j == 0 || done[j - 1].time <= x.time
    requires forall k :: j <= k < |done| ==> done[k].time > x.time
    ensures Insert(done, x) == done[..j] + [x] + done[j..]
    decreases |done|
  {
    if j < |done| {
      var init := done[..|done| - 1];
      InsertAt(init, j, x);
      assert init[..j] == done[..j];
      assert done[j..] == init[j..] + [done[|done| - 1]];
    }
  }

  // ---------------------------------------------------------------------
  // The columnar envelope

  /** The six columns of a success envelope have one entry per bar. */
  predicate WellShaped(r: History)
  {
    r.Ok? && |r.o| == |r.t| && |r.h| == |r.t| && |r.l| == |r.t| && |r.c| == |r.t| && |r.v| == |r.t|
  }

  /** Reassembles the bars from a well-shaped envelope, row by row. */
  function Zip(r: History): seq<Bar>
    requires WellShaped(r)
  {
    seq(|r.t|, i requires 0 <= i < |r.t| => Bar(r.t[i], r.o[i], r.h[i], r.l[i], r.c[i], r.v[i]))
  }

  /** `{"s": "ok", "t": [...], "o": [...], ...}`: one column per field, all
      of them index-aligned with the bars. */
  function Columnar(bars: seq<Bar>): (r: History)
    ensures WellShaped(r) && |r.t| == |bars|
    ensures Zip(r) == bars
  {
    Ok(Map((b: Bar) => b.time, bars), Map((b: Bar) => b.open, bars), Map((b: Bar) => b.high, bars),
       Map((b: Bar) => b.low, bars), Map((b: Bar) => b.close, bars), Map((b: Bar) => b.volume, bars))
  }
}
