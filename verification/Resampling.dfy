/**
 Resampling of equity curves to fixed time buckets: the bucket-by-bucket specification and
 the two-curve resampler of the equity comparator.
 */
module Resampling {
  import opened Common

  type Point = (int, real)

  datatype Row = Row(ts: int, live: Option<real>, backtest: Option<real>)

  predicate Sorted(c: seq<Point>) {
    forall i, j :: 0 <= i < j < |c| ==> c[i].0 <= c[j].0
  }

  /** Value of the last point of the curve whose time falls in the half-open bucket. */
  ghost function LastIn(c: seq<Point>, lo: int, hi: int): Option<real> {
    if c == [] then None
    else
      var last := c[|c| - 1];
      if lo <= last.0 < hi then Some(last.1) else LastIn(c[..|c| - 1], lo, hi)
  }

  ghost function Bucket(live: seq<Point>, bt: seq<Point>, start: int, interval: int): Row {
    Row(start, LastIn(live, start, start + interval), LastIn(bt, start, start + interval))
  }

  /** One row per bucket from `start` to `end`, buckets with no point on either curve dropped. */
  ghost function Buckets(live: seq<Point>, bt: seq<Point>, start: int, end: int, interval: int): seq<Row>
    requires interval > 0
    decreases end - start
  {
    if start > end then []
    else
      var row := Bucket(live, bt, start, interval);
      (if row.live.Some? || row.backtest.Some? then [row] else []) + Buckets(live, bt, start + interval, end, interval)
  }

  // ---------- what the specification says ----------

  lemma {:induction false} LastInHits(c: seq<Point>, k: nat, lo: int, hi: int)
    requires k < |c| && lo <= c[k].0 < hi
    ensures LastIn(c, lo, hi).Some?
  {
    if k < |c| - 1 && !(lo <= c[|c| - 1].0 < hi) {
      LastInHits(c[..|c| - 1], k, lo, hi);
    }
  }

  /** A bucket's value is that of its last point, and it has none exactly when no point is in it. */
  lemma {:induction false} LastInIsLast(c: seq<Point>, lo: int, hi: int)
    ensures LastIn(c, lo, hi) == None <==> forall k :: 0 <= k < |c| ==> !(lo <= c[k].0 < hi)
    ensures forall k | 0 <= k < |c| && lo <= c[k].0 < hi && (forall j :: k < j < |c| ==> !(lo <= c[j].0 < hi)) ::
      LastIn(c, lo, hi) == Some(c[k].1)
  {
    if c != [] {
      var n := |c| - 1;
      LastInIsLast(c[..n], lo, hi);
      assert forall k :: 0 <= k < n ==> c[..n][k] == c[k];
    }
  }

  /** Every point of either curve between `start` and `end` is inside a reported bucket that
      carries a value for that curve. */
  lemma {:induction false} EveryPointIsReported(live: seq<Point>, bt: seq<Point>, start: int, end: int, interval: int,
                                                k: nat)
    requires interval > 0
    ensures k < |live| && start <= live[k].0 <= end ==>
      exists row <- Buckets(live, bt, start, end, interval) :: row.ts <= live[k].0 < row.ts + interval && row.live.Some?
    ensures k < |bt| && start <= bt[k].0 <= end ==>
      exists row <- Buckets(live, bt, start, end, interval) ::
        row.ts <= bt[k].0 < row.ts + interval && row.backtest.Some?
    decreases end - start
  {
    if start <= end {
      var row := Bucket(live, bt, start, interval);
      var rest := Buckets(live, bt, start + interval, end, interval);
      var rows := Buckets(live, bt, start, end, interval);
      assert rows == (if row.live.Some? || row.backtest.Some? then [row] else []) + rest;
      assert forall r <- rest :: r in rows;
      EveryPointIsReported(live, bt, start + interval, end, interval, k);
      if k < |live| && start <= live[k].0 < start + interval {
        LastInHits(live, k, start, start + interval);
        assert row in rows;
      }
      if k < |bt| && start <= bt[k].0 < start + interval {
        LastInHits(bt, k, start, start + interval);
        assert row in rows;
      }
    }
  }

  /** Rows lie in the range, each holds at least one value, and they are at least one interval apart. */
  lemma {:induction false} RowsAscend(live: seq<Point>, bt: seq<Point>, start: int, end: int, interval: int)
    requires interval > 0
    ensures var rows := Buckets(live, bt, start, end, interval);
      && (forall r <- rows :: start <= r.ts <= end && (r.live.Some? || r.backtest.Some?))
      && (forall i, j :: 0 <= i < j < |rows| ==> rows[i].ts + interval <= rows[j].ts)
    decreases end - start
  {
    if start <= end {
      RowsAscend(live, bt, start + interval, end, interval);
    }
  }

  // ---------- scanning a sorted curve ----------

  /** The scan position: everything before it is older than `t`, everything from it on is not. */
  ghost predicate Splits(c: seq<Point>, idx: int, t: int) {
    && 0 <= idx <= |c|
    && (forall k :: 0 <= k < idx ==> c[k].0 < t)
    && (forall k :: idx <= k < |c| ==> c[k].0 >= t)
  }

  lemma {:induction false} LastInOfOlder(c: seq<Point>, lo: int, hi: int)
    requires forall k :: 0 <= k < |c| ==> c[k].0 < lo
    ensures LastIn(c, lo, hi) == None
  {
    if c != [] { LastInOfOlder(c[..|c| - 1], lo, hi); }
  }

  lemma {:induction false} LastInOfPrefix(c: seq<Point>, n: nat, lo: int, hi: int)
    requires n <= |c| && forall k :: n <= k < |c| ==> c[k].0 >= hi
    ensures LastIn(c, lo, hi) == LastIn(c[..n], lo, hi)
  {
    if n < |c| {
      LastInOfPrefix(c[..|c| - 1], n, lo, hi);
      assert c[..|c| - 1][..n] == c[..n];
    } else {
      assert c[..n] == c;
    }
  }

  /** The inner scan: the last value before `hi`, starting where the previous bucket ended. */
  method ScanBucket(c: seq<Point>, from: int, lo: int, hi: int) returns (val: Option<real>, idx: int)
    requires Sorted(c) && Splits(c, from, lo) && lo <= hi
    ensures Splits(c, idx, hi)
    ensures val == LastIn(c, lo, hi)
  {
    val, idx := None, from;
    LastInOfOlder(c[..from], lo, hi);
    while idx < |c| && c[idx].0 < hi
      invariant from <= idx <= |c|
      invariant forall k :: 0 <= k < idx ==> c[k].0 < hi
      invariant val == LastIn(c[..idx], lo, hi)
    {
      assert c[..idx + 1][..idx] == c[..idx];
      val := Some(c[idx].1);
      idx := idx + 1;
    }
    LastInOfPrefix(c, idx, lo, hi);
  }

  // ---------- the comparator ----------

  function MinTs(ts: seq<int>): (m: int)
    requires ts != []
    ensures m in ts && forall k :: 0 <= k < |ts| ==> m <= ts[k]
  {
    if |ts| == 1 then ts[0]
    else
      var m := MinTs(ts[1..]);
      assert forall k :: 0 < k < |ts| ==> ts[k] == ts[1..][k - 1];
      if ts[0] <= m then ts[0] else m
  }

  function MaxTs(ts: seq<int>): (m: int)
    requires ts != []
    ensures m in ts && forall k :: 0 <= k < |ts| ==> ts[k] <= m
  {
    if |ts| == 1 then ts[0]
    else
      var m := MaxTs(ts[1..]);
      assert forall k :: 0 < k < |ts| ==> ts[k] == ts[1..][k - 1];
      if ts[0] >= m then ts[0] else m
  }

  function Times(c: seq<Point>): (ts: seq<int>)
    ensures |ts| == |c| && forall k :: 0 <= k < |c| ==> ts[k] == c[k].0
  {
    seq(|c|, i requires 0 <= i < |c| => c[i].0)
  }

  predicate InRange(c: seq<Point>, lo: int, hi: int) {
    forall k :: 0 <= k < |c| ==> lo <= c[k].0 <= hi
  }

  method Resample(live: seq<Point>, bt: seq<Point>, interval: int) returns (rows: seq<Row>)
    requires Sorted(live) && Sorted(bt) && interval > 0
    ensures live == [] && bt == [] ==> rows == []
    ensures live != [] || bt != [] ==>
      var ts := Times(live) + Times(bt);
      rows == Buckets(live, bt, MinTs(ts), MaxTs(ts), interval)
  {
    hide MinTs, MaxTs, Buckets;
    if live == [] && bt == [] {
      return [];
    }
    var allTs := Times(live) + Times(bt);
    var start, end := MinTs(allTs), MaxTs(allTs);
    assert forall k :: 0 <= k < |live| ==> live[k].0 == allTs[k];
    assert forall k :: 0 <= k < |bt| ==> bt[k].0 == allTs[|live| + k];
    rows := ResampleRange(live, bt, start, end, interval);
  }

  /** The bucket loop. Both scans end past the last point, whatever the interval. */
  method ResampleRange(live: seq<Point>, bt: seq<Point>, start: int, end: int, interval: int) returns (rows: seq<Row>)
    requires Sorted(live) && Sorted(bt) && interval > 0
    requires InRange(live, start, end) && InRange(bt, start, end)
    ensures rows == Buckets(live, bt, start, end, interval)
  {
    rows := [];
    var bucketStart, liveIdx, btIdx := start, 0, 0;
    while bucketStart <= end
      invariant Splits(live, liveIdx, bucketStart) && Splits(bt, btIdx, bucketStart)
      invariant rows + Buckets(live, bt, bucketStart, end, interval) == Buckets(live, bt, start, end, interval)
    {
      var bucketEnd := bucketStart + interval;
      var liveVal, btVal;
      liveVal, liveIdx := ScanBucket(live, liveIdx, bucketStart, bucketEnd);
      btVal, btIdx := ScanBucket(bt, btIdx, bucketStart, bucketEnd);
      if liveVal.Some? || btVal.Some? {
        rows := rows + [Row(bucketStart, liveVal, btVal)];
      }
      bucketStart := bucketEnd;
    }
    assert liveIdx == |live| && btIdx == |bt|;
  }
}
