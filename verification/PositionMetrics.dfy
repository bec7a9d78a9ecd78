/**
 Pairing of live and backtest position snapshots: the greedy two-pointer of the
 position comparator, its optimality, and the counters folded from its rows.
 */
module PositionMetrics {
  import opened Common
  import opened Pairing

  datatype Snapshot = Snapshot(
    side: Side,
    ts: int,
    size: real,
    entryPrice: real,
    markPrice: Option<real>,
    positionIm: Option<real>,
    positionMm: Option<real>,
    liqPrice: Option<real>,
    cumRealised: Option<real>
  )

  datatype Pair = Pair(
    side: Side,
    live: Option<Snapshot>,
    backtest: Snapshot,
    unrealisedDelta: Option<real>,
    cumRealisedDelta: Option<real>,
    missingTelemetry: bool,
    stateDiverged: bool
  )

  datatype Counts = Counts(compared: nat, unmatched: nat, diverged: nat, missing: nat)

  // ---------- one row ----------

  function SafeSub(a: Option<real>, b: Option<real>): Option<real> {
    if a.None? || b.None? then None else Some(a.value - b.value)
  }

  function BuildPair(live: Snapshot, bt: Snapshot): Pair {
    var direction := if live.side == Buy then Long else Short;
    var im := SafeSub(bt.positionIm, live.positionIm);
    var mm := SafeSub(bt.positionMm, live.positionMm);
    var liq := SafeSub(bt.liqPrice, live.liqPrice);
    var cum := SafeSub(bt.cumRealised, live.cumRealised);
    var unrealised :=
      if live.markPrice.None? then None
      else Some(UnrealisedPnl(direction, bt.entryPrice, live.markPrice.value, bt.size)
                - UnrealisedPnl(direction, live.entryPrice, live.markPrice.value, live.size));
    Pair(live.side, Some(live), bt, unrealised, cum,
         live.markPrice.None? || im.None? || mm.None? || liq.None? || cum.None?, false)
  }

  function UnmatchedMarker(bt: Snapshot): Pair {
    Pair(bt.side, None, bt, None, None, true, false)
  }

  // ---------- the comparator ----------

  function OnSide(rows: seq<Snapshot>, side: Side): seq<Snapshot> {
    Filter(rows, (r: Snapshot) => r.side == side)
  }

  ghost function Times(rows: seq<Snapshot>): (t: seq<int>)
    ensures |t| == |rows|
  {
    seq(|rows|, i requires 0 <= i < |rows| => rows[i].ts)
  }

  predicate IsMatched(p: Pair) { p.live.Some? }

  predicate IsUnmatched(p: Pair) { p.live.None? }

  predicate Diverged(p: Pair) { p.stateDiverged }

  predicate Agreeing(p: Pair) { !p.stateDiverged }

  predicate IsComparable(p: Pair) { IsMatched(p) && Agreeing(p) }

  /** Pairs whose two sides hold the same position: the ones the delta aggregates use. */
  function Comparable(pairs: seq<Pair>): seq<Pair> {
    Filter(pairs, IsComparable)
  }

  /** The last recorded delta on one side, zero when there is none. */
  ghost function FinalDelta(pairs: seq<Pair>, side: Side): real {
    if pairs == [] then 0.0
    else
      var last := pairs[|pairs| - 1];
      if last.side == side && last.cumRealisedDelta.Some? then last.cumRealisedDelta.value
      else FinalDelta(pairs[..|pairs| - 1], side)
  }

  /** It is the last delta that counts, and zero stands for none. */
  lemma {:induction false} FinalDeltaIsLast(pairs: seq<Pair>, side: Side)
    ensures (forall p <- pairs :: p.side == side ==> p.cumRealisedDelta.None?) ==> FinalDelta(pairs, side) == 0.0
    ensures forall i | 0 <= i < |pairs| && pairs[i].side == side && pairs[i].cumRealisedDelta.Some?
        && (forall j :: i < j < |pairs| && pairs[j].side == side ==> pairs[j].cumRealisedDelta.None?) ::
      FinalDelta(pairs, side) == pairs[i].cumRealisedDelta.value
  {
    if pairs != [] { FinalDeltaIsLast(pairs[..|pairs| - 1], side); }
  }

  class ValidationMetrics {
    var counts: Counts
    var cumRealisedFinalDelta: real

    constructor ()
      ensures counts == Counts(0, 0, 0, 0) && cumRealisedFinalDelta == 0.0
    {
      counts, cumRealisedFinalDelta := Counts(0, 0, 0, 0), 0.0;
    }
  }

  class PositionComparator {
    const tolerance: int
    const sizeTolerance: real
    const entryRelTolerance: real

    constructor (tolerance: int, sizeTolerance: real, entryRelTolerance: real)
      ensures this.tolerance == tolerance
      ensures this.sizeTolerance == sizeTolerance && this.entryRelTolerance == entryRelTolerance
    {
      this.tolerance := tolerance;
      this.sizeTolerance := sizeTolerance;
      this.entryRelTolerance := entryRelTolerance;
    }

    predicate StateDiverged(live: Snapshot, bt: Snapshot) {
      if live.size == 0.0 && bt.size == 0.0 then false
      else if Abs(live.size - bt.size) > sizeTolerance then true
      else live.entryPrice > 0.0 && Abs(live.entryPrice - bt.entryPrice) / live.entryPrice > entryRelTolerance
    }

    /** The row owed to a backtest snapshot that claimed live row `claim`. */
    ghost predicate RowFor(row: Pair, live: seq<Snapshot>, bt: Snapshot, claim: int) {
      if claim < 0 then row == UnmatchedMarker(bt)
      else claim < |live| && row == BuildPair(live[claim], bt).(stateDiverged := StateDiverged(live[claim], bt))
    }

    ghost predicate RowsFor(rows: seq<Pair>, live: seq<Snapshot>, bt: seq<Snapshot>, claims: seq<int>) {
      && |rows| == |claims| <= |bt|
      && forall k :: 0 <= k < |rows| ==> RowFor(rows[k], live, bt[k], claims[k])
    }

    ghost function SideClaims(live: seq<Snapshot>, bt: seq<Snapshot>): (c: seq<int>)
      ensures |c| == |bt|
    {
      Claims(Times(live), Times(bt), tolerance, 0, 0)
    }

    /** What a row says: it carries the backtest snapshot, differences are backtest less live, and it is
        flagged when the two hold different positions. */
    lemma RowSays(row: Pair, live: seq<Snapshot>, bt: Snapshot, claim: int)
      requires RowFor(row, live, bt, claim)
      ensures row.backtest == bt
      ensures row.live.None? <==> claim < 0
      ensures row.live.None? ==> row.side == bt.side && row.missingTelemetry && !row.stateDiverged
      ensures row.live.Some? ==> claim < |live| && row.live.value == live[claim] && row.side == live[claim].side
      ensures row.live.Some? && row.live.value.cumRealised.Some? && bt.cumRealised.Some? ==>
        row.cumRealisedDelta == Some(bt.cumRealised.value - row.live.value.cumRealised.value)
      ensures row.cumRealisedDelta.Some? ==> row.live.Some? && row.live.value.cumRealised.Some? && bt.cumRealised.Some?
      ensures row.live.Some? && row.live.value.markPrice.Some? ==>
        var l, mark := row.live.value, row.live.value.markPrice.value;
        && row.unrealisedDelta.Some?
        && row.unrealisedDelta.value
           == if l.side == Buy then (mark - bt.entryPrice) * bt.size - (mark - l.entryPrice) * l.size
              else (bt.entryPrice - mark) * bt.size - (l.entryPrice - mark) * l.size
      ensures row.unrealisedDelta.Some? ==> row.live.Some? && row.live.value.markPrice.Some?
      ensures row.live.Some? ==>
        var l := row.live.value;
        && (row.stateDiverged <==>
              && !(l.size == 0.0 && bt.size == 0.0)
              && (|| l.size - bt.size > sizeTolerance || bt.size - l.size > sizeTolerance
                  || (l.entryPrice > 0.0 && Abs(l.entryPrice - bt.entryPrice) / l.entryPrice > entryRelTolerance)))
        && (row.missingTelemetry <==>
              || l.markPrice.None? || l.positionIm.None? || bt.positionIm.None? || l.positionMm.None?
              || bt.positionMm.None? || l.liqPrice.None? || bt.liqPrice.None? || l.cumRealised.None?
              || bt.cumRealised.None?)
    {
    }

    lemma RowsSay(out: seq<Pair>, live: seq<Snapshot>, bt: seq<Snapshot>)
      requires RowsFor(out, live, bt, SideClaims(live, bt))
      ensures |out| == |bt| && forall k :: 0 <= k < |out| ==>
        && out[k].backtest == bt[k]
        && (out[k].live.Some? ==>
              && out[k].live.value in live
              && out[k].live.value.ts - tolerance <= bt[k].ts <= out[k].live.value.ts + tolerance
              && (out[k].live.value.cumRealised.Some? && bt[k].cumRealised.Some? ==>
                    out[k].cumRealisedDelta == Some(bt[k].cumRealised.value - out[k].live.value.cumRealised.value))
              && (out[k].live.value.size == 0.0 == bt[k].size ==> !out[k].stateDiverged)
              && (Abs(out[k].live.value.size - bt[k].size) > sizeTolerance
                  && (out[k].live.value.size != 0.0 || bt[k].size != 0.0)
                  ==> out[k].stateDiverged)
              && (out[k].stateDiverged ==>
                    || Abs(out[k].live.value.size - bt[k].size) > sizeTolerance
                    || (out[k].live.value.entryPrice > 0.0
                        && Abs(out[k].live.value.entryPrice - bt[k].entryPrice) / out[k].live.value.entryPrice
                           > entryRelTolerance)))
    {
      hide SideClaims;
      ghost var c := SideClaims(live, bt);
      ClaimsAreNear(live, bt);
      forall k | 0 <= k < |out| ensures RowFor(out[k], live, bt[k], c[k]) { RowSays(out[k], live, bt[k], c[k]); }
    }

    lemma ClaimsAreNear(live: seq<Snapshot>, bt: seq<Snapshot>)
      ensures var c := SideClaims(live, bt);
        forall k :: 0 <= k < |c| && c[k] >= 0 ==>
          c[k] < |live| && live[c[k]].ts - tolerance <= bt[k].ts <= live[c[k]].ts + tolerance
    {
      ClaimsAreClose(Times(live), Times(bt), tolerance, 0, 0);
      assert Times(bt)[0..] == Times(bt);
    }

    method PairSide(live: seq<Snapshot>, bt: seq<Snapshot>) returns (out: seq<Pair>)
      ensures RowsFor(out, live, bt, SideClaims(live, bt))
      ensures |out| == |bt| && forall k :: 0 <= k < |out| ==>
        && out[k].backtest == bt[k]
        && (out[k].live.Some? ==>
              && out[k].live.value in live
              && out[k].live.value.ts - tolerance <= bt[k].ts <= out[k].live.value.ts + tolerance
              && (out[k].live.value.cumRealised.Some? && bt[k].cumRealised.Some? ==>
                    out[k].cumRealisedDelta == Some(bt[k].cumRealised.value - out[k].live.value.cumRealised.value))
              && (out[k].live.value.size == 0.0 == bt[k].size ==> !out[k].stateDiverged)
              && (Abs(out[k].live.value.size - bt[k].size) > sizeTolerance
                  && (out[k].live.value.size != 0.0 || bt[k].size != 0.0)
                  ==> out[k].stateDiverged)
              && (out[k].stateDiverged ==>
                    || Abs(out[k].live.value.size - bt[k].size) > sizeTolerance
                    || (out[k].live.value.entryPrice > 0.0
                        && Abs(out[k].live.value.entryPrice - bt[k].entryPrice) / out[k].live.value.entryPrice
                           > entryRelTolerance)))
    {
      hide StateDiverged, SafeSub;
      ghost var lt, bts := Times(live), Times(bt);
      ghost var c := SideClaims(live, bt);
      out := [];
      var liveIdx := 0;
      for j := 0 to |bt|
        invariant 0 <= liveIdx <= |live|
        invariant c[j..] == Claims(lt, bts, tolerance, liveIdx, j)
        invariant RowsFor(out, live, bt, c[..j])
      {
        while liveIdx < |live| && live[liveIdx].ts < bt[j].ts - tolerance
          invariant 0 <= liveIdx <= |live|
          invariant c[j..] == Claims(lt, bts, tolerance, liveIdx, j)
        {
          liveIdx := liveIdx + 1;
        }
        assert c[j..][0] == c[j] && c[j..][1..] == c[j + 1..];
        if liveIdx >= |live| || live[liveIdx].ts > bt[j].ts + tolerance {
          out := out + [UnmatchedMarker(bt[j])];
        } else {
          var pair := BuildPair(live[liveIdx], bt[j]);
          if StateDiverged(live[liveIdx], bt[j]) {
            pair := pair.(stateDiverged := true);
          }
          out := out + [pair];
          liveIdx := liveIdx + 1;
        }
      }
      assert c[..|bt|] == c;
      RowsSay(out, live, bt);
    }

    lemma RowsKeepSide(rows: seq<Pair>, live: seq<Snapshot>, bt: seq<Snapshot>, side: Side)
      requires RowsFor(rows, OnSide(live, side), OnSide(bt, side), SideClaims(OnSide(live, side), OnSide(bt, side)))
      ensures forall p <- rows :: p.backtest.side == p.side == side
    {
      var l, b := OnSide(live, side), OnSide(bt, side);
      var c := SideClaims(l, b);
      forall k | 0 <= k < |rows| ensures rows[k].backtest.side == rows[k].side == side {
        assert RowFor(rows[k], l, b[k], c[k]) && b[k] in b && b[k].side == side;
        if c[k] >= 0 { assert l[c[k]] in l && l[c[k]].side == side; }
      }
    }

    method PairAndCompare(live: seq<Snapshot>, bt: seq<Snapshot>)
      returns (pairs: seq<Pair>, ghost buys: seq<Pair>, ghost sells: seq<Pair>)
      ensures pairs == buys + sells && |pairs| == |bt|
      ensures RowsFor(buys, OnSide(live, Buy), OnSide(bt, Buy), SideClaims(OnSide(live, Buy), OnSide(bt, Buy)))
      ensures RowsFor(sells, OnSide(live, Sell), OnSide(bt, Sell), SideClaims(OnSide(live, Sell), OnSide(bt, Sell)))
      ensures forall p <- buys :: p.backtest.side == p.side == Buy
      ensures forall p <- sells :: p.backtest.side == p.side == Sell
    {
      var b := PairSide(OnSide(live, Buy), OnSide(bt, Buy));
      var s := PairSide(OnSide(live, Sell), OnSide(bt, Sell));
      buys, sells := b, s;
      pairs := b + s;
      SidesPartition(bt);
      RowsKeepSide(b, live, bt, Buy);
      RowsKeepSide(s, live, bt, Sell);
    }

    /** The loop that keeps the last delta seen on each side, and the sum it reports. */
    method SumFinalDeltas(matched: seq<Pair>) returns (total: real)
      ensures total == FinalDelta(matched, Buy) + FinalDelta(matched, Sell)
    {
      var perSideFinal: map<Side, real> := map[];
      for k := 0 to |matched|
        invariant forall side ::
          (if side in perSideFinal then perSideFinal[side] else 0.0) == FinalDelta(matched[..k], side)
      {
        assert matched[..k + 1][..k] == matched[..k];
        if matched[k].cumRealisedDelta.Some? {
          perSideFinal := perSideFinal[matched[k].side := matched[k].cumRealisedDelta.value];
        }
      }
      assert matched[..|matched|] == matched;
      total := (if Buy in perSideFinal then perSideFinal[Buy] else 0.0)
        + (if Sell in perSideFinal then perSideFinal[Sell] else 0.0);
    }

    method FoldMetricsInto(metrics: ValidationMetrics, pairs: seq<Pair>)
      modifies metrics
      ensures metrics.counts.compared == |Comparable(pairs)|
      ensures metrics.counts.compared + metrics.counts.diverged == |Filter(pairs, IsMatched)|
      ensures metrics.counts.compared + metrics.counts.diverged + metrics.counts.unmatched == |pairs|
      ensures metrics.counts.compared == |Filter(pairs, (p: Pair) => p.live.Some? && !p.stateDiverged)|
      ensures metrics.counts.diverged == |Filter(pairs, (p: Pair) => p.live.Some? && p.stateDiverged)|
      ensures metrics.counts.unmatched == |Filter(pairs, (p: Pair) => p.live.None?)|
      ensures metrics.counts.missing == |Filter(Comparable(pairs), (p: Pair) => p.missingTelemetry)|
      ensures metrics.cumRealisedFinalDelta == FinalDelta(Comparable(pairs), Buy) + FinalDelta(Comparable(pairs), Sell)
    {
      var allMatched := Filter(pairs, IsMatched);
      var unmatched := Filter(pairs, IsUnmatched);
      var diverged := Filter(allMatched, Diverged);
      var matched := Filter(allMatched, Agreeing);
      FilterSplits(pairs, IsMatched, IsUnmatched);
      FilterSplits(allMatched, Diverged, Agreeing);
      FilterTwice(pairs, IsMatched, Agreeing, IsComparable);
      FilterTwice(pairs, IsMatched, Agreeing, (p: Pair) => p.live.Some? && !p.stateDiverged);
      FilterTwice(pairs, IsMatched, Diverged, (p: Pair) => p.live.Some? && p.stateDiverged);
      FilterSame(pairs, IsUnmatched, (p: Pair) => p.live.None?);
      metrics.counts := Counts(|matched|, |unmatched|, |diverged|, |Filter(matched, (p: Pair) => p.missingTelemetry)|);
      metrics.cumRealisedFinalDelta := SumFinalDeltas(matched);
    }
  }

  lemma SidesPartition(rows: seq<Snapshot>)
    ensures |OnSide(rows, Buy)| + |OnSide(rows, Sell)| == |rows|
  {
    FilterSplits(rows, (r: Snapshot) => r.side == Buy, (r: Snapshot) => r.side == Sell);
  }

  /** Time-sorted snapshots: the number of matched rows on a side is the size of a greatest
      one-to-one pairing within the tolerance, and rows claim live snapshots in order. */
  lemma MatchedRowsAreAMaximumPairing(c: PositionComparator, live: seq<Snapshot>, bt: seq<Snapshot>, rows: seq<Pair>,
                                      m: set<(nat, nat)>)
    requires Sorted(Times(live)) && Sorted(Times(bt))
    requires c.RowsFor(rows, live, bt, c.SideClaims(live, bt))
    requires IsMatching(m, Times(live), Times(bt), c.tolerance, 0, 0)
    ensures |rows| == |bt|
    ensures |m| <= |Filter(rows, IsMatched)|
    ensures exists best ::
      IsMatching(best, Times(live), Times(bt), c.tolerance, 0, 0) && |best| == |Filter(rows, IsMatched)|
    ensures Advancing(c.SideClaims(live, bt))
    ensures Close(c.SideClaims(live, bt), Times(live), Times(bt), c.tolerance, 0)
  {
    GreedyIsMaximum(m, Times(live), Times(bt), c.tolerance, 0, 0);
    GreedyIsMatching(Times(live), Times(bt), c.tolerance);
    ClaimsAdvance(Times(live), Times(bt), c.tolerance, 0, 0);
    ClaimsAreClose(Times(live), Times(bt), c.tolerance, 0, 0);
    assert Times(bt)[0..] == Times(bt);
    MatchedRowsAreHits(c, live, bt, rows, c.SideClaims(live, bt));
  }

  lemma {:induction false} MatchedRowsAreHits(c: PositionComparator, live: seq<Snapshot>, bt: seq<Snapshot>,
                                              rows: seq<Pair>, claims: seq<int>)
    requires c.RowsFor(rows, live, bt, claims)
    ensures |Filter(rows, IsMatched)| == Hits(claims)
  {
    if rows != [] {
      assert c.RowFor(rows[0], live, bt[0], claims[0]);
      forall k | 0 <= k < |rows[1..]| ensures c.RowFor(rows[1..][k], live, bt[1..][k], claims[1..][k]) {
        assert c.RowFor(rows[k + 1], live, bt[k + 1], claims[k + 1]);
      }
      MatchedRowsAreHits(c, live, bt[1..], rows[1..], claims[1..]);
    }
  }
}
