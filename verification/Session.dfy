/** In-memory results of a backtest: trades, running totals, equity curve and drawdown. */
module Session {
  import opened Common
  import opened Ledger
  import opened Drawdown
  import Resampling

  datatype Trade = Trade(
    tradeId: string,
    side: Side,
    price: real,
    qty: real,
    direction: Direction,
    ts: int,
    orderId: string,
    clientOrderId: string,
    realizedPnl: real,
    commission: real
  )

  function TradeEntry(t: Trade): Entry {
    Entry((t.clientOrderId, t.orderId), Amounts(t.qty, t.qty * t.price, t.commission, t.realizedPnl))
  }

  function TradeEntries(ts: seq<Trade>): (es: seq<Entry>)
    ensures |es| == |ts|
  {
    seq(|ts|, i requires 0 <= i < |ts| => TradeEntry(ts[i]))
  }

  lemma TradeEntriesAppend(ts: seq<Trade>, t: Trade)
    ensures TradeEntries(ts + [t]) == TradeEntries(ts) + [TradeEntry(t)]
  {
  }

  function Values(c: seq<Resampling.Point>): (v: seq<real>)
    ensures |v| == |c|
  {
    seq(|c|, i requires 0 <= i < |c| => c[i].1)
  }

  datatype Metrics = Metrics(totalTrades: nat, finalBalance: real, maxDrawdown: real, maxDrawdownDuration: nat)

  class BacktestSession {
    const initialBalance: real
    var currentBalance: real
    var trades: seq<Trade>
    var equityCurve: seq<Resampling.Point>
    var totalRealizedPnl: real
    var totalCommission: real
    var totalFunding: real
    var pendingRealizedPnl: real
    var pendingCommission: real
    var totalVolume: real
    var peakEquity: real
    var maxDrawdown: real
    var maxDrawdownDuration: nat
    var currentDrawdownDuration: nat

    /** Running totals are the totals of the recorded trades. */
    ghost predicate TotalsOk()
      reads `trades, `totalRealizedPnl, `totalCommission, `totalVolume
    {
      Amounts(0.0, totalVolume, totalCommission, totalRealizedPnl) == Total(TradeEntries(trades), None).(qty := 0.0)
    }

    /** The initial balance followed by every equity point. */
    ghost function Points(): (p: seq<real>)
      reads `equityCurve
      ensures |p| == 1 + |equityCurve|
    {
      [initialBalance] + Values(equityCurve)
    }

    ghost function DrawdownFigures(): Figures
      reads `peakEquity, `maxDrawdown, `maxDrawdownDuration, `currentDrawdownDuration
    {
      Figures(peakEquity, maxDrawdown, maxDrawdownDuration, currentDrawdownDuration)
    }

    /** The one-pass fields agree with the definitions over all pairs and runs of points. */
    ghost predicate DrawdownOk()
      reads `equityCurve, `peakEquity, `maxDrawdown, `maxDrawdownDuration, `currentDrawdownDuration
    {
      Describe(DrawdownFigures(), Points())
    }

    constructor (initialBalance: real)
      ensures this.initialBalance == initialBalance == currentBalance
      ensures trades == [] && equityCurve == [] && TotalsOk() && DrawdownOk()
      ensures totalRealizedPnl == totalCommission == totalFunding == pendingRealizedPnl == pendingCommission == 0.0
    {
      this.initialBalance, currentBalance, peakEquity := initialBalance, initialBalance, initialBalance;
      trades, equityCurve := [], [];
      totalRealizedPnl, totalCommission, totalFunding := 0.0, 0.0, 0.0;
      pendingRealizedPnl, pendingCommission, totalVolume := 0.0, 0.0, 0.0;
      maxDrawdown, maxDrawdownDuration, currentDrawdownDuration := 0.0, 0, 0;
      new;
      FirstPoint(initialBalance);
      assert Points() == [initialBalance];
    }

    method RecordTrade(trade: Trade)
      requires TotalsOk()
      modifies `trades, `totalRealizedPnl, `totalCommission, `totalVolume
      ensures TotalsOk()
      ensures trades == old(trades) + [trade]
      ensures totalRealizedPnl == old(totalRealizedPnl) + trade.realizedPnl
      ensures totalCommission == old(totalCommission) + trade.commission
      ensures totalVolume == old(totalVolume) + trade.qty * trade.price
    {
      TradeEntriesAppend(trades, trade);
      TotalPush(TradeEntries(trades), TradeEntry(trade), None);
      trades := trades + [trade];
      totalRealizedPnl := totalRealizedPnl + trade.realizedPnl;
      totalCommission := totalCommission + trade.commission;
      totalVolume := totalVolume + trade.qty * trade.price;
    }

    method SetPendingWallet(pendingRealized: real, pendingCommission: real)
      modifies `pendingRealizedPnl, `pendingCommission
      ensures pendingRealizedPnl == pendingRealized && this.pendingCommission == pendingCommission
    {
      pendingRealizedPnl := pendingRealized;
      this.pendingCommission := pendingCommission;
    }

    method ClearPendingWallet()
      modifies `pendingRealizedPnl, `pendingCommission
      ensures pendingRealizedPnl == 0.0 == pendingCommission
    {
      pendingRealizedPnl := 0.0;
      pendingCommission := 0.0;
    }

    function PnlDelta(unrealized: real): real
      reads `totalRealizedPnl, `totalCommission, `totalFunding, `pendingRealizedPnl, `pendingCommission
    {
      totalRealizedPnl + pendingRealizedPnl + unrealized - totalCommission - pendingCommission + totalFunding
    }

    /** The part of the wallet that is not profit still open. */
    ghost function Net(): real
      reads `totalRealizedPnl, `totalCommission, `totalFunding
    {
      totalRealizedPnl - totalCommission + totalFunding
    }

    method RecordFunding(amount: real)
      modifies `totalFunding
      ensures totalFunding == old(totalFunding) + amount
    {
      totalFunding := totalFunding + amount;
    }

    method RefreshBalances(unrealized: real)
      modifies `currentBalance
      ensures currentBalance == initialBalance + PnlDelta(unrealized)
    {
      currentBalance := initialBalance + PnlDelta(unrealized);
    }

    method UpdateEquity(ts: int, unrealized: real)
      requires DrawdownOk()
      modifies `equityCurve, `currentBalance, `peakEquity, `maxDrawdown, `maxDrawdownDuration, `currentDrawdownDuration
      ensures DrawdownOk()
      ensures equityCurve == old(equityCurve) + [(ts, initialBalance + PnlDelta(unrealized))]
      ensures currentBalance == initialBalance + PnlDelta(unrealized)
    {
      hide Describe, Advance;
      var equity := initialBalance + PnlDelta(unrealized);
      AdvanceDescribes(DrawdownFigures(), Points(), equity);
      ghost var points := Points() + [equity];
      equityCurve := equityCurve + [(ts, equity)];
      assert Points() == points;
      currentBalance := equity;
      TrackDrawdown(equity);
    }

    method TrackDrawdown(equity: real)
      modifies `peakEquity, `maxDrawdown, `maxDrawdownDuration, `currentDrawdownDuration
      ensures DrawdownFigures() == Advance(old(DrawdownFigures()), equity)
    {
      if equity >= peakEquity {
        peakEquity := equity;
        if currentDrawdownDuration > maxDrawdownDuration {
          maxDrawdownDuration := currentDrawdownDuration;
        }
        currentDrawdownDuration := 0;
      } else {
        currentDrawdownDuration := currentDrawdownDuration + 1;
      }
      var drawdown := peakEquity - equity;
      if drawdown > maxDrawdown {
        maxDrawdown := drawdown;
      }
    }

    /** Final figures. The reported duration also counts a drawdown still open at the end. */
    method Finalize(finalUnrealized: real) returns (m: Metrics)
      requires DrawdownOk()
      ensures m.totalTrades == |trades|
      ensures m.finalBalance == initialBalance + totalRealizedPnl + finalUnrealized - totalCommission + totalFunding
      ensures IsMaxDrop(Points(), m.maxDrawdown) && IsLongestRun(Points(), m.maxDrawdownDuration)
    {
      var finalBalance := initialBalance + totalRealizedPnl + finalUnrealized - totalCommission + totalFunding;
      var duration :=
        if currentDrawdownDuration > maxDrawdownDuration then currentDrawdownDuration else maxDrawdownDuration;
      m := Metrics(|trades|, finalBalance, maxDrawdown, duration);
    }

    /** Last equity of each non-empty bucket: the live column of the two-curve specification
        when the second curve is empty. */
    method ResampleEquity(interval: int) returns (resampled: seq<real>)
      requires Resampling.Sorted(equityCurve) && interval > 0
      ensures equityCurve == [] ==> resampled == []
      ensures equityCurve != [] ==>
        var rows := Resampling.Buckets(equityCurve, [], equityCurve[0].0, equityCurve[|equityCurve| - 1].0, interval);
        |resampled| == |rows| && forall i :: 0 <= i < |rows| ==> rows[i].live == Some(resampled[i])
    {
      if equityCurve == [] {
        return [];
      }
      var start, end := equityCurve[0].0, equityCurve[|equityCurve| - 1].0;
      resampled := [];
      ghost var done: seq<Resampling.Row> := [];
      var bucketStart, eqIdx := start, 0;
      while bucketStart <= end
        invariant Resampling.Splits(equityCurve, eqIdx, bucketStart)
        invariant |resampled| == |done| && forall i :: 0 <= i < |done| ==> done[i].live == Some(resampled[i])
        invariant done + Resampling.Buckets(equityCurve, [], bucketStart, end, interval)
               == Resampling.Buckets(equityCurve, [], start, end, interval)
      {
        var bucketEnd := bucketStart + interval;
        var lastValue;
        lastValue, eqIdx := Resampling.ScanBucket(equityCurve, eqIdx, bucketStart, bucketEnd);
        if lastValue.Some? {
          resampled := resampled + [lastValue.value];
          done := done + [Resampling.Bucket(equityCurve, [], bucketStart, interval)];
        }
        bucketStart := bucketEnd;
      }
    }
  }
}
