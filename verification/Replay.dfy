/** The replay of a recorded window, tick by tick, up to the final sweep. */
module Replay {
  import opened Common
  import opened Ledger
  import opened Session
  import opened Lifecycle
  import Strategy
  import opened ReplaySteps
  import opened Runner
  import opened Funding

  class ReplayEngine {
    const runner: BacktestRunner
    const funding: FundingSimulator?

    constructor (runner: BacktestRunner, funding: FundingSimulator?)
      ensures this.runner == runner && this.funding == funding
    {
      this.runner, this.funding := runner, funding;
    }

    ghost predicate Ready()
      reads runner, runner.session, runner.follower, runner.om, runner.engine, runner.longTracker, runner.shortTracker
    {
      runner.AtTickBoundary() && runner.session.DrawdownOk()
    }

    ghost predicate FundingIsDue(t: int)
      reads funding
    {
      funding != null && ShouldApply(funding.lastFundingTime, t)
    }

    /** The rate to settle at a time, if funding is due then. */
    ghost function RateDue(t: int): Option<real>
      reads funding
    {
      if FundingIsDue(t) then Some(funding.rate) else None
    }

    method ApplyFunding(tick: Tick)
      requires Ready()
      modifies runner.longTracker, runner.shortTracker, runner.session`totalFunding, funding
      ensures Ready()
      ensures var due, s := old(RateDue(tick.ticker.exchangeTs)), old(runner.ReplayState());
        runner.ReplayState() == if due.Some? then FundedAt(s, due.value, tick.ticker.lastPrice) else s
      ensures runner.session.totalFunding == old(runner.session.totalFunding)
        + if old(FundingIsDue(tick.ticker.exchangeTs)) then
            (runner.shortTracker.state.size - runner.longTracker.state.size) * tick.ticker.lastPrice * funding.rate
          else 0.0
      ensures funding != null && old(FundingIsDue(tick.ticker.exchangeTs)) ==>
        funding.lastFundingTime == Some(tick.ticker.exchangeTs)
      ensures funding != null && !old(FundingIsDue(tick.ticker.exchangeTs)) ==>
        funding.lastFundingTime == old(funding.lastFundingTime)
    {
      hide BacktestRunner.Trading, BacktestRunner.LifeSettled, BacktestRunner.PendingOk, BacktestRunner.PositionsFollow;
      hide BacktestRunner.RowsAccountedFor, BacktestRunner.DrainedTo, BacktestRunner.ReplayState, FundedAt;
      hide BacktestSession.DrawdownOk, ShouldApply;
      hide BacktestRunner.FundingDue;
      if funding != null && funding.ShouldApplyFunding(tick.ticker.exchangeTs) {
        var paid := runner.ApplyFunding(funding.rate, tick.ticker.lastPrice);
        funding.MarkFundingApplied(tick.ticker.exchangeTs);
      }
    }

    /** The equity point: everything booked or pending, plus the open positions at the last price. */
    ghost function Equity(price: real): real
      reads runner.session, runner.longTracker, runner.shortTracker
    {
      runner.session.initialBalance + runner.session.PnlDelta(runner.UnrealizedAt(price))
    }

    /** Which is what the applied slices, funding and the open positions are worth. */
    lemma EquityIsWorth(price: real)
      requires Ready() && runner.follower != null
      ensures Equity(price) == EquityAt(runner.ReplayState(), price)
    {
      hide BacktestRunner.Trading, BacktestRunner.PositionsFollow, BacktestRunner.RowsAccountedFor, LifeOk, Total;
      hide BacktestRunner.DrainedTo, BacktestSession.DrawdownOk, FlushedAreSettled, UnrealisedPnl;
      runner.MoneyIsConserved();
    }

    method MarkEquity(tick: Tick)
      requires Ready() && runner.follower != null
      modifies runner.longTracker, runner.shortTracker
      modifies runner.session`equityCurve, runner.session`currentBalance, runner.session`peakEquity
      modifies runner.session`maxDrawdown, runner.session`maxDrawdownDuration, runner.session`currentDrawdownDuration
      ensures Ready()
      ensures runner.session.equityCurve
           == old(runner.session.equityCurve) + [(tick.ticker.exchangeTs, Equity(tick.ticker.lastPrice))]
      ensures var s := old(runner.ReplayState()); var equity := EquityAt(s, tick.ticker.lastPrice);
        Equity(tick.ticker.lastPrice) == equity && runner.ReplayState() == s.(wallet := s.wallet.(balance := equity))
    {
      hide BacktestRunner.Trading, BacktestRunner.LifeSettled, BacktestRunner.PendingOk, BacktestRunner.PositionsFollow;
      hide BacktestRunner.RowsAccountedFor, BacktestRunner.DrainedTo, BacktestRunner.LifeView, BacktestRunner.Where;
      hide BacktestSession.DrawdownOk, BacktestRunner.Ahead, EquityAt;
      hide BacktestRunner.PositionsOk, BacktestRunner.UnrealizedAt;
      EquityIsWorth(tick.ticker.lastPrice);
      runner.PositionsAreOk();
      var u := runner.CalculateUnrealized(tick.ticker.lastPrice);
      runner.session.UpdateEquity(tick.ticker.exchangeTs, u);
    }

    /** The strategy's orders. */
    method ExecuteTick(ghost price: real)
      requires Ready() && runner.follower != null
      modifies runner`rollups, runner`index, runner`premature
      modifies runner.session`trades, runner.session`totalRealizedPnl, runner.session`totalCommission
      modifies runner.session`totalVolume
      modifies runner.session`pendingRealizedPnl, runner.session`pendingCommission, runner.session`currentBalance
      modifies runner.longTracker, runner.shortTracker, runner.om, runner.engine
      ensures Ready() && Equity(price) == old(Equity(price))
      ensures var s := old(runner.ReplayState());
        runner.ReplayState() == ExecutedAll(s.(script := Strategy.Asked(s.script)), Strategy.Answer(s.script))
    {
      hide BacktestRunner.Trading, BacktestRunner.ReplayOk, BacktestRunner.RowsAccountedFor, BacktestRunner.DrainedTo;
      hide BacktestSession.DrawdownOk, ExecutedAll, Strategy.Answer, Strategy.Asked, BacktestRunner.ReplayState;
      runner.StateIs();
      var intents := runner.ExecuteTick();
    }

    /** One tick of the replay: funding, recorded fills, equity, then the strategy's orders, which
        leave the equity as it is even when a cancel flushes a lifecycle. */
    method ProcessTick(tick: Tick) returns (r: Result<()>, ghost stage: Stage)
      requires Ready() && runner.follower != null
      modifies runner, runner.session, runner.follower, runner.om, runner.engine, runner.longTracker
      modifies runner.shortTracker, funding
      ensures r == Err(NonMonotonicTick) <==>
        old(runner.prevTickTs).Some? && tick.ticker.exchangeTs < old(runner.prevTickTs).value
      ensures r.Err? && r.error != NonMonotonicTick ==>
        r.error == InvalidFill && HasBadPrice(runner.follower.executions)
      ensures r.Ok? ==> Ready() && runner.prevTickTs == Some(tick.ticker.exchangeTs)
      ensures r.Ok? ==> IsStage(runner.engine.identity, runner.om.commissionRate, runner.follower.executions, stage)
      ensures r.Ok? ==> stage.before == old(runner.ReplayState()) && stage.after == runner.ReplayState()
      ensures r.Ok? ==> stage.from == old(runner.follower.cursor) && stage.to == runner.follower.cursor
      ensures r.Ok? ==> stage.tick == tick && stage.funded == old(RateDue(tick.ticker.exchangeTs))
      ensures r.Ok? ==> stage.states != []
      ensures r.Ok? ==> runner.session.equityCurve == old(runner.session.equityCurve) + [EquityOf(stage)]
      ensures r.Ok? ==> EquityOf(stage) == (tick.ticker.exchangeTs, Equity(tick.ticker.lastPrice))
      ensures r.Ok? ==>
        var s := Settling(stage.states[|stage.states| - 1]);
        var valued := s.(wallet := s.wallet.(balance := Equity(tick.ticker.lastPrice)));
        runner.ReplayState()
          == ExecutedAll(valued.(script := Strategy.Asked(s.script)), Strategy.Answer(s.script))
      ensures r.Ok? && old(AreSlices(runner.applied)) ==> AreSlices(runner.applied)
      ensures funding != null && old(FundingIsDue(tick.ticker.exchangeTs)) ==>
        funding.lastFundingTime == Some(tick.ticker.exchangeTs)
      ensures funding != null && !old(FundingIsDue(tick.ticker.exchangeTs)) ==>
        funding.lastFundingTime == old(funding.lastFundingTime)
    {
      hide *;
      ReadyIs();
      ghost var before, from, due := runner.ReplayState(), runner.follower.cursor, RateDue(tick.ticker.exchangeTs);
      stage := Stage(before, tick, due, from, from, [], [], before);
      ApplyFunding(tick);
      ReadyIs();
      ghost var leftover, states, tried, last;
      ghost var begun := runner.Marked(tick.mark);
      MarkedIs(tick.mark);
      r, leftover, states, tried, last := runner.ProcessRecordedFills(tick);
      if r.Err? {
        return;
      }
      ReadyAgain();
      MarkEquity(tick);
      ExecuteTick(tick.ticker.lastPrice);
      stage := Stage(before, tick, due, from, runner.follower.cursor, tried, states, runner.ReplayState());
      StageIs(stage, begun, last);
    }

    lemma MarkedIs(mark: Option<real>)
      ensures var s := runner.ReplayState(); runner.Marked(mark) == s.(wallet := s.wallet.(mark := mark))
    {
    }

    lemma StageIs(g: Stage, begun: State, last: State)
      requires runner.LeadsInWindow(begun, g.from, g.states, g.tried, last) && runner.DrainedWindow(g.from, g.tried)
      requires var price := g.tick.ticker.lastPrice;
        var f := if g.funded.Some? then FundedAt(g.before, g.funded.value, price) else g.before;
        begun == f.(wallet := f.wallet.(mark := g.tick.mark))
      requires var s := Settling(last); var equity := EquityAt(s, g.tick.ticker.lastPrice);
        g.after == ExecutedAll(s.(wallet := s.wallet.(balance := equity), script := Strategy.Asked(s.script)),
                               Strategy.Answer(s.script))
      requires runner.follower.cursor == g.to
      ensures IsStage(runner.engine.identity, runner.om.commissionRate, runner.follower.executions, g)
      ensures g.states != [] && g.states[|g.states| - 1] == last
      ensures EquityOf(g) == (g.tick.ticker.exchangeTs, EquityAt(Settling(last), g.tick.ticker.lastPrice))
    {
      hide Tried, FundedAt, Settling, EquityAt, ExecutedAll, Undrained, Strategy.Asked, Strategy.Answer;
    }

    lemma ReadyIs()
      requires Ready()
      ensures runner.AtTickBoundary() && runner.session.DrawdownOk()
    {
    }

    lemma ReadyAgain()
      requires runner.AtTickBoundary() && runner.session.DrawdownOk()
      ensures Ready()
    {
    }

    // ---------- the whole replay ----------

    /** Exactly the rows up to the last tick were replayed, each either applied once, as a part with
        fee and profit pro-rated, or given up as live-only, and the counter counts the latter. */
    ghost predicate RowsReplayed(ticks: seq<Tick>)
      reads runner`applied, runner`liveOnly, runner`liveOnlyCount, runner.follower
    {
      runner.follower != null &&
      var es, n := runner.follower.executions, runner.follower.cursor;
      && n <= |es|
      && (forall k :: 0 <= k < |es| ==> (k < n <==> ticks != [] && es[k].ts <= ticks[|ticks| - 1].ticker.exchangeTs))
      && multiset(RowsOf(runner.applied)) + runner.liveOnly == multiset(es[..n])
      && runner.liveOnlyCount == |runner.liveOnly| && AreSlices(runner.applied)
    }

    /** The trades hold exactly the applied slices, lifecycle by lifecycle, and nothing is pending. */
    ghost predicate TradesHoldSlices()
      reads runner, runner.session
    {
      && (forall key :: Total(TradeEntries(runner.session.trades), key) == Total(RowEntries(runner.applied), key))
      && runner.session.totalRealizedPnl == Total(RowEntries(runner.applied), None).pnl
      && runner.session.totalCommission == Total(RowEntries(runner.applied), None).fee
      && runner.session.totalVolume == Total(RowEntries(runner.applied), None).notional
      && runner.session.pendingRealizedPnl == runner.session.pendingCommission == 0.0
    }

    /** Every trade belongs to a live group and has side and direction of one of its applied slices, time
        and execution id of one. No live group has two trades unless a slice reached a lifecycle that was
        already flushed, which takes two recorded rows of that lifecycle and a flush that came while rows
        were left. */
    ghost predicate TradesPerGroup()
      reads runner, runner.session, runner.follower
    {
      && runner.follower != null
      && (forall t <- runner.session.trades :: (t.clientOrderId, t.orderId) in Groups(runner.follower.executions))
      && (forall t <- runner.session.trades :: TradeStems(runner.applied, t))
      && (runner.reopened <==> exists key :: Uses(TradeEntries(runner.session.trades), key) > 1)
      && (runner.reopened ==> runner.premature && KeysRepeat(runner.follower.executions))
    }

    lemma RowsAreReplayed(ticks: seq<Tick>)
      requires Ready() && AreSlices(runner.applied)
      requires runner.prevTickTs == if ticks == [] then None else Some(ticks[|ticks| - 1].ticker.exchangeTs)
      ensures RowsReplayed(ticks)
    {
      hide BacktestRunner.Trading, BacktestRunner.ReplayOk, BacktestSession.DrawdownOk;
    }

    lemma AtStart()
      requires Ready() && runner.prevTickTs.None? && runner.follower != null && runner.applied == []
      ensures Reached(runner.ReplayState(), []) && AreSlices(runner.applied)
    {
      hide BacktestRunner.Trading, BacktestRunner.ReplayOk, BacktestRunner.RowsAccountedFor, BacktestSession.DrawdownOk;
      NoHistory(runner.engine.identity, runner.om.commissionRate, runner.follower.executions, runner.ReplayState());
    }

    lemma SettledBeforeFinish()
      requires Ready() && runner.follower != null
      ensures runner.LifeHolds() && runner.PendingOk() && (runner.reopened ==> runner.premature)
      ensures runner.PositionsFollow() && runner.Wired()
    {
      hide BacktestRunner.OrdersOk, BacktestRunner.GateHolds, BacktestRunner.Known;
      hide BacktestRunner.RowsAccountedFor, BacktestRunner.DrainedTo;
      hide BacktestSession.DrawdownOk, LifeOk, Follows;
    }

    lemma SlicesAreHeld()
      requires runner.LifeHolds() && runner.rollups == [] && runner.follower != null
      requires runner.session.pendingRealizedPnl == runner.session.pendingCommission == 0.0
      requires runner.reopened ==> runner.premature
      ensures TradesHoldSlices() && TradesPerGroup()
    {
      hide Total;
      var l := runner.LifeView();
      NoRollups();
      forall key ensures Total(TradeEntries(l.trades), key) == Total(RowEntries(l.applied), key) {
        assert Held(l, key) == Total(RowEntries(l.applied), key);
      }
      forall key ensures TimesUsed(l, key) == Uses(TradeEntries(l.trades), key) {}
    }

    lemma NoRollups()
      ensures forall key :: Total(RollupEntries([]), key) == ZERO
    {
    }

    ghost function FundingRate(): Option<real> {
      if funding == null then None else Some(funding.rate)
    }

    ghost function LastFunding(): Option<int>
      reads funding
    {
      if funding == null then None else funding.lastFundingTime
    }

    /** The stages lead from `first` to where the runner is. */
    ghost predicate Reached(first: State, stages: seq<Stage>)
      reads runner, runner.session, runner.follower, runner.om, runner.engine, runner.longTracker, runner.shortTracker
    {
      && runner.follower != null
      && IsHistory(runner.engine.identity, runner.om.commissionRate, runner.follower.executions, first, stages)
      && Final(first, stages) == runner.ReplayState() && Taken(stages) == runner.follower.cursor
    }

    /** The stages are those of a whole run from `first`; then every lifecycle still open was flushed. */
    ghost predicate History(first: State, stages: seq<Stage>)
      reads runner, runner.session, runner.follower, runner.om, runner.engine, runner.longTracker, runner.shortTracker
    {
      && runner.follower != null
      && IsHistory(runner.engine.identity, runner.om.commissionRate, runner.follower.executions, first, stages)
      && Taken(stages) == runner.follower.cursor
      && var last := Final(first, stages); runner.ReplayState() == Swept(last, KeysOf(last.life.rollups), true)
    }

    lemma RollupsAre()
      ensures runner.ReplayState().life.rollups == runner.rollups
    {
    }

    /** The tick loop and the final sweep. It stops early only when the clock runs backwards or a
        recorded row with a price that is not positive is applied. `stages` is the whole run, step by
        step: the state at the end, the flags of the lifecycles included, and every equity point are
        functions of the start, the ticks, the stream and the orders the rows select. */
    method Run(ticks: seq<Tick>) returns (r: Result<()>, ghost stages: seq<Stage>)
      requires Ready() && runner.prevTickTs.None? && runner.follower != null && runner.applied == []
      modifies runner, runner.session, runner.follower, runner.om, runner.engine, runner.longTracker
      modifies runner.shortTracker, funding
      ensures r.Ok? ==> NonDecreasing(TickTimes(ticks))
      ensures r == Err(NonMonotonicTick) ==> !NonDecreasing(TickTimes(ticks))
      ensures r.Err? && r.error != NonMonotonicTick ==>
        r.error == InvalidFill && HasBadPrice(runner.follower.executions)
      ensures r.Ok? ==> RowsReplayed(ticks) && TradesHoldSlices() && TradesPerGroup() && runner.rollups == []
      ensures r.Ok? ==> forall a <- runner.applied ::
        && 0.0 < a.amounts.qty <= a.row.qty && a.amounts.notional == a.row.price * a.amounts.qty
        && a.amounts.fee * a.row.qty == a.row.fee * a.amounts.qty
        && a.amounts.pnl * a.row.qty == a.row.closedPnl * a.amounts.qty
      ensures r.Ok? ==> runner.PositionsFollow()
      ensures r.Ok? ==> |stages| == |ticks| && Scheduled(FundingRate(), old(LastFunding()), ticks, stages)
      ensures r.Ok? ==> History(old(runner.ReplayState()), stages)
      ensures r.Ok? ==> runner.session.equityCurve == old(runner.session.equityCurve) + EquitiesOf(stages)
    {
      hide *;
      ghost var first, curve, last := runner.ReplayState(), runner.session.equityCurve, LastFunding();
      stages := [];
      AtStart();
      NoTicks(FundingRate(), last, ticks, curve);
      for k := 0 to |ticks|
        invariant Ready() && AreSlices(runner.applied) && |stages| == k && Reached(first, stages)
        invariant runner.prevTickTs == if k == 0 then None else Some(ticks[k - 1].ticker.exchangeTs)
        invariant forall i, j :: 0 <= i < j < k ==> ticks[i].ticker.exchangeTs <= ticks[j].ticker.exchangeTs
        invariant Scheduled(FundingRate(), last, ticks, stages) && FundedTo(last, ticks, k)
        invariant runner.session.equityCurve == curve + EquitiesOf(stages)
      {
        ghost var stage;
        r, stage := TickOf(ticks, k, first, last, stages);
        if r.Err? {
          if r.error == NonMonotonicTick { ClockRanBack(ticks, k); }
          return;
        }
        EquitiesPush(stages, stage);
        stages := stages + [stage];
      }
      ClockIsFine(ticks);
      RowsAreReplayed(ticks);
      SlicesAreProportional(runner.applied);
      SettledBeforeFinish();
      ReachedIs(first, stages);
      RollupsAre();
      runner.FinalizeEventFollower();
      HistoryIs(first, stages);
      SlicesAreHeld();
      r := Ok(());
    }

    /** The funding state before tick `k` of a run that began with `last`. */
    ghost predicate FundedTo(last: Option<int>, ticks: seq<Tick>, k: nat)
      requires k <= |ticks|
      reads funding
    {
      funding != null ==> funding.lastFundingTime == LastBefore(last, TickTimes(ticks), k)
    }

    method TickOf(ticks: seq<Tick>, k: nat, ghost first: State, ghost last: Option<int>, ghost stages: seq<Stage>)
      returns (r: Result<()>, ghost stage: Stage)
      requires k < |ticks| && |stages| == k && Ready() && runner.follower != null && Reached(first, stages)
      requires Scheduled(FundingRate(), last, ticks, stages) && FundedTo(last, ticks, k)
      modifies runner, runner.session, runner.follower, runner.om, runner.engine, runner.longTracker
      modifies runner.shortTracker, funding
      ensures r == Err(NonMonotonicTick) <==>
        old(runner.prevTickTs).Some? && ticks[k].ticker.exchangeTs < old(runner.prevTickTs).value
      ensures r.Err? && r.error != NonMonotonicTick ==>
        r.error == InvalidFill && HasBadPrice(runner.follower.executions)
      ensures r.Ok? ==> Ready() && runner.prevTickTs == Some(ticks[k].ticker.exchangeTs)
      ensures r.Ok? ==> Reached(first, stages + [stage]) && stage.states != []
      ensures r.Ok? ==> Scheduled(FundingRate(), last, ticks, stages + [stage]) && FundedTo(last, ticks, k + 1)
      ensures r.Ok? ==> runner.session.equityCurve == old(runner.session.equityCurve) + [EquityOf(stage)]
      ensures r.Ok? && old(AreSlices(runner.applied)) ==> AreSlices(runner.applied)
    {
      hide Ready, BacktestRunner.ReplayState, IsStage, IsHistory, Final, Taken, AreSlices, EquityOf, ShouldApply;
      hide HasBadPrice, Equity, Settling, ExecutedAll, Strategy.Asked, Strategy.Answer;
      assert TickTimes(ticks)[k] == ticks[k].ticker.exchangeTs;
      r, stage := ProcessTick(ticks[k]);
      if r.Ok? {
        HistoryPush(runner.engine.identity, runner.om.commissionRate, runner.follower.executions, first, stages, stage);
        assert AppliedAt(last, TickTimes(ticks), k)
          <==> ShouldApply(LastBefore(last, TickTimes(ticks), k), TickTimes(ticks)[k]);
      }
    }

    lemma ClockRanBack(ticks: seq<Tick>, k: nat)
      requires 0 < k < |ticks| && ticks[k].ticker.exchangeTs < ticks[k - 1].ticker.exchangeTs
      ensures !NonDecreasing(TickTimes(ticks))
    {
      assert TickTimes(ticks)[k - 1] > TickTimes(ticks)[k];
    }

    lemma ClockIsFine(ticks: seq<Tick>)
      requires forall i, j :: 0 <= i < j < |ticks| ==> ticks[i].ticker.exchangeTs <= ticks[j].ticker.exchangeTs
      ensures NonDecreasing(TickTimes(ticks))
    {
    }

    lemma NoTicks(rate: Option<real>, last: Option<int>, ticks: seq<Tick>, curve: seq<(int, real)>)
      requires last == LastFunding()
      ensures Scheduled(rate, last, ticks, []) && FundedTo(last, ticks, 0) && curve == curve + EquitiesOf([])
    {
    }

    lemma ReachedIs(first: State, stages: seq<Stage>)
      requires Reached(first, stages)
      ensures runner.follower != null && Final(first, stages) == runner.ReplayState()
      ensures IsHistory(runner.engine.identity, runner.om.commissionRate, runner.follower.executions, first, stages)
      ensures Taken(stages) == runner.follower.cursor
    {
    }

    lemma HistoryIs(first: State, stages: seq<Stage>)
      requires runner.follower != null && Taken(stages) == runner.follower.cursor
      requires IsHistory(runner.engine.identity, runner.om.commissionRate, runner.follower.executions, first, stages)
      requires var last := Final(first, stages); runner.ReplayState() == Swept(last, KeysOf(last.life.rollups), true)
      ensures History(first, stages)
    {
    }
  }

  /** The stages follow the ticks, and funding is settled at the first tick of each slot. */
  ghost predicate Scheduled(rate: Option<real>, last: Option<int>, ticks: seq<Tick>, stages: seq<Stage>) {
    && |stages| <= |ticks|
    && forall k :: 0 <= k < |stages| ==>
      && stages[k].tick == ticks[k]
      && stages[k].funded == if AppliedAt(last, TickTimes(ticks), k) then rate else None
  }

  /** The equity points of the stages. */
  ghost function EquitiesOf(stages: seq<Stage>): (curve: seq<(int, real)>) {
    if stages == [] then []
    else
      var g := stages[|stages| - 1];
      EquitiesOf(stages[..|stages| - 1]) + if g.states == [] then [] else [EquityOf(g)]
  }

  lemma EquitiesPush(stages: seq<Stage>, g: Stage)
    requires g.states != []
    ensures EquitiesOf(stages + [g]) == EquitiesOf(stages) + [EquityOf(g)]
  {
    assert (stages + [g])[..|stages|] == stages;
  }
}
