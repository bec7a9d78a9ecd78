/**
 The backtest engine in simulator mode: several strategies share one session, and the session's
 books always agree with the strategies' own trackers.
 */
module Engine {
  import opened Common
  import opened FillSimulator
  import opened OrderBook
  import opened PositionTracker
  import opened OrderManager
  import opened Session
  import opened ReplaySteps
  import opened Runner
  import opened Funding
  import opened Desks
  import opened Holdings
  import opened Strategy
  import opened Drawdown
  import Resampling

  datatype WindDownMode = LeaveOpen | CloseAll

  function Other(direction: Direction): Direction {
    if direction == Long then Short else Long
  }

  lemma OtherIs()
    ensures Other(Long) == Short && Other(Short) == Long
  {
  }

  /** What one tick did to every strategy: the funding rate charged, if it was due, the orders the
      market filled, the executions reported for them, and where positions, market, book and script
      stood afterwards. */
  datatype Round = Round(
    funded: Option<real>,
    filled: seq<seq<Order>>,
    fills: seq<seq<Execution>>,
    places: seq<Positions>,
    desks: seq<Desk>
  )

  // ---------- one strategy ----------

  /** One strategy is ready for the next tick. */
  ghost predicate Ready(r: BacktestRunner)
    reads r.om, r.om.simulator, r.engine, r.longTracker, r.shortTracker
  {
    r.Trading([]) && r.om.simulator.Valid() && r.engine.Valid()
  }

  lemma ReadyIs(r: BacktestRunner)
    requires Ready(r)
    ensures r.Trading([]) && r.om.simulator.Valid() && r.engine.Valid()
  {
  }

  twostate lemma StillReady(r: BacktestRunner)
    requires forall owed :: old(r.Trading(owed)) ==> r.Trading(owed)
    requires unchanged(r.om, r.om.simulator, r.engine)
    ensures old(Ready(r)) ==> Ready(r)
  {
  }

  lemma ReadyAgain(r: BacktestRunner)
    requires r.Trading([]) && r.om.simulator.Valid()
    ensures Ready(r)
  {
  }

  ghost function DeskOf(r: BacktestRunner): Desk
    reads r.om, r.om.simulator, r.engine
  {
    Desk(r.om.simulator.View(), r.om.View(), r.engine.View())
  }

  lemma DeskIs(r: BacktestRunner)
    ensures var d := DeskOf(r);
      d.market == r.om.simulator.View() && d.book == r.om.View() && d.script == r.engine.View()
    ensures r.om.filled == DeskOf(r).book.filled && r.engine.sizing == r.engine.View().sizing
    ensures r.om.active == DeskOf(r).book.active
  {
  }

  /** What the trackers have booked and cached is a matter of where the positions stand. */
  lemma PlaceIs(r: BacktestRunner)
    ensures r.TrackerNet() == Booked(r.Where())
    ensures forall price :: r.UnrealizedAt(price) == OpenProfit(r.Where(), price)
    ensures forall rate, price :: r.FundingDue(rate, price) == Receives(r.Where(), rate, price)
  {
    hide UnrealisedPnl, Payment;
  }

  lemma FundedPlaceIs(r: BacktestRunner, s: State, rate: real, price: real)
    requires r.ReplayState() == FundedAt(s, rate, price)
    ensures r.Where() == FundedPlace(s.positions, rate, price)
  {
  }

  lemma SameWhere(r: BacktestRunner)
    ensures r.ReplayState().positions == r.Where() == Positions(r.Core(Long), r.Core(Short))
  {
  }

  twostate lemma Untouched(r: BacktestRunner)
    requires unchanged(r.om, r.om.simulator, r.engine, r.longTracker, r.shortTracker)
    ensures old(Ready(r)) == Ready(r) && old(r.PositionsOk()) == r.PositionsOk()
    ensures r.Where() == old(r.Where()) && r.CachedUnrealized() == old(r.CachedUnrealized())
    ensures DeskOf(r) == old(DeskOf(r))
  {
  }

  /** Closes one position in full at `price`; an invalid price aborts. */
  method ForceClosePosition(session: BacktestSession, runner: BacktestRunner, direction: Direction, price: real,
                            ts: int)
    returns (r: Result<()>)
    requires runner.PositionsOk() && session.TotalsOk()
    modifies runner.longTracker, runner.shortTracker, session`trades, session`totalRealizedPnl, session`totalCommission
    modifies session`totalVolume
    ensures r.Err? <==> old(runner.SizeOf(direction)) > 0.0 && price <= 0.0
    ensures runner.PositionsOk() && session.TotalsOk()
    ensures session.Net() - runner.TrackerNet() == old(session.Net() - runner.TrackerNet())
    ensures r.Ok? ==> runner.SizeOf(direction) == 0.0
    ensures r.Err? ==> runner.SizeOf(direction) == old(runner.SizeOf(direction))
    ensures runner.SizeOf(Other(direction)) == old(runner.SizeOf(Other(direction)))
    ensures old(runner.SizeOf(direction)) > 0.0 && price > 0.0 ==> |session.trades| == |old(session.trades)| + 1
    ensures old(runner.SizeOf(direction)) > 0.0 && price > 0.0 ==>
      var t := session.trades[|old(session.trades)|];
      && session.trades == old(session.trades) + [t] && t.direction == direction && !IsOpening(direction, t.side)
      && t.qty == old(runner.SizeOf(direction)) && t.price == price && t.ts == ts
      && t.commission == old(runner.SizeOf(direction)) * price * runner.om.commissionRate
    ensures old(runner.SizeOf(direction)) == 0.0 ==> session.trades == old(session.trades)
    ensures r.Ok? ==>
      WorthOf(runner.Where(), price) == old(WorthOf(runner.Where(), price))
                                        - Commission(runner.om.commissionRate, old(runner.SizeOf(direction)), price)
  {
    hide BacktestSession.TotalsOk, Filled, UnrealisedPnl, Commission;
    var tracker := runner.Tracker(direction);
    var size := tracker.state.size;
    FeeIs(tracker.commissionRate, size, price);
    if size <= 0.0 {
      return Ok(());
    }
    var side := if direction == Long then Sell else Buy;
    if price > 0.0 { ClosingInFull(direction, tracker.commissionRate, tracker.state, price); }
    var realized := tracker.ProcessFill(side, size, price);
    if realized.Err? {
      return Err(realized.error);
    }
    var unrealized := tracker.CalculateUnrealizedPnl(price);
    var name := if direction == Long then "wind_down_long" else "wind_down_short";
    var fee := size * price * tracker.commissionRate;
    session.RecordTrade(Trade("close", side, price, size, direction, ts, name, name, realized.value, fee));
    return Ok(());
  }

  lemma FeeIs(rate: real, size: real, price: real)
    ensures Commission(rate, size, price) == size * price * rate
    ensures Commission(rate, 0.0, price) == 0.0
  {
  }

  /** Closing at a price turns the open profit at that price into booked profit, less the fee. */
  lemma ClosingInFull(direction: Direction, rate: real, s: PositionState, price: real)
    requires Consistent(s) && s.size > 0.0 && price > 0.0
    ensures var s' := Filled(direction, rate, s, Fill(if direction == Long then Sell else Buy, s.size, price));
      && s'.size == 0.0 && s'.commissionPaid == s.commissionPaid + Commission(rate, s.size, price)
      && s'.fundingPaid == s.fundingPaid
      && s'.realized + UnrealisedPnl(direction, s'.avgEntry, price, s'.size)
         == s.realized + UnrealisedPnl(direction, s.avgEntry, price, s.size)
  {
    hide Commission;
  }

  /** Every equity point is the initial balance plus what the strategies were worth at the tick. */
  ghost predicate IsCurve(curve: seq<Resampling.Point>, initial: real, ticks: seq<Tick>, rounds: seq<Round>) {
    && |curve| == |rounds| <= |ticks|
    && forall k :: 0 <= k < |rounds| ==>
         var t := ticks[k].ticker;
         curve[k] == (t.exchangeTs, initial + TotalAt(rounds[k].places, t.lastPrice))
  }

  lemma CurvePush(curve: seq<Resampling.Point>, initial: real, ticks: seq<Tick>, rounds: seq<Round>, round: Round)
    requires IsCurve(curve, initial, ticks, rounds) && |rounds| < |ticks|
    ensures var t := ticks[|rounds|].ticker;
      IsCurve(curve + [(t.exchangeTs, initial + TotalAt(round.places, t.lastPrice))], initial, ticks, rounds + [round])
  {
    hide TotalAt;
  }

  class BacktestEngine {
    const session: BacktestSession
    const runners: seq<BacktestRunner>
    const funding: FundingSimulator?
    const windDownMode: WindDownMode
    var lastPrice: Option<real>
    var lastTimestamp: int

    /** Strategies own separate books and trackers and share only the session. */
    ghost predicate Separate() {
      && (forall i, j :: 0 <= i < j < |runners| ==> runners[i].Parts() !! runners[j].Parts())
      && (forall i :: 0 <= i < |runners| ==> runners[i].session == session && runners[i].follower == null)
    }

    lemma Apart(i: nat, k: nat)
      requires Separate() && i < |runners| && k < |runners| && i != k
      ensures runners[i].Parts() !! runners[k].Parts() && session !in runners[i].Parts()
    {
      if i < k {
        assert runners[i].Parts() !! runners[k].Parts();
      } else {
        assert runners[k].Parts() !! runners[i].Parts();
      }
    }

    lemma Owns(r: BacktestRunner)
      ensures r in r.Parts() && r.om in r.Parts() && r.om.simulator in r.Parts() && r.engine in r.Parts()
      ensures r.longTracker in r.Parts() && r.shortTracker in r.Parts()
    {
    }

    /** Everything the strategies own. */
    ghost function Owned(): set<object> {
      set r <- runners, o <- r.Parts() :: o
    }

    lemma OwnedHas(k: nat)
      requires k < |runners|
      ensures runners[k] in runners && runners[k].Parts() <= Owned()
    {
      assert runners[k] in runners;
    }

    lemma OwnedHasTrackers()
      ensures forall r <- runners :: r.longTracker in Owned() && r.shortTracker in Owned()
    {
      forall r | r in runners ensures r.longTracker in Owned() && r.shortTracker in Owned() { Owns(r); }
    }

    lemma NotOwned()
      ensures this !in Owned() && session !in Owned() && funding !in Owned()
    {
    }

    // ---------- all strategies at once ----------

    ghost predicate AllReady()
      reads set r <- runners :: r.om, set r <- runners :: r.om.simulator, set r <- runners :: r.engine
      reads set r <- runners :: r.longTracker, set r <- runners :: r.shortTracker
    {
      forall r <- runners :: Ready(r)
    }

    ghost predicate AllPositionsOk()
      reads set r <- runners :: r.longTracker, set r <- runners :: r.shortTracker
    {
      forall r <- runners :: r.PositionsOk()
    }

    lemma ReadyArePositionsOk()
      requires AllReady()
      ensures AllPositionsOk()
    {
    }

    /** The positions of the strategies are `places`. */
    ghost predicate Standing(places: seq<Positions>)
      reads set r <- runners :: r.longTracker, set r <- runners :: r.shortTracker
    {
      |places| == |runners| && forall i :: 0 <= i < |runners| ==> places[i] == runners[i].Where()
    }

    ghost function Places(n: nat): (places: seq<Positions>)
      requires n <= |runners|
      reads set r <- runners :: r.longTracker, set r <- runners :: r.shortTracker
      ensures |places| == n && forall i :: 0 <= i < n ==> runners[i] in runners && places[i] == runners[i].Where()
    {
      if n == 0 then []
      else
        assert runners[n - 1] in runners;
        Places(n - 1) + [runners[n - 1].Where()]
    }

    /** The first `n` strategies have cached the profit of their positions at `price`. */
    ghost predicate Valued(places: seq<Positions>, price: real, n: nat)
      reads set r <- runners :: r.longTracker, set r <- runners :: r.shortTracker
    {
      && n <= |runners| == |places|
      && forall i :: 0 <= i < n ==> runners[i].CachedUnrealized() == OpenProfit(places[i], price)
    }

    /** The first `n` strategies hold no position. */
    ghost predicate Flat(n: nat)
      reads set r <- runners :: r.longTracker, set r <- runners :: r.shortTracker
    {
      forall i :: 0 <= i < n && i < |runners| ==> runners[i].SizeOf(Long) == runners[i].SizeOf(Short) == 0.0
    }

    /** Nothing is cached as unrealised profit. */
    ghost predicate Idle()
      reads set r <- runners :: r.longTracker, set r <- runners :: r.shortTracker
    {
      forall r <- runners :: r.CachedUnrealized() == 0.0
    }

    /** Markets, books and scripts of the strategies are `desks`. */
    ghost predicate Seated(desks: seq<Desk>)
      reads set r <- runners :: r.om, set r <- runners :: r.om.simulator, set r <- runners :: r.engine
    {
      |desks| == |runners| && forall i :: 0 <= i < |runners| ==> desks[i] == DeskOf(runners[i])
    }

    ghost function DesksNow(n: nat): (desks: seq<Desk>)
      requires n <= |runners|
      reads set r <- runners :: r.om, set r <- runners :: r.om.simulator, set r <- runners :: r.engine
      ensures |desks| == n && forall i :: 0 <= i < n ==> runners[i] in runners && desks[i] == DeskOf(runners[i])
    {
      if n == 0 then []
      else
        assert runners[n - 1] in runners;
        DesksNow(n - 1) + [DeskOf(runners[n - 1])]
    }

    /** The first `n` strategies have seen the market's fills at `t`. */
    ghost function ServedFirst(desks: seq<Desk>, t: Ticker, n: nat): (r: seq<Desk>)
      requires |desks| == |runners|
      ensures |r| == |desks|
    {
      seq(|desks|, i requires 0 <= i < |desks| =>
        if i < n then Served(desks[i], runners[i].om.simulator.mode, t) else desks[i])
    }

    /** The first `n` strategies have answered the tick. */
    ghost function AnsweredFirst(desks: seq<Desk>, places: seq<Positions>, balance: real, n: nat): (r: seq<Desk>)
      requires |desks| == |places| == |runners|
      ensures |r| == |desks|
    {
      seq(|desks|, i requires 0 <= i < |desks| => if i < n then Answered(desks[i], places[i], balance) else desks[i])
    }

    lemma ServedNext(desks: seq<Desk>, t: Ticker, k: nat)
      requires k < |desks| == |runners|
      ensures ServedFirst(desks, t, k)[k] == desks[k]
      ensures ServedFirst(desks, t, k)[k := Served(desks[k], runners[k].om.simulator.mode, t)]
           == ServedFirst(desks, t, k + 1)
    {
      hide Served;
    }

    lemma AnsweredNext(desks: seq<Desk>, places: seq<Positions>, balance: real, k: nat)
      requires k < |desks| == |places| == |runners|
      ensures AnsweredFirst(desks, places, balance, k)[k] == desks[k]
      ensures AnsweredFirst(desks, places, balance, k)[k := Answered(desks[k], places[k], balance)]
           == AnsweredFirst(desks, places, balance, k + 1)
    {
      hide Answered;
    }

    lemma NoneServed(desks: seq<Desk>, t: Ticker)
      requires |desks| == |runners|
      ensures ServedFirst(desks, t, 0) == desks
    {
    }

    lemma NoneAnswered(desks: seq<Desk>, places: seq<Positions>, balance: real)
      requires |desks| == |places| == |runners|
      ensures AnsweredFirst(desks, places, balance, 0) == desks
    {
    }

    /** The executions of the first strategies are the full fills of the orders the market filled. */
    ghost predicate Took(desks: seq<Desk>, t: Ticker, taken: seq<seq<Order>>, fills: seq<seq<Execution>>) {
      && |taken| == |fills| <= |runners| == |desks|
      && forall i :: 0 <= i < |fills| ==>
           && taken[i] == FilledAt(desks[i], runners[i].om.simulator.mode, t)
           && FullFillsOf(fills[i], taken[i], runners[i].om.commissionRate, t.exchangeTs)
    }

    /** The first strategies moved by their fills, each direction by its share, the others not at all. */
    ghost predicate AllMoved(before: seq<Positions>, after: seq<Positions>, fills: seq<seq<Execution>>) {
      && |before| == |after| == |runners| && |fills| <= |runners|
      && (forall i :: 0 <= i < |fills| ==> PlaceMoved(i, before[i], after[i], fills[i]))
      && forall i :: |fills| <= i < |runners| ==> after[i] == before[i]
    }

    ghost predicate PlaceMoved(i: nat, before: Positions, after: Positions, fills: seq<Execution>)
      requires i < |runners|
    {
      && runners[i].Moved(Long, before.long, after.long, fills)
      && runners[i].Moved(Short, before.short, after.short, fills)
    }

    /** One tick took the strategies from `before` to the round's places and from `desks` to its desks:
        funding first, then each direction by the full fills of exactly the orders the market filled,
        then every strategy's answer to the tick, executed over the orders left resting and sized at the
        balance of the tick's equity point. */
    ghost predicate IsRound(before: seq<Positions>, desks: seq<Desk>, t: Ticker, round: Round) {
      && |before| == |round.filled| == |round.fills| == |round.places| == |desks| == |runners|
      && AllMoved(AfterFunding(before, round.funded, t.lastPrice), round.places, round.fills)
      && Took(desks, t, round.filled, round.fills)
      && round.desks == AnsweredFirst(ServedFirst(desks, t, |runners|), round.places,
                                      session.initialBalance + TotalAt(round.places, t.lastPrice), |runners|)
    }

    /** The session holds what the trackers booked, and nothing is pending. */
    ghost predicate SessionHolds(places: seq<Positions>)
      reads session`trades, session`totalRealizedPnl, session`totalCommission, session`totalVolume
      reads session`totalFunding, session`pendingRealizedPnl, session`pendingCommission
    {
      && session.TotalsOk() && session.pendingRealizedPnl == session.pendingCommission == 0.0
      && session.Net() == Sum(Bookings(places))
    }

    /** Session and strategies agree on where the positions stand and on what they have booked. */
    ghost predicate Agreed(places: seq<Positions>)
      reads session`trades, session`totalRealizedPnl, session`totalCommission, session`totalVolume
      reads session`totalFunding, session`pendingRealizedPnl, session`pendingCommission
      reads set r <- runners :: r.longTracker, set r <- runners :: r.shortTracker
    {
      Standing(places) && SessionHolds(places)
    }

    constructor (session: BacktestSession, runners: seq<BacktestRunner>, funding: FundingSimulator?,
                 windDownMode: WindDownMode)
      ensures this.session == session && this.runners == runners && this.funding == funding
      ensures this.windDownMode == windDownMode
      ensures lastPrice == None
    {
      this.session, this.runners, this.funding, this.windDownMode := session, runners, funding, windDownMode;
      lastPrice, lastTimestamp := None, 0;
    }

    // ---------- one strategy's step, seen from the session ----------

    method FundingOf(k: nat, rate: real, price: real, ghost places: seq<Positions>)
      returns (ghost places': seq<Positions>)
      requires Separate() && k < |runners| && AllReady() && Agreed(places)
      modifies runners[k].longTracker, runners[k].shortTracker, session`totalFunding
      ensures AllReady() && Agreed(places') && places' == places[k := FundedPlace(places[k], rate, price)]
      ensures session.totalFunding == old(session.totalFunding) + Receives(places[k], rate, price)
    {
      hide Ready, BacktestRunner.Parts, BacktestRunner.Trading, BacktestSession.TotalsOk, BacktestRunner.TrackerNet;
      hide BacktestRunner.FundingDue, BacktestRunner.ReplayState, BacktestRunner.Where, FundedAt, FundedPlace, Receives;
      hide Booked, Bookings, Sum, Served, BacktestRunner.CachedUnrealized;
      var r := runners[k];
      Owns(r);
      ReadyIs(r);
      PlaceIs(r);
      SameWhere(r);
      ghost var before := r.ReplayState();
      var paid := r.ApplyFunding(rate, price);
      ReadyAgain(r);
      PlaceIs(r);
      FundedPlaceIs(r, before, rate, price);
      forall i | 0 <= i < |runners| && i != k
        ensures Ready(runners[i]) && runners[i].Where() == old(runners[i].Where())
      {
        assert runners[i] in runners;
        Apart(i, k);
        Owns(runners[i]);
        Untouched(runners[i]);
      }
      places' := places[k := r.Where()];
      BookingsUpdate(places, k, r.Where());
    }

    method FillsOf(k: nat, tick: Tick, ghost places: seq<Positions>, ghost desks: seq<Desk>)
      returns (ghost p: Positions, ghost orders: seq<Order>, ghost done: seq<Execution>)
      requires Separate() && k < |runners| && AllReady() && Agreed(places) && Seated(desks)
      modifies runners[k].Parts(), session`trades, session`totalRealizedPnl, session`totalCommission
      modifies session`totalVolume, session`currentBalance
      ensures AllReady() && Agreed(places[k := p]) && PlaceMoved(k, places[k], p, done)
      ensures Seated(desks[k := Served(desks[k], runners[k].om.simulator.mode, tick.ticker)])
      ensures orders == FilledAt(desks[k], runners[k].om.simulator.mode, tick.ticker)
      ensures FullFillsOf(done, orders, runners[k].om.commissionRate, tick.ticker.exchangeTs)
    {
      hide Ready, BacktestRunner.Parts, BacktestRunner.Trading, BacktestSession.TotalsOk, BacktestRunner.TrackerNet;
      hide BacktestRunner.TradesFollow, BacktestRunner.Moved, BacktestRunner.TakenFromBook, BacktestRunner.Core;
      hide BacktestRunner.Where, BacktestSession.Net, Sum, FullFillsOf, Booked, Bookings, DeskOf;
      hide AfterFills, Advanced, PriceBefore, Served, FilledAt, AskedTimes, Filling, Resting, WithStatus;
      hide BacktestRunner.PositionsOk, BacktestRunner.CachedUnrealized, BacktestRunner.FilledReached;
      hide OpenProfit, Receives, UnrealisedPnl, Payment;
      var r := runners[k];
      Owns(r);
      ReadyIs(r);
      PlaceIs(r);
      SameWhere(r);
      DeskIs(r);
      done := r.ProcessSimulatedFills(tick);
      DeskIs(r);
      orders := FilledAt(desks[k], r.om.simulator.mode, tick.ticker);
      DeskServed(r, desks[k], tick.ticker, done);
      ReadyAgain(r);
      PlaceIs(r);
      SameWhere(r);
      forall i | 0 <= i < |runners| && i != k
        ensures Ready(runners[i]) && runners[i].Where() == old(runners[i].Where())
        ensures DeskOf(runners[i]) == old(DeskOf(runners[i]))
      {
        assert runners[i] in runners;
        Apart(i, k);
        Owns(runners[i]);
        Untouched(runners[i]);
      }
      p := r.Where();
      BookingsUpdate(places, k, p);
    }

    /** What the runner says of the market's fills is what the functions say. */
    lemma DeskServed(r: BacktestRunner, d: Desk, t: Ticker, done: seq<Execution>)
      requires r.TakenFromBook(t, d.book.active, d.book.filled, done)
      requires r.om.simulator.View() == Advanced(d.market, t)
      requires r.om.simulator.PrevOf(t.symbol) == PriceBefore(r.om.simulator.View(), t.symbol)
      requires r.om.View() == AfterFills(d.book, r.om.simulator.mode, r.om.simulator.PrevOf(t.symbol), t)
      requires r.engine.View() == AskedTimes(d.script, |done|)
      ensures DeskOf(r) == Served(d, r.om.simulator.mode, t)
      ensures FullFillsOf(done, FilledAt(d, r.om.simulator.mode, t), r.om.commissionRate, t.exchangeTs)
    {
      hide Filling, Resting, AfterFills, Advanced, PriceBefore, AskedTimes;
    }

    method UnrealizedOf(k: nat, price: real, ghost places: seq<Positions>) returns (u: real)
      requires Separate() && k < |runners| && AllPositionsOk() && Standing(places) && Valued(places, price, k)
      modifies runners[k].longTracker, runners[k].shortTracker
      ensures AllPositionsOk() && Standing(places) && Valued(places, price, k + 1)
      ensures u == OpenProfit(places[k], price)
      ensures old(AllReady()) ==> AllReady()
      ensures old(Flat(|runners|)) ==> Flat(|runners|)
    {
      hide Ready, BacktestRunner.PositionsOk, BacktestRunner.Parts, BacktestRunner.TrackerNet, OpenProfit;
      hide BacktestRunner.CachedUnrealized, BacktestRunner.Where, BacktestRunner.UnrealizedAt, Served, UnrealisedPnl;
      var r := runners[k];
      assert r in runners;
      Owns(r);
      PlaceIs(r);
      u := r.CalculateUnrealized(price);
      PlaceIs(r);
      StillReady(r);
      forall i | 0 <= i < |runners| && i != k
        ensures runners[i].PositionsOk() && Ready(runners[i]) == old(Ready(runners[i]))
        ensures runners[i].Where() == old(runners[i].Where())
        ensures runners[i].CachedUnrealized() == old(runners[i].CachedUnrealized())
        ensures runners[i].SizeOf(Long) == old(runners[i].SizeOf(Long))
        ensures runners[i].SizeOf(Short) == old(runners[i].SizeOf(Short))
      {
        assert runners[i] in runners;
        Apart(i, k);
        Owns(runners[i]);
        Untouched(runners[i]);
      }
    }

    method OrdersOf(k: nat, ghost places: seq<Positions>, ghost price: real, ghost desks: seq<Desk>)
      requires Separate() && k < |runners| && AllReady() && Agreed(places) && Valued(places, price, |runners|)
      requires Seated(desks)
      modifies runners[k].Parts(), session
      ensures AllReady() && Agreed(places) && Valued(places, price, |runners|)
      ensures Seated(desks[k := Answered(desks[k], places[k], session.currentBalance)])
      ensures unchanged(session)
    {
      hide Ready, BacktestRunner.Parts, BacktestRunner.Trading, BacktestSession.TotalsOk, BacktestRunner.TrackerNet;
      hide BacktestRunner.CachedUnrealized, BacktestRunner.LifeView, BacktestRunner.Where, DeskOf;
      hide BacktestRunner.LifeSettled, AfterIntents, OpenProfit, Bookings, Sum, BacktestRunner.ReplayState;
      hide ExecutedAll;
      var r := runners[k];
      Owns(r);
      ReadyIs(r);
      DeskIs(r);
      var intents := r.ExecuteTick();
      DeskIs(r);
      ReadyAgain(r);
      SamePlace(r);
      forall i | 0 <= i < |runners| && i != k
        ensures Ready(runners[i]) && runners[i].Where() == old(runners[i].Where())
        ensures runners[i].CachedUnrealized() == old(runners[i].CachedUnrealized())
        ensures DeskOf(runners[i]) == old(DeskOf(runners[i]))
      {
        assert runners[i] in runners;
        Apart(i, k);
        Owns(runners[i]);
        Untouched(runners[i]);
      }
    }

    twostate lemma SamePlace(r: BacktestRunner)
      requires unchanged(r.longTracker, r.shortTracker)
      ensures r.Where() == old(r.Where()) && r.CachedUnrealized() == old(r.CachedUnrealized())
    {
    }

    // ---------- one tick ----------

    method ApplyFunding(rate: real, price: real, ghost places: seq<Positions>)
      requires Separate() && AllReady() && Agreed(places)
      modifies set r <- runners :: r.longTracker, set r <- runners :: r.shortTracker, session`totalFunding
      ensures AllReady() && Agreed(AfterFunding(places, Some(rate), price))
      ensures session.totalFunding == old(session.totalFunding) + Sum(Dues(places, rate, price))
      ensures session.totalFunding == old(session.totalFunding) - Sum(NetSizes(places)) * price * rate
    {
      hide AllReady, Agreed, Separate, Sum, FundedPlaces, FundedPlace, Receives;
      ghost var dues := Dues(places, rate, price);
      DuesAreOnNetSize(places, rate, price);
      PlacesMatch(places);
      SumOfNone();
      NothingFunded(places, rate, price);
      assert dues[..0] == [];
      for k := 0 to |runners|
        invariant AllReady() && Agreed(FundedPlaces(places, rate, price, k))
        invariant session.totalFunding == old(session.totalFunding) + Sum(dues[..k])
      {
        OwnedHas(k);
        FundingUpdates(places, rate, price, k);
        ghost var places' := FundingOf(k, rate, price, FundedPlaces(places, rate, price, k));
        SumPush(dues[..k], dues[k]);
        assert dues[..k + 1] == dues[..k] + [dues[k]];
      }
      assert dues[..|runners|] == dues;
    }

    lemma PlacesMatch(places: seq<Positions>)
      requires Agreed(places)
      ensures |places| == |runners|
    {
    }

    method ProcessFills(tick: Tick, ghost before: seq<Positions>, ghost desks: seq<Desk>)
      returns (ghost taken: seq<seq<Order>>, ghost fills: seq<seq<Execution>>, ghost places: seq<Positions>)
      requires Separate() && AllReady() && Agreed(before) && Seated(desks)
      modifies Owned(), session`trades, session`totalRealizedPnl, session`totalCommission, session`totalVolume
      modifies session`currentBalance
      ensures |desks| == |runners| == |fills|
      ensures AllReady() && Agreed(places) && Seated(ServedFirst(desks, tick.ticker, |runners|))
      ensures Took(desks, tick.ticker, taken, fills) && AllMoved(before, places, fills)
    {
      hide AllReady, Agreed, Seated, Separate, BacktestRunner.Parts, Owned, PlaceMoved, ServedFirst, FilledAt;
      hide FullFillsOf, Served;
      PlacesMatch(before);
      DesksMatch(desks);
      NoneServed(desks, tick.ticker);
      taken, fills, places := [], [], before;
      for k := 0 to |runners|
        invariant AllReady() && Agreed(places) && Seated(ServedFirst(desks, tick.ticker, k))
        invariant Took(desks, tick.ticker, taken, fills) && |fills| == k && AllMoved(before, places, fills)
      {
        OwnedHas(k);
        ServedNext(desks, tick.ticker, k);
        ghost var p, orders, done := FillsOf(k, tick, places, ServedFirst(desks, tick.ticker, k));
        taken, fills, places := taken + [orders], fills + [done], places[k := p];
      }
    }

    lemma DesksMatch(desks: seq<Desk>)
      requires Seated(desks)
      ensures |desks| == |runners|
    {
    }

    lemma StandingIs(places: seq<Positions>)
      requires Standing(places)
      ensures |places| == |runners|
      ensures forall price :: Valued(places, price, 0) && |OpenProfits(places, price)| == |places|
      ensures forall price, k :: 0 <= k < |places| ==>
        k < |OpenProfits(places, price)| && OpenProfits(places, price)[k] == OpenProfit(places[k], price)
    {
    }

    method CalculateUnrealizedAtPrice(price: real, ghost places: seq<Positions>) returns (total: real)
      requires Separate() && AllPositionsOk() && Standing(places)
      modifies set r <- runners :: r.longTracker, set r <- runners :: r.shortTracker
      ensures AllPositionsOk() && Standing(places) && Valued(places, price, |runners|)
      ensures total == Sum(OpenProfits(places, price))
      ensures old(AllReady()) ==> AllReady()
      ensures old(Flat(|runners|)) ==> Flat(|runners|)
    {
      hide *;
      StandingIs(places);
      total := 0.0;
      SumOfNone();
      ghost var values := OpenProfits(places, price);
      assert values[..0] == [];
      for k := 0 to |runners|
        invariant AllPositionsOk() && Standing(places) && Valued(places, price, k) && total == Sum(values[..k])
        invariant old(AllReady()) ==> AllReady()
        invariant old(Flat(|runners|)) ==> Flat(|runners|)
      {
        OwnedHas(k);
        var u := UnrealizedOf(k, price, places);
        SumPush(values[..k], values[k]);
        assert values[..k + 1] == values[..k] + [values[k]];
        total := total + u;
      }
      assert values[..|runners|] == values;
    }

    lemma SumOfNone()
      ensures Sum([]) == 0.0
    {
    }

    method ExecuteTicks(ghost places: seq<Positions>, ghost price: real, ghost desks: seq<Desk>)
      requires Separate() && AllReady() && Agreed(places) && Valued(places, price, |runners|) && Seated(desks)
      modifies Owned(), session
      ensures |desks| == |places| == |runners|
      ensures AllReady() && Agreed(places) && Valued(places, price, |runners|)
      ensures Seated(AnsweredFirst(desks, places, session.currentBalance, |runners|))
      ensures unchanged(session)
    {
      hide AllReady, Agreed, Valued, Seated, Separate, BacktestRunner.Parts, Owned, AnsweredFirst, Answered;
      PlacesMatch(places);
      DesksMatch(desks);
      NoneAnswered(desks, places, session.currentBalance);
      for k := 0 to |runners|
        invariant AllReady() && Agreed(places) && Valued(places, price, |runners|)
        invariant Seated(AnsweredFirst(desks, places, session.currentBalance, k))
        invariant unchanged(session)
      {
        OwnedHas(k);
        AnsweredNext(desks, places, session.currentBalance, k);
        OrdersOf(k, places, price, AnsweredFirst(desks, places, session.currentBalance, k));
      }
    }

    /** Sum over the first `n` strategies of what both of their trackers report as total profit. */
    ghost function TotalPnl(n: nat): real
      requires n <= |runners|
      reads set r <- runners :: r.longTracker, set r <- runners :: r.shortTracker
    {
      if n == 0 then 0.0
      else
        assert runners[n - 1] in runners;
        TotalPnl(n - 1) + runners[n - 1].longTracker.TotalPnl() + runners[n - 1].shortTracker.TotalPnl()
    }

    /** What the trackers report is what the positions have booked plus what they hold open. */
    lemma {:induction false} ReportedIsWorth(places: seq<Positions>, price: real, n: nat)
      requires Standing(places) && Valued(places, price, n)
      ensures TotalPnl(n) == Sum(Bookings(places)[..n]) + Sum(OpenProfits(places, price)[..n])
    {
      hide OpenProfit, BacktestRunner.Where;
      if n > 0 {
        ReportedIsWorth(places, price, n - 1);
        var nets, values := Bookings(places), OpenProfits(places, price);
        PlaceIs(runners[n - 1]);
        SumPush(nets[..n - 1], nets[n - 1]);
        SumPush(values[..n - 1], values[n - 1]);
        assert nets[..n] == nets[..n - 1] + [nets[n - 1]] && values[..n] == values[..n - 1] + [values[n - 1]];
      }
    }

    lemma Worth(places: seq<Positions>, price: real)
      requires Standing(places) && Valued(places, price, |runners|)
      ensures TotalPnl(|runners|) == TotalAt(places, price)
    {
      hide OpenProfit, BacktestRunner.Where, Sum;
      ReportedIsWorth(places, price, |runners|);
      var nets, values := Bookings(places), OpenProfits(places, price);
      assert nets[..|runners|] == nets && values[..|runners|] == values;
    }

    lemma SessionWorth(places: seq<Positions>, price: real, total: real)
      requires Agreed(places) && Valued(places, price, |runners|) && total == Sum(OpenProfits(places, price))
      ensures session.PnlDelta(total) == TotalPnl(|runners|) == TotalAt(places, price)
    {
      hide OpenProfit, BacktestRunner.Where, Sum, Bookings, OpenProfits;
      Worth(places, price);
    }

    /** When funding was last applied and how often. */
    ghost function Clock(): (Option<int>, nat)
      reads funding
    {
      if funding == null then (None, 0) else (funding.lastFundingTime, funding.applications)
    }

    ghost predicate FundingIsDue(clock: (Option<int>, nat), t: int) {
      funding != null && ShouldApply(clock.0, t)
    }

    /** Funding is marked and counted at `t` exactly when it is due. */
    ghost function ClockAfter(clock: (Option<int>, nat), t: int): (Option<int>, nat) {
      if FundingIsDue(clock, t) then (Some(t), clock.1 + 1) else clock
    }

    /** The rate charged at a tick, if funding is due. */
    ghost function RateDue(clock: (Option<int>, nat), t: int): Option<real> {
      if FundingIsDue(clock, t) then Some(funding.rate) else None
    }

    /** What the session receives as funding at a tick. */
    ghost function FundingTotal(places: seq<Positions>, funded: Option<real>, price: real): real {
      if funded.Some? then Sum(Dues(places, funded.value, price)) else 0.0
    }

    method MaybeApplyFunding(tick: Tick, ghost places: seq<Positions>) returns (ghost funded: Option<real>)
      requires Separate() && AllReady() && Agreed(places)
      modifies set r <- runners :: r.longTracker, set r <- runners :: r.shortTracker, session`totalFunding, funding
      ensures funded == RateDue(old(Clock()), tick.ticker.exchangeTs)
      ensures Clock() == ClockAfter(old(Clock()), tick.ticker.exchangeTs)
      ensures AllReady() && Agreed(AfterFunding(places, funded, tick.ticker.lastPrice))
      ensures session.totalFunding == old(session.totalFunding) + FundingTotal(places, funded, tick.ticker.lastPrice)
    {
      hide AllReady, Agreed, Separate, Sum, ShouldApply, FundedPlaces, Dues;
      funded := None;
      if funding != null && funding.ShouldApplyFunding(tick.ticker.exchangeTs) {
        ApplyFunding(funding.rate, tick.ticker.lastPrice, places);
        funding.MarkFundingApplied(tick.ticker.exchangeTs);
        funded := Some(funding.rate);
      }
    }

    /** OpenProfits every position at `price` and records the equity point. */
    method MarkEquity(ts: int, price: real, ghost places: seq<Positions>)
      requires Separate() && AllReady() && Agreed(places) && session.DrawdownOk()
      modifies set r <- runners :: r.longTracker, set r <- runners :: r.shortTracker
      modifies session`equityCurve, session`currentBalance, session`peakEquity
      modifies session`maxDrawdown, session`maxDrawdownDuration, session`currentDrawdownDuration
      ensures AllReady() && Agreed(places) && session.DrawdownOk() && Valued(places, price, |runners|)
      ensures session.equityCurve == old(session.equityCurve) + [(ts, session.initialBalance + TotalAt(places, price))]
      ensures session.currentBalance == session.initialBalance + TotalAt(places, price)
    {
      hide *;
      ReadyArePositionsOk();
      AgreedIs(places);
      var total := CalculateUnrealizedAtPrice(price, places);
      session.UpdateEquity(ts, total);
      StillAgreed(places);
      SessionWorth(places, price, total);
    }

    lemma AgreedIs(places: seq<Positions>)
      requires Agreed(places)
      ensures Standing(places) && SessionHolds(places)
    {
    }

    lemma StillAgreed(places: seq<Positions>)
      requires Standing(places) && SessionHolds(places)
      ensures Agreed(places)
    {
    }

    /** Funding, then the fills of all strategies. */
    method SettleFills(tick: Tick, ghost places: seq<Positions>, ghost desks: seq<Desk>)
      returns (ghost funded: Option<real>, ghost taken: seq<seq<Order>>, ghost fills: seq<seq<Execution>>,
               ghost after: seq<Positions>)
      requires Separate() && AllReady() && Agreed(places) && Seated(desks)
      modifies Owned(), session`trades, session`totalRealizedPnl, session`totalCommission, session`totalVolume
      modifies session`totalFunding, session`currentBalance, funding
      ensures |desks| == |runners| == |fills|
      ensures AllReady() && Agreed(after) && Seated(ServedFirst(desks, tick.ticker, |runners|))
      ensures Took(desks, tick.ticker, taken, fills)
      ensures AllMoved(AfterFunding(places, funded, tick.ticker.lastPrice), after, fills)
      ensures funded == RateDue(old(Clock()), tick.ticker.exchangeTs)
      ensures Clock() == ClockAfter(old(Clock()), tick.ticker.exchangeTs)
      ensures session.totalFunding == old(session.totalFunding) + FundingTotal(places, funded, tick.ticker.lastPrice)
    {
      hide *;
      NotOwned();
      OwnedHasTrackers();
      funded := MaybeApplyFunding(tick, places);
      taken, fills, after := ProcessFills(tick, AfterFunding(places, funded, tick.ticker.lastPrice), desks);
    }

    /** Then the equity point that reflects them. */
    method SettleTick(tick: Tick, ghost places: seq<Positions>, ghost desks: seq<Desk>)
      returns (ghost funded: Option<real>, ghost taken: seq<seq<Order>>, ghost fills: seq<seq<Execution>>,
               ghost after: seq<Positions>)
      requires Separate() && AllReady() && Agreed(places) && session.DrawdownOk() && Seated(desks)
      modifies Owned(), session, funding
      ensures |desks| == |runners| == |fills|
      ensures AllReady() && Agreed(after) && session.DrawdownOk() && Valued(after, tick.ticker.lastPrice, |runners|)
      ensures Seated(ServedFirst(desks, tick.ticker, |runners|)) && Took(desks, tick.ticker, taken, fills)
      ensures AllMoved(AfterFunding(places, funded, tick.ticker.lastPrice), after, fills)
      ensures funded == RateDue(old(Clock()), tick.ticker.exchangeTs)
      ensures Clock() == ClockAfter(old(Clock()), tick.ticker.exchangeTs)
      ensures session.totalFunding == old(session.totalFunding) + FundingTotal(places, funded, tick.ticker.lastPrice)
      ensures session.currentBalance == session.initialBalance + TotalAt(after, tick.ticker.lastPrice)
      ensures session.equityCurve
           == old(session.equityCurve) + [(tick.ticker.exchangeTs, session.currentBalance)]
    {
      hide *;
      NotOwned();
      OwnedHasTrackers();
      funded, taken, fills, after := SettleFills(tick, places, desks);
      MarkEquity(tick.ticker.exchangeTs, tick.ticker.lastPrice, after);
    }

    lemma TookIsRound(before: seq<Positions>, desks: seq<Desk>, t: Ticker, round: Round)
      requires Took(desks, t, round.filled, round.fills) && |round.fills| == |round.places| == |runners|
      requires AllMoved(AfterFunding(before, round.funded, t.lastPrice), round.places, round.fills)
      requires round.desks == AnsweredFirst(ServedFirst(desks, t, |runners|), round.places,
                                            session.initialBalance + TotalAt(round.places, t.lastPrice), |runners|)
      ensures IsRound(before, desks, t, round)
    {
      hide PlaceMoved, FilledAt, FullFillsOf, AnsweredFirst, ServedFirst, TotalAt, FundedPlaces;
    }

    /** One tick: funding, fills, equity, then the strategies' orders, sized at the balance of the
        equity point. That point is the initial balance plus what the trackers report, and the orders
        change neither. */
    method ProcessTick(tick: Tick, ghost places: seq<Positions>, ghost desks: seq<Desk>) returns (ghost round: Round)
      requires Separate() && AllReady() && Agreed(places) && session.DrawdownOk() && Seated(desks)
      modifies this, Owned(), session, funding
      ensures AllReady() && Agreed(round.places) && session.DrawdownOk() && Seated(round.desks)
      ensures IsRound(places, desks, tick.ticker, round)
      ensures round.funded == RateDue(old(Clock()), tick.ticker.exchangeTs)
      ensures Clock() == ClockAfter(old(Clock()), tick.ticker.exchangeTs)
      ensures session.totalFunding
           == old(session.totalFunding) + FundingTotal(places, round.funded, tick.ticker.lastPrice)
      ensures session.equityCurve
           == old(session.equityCurve) + [(tick.ticker.exchangeTs, session.initialBalance + TotalPnl(|runners|))]
      ensures TotalPnl(|runners|) == TotalAt(round.places, tick.ticker.lastPrice)
      ensures lastPrice == Some(tick.ticker.lastPrice) && lastTimestamp == tick.ticker.exchangeTs
    {
      hide *;
      NotOwned();
      OwnedHasTrackers();
      lastPrice, lastTimestamp := Some(tick.ticker.lastPrice), tick.ticker.exchangeTs;
      ghost var funded, taken, fills, after := SettleTick(tick, places, desks);
      ExecuteTicks(after, tick.ticker.lastPrice, ServedFirst(desks, tick.ticker, |runners|));
      ghost var served := ServedFirst(desks, tick.ticker, |runners|);
      round := Round(funded, taken, fills, after, AnsweredFirst(served, after, session.currentBalance, |runners|));
      TookIsRound(places, desks, tick.ticker, round);
      AgreedIs(after);
      Worth(after, tick.ticker.lastPrice);
    }

    // ---------- the end of the run ----------

    /** Closing one position of strategy `k`, seen from the session. */
    method CloseOf(k: nat, direction: Direction, price: real, ghost places: seq<Positions>)
      returns (r: Result<()>, ghost places': seq<Positions>)
      requires Separate() && k < |runners|
      requires AllPositionsOk() && Agreed(places) && Flat(k)
      modifies runners[k].longTracker, runners[k].shortTracker, session`trades, session`totalRealizedPnl
      modifies session`totalCommission, session`totalVolume
      ensures r.Err? <==> old(runners[k].SizeOf(direction)) > 0.0 && price <= 0.0
      ensures AllPositionsOk() && Agreed(places') && Flat(k)
      ensures r.Ok? ==> runners[k].SizeOf(direction) == 0.0
      ensures runners[k].SizeOf(Other(direction)) == old(runners[k].SizeOf(Other(direction)))
      ensures r.Err? ==> !Flat(|runners|)
      ensures old(Flat(|runners|)) ==> Flat(|runners|)
      ensures price <= 0.0 && Flat(|runners|) ==> old(Flat(|runners|))
      ensures |places'| == |places| == |runners| && places' == places[k := places'[k]]
      ensures Of(places'[k], Other(direction)).size == Of(places[k], Other(direction)).size
      ensures r.Ok? ==>
        TotalAt(places', price) == TotalAt(places, price)
                                   - Commission(runners[k].om.commissionRate, Of(places[k], direction).size, price)
    {
      hide BacktestRunner.PositionsOk, BacktestSession.TotalsOk, BacktestRunner.TrackerNet, BacktestRunner.Parts;
      hide BacktestRunner.SizeOf, BacktestRunner.Where, Booked, Bookings, Sum, WorthOf, TotalAt, Commission;
      var runner := runners[k];
      Owns(runner);
      assert runner in runners;
      SizesAreSizes(runner);
      PlaceIs(runner);
      r := ForceClosePosition(session, runner, direction, price, lastTimestamp);
      forall i | 0 <= i < |runners| && i != k
        ensures runners[i].PositionsOk() && runners[i].Where() == old(runners[i].Where())
        ensures runners[i].SizeOf(Long) == old(runners[i].SizeOf(Long))
        ensures runners[i].SizeOf(Short) == old(runners[i].SizeOf(Short))
      {
        assert runners[i] in runners;
        Apart(i, k);
        Owns(runners[i]);
        SamePlace(runners[i]);
      }
      SizesAreSizes(runner);
      PlaceIs(runner);
      places' := places[k := runner.Where()];
      BookingsUpdate(places, k, runner.Where());
      TotalUpdate(places, price, k, runner.Where());
    }

    /** The fees of closing every position at a price, strategy by strategy. */
    ghost function ClosingFees(places: seq<Positions>, price: real): (r: seq<real>)
      requires |places| == |runners|
      ensures |r| == |places|
    {
      seq(|places|, i requires 0 <= i < |places| =>
        var rate := runners[i].om.commissionRate;
        Commission(rate, places[i].long.size, price) + Commission(rate, places[i].short.size, price))
    }

    lemma SizesAreSizes(r: BacktestRunner)
      requires r.PositionsOk()
      ensures forall d :: r.SizeOf(d) == Of(r.Where(), d).size
      ensures r.SizeOf(Long) >= 0.0 && r.SizeOf(Short) >= 0.0
    {
    }

    lemma FlatSoFar(n: nat)
      requires n > 0 ==>
        Flat(n - 1) && (n <= |runners| ==> runners[n - 1].SizeOf(Long) == runners[n - 1].SizeOf(Short) == 0.0)
      ensures Flat(n)
    {
    }

    /** Closes every open position at the last price, when so configured. Closing at that price costs
        the fees and nothing else. */
    method WindDown(ghost places: seq<Positions>) returns (r: Result<()>, ghost places': seq<Positions>)
      requires Separate() && AllPositionsOk() && Agreed(places)
      modifies set r <- runners :: r.longTracker, set r <- runners :: r.shortTracker
      modifies session`trades, session`totalRealizedPnl, session`totalCommission, session`totalVolume
      ensures r.Err? <==> windDownMode == CloseAll && lastPrice.Some? && lastPrice.value <= 0.0 && !old(Flat(|runners|))
      ensures r.Err? ==> !Flat(|runners|)
      ensures |places| == |runners|
      ensures r.Ok? ==> AllPositionsOk() && Agreed(places')
      ensures r.Ok? && windDownMode == CloseAll && lastPrice.Some? ==> Flat(|runners|)
      ensures r.Ok? && windDownMode == CloseAll && lastPrice.Some? ==>
        TotalAt(places', lastPrice.value)
          == TotalAt(places, lastPrice.value) - Sum(ClosingFees(places, lastPrice.value))
      ensures windDownMode == LeaveOpen || lastPrice.None? ==> places' == places
      ensures lastPrice.None? && old(Idle()) ==> Idle()
    {
      hide *;
      OtherIs();
      PlacesMatch(places);
      places' := places;
      FlatSoFar(0);
      if windDownMode == LeaveOpen || lastPrice.None? {
        return Ok(()), places;
      }
      ghost var price := lastPrice.value;
      ghost var fees := ClosingFees(places, price);
      NoFees(fees);
      for k := 0 to |runners|
        invariant AllPositionsOk() && Agreed(places') && Flat(k)
        invariant old(Flat(|runners|)) ==> Flat(|runners|)
        invariant lastPrice.value <= 0.0 && Flat(|runners|) ==> old(Flat(|runners|))
        invariant |places'| == |places| && forall i :: k <= i < |runners| ==> places'[i] == places[i]
        invariant TotalAt(places', price) == TotalAt(places, price) - Sum(fees[..k])
      {
        OwnedHas(k);
        r, places' := CloseOf(k, Long, lastPrice.value, places');
        if r.Err? {
          return;
        }
        r, places' := CloseOf(k, Short, lastPrice.value, places');
        if r.Err? {
          return;
        }
        FlatSoFar(k + 1);
        FeesPush(places, price, k);
        BothSizes(places[k]);
      }
      AllFees(fees);
      r := Ok(());
    }

    lemma NoFees(fees: seq<real>)
      ensures Sum(fees[..0]) == 0.0
    {
    }

    lemma AllFees(fees: seq<real>)
      ensures Sum(fees[..|fees|]) == Sum(fees)
    {
      assert fees[..|fees|] == fees;
    }

    lemma BothSizes(p: Positions)
      ensures Of(p, Long) == p.long && Of(p, Short) == p.short
    {
    }

    lemma FeesPush(places: seq<Positions>, price: real, k: nat)
      requires |places| == |runners| && k < |runners|
      ensures var fees, rate := ClosingFees(places, price), runners[k].om.commissionRate;
        && |fees| == |runners|
        && Sum(fees[..k + 1]) == Sum(fees[..k])
                                 + Commission(rate, places[k].long.size, price)
                                 + Commission(rate, places[k].short.size, price)
    {
      hide Commission;
      var fees := ClosingFees(places, price);
      SumPush(fees[..k], fees[k]);
      assert fees[..k + 1] == fees[..k] + [fees[k]];
    }

    method CalculateTotalUnrealized(ghost places: seq<Positions>) returns (total: real)
      requires Separate() && AllPositionsOk() && Agreed(places) && (lastPrice.None? ==> Idle())
      modifies set r <- runners :: r.longTracker, set r <- runners :: r.shortTracker
      ensures Agreed(places) && session.PnlDelta(total) == TotalPnl(|runners|)
      ensures lastPrice.Some? ==> TotalPnl(|runners|) == TotalAt(places, lastPrice.value)
      ensures old(Flat(|runners|)) ==> Flat(|runners|)
    {
      hide AllPositionsOk, Agreed, Standing, Valued, SessionHolds, Separate, TotalPnl, Sum, TotalAt, Flat;
      AgreedIs(places);
      if lastPrice.Some? {
        total := CalculateUnrealizedAtPrice(lastPrice.value, places);
        StillAgreed(places);
        SessionWorth(places, lastPrice.value, total);
      } else {
        total := 0.0;
        NothingOpen(places);
      }
    }

    lemma NothingOpen(places: seq<Positions>)
      requires Idle() && Agreed(places)
      ensures session.PnlDelta(0.0) == TotalPnl(|runners|)
    {
      hide Sum, Bookings, TotalPnl, BacktestRunner.Where, BacktestRunner.CachedUnrealized;
      OnlyBooked(places, |runners|);
      assert Bookings(places)[..|runners|] == Bookings(places);
    }

    lemma {:induction false} OnlyBooked(places: seq<Positions>, n: nat)
      requires Idle() && Standing(places) && n <= |runners|
      ensures TotalPnl(n) == Sum(Bookings(places)[..n])
    {
      hide BacktestRunner.Where;
      if n > 0 {
        OnlyBooked(places, n - 1);
        assert runners[n - 1] in runners;
        PlaceIs(runners[n - 1]);
        var nets := Bookings(places);
        SumPush(nets[..n - 1], nets[n - 1]);
        assert nets[..n] == nets[..n - 1] + [nets[n - 1]];
      }
    }

    // ---------- a whole run ----------

    ghost predicate SessionFresh()
      reads session
    {
      && session.TotalsOk() && session.DrawdownOk() && session.equityCurve == [] && session.Net() == 0.0
      && session.pendingRealizedPnl == session.pendingCommission == 0.0
    }

    ghost predicate NothingYet()
      reads set r <- runners :: r.longTracker, set r <- runners :: r.shortTracker
    {
      forall r <- runners :: r.TrackerNet() == r.CachedUnrealized() == 0.0
    }

    ghost predicate FundingFresh()
      reads funding
    {
      funding != null ==> funding.lastFundingTime == None && funding.applications == 0
    }

    lemma {:induction false} NothingBooked(places: seq<Positions>, n: nat)
      requires NothingYet() && Standing(places) && n <= |runners|
      ensures Sum(Bookings(places)[..n]) == 0.0
    {
      hide BacktestRunner.Where, Booked, BacktestRunner.CachedUnrealized, BacktestRunner.TrackerNet;
      if n > 0 {
        NothingBooked(places, n - 1);
        assert runners[n - 1] in runners;
        PlaceIs(runners[n - 1]);
        var nets := Bookings(places);
        SumPush(nets[..n - 1], nets[n - 1]);
        assert nets[..n] == nets[..n - 1] + [nets[n - 1]];
      }
    }

    lemma Start()
      requires NothingYet() && SessionFresh()
      ensures Agreed(Places(|runners|)) && Seated(DesksNow(|runners|)) && Idle() && session.DrawdownOk()
    {
      hide BacktestSession.TotalsOk, BacktestSession.DrawdownOk, Sum, BacktestRunner.Where, Bookings;
      var places := Places(|runners|);
      NothingBooked(places, |runners|);
      assert Bookings(places)[..|runners|] == Bookings(places);
    }

    /** Where the strategies' positions stand before tick `k`. */
    ghost function PlacesBefore(start: seq<Positions>, rounds: seq<Round>, k: nat): seq<Positions>
      requires k <= |rounds|
    {
      if k == 0 then start else rounds[k - 1].places
    }

    /** Where their markets, books and scripts stand before tick `k`. */
    ghost function DesksBefore(desks: seq<Desk>, rounds: seq<Round>, k: nat): seq<Desk>
      requires k <= |rounds|
    {
      if k == 0 then desks else rounds[k - 1].desks
    }

    /** The rate charged at tick `k` of a run: once per funding slot visited. */
    ghost function RateAt(ticks: seq<Tick>, k: nat): Option<real>
      requires k < |ticks|
    {
      if funding != null && AppliedAt(None, TickTimes(ticks), k) then Some(funding.rate) else None
    }

    /** Round `k` is what its tick did to the strategies where the round before left them. */
    ghost predicate RoundAt(start: seq<Positions>, desks: seq<Desk>, ticks: seq<Tick>, rounds: seq<Round>, k: nat)
      requires k < |rounds| <= |ticks|
    {
      && IsRound(PlacesBefore(start, rounds, k), DesksBefore(desks, rounds, k), ticks[k].ticker, rounds[k])
      && rounds[k].funded == RateAt(ticks, k)
    }

    ghost predicate History(start: seq<Positions>, desks: seq<Desk>, ticks: seq<Tick>, rounds: seq<Round>) {
      |rounds| <= |ticks| && forall k :: 0 <= k < |rounds| ==> RoundAt(start, desks, ticks, rounds, k)
    }

    lemma SameRound(start: seq<Positions>, desks: seq<Desk>, ticks: seq<Tick>, rounds: seq<Round>, round: Round, k: nat)
      requires k < |rounds| < |ticks|
      ensures RoundAt(start, desks, ticks, rounds + [round], k) == RoundAt(start, desks, ticks, rounds, k)
    {
      hide IsRound, RateAt;
    }

    lemma HistoryPush(start: seq<Positions>, desks: seq<Desk>, ticks: seq<Tick>, rounds: seq<Round>, round: Round)
      requires History(start, desks, ticks, rounds) && |rounds| < |ticks| && round.funded == RateAt(ticks, |rounds|)
      requires IsRound(PlacesBefore(start, rounds, |rounds|), DesksBefore(desks, rounds, |rounds|),
                       ticks[|rounds|].ticker, round)
      ensures History(start, desks, ticks, rounds + [round])
      ensures PlacesBefore(start, rounds + [round], |rounds| + 1) == round.places
      ensures DesksBefore(desks, rounds + [round], |rounds| + 1) == round.desks
    {
      hide IsRound, RateAt;
      forall k | 0 <= k <= |rounds| ensures RoundAt(start, desks, ticks, rounds + [round], k) {
        if k < |rounds| { SameRound(start, desks, ticks, rounds, round, k); }
      }
    }

    lemma HistoryBefore(start: seq<Positions>, desks: seq<Desk>, ticks: seq<Tick>, rounds: seq<Round>, round: Round)
      requires History(start, desks, ticks, rounds + [round])
      ensures History(start, desks, ticks, rounds) && |rounds| < |ticks|
      ensures RoundAt(start, desks, ticks, rounds + [round], |rounds|)
    {
      hide RoundAt;
      forall k | 0 <= k < |rounds| ensures RoundAt(start, desks, ticks, rounds, k) {
        assert RoundAt(start, desks, ticks, rounds + [round], k);
        SameRound(start, desks, ticks, rounds, round, k);
      }
    }

    /** The orders of strategy `i` filled over the rounds. */
    ghost function FilledOver(rounds: seq<Round>, i: nat): seq<Order> {
      if rounds == [] then []
      else
        var last := rounds[|rounds| - 1];
        FilledOver(rounds[..|rounds| - 1], i) + if i < |last.filled| then WithStatus(last.filled[i], Done) else []
    }

    /** Since the start, exactly the orders of the rounds were filled, in their order: orders that are
        placed or cancelled in between change nothing about that. */
    lemma {:induction false} FilledAreThose(start: seq<Positions>, desks: seq<Desk>, ticks: seq<Tick>,
                                            rounds: seq<Round>, i: nat)
      requires History(start, desks, ticks, rounds) && i < |runners| == |desks|
      ensures |DesksBefore(desks, rounds, |rounds|)| == |runners|
      ensures DesksBefore(desks, rounds, |rounds|)[i].book.filled == desks[i].book.filled + FilledOver(rounds, i)
    {
      hide History, RoundAt, IsRound, WithStatus;
      if rounds != [] {
        var n := |rounds| - 1;
        var rest, last := rounds[..n], rounds[n];
        assert rounds == rest + [last];
        HistoryBefore(start, desks, ticks, rest, last);
        FilledAreThose(start, desks, ticks, rest, i);
        assert DesksBefore(desks, rounds, n) == DesksBefore(desks, rest, n);
        RoundIs(start, desks, ticks, rounds);
        FilledInRound(PlacesBefore(start, rounds, n), DesksBefore(desks, rounds, n), ticks[n].ticker, last, i);
      }
    }

    lemma RoundIs(start: seq<Positions>, desks: seq<Desk>, ticks: seq<Tick>, rounds: seq<Round>)
      requires rounds != [] && |rounds| <= |ticks| && RoundAt(start, desks, ticks, rounds, |rounds| - 1)
      ensures var n := |rounds| - 1;
        IsRound(PlacesBefore(start, rounds, n), DesksBefore(desks, rounds, n), ticks[n].ticker, rounds[n])
    {
      hide IsRound, RateAt;
    }

    lemma FilledInRound(before: seq<Positions>, desks: seq<Desk>, t: Ticker, round: Round, i: nat)
      requires IsRound(before, desks, t, round) && i < |runners|
      ensures |desks| == |round.desks| == |round.filled| == |runners|
      ensures round.desks[i].book.filled == desks[i].book.filled + WithStatus(round.filled[i], Done)
    {
      hide FilledAt, Served, Answered, WithStatus, AllMoved, FullFillsOf, TotalAt, AfterFunding;
      var mode, d := runners[i].om.simulator.mode, desks[i];
      assert round.filled[i] == FilledAt(d, mode, t);
      ServedAddsFilled(d, mode, t);
      AnsweredKeepsFilled(Served(d, mode, t), round.places[i],
                          session.initialBalance + TotalAt(round.places, t.lastPrice));
    }

    /** Since `desks`, exactly the orders of the rounds were filled, in their order. */
    ghost predicate Gained(desks: seq<Desk>, rounds: seq<Round>)
      reads set r <- runners :: r.om
    {
      |desks| == |runners| && forall i :: 0 <= i < |runners| ==>
        runners[i].om.filled == desks[i].book.filled + FilledOver(rounds, i)
    }

    lemma GainedIs(start: seq<Positions>, desks: seq<Desk>, ticks: seq<Tick>, rounds: seq<Round>)
      requires History(start, desks, ticks, rounds) && |desks| == |runners|
      requires Seated(DesksBefore(desks, rounds, |rounds|))
      ensures Gained(desks, rounds)
    {
      hide History, FilledOver, DesksBefore;
      forall i | 0 <= i < |runners| ensures runners[i].om.filled == desks[i].book.filled + FilledOver(rounds, i) {
        FilledAreThose(start, desks, ticks, rounds, i);
        DeskIs(runners[i]);
      }
    }

    /** At each tick the equity is the initial balance plus what the strategies are worth at its price. */
    ghost predicate Curve(ticks: seq<Tick>, rounds: seq<Round>)
      reads session`equityCurve
    {
      IsCurve(session.equityCurve, session.initialBalance, ticks, rounds)
    }

    lemma CurveIs(ticks: seq<Tick>, rounds: seq<Round>)
      ensures Curve(ticks, rounds) == IsCurve(session.equityCurve, session.initialBalance, ticks, rounds)
    {
    }

    ghost predicate Funded(last: Option<int>, applications: nat, ticks: seq<Tick>, n: nat)
      requires n <= |ticks|
    {
      last == LastBefore(None, TickTimes(ticks), n) && applications == Applications(None, TickTimes(ticks), n)
    }

    /** Funding state after the first `n` ticks. */
    ghost predicate FundedUpTo(ticks: seq<Tick>, n: nat)
      requires n <= |ticks|
      reads funding
    {
      funding != null ==> Funded(Clock().0, Clock().1, ticks, n)
    }

    method RunTick(ticks: seq<Tick>, k: nat, ghost start: seq<Positions>, ghost desks: seq<Desk>,
                   ghost rounds: seq<Round>)
      returns (ghost round: Round)
      requires k == |rounds| < |ticks| && Separate() && AllReady() && session.DrawdownOk()
      requires Agreed(PlacesBefore(start, rounds, k)) && Seated(DesksBefore(desks, rounds, k))
      requires History(start, desks, ticks, rounds) && FundedUpTo(ticks, k) && Curve(ticks, rounds)
      modifies this, Owned(), session, funding
      ensures AllReady() && Agreed(round.places) && Seated(round.desks) && session.DrawdownOk()
      ensures lastPrice == Some(ticks[k].ticker.lastPrice) && FundedUpTo(ticks, k + 1)
      ensures History(start, desks, ticks, rounds + [round]) && Curve(ticks, rounds + [round])
    {
      hide AllReady, Agreed, Seated, Separate, BacktestRunner.Parts, Owned, TotalPnl, BacktestSession.DrawdownOk;
      hide TotalAt, Funded, ShouldApply, Curve, FundingTotal, IsRound, History, RateAt, PlacesBefore, DesksBefore;
      ghost var places := PlacesBefore(start, rounds, k);
      ghost var curve := session.equityCurve;
      RateIsDue(ticks, k);
      CurveIs(ticks, rounds);
      round := ProcessTick(ticks[k], places, DesksBefore(desks, rounds, k));
      HistoryPush(start, desks, ticks, rounds, round);
      CurvePush(curve, session.initialBalance, ticks, rounds, round);
      CurveIs(ticks, rounds + [round]);
      if funding != null { FundedOn(old(Clock()).0, old(Clock()).1, ticks, k); }
    }

    lemma RateIsDue(ticks: seq<Tick>, k: nat)
      requires k < |ticks| && FundedUpTo(ticks, k)
      ensures RateDue(Clock(), ticks[k].ticker.exchangeTs) == RateAt(ticks, k)
    {
      hide ShouldApply;
      assert TickTimes(ticks)[k] == ticks[k].ticker.exchangeTs;
    }

    /** The wind-down and the final figures. */
    method Finish(ghost places: seq<Positions>) returns (r: Result<Metrics>)
      requires Separate() && AllReady() && Agreed(places) && session.DrawdownOk()
      requires (lastPrice.None? ==> Idle())
      modifies set r <- runners :: r.longTracker, set r <- runners :: r.shortTracker
      modifies session`trades, session`totalRealizedPnl, session`totalCommission, session`totalVolume
      ensures r.Err? <==> windDownMode == CloseAll && lastPrice.Some? && lastPrice.value <= 0.0 && !old(Flat(|runners|))
      ensures r.Err? ==> !Flat(|runners|)
      ensures |places| == |runners|
      ensures r.Ok? ==> r.value.finalBalance == session.initialBalance + TotalPnl(|runners|)
      ensures r.Ok? && lastPrice.Some? ==>
        r.value.finalBalance == session.initialBalance + TotalAt(places, lastPrice.value)
                                - (if windDownMode == CloseAll then Sum(ClosingFees(places, lastPrice.value)) else 0.0)
      ensures r.Ok? ==> r.value.totalTrades == |session.trades|
      ensures r.Ok? && windDownMode == CloseAll && lastPrice.Some? ==> Flat(|runners|)
      ensures r.Ok? && windDownMode == LeaveOpen ==> Standing(places)
      ensures r.Ok? ==>
        IsMaxDrop(session.Points(), r.value.maxDrawdown) && IsLongestRun(session.Points(), r.value.maxDrawdownDuration)
    {
      hide AllReady, Agreed, Standing, Separate, TotalPnl, BacktestSession.DrawdownOk, BacktestSession.TotalsOk;
      hide Flat, Idle, Sum, TotalAt, ClosingFees, IsMaxDrop, IsLongestRun, SessionHolds, AllPositionsOk;
      ReadyArePositionsOk();
      var w;
      ghost var places';
      w, places' := WindDown(places);
      if w.Err? {
        return Err(w.error);
      }
      var unrealized := CalculateTotalUnrealized(places');
      AgreedIs(places');
      var m := session.Finalize(unrealized);
      return Ok(m);
    }

    /** All ticks, the wind-down and the final figures. `rounds` tells what every tick did: it starts
        where the round before left the strategies, charges funding when due, moves each direction by
        the full fills of the orders the market filled, and its equity point is what the strategies
        are then worth; then every strategy's answer is executed over the orders left resting. Market,
        book, script and fills of a strategy at every tick are thus functions of the start. The final
        balance is the last equity point less the fees of closing. The run fails exactly when the
        wind-down meets an open position at a last price that is not positive, and then leaves it open.
        On a clock that does not run backwards funding was applied once per funding slot visited. */
    method Run(ticks: seq<Tick>) returns (r: Result<Metrics>, ghost rounds: seq<Round>)
      requires Separate() && AllReady() && NothingYet() && SessionFresh() && FundingFresh() && lastPrice.None?
      modifies this, Owned(), session, funding
      ensures |rounds| == |ticks| && History(old(Places(|runners|)), old(DesksNow(|runners|)), ticks, rounds)
      ensures Seated(DesksBefore(old(DesksNow(|runners|)), rounds, |rounds|))
      ensures Gained(old(DesksNow(|runners|)), rounds) && Curve(ticks, rounds)
      ensures r.Err? <==>
        windDownMode == CloseAll && ticks != [] && ticks[|ticks| - 1].ticker.lastPrice <= 0.0 && !Flat(|runners|)
      ensures r.Ok? ==> r.value.finalBalance == session.initialBalance + TotalPnl(|runners|)
      ensures r.Ok? && ticks != [] ==>
        var last, price := rounds[|ticks| - 1].places, ticks[|ticks| - 1].ticker.lastPrice;
        && |last| == |runners| && |session.equityCurve| == |ticks|
        && r.value.finalBalance == session.equityCurve[|ticks| - 1].1
           - (if windDownMode == CloseAll then Sum(ClosingFees(last, price)) else 0.0)
        && (windDownMode == LeaveOpen ==> Standing(last))
      ensures r.Ok? ==> r.value.totalTrades == |session.trades|
      ensures r.Ok? && windDownMode == CloseAll && ticks != [] ==> Flat(|runners|)
      ensures r.Ok? ==>
        IsMaxDrop(session.Points(), r.value.maxDrawdown) && IsLongestRun(session.Points(), r.value.maxDrawdownDuration)
      ensures funding != null && NonDecreasing(TickTimes(ticks)) ==>
        funding.applications == |Visited(TickTimes(ticks), |ticks|)|
    {
      hide AllReady, Agreed, Standing, Separate, BacktestRunner.Parts, Owned, TotalPnl, BacktestSession.DrawdownOk;
      hide Flat, Idle, TotalAt, Sum, ClosingFees, History, Gained, IsRound, DesksNow, Places, Curve, Seated;
      hide FundedUpTo, IsMaxDrop, IsLongestRun, Visited, NothingYet, SessionFresh;
      NotOwned();
      OwnedHasTrackers();
      SessionIsFresh();
      ghost var start, desks := Places(|runners|), DesksNow(|runners|);
      Start();
      HistoryStarts(ticks);
      rounds := [];
      NotFunded(ticks);
      for k := 0 to |ticks|
        invariant AllReady() && session.DrawdownOk() && |rounds| == k && Agreed(PlacesBefore(start, rounds, k))
        invariant Seated(DesksBefore(desks, rounds, k)) && History(start, desks, ticks, rounds) && Curve(ticks, rounds)
        invariant k == 0 ==> Idle() && lastPrice.None?
        invariant k > 0 ==> lastPrice == Some(ticks[k - 1].ticker.lastPrice)
        invariant FundedUpTo(ticks, k)
      {
        ghost var round := RunTick(ticks, k, start, desks, rounds);
        rounds := rounds + [round];
      }
      SlotsFunded(ticks);
      CurveEnds(ticks, rounds);
      GainedIs(start, desks, ticks, rounds);
      r := Finish(PlacesBefore(start, rounds, |rounds|));
    }

    lemma HistoryStarts(ticks: seq<Tick>)
      ensures History(Places(|runners|), DesksNow(|runners|), ticks, [])
      ensures session.equityCurve == [] ==> Curve(ticks, [])
    {
    }

    lemma CurveEnds(ticks: seq<Tick>, rounds: seq<Round>)
      requires Curve(ticks, rounds)
      ensures |session.equityCurve| == |rounds| <= |ticks|
      ensures |rounds| > 0 ==>
        var last, price := rounds[|rounds| - 1].places, ticks[|rounds| - 1].ticker.lastPrice;
        session.equityCurve[|rounds| - 1].1 == session.initialBalance + TotalAt(last, price)
    {
    }

    lemma SessionIsFresh()
      requires SessionFresh()
      ensures session.equityCurve == []
    {
    }

    lemma NotFunded(ticks: seq<Tick>)
      requires FundingFresh()
      ensures FundedUpTo(ticks, 0)
    {
    }

    lemma FundedOn(last: Option<int>, applications: nat, ticks: seq<Tick>, n: nat)
      requires n < |ticks| && Funded(last, applications, ticks, n)
      ensures var t := ticks[n].ticker.exchangeTs;
        if ShouldApply(last, t) then Funded(Some(t), applications + 1, ticks, n + 1)
        else Funded(last, applications, ticks, n + 1)
    {
      hide ShouldApply;
      var ts := TickTimes(ticks);
      assert ts[n] == ticks[n].ticker.exchangeTs;
      assert AppliedAt(None, ts, n) == ShouldApply(LastBefore(None, ts, n), ts[n]);
    }

    lemma SlotsFunded(ticks: seq<Tick>)
      requires FundedUpTo(ticks, |ticks|)
      ensures funding != null && NonDecreasing(TickTimes(ticks)) ==>
        funding.applications == |Visited(TickTimes(ticks), |ticks|)|
    {
      if NonDecreasing(TickTimes(ticks)) { ApplicationsCountSlots(TickTimes(ticks), |ticks|); }
    }
  }
}
