/**
 The backtest runner: gated placement and cancellation of orders, fills from the market, and
 fills replayed from recorded executions with their roll-up into trades.
 */
module Runner {
  import opened Common
  import opened Counting
  import OrderIds
  import opened Ledger
  import opened OrderBook
  import opened FillSimulator
  import opened OrderManager
  import opened RecordedStream
  import opened PositionTracker
  import opened Session
  import opened Lifecycle
  import opened Strategy
  import opened CloseGate
  import opened ReplaySteps

  function RowsOf(applied: seq<AppliedRow>): (rows: seq<RecordedExecution>)
    ensures |rows| == |applied|
  {
    seq(|applied|, i requires 0 <= i < |applied| => applied[i].row)
  }

  lemma RowsOfPush(applied: seq<AppliedRow>, a: AppliedRow)
    ensures RowsOf(applied + [a]) == RowsOf(applied) + [a.row]
  {
  }

  /** Some row has a price that the position tracker refuses. */
  ghost predicate HasBadPrice(es: seq<RecordedExecution>) {
    exists e <- es :: e.price <= 0.0
  }

  /** No row of a list can be taken. */
  ghost predicate AllStuck(es: seq<RecordedExecution>, active: seq<Order>) {
    forall e <- es :: Stuck(e, active)
  }

  lemma NoneStuck(active: seq<Order>)
    ensures AllStuck([], active)
  {
  }

  lemma OneMoreStuck(es: seq<RecordedExecution>, e: RecordedExecution, active: seq<Order>)
    ensures AllStuck(es, active) && Stuck(e, active) ==> AllStuck(es + [e], active)
  {
  }

  /** Order ids of the rows in flight and of the rows not drained yet. */
  ghost function LeftOf(inFlight: multiset<RecordedExecution>, es: seq<RecordedExecution>, cursor: nat): set<string> {
    IdsOf(inFlight) + Undrained(es, cursor)
  }

  /** Draining moves rows into flight: the same order ids are left as before. */
  lemma DrainingKeepsLeft(es: seq<RecordedExecution>, from: nat, to: nat)
    requires from <= to <= |es|
    ensures LeftOf(multiset(es[from..to]), es, to) == LeftOf(multiset{}, es, from)
  {
    var window := es[from..to];
    forall e: RecordedExecution | e in multiset(window) ensures e.orderId in LeftOf(multiset{}, es, from) {
      var k :| 0 <= k < to - from && window[k] == e;
      assert es[from + k].orderId == e.orderId;
    }
    forall k | from <= k < |es| ensures es[k].orderId in LeftOf(multiset(window), es, to) {
      if k < to { assert window[k - from] in multiset(window); }
    }
  }

  /** The stream is sorted, lies after the first window edge `first`, and the cursor stands after
      exactly the rows up to `edge`, the last tick. */
  ghost predicate DrainedUpTo(es: seq<RecordedExecution>, cursor: nat, first: int, edge: Option<int>) {
    && cursor <= |es| && InOrder(es)
    && (forall e <- es :: e.ts > first)
    && (if edge.None? then cursor == 0 else forall k :: 0 <= k < |es| ==> (k < cursor <==> es[k].ts <= edge.value))
  }

  function WindowStart(first: int, edge: Option<int>): int {
    if edge.Some? then edge.value else first
  }

  /** The next window of a sorted stream takes every row up to the new tick, none twice. */
  lemma NextWindow(es: seq<RecordedExecution>, from: nat, to: nat, first: int, edge: Option<int>, ts: int)
    requires DrainedUpTo(es, from, first, edge) && (edge.Some? ==> edge.value <= ts)
    requires from <= to <= |es|
    requires (forall k :: from <= k < to ==> es[k].ts <= ts) && (to < |es| ==> es[to].ts > ts)
    ensures DrainedUpTo(es, to, first, Some(ts))
    ensures After(es[from..to], WindowStart(first, edge)) == es[from..to]
    ensures multiset(es[..to]) == multiset(es[..from]) + multiset(es[from..to])
    ensures forall e <- es[from..to] :: e in es
  {
    hide After;
    forall k | from <= k < |es| ensures es[k].ts > WindowStart(first, edge) { assert es[k] in es; }
    AfterAll(es[from..to], WindowStart(first, edge));
    assert es[..to] == es[..from] + es[from..to];
  }

  /** In flight are the rows a pass left so far and those it has not looked at. */
  ghost predicate InPass(flight: multiset<RecordedExecution>, leftover: seq<RecordedExecution>,
                         buffer: seq<RecordedExecution>, k: nat)
  {
    && k <= |buffer| && |leftover| <= k && flight == multiset(leftover) + multiset(buffer[k..])
    && forall e <- leftover :: e in buffer
  }

  lemma PassBegins(buffer: seq<RecordedExecution>)
    ensures InPass(multiset(buffer), [], buffer, 0) && buffer[..0] == []
  {
    assert buffer[0..] == buffer;
  }

  lemma PassGoesOn(flight: multiset<RecordedExecution>, leftover: seq<RecordedExecution>,
                   buffer: seq<RecordedExecution>, k: nat)
    requires InPass(flight, leftover, buffer, k) && k < |buffer|
    ensures buffer[k] in flight && |leftover| <= k && buffer[..k + 1] == buffer[..k] + [buffer[k]]
    ensures InPass(flight - multiset{buffer[k]}, leftover, buffer, k + 1)
    ensures InPass(flight, leftover + [buffer[k]], buffer, k + 1)
  {
    assert buffer[k..] == [buffer[k]] + buffer[k + 1..];
  }

  lemma PassEnds(flight: multiset<RecordedExecution>, leftover: seq<RecordedExecution>, buffer: seq<RecordedExecution>)
    requires InPass(flight, leftover, buffer, |buffer|)
    ensures flight == multiset(leftover) && |leftover| <= |buffer| && buffer[..|buffer|] == buffer
    ensures forall e <- leftover :: e in buffer
  {
    assert buffer[|buffer|..] == [];
  }

  function AmountsOf(f: Execution): Amounts {
    Amounts(f.qty, f.price * f.qty, f.fee, f.closedPnl)
  }

  class BacktestRunner {
    const om: BacktestOrderManager
    const longTracker: PositionTracker
    const shortTracker: PositionTracker
    const session: BacktestSession
    const engine: GridEngine
    const follower: EventFollower?
    var prevTickTs: Option<int>
    var lastMarkPrice: Option<real>
    var rollups: seq<Rollup>
    var index: map<string, Key>
    var liveOnlyCount: nat
    ghost var applied: seq<AppliedRow>
    /** Rows drained but neither applied nor given up yet. */
    ghost var inFlight: multiset<RecordedExecution>
    ghost var liveOnly: multiset<RecordedExecution>
    ghost var premature: bool
    ghost var reopened: bool
    /** Positions at the start, without cached profit and funding. */
    ghost const longStart: PositionState
    ghost const shortStart: PositionState

    /** Everything a runner owns; the session may be shared. */
    ghost function Parts(): set<object> {
      {this, om, om.simulator, longTracker, shortTracker, engine}
    }

    function Tracker(direction: Direction): PositionTracker {
      if direction == Long then longTracker else shortTracker
    }

    ghost predicate Wired() {
      && longTracker.direction == Long && shortTracker.direction == Short
      && longTracker.commissionRate == shortTracker.commissionRate == om.commissionRate
    }

    // ---------- orders and positions ----------

    ghost predicate OrdersOk()
      reads om, engine
    {
      && om.Valid() && engine.Valid()
      && AllConform(engine.identity, om.active) && AllConform(engine.identity, om.filled)
    }

    ghost predicate PositionsOk()
      reads longTracker, shortTracker
    {
      Wired() && Consistent(longTracker.state) && Consistent(shortTracker.state)
    }

    /** Per direction, reserved plus owed close quantity is zero or strictly below the position. */
    ghost predicate GateHolds(owed: seq<Execution>)
      reads om, longTracker, shortTracker
    {
      && Gate(longTracker.state.size, Reserved(om.active, Long) + Owed(engine.identity, owed, Long))
      && Gate(shortTracker.state.size, Reserved(om.active, Short) + Owed(engine.identity, owed, Short))
    }

    /** Orders and positions are sound and the close gate holds while `owed` fills are between the
        book and the trackers. */
    ghost predicate Trading(owed: seq<Execution>)
      reads om, engine, longTracker, shortTracker
    {
      OrdersOk() && PositionsOk() && GateHolds(owed) && forall f <- owed :: Known(f)
    }

    /** The fill's order is on the book or was filled, so its direction is known. */
    ghost predicate Known(f: Execution)
      reads om, engine
    {
      && f.price > 0.0 && f.qty > 0.0
      && engine.identity(f.orderLinkId).0 == f.side
      && exists o <- om.active + om.filled :: o.clientId == f.orderLinkId
    }

    lemma PositionsAreOk()
      requires Trading([])
      ensures PositionsOk()
    {
    }

    /** Positions did not change; the cached unrealised profit may have. */
    twostate predicate SamePositions()
      reads longTracker, shortTracker
    {
      && longTracker.state == old(longTracker.state).(unrealized := longTracker.state.unrealized)
      && shortTracker.state == old(shortTracker.state).(unrealized := shortTracker.state.unrealized)
    }

    /** The state of one direction but for its cached unrealised profit. */
    ghost function Core(direction: Direction): PositionState
      reads longTracker, shortTracker
    {
      Settled(Tracker(direction).state)
    }

    ghost function Where(): Positions
      reads longTracker, shortTracker
    {
      Positions(Core(Long), Core(Short))
    }

    /** Each position is where the applied slices of its direction took it, funding aside. */
    ghost predicate PositionsFollow()
      reads this`applied, longTracker, shortTracker
    {
      && Follows(om.commissionRate, Long, longStart, longTracker.state, applied)
      && Follows(om.commissionRate, Short, shortStart, shortTracker.state, applied)
    }

    twostate lemma StillFollow()
      requires SamePositions() && applied == old(applied)
      ensures Where() == old(Where()) && old(PositionsFollow()) == PositionsFollow()
    {
      hide Follows;
      SameFollows(om.commissionRate, Long, longStart, old(longTracker.state), longTracker.state, applied);
      SameFollows(om.commissionRate, Short, shortStart, old(shortTracker.state), shortTracker.state, applied);
    }

    // ---------- lifecycles ----------

    /** Rows applied or in flight. */
    ghost function Seen(): multiset<RecordedExecution>
      reads this`applied, this`inFlight
    {
      multiset(RowsOf(applied)) + inFlight
    }

    ghost function Left(): set<string>
      reads this`inFlight, follower
    {
      if follower == null then {} else LeftOf(inFlight, follower.executions, follower.cursor)
    }

    ghost function LifeView(): Life
      reads this`rollups, this`index, this`applied, this`inFlight, this`premature, this`reopened, session`trades
      reads follower
    {
      var groups := if follower == null then {} else Groups(follower.executions);
      var repeats := follower != null && KeysRepeat(follower.executions);
      Life(session.trades, rollups, index, applied, Left(), groups, repeats, premature, reopened)
    }

    ghost predicate LifeHolds()
      reads this`rollups, this`index, this`applied, this`inFlight, this`premature, this`reopened, follower
      reads session`trades, session`totalRealizedPnl, session`totalCommission, session`totalVolume
    {
      session.TotalsOk() && LifeOk(LifeView()) && SeenInStream()
    }

    /** Rows applied or in flight are rows drained, none more often than in the stream. */
    ghost predicate SeenInStream()
      reads this`applied, this`inFlight, follower
    {
      follower != null ==>
        follower.cursor <= |follower.executions| && Seen() <= multiset(follower.executions[..follower.cursor])
    }

    ghost function Purse(): Wallet
      reads session`totalFunding, session`currentBalance, this`lastMarkPrice
    {
      Wallet(session.initialBalance, session.totalFunding, lastMarkPrice, session.currentBalance)
    }

    ghost function Ahead(): set<string>
      reads follower
    {
      if follower == null then {} else Undrained(follower.executions, follower.cursor)
    }

    /** What the next step of a replay depends on. */
    ghost function ReplayState(): State
      reads this`rollups, this`index, this`applied, this`inFlight, this`premature, this`reopened, this`lastMarkPrice
      reads session`trades, session`totalFunding, session`currentBalance
      reads follower, om, engine, longTracker, shortTracker
    {
      ReplaySteps.State(om.View(), LifeView(), engine.View(), Where(), Purse(), inFlight, Ahead())
    }

    /** The lifecycles are sound, and unless a flush came too early every flushed one is finished. */
    ghost predicate LifeSettled()
      reads this`rollups, this`index, this`applied, this`inFlight, this`premature, this`reopened, follower
      reads session`trades, session`totalRealizedPnl, session`totalCommission, session`totalVolume
    {
      LifeHolds() && FlushedAreSettled(LifeView())
    }

    ghost predicate PendingOk()
      reads this`rollups, session`pendingRealizedPnl, session`pendingCommission
    {
      var open := Total(RollupEntries(rollups), None);
      session.pendingRealizedPnl == open.pnl && session.pendingCommission == open.fee
    }

    /** Live orders and positions present at the start are taken as they are. Nothing checks them: the
        runner is sound exactly when the seeds fit an order book and the close gate holds for them. */
    constructor (om: BacktestOrderManager, longTracker: PositionTracker, shortTracker: PositionTracker,
                 session: BacktestSession, engine: GridEngine, follower: EventFollower?, seeds: seq<Order>)
      requires longTracker.direction == Long && shortTracker.direction == Short
      requires longTracker.commissionRate == shortTracker.commissionRate == om.commissionRate
      requires om.View() == EMPTY && engine.Valid() && session.TotalsOk()
      requires follower != null ==>
        follower.Valid() && follower.cursor == 0 && follower.lastTickTs == None && session.trades == []
      requires session.pendingRealizedPnl == session.pendingCommission == 0.0
      requires Consistent(longTracker.state) && Consistent(shortTracker.state)
      requires forall s <- seeds :: s.status == Pending && OrderConforms(engine.identity, s)
      modifies om
      ensures this.om == om && this.longTracker == longTracker && this.shortTracker == shortTracker
      ensures this.session == session && this.engine == engine && this.follower == follower
      ensures PositionsOk() && om.View() == SeededBook(FirstOfEach(seeds)) && om.active == FirstOfEach(seeds)
      ensures OrdersOk() <==> SeedsFit(FirstOfEach(seeds))
      ensures GateHolds([]) <==>
        && Gate(longTracker.state.size, Reserved(FirstOfEach(seeds), Long))
        && Gate(shortTracker.state.size, Reserved(FirstOfEach(seeds), Short))
      ensures Trading([]) <==> OrdersOk() && GateHolds([])
      ensures prevTickTs == None && rollups == [] && applied == [] && inFlight == multiset{} == liveOnly
      ensures liveOnlyCount == 0
      ensures !premature && PendingOk()
      ensures follower != null ==> LifeSettled()
      ensures follower != null && DrainedUpTo(follower.executions, 0, follower.initialPrevTs, None) ==>
        (AtTickBoundary() <==> OrdersOk() && GateHolds([]))
    {
      this.om, this.longTracker, this.shortTracker := om, longTracker, shortTracker;
      this.session, this.engine, this.follower := session, engine, follower;
      prevTickTs, lastMarkPrice, rollups, index, liveOnlyCount := None, None, [], map[], 0;
      applied, inFlight, liveOnly, premature, reopened := [], multiset{}, multiset{}, false, false;
      longStart, shortStart := Bare(longTracker.state), Bare(shortTracker.state);
      new;
      hide *;
      BlankIs();
      om.SeedActiveOrders(seeds);
      Launched(FirstOfEach(seeds));
    }

    /** No tick was processed and nothing happened to any row yet. */
    ghost predicate Blank()
      reads this
    {
      && prevTickTs == None && rollups == [] && index == map[] && applied == []
      && inFlight == multiset{} == liveOnly && liveOnlyCount == 0 && !premature && !reopened
    }

    lemma BlankIs()
      requires prevTickTs == None && rollups == [] && index == map[] && applied == []
      requires inFlight == multiset{} == liveOnly && liveOnlyCount == 0 && !premature && !reopened
      ensures Blank()
    {
    }

    /** Nothing but the seeds decides whether a fresh runner is sound. */
    lemma Launched(orders: seq<Order>)
      requires engine.Valid() && om.View() == SeededBook(orders)
      requires forall o <- om.active :: OrderConforms(engine.identity, o)
      requires longTracker.direction == Long && shortTracker.direction == Short
      requires longTracker.commissionRate == shortTracker.commissionRate == om.commissionRate
      requires longStart == Bare(longTracker.state) && shortStart == Bare(shortTracker.state)
      requires Consistent(longTracker.state) && Consistent(shortTracker.state)
      requires session.TotalsOk() && session.pendingRealizedPnl == session.pendingCommission == 0.0
      requires follower != null ==>
        follower.Valid() && follower.cursor == 0 && follower.lastTickTs == None && session.trades == []
      requires Blank()
      ensures prevTickTs == None && rollups == [] && applied == [] && inFlight == multiset{} == liveOnly
      ensures liveOnlyCount == 0 && !premature && !reopened
      ensures PositionsOk() && PendingOk() && (follower != null ==> LifeSettled())
      ensures OrdersOk() <==> om.Valid()
      ensures GateHolds([]) <==>
        && Gate(longTracker.state.size, Reserved(orders, Long))
        && Gate(shortTracker.state.size, Reserved(orders, Short))
      ensures Trading([]) <==> OrdersOk() && GateHolds([])
      ensures follower != null && DrainedUpTo(follower.executions, 0, follower.initialPrevTs, None) ==>
        (AtTickBoundary() <==> OrdersOk() && GateHolds([]))
    {
      hide LifeOk, FlushedAreSettled, PositionsFollow, DrainedUpTo, SeededBook, OrdersOk, PositionsOk, GateHolds;
      hide Trading, LifeSettled, Gate, BookOk, Consistent, RowsAccountedFor, ReplayOk, DrainedTo, AtTickBoundary;
      SoundlySeeded(orders);
      NothingFollows();
      NothingBegun();
      NothingOwed();
    }

    lemma SoundlySeeded(orders: seq<Order>)
      requires engine.Valid() && om.View() == SeededBook(orders)
      requires forall o <- om.active :: OrderConforms(engine.identity, o)
      ensures OrdersOk() <==> om.Valid()
      ensures GateHolds([]) <==>
        && Gate(longTracker.state.size, Reserved(orders, Long))
        && Gate(shortTracker.state.size, Reserved(orders, Short))
    {
      hide BookOk, Gate, Reserved;
      OwedNothing(engine.identity);
    }

    /** A replay that has not begun. */
    lemma NothingBegun()
      requires longTracker.direction == Long && shortTracker.direction == Short
      requires longTracker.commissionRate == shortTracker.commissionRate == om.commissionRate
      requires Consistent(longTracker.state) && Consistent(shortTracker.state)
      requires session.TotalsOk() && session.pendingRealizedPnl == session.pendingCommission == 0.0
      requires follower != null ==>
        follower.Valid() && follower.cursor == 0 && follower.lastTickTs == None && session.trades == []
      requires rollups == [] && index == map[] && applied == [] && inFlight == liveOnly == multiset{}
      requires liveOnlyCount == 0 && !premature && !reopened && PositionsFollow()
      ensures PositionsOk() && PendingOk() && (follower != null ==> LifeSettled() && RowsAccountedFor())
      ensures follower != null && DrainedUpTo(follower.executions, 0, follower.initialPrevTs, None) ==>
        DrainedTo(None) && ReplayOk()
    {
      hide Consistent, LifeOk, FlushedAreSettled, PositionsFollow, DrainedUpTo;
      if follower != null { NothingYet(LifeView()); }
    }

    lemma NothingOwed()
      ensures PositionsOk() ==> (Trading([]) <==> OrdersOk() && GateHolds([]))
      ensures DrainedTo(prevTickTs) && RowsAccountedFor() && inFlight == multiset{} && ReplayOk() ==>
        (AtTickBoundary() <==> Trading([]))
    {
      hide OrdersOk, PositionsOk, GateHolds, DrainedTo, RowsAccountedFor, ReplayOk;
    }

    lemma NothingFollows()
      requires applied == [] && longStart == Bare(longTracker.state) && shortStart == Bare(shortTracker.state)
      requires Consistent(longTracker.state) && Consistent(shortTracker.state)
      ensures PositionsFollow()
    {
    }

    // ---------- refreshing the wallet ----------

    method SetSessionPending()
      modifies session`pendingRealizedPnl, session`pendingCommission
      ensures PendingOk()
    {
      var open := Total(RollupEntries(rollups), None);
      session.SetPendingWallet(open.pnl, open.fee);
    }

    ghost function MarkOr(fallback: real): real
      reads this`lastMarkPrice
    {
      if lastMarkPrice.Some? then lastMarkPrice.value else fallback
    }

    /** The balance is what the session has booked or holds pending, plus the open positions. */
    ghost predicate BalanceAt(price: real)
      reads session`totalRealizedPnl, session`totalCommission, session`totalFunding, session`currentBalance
      reads session`pendingRealizedPnl, session`pendingCommission, longTracker, shortTracker
    {
      session.currentBalance == session.initialBalance + session.PnlDelta(UnrealizedAt(price))
    }

    method Refresh(fallbackPrice: real)
      requires Wired()
      modifies longTracker, shortTracker, session`currentBalance
      ensures SamePositions() && BalanceAt(MarkOr(fallbackPrice))
      ensures session.currentBalance == session.initialBalance
        + session.PnlDelta(UnrealizedAt(if lastMarkPrice.Some? then lastMarkPrice.value else fallbackPrice))
      ensures forall owed :: old(Trading(owed)) ==> Trading(owed)
    {
      hide OrdersOk, Reserved, Owed, Known;
      var mark := if lastMarkPrice.Some? then lastMarkPrice.value else fallbackPrice;
      var u := longTracker.CalculateUnrealizedPnl(mark);
      var v := shortTracker.CalculateUnrealizedPnl(mark);
      session.RefreshBalances(u + v);
    }

    /** Pending sums first, then the balances that use them. */
    method RefreshWallet(fallbackPrice: real)
      requires Wired()
      modifies longTracker, shortTracker, session`pendingRealizedPnl, session`pendingCommission, session`currentBalance
      ensures PendingOk() && SamePositions() && BalanceAt(MarkOr(fallbackPrice))
      ensures longTracker.state == old(longTracker.state).(unrealized := longTracker.state.unrealized)
      ensures shortTracker.state == old(shortTracker.state).(unrealized := shortTracker.state.unrealized)
      ensures old(Trading([])) ==> Trading([])
    {
      hide Trading, PendingOk, BalanceAt;
      SetSessionPending();
      Refresh(fallbackPrice);
    }

    /** Money conservation: what the session has booked plus what is pending is the sum of every
        applied slice's recorded profit, and likewise for fees. */
    lemma MoneyIsConserved()
      requires LifeHolds() && PendingOk()
      ensures session.totalRealizedPnl + session.pendingRealizedPnl == Total(RowEntries(applied), None).pnl
      ensures session.totalCommission + session.pendingCommission == Total(RowEntries(applied), None).fee
    {
      hide Total, RepeatsAreReopenings, OpenAreSound, IndexIsSound;
      assert Held(LifeView(), None) == Total(RowEntries(applied), None);
    }

    /** Then the balance is what the applied slices, funding and the open positions are worth. */
    lemma BalanceIsWorth(w: Wallet, fallback: real)
      requires LifeHolds() && PendingOk() && BalanceAt(MarkOr(fallback))
      requires w == Purse().(balance := w.balance)
      ensures Purse() == Refreshed(w, applied, Where(), fallback)
    {
      hide Total, LifeOk, UnrealisedPnl, SeenInStream;
      MoneyIsConserved();
    }

    // ---------- flushing ----------

    /** One trade for one lifecycle: roll-up out, trade in, index entries of its orders gone. */
    method RecordRollup(i: nat, ghost early: bool)
      requires i < |rollups| && LifeHolds() && rollups[i].sums.qty != 0.0
      modifies this`rollups, this`index, this`premature, session`trades, session`totalRealizedPnl
      modifies session`totalCommission, session`totalVolume
      ensures session.TotalsOk()
      ensures LifeView() == AfterFlush(old(LifeView()), i, early)
      ensures rollups == Without(old(rollups), i)
      ensures session.totalRealizedPnl == old(session.totalRealizedPnl) + old(rollups)[i].sums.pnl
      ensures session.totalCommission == old(session.totalCommission) + old(rollups)[i].sums.fee
    {
      hide LifeOk;
      var rollup := rollups[i];
      rollups := Without(rollups, i);
      session.RecordTrade(TradeOf(rollup));
      index := index - rollup.replayOrderIds;
      premature := premature || (early && rollup.key.1 in Left());
    }

    /** Money moves from pending to total at a flush, so the wallet does not notice. */
    method FlushAggregatedTrade(i: nat, ghost early: bool)
      requires i < |rollups| && LifeHolds() && PendingOk() && Wired()
      modifies this`rollups, this`index, this`premature, session`trades, session`totalRealizedPnl
      modifies session`totalCommission, session`totalVolume
      modifies session`pendingRealizedPnl, session`pendingCommission, session`currentBalance, longTracker, shortTracker
      ensures old(rollups)[i].sums.qty > 0.0
      ensures LifeHolds() && PendingOk() && SamePositions()
      ensures old(Trading([])) ==> Trading([])
      ensures LifeView() == AfterFlush(old(LifeView()), i, early)
      ensures Purse()
           == Refreshed(old(Purse()), applied, Where(), old(rollups)[i].sums.notional / old(rollups)[i].sums.qty)
      ensures forall u :: session.PnlDelta(u) == old(session.PnlDelta(u))
    {
      hide LifeOk, Total, AfterFlush, Trading, Refreshed, BalanceAt, PendingOk;
      ghost var before := LifeView();
      FlushKeepsLife(before, i, early);
      PendingBefore(i);
      var vwap := rollups[i].sums.notional / rollups[i].sums.qty;
      RecordRollup(i, early);
      RefreshWallet(vwap);
      PendingIs();
      BalanceIsWorth(old(Purse()), vwap);
    }

    lemma PendingIs()
      requires PendingOk()
      ensures session.pendingRealizedPnl == Total(RollupEntries(rollups), None).pnl
      ensures session.pendingCommission == Total(RollupEntries(rollups), None).fee
    {
    }

    lemma PendingBefore(i: nat)
      requires PendingOk() && i < |rollups|
      ensures session.pendingRealizedPnl == Total(RollupEntries(Without(rollups, i)), None).pnl + rollups[i].sums.pnl
      ensures session.pendingCommission == Total(RollupEntries(Without(rollups, i)), None).fee + rollups[i].sums.fee
    {
      hide Total, RollupEntries;
      PendingAfterRemoval(rollups, i);
    }

    lemma PendingAfterRemoval(rs: seq<Rollup>, i: nat)
      requires i < |rs|
      ensures Total(RollupEntries(rs), None) == Add(Total(RollupEntries(Without(rs, i)), None), rs[i].sums)
    {
      EntryAt(rs, i);
      EntriesWithout(rs, i);
      TotalRemove(RollupEntries(rs), i, None);
    }

    /** Triggers: 1 the simulated order is used up, 2 no recorded rows remain, 3 the simulated order
        is cancelled, 4 the replay ends. Only 2 looks whether rows remain. */
    method MaybeFlushAggregatedTrade(key: Key, trigger: nat, full: bool)
      requires LifeHolds() && PendingOk() && Wired()
      modifies this`rollups, this`index, this`premature, session`trades, session`totalRealizedPnl
      modifies session`totalCommission, session`totalVolume
      modifies session`pendingRealizedPnl, session`pendingCommission, session`currentBalance, longTracker, shortTracker
      ensures LifeHolds() && PendingOk() && SamePositions()
      ensures old(Trading([])) ==> Trading([])
      ensures old(FlushedAreSettled(LifeView())) && (trigger == 1 || trigger == 3 || key.1 !in old(Left())) ==>
        FlushedAreSettled(LifeView())
      ensures ReplayState()
           == if trigger == 1 && !full then old(ReplayState())
              else Flush(old(ReplayState()), key, trigger == 1 || trigger == 3)
      ensures trigger == 2 || trigger == 4 ==> premature == old(premature)
      ensures premature == (|| old(premature)
                            || (&& ((trigger == 1 && full) || trigger == 3) && key.1 in old(Left())
                                && exists r <- old(rollups) :: r.key == key))
      ensures !(trigger == 1 && !full) ==> forall r <- rollups :: r.key != key
      ensures forall r <- rollups :: r in old(rollups)
      ensures forall u :: session.PnlDelta(u) == old(session.PnlDelta(u))
    {
      hide *;
      ghost var before, state := LifeView(), ReplayState();
      ghost var early := trigger == 1 || trigger == 3;
      ViewIs();
      FlushAt(state, key, early);
      var i := IndexByKey(rollups, key);
      if i >= 0 { RollupsHold(i); }
      if i < 0 || rollups[i].sums.qty <= 0.0 {
        SameStays();
        return;
      }
      if trigger == 1 && !full {
        SameStays();
        return;
      }
      FlushOutcome(before, i, early);
      FlushAggregatedTrade(i, early);
      OnlyFlushed();
      ViewIs();
    }

    lemma ViewIs()
      ensures var l := LifeView();
        l.rollups == rollups && l.left == Left() && l.premature == premature && l.applied == applied
      ensures ReplayState().life == LifeView() && ReplayState().wallet == Purse() && ReplayState().positions == Where()
      ensures LifeHolds() ==> LifeOk(LifeView())
    {
      hide LifeOk, Where, Purse, Ahead;
    }

    twostate lemma SameStays()
      requires unchanged(longTracker, shortTracker)
      ensures SamePositions()
    {
    }

    lemma FlushAt(s: State, key: Key, early: bool)
      ensures var i := IndexByKey(s.life.rollups, key);
        && (i < 0 || s.life.rollups[i].sums.qty <= 0.0 ==> Flush(s, key, early) == s)
        && (i >= 0 && s.life.rollups[i].sums.qty > 0.0 ==>
              var price := s.life.rollups[i].sums.notional / s.life.rollups[i].sums.qty;
              Flush(s, key, early) == s.(life := AfterFlush(s.life, i, early),
                                         wallet := Refreshed(s.wallet, s.life.applied, s.positions, price)))
    {
      hide AfterFlush, Refreshed;
    }

    /** A flush touches lifecycles and wallet, and nothing else of the replay. */
    twostate lemma OnlyFlushed()
      requires SamePositions() && applied == old(applied) && inFlight == old(inFlight)
      requires lastMarkPrice == old(lastMarkPrice) && unchanged(om, engine)
      requires follower != null ==> unchanged(follower)
      ensures Where() == old(Where())
      ensures ReplayState() == old(ReplayState()).(life := LifeView(), wallet := Purse())
    {
      hide LifeView, Purse, Core;
      StillThereAfter();
    }

    twostate lemma StillThereAfter()
      requires SamePositions()
      ensures Where() == old(Where())
    {
    }

    lemma RollupsHold(i: nat)
      requires LifeHolds() && i < |rollups|
      ensures rollups[i].sums.qty > 0.0
    {
      OpenHold(LifeView(), i);
    }

    lemma FlushOutcome(l: Life, i: nat, early: bool)
      requires LifeOk(l) && i < |l.rollups|
      ensures l.rollups[i].sums.qty > 0.0
      ensures AfterFlush(l, i, early).rollups == Without(l.rollups, i)
      ensures forall r <- Without(l.rollups, i) :: r.key != l.rollups[i].key && r in l.rollups
      ensures !early ==> AfterFlush(l, i, early).premature == l.premature
      ensures AfterFlush(l, i, early).premature == (l.premature || (early && l.rollups[i].key.1 in l.left))
      ensures FlushedAreSettled(l) && (early || l.rollups[i].key.1 !in l.left) ==>
        FlushedAreSettled(AfterFlush(l, i, early))
    {
      OpenHold(l, i);
      OtherKeys(l.rollups, i);
      if FlushedAreSettled(l) && (early || l.rollups[i].key.1 !in l.left) { FlushKeepsSettled(l, i, early); }
    }

    // ---------- placing and cancelling ----------

    ghost predicate ReplayOk()
      reads this`rollups, this`index, this`applied, this`inFlight, this`premature, this`reopened, follower
      reads session`trades, session`totalRealizedPnl, session`totalCommission, session`totalVolume
      reads session`pendingRealizedPnl, session`pendingCommission, longTracker, shortTracker
    {
      follower != null ==> LifeSettled() && PendingOk() && PositionsFollow()
    }

    /** A close may be placed only while the position exceeds everything reserved to close it. */
    predicate ShouldPlaceClose(i: Intent)
      requires i.PlaceLimit?
      reads om, session, engine, longTracker, shortTracker
    {
      var size := Tracker(i.direction).state.size;
      size != 0.0 && size > Reserved(om.active, i.direction) + engine.Quantity(i, session.currentBalance)
    }

    lemma ReservedIsNonNegative(direction: Direction)
      requires Trading([])
      ensures Reserved(om.active, direction) >= 0.0
    {
      ActiveArePositive(om.View());
      ReservedNonNegative(om.active, direction);
    }

    /** What a replay or a simulated run does with a place intent. A close is placed if and only if the
        position exceeds everything reserved to close it, the new order included. */
    method Place(i: Intent)
      requires Trading([]) && i.PlaceLimit? && Conforming(engine.identity, i)
      modifies om
      ensures Trading([])
      ensures om.View() == old(AfterIntent(om.View(), i, Where(), engine.sizing, session.currentBalance))
      ensures var qty := if engine.sizing.Some? then engine.sizing.value(i, session.currentBalance) else i.qty;
        var size := if i.direction == Long then longTracker.state.size else shortTracker.state.size;
        var o := Order(OrderIds.SimId(old(om.counter) + 1), i.clientId, i.symbol, i.side, i.price, qty, i.direction,
                       i.reduceOnly, Pending);
        om.active == old(om.active)
          + if qty > 0.0 && i.clientId !in old(om.clientIds)
               && (i.reduceOnly ==> size > Reserved(old(om.active), i.direction) + qty) then [o] else []
    {
      hide BookOk, Consistent, Reserved, Gate, OrderConforms, AllConform;
      ReservedIsNonNegative(i.direction);
      if i.reduceOnly && !ShouldPlaceClose(i) {
        return;
      }
      var qty := engine.Quantity(i, session.currentBalance);
      if qty <= 0.0 {
        return;
      }
      ghost var active := om.active;
      ActiveArePositive(om.View());
      var o := om.PlaceOrder(i.clientId, i.symbol, i.side, i.price, qty, i.direction, i.reduceOnly);
      if o.Some? {
        OwedNothing(engine.identity);
        PlacingKeepsGate(active, o.value, longTracker.state.size, Long);
        PlacingKeepsGate(active, o.value, shortTracker.state.size, Short);
        PlacedConforms(engine.identity, active, o.value, i);
      }
    }

    lemma ActiveArePositive(b: Book)
      requires BookOk(b)
      ensures forall o <- b.active :: o.qty > 0.0
    {
    }

    lemma OwedNothing(identity: Identity)
      ensures Owed(identity, [], Long) == Owed(identity, [], Short) == 0.0
    {
    }

    lemma PlacedConforms(identity: Identity, active: seq<Order>, o: Order, i: Intent)
      requires AllConform(identity, active) && Conforming(identity, i) && i.PlaceLimit?
      requires o.clientId == i.clientId && o.side == i.side && o.price == i.price && o.direction == i.direction
      requires o.reduceOnly == i.reduceOnly
      ensures AllConform(identity, active + [o])
    {
    }

    method CancelInBook(orderId: string)
      requires Trading([])
      modifies om
      ensures Trading([])
      ensures om.View() == WithoutOrder(old(om.View()), orderId) && forall o <- om.active :: o.id != orderId
    {
      hide BookOk, Consistent, Reserved, Gate, AllConform;
      ghost var book := om.View();
      var done;
      ghost var i;
      done, i := om.CancelOrder(orderId);
      if done {
        ActiveArePositive(book);
        OwedNothing(engine.identity);
        RemovingKeepsGate(book.active, i, longTracker.state.size, Long);
        RemovingKeepsGate(book.active, i, shortTracker.state.size, Short);
        FewerConform(engine.identity, book.active, i);
        OnlyOne(book, i);
      }
    }

    lemma OnlyOne(b: Book, i: nat)
      requires BookOk(b) && i < |b.active|
      ensures forall o <- Removed(b, i).active :: o.id != b.active[i].id
    {
      IdsAreUnique(b, i);
    }

    /** In a replay the order's roll-up is flushed before the order leaves the book. */
    method Cancel(orderId: string)
      requires Trading([]) && ReplayOk()
      modifies this`rollups, this`index, this`premature, session`trades, session`totalRealizedPnl
      modifies session`totalCommission, session`totalVolume
      modifies session`pendingRealizedPnl, session`pendingCommission, session`currentBalance, longTracker, shortTracker
      modifies om
      ensures Trading([]) && ReplayOk() && SamePositions() && om.filled == old(om.filled)
      ensures follower == null ==> unchanged(this, session, longTracker, shortTracker)
      ensures forall u :: session.PnlDelta(u) == old(session.PnlDelta(u))
      ensures om.View() == WithoutOrder(old(om.View()), orderId) && forall o <- om.active :: o.id != orderId
      ensures follower != null ==> ReplayState() == Executed(old(ReplayState()), CancelLimit(orderId))
      ensures follower != null && orderId in old(index) ==> forall r <- rollups :: r.key != old(index)[orderId]
    {
      hide Trading, LifeView, WithoutOrder, FlushedFor, Where, Purse, Ahead, LifeSettled, PendingOk, PositionsFollow;
      FilledStays(om.View(), CancelLimit(orderId), Where(), engine.sizing, session.currentBalance);
      FlushOfOrder(orderId);
      CancelInBook(orderId);
    }

    /** The flush of the lifecycle an order belongs to, if it is still open. */
    method FlushOfOrder(orderId: string)
      requires Trading([]) && ReplayOk()
      modifies this`rollups, this`index, this`premature, session`trades, session`totalRealizedPnl
      modifies session`totalCommission, session`totalVolume
      modifies session`pendingRealizedPnl, session`pendingCommission, session`currentBalance, longTracker, shortTracker
      ensures Trading([]) && ReplayOk() && SamePositions()
      ensures follower == null ==> unchanged(this, session, longTracker, shortTracker)
      ensures forall u :: session.PnlDelta(u) == old(session.PnlDelta(u))
      ensures follower != null ==> ReplayState() == FlushedFor(old(ReplayState()), CancelLimit(orderId))
      ensures follower != null && orderId in old(index) ==> forall r <- rollups :: r.key != old(index)[orderId]
    {
      hide *;
      IndexIsViewed();
      ViewIs();
      FlushForOrder(ReplayState(), orderId);
      if follower != null && orderId in index {
        TradingIsWired();
        ReplayIs();
        MaybeFlushAggregatedTrade(index[orderId], 3, false);
        StillFollow();
        ReplayAgain();
      } else {
        SameStays();
      }
    }

    lemma FlushForOrder(s: State, orderId: string)
      ensures FlushedFor(s, CancelLimit(orderId))
           == if orderId in s.life.index then Flush(s, s.life.index[orderId], true) else s
    {
      hide Flush;
    }

    lemma ReplayIs()
      requires follower != null && ReplayOk()
      ensures LifeHolds() && FlushedAreSettled(LifeView()) && PendingOk() && PositionsFollow()
    {
      hide LifeHolds, FlushedAreSettled, PendingOk, PositionsFollow;
    }

    lemma ReplayAgain()
      requires LifeHolds() && FlushedAreSettled(LifeView()) && PendingOk() && PositionsFollow()
      ensures ReplayOk()
    {
      hide LifeHolds, FlushedAreSettled, PendingOk, PositionsFollow;
    }

    lemma IndexIsViewed()
      ensures LifeView().index == index && LifeView().left == Left()
    {
    }

    lemma TradingIsWired()
      requires Trading([])
      ensures Wired()
    {
    }

    lemma FewerConform(identity: Identity, active: seq<Order>, i: nat)
      requires AllConform(identity, active) && i < |active|
      ensures AllConform(identity, Without(active, i))
    {
    }

    /** Executes the intents in order. In a replay each cancel first flushes a lifecycle, which may
        change the balance that sizes the orders after it; without one only the book changes. */
    method DispatchIntents(intents: seq<Intent>)
      requires Trading([]) && ReplayOk() && forall i <- intents :: Conforming(engine.identity, i)
      modifies this`rollups, this`index, this`premature
      modifies session`trades, session`totalRealizedPnl, session`totalCommission, session`totalVolume
      modifies session`pendingRealizedPnl, session`pendingCommission, session`currentBalance
      modifies longTracker, shortTracker, om
      ensures Trading([]) && ReplayOk() && SamePositions() && om.filled == old(om.filled)
      ensures forall u :: session.PnlDelta(u) == old(session.PnlDelta(u))
      ensures follower != null ==> ReplayState() == ExecutedAll(old(ReplayState()), intents)
      ensures follower == null ==> unchanged(this, session, longTracker, shortTracker)
      ensures follower == null ==>
        om.View() == AfterIntents(old(om.View()), intents, Where(), engine.sizing, session.currentBalance)
    {
      hide Trading, ReplayOk, Conforming, AfterIntent, Executed, ReplayState, Where, ExecutedAll, AfterIntents;
      assert intents[..0] == [];
      ExecutedNothing(ReplayState());
      NoIntents(om.View(), Where(), engine.sizing, session.currentBalance);
      for k := 0 to |intents|
        invariant Trading([]) && ReplayOk() && SamePositions() && om.filled == old(om.filled)
        invariant forall u :: session.PnlDelta(u) == old(session.PnlDelta(u))
        invariant follower != null ==> ReplayState() == ExecutedAll(old(ReplayState()), intents[..k])
        invariant follower == null ==> unchanged(this, session, longTracker, shortTracker)
        invariant follower == null ==>
          om.View() == AfterIntents(old(om.View()), intents[..k], Where(), engine.sizing, session.currentBalance)
      {
        assert intents[..k + 1] == intents[..k] + [intents[k]];
        IntentsPush(old(om.View()), intents[..k], intents[k], Where(), engine.sizing, session.currentBalance);
        ExecutedPush(old(ReplayState()), intents[..k], intents[k]);
        Execute(intents[k]);
      }
      assert intents[..|intents|] == intents;
    }

    lemma NoIntents(b: Book, p: Positions, sizing: Sizing, balance: real)
      ensures AfterIntents(b, [], p, sizing, balance) == b
    {
    }

    method Execute(i: Intent)
      requires Trading([]) && ReplayOk() && Conforming(engine.identity, i)
      modifies this`rollups, this`index, this`premature
      modifies session`trades, session`totalRealizedPnl, session`totalCommission, session`totalVolume
      modifies session`pendingRealizedPnl, session`pendingCommission, session`currentBalance
      modifies longTracker, shortTracker, om
      ensures Trading([]) && ReplayOk() && SamePositions() && om.filled == old(om.filled)
      ensures forall u :: session.PnlDelta(u) == old(session.PnlDelta(u))
      ensures follower != null ==> ReplayState() == Executed(old(ReplayState()), i)
      ensures follower == null ==> unchanged(this, session, longTracker, shortTracker)
      ensures follower == null ==>
        om.View() == old(AfterIntent(om.View(), i, Where(), engine.sizing, session.currentBalance))
    {
      hide Trading, ReplayOk, Conforming, Admits, WithoutOrder, LifeView, Flush, Where;
      FilledStays(om.View(), i, Where(), engine.sizing, session.currentBalance);
      match i
      case PlaceLimit(_, _, _, _, _, _, _) => Place(i);
      case CancelLimit(orderId) => Cancel(orderId);
    }

    lemma FilledStays(b: Book, i: Intent, p: Positions, sizing: Sizing, balance: real)
      ensures AfterIntent(b, i, p, sizing, balance).filled == b.filled
    {
    }

    // ---------- fills ----------

    /** Gives a fill to the tracker of its order's direction. A close never exceeds or uses up the
        position. */
    method GiveToTracker(f: Execution, ghost rest: seq<Execution>) returns (direction: Direction, realized: real)
      requires Trading([f] + rest) && f.qty > 0.0 && f.price > 0.0
      modifies longTracker, shortTracker
      ensures Trading(rest)
      ensures direction == engine.identity(f.orderLinkId).1
      ensures var l := old(longTracker.state);
        longTracker.state
          == if direction == Long then Filled(Long, om.commissionRate, l, Fill(f.side, f.qty, f.price)) else l
      ensures var s := old(shortTracker.state);
        shortTracker.state
          == if direction == Short then Filled(Short, om.commissionRate, s, Fill(f.side, f.qty, f.price)) else s
      ensures realized == Tracker(direction).state.realized - old(Tracker(direction).state.realized)
      ensures !IsOpening(direction, f.side) ==>
        0.0 < Tracker(direction).state.size == old(Tracker(direction).state.size) - f.qty
      ensures !IsOpening(direction, f.side) ==>
        f.qty < if direction == Long then old(longTracker.state.size) else old(shortTracker.state.size)
    {
      hide OrdersOk, Reserved, Owed, Gate, Known, Filled, Consistent;
      direction := DirectionOf(f);
      GateAfterFill(f, rest, direction);
      FilledSize(direction, om.commissionRate, Tracker(direction).state, f);
      RestIsKnown(f, rest);
      var r := Tracker(direction).ProcessFill(f.side, f.qty, f.price);
      realized := r.value;
    }

    lemma RestIsKnown(f: Execution, rest: seq<Execution>)
      requires Trading([f] + rest)
      ensures Known(f) && f.qty > 0.0 && f.price > 0.0
      ensures forall r <- rest :: Known(r) && r.qty > 0.0
    {
      assert f in [f] + rest;
      assert forall r <- rest :: r in [f] + rest;
    }

    ghost function SizeOf(direction: Direction): real
      reads longTracker, shortTracker
    {
      Tracker(direction).state.size
    }

    lemma FilledSize(direction: Direction, rate: real, s: PositionState, f: Execution)
      requires Consistent(s) && f.qty > 0.0 && f.price > 0.0
      requires !IsOpening(direction, f.side) ==> f.qty < s.size
      ensures Filled(direction, rate, s, Fill(f.side, f.qty, f.price)).size
           == if IsOpening(direction, f.side) then s.size + f.qty else s.size - f.qty
    {
    }

    lemma KnownSide(f: Execution)
      requires Known(f)
      ensures engine.identity(f.orderLinkId).0 == f.side
    {
    }

    /** What the close gate says once the first owed fill has reached its tracker. */
    lemma GateAfterFill(f: Execution, rest: seq<Execution>, direction: Direction)
      requires Trading([f] + rest) && direction == engine.identity(f.orderLinkId).1
      ensures !IsOpening(direction, f.side) ==> f.qty < SizeOf(direction)
      ensures Gate(if IsOpening(direction, f.side) then SizeOf(direction) + f.qty else SizeOf(direction) - f.qty,
                   Reserved(om.active, direction) + Owed(engine.identity, rest, direction))
      ensures var other := if direction == Long then Short else Long;
        Gate(SizeOf(other), Reserved(om.active, other) + Owed(engine.identity, rest, other))
    {
      hide BookOk, AllConform, Known, Reserved, Owed, Consistent;
      ActiveArePositive(om.View());
      RestIsKnown(f, rest);
      assert engine.identity(f.orderLinkId).0 == f.side by { KnownSide(f); }
      OwedFirst(engine.identity, f, rest, direction);
      OwedFirst(engine.identity, f, rest, if direction == Long then Short else Long);
      ReservedNonNegative(om.active, direction);
      OwedNonNegative(engine.identity, rest, direction);
      if !IsOpening(direction, f.side) {
        CloseStaysInside(SizeOf(direction), Reserved(om.active, direction) + Owed(engine.identity, rest, direction),
                         f.qty);
      }
    }

    method DirectionOf(f: Execution) returns (direction: Direction)
      requires OrdersOk() && Known(f)
      ensures direction == engine.identity(f.orderLinkId).1
    {
      var order := om.OrderByClientId(f.orderLinkId);
      match order
      case Some(o) =>
        assert OrderConforms(engine.identity, o);
        direction := o.direction;
      case None =>
        assert false;
    }

    lemma OwedFirst(identity: Identity, f: Execution, rest: seq<Execution>, direction: Direction)
      ensures Owed(identity, [f] + rest, direction) == Closes(identity, f, direction) + Owed(identity, rest, direction)
    {
      assert ([f] + rest)[1..] == rest;
    }

    // ---------- recorded fills ----------

    /** Every drained row is applied once, in flight, or given up, and never two of these. */
    ghost predicate RowsAccountedFor()
      reads this`applied, this`inFlight, this`liveOnly, this`liveOnlyCount, follower
    {
      && follower != null && follower.cursor <= |follower.executions|
      && Seen() + liveOnly == multiset(follower.executions[..follower.cursor])
      && liveOnlyCount == |liveOnly|
    }

    /** The slice that an execution is of a row. */
    ghost function SliceOf(row: RecordedExecution, f: Execution): AppliedRow {
      AppliedRow(row, AmountsOf(f), f.side, engine.identity(f.orderLinkId).1)
    }

    /** Row, key and execution belong together. */
    ghost predicate IsRowOf(row: RecordedExecution, key: Key, f: Execution)
      reads this`inFlight
    {
      && follower != null && row in inFlight && row in follower.executions
      && key == LifecycleKey(row) && f.ts == row.ts && f.execId == row.execId && f.price == row.price && f.qty > 0.0
    }

    /** Adds one applied slice to its lifecycle's roll-up, opening one when there is none. */
    method Gather(f: Execution, key: Key, replayOrderId: string, direction: Direction, ghost row: RecordedExecution)
      requires IsRowOf(row, key, f) && direction == engine.identity(f.orderLinkId).1
      modifies this`rollups, this`index, this`applied, this`inFlight, this`reopened
      ensures applied == old(applied) + [SliceOf(row, f)]
      ensures inFlight == old(inFlight) - multiset{row}
      ensures LifeView() == AfterApply(old(LifeView()), SliceOf(row, f), replayOrderId, Left())
    {
      hide Groups, KeysRepeat, LeftOf, MatcherKey, Uses;
      var i := IndexByKey(rollups, key);
      var rollup := if i >= 0 then rollups[i] else Rollup(key, f.side, direction, ZERO, 0, "", {});
      var added := AmountsOf(f);
      rollup := rollup.(sums := Add(rollup.sums, added), lastTs := f.ts, lastExecId := f.execId,
                        replayOrderIds := rollup.replayOrderIds + {replayOrderId});
      reopened := reopened || (i < 0 && Uses(TradeEntries(session.trades), key) > 0);
      rollups := if i >= 0 then rollups[i := rollup] else rollups + [rollup];
      index := index[replayOrderId := key];
      applied := applied + [SliceOf(row, f)];
      inFlight := inFlight - multiset{row};
    }

    /** The row taken out of flight was left before; what is left afterwards was left before. */
    lemma LessLeft(flight: multiset<RecordedExecution>, row: RecordedExecution)
      requires follower != null && row in flight
      ensures row.orderId in LeftOf(flight, follower.executions, follower.cursor)
      ensures LeftOf(flight - multiset{row}, follower.executions, follower.cursor)
           <= LeftOf(flight, follower.executions, follower.cursor)
    {
    }

    /** A key with a slice already means two rows of that key. */
    lemma KeyIsRepeated(row: RecordedExecution)
      requires follower != null && SeenInStream() && row in inFlight
      ensures HasSlice(applied, LifecycleKey(row)) ==> KeysRepeat(follower.executions)
    {
      hide LifecycleKey, KeysRepeat;
      if HasSlice(applied, LifecycleKey(row)) {
        var a :| a in applied && LifecycleKey(a.row) == LifecycleKey(row);
        var k :| 0 <= k < |applied| && applied[k] == a;
        assert RowsOf(applied)[k] == a.row;
        TwoRowsOfKey(follower.executions, follower.cursor, multiset(RowsOf(applied)), inFlight, a.row, row);
      }
    }

    method GatherInLife(f: Execution, key: Key, replayOrderId: string, direction: Direction,
                        ghost row: RecordedExecution)
      requires IsRowOf(row, key, f) && direction == engine.identity(f.orderLinkId).1 && LifeSettled()
      modifies this`rollups, this`index, this`applied, this`inFlight, this`reopened
      ensures LifeSettled()
      ensures applied == old(applied) + [SliceOf(row, f)]
      ensures inFlight == old(inFlight) - multiset{row}
      ensures LifeView() == AfterApply(old(LifeView()), SliceOf(row, f), replayOrderId, Left())
    {
      hide LifeOk, FlushedAreSettled, AfterApply, LeftOf, Groups, KeysRepeat, HasSlice, LifecycleKey, RowsOf;
      ghost var l := LifeView();
      RowInGroups(row);
      KeyIsRepeated(row);
      LessLeft(inFlight, row);
      Gather(f, key, replayOrderId, direction, row);
      RowMoves(old(applied), SliceOf(row, f), old(inFlight));
      RowApplied(l, SliceOf(row, f), replayOrderId, Left());
    }

    lemma RowInGroups(row: RecordedExecution)
      requires follower != null && row in follower.executions
      ensures LifecycleKey(row) in Groups(follower.executions)
    {
    }

    lemma RowMoves(applied: seq<AppliedRow>, a: AppliedRow, flight: multiset<RecordedExecution>)
      requires a.row in flight
      ensures multiset(RowsOf(applied + [a])) + (flight - multiset{a.row}) == multiset(RowsOf(applied)) + flight
    {
      RowsOfPush(applied, a);
    }

    /** The state once a slice taken from the book has been applied. */
    ghost function AfterSlice(s: State, f: Execution, replayOrderId: string, row: RecordedExecution): State {
      var a, flight := SliceOf(row, f), s.flight - multiset{row};
      var life, p := AfterApply(s.life, a, replayOrderId, IdsOf(flight) + s.ahead), Absorb(s.positions, a);
      s.(life := life, positions := p, flight := flight, wallet := Refreshed(s.wallet, life.applied, p, f.price))
    }

    /** One applied slice: position, roll-up, pending wallet. The recorded profit and fee are what
        the wallet sees; the tracker's own profit is not used. */
    method ApplyRecordedFillRow(f: Execution, key: Key, replayOrderId: string, ghost row: RecordedExecution)
      requires Trading([f]) && IsRowOf(row, key, f) && LifeSettled() && PositionsFollow()
      modifies this`rollups, this`index, this`applied, this`inFlight, this`reopened, longTracker, shortTracker
      modifies session`pendingRealizedPnl, session`pendingCommission, session`currentBalance
      ensures Trading([]) && LifeSettled() && PendingOk() && PositionsFollow()
      ensures applied == old(applied) + [SliceOf(row, f)]
      ensures inFlight == old(inFlight) - multiset{row}
      ensures ReplayState() == AfterSlice(old(ReplayState()), f, replayOrderId, row)
    {
      hide *;
      assert [f] + [] == [f];
      RestIsKnown(f, []);
      PositionsFollowIs(f);
      RowIs(row, key, f);
      ghost var l, s, a := longTracker.state, shortTracker.state, SliceOf(row, f);
      ghost var before, s0, purse := applied, ReplayState(), Purse();
      StateIs();
      PurseIs();
      var direction, realized := GiveToTracker(f, []);
      SliceIsFill(row, key, f);
      TrackersFollow(l, s, direction, a);
      ghost var l1, s1 := longTracker.state, shortTracker.state;
      GatherInLife(f, key, replayOrderId, direction, row);
      TradingIsWired();
      RefreshWallet(f.price);
      StillThere(l1, s1, before, a);
      SettledHolds();
      PurseIs();
      BalanceIsWorth(purse, f.price);
      SliceIsApplied(s0, f, replayOrderId, row);
    }

    lemma StateIs()
      ensures var s := ReplayState();
        && s.book == om.View() && s.life == LifeView() && s.script == engine.View() && s.positions == Where()
        && s.wallet == Purse() && s.flight == inFlight && s.ahead == Ahead() && s.life.applied == applied
    {
      hide Where, Purse, Ahead;
    }

    lemma PurseIs()
      ensures Purse() == Wallet(session.initialBalance, session.totalFunding, lastMarkPrice, session.currentBalance)
    {
    }

    lemma SettledHolds()
      requires LifeSettled()
      ensures LifeHolds()
    {
    }

    lemma SliceIsApplied(s: State, f: Execution, replayOrderId: string, row: RecordedExecution)
      requires follower != null && om.View() == s.book && engine.View() == s.script && Ahead() == s.ahead
      requires inFlight == s.flight - multiset{row} && applied == s.life.applied + [SliceOf(row, f)]
      requires LifeView() == AfterApply(s.life, SliceOf(row, f), replayOrderId, Left())
      requires Where() == Absorb(s.positions, SliceOf(row, f))
      requires Purse() == Refreshed(s.wallet, applied, Where(), f.price)
      ensures ReplayState() == AfterSlice(s, f, replayOrderId, row)
    {
      hide SliceOf, Absorb, Refreshed, LifeView, Where, Gathered, IdsOf, Undrained;
    }

    lemma PositionsFollowIs(f: Execution)
      requires Trading([f]) && PositionsFollow()
      ensures Consistent(longTracker.state) && Consistent(shortTracker.state)
      ensures Follows(om.commissionRate, Long, longStart, longTracker.state, applied)
      ensures Follows(om.commissionRate, Short, shortStart, shortTracker.state, applied)
      ensures Where() == Positions(Settled(longTracker.state), Settled(shortTracker.state))
    {
      hide Consistent, Follows, OrdersOk, GateHolds, Known;
    }

    lemma SliceIsFill(row: RecordedExecution, key: Key, f: Execution)
      requires IsRowOf(row, key, f) && f.price > 0.0
      ensures FillOf(SliceOf(row, f)) == Fill(f.side, f.qty, f.price) && ValidFill(FillOf(SliceOf(row, f)))
      ensures SliceOf(row, f).side == f.side && SliceOf(row, f).amounts.qty == f.qty
      ensures SliceOf(row, f).direction == engine.identity(f.orderLinkId).1
    {
    }

    /** One tracker took the fill, the other did not move: both follow the slices again. */
    lemma TrackersFollow(l: PositionState, s: PositionState, direction: Direction, a: AppliedRow)
      requires Consistent(l) && Consistent(s) && ValidFill(FillOf(a)) && a.direction == direction
      requires Follows(om.commissionRate, Long, longStart, l, applied)
      requires Follows(om.commissionRate, Short, shortStart, s, applied)
      requires longTracker.state == if direction == Long then Filled(Long, om.commissionRate, l, FillOf(a)) else l
      requires shortTracker.state == if direction == Short then Filled(Short, om.commissionRate, s, FillOf(a)) else s
      requires !IsOpening(direction, a.side) ==> a.amounts.qty < if direction == Long then l.size else s.size
      ensures Follows(om.commissionRate, Long, longStart, longTracker.state, applied + [a])
      ensures Follows(om.commissionRate, Short, shortStart, shortTracker.state, applied + [a])
      ensures Positions(Settled(longTracker.state), Settled(shortTracker.state))
           == Absorb(Positions(Settled(l), Settled(s)), a)
    {
      hide Follows, Filled, Consistent, ValidFill;
      FollowsOn(om.commissionRate, Long, longStart, l, longTracker.state, applied, a);
      FollowsOn(om.commissionRate, Short, shortStart, s, shortTracker.state, applied, a);
    }

    lemma StillThere(l: PositionState, s: PositionState, before: seq<AppliedRow>, a: AppliedRow)
      requires applied == before + [a]
      requires longTracker.state == l.(unrealized := longTracker.state.unrealized)
      requires shortTracker.state == s.(unrealized := shortTracker.state.unrealized)
      requires Follows(om.commissionRate, Long, longStart, l, before + [a])
      requires Follows(om.commissionRate, Short, shortStart, s, before + [a])
      ensures PositionsFollow() && Where() == Positions(Settled(l), Settled(s))
    {
      hide Follows;
      SameFollows(om.commissionRate, Long, longStart, l, longTracker.state, applied);
      SameFollows(om.commissionRate, Short, shortStart, s, shortTracker.state, applied);
    }

    ghost function Absorb(p: Positions, a: AppliedRow): Positions {
      Positions(Absorbed(om.commissionRate, Long, p.long, a), Absorbed(om.commissionRate, Short, p.short, a))
    }

    lemma RowApplied(l: Life, a: AppliedRow, replayOrderId: string, left: set<string>)
      requires LifeOk(l) && FlushedAreSettled(l)
      requires a.amounts.qty > 0.0 && LifecycleKey(a.row) in l.groups && a.row.orderId in l.left && left <= l.left
      requires HasSlice(l.applied, LifecycleKey(a.row)) ==> l.repeats
      ensures LifeOk(AfterApply(l, a, replayOrderId, left))
      ensures FlushedAreSettled(AfterApply(l, a, replayOrderId, left))
    {
      ApplyKeepsLife(l, a, replayOrderId, left);
      ApplyKeepsSettled(l, a, replayOrderId, left);
    }

    /** Takes the applied part from the matched order; until the tracker sees it, it is owed. */
    method TakeFromBook(e: RecordedExecution, orderId: string, ghost chosen: Order)
      returns (f: Option<Execution>, full: bool)
      requires Trading([])
      requires chosen in om.active && chosen.id == orderId
      modifies om
      ensures f.None? <==> e.qty <= 0.0
      ensures f.None? ==> unchanged(om)
      ensures f.Some? && e.price > 0.0 ==> Trading([f.value])
      ensures f.Some? ==> f.value.ts == e.ts && f.value.execId == e.execId && f.value.price == e.price
      ensures f.Some? ==> chosen.qty > 0.0 && IsAppliedPart(f.value, chosen, e.qty, e.fee, e.closedPnl)
      ensures f.Some? ==>
        om.View() == TakenFrom(old(om.View()), chosen, f.value.qty) && full == (f.value.qty == chosen.qty)
    {
      hide Trading, BookOk, FilledUp, PartlyFilled, ProRated;
      ghost var b := om.View();
      TradingIs();
      OnlyOneHasId(b, chosen);
      ghost var i;
      f, full, i := om.ApplyRecordedFill(orderId, e.price, e.qty, e.fee, e.closedPnl, e.ts, e.execId);
      if f.Some? && e.price > 0.0 {
        TakenIsOwed(b, chosen, f.value);
      }
    }

    lemma TradingIs()
      requires Trading([])
      ensures om.Valid() && engine.Valid() && PositionsOk()
      ensures AllConform(engine.identity, om.active) && AllConform(engine.identity, om.filled)
      ensures Gate(longTracker.state.size, Reserved(om.active, Long))
      ensures Gate(shortTracker.state.size, Reserved(om.active, Short))
    {
      hide BookOk, Consistent, Reserved, AllConform, Known, Gate;
      OwedNothing(engine.identity);
    }

    /** What an order gave up is owed: the gate holds for book and fill together. */
    lemma TakenIsOwed(b: Book, o: Order, f: Execution)
      requires o in b.active && om.View() == TakenFrom(b, o, f.qty) && b.active[IndexById(b.active, o.id)] == o
      requires om.Valid() && engine.Valid() && PositionsOk()
      requires AllConform(engine.identity, b.active) && AllConform(engine.identity, b.filled)
      requires Gate(longTracker.state.size, Reserved(b.active, Long))
      requires Gate(shortTracker.state.size, Reserved(b.active, Short))
      requires f.price > 0.0 && 0.0 < f.qty <= o.qty && f.orderLinkId == o.clientId && f.side == o.side
      ensures Trading([f])
    {
      hide BookOk, Consistent, Gate, Reserved, Owed, AllConform, OrderConforms, IndexById;
      var i := IndexById(b.active, o.id);
      ConformAfterFill(engine.identity, b.active, b.filled, i, f.qty);
      FillingOwes(engine.identity, b.active, i, f, Long);
      FillingOwes(engine.identity, b.active, i, f, Short);
    }

    lemma OnlyOneHasId(b: Book, chosen: Order)
      requires BookOk(b) && chosen in b.active
      ensures chosen.qty > 0.0 && forall o <- b.active :: o.id == chosen.id ==> o == chosen
    {
      var k :| 0 <= k < |b.active| && b.active[k] == chosen;
      IdsAreUnique(b, k);
      forall j | 0 <= j < |b.active| && j != k ensures b.active[j].id != chosen.id {
        assert Without(b.active, k)[if j < k then j else j - 1] == b.active[j];
      }
    }

    lemma ConformAfterFill(identity: Identity, active: seq<Order>, filled: seq<Order>, i: nat, qty: real)
      requires AllConform(identity, active) && AllConform(identity, filled) && i < |active|
      ensures var o := active[i];
        && OrderConforms(identity, o) && o.price > 0.0 && identity(o.clientId).0 == o.side
        && AllConform(identity, Without(active, i)) && AllConform(identity, filled + [o.(status := Done)])
        && AllConform(identity, active[i := o.(qty := o.qty - qty)])
        && (exists x <- Without(active, i) + (filled + [o.(status := Done)]) :: x.clientId == o.clientId)
        && (exists x <- active[i := o.(qty := o.qty - qty)] + filled :: x.clientId == o.clientId)
    {
      var o := active[i];
      assert OrderConforms(identity, o);
      var done, less := o.(status := Done), o.(qty := o.qty - qty);
      assert done in Without(active, i) + (filled + [done]) && done.clientId == o.clientId;
      assert active[i := less][i] in active[i := less] + filled;
    }

    /** The grid is told of the fill, then asked for intents as on a tick. */
    method React()
      requires Trading([]) && follower != null && ReplayOk()
      modifies this`rollups, this`index, this`premature, session`trades, session`totalRealizedPnl
      modifies session`totalCommission, session`totalVolume
      modifies session`pendingRealizedPnl, session`pendingCommission, session`currentBalance, longTracker, shortTracker
      modifies om, engine
      ensures Trading([]) && ReplayOk() && ReplayState() == Reacted(old(ReplayState()))
      ensures
        var s := old(ReplayState());
        ReplayState() == ExecutedAll(s.(script := Asked(Asked(s.script))), Answer(Asked(s.script)))
    {
      hide Trading, ReplayOk, LifeView, Where, Purse, ExecutedAll, Answer, Asked, Conforming;
      TellEngine([]);
      var intents := AskEngine();
      DispatchIntents(intents);
    }

    /** Applies a slice, flushes its lifecycle when the simulated order is used up, and lets the
        strategy react before the next row is looked at. */
    method ApplyAndReact(f: Execution, full: bool, key: Key, replayOrderId: string, ghost row: RecordedExecution)
      requires Trading([f]) && IsRowOf(row, key, f) && ReplayOk()
      modifies this`rollups, this`index, this`applied, this`inFlight, this`premature, this`reopened
      modifies session`trades, session`totalRealizedPnl, session`totalCommission, session`totalVolume
      modifies session`pendingRealizedPnl, session`pendingCommission, session`currentBalance
      modifies longTracker, shortTracker, om, engine
      ensures Trading([]) && ReplayOk()
      ensures inFlight == old(inFlight) - multiset{row} && Seen() == old(Seen())
      ensures applied == old(applied) + [SliceOf(row, f)]
      ensures var taken := AfterSlice(old(ReplayState()), f, replayOrderId, row);
        ReplayState() == Reacted(if full then Flush(taken, key, true) else taken)
      ensures full ==> forall r <- rollups :: r.key != key
    {
      hide Trading, LifeHolds, FlushedAreSettled, PendingOk, PositionsFollow, Known, LifecycleKey, RowsOf;
      hide SliceOf, Reacted, SamePositions, IsRowOf, ReplayState, AfterSlice, Flush, LifeView, Purse, Where, Ahead;
      hide Wired, AfterApply, LifeOk;
      RowIs(row, key, f);
      RowMoves(applied, SliceOf(row, f), inFlight);
      ApplyRecordedFillRow(f, key, replayOrderId, row);
      if full {
        FlushUsedUp(key);
      }
      ViewIs();
      ReactionOpensNothing(ReplayState());
      React();
      ViewIs();
    }

    lemma RowIs(row: RecordedExecution, key: Key, f: Execution)
      requires IsRowOf(row, key, f)
      ensures follower != null && row in inFlight && SliceOf(row, f).row == row
    {
    }

    /** Trigger 1. */
    method FlushUsedUp(key: Key)
      requires Trading([]) && follower != null && ReplayOk()
      modifies this`rollups, this`index, this`premature, session`trades, session`totalRealizedPnl
      modifies session`totalCommission, session`totalVolume
      modifies session`pendingRealizedPnl, session`pendingCommission, session`currentBalance, longTracker, shortTracker
      ensures Trading([]) && ReplayOk()
      ensures ReplayState() == Flush(old(ReplayState()), key, true)
      ensures forall r <- rollups :: r.key != key
    {
      hide Trading, LifeHolds, LifeView, FlushedAreSettled, PendingOk, PositionsFollow, ReplayState, Flush;
      TradingIsWired();
      MaybeFlushAggregatedTrade(key, 1, true);
      StillFollow();
    }

    /** One row of the drain loop: find its order and apply it. A fill at a price the tracker refuses
        ends the run. */
    method TryRow(e: RecordedExecution) returns (r: Result<bool>)
      requires Trading([]) && follower != null && ReplayOk() && follower.Valid()
      requires e in inFlight && e in follower.executions
      modifies this`rollups, this`index, this`applied, this`inFlight, this`premature, this`reopened
      modifies session`trades, session`totalRealizedPnl, session`totalCommission, session`totalVolume
      modifies session`pendingRealizedPnl, session`pendingCommission, session`currentBalance
      modifies longTracker, shortTracker, om, engine
      ensures r == Err(InvalidFill) <==> !Stuck(e, old(om.active)) && e.price <= 0.0
      ensures r.Err? ==> r.error == InvalidFill
      ensures r.Ok? ==> Trading([]) && ReplayOk()
      ensures r.Ok? ==> Tried(engine.identity, om.commissionRate, old(ReplayState()), e, ReplayState())
      ensures r.Ok? ==> (r.value <==> !Stuck(e, old(om.active)))
      ensures r.Ok? && !r.value ==> unchanged(this, om, session, longTracker, shortTracker)
      ensures r.Ok? && r.value ==> inFlight == old(inFlight) - multiset{e} && Seen() == old(Seen())
      ensures r.Ok? && old(AreSlices(applied)) ==> AreSlices(applied)
    {
      hide Trading, ReplayOk, Unmatchable, Selects, Consumed, Reacted, ReplayState, RowsOf, Seen, EventFollower.Valid;
      hide AreSlices, ProRated, MatcherKey, Tried, AfterSlice, Flush, TakenFrom, IsSlice;
      ghost var s := ReplayState();
      BookIs();
      var m, chosen := follower.Match(e, om.active);
      if m.None? {
        NothingTried(e);
        return Ok(false);
      }
      var f, full := TakeFromBook(e, m.value.replayOrderId, chosen.value);
      if f.None? {
        NothingTried(e);
        return Ok(false);
      }
      if e.price <= 0.0 {
        return Err(InvalidFill);
      }
      BookTaken(s);
      var key := (m.value.matcherKey, m.value.recordedOrderId);
      ApplyAndReact(f.value, full, key, m.value.replayOrderId, e);
      SliceIsTaken(s, e, f.value, full, chosen.value);
      MoreSlices(old(applied), SliceOf(e, f.value));
      RowIsStepped(s, e, chosen.value, ReplayState());
      return Ok(true);
    }

    lemma BookIs()
      ensures ReplayState().book == om.View()
    {
    }

    /** Only the book differs from `s`. */
    twostate lemma BookTaken(s: State)
      requires s == old(ReplayState()) && unchanged(this, session, engine, longTracker, shortTracker)
      requires follower != null ==> unchanged(follower)
      ensures ReplayState() == s.(book := om.View())
    {
      hide LifeView, Where, Purse, Ahead;
    }

    lemma RowIsStepped(s: State, e: RecordedExecution, o: Order, s': State)
      requires !Stuck(e, s.book.active) && RowStep(engine.identity, om.commissionRate, s, e, s', o)
      ensures Tried(engine.identity, om.commissionRate, s, e, s')
    {
      hide Stuck, RowStep;
    }

    lemma NothingTried(e: RecordedExecution)
      requires Stuck(e, om.active)
      ensures Tried(engine.identity, om.commissionRate, ReplayState(), e, ReplayState())
    {
      hide Stuck;
    }

    /** What was taken from the book is the slice the specification speaks of. */
    lemma SliceIsTaken(s: State, e: RecordedExecution, f: Execution, full: bool, o: Order)
      requires o in s.book.active && f.price == e.price
      requires IsAppliedPart(f, o, e.qty, e.fee, e.closedPnl) && full == (f.qty == o.qty)
      ensures SliceOf(e, f) == SliceFor(engine.identity, e, o) && IsSlice(SliceOf(e, f))
      ensures var taken := AfterSlice(s.(book := TakenFrom(s.book, o, f.qty)), f, o.id, e);
        Consumed(engine.identity, om.commissionRate, s, e, o)
          == if full then Flush(taken, LifecycleKey(e), true) else taken
    {
      hide Absorbed, AfterApply, Flush, FilledUp, PartlyFilled, Refreshed;
    }

    // ---------- the drain loop ----------

    /** One pass over the buffer, in order. Rows that found no order are kept for the next pass. */
    method DrainPass(buffer: seq<RecordedExecution>)
      returns (r: Result<bool>, leftover: seq<RecordedExecution>, ghost states: seq<State>)
      requires Trading([]) && follower != null && ReplayOk() && follower.Valid()
      requires inFlight == multiset(buffer) && forall e <- buffer :: e in follower.executions
      modifies this`rollups, this`index, this`applied, this`inFlight, this`premature, this`reopened
      modifies session`trades, session`totalRealizedPnl, session`totalCommission, session`totalVolume
      modifies session`pendingRealizedPnl, session`pendingCommission, session`currentBalance
      modifies longTracker, shortTracker, om, engine
      ensures r.Err? ==> r.error == InvalidFill && HasBadPrice(buffer)
      ensures r.Ok? ==> Trading([]) && ReplayOk() && Seen() == old(Seen())
      ensures r.Ok? && old(AreSlices(applied)) ==> AreSlices(applied)
      ensures r.Ok? ==> inFlight == multiset(leftover) && forall e <- leftover :: e in buffer
      ensures r.Ok? ==> |leftover| <= |buffer| && (r.value ==> |leftover| < |buffer|)
      ensures r.Ok? && !r.value ==> om.active == old(om.active) && AllStuck(leftover, om.active)
      ensures r.Ok? ==> Leads(engine.identity, om.commissionRate, old(ReplayState()), states, buffer, ReplayState())
    {
      hide *;
      leftover := [];
      var progress := false;
      states := [ReplayState()];
      LeadsNowhere(engine.identity, om.commissionRate, ReplayState());
      PassBegins(buffer);
      NoneStuck(om.active);
      for k := 0 to |buffer|
        invariant Trading([]) && ReplayOk() && Seen() == old(Seen())
        invariant old(AreSlices(applied)) ==> AreSlices(applied)
        invariant InPass(inFlight, leftover, buffer, k) && (progress ==> |leftover| < k)
        invariant !progress ==> om.active == old(om.active) && AllStuck(leftover, om.active)
        invariant Leads(engine.identity, om.commissionRate, old(ReplayState()), states, buffer[..k], ReplayState())
      {
        var e := buffer[k];
        ghost var s := ReplayState();
        PassGoesOn(inFlight, leftover, buffer, k);
        OneMoreStuck(leftover, e, om.active);
        var done := TryRow(e);
        if done.Err? {
          BadPrice(buffer, k);
          return Err(done.error), leftover, states;
        }
        LeadsOn(engine.identity, om.commissionRate, old(ReplayState()), states, buffer[..k], s, e, ReplayState());
        states := states + [ReplayState()];
        if done.value {
          progress := true;
        } else {
          leftover := leftover + [e];
        }
      }
      PassEnds(inFlight, leftover, buffer);
      r := Ok(progress);
    }

    lemma BadPrice(buffer: seq<RecordedExecution>, k: nat)
      requires k < |buffer| && buffer[k].price <= 0.0
      ensures HasBadPrice(buffer)
    {
    }

    // ---------- flushing at the end of a tick and of the replay ----------

    /** Flushes every lifecycle whose recorded order has no rows left, neither undrained nor among
        this tick's leftovers. */
    method FlushPostFixpoint(leftover: seq<RecordedExecution>)
      requires Trading([]) && follower != null && ReplayOk() && follower.Valid() && inFlight == multiset(leftover)
      modifies this`rollups, this`index, this`premature, session`trades, session`totalRealizedPnl
      modifies session`totalCommission, session`totalVolume
      modifies session`pendingRealizedPnl, session`pendingCommission, session`currentBalance, longTracker, shortTracker
      ensures Trading([]) && ReplayOk() && SamePositions()
      ensures ReplayState() == Swept(old(ReplayState()), KeysOf(old(rollups)), false)
      ensures forall r <- rollups :: r.key.1 in Left()
      ensures forall u :: session.PnlDelta(u) == old(session.PnlDelta(u))
    {
      hide Trading, LifeHolds, LifeView, FlushedAreSettled, PendingOk, Left, PositionsFollow, ReplayState, Flush, Swept;
      var leftoverOrderIds := set ex <- leftover :: ex.orderId;
      LeftIs(leftover);
      var keys := KeysOf(rollups);
      assert keys[0..] == keys && keys[..0] == [];
      SweptNothing(ReplayState(), false);
      for k := 0 to |keys|
        invariant Trading([]) && LifeSettled() && PendingOk() && SamePositions()
        invariant ReplayState() == Swept(old(ReplayState()), keys[..k], false)
        invariant forall r <- rollups :: r.key in keys[k..] || r.key.1 in Left()
        invariant forall u :: session.PnlDelta(u) == old(session.PnlDelta(u))
      {
        var key := keys[k];
        assert keys[k..] == [key] + keys[k + 1..] && keys[..k + 1] == keys[..k] + [key];
        SweptPush(old(ReplayState()), keys[..k], key, false);
        StateLeft();
        if key.1 in leftoverOrderIds {
          continue;
        }
        if follower.HasPendingForOrder(key.1) {
          continue;
        }
        TradingIsWired();
        MaybeFlushAggregatedTrade(key, 2, false);
      }
      assert keys[..|keys|] == keys;
      StillFollow();
    }

    lemma StateLeft()
      ensures ReplayState().life.left == Left() && ReplayState().life.rollups == rollups
    {
    }

    /** Rows left are the leftovers and the undrained tail: the two tests of the flush cover both. */
    lemma LeftIs(leftover: seq<RecordedExecution>)
      requires follower != null && follower.Valid() && inFlight == multiset(leftover)
      ensures forall id :: id in Left() <==> id in (set ex <- leftover :: ex.orderId) || follower.HasPendingForOrder(id)
    {
      forall id ensures id in Left() <==> id in (set ex <- leftover :: ex.orderId) || follower.HasPendingForOrder(id) {
        assert follower.HasPendingForOrder(id) <==>
          exists k :: follower.cursor <= k < |follower.executions| && follower.executions[k].orderId == id;
      }
    }

    /** End of the replay: whatever is still open becomes a trade and nothing stays pending. */
    method FinalizeEventFollower()
      requires follower != null && LifeHolds() && PendingOk() && Wired()
      modifies this`rollups, this`index, this`premature, session`trades, session`totalRealizedPnl
      modifies session`totalCommission, session`totalVolume
      modifies session`pendingRealizedPnl, session`pendingCommission, session`currentBalance, longTracker, shortTracker
      ensures LifeHolds() && rollups == [] && premature == old(premature)
      ensures ReplayState() == Swept(old(ReplayState()), KeysOf(old(rollups)), true)
      ensures PositionsFollow() == old(PositionsFollow())
      ensures session.pendingRealizedPnl == session.pendingCommission == 0.0
      ensures forall u :: session.PnlDelta(u) == old(session.PnlDelta(u))
    {
      hide LifeHolds, LifeView, PendingOk, Left, Trading, FlushedAreSettled, PositionsFollow, ReplayState, Flush, Swept;
      var keys := KeysOf(rollups);
      assert keys[0..] == keys && keys[..0] == [];
      SweptNothing(ReplayState(), true);
      for k := 0 to |keys|
        invariant LifeHolds() && PendingOk() && SamePositions() && premature == old(premature)
        invariant ReplayState() == Swept(old(ReplayState()), keys[..k], true)
        invariant forall r <- rollups :: r.key in keys[k..]
        invariant forall u :: session.PnlDelta(u) == old(session.PnlDelta(u))
      {
        assert keys[k..] == [keys[k]] + keys[k + 1..] && keys[..k + 1] == keys[..k] + [keys[k]];
        SweptPush(old(ReplayState()), keys[..k], keys[k], true);
        MaybeFlushAggregatedTrade(keys[k], 4, false);
      }
      assert keys[..|keys|] == keys;
      EmptyOrInhabited(rollups);
      NothingPending();
      session.ClearPendingWallet();
      StillFollow();
    }

    lemma EmptyOrInhabited(rs: seq<Rollup>)
      ensures rs == [] || exists r :: r in rs
    {
      if rs != [] { assert rs[0] in rs; }
    }

    lemma NothingPending()
      requires PendingOk() && rollups == []
      ensures session.pendingRealizedPnl == session.pendingCommission == 0.0
    {
    }

    // ---------- ticks of a replay ----------

    ghost predicate DrainedTo(edge: Option<int>)
      reads follower
    {
      && follower != null && follower.Valid() && edge == follower.lastTickTs
      && DrainedUpTo(follower.executions, follower.cursor, follower.initialPrevTs, edge)
    }

    /** Between ticks: nothing in flight and every drained row accounted for. */
    ghost predicate AtTickBoundary()
      reads this, session, follower, om, engine, longTracker, shortTracker
    {
      DrainedTo(prevTickTs) && RowsAccountedFor() && inFlight == multiset{} && Trading([]) && ReplayOk()
    }

    /** Moves the rows up to the tick from the stream into flight. */
    method DrainTo(ts: int) returns (r: Result<seq<RecordedExecution>>)
      requires DrainedTo(prevTickTs) && RowsAccountedFor() && inFlight == multiset{} && ReplayOk()
      modifies this`inFlight, follower
      ensures r.Err? <==> prevTickTs.Some? && ts < prevTickTs.value
      ensures r.Err? ==> r.error == NonMonotonicTick && unchanged(this, follower)
      ensures ReplayOk() && follower.Valid()
      ensures r.Ok? ==> DrainedTo(Some(ts)) && RowsAccountedFor() && inFlight == multiset(r.value)
      ensures r.Ok? ==>
        old(follower.cursor) <= follower.cursor && r.value == follower.executions[old(follower.cursor)..follower.cursor]
      ensures r.Ok? ==> ReplayState() == old(ReplayState()).(flight := multiset(r.value), ahead := Ahead())
    {
      hide DrainedUpTo, ReplayOk, LeftOf, RowsOf, After, LifeView, Left, EventFollower.IndexIsLast, RowsAccountedFor;
      hide ReplayState;
      ghost var start := follower.cursor;
      NothingInFlight();
      r := follower.Drain(WindowStart(follower.initialPrevTs, prevTickTs), ts);
      if r.Ok? {
        NextWindow(follower.executions, start, follower.cursor, follower.initialPrevTs, prevTickTs, ts);
        inFlight := multiset(r.value);
        WindowInFlight(start);
        RowsMoved();
      }
    }

    lemma NothingInFlight()
      requires RowsAccountedFor() && inFlight == multiset{}
      ensures multiset(RowsOf(applied)) + liveOnly == multiset(follower.executions[..follower.cursor])
      ensures liveOnlyCount == |liveOnly| && Left() == LeftOf(multiset{}, follower.executions, follower.cursor)
    {
      hide RowsOf, LeftOf;
    }

    lemma WindowInFlight(start: nat)
      requires follower != null && start <= follower.cursor <= |follower.executions|
      requires inFlight == multiset(follower.executions[start..follower.cursor]) && liveOnlyCount == |liveOnly|
      requires multiset(RowsOf(applied)) + liveOnly == multiset(follower.executions[..start])
      ensures RowsAccountedFor() && Left() == LeftOf(multiset{}, follower.executions, start)
    {
      hide RowsOf, LeftOf;
      DrainingKeepsLeft(follower.executions, start, follower.cursor);
      var es, n := follower.executions, follower.cursor;
      assert es[..n] == es[..start] + es[start..n];
    }

    /** Rows of the window moved into flight: nothing else a replay depends on changed. */
    twostate lemma RowsMoved()
      requires old(ReplayOk()) && RowsAccountedFor()
      requires Left() == old(Left()) && rollups == old(rollups) && index == old(index) && applied == old(applied)
      requires premature == old(premature) && reopened == old(reopened)
      requires lastMarkPrice == old(lastMarkPrice) && unchanged(session, om, engine, longTracker, shortTracker)
      ensures ReplayOk() && ReplayState() == old(ReplayState()).(flight := inFlight, ahead := Ahead())
    {
      hide LifeOk, FlushedAreSettled, PendingOk, PositionsFollow, Seen, LeftOf, Groups, KeysRepeat, Ahead;
    }

    /** Passes repeat until one makes no progress. The buffer shrinks on every other, so the loop
        ends whatever the strategy answers, and then the book can take no leftover. `tried` are the
        rows looked at, in order, `states` the states passed on the way. */
    method DrainLoop(buffer: seq<RecordedExecution>)
      returns (r: Result<seq<RecordedExecution>>, ghost states: seq<State>, ghost tried: seq<RecordedExecution>)
      requires Trading([]) && ReplayOk() && RowsAccountedFor() && follower.Valid()
      requires inFlight == multiset(buffer) && forall e <- buffer :: e in follower.executions
      modifies this`rollups, this`index, this`applied, this`inFlight, this`premature, this`reopened
      modifies session`trades, session`totalRealizedPnl, session`totalCommission, session`totalVolume
      modifies session`pendingRealizedPnl, session`pendingCommission, session`currentBalance
      modifies longTracker, shortTracker, om, engine
      ensures r.Err? ==> r.error == InvalidFill && HasBadPrice(buffer)
      ensures r.Ok? ==> Trading([]) && ReplayOk() && RowsAccountedFor()
      ensures r.Ok? ==> inFlight == multiset(r.value) && AllStuck(r.value, om.active) && follower.Valid()
      ensures r.Ok? && old(AreSlices(applied)) ==> AreSlices(applied)
      ensures r.Ok? ==> Leads(engine.identity, om.commissionRate, old(ReplayState()), states, tried, ReplayState())
      ensures r.Ok? ==> buffer <= tried
    {
      hide Trading, ReplayOk, Stuck, AllStuck, Seen, AreSlices, Leads, ReplayState, Tried, EventFollower.Valid;
      var leftover := buffer;
      states, tried := [ReplayState()], [];
      LeadsNowhere(engine.identity, om.commissionRate, ReplayState());
      while true
        invariant Trading([]) && ReplayOk() && RowsAccountedFor()
        invariant old(AreSlices(applied)) ==> AreSlices(applied)
        invariant inFlight == multiset(leftover) && forall e <- leftover :: e in buffer
        invariant Leads(engine.identity, om.commissionRate, old(ReplayState()), states, tried, ReplayState())
        invariant buffer <= tried || (tried == [] && leftover == buffer)
        decreases |leftover|
      {
        var progress, rest;
        ghost var more;
        ghost var s := ReplayState();
        progress, rest, more := DrainPass(leftover);
        if progress.Err? {
          return Err(progress.error), states, tried;
        }
        LeadsFurther(engine.identity, om.commissionRate, old(ReplayState()), states, tried, s, more, leftover,
                     ReplayState());
        states, tried := states + more[1..], tried + leftover;
        leftover := rest;
        NoneStuck(om.active);
        if !progress.value || leftover == [] {
          break;
        }
      }
      r := Ok(leftover);
    }

    /** Rows still in flight at the end of a tick had no order: they count as live-only. */
    method GiveUp(leftover: seq<RecordedExecution>)
      requires ReplayOk() && RowsAccountedFor() && inFlight == multiset(leftover)
      modifies this`liveOnlyCount, this`liveOnly, this`inFlight
      ensures ReplayOk() && RowsAccountedFor() && inFlight == multiset{}
      ensures liveOnly == old(liveOnly) + multiset(leftover)
      ensures var s := old(ReplayState()); ReplayState() == s.(life := s.life.(left := s.ahead), flight := multiset{})
    {
      hide ReplayOk, RowsOf, LifeView, Where, Purse, Ahead, Left, RowsAccountedFor, ReplayState;
      liveOnlyCount := liveOnlyCount + |leftover|;
      liveOnly := liveOnly + inFlight;
      inFlight := multiset{};
      GivenUp();
    }

    twostate lemma GivenUp()
      requires old(ReplayOk()) && old(RowsAccountedFor()) && inFlight == multiset{}
      requires liveOnly == old(liveOnly + inFlight) && liveOnlyCount == old(liveOnlyCount + |inFlight|)
      requires rollups == old(rollups) && index == old(index) && applied == old(applied)
      requires premature == old(premature) && reopened == old(reopened) && lastMarkPrice == old(lastMarkPrice)
      requires unchanged(session, om, engine, longTracker, shortTracker, follower)
      ensures ReplayOk() && RowsAccountedFor()
      ensures var s := old(ReplayState()); ReplayState() == s.(life := s.life.(left := s.ahead), flight := multiset{})
    {
      hide LifeOk, FlushedAreSettled, RowsOf, PendingOk, PositionsFollow, Groups, KeysRepeat, Where, Undrained, IdsOf;
      hide OrdersOk, PositionsOk;
      NoneInFlight();
      LifeGivenUp(old(LifeView()));
    }

    lemma LifeGivenUp(l: Life)
      requires follower != null && inFlight == multiset{} && SeenInStream() && session.TotalsOk()
      requires LifeOk(l) && FlushedAreSettled(l) && LifeView() == l.(left := Ahead()) && Ahead() <= l.left
      ensures LifeSettled()
    {
      hide LifeOk, FlushedAreSettled, LifeView, Ahead, SeenInStream;
      FewerLeft(l, Ahead());
    }

    lemma NoneInFlight()
      ensures IdsOf(multiset{}) == {}
    {
    }

    /** What follows the drain loop: the last-in-stream flush, the pending wallet, the leftovers. */
    method EndTick(leftover: seq<RecordedExecution>)
      requires follower != null && follower.Valid() && inFlight == multiset(leftover)
      requires Trading([]) && ReplayOk() && RowsAccountedFor()
      modifies this`liveOnlyCount, this`liveOnly, this`inFlight
      modifies this`rollups, this`index, this`premature, session`trades, session`totalRealizedPnl
      modifies session`totalCommission, session`totalVolume
      modifies session`pendingRealizedPnl, session`pendingCommission, session`currentBalance, longTracker, shortTracker
      ensures Trading([]) && ReplayOk() && RowsAccountedFor() && inFlight == multiset{}
      ensures liveOnly == old(liveOnly) + multiset(leftover) && ReplayState() == Settling(old(ReplayState()))
      ensures OpenHaveRowsLeft(leftover)
    {
      hide Trading, ReplayOk, LeftOf, RowsAccountedFor, ReplayState, EventFollower.Valid, Swept;
      ghost var s := ReplayState();
      StateLeft();
      FlushPostFixpoint(leftover);
      PushPending();
      SweptKeepsAhead(s, KeysOf(s.life.rollups), false);
      GiveUp(leftover);
    }

    method PushPending()
      requires ReplayOk()
      modifies session`pendingRealizedPnl, session`pendingCommission
      ensures ReplayOk()
    {
      hide LifeOk, LifeView, FlushedAreSettled, PendingOk, PositionsFollow;
      SetSessionPending();
    }

    /** The drain of one tick: its window into flight, then passes up to the fixpoint. `tried` starts
        with the window. */
    method DrainTick(ts: int)
      returns (r: Result<seq<RecordedExecution>>, ghost states: seq<State>, ghost tried: seq<RecordedExecution>)
      requires AtTickBoundary()
      modifies this`rollups, this`index, this`applied, this`inFlight, this`premature, this`reopened
      modifies session`trades, session`totalRealizedPnl, session`totalCommission, session`totalVolume
      modifies session`pendingRealizedPnl, session`pendingCommission, session`currentBalance
      modifies longTracker, shortTracker, om, engine, follower
      ensures r == Err(NonMonotonicTick) <==> prevTickTs.Some? && ts < prevTickTs.value
      ensures r.Err? && r.error != NonMonotonicTick ==> r.error == InvalidFill && HasBadPrice(follower.executions)
      ensures r.Ok? ==> DrainedTo(Some(ts)) && RowsAccountedFor() && Trading([]) && ReplayOk()
      ensures r.Ok? ==> inFlight == multiset(r.value) && AllStuck(r.value, om.active)
      ensures r.Ok? && old(AreSlices(applied)) ==> AreSlices(applied)
      ensures r.Ok? ==> DrainedWindow(old(follower.cursor), tried)
      ensures r.Ok? ==> LeadsInWindow(old(ReplayState()), old(follower.cursor), states, tried, ReplayState())
    {
      hide DrainedUpTo, Trading, AllStuck, LeftOf, RowsAccountedFor, AreSlices, ReplayOk, AtTickBoundary;
      hide Leads, ReplayState, DrainedTo, EventFollower.Valid;
      states, tried := [], [];
      BoundaryIs();
      var d := DrainTo(ts);
      if d.Err? {
        return Err(NonMonotonicTick), [], [];
      }
      DrainedIs(Some(ts));
      r, states, tried := DrainLoop(d.value);
      if r.Err? {
        return Err(InvalidFill), states, tried;
      }
    }

    /** The states lead from `s`, with the window since `from` in flight, to `last`. */
    ghost predicate LeadsInWindow(s: State, from: nat, states: seq<State>, tried: seq<RecordedExecution>, last: State)
      reads follower
    {
      && follower != null && from <= follower.cursor <= |follower.executions|
      && var window := multiset(follower.executions[from..follower.cursor]);
         Leads(engine.identity, om.commissionRate, s.(flight := window, ahead := Ahead()), states, tried, last)
    }

    /** The rows drained since the cursor stood at `from` were tried first, in order. */
    ghost predicate DrainedWindow(from: nat, tried: seq<RecordedExecution>)
      reads follower
    {
      && follower != null && from <= follower.cursor <= |follower.executions|
      && follower.executions[from..follower.cursor] <= tried
    }

    /** Open lifecycles have rows left: undrained ones, or leftovers of this tick. */
    ghost predicate OpenHaveRowsLeft(leftover: seq<RecordedExecution>)
      reads this`rollups, follower
    {
      && follower != null
      && forall o <- rollups :: o.key.1 in LeftOf(multiset(leftover), follower.executions, follower.cursor)
    }

    /** The state with a new mark price. */
    ghost function Marked(mark: Option<real>): State
      reads this`rollups, this`index, this`applied, this`inFlight, this`premature, this`reopened, this`lastMarkPrice
      reads session`trades, session`totalFunding, session`currentBalance
      reads follower, om, engine, longTracker, shortTracker
    {
      var s := ReplayState();
      s.(wallet := s.wallet.(mark := mark))
    }

    twostate lemma MarkIs(mark: Option<real>)
      requires lastMarkPrice == mark
      requires rollups == old(rollups) && index == old(index) && applied == old(applied) && inFlight == old(inFlight)
      requires premature == old(premature) && reopened == old(reopened)
      requires unchanged(session, om, engine, longTracker, shortTracker)
      requires follower != null ==> unchanged(follower)
      ensures ReplayState() == old(Marked(mark))
    {
    }

    /** One tick of the replay. */
    method ProcessRecordedFills(tick: Tick)
      returns (r: Result<()>, ghost leftover: seq<RecordedExecution>, ghost states: seq<State>,
               ghost tried: seq<RecordedExecution>, ghost last: State)
      requires AtTickBoundary()
      modifies this`prevTickTs, this`lastMarkPrice, this`liveOnlyCount, this`liveOnly
      modifies this`rollups, this`index, this`applied, this`inFlight, this`premature, this`reopened
      modifies session`trades, session`totalRealizedPnl, session`totalCommission, session`totalVolume
      modifies session`pendingRealizedPnl, session`pendingCommission, session`currentBalance
      modifies longTracker, shortTracker, om, engine, follower
      ensures r == Err(NonMonotonicTick) <==> old(prevTickTs).Some? && tick.ticker.exchangeTs < old(prevTickTs).value
      ensures r.Err? && r.error != NonMonotonicTick ==> r.error == InvalidFill && HasBadPrice(follower.executions)
      ensures r.Ok? ==> AtTickBoundary() && prevTickTs == Some(tick.ticker.exchangeTs)
      ensures r.Ok? ==> liveOnly == old(liveOnly) + multiset(leftover) && AllStuck(leftover, om.active)
      ensures r.Ok? ==> OpenHaveRowsLeft(leftover)
      ensures r.Ok? && old(AreSlices(applied)) ==> AreSlices(applied)
      ensures r.Ok? ==> DrainedWindow(old(follower.cursor), tried) && ReplayState() == Settling(last)
      ensures r.Ok? ==> LeadsInWindow(old(Marked(tick.mark)), old(follower.cursor), states, tried, last)
    {
      hide *;
      leftover := [];
      BoundaryIs();
      lastMarkPrice := tick.mark;
      MarkIs(tick.mark);
      BoundaryAgain();
      var buffer;
      buffer, states, tried := DrainTick(tick.ticker.exchangeTs);
      last := ReplayState();
      if buffer.Err? {
        return Err(buffer.error), [], states, tried, last;
      }
      leftover := buffer.value;
      DrainedIs(Some(tick.ticker.exchangeTs));
      EndTick(buffer.value);
      prevTickTs := Some(tick.ticker.exchangeTs);
      BoundaryAgain();
      r := Ok(());
    }

    lemma BoundaryIs()
      requires AtTickBoundary()
      ensures DrainedTo(prevTickTs) && RowsAccountedFor() && inFlight == multiset{} && Trading([]) && ReplayOk()
      ensures follower != null && follower.lastTickTs == prevTickTs
    {
    }

    lemma DrainedIs(edge: Option<int>)
      requires DrainedTo(edge)
      ensures follower != null && follower.Valid() && follower.cursor <= |follower.executions|
    {
    }

    lemma BoundaryAgain()
      requires DrainedTo(prevTickTs) && RowsAccountedFor() && inFlight == multiset{} && Trading([]) && ReplayOk()
      ensures AtTickBoundary()
    {
    }

    /** Second phase of a tick: the strategy's intents, sized and executed at the current balance. */
    method ExecuteTick() returns (intents: seq<Intent>)
      requires Trading([]) && ReplayOk()
      modifies this`rollups, this`index, this`premature, session`trades, session`totalRealizedPnl
      modifies session`totalCommission, session`totalVolume
      modifies session`pendingRealizedPnl, session`pendingCommission, session`currentBalance, longTracker, shortTracker
      modifies om, engine
      ensures Trading([]) && ReplayOk() && SamePositions() && om.filled == old(om.filled)
      ensures intents == Answer(old(engine.View())) && engine.View() == Asked(old(engine.View()))
      ensures follower != null ==>
        ReplayState() == ExecutedAll(old(ReplayState()).(script := Asked(old(engine.View()))), intents)
      ensures follower == null ==> unchanged(this, session, longTracker, shortTracker)
      ensures follower == null ==>
        om.View() == AfterIntents(old(om.View()), intents, Where(), engine.sizing, session.currentBalance)
      ensures forall u :: session.PnlDelta(u) == old(session.PnlDelta(u))
    {
      hide Trading, ReplayOk, Where, AfterIntents, ExecutedAll, LifeView, Purse, Answer, Asked;
      intents := AskEngine();
      DispatchIntents(intents);
    }

    method AskEngine() returns (intents: seq<Intent>)
      requires Trading([])
      modifies engine
      ensures Trading([]) && forall i <- intents :: Conforming(engine.identity, i)
      ensures intents == Answer(old(engine.View())) && engine.View() == Asked(old(engine.View()))
    {
      hide BookOk, AllConform, PositionsOk, GateHolds, Known, Conforming;
      intents := engine.OnEvent();
    }

    // ---------- simulated fills ----------

    /** Realised profit less commission and funding, over both directions. */
    ghost function TrackerNet(): real
      reads longTracker, shortTracker
    {
      longTracker.state.realized - longTracker.state.commissionPaid - longTracker.state.fundingPaid
      + (shortTracker.state.realized - shortTracker.state.commissionPaid - shortTracker.state.fundingPaid)
    }

    /** The trade records the execution. */
    ghost predicate Reports(t: Trade, f: Execution) {
      && t.side == f.side && t.price == f.price && t.qty == f.qty && t.ts == f.ts && t.commission == f.fee
      && t.orderId == f.orderId && t.clientOrderId == f.orderLinkId && t.direction == engine.identity(f.orderLinkId).1
    }

    ghost predicate Reportable(f: Execution) {
      f.qty > 0.0 && f.price > 0.0 && f.fee == f.qty * f.price * om.commissionRate
    }

    ghost function ToFill(f: Execution): (r: Fill)
      ensures Reportable(f) ==> ValidFill(r)
    {
      Fill(f.side, f.qty, f.price)
    }

    /** The fills of one direction among the executions. */
    ghost function Share(direction: Direction, fills: seq<Execution>): (r: seq<Fill>)
      requires forall f <- fills :: Reportable(f)
      ensures forall x <- r :: ValidFill(x)
    {
      if fills == [] then []
      else
        var f := fills[|fills| - 1];
        assert Reportable(f);
        Share(direction, fills[..|fills| - 1])
          + if engine.identity(f.orderLinkId).1 == direction then [ToFill(f)] else []
    }

    /** One market fill: position, trade, balances. The session books what the tracker books. */
    method ProcessFill(f: Execution, ghost rest: seq<Execution>) returns (ghost trade: Trade)
      requires Trading([f] + rest) && session.TotalsOk() && Reportable(f)
      modifies longTracker, shortTracker
      modifies session`trades, session`totalRealizedPnl, session`totalCommission, session`totalVolume
      modifies session`currentBalance
      ensures Trading(rest) && session.TotalsOk()
      ensures session.Net() - TrackerNet() == old(session.Net() - TrackerNet())
      ensures session.trades == old(session.trades) + [trade] && Reports(trade, f)
      ensures trade.side == f.side && trade.price == f.price && trade.qty == f.qty && trade.commission == f.fee
      ensures trade.ts == f.ts && trade.orderId == f.orderId && trade.clientOrderId == f.orderLinkId
      ensures trade.direction == engine.identity(f.orderLinkId).1
      ensures trade.realizedPnl == longTracker.state.realized + shortTracker.state.realized
                                   - old(longTracker.state.realized + shortTracker.state.realized)
      ensures Core(Long) == MovedBy(Long, old(Core(Long)), f) && Core(Short) == MovedBy(Short, old(Core(Short)), f)
    {
      hide Known, OrdersOk, Reserved, Owed, Gate, Consistent, Filled, Total, BalanceAt, UnrealisedPnl;
      ghost var l, s := longTracker.state, shortTracker.state;
      var direction, realized := GiveToTracker(f, rest);
      FilledBooks(direction, om.commissionRate, if direction == Long then l else s, Fill(f.side, f.qty, f.price));
      FillingLeavesCaches(direction, om.commissionRate, if direction == Long then l else s,
                          Fill(f.side, f.qty, f.price));
      var t := Trade(f.execId, f.side, f.price, f.qty, direction, f.ts, f.orderId, f.orderLinkId, realized, f.fee);
      trade := t;
      session.RecordTrade(t);
      Refresh(f.price);
    }

    /** What one execution does to one direction: nothing unless it is of that direction. */
    ghost function MovedBy(direction: Direction, s: PositionState, f: Execution): PositionState {
      if engine.identity(f.orderLinkId).1 == direction && Reportable(f) && Consistent(s)
      then Filled(direction, om.commissionRate, s, ToFill(f)) else s
    }

    lemma FilledBooks(direction: Direction, rate: real, s: PositionState, f: Fill)
      requires Consistent(s) && ValidFill(f)
      ensures Filled(direction, rate, s, f).commissionPaid == s.commissionPaid + f.qty * f.price * rate
      ensures Filled(direction, rate, s, f).fundingPaid == s.fundingPaid
    {
    }

    /** The orders of `active` that the market reached at `t`, and no others, were filled. */
    ghost predicate FilledReached(t: Ticker, active: seq<Order>, filled: seq<Order>)
      reads om, om.simulator
    {
      om.filled == filled + WithStatus(Filling(om.simulator.mode, om.simulator.PrevOf(t.symbol), t, active), Done)
    }

    /** The orders the market reached left the active list for the filled one, and each is reported
        as filled in full at its limit. */
    ghost predicate TakenFromBook(t: Ticker, active: seq<Order>, filled: seq<Order>, fills: seq<Execution>)
      reads om, om.simulator
    {
      var mode, prev := om.simulator.mode, om.simulator.PrevOf(t.symbol);
      && om.active == Resting(mode, prev, t, active)
      && FilledReached(t, active, filled)
      && FullFillsOf(fills, Filling(mode, prev, t, active), om.commissionRate, t.exchangeTs)
    }

    /** The market takes its fills from the book; until the trackers see them they are owed. */
    method TakeFillsFromMarket(t: Ticker) returns (fills: seq<Execution>)
      requires Trading([]) && om.simulator.Valid()
      modifies om, om.simulator
      ensures Trading(fills) && om.simulator.Valid()
      ensures (forall f <- fills :: Reportable(f)) && TakenFromBook(t, old(om.active), old(om.filled), fills)
      ensures om.simulator.View() == Advanced(old(om.simulator.View()), t)
      ensures om.simulator.PrevOf(t.symbol) == PriceBefore(om.simulator.View(), t.symbol)
      ensures om.View() == AfterFills(old(om.View()), om.simulator.mode, om.simulator.PrevOf(t.symbol), t)
    {
      hide BookOk, Reserved, Owed, Gate, Consistent, Reached, FullFillsOf, AllConform, Filling, Resting, WithStatus;
      hide Known, AfterFills, Advanced, PriceBefore;
      ghost var active, filled := om.active, om.filled;
      ActiveArePositive(om.View());
      ghost var filling;
      fills, filling := om.CheckFills(t);
      ghost var mode, prev := om.simulator.mode, om.simulator.PrevOf(t.symbol);
      OwedNothing(engine.identity);
      FillsConform(engine.identity, mode, prev, t, active, filled);
      ReservedSplitsByFilling(mode, prev, t, active, Long);
      ReservedSplitsByFilling(mode, prev, t, active, Short);
      ReportsOwe(engine.identity, filling, fills, om.commissionRate, t.exchangeTs, Long);
      ReportsOwe(engine.identity, filling, fills, om.commissionRate, t.exchangeTs, Short);
      FillsAreKnown(active, filling, fills, filled, t.exchangeTs);
    }

    lemma FillsConform(identity: Identity, mode: FillMode, prev: Option<real>, t: Ticker, active: seq<Order>,
                       filled: seq<Order>)
      requires AllConform(identity, active) && AllConform(identity, filled)
      ensures AllConform(identity, Filling(mode, prev, t, active))
      ensures AllConform(identity, Resting(mode, prev, t, active))
      ensures AllConform(identity, filled + WithStatus(Filling(mode, prev, t, active), Done))
    {
      var done := WithStatus(Filling(mode, prev, t, active), Done);
      forall o | o in done ensures OrderConforms(identity, o) {
        var k :| 0 <= k < |done| && done[k] == o;
        assert OrderConforms(identity, Filling(mode, prev, t, active)[k]);
      }
    }

    lemma FillsAreKnown(active: seq<Order>, filling: seq<Order>, fills: seq<Execution>, filled: seq<Order>, ts: int)
      requires FullFillsOf(fills, filling, om.commissionRate, ts) && AllConform(engine.identity, filling)
      requires forall o <- filling :: o.qty > 0.0
      requires om.filled == filled + WithStatus(filling, Done)
      ensures forall f <- fills :: Known(f) && Reportable(f)
    {
      forall f | f in fills ensures Known(f) && Reportable(f) {
        var k :| 0 <= k < |fills| && fills[k] == f;
        assert OrderConforms(engine.identity, filling[k]);
        var done := filling[k].(status := Done);
        assert om.filled[|filled| + k] == done && done in om.active + om.filled;
      }
    }

    /** New trades, one for each fill and in the same order, follow the old ones. */
    ghost predicate TradesFollow(before: seq<Trade>, after: seq<Trade>, fills: seq<Execution>) {
      && |after| == |before| + |fills| && after[..|before|] == before
      && forall k :: 0 <= k < |fills| ==> Reports(after[|before| + k], fills[k])
    }

    /** A direction has moved by exactly its share of the fills. */
    ghost predicate Moved(direction: Direction, before: PositionState, after: PositionState, fills: seq<Execution>) {
      && (forall f <- fills :: Reportable(f)) && Consistent(before)
      && after == Run(direction, om.commissionRate, before, Share(direction, fills))
    }

    /** First phase of a simulated tick: every order the market reached is filled once, becomes one
        trade and moves its own tracker. The grid is told of every fill; what it answers here is
        not placed. */
    method ProcessSimulatedFills(tick: Tick) returns (ghost done: seq<Execution>)
      requires Trading([]) && om.simulator.Valid() && session.TotalsOk() && engine.Valid()
      modifies this`lastMarkPrice, longTracker, shortTracker, om, om.simulator, engine
      modifies session`trades, session`totalRealizedPnl, session`totalCommission, session`totalVolume
      modifies session`currentBalance
      ensures Trading([]) && om.simulator.Valid() && session.TotalsOk()
      ensures session.Net() - TrackerNet() == old(session.Net() - TrackerNet())
      ensures TakenFromBook(tick.ticker, old(om.active), old(om.filled), done)
      ensures TradesFollow(old(session.trades), session.trades, done)
      ensures Moved(Long, old(Core(Long)), Core(Long), done) && Moved(Short, old(Core(Short)), Core(Short), done)
      ensures om.simulator.View() == Advanced(old(om.simulator.View()), tick.ticker)
      ensures om.simulator.PrevOf(tick.ticker.symbol) == PriceBefore(om.simulator.View(), tick.ticker.symbol)
      ensures om.View()
           == AfterFills(old(om.View()), om.simulator.mode, om.simulator.PrevOf(tick.ticker.symbol), tick.ticker)
      ensures engine.View() == AskedTimes(old(engine.View()), |done|) && lastMarkPrice == tick.mark
    {
      hide AfterFills, Advanced, PriceBefore, BacktestSession.TotalsOk, BacktestSession.Net;
      hide Trading, Reportable, TakenFromBook, TradesFollow, Moved, Reports, MovedBy, TrackerNet, Core;
      hide TradeThroughFillSimulator.Valid, TradeThroughFillSimulator.View, TradeThroughFillSimulator.PrevOf;
      lastMarkPrice := tick.mark;
      NothingMoved();
      var fills := TakeFillsFromMarket(tick.ticker);
      done := fills;
      assert fills[0..] == fills && fills[..0] == [];
      for k := 0 to |fills|
        invariant Trading(fills[k..]) && om.simulator.Valid() && session.TotalsOk()
        invariant TakenFromBook(tick.ticker, old(om.active), old(om.filled), fills)
        invariant session.Net() - TrackerNet() == old(session.Net() - TrackerNet())
        invariant om.simulator.View() == Advanced(old(om.simulator.View()), tick.ticker)
        invariant om.simulator.PrevOf(tick.ticker.symbol) == PriceBefore(om.simulator.View(), tick.ticker.symbol)
        invariant om.View()
               == AfterFills(old(om.View()), om.simulator.mode, om.simulator.PrevOf(tick.ticker.symbol), tick.ticker)
        invariant engine.View() == AskedTimes(old(engine.View()), k) && lastMarkPrice == tick.mark
        invariant TradesFollow(old(session.trades), session.trades, fills[..k])
        invariant Moved(Long, old(Core(Long)), Core(Long), fills[..k])
        invariant Moved(Short, old(Core(Short)), Core(Short), fills[..k])
      {
        assert fills[k..] == [fills[k]] + fills[k + 1..];
        assert fills[..k + 1] == fills[..k] + [fills[k]];
        ghost var trades, l, s := session.trades, Core(Long), Core(Short);
        ghost var trade := ProcessFill(fills[k], fills[k + 1..]);
        TradesFollowOn(old(session.trades), trades, fills[..k], trade, fills[k]);
        MovedOn(Long, old(Core(Long)), l, fills[..k], fills[k]);
        MovedOn(Short, old(Core(Short)), s, fills[..k], fills[k]);
        TellEngine(fills[k + 1..]);
      }
      assert fills[|fills|..] == [] && fills[..|fills|] == fills;
    }

    lemma NothingMoved()
      requires Trading([])
      ensures Moved(Long, Core(Long), Core(Long), []) && Moved(Short, Core(Short), Core(Short), [])
      ensures TradesFollow(session.trades, session.trades, [])
    {
      hide OrdersOk, GateHolds, Known;
    }

    lemma TradesFollowOn(before: seq<Trade>, trades: seq<Trade>, fills: seq<Execution>, t: Trade, f: Execution)
      requires TradesFollow(before, trades, fills) && Reports(t, f)
      ensures TradesFollow(before, trades + [t], fills + [f])
    {
    }

    lemma MovedOn(direction: Direction, before: PositionState, s: PositionState, fills: seq<Execution>, f: Execution)
      requires Moved(direction, before, s, fills) && Reportable(f)
      ensures Moved(direction, before, MovedBy(direction, s, f), fills + [f])
    {
      hide Reportable, Filled, Run, Consistent;
      assert (fills + [f])[..|fills|] == fills;
      if engine.identity(f.orderLinkId).1 == direction {
        RunPush(direction, om.commissionRate, before, Share(direction, fills), ToFill(f));
      } else {
        assert Share(direction, fills + [f]) == Share(direction, fills);
      }
    }

    /** What a tick does to a direction in money: profit at any mark, less the value of the open
        part, grows by the cash its fills moved. */
    lemma TickMovesCash(direction: Direction, before: PositionState, after: PositionState, fills: seq<Execution>,
                        mark: real)
      requires Moved(direction, before, after, fills)
      ensures Net(direction, after, mark)
           == Net(direction, before, mark) + CashFlow(direction, before.size, Share(direction, fills))
    {
      CashFlowIdentity(direction, om.commissionRate, before, Share(direction, fills), mark);
    }

    method TellEngine(ghost owed: seq<Execution>)
      requires Trading(owed)
      modifies engine
      ensures Trading(owed) && engine.View() == Asked(old(engine.View()))
    {
      hide BookOk, AllConform, PositionsOk, GateHolds;
      var ignored := engine.OnEvent();
    }

    /** Shorts receive what longs pay on equal size. */
    ghost function FundingDue(rate: real, price: real): real
      reads longTracker, shortTracker
    {
      Payment(Long, longTracker.state.size, rate, price) + Payment(Short, shortTracker.state.size, rate, price)
    }

    /** Longs and shorts settle funding; the session books the sum. */
    method ApplyFunding(rate: real, price: real) returns (total: real)
      requires Trading([])
      modifies longTracker, shortTracker, session`totalFunding
      ensures Trading([])
      ensures session.Net() - TrackerNet() == old(session.Net() - TrackerNet())
      ensures total == FundingDue(rate, price) == old(FundingDue(rate, price))
      ensures session.totalFunding == old(session.totalFunding) + total
      ensures total == (shortTracker.state.size - longTracker.state.size) * price * rate
      ensures longTracker.state.fundingPaid
           == old(longTracker.state.fundingPaid) + longTracker.state.size * price * rate
      ensures shortTracker.state.fundingPaid
           == old(shortTracker.state.fundingPaid) - shortTracker.state.size * price * rate
      ensures ReplayState() == FundedAt(old(ReplayState()), rate, price)
      ensures PositionsFollow() == old(PositionsFollow())
    {
      hide OrdersOk, Reserved, Owed, Known, Follows, LifeView, Ahead, Payment;
      ChargedLeaves(om.commissionRate, Long, longStart, longTracker.state, rate, price, applied);
      ChargedLeaves(om.commissionRate, Short, shortStart, shortTracker.state, rate, price, applied);
      NetFunding(longTracker.state.size, shortTracker.state.size, rate, price);
      var l := longTracker.ApplyFunding(rate, price);
      var s := shortTracker.ApplyFunding(rate, price);
      total := l + s;
      session.RecordFunding(total);
    }

    /** Fresh unrealised profit of both directions; the trackers cache it. */
    method CalculateUnrealized(price: real) returns (u: real)
      requires PositionsOk()
      modifies longTracker, shortTracker
      ensures SamePositions() && PositionsOk()
      ensures forall owed :: old(Trading(owed)) ==> Trading(owed)
      ensures u == CachedUnrealized() == UnrealizedAt(price) && TrackerNet() == old(TrackerNet())
      ensures Where() == old(Where()) && PositionsFollow() == old(PositionsFollow())
      ensures forall p :: UnrealizedAt(p) == old(UnrealizedAt(p))
    {
      hide OrdersOk, Reserved, Owed, Known, PositionsFollow, Where;
      var l := longTracker.CalculateUnrealizedPnl(price);
      var s := shortTracker.CalculateUnrealizedPnl(price);
      u := l + s;
      StillFollow();
    }

    /** Profit of both open positions at a price. */
    ghost function UnrealizedAt(price: real): real
      reads longTracker, shortTracker
    {
      var l, s := longTracker.state, shortTracker.state;
      UnrealisedPnl(Long, l.avgEntry, price, l.size) + UnrealisedPnl(Short, s.avgEntry, price, s.size)
    }

    ghost function CachedUnrealized(): real
      reads longTracker, shortTracker
    {
      longTracker.state.unrealized + shortTracker.state.unrealized
    }
  }
}
