/**
 What a replay does, as functions of its state: one intent, one flush, one recorded row, one tick.
 The runner's methods are proved against these functions.
 */
module ReplaySteps {
  import opened Common
  import OrderIds
  import opened Ledger
  import opened OrderBook
  import opened FillSimulator
  import opened OrderManager
  import opened RecordedStream
  import opened PositionTracker
  import opened Lifecycle
  import opened Strategy
  import opened CloseGate

  datatype Tick = Tick(ticker: Ticker, mark: Option<real>)

  function TickTimes(ticks: seq<Tick>): (ts: seq<int>)
    ensures |ts| == |ticks|
  {
    seq(|ticks|, i requires 0 <= i < |ticks| => ticks[i].ticker.exchangeTs)
  }

  /** Both directions, without the mark-dependent cache. */
  datatype Positions = Positions(long: PositionState, short: PositionState)

  function Of(p: Positions, direction: Direction): PositionState {
    if direction == Long then p.long else p.short
  }

  /** Profit of both open positions at a price. */
  function OpenProfit(p: Positions, price: real): real {
    UnrealisedPnl(Long, p.long.avgEntry, price, p.long.size)
    + UnrealisedPnl(Short, p.short.avgEntry, price, p.short.size)
  }

  /** The session's money besides what slices bring: start, funding, mark price, last balance. */
  datatype Wallet = Wallet(initial: real, funding: real, mark: Option<real>, balance: real)

  /** What the replay depends on: the book, the lifecycles, the strategy's script, the positions, the
      wallet, the rows in flight and the order ids of rows not drained yet. */
  datatype State = State(
    book: Book,
    life: Life,
    script: Script,
    positions: Positions,
    wallet: Wallet,
    flight: multiset<RecordedExecution>,
    ahead: set<string>
  )

  // ---------- the wallet ----------

  /** Everything earned at a price: the recorded profit less fees of every applied slice, booked or
      not, funding, and the profit of the open positions. */
  ghost function Worth(w: Wallet, applied: seq<AppliedRow>, p: Positions, price: real): real {
    var sums := Total(RowEntries(applied), None);
    w.initial + sums.pnl - sums.fee + w.funding + OpenProfit(p, price)
  }

  /** The balance after a refresh: valued at the mark price, or at `fallback` while there is none. */
  ghost function Refreshed(w: Wallet, applied: seq<AppliedRow>, p: Positions, fallback: real): Wallet {
    w.(balance := Worth(w, applied, p, if w.mark.Some? then w.mark.value else fallback))
  }

  ghost function EquityAt(s: State, price: real): real {
    Worth(s.wallet, s.life.applied, s.positions, price)
  }

  // ---------- flushes ----------

  /** A flush of one lifecycle; the balance is refreshed with the trade's price as fallback. */
  ghost function Flush(s: State, key: Key, early: bool): State {
    var i := IndexByKey(s.life.rollups, key);
    if i < 0 || s.life.rollups[i].sums.qty <= 0.0 then s
    else
      var price := s.life.rollups[i].sums.notional / s.life.rollups[i].sums.qty;
      s.(life := AfterFlush(s.life, i, early), wallet := Refreshed(s.wallet, s.life.applied, s.positions, price))
  }

  /** The lifecycles of `keys` in order, each flushed unless its order has rows left; all of them in
      the sweep that ends the replay. */
  ghost function Swept(s: State, keys: seq<Key>, final: bool): State {
    if keys == [] then s
    else
      var before, key := Swept(s, keys[..|keys| - 1], final), keys[|keys| - 1];
      if !final && key.1 in before.life.left then before else Flush(before, key, false)
  }

  lemma SweptPush(s: State, keys: seq<Key>, key: Key, final: bool)
    ensures Swept(s, keys + [key], final)
         == var before := Swept(s, keys, final);
            if !final && key.1 in before.life.left then before else Flush(before, key, false)
  {
    assert (keys + [key])[..|keys|] == keys;
  }

  lemma SweptNothing(s: State, final: bool)
    ensures Swept(s, [], final) == s
  {
  }

  lemma {:induction false} SweptKeepsAhead(s: State, keys: seq<Key>, final: bool)
    ensures Swept(s, keys, final).ahead == s.ahead
  {
    if keys != [] { SweptKeepsAhead(s, keys[..|keys| - 1], final); }
  }

  // ---------- intents ----------

  /** The close gate lets the intent through, its quantity is positive and no active order has its
      client id. */
  ghost predicate Admits(b: Book, i: Intent, size: real, qty: real)
    requires i.PlaceLimit?
  {
    && (i.reduceOnly ==> size != 0.0 && size > Reserved(b.active, i.direction) + qty)
    && qty > 0.0 && i.clientId !in b.clientIds
  }

  /** The gate refuses a close exactly when placing it would break the gate: where it holds, a close of
      a positive quantity under an unused client id is placed if and only if the position exceeds
      everything reserved to close it, the new order included. */
  lemma ClosesAreRefusedForTheGate(b: Book, i: Intent, p: Positions, sizing: Sizing, balance: real, o: Order)
    requires i.PlaceLimit? && i.reduceOnly && i.clientId !in b.clientIds && (forall x <- b.active :: x.qty > 0.0)
    requires o.qty == Sized(sizing, i, balance) > 0.0 && o.reduceOnly && o.direction == i.direction
    requires Gate(Of(p, i.direction).size, Reserved(b.active, i.direction))
    ensures AfterIntent(b, i, p, sizing, balance).active == b.active <==>
      !Gate(Of(p, i.direction).size, Reserved(b.active + [o], i.direction))
    ensures AfterIntent(b, i, p, sizing, balance).active != b.active <==>
      Of(p, i.direction).size > Reserved(b.active, i.direction) + o.qty
  {
    hide Sized;
    ReservedPush(b.active, o, i.direction);
    ReservedNonNegative(b.active, i.direction);
    var after := AfterIntent(b, i, p, sizing, balance);
    assert after.active == b.active || |after.active| == |b.active| + 1;
  }

  ghost function WithoutOrder(b: Book, orderId: string): Book {
    var k := IndexById(b.active, orderId);
    if k >= 0 then Removed(b, k) else b
  }

  /** The order book after one intent, sized at the given balance. */
  ghost function AfterIntent(b: Book, i: Intent, p: Positions, sizing: Sizing, balance: real): Book {
    match i
    case PlaceLimit(clientId, symbol, side, price, _, direction, reduceOnly) =>
      var qty := Sized(sizing, i, balance);
      if Admits(b, i, Of(p, direction).size, qty) then
        var id := OrderIds.SimId(b.counter + 1);
        Placed(b, Order(id, clientId, symbol, side, price, qty, direction, reduceOnly, Pending), b.counter + 1)
      else b
    case CancelLimit(orderId) => WithoutOrder(b, orderId)
  }

  /** The fold of the intents over the book at one balance: what a run without a replay does. */
  ghost function AfterIntents(b: Book, intents: seq<Intent>, p: Positions, sizing: Sizing, balance: real): Book {
    if intents == [] then b
    else
      var n := |intents| - 1;
      AfterIntent(AfterIntents(b, intents[..n], p, sizing, balance), intents[n], p, sizing, balance)
  }

  lemma IntentsPush(b: Book, intents: seq<Intent>, i: Intent, p: Positions, sizing: Sizing, balance: real)
    ensures AfterIntents(b, intents + [i], p, sizing, balance)
         == AfterIntent(AfterIntents(b, intents, p, sizing, balance), i, p, sizing, balance)
  {
    assert (intents + [i])[..|intents|] == intents;
  }

  /** In a replay a cancel first flushes the lifecycle its order feeds, rows left or not. */
  ghost function FlushedFor(s: State, i: Intent): State {
    if i.CancelLimit? && i.orderId in s.life.index then Flush(s, s.life.index[i.orderId], true) else s
  }

  /** One intent in a replay: placed orders are sized at the balance of the moment. */
  ghost function Executed(s: State, i: Intent): State {
    FlushedFor(s, i).(book := AfterIntent(s.book, i, s.positions, s.script.sizing, s.wallet.balance))
  }

  ghost function ExecutedAll(s: State, intents: seq<Intent>): State {
    if intents == [] then s else Executed(ExecutedAll(s, intents[..|intents| - 1]), intents[|intents| - 1])
  }

  lemma ExecutedPush(s: State, intents: seq<Intent>, i: Intent)
    ensures ExecutedAll(s, intents + [i]) == Executed(ExecutedAll(s, intents), i)
  {
    assert (intents + [i])[..|intents|] == intents;
  }

  lemma ExecutedNothing(s: State)
    ensures ExecutedAll(s, []) == s
  {
  }

  /** Flushes and intents open nothing. */
  lemma FlushOpensNothing(s: State, key: Key, early: bool)
    ensures forall r <- Flush(s, key, early).life.rollups :: r in s.life.rollups
  {
    hide Refreshed;
  }

  lemma {:induction false} IntentsOpenNothing(s: State, intents: seq<Intent>)
    ensures forall r <- ExecutedAll(s, intents).life.rollups :: r in s.life.rollups
  {
    hide Flush, AfterIntent;
    if intents != [] {
      var before, i := ExecutedAll(s, intents[..|intents| - 1]), intents[|intents| - 1];
      IntentsOpenNothing(s, intents[..|intents| - 1]);
      if i.CancelLimit? && i.orderId in before.life.index {
        FlushOpensNothing(before, before.life.index[i.orderId], true);
      }
    }
  }

  // ---------- one recorded row ----------

  /** The part of a recorded row that covers `qty` of it. */
  function SliceAmounts(e: RecordedExecution, qty: real): Amounts {
    Amounts(qty, e.price * qty, ProRated(e.fee, qty, e.qty), ProRated(e.closedPnl, qty, e.qty))
  }

  /** The applied amounts are a part of their row, with fee and profit pro-rated. */
  ghost predicate IsSlice(a: AppliedRow) {
    0.0 < a.amounts.qty <= a.row.qty && a.amounts == SliceAmounts(a.row, a.amounts.qty)
  }

  ghost predicate AreSlices(applied: seq<AppliedRow>) {
    forall a <- applied :: IsSlice(a)
  }

  /** Fee and profit of a slice are to those of its row as its quantity is to the row's. */
  lemma SlicesAreProportional(applied: seq<AppliedRow>)
    requires AreSlices(applied)
    ensures forall a <- applied ::
      && 0.0 < a.amounts.qty <= a.row.qty && a.amounts.notional == a.row.price * a.amounts.qty
      && a.amounts.fee * a.row.qty == a.row.fee * a.amounts.qty
      && a.amounts.pnl * a.row.qty == a.row.closedPnl * a.amounts.qty
  {
    hide ProRated;
    forall a | a in applied
      ensures a.amounts.fee * a.row.qty == a.row.fee * a.amounts.qty
      ensures a.amounts.pnl * a.row.qty == a.row.closedPnl * a.amounts.qty
    {
      assert IsSlice(a);
      PartIsProportional(a.row.fee, a.amounts.qty, a.row.qty);
      PartIsProportional(a.row.closedPnl, a.amounts.qty, a.row.qty);
    }
  }

  lemma MoreSlices(applied: seq<AppliedRow>, a: AppliedRow)
    requires IsSlice(a)
    ensures AreSlices(applied) ==> AreSlices(applied + [a])
  {
    hide IsSlice;
  }

  function FillOf(a: AppliedRow): Fill {
    Fill(a.side, a.amounts.qty, a.row.price)
  }

  /** What one slice does to a position: nothing unless it is of that direction. */
  ghost function Absorbed(rate: real, direction: Direction, s: PositionState, a: AppliedRow): PositionState {
    if a.direction == direction && ValidFill(FillOf(a)) && Consistent(s) then Filled(direction, rate, s, FillOf(a))
    else s
  }

  /** A row that no active order can take, now or until the book changes. */
  ghost predicate Stuck(e: RecordedExecution, active: seq<Order>) {
    e.qty <= 0.0 || Unmatchable(e, active)
  }

  /** A linked row is stuck without an order of its client id, another one without an order of its
      exchange id or its side; a row of no quantity always. */
  lemma StuckInBook(e: RecordedExecution, active: seq<Order>)
    ensures e.qty <= 0.0 ==> Stuck(e, active)
    ensures e.qty > 0.0 && ClientPrefix(e.orderLinkId).Some? ==>
      (Stuck(e, active) <==> !exists o <- active :: o.clientId == ClientPrefix(e.orderLinkId).value)
    ensures e.qty > 0.0 && ClientPrefix(e.orderLinkId).None? ==>
      (Stuck(e, active) <==> !exists o <- active :: o.id == e.orderId || o.side == e.side)
  {
  }

  /** The slice that order `o` takes of row `e`. */
  ghost function SliceFor(identity: Identity, e: RecordedExecution, o: Order): AppliedRow {
    AppliedRow(e, SliceAmounts(e, Min(e.qty, o.qty)), o.side, identity(o.clientId).1)
  }

  /** The book once `qty` of order `o` was filled, in full or in part. */
  ghost function TakenFrom(b: Book, o: Order, qty: real): Book
    requires o in b.active
  {
    var i := IndexById(b.active, o.id);
    if qty == o.qty then FilledUp(b, i) else PartlyFilled(b, i, qty)
  }

  ghost function IdsOf(rows: multiset<RecordedExecution>): set<string> {
    set e | e in rows :: e.orderId
  }

  /** The state once order `o` has taken its slice and before its lifecycle is flushed: the book gives
      it up, the position absorbs it, its lifecycle gathers it, the balance is refreshed. */
  ghost function Gathering(identity: Identity, rate: real, s: State, e: RecordedExecution, o: Order): State
    requires o in s.book.active
  {
    var a := SliceFor(identity, e, o);
    var flight := s.flight - multiset{e};
    var life := AfterApply(s.life, a, o.id, IdsOf(flight) + s.ahead);
    var p := Positions(Absorbed(rate, Long, s.positions.long, a), Absorbed(rate, Short, s.positions.short, a));
    State(TakenFrom(s.book, o, a.amounts.qty), life, s.script, p, Refreshed(s.wallet, life.applied, p, e.price), flight,
          s.ahead)
  }

  /** The lifecycle is flushed when the order is used up, rows left or not. */
  ghost function Consumed(identity: Identity, rate: real, s: State, e: RecordedExecution, o: Order): State
    requires o in s.book.active
  {
    var gathered := Gathering(identity, rate, s, e, o);
    if SliceFor(identity, e, o).amounts.qty == o.qty then Flush(gathered, LifecycleKey(e), true) else gathered
  }

  /** The strategy is told of the fill, asked once more, and its answer is executed. */
  ghost function Reacted(s: State): State {
    ExecutedAll(s.(script := Asked(Asked(s.script))), Answer(Asked(s.script)))
  }

  lemma ReactionOpensNothing(s: State)
    ensures forall r <- Reacted(s).life.rollups :: r in s.life.rollups
  {
    hide ExecutedAll;
    IntentsOpenNothing(s.(script := Asked(Asked(s.script))), Answer(Asked(s.script)));
  }

  ghost predicate RowStep(identity: Identity, rate: real, s: State, e: RecordedExecution, s': State, o: Order) {
    Selects(e, s.book.active, o) && o.qty > 0.0 && s' == Reacted(Consumed(identity, rate, s, e, o))
  }

  /** A row is taken by the order it selects, or nothing happens because no order can take it. */
  ghost predicate Tried(identity: Identity, rate: real, s: State, e: RecordedExecution, s': State) {
    if Stuck(e, s.book.active) then s' == s
    else exists o: Order :: RowStep(identity, rate, s, e, s', o)
  }

  // ---------- many rows ----------

  /** The states passed when `rows` are tried one after the other. */
  ghost predicate Path(identity: Identity, rate: real, states: seq<State>, rows: seq<RecordedExecution>) {
    && |states| == |rows| + 1
    && forall k :: 0 <= k < |rows| ==> Tried(identity, rate, states[k], rows[k], states[k + 1])
  }

  /** The states lead from `first` to `last`. */
  ghost predicate Leads(identity: Identity, rate: real, first: State, states: seq<State>, rows: seq<RecordedExecution>,
                        last: State)
  {
    Path(identity, rate, states, rows) && states[0] == first && states[|rows|] == last
  }

  lemma LeadsNowhere(identity: Identity, rate: real, s: State)
    ensures Leads(identity, rate, s, [s], [], s)
  {
  }

  lemma LeadsOn(identity: Identity, rate: real, first: State, states: seq<State>, rows: seq<RecordedExecution>,
                last: State, e: RecordedExecution, s': State)
    requires Leads(identity, rate, first, states, rows, last) && Tried(identity, rate, last, e, s')
    ensures Leads(identity, rate, first, states + [s'], rows + [e], s')
  {
    hide Tried;
    PathPush(identity, rate, states, rows, e, s');
  }

  lemma LeadsFurther(identity: Identity, rate: real, first: State, a: seq<State>, rows: seq<RecordedExecution>,
                     middle: State, b: seq<State>, more: seq<RecordedExecution>, last: State)
    requires Leads(identity, rate, first, a, rows, middle) && Leads(identity, rate, middle, b, more, last)
    ensures b != [] && Leads(identity, rate, first, a + b[1..], rows + more, last)
  {
    hide Tried;
    PathAppend(identity, rate, a, rows, b, more);
  }

  lemma PathPush(identity: Identity, rate: real, states: seq<State>, rows: seq<RecordedExecution>, e: RecordedExecution,
                 s': State)
    requires Path(identity, rate, states, rows) && Tried(identity, rate, states[|rows|], e, s')
    ensures Path(identity, rate, states + [s'], rows + [e])
  {
    hide Tried;
  }

  lemma PathAppend(identity: Identity, rate: real, a: seq<State>, rows: seq<RecordedExecution>, b: seq<State>,
                   more: seq<RecordedExecution>)
    requires Path(identity, rate, a, rows) && Path(identity, rate, b, more) && a[|rows|] == b[0]
    ensures Path(identity, rate, a + b[1..], rows + more)
    ensures (a + b[1..])[0] == a[0] && (a + b[1..])[|rows| + |more|] == b[|more|]
  {
    hide Tried;
    var c, all := a + b[1..], rows + more;
    forall k | 0 <= k < |all| ensures Tried(identity, rate, c[k], all[k], c[k + 1]) {
      if k < |rows| {
        assert c[k] == a[k] && c[k + 1] == a[k + 1];
      } else {
        assert c[k] == b[k - |rows|] && c[k + 1] == b[k - |rows| + 1];
      }
    }
  }

  // ---------- a whole replay ----------

  /** Both directions settle funding at a rate and price; the session books the sum. */
  function FundedAt(s: State, rate: real, price: real): State {
    var l, h := s.positions.long, s.positions.short;
    s.(positions := Positions(Charged(Long, l, rate, price), Charged(Short, h, rate, price)),
       wallet := s.wallet.(funding := s.wallet.funding + Payment(Long, l.size, rate, price)
                                     + Payment(Short, h.size, rate, price)))
  }

  /** In money: positions pay on what they are long and receive on what they are short. */
  lemma FundedInMoney(s: State, rate: real, price: real)
    ensures var p, q := s.positions, FundedAt(s, rate, price).positions;
      && q.long == p.long.(fundingPaid := p.long.fundingPaid + p.long.size * price * rate)
      && q.short == p.short.(fundingPaid := p.short.fundingPaid - p.short.size * price * rate)
      && FundedAt(s, rate, price).wallet.funding
         == s.wallet.funding - p.long.size * price * rate + p.short.size * price * rate
  {
    hide Payment, Charged;
    LongsPayShortsReceive(s.positions.long, rate, price);
    LongsPayShortsReceive(s.positions.short, rate, price);
  }

  /** The start of a tick: funding when due, the tick's mark price, its window of rows in flight. */
  ghost function Begun(s: State, tick: Tick, funded: Option<real>, window: seq<RecordedExecution>,
                       ahead: set<string>): State
  {
    var f := if funded.Some? then FundedAt(s, funded.value, tick.ticker.lastPrice) else s;
    f.(wallet := f.wallet.(mark := tick.mark), flight := multiset(window), ahead := ahead)
  }

  /** The rows are done: finished lifecycles are flushed and the rows in flight given up. */
  ghost function Settling(s: State): State {
    var swept := Swept(s, KeysOf(s.life.rollups), false);
    swept.(life := swept.life.(left := s.ahead), flight := multiset{})
  }

  /** The end of a tick: the equity point refreshes the balance, then the strategy's answer to the
      tick itself is executed. */
  ghost function Concluded(s: State, price: real): State {
    var settled := Settling(s);
    var marked :=
      settled.(wallet := settled.wallet.(balance := EquityAt(settled, price)), script := Asked(settled.script));
    ExecutedAll(marked, Answer(settled.script))
  }

  ghost function Undrained(es: seq<RecordedExecution>, cursor: nat): set<string> {
    set k | cursor <= k < |es| :: es[k].orderId
  }

  /** One tick of a replay: the state before it, the funding rate applied if any, its window
      `from..to` of the stream, the rows tried and the states passed on the way, the state after it. */
  datatype Stage = Stage(
    before: State,
    tick: Tick,
    funded: Option<real>,
    from: nat,
    to: nat,
    tried: seq<RecordedExecution>,
    states: seq<State>,
    after: State
  )

  /** The window's rows are tried first, in order, then those that found no order again. */
  ghost predicate IsStage(identity: Identity, rate: real, es: seq<RecordedExecution>, g: Stage) {
    && Path(identity, rate, g.states, g.tried)
    && g.from <= g.to <= |es| && es[g.from..g.to] <= g.tried
    && g.states[0] == Begun(g.before, g.tick, g.funded, es[g.from..g.to], Undrained(es, g.to))
    && g.after == Concluded(g.states[|g.tried|], g.tick.ticker.lastPrice)
  }

  /** The equity point of a tick: what the state is worth once the rows are done. */
  ghost function EquityOf(g: Stage): (int, real)
    requires g.states != []
  {
    (g.tick.ticker.exchangeTs, EquityAt(Settling(g.states[|g.states| - 1]), g.tick.ticker.lastPrice))
  }

  function Final(first: State, stages: seq<Stage>): State {
    if stages == [] then first else stages[|stages| - 1].after
  }

  function Taken(stages: seq<Stage>): nat {
    if stages == [] then 0 else stages[|stages| - 1].to
  }

  /** The stages of a replay from state `first`: each starts where the one before ended, in the
      stream and in the state. */
  ghost predicate IsHistory(identity: Identity, rate: real, es: seq<RecordedExecution>, first: State,
                            stages: seq<Stage>) {
    forall k :: 0 <= k < |stages| ==>
      && IsStage(identity, rate, es, stages[k])
      && stages[k].before == Final(first, stages[..k]) && stages[k].from == Taken(stages[..k])
  }

  lemma HistoryPush(identity: Identity, rate: real, es: seq<RecordedExecution>, first: State, stages: seq<Stage>,
                    g: Stage)
    requires IsHistory(identity, rate, es, first, stages) && IsStage(identity, rate, es, g)
    requires g.before == Final(first, stages) && g.from == Taken(stages)
    ensures IsHistory(identity, rate, es, first, stages + [g])
    ensures Final(first, stages + [g]) == g.after && Taken(stages + [g]) == g.to
  {
    hide IsStage, Final, Taken;
    var longer := stages + [g];
    forall k | 0 <= k < |longer|
      ensures IsStage(identity, rate, es, longer[k])
      ensures longer[k].before == Final(first, longer[..k]) && longer[k].from == Taken(longer[..k])
    {
      if k < |stages| {
        assert longer[..k] == stages[..k];
      } else {
        assert longer[..k] == stages;
      }
    }
    EndOf(first, stages, g);
  }

  lemma EndOf(first: State, stages: seq<Stage>, g: Stage)
    ensures Final(first, stages + [g]) == g.after && Taken(stages + [g]) == g.to
  {
  }

  lemma NoHistory(identity: Identity, rate: real, es: seq<RecordedExecution>, first: State)
    ensures IsHistory(identity, rate, es, first, []) && Final(first, []) == first && Taken([]) == 0
  {
  }

  // ---------- positions follow the slices ----------

  /** The fills of one direction among the slices. */
  ghost function SliceFills(direction: Direction, applied: seq<AppliedRow>): (r: seq<Fill>)
    ensures forall f <- r :: ValidFill(f)
  {
    if applied == [] then []
    else
      var a := applied[|applied| - 1];
      SliceFills(direction, applied[..|applied| - 1])
        + if a.direction == direction && ValidFill(FillOf(a)) then [FillOf(a)] else []
  }

  lemma AbsorbingFollows(rate: real, direction: Direction, start: PositionState, applied: seq<AppliedRow>,
                         a: AppliedRow)
    requires Consistent(start)
    ensures Run(direction, rate, start, SliceFills(direction, applied + [a]))
         == Absorbed(rate, direction, Run(direction, rate, start, SliceFills(direction, applied)), a)
  {
    hide Filled, Run, ValidFill;
    assert (applied + [a])[..|applied|] == applied;
    var before := SliceFills(direction, applied);
    if a.direction == direction && ValidFill(FillOf(a)) {
      RunPush(direction, rate, start, before, FillOf(a));
    } else {
      assert SliceFills(direction, applied + [a]) == before;
    }
    RunIsConsistent(direction, rate, start, before);
  }

  lemma RunIsConsistent(direction: Direction, rate: real, s: PositionState, fills: seq<Fill>)
    requires Consistent(s) && forall f <- fills :: ValidFill(f)
    ensures Consistent(Run(direction, rate, s, fills))
  {
  }

  /** Every close is strictly smaller than the position it meets. */
  ghost predicate ClosesInside(direction: Direction, rate: real, s: PositionState, fills: seq<Fill>)
    requires Consistent(s) && forall f <- fills :: ValidFill(f)
  {
    forall k :: 0 <= k < |fills| && !IsOpening(direction, fills[k].side) ==>
      fills[k].qty < Run(direction, rate, s, fills[..k]).size
  }

  lemma OneMoreInside(direction: Direction, rate: real, s: PositionState, fills: seq<Fill>, f: Fill)
    requires Consistent(s) && ValidFill(f) && (forall x <- fills :: ValidFill(x))
    requires ClosesInside(direction, rate, s, fills)
    requires !IsOpening(direction, f.side) ==> f.qty < Run(direction, rate, s, fills).size
    ensures ClosesInside(direction, rate, s, fills + [f])
  {
    hide Run, Consistent, ValidFill;
    var all := fills + [f];
    assert all[..|fills|] == fills;
    forall k | 0 <= k < |all| && !IsOpening(direction, all[k].side)
      ensures all[k].qty < Run(direction, rate, s, all[..k]).size
    {
      if k < |fills| { assert all[..k] == fills[..k]; }
    }
  }

  /** What the fills opened less what they closed. */
  function Signed(direction: Direction, fills: seq<Fill>): real {
    if fills == [] then 0.0
    else
      var f := fills[|fills| - 1];
      Signed(direction, fills[..|fills| - 1]) + if IsOpening(direction, f.side) then f.qty else -f.qty
  }

  lemma InsideSoFar(direction: Direction, rate: real, s: PositionState, fills: seq<Fill>)
    requires Consistent(s) && fills != [] && (forall f <- fills :: ValidFill(f))
    requires ClosesInside(direction, rate, s, fills)
    ensures var n := |fills| - 1;
      && ClosesInside(direction, rate, s, fills[..n])
      && (!IsOpening(direction, fills[n].side) ==> fills[n].qty < Run(direction, rate, s, fills[..n]).size)
  {
    hide Run, Consistent, ValidFill;
    var rest := fills[..|fills| - 1];
    forall k | 0 <= k < |rest| && !IsOpening(direction, rest[k].side)
      ensures rest[k].qty < Run(direction, rate, s, rest[..k]).size
    {
      assert rest[..k] == fills[..k] && rest[k] == fills[k];
    }
  }

  /** Then no close is clamped or uses the position up: its size is what was opened less what was
      closed, exactly, and it never returns to zero by a close. */
  lemma {:induction false} NothingIsClamped(direction: Direction, rate: real, s: PositionState, fills: seq<Fill>)
    requires Consistent(s) && (forall f <- fills :: ValidFill(f)) && ClosesInside(direction, rate, s, fills)
    ensures Run(direction, rate, s, fills).size == s.size + Signed(direction, fills)
    ensures fills != [] && !IsOpening(direction, fills[|fills| - 1].side) ==> Run(direction, rate, s, fills).size > 0.0
  {
    hide Consistent, ValidFill, ClosesInside, Run, Filled;
    if fills == [] {
      NothingRuns(direction, rate, s);
    } else {
      var n := |fills| - 1;
      var rest, f := fills[..n], fills[n];
      assert fills == rest + [f] && f in fills;
      InsideSoFar(direction, rate, s, fills);
      NothingIsClamped(direction, rate, s, rest);
      RunPush(direction, rate, s, rest, f);
      RunIsConsistent(direction, rate, s, rest);
      FilledSize(direction, rate, Run(direction, rate, s, rest), f);
    }
  }

  lemma NothingRuns(direction: Direction, rate: real, s: PositionState)
    requires Consistent(s)
    ensures Run(direction, rate, s, []) == s
  {
  }

  lemma FilledSize(direction: Direction, rate: real, s: PositionState, f: Fill)
    requires Consistent(s) && ValidFill(f) && (!IsOpening(direction, f.side) ==> f.qty < s.size)
    ensures Filled(direction, rate, s, f).size
         == if IsOpening(direction, f.side) then s.size + f.qty else s.size - f.qty
  {
  }

  /** The position is where the slices of its direction took it from `start`, funding aside, and each
      of them that closed was smaller than what it met. */
  ghost predicate Follows(rate: real, direction: Direction, start: PositionState, s: PositionState,
                          applied: seq<AppliedRow>) {
    && Consistent(start) && Bare(s) == Run(direction, rate, start, SliceFills(direction, applied))
    && ClosesInside(direction, rate, start, SliceFills(direction, applied))
  }

  lemma FollowsOn(rate: real, direction: Direction, start: PositionState, s: PositionState, s': PositionState,
                  applied: seq<AppliedRow>, a: AppliedRow)
    requires Follows(rate, direction, start, s, applied) && Consistent(s) && ValidFill(FillOf(a))
    requires s' == if a.direction == direction then Filled(direction, rate, s, FillOf(a)) else s
    requires a.direction == direction && !IsOpening(direction, a.side) ==> a.amounts.qty < s.size
    ensures Follows(rate, direction, start, s', applied + [a])
    ensures Settled(s') == Absorbed(rate, direction, Settled(s), a)
  {
    hide Run, SliceFills, ClosesInside, Filled, Consistent, ValidFill;
    AbsorbingFollows(rate, direction, start, applied, a);
    FillingLeavesCaches(direction, rate, s, FillOf(a));
    SlicesPush(direction, applied, a);
    if a.direction == direction {
      OneMoreInside(direction, rate, start, SliceFills(direction, applied), FillOf(a));
    }
  }

  lemma SlicesPush(direction: Direction, applied: seq<AppliedRow>, a: AppliedRow)
    requires ValidFill(FillOf(a))
    ensures SliceFills(direction, applied + [a])
         == if a.direction == direction then SliceFills(direction, applied) + [FillOf(a)]
            else SliceFills(direction, applied)
  {
    assert (applied + [a])[..|applied|] == applied;
  }

  lemma FillingLeavesCaches(direction: Direction, rate: real, s: PositionState, f: Fill)
    requires Consistent(s) && ValidFill(f)
    ensures Consistent(Settled(s)) && Settled(Filled(direction, rate, s, f)) == Filled(direction, rate, Settled(s), f)
    ensures Consistent(Bare(s)) && Bare(Filled(direction, rate, s, f)) == Filled(direction, rate, Bare(s), f)
  {
    hide UnrealisedPnl, Min;
  }

  /** Funding moves no position. */
  lemma ChargedLeaves(rate: real, direction: Direction, start: PositionState, s: PositionState, fundingRate: real,
                      price: real, applied: seq<AppliedRow>)
    ensures Settled(Charged(direction, s, fundingRate, price)) == Charged(direction, Settled(s), fundingRate, price)
    ensures Follows(rate, direction, start, Charged(direction, s, fundingRate, price), applied)
      <==> Follows(rate, direction, start, s, applied)
  {
    hide Run, SliceFills, Consistent, ClosesInside;
  }

  lemma SameFollows(rate: real, direction: Direction, start: PositionState, s: PositionState, s': PositionState,
                    applied: seq<AppliedRow>)
    requires s' == s.(unrealized := s'.unrealized)
    ensures Settled(s') == Settled(s)
    ensures Follows(rate, direction, start, s', applied) <==> Follows(rate, direction, start, s, applied)
  {
    hide Run, SliceFills, Consistent, ClosesInside;
  }
}
