/** The simulated exchange's order book, updated in place. */
module OrderManager {
  import opened Common
  import opened OrderIds
  import opened Counting
  import opened OrderBook
  import opened FillSimulator

  datatype Execution = Execution(
    execId: string,
    orderId: string,
    orderLinkId: string,
    side: Side,
    price: real,
    qty: real,
    fee: real,
    closedPnl: real,
    leavesQty: real,
    ts: int
  )

  /** Part of a recorded amount that belongs to the applied part of its quantity. */
  function ProRated(amount: real, applied: real, recorded: real): real {
    if applied == recorded || recorded == 0.0 then amount else amount * (applied / recorded)
  }

  /** The part is to the amount as the applied quantity is to the recorded one. */
  lemma PartIsProportional(amount: real, applied: real, recorded: real)
    requires recorded != 0.0
    ensures ProRated(amount, applied, recorded)
         == if applied == recorded then amount else amount * (applied / recorded)
    ensures ProRated(amount, applied, recorded) * recorded == amount * applied
  {
    if applied != recorded {
      var ratio := applied / recorded;
      assert (amount * ratio) * recorded == amount * (ratio * recorded);
    }
  }

  /** The event of a recorded execution covers what the order could still take of it, with fee and
      profit pro-rated to that part. */
  ghost predicate IsAppliedPart(f: Execution, o: Order, qty: real, fee: real, closedPnl: real) {
    && 0.0 < f.qty == Min(qty, o.qty) && f.leavesQty == o.qty - f.qty
    && f.fee == ProRated(fee, f.qty, qty) && f.closedPnl == ProRated(closedPnl, f.qty, qty)
    && f.orderId == o.id && f.orderLinkId == o.clientId && f.side == o.side
  }

  predicate Reached(mode: FillMode, prev: Option<real>, t: Ticker, o: Order) {
    o.symbol == t.symbol && Fires(mode, prev, o.side, o.price, t)
  }

  /** The orders of a list that the market fills, in order. */
  ghost function Filling(mode: FillMode, prev: Option<real>, t: Ticker, orders: seq<Order>): (r: seq<Order>)
    ensures forall o <- r :: o in orders && Reached(mode, prev, t, o)
  {
    if orders == [] then []
    else
      var last := orders[|orders| - 1];
      Filling(mode, prev, t, orders[..|orders| - 1]) + if Reached(mode, prev, t, last) then [last] else []
  }

  ghost function Resting(mode: FillMode, prev: Option<real>, t: Ticker, orders: seq<Order>): (r: seq<Order>)
    ensures forall o <- r :: o in orders && !Reached(mode, prev, t, o)
  {
    if orders == [] then []
    else
      var last := orders[|orders| - 1];
      Resting(mode, prev, t, orders[..|orders| - 1]) + if Reached(mode, prev, t, last) then [] else [last]
  }

  lemma ScanStep(mode: FillMode, prev: Option<real>, t: Ticker, orders: seq<Order>, k: nat)
    requires k < |orders|
    ensures Filling(mode, prev, t, orders[..k + 1])
         == if Reached(mode, prev, t, orders[k]) then Filling(mode, prev, t, orders[..k]) + [orders[k]]
            else Filling(mode, prev, t, orders[..k])
    ensures Resting(mode, prev, t, orders[..k + 1])
         == if Reached(mode, prev, t, orders[k]) then Resting(mode, prev, t, orders[..k])
            else Resting(mode, prev, t, orders[..k]) + [orders[k]]
  {
    hide Reached;
    assert orders[..k + 1][..k] == orders[..k];
  }

  lemma {:induction false} ReservedSplitsByFilling(mode: FillMode, prev: Option<real>, t: Ticker, orders: seq<Order>,
                                                   direction: Direction)
    ensures Reserved(orders, direction)
         == Reserved(Filling(mode, prev, t, orders), direction) + Reserved(Resting(mode, prev, t, orders), direction)
  {
    hide *;
    if orders == [] {
      NoneReserved(mode, prev, t, direction);
    } else {
      var n := |orders| - 1;
      ReservedSplitsByFilling(mode, prev, t, orders[..n], direction);
      assert orders == orders[..n] + [orders[n]] == orders[..n + 1];
      ScanStep(mode, prev, t, orders, n);
      ReservedPush(orders[..n], orders[n], direction);
      ReservedPush(Filling(mode, prev, t, orders[..n]), orders[n], direction);
      ReservedPush(Resting(mode, prev, t, orders[..n]), orders[n], direction);
    }
  }

  lemma NoneReserved(mode: FillMode, prev: Option<real>, t: Ticker, direction: Direction)
    ensures Reserved([], direction) == 0.0
    ensures Reserved(Filling(mode, prev, t, []), direction) == Reserved(Resting(mode, prev, t, []), direction) == 0.0
  {
  }

  /** The execution reported for an order that the market filled at its limit. */
  function FullFill(o: Order, commissionRate: real, ts: int): Execution {
    Execution("exec", o.id, o.clientId, o.side, o.price, o.qty, o.qty * o.price * commissionRate, 0.0, 0.0, ts)
  }

  ghost predicate FullFillsOf(es: seq<Execution>, orders: seq<Order>, commissionRate: real, ts: int) {
    |es| == |orders| && forall k :: 0 <= k < |es| ==> es[k] == FullFill(orders[k], commissionRate, ts)
  }

  ghost function WithStatus(orders: seq<Order>, status: Status): (r: seq<Order>)
    ensures |r| == |orders|
  {
    seq(|orders|, i requires 0 <= i < |orders| => orders[i].(status := status))
  }

  /** The book once a list of its active orders was filled in full and `rest` stayed. */
  ghost function FilledOut(b: Book, filling: seq<Order>, rest: seq<Order>): Book {
    b.(active := rest, filled := b.filled + WithStatus(filling, Done),
       clientIds := b.clientIds - (set o <- filling :: o.clientId),
       slices := b.slices + seq(|filling|, i requires 0 <= i < |filling| => (filling[i].id, filling[i].qty)))
  }

  /** The book after the market's fills at a tick. */
  ghost function AfterFills(b: Book, mode: FillMode, prev: Option<real>, t: Ticker): Book {
    FilledOut(b, Filling(mode, prev, t, b.active), Resting(mode, prev, t, b.active))
  }

  lemma NothingFilled(b: Book)
    ensures FilledOut(b, [], b.active) == b
  {
    assert WithStatus([], Done) == [];
  }

  /** One more order is filled. */
  lemma FilledOutPush(b: Book, filling: seq<Order>, active: seq<Order>, o: Order, i: nat)
    requires i < |active| && active[i] == o
    ensures FilledUp(FilledOut(b, filling, active), i) == FilledOut(b, filling + [o], Without(active, i))
  {
    assert WithStatus(filling + [o], Done) == WithStatus(filling, Done) + [o.(status := Done)];
    assert (set x <- filling + [o] :: x.clientId) == (set x <- filling :: x.clientId) + {o.clientId};
  }

  lemma NothingScanned(mode: FillMode, prev: Option<real>, t: Ticker, rate: real)
    ensures Filling(mode, prev, t, []) == Resting(mode, prev, t, []) == WithStatus([], Done) == []
    ensures FullFillsOf([], [], rate, t.exchangeTs)
  {
  }

  /** Every order of a list is either filled or stays, and none twice. */
  lemma {:induction false} FilledOrResting(mode: FillMode, prev: Option<real>, t: Ticker, orders: seq<Order>)
    ensures multiset(Filling(mode, prev, t, orders)) + multiset(Resting(mode, prev, t, orders)) == multiset(orders)
  {
    hide Reached;
    if orders != [] {
      var n := |orders| - 1;
      assert orders == orders[..n] + [orders[n]];
      FilledOrResting(mode, prev, t, orders[..n]);
    }
  }

  /** State of the scan over the active orders of `start` before its order `k`: of the orders seen,
      those the market reached were filled and are reported, the others are in place. */
  ghost predicate Scanned(mode: FillMode, prev: Option<real>, t: Ticker, rate: real, start: Book, k: nat, now: Book,
                          fills: seq<Execution>, filling: seq<Order>)
  {
    && k <= |start.active| && filling == Filling(mode, prev, t, start.active[..k])
    && now == FilledOut(start, filling, Resting(mode, prev, t, start.active[..k]) + start.active[k..])
    && FullFillsOf(fills, filling, rate, t.exchangeTs)
  }

  lemma ScanBegins(mode: FillMode, prev: Option<real>, t: Ticker, rate: real, start: Book)
    ensures Scanned(mode, prev, t, rate, start, 0, start, [], [])
  {
    NothingScanned(mode, prev, t, rate);
    NothingFilled(start);
    assert start.active[..0] == [] && start.active[0..] == start.active;
  }

  /** The next order of the scan is at place `i`: it leaves the list when reached and else stays. */
  lemma ScanNext(mode: FillMode, prev: Option<real>, t: Ticker, rate: real, start: Book, k: nat, now: Book,
                 fills: seq<Execution>, filling: seq<Order>)
    returns (i: nat)
    requires Scanned(mode, prev, t, rate, start, k, now, fills, filling) && k < |start.active|
    ensures i < |now.active| && now.active[i] == start.active[k]
    ensures var o := start.active[k];
      if Reached(mode, prev, t, o) then
        Scanned(mode, prev, t, rate, start, k + 1, FilledUp(now, i), fills + [FullFill(o, rate, t.exchangeTs)],
                filling + [o])
      else Scanned(mode, prev, t, rate, start, k + 1, now, fills, filling)
  {
    hide Reached, Filling, Resting, FullFill, FullFillsOf, WithStatus, Without, FilledUp;
    var o, resting := start.active[k], Resting(mode, prev, t, start.active[..k]);
    i := |resting|;
    ScanStep(mode, prev, t, start.active, k);
    TakeNext(resting, start.active, k);
    FullFillsPush(fills, filling, o, rate, t.exchangeTs);
    FilledOutPush(start, filling, resting + start.active[k..], o, i);
  }

  lemma ScanEnds(mode: FillMode, prev: Option<real>, t: Ticker, rate: real, start: Book, now: Book,
                 fills: seq<Execution>, filling: seq<Order>)
    requires Scanned(mode, prev, t, rate, start, |start.active|, now, fills, filling)
    ensures filling == Filling(mode, prev, t, start.active) && now == AfterFills(start, mode, prev, t)
    ensures FullFillsOf(fills, filling, rate, t.exchangeTs)
  {
    var all := start.active;
    assert all[..|all|] == all && all[|all|..] == [];
  }

  lemma FullFillsPush(es: seq<Execution>, orders: seq<Order>, o: Order, rate: real, ts: int)
    requires FullFillsOf(es, orders, rate, ts)
    ensures FullFillsOf(es + [FullFill(o, rate, ts)], orders + [o], rate, ts)
  {
  }

  /** The next order of a scan: either it leaves the list or it joins the ones that stay. */
  lemma TakeNext(resting: seq<Order>, snapshot: seq<Order>, k: nat)
    requires k < |snapshot|
    ensures (resting + snapshot[k..])[|resting|] == snapshot[k]
    ensures Without(resting + snapshot[k..], |resting|) == resting + snapshot[k + 1..]
    ensures resting + snapshot[k..] == (resting + [snapshot[k]]) + snapshot[k + 1..]
  {
  }

  /** In prices: what the fill mode asked of every order that was filled, and what no order that
      stayed met. */
  lemma FilledAtTheirPrice(mode: FillMode, prev: Option<real>, t: Ticker, orders: seq<Order>)
    ensures forall o <- Filling(mode, prev, t, orders) :: o.symbol == t.symbol && Fires(mode, prev, o.side, o.price, t)
    ensures forall o <- Resting(mode, prev, t, orders) ::
      o.symbol == t.symbol ==> !Fires(mode, prev, o.side, o.price, t)
  {
  }

  // ---------- seeding ----------

  /** The seeds that enter the book: the first under each exchange id. */
  function FirstOfEach(seeds: seq<Order>): seq<Order> {
    if seeds == [] then []
    else
      var kept, last := FirstOfEach(seeds[..|seeds| - 1]), seeds[|seeds| - 1];
      if IndexById(kept, last.id) >= 0 then kept else kept + [last]
  }

  lemma FirstPush(seeds: seq<Order>, s: Order)
    ensures FirstOfEach(seeds + [s])
         == if IndexById(FirstOfEach(seeds), s.id) >= 0 then FirstOfEach(seeds) else FirstOfEach(seeds) + [s]
  {
    assert (seeds + [s])[..|seeds|] == seeds;
  }

  ghost predicate NoIdTwice(orders: seq<Order>) {
    forall i, j :: 0 <= i < j < |orders| ==> orders[i].id != orders[j].id
  }

  lemma {:induction false} FirstsDiffer(seeds: seq<Order>)
    ensures NoIdTwice(FirstOfEach(seeds)) && forall o <- FirstOfEach(seeds) :: o in seeds
  {
    if seeds != [] { FirstsDiffer(seeds[..|seeds| - 1]); }
  }

  /** The book that takes over live orders as they are. */
  ghost function SeededBook(orders: seq<Order>): (b: Book)
    ensures b.active == orders && b.filled == b.cancelled == [] && b.slices == [] && b.counter == 0
    ensures forall id :: id in b.placed <==> exists o <- orders :: o.id == id
    ensures forall c :: c in b.clientIds <==> exists o <- orders :: o.clientId == c
  {
    if orders == [] then EMPTY
    else
      var n := |orders| - 1;
      assert orders == orders[..n] + [orders[n]];
      Placed(SeededBook(orders[..n]), orders[n], 0)
  }

  lemma SeededPush(orders: seq<Order>, o: Order)
    ensures SeededBook(orders + [o]) == Placed(SeededBook(orders), o, 0)
  {
    assert (orders + [o])[..|orders|] == orders;
  }

  /** What live orders must bring themselves, as nothing checks it: positive quantities, client ids of
      their own and no id that the manager will give out. */
  ghost predicate SeedsFit(orders: seq<Order>) {
    && (forall o <- orders :: o.qty > 0.0 && forall n: nat :: n > 0 ==> SimId(n) != o.id)
    && forall i, j :: 0 <= i < j < |orders| ==> orders[i].clientId != orders[j].clientId
  }

  /** The seeded book is sound exactly when the seeds fit. */
  lemma SeedingIsSound(orders: seq<Order>)
    requires NoIdTwice(orders) && forall o <- orders :: o.status == Pending
    ensures BookOk(SeededBook(orders)) <==> SeedsFit(orders)
  {
    if SeedsFit(orders) {
      FittingSeedsAreSound(orders);
    } else if BookOk(SeededBook(orders)) {
      SoundSeedsFit(orders);
    }
  }

  lemma {:induction false} FittingSeedsAreSound(orders: seq<Order>)
    requires NoIdTwice(orders) && SeedsFit(orders) && forall o <- orders :: o.status == Pending
    ensures BookOk(SeededBook(orders))
  {
    hide BookOk;
    if orders == [] {
      EmptyIsOk();
    } else {
      var n := |orders| - 1;
      FittingSeedsAreSound(orders[..n]);
      PlacingKeepsBook(SeededBook(orders[..n]), orders[n], 0);
    }
  }

  lemma SoundSeedsFit(orders: seq<Order>)
    requires BookOk(SeededBook(orders))
    ensures SeedsFit(orders)
  {
    hide SeededBook, HoldsEveryOrderOnce, Occurrences, AppliedTo;
    var b := SeededBook(orders);
    assert QuantitiesAddUp(b) && CounterIsAhead(b) && DedupIsActive(b);
    forall i, j | 0 <= i < j < |orders| ensures orders[i].clientId != orders[j].clientId {
      ClientsDiffer(b, i, j);
    }
  }

  lemma ClientsDiffer(b: Book, i: nat, j: nat)
    requires DedupIsActive(b) && i < j < |b.active|
    ensures b.active[i].clientId != b.active[j].clientId
  {
    var c := b.active[i].clientId;
    assert Occurrences(b.active, ClientOf, c) == Count(c in b.clientIds);
    OccurrencesWithout(b.active, i, ClientOf, c);
    OccurrencesPositive(Without(b.active, i), ClientOf, c);
    assert Occurrences(Without(b.active, i), ClientOf, c) == 0;
    assert Without(b.active, i)[j - 1] == b.active[j];
    assert b.active[j] in Without(b.active, i) && ClientOf(b.active[j]) == b.active[j].clientId;
  }

  class BacktestOrderManager {
    const simulator: TradeThroughFillSimulator
    const commissionRate: real
    var active: seq<Order>
    var filled: seq<Order>
    var cancelled: seq<Order>
    var clientIds: set<string>
    var counter: nat
    var qtyExcessCount: nat
    ghost var placed: map<string, real>
    ghost var slices: seq<Slice>

    ghost function View(): Book
      reads this
    {
      Book(active, filled, cancelled, clientIds, counter, placed, slices)
    }

    ghost predicate Valid()
      reads this
    {
      BookOk(View())
    }

    constructor (simulator: TradeThroughFillSimulator, commissionRate: real)
      ensures this.simulator == simulator && this.commissionRate == commissionRate
      ensures View() == EMPTY && Valid() && qtyExcessCount == 0
    {
      this.simulator, this.commissionRate := simulator, commissionRate;
      active, filled, cancelled, clientIds := [], [], [], {};
      counter, qtyExcessCount := 0, 0;
      placed, slices := map[], [];
      new;
      EmptyIsOk();
    }

    method PlaceOrder(clientId: string, symbol: string, side: Side, price: real, qty: real, direction: Direction,
                      reduceOnly: bool)
      returns (placedOrder: Option<Order>)
      requires Valid() && qty > 0.0
      modifies this
      ensures Valid()
      ensures placedOrder.None? <==> clientId in old(clientIds)
      ensures placedOrder.None? ==> unchanged(this)
      ensures placedOrder.Some? ==>
        var o := Order(SimId(counter), clientId, symbol, side, price, qty, direction, reduceOnly, Pending);
        placedOrder.value == o && o.id !in old(placed) && View() == Placed(old(View()), o, old(counter) + 1)
      ensures qtyExcessCount == old(qtyExcessCount)
    {
      hide BookOk;
      if clientId in clientIds {
        return None;
      }
      ghost var before := View();
      counter := counter + 1;
      var o := Order(SimId(counter), clientId, symbol, side, price, qty, direction, reduceOnly, Pending);
      NextIdIsFresh(before);
      active := active + [o];
      clientIds := clientIds + {clientId};
      placed := placed[o.id := qty];
      PlacingKeepsBook(before, o, counter);
      return Some(o);
    }

    lemma NextIdIsFresh(b: Book)
      requires BookOk(b)
      ensures SimId(b.counter + 1) !in b.placed
      ensures forall n: nat :: n > b.counter + 1 ==> SimId(n) != SimId(b.counter + 1)
    {
      assert CounterIsAhead(b);
      forall n: nat | n > b.counter + 1 ensures SimId(n) != SimId(b.counter + 1) {
        SimIdInjective(n, b.counter + 1);
      }
    }

    /** Live orders at the start of a replay are taken as they are, but for a second order under one
        exchange id, which is skipped. */
    method SeedActiveOrders(seeds: seq<Order>)
      requires View() == EMPTY && forall s <- seeds :: s.status == Pending
      modifies this
      ensures View() == SeededBook(FirstOfEach(seeds))
      ensures active == FirstOfEach(seeds) && forall o <- active :: o in seeds
      ensures Valid() <==> SeedsFit(FirstOfEach(seeds))
    {
      hide BookOk, SeededBook, SeedsFit, NoIdTwice, FirstOfEach, IndexById;
      NothingSeeded();
      assert seeds[..0] == [];
      for k := 0 to |seeds|
        invariant View() == SeededBook(FirstOfEach(seeds[..k]))
      {
        assert seeds[..k + 1] == seeds[..k] + [seeds[k]];
        FirstPush(seeds[..k], seeds[k]);
        if IndexById(active, seeds[k].id) < 0 {
          SeededPush(active, seeds[k]);
          active := active + [seeds[k]];
          clientIds := clientIds + {seeds[k].clientId};
          placed := placed[seeds[k].id := seeds[k].qty];
        }
      }
      assert seeds[..|seeds|] == seeds;
      FirstsDiffer(seeds);
      SeedingIsSound(active);
    }

    lemma NothingSeeded()
      ensures SeededBook(FirstOfEach([])) == EMPTY
    {
    }

    method CancelOrder(orderId: string) returns (done: bool, ghost i: int)
      requires Valid()
      modifies this
      ensures Valid()
      ensures done <==> exists o <- old(active) :: o.id == orderId
      ensures !done ==> unchanged(this)
      ensures i == IndexById(old(active), orderId)
      ensures done ==> 0 <= i < |old(active)| && old(active)[i].id == orderId && View() == Removed(old(View()), i)
      ensures qtyExcessCount == old(qtyExcessCount)
    {
      hide BookOk;
      var k := IndexById(active, orderId);
      i := k;
      if k < 0 {
        return false, k;
      }
      ghost var before := View();
      var order := active[k].(status := Cancelled);
      active := Without(active, k);
      cancelled := cancelled + [order];
      clientIds := clientIds - {order.clientId};
      CancellingKeepsBook(before, i);
      assert View() == Removed(before, i);
      done := true;
    }

    lemma IndexOfUnique(b: Book, i: nat)
      requires BookOk(b) && i < |b.active|
      ensures IndexById(b.active, b.active[i].id) == i
    {
      IdsAreUnique(b, i);
      forall j | 0 <= j < |b.active| && j != i ensures b.active[j].id != b.active[i].id {
        assert b.active[j] == Without(b.active, i)[if j < i then j else j - 1];
      }
    }

    /** Moves order `o`, the one after the first `k` of the active list, to the filled list. */
    method PopFilled(o: Order, ghost k: nat)
      requires Valid() && k < |active| && active[k] == o
      modifies this
      ensures Valid() && View() == FilledUp(old(View()), k)
      ensures active == Without(old(active), k) && filled == old(filled) + [o.(status := Done)]
      ensures cancelled == old(cancelled) && counter == old(counter) && qtyExcessCount == old(qtyExcessCount)
    {
      hide BookOk;
      ghost var before := View();
      IndexOfUnique(before, k);
      var i := IndexById(active, o.id);
      active := Without(active, i);
      filled := filled + [o.(status := Done)];
      clientIds := clientIds - {o.clientId};
      slices := slices + [(o.id, o.qty)];
      FillingKeepsBook(before, k);
    }

    /** Fills every active order the market reaches, in full, at its limit and for the commission on
        that; the others keep their places. The clauses by mode say in prices which those are. */
    method CheckFills(t: Ticker) returns (fills: seq<Execution>, ghost filling: seq<Order>)
      requires Valid() && simulator.Valid()
      modifies this, simulator
      ensures Valid() && simulator.Valid() && simulator.View() == Advanced(old(simulator.View()), t)
      ensures simulator.PrevOf(t.symbol) == PriceBefore(simulator.View(), t.symbol)
      ensures View() == AfterFills(old(View()), simulator.mode, simulator.PrevOf(t.symbol), t)
      ensures filling == Filling(simulator.mode, simulator.PrevOf(t.symbol), t, old(active))
      ensures active == Resting(simulator.mode, simulator.PrevOf(t.symbol), t, old(active))
      ensures multiset(filling) + multiset(active) == multiset(old(active))
      ensures filled == old(filled) + WithStatus(filling, Done)
      ensures FullFillsOf(fills, filling, commissionRate, t.exchangeTs)
      ensures forall k :: 0 <= k < |fills| ==>
        && fills[k].price == filling[k].price && fills[k].qty == filling[k].qty && fills[k].side == filling[k].side
        && fills[k].orderId == filling[k].id && fills[k].orderLinkId == filling[k].clientId
        && fills[k].fee == filling[k].qty * filling[k].price * commissionRate && fills[k].ts == t.exchangeTs
        && fills[k].closedPnl == fills[k].leavesQty == 0.0
      ensures forall o <- filling :: o.symbol == t.symbol
      ensures simulator.mode == StrictCross ==>
        && (forall o <- filling ::
              t.lastPrice > 0.0 && if o.side == Buy then t.lastPrice < o.price else t.lastPrice > o.price)
        && (forall o <- active :: o.symbol == t.symbol && t.lastPrice > 0.0 ==>
              if o.side == Buy then t.lastPrice >= o.price else t.lastPrice <= o.price)
      ensures simulator.mode == TradeThroughAtLimit ==>
        && (forall o <- filling ::
              t.lastPrice > 0.0 && if o.side == Buy then t.lastPrice <= o.price else t.lastPrice >= o.price)
        && (forall o <- active :: o.symbol == t.symbol && t.lastPrice > 0.0 ==>
              if o.side == Buy then t.lastPrice > o.price else t.lastPrice < o.price)
      ensures simulator.mode == BookTouch ==>
        && (forall o <- filling ::
              var price :=
                if o.side == Buy then (if t.ask1 > 0.0 then t.ask1 else t.lastPrice)
                else (if t.bid1 > 0.0 then t.bid1 else t.lastPrice);
              price > 0.0 && if o.side == Buy then price <= o.price else price >= o.price)
        && (forall o <- active ::
              var price :=
                if o.side == Buy then (if t.ask1 > 0.0 then t.ask1 else t.lastPrice)
                else (if t.bid1 > 0.0 then t.bid1 else t.lastPrice);
              o.symbol == t.symbol && price > 0.0 ==> if o.side == Buy then price > o.price else price < o.price)
      ensures simulator.mode == LastCross ==>
        var prev := simulator.PrevOf(t.symbol);
        && (forall o <- filling ::
              && prev.Some? && t.lastPrice > 0.0
              && if o.side == Buy then t.lastPrice <= o.price < prev.value else t.lastPrice >= o.price > prev.value)
        && (forall o <- active :: o.symbol == t.symbol && prev.Some? && t.lastPrice > 0.0 ==>
              if o.side == Buy then t.lastPrice > o.price || prev.value <= o.price
              else t.lastPrice < o.price || prev.value >= o.price)
      ensures cancelled == old(cancelled) && counter == old(counter) && qtyExcessCount == old(qtyExcessCount)
    {
      hide BookOk, Filling, Resting, WithStatus;
      simulator.AdvanceMarket(t);
      FilledOrResting(simulator.mode, simulator.PrevOf(t.symbol), t, active);
      FilledAtTheirPrice(simulator.mode, simulator.PrevOf(t.symbol), t, active);
      fills, filling := FillReached(simulator.mode, simulator.PrevOf(t.symbol), t);
    }

    /** The scan over the orders active when the tick arrived. */
    method FillReached(mode: FillMode, prev: Option<real>, t: Ticker)
      returns (fills: seq<Execution>, ghost filling: seq<Order>)
      requires Valid()
      modifies this
      ensures Valid() && View() == AfterFills(old(View()), mode, prev, t)
      ensures filling == Filling(mode, prev, t, old(active))
      ensures FullFillsOf(fills, filling, commissionRate, t.exchangeTs)
      ensures qtyExcessCount == old(qtyExcessCount)
    {
      hide *;
      fills, filling := [], [];
      var snapshot := active;
      ghost var start := View();
      ViewIs();
      ScanBegins(mode, prev, t, commissionRate, start);
      for k := 0 to |snapshot|
        invariant Valid() && qtyExcessCount == old(qtyExcessCount)
        invariant Scanned(mode, prev, t, commissionRate, start, k, View(), fills, filling)
      {
        var o := snapshot[k];
        ViewIs();
        ghost var i := ScanNext(mode, prev, t, commissionRate, start, k, View(), fills, filling);
        if Reached(mode, prev, t, o) {
          PopFilled(o, i);
          fills, filling := fills + [FullFill(o, commissionRate, t.exchangeTs)], filling + [o];
        }
      }
      ScanEnds(mode, prev, t, commissionRate, start, View(), fills, filling);
    }

    lemma ViewIs()
      ensures View().active == active
    {
    }

    /** Applies a recorded execution to an active order, up to what is left of it. The event
        covers only the applied part, with fee and profit pro-rated to it. */
    method ApplyRecordedFill(orderId: string, price: real, qty: real, fee: real, closedPnl: real, ts: int,
                             execId: string)
      returns (event: Option<Execution>, full: bool, ghost i: int)
      requires Valid()
      modifies this
      ensures Valid()
      ensures event.None? <==> qty <= 0.0 || forall o <- old(active) :: o.id != orderId
      ensures event.None? ==> unchanged(this) && !full
      ensures event.Some? ==> i == IndexById(old(active), orderId) >= 0
      ensures event.Some? ==> full == (event.value.qty == old(active)[i].qty)
      ensures event.Some? ==> IsAppliedPart(event.value, old(active)[i], qty, fee, closedPnl)
      ensures event.Some? ==>
        var o := old(active)[i];
        && event.value.orderId == o.id == orderId && event.value.orderLinkId == o.clientId
        && event.value.side == o.side && event.value.leavesQty == o.qty - event.value.qty
      ensures event.Some? ==> event.value.qty <= qty && event.value.qty <= old(active)[i].qty
      ensures event.Some? ==> event.value.qty == qty || event.value.qty == old(active)[i].qty
      ensures event.Some? ==> event.value.fee * qty == fee * event.value.qty
      ensures event.Some? ==> event.value.closedPnl * qty == closedPnl * event.value.qty
      ensures event.Some? ==> event.value.price == price && event.value.ts == ts && event.value.execId == execId
      ensures event.Some? ==>
        View() == if full then FilledUp(old(View()), i) else PartlyFilled(old(View()), i, event.value.qty)
      ensures qtyExcessCount == old(qtyExcessCount)
        + if event.Some? && event.value.qty < qty then 1 else 0
    {
      hide BookOk, FilledUp, PartlyFilled, ProRated;
      var k := IndexById(active, orderId);
      event, full, i := None, false, k;
      if k < 0 {
        return;
      }
      var o := active[k];
      ActiveQtyIsPositive(View(), o);
      var applyQty := Min(qty, o.qty);
      if applyQty <= 0.0 {
        return;
      }
      if qty > o.qty {
        qtyExcessCount := qtyExcessCount + 1;
      }
      var applyFee, applyPnl;
      if applyQty == qty {
        applyFee, applyPnl := fee, closedPnl;
      } else {
        var ratio := applyQty / qty;
        applyFee, applyPnl := fee * ratio, closedPnl * ratio;
      }
      PartIsProportional(fee, applyQty, qty);
      PartIsProportional(closedPnl, applyQty, qty);
      full := applyQty == o.qty;
      var leavesQty := 0.0;
      if full {
        PopFilled(o, k);
      } else {
        leavesQty := ReduceOrder(k, applyQty);
      }
      event := Some(Execution(execId, o.id, o.clientId, o.side, price, applyQty, applyFee, applyPnl, leavesQty, ts));
    }

    /** A partial fill: the order stays where it is with what is left of it. */
    method ReduceOrder(k: nat, qty: real) returns (leavesQty: real)
      requires Valid() && k < |active| && 0.0 < qty < active[k].qty
      modifies this`active, this`slices
      ensures Valid() && View() == PartlyFilled(old(View()), k, qty) && leavesQty == old(active)[k].qty - qty
    {
      hide BookOk;
      ghost var before := View();
      var o := active[k];
      leavesQty := o.qty - qty;
      active := active[k := o.(qty := leavesQty)];
      slices := slices + [(o.id, qty)];
      PartFillingKeepsBook(before, k, qty);
    }

    lemma ActiveQtyIsPositive(b: Book, o: Order)
      requires BookOk(b) && o in b.active
      ensures o.qty > 0.0
    {
    }

    /** Looks among active orders first, then among filled ones. */
    function OrderByClientId(clientId: string): (r: Option<Order>)
      reads this
      ensures r.Some? ==> r.value.clientId == clientId && (r.value in active || r.value in filled)
      ensures r.None? ==> forall o <- active + filled :: o.clientId != clientId
    {
      var i := IndexByClient(active, clientId);
      if i >= 0 then Some(active[i])
      else
        var j := IndexByClient(filled, clientId);
        if j >= 0 then Some(filled[j]) else None
    }
  }
}
