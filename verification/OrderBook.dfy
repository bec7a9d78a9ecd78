/** Lists of simulated orders: lookup, removal and summed quantities, and the invariants of a
    whole order book. */
module OrderBook {
  import opened Common
  import opened OrderIds
  import opened Counting

  datatype Status = Pending | Done | Cancelled

  datatype Order = Order(
    id: string,
    clientId: string,
    symbol: string,
    side: Side,
    price: real,
    qty: real,
    direction: Direction,
    reduceOnly: bool,
    status: Status
  )

  // ---------- lookup ----------

  function IndexById(orders: seq<Order>, id: string): (i: int)
    ensures -1 <= i < |orders|
    ensures i >= 0 ==> orders[i].id == id
    ensures i < 0 ==> forall o <- orders :: o.id != id
  {
    if orders == [] then -1
    else if orders[0].id == id then 0
    else
      var i := IndexById(orders[1..], id);
      if i < 0 then -1 else i + 1
  }

  function IndexByClient(orders: seq<Order>, clientId: string): (i: int)
    ensures -1 <= i < |orders|
    ensures i >= 0 ==> orders[i].clientId == clientId
    ensures i < 0 ==> forall o <- orders :: o.clientId != clientId
  {
    if orders == [] then -1
    else if orders[0].clientId == clientId then 0
    else
      var i := IndexByClient(orders[1..], clientId);
      if i < 0 then -1 else i + 1
  }

  // ---------- counting ids ----------

  function IdOf(o: Order): string { o.id }

  function ClientOf(o: Order): string { o.clientId }

  // ---------- reserved close quantity ----------

  function Reserves(o: Order, direction: Direction): real {
    if o.direction == direction && o.reduceOnly then o.qty else 0.0
  }

  /** Summed quantity of the reduce-only orders of one direction. */
  function Reserved(orders: seq<Order>, direction: Direction): real {
    if orders == [] then 0.0 else Reserves(orders[0], direction) + Reserved(orders[1..], direction)
  }

  lemma {:induction false} ReservedAppend(a: seq<Order>, b: seq<Order>, direction: Direction)
    ensures Reserved(a + b, direction) == Reserved(a, direction) + Reserved(b, direction)
  {
    if a == [] {
      assert a + b == b;
    } else {
      assert (a + b)[1..] == a[1..] + b;
      ReservedAppend(a[1..], b, direction);
    }
  }

  lemma ReservedPush(a: seq<Order>, o: Order, direction: Direction)
    ensures Reserved(a + [o], direction) == Reserved(a, direction) + Reserves(o, direction)
  {
    ReservedAppend(a, [o], direction);
    assert Reserved([o], direction) == Reserves(o, direction) + Reserved([], direction);
  }

  lemma {:induction false} ReservedSplit(orders: seq<Order>, i: nat, direction: Direction)
    requires i < |orders|
    ensures Reserved(orders, direction) == Reserved(Without(orders, i), direction) + Reserves(orders[i], direction)
  {
    if i == 0 {
      assert Without(orders, 0) == orders[1..];
    } else {
      ReservedSplit(orders[1..], i - 1, direction);
      assert Without(orders, i)[1..] == Without(orders[1..], i - 1);
    }
  }

  lemma ReservedUpdate(orders: seq<Order>, i: nat, o: Order, direction: Direction)
    requires i < |orders|
    ensures Reserved(orders[i := o], direction)
         == Reserved(orders, direction) - Reserves(orders[i], direction) + Reserves(o, direction)
  {
    ReservedSplit(orders, i, direction);
    ReservedSplit(orders[i := o], i, direction);
    assert Without(orders[i := o], i) == Without(orders, i);
  }

  lemma {:induction false} ReservedNonNegative(orders: seq<Order>, direction: Direction)
    requires forall o <- orders :: o.qty > 0.0
    ensures Reserved(orders, direction) >= 0.0
  {
    if orders != [] { ReservedNonNegative(orders[1..], direction); }
  }

  // ---------- the book ----------

  /** One part of an order's quantity that was filled. */
  type Slice = (string, real)

  function AppliedTo(slices: seq<Slice>, id: string): real {
    if slices == [] then 0.0
    else AppliedTo(slices[..|slices| - 1], id) + if slices[|slices| - 1].0 == id then slices[|slices| - 1].1 else 0.0
  }

  /** The order book with its history: `placed` is each order's original quantity, `slices`
      everything ever filled, in order. */
  datatype Book = Book(
    active: seq<Order>,
    filled: seq<Order>,
    cancelled: seq<Order>,
    clientIds: set<string>,
    counter: nat,
    placed: map<string, real>,
    slices: seq<Slice>
  )

  ghost function TimesHeld(b: Book, id: string): nat {
    Occurrences(b.active, IdOf, id) + Occurrences(b.filled, IdOf, id) + Occurrences(b.cancelled, IdOf, id)
  }

  /** Active, filled and cancelled orders together hold every order ever placed, exactly once. */
  ghost predicate HoldsEveryOrderOnce(b: Book) {
    forall id :: TimesHeld(b, id) == Count(id in b.placed)
  }

  /** The dedup set is exactly the client ids of the active orders, no two of which share one. */
  ghost predicate DedupIsActive(b: Book) {
    forall c :: Occurrences(b.active, ClientOf, c) == Count(c in b.clientIds)
  }

  /** Placed quantity equals applied slices plus remainder, and the remainder of a filled order
      is zero: the stored quantity of a filled order is its last slice, not its remainder. */
  ghost predicate QuantitiesAddUp(b: Book) {
    && (forall o <- b.active :: o.id in b.placed && o.qty > 0.0 && b.placed[o.id] == AppliedTo(b.slices, o.id) + o.qty)
    && (forall o <- b.filled :: o.id in b.placed && b.placed[o.id] == AppliedTo(b.slices, o.id))
    && (forall o <- b.cancelled ::
          o.id in b.placed && o.qty > 0.0 && b.placed[o.id] == AppliedTo(b.slices, o.id) + o.qty)
  }

  ghost predicate StatusesMatch(b: Book) {
    && (forall o <- b.active :: o.status == Pending)
    && (forall o <- b.filled :: o.status == Done)
    && (forall o <- b.cancelled :: o.status == Cancelled)
  }

  /** Ids still to be issued are unused, and only placed orders have slices. */
  ghost predicate CounterIsAhead(b: Book) {
    && (forall n: nat :: n > b.counter ==> SimId(n) !in b.placed)
    && (forall s <- b.slices :: s.0 in b.placed)
  }

  ghost predicate BookOk(b: Book) {
    HoldsEveryOrderOnce(b) && DedupIsActive(b) && QuantitiesAddUp(b) && StatusesMatch(b) && CounterIsAhead(b)
  }

  const EMPTY := Book([], [], [], {}, 0, map[], [])

  lemma EmptyIsOk()
    ensures BookOk(EMPTY)
  {
  }

  // ---------- what the operations do to it ----------

  ghost function Placed(b: Book, o: Order, counter: nat): Book {
    b.(active := b.active + [o], clientIds := b.clientIds + {o.clientId}, counter := counter,
       placed := b.placed[o.id := o.qty])
  }

  ghost function Removed(b: Book, i: nat): Book
    requires i < |b.active|
  {
    var o := b.active[i];
    b.(active := Without(b.active, i), cancelled := b.cancelled + [o.(status := Cancelled)],
       clientIds := b.clientIds - {o.clientId})
  }

  ghost function FilledUp(b: Book, i: nat): Book
    requires i < |b.active|
  {
    var o := b.active[i];
    b.(active := Without(b.active, i), filled := b.filled + [o.(status := Done)],
       clientIds := b.clientIds - {o.clientId}, slices := b.slices + [(o.id, o.qty)])
  }

  ghost function PartlyFilled(b: Book, i: nat, qty: real): Book
    requires i < |b.active|
  {
    var o := b.active[i];
    b.(active := b.active[i := o.(qty := o.qty - qty)], slices := b.slices + [(o.id, qty)])
  }

  lemma AppliedPush(slices: seq<Slice>, s: Slice, id: string)
    ensures AppliedTo(slices + [s], id) == AppliedTo(slices, id) + if s.0 == id then s.1 else 0.0
  {
    assert (slices + [s])[..|slices|] == slices;
  }

  lemma AppliedPushAll(slices: seq<Slice>, s: Slice)
    ensures forall id :: AppliedTo(slices + [s], id) == AppliedTo(slices, id) + if s.0 == id then s.1 else 0.0
  {
    forall id ensures AppliedTo(slices + [s], id) == AppliedTo(slices, id) + if s.0 == id then s.1 else 0.0 {
      AppliedPush(slices, s, id);
    }
  }

  lemma {:induction false} NoSlices(slices: seq<Slice>, id: string)
    requires forall s <- slices :: s.0 != id
    ensures AppliedTo(slices, id) == 0.0
  {
    if slices != [] { NoSlices(slices[..|slices| - 1], id); }
  }

  /** An active order's id occurs nowhere else in a valid book. */
  lemma IdsAreUnique(b: Book, i: nat)
    requires HoldsEveryOrderOnce(b) && i < |b.active|
    ensures forall o <- Without(b.active, i) :: o.id != b.active[i].id
    ensures forall o <- b.filled :: o.id != b.active[i].id
    ensures forall o <- b.cancelled :: o.id != b.active[i].id
  {
    var id := b.active[i].id;
    assert TimesHeld(b, id) == Count(id in b.placed);
    OccurrencesWithout(b.active, i, IdOf, id);
    hide Occurrences;
    OccurrencesPositive(Without(b.active, i), IdOf, id);
    OccurrencesPositive(b.filled, IdOf, id);
    OccurrencesPositive(b.cancelled, IdOf, id);
  }

  lemma PlacingKeepsIds(b: Book, o: Order, counter: nat)
    requires HoldsEveryOrderOnce(b) && DedupIsActive(b)
    requires o.id !in b.placed && o.clientId !in b.clientIds
    ensures HoldsEveryOrderOnce(Placed(b, o, counter)) && DedupIsActive(Placed(b, o, counter))
  {
    hide Occurrences;
    var b' := Placed(b, o, counter);
    forall id ensures TimesHeld(b', id) == Count(id in b'.placed) {
      assert TimesHeld(b, id) == Count(id in b.placed);
      OccurrencesPush(b.active, o, IdOf, id);
    }
    forall c ensures Occurrences(b'.active, ClientOf, c) == Count(c in b'.clientIds) {
      OccurrencesPush(b.active, o, ClientOf, c);
    }
  }

  lemma PlacingKeepsQuantities(b: Book, o: Order, counter: nat)
    requires QuantitiesAddUp(b) && CounterIsAhead(b) && o.id !in b.placed && o.qty > 0.0
    ensures QuantitiesAddUp(Placed(b, o, counter))
  {
    NoSlices(b.slices, o.id);
  }

  lemma PlacingKeepsBook(b: Book, o: Order, counter: nat)
    requires BookOk(b) && b.counter <= counter
    requires o.id !in b.placed && o.clientId !in b.clientIds && o.qty > 0.0 && o.status == Pending
    requires forall n: nat :: n > counter ==> SimId(n) != o.id
    ensures BookOk(Placed(b, o, counter))
  {
    PlacingKeepsIds(b, o, counter);
    PlacingKeepsQuantities(b, o, counter);
    hide HoldsEveryOrderOnce, DedupIsActive, QuantitiesAddUp;
  }

  /** Taking order `i` out of the active list and putting it on either other list. */
  lemma MovingKeepsIds(b: Book, i: nat, o: Order)
    requires HoldsEveryOrderOnce(b) && DedupIsActive(b) && i < |b.active|
    requires o.id == b.active[i].id && o.clientId == b.active[i].clientId
    ensures HoldsEveryOrderOnce(b.(active := Without(b.active, i), filled := b.filled + [o]))
    ensures HoldsEveryOrderOnce(b.(active := Without(b.active, i), cancelled := b.cancelled + [o]))
    ensures DedupIsActive(b.(active := Without(b.active, i), clientIds := b.clientIds - {o.clientId}))
  {
    hide Occurrences, Without;
    forall id
      ensures Occurrences(Without(b.active, i), IdOf, id) == Occurrences(b.active, IdOf, id) - Count(o.id == id)
      ensures Occurrences(b.filled + [o], IdOf, id) == Occurrences(b.filled, IdOf, id) + Count(o.id == id)
      ensures Occurrences(b.cancelled + [o], IdOf, id) == Occurrences(b.cancelled, IdOf, id) + Count(o.id == id)
    {
      OccurrencesWithout(b.active, i, IdOf, id);
      OccurrencesPush(b.filled, o, IdOf, id);
      OccurrencesPush(b.cancelled, o, IdOf, id);
    }
    forall id
      ensures TimesHeld(b.(active := Without(b.active, i), filled := b.filled + [o]), id) == Count(id in b.placed)
      ensures TimesHeld(b.(active := Without(b.active, i), cancelled := b.cancelled + [o]), id) == Count(id in b.placed)
    {
      assert TimesHeld(b, id) == Count(id in b.placed);
    }
    forall c ensures Occurrences(Without(b.active, i), ClientOf, c) == Count(c in b.clientIds - {o.clientId}) {
      OccurrencesWithout(b.active, i, ClientOf, c);
      assert Occurrences(b.active, ClientOf, c) == Count(c in b.clientIds);
    }
  }

  lemma CancellingKeepsBook(b: Book, i: nat)
    requires BookOk(b) && i < |b.active|
    ensures BookOk(Removed(b, i))
  {
    MovingKeepsIds(b, i, b.active[i].(status := Cancelled));
    hide HoldsEveryOrderOnce, DedupIsActive;
  }

  lemma FillingKeepsQuantities(b: Book, i: nat)
    requires HoldsEveryOrderOnce(b) && QuantitiesAddUp(b) && i < |b.active|
    ensures QuantitiesAddUp(FilledUp(b, i))
  {
    hide HoldsEveryOrderOnce, AppliedTo;
    IdsAreUnique(b, i);
    AppliedPushAll(b.slices, (b.active[i].id, b.active[i].qty));
  }

  lemma FillingKeepsBook(b: Book, i: nat)
    requires BookOk(b) && i < |b.active|
    ensures BookOk(FilledUp(b, i))
  {
    MovingKeepsIds(b, i, b.active[i].(status := Done));
    FillingKeepsQuantities(b, i);
    hide HoldsEveryOrderOnce, DedupIsActive, QuantitiesAddUp;
  }

  lemma PartFillingKeepsIds(b: Book, i: nat, qty: real)
    requires HoldsEveryOrderOnce(b) && DedupIsActive(b) && i < |b.active|
    ensures HoldsEveryOrderOnce(PartlyFilled(b, i, qty)) && DedupIsActive(PartlyFilled(b, i, qty))
  {
    hide Occurrences;
    var b' := PartlyFilled(b, i, qty);
    assert Without(b'.active, i) == Without(b.active, i);
    forall id ensures Occurrences(b'.active, IdOf, id) == Occurrences(b.active, IdOf, id) {
      OccurrencesWithout(b.active, i, IdOf, id);
      OccurrencesWithout(b'.active, i, IdOf, id);
    }
    forall c ensures Occurrences(b'.active, ClientOf, c) == Occurrences(b.active, ClientOf, c) {
      OccurrencesWithout(b.active, i, ClientOf, c);
      OccurrencesWithout(b'.active, i, ClientOf, c);
    }
    forall id ensures TimesHeld(b', id) == Count(id in b'.placed) {
      assert TimesHeld(b, id) == Count(id in b.placed);
    }
  }

  lemma PartFillingKeepsQuantities(b: Book, i: nat, qty: real)
    requires HoldsEveryOrderOnce(b) && QuantitiesAddUp(b) && i < |b.active| && 0.0 < qty < b.active[i].qty
    ensures QuantitiesAddUp(PartlyFilled(b, i, qty))
  {
    hide HoldsEveryOrderOnce, AppliedTo;
    IdsAreUnique(b, i);
    var o := b.active[i];
    var b' := PartlyFilled(b, i, qty);
    AppliedPushAll(b.slices, (o.id, qty));
    forall o' | o' in b'.active
      ensures o'.id in b'.placed && o'.qty > 0.0 && b'.placed[o'.id] == AppliedTo(b'.slices, o'.id) + o'.qty
    {
      if o' != o.(qty := o.qty - qty) {
        var k :| 0 <= k < |b'.active| && b'.active[k] == o';
        assert o' in Without(b.active, i) by {
          if k < i { assert Without(b.active, i)[k] == o'; } else { assert Without(b.active, i)[k - 1] == o'; }
        }
      }
    }
  }

  lemma PartFillingKeepsBook(b: Book, i: nat, qty: real)
    requires BookOk(b) && i < |b.active| && 0.0 < qty < b.active[i].qty
    ensures BookOk(PartlyFilled(b, i, qty))
  {
    PartFillingKeepsIds(b, i, qty);
    PartFillingKeepsQuantities(b, i, qty);
    hide HoldsEveryOrderOnce, DedupIsActive, QuantitiesAddUp;
  }
}
