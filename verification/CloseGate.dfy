/** The gate on closing orders: what is reserved to close stays below what is held. */
module CloseGate {
  import opened Common
  import opened Counting
  import opened OrderBook
  import opened OrderManager
  import opened Strategy

  ghost predicate Gate(size: real, reserved: real) {
    reserved == 0.0 || 0.0 < reserved < size
  }

  /** Quantity a reported fill will close once the tracker sees it. */
  ghost function Closes(identity: Identity, f: Execution, direction: Direction): real {
    var (side, dir) := identity(f.orderLinkId);
    if dir == direction && !IsOpening(dir, side) then f.qty else 0.0
  }

  /** The same over fills already taken from the book but not yet given to a tracker. */
  ghost function Owed(identity: Identity, fills: seq<Execution>, direction: Direction): real {
    if fills == [] then 0.0 else Closes(identity, fills[0], direction) + Owed(identity, fills[1..], direction)
  }

  lemma {:induction false} OwedNonNegative(identity: Identity, fills: seq<Execution>, direction: Direction)
    requires forall f <- fills :: f.qty > 0.0
    ensures Owed(identity, fills, direction) >= 0.0
  {
    if fills != [] { OwedNonNegative(identity, fills[1..], direction); }
  }

  /** A close within the gate is never clamped and never reaches zero. */
  lemma CloseStaysInside(size: real, reserved: real, qty: real)
    requires Gate(size, reserved + qty) && reserved >= 0.0 && qty > 0.0
    ensures qty < size && Gate(size - qty, reserved)
  {
  }

  /** Placing: the check made before a closing order is placed keeps the gate. */
  lemma PlacingKeepsGate(active: seq<Order>, o: Order, size: real, direction: Direction)
    requires Gate(size, Reserved(active, direction)) && o.qty > 0.0
    requires forall x <- active :: x.qty > 0.0
    requires o.reduceOnly && o.direction == direction ==> size > Reserved(active, direction) + o.qty
    ensures Gate(size, Reserved(active + [o], direction))
  {
    ReservedPush(active, o, direction);
    ReservedNonNegative(active, direction);
  }

  /** Cancelling only frees what was reserved. */
  lemma RemovingKeepsGate(active: seq<Order>, i: nat, size: real, direction: Direction)
    requires i < |active| && Gate(size, Reserved(active, direction))
    requires forall x <- active :: x.qty > 0.0
    ensures Gate(size, Reserved(Without(active, i), direction))
  {
    ReservedSplit(active, i, direction);
    ReservedNonNegative(Without(active, i), direction);
  }

  /** Filling part or all of an order turns reserved quantity into owed quantity. */
  lemma FillingOwes(identity: Identity, active: seq<Order>, i: nat, f: Execution, direction: Direction)
    requires i < |active| && OrderConforms(identity, active[i])
    requires f.orderLinkId == active[i].clientId && 0.0 < f.qty <= active[i].qty
    ensures f.qty == active[i].qty ==>
      Reserved(Without(active, i), direction) + Owed(identity, [f], direction) == Reserved(active, direction)
    ensures Reserved(active[i := active[i].(qty := active[i].qty - f.qty)], direction) + Owed(identity, [f], direction)
         == Reserved(active, direction)
  {
    ReservedSplit(active, i, direction);
    ReservedUpdate(active, i, active[i].(qty := active[i].qty - f.qty), direction);
    assert Owed(identity, [f], direction) == Closes(identity, f, direction) + Owed(identity, [], direction);
  }

  /** What the market filled in one tick is owed by the reported executions. */
  lemma {:induction false} ReportsOwe(identity: Identity, filling: seq<Order>, fills: seq<Execution>, rate: real,
                                      ts: int, direction: Direction)
    requires FullFillsOf(fills, filling, rate, ts) && AllConform(identity, filling)
    ensures Owed(identity, fills, direction) == Reserved(filling, direction)
  {
    if filling != [] {
      assert FullFillsOf(fills[1..], filling[1..], rate, ts);
      ReportsOwe(identity, filling[1..], fills[1..], rate, ts, direction);
      assert fills[0] == FullFill(filling[0], rate, ts);
      assert OrderConforms(identity, filling[0]);
    }
  }
}
