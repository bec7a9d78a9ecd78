/**
 One direction of a hedged position: average entry, realised and unrealised profit,
 commission and funding, and what any sequence of fills does to them.
 */
module PositionTracker {
  import opened Common

  datatype PositionState = PositionState(
    size: real,
    avgEntry: real,
    realized: real,
    unrealized: real,
    commissionPaid: real,
    fundingPaid: real,
    cumRealised: real,
    curRealised: real
  )

  const FLAT := PositionState(0.0, 0.0, 0.0, 0.0, 0.0, 0.0, 0.0, 0.0)

  datatype Fill = Fill(side: Side, qty: real, price: real)

  predicate ValidFill(f: Fill) {
    f.price > 0.0 && f.qty > 0.0
  }

  // ---------- what one fill does ----------

  function Added(s: PositionState, qty: real, price: real): PositionState
    requires s.size + qty > 0.0
  {
    s.(size := s.size + qty, avgEntry := (s.size * s.avgEntry + qty * price) / (s.size + qty))
  }

  function Commission(rate: real, qty: real, price: real): real {
    qty * price * rate
  }

  /** Closing never takes more than is there; closing a flat position does nothing. */
  function Reduced(direction: Direction, s: PositionState, qty: real, price: real): PositionState {
    if s.size == 0.0 then s
    else
      var closeQty := Min(qty, s.size);
      var left := s.size - closeQty;
      s.(realized := s.realized + UnrealisedPnl(direction, s.avgEntry, price, closeQty),
         size := left,
         avgEntry := if left == 0.0 then 0.0 else s.avgEntry)
  }

  /** A fill that opens a new position cycle. */
  predicate Reopens(direction: Direction, s: PositionState, f: Fill) {
    IsOpening(direction, f.side) && s.size == 0.0
  }

  /** Size is never negative and the average entry is zero exactly when flat. */
  predicate Consistent(s: PositionState) {
    s.size >= 0.0 && s.avgEntry >= 0.0 && (s.size == 0.0 <==> s.avgEntry == 0.0)
  }

  function Filled(direction: Direction, rate: real, s: PositionState, f: Fill): (r: PositionState)
    requires ValidFill(f) && Consistent(s)
    ensures Consistent(r)
  {
    AddedIsConsistent(s, f);
    var moved :=
      if IsOpening(direction, f.side) then Added(s, f.qty, f.price) else Reduced(direction, s, f.qty, f.price);
    var gained := moved.realized - s.realized;
    moved.(commissionPaid := s.commissionPaid + Commission(rate, f.qty, f.price),
           cumRealised := s.cumRealised + gained,
           curRealised := (if Reopens(direction, s, f) then 0.0 else s.curRealised) + gained)
  }

  /** The tracker's steps in its own order: commission, counter reset, the move, the counters. */
  lemma StepsAreFilled(direction: Direction, rate: real, s: PositionState, f: Fill)
    requires ValidFill(f) && Consistent(s)
    ensures var charged := s.(commissionPaid := s.commissionPaid + Commission(rate, f.qty, f.price));
      var begun := if Reopens(direction, s, f) then charged.(curRealised := 0.0) else charged;
      var moved :=
        if IsOpening(direction, f.side) then Added(begun, f.qty, f.price)
        else Reduced(direction, begun, f.qty, f.price);
      var gained := moved.realized - s.realized;
      moved.(cumRealised := moved.cumRealised + gained, curRealised := moved.curRealised + gained)
        == Filled(direction, rate, s, f)
  {
    hide UnrealisedPnl, Min, Commission;
  }

  /** In money: an opening fill averages the entry, a closing one realises the price difference on what
      is there to close, and both pay commission on their whole value. */
  lemma FilledInMoney(direction: Direction, rate: real, s: PositionState, f: Fill)
    requires ValidFill(f) && Consistent(s)
    ensures var s' := Filled(direction, rate, s, f);
      && s'.commissionPaid == s.commissionPaid + f.qty * f.price * rate
      && s'.cumRealised - s.cumRealised == s'.realized - s.realized
      && s'.curRealised == (if s.size == 0.0 && (f.side == Buy <==> direction == Long) then 0.0
                            else s.curRealised + (s'.realized - s.realized))
      && ((direction == Long && f.side == Buy) || (direction == Short && f.side == Sell) ==>
            && s'.size == s.size + f.qty && s'.realized == s.realized
            && s'.avgEntry * s'.size == s.size * s.avgEntry + f.qty * f.price)
      && ((direction == Long && f.side == Sell) || (direction == Short && f.side == Buy) ==>
            var closed := if f.qty <= s.size then f.qty else s.size;
            && s'.size == s.size - closed && (s'.size > 0.0 ==> s'.avgEntry == s.avgEntry)
            && s'.realized - s.realized
               == if direction == Long then (f.price - s.avgEntry) * closed else (s.avgEntry - f.price) * closed)
  {
    AddedIsConsistent(s, f);
  }

  /** What a position receives as funding: longs pay a positive rate, shorts receive it. */
  function Payment(direction: Direction, size: real, rate: real, price: real): real {
    -Sign(direction) * (size * price * rate)
  }

  /** In money: with a positive rate a long pays on its size and a short receives on its. */
  lemma LongsPayShortsReceive(s: PositionState, rate: real, price: real)
    ensures Payment(Long, s.size, rate, price) == -(s.size * price * rate)
    ensures Payment(Short, s.size, rate, price) == s.size * price * rate
    ensures Charged(Long, s, rate, price) == s.(fundingPaid := s.fundingPaid + s.size * price * rate)
    ensures Charged(Short, s, rate, price) == s.(fundingPaid := s.fundingPaid - s.size * price * rate)
    ensures s.size > 0.0 && price > 0.0 && rate > 0.0 ==>
      Payment(Long, s.size, rate, price) < 0.0 < Payment(Short, s.size, rate, price)
  {
    if s.size > 0.0 && price > 0.0 && rate > 0.0 { assert s.size * price > 0.0; }
  }

  lemma NetFunding(long: real, short: real, rate: real, price: real)
    ensures -(long * price * rate) + short * price * rate == (short - long) * price * rate
    ensures Payment(Long, long, rate, price) + Payment(Short, short, rate, price) == (short - long) * price * rate
  {
  }

  function Charged(direction: Direction, s: PositionState, rate: real, price: real): PositionState {
    s.(fundingPaid := s.fundingPaid - Payment(direction, s.size, rate, price))
  }

  /** A state without the mark-dependent cache. */
  function Settled(s: PositionState): PositionState {
    s.(unrealized := 0.0)
  }

  /** A state without that cache and without funding, which fills do not touch. */
  function Bare(s: PositionState): PositionState {
    s.(unrealized := 0.0, fundingPaid := 0.0)
  }

  lemma AddedIsConsistent(s: PositionState, f: Fill)
    requires Consistent(s) && ValidFill(f)
    ensures Consistent(Added(s, f.qty, f.price))
  {
    assert s.size * s.avgEntry >= 0.0;
    assert f.qty * f.price > 0.0;
    DivPositive(s.size * s.avgEntry + f.qty * f.price, s.size + f.qty);
  }

  lemma DivPositive(a: real, b: real)
    requires a > 0.0 && b > 0.0
    ensures a / b > 0.0
  {
    assert (a / b) * b == a;
    if a / b <= 0.0 { MulNonPositive(a / b, b); }
  }

  lemma MulNonPositive(a: real, b: real)
    requires a <= 0.0 && b > 0.0
    ensures a * b <= 0.0
  {
  }

  // ---------- cash flow of fills, without any notion of entry price ----------

  /** Position size after a fill. */
  function SizeAfter(direction: Direction, size: real, f: Fill): real {
    if IsOpening(direction, f.side) then size + f.qty else size - Min(f.qty, size)
  }

  /** Money received for the part of a fill that took effect, negative when paid. */
  function Cash(direction: Direction, size: real, f: Fill): real {
    Sign(direction) * (size - SizeAfter(direction, size, f)) * f.price
  }

  function CashFlow(direction: Direction, size: real, fills: seq<Fill>): real
    decreases |fills|
  {
    if fills == [] then 0.0
    else Cash(direction, size, fills[0]) + CashFlow(direction, SizeAfter(direction, size, fills[0]), fills[1..])
  }

  function Run(direction: Direction, rate: real, s: PositionState, fills: seq<Fill>): PositionState
    requires Consistent(s) && forall f <- fills :: ValidFill(f)
    ensures Consistent(Run(direction, rate, s, fills))
    decreases |fills|
  {
    if fills == [] then s
    else
      Run(direction, rate, Filled(direction, rate, s, fills[0]), fills[1..])
  }

  lemma {:induction false} RunPush(direction: Direction, rate: real, s: PositionState, fills: seq<Fill>, f: Fill)
    requires Consistent(s) && ValidFill(f) && forall x <- fills :: ValidFill(x)
    ensures Run(direction, rate, s, fills + [f]) == Filled(direction, rate, Run(direction, rate, s, fills), f)
    decreases |fills|
  {
    if fills == [] {
      assert [] + [f] == [f];
    } else {
      assert (fills + [f])[1..] == fills[1..] + [f];
      RunPush(direction, rate, Filled(direction, rate, s, fills[0]), fills[1..], f);
    }
  }

  /** Realised profit, plus the profit of the open part at `mark`, less that part's signed value. */
  function Net(direction: Direction, s: PositionState, mark: real): real {
    s.realized + UnrealisedPnl(direction, s.avgEntry, mark, s.size) - Sign(direction) * s.size * mark
  }

  lemma NetIsCostBasis(direction: Direction, s: PositionState, mark: real)
    ensures Net(direction, s, mark) == s.realized - Sign(direction) * (s.size * s.avgEntry)
  {
  }

  lemma DivMul(a: real, b: real)
    requires b != 0.0
    ensures b * (a / b) == a
  {
  }

  lemma FillMovesCash(direction: Direction, rate: real, s: PositionState, f: Fill, mark: real)
    requires Consistent(s) && ValidFill(f)
    ensures var s' := Filled(direction, rate, s, f);
      && s'.size == SizeAfter(direction, s.size, f)
      && Net(direction, s', mark) == Net(direction, s, mark) + Cash(direction, s.size, f)
  {
    var s' := Filled(direction, rate, s, f);
    NetIsCostBasis(direction, s, mark);
    NetIsCostBasis(direction, s', mark);
    if IsOpening(direction, f.side) {
      DivMul(s.size * s.avgEntry + f.qty * f.price, s.size + f.qty);
    } else if s.size > 0.0 {
      assert s'.size * s'.avgEntry == s.size * s.avgEntry - Min(f.qty, s.size) * s.avgEntry;
    }
  }

  /** Cash-flow identity over any fills from any consistent state: what the tracker calls
      realised plus unrealised profit, less the signed size valued at the mark, grows by exactly
      the money the fills moved. */
  lemma {:induction false} CashFlowIdentity(direction: Direction, rate: real, s: PositionState, fills: seq<Fill>,
                                            mark: real)
    requires Consistent(s) && forall f <- fills :: ValidFill(f)
    ensures Net(direction, Run(direction, rate, s, fills), mark)
         == Net(direction, s, mark) + CashFlow(direction, s.size, fills)
    decreases |fills|
  {
    if fills != [] {
      FillMovesCash(direction, rate, s, fills[0], mark);
      CashFlowIdentity(direction, rate, Filled(direction, rate, s, fills[0]), fills[1..], mark);
    }
  }

  lemma CashFlowFromFlat(direction: Direction, rate: real, fills: seq<Fill>, mark: real)
    requires forall f <- fills :: ValidFill(f)
    ensures var s := Run(direction, rate, FLAT, fills);
      && s.size >= 0.0 && (s.size == 0.0 <==> s.avgEntry == 0.0)
      && s.realized + UnrealisedPnl(direction, s.avgEntry, mark, s.size)
           == CashFlow(direction, 0.0, fills) + Sign(direction) * s.size * mark
  {
    CashFlowIdentity(direction, rate, FLAT, fills, mark);
  }

  // ---------- the cycle-scoped and running counters ----------

  /** No fill of the sequence starts a new cycle. */
  ghost predicate NeverReopens(direction: Direction, rate: real, s: PositionState, fills: seq<Fill>)
    requires Consistent(s) && forall f <- fills :: ValidFill(f)
    decreases |fills|
  {
    fills == [] ||
    (&& !Reopens(direction, s, fills[0])
     && NeverReopens(direction, rate, Filled(direction, rate, s, fills[0]), fills[1..]))
  }

  lemma {:induction false} CountersTrackRealized(direction: Direction, rate: real, s: PositionState, fills: seq<Fill>)
    requires Consistent(s) && forall f <- fills :: ValidFill(f)
    ensures var s' := Run(direction, rate, s, fills);
      && s'.cumRealised - s.cumRealised == s'.realized - s.realized
      && (NeverReopens(direction, rate, s, fills) ==> s'.curRealised - s.curRealised == s'.realized - s.realized)
    decreases |fills|
  {
    if fills != [] {
      CountersTrackRealized(direction, rate, Filled(direction, rate, s, fills[0]), fills[1..]);
    }
  }

  /** After the last fill `opener` that opened a flat position, the cycle counter is the profit
      realised since, whatever it held before. */
  lemma CycleCounterIsProfitSinceReopening(direction: Direction, rate: real, s: PositionState, opener: Fill,
                                           later: seq<Fill>)
    requires Consistent(s) && ValidFill(opener) && Reopens(direction, s, opener)
    requires forall f <- later :: ValidFill(f)
    requires NeverReopens(direction, rate, Filled(direction, rate, s, opener), later)
    ensures var s' := Run(direction, rate, Filled(direction, rate, s, opener), later);
      s'.curRealised == s'.realized - s.realized
  {
    CountersTrackRealized(direction, rate, Filled(direction, rate, s, opener), later);
  }

  // ---------- the tracker ----------

  class PositionTracker {
    const direction: Direction
    const commissionRate: real
    var state: PositionState

    constructor (direction: Direction, commissionRate: real)
      ensures this.direction == direction && this.commissionRate == commissionRate && state == FLAT
    {
      this.direction, this.commissionRate, this.state := direction, commissionRate, FLAT;
    }

    /** Restores a live position; window-scoped totals start again at zero. */
    method SeedState(size: real, entryPrice: real, cumRealised: real, curRealised: real)
      modifies this
      ensures state == FLAT.(size := size, avgEntry := entryPrice, unrealized := old(state.unrealized),
                             cumRealised := cumRealised, curRealised := curRealised)
    {
      state := state.(size := size, avgEntry := entryPrice, realized := 0.0, commissionPaid := 0.0, fundingPaid := 0.0,
                      cumRealised := cumRealised, curRealised := curRealised);
    }

    method ProcessFill(side: Side, qty: real, price: real) returns (r: Result<real>)
      requires Consistent(state)
      modifies this
      ensures Consistent(state)
      ensures r.Err? <==> price <= 0.0 || qty <= 0.0
      ensures r.Err? ==> unchanged(this)
      ensures r.Ok? ==> state == Filled(direction, commissionRate, old(state), Fill(side, qty, price))
      ensures r.Ok? ==> r.value == state.realized - old(state.realized)
      ensures r.Ok? ==> state.commissionPaid == old(state.commissionPaid) + qty * price * commissionRate
      ensures r.Ok? ==> state.cumRealised == old(state.cumRealised) + r.value
      ensures r.Ok? ==>
        var reopens := old(state.size) == 0.0 && (side == Buy <==> direction == Long);
        state.curRealised == if reopens then 0.0 else old(state.curRealised) + r.value
      ensures r.Ok? && ((direction == Long && side == Buy) || (direction == Short && side == Sell)) ==>
        && state.size == old(state.size) + qty && state.realized == old(state.realized)
        && state.avgEntry * state.size == old(state.size * state.avgEntry) + qty * price
      ensures r.Ok? && ((direction == Long && side == Sell) || (direction == Short && side == Buy)) ==>
        var closed := if qty <= old(state.size) then qty else old(state.size);
        && state.size == old(state.size) - closed && (state.size > 0.0 ==> state.avgEntry == old(state.avgEntry))
        && r.value == if direction == Long then (price - old(state.avgEntry)) * closed
                      else (old(state.avgEntry) - price) * closed
    {
      hide Added, Reduced, UnrealisedPnl, Commission;
      if price <= 0.0 || qty <= 0.0 {
        return Err(InvalidFill);
      }
      ghost var before := state;
      state := state.(commissionPaid := state.commissionPaid + Commission(commissionRate, qty, price));
      var opening := IsOpening(direction, side);
      if opening && state.size == 0.0 {
        state := state.(curRealised := 0.0);
      }
      var realized;
      if opening {
        realized := AddToPosition(qty, price);
      } else {
        realized := ReducePosition(qty, price);
      }
      state := state.(cumRealised := state.cumRealised + realized, curRealised := state.curRealised + realized);
      StepsAreFilled(direction, commissionRate, before, Fill(side, qty, price));
      FilledInMoney(direction, commissionRate, before, Fill(side, qty, price));
      return Ok(realized);
    }

    method AddToPosition(qty: real, price: real) returns (realized: real)
      requires state.size >= 0.0 && qty > 0.0
      modifies this
      ensures state == Added(old(state), qty, price)
      ensures realized == 0.0 == state.realized - old(state.realized)
    {
      var oldSize := state.size;
      var oldValue := oldSize * state.avgEntry;
      var newValue := qty * price;
      state := state.(size := oldSize + qty);
      state := state.(avgEntry := (oldValue + newValue) / state.size);
      realized := 0.0;
    }

    method ReducePosition(qty: real, price: real) returns (realized: real)
      modifies this
      ensures state == Reduced(direction, old(state), qty, price)
      ensures realized == state.realized - old(state.realized)
    {
      if state.size == 0.0 {
        return 0.0;
      }
      var closeQty := Min(qty, state.size);
      realized := UnrealisedPnl(direction, state.avgEntry, price, closeQty);
      state := state.(realized := state.realized + realized, size := state.size - closeQty);
      if state.size == 0.0 {
        state := state.(avgEntry := 0.0);
      }
    }

    method CalculateUnrealizedPnl(price: real) returns (unrealized: real)
      modifies this
      ensures unrealized == UnrealisedPnl(direction, state.avgEntry, price, state.size)
      ensures unrealized == if direction == Long then (price - state.avgEntry) * state.size
                            else (state.avgEntry - price) * state.size
      ensures state == old(state).(unrealized := unrealized)
    {
      if state.size == 0.0 {
        state := state.(unrealized := 0.0);
        return 0.0;
      }
      unrealized := UnrealisedPnl(direction, state.avgEntry, price, state.size);
      state := state.(unrealized := unrealized);
    }

    /** Longs pay a positive rate, shorts receive it. */
    method ApplyFunding(rate: real, price: real) returns (payment: real)
      modifies this
      ensures payment == Payment(direction, state.size, rate, price)
      ensures state == Charged(direction, old(state), rate, price)
      ensures payment == if direction == Long then -(state.size * price * rate) else state.size * price * rate
      ensures state.fundingPaid == old(state.fundingPaid) - payment
      ensures state == old(state).(fundingPaid := state.fundingPaid)
    {
      if state.size == 0.0 {
        return 0.0;
      }
      var funding := state.size * price * rate;
      payment := if direction == Long then -funding else funding;
      state := state.(fundingPaid := state.fundingPaid - payment);
    }

    function TotalPnl(): real
      reads this
    {
      state.realized + state.unrealized - state.commissionPaid - state.fundingPaid
    }
  }
}
