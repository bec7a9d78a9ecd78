/** The recorded live executions as a fill source: a forward-only cursor over the stream and
    the choice of the simulated order each execution belongs to. */
module RecordedStream {
  import opened Common
  import opened OrderIds
  import opened OrderBook

  datatype RecordedExecution = RecordedExecution(
    execId: string,
    orderLinkId: Option<string>,
    orderId: string,
    side: Side,
    price: real,
    qty: real,
    fee: real,
    closedPnl: real,
    ts: int
  )

  // ---------- the join key ----------

  function UpToDash(s: string): (r: string)
    ensures r <= s && '-' !in r && (r == s || s[|r|] == '-')
  {
    if s == [] || s[0] == '-' then [] else [s[0]] + UpToDash(s[1..])
  }

  /** The deterministic client id: the link id without its wire suffix, nothing when empty. */
  function ClientPrefix(link: Option<string>): (key: Option<string>)
    ensures key.Some? ==> link.Some? && key.value != "" && key.value <= link.value && '-' !in key.value
    ensures key.Some? ==> key.value == link.value || link.value[|key.value|] == '-'
    ensures key.None? ==> link.None? || link.value == "" || link.value[0] == '-'
  {
    if link.None? || UpToDash(link.value) == [] then None else Some(UpToDash(link.value))
  }

  /** The key both sides of the comparison join on. */
  function MatcherKey(e: RecordedExecution): string {
    var prefix := ClientPrefix(e.orderLinkId);
    if prefix.Some? then prefix.value else e.orderId
  }

  // ---------- matching one execution ----------

  datatype Match = Match(replayOrderId: string, matcherKey: string, recordedOrderId: string)

  function Distance(o: Order, e: RecordedExecution): real {
    Abs(o.price - e.price)
  }

  /** Closest price first, smaller id among equals. */
  predicate Closer(a: Order, b: Order, e: RecordedExecution) {
    Distance(a, e) < Distance(b, e) || (Distance(a, e) == Distance(b, e) && Less(a.id, b.id))
  }

  /** No active order can take the execution. */
  ghost predicate Unmatchable(e: RecordedExecution, active: seq<Order>) {
    match ClientPrefix(e.orderLinkId)
    case Some(key) => forall o <- active :: o.clientId != key
    case None => forall o <- active :: o.id != e.orderId && o.side != e.side
  }

  /** `o` is the order the execution must be applied to. */
  ghost predicate Selects(e: RecordedExecution, active: seq<Order>, o: Order) {
    o in active &&
    match ClientPrefix(e.orderLinkId)
    case Some(key) => o.clientId == key
    case None =>
      || o.id == e.orderId
      || ((forall x <- active :: x.id != e.orderId) && o.side == e.side
          && forall x <- active :: x.side == e.side ==> !Closer(x, o, e))
  }

  lemma CloserIsTransitive(a: Order, b: Order, c: Order, e: RecordedExecution)
    requires !Closer(b, a, e) && !Closer(c, b, e)
    ensures !Closer(c, a, e)
  {
    LessIsTotal(a.id, b.id);
    LessIsTotal(b.id, c.id);
    LessIsTotal(a.id, c.id);
    if Less(c.id, a.id) && Less(a.id, b.id) { LessIsTransitive(c.id, a.id, b.id); }
    if Less(b.id, c.id) && Less(c.id, a.id) { LessIsTransitive(b.id, c.id, a.id); }
  }

  // ---------- the stream ----------

  predicate InOrder(es: seq<RecordedExecution>) {
    forall i, j :: 0 <= i < j < |es| ==> es[i].ts <= es[j].ts
  }

  /** The rows of a stretch of the stream that are younger than `prev`. */
  function After(es: seq<RecordedExecution>, prev: int): seq<RecordedExecution> {
    Filter(es, (e: RecordedExecution) => e.ts > prev)
  }

  lemma {:induction false} AfterAll(es: seq<RecordedExecution>, prev: int)
    requires forall e <- es :: e.ts > prev
    ensures After(es, prev) == es
  {
    if es != [] { AfterAll(es[1..], prev); }
  }

  /** The rows taken are the younger ones, each as often as it is there. */
  lemma {:induction false} AfterTakes(es: seq<RecordedExecution>, prev: int)
    ensures forall e <- After(es, prev) :: e in es && e.ts > prev
    ensures forall e: RecordedExecution :: e.ts > prev ==> multiset(After(es, prev))[e] == multiset(es)[e]
  {
    if es != [] {
      AfterTakes(es[1..], prev);
      assert es == [es[0]] + es[1..];
    }
  }

  lemma WindowTakes(es: seq<RecordedExecution>, prev: int, edge: int)
    requires forall k :: 0 <= k < |es| ==> es[k].ts <= edge
    ensures forall e <- After(es, prev) :: prev < e.ts <= edge
    ensures forall e: RecordedExecution :: e.ts > prev ==> multiset(After(es, prev))[e] == multiset(es)[e]
  {
    hide After;
    AfterTakes(es, prev);
  }

  lemma AfterPush(es: seq<RecordedExecution>, e: RecordedExecution, prev: int)
    ensures After(es + [e], prev) == if e.ts > prev then After(es, prev) + [e] else After(es, prev)
  {
    FilterAppend(es, [e], (e: RecordedExecution) => e.ts > prev);
  }

  class EventFollower {
    const executions: seq<RecordedExecution>
    const initialPrevTs: int
    const lastIndex: map<string, nat>
    var cursor: nat
    var lastTickTs: Option<int>

    ghost predicate Valid()
      reads this
    {
      cursor <= |executions| && IndexIsLast()
    }

    /** The index holds the last position of every recorded order id. */
    ghost predicate IndexIsLast() {
      && (forall id <- lastIndex :: lastIndex[id] < |executions| && executions[lastIndex[id]].orderId == id)
      && (forall i :: 0 <= i < |executions| ==>
            executions[i].orderId in lastIndex && i <= lastIndex[executions[i].orderId])
    }

    /** Timestamps count microseconds, so the first window, open on the left, starts just
        before `startTs`. */
    constructor (executions: seq<RecordedExecution>, startTs: int)
      ensures Valid() && this.executions == executions && initialPrevTs == startTs - 1
      ensures cursor == 0 && lastTickTs == None
    {
      var index: map<string, nat> := map[];
      for i := 0 to |executions|
        invariant forall id <- index :: index[id] < i && executions[index[id]].orderId == id
        invariant forall k :: 0 <= k < i ==> executions[k].orderId in index && k <= index[executions[k].orderId]
      {
        index := index[executions[i].orderId := i];
      }
      this.executions, this.initialPrevTs, this.lastIndex := executions, startTs - 1, index;
      cursor, lastTickTs := 0, None;
    }

    /** Consumes the stream up to and including the tick; rows not younger than `prevTs` are
        consumed without being returned. */
    method Drain(prevTs: int, tickTs: int) returns (r: Result<seq<RecordedExecution>>)
      requires Valid()
      modifies this
      ensures Valid()
      ensures r.Err? <==> old(lastTickTs).Some? && tickTs < old(lastTickTs).value
      ensures r.Err? ==> r.error == NonMonotonicTick && unchanged(this)
      ensures r.Ok? ==>
        && lastTickTs == Some(tickTs)
        && old(cursor) <= cursor
        && (forall k :: old(cursor) <= k < cursor ==> executions[k].ts <= tickTs)
        && (cursor < |executions| ==> executions[cursor].ts > tickTs)
        && r.value == After(executions[old(cursor)..cursor], prevTs)
        && (forall e <- r.value :: prevTs < e.ts <= tickTs)
        && forall e: RecordedExecution :: e.ts > prevTs ==>
             multiset(r.value)[e] == multiset(executions[old(cursor)..cursor])[e]
    {
      hide IndexIsLast, After;
      if lastTickTs.Some? && tickTs < lastTickTs.value {
        return Err(NonMonotonicTick);
      }
      lastTickTs := Some(tickTs);
      var drained := [];
      ghost var start := cursor;
      AfterAll(executions[start..cursor], prevTs);
      while cursor < |executions|
        invariant start <= cursor <= |executions| && Valid() && lastTickTs == Some(tickTs)
        invariant forall k :: start <= k < cursor ==> executions[k].ts <= tickTs
        invariant drained == After(executions[start..cursor], prevTs)
      {
        var ex := executions[cursor];
        if ex.ts > tickTs {
          break;
        }
        assert executions[start..cursor + 1] == executions[start..cursor] + [ex];
        AfterPush(executions[start..cursor], ex, prevTs);
        cursor := cursor + 1;
        if ex.ts <= prevTs {
          continue;
        }
        drained := drained + [ex];
      }
      WindowTakes(executions[start..cursor], prevTs, tickTs);
      return Ok(drained);
    }

    /** The constant-time test agrees with a scan of the rows not yet drained. */
    predicate HasPendingForOrder(orderId: string)
      requires Valid()
      reads this
      ensures HasPendingForOrder(orderId) <==>
        exists k :: cursor <= k < |executions| && executions[k].orderId == orderId
    {
      orderId in lastIndex && lastIndex[orderId] >= cursor
    }

    method Match(e: RecordedExecution, active: seq<Order>) returns (r: Option<Match>, ghost chosen: Option<Order>)
      ensures r.None? <==> Unmatchable(e, active)
      ensures ClientPrefix(e.orderLinkId).Some? ==>
        (r.None? <==> forall o <- active :: o.clientId != ClientPrefix(e.orderLinkId).value)
      ensures ClientPrefix(e.orderLinkId).None? ==>
        (r.None? <==> forall o <- active :: o.id != e.orderId && o.side != e.side)
      ensures r.Some? <==> chosen.Some?
      ensures r.Some? ==> Selects(e, active, chosen.value)
      ensures r.Some? ==> r.value == MatchOf(chosen.value, e)
      ensures r.Some? ==>
        && chosen.value in active && r.value.replayOrderId == chosen.value.id && r.value.recordedOrderId == e.orderId
        && var key := ClientPrefix(e.orderLinkId);
           r.value.matcherKey == if key.Some? then key.value else e.orderId
      ensures r.Some? && ClientPrefix(e.orderLinkId).Some? ==>
        chosen.value.clientId == ClientPrefix(e.orderLinkId).value
      ensures r.Some? && ClientPrefix(e.orderLinkId).None? && (exists x <- active :: x.id == e.orderId) ==>
        chosen.value.id == e.orderId
      ensures r.Some? && ClientPrefix(e.orderLinkId).None? && (forall x <- active :: x.id != e.orderId) ==>
        && chosen.value.side == e.side
        && forall x <- active :: x.side == e.side ==> Abs(chosen.value.price - e.price) <= Abs(x.price - e.price)
    {
      var key := ClientPrefix(e.orderLinkId);
      if key.Some? {
        var i := IndexByClient(active, key.value);
        if i < 0 {
          return None, None;
        }
        return Some(MatchOf(active[i], e)), Some(active[i]);
      }
      var i := IndexById(active, e.orderId);
      if i >= 0 {
        return Some(MatchOf(active[i], e)), Some(active[i]);
      }
      var best := ClosestOnSide(e, active);
      if best.None? {
        return None, None;
      }
      return Some(MatchOf(best.value, e)), best;
    }

    /** The last resort for rows without a link id: same side, closest price. */
    method ClosestOnSide(e: RecordedExecution, active: seq<Order>) returns (best: Option<Order>)
      ensures best.None? <==> forall o <- active :: o.side != e.side
      ensures best.Some? ==> best.value in active && best.value.side == e.side
      ensures best.Some? ==> forall x <- active :: x.side == e.side ==> !Closer(x, best.value, e)
      ensures best.Some? ==> forall x <- active :: x.side == e.side ==>
        && Abs(best.value.price - e.price) <= Abs(x.price - e.price)
        && (Abs(best.value.price - e.price) == Abs(x.price - e.price) ==> !Less(x.id, best.value.id))
    {
      best := None;
      for k := 0 to |active|
        invariant best.None? <==> forall o <- active[..k] :: o.side != e.side
        invariant best.Some? ==> best.value in active[..k] && best.value.side == e.side
        invariant best.Some? ==> forall x <- active[..k] :: x.side == e.side ==> !Closer(x, best.value, e)
      {
        hide Closer;
        var o := active[k];
        assert active[..k + 1] == active[..k] + [o];
        if o.side == e.side {
          if best.None? {
            NotCloserThanItself(o, e);
            best := Some(o);
          } else if Closer(o, best.value, e) {
            KeepBest(o, best.value, active[..k], e);
            best := Some(o);
          }
        }
      }
      assert active[..|active|] == active;
    }
  }

  function MatchOf(o: Order, e: RecordedExecution): Match {
    Match(o.id, MatcherKey(e), e.orderId)
  }

  lemma NotCloserThanItself(o: Order, e: RecordedExecution)
    ensures !Closer(o, o, e)
  {
    LessIsTotal(o.id, o.id);
  }

  /** A closer order is the best of all orders the old best was the best of. */
  lemma KeepBest(o: Order, best: Order, seen: seq<Order>, e: RecordedExecution)
    requires Closer(o, best, e)
    requires forall x <- seen :: x.side == e.side ==> !Closer(x, best, e)
    ensures forall x <- seen :: x.side == e.side ==> !Closer(x, o, e)
    ensures !Closer(o, o, e)
  {
    NotCloserThanItself(o, e);
    forall x | x in seen && x.side == e.side ensures !Closer(x, o, e) {
      LessIsTotal(o.id, best.id);
      CloserIsTransitive(o, best, x, e);
    }
  }
}
