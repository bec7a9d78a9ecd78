/**
 Order lifecycles of a recorded-fill replay: applied slices gather in open roll-ups, one per
 (client id, recorded order) key, and each flush turns a roll-up into a trade. This module holds
 the invariants that relate slices, roll-ups and trades, and shows that applying and flushing
 keep them.
 */
module Lifecycle {
  import opened Common
  import opened Counting
  import opened Ledger
  import opened Session
  import opened RecordedStream

  datatype Rollup = Rollup(
    key: Key,
    side: Side,
    direction: Direction,
    sums: Amounts,
    lastTs: int,
    lastExecId: string,
    replayOrderIds: set<string>
  )

  /** One applied part of a recorded row, with side and direction of the order that took it. */
  datatype AppliedRow = AppliedRow(row: RecordedExecution, amounts: Amounts, side: Side, direction: Direction)

  function LifecycleKey(e: RecordedExecution): Key {
    (MatcherKey(e), e.orderId)
  }

  /** Keys of the live trades: the recorded rows grouped as the live loader groups them. */
  ghost function Groups(es: seq<RecordedExecution>): set<Key> {
    set e <- es :: LifecycleKey(e)
  }

  /** Two recorded rows share a lifecycle: an order with a partial fill. */
  ghost predicate KeysRepeat(es: seq<RecordedExecution>) {
    exists i, j :: 0 <= i < j < |es| && LifecycleKey(es[i]) == LifecycleKey(es[j])
  }

  lemma {:induction false} TwoPlaces(es: seq<RecordedExecution>, x: RecordedExecution) returns (i: nat, j: nat)
    requires multiset(es)[x] >= 2
    ensures i < j < |es| && es[i] == es[j] == x
  {
    var n := |es| - 1;
    assert es == es[..n] + [es[n]];
    if es[n] == x {
      assert x in multiset(es[..n]);
      i :| 0 <= i < n && es[..n][i] == x;
      j := n;
    } else {
      i, j := TwoPlaces(es[..n], x);
    }
  }

  /** A row taken before and a row in flight under the same key are two rows of the stream. */
  lemma TwoRowsOfKey(es: seq<RecordedExecution>, n: nat, taken: multiset<RecordedExecution>,
                     flight: multiset<RecordedExecution>, x: RecordedExecution, y: RecordedExecution)
    requires n <= |es| && taken + flight <= multiset(es[..n])
    requires x in taken && y in flight && LifecycleKey(x) == LifecycleKey(y)
    ensures KeysRepeat(es)
  {
    hide LifecycleKey;
    var s := es[..n];
    if x == y {
      assert multiset(s)[x] >= (taken + flight)[x] >= 2;
      var i, j := TwoPlaces(s, x);
      assert es[i] == x && es[j] == x;
    } else {
      assert x in taken + flight && y in taken + flight;
      assert x in multiset(s) && y in multiset(s);
      var i :| 0 <= i < n && s[i] == x;
      var j :| 0 <= j < n && s[j] == y;
      assert es[i] == x && es[j] == y;
      if i < j {
        assert LifecycleKey(es[i]) == LifecycleKey(es[j]);
      } else {
        assert LifecycleKey(es[j]) == LifecycleKey(es[i]);
      }
    }
  }

  function RollupEntries(rs: seq<Rollup>): (es: seq<Entry>)
    ensures |es| == |rs|
  {
    seq(|rs|, i requires 0 <= i < |rs| => Entry(rs[i].key, rs[i].sums))
  }

  function RowEntries(rows: seq<AppliedRow>): (es: seq<Entry>)
    ensures |es| == |rows|
  {
    seq(|rows|, i requires 0 <= i < |rows| => Entry(LifecycleKey(rows[i].row), rows[i].amounts))
  }

  function KeysOf(rs: seq<Rollup>): (ks: seq<Key>)
    ensures forall r <- rs :: r.key in ks
  {
    var ks := seq(|rs|, i requires 0 <= i < |rs| => rs[i].key);
    assert forall i :: 0 <= i < |rs| ==> ks[i] == rs[i].key;
    ks
  }

  function IndexByKey(rs: seq<Rollup>, key: Key): (i: int)
    ensures -1 <= i < |rs|
    ensures i >= 0 ==> rs[i].key == key
    ensures i < 0 ==> forall r <- rs :: r.key != key
  {
    if rs == [] then -1
    else if rs[0].key == key then 0
    else
      var i := IndexByKey(rs[1..], key);
      if i < 0 then -1 else i + 1
  }

  /** The one trade a roll-up becomes: volume-weighted price and summed amounts. */
  function TradeOf(r: Rollup): Trade
    requires r.sums.qty != 0.0
  {
    Trade(r.lastExecId, r.side, r.sums.notional / r.sums.qty, r.sums.qty, r.direction, r.lastTs,
          r.key.1, r.key.0, r.sums.pnl, r.sums.fee)
  }

  lemma TradeKeepsAmounts(r: Rollup)
    requires r.sums.qty != 0.0
    ensures TradeEntry(TradeOf(r)) == Entry(r.key, r.sums)
  {
    assert r.sums.qty * (r.sums.notional / r.sums.qty) == r.sums.notional;
  }

  /** Everything about the lifecycles of one replay. `left` holds the recorded order ids that still
      have rows in flight or in the undrained tail, `groups` the keys of the live trades; `repeats`
      says whether two recorded rows share a key, `premature` that a lifecycle was flushed while it
      had rows left, `reopened` that a slice was applied to a lifecycle already flushed. */
  datatype Life = Life(
    trades: seq<Trade>,
    rollups: seq<Rollup>,
    index: map<string, Key>,
    applied: seq<AppliedRow>,
    left: set<string>,
    groups: set<Key>,
    repeats: bool,
    premature: bool,
    reopened: bool
  )

  // ---------- invariants ----------

  ghost function Held(l: Life, key: Option<Key>): Amounts {
    Add(Total(TradeEntries(l.trades), key), Total(RollupEntries(l.rollups), key))
  }

  /** Trades and open roll-ups together hold exactly the applied slices, key by key and in all:
      quantity, notional, fee and profit. */
  ghost predicate Conserved(l: Life) {
    forall key :: Held(l, key) == Total(RowEntries(l.applied), key)
  }

  function KeyOf(e: Entry): Key { e.key }

  ghost function Uses(es: seq<Entry>, key: Key): nat {
    Occurrences(es, KeyOf, key)
  }

  ghost function TimesUsed(l: Life, key: Key): nat {
    Uses(TradeEntries(l.trades), key) + Uses(RollupEntries(l.rollups), key)
  }

  /** No lifecycle has two trades, or a trade and an open roll-up. */
  ghost predicate EachKeyOnce(l: Life) {
    forall key :: TimesUsed(l, key) <= 1
  }

  /** A repeated lifecycle means, and only means, that a slice reached one already flushed. */
  ghost predicate RepeatsAreReopenings(l: Life) {
    l.reopened <==> !EachKeyOnce(l)
  }

  /** Unless some flush came too early, no flushed lifecycle has rows left and none was reopened. */
  ghost predicate FlushedAreSettled(l: Life) {
    !l.premature ==> !l.reopened && forall t <- l.trades :: t.orderId !in l.left
  }

  /** Open roll-ups have distinct keys, hold something, and come from the recorded stream. */
  ghost predicate OpenAreSound(l: Life) {
    && (forall r <- l.rollups :: r.sums.qty > 0.0 && r.key in l.groups)
    && (forall key :: Uses(RollupEntries(l.rollups), key) <= 1)
    && (forall t <- l.trades :: (t.clientOrderId, t.orderId) in l.groups)
  }

  /** Each index entry points to an open roll-up fed by that order. The converse does not hold. */
  ghost predicate IndexIsSound(l: Life) {
    forall id <- l.index :: exists r <- l.rollups :: r.key == l.index[id] && id in r.replayOrderIds
  }

  ghost predicate HasSlice(applied: seq<AppliedRow>, key: Key) {
    exists a <- applied :: LifecycleKey(a.row) == key
  }

  ghost predicate HasSliceAt(applied: seq<AppliedRow>, key: Key, ts: int) {
    exists a <- applied :: LifecycleKey(a.row) == key && a.row.ts == ts
  }

  /** Some applied slice of the key has this side and direction, and some this time and execution id. */
  ghost predicate Stems(applied: seq<AppliedRow>, key: Key, side: Side, direction: Direction, ts: int,
                        execId: string)
  {
    && (exists a <- applied :: LifecycleKey(a.row) == key && a.side == side && a.direction == direction)
    && (exists a <- applied :: LifecycleKey(a.row) == key && a.row.ts == ts && a.row.execId == execId)
  }

  lemma StemsAtTime(applied: seq<AppliedRow>, t: Trade)
    requires TradeStems(applied, t)
    ensures HasSliceAt(applied, (t.clientOrderId, t.orderId), t.ts)
  {
    hide LifecycleKey;
  }

  ghost predicate TradeStems(applied: seq<AppliedRow>, t: Trade) {
    Stems(applied, (t.clientOrderId, t.orderId), t.side, t.direction, t.ts, t.tradeId)
  }

  ghost predicate RollupStems(applied: seq<AppliedRow>, r: Rollup) {
    Stems(applied, r.key, r.side, r.direction, r.lastTs, r.lastExecId)
  }

  /** Trades and roll-ups come from applied slices: each has side and direction of one and time and
      execution id of one. A lifecycle is reopened only when two recorded rows share its key. */
  ghost predicate ComesFromSlices(l: Life) {
    && (forall t <- l.trades :: TradeStems(l.applied, t))
    && (forall r <- l.rollups :: RollupStems(l.applied, r))
    && (l.reopened ==> l.repeats)
  }

  ghost predicate LifeOk(l: Life) {
    Conserved(l) && RepeatsAreReopenings(l) && OpenAreSound(l) && IndexIsSound(l) && ComesFromSlices(l)
  }

  lemma NothingYet(l: Life)
    requires l.trades == [] && l.rollups == [] && l.applied == [] && l.index == map[] && !l.reopened
    ensures LifeOk(l) && FlushedAreSettled(l)
  {
    hide LifecycleKey;
    assert TradeEntries(l.trades) == RollupEntries(l.rollups) == RowEntries(l.applied) == [];
    assert Conserved(l) && OpenAreSound(l) && IndexIsSound(l) && ComesFromSlices(l);
  }

  /** The invariants survive when fewer rows are left. */
  lemma FewerLeft(l: Life, left: set<string>)
    requires left <= l.left && LifeOk(l) && FlushedAreSettled(l)
    ensures LifeOk(l.(left := left)) && FlushedAreSettled(l.(left := left))
  {
    var l' := l.(left := left);
    forall key ensures Held(l', key) == Held(l, key) {}
    forall key ensures TimesUsed(l', key) == TimesUsed(l, key) {}
  }

  // ---------- applying a slice ----------

  function Fed(r: Rollup, a: AppliedRow, replayOrderId: string): Rollup {
    r.(sums := Add(r.sums, a.amounts), lastTs := a.row.ts, lastExecId := a.row.execId,
       replayOrderIds := r.replayOrderIds + {replayOrderId})
  }

  function Opened(a: AppliedRow, replayOrderId: string): Rollup {
    Fed(Rollup(LifecycleKey(a.row), a.side, a.direction, ZERO, 0, "", {}), a, replayOrderId)
  }

  function Gathered(rs: seq<Rollup>, a: AppliedRow, replayOrderId: string): seq<Rollup> {
    var i := IndexByKey(rs, LifecycleKey(a.row));
    if i >= 0 then rs[i := Fed(rs[i], a, replayOrderId)] else rs + [Opened(a, replayOrderId)]
  }

  /** The lifecycles after a slice is applied; only rows of `left` remain afterwards. */
  ghost function AfterApply(l: Life, a: AppliedRow, replayOrderId: string, left: set<string>): Life {
    var key := LifecycleKey(a.row);
    l.(rollups := Gathered(l.rollups, a, replayOrderId),
       index := l.index[replayOrderId := key],
       applied := l.applied + [a],
       left := left,
       reopened := l.reopened || (IndexByKey(l.rollups, key) < 0 && Uses(TradeEntries(l.trades), key) > 0))
  }

  lemma EntriesPush(rs: seq<Rollup>, r: Rollup, rows: seq<AppliedRow>, a: AppliedRow)
    ensures RollupEntries(rs + [r]) == RollupEntries(rs) + [Entry(r.key, r.sums)]
    ensures RowEntries(rows + [a]) == RowEntries(rows) + [Entry(LifecycleKey(a.row), a.amounts)]
  {
  }

  lemma EntriesUpdate(rs: seq<Rollup>, i: nat, r: Rollup)
    requires i < |rs|
    ensures RollupEntries(rs[i := r]) == RollupEntries(rs)[i := Entry(r.key, r.sums)]
  {
  }

  lemma EntriesWithout(rs: seq<Rollup>, i: nat)
    requires i < |rs|
    ensures RollupEntries(Without(rs, i)) == Without(RollupEntries(rs), i)
  {
  }

  /** What gathering a slice does to totals and key counts. */
  lemma GatheredTotals(rs: seq<Rollup>, a: AppliedRow, replayOrderId: string,
                       key: Option<Key>)
    ensures Total(RollupEntries(Gathered(rs, a, replayOrderId)), key)
         == Add(Total(RollupEntries(rs), key), Part(Entry(LifecycleKey(a.row), a.amounts), key))
  {
    hide Total, RollupEntries;
    var i := IndexByKey(rs, LifecycleKey(a.row));
    if i >= 0 {
      EntriesUpdate(rs, i, Fed(rs[i], a, replayOrderId));
      TotalGrow(RollupEntries(rs), i, a.amounts, key);
      assert RollupEntries(rs)[i] == Entry(rs[i].key, rs[i].sums) by { EntryAt(rs, i); }
    } else {
      var r := Opened(a, replayOrderId);
      EntriesPush(rs, r, [], a);
      TotalPush(RollupEntries(rs), Entry(r.key, r.sums), key);
    }
  }

  lemma EntryAt(rs: seq<Rollup>, i: nat)
    requires i < |rs|
    ensures RollupEntries(rs)[i] == Entry(rs[i].key, rs[i].sums)
  {
  }

  lemma GatheredUses(rs: seq<Rollup>, a: AppliedRow, replayOrderId: string, key: Key)
    ensures Uses(RollupEntries(Gathered(rs, a, replayOrderId)), key)
         == Uses(RollupEntries(rs), key) + if key == LifecycleKey(a.row) && IndexByKey(rs, key) < 0 then 1 else 0
  {
    var i := IndexByKey(rs, LifecycleKey(a.row));
    if i >= 0 {
      OccurrencesSame(RollupEntries(rs), KeyOf, RollupEntries(Gathered(rs, a, replayOrderId)), KeyOf, key);
    } else {
      var r := Opened(a, replayOrderId);
      EntriesPush(rs, r, [], a);
      OccurrencesPush(RollupEntries(rs), Entry(r.key, r.sums), KeyOf, key);
    }
  }

  lemma NotOpenIsUnused(rs: seq<Rollup>, key: Key)
    requires IndexByKey(rs, key) < 0
    ensures Uses(RollupEntries(rs), key) == 0
  {
    OccurrencesPositive(RollupEntries(rs), KeyOf, key);
  }

  lemma ApplyKeepsConserved(l: Life, a: AppliedRow, replayOrderId: string, left: set<string>)
    requires Conserved(l)
    ensures Conserved(AfterApply(l, a, replayOrderId, left))
  {
    hide Gathered, TradeEntries, RollupEntries, RowEntries, Total;
    var l' := AfterApply(l, a, replayOrderId, left);
    EntriesPush([], Opened(a, replayOrderId), l.applied, a);
    forall key ensures Held(l', key) == Total(RowEntries(l'.applied), key) {
      GatheredTotals(l.rollups, a, replayOrderId, key);
      TotalPush(RowEntries(l.applied), Entry(LifecycleKey(a.row), a.amounts), key);
      assert Held(l, key) == Total(RowEntries(l.applied), key);
    }
  }

  lemma ApplyKeepsRepeats(l: Life, a: AppliedRow, replayOrderId: string, left: set<string>)
    requires RepeatsAreReopenings(l)
    ensures RepeatsAreReopenings(AfterApply(l, a, replayOrderId, left))
  {
    hide Gathered, Uses;
    var l' := AfterApply(l, a, replayOrderId, left);
    var key := LifecycleKey(a.row);
    forall k ensures TimesUsed(l', k) == TimesUsed(l, k) + if k == key && IndexByKey(l.rollups, key) < 0 then 1 else 0 {
      GatheredUses(l.rollups, a, replayOrderId, k);
    }
    if IndexByKey(l.rollups, key) < 0 {
      NotOpenIsUnused(l.rollups, key);
      if Uses(TradeEntries(l.trades), key) > 0 { assert TimesUsed(l', key) > 1; }
    }
    if !EachKeyOnce(l) {
      var k :| TimesUsed(l, k) > 1;
      assert TimesUsed(l', k) > 1;
    }
  }

  lemma ApplyKeepsSound(l: Life, a: AppliedRow, replayOrderId: string, left: set<string>)
    requires OpenAreSound(l) && a.amounts.qty > 0.0 && LifecycleKey(a.row) in l.groups
    ensures OpenAreSound(AfterApply(l, a, replayOrderId, left))
  {
    hide Uses;
    forall key ensures Uses(RollupEntries(Gathered(l.rollups, a, replayOrderId)), key) <= 1 {
      GatheredUses(l.rollups, a, replayOrderId, key);
      if IndexByKey(l.rollups, key) < 0 { NotOpenIsUnused(l.rollups, key); }
    }
  }

  lemma ApplyKeepsIndex(l: Life, a: AppliedRow, replayOrderId: string, left: set<string>)
    requires IndexIsSound(l)
    ensures IndexIsSound(AfterApply(l, a, replayOrderId, left))
  {
    var l' := AfterApply(l, a, replayOrderId, left);
    var key := LifecycleKey(a.row);
    var i := IndexByKey(l.rollups, key);
    var fed := if i >= 0 then Fed(l.rollups[i], a, replayOrderId) else Opened(a, replayOrderId);
    assert l'.rollups[if i >= 0 then i else |l.rollups|] == fed;
    assert fed in l'.rollups && fed.key == key && replayOrderId in fed.replayOrderIds;
    forall id | id in l'.index ensures exists r <- l'.rollups :: r.key == l'.index[id] && id in r.replayOrderIds {
      if id != replayOrderId {
        var r :| r in l.rollups && r.key == l.index[id] && id in r.replayOrderIds;
        StillGathered(l.rollups, r, a, replayOrderId);
      }
    }
  }

  lemma StillGathered(rs: seq<Rollup>, r: Rollup, a: AppliedRow, replayOrderId: string)
    requires r in rs
    ensures exists r' <- Gathered(rs, a, replayOrderId) :: r'.key == r.key && r.replayOrderIds <= r'.replayOrderIds
  {
    var rs' := Gathered(rs, a, replayOrderId);
    var k :| 0 <= k < |rs| && rs[k] == r;
    assert rs'[k] in rs' && rs'[k].key == r.key && r.replayOrderIds <= rs'[k].replayOrderIds;
  }

  lemma UsedByTrade(trades: seq<Trade>, key: Key)
    ensures Uses(TradeEntries(trades), key) > 0 <==> exists t <- trades :: (t.clientOrderId, t.orderId) == key
  {
    OccurrencesPositive(TradeEntries(trades), KeyOf, key);
    if Uses(TradeEntries(trades), key) > 0 {
      var e :| e in TradeEntries(trades) && KeyOf(e) == key;
      var k :| 0 <= k < |trades| && TradeEntries(trades)[k] == e;
      assert trades[k] in trades;
    }
    if t :| t in trades && (t.clientOrderId, t.orderId) == key {
      var k :| 0 <= k < |trades| && trades[k] == t;
      assert KeyOf(TradeEntries(trades)[k]) == key;
    }
  }

  /** A slice of a row that is still in flight, hence of an order with rows left. */
  lemma ApplyKeepsSettled(l: Life, a: AppliedRow, replayOrderId: string, left: set<string>)
    requires FlushedAreSettled(l) && a.row.orderId in l.left && left <= l.left
    ensures FlushedAreSettled(AfterApply(l, a, replayOrderId, left))
  {
    if !l.premature {
      UsedByTrade(l.trades, LifecycleKey(a.row));
    }
  }

  lemma StemsPush(applied: seq<AppliedRow>, a: AppliedRow, key: Key, side: Side, direction: Direction, ts: int,
                  execId: string)
    ensures Stems(applied, key, side, direction, ts, execId) ==> Stems(applied + [a], key, side, direction, ts, execId)
    ensures Stems(applied, key, side, direction, ts, execId) ==> HasSlice(applied, key) && HasSliceAt(applied, key, ts)
    ensures Stems(applied, LifecycleKey(a.row), side, direction, ts, execId) ==>
      Stems(applied + [a], LifecycleKey(a.row), side, direction, a.row.ts, a.row.execId)
    ensures Stems(applied + [a], LifecycleKey(a.row), a.side, a.direction, a.row.ts, a.row.execId)
  {
    hide LifecycleKey;
    assert a in applied + [a];
    if Stems(applied, key, side, direction, ts, execId) {
      var x :| x in applied && LifecycleKey(x.row) == key && x.side == side && x.direction == direction;
      var y :| y in applied && LifecycleKey(y.row) == key && y.row.ts == ts && y.row.execId == execId;
      assert x in applied + [a] && y in applied + [a];
    }
    if Stems(applied, LifecycleKey(a.row), side, direction, ts, execId) {
      var x :| x in applied && LifecycleKey(x.row) == LifecycleKey(a.row) && x.side == side && x.direction == direction;
      assert x in applied + [a];
    }
  }

  /** Roll-ups old and new stem from the slices, the one that gathers the new slice included. */
  lemma GatheredStem(l: Life, a: AppliedRow, replayOrderId: string)
    requires forall r <- l.rollups :: RollupStems(l.applied, r)
    ensures forall r <- Gathered(l.rollups, a, replayOrderId) :: RollupStems(l.applied + [a], r)
  {
    hide LifecycleKey, Stems, IndexByKey;
    var i, rs := IndexByKey(l.rollups, LifecycleKey(a.row)), Gathered(l.rollups, a, replayOrderId);
    forall r | r in rs ensures RollupStems(l.applied + [a], r) {
      var k :| 0 <= k < |rs| && rs[k] == r;
      if k < |l.rollups| {
        var was := l.rollups[k];
        assert was in l.rollups;
        StemsPush(l.applied, a, was.key, was.side, was.direction, was.lastTs, was.lastExecId);
      } else {
        StemsPush(l.applied, a, LifecycleKey(a.row), a.side, a.direction, a.row.ts, a.row.execId);
      }
    }
  }

  /** A slice of a key that was applied before needs two recorded rows of that key. */
  lemma ApplyKeepsOrigin(l: Life, a: AppliedRow, replayOrderId: string, left: set<string>)
    requires ComesFromSlices(l) && (HasSlice(l.applied, LifecycleKey(a.row)) ==> l.repeats)
    ensures ComesFromSlices(AfterApply(l, a, replayOrderId, left))
  {
    hide HasSlice, Stems, Uses, LifecycleKey, Gathered;
    forall t | t in l.trades
      ensures TradeStems(l.applied + [a], t) && HasSlice(l.applied, (t.clientOrderId, t.orderId))
    {
      StemsPush(l.applied, a, (t.clientOrderId, t.orderId), t.side, t.direction, t.ts, t.tradeId);
    }
    GatheredStem(l, a, replayOrderId);
    UsedByTrade(l.trades, LifecycleKey(a.row));
  }

  lemma ApplyKeepsLife(l: Life, a: AppliedRow, replayOrderId: string, left: set<string>)
    requires LifeOk(l) && a.amounts.qty > 0.0 && LifecycleKey(a.row) in l.groups
    requires HasSlice(l.applied, LifecycleKey(a.row)) ==> l.repeats
    ensures LifeOk(AfterApply(l, a, replayOrderId, left))
  {
    ApplyKeepsConserved(l, a, replayOrderId, left);
    ApplyKeepsRepeats(l, a, replayOrderId, left);
    ApplyKeepsSound(l, a, replayOrderId, left);
    ApplyKeepsIndex(l, a, replayOrderId, left);
    ApplyKeepsOrigin(l, a, replayOrderId, left);
    hide Conserved, RepeatsAreReopenings, OpenAreSound, IndexIsSound, ComesFromSlices;
  }

  // ---------- flushing a roll-up ----------

  /** The lifecycles after roll-up `i` has become a trade. `early` says the flush is one of those
      that do not look whether rows are left. */
  ghost function AfterFlush(l: Life, i: nat, early: bool): Life
    requires i < |l.rollups| && l.rollups[i].sums.qty != 0.0
  {
    var r := l.rollups[i];
    l.(trades := l.trades + [TradeOf(r)],
       rollups := Without(l.rollups, i),
       index := l.index - r.replayOrderIds,
       premature := l.premature || (early && r.key.1 in l.left))
  }

  /** A flush moves an entry from the roll-ups to the trades and changes nothing else. */
  lemma FlushMovesEntry(l: Life, i: nat)
    requires i < |l.rollups| && l.rollups[i].sums.qty != 0.0
    ensures TradeEntries(l.trades + [TradeOf(l.rollups[i])]) == TradeEntries(l.trades) + [RollupEntries(l.rollups)[i]]
    ensures RollupEntries(Without(l.rollups, i)) == Without(RollupEntries(l.rollups), i)
  {
    TradeKeepsAmounts(l.rollups[i]);
    TradeEntriesAppend(l.trades, TradeOf(l.rollups[i]));
    EntriesWithout(l.rollups, i);
  }

  lemma FlushKeepsHeld(l: Life, i: nat, early: bool, key: Option<Key>)
    requires i < |l.rollups| && l.rollups[i].sums.qty != 0.0
    ensures Held(AfterFlush(l, i, early), key) == Held(l, key)
  {
    hide TradeEntries, RollupEntries, TradeOf, Total;
    FlushMovesEntry(l, i);
    TotalPush(TradeEntries(l.trades), RollupEntries(l.rollups)[i], key);
    TotalRemove(RollupEntries(l.rollups), i, key);
  }

  lemma FlushKeepsUses(l: Life, i: nat, early: bool, key: Key)
    requires i < |l.rollups| && l.rollups[i].sums.qty != 0.0
    ensures TimesUsed(AfterFlush(l, i, early), key) == TimesUsed(l, key)
    ensures Uses(RollupEntries(AfterFlush(l, i, early).rollups), key) <= Uses(RollupEntries(l.rollups), key)
  {
    hide TradeEntries, RollupEntries, TradeOf;
    FlushMovesEntry(l, i);
    OccurrencesPush(TradeEntries(l.trades), RollupEntries(l.rollups)[i], KeyOf, key);
    OccurrencesWithout(RollupEntries(l.rollups), i, KeyOf, key);
  }

  /** Within a list of distinct keys, another element has another key. */
  lemma OtherKeys(rs: seq<Rollup>, i: nat)
    requires i < |rs| && Uses(RollupEntries(rs), rs[i].key) <= 1
    ensures forall r <- Without(rs, i) :: r.key != rs[i].key
  {
    EntriesWithout(rs, i);
    OccurrencesWithout(RollupEntries(rs), i, KeyOf, rs[i].key);
    OccurrencesPositive(RollupEntries(Without(rs, i)), KeyOf, rs[i].key);
    forall r | r in Without(rs, i) ensures r.key != rs[i].key {
      var k :| 0 <= k < |Without(rs, i)| && Without(rs, i)[k] == r;
      assert RollupEntries(Without(rs, i))[k] in RollupEntries(Without(rs, i));
    }
  }

  lemma FlushKeepsSound(l: Life, i: nat, early: bool)
    requires OpenAreSound(l) && i < |l.rollups|
    ensures OpenAreSound(AfterFlush(l, i, early))
  {
    forall key ensures Uses(RollupEntries(AfterFlush(l, i, early).rollups), key) <= 1 {
      FlushKeepsUses(l, i, early, key);
    }
    hide Uses, RollupEntries;
  }

  lemma FlushKeepsIndex(l: Life, i: nat, early: bool)
    requires OpenAreSound(l) && IndexIsSound(l) && i < |l.rollups|
    ensures IndexIsSound(AfterFlush(l, i, early))
  {
    var l' := AfterFlush(l, i, early);
    forall id | id in l'.index ensures exists r <- l'.rollups :: r.key == l'.index[id] && id in r.replayOrderIds {
      var r :| r in l.rollups && r.key == l.index[id] && id in r.replayOrderIds;
      assert r != l.rollups[i];
      var k :| 0 <= k < |l.rollups| && l.rollups[k] == r;
      assert r == l'.rollups[if k < i then k else k - 1];
    }
  }

  lemma FlushKeepsOrigin(l: Life, i: nat, early: bool)
    requires ComesFromSlices(l) && i < |l.rollups| && l.rollups[i].sums.qty != 0.0
    ensures ComesFromSlices(AfterFlush(l, i, early))
  {
    hide Stems;
    assert l.rollups[i] in l.rollups;
  }

  lemma FlushKeepsLife(l: Life, i: nat, early: bool)
    requires LifeOk(l) && i < |l.rollups|
    ensures l.rollups[i].sums.qty > 0.0
    ensures LifeOk(AfterFlush(l, i, early))
  {
    FlushKeepsSound(l, i, early);
    FlushKeepsIndex(l, i, early);
    assert ComesFromSlices(AfterFlush(l, i, early)) by {
      OpenHold(l, i);
      FlushKeepsOrigin(l, i, early);
    }
    hide OpenAreSound, IndexIsSound, ComesFromSlices;
    assert l.rollups[i].sums.qty > 0.0 by { OpenHold(l, i); }
    var l' := AfterFlush(l, i, early);
    forall key ensures Held(l', key) == Total(RowEntries(l'.applied), key) {
      FlushKeepsHeld(l, i, early, key);
    }
    forall key ensures TimesUsed(l', key) == TimesUsed(l, key) {
      FlushKeepsUses(l, i, early, key);
    }
  }

  lemma OpenHold(l: Life, i: nat)
    requires OpenAreSound(l) && i < |l.rollups|
    ensures l.rollups[i].sums.qty > 0.0
  {
  }

  /** A flush that is marked early when rows are left, or that happens when none are. */
  lemma FlushKeepsSettled(l: Life, i: nat, early: bool)
    requires OpenAreSound(l) && FlushedAreSettled(l) && i < |l.rollups|
    requires early || l.rollups[i].key.1 !in l.left
    ensures FlushedAreSettled(AfterFlush(l, i, early))
  {
  }
}
