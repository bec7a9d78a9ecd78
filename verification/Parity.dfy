/**
 Replay against live, end to end: what the comparison of a replay's trades with the recorded ones
 can and cannot report.
 */
module Parity {
  import opened Common
  import opened Counting
  import opened Ledger
  import opened RecordedStream
  import opened Session
  import opened Lifecycle
  import opened Funding
  import opened ReplaySteps
  import opened Runner
  import opened Replay
  import opened Loader
  import opened Matcher
  import opened PairOrder

  // ---------- at most one trade for each live group ----------

  function KeyOfTrade(t: Trade): Key { (t.clientOrderId, t.orderId) }

  /** Every trade belongs to a recorded order and no recorded order has two. */
  ghost predicate OnePerGroup(trades: seq<Trade>, es: seq<RecordedExecution>) {
    && (forall t <- trades :: KeyOfTrade(t) in Groups(es))
    && forall key :: Uses(TradeEntries(trades), key) <= 1
  }

  /** The trades' keys as groups, to count them as the live loader's groups are counted. */
  ghost function AsGroups(trades: seq<Trade>): (r: seq<Group>)
    ensures |r| == |trades|
  {
    seq(|trades|, i requires 0 <= i < |trades| => (KeyOfTrade(trades[i]), []))
  }

  lemma TwoUses(trades: seq<Trade>, i: nat, j: nat)
    requires i < j < |trades| && KeyOfTrade(trades[i]) == KeyOfTrade(trades[j])
    ensures Uses(TradeEntries(trades), KeyOfTrade(trades[i])) >= 2
  {
    var key := KeyOfTrade(trades[i]);
    var es := TradeEntries(trades);
    OccurrencesWithout(es, j, Lifecycle.KeyOf, key);
    OccurrencesWithout(Without(es, j), i, Lifecycle.KeyOf, key);
    assert Without(es, j)[i] == es[i];
  }

  /** Then no client id has more trades than live groups. */
  lemma TradesPerClient(trades: seq<Trade>, es: seq<RecordedExecution>, c: string)
    requires OnePerGroup(trades, es)
    ensures Occurrences(trades, TradeClient, c) <= |KeysOfClient(Groups(es), c)|
  {
    hide Groups, TradeEntries, Uses;
    var groups := AsGroups(trades);
    forall i, j | 0 <= i < j < |groups| ensures groups[i].0 != groups[j].0 {
      if groups[i].0 == groups[j].0 { TwoUses(trades, i, j); }
    }
    GroupsOfClient(groups, c);
    OccurrencesSame(trades, TradeClient, groups, GroupClient, c);
    assert KeysOfClient(KeySet(groups), c) <= KeysOfClient(Groups(es), c);
    SmallerSet(KeysOfClient(KeySet(groups), c), KeysOfClient(Groups(es), c));
  }

  lemma SmallerSet(a: set<Key>, b: set<Key>)
    requires a <= b
    ensures |a| <= |b|
  {
    assert b == a + (b - a);
  }

  /** The two lists the loaders make of the window's executions and of the replay's trades. */
  ghost predicate Loaded(live: seq<NormalizedTrade>, backtest: seq<NormalizedTrade>, es: seq<RecordedExecution>,
                         trades: seq<Trade>) {
    && IsNumbered(live) && IsNumbered(backtest)
    && (forall c :: Occurrences(live, ClientOf, c) == |KeysOfClient(Groups(es), c)|)
    && (forall c :: Occurrences(backtest, ClientOf, c) == Occurrences(trades, TradeClient, c))
  }

  /** No phantom trades: one trade for each recorded order leaves nothing unmatched on the
      backtest side. */
  lemma NoPhantomTrades(live: seq<NormalizedTrade>, backtest: seq<NormalizedTrade>, es: seq<RecordedExecution>,
                        trades: seq<Trade>)
    requires Loaded(live, backtest, es, trades) && OnePerGroup(trades, es)
    ensures MatchTrades(live, backtest).backtestOnly == []
  {
    hide IsNumbered, MatchTrades, Occurrences, OnePerGroup;
    forall c ensures Occurrences(backtest, ClientOf, c) <= Occurrences(live, ClientOf, c) {
      TradesPerClient(trades, es, c);
    }
    NoBacktestOnly(live, backtest);
  }

  /** Where live never reused a client id, phantoms appear exactly when some recorded order got
      two trades. With reuse the second trade may hide behind a live order that was not replayed. */
  lemma PhantomsAreRepeats(live: seq<NormalizedTrade>, backtest: seq<NormalizedTrade>, es: seq<RecordedExecution>,
                           trades: seq<Trade>)
    requires Loaded(live, backtest, es, trades)
    requires forall t <- trades :: KeyOfTrade(t) in Groups(es)
    requires forall c :: |KeysOfClient(Groups(es), c)| <= 1
    ensures MatchTrades(live, backtest).backtestOnly == [] <==> forall key :: Uses(TradeEntries(trades), key) <= 1
  {
    hide IsNumbered, MatchTrades, Groups, Uses, TradeEntries, Occurrences;
    NoBacktestOnly(live, backtest);
    if forall key :: Uses(TradeEntries(trades), key) <= 1 {
      NoPhantomTrades(live, backtest, es, trades);
    } else {
      var key :| Uses(TradeEntries(trades), key) > 1;
      UsesAreClientTrades(trades, key);
      assert Occurrences(backtest, ClientOf, key.0) > Occurrences(live, ClientOf, key.0);
    }
  }

  /** The trades of one key are among the trades of its client id. */
  lemma {:induction false} UsesAreClientTrades(trades: seq<Trade>, key: Key)
    ensures Uses(TradeEntries(trades), key) <= Occurrences(trades, TradeClient, key.0)
  {
    if trades != [] {
      var n := |trades| - 1;
      UsesAreClientTrades(trades[..n], key);
      TradeEntriesAppend(trades[..n], trades[n]);
      assert trades == trades[..n] + [trades[n]];
      OccurrencesPush(TradeEntries(trades[..n]), TradeEntry(trades[n]), Lifecycle.KeyOf, key);
      OccurrencesPush(trades[..n], trades[n], TradeClient, key.0);
    }
  }

  // ---------- a lifecycle replayed in full ----------

  function WholeAmounts(e: RecordedExecution): Amounts {
    Amounts(e.qty, e.price * e.qty, e.fee, e.closedPnl)
  }

  function RecordedEntry(e: RecordedExecution): Entry {
    Entry(LifecycleKey(e), WholeAmounts(e))
  }

  function RecordedEntries(rows: seq<RecordedExecution>): (es: seq<Entry>)
    ensures |es| == |rows|
  {
    seq(|rows|, i requires 0 <= i < |rows| => RecordedEntry(rows[i]))
  }

  lemma SlicePush(applied: seq<AppliedRow>, a: AppliedRow)
    ensures RowEntries(applied + [a]) == RowEntries(applied) + [Entry(LifecycleKey(a.row), a.amounts)]
    ensures RecordedEntries(RowsOf(applied + [a])) == RecordedEntries(RowsOf(applied)) + [RecordedEntry(a.row)]
  {
  }

  /** Whole slices hold what their rows hold. */
  lemma {:induction false} WholeSlices(applied: seq<AppliedRow>, key: Key)
    requires forall a <- applied :: LifecycleKey(a.row) == key ==> a.amounts == WholeAmounts(a.row)
    ensures Total(RowEntries(applied), Some(key)) == Total(RecordedEntries(RowsOf(applied)), Some(key))
  {
    hide LifecycleKey, WholeAmounts, Add, RowEntries, RecordedEntries, RowsOf, Total;
    if applied == [] {
      NoSlices();
    } else {
      var rest, a := applied[..|applied| - 1], applied[|applied| - 1];
      assert applied == rest + [a];
      SlicePush(rest, a);
      WholeSlices(rest, key);
      TotalPush(RowEntries(rest), Entry(LifecycleKey(a.row), a.amounts), Some(key));
      TotalPush(RecordedEntries(RowsOf(rest)), RecordedEntry(a.row), Some(key));
    }
  }

  lemma NoSlices()
    ensures RowEntries([]) == RecordedEntries(RowsOf([])) == []
  {
  }

  lemma TakeRow(rows: seq<RecordedExecution>, i: nat, key: Key)
    requires i < |rows|
    ensures Total(RecordedEntries(rows), Some(key))
         == Add(Total(RecordedEntries(Without(rows, i)), Some(key)), Part(RecordedEntry(rows[i]), Some(key)))
  {
    hide Total, Part, RecordedEntry;
    assert RecordedEntries(Without(rows, i)) == Without(RecordedEntries(rows), i);
    TotalRemove(RecordedEntries(rows), i, Some(key));
  }

  /** Rows of other lifecycles do not show in the total of one. */
  lemma {:induction false} RowsOfOthers(rows: seq<RecordedExecution>, rest: multiset<RecordedExecution>,
                                        all: seq<RecordedExecution>, key: Key)
    requires multiset(rows) + rest == multiset(all) && forall r <- rest :: LifecycleKey(r) != key
    ensures Total(RecordedEntries(rows), Some(key)) == Total(RecordedEntries(all), Some(key))
  {
    hide LifecycleKey, RecordedEntries, RecordedEntry, Total, Part, Add;
    if rows == [] {
      NoRows(all, key);
      NoRows(rows, key);
    } else {
      var i := RemovedFromBoth(rows, rest, all);
      RowsOfOthers(rows[1..], rest, Without(all, i), key);
      TakeRow(all, i, key);
      TakeRow(rows, 0, key);
      assert Without(rows, 0) == rows[1..];
    }
  }

  lemma {:induction false} NoRows(rows: seq<RecordedExecution>, key: Key)
    requires forall r <- multiset(rows) :: LifecycleKey(r) != key
    ensures Total(RecordedEntries(rows), Some(key)) == ZERO
  {
    if rows != [] {
      hide LifecycleKey, WholeAmounts;
      assert rows == [rows[0]] + rows[1..];
      NoRows(rows[1..], key);
      assert RecordedEntries(rows)[1..] == RecordedEntries(rows[1..]);
    }
  }

  /** The one trade of a key carries the key's whole total. */
  lemma {:induction false} OnlyTrade(trades: seq<Trade>, k: nat)
    requires k < |trades| && Uses(TradeEntries(trades), KeyOfTrade(trades[k])) <= 1
    ensures Total(TradeEntries(trades), Some(KeyOfTrade(trades[k]))) == TradeEntry(trades[k]).amounts
  {
    var key := KeyOfTrade(trades[k]);
    var es := TradeEntries(trades);
    OccurrencesWithout(es, k, Lifecycle.KeyOf, key);
    OccurrencesPositive(Without(es, k), Lifecycle.KeyOf, key);
    NoneOfKey(Without(es, k), key);
    TotalRemove(es, k, Some(key));
  }

  /** Parity: when a recorded order has one trade and all its rows were applied whole, the trade's
      quantity, volume, fee and profit are the sums over the recorded rows, which are what the live
      loader aggregates. */
  lemma TradeEqualsRows(trades: seq<Trade>, k: nat, applied: seq<AppliedRow>, liveOnly: multiset<RecordedExecution>,
                        es: seq<RecordedExecution>)
    requires k < |trades| && Uses(TradeEntries(trades), KeyOfTrade(trades[k])) <= 1
    requires Total(TradeEntries(trades), Some(KeyOfTrade(trades[k])))
         == Total(RowEntries(applied), Some(KeyOfTrade(trades[k])))
    requires multiset(RowsOf(applied)) + liveOnly == multiset(es)
    requires forall e <- liveOnly :: LifecycleKey(e) != KeyOfTrade(trades[k])
    requires forall a <- applied :: LifecycleKey(a.row) == KeyOfTrade(trades[k]) ==> a.amounts == WholeAmounts(a.row)
    ensures TradeEntry(trades[k]).amounts == Total(RecordedEntries(es), Some(KeyOfTrade(trades[k])))
    ensures TradeEntry(trades[k]).amounts == SumOf(OfKey(es, KeyOfTrade(trades[k])))
  {
    hide Total, Uses, TradeEntries, RowEntries, RecordedEntries, RowsOf, LifecycleKey, WholeAmounts, SumOf, OfKey;
    var key := KeyOfTrade(trades[k]);
    OnlyTrade(trades, k);
    WholeSlices(applied, key);
    RowsOfOthers(RowsOf(applied), liveOnly, es, key);
    SumOfKey(es, key);
  }

  /** Summing the rows of one key is totalling that key. */
  lemma {:induction false} SumOfKey(es: seq<RecordedExecution>, key: Key)
    ensures SumOf(OfKey(es, key)) == Total(RecordedEntries(es), Some(key))
  {
    hide LifecycleKey, WholeAmounts, SumOf, OfKey, Total;
    if es == [] {
      NothingOfKey(key);
    } else {
      var rest, e := es[..|es| - 1], es[|es| - 1];
      assert es == rest + [e];
      SumOfKey(rest, key);
      OfKeyPush(rest, e, key);
      if LifecycleKey(e) == key { SumOfPushRow(OfKey(rest, key), e); }
      assert RecordedEntries(es) == RecordedEntries(rest) + [RecordedEntry(e)];
      TotalPush(RecordedEntries(rest), RecordedEntry(e), Some(key));
    }
  }

  lemma SumOfPushRow(rows: seq<RecordedExecution>, e: RecordedExecution)
    ensures SumOf(rows + [e]) == Add(SumOf(rows), WholeAmounts(e))
  {
    SumOfPush(rows, e);
  }

  lemma NothingOfKey(key: Key)
    ensures SumOf(OfKey([], key)) == ZERO == Total(RecordedEntries([]), Some(key))
  {
  }

  // ---------- matched pairs ----------

  /** Live never used one client id for two orders. */
  ghost predicate NoReuse(es: seq<RecordedExecution>) {
    forall c :: |KeysOfClient(Groups(es), c)| <= 1
  }

  /** Quantity, fee, profit and price of a pair agree. */
  ghost predicate Agrees(p: MatchedTrade) {
    && p.live.qty == p.backtest.qty && p.live.fee == p.backtest.fee && p.live.realizedPnl == p.backtest.realizedPnl
    && (p.live.qty != 0.0 ==> p.live.price == p.backtest.price)
  }

  /** Every row of the key was applied, each as a whole. */
  ghost predicate AppliedWhole(key: Key, applied: seq<AppliedRow>, rest: multiset<RecordedExecution>) {
    && (forall e <- rest :: LifecycleKey(e) != key)
    && (forall a <- applied :: LifecycleKey(a.row) == key ==> a.amounts == WholeAmounts(a.row))
  }

  lemma SamePrice(qty: real, p: real, q: real)
    requires qty != 0.0 && p * qty == qty * q
    ensures p == q
  {
  }

  /** The pair is the trade of one recorded order on both sides: the live one carries the order's
      aggregated rows and the number of the client id's earlier orders, and the two agree. */
  ghost predicate IsOrder(p: MatchedTrade, es: seq<RecordedExecution>, key: Key) {
    && key in Groups(es) && OfKey(es, key) != []
    && p.live == Aggregated((key, OfKey(es, key))).(occurrence := |EarlierKeys(es, key)|)
    && p.backtest.clientId == key.0 && p.backtest.occurrence == |EarlierKeys(es, key)| && Agrees(p)
  }

  /** All orders of a client id were applied whole, and none has two trades. */
  ghost predicate ClientIsWhole(es: seq<RecordedExecution>, trades: seq<Trade>, applied: seq<AppliedRow>,
                                rest: multiset<RecordedExecution>, c: string) {
    forall key <- Groups(es) :: key.0 == c ==> Uses(TradeEntries(trades), key) <= 1 && AppliedWhole(key, applied, rest)
  }

  /** What a replay guarantees of its trades: they hold the applied slices, which are parts of the
      stream's rows, and each is of a recorded order and has the time of one of its slices. */
  ghost predicate TradesAreReplayed(es: seq<RecordedExecution>, trades: seq<Trade>, applied: seq<AppliedRow>,
                                    rest: multiset<RecordedExecution>) {
    && multiset(RowsOf(applied)) + rest == multiset(es) && AreSlices(applied)
    && (forall k :: Total(TradeEntries(trades), k) == Total(RowEntries(applied), k))
    && (forall t <- trades :: KeyOfTrade(t) in Groups(es) && HasSliceAt(applied, KeyOfTrade(t), t.ts))
  }

  /** The comparison of the window's executions with a replay's trades. */
  ghost function Compared(es: seq<RecordedExecution>, trades: seq<Trade>): MatchResult {
    MatchTrades(Numbered(Sort(LiveTrades(es))), Numbered(Sort(BacktestTrades(trades))))
  }

  // ---------- every order of a whole client id has one trade ----------

  lemma {:induction false} SlicesWeigh(applied: seq<AppliedRow>, key: Key)
    requires AreSlices(applied)
    ensures Total(RowEntries(applied), Some(key)).qty >= 0.0
    ensures HasSlice(applied, key) ==> Total(RowEntries(applied), Some(key)).qty > 0.0
  {
    hide LifecycleKey, Total;
    if applied == [] {
      NothingWeighs(key);
    } else {
      var rest, a := applied[..|applied| - 1], applied[|applied| - 1];
      assert applied == rest + [a] && a in applied && IsSlice(a);
      SlicesWeigh(rest, key);
      SlicePush(rest, a);
      TotalPush(RowEntries(rest), Entry(LifecycleKey(a.row), a.amounts), Some(key));
      if HasSlice(applied, key) && LifecycleKey(a.row) != key {
        var x :| x in applied && LifecycleKey(x.row) == key;
        assert x in rest;
      }
    }
  }

  lemma NothingWeighs(key: Key)
    ensures Total(RowEntries([]), Some(key)) == ZERO
  {
  }

  lemma NoTradeNoTotal(trades: seq<Trade>, key: Key)
    requires Uses(TradeEntries(trades), key) == 0
    ensures Total(TradeEntries(trades), Some(key)) == ZERO
  {
    hide Total, TradeEntries, Occurrences;
    OccurrencesPositive(TradeEntries(trades), Lifecycle.KeyOf, key);
    forall e | e in TradeEntries(trades) ensures e.key != key { assert Lifecycle.KeyOf(e) == e.key; }
    NoneOfKey(TradeEntries(trades), key);
  }

  /** A recorded order whose rows were all applied has a trade. */
  lemma WholeOrderHasTrade(es: seq<RecordedExecution>, trades: seq<Trade>, applied: seq<AppliedRow>,
                           rest: multiset<RecordedExecution>, key: Key)
    requires TradesAreReplayed(es, trades, applied, rest) && key in Groups(es) && AppliedWhole(key, applied, rest)
    ensures Uses(TradeEntries(trades), key) > 0
  {
    hide Total, TradeEntries, Uses, LifecycleKey, Groups, RowEntries, AreSlices;
    var e := GroupHasRow(es, key);
    assert e in multiset(es) && e in multiset(RowsOf(applied));
    var k :| 0 <= k < |applied| && RowsOf(applied)[k] == e;
    assert applied[k] in applied && HasSlice(applied, key);
    SlicesWeigh(applied, key);
    if Uses(TradeEntries(trades), key) == 0 { NoTradeNoTotal(trades, key); }
  }

  // ---------- both sides list the orders ----------

  ghost function GroupKeys(es: seq<RecordedExecution>): (keys: seq<Key>)
    ensures |keys| == |Grouped(es)|
  {
    seq(|Grouped(es)|, i requires 0 <= i < |Grouped(es)| => Grouped(es)[i].0)
  }

  ghost function TradeKeys(trades: seq<Trade>): (keys: seq<Key>)
    ensures |keys| == |trades|
  {
    seq(|trades|, i requires 0 <= i < |trades| => KeyOfTrade(trades[i]))
  }

  lemma {:induction false} OnceIfDistinct(keys: seq<Key>, key: Key)
    requires key in keys && forall i, j :: 0 <= i < j < |keys| ==> keys[i] != keys[j]
    ensures Occurrences(keys, Same, key) == 1
  {
    var i :| 0 <= i < |keys| && keys[i] == key;
    OccurrencesWithout(keys, i, Same, key);
    OccurrencesPositive(Without(keys, i), Same, key);
    forall j | 0 <= j < |keys| - 1 ensures Without(keys, i)[j] != key {
      if j < i { assert keys[j] != keys[i]; } else { assert keys[i] != keys[j + 1]; }
    }
  }

  lemma LiveLists(es: seq<RecordedExecution>, c: string)
    ensures Lists(LiveTrades(es), GroupKeys(es), es, c)
    ensures forall i :: 0 <= i < |GroupKeys(es)| ==>
      && OfKey(es, GroupKeys(es)[i]) != []
      && LiveTrades(es)[i] == Aggregated((GroupKeys(es)[i], OfKey(es, GroupKeys(es)[i])))
  {
    hide Grouped, OfKey, SumOf, Occurrences, LatestTs, LifecycleKey;
    GroupedIsGrouping(es);
    var groups, keys := Grouped(es), GroupKeys(es);
    KeysAreGroups(groups, es);
    forall i | 0 <= i < |keys|
      ensures OfKey(es, keys[i]) != [] && keys[i] in Groups(es) && HasTime(es, keys[i], LiveTrades(es)[i].ts)
      ensures LiveTrades(es)[i] == Aggregated((keys[i], OfKey(es, keys[i])))
    {
      assert groups[i] in groups && groups[i].0 in KeySet(groups);
      assert groups[i] == (keys[i], OfKey(es, keys[i]));
      LatestIsLatest(OfKey(es, keys[i]));
      OfKeyHolds(es, keys[i]);
    }
    forall key | key in Groups(es) ensures Occurrences(keys, Same, key) == 1 {
      var g :| g in groups && g.0 == key;
      var i :| 0 <= i < |groups| && groups[i] == g;
      assert keys[i] == key && key in keys;
      OnceIfDistinct(keys, key);
    }
  }

  lemma {:induction false} OfKeyHolds(es: seq<RecordedExecution>, key: Key)
    ensures forall e <- OfKey(es, key) :: e in es && LifecycleKey(e) == key
  {
    hide LifecycleKey;
    if es == [] {
      NothingOfKey(key);
    } else {
      var rest, e := es[..|es| - 1], es[|es| - 1];
      assert es == rest + [e];
      OfKeyHolds(rest, key);
      OfKeyPush(rest, e, key);
    }
  }

  lemma SliceTimeIsRowTime(es: seq<RecordedExecution>, applied: seq<AppliedRow>, rest: multiset<RecordedExecution>,
                           key: Key, ts: int)
    requires multiset(RowsOf(applied)) + rest == multiset(es) && HasSliceAt(applied, key, ts)
    ensures HasTime(es, key, ts)
  {
    hide LifecycleKey;
    var a :| a in applied && LifecycleKey(a.row) == key && a.row.ts == ts;
    var k :| 0 <= k < |applied| && applied[k] == a;
    assert RowsOf(applied)[k] == a.row;
    assert a.row in multiset(RowsOf(applied)) && a.row in multiset(es);
  }

  lemma BacktestLists(es: seq<RecordedExecution>, trades: seq<Trade>, applied: seq<AppliedRow>,
                      rest: multiset<RecordedExecution>, c: string)
    requires TradesAreReplayed(es, trades, applied, rest) && ClientIsWhole(es, trades, applied, rest, c)
    ensures Lists(BacktestTrades(trades), TradeKeys(trades), es, c)
  {
    hide Total, Uses, Occurrences, Groups, AreSlices, HasSliceAt, HasTime, RowsOf;
    var keys := TradeKeys(trades);
    forall i | 0 <= i < |trades| ensures keys[i] in Groups(es) && HasTime(es, keys[i], trades[i].ts) {
      assert trades[i] in trades;
      SliceTimeIsRowTime(es, applied, rest, keys[i], trades[i].ts);
    }
    forall key | key in Groups(es) && key.0 == c ensures Occurrences(keys, Same, key) == 1 {
      WholeOrderHasTrade(es, trades, applied, rest, key);
      UsesAreKeys(trades, key);
    }
  }

  lemma UsesAreKeys(trades: seq<Trade>, key: Key)
    ensures Occurrences(TradeKeys(trades), Same, key) == Uses(TradeEntries(trades), key)
  {
    OccurrencesSame(TradeKeys(trades), Same, TradeEntries(trades), Lifecycle.KeyOf, key);
  }

  // ---------- the n-th pair is the n-th order ----------

  /** Parity of one order: a live and a backtest trade of the same key agree when its rows were all
      applied whole and it has one trade. */
  lemma PairAgrees(es: seq<RecordedExecution>, trades: seq<Trade>, applied: seq<AppliedRow>,
                   rest: multiset<RecordedExecution>, p: MatchedTrade, key: Key, k: nat)
    requires TradesAreReplayed(es, trades, applied, rest) && AppliedWhole(key, applied, rest)
    requires k < |trades| && KeyOfTrade(trades[k]) == key && Uses(TradeEntries(trades), key) <= 1
    requires OfKey(es, key) != [] && p.live == Aggregated((key, OfKey(es, key))).(occurrence := p.live.occurrence)
    requires p.backtest == Normalized(trades[k]).(occurrence := p.backtest.occurrence)
    ensures Agrees(p)
  {
    hide Uses, TradeEntries, RowEntries, RowsOf, Total, SumOf, OfKey, LifecycleKey, WholeAmounts, LatestTs, AreSlices;
    TradeEqualsRows(trades, k, applied, rest, es);
    if p.live.qty != 0.0 { SamePrice(p.live.qty, p.live.price, p.backtest.price); }
  }

  /** Where the orders of a client id follow each other in time and were applied whole, each of its
      pairs is one recorded order, in order of time, and its two sides agree: reuse of the id does
      not mix orders up. */
  lemma {:induction false} PairIsOrder(es: seq<RecordedExecution>, trades: seq<Trade>, applied: seq<AppliedRow>,
                                       rest: multiset<RecordedExecution>, p: MatchedTrade) returns (key: Key)
    requires TradesAreReplayed(es, trades, applied, rest) && p in Compared(es, trades).matched
    requires ClientIsWhole(es, trades, applied, rest, p.live.clientId) && Apart(es, p.live.clientId)
    ensures IsOrder(p, es, key) && key.0 == p.live.clientId
  {
    hide Sort, Numbered, LiveTrades, BacktestTrades, Groups, Uses, TradeEntries, Lists, Apart, EarlierKeys, OfKey;
    hide Aggregated, GroupKeys, MatchTrades, AppliedWhole, TradesAreReplayed;
    var c := p.live.clientId;
    PairsShareKeys(Numbered(Sort(LiveTrades(es))), Numbered(Sort(BacktestTrades(trades))));
    LiveLists(es, c);
    BacktestLists(es, trades, applied, rest, c);
    var i := NumberIsRank(LiveTrades(es), GroupKeys(es), es, p.live);
    var k := NumberIsRank(BacktestTrades(trades), TradeKeys(trades), es, p.backtest);
    key := GroupKeys(es)[i];
    KeyIsOfClient(LiveTrades(es), GroupKeys(es), es, c, i);
    KeyIsOfClient(BacktestTrades(trades), TradeKeys(trades), es, c, k);
    if key != TradeKeys(trades)[k] { RanksDiffer(es, key, TradeKeys(trades)[k]); }
    BacktestTradeAt(trades, k);
    PairAgrees(es, trades, applied, rest, p, key, k);
  }

  lemma BacktestTradeAt(trades: seq<Trade>, k: nat)
    requires k < |trades|
    ensures BacktestTrades(trades)[k] == Normalized(trades[k]) && TradeKeys(trades)[k] == KeyOfTrade(trades[k])
  {
  }

  // ---------- a replay and its comparison ----------

  /** Rows of the stream that were not applied: given up, or not drained. */
  ghost function NotApplied(runner: BacktestRunner): multiset<RecordedExecution>
    requires runner.follower != null && runner.follower.cursor <= |runner.follower.executions|
    reads runner`liveOnly, runner.follower
  {
    runner.liveOnly + multiset(runner.follower.executions[runner.follower.cursor..])
  }

  /** Of every client id whose orders were applied whole, one after the other, the pairs are its
      orders and agree. */
  ghost predicate PairsAreExact(engine: ReplayEngine, result: MatchResult)
    requires engine.runner.follower != null && engine.runner.follower.cursor <= |engine.runner.follower.executions|
    reads engine.runner, engine.runner.follower, engine.runner.session
  {
    var es, runner := engine.runner.follower.executions, engine.runner;
    forall p <- result.matched ::
      Apart(es, p.live.clientId)
      && ClientIsWhole(es, runner.session.trades, runner.applied, NotApplied(runner), p.live.clientId)
      ==> exists key: Key :: key.0 == p.live.clientId && IsOrder(p, es, key)
  }

  lemma OutcomeOf(engine: ReplayEngine, live: seq<NormalizedTrade>, backtest: seq<NormalizedTrade>)
    requires engine.TradesPerGroup()
    requires Loaded(live, backtest, engine.runner.follower.executions, engine.runner.session.trades)
    ensures !engine.runner.reopened ==> MatchTrades(live, backtest).backtestOnly == []
    ensures !engine.runner.premature ==> !engine.runner.reopened
    ensures !KeysRepeat(engine.runner.follower.executions) ==> !engine.runner.reopened
    ensures NoReuse(engine.runner.follower.executions) ==>
      (MatchTrades(live, backtest).backtestOnly == [] <==> !engine.runner.reopened)
  {
    hide Loaded, MatchTrades, Groups, Uses, TradeEntries, KeysRepeat, TradeStems;
    var es, trades := engine.runner.follower.executions, engine.runner.session.trades;
    if !engine.runner.reopened { NoPhantomTrades(live, backtest, es, trades); }
    if NoReuse(es) { PhantomsAreRepeats(live, backtest, es, trades); }
  }

  lemma ReplayedTrades(engine: ReplayEngine, ticks: seq<Tick>)
    requires engine.RowsReplayed(ticks) && engine.TradesHoldSlices() && engine.TradesPerGroup()
    ensures TradesAreReplayed(engine.runner.follower.executions, engine.runner.session.trades, engine.runner.applied,
                              NotApplied(engine.runner))
  {
    hide Groups, Uses, TradeEntries, RowEntries, RowsOf, Total, AreSlices, HasSliceAt, TradeStems;
    forall t | t in engine.runner.session.trades
      ensures HasSliceAt(engine.runner.applied, KeyOfTrade(t), t.ts)
    {
      StemsAtTime(engine.runner.applied, t);
    }
    var es, n := engine.runner.follower.executions, engine.runner.follower.cursor;
    assert es == es[..n] + es[n..];
    forall k
      ensures Total(TradeEntries(engine.runner.session.trades), k) == Total(RowEntries(engine.runner.applied), k)
    {
    }
  }

  lemma PairsOf(engine: ReplayEngine, ticks: seq<Tick>, result: MatchResult)
    requires engine.RowsReplayed(ticks) && engine.TradesHoldSlices() && engine.TradesPerGroup()
    requires result == Compared(engine.runner.follower.executions, engine.runner.session.trades)
    ensures PairsAreExact(engine, result)
  {
    hide Compared, Apart, ClientIsWhole, IsOrder, TradesAreReplayed;
    hide ReplayEngine.TradesHoldSlices, ReplayEngine.TradesPerGroup;
    var runner := engine.runner;
    var es := runner.follower.executions;
    ReplayedTrades(engine, ticks);
    forall p | p in result.matched && Apart(es, p.live.clientId)
      && ClientIsWhole(es, runner.session.trades, runner.applied, NotApplied(runner), p.live.clientId)
      ensures exists key: Key :: key.0 == p.live.clientId && IsOrder(p, es, key)
    {
      var key := PairIsOrder(es, runner.session.trades, runner.applied, NotApplied(runner), p);
    }
  }

  /** A replay and its comparison with the recorded window. Whatever the strategy does, and however
      often client ids were reused, no trade of the replay is without a live partner when no lifecycle
      was flushed while it had rows left, and in particular when no two recorded rows share one. */
  method CompareReplay(engine: ReplayEngine, ticks: seq<Tick>)
    returns (r: Result<()>, ghost result: MatchResult, ghost stages: seq<Stage>)
    requires engine.Ready() && engine.runner.prevTickTs.None?
    requires engine.runner.follower != null && engine.runner.applied == []
    modifies engine.runner, engine.runner.session, engine.runner.follower, engine.runner.om, engine.runner.engine
    modifies engine.runner.longTracker, engine.runner.shortTracker, engine.funding
    ensures r.Ok? ==> NonDecreasing(TickTimes(ticks))
    ensures r == Err(NonMonotonicTick) ==> !NonDecreasing(TickTimes(ticks))
    ensures r.Err? && r.error != NonMonotonicTick ==>
      r.error == InvalidFill && HasBadPrice(engine.runner.follower.executions)
    ensures r.Ok? ==> engine.RowsReplayed(ticks) && engine.TradesHoldSlices() && engine.TradesPerGroup()
    ensures r.Ok? ==> |stages| == |ticks| && engine.History(old(engine.runner.ReplayState()), stages)
    ensures r.Ok? ==> Scheduled(engine.FundingRate(), old(engine.LastFunding()), ticks, stages)
    ensures r.Ok? ==> result == Compared(engine.runner.follower.executions, engine.runner.session.trades)
    ensures r.Ok? ==> |result.matched| + |result.backtestOnly| == |engine.runner.session.trades|
    ensures r.Ok? && !engine.runner.premature ==> result.backtestOnly == []
    ensures r.Ok? && !KeysRepeat(engine.runner.follower.executions) ==> result.backtestOnly == []
    ensures r.Ok? && NoReuse(engine.runner.follower.executions) ==>
      (result.backtestOnly == [] <==> !engine.runner.reopened)
    ensures r.Ok? ==> PairsAreExact(engine, result)
  {
    hide ReplayEngine.Ready, ReplayEngine.RowsReplayed, ReplayEngine.TradesHoldSlices, ReplayEngine.TradesPerGroup;
    hide ReplayEngine.History, PairsAreExact, KeysRepeat, NoReuse, LiveTrades, BacktestTrades, Sort, Numbered;
    hide Scheduled;
    hide IsNumbered, Sorted, SameTotals, MatchTrades, KeysOfClient, Groups, Occurrences;
    result := MatchResult([], [], []);
    r, stages := engine.Run(ticks);
    if r.Err? {
      return;
    }
    var live := LoadLive(engine.runner.follower.executions);
    var backtest := LoadBacktest(engine.runner.session.trades);
    result := MatchTrades(live[..], backtest[..]);
    Sizes(live[..], backtest[..]);
    OutcomeOf(engine, live[..], backtest[..]);
    PairsOf(engine, ticks, result);
  }
}
