/**
 Both sides of the comparison brought to one trade format: live executions grouped into one trade
 per order, backtest trades copied, each list sorted and its reused client ids numbered.
 */
module Loader {
  import opened Common
  import opened Counting
  import opened OrderIds
  import opened Ledger
  import opened RecordedStream
  import opened Session
  import opened Lifecycle

  datatype Source = Live | Backtest

  datatype NormalizedTrade = NormalizedTrade(
    clientId: string,
    side: Side,
    price: real,
    qty: real,
    fee: real,
    realizedPnl: real,
    ts: int,
    source: Source,
    direction: Direction,
    occurrence: nat
  )

  function ClientOf(t: NormalizedTrade): string { t.clientId }

  /** The composite join key. */
  type TradeKey = (string, nat)

  function KeyOf(t: NormalizedTrade): TradeKey { (t.clientId, t.occurrence) }

  // ---------- sorting ----------

  /** Order by time, client id, side. */
  predicate Precedes(t: NormalizedTrade, u: NormalizedTrade) {
    || t.ts < u.ts
    || (t.ts == u.ts && (Less(t.clientId, u.clientId) || (t.clientId == u.clientId && t.side == Buy && u.side == Sell)))
  }

  lemma PrecedesIsAnOrder(t: NormalizedTrade, u: NormalizedTrade, v: NormalizedTrade)
    ensures !(Precedes(t, u) && Precedes(u, t))
    ensures Precedes(t, v) && !Precedes(u, v) ==> Precedes(t, u)
  {
    LessIsTotal(t.clientId, u.clientId);
    LessIsTotal(u.clientId, v.clientId);
    LessIsTotal(t.clientId, v.clientId);
    if Less(t.clientId, v.clientId) && Less(v.clientId, u.clientId) {
      LessIsTransitive(t.clientId, v.clientId, u.clientId);
    }
  }

  /** Puts a trade after every trade it does not precede. */
  function Insert(t: NormalizedTrade, s: seq<NormalizedTrade>): (r: seq<NormalizedTrade>)
    ensures |r| == |s| + 1
  {
    if s == [] || !Precedes(t, s[|s| - 1]) then s + [t] else Insert(t, s[..|s| - 1]) + [s[|s| - 1]]
  }

  /** A stable sort. */
  function Sort(s: seq<NormalizedTrade>): (r: seq<NormalizedTrade>)
    ensures |r| == |s|
  {
    if s == [] then [] else Insert(s[|s| - 1], Sort(s[..|s| - 1]))
  }

  lemma {:induction false} InsertIsPermutation(t: NormalizedTrade, s: seq<NormalizedTrade>)
    ensures multiset(Insert(t, s)) == multiset(s) + multiset{t}
  {
    if s != [] && Precedes(t, s[|s| - 1]) {
      InsertIsPermutation(t, s[..|s| - 1]);
      assert s == s[..|s| - 1] + [s[|s| - 1]];
    }
  }

  lemma SortStep(s: seq<NormalizedTrade>, t: NormalizedTrade)
    ensures Sort(s + [t]) == Insert(t, Sort(s))
  {
    assert (s + [t])[..|s|] == s;
  }

  lemma SortOfNone()
    ensures Sort([]) == []
  {
  }

  lemma {:induction false} SortIsPermutation(s: seq<NormalizedTrade>)
    ensures multiset(Sort(s)) == multiset(s)
  {
    hide *;
    if s == [] {
      SortOfNone();
    } else {
      var rest, t := s[..|s| - 1], s[|s| - 1];
      assert s == rest + [t];
      SortIsPermutation(rest);
      InsertIsPermutation(t, Sort(rest));
      SortStep(rest, t);
      assert multiset(s) == multiset(rest) + multiset{t};
    }
  }

  ghost predicate Sorted(s: seq<NormalizedTrade>) {
    forall i, j :: 0 <= i < j < |s| ==> !Precedes(s[j], s[i])
  }

  /** Sorted means: times do not fall; at one time client ids do not fall; for one client id at one time
      no buy comes after a sell. */
  lemma SortedByKey(s: seq<NormalizedTrade>)
    requires Sorted(s)
    ensures forall i, j :: 0 <= i < j < |s| ==>
      && s[i].ts <= s[j].ts
      && (s[i].ts == s[j].ts ==> !Less(s[j].clientId, s[i].clientId))
      && (s[i].ts == s[j].ts && s[i].clientId == s[j].clientId ==> s[i].side == Buy || s[j].side == Sell)
  {
    forall i, j | 0 <= i < j < |s| ensures !Precedes(s[j], s[i]) {}
  }

  lemma {:induction false} InsertKeepsSorted(t: NormalizedTrade, s: seq<NormalizedTrade>)
    requires Sorted(s)
    ensures Sorted(Insert(t, s))
  {
    if s != [] {
      hide Precedes;
      var n := |s| - 1;
      var last := s[n];
      if !Precedes(t, last) {
        forall i | 0 <= i < |s| ensures !Precedes(t, s[i]) { PrecedesIsAnOrder(t, last, s[i]); }
      } else {
        InsertKeepsSorted(t, s[..n]);
        PrecedesIsAnOrder(t, last, t);
        var r := Insert(t, s[..n]);
        InsertIsPermutation(t, s[..n]);
        forall i | 0 <= i < |r| ensures !Precedes(last, r[i]) {
          assert r[i] in multiset(s[..n]) + multiset{t};
        }
      }
    }
  }

  lemma {:induction false} SortSorts(s: seq<NormalizedTrade>)
    ensures Sorted(Sort(s))
  {
    if s != [] {
      SortSorts(s[..|s| - 1]);
      InsertKeepsSorted(s[|s| - 1], Sort(s[..|s| - 1]));
    }
  }

  // ---------- numbering reused ids ----------

  /** Each trade carries how many earlier trades had its client id. */
  ghost function Numbered(s: seq<NormalizedTrade>): (r: seq<NormalizedTrade>)
    ensures |r| == |s|
  {
    seq(|s|, i requires 0 <= i < |s| => s[i].(occurrence := Occurrences(s[..i], ClientOf, s[i].clientId)))
  }

  lemma OccurrencesGrow(s: seq<NormalizedTrade>, i: nat, j: nat, c: string)
    requires i < j <= |s|
    ensures Occurrences(s[..j], ClientOf, c) >= Occurrences(s[..i], ClientOf, c) + Count(s[i].clientId == c)
  {
    OccurrencesPush(s[..i], s[i], ClientOf, c);
    OccurrencesAppend(s[..i + 1], s[i + 1..j], ClientOf, c);
    assert s[..i + 1] == s[..i] + [s[i]] && s[..j] == s[..i + 1] + s[i + 1..j];
  }

  /** No two numbered trades share a key, and of one client id the later has the larger number. */
  lemma KeysAreUnique(s: seq<NormalizedTrade>, i: nat, j: nat)
    requires i < j < |s|
    ensures KeyOf(Numbered(s)[i]) != KeyOf(Numbered(s)[j])
    ensures s[i].clientId == s[j].clientId ==> Numbered(s)[i].occurrence < Numbered(s)[j].occurrence
  {
    OccurrencesGrow(s, i, j, s[i].clientId);
  }

  /** A client id that occurs `m` times has exactly the numbers below `m`. */
  lemma {:induction false} NumbersAreGapless(s: seq<NormalizedTrade>, c: string, n: nat)
    ensures n < Occurrences(s, ClientOf, c) <==> exists t <- Numbered(s) :: KeyOf(t) == (c, n)
  {
    if s != [] {
      var k := |s| - 1;
      var rest := s[..k];
      NumbersAreGapless(rest, c, n);
      assert s == rest + [s[k]];
      OccurrencesPush(rest, s[k], ClientOf, c);
      forall i | 0 <= i < k ensures Numbered(s)[i] == Numbered(rest)[i] { assert s[..i] == rest[..i]; }
      var last := Numbered(s)[k];
      assert Numbered(s) == Numbered(rest) + [last];
      assert KeyOf(last) == (s[k].clientId, Occurrences(rest, ClientOf, s[k].clientId)) by { assert s[..k] == rest; }
      assert forall t :: t in Numbered(s) <==> t in Numbered(rest) || t == last;
      assert last in Numbered(s);
    }
  }

  lemma NoneCounted()
    ensures forall c :: Occurrences([], ClientOf, c) == 0
  {
  }

  method AssignOccurrences(trades: array<NormalizedTrade>)
    modifies trades
    ensures trades[..] == Numbered(old(trades[..]))
  {
    hide Occurrences;
    var counts: map<string, nat> := map[];
    ghost var was := trades[..];
    NoneCounted();
    assert was[..0] == [];
    for i := 0 to trades.Length
      invariant forall k :: 0 <= k < i ==> trades[k] == Numbered(was)[k]
      invariant forall k :: i <= k < trades.Length ==> trades[k] == was[k]
      invariant forall c :: (if c in counts then counts[c] else 0) == Occurrences(was[..i], ClientOf, c)
    {
      var id := trades[i].clientId;
      var seen := if id in counts then counts[id] else 0;
      trades[i] := trades[i].(occurrence := seen);
      counts := counts[id := seen + 1];
      assert was[..i + 1] == was[..i] + [was[i]];
      forall c ensures Occurrences(was[..i + 1], ClientOf, c) == Occurrences(was[..i], ClientOf, c) + Count(id == c) {
        OccurrencesPush(was[..i], was[i], ClientOf, c);
      }
    }
  }

  /** Numbering depends on the client ids alone, so numbering again changes nothing. */
  ghost predicate IsNumbered(s: seq<NormalizedTrade>) {
    s == Numbered(s)
  }

  lemma NumberedIsNumbered(s: seq<NormalizedTrade>)
    ensures IsNumbered(Numbered(s))
    ensures forall c :: Occurrences(Numbered(s), ClientOf, c) == Occurrences(s, ClientOf, c)
    ensures Sorted(s) ==> Sorted(Numbered(s))
  {
    var r := Numbered(s);
    forall c ensures Occurrences(r, ClientOf, c) == Occurrences(s, ClientOf, c) {
      OccurrencesSame(r, ClientOf, s, ClientOf, c);
    }
    forall i | 0 <= i < |s| ensures r[i] == Numbered(r)[i] {
      OccurrencesSame(r[..i], ClientOf, s[..i], ClientOf, s[i].clientId);
    }
  }

  // ---------- what sorting keeps ----------

  lemma {:induction false} InsertCounts(t: NormalizedTrade, s: seq<NormalizedTrade>, c: string)
    ensures Occurrences(Insert(t, s), ClientOf, c) == Occurrences(s, ClientOf, c) + Count(t.clientId == c)
  {
    if s == [] || !Precedes(t, s[|s| - 1]) {
      OccurrencesPush(s, t, ClientOf, c);
    } else {
      var n := |s| - 1;
      InsertCounts(t, s[..n], c);
      assert s == s[..n] + [s[n]];
      OccurrencesPush(s[..n], s[n], ClientOf, c);
      OccurrencesPush(Insert(t, s[..n]), s[n], ClientOf, c);
    }
  }

  lemma {:induction false} SortCounts(s: seq<NormalizedTrade>, c: string)
    ensures Occurrences(Sort(s), ClientOf, c) == Occurrences(s, ClientOf, c)
  {
    hide *;
    if s == [] {
      SortOfNone();
    } else {
      var rest, t := s[..|s| - 1], s[|s| - 1];
      assert s == rest + [t];
      SortCounts(rest, c);
      InsertCounts(t, Sort(rest), c);
      OccurrencesPush(rest, t, ClientOf, c);
      ClientIs(t);
      SortStep(rest, t);
    }
  }

  lemma ClientIs(t: NormalizedTrade)
    ensures ClientOf(t) == t.clientId
  {
  }

  /** Quantity, fee and profit of a trade, filed under its client id. */
  function TradePart(t: NormalizedTrade): Entry {
    Entry((t.clientId, ""), Amounts(t.qty, 0.0, t.fee, t.realizedPnl))
  }

  function TradeParts(s: seq<NormalizedTrade>): (r: seq<Entry>)
    ensures |r| == |s|
  {
    seq(|s|, i requires 0 <= i < |s| => TradePart(s[i]))
  }

  lemma TradePartsPush(s: seq<NormalizedTrade>, t: NormalizedTrade, key: Option<Key>)
    ensures Total(TradeParts(s + [t]), key) == Add(Total(TradeParts(s), key), Part(TradePart(t), key))
  {
    assert TradeParts(s + [t]) == TradeParts(s) + [TradePart(t)];
    TotalPush(TradeParts(s), TradePart(t), key);
  }

  lemma {:induction false} InsertTotals(t: NormalizedTrade, s: seq<NormalizedTrade>, key: Option<Key>)
    ensures Total(TradeParts(Insert(t, s)), key) == Add(Total(TradeParts(s), key), Part(TradePart(t), key))
  {
    hide Total, TradeParts, TradePart, Part;
    if s == [] || !Precedes(t, s[|s| - 1]) {
      TradePartsPush(s, t, key);
    } else {
      var n := |s| - 1;
      InsertTotals(t, s[..n], key);
      assert s == s[..n] + [s[n]];
      TradePartsPush(s[..n], s[n], key);
      TradePartsPush(Insert(t, s[..n]), s[n], key);
    }
  }

  lemma {:induction false} SortTotals(s: seq<NormalizedTrade>, key: Option<Key>)
    ensures Total(TradeParts(Sort(s)), key) == Total(TradeParts(s), key)
  {
    hide *;
    if s == [] {
      SortOfNone();
    } else {
      var rest, t := s[..|s| - 1], s[|s| - 1];
      assert s == rest + [t];
      SortTotals(rest, key);
      InsertTotals(t, Sort(rest), key);
      TradePartsPush(rest, t, key);
      SortStep(rest, t);
    }
  }

  /** Sorts a list and numbers it: the last two steps of every loader. */
  method SortAndNumber(s: seq<NormalizedTrade>) returns (trades: array<NormalizedTrade>)
    ensures fresh(trades) && trades[..] == Numbered(Sort(s))
  {
    var sorted := Sort(s);
    trades := new NormalizedTrade[|sorted|](i requires 0 <= i < |sorted| => sorted[i]);
    assert trades[..] == sorted;
    AssignOccurrences(trades);
  }

  /** Sorting and numbering lose no trade and no amount. */
  lemma NumberedSort(s: seq<NormalizedTrade>)
    ensures IsNumbered(Numbered(Sort(s))) && Sorted(Numbered(Sort(s)))
    ensures forall c :: Occurrences(Numbered(Sort(s)), ClientOf, c) == Occurrences(s, ClientOf, c)
    ensures forall key :: Total(TradeParts(Numbered(Sort(s))), key) == Total(TradeParts(s), key)
  {
    hide Total, Sorted, Sort, IsNumbered, Occurrences;
    SortSorts(s);
    NumberedIsNumbered(Sort(s));
    forall c ensures Occurrences(Sort(s), ClientOf, c) == Occurrences(s, ClientOf, c) { SortCounts(s, c); }
    assert TradeParts(Numbered(Sort(s))) == TradeParts(Sort(s));
    forall key ensures Total(TradeParts(Sort(s)), key) == Total(TradeParts(s), key) { SortTotals(s, key); }
  }

  // ---------- live executions ----------

  /** Quantity, fee and profit of a row, filed under the client id it joins on. */
  function RowPart(e: RecordedExecution): Entry {
    Entry((MatcherKey(e), ""), Amounts(e.qty, 0.0, e.fee, e.closedPnl))
  }

  function RowParts(es: seq<RecordedExecution>): (r: seq<Entry>)
    ensures |r| == |es|
  {
    seq(|es|, i requires 0 <= i < |es| => RowPart(es[i]))
  }

  /** The rows of one lifecycle, in stream order. */
  function OfKey(es: seq<RecordedExecution>, key: Key): seq<RecordedExecution> {
    Filter(es, (e: RecordedExecution) => LifecycleKey(e) == key)
  }

  lemma OfKeyPush(es: seq<RecordedExecution>, e: RecordedExecution, key: Key)
    ensures OfKey(es + [e], key) == if LifecycleKey(e) == key then OfKey(es, key) + [e] else OfKey(es, key)
  {
    FilterAppend(es, [e], (e: RecordedExecution) => LifecycleKey(e) == key);
  }

  type Group = (Key, seq<RecordedExecution>)

  function IndexOfGroup(groups: seq<Group>, key: Key): (i: int)
    ensures -1 <= i < |groups|
    ensures i >= 0 ==> groups[i].0 == key
    ensures i < 0 ==> forall g <- groups :: g.0 != key
  {
    if groups == [] then -1
    else if groups[0].0 == key then 0
    else
      var i := IndexOfGroup(groups[1..], key);
      if i < 0 then -1 else i + 1
  }

  /** One group for each lifecycle of the stream, holding all its rows in order. */
  ghost predicate IsGrouping(groups: seq<Group>, es: seq<RecordedExecution>) {
    && (forall i, j :: 0 <= i < j < |groups| ==> groups[i].0 != groups[j].0)
    && (forall g <- groups :: g.1 != [] && g.1 == OfKey(es, g.0))
    && (forall e <- es :: exists g <- groups :: g.0 == LifecycleKey(e))
  }

  function Joined(groups: seq<Group>, e: RecordedExecution): seq<Group> {
    var i := IndexOfGroup(groups, LifecycleKey(e));
    if i >= 0 then groups[i := (groups[i].0, groups[i].1 + [e])] else groups + [(LifecycleKey(e), [e])]
  }

  /** The rows grouped, groups in order of their first row. */
  function Grouped(es: seq<RecordedExecution>): (groups: seq<Group>)
    ensures forall g <- groups :: g.1 != []
  {
    if es == [] then []
    else
      var before, e := Grouped(es[..|es| - 1]), es[|es| - 1];
      Joined(before, e)
  }

  lemma GroupedPush(es: seq<RecordedExecution>, e: RecordedExecution)
    ensures Grouped(es + [e]) == Joined(Grouped(es), e)
  {
    assert (es + [e])[..|es|] == es;
  }

  lemma {:induction false} GroupedIsGrouping(es: seq<RecordedExecution>)
    ensures IsGrouping(Grouped(es), es) && SameTotals(GroupParts(Grouped(es)), RowParts(es))
  {
    hide IsGrouping, SameTotals, Joined;
    if es == [] {
      NothingGrouped();
    } else {
      var rest, e := es[..|es| - 1], es[|es| - 1];
      assert es == rest + [e];
      GroupedIsGrouping(rest);
      JoinedGroups(Grouped(rest), rest, e);
      JoinedKeepsTotals(Grouped(rest), rest, e);
    }
  }

  lemma {:induction false} NoRowsOfKey(es: seq<RecordedExecution>, key: Key)
    requires forall e <- es :: LifecycleKey(e) != key
    ensures OfKey(es, key) == []
  {
    if es != [] { NoRowsOfKey(es[1..], key); }
  }

  lemma JoinedGroups(groups: seq<Group>, es: seq<RecordedExecution>, e: RecordedExecution)
    requires IsGrouping(groups, es)
    ensures IsGrouping(Joined(groups, e), es + [e])
  {
    hide OfKey;
    var key := LifecycleKey(e);
    var i := IndexOfGroup(groups, key);
    var r := Joined(groups, e);
    forall k ensures OfKey(es + [e], k) == if key == k then OfKey(es, k) + [e] else OfKey(es, k) {
      OfKeyPush(es, e, k);
    }
    if i < 0 {
      assert OfKey(es, key) == [] by { NoRowsOfKey(es, key); }
    }
    forall g | g in r ensures g.1 != [] && g.1 == OfKey(es + [e], g.0) {
      var k :| 0 <= k < |r| && r[k] == g;
      if k != i && k < |groups| { assert groups[k] in groups; }
    }
    forall x | x in es + [e] ensures exists g <- r :: g.0 == LifecycleKey(x) {
      if x in es {
        var g :| g in groups && g.0 == LifecycleKey(x);
        var k :| 0 <= k < |groups| && groups[k] == g;
        assert r[k] in r && r[k].0 == LifecycleKey(x);
      } else {
        var k := if i >= 0 then i else |groups|;
        assert r[k] in r && r[k].0 == key;
      }
    }
  }

  method GroupByOrder(executions: seq<RecordedExecution>) returns (groups: seq<Group>)
    ensures groups == Grouped(executions) && IsGrouping(groups, executions)
  {
    hide IsGrouping, SameTotals, Grouped;
    groups := [];
    assert Grouped([]) == [] by { EmptyGrouped(); }
    assert executions[..0] == [];
    for i := 0 to |executions|
      invariant groups == Grouped(executions[..i])
    {
      var ex := executions[i];
      GroupedPush(executions[..i], ex);
      assert executions[..i + 1] == executions[..i] + [ex];
      var key := LifecycleKey(ex);
      var k := IndexOfGroup(groups, key);
      groups := if k >= 0 then groups[k := (groups[k].0, groups[k].1 + [ex])] else groups + [(key, [ex])];
    }
    assert executions[..|executions|] == executions;
    GroupedIsGrouping(executions);
  }

  lemma EmptyGrouped()
    ensures Grouped([]) == []
  {
  }

  lemma NothingGrouped()
    ensures IsGrouping([], []) && SameTotals(GroupParts([]), RowParts([]))
  {
  }

  /** All amounts of a list of fills. */
  function SumOf(fills: seq<RecordedExecution>): Amounts {
    if fills == [] then ZERO
    else
      var f := fills[|fills| - 1];
      Add(SumOf(fills[..|fills| - 1]), Amounts(f.qty, f.price * f.qty, f.fee, f.closedPnl))
  }

  lemma SumOfPush(fills: seq<RecordedExecution>, f: RecordedExecution)
    ensures SumOf(fills + [f]) == Add(SumOf(fills), Amounts(f.qty, f.price * f.qty, f.fee, f.closedPnl))
  {
    assert (fills + [f])[..|fills|] == fills;
  }

  function LatestTs(fills: seq<RecordedExecution>): int
    requires fills != []
  {
    var last := fills[|fills| - 1].ts;
    if |fills| == 1 then last
    else
      var before := LatestTs(fills[..|fills| - 1]);
      if last > before then last else before
  }

  lemma LatestPush(fills: seq<RecordedExecution>, f: RecordedExecution)
    requires fills != []
    ensures LatestTs(fills + [f]) == if f.ts > LatestTs(fills) then f.ts else LatestTs(fills)
  {
    assert (fills + [f])[..|fills|] == fills;
  }

  lemma {:induction false} LatestIsLatest(fills: seq<RecordedExecution>)
    requires fills != []
    ensures (forall f <- fills :: f.ts <= LatestTs(fills)) && exists f <- fills :: f.ts == LatestTs(fills)
  {
    var n := |fills| - 1;
    assert fills == fills[..n] + [fills[n]] && fills[n] in fills;
    if n > 0 {
      LatestIsLatest(fills[..n]);
      var f :| f in fills[..n] && f.ts == LatestTs(fills[..n]);
      assert f in fills;
    }
  }

  lemma FirstOnly(fills: seq<RecordedExecution>)
    requires fills != []
    ensures LatestTs([fills[0]]) == fills[0].ts && fills[..0] == [] && fills[..1] == [fills[0]]
  {
  }

  /** The one trade of a group: amounts summed, price volume-weighted, time of the last fill. A trade
      without profit is taken for an opening one. */
  function Aggregated(g: Group): (t: NormalizedTrade)
    requires g.1 != []
  {
    var sum, side := SumOf(g.1), g.1[0].side;
    var direction := if (sum.pnl == 0.0) == (side == Buy) then Long else Short;
    NormalizedTrade(g.0.0, side, if sum.qty != 0.0 then sum.notional / sum.qty else 0.0, sum.qty, sum.fee, sum.pnl,
                    LatestTs(g.1), Live, direction, 0)
  }

  /** One trade for the partial fills of an order. */
  method AggregateFills(key: Key, fills: seq<RecordedExecution>) returns (t: NormalizedTrade)
    requires fills != []
    ensures t == Aggregated((key, fills))
    ensures t.clientId == key.0 && t.side == fills[0].side && t.source == Live && t.occurrence == 0
    ensures t.qty == SumOf(fills).qty && t.fee == SumOf(fills).fee && t.realizedPnl == SumOf(fills).pnl
    ensures if t.qty != 0.0 then t.price * t.qty == SumOf(fills).notional else t.price == 0.0
    ensures (forall f <- fills :: f.ts <= t.ts) && exists f <- fills :: f.ts == t.ts
    ensures IsOpening(t.direction, t.side) <==> t.realizedPnl == 0.0
  {
    hide SumOf, LatestTs;
    NothingSummed();
    FirstOnly(fills);
    LatestIsLatest(fills);
    var totalQty, totalNotional, totalFee, totalPnl := 0.0, 0.0, 0.0, 0.0;
    var latestTs := fills[0].ts;
    for i := 0 to |fills|
      invariant Amounts(totalQty, totalNotional, totalFee, totalPnl) == SumOf(fills[..i])
      invariant latestTs == LatestTs(if i == 0 then [fills[0]] else fills[..i])
    {
      var f := fills[i];
      assert fills[..i + 1] == fills[..i] + [f];
      if i > 0 { LatestPush(fills[..i], f); }
      SumOfPush(fills[..i], f);
      totalQty := totalQty + f.qty;
      totalNotional := totalNotional + f.price * f.qty;
      totalFee := totalFee + f.fee;
      totalPnl := totalPnl + f.closedPnl;
      if f.ts > latestTs {
        latestTs := f.ts;
      }
    }
    assert fills[..|fills|] == fills;
    var vwap := if totalQty != 0.0 then totalNotional / totalQty else 0.0;
    var side := fills[0].side;
    var direction;
    if totalPnl != 0.0 {
      direction := if side == Buy then Short else Long;
    } else {
      direction := if side == Buy then Long else Short;
    }
    t := NormalizedTrade(key.0, side, vwap, totalQty, totalFee, totalPnl, latestTs, Live, direction, 0);
  }

  function GroupPart(g: Group): Entry {
    Entry((g.0.0, ""), SumOf(g.1).(notional := 0.0))
  }

  function GroupParts(groups: seq<Group>): (r: seq<Entry>)
    ensures |r| == |groups|
  {
    seq(|groups|, i requires 0 <= i < |groups| => GroupPart(groups[i]))
  }

  lemma JoinedTotals(groups: seq<Group>, e: RecordedExecution, key: Option<Key>)
    ensures Total(GroupParts(Joined(groups, e)), key) == Add(Total(GroupParts(groups), key), Part(RowPart(e), key))
  {
    hide Total, SumOf;
    var i := IndexOfGroup(groups, LifecycleKey(e));
    var parts := GroupParts(groups);
    if i >= 0 {
      SumOfPush(groups[i].1, e);
      var grown := Entry(parts[i].key, Add(parts[i].amounts, RowPart(e).amounts));
      assert GroupParts(Joined(groups, e)) == parts[i := grown];
      TotalGrow(parts, i, RowPart(e).amounts, key);
    } else {
      SumOfPush([], e);
      NothingSummed();
      assert [] + [e] == [e];
      assert GroupParts(Joined(groups, e)) == parts + [RowPart(e)];
      TotalPush(parts, RowPart(e), key);
    }
  }

  lemma NothingSummed()
    ensures SumOf([]) == ZERO && forall key :: Total([], key) == ZERO
  {
  }

  /** Grouping keeps what every client id holds. */
  ghost predicate SameTotals(a: seq<Entry>, b: seq<Entry>) {
    forall key :: Total(a, key) == Total(b, key)
  }

  lemma JoinedKeepsTotals(groups: seq<Group>, es: seq<RecordedExecution>, e: RecordedExecution)
    requires SameTotals(GroupParts(groups), RowParts(es))
    ensures SameTotals(GroupParts(Joined(groups, e)), RowParts(es + [e]))
  {
    hide Total, GroupParts, RowPart, Joined;
    assert RowParts(es + [e]) == RowParts(es) + [RowPart(e)];
    forall key ensures Total(GroupParts(Joined(groups, e)), key) == Total(RowParts(es + [e]), key) {
      JoinedTotals(groups, e, key);
      TotalPush(RowParts(es), RowPart(e), key);
    }
  }

  ghost predicate DistinctKeys(groups: seq<Group>) {
    forall i, j :: 0 <= i < j < |groups| ==> groups[i].0 != groups[j].0
  }

  function GroupClient(g: Group): string { g.0.0 }

  ghost function KeysOfClient(keys: set<Key>, c: string): set<Key> {
    set k <- keys | k.0 == c
  }

  ghost function KeySet(groups: seq<Group>): set<Key> {
    set g <- groups :: g.0
  }

  lemma KeySetPush(groups: seq<Group>, g: Group, c: string)
    requires DistinctKeys(groups + [g])
    ensures DistinctKeys(groups) && g.0 !in KeySet(groups)
    ensures |KeysOfClient(KeySet(groups + [g]), c)| == |KeysOfClient(KeySet(groups), c)| + Count(g.0.0 == c)
  {
    var r := groups + [g];
    forall i, j | 0 <= i < j < |groups| ensures groups[i].0 != groups[j].0 { assert r[i].0 != r[j].0; }
    forall x | x in groups ensures x.0 != g.0 {
      var i :| 0 <= i < |groups| && groups[i] == x;
      assert r[i].0 != r[|groups|].0;
    }
    assert KeySet(r) == KeySet(groups) + {g.0};
    assert KeysOfClient(KeySet(r), c) == KeysOfClient(KeySet(groups), c) + if g.0.0 == c then {g.0} else {};
  }

  /** Groups with distinct keys: as many of one client id as there are keys of it. */
  lemma {:induction false} GroupsOfClient(groups: seq<Group>, c: string)
    requires DistinctKeys(groups)
    ensures Occurrences(groups, GroupClient, c) == |KeysOfClient(KeySet(groups), c)|
  {
    if groups == [] {
      assert KeysOfClient(KeySet(groups), c) == {};
    } else {
      hide DistinctKeys, KeySet, KeysOfClient, Occurrences;
      var rest, last := groups[..|groups| - 1], groups[|groups| - 1];
      assert groups == rest + [last];
      KeySetPush(rest, last, c);
      GroupsOfClient(rest, c);
      OccurrencesPush(rest, last, GroupClient, c);
    }
  }

  /** The live trades before sorting: one for each (client id, exchange order) of the window. */
  function LiveTrades(es: seq<RecordedExecution>): (s: seq<NormalizedTrade>)
    ensures |s| == |Grouped(es)|
  {
    var groups := Grouped(es);
    seq(|groups|, i requires 0 <= i < |groups| => assert groups[i] in groups; Aggregated(groups[i]))
  }

  /** The live side: the aggregated groups, sorted and numbered. The loader loses nothing: quantity,
      fee and profit agree with the rows, client id by client id. */
  method LoadLive(executions: seq<RecordedExecution>) returns (trades: array<NormalizedTrade>)
    ensures fresh(trades) && trades[..] == Numbered(Sort(LiveTrades(executions)))
    ensures IsNumbered(trades[..]) && Sorted(trades[..])
    ensures forall c :: Occurrences(trades[..], ClientOf, c) == |KeysOfClient(Groups(executions), c)|
    ensures SameTotals(TradeParts(trades[..]), RowParts(executions))
  {
    hide IsNumbered, Sorted, SameTotals, KeysOfClient, Occurrences, Groups, Aggregated, SumOf, Sort, Numbered, Grouped;
    var groups := GroupByOrder(executions);
    var s := [];
    for i := 0 to |groups|
      invariant s == LiveTrades(executions)[..i]
    {
      var t := AggregateFills(groups[i].0, groups[i].1);
      s := s + [t];
    }
    assert s == LiveTrades(executions);
    trades := SortAndNumber(s);
    NumberedSort(s);
    LiveAreAggregated(executions);
    GroupedIsGrouping(executions);
    forall c ensures Occurrences(s, ClientOf, c) == |KeysOfClient(Groups(executions), c)| {
      AggregatedCounts(groups, s, executions, c);
    }
    AggregatedTotals(groups, s, trades[..], executions);
  }

  ghost predicate AreAggregated(s: seq<NormalizedTrade>, groups: seq<Group>) {
    && |s| == |groups|
    && forall i :: 0 <= i < |s| ==> s[i].clientId == groups[i].0.0 && TradePart(s[i]) == GroupPart(groups[i])
  }

  lemma LiveAreAggregated(es: seq<RecordedExecution>)
    ensures AreAggregated(LiveTrades(es), Grouped(es))
  {
    hide SumOf, Grouped;
  }

  lemma AggregatedCounts(groups: seq<Group>, s: seq<NormalizedTrade>, es: seq<RecordedExecution>, c: string)
    requires IsGrouping(groups, es) && AreAggregated(s, groups)
    ensures Occurrences(s, ClientOf, c) == |KeysOfClient(Groups(es), c)|
  {
    hide OfKey, KeysOfClient, Occurrences;
    OccurrencesSame(s, ClientOf, groups, GroupClient, c);
    GroupsOfClient(groups, c);
    KeysAreGroups(groups, es);
  }

  lemma KeysAreGroups(groups: seq<Group>, es: seq<RecordedExecution>)
    requires IsGrouping(groups, es)
    ensures KeySet(groups) == Groups(es)
  {
    forall g | g in groups ensures g.0 in Groups(es) {
      assert g.1[0] in OfKey(es, g.0);
    }
  }

  lemma AggregatedTotals(groups: seq<Group>, s: seq<NormalizedTrade>, trades: seq<NormalizedTrade>,
                         es: seq<RecordedExecution>)
    requires AreAggregated(s, groups) && SameTotals(GroupParts(groups), RowParts(es))
    requires forall key :: Total(TradeParts(trades), key) == Total(TradeParts(s), key)
    ensures SameTotals(TradeParts(trades), RowParts(es))
  {
    hide Total;
    assert TradeParts(s) == GroupParts(groups);
  }

  // ---------- backtest trades ----------

  function Normalized(t: Trade): NormalizedTrade {
    NormalizedTrade(t.clientOrderId, t.side, t.price, t.qty, t.commission, t.realizedPnl, t.ts, Backtest,
                    t.direction, 0)
  }

  function TradeClient(t: Trade): string { t.clientOrderId }

  function SessionParts(trades: seq<Trade>): (r: seq<Entry>)
    ensures |r| == |trades|
  {
    seq(|trades|, i requires 0 <= i < |trades| =>
      Entry((trades[i].clientOrderId, ""), Amounts(trades[i].qty, 0.0, trades[i].commission, trades[i].realizedPnl)))
  }

  function BacktestTrades(trades: seq<Trade>): (s: seq<NormalizedTrade>)
    ensures |s| == |trades|
  {
    seq(|trades|, i requires 0 <= i < |trades| => Normalized(trades[i]))
  }

  /** The backtest side: one normalized trade for each recorded one, sorted and numbered. */
  method LoadBacktest(trades: seq<Trade>) returns (normalized: array<NormalizedTrade>)
    ensures fresh(normalized) && normalized[..] == Numbered(Sort(BacktestTrades(trades)))
    ensures normalized.Length == |trades| && IsNumbered(normalized[..]) && Sorted(normalized[..])
    ensures forall c :: Occurrences(normalized[..], ClientOf, c) == Occurrences(trades, TradeClient, c)
    ensures SameTotals(TradeParts(normalized[..]), SessionParts(trades))
    ensures forall u <- normalized[..] :: exists t <- trades ::
      && u.clientId == t.clientOrderId && u.side == t.side && u.direction == t.direction && u.ts == t.ts
      && u.price == t.price && u.qty == t.qty && u.fee == t.commission && u.realizedPnl == t.realizedPnl
      && u.source == Backtest
  {
    hide IsNumbered, Sorted, Total, Occurrences, Sort, Numbered;
    var s := [];
    for i := 0 to |trades|
      invariant |s| == i && forall k :: 0 <= k < i ==> s[k] == Normalized(trades[k])
    {
      s := s + [Normalized(trades[i])];
    }
    assert s == BacktestTrades(trades);
    normalized := SortAndNumber(s);
    NumberedSort(s);
    forall c ensures Occurrences(s, ClientOf, c) == Occurrences(trades, TradeClient, c) {
      OccurrencesSame(s, ClientOf, trades, TradeClient, c);
    }
    assert TradeParts(s) == SessionParts(trades);
    forall u | u in normalized[..] ensures exists t <- trades ::
      && u.clientId == t.clientOrderId && u.side == t.side && u.direction == t.direction && u.ts == t.ts
      && u.price == t.price && u.qty == t.qty && u.fee == t.commission && u.realizedPnl == t.realizedPnl
      && u.source == Backtest
    {
      var k := OriginOf(s, u);
      assert trades[k] in trades;
    }
  }

  /** Sorting and numbering change the place and the number of a trade and nothing else. */
  lemma {:induction false} OriginOf(s: seq<NormalizedTrade>, t: NormalizedTrade) returns (k: nat)
    requires t in Numbered(Sort(s))
    ensures k < |s| && t == s[k].(occurrence := t.occurrence)
  {
    var i :| 0 <= i < |s| && Numbered(Sort(s))[i] == t;
    SortIsPermutation(s);
    assert Sort(s)[i] in multiset(Sort(s));
    k :| 0 <= k < |s| && s[k] == Sort(s)[i];
  }

  /** Reuses of one client id are numbered in the order of their times. */
  lemma NumbersFollowTime(s: seq<NormalizedTrade>, t: NormalizedTrade, u: NormalizedTrade)
    requires IsNumbered(s) && Sorted(s) && t in s && u in s
    requires t.clientId == u.clientId && t.occurrence < u.occurrence
    ensures t.ts <= u.ts
  {
    var i :| 0 <= i < |s| && s[i] == t;
    var j :| 0 <= j < |s| && s[j] == u;
    if j <= i {
      if j < i { KeysAreUnique(s, j, i); }
    }
  }
}
