/**
 The replay whose comparison reports a trade that live never made. For every recorded stream in
 which some order was filled in two parts there is a strategy that provokes one: it keeps one
 order of a small quantity on the book, so every part uses up an order of its own.
 */
module Phantom {
  import opened Common
  import opened Counting
  import OrderIds
  import opened Ledger
  import opened OrderBook
  import opened FillSimulator
  import opened OrderManager
  import opened RecordedStream
  import opened PositionTracker
  import opened Session
  import opened Lifecycle
  import opened Strategy
  import opened CloseGate
  import opened ReplaySteps
  import opened Runner
  import opened Funding
  import opened Replay
  import opened Loader
  import opened Matcher
  import opened Parity

  // ---------- the strategy ----------

  /** An order that opens a position on its side. */
  datatype Bait = Bait(clientId: string, side: Side, qty: real) {
    function Opens(): Direction {
      if side == Buy then Long else Short
    }

    function Intended(): Intent {
      PlaceLimit(clientId, "", side, 1.0, qty, Opens(), false)
    }

    function Seed(): Order {
      Order("seed", clientId, "", side, 1.0, qty, Opens(), false, Pending)
    }

    /** The row is applied to the bait when nothing else is on the book. */
    predicate Bites(e: RecordedExecution) {
      match ClientPrefix(e.orderLinkId)
      case Some(key) => key == clientId
      case None => e.side == side
    }

    /** The client id under which a row that takes the bait is traded. */
    function BiteOf(e: RecordedExecution): Option<string> {
      if Bites(e) then Some(MatcherKey(e)) else None
    }
  }

  // ---------- one row ----------

  /** The bait is the one active order, nothing is open, and the strategy will place the bait again
      after each of the next `n` fills. */
  ghost predicate Baited(b: Bait, n: nat, s: State) {
    && b.qty > 0.0 && |s.book.active| == 1 && s.book.clientIds <= {b.clientId}
    && s.book.active[0].clientId == b.clientId && s.book.active[0].side == b.side && s.book.active[0].qty == b.qty
    && s.life.rollups == [] && s.script.sizings == [] && s.script.sizing == None
    && |s.script.responses| >= 2 * n && forall r <- s.script.responses :: r == [b.Intended()]
  }

  /** What the bait leaves behind: no order, no roll-up, one more trade of the row's lifecycle. */
  lemma BaitTaken(b: Bait, n: nat, identity: Identity, rate: real, s: State, e: RecordedExecution)
    requires Baited(b, n, s) && e.qty >= b.qty
    ensures var s' := Consumed(identity, rate, s, e, s.book.active[0]);
      && s'.book.active == [] && s'.book.clientIds == {} && s'.life.rollups == [] && s'.script == s.script
      && s'.life.reopened == (s.life.reopened || Uses(TradeEntries(s.life.trades), LifecycleKey(e)) > 0)
      && exists t: Trade :: KeyOfTrade(t) == LifecycleKey(e) && s'.life.trades == s.life.trades + [t]
  {
    hide LifecycleKey, Absorbed, Uses, TradeEntries, ProRated, Refreshed, IdsOf;
    var o := s.book.active[0];
    var a := SliceFor(identity, e, o);
    var gathered := Gathering(identity, rate, s, e, o);
    assert IndexById(s.book.active, o.id) == 0;
    assert gathered.life.rollups == [Opened(a, o.id)] && IndexByKey(gathered.life.rollups, LifecycleKey(e)) == 0;
    var t := TradeOf(gathered.life.rollups[0]);
    assert Flush(gathered, LifecycleKey(e), true).life.trades == s.life.trades + [t];
    assert Without(gathered.life.rollups, 0) == [] && Without(s.book.active, 0) == [];
    assert KeyOfTrade(t) == LifecycleKey(e);
  }

  /** The strategy's answer puts the bait back. */
  lemma BaitAgain(b: Bait, n: nat, s: State)
    requires b.qty > 0.0 && s.book.active == [] && s.book.clientIds == {} && s.life.rollups == []
    requires s.script.sizings == [] && s.script.sizing == None && |s.script.responses| >= 2 * n + 2
    requires forall r <- s.script.responses :: r == [b.Intended()]
    ensures Baited(b, n, Reacted(s)) && Reacted(s).life == s.life
  {
    var asked := Asked(s.script);
    assert Answer(asked) == [b.Intended()] by { assert s.script.responses[1] in s.script.responses; }
    var told := s.(script := Asked(asked));
    ExecutedPush(told, [], b.Intended());
    assert [] + [b.Intended()] == [b.Intended()];
    assert Reacted(s) == Executed(told, b.Intended());
    assert told.script.responses == s.script.responses[2..];
    assert forall r <- told.script.responses :: r in s.script.responses;
  }

  /** One row: either it finds no order and nothing happens, or the bait is taken and put back, and
      there is one more trade, of the row's lifecycle. */
  lemma RowOnBait(b: Bait, n: nat, identity: Identity, rate: real, s: State, e: RecordedExecution, s': State)
    requires Baited(b, n + 1, s) && e.qty >= b.qty && Tried(identity, rate, s, e, s')
    ensures Baited(b, n, s')
    ensures b.Bites(e) ==> exists t: Trade :: KeyOfTrade(t) == LifecycleKey(e) && s'.life.trades == s.life.trades + [t]
    ensures s.life.trades <= s'.life.trades
    ensures b.Bites(e) && Uses(TradeEntries(s.life.trades), LifecycleKey(e)) > 0 ==> s'.life.reopened
  {
    hide Consumed, Reacted, LifecycleKey, Uses, TradeEntries;
    if b.Bites(e) { assert !Stuck(e, s.book.active); }
    if !Stuck(e, s.book.active) {
      var o: Order :| RowStep(identity, rate, s, e, s', o);
      assert o == s.book.active[0];
      BaitTaken(b, n + 1, identity, rate, s, e);
      BaitAgain(b, n, Consumed(identity, rate, s, e, o));
    }
  }

  // ---------- trades are never lost ----------

  /** Trades and the mark of a reopened lifecycle only accumulate. */
  ghost predicate Grows(l: Life, l': Life) {
    l.trades <= l'.trades && (l.reopened ==> l'.reopened)
  }

  lemma FlushGrows(s: State, key: Key, early: bool)
    ensures Grows(s.life, Flush(s, key, early).life)
  {
    hide Refreshed;
  }

  lemma {:induction false} ExecutedGrows(s: State, intents: seq<Intent>)
    ensures Grows(s.life, ExecutedAll(s, intents).life)
  {
    hide Flush, AfterIntent;
    if intents != [] {
      var before, i := ExecutedAll(s, intents[..|intents| - 1]), intents[|intents| - 1];
      ExecutedGrows(s, intents[..|intents| - 1]);
      if i.CancelLimit? && i.orderId in before.life.index { FlushGrows(before, before.life.index[i.orderId], true); }
    }
  }

  lemma {:induction false} SweptGrows(s: State, keys: seq<Key>, final: bool)
    ensures Grows(s.life, Swept(s, keys, final).life)
  {
    hide Flush;
    if keys != [] {
      var before := Swept(s, keys[..|keys| - 1], final);
      SweptGrows(s, keys[..|keys| - 1], final);
      FlushGrows(before, keys[|keys| - 1], false);
    }
  }

  lemma RowGrows(identity: Identity, rate: real, s: State, e: RecordedExecution, s': State)
    requires Tried(identity, rate, s, e, s')
    ensures Grows(s.life, s'.life)
  {
    hide Absorbed, TakenFrom, LifecycleKey, Uses, TradeEntries, Gathered, Flush, ExecutedAll, Refreshed;
    if !Stuck(e, s.book.active) {
      var o: Order :| RowStep(identity, rate, s, e, s', o);
      var taken := Consumed(identity, rate, s, e, o);
      FlushGrows(Gathering(identity, rate, s, e, o), LifecycleKey(e), true);
      ExecutedGrows(taken.(script := Asked(Asked(taken.script))), Answer(Asked(taken.script)));
    }
  }

  lemma {:induction false} PathGrows(identity: Identity, rate: real, states: seq<State>, rows: seq<RecordedExecution>,
                                     from: nat, k: nat)
    requires Path(identity, rate, states, rows) && from <= k <= |rows|
    ensures Grows(states[from].life, states[k].life)
  {
    hide Tried;
    if k > from {
      PathGrows(identity, rate, states, rows, from, k - 1);
      assert Tried(identity, rate, states[k - 1], rows[k - 1], states[k - 1 + 1]);
      RowGrows(identity, rate, states[k - 1], rows[k - 1], states[k]);
    }
  }

  lemma ConcludedGrows(s: State, price: real)
    ensures Grows(s.life, Concluded(s, price).life)
  {
    hide Swept, ExecutedAll, EquityAt;
    SweptGrows(s, KeysOf(s.life.rollups), false);
    var settled := Settling(s);
    var marked :=
      settled.(wallet := settled.wallet.(balance := EquityAt(settled, price)), script := Asked(settled.script));
    ExecutedGrows(marked, Answer(settled.script));
  }

  // ---------- all rows ----------

  /** After the first `k` rows of the stream, every row that took the bait is a trade. */
  lemma {:induction false} RowsOnBait(b: Bait, identity: Identity, rate: real, states: seq<State>,
                                      rows: seq<RecordedExecution>, n: nat, k: nat, c: string)
    requires Path(identity, rate, states, rows) && k <= n <= |rows| && Baited(b, n, states[0])
    requires forall i :: 0 <= i < n ==> rows[i].qty >= b.qty
    ensures Baited(b, n - k, states[k])
    ensures Occurrences(states[k].life.trades, TradeClient, c) >= Occurrences(rows[..k], b.BiteOf, Some(c))
    ensures forall i :: 0 <= i < k && b.Bites(rows[i]) ==>
      Uses(TradeEntries(states[k].life.trades), LifecycleKey(rows[i])) > 0
  {
    hide Baited, Tried, Uses, TradeEntries, LifecycleKey, Occurrences;
    if k == 0 {
      NoBites(b, c);
      assert rows[..0] == [];
    } else {
      RowsOnBait(b, identity, rate, states, rows, n, k - 1, c);
      var s, e, s' := states[k - 1], rows[k - 1], states[k];
      assert Tried(identity, rate, states[k - 1], rows[k - 1], states[k - 1 + 1]);
      RowOnBait(b, n - k, identity, rate, s, e, s');
      assert rows[..k] == rows[..k - 1] + [e];
      OccurrencesPush(rows[..k - 1], e, b.BiteOf, Some(c));
      if b.Bites(e) {
        var t: Trade :| KeyOfTrade(t) == LifecycleKey(e) && s'.life.trades == s.life.trades + [t];
        OneMoreTrade(s.life.trades, t, e, c);
        forall key ensures Uses(TradeEntries(s'.life.trades), key)
                        == Uses(TradeEntries(s.life.trades), key) + Count(KeyOfTrade(t) == key) {
          OneMoreUse(s.life.trades, t, key);
        }
      } else {
        MoreTrades(s.life.trades, s'.life.trades, c);
        forall key ensures Uses(TradeEntries(s'.life.trades), key) >= Uses(TradeEntries(s.life.trades), key) {
          MoreUses(s.life.trades, s'.life.trades, key);
        }
      }
    }
  }

  lemma NoBites(b: Bait, c: string)
    ensures Occurrences([], b.BiteOf, Some(c)) == 0
  {
  }

  lemma OneMoreTrade(trades: seq<Trade>, t: Trade, e: RecordedExecution, c: string)
    requires KeyOfTrade(t) == LifecycleKey(e)
    ensures Occurrences(trades + [t], TradeClient, c) == Occurrences(trades, TradeClient, c) + Count(MatcherKey(e) == c)
  {
    hide MatcherKey;
    OccurrencesPush(trades, t, TradeClient, c);
  }

  lemma OneMoreUse(trades: seq<Trade>, t: Trade, key: Key)
    ensures Uses(TradeEntries(trades + [t]), key) == Uses(TradeEntries(trades), key) + Count(KeyOfTrade(t) == key)
  {
    TradeEntriesAppend(trades, t);
    OccurrencesPush(TradeEntries(trades), TradeEntry(t), Lifecycle.KeyOf, key);
  }

  lemma MoreTrades(a: seq<Trade>, b: seq<Trade>, c: string)
    requires a <= b
    ensures Occurrences(b, TradeClient, c) >= Occurrences(a, TradeClient, c)
  {
    OccurrencesAppend(a, b[|a|..], TradeClient, c);
    assert b == a + b[|a|..];
  }

  lemma MoreUses(a: seq<Trade>, b: seq<Trade>, key: Key)
    requires a <= b
    ensures Uses(TradeEntries(b), key) >= Uses(TradeEntries(a), key)
  {
    var more := TradeEntries(b)[|a|..];
    OccurrencesAppend(TradeEntries(a), more, Lifecycle.KeyOf, key);
    assert TradeEntries(b) == TradeEntries(a) + more;
  }

  /** Two rows of one lifecycle take the bait: the second reopens it. */
  lemma SecondRowReopens(b: Bait, identity: Identity, rate: real, states: seq<State>, rows: seq<RecordedExecution>,
                         n: nat, i: nat, j: nat)
    requires Path(identity, rate, states, rows) && i < j < n <= |rows| && Baited(b, n, states[0])
    requires forall k :: 0 <= k < n ==> rows[k].qty >= b.qty
    requires b.Bites(rows[i]) && b.Bites(rows[j]) && LifecycleKey(rows[i]) == LifecycleKey(rows[j])
    ensures states[|rows|].life.reopened
  {
    hide Baited, Tried, Uses, TradeEntries, LifecycleKey, Occurrences;
    RowsOnBait(b, identity, rate, states, rows, n, j, "");
    assert Tried(identity, rate, states[j], rows[j], states[j + 1]);
    RowOnBait(b, n - j - 1, identity, rate, states[j], rows[j], states[j + 1]);
    PathGrows(identity, rate, states, rows, j + 1, |rows|);
  }

  // ---------- more trades than recorded orders ----------

  /** As many orders of a client id as rows at most, and fewer when two rows are of one order. */
  lemma {:induction false} FewerOrders(es: seq<RecordedExecution>, c: string, i: nat, j: nat)
    requires i < j ==> j < |es| && LifecycleKey(es[i]) == LifecycleKey(es[j]) && MatcherKey(es[i]) == c
    ensures |KeysOfClient(Groups(es), c)| + (if i < j then 1 else 0) <= Occurrences(es, MatcherKey, c)
  {
    hide MatcherKey, Occurrences;
    if es == [] {
      assert KeysOfClient(Groups([]), c) == {};
    } else {
      var n := |es| - 1;
      var rest, e := es[..n], es[n];
      assert es == rest + [e];
      OccurrencesPush(rest, e, MatcherKey, c);
      var before, after := KeysOfClient(Groups(rest), c), KeysOfClient(Groups(es), c);
      assert after == before + if MatcherKey(e) == c then {LifecycleKey(e)} else {};
      if i < j == n {
        assert rest[i] == es[i] && LifecycleKey(e) in before;
        FewerOrders(rest, c, 0, 0);
      } else {
        FewerOrders(rest, c, i, j);
      }
    }
  }

  /** If every row of the client id takes the bait, the rows that do are all of them. */
  lemma {:induction false} AllBite(es: seq<RecordedExecution>, b: Bait, c: string)
    requires forall e <- es :: MatcherKey(e) == c ==> b.Bites(e)
    ensures Occurrences(es, b.BiteOf, Some(c)) == Occurrences(es, MatcherKey, c)
  {
    hide MatcherKey;
    if es != [] {
      assert es[0] in es && forall e <- es[1..] :: e in es;
      AllBite(es[1..], b, c);
    }
  }

  /** Two rows that take the bait. */
  lemma TwoBites(es: seq<RecordedExecution>, b: Bait, i: nat, j: nat)
    requires i < j < |es| && b.Bites(es[i]) && b.Bites(es[j]) && MatcherKey(es[i]) == MatcherKey(es[j])
    ensures Occurrences(es, b.BiteOf, Some(MatcherKey(es[i]))) >= 2
  {
    hide MatcherKey, Occurrences, Bait.Bites;
    var c := Some(MatcherKey(es[i]));
    OccurrencesWithout(es, j, b.BiteOf, c);
    assert Without(es, j)[i] == es[i];
    OccurrencesPositive(Without(es, j), b.BiteOf, c);
    assert es[i] in Without(es, j) && b.BiteOf(es[i]) == c;
  }

  /** The row has no link id and belongs to exchange order `c`. */
  predicate IsUnlinked(e: RecordedExecution, c: string) {
    ClientPrefix(e.orderLinkId).None? && e.orderId == c
  }

  /** The rows of exchange order `c` without a link id are on one side. */
  ghost predicate OneSided(es: seq<RecordedExecution>, c: string) {
    forall d <- es, e <- es :: IsUnlinked(d, c) && IsUnlinked(e, c) ==> d.side == e.side
  }

  // ---------- the replay ----------

  function Smallest(es: seq<RecordedExecution>): (q: real)
    requires es != [] && forall e <- es :: e.qty > 0.0
    ensures q > 0.0 && forall e <- es :: e.qty >= q
  {
    assert es == [es[0]] + es[1..];
    if |es| == 1 then es[0].qty else Min(es[0].qty, Smallest(es[1..]))
  }

  /** Rows without a link id are matched by side: two such rows of one order must be on one side. */
  predicate Alike(d: RecordedExecution, e: RecordedExecution) {
    ClientPrefix(d.orderLinkId).None? && ClientPrefix(e.orderLinkId).None? ==> d.side == e.side
  }

  /** The side of the first row of exchange order `c` without a link id. */
  function SideOf(es: seq<RecordedExecution>, c: string): (side: Option<Side>)
    ensures side.None? ==> forall e <- es :: !IsUnlinked(e, c)
    ensures side.Some? ==> exists e <- es :: IsUnlinked(e, c) && e.side == side.value
  {
    if es == [] then None
    else
      var e := es[0];
      assert es == [e] + es[1..] && e in es && forall x <- es[1..] :: x in es;
      if IsUnlinked(e, c) then Some(e.side) else SideOf(es[1..], c)
  }

  /** A bait that both rows of one lifecycle take, and with them every row of their client id when the
      rows without a link id are on one side. */
  function BaitFor(es: seq<RecordedExecution>, i: nat, j: nat): (b: Bait)
    requires i < j < |es| && LifecycleKey(es[i]) == LifecycleKey(es[j]) && Alike(es[i], es[j])
    requires forall e <- es :: e.qty > 0.0
    ensures b.Bites(es[i]) && b.Bites(es[j]) && b.qty > 0.0 && forall e <- es :: e.qty >= b.qty
    ensures OneSided(es, MatcherKey(es[i])) ==> forall e <- es :: MatcherKey(e) == MatcherKey(es[i]) ==> b.Bites(e)
  {
    var c := MatcherKey(es[i]);
    var other := SideOf(es, c);
    assert es[i] in es && es[j] in es;
    Bait(c,
         if ClientPrefix(es[i].orderLinkId).None? then es[i].side
         else if ClientPrefix(es[j].orderLinkId).None? then es[j].side
         else if other.Some? then other.value else Buy,
         Smallest(es))
  }

  lemma SeedIsNotSimulated(n: nat)
    ensures OrderIds.SimId(n) != "seed"
  {
    hide OrderIds.Decimal, OrderIds.Zeros;
    assert OrderIds.SimId(n)[1] == 'i' && "seed"[1] == 'e';
  }

  /** A seed that opens reserves nothing and is the whole book. */
  lemma SeedIsAlone(b: Bait)
    ensures FirstOfEach([b.Seed()]) == [b.Seed()]
    ensures Reserved([b.Seed()], Long) == Reserved([b.Seed()], Short) == 0.0
  {
    assert [b.Seed()][..0] == [];
    assert FirstOfEach([]) == [];
    assert [b.Seed()][1..] == [];
  }

  lemma OnlyClient(book: Book, b: Bait)
    requires DedupIsActive(book) && book.active == [b.Seed()]
    ensures book.clientIds <= {b.clientId}
  {
    forall c | c in book.clientIds ensures c == b.clientId {
      assert Occurrences(book.active, OrderBook.ClientOf, c) == 1;
      OccurrencesPositive(book.active, OrderBook.ClientOf, c);
    }
  }

  lemma StartsBaited(runner: BacktestRunner, b: Bait, n: nat)
    requires runner.OrdersOk() && runner.om.active == [b.Seed()] && runner.rollups == [] && b.qty > 0.0
    requires runner.engine.View() == Script(seq(2 * n, _ => [b.Intended()]), [], None)
    ensures Baited(b, n, runner.ReplayState())
  {
    hide HoldsEveryOrderOnce, QuantitiesAddUp, StatusesMatch, CounterIsAhead, AllConform;
    OnlyClient(runner.om.View(), b);
  }

  /** Nothing was drained yet. */
  lemma StartOfStream(es: seq<RecordedExecution>)
    requires es != [] && RecordedStream.InOrder(es)
    ensures DrainedUpTo(es, 0, es[0].ts - 1, None)
  {
    forall e | e in es ensures e.ts > es[0].ts - 1 {
      var k :| 0 <= k < |es| && es[k] == e;
    }
  }

  /** The replay of a stream by a strategy that keeps the bait on the book. */
  method BaitedReplay(es: seq<RecordedExecution>, b: Bait) returns (engine: ReplayEngine)
    requires es != [] && RecordedStream.InOrder(es) && b.qty > 0.0
    ensures fresh(engine.runner) && fresh(engine.runner.session) && fresh(engine.runner.follower)
    ensures fresh(engine.runner.om) && fresh(engine.runner.engine)
    ensures fresh(engine.runner.longTracker) && fresh(engine.runner.shortTracker) && engine.funding == null
    ensures engine.Ready() && engine.runner.prevTickTs.None? && engine.runner.applied == []
    ensures engine.runner.follower != null && engine.runner.follower.executions == es
    ensures Baited(b, |es|, engine.runner.ReplayState())
  {
    hide *;
    ghost var identity: Identity := _ => (b.side, b.Opens());
    var responses := seq(2 * |es|, _ => [b.Intended()]);
    SeedIsAlone(b);
    SeedIsFine(identity, b);
    IntentsConform(identity, b, 2 * |es|);
    StartOfStream(es);
    FlatIsConsistent();
    var strategy := new GridEngine(identity, responses, []);
    var om := NewBook();
    var longTracker := new PositionTracker(Long, 0.0);
    var shortTracker := new PositionTracker(Short, 0.0);
    var session := new BacktestSession(0.0);
    var follower := new EventFollower(es, es[0].ts);
    var runner := new BacktestRunner(om, longTracker, shortTracker, session, strategy, follower, [b.Seed()]);
    StartsBaited(runner, b, |es|);
    engine := new ReplayEngine(runner, null);
    engine.ReadyAgain();
  }

  method NewBook() returns (om: BacktestOrderManager)
    ensures fresh(om) && om.View() == EMPTY && om.commissionRate == 0.0
  {
    var simulator := new TradeThroughFillSimulator(StrictCross);
    om := new BacktestOrderManager(simulator, 0.0);
  }

  lemma FlatIsConsistent()
    ensures Consistent(FLAT) && Gate(FLAT.size, 0.0)
  {
  }

  lemma SeedIsFine(identity: Identity, b: Bait)
    requires identity(b.clientId) == (b.side, b.Opens()) && b.qty > 0.0
    ensures forall s <- [b.Seed()] :: s.status == Pending && OrderConforms(identity, s)
    ensures SeedsFit([b.Seed()])
  {
    hide OrderIds.SimId;
    forall n: nat ensures OrderIds.SimId(n) != b.Seed().id { SeedIsNotSimulated(n); }
  }

  lemma IntentsConform(identity: Identity, b: Bait, n: nat)
    requires identity(b.clientId) == (b.side, b.Opens())
    ensures forall r <- seq(n, _ => [b.Intended()]), i <- r :: Conforming(identity, i)
  {
  }

  /** The run of one tick from a baited start: every row that takes the bait is a trade in the end, and
      the second row of a lifecycle reopens it. */
  lemma HistoryOfBait(engine: ReplayEngine, ticks: seq<Tick>, b: Bait, first: State, stages: seq<Stage>, c: string,
                      i: nat, j: nat)
    requires |ticks| == |stages| == 1 && engine.History(first, stages) && engine.RowsReplayed(ticks)
    requires stages[0].funded == None
    requires var es := engine.runner.follower.executions;
      && i < j < |es| && LifecycleKey(es[i]) == LifecycleKey(es[j]) && b.Bites(es[i]) && b.Bites(es[j])
      && (forall e <- es :: e.qty >= b.qty && e.ts <= ticks[0].ticker.exchangeTs) && Baited(b, |es|, first)
    ensures engine.runner.reopened
    ensures Occurrences(engine.runner.session.trades, TradeClient, c)
         >= Occurrences(engine.runner.follower.executions, b.BiteOf, Some(c))
  {
    hide Path, LifecycleKey, AreSlices, Concluded, RowsOf, Occurrences, Swept, BacktestRunner.Where;
    hide BacktestRunner.Purse;
    var es, g := engine.runner.follower.executions, stages[0];
    var identity, rate := engine.runner.engine.identity, engine.runner.om.commissionRate;
    assert stages[..0] == [];
    assert es[|es| - 1] in es && es[|es| - 1].ts <= ticks[0].ticker.exchangeTs;
    assert g.before == first && g.from == 0 && g.to == |es|;
    assert es[0..|es|] == es;
    forall k | 0 <= k < |es| ensures g.tried[k] == es[k] {}
    assert g.tried[..|es|] == es;
    PathLength(identity, rate, g);
    BegunStaysBaited(b, |es|, g);
    SecondRowReopens(b, identity, rate, g.states, g.tried, |es|, i, j);
    RowsOnBait(b, identity, rate, g.states, g.tried, |es|, |es|, c);
    PathGrows(identity, rate, g.states, g.tried, |es|, |g.tried|);
    ConcludedGrows(g.states[|g.tried|], g.tick.ticker.lastPrice);
    SweptGrows(g.after, KeysOf(g.after.life.rollups), true);
    MoreTrades(g.states[|es|].life.trades, engine.runner.session.trades, c);
  }

  lemma PathLength(identity: Identity, rate: real, g: Stage)
    requires Path(identity, rate, g.states, g.tried)
    ensures |g.states| == |g.tried| + 1
  {
  }

  lemma BegunStaysBaited(b: Bait, n: nat, g: Stage)
    requires Baited(b, n, g.before) && g.funded == None && g.states != []
    requires exists window, ahead :: g.states[0] == Begun(g.before, g.tick, g.funded, window, ahead)
    ensures Baited(b, n, g.states[0])
  {
  }

  lemma LastIsLatest(es: seq<RecordedExecution>)
    requires es != [] && RecordedStream.InOrder(es)
    ensures forall e <- es :: e.ts <= es[|es| - 1].ts
  {
    forall e | e in es ensures e.ts <= es[|es| - 1].ts {
      var k :| 0 <= k < |es| && es[k] == e;
    }
  }

  /** More trades than recorded orders of one client id leave one unmatched. */
  lemma Unmatched(es: seq<RecordedExecution>, trades: seq<Trade>, c: string)
    requires Occurrences(trades, TradeClient, c) > |KeysOfClient(Groups(es), c)|
    ensures Compared(es, trades).backtestOnly != []
  {
    hide Sort, Numbered, MatchTrades, Occurrences, IsNumbered, KeysOfClient, Groups, SumOf, Grouped, Sorted;
    var live, backtest := Numbered(Sort(LiveTrades(es))), Numbered(Sort(BacktestTrades(trades)));
    NumberedSort(LiveTrades(es));
    NumberedSort(BacktestTrades(trades));
    GroupedIsGrouping(es);
    LiveAreAggregated(es);
    AggregatedCounts(Grouped(es), LiveTrades(es), es, c);
    OccurrencesSame(BacktestTrades(trades), Loader.ClientOf, trades, TradeClient, c);
    assert Occurrences(backtest, Loader.ClientOf, c) > Occurrences(live, Loader.ClientOf, c);
    NoBacktestOnly(live, backtest);
  }

  /** The rows that take the bait outnumber the recorded orders of their client id. */
  lemma BitesOutnumberOrders(es: seq<RecordedExecution>, b: Bait, i: nat, j: nat)
    requires i < j < |es| && LifecycleKey(es[i]) == LifecycleKey(es[j]) && b.Bites(es[i]) && b.Bites(es[j])
    requires NoReuse(es) || forall e <- es :: MatcherKey(e) == MatcherKey(es[i]) ==> b.Bites(e)
    ensures Occurrences(es, b.BiteOf, Some(MatcherKey(es[i]))) > |KeysOfClient(Groups(es), MatcherKey(es[i]))|
  {
    hide MatcherKey, Occurrences, Groups, KeysOfClient, Bait.Bites;
    var c := MatcherKey(es[i]);
    if NoReuse(es) {
      TwoBites(es, b, i, j);
      assert |KeysOfClient(Groups(es), c)| <= 1;
    } else {
      AllBite(es, b, c);
      FewerOrders(es, c, i, j);
    }
  }

  /** Whenever a recorded order was filled in two parts, however often client ids were reused, some
      strategy makes the replay of that very stream report a trade that live never made. Rows without a
      link id must be on the side of their exchange order; without reused ids the two rows alone. */
  method Provoke(es: seq<RecordedExecution>, i: nat, j: nat)
    returns (engine: ReplayEngine, ghost result: MatchResult, ghost first: State, ghost stages: seq<Stage>)
    requires RecordedStream.InOrder(es) && forall e <- es :: e.price > 0.0 && e.qty > 0.0
    requires i < j < |es| && LifecycleKey(es[i]) == LifecycleKey(es[j]) && Alike(es[i], es[j])
    requires NoReuse(es) || OneSided(es, MatcherKey(es[i]))
    ensures engine.runner.follower != null && engine.runner.follower.executions == es
    ensures Baited(BaitFor(es, i, j), |es|, first) && engine.History(first, stages)
    ensures engine.TradesHoldSlices() && engine.TradesPerGroup() && engine.runner.reopened
    ensures result == Compared(es, engine.runner.session.trades) && result.backtestOnly != []
  {
    hide *;
    var b := BaitFor(es, i, j);
    ghost var c := MatcherKey(es[i]);
    LastIsLatest(es);
    engine := BaitedReplay(es, b);
    first := engine.runner.ReplayState();
    var ticks := [Tick(Ticker("", 1.0, 1.0, 1.0, es[|es| - 1].ts, 0), None)];
    assert NonDecreasing(TickTimes(ticks)) && !HasBadPrice(es) by { OneTick(ticks); GoodPrices(es); }
    Unfunded(engine);
    var r;
    r, result, stages := CompareReplay(engine, ticks);
    NothingFunded(ticks, stages);
    HistoryOfBait(engine, ticks, b, first, stages, c, i, j);
    BitesOutnumberOrders(es, b, i, j);
    Unmatched(es, engine.runner.session.trades, c);
  }

  lemma Unfunded(engine: ReplayEngine)
    requires engine.funding == null
    ensures engine.FundingRate() == None && engine.LastFunding() == None
  {
  }

  lemma NothingFunded(ticks: seq<Tick>, stages: seq<Stage>)
    requires Scheduled(None, None, ticks, stages) && stages != []
    ensures stages[0].funded == None
  {
  }

  lemma OneTick(ticks: seq<Tick>)
    requires |ticks| == 1
    ensures NonDecreasing(TickTimes(ticks))
  {
  }

  lemma GoodPrices(es: seq<RecordedExecution>)
    requires forall e <- es :: e.price > 0.0
    ensures !HasBadPrice(es)
  {
  }
}
