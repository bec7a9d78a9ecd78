/** The join of live and backtest trades on client id and occurrence. */
module Matcher {
  import opened Counting
  import opened OrderIds
  import opened Loader

  datatype MatchedTrade = MatchedTrade(live: NormalizedTrade, backtest: NormalizedTrade)

  datatype MatchResult = MatchResult(
    matched: seq<MatchedTrade>,
    liveOnly: seq<NormalizedTrade>,
    backtestOnly: seq<NormalizedTrade>
  )

  function PairClient(p: MatchedTrade): string { p.live.clientId }

  function KeyClient(k: TradeKey): string { k.0 }

  // ---------- keys in order ----------

  predicate KeyLess(a: TradeKey, b: TradeKey) {
    Less(a.0, b.0) || (a.0 == b.0 && a.1 < b.1)
  }

  ghost predicate IsSmallest(k: TradeKey, s: set<TradeKey>) {
    k in s && forall j <- s :: j == k || KeyLess(k, j)
  }

  lemma {:induction false} HasSmallest(s: set<TradeKey>) returns (k: TradeKey)
    requires s != {}
    ensures IsSmallest(k, s)
    decreases s
  {
    k :| k in s;
    if s != {k} {
      var other := HasSmallest(s - {k});
      LessIsTotal(k.0, other.0);
      if !KeyLess(k, other) {
        k := other;
      } else {
        forall j | j in s && j != k ensures KeyLess(k, j) {
          assert j in s - {k};
          if Less(k.0, other.0) && Less(other.0, j.0) { LessIsTransitive(k.0, other.0, j.0); }
        }
      }
    }
  }

  /** A set of keys as an ascending list. */
  ghost function InOrder(s: set<TradeKey>): (r: seq<TradeKey>)
    ensures |r| == |s| && (forall k :: k in r <==> k in s)
    ensures forall i, j :: 0 <= i < j < |r| ==> KeyLess(r[i], r[j])
    ensures forall i, j :: 0 <= i < j < |r| ==> Less(r[i].0, r[j].0) || (r[i].0 == r[j].0 && r[i].1 < r[j].1)
    decreases s
  {
    if s == {} then []
    else
      assert exists k :: IsSmallest(k, s) by { var k := HasSmallest(s); }
      var k :| IsSmallest(k, s);
      [k] + InOrder(s - {k})
  }

  // ---------- the join ----------

  /** Trades by key; of two with the same key the later one stays. */
  function ByKey(trades: seq<NormalizedTrade>): (m: map<TradeKey, NormalizedTrade>)
    ensures forall k <- m :: KeyOf(m[k]) == k && m[k] in trades
    ensures forall t <- trades :: KeyOf(t) in m
  {
    if trades == [] then map[]
    else
      var last := trades[|trades| - 1];
      assert trades == trades[..|trades| - 1] + [last];
      ByKey(trades[..|trades| - 1])[KeyOf(last) := last]
  }

  ghost function At(m: map<TradeKey, NormalizedTrade>, keys: seq<TradeKey>): (r: seq<NormalizedTrade>)
    requires forall k <- keys :: k in m
    ensures |r| == |keys|
  {
    seq(|keys|, i requires 0 <= i < |keys| => m[keys[i]])
  }

  ghost function Pairs(l: map<TradeKey, NormalizedTrade>, b: map<TradeKey, NormalizedTrade>,
                       keys: seq<TradeKey>): (r: seq<MatchedTrade>)
    requires forall k <- keys :: k in l && k in b
    ensures |r| == |keys|
  {
    seq(|keys|, i requires 0 <= i < |keys| => MatchedTrade(l[keys[i]], b[keys[i]]))
  }

  ghost function MatchTrades(live: seq<NormalizedTrade>, backtest: seq<NormalizedTrade>): MatchResult {
    var l, b := ByKey(live), ByKey(backtest);
    MatchResult(
      Pairs(l, b, InOrder(l.Keys * b.Keys)),
      At(l, InOrder(l.Keys - b.Keys)),
      At(b, InOrder(b.Keys - l.Keys)))
  }

  // ---------- what the join keeps ----------

  ghost predicate Keyed(m: map<TradeKey, NormalizedTrade>) {
    forall k <- m :: KeyOf(m[k]) == k
  }


  /** The first `n` keys of one client id. */
  ghost function FirstKeys(c: string, n: nat): set<TradeKey> {
    set i | 0 <= i < n :: (c, i)
  }

  lemma {:induction false} FirstKeysCount(c: string, n: nat)
    ensures |FirstKeys(c, n)| == n
  {
    if n > 0 {
      FirstKeysCount(c, n - 1);
      assert FirstKeys(c, n) == FirstKeys(c, n - 1) + {(c, n - 1)};
    }
  }

  ghost function OfClient(keys: set<TradeKey>, c: string): set<TradeKey> {
    set k <- keys | k.0 == c
  }

  ghost predicate Distinct(keys: seq<TradeKey>) {
    forall i, j :: 0 <= i < j < |keys| ==> keys[i] != keys[j]
  }

  ghost function Elements(keys: seq<TradeKey>): set<TradeKey> {
    set k <- keys
  }

  lemma {:induction false} DistinctCount(keys: seq<TradeKey>, c: string)
    requires Distinct(keys)
    ensures Occurrences(keys, KeyClient, c) == |OfClient(Elements(keys), c)|
  {
    if keys == [] {
      assert OfClient(Elements(keys), c) == {};
    } else {
      hide Occurrences;
      var n := |keys| - 1;
      var rest, last := keys[..n], keys[n];
      DistinctCount(rest, c);
      OccurrencesPush(rest, last, KeyClient, c);
      assert keys == rest + [last];
      ElementsPush(rest, last, c);
    }
  }

  lemma ElementsPush(keys: seq<TradeKey>, k: TradeKey, c: string)
    requires k !in keys
    ensures OfClient(Elements(keys + [k]), c) == OfClient(Elements(keys), c) + (if k.0 == c then {k} else {})
    ensures |OfClient(Elements(keys + [k]), c)| == |OfClient(Elements(keys), c)| + Count(k.0 == c)
  {
    assert Elements(keys + [k]) == Elements(keys) + {k};
    assert k !in OfClient(Elements(keys), c);
    assert OfClient(Elements(keys + [k]), c) == OfClient(Elements(keys), c) + (if k.0 == c then {k} else {});
  }

  lemma InOrderCount(s: set<TradeKey>, c: string)
    ensures Occurrences(InOrder(s), KeyClient, c) == |OfClient(s, c)|
  {
    var keys := InOrder(s);
    forall i, j | 0 <= i < j < |keys| ensures keys[i] != keys[j] {
      assert KeyLess(keys[i], keys[j]);
      LessIsTotal(keys[i].0, keys[j].0);
    }
    assert Elements(keys) == s;
    DistinctCount(keys, c);
  }

  /** A numbered list has one entry for each trade, and its keys of a client id are the first ones. */
  lemma KeysOfNumbered(s: seq<NormalizedTrade>, c: string)
    requires IsNumbered(s)
    ensures OfClient(ByKey(s).Keys, c) == FirstKeys(c, Occurrences(s, ClientOf, c))
  {
    hide IsNumbered, Numbered;
    var n := Occurrences(s, ClientOf, c);
    forall i: nat ensures (c, i) in ByKey(s) <==> i < n {
      KeyPresent(s, c, i);
    }
    forall k ensures k in OfClient(ByKey(s).Keys, c) <==> k in FirstKeys(c, n) {
      if k in OfClient(ByKey(s).Keys, c) { assert k == (c, k.1); }
    }
  }

  lemma KeyPresent(s: seq<NormalizedTrade>, c: string, i: nat)
    requires IsNumbered(s)
    ensures (c, i) in ByKey(s) <==> i < Occurrences(s, ClientOf, c)
  {
    NumbersAreGapless(s, c, i);
  }

  lemma ByKeyPush(s: seq<NormalizedTrade>, t: NormalizedTrade)
    ensures ByKey(s + [t]) == ByKey(s)[KeyOf(t) := t]
  {
    assert (s + [t])[..|s|] == s;
  }

  ghost predicate KeysDiffer(s: seq<NormalizedTrade>) {
    forall i, j :: 0 <= i < j < |s| ==> KeyOf(s[i]) != KeyOf(s[j])
  }

  lemma NewKey(s: seq<NormalizedTrade>, t: NormalizedTrade)
    requires KeysDiffer(s + [t])
    ensures KeysDiffer(s) && KeyOf(t) !in ByKey(s)
  {
    var r := s + [t];
    forall i, j | 0 <= i < j < |s| ensures KeyOf(s[i]) != KeyOf(s[j]) { assert r[i] == s[i] && r[j] == s[j]; }
    forall x | x in s ensures KeyOf(x) != KeyOf(t) {
      var i :| 0 <= i < |s| && s[i] == x;
      assert r[i] == x && r[|s|] == t;
    }
  }

  lemma {:induction false} ByKeySize(s: seq<NormalizedTrade>)
    requires KeysDiffer(s)
    ensures |ByKey(s)| == |s| && forall t <- s :: ByKey(s)[KeyOf(t)] == t
  {
    if s != [] {
      hide ByKey, KeysDiffer;
      var n := |s| - 1;
      var rest, t := s[..n], s[n];
      assert s == rest + [t];
      NewKey(rest, t);
      ByKeySize(rest);
      ByKeyPush(rest, t);
      forall x | x in s ensures ByKey(s)[KeyOf(x)] == x { assert x == t || x in rest; }
    }
  }

  lemma NumberedSize(s: seq<NormalizedTrade>)
    requires IsNumbered(s)
    ensures |ByKey(s)| == |s| && forall t <- s :: ByKey(s)[KeyOf(t)] == t
  {
    forall i, j | 0 <= i < j < |s| ensures KeyOf(s[i]) != KeyOf(s[j]) { KeysAreUnique(s, i, j); }
    assert KeysDiffer(s);
    hide IsNumbered;
    ByKeySize(s);
  }

  function Less2(m: nat, n: nat): nat { if m <= n then m else n }

  /** An id with `m` live and `n` backtest trades gets exactly min(m, n) pairs; the rest of either
      side is reported as unmatched. */
  lemma PairsPerClient(live: seq<NormalizedTrade>, backtest: seq<NormalizedTrade>, c: string)
    requires IsNumbered(live) && IsNumbered(backtest)
    ensures var r := MatchTrades(live, backtest);
      var m, n := Occurrences(live, ClientOf, c), Occurrences(backtest, ClientOf, c);
      && Occurrences(r.matched, PairClient, c) == Less2(m, n)
      && Occurrences(r.liveOnly, ClientOf, c) == m - Less2(m, n)
      && Occurrences(r.backtestOnly, ClientOf, c) == n - Less2(m, n)
  {
    hide IsNumbered, Occurrences, At, Pairs, OfClient, FirstKeys;
    var l, b := ByKey(live), ByKey(backtest);
    var m, n := Occurrences(live, ClientOf, c), Occurrences(backtest, ClientOf, c);
    KeysOfNumbered(live, c);
    KeysOfNumbered(backtest, c);
    SetsOfClient(l.Keys, b.Keys, c, m, n);
    SetsOfClient(b.Keys, l.Keys, c, n, m);
    InOrderCount(l.Keys * b.Keys, c);
    InOrderCount(l.Keys - b.Keys, c);
    InOrderCount(b.Keys - l.Keys, c);
    PairsCount(l, b, InOrder(l.Keys * b.Keys), c);
    AtCount(l, InOrder(l.Keys - b.Keys), c);
    AtCount(b, InOrder(b.Keys - l.Keys), c);
  }

  lemma AtCount(m: map<TradeKey, NormalizedTrade>, keys: seq<TradeKey>, c: string)
    requires Keyed(m) && forall k <- keys :: k in m
    ensures Occurrences(At(m, keys), ClientOf, c) == Occurrences(keys, KeyClient, c)
  {
    forall i | 0 <= i < |keys| ensures At(m, keys)[i].clientId == keys[i].0 { assert KeyOf(m[keys[i]]) == keys[i]; }
    OccurrencesSame(At(m, keys), ClientOf, keys, KeyClient, c);
  }

  lemma PairsCount(l: map<TradeKey, NormalizedTrade>, b: map<TradeKey, NormalizedTrade>, keys: seq<TradeKey>, c: string)
    requires Keyed(l) && forall k <- keys :: k in l && k in b
    ensures Occurrences(Pairs(l, b, keys), PairClient, c) == Occurrences(keys, KeyClient, c)
  {
    forall i | 0 <= i < |keys| ensures Pairs(l, b, keys)[i].live.clientId == keys[i].0 {
      assert KeyOf(l[keys[i]]) == keys[i];
    }
    OccurrencesSame(Pairs(l, b, keys), PairClient, keys, KeyClient, c);
  }

  lemma SetsOfClient(a: set<TradeKey>, b: set<TradeKey>, c: string, m: nat, n: nat)
    requires OfClient(a, c) == FirstKeys(c, m) && OfClient(b, c) == FirstKeys(c, n)
    ensures |OfClient(a * b, c)| == Less2(m, n)
    ensures |OfClient(a - b, c)| == m - Less2(m, n)
  {
    hide FirstKeys;
    FirstKeysMeet(c, m, n);
    assert OfClient(a * b, c) == FirstKeys(c, m) * FirstKeys(c, n);
    assert OfClient(a - b, c) == FirstKeys(c, m) - FirstKeys(c, n);
  }

  lemma FirstKeysMeet(c: string, m: nat, n: nat)
    ensures |FirstKeys(c, m) * FirstKeys(c, n)| == Less2(m, n)
    ensures |FirstKeys(c, m) - FirstKeys(c, n)| == m - Less2(m, n)
  {
    FirstKeysCount(c, m);
    FirstKeysCount(c, Less2(m, n));
    assert FirstKeys(c, m) * FirstKeys(c, n) == FirstKeys(c, Less2(m, n));
    assert FirstKeys(c, m) - FirstKeys(c, n) == FirstKeys(c, m) - FirstKeys(c, Less2(m, n));
  }

  lemma AtHolds(m: map<TradeKey, NormalizedTrade>, keys: seq<TradeKey>, t: NormalizedTrade)
    requires Keyed(m) && forall k <- keys :: k in m
    ensures t in At(m, keys) <==> KeyOf(t) in keys && m[KeyOf(t)] == t
  {
    if KeyOf(t) in keys && m[KeyOf(t)] == t {
      var i :| 0 <= i < |keys| && keys[i] == KeyOf(t);
      assert At(m, keys)[i] == t;
    }
  }

  lemma PairsHold(l: map<TradeKey, NormalizedTrade>, b: map<TradeKey, NormalizedTrade>, keys: seq<TradeKey>,
                  t: NormalizedTrade)
    requires Keyed(l) && Keyed(b) && forall k <- keys :: k in l && k in b
    ensures (exists p <- Pairs(l, b, keys) :: p.live == t) <==> KeyOf(t) in keys && l[KeyOf(t)] == t
    ensures (exists p <- Pairs(l, b, keys) :: p.backtest == t) <==> KeyOf(t) in keys && b[KeyOf(t)] == t
  {
    if KeyOf(t) in keys {
      var i :| 0 <= i < |keys| && keys[i] == KeyOf(t);
      var p := Pairs(l, b, keys)[i];
      assert p in Pairs(l, b, keys);
    }
  }

  lemma PairsAgree(l: map<TradeKey, NormalizedTrade>, b: map<TradeKey, NormalizedTrade>, keys: seq<TradeKey>)
    requires Keyed(l) && Keyed(b) && forall k <- keys :: k in l && k in b
    ensures forall p <- Pairs(l, b, keys) ::
      KeyOf(p.live) == KeyOf(p.backtest) && p.live in l.Values && p.backtest in b.Values
  {
    forall p | p in Pairs(l, b, keys)
      ensures KeyOf(p.live) == KeyOf(p.backtest) && p.live in l.Values && p.backtest in b.Values
    {
      var i :| 0 <= i < |keys| && Pairs(l, b, keys)[i] == p;
      assert keys[i] in keys;
    }
  }

  /** Every trade of `s` is either among those at its own keys or among those at the shared ones. */
  lemma EachTradeOnce(s: seq<NormalizedTrade>, other: map<TradeKey, NormalizedTrade>)
    requires IsNumbered(s) && Keyed(other)
    ensures var m := ByKey(s); forall t <- s ::
      && (t in At(m, InOrder(m.Keys - other.Keys))) != (KeyOf(t) in other)
      && ((exists p <- Pairs(m, other, InOrder(m.Keys * other.Keys)) :: p.live == t) <==> KeyOf(t) in other)
      && ((exists p <- Pairs(other, m, InOrder(other.Keys * m.Keys)) :: p.backtest == t) <==> KeyOf(t) in other)
  {
    hide IsNumbered, At, Pairs, ByKey;
    NumberedSize(s);
    var m := ByKey(s);
    forall t | t in s
      ensures (t in At(m, InOrder(m.Keys - other.Keys))) != (KeyOf(t) in other)
      ensures (exists p <- Pairs(m, other, InOrder(m.Keys * other.Keys)) :: p.live == t) <==> KeyOf(t) in other
      ensures (exists p <- Pairs(other, m, InOrder(other.Keys * m.Keys)) :: p.backtest == t) <==> KeyOf(t) in other
    {
      AtHolds(m, InOrder(m.Keys - other.Keys), t);
      PairsHold(m, other, InOrder(m.Keys * other.Keys), t);
      PairsHold(other, m, InOrder(other.Keys * m.Keys), t);
    }
  }

  lemma Sizes(live: seq<NormalizedTrade>, backtest: seq<NormalizedTrade>)
    requires IsNumbered(live) && IsNumbered(backtest)
    ensures var r := MatchTrades(live, backtest);
      |r.matched| + |r.liveOnly| == |live| && |r.matched| + |r.backtestOnly| == |backtest|
  {
    hide IsNumbered, ByKey;
    NumberedSize(live);
    NumberedSize(backtest);
    var l, b := ByKey(live), ByKey(backtest);
    assert l.Keys == (l.Keys * b.Keys) + (l.Keys - b.Keys);
    assert b.Keys == (l.Keys * b.Keys) + (b.Keys - l.Keys);
  }

  lemma LiveOnce(live: seq<NormalizedTrade>, backtest: seq<NormalizedTrade>)
    requires IsNumbered(live) && IsNumbered(backtest)
    ensures var r := MatchTrades(live, backtest);
      forall t <- live :: (t in r.liveOnly) != (exists p <- r.matched :: p.live == t)
  {
    hide IsNumbered, At, Pairs, ByKey, InOrder;
    EachTradeOnce(live, ByKey(backtest));
  }

  lemma BacktestOnce(live: seq<NormalizedTrade>, backtest: seq<NormalizedTrade>)
    requires IsNumbered(live) && IsNumbered(backtest)
    ensures var r := MatchTrades(live, backtest);
      forall t <- backtest :: (t in r.backtestOnly) != (exists p <- r.matched :: p.backtest == t)
  {
    hide IsNumbered, At, Pairs, ByKey, InOrder;
    EachTradeOnce(backtest, ByKey(live));
  }

  /** Every live trade is in exactly one pair or unmatched, every backtest trade likewise. */
  lemma MatchingLosesNothing(live: seq<NormalizedTrade>, backtest: seq<NormalizedTrade>)
    requires IsNumbered(live) && IsNumbered(backtest)
    ensures var r := MatchTrades(live, backtest);
      && |r.matched| + |r.liveOnly| == |live|
      && |r.matched| + |r.backtestOnly| == |backtest|
      && (forall p <- r.matched :: KeyOf(p.live) == KeyOf(p.backtest) && p.live in live && p.backtest in backtest)
      && (forall t <- live :: (t in r.liveOnly) != (exists p <- r.matched :: p.live == t))
      && (forall t <- backtest :: (t in r.backtestOnly) != (exists p <- r.matched :: p.backtest == t))
  {
    hide IsNumbered, MatchTrades;
    Sizes(live, backtest);
    PairsShareKeys(live, backtest);
    LiveOnce(live, backtest);
    BacktestOnce(live, backtest);
  }

  lemma PairsShareKeys(live: seq<NormalizedTrade>, backtest: seq<NormalizedTrade>)
    ensures forall p <- MatchTrades(live, backtest).matched ::
      KeyOf(p.live) == KeyOf(p.backtest) && p.live in live && p.backtest in backtest
  {
    hide Pairs, InOrder;
    var l, b := ByKey(live), ByKey(backtest);
    PairsAgree(l, b, InOrder(l.Keys * b.Keys));
  }

  /** No backtest trade stays unmatched exactly when no client id has more backtest trades than
      live ones. */
  lemma NoBacktestOnly(live: seq<NormalizedTrade>, backtest: seq<NormalizedTrade>)
    requires IsNumbered(live) && IsNumbered(backtest)
    ensures MatchTrades(live, backtest).backtestOnly == [] <==>
      forall c :: Occurrences(backtest, ClientOf, c) <= Occurrences(live, ClientOf, c)
  {
    hide IsNumbered, MatchTrades;
    var rest := MatchTrades(live, backtest).backtestOnly;
    forall c
      ensures Occurrences(rest, ClientOf, c) == 0 <==>
        Occurrences(backtest, ClientOf, c) <= Occurrences(live, ClientOf, c)
    {
      PairsPerClient(live, backtest, c);
    }
    if rest == [] {
      forall c ensures Occurrences(backtest, ClientOf, c) <= Occurrences(live, ClientOf, c) {
        assert Occurrences(rest, ClientOf, c) == 0;
      }
    } else {
      var c := rest[0].clientId;
      assert Occurrences(rest, ClientOf, c) > 0;
      assert Occurrences(backtest, ClientOf, c) > Occurrences(live, ClientOf, c);
    }
  }
}
