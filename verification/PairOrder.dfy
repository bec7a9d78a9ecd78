/**
 Which recorded order a numbered trade belongs to. A client id that live used for several orders, one
 after the other, numbers its trades in the order of these orders, on both sides of the comparison.
 */
module PairOrder {
  import opened Counting
  import opened Ledger
  import opened RecordedStream
  import opened Lifecycle
  import opened Loader

  // ---------- counting ----------

  /** Counting looks at the elements of a list and not at their order. */
  lemma {:induction false} CountsOfPermutation<A, B>(a: seq<A>, b: seq<A>, of: A -> B, x: B)
    requires multiset(a) == multiset(b)
    ensures Occurrences(a, of, x) == Occurrences(b, of, x)
  {
    if a == [] {
      assert |b| == |multiset(b)| == |multiset(a)|;
    } else {
      var i := RemovedFromBoth(a, multiset{}, b);
      CountsOfPermutation(a[1..], Without(b, i), of, x);
      OccurrencesWithout(b, i, of, x);
    }
  }

  function Same(k: Key): Key { k }

  ghost function Among(keys: set<Key>): Key -> bool {
    (k: Key) => k in keys
  }

  lemma {:induction false} AmongOneMore(ks: seq<Key>, keys: set<Key>, key: Key)
    requires key !in keys
    ensures Occurrences(ks, Among(keys + {key}), true)
         == Occurrences(ks, Among(keys), true) + Occurrences(ks, Same, key)
  {
    if ks != [] { AmongOneMore(ks[1..], keys, key); }
  }

  lemma {:induction false} NoneAmong(ks: seq<Key>)
    ensures Occurrences(ks, Among({}), true) == 0
  {
    if ks != [] { NoneAmong(ks[1..]); }
  }

  /** A list that has each of some keys exactly once has as many elements among them as there are. */
  lemma {:induction false} CountIsSize(ks: seq<Key>, keys: set<Key>)
    requires forall key <- keys :: Occurrences(ks, Same, key) == 1
    ensures Occurrences(ks, Among(keys), true) == |keys|
  {
    if keys == {} {
      NoneAmong(ks);
    } else {
      var key :| key in keys;
      CountIsSize(ks, keys - {key});
      AmongOneMore(ks, keys - {key}, key);
      assert keys - {key} + {key} == keys;
    }
  }

  // ---------- orders of one client id, apart in time ----------

  ghost predicate HasTime(es: seq<RecordedExecution>, key: Key, ts: int) {
    exists e <- es :: LifecycleKey(e) == key && e.ts == ts
  }

  /** Every row of one order is older than every row of the other. */
  ghost predicate Earlier(es: seq<RecordedExecution>, k: Key, l: Key) {
    forall d <- es, e <- es :: LifecycleKey(d) == k && LifecycleKey(e) == l ==> d.ts < e.ts
  }

  /** The recorded orders of a client id follow each other in time. */
  ghost predicate Apart(es: seq<RecordedExecution>, c: string) {
    forall k <- Groups(es), l <- Groups(es) :: k.0 == c == l.0 && k != l ==> Earlier(es, k, l) || Earlier(es, l, k)
  }

  ghost function EarlierKeys(es: seq<RecordedExecution>, key: Key): set<Key> {
    set k <- Groups(es) | k.0 == key.0 && k != key && Earlier(es, k, key)
  }

  lemma GroupHasRow(es: seq<RecordedExecution>, key: Key) returns (e: RecordedExecution)
    requires key in Groups(es)
    ensures e in es && LifecycleKey(e) == key
  {
    e :| e in es && LifecycleKey(e) == key;
  }

  lemma NotBothEarlier(es: seq<RecordedExecution>, k: Key, l: Key)
    requires k in Groups(es) && l in Groups(es) && Earlier(es, k, l)
    ensures !Earlier(es, l, k)
  {
    hide LifecycleKey, Groups;
    var d := GroupHasRow(es, k);
    var e := GroupHasRow(es, l);
  }

  lemma EarlierIsTransitive(es: seq<RecordedExecution>, k: Key, l: Key, m: Key)
    requires l in Groups(es) && Earlier(es, k, l) && Earlier(es, l, m)
    ensures Earlier(es, k, m)
  {
    hide LifecycleKey, Groups;
    var x := GroupHasRow(es, l);
  }

  /** Two orders of one client id have different ranks. */
  lemma RanksDiffer(es: seq<RecordedExecution>, k: Key, l: Key)
    requires k in Groups(es) && l in Groups(es) && k.0 == l.0 && k != l && Apart(es, k.0)
    ensures |EarlierKeys(es, k)| != |EarlierKeys(es, l)|
  {
    hide Groups, Earlier;
    if Earlier(es, k, l) { RankGrows(es, k, l); } else { RankGrows(es, l, k); }
  }

  lemma RankGrows(es: seq<RecordedExecution>, k: Key, l: Key)
    requires k in Groups(es) && l in Groups(es) && k.0 == l.0 && k != l && Earlier(es, k, l)
    ensures |EarlierKeys(es, k)| < |EarlierKeys(es, l)|
  {
    hide Groups, Earlier;
    var a, b := EarlierKeys(es, k), EarlierKeys(es, l);
    NotBothEarlier(es, k, l);
    forall m | m in a ensures m in b {
      EarlierIsTransitive(es, m, k, l);
    }
    assert k in b && k !in a;
    assert b == (a + {k}) + (b - (a + {k}));
  }

  // ---------- the rank of a trade ----------

  /** Trade `i` is of order `keys[i]` and carries the time of one of its rows; every recorded order of
      client id `c` has exactly one trade. */
  ghost predicate Lists(s: seq<NormalizedTrade>, keys: seq<Key>, es: seq<RecordedExecution>, c: string) {
    && |s| == |keys|
    && (forall i :: 0 <= i < |s| ==> s[i].clientId == keys[i].0)
    && (forall i :: 0 <= i < |s| && keys[i].0 == c ==> keys[i] in Groups(es) && HasTime(es, keys[i], s[i].ts))
    && (forall key <- Groups(es) :: key.0 == c ==> Occurrences(keys, Same, key) == 1)
  }

  lemma OnePlace(keys: seq<Key>, i: nat, j: nat)
    requires i < |keys| && j < |keys| && keys[i] == keys[j] && Occurrences(keys, Same, keys[i]) == 1
    ensures i == j
  {
    if i != j {
      var lo, hi := if i < j then i else j, if i < j then j else i;
      OccurrencesWithout(keys, hi, Same, keys[i]);
      assert Without(keys, hi)[lo] == keys[i];
      OccurrencesPositive(Without(keys, hi), Same, keys[i]);
    }
  }

  /** Times order the trades of a client id as its orders are ordered. */
  lemma TimesAreOrdered(s: seq<NormalizedTrade>, keys: seq<Key>, es: seq<RecordedExecution>, c: string, i: nat, k: nat)
    requires Lists(s, keys, es, c) && Apart(es, c) && i < |s| && k < |s| && keys[i].0 == c == keys[k].0
    ensures s[i].ts < s[k].ts <==> keys[i] in EarlierKeys(es, keys[k])
    ensures s[i].ts == s[k].ts ==> i == k
  {
    hide LifecycleKey, Groups, Occurrences;
    if keys[i] == keys[k] {
      OnePlace(keys, i, k);
    } else {
      var d :| d in es && LifecycleKey(d) == keys[i] && d.ts == s[i].ts;
      var e :| e in es && LifecycleKey(e) == keys[k] && e.ts == s[k].ts;
      if Earlier(es, keys[i], keys[k]) {
        assert d.ts < e.ts;
      } else {
        assert Earlier(es, keys[k], keys[i]);
        assert e.ts < d.ts;
      }
    }
  }

  ghost function Before(c: string, ts: int): NormalizedTrade -> bool {
    (t: NormalizedTrade) => t.clientId == c && t.ts < ts
  }

  ghost function At(c: string, ts: int): NormalizedTrade -> bool {
    (t: NormalizedTrade) => t.clientId == c && t.ts == ts
  }

  /** Before sorting: as many trades of the client id are older as orders are earlier. */
  lemma OlderTradesAreEarlierOrders(s: seq<NormalizedTrade>, keys: seq<Key>, es: seq<RecordedExecution>, c: string,
                                    k: nat)
    requires Lists(s, keys, es, c) && Apart(es, c) && k < |s| && keys[k].0 == c
    ensures Occurrences(s, Before(c, s[k].ts), true) == |EarlierKeys(es, keys[k])|
  {
    hide Occurrences;
    var earlier := EarlierKeys(es, keys[k]);
    forall i | 0 <= i < |s| ensures Before(c, s[k].ts)(s[i]) == Among(earlier)(keys[i]) {
      if keys[i].0 == c { TimesAreOrdered(s, keys, es, c, i, k); }
    }
    OccurrencesSame(s, Before(c, s[k].ts), keys, Among(earlier), true);
    CountIsSize(keys, earlier);
  }

  /** No two trades of the client id have one time. */
  lemma OneTradeAtATime(s: seq<NormalizedTrade>, keys: seq<Key>, es: seq<RecordedExecution>, c: string, k: nat)
    requires Lists(s, keys, es, c) && Apart(es, c) && k < |s| && keys[k].0 == c
    ensures Occurrences(s, At(c, s[k].ts), true) <= 1
  {
    hide Occurrences, Lists, Apart;
    var at := At(c, s[k].ts);
    OccurrencesWithout(s, k, at, true);
    OccurrencesPositive(Without(s, k), at, true);
    forall t | t in Without(s, k) ensures !at(t) {
      var j :| 0 <= j < |Without(s, k)| && Without(s, k)[j] == t;
      var i := if j < k then j else j + 1;
      assert s[i] == t;
      OtherTime(s, keys, es, c, i, k);
    }
  }

  lemma OtherTime(s: seq<NormalizedTrade>, keys: seq<Key>, es: seq<RecordedExecution>, c: string, i: nat, k: nat)
    requires Lists(s, keys, es, c) && Apart(es, c) && i < |s| && k < |s| && i != k && keys[k].0 == c
    ensures !At(c, s[k].ts)(s[i])
  {
    hide Apart, LifecycleKey, Groups, Occurrences;
    if s[i].clientId == c { TimesAreOrdered(s, keys, es, c, i, k); }
  }

  lemma {:induction false} AllOrNone(u: seq<NormalizedTrade>, c: string, ts: int)
    ensures (forall t <- u :: t.clientId == c ==> t.ts < ts) ==>
      Occurrences(u, Before(c, ts), true) == Occurrences(u, ClientOf, c)
    ensures (forall t <- u :: t.clientId == c ==> t.ts >= ts) ==> Occurrences(u, Before(c, ts), true) == 0
  {
    if u != [] {
      AllOrNone(u[1..], c, ts);
      assert u[0] in u && forall t <- u[1..] :: t in u;
    }
  }

  lemma TwoAtOneTime(u: seq<NormalizedTrade>, j: nat, i: nat, c: string)
    requires j < i < |u| && u[i].clientId == c == u[j].clientId && u[i].ts == u[j].ts
    ensures Occurrences(u, At(c, u[i].ts), true) >= 2
  {
    hide Occurrences;
    OccurrencesWithout(u, i, At(c, u[i].ts), true);
    OccurrencesPositive(Without(u, i), At(c, u[i].ts), true);
    assert Without(u, i)[j] == u[j] && u[j] in Without(u, i) && At(c, u[i].ts)(u[j]) == true;
  }

  /** In a sorted list the trades of a client id before place `i` are its older ones. */
  lemma PrefixIsOlder(u: seq<NormalizedTrade>, i: nat)
    requires Sorted(u) && i < |u| && Occurrences(u, At(u[i].clientId, u[i].ts), true) <= 1
    ensures Occurrences(u[..i], ClientOf, u[i].clientId) == Occurrences(u, Before(u[i].clientId, u[i].ts), true)
  {
    hide Occurrences;
    var c, ts := u[i].clientId, u[i].ts;
    forall t | t in u[..i] && t.clientId == c ensures t.ts < ts {
      var j :| 0 <= j < i && u[j] == t;
      assert !Precedes(u[i], u[j]);
      if t.ts == ts { TwoAtOneTime(u, j, i, c); }
    }
    forall t | t in u[i..] && t.clientId == c ensures t.ts >= ts {
      var j :| i <= j < |u| && u[j] == t;
      if j > i { assert !Precedes(u[j], u[i]); }
    }
    AllOrNone(u[..i], c, ts);
    AllOrNone(u[i..], c, ts);
    OccurrencesAppend(u[..i], u[i..], Before(c, ts), true);
    assert u == u[..i] + u[i..];
  }

  /** The number of a trade is the number of earlier orders of its client id. */
  lemma {:induction false} NumberIsRank(s: seq<NormalizedTrade>, keys: seq<Key>, es: seq<RecordedExecution>,
                                        t: NormalizedTrade)
    returns (k: nat)
    requires Lists(s, keys, es, t.clientId) && Apart(es, t.clientId) && t in Numbered(Sort(s))
    ensures k < |s| && t == s[k].(occurrence := t.occurrence) && t.occurrence == |EarlierKeys(es, keys[k])|
  {
    hide Occurrences, Sort, Lists, Apart, EarlierKeys, Sorted, Before, At;
    var u := Sort(s);
    var i :| 0 <= i < |u| && Numbered(u)[i] == t;
    SortIsPermutation(s);
    SortSorts(s);
    assert u[i] in multiset(s);
    k :| 0 <= k < |s| && s[k] == u[i];
    KeyIsOfClient(s, keys, es, t.clientId, k);
    OneTradeAtATime(s, keys, es, t.clientId, k);
    CountsOfPermutation(u, s, At(t.clientId, t.ts), true);
    PrefixIsOlder(u, i);
    CountsOfPermutation(u, s, Before(t.clientId, t.ts), true);
    OlderTradesAreEarlierOrders(s, keys, es, t.clientId, k);
    assert s[k].clientId == t.clientId && s[k].ts == t.ts;
    assert t.occurrence == Occurrences(u[..i], ClientOf, u[i].clientId);
  }

  lemma KeyIsOfClient(s: seq<NormalizedTrade>, keys: seq<Key>, es: seq<RecordedExecution>, c: string, k: nat)
    requires Lists(s, keys, es, c) && k < |s| && s[k].clientId == c
    ensures k < |keys| && keys[k].0 == c && keys[k] in Groups(es)
  {
  }
}
