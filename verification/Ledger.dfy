/**
 Amounts keyed by order lifecycle. A lifecycle is identified by the client id the matcher
 joins on and the exchange's own order id; slices, open roll-ups and finished trades are all
 lists of entries, and money is conserved when their totals agree key by key.
 */
module Ledger {
  import opened Common
  import opened Counting

  type Key = (string, string)

  datatype Amounts = Amounts(qty: real, notional: real, fee: real, pnl: real)

  const ZERO := Amounts(0.0, 0.0, 0.0, 0.0)

  function Add(a: Amounts, b: Amounts): Amounts {
    Amounts(a.qty + b.qty, a.notional + b.notional, a.fee + b.fee, a.pnl + b.pnl)
  }

  datatype Entry = Entry(key: Key, amounts: Amounts)

  /** What an entry adds to the sum of one key, or to the sum of all keys. */
  function Part(e: Entry, key: Option<Key>): Amounts {
    if key.None? || key.value == e.key then e.amounts else ZERO
  }

  /** Sum of the entries of one key, or of all entries when no key is given. */
  function Total(es: seq<Entry>, key: Option<Key>): Amounts {
    if es == [] then ZERO else Add(Part(es[0], key), Total(es[1..], key))
  }

  lemma {:induction false} TotalAppend(a: seq<Entry>, b: seq<Entry>, key: Option<Key>)
    ensures Total(a + b, key) == Add(Total(a, key), Total(b, key))
  {
    hide Part;
    if a == [] {
      assert a + b == b;
    } else {
      assert (a + b)[1..] == a[1..] + b;
      TotalAppend(a[1..], b, key);
    }
  }

  lemma TotalPush(a: seq<Entry>, e: Entry, key: Option<Key>)
    ensures Total(a + [e], key) == Add(Total(a, key), Part(e, key))
  {
    hide Part;
    TotalAppend(a, [e], key);
    assert Total([e], key) == Add(Part(e, key), Total([], key));
  }

  /** Taking entry `i` out lowers the total by that entry. */
  lemma {:induction false} TotalRemove(es: seq<Entry>, i: nat, key: Option<Key>)
    requires i < |es|
    ensures Total(es, key) == Add(Total(Without(es, i), key), Part(es[i], key))
  {
    hide Part;
    if i == 0 {
      assert Without(es, 0) == es[1..];
    } else {
      TotalRemove(es[1..], i - 1, key);
      assert Without(es, i)[1..] == Without(es[1..], i - 1);
    }
  }

  /** Adding to entry `i` under the same key raises the total by what was added. */
  lemma TotalGrow(es: seq<Entry>, i: nat, more: Amounts, key: Option<Key>)
    requires i < |es|
    ensures Total(es[i := Entry(es[i].key, Add(es[i].amounts, more))], key)
         == Add(Total(es, key), Part(Entry(es[i].key, more), key))
  {
    hide Total;
    var grown := Entry(es[i].key, Add(es[i].amounts, more));
    var es' := es[i := grown];
    assert Without(es', i) == Without(es, i);
    TotalRemove(es, i, key);
    TotalRemove(es', i, key);
  }

  lemma {:induction false} NoneOfKey(es: seq<Entry>, key: Key)
    requires forall e <- es :: e.key != key
    ensures Total(es, Some(key)) == ZERO
  {
    if es != [] { NoneOfKey(es[1..], key); }
  }
}
