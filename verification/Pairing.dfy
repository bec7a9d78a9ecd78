/**
 The greedy two-pointer pairing of two time-stamped row lists within a tolerance,
 and its optimality.
 */
module Pairing {

  predicate Within(a: int, b: int, tolerance: int) {
    b - tolerance <= a <= b + tolerance
  }

  predicate Sorted(s: seq<int>) {
    forall i, j :: 0 <= i < j < |s| ==> s[i] <= s[j]
  }

  /** Some set of (live index, backtest index) pairs, at or after the given positions,
      that uses every row at most once and stays within the tolerance. No order is imposed. */
  ghost predicate IsMatching(m: set<(nat, nat)>, live: seq<int>, bt: seq<int>, tolerance: int, i: nat, j: nat) {
    && (forall p <- m :: i <= p.0 < |live| && j <= p.1 < |bt| && Within(live[p.0], bt[p.1], tolerance))
    && OneToOne(m)
  }

  ghost predicate OneToOne(m: set<(nat, nat)>) {
    forall p <- m, q <- m :: p.0 == q.0 || p.1 == q.1 ==> p == q
  }

  /** The live index claimed by each backtest row from `j` on, -1 for none, when the live
      pointer stands at `i`. */
  ghost function Claims(live: seq<int>, bt: seq<int>, tolerance: int, i: nat, j: nat): (c: seq<int>)
    requires i <= |live| && j <= |bt|
    ensures |c| == |bt| - j
    decreases |bt| - j, |live| - i
  {
    if j == |bt| then []
    else if i < |live| && live[i] < bt[j] - tolerance then Claims(live, bt, tolerance, i + 1, j)
    else if i == |live| || live[i] > bt[j] + tolerance then [-1] + Claims(live, bt, tolerance, i, j + 1)
    else [i] + Claims(live, bt, tolerance, i + 1, j + 1)
  }

  ghost function Hits(claims: seq<int>): nat {
    if claims == [] then 0 else (if claims[0] >= 0 then 1 else 0) + Hits(claims[1..])
  }

  /** Every claim is a live row at or after `i` and within the tolerance of its backtest row. */
  ghost predicate Close(c: seq<int>, live: seq<int>, bt: seq<int>, tolerance: int, i: nat) {
    && |c| == |bt|
    && forall k :: 0 <= k < |c| ==> c[k] == -1 || (i <= c[k] < |live| && Within(live[c[k]], bt[k], tolerance))
  }

  /** Claims advance strictly: no live row is claimed twice and no two pairs cross. */
  ghost predicate Advancing(c: seq<int>) {
    forall k, l :: 0 <= k < l < |c| && c[k] >= 0 && c[l] >= 0 ==> c[k] < c[l]
  }

  lemma {:induction false} ClaimsAreClose(live: seq<int>, bt: seq<int>, tolerance: int, i: nat, j: nat)
    requires i <= |live| && j <= |bt|
    ensures Close(Claims(live, bt, tolerance, i, j), live, bt[j..], tolerance, i)
    decreases |bt| - j, |live| - i
  {
    if j == |bt| {
    } else if i < |live| && live[i] < bt[j] - tolerance {
      ClaimsAreClose(live, bt, tolerance, i + 1, j);
    } else {
      var hit := i < |live| && live[i] <= bt[j] + tolerance;
      ClaimsAreClose(live, bt, tolerance, if hit then i + 1 else i, j + 1);
      assert bt[j..][1..] == bt[j + 1..];
      var rest := Claims(live, bt, tolerance, if hit then i + 1 else i, j + 1);
      CloseCons(if hit then i else -1, rest, live, bt[j..], tolerance, i, if hit then i + 1 else i);
    }
  }

  lemma CloseCons(head: int, rest: seq<int>, live: seq<int>, bt: seq<int>, tolerance: int, i: nat, i': nat)
    requires bt != [] && i <= i' && Close(rest, live, bt[1..], tolerance, i')
    requires head == -1 || (i <= head < |live| && Within(live[head], bt[0], tolerance))
    ensures Close([head] + rest, live, bt, tolerance, i)
  {
    var c := [head] + rest;
    forall k | 0 <= k < |c| ensures c[k] == -1 || (i <= c[k] < |live| && Within(live[c[k]], bt[k], tolerance)) {
      if k > 0 { assert c[k] == rest[k - 1] && bt[k] == bt[1..][k - 1]; }
    }
  }

  lemma {:induction false} ClaimsAdvance(live: seq<int>, bt: seq<int>, tolerance: int, i: nat, j: nat)
    requires i <= |live| && j <= |bt|
    ensures Advancing(Claims(live, bt, tolerance, i, j))
    decreases |bt| - j, |live| - i
  {
    if j == |bt| {
    } else if i < |live| && live[i] < bt[j] - tolerance {
      ClaimsAdvance(live, bt, tolerance, i + 1, j);
    } else if i == |live| || live[i] > bt[j] + tolerance {
      ClaimsAdvance(live, bt, tolerance, i, j + 1);
    } else {
      ClaimsAdvance(live, bt, tolerance, i + 1, j + 1);
      ClaimsAreClose(live, bt, tolerance, i + 1, j + 1);
    }
  }

  /** The (live, backtest) index pairs a list of claims stands for. */
  ghost function ClaimedPairs(claims: seq<int>, j: nat): set<(nat, nat)> {
    if claims == [] then {}
    else (if claims[0] >= 0 then {(claims[0] as nat, j)} else {}) + ClaimedPairs(claims[1..], j + 1)
  }

  lemma {:induction false} ClaimedPairsAre(claims: seq<int>, j: nat)
    ensures forall p <- ClaimedPairs(claims, j) :: j <= p.1 < j + |claims| && claims[p.1 - j] == p.0
    ensures |ClaimedPairs(claims, j)| == Hits(claims)
  {
    if claims != [] {
      var rest := ClaimedPairs(claims[1..], j + 1);
      ClaimedPairsAre(claims[1..], j + 1);
      forall p | p in rest ensures claims[p.1 - j] == p.0 {
        assert claims[1..][p.1 - (j + 1)] == p.0;
      }
      if claims[0] >= 0 { assert (claims[0] as nat, j) !in rest; }
    }
  }

  lemma ClaimsFormAMatching(claims: seq<int>, live: seq<int>, bt: seq<int>, tolerance: int)
    requires Close(claims, live, bt, tolerance, 0) && Advancing(claims)
    ensures IsMatching(ClaimedPairs(claims, 0), live, bt, tolerance, 0, 0)
  {
    hide Within;
    ClaimedPairsAre(claims, 0);
    hide ClaimedPairs;
    var m := ClaimedPairs(claims, 0);
    forall p <- m, q <- m | p.0 == q.0 || p.1 == q.1 ensures p == q {
      assert claims[p.1] == p.0 && claims[q.1] == q.0;
    }
  }

  /** The greedy pairing is itself one of the matchings it competes with, of size `Hits`. */
  lemma GreedyIsMatching(live: seq<int>, bt: seq<int>, tolerance: int)
    ensures var c := Claims(live, bt, tolerance, 0, 0);
      IsMatching(ClaimedPairs(c, 0), live, bt, tolerance, 0, 0) && |ClaimedPairs(c, 0)| == Hits(c)
  {
    hide *;
    var c := Claims(live, bt, tolerance, 0, 0);
    ClaimsAreClose(live, bt, tolerance, 0, 0);
    assert bt[0..] == bt;
    ClaimsAdvance(live, bt, tolerance, 0, 0);
    ClaimsFormAMatching(c, live, bt, tolerance);
    ClaimedPairsAre(c, 0);
  }

  /** What is left of a matching once no pair touches the front rows. */
  lemma Later(m: set<(nat, nat)>, rest: set<(nat, nat)>, live: seq<int>, bt: seq<int>, tolerance: int, i: nat, j: nat)
    requires IsMatching(m, live, bt, tolerance, i, j)
    requires rest <= m && forall p <- rest :: p.0 != i && p.1 != j
    ensures IsMatching(rest, live, bt, tolerance, i + 1, j + 1)
  {
  }

  /** Removing the pairs that touch the front rows leaves a matching of the later rows. If both
      front rows were paired elsewhere, their two partners can be paired with each other. So any
      matching can avoid both front rows at the cost of one pair. */
  lemma DropFront(m: set<(nat, nat)>, live: seq<int>, bt: seq<int>, tolerance: int, i: nat, j: nat)
    returns (m': set<(nat, nat)>)
    requires Sorted(live) && Sorted(bt)
    requires i < |live| && j < |bt| && Within(live[i], bt[j], tolerance)
    requires IsMatching(m, live, bt, tolerance, i, j)
    ensures IsMatching(m', live, bt, tolerance, i + 1, j + 1)
    ensures |m| <= |m'| + 1
  {
    assert OneToOne(m);
    hide IsMatching, Sorted, Within;
    if p :| p in m && p.0 == i {
      m' := m - {p};
      if q :| q in m && q.1 == j && q != p {
        Later(m, m' - {q}, live, bt, tolerance, i, j);
        m' := Reconnect(m, m' - {q}, live, bt, tolerance, i, j, p, q);
      } else {
        Later(m, m', live, bt, tolerance, i, j);
      }
    } else if q :| q in m && q.1 == j {
      m' := m - {q};
      Later(m, m', live, bt, tolerance, i, j);
    } else {
      m' := m;
      Later(m, m', live, bt, tolerance, i, j);
    }
  }

  lemma Reconnect(m: set<(nat, nat)>, rest: set<(nat, nat)>, live: seq<int>, bt: seq<int>, tolerance: int, i: nat,
                  j: nat, p: (nat, nat), q: (nat, nat))
    returns (m': set<(nat, nat)>)
    requires Sorted(live) && Sorted(bt)
    requires i < |live| && j < |bt| && Within(live[i], bt[j], tolerance)
    requires IsMatching(m, live, bt, tolerance, i, j)
    requires p in m && q in m && p != q && p.0 == i && q.1 == j
    requires rest <= m - {p, q} && IsMatching(rest, live, bt, tolerance, i + 1, j + 1)
    ensures IsMatching(m', live, bt, tolerance, i + 1, j + 1)
    ensures |m'| == |rest| + 1
  {
    var partners := (q.0, p.1);
    assert partners !in rest;
    m' := rest + {partners};
    assert Within(live[q.0], bt[p.1], tolerance);
    forall r | r in rest ensures r.0 != q.0 && r.1 != p.1 {}
  }

  /** No one-to-one pairing within the tolerance, ordered or not, has more pairs than the greedy one. */
  lemma {:induction false} GreedyIsMaximum(m: set<(nat, nat)>, live: seq<int>, bt: seq<int>, tolerance: int, i: nat,
                                           j: nat)
    requires Sorted(live) && Sorted(bt)
    requires i <= |live| && j <= |bt|
    requires IsMatching(m, live, bt, tolerance, i, j)
    ensures |m| <= Hits(Claims(live, bt, tolerance, i, j))
    decreases |bt| - j, |live| - i
  {
    if j == |bt| {
      assert m == {};
    } else if i < |live| && live[i] < bt[j] - tolerance {
      GreedyIsMaximum(m, live, bt, tolerance, i + 1, j);
    } else if i == |live| || live[i] > bt[j] + tolerance {
      GreedyIsMaximum(m, live, bt, tolerance, i, j + 1);
    } else {
      var m' := DropFront(m, live, bt, tolerance, i, j);
      GreedyIsMaximum(m', live, bt, tolerance, i + 1, j + 1);
    }
  }
}
