/** How often a value occurs in a list, through a projection of its elements. */
module Counting {

  function Without<A>(xs: seq<A>, i: nat): (r: seq<A>)
    requires i < |xs|
    ensures |r| == |xs| - 1
  {
    xs[..i] + xs[i + 1..]
  }

  lemma WithoutIsLess<A>(xs: seq<A>, i: nat)
    requires i < |xs|
    ensures multiset(xs) == multiset(Without(xs, i)) + multiset{xs[i]}
  {
    assert xs == xs[..i] + [xs[i]] + xs[i + 1..];
  }

  lemma CancelOne<A>(p: multiset<A>, q: multiset<A>, x: A)
    requires p + multiset{x} == q + multiset{x}
    ensures p == q
  {
    assert p == (p + multiset{x}) - multiset{x};
    assert q == (q + multiset{x}) - multiset{x};
  }

  /** What a list has first can be taken out of any list that holds all of it. */
  lemma RemovedFromBoth<A>(a: seq<A>, rest: multiset<A>, b: seq<A>) returns (i: nat)
    requires a != [] && multiset(a) + rest == multiset(b)
    ensures i < |b| && b[i] == a[0] && multiset(a[1..]) + rest == multiset(Without(b, i))
  {
    assert a == [a[0]] + a[1..];
    assert multiset(a) == multiset{a[0]} + multiset(a[1..]);
    assert a[0] in multiset(b);
    i :| 0 <= i < |b| && b[i] == a[0];
    WithoutIsLess(b, i);
    CancelOne(multiset(a[1..]) + rest, multiset(Without(b, i)), a[0]);
  }

  ghost function Count(present: bool): nat { if present then 1 else 0 }

  ghost function Occurrences<A, B>(xs: seq<A>, of: A -> B, x: B): nat {
    if xs == [] then 0 else Count(of(xs[0]) == x) + Occurrences(xs[1..], of, x)
  }

  lemma {:induction false} OccurrencesAppend<A, B>(xs: seq<A>, ys: seq<A>, of: A -> B, x: B)
    ensures Occurrences(xs + ys, of, x) == Occurrences(xs, of, x) + Occurrences(ys, of, x)
  {
    if xs == [] {
      assert xs + ys == ys;
    } else {
      assert (xs + ys)[1..] == xs[1..] + ys;
      OccurrencesAppend(xs[1..], ys, of, x);
    }
  }

  lemma OccurrencesPush<A, B>(xs: seq<A>, y: A, of: A -> B, x: B)
    ensures Occurrences(xs + [y], of, x) == Occurrences(xs, of, x) + Count(of(y) == x)
  {
    OccurrencesAppend(xs, [y], of, x);
    assert Occurrences([y], of, x) == Count(of(y) == x) + Occurrences([], of, x);
  }

  lemma {:induction false} OccurrencesWithout<A, B>(xs: seq<A>, i: nat, of: A -> B, x: B)
    requires i < |xs|
    ensures Occurrences(Without(xs, i), of, x) == Occurrences(xs, of, x) - Count(of(xs[i]) == x)
  {
    if i == 0 {
      assert Without(xs, 0) == xs[1..];
    } else {
      OccurrencesWithout(xs[1..], i - 1, of, x);
      assert Without(xs, i)[1..] == Without(xs[1..], i - 1);
    }
  }

  /** A value is counted exactly when some element carries it. */
  lemma {:induction false} OccurrencesPositive<A, B>(xs: seq<A>, of: A -> B, x: B)
    ensures Occurrences(xs, of, x) > 0 <==> exists y <- xs :: of(y) == x
  {
    if xs != [] {
      OccurrencesPositive(xs[1..], of, x);
      assert forall y :: y in xs <==> y == xs[0] || y in xs[1..];
    }
  }

  /** Counting through a projection is counting in the projected list. */
  lemma {:induction false} OccurrencesSame<A, C, B>(xs: seq<A>, of: A -> B, ys: seq<C>, as': C -> B, x: B)
    requires |xs| == |ys| && forall i :: 0 <= i < |xs| ==> of(xs[i]) == as'(ys[i])
    ensures Occurrences(xs, of, x) == Occurrences(ys, as', x)
  {
    if xs != [] { OccurrencesSame(xs[1..], of, ys[1..], as', x); }
  }
}
