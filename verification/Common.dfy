/** Vocabulary shared by the backtest and comparator models. */
module Common {

  datatype Option<+T> = None | Some(value: T)

  datatype Result<+T> = Ok(value: T) | Err(error: Error)

  /** The exceptions the modelled code raises. */
  datatype Error = InvalidFill | NonMonotonicTick | EmptyGrid | ZeroPrice

  datatype Side = Buy | Sell

  datatype Direction = Long | Short

  /** A fill opens a long by buying and a short by selling; the other two combinations close. */
  predicate IsOpening(direction: Direction, side: Side) {
    (direction == Long) == (side == Buy)
  }

  function Sign(direction: Direction): real {
    if direction == Long then 1.0 else -1.0
  }

  function Min(a: real, b: real): (m: real)
    ensures m <= a && m <= b && (m == a || m == b)
  {
    if a <= b then a else b
  }

  function Abs(a: real): (m: real)
    ensures m >= 0.0 && (m == a || m == -a)
  {
    if a < 0.0 then -a else a
  }

  /** Profit of `size` units bought (or sold short) at `entry` and valued at `price`. */
  function UnrealisedPnl(direction: Direction, entry: real, price: real, size: real): real {
    if direction == Long then (price - entry) * size else (entry - price) * size
  }

  // ---------- filtering, as in a list comprehension ----------

  function Filter<T>(xs: seq<T>, p: T -> bool): (r: seq<T>)
    ensures |r| <= |xs|
    ensures forall x <- r :: x in xs && p(x)
  {
    if xs == [] then [] else (if p(xs[0]) then [xs[0]] else []) + Filter(xs[1..], p)
  }

  /** Two complementary filters split a list. */
  lemma {:induction false} FilterSplits<T>(xs: seq<T>, p: T -> bool, q: T -> bool)
    requires forall x <- xs :: p(x) != q(x)
    ensures |Filter(xs, p)| + |Filter(xs, q)| == |xs|
  {
    if xs != [] {
      FilterSplits(xs[1..], p, q);
    }
  }

  /** Filtering twice is filtering by the conjunction. */
  lemma {:induction false} FilterTwice<T>(xs: seq<T>, p: T -> bool, q: T -> bool, both: T -> bool)
    requires forall x <- xs :: both(x) == (p(x) && q(x))
    ensures Filter(Filter(xs, p), q) == Filter(xs, both)
  {
    if xs != [] {
      FilterTwice(xs[1..], p, q, both);
      FilterAppend(if p(xs[0]) then [xs[0]] else [], Filter(xs[1..], p), q);
    }
  }

  lemma {:induction false} FilterSame<T>(xs: seq<T>, p: T -> bool, q: T -> bool)
    requires forall x <- xs :: p(x) == q(x)
    ensures Filter(xs, p) == Filter(xs, q)
  {
    if xs != [] { FilterSame(xs[1..], p, q); }
  }

  lemma {:induction false} FilterAppend<T>(xs: seq<T>, ys: seq<T>, p: T -> bool)
    ensures Filter(xs + ys, p) == Filter(xs, p) + Filter(ys, p)
  {
    if xs == [] {
      assert xs + ys == ys;
    } else {
      assert (xs + ys)[1..] == xs[1..] + ys;
      FilterAppend(xs[1..], ys, p);
    }
  }
}
