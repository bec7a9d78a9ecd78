/** Rounding of prices: to the nearest multiple of the tick, then to ten decimals, ties to even. */
module Rounding {

  function HalfEven(x: real): int {
    var f := x.Floor;
    var d := x - f as real;
    if d < 0.5 then f else if d > 0.5 then f + 1 else if f % 2 == 0 then f else f + 1
  }

  lemma HalfEvenIsNear(x: real)
    ensures x - 0.5 <= HalfEven(x) as real <= x + 0.5
  {
  }

  lemma HalfEvenIsMonotone(x: real, y: real)
    requires x <= y
    ensures HalfEven(x) <= HalfEven(y)
  {
    assert x.Floor <= y.Floor;
  }

  /** A number halfway between two integers rounds to the even one. */
  lemma TiesGoToEven(k: int)
    ensures HalfEven(k as real + 0.5) % 2 == 0
    ensures HalfEven(k as real + 0.5) == k || HalfEven(k as real + 0.5) == k + 1
  {
    assert (k as real + 0.5).Floor == k;
  }

  /** A number within half a unit of an integer rounds to it. */
  lemma HalfEvenSnaps(x: real, k: int)
    requires k as real - 0.5 < x < k as real + 0.5
    ensures HalfEven(x) == k
  {
    HalfEvenIsNear(x);
  }

  // ---------- multiples of a unit ----------

  function Multiple(k: int, unit: real): real {
    k as real * unit
  }

  function RoundTo(x: real, unit: real): real
    requires unit > 0.0
  {
    Multiple(HalfEven(x / unit), unit)
  }

  lemma Scale(a: real, b: real, u: real)
    requires u > 0.0
    ensures a <= b ==> a * u <= b * u
    ensures a < b ==> a * u < b * u
  {
  }

  lemma Unscale(a: real, b: real, u: real)
    requires u > 0.0
    ensures a <= b ==> a / u <= b / u
    ensures a < b ==> a / u < b / u
  {
    var p, q := a / u, b / u;
    assert a == p * u && b == q * u;
    if q < p { Scale(q, p, u); }
    if q <= p { Scale(q, p, u); }
  }

  lemma RoundToIsMonotone(x: real, y: real, unit: real)
    requires x <= y && unit > 0.0
    ensures RoundTo(x, unit) <= RoundTo(y, unit)
  {
    Unscale(x, y, unit);
    HalfEvenIsMonotone(x / unit, y / unit);
    Scale(HalfEven(x / unit) as real, HalfEven(y / unit) as real, unit);
  }

  lemma RoundToIsNear(x: real, unit: real)
    requires unit > 0.0
    ensures x - unit / 2.0 <= RoundTo(x, unit) <= x + unit / 2.0
  {
    hide HalfEven;
    var q := x / unit;
    var k := HalfEven(q) as real;
    HalfEvenIsNear(q);
    Near(q, k, 0.5, unit);
    assert Product(q, unit) == x;
    assert RoundTo(x, unit) == Product(k, unit);
  }

  function Product(a: real, u: real): real {
    a * u
  }

  lemma ProductOfSum(a: real, b: real, c: real, u: real)
    requires c == a + b
    ensures Product(c, u) == Product(a, u) + Product(b, u)
  {
    Spread(a, b, u);
  }

  lemma ProductOfHalf(h: real, u: real)
    requires h == 0.5
    ensures Product(h, u) == u / 2.0
  {
  }

  lemma ProductIsMonotone(a: real, b: real, u: real)
    requires a <= b && u > 0.0
    ensures Product(a, u) <= Product(b, u)
  {
    Scale(a, b, u);
  }

  lemma Near(q: real, k: real, h: real, unit: real)
    requires unit > 0.0 && h == 0.5 && q - h <= k <= q + h
    ensures Product(q, unit) - unit / 2.0 <= Product(k, unit) <= Product(q, unit) + unit / 2.0
  {
    hide Product;
    ProductOfHalf(h, unit);
    ProductOfSum(q - h, h, q, unit);
    ProductOfSum(q, h, q + h, unit);
    ProductIsMonotone(q - h, k, unit);
    ProductIsMonotone(k, q + h, unit);
  }

  lemma Spread(a: real, b: real, u: real)
    ensures (a + b) * u == a * u + b * u
  {
  }

  /** A number within half a unit of a multiple rounds to it. */
  lemma RoundToSnaps(x: real, k: int, unit: real)
    requires unit > 0.0 && Multiple(k, unit) - unit / 2.0 < x < Multiple(k, unit) + unit / 2.0
    ensures RoundTo(x, unit) == Multiple(k, unit)
  {
    var q := x / unit;
    assert x == q * unit;
    if q <= k as real - 0.5 { Scale(q, k as real - 0.5, unit); }
    if q >= k as real + 0.5 { Scale(k as real + 0.5, q, unit); }
    HalfEvenSnaps(q, k);
  }

  // ---------- prices ----------

  const TEN_DECIMALS := 0.0000000001

  function RoundPrice(x: real, tick: real): real
    requires tick > 0.0
  {
    RoundTo(RoundTo(x, tick), TEN_DECIMALS)
  }

  /** Rounding moves a price by at most half a tick, and half of the last decimal. */
  lemma RoundPriceIsNear(x: real, tick: real)
    requires tick > 0.0
    ensures x - tick / 2.0 - TEN_DECIMALS / 2.0 <= RoundPrice(x, tick) <= x + tick / 2.0 + TEN_DECIMALS / 2.0
  {
    hide RoundTo;
    RoundToIsNear(x, tick);
    RoundToIsNear(RoundTo(x, tick), TEN_DECIMALS);
  }

  lemma RoundPriceIsMonotone(x: real, y: real, tick: real)
    requires x <= y && tick > 0.0
    ensures RoundPrice(x, tick) <= RoundPrice(y, tick)
  {
    RoundToIsMonotone(x, y, tick);
    RoundToIsMonotone(RoundTo(x, tick), RoundTo(y, tick), TEN_DECIMALS);
  }

  lemma RoundPriceOfZero(tick: real)
    requires tick > 0.0
    ensures RoundPrice(0.0, tick) == 0.0
  {
    assert 0.0 / tick == 0.0;
    assert RoundTo(0.0, tick) == 0.0;
  }

  /** Rounding a rounded price changes nothing: the coarser of the two roundings decides. */
  lemma RoundPriceIsIdempotent(x: real, tick: real)
    requires tick > 0.0
    ensures RoundPrice(RoundPrice(x, tick), tick) == RoundPrice(x, tick)
  {
    hide RoundTo, Multiple;
    var t, p := RoundTo(x, tick), RoundPrice(x, tick);
    var k, j := HalfEven(x / tick), HalfEven(t / TEN_DECIMALS);
    RoundToIs(x, tick);
    RoundToIs(t, TEN_DECIMALS);
    RoundToIsNear(t, TEN_DECIMALS);
    RoundToIsNear(p, tick);
    if tick == TEN_DECIMALS {
      RoundToSnaps(t, k, tick);
    } else if tick > TEN_DECIMALS {
      RoundToSnaps(p, k, tick);
    } else {
      RoundToSnaps(RoundTo(p, tick), j, TEN_DECIMALS);
    }
  }

  lemma RoundToIs(x: real, unit: real)
    requires unit > 0.0
    ensures RoundTo(x, unit) == Multiple(HalfEven(x / unit), unit)
  {
  }

  /** Prices further apart than this stay apart when rounded. */
  function Grain(tick: real): real {
    if tick >= TEN_DECIMALS then tick else tick + TEN_DECIMALS
  }

  /** Prices more than a tick apart stay apart when rounded, for ticks no finer than ten decimals. */
  lemma RoundPriceSeparates(x: real, y: real, tick: real)
    requires tick > 0.0 && y - x > Grain(tick)
    ensures RoundPrice(x, tick) < RoundPrice(y, tick)
  {
    hide RoundTo, Multiple;
    var p, q := RoundTo(x, tick), RoundTo(y, tick);
    RoundToIs(x, tick);
    RoundToIs(y, tick);
    if tick == TEN_DECIMALS {
      RoundToSeparates(x, y, tick);
      RoundToSnaps(p, HalfEven(x / tick), tick);
      RoundToSnaps(q, HalfEven(y / tick), tick);
    } else if tick > TEN_DECIMALS {
      RoundToSeparates(x, y, tick);
      RoundToIsNear(p, TEN_DECIMALS);
      RoundToIsNear(q, TEN_DECIMALS);
    } else {
      RoundToIsNear(x, tick);
      RoundToIsNear(y, tick);
      RoundToSeparates(p, q, TEN_DECIMALS);
    }
  }

  lemma QuotientsApart(x: real, y: real, unit: real)
    requires unit > 0.0 && y - x > unit
    ensures y / unit > x / unit + 1.0
  {
    var p, q := x / unit, y / unit;
    assert x == p * unit && y == q * unit;
    Spread(p, 1.0, unit);
    if q <= p + 1.0 { Scale(q, p + 1.0, unit); }
  }

  lemma RoundToSeparates(x: real, y: real, unit: real)
    requires unit > 0.0 && y - x > unit
    ensures RoundTo(y, unit) >= RoundTo(x, unit) + unit
  {
    hide HalfEven;
    var p, q := x / unit, y / unit;
    QuotientsApart(x, y, unit);
    HalfEvenIsNear(p);
    HalfEvenIsNear(q);
    var j, k := HalfEven(p), HalfEven(q);
    assert j + 1 <= k;
    Scale(j as real + 1.0, k as real, unit);
    assert (j as real + 1.0) * unit == j as real * unit + unit;
  }
}
