/** The price grid of the reference bot: building it, marking its lines and re-centring it. */
module Greed {
  import opened Common
  import opened Counting
  import opened Rounding

  datatype Mark = BuyLine | SellLine | WaitLine

  datatype Level = Level(mark: Mark, price: real)

  function MarkOf(l: Level): Mark { l.mark }

  // ---------- the grid as built ----------

  function Up(p: real, step: real, tick: real): real
    requires tick > 0.0
  {
    RoundPrice(p * (1.0 + step), tick)
  }

  function Down(p: real, step: real, tick: real): real
    requires tick > 0.0
  {
    RoundPrice(p * (1.0 - step), tick)
  }

  /** `k` sell lines above `p`, each a step above the one before. */
  function Sells(p: real, step: real, tick: real, k: nat): (r: seq<Level>)
    requires tick > 0.0
    ensures |r| == k && forall l <- r :: l.mark == SellLine
    decreases k
  {
    if k == 0 then [] else [Level(SellLine, Up(p, step, tick))] + Sells(Up(p, step, tick), step, tick, k - 1)
  }

  /** `k` buy lines below `p`, lowest first. */
  function Buys(p: real, step: real, tick: real, k: nat): (r: seq<Level>)
    requires tick > 0.0
    ensures |r| == k && forall l <- r :: l.mark == BuyLine
    decreases k
  {
    if k == 0 then [] else Buys(Down(p, step, tick), step, tick, k - 1) + [Level(BuyLine, Down(p, step, tick))]
  }

  function Half(n: int): nat {
    if n < 0 then 0 else n / 2
  }

  /** `to` is a step from `from` by the factor, give or take the rounding to a tick and ten decimals. */
  ghost predicate IsAStep(from: real, factor: real, to: real, tick: real) {
    -tick - 0.0000000001 <= 2.0 * (to - from * factor) <= tick + 0.0000000001
  }

  lemma StepsAreRounded(p: real, step: real, tick: real)
    requires tick > 0.0
    ensures IsAStep(p, 1.0 + step, Up(p, step, tick), tick) && IsAStep(p, 1.0 - step, Down(p, step, tick), tick)
  {
    hide RoundPrice;
    RoundPriceIsNear(p * (1.0 + step), tick);
    RoundPriceIsNear(p * (1.0 - step), tick);
  }

  /** Every sell line is a step above the one before it, the first a step above the close. */
  lemma {:induction false} SellsAreAStepApart(p: real, step: real, tick: real, k: nat, i: nat)
    requires tick > 0.0 && i < k
    ensures var s := Sells(p, step, tick, k);
      IsAStep(if i == 0 then p else s[i - 1].price, 1.0 + step, s[i].price, tick)
    decreases k
  {
    hide Up, IsAStep;
    StepsAreRounded(p, step, tick);
    if i > 0 { SellsAreAStepApart(Up(p, step, tick), step, tick, k - 1, i - 1); }
  }

  /** Every buy line is a step below the next one, the last a step below the close. */
  lemma {:induction false} BuysAreAStepApart(p: real, step: real, tick: real, k: nat, i: nat)
    requires tick > 0.0 && i < k
    ensures var b := Buys(p, step, tick, k);
      IsAStep(if i == k - 1 then p else b[i + 1].price, 1.0 - step, b[i].price, tick)
    decreases k
  {
    hide Down, IsAStep;
    StepsAreRounded(p, step, tick);
    if i < k - 1 { BuysAreAStepApart(Down(p, step, tick), step, tick, k - 1, i); }
  }

  /** What building adds around the levels already there. */
  function Built(before: seq<Level>, close: real, n: int, step: real, tick: real): seq<Level>
    requires tick > 0.0
  {
    Buys(close, step, tick, Half(n)) + before + [Level(WaitLine, RoundPrice(close, tick))]
      + Sells(close, step, tick, Half(n))
  }

  /** A fresh grid has 2 * (n / 2) + 1 lines: buys, one wait line, sells. */
  lemma BuiltShape(close: real, n: int, step: real, tick: real)
    requires tick > 0.0
    ensures var g := Built([], close, n, step, tick);
      && |g| == 2 * Half(n) + 1
      && (forall i :: 0 <= i < Half(n) ==> g[i].mark == BuyLine)
      && g[Half(n)] == Level(WaitLine, RoundPrice(close, tick))
      && (forall i :: Half(n) < i < |g| ==> g[i].mark == SellLine)
  {
    var g := Built([], close, n, step, tick);
    var h := Half(n);
    forall i | 0 <= i < h ensures g[i].mark == BuyLine { assert g[i] in Buys(close, step, tick, h); }
    forall i | h < i < |g| ensures g[i].mark == SellLine { assert g[i] == Sells(close, step, tick, h)[i - h - 1]; }
  }

  ghost predicate Rising(g: seq<Level>) {
    forall i, j :: 0 <= i < j < |g| ==> g[i].price <= g[j].price
  }

  ghost predicate StrictlyRising(g: seq<Level>) {
    forall i, j :: 0 <= i < j < |g| ==> g[i].price < g[j].price
  }

  /** Prices that rounding leaves alone. */
  ghost predicate Rounded(p: real, tick: real)
    requires tick > 0.0
  {
    p >= 0.0 && RoundPrice(p, tick) == p
  }

  ghost predicate AllRounded(g: seq<Level>, tick: real)
    requires tick > 0.0
  {
    forall l <- g :: Rounded(l.price, tick)
  }

  lemma UpRises(p: real, step: real, tick: real)
    requires p >= 0.0 && step >= 0.0 && tick > 0.0
    ensures Rounded(Up(p, step, tick), tick) && RoundPrice(p, tick) <= Up(p, step, tick)
    ensures StepIsCoarse(p, step, tick) ==> RoundPrice(p, tick) < Up(p, step, tick)
  {
    hide RoundPrice;
    Scale0(p, step);
    assert p * (1.0 + step) == p + p * step;
    RoundPriceIsMonotone(p, p * (1.0 + step), tick);
    RoundPriceIsIdempotent(p * (1.0 + step), tick);
    RoundPriceIsMonotone(0.0, p * (1.0 + step), tick);
    RoundPriceOfZero(tick);
    if StepIsCoarse(p, step, tick) { RoundPriceSeparates(p, p * (1.0 + step), tick); }
  }

  /** The line below a price is not negative; only a step over 100 percent can make it so. */
  predicate StaysPositive(p: real, step: real, tick: real)
    requires tick > 0.0
  {
    Down(p, step, tick) >= 0.0
  }

  lemma DownFalls(p: real, step: real, tick: real)
    requires p >= 0.0 && step >= 0.0 && tick > 0.0
    ensures Down(p, step, tick) <= RoundPrice(p, tick)
    ensures StaysPositive(p, step, tick) ==> Rounded(Down(p, step, tick), tick)
    ensures StepIsCoarse(p, step, tick) ==> Down(p, step, tick) < RoundPrice(p, tick)
  {
    hide RoundPrice;
    Scale0(p, step);
    assert p * (1.0 - step) == p - p * step;
    RoundPriceIsMonotone(p * (1.0 - step), p, tick);
    RoundPriceIsIdempotent(p * (1.0 - step), tick);
    if StepIsCoarse(p, step, tick) { RoundPriceSeparates(p * (1.0 - step), p, tick); }
  }

  /** Up to 100 percent the line below is never negative; above, it is at most zero. */
  lemma DownSign(p: real, step: real, tick: real)
    requires p >= 0.0 && step >= 0.0 && tick > 0.0
    ensures step <= 1.0 ==> StaysPositive(p, step, tick)
    ensures step > 1.0 ==> Down(p, step, tick) <= 0.0
    ensures p == 0.0 ==> Down(p, step, tick) == 0.0
  {
    hide RoundPrice;
    RoundPriceOfZero(tick);
    if step <= 1.0 {
      Scale0(p, 1.0 - step);
      RoundPriceIsMonotone(0.0, p * (1.0 - step), tick);
    } else {
      Scale0(p, step - 1.0);
      assert p * (1.0 - step) == -(p * (step - 1.0));
      RoundPriceIsMonotone(p * (1.0 - step), 0.0, tick);
    }
    if p == 0.0 { assert p * (1.0 - step) == 0.0; }
  }

  lemma Scale0(a: real, b: real)
    requires a >= 0.0 && b >= 0.0
    ensures a * b >= 0.0
  {
  }

  /** One step exceeds one tick at this price (and the tenth decimal, should the tick be finer). */
  predicate StepIsCoarse(p: real, step: real, tick: real) {
    p * step > Grain(tick)
  }

  ghost predicate Coarse(g: seq<Level>, step: real, tick: real) {
    forall l <- g :: StepIsCoarse(l.price, step, tick)
  }

  /** Rising, on rounded prices, and between two bounds. */
  ghost predicate RisesWithin(g: seq<Level>, lo: real, hi: real, tick: real)
    requires tick > 0.0
  {
    Rising(g) && AllRounded(g, tick) && forall l <- g :: lo <= l.price <= hi
  }

  ghost predicate StrictWithin(g: seq<Level>, lo: real, hi: real) {
    StrictlyRising(g) && forall l <- g :: lo < l.price < hi
  }

  lemma Joined(a: seq<Level>, m: Level, b: seq<Level>, lo: real, hi: real, tick: real)
    requires tick > 0.0 && Rounded(m.price, tick) && lo <= m.price <= hi
    requires RisesWithin(a, lo, m.price, tick) && RisesWithin(b, m.price, hi, tick)
    ensures RisesWithin(a + [m] + b, lo, hi, tick)
  {
    hide Rounded;
    var g := a + [m] + b;
    forall i, j | 0 <= i < j < |g| ensures g[i].price <= g[j].price {
      if i < |a| { assert g[i] in a; }
      if j > |a| { assert g[j] in b; }
    }
  }

  lemma JoinedStrictly(a: seq<Level>, m: Level, b: seq<Level>, lo: real, hi: real)
    requires lo < m.price < hi && StrictWithin(a, lo, m.price) && StrictWithin(b, m.price, hi)
    ensures StrictWithin(a + [m] + b, lo, hi)
  {
    var g := a + [m] + b;
    forall i, j | 0 <= i < j < |g| ensures g[i].price < g[j].price {
      if i < |a| { assert g[i] in a; }
      if j > |a| { assert g[j] in b; }
    }
  }

  /** Price of the highest of `k` sells, or of the base line. */
  function Top(p: real, step: real, tick: real, k: nat): real
    requires tick > 0.0
    decreases k
  {
    if k == 0 then RoundPrice(p, tick) else Top(Up(p, step, tick), step, tick, k - 1)
  }

  function Bottom(p: real, step: real, tick: real, k: nat): real
    requires tick > 0.0
    decreases k
  {
    if k == 0 then RoundPrice(p, tick) else Bottom(Down(p, step, tick), step, tick, k - 1)
  }

  /** What one more line adds. */
  lemma SellsNext(p: real, step: real, tick: real, k: nat)
    requires tick > 0.0
    ensures Sells(p, step, tick, 0) == [] && Top(p, step, tick, 0) == RoundPrice(p, tick)
    ensures k > 0 ==>
      var q := Up(p, step, tick);
      && Sells(p, step, tick, k) == [] + [Level(SellLine, q)] + Sells(q, step, tick, k - 1)
      && Top(p, step, tick, k) == Top(q, step, tick, k - 1)
  {
    hide RoundPrice;
  }

  lemma BuysNext(p: real, step: real, tick: real, k: nat)
    requires tick > 0.0
    ensures Buys(p, step, tick, 0) == [] && Bottom(p, step, tick, 0) == RoundPrice(p, tick)
    ensures k > 0 ==>
      var q := Down(p, step, tick);
      && Buys(p, step, tick, k) == Buys(q, step, tick, k - 1) + [Level(BuyLine, q)] + []
      && Bottom(p, step, tick, k) == Bottom(q, step, tick, k - 1)
  {
    hide RoundPrice;
  }

  lemma NoLevels(lo: real, hi: real, tick: real)
    requires tick > 0.0
    ensures RisesWithin([], lo, hi, tick) && StrictWithin([], lo, hi)
  {
  }

  lemma {:induction false} SellsRise(p: real, step: real, tick: real, k: nat)
    requires p >= 0.0 && step >= 0.0 && tick > 0.0
    ensures RoundPrice(p, tick) <= Top(p, step, tick, k)
    ensures RisesWithin(Sells(p, step, tick, k), RoundPrice(p, tick), Top(p, step, tick, k), tick)
    decreases k
  {
    hide RoundPrice, Rounded, RisesWithin, Sells, Top, Up;
    SellsNext(p, step, tick, k);
    NoLevels(RoundPrice(p, tick), if k > 0 then Up(p, step, tick) else RoundPrice(p, tick), tick);
    if k > 0 {
      var q := Up(p, step, tick);
      UpRises(p, step, tick);
      RoundedIs(q, tick);
      SellsRise(q, step, tick, k - 1);
      Joined([], Level(SellLine, q), Sells(q, step, tick, k - 1), RoundPrice(p, tick), Top(p, step, tick, k), tick);
    }
  }

  lemma {:induction false} BuysRise(p: real, step: real, tick: real, k: nat)
    requires p >= 0.0 && step >= 0.0 && tick > 0.0 && (k == 0 || StaysPositive(p, step, tick))
    ensures Bottom(p, step, tick, k) <= RoundPrice(p, tick)
    ensures RisesWithin(Buys(p, step, tick, k), Bottom(p, step, tick, k), RoundPrice(p, tick), tick)
    decreases k
  {
    hide RoundPrice, Rounded, RisesWithin, Buys, Bottom, Down;
    BuysNext(p, step, tick, k);
    NoLevels(if k > 0 then Down(p, step, tick) else RoundPrice(p, tick), RoundPrice(p, tick), tick);
    if k > 0 {
      var q := Down(p, step, tick);
      DownFalls(p, step, tick);
      DownSign(p, step, tick);
      RoundedIs(q, tick);
      DownSign(q, step, tick);
      BuysRise(q, step, tick, k - 1);
      Joined(Buys(q, step, tick, k - 1), Level(BuyLine, q), [], Bottom(p, step, tick, k), RoundPrice(p, tick), tick);
    }
  }

  lemma CoarseParts(a: seq<Level>, m: Level, b: seq<Level>, step: real, tick: real)
    requires Coarse(a + [m] + b, step, tick)
    ensures Coarse(a, step, tick) && StepIsCoarse(m.price, step, tick) && Coarse(b, step, tick)
  {
    hide StepIsCoarse;
    assert m in a + [m] + b;
    forall l | l in a ensures StepIsCoarse(l.price, step, tick) { assert l in a + [m] + b; }
    forall l | l in b ensures StepIsCoarse(l.price, step, tick) { assert l in a + [m] + b; }
  }

  lemma {:induction false} SellsRiseStrictly(p: real, step: real, tick: real, k: nat)
    requires p >= 0.0 && step >= 0.0 && tick > 0.0
    requires StepIsCoarse(p, step, tick) && Coarse(Sells(p, step, tick, k), step, tick)
    ensures RoundPrice(p, tick) < Top(p, step, tick, k) + 1.0
    ensures StrictWithin(Sells(p, step, tick, k), RoundPrice(p, tick), Top(p, step, tick, k) + 1.0)
    decreases k
  {
    hide RoundPrice, Rounded, StrictWithin, Sells, Top, Up, StepIsCoarse, Coarse;
    SellsNext(p, step, tick, k);
    NoLevels(RoundPrice(p, tick), if k > 0 then Up(p, step, tick) else RoundPrice(p, tick) + 1.0, tick);
    if k > 0 {
      var q := Up(p, step, tick);
      UpRises(p, step, tick);
      RoundedIs(q, tick);
      var rest := Sells(q, step, tick, k - 1);
      CoarseParts([], Level(SellLine, q), rest, step, tick);
      SellsRiseStrictly(q, step, tick, k - 1);
      JoinedStrictly([], Level(SellLine, q), rest, RoundPrice(p, tick), Top(p, step, tick, k) + 1.0);
    }
  }

  lemma {:induction false} BuysRiseStrictly(p: real, step: real, tick: real, k: nat)
    requires p >= 0.0 && 0.0 <= step <= 1.0 && tick > 0.0
    requires StepIsCoarse(p, step, tick) && Coarse(Buys(p, step, tick, k), step, tick)
    ensures Bottom(p, step, tick, k) - 1.0 < RoundPrice(p, tick)
    ensures StrictWithin(Buys(p, step, tick, k), Bottom(p, step, tick, k) - 1.0, RoundPrice(p, tick))
    decreases k
  {
    hide RoundPrice, Rounded, StrictWithin, Buys, Bottom, Down, StepIsCoarse, Coarse;
    BuysNext(p, step, tick, k);
    NoLevels(if k > 0 then Down(p, step, tick) else RoundPrice(p, tick) - 1.0, RoundPrice(p, tick), tick);
    if k > 0 {
      var q := Down(p, step, tick);
      DownFalls(p, step, tick);
      DownSign(p, step, tick);
      RoundedIs(q, tick);
      var rest := Buys(q, step, tick, k - 1);
      CoarseParts(rest, Level(BuyLine, q), [], step, tick);
      BuysRiseStrictly(q, step, tick, k - 1);
      JoinedStrictly(rest, Level(BuyLine, q), [], Bottom(p, step, tick, k) - 1.0, RoundPrice(p, tick));
    }
  }

  lemma RoundedIs(p: real, tick: real)
    requires tick > 0.0 && Rounded(p, tick)
    ensures p >= 0.0 && RoundPrice(p, tick) == p
  {
  }

  lemma CloseIsRounded(close: real, tick: real)
    requires close >= 0.0 && tick > 0.0
    ensures Rounded(RoundPrice(close, tick), tick)
  {
    hide RoundTo;
    RoundPriceIsIdempotent(close, tick);
    RoundPriceIsMonotone(0.0, close, tick);
    RoundPriceOfZero(tick);
  }

  /** A fresh grid never falls, and its prices are ones that rounding leaves alone, as long as the
      first line below the close is not negative. */
  lemma BuiltRises(close: real, n: int, step: real, tick: real)
    requires close > 0.0 && step >= 0.0 && tick > 0.0
    requires Half(n) == 0 || StaysPositive(close, step, tick)
    ensures Rising(Built([], close, n, step, tick)) && AllRounded(Built([], close, n, step, tick), tick)
  {
    hide RoundPrice, Rounded;
    var h := Half(n);
    CloseIsRounded(close, tick);
    SellsRise(close, step, tick, h);
    BuysRise(close, step, tick, h);
    Joined(Buys(close, step, tick, h), Level(WaitLine, RoundPrice(close, tick)), Sells(close, step, tick, h),
      Bottom(close, step, tick, h), Top(close, step, tick, h), tick);
    assert Buys(close, step, tick, h) + [] == Buys(close, step, tick, h);
  }

  /** Exactly when a fresh grid falls: with two buys or more, when the first of them is negative. */
  lemma BuiltRisesExactly(close: real, n: int, step: real, tick: real)
    requires close > 0.0 && step >= 0.0 && tick > 0.0
    ensures Rising(Built([], close, n, step, tick)) <==> Half(n) <= 1 || StaysPositive(close, step, tick)
  {
    hide RoundPrice, Rounded;
    if Half(n) == 0 || StaysPositive(close, step, tick) {
      BuiltRises(close, n, step, tick);
    } else if Half(n) == 1 {
      OneBuyRises(close, step, tick);
    } else {
      SecondBuyIsAbove(close, Half(n), step, tick);
      var g, b := Built([], close, n, step, tick), Buys(close, step, tick, Half(n));
      assert g[Half(n) - 2] == b[Half(n) - 2] && g[Half(n) - 1] == b[Half(n) - 1];
    }
  }

  lemma OneBuyRises(close: real, step: real, tick: real)
    requires close > 0.0 && step >= 0.0 && tick > 0.0
    ensures Rising(Buys(close, step, tick, 1) + [] + [Level(WaitLine, RoundPrice(close, tick))]
                     + Sells(close, step, tick, 1))
  {
    hide RoundPrice, Rounded;
    UpRises(close, step, tick);
    DownFalls(close, step, tick);
    var p, q := Down(close, step, tick), Up(close, step, tick);
    assert Buys(close, step, tick, 1) == Buys(p, step, tick, 0) + [Level(BuyLine, p)];
    assert Sells(close, step, tick, 1) == [Level(SellLine, q)] + Sells(q, step, tick, 0);
  }

  lemma DownOfNegative(q: real, step: real, tick: real)
    requires q < 0.0 && step > 1.0 && tick > 0.0
    ensures Down(q, step, tick) >= 0.0
  {
    hide RoundPrice;
    Scale0(-q, step - 1.0);
    assert q * (1.0 - step) == -q * (step - 1.0);
    RoundPriceIsMonotone(0.0, q * (1.0 - step), tick);
    RoundPriceOfZero(tick);
  }

  /** A negative buy line has the next one above it. */
  lemma SecondBuyIsAbove(close: real, k: nat, step: real, tick: real)
    requires close > 0.0 && step >= 0.0 && tick > 0.0 && k >= 2 && !StaysPositive(close, step, tick)
    ensures var b := Buys(close, step, tick, k); b[k - 2].price > b[k - 1].price
  {
    hide RoundPrice;
    DownSign(close, step, tick);
    var q := Down(close, step, tick);
    var r := Down(q, step, tick);
    DownOfNegative(q, step, tick);
    assert Buys(q, step, tick, k - 1) == Buys(r, step, tick, k - 2) + [Level(BuyLine, r)];
    assert Buys(close, step, tick, k) == Buys(q, step, tick, k - 1) + [Level(BuyLine, q)];
    assert Buys(close, step, tick, k)[k - 1].price == q;
    assert Buys(close, step, tick, k)[k - 2].price == Buys(q, step, tick, k - 1)[k - 2].price == r;
    assert r >= 0.0 > q;
  }

  /** It rises strictly when one step exceeds one tick at the close and at every line. */
  lemma BuiltRisesStrictly(close: real, n: int, step: real, tick: real)
    requires close > 0.0 && 0.0 <= step <= 1.0 && tick > 0.0
    requires StepIsCoarse(close, step, tick) && Coarse(Built([], close, n, step, tick), step, tick)
    ensures StrictlyRising(Built([], close, n, step, tick))
  {
    hide RoundPrice, StepIsCoarse;
    var h := Half(n);
    var g, b, a := Built([], close, n, step, tick), Buys(close, step, tick, h), Sells(close, step, tick, h);
    assert b + [] == b && g == b + [Level(WaitLine, RoundPrice(close, tick))] + a;
    forall l | l in b ensures StepIsCoarse(l.price, step, tick) { assert l in g; }
    forall l | l in a ensures StepIsCoarse(l.price, step, tick) { assert l in g; }
    SellsRiseStrictly(close, step, tick, h);
    BuysRiseStrictly(close, step, tick, h);
    JoinedStrictly(b, Level(WaitLine, RoundPrice(close, tick)), a, Bottom(close, step, tick, h) - 1.0,
                   Top(close, step, tick, h) + 1.0);
  }

  // ---------- marking ----------

  /** Closer to the last fill than a quarter of a step; `stepPercent` is the step in percent. */
  predicate IsTooClose(price: real, filled: real, stepPercent: real)
    requires price != 0.0
  {
    Abs(price - filled) / price * 100.0 < stepPercent / 4.0
  }

  /** For a positive price: less than a quarter of the step, in percent of the price. */
  lemma TooCloseIsAQuarterStep(price: real, filled: real, stepPercent: real)
    requires price > 0.0
    ensures IsTooClose(price, filled, stepPercent) <==> 400.0 * Abs(price - filled) < stepPercent * price
  {
    var d := Abs(price - filled) / price;
    assert d * price == Abs(price - filled);
    if d * 100.0 < stepPercent / 4.0 { Scale(400.0 * d, stepPercent, price); }
    if d * 100.0 >= stepPercent / 4.0 { Scale(stepPercent, 400.0 * d, price); }
  }

  /** A line exactly at the close keeps its mark. */
  function Marked(l: Level, filled: real, close: real, stepPercent: real): Level
    requires l.price != 0.0
  {
    if IsTooClose(l.price, filled, stepPercent) then l.(mark := WaitLine)
    else if close < l.price then l.(mark := SellLine)
    else if close > l.price then l.(mark := BuyLine)
    else l
  }

  ghost function Remarked(g: seq<Level>, filled: real, close: real, stepPercent: real): (r: seq<Level>)
    requires forall l <- g :: l.price != 0.0
    ensures |r| == |g| && forall i :: 0 <= i < |g| ==> r[i].price == g[i].price
  {
    seq(|g|, i requires 0 <= i < |g| => Marked(g[i], filled, close, stepPercent))
  }

  ghost predicate NoSellBelowBuy(g: seq<Level>) {
    forall i, j :: 0 <= i < j < |g| ==> !(g[i].mark == SellLine && g[j].mark == BuyLine)
  }

  /** On a strictly rising grid re-marking leaves no sell line below a buy line, whatever the marks
      were before: at most one line is at the close and keeps its mark. */
  lemma RemarkingSeparates(g: seq<Level>, filled: real, close: real, stepPercent: real)
    requires StrictlyRising(g) && forall l <- g :: l.price != 0.0
    ensures NoSellBelowBuy(Remarked(g, filled, close, stepPercent))
    ensures StrictlyRising(Remarked(g, filled, close, stepPercent))
  {
    hide IsTooClose;
    var r := Remarked(g, filled, close, stepPercent);
    forall i, j | 0 <= i < j < |r| ensures !(r[i].mark == SellLine && r[j].mark == BuyLine) {
      assert r[i] == Marked(g[i], filled, close, stepPercent) && r[j] == Marked(g[j], filled, close, stepPercent);
    }
  }

  // ---------- re-centring ----------

  function LastSell(g: seq<Level>): real {
    if g == [] then 0.0
    else if g[|g| - 1].mark == SellLine then g[|g| - 1].price
    else LastSell(g[..|g| - 1])
  }

  /** It is the last sell line that counts, and zero stands for none. */
  lemma {:induction false} LastSellIsLast(g: seq<Level>)
    ensures (forall l <- g :: l.mark != SellLine) ==> LastSell(g) == 0.0
    ensures forall i :: 0 <= i < |g| && g[i].mark == SellLine && (forall j :: i < j < |g| ==> g[j].mark != SellLine) ==>
      LastSell(g) == g[i].price
  {
    if g != [] && g[|g| - 1].mark != SellLine { LastSellIsLast(g[..|g| - 1]); }
  }

  ghost function CountOf(g: seq<Level>, mark: Mark): nat {
    Occurrences(g, MarkOf, mark)
  }

  /** One side outweighs the other by more than three tenths of both. */
  predicate Outweighs(more: nat, less: nat) {
    more + less > 0 && (more as real - less as real) / (more + less) as real > 0.3
  }

  lemma Ratio(d: real, all: real)
    requires all > 0.0
    ensures d / all > 0.3 <==> 10.0 * d > 3.0 * all
  {
    var q := d / all;
    assert q * all == d;
    if q > 0.3 { Scale(0.3, q, all); } else { Scale(q, 0.3, all); }
  }

  lemma ThreeTenths(more: nat, less: nat)
    ensures Outweighs(more, less) <==> 10 * (more - less) > 3 * (more + less)
  {
    if more + less > 0 {
      Ratio(more as real - less as real, (more + less) as real);
      assert (10 * (more - less)) as real == 10.0 * (more as real - less as real);
      assert (3 * (more + less)) as real == 3.0 * (more + less) as real;
    }
  }

  ghost function Recentred(g: seq<Level>, step: real, tick: real): seq<Level>
    requires tick > 0.0
  {
    var buys, sells := CountOf(g, BuyLine), CountOf(g, SellLine);
    if g == [] then g
    else if Outweighs(buys, sells) then g[1..] + [Level(SellLine, Up(LastSell(g), step, tick))]
    else if Outweighs(sells, buys) then [Level(BuyLine, Down(g[0].price, step, tick))] + g[..|g| - 1]
    else g
  }

  /** Re-centring keeps the number of lines and never puts a sell below a buy. */
  lemma RecentringKeepsMarks(g: seq<Level>, step: real, tick: real)
    requires tick > 0.0
    ensures |Recentred(g, step, tick)| == |g|
    ensures NoSellBelowBuy(g) ==> NoSellBelowBuy(Recentred(g, step, tick))
  {
    hide RoundPrice, Outweighs, CountOf;
  }

  /** The line that re-centring puts on top is not below the line it lands on. */
  ghost predicate TopFits(g: seq<Level>, step: real, tick: real)
    requires tick > 0.0
  {
    |g| <= 1 || g[|g| - 1].price <= Up(LastSell(g), step, tick)
  }

  /** Re-centring a rising grid on rounded prices keeps it rising exactly when the buys do not
      outweigh the sells or the new top line fits, as it always does above a sell. */
  lemma RecentringKeepsOrder(g: seq<Level>, step: real, tick: real)
    requires Rising(g) && 0.0 <= step <= 1.0 && tick > 0.0 && AllRounded(g, tick)
    ensures Rising(Recentred(g, step, tick))
      <==> !Outweighs(CountOf(g, BuyLine), CountOf(g, SellLine)) || TopFits(g, step, tick)
    ensures g != [] && g[|g| - 1].mark == SellLine ==> TopFits(g, step, tick)
  {
    hide RoundPrice, Outweighs, CountOf, Rounded, Up, Down;
    if g != [] {
      var top, bottom := g[|g| - 1], g[0];
      assert top in g && bottom in g;
      RoundedIs(top.price, tick);
      RoundedIs(bottom.price, tick);
      DownFalls(bottom.price, step, tick);
      if top.mark == SellLine {
        UpRises(top.price, step, tick);
        assert LastSell(g) == top.price;
      }
      RisingAround(g, Level(SellLine, Up(LastSell(g), step, tick)), Level(BuyLine, Down(bottom.price, step, tick)));
    }
  }

  lemma RisingAround(g: seq<Level>, above: Level, below: Level)
    requires Rising(g) && g != []
    ensures Rising(g[1..] + [above]) <==> |g| <= 1 || g[|g| - 1].price <= above.price
    ensures below.price <= g[0].price ==> Rising([below] + g[..|g| - 1])
  {
    var r := g[1..] + [above];
    if |g| > 1 && Rising(r) { assert r[|g| - 2] == g[|g| - 1] && r[|g| - 1] == above; }
  }

  // ---------- a grid that loses its order ----------

  /** A three-line grid around 4 with steps of one half. */
  ghost function Small(): seq<Level> {
    Built([], 4.0, 2, 0.5, 1.0)
  }

  lemma SmallIs()
    ensures Small() == [Level(BuyLine, 2.0), Level(WaitLine, 4.0), Level(SellLine, 6.0)]
  {
    hide RoundPrice, Rounded, Buys, Sells;
    WholeIsRounded(2);
    WholeIsRounded(4);
    WholeIsRounded(6);
    RoundedIs(2.0, 1.0);
    RoundedIs(4.0, 1.0);
    RoundedIs(6.0, 1.0);
    assert Down(4.0, 0.5, 1.0) == 2.0 && Up(4.0, 0.5, 1.0) == 6.0;
    BuysNext(4.0, 0.5, 1.0, 1);
    BuysNext(2.0, 0.5, 1.0, 0);
    SellsNext(4.0, 0.5, 1.0, 1);
    SellsNext(6.0, 0.5, 1.0, 0);
  }

  /** The same grid after a fill at its top line and a close of 5: no line is left to sell. */
  ghost function Drained(): seq<Level> {
    [Level(BuyLine, 2.0), Level(BuyLine, 4.0), Level(WaitLine, 6.0)]
  }

  lemma DrainedIs()
    ensures Remarked([Level(BuyLine, 2.0), Level(WaitLine, 4.0), Level(SellLine, 6.0)], 6.0, 5.0, 50.0) == Drained()
  {
  }

  lemma DrainedHasNoSell()
    ensures CountOf(Drained(), BuyLine) == 2 && CountOf(Drained(), SellLine) == 0 && LastSell(Drained()) == 0.0
  {
    var g := [Level(BuyLine, 2.0)];
    NoLines();
    assert [] + [Level(BuyLine, 2.0)] == g && g + [Level(BuyLine, 4.0)] == Drained()[..2];
    assert Drained()[..2] + [Level(WaitLine, 6.0)] == Drained();
    hide CountOf, LastSell;
    LinesPush([], Level(BuyLine, 2.0));
    LinesPush(g, Level(BuyLine, 4.0));
    LinesPush(Drained()[..2], Level(WaitLine, 6.0));
  }

  /** An update can lose the price order of a grid that building gave: without a line to sell, the
      new top line lands at zero. */
  lemma RecentringCanBreakOrder()
    ensures var g := Recentred(Remarked(Small(), 6.0, 5.0, 50.0), 0.5, 1.0);
      && g == [Level(BuyLine, 4.0), Level(WaitLine, 6.0), Level(SellLine, 0.0)]
      && Rising(Small()) && !Rising(g)
  {
    hide RoundPrice, Remarked, CountOf, LastSell;
    SmallIs();
    DrainedIs();
    DrainedHasNoSell();
    RoundPriceOfZero(1.0);
    var g := Recentred(Drained(), 0.5, 1.0);
    assert g == [Level(BuyLine, 4.0), Level(WaitLine, 6.0), Level(SellLine, 0.0)];
    assert g[1].price > g[2].price;
  }

  lemma WholeIsRounded(k: nat)
    ensures Rounded(k as real, 1.0)
  {
    RoundToSnaps(k as real, k, 1.0);
    RoundToSnaps(k as real, k * 10000000000, TEN_DECIMALS);
  }

  lemma NoLines()
    ensures forall m :: CountOf([], m) == 0
    ensures LastSell([]) == 0.0
  {
  }

  lemma LinesPush(g: seq<Level>, l: Level)
    ensures forall m :: CountOf(g + [l], m) == CountOf(g, m) + Count(l.mark == m)
    ensures LastSell(g + [l]) == if l.mark == SellLine then l.price else LastSell(g)
  {
    forall m ensures CountOf(g + [l], m) == CountOf(g, m) + Count(l.mark == m) { OccurrencesPush(g, l, MarkOf, m); }
    assert (g + [l])[..|g|] == g;
  }

  // ---------- the grid object ----------

  function MinPrice(g: seq<Level>): (p: real)
    requires g != []
    ensures (forall l <- g :: p <= l.price) && exists l <- g :: l.price == p
  {
    if |g| == 1 then g[0].price
    else
      var p := MinPrice(g[1..]);
      assert g == [g[0]] + g[1..];
      if g[0].price <= p then g[0].price else p
  }

  function MaxPrice(g: seq<Level>): (p: real)
    requires g != []
    ensures (forall l <- g :: p >= l.price) && exists l <- g :: l.price == p
  {
    if |g| == 1 then g[0].price
    else
      var p := MaxPrice(g[1..]);
      assert g == [g[0]] + g[1..];
      if g[0].price >= p then g[0].price else p
  }

  /** The grid that marking starts from: the old one while the close lies inside it, a new one
      otherwise. A close of zero builds nothing. */
  function Base(g: seq<Level>, close: real, n: int, step: real, tick: real): seq<Level>
    requires tick > 0.0 && g != []
  {
    if MinPrice(g) < close < MaxPrice(g) then g else if close == 0.0 then [] else Built([], close, n, step, tick)
  }

  /** The old grid is kept exactly while the close lies strictly between two of its lines. */
  lemma BaseIsKeptInside(g: seq<Level>, close: real, n: int, step: real, tick: real)
    requires tick > 0.0 && g != []
    ensures (exists l <- g, h <- g :: l.price < close < h.price) ==> Base(g, close, n, step, tick) == g
    ensures (forall l <- g :: l.price >= close) || (forall h <- g :: h.price <= close) ==>
      Base(g, close, n, step, tick) == if close == 0.0 then [] else Built([], close, n, step, tick)
  {
  }

  ghost predicate SamePrices(g: seq<Level>, h: seq<Level>) {
    |g| == |h| && forall i :: 0 <= i < |g| ==> g[i].price == h[i].price
  }

  class Greed {
    const count: int
    const stepPercent: real
    const tick: real
    var levels: seq<Level>

    constructor (count: int, stepPercent: real, tick: real)
      ensures this.count == count && this.stepPercent == stepPercent && this.tick == tick && levels == []
    {
      this.count, this.stepPercent, this.tick, levels := count, stepPercent, tick, [];
    }

    /** The step as a fraction. */
    function Step(): real {
      stepPercent / 100.0
    }

    method BuildGreed(lastClose: Option<real>)
      requires tick > 0.0
      modifies this
      ensures lastClose.None? || lastClose.value == 0.0 ==> levels == old(levels)
      ensures lastClose.Some? && lastClose.value != 0.0 ==>
        levels == Built(old(levels), lastClose.value, count, Step(), tick)
    {
      if lastClose.None? || lastClose.value == 0.0 {
        return;
      }
      hide RoundPrice;
      var close, step, half := lastClose.value, Step(), Half(count);
      levels := levels + [Level(WaitLine, RoundPrice(close, tick))];
      var price := close;
      ghost var start := levels;
      for i := 0 to half
        invariant levels + Sells(price, step, tick, half - i) == start + Sells(close, step, tick, half)
      {
        price := Up(price, step, tick);
        levels := levels + [Level(SellLine, price)];
      }
      assert Sells(price, step, tick, 0) == [];
      assert levels == start + Sells(close, step, tick, half);
      ghost var upper := levels;
      price := close;
      for i := 0 to half
        invariant Buys(price, step, tick, half - i) + levels == Buys(close, step, tick, half) + upper
      {
        price := Down(price, step, tick);
        levels := [Level(BuyLine, price)] + levels;
      }
      assert Buys(price, step, tick, 0) == [];
      assert levels == Buys(close, step, tick, half)
        + (old(levels) + [Level(WaitLine, RoundPrice(close, tick))] + Sells(close, step, tick, half));
    }

    method RebuildGreed(lastClose: Option<real>)
      requires tick > 0.0
      modifies this
      ensures levels
           == if lastClose.None? || lastClose.value == 0.0 then [] else Built([], lastClose.value, count, Step(), tick)
    {
      levels := [];
      BuildGreed(lastClose);
    }

    /** Marks every line; a line at price zero divides by zero. */
    method MarkLines(filled: real, close: real) returns (r: Result<()>)
      modifies this
      ensures r.Err? <==> exists l <- old(levels) :: l.price == 0.0
      ensures r.Ok? ==> levels == Remarked(old(levels), filled, close, stepPercent)
      ensures r.Err? ==> r.error == ZeroPrice
      ensures SamePrices(levels, old(levels))
      ensures r.Ok? ==> forall k :: 0 <= k < |levels| && levels[k].price > 0.0 ==>
        var p := levels[k].price;
        levels[k].mark == if 400.0 * Abs(p - filled) < stepPercent * p then WaitLine
                          else if close < p then SellLine else if close > p then BuyLine
                          else old(levels)[k].mark
    {
      hide IsTooClose;
      for i := 0 to |levels|
        invariant |levels| == |old(levels)|
        invariant forall k ::
          0 <= k < i ==> old(levels)[k].price != 0.0 && levels[k] == Marked(old(levels)[k], filled, close, stepPercent)
        invariant forall k :: i <= k < |levels| ==> levels[k] == old(levels)[k]
      {
        var greed := levels[i];
        if greed.price == 0.0 {
          assert old(levels)[i] in old(levels);
          return Err(ZeroPrice);
        }
        if IsTooClose(greed.price, filled, stepPercent) {
          levels := levels[i := greed.(mark := WaitLine)];
        } else if close < greed.price {
          levels := levels[i := greed.(mark := SellLine)];
        } else if close > greed.price {
          levels := levels[i := greed.(mark := BuyLine)];
        }
      }
      forall k | 0 <= k < |levels| && levels[k].price > 0.0
        ensures IsTooClose(levels[k].price, filled, stepPercent)
          <==> 400.0 * Abs(levels[k].price - filled) < stepPercent * levels[k].price
      {
        TooCloseIsAQuarterStep(levels[k].price, filled, stepPercent);
      }
      return Ok(());
    }

    /** One pass: how many lines of either kind, and the last sell's price. */
    method CountLines() returns (buyCount: nat, sellCount: nat, highestSellPrice: real)
      ensures buyCount == CountOf(levels, BuyLine) && sellCount == CountOf(levels, SellLine)
      ensures highestSellPrice == LastSell(levels)
    {
      hide CountOf;
      buyCount, sellCount, highestSellPrice := 0, 0, 0.0;
      NoLines();
      assert levels[..0] == [];
      for i := 0 to |levels|
        invariant buyCount == CountOf(levels[..i], BuyLine) && sellCount == CountOf(levels[..i], SellLine)
        invariant highestSellPrice == LastSell(levels[..i])
      {
        var greed := levels[i];
        assert levels[..i + 1] == levels[..i] + [greed];
        LinesPush(levels[..i], greed);
        if greed.mark == BuyLine {
          buyCount := buyCount + 1;
        } else if greed.mark == SellLine {
          sellCount := sellCount + 1;
          highestSellPrice := greed.price;
        }
      }
      assert levels[..|levels|] == levels;
    }

    method CenterGreed()
      requires tick > 0.0
      modifies this
      ensures levels == Recentred(old(levels), Step(), tick)
      ensures var buys, sells := CountOf(old(levels), BuyLine), CountOf(old(levels), SellLine);
        && (10 * (buys - sells) > 3 * (buys + sells) ==>
              && |levels| == |old(levels)| > 0 && levels[..|levels| - 1] == old(levels)[1..]
              && levels[|levels| - 1].mark == SellLine)
        && (10 * (sells - buys) > 3 * (buys + sells) ==>
              && |levels| == |old(levels)| > 0 && levels[1..] == old(levels)[..|levels| - 1]
              && levels[0].mark == BuyLine)
        && (10 * (buys - sells) <= 3 * (buys + sells) && 10 * (sells - buys) <= 3 * (buys + sells) ==>
              levels == old(levels))
    {
      hide RoundPrice, CountOf;
      ThreeTenths(CountOf(levels, BuyLine), CountOf(levels, SellLine));
      ThreeTenths(CountOf(levels, SellLine), CountOf(levels, BuyLine));
      NoLines();
      var lowestBuyPrice := if levels != [] then levels[0].price else 0.0;
      var buyCount, sellCount, highestSellPrice := CountLines();
      var totalCount := buyCount + sellCount;
      if totalCount == 0 {
        return;
      }
      if (buyCount as real - sellCount as real) / totalCount as real > 0.3 {
        levels := levels[1..] + [Level(SellLine, Up(highestSellPrice, Step(), tick))];
      } else if (sellCount as real - buyCount as real) / totalCount as real > 0.3 {
        levels := [Level(BuyLine, Down(lowestBuyPrice, Step(), tick))] + levels[..|levels| - 1];
      }
    }

    /** Rebuilds when the close has left the grid, re-marks, re-centres. An empty grid has no lowest
        price to compare with. */
    method UpdateGreed(lastFilled: Option<real>, lastClose: Option<real>) returns (r: Result<()>)
      requires tick > 0.0
      modifies this
      ensures lastFilled.None? || lastClose.None? ==> r.Ok? && levels == old(levels)
      ensures lastFilled.Some? && lastClose.Some? && old(levels) == [] ==> r == Err(EmptyGrid) && levels == []
      ensures lastFilled.Some? && lastClose.Some? && old(levels) != [] ==>
        var base := Base(old(levels), lastClose.value, count, Step(), tick);
        && (r.Err? <==> exists l <- base :: l.price == 0.0)
        && (r.Err? ==> r.error == ZeroPrice && SamePrices(levels, base))
        && (r.Ok? ==> levels == Recentred(Remarked(base, lastFilled.value, lastClose.value, stepPercent), Step(), tick))
    {
      hide RoundPrice, Built, Recentred;
      if lastFilled.None? || lastClose.None? {
        return Ok(());
      }
      var close := lastClose.value;
      if levels == [] {
        return Err(EmptyGrid);
      }
      if !(MinPrice(levels) < close < MaxPrice(levels)) {
        RebuildGreed(lastClose);
      }
      r := MarkLines(lastFilled.value, close);
      if r.Err? {
        return;
      }
      CenterGreed();
    }
  }

  /** One update of a strictly rising grid with the close inside it: the same number of lines, no
      sell below a buy, and still rising exactly when re-centring has nothing to put on top or what
      it puts there fits. */
  lemma UpdateKeepsGrid(g: seq<Level>, filled: real, close: real, stepPercent: real, tick: real)
    requires 0.0 <= stepPercent <= 100.0 && tick > 0.0
    requires StrictlyRising(g) && AllRounded(g, tick) && (forall l <- g :: l.price != 0.0)
    ensures var marked := Remarked(g, filled, close, stepPercent);
      var updated := Recentred(marked, stepPercent / 100.0, tick);
      && |updated| == |g| && NoSellBelowBuy(updated)
      && (Rising(updated)
          <==> || !Outweighs(CountOf(marked, BuyLine), CountOf(marked, SellLine))
               || TopFits(marked, stepPercent / 100.0, tick))
  {
    hide Rounded, RoundPrice, Recentred, Marked, Outweighs, CountOf, TopFits;
    var marked := Remarked(g, filled, close, stepPercent);
    RemarkingSeparates(g, filled, close, stepPercent);
    RecentringKeepsMarks(marked, stepPercent / 100.0, tick);
    forall l | l in marked ensures Rounded(l.price, tick) {
      var i :| 0 <= i < |marked| && marked[i] == l;
      assert g[i] in g;
    }
    RecentringKeepsOrder(marked, stepPercent / 100.0, tick);
  }

  /** The same loss on the object: the first update succeeds and leaves a line at zero, on which the
      next update inside the grid fails. */
  method LoseOrder() returns (grid: Greed, first: Result<()>, second: Result<()>)
    ensures first.Ok? && second == Err(ZeroPrice)
    ensures |grid.levels| == 3 && !Rising(grid.levels)
  {
    hide RoundPrice, Remarked, Recentred, Built, Base;
    grid := new Greed(2, 50.0, 1.0);
    grid.BuildGreed(Some(4.0));
    SmallIs();
    RecentringCanBreakOrder();
    BaseOfThree(grid.levels, 5.0);
    first := grid.UpdateGreed(Some(6.0), Some(5.0));
    BaseOfThree(grid.levels, 5.0);
    second := grid.UpdateGreed(Some(6.0), Some(5.0));
    assert grid.levels[1].price > grid.levels[2].price;
  }

  lemma BaseOfThree(g: seq<Level>, close: real)
    requires |g| == 3
    requires exists l <- g :: l.price < close
    requires exists l <- g :: l.price > close
    ensures Base(g, close, 2, 0.5, 1.0) == g
  {
    hide RoundPrice;
  }
}
