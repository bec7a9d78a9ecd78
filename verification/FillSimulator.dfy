/**
 When a simulated limit order fills: the four market-driven modes, and the transition state
 behind `last_cross`.
 */
module FillSimulator {
  import opened Common

  datatype FillMode = StrictCross | TradeThroughAtLimit | BookTouch | LastCross

  datatype Ticker = Ticker(symbol: string, lastPrice: real, bid1: real, ask1: real, exchangeTs: int, localTs: int)

  /** What makes two ticker events the same tick. */
  function Token(t: Ticker): (int, int) {
    (t.exchangeTs, t.localTs)
  }

  predicate StrictFill(side: Side, limit: real, price: real) {
    price > 0.0 && (if side == Buy then price < limit else price > limit)
  }

  predicate AtLimitFill(side: Side, limit: real, price: real) {
    price > 0.0 && (if side == Buy then price <= limit else price >= limit)
  }

  /** Non-positive book prices mean there is no book. */
  predicate BookFill(side: Side, limit: real, t: Ticker) {
    if side == Buy then (if t.ask1 > 0.0 then t.ask1 <= limit else AtLimitFill(side, limit, t.lastPrice))
    else (if t.bid1 > 0.0 then t.bid1 >= limit else AtLimitFill(side, limit, t.lastPrice))
  }

  /** The price moved from strictly beyond the limit to at or through it. */
  predicate Crosses(side: Side, limit: real, prev: real, curr: real) {
    if side == Buy then prev > limit && curr <= limit else prev < limit && curr >= limit
  }

  predicate Beyond(side: Side, limit: real, price: real) {
    if side == Buy then price > limit else price < limit
  }

  /** The fill decision of each mode; `prev` is the price before the current tick. */
  predicate Fires(mode: FillMode, prev: Option<real>, side: Side, limit: real, t: Ticker) {
    match mode
    case StrictCross => StrictFill(side, limit, t.lastPrice)
    case TradeThroughAtLimit => AtLimitFill(side, limit, t.lastPrice)
    case BookTouch => BookFill(side, limit, t)
    case LastCross => t.lastPrice > 0.0 && prev.Some? && Crosses(side, limit, prev.value, t.lastPrice)
  }

  /** What each mode compares, price by price: a strict fill needs a price past the limit, the others
      one that reaches it. A buy is filled at low prices and a sell at high ones; a book price counts
      only when there is a book, a crossing only when the price before was on the far side. */
  lemma ModesByPrice(mode: FillMode, prev: Option<real>, side: Side, limit: real, t: Ticker)
    ensures mode == StrictCross && side == Buy ==> (Fires(mode, prev, side, limit, t) <==> 0.0 < t.lastPrice < limit)
    ensures mode == StrictCross && side == Sell ==>
      (Fires(mode, prev, side, limit, t) <==> t.lastPrice > 0.0 && t.lastPrice > limit)
    ensures mode == TradeThroughAtLimit ==>
      (Fires(mode, prev, side, limit, t) <==> t.lastPrice > 0.0 && !Beyond(side, limit, t.lastPrice))
    ensures mode == LastCross ==>
      (Fires(mode, prev, side, limit, t) <==>
       prev.Some? && Beyond(side, limit, prev.value) && t.lastPrice > 0.0 && !Beyond(side, limit, t.lastPrice))
    ensures mode == BookTouch ==>
      var quote := if side == Buy then t.ask1 else t.bid1;
      (Fires(mode, prev, side, limit, t) <==>
       var price := if quote > 0.0 then quote else t.lastPrice; price > 0.0 && !Beyond(side, limit, price))
    ensures Beyond(Buy, limit, t.lastPrice) <==> t.lastPrice > limit
    ensures Beyond(Sell, limit, t.lastPrice) <==> t.lastPrice < limit
  {
  }

  /** A fire in strict or last-cross mode is one at the limit, and a strict fire is exactly one at the
      limit at another price than the limit. */
  lemma StricterModes(prev: Option<real>, side: Side, limit: real, t: Ticker)
    ensures Fires(LastCross, prev, side, limit, t) ==> Fires(TradeThroughAtLimit, prev, side, limit, t)
    ensures Fires(StrictCross, prev, side, limit, t) <==>
      Fires(TradeThroughAtLimit, prev, side, limit, t) && t.lastPrice != limit
  {
    ModesByPrice(StrictCross, prev, side, limit, t);
    ModesByPrice(TradeThroughAtLimit, prev, side, limit, t);
  }

  // ---------- crossings of a price path ----------

  /** A resting limit fires between the previous point of the path and point `k`. */
  predicate FiresAt(side: Side, limit: real, path: seq<real>, k: nat)
    requires k < |path|
  {
    k > 0 && Crosses(side, limit, path[k - 1], path[k])
  }

  /** No crossing is missed: from beyond the limit at `i` to reached at `j`, some point fires. */
  lemma {:induction false} CrossingIsCaught(side: Side, limit: real, path: seq<real>, i: nat, j: nat) returns (k: nat)
    requires i < j < |path| && Beyond(side, limit, path[i]) && !Beyond(side, limit, path[j])
    ensures i < k <= j && FiresAt(side, limit, path, k)
    decreases j - i
  {
    if Beyond(side, limit, path[j - 1]) {
      k := j;
    } else {
      k := CrossingIsCaught(side, limit, path, i, j - 1);
    }
  }

  /** No crossing is invented or repeated: the price was beyond the limit just before a fire, and
      between two fires it went back beyond the limit. */
  lemma FiresAreSeparated(side: Side, limit: real, path: seq<real>, i: nat, j: nat)
    requires i < j < |path| && FiresAt(side, limit, path, i) && FiresAt(side, limit, path, j)
    ensures exists k :: i < k < j && Beyond(side, limit, path[k])
  {
    assert Beyond(side, limit, path[j - 1]) && !Beyond(side, limit, path[i]);
  }

  /** A path has as many fires as it has maximal stretches of reached points entered from beyond. */
  ghost function FireCount(side: Side, limit: real, path: seq<real>): nat {
    if path == [] then 0
    else FireCount(side, limit, path[..|path| - 1]) + if FiresAt(side, limit, path, |path| - 1) then 1 else 0
  }

  /** Fires and returns alternate: over any path, the number of fires exceeds the number of times
      the price came back beyond the limit by at most one. */
  ghost function Returns(side: Side, limit: real, path: seq<real>): nat {
    if |path| <= 1 then 0
    else
      var n := |path| - 1;
      Returns(side, limit, path[..n])
        + if !Beyond(side, limit, path[n - 1]) && Beyond(side, limit, path[n]) then 1 else 0
  }

  lemma {:induction false} FiresAlternateWithReturns(side: Side, limit: real, path: seq<real>)
    requires path != []
    ensures FireCount(side, limit, path) - Returns(side, limit, path)
         == (if Beyond(side, limit, path[0]) then 1 else 0) - (if Beyond(side, limit, path[|path| - 1]) then 1 else 0)
  {
    if |path| > 1 {
      var n := |path| - 1;
      FiresAlternateWithReturns(side, limit, path[..n]);
      assert path[..n][n - 1] == path[n - 1];
    }
  }

  // ---------- the simulator ----------

  function Get<K, V>(m: map<K, V>, k: K): Option<V> {
    if k in m then Some(m[k]) else None
  }

  /** What the three slots of one symbol hold after the prices in `path`. */
  ghost predicate SlotsDescribe(last: Option<real>, prev: Option<Option<real>>, token: Option<(int, int)>,
                                path: seq<real>) {
    if path == [] then last == None && prev == None && token == None
    else
      && last == Some(path[|path| - 1])
      && prev == Some(if |path| == 1 then None else Some(path[|path| - 2]))
      && token.Some?
  }

  lemma TickDescribes(last: Option<real>, prev: Option<Option<real>>, token: Option<(int, int)>, path: seq<real>,
                      t: Ticker)
    requires SlotsDescribe(last, prev, token, path)
    ensures SlotsDescribe(Some(t.lastPrice), Some(last), Some(Token(t)), path + [t.lastPrice])
  {
  }

  /** What a simulator has seen: the accepted prices of each symbol, oldest first, and the tick it saw
      last. */
  datatype Market = Market(path: map<string, seq<real>>, token: map<string, (int, int)>)

  ghost function PricesOf(m: Market, symbol: string): seq<real> {
    if symbol in m.path then m.path[symbol] else []
  }

  /** A tick without a price, and a second one of the same exchange and local time, is ignored. */
  ghost function Advanced(m: Market, t: Ticker): Market {
    if t.lastPrice <= 0.0 || Get(m.token, t.symbol) == Some((t.exchangeTs, t.localTs)) then m
    else
      Market(m.path[t.symbol := PricesOf(m, t.symbol) + [t.lastPrice]],
             m.token[t.symbol := (t.exchangeTs, t.localTs)])
  }

  /** The price before the last one. */
  ghost function PriceBefore(m: Market, symbol: string): Option<real> {
    var prices := PricesOf(m, symbol);
    if |prices| >= 2 then Some(prices[|prices| - 2]) else None
  }

  class TradeThroughFillSimulator {
    const mode: FillMode
    var prevLastPrice: map<string, real>
    var tickPrevLast: map<string, Option<real>>
    var tickToken: map<string, (int, int)>
    /** Prices of the accepted ticks of each symbol, oldest first. */
    ghost var path: map<string, seq<real>>

    ghost function PathOf(symbol: string): seq<real>
      reads this
    {
      if symbol in path then path[symbol] else []
    }

    ghost function View(): Market
      reads this
    {
      Market(path, tickToken)
    }

    /** The read slot holds the price before the current tick's. */
    ghost predicate Valid()
      reads this
    {
      forall s :: SlotsDescribe(Get(prevLastPrice, s), Get(tickPrevLast, s), Get(tickToken, s), PathOf(s))
    }

    constructor (mode: FillMode)
      ensures Valid() && this.mode == mode && path == map[]
    {
      this.mode := mode;
      prevLastPrice, tickPrevLast, tickToken, path := map[], map[], map[], map[];
    }

    /** The tick carries no price, or repeats the current tick of its symbol. */
    predicate Ignored(t: Ticker)
      reads this
    {
      t.lastPrice <= 0.0 || Get(tickToken, t.symbol) == Some(Token(t))
    }

    method AdvanceMarket(t: Ticker)
      requires Valid()
      modifies this
      ensures Valid() && View() == Advanced(old(View()), t)
      ensures PrevOf(t.symbol) == PriceBefore(View(), t.symbol)
      ensures old(Ignored(t)) ==> unchanged(this)
      ensures !old(Ignored(t)) ==> path == old(path)[t.symbol := old(PathOf(t.symbol)) + [t.lastPrice]]
      ensures !old(Ignored(t)) ==> tickToken == old(tickToken)[t.symbol := Token(t)]
    {
      hide SlotsDescribe;
      if t.lastPrice <= 0.0 {
        PrevIsBefore(t.symbol);
        return;
      }
      if Get(tickToken, t.symbol) == Some(Token(t)) {
        PrevIsBefore(t.symbol);
        return;
      }
      TickDescribes(Get(prevLastPrice, t.symbol), Get(tickPrevLast, t.symbol), Get(tickToken, t.symbol),
                    PathOf(t.symbol), t);
      tickPrevLast := tickPrevLast[t.symbol := Get(prevLastPrice, t.symbol)];
      prevLastPrice := prevLastPrice[t.symbol := t.lastPrice];
      tickToken := tickToken[t.symbol := Token(t)];
      path := path[t.symbol := PathOf(t.symbol) + [t.lastPrice]];
      forall s ensures SlotsDescribe(Get(prevLastPrice, s), Get(tickPrevLast, s), Get(tickToken, s), PathOf(s)) {
        if s != t.symbol {
          assert SlotsDescribe(old(Get(prevLastPrice, s)), old(Get(tickPrevLast, s)), old(Get(tickToken, s)),
                               old(PathOf(s)));
        }
      }
      PrevIsBefore(t.symbol);
    }

    /** The slot read by the fill decision holds the price before the last accepted one. */
    lemma PrevIsBefore(symbol: string)
      requires Valid()
      ensures PrevOf(symbol) == PriceBefore(View(), symbol)
    {
      assert SlotsDescribe(Get(prevLastPrice, symbol), Get(tickPrevLast, symbol), Get(tickToken, symbol),
                           PathOf(symbol));
    }

    /** Price before the current tick, when there is one. */
    function PrevOf(symbol: string): Option<real>
      reads this
    {
      if symbol in tickPrevLast then tickPrevLast[symbol] else None
    }

    predicate ShouldFill(side: Side, limit: real, t: Ticker)
      reads this
    {
      Fires(mode, PrevOf(t.symbol), side, limit, t)
    }

    /** Right after an accepted tick, the mode fires exactly when the recorded path does. */
    lemma LastCrossFiresOnCrossings(side: Side, limit: real, t: Ticker)
      requires Valid() && mode == LastCross && t.lastPrice > 0.0
      requires PathOf(t.symbol) != [] && PathOf(t.symbol)[|PathOf(t.symbol)| - 1] == t.lastPrice
      ensures ShouldFill(side, limit, t) <==> FiresAt(side, limit, PathOf(t.symbol), |PathOf(t.symbol)| - 1)
    {
      assert SlotsDescribe(Get(prevLastPrice, t.symbol), Get(tickPrevLast, t.symbol), Get(tickToken, t.symbol),
                           PathOf(t.symbol));
    }
  }
}
