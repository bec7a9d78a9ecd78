/** What one simulated tick does to a strategy's market, order book and script, as functions. */
module Desks {
  import opened FillSimulator
  import opened OrderBook
  import opened OrderManager
  import opened Strategy
  import opened ReplaySteps

  /** Where a strategy's market, book and script stand. */
  datatype Desk = Desk(market: Market, book: Book, script: Script)

  /** The orders the market fills at a tick. */
  ghost function FilledAt(d: Desk, mode: FillMode, t: Ticker): seq<Order> {
    Filling(mode, PriceBefore(Advanced(d.market, t), t.symbol), t, d.book.active)
  }

  /** First half of a tick: the market moves and fills what it reaches; the grid is told of each fill. */
  ghost function Served(d: Desk, mode: FillMode, t: Ticker): Desk {
    var market := Advanced(d.market, t);
    Desk(market, AfterFills(d.book, mode, PriceBefore(market, t.symbol), t),
         AskedTimes(d.script, |FilledAt(d, mode, t)|))
  }

  /** Second half: the grid's answer to the tick is executed over the resting orders, each order sized
      at one balance. */
  ghost function Answered(d: Desk, p: Positions, balance: real): Desk {
    var script := Asked(d.script);
    d.(book := AfterIntents(d.book, Answer(d.script), p, script.sizing, balance), script := script)
  }

  /** The orders that were filled stay filled. */
  lemma AnsweredKeepsFilled(d: Desk, p: Positions, balance: real)
    ensures Answered(d, p, balance).book.filled == d.book.filled
  {
    IntentsKeepFilled(d.book, Answer(d.script), p, Asked(d.script).sizing, balance);
  }

  lemma {:induction false} IntentsKeepFilled(b: Book, intents: seq<Intent>, p: Positions, sizing: Sizing, balance: real)
    ensures AfterIntents(b, intents, p, sizing, balance).filled == b.filled
  {
    if intents != [] { IntentsKeepFilled(b, intents[..|intents| - 1], p, sizing, balance); }
  }

  lemma ServedAddsFilled(d: Desk, mode: FillMode, t: Ticker)
    ensures Served(d, mode, t).book.filled == d.book.filled + WithStatus(FilledAt(d, mode, t), Done)
  {
  }
}
