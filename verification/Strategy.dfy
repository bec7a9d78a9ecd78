/** The grid engine and the quantity calculator, seen from the runner: they answer each event
    with any list of intents and may size orders in any way. */
module Strategy {
  import opened Common
  import opened OrderBook

  datatype Intent =
    | PlaceLimit(clientId: string, symbol: string, side: Side, price: real, qty: real, direction: Direction,
                 reduceOnly: bool)
    | CancelLimit(orderId: string)

  /** What a client id stands for: the id is a digest of symbol, side, price and direction. */
  type Identity = string -> (Side, Direction)

  type Sizing = Option<(Intent, real) -> real>

  /** Reduce-only means closing: selling a long or buying back a short. */
  ghost predicate Conforming(identity: Identity, i: Intent) {
    i.PlaceLimit? ==>
      i.price > 0.0 && identity(i.clientId) == (i.side, i.direction) && i.reduceOnly == !IsOpening(i.direction, i.side)
  }

  ghost predicate OrderConforms(identity: Identity, o: Order) {
    o.price > 0.0 && identity(o.clientId) == (o.side, o.direction) && o.reduceOnly == !IsOpening(o.direction, o.side)
  }

  ghost predicate AllConform(identity: Identity, orders: seq<Order>) {
    forall o <- orders :: OrderConforms(identity, o)
  }

  /** What the strategy will answer and how it sizes orders from now on. */
  datatype Script = Script(responses: seq<seq<Intent>>, sizings: seq<Sizing>, sizing: Sizing)

  function Answer(s: Script): seq<Intent> {
    if s.responses == [] then [] else s.responses[0]
  }

  /** The script after one event. */
  function Asked(s: Script): Script {
    Script(
      if s.responses == [] then [] else s.responses[1..],
      if s.sizings == [] then [] else s.sizings[1..],
      if s.sizings == [] then s.sizing else s.sizings[0])
  }

  /** The script after several events. */
  ghost function AskedTimes(s: Script, n: nat): Script {
    if n == 0 then s else Asked(AskedTimes(s, n - 1))
  }

  /** Events are answered in the order of the script. */
  lemma {:induction false} AnswersInOrder(s: Script, n: nat)
    ensures AskedTimes(s, n).responses == if n <= |s.responses| then s.responses[n..] else []
    ensures Answer(AskedTimes(s, n)) == if n < |s.responses| then s.responses[n] else []
    ensures AskedTimes(s, n).sizing
         == if n == 0 || s.sizings == [] then s.sizing
            else if n <= |s.sizings| then s.sizings[n - 1] else s.sizings[|s.sizings| - 1]
    ensures AskedTimes(s, n).sizings == if n <= |s.sizings| then s.sizings[n..] else []
  {
    if n > 0 { AnswersInOrder(s, n - 1); }
  }

  /** Quantity placed for an intent at the given wallet balance. */
  function Sized(sizing: Sizing, i: Intent, balance: real): real
    requires i.PlaceLimit?
  {
    if sizing.Some? then sizing.value(i, balance) else i.qty
  }

  /** Answers come from a script fixed in advance but otherwise unrestricted, so what holds for
      every script holds for every strategy. */
  class GridEngine {
    ghost const identity: Identity
    var responses: seq<seq<Intent>>
    var sizings: seq<Sizing>
    var sizing: Sizing

    ghost predicate Valid()
      reads this
    {
      forall r <- responses, i <- r :: Conforming(identity, i)
    }

    function View(): Script
      reads this
    {
      Script(responses, sizings, sizing)
    }

    constructor (ghost identity: Identity, responses: seq<seq<Intent>>, sizings: seq<Sizing>)
      requires forall r <- responses, i <- r :: Conforming(identity, i)
      ensures Valid() && this.identity == identity && View() == Script(responses, sizings, None)
    {
      this.identity, this.responses, this.sizings, sizing := identity, responses, sizings, None;
    }

    method OnEvent() returns (intents: seq<Intent>)
      requires Valid()
      modifies this
      ensures Valid() && forall i <- intents :: Conforming(identity, i)
      ensures intents == Answer(old(View())) && View() == Asked(old(View()))
    {
      if responses == [] {
        intents := [];
      } else {
        intents := responses[0];
        responses := responses[1..];
      }
      if sizings != [] {
        sizing, sizings := sizings[0], sizings[1..];
      }
    }

    /** Quantity the executor places for an intent at the given wallet balance. */
    function Quantity(i: Intent, balance: real): real
      requires i.PlaceLimit?
      reads this
    {
      Sized(sizing, i, balance)
    }
  }
}
