/** What several strategies' positions come to: booked profit, open profit, funding due. */
module Holdings {
  import opened Common
  import opened PositionTracker
  import opened ReplaySteps

  ghost function Sum(v: seq<real>): real {
    if v == [] then 0.0 else Sum(v[..|v| - 1]) + v[|v| - 1]
  }

  lemma SumPush(v: seq<real>, x: real)
    ensures Sum(v + [x]) == Sum(v) + x
  {
    assert (v + [x])[..|v|] == v;
  }

  lemma {:induction false} SumUpdate(v: seq<real>, k: nat, x: real)
    requires k < |v|
    ensures Sum(v[k := x]) == Sum(v) - v[k] + x
  {
    var n := |v| - 1;
    if k < n {
      SumUpdate(v[..n], k, x);
      assert v[k := x][..n] == v[..n][k := x];
    } else {
      assert v[k := x][..n] == v[..n];
    }
  }

  /** What both positions of a strategy have booked: profit less fees and funding. */
  ghost function Booked(p: Positions): real {
    p.long.realized - p.long.commissionPaid - p.long.fundingPaid
    + (p.short.realized - p.short.commissionPaid - p.short.fundingPaid)
  }

  ghost function Bookings(places: seq<Positions>): (r: seq<real>)
    ensures |r| == |places|
  {
    seq(|places|, i requires 0 <= i < |places| => Booked(places[i]))
  }

  /** The profit each strategy holds open at a price. */
  ghost function OpenProfits(places: seq<Positions>, price: real): (r: seq<real>)
    ensures |r| == |places|
  {
    seq(|places|, i requires 0 <= i < |places| => OpenProfit(places[i], price))
  }

  /** Profit of all strategies at a price: booked and open. */
  ghost function TotalAt(places: seq<Positions>, price: real): real {
    Sum(Bookings(places)) + Sum(OpenProfits(places, price))
  }

  /** What both positions receive when funding is applied. */
  ghost function Receives(p: Positions, rate: real, price: real): real {
    Payment(Long, p.long.size, rate, price) + Payment(Short, p.short.size, rate, price)
  }

  ghost function Dues(places: seq<Positions>, rate: real, price: real): (r: seq<real>)
    ensures |r| == |places|
  {
    seq(|places|, i requires 0 <= i < |places| => Receives(places[i], rate, price))
  }

  ghost function FundedPlace(p: Positions, rate: real, price: real): Positions {
    Positions(Charged(Long, p.long, rate, price), Charged(Short, p.short, rate, price))
  }

  /** The first `n` strategies have settled funding. */
  ghost function FundedPlaces(places: seq<Positions>, rate: real, price: real, n: nat): (r: seq<Positions>)
    ensures |r| == |places|
  {
    seq(|places|, i requires 0 <= i < |places| => if i < n then FundedPlace(places[i], rate, price) else places[i])
  }

  /** Where the strategies stand once funding, if any is due, is settled. */
  ghost function AfterFunding(places: seq<Positions>, funded: Option<real>, price: real): (r: seq<Positions>)
    ensures |r| == |places|
  {
    if funded.Some? then FundedPlaces(places, funded.value, price, |places|) else places
  }

  /** In money: longs pay, shorts receive, on their sizes at the price. */
  lemma FundedPlaceInMoney(p: Positions, rate: real, price: real)
    ensures var q := FundedPlace(p, rate, price);
      && q.long == p.long.(fundingPaid := p.long.fundingPaid + p.long.size * price * rate)
      && q.short == p.short.(fundingPaid := p.short.fundingPaid - p.short.size * price * rate)
    ensures Receives(p, rate, price) == (p.short.size - p.long.size) * price * rate
    ensures Booked(FundedPlace(p, rate, price)) == Booked(p) + Receives(p, rate, price)
  {
    hide Payment, Charged;
    LongsPayShortsReceive(p.long, rate, price);
    LongsPayShortsReceive(p.short, rate, price);
    NetFunding(p.long.size, p.short.size, rate, price);
  }

  /** What each strategy is long, net of what it is short. */
  ghost function NetSizes(places: seq<Positions>): (r: seq<real>)
    ensures |r| == |places| && forall i :: 0 <= i < |places| ==> r[i] == places[i].long.size - places[i].short.size
  {
    seq(|places|, i requires 0 <= i < |places| => places[i].long.size - places[i].short.size)
  }

  /** All strategies together pay on what they are net long. */
  lemma {:induction false} DuesAreOnNetSize(places: seq<Positions>, rate: real, price: real)
    ensures Sum(Dues(places, rate, price)) == -Sum(NetSizes(places)) * price * rate
  {
    hide Receives;
    if places != [] {
      var n := |places| - 1;
      var rest := places[..n];
      DuesAreOnNetSize(rest, rate, price);
      assert Dues(places, rate, price)[..n] == Dues(rest, rate, price) && NetSizes(places)[..n] == NetSizes(rest);
      FundedPlaceInMoney(places[n], rate, price);
      Spread(Sum(NetSizes(rest)), places[n].long.size - places[n].short.size, price, rate);
    }
  }

  lemma Spread(a: real, b: real, price: real, rate: real)
    ensures -(a + b) * price * rate == -a * price * rate + (-b) * price * rate
  {
  }

  /** What a strategy has booked and holds open at a price. */
  ghost function WorthOf(p: Positions, price: real): real {
    Booked(p) + OpenProfit(p, price)
  }

  lemma TotalUpdate(places: seq<Positions>, price: real, k: nat, p: Positions)
    requires k < |places|
    ensures TotalAt(places[k := p], price) == TotalAt(places, price) - WorthOf(places[k], price) + WorthOf(p, price)
  {
    hide Booked, OpenProfit;
    BookingsUpdate(places, k, p);
    SumUpdate(OpenProfits(places, price), k, OpenProfit(p, price));
    assert OpenProfits(places[k := p], price) == OpenProfits(places, price)[k := OpenProfit(p, price)];
  }

  lemma BookingsUpdate(places: seq<Positions>, k: nat, p: Positions)
    requires k < |places|
    ensures Sum(Bookings(places[k := p])) == Sum(Bookings(places)) - Booked(places[k]) + Booked(p)
  {
    SumUpdate(Bookings(places), k, Booked(p));
    assert Bookings(places[k := p]) == Bookings(places)[k := Booked(p)];
  }

  lemma FundingUpdates(places: seq<Positions>, rate: real, price: real, k: nat)
    requires k < |places|
    ensures var funded := FundedPlaces(places, rate, price, k);
      funded[k := FundedPlace(funded[k], rate, price)] == FundedPlaces(places, rate, price, k + 1)
    ensures FundedPlaces(places, rate, price, k)[k] == places[k]
  {
  }

  lemma NothingFunded(places: seq<Positions>, rate: real, price: real)
    ensures FundedPlaces(places, rate, price, 0) == places
  {
  }
}
