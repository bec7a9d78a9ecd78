/** When funding is applied: once per visited (day, funding hour) slot. Times are microseconds. */
module Funding {
  import opened Common

  const HOUR := 3_600_000_000
  const FUNDING_HOURS: set<int> := {0, 8, 16}

  function HourOf(t: int): int {
    (t / HOUR) % 24
  }

  /** The hour of a particular day. */
  function Slot(t: int): int {
    t / HOUR
  }

  predicate InFundingHour(t: int) {
    HourOf(t) in FUNDING_HOURS
  }

  lemma EveryEighthHour(t: int)
    ensures InFundingHour(t) <==> (t / 3_600_000_000) % 8 == 0
  {
    ModTwentyFour(t / 3_600_000_000);
  }

  lemma ModTwentyFour(h: int)
    ensures h % 24 in {0, 8, 16} <==> h % 8 == 0
  {
    var r, k := h % 24, h / 8 - 3 * (h / 24);
    assert r == 8 * k + h % 8;
    assert k == 0 || k == 1 || k == 2;
  }

  predicate ShouldApply(last: Option<int>, t: int) {
    && InFundingHour(t)
    && !(last.Some? && t - last.value < 7 * HOUR && HourOf(last.value) == HourOf(t))
  }

  /** The seven-hour test is exact on a clock that does not run backwards: it refuses only a
      second application in the slot of the first. */
  lemma SevenHoursSeparateSlots(last: int, t: int)
    requires last <= t && InFundingHour(last)
    ensures ShouldApply(Some(last), t) <==> InFundingHour(t) && Slot(t) != Slot(last)
  {
    var a, b := Slot(last), Slot(t);
    assert a * HOUR <= last < (a + 1) * HOUR;
    assert b * HOUR <= t < (b + 1) * HOUR;
    if a % 24 == b % 24 && a < b {
      assert b - a >= 24 by { SameHourApart(a, b); }
    }
  }

  lemma SameHourApart(a: int, b: int)
    requires a < b && a % 24 == b % 24
    ensures b - a >= 24
  {
  }

  lemma SlotsAreOrdered(a: int, b: int)
    requires a <= b
    ensures Slot(a) <= Slot(b)
  {
  }

  predicate NonDecreasing(ticks: seq<int>) {
    forall i, j :: 0 <= i < j < |ticks| ==> ticks[i] <= ticks[j]
  }

  ghost function Done(last: Option<int>): set<int> {
    if last.Some? then {Slot(last.value)} else {}
  }

  /** Last application before tick `k`, when the run starts with `last`. */
  ghost function LastBefore(last: Option<int>, ticks: seq<int>, k: nat): Option<int>
    requires k <= |ticks|
    decreases k, 0
  {
    if k == 0 then last
    else if AppliedAt(last, ticks, k - 1) then Some(ticks[k - 1])
    else LastBefore(last, ticks, k - 1)
  }

  ghost predicate AppliedAt(last: Option<int>, ticks: seq<int>, k: nat)
    requires k < |ticks|
    decreases k, 1
  {
    ShouldApply(LastBefore(last, ticks, k), ticks[k])
  }

  ghost predicate StartsAfter(last: Option<int>, ticks: seq<int>) {
    last.Some? ==> InFundingHour(last.value) && forall k :: 0 <= k < |ticks| ==> last.value <= ticks[k]
  }

  lemma DueExactlyInNewSlots(last: Option<int>, t: int)
    requires last.Some? ==> InFundingHour(last.value) && last.value <= t
    ensures ShouldApply(last, t) <==> InFundingHour(t) && Slot(t) !in Done(last)
  {
    if last.Some? { SevenHoursSeparateSlots(last.value, t); }
  }

  lemma {:induction false} LastIsEarlier(last: Option<int>, ticks: seq<int>, k: nat)
    requires NonDecreasing(ticks) && StartsAfter(last, ticks) && k <= |ticks|
    ensures var l := LastBefore(last, ticks, k);
      l.Some? ==> InFundingHour(l.value) && forall j :: k <= j < |ticks| ==> l.value <= ticks[j]
  {
    if k > 0 { LastIsEarlier(last, ticks, k - 1); }
  }

  lemma SameSlotSameHour(a: int, b: int)
    requires Slot(a) == Slot(b)
    ensures InFundingHour(a) == InFundingHour(b)
  {
  }

  /** Before tick `k`, the slot of a later funding-hour time is done exactly when some tick was in it. */
  lemma {:induction false} DoneMeansVisited(last: Option<int>, ticks: seq<int>, k: nat, t: int)
    requires NonDecreasing(ticks) && StartsAfter(last, ticks) && k <= |ticks|
    requires InFundingHour(t) && (last.Some? ==> last.value <= t) && forall j :: 0 <= j < k ==> ticks[j] <= t
    ensures Slot(t) in Done(LastBefore(last, ticks, k)) <==>
      Slot(t) in Done(last) || exists j :: 0 <= j < k && Slot(ticks[j]) == Slot(t)
  {
    if k > 0 {
      hide Slot, InFundingHour, HourOf, ShouldApply;
      var n := k - 1;
      DoneMeansVisited(last, ticks, n, t);
      LastIsEarlier(last, ticks, n);
      DueExactlyInNewSlots(LastBefore(last, ticks, n), ticks[n]);
      if Slot(ticks[n]) == Slot(t) {
        SameSlotSameHour(ticks[n], t);
      } else {
        SlotsAreOrdered(ticks[n], t);
        if last.Some? { SlotsAreOrdered(last.value, ticks[n]); }
        forall j | 0 <= j < n ensures Slot(ticks[j]) <= Slot(ticks[n]) { SlotsAreOrdered(ticks[j], ticks[n]); }
      }
    }
  }

  /** Funding is applied at a tick exactly when it is the first tick of a funding slot. */
  lemma AppliedAtFirstTickOfSlot(last: Option<int>, ticks: seq<int>, k: nat)
    requires NonDecreasing(ticks) && StartsAfter(last, ticks) && k < |ticks|
    ensures AppliedAt(last, ticks, k) <==>
      && InFundingHour(ticks[k])
      && Slot(ticks[k]) !in Done(last)
      && forall j :: 0 <= j < k ==> Slot(ticks[j]) != Slot(ticks[k])
  {
    hide Slot, InFundingHour, ShouldApply;
    LastIsEarlier(last, ticks, k);
    DueExactlyInNewSlots(LastBefore(last, ticks, k), ticks[k]);
    if InFundingHour(ticks[k]) { DoneMeansVisited(last, ticks, k, ticks[k]); }
  }

  /** The funding slots visited by the first `k` ticks. */
  ghost function Visited(ticks: seq<int>, k: nat): set<int>
    requires k <= |ticks|
  {
    set j | 0 <= j < k && InFundingHour(ticks[j]) :: Slot(ticks[j])
  }

  ghost function Applications(last: Option<int>, ticks: seq<int>, k: nat): nat
    requires k <= |ticks|
  {
    if k == 0 then 0 else Applications(last, ticks, k - 1) + if AppliedAt(last, ticks, k - 1) then 1 else 0
  }

  lemma VisitedPush(ticks: seq<int>, n: nat)
    requires n < |ticks|
    ensures |Visited(ticks, n + 1)|
         == |Visited(ticks, n)| + if InFundingHour(ticks[n]) && Slot(ticks[n]) !in Visited(ticks, n) then 1 else 0
  {
    hide InFundingHour, Slot;
    if InFundingHour(ticks[n]) {
      assert Visited(ticks, n + 1) == Visited(ticks, n) + {Slot(ticks[n])};
    } else {
      assert Visited(ticks, n + 1) == Visited(ticks, n);
    }
  }

  lemma VisitedHas(ticks: seq<int>, n: nat)
    requires n < |ticks| && InFundingHour(ticks[n])
    ensures Slot(ticks[n]) in Visited(ticks, n) <==> exists j :: 0 <= j < n && Slot(ticks[j]) == Slot(ticks[n])
  {
    hide InFundingHour, Slot;
    forall j | 0 <= j < n && Slot(ticks[j]) == Slot(ticks[n]) ensures InFundingHour(ticks[j]) {
      SameSlotSameHour(ticks[j], ticks[n]);
    }
  }

  lemma NoneVisited(ticks: seq<int>)
    ensures Visited(ticks, 0) == {}
  {
  }

  lemma AppliedWhenNotVisited(ticks: seq<int>, n: nat)
    requires NonDecreasing(ticks) && n < |ticks|
    ensures AppliedAt(None, ticks, n) <==> InFundingHour(ticks[n]) && Slot(ticks[n]) !in Visited(ticks, n)
  {
    hide AppliedAt, InFundingHour, Slot, Visited;
    AppliedAtFirstTickOfSlot(None, ticks, n);
    if InFundingHour(ticks[n]) { VisitedHas(ticks, n); }
  }

  /** There are as many applications as distinct funding slots visited. */
  lemma {:induction false} ApplicationsCountSlots(ticks: seq<int>, k: nat)
    requires NonDecreasing(ticks) && k <= |ticks|
    ensures Applications(None, ticks, k) == |Visited(ticks, k)|
  {
    hide AppliedAt, InFundingHour, Slot, Visited;
    if k == 0 {
      NoneVisited(ticks);
    } else {
      var n := k - 1;
      ApplicationsCountSlots(ticks, n);
      VisitedPush(ticks, n);
      AppliedWhenNotVisited(ticks, n);
    }
  }

  class FundingSimulator {
    const rate: real
    var lastFundingTime: Option<int>
    ghost var applications: nat

    constructor (rate: real)
      ensures this.rate == rate && lastFundingTime == None && applications == 0
    {
      this.rate, lastFundingTime, applications := rate, None, 0;
    }

    /** Funding hours are every eighth hour; within seven hours of an application the same hour of the
        day is skipped. */
    predicate ShouldApplyFunding(t: int)
      reads this
      ensures ShouldApplyFunding(t) <==>
        && (t / 3_600_000_000) % 8 == 0
        && (lastFundingTime.Some? && t - lastFundingTime.value < 25_200_000_000 ==>
              (lastFundingTime.value / 3_600_000_000) % 24 != (t / 3_600_000_000) % 24)
    {
      EveryEighthHour(t);
      ShouldApply(lastFundingTime, t)
    }

    method MarkFundingApplied(t: int)
      modifies this
      ensures lastFundingTime == Some(t) && applications == old(applications) + 1
    {
      lastFundingTime := Some(t);
      applications := applications + 1;
    }
  }
}
