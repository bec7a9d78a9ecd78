/**
 The steady-state position fetch: one account per tick, round robin, no account more often than its
 time floor allows. Times are seconds of a monotonic clock.
 */
module PositionFetcher {
  import opened Common

  const TICK_BASE := 15.0

  /** When each account was last fetched, and where the rotation stands. */
  datatype Rotation = Rotation(last: map<string, real>, index: nat)

  /** Clock readings of one tick: before choosing an account and after the fetch, which may raise. */
  datatype Clock = Clock(now: real, done: real)

  function Floor(interval: real, accounts: seq<string>): real {
    var base := |accounts| as real * TICK_BASE;
    if interval >= base then interval else base
  }

  /** An account never fetched is always eligible. */
  predicate Eligible(s: Rotation, account: string, now: real, floor: real) {
    account !in s.last || now - s.last[account] >= floor
  }

  /** The account `offset` places after the start of the rotation. */
  function Place(s: Rotation, n: nat, offset: nat): (i: nat)
    requires n > 0
    ensures i < n
  {
    (s.index % n + offset) % n
  }

  /** First eligible account at or after `offset` places from the start. */
  function Pick(s: Rotation, accounts: seq<string>, now: real, floor: real, offset: nat): (r: Option<nat>)
    requires accounts != [] && offset <= |accounts|
    ensures r.Some? ==> r.value < |accounts| && Eligible(s, accounts[r.value], now, floor)
    decreases |accounts| - offset
  {
    if offset == |accounts| then None
    else if Eligible(s, accounts[Place(s, |accounts|, offset)], now, floor) then Some(Place(s, |accounts|, offset))
    else Pick(s, accounts, now, floor, offset + 1)
  }

  /** Nobody is picked only when nobody is eligible. */
  lemma NobodyEligible(s: Rotation, accounts: seq<string>, now: real, floor: real)
    requires accounts != [] && Pick(s, accounts, now, floor, 0) == None
    ensures forall i :: 0 <= i < |accounts| ==> !Eligible(s, accounts[i], now, floor)
  {
    forall i | 0 <= i < |accounts| ensures !Eligible(s, accounts[i], now, floor) {
      if Eligible(s, accounts[i], now, floor) { PickIsNearest(s, accounts, now, floor, 0, i); }
    }
  }

  /** The account one tick fetches. */
  function Fetched(s: Rotation, accounts: seq<string>, floor: real, t: Clock): (r: Option<nat>)
    ensures r.Some? ==> r.value < |accounts| && Eligible(s, accounts[r.value], t.now, floor)
  {
    if accounts == [] then None else Pick(s, accounts, t.now, floor, 0)
  }

  /** The rotation after one tick. A fetch that raises counts like one that succeeds. */
  function Step(s: Rotation, accounts: seq<string>, floor: real, t: Clock): Rotation {
    match Fetched(s, accounts, floor, t)
    case None => s
    case Some(i) => Rotation(s.last[accounts[i] := t.done], (i + 1) % |accounts|)
  }

  /** The rotation before tick `k`. */
  function Before(s: Rotation, accounts: seq<string>, floor: real, ticks: seq<Clock>, k: nat): Rotation
    requires k <= |ticks|
  {
    if k == 0 then s else Step(Before(s, accounts, floor, ticks, k - 1), accounts, floor, ticks[k - 1])
  }

  function FetchedAt(s: Rotation, accounts: seq<string>, floor: real, ticks: seq<Clock>, k: nat): Option<nat>
    requires k < |ticks|
  {
    Fetched(Before(s, accounts, floor, ticks, k), accounts, floor, ticks[k])
  }

  /** A clock that does not run backwards. */
  ghost predicate Monotonic(ticks: seq<Clock>) {
    && (forall k :: 0 <= k < |ticks| ==> ticks[k].now <= ticks[k].done)
    && (forall j, k :: 0 <= j < k < |ticks| ==> ticks[j].done <= ticks[k].now)
  }

  ghost predicate AccountsDiffer(accounts: seq<string>) {
    forall i, j :: 0 <= i < j < |accounts| ==> accounts[i] != accounts[j]
  }

  // ---------- no account too often ----------

  /** After an account was fetched its mark never goes back. */
  lemma {:induction false} MarkStays(s: Rotation, accounts: seq<string>, floor: real, ticks: seq<Clock>, j: nat, k: nat,
                                     i: nat)
    requires Monotonic(ticks) && j < k <= |ticks| && FetchedAt(s, accounts, floor, ticks, j) == Some(i)
    ensures i < |accounts|
    ensures var b := Before(s, accounts, floor, ticks, k); accounts[i] in b.last && b.last[accounts[i]] >= ticks[j].done
  {
    hide Fetched;
    if k > j + 1 {
      MarkStays(s, accounts, floor, ticks, j, k - 1, i);
      assert ticks[j].done <= ticks[k - 1].now;
    }
  }

  /** Two fetches of one account are at least the floor apart, whatever was fetched in between and
      whether or not either raised. */
  lemma FetchesAreFloorApart(s: Rotation, accounts: seq<string>, floor: real, ticks: seq<Clock>, j: nat, k: nat, i: nat)
    requires Monotonic(ticks) && j < k < |ticks|
    requires FetchedAt(s, accounts, floor, ticks, j) == FetchedAt(s, accounts, floor, ticks, k) == Some(i)
    ensures ticks[k].now - ticks[j].done >= floor
  {
    MarkStays(s, accounts, floor, ticks, j, k, i);
  }

  // ---------- every eligible account soon ----------

  /** Places from the start of the rotation to account `a`. */
  function Distance(s: Rotation, n: nat, a: nat): (d: nat)
    requires a < n
    ensures d < n && Place(s, n, d) == a
  {
    var start := s.index % n;
    var d := if a >= start then a - start else a + n - start;
    Wrap(start + d, n);
    d
  }

  lemma Wrap(x: nat, n: nat)
    requires n > 0 && x < 2 * n
    ensures x % n == if x < n then x else x - n
  {
  }

  /** The account picked is the nearest eligible one. */
  lemma {:induction false} PickIsNearest(s: Rotation, accounts: seq<string>, now: real, floor: real, offset: nat,
                                         a: nat)
    requires a < |accounts| && offset <= Distance(s, |accounts|, a) && Eligible(s, accounts[a], now, floor)
    ensures var r := Pick(s, accounts, now, floor, offset);
      r.Some? && offset <= Distance(s, |accounts|, r.value) <= Distance(s, |accounts|, a)
    decreases |accounts| - offset
  {
    var n := |accounts|;
    hide Eligible;
    if !Eligible(s, accounts[Place(s, n, offset)], now, floor) {
      PickIsNearest(s, accounts, now, floor, offset + 1, a);
    } else {
      PlaceIsUnique(s, n, offset);
    }
  }

  lemma PlaceIsUnique(s: Rotation, n: nat, offset: nat)
    requires offset < n
    ensures Distance(s, n, Place(s, n, offset)) == offset
  {
    Wrap(s.index % n + offset, n);
  }

  /** Moving past a nearer account brings the rotation closer. */
  lemma Closer(s: Rotation, n: nat, picked: nat, a: nat, s': Rotation)
    requires picked < n && a < n && Distance(s, n, picked) < Distance(s, n, a) && s'.index == (picked + 1) % n
    ensures Distance(s', n, a) < Distance(s, n, a)
  {
    Wrap(picked + 1, n);
    Wrap(s'.index, n);
  }

  /** An account that was not picked is as eligible on the next tick. */
  lemma StillEligible(s: Rotation, accounts: seq<string>, floor: real, t: Clock, a: nat, later: real)
    requires AccountsDiffer(accounts) && a < |accounts| && Eligible(s, accounts[a], t.now, floor) && t.now <= later
    requires Fetched(s, accounts, floor, t) != Some(a)
    ensures Eligible(Step(s, accounts, floor, t), accounts[a], later, floor)
  {
    hide Fetched;
  }

  /** Fairness: an eligible account is fetched within as many further ticks as it is places away,
      hence within one full turn. */
  lemma {:induction false} FetchedSoon(s: Rotation, accounts: seq<string>, floor: real, ticks: seq<Clock>, k: nat,
                                       a: nat)
    returns (j: nat)
    requires Monotonic(ticks) && AccountsDiffer(accounts) && a < |accounts| && k < |ticks|
    requires k + Distance(Before(s, accounts, floor, ticks, k), |accounts|, a) < |ticks|
    requires Eligible(Before(s, accounts, floor, ticks, k), accounts[a], ticks[k].now, floor)
    ensures k <= j <= k + Distance(Before(s, accounts, floor, ticks, k), |accounts|, a) < |ticks|
    ensures FetchedAt(s, accounts, floor, ticks, j) == Some(a)
    decreases |ticks| - k
  {
    hide Pick, Distance, Eligible, AccountsDiffer;
    var b := Before(s, accounts, floor, ticks, k);
    PickIsNearest(b, accounts, ticks[k].now, floor, 0, a);
    var picked := FetchedAt(s, accounts, floor, ticks, k).value;
    if picked == a {
      j := k;
    } else {
      OtherPlace(b, |accounts|, picked, a);
      Closer(b, |accounts|, picked, a, Before(s, accounts, floor, ticks, k + 1));
      StillEligible(b, accounts, floor, ticks[k], a, ticks[k + 1].now);
      j := FetchedSoon(s, accounts, floor, ticks, k + 1, a);
    }
  }

  lemma OtherPlace(s: Rotation, n: nat, a: nat, b: nat)
    requires a < n && b < n && a != b
    ensures Distance(s, n, a) != Distance(s, n, b)
  {
  }

  // ---------- the fetcher ----------

  class PositionFetcher {
    const accounts: seq<string>
    const checkInterval: real
    var lastPositionFetch: map<string, real>
    var rotationIndex: nat
    var errors: nat

    constructor (accounts: seq<string>, checkInterval: real)
      ensures this.accounts == accounts && this.checkInterval == checkInterval
      ensures View() == Rotation(map[], 0) && errors == 0
    {
      this.accounts, this.checkInterval := accounts, checkInterval;
      lastPositionFetch, rotationIndex, errors := map[], 0, 0;
    }

    function View(): Rotation
      reads this
    {
      Rotation(lastPositionFetch, rotationIndex)
    }

    /** One tick. `raises` says whether fetching the chosen account raises. */
    method FetchPositionsRotationTick(t: Clock, raises: bool) returns (fetched: Option<nat>)
      modifies this
      ensures fetched == Fetched(old(View()), accounts, Floor(checkInterval, accounts), t)
      ensures View() == Step(old(View()), accounts, Floor(checkInterval, accounts), t)
      ensures errors == old(errors) + if fetched.Some? && raises then 1 else 0
      ensures fetched.Some? ==>
        var account := accounts[fetched.value];
        && (account in old(lastPositionFetch) ==>
              && t.now - old(lastPositionFetch)[account] >= checkInterval
              && t.now - old(lastPositionFetch)[account] >= |accounts| as real * 15.0)
        && lastPositionFetch == old(lastPositionFetch)[account := t.done]
        && rotationIndex == if fetched.value + 1 == |accounts| then 0 else fetched.value + 1
      ensures fetched.None? ==> unchanged(this) && forall i :: 0 <= i < |accounts| ==>
        && accounts[i] in lastPositionFetch
        && (|| t.now - lastPositionFetch[accounts[i]] < checkInterval
            || t.now - lastPositionFetch[accounts[i]] < |accounts| as real * 15.0)
    {
      var n := |accounts|;
      if n == 0 {
        return None;
      }
      var floor := if checkInterval >= n as real * TICK_BASE then checkInterval else n as real * TICK_BASE;
      var startIdx := rotationIndex % n;
      for offset := 0 to n
        invariant View() == old(View()) && errors == old(errors)
        invariant Pick(View(), accounts, t.now, floor, 0) == Pick(View(), accounts, t.now, floor, offset)
      {
        var idx := (startIdx + offset) % n;
        var account := accounts[idx];
        if account in lastPositionFetch && t.now - lastPositionFetch[account] < floor {
          continue;
        }
        if raises {
          errors := errors + 1;
        }
        lastPositionFetch := lastPositionFetch[account := t.done];
        rotationIndex := (idx + 1) % n;
        Wrap(idx + 1, n);
        return Some(idx);
      }
      NobodyEligible(View(), accounts, t.now, floor);
      fetched := None;
    }
  }
}
