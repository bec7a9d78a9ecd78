/** Drawdown of a list of equity points, defined over all pairs and all runs of points. */
module Drawdown {

  /** Highest of a non-empty list. */
  ghost function Peak(p: seq<real>): real
    requires p != []
  {
    var last := p[|p| - 1];
    if |p| == 1 then last
    else if last >= Peak(p[..|p| - 1]) then last else Peak(p[..|p| - 1])
  }

  /** `d` is the largest drop from a point to a later one; standing still counts as zero. */
  ghost predicate IsMaxDrop(p: seq<real>, d: real) {
    && (forall i, j :: 0 <= i <= j < |p| ==> p[i] - p[j] <= d)
    && (exists i, j :: 0 <= i <= j < |p| && p[i] - p[j] == d)
  }

  /** Point `k` lies strictly below the highest point before it. */
  ghost predicate Below(p: seq<real>, k: nat)
    requires 0 < k < |p|
  {
    p[k] < Peak(p[..k])
  }

  /** All points from `a` up to `b` lie below the running peak. */
  ghost predicate BelowRun(p: seq<real>, a: nat, b: nat) {
    && 0 < a <= b <= |p|
    && forall k :: a <= k < b ==> Below(p, k)
  }

  /** `n` is the length of the longest run of points below the running peak. */
  ghost predicate IsLongestRun(p: seq<real>, n: nat) {
    && (forall a: nat, b: nat :: BelowRun(p, a, b) ==> b - a <= n)
    && (exists a: nat, b: nat :: BelowRun(p, a, b) && b - a == n)
  }

  /** `n` is the length of the run that ends at the last point. */
  ghost predicate IsTrailingRun(p: seq<real>, n: nat) {
    && n < |p|
    && BelowRun(p, |p| - n, |p|)
    && (|p| - n > 1 ==> !Below(p, |p| - n - 1))
  }

  lemma {:induction false} PeakIsHighest(p: seq<real>)
    requires p != []
    ensures forall i :: 0 <= i < |p| ==> p[i] <= Peak(p)
    ensures exists i :: 0 <= i < |p| && p[i] == Peak(p)
  {
    if |p| == 1 {
      assert p[0] == Peak(p);
    } else {
      var q := p[..|p| - 1];
      PeakIsHighest(q);
      assert p[|p| - 1] >= Peak(q) ==> p[|p| - 1] == Peak(p);
      var i :| 0 <= i < |q| && q[i] == Peak(q);
      assert p[i] == Peak(q);
      forall i | 0 <= i < |p| ensures p[i] <= Peak(p) {
        if i < |q| { assert p[i] == q[i]; }
      }
    }
  }

  /** One more point: the largest drop is the old one or the drop from the peak to it. */
  lemma ExtendMaxDrop(p: seq<real>, x: real, d: real)
    requires p != [] && IsMaxDrop(p, d)
    ensures var drop := Peak(p + [x]) - x; IsMaxDrop(p + [x], if drop > d then drop else d)
  {
    hide Peak;
    var p' := p + [x];
    PeakIsHighest(p');
    var drop := Peak(p') - x;
    var d' := if drop > d then drop else d;
    forall i, j | 0 <= i <= j < |p'| ensures p'[i] - p'[j] <= d' {
      if j < |p| { assert p'[i] == p[i] && p'[j] == p[j]; }
    }
    if drop > d {
      var i :| 0 <= i < |p'| && p'[i] == Peak(p');
      assert p'[i] - p'[|p|] == d';
    } else {
      var i, j :| 0 <= i <= j < |p| && p[i] - p[j] == d;
      assert p'[i] - p'[j] == d;
    }
  }

  lemma BelowOfPrefix(p: seq<real>, x: real, k: nat)
    requires 0 < k < |p|
    ensures Below(p + [x], k) == Below(p, k)
  {
    assert (p + [x])[..k] == p[..k];
  }

  /** A run over the first `|p|` points does not depend on what comes later. */
  lemma RunOfPrefix(p: seq<real>, x: real, a: nat, b: nat)
    requires b <= |p|
    ensures BelowRun(p + [x], a, b) == BelowRun(p, a, b)
  {
    forall k: nat | 0 < k < |p| ensures Below(p + [x], k) == Below(p, k) { BelowOfPrefix(p, x, k); }
  }

  lemma LongestOfPrefix(p: seq<real>, x: real, n: nat)
    requires IsLongestRun(p, n)
    ensures forall a: nat, b: nat :: BelowRun(p + [x], a, b) && b <= |p| ==> b - a <= n
    ensures exists a: nat, b: nat :: BelowRun(p + [x], a, b) && b - a == n
  {
    forall a: nat, b: nat | b <= |p| ensures BelowRun(p + [x], a, b) == BelowRun(p, a, b) { RunOfPrefix(p, x, a, b); }
    var a: nat, b: nat :| BelowRun(p, a, b) && b - a == n;
    assert BelowRun(p + [x], a, b);
  }

  /** A point at or above the peak ends the run in progress. */
  lemma ExtendAtPeak(p: seq<real>, x: real, n: nat)
    requires p != [] && IsLongestRun(p, n) && x >= Peak(p)
    ensures IsLongestRun(p + [x], n) && IsTrailingRun(p + [x], 0)
  {
    LongestOfPrefix(p, x, n);
    var p' := p + [x];
    assert p'[..|p|] == p;
    assert !Below(p', |p|);
  }

  /** A point below the peak lengthens the run in progress by one. */
  lemma ExtendBelowPeak(p: seq<real>, x: real, n: nat, t: nat)
    requires p != [] && IsLongestRun(p, n) && IsTrailingRun(p, t) && x < Peak(p)
    ensures IsTrailingRun(p + [x], t + 1)
    ensures IsLongestRun(p + [x], if t + 1 > n then t + 1 else n)
  {
    LongestOfPrefix(p, x, n);
    var p' := p + [x];
    assert p'[..|p|] == p;
    assert Below(p', |p|);
    var start := |p| - t;
    RunOfPrefix(p, x, start, |p|);
    assert BelowRun(p', start, |p'|);
    if start > 1 { BelowOfPrefix(p, x, start - 1); }
    forall a: nat | BelowRun(p', a, |p'|) ensures a >= start {}
  }

  // ---------- the one-pass figures ----------

  datatype Figures = Figures(peak: real, maxDrop: real, maxDuration: nat, currentDuration: nat)

  /** Duration as finally reported: a run still open at the end counts too. */
  function Reported(f: Figures): nat {
    if f.currentDuration > f.maxDuration then f.currentDuration else f.maxDuration
  }

  ghost predicate Describe(f: Figures, p: seq<real>) {
    && p != []
    && f.peak == Peak(p)
    && IsMaxDrop(p, f.maxDrop)
    && IsTrailingRun(p, f.currentDuration)
    && IsLongestRun(p, Reported(f))
  }

  function Advance(f: Figures, x: real): Figures {
    var peak := if x >= f.peak then x else f.peak;
    Figures(peak,
            if peak - x > f.maxDrop then peak - x else f.maxDrop,
            if x >= f.peak then Reported(f) else f.maxDuration,
            if x >= f.peak then 0 else f.currentDuration + 1)
  }

  lemma AdvanceRuns(f: Figures, p: seq<real>, x: real)
    requires p != [] && f.peak == Peak(p)
    requires IsTrailingRun(p, f.currentDuration) && IsLongestRun(p, Reported(f))
    ensures IsTrailingRun(p + [x], Advance(f, x).currentDuration)
    ensures IsLongestRun(p + [x], Reported(Advance(f, x)))
  {
    if x >= f.peak {
      ExtendAtPeak(p, x, Reported(f));
    } else {
      ExtendBelowPeak(p, x, Reported(f), f.currentDuration);
    }
  }

  lemma AdvanceDrop(f: Figures, p: seq<real>, x: real)
    requires p != [] && f.peak == Peak(p) && IsMaxDrop(p, f.maxDrop)
    ensures Peak(p + [x]) == Advance(f, x).peak
    ensures IsMaxDrop(p + [x], Advance(f, x).maxDrop)
  {
    assert (p + [x])[..|p|] == p;
    ExtendMaxDrop(p, x, f.maxDrop);
  }

  /** One pass over the points keeps figures that agree with the definitions over all pairs
      and all runs. */
  lemma AdvanceDescribes(f: Figures, p: seq<real>, x: real)
    requires Describe(f, p)
    ensures Describe(Advance(f, x), p + [x])
  {
    AdvanceDrop(f, p, x);
    AdvanceRuns(f, p, x);
  }

  lemma FirstPoint(x: real)
    ensures Describe(Figures(x, 0.0, 0, 0), [x])
  {
    assert [x][0] - [x][0] == 0.0;
    assert BelowRun([x], 1, 1);
  }
}
