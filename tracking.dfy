/** `is_potential_follow` (utils.py): does the cadence of a plate's
    detections suggest that it moves along with the camera? Detection times
    are integer microseconds; the thresholds are seconds. */
module Tracking {
  import opened Wrappers
  import opened Text
  import opened Sorting
  import opened TimeUtil

  /** The verdict's explanation; `ReasonText` gives the exact strings. */
  datatype FollowReason =
    | NotEnoughDetections
    | NoValidIntervals
    | TooFewValidIntervals(count: nat)
    | RegularIntervals(averageSeconds: nat)
    | InconsistentPattern

  function ReasonText(r: FollowReason): string {
    match r
    case NotEnoughDetections => "Not enough detections"
    case NoValidIntervals => "No valid detection intervals found"
    case TooFewValidIntervals(n) => "Not enough valid intervals (" + NatToString(n) + ") after filtering"
    case RegularIntervals(a) => "Multiple detections with average interval " + NatToString(a) + " seconds"
    case InconsistentPattern => "Inconsistent detection pattern"
  }

  /** The interval between two detections, in seconds. */
  function Gap(prev: int, curr: int): (g: real)
    ensures g >= 0.0
  {
    AbsInt(curr - prev) as real / 1000000.0
  }

  /** `Gap` is the interval `calculate_time_difference(curr, prev)` reports. */
  lemma GapIsTimeDifference(prev: int, curr: int)
    ensures CalculateTimeDifference(Some(curr), Some(prev)).0 == Some(Gap(prev, curr))
  {
  }

  /** The intervals between consecutive times. */
  function Gaps(s: seq<int>): (g: seq<real>)
    ensures |g| == if |s| == 0 then 0 else |s| - 1
    ensures forall k {:trigger g[k]} :: 0 <= k < |g| ==> g[k] == Gap(s[k], s[k + 1])
  {
    if |s| < 2 then [] else Gaps(s[..|s| - 1]) + [Gap(s[|s| - 2], s[|s| - 1])]
  }

  /** The intervals not shorter than `minInterval`, in order. */
  function Keep(g: seq<real>, minInterval: real): (v: seq<real>)
    ensures |v| <= |g|
    ensures forall k :: 0 <= k < |v| ==> v[k] >= minInterval
  {
    if |g| == 0 then []
    else
      var rest := Keep(g[..|g| - 1], minInterval);
      if g[|g| - 1] >= minInterval then rest + [g[|g| - 1]] else rest
  }

  /** Exactly the long-enough intervals are kept, each as often as it
      occurs: each kept one is one of the given intervals, each long-enough
      given interval is kept, and every value is kept as many times as it
      occurs when it is long enough and never otherwise. */
  lemma {:induction false} KeepMembers(g: seq<real>, minInterval: real)
    ensures forall k :: 0 <= k < |Keep(g, minInterval)| ==> Keep(g, minInterval)[k] in g
    ensures forall k :: 0 <= k < |g| && g[k] >= minInterval ==> g[k] in Keep(g, minInterval)
    ensures forall x :: multiset(Keep(g, minInterval))[x] == if x >= minInterval then multiset(g)[x] else 0
  {
    if |g| > 0 {
      var init := g[..|g| - 1];
      KeepMembers(init, minInterval);
      assert g == init + [g[|g| - 1]];
      assert multiset(g) == multiset(init) + multiset{g[|g| - 1]};
      var v := Keep(g, minInterval);
      var rest := Keep(init, minInterval);
      forall k | 0 <= k < |v| ensures v[k] in g {
        if k < |rest| {
          assert v[k] == rest[k];
          var j :| 0 <= j < |init| && init[j] == rest[k];
          assert g[j] == init[j];
        }
      }
      forall k | 0 <= k < |g| && g[k] >= minInterval ensures g[k] in v {
        if k < |init| {
          assert g[k] == init[k];
          var j :| 0 <= j < |rest| && rest[j] == init[k];
          assert v[j] == rest[j];
        }
      }
    }
  }

  function Sum(v: seq<real>): real {
    if |v| == 0 then 0.0 else Sum(v[..|v| - 1]) + v[|v| - 1]
  }

  /** `sum(v) / len(v)`. */
  function Mean(v: seq<real>): real
    requires |v| > 0
  {
    Sum(v) / |v| as real
  }

  /** The mean of non-negative intervals is not negative. */
  lemma MeanNonNegative(v: seq<real>)
    requires |v| > 0 && forall k :: 0 <= k < |v| ==> v[k] >= 0.0
    ensures Mean(v) >= 0.0
  {
    SumNonNegative(v);
  }

  /** No interval exceeds the threshold. */
  predicate AllAtMost(v: seq<real>, threshold: real) {
    |v| == 0 || (AllAtMost(v[..|v| - 1], threshold) && v[|v| - 1] <= threshold)
  }

  lemma {:induction false} AllAtMostEach(v: seq<real>, threshold: real)
    ensures AllAtMost(v, threshold) <==> forall k :: 0 <= k < |v| ==> v[k] <= threshold
  {
    if |v| > 0 {
      var init := v[..|v| - 1];
      AllAtMostEach(init, threshold);
      assert forall k :: 0 <= k < |init| ==> init[k] == v[k];
    }
  }

  /** The intervals the heuristic judges: those between consecutive times in
      chronological order, without the ones shorter than `minInterval`. */
  function ValidIntervals(times: seq<int>, minInterval: real): seq<real> {
    Keep(Gaps(SortBy(times, Identity)), minInterval)
  }

  /** What `is_potential_follow` returns. */
  function FollowVerdict(times: seq<int>, threshold: real, minInterval: real): (r: (bool, FollowReason))
    ensures r.0 <==> r.1.RegularIntervals?
    ensures r.0 ==> |times| >= 3
  {
    if |times| < 3 then (false, NotEnoughDetections)
    else
      var v := ValidIntervals(times, minInterval);
      if |v| == 0 then (false, NoValidIntervals)
      else if |v| < 2 then (false, TooFewValidIntervals(|v|))
      else
        if AllAtMost(v, threshold) && Mean(v) < threshold then
          ValidIntervalsNonNegative(times, minInterval);
          MeanNonNegative(v);
          (true, RegularIntervals(Mean(v).Floor))
        else (false, InconsistentPattern)
  }

  lemma ValidIntervalsNonNegative(times: seq<int>, minInterval: real)
    ensures forall k :: 0 <= k < |ValidIntervals(times, minInterval)| ==>
      ValidIntervals(times, minInterval)[k] >= 0.0
  {
    var g := Gaps(SortBy(times, Identity));
    var v := Keep(g, minInterval);
    KeepMembers(g, minInterval);
    forall k | 0 <= k < |v| ensures v[k] >= 0.0 {
      var j :| 0 <= j < |g| && g[j] == v[k];
      assert g[j] == Gap(SortBy(times, Identity)[j], SortBy(times, Identity)[j + 1]);
    }
  }

  lemma {:induction false} SumNonNegative(v: seq<real>)
    requires forall k :: 0 <= k < |v| ==> v[k] >= 0.0
    ensures Sum(v) >= 0.0
  {
    if |v| > 0 {
      SumNonNegative(v[..|v| - 1]);
    }
  }

  /** `is_potential_follow(detections, threshold_seconds, min_interval_seconds)`
      on the detection times: sort, collect the intervals, then judge them. */
  method IsPotentialFollow(times: seq<int>, threshold: real, minInterval: real)
    returns (follow: bool, reason: FollowReason)
    ensures (follow, reason) == FollowVerdict(times, threshold, minInterval)
  {
    if |times| < 3 {
      return false, NotEnoughDetections;
    }
    var sorted := SortBy(times, Identity);
    var valid, consistent := CollectIntervals(sorted, threshold, minInterval);
    if |valid| == 0 {
      return false, NoValidIntervals;
    }
    if |valid| < 2 {
      return false, TooFewValidIntervals(|valid|);
    }
    var mean := Mean(valid);
    if consistent && mean < threshold {
      RegularVerdict(times, threshold, minInterval);
      return true, RegularIntervals(mean.Floor);
    }
    return false, InconsistentPattern;
  }

  /** The loop of `is_potential_follow`: walk the consecutive intervals of
      the sorted times, collecting the long-enough ones and noting any above
      the threshold. */
  method CollectIntervals(sorted: seq<int>, threshold: real, minInterval: real)
    returns (valid: seq<real>, consistent: bool)
    requires |sorted| > 0
    ensures valid == Keep(Gaps(sorted), minInterval)
    ensures consistent == AllAtMost(valid, threshold)
  {
    consistent := true;
    valid := [];
    var i := 1;
    while i < |sorted|
      invariant 1 <= i <= |sorted|
      invariant valid == Keep(Gaps(sorted[..i]), minInterval)
      invariant consistent == AllAtMost(valid, threshold)
    {
      // the seconds `calculate_time_difference` reports (GapIsTimeDifference)
      var interval := Gap(sorted[i - 1], sorted[i]);
      var next := i + 1;
      ValidIntervalsStep(sorted, i, minInterval);
      AllAtMostSnoc(valid, interval, threshold);
      if interval >= minInterval {
        valid := valid + [interval];
        if interval > threshold {
          consistent := false;
        }
      }
      assert valid == Keep(Gaps(sorted[..next]), minInterval);
      i := next;
    }
    assert sorted[..i] == sorted;
  }

  lemma AllAtMostSnoc(v: seq<real>, x: real, threshold: real)
    ensures AllAtMost(v + [x], threshold) <==> AllAtMost(v, threshold) && x <= threshold
  {
    assert (v + [x])[..|v|] == v;
  }

  /** One more time extends the kept intervals by its interval, when that is
      long enough. */
  lemma ValidIntervalsStep(s: seq<int>, i: nat, minInterval: real)
    requires 1 <= i < |s|
    ensures var g := Gap(s[i - 1], s[i]);
      Keep(Gaps(s[..i + 1]), minInterval)
        == Keep(Gaps(s[..i]), minInterval) + (if g >= minInterval then [g] else [])
  {
    var t := s[..i + 1];
    assert t[..|t| - 1] == s[..i];
    assert t[|t| - 2] == s[i - 1] && t[|t| - 1] == s[i];
    var g := Gaps(t);
    assert g == Gaps(s[..i]) + [Gap(s[i - 1], s[i])];
    assert g[..|g| - 1] == Gaps(s[..i]);
    assert g[|g| - 1] == Gap(s[i - 1], s[i]);
  }

  /** The verdict depends only on which times were observed, not on the order
      the detections arrive in. */
  lemma FollowOrderIndependent(a: seq<int>, b: seq<int>, threshold: real, minInterval: real)
    requires multiset(a) == multiset(b)
    ensures FollowVerdict(a, threshold, minInterval) == FollowVerdict(b, threshold, minInterval)
  {
    assert |a| == |multiset(a)| == |multiset(b)| == |b|;
    SortIgnoresOrder(a, b);
    assert ValidIntervals(a, minInterval) == ValidIntervals(b, minInterval);
    SameIntervalsSameVerdict(a, b, threshold, minInterval);
  }

  /** The verdict reads the times only through their number and their
      surviving intervals. */
  lemma SameIntervalsSameVerdict(a: seq<int>, b: seq<int>, threshold: real, minInterval: real)
    requires |a| == |b| && ValidIntervals(a, minInterval) == ValidIntervals(b, minInterval)
    ensures FollowVerdict(a, threshold, minInterval) == FollowVerdict(b, threshold, minInterval)
  {
  }

  /** `a / n < t` read without the division. */
  lemma DivBelow(a: real, n: real, t: real)
    requires n > 0.0
    ensures a / n < t <==> a < t * n
  {
    var q := a / n;
    assert a == q * n;
    if q < t {
      assert q * n < t * n;
    }
    if a < t * n {
      assert q * n < t * n;
    }
  }

  /** A mean below the threshold needs at least one interval below it. */
  lemma {:induction false} SumBelowHasSmallElement(v: seq<real>, threshold: real)
    requires |v| > 0 && Sum(v) < threshold * |v| as real
    ensures exists k :: 0 <= k < |v| && v[k] < threshold
  {
    var last := v[|v| - 1];
    var init := v[..|v| - 1];
    assert Sum(v) == Sum(init) + last;
    assert threshold * |v| as real == threshold * |init| as real + threshold;
    if last >= threshold {
      if |init| == 0 {
        assert false;
      } else {
        SumBelowHasSmallElement(init, threshold);
        var k :| 0 <= k < |init| && init[k] < threshold;
        assert v[k] == init[k];
      }
    }
  }

  /** Intervals all below the threshold have a sum below `threshold * n`. */
  lemma {:induction false} SumBelowBound(v: seq<real>, threshold: real)
    requires |v| > 0 && forall k :: 0 <= k < |v| ==> v[k] < threshold
    ensures Sum(v) < threshold * |v| as real
  {
    var init := v[..|v| - 1];
    assert Sum(v) == Sum(init) + v[|v| - 1];
    assert threshold * |v| as real == threshold * |init| as real + threshold;
    if |v| > 1 {
      SumBelowBound(init, threshold);
    }
  }

  /** A positive verdict means at least two intervals survive the filter,
      each at least `minInterval` and at most the threshold, and at least one
      strictly below the threshold. */
  lemma FollowMeansRegularCadence(times: seq<int>, threshold: real, minInterval: real)
    requires FollowVerdict(times, threshold, minInterval).0
    ensures var v := ValidIntervals(times, minInterval);
      |v| >= 2
      && (forall k :: 0 <= k < |v| ==> minInterval <= v[k] <= threshold)
      && (exists k :: 0 <= k < |v| && v[k] < threshold)
  {
    var v := ValidIntervals(times, minInterval);
    AllAtMostEach(v, threshold);
    DivBelow(Sum(v), |v| as real, threshold);
    SumBelowHasSmallElement(v, threshold);
  }

  /** Conversely, three or more reads whose surviving intervals number at
      least two and all lie strictly below the threshold are a follower. */
  lemma FollowWhenAllIntervalsBelowThreshold(times: seq<int>, threshold: real, minInterval: real)
    requires |times| >= 3
    requires |ValidIntervals(times, minInterval)| >= 2
    requires forall k :: 0 <= k < |ValidIntervals(times, minInterval)| ==>
               ValidIntervals(times, minInterval)[k] < threshold
    ensures FollowVerdict(times, threshold, minInterval).0
  {
    var v := ValidIntervals(times, minInterval);
    SumBelowBound(v, threshold);
    DivBelow(Sum(v), |v| as real, threshold);
    assert Mean(v) < threshold;
    AllAtMostEach(v, threshold);
    assert AllAtMost(v, threshold);
    RegularVerdict(times, threshold, minInterval);
  }

  /** Keeping intervals that are all long enough keeps them all. */
  lemma {:induction false} KeepAllLong(g: seq<real>, minInterval: real)
    requires forall k :: 0 <= k < |g| ==> g[k] >= minInterval
    ensures Keep(g, minInterval) == g
  {
    if |g| > 0 {
      KeepAllLong(g[..|g| - 1], minInterval);
      assert g[..|g| - 1] + [g[|g| - 1]] == g;
    }
  }

  /** The intervals of four ascending times, in seconds. */
  lemma ValidIntervalsOfFour(t: seq<int>, minInterval: real, a: real, b: real, c: real)
    requires |t| == 4 && Ascending(t)
    requires Gap(t[0], t[1]) == a && Gap(t[1], t[2]) == b && Gap(t[2], t[3]) == c
    requires a >= minInterval && b >= minInterval && c >= minInterval
    ensures ValidIntervals(t, minInterval) == [a, b, c]
  {
    SortedIsFixed(t);
    var g := Gaps(t);
    assert g[0] == a && g[1] == b && g[2] == c;
    assert g == [a, b, c];
    KeepAllLong(g, minInterval);
  }

  /** Intervals of 30 s, 45 s and 20000 s with a 300 s threshold: one
      interval is too long, so the pattern is inconsistent. */
  lemma LongGapExample(t: seq<int>)
    requires t == [0, 30000000, 75000000, 20075000000]
    ensures FollowVerdict(t, 300.0, 2.0) == (false, InconsistentPattern)
  {
    LongGapExampleIntervals(t);
    InconsistentVerdict(t, 300.0, 2.0, 2);
  }

  lemma LongGapExampleIntervals(t: seq<int>)
    requires t == [0, 30000000, 75000000, 20075000000]
    ensures ValidIntervals(t, 2.0) == [30.0, 45.0, 20000.0]
  {
    assert Gap(t[0], t[1]) == 30.0;
    assert Gap(t[1], t[2]) == 45.0;
    assert Gap(t[2], t[3]) == 20000.0;
    ValidIntervalsOfFour(t, 2.0, 30.0, 45.0, 20000.0);
  }

  /** Two or more surviving intervals, one of them above the threshold:
      the pattern is inconsistent. */
  lemma InconsistentVerdict(times: seq<int>, threshold: real, minInterval: real, k: nat)
    requires |times| >= 3
    requires var v := ValidIntervals(times, minInterval);
      |v| >= 2 && k < |v| && v[k] > threshold
    ensures FollowVerdict(times, threshold, minInterval) == (false, InconsistentPattern)
  {
    AllAtMostEach(ValidIntervals(times, minInterval), threshold);
  }

  /** Intervals of 30 s, 45 s and 60 s with a 300 s threshold: a follower,
      with a mean interval of 45 s. */
  lemma RegularExample(t: seq<int>)
    requires t == [0, 30000000, 75000000, 135000000]
    ensures FollowVerdict(t, 300.0, 2.0) == (true, RegularIntervals(45))
  {
    RegularExampleIntervals(t);
    var v := ValidIntervals(t, 2.0);
    RegularExampleMean(v);
    RegularVerdict(t, 300.0, 2.0);
  }

  lemma RegularExampleIntervals(t: seq<int>)
    requires t == [0, 30000000, 75000000, 135000000]
    ensures ValidIntervals(t, 2.0) == [30.0, 45.0, 60.0]
  {
    assert Gap(t[0], t[1]) == 30.0;
    assert Gap(t[1], t[2]) == 45.0;
    assert Gap(t[2], t[3]) == 60.0;
    ValidIntervalsOfFour(t, 2.0, 30.0, 45.0, 60.0);
  }

  lemma RegularExampleMean(v: seq<real>)
    requires v == [30.0, 45.0, 60.0]
    ensures Mean(v) == 45.0 && Mean(v).Floor == 45 && AllAtMost(v, 300.0)
  {
    var v1, v2 := v[..1], v[..2];
    assert v1[..0] == [] && v2[..1] == v1 && v[..2] == v2;
    assert Sum(v1) == 30.0;
    assert Sum(v2) == 75.0;
    assert Sum(v) == 135.0;
    AllAtMostEach(v, 300.0);
  }

  /** The positive branch of the verdict, with the average it reports. */
  lemma RegularVerdict(times: seq<int>, threshold: real, minInterval: real)
    requires |times| >= 3
    requires var v := ValidIntervals(times, minInterval);
      |v| >= 2 && AllAtMost(v, threshold) && Mean(v) < threshold
    ensures var v := ValidIntervals(times, minInterval);
      Mean(v) >= 0.0 && FollowVerdict(times, threshold, minInterval) == (true, RegularIntervals(Mean(v).Floor))
  {
    ValidIntervalsNonNegative(times, minInterval);
    MeanNonNegative(ValidIntervals(times, minInterval));
  }

  /** Sorting an ascending sequence leaves it unchanged. */
  lemma SortedIsFixed(t: seq<int>)
    requires Ascending(t)
    ensures SortBy(t, Identity) == t
  {
    var s := SortBy(t, Identity);
    assert Ascending(s) by {
      forall i, j | 0 <= i < j < |s| ensures s[i] <= s[j] {
        assert Identity(s[i]) <= Identity(s[j]);
      }
    }
    AscendingUnique(s, t);
  }
}
