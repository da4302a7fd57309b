/**
 * Group error rates, the demographic parity gap, and an early-stopping controller that
 * stops when the gap has not improved by `min_delta` for `patience` epochs
 * (fairness_early_stopping.py). Labels and sensitive values are integers.
 */
module Fairness {
  import opened Wrappers
  import opened Extended

  predicate StrictlyIncreasing(s: seq<int>) {
    forall i, j :: 0 <= i < j < |s| ==> s[i] < s[j]
  }

  /** Insert `v` into a strictly increasing sequence, keeping it strictly increasing. */
  function InsertSorted(s: seq<int>, v: int): (r: seq<int>)
    requires StrictlyIncreasing(s)
    ensures StrictlyIncreasing(r)
    ensures forall w :: w in r <==> w in s || w == v
  {
    if |s| == 0 then [v]
    else if v < s[0] then [v] + s
    else if v == s[0] then s
    else
      var rest := InsertSorted(s[1..], v);
      assert forall k :: 0 <= k < |s[1..]| ==> s[0] < s[1..][k];
      assert forall k :: 0 <= k < |rest| ==> s[0] < rest[k] by {
        forall k | 0 <= k < |rest|
          ensures s[0] < rest[k]
        {
          assert rest[k] in rest;
        }
      }
      [s[0]] + rest
  }

  /** `np.unique`: each value of `a` once, in ascending order. */
  function Unique(a: seq<int>): (r: seq<int>)
    ensures StrictlyIncreasing(r)
    ensures forall v :: v in r <==> v in a
  {
    if |a| == 0 then []
    else
      assert a == a[..|a| - 1] + [a[|a| - 1]];
      InsertSorted(Unique(a[..|a| - 1]), a[|a| - 1])
  }

  /** `(sensitive_attr == g).sum()`. */
  function Members(s: seq<int>, g: int): (n: nat)
    ensures n <= |s|
  {
    if |s| == 0 then 0 else (if s[0] == g then 1 else 0) + Members(s[1..], g)
  }

  /** The number of members of group `g` whose prediction differs from the true label. */
  function Mismatches(yTrue: seq<int>, yPred: seq<int>, s: seq<int>, g: int): nat
    requires |yTrue| == |s| && |yPred| == |s|
  {
    if |s| == 0 then 0
    else (if s[0] == g && yTrue[0] != yPred[0] then 1 else 0) + Mismatches(yTrue[1..], yPred[1..], s[1..], g)
  }

  lemma {:induction false} MismatchesAtMostMembers(yTrue: seq<int>, yPred: seq<int>, s: seq<int>, g: int)
    requires |yTrue| == |s| && |yPred| == |s|
    ensures Mismatches(yTrue, yPred, s, g) <= Members(s, g)
  {
    if |s| > 0 {
      MismatchesAtMostMembers(yTrue[1..], yPred[1..], s[1..], g);
    }
  }

  /** A value that occurs in `s` has at least one member. */
  lemma {:induction false} OccurringValueHasMembers(s: seq<int>, g: int)
    requires g in s
    ensures Members(s, g) > 0
  {
    if s[0] != g {
      OccurringValueHasMembers(s[1..], g);
    }
  }

  /** The error rate of group `g`: its mismatches over its members, 0.0 for an empty group.
      It is a fraction in [0, 1], and for a non-empty group it is the share of members
      that are mispredicted (`np.mean` of the mismatch mask). */
  function ErrorRate(yTrue: seq<int>, yPred: seq<int>, s: seq<int>, g: int): (r: real)
    requires |yTrue| == |s| && |yPred| == |s|
    ensures 0.0 <= r <= 1.0
    ensures Members(s, g) == 0 ==> r == 0.0
    ensures Members(s, g) > 0 ==> r * Members(s, g) as real == Mismatches(yTrue, yPred, s, g) as real
  {
    var n := Members(s, g);
    if n == 0 then 0.0
    else
      var m := Mismatches(yTrue, yPred, s, g);
      MismatchesAtMostMembers(yTrue, yPred, s, g);
      FractionAtMostOne(m as real, n as real);
      m as real / n as real
  }

  lemma FractionAtMostOne(m: real, n: real)
    requires 0.0 <= m <= n && n > 0.0
    ensures 0.0 <= m / n <= 1.0 && m / n * n == m
  {
    assert m / n * n == m;
  }

  /** The label arrays line up with the sensitive attribute, as boolean masking needs. */
  predicate Aligned(yTrue: seq<int>, yPred: seq<int>, s: seq<int>) {
    |yTrue| == |s| && |yPred| == |s|
  }

  /** The error rate of each group of `Unique(s)`, in the same order. */
  function ErrorRates(yTrue: seq<int>, yPred: seq<int>, s: seq<int>): (rates: seq<real>)
    requires Aligned(yTrue, yPred, s)
    ensures |rates| == |Unique(s)|
  {
    var groups := Unique(s);
    seq(|groups|, i requires 0 <= i < |groups| => ErrorRate(yTrue, yPred, s, groups[i]))
  }

  /** What the numpy calls raise: a boolean mask of the wrong length, or `np.max` of nothing. */
  datatype MetricError = ShapeMismatch | EmptyReduction

  datatype GroupRates = GroupRates(groups: seq<int>, rates: seq<real>)

  /**
   * `group_error_rates`: one rate per distinct sensitive value, groups ascending. Masking
   * the labels raises when a group exists and the arrays do not line up.
   */
  method GroupErrorRates(yTrue: seq<int>, yPred: seq<int>, s: seq<int>) returns (res: Result<GroupRates, MetricError>)
    ensures res.Err? <==> |s| > 0 && !Aligned(yTrue, yPred, s)
    ensures res.Err? ==> res.error == ShapeMismatch
    ensures res.Ok? && |s| == 0 ==> res.value == GroupRates([], [])
    ensures res.Ok? && |s| > 0 ==> res.value == GroupRates(Unique(s), ErrorRates(yTrue, yPred, s))
  {
    var uniqueGroups := Unique(s);
    if |uniqueGroups| > 0 && !Aligned(yTrue, yPred, s) {
      return Err(ShapeMismatch);
    }
    var errorRates: seq<real> := [];
    for k := 0 to |uniqueGroups|
      invariant |errorRates| == k
      invariant forall i :: 0 <= i < k ==> errorRates[i] == ErrorRate(yTrue, yPred, s, uniqueGroups[i])
    {
      var g := uniqueGroups[k];
      var members := Members(s, g);
      if members == 0 {
        errorRates := errorRates + [0.0];
      } else {
        errorRates := errorRates + [Mismatches(yTrue, yPred, s, g) as real / members as real];
      }
    }
    return Ok(GroupRates(uniqueGroups, errorRates));
  }

  /** Every group `np.unique` reports has members, so the empty-group branch is never taken
      on its groups, and each reported rate lies in [0, 1]. */
  lemma GroupsArePopulated(yTrue: seq<int>, yPred: seq<int>, s: seq<int>)
    requires Aligned(yTrue, yPred, s)
    ensures forall i :: 0 <= i < |Unique(s)| ==> Members(s, Unique(s)[i]) > 0
    ensures forall i :: 0 <= i < |Unique(s)| ==> 0.0 <= ErrorRates(yTrue, yPred, s)[i] <= 1.0
  {
    forall i | 0 <= i < |Unique(s)|
      ensures Members(s, Unique(s)[i]) > 0 && 0.0 <= ErrorRates(yTrue, yPred, s)[i] <= 1.0
    {
      OccurringValueHasMembers(s, Unique(s)[i]);
    }
  }

  /** `np.max` of a non-empty sequence. */
  function MaxOf(r: seq<real>): (m: real)
    requires |r| > 0
    ensures m in r && forall i :: 0 <= i < |r| ==> r[i] <= m
  {
    if |r| == 1 then r[0]
    else
      var rest := MaxOf(r[1..]);
      assert forall i :: 1 <= i < |r| ==> r[i] == r[1..][i - 1];
      if r[0] > rest then r[0] else rest
  }

  /** `np.min` of a non-empty sequence. */
  function MinOf(r: seq<real>): (m: real)
    requires |r| > 0
    ensures m in r && forall i :: 0 <= i < |r| ==> m <= r[i]
  {
    if |r| == 1 then r[0]
    else
      var rest := MinOf(r[1..]);
      assert forall i :: 1 <= i < |r| ==> r[i] == r[1..][i - 1];
      if r[0] < rest then r[0] else rest
  }

  /**
   * `demographic_parity_difference`: the largest group error rate minus the smallest.
   * It raises when the arrays do not line up, and when there are no samples (`np.max` of
   * an empty array).
   */
  function DemographicParityDifference(yTrue: seq<int>, yPred: seq<int>, s: seq<int>): (r: Result<real, MetricError>)
    ensures r.Ok? <==> |s| > 0 && Aligned(yTrue, yPred, s)
    ensures r.Err? ==> (r.error == EmptyReduction <==> |s| == 0)
  {
    if |s| == 0 then Err(EmptyReduction)
    else if !Aligned(yTrue, yPred, s) then Err(ShapeMismatch)
    else
      var rates := ErrorRates(yTrue, yPred, s);
      Ok(MaxOf(rates) - MinOf(rates))
  }

  /** The parity gap is the largest difference between two group rates: it bounds every
      pairwise difference, is attained by a pair, and lies in [0, 1]. */
  lemma ParityGapIsLargestDifference(yTrue: seq<int>, yPred: seq<int>, s: seq<int>)
    requires |s| > 0 && Aligned(yTrue, yPred, s)
    ensures var gap := DemographicParityDifference(yTrue, yPred, s).value;
      var rates := ErrorRates(yTrue, yPred, s);
      && 0.0 <= gap <= 1.0
      && (forall i, j :: 0 <= i < |rates| && 0 <= j < |rates| ==> rates[i] - rates[j] <= gap)
      && (exists i, j :: 0 <= i < |rates| && 0 <= j < |rates| && rates[i] - rates[j] == gap)
  {
    var rates := ErrorRates(yTrue, yPred, s);
    assert s[0] in Unique(s);
    GroupsArePopulated(yTrue, yPred, s);
    var hi := MaxOf(rates);
    var lo := MinOf(rates);
    var i :| 0 <= i < |rates| && rates[i] == hi;
    var j :| 0 <= j < |rates| && rates[j] == lo;
    assert rates[i] - rates[j] == hi - lo;
  }

  lemma UniqueExample()
    ensures Unique([0, 0, 0, 0, 0, 1, 1]) == [0, 1]
  {
    var s := [0, 0, 0, 0, 0, 1, 1];
    assert Unique(s[..1]) == [0];
    assert Unique(s[..2]) == [0] by { assert s[..2][..1] == s[..1]; }
    assert Unique(s[..3]) == [0] by { assert s[..3][..2] == s[..2]; }
    assert Unique(s[..4]) == [0] by { assert s[..4][..3] == s[..3]; }
    assert Unique(s[..5]) == [0] by { assert s[..5][..4] == s[..4]; }
    assert InsertSorted([0], 1) == [0, 1] by { assert [0][1..] == []; }
    assert InsertSorted([0, 1], 1) == [0, 1] by { assert [0, 1][1..] == [1]; }
    assert Unique(s[..6]) == [0, 1] by { assert s[..6][..5] == s[..5]; }
    assert Unique(s) == [0, 1] by { assert s[..6] == s[..|s| - 1]; }
  }

  // The sample data of ParityGapExample, counted from the last sample backwards.
  lemma MembersExample()
    ensures Members([0, 0, 0, 0, 0, 1, 1], 0) == 5 && Members([0, 0, 0, 0, 0, 1, 1], 1) == 2
  {
    var s := [0, 0, 0, 0, 0, 1, 1];
    assert s[6..][1..] == s[7..];
    assert Members(s[6..], 0) == 0 && Members(s[6..], 1) == 1;
    assert s[5..][1..] == s[6..];
    assert Members(s[5..], 0) == 0 && Members(s[5..], 1) == 2;
    assert s[4..][1..] == s[5..];
    assert Members(s[4..], 0) == 1 && Members(s[4..], 1) == 2;
    assert s[3..][1..] == s[4..];
    assert Members(s[3..], 0) == 2 && Members(s[3..], 1) == 2;
    assert s[2..][1..] == s[3..];
    assert Members(s[2..], 0) == 3 && Members(s[2..], 1) == 2;
    assert s[1..][1..] == s[2..];
    assert Members(s[1..], 0) == 4 && Members(s[1..], 1) == 2;
    assert s[0..][1..] == s[1..];
    assert Members(s[0..], 0) == 5 && Members(s[0..], 1) == 2;
    assert s[0..] == s;
  }

  lemma MismatchesExample()
    ensures var yt, yp, s := [0, 0, 0, 0, 0, 0, 0], [1, 0, 0, 0, 0, 1, 0], [0, 0, 0, 0, 0, 1, 1];
      Mismatches(yt, yp, s, 0) == 1 && Mismatches(yt, yp, s, 1) == 1
  {
    var yt, yp, s := [0, 0, 0, 0, 0, 0, 0], [1, 0, 0, 0, 0, 1, 0], [0, 0, 0, 0, 0, 1, 1];
    assert s[6..][1..] == s[7..] && yt[6..][1..] == yt[7..] && yp[6..][1..] == yp[7..];
    assert Mismatches(yt[6..], yp[6..], s[6..], 0) == 0 && Mismatches(yt[6..], yp[6..], s[6..], 1) == 0;
    assert s[5..][1..] == s[6..] && yt[5..][1..] == yt[6..] && yp[5..][1..] == yp[6..];
    assert Mismatches(yt[5..], yp[5..], s[5..], 0) == 0 && Mismatches(yt[5..], yp[5..], s[5..], 1) == 1;
    assert s[4..][1..] == s[5..] && yt[4..][1..] == yt[5..] && yp[4..][1..] == yp[5..];
    assert Mismatches(yt[4..], yp[4..], s[4..], 0) == 0 && Mismatches(yt[4..], yp[4..], s[4..], 1) == 1;
    assert s[3..][1..] == s[4..] && yt[3..][1..] == yt[4..] && yp[3..][1..] == yp[4..];
    assert Mismatches(yt[3..], yp[3..], s[3..], 0) == 0 && Mismatches(yt[3..], yp[3..], s[3..], 1) == 1;
    assert s[2..][1..] == s[3..] && yt[2..][1..] == yt[3..] && yp[2..][1..] == yp[3..];
    assert Mismatches(yt[2..], yp[2..], s[2..], 0) == 0 && Mismatches(yt[2..], yp[2..], s[2..], 1) == 1;
    assert s[1..][1..] == s[2..] && yt[1..][1..] == yt[2..] && yp[1..][1..] == yp[2..];
    assert Mismatches(yt[1..], yp[1..], s[1..], 0) == 0 && Mismatches(yt[1..], yp[1..], s[1..], 1) == 1;
    assert s[0..][1..] == s[1..] && yt[0..][1..] == yt[1..] && yp[0..][1..] == yp[1..];
    assert Mismatches(yt[0..], yp[0..], s[0..], 0) == 1 && Mismatches(yt[0..], yp[0..], s[0..], 1) == 1;
    assert s[0..] == s && yt[0..] == yt && yp[0..] == yp;
  }

  /** Two groups with error rates 0.2 and 0.5 have a parity gap of 0.3: group 0 has one
      error in five samples and group 1 one error in two. */
  lemma ParityGapExample()
    ensures DemographicParityDifference([0, 0, 0, 0, 0, 0, 0], [1, 0, 0, 0, 0, 1, 0], [0, 0, 0, 0, 0, 1, 1]) == Ok(0.3)
  {
    var yt, yp, s := [0, 0, 0, 0, 0, 0, 0], [1, 0, 0, 0, 0, 1, 0], [0, 0, 0, 0, 0, 1, 1];
    UniqueExample();
    MembersExample();
    MismatchesExample();
    assert ErrorRate(yt, yp, s, 0) == 0.2 && ErrorRate(yt, yp, s, 1) == 0.5;
    var rates := ErrorRates(yt, yp, s);
    assert rates == [0.2, 0.5];
    assert MaxOf(rates) == 0.5 && MinOf(rates) == 0.2 by { assert rates[1..] == [0.5]; }
  }

  /** The metric a controller evaluates: the parity gap by default, or a caller's function. */
  datatype Metric = DemographicParity | Custom(f: (seq<int>, seq<int>, seq<int>) -> real)

  function EvalMetric(m: Metric, yTrue: seq<int>, yPred: seq<int>, s: seq<int>): (r: Result<real, MetricError>)
    ensures m.Custom? ==> r == Ok(m.f(yTrue, yPred, s))
    ensures m.DemographicParity? ==> r == DemographicParityDifference(yTrue, yPred, s)
  {
    match m
    case DemographicParity => DemographicParityDifference(yTrue, yPred, s)
    case Custom(f) => Ok(f(yTrue, yPred, s))
  }

  /** The controller state: best metric so far, epochs without improvement, last stop epoch. */
  datatype Tracker = Tracker(bestMetric: ExtReal, numBadEpochs: nat, stoppedEpoch: Option<int>)

  /** The state `__post_init__` sets up. */
  const Fresh := Tracker(PosInf, 0, None)

  /** An improvement is a metric that beats the best so far by more than `minDelta`. */
  predicate Improves(st: Tracker, metric: real, minDelta: real) {
    Less(Finite(metric + minDelta), st.bestMetric)
  }

  /** One accepted metric value: the new state and whether to stop. */
  function Update(st: Tracker, epoch: int, metric: real, minDelta: real, patience: int): (r: (Tracker, bool))
    ensures Improves(st, metric, minDelta) ==> r.0.bestMetric == Finite(metric) && r.0.numBadEpochs == 0
    ensures !Improves(st, metric, minDelta) ==> r.0.bestMetric == st.bestMetric && r.0.numBadEpochs == st.numBadEpochs + 1
    ensures r.1 <==> r.0.numBadEpochs >= patience
    ensures r.0.stoppedEpoch == if r.1 then Some(epoch) else st.stoppedEpoch
  {
    var improved := Improves(st, metric, minDelta);
    var best := if improved then Finite(metric) else st.bestMetric;
    var bad := if improved then 0 else st.numBadEpochs + 1;
    var stop := bad >= patience;
    (Tracker(best, bad, if stop then Some(epoch) else st.stoppedEpoch), stop)
  }

  /** The state after feeding `metrics`, the i-th at epoch i, to a controller in state `st`. */
  function After(st: Tracker, metrics: seq<real>, minDelta: real, patience: int): Tracker {
    if |metrics| == 0 then st
    else Update(After(st, metrics[..|metrics| - 1], minDelta, patience), |metrics| - 1, metrics[|metrics| - 1], minDelta, patience).0
  }

  /** What the call at epoch i (i < |metrics|) returns. */
  function Decision(st: Tracker, metrics: seq<real>, i: nat, minDelta: real, patience: int): (stop: bool)
    requires i < |metrics|
    ensures stop <==> After(st, metrics[..i + 1], minDelta, patience).numBadEpochs >= patience
    ensures stop ==> After(st, metrics[..i + 1], minDelta, patience).stoppedEpoch == Some(i)
  {
    AfterStep(st, metrics, i, minDelta, patience);
    Update(After(st, metrics[..i], minDelta, patience), i, metrics[i], minDelta, patience).1
  }

  lemma AfterStep(st: Tracker, metrics: seq<real>, i: nat, minDelta: real, patience: int)
    requires i < |metrics|
    ensures After(st, metrics[..i + 1], minDelta, patience)
      == Update(After(st, metrics[..i], minDelta, patience), i, metrics[i], minDelta, patience).0
  {
    assert metrics[..i + 1][..i] == metrics[..i];
  }

  /** The first metric a fresh controller sees is always an improvement: the best becomes
      that metric and the controller stops only when `patience <= 0`. */
  lemma FreshControllerImproves(epoch: int, metric: real, minDelta: real, patience: int)
    ensures Update(Fresh, epoch, metric, minDelta, patience)
      == (Tracker(Finite(metric), 0, if patience <= 0 then Some(epoch) else None), patience <= 0)
  {
  }

  /** With a non-negative `minDelta` the best metric never goes up. */
  lemma {:induction false} BestNeverIncreases(st: Tracker, metrics: seq<real>, minDelta: real, patience: int)
    requires minDelta >= 0.0
    ensures AtMost(After(st, metrics, minDelta, patience).bestMetric, st.bestMetric)
  {
    if |metrics| > 0 {
      var before := After(st, metrics[..|metrics| - 1], minDelta, patience);
      BestNeverIncreases(st, metrics[..|metrics| - 1], minDelta, patience);
      var after := After(st, metrics, minDelta, patience);
      if Improves(before, metrics[|metrics| - 1], minDelta) {
        LessIsTotalOrder(Finite(metrics[|metrics| - 1]), Finite(metrics[|metrics| - 1] + minDelta), before.bestMetric);
        LessIsTotalOrder(after.bestMetric, before.bestMetric, st.bestMetric);
      }
    }
  }

  /** A metric that never changes improves once and then never again: from a fresh state
      with `patience >= 1` and `minDelta >= 0`, the counter after i calls is i - 1 and the
      call at epoch i asks to stop exactly when i >= patience, so call number patience + 1
      is the first to return true. */
  lemma {:induction false} ConstantMetricStopsAfterPatience(metrics: seq<real>, i: nat, minDelta: real, patience: int)
    requires patience >= 1 && minDelta >= 0.0
    requires forall k :: 0 <= k < |metrics| ==> metrics[k] == metrics[0]
    requires i < |metrics|
    ensures After(Fresh, metrics[..i + 1], minDelta, patience).bestMetric == Finite(metrics[0])
    ensures After(Fresh, metrics[..i + 1], minDelta, patience).numBadEpochs == i
    ensures Decision(Fresh, metrics, i, minDelta, patience) <==> i >= patience
  {
    AfterStep(Fresh, metrics, i, minDelta, patience);
    if i > 0 {
      ConstantMetricStopsAfterPatience(metrics, i - 1, minDelta, patience);
      assert metrics[i] == metrics[0];
    } else {
      assert metrics[..0] == [];
    }
  }

  /** A metric that keeps improving by more than `minDelta` never stops a controller with
      positive patience, and keeps the counter at zero. */
  lemma {:induction false} SteadyImprovementNeverStops(metrics: seq<real>, i: nat, minDelta: real, patience: int)
    requires patience >= 1
    requires forall k :: 0 < k < |metrics| ==> metrics[k] + minDelta < metrics[k - 1]
    requires i < |metrics|
    ensures After(Fresh, metrics[..i + 1], minDelta, patience) == Tracker(Finite(metrics[i]), 0, None)
    ensures !Decision(Fresh, metrics, i, minDelta, patience)
  {
    AfterStep(Fresh, metrics, i, minDelta, patience);
    if i > 0 {
      SteadyImprovementNeverStops(metrics, i - 1, minDelta, patience);
      assert metrics[i] + minDelta < metrics[i - 1];
    } else {
      assert metrics[..0] == [];
    }
  }

  /** The stop decision does not latch: after a stop, an improving metric resets the
      counter and the next call returns false, while the recorded stop epoch stays. */
  lemma StopDoesNotLatch(st: Tracker, epoch: int, metric: real, minDelta: real, patience: int)
    requires patience >= 1 && st.numBadEpochs >= patience
    requires Improves(st, metric, minDelta)
    ensures Update(st, epoch, metric, minDelta, patience) == (Tracker(Finite(metric), 0, st.stoppedEpoch), false)
  {
  }

  datatype StepError = MissingMetric | MetricFailed(cause: MetricError)

  /** `FairnessEarlyStopping`: the configuration is fixed, the three counters are updated by `Step`. */
  class FairnessEarlyStopping {
    const metricFn: Option<Metric>
    const patience: int
    const minDelta: real
    var bestMetric: ExtReal
    var numBadEpochs: nat
    var stoppedEpoch: Option<int>

    function State(): Tracker
      reads this
    {
      Tracker(bestMetric, numBadEpochs, stoppedEpoch)
    }

    /** `__post_init__`: best metric +inf, no bad epochs, never stopped. By default the
        metric is the parity gap, `patience` is 3 and `min_delta` is 0. */
    constructor (metricFn: Option<Metric> := Some(DemographicParity), patience: int := 3,
                 minDelta: real := 0.0)
      ensures this.metricFn == metricFn && this.patience == patience && this.minDelta == minDelta
      ensures State() == Fresh
    {
      this.metricFn := metricFn;
      this.patience := patience;
      this.minDelta := minDelta;
      bestMetric := PosInf;
      numBadEpochs := 0;
      stoppedEpoch := None;
    }

    /**
     * `step`: evaluate the metric, then update the counters and decide. A missing metric
     * function and a metric that raises both leave the state as it was.
     */
    method Step(epoch: int, yTrue: seq<int>, yPred: seq<int>, s: seq<int>) returns (res: Result<bool, StepError>)
      modifies this
      ensures metricFn.None? ==> res == Err(MissingMetric) && State() == old(State())
      ensures metricFn.Some? && EvalMetric(metricFn.value, yTrue, yPred, s).Err? ==>
        res == Err(MetricFailed(EvalMetric(metricFn.value, yTrue, yPred, s).error)) && State() == old(State())
      ensures metricFn.Some? && EvalMetric(metricFn.value, yTrue, yPred, s).Ok? ==>
        var r := Update(old(State()), epoch, EvalMetric(metricFn.value, yTrue, yPred, s).value, minDelta, patience);
        res == Ok(r.1) && State() == r.0
    {
      if metricFn.None? {
        return Err(MissingMetric);
      }
      var evaluated := EvalMetric(metricFn.value, yTrue, yPred, s);
      if evaluated.Err? {
        return Err(MetricFailed(evaluated.error));
      }
      var metricValue := evaluated.value;
      if Less(Finite(metricValue + minDelta), bestMetric) {
        bestMetric := Finite(metricValue);
        numBadEpochs := 0;
      } else {
        numBadEpochs := numBadEpochs + 1;
      }
      if numBadEpochs >= patience {
        stoppedEpoch := Some(epoch);
        return Ok(true);
      }
      return Ok(false);
    }
  }

  /** A controller built with no arguments evaluates the parity gap with patience 3 and
      `min_delta` 0, starting fresh. */
  method NewDefaultController() returns (c: FairnessEarlyStopping)
    ensures c.metricFn == Some(DemographicParity) && c.patience == 3 && c.minDelta == 0.0
    ensures c.State() == Fresh
  {
    c := new FairnessEarlyStopping();
  }
}
