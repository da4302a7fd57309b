/**
 * Proximal gradient descent with a tolerance/patience stopping rule
 * (proximal_early_stopping.py): soft-thresholding, the composite objective, and the
 * `fit` loop that stops once the relative drift of the iterate has stayed below `tol`
 * for `patience` consecutive iterations.
 */
module Proximal {
  import opened Wrappers
  import opened LinAlg

  /** `np.sign`: `-1`, `0` or `1`, zero exactly at zero, and multiplying by it gives `abs`. */
  function Sign(x: real): (s: real)
    ensures s == -1.0 || s == 0.0 || s == 1.0
    ensures s == 0.0 <==> x == 0.0
    ensures s * x == Abs(x)
  {
    if x > 0.0 then 1.0 else if x < 0.0 then -1.0 else 0.0
  }

  /** One component of the l1 proximal map: `sign(x) * max(|x| - t, 0)`, written by cases
      on the sign of `x`. */
  function SoftThreshold(x: real, t: real): (r: real)
    ensures r == 0.0 || Sign(r) == Sign(x)
    ensures t >= 0.0 && Abs(x) <= t ==> r == 0.0
    ensures t >= 0.0 && Abs(x) > t ==> Abs(r) == Abs(x) - t
  {
    if x > 0.0 then (if x - t > 0.0 then x - t else 0.0)
    else if x < 0.0 then (if -x - t > 0.0 then x + t else 0.0)
    else 0.0
  }

  /** The case split agrees with the product form `sign(x) * max(|x| - t, 0)`. */
  lemma SoftThresholdIsSignedShrink(x: real, t: real)
    ensures SoftThreshold(x, t) == Sign(x) * (if Abs(x) - t > 0.0 then Abs(x) - t else 0.0)
  {
  }

  /** `l1_proximal`: the proximal operator of `t * ||.||_1`, applied element-wise. */
  function L1Proximal(x: Vector, t: real): (r: Vector)
    ensures |r| == |x|
  {
    seq(|x|, i requires 0 <= i < |x| => SoftThreshold(x[i], t))
  }

  /** A zero threshold leaves every vector unchanged. */
  lemma ProxAtZeroIsIdentity(x: Vector)
    ensures L1Proximal(x, 0.0) == x
  {
    var r := L1Proximal(x, 0.0);
    forall i | 0 <= i < |x| ensures r[i] == x[i] {
      assert r[i] == SoftThreshold(x[i], 0.0);
    }
  }

  /** With a non-negative threshold every component shrinks in magnitude and keeps its
      sign or becomes zero; it is never flipped. */
  lemma ProxShrinksWithoutFlipping(x: Vector, t: real)
    requires t >= 0.0
    ensures forall i :: 0 <= i < |x| ==>
      Abs(L1Proximal(x, t)[i]) <= Abs(x[i]) &&
      (L1Proximal(x, t)[i] == 0.0 || Sign(L1Proximal(x, t)[i]) == Sign(x[i]))
  {
  }

  /** Components within the threshold are set to exactly zero; the others lose exactly
      `t` of their magnitude. */
  lemma ProxMagnitude(x: Vector, t: real)
    requires t >= 0.0
    ensures forall i :: 0 <= i < |x| && Abs(x[i]) <= t ==> L1Proximal(x, t)[i] == 0.0
    ensures forall i :: 0 <= i < |x| && Abs(x[i]) > t ==> Abs(L1Proximal(x, t)[i]) == Abs(x[i]) - t
  {
  }

  /** Soft-thresholding is non-expansive component by component, hence in the Euclidean norm. */
  lemma ProxNonExpansive(x: Vector, y: Vector, t: real)
    requires t >= 0.0 && |x| == |y|
    ensures forall i :: 0 <= i < |x| ==>
      Abs(L1Proximal(x, t)[i] - L1Proximal(y, t)[i]) <= Abs(x[i] - y[i])
  {
  }

  /** What a norm returns. */
  type NonNegReal = r: real | r >= 0.0

  /** The constant added to the previous iterate's norm to avoid dividing by zero. */
  const Epsilon: real := 0.000000000001

  /** The relative drift of the iterate: `||x - prev|| / (||prev|| + 1e-12)`. */
  function RelChange(norm: Vector -> NonNegReal, x: Vector, prev: Vector): (r: real)
    requires |x| == |prev|
    ensures r >= 0.0
    ensures r == 0.0 <==> norm(Sub(x, prev)) == 0.0
  {
    norm(Sub(x, prev)) / (norm(prev) + Epsilon)
  }

  /**
   * The patience counter after iteration `t` when the drift of iteration `j` is `d[j]`:
   * it goes up by one on a drift below `tol` and drops to zero otherwise.
   */
  function Counter(d: seq<real>, tol: real, t: nat): (c: nat)
    requires t < |d|
    ensures c <= t + 1
  {
    if d[t] < tol then (if t == 0 then 0 else Counter(d, tol, t - 1)) + 1 else 0
  }

  /** The counter is the length of the run of below-tolerance drifts that ends at `t`:
      all of the last `c` drifts are below `tol` and the one before them, if any, is not. */
  lemma {:induction false} CounterIsQuietRun(d: seq<real>, tol: real, t: nat)
    requires t < |d|
    ensures forall j :: t - Counter(d, tol, t) < j <= t ==> d[j] < tol
    ensures Counter(d, tol, t) <= t ==> d[t - Counter(d, tol, t)] >= tol
  {
    if d[t] < tol && t > 0 {
      CounterIsQuietRun(d, tol, t - 1);
    }
  }

  /** A stop by patience at iteration `t` (with `patience >= 1`) means that the drifts of
      iterations `t - patience + 1 .. t` were all below `tol`. */
  lemma PatienceStopMeansQuietRun(d: seq<real>, tol: real, patience: int, t: nat)
    requires t < |d| && patience >= 1 && Counter(d, tol, t) >= patience
    ensures patience <= t + 1
    ensures forall j :: t - patience < j <= t ==> d[j] < tol
  {
    CounterIsQuietRun(d, tol, t);
  }

  /** A non-positive patience is met by the counter at the very first iteration. */
  lemma NonPositivePatienceStopsAtOnce(d: seq<real>, tol: real, patience: int)
    requires 0 < |d| && patience <= 0
    ensures Counter(d, tol, 0) >= patience
  {
  }

  /** The iterate after `k` applications of the update map `step` to `x0`. */
  function Orbit(step: Vector -> Vector, x0: Vector, k: nat): (r: Vector)
    requires KeepsDimension(step)
    ensures |r| == |x0|
  {
    if k == 0 then x0 else step(Orbit(step, x0, k - 1))
  }

  /** The snapshots of the first `n` iterates after `x0`. */
  function Trace(step: Vector -> Vector, x0: Vector, n: nat): (h: seq<Vector>)
    requires KeepsDimension(step)
    ensures |h| == n
  {
    if n == 0 then [] else Trace(step, x0, n - 1) + [Orbit(step, x0, n)]
  }

  /** Entry `k` of the trace is the iterate after `k + 1` steps. */
  lemma {:induction false} TraceAt(step: Vector -> Vector, x0: Vector, n: nat, k: nat)
    requires KeepsDimension(step) && k < n
    ensures Trace(step, x0, n)[k] == Orbit(step, x0, k + 1)
  {
    if k < n - 1 {
      TraceAt(step, x0, n - 1, k);
    }
  }

  /** The objective of each of the first `n` iterates after `x0`. */
  function ObjectiveTrace(step: Vector -> Vector, objective: Vector -> real, x0: Vector, n: nat): (o: seq<real>)
    requires KeepsDimension(step)
    ensures |o| == n
  {
    if n == 0 then [] else ObjectiveTrace(step, objective, x0, n - 1) + [objective(Orbit(step, x0, n))]
  }

  /** Entry `k` of the objective trace is the objective of the iterate after `k + 1` steps. */
  lemma {:induction false} ObjectiveTraceAt(step: Vector -> Vector, objective: Vector -> real, x0: Vector, n: nat, k: nat)
    requires KeepsDimension(step) && k < n
    ensures ObjectiveTrace(step, objective, x0, n)[k] == objective(Orbit(step, x0, k + 1))
  {
    if k < n - 1 {
      ObjectiveTraceAt(step, objective, x0, n - 1, k);
    }
  }

  /** The relative drift of each of the first `n` iterations started from `x0`. */
  function Drifts(step: Vector -> Vector, norm: Vector -> NonNegReal, x0: Vector, n: nat): (d: seq<real>)
    requires KeepsDimension(step)
    ensures |d| == n
  {
    if n == 0 then []
    else Drifts(step, norm, x0, n - 1) + [RelChange(norm, Orbit(step, x0, n), Orbit(step, x0, n - 1))]
  }

  /** The drift of iteration `t` compares the iterate after `t + 1` steps with the one before. */
  lemma {:induction false} DriftsAt(step: Vector -> Vector, norm: Vector -> NonNegReal, x0: Vector, n: nat, t: nat)
    requires KeepsDimension(step) && t < n
    ensures Drifts(step, norm, x0, n)[t] == RelChange(norm, Orbit(step, x0, t + 1), Orbit(step, x0, t))
  {
    if t < n - 1 {
      DriftsAt(step, norm, x0, n - 1, t);
    }
  }

  /** What one call of the loop produces: the final iterate, the stop index, and the
      objective values and snapshots it appended. */
  datatype Run = Run(x: Vector, stopIter: nat, objValues: seq<real>, snapshots: seq<Vector>)

  /**
   * The loop of `fit` for an update map `step`, an objective and a norm.
   * It stops at the first iteration whose patience counter reaches `patience`, or at
   * `max_iter - 1`; it runs exactly `stopIter + 1` updates and records each of them.
   */
  method RunUntilStalled(step: Vector -> Vector, objective: Vector -> real, norm: Vector -> NonNegReal,
                         x0: Vector, maxIter: int, tol: real, patience: int) returns (r: Run)
    requires KeepsDimension(step) && maxIter >= 1
    ensures r.stopIter < maxIter
    ensures forall j :: 0 <= j < r.stopIter ==> Counter(Drifts(step, norm, x0, maxIter), tol, j) < patience
    ensures Counter(Drifts(step, norm, x0, maxIter), tol, r.stopIter) >= patience || r.stopIter == maxIter - 1
    ensures r.x == Orbit(step, x0, r.stopIter + 1)
    ensures r.snapshots == Trace(step, x0, r.stopIter + 1)
    ensures r.objValues == ObjectiveTrace(step, objective, x0, r.stopIter + 1)
  {
    ghost var d := Drifts(step, norm, x0, maxIter);
    var x := x0;
    var objs: seq<real> := [];
    var hist: seq<Vector> := [];
    var patienceCounter := 0;
    var prevX := x;
    var t := 0;
    var stopIter := 0;
    while t < maxIter
      invariant 0 <= t < maxIter && stopIter <= t
      invariant x == Orbit(step, x0, t) && prevX == x
      invariant patienceCounter == if t == 0 then 0 else Counter(d, tol, t - 1)
      invariant forall j :: 0 <= j < t ==> Counter(d, tol, j) < patience
      invariant hist == Trace(step, x0, t)
      invariant objs == ObjectiveTrace(step, objective, x0, t)
      decreases maxIter - t
    {
      stopIter := t;
      x := step(x);
      var obj := objective(x);
      objs := objs + [obj];
      hist := hist + [x];
      var relChange := RelChange(norm, x, prevX);
      DriftsAt(step, norm, x0, maxIter, t);
      if relChange < tol {
        patienceCounter := patienceCounter + 1;
      } else {
        patienceCounter := 0;
      }
      if patienceCounter >= patience {
        break;
      }
      if t == maxIter - 1 {
        break;
      }
      prevX := x;
      t := t + 1;
    }
    r := Run(x, stopIter, objs, hist);
  }

  /** The outcome of a successful `fit`: the final iterate, the stop index and the
      objective history. */
  datatype FitOutcome = FitOutcome(x: Vector, stopIter: nat, objValues: seq<real>)

  /** `fit` with `max_iter < 1` never binds the loop variable and raises when returning it. */
  datatype FitError = UnboundStopIndex

  class ProximalEarlyStopping {
    const design: Matrix
    const response: Vector
    const nFeatures: nat
    const lam: real
    const stepSize: real
    const maxIter: int
    const tol: real
    const patience: int

    /** The current iterate; it persists across calls of `Fit`. */
    var x: Vector
    /** Objective after each iteration run, over all `Fit` calls. */
    var objValues: seq<real>
    /** A snapshot of the iterate after each iteration run, over all `Fit` calls. */
    var history: seq<Vector>

    /** The design is an `n_samples x n_features` matrix and the response has `n_samples` entries. */
    predicate WellShaped() {
      IsMatrix(design, nFeatures) && |response| == |design|
    }

    ghost predicate Valid()
      reads this
    {
      WellShaped() && |x| == nFeatures
    }

    /** `__post_init__`: the iterate starts at zero with empty histories. The tuning
        parameters default as in the library. */
    constructor (design: Matrix, response: Vector, nFeatures: nat, lam: real := 0.1,
                 stepSize: real := 1.0, maxIter: int := 500, tol: real := 0.0001, patience: int := 5)
      requires IsMatrix(design, nFeatures) && |response| == |design|
      ensures Valid()
      ensures this.design == design && this.response == response && this.nFeatures == nFeatures
      ensures this.lam == lam && this.stepSize == stepSize && this.maxIter == maxIter
      ensures this.tol == tol && this.patience == patience
      ensures x == Zeros(nFeatures) && objValues == [] && history == []
    {
      this.design := design;
      this.response := response;
      this.nFeatures := nFeatures;
      this.lam := lam;
      this.stepSize := stepSize;
      this.maxIter := maxIter;
      this.tol := tol;
      this.patience := patience;
      x := Zeros(nFeatures);
      objValues := [];
      history := [];
    }

    /** `design @ x - response`. */
    function Residual(x: Vector): (r: Vector)
      requires WellShaped() && |x| == nFeatures
      ensures |r| == |response|
    {
      Sub(MatVec(design, x), response)
    }

    /** `_objective`: `0.5 * ||A x - y||^2 + lam * ||x||_1`. */
    function Objective(x: Vector): (o: real)
      requires WellShaped() && |x| == nFeatures
      ensures o >= lam * SumAbs(x)
    {
      DotSelfNonNegative(Residual(x));
      0.5 * Dot(Residual(x), Residual(x)) + lam * SumAbs(x)
    }

    /** The objective is non-negative whenever the penalty weight is. */
    lemma ObjectiveNonNegative(x: Vector)
      requires WellShaped() && |x| == nFeatures && lam >= 0.0
      ensures Objective(x) >= 0.0
    {
      SumAbsNonNegative(x);
    }

    /** Without penalty the objective is half the squared residual, which is non-negative. */
    lemma ObjectiveWithoutPenalty(x: Vector)
      requires WellShaped() && |x| == nFeatures && lam == 0.0
      ensures Objective(x) == 0.5 * Dot(Residual(x), Residual(x)) >= 0.0
    {
      DotSelfNonNegative(Residual(x));
    }

    /** The gradient of the least-squares term: `A.T @ (A x - y)`. */
    function Gradient(x: Vector): (g: Vector)
      requires WellShaped() && |x| == nFeatures
      ensures |g| == nFeatures
    {
      TransposeMatVec(design, nFeatures, Residual(x))
    }

    /** One forward-backward step: a gradient step followed by the l1 proximal map at
        threshold `lam * step_size`. */
    function Step(x: Vector): (r: Vector)
      requires WellShaped() && |x| == nFeatures
      ensures |r| == nFeatures
    {
      L1Proximal(Sub(x, Scale(stepSize, Gradient(x))), lam * stepSize)
    }

    /** `Step` as a map on all vectors (only vectors of `n_features` entries ever reach it). */
    function StepMap(): (step: Vector -> Vector)
      ensures KeepsDimension(step)
    {
      v => if WellShaped() && |v| == nFeatures then Step(v) else v
    }

    /** On vectors of `n_features` entries the update map is `Step`, so the orbit of the
        loop is the sequence of forward-backward iterates. */
    lemma OrbitSteps(x0: Vector, k: nat)
      requires WellShaped() && |x0| == nFeatures
      ensures Orbit(StepMap(), x0, k + 1) == Step(Orbit(StepMap(), x0, k))
    {
    }

    /** `Objective` as a map on all vectors. */
    function ObjectiveMap(): Vector -> real {
      v => if WellShaped() && |v| == nFeatures then Objective(v) else 0.0
    }

    /**
     * `fit`. The Euclidean norm is the parameter `norm` (it takes a square root, which exact
     * reals do not have). The returned stop index is the first iteration whose patience
     * counter reaches `patience`, or `max_iter - 1` when none does; the iterate, the
     * objective history and the snapshot history advance by exactly `stopIter + 1` steps.
     */
    method Fit(norm: Vector -> NonNegReal) returns (res: Result<FitOutcome, FitError>)
      requires Valid()
      modifies this
      ensures Valid()
      ensures maxIter < 1 ==>
        res == Err(UnboundStopIndex) &&
        x == old(x) && objValues == old(objValues) && history == old(history)
      ensures maxIter >= 1 ==>
        var d := Drifts(StepMap(), norm, old(x), maxIter as nat);
        && res.Ok?
        && res.value.stopIter < maxIter
        && (forall j :: 0 <= j < res.value.stopIter ==> Counter(d, tol, j) < patience)
        && (Counter(d, tol, res.value.stopIter) >= patience || res.value.stopIter == maxIter - 1)
        && x == Orbit(StepMap(), old(x), res.value.stopIter + 1)
        && history == old(history) + Trace(StepMap(), old(x), res.value.stopIter + 1)
        && objValues == old(objValues) + ObjectiveTrace(StepMap(), ObjectiveMap(), old(x), res.value.stopIter + 1)
        && res.value == FitOutcome(x, res.value.stopIter, objValues)
    {
      if maxIter < 1 {
        return Err(UnboundStopIndex);
      }
      var run := RunUntilStalled(StepMap(), ObjectiveMap(), norm, x, maxIter, tol, patience);
      x := run.x;
      objValues := objValues + run.objValues;
      history := history + run.snapshots;
      res := Ok(FitOutcome(x, run.stopIter, objValues));
    }
  }

  /** A solver built from the data alone uses `lam` 0.1, `step_size` 1, `max_iter` 500,
      `tol` 1e-4 and `patience` 5, and starts at zero. */
  method NewDefaultSolver(design: Matrix, response: Vector, nFeatures: nat) returns (s: ProximalEarlyStopping)
    requires IsMatrix(design, nFeatures) && |response| == |design|
    ensures s.lam == 0.1 && s.stepSize == 1.0 && s.maxIter == 500 && s.tol == 0.0001 && s.patience == 5
    ensures s.x == Zeros(nFeatures) && s.objValues == [] && s.history == []
  {
    s := new ProximalEarlyStopping(design, response, nFeatures);
  }
}
