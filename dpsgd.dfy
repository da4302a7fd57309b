/**
 * Noisy ("differentially private") gradient descent with early stopping on the
 * validation loss (dp_early_stopping.py). The training gradient, the validation loss and
 * the Gaussian draws are inputs: `gradFn` stands for `grad_fn(params, x_train, y_train)`,
 * `lossFn` for `loss_fn(x_val @ params, y_val)`, and `noise[t]` for the standard-normal
 * draws of iteration `t`, which `np.random.normal(scale=noise_std)` scales by `noise_std`.
 */
module DpSgd {
  import opened Wrappers
  import opened Extended
  import opened LinAlg

  /** Every draw has the dimension of the parameters. */
  ghost predicate DrawsFit(noise: seq<Vector>, dim: nat) {
    forall t :: 0 <= t < |noise| ==> |noise[t]| == dim
  }

  /** The starting parameters: a copy of `initial_params`, else zeros of `num_features` entries. */
  function InitialParams(initialParams: Option<Vector>, numFeatures: nat): (p: Vector)
    ensures initialParams.None? ==> |p| == numFeatures && forall i :: 0 <= i < |p| ==> p[i] == 0.0
    ensures initialParams.Some? ==> p == initialParams.value
  {
    match initialParams
    case Some(p) => p
    case None => Zeros(numFeatures)
  }

  /** The update of iteration `t`: `params - lr * (grad_fn(params) + noise_std * noise[t])`.
      The guard only makes the map total; `OrbitIsNoisySteps` shows that along the iterates
      of `fit` it always holds. Every update keeps the dimension of the parameters. */
  function NoisyUpdate(gradFn: Vector -> Vector, lr: real, noiseStd: real, noise: seq<Vector>): (update: (nat, Vector) -> Vector)
    ensures forall t: nat, p: Vector :: |update(t, p)| == |p|
  {
    var update := (t: nat, p: Vector) =>
      if t < |noise| && |noise[t]| == |p| && |gradFn(p)| == |p|
      then Sub(p, Scale(lr, Add(gradFn(p), Scale(noiseStd, noise[t]))))
      else p;
    assert forall t: nat, p: Vector :: |update(t, p)| == |p| by {
      forall t: nat, p: Vector
        ensures |update(t, p)| == |p|
      {
        if t < |noise| && |noise[t]| == |p| && |gradFn(p)| == |p| {
          assert |Sub(p, Scale(lr, Add(gradFn(p), Scale(noiseStd, noise[t]))))| == |p|;
        }
      }
    }
    update
  }

  /** The parameters after `k` iterations from `p0`, iteration `t` applying `update(t, .)`. */
  function ParamsAfter(update: (nat, Vector) -> Vector, p0: Vector, k: nat): Vector {
    if k == 0 then p0 else update(k - 1, ParamsAfter(update, p0, k - 1))
  }

  lemma {:induction false} NoisyParamsKeepDimension(gradFn: Vector -> Vector, lr: real, noiseStd: real,
                                                    noise: seq<Vector>, p0: Vector, k: nat)
    ensures |ParamsAfter(NoisyUpdate(gradFn, lr, noiseStd, noise), p0, k)| == |p0|
  {
    if k > 0 {
      NoisyParamsKeepDimension(gradFn, lr, noiseStd, noise, p0, k - 1);
    }
  }

  /** With a dimension-preserving gradient and draws of the parameters' dimension, the
      iterates of the loop are the noisy gradient steps themselves: iterate `k + 1` is
      `p - lr * (grad_fn(p) + noise_std * noise[k])` for iterate `p = k`, which keeps the
      dimension of the starting parameters. */
  lemma OrbitIsNoisySteps(gradFn: Vector -> Vector, lr: real, noiseStd: real, noise: seq<Vector>, p0: Vector, k: nat)
    requires KeepsDimension(gradFn) && DrawsFit(noise, |p0|) && k < |noise|
    ensures var p := ParamsAfter(NoisyUpdate(gradFn, lr, noiseStd, noise), p0, k);
      && |p| == |p0|
      && ParamsAfter(NoisyUpdate(gradFn, lr, noiseStd, noise), p0, k + 1)
         == Sub(p, Scale(lr, Add(gradFn(p), Scale(noiseStd, noise[k]))))
  {
    NoisyParamsKeepDimension(gradFn, lr, noiseStd, noise, p0, k);
  }

  /** The validation losses of the first `n` iterations. */
  function Losses(update: (nat, Vector) -> Vector, lossFn: Vector -> ExtReal, p0: Vector, n: nat): (l: seq<ExtReal>)
    ensures |l| == n
  {
    if n == 0 then [] else Losses(update, lossFn, p0, n - 1) + [lossFn(ParamsAfter(update, p0, n))]
  }

  /** Entry `t` of the loss history is the loss of the parameters after `t + 1` iterations. */
  lemma {:induction false} LossesAt(update: (nat, Vector) -> Vector, lossFn: Vector -> ExtReal, p0: Vector, n: nat, t: nat)
    requires t < n
    ensures Losses(update, lossFn, p0, n)[t] == lossFn(ParamsAfter(update, p0, t + 1))
  {
    if t < n - 1 {
      LossesAt(update, lossFn, p0, n - 1, t);
    }
  }

  /** `best_val` once the losses `l[..t]` have been seen: it starts at +inf and is replaced
      by a loss only when that loss is strictly below it. */
  function BestBefore(l: seq<ExtReal>, t: nat): (b: ExtReal)
    requires t <= |l|
    ensures b == PosInf || b in l[..t]
  {
    if t == 0 then PosInf
    else
      assert l[..t] == l[..t - 1] + [l[t - 1]];
      if Less(l[t - 1], BestBefore(l, t - 1)) then l[t - 1]
      else BestBefore(l, t - 1)
  }

  /** Iteration `t` improves on the best value seen before it. */
  predicate Improves(l: seq<ExtReal>, t: nat)
    requires t < |l|
  {
    Less(l[t], BestBefore(l, t))
  }

  /** `bad_count` after iteration `t`: zero on an improvement, one more otherwise. */
  function BadCount(l: seq<ExtReal>, t: nat): (c: nat)
    requires t < |l|
    ensures c <= t + 1
  {
    if Improves(l, t) then 0 else (if t == 0 then 0 else BadCount(l, t - 1)) + 1
  }

  /** The iteration whose snapshot `best_params` holds after `l[..t]`; `None` while it
      still holds the initial parameters. */
  function BestIndex(l: seq<ExtReal>, t: nat): (k: Option<nat>)
    requires t <= |l|
    ensures k.Some? ==> k.value < t
  {
    if t == 0 then None
    else if Improves(l, t - 1) then Some(t - 1)
    else BestIndex(l, t - 1)
  }

  /** The best value is the minimum of the losses seen, and it is one of them unless none
      was below +inf. */
  lemma {:induction false} BestBeforeIsMinimum(l: seq<ExtReal>, t: nat)
    requires t <= |l|
    ensures forall j :: 0 <= j < t ==> AtMost(BestBefore(l, t), l[j])
    ensures BestIndex(l, t).Some? ==> BestBefore(l, t) == l[BestIndex(l, t).value]
    ensures BestIndex(l, t).None? ==> BestBefore(l, t) == PosInf
  {
    if t > 0 {
      BestBeforeIsMinimum(l, t - 1);
      forall j | 0 <= j < t
        ensures AtMost(BestBefore(l, t), l[j])
      {
        if j < t - 1 {
          LessIsTotalOrder(BestBefore(l, t), BestBefore(l, t - 1), l[j]);
        } else {
          LessIsTotalOrder(l[j], BestBefore(l, t - 1), l[j]);
        }
      }
    }
  }

  /** The snapshot kept is that of the FIRST iteration attaining the minimum loss: its loss
      is at most every loss seen and strictly below every earlier one. When no loss was
      below +inf, every loss seen was +inf. */
  lemma {:induction false} BestIndexIsFirstMinimum(l: seq<ExtReal>, t: nat)
    requires t <= |l|
    ensures BestIndex(l, t).Some? ==>
      var k := BestIndex(l, t).value;
      (forall j :: 0 <= j < t ==> AtMost(l[k], l[j])) &&
      (forall j :: 0 <= j < k ==> Less(l[k], l[j]))
    ensures BestIndex(l, t).None? ==> forall j :: 0 <= j < t ==> l[j] == PosInf
  {
    BestBeforeIsMinimum(l, t);
    if t > 0 {
      BestIndexIsFirstMinimum(l, t - 1);
      if Improves(l, t - 1) {
        BestBeforeIsMinimum(l, t - 1);
        forall j | 0 <= j < t - 1
          ensures Less(l[t - 1], l[j])
        {
          LessIsTotalOrder(l[t - 1], BestBefore(l, t - 1), l[j]);
        }
      }
    }
  }

  /** `bad_count` is the length of the run of non-improving iterations that ends at `t`. */
  lemma {:induction false} BadCountIsStaleRun(l: seq<ExtReal>, t: nat)
    requires t < |l|
    ensures forall j :: t - BadCount(l, t) < j <= t ==> !Improves(l, j)
    ensures BadCount(l, t) <= t ==> Improves(l, t - BadCount(l, t))
  {
    if !Improves(l, t) && t > 0 {
      BadCountIsStaleRun(l, t - 1);
    }
  }

  /** A stop by patience at iteration `t` means each of the last `patience` losses was at
      least the best loss seen before it. */
  lemma PatienceStopMeansNoImprovement(l: seq<ExtReal>, patience: int, t: nat)
    requires t < |l| && patience >= 1 && BadCount(l, t) >= patience
    ensures patience <= t + 1
    ensures forall j :: t - patience < j <= t ==> AtMost(BestBefore(l, j), l[j])
  {
    BadCountIsStaleRun(l, t);
    forall j | t - patience < j <= t
      ensures AtMost(BestBefore(l, j), l[j])
    {
      assert !Improves(l, j);
      LessIsTotalOrder(l[j], BestBefore(l, j), l[j]);
    }
  }

  /** A strictly decreasing run of finite losses never stalls. */
  lemma {:induction false} DecreasingLossesNeverStall(l: seq<ExtReal>, t: nat)
    requires t < |l|
    requires forall j :: 0 <= j < |l| ==> l[j].Finite?
    requires forall j :: 0 < j < |l| ==> Less(l[j], l[j - 1])
    ensures BadCount(l, t) == 0 && BestBefore(l, t + 1) == l[t]
  {
    if t > 0 {
      DecreasingLossesNeverStall(l, t - 1);
    }
  }

  /** With a constant finite loss the first iteration sets the best value and every later
      one is a bad iteration, so `bad_count` after iteration `t` is `t`. */
  lemma {:induction false} ConstantLossesStall(l: seq<ExtReal>, t: nat)
    requires t < |l| && l[0].Finite?
    requires forall j :: 0 <= j < |l| ==> l[j] == l[0]
    ensures BadCount(l, t) == t && BestBefore(l, t + 1) == l[0]
  {
    if t > 0 {
      ConstantLossesStall(l, t - 1);
    }
  }

  /** The linear privacy ledger: `(stop_iter + 1) * eps_per_iter`. */
  function TotalEps(stopIter: nat, epsPerIter: real): (total: real)
    ensures epsPerIter >= 0.0 ==> total >= epsPerIter
  {
    (stopIter + 1) as real * epsPerIter
  }

  /** The ledger grows with the number of iterations run. */
  lemma TotalEpsMonotone(s1: nat, s2: nat, epsPerIter: real)
    requires s1 <= s2 && epsPerIter >= 0.0
    ensures 0.0 <= TotalEps(s1, epsPerIter) <= TotalEps(s2, epsPerIter)
  {
    assert (s2 + 1) as real * epsPerIter - (s1 + 1) as real * epsPerIter == (s2 - s1) as real * epsPerIter;
  }

  /** The documented configuration spends 0.5 over ten iterations. */
  lemma TotalEpsExample()
    ensures TotalEps(9, 0.05) == 0.5
  {
  }

  /** What `fit` returns. */
  datatype DpFit = DpFit(bestParams: Vector, stopIter: nat, totalEps: real, valHistory: seq<ExtReal>)

  /** What the training loop produces: the kept snapshot, the stop index and the losses. */
  datatype Training = Training(bestParams: Vector, stopIter: nat, valHistory: seq<ExtReal>)

  /** The snapshot `best_params` holds once the losses `l[..t]` have been seen. */
  function BestSnapshot(update: (nat, Vector) -> Vector, p0: Vector, l: seq<ExtReal>, t: nat): Vector
    requires t <= |l|
  {
    match BestIndex(l, t)
    case None => p0
    case Some(k) => ParamsAfter(update, p0, k + 1)
  }

  /** What one iteration adds to the specification functions of the loop. */
  lemma TrainingStep(update: (nat, Vector) -> Vector, p0: Vector, l: seq<ExtReal>, t: nat)
    requires t < |l|
    ensures l[..t + 1] == l[..t] + [l[t]]
    ensures BestBefore(l, t + 1) == if Improves(l, t) then l[t] else BestBefore(l, t)
    ensures BestSnapshot(update, p0, l, t + 1)
      == if Improves(l, t) then ParamsAfter(update, p0, t + 1) else BestSnapshot(update, p0, l, t)
  {
    assert l[..t + 1] == l[..t] + [l[t]];
  }

  /**
   * The loop of `fit`: update, record the validation loss, keep the
   * snapshot of a strictly better loss, and stop once `bad_count` reaches `patience`
   * or after `max_iter` iterations.
   */
  method TrainWithPatience(update: (nat, Vector) -> Vector, lossFn: Vector -> ExtReal, p0: Vector,
                           maxIter: int, patience: int) returns (r: Training)
    requires maxIter >= 1
    ensures r.stopIter < maxIter
    ensures forall j :: 0 <= j < r.stopIter ==> BadCount(Losses(update, lossFn, p0, maxIter), j) < patience
    ensures BadCount(Losses(update, lossFn, p0, maxIter), r.stopIter) >= patience || r.stopIter == maxIter - 1
    ensures r.valHistory == Losses(update, lossFn, p0, maxIter)[..r.stopIter + 1]
    ensures r.bestParams == BestSnapshot(update, p0, Losses(update, lossFn, p0, maxIter), r.stopIter + 1)
  {
    ghost var l := Losses(update, lossFn, p0, maxIter);
    var params := p0;
    var bestVal := PosInf;
    var bestParams := params;
    var valHistory: seq<ExtReal> := [];
    var badCount := 0;
    var t := 0;
    var stopIter := 0;
    while t < maxIter
      invariant 0 <= t < maxIter && stopIter <= t
      invariant params == ParamsAfter(update, p0, t)
      invariant valHistory == l[..t]
      invariant bestVal == BestBefore(l, t)
      invariant bestParams == BestSnapshot(update, p0, l, t)
      invariant badCount == if t == 0 then 0 else BadCount(l, t - 1)
      invariant forall j :: 0 <= j < t ==> BadCount(l, j) < patience
      decreases maxIter - t
    {
      stopIter := t;
      params := update(t, params);
      var valLoss := lossFn(params);
      LossesAt(update, lossFn, p0, maxIter, t);
      TrainingStep(update, p0, l, t);
      valHistory := valHistory + [valLoss];
      if Less(valLoss, bestVal) {
        bestVal := valLoss;
        bestParams := params;
        badCount := 0;
      } else {
        badCount := badCount + 1;
      }
      if badCount >= patience {
        break;
      }
      if t == maxIter - 1 {
        break;
      }
      t := t + 1;
    }
    r := Training(bestParams, stopIter, valHistory);
  }

  /** `fit` with `max_iter < 1` never binds the loop variable and raises when reading it;
      with a negative `noise_std` the first draw raises (`scale < 0`). */
  datatype FitError = UnboundStopIndex | NegativeNoiseScale

  class DpSgdEarlyStopping {
    /** `loss_fn`, already applied to the validation predictions `x_val @ params`. */
    const lossFn: Vector -> ExtReal
    /** `grad_fn`, already applied to the training data. */
    const gradFn: Vector -> Vector
    const noiseStd: real
    const lr: real
    const maxIter: int
    const patience: int
    const epsPerIter: real

    /** The callables are required; the numeric settings default as in the library. */
    constructor (lossFn: Vector -> ExtReal, gradFn: Vector -> Vector, noiseStd: real := 1.0,
                 lr: real := 0.1, maxIter: int := 200, patience: int := 10, epsPerIter: real := 0.05)
      ensures this.lossFn == lossFn && this.gradFn == gradFn
      ensures this.noiseStd == noiseStd && this.lr == lr && this.maxIter == maxIter
      ensures this.patience == patience && this.epsPerIter == epsPerIter
    {
      this.lossFn := lossFn;
      this.gradFn := gradFn;
      this.noiseStd := noiseStd;
      this.lr := lr;
      this.maxIter := maxIter;
      this.patience := patience;
      this.epsPerIter := epsPerIter;
    }

    /**
     * `fit`: it stops at the first iteration whose `bad_count` reaches `patience`, or at
     * `max_iter - 1`; it returns the snapshot of the best iteration (or the initial
     * parameters), the stop index, the linear privacy total and one loss per iteration run.
     * `OrbitIsNoisySteps` shows that under the shapes required here each iterate is the
     * noisy gradient step from the one before.
     */
    method Fit(noise: seq<Vector>, numFeatures: nat, initialParams: Option<Vector>) returns (res: Result<DpFit, FitError>)
      requires KeepsDimension(gradFn)
      requires DrawsFit(noise, |InitialParams(initialParams, numFeatures)|)
      requires maxIter <= |noise|
      ensures maxIter < 1 ==> res == Err(UnboundStopIndex)
      ensures maxIter >= 1 && noiseStd < 0.0 ==> res == Err(NegativeNoiseScale)
      ensures maxIter >= 1 && noiseStd >= 0.0 ==>
        var update := NoisyUpdate(gradFn, lr, noiseStd, noise);
        var p0 := InitialParams(initialParams, numFeatures);
        var l := Losses(update, lossFn, p0, maxIter as nat);
        && res.Ok?
        && res.value.stopIter < maxIter
        && (forall j :: 0 <= j < res.value.stopIter ==> BadCount(l, j) < patience)
        && (BadCount(l, res.value.stopIter) >= patience || res.value.stopIter == maxIter - 1)
        && res.value.valHistory == l[..res.value.stopIter + 1]
        && res.value.bestParams == BestSnapshot(update, p0, l, res.value.stopIter + 1)
        && res.value.totalEps == TotalEps(res.value.stopIter, epsPerIter)
        && |res.value.bestParams| == |p0|
    {
      if maxIter < 1 {
        return Err(UnboundStopIndex);
      }
      if noiseStd < 0.0 {
        return Err(NegativeNoiseScale);
      }
      var p0 := InitialParams(initialParams, numFeatures);
      var run := TrainWithPatience(NoisyUpdate(gradFn, lr, noiseStd, noise), lossFn, p0, maxIter, patience);
      ghost var l := Losses(NoisyUpdate(gradFn, lr, noiseStd, noise), lossFn, p0, maxIter as nat);
      match BestIndex(l, run.stopIter + 1) {
        case None =>
        case Some(k) => NoisyParamsKeepDimension(gradFn, lr, noiseStd, noise, p0, k + 1);
      }
      var totalEps := TotalEps(run.stopIter, epsPerIter);
      res := Ok(DpFit(run.bestParams, run.stopIter, totalEps, run.valHistory));
    }
  }

  /** A trainer built from the two callables alone uses `noise_std` 1, `lr` 0.1,
      `max_iter` 200, `patience` 10 and `eps_per_iter` 0.05. */
  method NewDefaultTrainer(lossFn: Vector -> ExtReal, gradFn: Vector -> Vector) returns (d: DpSgdEarlyStopping)
    ensures d.lossFn == lossFn && d.gradFn == gradFn
    ensures d.noiseStd == 1.0 && d.lr == 0.1 && d.maxIter == 200 && d.patience == 10 && d.epsPerIter == 0.05
  {
    d := new DpSgdEarlyStopping(lossFn, gradFn);
  }
}
