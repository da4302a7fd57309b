# Early stopping, modelled in Dafny

This project models the core of a small teaching library of early-stopping schemes. It
has four parts:

- **Proximal gradient descent** (`proximal.dfy`, module `Proximal`), used for the lasso.
  Each iteration takes a gradient step on `0.5 * ||A x - y||^2` and then soft-thresholds
  at `lam * step_size`. The run stops once the relative drift of the iterate has been
  below `tol` for `patience` consecutive iterations, or after `max_iter` iterations.
- **Fairness-driven early stopping** (`fairness.dfy`, module `Fairness`). It computes
  per-group error rates and the demographic parity gap (the largest group error rate
  minus the smallest). A controller stops when that gap has not improved by more than
  `min_delta` for `patience` epochs.
- **Noisy gradient descent with a privacy ledger** (`dpsgd.dfy`, module `DpSgd`). Gaussian
  noise is added to every gradient. The run stops after `patience` iterations without a
  strictly better validation loss, and returns the parameters of the best iteration. The
  privacy spending is charged linearly.
- **Component-wise freezing** (`component.dfy`, module `ComponentFreeze`). After a
  backward pass, every trainable parameter whose gradient norm is below a threshold is
  frozen, and its name is recorded.

Supporting modules: `Wrappers` (`Option`, `Result`), `Extended` (reals extended with
`+inf`, for `np.inf` initial bests) and `LinAlg` (exact vector and matrix arithmetic).

How the model is structured:

- Each stateful Python class is a Dafny class. Configuration fields, the DP callables
  included, are `const`s and updated fields are `var`s. Constructor parameters carry the
  library's default values.
- Each training loop is a `method` with a `while` or `for` loop. Its contract is stated
  against recursive specification functions: the orbit of the update map, the recorded
  traces, the patience counter and the best-so-far value.
- The lemmas prove what those functions mean. For example, a patience stop means the last
  `patience` iterations were all quiet, and the kept DP snapshot is the first iteration
  that attains the minimum loss.
- Inputs the library takes from outside are parameters of the model. These are the
  Euclidean norm, the gradient and loss callables, the Gaussian draws and a caller's
  fairness metric.
- Most error paths of the Python code are modelled as `Result` values. These are
  `max_iter < 1` (the loop variable is never bound), a negative `noise_std` (the first
  Gaussian draw raises), a missing `metric_fn`, mismatched fairness arrays and `np.max`
  of an empty array. The exceptions are the shape errors of the numpy products in the
  two solvers, which become preconditions (see "Left out").

## Model

| member | source | states |
|---|---|---|
| `LinAlg.Abs` | proximal_early_stopping.py:48 | `abs(x)` is non-negative and equals `x` or `-x` |
| `LinAlg.Zeros` | proximal_early_stopping.py:99 | `np.zeros(n)` has `n` entries, all zero |
| `LinAlg.DotSelfNonNegative` | proximal_early_stopping.py:106 | `np.dot(r, r) >= 0` for every vector |
| `LinAlg.SumAbsNonNegative` | proximal_early_stopping.py:106 | `np.sum(np.abs(x)) >= 0` |
| `Extended.LessIsTotalOrder` | dp_early_stopping.py:107 | `<` on reals extended with `+inf` is a strict total order, and `<=` is transitive |
| `Proximal.Sign` | proximal_early_stopping.py:48 | `np.sign` is `-1`, `0` or `1`, zero exactly at zero, and `sign(x) * x == abs(x)`; `SoftThresholdIsSignedShrink` uses it in the prox formula |
| `Proximal.SoftThresholdIsSignedShrink` | proximal_early_stopping.py:48 | the per-component case split equals `sign(x) * max(abs(x) - t, 0)` |
| `Proximal.SoftThreshold` | proximal_early_stopping.py:48 | one component of the prox is zero or keeps the input's sign; for `t >= 0` it is exactly 0 within the threshold and otherwise loses exactly `t` of its magnitude |
| `Proximal.L1Proximal` | proximal_early_stopping.py:33-48 | the prox keeps the vector's length |
| `Proximal.ProxAtZeroIsIdentity` | proximal_early_stopping.py:48 | a zero threshold returns the input unchanged |
| `Proximal.ProxShrinksWithoutFlipping` | proximal_early_stopping.py:48 | for `t >= 0` every component shrinks in magnitude and is zero or keeps its sign |
| `Proximal.ProxMagnitude` | proximal_early_stopping.py:48 | components with `abs(x_i) <= t` become exactly 0; the others lose exactly `t` of their magnitude |
| `Proximal.ProxNonExpansive` | proximal_early_stopping.py:48 | `abs(prox(x)_i - prox(y)_i) <= abs(x_i - y_i)` for every component |
| `Proximal.Counter` | proximal_early_stopping.py:143-146 | the patience counter after iteration `t` is at most `t + 1` |
| `Proximal.CounterIsQuietRun` | proximal_early_stopping.py:143-146 | the counter is exactly the length of the run of below-`tol` drifts ending at `t` (all in the run are below `tol`, the one before is not) |
| `Proximal.PatienceStopMeansQuietRun` | proximal_early_stopping.py:143-148 | a patience stop at `t` means the drifts of the last `patience` iterations were all below `tol` |
| `Proximal.NonPositivePatienceStopsAtOnce` | proximal_early_stopping.py:147-148 | with `patience <= 0` the stop test holds at iteration 0 |
| `Proximal.RelChange` | proximal_early_stopping.py:140-142 | the relative change is non-negative, and zero exactly when the step has zero norm |
| `Proximal.Orbit` | proximal_early_stopping.py:123-128 | every iterate keeps the dimension of the starting iterate |
| `Proximal.Trace` | proximal_early_stopping.py:133 | the snapshot history has one entry per update; `TraceAt` fixes each entry |
| `Proximal.TraceAt` | proximal_early_stopping.py:133 | entry `k` of the snapshot history is the iterate after `k + 1` updates |
| `Proximal.ObjectiveTrace` | proximal_early_stopping.py:131-132 | the objective history has one entry per update; `ObjectiveTraceAt` fixes each entry |
| `Proximal.ObjectiveTraceAt` | proximal_early_stopping.py:131-132 | entry `k` of the objective history is the objective of the iterate after `k + 1` updates |
| `Proximal.Drifts` | proximal_early_stopping.py:140-142 | one relative drift per update; `DriftsAt` fixes each one |
| `Proximal.DriftsAt` | proximal_early_stopping.py:140-142 | drift `t` is `norm(x_{t+1} - x_t) / (norm(x_t) + 1e-12)` |
| `Proximal.RunUntilStalled` | proximal_early_stopping.py:120-151 | the loop stops at the first iteration whose counter reaches `patience`, else at `max_iter - 1`; it runs `stop + 1` updates and records each iterate and its objective |
| `Proximal.ProximalEarlyStopping.constructor` | proximal_early_stopping.py:88-101 | the data and settings are stored as given (`lam` 0.1, `step_size` 1.0, `max_iter` 500, `tol` 1e-4 and `patience` 5 by default); the iterate starts at zero and both histories start empty |
| `Proximal.NewDefaultSolver` | proximal_early_stopping.py:90-101 | a solver built from the data alone has the library's default settings, a zero iterate and empty histories |
| `Proximal.ProximalEarlyStopping.Residual` | proximal_early_stopping.py:105 | `A x - y` has one entry per sample |
| `Proximal.ProximalEarlyStopping.Objective` | proximal_early_stopping.py:103-106 | `_objective` is at least its penalty term `lam * sum(abs(x))`, since the squared residual is non-negative |
| `Proximal.ProximalEarlyStopping.ObjectiveNonNegative` | proximal_early_stopping.py:103-106 | the objective is `>= 0` whenever `lam >= 0` |
| `Proximal.ProximalEarlyStopping.ObjectiveWithoutPenalty` | proximal_early_stopping.py:103-106 | with `lam = 0` the objective is half the squared residual |
| `Proximal.ProximalEarlyStopping.Gradient` | proximal_early_stopping.py:125 | `A.T @ (A x - y)` has one entry per feature |
| `Proximal.ProximalEarlyStopping.Step` | proximal_early_stopping.py:125-128 | the forward-backward step keeps the number of features |
| `Proximal.ProximalEarlyStopping.StepMap` | proximal_early_stopping.py:125-128 | the update map keeps the dimension of every vector |
| `Proximal.ProximalEarlyStopping.OrbitSteps` | proximal_early_stopping.py:123-128 | successive iterates of the loop are successive forward-backward steps |
| `Proximal.ProximalEarlyStopping.Fit` | proximal_early_stopping.py:108-151 | `max_iter < 1` is an error that changes nothing; otherwise the stop index is the first patience stop or `max_iter - 1`, and the iterate, `obj_values` and `history` advance by exactly `stop + 1` steps |
| `DpSgd.InitialParams` | dp_early_stopping.py:86-88 | the start is `initial_params` when given, else `num_features` zeros |
| `DpSgd.NoisyUpdate` | dp_early_stopping.py:96-101 | every update keeps the dimension of the parameters |
| `DpSgd.ParamsAfter` | dp_early_stopping.py:94-101 | `params` after `k` passes of the loop; `NoisyParamsKeepDimension` and `OrbitIsNoisySteps` state its dimension and each noisy step |
| `DpSgd.NoisyParamsKeepDimension` | dp_early_stopping.py:94-101 | every iterate has the dimension of the starting parameters |
| `DpSgd.OrbitIsNoisySteps` | dp_early_stopping.py:96-101 | with a dimension-preserving gradient and draws of matching size, iterate `k + 1` is `p - lr * (grad_fn(p) + noise_std * z_k)` for iterate `p = k` |
| `DpSgd.Losses` | dp_early_stopping.py:103-105 | there is one validation loss per iteration |
| `DpSgd.LossesAt` | dp_early_stopping.py:101-105 | loss `t` is the loss of the parameters after `t + 1` noisy updates |
| `DpSgd.Improves` | dp_early_stopping.py:107 | iteration `t` improves when its loss is strictly below `best_val`; `BestBeforeIsMinimum` and `BadCountIsStaleRun` state what that makes of the best value and the counter |
| `DpSgd.BadCount` | dp_early_stopping.py:106-112 | `bad_count` after iteration `t` is at most `t + 1` |
| `DpSgd.BestIndex` | dp_early_stopping.py:107-110 | the kept snapshot comes from an iteration already seen |
| `DpSgd.BestBefore` | dp_early_stopping.py:107-108 | `best_val` is `+inf` or one of the losses seen so far |
| `DpSgd.BestSnapshot` | dp_early_stopping.py:107-110 | `best_params` is the initial parameters or the iterate of iteration `BestIndex`; `BestIndexIsFirstMinimum` makes that the first minimum |
| `DpSgd.BestBeforeIsMinimum` | dp_early_stopping.py:107-108 | `best_val` is the minimum of the losses seen: it is one of them, or `+inf` when no snapshot was taken |
| `DpSgd.BestIndexIsFirstMinimum` | dp_early_stopping.py:107-110 | the kept snapshot is the first iteration attaining the minimum loss; with none, every loss was `+inf` |
| `DpSgd.BadCountIsStaleRun` | dp_early_stopping.py:106-112 | `bad_count` is the length of the run of non-improving iterations ending at `t` |
| `DpSgd.PatienceStopMeansNoImprovement` | dp_early_stopping.py:106-114 | a patience stop at `t` means each of the last `patience` losses was at least the best before it |
| `DpSgd.DecreasingLossesNeverStall` | dp_early_stopping.py:107-112 | strictly decreasing finite losses keep `bad_count` at 0, and each is the new best |
| `DpSgd.ConstantLossesStall` | dp_early_stopping.py:107-114 | a constant finite loss gives `bad_count == t` after iteration `t` |
| `DpSgd.TotalEps` | dp_early_stopping.py:121 | with non-negative `eps_per_iter`, at least one iteration is always charged |
| `DpSgd.TotalEpsMonotone` | dp_early_stopping.py:121 | the privacy total is non-negative and grows with the stop index |
| `DpSgd.TotalEpsExample` | dp_early_stopping.py:121 | stopping at index 9 with 0.05 per iteration spends 0.5 |
| `DpSgd.TrainWithPatience` | dp_early_stopping.py:89-120 | the loop stops at the first `bad_count >= patience` or at `max_iter - 1`, returns every loss seen and the snapshot of the first minimum (or the initial parameters) |
| `DpSgd.DpSgdEarlyStopping.constructor` | dp_early_stopping.py:55-62 | `loss_fn`, `grad_fn` and the settings are stored as given (`noise_std` 1.0, `lr` 0.1, `max_iter` 200, `patience` 10 and `eps_per_iter` 0.05 by default) |
| `DpSgd.NewDefaultTrainer` | dp_early_stopping.py:55-61 | a trainer built from the two callables alone has the library's default settings |
| `DpSgd.DpSgdEarlyStopping.Fit` | dp_early_stopping.py:64-122 | `max_iter < 1` is an error, and so is a negative `noise_std` when the loop runs; otherwise the stop rule, the history, the best snapshot from `initial_params` or zeros, and `total_eps == (stop + 1) * eps_per_iter`; the kept parameters have the starting dimension |
| `Fairness.InsertSorted` | fairness_early_stopping.py:46 | inserting keeps the groups strictly increasing and adds exactly the new value |
| `Fairness.Unique` | fairness_early_stopping.py:46 | `np.unique` is strictly increasing and holds exactly the values of the input |
| `Fairness.MismatchesAtMostMembers` | fairness_early_stopping.py:49-53 | a group has no more errors than members |
| `Fairness.OccurringValueHasMembers` | fairness_early_stopping.py:49-50 | every value present in the sensitive attribute has at least one member |
| `Fairness.Members` | fairness_early_stopping.py:49-50 | a group has at most as many members as there are samples |
| `Fairness.Mismatches` | fairness_early_stopping.py:53 | the mispredicted members of a group; `MismatchesAtMostMembers` bounds them by the group size |
| `Fairness.ErrorRate` | fairness_early_stopping.py:49-53 | a group's rate lies in `[0, 1]`, it is `0.0` for an empty group, and for a non-empty group it times the group size equals its mismatches (the mean of the mismatch mask) |
| `Fairness.ErrorRates` | fairness_early_stopping.py:46-54 | there is one rate per distinct group |
| `Fairness.GroupErrorRates` | fairness_early_stopping.py:27-54 | the call fails exactly when there is a sample and the arrays do not line up; otherwise it returns the ascending distinct groups and each group's rate, in the same order |
| `Fairness.GroupsArePopulated` | fairness_early_stopping.py:46-53 | every reported group has members, so the empty-group branch is never taken, and every reported rate is in `[0, 1]` |
| `Fairness.MaxOf` | fairness_early_stopping.py:65 | `np.max` is an element bounding all others |
| `Fairness.MinOf` | fairness_early_stopping.py:65 | `np.min` is an element bounded by all others |
| `Fairness.DemographicParityDifference` | fairness_early_stopping.py:57-65 | it succeeds exactly on non-empty aligned input; it fails with the empty-reduction error exactly when there are no samples |
| `Fairness.ParityGapIsLargestDifference` | fairness_early_stopping.py:57-65 | the gap lies in `[0, 1]`, bounds every pairwise rate difference, and is attained by a pair of groups |
| `Fairness.ParityGapExample` | fairness_early_stopping.py:57-65 | groups with error rates 0.2 and 0.5 give a gap of 0.3 |
| `Fairness.EvalMetric` | fairness_early_stopping.py:123 | the built-in metric is the parity gap; a custom metric is called on the three arrays |
| `Fairness.Update` | fairness_early_stopping.py:124-136 | an improvement means `metric + min_delta < best`; it sets the best and resets the counter, and otherwise the counter goes up by one; the call stops exactly when the counter reaches `patience`, recording the epoch |
| `Fairness.Improves` | fairness_early_stopping.py:124 | an improvement is `metric + min_delta` strictly below the best so far (`+inf` at first) |
| `Fairness.After` | fairness_early_stopping.py:124-136 | the state after a run of `step` calls, the i-th at epoch i; the lemmas below state its properties |
| `Fairness.Decision` | fairness_early_stopping.py:129-136 | call `i` returns true exactly when the counter after it reaches `patience`, and it then records epoch `i` |
| `Fairness.FreshControllerImproves` | fairness_early_stopping.py:97-100 | the first metric a fresh controller sees is always an improvement |
| `Fairness.BestNeverIncreases` | fairness_early_stopping.py:124-128 | with `min_delta >= 0` the best metric never goes up over any run of steps |
| `Fairness.ConstantMetricStopsAfterPatience` | fairness_early_stopping.py:124-136 | a constant metric gives counter `i` after call `i` (from 0), so call number `patience + 1` is the first to return true |
| `Fairness.SteadyImprovementNeverStops` | fairness_early_stopping.py:124-136 | a metric that drops by more than `min_delta` every epoch never stops the controller |
| `Fairness.StopDoesNotLatch` | fairness_early_stopping.py:124-136 | after a stop, an improving metric resets the counter and the call returns false; the recorded stop epoch stays |
| `Fairness.FairnessEarlyStopping.constructor` | fairness_early_stopping.py:92-100 | the settings are stored as given (the parity gap, `patience` 3 and `min_delta` 0.0 by default); a new controller has best `+inf`, no bad epochs and no stop epoch |
| `Fairness.NewDefaultController` | fairness_early_stopping.py:92-100 | a controller built with no arguments evaluates the parity gap with `patience` 3 and `min_delta` 0.0 and starts fresh |
| `Fairness.FairnessEarlyStopping.Step` | fairness_early_stopping.py:102-136 | a missing `metric_fn` or a failing metric is an error that leaves the state unchanged; otherwise the result and new state are those of `Update` |
| `ComponentFreeze.Frozen` | component_early_stopping.py:66-75 | `apply` keeps the number of parameters |
| `ComponentFreeze.FreezesNow` | component_early_stopping.py:67-72 | a parameter freezes when it is trainable, has a gradient, and its norm is strictly below the threshold |
| `ComponentFreeze.FreezeOne` | component_early_stopping.py:67-75 | on one parameter `apply` keeps the name and gradient and only turns trainable into frozen, exactly when it freezes |
| `ComponentFreeze.NewlyFrozen` | component_early_stopping.py:65-75 | `apply` returns at most one name per parameter; `NewlyFrozenMembers` fixes which |
| `ComponentFreeze.FrozenAt` | component_early_stopping.py:66-75 | each parameter is frozen on its own when trainable with a gradient norm below the threshold; the others stay as they were, and none is ever unfrozen |
| `ComponentFreeze.Thawed` | component_early_stopping.py:82-84 | `reset` keeps the number of parameters |
| `ComponentFreeze.ThawedAt` | component_early_stopping.py:82-84 | `reset` makes each parameter trainable and changes nothing else |
| `ComponentFreeze.NewlyFrozenMembers` | component_early_stopping.py:65-75 | a name is returned by `apply` exactly when a parameter of that name froze |
| `ComponentFreeze.NewlyFrozenAreFrozen` | component_early_stopping.py:71-75 | every returned name belongs to a parameter that was trainable and is now frozen |
| `ComponentFreeze.ApplyIsIdempotent` | component_early_stopping.py:66-75 | a second `apply` with the same gradients freezes nothing and changes nothing |
| `ComponentFreeze.NewlyFrozenDistinct` | component_early_stopping.py:74-75 | with distinct parameter names, `apply` returns no name twice |
| `ComponentFreeze.ApplyKeepsRegistryConsistent` | component_early_stopping.py:65-78 | with distinct names, `apply` keeps the names distinct and the registry consistent (no duplicates, every recorded name belongs to a frozen parameter), so the property carries over successive calls |
| `ComponentFreeze.ResetThawsEverything` | component_early_stopping.py:80-85 | after `reset` all parameters are trainable with names and gradients kept, and the empty registry is consistent |
| `ComponentFreeze.ComponentEarlyStopping.constructor` | component_early_stopping.py:45-49 | the controller holds the model and threshold (1e-3 by default), with an empty registry |
| `ComponentFreeze.NewDefaultController` | component_early_stopping.py:45-49 | a controller built from a model alone freezes below a gradient norm of 1e-3 and has an empty registry |
| `ComponentFreeze.ComponentEarlyStopping.Apply` | component_early_stopping.py:51-78 | the model's parameters become `Frozen(old)`; the call returns the newly frozen names in order and appends them to the registry |
| `ComponentFreeze.ComponentEarlyStopping.Reset` | component_early_stopping.py:80-85 | every parameter becomes trainable and the registry is emptied |
| `ComponentFreeze.ComponentEarlyStopping.Summary` | component_early_stopping.py:87-89 | returns the registry, changing nothing |

## Left out

- Euclidean norms (`np.linalg.norm`) take a square root, which exact reals lack. The
  proximal `fit` therefore takes the norm as a parameter `norm` returning a non-negative
  real. The library's own `grad.norm().item()` appears only as each parameter's `gradNorm`.
- Floating point is not modelled: there is no rounding, NaN or overflow, and all
  arithmetic is exact over `real`. `1e-12` is the exact constant `Epsilon`.
- Randomness: `np.random.normal` is replaced by a sequence `noise` of standard-normal
  draws, one vector per iteration, which the update scales by `noise_std`.
- `grad_fn`, `loss_fn` with `x_val @ params`, and a custom `metric_fn` are opaque function
  values held by their class. Their internals, the training and validation data, and `x_train.shape[1]`
  are not modelled (`numFeatures` is passed in).
- The proximal `callback` and all `verbose` printing are I/O and are left out. The
  in-loop privacy message is one of them.
- PyTorch is reduced to a parameter record of name, gradient norm and `requires_grad`,
  held in a `Model` class. `named_parameters()` is its parameter sequence; shared
  parameters, modules and the tensors themselves are not modelled.
- `example.py` and `__init__.py` are a demonstration and a re-export, and are not part of
  this model.
- Shape errors of numpy matrix products become preconditions rather than error results.
  For the proximal solver, the design is a matrix with `n_features` columns and the
  response has one entry per row (`WellShaped`). For the noisy descent, `grad_fn` keeps
  the dimension and every draw has the parameters' dimension.
- The fairness labels, predictions and sensitive values are integers; other dtypes are
  not modelled.
- Proximal.ProximalEarlyStopping.Fit: the loop runs on local copies and writes the fields
  once at the end, which leaves out aliasing between the returned `obj_values` list and
  the object's own list. The returned outcome holds the same values.
- DpSgd.DpSgdEarlyStopping.Fit: the privacy total follows the code, `(stop_iter + 1) *
  eps_per_iter`. The class documentation says `eps_per_iter x stop_iter`, which charges
  one iteration less.
