# Repeat meta-operator and Precision trace, in Dafny

This project models two parts of FastEstimator.

**`Repeat`.** This meta-operator wraps one inner operator and calls it several times per `forward` call. An operator has ordered `inputs` keys, ordered `outputs` keys, a `mode` set and a forward function applied positionally. The count is one of two kinds:

- a fixed integer (at least 1); or
- a condition whose parameters are bound by name after every run, and which is tested after each run like a do-while loop.

Condition parameters come in two kinds:

- *Interior* parameters name an inner output. They see the latest run's value.
- *Exterior* parameters name nothing the inner operator writes. They are appended once each, in first-declared order, to the wrapper's `inputs`. They keep the caller's value for the whole call.

A call goes in four steps:

1. Seed a keyed data dictionary from the wrapper's `inputs`.
2. On each run, read the inner inputs by key, apply the function, and write the outputs back by key. Outputs that share a key with an input are fed into the next run.
3. Stop after the fixed count, or once the condition is false.
4. Return the wrapper's `outputs` read by key.

The NumPy variant is `RepeatCore.Forward`. The tensor variant is `TensorMeta.TensorRepeat`. It adds `build(backend)`, which only records the backend and does not change any result.

**`Precision`.** This trace keeps two label buffers per epoch and decodes each batch into labels:

- Ground truth of rank > 1 whose last dimension is > 1 is argmax-decoded. Otherwise it is used as it is.
- Predictions whose last dimension is 1 are rounded, half to even. Predictions of any other width are argmax-decoded over the last axis.
- A batch whose label counts differ is rejected.

The trace records that the classification is binary when the prediction width is 1 or 2. At epoch end it scores the buffers with `average='binary'` or per class (`None`).

Files:

- `keyed.dfy` (`KeyedData`): the per-call data dictionary, with `Write` (zip-assignment in order) and `Read`.
- `repeat.dfy` (`Outcomes`, `RepeatCore`):
  - the operator, condition and wrapper datatypes;
  - `inputs` inference;
  - the specification functions `Run`, `Iterate`, `Stop`, `RunCount` and `ForwardSpec`;
  - the looping `Forward` method.
- `repeat_scenarios.dfy` (`RepeatScenarios`): the unit-test traces on `f(x) = (x + 1, x * x)`.
- `tensor_repeat.dfy` (`TensorMeta`): the tensor wrapper class with its backend field.
- `precision.dfy` (`PrecisionTrace`): label decoding and the `Precision` class.

Values flowing through `Repeat` are integers. Trace values are reals.

## Model

Source paths are relative to the repository root.

| member | source | states |
|---|---|---|
| KeyedData.Write | test/PR_test/unit_test/op/tensorop/meta/test_repeat.py:11 | assigns the values to the keys pairwise from left to right: existing keys stay, every listed key is bound; the values it leaves are stated by `WriteAt` and `WriteLast` |
| KeyedData.WriteOnlyKeys | test/PR_test/unit_test/op/tensorop/meta/test_repeat.py:11 | a write adds no key but the listed ones |
| KeyedData.WriteAt | test/PR_test/unit_test/op/tensorop/meta/test_repeat.py:11 | writing outputs `('x', 'y')` by key leaves each written key with the value of its last occurrence; every other key keeps its value |
| KeyedData.WriteLast | test/PR_test/unit_test/op/tensorop/meta/test_repeat.py:11 | a written key holds the value paired with its last position in the key list |
| KeyedData.ReadAfterWrite | test/PR_test/unit_test/op/tensorop/meta/test_repeat.py:20 | with distinct keys, reading back the keys just written returns exactly the written values |
| KeyedData.WriteAppend | test/PR_test/unit_test/op/tensorop/meta/test_repeat.py:11 | writing two key lists one after the other equals writing their concatenation |
| KeyedData.Read | test/PR_test/unit_test/op/tensorop/meta/test_repeat.py:20 | one value per key, the i-th being the dictionary's value under the i-th key |
| RepeatCore.Exterior | test/PR_test/unit_test/op/tensorop/meta/test_repeat.py:84-87 | exterior names are distinct; each is a condition parameter that is neither an inner output nor already present; every parameter is output, present or exterior; none are added when all are interior |
| RepeatCore.ExteriorOrder | test/PR_test/unit_test/op/tensorop/meta/test_repeat.py:84-87 | exterior names keep the order of their first declaration among the condition's parameters |
| RepeatCore.NewRepeat | test/PR_test/unit_test/op/tensorop/meta/test_repeat.py:12-19 | construction fails with InvalidConfiguration exactly for a fixed count below 1; otherwise `outputs` and `mode` are the inner ones, the inner `inputs` come first, fixed counts add no inputs, appended names are distinct exterior parameters, every parameter is bound, and the result is valid |
| RepeatCore.InteriorOnlyKeepsInputs | test/PR_test/unit_test/op/tensorop/meta/test_repeat.py:48-51 | a condition that names only inner outputs leaves `inputs` equal to the inner inputs |
| RepeatCore.Seed | test/PR_test/unit_test/op/tensorop/meta/test_repeat.py:84-92 | the call's data dictionary binds every wrapper input; its exact contents are stated by `SeedValues` |
| RepeatCore.SeedValues | test/PR_test/unit_test/op/tensorop/meta/test_repeat.py:92 | the seed holds exactly the wrapper's inputs, each with the value at its last position in the call's data (`x = 1`, `z = 11`) |
| RepeatCore.Run | test/PR_test/unit_test/op/tensorop/meta/test_repeat.py:11 | one run keeps every key already in the dictionary and binds every inner output |
| RepeatCore.Iterate | test/PR_test/unit_test/op/tensorop/meta/test_repeat.py:38-44 | n runs keep every existing key, and bind every output once at least one run took place |
| RepeatCore.Continues | test/PR_test/unit_test/op/tensorop/meta/test_repeat.py:84 | the condition applied to the current values of its named parameters; its contract is `ContinuesByName` |
| RepeatCore.ContinuesByName | test/PR_test/unit_test/op/tensorop/meta/test_repeat.py:84 | the condition sees the values of its named parameters and nothing else: dictionaries that agree on them give the same answer |
| RepeatCore.SeedBinds | test/PR_test/unit_test/op/tensorop/meta/test_repeat.py:84-92 | the seeded dictionary binds the inner inputs and, in condition mode, every condition parameter (from the data or the first run's outputs) |
| RepeatCore.Stop | test/PR_test/unit_test/op/tensorop/meta/test_repeat.py:64-80 | the run after which the condition first fails, or none within the limit; its contract is carried by `StopBounds`, `StopIsFirstFalse` and `StopNoneHeldThroughout` |
| RepeatCore.RunCount | test/PR_test/unit_test/op/tensorop/meta/test_repeat.py:46-98 | how many runs a call makes (the fixed count, or the first false run), or `ArityMismatch`/`OutOfFuel`; its contract is carried by `StopAtLeastOnce`, `WhileRunsUntilFalse` and `WhileStopsAt` |
| RepeatCore.ForwardSpec | test/PR_test/unit_test/op/tensorop/meta/test_repeat.py:20-26 | what `forward` returns: the wrapper's outputs read after `RunCount` runs from the seed; `Forward` is proved equal to it, and the traces in `RepeatScenarios` evaluate it |
| RepeatCore.StopAtLeastOnce | test/PR_test/unit_test/op/tensorop/meta/test_repeat.py:46-62 | whenever a call succeeds it ran the inner operator at least once, even when the condition would already be false |
| RepeatCore.StopBounds | test/PR_test/unit_test/op/tensorop/meta/test_repeat.py:64-80 | the loop stops no earlier than the run it is examining and no later than the run limit |
| RepeatCore.StopIsFirstFalse | test/PR_test/unit_test/op/tensorop/meta/test_repeat.py:64-80 | the reported stop is the first run after which the condition is false |
| RepeatCore.StopNoneHeldThroughout | test/PR_test/unit_test/op/tensorop/meta/test_repeat.py:64-80 | when no stop is found within the limit, the condition held after every run up to the limit |
| RepeatCore.WhileRunsUntilFalse | test/PR_test/unit_test/op/tensorop/meta/test_repeat.py:64-80 | in condition mode, a run count k means the condition held after runs 1..k-1 and failed after run k; OutOfFuel means it held after every allowed run |
| RepeatCore.WhileStopsAt | test/PR_test/unit_test/op/tensorop/meta/test_repeat.py:64-80 | conversely, if run k is the first after which the condition is false, the run count is k |
| RepeatCore.UnwrittenKeyStays | test/PR_test/unit_test/op/tensorop/meta/test_repeat.py:84-98 | a key the inner operator never writes (an exterior value such as `z`) keeps its value across all runs |
| RepeatCore.RunsAreLocal | test/PR_test/unit_test/op/tensorop/meta/test_repeat.py:38-44 | two dictionaries that agree on the inner inputs still agree on the inputs, and after one run on the outputs, whatever else they hold |
| RepeatCore.LiveValues | test/PR_test/unit_test/op/tensorop/meta/test_repeat.py:38-44 | after a run each inner input holds the output written under its key if there is one (fed back), and its old value otherwise |
| RepeatCore.WhileMatchesTimes | test/PR_test/unit_test/op/tensorop/meta/test_repeat.py:82-98 | a condition-mode call that stops after k runs returns what the fixed-count wrapper with repeat=k returns on the inner inputs |
| RepeatCore.Forward | test/PR_test/unit_test/op/numpyop/meta/test_repeat.py:27-42 | the looping call returns exactly the specified outputs: the fixed count, or the do-while that stops at the first false condition, or OutOfFuel at the run limit |
| RepeatScenarios.AddOpValid | test/PR_test/unit_test/op/tensorop/meta/test_repeat.py:11 | `f(x) = (x + 1, x * x)` returns one value per output key |
| RepeatScenarios.AddStep | test/PR_test/unit_test/op/tensorop/meta/test_repeat.py:11 | one run sets `x` to `x + 1` and `y` to `x * x` |
| RepeatScenarios.AddTrace | test/PR_test/unit_test/op/tensorop/meta/test_repeat.py:38-44 | after n runs from `x0`, `x = x0 + n`, `y = (x0 + n - 1)^2`, and nothing else changes |
| RepeatScenarios.ReadOutputs | test/PR_test/unit_test/op/tensorop/meta/test_repeat.py:23-26 | reading `['x', 'y']` gives the two values in order |
| RepeatScenarios.OutputsAfter | test/PR_test/unit_test/op/tensorop/meta/test_repeat.py:38-44 | after n runs from `x = 1` the outputs are `[n + 1, n * n]` |
| RepeatScenarios.FixedCountKeys | test/PR_test/unit_test/op/tensorop/meta/test_repeat.py:12-19 | for a fixed count `inputs` is `['x']`, `outputs` is `['x', 'y']` and `mode` is `{'eval'}`; the NumPy variant's tests fix the same values |
| RepeatScenarios.FixedCountTraces | test/PR_test/unit_test/op/tensorop/meta/test_repeat.py:20-44 | repeat=1 on `x = 1` gives `[2, 1]`; repeat=5 gives `[6, 25]`; the NumPy variant's tests fix the same values |
| RepeatScenarios.InteriorKeys | test/PR_test/unit_test/op/tensorop/meta/test_repeat.py:48-55 | an interior condition on `y` leaves `inputs` as `['x']` and passes `outputs` and `mode` through |
| RepeatScenarios.InteriorStopsAfterOne | test/PR_test/unit_test/op/tensorop/meta/test_repeat.py:46-62 | `y < 1` stops after the first run: `[2, 1]` |
| RepeatScenarios.YBelowAfter | test/PR_test/unit_test/op/tensorop/meta/test_repeat.py:66 | after run j from `x = 1`, the condition `y < bound` holds exactly when `j * j < bound` |
| RepeatScenarios.InteriorStopsAfterFive | test/PR_test/unit_test/op/tensorop/meta/test_repeat.py:64-80 | `y < 25` holds after runs 1 to 4 and fails after run 5: `[6, 25]`; the NumPy variant's tests fix the same values |
| RepeatScenarios.ExteriorKeys | test/PR_test/unit_test/op/tensorop/meta/test_repeat.py:84-91 | `lambda y, z` appends `z`: `inputs` is `['x', 'z']` |
| RepeatScenarios.ExteriorStopsAfterFour | test/PR_test/unit_test/op/tensorop/meta/test_repeat.py:82-98 | with `z = 11` held constant the call runs four times and returns `[5, 16]`; the NumPy variant's tests fix the same values |
| RepeatScenarios.SameFunctionSameRuns | test/PR_test/unit_test/op/tensorop/meta/test_repeat.py:100-140 | operators with the same keys whose functions agree give the same runs, whatever their functions' parameters are called (`lambda y`, `lambda z`) |
| TensorMeta.TensorRepeat.constructor | test/PR_test/unit_test/op/tensorop/meta/test_repeat.py:12 | wraps a valid constructed `Repeat` with no backend selected |
| TensorMeta.TensorRepeat.Build | test/PR_test/unit_test/op/tensorop/meta/test_repeat.py:13 | records the chosen backend and keeps the wrapper valid |
| TensorMeta.TensorRepeat.Forward | test/PR_test/unit_test/op/tensorop/meta/test_repeat.py:20-26 | a call returns the specified outputs of the wrapped `Repeat`, whichever backend is selected |
| TensorMeta.BackendsAgree | test/PR_test/unit_test/op/tensorop/meta/test_repeat.py:223-240 | building for `tf` or `torch` gives the same result, `[6, 25]` for repeat=5 |
| TensorMeta.RebuildKeepsResults | test/PR_test/unit_test/op/tensorop/meta/test_repeat.py:205-293 | building again, for either backend, never changes what a call returns |
| PrecisionTrace.ArgMax | fastestimator/trace/metric/precision.py:58 | the index of the first largest element of a row |
| PrecisionTrace.RowArgMax | fastestimator/trace/metric/precision.py:64 | one label per row, each a class index below the row width |
| PrecisionTrace.RoundHalfEven | fastestimator/trace/metric/precision.py:62 | rounds to a nearest integer, choosing the even one on a tie |
| PrecisionTrace.RoundAll | fastestimator/trace/metric/precision.py:62 | element-wise rounding that keeps length and order |
| PrecisionTrace.RoundWhole | fastestimator/trace/metric/precision.py:62 | a whole number rounds to itself |
| PrecisionTrace.RoundProbability | fastestimator/trace/metric/precision.py:62 | a score in [0, 1] rounds to 1 exactly when it is above one half |
| PrecisionTrace.OneHotRoundTrip | fastestimator/trace/metric/precision.py:57-58 | argmax over one-hot encoded rows recovers the encoded classes |
| PrecisionTrace.OneHotTruthDecodes | fastestimator/trace/metric/precision.py:56-58 | one-hot ground truth of shape (n, w), w > 1, decodes to its classes |
| PrecisionTrace.TruthLabels | fastestimator/trace/metric/precision.py:56-58 | ground truth is rejected only at rank 0; when rank > 1 and the last dimension is > 1 it is `RowArgMax` over the rows of the last dimension (one label per row, below the width); otherwise it is used unchanged |
| PrecisionTrace.PredictionLabels | fastestimator/trace/metric/precision.py:59-64 | rank 0 is rejected; width 1 is rounded; width 0 has no argmax; larger widths are `RowArgMax` over the rows of the last dimension, one label per row below the width |
| PrecisionTrace.SigmoidLabels | fastestimator/trace/metric/precision.py:59-62 | sigmoid scores of shape (n, 1) become n labels, 1 exactly where the score is above one half and 0 elsewhere |
| PrecisionTrace.DecodeBatch | fastestimator/trace/metric/precision.py:55-66 | a decoded batch holds both label lists of equal length, with binary exactly when the prediction width is 1 or 2; when both decode, it succeeds exactly when their sizes agree; otherwise the first failure in reading order is returned: a missing true key, the ground truth's decode error, a missing prediction key, the prediction's decode error, then `SizeMismatch` |
| PrecisionTrace.SigmoidBatch | fastestimator/trace/metric/precision.py:55-66 | labels (1, 0) against scores (0.7, 0.2) decode to (1, 0) both ways, and the classification is marked binary |
| PrecisionTrace.SoftmaxBatch | fastestimator/trace/metric/precision.py:55-66 | one-hot truth (2, 0) against three-class scores decodes to (2, 0) both ways, and the classification is not binary |
| PrecisionTrace.MismatchBatch | fastestimator/trace/metric/precision.py:65 | three true labels against two predictions are rejected |
| PrecisionTrace.AverageFor | fastestimator/trace/metric/precision.py:71-74 | the binary average is chosen exactly when the flag is set to true |
| PrecisionTrace.Precision.constructor | fastestimator/trace/metric/precision.py:35-49 | `inputs` is `[true_key, pred_key]`, so `TrueKey` is `inputs[0]` and `PredKey` is `inputs[1]`; `outputs` is `[output_name]`; the binary flag is unset |
| PrecisionTrace.Precision.OnEpochBegin | fastestimator/trace/metric/precision.py:51-53 | both buffers are empty; the binary flag is kept |
| PrecisionTrace.Precision.OnBatchEnd | fastestimator/trace/metric/precision.py:55-68 | a decoded batch's labels are appended to both buffers in order (keeping their lengths equal) and the flag is set; a rejected batch changes nothing and its error is returned |
| PrecisionTrace.Precision.OnEpochEnd | fastestimator/trace/metric/precision.py:70-75 | scores the buffers with the average the flag selects and names `outputs[0]` as the key |
| PrecisionTrace.EvalEpoch | fastestimator/trace/metric/precision.py:51-75 | with keys `y` and `y_pred` and the default mode and output name, a kept sigmoid batch and a rejected mismatched batch give the binary score of (1, 0) against (1, 0) under `precision` |

## Left out

- The `Repeat` implementation files (`fastestimator/op/tensorop/meta/repeat.py` and the NumPy counterpart) are not part of this model. The model follows the behaviour the unit tests fix. Appending exterior names in first-declared order, skipping names already among the inner inputs or outputs, is a modelling choice; the tests fix only one exterior name (`lambda y, z` gives `['x', 'z']`).
- The inner operator's forward function is pure and deterministic (`seq<int> -> seq<int>`). Inner operators with their own effects, state or randomness, and the fresh re-invocation on every run that such an operator would observe, are not captured.
- Tensors, NumPy arrays, `tf.function` graph tracing and the backends' runtime are not modelled. Values are integers, and a one-element array such as `tf.ones([1])` stands for its single value.
- `RepeatCore.Forward`: the condition loop has a `limit` on the number of runs. Running out gives `OutOfFuel`, where the source would loop for ever on a condition that never turns false.
- The inner operator's own `build`, its `state` argument and the invocation context are passed through unchanged and not modelled. `TensorMeta.TensorRepeat.Build` only records the backend.
- The rule that `build` must come before `forward` is not modelled. `TensorRepeat.Forward` does not require a prior `Build`.
- A spelling of a condition parameter that matches no key cannot arise. Every parameter that is not an inner output is appended to `inputs`, so the missing-binding error has no counterpart.
- An arity mismatch between the inner function and its output keys is a precondition (`ValidOp`), not a runtime error. It is the operator's contract.
- `RepeatScenarios.AddOp`: the function returns a default for an empty argument list. That case is never reached, because a run always passes one value per input key.
- `Precision`: the buffers are created empty in the constructor. The source creates them only in `on_epoch_begin`, so the model does not capture the `AttributeError` raised by a batch or an epoch end before the first epoch begins.
- `sklearn.metrics.precision_score` is a parameter of `OnEpochEnd` (`scorer`) and is not modelled. `to_number` is the identity on the array's shape and row-major elements.
- Floating-point behaviour is left out. Scores are exact reals, and `np.round` is exact round-half-to-even on them.
- `Precision` modes are a set of strings. The single-string form of `mode` and the trace system's mode filtering are left out.
- `fastestimator/trace/io/image_saver.py`, `test/PR_test/unit_test/backend/test_sign.py` and `fastestimator/op/tensorop/loss/lossop.py` are not part of this model. Figure saving, per-backend `sign` dispatch and two constant key indices hold nothing to verify.
