# Training-data bookkeeping of the adversarial AMR learner, in Dafny

This project models the bookkeeping core of `Adversarial_learning/utils.py`. That
code trains small feed-forward networks to predict antimicrobial resistance (log2 MIC
values and resistant/sensitive calls) from genomic feature vectors. The model has
three parts.

- **`DataGenerator`** (module `Generator`, `data_generator.dfy`) is a class. It holds
  parallel sequences of feature vectors, labels and optional second labels, a cursor
  `n` and a shuffle index.
  - The constructor checks lengths, optionally appends the constant 0.5 "global node"
    to every feature vector, and shifts every label by `min(|label|)`.
  - `NextSample` serves the sample under the cursor and moves the cursor on. With
    auto-reset it wraps to 0 after the last sample. Without auto-reset it keeps
    growing, and every call past the end fails.
  - `ResetGenerator` zeroes the cursor.
  - `ShuffleSamples` reorders all three sequences by one permutation.
  - The pure functions `NextCursor`, `ServedIndex`, `CursorAfter` and `Served`
    describe the cursor over many calls. The lemmas about them state the
    epoch-cycling behaviour.
- **`MetricAccumulator`** (module `Metrics`, `metrics.dfy`) is a class with four
  append-only value series: training and testing, loss and accuracy. Beside each is
  the series of its trailing-window gradients.
  - `MetricGradient` and `AvgGradient` follow Python's slice `x[-batch:]` exactly,
    for any integer window size, including 0 and negative sizes.
  - The invariant `Valid()` says that every gradient entry is the gradient of the
    value series up to that entry.
- **Scoring helpers** (module `Scoring`, `scoring.dfy`):
  - the first-index argmax `transform` of `load_labels_2` and its flag check;
  - `country_accuracy`;
  - `R_or_S`, with the EUCAST breakpoint table.

`Sequences` (`sequences.dfy`) holds the shared sequence functions. These are `Range`,
`Gather` (reordering by a list of positions, with the proof that a permutation keeps
the multiset), `CountTrue` and `Sum`. `Wrappers` (`wrappers.dfy`) holds `Option` and
`Result`. Every exception the Python code raises is an `Err` value, or a `false`
success flag for the two mutating `MetricAccumulator` methods.

After two shuffles, `index` is a rearrangement of the previous `index`. The data,
however, is gathered from the already-shuffled sequences. So `index` records the last
rearrangement's positions, not positions in the original data. The model keeps this
behaviour as written.

## Model

| member | source | states |
|---|---|---|
| `Sequences.Range` | Adversarial_learning/utils.py:128 | `list(range(n))`: length `n`, entry `i` is `i` |
| `Sequences.PermutationBounds` | Adversarial_learning/utils.py:128 | a rearrangement of `range(n)` has length `n` and holds only positions below `n` |
| `Sequences.Gather` | Adversarial_learning/utils.py:174-181 | `[s[i] for i in p]` has one entry per position in `p` |
| `Sequences.GatherRespectsMultiset` | Adversarial_learning/utils.py:174-181 | the multiset of gathered elements depends only on the multiset of positions |
| `Sequences.GatherPermutation` | Adversarial_learning/utils.py:172-181 | reordering by a permutation of all positions keeps exactly the same elements (same multiset) |
| `Sequences.CountTrue` | Adversarial_learning/utils.py:94 | the size of a boolean-mask selection is at most the mask length, equals it iff every flag is set, and is 0 iff none is |
| `Sequences.SumIsRunningTotal` | Adversarial_learning/utils.py:223 | `sum(xs)`, evaluated as Python does (a running total from 0, adding from the left), equals `Sum(xs)`; from any start it is that start plus `Sum(xs)` |
| `Sequences.SumBounds` | Adversarial_learning/utils.py:223 | a sum of `k` values in `[lo, hi]` lies in `[k*lo, k*hi]` |
| `Scoring.Max` | Adversarial_learning/utils.py:64 | `max(row)` of a non-empty row is an element of the row and no element exceeds it |
| `Scoring.IndexOf` | Adversarial_learning/utils.py:64 | `row.index(x)` is defined iff `x` occurs in the row, and is then the first position holding `x` |
| `Scoring.Transform` | Adversarial_learning/utils.py:62-65 | `transform` raises ValueError exactly on an empty row, and otherwise returns a position of the row holding its maximum |
| `Scoring.TransformIsFirstArgMax` | Adversarial_learning/utils.py:62-65 | `transform` fails exactly on an empty row, and returns `k` iff `k` is the first position of the row's maximum |
| `Scoring.MapTransform` | Adversarial_learning/utils.py:67-68 | `list(map(transform, rows))` succeeds iff no row is empty, giving one `transform` result per row |
| `Scoring.TransformRows` | Adversarial_learning/utils.py:67-68 | succeeds iff there is at least one row and no row is empty, giving each row's first argmax; an empty row raises ValueError and zero rows make `torch.cat` raise RuntimeError |
| `Scoring.SelectLabelSet` | Adversarial_learning/utils.py:52-57 | `load_labels_2` rejects both-or-neither flags and otherwise picks countries or families by the flag that is set; the defaults select countries |
| `Scoring.CorrectFlags` | Adversarial_learning/utils.py:90-93 | the comprehension has one flag per row, set iff the row's first argmax equals its label, and fails iff some row is empty |
| `Scoring.CountryAccuracy` | Adversarial_learning/utils.py:84-94 | fails on unequal lengths, on an empty row and on no labels, and otherwise returns a percentage in `[0, 100]` |
| `Scoring.CountryAccuracyExtremes` | Adversarial_learning/utils.py:90-94 | the accuracy is 100 iff every row's first argmax equals its label, and 0 iff none does |
| `Scoring.Pow2` | Adversarial_learning/utils.py:102 | `2 ** e` for an integer `e` is positive |
| `Scoring.Pow2StrictlyIncreasing` | Adversarial_learning/utils.py:102 | `2 ** a < 2 ** b` whenever `a < b` |
| `Scoring.ResistantOrSensitive` | Adversarial_learning/utils.py:97-102 | `R_or_S` has one call per input; an entry is 0 iff `2 ** i <= boundary` and 1 iff `2 ** i > boundary` |
| `Scoring.Category` | Adversarial_learning/utils.py:102 | the call for one log2 MIC value is 0 or 1, and 0 exactly when `2 ** i <= boundary` |
| `Scoring.CategoryMonotone` | Adversarial_learning/utils.py:102 | a larger log2 MIC never gets a smaller call |
| `Scoring.ResistantOrSensitiveMonotone` | Adversarial_learning/utils.py:97-102 | within one `R_or_S` result, entries are ordered as the log2 MIC values are |
| `Scoring.CategoryThreshold` | Adversarial_learning/utils.py:102 | with `2 ** t <= boundary < 2 ** (t+1)`, exactly the log2 values up to `t` are called sensitive |
| `Scoring.BreakpointThresholds` | Adversarial_learning/utils.py:242 | with the table's breakpoints, sensitive means log2 MIC `<= 0` (azm), `<= -3` (cfx, cro) and `<= -5` (cip) |
| `Generator.ParsedFeature` | Adversarial_learning/utils.py:139-142 | with the global node, the vector is the original followed by one 0.5; without it, it is unchanged |
| `Generator.ParseFeatures` | Adversarial_learning/utils.py:136-143 | `_parse_features` returns one parsed vector per input vector, in order |
| `Generator.MinAbs` | Adversarial_learning/utils.py:122-124 | `min(abs(labels))` is non-negative, is the magnitude of some label, and is at most every label's magnitude |
| `Generator.ShiftLabels` | Adversarial_learning/utils.py:122-124 | every stored label is the original plus the same offset `min(abs(labels))` |
| `Generator.ShiftLabelsOffset` | Adversarial_learning/utils.py:122-124 | the offset is common to all labels, non-negative, and the magnitude of some label; no label moves down and label order is kept |
| `Generator.ZeroLabelMeansNoShift` | Adversarial_learning/utils.py:122-124 | when some label is 0, the labels are stored unchanged |
| `Generator.ShiftMayLeaveNegativeLabels` | Adversarial_learning/utils.py:122-124 | the shift does not make every label positive: `[-2, 1]` is stored as `[-1, 2]` |
| `Generator.NextCursor` | Adversarial_learning/utils.py:145-147 | one call moves the cursor to `n+1` or to 0; with auto-reset it stays below `n_samples`; without auto-reset it is always `n+1` |
| `Generator.ServedIndex` | Adversarial_learning/utils.py:145-164 | a call from cursor `n` serves index `n` iff `n < n_samples` and fails otherwise |
| `Generator.AutoResetFinishesEpoch` | Adversarial_learning/utils.py:145-157 | with auto-reset, the remaining calls of an epoch serve the remaining indices in order and leave the cursor at 0 |
| `Generator.AutoResetEpoch` | Adversarial_learning/utils.py:145-157 | with auto-reset, `n_samples` calls from cursor 0 serve indices `0..n_samples-1` in order and restore the cursor to 0 |
| `Generator.NoResetRun` | Adversarial_learning/utils.py:158-164 | without auto-reset, `k` calls move the cursor from `c` to `c+k`; call `t` serves `c+t` while that is below `n_samples` and fails after |
| `Generator.DataGenerator.constructor` | Adversarial_learning/utils.py:106-134 | starts valid with cursor 0, `index == range(n_samples)`, shifted labels, parsed features (or the given ones when pre-convolved) and `n_nodes` the first vector's length; the defaults are no labels_2, auto-reset, the global node and not pre-convolved |
| `Generator.NewDataGenerator` | Adversarial_learning/utils.py:106-134 | construction fails on a feature/label length mismatch, on no labels, and on a labels_2 length mismatch, in that order; otherwise it gives a valid generator with cursor 0, `index == range(n_samples)`, shifted labels, the given labels_2, parsed (or pre-convolved) features, `n_nodes`, `n_samples` and the auto-reset flag |
| `Generator.DataGenerator.NextSample` | Adversarial_learning/utils.py:145-167 | serves the sample under the old cursor (error past the end), moves the cursor by `NextCursor` even on failure, and keeps the generator valid |
| `Generator.DataGenerator.ResetGenerator` | Adversarial_learning/utils.py:169-170 | sets the cursor to 0 and changes nothing else; from any cursor, including the one past the end that `_iterate` reaches before resetting, the generator is valid again |
| `Generator.DataGenerator.ShuffleSamples` | Adversarial_learning/utils.py:172-181 | index becomes the rearrangement; position `j` of features, labels and labels_2 holds old position `p[j]`, so samples stay aligned; lengths, multisets and the cursor are kept |
| `Metrics.WindowStart` | Adversarial_learning/utils.py:217 | `x[-batch:]` keeps the last `min(batch, len)` elements for `batch >= 1`, the whole list for 0, and drops the first `-batch` for negative `batch` |
| `Metrics.TrailingWindow` | Adversarial_learning/utils.py:217 | the window is a suffix of the series, of length `min(batch, len)` for `batch >= 1`, and empty for `batch >= 0` only on an empty series |
| `Metrics.MetricGradient` | Adversarial_learning/utils.py:215-218 | `metric_gradient` is defined iff the window is non-empty (for `batch >= 0`: iff the series is), and otherwise raises IndexError |
| `Metrics.MetricGradientValue` | Adversarial_learning/utils.py:215-218 | the gradient is (last element minus the window's first) over the window length, and 0 for a one-element window |
| `Metrics.MetricGradientSign` | Adversarial_learning/utils.py:215-218 | a non-decreasing series has a non-negative gradient; a non-increasing one has a non-positive gradient |
| `Metrics.AvgGradient` | Adversarial_learning/utils.py:220-223 | `avg_gradient` is defined iff the window is non-empty, and otherwise raises ZeroDivisionError |
| `Metrics.AvgGradientBounds` | Adversarial_learning/utils.py:220-223 | the window mean lies between any lower and upper bound of the window's values |
| `Metrics.LastEpoch` | Adversarial_learning/utils.py:232 | `max(0, epoch - gradient_batch)` is non-negative and at least `epoch - gradient_batch`, and equals one of the two |
| `Metrics.GradientsOfAppend` | Adversarial_learning/utils.py:196-213 | appending a value and the gradient of the extended series keeps every gradient the gradient of its prefix |
| `Metrics.Entry` | Adversarial_learning/utils.py:197-200 | `epoch_results[k]` is appended when it exists; nothing is appended when the results are too short |
| `Metrics.MetricAccumulator.constructor` | Adversarial_learning/utils.py:185-194 | all eight series start empty, with the given window size (default 10) |
| `Metrics.MetricAccumulator.AppendGradients` | Adversarial_learning/utils.py:203-213 | `_all_grads` appends the gradient of each value series to its gradient series, or appends nothing when the window is empty |
| `Metrics.MetricAccumulator.Add` | Adversarial_learning/utils.py:196-201 | appends one result to each value series and one gradient to each gradient series; earlier entries are unchanged; the series keep equal length, one per call; short results append a prefix and fail |
| `Metrics.MetricAccumulator.LogGradients` | Adversarial_learning/utils.py:225-239 | fails with ZeroDivisionError exactly when some gradient window is empty; otherwise reports the four gradient series' `avg_gradient` in order, the epoch, and the window's first epoch `LastEpoch(epoch, gradient_batch)` |
| `Metrics.MetricAccumulator.LogGradientsDefined` | Adversarial_learning/utils.py:225-232 | with a non-negative window size, a valid accumulator can report iff at least one epoch was added |

## Left out

- `load_training_data`, `load_testing_data`, `load_metadata` and the tensor reads in `load_labels_2` (utils.py:12-47, 59-60): disk I/O through pickle, torch and pandas, and the `lru_cache` memoisation.
- `write_epoch_results` (utils.py:72-81): file creation and appends only.
- The logging call in `log_gradients`: `LogGradients` returns the values that would be logged.
- `Adversarial_learning/model.py`: a wrapper over the framework's linear layers, activations, dropout and random weight initialisation.
- `random.shuffle`: `ShuffleSamples` takes the rearranged index as a parameter. Its multiset must equal the old index's, which is what `random.shuffle` guarantees. The in-place update of the list is modelled as reassigning the field.
- Floating point: values are `real`. There is no rounding and there are no NaNs. The `round(..., 2)` of `metric_gradient` is not modelled.
- Tensor mechanics (`unsqueeze`, `torch.cat` beyond its refusal of an empty list, `torch.as_tensor`, `to_dense`, tensor shapes): a feature vector is a `seq<real>`, so the column shape `_parse_features` gives it is not modelled. Labels are `seq<real>` and second labels are `seq<int>`.
- Scoring.ResistantOrSensitive: log2 MIC values are integers (doubling dilutions). For a non-integer value, `2 ** i` is a real power that the model does not cover.
- Metrics.MetricAccumulator.Add: modelled only from a valid state. After a failed call the series have unequal lengths, and later calls on such a state are not described.
