# Bookkeeping of the train.py gradient-noise diagnostics

This project models the exact bookkeeping inside `train.py`, a PyTorch training script that records gradient-noise statistics while it trains. The tensor numerics themselves are not modelled. Seven modules cover it:

- `Common`: the `Option` and `Result` wrappers, and the two exceptions the modelled code can raise, `ZeroDivisionError` and `StopIteration`.
- `Meters`: `AverageMeter`, a class whose `Reset` and `Update` change `val`, `avg`, `sum` and `count` in place. A ghost history of the observations ties `sum`, `count` and `avg` to the weighted sum, the total weight and their quotient.
- `Progress`: `ProgressMeter`'s batch counter `[i/N]` and the head of the line `display` prints. This covers `str(n)`, the digit count of `N`, right alignment with spaces, and the tab-joined line.
- `LearningRate`: the step decay `lr0 * 0.1 ** (epoch // int(epochs / 3))`.
  - Python's floor division and the truncating `int(...)` are written out.
  - A period of 0 raises `ZeroDivisionError`.
  - `AdjustLearningRate` writes the rate into every parameter group of an array in a loop.
- `Gradients`: the model's gradient buffer as a formal sum of per-batch contributions.
  - `zero_grad` clears the buffer.
  - `loss.backward()` appends to it.
  - `clone_grad` copies it as a value.
  - `iter(loader)` and `next` act as a cursor over a sequence of batches.
- `Diagnostics`: `compute_grad_epoch` and `compute_sto_grad_norm` as methods with loops.
  - Each is proved against a function giving its result for the batches its iterator yields.
  - That includes how many batches each call draws.
  - It also includes the `StopIteration` raised when the iterator runs dry, and what the buffer holds after that.
- `Training`: the loop of `train` and the statistics it schedules.
  - On which iterations the true gradient is taken before the update, and where `save_stats` runs.
  - Which iterations print a progress line.
  - Which exception stops an epoch, and at which iteration.
  - Each `iter(stats_loader)` call starts a fresh pass whose order is a parameter (`EpochSetup.shuffle`).

Three behaviours of `train.py` the model keeps:

- **`update` with weight 0 still changes the meter.** `val` takes the new value. When the count becomes 0, `sum` and `count` are assigned before the division raises `ZeroDivisionError`. A first update of weight 0 therefore raises when the value is a Python number, such as `loss.item()` or a timing. The `top1` and `top5` meters are fed 0-d tensors, for which the division gives inf or nan instead; `train` never passes a zero weight, since a batch has at least one image.
- **`update_size` is measured on the gradient buffer.** It is the norm of the gradient buffer after `optimizer.step()`, times the learning rate. `step()` does not touch the buffer, so this is the training batch's own gradient, not the parameter update with momentum.
- **`compute_sto_grad_norm` draws `2 * noise_size` batches from one pass.** It draws them all from the single fresh pass `save_stats` creates, and a shorter statistics loader raises `StopIteration` (see `Training.StepOutcome`).

## Model

| member | source | states |
|---|---|---|
| Meters.AverageMeter.constructor | train.py:688-697 | a new meter keeps its name and display pattern and starts all-zero with an empty history |
| Meters.AverageMeter.Reset | train.py:693-697 | `val`, `avg`, `sum` and `count` become 0 and the meter's invariant holds |
| Meters.AverageMeter.Update | train.py:699-703 | `val` is the new value, `sum` grows by `v * n`, `count` by `n`. `avg` is `sum / count` unless the new count is 0, which raises and leaves `avg` as it was. The invariant (sum and count are the history's weighted sum and total weight) is kept |
| Meters.FreshMeterAverages | train.py:688-703 | after updates `(v1, n1) ... (vk, nk)` from a fresh meter, `sum` is the sum of `vi * ni`, `count` the sum of `ni`, `avg` their quotient. The `k`-th update raises exactly when the running count is 0 |
| Meters.FoldLast | train.py:701-702 | folding one more observation adds its product to the weighted sum and its weight to the total |
| Meters.ConstantAverage | train.py:699-703 | a meter fed only the value `v` averages to `v` |
| Meters.AverageBetween | train.py:699-703 | with non-negative weights, the average lies between the smallest and the largest value fed |
| Progress.DecimalString | train.py:722 | `str(n)` is never empty, is one character exactly for `n < 10`, and ends with the units digit |
| Progress.DecimalIsDigits | train.py:722 | `str(n)` is a non-empty run of digits without a leading zero |
| Progress.DecimalRoundTrip | train.py:722 | reading `str(n)` back gives `n` |
| Progress.DigitCount | train.py:722 | the length of `str(n)` is the least `d >= 1` with `n < 10^d` |
| Progress.DigitsMonotone | train.py:722 | a smaller number never has more digits |
| Progress.PadLeft | train.py:723-724 | a `'{:Nd}'` field is at least `N` wide, ends with the digits, and holds only spaces before them |
| Progress.GetBatchFmtStr | train.py:721-724 | the width is the digit count of `num_batches` and the total reads back as `num_batches` |
| Progress.FormatBatch | train.py:717 | the counter is bracketed, as wide as the padded index plus the total plus three, with `/` just before the total |
| Progress.BatchCounterShape | train.py:716-724 | the counter is `[`, padding spaces, the digits of the batch, `/`, the digits of the total, `]` |
| Progress.BatchCounterAligned | train.py:716-724 | every counter with `batch <= N` has length `2 * digits(N) + 3` |
| Progress.WideBatchNotTruncated | train.py:716-724 | a batch index wider than the total is printed whole, without padding |
| Progress.NewProgressMeter | train.py:711-714 | the meter's placeholder width is the digit count of `num_batches`, its total is `str(num_batches)` and its prefix is the given one |
| Progress.Display | train.py:716-719 | the line starts with the prefix and the counter, then each meter's text after a tab |
| Progress.Join | train.py:719 | `'\t'.join(entries)` is empty for no entries, starts with the first entry followed by the separator when more follow, and ends with the last entry |
| LearningRate.FloorDiv | train.py:729 | the quotient of `//` rounds toward negative infinity, for either sign of the divisor |
| LearningRate.DecayFactor | train.py:729 | `0.1 ** k` for either sign of `k` is positive, at most 1 for `k >= 0` and at least 1 for `k <= 0` |
| LearningRate.DecayPeriod | train.py:729 | `int(epochs / 3)` truncates toward zero and is 0 exactly when `-3 < epochs < 3` |
| LearningRate.ScheduledLr | train.py:729 | the rate raises `ZeroDivisionError` exactly when `-3 < epochs < 3` |
| LearningRate.BlockRate | train.py:729 | within the `j`-th block of `int(epochs / 3)` epochs the exponent is `j` and the rate `lr0 * 0.1^j` |
| LearningRate.FirstBlockKeepsInitialRate | train.py:729 | the first `int(epochs / 3)` epochs run at the initial rate |
| LearningRate.ExponentMonotone | train.py:729 | the decay exponent never decreases as the epoch grows |
| LearningRate.DecayFactorAntitone | train.py:729 | `0.1^k` shrinks as `k` grows, for negative `k` too |
| LearningRate.RateNonIncreasing | train.py:728-729 | with `lr0 >= 0` the scheduled rate never increases from one epoch to a later one |
| LearningRate.AdjustLearningRate | train.py:727-732 | every parameter group gets the scheduled rate and keeps its other settings. When the rate raises, no group is written |
| Gradients.AveragedIsMean | train.py:419-442 | in every coordinate, the averaged snapshot is `1/n` times the sum of the batch gradients |
| Gradients.IdenticalBatchesAverage | train.py:419-442 | averaging `n` copies of one batch gives that batch's gradient |
| Gradients.Network.ZeroGrad | train.py:417 | the buffer is empty |
| Gradients.Network.Backward | train.py:435 | the new batch gradient is added to what the buffer held |
| Gradients.Network.CloneGrad | train.py:441-442 | the snapshot equals the buffer |
| Gradients.Network.DeepCopy | train.py:616 | a fresh network whose buffer equals this one's |
| Gradients.BatchIterator.constructor | train.py:586 | a fresh pass starts at the first batch |
| Gradients.BatchIterator.Next | train.py:420 | the next batch is yielded and the cursor advances. At the end `StopIteration` is raised and the cursor stays |
| Diagnostics.Compared | train.py:485-490 | the lists `noise_sq`, `stograd_sq` and `stograd_linf` have one `compute_noise` entry per sample drawn |
| Diagnostics.ComparedAt | train.py:485-490 | the `j`-th entry compares the `j`-th sample's gradient alone with the reference |
| Diagnostics.Draws | train.py:419 | `range(noise_size)` runs `noise_size` times, or not at all when `noise_size <= 0` |
| Diagnostics.Reference | train.py:457-458 | the drift reference is `prev_true_grad` when it is truthy and the current true gradient otherwise |
| Diagnostics.GradEpochSpec | train.py:415-444 | `compute_grad_epoch` raises `StopIteration` exactly when fewer than `noise_size` batches remain |
| Diagnostics.GradEpochIsMean | train.py:419-442 | the snapshot holds one contribution per drawn batch, in order, each scaled by `1/noise_size`, and is their mean |
| Diagnostics.GradEpochWithoutDraws | train.py:419-444 | with `noise_size <= 0` nothing is drawn and the snapshot is empty |
| Diagnostics.StoGradNormSpec | train.py:448-496 | `compute_sto_grad_norm` raises `StopIteration` exactly when fewer than `2 * noise_size` batches remain. Otherwise the three lists have `noise_size` entries each |
| Diagnostics.StoGradNormSamples | train.py:455-490 | entry `j` of each list compares batch `noise_size + j` alone with the mean of the first `noise_size` batches. The norms are those of that mean, and no batch feeds both |
| Diagnostics.DriftFallback | train.py:457-461 | the drift is measured against `prev_true_grad` when it is truthy, and otherwise against the current true gradient itself |
| Diagnostics.Falsy | train.py:457 | encodes `not prev_true_grad`: no snapshot, or an empty one |
| Diagnostics.LeftoverGrad | train.py:419-493 | the buffer `compute_sto_grad_norm` leaves when `next` raises never holds a full set of `noise_size` contributions; while averaging it holds one per batch drawn |
| Diagnostics.ComputeGradEpoch | train.py:415-444 | the result is `GradEpochSpec` of the batches the iterator yields. It draws exactly `noise_size` batches and leaves an empty buffer. On `StopIteration` it has drained the iterator and left the partial scaled sum |
| Diagnostics.SampleNoise | train.py:466-493 | draws exactly `noise_size` batches and builds the three lists of per-sample comparisons in draw order. Otherwise it raises `StopIteration` with the iterator drained |
| Diagnostics.ComputeStoGradNorm | train.py:448-496 | the result is `StoGradNormSpec` of the batches the iterator yields. It draws exactly `2 * noise_size` batches and leaves an empty buffer. On `StopIteration` it leaves the specified remainder |
| Training.EpochPrefix | train.py:552 | the prefix is `Epoch: [`, the epoch's digits and `]` |
| Training.ProgressHead | train.py:549-552 | the head of the line `progress.display(i)` prints is the `Epoch: [e]` prefix followed by the counter, which opens with `[` and closes with `]` |
| Training.Measured | train.py:582-583 | encodes `not pretrained and save_noise and i % stat_freq == 0`, the guard of the true gradient before the update and of the update sizes. Every such iteration also calls `save_stats` |
| Training.StatsDue | train.py:615 | encodes the `save_stats` guard `save_noise and (pretrained or i % stat_freq == 0)`. It never holds without `save_noise`, and in pretrained mode it holds exactly when `save_noise` is set |
| Training.SaveStatsSpec | train.py:499-526 | `save_stats` raises `StopIteration` exactly when its fresh pass has fewer than `2 * noise_size` batches |
| Training.SaveStats | train.py:499-526 | the record is `SaveStatsSpec` of the fresh pass. On success the copy's buffer is empty |
| Training.UpdateSpec | train.py:579-604 | a completed update part took a true-gradient snapshot exactly on the measured iterations. With `save_noise` set outside pretrained mode it required a non-zero `stat_freq` |
| Training.GradAfterStep | train.py:579-591 | the buffer after an iteration is empty in pretrained mode, and holds more than one contribution only as the partial sum of a measured iteration's short pass (fewer than `noise_size`) |
| Training.GradAfterStepBatches | train.py:579-591 | the buffer after an iteration holds only gradients of the training batch or of the pass taken before the update |
| Training.CompletedStepGrad | train.py:579-591 | a completed iteration leaves exactly the training batch's gradient in the buffer (nothing in pretrained mode): the pre-update pass leaves no residue, since `compute_grad_epoch` ends with `zero_grad` before `loss.backward()` runs |
| Training.UpdateStep | train.py:579-604 | the measurements are `UpdateSpec` of the iteration and the buffer is `GradAfterStep` |
| Training.StepSpec | train.py:557-619 | an iteration always raises when `print_freq` is 0, and when it completes it has saved statistics exactly on the `save_stats` iterations and printed exactly when `i % print_freq == 0` |
| Training.TrainStep | train.py:557-619 | one iteration's record or exception is `StepSpec` of the iteration, and the buffer is `GradAfterStep` |
| Training.RunIteration | train.py:557-619 | after `i` completed iterations, iteration `i` either appends its record, or ends the epoch with its exception and leaves the buffer that iteration leaves |
| Training.Iterations | train.py:557-619 | the loop runs once per training batch, and in pretrained mode once if there is a batch and not at all otherwise |
| Training.RunInOrderRecords | train.py:557-619 | a run completes exactly when no iteration raises, and then holds every iteration's record in order |
| Training.RunStopsAtFirstFailure | train.py:557-619 | a run raises the exception of its first failing step, and that step is the last one started |
| Training.EpochStopsAfter | train.py:557-619 | once the first `i + 1` iterations have raised, the epoch ends with that exception after starting exactly those iterations, and the buffer is the one iteration `i` leaves |
| Training.EpochSpec | train.py:557-619 | a completed epoch holds one record per iteration it runs |
| Training.EpochCompletesIff | train.py:557-619 | an epoch completes exactly when every iteration it runs completes |
| Training.OutcomesRun | train.py:557-619 | the first `k` iterations run in order complete exactly when each completes, with `k` records |
| Training.EpochRecordAt | train.py:557-619 | the `j`-th record of a completed epoch is that of iteration `j` |
| Training.EpochFailsAtFirstFailure | train.py:557-619 | a failing epoch raises the exception of its first failing iteration |
| Training.StatsSchedule | train.py:582-616 | on a completed iteration: the snapshot before the update is taken exactly when not pretrained, `save_noise` is set and `i % stat_freq == 0`. `save_stats` runs exactly when `save_noise` is set and the model is pretrained or `i % stat_freq == 0`. A line is printed exactly when `i % print_freq == 0` |
| Training.StepOutcome | train.py:582-616 | an iteration raises exactly on a zero `stat_freq` (when evaluated), a zero `print_freq`, or a statistics pass too short for `compute_grad_epoch` or `save_stats`. It states which exception each case raises |
| Training.PretrainedSingleStep | train.py:582-619 | in pretrained mode a non-empty epoch is its first iteration alone: it raises exactly when that iteration does, and otherwise holds its one record, which took no snapshot before an update and saved statistics exactly when `save_noise` is set |
| Training.PretrainedDriftIsSelf | train.py:457-461 | in pretrained mode the drift saved is the noise pass's true gradient against itself |
| Training.MeasuredDriftAgainstPreUpdate | train.py:583-616 | on a measured iteration with `noise_size > 0` the drift compares two different passes' true gradients. The update size is that of the training batch's gradient |
| Training.ProgressHeadsAligned | train.py:549-552 | every progress line of an epoch has a head of the same length |
| Training.Train | train.py:543-619 | the epoch's records or exception are those of its iterations run in order. The buffer is the one the last iteration started leaves |

## Left out

- Tensor numerics are symbolic terms that name their arguments (`Diagnostics.Quantity`). This covers `compute_noise`, `compute_norm`, `compute_l1norm` and `compute_linfnorm`. Their definitions are not part of this model.
- `clone_grad`'s per-parameter dictionaries are not modelled: a gradient is a sum of per-batch contributions. A contribution names its batch but not the parameters the gradient was taken at, so equal sums from before and after `optimizer.step()` do not stand for equal gradients.
- Meter values are real numbers: the 0-d tensors `train` feeds to `top1` and `top5` (train.py:575-576), whose division by a zero count gives inf or nan instead of raising, are not modelled.
- `np.mean` over the three lists and the float formatting of the CSV row (train.py:524-540) are left out. The model keeps the lists.
- Floating point is not modelled: rates, sums and averages are exact reals.
- `Diagnostics.Falsy`: `not prev_true_grad` is modelled as "absent or empty". A snapshot is empty when no parameter holds a gradient (for instance when `noise_size <= 0`); the model's empty sum stands for it.
- `Training.UpdateSpec`: the momentum size is the placeholder `MomentumSize(i)`. Optimizer state and the momentum buffers are not modelled.
- `Training.UpdateSpec`: `optimizer.step()` is not modelled beyond leaving the buffer alone. Parameter values are not part of the model.
- The sharpness estimates (`dir_hessian`, `eigen_hessian`, train.py:505-512, 529-531) are left out. They are Hessian power iteration on tensors, defined outside train.py.
- `AverageMeter.__str__` and the meters `train` feeds are left out: loss, top-1 and top-5 accuracy, batch and data time (train.py:544-548, 561-576, 610-611). They need the loss, `accuracy` and the clock. `Progress.Display` takes the meters' rendered texts as a parameter.
- `print` calls are left out; `Progress.Display` returns the line instead of printing it.
- The rank-gated write of the training log after the loop is left out (train.py:623-626). It is file I/O on process-group state, and it reads `ngpus_per_node`, which is not defined in `train`.
- The cosine schedule, argument parsing, device placement, distributed setup, checkpoints and `validate` are left out. They are library plumbing or I/O.
- `model.train()` is left out because it only switches layer modes.
- Device transfers (`.cuda`) are left out because they do not change the values modelled.
