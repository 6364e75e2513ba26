/** The loop of `train` in train.py, as far as it schedules the gradient-noise
    statistics: which iterations take a true-gradient snapshot before the update,
    which ones call `save_stats`, which ones print a progress line, and what state
    the model's gradient buffer is left in.

    Every `iter(stats_loader)` call starts a fresh shuffled pass over the statistics
    loader; the order of each pass is the parameter `shuffle`, indexed by the call
    that makes it. */
module Training {
  import opened Common
  import opened Progress
  import opened Gradients
  import opened Diagnostics

  /** The command-line arguments `train` reads. */
  datatype Config = Config(noiseSize: int, statFreq: int, printFreq: int, saveNoise: bool)

  /** The calls of `iter(stats_loader)` in one iteration: the pass before the update
      (handed to `compute_grad_epoch`) and the pass `save_stats` estimates the noise on. */
  datatype Draw = PreUpdate(step: nat) | NoiseEstimate(step: nat)

  /** Everything one call of `train` depends on. */
  datatype EpochSetup<B> = EpochSetup(
    cfg: Config,
    pretrained: bool,
    epoch: nat,
    lr: real,                       // `optimizer.param_groups[0]['lr']` during this epoch
    trainBatches: seq<B>,           // the batches `enumerate(train_loader)` yields, in order
    shuffle: Draw -> seq<B>)        // the batches of each fresh pass over `stats_loader`

  /** What one `save_stats` call writes to the noise log. The lists stand for the
      means `np.mean` takes of them. */
  datatype StatsRecord<B> = StatsRecord(
    epoch: nat, report: NoiseReport<B>, updateSize: Quantity<B>, momentumSize: Quantity<B>)

  /** What one iteration of `train` produces: the true gradient taken before the
      update, the head of the progress line it prints, and the statistics it saves. */
  datatype StepRecord<B> = StepRecord(
    prevTrueGrad: Option<Gradient<B>>, progressHead: Option<string>, stats: Option<StatsRecord<B>>)

  /** The prefix `"Epoch: [{}]".format(epoch)` of the epoch's `ProgressMeter`: the
      label, then the epoch's digits, then `]`. */
  function EpochPrefix(epoch: nat): (r: string)
    ensures |r| == |DecimalString(epoch)| + 9
    ensures r[..8] == "Epoch: [" && r[|r| - 1] == ']'
    ensures r[8..|r| - 1] == DecimalString(epoch)
  {
    "Epoch: [" + DecimalString(epoch) + "]"
  }

  /** The progress line of iteration `i` up to the meters: the prefix and the counter,
      which opens with `[` right after the prefix and closes with `]`. */
  function ProgressHead<B>(s: EpochSetup<B>, i: nat): (r: string)
    ensures |EpochPrefix(s.epoch)| < |r| && r[..|EpochPrefix(s.epoch)|] == EpochPrefix(s.epoch)
    ensures r[|EpochPrefix(s.epoch)|] == '[' && r[|r| - 1] == ']'
  {
    EpochPrefix(s.epoch) + FormatBatch(GetBatchFmtStr(|s.trainBatches|), i)
  }

  /** Iteration `i` measures the true gradient before and the update after the step.
      Such an iteration is never pretrained and always calls `save_stats` too. */
  predicate Measured<B>(s: EpochSetup<B>, i: nat)
    ensures Measured(s, i) ==> !s.pretrained && StatsDue(s, i)
  {
    !s.pretrained && s.cfg.saveNoise && s.cfg.statFreq != 0 && i % s.cfg.statFreq == 0
  }

  /** Iteration `i` calls `save_stats`: never without `save_noise`, and on every
      iteration in pretrained mode when it is set. */
  predicate StatsDue<B>(s: EpochSetup<B>, i: nat)
    ensures StatsDue(s, i) ==> s.cfg.saveNoise
    ensures s.pretrained ==> (StatsDue(s, i) <==> s.cfg.saveNoise)
  {
    s.cfg.saveNoise && (s.pretrained || (s.cfg.statFreq != 0 && i % s.cfg.statFreq == 0))
  }

  /** What `save_stats` produces for the noise log when its fresh pass yields `stream`. */
  function SaveStatsSpec<B>(stream: seq<B>, noiseSize: int, epoch: nat, prev: Option<Gradient<B>>,
                            updateSize: Quantity<B>, momentumSize: Quantity<B>)
    : (r: Result<StatsRecord<B>>)
    ensures r.Err? <==> |stream| < 2 * Draws(noiseSize)
    ensures r.Err? ==> r.error == StopIteration
  {
    match StoGradNormSpec(stream, noiseSize, prev)
    case Err(e) => Err(e)
    case Ok(report) => Ok(StatsRecord(epoch, report, updateSize, momentumSize))
  }

  /** What the update part of iteration `i` measures: `prev_true_grad`, `update_size`
      and `m_size`, all left at `None`, 0 and 0 on an iteration that is not measured. */
  datatype Measurements<B> = Measurements(
    prevTrueGrad: Option<Gradient<B>>, updateSize: Quantity<B>, momentumSize: Quantity<B>)

  /** The update part of iteration `i`: in pretrained mode nothing is measured;
      otherwise, with `save_noise` set, testing `i % stat_freq` raises when `stat_freq`
      is 0, and on the iterations with `i % stat_freq == 0` the true gradient of a fresh
      pass is taken before the update (raising when the pass is too short), then the
      size of the update along the training batch's gradient and of the momentum. */
  function UpdateSpec<B>(s: EpochSetup<B>, i: nat): (r: Result<Measurements<B>>)
    requires i < |s.trainBatches|
    ensures r.Ok? && !s.pretrained && s.cfg.saveNoise ==> s.cfg.statFreq != 0
    ensures r.Ok? ==> (r.value.prevTrueGrad.Some? <==> Measured(s, i))
  {
    var none := Measurements(None, Zero, Zero);
    if s.pretrained || !s.cfg.saveNoise then Ok(none)
    else if s.cfg.statFreq == 0 then Err(ZeroDivisionError)
    else if i % s.cfg.statFreq != 0 then Ok(none)
    else match GradEpochSpec(s.shuffle(PreUpdate(i)), s.cfg.noiseSize)
         case Err(e) => Err(e)
         case Ok(g) => Ok(Measurements(Some(g), UpdateSize(Single(s.trainBatches[i]), s.lr), MomentumSize(i)))
  }

  /** Iteration `i` of `train`, on the batch `trainBatches[i]`. It always raises when
      `print_freq` is 0, and when it completes it has saved statistics exactly on the
      iterations that call `save_stats` and printed a line exactly when
      `i % print_freq == 0`. */
  function StepSpec<B>(s: EpochSetup<B>, i: nat): (r: Result<StepRecord<B>>)
    requires i < |s.trainBatches|
    ensures s.cfg.printFreq == 0 ==> r.Err?
    ensures r.Ok? ==> && (r.value.stats.Some? <==> StatsDue(s, i))
                      && (r.value.progressHead.Some? <==> i % s.cfg.printFreq == 0)
  {
    match UpdateSpec(s, i)
    case Err(e) => Err(e)
    case Ok(m) =>
      if s.cfg.printFreq == 0 then Err(ZeroDivisionError)
      else
        var head := if i % s.cfg.printFreq == 0 then Some(ProgressHead(s, i)) else None;
        if StatsDue(s, i) then
          match SaveStatsSpec(s.shuffle(NoiseEstimate(i)), s.cfg.noiseSize, s.epoch, m.prevTrueGrad,
                              m.updateSize, m.momentumSize)
          case Err(e) => Err(e)
          case Ok(st) => Ok(StepRecord(m.prevTrueGrad, head, Some(st)))
        else Ok(StepRecord(m.prevTrueGrad, head, None))
  }

  /** The model's gradient buffer after iteration `i`, whether it completed or raised:
      empty after `optimizer.zero_grad()` in pretrained mode or when `stat_freq` is 0,
      the partial sum of a `compute_grad_epoch` that ran out of batches, and otherwise
      the gradient of the training batch alone. */
  function GradAfterStep<B>(s: EpochSetup<B>, i: nat): (g: Gradient<B>)
    requires i < |s.trainBatches|
    ensures s.pretrained ==> g == []
    ensures |g| <= 1 || (Measured(s, i) && |g| < Draws(s.cfg.noiseSize))
  {
    var pass := s.shuffle(PreUpdate(i));
    if s.pretrained || (s.cfg.saveNoise && s.cfg.statFreq == 0) then []
    else if Measured(s, i) && |pass| < Draws(s.cfg.noiseSize) then Scaled(pass, Recip(s.cfg.noiseSize))
    else Single(s.trainBatches[i])
  }

  /** The buffer after an iteration holds only gradients of the training batch or of
      the statistics pass taken before the update. */
  lemma GradAfterStepBatches<B>(s: EpochSetup<B>, i: nat)
    requires i < |s.trainBatches|
    ensures forall j :: 0 <= j < |GradAfterStep(s, i)| ==>
              || GradAfterStep(s, i)[j].batch == s.trainBatches[i]
              || GradAfterStep(s, i)[j].batch in s.shuffle(PreUpdate(i))
  {
  }

  /** How many iterations the loop runs: one in pretrained mode (it breaks after the
      first), every batch otherwise. */
  function Iterations(pretrained: bool, n: nat): (k: nat)
    ensures k <= n
    ensures !pretrained ==> k == n
    ensures pretrained ==> k == if n > 0 then 1 else 0
  {
    if pretrained && n > 0 then 1 else n
  }

  /** The outcome of running `steps` in order, stopping at the first exception: the
      results of all of them, or the exception of the first one that raises. */
  function RunInOrder<T>(steps: seq<Result<T>>): Result<seq<T>>
  {
    if steps == [] then Ok([])
    else match RunInOrder(steps[..|steps| - 1])
         case Err(e) => Err(e)
         case Ok(done) =>
           match steps[|steps| - 1]
           case Err(e) => Err(e)
           case Ok(x) => Ok(done + [x])
  }

  /** How many of `steps` start when they run in order: all of them, or up to and
      including the first one that raises. */
  function Started<T>(steps: seq<Result<T>>): (n: nat)
    ensures n <= |steps|
  {
    if steps == [] then 0
    else if RunInOrder(steps[..|steps| - 1]).Err? then Started(steps[..|steps| - 1])
    else |steps|
  }

  /** A run completes exactly when no step raises, and then holds every step's result
      in order. */
  lemma {:induction false} RunInOrderRecords<T>(steps: seq<Result<T>>)
    ensures RunInOrder(steps).Ok? <==> forall j :: 0 <= j < |steps| ==> steps[j].Ok?
    ensures RunInOrder(steps).Ok? ==>
              && |RunInOrder(steps).value| == |steps|
              && forall j :: 0 <= j < |steps| ==> RunInOrder(steps).value[j] == steps[j].value
  {
    if steps != [] {
      RunInOrderRecords(steps[..|steps| - 1]);
    }
  }

  /** Once a prefix of the steps has raised, the later steps never run: the outcome
      and the number of steps started are those of the prefix. */
  lemma {:induction false} ErrorPersists<T>(steps: seq<Result<T>>, k: nat)
    requires k <= |steps| && RunInOrder(steps[..k]).Err?
    ensures RunInOrder(steps) == RunInOrder(steps[..k])
    ensures Started(steps) == Started(steps[..k])
    decreases |steps| - k
  {
    if k < |steps| {
      var shorter := steps[..|steps| - 1];
      assert shorter[..k] == steps[..k];
      ErrorPersists(shorter, k);
    } else {
      assert steps[..k] == steps;
    }
  }

  /** A run fails with the exception of the first step that raises, and that step
      is the last one started. */
  lemma RunStopsAtFirstFailure<T>(steps: seq<Result<T>>, j: nat)
    requires j < |steps| && steps[j].Err?
    requires forall l :: 0 <= l < j ==> steps[l].Ok?
    ensures RunInOrder(steps) == Err(steps[j].error)
    ensures Started(steps) == j + 1
  {
    var prefix := steps[..j + 1];
    assert prefix[..j] == steps[..j];
    RunInOrderRecords(steps[..j]);
    assert RunInOrder(prefix) == Err(steps[j].error);
    ErrorPersists(steps, j + 1);
  }

  /** The outcomes of the first `k` iterations, each on its own, in order. */
  function Outcomes<B>(s: EpochSetup<B>, k: nat): (o: seq<Result<StepRecord<B>>>)
    requires k <= |s.trainBatches|
    ensures |o| == k
  {
    if k == 0 then [] else Outcomes(s, k - 1) + [StepSpec(s, k - 1)]
  }

  /** The outcomes of fewer iterations are a prefix of those of more. */
  lemma {:induction false} OutcomesPrefix<B>(s: EpochSetup<B>, k: nat, m: nat)
    requires k <= m <= |s.trainBatches|
    ensures Outcomes(s, m)[..k] == Outcomes(s, k)
    decreases m - k
  {
    if k < m {
      OutcomesPrefix(s, k, m - 1);
      assert Outcomes(s, m)[..m - 1] == Outcomes(s, m - 1);
      assert Outcomes(s, m)[..k] == Outcomes(s, m)[..m - 1][..k];
    } else {
      assert Outcomes(s, m)[..m] == Outcomes(s, m);
    }
  }

  /** The `j`-th outcome is that of iteration `j`. */
  lemma {:induction false} OutcomeAt<B>(s: EpochSetup<B>, k: nat, j: nat)
    requires j < k <= |s.trainBatches|
    ensures Outcomes(s, k)[j] == StepSpec(s, j)
  {
    if j < k - 1 {
      OutcomeAt(s, k - 1, j);
    }
  }

  /** A run of the first `k` iterations completes exactly when each of them does, and
      then holds one record per iteration. */
  lemma {:induction false} OutcomesRun<B>(s: EpochSetup<B>, k: nat)
    requires k <= |s.trainBatches|
    ensures RunInOrder(Outcomes(s, k)).Ok? <==> forall j :: 0 <= j < k ==> StepSpec(s, j).Ok?
    ensures RunInOrder(Outcomes(s, k)).Ok? ==> |RunInOrder(Outcomes(s, k)).value| == k
  {
    RunInOrderRecords(Outcomes(s, k));
    forall j | 0 <= j < k
      ensures Outcomes(s, k)[j] == StepSpec(s, j)
    {
      OutcomeAt(s, k, j);
    }
  }

  /** What one call of `train` produces: the records of its iterations, run in order,
      one record per iteration when it completes. */
  function EpochSpec<B>(s: EpochSetup<B>): (r: Result<seq<StepRecord<B>>>)
    ensures r.Ok? ==> |r.value| == Iterations(s.pretrained, |s.trainBatches|)
  {
    var k := Iterations(s.pretrained, |s.trainBatches|);
    OutcomesRun(s, k);
    RunInOrder(Outcomes(s, k))
  }

  /** An epoch completes exactly when every iteration it runs completes. */
  lemma EpochCompletesIff<B>(s: EpochSetup<B>)
    ensures EpochSpec(s).Ok? <==>
              forall j :: 0 <= j < Iterations(s.pretrained, |s.trainBatches|) ==> StepSpec(s, j).Ok?
  {
    OutcomesRun(s, Iterations(s.pretrained, |s.trainBatches|));
  }

  /** A run that has completed so far grows by one result per completed step. */
  lemma RunAppendOk<T>(steps: seq<Result<T>>, done: seq<T>, x: T)
    requires RunInOrder(steps) == Ok(done) && Started(steps) == |steps|
    ensures RunInOrder(steps + [Ok(x)]) == Ok(done + [x])
    ensures Started(steps + [Ok(x)]) == |steps| + 1
  {
    assert (steps + [Ok(x)])[..|steps|] == steps;
  }

  /** A step that raises after a completed run ends the run with its exception. */
  lemma RunAppendErr<T>(steps: seq<Result<T>>, done: seq<T>, e: Exception)
    requires RunInOrder(steps) == Ok(done) && Started(steps) == |steps|
    ensures RunInOrder(steps + [Err(e)]) == Err(e)
    ensures Started(steps + [Err(e)]) == |steps| + 1
  {
    assert (steps + [Err(e)])[..|steps|] == steps;
  }

  /** The `j`-th record of a completed epoch is that of iteration `j`, which completed. */
  lemma EpochRecordAt<B>(s: EpochSetup<B>, j: nat)
    requires EpochSpec(s).Ok? && j < Iterations(s.pretrained, |s.trainBatches|)
    ensures |EpochSpec(s).value| == Iterations(s.pretrained, |s.trainBatches|)
    ensures StepSpec(s, j).Ok? && EpochSpec(s).value[j] == StepSpec(s, j).value
  {
    var o := Outcomes(s, Iterations(s.pretrained, |s.trainBatches|));
    RunInOrderRecords(o);
    OutcomeAt(s, Iterations(s.pretrained, |s.trainBatches|), j);
  }

  /** A failing epoch raises the exception of its first failing iteration. */
  lemma EpochFailsAtFirstFailure<B>(s: EpochSetup<B>, j: nat)
    requires j < Iterations(s.pretrained, |s.trainBatches|)
    requires StepSpec(s, j).Err? && forall l :: 0 <= l < j ==> StepSpec(s, l).Ok?
    ensures EpochSpec(s) == Err(StepSpec(s, j).error)
  {
    var k := Iterations(s.pretrained, |s.trainBatches|);
    forall l | 0 <= l <= j
      ensures Outcomes(s, k)[l] == StepSpec(s, l)
    {
      OutcomeAt(s, k, l);
    }
    RunStopsAtFirstFailure(Outcomes(s, k), j);
  }

  /** The statistics schedule of a completed iteration: the true gradient is taken
      before the update exactly on the iterations `i % stat_freq == 0` outside
      pretrained mode with `save_noise` set; `save_stats` runs exactly when
      `save_noise` is set and the model is pretrained or `i % stat_freq == 0`; a
      progress line is printed exactly when `i % print_freq == 0`. */
  lemma StatsSchedule<B>(s: EpochSetup<B>, i: nat)
    requires i < |s.trainBatches| && StepSpec(s, i).Ok?
    ensures var rec := StepSpec(s, i).value;
            && (rec.prevTrueGrad.Some? <==>
                  !s.pretrained && s.cfg.saveNoise && i % s.cfg.statFreq == 0)
            && (rec.stats.Some? <==>
                  s.cfg.saveNoise && (s.pretrained || i % s.cfg.statFreq == 0))
            && (rec.progressHead.Some? <==> i % s.cfg.printFreq == 0)
            && (rec.progressHead.Some? ==> rec.progressHead.value == ProgressHead(s, i))
  {
    assert UpdateSpec(s, i).Ok?;
  }

  /** A completed iteration leaves only the training batch's gradient in the buffer
      (nothing in pretrained mode): `compute_grad_epoch` ends with `zero_grad`, so the
      true gradient taken before the update leaves nothing behind for `loss.backward()`. */
  lemma CompletedStepGrad<B>(s: EpochSetup<B>, i: nat)
    requires i < |s.trainBatches| && StepSpec(s, i).Ok?
    ensures GradAfterStep(s, i) == if s.pretrained then [] else Single(s.trainBatches[i])
  {
    assert UpdateSpec(s, i).Ok?;
  }

  /** When an iteration raises, and which exception: `ZeroDivisionError` from a zero
      `stat_freq` (only evaluated outside pretrained mode with `save_noise` set) or a zero
      `print_freq`; `StopIteration` when a fresh pass over the statistics loader has
      fewer than `noise_size` batches before the update, or fewer than
      `2 * noise_size` for `save_stats`. */
  lemma StepOutcome<B>(s: EpochSetup<B>, i: nat)
    requires i < |s.trainBatches|
    ensures var n, cfg := Draws(s.cfg.noiseSize), s.cfg;
            var zeroStat := !s.pretrained && cfg.saveNoise && cfg.statFreq == 0;
            var shortPre := Measured(s, i) && |s.shuffle(PreUpdate(i))| < n;
            var shortNoise := StatsDue(s, i) && |s.shuffle(NoiseEstimate(i))| < 2 * n;
            && (StepSpec(s, i).Err? <==> zeroStat || shortPre || cfg.printFreq == 0 || shortNoise)
            && (StepSpec(s, i).Err? ==>
                  (StepSpec(s, i).error == ZeroDivisionError <==>
                     zeroStat || (!shortPre && cfg.printFreq == 0)))
  {
  }

  /** In pretrained mode a non-empty epoch is its first iteration alone: it raises
      exactly when that iteration does, and otherwise holds that one record, which
      took no true gradient before an update and saved statistics exactly when
      `save_noise` is set. */
  lemma PretrainedSingleStep<B>(s: EpochSetup<B>)
    requires s.pretrained && s.trainBatches != []
    ensures EpochSpec(s).Err? <==> StepSpec(s, 0).Err?
    ensures EpochSpec(s).Err? ==> EpochSpec(s).error == StepSpec(s, 0).error
    ensures EpochSpec(s).Ok? ==>
              && EpochSpec(s).value == [StepSpec(s, 0).value]
              && EpochSpec(s).value[0].prevTrueGrad == None
              && (EpochSpec(s).value[0].stats.Some? <==> s.cfg.saveNoise)
  {
    var step := StepSpec(s, 0);
    assert Iterations(s.pretrained, |s.trainBatches|) == 1;
    assert Outcomes(s, 1) == Outcomes(s, 0) + [step];
    if step.Err? {
      RunAppendErr(Outcomes(s, 0), [], step.error);
    } else {
      RunAppendOk(Outcomes(s, 0), [], step.value);
      StatsSchedule(s, 0);
    }
  }

  /** In pretrained mode there is no earlier snapshot, so the drift saved is that of
      the noise pass's true gradient against itself. */
  lemma PretrainedDriftIsSelf<B>(s: EpochSetup<B>, i: nat)
    requires s.pretrained && i < |s.trainBatches|
    requires StepSpec(s, i).Ok? && StepSpec(s, i).value.stats.Some?
    ensures var t := GradEpochSpec(s.shuffle(NoiseEstimate(i)), s.cfg.noiseSize).value;
            StepSpec(s, i).value.stats.value.report.gradChangeSq == Noise(NoiseSqPart, t, t)
  {
    DriftFallback(s.shuffle(NoiseEstimate(i)), s.cfg.noiseSize, None);
  }

  /** On a measured iteration with `noise_size > 0` the drift saved is that of the
      noise pass's true gradient against the one taken before the update, on a
      different pass; the update size is measured on the training batch's gradient. */
  lemma MeasuredDriftAgainstPreUpdate<B>(s: EpochSetup<B>, i: nat)
    requires i < |s.trainBatches| && Measured(s, i) && s.cfg.noiseSize > 0
    requires StepSpec(s, i).Ok?
    ensures var st := StepSpec(s, i).value.stats;
            var pre := GradEpochSpec(s.shuffle(PreUpdate(i)), s.cfg.noiseSize).value;
            var t := GradEpochSpec(s.shuffle(NoiseEstimate(i)), s.cfg.noiseSize).value;
            && st.Some?
            && st.value.report.gradChangeSq == Noise(NoiseSqPart, t, pre)
            && st.value.updateSize == UpdateSize(Single(s.trainBatches[i]), s.lr)
            && st.value.momentumSize == MomentumSize(i)
  {
    var pre := s.shuffle(PreUpdate(i));
    var n := s.cfg.noiseSize;
    GradEpochIsMean(pre, n, _ => 0.0);
    assert |GradEpochSpec(pre, n).value| == n;
    DriftFallback(s.shuffle(NoiseEstimate(i)), n, Some(GradEpochSpec(pre, n).value));
  }

  /** Every progress line of an epoch has the same head length, so the lines align. */
  lemma ProgressHeadsAligned<B>(s: EpochSetup<B>, i: nat, j: nat)
    requires i <= |s.trainBatches| && j <= |s.trainBatches|
    ensures |ProgressHead(s, i)| == |ProgressHead(s, j)|
  {
    BatchCounterAligned(|s.trainBatches|, i);
    BatchCounterAligned(|s.trainBatches|, j);
  }

  /** `save_stats(stats_loader, model, ..., prev_true_grad, update_size, m_size)` with
      `save_noise` set: clears the buffer and runs `compute_sto_grad_norm` on a fresh
      pass over the statistics loader. */
  method SaveStats<B>(net: Network<B>, noiseSize: int, stream: seq<B>, epoch: nat,
                      prevTrueGrad: Option<Gradient<B>>, updateSize: Quantity<B>,
                      momentumSize: Quantity<B>)
    returns (r: Result<StatsRecord<B>>)
    modifies net
    ensures r == SaveStatsSpec(stream, noiseSize, epoch, prevTrueGrad, updateSize, momentumSize)
    ensures r.Ok? ==> net.grad == []
    ensures r.Err? ==> net.grad == LeftoverGrad(stream, noiseSize)
  {
    var it := new BatchIterator(stream);
    net.ZeroGrad();
    var report := ComputeStoGradNorm(it, net, noiseSize, prevTrueGrad);
    if report.Err? {
      return Err(report.error);
    }
    r := Ok(StatsRecord(epoch, report.value, updateSize, momentumSize));
  }

  /** The update part of one iteration of `train` on batch `i`: `optimizer.zero_grad()`,
      the true gradient before the update on measured iterations, `loss.backward()`
      and `optimizer.step()` (which leaves the buffer alone), then the update and
      momentum sizes on measured iterations. */
  method UpdateStep<B>(net: Network<B>, s: EpochSetup<B>, i: nat) returns (r: Result<Measurements<B>>)
    requires i < |s.trainBatches|
    modifies net
    ensures r == UpdateSpec(s, i)
    ensures net.grad == GradAfterStep(s, i)
  {
    var cfg := s.cfg;
    net.ZeroGrad();
    var prevTrueGrad: Option<Gradient<B>> := None;
    var updateSize, momentumSize := Zero, Zero;
    if !s.pretrained {
      if cfg.saveNoise {
        if cfg.statFreq == 0 {
          return Err(ZeroDivisionError);
        }
        if i % cfg.statFreq == 0 {
          var it := new BatchIterator(s.shuffle(PreUpdate(i)));
          var g := ComputeGradEpoch(it, net, cfg.noiseSize);
          if g.Err? {
            return Err(g.error);
          }
          prevTrueGrad := Some(g.value);
        }
      }
      net.Backward(s.trainBatches[i], 1.0);
      if cfg.saveNoise && i % cfg.statFreq == 0 {
        var direction := net.CloneGrad();
        assert direction == Single(s.trainBatches[i]);
        updateSize := UpdateSize(direction, s.lr);
        momentumSize := MomentumSize(i);
      }
    }
    r := Ok(Measurements(prevTrueGrad, updateSize, momentumSize));
  }

  /** One iteration of the loop of `train` on batch `i`. `save_stats` works on
      `copy.deepcopy(model)`, so it leaves the model's buffer alone. */
  method TrainStep<B>(net: Network<B>, s: EpochSetup<B>, progress: ProgressMeter, i: nat)
    returns (r: Result<StepRecord<B>>)
    requires i < |s.trainBatches|
    requires progress == NewProgressMeter(|s.trainBatches|, EpochPrefix(s.epoch))
    modifies net
    ensures r == StepSpec(s, i)
    ensures net.grad == GradAfterStep(s, i)
  {
    var cfg := s.cfg;
    var m := UpdateStep(net, s, i);
    if m.Err? {
      return Err(m.error);
    }
    if cfg.printFreq == 0 {
      return Err(ZeroDivisionError);
    }
    var head: Option<string> := None;
    if i % cfg.printFreq == 0 {
      head := Some(progress.prefix + FormatBatch(progress.batchFmt, i));
    }
    var stats: Option<StatsRecord<B>> := None;
    if cfg.saveNoise && (s.pretrained || i % cfg.statFreq == 0) {
      var copy := net.DeepCopy();
      var st := SaveStats(copy, cfg.noiseSize, s.shuffle(NoiseEstimate(i)), s.epoch,
                          m.value.prevTrueGrad, m.value.updateSize, m.value.momentumSize);
      if st.Err? {
        return Err(st.error);
      }
      stats := Some(st.value);
    }
    r := Ok(StepRecord(m.value.prevTrueGrad, head, stats));
  }

  /** The first `i` iterations have all completed, with `records` as their records. */
  ghost predicate CompletedSoFar<B>(s: EpochSetup<B>, i: nat, records: seq<StepRecord<B>>)
  {
    i <= |s.trainBatches| && RunInOrder(Outcomes(s, i)) == Ok(records) && Started(Outcomes(s, i)) == i
  }

  /** The buffer one call of `train` leaves, starting from `before`: that of the last
      iteration started, or `before` when none started. */
  ghost function EpochGrad<B>(s: EpochSetup<B>, before: Gradient<B>): Gradient<B>
  {
    var k := Started(Outcomes(s, Iterations(s.pretrained, |s.trainBatches|)));
    if k == 0 then before else GradAfterStep(s, k - 1)
  }

  /** One pass of the loop body of `train`: iteration `i` after `i` completed ones.
      Either the first `i + 1` iterations complete with the new record appended, or
      the epoch ends with the exception iteration `i` raises, iteration `i` being the
      last one started. */
  method RunIteration<B>(net: Network<B>, s: EpochSetup<B>, progress: ProgressMeter, i: nat,
                         ghost records: seq<StepRecord<B>>, ghost before: Gradient<B>)
    returns (step: Result<StepRecord<B>>)
    requires i < Iterations(s.pretrained, |s.trainBatches|)
    requires progress == NewProgressMeter(|s.trainBatches|, EpochPrefix(s.epoch))
    requires CompletedSoFar(s, i, records)
    modifies net
    ensures step.Ok? ==> CompletedSoFar(s, i + 1, records + [step.value])
    ensures step.Err? ==> EpochSpec(s) == Err(step.error)
    ensures step.Err? ==> net.grad == EpochGrad(s, before)
    ensures net.grad == GradAfterStep(s, i)
  {
    step := TrainStep(net, s, progress, i);
    if step.Err? {
      RunAppendErr(Outcomes(s, i), records, step.error);
      EpochStopsAfter(s, i, before);
    } else {
      RunAppendOk(Outcomes(s, i), records, step.value);
    }
  }

  /** Once the first `i + 1` iterations have raised, the epoch ends with that
      exception after starting exactly those iterations. */
  lemma EpochStopsAfter<B>(s: EpochSetup<B>, i: nat, before: Gradient<B>)
    requires i < Iterations(s.pretrained, |s.trainBatches|)
    requires RunInOrder(Outcomes(s, i + 1)).Err? && Started(Outcomes(s, i + 1)) == i + 1
    ensures EpochSpec(s) == RunInOrder(Outcomes(s, i + 1))
    ensures Started(Outcomes(s, Iterations(s.pretrained, |s.trainBatches|))) == i + 1
    ensures EpochGrad(s, before) == GradAfterStep(s, i)
  {
    var k := Iterations(s.pretrained, |s.trainBatches|);
    var all := Outcomes(s, k);
    OutcomesPrefix(s, i + 1, k);
    ErrorPersists(all, i + 1);
    assert EpochSpec(s) == RunInOrder(all);
  }

  /** Once every iteration the loop runs has completed, the epoch holds their records. */
  lemma EpochCompletes<B>(s: EpochSetup<B>, i: nat, records: seq<StepRecord<B>>,
                          before: Gradient<B>, after: Gradient<B>)
    requires i == Iterations(s.pretrained, |s.trainBatches|)
    requires CompletedSoFar(s, i, records)
    requires i == 0 ==> after == before
    requires i > 0 ==> after == GradAfterStep(s, i - 1)
    ensures EpochSpec(s) == Ok(records)
    ensures EpochGrad(s, before) == after
  {
  }

  /** `train(train_loader, stats_loader, model, ..., epoch, args, pretrained)`: builds
      the epoch's `ProgressMeter` and runs the iterations in order, stopping at the
      first exception, or after the first iteration in pretrained mode. */
  method Train<B>(net: Network<B>, s: EpochSetup<B>) returns (r: Result<seq<StepRecord<B>>>)
    modifies net
    ensures r == EpochSpec(s)
    ensures net.grad == EpochGrad(s, old(net.grad))
  {
    var progress := NewProgressMeter(|s.trainBatches|, EpochPrefix(s.epoch));
    var records: seq<StepRecord<B>> := [];
    var i := 0;
    while i < |s.trainBatches|
      invariant i <= Iterations(s.pretrained, |s.trainBatches|)
      invariant s.pretrained ==> i == 0
      invariant CompletedSoFar(s, i, records)
      invariant i == 0 ==> net.grad == old(net.grad)
      invariant i > 0 ==> net.grad == GradAfterStep(s, i - 1)
    {
      var step := RunIteration(net, s, progress, i, records, old(net.grad));
      if step.Err? {
        return Err(step.error);
      }
      records := records + [step.value];
      i := i + 1;
      if s.pretrained {
        break;
      }
    }
    EpochCompletes(s, i, records, old(net.grad), net.grad);
    r := Ok(records);
  }
}
