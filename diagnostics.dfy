/** The gradient-noise estimators of train.py: `compute_grad_epoch`, which averages
    the gradient over `noise_size` batches, and `compute_sto_grad_norm`, which then
    compares `noise_size` further single-batch gradients with that average.

    The numbers the `utils` helpers compute (`compute_noise`, `compute_norm`,
    `compute_l1norm`, `compute_linfnorm`) are kept as symbolic `Quantity` terms
    naming the gradients they are computed from; what the model states is which
    batches feed which gradient, how many batches are drawn, and how long the
    returned lists are. */
module Diagnostics {
  import opened Common
  import opened Gradients

  /** A number computed by a library helper, named by what it is computed from. */
  datatype Quantity<B> =
    | Zero                                           // the literal `0`
    | Noise(part: NoisePart, g: Gradient<B>, ref: Gradient<B>)  // a result of `compute_noise(g, ref)`
    | NormSq(g: Gradient<B>)                         // `compute_norm(g)`
    | L1Norm(g: Gradient<B>)                         // `compute_l1norm(g)`
    | LinfNorm(g: Gradient<B>)                       // `compute_linfnorm(g)`
    | UpdateSize(direction: Gradient<B>, lr: real)   // `compute_norm(direction) ** 0.5 * lr`
    | MomentumSize(step: nat)                        // `compute_norm(momentums) ** 0.5` after step `step`

  /** Which of the three results of `compute_noise` a quantity is. */
  datatype NoisePart = NoiseSqPart | GradSqPart | GradLinfPart

  /** One result of `compute_noise` for each sample batch, against `t`, in draw order. */
  function Compared<B>(part: NoisePart, samples: seq<B>, t: Gradient<B>): (qs: seq<Quantity<B>>)
    ensures |qs| == |samples|
  {
    if samples == [] then []
    else Compared(part, samples[..|samples| - 1], t) + [Noise(part, Single(samples[|samples| - 1]), t)]
  }

  /** The `j`-th entry of `Compared` is about the `j`-th sample alone. */
  lemma {:induction false} ComparedAt<B>(part: NoisePart, samples: seq<B>, t: Gradient<B>, j: int)
    requires 0 <= j < |samples|
    ensures Compared(part, samples, t)[j] == Noise(part, Single(samples[j]), t)
  {
    if j < |samples| - 1 {
      ComparedAt(part, samples[..|samples| - 1], t, j);
    }
  }

  /** Drawing one more sample appends its result. */
  lemma CompareOneMore<B>(part: NoisePart, batches: seq<B>, i: nat, t: Gradient<B>)
    requires i < |batches|
    ensures Compared(part, batches[..i + 1], t)
              == Compared(part, batches[..i], t) + [Noise(part, Single(batches[i]), t)]
  {
    assert batches[..i + 1][..i] == batches[..i];
  }

  /** The seven results of `compute_sto_grad_norm`, in order. */
  datatype NoiseReport<B> = NoiseReport(
    noiseSq: seq<Quantity<B>>,
    stogradSq: seq<Quantity<B>>,
    stogradLinf: seq<Quantity<B>>,
    gradnormSq: Quantity<B>,
    l1Norm: Quantity<B>,
    linfNorm: Quantity<B>,
    gradChangeSq: Quantity<B>)

  /** How many times `for i in range(noise_size)` runs: `noise_size`, or none when
      it is not positive. */
  function Draws(noiseSize: int): (n: nat)
    ensures noiseSize > 0 ==> n == noiseSize
    ensures noiseSize <= 0 ==> n == 0
  {
    if noiseSize > 0 then noiseSize else 0
  }

  /** `not prev_true_grad`: no snapshot, or one with nothing in it. */
  predicate Falsy<B>(prev: Option<Gradient<B>>)
  {
    prev.None? || prev.value == []
  }

  /** The snapshot the drift is measured against: the previous true gradient, or the
      current one when there is no previous one. */
  function Reference<B>(prev: Option<Gradient<B>>, current: Gradient<B>): (ref: Gradient<B>)
    ensures Falsy(prev) ==> ref == current
    ensures !Falsy(prev) ==> ref == prev.value
  {
    if Falsy(prev) then current else prev.value
  }

  /** What `compute_grad_epoch` returns when its iterator yields `batches`: the mean
      gradient of the first `noise_size` batches, or `StopIteration` when there are
      fewer. */
  function GradEpochSpec<B>(batches: seq<B>, noiseSize: int): (r: Result<Gradient<B>>)
    ensures r.Err? <==> |batches| < Draws(noiseSize)
    ensures r.Err? ==> r.error == StopIteration
  {
    var n := Draws(noiseSize);
    if |batches| < n then Err(StopIteration) else Ok(Averaged(batches[..n]))
  }

  /** A successful `compute_grad_epoch` holds one contribution per drawn batch, in
      draw order, each loss divided by `noise_size`; in every coordinate its value is
      the mean of the batch gradients. */
  lemma GradEpochIsMean<B>(batches: seq<B>, noiseSize: int, f: B -> real)
    requires noiseSize > 0 && |batches| >= noiseSize
    ensures GradEpochSpec(batches, noiseSize).Ok?
    ensures var g := GradEpochSpec(batches, noiseSize).value;
            && |g| == noiseSize
            && (forall j :: 0 <= j < noiseSize ==> g[j] == Contribution(batches[j], Recip(noiseSize)))
            && Combine(g, f) == Recip(noiseSize) * SumOver(batches[..noiseSize], f)
  {
    AveragedIsMean(batches[..noiseSize], f);
  }

  /** With no draws (`noise_size <= 0`) the returned snapshot is empty. */
  lemma GradEpochWithoutDraws<B>(batches: seq<B>, noiseSize: int)
    requires noiseSize <= 0
    ensures GradEpochSpec(batches, noiseSize) == Ok([])
  {
    assert GradEpochSpec(batches, noiseSize).value == [];
  }

  /** What `compute_sto_grad_norm` returns when its iterator yields `batches`: the
      first `noise_size` batches make the true gradient, each of the next
      `noise_size` batches one stochastic gradient compared with it. */
  function StoGradNormSpec<B>(batches: seq<B>, noiseSize: int, prev: Option<Gradient<B>>)
    : (r: Result<NoiseReport<B>>)
    ensures r.Err? <==> |batches| < 2 * Draws(noiseSize)
    ensures r.Err? ==> r.error == StopIteration
    ensures r.Ok? ==> |r.value.noiseSq| == |r.value.stogradSq| == |r.value.stogradLinf| == Draws(noiseSize)
  {
    var n := Draws(noiseSize);
    if |batches| < 2 * n then Err(StopIteration)
    else
      var t := Averaged(batches[..n]);
      var samples := batches[n..2 * n];
      Ok(NoiseReport(
        Compared(NoiseSqPart, samples, t), Compared(GradSqPart, samples, t),
        Compared(GradLinfPart, samples, t),
        NormSq(t), L1Norm(t), LinfNorm(t),
        Noise(NoiseSqPart, t, Reference(prev, t))))
  }

  /** The `j`-th entry of each list compares the gradient of batch `noise_size + j`
      alone with the mean gradient of batches `0 .. noise_size - 1`; the norms are
      those of that mean; no batch feeds both the mean and a sample. */
  lemma StoGradNormSamples<B>(batches: seq<B>, noiseSize: int, prev: Option<Gradient<B>>, j: int)
    requires StoGradNormSpec(batches, noiseSize, prev).Ok?
    requires 0 <= j < Draws(noiseSize)
    ensures var rep := StoGradNormSpec(batches, noiseSize, prev).value;
            var t := GradEpochSpec(batches, noiseSize).value;
            && GradEpochSpec(batches, noiseSize).Ok?
            && rep.noiseSq[j] == Noise(NoiseSqPart, Single(batches[noiseSize + j]), t)
            && rep.stogradSq[j] == Noise(GradSqPart, Single(batches[noiseSize + j]), t)
            && rep.stogradLinf[j] == Noise(GradLinfPart, Single(batches[noiseSize + j]), t)
            && rep.gradnormSq == NormSq(t) && rep.l1Norm == L1Norm(t) && rep.linfNorm == LinfNorm(t)
            && (forall c :: c in t ==> c.batch in batches[..noiseSize])
  {
    var n := Draws(noiseSize);
    var t := Averaged(batches[..n]);
    ComparedAt(NoiseSqPart, batches[n..2 * n], t, j);
    ComparedAt(GradSqPart, batches[n..2 * n], t, j);
    ComparedAt(GradLinfPart, batches[n..2 * n], t, j);
    forall c | c in t
      ensures c.batch in batches[..n]
    {
      var k :| 0 <= k < |t| && t[k] == c;
      assert c.batch == batches[..n][k];
    }
  }

  /** The drift `grad_change_sq` is measured against the previous true gradient when
      there is one, and against the current one itself otherwise. */
  lemma DriftFallback<B>(batches: seq<B>, noiseSize: int, prev: Option<Gradient<B>>)
    requires StoGradNormSpec(batches, noiseSize, prev).Ok?
    ensures var t := GradEpochSpec(batches, noiseSize).value;
            var change := StoGradNormSpec(batches, noiseSize, prev).value.gradChangeSq;
            && (Falsy(prev) ==> change == Noise(NoiseSqPart, t, t))
            && (!Falsy(prev) ==> change == Noise(NoiseSqPart, t, prev.value))
  {
  }

  /** The buffer `compute_sto_grad_norm` leaves behind when `next` raises: the
      partial sum of the averaging loop, nothing when the true gradient was complete
      but no sample could be drawn, or the last sample's gradient. */
  function LeftoverGrad<B>(batches: seq<B>, noiseSize: int): (g: Gradient<B>)
    requires |batches| < 2 * Draws(noiseSize)
    ensures |g| < Draws(noiseSize)
    ensures |batches| < Draws(noiseSize) ==> |g| == |batches|
  {
    var n := Draws(noiseSize);
    if |batches| < n then Scaled(batches, Recip(noiseSize))
    else if |batches| == n then []
    else Single(batches[|batches| - 1])
  }

  /** `compute_grad_epoch(dataloader, model, ...)`: clears the buffer, runs
      `noise_size` backward passes with the loss divided by `noise_size`, takes a
      snapshot and clears the buffer again. The `break` at `i == noise_size - 1`
      ends the loop exactly when the `range` would. */
  method ComputeGradEpoch<B>(it: BatchIterator<B>, net: Network<B>, noiseSize: int)
    returns (r: Result<Gradient<B>>)
    requires it.Valid()
    modifies it, net
    ensures it.Valid()
    ensures r == GradEpochSpec(old(it.Remaining()), noiseSize)
    ensures r.Ok? ==> it.pos == old(it.pos) + Draws(noiseSize) && net.grad == []
    ensures r.Err? ==> it.pos == |it.batches| && net.grad == Scaled(old(it.Remaining()), Recip(noiseSize))
  {
    ghost var rem := it.Remaining();
    net.ZeroGrad();
    var i := 0;
    while i < noiseSize
      invariant 0 <= i <= Draws(noiseSize) && i <= |rem|
      invariant it.Valid() && it.pos == old(it.pos) + i && it.Remaining() == rem[i..]
      invariant i > 0 ==> net.grad == Scaled(rem[..i], Recip(noiseSize))
      invariant i == 0 ==> net.grad == []
    {
      var b := it.Next();
      if b.Err? {
        assert rem[..i] == rem;
        return Err(StopIteration);
      }
      net.Backward(b.value, Recip(noiseSize));
      assert rem[..i + 1] == rem[..i] + [b.value];
      if i == noiseSize - 1 {
        i := i + 1;
        break;
      }
      i := i + 1;
    }
    var trueGrad := net.CloneGrad();
    net.ZeroGrad();
    r := Ok(trueGrad);
    assert Draws(noiseSize) == i;
    if noiseSize > 0 {
      assert trueGrad == Averaged(rem[..i]);
    }
  }

  /** The three lists the sampling loop of `compute_sto_grad_norm` builds. */
  datatype SampleLists<B> = SampleLists(
    noiseSq: seq<Quantity<B>>, stogradSq: seq<Quantity<B>>, stogradLinf: seq<Quantity<B>>)

  /** The sampling loop of `compute_sto_grad_norm`: for each of `noise_size` batches,
      clear the buffer, run one backward pass on the unscaled loss, take a snapshot
      and append its three `compute_noise` results against `t`. The `break` at
      `i == noise_size - 1` ends the loop exactly when the `range` would. */
  method SampleNoise<B>(it: BatchIterator<B>, net: Network<B>, noiseSize: int, t: Gradient<B>)
    returns (r: Result<SampleLists<B>>)
    requires it.Valid()
    modifies it, net
    ensures it.Valid()
    ensures var rem, n := old(it.batches[it.pos..]), Draws(noiseSize);
            && (r.Ok? <==> n <= |rem|)
            && (r.Ok? ==> && it.pos == old(it.pos) + n
                          && r.value == SampleLists(Compared(NoiseSqPart, rem[..n], t),
                                                    Compared(GradSqPart, rem[..n], t),
                                                    Compared(GradLinfPart, rem[..n], t))
                          && net.grad == if n == 0 then old(net.grad) else Single(rem[n - 1]))
            && (r.Err? ==> && r.error == StopIteration && it.pos == |it.batches|
                           && net.grad == if rem == [] then old(net.grad) else Single(rem[|rem| - 1]))
  {
    ghost var rem := it.batches[it.pos..];
    ghost var n := Draws(noiseSize);
    var noiseSq, stogradSq, stogradLinf := [], [], [];
    var i := 0;
    while i < noiseSize
      invariant 0 <= i <= n && i <= |rem|
      invariant it.Valid() && it.pos == old(it.pos) + i
      invariant noiseSq == Compared(NoiseSqPart, rem[..i], t)
      invariant stogradSq == Compared(GradSqPart, rem[..i], t)
      invariant stogradLinf == Compared(GradLinfPart, rem[..i], t)
      invariant net.grad == if i == 0 then old(net.grad) else Single(rem[i - 1])
    {
      var b := it.Next();
      if b.Err? {
        return Err(StopIteration);
      }
      assert b.value == rem[i];
      net.ZeroGrad();
      net.Backward(b.value, 1.0);
      var stoGrads := net.CloneGrad();
      assert stoGrads == Single(rem[i]);
      noiseSq := noiseSq + [Noise(NoiseSqPart, stoGrads, t)];
      stogradSq := stogradSq + [Noise(GradSqPart, stoGrads, t)];
      stogradLinf := stogradLinf + [Noise(GradLinfPart, stoGrads, t)];
      CompareOneMore(NoiseSqPart, rem, i, t);
      CompareOneMore(GradSqPart, rem, i, t);
      CompareOneMore(GradLinfPart, rem, i, t);
      if i == noiseSize - 1 {
        i := i + 1;
        break;
      }
      i := i + 1;
    }
    assert i == n;
    r := Ok(SampleLists(noiseSq, stogradSq, stogradLinf));
  }

  /** `compute_sto_grad_norm(dataloader, model, ..., prev_true_grad)`: the true
      gradient from `compute_grad_epoch`, its norms and its drift from
      `prev_true_grad`, then for each of `noise_size` further batches the noise of
      that batch's gradient against the true gradient, appended in draw order. */
  method ComputeStoGradNorm<B>(it: BatchIterator<B>, net: Network<B>, noiseSize: int,
                               prevTrueGrad: Option<Gradient<B>>)
    returns (r: Result<NoiseReport<B>>)
    requires it.Valid()
    modifies it, net
    ensures it.Valid()
    ensures r == StoGradNormSpec(old(it.Remaining()), noiseSize, prevTrueGrad)
    ensures r.Ok? ==> it.pos == old(it.pos) + 2 * Draws(noiseSize) && net.grad == []
    ensures r.Err? ==> it.pos == |it.batches| && net.grad == LeftoverGrad(old(it.Remaining()), noiseSize)
  {
    ghost var rem := it.Remaining();
    ghost var n := Draws(noiseSize);
    var trueGrads := ComputeGradEpoch(it, net, noiseSize);
    if trueGrads.Err? {
      StoGradNormShortMean(rem, noiseSize, prevTrueGrad);
      return Err(StopIteration);
    }
    var t := trueGrads.value;
    var prev := prevTrueGrad;
    if Falsy(prev) {
      prev := Some(t);
    }
    var gradChangeSq := Noise(NoiseSqPart, t, prev.value);
    var gradnormSq, l1, linf := NormSq(t), L1Norm(t), LinfNorm(t);
    assert it.batches[it.pos..] == rem[n..];
    var samples := SampleNoise(it, net, noiseSize, t);
    if samples.Err? {
      StoGradNormShortSamples(rem, noiseSize, prevTrueGrad);
      return Err(StopIteration);
    }
    net.ZeroGrad();
    StoGradNormComplete(rem, noiseSize, prevTrueGrad);
    r := Ok(NoiseReport(samples.value.noiseSq, samples.value.stogradSq, samples.value.stogradLinf,
                        gradnormSq, l1, linf, gradChangeSq));
  }

  /** The report fails, leaving the partial mean, when the mean runs out of batches. */
  lemma StoGradNormShortMean<B>(batches: seq<B>, noiseSize: int, prev: Option<Gradient<B>>)
    requires |batches| < Draws(noiseSize)
    ensures StoGradNormSpec(batches, noiseSize, prev) == Err(StopIteration)
    ensures LeftoverGrad(batches, noiseSize) == Scaled(batches, Recip(noiseSize))
  {
  }

  /** The report fails, leaving the last sample's gradient if any, when the samples
      run out of batches. */
  lemma StoGradNormShortSamples<B>(batches: seq<B>, noiseSize: int, prev: Option<Gradient<B>>)
    requires Draws(noiseSize) <= |batches| < 2 * Draws(noiseSize)
    ensures StoGradNormSpec(batches, noiseSize, prev) == Err(StopIteration)
    ensures var tail := batches[Draws(noiseSize)..];
            LeftoverGrad(batches, noiseSize) == if tail == [] then [] else Single(tail[|tail| - 1])
  {
  }

  /** With enough batches the report compares the samples that follow the mean. */
  lemma StoGradNormComplete<B>(batches: seq<B>, noiseSize: int, prev: Option<Gradient<B>>)
    requires 2 * Draws(noiseSize) <= |batches|
    ensures var n := Draws(noiseSize);
            var t := Averaged(batches[..n]);
            var samples := batches[n..][..n];
            StoGradNormSpec(batches, noiseSize, prev)
              == Ok(NoiseReport(
                   Compared(NoiseSqPart, samples, t), Compared(GradSqPart, samples, t),
                   Compared(GradLinfPart, samples, t),
                   NormSq(t), L1Norm(t), LinfNorm(t),
                   Noise(NoiseSqPart, t, Reference(prev, t))))
  {
    var n := Draws(noiseSize);
    assert batches[n..][..n] == batches[n..2 * n];
  }
}
