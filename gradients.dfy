/** The gradient state the diagnostics of train.py work on.

    Tensors are not modelled. A gradient buffer is the formal sum of what the
    backward passes since the last `zero_grad` put into it: one `Contribution`
    (the gradient of the loss on one batch, times a scale) per `loss.backward()`,
    in order. A snapshot taken by `clone_grad` is such a sum as a value, so later
    steps cannot change a snapshot already taken.

    A contribution names a batch, not the parameters its gradient was taken at: two
    equal sums, one formed before `optimizer.step()` and one after, do not stand for
    equal gradients. No property proved here relies on such an equality. */
module Gradients {
  import opened Common

  /** The gradient of the loss on `batch`, multiplied by `scale`. */
  datatype Contribution<B> = Contribution(batch: B, scale: real)

  /** A gradient buffer or snapshot: the sum of its contributions. */
  type Gradient<B> = seq<Contribution<B>>

  /** The gradient of one batch's unscaled loss, as one stochastic pass leaves it. */
  function Single<B>(b: B): (g: Gradient<B>)
    ensures |g| == 1 && g[0].batch == b && g[0].scale == 1.0
  {
    [Contribution(b, 1.0)]
  }

  /** Every batch of `bs`, in order, with the same scale `c`. */
  function Scaled<B>(bs: seq<B>, c: real): (g: Gradient<B>)
    ensures |g| == |bs|
    ensures forall j :: 0 <= j < |bs| ==> g[j] == Contribution(bs[j], c)
  {
    seq(|bs|, j requires 0 <= j < |bs| => Contribution(bs[j], c))
  }

  /** `1 / n`, the scale of each loss in an average over `n` batches. */
  function Recip(n: nat): real
    requires n > 0
  {
    1.0 / n as real
  }

  /** The average of the batch gradients of `bs`: each scaled by `1 / |bs|`. */
  function Averaged<B>(bs: seq<B>): (g: Gradient<B>)
    ensures |g| == |bs|
  {
    if bs == [] then [] else Scaled(bs, Recip(|bs|))
  }

  /** The value a gradient sum takes in one coordinate, given every batch's gradient
      in that coordinate. */
  function Combine<B>(g: Gradient<B>, f: B -> real): real
  {
    if g == [] then 0.0 else g[0].scale * f(g[0].batch) + Combine(g[1..], f)
  }

  /** The plain sum of the batch gradients of `bs` in one coordinate. */
  function SumOver<B>(bs: seq<B>, f: B -> real): real
  {
    if bs == [] then 0.0 else f(bs[0]) + SumOver(bs[1..], f)
  }

  /** A common scale factors out of the sum. */
  lemma {:induction false} CombineScaled<B>(bs: seq<B>, c: real, f: B -> real)
    ensures Combine(Scaled(bs, c), f) == c * SumOver(bs, f)
  {
    if bs != [] {
      assert Scaled(bs, c)[1..] == Scaled(bs[1..], c);
      CombineScaled(bs[1..], c, f);
    }
  }

  /** An averaged snapshot is the arithmetic mean of the batch gradients: their sum
      times `1 / |bs|`. */
  lemma AveragedIsMean<B>(bs: seq<B>, f: B -> real)
    requires bs != []
    ensures Combine(Averaged(bs), f) == Recip(|bs|) * SumOver(bs, f)
  {
    AveragedIsScaled(bs);
    CombineScaled(bs, Recip(|bs|), f);
  }

  /** A non-empty average scales every batch by `1 / |bs|`. */
  lemma AveragedIsScaled<B>(bs: seq<B>)
    requires bs != []
    ensures Averaged(bs) == Scaled(bs, Recip(|bs|))
  {
  }

  /** Summing the gradient of one batch `k` times gives `k` times that gradient. */
  lemma {:induction false} SumOverConstant<B>(bs: seq<B>, b: B, f: B -> real)
    requires forall j :: 0 <= j < |bs| ==> bs[j] == b
    ensures SumOver(bs, f) == |bs| as real * f(b)
  {
    if bs != [] {
      SumOverConstant(bs[1..], b, f);
    }
  }

  /** Averaging identical batches gives exactly the gradient of one of them: with no
      variance between batches, averaging changes nothing. */
  lemma IdenticalBatchesAverage<B>(bs: seq<B>, b: B, f: B -> real)
    requires bs != [] && forall j :: 0 <= j < |bs| ==> bs[j] == b
    ensures Combine(Averaged(bs), f) == Combine(Single(b), f)
  {
    AveragedIsMean(bs, f);
    SumOverConstant(bs, b, f);
    Cancel(|bs|, f(b));
  }

  /** `(1 / n) * (n * v) == v`. */
  lemma Cancel(n: nat, v: real)
    requires n > 0
    ensures Recip(n) * (n as real * v) == v
  {
    RecipInverse(n);
    assert Recip(n) * (n as real * v) == (Recip(n) * n as real) * v;
  }

  lemma RecipInverse(n: nat)
    requires n > 0
    ensures Recip(n) * n as real == 1.0
  {
  }

  /** The network's gradient buffers. */
  class Network<B> {
    var grad: Gradient<B>

    constructor ()
      ensures grad == []
    {
      grad := [];
    }

    /** `model.zero_grad()` (or `optimizer.zero_grad()`). */
    method ZeroGrad()
      modifies this
      ensures grad == []
    {
      grad := [];
    }

    /** A forward pass on `batch`, the loss multiplied by `scale`, then
        `loss.backward()`: the new gradient is added to what the buffer holds. */
    method Backward(batch: B, scale: real)
      modifies this
      ensures grad == old(grad) + [Contribution(batch, scale)]
    {
      grad := grad + [Contribution(batch, scale)];
    }

    /** `clone_grad(model, snapshot)`: a copy of the buffer as a value. */
    method CloneGrad() returns (snapshot: Gradient<B>)
      ensures snapshot == grad
    {
      snapshot := grad;
    }

    /** `copy.deepcopy(model)`: a new network whose buffer starts as this one's. */
    method DeepCopy() returns (c: Network<B>)
      ensures fresh(c) && c.grad == grad
    {
      c := new Network();
      c.grad := grad;
    }
  }

  /** `iter(loader)`: yields the batches of one pass over the loader, in order. */
  class BatchIterator<B> {
    const batches: seq<B>
    var pos: nat

    ghost predicate Valid()
      reads this
    {
      pos <= |batches|
    }

    /** The batches not drawn yet. */
    ghost function Remaining(): seq<B>
      reads this
      requires Valid()
    {
      batches[pos..]
    }

    constructor (batches: seq<B>)
      ensures Valid() && this.batches == batches && pos == 0
    {
      this.batches := batches;
      pos := 0;
    }

    /** `next(it)`: the next batch, or `StopIteration` once every batch was drawn. */
    method Next() returns (r: Result<B>)
      requires Valid()
      modifies this
      ensures Valid()
      ensures old(pos) < |batches| ==> r == Ok(batches[old(pos)]) && pos == old(pos) + 1
      ensures old(pos) == |batches| ==> r == Err(StopIteration) && pos == old(pos)
    {
      if pos == |batches| {
        return Err(StopIteration);
      }
      r := Ok(batches[pos]);
      pos := pos + 1;
    }
  }
}
