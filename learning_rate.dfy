/** The piecewise step decay of `adjust_learning_rate` in train.py: the initial
    learning rate is divided by 10 once every `int(epochs / 3)` epochs. */
module LearningRate {
  import opened Common

  /** The part of an SGD parameter group the schedule touches, and the rest of it. */
  datatype ParamGroup = ParamGroup(lr: real, momentum: real, weightDecay: real)

  /** Python's floor division `a // b`. */
  function FloorDiv(a: int, b: int): (q: int)
    requires b != 0
    ensures b > 0 ==> q * b <= a < q * b + b
    ensures b < 0 ==> q * b + b < a <= q * b
  {
    if b > 0 then a / b else (-a) / (-b)
  }

  /** `0.1 ** k` for `k >= 0`. */
  function Tenth(k: nat): (r: real)
    ensures 0.0 < r <= 1.0
  {
    if k == 0 then 1.0 else Tenth(k - 1) / 10.0
  }

  /** `10 ** k` for `k >= 0`. */
  function Ten(k: nat): (r: real)
    ensures r >= 1.0
  {
    if k == 0 then 1.0 else 10.0 * Ten(k - 1)
  }

  /** `0.1 ** k` for any integer exponent: always positive, at most 1 for a
      non-negative exponent and at least 1 for a non-positive one. */
  function DecayFactor(k: int): (r: real)
    ensures r > 0.0
    ensures k >= 0 ==> r <= 1.0
    ensures k <= 0 ==> r >= 1.0
  {
    if k >= 0 then Tenth(k) else Ten(-k)
  }

  /** The number of epochs between two decays: `int(epochs / 3)`, a true division
      truncated toward zero. */
  function DecayPeriod(epochs: int): (p: int)
    ensures p == 0 <==> -3 < epochs < 3
    ensures epochs >= 0 ==> 0 <= 3 * p <= epochs < 3 * p + 3
    ensures epochs < 0 ==> 3 * p - 3 < epochs <= 3 * p <= 0
  {
    if epochs >= 0 then epochs / 3 else -((-epochs) / 3)
  }

  /** The learning rate for `epoch`: `lr0 * 0.1 ** (epoch // int(epochs / 3))`. The
      floor division raises when the period is 0, that is when `|epochs| < 3`. */
  function ScheduledLr(lr0: real, epoch: int, epochs: int): (r: Result<real>)
    ensures r.Err? <==> -3 < epochs < 3
    ensures r.Err? ==> r.error == ZeroDivisionError
  {
    var period := DecayPeriod(epochs);
    if period == 0 then Err(ZeroDivisionError)
    else Ok(lr0 * DecayFactor(FloorDiv(epoch, period)))
  }

  /** Within the `j`-th block of `int(epochs / 3)` epochs the exponent is `j`, so the
      rate is `lr0 * 0.1 ** j`. */
  lemma BlockRate(lr0: real, epochs: int, j: nat, epoch: int)
    requires epochs >= 3
    requires j * (epochs / 3) <= epoch < (j + 1) * (epochs / 3)
    ensures FloorDiv(epoch, DecayPeriod(epochs)) == j
    ensures ScheduledLr(lr0, epoch, epochs) == Ok(lr0 * Tenth(j))
  {
    FloorDivUnique(epoch, epochs / 3, j);
    assert ScheduledLr(lr0, epoch, epochs).value == lr0 * Tenth(j);
  }

  /** The quotient `a // p` is the one block `j` with `j * p <= a < (j + 1) * p`. */
  lemma FloorDivUnique(a: int, p: int, j: int)
    requires p > 0 && j * p <= a < (j + 1) * p
    ensures FloorDiv(a, p) == j
  {
    var q := FloorDiv(a, p);
    assert (j + 1) * p == j * p + p;
    if q < j {
      FactorMonotone(q + 1, j, p);
    } else if q > j {
      FactorMonotone(j + 1, q, p);
    }
  }

  /** Multiplying `a <= b` by a non-negative `p` keeps the order. */
  lemma FactorMonotone(a: int, b: int, p: int)
    requires a <= b && p >= 0
    ensures a * p <= b * p
  {
    assert b * p - a * p == (b - a) * p;
  }

  /** The first `int(epochs / 3)` epochs run at the initial rate. */
  lemma FirstBlockKeepsInitialRate(lr0: real, epochs: int, epoch: int)
    requires epochs >= 3 && 0 <= epoch < epochs / 3
    ensures ScheduledLr(lr0, epoch, epochs) == Ok(lr0)
  {
    BlockRate(lr0, epochs, 0, epoch);
  }

  /** The exponent never decreases as the epoch grows. */
  lemma ExponentMonotone(epochs: int, e1: int, e2: int)
    requires epochs >= 3 && e1 <= e2
    ensures FloorDiv(e1, DecayPeriod(epochs)) <= FloorDiv(e2, DecayPeriod(epochs))
  {
    var p := DecayPeriod(epochs);
    var q1, q2 := FloorDiv(e1, p), FloorDiv(e2, p);
    if q2 < q1 {
      FactorMonotone(q2 + 1, q1, p);
    }
  }

  /** `0.1 ** k` shrinks as `k` grows. */
  lemma {:induction false} DecayFactorAntitone(k1: int, k2: int)
    requires k1 <= k2
    ensures DecayFactor(k2) <= DecayFactor(k1)
    decreases k2 - k1
  {
    if k1 < k2 {
      DecayFactorAntitone(k1, k2 - 1);
      if k2 - 1 >= 0 {
        assert DecayFactor(k2) == DecayFactor(k2 - 1) / 10.0;
      } else if k2 < 0 {
        assert Ten(1 - k2) == 10.0 * Ten(-k2);
      } else {
        assert Ten(1) == 10.0;
      }
    }
  }

  /** With a non-negative initial rate, the scheduled rate never increases from one
      epoch to a later one. */
  lemma RateNonIncreasing(lr0: real, epochs: int, e1: int, e2: int)
    requires lr0 >= 0.0 && epochs >= 3 && e1 <= e2
    ensures ScheduledLr(lr0, e1, epochs).Ok? && ScheduledLr(lr0, e2, epochs).Ok?
    ensures ScheduledLr(lr0, e2, epochs).value <= ScheduledLr(lr0, e1, epochs).value
  {
    var p := DecayPeriod(epochs);
    var k1, k2 := FloorDiv(e1, p), FloorDiv(e2, p);
    ExponentMonotone(epochs, e1, e2);
    DecayFactorAntitone(k1, k2);
    assert lr0 * DecayFactor(k2) <= lr0 * DecayFactor(k1) by {
      assert lr0 * DecayFactor(k1) - lr0 * DecayFactor(k2) == lr0 * (DecayFactor(k1) - DecayFactor(k2));
    }
  }

  /** `adjust_learning_rate(optimizer, epoch, args)`: computes the scheduled rate and
      writes it into every parameter group, leaving the groups' other settings alone.
      When the rate cannot be computed nothing is written. */
  method AdjustLearningRate(paramGroups: array<ParamGroup>, epoch: int, lr0: real, epochs: int)
    returns (r: Result<real>)
    modifies paramGroups
    ensures r == ScheduledLr(lr0, epoch, epochs)
    ensures r.Ok? ==> forall j :: 0 <= j < paramGroups.Length ==>
                        paramGroups[j] == old(paramGroups[j]).(lr := r.value)
    ensures r.Err? ==> paramGroups[..] == old(paramGroups[..])
  {
    var period := DecayPeriod(epochs);
    if period == 0 {
      return Err(ZeroDivisionError);
    }
    var lr := lr0 * DecayFactor(FloorDiv(epoch, period));
    assert ScheduledLr(lr0, epoch, epochs).value == lr;
    for j := 0 to paramGroups.Length
      invariant forall k :: 0 <= k < j ==> paramGroups[k] == old(paramGroups[k]).(lr := lr)
      invariant forall k :: j <= k < paramGroups.Length ==> paramGroups[k] == old(paramGroups[k])
    {
      paramGroups[j] := paramGroups[j].(lr := lr);
    }
    return Ok(lr);
  }
}
