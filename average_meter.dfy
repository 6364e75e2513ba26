/** The running weighted mean `AverageMeter` of train.py. */
module Meters {

  /** One `update(val, n)` call: the value and its weight. */
  datatype Observation = Observation(value: real, weight: int)

  /** The sum of `value * weight` over a history of updates. */
  ghost function WeightedSum(h: seq<Observation>): real
  {
    if h == [] then 0.0 else h[0].value * h[0].weight as real + WeightedSum(h[1..])
  }

  /** The sum of the weights over a history of updates. */
  ghost function TotalWeight(h: seq<Observation>): int
  {
    if h == [] then 0 else h[0].weight + TotalWeight(h[1..])
  }

  /** Folding one more observation into a history adds its product and its weight. */
  lemma {:induction false} FoldLast(h: seq<Observation>, o: Observation)
    ensures WeightedSum(h + [o]) == WeightedSum(h) + o.value * o.weight as real
    ensures TotalWeight(h + [o]) == TotalWeight(h) + o.weight
  {
    if h != [] {
      assert (h + [o])[1..] == h[1..] + [o];
      FoldLast(h[1..], o);
    }
  }

  /** When every observation has the same value, the weighted sum is that value
      times the total weight. */
  lemma {:induction false} ConstantStream(h: seq<Observation>, v: real)
    requires forall k :: 0 <= k < |h| ==> h[k].value == v
    ensures WeightedSum(h) == v * TotalWeight(h) as real
  {
    if h != [] {
      ConstantStream(h[1..], v);
    }
  }

  /** Scaling both sides of `a <= b` by a non-negative weight keeps the order. */
  lemma WeightScaleMonotone(a: real, b: real, w: real)
    requires a <= b && 0.0 <= w
    ensures a * w <= b * w
  {
    assert b * w - a * w == (b - a) * w;
  }

  /** With non-negative weights, the weighted sum is at least the smallest value
      times the total weight. */
  lemma {:induction false} SumAbove(h: seq<Observation>, lo: real)
    requires forall k :: 0 <= k < |h| ==> h[k].weight >= 0 && lo <= h[k].value
    ensures lo * TotalWeight(h) as real <= WeightedSum(h)
  {
    if h != [] {
      SumAbove(h[1..], lo);
      var w := h[0].weight as real;
      WeightScaleMonotone(lo, h[0].value, w);
      assert WeightedSum(h) == h[0].value * w + WeightedSum(h[1..]);
      assert TotalWeight(h) as real == w + TotalWeight(h[1..]) as real;
      assert lo * (w + TotalWeight(h[1..]) as real) == lo * w + lo * TotalWeight(h[1..]) as real;
    }
  }

  /** With non-negative weights, the weighted sum is at most the largest value
      times the total weight. */
  lemma {:induction false} SumBelow(h: seq<Observation>, hi: real)
    requires forall k :: 0 <= k < |h| ==> h[k].weight >= 0 && h[k].value <= hi
    ensures WeightedSum(h) <= hi * TotalWeight(h) as real
  {
    if h != [] {
      SumBelow(h[1..], hi);
      var w := h[0].weight as real;
      WeightScaleMonotone(h[0].value, hi, w);
      assert WeightedSum(h) == h[0].value * w + WeightedSum(h[1..]);
      assert TotalWeight(h) as real == w + TotalWeight(h[1..]) as real;
      assert hi * (w + TotalWeight(h[1..]) as real) == hi * w + hi * TotalWeight(h[1..]) as real;
    }
  }

  /** A meter fed only the value `v` (with a non-zero total weight) averages to `v`. */
  lemma ConstantAverage(h: seq<Observation>, v: real)
    requires forall k :: 0 <= k < |h| ==> h[k].value == v
    requires TotalWeight(h) != 0
    ensures WeightedSum(h) / TotalWeight(h) as real == v
  {
    ConstantStream(h, v);
  }

  /** The weighted mean of values in `[lo, hi]` with non-negative weights lies in `[lo, hi]`. */
  lemma AverageBetween(h: seq<Observation>, lo: real, hi: real)
    requires forall k :: 0 <= k < |h| ==> h[k].weight >= 0 && lo <= h[k].value <= hi
    requires TotalWeight(h) != 0
    ensures lo <= WeightedSum(h) / TotalWeight(h) as real <= hi
  {
    SumAbove(h, lo);
    SumBelow(h, hi);
    NonNegativeTotal(h);
    QuotientBetween(WeightedSum(h), TotalWeight(h) as real, lo, hi);
  }

  /** Dividing `lo * w <= s <= hi * w` by a positive `w`. */
  lemma QuotientBetween(s: real, w: real, lo: real, hi: real)
    requires w > 0.0 && lo * w <= s <= hi * w
    ensures lo <= s / w <= hi
  {
    var q := s / w;
    assert q * w == s;
    assert (q - lo) * w == s - lo * w;
    assert (hi - q) * w == hi * w - s;
  }

  /** Non-negative weights have a non-negative total. */
  lemma {:induction false} NonNegativeTotal(h: seq<Observation>)
    requires forall k :: 0 <= k < |h| ==> h[k].weight >= 0
    ensures TotalWeight(h) >= 0
  {
    if h != [] {
      NonNegativeTotal(h[1..]);
    }
  }

  /** Computes and stores the average and current value.

      `sum`, `count` and `avg` follow the observations folded in since the last
      `Reset`, recorded in the ghost `history`. */
  class AverageMeter {
    const name: string
    const fmt: string
    var val: real
    var avg: real
    var sum: real
    var count: int
    ghost var history: seq<Observation>

    /** The meter's invariant: `sum` and `count` are the weighted sum and the total
        weight of the history, and `avg` is their quotient whenever `count` is not zero. */
    ghost predicate Valid()
      reads this
    {
      && sum == WeightedSum(history)
      && count == TotalWeight(history)
      && (count != 0 ==> avg == sum / count as real)
    }

    /** `__init__` keeps the name and display pattern and then calls `reset`. */
    constructor (name: string, fmt: string := ":f")
      ensures Valid()
      ensures this.name == name && this.fmt == fmt
      ensures val == 0.0 && avg == 0.0 && sum == 0.0 && count == 0 && history == []
    {
      this.name := name;
      this.fmt := fmt;
      new;
      Reset();
    }

    /** Zeroes the current value, the average, the sum and the count. */
    method Reset()
      modifies this
      ensures Valid()
      ensures val == 0.0 && avg == 0.0 && sum == 0.0 && count == 0 && history == []
    {
      val := 0.0;
      avg := 0.0;
      sum := 0.0;
      count := 0;
      history := [];
    }

    /** Folds `v` with weight `n` into the running mean. The value, the sum and the
        count are assigned before the division; when the new count is zero the
        division raises (`ok` is false) and `avg` keeps its previous value. */
    method Update(v: real, n: int := 1) returns (ok: bool)
      requires Valid()
      modifies this
      ensures Valid()
      ensures history == old(history) + [Observation(v, n)]
      ensures val == v
      ensures sum == old(sum) + v * n as real
      ensures count == old(count) + n
      ensures ok <==> count != 0
      ensures ok ==> avg == sum / count as real
      ensures !ok ==> avg == old(avg)
    {
      FoldLast(history, Observation(v, n));
      history := history + [Observation(v, n)];
      val := v;
      sum := sum + v * n as real;
      count := count + n;
      if count == 0 {
        return false;
      }
      avg := sum / count as real;
      return true;
    }
  }

  /** A meter built fresh and then updated with `(v1, n1), ..., (vk, nk)` holds the
      weighted sum, the total weight and the weighted mean of those updates; a first
      update of weight 0 raises. Going on after an update with `ok == false` is what a
      caller that catches the `ZeroDivisionError` and keeps updating the meter sees. */
  method FreshMeterAverages(obs: seq<Observation>) returns (oks: seq<bool>, m: AverageMeter)
    ensures m.Valid() && m.history == obs
    ensures m.sum == WeightedSum(obs) && m.count == TotalWeight(obs)
    ensures |oks| == |obs|
    ensures forall k :: 0 <= k < |obs| ==> (oks[k] <==> TotalWeight(obs[..k + 1]) != 0)
    ensures m.count != 0 ==> m.avg == WeightedSum(obs) / TotalWeight(obs) as real
  {
    m := new AverageMeter("meter");
    oks := [];
    var i := 0;
    while i < |obs|
      invariant 0 <= i <= |obs|
      invariant m.Valid() && m.history == obs[..i]
      invariant |oks| == i
      invariant forall k :: 0 <= k < i ==> (oks[k] <==> TotalWeight(obs[..k + 1]) != 0)
    {
      var ok := m.Update(obs[i].value, obs[i].weight);
      assert obs[..i] + [Observation(obs[i].value, obs[i].weight)] == obs[..i + 1];
      oks := oks + [ok];
      i := i + 1;
    }
    assert obs[..i] == obs;
  }
}
