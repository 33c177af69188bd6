/**
 * The statistics accumulator: sums, extremes and means of the values observed for one
 * jam metric, the batch path's running state (sum, max or min, avg = sum / count) and
 * the live path's average recurrence avg' = (avg * uc + v) / (uc + 1).
 */
module Stats {

  function Max(a: int, b: int): int { if a >= b then a else b }

  function Min(a: int, b: int): int { if a <= b then a else b }

  function Sum(vs: seq<int>): int {
    if vs == [] then 0 else Sum(vs[..|vs| - 1]) + vs[|vs| - 1]
  }

  function MaxOf(vs: seq<int>): int
    requires |vs| > 0
  {
    if |vs| == 1 then vs[0] else Max(MaxOf(vs[..|vs| - 1]), vs[|vs| - 1])
  }

  function MinOf(vs: seq<int>): int
    requires |vs| > 0
  {
    if |vs| == 1 then vs[0] else Min(MinOf(vs[..|vs| - 1]), vs[|vs| - 1])
  }

  /** The arithmetic mean, every observation weighted equally. */
  function Mean(vs: seq<int>): real
    requires |vs| > 0
  {
    Sum(vs) as real / |vs| as real
  }

  /** MaxOf is the largest of the values and is one of them. */
  lemma {:induction false} MaxOfIsMaximum(vs: seq<int>)
    requires |vs| > 0
    ensures forall i :: 0 <= i < |vs| ==> vs[i] <= MaxOf(vs)
    ensures exists i :: 0 <= i < |vs| && vs[i] == MaxOf(vs)
  {
    if |vs| > 1 {
      var init := vs[..|vs| - 1];
      MaxOfIsMaximum(init);
      assert forall i :: 0 <= i < |init| ==> vs[i] == init[i];
      var j :| 0 <= j < |init| && init[j] == MaxOf(init);
      if MaxOf(init) >= vs[|vs| - 1] {
        assert vs[j] == MaxOf(vs);
      } else {
        assert vs[|vs| - 1] == MaxOf(vs);
      }
    } else {
      assert vs[0] == MaxOf(vs);
    }
  }

  /** MinOf is the smallest of the values and is one of them. */
  lemma {:induction false} MinOfIsMinimum(vs: seq<int>)
    requires |vs| > 0
    ensures forall i :: 0 <= i < |vs| ==> MinOf(vs) <= vs[i]
    ensures exists i :: 0 <= i < |vs| && vs[i] == MinOf(vs)
  {
    if |vs| > 1 {
      var init := vs[..|vs| - 1];
      MinOfIsMinimum(init);
      assert forall i :: 0 <= i < |init| ==> vs[i] == init[i];
      var j :| 0 <= j < |init| && init[j] == MinOf(init);
      if MinOf(init) <= vs[|vs| - 1] {
        assert vs[j] == MinOf(vs);
      } else {
        assert vs[|vs| - 1] == MinOf(vs);
      }
    } else {
      assert vs[0] == MinOf(vs);
    }
  }

  lemma {:induction false} SumConcat(a: seq<int>, b: seq<int>)
    ensures Sum(a + b) == Sum(a) + Sum(b)
  {
    if b != [] {
      var b' := b[..|b| - 1];
      assert (a + b)[..|a + b| - 1] == a + b';
      SumConcat(a, b');
    } else {
      assert a + b == a;
    }
  }

  /** The sum, and hence the mean, does not depend on the order of the observations. */
  lemma {:induction false} SumPermutation(a: seq<int>, b: seq<int>)
    requires multiset(a) == multiset(b)
    ensures Sum(a) == Sum(b)
  {
    if a == [] {
      assert |b| == |multiset(b)| == 0;
    } else {
      var x := a[|a| - 1];
      var a' := a[..|a| - 1];
      assert a == a' + [x];
      assert x in multiset(b);
      var j :| 0 <= j < |b| && b[j] == x;
      var b' := b[..j] + b[j + 1..];
      assert b == b[..j] + [x] + b[j + 1..];
      assert multiset(b) == multiset(b[..j]) + multiset([x]) + multiset(b[j + 1..]);
      assert multiset(a') == multiset(a) - multiset{x};
      assert multiset(b') == multiset(b) - multiset{x};
      SumPermutation(a', b');
      SumConcat(b[..j], [x]);
      SumConcat(b[..j] + [x], b[j + 1..]);
      SumConcat(b[..j], b[j + 1..]);
    }
  }

  lemma MeanPermutation(a: seq<int>, b: seq<int>)
    requires |a| > 0 && multiset(a) == multiset(b)
    ensures |b| > 0 && Mean(a) == Mean(b)
  {
    assert |a| == |multiset(a)| == |multiset(b)| == |b|;
    SumPermutation(a, b);
  }

  /** Which extreme a metric keeps: the maximum (level, length, speed, delay) or the minimum (speedKMH). */
  datatype Kind = KeepMax | KeepMin

  /**
   * An average kept exactly as the quotient `num / den`; the source stores the value of
   * that division as a float.
   */
  datatype Quotient = Quotient(num: int, den: nat)

  function QuotientValue(q: Quotient): real
    requires q.den > 0
  {
    q.num as real / q.den as real
  }

  /** The running state of one jam metric in the batch path: `X_max` or `X_min`, `X_sum`, `X_avg`. */
  datatype Metric = Metric(extreme: int, sum: int, avg: Quotient)

  function Extreme(kind: Kind, vs: seq<int>): int
    requires |vs| > 0
  {
    if kind == KeepMax then MaxOf(vs) else MinOf(vs)
  }

  /** What a metric's state must be once exactly the values `vs` have been observed. */
  function Summary(kind: Kind, vs: seq<int>): Metric
    requires |vs| > 0
  {
    Metric(Extreme(kind, vs), Sum(vs), Quotient(Sum(vs), |vs|))
  }

  /** The average a summary holds is the mean of the values. */
  lemma SummaryAverageIsMean(kind: Kind, vs: seq<int>)
    requires |vs| > 0
    ensures Summary(kind, vs).avg.den > 0
    ensures QuotientValue(Summary(kind, vs).avg) == Mean(vs)
  {
  }

  /** The state of a metric seeded by a jam's first observation. */
  function Seed(v: int): Metric {
    Metric(v, v, Quotient(v, 1))
  }

  /** One `update(field, kind)` of `update_jam_metrics`, where `uc` is the already incremented update count. */
  function Step(m: Metric, kind: Kind, v: int, uc: nat): Metric
    requires uc > 0
  {
    var sum := m.sum + v;
    Metric(if kind == KeepMax then Max(m.extreme, v) else Min(m.extreme, v), sum, Quotient(sum, uc))
  }

  lemma SeedSummarises(kind: Kind, v: int)
    ensures Seed(v) == Summary(kind, [v])
  {
    assert [v][..0] == [];
    assert Sum([v]) == v;
    assert Extreme(kind, [v]) == v;
  }

  /** The accumulator invariant is kept: stepping the summary of `vs` by `v` gives the summary of `vs + [v]`. */
  lemma StepSummarises(kind: Kind, vs: seq<int>, v: int)
    requires |vs| > 0
    ensures Step(Summary(kind, vs), kind, v, |vs| + 1) == Summary(kind, vs + [v])
  {
    assert (vs + [v])[..|vs|] == vs;
  }

  /** The live path's weighted-average recurrence. */
  function RecomputeAvg(avg: real, uc: nat, v: int): real {
    (avg * uc as real + v as real) / (uc + 1) as real
  }

  /** If `avg` is the mean of `vs`, the recurrence yields the mean of `vs + [v]`. */
  lemma RecomputeAvgExtendsMean(vs: seq<int>, v: int)
    requires |vs| > 0
    ensures RecomputeAvg(Mean(vs), |vs|, v) == Mean(vs + [v])
  {
    var n := |vs| as real;
    var s := Sum(vs) as real;
    assert (vs + [v])[..|vs|] == vs;
    assert Sum(vs + [v]) == Sum(vs) + v;
    assert Mean(vs) * n == s;
  }

  /** The average the live path stores after observing `vs` one by one, seeded with the first value. */
  function LiveAvg(vs: seq<int>): real
    requires |vs| > 0
  {
    if |vs| == 1 then vs[0] as real else RecomputeAvg(LiveAvg(vs[..|vs| - 1]), |vs| - 1, vs[|vs| - 1])
  }

  /** The live recurrence and the batch path's sum / count agree on every history. */
  lemma {:induction false} LiveAvgIsMean(vs: seq<int>)
    requires |vs| > 0
    ensures LiveAvg(vs) == Mean(vs)
  {
    if |vs| == 1 {
      assert vs[..0] == [];
      assert Sum(vs) == vs[0];
    } else {
      var init := vs[..|vs| - 1];
      LiveAvgIsMean(init);
      RecomputeAvgExtendsMean(init, vs[|vs| - 1]);
      assert init + [vs[|vs| - 1]] == vs;
    }
  }
}
