/** Trailing-window arithmetic shared by every indicator: sums, means, extrema and the
    sample variance of a window, and pandas' `rolling(window=p)` reductions with their
    default `min_periods = p` (a position is defined only when its whole window is). */
module Windows {
  import opened Options

  /** The `p` values ending at index `i` (inclusive). */
  function Window<T>(xs: seq<T>, i: int, p: int): (w: seq<T>)
    requires 1 <= p && p - 1 <= i < |xs|
    ensures |w| == p && w[p - 1] == xs[i]
    ensures forall j :: 0 <= j < p ==> w[j] == xs[i - p + 1 + j]
  {
    xs[i - p + 1 .. i + 1]
  }

  function Sum(xs: seq<real>): real
  {
    if |xs| == 0 then 0.0 else xs[0] + Sum(xs[1..])
  }

  function Mean(xs: seq<real>): real
    requires |xs| > 0
  {
    Sum(xs) / (|xs| as real)
  }

  /** Largest element: it occurs in the sequence and bounds every element. */
  function Max(xs: seq<real>): (m: real)
    requires |xs| > 0
    ensures exists j :: 0 <= j < |xs| && xs[j] == m
    ensures forall j :: 0 <= j < |xs| ==> xs[j] <= m
  {
    if |xs| == 1 then xs[0]
    else
      var rest := Max(xs[1..]);
      if xs[0] >= rest then xs[0] else rest
  }

  /** Smallest element: it occurs in the sequence and bounds every element. */
  function Min(xs: seq<real>): (m: real)
    requires |xs| > 0
    ensures exists j :: 0 <= j < |xs| && xs[j] == m
    ensures forall j :: 0 <= j < |xs| ==> m <= xs[j]
  {
    if |xs| == 1 then xs[0]
    else
      var rest := Min(xs[1..]);
      if xs[0] <= rest then xs[0] else rest
  }

  /** Sum of squared deviations from `c`. */
  function SquaredDeviations(xs: seq<real>, c: real): (s: real)
    ensures 0.0 <= s
  {
    if |xs| == 0 then 0.0 else Square(xs[0] - c) + SquaredDeviations(xs[1..], c)
  }

  function Square(d: real): (s: real)
    ensures 0.0 <= s
  {
    SquareSign(d);
    d * d
  }

  lemma SquareSign(d: real)
    ensures 0.0 <= d * d
  {
    if d < 0.0 {
      var e := -d;
      assert d * d == e * e;
    }
  }

  lemma Distribute(a: real, n: real)
    ensures a * (n + 1.0) == a * n + a
  {
  }

  /** Sample variance (pandas' default `ddof = 1`); it needs two observations. */
  function SampleVariance(xs: seq<real>): (v: real)
    requires |xs| >= 2
    ensures 0.0 <= v
  {
    SquaredDeviations(xs, Mean(xs)) / ((|xs| - 1) as real)
  }

  predicate Flat(xs: seq<real>)
  {
    forall j :: 0 <= j < |xs| ==> xs[j] == xs[0]
  }

  predicate AllDefined(xs: seq<Option<real>>)
  {
    forall j :: 0 <= j < |xs| ==> xs[j].Some?
  }

  function Values(xs: seq<Option<real>>): (r: seq<real>)
    requires AllDefined(xs)
    ensures |r| == |xs|
    ensures forall j :: 0 <= j < |xs| ==> xs[j] == Some(r[j])
  {
    seq(|xs|, j requires 0 <= j < |xs| => xs[j].value)
  }

  /** `rolling(window=p).mean()`: defined exactly where the whole window is defined. */
  function RollingMean(xs: seq<Option<real>>, p: nat): (r: seq<Option<real>>)
    requires p >= 1
    ensures |r| == |xs|
    ensures forall i :: 0 <= i < |xs| ==>
      (r[i].Some? <==> p - 1 <= i && AllDefined(Window(xs, i, p)))
    ensures forall i :: 0 <= i < |xs| && r[i].Some? ==> r[i].value == Mean(Values(Window(xs, i, p)))
  {
    seq(|xs|, i requires 0 <= i < |xs| =>
      if i < p - 1 then None
      else
        var w := Window(xs, i, p);
        if AllDefined(w) then Some(Mean(Values(w))) else None)
  }

  /** A function that behaves as the square root on the non-negative reals. The platform's
      `sqrt` is a parameter of the model, so statements about standard deviations assume it.
      The last conjunct follows from the first; it is spelled out because the solver's
      arithmetic does not derive it from a square. */
  ghost predicate IsSquareRoot(root: real -> real)
  {
    && (forall v :: 0.0 <= v ==> 0.0 <= root(v) && root(v) * root(v) == v)
    && root(0.0) == 0.0
  }

  /** `rolling(window=p).std()`: sample standard deviation, undefined for a window of one. */
  function RollingStd(xs: seq<Option<real>>, p: nat, root: real -> real): (r: seq<Option<real>>)
    requires p >= 1
    ensures |r| == |xs|
    ensures forall i :: 0 <= i < |xs| ==>
      (r[i].Some? <==> 2 <= p && p - 1 <= i && AllDefined(Window(xs, i, p)))
    ensures forall i :: 0 <= i < |xs| && r[i].Some? ==>
      r[i].value == root(SampleVariance(Values(Window(xs, i, p))))
  {
    seq(|xs|, i requires 0 <= i < |xs| =>
      if p < 2 || i < p - 1 then None
      else
        var w := Window(xs, i, p);
        if AllDefined(w) then Some(root(SampleVariance(Values(w)))) else None)
  }

  /** Between two defined positions the rolling mean moves by the value entering the window
      minus the value leaving it, over p: the online update pandas applies, agreeing with the
      mean taken afresh over each window. */
  lemma RollingMeanSlides(xs: seq<Option<real>>, p: nat, i: int)
    requires 1 <= p <= i < |xs|
    requires RollingMean(xs, p)[i].Some? && RollingMean(xs, p)[i - 1].Some?
    ensures xs[i].Some? && xs[i - p].Some?
    ensures RollingMean(xs, p)[i].value
         == RollingMean(xs, p)[i - 1].value + (xs[i].value - xs[i - p].value) / (p as real)
  {
    var now, before := Window(xs, i, p), Window(xs, i - 1, p);
    assert now[p - 1] == xs[i] && before[0] == xs[i - p];
    var ys := Values(before) + [xs[i].value];
    assert Window(ys, p, p) == Values(now) by {
      assert forall j :: 0 <= j < p ==> Window(ys, p, p)[j] == Values(now)[j];
    }
    assert Window(ys, p - 1, p) == Values(before);
    SlidingSum(ys, p, p);
    MeanStep(Sum(Values(now)), Sum(Values(before)), xs[i].value, xs[i - p].value, p as real);
  }

  lemma MeanStep(a: real, b: real, x: real, y: real, n: real)
    requires 0.0 < n && a == b - y + x
    ensures a / n == b / n + (x - y) / n
  {
  }

  /** With a genuine square root a defined rolling deviation is non-negative, and it is 0
      on a window whose values are all equal. */
  lemma RollingStdFacts(xs: seq<Option<real>>, p: nat, root: real -> real, i: int)
    requires 1 <= p && 0 <= i < |xs| && IsSquareRoot(root)
    requires RollingStd(xs, p, root)[i].Some?
    ensures 0.0 <= RollingStd(xs, p, root)[i].value
    ensures Flat(Values(Window(xs, i, p))) ==> RollingStd(xs, p, root)[i].value == 0.0
  {
    var w := Values(Window(xs, i, p));
    assert 0.0 <= SampleVariance(w);
    if Flat(w) {
      VarianceOfFlat(w);
    }
  }

  // ---------------------------------------------------------------------------------------
  // Facts about window reductions

  lemma {:induction false} SumBounds(xs: seq<real>, lo: real, hi: real)
    requires forall j :: 0 <= j < |xs| ==> lo <= xs[j] <= hi
    ensures lo * (|xs| as real) <= Sum(xs) <= hi * (|xs| as real)
  {
    if |xs| > 0 {
      var tail := xs[1..];
      SumBounds(tail, lo, hi);
      assert Sum(xs) == xs[0] + Sum(tail);
      BoundsStep(lo, hi, xs[0], Sum(tail), |tail|);
    }
  }

  /** One more value between the bounds moves both bounds of the sum by one step. */
  lemma BoundsStep(lo: real, hi: real, x: real, rest: real, k: nat)
    requires lo * (k as real) <= rest <= hi * (k as real) && lo <= x <= hi
    ensures lo * ((k + 1) as real) <= x + rest <= hi * ((k + 1) as real)
  {
    Distribute(lo, k as real);
    Distribute(hi, k as real);
  }

  /** A mean lies between any lower and upper bound of its window. */
  lemma MeanBounds(xs: seq<real>, lo: real, hi: real)
    requires |xs| > 0
    requires forall j :: 0 <= j < |xs| ==> lo <= xs[j] <= hi
    ensures lo <= Mean(xs) <= hi
  {
    SumBounds(xs, lo, hi);
    DivideBounds(lo, hi, Sum(xs), |xs| as real);
  }

  lemma DivideBounds(lo: real, hi: real, s: real, n: real)
    requires 0.0 < n && lo * n <= s <= hi * n
    ensures lo <= s / n <= hi
  {
    assert 0.0 <= (s - lo * n) / n == s / n - lo;
    assert 0.0 <= (hi * n - s) / n == hi - s / n;
  }

  /** A window of non-negative values has a non-negative mean. */
  lemma MeanNonNegative(xs: seq<real>)
    requires |xs| > 0
    requires forall j :: 0 <= j < |xs| ==> 0.0 <= xs[j]
    ensures 0.0 <= Mean(xs)
  {
    MeanBounds(xs, 0.0, Max(xs));
  }

  /** The mean of a flat window is its common value. */
  lemma MeanOfFlat(xs: seq<real>)
    requires |xs| > 0 && Flat(xs)
    ensures Mean(xs) == xs[0]
  {
    MeanBounds(xs, xs[0], xs[0]);
  }

  lemma {:induction false} SquaredDeviationsOfConstant(xs: seq<real>, c: real)
    requires forall j :: 0 <= j < |xs| ==> xs[j] == c
    ensures SquaredDeviations(xs, c) == 0.0
  {
    if |xs| > 0 {
      SquaredDeviationsOfConstant(xs[1..], c);
      assert xs[0] - c == 0.0;
    }
  }

  /** A flat window has zero sample variance. */
  lemma VarianceOfFlat(xs: seq<real>)
    requires |xs| >= 2 && Flat(xs)
    ensures SampleVariance(xs) == 0.0
  {
    MeanOfFlat(xs);
    SquaredDeviationsOfConstant(xs, xs[0]);
  }

  /** Sliding the window one step changes its sum by the value entering minus the value
      leaving: the update rule of pandas' online rolling mean agrees with the direct mean. */
  lemma SlidingSum(xs: seq<real>, i: int, p: int)
    requires 1 <= p && p <= i < |xs|
    ensures Sum(Window(xs, i, p)) == Sum(Window(xs, i - 1, p)) - xs[i - p] + xs[i]
  {
    var a := Window(xs, i - 1, p);
    var b := Window(xs, i, p);
    SumAppend(a[1..], xs[i]);
    assert b == a[1..] + [xs[i]];
    assert a == [xs[i - p]] + a[1..];
  }

  lemma {:induction false} SumAppend(xs: seq<real>, x: real)
    ensures Sum(xs + [x]) == Sum(xs) + x
  {
    if |xs| > 0 {
      assert (xs + [x])[1..] == xs[1..] + [x];
      SumAppend(xs[1..], x);
    } else {
      assert [x][1..] == [];
    }
  }
}
