/** pandas' exponentially weighted mean `ewm(span=s).mean()` in its default adjusted form:
    at index t it is the weighted mean  Σ w^j·x[t−j] / Σ w^j  over j = 0..t, with decay
    w = 1 − α and α = 2/(s+1). It is defined from the first element on. */
module Ewm {
  import opened Windows

  /** The decay factor 1 − α, where α = 2/(span + 1). */
  function Decay(span: nat): (w: real)
    requires span >= 1
    ensures 0.0 <= w < 1.0
  {
    (span as real - 1.0) / (span as real + 1.0)
  }

  /** Σ_{j<m} w^j, the normaliser of the adjusted mean, in nested form 1 + w·(1 + w·(…));
      at least 1 once a term is present. */
  function TotalWeight(w: real, m: nat): (d: real)
    requires 0.0 <= w
    ensures 0.0 <= d
    ensures 1 <= m ==> 1.0 <= d
  {
    if m == 0 then 0.0 else 1.0 + w * TotalWeight(w, m - 1)
  }

  /** Σ_{j<m} w^j · xs[t − j], the m most recent values ending at index t with the newest
      weighted 1, in nested form xs[t] + w·(xs[t − 1] + w·(…)). */
  function WeightedSum(xs: seq<real>, w: real, t: int, m: nat): real
    requires m <= t + 1 && t < |xs|
  {
    if m == 0 then 0.0 else xs[t] + w * WeightedSum(xs, w, t - 1, m - 1)
  }

  /** The weighted mean of xs[0..t] at decay w. */
  function AdjustedMean(xs: seq<real>, w: real, t: nat): real
    requires 0.0 <= w && t < |xs|
  {
    WeightedSum(xs, w, t, t + 1) / TotalWeight(w, t + 1)
  }

  /** `ewm(span=span).mean()`, aligned index for index with its input. */
  function Ewm(xs: seq<real>, span: nat): (r: seq<real>)
    requires span >= 1
    ensures |r| == |xs|
  {
    seq(|xs|, t requires 0 <= t < |xs| => AdjustedMean(xs, Decay(span), t))
  }

  // ---------------------------------------------------------------------------------------
  // The adjusted mean as a running update

  /** The first value is the first price: the mean is seeded by the series itself. */
  lemma EwmSeed(xs: seq<real>, span: nat)
    requires span >= 1 && |xs| >= 1
    ensures Ewm(xs, span)[0] == xs[0]
  {
    var w := Decay(span);
    assert WeightedSum(xs, w, 0, 1) == xs[0] + w * 0.0;
    assert TotalWeight(w, 1) == 1.0 + w * 0.0;
  }

  /** Each value moves from the previous one towards the new price by the fraction 1/D_t,
      where D_t = Σ_{j<=t} w^j: the recursive form of the adjusted mean. */
  lemma EwmRecurrence(xs: seq<real>, span: nat, t: nat)
    requires span >= 1 && 1 <= t < |xs|
    ensures Ewm(xs, span)[t]
         == Ewm(xs, span)[t - 1] + (xs[t] - Ewm(xs, span)[t - 1]) / TotalWeight(Decay(span), t + 1)
  {
    var w := Decay(span);
    var n, n' := WeightedSum(xs, w, t, t + 1), WeightedSum(xs, w, t - 1, t);
    var d, d' := TotalWeight(w, t + 1), TotalWeight(w, t);
    EwmAt(xs, span, t);
    EwmAt(xs, span, t - 1);
    RecurrenceAlgebra(xs[t], w, n, n', d, d');
  }

  /** The value at t is the adjusted mean over positions 0..t. */
  lemma EwmAt(xs: seq<real>, span: nat, t: nat)
    requires span >= 1 && t < |xs|
    ensures Ewm(xs, span)[t] == WeightedSum(xs, Decay(span), t, t + 1) / TotalWeight(Decay(span), t + 1)
  {
  }

  lemma RecurrenceAlgebra(x: real, w: real, n: real, n': real, d: real, d': real)
    requires 0.0 < d' && d == 1.0 + w * d' && 0.0 < d && n == x + w * n'
    ensures n / d == n' / d' + (x - n' / d') / d
  {
    var y' := n' / d';
    assert n' == y' * d';
    assert w * n' == (d - 1.0) * y' by {
      assert w * n' == w * (y' * d');
      assert w * (y' * d') == (w * d') * y';
    }
    assert n == (x - y') + d * y';
    assert n / d == (x - y') / d + (d * y') / d;
  }

  // ---------------------------------------------------------------------------------------
  // Range of the adjusted mean

  /** Every exponential mean value lies between any bounds of the prices seen so far. */
  lemma {:induction false} EwmWithin(xs: seq<real>, span: nat, t: nat, lo: real, hi: real)
    requires span >= 1 && t < |xs|
    requires forall j :: 0 <= j <= t ==> lo <= xs[j] <= hi
    ensures lo <= Ewm(xs, span)[t] <= hi
  {
    if t == 0 {
      EwmSeed(xs, span);
    } else {
      EwmWithin(xs, span, t - 1, lo, hi);
      EwmRecurrence(xs, span, t);
      ConvexStep(Ewm(xs, span)[t - 1], xs[t], TotalWeight(Decay(span), t + 1), lo, hi);
    }
  }

  /** Moving from y towards x by the fraction 1/d (d >= 1) stays between bounds of both. */
  lemma ConvexStep(y: real, x: real, d: real, lo: real, hi: real)
    requires 1.0 <= d && lo <= y <= hi && lo <= x <= hi
    ensures lo <= y + (x - y) / d <= hi
  {
    var f := 1.0 / d;
    assert 0.0 < f <= 1.0;
    assert (x - y) / d == f * (x - y);
    assert y + f * (x - y) == (1.0 - f) * y + f * x;
    assert (1.0 - f) * lo <= (1.0 - f) * y <= (1.0 - f) * hi;
    assert f * lo <= f * x <= f * hi;
  }

  /** The exponential mean lies within the range of the prices seen so far. */
  lemma EwmWithinPrefixRange(xs: seq<real>, span: nat, t: nat)
    requires span >= 1 && t < |xs|
    ensures Min(xs[..t + 1]) <= Ewm(xs, span)[t] <= Max(xs[..t + 1])
  {
    var prefix := xs[..t + 1];
    assert forall j :: 0 <= j <= t ==> xs[j] == prefix[j];
    EwmWithin(xs, span, t, Min(prefix), Max(prefix));
  }

  /** A constant series has itself as its exponential mean. */
  lemma EwmOfFlat(xs: seq<real>, span: nat)
    requires span >= 1 && Flat(xs)
    ensures forall t :: 0 <= t < |xs| ==> Ewm(xs, span)[t] == xs[t]
  {
    forall t | 0 <= t < |xs|
      ensures Ewm(xs, span)[t] == xs[t]
    {
      EwmWithin(xs, span, t, xs[0], xs[0]);
    }
  }
}
