/** The indicator engine: pure window functions that turn a chronological price series into
    derived series aligned index for index with it. `None` marks an undefined position. */
module Indicators {
  import opened Options
  import opened Windows
  import Ewm

  // ---------------------------------------------------------------------------------------
  // RSI

  /** Rise into index j. The first change is NaN, and `where(delta > 0, 0)` turns it into 0. */
  function Gain(prices: seq<real>, j: nat): (g: real)
    requires j < |prices|
    ensures 0.0 <= g
  {
    if j == 0 then 0.0
    else
      var delta := prices[j] - prices[j - 1];
      if delta > 0.0 then delta else 0.0
  }

  /** Magnitude of the fall into index j, likewise 0 at the first position. */
  function Loss(prices: seq<real>, j: nat): (l: real)
    requires j < |prices|
    ensures 0.0 <= l
  {
    if j == 0 then 0.0
    else
      var delta := prices[j] - prices[j - 1];
      if delta < 0.0 then -delta else 0.0
  }

  function Gains(prices: seq<real>): (r: seq<real>)
    ensures |r| == |prices|
    ensures forall j :: 0 <= j < |prices| ==> r[j] == Gain(prices, j)
  {
    seq(|prices|, j requires 0 <= j < |prices| => Gain(prices, j))
  }

  function Losses(prices: seq<real>): (r: seq<real>)
    ensures |r| == |prices|
    ensures forall j :: 0 <= j < |prices| ==> r[j] == Loss(prices, j)
  {
    seq(|prices|, j requires 0 <= j < |prices| => Loss(prices, j))
  }

  function AverageGain(prices: seq<real>, i: int, period: nat): (g: real)
    requires 1 <= period && period - 1 <= i < |prices|
    ensures 0.0 <= g
  {
    MeanNonNegative(Window(Gains(prices), i, period));
    Mean(Window(Gains(prices), i, period))
  }

  function AverageLoss(prices: seq<real>, i: int, period: nat): (l: real)
    requires 1 <= period && period - 1 <= i < |prices|
    ensures 0.0 <= l
  {
    MeanNonNegative(Window(Losses(prices), i, period));
    Mean(Window(Losses(prices), i, period))
  }

  /** 100 − 100/(1 + RS) with RS = gain/loss, where a zero loss average is first replaced
      by +∞, so that RS is 0 rather than a division by zero. */
  function RsiFromAverages(gain: real, loss: real): real
    requires 0.0 <= gain && 0.0 <= loss
  {
    var rs := if loss == 0.0 then 0.0 else gain / loss;
    100.0 - 100.0 / (1.0 + rs)
  }

  /** `calculate_rsi`: a series shorter than the period is undefined throughout; otherwise the
      first period − 1 positions are undefined (the leading change counts as a zero). */
  function Rsi(prices: seq<real>, period: nat): (r: seq<Option<real>>)
    requires period >= 1
    ensures |r| == |prices|
    ensures forall i :: 0 <= i < |prices| ==> (r[i].Some? <==> period - 1 <= i)
  {
    if |prices| < period then seq(|prices|, i => None)
    else
      seq(|prices|, i requires 0 <= i < |prices| =>
        if i < period - 1 then None
        else Some(RsiFromAverages(AverageGain(prices, i, period), AverageLoss(prices, i, period))))
  }

  lemma RsiValue(prices: seq<real>, period: nat, i: int)
    requires 1 <= period && period - 1 <= i < |prices|
    ensures Rsi(prices, period)[i]
         == Some(RsiFromAverages(AverageGain(prices, i, period), AverageLoss(prices, i, period)))
  {
  }

  lemma RsiFromAveragesRange(gain: real, loss: real)
    requires 0.0 <= gain && 0.0 <= loss
    ensures 0.0 <= RsiFromAverages(gain, loss) < 100.0
    ensures loss == 0.0 ==> RsiFromAverages(gain, loss) == 0.0
    ensures 0.0 < loss ==> RsiFromAverages(gain, loss) == 100.0 * gain / (gain + loss)
  {
    if loss != 0.0 {
      var rs := gain / loss;
      assert 0.0 <= rs;
      var q := 100.0 / (1.0 + rs);
      assert 0.0 < q <= 100.0;
      RsiAlgebra(gain, loss);
    }
  }

  lemma RsiAlgebra(g: real, l: real)
    requires 0.0 <= g && 0.0 < l
    ensures 100.0 - 100.0 / (1.0 + g / l) == 100.0 * g / (g + l)
  {
    var s := g + l;
    var rs := g / l;
    assert rs * l == g;
    var u := 1.0 + rs;
    assert u * l == s;
    var q := 100.0 / u;
    assert q * u == 100.0;
    assert q * s == 100.0 * l by {
      assert q * s == q * (u * l);
      assert q * (u * l) == (q * u) * l;
    }
    var r := 100.0 - q;
    assert r * s == 100.0 * g by {
      assert r * s == 100.0 * s - q * s;
    }
    DivideOut(r, s, 100.0 * g);
  }

  lemma DivideOut(r: real, s: real, p: real)
    requires 0.0 < s && r * s == p
    ensures r == p / s
  {
  }

  /** Wherever it is defined, the RSI lies in [0, 100); it is 0 when the trailing loss
      average is 0, and 100·gain/(gain + loss) otherwise. */
  lemma RsiBounds(prices: seq<real>, period: nat, i: int)
    requires 1 <= period && 0 <= i < |prices|
    ensures Rsi(prices, period)[i].Some? ==>
      var v := Rsi(prices, period)[i].value;
      var g := AverageGain(prices, i, period);
      var l := AverageLoss(prices, i, period);
      && 0.0 <= v < 100.0
      && (l == 0.0 ==> v == 0.0)
      && (0.0 < l ==> v == 100.0 * g / (g + l))
  {
    if period - 1 <= i {
      RsiFromAveragesRange(AverageGain(prices, i, period), AverageLoss(prices, i, period));
    }
  }

  /** The rule as written reads a window in which the price never falls as RSI 0, the
      bottom of the scale, although such a market is rising. */
  lemma RsiOfNonFallingWindow(prices: seq<real>, period: nat, i: int)
    requires 1 <= period && period - 1 <= i < |prices|
    requires forall j :: i - period + 1 <= j <= i && 1 <= j ==> prices[j - 1] <= prices[j]
    ensures Rsi(prices, period)[i] == Some(0.0)
  {
    var w := Window(Losses(prices), i, period);
    forall j | 0 <= j < |w|
      ensures w[j] == 0.0
    {
      assert w[j] == Loss(prices, i - period + 1 + j);
    }
    MeanBounds(w, 0.0, 0.0);
    RsiFromAveragesRange(AverageGain(prices, i, period), AverageLoss(prices, i, period));
  }

  /** A seven-price series at period 3: the first two positions are undefined and the
      third already carries a value, computed from the changes 0, +2 and −1. */
  lemma RsiWorkedExample()
    ensures Rsi([100.0, 102.0, 101.0, 105.0, 107.0, 106.0, 110.0], 3)
         == [None, None, Some(200.0 / 3.0), Some(600.0 / 7.0), Some(600.0 / 7.0),
             Some(600.0 / 7.0), Some(600.0 / 7.0)]
  {
    var p := [100.0, 102.0, 101.0, 105.0, 107.0, 106.0, 110.0];
    var low, high := 200.0 / 3.0, 600.0 / 7.0;
    assert RsiFromAverages(2.0 / 3.0, 1.0 / 3.0) == low by { RsiAlgebra(2.0 / 3.0, 1.0 / 3.0); }
    assert RsiFromAverages(2.0, 1.0 / 3.0) == high by { RsiAlgebra(2.0, 1.0 / 3.0); }
    WorkedExampleAt(p, 2, 0.0, 2.0, 0.0, 0.0, 0.0, 1.0, low);
    WorkedExampleAt(p, 3, 2.0, 0.0, 4.0, 0.0, 1.0, 0.0, high);
    WorkedExampleAt(p, 4, 0.0, 4.0, 2.0, 1.0, 0.0, 0.0, high);
    WorkedExampleAt(p, 5, 4.0, 2.0, 0.0, 0.0, 0.0, 1.0, high);
    WorkedExampleAt(p, 6, 2.0, 0.0, 4.0, 0.0, 1.0, 0.0, high);
  }

  /** One position of the worked example: the period-3 averages are the means of the three
      trailing gains and losses given, and the RSI is computed from them. */
  lemma WorkedExampleAt(p: seq<real>, i: int, g0: real, g1: real, g2: real, l0: real, l1: real, l2: real, v: real)
    requires 2 <= i < |p|
    requires Gain(p, i - 2) == g0 && Gain(p, i - 1) == g1 && Gain(p, i) == g2
    requires Loss(p, i - 2) == l0 && Loss(p, i - 1) == l1 && Loss(p, i) == l2
    requires 0.0 <= g0 + g1 + g2 && 0.0 <= l0 + l1 + l2
    requires RsiFromAverages((g0 + g1 + g2) / 3.0, (l0 + l1 + l2) / 3.0) == v
    ensures Rsi(p, 3)[i] == Some(v)
  {
    var gw := Window(Gains(p), i, 3);
    var lw := Window(Losses(p), i, 3);
    assert gw[0] == g0 && gw[1] == g1 && gw[2] == g2;
    assert lw[0] == l0 && lw[1] == l1 && lw[2] == l2;
    SumOfThree(gw);
    SumOfThree(lw);
    RsiValue(p, 3, i);
  }

  lemma SumOfThree(xs: seq<real>)
    requires |xs| == 3
    ensures Sum(xs) == xs[0] + xs[1] + xs[2]
  {
    var t1 := xs[1..];
    var t2 := t1[1..];
    assert Sum(t2[1..]) == 0.0;
    assert Sum(t2) == xs[2];
    assert Sum(t1) == xs[1] + xs[2];
  }

  // ---------------------------------------------------------------------------------------
  // MACD

  datatype MacdLines = MacdLines(macd: seq<Option<real>>, signal: seq<Option<real>>, histogram: seq<Option<real>>)

  /** `calculate_macd`: the difference of a fast and a slow exponential mean, its own
      exponential mean as signal line, and their difference as histogram. */
  function Macd(prices: seq<real>, fast: nat, slow: nat, signalSpan: nat): (r: MacdLines)
    requires fast >= 1 && slow >= 1 && signalSpan >= 1
    ensures |r.macd| == |prices| && |r.signal| == |prices| && |r.histogram| == |prices|
    ensures forall i :: 0 <= i < |prices| ==>
      && r.macd[i].Some? && r.signal[i].Some? && r.histogram[i].Some?
      && r.histogram[i].value == r.macd[i].value - r.signal[i].value
    ensures forall i :: 0 <= i < |prices| ==>
      r.macd[i].value == Ewm.Ewm(prices, fast)[i] - Ewm.Ewm(prices, slow)[i]
  {
    var line := MacdLine(prices, fast, slow);
    var signal := Ewm.Ewm(line, signalSpan);
    MacdLines(Defined(line), Defined(signal),
              Defined(seq(|prices|, i requires 0 <= i < |prices| => line[i] - signal[i])))
  }

  function MacdLine(prices: seq<real>, fast: nat, slow: nat): (r: seq<real>)
    requires fast >= 1 && slow >= 1
    ensures |r| == |prices|
  {
    var f := Ewm.Ewm(prices, fast);
    var s := Ewm.Ewm(prices, slow);
    seq(|prices|, i requires 0 <= i < |prices| => f[i] - s[i])
  }

  /** Every exponential mean starts at the first price, so all three MACD lines start at
      zero whatever the prices. */
  lemma MacdStartsAtZero(prices: seq<real>, fast: nat, slow: nat, signalSpan: nat)
    requires fast >= 1 && slow >= 1 && signalSpan >= 1 && |prices| >= 1
    ensures var r := Macd(prices, fast, slow, signalSpan);
      r.macd[0] == Some(0.0) && r.signal[0] == Some(0.0) && r.histogram[0] == Some(0.0)
  {
    Ewm.EwmSeed(prices, fast);
    Ewm.EwmSeed(prices, slow);
    Ewm.EwmSeed(MacdLine(prices, fast, slow), signalSpan);
  }

  /** A constant price series has all three MACD lines at zero. */
  lemma MacdOfFlat(prices: seq<real>, fast: nat, slow: nat, signalSpan: nat)
    requires fast >= 1 && slow >= 1 && signalSpan >= 1 && Flat(prices)
    ensures var r := Macd(prices, fast, slow, signalSpan);
      forall i :: 0 <= i < |prices| ==>
        r.macd[i] == Some(0.0) && r.signal[i] == Some(0.0) && r.histogram[i] == Some(0.0)
  {
    Ewm.EwmOfFlat(prices, fast);
    Ewm.EwmOfFlat(prices, slow);
    var line := MacdLine(prices, fast, slow);
    assert forall i :: 0 <= i < |line| ==> line[i] == 0.0;
    Ewm.EwmOfFlat(line, signalSpan);
  }

  /** The signal line never leaves the range the MACD line has covered so far. */
  lemma SignalWithinMacdRange(prices: seq<real>, fast: nat, slow: nat, signalSpan: nat, t: nat)
    requires fast >= 1 && slow >= 1 && signalSpan >= 1 && t < |prices|
    ensures var line := MacdLine(prices, fast, slow);
      var r := Macd(prices, fast, slow, signalSpan);
      Min(line[..t + 1]) <= r.signal[t].value <= Max(line[..t + 1])
  {
    Ewm.EwmWithinPrefixRange(MacdLine(prices, fast, slow), signalSpan, t);
  }

  // ---------------------------------------------------------------------------------------
  // Moving averages

  /** `rolling(window=period).mean()` of the prices: the mean of the trailing `period`
      prices, undefined at the first period − 1 positions. */
  function MovingAverage(prices: seq<real>, period: nat): (r: seq<Option<real>>)
    requires period >= 1
    ensures |r| == |prices|
    ensures forall i :: 0 <= i < |prices| ==> (r[i].Some? <==> period - 1 <= i)
    ensures forall i :: period - 1 <= i < |prices| ==> r[i].value == Mean(Window(prices, i, period))
  {
    var xs := Defined(prices);
    var r := RollingMean(xs, period);
    assert forall i :: period - 1 <= i < |prices| ==> Values(Window(xs, i, period)) == Window(prices, i, period);
    r
  }

  /** `calculate_moving_averages`: one average per requested period. */
  function MovingAverages(prices: seq<real>, periods: seq<nat>): (r: map<nat, seq<Option<real>>>)
    requires forall p :: p in periods ==> p >= 1
    ensures r.Keys == set p | p in periods
    ensures forall p :: p in r ==> r[p] == MovingAverage(prices, p)
    ensures forall p :: p in r ==> |r[p]| == |prices|
    ensures forall p, i :: p in r && 0 <= i < |prices| ==> (r[p][i].Some? <==> p - 1 <= i)
    ensures forall p, i :: p in r && 0 <= i < |prices| && r[p][i].Some? ==>
      r[p][i].value == Mean(Window(prices, i, p))
  {
    map p | p in periods :: MovingAverage(prices, p)
  }

  /** A moving average lies within the range of its window. */
  lemma MovingAverageWithinWindow(prices: seq<real>, period: nat, i: int)
    requires 1 <= period && period - 1 <= i < |prices|
    ensures var w := Window(prices, i, period);
      Min(w) <= MovingAverage(prices, period)[i].value <= Max(w)
  {
    var w := Window(prices, i, period);
    MeanBounds(w, Min(w), Max(w));
  }

  // ---------------------------------------------------------------------------------------
  // Bollinger bands

  datatype Bands = Bands(upper: seq<Option<real>>, middle: seq<Option<real>>, lower: seq<Option<real>>)

  /** `ma + std * k`, undefined when either operand is. */
  function Raise(middle: Option<real>, std: Option<real>, k: real): Option<real>
  {
    if middle.Some? && std.Some? then Some(middle.value + std.value * k) else None
  }

  /** `ma - std * k`, undefined when either operand is. */
  function Lower(middle: Option<real>, std: Option<real>, k: real): Option<real>
  {
    if middle.Some? && std.Some? then Some(middle.value - std.value * k) else None
  }

  /** `calculate_bollinger_bands`: the moving average plus and minus `width` sample standard
      deviations of the same window. */
  function Bollinger(prices: seq<real>, period: nat, width: real, root: real -> real): (r: Bands)
    requires period >= 1
    ensures |r.upper| == |prices| && |r.middle| == |prices| && |r.lower| == |prices|
    ensures r.middle == RollingMean(Defined(prices), period)
    ensures forall i :: 0 <= i < |prices| ==>
      var std := RollingStd(Defined(prices), period, root);
      r.upper[i] == Raise(r.middle[i], std[i], width) && r.lower[i] == Lower(r.middle[i], std[i], width)
  {
    var middle := RollingMean(Defined(prices), period);
    var std := RollingStd(Defined(prices), period, root);
    var upper := seq(|prices|, i requires 0 <= i < |prices| => Raise(middle[i], std[i], width));
    var lower := seq(|prices|, i requires 0 <= i < |prices| => Lower(middle[i], std[i], width));
    Bands(upper, middle, lower)
  }

  /** The sample standard deviation of the window ending at i, as the model's square root
      gives it. */
  function WindowStd(prices: seq<real>, i: int, period: nat, root: real -> real): real
    requires 2 <= period && period - 1 <= i < |prices|
  {
    root(SampleVariance(Window(prices, i, period)))
  }

  /** Over a series of plain prices every window is defined, so the rolling deviation is the
      deviation of the trailing prices. */
  lemma RollingStdOfPrices(prices: seq<real>, period: nat, root: real -> real, i: int)
    requires 1 <= period && 0 <= i < |prices|
    ensures var std := RollingStd(Defined(prices), period, root);
      && (std[i].Some? <==> 2 <= period && period - 1 <= i)
      && (std[i].Some? ==> std[i].value == WindowStd(prices, i, period, root))
  {
    if period - 1 <= i {
      var w := Window(Defined(prices), i, period);
      assert AllDefined(w);
      assert Values(w) == Window(prices, i, period);
    }
  }

  /** The middle band is the moving average of the same period, and the outer bands are
      defined exactly where it is, provided the window holds two prices. */
  lemma BollingerShape(prices: seq<real>, period: nat, width: real, root: real -> real)
    requires period >= 1
    ensures var r := Bollinger(prices, period, width, root);
      && r.middle == MovingAverage(prices, period)
      && forall i :: 0 <= i < |prices| ==>
           && (r.upper[i].Some? <==> 2 <= period && period - 1 <= i)
           && (r.lower[i].Some? <==> 2 <= period && period - 1 <= i)
  {
    var r := Bollinger(prices, period, width, root);
    forall i | 0 <= i < |prices|
      ensures r.upper[i].Some? <==> 2 <= period && period - 1 <= i
      ensures r.lower[i].Some? <==> 2 <= period && period - 1 <= i
    {
      RollingStdOfPrices(prices, period, root, i);
    }
  }

  /** Both outer bands sit `width` standard deviations from the middle band, the deviation is
      non-negative, and so lower <= middle <= upper. */
  lemma BollingerSymmetric(prices: seq<real>, period: nat, width: real, root: real -> real, i: int)
    requires 2 <= period && period - 1 <= i < |prices| && 0.0 <= width && IsSquareRoot(root)
    ensures var r := Bollinger(prices, period, width, root);
      var s := WindowStd(prices, i, period, root);
      && r.upper[i].Some? && r.middle[i].Some? && r.lower[i].Some?
      && 0.0 <= s
      && r.upper[i].value - r.middle[i].value == width * s
      && r.middle[i].value - r.lower[i].value == width * s
      && r.lower[i].value <= r.middle[i].value <= r.upper[i].value
  {
    RollingStdOfPrices(prices, period, root, i);
    var s := WindowStd(prices, i, period, root);
    assert 0.0 <= SampleVariance(Window(prices, i, period));
    assert 0.0 <= s;
    ScaleNonNegative(width, s);
  }

  lemma ScaleNonNegative(k: real, s: real)
    requires 0.0 <= k && 0.0 <= s
    ensures 0.0 <= k * s && s * k == k * s
  {
  }

  /** A flat window collapses the three bands onto the price. */
  lemma BollingerOfFlatWindow(prices: seq<real>, period: nat, width: real, root: real -> real, i: int)
    requires 2 <= period && period - 1 <= i < |prices| && IsSquareRoot(root)
    requires Flat(Window(prices, i, period))
    ensures var r := Bollinger(prices, period, width, root);
      r.upper[i] == Some(prices[i]) && r.middle[i] == Some(prices[i]) && r.lower[i] == Some(prices[i])
  {
    var pw := Window(prices, i, period);
    RollingStdOfPrices(prices, period, root, i);
    VarianceOfFlat(pw);
    MeanOfFlat(pw);
    var r := Bollinger(prices, period, width, root);
    assert r.middle == MovingAverage(prices, period);
    assert r.middle[i] == Some(prices[i]);
    ZeroScaled(width);
  }

  lemma ZeroScaled(k: real)
    ensures 0.0 * k == 0.0
  {
  }

  // ---------------------------------------------------------------------------------------
  // Stochastic oscillator

  /** %K at index i: where the price sits in its window's [min, max], as a percentage.
      A flat window gives 0/0, a NaN. */
  function PercentK(prices: seq<real>, kPeriod: nat): (r: seq<Option<real>>)
    requires kPeriod >= 1
    ensures |r| == |prices|
    ensures forall i :: 0 <= i < |prices| ==>
      (r[i].Some? <==> kPeriod - 1 <= i && Max(Window(prices, i, kPeriod)) != Min(Window(prices, i, kPeriod)))
  {
    seq(|prices|, i requires 0 <= i < |prices| =>
      if i < kPeriod - 1 then None
      else
        var w := Window(prices, i, kPeriod);
        var high := Max(w);
        var low := Min(w);
        if high - low == 0.0 then None
        else Some(100.0 * ((prices[i] - low) / (high - low))))
  }

  datatype StochasticLines = StochasticLines(k: seq<Option<real>>, d: seq<Option<real>>)

  /** `calculate_stochastic`: %K and its `dPeriod` moving average %D. */
  function Stochastic(prices: seq<real>, kPeriod: nat, dPeriod: nat): (r: StochasticLines)
    requires kPeriod >= 1 && dPeriod >= 1
    ensures |r.k| == |prices| && |r.d| == |prices|
  {
    var k := PercentK(prices, kPeriod);
    StochasticLines(k, RollingMean(k, dPeriod))
  }

  lemma PercentKValue(prices: seq<real>, kPeriod: nat, i: int)
    requires 1 <= kPeriod && kPeriod - 1 <= i < |prices|
    requires PercentK(prices, kPeriod)[i].Some?
    ensures var w := Window(prices, i, kPeriod);
      PercentK(prices, kPeriod)[i].value == 100.0 * ((prices[i] - Min(w)) / (Max(w) - Min(w)))
  {
  }

  lemma PercentKBounds(prices: seq<real>, kPeriod: nat, i: int)
    requires 1 <= kPeriod && 0 <= i < |prices|
    ensures PercentK(prices, kPeriod)[i].Some? ==> 0.0 <= PercentK(prices, kPeriod)[i].value <= 100.0
  {
    if PercentK(prices, kPeriod)[i].Some? {
      PercentKRange(prices, kPeriod, i);
    }
  }

  /** %K lies in [0, 100] wherever it is defined, reaching 100 exactly at the window's high
      and 0 exactly at its low. */
  lemma PercentKRange(prices: seq<real>, kPeriod: nat, i: int)
    requires 1 <= kPeriod && 0 <= i < |prices|
    requires PercentK(prices, kPeriod)[i].Some?
    ensures var v := PercentK(prices, kPeriod)[i].value;
      var w := Window(prices, i, kPeriod);
      && 0.0 <= v <= 100.0
      && (v == 100.0 <==> prices[i] == Max(w))
      && (v == 0.0 <==> prices[i] == Min(w))
  {
    var w := Window(prices, i, kPeriod);
    var high := Max(w);
    var low := Min(w);
    assert w[kPeriod - 1] == prices[i];
    PercentKValue(prices, kPeriod, i);
    PositionInRange(prices[i], low, high);
  }

  lemma PositionInRange(x: real, low: real, high: real)
    requires low <= x <= high && low < high
    ensures 0.0 <= 100.0 * ((x - low) / (high - low)) <= 100.0
    ensures 100.0 * ((x - low) / (high - low)) == 100.0 <==> x == high
    ensures 100.0 * ((x - low) / (high - low)) == 0.0 <==> x == low
  {
    FractionFacts(x - low, high - low);
  }

  lemma FractionFacts(a: real, b: real)
    requires 0.0 <= a <= b && 0.0 < b
    ensures 0.0 <= a / b <= 1.0
    ensures a / b == 1.0 <==> a == b
    ensures a / b == 0.0 <==> a == 0.0
  {
    var f := a / b;
    assert f * b == a;
  }

  /** %D is defined exactly when the last dPeriod %K values all are, and is their mean; it
      therefore lies in [0, 100] too. */
  lemma PercentDRange(prices: seq<real>, kPeriod: nat, dPeriod: nat, i: int)
    requires 1 <= kPeriod && 1 <= dPeriod && 0 <= i < |prices|
    ensures var r := Stochastic(prices, kPeriod, dPeriod);
      && (r.d[i].Some? <==> dPeriod - 1 <= i && AllDefined(Window(r.k, i, dPeriod)))
      && (r.d[i].Some? ==>
            && r.d[i].value == Mean(Values(Window(r.k, i, dPeriod)))
            && 0.0 <= r.d[i].value <= 100.0)
  {
    var k := PercentK(prices, kPeriod);
    var d := RollingMean(k, dPeriod);
    assert Stochastic(prices, kPeriod, dPeriod) == StochasticLines(k, d);
    if d[i].Some? {
      var w := Values(Window(k, i, dPeriod));
      DefinedPercentKWindow(prices, kPeriod, dPeriod, i);
      MeanBounds(w, 0.0, 100.0);
    }
  }

  lemma DefinedPercentKWindow(prices: seq<real>, kPeriod: nat, dPeriod: nat, i: int)
    requires 1 <= kPeriod && 1 <= dPeriod && dPeriod - 1 <= i < |prices|
    requires AllDefined(Window(PercentK(prices, kPeriod), i, dPeriod))
    ensures var w := Values(Window(PercentK(prices, kPeriod), i, dPeriod));
      forall j :: 0 <= j < |w| ==> 0.0 <= w[j] <= 100.0
  {
    PercentKColumnBounds(prices, kPeriod);
    DefinedWindowWithin(PercentK(prices, kPeriod), i, dPeriod, 0.0, 100.0);
  }

  lemma PercentKColumnBounds(prices: seq<real>, kPeriod: nat)
    requires 1 <= kPeriod
    ensures var k := PercentK(prices, kPeriod);
      forall i :: 0 <= i < |k| && k[i].Some? ==> 0.0 <= k[i].value <= 100.0
  {
    forall i | 0 <= i < |prices|
      ensures PercentK(prices, kPeriod)[i].Some? ==> 0.0 <= PercentK(prices, kPeriod)[i].value <= 100.0
    {
      PercentKBounds(prices, kPeriod, i);
    }
  }

  /** The values of a defined window of a column whose defined cells lie in [lo, hi]. */
  lemma DefinedWindowWithin(col: seq<Option<real>>, i: int, n: nat, lo: real, hi: real)
    requires 1 <= n && n - 1 <= i < |col|
    requires forall j :: 0 <= j < |col| && col[j].Some? ==> lo <= col[j].value <= hi
    requires AllDefined(Window(col, i, n))
    ensures var w := Values(Window(col, i, n));
      forall j :: 0 <= j < |w| ==> lo <= w[j] <= hi
  {
    var cw := Window(col, i, n);
    var w := Values(cw);
    forall j | 0 <= j < |w|
      ensures lo <= w[j] <= hi
    {
      assert cw[j] == col[i - n + 1 + j] && cw[j] == Some(w[j]);
    }
  }

  /** A constant series leaves both stochastic lines undefined everywhere. */
  lemma StochasticOfFlat(prices: seq<real>, kPeriod: nat, dPeriod: nat)
    requires 1 <= kPeriod && 1 <= dPeriod && Flat(prices)
    ensures var r := Stochastic(prices, kPeriod, dPeriod);
      forall i :: 0 <= i < |prices| ==> r.k[i] == None && r.d[i] == None
  {
    var r := Stochastic(prices, kPeriod, dPeriod);
    forall i | kPeriod - 1 <= i < |prices|
      ensures r.k[i] == None
    {
      var w := Window(prices, i, kPeriod);
      assert Flat(w) by {
        assert forall j :: 0 <= j < |w| ==> w[j] == prices[0];
      }
      MaxMinOfFlat(w);
    }
    forall i | dPeriod - 1 <= i < |prices|
      ensures r.d[i] == None
    {
      assert Window(r.k, i, dPeriod)[dPeriod - 1] == r.k[i];
      if kPeriod - 1 <= i {
        assert r.k[i] == None;
      }
    }
  }

  lemma MaxMinOfFlat(w: seq<real>)
    requires |w| > 0 && Flat(w)
    ensures Max(w) == Min(w)
  {
  }

  // ---------------------------------------------------------------------------------------
  // Volatility (stands in for the volume indicator)

  /** `pct_change()`: relative change from the previous price; undefined at the first
      position and after a zero price. */
  function PercentChange(prices: seq<real>): (r: seq<Option<real>>)
    ensures |r| == |prices|
    ensures forall j :: 0 <= j < |prices| ==> (r[j].Some? <==> 1 <= j && prices[j - 1] != 0.0)
  {
    seq(|prices|, j requires 0 <= j < |prices| =>
      if j == 0 || prices[j - 1] == 0.0 then None
      else Some((prices[j] - prices[j - 1]) / prices[j - 1]))
  }

  /** `calculate_volume_sma`: rolling sample deviation of the relative changes, in percent. */
  function Volatility(prices: seq<real>, period: nat, root: real -> real): (r: seq<Option<real>>)
    requires period >= 1
    ensures |r| == |prices|
  {
    var std := RollingStd(PercentChange(prices), period, root);
    seq(|prices|, i requires 0 <= i < |prices| =>
      if std[i].Some? then Some(std[i].value * 100.0) else None)
  }

  /** Volatility needs `period` defined changes, so its first `period` positions are
      undefined; where defined it is non-negative. */
  lemma VolatilityShape(prices: seq<real>, period: nat, root: real -> real, i: int)
    requires 1 <= period && 0 <= i < |prices| && IsSquareRoot(root)
    ensures var r := Volatility(prices, period, root);
      && (r[i].Some? <==> 2 <= period && period <= i
                          && forall j :: i - period <= j < i ==> prices[j] != 0.0)
      && (r[i].Some? ==> 0.0 <= r[i].value)
  {
    var changes := PercentChange(prices);
    var std := RollingStd(changes, period, root);
    if 2 <= period && period - 1 <= i {
      var w := Window(changes, i, period);
      assert forall k :: 0 <= k < period ==> w[k] == changes[i - period + 1 + k];
      if AllDefined(w) {
        assert w[0].Some?;
        forall j | i - period <= j < i
          ensures prices[j] != 0.0
        {
          assert w[j + 1 - i + period - 1].Some?;
        }
        assert 0.0 <= SampleVariance(Values(w));
        assert 0.0 <= std[i].value;
      }
    }
  }
}
