/** `get_all_indicators`: every indicator column, under its dictionary key, computed with the
    dashboard's default parameters from one asset's chronological price history. */
module Bundle {
  import opened Options
  import opened Windows
  import Indicators

  /** The keys of the indicator dictionary; `MovingAverage(p)` is the column `MA{p}`. */
  datatype Name =
    | Rsi
    | Macd
    | MacdSignal
    | MacdHistogram
    | MovingAverage(period: nat)
    | BbUpper
    | BbMiddle
    | BbLower
    | StochK
    | StochD
    | Volatility

  /** The computed dictionary, one field per column. */
  datatype Table = Table(
    rsi: seq<Option<real>>,
    macd: seq<Option<real>>, macdSignal: seq<Option<real>>, macdHistogram: seq<Option<real>>,
    ma20: seq<Option<real>>, ma50: seq<Option<real>>, ma200: seq<Option<real>>,
    bbUpper: seq<Option<real>>, bbMiddle: seq<Option<real>>, bbLower: seq<Option<real>>,
    stochK: seq<Option<real>>, stochD: seq<Option<real>>,
    volatility: seq<Option<real>>)
  {
    /** Dictionary lookup by key; `None` where indexing would raise `KeyError`. */
    function Lookup(n: Name): Option<seq<Option<real>>>
    {
      match n
      case Rsi => Some(rsi)
      case Macd => Some(macd)
      case MacdSignal => Some(macdSignal)
      case MacdHistogram => Some(macdHistogram)
      case MovingAverage(p) =>
        if p == 20 then Some(ma20)
        else if p == 50 then Some(ma50)
        else if p == 200 then Some(ma200)
        else None
      case BbUpper => Some(bbUpper)
      case BbMiddle => Some(bbMiddle)
      case BbLower => Some(bbLower)
      case StochK => Some(stochK)
      case StochD => Some(stochD)
      case Volatility => Some(volatility)
    }
  }

  const RsiPeriod: nat := 14
  const MacdFast: nat := 12
  const MacdSlow: nat := 26
  const MacdSignalSpan: nat := 9
  const MaPeriods: seq<nat> := [20, 50, 200]
  const BandPeriod: nat := 20
  const BandWidth: real := 2.0
  const StochKPeriod: nat := 14
  const StochDPeriod: nat := 3
  const VolatilityPeriod: nat := 20

  /** The thirteen columns a computed dictionary carries. */
  const Names: set<Name> := {
    Rsi, Macd, MacdSignal, MacdHistogram,
    MovingAverage(20), MovingAverage(50), MovingAverage(200),
    BbUpper, BbMiddle, BbLower, StochK, StochD, Volatility
  }

  /** An empty history yields no dictionary at all; otherwise exactly the thirteen named
      columns are present, each aligned with the prices. */
  function AllIndicators(prices: seq<real>, root: real -> real): (r: Option<Table>)
    ensures r.None? <==> |prices| == 0
    ensures r.Some? ==> forall n :: r.value.Lookup(n).Some? <==> n in Names
    ensures r.Some? ==> forall n :: r.value.Lookup(n).Some? ==> |r.value.Lookup(n).value| == |prices|
  {
    if |prices| == 0 then None
    else
      var m := Indicators.Macd(prices, MacdFast, MacdSlow, MacdSignalSpan);
      var mas := Indicators.MovingAverages(prices, MaPeriods);
      var bb := Indicators.Bollinger(prices, BandPeriod, BandWidth, root);
      var st := Indicators.Stochastic(prices, StochKPeriod, StochDPeriod);
      Some(Table(
        Indicators.Rsi(prices, RsiPeriod),
        m.macd, m.signal, m.histogram,
        mas[20], mas[50], mas[200],
        bb.upper, bb.middle, bb.lower,
        st.k, st.d,
        Indicators.Volatility(prices, VolatilityPeriod, root)))
  }

  /** The middle Bollinger band and the 20-period moving average are the same column. */
  lemma MiddleBandIsMa20(prices: seq<real>, root: real -> real)
    requires |prices| >= 1
    ensures var t := AllIndicators(prices, root).value;
      t.bbMiddle == t.ma20 && t.ma20 == Indicators.MovingAverage(prices, 20)
  {
    Indicators.BollingerShape(prices, BandPeriod, BandWidth, root);
  }

  /** The three MACD columns are defined everywhere and the histogram is the gap between
      the MACD line and its signal line. */
  lemma MacdColumnsConsistent(prices: seq<real>, root: real -> real)
    requires |prices| >= 1
    ensures var t := AllIndicators(prices, root).value;
      forall i :: 0 <= i < |prices| ==>
        && t.macd[i].Some? && t.macdSignal[i].Some? && t.macdHistogram[i].Some?
        && t.macdHistogram[i].value == t.macd[i].value - t.macdSignal[i].value
  {
  }

  /** The RSI column is defined from the fourteenth price on, and nowhere on a shorter
      history; each moving-average column needs as many prices as its period. */
  lemma WarmUpPeriods(prices: seq<real>, root: real -> real)
    requires |prices| >= 1
    ensures var t := AllIndicators(prices, root).value;
      forall i :: 0 <= i < |prices| ==>
        && (t.rsi[i].Some? <==> 13 <= i)
        && (t.ma20[i].Some? <==> 19 <= i)
        && (t.ma50[i].Some? <==> 49 <= i)
        && (t.ma200[i].Some? <==> 199 <= i)
        && (t.bbUpper[i].Some? <==> 19 <= i)
  {
    Indicators.BollingerShape(prices, BandPeriod, BandWidth, root);
  }

  /** %K is defined from the fourteenth price on wherever its window is not flat, and lies
      in [0, 100]; %D is defined exactly where %K is defined at the last three positions,
      and is their mean. */
  lemma StochasticColumns(prices: seq<real>, root: real -> real, i: int)
    requires 0 <= i < |prices|
    ensures var t := AllIndicators(prices, root).value;
      && (t.stochK[i].Some? <==> 13 <= i && Max(Window(prices, i, 14)) != Min(Window(prices, i, 14)))
      && (t.stochK[i].Some? ==> 0.0 <= t.stochK[i].value <= 100.0)
      && (t.stochD[i].Some? <==> 2 <= i && t.stochK[i - 2].Some? && t.stochK[i - 1].Some? && t.stochK[i].Some?)
      && (t.stochD[i].Some? ==>
            && t.stochD[i].value == Mean(Values(Window(t.stochK, i, 3)))
            && 0.0 <= t.stochD[i].value <= 100.0)
  {
    var st := Indicators.Stochastic(prices, StochKPeriod, StochDPeriod);
    StochasticColumnsAre(prices, root);
    Indicators.PercentKBounds(prices, StochKPeriod, i);
    Indicators.PercentDRange(prices, StochKPeriod, StochDPeriod, i);
    LastThreeDefined(st.k, i);
  }

  lemma StochasticColumnsAre(prices: seq<real>, root: real -> real)
    requires |prices| >= 1
    ensures var t := AllIndicators(prices, root).value;
      && t.stochK == Indicators.PercentK(prices, StochKPeriod)
      && t.stochD == Indicators.Stochastic(prices, StochKPeriod, StochDPeriod).d
  {
  }

  lemma LastThreeDefined(xs: seq<Option<real>>, i: int)
    requires 0 <= i < |xs|
    ensures 2 <= i && AllDefined(Window(xs, i, 3)) <==> 2 <= i && xs[i - 2].Some? && xs[i - 1].Some? && xs[i].Some?
  {
    if 2 <= i {
      var w := Window(xs, i, 3);
      assert w[0] == xs[i - 2] && w[1] == xs[i - 1] && w[2] == xs[i];
    }
  }

  /** With a genuine square root, volatility is defined from position 20 on wherever none
      of the twenty prices its changes divide by is zero, and is never negative. */
  lemma VolatilityColumn(prices: seq<real>, root: real -> real, i: int)
    requires 0 <= i < |prices| && IsSquareRoot(root)
    ensures var t := AllIndicators(prices, root).value;
      && (t.volatility[i].Some? <==> 20 <= i && forall j :: i - 20 <= j < i ==> prices[j] != 0.0)
      && (t.volatility[i].Some? ==> 0.0 <= t.volatility[i].value)
  {
    Indicators.VolatilityShape(prices, VolatilityPeriod, root, i);
  }

  /** With a genuine square root the bands are ordered wherever they are defined. */
  lemma BandsOrdered(prices: seq<real>, root: real -> real)
    requires |prices| >= 1 && IsSquareRoot(root)
    ensures var t := AllIndicators(prices, root).value;
      forall i :: 19 <= i < |prices| ==>
        && t.bbLower[i].Some? && t.bbMiddle[i].Some? && t.bbUpper[i].Some?
        && t.bbLower[i].value <= t.bbMiddle[i].value <= t.bbUpper[i].value
  {
    forall i | 19 <= i < |prices|
      ensures var b := Indicators.Bollinger(prices, BandPeriod, BandWidth, root);
        && b.lower[i].Some? && b.middle[i].Some? && b.upper[i].Some?
        && b.lower[i].value <= b.middle[i].value <= b.upper[i].value
    {
      Indicators.BollingerSymmetric(prices, BandPeriod, BandWidth, root, i);
    }
  }
}
