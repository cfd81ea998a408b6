/** The dashboard's path from a stored price history to its signal list: the indicator
    dictionary with default parameters, then the rules on its latest positions. The RSI
    column of a history shorter than the period is read here as undefined, like the NaN
    cells of a longer one; the code as written raises on such a history instead, which
    `AsWritten` models. */
module Pipeline {
  import opened Options
  import opened Windows
  import Indicators
  import Bundle
  import opened Signals
  import PriceStore

  /** The signals for a non-empty price history, on the corrected reading of a short RSI
      column. */
  function SignalsFor(prices: seq<real>, root: real -> real): (r: Result<seq<Signal>, PyError>)
    requires |prices| >= 1
  {
    var t := Bundle.AllIndicators(prices, root).value;
    assert Readable(prices, t) by {
      assert t.Lookup(Bundle.Rsi).Some? && t.Lookup(Bundle.Macd).Some?;
      assert t.Lookup(Bundle.MacdSignal).Some?;
      assert t.Lookup(Bundle.BbUpper).Some? && t.Lookup(Bundle.BbLower).Some?;
    }
    GenerateSignals(prices, t)
  }

  lemma TableReadable(prices: seq<real>, root: real -> real)
    requires |prices| >= 1
    ensures Readable(prices, Bundle.AllIndicators(prices, root).value)
  {
    var t := Bundle.AllIndicators(prices, root).value;
    assert t.Lookup(Bundle.Rsi).Some? && t.Lookup(Bundle.Macd).Some?;
    assert t.Lookup(Bundle.MacdSignal).Some?;
    assert t.Lookup(Bundle.BbUpper).Some? && t.Lookup(Bundle.BbLower).Some?;
  }

  /** With the short RSI column read as undefined, no non-empty history makes the rules
      raise: on a single price both MACD lines are zero, so the previous position is never
      read. (The code as written raises `TypeError` below fourteen prices; see
      `AsWritten.RaisesExactlyOnShortHistory`.) */
  lemma SignalsNeverRaise(prices: seq<real>, root: real -> real)
    requires |prices| >= 1
    ensures SignalsFor(prices, root).Returned?
    ensures |SignalsFor(prices, root).value| <= 3
  {
    if |prices| == 1 {
      Indicators.MacdOfFlat(prices, Bundle.MacdFast, Bundle.MacdSlow, Bundle.MacdSignalSpan);
    }
  }

  /** Fewer than fourteen prices leave the RSI undefined at the latest position, so neither
      RSI rule fires. */
  lemma ShortHistoryGivesNoRsiSignal(prices: seq<real>, root: real -> real)
    requires 1 <= |prices| < 14
    ensures SignalsFor(prices, root).Returned?
    ensures !Fires(SignalsFor(prices, root), Overbought) && !Fires(SignalsFor(prices, root), Oversold)
  {
    SignalsNeverRaise(prices, root);
    TableReadable(prices, root);
    RsiRules(prices, Bundle.AllIndicators(prices, root).value);
  }

  /** Fewer than twenty prices leave the bands undefined, so neither band rule fires. */
  lemma ShortHistoryGivesNoBandSignal(prices: seq<real>, root: real -> real)
    requires 1 <= |prices| < 20
    ensures SignalsFor(prices, root).Returned?
    ensures !Fires(SignalsFor(prices, root), UpperBand) && !Fires(SignalsFor(prices, root), LowerBand)
  {
    SignalsNeverRaise(prices, root);
    TableReadable(prices, root);
    Bundle.WarmUpPeriods(prices, root);
    BandRules(prices, Bundle.AllIndicators(prices, root).value);
  }

  /** An RSI signal carries a value on the scale's side its rule names: overbought in
      (70, 100), oversold in [0, 30). */
  lemma RsiSignalValues(prices: seq<real>, root: real -> real)
    requires |prices| >= 1
    ensures SignalsFor(prices, root).Returned?
    ensures forall s :: s in SignalsFor(prices, root).value && s.rule == Overbought ==> 70.0 < s.value < 100.0
    ensures forall s :: s in SignalsFor(prices, root).value && s.rule == Oversold ==> 0.0 <= s.value < 30.0
  {
    SignalsNeverRaise(prices, root);
    TableReadable(prices, root);
    Indicators.RsiBounds(prices, Bundle.RsiPeriod, |prices| - 1);
    RsiSignalFromRsiStage(prices, Bundle.AllIndicators(prices, root).value);
  }

  /** A bullish crossover is the histogram turning positive, a bearish one the histogram
      turning negative. */
  lemma CrossoverIsHistogramSignChange(prices: seq<real>, root: real -> real)
    requires |prices| >= 2
    ensures var h := Bundle.AllIndicators(prices, root).value.macdHistogram;
      && SignalsFor(prices, root).Returned?
      && (Fires(SignalsFor(prices, root), BullishCrossover)
          <==> Last(h).value > 0.0 && SecondLast(h).value <= 0.0)
      && (Fires(SignalsFor(prices, root), BearishCrossover)
          <==> Last(h).value < 0.0 && SecondLast(h).value >= 0.0)
  {
    TableReadable(prices, root);
    Bundle.MacdColumnsConsistent(prices, root);
    MacdRules(prices, Bundle.AllIndicators(prices, root).value);
  }

  /** A constant price c over at least twenty positions reads as oversold (an RSI of 0)
      and as touching the upper band (the bands collapse onto c), and never as a crossover. */
  lemma FlatHistorySignals(prices: seq<real>, root: real -> real)
    requires |prices| >= 20 && Flat(prices) && IsSquareRoot(root)
    ensures SignalsFor(prices, root)
         == Returned([Signal(Success, Oversold, 0.0), Signal(Warning, UpperBand, prices[0])])
  {
    var t := Bundle.AllIndicators(prices, root).value;
    TableReadable(prices, root);
    FlatRsiStage(prices, root);
    FlatMacdStage(prices, root);
    FlatBandStage(prices, root);
    var a, c := Signal(Success, Oversold, 0.0), Signal(Warning, UpperBand, prices[0]);
    StagesMakeSignals(prices, t, Some(a), None, Some(c));
    assert ToSeq(Some(a)) + ToSeq(None) + ToSeq(Some(c)) == [a, c];
    SignalsOfTable(prices, root);
  }

  /** The signals are the rules applied to the computed dictionary. */
  lemma SignalsOfTable(prices: seq<real>, root: real -> real)
    requires |prices| >= 1
    ensures Readable(prices, Bundle.AllIndicators(prices, root).value)
    ensures SignalsFor(prices, root) == GenerateSignals(prices, Bundle.AllIndicators(prices, root).value)
  {
    TableReadable(prices, root);
  }

  lemma FlatRsiStage(prices: seq<real>, root: real -> real)
    requires |prices| >= 20 && Flat(prices)
    ensures var t := Bundle.AllIndicators(prices, root).value;
      |t.rsi| == |prices| && RsiStage(Last(t.rsi)) == Some(Signal(Success, Oversold, 0.0))
  {
    Indicators.RsiOfNonFallingWindow(prices, Bundle.RsiPeriod, |prices| - 1);
  }

  lemma FlatMacdStage(prices: seq<real>, root: real -> real)
    requires |prices| >= 20 && Flat(prices)
    ensures var t := Bundle.AllIndicators(prices, root).value;
      |t.macd| == |t.macdSignal| == |prices| && MacdStage(t.macd, t.macdSignal) == Returned(None)
  {
    var t := Bundle.AllIndicators(prices, root).value;
    Indicators.MacdOfFlat(prices, Bundle.MacdFast, Bundle.MacdSlow, Bundle.MacdSignalSpan);
    assert Last(t.macd) == Last(t.macdSignal);
  }

  lemma FlatBandStage(prices: seq<real>, root: real -> real)
    requires |prices| >= 20 && Flat(prices) && IsSquareRoot(root)
    ensures var t := Bundle.AllIndicators(prices, root).value;
      && |t.bbUpper| == |t.bbLower| == |prices|
      && BandStage(Last(prices), Last(t.bbUpper), Last(t.bbLower)) == Some(Signal(Warning, UpperBand, prices[0]))
  {
    var n := |prices|;
    var w := Window(prices, n - 1, Bundle.BandPeriod);
    assert Flat(w) by {
      assert forall j :: 0 <= j < |w| ==> w[j] == prices[n - 20 + j];
    }
    Indicators.BollingerOfFlatWindow(prices, Bundle.BandPeriod, Bundle.BandWidth, root, n - 1);
  }

  /** `get_all_indicators`: the asset's stored series read in timestamp order, and the
      dictionary computed on its prices; an asset with no stored price gives no dictionary. */
  method IndicatorsForAsset(s: PriceStore.Store, asset: PriceStore.Asset, root: real -> real)
    returns (rows: seq<PriceStore.Row>, r: Option<Bundle.Table>)
    ensures PriceStore.Ascending(rows) && PriceStore.FromStore(rows, s, asset)
    ensures r.None? <==> PriceStore.Timestamps(s, asset) == {}
    ensures r.Some? ==> forall n :: r.value.Lookup(n).Some? <==> n in Bundle.Names
    ensures r.Some? ==> forall n :: r.value.Lookup(n).Some? ==> |r.value.Lookup(n).value| == |rows|
    ensures r == Bundle.AllIndicators(PriceStore.Prices(rows), root)
  {
    rows := PriceStore.ReadSeries(s, asset);
    r := Bundle.AllIndicators(PriceStore.Prices(rows), root);
    if |rows| > 0 {
      assert rows[0].timestamp in PriceStore.Timestamps(s, asset) by {
        assert PriceStore.Key(asset, rows[0].timestamp) in s;
      }
    }
  }
}
