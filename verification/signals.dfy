/** `generate_signals`: three independent rule stages (RSI, MACD crossover, Bollinger band),
    each contributing at most one signal, read off the last one or two positions of the
    indicator columns. A comparison with an undefined (NaN) operand is false. */
module Signals {
  import opened Options
  import Bundle

  /** The `type` field of a signal. */
  datatype Kind = Warning | Success

  /** The rule that fired; stands for the `title` and `message` fields. */
  datatype Rule =
    | Overbought
    | Oversold
    | BullishCrossover
    | BearishCrossover
    | UpperBand
    | LowerBand

  datatype Signal = Signal(kind: Kind, rule: Rule, value: real)

  /** The Python exceptions the rules can raise. */
  datatype PyError = TypeError | IndexError

  const OverboughtLevel: real := 70.0
  const OversoldLevel: real := 30.0

  /** Rules that warn of a fall and rules that point at an opportunity. */
  function Severity(rule: Rule): Kind
  {
    match rule
    case Overbought => Warning
    case BearishCrossover => Warning
    case UpperBand => Warning
    case Oversold => Success
    case BullishCrossover => Success
    case LowerBand => Success
  }

  /** Which stage a rule belongs to: 0 for RSI, 1 for MACD, 2 for the bands. */
  function Stage(rule: Rule): nat
  {
    match rule
    case Overbought => 0
    case Oversold => 0
    case BullishCrossover => 1
    case BearishCrossover => 1
    case UpperBand => 2
    case LowerBand => 2
  }

  // NaN-aware comparisons: false as soon as an operand is undefined.
  predicate Gt(a: Option<real>, b: Option<real>) { a.Some? && b.Some? && a.value > b.value }
  predicate Lt(a: Option<real>, b: Option<real>) { a.Some? && b.Some? && a.value < b.value }
  predicate Ge(a: Option<real>, b: Option<real>) { a.Some? && b.Some? && a.value >= b.value }
  predicate Le(a: Option<real>, b: Option<real>) { a.Some? && b.Some? && a.value <= b.value }

  /** A signal as the rules build it: its kind follows from its rule. */
  predicate WellFormed(s: Signal)
  {
    s.kind == Severity(s.rule)
  }

  /** The RSI stage: overbought above 70, otherwise oversold below 30. */
  function RsiStage(rsi: Option<real>): (r: Option<Signal>)
    ensures r.Some? ==> WellFormed(r.value) && Stage(r.value.rule) == 0 && Some(r.value.value) == rsi
    ensures r.Some? && r.value.rule == Overbought <==> Gt(rsi, Some(OverboughtLevel))
    ensures r.Some? && r.value.rule == Oversold <==> Lt(rsi, Some(OversoldLevel))
  {
    if Gt(rsi, Some(OverboughtLevel)) then Some(Signal(Warning, Overbought, rsi.value))
    else if Lt(rsi, Some(OversoldLevel)) then Some(Signal(Success, Oversold, rsi.value))
    else None
  }

  /** The MACD stage: a crossover compares the last two positions of both lines. The
      previous position is read only once the current one shows the lines apart, and reading
      it from a one-row table raises `IndexError`. */
  function MacdStage(macd: seq<Option<real>>, signal: seq<Option<real>>): (r: Result<Option<Signal>, PyError>)
    requires |macd| == |signal| >= 1
    ensures r.Raised? <==> |macd| == 1 && (Gt(Last(macd), Last(signal)) || Lt(Last(macd), Last(signal)))
    ensures r.Raised? ==> r.error == IndexError
    ensures r.Returned? && r.value.Some? ==>
      WellFormed(r.value.value) && Stage(r.value.value.rule) == 1 && Some(r.value.value.value) == Last(macd)
  {
    var now, line := Last(macd), Last(signal);
    if Gt(now, line) then
      if |macd| < 2 then Raised(IndexError)
      else if Le(SecondLast(macd), SecondLast(signal)) then Returned(Some(Signal(Success, BullishCrossover, now.value)))
      else Returned(None)
    else if Lt(now, line) then
      if |macd| < 2 then Raised(IndexError)
      else if Ge(SecondLast(macd), SecondLast(signal)) then Returned(Some(Signal(Warning, BearishCrossover, now.value)))
      else Returned(None)
    else Returned(None)
  }

  /** The band stage: at or above the upper band, otherwise at or below the lower band. */
  function BandStage(price: real, upper: Option<real>, lower: Option<real>): (r: Option<Signal>)
    ensures r.Some? ==> WellFormed(r.value) && Stage(r.value.rule) == 2 && r.value.value == price
    ensures r.Some? && r.value.rule == UpperBand <==> Ge(Some(price), upper)
    ensures r.Some? && r.value.rule == LowerBand <==> !Ge(Some(price), upper) && Le(Some(price), lower)
  {
    if Ge(Some(price), upper) then Some(Signal(Warning, UpperBand, price))
    else if Le(Some(price), lower) then Some(Signal(Success, LowerBand, price))
    else None
  }

  /** The signal a stage contributed, as a list of zero or one elements. */
  function ToSeq(o: Option<Signal>): (r: seq<Signal>)
    ensures |r| <= 1
    ensures forall x :: x in r <==> o == Some(x)
  {
    if o.Some? then [o.value] else []
  }

  /** The columns the rules read are present and aligned with the prices. */
  predicate Readable(prices: seq<real>, t: Bundle.Table)
  {
    && |prices| >= 1
    && |t.rsi| == |prices| && |t.macd| == |prices| && |t.macdSignal| == |prices|
    && |t.bbUpper| == |prices| && |t.bbLower| == |prices|
  }

  /** The list of signals for the latest position, in stage order. */
  function GenerateSignals(prices: seq<real>, t: Bundle.Table): (r: Result<seq<Signal>, PyError>)
    requires Readable(prices, t)
    ensures r.Raised? ==> r.error == IndexError && |prices| == 1
    ensures r.Returned? ==>
      && |r.value| <= 3
      && (forall k :: 0 <= k < |r.value| ==> WellFormed(r.value[k]))
      && (forall k, l :: 0 <= k < l < |r.value| ==> Stage(r.value[k].rule) < Stage(r.value[l].rule))
  {
    var price := Last(prices);
    var macd := MacdStage(t.macd, t.macdSignal);
    if macd.Raised? then Raised(macd.error)
    else
      var rsi, band := RsiStage(Last(t.rsi)), BandStage(price, Last(t.bbUpper), Last(t.bbLower));
      StagesInOrder(rsi, macd.value, band);
      Returned(ToSeq(rsi) + ToSeq(macd.value) + ToSeq(band))
  }

  /** A stage's outcome, if any, is a well-formed signal of that stage. */
  predicate OfStage(o: Option<Signal>, stage: nat)
  {
    o.Some? ==> WellFormed(o.value) && Stage(o.value.rule) == stage
  }

  /** Concatenating the three stages' outcomes gives a list in strict stage order. */
  lemma StagesInOrder(rsi: Option<Signal>, macd: Option<Signal>, band: Option<Signal>)
    requires OfStage(rsi, 0) && OfStage(macd, 1) && OfStage(band, 2)
    ensures var r := ToSeq(rsi) + ToSeq(macd) + ToSeq(band);
      && |r| <= 3
      && (forall k :: 0 <= k < |r| ==> WellFormed(r[k]))
      && (forall k, l :: 0 <= k < l < |r| ==> Stage(r[k].rule) < Stage(r[l].rule))
  {
  }

  /** The list is the three stages' outcomes in order, once the MACD stage has returned. */
  lemma StagesMakeSignals(prices: seq<real>, t: Bundle.Table, rsi: Option<Signal>, macd: Option<Signal>, band: Option<Signal>)
    requires Readable(prices, t)
    requires RsiStage(Last(t.rsi)) == rsi
    requires MacdStage(t.macd, t.macdSignal) == Returned(macd)
    requires BandStage(Last(prices), Last(t.bbUpper), Last(t.bbLower)) == band
    ensures GenerateSignals(prices, t) == Returned(ToSeq(rsi) + ToSeq(macd) + ToSeq(band))
  {
  }

  /** An RSI-stage signal in the list is the RSI stage's outcome, carrying the latest RSI. */
  lemma RsiSignalFromRsiStage(prices: seq<real>, t: Bundle.Table)
    requires Readable(prices, t) && GenerateSignals(prices, t).Returned?
    ensures forall s :: s in GenerateSignals(prices, t).value && Stage(s.rule) == 0 ==>
      RsiStage(Last(t.rsi)) == Some(s) && Some(s.value) == Last(t.rsi)
  {
    var a := ToSeq(RsiStage(Last(t.rsi)));
    var b := ToSeq(MacdStage(t.macd, t.macdSignal).value);
    var c := ToSeq(BandStage(Last(prices), Last(t.bbUpper), Last(t.bbLower)));
    assert GenerateSignals(prices, t).value == a + b + c;
    forall s: Signal | s in a + b + c && Stage(s.rule) == 0
      ensures RsiStage(Last(t.rsi)) == Some(s)
    {
      assert s !in b && s !in c;
    }
  }

  /** The rules behind a list of signals. */
  function Rules(signals: seq<Signal>): set<Rule>
  {
    set s | s in signals :: s.rule
  }

  /** Whether a rule appears among the generated signals. */
  predicate Fires(r: Result<seq<Signal>, PyError>, rule: Rule)
  {
    r.Returned? && rule in Rules(r.value)
  }

  /** Each RSI rule fires exactly when its threshold is crossed; they never fire together. */
  lemma RsiRules(prices: seq<real>, t: Bundle.Table)
    requires Readable(prices, t) && GenerateSignals(prices, t).Returned?
    ensures Fires(GenerateSignals(prices, t), Overbought) <==> Gt(Last(t.rsi), Some(OverboughtLevel))
    ensures Fires(GenerateSignals(prices, t), Oversold) <==> Lt(Last(t.rsi), Some(OversoldLevel))
    ensures !(Fires(GenerateSignals(prices, t), Overbought) && Fires(GenerateSignals(prices, t), Oversold))
  {
    SignalsByStage(prices, t);
  }

  /** A crossover fires exactly when the lines have changed sides between the last two
      positions; the two crossovers exclude each other. */
  lemma MacdRules(prices: seq<real>, t: Bundle.Table)
    requires Readable(prices, t) && |prices| >= 2
    ensures GenerateSignals(prices, t).Returned?
    ensures Fires(GenerateSignals(prices, t), BullishCrossover)
        <==> Gt(Last(t.macd), Last(t.macdSignal)) && Le(SecondLast(t.macd), SecondLast(t.macdSignal))
    ensures Fires(GenerateSignals(prices, t), BearishCrossover)
        <==> Lt(Last(t.macd), Last(t.macdSignal)) && Ge(SecondLast(t.macd), SecondLast(t.macdSignal))
    ensures !(Fires(GenerateSignals(prices, t), BullishCrossover) && Fires(GenerateSignals(prices, t), BearishCrossover))
  {
    SignalsByStage(prices, t);
  }

  /** The upper-band rule wins over the lower-band rule when both would hold. */
  lemma BandRules(prices: seq<real>, t: Bundle.Table)
    requires Readable(prices, t) && GenerateSignals(prices, t).Returned?
    ensures Fires(GenerateSignals(prices, t), UpperBand) <==> Ge(Some(Last(prices)), Last(t.bbUpper))
    ensures Fires(GenerateSignals(prices, t), LowerBand)
        <==> !Ge(Some(Last(prices)), Last(t.bbUpper)) && Le(Some(Last(prices)), Last(t.bbLower))
  {
    SignalsByStage(prices, t);
  }

  /** The rule of a stage's outcome, if any. */
  function RuleOf(o: Option<Signal>): set<Rule>
  {
    if o.Some? then {o.value.rule} else {}
  }

  /** The rules behind the generated list are those the three stages produced. */
  lemma SignalsByStage(prices: seq<real>, t: Bundle.Table)
    requires Readable(prices, t) && GenerateSignals(prices, t).Returned?
    ensures MacdStage(t.macd, t.macdSignal).Returned?
    ensures Rules(GenerateSignals(prices, t).value)
         == RuleOf(RsiStage(Last(t.rsi)))
          + RuleOf(MacdStage(t.macd, t.macdSignal).value)
          + RuleOf(BandStage(Last(prices), Last(t.bbUpper), Last(t.bbLower)))
  {
    var a := ToSeq(RsiStage(Last(t.rsi)));
    var b := ToSeq(MacdStage(t.macd, t.macdSignal).value);
    var c := ToSeq(BandStage(Last(prices), Last(t.bbUpper), Last(t.bbLower)));
    assert GenerateSignals(prices, t).value == a + b + c;
    RulesOfConcat(a + b, c);
    RulesOfConcat(a, b);
  }

  lemma RulesOfConcat(a: seq<Signal>, b: seq<Signal>)
    ensures Rules(a + b) == Rules(a) + Rules(b)
  {
    assert forall s :: s in a + b <==> s in a || s in b;
  }
}
