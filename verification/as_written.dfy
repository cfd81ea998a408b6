/** The RSI stage as the code runs it on a short history. Below the period, `calculate_rsi`
    returns a column of Python `None` objects rather than of NaN floats, and the first
    comparison `None > 70` raises `TypeError`; the rest of the model reads that column as
    undefined instead, so no RSI rule fires. */
module AsWritten {
  import opened Options
  import Indicators
  import Bundle
  import opened Signals
  import Pipeline

  /** A cell of a pandas object column: Python `None`, or a float that may be NaN. */
  datatype PyValue = PyNone | PyFloat(cell: Option<real>)

  /** `calculate_rsi` with its column type: `None` objects below the period, floats from
      the period on. */
  function RsiColumnAsWritten(prices: seq<real>, period: nat): (r: seq<PyValue>)
    requires period >= 1
    ensures |r| == |prices|
    ensures |prices| < period ==> forall i :: 0 <= i < |r| ==> r[i] == PyNone
    ensures period <= |prices| ==> forall i :: 0 <= i < |r| ==> r[i] == PyFloat(Indicators.Rsi(prices, period)[i])
  {
    var rsi := Indicators.Rsi(prices, period);
    if |prices| < period then seq(|prices|, i => PyNone)
    else seq(|prices|, i requires 0 <= i < |prices| => PyFloat(rsi[i]))
  }

  /** The RSI stage on a Python value: ordering `None` against a number raises. */
  function RsiStageAsWritten(v: PyValue): (r: Result<Option<Signal>, PyError>)
    ensures r.Raised? <==> v == PyNone
    ensures v.PyFloat? ==> r == Returned(RsiStage(v.cell))
  {
    match v
    case PyNone => Raised(TypeError)
    case PyFloat(c) => Returned(RsiStage(c))
  }

  /** A NaN cell and a `None` cell both mean "no value", but only the `None` raises:
      every cell of a short column raises, no cell of a long column does, and the leading
      cells of a long column are NaN floats that simply fire no rule. */
  lemma NoneRaisesNaNDoesNot(prices: seq<real>, period: nat, i: int)
    requires period >= 1 && 0 <= i < |prices|
    ensures RsiStageAsWritten(RsiColumnAsWritten(prices, period)[i]).Raised? <==> |prices| < period
    ensures period <= |prices| && i < period - 1 ==>
      RsiStageAsWritten(RsiColumnAsWritten(prices, period)[i]) == Returned(None)
  {
  }

  /** `generate_signals` on the default dictionary, as written: the RSI stage runs first,
      so its exception pre-empts the other two stages. */
  function SignalsAsWritten(prices: seq<real>, root: real -> real): (r: Result<seq<Signal>, PyError>)
    requires |prices| >= 1
  {
    var rsi := RsiStageAsWritten(Last(RsiColumnAsWritten(prices, Bundle.RsiPeriod)));
    if rsi.Raised? then Raised(rsi.error) else Pipeline.SignalsFor(prices, root)
  }

  /** Every non-empty history shorter than fourteen prices makes the code raise
      `TypeError`, whereas the corrected reading returns a signal list without RSI rules. */
  lemma ShortHistoryRaisesAsWritten(prices: seq<real>, root: real -> real)
    requires 1 <= |prices| < 14
    ensures SignalsAsWritten(prices, root) == Raised(TypeError)
    ensures Pipeline.SignalsFor(prices, root).Returned?
  {
    Pipeline.SignalsNeverRaise(prices, root);
  }

  /** A concrete instance: a single stored price. */
  lemma SinglePriceRaisesAsWritten()
    ensures SignalsAsWritten([100.0], x => x) == Raised(TypeError)
  {
    ShortHistoryRaisesAsWritten([100.0], x => x);
  }

  /** From fourteen prices on, the code as written and the corrected model agree. */
  lemma LongHistoryAgrees(prices: seq<real>, root: real -> real)
    requires |prices| >= 14
    ensures SignalsAsWritten(prices, root) == Pipeline.SignalsFor(prices, root)
  {
    var col := RsiColumnAsWritten(prices, Bundle.RsiPeriod);
    assert Last(col) == PyFloat(Last(Indicators.Rsi(prices, Bundle.RsiPeriod)));
  }

  /** The code as written raises for exactly the histories of 1 to 13 prices, and only ever
      `TypeError`: the previous-row read of the MACD stage never fails. */
  lemma RaisesExactlyOnShortHistory(prices: seq<real>, root: real -> real)
    requires |prices| >= 1
    ensures SignalsAsWritten(prices, root).Raised? <==> |prices| < 14
    ensures SignalsAsWritten(prices, root).Raised? ==> SignalsAsWritten(prices, root).error == TypeError
  {
    if |prices| < 14 {
      ShortHistoryRaisesAsWritten(prices, root);
    } else {
      LongHistoryAgrees(prices, root);
      Pipeline.SignalsNeverRaise(prices, root);
    }
  }
}
