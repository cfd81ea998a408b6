# Crypto indicator engine and price store, in Dafny

This project models two parts of a small cryptocurrency dashboard.

1. **The indicator engine and signal generator** (`technical_indicators.py`). A chronological
   price series becomes aligned indicator columns:
   - RSI;
   - the MACD triple;
   - moving averages;
   - the Bollinger triple;
   - stochastic %K/%D;
   - a volatility proxy.

   The columns are gathered into one dictionary. Three rule stages (RSI, MACD crossover,
   Bollinger band) then turn the latest positions into at most three categorised signals.
2. **The deduplicating price store** (`data_collector.py`). Price rows are keyed by
   (asset, timestamp). The table's UNIQUE constraint plus the swallowed `IntegrityError`
   make the first write of a key win. An update loop visits five assets and skips any asset
   whose download failed. A read returns one asset's rows in timestamp order.

Each file holds one module:

| file | module | contents |
|---|---|---|
| `options.dfy` | `Options` | `Option` (a `None` cell is a pandas NaN), `Result`, `iloc[-1]`/`iloc[-2]` |
| `windows.dfy` | `Windows` | trailing windows, sum/mean/max/min, sample variance, `rolling().mean()` and `rolling().std()` |
| `ewm.dfy` | `Ewm` | `ewm(span).mean()` in pandas' adjusted form, its recurrence, its range |
| `indicators.dfy` | `Indicators` | the six indicator functions and their properties |
| `bundle.dfy` | `Bundle` | `get_all_indicators` with the default parameters |
| `signals.dfy` | `Signals` | `generate_signals` |
| `pipeline.dfy` | `Pipeline` | the ordered read feeding the indicators, and indicators followed by signals with a short RSI column read as undefined (the corrected reading; see Findings) |
| `as_written.dfy` | `AsWritten` | the RSI stage as the code runs it on a short history (see Findings) |
| `collation.dfy` | `Collation` | SQLite's BINARY text order used by `ORDER BY timestamp` |
| `price_store.dfy` | `PriceStore` | insert, batch store, update loop, ordered read |

Modelling choices:
- Prices are exact reals. Undefined positions are `None`.
- A comparison with an undefined operand is false, as a NaN comparison is.
- `sqrt` is a parameter `root: real -> real`. Statements that depend on its meaning assume
  `IsSquareRoot(root)`.
- The exponential mean's two sums, Σ w^j·x[t−j] and Σ w^j, are written in nested form
  x[t] + w·(x[t−1] + w·(…)) and 1 + w·(1 + w·(…)). This is the same value, and it is the
  form pandas' adjusted recursion updates.

### Where the code departs from the textbook definitions

The model follows the code in both cases.
- **RSI on a zero loss average.** A textbook RSI is 100 when there are no losses. This code
  gives **0**: line 27 replaces a zero loss average by +∞, so RS is 0
  (`technical_indicators.py:27-28`). `Indicators.RsiBounds` and
  `Indicators.RsiOfNonFallingWindow` state this.
- **Start of the defined RSI prefix.** A textbook RSI needs `period` price changes, so it is
  undefined for the first `period` positions. In this code, `diff()` leaves position 0 as
  NaN, and `where(delta > 0, 0)` turns that NaN into 0, so the rolling means are defined from
  position **period − 1** (`technical_indicators.py:23-25`). For the seven prices 100, 102,
  101, 105, 107, 106, 110 at period 3, RSI is therefore defined from the third position on
  (`Indicators.RsiWorkedExample`).

## Model

| member | source | states |
|---|---|---|
| Windows.RollingMeanSlides | technical_indicators.py:58 | between two defined positions the rolling mean moves by (entering value − leaving value)/p, so the online update and the mean taken afresh over each window agree |
| Windows.RollingStdFacts | technical_indicators.py:69 | with a genuine square root, a defined rolling deviation is never negative, and it is 0 on a window whose values are all equal |
| Ewm.EwmSeed | technical_indicators.py:36-37 | the exponential mean starts at the first value (no undefined prefix) |
| Ewm.EwmRecurrence | technical_indicators.py:36-37 | the adjusted weighted mean moves from its previous value towards the new price by 1/Σw^j, which is pandas' adjusted recursion |
| Ewm.EwmWithinPrefixRange | technical_indicators.py:36-37 | every exponential mean value lies between the minimum and maximum of the prices seen so far |
| Ewm.EwmOfFlat | technical_indicators.py:36-37 | a constant series is its own exponential mean |
| Indicators.Rsi | technical_indicators.py:18-29 | the RSI column is as long as the prices and is defined exactly from position period − 1 on; a series shorter than the period is undefined throughout |
| Indicators.RsiFromAveragesRange | technical_indicators.py:27-28 | RS with the +∞ substitution gives a value in [0, 100): 0 on a zero loss average, 100·g/(g + l) otherwise |
| Indicators.RsiBounds | technical_indicators.py:23-28 | wherever RSI is defined it is in [0, 100), equals 0 when the trailing loss average is 0, and equals 100·gain/(gain + loss) otherwise |
| Indicators.RsiOfNonFallingWindow | technical_indicators.py:23-28 | a window in which the price never falls gives RSI exactly 0 |
| Indicators.RsiWorkedExample | technical_indicators.py:18-29 | prices 100,102,101,105,107,106,110 at period 3 give undefined, undefined, 200/3, then 600/7 four times |
| Indicators.Macd | technical_indicators.py:31-52 | all three MACD columns are aligned and defined at every position; MACD is the fast minus the slow exponential mean, and the histogram is MACD minus signal exactly |
| Indicators.MacdStartsAtZero | technical_indicators.py:36-46 | at the first position MACD, signal and histogram are all 0 for every price series |
| Indicators.MacdOfFlat | technical_indicators.py:36-46 | a constant price series gives all three MACD lines at 0 everywhere |
| Indicators.SignalWithinMacdRange | technical_indicators.py:43 | the signal line stays within the range the MACD line has covered up to that position |
| Indicators.MovingAverage | technical_indicators.py:54-59 | `MA{p}` is undefined at exactly the first p − 1 positions and is the mean of the trailing p prices afterwards |
| Indicators.MovingAverages | technical_indicators.py:54-59 | one column per requested period and no other key; the column for p is aligned with the prices, undefined at exactly its first p − 1 positions, and the mean of the trailing p prices afterwards |
| Indicators.MovingAverageWithinWindow | technical_indicators.py:58 | a moving average lies between its window's minimum and maximum |
| Indicators.BollingerShape | technical_indicators.py:66-73 | the middle band equals the moving average of the same period, and the outer bands are defined exactly from position period − 1 on (period ≥ 2) |
| Indicators.BollingerSymmetric | technical_indicators.py:69-73 | upper − middle = middle − lower = width·std with std ≥ 0, hence lower ≤ middle ≤ upper |
| Indicators.BollingerOfFlatWindow | technical_indicators.py:66-73 | a flat window collapses upper, middle and lower onto the price |
| Indicators.PercentK | technical_indicators.py:83-87 | %K is defined exactly from position k − 1 on, and only where the window's maximum differs from its minimum (0/0 otherwise) |
| Indicators.PercentKRange | technical_indicators.py:83-87 | wherever defined, %K is in [0, 100]; it is 100 exactly when the price is the window's maximum and 0 exactly when it is the minimum |
| Indicators.PercentDRange | technical_indicators.py:90 | %D is defined exactly where the last d %K values are all defined, and then lies in [0, 100] |
| Indicators.StochasticOfFlat | technical_indicators.py:81-95 | a constant price series leaves %K and %D undefined everywhere |
| Indicators.VolatilityShape | technical_indicators.py:97-101 | the volatility proxy at position i is defined exactly when period ≥ 2, i ≥ period and none of the prices at positions i − period to i − 1 is 0; where defined it is non-negative |
| Bundle.AllIndicators | technical_indicators.py:103-137 | an empty history gives no dictionary; otherwise exactly the thirteen named columns exist (other `MA{p}` keys do not), each aligned with the prices |
| Bundle.MiddleBandIsMa20 | technical_indicators.py:120-126 | in the dictionary the middle band and MA20 are the same column, namely the 20-price moving average |
| Bundle.WarmUpPeriods | technical_indicators.py:113-126 | in the dictionary, RSI is defined from position 13, MA20 from position 19, MA50 from position 49, MA200 from position 199, and the upper band from position 19 |
| Bundle.StochasticColumns | technical_indicators.py:128-131 | in the dictionary, `stoch_k` is defined exactly from position 13 where its 14-price window is not flat, and lies in [0, 100]; `stoch_d` is defined exactly where `stoch_k` is defined at the last three positions, and is their mean, in [0, 100] |
| Bundle.VolatilityColumn | technical_indicators.py:133-134 | in the dictionary, `volatility` is defined exactly from position 20 where none of the 20 preceding prices is 0, and is never negative |
| Bundle.BandsOrdered | technical_indicators.py:124-126 | from position 19 on, lower ≤ middle ≤ upper in the dictionary |
| Signals.RsiStage | technical_indicators.py:145-159 | overbought fires exactly when RSI > 70 and oversold exactly when RSI < 30, each as a single signal of the right kind carrying the RSI value |
| Signals.MacdStage | technical_indicators.py:161-178 | the stage raises `IndexError` exactly when a one-row table has the lines apart; any signal it gives carries the current MACD value with the matching kind |
| Signals.BandStage | technical_indicators.py:180-197 | upper band fires exactly when price ≥ upper; lower band fires exactly when price ≥ upper does not hold and price ≤ lower |
| Signals.GenerateSignals | technical_indicators.py:139-199 | at most three signals, strictly ordered RSI, MACD, band; every signal's kind follows from its rule; only a one-row table can raise |
| Signals.RsiRules | technical_indicators.py:145-159 | over the whole list, overbought fires iff RSI > 70 and oversold iff RSI < 30, and never both |
| Signals.MacdRules | technical_indicators.py:161-178 | with two rows the list is returned; bullish fires iff macd > signal now and ≤ before, bearish iff < now and ≥ before, and never both |
| Signals.BandRules | technical_indicators.py:180-197 | over the whole list, the upper-band rule fires iff price ≥ upper; the lower-band rule iff that fails and price ≤ lower |
| Signals.SignalsByStage | technical_indicators.py:139-199 | the rules in the list are exactly those the three stages produced |
| Pipeline.SignalsNeverRaise | technical_indicators.py:161-178 | with a short RSI column read as undefined (the corrected reading), every non-empty history gives a list of at most three: a single price leaves both MACD lines at 0, so the previous row is never read |
| Pipeline.ShortHistoryGivesNoRsiSignal | technical_indicators.py:18-21 | on the corrected reading, fewer than 14 prices give a list in which no RSI rule fires |
| Pipeline.ShortHistoryGivesNoBandSignal | technical_indicators.py:180-197 | on the corrected reading, fewer than 20 prices give a list in which no band rule fires |
| Pipeline.RsiSignalValues | technical_indicators.py:145-159 | an overbought signal carries a value in (70, 100) and an oversold one a value in [0, 30) |
| Pipeline.CrossoverIsHistogramSignChange | technical_indicators.py:161-178 | a bullish crossover is the histogram becoming positive from ≤ 0, a bearish one the histogram becoming negative from ≥ 0 |
| Pipeline.IndicatorsForAsset | technical_indicators.py:103-109 | the asset's rows come back in ascending timestamp order with their stored prices; there is no dictionary exactly when the asset has no stored price, and otherwise the thirteen columns are aligned with the rows read |
| Pipeline.FlatHistorySignals | technical_indicators.py:139-199 | twenty or more equal prices c yield exactly [oversold with value 0, upper band with value c] |
| AsWritten.NoneRaisesNaNDoesNot | technical_indicators.py:18-29 | any cell of an RSI column shorter than the period raises in the RSI stage, no cell of a longer column does, and a long column's leading NaN cells fire no rule |
| AsWritten.ShortHistoryRaisesAsWritten | technical_indicators.py:18-21 | every history of 1 to 13 prices makes the code as written raise `TypeError`, while the corrected model returns a list |
| AsWritten.SinglePriceRaisesAsWritten | technical_indicators.py:143-146 | a single stored price is such an input |
| AsWritten.LongHistoryAgrees | technical_indicators.py:18-29 | from 14 prices on, the code as written and the corrected model give the same result |
| AsWritten.RaisesExactlyOnShortHistory | technical_indicators.py:139-153 | the code as written raises exactly on histories of 1 to 13 prices, and then always `TypeError`, never the `IndexError` of the MACD stage |
| Collation.Irreflexive | technical_indicators.py:8 | no timestamp sorts before itself |
| Collation.Asymmetric | technical_indicators.py:8 | two timestamps never sort before each other |
| Collation.Transitive | technical_indicators.py:8 | the text order is transitive |
| Collation.Total | technical_indicators.py:8 | two different timestamps are always ordered |
| Collation.HasFirst | technical_indicators.py:8 | every non-empty set of timestamps has a first element |
| PriceStore.Insert | data_collector.py:51-57 | an insert adds its key, and if the key was present every price stays as it was |
| PriceStore.StoreBatch | data_collector.py:34-60 | the keys after a batch are the old keys plus the batch's keys; an existing price is never overwritten; a new key takes the price of its first row in the batch |
| PriceStore.FirstWriteWinsExample | data_collector.py:46-57 | a batch repeating a timestamp keeps the first price, and a later batch cannot change it |
| PriceStore.StoreBatchIdempotent | data_collector.py:51-57 | storing the same batch twice equals storing it once |
| PriceStore.StoreBatchOfPresentKeys | data_collector.py:51-57 | a batch whose keys are all present leaves the store unchanged, without error |
| PriceStore.OtherAssetsUnchanged | data_collector.py:53-54 | a batch for one asset leaves every other asset's rows unchanged |
| PriceStore.RowCount | data_collector.py:51-57 | the row count grows by the number of distinct batch keys not already present |
| PriceStore.UpdateAssets | data_collector.py:82-92 | the loop never removes or overwrites a row, and it adds rows only for visited assets whose download returned rows |
| PriceStore.UpdateIsPerAsset | data_collector.py:85-92 | over distinct assets, each asset ends as if its own batch had been stored alone |
| PriceStore.UpdateAllPerAsset | data_collector.py:7-13 | over the five assets, each visited asset gets exactly its own batch; a failed download (the empty list) leaves its rows unchanged; other assets are untouched |
| PriceStore.ReadSeries | technical_indicators.py:8 | the read returns each stored timestamp of the asset exactly once, with its stored price, in strictly ascending text order |

## Left out

- HTTP fetching, JSON parsing and the millisecond-to-ISO timestamp conversion
  (`data_collector.py:15-29`). They are network I/O and depend on the local time zone. A
  download is a parameter `fetch`, and a failed one is the empty list it returns
  (`data_collector.py:30-32`).
- `fetch_current_price` and `fetch_price` (`data_collector.py:62-80`). They are network I/O
  outside the store.
- SQLite itself: connections, the table DDL, the autoincrement id and `commit`. The store is
  an abstract map.
- `pd.to_datetime` parsing of timestamps (`technical_indicators.py:15`). The read orders the
  stored text.
- The dashboard, its caching and the e-mail alerts. They are presentation and transport.
- Signal titles and messages. They are formatted text; `Signals.Rule` stands for them.
- IEEE-754 floating point. Reals are exact, so rounding, infinities and NaN payloads are not
  modelled. NaN is `None`, and the +∞ of the RSI is modelled by its effect, RS = 0.
- `sqrt`. It is the parameter `root`; properties that need it assume `IsSquareRoot(root)`.
- Windows.RollingStdFacts: the model proves that a flat window has zero variance, not the converse.
- Indicators.PercentChange: a zero previous price is treated as undefined. pandas would give
  ±∞ or NaN there, and the model has no infinities.
- `generate_signals` is modelled on dictionaries built by `get_all_indicators`. A dictionary
  missing a key (`KeyError`) or with columns of different lengths is outside its `requires`.
- Reading with `ORDER BY timestamp` sorts by text. The model proves text order only. It does
  not prove that this order is chronological, which holds only while all timestamps share one
  ISO format.

## Findings

| source | as written | input that shows it | evidently intended | confidence | as-written member | corrected member |
|---|---|---|---|---|---|---|
| technical_indicators.py:20-21, 143-146 | below 14 prices `calculate_rsi` returns a column of Python `None` objects, and `generate_signals` then evaluates `None > 70`, which raises `TypeError`; the dashboard calls it for every non-empty history | an asset with a single stored price (any history of 1 to 13 prices) | the short-history column means "undefined", like the NaN cells of a longer history, so no RSI rule fires and the other two stages still run | medium (not executed) | AsWritten.ShortHistoryRaisesAsWritten | Pipeline.ShortHistoryGivesNoRsiSignal |
