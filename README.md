# IDX signal pipeline — a verified model of its nine stages

This project models the per-ticker stages of a stock-signal pipeline for the
Indonesian stock exchange. They run in this order:

1. Raw daily rows (`code`, `date`, OHLC, `volume`) are grouped into one record per
   ticker, with candles sorted by date.
2. Records are validated: at least 50 candles, at least 90% well-formed, and a
   usable last close.
3. The indicator bag is computed: SMA, EMA, a simple-average RSI, MACD with a
   signal line rebuilt from its history, StochRSI, Bollinger bands, ATR and the
   volume averages.
4. Windowed pivot highs and lows are found and clustered within 1.5%. The
   nearest support below and resistance above the last close are selected.
5. A confluence score is computed from an additive rule table.
6. Entry, stop and target are set, with a reward/risk gate at 1.8.
7. The current levels are backtested on the ticker's own history.
8. Position size, money amounts, expectancy and a market phase are computed.
9. The score is gated and a five-tier action label is assigned.

Every stage loops over its input records. For each one it either drops it
(`continue`) or emits one record with new fields. The model therefore writes
each stage as a function `Stage(x): Option<Out>` (or `Out` for stages that
drop nothing), plus a method with the stage's own loop. The method is proved to
produce `FilterMap(items, Stage)`, or the one-to-one map for the map stages.
The stages' own step-by-step computations are methods proved equal to
recursive functions that define their results:

- the grouping loops over a `map` and the in-place stable sort on an `array`;
- the indicator accumulators;
- the pivot window loop and the cluster reduce;
- the rule-by-rule score updates and the hammer `some`;
- the nested backtest loops.

Properties of those functions are then proved as lemmas.

## Numbers

Prices are `real`. A JavaScript value that may be missing or non-numeric is
`Num = Fin(r) | NaN | NotNumber`. The source distinguishes the two bad cases:

- `typeof x === 'number'` lets NaN through;
- every ordered comparison with NaN is false.

So `NaN` is kept apart from `NotNumber`, and `Lt`/`Le`/`Gt`/`Ge` are false
unless both sides are `Fin`. Other conventions:

- `Math.round(x)` is `floor(x + 0.5)`.
- `toFixed(d)` rounds half away from zero (`Common.ToFixed`).
- `Math.sqrt` is a parameter `sqrt` of subset type `Sqrt` (non-negative results).
- Dates are abstract ordered integer keys.

`Pipeline` composes the stages as `src/index.js` does. It proves that every
final recommendation has a ticker that occurs in the rows and that no two
share one. It also proves that every recommendation is a sound, labelled
signal:

- stop ≤ entry ≤ target;
- reward/risk ≥ 1.8;
- at least 5 backtested trades won at least 52% of the time;
- at least one lot;
- a non-negative expectancy;
- a score at the threshold;
- never "Manual review required".

## Where the tests and the code differ (the model follows the code)

- **RSI of a falling series.** A strictly falling close series with at least
  n+1 closes gives RSI exactly 0 (`Indicators.RsiMonotone`).
  `test/nodes/2_technical_indicators_calculator.test.js:94-118` expects a
  value above 0.
- **MACD on short input.** MACD is all zeros for 26 candles as well as for
  fewer, because with 26 candles the history loop is empty.
- **Hammer/doji rule.** The rule is `lowerShadow > 2·body ∧ upperShadow < 0.5·body`.
  It does not compare the body with the whole range, so a zero-body doji
  whose high is at least its open and close never fires
  (`Confluence.DojiNeverFires`); one whose high lies below its open can
  (`Confluence.InvertedDojiFires`). The "Perfect Hammer" fixture of
  `test/nodes/4_confluence_score_calculator.test.js:514-568` does not fire
  either; with a high of 2481 instead of 2485 it would
  (`Confluence.HammerFixture`).
- **MACD bag required.** `indicators.macd` is dereferenced without a guard, so
  it is a required field of the bag. The tests at
  `test/nodes/4_confluence_score_calculator.test.js:653-695` expect no throw
  when it is missing.
- **Backtest totals.** The backtest guarantees only `wins + losses ≤ total`. A
  trade whose forward scan never resolves, or stops at an unreadable candle,
  counts in `total` only. `test/mock-data-test-case/6_backtest_engine.js:467`
  states equality.
- **NaN last close.** The last-close gate of validation is a type check, so a
  NaN close passes (`Validation.NaNLastClosePasses`).
- **Volume coercion.** Unary plus turns `null`, `""` and white space alone
  into 0, and `undefined` and non-numeric text into NaN
  (`ParseAndSlice.VolumeCoercionCases`, `ParseAndSlice.SpaceCoercion`).
- **Market phase.** `test/nodes/7_position_sizing_risk_management.test.js:229-250`
  (marked TODO there) expects Uptrend for a close of 2500 above two equal
  2400 averages, and Downtrend for a close of 2300 below them. The strict
  comparisons of the code give Sideways in both cases
  (`PositionSizing.PhaseEqualAverages`). `PositionSizing.PhaseCases` states
  what the code does in general.
- **Shares versus lots.** Position sizing divides the loss budget by the risk
  per share, not per lot of 100. The quantity is then used in lots, so the
  nominal loss can reach up to 100 times the budget when capital does not bind. The
  tests compute the same formula, so the model keeps it
  (`PositionSizing.QtyLimits` states the bound per share).

## Model

| member | source | states |
|---|---|---|
| `StableSort.SortInPlace` | src/nodes/parse_and_slice.js:19-20 | the in-place insertion sort leaves the array equal to the stable functional sort of its old contents |
| `StableSort.SortBySorted` | src/nodes/parse_and_slice.js:19-20 | the sorted sequence is in non-decreasing key order and contains exactly the values of the input |
| `StableSort.SortByStable` | src/nodes/parse_and_slice.js:19-20 | elements with equal keys keep their input order (the sort is stable) |
| `StableSort.SortByOfSorted` | src/nodes/parse_and_slice.js:19-20 | sorting an already sorted sequence changes nothing |
| `ParseAndSlice.ParseAndSlice` | src/nodes/parse_and_slice.js:8-37 | no rows give no records; otherwise the result is the grouped, sorted, projected series of each key |
| `ParseAndSlice.GroupRows` | src/nodes/parse_and_slice.js:12-16 | the dictionary holds exactly the keys seen, each with its rows in input order; keys are kept in order of first appearance |
| `ParseAndSlice.BuildSeries` | src/nodes/parse_and_slice.js:18-35 | one record per key, in key order |
| `ParseAndSlice.SortGroup` | src/nodes/parse_and_slice.js:19-34 | a group's record: ticker, stably sorted projected candles, and the last candle's date |
| `ParseAndSlice.VolumeCoercionCases` | src/nodes/parse_and_slice.js:22 | `+volume` maps null and "" to 0, and undefined, "abc" and "-" to NaN |
| `ParseAndSlice.PlainNumeral` | src/nodes/parse_and_slice.js:22 | an unsigned decimal literal with no surrounding white space coerces to its value |
| `ParseAndSlice.NegatedNumeral` | src/nodes/parse_and_slice.js:22 | an unsigned decimal literal after a minus sign coerces to its negated value |
| `ParseAndSlice.VolumeStringRoundTrip` | src/nodes/parse_and_slice.js:22 | whole-number text, optionally after a minus sign, coerces to its number |
| `ParseAndSlice.SpaceCoercion` | src/nodes/parse_and_slice.js:22 | white space around a numeral is ignored (" 12" is 12); white space alone is 0 |
| `ParseAndSlice.ExponentCoercion` | src/nodes/parse_and_slice.js:22 | "1e3" is 1000 and "2.5E-1" is 0.25; "1e" is NaN |
| `ParseAndSlice.KeysComplete` | src/nodes/parse_and_slice.js:12-16 | a key is grouped iff some row carries it |
| `ParseAndSlice.ParseTickersDistinct` | src/nodes/parse_and_slice.js:12-35 | output tickers are pairwise distinct |
| `ParseAndSlice.ParseRowPlacement` | src/nodes/parse_and_slice.js:12-23 | every row's projected candle lands in the record whose ticker is the row's group key ("null"/"undefined" for missing codes) |
| `ParseAndSlice.ParseRecordSorted` | src/nodes/parse_and_slice.js:19-28 | each record is non-empty, in non-decreasing date order, with lastDate the last candle's date |
| `ParseAndSlice.ParseRecordStable` | src/nodes/parse_and_slice.js:19-23 | a record's candles are exactly its rows' projections, rows of equal date in input order |
| `ParseAndSlice.ParseCandleCount` | src/nodes/parse_and_slice.js:12-23 | candle counts over all records sum to the number of rows |
| `Validation.ValidateAll` | src/nodes/1_data_validation_and_preprocessing.js:8-50 | the stage's loop emits exactly the surviving records, in input order |
| `Validation.FilterWellFormed` | src/nodes/1_data_validation_and_preprocessing.js:18-25 | keeps exactly the present candles whose five OHLCV fields are non-NaN numbers, in order |
| `Validation.ValidateOneGates` | src/nodes/1_data_validation_and_preprocessing.js:14-34 | a record survives iff it has candles, at least 50 of them, at least 90% well-formed, and a last candle with a number-typed close |
| `Validation.ValidateOneOutput` | src/nodes/1_data_validation_and_preprocessing.js:36-45 | a survivor keeps ticker and date, holds exactly the well-formed candles, takes the last raw close, is marked valid; at least 45 candles are kept |
| `Validation.NaNLastClosePasses` | src/nodes/1_data_validation_and_preprocessing.js:31-36 | a NaN last close passes the type gate and becomes lastClose |
| `Validation.ExactlyFiftyPasses` | src/nodes/1_data_validation_and_preprocessing.js:14-16 | 50 clean candles pass unchanged; 49 are dropped |
| `Validation.ValidateAllOrder` | src/nodes/1_data_validation_and_preprocessing.js:11-46 | two surviving records appear in their input order |
| `Indicators.Sma` | src/nodes/2_technical_indicators_calculator.js:11-22 | the accumulate loop computes the mean of the valid values among the last n; empty input or a period above the length gives 0 |
| `Indicators.SmaBetween` | src/nodes/2_technical_indicators_calculator.js:11-22 | with some valid value in the window, the SMA lies between bounds of the window's values |
| `Indicators.Ema` | src/nodes/2_technical_indicators_calculator.js:24-36 | the update loop computes the left fold of `α·x + (1-α)·ema` from the first value |
| `Indicators.EmaKind` | src/nodes/2_technical_indicators_calculator.js:24-36 | the EMA is always a number, NaN exactly when the seed is NaN |
| `Indicators.EmaSingleAndSkip` | src/nodes/2_technical_indicators_calculator.js:24-36 | one element gives itself; a non-finite later entry leaves the EMA unchanged |
| `Indicators.EmaBetween` | src/nodes/2_technical_indicators_calculator.js:24-36 | over bounded finite values the EMA stays within the bounds |
| `Indicators.Rsi` | src/nodes/2_technical_indicators_calculator.js:38-74 | the gains/losses loop computes the RSI function |
| `Indicators.RsiOf` | src/nodes/2_technical_indicators_calculator.js:38-74 | RSI lies in [0,100] and is 50 with fewer than n+1 candles |
| `Indicators.RsiMonotone` | src/nodes/2_technical_indicators_calculator.js:44-73 | with at least n+1 closes (n ≥ 1), a strictly falling series gives 0 and a strictly rising one 100 |
| `Indicators.MacdMethod` | src/nodes/2_technical_indicators_calculator.js:76-95 | computes the MACD triple |
| `Indicators.MacdHistoryLoop` | src/nodes/2_technical_indicators_calculator.js:81-90 | the history loop pushes the non-NaN prefix MACD values from index 26 on |
| `Indicators.MacdProperties` | src/nodes/2_technical_indicators_calculator.js:76-95 | zeros for at most 26 candles; histogram = macdLine − signalLine exactly; the last history entry is macdLine |
| `Indicators.StochRsi` | src/nodes/2_technical_indicators_calculator.js:97-113 | computes the StochRSI function from the RSI history |
| `Indicators.StochRange` | src/nodes/2_technical_indicators_calculator.js:97-113 | StochRSI lies in [0,1] |
| `Indicators.Bollinger` | src/nodes/2_technical_indicators_calculator.js:115-160 | computes the Bollinger bands function |
| `Indicators.Deviations` | src/nodes/2_technical_indicators_calculator.js:134-144 | the variance loop sums squared deviations of the valid closes and counts them |
| `Indicators.BollingerShape` | src/nodes/2_technical_indicators_calculator.js:115-160 | zeros when short or SMA is 0; else middle = SMA and upper − middle = middle − lower ≥ 0 |
| `Indicators.TrueRange` | src/nodes/2_technical_indicators_calculator.js:174 | the true range dominates high−low and both gaps to the previous close, and is ≥ 0 |
| `Indicators.Atr` | src/nodes/2_technical_indicators_calculator.js:162-179 | the true-range loop computes the ATR function |
| `Indicators.AtrNonNegative` | src/nodes/2_technical_indicators_calculator.js:162-179 | ATR ≥ 0, and 0 when fewer true ranges than the period exist |
| `Indicators.ComputeBag` | src/nodes/2_technical_indicators_calculator.js:211-226 | the bag of the twelve indicators |
| `Indicators.BagBounds` | src/nodes/2_technical_indicators_calculator.js:211-226 | rsi in [0,100], stochRsi in [0,1], ATRs ≥ 0, MACD identity, symmetric bands, currentVolume a number |
| `Indicators.CalculateIndicators` | src/nodes/2_technical_indicators_calculator.js:181-237 | one output per input in order; a missing candle array gets the default bag |
| `Pivots.DetectPivots` | src/nodes/3_pivot_points_support_resistance_detection.js:38-66 | the window loop pushes exactly the pivots of every index from 5 to n−6 |
| `Pivots.PushPivotsAt` | src/nodes/3_pivot_points_support_resistance_detection.js:39-65 | after the pivots of the earlier indices, one index appends its R pivot then its S pivot when they exist |
| `Pivots.PivotFacts` | src/nodes/3_pivot_points_support_resistance_detection.js:38-65 | every pivot has 5 ≤ index < n−5, a fully readable window, and price the window max high (R) or min low (S) |
| `Pivots.PivotsUpToOrigin` | src/nodes/3_pivot_points_support_resistance_detection.js:38-65 | a pivot pushed while scanning the indices below i was pushed by the window test of its own index |
| `Pivots.VolumeWeightMeaning` | src/nodes/3_pivot_points_support_resistance_detection.js:47-48 | strength × mean volume = the candle's volume when the mean is positive, else strength is 1 |
| `Pivots.Cluster` | src/nodes/3_pivot_points_support_resistance_detection.js:11-28 | the in-place sort and reduce compute the cluster function |
| `Pivots.ClusterShape` | src/nodes/3_pivot_points_support_resistance_detection.js:11-28 | clustered pivots come from the input, ascend by price, are more than 1.5% apart for positive prices, and re-clustering is the identity |
| `Pivots.MergeKeepsStrength` | src/nodes/3_pivot_points_support_resistance_detection.js:17-21 | every input pivot is matched by an at least as strong survivor |
| `Pivots.SpreadRatio` | src/nodes/3_pivot_points_support_resistance_detection.js:18 | consecutive clustered prices differ by more than 1.5% |
| `Pivots.DetectAll` | src/nodes/3_pivot_points_support_resistance_detection.js:30-103 | the stage's loop emits exactly the surviving records, in order |
| `Pivots.DetectOne` | src/nodes/3_pivot_points_support_resistance_detection.js:33-79 | one record's detection |
| `Pivots.SelectChoice` | src/nodes/3_pivot_points_support_resistance_detection.js:71-79 | the support is the highest clustered support below the close, the resistance the lowest above; age = n − index; tests ≥ 1 for a non-zero support price |
| `Pivots.DetectSelection` | src/nodes/3_pivot_points_support_resistance_detection.js:68-79 | the emitted support/resistance arrays are the clustered ones, sorted, and the support is older than 5 |
| `Pivots.DetectDrops` | src/nodes/3_pivot_points_support_resistance_detection.js:36-74 | a record is dropped iff it has fewer than 11 candles, or no clustered support lies below or no clustered resistance above the close |
| `Pivots.DetectPassThrough` | src/nodes/3_pivot_points_support_resistance_detection.js:81-98 | ticker, date, candles and indicators pass through; `pivots.all` is every detected pivot |
| `Confluence.ConfluenceScores` | src/nodes/4_confluence_score_calculator.js:11-91 | one scored record per input, in order |
| `Confluence.ScoreOne` | src/nodes/4_confluence_score_calculator.js:14-74 | the seven rule steps push exactly the rule table's hits, and the score is their weight sum |
| `Confluence.TrendRule` | src/nodes/4_confluence_score_calculator.js:17-23 | adds the trend rule's hit (if any) and keeps score = weight sum |
| `Confluence.OscillatorRule` | src/nodes/4_confluence_score_calculator.js:25-31 | adds the oscillator rule's hit and keeps score = weight sum |
| `Confluence.MacdRule` | src/nodes/4_confluence_score_calculator.js:33-36 | adds the MACD rule's hit and keeps score = weight sum |
| `Confluence.BandRule` | src/nodes/4_confluence_score_calculator.js:38-41 | adds the Bollinger rule's hit and keeps score = weight sum |
| `Confluence.VolumeRule` | src/nodes/4_confluence_score_calculator.js:43-49 | adds the volume rule's hit and keeps score = weight sum |
| `Confluence.SupportRule` | src/nodes/4_confluence_score_calculator.js:51-57 | adds the support rule's hit and keeps score = weight sum |
| `Confluence.PatternRule` | src/nodes/4_confluence_score_calculator.js:71-74 | adds the hammer hit and keeps score = weight sum |
| `Confluence.FindHammer` | src/nodes/4_confluence_score_calculator.js:59-69 | the scan finds a hammer iff one of the recent readable candles is one |
| `Confluence.ScoreShape` | src/nodes/4_confluence_score_calculator.js:14-74 | score = sum of weights, \|hits\| ≤ score ≤ 2·\|hits\|, score ≤ 11, score 0 iff no hits, hits in rule order |
| `Confluence.RuleConditions` | src/nodes/4_confluence_score_calculator.js:17-74 | each hit is present iff its own condition holds (weaker sibling only when the stronger fails) |
| `Confluence.Boundaries` | src/nodes/4_confluence_score_calculator.js:17-57 | close = sma20 blocks the top trend rule; rsi 45 no oversold hit; rsi 40 the single one; a support tested 3 times at age 9 gives the Reliable-support hit and no other support hit |
| `Confluence.HitsUpToOrdered` | src/nodes/4_confluence_score_calculator.js:17-74 | at most one hit per rule, strictly in rule order |
| `Confluence.HammerWindow` | src/nodes/4_confluence_score_calculator.js:59-69 | the pattern fires iff one of the last five candles is a hammer |
| `Confluence.DojiNeverFires` | src/nodes/4_confluence_score_calculator.js:64-69 | a zero-body candle whose high is at least its open and close is never a hammer |
| `Confluence.InvertedDojiFires` | src/nodes/4_confluence_score_calculator.js:64-69 | a zero-body candle at 100 with high 90 and low 80 is a hammer, since nothing orders high above open |
| `Confluence.HammerFixture` | src/nodes/4_confluence_score_calculator.js:64-69 | the 2480/2485/2420/2475 candle is not a hammer; with high 2481 it is |
| `EntryExit.EntryExitAll` | src/nodes/5_entry_exit_calculator.js:11-67 | the loop emits exactly the planned records, in order |
| `EntryExit.PlanOne` | src/nodes/5_entry_exit_calculator.js:14-63 | one record's levels and strategy, or a drop |
| `EntryExit.StrategyFor` | src/nodes/5_entry_exit_calculator.js:34-43 | the ladder never yields 'Wait for Pullback' |
| `EntryExit.EntryPositive` | src/nodes/5_entry_exit_calculator.js:14-28 | a setup with risk has positive support, entry and ATR, so the gap's division is defined |
| `EntryExit.PlanGate` | src/nodes/5_entry_exit_calculator.js:25-32 | kept iff risk > 0, reward > 0 and reward ≥ 1.8·risk |
| `EntryExit.PlanLevels` | src/nodes/5_entry_exit_calculator.js:14-32 | stop < entry < target; stop is one of entry − 1.5·ATR and 0.97·support and at least both; target is one of entry + 2·ATR and resistance and at most both; entry is 1.005·support iff strength > 1.2, else support |
| `EntryExit.PlanOutput` | src/nodes/5_entry_exit_calculator.js:24-63 | rounded stop ≤ entry ≤ target, rounded R:R ≥ 1.8, gap formula, strategy buckets as iffs, lots unrounded, fields passed through |
| `EntryExit.StrengthBoundary` | src/nodes/5_entry_exit_calculator.js:14 | strength exactly 1.2 gives no premium, 1.21 does |
| `Backtest.BacktestAll` | src/nodes/6_backtest_engine.js:11-77 | the loop emits exactly the tested records, in order |
| `Backtest.CountTrades` | src/nodes/6_backtest_engine.js:14-39 | the trigger loop counts the tally of the scan window |
| `Backtest.ScanForward` | src/nodes/6_backtest_engine.js:23-37 | the forward loop with its flags and break yields the first resolving outcome |
| `Backtest.Trades` | src/nodes/6_backtest_engine.js:17-39 | wins + losses ≤ total ≤ number of scanned indices |
| `Backtest.Bonus` | src/nodes/6_backtest_engine.js:50-52 | the bonus is at most 2 |
| `Backtest.ScanWindow` | src/nodes/6_backtest_engine.js:15-17 | the scan starts at 20 for n ≤ 120 and at n − 100 beyond, never below 20 |
| `Backtest.ResolveLoss` | src/nodes/6_backtest_engine.js:25-37 | a loss iff the first readable candle reaching a level hits the stop (checked first) |
| `Backtest.ResolveWin` | src/nodes/6_backtest_engine.js:25-37 | a win iff the first candle reaching a level misses the stop and reaches the target |
| `Backtest.TestGate` | src/nodes/6_backtest_engine.js:41-46 | kept iff total ≥ 5 and wins ≥ 0.52·total |
| `Backtest.TestOutput` | src/nodes/6_backtest_engine.js:41-76 | wins + losses ≤ total, total ≥ 5, 0.52 ≤ rate ≤ 1, 52 ≤ percentage ≤ 100, score rises by the bonus (≤ 2), hits and other fields unchanged |
| `Backtest.NoTriggerDropped` | src/nodes/6_backtest_engine.js:17-41 | a history that never reaches the entry is dropped |
| `PositionSizing.SizeAll` | src/nodes/7_position_sizing_risk_management.js:15-56 | exactly one row per record, in order |
| `PositionSizing.ConfigDefaults` | src/nodes/7_position_sizing_risk_management.js:12-13 | missing, zero or NaN settings default to 100000 and 5000000; other numbers are used |
| `PositionSizing.QtyLimits` | src/nodes/7_position_sizing_risk_management.js:18-20 | qty ≥ 1; above 1 it fits the loss budget and, for positive entry, the capital, and one more would not |
| `PositionSizing.TotalCostWithinCapital` | src/nodes/7_position_sizing_risk_management.js:19-25 | when capital buys one lot, total cost ≤ capital |
| `PositionSizing.SizeAmounts` | src/nodes/7_position_sizing_risk_management.js:18-24 | qty ≥ 1, positive nominal loss and profit in the risk:reward proportion, expectancy the rounded balance |
| `PositionSizing.ExpectancyNonNegative` | src/nodes/7_position_sizing_risk_management.js:24 | win rate ≥ 0.52 and reward ≥ 1.8·risk give a positive balance and a non-negative expectancy |
| `PositionSizing.PhaseCases` | src/nodes/7_position_sizing_risk_management.js:27-28 | Uptrend iff close > sma20 > sma50, Downtrend iff close < sma20 < sma50, else Sideways |
| `PositionSizing.PhaseEqualAverages` | src/nodes/7_position_sizing_risk_management.js:27-28 | a close of 2500 or 2300 against two equal 2400 averages is Sideways |
| `PositionSizing.SizeCopies` | src/nodes/7_position_sizing_risk_management.js:30-53 | levels, backtest figures, score and hits are copied from the nested record |
| `Recommendation.RecommendAll` | src/nodes/8_action_recommendation_engine.js:13-38 | the loop emits exactly the gated, labelled records, in order |
| `Recommendation.ThresholdDefault` | src/nodes/8_action_recommendation_engine.js:11 | a missing, zero or NaN threshold is 2; any other number is used |
| `Recommendation.RecommendGate` | src/nodes/8_action_recommendation_engine.js:16-37 | kept iff score ≥ threshold; the kept record is the input unchanged |
| `Recommendation.LadderCases` | src/nodes/8_action_recommendation_engine.js:18-30 | each label iff its own rung's conditions; 'Manual review required' never |
| `Recommendation.LowRatioFallsToBuy` | src/nodes/8_action_recommendation_engine.js:20-23 | STRONG BUY metrics with R:R below 2 give BUY |
| `Recommendation.RecommendOrder` | src/nodes/8_action_recommendation_engine.js:13-38 | kept records keep their input order |
| `Pipeline.Run` | src/index.js:47-151 | the staged run, with its early exits on an empty stage result, returns exactly the nine stages composed over the rows |
| `Pipeline.Prepare` | src/index.js:55-70 | grouping (returning early when no stock is grouped) then validation |
| `Pipeline.AfterValidation` | src/index.js:72-145 | the early exit on no validated stock, then the remaining stages, gives the composed later stages |
| `Pipeline.Locate` | src/index.js:77-87 | indicators then pivot detection |
| `Pipeline.AfterLevels` | src/index.js:89-145 | the early exit on no support/resistance levels, then the remaining stages, gives the composed later stages |
| `Pipeline.Trade` | src/index.js:94-115 | confluence, entry/exit (returning early when no setup is left) and backtest |
| `Pipeline.AfterBacktest` | src/index.js:117-145 | the early exit on no backtested stock, then sizing and recommendation |
| `Pipeline.TestedOfSound` | src/index.js:55-115 | every backtested record names a distinct ticker of the rows, has ordered levels with R:R ≥ 1.8, ≥ 5 trades and a win rate between 52% and 100% |
| `Pipeline.SignalsSound` | src/index.js:47-151 | every recommendation names a row's ticker, at most once, and is a sound labelled signal |
| `Pipeline.SizeSignal` | src/nodes/7_position_sizing_risk_management.js:18-24 | sizing a backtested plan gives ordered levels, ≥ 5 trades, ≥ 52% wins, qty ≥ 1, profit ≥ 1.8·loss, expectancy ≥ 0 |
| `Pipeline.PlanKeyed` | src/nodes/5_entry_exit_calculator.js:11-67 | planned records keep their tickers distinct and have ordered levels with R:R ≥ 1.8 |
| `Pipeline.TestKeyed` | src/nodes/6_backtest_engine.js:11-77 | tested records keep tickers distinct and pass the trade gates |
| `Pipeline.RecommendFinal` | src/nodes/8_action_recommendation_engine.js:13-38 | recommendations of sound positions are final signals with distinct tickers |
| `Pipeline.ParseKeyed` | src/nodes/parse_and_slice.js:12-35 | parsed tickers are row keys, pairwise distinct |
| `Pipeline.FilterMapKeyed` | src/nodes/1_data_validation_and_preprocessing.js:11-46 | a drop-or-emit loop that keeps each record's ticker keeps tickers distinct |

## Left out

- Date parsing, ISO formatting and the fallback to today's date. Dates are
  integer keys, so a missing or unparsable last date cannot be expressed and
  the fallback `src/nodes/parse_and_slice.js:27-31` takes for it is not
  modelled; `today` is a parameter.
- The iteration order of `Object.entries`. JavaScript lists integer-like keys
  first; the model keeps first-appearance order.
- Floating point. Arithmetic is exact on reals, and `toFixed` rounds exact
  half-way values away from zero. The binary-double effects of `toFixed`,
  `Math.round` and comparisons are not modelled. Infinity does not exist;
  every division by zero the code can reach is handled at its site.
- `ParseAndSlice.ToNumber`: hexadecimal (`0x`), binary (`0b`) and octal
  (`0o`) literals and `Infinity` text are NaN in the model, while unary plus
  reads `"0x10"` as 16 and `"Infinity"` as Infinity; the model has no
  infinite number, and the volume column carries decimal figures.
- `PositionSizing.Size`: a zero last close gives a NaN resistance distance,
  where JavaScript gives ±Infinity or NaN.
- Text formatting:
  - `toLocaleString('id-ID')` of the money amounts;
  - the decimal text inside hit strings and `hits.join(' | ')`;
  - `supportStrength` as a string.

  Amounts stay numbers, hits are a tagged datatype and strength a rounded number.
- `Math.sqrt` is a parameter with non-negative results, not the real square root.
- A truthy candles value that is not an array is treated as missing, in
  validation and in the indicator stage.
- A configuration value that is a non-numeric truthy value (text) is treated
  as missing, so its default is used. JavaScript would compute with the
  coerced value.
- `Indicators.StochRsi`, `Indicators.Atr`: require period ≥ 1, because a
  period of 0 divides by zero in the source; the stage only uses 14 and 21.
- `Indicators.CalculateIndicators`: the record's `isValid` is not read by the
  stage and is not carried forward.
- Exceptions (a missing `macd`, `support` or `indicators` field) are not
  modelled: those fields are required by the record types.
- The `console` logging and the `try`/`catch` re-throw of `src/index.js`, its
  mock `$`/`$input` builders, and the example run.
- The O(n²) cost of the MACD and StochRSI history reconstruction; only the
  values are modelled.
