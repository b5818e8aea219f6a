# signalengine in Dafny

A Dafny model of the signal engine's core: the pieces that turn one-minute
OHLCV bars into binary UP/DOWN trade signals, merge them, replay them over
history, and drive the live per-bar loop.

- **Indicators** (`indicators.dfy`): the exponential moving average seeded
  with the first value, and the relative strength index with Wilder
  smoothing (zero until `period` differences are available, 100 when the
  average loss is zero).
- **Candlestick primitives** (`candles.dfy`): body and range of a bar,
  bullish and bearish pin bars, engulfing pairs, and `revDir`, the
  latest-first search for a reversal pattern.
- **Scorers**:
  - `candlestick_scorer.dfy`: UP/DOWN at confidence 0.5 with a one-minute
    TTL from the last two bars;
  - `ema_scorer.dfy`: UP/DOWN at confidence 0.6 with a one-minute TTL from
    an EMA(8)/EMA(21) crossover confirmed by the close;
  - `divergence_scorer.dfy`: UP/DOWN at confidence 0.8 with a two-minute
    TTL from a price/RSI divergence over the last 20 bars, confirmed by a
    reversal among the last 3 bars.
- **Scanner** (`scanner.dfy`): input validation, then the three scorers'
  signals in the order divergence, EMA, candlestick. Only the first signal
  of each (symbol, direction, TTL) key is kept.
- **Backtester** (`backtester.dfy`): runs the scanner at every 50-bar window
  of each sorted symbol series. It enters after a delay and exits after an
  expiry, both given as durations and turned into whole bars. It classifies
  each trade as a win, loss or neutral, and reports the counters and the
  accuracy over decisive trades. The scanner's report at every bar of a
  series is held as `Backtester.Scans`, which `Backtester.ScansAt` ties to
  the scanner. A trade slot is one signal reported at a window position
  whose entry and exit bars lie inside the series. The model proves that
  the report holds one trade per trade slot and nothing else. Each
  position's trades sit at a fixed offset: after the slots of the earlier
  symbol entries and of the earlier positions of its own series. So the
  blocks of distinct positions never overlap and follow entry order, then
  window order.
- **Orchestrator** (`orchestrator.dfy`): the per-bar step of the live loop.
  - Each bar joins its symbol's history, which is trimmed to 50 bars.
  - From 20 bars on, the history is scored by the divergence scorer, using
    the orchestrator's own copy of the RSI routine.
  - A non-empty result is handed to the publisher as one batch.
- **Fixtures** (`fixtures.dfy`): the repository's test vectors, restated as
  lemmas over exact reals.

Representation choices:
- Prices and indicator values are `real`, so no rounding is modelled.
- Instants are `int`.
- Durations are `int` nanoseconds, as Go's `time.Duration` is. Go's
  truncating integer division is written out (`Types.TruncDiv`).
- Directions are the datatype `Up | Down`, for the strings "UP" and "DOWN".
- `revDir`'s empty string is `None`.
- The scanner's error is a `Result`.
- Contexts and loggers are dropped: they only log.
- The backtester's `map[string][]Candle` is a sequence of (symbol, bars)
  pairs. The model proves that the counters and the accuracy do not depend
  on the order of that sequence, so Go's random map iteration order does not
  matter for them.

Observations from the source:
- `internal/delivery/orchestrator.go:60` calls `ScoreRSIDivergence` with
  three arguments, while the function takes five (context and logger
  first). The model treats it as the five-argument call with the context
  and logger dropped.
- The scanner test named "deduplicate"
  (`internal/usecase/signal_pattern_scanner_test.go:49-70`, `90-99`) never
  exercises deduplication. Bar 19 opens level with bar 18's close, so the
  engulfing test's strict inequality fails and only the EMA scorer fires
  (`Fixtures.ScanEmaOnlyFixture`). The variant in
  `internal/testutils/signal_pattern_data.go:42-63` opens bar 19 at 0.98.
  There the EMA and candlestick scorers both report a one-minute UP, and
  the merge drops the second one (`Fixtures.ScanDuplicateFixture`).

## Model

| member | source | states |
|---|---|---|
| Types.Closes | internal/usecase/backtester.go:47-50 | the closes series has one entry per bar, equal to that bar's close |
| Types.TruncDiv | internal/usecase/backtester.go:64-65 | Go's integer division of a duration by a minute truncates toward zero: for non-negative durations the quotient is the floor, for negative ones it rounds up |
| Candles.Body | internal/usecase/rsi_divergence_scorer.go:110 | the body is the absolute open-to-close distance: non-negative and equal to one of the two signed differences |
| Candles.IsBullishPinBar | internal/usecase/rsi_divergence_scorer.go:113-120 | a bullish pin bar has a positive range, a body of at most a third of it, and a lower wick of at least two thirds |
| Candles.IsBearishPinBar | internal/usecase/rsi_divergence_scorer.go:122-129 | a bearish pin bar has a positive range, a body of at most a third of it, and an upper wick of at least two thirds |
| Candles.IsBullishEngulfing | internal/usecase/rsi_divergence_scorer.go:131-141 | holds exactly when the bar is not the first, rises, and its open is below and its close above the falling previous body |
| Candles.IsBearishEngulfing | internal/usecase/rsi_divergence_scorer.go:143-153 | holds exactly when the bar is not the first, falls, and its open is above and its close below the rising previous body |
| Candles.PinBarsExclusive | internal/usecase/rsi_divergence_scorer.go:113-129 | no bar is both a bullish and a bearish pin bar |
| Candles.EngulfingExclusive | internal/usecase/rsi_divergence_scorer.go:131-153 | no bar is both a bullish and a bearish engulfing of its predecessor |
| Candles.RevScanNone | internal/usecase/rsi_divergence_scorer.go:97-107 | the backward scan over a prefix finds nothing exactly when no bar of that prefix shows a reversal pattern |
| Candles.RevScanUp | internal/usecase/rsi_divergence_scorer.go:97-104 | the scan reports UP exactly when some bar is bullish and every later bar of the prefix shows no pattern |
| Candles.RevScanDown | internal/usecase/rsi_divergence_scorer.go:97-104 | the scan reports DOWN exactly when some bar is bearish but not bullish (the bullish test is made first) and every later bar shows no pattern |
| Candles.RevDirSpec | internal/usecase/rsi_divergence_scorer.go:93-108 | `revDir` returns the direction of the latest bar with a pattern, UP when that bar is bullish, DOWN when it is only bearish, nothing when no bar shows one |
| Indicators.CalcEMA | internal/usecase/ema.go:4-15 | the output is as long as the input, starts with the first value, and blends each later value with the previous output using `2 / (period + 1)` |
| Indicators.EmaUnique | internal/usecase/ema.go:9-13 | that recurrence determines the EMA: any two series satisfying it are equal |
| Indicators.EmaOfConstant | internal/usecase/ema.go:4-15 | a constant input has the same constant EMA |
| Indicators.EmaWithinBounds | internal/usecase/ema.go:9-13 | with a positive period every EMA value lies within the input's lower and upper bounds |
| Indicators.EmaSnoc | internal/usecase/ema.go:11-13 | the EMA of a longer input extends the EMA of the shorter one by one blended value |
| Indicators.WeightInUnit | internal/usecase/ema.go:9 | for a positive period the smoothing constant lies in (0, 1] |
| Indicators.SeedGain | internal/usecase/rsi.go:11-19 | the summed gain over the first differences is non-negative |
| Indicators.SeedLoss | internal/usecase/rsi.go:11-19 | the summed loss over the first differences is non-negative |
| Indicators.Smooth | internal/usecase/rsi.go:30-36 | Wilder's update of non-negative averages stays non-negative |
| Indicators.WilderAverages | internal/usecase/rsi.go:20-36 | the smoothed average gain and loss at every index from `period` on are non-negative |
| Indicators.RsiOf | internal/usecase/rsi.go:22-27 | an RSI value lies in [0, 100] and is exactly 100 when the average loss is zero |
| Indicators.CalcRSI | internal/usecase/rsi.go:6-45 | one value per close; all zero when there are at most `period` closes; zero before index `period`; every value in [0, 100] |
| Indicators.RsiSeedWithoutLoss | internal/usecase/rsi.go:12-23 | when none of the first `period` differences falls, the first RSI value is 100 |
| Indicators.SeedLossZero | internal/usecase/rsi.go:12-19 | without a falling difference among the first `m`, the summed loss is zero |
| Indicators.WilderStep | internal/usecase/rsi.go:28-36 | each later step moves both averages toward the current gain (loss) by `1 / period` of the distance, Wilder's textbook form |
| Indicators.SmoothingForm | internal/usecase/rsi.go:31-35 | the source's update `(avg * (p - 1) + x) / p` equals `avg + (x - avg) / p` |
| CandlestickScorer.ScoreCandlestickPatterns | internal/usecase/candlestick_classifier_scorer.go:14-41 | nothing below two bars; UP exactly when the last bar is bullish (engulfing or pin bar), DOWN exactly when it is bearish, UP listed first; confidence 0.5 and a one-minute TTL; at most two signals |
| CandlestickScorer.CandlestickLastTwo | internal/usecase/candlestick_classifier_scorer.go:26-34 | only the last two bars influence the classification |
| EmaScorer.ScoreEMAInteractions | internal/usecase/ema_interaction_scorer.go:14-52 | nothing on fewer than two bars or mismatched EMA lengths; UP exactly on an upward crossover confirmed by a close above EMA(8); DOWN exactly on the mirror case; confidence 0.6 and a one-minute TTL; at most one signal |
| EmaScorer.EmaLastTwo | internal/usecase/ema_interaction_scorer.go:26-46 | only the last two bars and EMA entries are consulted |
| DivergenceScorer.SwingScan | internal/usecase/rsi_divergence_scorer.go:39-50 | the swing search ends at the first bar with the highest high and the first bar with the lowest low of the range; each flag is set exactly when some later bar beats bar 0 |
| DivergenceScorer.FirstHighestUnique | internal/usecase/rsi_divergence_scorer.go:41-45 | the first highest bar of a range is unique |
| DivergenceScorer.FirstLowestUnique | internal/usecase/rsi_divergence_scorer.go:46-49 | the first lowest bar of a range is unique |
| DivergenceScorer.Emit | internal/usecase/rsi_divergence_scorer.go:57-89 | the bearish check appends one DOWN, then the bullish check one UP, each at confidence 0.8 with a two-minute TTL |
| DivergenceScorer.ScoreWindow | internal/usecase/rsi_divergence_scorer.go:33-89 | on a 20-bar window: DOWN exactly on a bearish divergence (swing points exist, higher high than the prior swing high, lower RSI there, latest reversal bearish); UP exactly on the bullish mirror; at most one signal |
| DivergenceScorer.DivergenceSelect | internal/usecase/rsi_divergence_scorer.go:39-75 | the scan's flags mean some swing point exists, and its indices give the same divergence tests as the unique first-highest and first-lowest bars |
| DivergenceScorer.SelectHigh | internal/usecase/rsi_divergence_scorer.go:59-60 | the bearish comparison at the first highest bar is the comparison at any bar with that property |
| DivergenceScorer.SelectLow | internal/usecase/rsi_divergence_scorer.go:74-75 | the bullish comparison at the first lowest bar is the comparison at any bar with that property |
| DivergenceScorer.ScoreRSIDivergence | internal/usecase/rsi_divergence_scorer.go:15-90 | nothing on fewer than 20 bars or an RSI series of another length; at most one signal, at confidence 0.8 with a two-minute TTL |
| DivergenceScorer.DivergenceOnWindow | internal/usecase/rsi_divergence_scorer.go:21-30 | on valid input the scorer looks only at the last 20 bars and the last 20 RSI values |
| DivergenceScorer.DivergenceDownIff | internal/usecase/rsi_divergence_scorer.go:59-72 | a DOWN is reported exactly on a bearish divergence confirmed by a bearish reversal |
| DivergenceScorer.DivergenceUpIff | internal/usecase/rsi_divergence_scorer.go:74-87 | an UP is reported exactly on a bullish divergence confirmed by a bullish reversal |
| DivergenceScorer.NoSwingNoSignal | internal/usecase/rsi_divergence_scorer.go:51-54 | when no bar of the swing range breaks bar 0's high or low, nothing is reported |
| DivergenceScorer.DivergenceLastWindow | internal/usecase/rsi_divergence_scorer.go:27-30 | the result on a long series equals the result on its last 20 bars |
| Scanner.DedupFrom | internal/usecase/signal_pattern_scanner.go:31-49 | the merge never produces more signals than it is given |
| Scanner.DedupFromSpec | internal/usecase/signal_pattern_scanner.go:32-40 | the merge keeps signals with distinct keys not already seen, in their input order, each the first of its key; every unseen key of the input survives |
| Scanner.Dedup | internal/usecase/signal_pattern_scanner.go:31-49 | from an empty key set: unique keys, an order-preserving subsequence, each kept signal the first of its key, every input key represented |
| Scanner.DedupFromUnique | internal/usecase/signal_pattern_scanner.go:33-40 | signals whose keys are distinct and unseen pass through the merge unchanged |
| Scanner.DedupIdempotent | internal/usecase/signal_pattern_scanner.go:31-49 | merging an already merged list changes nothing |
| Scanner.ScanSignalPatterns | internal/usecase/signal_pattern_scanner.go:14-52 | an error exactly when there are fewer than 20 bars or an indicator series of another length; otherwise the divergence, EMA and candlestick signals (at most four) with later duplicates of a key removed, as the dedup properties state |
| Backtester.SortedFrom | internal/usecase/backtester.go:131-138 | the check succeeds exactly when no bar from the given index on is timestamped before its predecessor |
| Backtester.SortedPairwise | internal/usecase/backtester.go:131-138 | the adjacent check is the same as every earlier bar being no later than every later bar |
| Backtester.Classify | internal/usecase/backtester.go:83-108 | a win when the exit close moved in the signal's direction, a loss when it moved against it, neutral exactly when it did not move |
| Backtester.WindowAt | internal/usecase/backtester.go:45-46 | the window at position `i` is the 50 bars ending at `i` |
| Backtester.ScanAtNeverFails | internal/usecase/backtester.go:52-59 | the indicators computed over a window always match its length, so the scan never takes the error branch |
| Backtester.Trades | internal/usecase/backtester.go:75-110 | one trade per signal, keeping its direction, stamped with the entry and exit times, and classified from the entry and exit closes |
| Backtester.ResultsAt | internal/usecase/backtester.go:60-81 | at one window position whose entry and exit bars lie inside the series: exactly one trade per reported signal, in the signals' order and directions, each entered and exited at the shifted bars and classified from their closes; otherwise no trade |
| Backtester.ScansAt | internal/usecase/backtester.go:45-62 | the stored report at every window position is exactly what the scanner reports there, an error counting as no signal |
| Backtester.ResultsFrom | internal/usecase/backtester.go:45-121 | every trade of the window positions from `i` on was opened at one of them, in the direction of a signal the scanner reported there, with entry and exit bars inside the series |
| Backtester.ResultsFromStep | internal/usecase/backtester.go:45-121 | trades of the current position followed by trades of later ones all come from positions at or after the current one, each for a reported signal |
| Backtester.ResultsFromBlock | internal/usecase/backtester.go:45-81 | for a tradable position `p` from `i` on, the trades of `i` onward hold one trade per signal reported at `p`, in order and direction, entered at `p`'s shifted bars, starting right after the trade slots of positions `i` to `p - 1` |
| Backtester.ResultsFromComplete | internal/usecase/backtester.go:45-81 | no trade is missed: every tradable position from `i` on has its block of one trade per reported signal among the trades, at the offset given by the trade slots of the positions before it |
| Backtester.TradeSlotsMonotone | internal/usecase/backtester.go:45-81 | later window positions have no more trade slots left than earlier ones |
| Backtester.BlocksInWindowOrder | internal/usecase/backtester.go:45-81 | the block of a tradable position ends no later than where the block of any later position starts: blocks of one series do not overlap and follow window order |
| Backtester.ResultsFromCount | internal/usecase/backtester.go:45-121 | nothing else is reported: the trade count from `i` on is the sum of the report sizes over the tradable positions |
| Backtester.SymbolResults | internal/usecase/backtester.go:40-43 | a series shorter than 50 bars or unsorted contributes nothing; otherwise every trade was opened at some window position for a signal the scanner reported there |
| Backtester.SymbolResultsComplete | internal/usecase/backtester.go:40-121 | for a long enough, sorted series, the trade count is the sum of the report sizes over the tradable positions, and every tradable position yields one trade per signal the scanner reports there, in order, right after the slots of the earlier positions |
| Backtester.Count | internal/usecase/backtester.go:112-119 | an outcome count never exceeds the number of trades |
| Backtester.TallyOf | internal/usecase/backtester.go:110-119 | the running counters equal the number of trades and the per-outcome counts, and the three outcome counters add up to the total |
| Backtester.Accuracy | internal/usecase/backtester.go:124-126 | the accuracy lies in [0, 1], is zero without decisive trades, and otherwise times the decisive count gives the wins |
| Backtester.ReportOf | internal/usecase/backtester.go:110-128 | the report lists the trades, counts them by outcome, and computes the accuracy from the win and loss counts |
| Backtester.BacktestSignals | internal/usecase/backtester.go:32-129 | every reported trade comes from a sorted series of at least 50 bars for its own symbol and was opened there for a signal the scanner reported; the total is the number of trade slots of all such series; the counters and the accuracy agree with the reported trades |
| Backtester.AllResultsFromData | internal/usecase/backtester.go:40-121 | every trade of a run comes from its symbol's long, sorted series |
| Backtester.AllResultsCount | internal/usecase/backtester.go:40-121 | a run's trade count is the sum of the trade slots of its long, sorted series |
| Backtester.AllResultsComplete | internal/usecase/backtester.go:40-121 | every tradable window position of every long, sorted series of a run has its block of one trade per reported signal among the run's trades, at its run offset: the slots of the earlier entries plus those of the earlier positions of its series |
| Backtester.DataSlotsMonotone | internal/usecase/backtester.go:36-44 | a longer prefix of the symbol entries has no fewer trade slots |
| Backtester.DataSlotsStep | internal/usecase/backtester.go:36-44 | one more entry adds exactly that entry's trade slots, none for a short or unsorted series |
| Backtester.RunBlocksInOrder | internal/usecase/backtester.go:36-81 | run offsets follow entry order, then window order, and the block at one offset ends no later than the next one starts, so no two positions share trades |
| Backtester.BacktestSignalsComplete | internal/usecase/backtester.go:32-129 | the report misses no trade: for every symbol with a long, sorted series and every window position whose entry and exit bars lie inside it, the results hold one trade per signal the scanner reports there, in order, with its direction and the shifted entry and exit, at that position's run offset |
| Backtester.WinLossReport | internal/usecase/backtester.go:110-128 | one win and one loss give a total of 2, one win, one loss, no neutral and an accuracy of 0.5 |
| Backtester.CountAppend | internal/usecase/backtester.go:110-119 | counting an outcome distributes over concatenation |
| Backtester.CountFlattenPerm | internal/usecase/backtester.go:40-119 | outcome counts over symbol blocks depend only on the multiset of blocks |
| Backtester.SymbolBlocks | internal/usecase/backtester.go:40 | one block of trades per symbol, each that symbol's trades |
| Backtester.AllResultsFlatten | internal/usecase/backtester.go:40-121 | a run's trades are the symbols' blocks laid end to end |
| Backtester.SymbolBlocksPerm | internal/usecase/backtester.go:40 | reordering the symbols permutes their blocks |
| Backtester.CountsIgnoreSymbolOrder | internal/usecase/backtester.go:40-119 | the number of trades of each outcome does not depend on the order in which symbols are visited |
| Backtester.ReportIgnoresSymbolOrder | internal/usecase/backtester.go:32-129 | total, wins, losses, neutrals and accuracy do not depend on the symbol order, so Go's random map order cannot change them |
| Backtester.ExitPastEndNoResults | internal/usecase/backtester.go:64-68 | a series whose first possible exit bar lies past its end contributes no trade |
| Orchestrator.LastN | internal/delivery/orchestrator.go:48-50 | trimming keeps the last `n` elements (or all of a shorter sequence), in order |
| Orchestrator.AppendBar | internal/delivery/orchestrator.go:47-51 | the new history ends with the bar, keeps the newest earlier bars, and holds at most 50 bars |
| Orchestrator.AppendBarTrailing | internal/delivery/orchestrator.go:47-51 | trimming before appending gives the same history as trimming after |
| Orchestrator.CalcRSICopy | internal/delivery/orchestrator.go:72-111 | the orchestrator's private RSI routine computes exactly the same values as the shared `CalcRSI` |
| Orchestrator.WilderLoop | internal/delivery/orchestrator.go:86-109 | from the seed averages, the first value and the smoothing loop fill in exactly the shared RSI values |
| Orchestrator.RsiValue | internal/delivery/orchestrator.go:88-93 | the copy's RSI formula gives the shared RSI value at that index |
| Orchestrator.SeedSums | internal/delivery/orchestrator.go:77-85 | the first loop sums the gains and losses of the first `period` differences |
| Orchestrator.WilderUpdate | internal/delivery/orchestrator.go:95-102 | one iteration of the second loop turns the averages at `i - 1` into the shared Wilder averages at `i` |
| Orchestrator.SmoothStep | internal/delivery/orchestrator.go:96-101 | the copy's four update expressions are Wilder's smoothing step |
| Orchestrator.ScoreHistory | internal/delivery/orchestrator.go:52-60 | a history below 20 bars is not scored; a scored one yields at most one signal |
| Orchestrator.Step | internal/delivery/orchestrator.go:47-67 | after a bar, its symbol's history has at most 50 bars, ends with the bar and keeps the newest earlier bars in order; the stored symbols gain exactly the bar's symbol and every other history is unchanged; the published batches keep the earlier ones and gain at most one, which is non-empty and equals the signals of the new history, and none exactly when there are no signals |
| Orchestrator.BarsOf | internal/delivery/orchestrator.go:43-51 | a symbol's bars in arrival order all carry that symbol |
| Orchestrator.RunHistory | internal/delivery/orchestrator.go:47-51 | after any feed, each symbol's history is the newest (up to) 50 of that symbol's bars |
| Orchestrator.RunHistoriesBounded | internal/delivery/orchestrator.go:47-51 | every stored history is non-empty, at most 50 bars, and holds only its own symbol's bars |
| Orchestrator.RunKeys | internal/delivery/orchestrator.go:47-51 | a symbol has a stored history exactly when one of its bars arrived |
| Orchestrator.PublishedNonEmpty | internal/delivery/orchestrator.go:61-67 | the publisher is only ever handed non-empty batches |
| Orchestrator.StepPublishesNonEmpty | internal/delivery/orchestrator.go:61-67 | a step keeps the earlier batches and adds only a non-empty one |
| Orchestrator.StepMessageCount | internal/delivery/orchestrator.go:55-67 | one step adds the signals of the bar's new history to the message count |
| Orchestrator.PublishedMatchesExpected | internal/delivery/orchestrator_harness_test.go:15-38 | the number of messages published over any feed equals the count of a replay that keeps one trailing 50-bar window per symbol; the harness's own count keeps one window over all symbols and agrees only for single-symbol feeds, which `SingleSymbolExpected` proves |
| Orchestrator.SingleSymbolPublished | internal/delivery/orchestrator_harness_test.go:15-38 | for a single-symbol feed, the messages published equal the signals of every trailing window of its prefixes |
| Orchestrator.SingleSymbolExpected | internal/delivery/orchestrator_harness_test.go:19-36 | for one symbol, the per-symbol expectation equals the plain trailing-window replay |
| Fixtures.Bar | internal/usecase/rsi_divergence_scorer_test.go:22-29 | a fixture bar belongs to the fixture symbol |
| Fixtures.RsiAlternatingVector | internal/usecase/rsi_test.go:5-17 | RSI(2) of 1, 2, 1, 2, 1, 2, 1 is 0, 0, 50, 75, 37.5, 68.75, 34.375 |
| Fixtures.CandlestickBullishEngulfingFixture | internal/usecase/candlestick_classifier_scorer_test.go:42-48 | the bullish engulfing pair gives one UP |
| Fixtures.CandlestickBearishPinFixture | internal/usecase/candlestick_classifier_scorer_test.go:50-56 | the bearish pin bar gives one DOWN |
| Fixtures.CandlestickFlatFixture | internal/usecase/candlestick_classifier_scorer_test.go:58-67 | two flat bars give nothing |
| Fixtures.EmaBullishCrossFixture | internal/usecase/ema_interaction_scorer_test.go:51-57 | the upward crossover gives one UP |
| Fixtures.EmaBearishCrossFixture | internal/usecase/ema_interaction_scorer_test.go:59-65 | the downward crossover gives one DOWN |
| Fixtures.EmaNoCrossFixture | internal/usecase/ema_interaction_scorer_test.go:67-76 | flat EMAs give nothing |
| Fixtures.DivergenceBars | internal/usecase/rsi_divergence_scorer_test.go:18-61 | the test's 20 bars: flat, a swing low at bar 16, and a final bar closing at the given price |
| Fixtures.DivergenceBarsSymbol | internal/usecase/rsi_divergence_scorer_test.go:21-29 | every test bar carries the test symbol |
| Fixtures.DivergenceRsi | internal/usecase/rsi_divergence_scorer_test.go:30-59 | the test's RSI is 30 at the swing low and 40 at the last bar |
| Fixtures.DivergenceTail | internal/usecase/rsi_divergence_scorer_test.go:39-58 | the last three test bars |
| Fixtures.EngulfingReversal | internal/usecase/rsi_divergence_scorer_test.go:51-55 | a final close above 0.6 makes the last three bars reverse UP |
| Fixtures.PinReversal | internal/usecase/rsi_divergence_scorer_test.go:51-57 | a final close at 0.45 makes the last three bars reverse DOWN (a bearish pin bar) |
| Fixtures.NoBearishDivergence | internal/usecase/rsi_divergence_scorer_test.go:18-61 | no test bar's high exceeds bar 0's, so there is no bearish divergence whatever the RSI |
| Fixtures.DivergenceBullishFixture | internal/usecase/rsi_divergence_scorer_test.go:66-76 | with a final close above 0.6 and RSI higher at the last bar than at the swing low, exactly one UP |
| Fixtures.BullishOnDivergenceShape | internal/usecase/rsi_divergence_scorer_test.go:66-76 | any bars agreeing with the test bars in the fields the scorer reads give exactly one UP |
| Fixtures.ShapeBullish | internal/usecase/rsi_divergence_scorer_test.go:66-76 | such bars show a bullish divergence |
| Fixtures.ShapeNotBearish | internal/usecase/rsi_divergence_scorer_test.go:66-76 | such bars show no bearish divergence |
| Fixtures.OnlyBullish | internal/usecase/rsi_divergence_scorer.go:57-89 | a bullish divergence without a bearish one yields exactly one UP |
| Fixtures.DivergenceWithoutReversalFixture | internal/usecase/rsi_divergence_scorer_test.go:78-84 | with the bearish final bar nothing is reported, whatever the RSI |
| Fixtures.Series | internal/usecase/signal_pattern_scanner_test.go:49-70 | twenty indicator values, the last two as given |
| Fixtures.DupBars | internal/usecase/signal_pattern_scanner_test.go:49-70 | eighteen flat bars followed by the test's bars 18 and 19 |
| Fixtures.ScanInvalidFixture | internal/usecase/signal_pattern_scanner_test.go:75-80 | ten bars and a nine-value EMA series are rejected |
| Fixtures.ScanDivergenceFixture | internal/usecase/signal_pattern_scanner_test.go:82-88 | the divergence data with flat EMAs gives two signals: the divergence UP, then the candlestick UP |
| Fixtures.ScanDivergenceBars | internal/usecase/signal_pattern_scanner_test.go:11-47 | on the divergence bars the scanner reports the divergence UP, the EMA scorer's result, then the candlestick UP |
| Fixtures.DivergenceMergeUnique | internal/usecase/signal_pattern_scanner.go:31-49 | the divergence UP, at most one DOWN and the candlestick UP carry distinct keys |
| Fixtures.DivergenceBarsLastTwo | internal/usecase/signal_pattern_scanner_test.go:41-45 | on the divergence bars the EMA and candlestick scorers depend only on bars 18 and 19, and the candlestick scorer reports UP |
| Fixtures.ScanFromParts | internal/usecase/signal_pattern_scanner.go:27-51 | when the three scorers' results share no key, the scanner returns them all in order |
| Fixtures.ScanEmaOnlyFixture | internal/usecase/signal_pattern_scanner_test.go:90-99 | the "deduplicate" data gives exactly one signal, the EMA UP |
| Fixtures.ScanDuplicateFixture | internal/testutils/signal_pattern_data.go:42-63 | the duplicate data gives a single signal: the EMA UP survives and the identical-key candlestick UP is dropped |
| Fixtures.ScanDistinctFixture | internal/testutils/signal_pattern_data.go:11-38 | the distinct data gives three signals, one per scorer: divergence UP, EMA DOWN, candlestick UP |
| Fixtures.CandlestickBullish | internal/usecase/candlestick_classifier_scorer.go:29-34 | a rising bar engulfing a falling one, without a bearish pin, gives one UP |
| Fixtures.NoSwingDupBars | internal/usecase/rsi_divergence_scorer.go:51-54 | the duplicate bars have no swing point, so the divergence scorer is silent |
| Fixtures.FlatSeeds | internal/usecase/rsi.go:12-19 | flat closes have zero summed gain and loss |
| Fixtures.OrchestratorRsi | internal/delivery/orchestrator_test.go:68-74 | RSI(14) over the test closes is 0 at the swing low and positive at the last bar |
| Fixtures.DivergenceCloses | internal/delivery/orchestrator_test.go:68-74 | the same RSI facts for any closes shaped like the test's |
| Fixtures.OrchestratorScoresBullish | internal/delivery/orchestrator_test.go:68-74 | the orchestrator scores the bullish test history as one UP |
| Fixtures.TrailingSignalsShort | internal/delivery/orchestrator.go:52-54 | feeds below 20 bars publish nothing |
| Fixtures.TwentyBarFeed | internal/delivery/orchestrator.go:47-67 | a 20-bar single-symbol feed publishes the signals of its full history once |
| Fixtures.OrchestratorSignalFixture | internal/delivery/orchestrator_test.go:55-87 | the bullish test feed publishes one message |
| Fixtures.OrchestratorNoSignalFixture | internal/delivery/orchestrator_test.go:55-87 | the bearish test feed publishes nothing |

## Left out

- The market-data adapter (`internal/infrastructure/finage_adapter.go`), the
  statistics exporter, `main`, the mocks and logging. They are I/O and
  wiring outside the signal logic.
- The orchestrator's channel loop, cancellation and stream errors. The live
  loop is modelled as a fold of `Orchestrator.Step` over a finite feed.
- Message formatting (`internal/delivery/telegram_formatter.go`). Each
  published batch is counted as one message per signal, which is what the
  formatter produces.
- Publish errors. The orchestrator only logs them, so they do not change
  the state.
- The harness test's reconnecting feed, which replays one sequence twice.
  It is covered by the general `Orchestrator.PublishedMatchesExpected` for
  any feed, not as a concrete fixture.
- The backtester tests' 60-bar synthetic series
  (`internal/usecase/backtester_test.go:11-49`). Their outcomes need RSI and
  EMA over eleven 50-bar windows of concrete values.
- Backtester.WinLossReport: restates only the counter and accuracy
  expectations of the second backtester test
  (`internal/usecase/backtester_test.go:51-66`) for one win and one loss,
  not the run over that test's synthetic series.
- IEEE-754 arithmetic: rounding, NaN and infinities. `Indicators.CalcRSI`
  requires `period >= 1`; in Go a zero period gives NaN and a negative one
  panics. `Indicators.CalcEMA` requires `period != -1`; in Go that period
  divides by zero.
- Backtester.BacktestSignals: requires `SafeShifts` of the delay and expiry
  (in whole minutes). Under other shifts the Go code can index before the
  series or, with a negative expiry, past its end, and panic. The model
  does not describe a panicking run.
- The divergence scorer's `lookback <= 0` early return
  (`internal/usecase/rsi_divergence_scorer.go:33-37`). The window always
  has 20 bars, so `lookback` is always 17 and the branch is unreachable.
- The trade's `Reason` text is modelled (`Backtester.Reason`) but carries no
  contract of its own.
- `internal/interface/marketfeed.go` is a stale duplicate of the market-feed
  port. It is not part of this model.
