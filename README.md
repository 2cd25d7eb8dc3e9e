# Bollinger-Band breakout: signal path

A Dafny model of the signal path of a Bollinger-Band breakout trading strategy.

- **Classifier.** A price is classified against a band of mean ± factor · stddev into one of six `BandOrientation`s (`TAUtils`).
- **Strategy.** The breakout strategy keeps a price statistics holder, stores the orientation it computes, and maps that orientation to a `PositionSignal` (`BreakOutStrategy`, `PriceWithStatistics`).
- **Runners.** Two runners drive a price stream through the simulator, the statistics and the strategy callbacks. The runner of the strategy package also drops repeated signals.
- **Filter.** A one-slot "distinct until changed" predicate (`DistinctUntilChangedFilter`).

Files and modules:

- `prices.dfy` (`Prices`): the price, the statistics snapshot and the mean/stddev estimator.
- `windows.dfy` (`Windows`): how the statistics library keeps its sample.
  - A `DescriptiveStatistics` with a window (windowSize > 0) evicts the oldest value once full.
  - A `SummaryStatistics` (windowSize ≤ 0) keeps every value.
  - The same file has the availability test on the count.
- `ta_utils.dfy` (`TAUtils`): the classifier, with the stddev factor as a parameter. The two-argument form is factor 2.0.
- `price_with_statistics.dfy` (`PriceStats`): the class `PriceWithStatistics`.
- `position_signal.dfy` (`PositionSignals`) and `breakout_strategy.dfy` (`BreakOut`): the class `BreakOutStrategy` and its orientation-to-signal table.
- `distinct_filter.dfy` (`DistinctFilter`): the filter class and `Accepted`, the values a filter lets through a sequence.
- `signal_pipeline.dfy` (`SignalPipeline`): the generic `StrategyRunner` of the strategy package.
- `close_runner.dfy` (`CloseRunner`): the `StrategyRunner` of the breakout package.

How state is modelled:

- Each class keeps the fields the source updates in place. Its methods state the new state in terms of the old state through specification functions (`Push`, `Step`, `Steps`, `RunCloses`, `Accepted`). Lemmas about those functions carry the properties.
- Calls on the external simulator (`setCurrentPrice`) and on the abstract strategy (`onBegin`, `onClose`, `onSignal`, `onEnd`) are recorded in a ghost trace of events.
- The strategy behind the generic runner is a function parameter `mapPriceToSignal`. Its statistics argument is `None` where the source passes `null`.

Only `PriceWithStatistics` ignores non-finite prices. Both runners pass every raw price, NaN and ±Infinity included, to `DescriptiveStatistics.addValue` / `SummaryStatistics.addValue`. These add the value to the sample and raise the count. So the runners' samples are `seq<Price>`, and non-finite prices count toward availability.

## Model

| member | source | states |
|---|---|---|
| Windows.PushRecent | src/main/java/ch/brunostuessy/algo/breakout/PriceWithStatistics.java:57-62 | one windowed `addValue` on the most recent windowSize values yields the most recent windowSize values of the extended stream |
| Windows.PushAllFromEmpty | src/main/java/ch/brunostuessy/algo/breakout/PriceWithStatistics.java:25-30 | starting from empty statistics, the sample is exactly the most recent windowSize values (all of them in continuous mode) |
| Windows.RecentCount | src/main/java/ch/brunostuessy/algo/breakout/PriceWithStatistics.java:28-29 | n = min(values given, windowSize) with a window, n = values given without one |
| Windows.AvailableIff | src/main/java/ch/brunostuessy/algo/breakout/PriceWithStatistics.java:44-50 | statistics are available iff at least windowSize values (1 in continuous mode) were given |
| Windows.ContinuousKeepsAll | src/main/java/ch/brunostuessy/algo/breakout/PriceWithStatistics.java:29-29 | with windowSize ≤ 0 no value is ever evicted: the sample is the old sample followed by every new value |
| Windows.PushKeepsAvailable | src/main/java/ch/brunostuessy/algo/breakout/PriceWithStatistics.java:44-63 | adding a value never makes available statistics unavailable |
| TAUtils.CalculateBollingerBandOrientation | src/main/java/ch/brunostuessy/algo/ta/TAUtils.java:7-30 | INVALID iff the price is not finite, the statistics are null or n < 1; otherwise, for a band of non-negative width, the result is the band zone the price lies in, with edges belonging to the inner zone |
| TAUtils.CalculateTwoSigmaOrientation | src/main/java/ch/brunostuessy/algo/ta/TAUtils.java:13-17 | the same with the factor fixed at 2.0 |
| TAUtils.ZonesDetermineOrientation | src/main/java/ch/brunostuessy/algo/ta/TAUtils.java:19-29 | for a band of non-negative width the zones do not overlap: any zone the price is in is the computed orientation |
| TAUtils.BelowBandIsBelowLower | src/main/java/ch/brunostuessy/algo/ta/TAUtils.java:17-20 | a price strictly below mean − factor·stddev is BELOWLOWER |
| TAUtils.AboveBandIsAboveUpper | src/main/java/ch/brunostuessy/algo/ta/TAUtils.java:16-22 | a price not below the lower edge and strictly above mean + factor·stddev is ABOVEUPPER |
| TAUtils.EdgesAreMiddle | src/main/java/ch/brunostuessy/algo/ta/TAUtils.java:19-26 | with stddev > 0 and factor > 0 a price exactly on the lower (upper) edge is BELOWMIDDLE (ABOVEMIDDLE) |
| TAUtils.OnMiddleIffMean | src/main/java/ch/brunostuessy/algo/ta/TAUtils.java:23-28 | for a band of non-negative width the result is ONMIDDLE iff price == mean |
| TAUtils.ZeroWidthBand | src/main/java/ch/brunostuessy/algo/ta/TAUtils.java:16-28 | with stddev = 0 a price below / above / on the mean is BELOWLOWER / ABOVEUPPER / ONMIDDLE |
| TAUtils.Monotone | src/main/java/ch/brunostuessy/algo/ta/TAUtils.java:19-29 | for fixed statistics and a band of non-negative width the orientation is monotone in price along BELOWLOWER < BELOWMIDDLE < ONMIDDLE < ABOVEMIDDLE < ABOVEUPPER |
| PriceStats.LastAccepted | src/main/java/ch/brunostuessy/algo/breakout/PriceWithStatistics.java:26-26 | the last value is finite iff some finite value was accepted (NaN before) |
| PriceStats.PriceWithStatistics.constructor | src/main/java/ch/brunostuessy/algo/breakout/PriceWithStatistics.java:25-30 | initially the last value is NaN, the sample is empty and the holder is not valid |
| PriceStats.PriceWithStatistics.GetLast | src/main/java/ch/brunostuessy/algo/breakout/PriceWithStatistics.java:32-34 | the last value is the most recent accepted finite value, NaN if there is none |
| PriceStats.PriceWithStatistics.GetStatistics | src/main/java/ch/brunostuessy/algo/breakout/PriceWithStatistics.java:36-42 | the statistics' n is the size of the most recent windowSize accepted values (all of them in continuous mode) |
| PriceStats.PriceWithStatistics.IsValid | src/main/java/ch/brunostuessy/algo/breakout/PriceWithStatistics.java:44-50 | valid iff at least windowSize finite values (1 in continuous mode) were accepted |
| PriceStats.PriceWithStatistics.AddValue | src/main/java/ch/brunostuessy/algo/breakout/PriceWithStatistics.java:52-63 | a non-finite value changes nothing; a finite one becomes the last value and is added to the sample; validity is never lost |
| PriceStats.SampleCount | src/main/java/ch/brunostuessy/algo/breakout/PriceWithStatistics.java:57-62 | in windowed mode n = min(accepted, windowSize) |
| PriceStats.ValidFirstAtWindowSize | src/main/java/ch/brunostuessy/algo/breakout/PriceWithStatistics.java:10-12 | in windowed mode the holder is not valid after windowSize − 1 finite values and is valid after windowSize |
| BreakOut.PositionSignalFor | src/main/java/ch/brunostuessy/algo/breakout/BreakOutStrategy.java:67-87 | the orientation-to-signal table; reading it backwards gives back the orientation |
| BreakOut.PositionSignalInjective | src/main/java/ch/brunostuessy/algo/breakout/BreakOutStrategy.java:67-87 | distinct orientations give distinct position signals |
| BreakOut.BreakOutStrategy.constructor | src/main/java/ch/brunostuessy/algo/breakout/BreakOutStrategy.java:21-25 | a fresh strategy owns fresh, empty statistics with the given window size and estimator, and holds INVALID, for every windowSize |
| BreakOut.BreakOutStrategy.MapPriceToPriceStats | src/main/java/ch/brunostuessy/algo/breakout/BreakOutStrategy.java:35-38 | adds the price to the shared statistics and returns that same object |
| BreakOut.BreakOutStrategy.MapPriceStatsToSignal | src/main/java/ch/brunostuessy/algo/breakout/BreakOutStrategy.java:48-55 | INVALID when the statistics are not valid, else the classification of the last price with the strategy's factor; the result is stored in the field; it is INVALID iff the statistics are not valid |
| BreakOut.BreakOutStrategy.MapSignalToPositionSignal | src/main/java/ch/brunostuessy/algo/breakout/BreakOutStrategy.java:64-90 | the signal is the table entry of the stored orientation, whatever the argument, and no state changes |
| DistinctFilter.SlotIsLastAccepted | src/main/java/ch/brunostuessy/algo/function/DistinctUntilChangedFilter.java:21-22 | after any sequence of tests the slot holds the last accepted value, or the initial value if none was accepted |
| DistinctFilter.AcceptedIsDistinct | src/main/java/ch/brunostuessy/algo/function/DistinctUntilChangedFilter.java:21-22 | the accepted values never have two equal neighbours, and the first differs from the initial slot |
| DistinctFilter.DistinctIsAcceptedWhole | src/main/java/ch/brunostuessy/algo/function/DistinctUntilChangedFilter.java:17-22 | a sequence without equal neighbours whose first value differs from the slot is accepted whole |
| DistinctFilter.FilterIdempotent | src/main/java/ch/brunostuessy/algo/function/DistinctUntilChangedFilter.java:17-22 | filtering the accepted values again with a fresh filter accepts all of them |
| DistinctFilter.RepeatRejected | src/main/java/ch/brunostuessy/algo/function/DistinctUntilChangedFilter.java:21-22 | of two consecutive equal values the second is rejected |
| DistinctFilter.DistinctUntilChangedFilter.constructor | src/main/java/ch/brunostuessy/algo/function/DistinctUntilChangedFilter.java:17-17 | the slot starts as null, so the first test accepts iff its argument is non-null |
| DistinctFilter.DistinctUntilChangedFilter.Test | src/main/java/ch/brunostuessy/algo/function/DistinctUntilChangedFilter.java:20-23 | returns true iff the argument differs from the previous one; the slot then holds the argument; the accepted sequence grows by the argument exactly when true is returned |
| SignalPipeline.StepEffect | src/main/java/ch/brunostuessy/algo/strategy/StrategyRunner.java:74-91 | one price marks the simulator and enters the statistics; a signal is dispatched iff the statistics are then available and the computed signal differs from lastSignal, which then becomes that signal |
| SignalPipeline.EveryPriceMarkedAndCounted | src/main/java/ch/brunostuessy/algo/strategy/StrategyRunner.java:74-77 | every price reaches setCurrentPrice in arrival order and enters the statistics, whether or not a signal follows |
| SignalPipeline.StepsAppend | src/main/java/ch/brunostuessy/algo/strategy/StrategyRunner.java:67-71 | running two streams one after the other equals running their concatenation, so applyPrice price by price equals one applyPrices |
| SignalPipeline.DispatchIsDistinctFilter | src/main/java/ch/brunostuessy/algo/strategy/StrategyRunner.java:81-91 | the onSignal calls are the computed signals passed through a distinct-until-changed filter seeded with lastSignal, and lastSignal ends as that filter's slot |
| SignalPipeline.DispatchedSignalsDistinct | src/main/java/ch/brunostuessy/algo/strategy/StrategyRunner.java:42-91 | a fresh runner never dispatches the same signal twice in a row, and its first dispatched signal differs from the sentinel signal for (NaN, null) |
| SignalPipeline.SignalsComputedFromThreshold | src/main/java/ch/brunostuessy/algo/strategy/StrategyRunner.java:77-80 | from fresh statistics no signal is computed for the first Threshold − 1 prices and one is computed for every later price |
| SignalPipeline.StepsOnlyAppendMarksAndSignals | src/main/java/ch/brunostuessy/algo/strategy/StrategyRunner.java:73-92 | processing prices only appends setCurrentPrice and onSignal calls to what happened before |
| SignalPipeline.RunIsBracketed | src/main/java/ch/brunostuessy/algo/strategy/StrategyRunner.java:53-60 | a run's calls start with onBegin and end with onEnd, which occurs exactly once |
| SignalPipeline.StrategyRunner.constructor | src/main/java/ch/brunostuessy/algo/strategy/StrategyRunner.java:33-43 | empty statistics, an empty trace, and lastSignal = the strategy's signal for (NaN, null) |
| SignalPipeline.StrategyRunner.GetPriceStatistics | src/main/java/ch/brunostuessy/algo/strategy/StrategyRunner.java:94-100 | the statistics of the mode: the sample, at most windowSize prices with a window |
| SignalPipeline.StrategyRunner.ArePriceStatisticsAvailable | src/main/java/ch/brunostuessy/algo/strategy/StrategyRunner.java:110-116 | available iff the sample holds at least windowSize prices (1 without a window) |
| SignalPipeline.StrategyRunner.UpdatePriceStatistics | src/main/java/ch/brunostuessy/algo/strategy/StrategyRunner.java:102-108 | the price, finite or not, is added to the windowed or continuous sample |
| SignalPipeline.StrategyRunner.ApplyPrices | src/main/java/ch/brunostuessy/algo/strategy/StrategyRunner.java:73-92 | the new state is the per-price pipeline applied to each price in order |
| SignalPipeline.StrategyRunner.ApplyPrice | src/main/java/ch/brunostuessy/algo/strategy/StrategyRunner.java:67-71 | the new state is the pipeline applied to the one price |
| SignalPipeline.StrategyRunner.RunStrategy | src/main/java/ch/brunostuessy/algo/strategy/StrategyRunner.java:53-60 | onBegin, the pipeline over the prices, then onEnd, also when the stream fails; a failure is passed on |
| CloseRunner.CloseEventsShape | src/main/java/ch/brunostuessy/algo/breakout/StrategyRunner.java:58-65 | the close reaches the simulator first; onClose follows with the same close iff the statistics are available after the update |
| CloseRunner.OnCloseFromThreshold | src/main/java/ch/brunostuessy/algo/breakout/StrategyRunner.java:84-90 | from fresh statistics onClose skips the first Threshold − 1 closes (windowSize − 1 with a window, none without) and receives every later close in stream order |
| CloseRunner.EveryCloseMarked | src/main/java/ch/brunostuessy/algo/breakout/StrategyRunner.java:58-59 | every close reaches setCurrentPrice, in stream order |
| CloseRunner.RunClosesOnlyMarksAndCloses | src/main/java/ch/brunostuessy/algo/breakout/StrategyRunner.java:58-65 | processing closes makes only setCurrentPrice and onClose calls |
| CloseRunner.RunIsBracketed | src/main/java/ch/brunostuessy/algo/breakout/StrategyRunner.java:48-55 | a run's calls start with onBegin and end with onEnd, which occurs exactly once |
| CloseRunner.StrategyRunner.constructor | src/main/java/ch/brunostuessy/algo/breakout/StrategyRunner.java:29-36 | empty close statistics and an empty trace |
| CloseRunner.StrategyRunner.GetCloseStatistics | src/main/java/ch/brunostuessy/algo/breakout/StrategyRunner.java:68-74 | the statistics of the mode: the sample, at most windowSize closes with a window |
| CloseRunner.StrategyRunner.AreCloseStatisticsAvailable | src/main/java/ch/brunostuessy/algo/breakout/StrategyRunner.java:84-90 | available iff the sample holds at least windowSize closes (1 without a window) |
| CloseRunner.StrategyRunner.UpdateCloseStatistics | src/main/java/ch/brunostuessy/algo/breakout/StrategyRunner.java:76-82 | the close, finite or not, is added to the windowed or continuous sample |
| CloseRunner.StrategyRunner.RunClose | src/main/java/ch/brunostuessy/algo/breakout/StrategyRunner.java:58-65 | marks the simulator, adds the close to the statistics, then calls onClose with the close iff the statistics are available |
| CloseRunner.StrategyRunner.RunStrategy | src/main/java/ch/brunostuessy/algo/breakout/StrategyRunner.java:48-55 | onBegin, runClose for every close in order, then onEnd, also when the stream fails; a failure is passed on |

## Left out

- Mean and standard deviation are not computed. `PriceWithStatistics` takes them from an abstract `Estimator` over its sample, passed to its constructor (and to `BreakOutStrategy`'s). Floating-point numerics of the statistics library are not modelled. The classifier lemmas that need it state stddev ≥ 0 (a non-negative band width) as a hypothesis.
- Prices are real numbers or one non-finite case. NaN, +Infinity and −Infinity are not distinguished: every branch in the core goes through `Double.isFinite`. Rounding of `mean ± factor · stddev` is not modelled.
- `PriceWithStatistics` keeps one `sample` field where the source keeps two statistics objects, one of them null. The mode is fixed by `windowSize`, as in the source.
- The simulator is not modelled; only `setCurrentPrice` calls are recorded. Cash, positions and orders are left out. So is the position-taking logic (close-then-open flips, leave-market at the end): no core file implements it.
- The one-tick lookahead delay buffer is not modelled: no core file contains one.
- The `Strategy` interface of the strategy package declares none of `mapPriceToSignal`, `onBegin`, `onSignal` and `onEnd`, which the generic runner calls. The generic runner's strategy is modelled as an abstract signal function plus trace events. The breakout package's `Strategy` declares `onBegin`, `onClose` and `onEnd`, which the close runner calls; they are trace events.
- `mapPriceToSignal` is a pure function of the price and the statistics. A strategy with state of its own is not captured, for example `BreakOutStrategy` with its own `PriceWithStatistics`.
- Both runners hand the strategy a snapshot of the sample (`seq<Price>`). The code passes the live, mutable statistics object instead. Aliasing of that object, and changes the strategy could make to it, are not captured. `TAUtils` declares a two-argument classifier while `BreakOutStrategy` calls a three-argument one. The model has one classifier with a factor; the two-argument form is factor 2.0.
- `Objects.requireNonNull` in the generic runner's constructor is not modelled: Dafny references cannot be null.
- Exceptions: only a price stream that fails after delivering its prices is modelled (the `streamFails` flag). Exceptions thrown by the simulator or by strategy callbacks are not modelled.
- `AtomicReference` in `DistinctUntilChangedFilter` is modelled as a plain field; atomicity under concurrent use is not captured. `Objects.equals` is Dafny equality on `Option<V>`, with `None` as null.
- CSV price providers, the command-line simulator entry point and logging are I/O and are not part of this model.
