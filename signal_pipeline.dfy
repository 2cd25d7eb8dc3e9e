/** The generic `StrategyRunner` of the strategy package: per price, mark the
    simulator, update the statistics, gate on availability, compute the
    strategy's signal, drop it if it repeats the last one, dispatch it. */
module SignalPipeline {
  import opened Prices
  import opened Windows
  import opened DistinctFilter

  /** Calls made on the simulator and the strategy, in order. */
  datatype Event<S> =
    | Begin(cash: real)      // strategy.onBegin
    | Mark(price: Price)     // simulator.setCurrentPrice
    | Signal(signal: S)      // strategy.onSignal
    | End                    // strategy.onEnd

  /** The strategy's `mapPriceToSignal`: a price and the live statistics (None for null). */
  type SignalMap<S> = (Price, Option<seq<Price>>) -> S

  /** The runner's state: the statistics sample (raw prices, non-finite ones
      included), the last dispatched signal, and the calls made so far. */
  datatype RunState<S> = RunState(window: seq<Price>, lastSignal: S, trace: seq<Event<S>>)

  /** The pipeline for one price. */
  function Step<S(==)>(windowSize: int, mapPriceToSignal: SignalMap<S>, st: RunState<S>, price: Price): RunState<S>
  {
    var marked := st.trace + [Mark(price)];
    var window := Push(st.window, windowSize, price);
    if !Available(window, windowSize) then RunState(window, st.lastSignal, marked)
    else
      var signal := mapPriceToSignal(price, Some(window));
      if signal == st.lastSignal then RunState(window, st.lastSignal, marked)
      else RunState(window, signal, marked + [Signal(signal)])
  }

  /** The pipeline for every price of a stream, each completing before the next. */
  function Steps<S(==)>(windowSize: int, mapPriceToSignal: SignalMap<S>, st: RunState<S>, prices: seq<Price>): RunState<S>
    decreases |prices|
  {
    if prices == [] then st
    else Step(windowSize, mapPriceToSignal, Steps(windowSize, mapPriceToSignal, st, prices[..|prices| - 1]), prices[|prices| - 1])
  }

  /** Reference definition of the signals computed before de-duplication: one per
      price after which the statistics are available. */
  function Computed<S>(windowSize: int, mapPriceToSignal: SignalMap<S>, window: seq<Price>, prices: seq<Price>): seq<S>
    decreases |prices|
  {
    if prices == [] then []
    else
      var after := PushAll(window, windowSize, prices);
      Computed(windowSize, mapPriceToSignal, window, prices[..|prices| - 1])
        + if Available(after, windowSize) then [mapPriceToSignal(prices[|prices| - 1], Some(after))] else []
  }

  /** The signals passed to `onSignal` in a trace. */
  function Signals<S>(trace: seq<Event<S>>): seq<S>
    decreases |trace|
  {
    if trace == [] then []
    else Signals(trace[..|trace| - 1]) + if trace[|trace| - 1].Signal? then [trace[|trace| - 1].signal] else []
  }

  /** The prices passed to `setCurrentPrice` in a trace. */
  function Marks<S>(trace: seq<Event<S>>): seq<Price>
    decreases |trace|
  {
    if trace == [] then []
    else Marks(trace[..|trace| - 1]) + if trace[|trace| - 1].Mark? then [trace[|trace| - 1].price] else []
  }

  lemma {:induction false} SignalsAppend<S>(a: seq<Event<S>>, b: seq<Event<S>>)
    ensures Signals(a + b) == Signals(a) + Signals(b)
    decreases |b|
  {
    if b != [] {
      assert (a + b)[..|a + b| - 1] == a + b[..|b| - 1];
      SignalsAppend(a, b[..|b| - 1]);
    } else {
      assert a + b == a;
    }
  }

  lemma {:induction false} MarksAppend<S>(a: seq<Event<S>>, b: seq<Event<S>>)
    ensures Marks(a + b) == Marks(a) + Marks(b)
    decreases |b|
  {
    if b != [] {
      assert (a + b)[..|a + b| - 1] == a + b[..|b| - 1];
      MarksAppend(a, b[..|b| - 1]);
    } else {
      assert a + b == a;
    }
  }

  /** Running two streams one after the other is running their concatenation;
      in particular `applyPrice` price by price equals one `applyPrices`. */
  lemma {:induction false} StepsAppend<S>(windowSize: int, f: SignalMap<S>, st: RunState<S>, ps: seq<Price>, qs: seq<Price>)
    ensures Steps(windowSize, f, st, ps + qs) == Steps(windowSize, f, Steps(windowSize, f, st, ps), qs)
    decreases |qs|
  {
    if qs != [] {
      assert (ps + qs)[..|ps + qs| - 1] == ps + qs[..|qs| - 1];
      StepsAppend(windowSize, f, st, ps, qs[..|qs| - 1]);
    } else {
      assert ps + qs == ps;
    }
  }

  /** One price adds one `setCurrentPrice` call and the price to the sample, and
      dispatches the computed signal iff the statistics are then available and
      the signal differs from the last one. */
  lemma StepEffect<S>(windowSize: int, f: SignalMap<S>, st: RunState<S>, price: Price)
    ensures var out := Step(windowSize, f, st, price);
            var window := Push(st.window, windowSize, price);
            var dispatch := Available(window, windowSize) && f(price, Some(window)) != st.lastSignal;
            && out.window == window
            && Marks(out.trace) == Marks(st.trace) + [price]
            && Signals(out.trace) == Signals(st.trace) + (if dispatch then [f(price, Some(window))] else [])
            && out.lastSignal == if dispatch then f(price, Some(window)) else st.lastSignal
  {
  }

  /** Every price reaches the simulator, in arrival order, and every price
      reaches the statistics, whether or not a signal follows. */
  lemma {:induction false} EveryPriceMarkedAndCounted<S>(windowSize: int, f: SignalMap<S>, st: RunState<S>, prices: seq<Price>)
    ensures Marks(Steps(windowSize, f, st, prices).trace) == Marks(st.trace) + prices
    ensures Steps(windowSize, f, st, prices).window == PushAll(st.window, windowSize, prices)
    decreases |prices|
  {
    if prices != [] {
      var prefix := prices[..|prices| - 1];
      EveryPriceMarkedAndCounted(windowSize, f, st, prefix);
      StepEffect(windowSize, f, Steps(windowSize, f, st, prefix), prices[|prices| - 1]);
      assert prefix + [prices[|prices| - 1]] == prices;
    }
  }

  /** The calls to `onSignal` are exactly the computed signals passed through a
      distinct-until-changed filter whose slot starts at `lastSignal`, and
      `lastSignal` is then the filter's slot. */
  lemma {:induction false} DispatchIsDistinctFilter<S>(windowSize: int, f: SignalMap<S>, st: RunState<S>, prices: seq<Price>)
    ensures var out := Steps(windowSize, f, st, prices);
            var computed := Computed(windowSize, f, st.window, prices);
            && Signals(out.trace) == Signals(st.trace) + Accepted(st.lastSignal, computed)
            && out.lastSignal == LastSeen(st.lastSignal, computed)
            && out.window == PushAll(st.window, windowSize, prices)
    decreases |prices|
  {
    if prices != [] {
      var prefix := prices[..|prices| - 1];
      var price := prices[|prices| - 1];
      var mid := Steps(windowSize, f, st, prefix);
      var computedBefore := Computed(windowSize, f, st.window, prefix);
      DispatchIsDistinctFilter(windowSize, f, st, prefix);
      SlotIsLastAccepted(st.lastSignal, computedBefore);
      StepEffect(windowSize, f, mid, price);
      var window := Push(mid.window, windowSize, price);
      assert window == PushAll(st.window, windowSize, prices);
      if Available(window, windowSize) {
        var computed := computedBefore + [f(price, Some(window))];
        assert Computed(windowSize, f, st.window, prices) == computed;
        assert computed[..|computed| - 1] == computedBefore;
      } else {
        assert Computed(windowSize, f, st.window, prices) == computedBefore;
      }
    }
  }

  /** A fresh runner never dispatches the same signal twice in a row, and its
      first dispatched signal differs from the initial sentinel. */
  lemma DispatchedSignalsDistinct<S>(windowSize: int, f: SignalMap<S>, prices: seq<Price>)
    ensures var sentinel := f(NaN, None);
            var dispatched := Signals(Steps(windowSize, f, RunState([], sentinel, []), prices).trace);
            && NoAdjacentDuplicates(dispatched)
            && (dispatched != [] ==> dispatched[0] != sentinel)
  {
    var sentinel := f(NaN, None);
    DispatchIsDistinctFilter(windowSize, f, RunState([], sentinel, []), prices);
    AcceptedIsDistinct(sentinel, Computed(windowSize, f, [], prices));
  }

  /** From an empty statistics object no signal is computed for the first
      Threshold - 1 prices, and one is computed for every price after that. */
  lemma {:induction false} SignalsComputedFromThreshold<S>(windowSize: int, f: SignalMap<S>, prices: seq<Price>)
    ensures |Computed(windowSize, f, [], prices)| ==
              if |prices| < Threshold(windowSize) then 0 else |prices| - Threshold(windowSize) + 1
    decreases |prices|
  {
    if prices != [] {
      SignalsComputedFromThreshold(windowSize, f, prices[..|prices| - 1]);
      AvailableIff(prices, windowSize);
    }
  }

  /** Processing prices only appends `setCurrentPrice` and `onSignal` calls. */
  lemma {:induction false} StepsOnlyAppendMarksAndSignals<S>(windowSize: int, f: SignalMap<S>, st: RunState<S>, prices: seq<Price>)
    ensures var out := Steps(windowSize, f, st, prices).trace;
            && |out| >= |st.trace| && out[..|st.trace|] == st.trace
            && forall i :: |st.trace| <= i < |out| ==> out[i].Mark? || out[i].Signal?
    decreases |prices|
  {
    if prices != [] {
      StepsOnlyAppendMarksAndSignals(windowSize, f, st, prices[..|prices| - 1]);
    }
  }

  /** The calls a `runStrategy` appends: `onBegin` first, `onEnd` last and
      nowhere else, so exactly once. */
  lemma RunIsBracketed<S>(windowSize: int, f: SignalMap<S>, window: seq<Price>, lastSignal: S, cash: real, prices: seq<Price>)
    ensures var run := Steps(windowSize, f, RunState(window, lastSignal, [Begin(cash)]), prices).trace + [End];
            && run[0] == Begin(cash) && run[|run| - 1] == End
            && forall i :: 0 <= i < |run| - 1 ==> !run[i].End?
  {
    StepsOnlyAppendMarksAndSignals(windowSize, f, RunState(window, lastSignal, [Begin(cash)]), prices);
  }

  class StrategyRunner<S(==)> {
    const mapPriceToSignal: SignalMap<S>
    const windowSize: int
    /** The values of `windowPriceStats` (windowSize > 0) or `infinitePriceStats`. */
    var window: seq<Price>
    var lastSignal: S
    ghost var trace: seq<Event<S>>

    /** A windowed sample never holds more than windowSize prices. */
    ghost predicate Inv()
      reads this
    {
      windowSize > 0 ==> |window| <= windowSize
    }

    ghost function State(): RunState<S>
      reads this
    {
      RunState(window, lastSignal, trace)
    }

    /** `lastSignal` starts as the strategy's signal for a NaN price without statistics. */
    constructor (mapPriceToSignal: SignalMap<S>, windowSize: int)
      ensures this.mapPriceToSignal == mapPriceToSignal && this.windowSize == windowSize
      ensures State() == RunState([], mapPriceToSignal(NaN, None), []) && Inv()
    {
      this.mapPriceToSignal := mapPriceToSignal;
      this.windowSize := windowSize;
      window := [];
      lastSignal := mapPriceToSignal(NaN, None);
      trace := [];
    }

    /** The statistics object of the mode: the sample, at most windowSize prices
        with a window. */
    function GetPriceStatistics(): (stats: seq<Price>)
      reads this
      requires Inv()
      ensures stats == window
      ensures windowSize > 0 ==> |stats| <= windowSize
    {
      window
    }

    method UpdatePriceStatistics(price: Price)
      requires Inv()
      modifies this`window
      ensures Inv()
      ensures window == Push(old(window), windowSize, price)
    {
      window := Push(window, windowSize, price);
    }

    /** n >= windowSize with a window, n >= 1 without one. */
    function ArePriceStatisticsAvailable(): (b: bool)
      reads this
      ensures b <==> |window| >= Threshold(windowSize)
    {
      Available(window, windowSize)
    }

    /** Runs the pipeline on every price of the stream, in order. */
    method ApplyPrices(prices: seq<Price>)
      requires Inv()
      modifies this
      ensures Inv()
      ensures State() == Steps(windowSize, mapPriceToSignal, old(State()), prices)
    {
      for i := 0 to |prices|
        invariant Inv()
        invariant State() == Steps(windowSize, mapPriceToSignal, old(State()), prices[..i])
      {
        var price := prices[i];
        trace := trace + [Mark(price)];
        UpdatePriceStatistics(price);
        if ArePriceStatisticsAvailable() {
          var signal := mapPriceToSignal(price, Some(GetPriceStatistics()));
          if signal != lastSignal {
            lastSignal := signal;
            trace := trace + [Signal(signal)];
          }
        }
        assert prices[..i + 1][..i] == prices[..i];
      }
      assert prices[..|prices|] == prices;
    }

    /** The pipeline for a stream of one price. */
    method ApplyPrice(price: Price)
      requires Inv()
      modifies this
      ensures Inv()
      ensures State() == Step(windowSize, mapPriceToSignal, old(State()), price)
    {
      ApplyPrices([price]);
      assert [price][..0] == [];
    }

    /** `onBegin`, the prices, then `onEnd` exactly once, also when the stream
        fails after delivering `prices`; the failure is then passed on. */
    method RunStrategy(initialCashBalance: real, prices: seq<Price>, streamFails: bool) returns (failed: bool)
      requires Inv()
      modifies this
      ensures Inv()
      ensures failed == streamFails
      ensures var run := Steps(windowSize, mapPriceToSignal,
                               RunState(old(window), old(lastSignal), old(trace) + [Begin(initialCashBalance)]), prices);
              && window == run.window && lastSignal == run.lastSignal
              && trace == run.trace + [End]
    {
      trace := trace + [Begin(initialCashBalance)];
      ApplyPrices(prices);
      // finally
      trace := trace + [End];
      failed := streamFails;
    }
  }
}
