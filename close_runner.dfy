/** The `StrategyRunner` of the breakout package: per close price, mark the
    simulator, update the close statistics, and call `onClose` once they are
    available. */
module CloseRunner {
  import opened Prices
  import opened Windows

  /** Calls made on the simulator and the strategy, in order. */
  datatype Event =
    | Begin(cash: real)                          // strategy.onBegin
    | SetCurrentPrice(price: Price)              // simulator.setCurrentPrice
    | OnClose(close: Price, stats: seq<Price>)   // strategy.onClose with the statistics' sample
    | End                                        // strategy.onEnd

  /** The calls `runClose` makes for one close, given the sample before it. */
  function CloseEvents(window: seq<Price>, windowSize: int, close: Price): seq<Event>
  {
    var after := Push(window, windowSize, close);
    [SetCurrentPrice(close)] + if Available(after, windowSize) then [OnClose(close, after)] else []
  }

  /** The calls `runClose` makes for each close of a stream, in order. */
  function RunCloses(window: seq<Price>, windowSize: int, closes: seq<Price>): seq<Event>
    decreases |closes|
  {
    if closes == [] then []
    else
      var prefix := closes[..|closes| - 1];
      RunCloses(window, windowSize, prefix) + CloseEvents(PushAll(window, windowSize, prefix), windowSize, closes[|closes| - 1])
  }

  /** The closes passed to `onClose` in a trace. */
  function OnCloses(trace: seq<Event>): seq<Price>
    decreases |trace|
  {
    if trace == [] then []
    else OnCloses(trace[..|trace| - 1]) + if trace[|trace| - 1].OnClose? then [trace[|trace| - 1].close] else []
  }

  /** The prices passed to `setCurrentPrice` in a trace. */
  function Marked(trace: seq<Event>): seq<Price>
    decreases |trace|
  {
    if trace == [] then []
    else Marked(trace[..|trace| - 1]) + if trace[|trace| - 1].SetCurrentPrice? then [trace[|trace| - 1].price] else []
  }

  lemma {:induction false} ProjectionsAppend(a: seq<Event>, b: seq<Event>)
    ensures OnCloses(a + b) == OnCloses(a) + OnCloses(b)
    ensures Marked(a + b) == Marked(a) + Marked(b)
    decreases |b|
  {
    if b != [] {
      assert (a + b)[..|a + b| - 1] == a + b[..|b| - 1];
      ProjectionsAppend(a, b[..|b| - 1]);
    } else {
      assert a + b == a;
    }
  }

  /** `onClose` is called iff the statistics are available after the update,
      with the same close, and always after the close reached the simulator. */
  lemma CloseEventsShape(window: seq<Price>, windowSize: int, close: Price)
    ensures var after := Push(window, windowSize, close);
            && CloseEvents(window, windowSize, close)[0] == SetCurrentPrice(close)
            && Marked(CloseEvents(window, windowSize, close)) == [close]
            && OnCloses(CloseEvents(window, windowSize, close)) == if Available(after, windowSize) then [close] else []
  {
    var after := Push(window, windowSize, close);
    if Available(after, windowSize) {
      ProjectionsAppend([SetCurrentPrice(close)], [OnClose(close, after)]);
    }
  }

  /** One more close appends that close's calls to the trace of the stream. */
  lemma RunClosesSnoc(window: seq<Price>, windowSize: int, closes: seq<Price>, close: Price)
    ensures RunCloses(window, windowSize, closes + [close])
         == RunCloses(window, windowSize, closes) + CloseEvents(PushAll(window, windowSize, closes), windowSize, close)
  {
  }

  /** From fresh statistics, `onClose` is skipped for the first Threshold - 1
      closes (windowSize - 1 of them with a window, none without) and receives
      every close from then on, in stream order. */
  lemma {:induction false} OnCloseFromThreshold(windowSize: int, closes: seq<Price>)
    ensures OnCloses(RunCloses([], windowSize, closes)) ==
              if |closes| < Threshold(windowSize) then [] else closes[Threshold(windowSize) - 1..]
    decreases |closes|
  {
    if closes != [] {
      var t := Threshold(windowSize);
      var prefix := closes[..|closes| - 1];
      var close := closes[|closes| - 1];
      assert closes == prefix + [close];
      OnCloseFromThreshold(windowSize, prefix);
      var before := PushAll([], windowSize, prefix);
      var events := CloseEvents(before, windowSize, close);
      RunClosesSnoc([], windowSize, prefix, close);
      assert RunCloses([], windowSize, closes) == RunCloses([], windowSize, prefix) + events;
      ProjectionsAppend(RunCloses([], windowSize, prefix), events);
      assert OnCloses(RunCloses([], windowSize, closes)) == OnCloses(RunCloses([], windowSize, prefix)) + OnCloses(events);
      CloseEventsShape(before, windowSize, close);
      AvailableIff(closes, windowSize);
      assert Push(before, windowSize, close) == PushAll([], windowSize, closes);
      assert OnCloses(events) == if |closes| >= t then [close] else [];
      if |prefix| >= t {
        assert closes[t - 1..] == prefix[t - 1..] + [close];
      } else if |closes| == t {
        assert closes[t - 1..] == [close];
      }
    }
  }

  /** Every close reaches the simulator, in stream order. */
  lemma {:induction false} EveryCloseMarked(window: seq<Price>, windowSize: int, closes: seq<Price>)
    ensures Marked(RunCloses(window, windowSize, closes)) == closes
    decreases |closes|
  {
    if closes != [] {
      var prefix := closes[..|closes| - 1];
      var close := closes[|closes| - 1];
      assert closes == prefix + [close];
      EveryCloseMarked(window, windowSize, prefix);
      RunClosesSnoc(window, windowSize, prefix, close);
      ProjectionsAppend(RunCloses(window, windowSize, prefix), CloseEvents(PushAll(window, windowSize, prefix), windowSize, close));
      CloseEventsShape(PushAll(window, windowSize, prefix), windowSize, close);
    }
  }

  /** Processing closes only makes `setCurrentPrice` and `onClose` calls. */
  lemma {:induction false} RunClosesOnlyMarksAndCloses(window: seq<Price>, windowSize: int, closes: seq<Price>)
    ensures forall e :: e in RunCloses(window, windowSize, closes) ==> e.SetCurrentPrice? || e.OnClose?
    decreases |closes|
  {
    if closes != [] {
      RunClosesOnlyMarksAndCloses(window, windowSize, closes[..|closes| - 1]);
    }
  }

  /** The calls a `runStrategy` appends: `onBegin` first, `onEnd` last and
      nowhere else, so exactly once. */
  lemma RunIsBracketed(window: seq<Price>, windowSize: int, cash: real, closes: seq<Price>)
    ensures var run := [Begin(cash)] + RunCloses(window, windowSize, closes) + [End];
            && run[0] == Begin(cash) && run[|run| - 1] == End
            && forall i :: 0 <= i < |run| - 1 ==> !run[i].End?
  {
    RunClosesOnlyMarksAndCloses(window, windowSize, closes);
    var run := [Begin(cash)] + RunCloses(window, windowSize, closes) + [End];
    forall i | 0 < i < |run| - 1 ensures !run[i].End? {
      assert run[i] in RunCloses(window, windowSize, closes);
    }
  }

  class StrategyRunner {
    const windowSize: int
    /** The values of `windowCloseStats` (windowSize > 0) or `infiniteCloseStats`;
        the raw closes, non-finite ones included. */
    var window: seq<Price>
    ghost var trace: seq<Event>

    /** A windowed sample never holds more than windowSize closes. */
    ghost predicate Inv()
      reads this
    {
      windowSize > 0 ==> |window| <= windowSize
    }

    constructor (windowSize: int)
      ensures this.windowSize == windowSize && window == [] && trace == [] && Inv()
    {
      this.windowSize := windowSize;
      window := [];
      trace := [];
    }

    /** The statistics object of the mode: the sample, at most windowSize closes
        with a window. */
    function GetCloseStatistics(): (stats: seq<Price>)
      reads this
      requires Inv()
      ensures stats == window
      ensures windowSize > 0 ==> |stats| <= windowSize
    {
      window
    }

    method UpdateCloseStatistics(close: Price)
      requires Inv()
      modifies this`window
      ensures Inv()
      ensures window == Push(old(window), windowSize, close)
    {
      window := Push(window, windowSize, close);
    }

    /** n >= windowSize with a window, n >= 1 without one. */
    function AreCloseStatisticsAvailable(): (b: bool)
      reads this
      ensures b <==> |window| >= Threshold(windowSize)
    {
      Available(window, windowSize)
    }

    /** Marks the simulator, adds the close to the statistics, then calls
        `onClose` if they are available. */
    method RunClose(close: Price)
      requires Inv()
      modifies this
      ensures Inv()
      ensures window == Push(old(window), windowSize, close)
      ensures trace == old(trace) + CloseEvents(old(window), windowSize, close)
    {
      trace := trace + [SetCurrentPrice(close)];
      UpdateCloseStatistics(close);
      if !AreCloseStatisticsAvailable() {
        return;
      }
      trace := trace + [OnClose(close, GetCloseStatistics())];
    }

    /** `onBegin`, `runClose` for every close in order, then `onEnd` exactly once,
        also when the stream fails after delivering `closes`; the failure is then
        passed on. */
    method RunStrategy(initialCashBalance: real, closes: seq<Price>, streamFails: bool) returns (failed: bool)
      requires Inv()
      modifies this
      ensures Inv()
      ensures failed == streamFails
      ensures window == PushAll(old(window), windowSize, closes)
      ensures trace == old(trace) + [Begin(initialCashBalance)] + RunCloses(old(window), windowSize, closes) + [End]
    {
      trace := trace + [Begin(initialCashBalance)];
      for i := 0 to |closes|
        invariant Inv()
        invariant window == PushAll(old(window), windowSize, closes[..i])
        invariant trace == old(trace) + [Begin(initialCashBalance)] + RunCloses(old(window), windowSize, closes[..i])
      {
        assert closes[..i + 1][..i] == closes[..i];
        RunClose(closes[i]);
      }
      assert closes[..|closes|] == closes;
      // finally
      trace := trace + [End];
      failed := streamFails;
    }
  }
}
