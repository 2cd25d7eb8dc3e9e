/** The sample kept by the statistics objects of the code: a `DescriptiveStatistics`
    with a window (windowSize > 0), which evicts its oldest value once full, or a
    `SummaryStatistics` (windowSize <= 0), which keeps every value it is given.
    Only the sample and its count are modelled, and the availability test that
    `PriceWithStatistics.isValid` and both runners make on the count. */
module Windows {

  /** The count at which a statistics object becomes usable. */
  function Threshold(windowSize: int): (t: nat)
    ensures t >= 1
    ensures windowSize > 0 ==> t == windowSize
  {
    if windowSize > 0 then windowSize else 1
  }

  /** `addValue` on the statistics object of the given mode. */
  function Push<T>(window: seq<T>, windowSize: int, x: T): seq<T>
  {
    if windowSize <= 0 then window + [x]          // SummaryStatistics: unbounded
    else if |window| < windowSize then window + [x] // window not yet full
    else if |window| == windowSize then window[1..] + [x] // rolling: drop the oldest
    else window
  }

  /** `addValue` for every element of `xs`, in order. */
  function PushAll<T>(window: seq<T>, windowSize: int, xs: seq<T>): seq<T>
    decreases |xs|
  {
    if xs == [] then window
    else Push(PushAll(window, windowSize, xs[..|xs| - 1]), windowSize, xs[|xs| - 1])
  }

  /** The availability test: n >= windowSize with a window, n >= 1 without. */
  predicate Available<T>(window: seq<T>, windowSize: int)
  {
    if windowSize > 0 then |window| >= windowSize else |window| >= 1
  }

  /** Reference definition of the sample: the most recent `windowSize` values
      given, or all of them in continuous mode. */
  function Recent<T>(xs: seq<T>, windowSize: int): seq<T>
  {
    if windowSize > 0 && |xs| > windowSize then xs[|xs| - windowSize..] else xs
  }

  /** One `addValue` on the most recent values leaves the most recent values. */
  lemma PushRecent<T>(xs: seq<T>, windowSize: int, x: T)
    ensures Push(Recent(xs, windowSize), windowSize, x) == Recent(xs + [x], windowSize)
  {
  }

  /** Starting from an empty statistics object, the sample is exactly the most
      recent `windowSize` values (all values in continuous mode). */
  lemma {:induction false} PushAllFromEmpty<T>(xs: seq<T>, windowSize: int)
    ensures PushAll([], windowSize, xs) == Recent(xs, windowSize)
    decreases |xs|
  {
    if xs != [] {
      var init := xs[..|xs| - 1];
      PushAllFromEmpty(init, windowSize);
      PushRecent(init, windowSize, xs[|xs| - 1]);
      assert init + [xs[|xs| - 1]] == xs;
    }
  }

  /** The count after `k` values is min(k, windowSize), or k in continuous mode. */
  lemma RecentCount<T>(xs: seq<T>, windowSize: int)
    ensures windowSize > 0 ==> |Recent(xs, windowSize)| == if |xs| < windowSize then |xs| else windowSize
    ensures windowSize <= 0 ==> Recent(xs, windowSize) == xs
  {
  }

  /** The statistics become available exactly once `Threshold(windowSize)` values
      have been given, and stay available afterwards. */
  lemma {:induction false} AvailableIff<T>(xs: seq<T>, windowSize: int)
    ensures Available(PushAll([], windowSize, xs), windowSize) <==> |xs| >= Threshold(windowSize)
  {
    PushAllFromEmpty(xs, windowSize);
  }

  /** In continuous mode no value is ever evicted. */
  lemma {:induction false} ContinuousKeepsAll<T>(window: seq<T>, windowSize: int, xs: seq<T>)
    requires windowSize <= 0
    ensures PushAll(window, windowSize, xs) == window + xs
    decreases |xs|
  {
    if xs != [] {
      var init := xs[..|xs| - 1];
      ContinuousKeepsAll(window, windowSize, init);
      assert init + [xs[|xs| - 1]] == xs;
    }
  }

  /** Adding a value never makes available statistics unavailable. */
  lemma PushKeepsAvailable<T>(window: seq<T>, windowSize: int, x: T)
    requires Available(window, windowSize)
    ensures Available(Push(window, windowSize, x), windowSize)
  {
  }
}
