/** `PriceWithStatistics`: the last accepted price and the statistics of the
    accepted prices, windowed (windowSize > 0) or continuous (windowSize <= 0). */
module PriceStats {
  import opened Prices
  import opened Windows

  /** The last accepted value, or NaN when none has been accepted. */
  function LastAccepted(accepted: seq<real>): (p: Price)
    ensures p.Finite? <==> accepted != []
  {
    if accepted == [] then NaN else Finite(accepted[|accepted| - 1])
  }

  class PriceWithStatistics {
    /** `lastValue`: the most recent finite value, NaN initially. */
    var lastValue: Price
    const windowSize: int
    const estimator: Estimator
    /** The values held by `windowPriceStats` or `infinitePriceStats`. */
    var sample: seq<real>
    /** Every finite value ever accepted, in order. */
    ghost var accepted: seq<real>

    ghost predicate Inv()
      reads this
    {
      && sample == Recent(accepted, windowSize)
      && lastValue == LastAccepted(accepted)
    }

    constructor (windowSize: int, estimator: Estimator)
      ensures Inv() && accepted == []
      ensures this.windowSize == windowSize && this.estimator == estimator
      ensures lastValue == NaN && sample == [] && !IsValid()
    {
      lastValue := NaN;
      this.windowSize := windowSize;
      this.estimator := estimator;
      sample := [];
      accepted := [];
    }

    function GetLast(): (p: Price)
      reads this
      requires Inv()
      ensures p.Finite? <==> accepted != []
      ensures p.Finite? ==> p.r == accepted[|accepted| - 1]
    {
      lastValue
    }

    /** The statistics snapshot: the count is the size of the sample. */
    function GetStatistics(): (s: Summary)
      reads this
      requires Inv()
      ensures s.n == |Recent(accepted, windowSize)|
    {
      Summary(|sample|, estimator.mean(sample), estimator.stddev(sample))
    }

    /** Valid once windowSize values (one value in continuous mode) were accepted. */
    function IsValid(): (b: bool)
      reads this
      requires Inv()
      ensures b <==> |accepted| >= Threshold(windowSize)
    {
      PushAllFromEmpty(accepted, windowSize);
      AvailableIff(accepted, windowSize);
      Available(sample, windowSize)
    }

    /** Ignores a non-finite value; otherwise remembers it as the last value and
        adds it to the sample. */
    method AddValue(value: Price)
      requires Inv()
      modifies this
      ensures Inv()
      ensures accepted == old(accepted) + if value.Finite? then [value.r] else []
      ensures lastValue == if value.Finite? then value else old(lastValue)
      ensures sample == if value.Finite? then Push(old(sample), windowSize, value.r) else old(sample)
      ensures old(IsValid()) ==> IsValid()
    {
      if !value.Finite? {
        return;
      }
      lastValue := value;
      PushRecent(accepted, windowSize, value.r);
      sample := Push(sample, windowSize, value.r);
      accepted := accepted + [value.r];
    }
  }

  /** The count of the sample is min(accepted, windowSize) in windowed mode. */
  lemma {:induction false} SampleCount(accepted: seq<real>, windowSize: int)
    requires windowSize > 0
    ensures |PushAll([], windowSize, accepted)| == if |accepted| < windowSize then |accepted| else windowSize
  {
    PushAllFromEmpty(accepted, windowSize);
  }

  /** In windowed mode validity first holds on the windowSize-th finite value:
      not after windowSize - 1 of them, and after windowSize of them. */
  lemma {:induction false} ValidFirstAtWindowSize(accepted: seq<real>, windowSize: int)
    requires windowSize > 0 && |accepted| >= windowSize
    ensures !Available(PushAll([], windowSize, accepted[..windowSize - 1]), windowSize)
    ensures Available(PushAll([], windowSize, accepted[..windowSize]), windowSize)
  {
    AvailableIff(accepted[..windowSize - 1], windowSize);
    AvailableIff(accepted[..windowSize], windowSize);
  }
}
