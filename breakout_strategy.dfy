/** `BreakOutStrategy`: a breakout strategy against a Bollinger Band. */
module BreakOut {
  import opened Prices
  import opened Windows
  import opened TAUtils
  import opened PriceStats
  import PS = PositionSignals

  /** The orientation-to-position-signal table: buy below the band, sell above
      it, close on the way back to the mean, do nothing on the mean. */
  function PositionSignalFor(o: BandOrientation): (s: PS.PositionSignal)
    ensures OrientationFor(s) == o
  {
    match o
    case BelowLower => PS.OpenLong
    case AboveUpper => PS.OpenShort
    case BelowMiddle => PS.CloseShort
    case AboveMiddle => PS.CloseLong
    case OnMiddle => PS.None
    case Invalid => PS.Invalid
  }

  /** The orientation each position signal stands for (the table read backwards). */
  function OrientationFor(s: PS.PositionSignal): BandOrientation
  {
    match s
    case OpenLong => BelowLower
    case OpenShort => AboveUpper
    case CloseShort => BelowMiddle
    case CloseLong => AboveMiddle
    case None => OnMiddle
    case Invalid => Invalid
  }

  /** Distinct orientations give distinct position signals. */
  lemma PositionSignalInjective(o1: BandOrientation, o2: BandOrientation)
    requires PositionSignalFor(o1) == PositionSignalFor(o2)
    ensures o1 == o2
  {
  }

  class BreakOutStrategy {
    const priceWithStatistics: PriceWithStatistics
    const stddevFactor: real
    var bandOrientation: BandOrientation

    /** A fresh strategy holds Invalid: empty statistics are never valid. */
    constructor (windowSize: int, stddevFactor: real, estimator: Estimator)
      ensures fresh(priceWithStatistics)
      ensures priceWithStatistics.Inv() && priceWithStatistics.accepted == []
      ensures priceWithStatistics.windowSize == windowSize && priceWithStatistics.estimator == estimator
      ensures this.stddevFactor == stddevFactor
      ensures bandOrientation == Invalid
    {
      priceWithStatistics := new PriceWithStatistics(windowSize, estimator);
      this.stddevFactor := stddevFactor;
      new;
      bandOrientation := MapPriceStatsToSignal(priceWithStatistics);
    }

    /** Adds the price to the one shared statistics object and returns that object. */
    method MapPriceToPriceStats(price: Price) returns (stats: PriceWithStatistics)
      requires priceWithStatistics.Inv()
      modifies priceWithStatistics
      ensures stats == priceWithStatistics && stats.Inv()
      ensures stats.accepted == old(stats.accepted) + if price.Finite? then [price.r] else []
      ensures stats.lastValue == if price.Finite? then price else old(stats.lastValue)
    {
      priceWithStatistics.AddValue(price);
      stats := priceWithStatistics;
    }

    /** Classifies the last price against the statistics when they are valid,
        Invalid otherwise, and stores the result. */
    method MapPriceStatsToSignal(priceStats: PriceWithStatistics) returns (o: BandOrientation)
      requires priceStats.Inv()
      modifies this
      ensures bandOrientation == o
      ensures o == if priceStats.IsValid()
                   then CalculateBollingerBandOrientation(priceStats.GetLast(), Some(priceStats.GetStatistics()), stddevFactor)
                   else Invalid
      ensures o != Invalid <==> priceStats.IsValid()
    {
      if priceStats.IsValid() {
        RecentCount(priceStats.accepted, priceStats.windowSize);
        bandOrientation := CalculateBollingerBandOrientation(priceStats.GetLast(), Some(priceStats.GetStatistics()), stddevFactor);
      } else {
        bandOrientation := Invalid;
      }
      o := bandOrientation;
    }

    /** Switches on the stored orientation, not on its argument. */
    function MapSignalToPositionSignal(signal: BandOrientation): (s: PS.PositionSignal)
      reads this
      ensures OrientationFor(s) == bandOrientation
    {
      PositionSignalFor(bandOrientation)
    }
  }
}
