/** Classification of a price against a Bollinger Band: mean +- factor * stddev. */
module TAUtils {
  import opened Prices

  /** Where a price lies relative to the band (declared in the code's order). */
  datatype BandOrientation = Invalid | AboveUpper | AboveMiddle | OnMiddle | BelowMiddle | BelowLower

  /** The factor `TAUtils` fixes for the two-argument form. */
  const DefaultFactor: real := 2.0

  /** A price and statistics the classifier does not reject outright. */
  predicate Classifiable(price: Price, priceStats: Option<Summary>)
  {
    price.Finite? && priceStats.Some? && priceStats.value.n >= 1
  }

  /** Reference definition of the zones of a band of half-width `halfWidth`
      around `mean`: a price on an edge belongs to the inner zone. */
  ghost predicate InZone(o: BandOrientation, p: real, mean: real, halfWidth: real)
  {
    match o
    case BelowLower => p < mean - halfWidth
    case BelowMiddle => mean - halfWidth <= p < mean
    case OnMiddle => p == mean
    case AboveMiddle => mean < p <= mean + halfWidth
    case AboveUpper => mean + halfWidth < p
    case Invalid => false
  }

  /** The comparison cascade of `calculateBollingerBandOrientation`, with the
      stddev factor as a parameter; the first strict comparison that holds wins. */
  function CalculateBollingerBandOrientation(price: Price, priceStats: Option<Summary>, factor: real): (o: BandOrientation)
    ensures o == Invalid <==> !Classifiable(price, priceStats)
    ensures Classifiable(price, priceStats) && factor * priceStats.value.stddev >= 0.0 ==>
              InZone(o, price.r, priceStats.value.mean, factor * priceStats.value.stddev)
  {
    if !price.Finite? || priceStats.None? || priceStats.value.n < 1 then Invalid
    else
      var movingAverage := priceStats.value.mean;
      var stddev := priceStats.value.stddev;
      var bollingerUpper := movingAverage + factor * stddev;
      var bollingerLower := movingAverage - factor * stddev;
      if price.r < bollingerLower then BelowLower
      else if price.r > bollingerUpper then AboveUpper
      else if price.r < movingAverage then BelowMiddle
      else if price.r > movingAverage then AboveMiddle
      else OnMiddle
  }

  /** The two-argument form, whose factor is fixed at 2.0. */
  function CalculateTwoSigmaOrientation(price: Price, priceStats: Option<Summary>): (o: BandOrientation)
    ensures o == Invalid <==> !Classifiable(price, priceStats)
    ensures Classifiable(price, priceStats) && priceStats.value.stddev >= 0.0 ==>
              InZone(o, price.r, priceStats.value.mean, 2.0 * priceStats.value.stddev)
  {
    CalculateBollingerBandOrientation(price, priceStats, DefaultFactor)
  }

  /** Position along the price axis; `Invalid` has none. */
  function Rank(o: BandOrientation): int
  {
    match o
    case BelowLower => 0
    case BelowMiddle => 1
    case OnMiddle => 2
    case AboveMiddle => 3
    case AboveUpper => 4
    case Invalid => -1
  }

  /** For a band of non-negative width the zones do not overlap, so the
      orientation is the ONE zone the price lies in. */
  lemma ZonesDetermineOrientation(price: Price, priceStats: Option<Summary>, factor: real, o: BandOrientation)
    requires Classifiable(price, priceStats) && factor * priceStats.value.stddev >= 0.0
    requires InZone(o, price.r, priceStats.value.mean, factor * priceStats.value.stddev)
    ensures o == CalculateBollingerBandOrientation(price, priceStats, factor)
  {
  }

  /** A price strictly below the lower edge is BelowLower, whatever the width. */
  lemma BelowBandIsBelowLower(price: Price, priceStats: Option<Summary>, factor: real)
    requires Classifiable(price, priceStats)
    requires price.r < priceStats.value.mean - factor * priceStats.value.stddev
    ensures CalculateBollingerBandOrientation(price, priceStats, factor) == BelowLower
  {
  }

  /** A price strictly above the upper edge and not below the lower one is AboveUpper. */
  lemma AboveBandIsAboveUpper(price: Price, priceStats: Option<Summary>, factor: real)
    requires Classifiable(price, priceStats)
    requires price.r >= priceStats.value.mean - factor * priceStats.value.stddev
    requires price.r > priceStats.value.mean + factor * priceStats.value.stddev
    ensures CalculateBollingerBandOrientation(price, priceStats, factor) == AboveUpper
  {
  }

  /** On a band of positive width a price exactly on an edge gets the middle
      classification, not the extreme one. */
  lemma EdgesAreMiddle(price: Price, priceStats: Option<Summary>, factor: real)
    requires Classifiable(price, priceStats)
    requires priceStats.value.stddev > 0.0 && factor > 0.0
    ensures price.r == priceStats.value.mean - factor * priceStats.value.stddev ==>
              CalculateBollingerBandOrientation(price, priceStats, factor) == BelowMiddle
    ensures price.r == priceStats.value.mean + factor * priceStats.value.stddev ==>
              CalculateBollingerBandOrientation(price, priceStats, factor) == AboveMiddle
  {
    assert factor * priceStats.value.stddev > 0.0;
  }

  /** On a band of non-negative width the result is OnMiddle iff the price is the mean. */
  lemma OnMiddleIffMean(price: Price, priceStats: Option<Summary>, factor: real)
    requires Classifiable(price, priceStats)
    requires factor * priceStats.value.stddev >= 0.0
    ensures CalculateBollingerBandOrientation(price, priceStats, factor) == OnMiddle <==> price.r == priceStats.value.mean
  {
  }

  /** A zero-width band sends every price off the mean to an extreme. */
  lemma ZeroWidthBand(price: Price, priceStats: Option<Summary>, factor: real)
    requires Classifiable(price, priceStats)
    requires priceStats.value.stddev == 0.0
    ensures price.r < priceStats.value.mean ==> CalculateBollingerBandOrientation(price, priceStats, factor) == BelowLower
    ensures price.r > priceStats.value.mean ==> CalculateBollingerBandOrientation(price, priceStats, factor) == AboveUpper
    ensures price.r == priceStats.value.mean ==> CalculateBollingerBandOrientation(price, priceStats, factor) == OnMiddle
  {
  }

  /** For fixed statistics and a band of non-negative width, a higher price never
      gets a lower orientation. */
  lemma Monotone(p: real, q: real, priceStats: Option<Summary>, factor: real)
    requires priceStats.Some? && priceStats.value.n >= 1
    requires factor * priceStats.value.stddev >= 0.0
    requires p <= q
    ensures Rank(CalculateBollingerBandOrientation(Finite(p), priceStats, factor))
         <= Rank(CalculateBollingerBandOrientation(Finite(q), priceStats, factor))
  {
  }
}
