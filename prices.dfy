/** Value types shared by the statistics engine, the classifier and the runners. */
module Prices {

  /** A value or nothing; `None` stands for Java's `null`. */
  datatype Option<+T> = None | Some(value: T)

  /** A double-precision price. NaN, +Infinity and -Infinity are one case here:
      every decision the code makes about them goes through `Double.isFinite`. */
  datatype Price = Finite(r: real) | NonFinite

  /** The `Double.NaN` sentinel the code uses for "no price yet". */
  const NaN: Price := NonFinite

  /** A snapshot of a `StatisticalSummary`: the sample count, the mean and the
      standard deviation of the sample. */
  datatype Summary = Summary(n: nat, mean: real, stddev: real)

  /** How the statistics library turns a sample into a mean and a standard
      deviation. The numerics are not modelled; only the sample they are taken
      over is. */
  datatype Estimator = Estimator(mean: seq<real> -> real, stddev: seq<real> -> real)
}
