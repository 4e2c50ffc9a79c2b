/**
 * Named constants of the emission methodology that the poultry equations use.
 * Their numeric values are defined outside the modelled code, so the model
 * only knows that they are positive.
 */
module CoreConstants {

  /** A strictly positive real quantity. */
  type PositiveReal = r: real | r > 0.0 witness 1.0

  /** Mass conversion factor from ammonia nitrogen (NH3-N) to ammonia (NH3). */
  const ConvertNH3NToNH3: PositiveReal

  /** Number of days in a year, as used by the monthly equations. */
  const DaysInYear: PositiveReal
}
