/**
 * Conversion of the pipeline's internal units (metres per second, metres)
 * into the values shown on the display, metric or imperial.
 */
module Units {
  import opened Doubles

  /** km/h per m/s */
  const KMH_PER_MPS: real := 3.6
  /** mph per m/s */
  const MPH_PER_MPS: real := 2.2369362912
  /** factor applied to metres when the imperial system is selected */
  const IMPERIAL_DISTANCE_FACTOR: real := 0.0032808399

  function SpeedFactor(imperial: bool): (k: real)
    ensures k > 0.0
  {
    if imperial then MPH_PER_MPS else KMH_PER_MPS
  }

  function DistanceFactor(imperial: bool): (k: real)
    ensures k > 0.0
  {
    if imperial then IMPERIAL_DISTANCE_FACTOR else 1.0
  }

  /**
   * The displayed speed for a speed in m/s: dividing the reading by the
   * unit's factor gives the speed back, NaN stays NaN, and a non-negative
   * speed reads non-negative.
   */
  function SpeedReading(mps: Num, imperial: bool): (r: Num)
    ensures r.NaN? <==> mps.NaN?
    ensures r.Finite? ==> r.v / SpeedFactor(imperial) == mps.v
    ensures r.Finite? && mps.v >= 0.0 ==> r.v >= 0.0
  {
    Mul(mps, SpeedFactor(imperial))
  }

  /**
   * The displayed distance for a distance in metres: metric shows the metres
   * themselves, imperial a value that divides back to them.
   */
  function DistanceReading(metres: real, imperial: bool): (r: real)
    ensures !imperial ==> r == metres
    ensures r / DistanceFactor(imperial) == metres
    ensures metres >= 0.0 ==> r >= 0.0
  {
    metres * DistanceFactor(imperial)
  }

  /** The metric and the imperial speed readings denote the same speed. */
  lemma ReadingsAgree(mps: real)
    ensures SpeedReading(Finite(mps), false).v / KMH_PER_MPS
         == SpeedReading(Finite(mps), true).v / MPH_PER_MPS
  {
  }
}
