/**
 * The accelerometer gate: a crude jerk detector over the sum of the three
 * axes, re-evaluated at most once per rate-limit interval. Its flag is what
 * lifts the update pipeline's stop lock.
 */
module MotionGate {
  import opened Doubles

  /** minimum milliseconds between two evaluations of the flag */
  const MIN_INTERVAL: int := 100
  /** jerk above which the device counts as accelerating */
  const ACCELERATION_THRESHOLD: real := 20.0

  datatype Gate = Gate(accValues: seq<real>, lastAccValues: seq<real>, lastUpdate: int, accelerating: bool)

  /** Before any sensor event: zero axes, time 0, not accelerating. */
  const Initial: Gate := Gate([0.0, 0.0, 0.0], [0.0, 0.0, 0.0], 0, false)

  predicate WellFormed(g: Gate)
  {
    |g.accValues| == 3 && |g.lastAccValues| == 3
  }

  function AxisSum(axes: seq<real>): real
    requires |axes| == 3
  {
    axes[0] + axes[1] + axes[2]
  }

  /**
   * The change of the axis sum, per elapsed millisecond, scaled by 10000;
   * above the threshold exactly when 500 times the change exceeds the
   * elapsed time.
   */
  function Jerk(current: seq<real>, previous: seq<real>, elapsed: int): (j: real)
    requires |current| == 3 && |previous| == 3
    requires elapsed > 0
    ensures j >= 0.0
    ensures j > ACCELERATION_THRESHOLD <==>
              500.0 * Abs(AxisSum(current) - AxisSum(previous)) > elapsed as real
  {
    var delta := Abs(current[0] + current[1] + current[2] - previous[0] - previous[1] - previous[2]);
    JerkScale(delta, elapsed as real);
    delta / elapsed as real * 10000.0
  }

  lemma JerkScale(delta: real, elapsed: real)
    requires delta >= 0.0 && elapsed > 0.0
    ensures delta / elapsed * 10000.0 >= 0.0
    ensures delta / elapsed * 10000.0 > ACCELERATION_THRESHOLD <==> 500.0 * delta > elapsed
  {
    var q := delta / elapsed;
    assert q * elapsed == delta;
    if q * 10000.0 > ACCELERATION_THRESHOLD {
      assert q > 0.002;
      assert 500.0 * delta == 500.0 * q * elapsed;
    } else {
      assert q <= 0.002;
      assert 500.0 * delta == 500.0 * q * elapsed;
    }
  }

  /**
   * One sensor event at time `now`. An accelerometer event always stores its
   * three values; only when more than the interval has passed since the last
   * evaluation are the time, the previous values and the flag updated. Other
   * sensors change nothing.
   */
  function Step(g: Gate, now: int, isAccelerometer: bool, values: seq<real>): (r: Gate)
    requires WellFormed(g)
    requires isAccelerometer ==> |values| >= 3
    ensures WellFormed(r)
    ensures !isAccelerometer ==> r == g
    ensures isAccelerometer ==> r.accValues == values[..3]
    ensures isAccelerometer && now - g.lastUpdate > MIN_INTERVAL ==>
              r.lastUpdate == now && r.lastAccValues == values[..3]
              && (r.accelerating <==>
                    500.0 * Abs(AxisSum(values[..3]) - AxisSum(g.lastAccValues)) > (now - g.lastUpdate) as real)
    ensures now - g.lastUpdate <= MIN_INTERVAL ==>
              r.lastUpdate == g.lastUpdate && r.lastAccValues == g.lastAccValues && r.accelerating == g.accelerating
  {
    if !isAccelerometer then g
    else
      var current := values[..3];
      if now - g.lastUpdate > MIN_INTERVAL then
        var jerk := Jerk(current, g.lastAccValues, now - g.lastUpdate);
        Gate(current, current, now, jerk > ACCELERATION_THRESHOLD)
      else
        g.(accValues := current)
  }
}
