/**
 * The location calculator object: the fields the periodic update and the
 * accelerometer callback change in place, and the getters the display polls.
 * Each method is proved to do what the value-level definitions in Tracking
 * and MotionGate say, so the properties proved there hold of the object.
 */
module Speedometer {
  import opened Doubles
  import Tracking
  import MotionGate
  import Units

  class LocationCalculator {
    var lastLatitude: real
    var lastLongitude: real

    var altitudeCounter: int
    var altitudeSum: real
    var avrAltitude: real
    var lastAvrAltitude: real

    var speedCounter: int
    var speedSum: Num
    var avrCurrentSpeed: Num
    var speedStopCounter: int

    var distance: Num
    var distanceSum: real

    var timer: int

    var stopLock: bool

    var accelerating: bool
    const accValues: array<real>
    const lastAccValues: array<real>
    var lastUpdate: int

    /** The update pipeline's state as a value. */
    ghost function Pipeline(): Tracking.Pipeline
      reads this
    {
      Tracking.Pipeline(
        lastLatitude, lastLongitude,
        Tracking.AltitudeWindow(altitudeCounter, altitudeSum, avrAltitude, lastAvrAltitude),
        Tracking.SpeedWindow(speedCounter, speedSum, avrCurrentSpeed),
        speedStopCounter, distance, distanceSum, timer, stopLock)
    }

    /** The accelerometer gate's state as a value. */
    ghost function Gate(): MotionGate.Gate
      reads this, accValues, lastAccValues
    {
      MotionGate.Gate(accValues[..], lastAccValues[..], lastUpdate, accelerating)
    }

    ghost predicate Valid()
      reads this
    {
      && accValues.Length == 3 && lastAccValues.Length == 3
      && accValues != lastAccValues
      && Tracking.Inv(Pipeline())
    }

    /** The scheduler and the sensor registration are not part of this model. */
    constructor ()
      ensures Valid()
      ensures Pipeline() == Tracking.Initial
      ensures Gate() == MotionGate.Initial
      ensures fresh(accValues) && fresh(lastAccValues)
    {
      lastLatitude, lastLongitude := 0.0, 0.0;
      altitudeCounter, altitudeSum, avrAltitude, lastAvrAltitude := 0, 0.0, 0.0, 0.0;
      speedCounter, speedSum, avrCurrentSpeed, speedStopCounter := 0, Finite(0.0), Finite(0.0), 0;
      distance, distanceSum := Finite(0.0), 0.0;
      timer := 0;
      stopLock := false;
      accelerating := false;
      accValues := new real[3] [0.0, 0.0, 0.0];
      lastAccValues := new real[3] [0.0, 0.0, 0.0];
      lastUpdate := 0;
    }

    /**
     * One tick with the fix `(latitude, longitude, altitude)`; `solver` is
     * the outcome of the ellipsoid distance solver for the segment from the
     * baseline to the fix, used only when the fix moved.
     */
    method Update(latitude: real, longitude: real, altitude: real, solver: Tracking.Geodesic)
      requires Valid()
      modifies this`lastLatitude, this`lastLongitude
      modifies this`altitudeCounter, this`altitudeSum, this`avrAltitude, this`lastAvrAltitude
      modifies this`speedCounter, this`speedSum, this`avrCurrentSpeed, this`speedStopCounter
      modifies this`distance, this`distanceSum, this`timer, this`stopLock
      ensures Valid()
      ensures Pipeline() == Tracking.Tick(old(Pipeline()), Tracking.Fix(latitude, longitude, altitude), solver, old(accelerating))
    {
      if lastLatitude == 0.0 && lastLongitude == 0.0 {
        lastLatitude := latitude;
        lastLongitude := longitude;
        return;
      }

      if latitude != lastLatitude && longitude != lastLongitude {
        Move(latitude, longitude, altitude, solver);
      } else {
        speedStopCounter := speedStopCounter + 1;
        if speedStopCounter == Tracking.STOP_TICKS {
          avrCurrentSpeed := Finite(0.0);
          speedStopCounter := 0;
          stopLock := true;
        }
      }
    }

    /**
     * The branch of a tick whose fix moved: measure the segment, feed the
     * speed window, lift the lock or accumulate, move the baseline (also for
     * a rejected segment) and feed the altitude window, in that order.
     */
    method Move(latitude: real, longitude: real, altitude: real, solver: Tracking.Geodesic)
      modifies this`lastLatitude, this`lastLongitude
      modifies this`altitudeCounter, this`altitudeSum, this`avrAltitude, this`lastAvrAltitude
      modifies this`speedCounter, this`speedSum, this`avrCurrentSpeed
      modifies this`distance, this`distanceSum, this`timer, this`stopLock
      ensures Pipeline() == Tracking.MovingStep(old(Pipeline()), Tracking.Fix(latitude, longitude, altitude), solver, accelerating)
    {
      CalculateDistanceAdvance(solver);
      CalculateSpeed();
      AccumulateSegment();
      lastLatitude, lastLongitude := latitude, longitude;
      AverageAltitude(altitude);
    }

    /**
     * Lifts a set stop lock when the gate reports acceleration, then adds the
     * current segment to the distance and credits one period of moving time
     * when the segment is longer than the jitter threshold and no lock is set.
     */
    method AccumulateSegment()
      modifies this`stopLock, this`distanceSum, this`timer
      ensures Pipeline() == old(Pipeline()).(
                stopLock := old(stopLock) && !accelerating,
                distanceSum := if Greater(distance, Tracking.JITTER_THRESHOLD) && !stopLock
                               then old(distanceSum) + distance.v else old(distanceSum),
                timer := if Greater(distance, Tracking.JITTER_THRESHOLD) && !stopLock
                         then old(timer) + Tracking.PERIOD else old(timer))
    {
      if stopLock && accelerating {
        stopLock := false;
      }

      if Greater(distance, Tracking.JITTER_THRESHOLD) && !stopLock {
        distanceSum := distanceSum + distance.v;
        CalculateTime();
      }
    }

    /** Feeds one altitude sample into the altitude window. */
    method AverageAltitude(altitude: real)
      modifies this`altitudeCounter, this`altitudeSum, this`avrAltitude, this`lastAvrAltitude
      ensures Pipeline() == old(Pipeline()).(altitude := Tracking.AltitudeStep(old(Pipeline()).altitude, altitude))
    {
      if altitudeCounter < Tracking.ALTITUDE_WINDOW {
        altitudeSum := altitudeSum + altitude;
      } else {
        lastAvrAltitude := avrAltitude;
        avrAltitude := altitudeSum / altitudeCounter as real;
        altitudeCounter := 0;
        altitudeSum := 0.0;
      }
      altitudeCounter := altitudeCounter + 1;
    }

    /**
     * Stores the solver's outcome in `distance`: the segment length, NaN when
     * the iteration did not converge, or the previous value for coincident
     * points. The ellipsoid numerics themselves are not part of this model.
     */
    method CalculateDistanceAdvance(solver: Tracking.Geodesic)
      modifies this`distance
      ensures Pipeline() == old(Pipeline()).(distance := Tracking.Measured(old(distance), solver))
    {
      match solver
      case Value(d) => distance := Finite(d);
      case NonConverged => distance := NaN;
      case Coincident =>
    }

    /** Feeds the current segment into the speed window. */
    method CalculateSpeed()
      modifies this`speedCounter, this`speedSum, this`avrCurrentSpeed
      ensures Pipeline() == old(Pipeline()).(speed := Tracking.SpeedStep(old(Pipeline()).speed, distance))
    {
      var speed := Div(distance, Tracking.PERIOD as real);
      if speedCounter < Tracking.SPEED_WINDOW {
        speedSum := Add(speedSum, speed);
      } else {
        speedSum := Add(speedSum, speed);
        avrCurrentSpeed := Div(speedSum, speedCounter as real);
        speedCounter := 0;
        speedSum := Finite(0.0);
      }
      speedCounter := speedCounter + 1;

      if Less(avrCurrentSpeed, Tracking.MIN_SPEED) {
        avrCurrentSpeed := Finite(0.0);
      }
    }

    /** Credits one scheduler period of moving time. */
    method CalculateTime()
      modifies this`timer
      ensures timer == old(timer) + Tracking.PERIOD
    {
      timer := timer + Tracking.UPDATE_TIME / 1000;
    }

    /**
     * The smoothed speed in km/h, or mph when `imperial`: it divides back to
     * the stored m/s value, and it is zero, at least the minimum speed in the
     * chosen unit, or NaN.
     */
    method GetSpeed(imperial: bool) returns (r: Num)
      requires Valid()
      ensures r.NaN? <==> avrCurrentSpeed.NaN?
      ensures r.Finite? ==> r.v / Units.SpeedFactor(imperial) == avrCurrentSpeed.v
      ensures r == Finite(0.0) || r.NaN? || r.v >= Tracking.MIN_SPEED * Units.SpeedFactor(imperial)
    {
      r := Units.SpeedReading(avrCurrentSpeed, imperial);
    }

    /** The accumulated distance in metres, or scaled by the imperial factor. */
    method GetDistanceSum(imperial: bool) returns (r: real)
      requires Valid()
      ensures !imperial ==> r == distanceSum
      ensures r / Units.DistanceFactor(imperial) == distanceSum
      ensures r >= 0.0
    {
      r := Units.DistanceReading(distanceSum, imperial);
    }

    /** The accumulated moving time in seconds. */
    method GetTimer() returns (r: int)
      requires Valid()
      ensures r == timer && r >= 0
    {
      r := timer;
    }

    /**
     * One sensor event at time `now` (milliseconds) with the event's
     * `values`; `isAccelerometer` tells whether it came from the
     * accelerometer.
     */
    method OnSensorChanged(now: int, isAccelerometer: bool, values: seq<real>)
      requires Valid()
      requires isAccelerometer ==> |values| >= 3
      modifies this, accValues, lastAccValues
      ensures Valid()
      ensures Gate() == MotionGate.Step(old(Gate()), now, isAccelerometer, values)
      ensures Pipeline() == old(Pipeline())
    {
      if isAccelerometer {
        accValues[0] := values[0];
        accValues[1] := values[1];
        accValues[2] := values[2];

        var curTime := now;

        if curTime - lastUpdate > MotionGate.MIN_INTERVAL {
          var diffTime := curTime - lastUpdate;
          lastUpdate := curTime;

          var jerk := MotionGate.Jerk(accValues[..], lastAccValues[..], diffTime);

          accelerating := jerk > MotionGate.ACCELERATION_THRESHOLD;

          lastAccValues[0] := accValues[0];
          lastAccValues[1] := accValues[1];
          lastAccValues[2] := accValues[2];
        }
      }
      assert accValues[..] == if isAccelerometer then values[..3] else old(accValues[..]);
    }
  }
}
