# GPS speedometer: the location calculator

This project models the location calculator of the GpsSpeedometer Android
app, in Dafny. The calculator turns raw position fixes into four outputs:
a smoothed speed, the distance travelled, the moving time and a smoothed
altitude. Once per second a scheduler hands it the latest fix
`(latitude, longitude, altitude)`, and it runs one *tick* of its update
pipeline:

- **The first fix.** While the baseline is still `(0, 0)`, the fix only
  becomes the baseline.
- **A moving tick.** The fix counts as moved only when *both* coordinates
  differ from the baseline. Then the tick does these steps in order:
  - it measures the segment with the ellipsoid (Vincenty) solver;
  - it feeds the segment into a two-slot speed window;
  - it lifts a set stop lock if the accelerometer reports acceleration;
  - it adds the segment to the distance and credits one second of moving
    time, if the segment is longer than 0.4 m and no lock is set;
  - it moves the baseline, even when the segment was rejected;
  - it feeds the altitude into a four-slot altitude window.
- **A stationary tick.** Any other tick raises the stop counter. On the
  fourth such tick the counter resets, the speed is forced to zero and the
  stop lock is set.

The accelerometer callback is a crude jerk detector. At most once every
100 ms it compares the sum of the three axes with the sum it saw last time,
and it sets the `accelerating` flag when the change is large for the elapsed
time. The display polls three getters: speed in km/h or mph, distance in
metres or the imperial factor, and moving time in seconds.

## How the model is organised

- `doubles.dfy` (`Doubles`): the part of IEEE-754 double arithmetic the
  pipeline relies on. A value is a finite number, modelled as a real, or
  NaN. NaN absorbs `+` and `/`, and every ordered comparison with it is
  false. This matters because a solver that does not converge stores NaN in
  `distance`, and that NaN then flows into the speed window.
- `tracking.dfy` (`Tracking`): the update pipeline as values.
  - `Pipeline` holds the fields that `update` changes.
  - `Tick` is one tick, built from `MovingStep` and `StationaryStep`.
    `MovingStep` uses `Measured`, `SpeedStep` and `AltitudeStep`.
  - `Run` folds `Tick` over a sequence of inputs. The lemmas about runs are
    stated in terms of it.
- `motion_gate.dfy` (`MotionGate`): the accelerometer callback as a value
  step (`Step`) together with its jerk measure (`Jerk`).
- `units.dfy` (`Units`): the conversions the getters apply.
- `location_calculator.dfy` (`Speedometer`): the calculator as a class.
  - Its fields are the fields of the Java object.
  - The accelerometer buffers are arrays that are written in place.
  - Every method that changes state is proved equal to the value-level
    definition, through the ghost views `Pipeline()` and `Gate()`. So what
    is proved of `Tick`, `Run` and `Step` holds of the object.

The ellipsoid solver is not computed. Each tick receives the solver's
*outcome* as an input (`Tracking.Geodesic`), which is one of:

- a distance;
- `NonConverged`: NaN is stored, either because the 100-iteration budget ran
  out or because the numerics produced NaN on the normal exit;
- `Coincident`: the early return for coincident points, which leaves the
  previous `distance` in place.

This is exactly what the rest of the pipeline can observe of the solver.

### Behaviour of the code worth knowing

- **The stop counter.** A moving tick never resets the stop counter. Any
  four stationary ticks make a full stop, even with moving ticks between
  them (`Tracking.Tick`, `Tracking.RunStops`).
- **The speed clamp.** The comment on `calculateSpeed`
  (LocationCalculator.java line 191) speaks of discarding averages under
  1 km/h. The comparison at line 206 is made on the m/s average against
  `1.0`, that is 1 m/s or 3.6 km/h. The model follows the comparison
  (`Tracking.MIN_SPEED`).
- **The first speed window.** The counter starts at 0. So the first average
  sums three samples and divides by two. Later windows sum two and divide
  by two (`Tracking.SpeedStep`).
- **The altitude window.** The sample that arrives on the averaging tick is
  neither added to the average nor kept for the next window
  (`Tracking.AltitudeStep`).
- **A change of one coordinate.** A fix counts as moved only when both
  coordinates change. A walk due north or due east is therefore treated as
  standing still and adds no distance
  (`Tracking.OneCoordinateIsStationary`).
- **The imperial distance factor.** `0.0032808399` converts metres to
  thousands of feet. The model keeps the constant. It claims only that
  dividing the reading by the constant gives the metres back.

## Model

| member | source | states |
|---|---|---|
| Tracking.Measured | gpsSpeedometer/app/src/main/java/com/jakdor/gpsspeedometer/LocationCalculator.java:135-186 | the stored distance after the solver: its distance, NaN when it did not converge, the previous distance for coincident points |
| Tracking.SpeedStep | gpsSpeedometer/app/src/main/java/com/jakdor/gpsspeedometer/LocationCalculator.java:193-209 | the speed window's counter stays in 1..2; below the window size the sample is added and the average kept (or zeroed if it was below the minimum); on a full window the counter restarts at 1 with sum 0, the average is NaN exactly when a summed value was NaN, and for finite values it is the window's sum divided by the counter, kept when at least 1 m/s and zero otherwise; the average is always zero, NaN or at least 1 m/s |
| Tracking.AltitudeStep | gpsSpeedometer/app/src/main/java/com/jakdor/gpsspeedometer/LocationCalculator.java:92-100 | below four samples the sample is added and the counter advances; on the fourth the old average becomes the last average, four times the new average is the window's sum, and the window restarts at counter 1 with sum 0 |
| Tracking.StationaryStep | gpsSpeedometer/app/src/main/java/com/jakdor/gpsspeedometer/LocationCalculator.java:102-109 | only the stop counter, the speed average and the lock change; short of the stop count only the counter goes up by one, so the last speed stays; on reaching 4 the counter resets to 0, the speed is zeroed and the lock set; the counter stays within 0..3 |
| Tracking.MovingStep | gpsSpeedometer/app/src/main/java/com/jakdor/gpsspeedometer/LocationCalculator.java:75-101 | the baseline becomes the fix; the stop counter is untouched; the lock survives only without acceleration; the distance grows by exactly the measured segment when it exceeds 0.4 m and no lock holds, and is unchanged otherwise; the timer advances one period exactly when the distance grows; the speed and altitude windows take one step each with the measured segment and the fix's altitude |
| Tracking.Tick | gpsSpeedometer/app/src/main/java/com/jakdor/gpsspeedometer/LocationCalculator.java:68-110 | the distance grows by exactly `Credit` of the tick, so it never decreases; time moves exactly when distance moves, by one period and with more than 0.4 m; the first fix only sets the baseline; a stationary tick touches only counter, speed and lock, and keeps the speed short of a full stop; a lock is lifted only by a moving tick with acceleration, holds without it and blocks accumulation; a newly set lock comes with a zero speed; a non-converged solver adds nothing; the between-ticks invariant is preserved |
| Tracking.RunAccumulates | gpsSpeedometer/app/src/main/java/com/jakdor/gpsspeedometer/LocationCalculator.java:83-86 | over any sequence of ticks distance and moving time never decrease, time moves exactly when distance does, and each credited second stands for more than 0.4 m |
| Tracking.Credit | gpsSpeedometer/app/src/main/java/com/jakdor/gpsspeedometer/LocationCalculator.java:75-86 | the credit of a tick is zero or above 0.4 m, and non-zero exactly when the fix moved in both coordinates, the measured segment exceeds 0.4 m and no lock holds after the acceleration check |
| Tracking.RunTotals | gpsSpeedometer/app/src/main/java/com/jakdor/gpsspeedometer/LocationCalculator.java:83-86 | over any run the distance is the start value plus the sum of the accepted segments, and the moving time is the start value plus one period per accepted segment |
| Tracking.RunKeepsInv | gpsSpeedometer/app/src/main/java/com/jakdor/gpsspeedometer/LocationCalculator.java:68-110 | counters stay in their windows, the speed stays clamped, distance and time stay non-negative over any run |
| Tracking.InitialInv | gpsSpeedometer/app/src/main/java/com/jakdor/gpsspeedometer/LocationCalculator.java:20-38 | the initial field values satisfy the invariant and mark the baseline as unset |
| Tracking.RunLocked | gpsSpeedometer/app/src/main/java/com/jakdor/gpsspeedometer/LocationCalculator.java:78-86 | while the gate never reports acceleration, a set stop lock stays set and neither distance nor time changes |
| Tracking.RunJitterRejected | gpsSpeedometer/app/src/main/java/com/jakdor/gpsspeedometer/LocationCalculator.java:83-86 | solver outcomes that are not segments above 0.4 m (short segments, NaN, coincident points) never change distance or time, however many arrive: from any state when no outcome is coincident, and from a stored distance not above 0.4 m otherwise, which the run then keeps |
| Tracking.RunStops | gpsSpeedometer/app/src/main/java/com/jakdor/gpsspeedometer/LocationCalculator.java:102-109 | after enough stationary ticks (at most four) the speed reads zero and the lock is set, with distance and time unchanged; further stationary ticks keep it so |
| Tracking.OneCoordinateIsStationary | gpsSpeedometer/app/src/main/java/com/jakdor/gpsspeedometer/LocationCalculator.java:75 | a fix that keeps either coordinate of the baseline is a stationary tick and adds no distance |
| Tracking.CoincidentRepeatsSegment | gpsSpeedometer/app/src/main/java/com/jakdor/gpsspeedometer/LocationCalculator.java:151-153 | a coincident-points outcome re-adds the previous segment, with one more period of time, when it is above the threshold and unlocked |
| MotionGate.JerkScale | gpsSpeedometer/app/src/main/java/com/jakdor/gpsspeedometer/LocationCalculator.java:263-267 | the scaled rate of change exceeds the threshold exactly when 500 times the change exceeds the elapsed milliseconds |
| MotionGate.Jerk | gpsSpeedometer/app/src/main/java/com/jakdor/gpsspeedometer/LocationCalculator.java:263-264 | the jerk is non-negative and above 20 exactly when 500 times the change of the axis sum exceeds the elapsed time |
| MotionGate.Step | gpsSpeedometer/app/src/main/java/com/jakdor/gpsspeedometer/LocationCalculator.java:246-274 | other sensors change nothing; an accelerometer event always stores its three values; after more than 100 ms it records the time and the values and sets the flag by the jerk criterion, otherwise time, previous values and flag are kept |
| Units.SpeedReading | gpsSpeedometer/app/src/main/java/com/jakdor/gpsspeedometer/LocationCalculator.java:215-220 | NaN reads as NaN; the reading divided by the unit's factor is the speed in m/s; a non-negative speed reads non-negative |
| Units.DistanceReading | gpsSpeedometer/app/src/main/java/com/jakdor/gpsspeedometer/LocationCalculator.java:222-227 | metric shows the metres themselves; the reading divided by the unit's factor is the metres; non-negative stays non-negative |
| Units.ReadingsAgree | gpsSpeedometer/app/src/main/java/com/jakdor/gpsspeedometer/LocationCalculator.java:215-220 | the metric and imperial readings denote the same speed |
| Speedometer.LocationCalculator.constructor | gpsSpeedometer/app/src/main/java/com/jakdor/gpsspeedometer/LocationCalculator.java:18-38 | the object starts in the initial pipeline state and in the initial gate state whose field values are those of lines 241-244, with fresh buffers, satisfying the invariant |
| Speedometer.LocationCalculator.Update | gpsSpeedometer/app/src/main/java/com/jakdor/gpsspeedometer/LocationCalculator.java:68-110 | one call changes the fields exactly as `Tracking.Tick` with the current `accelerating` flag, and keeps the invariant |
| Speedometer.LocationCalculator.Move | gpsSpeedometer/app/src/main/java/com/jakdor/gpsspeedometer/LocationCalculator.java:75-101 | the moved branch changes the fields exactly as `Tracking.MovingStep` |
| Speedometer.LocationCalculator.AccumulateSegment | gpsSpeedometer/app/src/main/java/com/jakdor/gpsspeedometer/LocationCalculator.java:78-86 | the lock is lifted on acceleration; distance and time grow exactly when the segment exceeds 0.4 m and no lock holds; nothing else changes |
| Speedometer.LocationCalculator.AverageAltitude | gpsSpeedometer/app/src/main/java/com/jakdor/gpsspeedometer/LocationCalculator.java:92-100 | the altitude fields change exactly as `Tracking.AltitudeStep`; nothing else changes |
| Speedometer.LocationCalculator.CalculateDistanceAdvance | gpsSpeedometer/app/src/main/java/com/jakdor/gpsspeedometer/LocationCalculator.java:135-186 | only `distance` changes, to `Tracking.Measured` of the solver outcome |
| Speedometer.LocationCalculator.CalculateSpeed | gpsSpeedometer/app/src/main/java/com/jakdor/gpsspeedometer/LocationCalculator.java:193-209 | the speed fields change exactly as `Tracking.SpeedStep`; nothing else changes |
| Speedometer.LocationCalculator.CalculateTime | gpsSpeedometer/app/src/main/java/com/jakdor/gpsspeedometer/LocationCalculator.java:211-213 | the timer advances by one period (one second) |
| Speedometer.LocationCalculator.GetSpeed | gpsSpeedometer/app/src/main/java/com/jakdor/gpsspeedometer/LocationCalculator.java:215-220 | the reading is NaN exactly when the stored speed is; divided by the unit's factor it is the stored m/s speed; it is zero, NaN or at least the minimum speed in that unit |
| Speedometer.LocationCalculator.GetDistanceSum | gpsSpeedometer/app/src/main/java/com/jakdor/gpsspeedometer/LocationCalculator.java:222-227 | metric returns the accumulated metres; any unit divides back to them; never negative |
| Speedometer.LocationCalculator.GetTimer | gpsSpeedometer/app/src/main/java/com/jakdor/gpsspeedometer/LocationCalculator.java:229-231 | the accumulated moving time, never negative |
| Speedometer.LocationCalculator.OnSensorChanged | gpsSpeedometer/app/src/main/java/com/jakdor/gpsspeedometer/LocationCalculator.java:246-274 | the gate fields and buffers change exactly as `MotionGate.Step`; the pipeline fields are untouched; the invariant is kept |

## Left out

- The ellipsoid (Vincenty) numerics of `calculateDistanceAdvance` are not
  computed. Each tick receives the solver's outcome as an input. Only the
  three outcomes that `update` can observe are modelled.
- `calculateDistanceSimple`, the haversine alternative, is left out. `update`
  does not call it.
- Doubles are modelled as exact reals with an explicit NaN. The model has
  no rounding, no infinities and no negative zero. The accelerometer's
  `float` values are reals as well. Latitude, longitude and altitude are
  never NaN in the model.
- `timer` and `lastUpdate` are Java `long`s. They are modelled as unbounded
  integers, so overflow is not modelled.
- The constructor's `Timer` scheduling and its `SensorManager`
  registration are left out. Each tick is a call to `Update`, with the fix
  the location provider returns passed as parameters.
- `System.currentTimeMillis()` becomes the `now` parameter of
  `OnSensorChanged`. The sensor event becomes the flag `isAccelerometer` and
  the event's values.
- The `accelerating` flag is shared between the sensor thread and the timer
  thread. Concurrency is not modelled: the two callbacks are sequential
  method calls.
- `getAccelerometerData` only formats a debug string, and it is left out.
  `onAccuracyChanged` has an empty body, and it is left out.
- The location provider, the main screen and the preferences screen are not
  part of this model.
- Speedometer.LocationCalculator.Move, AccumulateSegment and AverageAltitude
  are inline blocks of `update` in the source. They are separate methods
  here so that each proof stays small. Their statements and their order are
  those of the source.
