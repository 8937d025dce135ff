/**
 * The per-tick update pipeline of the speedometer, as values: the state the
 * periodic update keeps, one tick of it, and runs of ticks.
 *
 * Geodesic distances are not computed here. The ellipsoid solver's outcome is
 * an input of each tick (see `Geodesic`).
 */
module Tracking {
  import opened Doubles

  /** scheduler period in milliseconds */
  const UPDATE_TIME: int := 1000
  /** the period in whole seconds: integer division, equal to 1 */
  const PERIOD: int := UPDATE_TIME / 1000
  /** segments of this length (metres) or less are jitter */
  const JITTER_THRESHOLD: real := 0.4
  /** stationary ticks that make a full stop */
  const STOP_TICKS: int := 4
  /** size of the speed window */
  const SPEED_WINDOW: int := 2
  /** size of the altitude window */
  const ALTITUDE_WINDOW: int := 4
  /** averaged speeds below this (m/s) read as standing still */
  const MIN_SPEED: real := 1.0

  /** One raw fix: degrees, degrees, metres. */
  datatype Fix = Fix(latitude: real, longitude: real, altitude: real)

  /**
   * What the ellipsoid solver does with the segment from the baseline to the
   * new fix: it stores a distance, stores NaN (because its iteration budget
   * ran out, or because its numerics produced NaN on the normal exit), or
   * returns early on coincident points, leaving the previous distance in
   * place.
   */
  datatype Geodesic = Value(d: real) | NonConverged | Coincident

  /** One tick's input: the fix, the solver's outcome, the gate's flag. */
  datatype Input = Input(fix: Fix, solver: Geodesic, accelerating: bool)

  datatype SpeedWindow = SpeedWindow(counter: int, sum: Num, average: Num)

  datatype AltitudeWindow = AltitudeWindow(counter: int, sum: real, average: real, lastAverage: real)

  datatype Pipeline = Pipeline(
    lastLatitude: real,
    lastLongitude: real,
    altitude: AltitudeWindow,
    speed: SpeedWindow,
    stopCounter: int,
    distance: Num,
    distanceSum: real,
    timer: int,
    stopLock: bool)

  /** The state before the first tick: every field zero, no lock. */
  const Initial: Pipeline :=
    Pipeline(0.0, 0.0, AltitudeWindow(0, 0.0, 0.0, 0.0), SpeedWindow(0, Finite(0.0), Finite(0.0)),
             0, Finite(0.0), 0.0, 0, false)

  /** A smoothed speed is zero, at least the minimum speed, or NaN. */
  predicate Clamped(speed: Num)
  {
    speed == Finite(0.0) || !Less(speed, MIN_SPEED)
  }

  /** What holds of the state between ticks. */
  predicate Inv(s: Pipeline)
  {
    && 0 <= s.stopCounter < STOP_TICKS
    && 0 <= s.speed.counter <= SPEED_WINDOW
    && 0 <= s.altitude.counter <= ALTITUDE_WINDOW
    && Clamped(s.speed.average)
    && s.distanceSum >= 0.0
    && s.timer >= 0
  }

  /** `(0, 0)` marks a baseline that has not been set yet. */
  predicate BaselineUnset(s: Pipeline)
  {
    s.lastLatitude == 0.0 && s.lastLongitude == 0.0
  }

  /** A fix counts as movement only when both coordinates differ from the baseline. */
  predicate Moved(s: Pipeline, fix: Fix)
  {
    fix.latitude != s.lastLatitude && fix.longitude != s.lastLongitude
  }

  /** The `distance` field after the solver ran. */
  function Measured(previous: Num, solver: Geodesic): (r: Num)
    ensures solver.Value? ==> r == Finite(solver.d)
    ensures solver.NonConverged? ==> r.NaN?
    ensures solver.Coincident? ==> r == previous
  {
    match solver
    case Value(d) => Finite(d)
    case NonConverged => NaN
    case Coincident => previous
  }

  /**
   * One speed sample into the window. The sample is the segment over one
   * period. While the counter is below the window size the sample is added;
   * otherwise the sample is added too, the sum is divided by the counter and
   * the window restarts at counter 1 with sum 0. An average below the minimum
   * speed is forced to zero.
   */
  function SpeedStep(w: SpeedWindow, distance: Num): (r: SpeedWindow)
    ensures w.counter >= 0 ==> 1 <= r.counter <= SPEED_WINDOW
    ensures Clamped(r.average)
    ensures w.counter < SPEED_WINDOW ==>
              r.counter == w.counter + 1 && r.sum == Add(w.sum, distance)
              && (r.average == w.average || (r.average == Finite(0.0) && !Clamped(w.average)))
    ensures w.counter >= SPEED_WINDOW ==>
              r.counter == 1 && r.sum == Finite(0.0)
              && (r.average.NaN? <==> w.sum.NaN? || distance.NaN?)
    // on a full window the average of the summed speeds is kept unless below the minimum
    ensures w.counter >= SPEED_WINDOW && w.sum.Finite? && distance.Finite? ==>
              var raw := (w.sum.v + distance.v / PERIOD as real) / w.counter as real;
              r.average == (if raw < MIN_SPEED then Finite(0.0) else Finite(raw))
  {
    var speed := Div(distance, PERIOD as real);
    var next :=
      if w.counter < SPEED_WINDOW then
        SpeedWindow(w.counter + 1, Add(w.sum, speed), w.average)
      else
        SpeedWindow(1, Finite(0.0), Div(Add(w.sum, speed), w.counter as real));
    if Less(next.average, MIN_SPEED) then next.(average := Finite(0.0)) else next
  }

  /**
   * One altitude sample into the window. Below the window size it is added;
   * on a full window the previous average is kept as the last one, the sum is
   * divided by the counter and the window restarts at counter 1 with sum 0,
   * the arriving sample not added.
   */
  function AltitudeStep(w: AltitudeWindow, altitude: real): (r: AltitudeWindow)
    ensures w.counter >= 0 ==> 1 <= r.counter <= ALTITUDE_WINDOW
    ensures w.counter < ALTITUDE_WINDOW ==>
              r == w.(counter := w.counter + 1, sum := w.sum + altitude)
    ensures w.counter == ALTITUDE_WINDOW ==>
              r.lastAverage == w.average && r.average * 4.0 == w.sum
              && r.sum == 0.0 && r.counter == 1
  {
    if w.counter < ALTITUDE_WINDOW then
      w.(counter := w.counter + 1, sum := w.sum + altitude)
    else
      AltitudeWindow(1, 0.0, w.sum / w.counter as real, w.average)
  }

  /**
   * A tick whose fix did not move: the stop counter goes up, and on reaching
   * the stop count it resets, the speed reads zero and the stop lock is set.
   * Nothing else changes.
   */
  function StationaryStep(s: Pipeline): (r: Pipeline)
    ensures r.(stopCounter := s.stopCounter, speed := s.speed, stopLock := s.stopLock) == s
    ensures r.speed.(average := s.speed.average) == s.speed
    ensures 0 <= s.stopCounter < STOP_TICKS ==> 0 <= r.stopCounter < STOP_TICKS
    ensures r.stopCounter == s.stopCounter + 1 || (r.stopCounter == 0 && r.stopLock && r.speed.average == Finite(0.0))
    ensures s.stopCounter >= 0 ==> (s.stopCounter + 1 == STOP_TICKS <==> r.stopCounter == 0)
    ensures r.stopLock != s.stopLock ==> r.stopLock && r.stopCounter == 0
    // short of a full stop, only the counter moves: the last speed stays on display
    ensures s.stopCounter + 1 != STOP_TICKS ==> r == s.(stopCounter := s.stopCounter + 1)
  {
    var count := s.stopCounter + 1;
    if count == STOP_TICKS then
      s.(stopCounter := 0, speed := s.speed.(average := Finite(0.0)), stopLock := true)
    else
      s.(stopCounter := count)
  }

  /**
   * The distance a tick credits: the measured segment when the fix moved, the
   * segment is longer than the jitter threshold and no lock holds once the
   * gate's flag has been taken into account; zero otherwise.
   */
  function Credit(s: Pipeline, fix: Fix, solver: Geodesic, accelerating: bool): (c: real)
    ensures c == 0.0 || c > JITTER_THRESHOLD
    ensures c != 0.0 <==>
              !BaselineUnset(s) && Moved(s, fix) && Greater(Measured(s.distance, solver), JITTER_THRESHOLD)
              && !(s.stopLock && !accelerating)
  {
    var segment := Measured(s.distance, solver);
    if !BaselineUnset(s) && Moved(s, fix) && Greater(segment, JITTER_THRESHOLD) && !(s.stopLock && !accelerating)
    then segment.v
    else 0.0
  }

  /**
   * A tick whose fix moved: measure the segment, feed the speed window, lift
   * the lock if the gate reports acceleration, accept the segment when it is
   * longer than the jitter threshold and not locked, move the baseline (also
   * for a rejected segment) and feed the altitude window.
   */
  function MovingStep(s: Pipeline, fix: Fix, solver: Geodesic, accelerating: bool): (r: Pipeline)
    ensures r.lastLatitude == fix.latitude && r.lastLongitude == fix.longitude
    ensures r.stopCounter == s.stopCounter
    ensures r.stopLock == (s.stopLock && !accelerating)
    ensures r.distance == Measured(s.distance, solver)
    ensures r.distanceSum == s.distanceSum || r.distanceSum > s.distanceSum + JITTER_THRESHOLD
    ensures r.distanceSum != s.distanceSum <==> Greater(r.distance, JITTER_THRESHOLD) && !r.stopLock
    ensures r.timer == (if r.distanceSum != s.distanceSum then s.timer + PERIOD else s.timer)
    ensures r.distanceSum == (if Greater(r.distance, JITTER_THRESHOLD) && !r.stopLock
                              then s.distanceSum + r.distance.v else s.distanceSum)
    ensures r.speed == SpeedStep(s.speed, r.distance) && r.altitude == AltitudeStep(s.altitude, fix.altitude)
  {
    var distance := Measured(s.distance, solver);
    var lock := s.stopLock && !accelerating;
    var accept := Greater(distance, JITTER_THRESHOLD) && !lock;
    Pipeline(
      fix.latitude,
      fix.longitude,
      AltitudeStep(s.altitude, fix.altitude),
      SpeedStep(s.speed, distance),
      s.stopCounter,
      distance,
      if accept then s.distanceSum + distance.v else s.distanceSum,
      if accept then s.timer + PERIOD else s.timer,
      lock)
  }

  /** One tick of the update loop. */
  function Tick(s: Pipeline, fix: Fix, solver: Geodesic, accelerating: bool): (r: Pipeline)
    // distance never decreases; time moves exactly when distance does, by one period
    ensures r.distanceSum >= s.distanceSum
    ensures r.distanceSum == s.distanceSum + Credit(s, fix, solver, accelerating)
    ensures r.timer == s.timer <==> r.distanceSum == s.distanceSum
    ensures r.timer == s.timer || (r.timer == s.timer + PERIOD && r.distanceSum > s.distanceSum + JITTER_THRESHOLD)
    // the first fix only sets the baseline
    ensures BaselineUnset(s) ==> r == s.(lastLatitude := fix.latitude, lastLongitude := fix.longitude)
    // a stationary tick touches only the stop counter, the speed reading and the lock
    ensures !BaselineUnset(s) && !Moved(s, fix) ==>
              r.(stopCounter := s.stopCounter, speed := s.speed, stopLock := s.stopLock) == s
    ensures !BaselineUnset(s) && !Moved(s, fix) && s.stopCounter + 1 != STOP_TICKS ==> r.speed == s.speed
    // a moving tick always moves the baseline and never touches the stop counter
    ensures !BaselineUnset(s) && Moved(s, fix) ==>
              r.lastLatitude == fix.latitude && r.lastLongitude == fix.longitude && r.stopCounter == s.stopCounter
    // a set lock is lifted only by a moving tick with acceleration, and blocks accumulation
    ensures s.stopLock && !r.stopLock ==> !BaselineUnset(s) && Moved(s, fix) && accelerating
    ensures s.stopLock && !accelerating ==> r.stopLock && r.distanceSum == s.distanceSum
    // a lock is set only by a full stop, which zeroes the speed reading
    ensures !s.stopLock && r.stopLock ==> r.stopCounter == 0 && r.speed.average == Finite(0.0)
    // a non-converged solver adds nothing
    ensures solver.NonConverged? ==> r.distanceSum == s.distanceSum
    ensures Inv(s) ==> Inv(r)
  {
    if BaselineUnset(s) then
      s.(lastLatitude := fix.latitude, lastLongitude := fix.longitude)
    else if Moved(s, fix) then
      MovingStep(s, fix, solver, accelerating)
    else
      StationaryStep(s)
  }

  /**
   * Movement needs both coordinates to change: a fix that keeps the
   * baseline's longitude (a walk due north, say) is a stationary tick, so it
   * adds no distance and counts towards a full stop.
   */
  lemma OneCoordinateIsStationary(s: Pipeline, fix: Fix, solver: Geodesic, accelerating: bool)
    requires !BaselineUnset(s)
    requires fix.latitude == s.lastLatitude || fix.longitude == s.lastLongitude
    ensures Tick(s, fix, solver, accelerating) == StationaryStep(s)
    ensures Tick(s, fix, solver, accelerating).distanceSum == s.distanceSum
  {
  }

  /**
   * Coincident points leave the previous segment in `distance`, so a moving
   * tick that reaches them adds that stale segment once more when it is above
   * the jitter threshold and no lock holds.
   */
  lemma CoincidentRepeatsSegment(s: Pipeline, fix: Fix, accelerating: bool)
    requires !BaselineUnset(s) && Moved(s, fix)
    requires Greater(s.distance, JITTER_THRESHOLD)
    requires !s.stopLock || accelerating
    ensures Tick(s, fix, Coincident, accelerating).distanceSum == s.distanceSum + s.distance.v
    ensures Tick(s, fix, Coincident, accelerating).timer == s.timer + PERIOD
  {
  }

  /** A sequence of ticks, in order. */
  function Run(s: Pipeline, inputs: seq<Input>): Pipeline
    decreases |inputs|
  {
    if inputs == [] then s
    else Run(Tick(s, inputs[0].fix, inputs[0].solver, inputs[0].accelerating), inputs[1..])
  }

  /**
   * Over any run, the distance never decreases, the moving time never
   * decreases, time moves only when distance does, and every credited second
   * stands for more than the jitter threshold of distance.
   */
  lemma {:induction false} RunAccumulates(s: Pipeline, inputs: seq<Input>)
    ensures Run(s, inputs).distanceSum >= s.distanceSum
    ensures Run(s, inputs).timer >= s.timer
    ensures Run(s, inputs).timer == s.timer <==> Run(s, inputs).distanceSum == s.distanceSum
    ensures Run(s, inputs).distanceSum - s.distanceSum
         >= JITTER_THRESHOLD * (Run(s, inputs).timer - s.timer) as real
    decreases |inputs|
  {
    if inputs != [] {
      var t := Tick(s, inputs[0].fix, inputs[0].solver, inputs[0].accelerating);
      RunAccumulates(t, inputs[1..]);
    }
  }

  /** The distance credited over a run: the sum of the per-tick credits. */
  function Credited(s: Pipeline, inputs: seq<Input>): real
    decreases |inputs|
  {
    if inputs == [] then 0.0
    else
      Credit(s, inputs[0].fix, inputs[0].solver, inputs[0].accelerating)
      + Credited(Tick(s, inputs[0].fix, inputs[0].solver, inputs[0].accelerating), inputs[1..])
  }

  /** The number of ticks of a run that credit a segment. */
  function CreditedTicks(s: Pipeline, inputs: seq<Input>): nat
    decreases |inputs|
  {
    if inputs == [] then 0
    else
      (if Credit(s, inputs[0].fix, inputs[0].solver, inputs[0].accelerating) != 0.0 then 1 else 0)
      + CreditedTicks(Tick(s, inputs[0].fix, inputs[0].solver, inputs[0].accelerating), inputs[1..])
  }

  /**
   * Over any run, the distance is the starting distance plus exactly the
   * accepted segments, and the moving time is the starting time plus one
   * period per accepted segment.
   */
  lemma {:induction false} RunTotals(s: Pipeline, inputs: seq<Input>)
    ensures Run(s, inputs).distanceSum == s.distanceSum + Credited(s, inputs)
    ensures Run(s, inputs).timer == s.timer + PERIOD * CreditedTicks(s, inputs)
    decreases |inputs|
  {
    if inputs != [] {
      var t := Tick(s, inputs[0].fix, inputs[0].solver, inputs[0].accelerating);
      RunTotals(t, inputs[1..]);
    }
  }

  /** The between-ticks invariant holds after any run that starts in it. */
  lemma {:induction false} RunKeepsInv(s: Pipeline, inputs: seq<Input>)
    requires Inv(s)
    ensures Inv(Run(s, inputs))
    decreases |inputs|
  {
    if inputs != [] {
      RunKeepsInv(Tick(s, inputs[0].fix, inputs[0].solver, inputs[0].accelerating), inputs[1..]);
    }
  }

  lemma InitialInv()
    ensures Inv(Initial) && BaselineUnset(Initial)
  {
  }

  /**
   * While the gate never reports acceleration, a set stop lock stays set and
   * neither distance nor moving time changes.
   */
  lemma {:induction false} RunLocked(s: Pipeline, inputs: seq<Input>)
    requires s.stopLock
    requires forall i :: 0 <= i < |inputs| ==> !inputs[i].accelerating
    ensures Run(s, inputs).stopLock
    ensures Run(s, inputs).distanceSum == s.distanceSum
    ensures Run(s, inputs).timer == s.timer
    decreases |inputs|
  {
    if inputs != [] {
      RunLocked(Tick(s, inputs[0].fix, inputs[0].solver, inputs[0].accelerating), inputs[1..]);
    }
  }

  /** A solver outcome that is no segment longer than the jitter threshold. */
  predicate Jitter(solver: Geodesic)
  {
    !(solver.Value? && solver.d > JITTER_THRESHOLD)
  }

  /**
   * A run whose solver never reports a segment above the jitter threshold
   * adds no distance and no time, from any state when no outcome is
   * coincident, and otherwise from a stored distance not above the threshold
   * (a coincident outcome repeats the stored distance).
   */
  lemma {:induction false} RunJitterRejected(s: Pipeline, inputs: seq<Input>)
    requires !Greater(s.distance, JITTER_THRESHOLD) || forall i :: 0 <= i < |inputs| ==> !inputs[i].solver.Coincident?
    requires forall i :: 0 <= i < |inputs| ==> Jitter(inputs[i].solver)
    ensures Run(s, inputs).distanceSum == s.distanceSum
    ensures Run(s, inputs).timer == s.timer
    ensures !Greater(s.distance, JITTER_THRESHOLD) ==> !Greater(Run(s, inputs).distance, JITTER_THRESHOLD)
    decreases |inputs|
  {
    if inputs != [] {
      var t := Tick(s, inputs[0].fix, inputs[0].solver, inputs[0].accelerating);
      assert !Greater(s.distance, JITTER_THRESHOLD) ==> !Greater(t.distance, JITTER_THRESHOLD);
      assert forall i :: 0 <= i < |inputs[1..]| ==> inputs[1..][i] == inputs[i + 1];
      RunJitterRejected(t, inputs[1..]);
    }
  }


  /**
   * Enough stationary ticks force a full stop: after at least as many ticks
   * as the stop counter is short of the stop count (so after any four), the
   * speed reads zero and the stop lock is set. Once stopped, further
   * stationary ticks keep it so.
   */
  lemma {:induction false} RunStops(s: Pipeline, inputs: seq<Input>)
    requires !BaselineUnset(s)
    requires 0 <= s.stopCounter < STOP_TICKS
    requires forall i :: 0 <= i < |inputs| ==> !Moved(s, inputs[i].fix)
    requires |inputs| >= STOP_TICKS - s.stopCounter || (s.stopLock && s.speed.average == Finite(0.0))
    ensures Run(s, inputs).stopLock
    ensures Run(s, inputs).speed.average == Finite(0.0)
    ensures Run(s, inputs).distanceSum == s.distanceSum && Run(s, inputs).timer == s.timer
    decreases |inputs|
  {
    if inputs != [] {
      var t := Tick(s, inputs[0].fix, inputs[0].solver, inputs[0].accelerating);
      assert t == StationaryStep(s);
      forall i | 0 <= i < |inputs[1..]|
        ensures !Moved(t, inputs[1..][i].fix)
      {
        assert inputs[1..][i] == inputs[i + 1];
      }
      RunStops(t, inputs[1..]);
    }
  }
}
