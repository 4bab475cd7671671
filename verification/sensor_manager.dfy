/**
 One polling tick of the IMU sensor manager (`read_and_publish`): a read that
 may fail, followed on success by the raw, speed and orientation outputs.
 The values that would be published are returned instead.
 */
module SensorManager {
  import opened Optional
  import opened RealMath
  import opened MotionSample
  import opened SpeedEstimator
  import opened Orientation

  /** Everything one successful tick publishes, one field per topic. */
  datatype Telemetry = Telemetry(
    gyroscope: Vec3, accelerometer: Vec3, speed: SpeedResult, orientation: OrientationResult)

  datatype TickOutcome = TickOutcome(state: EstimatorState, published: Option<Telemetry>)

  /**
   `read_and_publish` for the read result `sample`, with the clock reading
   `now` that `detect_speed` would take.
   */
  function ReadAndPublish(m: MathLib, st: EstimatorState, sample: Option<MotionSample>, now: real): (r: TickOutcome)
    ensures sample.None? ==> r.state == st && r.published.None?
    ensures sample.Some? ==> r.published.Some? && r.state.lastTime == now
    ensures sample.Some? ==> r.published.value.gyroscope == sample.value.Gyro()
    ensures sample.Some? ==> r.published.value.accelerometer == sample.value.Accel()
    ensures sample.Some? ==> r.state == Advance(m, st, sample.value, now)
    ensures sample.Some? ==> r.published.value.speed == ReportSpeed(m, r.state.velocity)
    ensures sample.Some? ==> 0.0 <= r.published.value.speed.speedMs
    ensures sample.Some? ==> r.published.value.orientation == DetectOrientation(m, sample.value)
    ensures sample.Some? ==>
      (r.published.value.orientation.upsideDown == MaxOrientationAngle <==> sample.value.az < UpsideDownThreshold)
  {
    match sample
    case None => TickOutcome(st, None)
    case Some(s) =>
      var step := DetectSpeed(m, st, s, now);
      TickOutcome(step.state, Some(Telemetry(s.Gyro(), s.Accel(), step.result, DetectOrientation(m, s))))
  }

  /** One poll of the sensor: what the read returned and the clock at that moment. */
  datatype Reading = Reading(sample: Option<MotionSample>, now: real)

  /** The estimator state after the polling loop has handled `readings` in order. */
  function Poll(m: MathLib, st: EstimatorState, readings: seq<Reading>): EstimatorState
    decreases |readings|
  {
    if |readings| == 0 then st
    else Poll(m, ReadAndPublish(m, st, readings[0].sample, readings[0].now).state, readings[1..])
  }

  /** The readings that returned a sample, in their original order. */
  function Successful(readings: seq<Reading>): (r: seq<Reading>)
    ensures |r| <= |readings|
    ensures forall i :: 0 <= i < |r| ==> r[i].sample.Some?
    decreases |readings|
  {
    if |readings| == 0 then []
    else if readings[0].sample.Some? then [readings[0]] + Successful(readings[1..])
    else Successful(readings[1..])
  }

  /** Failed reads leave no trace: polling gives the same state as polling only the good reads. */
  lemma {:induction false} FailedReadsInvisible(m: MathLib, st: EstimatorState, readings: seq<Reading>)
    ensures Poll(m, st, readings) == Poll(m, st, Successful(readings))
    decreases |readings|
  {
    if |readings| > 0 {
      var next := ReadAndPublish(m, st, readings[0].sample, readings[0].now).state;
      FailedReadsInvisible(m, next, readings[1..]);
      if readings[0].sample.Some? {
        var good := [readings[0]] + Successful(readings[1..]);
        assert good[0] == readings[0];
        assert good[1..] == Successful(readings[1..]);
      }
    }
  }

  /** The estimator ticks of readings that all returned a sample. */
  function Ticks(readings: seq<Reading>): (t: seq<Tick>)
    requires forall i :: 0 <= i < |readings| ==> readings[i].sample.Some?
    ensures |t| == |readings|
    ensures forall i :: 0 <= i < |t| ==> t[i] == Tick(readings[i].sample.value, readings[i].now)
    decreases |readings|
  {
    if |readings| == 0 then []
    else [Tick(readings[0].sample.value, readings[0].now)] + Ticks(readings[1..])
  }

  /** When every read succeeds, polling drives the estimator exactly as `Track` does. */
  lemma {:induction false} PollIsTrack(m: MathLib, st: EstimatorState, readings: seq<Reading>)
    requires forall i :: 0 <= i < |readings| ==> readings[i].sample.Some?
    ensures Poll(m, st, readings) == Track(m, st, Ticks(readings))
    decreases |readings|
  {
    if |readings| > 0 {
      var r0 := readings[0];
      var next := Advance(m, st, r0.sample.value, r0.now);
      assert ReadAndPublish(m, st, r0.sample, r0.now).state == next;
      PollIsTrack(m, next, readings[1..]);
      var t := Ticks(readings);
      assert t[0] == Tick(r0.sample.value, r0.now);
      assert t[1..] == Ticks(readings[1..]);
    }
  }

  /** Polling any readings ends in the state `Track` reaches on the successful ones. */
  lemma PollTracksSuccessfulReads(m: MathLib, st: EstimatorState, readings: seq<Reading>)
    ensures Poll(m, st, readings) == Track(m, st, Ticks(Successful(readings)))
  {
    FailedReadsInvisible(m, st, readings);
    PollIsTrack(m, st, Successful(readings));
  }
}
