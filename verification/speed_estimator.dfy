/**
 The speed estimator of the IMU sensor manager: a state machine over
 (velocity, time of the previous sample, count of consecutive stationary
 samples) that turns raw accelerometer readings into a speed.
 */
module SpeedEstimator {
  import opened RealMath
  import opened MotionSample

  /** LSB per g in the sensor's +-2 g range. */
  const Sensitivity: real := 16384.0
  /** Earth's gravity in m/s^2. */
  const GravityConstant: real := 9.8
  /** Physical accelerations below this magnitude, per axis, are treated as noise. */
  const NoiseThreshold: real := 0.05
  /** Factor applied to the velocity once the device is judged stationary. */
  const DecayFactor: real := 0.5
  const MsToKmph: real := 3.6
  /** A sample is stationary when its norm exceeds gravity by less than this. */
  const StationaryResetThreshold: real := 0.7
  /** Decay starts once more than this many consecutive samples were stationary. */
  const StationaryIterationsThreshold: nat := 20
  /** Baseline subtracted from the velocity's norm before it is reported. */
  const SpeedOffset: real := 1.0

  /** What the estimator keeps between samples. */
  datatype EstimatorState = EstimatorState(velocity: Vec3, lastTime: real, stationaryCount: nat)

  /** Speed in m/s and km/h, before rounding to two decimals. */
  datatype SpeedResult = SpeedResult(speedMs: real, speedKmph: real)

  datatype SpeedStep = SpeedStep(state: EstimatorState, result: SpeedResult)

  /** The state at construction: at rest, clock read at `now`. */
  function Init(now: real): EstimatorState {
    EstimatorState(Zero, now, 0)
  }

  /** Raw accelerometer counts to m/s^2: divide by the sensitivity, multiply by gravity. */
  function ToPhysical(raw: Vec3): Vec3 {
    Vec3(raw.x / Sensitivity * GravityConstant,
         raw.y / Sensitivity * GravityConstant,
         raw.z / Sensitivity * GravityConstant)
  }

  function GateAxis(a: real): real {
    if Abs(a) < NoiseThreshold then 0.0 else a
  }

  /** Zeroes every axis whose magnitude is below the noise threshold and keeps the others. */
  function NoiseGate(a: Vec3): (g: Vec3)
    ensures Abs(a.x) < NoiseThreshold ==> g.x == 0.0
    ensures Abs(a.y) < NoiseThreshold ==> g.y == 0.0
    ensures Abs(a.z) < NoiseThreshold ==> g.z == 0.0
    ensures NoiseThreshold <= Abs(a.x) ==> g.x == a.x
    ensures NoiseThreshold <= Abs(a.y) ==> g.y == a.y
    ensures NoiseThreshold <= Abs(a.z) ==> g.z == a.z
  {
    Vec3(GateAxis(a.x), GateAxis(a.y), GateAxis(a.z))
  }

  /** The acceleration the estimator works with: scaled first, gated second. */
  function GatedAccel(s: MotionSample): Vec3 {
    NoiseGate(ToPhysical(s.Accel()))
  }

  predicate Stationary(m: MathLib, a: Vec3) {
    Norm(m, a) - GravityConstant < StationaryResetThreshold
  }

  /** The sample `s` taken in state `st` triggers the velocity decay. */
  predicate Decays(m: MathLib, st: EstimatorState, s: MotionSample) {
    Stationary(m, GatedAccel(s)) && st.stationaryCount + 1 > StationaryIterationsThreshold
  }

  /**
   The state update of one call of `detect_speed` at clock reading `now`. The
   velocity update is written as the source writes it, v + (d - v); the
   contract states what it amounts to.
   */
  function Advance(m: MathLib, st: EstimatorState, s: MotionSample, now: real): (next: EstimatorState)
    ensures next.lastTime == now
    ensures !Decays(m, st, s) ==> next.velocity == Scale(now - st.lastTime, GatedAccel(s))
    ensures Decays(m, st, s) ==> next.velocity == Scale(DecayFactor, Scale(now - st.lastTime, GatedAccel(s)))
    ensures Stationary(m, GatedAccel(s)) ==> next.stationaryCount == st.stationaryCount + 1
    ensures !Stationary(m, GatedAccel(s)) ==> next.stationaryCount == 0
  {
    var accel := GatedAccel(s);
    var dt := now - st.lastTime;
    var deltaVelocity := Scale(dt, accel);
    var velocity := Add(st.velocity, Sub(deltaVelocity, st.velocity));
    assert velocity == deltaVelocity;
    var iVel := Norm(m, accel) - GravityConstant;
    if iVel < StationaryResetThreshold then
      var count := st.stationaryCount + 1;
      EstimatorState(if count > StationaryIterationsThreshold then Scale(DecayFactor, velocity) else velocity,
                     now, count)
    else
      EstimatorState(velocity, now, 0)
  }

  /** The speed reported for velocity `v`: its length less the baseline, floored at 0. */
  function ReportSpeed(m: MathLib, v: Vec3): (r: SpeedResult)
    ensures 0.0 <= r.speedMs
    ensures r.speedKmph == r.speedMs * MsToKmph
  {
    var speed := Max(0.0, Norm(m, v) - SpeedOffset);
    SpeedResult(speed, speed * MsToKmph)
  }

  /** One call of `detect_speed`: the new state and the speed it reports. */
  function DetectSpeed(m: MathLib, st: EstimatorState, s: MotionSample, now: real): (r: SpeedStep)
    ensures r.state == Advance(m, st, s, now)
    ensures r.result == ReportSpeed(m, r.state.velocity)
    ensures 0.0 <= r.result.speedMs
    ensures r.result.speedKmph == r.result.speedMs * MsToKmph
  {
    var next := Advance(m, st, s, now);
    SpeedStep(next, ReportSpeed(m, next.velocity))
  }

  /** Scaling is undone by multiplying back with sensitivity over gravity. */
  lemma ToPhysicalInverse(raw: Vec3)
    ensures Scale(Sensitivity / GravityConstant, ToPhysical(raw)) == raw
  {
  }

  /** In raw units the noise gate sits at 0.05 * 16384 / 9.8 counts. */
  lemma GateInRawUnits(raw: real)
    ensures Abs(raw / Sensitivity * GravityConstant) < NoiseThreshold
            <==> Abs(raw) < NoiseThreshold * Sensitivity / GravityConstant
  {
  }

  /** Gating twice gates nothing more: what survives the gate is not noise. */
  lemma NoiseGateIdempotent(a: Vec3)
    ensures NoiseGate(NoiseGate(a)) == NoiseGate(a)
  {
  }

  /** A sample whose every scaled axis is noise yields zero velocity, whatever `dt` is. */
  lemma QuietSampleZeroVelocity(m: MathLib, st: EstimatorState, s: MotionSample, now: real)
    requires Abs(ToPhysical(s.Accel()).x) < NoiseThreshold
    requires Abs(ToPhysical(s.Accel()).y) < NoiseThreshold
    requires Abs(ToPhysical(s.Accel()).z) < NoiseThreshold
    ensures GatedAccel(s) == Zero
    ensures DetectSpeed(m, st, s, now).state.velocity == Zero
  {
  }

  /** When the norm maps the zero vector to 0, a quiet sample also counts as stationary and reports speed 0. */
  lemma QuietSampleStationary(m: MathLib, st: EstimatorState, s: MotionSample, now: real)
    requires m.norm(Zero) == 0.0
    requires Abs(ToPhysical(s.Accel()).x) < NoiseThreshold
    requires Abs(ToPhysical(s.Accel()).y) < NoiseThreshold
    requires Abs(ToPhysical(s.Accel()).z) < NoiseThreshold
    ensures DetectSpeed(m, st, s, now).state.stationaryCount == st.stationaryCount + 1
    ensures DetectSpeed(m, st, s, now).result == SpeedResult(0.0, 0.0)
  {
    QuietSampleZeroVelocity(m, st, s, now);
    ReportAtRest(m);
  }

  /** A device at rest reports speed 0 in both units. */
  lemma ReportAtRest(m: MathLib)
    requires m.norm(Zero) == 0.0
    ensures ReportSpeed(m, Zero) == SpeedResult(0.0, 0.0)
  {
    assert ReportSpeed(m, Zero).speedMs == 0.0;
  }

  /**
   The first step after construction at clock `t0` takes `dt = now - t0`:
   its velocity is `accel * (now - t0)` (the counter cannot yet reach the
   decay threshold), and the counter is 1 or 0.
   */
  lemma FirstStepFromInit(m: MathLib, t0: real, s: MotionSample, now: real)
    ensures Advance(m, Init(t0), s, now).velocity == Scale(now - t0, GatedAccel(s))
    ensures Advance(m, Init(t0), s, now).stationaryCount == (if Stationary(m, GatedAccel(s)) then 1 else 0)
    ensures Advance(m, Init(t0), s, now).lastTime == now
  {
    assert !Decays(m, Init(t0), s);
  }

  /** With a real norm, the state at construction reports speed 0 in both units. */
  lemma InitAtRest(m: MathLib, t0: real)
    requires Valid(m)
    ensures ReportSpeed(m, Init(t0).velocity) == SpeedResult(0.0, 0.0)
  {
    NormZero(m, Zero);
    ReportAtRest(m);
  }

  /** Stationary means the squared norm of the acceleration is below (9.8 + 0.7)^2. */
  lemma StationaryIffSquaredNorm(m: MathLib, a: Vec3)
    requires Valid(m)
    ensures Stationary(m, a) <==> SquaredNorm(a) < 110.25
  {
    NormBelow(m, a, GravityConstant + StationaryResetThreshold);
  }

  /**
   The reported speed is zero exactly when the velocity has length at most
   1 m/s, and otherwise is that length minus 1.
   */
  lemma ReportSpeedMeaning(m: MathLib, v: Vec3)
    requires Valid(m)
    ensures ReportSpeed(m, v).speedMs == 0.0 <==> SquaredNorm(v) <= 1.0
    ensures 0.0 < ReportSpeed(m, v).speedMs ==>
      (ReportSpeed(m, v).speedMs + SpeedOffset) * (ReportSpeed(m, v).speedMs + SpeedOffset) == SquaredNorm(v)
  {
    NormBelow(m, v, SpeedOffset);
    var n := Norm(m, v);
    assert 0.0 <= n && n * n == SquaredNorm(v);
    if SquaredNorm(v) == 1.0 && n > 1.0 {
      SquareStrictlyIncreasing(1.0, n);
    }
  }

  /** The previous velocity never survives a step: only the clock and the counter matter. */
  lemma PreviousVelocityForgotten(m: MathLib, st1: EstimatorState, st2: EstimatorState,
                                  s: MotionSample, now: real)
    requires st1.lastTime == st2.lastTime
    requires st1.stationaryCount == st2.stationaryCount
    ensures DetectSpeed(m, st1, s, now) == DetectSpeed(m, st2, s, now)
  {
    var a1, a2 := Advance(m, st1, s, now), Advance(m, st2, s, now);
    assert Decays(m, st1, s) == Decays(m, st2, s);
    assert a1.velocity == a2.velocity;
    assert a1 == a2;
  }

  /** One polling tick handed to the estimator: the sample and the clock reading. */
  datatype Tick = Tick(sample: MotionSample, now: real)

  /** The state after feeding `ticks` to the estimator, first tick first. */
  function Track(m: MathLib, st: EstimatorState, ticks: seq<Tick>): EstimatorState
    decreases |ticks|
  {
    if |ticks| == 0 then st
    else Track(m, Advance(m, st, ticks[0].sample, ticks[0].now), ticks[1..])
  }

  ghost predicate AllStationary(m: MathLib, ticks: seq<Tick>) {
    forall i :: 0 <= i < |ticks| ==> Stationary(m, GatedAccel(ticks[i].sample))
  }

  /** Every consecutive stationary tick adds exactly one to the counter. */
  lemma {:induction false} StationaryRunCounts(m: MathLib, st: EstimatorState, ticks: seq<Tick>)
    requires AllStationary(m, ticks)
    ensures Track(m, st, ticks).stationaryCount == st.stationaryCount + |ticks|
    decreases |ticks|
  {
    if |ticks| > 0 {
      var next := Advance(m, st, ticks[0].sample, ticks[0].now);
      assert next.stationaryCount == st.stationaryCount + 1;
      var rest := ticks[1..];
      assert forall i :: 0 <= i < |rest| ==> rest[i] == ticks[i + 1];
      StationaryRunCounts(m, next, rest);
    }
  }

  /**
   Starting from a zero counter, after a run of `ticks` stationary samples the
   next stationary sample `s` -- the run's (|ticks| + 1)-th -- decays the
   velocity exactly when it is the 21st or a later one.
   */
  lemma {:induction false} DecayFromTwentyFirstTick(m: MathLib, st: EstimatorState, ticks: seq<Tick>, s: MotionSample)
    requires st.stationaryCount == 0
    requires AllStationary(m, ticks)
    requires Stationary(m, GatedAccel(s))
    ensures Decays(m, Track(m, st, ticks), s) <==> 21 <= |ticks| + 1
  {
    StationaryRunCounts(m, st, ticks);
  }
}
