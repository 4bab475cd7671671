/**
 The orientation classifier of the IMU sensor manager: pitch and roll from
 the raw accelerometer axes, an upside-down flag, and four tilt buckets with
 a dead zone of one degree and a ceiling of ninety.
 */
module Orientation {
  import opened RealMath
  import opened MotionSample

  /** Compared with the raw z reading, in the raw sensor units. */
  const UpsideDownThreshold: real := -9.0
  const MaxOrientationAngle: real := 90.0
  /** Tilts of at most this many degrees either way are not reported. */
  const DeadZone: real := 1.0

  /** Degrees of tilt per direction (before rounding) and the upside-down flag (90 or 0). */
  datatype OrientationResult = OrientationResult(
    forward: real, backward: real, left: real, right: real, upsideDown: real)

  /** pitch = degrees(atan2(-ax, sqrt(ay^2 + az^2))) */
  function Pitch(m: MathLib, s: MotionSample): real {
    m.degrees(m.atan2(-s.ax, m.sqrt(s.ay * s.ay + s.az * s.az)))
  }

  /** roll = degrees(atan2(ay, az)) */
  function Roll(m: MathLib, s: MotionSample): real {
    m.degrees(m.atan2(s.ay, s.az))
  }

  /** The value reported for a tilt: its size, capped at the maximum angle. */
  function Capped(angle: real): real {
    Min(Abs(angle), MaxOrientationAngle)
  }

  /**
   The classification for a raw z reading `az` and angles `pitch` and `roll`
   in degrees: positive pitch is forward, positive roll is right.
   */
  function Classify(az: real, pitch: real, roll: real): (r: OrientationResult)
    ensures r.upsideDown == MaxOrientationAngle <==> az < UpsideDownThreshold
    ensures r.upsideDown == 0.0 <==> !(az < UpsideDownThreshold)
    ensures r.upsideDown != 0.0 ==> r.forward == 0.0 && r.backward == 0.0 && r.left == 0.0 && r.right == 0.0
    ensures r.forward == 0.0 || r.backward == 0.0
    ensures r.left == 0.0 || r.right == 0.0
    ensures r.upsideDown == 0.0 ==> (r.forward != 0.0 <==> pitch > DeadZone)
    ensures r.upsideDown == 0.0 ==> (r.backward != 0.0 <==> pitch < -DeadZone)
    ensures r.upsideDown == 0.0 ==> (r.right != 0.0 <==> roll > DeadZone)
    ensures r.upsideDown == 0.0 ==> (r.left != 0.0 <==> roll < -DeadZone)
    ensures -DeadZone <= pitch <= DeadZone ==> r.forward == 0.0 && r.backward == 0.0
    ensures -DeadZone <= roll <= DeadZone ==> r.left == 0.0 && r.right == 0.0
    ensures r.forward == 0.0 || (DeadZone < r.forward <= MaxOrientationAngle && r.forward == Capped(pitch))
    ensures r.backward == 0.0 || (DeadZone < r.backward <= MaxOrientationAngle && r.backward == Capped(pitch))
    ensures r.left == 0.0 || (DeadZone < r.left <= MaxOrientationAngle && r.left == Capped(roll))
    ensures r.right == 0.0 || (DeadZone < r.right <= MaxOrientationAngle && r.right == Capped(roll))
  {
    var upsideDown := if az < UpsideDownThreshold then MaxOrientationAngle else 0.0;
    if upsideDown != 0.0 then
      OrientationResult(0.0, 0.0, 0.0, 0.0, upsideDown)
    else
      var forward := if pitch > DeadZone then Min(pitch, MaxOrientationAngle) else 0.0;
      var backward := if !(pitch > DeadZone) && pitch < -DeadZone then Min(Abs(pitch), MaxOrientationAngle) else 0.0;
      var right := if roll > DeadZone then Min(roll, MaxOrientationAngle) else 0.0;
      var left := if !(roll > DeadZone) && roll < -DeadZone then Min(Abs(roll), MaxOrientationAngle) else 0.0;
      OrientationResult(forward, backward, left, right, upsideDown)
  }

  /** One call of `detect_orientation` on sample `s`, publishing left out. */
  function DetectOrientation(m: MathLib, s: MotionSample): (r: OrientationResult)
    ensures r.upsideDown == MaxOrientationAngle <==> s.az < UpsideDownThreshold
    ensures r.upsideDown != 0.0 ==> r.forward == 0.0 && r.backward == 0.0 && r.left == 0.0 && r.right == 0.0
  {
    Classify(s.az, Pitch(m, s), Roll(m, s))
  }

  /**
   Reference reading of a tilt, independent of the bucket logic: clamp the
   angle to [-90, 90], then drop it if it lies inside the dead zone.
   */
  function SignedTilt(angle: real): real {
    var clamped := Max(-MaxOrientationAngle, Min(angle, MaxOrientationAngle));
    if -DeadZone <= clamped <= DeadZone then 0.0 else clamped
  }

  /**
   When the device is not upside down, each pair of buckets encodes the
   signed, clamped, dead-zoned tilt: forward minus backward is the pitch,
   right minus left is the roll.
   */
  lemma BucketsEncodeSignedTilt(az: real, pitch: real, roll: real)
    requires !(az < UpsideDownThreshold)
    ensures Classify(az, pitch, roll).forward - Classify(az, pitch, roll).backward == SignedTilt(pitch)
    ensures Classify(az, pitch, roll).right - Classify(az, pitch, roll).left == SignedTilt(roll)
  {
  }

  /** Tilting further forward never reports less forward tilt nor more backward tilt. */
  lemma ClassifyMonotone(az: real, pitch1: real, pitch2: real, roll: real)
    requires pitch1 <= pitch2
    ensures Classify(az, pitch1, roll).forward <= Classify(az, pitch2, roll).forward
    ensures Classify(az, pitch1, roll).backward >= Classify(az, pitch2, roll).backward
  {
  }

  /** A level device reading +1 g on z (16384 counts) is reported level and upright. */
  lemma LevelSampleIsLevel(m: MathLib)
    requires Valid(m)
    ensures DetectOrientation(m, MotionSample(0.0, 0.0, 0.0, 0.0, 0.0, 16384.0))
            == OrientationResult(0.0, 0.0, 0.0, 0.0, 0.0)
  {
    var s := MotionSample(0.0, 0.0, 0.0, 0.0, 0.0, 16384.0);
    var q := s.ay * s.ay + s.az * s.az;
    assert 0.0 < q;
    var root := m.sqrt(q);
    assert 0.0 <= root && root * root == q;
    assert 0.0 < root;
    assert Pitch(m, s) == 0.0;
    assert Roll(m, s) == 0.0;
  }

  /** A reading of -9.1 g on z is reported upside down with no tilt. */
  lemma InvertedSampleIsUpsideDown(m: MathLib, gx: real, gy: real, gz: real, ax: real, ay: real)
    ensures DetectOrientation(m, MotionSample(gx, gy, gz, ax, ay, -16384.0 * 9.1))
            == OrientationResult(0.0, 0.0, 0.0, 0.0, MaxOrientationAngle)
  {
  }
}
