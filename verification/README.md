# IMU motion inference, modelled in Dafny

This project models the motion-inference logic of `IMUSensorManager` in
`bmi_160_i2c/IMUProcessor.py`. The manager polls a BMI160 six-axis sensor
and derives three things from each reading:

- **Speed estimator** (`detect_speed`). It keeps a velocity, the time of the
  previous sample and a count of consecutive "stationary" samples. Each step
  scales the raw accelerometer counts to m/s² (divide by 16384, multiply by
  9.8) and zeroes every axis below 0.05. It computes `dt` from the clock
  reading and replaces the velocity with `accel * dt`: the source writes
  `v += (d - v)`, which over the reals is `v := d`. A sample is stationary
  when `‖accel‖ - 9.8 < 0.7`. Stationary samples increment the counter and
  any other sample resets it to 0. Once the incremented counter exceeds 20,
  the velocity is halved. The reported speed is `max(0, ‖v‖ - 1)` in m/s and
  that value times 3.6 in km/h.
- **Orientation classifier** (`detect_orientation`). Pitch and roll come from
  the raw accelerometer axes through `atan2`, `sqrt` and `degrees`. The
  device is upside down (flag 90, otherwise 0) when the raw `az` is below
  -9.0. The comparison is against the raw count, exactly as the source
  writes it. When the device is not upside down, pitch above 1° reports
  forward and pitch below -1° reports backward. Roll above 1° reports right
  and roll below -1° reports left. Each reported value is `min(|angle|, 90)`.
- **Direction intensities** (`calculate_direction_intensities`). The
  gyroscope x rate splits into forward (negative) and backward (positive)
  intensities, and the y rate into left (positive) and right (negative).
  Each intensity is divided by 5000.

`read_and_publish` is modelled as one tick over an optional sample. A failed
read (`None`) does nothing. A successful read produces the raw gyroscope and
accelerometer triples, the speed result and the orientation result. Those
values would be published; here they are returned. `SpeedEstimator.Init`
is the state at construction: zero velocity, the clock at construction, and
a counter of 0.

Python floats are modelled as Dafny `real`. numpy's `linalg.norm`, `sqrt`,
`arctan2` and `degrees` are supplied as a `RealMath.MathLib` value of total
functions, and the clock reading `now` is a parameter. No operation needs
anything of these functions. The lemmas that do need something say so with
`RealMath.Valid`. That predicate holds four facts: the norm is non-negative
and squares to `x² + y² + z²`; the square root is a real square root;
`atan2(0, x) = 0` for `x > 0`; and `degrees(0) = 0`.
`QuietSampleStationary` and `ReportAtRest` assume only that the norm of the
zero vector is 0; `InitAtRest` derives that fact from `Valid`.

Modules, one per component:

- `Optional`: the `Option` type of a read that may fail.
- `RealMath`: vectors, `Abs`/`Min`/`Max`, the supplied functions and facts
  about norms.
- `MotionSample`: the six-field raw sample.
- `SpeedEstimator`, `Orientation` and `DirectionIntensities`: the three
  parts of the core.
- `SensorManager`: `read_and_publish` and the polling of many readings.

Two comments in the source disagree with the code next to them, and the
model follows the code:

- `NOISE_THRESHOLD` (IMUProcessor.py:23) is documented as "in g", but line
  110 compares it with the acceleration already scaled to m/s² (lines
  106-108). The gate therefore sits at 0.05 m/s², about 83.6 raw counts.
- `UPSIDE_DOWN_THRESHOLD` (IMUProcessor.py:29) is documented as an
  acceleration in m/s², but line 158 compares it with the raw `az` count,
  so any reading below -9 counts is upside down.

## Model

| member | source | states |
|---|---|---|
| `SpeedEstimator.FirstStepFromInit` | bmi_160_i2c/IMUProcessor.py:61-64 | the first step after construction at clock `t0` takes `dt = now - t0`: the velocity is `accel·(now - t0)` with no decay, the counter is 1 on a stationary sample and 0 otherwise, and `last_time` becomes `now` |
| `SpeedEstimator.InitAtRest` | bmi_160_i2c/IMUProcessor.py:61-64 | the zero velocity set at construction reports speed 0 m/s and 0 km/h |
| `SpeedEstimator.NoiseGate` | bmi_160_i2c/IMUProcessor.py:109-110 | every axis below 0.05 in magnitude becomes 0; every other axis is left unchanged |
| `SpeedEstimator.NoiseGateIdempotent` | bmi_160_i2c/IMUProcessor.py:110 | gating an already gated acceleration changes nothing |
| `SpeedEstimator.ToPhysicalInverse` | bmi_160_i2c/IMUProcessor.py:106-108 | scaling by gravity over sensitivity loses nothing: multiplying back by 16384/9.8 recovers the raw counts |
| `SpeedEstimator.GateInRawUnits` | bmi_160_i2c/IMUProcessor.py:106-110 | the gate is applied after scaling, so in raw counts it sits at 0.05·16384/9.8 |
| `SpeedEstimator.Advance` | bmi_160_i2c/IMUProcessor.py:112-130 | the new `last_time` is `now`; the velocity is `accel·dt` with `dt = now - last_time` when no decay fires and `0.5·accel·dt` when it does, so the previous velocity is gone; the counter grows by exactly 1 on a stationary sample and is 0 otherwise |
| `SpeedEstimator.ReportSpeed` | bmi_160_i2c/IMUProcessor.py:132-134 | the reported speed is never negative and the km/h value is the m/s value times 3.6 |
| `SpeedEstimator.DetectSpeed` | bmi_160_i2c/IMUProcessor.py:101-134 | one call gives the `Advance` state and a speed for the new velocity that is ≥ 0, with km/h equal to 3.6 times m/s |
| `SpeedEstimator.PreviousVelocityForgotten` | bmi_160_i2c/IMUProcessor.py:118-120 | two states that differ only in velocity give identical steps: the old velocity never survives |
| `SpeedEstimator.QuietSampleZeroVelocity` | bmi_160_i2c/IMUProcessor.py:106-120 | if every scaled axis is below the gate, the gated acceleration and the new velocity are the zero vector, whatever `dt` is |
| `SpeedEstimator.QuietSampleStationary` | bmi_160_i2c/IMUProcessor.py:122-134 | such a quiet sample also counts as stationary and reports speed 0 m/s and 0 km/h |
| `SpeedEstimator.ReportAtRest` | bmi_160_i2c/IMUProcessor.py:133-134 | a zero velocity reports 0 in both units |
| `SpeedEstimator.StationaryIffSquaredNorm` | bmi_160_i2c/IMUProcessor.py:123-125 | a sample is stationary exactly when the squared norm of its gated acceleration is below (9.8 + 0.7)² = 110.25 |
| `SpeedEstimator.ReportSpeedMeaning` | bmi_160_i2c/IMUProcessor.py:133 | the speed is 0 exactly when the velocity's length is at most 1 m/s; otherwise speed + 1 is that length |
| `SpeedEstimator.StationaryRunCounts` | bmi_160_i2c/IMUProcessor.py:125-126 | after a run of stationary samples the counter has grown by the run's length |
| `SpeedEstimator.DecayFromTwentyFirstTick` | bmi_160_i2c/IMUProcessor.py:125-128 | from a zero counter, the k-th sample of a run of stationary samples triggers the decay exactly when k ≥ 21 |
| `Orientation.Classify` | bmi_160_i2c/IMUProcessor.py:157-183 | the upside-down flag is 90 exactly when `az < -9.0` and 0 otherwise, and then all four directions are 0; at most one of forward/backward and one of left/right is nonzero; forward is nonzero exactly when pitch > 1 and backward exactly when pitch < -1 (roll likewise for right/left); angles within [-1, 1] report nothing; every nonzero value is `min(abs(angle), 90)` and lies in (1, 90] |
| `Orientation.DetectOrientation` | bmi_160_i2c/IMUProcessor.py:144-170 | on a sample, the flag is 90 exactly when its raw `az` is below -9.0, and then no direction is reported |
| `Orientation.BucketsEncodeSignedTilt` | bmi_160_i2c/IMUProcessor.py:170-183 | when not upside down, forward minus backward is the pitch clamped to [-90, 90] and zeroed within the dead zone; right minus left is the roll treated the same way |
| `Orientation.ClassifyMonotone` | bmi_160_i2c/IMUProcessor.py:171-176 | a larger pitch never reports less forward tilt or more backward tilt |
| `Orientation.LevelSampleIsLevel` | bmi_160_i2c/IMUProcessor.py:152-158 | the level sample `az = 16384`, all else 0, gives all four directions 0 and the flag 0 |
| `Orientation.InvertedSampleIsUpsideDown` | bmi_160_i2c/IMUProcessor.py:157-170 | any sample with `az = -16384·9.1` gives the flag 90 and all four directions 0 |
| `DirectionIntensities.CalculateDirectionIntensities` | bmi_160_i2c/IMUProcessor.py:223-241 | all four intensities are ≥ 0; forward/backward and left/right are each mutually exclusive; forward > 0 exactly when gx < 0, backward when gx > 0, left when gy > 0, right when gy < 0; (backward - forward)·5000 = gx and (left - right)·5000 = gy |
| `DirectionIntensities.RatesRoundTrip` | bmi_160_i2c/IMUProcessor.py:231-234 | before rounding, reading the intensities back as rates recovers gx and gy exactly |
| `DirectionIntensities.IntensityMagnitudes` | bmi_160_i2c/IMUProcessor.py:231-234 | forward + backward is abs(gx)/5000 and left + right is abs(gy)/5000 |
| `SensorManager.ReadAndPublish` | bmi_160_i2c/IMUProcessor.py:66-75 | a failed read leaves the state unchanged and publishes nothing; a successful read gives the speed step's state (with `last_time = now`), the raw gyroscope and accelerometer triples, the speed reported for the new velocity (≥ 0), and the classifier's orientation of the sample, whose flag is 90 exactly when `az < -9.0` |
| `SensorManager.FailedReadsInvisible` | bmi_160_i2c/IMUProcessor.py:70-75 | over any sequence of polls, the final estimator state is the one produced by the successful reads alone: failed reads change neither velocity, `last_time` nor the counter |
| `SensorManager.PollIsTrack` | bmi_160_i2c/IMUProcessor.py:66-75 | when every read succeeds, the polled state is the one `SpeedEstimator.Track` reaches on the same samples and clock readings |
| `SensorManager.PollTracksSuccessfulReads` | bmi_160_i2c/IMUProcessor.py:70-75 | for any polls, the final state is what the estimator reaches on the successful reads alone, in order |

## Left out

- MQTT client setup, the topics and every `publish`/`json.dumps` call (IMUProcessor.py:45-53, 77-99, 136-142, 185-187): network I/O. The model returns the values that would be published. `gyroscope_accelerometer` has no logic beyond copying the six fields, so it is the `gyroscope` and `accelerometer` fields of `SensorManager.Telemetry`.
- `round(x, 2)` on every published value: decimal rounding of floats. All results are the values before rounding.
- IEEE-754 behaviour: values are reals. `v + (d - v) = d` is exact only over reals. NaN and infinite readings do not exist in the model.
- `np.linalg.norm`, `np.sqrt`, `np.arctan2` and `np.degrees`: these are supplied functions, not definitions. Properties of pitch and roll hold for any angles. `LevelSampleIsLevel` uses three facts: the square root of a positive number is positive (from the square-root fact of `Valid`), `atan2(0, x) = 0` for `x > 0`, and `degrees(0) = 0`.
- `live_plot_directions` (IMUProcessor.py:189-221): matplotlib UI and an endless loop. Its arithmetic is `calculate_direction_intensities`, which is modelled.
- The `__main__` polling loop, `time.sleep` and `time.time` (IMUProcessor.py:113, 244-256): timing. The clock reading is the parameter `now`. `SensorManager.Poll` stands for the loop's sequence of calls.
- `bmi_160_i2c/bmi160.py`: it wraps the sensor driver, and that driver is not part of this model. Its read is the `Option<MotionSample>` given to `ReadAndPublish`. Construction errors (bad bus, I2C failure) are not modelled.
- `ppgserver/ppgserver.py`, `bmi_160_i2c/test.py` and `bmi_160_i2c/test_mqtt_sub.py`: web server, database, threads and demo scripts, outside the motion-inference core.
