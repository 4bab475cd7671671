/** One six-axis reading of the inertial sensor, in raw sensor units (LSB). */
module MotionSample {
  import opened RealMath

  /** Gyroscope (gx, gy, gz) and accelerometer (ax, ay, az), as the driver returns them. */
  datatype MotionSample = MotionSample(gx: real, gy: real, gz: real, ax: real, ay: real, az: real) {

    function Gyro(): Vec3 {
      Vec3(gx, gy, gz)
    }

    function Accel(): Vec3 {
      Vec3(ax, ay, az)
    }
  }
}
