/**
 * The unlocked screen. Sensor events run the same pair-and-clear protocol as
 * the locked screen; every fusion that leaves the screen leveled emits the
 * lock signal. There is no touch component and no debounce.
 */
module UnlockedScreen {
  import opened Orientation

  class UnlockedActivity {
    /** The rotation-matrix pipeline behind updateOrientationAngles. */
    const fuse: Fusion

    var accelerometerReading: Option<Vec3>
    var magnetometerReading: Option<Vec3>
    var azimuth: real
    var pitch: real
    var roll: real

    /** The two reading slots as one value. */
    function Readings(): Slots
      reads this`accelerometerReading, this`magnetometerReading
    {
      Slots(accelerometerReading, magnetometerReading)
    }

    /**
     * isScreenLeveled: pitch strictly between 80 and 90 degrees. Its frame
     * reads the pitch field alone, so neither roll nor azimuth can matter. A
     * leveled screen is never inside the locked screen's pitch window (40, 50).
     */
    predicate IsScreenLeveled()
      reads this`pitch
      ensures IsScreenLeveled() ==> !(40.0 < pitch < 50.0)
    {
      pitch > 80.0 && pitch < 90.0
    }

    /** The field initialisers: zero-filled slots and zero angles. */
    constructor (fuse: Fusion)
      ensures this.fuse == fuse
      ensures Readings() == InitialSlots
      ensures azimuth == 0.0 && pitch == 0.0 && roll == 0.0
    {
      this.fuse := fuse;
      accelerometerReading := Some(ZeroVec);
      magnetometerReading := Some(ZeroVec);
      azimuth, pitch, roll := 0.0, 0.0, 0.0;
    }

    /** Recomputes the three angles from the two current readings; a degenerate pair keeps them. */
    method UpdateOrientationAngles()
      requires Readings().Paired()
      modifies this`azimuth, this`pitch, this`roll
      ensures fuse(accelerometerReading.value, magnetometerReading.value).Some? ==>
                Angles(azimuth, pitch, roll) == fuse(accelerometerReading.value, magnetometerReading.value).value
      ensures fuse(accelerometerReading.value, magnetometerReading.value).None? ==>
                azimuth == old(azimuth) && pitch == old(pitch) && roll == old(roll)
    {
      // getRotationMatrix's answer is ignored: on a degenerate pair the matrix,
      // and so the angles recomputed from it, stay as they were
      var result := fuse(accelerometerReading.value, magnetometerReading.value);
      if result.Some? {
        azimuth := result.value.azimuth;
        pitch := result.value.pitch;
        roll := result.value.roll;
      }
    }

    /**
     * One sensor callback. The new slots are those of the protocol's Step,
     * whether or not lock fired; the angles change only when a fusion produced
     * new ones; whenever a fusion ran, degenerate or not, the gate is checked on
     * the current pitch, and `locked` tells whether lock() was called.
     */
    method OnSensorChanged(e: SensorEvent) returns (locked: bool)
      modifies this`accelerometerReading, this`magnetometerReading, this`azimuth, this`pitch, this`roll
      ensures Readings() == Step(old(Readings()), e, fuse).slots
      ensures Step(old(Readings()), e, fuse).outcome.Fused? ==>
                Angles(azimuth, pitch, roll) == Step(old(Readings()), e, fuse).outcome.angles
      ensures !Step(old(Readings()), e, fuse).outcome.Fused? ==>
                azimuth == old(azimuth) && pitch == old(pitch) && roll == old(roll)
      ensures locked <==> Step(old(Readings()), e, fuse).outcome.Ran() && IsScreenLeveled()
    {
      match e.sensor {
        case Accelerometer => accelerometerReading := Some(e.values);
        case MagneticField => magnetometerReading := Some(e.values);
        case OtherSensor =>
      }
      locked := false;
      if magnetometerReading.Some? && accelerometerReading.Some? {
        UpdateOrientationAngles();
        if IsScreenLeveled() {
          locked := true;
        }
        magnetometerReading := None;
        accelerometerReading := None;
      }
    }
  }

  /**
   * A fresh unlocked screen, then accelerometer, accelerometer, magnetometer
   * readings, with a pipeline that rejects zero readings. The first reading
   * fuses with the initial zero magnetometer slot: a degenerate pair, so the
   * pitch stays zero, lock cannot fire, and both slots are cleared. The second
   * is only stored. The third completes a fresh pair, and lock fires exactly
   * when the fused pitch is strictly inside (80, 90), whatever the azimuth and
   * roll.
   */
  method LockCycle(azimuth: real, pitch: real, roll: real, v: Vec3, w: Vec3)
    returns (first: bool, second: bool, third: bool)
    requires v != ZeroVec && w != ZeroVec
    ensures !first && !second
    ensures third <==> 80.0 < pitch < 90.0
  {
    var fuse := (a: Vec3, m: Vec3) => if a == ZeroVec || m == ZeroVec then None else Some(Angles(azimuth, pitch, roll));
    var screen := new UnlockedActivity(fuse);
    first := screen.OnSensorChanged(SensorEvent(Accelerometer, v));
    second := screen.OnSensorChanged(SensorEvent(Accelerometer, v));
    third := screen.OnSensorChanged(SensorEvent(MagneticField, w));
  }

  /**
   * No debounce: with a leveled orientation and a pipeline that rejects zero
   * readings, the readings magnetometer, accelerometer, magnetometer,
   * accelerometer, magnetometer give nothing (degenerate pair with the initial
   * zero slot), nothing (one slot filled), lock, nothing (only one slot
   * refilled after the clear), lock again.
   */
  method RepeatedLock(pitch: real, v: Vec3, w: Vec3)
    returns (first: bool, second: bool, third: bool, fourth: bool, fifth: bool)
    requires 80.0 < pitch < 90.0
    requires v != ZeroVec && w != ZeroVec
    ensures !first && !second && third && !fourth && fifth
  {
    var fuse := (a: Vec3, m: Vec3) => if a == ZeroVec || m == ZeroVec then None else Some(Angles(0.0, pitch, 0.0));
    var screen := new UnlockedActivity(fuse);
    first := screen.OnSensorChanged(SensorEvent(MagneticField, w));
    second := screen.OnSensorChanged(SensorEvent(Accelerometer, v));
    third := screen.OnSensorChanged(SensorEvent(MagneticField, w));
    fourth := screen.OnSensorChanged(SensorEvent(Accelerometer, v));
    fifth := screen.OnSensorChanged(SensorEvent(MagneticField, w));
  }
}
