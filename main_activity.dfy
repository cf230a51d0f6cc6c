/**
 * The locked screen. Touch events keep `inRange` up to date; sensor events run
 * the pair-and-clear protocol, and every fusion whose angles fall inside the
 * unlock window while the touch is in range emits the unlock signal.
 */
module MainScreen {
  import opened Orientation
  import opened TouchRegion

  /**
   * The orientation part of the unlock gate: strict open windows on pitch and
   * roll; the azimuth plays no part. Angles that open the locked screen never
   * also satisfy the unlocked screen's lock gate (pitch inside (80, 90)).
   */
  predicate UnlockWindow(a: Angles)
    ensures UnlockWindow(a) ==> !(80.0 < a.pitch < 90.0)
  {
    a.pitch > 40.0 && a.pitch < 50.0 && a.roll > -50.0 && a.roll < 100.0
  }

  class MainActivity {
    /** The rotation-matrix pipeline behind updateOrientationAngles. */
    const fuse: Fusion

    // display metrics and the unlock region, fixed when the screen is created
    const width: int
    const height: int
    const density: real
    const pixRange: real
    const region: Region

    var accelerometerReading: Option<Vec3>
    var magnetometerReading: Option<Vec3>
    var azimuth: real
    var pitch: real
    var roll: real
    var inRange: bool

    /** The two reading slots as one value. */
    function Readings(): Slots
      reads this`accelerometerReading, this`magnetometerReading
    {
      Slots(accelerometerReading, magnetometerReading)
    }

    /** The field initialisers followed by the region derivation of onCreate. */
    constructor (width: int, height: int, density: real, fuse: Fusion)
      ensures this.width == width && this.height == height && this.density == density
      ensures this.fuse == fuse
      ensures pixRange == DpRange * density
      ensures region == RegionFor(width, height, density)
      ensures Readings() == InitialSlots
      ensures azimuth == 0.0 && pitch == 0.0 && roll == 0.0
      ensures !inRange
    {
      this.fuse := fuse;
      this.width := width;
      this.height := height;
      this.density := density;
      pixRange := DpRange * density;
      region := RegionFor(width, height, density);
      accelerometerReading := Some(ZeroVec);
      magnetometerReading := Some(ZeroVec);
      azimuth, pitch, roll := 0.0, 0.0, 0.0;
      inRange := false;
    }

    /** Recomputes the three angles from the two current readings; a degenerate pair keeps them. */
    method UpdateOrientationAngles()
      requires Readings().Paired()
      modifies this`azimuth, this`pitch, this`roll
      ensures fuse(accelerometerReading.value, magnetometerReading.value).Some? ==>
                Angles(azimuth, pitch, roll) == fuse(accelerometerReading.value, magnetometerReading.value).value
      ensures fuse(accelerometerReading.value, magnetometerReading.value).None? ==>
                azimuth == old(azimuth) && pitch == old(pitch) && roll == old(roll)
    {
      // getRotationMatrix's answer is ignored: on a degenerate pair the matrix,
      // and so the angles recomputed from it, stay as they were
      var result := fuse(accelerometerReading.value, magnetometerReading.value);
      if result.Some? {
        azimuth := result.value.azimuth;
        pitch := result.value.pitch;
        roll := result.value.roll;
      }
    }

    /**
     * One sensor callback. The new slots are those of the protocol's Step; the
     * angles change only when a fusion produced new ones; whenever a fusion ran,
     * degenerate or not, the gate is checked on the current angles, and
     * `unlocked` tells whether unlock() was called. The frame leaves `inRange`
     * alone: sensor events never touch it.
     */
    method OnSensorChanged(e: SensorEvent) returns (unlocked: bool)
      modifies this`accelerometerReading, this`magnetometerReading, this`azimuth, this`pitch, this`roll
      ensures Readings() == Step(old(Readings()), e, fuse).slots
      ensures Step(old(Readings()), e, fuse).outcome.Fused? ==>
                Angles(azimuth, pitch, roll) == Step(old(Readings()), e, fuse).outcome.angles
      ensures !Step(old(Readings()), e, fuse).outcome.Fused? ==>
                azimuth == old(azimuth) && pitch == old(pitch) && roll == old(roll)
      ensures unlocked <==>
                Step(old(Readings()), e, fuse).outcome.Ran() && inRange && UnlockWindow(Angles(azimuth, pitch, roll))
    {
      match e.sensor {
        case Accelerometer => accelerometerReading := Some(e.values);
        case MagneticField => magnetometerReading := Some(e.values);
        case OtherSensor =>
      }
      unlocked := false;
      if magnetometerReading.Some? && accelerometerReading.Some? {
        UpdateOrientationAngles();
        if inRange {
          if pitch > 40.0 && pitch < 50.0 {
            if roll > -50.0 && roll < 100.0 {
              unlocked := true;
            }
          }
        }
        magnetometerReading := None;
        accelerometerReading := None;
      }
    }

    /**
     * One touch callback. Down and Move recompute `inRange` from the position,
     * Up, Cancel and Outside clear it, and all five report the event handled;
     * any other action leaves `inRange` alone and answers what the platform's
     * default handler (`superHandled`) answers.
     */
    method OnTouchEvent(action: TouchAction, x: real, y: real, superHandled: bool) returns (handled: bool)
      modifies this`inRange
      ensures action.ActionDown? || action.ActionMove? ==>
                inRange == IsTouchInRange(region, x, y) && handled
      ensures action.ActionUp? || action.ActionCancel? || action.ActionOutside? ==>
                !inRange && handled
      ensures action.OtherAction? ==> inRange == old(inRange) && handled == superHandled
    {
      match action {
        case ActionDown =>
          if IsTouchInRange(region, x, y) { inRange := true; } else { inRange := false; }
          handled := true;
        case ActionMove =>
          if IsTouchInRange(region, x, y) { inRange := true; } else { inRange := false; }
          handled := true;
        case ActionUp =>
          inRange := false;
          handled := true;
        case ActionCancel =>
          inRange := false;
          handled := true;
        case ActionOutside =>
          inRange := false;
          handled := true;
        case OtherAction =>
          handled := superHandled;
      }
    }
  }

  /**
   * A fresh locked screen, a touch down at (x, y), then accelerometer,
   * accelerometer, magnetometer readings, with a pipeline that rejects zero
   * readings. The first reading fuses with the initial zero magnetometer slot:
   * a degenerate pair, so the angles stay zero, unlock cannot fire, and both
   * slots are cleared. The second is only stored. The third completes a fresh
   * pair, and unlock fires exactly when the touch is in the region and the
   * angles are in the window. The azimuth plays no part.
   */
  method UnlockAfterTouch(width: int, height: int, density: real, x: real, y: real,
                          azimuth: real, pitch: real, roll: real, v: Vec3, w: Vec3)
    returns (first: bool, second: bool, third: bool)
    requires v != ZeroVec && w != ZeroVec
    ensures !first && !second
    ensures third <==>
              IsTouchInRange(RegionFor(width, height, density), x, y) &&
              40.0 < pitch < 50.0 && -50.0 < roll < 100.0
  {
    var fuse := (a: Vec3, m: Vec3) => if a == ZeroVec || m == ZeroVec then None else Some(Angles(azimuth, pitch, roll));
    var screen := new MainActivity(width, height, density, fuse);
    var handled := screen.OnTouchEvent(ActionDown, x, y, false);
    first := screen.OnSensorChanged(SensorEvent(Accelerometer, v));
    second := screen.OnSensorChanged(SensorEvent(Accelerometer, v));
    third := screen.OnSensorChanged(SensorEvent(MagneticField, w));
  }

  /**
   * Down inside the region, Move outside it, then Up: `inRange` is true, then
   * false, then false.
   */
  method DownMoveUp(width: int, height: int, density: real, xIn: real, yIn: real, xOut: real, yOut: real)
    returns (afterDown: bool, afterMove: bool, afterUp: bool)
    requires IsTouchInRange(RegionFor(width, height, density), xIn, yIn)
    requires !IsTouchInRange(RegionFor(width, height, density), xOut, yOut)
    ensures afterDown && !afterMove && !afterUp
  {
    var screen := new MainActivity(width, height, density, (a: Vec3, m: Vec3) => Some(Angles(0.0, 0.0, 0.0)));
    var handled := screen.OnTouchEvent(ActionDown, xIn, yIn, false);
    afterDown := screen.inRange;
    handled := screen.OnTouchEvent(ActionMove, xOut, yOut, false);
    afterMove := screen.inRange;
    handled := screen.OnTouchEvent(ActionUp, xOut, yOut, false);
    afterUp := screen.inRange;
  }

  /**
   * No debounce: with the touch held in the region, qualifying angles and a
   * pipeline that rejects zero readings, the readings magnetometer,
   * accelerometer, magnetometer, accelerometer, magnetometer give nothing
   * (degenerate pair with the initial zero slot), nothing (one slot filled),
   * unlock, nothing (the slots were cleared, only one is refilled), unlock
   * again.
   */
  method RepeatedUnlock(width: int, height: int, density: real, x: real, y: real,
                        pitch: real, roll: real, v: Vec3, w: Vec3)
    returns (first: bool, second: bool, third: bool, fourth: bool, fifth: bool)
    requires IsTouchInRange(RegionFor(width, height, density), x, y)
    requires 40.0 < pitch < 50.0 && -50.0 < roll < 100.0
    requires v != ZeroVec && w != ZeroVec
    ensures !first && !second && third && !fourth && fifth
  {
    var fuse := (a: Vec3, m: Vec3) => if a == ZeroVec || m == ZeroVec then None else Some(Angles(0.0, pitch, roll));
    var screen := new MainActivity(width, height, density, fuse);
    var handled := screen.OnTouchEvent(ActionDown, x, y, false);
    first := screen.OnSensorChanged(SensorEvent(MagneticField, w));
    second := screen.OnSensorChanged(SensorEvent(Accelerometer, v));
    third := screen.OnSensorChanged(SensorEvent(MagneticField, w));
    fourth := screen.OnSensorChanged(SensorEvent(Accelerometer, v));
    fifth := screen.OnSensorChanged(SensorEvent(MagneticField, w));
  }
}
