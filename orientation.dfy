/**
 * The sensor side shared by both screens: the two nullable reading slots
 * (accelerometer and magnetic field) and the pair-and-clear protocol that
 * decides when one orientation fusion runs.
 *
 * The rotation-matrix pipeline (getRotationMatrix, remapCoordinateSystem with
 * AXIS_X/AXIS_Z, getOrientation and the radians-to-degrees scaling) is a
 * platform library call; it is represented by a `Fusion` value that the
 * screens receive and never look into.
 */
module Orientation {

  datatype Option<T> = None | Some(value: T)

  /** One tri-axis sample, as carried by SensorEvent.values. */
  datatype Vec3 = Vec3(x: real, y: real, z: real)

  /** A freshly allocated `new float[3]`. */
  const ZeroVec: Vec3 := Vec3(0.0, 0.0, 0.0)

  /** Orientation angles in degrees. */
  datatype Angles = Angles(azimuth: real, pitch: real, roll: real)

  /**
   * The rotation-matrix computation: (accelerometer, magnetometer) to angles.
   * None is a degenerate pair, for which getRotationMatrix reports failure and
   * leaves its output matrix as it was; the angles recomputed from that
   * unchanged matrix are the previous ones.
   */
  type Fusion = (Vec3, Vec3) -> Option<Angles>

  /**
   * A pipeline that treats a zero reading as degenerate: a zero vector has no
   * direction, so its cross product with the other reading vanishes.
   */
  ghost predicate RejectsZeroReadings(fuse: Fusion)
  {
    forall v :: fuse(v, ZeroVec).None? && fuse(ZeroVec, v).None?
  }

  /** The value of Sensor.getType(); any type other than the two used is OtherSensor. */
  datatype SensorType = Accelerometer | MagneticField | OtherSensor

  datatype SensorEvent = SensorEvent(sensor: SensorType, values: Vec3)

  /** The two reading fields of a screen; None stands for null. */
  datatype Slots = Slots(accel: Option<Vec3>, mag: Option<Vec3>)
  {
    /** Both readings present: the condition under which a fusion runs. */
    predicate Paired() {
      accel.Some? && mag.Some?
    }
  }

  /** The field initialisers: both slots are zero-filled arrays, not null. */
  const InitialSlots: Slots := Slots(Some(ZeroVec), Some(ZeroVec))

  /** Both slots reset to null after a fusion. */
  const ClearedSlots: Slots := Slots(None, None)

  /** The first half of onSensorChanged: an event overwrites its own slot only. */
  function Store(s: Slots, e: SensorEvent): (r: Slots)
    ensures r.accel == (if e.sensor == Accelerometer then Some(e.values) else s.accel)
    ensures r.mag == (if e.sensor == MagneticField then Some(e.values) else s.mag)
  {
    match e.sensor
    case Accelerometer => s.(accel := Some(e.values))
    case MagneticField => s.(mag := Some(e.values))
    case OtherSensor => s
  }

  /**
   * What one callback did: no fusion (a slot is still null), a fusion on a
   * degenerate pair (angles kept), or a fusion that produced new angles.
   */
  datatype Outcome = Waiting | Degenerate | Fused(angles: Angles)
  {
    /** updateOrientationAngles ran, and the gate was checked. */
    predicate Ran() {
      !Waiting?
    }
  }

  /** The slots after one callback, and what the callback did. */
  datatype Cycle = Cycle(slots: Slots, outcome: Outcome)

  /** One onSensorChanged callback: store the reading, then fuse and clear if both slots are full. */
  function Step(s: Slots, e: SensorEvent, fuse: Fusion): (c: Cycle)
    ensures c.outcome.Ran() <==> Store(s, e).Paired()
    ensures c.outcome.Ran() ==>
              c.slots == ClearedSlots &&
              (c.outcome.Fused? <==> fuse(Store(s, e).accel.value, Store(s, e).mag.value).Some?) &&
              (c.outcome.Fused? ==>
                 c.outcome.angles == fuse(Store(s, e).accel.value, Store(s, e).mag.value).value)
    ensures !c.outcome.Ran() ==> c.slots == Store(s, e)
    ensures !c.slots.Paired()
  {
    var t := Store(s, e);
    if t.Paired() then
      match fuse(t.accel.value, t.mag.value)
      case Some(a) => Cycle(ClearedSlots, Fused(a))
      case None => Cycle(ClearedSlots, Degenerate)
    else Cycle(t, Waiting)
  }

  /** The slots after a series of callbacks, and per callback what it did. */
  datatype Trace = Trace(slots: Slots, outcomes: seq<Outcome>)

  function Run(s: Slots, es: seq<SensorEvent>, fuse: Fusion): (t: Trace)
    ensures |t.outcomes| == |es|
    decreases |es|
  {
    if es == [] then Trace(s, [])
    else
      var c := Step(s, es[0], fuse);
      var rest := Run(c.slots, es[1..], fuse);
      Trace(rest.slots, [c.outcome] + rest.outcomes)
  }

  /** How many callbacks of a trace ran a fusion. */
  function FusionCount(os: seq<Outcome>): nat
  {
    if os == [] then 0 else (if os[0].Ran() then 1 else 0) + FusionCount(os[1..])
  }

  /** How many events of a trace come from the given sensor type. */
  function CountOf(es: seq<SensorEvent>, kind: SensorType): nat
  {
    if es == [] then 0 else (if es[0].sensor == kind then 1 else 0) + CountOf(es[1..], kind)
  }

  /** 1 when a slot holds a reading that no fusion has consumed yet. */
  function Held(o: Option<Vec3>): nat
  {
    if o.Some? then 1 else 0
  }

  /**
   * Because both slots start non-null, the very first event fuses, whatever
   * its type, pairing its own reading with the other zero slot. A pipeline
   * that rejects zero readings finds that pair degenerate, so the first
   * fusion keeps the initial angles.
   */
  lemma FirstEventFuses(e: SensorEvent, fuse: Fusion)
    ensures Step(InitialSlots, e, fuse).outcome.Ran()
    ensures Step(InitialSlots, e, fuse).slots == ClearedSlots
    ensures e.sensor == Accelerometer && fuse(e.values, ZeroVec).Some? ==>
              Step(InitialSlots, e, fuse).outcome == Fused(fuse(e.values, ZeroVec).value)
    ensures e.sensor == MagneticField && fuse(ZeroVec, e.values).Some? ==>
              Step(InitialSlots, e, fuse).outcome == Fused(fuse(ZeroVec, e.values).value)
    ensures RejectsZeroReadings(fuse) ==> Step(InitialSlots, e, fuse).outcome == Degenerate
  {
  }

  /**
   * After a fusion has cleared both slots, a lone reading of either kind is
   * only stored: it does not fuse again.
   */
  lemma LoneReadingAfterFusion(s: Slots, e1: SensorEvent, e2: SensorEvent, fuse: Fusion)
    requires Step(s, e1, fuse).outcome.Ran()
    ensures !Step(Step(s, e1, fuse).slots, e2, fuse).outcome.Ran()
    ensures Step(Step(s, e1, fuse).slots, e2, fuse).slots == Store(ClearedSlots, e2)
  {
  }

  /**
   * Each fusion consumes one accelerometer and one magnetometer reading: over
   * any series of callbacks, the fusions plus the readings still waiting in a
   * slot never exceed the readings that were waiting at the start plus those
   * that arrived. No reading is ever used by two fusions.
   */
  lemma {:induction false} FusionsConsumeReadings(s: Slots, es: seq<SensorEvent>, fuse: Fusion)
    ensures FusionCount(Run(s, es, fuse).outcomes) + Held(Run(s, es, fuse).slots.accel)
            <= Held(s.accel) + CountOf(es, Accelerometer)
    ensures FusionCount(Run(s, es, fuse).outcomes) + Held(Run(s, es, fuse).slots.mag)
            <= Held(s.mag) + CountOf(es, MagneticField)
    decreases |es|
  {
    if es != [] {
      var c := Step(s, es[0], fuse);
      var rest := Run(c.slots, es[1..], fuse);
      FusionsConsumeReadings(c.slots, es[1..], fuse);
      assert Run(s, es, fuse).outcomes == [c.outcome] + rest.outcomes;
      assert ([c.outcome] + rest.outcomes)[1..] == rest.outcomes;
    }
  }

  /** Starting from cleared slots, every fusion has a fresh pair of its own. */
  lemma FusionsFromCleared(es: seq<SensorEvent>, fuse: Fusion)
    ensures FusionCount(Run(ClearedSlots, es, fuse).outcomes) <= CountOf(es, Accelerometer)
    ensures FusionCount(Run(ClearedSlots, es, fuse).outcomes) <= CountOf(es, MagneticField)
  {
    FusionsConsumeReadings(ClearedSlots, es, fuse);
  }

  /** From the initial zero-filled slots, at most one fusion more than fresh pairs allow. */
  lemma FusionsFromInitial(es: seq<SensorEvent>, fuse: Fusion)
    ensures FusionCount(Run(InitialSlots, es, fuse).outcomes) <= 1 + CountOf(es, Accelerometer)
    ensures FusionCount(Run(InitialSlots, es, fuse).outcomes) <= 1 + CountOf(es, MagneticField)
  {
    FusionsConsumeReadings(InitialSlots, es, fuse);
  }

  lemma {:induction false} NoFusionCountedMeansNone(os: seq<Outcome>)
    requires FusionCount(os) == 0
    ensures forall i :: 0 <= i < |os| ==> !os[i].Ran()
  {
    if os != [] {
      NoFusionCountedMeansNone(os[1..]);
      forall i | 0 <= i < |os| ensures !os[i].Ran() {
        if i > 0 { assert os[i] == os[1..][i - 1]; }
      }
    }
  }

  /**
   * Once the slots are cleared, no callback fuses until a reading of each
   * kind has arrived: a series lacking either sensor type fuses nothing.
   */
  lemma NoFusionWithoutBothReadings(es: seq<SensorEvent>, fuse: Fusion)
    requires CountOf(es, Accelerometer) == 0 || CountOf(es, MagneticField) == 0
    ensures forall i :: 0 <= i < |es| ==> !Run(ClearedSlots, es, fuse).outcomes[i].Ran()
  {
    FusionsFromCleared(es, fuse);
    NoFusionCountedMeansNone(Run(ClearedSlots, es, fuse).outcomes);
  }
}
