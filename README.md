# Oriented authentication: gesture engine model

This project models the gesture engine of an Android prototype that unlocks
and relocks its screen through the phone's orientation. It is written in Dafny.

- **Locked screen** (`MainActivity`). It tracks whether the current touch lies in
  an unlock band near the right edge of the display, centred on half its height.
  It also fuses accelerometer and magnetometer readings into azimuth, pitch and
  roll. It emits *unlock* whenever a fusion happens while the touch is in range,
  with pitch strictly inside (40, 50) and roll strictly inside (-50, 100).
- **Unlocked screen** (`UnlockedActivity`). It runs the same sensor protocol and
  emits *lock* whenever a fusion leaves the pitch strictly inside (80, 90).
- **Sensor-slot protocol** (shared by both screens). Each screen keeps two
  nullable reading slots, and each sensor event overwrites its own slot. When
  both slots are non-null, one fusion runs, the gate is checked, and both slots
  are cleared together. The slots start as zero-filled vectors, not as null, so
  the very first event already fuses.
- **Contact generator** (`Contact`). It builds `n` dummy contacts named
  `"Person " + id` from a class-wide counter. The first `n/2` contacts are
  online.

Files and modules:

- `orientation.dfy` — module `Orientation`. The sensor types and the reading
  slots. `Store` and `Step` hold the pair-and-clear protocol as pure
  functions, and `Run` applies it to a series of events. Lemmas show that every
  fusion consumes a fresh pair.
- `touch_region.dfy` — module `TouchRegion`. The unlock region derived from the
  display metrics, `IsTouchInRange`, and the touch action kinds.
- `main_activity.dfy` — module `MainScreen`. Class `MainActivity` with the
  fields of the locked screen. Its `OnSensorChanged` and `OnTouchEvent` are
  proved against `Orientation.Step` and `IsTouchInRange`. The unlock gate is
  the predicate `UnlockWindow` together with `inRange`. Three client methods
  replay the documented scenarios.
- `unlocked_activity.dfy` — module `UnlockedScreen`. Class `UnlockedActivity`.
  `IsScreenLeveled` reads only the `pitch` field. Two client methods replay the
  documented scenarios.
- `contact.dfy` — module `Contacts`. The value type `Contact`, the Java `int`
  counter with explicit wrap-around (`Inc32`), the decimal rendering of ids,
  and class `ContactRegistry`, which holds the static `lastContactId`. Its
  `CreateContactsList` loop is proved against the specification function
  `ContactsAfter`.

The rotation-matrix pipeline is a platform library call:
`getRotationMatrix`, `remapCoordinateSystem(AXIS_X, AXIS_Z)`, `getOrientation`
and the scaling by 57.2957795. It is modelled as a function value of type
`Fusion = (Vec3, Vec3) -> Option<Angles>`, which each screen receives in its
constructor. The type carries one assumption: the outcome depends only on the
two readings. `None` stands for a degenerate pair, for which
`getRotationMatrix` reports failure and leaves `rotationMatrix` as it was. The
code ignores that failure and recomputes the angles from the unchanged matrix,
which gives the previous angles again: the last fused ones, or (0, 0, 0) from
the initial all-zero matrix, which matches the zero angle fields. So on `None`
the model keeps the angle fields, and the gate is still checked on them.
`RejectsZeroReadings` names the property of the platform pipeline that a zero
reading is degenerate; the client scenarios use a pipeline with that
property.

Unlock and lock are modelled as the boolean result of `OnSensorChanged`.

## Model

| member | source | states |
|---|---|---|
| Orientation.Store | app/src/main/java/com/example/orientedauthentication/MainActivity.java:153-157 | An accelerometer event replaces only the accelerometer slot. A magnetic-field event replaces only the magnetometer slot. An event of any other type changes neither. |
| Orientation.Step | app/src/main/java/com/example/orientedauthentication/MainActivity.java:151-180 | A fusion runs exactly when both slots are non-null after the store, and it leaves both slots null. It fuses exactly the stored pair: the outcome is Fused with the pipeline's angles when the pipeline accepts the pair, and Degenerate when it rejects it. Without a fusion the slots are the stored ones. Afterwards the slots never hold a full pair. |
| Orientation.FirstEventFuses | app/src/main/java/com/example/orientedauthentication/MainActivity.java:29-30 | The slots start as zero vectors, so the first event of any type fuses (the check at line 161), pairing its own reading with the other zero slot, and clears both slots. With a pipeline that rejects zero readings that first pair is degenerate, so the first fusion yields no new angles. |
| Orientation.LoneReadingAfterFusion | app/src/main/java/com/example/orientedauthentication/MainActivity.java:176-178 | After any fusion, the next event of either kind is only stored and does not fuse again. |
| Orientation.FusionsConsumeReadings | app/src/main/java/com/example/orientedauthentication/MainActivity.java:161-179 | Over any series of events, the fusions plus the readings still waiting in a slot never exceed the waiting readings at the start plus the arrivals. This holds for each sensor separately, so no reading feeds two fusions. |
| Orientation.FusionsFromCleared | app/src/main/java/com/example/orientedauthentication/UnlockedActivity.java:117-128 | Starting from cleared slots, the fusions are at most the accelerometer events and at most the magnetometer events. |
| Orientation.FusionsFromInitial | app/src/main/java/com/example/orientedauthentication/UnlockedActivity.java:27-28 | Starting from the initial zero slots, there is at most one fusion more than each sensor's event count. |
| Orientation.NoFusionWithoutBothReadings | app/src/main/java/com/example/orientedauthentication/UnlockedActivity.java:125-127 | After a clear, a series that lacks accelerometer events or lacks magnetometer events fuses at no step. |
| TouchRegion.RegionFor | app/src/main/java/com/example/orientedauthentication/MainActivity.java:65-73 | xRangeStart is width - 75·density. The band [yRangeStart, yRangeEnd] is centred on height/2 and is 2·75·density high. |
| TouchRegion.RegionBand | app/src/main/java/com/example/orientedauthentication/MainActivity.java:65-73 | A touch is in the derived region iff it is less than 75·density from the right edge (no bound on the other side) and less than 75·density above or below half the height. |
| TouchRegion.RegionNonEmptyIffPositiveDensity | app/src/main/java/com/example/orientedauthentication/MainActivity.java:65-73 | Some point is in range iff density > 0. |
| TouchRegion.IsTouchInRange | app/src/main/java/com/example/orientedauthentication/MainActivity.java:189-197 | isTouchinRange: strictly right of xRangeStart and strictly between yRangeStart and yRangeEnd. Only a region whose band is non-empty admits a touch. |
| TouchRegion.TouchRangeBoundaries | app/src/main/java/com/example/orientedauthentication/MainActivity.java:189-197 | isTouchinRange uses strict comparisons on all three bounds, so boundary points are outside. There is no upper bound on x: a point that is inside stays inside when moved right. |
| MainScreen.UnlockWindow | app/src/main/java/com/example/orientedauthentication/MainActivity.java:166-170 | The orientation part of the unlock gate: 40 < pitch < 50 and -50 < roll < 100, strict, with no condition on the azimuth. Angles inside it never satisfy the lock gate's 80 < pitch < 90. |
| MainScreen.MainActivity.constructor | app/src/main/java/com/example/orientedauthentication/MainActivity.java:29-73 | Field initialisers and onCreate: zero-filled slots, zero angles, inRange false, pixRange = 75·density, region = RegionFor(width, height, density). |
| MainScreen.MainActivity.UpdateOrientationAngles | app/src/main/java/com/example/orientedauthentication/MainActivity.java:243-265 | When the pipeline accepts the two current readings, the three angle fields become its angles. On a degenerate pair (getRotationMatrix failing at line 245 and leaving the matrix of line 26 unchanged) the angles stay as they were. |
| MainScreen.MainActivity.OnSensorChanged | app/src/main/java/com/example/orientedauthentication/MainActivity.java:151-180 | The new slots are Step's. The angles change only on a fusion that yields angles, and then to those angles; on a degenerate pair they are kept. Unlock fires iff a fusion ran (degenerate or not) and inRange holds with the current angles in UnlockWindow. inRange is outside the method's frame. |
| MainScreen.MainActivity.OnTouchEvent | app/src/main/java/com/example/orientedauthentication/MainActivity.java:201-237 | Down and Move set inRange to isTouchinRange(x, y). Up, Cancel and Outside set it to false. All five return true. Any other action leaves inRange unchanged and returns the default handler's answer. |
| MainScreen.UnlockAfterTouch | app/src/main/java/com/example/orientedauthentication/MainActivity.java:165-173 | Fresh screen, touch down at (x, y), a pipeline that rejects zero readings, then accelerometer, accelerometer, magnetometer readings. The first fuses with the initial zero slot, a degenerate pair, so no unlock. The second is only stored. On the third, unlock fires iff (x, y) is in the region and the angles are in the window, whatever the azimuth. |
| MainScreen.DownMoveUp | app/src/main/java/com/example/orientedauthentication/MainActivity.java:205-224 | Down inside, Move outside, then Up leave inRange true, then false, then false. |
| MainScreen.RepeatedUnlock | app/src/main/java/com/example/orientedauthentication/MainActivity.java:161-178 | No debounce. With qualifying angles and touch and a pipeline that rejects zero readings, the events magnetometer, accelerometer, magnetometer, accelerometer, magnetometer produce nothing (degenerate first pair), nothing, unlock, nothing, unlock. |
| UnlockedScreen.UnlockedActivity.constructor | app/src/main/java/com/example/orientedauthentication/UnlockedActivity.java:27-30 | Zero-filled slots and zero angles. |
| UnlockedScreen.UnlockedActivity.IsScreenLeveled | app/src/main/java/com/example/orientedauthentication/UnlockedActivity.java:179-185 | isScreenLeveled: 80 < pitch < 90, strict. Its frame reads only the pitch field, so roll and azimuth cannot matter. A leveled screen is never inside the unlock gate's 40 < pitch < 50. |
| UnlockedScreen.UnlockedActivity.UpdateOrientationAngles | app/src/main/java/com/example/orientedauthentication/UnlockedActivity.java:136-158 | When the pipeline accepts the two current readings, the three angle fields become its angles. On a degenerate pair (getRotationMatrix failing at line 138 and leaving the matrix of line 24 unchanged) the angles stay as they were. |
| UnlockedScreen.UnlockedActivity.OnSensorChanged | app/src/main/java/com/example/orientedauthentication/UnlockedActivity.java:107-129 | The new slots are Step's, whether or not lock fired (both null after every fusion). The angles change only on a fusion that yields angles; on a degenerate pair they are kept. Lock fires iff a fusion ran (degenerate or not) and isScreenLeveled holds on the current pitch. |
| UnlockedScreen.LockCycle | app/src/main/java/com/example/orientedauthentication/UnlockedActivity.java:179-185 | Fresh screen, a pipeline that rejects zero readings, then accelerometer, accelerometer, magnetometer readings. The first is a degenerate pair with the initial zero slot, so no lock. The second is only stored. On the third, lock fires iff 80 < pitch < 90 (strict), whatever the azimuth and roll. |
| UnlockedScreen.RepeatedLock | app/src/main/java/com/example/orientedauthentication/UnlockedActivity.java:117-128 | No debounce. With a leveled orientation and a pipeline that rejects zero readings, the events magnetometer, accelerometer, magnetometer, accelerometer, magnetometer produce nothing (degenerate first pair), nothing, lock, nothing, lock. |
| Contacts.GettersReturnConstructorArguments | app/src/main/java/com/example/orientedauthentication/Contact.java:13-24 | getName and isOnline return exactly the constructor's arguments. |
| Contacts.ContactRegistry.constructor | app/src/main/java/com/example/orientedauthentication/Contact.java:26 | lastContactId starts at 0. |
| Contacts.ContactRegistry.CreateContactsList | app/src/main/java/com/example/orientedauthentication/Contact.java:34-42 | The loop returns ContactsAfter(old lastContactId, n) and advances the counter by max(n, 0) wrapping increments. |
| Contacts.ContactsAfter | app/src/main/java/com/example/orientedauthentication/Contact.java:37-39 | The result has exactly n contacts when n ≥ 1 and none when n ≤ 0. A contact is online iff its 0-based index is below n/2, so the online contacts form a prefix of length n/2. |
| Contacts.IdAfterNoWrap | app/src/main/java/com/example/orientedauthentication/Contact.java:38 | Unless the counter passes Integer.MAX_VALUE, k pre-increments raise it by exactly k. |
| Contacts.NamesSequential | app/src/main/java/com/example/orientedauthentication/Contact.java:38 | Without a wrap, the names are "Person " followed by old lastContactId + 1 up to old lastContactId + n, in order, and the counter grows by exactly n. |
| Contacts.Wrap | app/src/main/java/com/example/orientedauthentication/Contact.java:38 | Two's-complement reduction into the int range: the result differs from its argument by a multiple of 2^32, and equals it inside the range. |
| Contacts.IdAfterWraps | app/src/main/java/com/example/orientedauthentication/Contact.java:38 | k wrapping pre-increments of lastContactId give the sum old value + k reduced into the int range. |
| Contacts.IdAfterCompose | app/src/main/java/com/example/orientedauthentication/Contact.java:26-38 | The counter is shared across calls: b increments after a increments are a + b increments from the start. |
| Contacts.IdAfterInjective | app/src/main/java/com/example/orientedauthentication/Contact.java:38 | Fewer than 2^32 increments never give the same id twice, wrap or no wrap. |
| Contacts.NamesDistinct | app/src/main/java/com/example/orientedauthentication/Contact.java:37-38 | No two contacts of one list share a name, even when the counter wraps. |
| Contacts.SuccessiveCallsDisjoint | app/src/main/java/com/example/orientedauthentication/Contact.java:26-38 | No name of one call appears in the next call, which starts where the first left the counter, even when the counter wraps. |
| Contacts.DecimalStringInjective | app/src/main/java/com/example/orientedauthentication/Contact.java:38 | Rendering an int in decimal, as string concatenation does, is injective. This is what makes distinct ids give distinct names. |

## Left out

- The rotation-matrix pipeline of `updateOrientationAngles` is not modelled.
  It is the injected `Fusion` value: floating-point trigonometry inside platform
  library code.
- Which reading pairs are degenerate is not modelled: it is whatever the
  injected `Fusion` returns `None` for. The platform rejects pairs whose cross
  product is too small, which includes every pair with a zero reading; the
  scenarios state that much as `RejectsZeroReadings` and nothing more. The code
  has no guard of its own. It ignores `getRotationMatrix`'s boolean result, so
  a degenerate pair still runs the gate on the previous angles.
- Floating point: angles, readings, density and region bounds are reals, so
  float rounding is not modelled. That includes the float scaling by
  57.2957795 and `0.5f * height`.
- Sensor registration and unregistration in `onResume`/`onPause`, and
  `onAccuracyChanged`: platform lifecycle code.
- The navigation effects of `unlock()` (`startActivity`) and `lock()`
  (`finish`) are left out; each appears only as the boolean result of
  `OnSensorChanged`. Also left out: menus, toolbar and layout setup,
  `onBackPressed`, and all `Log` calls.
- `UnlockedActivity.onCreate` calls `createContactsList(20)` and wires the
  result into a RecyclerView through `ContactsAdapter`. This is UI wiring and
  not part of this model; `ContactsAdapter` is not part of this model either.
- Sensor events carry a 3-vector only. `event.values.clone()` is a copy, so the
  slots hold values, and aliasing cannot arise.
- `MotionEvent` action codes are a datatype (`TouchAction`) rather than ints.
- `onTouchEvent`'s default branch calls `super.onTouchEvent`. That
  platform call is the parameter `superHandled`.
- CreateContactsList: the loop index `i` is unbounded. In Java, a call with
  `numContacts == Integer.MAX_VALUE` would overflow `i++`, but the list would
  run out of memory long before that. List capacity is not modelled.
- IdAfterNoWrap: requires that the counter does not pass Integer.MAX_VALUE.
  Past it, `++lastContactId` wraps to Integer.MIN_VALUE, which `Inc32`
  models, and the ids are no longer old value + k (IdAfterWraps gives them).
- NamesSequential: requires the same no-wrap condition, for the same reason.
  Past the wrap, names still never repeat within one call or across two
  successive calls (NamesDistinct, SuccessiveCallsDisjoint).
