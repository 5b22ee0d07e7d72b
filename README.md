# ScreenRotateUtil orientation state machine, in Dafny

This project models the controller that turns accelerometer readings into
screen-orientation requests. The controller is `ScreenRotateUtil` from the
ScreenRotation Android app. It holds three flags:

- `isLandscape`: the cached screen orientation.
- `isClickFullScreen`: a manual toggle is pending.
- `isOpenSensor`: sensor readings are forwarded to the main-thread handler.

Three pieces of logic act on these flags:

- **The handler.** It maps a forwarded angle to one of four window
  orientations. All its comparisons are strict.
- **The sensor listener.** It normalises the angle, checks the system
  auto-rotate setting and runs the pending-toggle handshake. Its bounds are
  inclusive. It forwards the angle unless forwarding is suspended.
- **The full-screen toggle.** With auto-rotate off it flips the orientation
  directly. Otherwise it arms the handshake and requests the opposite
  orientation before the device has turned.

Files:

- `rotation.dfy` (module `Rotation`): the pure model. The flags are a `Flags`
  value. Each entry point is a function: `Handle`, `Sensor` and `Toggle`.
  `Step` applies one event to a whole-controller value `Sys`. `Sys` holds the
  flags, the handler's message queue and the log of orientation requests.
- `screen_rotate_util.dfy` (module `ScreenRotate`): the class
  `ScreenRotateUtil`. Its fields are updated in place, and its methods follow
  the Java statement by statement. Each method is proved to change the object
  exactly as `Step` changes `Sys`. The two normalisation loops are the method
  `NormalizeAngle`.
- `properties.dfy` (module `Properties`): lemmas about the model. They cover
  the quadrant table, the toggle, the gates and handshake of the listener, the
  invariants of every reachable state, and the agreement between screen and
  cache.

Modelling choices:

- The external inputs are parameters. `Setting` is the value read from
  `ACCELEROMETER_ROTATION`, or `NotFound` when the setting is missing. Only an
  explicit `0` means "off"; a missing setting behaves like "on".
- A `Sample` is either `Unknown` or the integer `90 - round(angle)`. `Unknown`
  stands for a reading the magnitude gate rejected, which the listener turns
  into -1.
- Posting to the handler appends to a FIFO queue `messages`.
  `HandleMessage` handles the oldest message, which is the order the main
  looper delivers them in. An arbitrary interleaving of events is the
  `Event` sequence given to `Run`.
- `setRequestedOrientation` appends to the log `requests`.
- The Java listener is an inner class that reads the outer object's fields.
  Here its `onSensorChanged` is the method `OnSensorChanged` of the
  controller itself.

Behaviour worth knowing:

- The handler requests REVERSE_LANDSCAPE, not LANDSCAPE, for an angle of 90
  (`ScenarioSensorToLandscape`).
- The handler uses strict bounds and the handshake uses inclusive ones. The
  model keeps both, as written.
  - `ConfirmationNotUndone`: the sample that completes the handshake never
    leads the handler to flip isLandscape back.
  - `SyncRunSettled`: the last request and `isLandscape` stay in agreement
    whenever nothing is pending. This needs two conditions: the setting
    stays the same, and the handler delivers each message before the next
    event.
  - `BoundaryAfterSettingChange` shows that the agreement can fail when the
    auto-rotate setting changes while a toggle is pending and the device is
    then held at exactly 45 degrees.
  - `StaleMessageDuringToggle` shows that it can also fail with a fixed
    setting. An angle posted before a toggle is delivered while the toggle is
    pending. The handler sets `isLandscape` from it, which reverses the
    handshake's target. A sample at exactly 45 then completes the handshake
    without any request.
- Calling `stop()` clears the activity. The listener and the toggle read the
  setting through it, so a later call would dereference null. The model makes
  a bound activity a precondition of those two methods. The handler uses the
  activity only when it makes a request, so `HandleMessage` may deliver a
  message the table ignores after `Stop`.

## Model

| member | source | states |
|---|---|---|
| `Rotation.Normalize` | app/src/main/java/com/pinger/rotation/utils/ScreenRotateUtil.java:164-170 | the normalised angle lies in [0,360) and is congruent to the raw angle modulo 360 |
| `Rotation.OrientationOf` | app/src/main/java/com/pinger/rotation/utils/ScreenRotateUtil.java:152-171 | an unusable sample gives exactly ORIENTATION_UNKNOWN (-1); a usable one gives an angle in [0,360) congruent to the raw value |
| `Rotation.Handle` | app/src/main/java/com/pinger/rotation/utils/ScreenRotateUtil.java:58-70 | the handler never touches the toggle flags; it changes nothing when it issues no request, and otherwise sets isLandscape to whether its request is a landscape one |
| `Rotation.Sensor` | app/src/main/java/com/pinger/rotation/utils/ScreenRotateUtil.java:179-218 | auto-rotate off: nothing changes and nothing is posted; without a pending toggle the flags are untouched; a posted message is the orientation itself and forwarding is then open; the only flag change is the completed handshake (flip, clear, re-open); the handshake invariant is preserved |
| `Rotation.Toggle` | app/src/main/java/com/pinger/rotation/utils/ScreenRotateUtil.java:225-264 | the request is always the opposite of the old isLandscape; isLandscape changes exactly when auto-rotate is off; the handshake invariant is preserved |
| `Rotation.Step` | app/src/main/java/com/pinger/rotation/utils/ScreenRotateUtil.java:49-264 | a sensor event never issues a request and at most appends one message at the back of the queue; a toggle never posts and issues exactly one request; a delivery removes the message at the front (the oldest), applies the handler's table to it and appends its request, if any; with an empty queue it changes nothing |
| `ScreenRotate.NormalizeAngle` | app/src/main/java/com/pinger/rotation/utils/ScreenRotateUtil.java:165-170 | the two while loops end with an angle in [0,360) congruent to the input modulo 360 |
| `ScreenRotate.ScreenRotateUtil.constructor` | app/src/main/java/com/pinger/rotation/utils/ScreenRotateUtil.java:37-40 | no activity bound, portrait, no toggle pending, forwarding open, nothing queued or requested |
| `ScreenRotate.ScreenRotateUtil.Start` | app/src/main/java/com/pinger/rotation/utils/ScreenRotateUtil.java:108-111 | binds the activity and leaves the orientation state unchanged |
| `ScreenRotate.ScreenRotateUtil.Stop` | app/src/main/java/com/pinger/rotation/utils/ScreenRotateUtil.java:116-119 | releases the activity and leaves the orientation state unchanged |
| `ScreenRotate.ScreenRotateUtil.IsLandscape` | app/src/main/java/com/pinger/rotation/utils/ScreenRotateUtil.java:126-128 | returns the cached orientation and changes nothing |
| `ScreenRotate.ScreenRotateUtil.HandleMessage` | app/src/main/java/com/pinger/rotation/utils/ScreenRotateUtil.java:50-72 | consumes the oldest posted orientation and moves the object as `Step(_, MessageDelivered)` does, keeping the handshake invariant; an unbound activity is allowed when the message makes no request, and binding is unchanged |
| `ScreenRotate.ScreenRotateUtil.OnSensorChanged` | app/src/main/java/com/pinger/rotation/utils/ScreenRotateUtil.java:150-219 | moves the object as `Step(_, SensorChanged(setting, sample))` does, keeping the handshake invariant and a queue of -1 or [0,360) angles |
| `ScreenRotate.ScreenRotateUtil.ToggleRotate` | app/src/main/java/com/pinger/rotation/utils/ScreenRotateUtil.java:225-264 | moves the object as `Step(_, ToggleTapped(setting))` does, keeping the handshake invariant |
| `Properties.NormalizeUnique` | app/src/main/java/com/pinger/rotation/utils/ScreenRotateUtil.java:164-170 | the normalised angle is the only value in [0,360) congruent to the raw angle |
| `Properties.HandlerQuadrants` | app/src/main/java/com/pinger/rotation/utils/ScreenRotateUtil.java:58-70 | (45,135): REVERSE_LANDSCAPE and landscape; (135,225): REVERSE_PORTRAIT and portrait; (225,315): LANDSCAPE and landscape; (315,360) or (0,45): PORTRAIT and portrait; each an if-and-only-if |
| `Properties.HandlerIgnores` | app/src/main/java/com/pinger/rotation/utils/ScreenRotateUtil.java:58-70 | for every angle the listener can post, the handler does nothing exactly at -1, 0, 45, 135, 225 and 315 |
| `Properties.ToggleWhenOff` | app/src/main/java/com/pinger/rotation/utils/ScreenRotateUtil.java:234-244 | with auto-rotate 0 the toggle negates isLandscape, requests PORTRAIT if it was landscape and LANDSCAPE otherwise, and keeps the other two flags |
| `Properties.ToggleWhenOn` | app/src/main/java/com/pinger/rotation/utils/ScreenRotateUtil.java:246-263 | with auto-rotate on or missing the toggle suspends forwarding, marks the toggle pending, keeps isLandscape and requests the opposite orientation |
| `Properties.ToggleOffTwice` | app/src/main/java/com/pinger/rotation/utils/ScreenRotateUtil.java:234-244 | two toggles with auto-rotate off restore the flags |
| `Properties.SensorWhenOff` | app/src/main/java/com/pinger/rotation/utils/ScreenRotateUtil.java:179-186 | with auto-rotate 0 a sensor event changes no field and posts nothing |
| `Properties.SensorWhenIdle` | app/src/main/java/com/pinger/rotation/utils/ScreenRotateUtil.java:190-218 | with nothing pending the orientation is posted unchanged and no flag changes |
| `Properties.FamiliesDisjoint` | app/src/main/java/com/pinger/rotation/utils/ScreenRotateUtil.java:193-203 | the portrait family (315,360], [0,45], (135,225] and the landscape family (45,135], (225,315] do not overlap |
| `Properties.PendingConfirmed` | app/src/main/java/com/pinger/rotation/utils/ScreenRotateUtil.java:190-218 | while a toggle is pending, an angle in the target family flips isLandscape exactly once, clears the toggle, re-opens forwarding and posts the angle |
| `Properties.PendingUnconfirmed` | app/src/main/java/com/pinger/rotation/utils/ScreenRotateUtil.java:190-214 | while a toggle is pending, any other angle changes nothing and posts nothing |
| `Properties.ConfirmationNotUndone` | app/src/main/java/com/pinger/rotation/utils/ScreenRotateUtil.java:58-70 | after a confirmed toggle the handler's treatment of the posted angle keeps the new orientation: the strict table never contradicts the inclusive families |
| `Properties.StepKeepsInvariants` | app/src/main/java/com/pinger/rotation/utils/ScreenRotateUtil.java:38-39 | every event keeps isClickFullScreen == !isOpenSensor and a queue of -1 or [0,360) angles |
| `Properties.RunKeepsInvariants` | app/src/main/java/com/pinger/rotation/utils/ScreenRotateUtil.java:198-207 | the same over any sequence of events |
| `Properties.Reachable` | app/src/main/java/com/pinger/rotation/utils/ScreenRotateUtil.java:254-255 | from the initial values false/true, every reachable state keeps the handshake invariant and a well-formed queue |
| `Properties.RequestsOnlyGrow` | app/src/main/java/com/pinger/rotation/utils/ScreenRotateUtil.java:59-68 | orientation requests are only appended, never retracted |
| `Properties.SyncStepSettled` | app/src/main/java/com/pinger/rotation/utils/ScreenRotateUtil.java:190-218 | with the handler keeping up and a fixed setting, one event keeps the settled state: nothing queued; if idle, the last request matches isLandscape; if pending, it is the opposite |
| `Properties.SyncRunSettled` | app/src/main/java/com/pinger/rotation/utils/ScreenRotateUtil.java:225-264 | the same over any sequence of events |
| `Properties.BootSettled` | app/src/main/java/com/pinger/rotation/utils/ScreenRotateUtil.java:38-40 | the initial state is settled under any setting |
| `Properties.BoundaryAfterSettingChange` | app/src/main/java/com/pinger/rotation/utils/ScreenRotateUtil.java:193-200 | a toggle with auto-rotate on, one with it off, then a sample at 45 leaves isLandscape false while LANDSCAPE was the last request; a sample at 10 instead ends in agreement |
| `Properties.StaleMessageDuringToggle` | app/src/main/java/com/pinger/rotation/utils/ScreenRotateUtil.java:58-60 | with a fixed setting, 100 posted, a toggle, the delivery of 100, then a sample at 45 delivered: nothing pending, isLandscape false, REVERSE_LANDSCAPE last requested; with 10 instead of 45 they agree |
| `Properties.ScenarioSensorToLandscape` | app/src/main/java/com/pinger/rotation/utils/ScreenRotateUtil.java:58-60 | from the initial state, a sample at 90 is posted, and its delivery requests REVERSE_LANDSCAPE and sets isLandscape |
| `Properties.ScenarioToggleBack` | app/src/main/java/com/pinger/rotation/utils/ScreenRotateUtil.java:256-259 | from landscape, a toggle requests PORTRAIT and keeps isLandscape; a sample at 10 then clears the handshake, and its delivery requests PORTRAIT with isLandscape false |

## Left out

- Angle estimation from the float accelerometer values is left out: the
  axis negation, the magnitude gate, `atan2`, the degree factor and
  `Math.round` (lines 151-163). This is floating-point numerics. The model
  takes the rounded integer, or `Unknown`, as input.
- Java `int` overflow is not modelled. The raw value `90 - round(angle)` lies
  in [-90,270], far inside 32 bits, so unbounded integers give the same
  results.
- Sensor registration is left out: the `SensorManager` lookup in the
  constructor and the register/unregister calls in `start`/`stop`. This is
  platform I/O. `Start` and `Stop` model only the binding of the activity.
- The lazy double-checked-locking singleton `init` is left out. Its point is
  thread safety.
- The cross-thread nature of `Handler`/`Looper` is not modelled. Posting is a
  sequential FIFO queue. Interleavings are arbitrary event sequences, not
  concurrent reads and writes.
- Reading the setting and logging a `SettingNotFoundException` are not
  modelled. The result of the read is the parameter `Setting`.
- The `msg.what == 888` test is left out. The listener posts only that kind of
  message.
- The `rotateHandler != null` test is left out. The constructor always
  supplies the handler.
- `onAccuracyChanged` is left out. It is empty.
- A null activity after `stop()` is a precondition (`activityBound`) of
  `OnSensorChanged` and `ToggleRotate`. Both read the setting through the
  activity, so the Java code would throw; the model does not invent tolerance
  for it.
- The window's rendering of a request is left out. Only the request log is
  kept.
