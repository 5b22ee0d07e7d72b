/**
 The orientation decisions of ScreenRotateUtil as pure functions over its three
 boolean fields. Every side effect of the controller is either a change of these
 flags, a message posted to the main-thread handler, or a window-orientation
 request; `Step` applies one event to all three, and the class in
 screen_rotate_util.dfy is proved to follow it.
 */
module Rotation {

  datatype Option<+T> = None | Some(value: T)

  function ToSeq<T>(o: Option<T>): (s: seq<T>)
    ensures |s| <= 1
    ensures o.None? <==> s == []
    ensures o.Some? ==> s == [o.value]
  {
    match o
    case None => []
    case Some(v) => [v]
  }

  function Last<T>(s: seq<T>): T
    requires s != []
  {
    s[|s| - 1]
  }

  /** The four window orientations the controller requests (ActivityInfo.SCREEN_ORIENTATION_*). */
  datatype Orientation = Portrait | Landscape | ReversePortrait | ReverseLandscape

  predicate IsLandscapeRequest(r: Orientation)
  {
    r == Landscape || r == ReverseLandscape
  }

  /**
   The outcome of reading the system setting ACCELEROMETER_ROTATION: an integer
   value, or the setting is not found on this device.
   */
  datatype Setting = Value(n: int) | NotFound

  /** Only an explicit 0 turns auto-rotation off; a missing setting behaves like "on". */
  predicate AutoRotateOff(s: Setting)
  {
    s.Value? && s.n == 0
  }

  /**
   One accelerometer event after its floating-point part: either the magnitude
   gate rejected it, or it gives 90 minus the rounded atan2 angle, not yet
   normalised.
   */
  datatype Sample = Unknown | Angle(raw: int)

  const ORIENTATION_UNKNOWN: int := -1

  /** The angle brought into [0,360) without changing it modulo 360. */
  function Normalize(raw: int): (r: int)
    ensures 0 <= r < 360
    ensures (r - raw) % 360 == 0
  {
    raw % 360
  }

  /** The orientation the listener works with: -1 for an unknown sample, else the normalised angle. */
  function OrientationOf(s: Sample): (o: int)
    ensures s.Unknown? <==> o == ORIENTATION_UNKNOWN
    ensures s.Angle? ==> 0 <= o < 360 && (o - s.raw) % 360 == 0
  {
    match s
    case Unknown => ORIENTATION_UNKNOWN
    case Angle(raw) => Normalize(raw)
  }

  /** The values the handler's message queue can hold. */
  predicate WellFormedOrientation(o: int)
  {
    o == ORIENTATION_UNKNOWN || 0 <= o < 360
  }

  /** Every queued message is a value the listener can post. */
  predicate QueueWellFormed(messages: seq<int>)
  {
    forall i :: 0 <= i < |messages| ==> WellFormedOrientation(messages[i])
  }

  /**
   The three fields of ScreenRotateUtil: the cached screen orientation
   (isLandscape), a manual toggle waiting for the device to follow
   (isClickFullScreen), and sensor forwarding enabled (isOpenSensor).
   */
  datatype Flags = Flags(landscape: bool, clickFullScreen: bool, openSensor: bool)

  /** Portrait, nothing pending, forwarding on. */
  const Initial: Flags := Flags(false, false, true)

  /** The handshake: forwarding is suspended exactly while a manual toggle is pending. */
  predicate Handshake(f: Flags)
  {
    f.clickFullScreen == !f.openSensor
  }

  // ---------------------------------------------------------------------
  // The main-thread handler

  /** The handler's quadrant table; all comparisons are strict. */
  function Classify(o: int): Option<Orientation>
  {
    if 45 < o < 135 then Some(ReverseLandscape)
    else if 135 < o < 225 then Some(ReversePortrait)
    else if 225 < o < 315 then Some(Landscape)
    else if (315 < o < 360) || (0 < o < 45) then Some(Portrait)
    else None
  }

  /** What the handler does with one forwarded orientation. */
  datatype Decision = Decision(flags: Flags, request: Option<Orientation>)

  function Handle(f: Flags, o: int): (d: Decision)
    ensures d.request == Classify(o)
    ensures d.flags.clickFullScreen == f.clickFullScreen && d.flags.openSensor == f.openSensor
    ensures d.request.None? ==> d.flags == f
    ensures d.request.Some? ==> d.flags.landscape == IsLandscapeRequest(d.request.value)
  {
    match Classify(o)
    case None => Decision(f, None)
    case Some(r) => Decision(f.(landscape := IsLandscapeRequest(r)), Some(r))
  }

  // ---------------------------------------------------------------------
  // The sensor listener, after the angle is known

  /** The device is in the portrait family (inclusive bounds, unlike the handler). */
  predicate InPortraitFamily(o: int)
  {
    (315 < o <= 360) || (0 <= o <= 45) || (135 < o <= 225)
  }

  /** The device is in the landscape family (inclusive bounds, unlike the handler). */
  predicate InLandscapeFamily(o: int)
  {
    (45 < o <= 135) || (225 < o <= 315)
  }

  /** The device has reached the family opposite to the cached orientation. */
  predicate ReachedTarget(f: Flags, o: int)
  {
    if f.landscape then InPortraitFamily(o) else InLandscapeFamily(o)
  }

  /**
   The two checks done while a toggle is pending, one after the other; the
   second one sees the flags the first one may have written.
   */
  function Confirm(f: Flags, o: int): Flags
  {
    var f1 := if f.landscape && InPortraitFamily(o) then Flags(false, false, true) else f;
    if !f1.landscape && InLandscapeFamily(o) then Flags(true, false, true) else f1
  }

  /** What the listener does with orientation `o`: new flags, and the message it posts, if any. */
  datatype Forward = Forward(flags: Flags, message: Option<int>)

  function Sensor(f: Flags, setting: Setting, o: int): (r: Forward)
    ensures AutoRotateOff(setting) ==> r == Forward(f, None)
    ensures !f.clickFullScreen ==> r.flags == f
    ensures r.message.Some? ==> r.message.value == o && r.flags.openSensor
    ensures r.flags != f ==> f.clickFullScreen && r.flags == Flags(!f.landscape, false, true)
    ensures Handshake(f) ==> Handshake(r.flags)
  {
    if AutoRotateOff(setting) then Forward(f, None)
    else
      var f1 := if f.clickFullScreen then Confirm(f, o) else f;
      if !f1.openSensor then Forward(f1, None) else Forward(f1, Some(o))
  }

  // ---------------------------------------------------------------------
  // The manual toggle

  datatype Toggled = Toggled(flags: Flags, request: Orientation)

  function Toggle(f: Flags, setting: Setting): (t: Toggled)
    ensures IsLandscapeRequest(t.request) == !f.landscape
    ensures t.flags.landscape != f.landscape <==> AutoRotateOff(setting)
    ensures Handshake(f) ==> Handshake(t.flags)
  {
    if AutoRotateOff(setting) then
      if f.landscape then Toggled(f.(landscape := false), Portrait)
      else Toggled(f.(landscape := true), Landscape)
    else
      var f1 := f.(openSensor := false, clickFullScreen := true);
      if f1.landscape then Toggled(f1, Portrait) else Toggled(f1, Landscape)
  }

  // ---------------------------------------------------------------------
  // The whole controller: flags, the handler's message queue, the requests made

  datatype Sys = Sys(flags: Flags, messages: seq<int>, requests: seq<Orientation>)

  const Boot: Sys := Sys(Initial, [], [])

  /** A sensor event, the main looper delivering the oldest message, or a tap on the toggle. */
  datatype Event =
    | SensorChanged(setting: Setting, sample: Sample)
    | MessageDelivered
    | ToggleTapped(setting: Setting)

  function Step(s: Sys, e: Event): (t: Sys)
    ensures e.SensorChanged? ==> t.requests == s.requests
    ensures e.SensorChanged? ==> s.messages <= t.messages && |t.messages| <= |s.messages| + 1
    ensures e.ToggleTapped? ==> t.messages == s.messages && |t.requests| == |s.requests| + 1
    ensures e.MessageDelivered? && s.messages != [] ==>
              && t.messages == s.messages[1..]
              && t.flags == Handle(s.flags, s.messages[0]).flags
              && t.requests == s.requests + ToSeq(Classify(s.messages[0]))
    ensures e.MessageDelivered? && s.messages == [] ==> t == s
  {
    match e
    case SensorChanged(setting, sample) =>
      var r := Sensor(s.flags, setting, OrientationOf(sample));
      Sys(r.flags, s.messages + ToSeq(r.message), s.requests)
    case MessageDelivered =>
      if s.messages == [] then s
      else
        var d := Handle(s.flags, s.messages[0]);
        Sys(d.flags, s.messages[1..], s.requests + ToSeq(d.request))
    case ToggleTapped(setting) =>
      var t := Toggle(s.flags, setting);
      Sys(t.flags, s.messages, s.requests + [t.request])
  }

  function Run(s: Sys, es: seq<Event>): Sys
    decreases |es|
  {
    if es == [] then s else Run(Step(s, es[0]), es[1..])
  }
}
