/**
 The controller object itself: the fields ScreenRotateUtil updates in place and
 its entry points, written step by step as the Java does. Each method is proved
 to move the object exactly as `Rotation.Step` moves the pure state, so the
 lemmas of properties.dfy apply to every sequence of calls.
 */
module ScreenRotate {
  import opened Rotation

  /** The two normalisation loops of the listener: subtract, then add, 360. */
  method NormalizeAngle(raw: int) returns (orientation: int)
    ensures 0 <= orientation < 360
    ensures (orientation - raw) % 360 == 0
    ensures orientation == Normalize(raw)
  {
    orientation := raw;
    while orientation >= 360
      invariant orientation % 360 == raw % 360
      decreases orientation
    {
      orientation := orientation - 360;
    }
    while orientation < 0
      invariant orientation < 360
      invariant orientation % 360 == raw % 360
      decreases -orientation
    {
      orientation := orientation + 360;
    }
  }

  class ScreenRotateUtil {
    /** An activity is bound: set by Start, cleared by Stop. */
    var activityBound: bool
    var isClickFullScreen: bool
    var isOpenSensor: bool
    var isLandscape: bool
    /** Orientations posted to the main-thread handler and not yet delivered, oldest first. */
    var messages: seq<int>
    /** Every setRequestedOrientation call made on the bound activity, oldest first. */
    var requests: seq<Orientation>

    function Snapshot(): Sys
      reads this
    {
      Sys(Flags(isLandscape, isClickFullScreen, isOpenSensor), messages, requests)
    }

    ghost predicate Valid()
      reads this
    {
      && Handshake(Snapshot().flags)
      && QueueWellFormed(messages)
    }

    constructor ()
      ensures Valid() && !activityBound
      ensures Snapshot() == Boot
    {
      activityBound := false;
      isClickFullScreen := false;
      isOpenSensor := true;
      isLandscape := false;
      messages := [];
      requests := [];
    }

    /** Binds the activity whose orientation is driven (sensor registration is not modelled). */
    method Start()
      requires Valid()
      modifies this
      ensures Valid() && activityBound
      ensures Snapshot() == old(Snapshot())
    {
      activityBound := true;
    }

    /** Releases the bound activity (sensor unregistration is not modelled). */
    method Stop()
      requires Valid()
      modifies this
      ensures Valid() && !activityBound
      ensures Snapshot() == old(Snapshot())
    {
      activityBound := false;
    }

    /** The cached orientation; reads the state and changes nothing. */
    function IsLandscape(): (landscape: bool)
      reads this
      ensures landscape == Snapshot().flags.landscape
    {
      isLandscape
    }

    /**
     The handler receiving the oldest posted orientation on the main thread.
     The activity is used only when a request is made, so a message the table
     ignores may also be delivered after Stop.
     */
    method HandleMessage()
      requires Valid() && messages != []
      requires activityBound || Classify(messages[0]).None?
      modifies this
      ensures Valid() && activityBound == old(activityBound)
      ensures Snapshot() == Step(old(Snapshot()), MessageDelivered)
    {
      var orientation := messages[0];
      messages := messages[1..];
      if orientation > 45 && orientation < 135 {
        requests := requests + [ReverseLandscape];
        isLandscape := true;
      } else if orientation > 135 && orientation < 225 {
        requests := requests + [ReversePortrait];
        isLandscape := false;
      } else if orientation > 225 && orientation < 315 {
        requests := requests + [Landscape];
        isLandscape := true;
      } else if (orientation > 315 && orientation < 360) || (orientation > 0 && orientation < 45) {
        requests := requests + [Portrait];
        isLandscape := false;
      }
    }

    /** The listener's work once the sample has been turned into an angle or found unusable. */
    method OnSensorChanged(setting: Setting, sample: Sample)
      requires Valid() && activityBound
      modifies this
      ensures Valid() && activityBound
      ensures Snapshot() == Step(old(Snapshot()), SensorChanged(setting, sample))
    {
      var orientation := ORIENTATION_UNKNOWN;
      if sample.Angle? {
        orientation := NormalizeAngle(sample.raw);
      }

      if AutoRotateOff(setting) {
        return;
      }

      if isClickFullScreen {
        if isLandscape && (((orientation > 315 && orientation <= 360) || (orientation >= 0 && orientation <= 45))
                           || (orientation > 135 && orientation <= 225)) {
          isLandscape := false;
          isClickFullScreen := false;
          isOpenSensor := true;
        }
        if !isLandscape && ((orientation > 45 && orientation <= 135) || (orientation > 225 && orientation <= 315)) {
          isLandscape := true;
          isClickFullScreen := false;
          isOpenSensor := true;
        }
      }

      if !isOpenSensor {
        return;
      }

      messages := messages + [orientation];
    }

    /** The full-screen button. */
    method ToggleRotate(setting: Setting)
      requires Valid() && activityBound
      modifies this
      ensures Valid() && activityBound
      ensures Snapshot() == Step(old(Snapshot()), ToggleTapped(setting))
    {
      if AutoRotateOff(setting) {
        if isLandscape {
          isLandscape := false;
          requests := requests + [Portrait];
        } else {
          isLandscape := true;
          requests := requests + [Landscape];
        }
        return;
      }

      isOpenSensor := false;
      isClickFullScreen := true;
      if isLandscape {
        requests := requests + [Portrait];
      } else {
        requests := requests + [Landscape];
      }
    }
  }
}
