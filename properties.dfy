/**
 What the controller promises, stated over the pure model of rotation.dfy: the
 handler's quadrant table, the toggle, the gates and handshake of the listener,
 the invariants of every reachable state, and two end-to-end scenarios.
 */
module Properties {
  import opened Rotation

  // ---------------------------------------------------------------------
  // Normalisation

  /** Normalize is the only value in [0,360) congruent to the raw angle. */
  lemma NormalizeUnique(raw: int, r: int)
    requires 0 <= r < 360 && (r - raw) % 360 == 0
    ensures r == Normalize(raw)
  {
  }

  // ---------------------------------------------------------------------
  // The handler

  /** Each open quadrant gives one request and the matching cached orientation. */
  lemma HandlerQuadrants(f: Flags, o: int)
    ensures 45 < o < 135 <==> Handle(f, o) == Decision(f.(landscape := true), Some(ReverseLandscape))
    ensures 135 < o < 225 <==> Handle(f, o) == Decision(f.(landscape := false), Some(ReversePortrait))
    ensures 225 < o < 315 <==> Handle(f, o) == Decision(f.(landscape := true), Some(Landscape))
    ensures (315 < o < 360 || 0 < o < 45) <==> Handle(f, o) == Decision(f.(landscape := false), Some(Portrait))
  {
  }

  /**
   Of the orientations the listener can post, the handler ignores exactly the
   unknown value, 0 and the four diagonals 45, 135, 225, 315.
   */
  lemma HandlerIgnores(f: Flags, o: int)
    requires WellFormedOrientation(o)
    ensures Handle(f, o).request.None? <==> o == ORIENTATION_UNKNOWN || o == 0 || o % 90 == 45
    ensures Handle(f, o).request.None? ==> Handle(f, o).flags == f
  {
  }

  // ---------------------------------------------------------------------
  // The toggle

  /** With auto-rotation off the toggle flips the cached orientation and requests the new one. */
  lemma ToggleWhenOff(f: Flags, setting: Setting)
    requires AutoRotateOff(setting)
    ensures Toggle(f, setting) == Toggled(f.(landscape := !f.landscape), if f.landscape then Portrait else Landscape)
  {
  }

  /**
   With auto-rotation on, or the setting missing, the toggle arms the handshake,
   keeps the cached orientation and requests the opposite one.
   */
  lemma ToggleWhenOn(f: Flags, setting: Setting)
    requires !AutoRotateOff(setting)
    ensures Toggle(f, setting) == Toggled(Flags(f.landscape, true, false), if f.landscape then Portrait else Landscape)
  {
  }

  /** Two toggles with auto-rotation off give back the flags they started from. */
  lemma ToggleOffTwice(f: Flags, setting: Setting)
    requires AutoRotateOff(setting)
    ensures Toggle(Toggle(f, setting).flags, setting).flags == f
  {
  }

  // ---------------------------------------------------------------------
  // The listener

  /** With auto-rotation off an event changes nothing at all, not even the queue. */
  lemma SensorWhenOff(s: Sys, setting: Setting, sample: Sample)
    requires AutoRotateOff(setting)
    ensures Step(s, SensorChanged(setting, sample)) == s
  {
  }

  /** With nothing pending, every orientation is posted to the handler unchanged. */
  lemma SensorWhenIdle(f: Flags, setting: Setting, o: int)
    requires !AutoRotateOff(setting) && Handshake(f) && !f.clickFullScreen
    ensures Sensor(f, setting, o) == Forward(f, Some(o))
  {
  }

  /** The two families of the handshake never overlap. */
  lemma FamiliesDisjoint(o: int)
    ensures !(InPortraitFamily(o) && InLandscapeFamily(o))
  {
  }

  /**
   While a toggle is pending, reaching the target family flips the cached
   orientation once (the second check never undoes the first), clears the
   toggle, re-opens forwarding and posts the orientation.
   */
  lemma PendingConfirmed(f: Flags, setting: Setting, o: int)
    requires !AutoRotateOff(setting) && f.clickFullScreen && ReachedTarget(f, o)
    ensures Sensor(f, setting, o) == Forward(Flags(!f.landscape, false, true), Some(o))
  {
  }

  /** While a toggle is pending, any other orientation changes nothing and posts nothing. */
  lemma PendingUnconfirmed(f: Flags, setting: Setting, o: int)
    requires Handshake(f) && f.clickFullScreen && !ReachedTarget(f, o)
    ensures Sensor(f, setting, o) == Forward(f, None)
  {
  }

  /**
   The handler never undoes a confirmed toggle: once the device reaches the
   target family, the request that the posted orientation produces (if any) is
   in that same family.
   */
  lemma ConfirmationNotUndone(f: Flags, setting: Setting, o: int)
    requires !AutoRotateOff(setting) && f.clickFullScreen && ReachedTarget(f, o)
    ensures var r := Sensor(f, setting, o);
            r.message == Some(o) && Handle(r.flags, o).flags.landscape == !f.landscape
  {
  }

  // ---------------------------------------------------------------------
  // Reachable states

  /** The handshake and the queue's contents survive every single event. */
  lemma StepKeepsInvariants(s: Sys, e: Event)
    requires Handshake(s.flags) && QueueWellFormed(s.messages)
    ensures Handshake(Step(s, e).flags) && QueueWellFormed(Step(s, e).messages)
  {
  }

  /** The handshake and the queue's contents survive every sequence of events. */
  lemma {:induction false} RunKeepsInvariants(s: Sys, es: seq<Event>)
    requires Handshake(s.flags) && QueueWellFormed(s.messages)
    ensures Handshake(Run(s, es).flags) && QueueWellFormed(Run(s, es).messages)
    decreases |es|
  {
    if es != [] {
      StepKeepsInvariants(s, es[0]);
      RunKeepsInvariants(Step(s, es[0]), es[1..]);
    }
  }

  /**
   In every reachable state a toggle is pending exactly when forwarding is
   suspended, and the queue holds only -1 or angles in [0,360).
   */
  lemma Reachable(es: seq<Event>)
    ensures Handshake(Run(Boot, es).flags)
    ensures QueueWellFormed(Run(Boot, es).messages)
  {
    RunKeepsInvariants(Boot, es);
  }

  /** Requests are only ever appended: the log of an earlier state is a prefix of every later one. */
  lemma {:induction false} RequestsOnlyGrow(s: Sys, es: seq<Event>)
    ensures s.requests <= Run(s, es).requests
    decreases |es|
  {
    if es != [] {
      var t := Step(s, es[0]);
      assert s.requests <= t.requests;
      RequestsOnlyGrow(t, es[1..]);
    }
  }

  // ---------------------------------------------------------------------
  // Screen and cache agree when the handler runs right after each sensor event

  /**
   One event followed, if it posted an orientation, by the delivery of that
   message; this is the order the main looper gives when it keeps up with the
   sensor.
   */
  function SyncStep(s: Sys, e: Event): Sys
  {
    var t := Step(s, e);
    if e.SensorChanged? && t.messages != [] then Step(t, MessageDelivered) else t
  }

  function SyncRun(s: Sys, es: seq<Event>): Sys
    decreases |es|
  {
    if es == [] then s else SyncRun(SyncStep(s, es[0]), es[1..])
  }

  /** The last request made matches the cached orientation (portrait before any request). */
  predicate Agrees(s: Sys)
  {
    if s.requests == [] then !s.flags.landscape else IsLandscapeRequest(Last(s.requests)) == s.flags.landscape
  }

  /**
   Nothing is queued; with nothing pending the screen and the cache agree, and
   with a toggle pending the last request is the opposite of the cache.
   */
  predicate Settled(s: Sys)
  {
    && s.messages == []
    && Handshake(s.flags)
    && if s.flags.clickFullScreen then s.requests != [] && IsLandscapeRequest(Last(s.requests)) == !s.flags.landscape
       else Agrees(s)
  }

  /** Every event that reads the system setting reads `setting`. */
  predicate SameSetting(es: seq<Event>, setting: Setting)
  {
    forall i :: 0 <= i < |es| && !es[i].MessageDelivered? ==> es[i].setting == setting
  }

  predicate SettledUnder(s: Sys, setting: Setting)
  {
    Settled(s) && (AutoRotateOff(setting) ==> !s.flags.clickFullScreen)
  }

  /** One event, with the handler keeping up and the setting fixed, keeps the controller settled. */
  lemma SyncStepSettled(s: Sys, e: Event, setting: Setting)
    requires SettledUnder(s, setting)
    requires !e.MessageDelivered? ==> e.setting == setting
    ensures SettledUnder(SyncStep(s, e), setting)
  {
  }

  /**
   As long as the system setting does not change, a controller that starts
   settled stays settled: whenever nothing is pending, the last orientation
   requested and isLandscape agree.
   */
  lemma {:induction false} SyncRunSettled(s: Sys, es: seq<Event>, setting: Setting)
    requires SettledUnder(s, setting) && SameSetting(es, setting)
    ensures Settled(SyncRun(s, es))
    ensures !SyncRun(s, es).flags.clickFullScreen ==> Agrees(SyncRun(s, es))
    decreases |es|
  {
    if es != [] {
      SyncStepSettled(s, es[0], setting);
      assert SameSetting(es[1..], setting) by {
        forall i | 0 <= i < |es[1..]| && !es[1..][i].MessageDelivered?
          ensures es[1..][i].setting == setting
        {
          assert es[1..][i] == es[i + 1];
        }
      }
      SyncRunSettled(SyncStep(s, es[0]), es[1..], setting);
    }
  }

  lemma BootSettled(setting: Setting)
    ensures SettledUnder(Boot, setting)
  {
  }

  /**
   When the setting changes while a toggle is pending, the inclusive bounds of
   the handshake and the strict bounds of the handler can leave the screen and
   the cache apart: toggle with auto-rotation on, toggle again with it off, turn
   it back on and hold the device at exactly 45 degrees.
   */
  lemma BoundaryAfterSettingChange()
    ensures var s := SyncRun(Boot, [ToggleTapped(Value(1)), ToggleTapped(Value(0)), SensorChanged(Value(1), Angle(45))]);
            s.messages == [] && !s.flags.clickFullScreen && !Agrees(s)
    ensures var s := SyncRun(Boot, [ToggleTapped(Value(1)), ToggleTapped(Value(0)), SensorChanged(Value(1), Angle(10))]);
            s.messages == [] && !s.flags.clickFullScreen && Agrees(s)
  {
    var s1 := SyncStep(Boot, ToggleTapped(Value(1)));
    assert s1 == Sys(Flags(false, true, false), [], [Landscape]);
    var s2 := SyncStep(s1, ToggleTapped(Value(0)));
    assert s2 == Sys(Flags(true, true, false), [], [Landscape, Landscape]);
    assert Normalize(45) == 45 && Normalize(10) == 10;
    var a := SyncStep(s2, SensorChanged(Value(1), Angle(45)));
    assert a == Sys(Flags(false, false, true), [], [Landscape, Landscape]);
    var b := SyncStep(s2, SensorChanged(Value(1), Angle(10)));
    assert b == Sys(Flags(false, false, true), [], [Landscape, Landscape, Portrait]);
  }

  /**
   With the setting fixed, a message posted before a toggle and delivered while
   it is pending reverses the handshake's target: the handler sets isLandscape
   from the stale angle, and a sample at exactly 45 then completes the handshake
   without any request, leaving the screen and the cache apart. A sample at 10
   instead ends in agreement.
   */
  lemma StaleMessageDuringToggle()
    ensures var s := Run(Boot, [SensorChanged(Value(1), Angle(100)), ToggleTapped(Value(1)), MessageDelivered,
                                SensorChanged(Value(1), Angle(45)), MessageDelivered]);
            s.messages == [] && !s.flags.clickFullScreen && !Agrees(s)
    ensures var s := Run(Boot, [SensorChanged(Value(1), Angle(100)), ToggleTapped(Value(1)), MessageDelivered,
                                SensorChanged(Value(1), Angle(10)), MessageDelivered]);
            s.messages == [] && !s.flags.clickFullScreen && Agrees(s)
  {
    assert Normalize(100) == 100 && Normalize(45) == 45 && Normalize(10) == 10;
    var s1 := Step(Boot, SensorChanged(Value(1), Angle(100)));
    assert s1 == Sys(Initial, [100], []);
    var s2 := Step(s1, ToggleTapped(Value(1)));
    assert s2 == Sys(Flags(false, true, false), [100], [Landscape]);
    var s3 := Step(s2, MessageDelivered);
    assert s3 == Sys(Flags(true, true, false), [], [Landscape, ReverseLandscape]);
    var a := Step(Step(s3, SensorChanged(Value(1), Angle(45))), MessageDelivered);
    assert a == Sys(Flags(false, false, true), [], [Landscape, ReverseLandscape]);
    var b := Step(Step(s3, SensorChanged(Value(1), Angle(10))), MessageDelivered);
    assert b == Sys(Flags(false, false, true), [], [Landscape, ReverseLandscape, Portrait]);
    RunUnfold5(Boot, SensorChanged(Value(1), Angle(100)), ToggleTapped(Value(1)), MessageDelivered,
               SensorChanged(Value(1), Angle(45)), MessageDelivered);
    RunUnfold5(Boot, SensorChanged(Value(1), Angle(100)), ToggleTapped(Value(1)), MessageDelivered,
               SensorChanged(Value(1), Angle(10)), MessageDelivered);
  }

  /** Running five events is applying them one after the other. */
  lemma RunUnfold5(s: Sys, e1: Event, e2: Event, e3: Event, e4: Event, e5: Event)
    ensures Run(s, [e1, e2, e3, e4, e5]) == Step(Step(Step(Step(Step(s, e1), e2), e3), e4), e5)
  {
    var es := [e1, e2, e3, e4, e5];
    assert es[1..] == [e2, e3, e4, e5] && es[1..][1..] == [e3, e4, e5];
    assert es[1..][1..][1..] == [e4, e5] && es[1..][1..][1..][1..] == [e5] && es[1..][1..][1..][1..][1..] == [];
    var t1 := Step(s, e1);
    var t2 := Step(t1, e2);
    var t3 := Step(t2, e3);
    var t4 := Step(t3, e4);
    assert Run(s, es) == Run(t1, [e2, e3, e4, e5]) == Run(t2, [e3, e4, e5]) == Run(t3, [e4, e5])
        == Run(t4, [e5]) == Run(Step(t4, e5), []);
  }

  // ---------------------------------------------------------------------
  // Scenarios

  /** From boot, a sample at 90 degrees posts 90; its delivery requests reverse landscape. */
  lemma ScenarioSensorToLandscape(setting: Setting)
    requires !AutoRotateOff(setting)
    ensures Run(Boot, [SensorChanged(setting, Angle(90))]) == Sys(Initial, [90], [])
    ensures Run(Boot, [SensorChanged(setting, Angle(90)), MessageDelivered])
         == Sys(Flags(true, false, true), [], [ReverseLandscape])
  {
    assert Normalize(90) == 90;
    var s1 := Step(Boot, SensorChanged(setting, Angle(90)));
    assert s1 == Sys(Initial, [90], []);
    var s2 := Step(s1, MessageDelivered);
    assert s2 == Sys(Flags(true, false, true), [], [ReverseLandscape]);
    var es := [SensorChanged(setting, Angle(90)), MessageDelivered];
    assert es[1..] == [MessageDelivered] && es[1..][1..] == [];
    assert Run(Boot, es) == Run(s1, [MessageDelivered]) == Run(s2, []);
  }

  /**
   From landscape with nothing pending, a toggle requests portrait at once but
   keeps isLandscape; a sample at 10 degrees then confirms it, clears the
   handshake and its delivery requests portrait again.
   */
  lemma ScenarioToggleBack(s: Sys, setting: Setting)
    requires !AutoRotateOff(setting) && s.flags == Flags(true, false, true) && s.messages == []
    ensures Run(s, [ToggleTapped(setting)]) == Sys(Flags(true, true, false), [], s.requests + [Portrait])
    ensures Run(s, [ToggleTapped(setting), SensorChanged(setting, Angle(10)), MessageDelivered])
         == Sys(Flags(false, false, true), [], s.requests + [Portrait, Portrait])
  {
    assert Normalize(10) == 10;
    var s1 := Step(s, ToggleTapped(setting));
    assert s1 == Sys(Flags(true, true, false), [], s.requests + [Portrait]);
    var s2 := Step(s1, SensorChanged(setting, Angle(10)));
    assert s2 == Sys(Flags(false, false, true), [10], s.requests + [Portrait]);
    var s3 := Step(s2, MessageDelivered);
    assert s3 == Sys(Flags(false, false, true), [], s.requests + [Portrait, Portrait]);
    var es := [ToggleTapped(setting), SensorChanged(setting, Angle(10)), MessageDelivered];
    assert es[1..] == [SensorChanged(setting, Angle(10)), MessageDelivered];
    assert es[1..][1..] == [MessageDelivered] && es[1..][1..][1..] == [];
    assert Run(s, es) == Run(s1, es[1..]) == Run(s2, es[1..][1..]) == Run(s3, []);
  }
}
