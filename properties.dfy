/**
 * Properties of the controller over single messages and over any sequence of
 * messages, the callbacks running one at a time in any order.
 */
module Properties {
  import opened Reals
  import opened Profiles
  import opened Anticipation
  import opened Vibration
  import opened Pid
  import opened Shaper
  import opened Controller

  /** One message never raises the speed limit of, or drops, a surface the classifier has named. */
  lemma StepKeepsNamedProfile(s: ControllerState, e: Event, id: int)
    requires Invariant(s) && id != UNCLASSIFIED && id in s.surfaceData
    ensures var t := Step(s, e).state.surfaceData;
      && id in t
      && t[id].maxXVel <= s.surfaceData[id].maxXVel
      && t[id].maxAccel == s.surfaceData[id].maxAccel
  {
  }

  /**
   * The ratchet on a named surface is permanent for the life of the node:
   * whatever messages arrive, its speed limit never goes back up and its
   * acceleration limit never changes.
   */
  lemma {:induction false} NamedProfileOnlyDegrades(s: ControllerState, events: seq<Event>, id: int)
    requires Invariant(s) && id != UNCLASSIFIED && id in s.surfaceData
    ensures var t := Run(s, events).final.surfaceData;
      && id in t
      && t[id].maxXVel <= s.surfaceData[id].maxXVel
      && t[id].maxAccel == s.surfaceData[id].maxAccel
    decreases |events|
  {
    if events != [] {
      StepKeepsNamedProfile(s, events[0], id);
      NamedProfileOnlyDegrades(Step(s, events[0]).state, events[1..], id);
    }
  }

  /**
   * Once the previous command is beyond the anomaly bound, no message can
   * bring it back: every later joystick message quits and nothing is ever
   * published again.
   */
  lemma {:induction false} QuitIsPermanent(s: ControllerState, events: seq<Event>)
    requires Invariant(s) && Anomalous(s)
    ensures Run(s, events).final.previousXVelocity == s.previousXVelocity
    ensures forall i :: 0 <= i < |events| ==> !Run(s, events).commands[i].Publish?
    decreases |events|
  {
    if events != [] {
      var first := Step(s, events[0]);
      assert first.state.previousXVelocity == s.previousXVelocity && !first.command.Publish?;
      QuitIsPermanent(first.state, events[1..]);
      var rest := Run(first.state, events[1..]);
      assert Run(s, events).commands == [first.command] + rest.commands;
    }
  }

  /**
   * Two joystick messages with the same time stamp: the second re-publishes
   * what the first published and changes nothing, unless that command was
   * itself beyond the anomaly bound.
   */
  lemma SameStampRepeatsLastCommand(s: ControllerState, axis1: real, axis2: real, stamp: real)
    requires s.currentSurface in s.surfaceData
    requires JoystickStep(s, true, axis1, stamp).command.Publish?
    ensures var first := JoystickStep(s, true, axis1, stamp);
      var second := JoystickStep(first.state, true, axis2, stamp);
      second == (if Anomalous(first.state) then Reaction(first.state, Quit) else first)
  {
  }

  /**
   * On every ramped joystick message the PID input is within 0.25 m/s per
   * second of the previous command, lies between the previous command and the
   * capped request, is the capped request itself when that is reachable, and
   * otherwise moves exactly 0.25 m/s per second toward it.
   */
  lemma RampRespectsAccelerationLimit(s: ControllerState, axis: real, stamp: real)
    requires Invariant(s) && !Holds(s, stamp)
    ensures var dt := stamp - s.previousStamp;
      var requested := RequestedTarget(axis, s.tracker.upcomingBumpiness, s.surfaceData[s.currentSurface].maxXVel);
      && Abs(PidTarget(s, axis, stamp) - s.previousXVelocity) <= DEFAULT_PROFILE.maxAccel * Abs(dt)
      && Between(s.previousXVelocity, PidTarget(s, axis, stamp), requested)
      && (Abs(requested - s.previousXVelocity) <= DEFAULT_PROFILE.maxAccel * Abs(dt) ==>
            PidTarget(s, axis, stamp) == requested)
      && (DEFAULT_PROFILE.maxAccel * Abs(dt) < Abs(requested - s.previousXVelocity) ==>
            Abs(PidTarget(s, axis, stamp) - s.previousXVelocity) == DEFAULT_PROFILE.maxAccel * Abs(dt))
  {
  }

  /**
   * The worked example: roughness 0.1 then 0.3 latches "rougher ahead"; a
   * first full-forward joystick message only holds the standing command; the
   * next one, 0.1 s later, asks for 2.0, is capped to 0.2 by the anticipation,
   * ramped to 0.025 by the 0.25 m/s^2 limit, and published unchanged by the
   * PID corrector, which has no odometry yet.
   */
  lemma RougherTerrainExample()
    ensures var s := BumpinessStep(BumpinessStep(INITIAL, 0.1), 0.3);
      var first := JoystickStep(s, true, -1.0, 1.0);
      var second := JoystickStep(first.state, true, -1.0, 1.1);
      && s.tracker.upcomingBumpiness
      && RequestedTarget(-1.0, true, DEFAULT_PROFILE.maxXVel) == ANTICIPATION_CAP
      && first.command == Publish(0.0)
      && PidTarget(first.state, -1.0, 1.1) == 0.025
      && second.command == Publish(0.025)
      && second.state.previousXVelocity == 0.025 && second.state.olderXVelocity == 0.0
  {
    var s := BumpinessStep(BumpinessStep(INITIAL, 0.1), 0.3);
    assert s.tracker.upcomingBumpiness;
    var first := JoystickStep(s, true, -1.0, 1.0);
    assert first.state == s.(previousStamp := 1.0);
  }

  /**
   * Nothing keeps a speed limit positive: a single ratchet after a command
   * slower than the 0.15 step (the worked example ends at 0.025, coming from
   * standstill) leaves the current surface a negative limit, and from then on
   * a full-forward stick asks to drive backwards.
   */
  lemma SlowRatchetReverses(s: ControllerState, z: real)
    requires Invariant(s) && |s.accels| == WINDOW_SIZE - 1
    requires RatchetFires(s.accels + [z], s.olderXVelocity, s.previousXVelocity, s.tracker.surfaceTransition)
    requires Abs(s.previousXVelocity) < RATCHET_STEP
    ensures var limit := ImuStep(s, z).surfaceData[s.currentSurface].maxXVel;
      && limit <= Abs(s.previousXVelocity) - RATCHET_STEP
      && limit < 0.0
      && RequestedTarget(-1.0, false, limit) < 0.0
  {
  }
}
