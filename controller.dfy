/**
 * The whole controller as a state machine: the node's module-level state and
 * one step function per callback. The class in node.dfy is proved to follow
 * these steps.
 */
module Controller {
  import opened Reals
  import opened Profiles
  import opened Anticipation
  import opened Vibration
  import opened Pid
  import opened Shaper

  /** Everything the callbacks read and write between messages. */
  datatype ControllerState = ControllerState(
    surfaceData: SurfaceTable,
    currentSurface: int,
    previousSurface: int,
    tracker: Tracker,
    accels: seq<real>,
    zVibrations: real,
    currentXVel: real,
    deltaT: real,
    previousOdometryReadingTime: real,
    previousStamp: real,
    previousXVelocity: real,
    olderXVelocity: real,
    pid: PidState)

  /** The state when the node starts: unclassified terrain, nothing latched, standing still. */
  const INITIAL := ControllerState(
    INITIAL_TABLE, UNCLASSIFIED, UNCLASSIFIED, INITIAL_TRACKER, [], -1.0,
    0.0, 0.0, 0.0, 0.0, 0.0, 0.0, INITIAL_PID)

  /**
   * What holds between messages: the scratch slot and the current surface
   * have profiles (so the lookups of the IMU and joystick callbacks succeed),
   * the IMU buffer holds less than a full window, no speed limit is above the
   * default and no acceleration limit ever differs from it.
   */
  ghost predicate Consistent(table: SurfaceTable, current: int, accels: seq<real>) {
    && UNCLASSIFIED in table
    && current in table
    && |accels| < WINDOW_SIZE
    && forall id :: id in table ==>
         table[id].maxXVel <= DEFAULT_PROFILE.maxXVel && table[id].maxAccel == DEFAULT_PROFILE.maxAccel
  }

  ghost predicate Invariant(s: ControllerState) {
    Consistent(s.surfaceData, s.currentSurface, s.accels)
  }

  lemma InitialInvariant()
    ensures Invariant(INITIAL)
  {
  }

  /** What a joystick message makes the node do. */
  datatype Command =
    | Idle             // deadman released: nothing is published
    | Publish(velocity: real)
    | Quit             // the anomaly guard fired: the callback aborts before touching any state

  datatype Reaction = Reaction(state: ControllerState, command: Command)

  /** The classifier reports surface `id`. */
  function SurfaceStep(s: ControllerState, id: int): (r: ControllerState)
    requires UNCLASSIFIED in s.surfaceData
    ensures r.currentSurface == id && id in r.surfaceData
    ensures r.previousSurface == s.currentSurface
    ensures r.surfaceData == AfterSurfaceEvent(s.surfaceData, s.currentSurface, id)
    ensures r == s.(previousSurface := r.previousSurface, currentSurface := r.currentSurface,
                    surfaceData := r.surfaceData)
    ensures Invariant(s) ==> Invariant(r)
  {
    s.(previousSurface := s.currentSurface,
       currentSurface := id,
       surfaceData := AfterSurfaceEvent(s.surfaceData, s.currentSurface, id))
  }

  /** A roughness report for the terrain ahead. */
  function BumpinessStep(s: ControllerState, value: real): (r: ControllerState)
    ensures r.tracker == AfterBumpiness(s.tracker, value)
    ensures r == s.(tracker := r.tracker)
  {
    s.(tracker := AfterBumpiness(s.tracker, value))
  }

  /** An odometry reading: measured velocity, time since the last reading, and position. */
  function OdometryStep(s: ControllerState, velocity: real, stamp: real, x: real): (r: ControllerState)
    ensures r.currentXVel == velocity && r.previousOdometryReadingTime == stamp
    ensures r.previousOdometryReadingTime - s.previousOdometryReadingTime == r.deltaT
    ensures r.tracker == AfterPosition(s.tracker, x)
    ensures r == s.(currentXVel := r.currentXVel, deltaT := r.deltaT,
                    previousOdometryReadingTime := r.previousOdometryReadingTime, tracker := r.tracker)
  {
    s.(currentXVel := velocity,
       deltaT := stamp - s.previousOdometryReadingTime,
       previousOdometryReadingTime := stamp,
       tracker := AfterPosition(s.tracker, x))
  }

  /** A vertical-acceleration sample from the IMU. */
  function ImuStep(s: ControllerState, z: real): (r: ControllerState)
    requires s.currentSurface in s.surfaceData
    ensures ImuOutcome(r.surfaceData, r.accels) == AfterImuSample(
      s.surfaceData, s.currentSurface, s.accels, z,
      s.olderXVelocity, s.previousXVelocity, s.tracker.surfaceTransition)
    ensures r == s.(zVibrations := z, accels := r.accels, surfaceData := r.surfaceData)
    ensures Invariant(s) ==> Invariant(r)
  {
    var outcome := AfterImuSample(
      s.surfaceData, s.currentSurface, s.accels, z,
      s.olderXVelocity, s.previousXVelocity, s.tracker.surfaceTransition);
    s.(zVibrations := z, accels := outcome.accels, surfaceData := outcome.table)
  }

  /** The previous command is beyond the anomaly bound. */
  predicate Anomalous(s: ControllerState) {
    s.previousXVelocity > ANOMALY_BOUND || s.previousXVelocity < -ANOMALY_BOUND
  }

  /** The joystick message cannot be ramped: no time passed, or it is the first one. */
  predicate Holds(s: ControllerState, stamp: real) {
    stamp - s.previousStamp == 0.0 || s.previousStamp == 0.0
  }

  /** The target handed to the PID corrector, from the current surface's profile and the last command. */
  function PidTarget(s: ControllerState, axis: real, stamp: real): (r: real)
    requires s.currentSurface in s.surfaceData
    requires !Holds(s, stamp)
  {
    RampedTarget(
      axis, s.tracker.upcomingBumpiness, s.surfaceData[s.currentSurface].maxXVel,
      s.surfaceData[s.currentSurface].maxAccel, s.previousXVelocity, stamp - s.previousStamp)
  }

  /**
   * A joystick message. Without the deadman nothing happens. An anomalous
   * previous command aborts before anything changes. A first message, or one
   * with the same time stamp, re-publishes the previous command and only
   * records the stamp. Otherwise the ramped target goes through the PID
   * corrector, and the command history shifts.
   */
  function JoystickStep(s: ControllerState, deadman: bool, axis: real, stamp: real): (r: Reaction)
    requires s.currentSurface in s.surfaceData
    ensures !deadman ==> r == Reaction(s, Idle)
    ensures deadman && Anomalous(s) ==> r == Reaction(s, Quit)
    ensures deadman && !Anomalous(s) && Holds(s, stamp) ==>
      r == Reaction(s.(previousStamp := stamp), Publish(s.previousXVelocity))
    ensures deadman && !Anomalous(s) && !Holds(s, stamp) ==>
      && r.command.Publish?
      && r.state == s.(previousStamp := stamp, pid := r.state.pid,
                       olderXVelocity := s.previousXVelocity, previousXVelocity := r.command.velocity)
      && r.state.pid == Correct(s.pid, PidTarget(s, axis, stamp), s.currentXVel, s.deltaT).state
      && r.command.velocity
           == PidTarget(s, axis, stamp) + KI * r.state.pid.iError + KD * r.state.pid.dError
    ensures Invariant(s) ==> Invariant(r.state)
  {
    if !deadman then Reaction(s, Idle)
    else if Anomalous(s) then Reaction(s, Quit)
    else if Holds(s, stamp) then Reaction(s.(previousStamp := stamp), Publish(s.previousXVelocity))
    else
      var correction := Correct(s.pid, PidTarget(s, axis, stamp), s.currentXVel, s.deltaT);
      Reaction(
        s.(previousStamp := stamp, pid := correction.state,
           olderXVelocity := s.previousXVelocity, previousXVelocity := correction.velocity),
        Publish(correction.velocity))
  }

  /** A message on one of the node's five subscriptions. */
  datatype Event =
    | SurfaceId(id: int)
    | Roughness(value: real)
    | Imu(z: real)
    | Joystick(deadman: bool, axis: real, stamp: real)
    | Odometry(velocity: real, stamp: real, x: real)

  /** One callback run to completion; only the joystick callback publishes. */
  function Step(s: ControllerState, e: Event): (r: Reaction)
    requires Invariant(s)
    ensures Invariant(r.state)
    ensures !e.Joystick? ==> r.command == Idle
  {
    match e
    case SurfaceId(id) => Reaction(SurfaceStep(s, id), Idle)
    case Roughness(value) => Reaction(BumpinessStep(s, value), Idle)
    case Imu(z) => Reaction(ImuStep(s, z), Idle)
    case Joystick(deadman, axis, stamp) => JoystickStep(s, deadman, axis, stamp)
    case Odometry(velocity, stamp, x) => Reaction(OdometryStep(s, velocity, stamp, x), Idle)
  }

  datatype Replay = Replay(final: ControllerState, commands: seq<Command>)

  /**
   * The callbacks for `events`, one at a time, in order: the invariant holds
   * throughout, there is one command per event, and no surface is forgotten.
   */
  function Run(s: ControllerState, events: seq<Event>): (r: Replay)
    requires Invariant(s)
    ensures Invariant(r.final)
    ensures |r.commands| == |events|
    ensures s.surfaceData.Keys <= r.final.surfaceData.Keys
    decreases |events|
  {
    if events == [] then Replay(s, [])
    else
      var first := Step(s, events[0]);
      var rest := Run(first.state, events[1..]);
      Replay(rest.final, [first.command] + rest.commands)
  }
}
