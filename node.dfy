/**
 * The controller node: its module-level state as the fields of one object,
 * and one method per subscription callback. Each method updates the fields
 * in place, in the order the node does, and is proved to perform exactly the
 * matching step of the state machine in controller.dfy.
 */
module Node {
  import opened Reals
  import opened Profiles
  import opened Anticipation
  import opened Vibration
  import opened Pid
  import opened Shaper
  import opened Controller

  class VelocityController {
    // surface profile store
    var surfaceData: SurfaceTable
    var currentSurface: int
    var previousSurface: int

    // bumpiness anticipation
    var previousBumpiness: real
    var currentBumpiness: real
    var upcomingBumpiness: bool
    var surfaceTransition: bool
    var startPosition: real

    // vibration monitor
    var accels: seq<real>
    var zVibrations: real

    // odometry feedback
    var currentXVel: real
    var deltaT: real
    var previousOdometryReadingTime: real

    // command history
    var previousStamp: real
    var previousXVelocity: real
    var olderXVelocity: real

    // PID memory
    var previousError: real
    var pError: real
    var iError: real
    var dError: real

    /** The bumpiness anticipation fields as one value. */
    ghost function Tracking(): Tracker
      reads this
    {
      Tracker(previousBumpiness, currentBumpiness, upcomingBumpiness, surfaceTransition, startPosition)
    }

    /** The PID fields as one value. */
    ghost function PidMemory(): PidState
      reads this
    {
      PidState(previousError, pError, iError, dError)
    }

    /** The fields as one value of the state machine. */
    ghost function State(): ControllerState
      reads this
    {
      ControllerState(
        surfaceData, currentSurface, previousSurface, Tracking(), accels, zVibrations,
        currentXVel, deltaT, previousOdometryReadingTime,
        previousStamp, previousXVelocity, olderXVelocity, PidMemory())
    }

    /** The invariant of the state machine; it only concerns the table, the current surface and the buffer. */
    ghost predicate Valid()
      reads this`surfaceData, this`currentSurface, this`accels
    {
      Consistent(surfaceData, currentSurface, accels)
    }

    constructor ()
      ensures Valid() && State() == INITIAL
    {
      surfaceData := INITIAL_TABLE;
      currentSurface, previousSurface := UNCLASSIFIED, UNCLASSIFIED;
      previousBumpiness, currentBumpiness := 0.0, 0.0;
      upcomingBumpiness, surfaceTransition := false, false;
      startPosition := 0.0;
      accels := [];
      zVibrations := -1.0;
      currentXVel, deltaT, previousOdometryReadingTime := 0.0, 0.0, 0.0;
      previousStamp, previousXVelocity, olderXVelocity := 0.0, 0.0, 0.0;
      previousError, pError, iError, dError := 0.0, 0.0, 0.0, 0.0;
      InitialInvariant();
    }

    /** surface_callback: the classifier reports surface `id`. */
    method OnSurface(id: int)
      requires Valid()
      modifies this`previousSurface, this`currentSurface, this`surfaceData
      ensures Valid()
      ensures currentSurface == id && currentSurface in surfaceData
      ensures previousSurface == old(currentSurface)
      ensures surfaceData == SurfaceStep(old(State()), id).surfaceData
    {
      previousSurface := currentSurface;
      currentSurface := id;
      if currentSurface !in surfaceData {
        if previousSurface == UNCLASSIFIED {
          surfaceData := surfaceData[currentSurface := surfaceData[UNCLASSIFIED]];
          surfaceData := surfaceData[UNCLASSIFIED := DEFAULT_PROFILE];
        } else {
          surfaceData := surfaceData[currentSurface := DEFAULT_PROFILE];
        }
      } else {
        surfaceData := surfaceData[UNCLASSIFIED := DEFAULT_PROFILE];
      }
    }

    /** bumpiness_callback: a roughness report for the terrain ahead. */
    method OnBumpiness(value: real)
      requires Valid()
      modifies this`previousBumpiness, this`currentBumpiness, this`upcomingBumpiness, this`surfaceTransition
      ensures Valid()
      ensures Tracking() == BumpinessStep(old(State()), value).tracker
    {
      previousBumpiness := currentBumpiness;
      currentBumpiness := value;
      if currentBumpiness > previousBumpiness * ROUGHNESS_RATIO && previousBumpiness != 0.0 {
        upcomingBumpiness := true;
      }
      if currentBumpiness < previousBumpiness / ROUGHNESS_RATIO && previousBumpiness != 0.0 {
        surfaceTransition := true;
      }
    }

    /** odometry_callback: measured velocity, time stamp and position. */
    method OnOdometry(velocity: real, stamp: real, x: real)
      requires Valid()
      modifies this`currentXVel, this`deltaT, this`previousOdometryReadingTime,
               this`upcomingBumpiness, this`surfaceTransition, this`startPosition
      ensures Valid()
      ensures var r := OdometryStep(old(State()), velocity, stamp, x);
        && currentXVel == r.currentXVel && deltaT == r.deltaT
        && previousOdometryReadingTime == r.previousOdometryReadingTime
        && Tracking() == r.tracker
    {
      currentXVel := velocity;
      deltaT := stamp - previousOdometryReadingTime;
      previousOdometryReadingTime := stamp;
      if (upcomingBumpiness || surfaceTransition) && startPosition == 0.0 {
        startPosition := x;
      }
      if startPosition != 0.0 && Abs(x - startPosition) >= LOOKAHEAD_DISTANCE {
        upcomingBumpiness := false;
        surfaceTransition := false;
        startPosition := 0.0;
      }
    }

    /** imu_callback: one vertical-acceleration sample. */
    method OnImu(z: real)
      requires Valid()
      modifies this`zVibrations, this`accels, this`surfaceData
      ensures Valid()
      ensures |accels| < WINDOW_SIZE
      ensures var r := ImuStep(old(State()), z);
        zVibrations == r.zVibrations && accels == r.accels && surfaceData == r.surfaceData
    {
      zVibrations := z;
      accels := accels + [zVibrations];
      if |accels| >= WINDOW_SIZE {
        var window := accels;
        accels := [];
        if TooRough(window) && Abs(olderXVelocity) < Abs(previousXVelocity) && !surfaceTransition {
          var currentMax := surfaceData[currentSurface].maxXVel;
          surfaceData := surfaceData[currentSurface :=
            surfaceData[currentSurface].(maxXVel := Min(Abs(previousXVelocity), currentMax) - RATCHET_STEP)];
        }
      }
    }

    /** calculate_pid: trims `targetVelocity` around the measured velocity. */
    method CalculatePid(targetVelocity: real) returns (velocity: real)
      modifies this`pError, this`iError, this`dError, this`previousError
      ensures Correction(velocity, PidMemory()) == Correct(old(PidMemory()), targetVelocity, currentXVel, deltaT)
    {
      pError := targetVelocity - currentXVel;
      iError := iError + pError * deltaT;
      if deltaT > 0.0 {
        dError := (pError - previousError) / deltaT;
      }
      previousError := pError;
      velocity := KP * pError + KI * iError + KD * dError + currentXVel;
    }

    /**
     * joystick_callback: one joystick message; `deadman` is whether the
     * deadman button is held. Returns what is published, or Quit where the
     * anomaly guard aborts the callback.
     */
    method OnJoystick(deadman: bool, axis: real, stamp: real) returns (command: Command)
      requires Valid()
      modifies this`previousStamp, this`previousXVelocity, this`olderXVelocity,
               this`pError, this`iError, this`dError, this`previousError
      ensures Valid()
      ensures var r := JoystickStep(old(State()), deadman, axis, stamp);
        && command == r.command
        && previousStamp == r.state.previousStamp
        && previousXVelocity == r.state.previousXVelocity && olderXVelocity == r.state.olderXVelocity
        && PidMemory() == r.state.pid
    {
      if !deadman {
        return Idle;
      }
      var profile := surfaceData[currentSurface];
      var outputXVelocity := RequestedTarget(axis, upcomingBumpiness, profile.maxXVel);
      var dt := stamp - previousStamp;

      if previousXVelocity > ANOMALY_BOUND || previousXVelocity < -ANOMALY_BOUND {
        return Quit;
      }
      if dt == 0.0 || previousStamp == 0.0 {
        command := Publish(previousXVelocity);
        previousStamp := stamp;
        return;
      }

      previousStamp := stamp;
      outputXVelocity := AccelLimited(outputXVelocity, previousXVelocity, dt, profile.maxAccel);
      var adjustedVelocity := CalculatePid(outputXVelocity);
      olderXVelocity := previousXVelocity;
      previousXVelocity := adjustedVelocity;
      command := Publish(adjustedVelocity);
    }
  }
}
