/**
 * The pure stages of the velocity command shaper (joystick_callback): from
 * the stick axis to a speed target under the anticipation and surface caps,
 * and the acceleration ramp toward it.
 */
module Shaper {
  import opened Reals

  /** Full stick deflection maps to 2 m/s; pushing the stick forward gives a negative axis value. */
  const AXIS_SCALE: real := -2.0

  /** Speed cap while rougher terrain is anticipated. */
  const ANTICIPATION_CAP: real := 0.2

  /** A previous command beyond this magnitude is a control anomaly. */
  const ANOMALY_BOUND: real := 2.0

  /**
   * The speed target for stick value `axis` before the acceleration ramp.
   * For a non-negative surface limit it points the way of `-axis` (zero
   * counts as forward) and is capped by twice the deflection, by 0.2 while
   * rougher terrain is ahead, and by the limit; with nothing to cap it is
   * exactly the requested speed; otherwise its magnitude is the cap that
   * applies (together with the bounds, the smallest one). A negative limit
   * reverses the direction; a single ratchet leaves one whenever the last
   * command was slower than 0.15.
   */
  function RequestedTarget(axis: real, upcomingBumpiness: bool, maxXVel: real): (r: real)
    ensures 0.0 <= maxXVel ==> (axis <= 0.0 ==> 0.0 <= r) && (0.0 < axis ==> r <= 0.0)
    ensures 0.0 <= maxXVel ==> Abs(r) <= 2.0 * Abs(axis) && Abs(r) <= maxXVel
    ensures 0.0 <= maxXVel && upcomingBumpiness ==> Abs(r) <= ANTICIPATION_CAP
    ensures !upcomingBumpiness && 2.0 * Abs(axis) <= maxXVel ==> r == -2.0 * axis
    ensures upcomingBumpiness && ANTICIPATION_CAP <= 2.0 * Abs(axis) && ANTICIPATION_CAP <= maxXVel ==>
      Abs(r) == ANTICIPATION_CAP
    ensures 0.0 <= maxXVel ==>
      Abs(r) == maxXVel || Abs(r) == 2.0 * Abs(axis) || (upcomingBumpiness && Abs(r) == ANTICIPATION_CAP)
    ensures maxXVel < 0.0 ==> Abs(r) == -maxXVel && (axis <= 0.0 ==> r < 0.0) && (0.0 < axis ==> 0.0 < r)
  {
    var requested := axis * AXIS_SCALE;
    var direction := if requested < 0.0 then -1.0 else 1.0;
    var magnitude := Abs(requested);
    var capped := if upcomingBumpiness && magnitude > ANTICIPATION_CAP then ANTICIPATION_CAP else magnitude;
    Min(maxXVel, capped) * direction
  }

  /** `r` lies between `a` and `b`, ends included. */
  predicate Between(a: real, r: real, b: real) {
    (a <= r <= b) || (b <= r <= a)
  }

  /**
   * The ramp toward `target` over a nonzero time step `dt`: a step whose
   * acceleration exceeds `maxAccel` is cut to exactly `maxAccel` in the same
   * direction. The result never moves faster than allowed, never overshoots
   * the target, is the target itself when that is reachable, and otherwise
   * moves exactly the allowed distance toward it.
   */
  function AccelLimited(target: real, previous: real, dt: real, maxAccel: real): (r: real)
    requires dt != 0.0
    ensures 0.0 <= maxAccel ==> Abs(r - previous) <= maxAccel * Abs(dt)
    ensures 0.0 <= maxAccel ==> Between(previous, r, target)
    ensures Abs(target - previous) <= maxAccel * Abs(dt) ==> r == target
    ensures 0.0 <= maxAccel && maxAccel * Abs(dt) < Abs(target - previous) ==>
      Abs(r - previous) == maxAccel * Abs(dt)
  {
    var a := (target - previous) / dt;
    if Abs(a) > maxAccel then
      var adjusted := if a < 0.0 then -maxAccel else maxAccel;
      CutRampStaysBetween(target, previous, dt, maxAccel);
      adjusted * dt + previous
    else
      UncutRampWithinReach(target, previous, dt, maxAccel);
      target
  }

  /** A step whose acceleration is within the limit covers at most the allowed distance. */
  lemma UncutRampWithinReach(target: real, previous: real, dt: real, maxAccel: real)
    requires dt != 0.0
    requires Abs((target - previous) / dt) <= maxAccel
    ensures Abs(target - previous) <= maxAccel * Abs(dt)
  {
    var a := (target - previous) / dt;
    assert a * dt == target - previous;
    assert Abs(a * dt) == Abs(a) * Abs(dt) by {
      if a < 0.0 && dt < 0.0 { assert a * dt == (-a) * (-dt); }
      else if a < 0.0 { assert -(a * dt) == (-a) * dt; }
      else if dt < 0.0 { assert -(a * dt) == a * (-dt); }
    }
    assert Abs(a) * Abs(dt) <= maxAccel * Abs(dt);
  }

  /**
   * The target handed to the PID corrector: the stick request under the
   * anticipation cap and the surface's speed limit `maxXVel`, ramped from the
   * previous command at the surface's acceleration limit `maxAccel`.
   */
  function RampedTarget(
    axis: real, upcomingBumpiness: bool, maxXVel: real, maxAccel: real, previous: real, dt: real): (r: real)
    requires dt != 0.0
    ensures var target := RequestedTarget(axis, upcomingBumpiness, maxXVel);
      && (0.0 <= maxAccel ==> Abs(r - previous) <= maxAccel * Abs(dt))
      && (0.0 <= maxAccel ==> Between(previous, r, target))
      && (Abs(target - previous) <= maxAccel * Abs(dt) ==> r == target)
      && (0.0 <= maxAccel && maxAccel * Abs(dt) < Abs(target - previous) ==>
            Abs(r - previous) == maxAccel * Abs(dt))
  {
    AccelLimited(RequestedTarget(axis, upcomingBumpiness, maxXVel), previous, dt, maxAccel)
  }

  /** A cut ramp step moves toward the target, by less than the full distance. */
  lemma CutRampStaysBetween(target: real, previous: real, dt: real, maxAccel: real)
    requires dt != 0.0
    requires Abs((target - previous) / dt) > maxAccel
    ensures var a := (target - previous) / dt;
      0.0 <= maxAccel ==> Between(previous, (if a < 0.0 then -maxAccel else maxAccel) * dt + previous, target)
  {
    var a := (target - previous) / dt;
    assert a * dt == target - previous;
    if a < 0.0 {
      if dt > 0.0 { assert a * dt < -maxAccel * dt; } else { assert a * dt > -maxAccel * dt; }
    } else {
      if dt > 0.0 { assert a * dt > maxAccel * dt; } else { assert a * dt < maxAccel * dt; }
    }
  }
}
