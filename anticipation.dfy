/**
 * The bumpiness anticipation tracker: successive roughness reports latch
 * "rougher ahead" or "smoother ahead", and odometry positions open and close
 * the lookahead window during which the latch stays active
 * (bumpiness_callback and the position half of odometry_callback).
 */
module Anticipation {
  import opened Reals

  /** A new roughness report latches a flag when it differs from the last one by this factor. */
  const ROUGHNESS_RATIO: real := 1.75

  /** Distance (metres) the robot travels before it reaches the terrain the roughness report was about. */
  const LOOKAHEAD_DISTANCE: real := 0.45

  /**
   * The tracker's state. `startPosition == 0.0` is the "window not open"
   * marker: a window opened at position 0.0 cannot be told apart from none.
   */
  datatype Tracker = Tracker(
    previousBumpiness: real,
    currentBumpiness: real,
    upcomingBumpiness: bool,
    surfaceTransition: bool,
    startPosition: real)

  const INITIAL_TRACKER := Tracker(0.0, 0.0, false, false, 0.0)

  /** The roughness ahead is considerably higher than the last report. */
  predicate RougherAhead(previous: real, current: real) {
    current > previous * ROUGHNESS_RATIO && previous != 0.0
  }

  /** The roughness ahead is considerably lower than the last report. */
  predicate SmootherAhead(previous: real, current: real) {
    current < previous / ROUGHNESS_RATIO && previous != 0.0
  }

  /**
   * The tracker after a roughness report `value`: the last report becomes the
   * previous one, and each flag is latched (never cleared) by its threshold.
   */
  function AfterBumpiness(t: Tracker, value: real): (r: Tracker)
    ensures r.previousBumpiness == t.currentBumpiness && r.currentBumpiness == value
    ensures r.upcomingBumpiness <==>
      t.upcomingBumpiness || (t.currentBumpiness != 0.0 && value > 1.75 * t.currentBumpiness)
    ensures r.surfaceTransition <==>
      t.surfaceTransition || (t.currentBumpiness != 0.0 && 1.75 * value < t.currentBumpiness)
    ensures r.startPosition == t.startPosition
  {
    var previous := t.currentBumpiness;
    var rougher := RougherAhead(previous, value);
    var smoother := SmootherAhead(previous, value);
    Tracker(previous, value, t.upcomingBumpiness || rougher, t.surfaceTransition || smoother, t.startPosition)
  }

  /** Roughness reports are standard deviations: one report never latches both flags. */
  lemma NoDoubleLatch(previous: real, current: real)
    requires 0.0 <= previous
    ensures !(RougherAhead(previous, current) && SmootherAhead(previous, current))
  {
  }

  /** The window is open and the robot has travelled the lookahead distance from where it opened. */
  predicate Travelled(t: Tracker, x: real) {
    t.startPosition != 0.0 && Abs(x - t.startPosition) >= LOOKAHEAD_DISTANCE
  }

  /**
   * The tracker after an odometry position `x`. A latched flag opens the
   * window at `x` when none is open; an open window that has been travelled
   * through clears both flags and closes. A window is never closed by the
   * sample that opens it.
   */
  function AfterPosition(t: Tracker, x: real): (r: Tracker)
    ensures r.previousBumpiness == t.previousBumpiness && r.currentBumpiness == t.currentBumpiness
    ensures Travelled(t, x) ==>
      !r.upcomingBumpiness && !r.surfaceTransition && r.startPosition == 0.0
    ensures !Travelled(t, x) ==>
      r.upcomingBumpiness == t.upcomingBumpiness && r.surfaceTransition == t.surfaceTransition
    ensures !Travelled(t, x) && t.startPosition == 0.0 ==>
      r.startPosition == (if t.upcomingBumpiness || t.surfaceTransition then x else 0.0)
    ensures !Travelled(t, x) && t.startPosition != 0.0 ==> r.startPosition == t.startPosition
  {
    var start :=
      if (t.upcomingBumpiness || t.surfaceTransition) && t.startPosition == 0.0 then x else t.startPosition;
    if start != 0.0 && Abs(x - start) >= LOOKAHEAD_DISTANCE then
      t.(upcomingBumpiness := false, surfaceTransition := false, startPosition := 0.0)
    else
      t.(startPosition := start)
  }

  /** The tracker after the positions `xs`, in order. */
  function AfterPositions(t: Tracker, xs: seq<real>): (r: Tracker)
    decreases |xs|
  {
    if xs == [] then t else AfterPosition(AfterPositions(t, xs[..|xs| - 1]), xs[|xs| - 1])
  }

  /** While the robot stays within the lookahead distance of an open window, nothing changes. */
  lemma {:induction false} WindowHoldsWithinLookahead(t: Tracker, xs: seq<real>)
    requires t.startPosition != 0.0
    requires forall i :: 0 <= i < |xs| ==> Abs(xs[i] - t.startPosition) < LOOKAHEAD_DISTANCE
    ensures AfterPositions(t, xs) == t
    decreases |xs|
  {
    if xs != [] {
      WindowHoldsWithinLookahead(t, xs[..|xs| - 1]);
    }
  }

  /**
   * The lifecycle of a latched flag: the first nonzero position opens the
   * window there, the flags survive every position short of the lookahead
   * distance, and the first position at that distance or beyond clears them.
   */
  lemma AnticipationLifecycle(t: Tracker, x0: real, xs: seq<real>, x: real)
    requires t.upcomingBumpiness || t.surfaceTransition
    requires t.startPosition == 0.0 && x0 != 0.0
    requires forall i :: 0 <= i < |xs| ==> Abs(xs[i] - x0) < LOOKAHEAD_DISTANCE
    requires Abs(x - x0) >= LOOKAHEAD_DISTANCE
    ensures AfterPositions(AfterPosition(t, x0), xs) == t.(startPosition := x0)
    ensures AfterPosition(AfterPositions(AfterPosition(t, x0), xs), x)
      == t.(upcomingBumpiness := false, surfaceTransition := false, startPosition := 0.0)
  {
    var windowOpen := AfterPosition(t, x0);
    assert windowOpen == t.(startPosition := x0);
    WindowHoldsWithinLookahead(windowOpen, xs);
  }
}
