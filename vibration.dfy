/**
 * The vibration monitor: vertical accelerations are collected in
 * non-overlapping windows of twenty samples; a window that is too rough while
 * the robot is speeding up lowers the current surface's speed limit
 * (imu_callback).
 */
module Vibration {
  import opened Reals
  import opened Profiles

  /** Number of samples in one window. */
  const WINDOW_SIZE: nat := 20

  /** Largest standard deviation of a window's vertical acceleration that does not trigger the ratchet. */
  const VIBRATION_THRESHOLD: real := 0.45

  /** How far below the slower of the last command and the old limit the ratchet sets the new limit. */
  const RATCHET_STEP: real := 0.15

  function Sum(xs: seq<real>): (r: real)
    decreases |xs|
  {
    if xs == [] then 0.0 else xs[0] + Sum(xs[1..])
  }

  function Mean(xs: seq<real>): (r: real)
    requires |xs| > 0
  {
    Sum(xs) / |xs| as real
  }

  /** Sum of the squared distances of the samples from `m`. */
  function SquaredDeviations(xs: seq<real>, m: real): (r: real)
    ensures 0.0 <= r
    decreases |xs|
  {
    if xs == [] then 0.0
    else
      var d := xs[0] - m;
      assert 0.0 <= d * d by {
        if d < 0.0 { assert d * d == (-d) * (-d); }
      }
      d * d + SquaredDeviations(xs[1..], m)
  }

  /** Population variance of the samples, the square of what numpy's `std` returns by default. */
  function Variance(xs: seq<real>): (v: real)
    requires |xs| > 0
    ensures 0.0 <= v
  {
    SquaredDeviations(xs, Mean(xs)) / |xs| as real
  }

  /**
   * The window's standard deviation exceeds the threshold. Both sides are
   * non-negative, so comparing the variance with the squared threshold is the
   * same test.
   */
  predicate TooRough(window: seq<real>)
    requires |window| > 0
  {
    Variance(window) > VIBRATION_THRESHOLD * VIBRATION_THRESHOLD
  }

  lemma {:induction false} SumOfConstant(c: real, n: nat)
    ensures Sum(seq(n, _ => c)) == n as real * c
  {
    if n > 0 {
      var xs := seq(n, _ => c);
      assert xs[1..] == seq(n - 1, _ => c);
      SumOfConstant(c, n - 1);
      assert xs[0] == c;
      assert Sum(xs) == xs[0] + Sum(xs[1..]);
      assert n as real * c == c + (n - 1) as real * c;
    }
  }

  lemma {:induction false} NoDeviationFromConstant(c: real, n: nat)
    ensures SquaredDeviations(seq(n, _ => c), c) == 0.0
  {
    if n > 0 {
      var xs := seq(n, _ => c);
      assert xs[1..] == seq(n - 1, _ => c);
      NoDeviationFromConstant(c, n - 1);
    }
  }

  /** A window of identical samples (a perfectly smooth ride) never triggers the ratchet. */
  lemma SteadyWindowIsNotTooRough(c: real, n: nat)
    requires n > 0
    ensures !TooRough(seq(n, _ => c))
  {
    var xs := seq(n, _ => c);
    SumOfConstant(c, n);
    assert Mean(xs) == c;
    NoDeviationFromConstant(c, n);
  }

  /** The ratchet fires: rough window, the last command step sped up, and no smoother surface ahead. */
  predicate RatchetFires(window: seq<real>, older: real, previous: real, surfaceTransition: bool)
    requires |window| > 0
  {
    TooRough(window) && Abs(older) < Abs(previous) && !surfaceTransition
  }

  /** The lowered speed limit: 0.15 below the smaller of the old limit and the last commanded speed. */
  function RatchetedMax(currentMax: real, previousVelocity: real): (r: real)
    ensures r + RATCHET_STEP <= currentMax && r + RATCHET_STEP <= Abs(previousVelocity)
    ensures r + RATCHET_STEP == currentMax || r + RATCHET_STEP == Abs(previousVelocity)
  {
    Min(Abs(previousVelocity), currentMax) - RATCHET_STEP
  }

  /** What one vertical-acceleration sample leaves behind: the table and the sample buffer. */
  datatype ImuOutcome = ImuOutcome(table: SurfaceTable, accels: seq<real>)

  /**
   * The table and buffer after the sample `z`. The buffer grows until a
   * window is full, then always empties; only the current surface's speed
   * limit can change, and only downwards.
   */
  function AfterImuSample(
    table: SurfaceTable, current: int, accels: seq<real>, z: real,
    older: real, previous: real, surfaceTransition: bool): (r: ImuOutcome)
    requires current in table
    ensures |accels| + 1 < WINDOW_SIZE ==> r.accels == accels + [z] && r.table == table
    ensures |accels| + 1 >= WINDOW_SIZE ==> r.accels == []
    ensures |accels| < WINDOW_SIZE ==> |r.accels| < WINDOW_SIZE
    ensures r.table.Keys == table.Keys
    ensures forall k :: k in table && k != current ==> r.table[k] == table[k]
    ensures r.table[current].maxAccel == table[current].maxAccel
    ensures r.table[current].maxXVel <= table[current].maxXVel
    ensures r.table[current] != table[current] <==>
      |accels| + 1 >= WINDOW_SIZE && RatchetFires(accels + [z], older, previous, surfaceTransition)
    ensures r.table[current] != table[current] ==>
      r.table[current].maxXVel == Min(Abs(previous), table[current].maxXVel) - RATCHET_STEP
  {
    var buffer := accels + [z];
    if |buffer| >= WINDOW_SIZE then
      if RatchetFires(buffer, older, previous, surfaceTransition) then
        var profile := table[current];
        ImuOutcome(table[current := profile.(maxXVel := RatchetedMax(profile.maxXVel, previous))], [])
      else
        ImuOutcome(table, [])
    else
      ImuOutcome(table, buffer)
  }
}
