/**
 * The PID corrector: an additive trim around the measured velocity
 * (calculate_pid).
 */
module Pid {

  const KP: real := 1.0
  const KI: real := 0.001
  const KD: real := 0.00001

  /** The corrector's memory between calls. */
  datatype PidState = PidState(previousError: real, pError: real, iError: real, dError: real)

  const INITIAL_PID := PidState(0.0, 0.0, 0.0, 0.0)

  /** The corrected velocity and the corrector's new memory. */
  datatype Correction = Correction(velocity: real, state: PidState)

  /**
   * Correct `target` given the last measured velocity and the time between the
   * last two odometry readings. The integral accumulates without a bound; the
   * derivative is only recomputed when time moved forward. With KP = 1 the
   * measured velocity cancels: the output is the target plus the I and D trims.
   */
  function Correct(s: PidState, target: real, measured: real, deltaT: real): (r: Correction)
    ensures r.state.pError == target - measured && r.state.previousError == target - measured
    ensures r.state.iError - s.iError == (target - measured) * deltaT
    ensures 0.0 < deltaT ==> r.state.dError * deltaT == target - measured - s.previousError
    ensures deltaT <= 0.0 ==> r.state.dError == s.dError
    ensures r.velocity == target + KI * r.state.iError + KD * r.state.dError
  {
    var p := target - measured;
    var i := s.iError + p * deltaT;
    var d := if deltaT > 0.0 then (p - s.previousError) / deltaT else s.dError;
    Correction(KP * p + KI * i + KD * d + measured, PidState(p, p, i, d))
  }

  /** One call's inputs. */
  datatype Sample = Sample(target: real, measured: real, deltaT: real)

  /** The corrector's memory after the calls `samples`, in order. */
  function CorrectAll(s: PidState, samples: seq<Sample>): (r: PidState)
    decreases |samples|
  {
    if samples == [] then s
    else
      var last := samples[|samples| - 1];
      Correct(CorrectAll(s, samples[..|samples| - 1]), last.target, last.measured, last.deltaT).state
  }

  /** Signed area under the error curve: the sum of error times elapsed time. */
  function ErrorArea(samples: seq<Sample>): (r: real)
    decreases |samples|
  {
    if samples == [] then 0.0
    else
      var last := samples[|samples| - 1];
      ErrorArea(samples[..|samples| - 1]) + (last.target - last.measured) * last.deltaT
  }

  /** No anti-windup: the integral term is exactly the accumulated error area, however large. */
  lemma {:induction false} IntegralIsErrorArea(s: PidState, samples: seq<Sample>)
    ensures CorrectAll(s, samples).iError == s.iError + ErrorArea(samples)
    decreases |samples|
  {
    if samples != [] {
      IntegralIsErrorArea(s, samples[..|samples| - 1]);
    }
  }
}
