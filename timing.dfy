/**
 * Elapsed time as the animations consume it: the per-step fraction of the
 * animation duration, and the running total of the time passed to `step`.
 */
module Timing {

  /**
   * The share of a whole animation one step covers: all of it in instant mode,
   * otherwise `timePast / animationDuration`.
   */
  function StepFraction(instant: bool, timePast: real, duration: real): real
    requires duration > 0.0
  {
    if instant then 1.0 else timePast / duration
  }

  /** The total of a list of elapsed times. */
  function Sum(times: seq<real>): real {
    if times == [] then 0.0 else Sum(times[..|times| - 1]) + times[|times| - 1]
  }

  predicate NonNegative(times: seq<real>) {
    forall i :: 0 <= i < |times| ==> times[i] >= 0.0
  }

  /** Splitting off the last step: the prefix is non-negative too, and the total grows by the last step. */
  lemma SplitLast(times: seq<real>)
    requires times != [] && NonNegative(times)
    ensures NonNegative(times[..|times| - 1])
    ensures Sum(times) == Sum(times[..|times| - 1]) + times[|times| - 1]
    ensures times[|times| - 1] >= 0.0
  {
    var init := times[..|times| - 1];
    assert forall i :: 0 <= i < |init| ==> init[i] == times[i];
  }

  /** A total of non-negative times is non-negative. */
  lemma {:induction false} SumNonNegative(times: seq<real>)
    requires NonNegative(times)
    ensures Sum(times) >= 0.0
    decreases |times|
  {
    if times != [] {
      SplitLast(times);
      SumNonNegative(times[..|times| - 1]);
    }
  }

  /** Fractions of one duration add up like the times they come from. */
  lemma FractionsAdd(s: real, t: real, duration: real)
    requires duration > 0.0
    ensures s / duration + t / duration == (s + t) / duration
  {
  }

  /** Comparing a fraction of the duration with a bound is comparing the time with that share of the duration. */
  lemma FractionCompare(a: real, bound: real, duration: real)
    requires duration > 0.0
    ensures a / duration > bound <==> a > bound * duration
  {
    var f := a / duration;
    assert f * duration == a;
    if f > bound {
      assert (f - bound) * duration > 0.0;
    } else {
      assert (bound - f) * duration >= 0.0;
    }
  }
}
