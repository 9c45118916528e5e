/**
 * src/Animation/BeamAnimation.ts: a state change without a move, shown as a
 * fade. The opacity runs from -1 to 1 and the canvas shows its absolute value:
 * the cube fades out, every cubelet is put into its new state in one batch
 * when the opacity crosses 0, and the cube fades back in.
 *
 * The progress (state and opacity) is specified by `BeamNext` and `BeamRun`;
 * the class `BeamAnimation` is proved to follow them.
 */
module BeamAnimations {
  import opened Utils
  import opened Scene
  import opened CubeModel
  import opened Timing
  import opened Cubelets
  import opened Realisations

  datatype BeamAnimationState = PENDING | FADING_OUT | FADING_IN | FINISHED

  /** The order in which the states are passed through. */
  function Rank(s: BeamAnimationState): nat {
    match s
    case PENDING => 0
    case FADING_OUT => 1
    case FADING_IN => 2
    case FINISHED => 3
  }

  /** The states after the swap. */
  predicate Swapped(s: BeamAnimationState) {
    s == FADING_IN || s == FINISHED
  }

  /** `stepOpacity`: one step covers twice the share of the duration, as the opacity runs over [-1, 1]. */
  function StepOpacity(instant: bool, timePast: real, duration: real): real
    requires duration > 0.0
  {
    2.0 * StepFraction(instant, timePast, duration)
  }

  datatype BeamProgress = BeamProgress(state: BeamAnimationState, currentOpacity: real)

  const BEAM_START := BeamProgress(PENDING, -1.0)

  /** The state once a PENDING animation has been started. */
  function Started(s: BeamAnimationState): BeamAnimationState {
    if s == PENDING then FADING_OUT else s
  }

  /** The swap test: the opacity would cross 0 while the cube is fading out. */
  predicate Swaps(p: BeamProgress, stepOpacity: real) {
    p.currentOpacity + stepOpacity > 0.0 && Started(p.state) == FADING_OUT
  }

  /** The completion test: the opacity would exceed 1. */
  predicate Finishes(p: BeamProgress, stepOpacity: real) {
    p.currentOpacity + stepOpacity > 1.0
  }

  /**
   * One `step`: start, swap if the opacity crosses 0 while fading out, and then
   * either finish with the opacity left as it was or add the step to it.
   */
  function BeamNext(p: BeamProgress, stepOpacity: real): BeamProgress {
    var state := if Swaps(p, stepOpacity) then FADING_IN else Started(p.state);
    if Finishes(p, stepOpacity) then BeamProgress(FINISHED, p.currentOpacity)
    else BeamProgress(state, p.currentOpacity + stepOpacity)
  }

  /** The canvas opacity a step leaves: 1 on the finishing step, otherwise the absolute value of the new opacity. */
  function DisplayedOpacity(p: BeamProgress, stepOpacity: real): real {
    if Finishes(p, stepOpacity) then 1.0 else Abs(p.currentOpacity + stepOpacity)
  }

  /** The progress after stepping with each of the given elapsed times in turn. */
  function BeamRun(instant: bool, duration: real, times: seq<real>): BeamProgress
    requires duration > 0.0
    decreases |times|
  {
    if times == [] then BEAM_START
    else
      var n := |times| - 1;
      BeamNext(BeamRun(instant, duration, times[..n]), StepOpacity(instant, times[n], duration))
  }

  /** How many steps of the run swapped the cubelets. */
  function SwapCount(instant: bool, duration: real, times: seq<real>): nat
    requires duration > 0.0
    decreases |times|
  {
    if times == [] then 0
    else
      var n := |times| - 1;
      SwapCount(instant, duration, times[..n])
        + (if Swaps(BeamRun(instant, duration, times[..n]), StepOpacity(instant, times[n], duration)) then 1 else 0)
  }

  lemma BeamRunSnoc(instant: bool, duration: real, times: seq<real>, t: real)
    requires duration > 0.0
    ensures BeamRun(instant, duration, times + [t]) == BeamNext(BeamRun(instant, duration, times), StepOpacity(instant, t, duration))
    ensures SwapCount(instant, duration, times + [t]) ==
      SwapCount(instant, duration, times) + (if Swaps(BeamRun(instant, duration, times), StepOpacity(instant, t, duration)) then 1 else 0)
  {
    assert (times + [t])[..|times|] == times;
  }

  /**
   * A step never goes back: it leaves PENDING, never leaves FINISHED, and
   * skips FADING_IN only by swapping and finishing in the same step.
   */
  lemma BeamNextAdvances(p: BeamProgress, stepOpacity: real)
    ensures BeamNext(p, stepOpacity).state != PENDING
    ensures Rank(BeamNext(p, stepOpacity).state) >= Rank(p.state)
    ensures p.state == FINISHED ==> BeamNext(p, stepOpacity).state == FINISHED
    ensures Started(p.state) == FADING_OUT && BeamNext(p, stepOpacity).state == FINISHED ==> Swaps(p, stepOpacity)
  {
  }

  /**
   * The swap happens once at most: a run has swapped exactly once when it is
   * fading in or finished, and not at all before. So a finished run has swapped.
   */
  lemma {:induction false} SwapOnce(instant: bool, duration: real, times: seq<real>)
    requires duration > 0.0
    ensures SwapCount(instant, duration, times) == (if Swapped(BeamRun(instant, duration, times).state) then 1 else 0)
    decreases |times|
  {
    if times != [] {
      SwapOnce(instant, duration, times[..|times| - 1]);
    }
  }

  /** With non-negative elapsed times the opacity stays within [-1, 1]; the run is PENDING only before its first step. */
  lemma {:induction false} BeamRunBounded(instant: bool, duration: real, times: seq<real>)
    requires duration > 0.0 && NonNegative(times)
    ensures -1.0 <= BeamRun(instant, duration, times).currentOpacity <= 1.0
    ensures BeamRun(instant, duration, times).state == PENDING <==> times == []
    decreases |times|
  {
    if times != [] {
      SplitLast(times);
      var n := |times| - 1;
      BeamRunBounded(instant, duration, times[..n]);
      var p, step := BeamRun(instant, duration, times[..n]), StepOpacity(instant, times[n], duration);
      assert step >= 0.0 by {
        assert times[n] / duration >= 0.0;
      }
      assert BeamRun(instant, duration, times) == BeamNext(p, step);
    }
  }

  /**
   * Where a timed fade should be once the total time s has passed: swapped
   * exactly when s exceeds half the duration, FINISHED exactly when s exceeds
   * the duration, and until then at opacity -1 + 2 s / duration.
   */
  predicate BeamOnSchedule(p: BeamProgress, duration: real, s: real)
    requires duration > 0.0
  {
    && (Swapped(p.state) <==> s > 0.5 * duration)
    && (p.state == FINISHED <==> s > duration)
    && (s <= duration ==> p.currentOpacity == -1.0 + 2.0 * (s / duration))
  }

  lemma BeamTimedStepSwap(p: BeamProgress, duration: real, s: real, t: real)
    requires duration > 0.0 && s >= 0.0 && t >= 0.0
    requires BeamOnSchedule(p, duration, s)
    ensures Swapped(BeamNext(p, StepOpacity(false, t, duration)).state) <==> s + t > 0.5 * duration
  {
    if s <= duration {
      FractionsAdd(s, t, duration);
      FractionCompare(s + t, 0.5, duration);
      FractionCompare(s + t, 1.0, duration);
    }
  }

  lemma BeamTimedStepFinish(p: BeamProgress, duration: real, s: real, t: real)
    requires duration > 0.0 && s >= 0.0 && t >= 0.0
    requires BeamOnSchedule(p, duration, s)
    ensures BeamNext(p, StepOpacity(false, t, duration)).state == FINISHED <==> s + t > duration
  {
    if s <= duration {
      FractionsAdd(s, t, duration);
      FractionCompare(s + t, 1.0, duration);
    }
  }

  lemma BeamTimedStepOpacity(p: BeamProgress, duration: real, s: real, t: real)
    requires duration > 0.0 && s >= 0.0 && t >= 0.0
    requires BeamOnSchedule(p, duration, s)
    requires s + t <= duration
    ensures BeamNext(p, StepOpacity(false, t, duration)).currentOpacity == -1.0 + 2.0 * ((s + t) / duration)
  {
    FractionsAdd(s, t, duration);
    FractionCompare(s + t, 1.0, duration);
  }

  /** A timed step of t keeps a fade that is on schedule at total s on schedule at total s + t. */
  lemma BeamTimedStep(p: BeamProgress, duration: real, s: real, t: real)
    requires duration > 0.0 && s >= 0.0 && t >= 0.0
    requires BeamOnSchedule(p, duration, s)
    ensures BeamOnSchedule(BeamNext(p, StepOpacity(false, t, duration)), duration, s + t)
  {
    BeamTimedStepSwap(p, duration, s, t);
    BeamTimedStepFinish(p, duration, s, t);
    if s + t <= duration {
      BeamTimedStepOpacity(p, duration, s, t);
    }
  }

  /**
   * With a fixed duration D and non-negative elapsed times, the cubelets are
   * swapped on the first step where the total exceeds D/2 and the fade finishes
   * on the first step where it exceeds D; until then the opacity is the same
   * share of its range as the total is of D.
   */
  lemma {:induction false} BeamTiming(duration: real, times: seq<real>)
    requires duration > 0.0 && NonNegative(times)
    ensures BeamOnSchedule(BeamRun(false, duration, times), duration, Sum(times))
    decreases |times|
  {
    if times != [] {
      var init := times[..|times| - 1];
      SplitLast(times);
      SumNonNegative(init);
      BeamTiming(duration, init);
      BeamTimedStep(BeamRun(false, duration, init), duration, Sum(init), times[|times| - 1]);
    } else {
      assert Sum(times) / duration == 0.0;
    }
  }

  /** A single step longer than the duration (250 ms of a 200 ms fade) swaps and finishes at once. */
  lemma BeamLongStep()
    ensures Swaps(BEAM_START, StepOpacity(false, 250.0, 200.0))
    ensures BeamRun(false, 200.0, [250.0]).state == FINISHED
    ensures SwapCount(false, 200.0, [250.0]) == 1
  {
    assert [250.0][..0] == [];
  }

  /**
   * Without animation a step covers the whole range: the first step swaps and
   * shows opacity 1 but does not finish; the second finishes.
   */
  lemma BeamInstant(duration: real, t1: real, t2: real)
    requires duration > 0.0
    ensures Swaps(BEAM_START, StepOpacity(true, t1, duration))
    ensures BeamRun(true, duration, [t1]) == BeamProgress(FADING_IN, 1.0)
    ensures DisplayedOpacity(BEAM_START, StepOpacity(true, t1, duration)) == 1.0
    ensures BeamRun(true, duration, [t1, t2]) == BeamProgress(FINISHED, 1.0)
  {
    assert [t1, t2][..1] == [t1];
  }

  /** The swap's loop: every cubelet is set to the new state filed under its initial location, in no particular order. */
  method SwapCubelets(cubelets: set<CubeletRealisation>, newStates: map<string, CubeletState>)
    requires forall c :: c in cubelets ==> VectorId(c.initialLocation) in newStates
    modifies cubelets
    ensures forall c :: c in cubelets ==> c.Shows(newStates[VectorId(c.initialLocation)])
  {
    var remaining := cubelets;
    while remaining != {}
      invariant remaining <= cubelets
      invariant forall c :: c in cubelets - remaining ==> c.Shows(newStates[VectorId(c.initialLocation)])
      decreases remaining
    {
      var c :| c in remaining;
      c.SetState(newStates[VectorId(c.initialLocation)]);
      remaining := remaining - {c};
    }
  }

  /** The animation of one state change that has no move. */
  class BeamAnimation {
    const realisation: CubeRealisation
    const canvas: Canvas
    const stateChanged: CubeStateChanged
    /** The visualizer's `animationDuration`, in milliseconds. */
    const animationDuration: real
    const newStatesByInitialLocation: map<string, CubeletState>
    var state: BeamAnimationState
    var currentOpacity: real
    /** How often `resolve` has been called. */
    var resolveCalls: nat
    /** The elapsed times passed to `step` so far. */
    ghost var steps: seq<real>
    /** How many steps have swapped the cubelets. */
    ghost var swaps: nat

    function Instant(): bool {
      IsInstant(stateChanged)
    }

    /**
     * What `step` relies on in the fields the constructor fixes: the duration
     * is positive and every cubelet of the realisation has a new state filed
     * under its initial location.
     */
    ghost predicate Wired() {
      && animationDuration > 0.0
      && realisation.Valid()
      && (forall c :: c in realisation.Cubelets() ==> VectorId(c.initialLocation) in newStatesByInitialLocation)
    }

    /** The fields are those the constructor builds from the event `e`: the new states filed by initial location. */
    ghost predicate MadeFor(e: CubeStateChanged) {
      && e.move.None? && stateChanged == e
      && newStatesByInitialLocation == StatesByInitialLocation(e.newState.cubelets)
    }

    /** The progress and the swaps so far are those of the specification run on the elapsed times seen so far. */
    ghost predicate Valid()
      reads this
    {
      && Wired()
      && BeamProgress(state, currentOpacity) == BeamRun(Instant(), animationDuration, steps)
      && swaps == SwapCount(Instant(), animationDuration, steps)
      && (state == FINISHED <==> resolveCalls > 0)
    }

    constructor (realisation: CubeRealisation, canvas: Canvas, stateChanged: CubeStateChanged, animationDuration: real)
      requires realisation.Valid()
      requires animationDuration > 0.0
      requires forall c :: c in realisation.Cubelets() ==>
        VectorId(c.initialLocation) in StatesByInitialLocation(stateChanged.newState.cubelets)
      ensures Valid()
      ensures this.realisation == realisation && this.canvas == canvas && this.stateChanged == stateChanged
      ensures this.animationDuration == animationDuration
      ensures newStatesByInitialLocation == StatesByInitialLocation(stateChanged.newState.cubelets)
      ensures state == PENDING && currentOpacity == -1.0 && resolveCalls == 0 && steps == [] && swaps == 0
    {
      this.realisation := realisation;
      this.canvas := canvas;
      this.stateChanged := stateChanged;
      this.animationDuration := animationDuration;
      newStatesByInitialLocation := StatesByInitialLocation(stateChanged.newState.cubelets);
      state := PENDING;
      currentOpacity := -1.0;
      resolveCalls := 0;
      steps := [];
      swaps := 0;
    }

    /** `isFinished`. */
    function IsFinished(): bool
      reads this
    {
      state == FINISHED
    }

    /** The swap has happened at most once, and exactly once when the fade is in its second half or finished. */
    lemma SwappedOnce()
      requires Valid()
      ensures swaps <= 1
      ensures swaps == 1 <==> state == FADING_IN || state == FINISHED
      ensures IsFinished() ==> swaps == 1
    {
      SwapOnce(Instant(), animationDuration, steps);
    }

    /** Shown with animation, the fade finishes once the elapsed times add up to more than its duration. */
    lemma FinishedAfterDuration()
      requires Valid() && !Instant() && NonNegative(steps)
      ensures IsFinished() <==> Sum(steps) > animationDuration
      ensures swaps == 1 <==> Sum(steps) > 0.5 * animationDuration
    {
      BeamTiming(animationDuration, steps);
      SwapOnce(Instant(), animationDuration, steps);
    }

    /**
     * The first half of `step`: start the fade, and swap every cubelet of the
     * realisation into its new state if the opacity crosses 0 while fading out.
     */
    method StartAndSwap(stepOpacity: real)
      requires Wired()
      modifies this`state, this`swaps, realisation.Cubelets()
      ensures var swapped := Swaps(BeamProgress(old(state), currentOpacity), stepOpacity);
        && state == (if swapped then FADING_IN else Started(old(state)))
        && swaps == old(swaps) + (if swapped then 1 else 0)
        && (swapped ==> forall c :: c in realisation.Cubelets() ==> c.Shows(newStatesByInitialLocation[VectorId(c.initialLocation)]))
        && (!swapped ==> unchanged(realisation.Cubelets()))
    {
      if state == PENDING {
        state := FADING_OUT;
      }
      if currentOpacity + stepOpacity > 0.0 && state == FADING_OUT {
        SwapCubelets(realisation.GetCubelets(), newStatesByInitialLocation);
        state := FADING_IN;
        swaps := swaps + 1;
      }
    }

    /**
     * The second half of `step`: finish with the canvas at opacity 1 and call
     * `resolve`, or add the step to the opacity and show its absolute value.
     */
    method FinishOrFade(stepOpacity: real)
      modifies this`state, this`currentOpacity, this`resolveCalls, canvas
      ensures var finishes := old(currentOpacity) + stepOpacity > 1.0;
        && state == (if finishes then FINISHED else old(state))
        && currentOpacity == (if finishes then old(currentOpacity) else old(currentOpacity) + stepOpacity)
        && resolveCalls == old(resolveCalls) + (if finishes then 1 else 0)
        && canvas.opacity == (if finishes then 1.0 else Abs(currentOpacity))
      ensures unchanged(realisation.Cubelets())
    {
      if currentOpacity + stepOpacity > 1.0 {
        canvas.opacity := 1.0;
        state := FINISHED;
        resolveCalls := resolveCalls + 1;
      } else {
        currentOpacity := currentOpacity + stepOpacity;
        canvas.opacity := Abs(currentOpacity);
      }
    }

    /**
     * `step`: start, swap all cubelets in one batch if the opacity crosses 0
     * while fading out, then either show opacity 1, finish and call `resolve`,
     * or add the step to the opacity and show its absolute value. When there
     * is no swap no cubelet is touched.
     */
    method Step(timePast: real)
      requires Valid()
      modifies this`state, this`currentOpacity, this`resolveCalls, this`steps, this`swaps, canvas, realisation.Cubelets()
      ensures Valid()
      ensures steps == old(steps) + [timePast]
      ensures BeamProgress(state, currentOpacity) ==
        BeamNext(old(BeamProgress(state, currentOpacity)), StepOpacity(Instant(), timePast, animationDuration))
      ensures canvas.opacity == DisplayedOpacity(old(BeamProgress(state, currentOpacity)), StepOpacity(Instant(), timePast, animationDuration))
      ensures resolveCalls == old(resolveCalls) +
        (if Finishes(old(BeamProgress(state, currentOpacity)), StepOpacity(Instant(), timePast, animationDuration)) then 1 else 0)
      ensures swaps == old(swaps) +
        (if Swaps(old(BeamProgress(state, currentOpacity)), StepOpacity(Instant(), timePast, animationDuration)) then 1 else 0)
      ensures Swaps(old(BeamProgress(state, currentOpacity)), StepOpacity(Instant(), timePast, animationDuration)) ==>
        forall c :: c in realisation.Cubelets() ==> c.Shows(newStatesByInitialLocation[VectorId(c.initialLocation)])
      ensures !Swaps(old(BeamProgress(state, currentOpacity)), StepOpacity(Instant(), timePast, animationDuration)) ==>
        unchanged(realisation.Cubelets())
    {
      var stepOpacity := StepOpacity(Instant(), timePast, animationDuration);
      ghost var before := BeamProgress(state, currentOpacity);
      BeamRunSnoc(Instant(), animationDuration, steps, timePast);
      steps := steps + [timePast];
      StartAndSwap(stepOpacity);
      FinishOrFade(stepOpacity);
      assert BeamProgress(state, currentOpacity) == BeamNext(before, stepOpacity);
    }
  }
}
