/**
 * src/Animation/MoveAnimation.ts: a face turn shown as a rotation of the
 * cubelets that change. Each step turns them a little further about the
 * face's axis; the step that would carry them past the full angle instead
 * puts every one of them exactly into its new state and settles the promise.
 *
 * The progress of the animation (its state and the angle turned so far) is
 * specified by the functions `MoveNext` and `MoveRun`; the class
 * `MoveAnimation` is proved to follow them.
 */
module MoveAnimations {
  import opened Wrappers
  import opened Utils
  import opened Scene
  import opened CubeModel
  import opened Timing
  import opened Cubelets
  import opened Realisations

  datatype MoveAnimationState = PENDING | MOVING | FINISHED

  /** The axis of a move: a unit vector along the face's dimension, pointing to the face's side. */
  function MoveAxis(move: CubeMove): (r: Vector3)
    ensures Component(r, move.face.dimension.index) == (if move.face.positiveDirection then 1.0 else -1.0)
    ensures forall j :: 0 <= j < 3 && j != move.face.dimension.index ==> Component(r, j) == 0.0
  {
    SetComponent(Vector3(0.0, 0.0, 0.0), move.face.dimension.index, if move.face.positiveDirection then 1.0 else -1.0).value
  }

  /** `move.angle * -1 * Math.PI / 2`: quarter turns, clockwise seen from the face, in radians. */
  function FullAngle(move: CubeMove): real {
    move.angle as real * -1.0 * HALF_PI
  }

  /** The full angle turns the opposite way to the move's angle, by a quarter turn per unit. */
  lemma FullAngleMeasure(move: CubeMove)
    ensures FullAngle(move) == 0.0 <==> move.angle == 0
    ensures FullAngle(move) < 0.0 <==> move.angle > 0
    ensures Abs(FullAngle(move)) == Abs(move.angle as real) * HALF_PI
  {
  }

  /** `stepAngle`: the share of the full angle this step covers. */
  function StepAngle(fullAngle: real, instant: bool, timePast: real, duration: real): real
    requires duration > 0.0
  {
    fullAngle * StepFraction(instant, timePast, duration)
  }

  /** The part of a move animation that `step` changes besides the cubelets. */
  datatype MoveProgress = MoveProgress(state: MoveAnimationState, currentAngle: real)

  const MOVE_START := MoveProgress(PENDING, 0.0)

  /** The completion test: the step would carry the turn strictly past the full angle. */
  predicate Completes(currentAngle: real, stepAngle: real, fullAngle: real) {
    Abs(currentAngle + stepAngle) > Abs(fullAngle)
  }

  /**
   * One `step`: PENDING becomes MOVING; then either the step completes the turn
   * and the animation is FINISHED with the angle left as it was, or the angle
   * grows by the step and the state is kept.
   */
  function MoveNext(p: MoveProgress, fullAngle: real, stepAngle: real): MoveProgress {
    var state := if p.state == PENDING then MOVING else p.state;
    if Completes(p.currentAngle, stepAngle, fullAngle) then MoveProgress(FINISHED, p.currentAngle)
    else MoveProgress(state, p.currentAngle + stepAngle)
  }

  /** The progress after stepping with each of the given elapsed times in turn. */
  function MoveRun(fullAngle: real, instant: bool, duration: real, times: seq<real>): MoveProgress
    requires duration > 0.0
    decreases |times|
  {
    if times == [] then MOVE_START
    else
      var n := |times| - 1;
      MoveNext(MoveRun(fullAngle, instant, duration, times[..n]), fullAngle, StepAngle(fullAngle, instant, times[n], duration))
  }

  /** A run one step longer is the run followed by that step. */
  lemma MoveRunSnoc(fullAngle: real, instant: bool, duration: real, times: seq<real>, t: real)
    requires duration > 0.0
    ensures MoveRun(fullAngle, instant, duration, times + [t]) ==
      MoveNext(MoveRun(fullAngle, instant, duration, times), fullAngle, StepAngle(fullAngle, instant, t, duration))
  {
    assert (times + [t])[..|times|] == times;
  }

  /** One step only moves the state forward: PENDING is left at once and FINISHED is never left. */
  lemma MoveNextAdvances(p: MoveProgress, fullAngle: real, stepAngle: real)
    ensures MoveNext(p, fullAngle, stepAngle).state != PENDING
    ensures p.state == FINISHED ==> MoveNext(p, fullAngle, stepAngle).state == FINISHED
    ensures MoveNext(p, fullAngle, stepAngle).state == FINISHED <==>
      p.state == FINISHED || Completes(p.currentAngle, stepAngle, fullAngle)
    ensures Completes(p.currentAngle, stepAngle, fullAngle) ==>
      MoveNext(p, fullAngle, stepAngle).currentAngle == p.currentAngle
  {
  }

  /** The angle turned never exceeds the full angle: a step that would exceed it finishes instead. */
  lemma {:induction false} MoveRunBounded(fullAngle: real, instant: bool, duration: real, times: seq<real>)
    requires duration > 0.0
    ensures Abs(MoveRun(fullAngle, instant, duration, times).currentAngle) <= Abs(fullAngle)
    ensures MoveRun(fullAngle, instant, duration, times).state == PENDING <==> times == []
    decreases |times|
  {
    if times != [] {
      MoveRunBounded(fullAngle, instant, duration, times[..|times| - 1]);
    }
  }

  lemma ScaledExceedsOne(f: real, x: real)
    requires f != 0.0 && x >= 0.0
    ensures Abs(f * x) > Abs(f) <==> x > 1.0
  {
    if f > 0.0 {
      assert f * x - f == f * (x - 1.0);
    } else {
      assert -(f * x) - -f == -f * (x - 1.0);
    }
  }

  /**
   * A step by the share y of the full angle, taken when the share x has been
   * turned: it finishes exactly when x + y exceeds the whole, and otherwise
   * leaves the share x + y turned.
   */
  lemma ScaledStep(p: MoveProgress, fullAngle: real, x: real, y: real)
    requires fullAngle != 0.0 && x >= 0.0 && y >= 0.0
    requires p.currentAngle == fullAngle * x
    ensures MoveNext(p, fullAngle, fullAngle * y).state == FINISHED <==> p.state == FINISHED || x + y > 1.0
    ensures x + y <= 1.0 ==> MoveNext(p, fullAngle, fullAngle * y).currentAngle == fullAngle * (x + y)
  {
    assert fullAngle * x + fullAngle * y == fullAngle * (x + y);
    ScaledExceedsOne(fullAngle, x + y);
  }

  /**
   * Where a timed run should be once the total time s has passed: FINISHED
   * exactly when s exceeds the duration, and until then turned by the share
   * s / duration of the full angle.
   */
  predicate OnSchedule(p: MoveProgress, fullAngle: real, duration: real, s: real)
    requires duration > 0.0
  {
    && (p.state == FINISHED <==> s > duration)
    && (s <= duration ==> p.currentAngle == fullAngle * (s / duration))
  }

  lemma TimedStepState(p: MoveProgress, fullAngle: real, duration: real, s: real, t: real)
    requires duration > 0.0 && fullAngle != 0.0 && s >= 0.0 && t >= 0.0
    requires OnSchedule(p, fullAngle, duration, s)
    ensures MoveNext(p, fullAngle, StepAngle(fullAngle, false, t, duration)).state == FINISHED <==> s + t > duration
  {
    if s <= duration {
      var x, y := s / duration, t / duration;
      ScaledStep(p, fullAngle, x, y);
      FractionsAdd(s, t, duration);
      FractionCompare(s + t, 1.0, duration);
    }
  }

  lemma TimedStepAngle(p: MoveProgress, fullAngle: real, duration: real, s: real, t: real)
    requires duration > 0.0 && fullAngle != 0.0 && s >= 0.0 && t >= 0.0
    requires OnSchedule(p, fullAngle, duration, s)
    requires s + t <= duration
    ensures MoveNext(p, fullAngle, StepAngle(fullAngle, false, t, duration)).currentAngle == fullAngle * ((s + t) / duration)
  {
    var x, y := s / duration, t / duration;
    FractionsAdd(s, t, duration);
    assert x >= 0.0 && y >= 0.0;
    assert x + y <= 1.0 by {
      FractionCompare(s + t, 1.0, duration);
    }
    assert p.currentAngle == fullAngle * x;
    assert StepAngle(fullAngle, false, t, duration) == fullAngle * y;
    ScaledStep(p, fullAngle, x, y);
  }

  /** A timed step of t keeps a run that is on schedule at total s on schedule at total s + t. */
  lemma TimedStep(p: MoveProgress, fullAngle: real, duration: real, s: real, t: real)
    requires duration > 0.0 && fullAngle != 0.0 && s >= 0.0 && t >= 0.0
    requires OnSchedule(p, fullAngle, duration, s)
    ensures OnSchedule(MoveNext(p, fullAngle, StepAngle(fullAngle, false, t, duration)), fullAngle, duration, s + t)
  {
    TimedStepState(p, fullAngle, duration, s, t);
    if s + t <= duration {
      TimedStepAngle(p, fullAngle, duration, s, t);
    }
  }

  /**
   * With a fixed duration D and non-negative elapsed times, a turn by a
   * non-zero angle is FINISHED exactly once the elapsed times add up to
   * strictly more than D; until then it has turned the same share of the full
   * angle as of D.
   */
  lemma {:induction false} MoveTiming(fullAngle: real, duration: real, times: seq<real>)
    requires duration > 0.0 && fullAngle != 0.0 && NonNegative(times)
    ensures OnSchedule(MoveRun(fullAngle, false, duration, times), fullAngle, duration, Sum(times))
    decreases |times|
  {
    if times != [] {
      var init := times[..|times| - 1];
      SplitLast(times);
      SumNonNegative(init);
      MoveTiming(fullAngle, duration, init);
      TimedStep(MoveRun(fullAngle, false, duration, init), fullAngle, duration, Sum(init), times[|times| - 1]);
    } else {
      assert Sum(times) / duration == 0.0;
    }
  }

  /** The concrete run of a 300 ms move stepped by 100 ms: three steps reach D exactly and do not finish; a fourth does. */
  lemma MoveExactDurationDoesNotFinish(fullAngle: real)
    requires fullAngle != 0.0
    ensures MoveRun(fullAngle, false, 300.0, [100.0, 100.0, 100.0]).state == MOVING
    ensures MoveRun(fullAngle, false, 300.0, [100.0, 100.0, 100.0]).currentAngle == fullAngle
    ensures MoveRun(fullAngle, false, 300.0, [100.0, 100.0, 100.0, 100.0]).state == FINISHED
  {
    var one, two := [100.0], [100.0, 100.0];
    var three, four := [100.0, 100.0, 100.0], [100.0, 100.0, 100.0, 100.0];
    assert one[..0] == [] && two[..1] == one && three[..2] == two && four[..3] == three;
    assert Sum(one) == 100.0;
    assert Sum(two) == 200.0;
    assert Sum(three) == 300.0;
    assert Sum(four) == 400.0;
    MoveTiming(fullAngle, 300.0, three);
    MoveTiming(fullAngle, 300.0, four);
    MoveRunBounded(fullAngle, false, 300.0, three);
  }

  /**
   * Without animation a step covers the whole angle: the first step turns the
   * cubelets by the full angle but only reaches it, and the second finishes.
   */
  lemma MoveInstant(fullAngle: real, duration: real, t1: real, t2: real)
    requires duration > 0.0 && fullAngle != 0.0
    ensures MoveRun(fullAngle, true, duration, [t1]) == MoveProgress(MOVING, fullAngle)
    ensures MoveRun(fullAngle, true, duration, [t1, t2]) == MoveProgress(FINISHED, fullAngle)
  {
    assert [t1, t2][..1] == [t1];
    assert Abs(fullAngle + fullAngle) > Abs(fullAngle);
  }

  /** A move by angle 0 never finishes, whatever the times and the mode. */
  lemma {:induction false} MoveZeroNeverFinishes(instant: bool, duration: real, times: seq<real>)
    requires duration > 0.0
    ensures MoveRun(0.0, instant, duration, times).state != FINISHED
    ensures MoveRun(0.0, instant, duration, times).currentAngle == 0.0
    decreases |times|
  {
    if times != [] {
      MoveZeroNeverFinishes(instant, duration, times[..|times| - 1]);
    }
  }

  /** No two of the cubelets share an initial location, so they are distinct objects. */
  ghost predicate DistinctCubelets(cubelets: seq<CubeletRealisation>) {
    forall i, j :: 0 <= i < j < |cubelets| ==> cubelets[i].initialLocation != cubelets[j].initialLocation
  }

  /** The completion branch's loop: each cubelet is set to the new state filed under its initial location. */
  method SnapCubelets(cubelets: seq<CubeletRealisation>, newStates: map<string, CubeletState>)
    requires DistinctCubelets(cubelets)
    requires forall i :: 0 <= i < |cubelets| ==> VectorId(cubelets[i].initialLocation) in newStates
    modifies cubelets
    ensures forall i :: 0 <= i < |cubelets| ==> cubelets[i].Shows(newStates[VectorId(cubelets[i].initialLocation)])
  {
    for i := 0 to |cubelets|
      invariant forall j :: 0 <= j < i ==> cubelets[j].Shows(newStates[VectorId(cubelets[j].initialLocation)])
    {
      cubelets[i].SetState(newStates[VectorId(cubelets[i].initialLocation)]);
    }
  }

  /** The rotation branch's loop: each cubelet's orientation and position are turned by the same rotation. */
  method RotateCubelets(cubelets: seq<CubeletRealisation>, transformation: Quaternion)
    requires DistinctCubelets(cubelets)
    modifies cubelets
    ensures forall i :: 0 <= i < |cubelets| ==>
      && cubelets[i].quaternion == ApplyToOrientation(transformation, old(cubelets[i].quaternion))
      && cubelets[i].position == ApplyToPoint(transformation, old(cubelets[i].position))
  {
    for i := 0 to |cubelets|
      invariant forall j :: 0 <= j < i ==>
        && cubelets[j].quaternion == ApplyToOrientation(transformation, old(cubelets[j].quaternion))
        && cubelets[j].position == ApplyToPoint(transformation, old(cubelets[j].position))
      invariant forall j :: i <= j < |cubelets| ==>
        cubelets[j].quaternion == old(cubelets[j].quaternion) && cubelets[j].position == old(cubelets[j].position)
    {
      cubelets[i].ApplyQuaternion(transformation);
      cubelets[i].ApplyQuaternionToPosition(transformation);
    }
  }

  /** The animation of one move event. */
  class MoveAnimation {
    const realisation: CubeRealisation
    const stateChanged: CubeStateChanged
    /** The visualizer's `animationDuration`, in milliseconds. */
    const animationDuration: real
    const newStatesByInitialLocation: map<string, CubeletState>
    /** The old cubelet states that differ from their new state, in order. */
    ghost const changedStates: seq<CubeletState>
    const cubeletsThatWillChange: seq<CubeletRealisation>
    const axis: Vector3
    const fullAngle: real
    var state: MoveAnimationState
    var currentAngle: real
    /** How often `resolve` has been called. */
    var resolveCalls: nat
    /** The elapsed times passed to `step` so far. */
    ghost var steps: seq<real>

    function Instant(): bool {
      IsInstant(stateChanged)
    }

    /**
     * What `step` relies on in the fields the constructor fixes: the duration is
     * positive, the cubelets that will change are distinct, and each has a new
     * state filed under its initial location.
     */
    ghost predicate Wired() {
      && animationDuration > 0.0
      && DistinctCubelets(cubeletsThatWillChange)
      && (forall i :: 0 <= i < |cubeletsThatWillChange| ==>
            VectorId(cubeletsThatWillChange[i].initialLocation) in newStatesByInitialLocation)
    }

    /** The progress so far is that of the specification run on the elapsed times seen so far. */
    ghost predicate Valid()
      reads this
    {
      && Wired()
      && MoveProgress(state, currentAngle) == MoveRun(fullAngle, Instant(), animationDuration, steps)
      && (state == FINISHED <==> resolveCalls > 0)
    }

    /**
     * The fields are those the constructor builds from the event `e`: the
     * move's axis and full angle, the new states filed by initial location,
     * and one cubelet per old state that differs from its new state, in order
     * and with that state's initial location.
     */
    ghost predicate MadeFor(e: CubeStateChanged) {
      && e.move.Some? && stateChanged == e
      && axis == MoveAxis(e.move.value) && fullAngle == FullAngle(e.move.value)
      && newStatesByInitialLocation == StatesByInitialLocation(e.newState.cubelets)
      && (forall i :: 0 <= i < |e.oldState.cubelets| ==> Key(e.oldState.cubelets[i]) in newStatesByInitialLocation)
      && changedStates == ChangedStates(e.oldState.cubelets, newStatesByInitialLocation)
      && |cubeletsThatWillChange| == |changedStates|
      && (forall i :: 0 <= i < |changedStates| ==>
            cubeletsThatWillChange[i].initialLocation == changedStates[i].initialLocation)
    }

    /** The new state of the i-th cubelet that changes. */
    ghost function Target(i: int): CubeletState
      requires Wired() && 0 <= i < |cubeletsThatWillChange|
    {
      newStatesByInitialLocation[VectorId(cubeletsThatWillChange[i].initialLocation)]
    }

    constructor (realisation: CubeRealisation, stateChanged: CubeStateChanged, animationDuration: real)
      requires realisation.Valid()
      requires animationDuration > 0.0
      requires stateChanged.move.Some?
      requires DistinctInitialLocations(stateChanged.oldState.cubelets)
      requires forall i :: 0 <= i < |stateChanged.oldState.cubelets| ==>
        Key(stateChanged.oldState.cubelets[i]) in StatesByInitialLocation(stateChanged.newState.cubelets)
      requires forall s :: s in ChangedStates(stateChanged.oldState.cubelets, StatesByInitialLocation(stateChanged.newState.cubelets)) ==>
        s.initialLocation in InitialLocations(realisation.initialStates)
      ensures Valid()
      ensures this.realisation == realisation && this.stateChanged == stateChanged
      ensures this.animationDuration == animationDuration
      ensures newStatesByInitialLocation == StatesByInitialLocation(stateChanged.newState.cubelets)
      ensures changedStates == ChangedStates(stateChanged.oldState.cubelets, newStatesByInitialLocation)
      ensures |cubeletsThatWillChange| == |changedStates|
      ensures forall i :: 0 <= i < |changedStates| ==>
        && cubeletsThatWillChange[i] in realisation.Cubelets()
        && cubeletsThatWillChange[i].initialLocation == changedStates[i].initialLocation
      ensures axis == MoveAxis(stateChanged.move.value) && fullAngle == FullAngle(stateChanged.move.value)
      ensures state == PENDING && currentAngle == 0.0 && resolveCalls == 0 && steps == []
    {
      this.realisation := realisation;
      this.stateChanged := stateChanged;
      this.animationDuration := animationDuration;
      var news := StatesByInitialLocation(stateChanged.newState.cubelets);
      newStatesByInitialLocation := news;
      var changed := ChangedStates(stateChanged.oldState.cubelets, news);
      ChangedStatesDistinct(stateChanged.oldState.cubelets, news);
      changedStates := changed;
      cubeletsThatWillChange := realisation.CubeletsFor(changed);
      forall i | 0 <= i < |changed|
        ensures Key(changed[i]) in news
      {
        assert changed[i] in changed;
      }
      var move := stateChanged.move.value;
      axis := MoveAxis(move);
      fullAngle := FullAngle(move);
      state := PENDING;
      currentAngle := 0.0;
      resolveCalls := 0;
      steps := [];
    }

    /** `isFinished`. */
    function IsFinished(): bool
      reads this
    {
      state == FINISHED
    }

    /**
     * For a real move shown with animation, the animation is finished exactly
     * when the elapsed times passed to it add up to more than its duration.
     */
    lemma FinishedAfterDuration()
      requires Valid() && !Instant() && fullAngle != 0.0 && NonNegative(steps)
      ensures IsFinished() <==> Sum(steps) > animationDuration
      ensures IsFinished() <==> resolveCalls > 0
    {
      MoveTiming(fullAngle, animationDuration, steps);
    }

    /** The completion branch of `step`: every cubelet that changes is snapped to its new state, then `resolve`. */
    method Finish()
      requires Wired()
      modifies this`state, this`resolveCalls, cubeletsThatWillChange
      ensures state == FINISHED && resolveCalls == old(resolveCalls) + 1
      ensures forall i :: 0 <= i < |cubeletsThatWillChange| ==> cubeletsThatWillChange[i].Shows(Target(i))
    {
      SnapCubelets(cubeletsThatWillChange, newStatesByInitialLocation);
      state := FINISHED;
      resolveCalls := resolveCalls + 1;
    }

    /** The other branch of `step`: the angle grows by the step and every cubelet that changes turns by it. */
    method Turn(stepAngle: real)
      requires Wired()
      modifies this`currentAngle, cubeletsThatWillChange
      ensures currentAngle == old(currentAngle) + stepAngle
      ensures forall i :: 0 <= i < |cubeletsThatWillChange| ==>
        var q := FromAxisAngle(axis, stepAngle);
        && cubeletsThatWillChange[i].quaternion == ApplyToOrientation(q, old(cubeletsThatWillChange[i].quaternion))
        && cubeletsThatWillChange[i].position == ApplyToPoint(q, old(cubeletsThatWillChange[i].position))
    {
      currentAngle := currentAngle + stepAngle;
      var transformation := FromAxisAngle(axis, stepAngle);
      RotateCubelets(cubeletsThatWillChange, transformation);
    }

    /**
     * `step`: on the completing step every cubelet that changes is put exactly
     * into its new state and `resolve` is called; otherwise each of them is
     * turned by the step angle about the axis. No other cubelet is touched.
     */
    method Step(timePast: real)
      requires Valid()
      modifies this`state, this`currentAngle, this`resolveCalls, this`steps, cubeletsThatWillChange
      ensures Valid()
      ensures steps == old(steps) + [timePast]
      ensures MoveProgress(state, currentAngle) ==
        MoveNext(old(MoveProgress(state, currentAngle)), fullAngle, StepAngle(fullAngle, Instant(), timePast, animationDuration))
      ensures var completes := Completes(old(currentAngle), StepAngle(fullAngle, Instant(), timePast, animationDuration), fullAngle);
        && resolveCalls == old(resolveCalls) + (if completes then 1 else 0)
        && (completes ==> forall i :: 0 <= i < |cubeletsThatWillChange| ==> cubeletsThatWillChange[i].Shows(Target(i)))
        && (!completes ==> forall i :: 0 <= i < |cubeletsThatWillChange| ==>
              var q := FromAxisAngle(axis, StepAngle(fullAngle, Instant(), timePast, animationDuration));
              && cubeletsThatWillChange[i].quaternion == ApplyToOrientation(q, old(cubeletsThatWillChange[i].quaternion))
              && cubeletsThatWillChange[i].position == ApplyToPoint(q, old(cubeletsThatWillChange[i].position)))
    {
      var stepAngle := StepAngle(fullAngle, Instant(), timePast, animationDuration);
      ghost var next := MoveNext(MoveProgress(state, currentAngle), fullAngle, stepAngle);
      MoveRunSnoc(fullAngle, Instant(), animationDuration, steps, timePast);
      steps := steps + [timePast];
      state := if state == PENDING then MOVING else state;
      if Completes(currentAngle, stepAngle, fullAngle) {
        Finish();
      } else {
        Turn(stepAngle);
      }
      assert MoveProgress(state, currentAngle) == next;
    }
  }
}
