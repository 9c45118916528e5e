/**
 * The animations the visualizer queues: the two kinds it creates, which share
 * `isFinished()` and `step(timePast)`, and that `step` dispatched to the kind
 * at hand.
 */
module Animations {
  import opened Utils
  import opened CubeModel
  import opened Scene
  import opened Realisations
  import opened MoveAnimations
  import opened BeamAnimations

  /** An animation in the queue: a turn of a face or a beam to a new state. */
  datatype Animation = MoveAnim(move: MoveAnimation) | BeamAnim(beam: BeamAnimation)

  /** The object behind an animation. */
  function Object(a: Animation): object {
    match a
    case MoveAnim(m) => m
    case BeamAnim(b) => b
  }

  ghost predicate AnimationValid(a: Animation)
    reads Object(a)
  {
    match a
    case MoveAnim(m) => m.Valid()
    case BeamAnim(b) => b.Valid()
  }

  /** `isFinished` of either kind. */
  predicate Finished(a: Animation)
    reads Object(a)
  {
    match a
    case MoveAnim(m) => m.IsFinished()
    case BeamAnim(b) => b.IsFinished()
  }

  /** The elapsed times the animation has been stepped with so far. */
  ghost function Steps(a: Animation): seq<real>
    reads Object(a)
  {
    match a
    case MoveAnim(m) => m.steps
    case BeamAnim(b) => b.steps
  }

  /** The animation draws on the given cubelets and canvas and lasts the given duration. */
  ghost predicate Attached(a: Animation, realisation: CubeRealisation, canvas: Canvas, duration: real) {
    match a
    case MoveAnim(m) =>
      && m.realisation == realisation && m.animationDuration == duration
      && forall i :: 0 <= i < |m.cubeletsThatWillChange| ==> m.cubeletsThatWillChange[i] in realisation.Cubelets()
    case BeamAnim(b) =>
      b.realisation == realisation && b.canvas == canvas && b.animationDuration == duration
  }

  /** The animation is the one its constructor builds from the event. */
  ghost predicate MadeFor(a: Animation, e: CubeStateChanged) {
    match a
    case MoveAnim(m) => m.MadeFor(e)
    case BeamAnim(b) => b.MadeFor(e)
  }

  /**
   * What an animation built from an event puts its cubelets into is the
   * event's new state for them. Each cubelet a turn changes comes from an old
   * state of the event, and ends in a new state of the event with the same
   * initial location that differs from that old state. Each cubelet a beam
   * swaps ends in a new state of the event with its initial location.
   */
  lemma EventTargets(a: Animation, e: CubeStateChanged, realisation: CubeRealisation)
    requires MadeFor(a, e)
    requires a.MoveAnim? ==> a.move.Wired()
    requires a.BeamAnim? ==> a.beam.Wired() && a.beam.realisation == realisation
    ensures a.MoveAnim? ==> forall i :: 0 <= i < |a.move.cubeletsThatWillChange| ==>
      && a.move.changedStates[i] in e.oldState.cubelets
      && a.move.Target(i) in e.newState.cubelets
      && a.move.Target(i).initialLocation == a.move.cubeletsThatWillChange[i].initialLocation
      && a.move.Target(i) != a.move.changedStates[i]
    ensures a.BeamAnim? ==> forall c :: c in realisation.Cubelets() ==>
      && a.beam.newStatesByInitialLocation[VectorId(c.initialLocation)] in e.newState.cubelets
      && a.beam.newStatesByInitialLocation[VectorId(c.initialLocation)].initialLocation == c.initialLocation
  {
    var news := StatesByInitialLocation(e.newState.cubelets);
    FileByKeyFrom(e.newState.cubelets, Key);
    FileByKeyFiled(e.newState.cubelets, Key);
    match a
    case MoveAnim(m) =>
      forall i | 0 <= i < |m.cubeletsThatWillChange|
        ensures && m.changedStates[i] in e.oldState.cubelets
                && m.Target(i) in e.newState.cubelets
                && m.Target(i).initialLocation == m.cubeletsThatWillChange[i].initialLocation
                && m.Target(i) != m.changedStates[i]
      {
        var s := m.changedStates[i];
        assert s in m.changedStates;
        assert Key(s) == VectorId(m.cubeletsThatWillChange[i].initialLocation);
        VectorIdInjective(news[Key(s)].initialLocation, s.initialLocation);
      }
    case BeamAnim(b) =>
      forall c | c in realisation.Cubelets()
        ensures && news[VectorId(c.initialLocation)] in e.newState.cubelets
                && news[VectorId(c.initialLocation)].initialLocation == c.initialLocation
      {
        VectorIdInjective(news[VectorId(c.initialLocation)].initialLocation, c.initialLocation);
      }
  }

  /** The objects behind a sequence of animations. */
  function Objects(q: seq<Animation>): set<object> {
    set a | a in q :: Object(a)
  }

  /**
   * What one `step` of the animation drew, between the state before the step
   * and the state after it. A turn leaves the canvas and every cubelet that
   * does not change alone; on its completing step it puts each cubelet that
   * changes exactly into its new state, and on any other step turns each of
   * them by the step angle about the move's axis. A beam shows on the canvas
   * the opacity the step leaves; on the swap it puts every cubelet into its
   * new state, and on any other step it touches no cubelet.
   */
  twostate predicate StepDrawn(a: Animation, timePast: real, realisation: CubeRealisation, canvas: Canvas)
    reads realisation.Cubelets(), canvas
  {
    match a
    case MoveAnim(m) =>
      && m.Wired()
      && (forall i :: 0 <= i < |m.cubeletsThatWillChange| ==> m.cubeletsThatWillChange[i] in realisation.Cubelets())
      && var stepAngle := StepAngle(m.fullAngle, m.Instant(), timePast, m.animationDuration);
      var turn := FromAxisAngle(m.axis, stepAngle);
      && unchanged(canvas)
      && (forall c :: c in realisation.Cubelets() && c !in m.cubeletsThatWillChange ==> unchanged(c))
      && (Completes(old(m.currentAngle), stepAngle, m.fullAngle) ==>
            forall i :: 0 <= i < |m.cubeletsThatWillChange| ==> m.cubeletsThatWillChange[i].Shows(m.Target(i)))
      && (!Completes(old(m.currentAngle), stepAngle, m.fullAngle) ==>
            forall i :: 0 <= i < |m.cubeletsThatWillChange| ==>
              && m.cubeletsThatWillChange[i].quaternion == ApplyToOrientation(turn, old(m.cubeletsThatWillChange[i].quaternion))
              && m.cubeletsThatWillChange[i].position == ApplyToPoint(turn, old(m.cubeletsThatWillChange[i].position)))
    case BeamAnim(b) =>
      && b.Wired() && b.realisation == realisation
      && var before := old(BeamProgress(b.state, b.currentOpacity));
      var stepOpacity := StepOpacity(b.Instant(), timePast, b.animationDuration);
      && canvas.opacity == DisplayedOpacity(before, stepOpacity)
      && (Swaps(before, stepOpacity) ==>
            forall c :: c in realisation.Cubelets() ==> c.Shows(b.newStatesByInitialLocation[VectorId(c.initialLocation)]))
      && (!Swaps(before, stepOpacity) ==> unchanged(realisation.Cubelets()))
  }

  /** `step` of either kind: the animation stays valid, has seen one more elapsed time, and draws as its kind does. */
  method StepAnimation(a: Animation, timePast: real, realisation: CubeRealisation, canvas: Canvas, duration: real,
                       ghost others: seq<Animation>)
    requires Attached(a, realisation, canvas, duration) && AnimationValid(a)
    requires Object(a) !in Objects(others)
    requires Objects(others) !! realisation.Cubelets() && canvas !in Objects(others)
    modifies Object(a), realisation.Cubelets(), canvas
    ensures AnimationValid(a)
    ensures Steps(a) == old(Steps(a)) + [timePast]
    ensures StepDrawn(a, timePast, realisation, canvas)
    ensures unchanged(Objects(others))
  {
    match a {
      case MoveAnim(m) =>
        m.Step(timePast);
      case BeamAnim(b) =>
        b.Step(timePast);
    }
  }
}
