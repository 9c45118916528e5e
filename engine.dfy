/**
 * The animation engine of the visualizer: the handler that turns every state
 * change of the cube into an animation at the tail of the queue
 * (src/CubeVisualizer.ts:23-31), and the frame loop (src/CubeVisualizer.ts:60-94)
 * that, at most sixty times a second, steps the animation at the head of the
 * queue and removes it once it is finished.
 */
module Engine {
  import opened Wrappers
  import opened Utils
  import opened Scene
  import opened CubeModel
  import opened Timing
  import opened Realisations
  import opened MoveAnimations
  import opened BeamAnimations
  import opened Queues
  import opened Animations

  /** `fpsInterval`: the least time, in milliseconds, between two frames that do work. */
  const FPS_INTERVAL: real := 1000.0 / 60.0

  /** Every elapsed time is at least one frame interval. */
  predicate Paced(times: seq<real>) {
    forall k :: 0 <= k < |times| ==> times[k] >= FPS_INTERVAL
  }

  /**
   * The variables the `animate` closure keeps between calls: `startTime`,
   * nothing until the first tick; `lastTime`, the time of the last tick that
   * did work; and how many frames were drawn (`resizeCanvasToDisplaySize`,
   * `controls.update`, `renderer.render`).
   */
  datatype Clock = Clock(startTime: Option<real>, lastTime: real, renders: nat)

  /** The clock before the first tick: `startTime` and `lastTime` are not yet set. */
  const START_CLOCK: Clock := Clock(None, 0.0, 0)

  /** A tick does work when the loop has started and a frame interval has passed since the last working tick. */
  function Works(startTime: Option<real>, lastTime: real, time: real): bool {
    startTime.Some? && !(time - lastTime < FPS_INTERVAL)
  }

  /** An animation the loop has in hand: valid, attached, stepped only with paced times. */
  ghost predicate Stepped(a: Animation, realisation: CubeRealisation, canvas: Canvas, duration: real)
    reads Object(a)
  {
    Attached(a, realisation, canvas, duration) && AnimationValid(a) && Paced(Steps(a))
  }

  /** A waiting animation: in hand and not finished. */
  ghost predicate Ready(a: Animation, realisation: CubeRealisation, canvas: Canvas, duration: real)
    reads Object(a)
  {
    Stepped(a, realisation, canvas, duration) && !Finished(a)
  }

  /** A removed animation: valid, finished, stepped only with paced times. */
  ghost predicate Retired(a: Animation)
    reads Object(a)
  {
    AnimationValid(a) && Finished(a) && Paced(Steps(a))
  }

  /** No object is in the queue twice. */
  predicate DistinctObjects(q: seq<Animation>) {
    forall i, j :: 0 <= i < j < |q| ==> Object(q[i]) != Object(q[j])
  }

  /** Animations that wait their turn: ready and not yet stepped. */
  ghost predicate Unstarted(q: seq<Animation>, realisation: CubeRealisation, canvas: Canvas, duration: real)
    reads Objects(q)
  {
    forall a :: a in q ==> Ready(a, realisation, canvas, duration) && Steps(a) == []
  }

  /** The head of a queue of distinct objects is none of the objects behind it. */
  lemma HeadNotBehind(q: seq<Animation>)
    requires q != [] && DistinctObjects(q)
    ensures Object(q[0]) !in Objects(q[1..])
  {
    forall a | a in q[1..]
      ensures Object(a) != Object(q[0])
    {
      var j :| 0 <= j < |q[1..]| && q[1..][j] == a;
      assert q[j + 1] == a;
    }
  }

  /**
   * A queue the frame loop can work on: the head is ready, the others are
   * ready and not yet stepped, no object is in it twice, and none of its
   * objects is a cubelet or the canvas.
   */
  ghost predicate QueueReady(q: seq<Animation>, realisation: CubeRealisation, canvas: Canvas, duration: real)
    reads Objects(q)
  {
    && (q != [] ==> Ready(q[0], realisation, canvas, duration) && Unstarted(q[1..], realisation, canvas, duration))
    && DistinctObjects(q)
    && Objects(q) !! realisation.Cubelets() && canvas !in Objects(q)
  }

  /** A new, unstepped animation at the tail keeps the queue ready. */
  lemma QueueReadySnoc(q: seq<Animation>, a: Animation, realisation: CubeRealisation, canvas: Canvas, duration: real)
    requires QueueReady(q, realisation, canvas, duration)
    requires Ready(a, realisation, canvas, duration) && Steps(a) == []
    requires Object(a) !in Objects(q) && Object(a) !in realisation.Cubelets() && Object(a) != canvas
    ensures QueueReady(q + [a], realisation, canvas, duration)
    ensures Objects(q + [a]) == Objects(q) + {Object(a)}
  {
    var q' := q + [a];
    assert Objects(q') == Objects(q) + {Object(a)} by {
      assert forall x :: x in q' <==> x in q || x == a;
    }
    if q != [] {
      assert q'[1..] == q[1..] + [a];
      assert forall x :: x in q'[1..] ==> x in q[1..] || x == a;
    }
    forall i, j | 0 <= i < j < |q'|
      ensures Object(q'[i]) != Object(q'[j])
    {
      if j == |q| {
        assert q[i] in q;
      }
    }
  }

  /** Once the head is gone, the next animation in line is the new head. */
  lemma QueueReadyTail(q: seq<Animation>, realisation: CubeRealisation, canvas: Canvas, duration: real)
    requires q != [] && Unstarted(q[1..], realisation, canvas, duration)
    requires DistinctObjects(q) && Objects(q) !! realisation.Cubelets() && canvas !in Objects(q)
    ensures QueueReady(q[1..], realisation, canvas, duration)
  {
    var rest := q[1..];
    assert Objects(rest) <= Objects(q);
    if rest != [] {
      assert rest[0] in rest;
      assert rest[1..] == q[2..];
    }
    forall i, j | 0 <= i < j < |rest|
      ensures Object(rest[i]) != Object(rest[j])
    {
      assert rest[i] == q[i + 1] && rest[j] == q[j + 1];
    }
  }

  /** The queue between `step` and `removeCurrent`: as ready as before, except that the head may now be finished. */
  ghost predicate QueueStepped(q: seq<Animation>, realisation: CubeRealisation, canvas: Canvas, duration: real)
    reads Objects(q)
  {
    && q != []
    && Stepped(q[0], realisation, canvas, duration)
    && Unstarted(q[1..], realisation, canvas, duration)
    && DistinctObjects(q)
    && Objects(q) !! realisation.Cubelets() && canvas !in Objects(q)
  }

  /** After the step, keeping an unfinished head or dropping a finished one leaves a ready queue. */
  lemma QueueAfterStep(q: seq<Animation>, realisation: CubeRealisation, canvas: Canvas, duration: real)
    requires QueueStepped(q, realisation, canvas, duration)
    ensures !Finished(q[0]) ==> QueueReady(q, realisation, canvas, duration)
    ensures Finished(q[0]) ==> QueueReady(q[1..], realisation, canvas, duration) && Retired(q[0])
  {
    if Finished(q[0]) {
      QueueReadyTail(q, realisation, canvas, duration);
    }
  }

  class CubeVisualizer {
    const realisation: CubeRealisation
    const canvas: Canvas
    const animationDuration: real
    /** `#queue`. */
    const queue: AnimationQueue<Animation>

    /** The objects of the waiting animations. */
    ghost function Waiting(): set<object>
      reads queue
    {
      Objects(queue.innerQueue)
    }

    /**
     * Every waiting animation is valid, unfinished, attached to this
     * visualizer and stepped only with paced times; only the head has been
     * stepped at all; and the waiting animations are distinct objects, none of
     * them a cubelet, the canvas, the queue or the visualizer itself.
     */
    ghost predicate Valid()
      reads queue, Waiting()
    {
      && queue.Valid()
      && realisation.Valid()
      && animationDuration > 0.0
      && QueueReady(queue.innerQueue, realisation, canvas, animationDuration)
      && queue !in Waiting() && this !in Waiting()
    }

    constructor (realisation: CubeRealisation, canvas: Canvas, animationDuration: real)
      requires realisation.Valid()
      requires animationDuration > 0.0
      ensures Valid()
      ensures this.realisation == realisation && this.canvas == canvas && this.animationDuration == animationDuration
      ensures fresh(queue) && queue.innerQueue == [] && queue.added == []
    {
      this.realisation := realisation;
      this.canvas := canvas;
      this.animationDuration := animationDuration;
      queue := new AnimationQueue();
    }

    /**
     * The `stateChanged` handler: exactly one new animation at the tail of the
     * queue, a turn when the event carries a move and a beam otherwise. The
     * requirements are those the animations' constructors take for granted of
     * an event, since they look up cubelets and new states with `!`.
     */
    method OnStateChanged(e: CubeStateChanged) returns (a: Animation)
      requires Valid()
      requires Animatable(e, realisation)
      modifies queue
      ensures Valid()
      ensures a.MoveAnim? <==> e.move.Some?
      ensures a.MoveAnim? ==> a.move.stateChanged == e
      ensures a.BeamAnim? ==> a.beam.stateChanged == e
      ensures MadeFor(a, e)
      ensures fresh(Object(a)) && Steps(a) == [] && !Finished(a)
      ensures queue.innerQueue == old(queue.innerQueue) + [a]
      ensures queue.added == old(queue.added) + [a] && queue.served == old(queue.served)
    {
      ghost var waiting := Waiting();
      a := NewAnimation(e, realisation, canvas, animationDuration);
      assert unchanged(queue, waiting) && Object(a) !in waiting;
      assert MadeFor(a, e);
      Enqueue(a);
    }

    /** `#queue.push`: a new, unstepped animation goes to the tail. */
    method Enqueue(a: Animation)
      requires Valid()
      requires Ready(a, realisation, canvas, animationDuration) && Steps(a) == []
      requires Object(a) !in Waiting()
      requires Object(a) !in realisation.Cubelets() && Object(a) != canvas && Object(a) != queue && Object(a) != this
      modifies queue
      ensures Valid()
      ensures queue.innerQueue == old(queue.innerQueue) + [a]
      ensures queue.added == old(queue.added) + [a] && queue.served == old(queue.served)
      ensures unchanged(Object(a))
    {
      QueueReadySnoc(queue.innerQueue, a, realisation, canvas, animationDuration);
      queue.Add(a);
    }

    /**
     * One call of `animate`, with the loop's clock before the call and after
     * it: the first tick only starts the clock; a tick less than a frame
     * interval after the last working tick does nothing; a working tick steps
     * the head of the queue, if there is one, with the time since the last
     * working tick, removes it exactly when it is then finished, moves
     * `lastTime` on and draws a frame. No other animation is touched.
     */
    method Animate(clock: Clock, time: real) returns (next: Clock)
      requires Valid()
      modifies queue, Waiting(), realisation.Cubelets(), canvas
      ensures Valid()
      ensures next.startTime == (if clock.startTime.None? then Some(time) else clock.startTime)
      ensures var works := Works(clock.startTime, clock.lastTime, time);
        && next.lastTime == (if works || clock.startTime.None? then time else clock.lastTime)
        && next.renders == clock.renders + (if works then 1 else 0)
      ensures !Works(clock.startTime, clock.lastTime, time) || old(queue.innerQueue) == [] ==>
        && unchanged(queue) && unchanged(Waiting()) && unchanged(realisation.Cubelets()) && unchanged(canvas)
      ensures Works(clock.startTime, clock.lastTime, time) && old(queue.innerQueue) != [] ==>
        var head := old(queue.innerQueue[0]);
        && Steps(head) == old(Steps(head)) + [time - clock.lastTime]
        && StepDrawn(head, time - clock.lastTime, realisation, canvas)
        && (Finished(head) ==> Retired(head) && queue.innerQueue == old(queue.innerQueue[1..]) && queue.served == old(queue.served) + [head])
        && (!Finished(head) ==> queue.innerQueue == old(queue.innerQueue) && queue.served == old(queue.served))
        && unchanged(Objects(old(queue.innerQueue[1..])))
    {
      if clock.startTime.None? {
        // the first call only starts the clock: no time has passed since `lastTime`
        return clock.(startTime := Some(time), lastTime := time);
      }
      if time - clock.lastTime < FPS_INTERVAL {
        return clock;
      }
      Tick(time - clock.lastTime);
      next := clock.(lastTime := time, renders := clock.renders + 1);
    }

    /**
     * The working part of `animate`: step the current animation, if any,
     * and remove it when that step finished it.
     */
    method Tick(timePast: real)
      requires Valid() && timePast >= FPS_INTERVAL
      modifies queue, Waiting(), realisation.Cubelets(), canvas
      ensures Valid()
      ensures old(queue.innerQueue) == [] ==>
        && unchanged(queue) && unchanged(Waiting()) && unchanged(realisation.Cubelets()) && unchanged(canvas)
      ensures old(queue.innerQueue) != [] ==>
        var head := old(queue.innerQueue[0]);
        && Steps(head) == old(Steps(head)) + [timePast]
        && StepDrawn(head, timePast, realisation, canvas)
        && (Finished(head) ==> Retired(head) && queue.innerQueue == old(queue.innerQueue[1..]) && queue.served == old(queue.served) + [head])
        && (!Finished(head) ==> queue.innerQueue == old(queue.innerQueue) && queue.served == old(queue.served))
        && unchanged(Objects(old(queue.innerQueue[1..])))
    {
      var current := queue.GetCurrent();
      if current.Some? {
        StepHead(timePast);
        if Finished(current.value) {
          // the queue is none of the animations, so removing the head changes neither them nor what the step drew
          assert queue.innerQueue[0] in queue.innerQueue;
          assert Objects(queue.innerQueue[1..]) <= Waiting();
          DropHead();
        } else {
          QueueAfterStep(queue.innerQueue, realisation, canvas, animationDuration);
        }
      }
    }

    /** `currentAnimation.step(time - lastTime)`: only the head and what it draws change, as `StepDrawn` says. */
    method StepHead(timePast: real)
      requires Valid() && queue.innerQueue != [] && timePast >= FPS_INTERVAL
      modifies Object(queue.innerQueue[0]), realisation.Cubelets(), canvas
      ensures unchanged(queue) && queue.Valid() && queue !in Waiting() && this !in Waiting()
      ensures QueueStepped(queue.innerQueue, realisation, canvas, animationDuration)
      ensures Steps(queue.innerQueue[0]) == old(Steps(queue.innerQueue[0])) + [timePast]
      ensures StepDrawn(queue.innerQueue[0], timePast, realisation, canvas)
      ensures unchanged(Objects(queue.innerQueue[1..]))
    {
      var head := queue.innerQueue[0];
      ghost var rest := queue.innerQueue[1..];
      HeadNotBehind(queue.innerQueue);
      assert Objects(rest) <= Objects(queue.innerQueue);
      StepAnimation(head, timePast, realisation, canvas, animationDuration, rest);
    }

    /** `queue.removeCurrent()` once the current animation is finished. */
    method DropHead()
      requires queue.Valid() && realisation.Valid() && animationDuration > 0.0
      requires QueueStepped(queue.innerQueue, realisation, canvas, animationDuration)
      requires queue !in Waiting() && this !in Waiting() && Finished(queue.innerQueue[0])
      modifies queue
      ensures Valid() && Retired(old(queue.innerQueue[0]))
      ensures queue.innerQueue == old(queue.innerQueue[1..]) && queue.served == old(queue.served) + [old(queue.innerQueue[0])]
      ensures unchanged(old(Waiting()), realisation.Cubelets(), canvas)
    {
      ghost var q := queue.innerQueue;
      ghost var rest := q[1..];
      QueueAfterStep(q, realisation, canvas, animationDuration);
      assert Objects(rest) <= Objects(q);
      RemoveHead();
    }

    /** The call of `removeCurrent` itself: the queue loses its head, and no animation, cubelet or canvas changes. */
    method RemoveHead()
      requires queue.Valid() && queue.innerQueue != [] && queue !in Waiting()
      modifies queue
      ensures queue.Valid()
      ensures queue.innerQueue == old(queue.innerQueue[1..]) && queue.served == old(queue.served) + [old(queue.innerQueue[0])]
      ensures unchanged(old(Waiting()), realisation.Cubelets(), canvas)
    {
      queue.RemoveCurrent();
    }
  }

  /**
   * What the animations' constructors take for granted of an event, since
   * they look up cubelets and new states with `!`. For a move: no two old
   * states share an initial location, every old state's key has a new state,
   * and every changed state's initial location has a cubelet. Without a move:
   * every cubelet's initial location has a new state.
   */
  ghost predicate Animatable(e: CubeStateChanged, realisation: CubeRealisation) {
    && (e.move.Some? ==>
      && DistinctInitialLocations(e.oldState.cubelets)
      && (forall i :: 0 <= i < |e.oldState.cubelets| ==>
            Key(e.oldState.cubelets[i]) in StatesByInitialLocation(e.newState.cubelets))
      && (forall s :: s in ChangedStates(e.oldState.cubelets, StatesByInitialLocation(e.newState.cubelets)) ==>
            s.initialLocation in InitialLocations(realisation.initialStates)))
    && (e.move.None? ==>
      forall c :: c in realisation.Cubelets() ==> VectorId(c.initialLocation) in StatesByInitialLocation(e.newState.cubelets))
  }

  /** `new MoveAnimation(...)` for an event with a move, `new BeamAnimation(...)` for any other. */
  method NewAnimation(e: CubeStateChanged, realisation: CubeRealisation, canvas: Canvas, duration: real) returns (a: Animation)
    requires realisation.Valid() && duration > 0.0
    requires Animatable(e, realisation)
    ensures fresh(Object(a)) && Ready(a, realisation, canvas, duration) && Steps(a) == []
    ensures a.MoveAnim? <==> e.move.Some?
    ensures a.MoveAnim? ==> a.move.stateChanged == e
    ensures a.BeamAnim? ==> a.beam.stateChanged == e
    ensures MadeFor(a, e)
  {
    if e.move.Some? {
      var m := new MoveAnimation(realisation, e, duration);
      a := MoveAnim(m);
    } else {
      var b := new BeamAnimation(realisation, canvas, e, duration);
      a := BeamAnim(b);
    }
  }

  /**
   * A removed turn that was animated lasted longer than the animation
   * duration in total; so did a removed beam that was animated.
   */
  lemma RetiredAfterDuration(a: Animation)
    requires Retired(a)
    ensures a.MoveAnim? && !a.move.Instant() && a.move.fullAngle != 0.0 ==> Sum(Steps(a)) > a.move.animationDuration
    ensures a.BeamAnim? && !a.beam.Instant() ==> Sum(Steps(a)) > a.beam.animationDuration
  {
    PacedNonNegative(Steps(a));
    match a {
      case MoveAnim(m) =>
        if !m.Instant() && m.fullAngle != 0.0 {
          m.FinishedAfterDuration();
        }
      case BeamAnim(b) =>
        if !b.Instant() {
          b.FinishedAfterDuration();
        }
    }
  }

  lemma PacedNonNegative(times: seq<real>)
    requires Paced(times)
    ensures NonNegative(times)
  {
  }
}
