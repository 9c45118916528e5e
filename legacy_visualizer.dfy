/**
 * The first version of the visualizer's cubelets and animations, still kept
 * in src/CubeVisualizer.ts: `createCubelets`/`createCubelet` (lines 98-160)
 * build one three.js group per initial location, with a sticker on each outer
 * face, and the classes `MoveAnimation` and `BeamAnimation` (lines 174-291)
 * are stepped with `step(time, lastTime)` and answer whether they are done.
 * They keep no state machine: a move is done when the step is longer than
 * what is left of the full angle, a beam when the step is longer than what is
 * left of the range 2.
 */
module Legacy {
  import opened Wrappers
  import opened Utils
  import opened Scene
  import opened CubeModel
  import opened Timing
  import opened Cubelets
  import opened MoveAnimations
  import opened BeamAnimations

  // ---------------------------------------------------------------------------
  // createCubelet
  // ---------------------------------------------------------------------------

  /** The sticker colours of `createCubelet`: one per side of each dimension. */
  function LegacyColour(dimension: DimensionIndex, limit: int): int {
    if dimension == 0 then (if limit == 1 then 0xba0c2f else 0xfe5000)
    else if dimension == 1 then (if limit == 1 then 0xffffff else 0xffd700)
    else (if limit == 1 then 0x009a44 else 0x003da5)
  }

  /** A sticker mesh: the dimension it faces, its colour, the turn that lays it flat, and its position in the group. */
  datatype StickerMesh = StickerMesh(dimension: DimensionIndex, colour: int, turn: Option<MeshTurn>, position: Vector3)

  /**
   * The sticker for one outer face: turned about y (for x) or about x (for y)
   * by a quarter turn, and placed half an edge out along its dimension.
   */
  function LegacySticker(dimension: DimensionIndex, limit: int): StickerMesh {
    var offset := 0.5 * limit as real;
    if dimension == 0 then StickerMesh(0, LegacyColour(0, limit), Some(MeshTurn(YAxis, HALF_PI)), Vector3(offset, 0.0, 0.0))
    else if dimension == 1 then StickerMesh(1, LegacyColour(1, limit), Some(MeshTurn(XAxis, HALF_PI)), Vector3(0.0, offset, 0.0))
    else StickerMesh(2, LegacyColour(2, limit), None, Vector3(0.0, 0.0, offset))
  }

  /** The sticker of one dimension, if the location lies on an outer layer of it. */
  function StickerIf(limits: seq<int>, dimension: DimensionIndex): seq<StickerMesh>
    requires |limits| == 3
  {
    if limits[dimension] != 0 then [LegacySticker(dimension, limits[dimension])] else []
  }

  /** The stickers `createCubelet` adds, in the order of its three `if`s. */
  function LegacyStickers(spec: CubeSpecification, origin: Vector): seq<StickerMesh> {
    var limits := Limits(spec, origin);
    StickerIf(limits, 0) + StickerIf(limits, 1) + StickerIf(limits, 2)
  }

  /** A cubelet has a sticker facing a dimension exactly when it lies on an outer layer of that dimension. */
  lemma LegacyStickerFaces(spec: CubeSpecification, origin: Vector, d: DimensionIndex)
    ensures var s := LegacyStickers(spec, origin);
      (exists i :: 0 <= i < |s| && s[i].dimension == d) <==> Limits(spec, origin)[d] != 0
  {
    var limits := Limits(spec, origin);
    var a, b, c := StickerIf(limits, 0), StickerIf(limits, 1), StickerIf(limits, 2);
    var s := LegacyStickers(spec, origin);
    assert s == a + b + c;
    if limits[d] != 0 {
      var i := if d == 0 then 0 else if d == 1 then |a| else |a| + |b|;
      assert s[i].dimension == d;
    }
  }

  /** The stickers come at most one per dimension, in the order x, y, z. */
  lemma LegacyStickerOrder(spec: CubeSpecification, origin: Vector)
    ensures var s := LegacyStickers(spec, origin);
      forall i, j :: 0 <= i < j < |s| ==> s[i].dimension < s[j].dimension
  {
    var limits := Limits(spec, origin);
    var a, b, c := StickerIf(limits, 0), StickerIf(limits, 1), StickerIf(limits, 2);
    assert LegacyStickers(spec, origin) == a + b + c;
  }

  /**
   * A sticker sits on an outer face: it has the colour the newer cubelets
   * give that face and lies half an edge out on that face's side.
   */
  lemma LegacyStickerLook(spec: CubeSpecification, origin: Vector, d: DimensionIndex)
    ensures var s, limit := LegacyStickers(spec, origin), Limits(spec, origin)[d];
      forall i :: 0 <= i < |s| && s[i].dimension == d ==>
        && (limit == 1 || limit == -1)
        && s[i].colour == STICKER_COLOURS[ColourIndex(d, limit)]
        && Component(s[i].position, d) == 0.5 * limit as real
        && (forall e :: 0 <= e < 3 && e != d ==> Component(s[i].position, e) == 0.0)
  {
    var limits := Limits(spec, origin);
    var max := MaxComponent(spec);
    LimitClassifies(max, origin.x);
    LimitClassifies(max, origin.y);
    LimitClassifies(max, origin.z);
    var s := LegacyStickers(spec, origin);
    assert forall i :: 0 <= i < |s| ==> s[i] == LegacySticker(s[i].dimension, limits[s[i].dimension]);
  }

  /** A cubelet of the first version: a three.js group that remembers its initial location. */
  class Group {
    /** `userData[INITIAL_LOCATION]`. */
    const initialLocation: Vector
    const stickers: seq<StickerMesh>
    var position: Point
    var quaternion: Quaternion

    /** The group is drawn in the given state. */
    predicate Shows(s: CubeletState)
      reads this
    {
      position == LocationPoint(s.location) && quaternion == OrientationQuaternion(s.orientation)
    }

    /** `createCubelet`: the stickers of the outer faces, and the position of the origin. */
    constructor (spec: CubeSpecification, origin: Vector)
      ensures initialLocation == origin
      ensures stickers == LegacyStickers(spec, origin)
      ensures position == LocationPoint(origin) && quaternion == IdentityQuaternion
    {
      var originLimit := Limits(spec, origin);
      var added: seq<StickerMesh> := [];
      if originLimit[0] != 0 {
        added := added + [LegacySticker(0, originLimit[0])];
      }
      if originLimit[1] != 0 {
        added := added + [LegacySticker(1, originLimit[1])];
      }
      if originLimit[2] != 0 {
        added := added + [LegacySticker(2, originLimit[2])];
      }
      initialLocation := origin;
      stickers := added;
      position := At(Vector3(origin.x, origin.y, origin.z));
      quaternion := IdentityQuaternion;
    }

    /** `setRotationFromMatrix(matrix4FromMatrix(orientation))` and `position.set(x, y, z)`. */
    method SetPose(s: CubeletState)
      modifies this`position, this`quaternion
      ensures Shows(s)
    {
      quaternion := FromRotationMatrix(Matrix4FromMatrix(s.orientation));
      position := At(Vector3(s.location.x, s.location.y, s.location.z));
    }

    /** `applyQuaternion(q)` and `position.applyQuaternion(q)`. */
    method Rotate(q: Quaternion)
      modifies this`position, this`quaternion
      ensures quaternion == ApplyToOrientation(q, old(quaternion))
      ensures position == ApplyToPoint(q, old(position))
    {
      quaternion := ApplyToOrientation(q, quaternion);
      position := ApplyToPoint(q, position);
    }
  }

  /** Every group is filed under the key of its own initial location. */
  ghost predicate Filed(cubelets: map<string, Group>) {
    forall k :: k in cubelets ==> VectorId(cubelets[k].initialLocation) == k
  }

  /** A group as `createCubelet` leaves it. */
  ghost predicate Built(g: Group, spec: CubeSpecification)
    reads g
  {
    && g.stickers == LegacyStickers(spec, g.initialLocation)
    && g.position == LocationPoint(g.initialLocation) && g.quaternion == IdentityQuaternion
  }

  /**
   * `createCubelets`: one new group per origin, filed under `vectorId` of the
   * origin; a repeated origin replaces the earlier group with a new one.
   */
  method CreateCubelets(spec: CubeSpecification, cubeletOrigins: seq<Vector>) returns (cubelets: map<string, Group>)
    ensures cubelets.Keys == set i | 0 <= i < |cubeletOrigins| :: VectorId(cubeletOrigins[i])
    ensures Filed(cubelets)
    ensures forall i :: 0 <= i < |cubeletOrigins| ==> cubelets[VectorId(cubeletOrigins[i])].initialLocation == cubeletOrigins[i]
    ensures forall k :: k in cubelets ==> fresh(cubelets[k]) && Built(cubelets[k], spec)
  {
    cubelets := map[];
    for n := 0 to |cubeletOrigins|
      invariant cubelets.Keys == set i | 0 <= i < n :: VectorId(cubeletOrigins[i])
      invariant Filed(cubelets)
      invariant forall k :: k in cubelets ==> fresh(cubelets[k]) && Built(cubelets[k], spec)
    {
      var cubelet := new Group(spec, cubeletOrigins[n]);
      cubelets := cubelets[VectorId(cubeletOrigins[n]) := cubelet];
    }
    forall i | 0 <= i < |cubeletOrigins|
      ensures cubelets[VectorId(cubeletOrigins[i])].initialLocation == cubeletOrigins[i]
    {
      VectorIdInjective(cubelets[VectorId(cubeletOrigins[i])].initialLocation, cubeletOrigins[i]);
    }
  }

  /** `states.map(cs => visualizer.cubelets.get(Utils.vectorId(cs.initialLocation))!)`. */
  function GroupsFor(cubelets: map<string, Group>, states: seq<CubeletState>): (r: seq<Group>)
    requires Filed(cubelets)
    requires forall i :: 0 <= i < |states| ==> Key(states[i]) in cubelets
    ensures |r| == |states|
    ensures forall i :: 0 <= i < |states| ==>
      r[i] == cubelets[Key(states[i])] && r[i].initialLocation == states[i].initialLocation
    decreases |states|
  {
    if states == [] then []
    else
      var g, rest := cubelets[Key(states[0])], GroupsFor(cubelets, states[1..]);
      VectorIdInjective(g.initialLocation, states[0].initialLocation);
      assert forall i :: 1 <= i < |states| ==> states[i] == states[1..][i - 1];
      [g] + rest
  }

  // ---------------------------------------------------------------------------
  // MoveAnimation, first version
  // ---------------------------------------------------------------------------

  /** The completion test of the first version: the step is longer than what is left of the full angle. */
  predicate LegacyCompletes(alreadyAngle: real, stepAngle: real, fullAngle: real) {
    Abs(stepAngle) > Abs(fullAngle - alreadyAngle)
  }

  /** `#alreadyAngle` after one step: kept on the completing step, otherwise grown by the step. */
  function LegacyMoveNext(alreadyAngle: real, fullAngle: real, stepAngle: real): real {
    if LegacyCompletes(alreadyAngle, stepAngle, fullAngle) then alreadyAngle else alreadyAngle + stepAngle
  }

  /** `#alreadyAngle` after stepping with each of the given elapsed times in turn. */
  function LegacyMoveAngle(fullAngle: real, instant: bool, duration: real, times: seq<real>): real
    requires duration > 0.0
    decreases |times|
  {
    if times == [] then 0.0
    else
      var n := |times| - 1;
      LegacyMoveNext(LegacyMoveAngle(fullAngle, instant, duration, times[..n]), fullAngle, StepAngle(fullAngle, instant, times[n], duration))
  }

  lemma LegacyMoveAngleSnoc(fullAngle: real, instant: bool, duration: real, times: seq<real>, t: real)
    requires duration > 0.0
    ensures LegacyMoveAngle(fullAngle, instant, duration, times + [t]) ==
      LegacyMoveNext(LegacyMoveAngle(fullAngle, instant, duration, times), fullAngle, StepAngle(fullAngle, instant, t, duration))
  {
    assert (times + [t])[..|times|] == times;
  }

  /** Scaling by a non-negative factor scales the absolute value. */
  lemma AbsScale(f: real, y: real)
    requires y >= 0.0
    ensures Abs(f * y) == Abs(f) * y
  {
    if f >= 0.0 {
      assert f * y >= 0.0;
    } else {
      assert (-f) * y >= 0.0;
      assert -(f * y) == (-f) * y;
    }
  }

  lemma ScaleCompare(c: real, u: real, v: real)
    requires c > 0.0
    ensures c * u > c * v <==> u > v
  {
    assert c * u - c * v == c * (u - v);
    if u > v {
      assert c * (u - v) > 0.0;
    } else {
      assert c * (v - u) >= 0.0;
    }
  }

  /**
   * A step by the share y of the full angle, taken when the share x (at most
   * the whole) has been turned, completes exactly when x + y exceeds the whole.
   */
  lemma LegacyScaledStep(fullAngle: real, x: real, y: real)
    requires fullAngle != 0.0 && 0.0 <= x <= 1.0 && y >= 0.0
    ensures LegacyCompletes(fullAngle * x, fullAngle * y, fullAngle) <==> x + y > 1.0
  {
    var a := Abs(fullAngle);
    assert Abs(fullAngle * y) == a * y by {
      AbsScale(fullAngle, y);
    }
    assert Abs(fullAngle - fullAngle * x) == a * (1.0 - x) by {
      assert fullAngle - fullAngle * x == fullAngle * (1.0 - x);
      AbsScale(fullAngle, 1.0 - x);
    }
    ScaleCompare(a, y, 1.0 - x);
  }

  lemma FractionNonNegative(s: real, duration: real)
    requires s >= 0.0 && duration > 0.0
    ensures s / duration >= 0.0
  {
    assert (s / duration) * duration == s;
  }

  /** Where a timed run of the first version should be at total s: turned by the share s / D of the full angle. */
  predicate LegacyOnSchedule(alreadyAngle: real, fullAngle: real, duration: real, s: real)
    requires duration > 0.0
  {
    s <= duration ==> alreadyAngle == fullAngle * (s / duration)
  }

  /**
   * A timed step of t taken when the total s (at most the duration D) has
   * passed and the share s / D of the full angle has been turned: it completes
   * exactly when it carries the total strictly past D.
   */
  lemma LegacyTimedCompletes(alreadyAngle: real, fullAngle: real, duration: real, s: real, t: real)
    requires duration > 0.0 && fullAngle != 0.0 && 0.0 <= s <= duration && t >= 0.0
    requires LegacyOnSchedule(alreadyAngle, fullAngle, duration, s)
    ensures LegacyCompletes(alreadyAngle, StepAngle(fullAngle, false, t, duration), fullAngle) <==> s + t > duration
  {
    var x, y := s / duration, t / duration;
    FractionCompare(s, 1.0, duration);
    FractionNonNegative(s, duration);
    FractionNonNegative(t, duration);
    LegacyScaledStep(fullAngle, x, y);
    FractionsAdd(s, t, duration);
    FractionCompare(s + t, 1.0, duration);
  }

  /** A timed step of t keeps a run that is on schedule at total s on schedule at total s + t. */
  lemma LegacyTimedStep(alreadyAngle: real, fullAngle: real, duration: real, s: real, t: real)
    requires duration > 0.0 && fullAngle != 0.0 && s >= 0.0 && t >= 0.0
    requires LegacyOnSchedule(alreadyAngle, fullAngle, duration, s)
    ensures LegacyOnSchedule(LegacyMoveNext(alreadyAngle, fullAngle, StepAngle(fullAngle, false, t, duration)), fullAngle, duration, s + t)
  {
    if s + t <= duration {
      LegacyTimedCompletes(alreadyAngle, fullAngle, duration, s, t);
      FractionsAdd(s, t, duration);
      assert fullAngle * (s / duration) + fullAngle * (t / duration) == fullAngle * (s / duration + t / duration);
    }
  }

  /**
   * With non-negative elapsed times, a timed move of the first version stays
   * on schedule: while the total is at most the duration D it has turned the
   * same share of the full angle as the total is of D.
   */
  lemma {:induction false} LegacyMoveTiming(fullAngle: real, duration: real, times: seq<real>)
    requires duration > 0.0 && fullAngle != 0.0 && NonNegative(times)
    ensures LegacyOnSchedule(LegacyMoveAngle(fullAngle, false, duration, times), fullAngle, duration, Sum(times))
    decreases |times|
  {
    if times != [] {
      var init := times[..|times| - 1];
      SplitLast(times);
      SumNonNegative(init);
      LegacyMoveTiming(fullAngle, duration, init);
      LegacyTimedStep(LegacyMoveAngle(fullAngle, false, duration, init), fullAngle, duration, Sum(init), times[|times| - 1]);
    } else {
      assert Sum(times) / duration == 0.0;
    }
  }

  /** While the total stays within the duration, both versions have turned by the same angle. */
  lemma LegacyMoveAngleAgrees(fullAngle: real, duration: real, times: seq<real>)
    requires duration > 0.0 && fullAngle != 0.0 && NonNegative(times) && Sum(times) <= duration
    ensures LegacyMoveAngle(fullAngle, false, duration, times) == MoveRun(fullAngle, false, duration, times).currentAngle
  {
    LegacyMoveTiming(fullAngle, duration, times);
    MoveTiming(fullAngle, duration, times);
  }

  /** The first version completes on the step that carries the total strictly past the duration. */
  lemma LegacyMoveCompletesLate(fullAngle: real, duration: real, times: seq<real>, t: real)
    requires duration > 0.0 && fullAngle != 0.0 && NonNegative(times) && t >= 0.0 && Sum(times) <= duration
    ensures LegacyCompletes(LegacyMoveAngle(fullAngle, false, duration, times), StepAngle(fullAngle, false, t, duration), fullAngle)
      <==> Sum(times) + t > duration
  {
    LegacyMoveTiming(fullAngle, duration, times);
    SumNonNegative(times);
    LegacyTimedCompletes(LegacyMoveAngle(fullAngle, false, duration, times), fullAngle, duration, Sum(times), t);
  }

  /**
   * The first version and MoveAnimation.ts agree on when a timed move ends:
   * the step that completes the first one is the step that finishes the other.
   */
  lemma LegacyMoveAgrees(fullAngle: real, duration: real, times: seq<real>, t: real)
    requires duration > 0.0 && fullAngle != 0.0 && NonNegative(times) && t >= 0.0 && Sum(times) <= duration
    ensures LegacyCompletes(LegacyMoveAngle(fullAngle, false, duration, times), StepAngle(fullAngle, false, t, duration), fullAngle)
      <==> MoveNext(MoveRun(fullAngle, false, duration, times), fullAngle, StepAngle(fullAngle, false, t, duration)).state == MoveAnimationState.FINISHED
  {
    LegacyMoveCompletesLate(fullAngle, duration, times, t);
    MoveTiming(fullAngle, duration, times);
    SumNonNegative(times);
    TimedStepState(MoveRun(fullAngle, false, duration, times), fullAngle, duration, Sum(times), t);
  }

  /** Without animation the first step turns by the whole angle without completing; the second completes. */
  lemma LegacyMoveInstant(fullAngle: real, duration: real, t1: real, t2: real)
    requires duration > 0.0 && fullAngle != 0.0
    ensures !LegacyCompletes(0.0, StepAngle(fullAngle, true, t1, duration), fullAngle)
    ensures LegacyMoveAngle(fullAngle, true, duration, [t1]) == fullAngle
    ensures LegacyCompletes(fullAngle, StepAngle(fullAngle, true, t2, duration), fullAngle)
  {
    assert [t1][..0] == [];
  }

  /** A move by angle 0 never completes: its steps are 0, never longer than what is left. */
  lemma LegacyMoveZeroNeverCompletes(instant: bool, duration: real, times: seq<real>, t: real)
    requires duration > 0.0
    ensures !LegacyCompletes(LegacyMoveAngle(0.0, instant, duration, times), StepAngle(0.0, instant, t, duration), 0.0)
  {
  }

  /** No two of the groups share an initial location, so they are distinct objects. */
  ghost predicate DistinctGroups(groups: seq<Group>) {
    forall i, j :: 0 <= i < j < |groups| ==> groups[i].initialLocation != groups[j].initialLocation
  }

  /** The completing branch's loop: each group is set to the new state filed under its initial location. */
  method SnapGroups(groups: seq<Group>, newStates: map<string, CubeletState>)
    requires DistinctGroups(groups)
    requires forall i :: 0 <= i < |groups| ==> VectorId(groups[i].initialLocation) in newStates
    modifies groups
    ensures forall i :: 0 <= i < |groups| ==> groups[i].Shows(newStates[VectorId(groups[i].initialLocation)])
  {
    for i := 0 to |groups|
      invariant forall j :: 0 <= j < i ==> groups[j].Shows(newStates[VectorId(groups[j].initialLocation)])
    {
      groups[i].SetPose(newStates[VectorId(groups[i].initialLocation)]);
    }
  }

  /** The turning branch's loop: each group is turned by the same rotation. */
  method RotateGroups(groups: seq<Group>, transformation: Quaternion)
    requires DistinctGroups(groups)
    modifies groups
    ensures forall i :: 0 <= i < |groups| ==>
      && groups[i].quaternion == ApplyToOrientation(transformation, old(groups[i].quaternion))
      && groups[i].position == ApplyToPoint(transformation, old(groups[i].position))
  {
    for i := 0 to |groups|
      invariant forall j :: 0 <= j < i ==>
        && groups[j].quaternion == ApplyToOrientation(transformation, old(groups[j].quaternion))
        && groups[j].position == ApplyToPoint(transformation, old(groups[j].position))
      invariant forall j :: i <= j < |groups| ==>
        groups[j].quaternion == old(groups[j].quaternion) && groups[j].position == old(groups[j].position)
    {
      groups[i].Rotate(transformation);
    }
  }

  /** The first version of the animation of one move event. */
  class LegacyMoveAnimation {
    /** The visualizer's `cubelets`. */
    const cubelets: map<string, Group>
    const stateChanged: CubeStateChanged
    /** The visualizer's `animationDuration`, in milliseconds. */
    const animationDuration: real
    const newStatesByInitialLocation: map<string, CubeletState>
    ghost const changedStates: seq<CubeletState>
    const cubeletsThatWillChange: seq<Group>
    const axis: Vector3
    const fullAngle: real
    var alreadyAngle: real
    /** How often `resolve` has been called. */
    var resolveCalls: nat
    /** The elapsed times `time - lastTime` of the steps so far. */
    ghost var steps: seq<real>

    function Instant(): bool {
      IsInstant(stateChanged)
    }

    /** What `step` relies on: a positive duration, distinct groups, each with a new state under its key. */
    ghost predicate Wired() {
      && animationDuration > 0.0
      && DistinctGroups(cubeletsThatWillChange)
      && (forall i :: 0 <= i < |cubeletsThatWillChange| ==>
            VectorId(cubeletsThatWillChange[i].initialLocation) in newStatesByInitialLocation)
    }

    /** The angle turned so far is that of the specification run on the elapsed times seen so far. */
    ghost predicate Valid()
      reads this
    {
      Wired() && alreadyAngle == LegacyMoveAngle(fullAngle, Instant(), animationDuration, steps)
    }

    /** The new state of the i-th group that changes. */
    ghost function Target(i: int): CubeletState
      requires Wired() && 0 <= i < |cubeletsThatWillChange|
    {
      newStatesByInitialLocation[VectorId(cubeletsThatWillChange[i].initialLocation)]
    }

    constructor (cubelets: map<string, Group>, stateChanged: CubeStateChanged, animationDuration: real)
      requires Filed(cubelets)
      requires animationDuration > 0.0
      requires stateChanged.move.Some?
      requires DistinctInitialLocations(stateChanged.oldState.cubelets)
      requires forall i :: 0 <= i < |stateChanged.oldState.cubelets| ==>
        Key(stateChanged.oldState.cubelets[i]) in StatesByInitialLocation(stateChanged.newState.cubelets)
      requires forall s :: s in ChangedStates(stateChanged.oldState.cubelets, StatesByInitialLocation(stateChanged.newState.cubelets)) ==>
        Key(s) in cubelets
      ensures Valid()
      ensures this.cubelets == cubelets && this.stateChanged == stateChanged && this.animationDuration == animationDuration
      ensures newStatesByInitialLocation == StatesByInitialLocation(stateChanged.newState.cubelets)
      ensures changedStates == ChangedStates(stateChanged.oldState.cubelets, newStatesByInitialLocation)
      ensures |cubeletsThatWillChange| == |changedStates|
      ensures forall i :: 0 <= i < |changedStates| ==>
        && cubeletsThatWillChange[i] == cubelets[Key(changedStates[i])]
        && cubeletsThatWillChange[i].initialLocation == changedStates[i].initialLocation
      ensures axis == MoveAxis(stateChanged.move.value) && fullAngle == FullAngle(stateChanged.move.value)
      ensures alreadyAngle == 0.0 && resolveCalls == 0 && steps == []
    {
      this.cubelets := cubelets;
      this.stateChanged := stateChanged;
      this.animationDuration := animationDuration;
      alreadyAngle := 0.0;
      var news := StatesByInitialLocation(stateChanged.newState.cubelets);
      newStatesByInitialLocation := news;
      var changed := ChangedStates(stateChanged.oldState.cubelets, news);
      ChangedStatesDistinct(stateChanged.oldState.cubelets, news);
      changedStates := changed;
      forall i | 0 <= i < |changed|
        ensures Key(changed[i]) in cubelets && Key(changed[i]) in news
      {
        assert changed[i] in changed;
      }
      cubeletsThatWillChange := GroupsFor(cubelets, changed);
      var move := stateChanged.move.value;
      axis := MoveAxis(move);
      fullAngle := FullAngle(move);
      resolveCalls := 0;
      steps := [];
    }

    /** The completing branch: every group that changes is put into its new state, then `resolve`. */
    method Snap()
      requires Wired()
      modifies this`resolveCalls, cubeletsThatWillChange
      ensures resolveCalls == old(resolveCalls) + 1
      ensures forall i :: 0 <= i < |cubeletsThatWillChange| ==> cubeletsThatWillChange[i].Shows(Target(i))
    {
      SnapGroups(cubeletsThatWillChange, newStatesByInitialLocation);
      resolveCalls := resolveCalls + 1;
    }

    /** The other branch: the angle grows by the step and every group that changes turns by it. */
    method Turn(stepAngle: real)
      requires Wired()
      modifies this`alreadyAngle, cubeletsThatWillChange
      ensures alreadyAngle == old(alreadyAngle) + stepAngle
      ensures forall i :: 0 <= i < |cubeletsThatWillChange| ==>
        var q := FromAxisAngle(axis, stepAngle);
        && cubeletsThatWillChange[i].quaternion == ApplyToOrientation(q, old(cubeletsThatWillChange[i].quaternion))
        && cubeletsThatWillChange[i].position == ApplyToPoint(q, old(cubeletsThatWillChange[i].position))
    {
      var transformation := FromAxisAngle(axis, stepAngle);
      alreadyAngle := alreadyAngle + stepAngle;
      RotateGroups(cubeletsThatWillChange, transformation);
    }

    /**
     * `step(time, lastTime)`: done exactly when the step angle is longer than
     * what is left of the full angle; then every group that changes is put
     * exactly into its new state and `resolve` is called, and otherwise each
     * of them is turned by the step angle about the axis.
     */
    method Step(time: real, lastTime: real) returns (done: bool)
      requires Valid()
      modifies this`alreadyAngle, this`resolveCalls, this`steps, cubeletsThatWillChange
      ensures Valid()
      ensures steps == old(steps) + [time - lastTime]
      ensures var stepAngle := StepAngle(fullAngle, Instant(), time - lastTime, animationDuration);
        && done == LegacyCompletes(old(alreadyAngle), stepAngle, fullAngle)
        && alreadyAngle == LegacyMoveNext(old(alreadyAngle), fullAngle, stepAngle)
        && resolveCalls == old(resolveCalls) + (if done then 1 else 0)
        && (done ==> forall i :: 0 <= i < |cubeletsThatWillChange| ==> cubeletsThatWillChange[i].Shows(Target(i)))
        && (!done ==> forall i :: 0 <= i < |cubeletsThatWillChange| ==>
              var q := FromAxisAngle(axis, stepAngle);
              && cubeletsThatWillChange[i].quaternion == ApplyToOrientation(q, old(cubeletsThatWillChange[i].quaternion))
              && cubeletsThatWillChange[i].position == ApplyToPoint(q, old(cubeletsThatWillChange[i].position)))
    {
      var sinceLastTime := time - lastTime;
      var stepAngle := StepAngle(fullAngle, Instant(), sinceLastTime, animationDuration);
      var dif := fullAngle - alreadyAngle;
      LegacyMoveAngleSnoc(fullAngle, Instant(), animationDuration, steps, sinceLastTime);
      steps := steps + [sinceLastTime];
      if Abs(stepAngle) > Abs(dif) {
        Snap();
        done := true;
      } else {
        Turn(stepAngle);
        done := false;
      }
    }
  }

  // ---------------------------------------------------------------------------
  // BeamAnimation, first version
  // ---------------------------------------------------------------------------

  /** The fields `step` changes besides the groups: `#alreadyOpacity` and `#alreadySwitched`. */
  datatype LegacyBeamProgress = LegacyBeamProgress(alreadyOpacity: real, alreadySwitched: bool)

  const LEGACY_BEAM_START := LegacyBeamProgress(-1.0, false)

  /** The swap test: the opacity would pass 0 and the groups have not been switched yet. */
  predicate LegacySwaps(p: LegacyBeamProgress, stepOpacity: real) {
    p.alreadyOpacity + stepOpacity > 0.0 && !p.alreadySwitched
  }

  /** The completion test as written: the step is longer than what is left up to 2. */
  predicate LegacyFinishes(p: LegacyBeamProgress, stepOpacity: real) {
    Abs(stepOpacity) > Abs(2.0 - p.alreadyOpacity)
  }

  /** One `step`: switch if the swap test holds, then keep the opacity on the completing step or add the step to it. */
  function LegacyBeamNext(p: LegacyBeamProgress, stepOpacity: real): LegacyBeamProgress {
    var switched := p.alreadySwitched || LegacySwaps(p, stepOpacity);
    if LegacyFinishes(p, stepOpacity) then LegacyBeamProgress(p.alreadyOpacity, switched)
    else LegacyBeamProgress(p.alreadyOpacity + stepOpacity, switched)
  }

  /** The canvas opacity a step leaves: 1 on the completing step, otherwise the absolute value of the new opacity. */
  function LegacyDisplayed(p: LegacyBeamProgress, stepOpacity: real): real {
    if LegacyFinishes(p, stepOpacity) then 1.0 else Abs(p.alreadyOpacity + stepOpacity)
  }

  /** The progress after stepping with each of the given elapsed times in turn. */
  function LegacyBeamRun(instant: bool, duration: real, times: seq<real>): LegacyBeamProgress
    requires duration > 0.0
    decreases |times|
  {
    if times == [] then LEGACY_BEAM_START
    else
      var n := |times| - 1;
      LegacyBeamNext(LegacyBeamRun(instant, duration, times[..n]), StepOpacity(instant, times[n], duration))
  }

  /** How many steps of the run switched the groups. */
  function LegacySwapCount(instant: bool, duration: real, times: seq<real>): nat
    requires duration > 0.0
    decreases |times|
  {
    if times == [] then 0
    else
      var n := |times| - 1;
      LegacySwapCount(instant, duration, times[..n])
        + (if LegacySwaps(LegacyBeamRun(instant, duration, times[..n]), StepOpacity(instant, times[n], duration)) then 1 else 0)
  }

  lemma LegacyBeamRunSnoc(instant: bool, duration: real, times: seq<real>, t: real)
    requires duration > 0.0
    ensures LegacyBeamRun(instant, duration, times + [t]) ==
      LegacyBeamNext(LegacyBeamRun(instant, duration, times), StepOpacity(instant, t, duration))
    ensures LegacySwapCount(instant, duration, times + [t]) == LegacySwapCount(instant, duration, times) +
      (if LegacySwaps(LegacyBeamRun(instant, duration, times), StepOpacity(instant, t, duration)) then 1 else 0)
  {
    assert (times + [t])[..|times|] == times;
  }

  /** `#alreadySwitched` guards the swap: the groups are switched once at most, and exactly once when the flag is set. */
  lemma {:induction false} LegacySwapOnce(instant: bool, duration: real, times: seq<real>)
    requires duration > 0.0
    ensures LegacySwapCount(instant, duration, times) == (if LegacyBeamRun(instant, duration, times).alreadySwitched then 1 else 0)
    decreases |times|
  {
    if times != [] {
      LegacySwapOnce(instant, duration, times[..|times| - 1]);
    }
  }

  /**
   * Where a timed fade of the first version should be at total s, as long as
   * s is at most 1.5 times the duration D: at the opacity that is the share of
   * the range 2 the total is of D, above -1, and switched exactly when s has
   * passed D/2.
   */
  predicate LegacyBeamOnSchedule(p: LegacyBeamProgress, duration: real, s: real)
    requires duration > 0.0
  {
    s <= 1.5 * duration ==>
      && p.alreadyOpacity == -1.0 + 2.0 * (s / duration)
      && (p.alreadySwitched <==> s > 0.5 * duration)
  }

  /** As written, a timed step of t on a fade that is on schedule completes it exactly when the total passes 1.5 times D. */
  lemma LegacyBeamTimedFinishes(p: LegacyBeamProgress, duration: real, s: real, t: real)
    requires duration > 0.0 && 0.0 <= s <= 1.5 * duration && t >= 0.0
    requires LegacyBeamOnSchedule(p, duration, s)
    ensures LegacyFinishes(p, StepOpacity(false, t, duration)) <==> s + t > 1.5 * duration
  {
    FractionNonNegative(t, duration);
    FractionsAdd(s, t, duration);
    FractionCompare(s, 1.5, duration);
    FractionCompare(s + t, 1.5, duration);
  }

  /** A timed step of t keeps a fade that is on schedule at total s on schedule at total s + t. */
  lemma LegacyBeamTimedStep(p: LegacyBeamProgress, duration: real, s: real, t: real)
    requires duration > 0.0 && s >= 0.0 && t >= 0.0
    requires LegacyBeamOnSchedule(p, duration, s)
    ensures LegacyBeamOnSchedule(LegacyBeamNext(p, StepOpacity(false, t, duration)), duration, s + t)
  {
    if s + t <= 1.5 * duration {
      LegacyBeamTimedFinishes(p, duration, s, t);
      FractionsAdd(s, t, duration);
      FractionCompare(s, 0.5, duration);
      FractionCompare(s + t, 0.5, duration);
    }
  }

  /** As written, a timed fade with non-negative elapsed times stays on schedule up to 1.5 times its duration. */
  lemma {:induction false} LegacyBeamTiming(duration: real, times: seq<real>)
    requires duration > 0.0 && NonNegative(times)
    ensures LegacyBeamOnSchedule(LegacyBeamRun(false, duration, times), duration, Sum(times))
    decreases |times|
  {
    if times != [] {
      var init := times[..|times| - 1];
      SplitLast(times);
      SumNonNegative(init);
      LegacyBeamTiming(duration, init);
      LegacyBeamTimedStep(LegacyBeamRun(false, duration, init), duration, Sum(init), times[|times| - 1]);
    } else {
      assert Sum(times) / duration == 0.0;
    }
  }

  /** As written, the step after such a run completes the fade exactly when the total passes 1.5 times D. */
  lemma LegacyBeamFinishesLate(duration: real, times: seq<real>, t: real)
    requires duration > 0.0 && NonNegative(times) && Sum(times) <= 1.5 * duration && t >= 0.0
    ensures LegacyFinishes(LegacyBeamRun(false, duration, times), StepOpacity(false, t, duration)) <==>
      Sum(times) + t > 1.5 * duration
  {
    LegacyBeamTiming(duration, times);
    SumNonNegative(times);
    LegacyBeamTimedFinishes(LegacyBeamRun(false, duration, times), duration, Sum(times), t);
  }

  /**
   * The discrepancy as written: a 200 ms fade stepped three times by 100 ms
   * has had 300 ms, more than its duration, but the third step does not
   * complete it and leaves the canvas at opacity 2, outside the range [0, 1]
   * of an opacity.
   */
  lemma LegacyBeamOverrun()
    ensures !LegacyFinishes(LegacyBeamRun(false, 200.0, [100.0, 100.0]), StepOpacity(false, 100.0, 200.0))
    ensures LegacyDisplayed(LegacyBeamRun(false, 200.0, [100.0, 100.0]), StepOpacity(false, 100.0, 200.0)) == 2.0
  {
    var one, two := [100.0], [100.0, 100.0];
    assert one[..0] == [] && two[..1] == one;
    assert Sum(two) == 200.0;
    LegacyBeamTiming(200.0, two);
    var p := LegacyBeamRun(false, 200.0, two);
    assert p.alreadyOpacity == 1.0 && p.alreadySwitched;
    assert StepOpacity(false, 100.0, 200.0) == 1.0;
  }

  /** The same fade in BeamAnimation.ts: the three steps of 100 ms add up to 300 ms, and after them it has finished. */
  lemma BeamOverrunCorrected()
    ensures Sum([100.0, 100.0, 100.0]) == 300.0
    ensures BeamRun(false, 200.0, [100.0, 100.0, 100.0]).state == BeamAnimationState.FINISHED
  {
    var one, two, three := [100.0], [100.0, 100.0], [100.0, 100.0, 100.0];
    assert one[..0] == [] && two[..1] == one && three[..2] == two;
    assert Sum(one) == 100.0;
    assert Sum(two) == 200.0;
    assert Sum(three) == 300.0;
    BeamTiming(200.0, three);
  }

  /** Without animation the first step switches and shows opacity 1 without completing; the second completes. */
  lemma LegacyBeamInstant(duration: real, t1: real, t2: real)
    requires duration > 0.0
    ensures LegacySwaps(LEGACY_BEAM_START, StepOpacity(true, t1, duration))
    ensures !LegacyFinishes(LEGACY_BEAM_START, StepOpacity(true, t1, duration))
    ensures LegacyBeamRun(true, duration, [t1]) == LegacyBeamProgress(1.0, true)
    ensures LegacyFinishes(LegacyBeamProgress(1.0, true), StepOpacity(true, t2, duration))
  {
    assert [t1][..0] == [];
  }

  /** The swap's loop: every group is set to the new state filed under its initial location, in no particular order. */
  method SwapGroups(groups: set<Group>, newStates: map<string, CubeletState>)
    requires forall g :: g in groups ==> VectorId(g.initialLocation) in newStates
    modifies groups
    ensures forall g :: g in groups ==> g.Shows(newStates[VectorId(g.initialLocation)])
  {
    var remaining := groups;
    while remaining != {}
      invariant remaining <= groups
      invariant forall g :: g in groups - remaining ==> g.Shows(newStates[VectorId(g.initialLocation)])
      decreases remaining
    {
      var g :| g in remaining;
      g.SetPose(newStates[VectorId(g.initialLocation)]);
      remaining := remaining - {g};
    }
  }

  /** The first version of the animation of one state change without a move. */
  class LegacyBeamAnimation {
    /** The visualizer's `cubelets`. */
    const cubelets: map<string, Group>
    const canvas: Canvas
    const stateChanged: CubeStateChanged
    /** The visualizer's `animationDuration`, in milliseconds. */
    const animationDuration: real
    const newStatesByInitialLocation: map<string, CubeletState>
    var alreadyOpacity: real
    var alreadySwitched: bool
    /** How often `resolve` has been called. */
    var resolveCalls: nat
    /** The elapsed times `time - lastTime` of the steps so far. */
    ghost var steps: seq<real>
    /** How many steps have switched the groups. */
    ghost var swaps: nat

    function Instant(): bool {
      IsInstant(stateChanged)
    }

    /** What `step` relies on: a positive duration, and a new state under the key of every group. */
    ghost predicate Wired() {
      && animationDuration > 0.0
      && (forall g :: g in cubelets.Values ==> VectorId(g.initialLocation) in newStatesByInitialLocation)
    }

    /** The progress and the swaps so far are those of the specification run on the elapsed times seen so far. */
    ghost predicate Valid()
      reads this
    {
      && Wired()
      && LegacyBeamProgress(alreadyOpacity, alreadySwitched) == LegacyBeamRun(Instant(), animationDuration, steps)
      && swaps == LegacySwapCount(Instant(), animationDuration, steps)
    }

    constructor (cubelets: map<string, Group>, canvas: Canvas, stateChanged: CubeStateChanged, animationDuration: real)
      requires animationDuration > 0.0
      requires forall g :: g in cubelets.Values ==>
        VectorId(g.initialLocation) in StatesByInitialLocation(stateChanged.newState.cubelets)
      ensures Valid()
      ensures this.cubelets == cubelets && this.canvas == canvas && this.stateChanged == stateChanged
      ensures this.animationDuration == animationDuration
      ensures newStatesByInitialLocation == StatesByInitialLocation(stateChanged.newState.cubelets)
      ensures alreadyOpacity == -1.0 && !alreadySwitched && resolveCalls == 0 && steps == [] && swaps == 0
    {
      this.cubelets := cubelets;
      this.canvas := canvas;
      this.stateChanged := stateChanged;
      this.animationDuration := animationDuration;
      alreadyOpacity := -1.0;
      alreadySwitched := false;
      newStatesByInitialLocation := StatesByInitialLocation(stateChanged.newState.cubelets);
      resolveCalls := 0;
      steps := [];
      swaps := 0;
    }

    /** The switch: every group of the visualizer is put into its new state, once. */
    method Switch(stepOpacity: real)
      requires Wired()
      modifies this`alreadySwitched, this`swaps, cubelets.Values
      ensures var switches := LegacySwaps(LegacyBeamProgress(alreadyOpacity, old(alreadySwitched)), stepOpacity);
        && alreadySwitched == (old(alreadySwitched) || switches)
        && swaps == old(swaps) + (if switches then 1 else 0)
        && (switches ==> forall g :: g in cubelets.Values ==> g.Shows(newStatesByInitialLocation[VectorId(g.initialLocation)]))
        && (!switches ==> unchanged(cubelets.Values))
    {
      if alreadyOpacity + stepOpacity > 0.0 && !alreadySwitched {
        SwapGroups(cubelets.Values, newStatesByInitialLocation);
        alreadySwitched := true;
        swaps := swaps + 1;
      }
    }

    /** The completion test and what follows: opacity 1 and `resolve`, or the opacity grown by the step. */
    method FinishOrFade(stepOpacity: real) returns (done: bool)
      modifies this`alreadyOpacity, this`resolveCalls, canvas
      ensures done == LegacyFinishes(LegacyBeamProgress(old(alreadyOpacity), alreadySwitched), stepOpacity)
      ensures alreadyOpacity == (if done then old(alreadyOpacity) else old(alreadyOpacity) + stepOpacity)
      ensures resolveCalls == old(resolveCalls) + (if done then 1 else 0)
      ensures canvas.opacity == (if done then 1.0 else Abs(alreadyOpacity))
      ensures unchanged(cubelets.Values)
    {
      var dif := 2.0 - alreadyOpacity;
      if Abs(stepOpacity) > Abs(dif) {
        canvas.opacity := 1.0;
        resolveCalls := resolveCalls + 1;
        done := true;
      } else {
        alreadyOpacity := alreadyOpacity + stepOpacity;
        canvas.opacity := Abs(alreadyOpacity);
        done := false;
      }
    }

    /**
     * `step(time, lastTime)`: switch every group into its new state if the
     * opacity passes 0 for the first time, then either show opacity 1, call
     * `resolve` and answer done, or add the step to the opacity and show its
     * absolute value. When there is no switch no group is touched.
     */
    method Step(time: real, lastTime: real) returns (done: bool)
      requires Valid()
      modifies this`alreadyOpacity, this`alreadySwitched, this`resolveCalls, this`steps, this`swaps, canvas, cubelets.Values
      ensures Valid()
      ensures steps == old(steps) + [time - lastTime]
      ensures var stepOpacity := StepOpacity(Instant(), time - lastTime, animationDuration);
        var before := old(LegacyBeamProgress(alreadyOpacity, alreadySwitched));
        && done == LegacyFinishes(before, stepOpacity)
        && LegacyBeamProgress(alreadyOpacity, alreadySwitched) == LegacyBeamNext(before, stepOpacity)
        && canvas.opacity == LegacyDisplayed(before, stepOpacity)
        && resolveCalls == old(resolveCalls) + (if done then 1 else 0)
        && swaps == old(swaps) + (if LegacySwaps(before, stepOpacity) then 1 else 0)
        && (LegacySwaps(before, stepOpacity) ==>
              forall g :: g in cubelets.Values ==> g.Shows(newStatesByInitialLocation[VectorId(g.initialLocation)]))
        && (!LegacySwaps(before, stepOpacity) ==> unchanged(cubelets.Values))
    {
      var sinceLastTime := time - lastTime;
      var stepOpacity := StepOpacity(Instant(), sinceLastTime, animationDuration);
      ghost var before := LegacyBeamProgress(alreadyOpacity, alreadySwitched);
      LegacyBeamRunSnoc(Instant(), animationDuration, steps, sinceLastTime);
      steps := steps + [sinceLastTime];
      Switch(stepOpacity);
      done := FinishOrFade(stepOpacity);
      assert LegacyBeamProgress(alreadyOpacity, alreadySwitched) == LegacyBeamNext(before, stepOpacity);
    }
  }
}
