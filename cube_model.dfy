/**
 * The values the visualizer receives from the cube-logic model library
 * (states, moves, state-change events) and the lookups the animations build
 * from them.
 */
module CubeModel {
  import opened Wrappers
  import opened Utils

  /** Where one cubelet is: its fixed initial location, its location and its orientation. */
  datatype CubeletState = CubeletState(initialLocation: Vector, location: Vector, orientation: Matrix3)

  datatype CubeState = CubeState(cubelets: seq<CubeletState>)

  /** A dimension of the cube; the model library has exactly the three indices 0, 1, 2. */
  type DimensionIndex = i: int | 0 <= i < 3

  datatype Dimension = Dimension(index: DimensionIndex)

  datatype CubeFace = CubeFace(dimension: Dimension, positiveDirection: bool)

  /** A turn of a face by `angle` quarter turns. */
  datatype CubeMove = CubeMove(face: CubeFace, angle: int)

  /** Who caused a change; `animation == Some(false)` asks for no animation. */
  datatype Source = Source(animation: Option<bool>)

  datatype CubeStateChanged = CubeStateChanged(
    oldState: CubeState,
    newState: CubeState,
    move: Option<CubeMove>,
    source: Option<Source>)

  datatype CubeSpecification = CubeSpecification(edgeLength: nat)

  /** The solution condition; only whether its type is STRICT matters here. */
  datatype CubeSolutionCondition = CubeSolutionCondition(strict: bool)

  /** `stateChanged.source?.animation === false`: the change is shown without interpolation. */
  predicate IsInstant(e: CubeStateChanged) {
    e.source.Some? && e.source.value.animation == Some(false)
  }

  /** The key a cubelet state is filed under: `Utils.vectorId(cs.initialLocation)`. */
  function Key(cs: CubeletState): string {
    VectorId(cs.initialLocation)
  }

  /**
   * Each initial location occurs once in the list. The model takes this for
   * granted of the states the model library hands over; the library itself is
   * not part of this model.
   */
  predicate DistinctInitialLocations(cs: seq<CubeletState>) {
    forall i, j :: 0 <= i < j < |cs| ==> cs[i].initialLocation != cs[j].initialLocation
  }

  function InitialLocations(cs: seq<CubeletState>): set<Vector> {
    set i | 0 <= i < |cs| :: cs[i].initialLocation
  }

  /**
   * `states.reduce((mm, cs) => mm.set(Utils.vectorId(cs.initialLocation), cs), new Map())`:
   * each state is filed under its key, later ones replacing earlier ones.
   */
  function StatesByInitialLocation(cs: seq<CubeletState>): map<string, CubeletState> {
    FileByKey(cs, Key)
  }

  /** `Map.set` folded over a list, from the front, with the key of each element given by `key`. */
  function FileByKey<T>(xs: seq<T>, key: T -> string): map<string, T>
    decreases |xs|
  {
    if xs == [] then map[] else FileByKey(xs[..|xs| - 1], key)[key(xs[|xs| - 1]) := xs[|xs| - 1]]
  }

  /** The element a key ends up with: the last one in the list that has that key. */
  predicate LastWithKey<T>(xs: seq<T>, key: T -> string, i: int) {
    0 <= i < |xs| && forall j :: i < j < |xs| ==> key(xs[j]) != key(xs[i])
  }

  /** Filing one more element is one more `Map.set`. */
  lemma FileByKeySnoc<T>(xs: seq<T>, key: T -> string, i: nat)
    requires i < |xs|
    ensures FileByKey(xs[..i + 1], key) == FileByKey(xs[..i], key)[key(xs[i]) := xs[i]]
  {
    assert xs[..i + 1][..i] == xs[..i];
  }

  /** The lookup has one entry per key of the list. */
  lemma {:induction false} FileByKeyKeys<T>(xs: seq<T>, key: T -> string)
    ensures FileByKey(xs, key).Keys == set i | 0 <= i < |xs| :: key(xs[i])
    decreases |xs|
  {
    if xs != [] {
      var init := xs[..|xs| - 1];
      FileByKeyKeys(init, key);
      assert forall i :: 0 <= i < |init| ==> init[i] == xs[i];
      assert (set i | 0 <= i < |xs| :: key(xs[i])) == (set i | 0 <= i < |init| :: key(init[i])) + {key(xs[|xs| - 1])};
    }
  }

  /** Every entry of the lookup is filed under its own key. */
  lemma {:induction false} FileByKeyFiled<T>(xs: seq<T>, key: T -> string)
    ensures forall k :: k in FileByKey(xs, key) ==> key(FileByKey(xs, key)[k]) == k
    decreases |xs|
  {
    if xs != [] {
      FileByKeyFiled(xs[..|xs| - 1], key);
    }
  }

  /** Every entry of the lookup is an element of the list. */
  lemma {:induction false} FileByKeyFrom<T>(xs: seq<T>, key: T -> string)
    ensures forall k :: k in FileByKey(xs, key) ==> FileByKey(xs, key)[k] in xs
    decreases |xs|
  {
    if xs != [] {
      var init := xs[..|xs| - 1];
      FileByKeyFrom(init, key);
      assert forall t :: t in init ==> t in xs;
    }
  }

  /** Where a key repeats, the last element with it wins. */
  lemma {:induction false} FileByKeyLastWins<T>(xs: seq<T>, key: T -> string, i: int)
    requires LastWithKey(xs, key, i)
    ensures key(xs[i]) in FileByKey(xs, key)
    ensures FileByKey(xs, key)[key(xs[i])] == xs[i]
    decreases |xs|
  {
    var init := xs[..|xs| - 1];
    if i < |init| {
      assert LastWithKey(init, key, i);
      FileByKeyLastWins(init, key, i);
    }
  }

  /** Without repeated initial locations every state of the list is found under its own key. */
  lemma StatesByInitialLocationFindsAll(cs: seq<CubeletState>, i: nat)
    requires DistinctInitialLocations(cs) && i < |cs|
    ensures Key(cs[i]) in StatesByInitialLocation(cs)
    ensures StatesByInitialLocation(cs)[Key(cs[i])] == cs[i]
  {
    forall j | i < j < |cs|
      ensures Key(cs[j]) != Key(cs[i])
    {
      VectorIdInjective(cs[j].initialLocation, cs[i].initialLocation);
    }
    FileByKeyLastWins(cs, Key, i);
  }

  /**
   * The filter `!cs.equals(newStates.get(Utils.vectorId(cs.initialLocation))!)`:
   * the old cubelet states that differ from the new state with the same key, in order.
   */
  function ChangedStates(olds: seq<CubeletState>, news: map<string, CubeletState>): (r: seq<CubeletState>)
    requires forall i :: 0 <= i < |olds| ==> Key(olds[i]) in news
  {
    ChangedByKey(olds, news, Key)
  }

  /** The elements of a list that differ from the entry filed under their key, in order. */
  function ChangedByKey<T(==, !new)>(olds: seq<T>, news: map<string, T>, key: T -> string): (r: seq<T>)
    requires forall i :: 0 <= i < |olds| ==> key(olds[i]) in news
    ensures forall s :: s in r <==> s in olds && s != news[key(s)]
    decreases |olds|
  {
    if olds == [] then []
    else
      assert forall s :: s in olds[1..] ==> s in olds;
      var rest := ChangedByKey(olds[1..], news, key);
      if olds[0] != news[key(olds[0])] then [olds[0]] + rest else rest
  }

  lemma DistinctCons(s: CubeletState, rest: seq<CubeletState>)
    requires DistinctInitialLocations(rest)
    requires forall t :: t in rest ==> t.initialLocation != s.initialLocation
    ensures DistinctInitialLocations([s] + rest)
  {
    var r := [s] + rest;
    forall i, j | 0 <= i < j < |r|
      ensures r[i].initialLocation != r[j].initialLocation
    {
      assert r[j] == rest[j - 1] && r[j] in rest;
      if i > 0 {
        assert r[i] == rest[i - 1];
      }
    }
  }

  /** Filtering keeps the initial locations of the changed states distinct. */
  lemma {:induction false} ChangedStatesDistinct(olds: seq<CubeletState>, news: map<string, CubeletState>)
    requires forall i :: 0 <= i < |olds| ==> Key(olds[i]) in news
    requires DistinctInitialLocations(olds)
    ensures DistinctInitialLocations(ChangedStates(olds, news))
    decreases |olds|
  {
    if olds != [] {
      var tail := olds[1..];
      assert forall i :: 0 <= i < |tail| ==> tail[i] == olds[i + 1];
      ChangedStatesDistinct(tail, news);
      var rest := ChangedStates(tail, news);
      assert forall t :: t in rest ==> t in tail;
      assert forall t :: t in tail ==> t.initialLocation != olds[0].initialLocation;
      if olds[0] != news[Key(olds[0])] {
        assert ChangedStates(olds, news) == [olds[0]] + rest;
        DistinctCons(olds[0], rest);
      } else {
        assert ChangedStates(olds, news) == rest;
      }
    }
  }
}
