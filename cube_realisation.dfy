/**
 * src/CubeRealisation.ts: the cubelet objects of one cube, filed under the
 * key of their initial location. The table is filled once, by the
 * constructor, and only read afterwards.
 */
module Realisations {
  import opened Wrappers
  import opened Utils
  import opened CubeModel
  import opened Cubelets

  /** A cubelet object made by the constructor for the given state, and still showing it. */
  ghost predicate BuiltFrom(c: CubeletRealisation, spec: CubeSpecification, condition: CubeSolutionCondition, s: CubeletState)
    reads c
  {
    && c.initialLocation == s.initialLocation
    && c.spec == spec && c.solutionCondition == condition
    && c.parts == CubeletParts(spec, condition, s.initialLocation)
    && c.Shows(s)
  }

  /** The constructor's loop: `cubeletsByInitialLocation.set(...)` for each cubelet state in turn. */
  method BuildTable(spec: CubeSpecification, solutionCondition: CubeSolutionCondition, states: seq<CubeletState>)
    returns (table: map<string, CubeletRealisation>)
    ensures table.Keys == StatesByInitialLocation(states).Keys
    ensures forall k :: k in table ==> BuiltFrom(table[k], spec, solutionCondition, StatesByInitialLocation(states)[k])
  {
    table := map[];
    ghost var filed: map<string, CubeletState> := map[];
    for i := 0 to |states|
      invariant filed == StatesByInitialLocation(states[..i])
      invariant table.Keys == filed.Keys
      invariant forall k :: k in table ==> BuiltFrom(table[k], spec, solutionCondition, filed[k])
    {
      FileByKeySnoc(states, Key, i);
      var cubelet := new CubeletRealisation(spec, solutionCondition, states[i]);
      table := table[Key(states[i]) := cubelet];
      filed := filed[Key(states[i]) := states[i]];
    }
    assert states[..|states|] == states;
  }

  class CubeRealisation {
    const spec: CubeSpecification
    const solutionCondition: CubeSolutionCondition
    const cubeletsByInitialLocation: map<string, CubeletRealisation>
    /** The cubelet states the realisation was built from. */
    ghost const initialStates: seq<CubeletState>

    /**
     * The table holds one cubelet per key of the initial states, built from the
     * state filed under that key.
     */
    ghost predicate Valid() {
      var filed := StatesByInitialLocation(initialStates);
      && cubeletsByInitialLocation.Keys == filed.Keys
      && (forall k :: k in cubeletsByInitialLocation ==>
            && cubeletsByInitialLocation[k].initialLocation == filed[k].initialLocation
            && cubeletsByInitialLocation[k].spec == spec
            && cubeletsByInitialLocation[k].solutionCondition == solutionCondition
            && cubeletsByInitialLocation[k].parts == CubeletParts(spec, solutionCondition, filed[k].initialLocation))
    }

    /** The cubelet objects, as a set. */
    function Cubelets(): set<CubeletRealisation> {
      set k | k in cubeletsByInitialLocation :: cubeletsByInitialLocation[k]
    }

    /**
     * One fresh cubelet per cubelet state, filed under `vectorId` of its initial
     * location; a later state with the same key replaces the earlier cubelet.
     * Each cubelet starts out showing the state it was built from.
     */
    constructor (spec: CubeSpecification, solutionCondition: CubeSolutionCondition, cubeState: CubeState)
      ensures Valid()
      ensures this.spec == spec && this.solutionCondition == solutionCondition
      ensures initialStates == cubeState.cubelets
      ensures forall k :: k in cubeletsByInitialLocation ==>
        cubeletsByInitialLocation[k].Shows(StatesByInitialLocation(cubeState.cubelets)[k])
    {
      var table := BuildTable(spec, solutionCondition, cubeState.cubelets);
      this.spec := spec;
      this.solutionCondition := solutionCondition;
      cubeletsByInitialLocation := table;
      initialStates := cubeState.cubelets;
    }

    /** An initial location has a cubelet exactly when it is the key of some initial state. */
    lemma KeyFiled(location: Vector)
      requires Valid()
      ensures VectorId(location) in cubeletsByInitialLocation <==> location in InitialLocations(initialStates)
      ensures VectorId(location) in cubeletsByInitialLocation ==>
        cubeletsByInitialLocation[VectorId(location)].initialLocation == location
    {
      var filed := StatesByInitialLocation(initialStates);
      FileByKeyKeys(initialStates, Key);
      FileByKeyFiled(initialStates, Key);
      forall i | 0 <= i < |initialStates|
        ensures Key(initialStates[i]) == VectorId(location) <==> initialStates[i].initialLocation == location
      {
        VectorIdInjective(initialStates[i].initialLocation, location);
      }
      if VectorId(location) in cubeletsByInitialLocation {
        var i :| 0 <= i < |initialStates| && Key(initialStates[i]) == VectorId(location);
        assert location in InitialLocations(initialStates);
        VectorIdInjective(filed[VectorId(location)].initialLocation, location);
      }
      if location in InitialLocations(initialStates) {
        var i :| 0 <= i < |initialStates| && initialStates[i].initialLocation == location;
        assert Key(initialStates[i]) in filed;
      }
    }

    /** Distinct keys hold distinct cubelet objects, so a write to one cubelet leaves the others alone. */
    lemma CubeletsDistinct()
      requires Valid()
      ensures forall k1, k2 :: k1 in cubeletsByInitialLocation && k2 in cubeletsByInitialLocation && k1 != k2 ==>
        cubeletsByInitialLocation[k1] != cubeletsByInitialLocation[k2]
    {
      FileByKeyFiled(initialStates, Key);
    }

    /**
     * `getCubelet`: the cubelet whose initial location is the given one, or
     * nothing for a location that was not among the initial cubelet states.
     */
    function GetCubelet(initialLocation: Vector): (r: Option<CubeletRealisation>)
      requires Valid()
      ensures r.Some? <==> initialLocation in InitialLocations(initialStates)
      ensures r.Some? ==> r.value in Cubelets() && r.value.initialLocation == initialLocation
    {
      KeyFiled(initialLocation);
      var key := VectorId(initialLocation);
      if key in cubeletsByInitialLocation then Some(cubeletsByInitialLocation[key]) else None
    }

    /**
     * `getCubelets`: one cubelet per distinct initial location, each built for
     * its location.
     */
    function GetCubelets(): (r: set<CubeletRealisation>)
      requires Valid()
      ensures (set c | c in r :: c.initialLocation) == InitialLocations(initialStates)
      ensures forall c1, c2 :: c1 in r && c2 in r && c1.initialLocation == c2.initialLocation ==> c1 == c2
    {
      AllCubeletsFiled();
      Cubelets()
    }

    /** `states.map(cs => getCubelet(cs.initialLocation)!)`: the cubelet of each state, in order. */
    function CubeletsFor(states: seq<CubeletState>): (r: seq<CubeletRealisation>)
      requires Valid()
      requires forall i :: 0 <= i < |states| ==> states[i].initialLocation in InitialLocations(initialStates)
      ensures |r| == |states|
      ensures forall i :: 0 <= i < |states| ==> r[i] in Cubelets() && r[i].initialLocation == states[i].initialLocation
      decreases |states|
    {
      if states == [] then []
      else [GetCubelet(states[0].initialLocation).value] + CubeletsFor(states[1..])
    }

    lemma AllCubeletsFiled()
      requires Valid()
      ensures (set c | c in Cubelets() :: c.initialLocation) == InitialLocations(initialStates)
      ensures forall c :: c in Cubelets() ==>
        VectorId(c.initialLocation) in cubeletsByInitialLocation && c == cubeletsByInitialLocation[VectorId(c.initialLocation)]
    {
      forall c | c in Cubelets()
        ensures c.initialLocation in InitialLocations(initialStates)
        ensures VectorId(c.initialLocation) in cubeletsByInitialLocation && c == cubeletsByInitialLocation[VectorId(c.initialLocation)]
      {
        var k :| k in cubeletsByInitialLocation && cubeletsByInitialLocation[k] == c;
        FileByKeyFiled(initialStates, Key);
        KeyFiled(c.initialLocation);
      }
      forall location | location in InitialLocations(initialStates)
        ensures location in (set c | c in Cubelets() :: c.initialLocation)
      {
        KeyFiled(location);
        assert cubeletsByInitialLocation[VectorId(location)] in Cubelets();
      }
    }
  }
}
