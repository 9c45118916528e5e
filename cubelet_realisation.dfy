/**
 * src/CubeletRealisation.ts: the scene object of one cubelet. What is kept is
 * the arithmetic that decides which meshes a cubelet gets (the face limits,
 * the sticker colour index, the sticker number and the mesh placement) and
 * the pose updates `setLocation`, `setOrientation` and `setState`. The meshes
 * themselves are recorded as `Part` values.
 */
module Cubelets {
  import opened Wrappers
  import opened Utils
  import opened Scene
  import opened CubeModel

  /** `CubeletRealisation.EDGE_LENGTH`. */
  const EDGE_LENGTH: real := 1.0

  /** The six sticker colours, indexed by `ColourIndex`. */
  const STICKER_COLOURS: seq<int> := [0xba0c2f, 0xffffff, 0x009a44, 0xfe5000, 0xffd700, 0x003da5]

  /** Depth and outward offset of a sticker (`depth = 2 * edgeRadius`) and of a number. */
  const STICKER_DEPTH: real := 0.2
  const STICKER_OUT: real := 0.005
  const NUMBER_DEPTH: real := 0.05
  const NUMBER_OUT: real := 0.01
  /** `lineOffset`: how far the line under a number sits from the number's centre. */
  const LINE_OFFSET: real := 0.28

  /**
   * The product k * c of a whole number and a number, as repeated addition, so
   * that the arithmetic below stays linear for the solver.
   */
  function Times(k: int, c: real): real
    decreases if k < 0 then -k else k
  {
    if k == 0 then 0.0 else if k > 0 then Times(k - 1, c) + c else Times(k + 1, c) - c
  }

  /** Repeated addition is multiplication. */
  lemma {:induction false} TimesIsProduct(k: int, c: real)
    ensures Times(k, c) == k as real * c
    decreases if k < 0 then -k else k
  {
    if k > 0 {
      TimesIsProduct(k - 1, c);
    } else if k < 0 {
      TimesIsProduct(k + 1, c);
    }
  }

  /** On whole numbers it is the integer product. */
  lemma {:induction false} TimesWhole(k: nat, r: int)
    ensures Times(k, r as real) == (k * r) as real
  {
    if k > 0 {
      TimesWhole(k - 1, r);
      assert (k - 1) * r + r == k * r;
    }
  }

  /** The largest coordinate of a cubelet on a cube of the given edge length. */
  function MaxComponent(spec: CubeSpecification): real {
    (spec.edgeLength as real - 1.0) / 2.0
  }

  // ---------------------------------------------------------------------------
  // Face limits
  // ---------------------------------------------------------------------------

  /** The limit of one coordinate: 1 at the positive outer layer, -1 at the negative one, else 0. */
  function Limit(max: real, c: real): int {
    if c == max then 1 else if c == -max then -1 else 0
  }

  /** `initialLocationComponentLimit`: the limit of each component of the initial location. */
  function Limits(spec: CubeSpecification, location: Vector): (r: seq<int>)
    ensures |r| == 3
    ensures forall d :: 0 <= d < 3 ==> r[d] == Limit(MaxComponent(spec), location.Components()[d])
  {
    var max := MaxComponent(spec);
    [Limit(max, location.x), Limit(max, location.y), Limit(max, location.z)]
  }

  /**
   * A limit is a direction: +1 or -1 exactly on the two outer layers of its
   * dimension, 0 inside, and +1 whenever the two outer layers coincide.
   */
  lemma LimitClassifies(max: real, c: real)
    ensures Limit(max, c) in {-1, 0, 1}
    ensures Limit(max, c) != 0 <==> c == max || c == -max
    ensures Limit(max, c) == 1 <==> c == max
    ensures Limit(max, c) == -1 <==> c == -max && max != 0.0
  {
  }

  /** On a cube of edge length 1 the single cubelet faces outward in every dimension, always as +1. */
  lemma SingleCubeletLimits(spec: CubeSpecification, location: Vector)
    requires spec.edgeLength == 1 && location == Vector(0.0, 0.0, 0.0)
    ensures Limits(spec, location) == [1, 1, 1]
  {
  }

  // ---------------------------------------------------------------------------
  // Sticker colours
  // ---------------------------------------------------------------------------

  /** `dimension + (direction === 1 ? 0 : 3)`. */
  function ColourIndex(dimension: int, direction: int): int {
    dimension + (if direction == 1 then 0 else 3)
  }

  /** The six faces take the six colour slots, one each, so no two faces share a colour. */
  lemma ColourIndexDistinct(d1: int, s1: int, d2: int, s2: int)
    requires 0 <= d1 < 3 && (s1 == 1 || s1 == -1)
    requires 0 <= d2 < 3 && (s2 == 1 || s2 == -1)
    ensures 0 <= ColourIndex(d1, s1) < |STICKER_COLOURS|
    ensures STICKER_COLOURS[ColourIndex(d1, s1)] == STICKER_COLOURS[ColourIndex(d2, s2)] <==> d1 == d2 && s1 == s2
  {
    assert forall i, j :: 0 <= i < j < 6 ==> STICKER_COLOURS[i] != STICKER_COLOURS[j];
  }

  // ---------------------------------------------------------------------------
  // Mesh placement
  // ---------------------------------------------------------------------------

  datatype RotationAxis = XAxis | YAxis

  /** The turn `rotateX` / `rotateY` gives a mesh, by an angle in radians. */
  datatype MeshTurn = MeshTurn(axis: RotationAxis, angle: real)

  datatype Placement = Placement(turn: MeshTurn, position: Vector3)

  /**
   * `positionMesh`: a mesh that starts at the origin is turned to face the
   * given side and moved out along the dimension to the cubelet's surface;
   * any dimension but 0, 1, 2 is an error.
   */
  function PositionMesh(dimension: int, direction: int, depth: real, out: real): (r: Result<Placement>)
    ensures r.Ok? <==> 0 <= dimension < 3
    ensures r.Err? ==> r.message == "Illegal dimension"
    ensures r.Ok? ==> Component(r.value.position, dimension) == Times(direction, EDGE_LENGTH / 2.0 - depth / 2.0 + out)
    ensures r.Ok? ==> forall j :: 0 <= j < 3 && j != dimension ==> Component(r.value.position, j) == 0.0
  {
    var turn :=
      if dimension == 0 then Some(MeshTurn(YAxis, direction as real * HALF_PI))
      else if dimension == 1 then Some(MeshTurn(XAxis, -direction as real * HALF_PI))
      else if dimension == 2 then Some(MeshTurn(YAxis, (1 - direction) as real * HALF_PI))
      else None;
    if turn.None? then Err("Illegal dimension")
    else
      var position := SetComponent(Vector3(0.0, 0.0, 0.0), dimension, Times(direction, EDGE_LENGTH / 2.0 - depth / 2.0 + out));
      Ok(Placement(turn.value, position.value))
  }

  // ---------------------------------------------------------------------------
  // Sticker numbers
  // ---------------------------------------------------------------------------

  /** The row and column of a sticker in the grid of its face. */
  datatype Cell = Cell(row: real, column: real)

  /** The row and column `createNumber` computes; any dimension but 0, 1, 2 is an error. */
  function NumberCell(spec: CubeSpecification, dimension: int, direction: int, location: Vector): (r: Result<Cell>)
    ensures r.Ok? <==> 0 <= dimension < 3
    ensures r.Err? ==> r.message == "Illegal dimension"
  {
    var max := MaxComponent(spec);
    if dimension == 0 then Ok(Cell(max - location.y, max - Times(direction, location.z)))
    else if dimension == 1 then Ok(Cell(max + Times(direction, location.z), max + location.x))
    else if dimension == 2 then Ok(Cell(max - location.y, max + Times(direction, location.x)))
    else Err("Illegal dimension")
  }

  /** `value = (row * edgeLength) + column + 1`. */
  function NumberValue(spec: CubeSpecification, cell: Cell): real {
    Times(spec.edgeLength, cell.row) + cell.column + 1.0
  }

  predicate IsWhole(r: real) {
    r.Floor as real == r
  }

  /** A coordinate of a cubelet: one of -(n-1)/2, ..., (n-1)/2 in steps of 1. */
  predicate InGrid(spec: CubeSpecification, c: real) {
    spec.edgeLength >= 1 && IsWhole(c + MaxComponent(spec)) && 0.0 <= c + MaxComponent(spec) <= spec.edgeLength as real - 1.0
  }

  predicate LocationInGrid(spec: CubeSpecification, location: Vector) {
    InGrid(spec, location.x) && InGrid(spec, location.y) && InGrid(spec, location.z)
  }

  /** Multiplying by a direction of 1 or -1 keeps or negates a coordinate. */
  lemma Signed(direction: int, c: real)
    requires direction == 1 || direction == -1
    ensures Times(direction, c) == (if direction == 1 then c else -c)
  {
  }

  /** The whole numbers between 0 and n - 1, read as reals. */
  predicate InIndexRange(spec: CubeSpecification, r: real) {
    IsWhole(r) && 0.0 <= r <= spec.edgeLength as real - 1.0
  }

  /** Counting a grid coordinate from either end gives an index from 0 to n - 1. */
  lemma CellComponentInRange(spec: CubeSpecification, c: real, v: real)
    requires InGrid(spec, c)
    requires v == MaxComponent(spec) + c || v == MaxComponent(spec) - c
    ensures InIndexRange(spec, v)
  {
    var k := (c + MaxComponent(spec)).Floor;
    if v == MaxComponent(spec) - c {
      var j := spec.edgeLength - 1 - k;
      assert v == j as real;
    }
  }

  /** For cubelets in the grid, the sticker's row and column are whole numbers from 0 to n - 1. */
  lemma NumberCellInRange(spec: CubeSpecification, dimension: int, direction: int, location: Vector)
    requires 0 <= dimension < 3 && (direction == 1 || direction == -1)
    requires LocationInGrid(spec, location)
    ensures NumberCell(spec, dimension, direction, location).Ok?
    ensures InIndexRange(spec, NumberCell(spec, dimension, direction, location).value.row)
    ensures InIndexRange(spec, NumberCell(spec, dimension, direction, location).value.column)
  {
    var cell := NumberCell(spec, dimension, direction, location).value;
    Signed(direction, location.x);
    Signed(direction, location.z);
    CellComponentInRange(spec, if dimension == 1 then location.z else location.y, cell.row);
    CellComponentInRange(spec, if dimension == 0 then location.z else location.x, cell.column);
  }

  lemma {:induction false} MulMonotone(a: nat, b: nat, n: nat)
    requires a <= b
    ensures a * n <= b * n
    decreases b - a
  {
    if a < b {
      MulMonotone(a, b - 1, n);
      assert b * n == (b - 1) * n + n;
    }
  }

  lemma CellIndexBounds(n: nat, r: nat, c: nat)
    requires r < n && c < n
    ensures r * n + c < n * n
  {
    MulMonotone(r, n - 1, n);
    assert (n - 1) * n + n == n * n;
  }

  lemma CellIndexInjective(n: nat, r1: nat, c1: nat, r2: nat, c2: nat)
    requires c1 < n && c2 < n
    ensures r1 * n + c1 == r2 * n + c2 <==> r1 == r2 && c1 == c2
  {
    if r1 < r2 {
      MulMonotone(r1 + 1, r2, n);
      assert (r1 + 1) * n == r1 * n + n;
    } else if r2 < r1 {
      MulMonotone(r2 + 1, r1, n);
      assert (r2 + 1) * n == r2 * n + n;
    }
  }

  /** A row and a column that are indices, as the whole numbers they are. */
  lemma CellAsIndices(spec: CubeSpecification, cell: Cell) returns (r: nat, c: nat)
    requires InIndexRange(spec, cell.row) && InIndexRange(spec, cell.column)
    ensures r < spec.edgeLength && c < spec.edgeLength
    ensures cell.row == r as real && cell.column == c as real
    ensures NumberValue(spec, cell) == (r * spec.edgeLength + c + 1) as real
  {
    r, c := cell.row.Floor, cell.column.Floor;
    TimesWhole(spec.edgeLength, r);
  }

  /** For cubelets in the grid, the sticker number lies between 1 and n * n. */
  lemma NumberValueInRange(spec: CubeSpecification, dimension: int, direction: int, location: Vector)
    requires 0 <= dimension < 3 && (direction == 1 || direction == -1)
    requires LocationInGrid(spec, location)
    ensures NumberCell(spec, dimension, direction, location).Ok?
    ensures var v := NumberValue(spec, NumberCell(spec, dimension, direction, location).value);
      IsWhole(v) && 1.0 <= v <= (spec.edgeLength * spec.edgeLength) as real
  {
    NumberCellInRange(spec, dimension, direction, location);
    var cell := NumberCell(spec, dimension, direction, location).value;
    var r, c := CellAsIndices(spec, cell);
    var n := spec.edgeLength;
    CellIndexBounds(n, r, c);
    var m := r * n + c + 1;
    assert 1 <= m <= n * n;
    assert NumberValue(spec, cell) == m as real;
    assert IsWhole(m as real);
  }

  /** Two cubelets in the same layer of a dimension: they can only differ in the other two components. */
  predicate SameLayer(dimension: int, a: Vector, b: Vector)
    requires 0 <= dimension < 3
  {
    a.Components()[dimension] == b.Components()[dimension]
  }

  /** Within one layer, the row and column of a sticker tell the cubelet. */
  lemma NumberCellDistinct(spec: CubeSpecification, dimension: int, direction: int, a: Vector, b: Vector)
    requires 0 <= dimension < 3 && (direction == 1 || direction == -1)
    requires SameLayer(dimension, a, b) && a != b
    ensures NumberCell(spec, dimension, direction, a) != NumberCell(spec, dimension, direction, b)
  {
    Signed(direction, a.x);
    Signed(direction, b.x);
    Signed(direction, a.z);
    Signed(direction, b.z);
  }

  /** On one face, distinct cubelets carry distinct sticker numbers. */
  lemma NumberValueDistinct(spec: CubeSpecification, dimension: int, direction: int, a: Vector, b: Vector)
    requires 0 <= dimension < 3 && (direction == 1 || direction == -1)
    requires LocationInGrid(spec, a) && LocationInGrid(spec, b)
    requires SameLayer(dimension, a, b) && a != b
    ensures NumberCell(spec, dimension, direction, a).Ok? && NumberCell(spec, dimension, direction, b).Ok?
    ensures NumberValue(spec, NumberCell(spec, dimension, direction, a).value)
         != NumberValue(spec, NumberCell(spec, dimension, direction, b).value)
  {
    NumberCellInRange(spec, dimension, direction, a);
    NumberCellInRange(spec, dimension, direction, b);
    NumberCellDistinct(spec, dimension, direction, a, b);
    var ra, ka := CellAsIndices(spec, NumberCell(spec, dimension, direction, a).value);
    var rb, kb := CellAsIndices(spec, NumberCell(spec, dimension, direction, b).value);
    CellIndexInjective(spec.edgeLength, ra, ka, rb, kb);
  }

  // ---------------------------------------------------------------------------
  // The parts of a cubelet
  // ---------------------------------------------------------------------------

  /** The meshes a cubelet is built from. */
  datatype Part =
    | Base
    | Sticker(dimension: int, direction: int, colour: int, placement: Placement)
    | Number(dimension: int, direction: int, value: real, placement: Placement)
    | NumberLine(dimension: int, direction: int, placement: Placement)

  /** `createSticker`: a sticker in its face's colour, placed on that face. */
  function StickerPart(dimension: DimensionIndex, direction: int): (r: Part)
    requires direction == 1 || direction == -1
    ensures r.Sticker? && r.dimension == dimension && r.direction == direction
    ensures r.colour == STICKER_COLOURS[ColourIndex(dimension, direction)]
  {
    Sticker(dimension, direction, STICKER_COLOURS[ColourIndex(dimension, direction)],
            PositionMesh(dimension, direction, STICKER_DEPTH, STICKER_OUT).value)
  }

  /**
   * `createNumber`: the number, placed like a sticker but thinner, and the line
   * under it, moved sideways within the face by `lineOffset`.
   */
  function NumberParts(spec: CubeSpecification, dimension: DimensionIndex, direction: int, location: Vector): (r: seq<Part>)
    ensures |r| == 2 && r[0].Number? && r[1].NumberLine?
    ensures r[0].dimension == dimension && r[1].dimension == dimension
    ensures r[0].value == NumberValue(spec, NumberCell(spec, dimension, direction, location).value)
  {
    var placement := PositionMesh(dimension, direction, NUMBER_DEPTH, NUMBER_OUT).value;
    var lineIndex := if dimension == 1 then 2 else 1;
    var linePosition := SetComponent(placement.position, lineIndex, (if dimension == 1 then direction else -1) as real * LINE_OFFSET).value;
    [Number(dimension, direction, NumberValue(spec, NumberCell(spec, dimension, direction, location).value), placement),
     NumberLine(dimension, direction, Placement(placement.turn, linePosition))]
  }

  /** What one turn of the constructor's dimension loop adds. */
  function DimensionParts(spec: CubeSpecification, condition: CubeSolutionCondition, location: Vector, dimension: DimensionIndex): seq<Part> {
    var limit := Limits(spec, location)[dimension];
    if limit == 0 then []
    else [StickerPart(dimension, limit)] + (if condition.strict then NumberParts(spec, dimension, limit, location) else [])
  }

  /** The parts the dimension loop has added before reaching `dimension`. */
  function PartsBelow(spec: CubeSpecification, condition: CubeSolutionCondition, location: Vector, dimension: nat): seq<Part>
    requires dimension <= 3
  {
    if dimension == 0 then []
    else PartsBelow(spec, condition, location, dimension - 1) + DimensionParts(spec, condition, location, dimension - 1)
  }

  /** The meshes of a cubelet, in the order the constructor adds them: the base first. */
  function CubeletParts(spec: CubeSpecification, condition: CubeSolutionCondition, location: Vector): seq<Part> {
    [Base] + PartsBelow(spec, condition, location, 3)
  }

  predicate HasSticker(parts: seq<Part>, d: int) {
    exists p :: p in parts && p.Sticker? && p.dimension == d
  }

  predicate HasNumber(parts: seq<Part>, d: int) {
    exists p :: p in parts && p.Number? && p.dimension == d
  }

  /** Every sticker faces the side its limit names and has that side's colour. */
  predicate StickersFaceOut(parts: seq<Part>, spec: CubeSpecification, location: Vector) {
    forall p :: p in parts && p.Sticker? ==>
      0 <= p.dimension < 3 && p.direction == Limits(spec, location)[p.dimension]
      && p.colour == STICKER_COLOURS[ColourIndex(p.dimension, p.direction)]
  }

  lemma PartsConcat(a: seq<Part>, b: seq<Part>, spec: CubeSpecification, location: Vector, d: int)
    ensures HasSticker(a + b, d) <==> HasSticker(a, d) || HasSticker(b, d)
    ensures HasNumber(a + b, d) <==> HasNumber(a, d) || HasNumber(b, d)
    ensures StickersFaceOut(a, spec, location) && StickersFaceOut(b, spec, location) ==> StickersFaceOut(a + b, spec, location)
    ensures Base !in a && Base !in b ==> Base !in a + b
  {
    assert forall p :: p in a + b <==> p in a || p in b;
  }

  lemma DimensionPartsHave(spec: CubeSpecification, condition: CubeSolutionCondition, location: Vector, dimension: DimensionIndex, d: int)
    ensures HasSticker(DimensionParts(spec, condition, location, dimension), d)
        <==> d == dimension && Limits(spec, location)[dimension] != 0
    ensures HasNumber(DimensionParts(spec, condition, location, dimension), d)
        <==> d == dimension && Limits(spec, location)[dimension] != 0 && condition.strict
    ensures StickersFaceOut(DimensionParts(spec, condition, location, dimension), spec, location)
    ensures Base !in DimensionParts(spec, condition, location, dimension)
  {
    var here := DimensionParts(spec, condition, location, dimension);
    var limit := Limits(spec, location)[dimension];
    if limit != 0 {
      assert here[0] == StickerPart(dimension, limit);
      if condition.strict {
        assert here == [StickerPart(dimension, limit)] + NumberParts(spec, dimension, limit, location);
        assert here[1] == NumberParts(spec, dimension, limit, location)[0];
      } else {
        assert here == [StickerPart(dimension, limit)];
      }
    }
  }

  lemma {:induction false} PartsBelowHave(spec: CubeSpecification, condition: CubeSolutionCondition, location: Vector, k: nat, d: int)
    requires k <= 3
    ensures HasSticker(PartsBelow(spec, condition, location, k), d) <==> 0 <= d < k && Limits(spec, location)[d] != 0
    ensures HasNumber(PartsBelow(spec, condition, location, k), d)
        <==> 0 <= d < k && Limits(spec, location)[d] != 0 && condition.strict
    ensures StickersFaceOut(PartsBelow(spec, condition, location, k), spec, location)
    ensures Base !in PartsBelow(spec, condition, location, k)
    decreases k
  {
    if k > 0 {
      PartsBelowHave(spec, condition, location, k - 1, d);
      DimensionPartsHave(spec, condition, location, k - 1, d);
      PartsConcat(PartsBelow(spec, condition, location, k - 1), DimensionParts(spec, condition, location, k - 1), spec, location, d);
    }
  }

  /**
   * The creation rule of the constructor: a cubelet gets a sticker for exactly
   * the dimensions in which it lies on an outer layer, facing that way and in
   * that face's colour, and a number on each sticker exactly when the solution
   * condition is STRICT.
   */
  lemma CubeletPartsRule(spec: CubeSpecification, condition: CubeSolutionCondition, location: Vector, d: int)
    ensures CubeletParts(spec, condition, location)[0] == Base
    ensures HasSticker(CubeletParts(spec, condition, location), d) <==> 0 <= d < 3 && Limits(spec, location)[d] != 0
    ensures HasNumber(CubeletParts(spec, condition, location), d)
        <==> 0 <= d < 3 && Limits(spec, location)[d] != 0 && condition.strict
    ensures StickersFaceOut(CubeletParts(spec, condition, location), spec, location)
  {
    PartsBelowHave(spec, condition, location, 3, d);
    PartsConcat([Base], PartsBelow(spec, condition, location, 3), spec, location, d);
  }

  /** How far a sticker, number or number line sits out from the cubelet's centre, towards the side it faces. */
  function Outward(p: Part): real
    requires !p.Base? && 0 <= p.dimension < 3
  {
    Times(p.direction, Component(p.placement.position, p.dimension))
  }

  /** Every part but the base comes from one turn of the dimension loop. */
  lemma {:induction false} PartFromDimension(spec: CubeSpecification, condition: CubeSolutionCondition, location: Vector, k: nat, p: Part)
    returns (d: DimensionIndex)
    requires k <= 3 && p in PartsBelow(spec, condition, location, k)
    ensures d < k && p in DimensionParts(spec, condition, location, d)
    decreases k
  {
    if p in PartsBelow(spec, condition, location, k - 1) {
      d := PartFromDimension(spec, condition, location, k - 1, p);
    } else {
      d := k - 1;
    }
  }

  /** The parts one turn of the loop adds face that turn's side and sit as far out as their depth and offset put them. */
  lemma DimensionPartPlaced(spec: CubeSpecification, condition: CubeSolutionCondition, location: Vector, d: DimensionIndex, p: Part)
    requires p in DimensionParts(spec, condition, location, d)
    ensures !p.Base? && p.dimension == d && p.direction == Limits(spec, location)[d]
    ensures p.Sticker? ==> Outward(p) == EDGE_LENGTH / 2.0 - STICKER_DEPTH / 2.0 + STICKER_OUT
    ensures p.Number? || p.NumberLine? ==> Outward(p) == EDGE_LENGTH / 2.0 - NUMBER_DEPTH / 2.0 + NUMBER_OUT
  {
    var limit := Limits(spec, location)[d];
    LimitClassifies(MaxComponent(spec), location.Components()[d]);
    Signed(limit, EDGE_LENGTH / 2.0 - STICKER_DEPTH / 2.0 + STICKER_OUT);
    Signed(limit, EDGE_LENGTH / 2.0 - NUMBER_DEPTH / 2.0 + NUMBER_OUT);
    Signed(limit, Times(limit, EDGE_LENGTH / 2.0 - STICKER_DEPTH / 2.0 + STICKER_OUT));
    Signed(limit, Times(limit, EDGE_LENGTH / 2.0 - NUMBER_DEPTH / 2.0 + NUMBER_OUT));
    var parts := DimensionParts(spec, condition, location, d);
    if condition.strict {
      assert parts == [StickerPart(d, limit)] + NumberParts(spec, d, limit, location);
      assert p == parts[0] || p == parts[1] || p == parts[2];
    }
  }

  /**
   * Every sticker of a cubelet faces outward on its own side and stands out of
   * the cubelet's body: its outer surface lies beyond the body's, which is
   * half an edge from the centre.
   */
  lemma StickersStandProud(spec: CubeSpecification, condition: CubeSolutionCondition, location: Vector, s: Part)
    requires s in CubeletParts(spec, condition, location) && s.Sticker?
    ensures 0 <= s.dimension < 3 && s.direction == Limits(spec, location)[s.dimension]
    ensures Outward(s) > 0.0 && Outward(s) + STICKER_DEPTH / 2.0 > EDGE_LENGTH / 2.0
  {
    var d := PartFromDimension(spec, condition, location, 3, s);
    DimensionPartPlaced(spec, condition, location, d, s);
  }

  /**
   * A number and the line under it lie on the same side as the sticker of
   * their dimension and stand out of it: their outer surface lies beyond the
   * sticker's.
   */
  lemma NumbersStandOnStickers(spec: CubeSpecification, condition: CubeSolutionCondition, location: Vector, s: Part, n: Part)
    requires s in CubeletParts(spec, condition, location) && s.Sticker?
    requires n in CubeletParts(spec, condition, location) && (n.Number? || n.NumberLine?) && n.dimension == s.dimension
    ensures 0 <= s.dimension < 3 && n.direction == s.direction
    ensures Outward(n) + NUMBER_DEPTH / 2.0 > Outward(s) + STICKER_DEPTH / 2.0
  {
    var ds := PartFromDimension(spec, condition, location, 3, s);
    var dn := PartFromDimension(spec, condition, location, 3, n);
    DimensionPartPlaced(spec, condition, location, ds, s);
    DimensionPartPlaced(spec, condition, location, dn, n);
  }

  // ---------------------------------------------------------------------------
  // Poses
  // ---------------------------------------------------------------------------

  /** `position.set(location.getX(), location.getY(), location.getZ())`. */
  function LocationPoint(location: Vector): Point {
    At(Vector3(location.x, location.y, location.z))
  }

  /** `quaternion.setFromRotationMatrix(Utils.matrix4FromMatrix(orientation))`. */
  function OrientationQuaternion(orientation: Matrix3): Quaternion {
    FromRotationMatrix(Matrix4FromMatrix(orientation))
  }

  /**
   * A pose tells its state: distinct locations give distinct positions, whose
   * `vector3Id` is the location's `vectorId`, and distinct orientations give
   * distinct quaternions, from whose matrix the orientation reads back.
   */
  lemma PoseDeterminesState(a: CubeletState, b: CubeletState)
    ensures LocationPoint(a.location) == LocationPoint(b.location) <==> a.location == b.location
    ensures OrientationQuaternion(a.orientation) == OrientationQuaternion(b.orientation) <==> a.orientation == b.orientation
    ensures Vector3Id(LocationPoint(a.location).coordinates) == VectorId(a.location)
  {
    Matrix4FromMatrixRoundTrip(a.orientation);
    Matrix4FromMatrixRoundTrip(b.orientation);
  }

  /** The scene object of one cubelet. */
  class CubeletRealisation {
    const spec: CubeSpecification
    const solutionCondition: CubeSolutionCondition
    /** Fixed at construction: the key the cubelet is found under. */
    const initialLocation: Vector
    /** The meshes added to the group, in order. */
    const parts: seq<Part>
    var position: Point
    var quaternion: Quaternion

    /** The cubelet is drawn in the given state. */
    predicate Shows(s: CubeletState)
      reads this
    {
      position == LocationPoint(s.location) && quaternion == OrientationQuaternion(s.orientation)
    }

    constructor (spec: CubeSpecification, solutionCondition: CubeSolutionCondition, cubeletState: CubeletState)
      ensures this.spec == spec && this.solutionCondition == solutionCondition
      ensures initialLocation == cubeletState.initialLocation
      ensures parts == CubeletParts(spec, solutionCondition, cubeletState.initialLocation)
      ensures Shows(cubeletState)
    {
      this.spec := spec;
      this.solutionCondition := solutionCondition;
      initialLocation := cubeletState.initialLocation;
      var limits := Limits(spec, cubeletState.initialLocation);
      var added := [Base];
      for dimension := 0 to 3
        invariant added == [Base] + PartsBelow(spec, solutionCondition, cubeletState.initialLocation, dimension)
      {
        if limits[dimension] != 0 {
          added := added + [StickerPart(dimension, limits[dimension])];
          if solutionCondition.strict {
            added := added + NumberParts(spec, dimension, limits[dimension], cubeletState.initialLocation);
          }
        }
      }
      parts := added;
      position := At(Vector3(0.0, 0.0, 0.0));
      quaternion := IdentityQuaternion;
      new;
      SetState(cubeletState);
    }

    /** `setLocation`: the position becomes the location's x, y, z; the orientation is kept. */
    method SetLocation(location: Vector)
      modifies this`position
      ensures position == LocationPoint(location)
      ensures quaternion == old(quaternion)
    {
      position := At(Vector3(location.x, location.y, location.z));
    }

    /** `setOrientation`: the quaternion is read from the orientation laid out as a 4x4 matrix. */
    method SetOrientation(orientation: Matrix3)
      modifies this`quaternion
      ensures quaternion == OrientationQuaternion(orientation)
      ensures position == old(position)
    {
      quaternion := FromRotationMatrix(Matrix4FromMatrix(orientation));
    }

    /** `Object3D.applyQuaternion`: the rotation is applied after the current orientation. */
    method ApplyQuaternion(q: Quaternion)
      modifies this`quaternion
      ensures quaternion == ApplyToOrientation(q, old(quaternion))
    {
      quaternion := ApplyToOrientation(q, quaternion);
    }

    /** `position.applyQuaternion`: the position is rotated about the cube's centre. */
    method ApplyQuaternionToPosition(q: Quaternion)
      modifies this`position
      ensures position == ApplyToPoint(q, old(position))
    {
      position := ApplyToPoint(q, position);
    }

    /** `setState`: afterwards the cubelet shows exactly the new state. */
    method SetState(newState: CubeletState)
      modifies this`position, this`quaternion
      ensures Shows(newState)
    {
      SetLocation(newState.location);
      SetOrientation(newState.orientation);
    }
  }
}
