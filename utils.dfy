/**
 * The pure helpers of src/Utils.ts: the 3x3 to 4x4 matrix layout and the text
 * keys under which cubelets are filed (`vectorId`, `vector3Id`), together with
 * the small value types they work on.
 */
module Utils {

  /** True of the numbers that are whole multiples of 1/2. */
  predicate OnHalfGrid(c: real) {
    (2.0 * c).Floor as real == 2.0 * c
  }

  /**
   * A cubelet coordinate. On a cube of edge length n the coordinates run from
   * -(n-1)/2 to (n-1)/2 in steps of 1, so they are integers or halves.
   */
  type Coord = c: real | OnHalfGrid(c) witness 0.0

  /** The model library's `Vector` (initial locations and locations of cubelets). */
  datatype Vector = Vector(x: Coord, y: Coord, z: Coord) {
    /** `vector.components`, in the order x, y, z. */
    function Components(): (r: seq<real>)
      ensures |r| == 3 && r[0] == x && r[1] == y && r[2] == z
    {
      [x, y, z]
    }
  }

  /** three.js `Vector3`: any real components (positions after rotation, axes). */
  datatype Vector3 = Vector3(x: real, y: real, z: real)

  /** `Math.PI / 2` as a double; only its sign matters to the properties proved here. */
  const HALF_PI: real := 1.5707963267948966

  function Abs(r: real): real {
    if r < 0.0 then -r else r
  }

  // ---------------------------------------------------------------------------
  // Matrices
  // ---------------------------------------------------------------------------

  /** The model library's `Matrix`: `components[row][column]`. */
  datatype Matrix = Matrix(components: seq<seq<real>>)

  predicate Is3x3(m: Matrix) {
    |m.components| == 3 && forall i :: 0 <= i < 3 ==> |m.components[i]| == 3
  }

  /** An orientation of a cubelet as the model library gives it: a 3x3 matrix. */
  type Matrix3 = m: Matrix | Is3x3(m)
    witness Matrix([[1.0, 0.0, 0.0], [0.0, 1.0, 0.0], [0.0, 0.0, 1.0]])

  /** three.js `Matrix4`, as the rows passed to `Matrix4.set` (row-major). */
  datatype Matrix4 = Matrix4(rows: seq<seq<real>>)

  predicate Is4x4(m: Matrix4) {
    |m.rows| == 4 && forall i :: 0 <= i < 4 ==> |m.rows[i]| == 4
  }

  /**
   * `Utils.matrix4FromMatrix`: the 3x3 components go row-major into the upper
   * left block; the fourth row and the fourth column are all zero, the corner
   * [3][3] included.
   */
  function Matrix4FromMatrix(m: Matrix3): (r: Matrix4)
    ensures Is4x4(r)
    ensures forall i, j :: 0 <= i < 3 && 0 <= j < 3 ==> r.rows[i][j] == m.components[i][j]
    ensures forall k :: 0 <= k < 4 ==> r.rows[k][3] == 0.0 && r.rows[3][k] == 0.0
  {
    var c := m.components;
    Matrix4([[c[0][0], c[0][1], c[0][2], 0.0],
             [c[1][0], c[1][1], c[1][2], 0.0],
             [c[2][0], c[2][1], c[2][2], 0.0],
             [0.0, 0.0, 0.0, 0.0]])
  }

  /** The upper left 3x3 block of a 4x4 matrix: the part a rotation is read from. */
  function UpperLeft3x3(m: Matrix4): (r: Matrix3)
    requires Is4x4(m)
  {
    Matrix([m.rows[0][..3], m.rows[1][..3], m.rows[2][..3]])
  }

  /** Laying a 3x3 matrix out as a 4x4 one loses nothing: its rotation block is the matrix itself. */
  lemma Matrix4FromMatrixRoundTrip(m: Matrix3)
    ensures UpperLeft3x3(Matrix4FromMatrix(m)) == m
  {
    var r := UpperLeft3x3(Matrix4FromMatrix(m));
    forall i | 0 <= i < 3
      ensures r.components[i] == m.components[i]
    {
      assert |r.components[i]| == 3;
    }
  }

  // ---------------------------------------------------------------------------
  // Number text, as JavaScript prints an integer or a half
  // ---------------------------------------------------------------------------

  predicate IsDigit(c: char) {
    '0' <= c <= '9'
  }

  /** The decimal digit for 0..9. */
  function DigitChar(d: nat): (c: char)
    requires d < 10
    ensures IsDigit(c) && c as int - '0' as int == d
  {
    ('0' as int + d) as char
  }

  /** Decimal digits of a natural number, without leading zeros. */
  function NatToString(n: nat): (s: string)
    ensures |s| >= 1
    ensures forall i :: 0 <= i < |s| ==> IsDigit(s[i])
    ensures n < 10 <==> |s| == 1
    decreases n
  {
    if n < 10 then [DigitChar(n)] else NatToString(n / 10) + [DigitChar(n % 10)]
  }

  predicate NoComma(s: string) {
    forall i :: 0 <= i < |s| ==> s[i] != ','
  }

  /** The text of h/2 for a natural h: digits, then ".5" when h is odd. */
  function HalvesToString(h: nat): (s: string)
    ensures |s| >= 1
    ensures NoComma(s) && s[0] != '-'
  {
    NatToString(h / 2) + (if h % 2 == 1 then ".5" else "")
  }

  /** `${c}` for a coordinate: an optional minus sign, the digits, and ".5" for a half. */
  function NumberToString(c: Coord): (s: string)
    ensures |s| >= 1
    ensures NoComma(s)
  {
    SignedHalvesToString((2.0 * c).Floor)
  }

  /** The text of h/2 for a whole number h: a minus sign for a negative h, then the halves. */
  function SignedHalvesToString(h: int): (s: string)
    ensures |s| >= 1
    ensures NoComma(s)
  {
    if h < 0 then "-" + HalvesToString(-h) else HalvesToString(h)
  }

  /** `Utils.vectorId`: the three components, in the order X, Y, Z, joined by commas. */
  function VectorId(v: Vector): string {
    NumberToString(v.x) + "," + NumberToString(v.y) + "," + NumberToString(v.z)
  }

  /** `Utils.vector3Id`: the same format for a three.js vector with grid components. */
  function Vector3Id(v: Vector3): (r: string)
    requires OnHalfGrid(v.x) && OnHalfGrid(v.y) && OnHalfGrid(v.z)
    ensures r == VectorId(Vector(v.x, v.y, v.z))
  {
    var x: Coord, y: Coord, z: Coord := v.x, v.y, v.z;
    NumberToString(x) + "," + NumberToString(y) + "," + NumberToString(z)
  }

  // ---------------------------------------------------------------------------
  // The keys identify vectors
  // ---------------------------------------------------------------------------

  lemma {:induction false} NatToStringInjective(a: nat, b: nat)
    ensures NatToString(a) == NatToString(b) ==> a == b
    decreases a
  {
    if NatToString(a) == NatToString(b) && a >= 10 && b >= 10 {
      var sa, sb := NatToString(a / 10), NatToString(b / 10);
      assert NatToString(a) == sa + [DigitChar(a % 10)];
      assert NatToString(b) == sb + [DigitChar(b % 10)];
      assert sa == NatToString(a)[..|NatToString(a)| - 1];
      assert sb == NatToString(b)[..|NatToString(b)| - 1];
      NatToStringInjective(a / 10, b / 10);
      assert DigitChar(a % 10) == DigitChar(b % 10);
    }
  }

  /** The text of an odd number of halves ends in ".5"; that of an even number is digits only. */
  predicate EndsInHalf(s: string) {
    |s| >= 2 && s[|s| - 2] == '.'
  }

  lemma HalvesToStringParity(h: nat)
    ensures EndsInHalf(HalvesToString(h)) <==> h % 2 == 1
  {
    var s, n := HalvesToString(h), NatToString(h / 2);
    if h % 2 == 1 {
      assert s[|s| - 2] == '.';
    } else {
      assert s == n;
      assert |s| >= 2 ==> IsDigit(s[|s| - 2]);
    }
  }

  lemma HalvesToStringInjective(a: nat, b: nat)
    ensures HalvesToString(a) == HalvesToString(b) ==> a == b
  {
    var sa, sb := HalvesToString(a), HalvesToString(b);
    if sa == sb {
      HalvesToStringParity(a);
      HalvesToStringParity(b);
      assert a % 2 == b % 2;
      if a % 2 == 1 {
        assert sa[..|sa| - 2] == NatToString(a / 2);
        assert sb[..|sb| - 2] == NatToString(b / 2);
      } else {
        assert sa == NatToString(a / 2) && sb == NatToString(b / 2);
      }
      assert NatToString(a / 2) == NatToString(b / 2);
      NatToStringInjective(a / 2, b / 2);
      assert a / 2 == b / 2;
      assert a == 2 * (a / 2) + a % 2 && b == 2 * (b / 2) + b % 2;
    }
  }

  lemma SignedHalvesToStringInjective(a: int, b: int)
    ensures SignedHalvesToString(a) == SignedHalvesToString(b) ==> a == b
  {
    var sa, sb := SignedHalvesToString(a), SignedHalvesToString(b);
    if sa == sb {
      assert (a < 0) == (sa[0] == '-') && (b < 0) == (sb[0] == '-');
      if a < 0 {
        assert sa[1..] == HalvesToString(-a) && sb[1..] == HalvesToString(-b);
        HalvesToStringInjective(-a, -b);
      } else {
        HalvesToStringInjective(a, b);
      }
    }
  }

  lemma NumberToStringInjective(a: Coord, b: Coord)
    ensures NumberToString(a) == NumberToString(b) <==> a == b
  {
    var ha, hb := (2.0 * a).Floor, (2.0 * b).Floor;
    SignedHalvesToStringInjective(ha, hb);
    assert OnHalfGrid(a) && OnHalfGrid(b);
  }

  /** The text up to the first comma: the first field of a key. */
  function TakeField(s: string): string {
    if s == [] || s[0] == ',' then [] else [s[0]] + TakeField(s[1..])
  }

  /** The text after the first comma: the remaining fields of a key. */
  function DropField(s: string): string {
    if s == [] then [] else if s[0] == ',' then s[1..] else DropField(s[1..])
  }

  /** Splitting a key at its first comma gives back the field and the rest it was joined from. */
  lemma {:induction false} SplitAtComma(a: string, r: string)
    requires NoComma(a)
    ensures TakeField(a + "," + r) == a && DropField(a + "," + r) == r
  {
    if a != [] {
      assert (a + "," + r)[1..] == a[1..] + "," + r;
      SplitAtComma(a[1..], r);
    }
  }

  /** Three comma-free fields joined by commas can be split back into the same three fields. */
  lemma JoinInjective(a1: string, b1: string, c1: string, a2: string, b2: string, c2: string)
    requires NoComma(a1) && NoComma(b1) && NoComma(a2) && NoComma(b2)
    ensures a1 + "," + b1 + "," + c1 == a2 + "," + b2 + "," + c2 ==> a1 == a2 && b1 == b2 && c1 == c2
  {
    assert a1 + "," + b1 + "," + c1 == a1 + "," + (b1 + "," + c1);
    assert a2 + "," + b2 + "," + c2 == a2 + "," + (b2 + "," + c2);
    SplitAtComma(a1, b1 + "," + c1);
    SplitAtComma(a2, b2 + "," + c2);
    SplitAtComma(b1, c1);
    SplitAtComma(b2, c2);
  }

  /** Two vectors have the same key exactly when they have the same three components. */
  lemma VectorIdInjective(a: Vector, b: Vector)
    ensures VectorId(a) == VectorId(b) <==> a == b
  {
    JoinInjective(NumberToString(a.x), NumberToString(a.y), NumberToString(a.z),
                  NumberToString(b.x), NumberToString(b.y), NumberToString(b.z));
    NumberToStringInjective(a.x, b.x);
    NumberToStringInjective(a.y, b.y);
    NumberToStringInjective(a.z, b.z);
  }
}
