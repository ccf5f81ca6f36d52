/**
 * The scalar reference routines of test.cpp, which the vector back-ends
 * are measured against.  They work on plain float arrays: a matrix is
 * sixteen floats row by row (the layout of a Matrix's four row vectors), a
 * vector or quaternion is three or four floats with w in slot 3.  Each
 * routine is proved equal to the back-end operation it stands in for.
 */
module NaiveReference {
  import opened GenericVecmath
  import Matrices
  import Vector3
  import Quaternions

  // ---------------------------------------------------------------------
  // Sixteen floats as a matrix
  // ---------------------------------------------------------------------

  /** A matrix's entries row by row: slot i * 4 + j holds entry (i, j). */
  function Flat(m: Mat4): (a: seq<real>)
    ensures |a| == 16
  {
    seq(16, n requires 0 <= n < 16 => At(m, n / 4, n % 4))
  }

  /** Slot i * 4 + j of Flat(m) is entry (i, j). */
  lemma FlatEntry(m: Mat4, i: nat, j: nat)
    requires i < 4 && j < 4
    ensures Flat(m)[i * 4 + j] == At(m, i, j)
  {
    assert (i * 4 + j) / 4 == i && (i * 4 + j) % 4 == j;
  }

  /** Sixteen floats read back as four row vectors. */
  function Unflat(a: seq<real>): (m: Mat4)
    requires |a| == 16
    ensures forall i, j | 0 <= i < 4 && 0 <= j < 4 :: At(m, i, j) == a[i * 4 + j]
  {
    [Vec4(a[0], a[1], a[2], a[3]), Vec4(a[4], a[5], a[6], a[7]),
     Vec4(a[8], a[9], a[10], a[11]), Vec4(a[12], a[13], a[14], a[15])]
  }

  /** The two layouts describe the same thing. */
  lemma FlatRoundTrip(m: Mat4, a: seq<real>)
    requires |a| == 16
    ensures Unflat(Flat(m)) == m
    ensures Flat(Unflat(a)) == a
  {
    var u := Unflat(Flat(m));
    assert u[0] == m[0] && u[1] == m[1] && u[2] == m[2] && u[3] == m[3];
    FlatEqual(Flat(Unflat(a)), a);
  }

  /** Sixteen equal entries make equal flat matrices. */
  lemma FlatEqual(a: seq<real>, b: seq<real>)
    requires |a| == 16 && |b| == 16
    requires a[0] == b[0] && a[1] == b[1] && a[2] == b[2] && a[3] == b[3] && a[4] == b[4] && a[5] == b[5] &&
      a[6] == b[6] && a[7] == b[7] && a[8] == b[8] && a[9] == b[9] && a[10] == b[10] && a[11] == b[11] &&
      a[12] == b[12] && a[13] == b[13] && a[14] == b[14] && a[15] == b[15]
    ensures a == b
  {
    forall n | 0 <= n < 16
      ensures a[n] == b[n]
    {
      assert n == 0 || n == 1 || n == 2 || n == 3 || n == 4 || n == 5 || n == 6 || n == 7 ||
        n == 8 || n == 9 || n == 10 || n == 11 || n == 12 || n == 13 || n == 14 || n == 15;
    }
  }

  /** Row r of e times column c of x, over flat matrices. */
  function RowCol(e: seq<real>, x: seq<real>, r: nat, c: nat): real
    requires |e| == 16 && |x| == 16 && r < 4 && c < 4
  {
    e[r * 4] * x[c] + e[r * 4 + 1] * x[4 + c] + e[r * 4 + 2] * x[8 + c] + e[r * 4 + 3] * x[12 + c]
  }

  /** The product e x over flat matrices. */
  function FlatProduct(e: seq<real>, x: seq<real>): (p: seq<real>)
    requires |e| == 16 && |x| == 16
    ensures |p| == 16
  {
    seq(16, n requires 0 <= n < 16 => RowCol(e, x, n / 4, n % 4))
  }

  /** One entry of the flat product. */
  lemma FlatProductEntry(e: seq<real>, x: seq<real>, r: nat, c: nat)
    requires |e| == 16 && |x| == 16 && r < 4 && c < 4
    ensures FlatProduct(e, x)[r * 4 + c] == RowCol(e, x, r, c)
  {
    assert (r * 4 + c) / 4 == r && (r * 4 + c) % 4 == c;
  }

  /** The flat product is the back-end's matrix product. */
  lemma FlatProductIsProduct(e: seq<real>, x: seq<real>)
    requires |e| == 16 && |x| == 16
    ensures Unflat(FlatProduct(e, x)) == MatrixProduct(Unflat(e), Unflat(x))
  {
    var p := Unflat(FlatProduct(e, x));
    var q := MatrixProduct(Unflat(e), Unflat(x));
    forall i, j | 0 <= i < 4 && 0 <= j < 4
      ensures At(p, i, j) == At(q, i, j)
    {
      FlatProductEntry(e, x, i, j);
      ProductEntry(e, x, i, j);
    }
    Matrices.EntriesEqual(p, q);
  }

  /** Entry (i, j) of the product of the read-back matrices. */
  lemma ProductEntry(e: seq<real>, x: seq<real>, i: nat, j: nat)
    requires |e| == 16 && |x| == 16 && i < 4 && j < 4
    ensures At(MatrixProduct(Unflat(e), Unflat(x)), i, j) == RowCol(e, x, i, j)
  {
    RowColIsDot(e, x, i, j);
  }

  /** RowCol is row i of Unflat(e) dotted with column j of Unflat(x). */
  lemma RowColIsDot(e: seq<real>, x: seq<real>, i: nat, j: nat)
    requires |e| == 16 && |x| == 16 && i < 4 && j < 4
    ensures RowCol(e, x, i, j) == Dot4Value(Unflat(e)[i], Col(Unflat(x), j))
  {
    var m1, m2 := Unflat(e), Unflat(x);
    assert m1[i] == Vec4(e[i * 4], e[i * 4 + 1], e[i * 4 + 2], e[i * 4 + 3]) by {
      assert At(m1, i, 0) == e[i * 4] && At(m1, i, 1) == e[i * 4 + 1];
      assert At(m1, i, 2) == e[i * 4 + 2] && At(m1, i, 3) == e[i * 4 + 3];
    }
    assert Col(m2, j) == Vec4(x[j], x[4 + j], x[8 + j], x[12 + j]) by {
      assert At(m2, 0, j) == x[j] && At(m2, 1, j) == x[4 + j];
      assert At(m2, 2, j) == x[8 + j] && At(m2, 3, j) == x[12 + j];
      Matrices.ColLane(m2, 0, j);
      Matrices.ColLane(m2, 1, j);
      Matrices.ColLane(m2, 2, j);
      Matrices.ColLane(m2, 3, j);
    }
  }

  // ---------------------------------------------------------------------
  // naiveMatrixMultiply
  // ---------------------------------------------------------------------

  /** The first k terms of entry (i, j): the sum over l < k of input[l][j] other[i][l]. */
  function PartialEntry(input: seq<real>, other: seq<real>, i: nat, j: nat, k: nat): real
    requires |input| == 16 && |other| == 16 && i < 4 && j < 4 && k <= 4
  {
    if k == 0 then 0.0
    else PartialEntry(input, other, i, j, k - 1) + input[(k - 1) * 4 + j] * other[i * 4 + k - 1]
  }

  /** All four terms make row i of `other` times column j of `input`. */
  lemma FullEntry(input: seq<real>, other: seq<real>, i: nat, j: nat)
    requires |input| == 16 && |other| == 16 && i < 4 && j < 4
    ensures PartialEntry(input, other, i, j, 4) == RowCol(other, input, i, j)
  {
    assert PartialEntry(input, other, i, j, 1) == input[j] * other[i * 4];
    assert PartialEntry(input, other, i, j, 2) == input[j] * other[i * 4] + input[4 + j] * other[i * 4 + 1];
    assert PartialEntry(input, other, i, j, 3) == input[j] * other[i * 4] + input[4 + j] * other[i * 4 + 1]
      + input[8 + j] * other[i * 4 + 2];
  }

  /**
   * naiveMatrixMultiply(output, input, other): entry (i, j) accumulates
   * input[k][j] other[i][k] over k, so the result is other times input.
   */
  method NaiveMatrixMultiply(output: array<real>, input: array<real>, other: array<real>)
    requires output.Length == 16 && input.Length == 16 && other.Length == 16
    requires output != input && output != other
    modifies output
    ensures output[..] == FlatProduct(other[..], input[..])
  {
    for i := 0 to 4
      invariant forall r, c | 0 <= r < i && 0 <= c < 4 :: output[r * 4 + c] == RowCol(other[..], input[..], r, c)
    {
      for j := 0 to 4
        invariant forall r, c | 0 <= r < 4 && 0 <= c < 4 && (r < i || (r == i && c < j)) ::
          output[r * 4 + c] == RowCol(other[..], input[..], r, c)
      {
        output[i * 4 + j] := 0.0;
        for k := 0 to 4
          invariant output[i * 4 + j] == PartialEntry(input[..], other[..], i, j, k)
          invariant forall r, c | 0 <= r < 4 && 0 <= c < 4 && (r < i || (r == i && c < j)) ::
            output[r * 4 + c] == RowCol(other[..], input[..], r, c)
        {
          output[i * 4 + j] := output[i * 4 + j] + input[k * 4 + j] * other[i * 4 + k];
        }
        FullEntry(input[..], other[..], i, j);
      }
    }
    ghost var p := FlatProduct(other[..], input[..]);
    forall n | 0 <= n < 16
      ensures output[n] == p[n]
    {
      FlatProductEntry(other[..], input[..], n / 4, n % 4);
    }
    assert output[..] == p;
  }

  // ---------------------------------------------------------------------
  // naiveCrossProduct, naiveQuatMul, naiveQuatRotate
  // ---------------------------------------------------------------------

  /** Slots 0-2 of a float array as a vector with lane 3 zero. */
  function Xyz(a: seq<real>): Vec4
    requires |a| >= 3
  {
    Vec4(a[0], a[1], a[2], 0.0)
  }

  /** Slots 0-3 of a float array as a vector. */
  function Xyzw(a: seq<real>): Vec4
    requires |a| >= 4
  {
    Vec4(a[0], a[1], a[2], a[3])
  }

  /**
   * naiveCrossProduct: the three lanes are computed before any is stored,
   * so the output may be either input; slot 3 and beyond are untouched.
   */
  method NaiveCrossProduct(output: array<real>, v1: array<real>, v2: array<real>)
    requires output.Length >= 3 && v1.Length >= 3 && v2.Length >= 3
    modifies output
    ensures Xyz(output[..]) == Cross3(Xyz(old(v1[..])), Xyz(old(v2[..])))
    ensures forall k | 3 <= k < output.Length :: output[k] == old(output[k])
  {
    ghost var c := Cross3(Xyz(v1[..]), Xyz(v2[..]));
    var out0 := v1[1] * v2[2] - v1[2] * v2[1];
    var out1 := v1[2] * v2[0] - v1[0] * v2[2];
    var out2 := v1[0] * v2[1] - v1[1] * v2[0];
    assert c == Vec4(out0, out1, out2, 0.0);
    output[0] := out0;
    output[1] := out1;
    output[2] := out2;
    assert Xyz(output[..]) == Vec4(out0, out1, out2, 0.0);
  }

  /**
   * naiveQuatMul: the Hamilton product with w in slot 3, which is also the
   * back-end's eight-multiplication quatMul.  All four lanes are computed
   * before any is stored, so the output may be either input.
   */
  method NaiveQuatMul(output: array<real>, a: array<real>, b: array<real>)
    requires output.Length >= 4 && a.Length >= 4 && b.Length >= 4
    modifies output
    ensures Xyzw(output[..]) == HamiltonProduct(Xyzw(old(a[..])), Xyzw(old(b[..])))
    ensures Xyzw(output[..]) == QuatMul(Xyzw(old(a[..])), Xyzw(old(b[..])))
    ensures forall k | 4 <= k < output.Length :: output[k] == old(output[k])
  {
    ghost var qa, qb := Xyzw(a[..]), Xyzw(b[..]);
    var a0, a1, a2, a3 := a[0], a[1], a[2], a[3];
    var b0, b1, b2, b3 := b[0], b[1], b[2], b[3];
    assert qa == Vec4(a0, a1, a2, a3) && qb == Vec4(b0, b1, b2, b3);
    var w := a3 * b3 - a0 * b0 - a1 * b1 - a2 * b2;
    var x := a0 * b3 + a3 * b0 + a1 * b2 - a2 * b1;
    var y := a1 * b3 + a3 * b1 + a2 * b0 - a0 * b2;
    var z := a2 * b3 + a3 * b2 + a0 * b1 - a1 * b0;
    assert HamiltonProduct(qa, qb) == Vec4(x, y, z, w);
    output[0] := x;
    output[1] := y;
    output[2] := z;
    output[3] := w;
    assert Xyzw(output[..]) == Vec4(x, y, z, w);
    QuatMulIsHamilton(qa, qb);
  }

  /** The conjugate (-x, -y, -z, w). */
  function Conj(q: Vec4): Vec4
  {
    Vec4(-q.x, -q.y, -q.z, q.w)
  }

  /**
   * naiveQuatRotate: (a b) conj(a) through two local buffers, so the output
   * may be either input.  For a unit a this is the back-end's quatRotateVec.
   */
  method NaiveQuatRotate(output: array<real>, a: array<real>, b: array<real>)
    requires output.Length >= 4 && a.Length >= 4 && b.Length >= 4
    modifies output
    ensures Xyzw(output[..]) == HamiltonProduct(HamiltonProduct(Xyzw(old(a[..])), Xyzw(old(b[..]))), Conj(Xyzw(old(a[..]))))
    ensures Dot4Value(Xyzw(old(a[..])), Xyzw(old(a[..]))) == 1.0 ==>
      Xyzw(output[..]) == QuatRotateVec(Xyzw(old(a[..])), Xyzw(old(b[..])))
    ensures forall k | 4 <= k < output.Length :: output[k] == old(output[k])
  {
    var q, v := Xyzw(a[..]), Xyzw(b[..]);
    var conjugate := new real[4];
    var temp := new real[4];
    conjugate[0] := -a[0];
    conjugate[1] := -a[1];
    conjugate[2] := -a[2];
    conjugate[3] := a[3];
    assert Xyzw(conjugate[..]) == Conj(q);
    NaiveQuatMul(temp, a, b);
    NaiveQuatMul(output, temp, conjugate);
    if Dot4Value(q, q) == 1.0 {
      SandwichIsRotation(q, v);
    }
  }

  /*
   * For a quaternion q = (x, y, z, w), v = (a, b, c, d) and p = q v, each lane
   * of p conj(q) is first multiplied out over scalars, then rewritten with
   * |q| = 1 into the rotation formula's lane.  The steps are separate lemmas
   * so that each one sees only the products it needs.
   */

  /** Lane x of q v conj(q) multiplied out, before |q| = 1 is used. */
  function SandwichPolyX(x: real, y: real, z: real, w: real, a: real, b: real, c: real): real
  {
    a * (w * w + x * x - y * y - z * z) + 2.0 * b * (x * y - w * z) + 2.0 * c * (w * y + x * z)
  }

  /** Lane x of p conj(q), multiplied out. */
  lemma SandwichExpandX(x: real, y: real, z: real, w: real, a: real, b: real, c: real, d: real, px: real, py: real, pz: real, pw: real)
    requires px == x * d + w * a + y * c - z * b && py == y * d + w * b + z * a - x * c
    requires pz == z * d + w * c + x * b - y * a && pw == w * d - x * a - y * b - z * c
    ensures HamiltonX(Vec4(px, py, pz, pw), Conj(Vec4(x, y, z, w))) ==
      a * (w * w + x * x - y * y - z * z) + 2.0 * b * (x * y - w * z) + 2.0 * c * (w * y + x * z)
  {
  }

  lemma SandwichExpandedX(x: real, y: real, z: real, w: real, a: real, b: real, c: real, d: real)
    ensures HamiltonProduct(HamiltonProduct(Vec4(x, y, z, w), Vec4(a, b, c, d)), Conj(Vec4(x, y, z, w))).x ==
      SandwichPolyX(x, y, z, w, a, b, c)
  {
    var v, u := Vec4(x, y, z, w), Vec4(a, b, c, d);
    var p := HamiltonProduct(v, u);
    assert p == Vec4(HamiltonX(v, u), HamiltonY(v, u), HamiltonZ(v, u), HamiltonW(v, u));
    SandwichExpandX(x, y, z, w, a, b, c, d, HamiltonX(v, u), HamiltonY(v, u), HamiltonZ(v, u), HamiltonW(v, u));
    assert HamiltonProduct(p, Conj(v)).x == HamiltonX(p, Conj(v));
  }

  /** With |q| = 1, the multiplied-out lane is the rotation formula's lane. */
  lemma SandwichUnitX(x: real, y: real, z: real, w: real, a: real, b: real, c: real, d: real)
    requires x * x + y * y + z * z + w * w == 1.0
    ensures SandwichPolyX(x, y, z, w, a, b, c) == RotationFormula(Vec4(x, y, z, w), Vec4(a, b, c, d)).x
  {
    RotationLaneX(x, y, z, w, a, b, c, d);
    assert a * (w * w) == a * (1.0 - (x * x + y * y + z * z));
  }

  lemma SandwichLaneX(x: real, y: real, z: real, w: real, a: real, b: real, c: real, d: real)
    requires x * x + y * y + z * z + w * w == 1.0
    ensures HamiltonProduct(HamiltonProduct(Vec4(x, y, z, w), Vec4(a, b, c, d)), Conj(Vec4(x, y, z, w))).x ==
      RotationFormula(Vec4(x, y, z, w), Vec4(a, b, c, d)).x
  {
    SandwichExpandedX(x, y, z, w, a, b, c, d);
    SandwichUnitX(x, y, z, w, a, b, c, d);
  }

  /** Lane y of q v conj(q) multiplied out, before |q| = 1 is used. */
  function SandwichPolyY(x: real, y: real, z: real, w: real, a: real, b: real, c: real): real
  {
    b * (w * w + y * y - z * z - x * x) + 2.0 * c * (y * z - w * x) + 2.0 * a * (w * z + y * x)
  }

  /** Lane y of p conj(q), multiplied out. */
  lemma SandwichExpandY(x: real, y: real, z: real, w: real, a: real, b: real, c: real, d: real, px: real, py: real, pz: real, pw: real)
    requires px == x * d + w * a + y * c - z * b && py == y * d + w * b + z * a - x * c
    requires pz == z * d + w * c + x * b - y * a && pw == w * d - x * a - y * b - z * c
    ensures HamiltonY(Vec4(px, py, pz, pw), Conj(Vec4(x, y, z, w))) ==
      b * (w * w + y * y - z * z - x * x) + 2.0 * c * (y * z - w * x) + 2.0 * a * (w * z + y * x)
  {
  }

  lemma SandwichExpandedY(x: real, y: real, z: real, w: real, a: real, b: real, c: real, d: real)
    ensures HamiltonProduct(HamiltonProduct(Vec4(x, y, z, w), Vec4(a, b, c, d)), Conj(Vec4(x, y, z, w))).y ==
      SandwichPolyY(x, y, z, w, a, b, c)
  {
    var v, u := Vec4(x, y, z, w), Vec4(a, b, c, d);
    var p := HamiltonProduct(v, u);
    assert p == Vec4(HamiltonX(v, u), HamiltonY(v, u), HamiltonZ(v, u), HamiltonW(v, u));
    SandwichExpandY(x, y, z, w, a, b, c, d, HamiltonX(v, u), HamiltonY(v, u), HamiltonZ(v, u), HamiltonW(v, u));
    assert HamiltonProduct(p, Conj(v)).y == HamiltonY(p, Conj(v));
  }

  /** With |q| = 1, the multiplied-out lane is the rotation formula's lane. */
  lemma SandwichUnitY(x: real, y: real, z: real, w: real, a: real, b: real, c: real, d: real)
    requires x * x + y * y + z * z + w * w == 1.0
    ensures SandwichPolyY(x, y, z, w, a, b, c) == RotationFormula(Vec4(x, y, z, w), Vec4(a, b, c, d)).y
  {
    RotationLaneY(x, y, z, w, a, b, c, d);
    assert b * (w * w) == b * (1.0 - (x * x + y * y + z * z));
  }

  lemma SandwichLaneY(x: real, y: real, z: real, w: real, a: real, b: real, c: real, d: real)
    requires x * x + y * y + z * z + w * w == 1.0
    ensures HamiltonProduct(HamiltonProduct(Vec4(x, y, z, w), Vec4(a, b, c, d)), Conj(Vec4(x, y, z, w))).y ==
      RotationFormula(Vec4(x, y, z, w), Vec4(a, b, c, d)).y
  {
    SandwichExpandedY(x, y, z, w, a, b, c, d);
    SandwichUnitY(x, y, z, w, a, b, c, d);
  }

  /** Lane z of q v conj(q) multiplied out, before |q| = 1 is used. */
  function SandwichPolyZ(x: real, y: real, z: real, w: real, a: real, b: real, c: real): real
  {
    c * (w * w + z * z - x * x - y * y) + 2.0 * a * (z * x - w * y) + 2.0 * b * (w * x + z * y)
  }

  /** Lane z of p conj(q), multiplied out. */
  lemma SandwichExpandZ(x: real, y: real, z: real, w: real, a: real, b: real, c: real, d: real, px: real, py: real, pz: real, pw: real)
    requires px == x * d + w * a + y * c - z * b && py == y * d + w * b + z * a - x * c
    requires pz == z * d + w * c + x * b - y * a && pw == w * d - x * a - y * b - z * c
    ensures HamiltonZ(Vec4(px, py, pz, pw), Conj(Vec4(x, y, z, w))) ==
      c * (w * w + z * z - x * x - y * y) + 2.0 * a * (z * x - w * y) + 2.0 * b * (w * x + z * y)
  {
  }

  lemma SandwichExpandedZ(x: real, y: real, z: real, w: real, a: real, b: real, c: real, d: real)
    ensures HamiltonProduct(HamiltonProduct(Vec4(x, y, z, w), Vec4(a, b, c, d)), Conj(Vec4(x, y, z, w))).z ==
      SandwichPolyZ(x, y, z, w, a, b, c)
  {
    var v, u := Vec4(x, y, z, w), Vec4(a, b, c, d);
    var p := HamiltonProduct(v, u);
    assert p == Vec4(HamiltonX(v, u), HamiltonY(v, u), HamiltonZ(v, u), HamiltonW(v, u));
    SandwichExpandZ(x, y, z, w, a, b, c, d, HamiltonX(v, u), HamiltonY(v, u), HamiltonZ(v, u), HamiltonW(v, u));
    assert HamiltonProduct(p, Conj(v)).z == HamiltonZ(p, Conj(v));
  }

  /** With |q| = 1, the multiplied-out lane is the rotation formula's lane. */
  lemma SandwichUnitZ(x: real, y: real, z: real, w: real, a: real, b: real, c: real, d: real)
    requires x * x + y * y + z * z + w * w == 1.0
    ensures SandwichPolyZ(x, y, z, w, a, b, c) == RotationFormula(Vec4(x, y, z, w), Vec4(a, b, c, d)).z
  {
    RotationLaneZ(x, y, z, w, a, b, c, d);
    assert c * (w * w) == c * (1.0 - (x * x + y * y + z * z));
  }

  lemma SandwichLaneZ(x: real, y: real, z: real, w: real, a: real, b: real, c: real, d: real)
    requires x * x + y * y + z * z + w * w == 1.0
    ensures HamiltonProduct(HamiltonProduct(Vec4(x, y, z, w), Vec4(a, b, c, d)), Conj(Vec4(x, y, z, w))).z ==
      RotationFormula(Vec4(x, y, z, w), Vec4(a, b, c, d)).z
  {
    SandwichExpandedZ(x, y, z, w, a, b, c, d);
    SandwichUnitZ(x, y, z, w, a, b, c, d);
  }

  /** Lane w of p conj(q), multiplied out: v's w times |q|^2. */
  lemma SandwichExpandW(x: real, y: real, z: real, w: real, a: real, b: real, c: real, d: real, px: real, py: real, pz: real, pw: real)
    requires px == x * d + w * a + y * c - z * b && py == y * d + w * b + z * a - x * c
    requires pz == z * d + w * c + x * b - y * a && pw == w * d - x * a - y * b - z * c
    ensures HamiltonW(Vec4(px, py, pz, pw), Conj(Vec4(x, y, z, w))) == d * (x * x + y * y + z * z + w * w)
  {
  }

  /** Lane w of p conj(q) is v's w for a unit q. */
  lemma SandwichLaneW(x: real, y: real, z: real, w: real, a: real, b: real, c: real, d: real)
    requires x * x + y * y + z * z + w * w == 1.0
    ensures HamiltonProduct(HamiltonProduct(Vec4(x, y, z, w), Vec4(a, b, c, d)), Conj(Vec4(x, y, z, w))).w == d
  {
    var v, u := Vec4(x, y, z, w), Vec4(a, b, c, d);
    SandwichExpandW(x, y, z, w, a, b, c, d, HamiltonX(v, u), HamiltonY(v, u), HamiltonZ(v, u), HamiltonW(v, u));
  }

  /** For a unit q, q v conj(q) is the closed rotation formula. */
  lemma SandwichIsFormula(q: Vec4, v: Vec4)
    requires Dot4Value(q, q) == 1.0
    ensures HamiltonProduct(HamiltonProduct(q, v), Conj(q)) == RotationFormula(q, v)
  {
    assert q == Vec4(q.x, q.y, q.z, q.w) && v == Vec4(v.x, v.y, v.z, v.w);
    SandwichLaneX(q.x, q.y, q.z, q.w, v.x, v.y, v.z, v.w);
    SandwichLaneY(q.x, q.y, q.z, q.w, v.x, v.y, v.z, v.w);
    SandwichLaneZ(q.x, q.y, q.z, q.w, v.x, v.y, v.z, v.w);
    SandwichLaneW(q.x, q.y, q.z, q.w, v.x, v.y, v.z, v.w);
  }

  /** For a unit q, q v conj(q) is quatRotateVec(q, v). */
  lemma SandwichIsRotation(q: Vec4, v: Vec4)
    requires Dot4Value(q, q) == 1.0
    ensures HamiltonProduct(HamiltonProduct(q, v), Conj(q)) == QuatRotateVec(q, v)
  {
    SandwichIsFormula(q, v);
    QuatRotateVecFormula(q, v);
  }

  // ---------------------------------------------------------------------
  // naiveTransformCreate
  // ---------------------------------------------------------------------

  /** The (float*)& view of a Matrix: a buffer holding its sixteen entries. */
  method StoreMatrix(m: Mat4) returns (a: array<real>)
    ensures fresh(a) && a[..] == Flat(m)
  {
    a := new real[16];
    var f := Flat(m);
    for n := 0 to 16
      invariant forall k | 0 <= k < n :: a[k] == f[k]
    {
      a[n] := f[n];
    }
    assert a[..] == f;
  }

  /** The sixteen floats of scale(s). */
  lemma ScaleEntries(s: Vector3.Vector3f)
    ensures var x := Flat(Matrices.Scale(s));
      x[0] == s.vec.x && x[1] == 0.0 && x[2] == 0.0 && x[3] == 0.0 &&
      x[4] == 0.0 && x[5] == s.vec.y && x[6] == 0.0 && x[7] == 0.0 &&
      x[8] == 0.0 && x[9] == 0.0 && x[10] == s.vec.z && x[11] == 0.0 &&
      x[12] == 0.0 && x[13] == 0.0 && x[14] == 0.0 && x[15] == 1.0
  {
  }

  /** The sixteen floats of translate(t). */
  lemma TranslateEntries(t: Vector3.Vector3f)
    ensures var x := Flat(Matrices.Translate(t));
      x[0] == 1.0 && x[1] == 0.0 && x[2] == 0.0 && x[3] == t.vec.x &&
      x[4] == 0.0 && x[5] == 1.0 && x[6] == 0.0 && x[7] == t.vec.y &&
      x[8] == 0.0 && x[9] == 0.0 && x[10] == 1.0 && x[11] == t.vec.z &&
      x[12] == 0.0 && x[13] == 0.0 && x[14] == 0.0 && x[15] == 1.0
  {
  }

  /** m's rows with lanes 0-2 scaled by s's lanes and lane 3 kept. */
  predicate XyzColumnsScaled(m: Mat4, s: Vec4, r: Mat4)
  {
    forall i | 0 <= i < 4 :: r[i] == ScaledXyz(m[i], s)
  }

  /** Lanes 0-2 of v scaled by those of s. */
  function ScaledXyz(v: Vec4, s: Vec4): Vec4
  {
    Vec4(v.x * s.x, v.y * s.y, v.z * s.z, v.w)
  }

  /** Rows 0-1 of Flat(m) times the flat scale(s). */
  lemma FlatScaledTop(m: Mat4, s: Vector3.Vector3f, r: Mat4)
    requires r[0] == Vec4(m[0].x * s.vec.x, m[0].y * s.vec.y, m[0].z * s.vec.z, m[0].w)
    requires r[1] == Vec4(m[1].x * s.vec.x, m[1].y * s.vec.y, m[1].z * s.vec.z, m[1].w)
    ensures var p, f := FlatProduct(Flat(m), Flat(Matrices.Scale(s))), Flat(r);
      p[0] == f[0] && p[1] == f[1] && p[2] == f[2] && p[3] == f[3] &&
      p[4] == f[4] && p[5] == f[5] && p[6] == f[6] && p[7] == f[7]
  {
    ScaleEntries(s);
    var p, f := FlatProduct(Flat(m), Flat(Matrices.Scale(s))), Flat(r);
    assert p[0] == f[0];
    assert p[1] == f[1];
    assert p[2] == f[2];
    assert p[3] == f[3];
    assert p[4] == f[4];
    assert p[5] == f[5];
    assert p[6] == f[6];
    assert p[7] == f[7];
  }

  /** Rows 2-3 of Flat(m) times the flat scale(s). */
  lemma FlatScaledBottom(m: Mat4, s: Vector3.Vector3f, r: Mat4)
    requires r[2] == Vec4(m[2].x * s.vec.x, m[2].y * s.vec.y, m[2].z * s.vec.z, m[2].w)
    requires r[3] == Vec4(m[3].x * s.vec.x, m[3].y * s.vec.y, m[3].z * s.vec.z, m[3].w)
    ensures var p, f := FlatProduct(Flat(m), Flat(Matrices.Scale(s))), Flat(r);
      p[8] == f[8] && p[9] == f[9] && p[10] == f[10] && p[11] == f[11] &&
      p[12] == f[12] && p[13] == f[13] && p[14] == f[14] && p[15] == f[15]
  {
    ScaleEntries(s);
    var p, f := FlatProduct(Flat(m), Flat(Matrices.Scale(s))), Flat(r);
    assert p[8] == f[8];
    assert p[9] == f[9];
    assert p[10] == f[10];
    assert p[11] == f[11];
    assert p[12] == f[12];
    assert p[13] == f[13];
    assert p[14] == f[14];
    assert p[15] == f[15];
  }

  /** Multiplying by the flat scale(s) on the right scales columns 0-2. */
  lemma FlatScaledColumns(m: Mat4, s: Vector3.Vector3f, r: Mat4)
    requires XyzColumnsScaled(m, s.vec, r)
    ensures FlatProduct(Flat(m), Flat(Matrices.Scale(s))) == Flat(r)
  {
    assert r[0] == Vec4(m[0].x * s.vec.x, m[0].y * s.vec.y, m[0].z * s.vec.z, m[0].w);
    assert r[1] == Vec4(m[1].x * s.vec.x, m[1].y * s.vec.y, m[1].z * s.vec.z, m[1].w);
    assert r[2] == Vec4(m[2].x * s.vec.x, m[2].y * s.vec.y, m[2].z * s.vec.z, m[2].w);
    assert r[3] == Vec4(m[3].x * s.vec.x, m[3].y * s.vec.y, m[3].z * s.vec.z, m[3].w);
    FlatScaledTop(m, s, r);
    FlatScaledBottom(m, s, r);
    FlatEqual(FlatProduct(Flat(m), Flat(Matrices.Scale(s))), Flat(r));
  }

  /** m's rows with t's lanes added to lane 3 of rows 0-2. */
  predicate Translated(m: Mat4, t: Vector3.Vector3f, r: Mat4)
  {
    r[0] == m[0].(w := m[0].w + t.vec.x) && r[1] == m[1].(w := m[1].w + t.vec.y) &&
    r[2] == m[2].(w := m[2].w + t.vec.z) && r[3] == m[3]
  }

  /** Rows 0-1 of the flat translate(t) times Flat(m). */
  lemma FlatTranslatedTop(t: Vector3.Vector3f, m: Mat4, r: Mat4)
    requires m[3] == Vec4(0.0, 0.0, 0.0, 1.0) && Translated(m, t, r)
    ensures var p, f := FlatProduct(Flat(Matrices.Translate(t)), Flat(m)), Flat(r);
      p[0] == f[0] && p[1] == f[1] && p[2] == f[2] && p[3] == f[3] &&
      p[4] == f[4] && p[5] == f[5] && p[6] == f[6] && p[7] == f[7]
  {
    TranslateEntries(t);
    var p, f := FlatProduct(Flat(Matrices.Translate(t)), Flat(m)), Flat(r);
    assert p[0] == f[0];
    assert p[1] == f[1];
    assert p[2] == f[2];
    assert p[3] == f[3];
    assert p[4] == f[4];
    assert p[5] == f[5];
    assert p[6] == f[6];
    assert p[7] == f[7];
  }

  /** Rows 2-3 of the flat translate(t) times Flat(m). */
  lemma FlatTranslatedBottom(t: Vector3.Vector3f, m: Mat4, r: Mat4)
    requires m[3] == Vec4(0.0, 0.0, 0.0, 1.0) && Translated(m, t, r)
    ensures var p, f := FlatProduct(Flat(Matrices.Translate(t)), Flat(m)), Flat(r);
      p[8] == f[8] && p[9] == f[9] && p[10] == f[10] && p[11] == f[11] &&
      p[12] == f[12] && p[13] == f[13] && p[14] == f[14] && p[15] == f[15]
  {
    TranslateEntries(t);
    var p, f := FlatProduct(Flat(Matrices.Translate(t)), Flat(m)), Flat(r);
    assert p[8] == f[8];
    assert p[9] == f[9];
    assert p[10] == f[10];
    assert p[11] == f[11];
    assert p[12] == f[12];
    assert p[13] == f[13];
    assert p[14] == f[14];
    assert p[15] == f[15];
  }

  /** translate(t) on the left adds t to lane 3 of a matrix whose last row is (0, 0, 0, 1). */
  lemma FlatTranslated(t: Vector3.Vector3f, m: Mat4, r: Mat4)
    requires m[3] == Vec4(0.0, 0.0, 0.0, 1.0) && Translated(m, t, r)
    ensures FlatProduct(Flat(Matrices.Translate(t)), Flat(m)) == Flat(r)
  {
    FlatTranslatedTop(t, m, r);
    FlatTranslatedBottom(t, m, r);
    FlatEqual(FlatProduct(Flat(Matrices.Translate(t)), Flat(m)), Flat(r));
  }

  /** One row: lanes 0-2 of r are those of m (built with unit scale) times s's. */
  lemma RowScaled(a0: real, a1: real, a2: real, w: real, s: Vec4)
    ensures ScaledXyz(Vec4(a0 * 1.0, a1 * 1.0, a2 * 1.0, w), s) == Vec4(a0 * s.x, a1 * s.y, a2 * s.z, w)
  {
  }

  /** Row 0 of transformMatrix(t, q, s) is row 0 of transformMatrix(t, q, 1) with lanes 0-2 scaled. */
  lemma Row0Scaled(t: Vec4, q: Vec4, s: Vec4)
    ensures TransformMatrixRow0(t, q, s) == ScaledXyz(TransformMatrixRow0(t, q, Vec4(1.0, 1.0, 1.0, 0.0)), s)
  {
    RowScaled(1.0 - (q.y * (q.y + q.y) + q.z * (q.z + q.z)), q.x * (q.y + q.y) - q.w * (q.z + q.z),
      q.x * (q.z + q.z) + q.w * (q.y + q.y), t.x, s);
  }

  /** The same for row 1. */
  lemma Row1Scaled(t: Vec4, q: Vec4, s: Vec4)
    ensures TransformMatrixRow1(t, q, s) == ScaledXyz(TransformMatrixRow1(t, q, Vec4(1.0, 1.0, 1.0, 0.0)), s)
  {
    RowScaled(q.x * (q.y + q.y) + q.w * (q.z + q.z), 1.0 - (q.x * (q.x + q.x) + q.z * (q.z + q.z)),
      q.y * (q.z + q.z) - q.w * (q.x + q.x), t.y, s);
  }

  /** The same for row 2. */
  lemma Row2Scaled(t: Vec4, q: Vec4, s: Vec4)
    ensures TransformMatrixRow2(t, q, s) == ScaledXyz(TransformMatrixRow2(t, q, Vec4(1.0, 1.0, 1.0, 0.0)), s)
  {
    RowScaled(q.x * (q.z + q.z) - q.w * (q.y + q.y), q.y * (q.z + q.z) + q.w * (q.x + q.x),
      1.0 - (q.x * (q.x + q.x) + q.y * (q.y + q.y)), t.z, s);
  }

  /** transformMatrix(t, q, s) is transformMatrix(t, q, 1) with columns 0-2 scaled by s. */
  lemma TransformScaledColumns(t: Vec4, q: Vec4, s: Vec4)
    ensures XyzColumnsScaled(TransformMatrix(t, q, Vec4(1.0, 1.0, 1.0, 0.0)), s, TransformMatrix(t, q, s))
  {
    var one := Vec4(1.0, 1.0, 1.0, 0.0);
    var m, r := TransformMatrix(t, q, one), TransformMatrix(t, q, s);
    assert r[0] == ScaledXyz(m[0], s) by { Row0Scaled(t, q, s); }
    assert r[1] == ScaledXyz(m[1], s) by { Row1Scaled(t, q, s); }
    assert r[2] == ScaledXyz(m[2], s) by { Row2Scaled(t, q, s); }
  }

  /** The rotation matrix with unit scale and zero translation, with its columns scaled by s. */
  lemma FlatRotationTimesScale(q: Vec4, s: Vector3.Vector3f)
    ensures FlatProduct(Flat(Matrices.TransformMatrixOf(Vector3.Splat(0.0), Quaternions.Quaternion(q), Vector3.Splat(1.0))),
        Flat(Matrices.Scale(s))) == Flat(TransformMatrix(Vec4(0.0, 0.0, 0.0, 0.0), q, s.vec))
  {
    var r1 := TransformMatrix(Vec4(0.0, 0.0, 0.0, 0.0), q, Vec4(1.0, 1.0, 1.0, 0.0));
    assert Matrices.TransformMatrixOf(Vector3.Splat(0.0), Quaternions.Quaternion(q), Vector3.Splat(1.0)) == r1;
    TransformScaledColumns(Vec4(0.0, 0.0, 0.0, 0.0), q, s.vec);
    FlatScaledColumns(r1, s, TransformMatrix(Vec4(0.0, 0.0, 0.0, 0.0), q, s.vec));
  }

  /** transformMatrix(t, q, s) is transformMatrix(0, q, s) with t added to lane 3. */
  lemma TransformTranslated(t: Vector3.Vector3f, q: Vec4, s: Vec4)
    ensures Translated(TransformMatrix(Vec4(0.0, 0.0, 0.0, 0.0), q, s), t, TransformMatrix(t.vec, q, s))
  {
  }

  /** translate(t) applied after the scaled rotation puts t in column 3. */
  lemma FlatTranslateRotation(t: Vector3.Vector3f, q: Vec4, s: Vector3.Vector3f)
    ensures FlatProduct(Flat(Matrices.Translate(t)), Flat(TransformMatrix(Vec4(0.0, 0.0, 0.0, 0.0), q, s.vec)))
      == Flat(TransformMatrix(t.vec, q, s.vec))
  {
    TransformTranslated(t, q, s.vec);
    FlatTranslated(t, TransformMatrix(Vec4(0.0, 0.0, 0.0, 0.0), q, s.vec), TransformMatrix(t.vec, q, s.vec));
  }

  /**
   * translate(t) transformMatrix(0, q, 1) scale(s) is transformMatrix(t, q, s):
   * createTransformMatrix is translation after rotation after scaling.
   */
  lemma ComposedTransform(t: Vector3.Vector3f, q: Vec4, s: Vector3.Vector3f)
    ensures MatrixProduct(Matrices.Translate(t),
        MatrixProduct(Matrices.TransformMatrixOf(Vector3.Splat(0.0), Quaternions.Quaternion(q), Vector3.Splat(1.0)),
          Matrices.Scale(s)))
      == TransformMatrix(t.vec, q, s.vec)
  {
    var tm, rm, sm := Matrices.Translate(t), Matrices.TransformMatrixOf(Vector3.Splat(0.0), Quaternions.Quaternion(q), Vector3.Splat(1.0)), Matrices.Scale(s);
    var rs := FlatProduct(Flat(rm), Flat(sm));
    FlatRotationTimesScale(q, s);
    FlatTranslateRotation(t, q, s);
    FlatProductIsProduct(Flat(rm), Flat(sm));
    FlatProductIsProduct(Flat(tm), rs);
    FlatRoundTrip(tm, rs);
    FlatRoundTrip(rm, rs);
    FlatRoundTrip(sm, rs);
    FlatRoundTrip(TransformMatrix(t.vec, q, s.vec), rs);
    FlatRoundTrip(TransformMatrix(Vec4(0.0, 0.0, 0.0, 0.0), q, s.vec), rs);
  }

  /**
   * naiveTransformCreate: scale, rotation (unit scale, zero translation)
   * and translation matrices multiplied with naiveMatrixMultiply into
   * translate(t) R scale(s), which is the back-end's createTransformMatrix.
   */
  method NaiveTransformCreate(output: array<real>, translation: array<real>, rotation: array<real>, scale: array<real>)
    requires output.Length == 16 && translation.Length >= 3 && rotation.Length >= 4 && scale.Length >= 3
    modifies output
    ensures output[..] == Flat(TransformMatrix(Xyz(old(translation[..])), Xyzw(old(rotation[..])), Xyz(old(scale[..]))))
    ensures Unflat(output[..]) == TransformMatrix(Xyz(old(translation[..])), Xyzw(old(rotation[..])), Xyz(old(scale[..])))
  {
    var translationVec := Vector3.Make(translation[0], translation[1], translation[2]);
    var scaleVec := Vector3.Make(scale[0], scale[1], scale[2]);
    var rotationVec := Quaternions.Make(rotation[0], rotation[1], rotation[2], rotation[3]);
    assert translationVec.vec == Xyz(translation[..]) && scaleVec.vec == Xyz(scale[..]);
    assert rotationVec.vec == Xyzw(rotation[..]);
    var nullTranslation := Vector3.Splat(0.0);
    var nullScale := Vector3.Splat(1.0);
    var translationMatrix := StoreMatrix(Matrices.Translate(translationVec));
    label Stored:
    var rotationMatrix := StoreMatrix(Matrices.TransformMatrixOf(nullTranslation, rotationVec, nullScale));
    var scaleMatrix := StoreMatrix(Matrices.Scale(scaleVec));
    var temp := new real[16];
    NaiveMatrixMultiply(temp, scaleMatrix, rotationMatrix);
    ghost var rs := Flat(TransformMatrix(Vec4(0.0, 0.0, 0.0, 0.0), rotationVec.vec, scaleVec.vec));
    assert temp[..] == rs by {
      FlatRotationTimesScale(rotationVec.vec, scaleVec);
    }
    ghost var tf := Flat(Matrices.Translate(translationVec));
    assert unchanged@Stored(translationMatrix);
    assert translationMatrix[..] == tf;
    NaiveMatrixMultiply(output, temp, translationMatrix);
    assert output[..] == FlatProduct(tf, rs);
    ghost var m := TransformMatrix(translationVec.vec, rotationVec.vec, scaleVec.vec);
    assert FlatProduct(tf, rs) == Flat(m) by {
      FlatTranslateRotation(translationVec, rotationVec.vec, scaleVec);
    }
    FlatRoundTrip(m, output[..]);
  }
}
