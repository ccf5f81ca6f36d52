/**
 * Matrix::getRotation applied to transformMatrix(t, q, s): for a unit
 * quaternion q and a positive scale, removeScale recovers the rotation
 * block of q, each of getRotation's four branches divides by four times
 * the absolute value of one lane of q, and the result is q or -q (the same
 * rotation).
 */
module MatrixRotation {
  import GenericMath
  import opened GenericVecmath
  import Quaternions
  import Matrices

  /** The upper-left 3x3 block of a holds the rotation entries of q (transformMatrix with unit scale). */
  predicate IsRotationBlock(q: Vec4, a: Mat4)
  {
    var x2, y2, z2 := q.x + q.x, q.y + q.y, q.z + q.z;
    && At(a, 0, 0) == 1.0 - (q.y * y2 + q.z * z2)
    && At(a, 0, 1) == q.x * y2 - q.w * z2
    && At(a, 0, 2) == q.x * z2 + q.w * y2
    && At(a, 1, 0) == q.x * y2 + q.w * z2
    && At(a, 1, 1) == 1.0 - (q.x * x2 + q.z * z2)
    && At(a, 1, 2) == q.y * z2 - q.w * x2
    && At(a, 2, 0) == q.x * z2 - q.w * y2
    && At(a, 2, 1) == q.y * z2 + q.w * x2
    && At(a, 2, 2) == 1.0 - (q.x * x2 + q.y * y2)
  }

  /** r is q or its negation: the two quaternions of one rotation. */
  predicate SameRotation(r: Vec4, q: Vec4)
  {
    r == q || r == Vec4(-q.x, -q.y, -q.z, -q.w)
  }

  // ---------------------------------------------------------------------
  // Scalar facts
  // ---------------------------------------------------------------------

  lemma DoubledSquareNonNegative(p: real)
    ensures 0.0 <= p * (p + p)
  {
    if p < 0.0 {
      assert 0.0 < -p && 0.0 < -(p + p);
      assert p * (p + p) == (-p) * (-(p + p));
    }
  }

  /** (A - B)^2 + 4 A B == 1 when A + B == 1. */
  lemma DifferenceSquare(a0: real, a: real, b: real, c: real)
    requires a0 == a - b && a + b == 1.0 && c == 4.0 * (a * b)
    ensures a0 * a0 + c == 1.0
  {
    assert a0 * a0 + c == (a + b) * (a + b);
  }

  /** Column 0 of the rotation block has unit length for a unit quaternion. */
  lemma UnitColumn0(x: real, y: real, z: real, w: real, a0: real, a1: real, a2: real)
    requires x * x + y * y + z * z + w * w == 1.0
    requires a0 == 1.0 - (y * (y + y) + z * (z + z))
    requires a1 == x * (y + y) + w * (z + z) && a2 == x * (z + z) - w * (y + y)
    ensures a0 * a0 + a1 * a1 + a2 * a2 == 1.0
  {
    assert a1 * a1 + a2 * a2 == 4.0 * ((x * x + w * w) * (y * y + z * z));
    DifferenceSquare(a0, x * x + w * w, y * y + z * z, a1 * a1 + a2 * a2);
  }

  /** Column 1 of the rotation block has unit length for a unit quaternion. */
  lemma UnitColumn1(x: real, y: real, z: real, w: real, a0: real, a1: real, a2: real)
    requires x * x + y * y + z * z + w * w == 1.0
    requires a1 == 1.0 - (x * (x + x) + z * (z + z))
    requires a0 == x * (y + y) - w * (z + z) && a2 == y * (z + z) + w * (x + x)
    ensures a0 * a0 + a1 * a1 + a2 * a2 == 1.0
  {
    assert a0 * a0 + a2 * a2 == 4.0 * ((y * y + w * w) * (x * x + z * z));
    DifferenceSquare(a1, y * y + w * w, x * x + z * z, a0 * a0 + a2 * a2);
  }

  /** Column 2 of the rotation block has unit length for a unit quaternion. */
  lemma UnitColumn2(x: real, y: real, z: real, w: real, a0: real, a1: real, a2: real)
    requires x * x + y * y + z * z + w * w == 1.0
    requires a2 == 1.0 - (x * (x + x) + y * (y + y))
    requires a0 == x * (z + z) + w * (y + y) && a1 == y * (z + z) - w * (x + x)
    ensures a0 * a0 + a1 * a1 + a2 * a2 == 1.0
  {
    assert a0 * a0 + a1 * a1 == 4.0 * ((z * z + w * w) * (x * x + y * y));
    DifferenceSquare(a2, z * z + w * w, x * x + y * y, a0 * a0 + a1 * a1);
  }

  /** A column k (a0, a1, a2, 0) with a0^2 + a1^2 + a2^2 == 1 has squared length k^2. */
  lemma ScaledUnitColumn(c: Vec4, a0: real, a1: real, a2: real, k: real)
    requires c == Vec4(a0 * k, a1 * k, a2 * k, 0.0) && a0 * a0 + a1 * a1 + a2 * a2 == 1.0
    ensures Dot4Value(c, c) == k * k
  {
    assert Dot4Value(c, c) == (a0 * a0 + a1 * a1 + a2 * a2) * (k * k);
  }

  /** (e k) r == e when r k == 1. */
  lemma CancelScale(e: real, k: real, r: real, v: real)
    requires v == (e * k) * r && r * k == 1.0
    ensures v == e
  {
    assert v == e * (r * k);
  }

  /** num / den == v when num == den v. */
  lemma DivideOut(num: real, den: real, v: real)
    requires den != 0.0 && num == den * v
    ensures num / den == v
  {
  }

  /** num s == v when s den == 1 and num == den v. */
  lemma MultiplyOut(num: real, s: real, den: real, v: real)
    requires s * den == 1.0 && num == den * v
    ensures num * s == v
  {
    assert num * s == v * (s * den);
  }

  /** With g a sign, 4 p c == (4 g p) (g c). */
  lemma SignedFactor(g: real, p: real, c: real)
    requires g * g == 1.0
    ensures 4.0 * (p * c) == (4.0 * g * p) * (g * c)
  {
    assert (4.0 * g * p) * (g * c) == 4.0 * (g * g) * (p * c);
  }

  /** The sign of a nonzero lane and its absolute value. */
  function Sign(p: real): real
  {
    if p < 0.0 then -1.0 else 1.0
  }

  /** sqrt(2 p (p + p)) == 2 g p == 2 |p|, with g the sign of p. */
  lemma RootOfPivot(lm: GenericMath.Libm, rad: real, p: real)
    requires GenericMath.SqrtIsExact(lm) && p != 0.0 && rad == 2.0 * (p * (p + p))
    ensures lm.sqrt(rad) == 2.0 * Sign(p) * p && 0.0 < lm.sqrt(rad)
  {
    var g := Sign(p);
    assert 0.0 < g * p;
    assert rad == (2.0 * g * p) * (2.0 * g * p);
    Quaternions.SqrtOfPositiveSquare(lm, rad, 2.0 * g * p);
  }

  /** The vector g q, for g a sign, is q or -q. */
  lemma SignedCopy(g: real, q: Vec4, r: Vec4)
    requires g == 1.0 || g == -1.0
    requires r == Vec4(g * q.x, g * q.y, g * q.z, g * q.w)
    ensures SameRotation(r, q)
  {
  }

  // ---------------------------------------------------------------------
  // removeScale recovers the rotation block
  // ---------------------------------------------------------------------

  /** c is k times column 0 of q's rotation block, with lane 3 zero. */
  predicate Column0Of(q: Vec4, k: real, c: Vec4)
  {
    && c.x == (1.0 - (q.y * (q.y + q.y) + q.z * (q.z + q.z))) * k
    && c.y == (q.x * (q.y + q.y) + q.w * (q.z + q.z)) * k
    && c.z == (q.x * (q.z + q.z) - q.w * (q.y + q.y)) * k
    && c.w == 0.0
  }

  /** c is k times column 1 of q's rotation block, with lane 3 zero. */
  predicate Column1Of(q: Vec4, k: real, c: Vec4)
  {
    && c.x == (q.x * (q.y + q.y) - q.w * (q.z + q.z)) * k
    && c.y == (1.0 - (q.x * (q.x + q.x) + q.z * (q.z + q.z))) * k
    && c.z == (q.y * (q.z + q.z) + q.w * (q.x + q.x)) * k
    && c.w == 0.0
  }

  /** c is k times column 2 of q's rotation block, with lane 3 zero. */
  predicate Column2Of(q: Vec4, k: real, c: Vec4)
  {
    && c.x == (q.x * (q.z + q.z) + q.w * (q.y + q.y)) * k
    && c.y == (q.y * (q.z + q.z) - q.w * (q.x + q.x)) * k
    && c.z == (1.0 - (q.x * (q.x + q.x) + q.y * (q.y + q.y))) * k
    && c.w == 0.0
  }

  /** Column j of transformMatrix(t, q, s), for j < 3, is s[j] times column j of the rotation block. */
  lemma TransformColumns(t: Vec4, q: Vec4, s: Vec4, m: Mat4)
    requires m == TransformMatrix(t, q, s)
    ensures Column0Of(q, s.x, Col(m, 0)) && Column1Of(q, s.y, Col(m, 1)) && Column2Of(q, s.z, Col(m, 2))
  {
    TransformMatrixRows(t, q, s);
  }

  lemma ColumnNorm0(q: Vec4, k: real, c: Vec4)
    requires Dot4Value(q, q) == 1.0 && Column0Of(q, k, c)
    ensures Dot4Value(c, c) == k * k
  {
    var e0 := 1.0 - (q.y * (q.y + q.y) + q.z * (q.z + q.z));
    var e1 := q.x * (q.y + q.y) + q.w * (q.z + q.z);
    var e2 := q.x * (q.z + q.z) - q.w * (q.y + q.y);
    UnitColumn0(q.x, q.y, q.z, q.w, e0, e1, e2);
    ScaledUnitColumn(c, e0, e1, e2, k);
  }

  lemma ColumnNorm1(q: Vec4, k: real, c: Vec4)
    requires Dot4Value(q, q) == 1.0 && Column1Of(q, k, c)
    ensures Dot4Value(c, c) == k * k
  {
    var e0 := q.x * (q.y + q.y) - q.w * (q.z + q.z);
    var e1 := 1.0 - (q.x * (q.x + q.x) + q.z * (q.z + q.z));
    var e2 := q.y * (q.z + q.z) + q.w * (q.x + q.x);
    UnitColumn1(q.x, q.y, q.z, q.w, e0, e1, e2);
    ScaledUnitColumn(c, e0, e1, e2, k);
  }

  lemma ColumnNorm2(q: Vec4, k: real, c: Vec4)
    requires Dot4Value(q, q) == 1.0 && Column2Of(q, k, c)
    ensures Dot4Value(c, c) == k * k
  {
    var e0 := q.x * (q.z + q.z) + q.w * (q.y + q.y);
    var e1 := q.y * (q.z + q.z) - q.w * (q.x + q.x);
    var e2 := 1.0 - (q.x * (q.x + q.x) + q.y * (q.y + q.y));
    UnitColumn2(q.x, q.y, q.z, q.w, e0, e1, e2);
    ScaledUnitColumn(c, e0, e1, e2, k);
  }

  /** Columns of squared norm s^2 with s > 0: getScale's inverse lanes are 1 / s. */
  lemma InverseScaleOf(lm: GenericMath.Libm, m: Mat4, s: Vec4)
    requires GenericMath.SqrtIsExact(lm) && 0.0 < s.x && 0.0 < s.y && 0.0 < s.z
    requires Dot4Value(Col(m, 0), Col(m, 0)) == s.x * s.x
    requires Dot4Value(Col(m, 1), Col(m, 1)) == s.y * s.y
    requires Dot4Value(Col(m, 2), Col(m, 2)) == s.z * s.z
    ensures Matrices.ScaleDefined(lm, m)
    ensures Matrices.InverseScale(lm, m).x * s.x == 1.0
    ensures Matrices.InverseScale(lm, m).y * s.y == 1.0
    ensures Matrices.InverseScale(lm, m).z * s.z == 1.0
  {
    var cs := Matrices.ColumnSquares(m);
    Quaternions.SqrtOfPositiveSquare(lm, cs.x, s.x);
    Quaternions.SqrtOfPositiveSquare(lm, cs.y, s.y);
    Quaternions.SqrtOfPositiveSquare(lm, cs.z, s.z);
  }

  /** One entry of removeScale's result: the entry times the inverse scale of its column. */
  lemma RemovedEntry(lm: GenericMath.Libm, m: Mat4, i: nat, j: nat)
    requires Matrices.ScaleDefined(lm, m) && i < 4 && j < 4
    ensures At(Matrices.RemovedScale(lm, m), i, j) == At(m, i, j) * Lane(Matrices.InverseScale(lm, m), j)
  {
  }

  /** Dividing a column k c by k gives back c. */
  lemma UnscaledColumn(c: Vec4, k: real, r: real, e0: real, e1: real, e2: real, u0: real, u1: real, u2: real)
    requires c.x == e0 * k && c.y == e1 * k && c.z == e2 * k && r * k == 1.0
    requires u0 == c.x * r && u1 == c.y * r && u2 == c.z * r
    ensures u0 == e0 && u1 == e1 && u2 == e2
  {
    CancelScale(e0, k, r, u0);
    CancelScale(e1, k, r, u1);
    CancelScale(e2, k, r, u2);
  }

  /** Column 0 of removeScale's result is column 0 of m times the inverse scale's lane 0. */
  lemma RemovedEntries0(lm: GenericMath.Libm, m: Mat4)
    requires Matrices.ScaleDefined(lm, m)
    ensures var r := Matrices.RemovedScale(lm, m); var k := Matrices.InverseScale(lm, m).x;
      At(r, 0, 0) == Col(m, 0).x * k && At(r, 1, 0) == Col(m, 0).y * k && At(r, 2, 0) == Col(m, 0).z * k
  {
    RemovedEntry(lm, m, 0, 0);
    RemovedEntry(lm, m, 1, 0);
    RemovedEntry(lm, m, 2, 0);
  }

  /** Column 0 of removeScale's result: column 0 of m divided by its scale k. */
  lemma RemovedCol0(lm: GenericMath.Libm, m: Mat4, k: real, e0: real, e1: real, e2: real)
    requires Matrices.ScaleDefined(lm, m)
    requires Col(m, 0).x == e0 * k && Col(m, 0).y == e1 * k && Col(m, 0).z == e2 * k
    requires Matrices.InverseScale(lm, m).x * k == 1.0
    ensures var r := Matrices.RemovedScale(lm, m); At(r, 0, 0) == e0 && At(r, 1, 0) == e1 && At(r, 2, 0) == e2
  {
    var r := Matrices.RemovedScale(lm, m);
    var inv := Matrices.InverseScale(lm, m);
    RemovedEntries0(lm, m);
    UnscaledColumn(Col(m, 0), k, inv.x, e0, e1, e2, At(r, 0, 0), At(r, 1, 0), At(r, 2, 0));
  }

  /** Column 1 of removeScale's result is column 1 of m times the inverse scale's lane 1. */
  lemma RemovedEntries1(lm: GenericMath.Libm, m: Mat4)
    requires Matrices.ScaleDefined(lm, m)
    ensures var r := Matrices.RemovedScale(lm, m); var k := Matrices.InverseScale(lm, m).y;
      At(r, 0, 1) == Col(m, 1).x * k && At(r, 1, 1) == Col(m, 1).y * k && At(r, 2, 1) == Col(m, 1).z * k
  {
    RemovedEntry(lm, m, 0, 1);
    RemovedEntry(lm, m, 1, 1);
    RemovedEntry(lm, m, 2, 1);
  }

  /** Column 1 of removeScale's result: column 1 of m divided by its scale k. */
  lemma RemovedCol1(lm: GenericMath.Libm, m: Mat4, k: real, e0: real, e1: real, e2: real)
    requires Matrices.ScaleDefined(lm, m)
    requires Col(m, 1).x == e0 * k && Col(m, 1).y == e1 * k && Col(m, 1).z == e2 * k
    requires Matrices.InverseScale(lm, m).y * k == 1.0
    ensures var r := Matrices.RemovedScale(lm, m); At(r, 0, 1) == e0 && At(r, 1, 1) == e1 && At(r, 2, 1) == e2
  {
    var r := Matrices.RemovedScale(lm, m);
    var inv := Matrices.InverseScale(lm, m);
    RemovedEntries1(lm, m);
    UnscaledColumn(Col(m, 1), k, inv.y, e0, e1, e2, At(r, 0, 1), At(r, 1, 1), At(r, 2, 1));
  }

  /** Column 2 of removeScale's result is column 2 of m times the inverse scale's lane 2. */
  lemma RemovedEntries2(lm: GenericMath.Libm, m: Mat4)
    requires Matrices.ScaleDefined(lm, m)
    ensures var r := Matrices.RemovedScale(lm, m); var k := Matrices.InverseScale(lm, m).z;
      At(r, 0, 2) == Col(m, 2).x * k && At(r, 1, 2) == Col(m, 2).y * k && At(r, 2, 2) == Col(m, 2).z * k
  {
    RemovedEntry(lm, m, 0, 2);
    RemovedEntry(lm, m, 1, 2);
    RemovedEntry(lm, m, 2, 2);
  }

  /** Column 2 of removeScale's result: column 2 of m divided by its scale k. */
  lemma RemovedCol2(lm: GenericMath.Libm, m: Mat4, k: real, e0: real, e1: real, e2: real)
    requires Matrices.ScaleDefined(lm, m)
    requires Col(m, 2).x == e0 * k && Col(m, 2).y == e1 * k && Col(m, 2).z == e2 * k
    requires Matrices.InverseScale(lm, m).z * k == 1.0
    ensures var r := Matrices.RemovedScale(lm, m); At(r, 0, 2) == e0 && At(r, 1, 2) == e1 && At(r, 2, 2) == e2
  {
    var r := Matrices.RemovedScale(lm, m);
    var inv := Matrices.InverseScale(lm, m);
    RemovedEntries2(lm, m);
    UnscaledColumn(Col(m, 2), k, inv.z, e0, e1, e2, At(r, 0, 2), At(r, 1, 2), At(r, 2, 2));
  }

  /** The three columns of q's rotation block, as entries of a. */
  predicate BlockColumn0(q: Vec4, a: Mat4)
  {
    && At(a, 0, 0) == 1.0 - (q.y * (q.y + q.y) + q.z * (q.z + q.z))
    && At(a, 1, 0) == q.x * (q.y + q.y) + q.w * (q.z + q.z)
    && At(a, 2, 0) == q.x * (q.z + q.z) - q.w * (q.y + q.y)
  }

  predicate BlockColumn1(q: Vec4, a: Mat4)
  {
    && At(a, 0, 1) == q.x * (q.y + q.y) - q.w * (q.z + q.z)
    && At(a, 1, 1) == 1.0 - (q.x * (q.x + q.x) + q.z * (q.z + q.z))
    && At(a, 2, 1) == q.y * (q.z + q.z) + q.w * (q.x + q.x)
  }

  predicate BlockColumn2(q: Vec4, a: Mat4)
  {
    && At(a, 0, 2) == q.x * (q.z + q.z) + q.w * (q.y + q.y)
    && At(a, 1, 2) == q.y * (q.z + q.z) - q.w * (q.x + q.x)
    && At(a, 2, 2) == 1.0 - (q.x * (q.x + q.x) + q.y * (q.y + q.y))
  }

  lemma BlockFromColumns(q: Vec4, a: Mat4)
    requires BlockColumn0(q, a) && BlockColumn1(q, a) && BlockColumn2(q, a)
    ensures IsRotationBlock(q, a)
  {
  }

  lemma RemovedBlock0(lm: GenericMath.Libm, q: Vec4, k: real, m: Mat4)
    requires Matrices.ScaleDefined(lm, m) && Column0Of(q, k, Col(m, 0))
    requires Matrices.InverseScale(lm, m).x * k == 1.0
    ensures BlockColumn0(q, Matrices.RemovedScale(lm, m))
  {
    RemovedCol0(lm, m, k, 1.0 - (q.y * (q.y + q.y) + q.z * (q.z + q.z)),
      q.x * (q.y + q.y) + q.w * (q.z + q.z), q.x * (q.z + q.z) - q.w * (q.y + q.y));
  }

  lemma RemovedBlock1(lm: GenericMath.Libm, q: Vec4, k: real, m: Mat4)
    requires Matrices.ScaleDefined(lm, m) && Column1Of(q, k, Col(m, 1))
    requires Matrices.InverseScale(lm, m).y * k == 1.0
    ensures BlockColumn1(q, Matrices.RemovedScale(lm, m))
  {
    RemovedCol1(lm, m, k, q.x * (q.y + q.y) - q.w * (q.z + q.z),
      1.0 - (q.x * (q.x + q.x) + q.z * (q.z + q.z)), q.y * (q.z + q.z) + q.w * (q.x + q.x));
  }

  lemma RemovedBlock2(lm: GenericMath.Libm, q: Vec4, k: real, m: Mat4)
    requires Matrices.ScaleDefined(lm, m) && Column2Of(q, k, Col(m, 2))
    requires Matrices.InverseScale(lm, m).z * k == 1.0
    ensures BlockColumn2(q, Matrices.RemovedScale(lm, m))
  {
    RemovedCol2(lm, m, k, q.x * (q.z + q.z) + q.w * (q.y + q.y),
      q.y * (q.z + q.z) - q.w * (q.x + q.x), 1.0 - (q.x * (q.x + q.x) + q.y * (q.y + q.y)));
  }

  /** Columns that are s times unit columns: getScale's lanes are s, and defined. */
  lemma ScaleOfColumns(lm: GenericMath.Libm, q: Vec4, s: Vec4, m: Mat4)
    requires GenericMath.SqrtIsExact(lm) && Dot4Value(q, q) == 1.0
    requires 0.0 < s.x && 0.0 < s.y && 0.0 < s.z
    requires Column0Of(q, s.x, Col(m, 0)) && Column1Of(q, s.y, Col(m, 1)) && Column2Of(q, s.z, Col(m, 2))
    ensures Matrices.ScaleDefined(lm, m)
    ensures Matrices.InverseScale(lm, m).x * s.x == 1.0
    ensures Matrices.InverseScale(lm, m).y * s.y == 1.0
    ensures Matrices.InverseScale(lm, m).z * s.z == 1.0
  {
    ColumnNorm0(q, s.x, Col(m, 0));
    ColumnNorm1(q, s.y, Col(m, 1));
    ColumnNorm2(q, s.z, Col(m, 2));
    InverseScaleOf(lm, m, s);
  }

  /** Dividing each column by its scale leaves q's rotation block. */
  lemma BlockOfColumns(lm: GenericMath.Libm, q: Vec4, s: Vec4, m: Mat4)
    requires Matrices.ScaleDefined(lm, m)
    requires Column0Of(q, s.x, Col(m, 0)) && Column1Of(q, s.y, Col(m, 1)) && Column2Of(q, s.z, Col(m, 2))
    requires Matrices.InverseScale(lm, m).x * s.x == 1.0
    requires Matrices.InverseScale(lm, m).y * s.y == 1.0
    requires Matrices.InverseScale(lm, m).z * s.z == 1.0
    ensures IsRotationBlock(q, Matrices.RemovedScale(lm, m))
  {
    RemovedBlock0(lm, q, s.x, m);
    RemovedBlock1(lm, q, s.y, m);
    RemovedBlock2(lm, q, s.z, m);
    BlockFromColumns(q, Matrices.RemovedScale(lm, m));
  }

  /**
   * For a unit quaternion and positive scales, removeScale of
   * transformMatrix(t, q, s) is defined and its 3x3 block is q's rotation.
   */
  lemma RemovedScaleIsRotation(lm: GenericMath.Libm, t: Vec4, q: Vec4, s: Vec4, m: Mat4)
    requires GenericMath.SqrtIsExact(lm) && Dot4Value(q, q) == 1.0
    requires 0.0 < s.x && 0.0 < s.y && 0.0 < s.z && m == TransformMatrix(t, q, s)
    ensures Matrices.ScaleDefined(lm, m)
    ensures IsRotationBlock(q, Matrices.RemovedScale(lm, m))
  {
    TransformColumns(t, q, s, m);
    ScaleOfColumns(lm, q, s, m);
    BlockOfColumns(lm, q, s, m);
  }

  // ---------------------------------------------------------------------
  // The four branches
  // ---------------------------------------------------------------------

  /**
   * The branch conditions over the diagonal t00, t11, t22 and the doubled
   * squares nx, ny, nz, nw (summing to 2): each branch's square-root
   * argument is twice its pivot's doubled square, which is positive.
   */
  lemma PivotArith(t00: real, t11: real, t22: real, nx: real, ny: real, nz: real, nw: real)
    requires t00 == 1.0 - (ny + nz) && t11 == 1.0 - (nx + nz) && t22 == 1.0 - (nx + ny)
    requires nx + ny + nz + nw == 2.0 && 0.0 <= nx && 0.0 <= ny && 0.0 <= nz
    ensures t00 + t11 + t22 > 0.0 ==> 0.0 < nw && t00 + t11 + t22 + 1.0 == 2.0 * nw
    ensures !(t00 + t11 + t22 > 0.0) && t00 > t11 && t00 > t22 ==>
      0.0 < nx && 1.0 + t00 - t11 - t22 == 2.0 * nx
    ensures !(t00 + t11 + t22 > 0.0) && !(t00 > t11 && t00 > t22) && t11 > t22 ==>
      0.0 < ny && 1.0 + t11 - t00 - t22 == 2.0 * ny
    ensures !(t00 + t11 + t22 > 0.0) && !(t00 > t11 && t00 > t22) && !(t11 > t22) ==>
      0.0 < nz && 1.0 + t22 - t00 - t11 == 2.0 * nz
  {
  }

  /** A unit quaternion's doubled squares sum to 2. */
  lemma DoubledSquares(q: Vec4)
    requires Dot4Value(q, q) == 1.0
    ensures q.x * (q.x + q.x) + q.y * (q.y + q.y) + q.z * (q.z + q.z) + q.w * (q.w + q.w) == 2.0
    ensures 0.0 <= q.x * (q.x + q.x) && 0.0 <= q.y * (q.y + q.y) && 0.0 <= q.z * (q.z + q.z)
  {
    DoubledSquareNonNegative(q.x);
    DoubledSquareNonNegative(q.y);
    DoubledSquareNonNegative(q.z);
  }

  /** A positive doubled square belongs to a nonzero lane. */
  lemma NonZeroPivot(p: real)
    requires 0.0 < p * (p + p)
    ensures p != 0.0
  {
  }

  /** The numerators getRotation forms from the block: each is 4 times a product of two lanes. */
  lemma BlockSums(q: Vec4, a: Mat4)
    requires IsRotationBlock(q, a)
    ensures At(a, 1, 2) - At(a, 2, 1) == 4.0 * (q.w * -q.x)
    ensures At(a, 2, 0) - At(a, 0, 2) == 4.0 * (q.w * -q.y)
    ensures At(a, 0, 1) - At(a, 1, 0) == 4.0 * (q.w * -q.z)
    ensures At(a, 1, 0) + At(a, 0, 1) == 4.0 * (q.x * q.y)
    ensures At(a, 2, 0) + At(a, 0, 2) == 4.0 * (q.x * q.z)
    ensures At(a, 1, 2) + At(a, 2, 1) == 4.0 * (q.y * q.z)
  {
  }

  /** Branch 0's arithmetic: with s d == 1 and d == 4 g w, the lanes are -g x, -g y, -g z and g w. */
  lemma Branch0Arith(q: Vec4, g: real, s: real, d: real, n0: real, n1: real, n2: real, raw: Vec4)
    requires g == 1.0 || g == -1.0
    requires s * d == 1.0 && d == 4.0 * g * q.w
    requires n0 == 4.0 * (q.w * -q.x) && n1 == 4.0 * (q.w * -q.y) && n2 == 4.0 * (q.w * -q.z)
    requires raw == Vec4(n0 * s, n1 * s, n2 * s, 0.25 / s)
    ensures SameRotation(Vec4(raw.x, raw.y, raw.z, -raw.w), q)
  {
    SignedFactor(g, q.w, -q.x);
    SignedFactor(g, q.w, -q.y);
    SignedFactor(g, q.w, -q.z);
    MultiplyOut(n0, s, d, g * -q.x);
    MultiplyOut(n1, s, d, g * -q.y);
    MultiplyOut(n2, s, d, g * -q.z);
    DivideOut(0.25, s, g * q.w);
    SignedCopy(-g, q, Vec4(raw.x, raw.y, raw.z, -raw.w));
  }

  /**
   * The arithmetic of branches 1 to 3: dividing 4 p c by d == 4 g p gives g c;
   * r0..r2 are the result's lanes and the pivot lane is d / 4.
   */
  lemma PivotLanes(g: real, p: real, d: real, c0: real, c1: real, c2: real, n0: real, n1: real, n2: real)
    requires g == 1.0 || g == -1.0
    requires d == 4.0 * g * p && p != 0.0
    requires n0 == 4.0 * (p * c0) && n1 == 4.0 * (p * c1) && n2 == 4.0 * (p * c2)
    ensures n0 / d == g * c0 && n1 / d == g * c1 && n2 / d == g * c2 && 0.25 * d == g * p
  {
    SignedFactor(g, p, c0);
    SignedFactor(g, p, c1);
    SignedFactor(g, p, c2);
    DivideOut(n0, d, g * c0);
    DivideOut(n1, d, g * c1);
    DivideOut(n2, d, g * c2);
  }

  /** The diagonal of q's rotation block over the doubled squares, all non-negative and summing to 2. */
  predicate DiagonalAtoms(a: Mat4, nx: real, ny: real, nz: real, nw: real)
  {
    && At(a, 0, 0) == 1.0 - (ny + nz) && At(a, 1, 1) == 1.0 - (nx + nz) && At(a, 2, 2) == 1.0 - (nx + ny)
    && nx + ny + nz + nw == 2.0 && 0.0 <= nx && 0.0 <= ny && 0.0 <= nz
  }

  lemma Diagonal(q: Vec4, a: Mat4)
    requires IsRotationBlock(q, a) && Dot4Value(q, q) == 1.0
    ensures DiagonalAtoms(a, q.x * (q.x + q.x), q.y * (q.y + q.y), q.z * (q.z + q.z), q.w * (q.w + q.w))
  {
    DoubledSquares(q);
  }

  /** The root of each branch, from the diagonal atoms. */
  lemma BranchRadicand(a: Mat4, nx: real, ny: real, nz: real, nw: real)
    requires DiagonalAtoms(a, nx, ny, nz, nw)
    ensures Matrices.RotationCase(a) == 0 ==> 0.0 < nw && Matrices.CaseRadicand(a) == 2.0 * nw
    ensures Matrices.RotationCase(a) == 1 ==> 0.0 < nx && Matrices.CaseRadicand(a) == 2.0 * nx
    ensures Matrices.RotationCase(a) == 2 ==> 0.0 < ny && Matrices.CaseRadicand(a) == 2.0 * ny
    ensures Matrices.RotationCase(a) == 3 ==> 0.0 < nz && Matrices.CaseRadicand(a) == 2.0 * nz
  {
    PivotArith(At(a, 0, 0), At(a, 1, 1), At(a, 2, 2), nx, ny, nz, nw);
  }

  /** Branch 0 of rawRotation written out, with s == 0.5 rsqrt(trace + 1). */
  lemma Branch0Raw(lm: GenericMath.Libm, a: Mat4, s: real)
    requires Matrices.RotationCase(a) == 0 && lm.sqrt(Matrices.CaseRadicand(a)) != 0.0
    requires s == 0.5 * GenericMath.Rsqrt(lm, Matrices.CaseRadicand(a))
    ensures Matrices.RawRotation(lm, a) == Vec4((At(a, 1, 2) - At(a, 2, 1)) * s, (At(a, 2, 0) - At(a, 0, 2)) * s,
      (At(a, 0, 1) - At(a, 1, 0)) * s, 0.25 / s)
  {
  }

  /** Branch 1 of rawRotation written out, with d == 2 sqrt(radicand). */
  lemma Branch1Raw(lm: GenericMath.Libm, a: Mat4, d: real)
    requires Matrices.RotationCase(a) == 1 && lm.sqrt(Matrices.CaseRadicand(a)) != 0.0
    requires d == 2.0 * lm.sqrt(Matrices.CaseRadicand(a))
    ensures Matrices.RawRotation(lm, a) == Vec4(0.25 * d, (At(a, 1, 0) + At(a, 0, 1)) / d,
      (At(a, 2, 0) + At(a, 0, 2)) / d, (At(a, 1, 2) - At(a, 2, 1)) / d)
  {
  }

  /** Branch 2 of rawRotation written out. */
  lemma Branch2Raw(lm: GenericMath.Libm, a: Mat4, d: real)
    requires Matrices.RotationCase(a) == 2 && lm.sqrt(Matrices.CaseRadicand(a)) != 0.0
    requires d == 2.0 * lm.sqrt(Matrices.CaseRadicand(a))
    ensures Matrices.RawRotation(lm, a) == Vec4((At(a, 1, 0) + At(a, 0, 1)) / d, 0.25 * d,
      (At(a, 1, 2) + At(a, 2, 1)) / d, (At(a, 2, 0) - At(a, 0, 2)) / d)
  {
  }

  /** Branch 3 of rawRotation written out. */
  lemma Branch3Raw(lm: GenericMath.Libm, a: Mat4, d: real)
    requires Matrices.RotationCase(a) == 3 && lm.sqrt(Matrices.CaseRadicand(a)) != 0.0
    requires d == 2.0 * lm.sqrt(Matrices.CaseRadicand(a))
    ensures Matrices.RawRotation(lm, a) == Vec4((At(a, 2, 0) + At(a, 0, 2)) / d, (At(a, 1, 2) + At(a, 2, 1)) / d,
      0.25 * d, (At(a, 0, 1) - At(a, 1, 0)) / d)
  {
  }

  /** The branch result with w negated. */
  function Flipped(raw: Vec4): Vec4
  {
    Vec4(raw.x, raw.y, raw.z, -raw.w)
  }

  /** Branch 0's root is 2 |w|, with w nonzero. */
  lemma Root0(lm: GenericMath.Libm, q: Vec4, a: Mat4)
    requires GenericMath.SqrtIsExact(lm) && IsRotationBlock(q, a) && Dot4Value(q, q) == 1.0
    requires Matrices.RotationCase(a) == 0
    ensures q.w != 0.0 && lm.sqrt(Matrices.CaseRadicand(a)) == 2.0 * Sign(q.w) * q.w
    ensures 0.0 < lm.sqrt(Matrices.CaseRadicand(a))
  {
    Diagonal(q, a);
    BranchRadicand(a, q.x * (q.x + q.x), q.y * (q.y + q.y), q.z * (q.z + q.z), q.w * (q.w + q.w));
    NonZeroPivot(q.w);
    RootOfPivot(lm, Matrices.CaseRadicand(a), q.w);
  }

  /** Branch 1's root is 2 |x|, with x nonzero. */
  lemma Root1(lm: GenericMath.Libm, q: Vec4, a: Mat4)
    requires GenericMath.SqrtIsExact(lm) && IsRotationBlock(q, a) && Dot4Value(q, q) == 1.0
    requires Matrices.RotationCase(a) == 1
    ensures q.x != 0.0 && lm.sqrt(Matrices.CaseRadicand(a)) == 2.0 * Sign(q.x) * q.x
    ensures 0.0 < lm.sqrt(Matrices.CaseRadicand(a))
  {
    Diagonal(q, a);
    BranchRadicand(a, q.x * (q.x + q.x), q.y * (q.y + q.y), q.z * (q.z + q.z), q.w * (q.w + q.w));
    NonZeroPivot(q.x);
    RootOfPivot(lm, Matrices.CaseRadicand(a), q.x);
  }

  /** Branch 2's root is 2 |y|, with y nonzero. */
  lemma Root2(lm: GenericMath.Libm, q: Vec4, a: Mat4)
    requires GenericMath.SqrtIsExact(lm) && IsRotationBlock(q, a) && Dot4Value(q, q) == 1.0
    requires Matrices.RotationCase(a) == 2
    ensures q.y != 0.0 && lm.sqrt(Matrices.CaseRadicand(a)) == 2.0 * Sign(q.y) * q.y
    ensures 0.0 < lm.sqrt(Matrices.CaseRadicand(a))
  {
    Diagonal(q, a);
    BranchRadicand(a, q.x * (q.x + q.x), q.y * (q.y + q.y), q.z * (q.z + q.z), q.w * (q.w + q.w));
    NonZeroPivot(q.y);
    RootOfPivot(lm, Matrices.CaseRadicand(a), q.y);
  }

  /** Branch 3's root is 2 |z|, with z nonzero. */
  lemma Root3(lm: GenericMath.Libm, q: Vec4, a: Mat4)
    requires GenericMath.SqrtIsExact(lm) && IsRotationBlock(q, a) && Dot4Value(q, q) == 1.0
    requires Matrices.RotationCase(a) == 3
    ensures q.z != 0.0 && lm.sqrt(Matrices.CaseRadicand(a)) == 2.0 * Sign(q.z) * q.z
    ensures 0.0 < lm.sqrt(Matrices.CaseRadicand(a))
  {
    Diagonal(q, a);
    BranchRadicand(a, q.x * (q.x + q.x), q.y * (q.y + q.y), q.z * (q.z + q.z), q.w * (q.w + q.w));
    NonZeroPivot(q.z);
    RootOfPivot(lm, Matrices.CaseRadicand(a), q.z);
  }

  /** Branch 0 from its root 2 g w and the block's numerators: the result, w negated, is -g q. */
  lemma Branch0Lanes(lm: GenericMath.Libm, q: Vec4, a: Mat4)
    requires Matrices.RotationCase(a) == 0 && q.w != 0.0
    requires lm.sqrt(Matrices.CaseRadicand(a)) == 2.0 * Sign(q.w) * q.w
    requires At(a, 1, 2) - At(a, 2, 1) == 4.0 * (q.w * -q.x)
    requires At(a, 2, 0) - At(a, 0, 2) == 4.0 * (q.w * -q.y)
    requires At(a, 0, 1) - At(a, 1, 0) == 4.0 * (q.w * -q.z)
    ensures SameRotation(Flipped(Matrices.RawRotation(lm, a)), q)
  {
    var g := Sign(q.w);
    var s := 0.5 * GenericMath.Rsqrt(lm, Matrices.CaseRadicand(a));
    Branch0Raw(lm, a, s);
    Branch0Arith(q, g, s, 4.0 * g * q.w, At(a, 1, 2) - At(a, 2, 1), At(a, 2, 0) - At(a, 0, 2),
      At(a, 0, 1) - At(a, 1, 0), Matrices.RawRotation(lm, a));
  }

  /** Branch 1 from its root 2 g x and the block's numerators: the result, w negated, is g q. */
  lemma Branch1Lanes(lm: GenericMath.Libm, q: Vec4, a: Mat4)
    requires Matrices.RotationCase(a) == 1 && q.x != 0.0
    requires lm.sqrt(Matrices.CaseRadicand(a)) == 2.0 * Sign(q.x) * q.x
    requires At(a, 1, 0) + At(a, 0, 1) == 4.0 * (q.x * q.y)
    requires At(a, 2, 0) + At(a, 0, 2) == 4.0 * (q.x * q.z)
    requires At(a, 1, 2) - At(a, 2, 1) == 4.0 * (q.x * -q.w)
    ensures SameRotation(Flipped(Matrices.RawRotation(lm, a)), q)
  {
    var g := Sign(q.x);
    var d := 2.0 * lm.sqrt(Matrices.CaseRadicand(a));
    Branch1Raw(lm, a, d);
    PivotLanes(g, q.x, d, q.y, q.z, -q.w,
      At(a, 1, 0) + At(a, 0, 1), At(a, 2, 0) + At(a, 0, 2), At(a, 1, 2) - At(a, 2, 1));
    SignedCopy(g, q, Flipped(Matrices.RawRotation(lm, a)));
  }

  /** Branch 2 from its root 2 g y and the block's numerators: the result, w negated, is g q. */
  lemma Branch2Lanes(lm: GenericMath.Libm, q: Vec4, a: Mat4)
    requires Matrices.RotationCase(a) == 2 && q.y != 0.0
    requires lm.sqrt(Matrices.CaseRadicand(a)) == 2.0 * Sign(q.y) * q.y
    requires At(a, 1, 0) + At(a, 0, 1) == 4.0 * (q.y * q.x)
    requires At(a, 1, 2) + At(a, 2, 1) == 4.0 * (q.y * q.z)
    requires At(a, 2, 0) - At(a, 0, 2) == 4.0 * (q.y * -q.w)
    ensures SameRotation(Flipped(Matrices.RawRotation(lm, a)), q)
  {
    var g := Sign(q.y);
    var d := 2.0 * lm.sqrt(Matrices.CaseRadicand(a));
    Branch2Raw(lm, a, d);
    PivotLanes(g, q.y, d, q.x, q.z, -q.w,
      At(a, 1, 0) + At(a, 0, 1), At(a, 1, 2) + At(a, 2, 1), At(a, 2, 0) - At(a, 0, 2));
    SignedCopy(g, q, Flipped(Matrices.RawRotation(lm, a)));
  }

  /** Branch 3 from its root 2 g z and the block's numerators: the result, w negated, is g q. */
  lemma Branch3Lanes(lm: GenericMath.Libm, q: Vec4, a: Mat4)
    requires Matrices.RotationCase(a) == 3 && q.z != 0.0
    requires lm.sqrt(Matrices.CaseRadicand(a)) == 2.0 * Sign(q.z) * q.z
    requires At(a, 2, 0) + At(a, 0, 2) == 4.0 * (q.z * q.x)
    requires At(a, 1, 2) + At(a, 2, 1) == 4.0 * (q.z * q.y)
    requires At(a, 0, 1) - At(a, 1, 0) == 4.0 * (q.z * -q.w)
    ensures SameRotation(Flipped(Matrices.RawRotation(lm, a)), q)
  {
    var g := Sign(q.z);
    var d := 2.0 * lm.sqrt(Matrices.CaseRadicand(a));
    Branch3Raw(lm, a, d);
    PivotLanes(g, q.z, d, q.x, q.y, -q.w,
      At(a, 2, 0) + At(a, 0, 2), At(a, 1, 2) + At(a, 2, 1), At(a, 0, 1) - At(a, 1, 0));
    SignedCopy(g, q, Flipped(Matrices.RawRotation(lm, a)));
  }

  /** Branch 0 (positive trace) gives back q or -q. */
  lemma Branch0(lm: GenericMath.Libm, q: Vec4, a: Mat4)
    requires GenericMath.SqrtIsExact(lm) && IsRotationBlock(q, a) && Dot4Value(q, q) == 1.0
    requires Matrices.RotationCase(a) == 0
    ensures lm.sqrt(Matrices.CaseRadicand(a)) != 0.0
    ensures SameRotation(Flipped(Matrices.RawRotation(lm, a)), q)
  {
    Root0(lm, q, a);
    BlockSums(q, a);
    Branch0Lanes(lm, q, a);
  }

  /** Branch 1 (x pivot) gives back q or -q. */
  lemma Branch1(lm: GenericMath.Libm, q: Vec4, a: Mat4)
    requires GenericMath.SqrtIsExact(lm) && IsRotationBlock(q, a) && Dot4Value(q, q) == 1.0
    requires Matrices.RotationCase(a) == 1
    ensures lm.sqrt(Matrices.CaseRadicand(a)) != 0.0
    ensures SameRotation(Flipped(Matrices.RawRotation(lm, a)), q)
  {
    Root1(lm, q, a);
    BlockSums(q, a);
    Branch1Lanes(lm, q, a);
  }

  /** Branch 2 (y pivot) gives back q or -q. */
  lemma Branch2(lm: GenericMath.Libm, q: Vec4, a: Mat4)
    requires GenericMath.SqrtIsExact(lm) && IsRotationBlock(q, a) && Dot4Value(q, q) == 1.0
    requires Matrices.RotationCase(a) == 2
    ensures lm.sqrt(Matrices.CaseRadicand(a)) != 0.0
    ensures SameRotation(Flipped(Matrices.RawRotation(lm, a)), q)
  {
    Root2(lm, q, a);
    BlockSums(q, a);
    Branch2Lanes(lm, q, a);
  }

  /** Branch 3 (z pivot) gives back q or -q. */
  lemma Branch3(lm: GenericMath.Libm, q: Vec4, a: Mat4)
    requires GenericMath.SqrtIsExact(lm) && IsRotationBlock(q, a) && Dot4Value(q, q) == 1.0
    requires Matrices.RotationCase(a) == 3
    ensures lm.sqrt(Matrices.CaseRadicand(a)) != 0.0
    ensures SameRotation(Flipped(Matrices.RawRotation(lm, a)), q)
  {
    Root3(lm, q, a);
    BlockSums(q, a);
    Branch3Lanes(lm, q, a);
  }

  /** Whatever branch applies, its root is nonzero and the branch result, w negated, is q or -q. */
  lemma BlockRecoversRotation(lm: GenericMath.Libm, q: Vec4, a: Mat4)
    requires GenericMath.SqrtIsExact(lm) && IsRotationBlock(q, a) && Dot4Value(q, q) == 1.0
    ensures lm.sqrt(Matrices.CaseRadicand(a)) != 0.0
    ensures SameRotation(Flipped(Matrices.RawRotation(lm, a)), q)
  {
    var c := Matrices.RotationCase(a);
    if c == 0 {
      Branch0(lm, q, a);
    } else if c == 1 {
      Branch1(lm, q, a);
    } else if c == 2 {
      Branch2(lm, q, a);
    } else {
      Branch3(lm, q, a);
    }
  }

  /** normalized() leaves a quaternion of squared length 1 as it is. */
  lemma NormalizedKeepsUnit(lm: GenericMath.Libm, q: Quaternions.Quaternion)
    requires GenericMath.SqrtIsExact(lm) && Quaternions.LengthSquared(q) == 1.0
    ensures Quaternions.CanNormalize(lm, q, Quaternions.NORMALIZE_MARGIN)
    ensures Quaternions.Normalized(lm, q, Quaternions.NORMALIZE_MARGIN) == q
  {
    Quaternions.SqrtOfPositiveSquare(lm, 1.0, 1.0);
    var r := Quaternions.Normalized(lm, q, Quaternions.NORMALIZE_MARGIN);
    assert Quaternions.Get(r, 0) == Quaternions.Get(q, 0) && Quaternions.Get(r, 1) == Quaternions.Get(q, 1);
    assert Quaternions.Get(r, 2) == Quaternions.Get(q, 2) && Quaternions.Get(r, 3) == Quaternions.Get(q, 3);
  }

  /** q and -q have the same squared length. */
  lemma SameRotationLength(r: Vec4, q: Vec4)
    requires SameRotation(r, q)
    ensures Dot4Value(r, r) == Dot4Value(q, q)
  {
  }

  /** getRotation's input to normalized() is the branch result with w negated. */
  lemma InputIsBranchResult(lm: GenericMath.Libm, m: Mat4)
    requires Matrices.ScaleDefined(lm, m)
    requires lm.sqrt(Matrices.CaseRadicand(Matrices.RemovedScale(lm, m))) != 0.0
    ensures Matrices.RotationInput(lm, m).vec == Flipped(Matrices.RawRotation(lm, Matrices.RemovedScale(lm, m)))
  {
  }

  /** A matrix whose scale-free block is q's rotation gives back q or -q. */
  lemma RecoverFromBlock(lm: GenericMath.Libm, q: Vec4, m: Mat4)
    requires GenericMath.SqrtIsExact(lm) && Dot4Value(q, q) == 1.0
    requires Matrices.ScaleDefined(lm, m) && IsRotationBlock(q, Matrices.RemovedScale(lm, m))
    ensures Matrices.RotationDefined(lm, m)
    ensures SameRotation(Matrices.RotationOf(lm, m).vec, q)
  {
    BlockRecoversRotation(lm, q, Matrices.RemovedScale(lm, m));
    InputIsBranchResult(lm, m);
    var input := Matrices.RotationInput(lm, m);
    SameRotationLength(input.vec, q);
    NormalizedKeepsUnit(lm, input);
  }

  /**
   * getRotation(transformMatrix(t, q, s)) is q or -q for a unit q and a
   * positive scale, whatever the translation.
   */
  lemma GetRotationRecoversRotation(lm: GenericMath.Libm, t: Vec4, q: Vec4, s: Vec4)
    requires GenericMath.SqrtIsExact(lm) && Dot4Value(q, q) == 1.0
    requires 0.0 < s.x && 0.0 < s.y && 0.0 < s.z
    ensures Matrices.RotationDefined(lm, TransformMatrix(t, q, s))
    ensures SameRotation(Matrices.RotationOf(lm, TransformMatrix(t, q, s)).vec, q)
  {
    var m := TransformMatrix(t, q, s);
    RemovedScaleIsRotation(lm, t, q, s, m);
    RecoverFromBlock(lm, q, m);
  }
}
