/**
 * Matrix: four row vectors m[0..3].  A point p is transformed as row i . p
 * on lane i, the translation sits in lane 3 of rows 0-2, and operator* is
 * the backend's row-by-column product.
 */
module Matrices {
  import GenericMath
  import opened GenericVecmath
  import opened Vecmath
  import Vector3
  import Quaternions

  /** Two matrices with the same sixteen entries are equal. */
  lemma EntriesEqual(p: Mat4, q: Mat4)
    requires forall i, j | 0 <= i < 4 && 0 <= j < 4 :: At(p, i, j) == At(q, i, j)
    ensures p == q
  {
    forall i | 0 <= i < 4
      ensures p[i] == q[i]
    {
      assert At(p, i, 0) == At(q, i, 0) && At(p, i, 1) == At(q, i, 1);
      assert At(p, i, 2) == At(q, i, 2) && At(p, i, 3) == At(q, i, 3);
    }
  }

  // ---------------------------------------------------------------------
  // Constructors
  // ---------------------------------------------------------------------

  lemma AddLane(u: Vec4, v: Vec4, j: nat)
    requires j < 4
    ensures Lane(Add(u, v), j) == Lane(u, j) + Lane(v, j)
  {
  }

  lemma MulLane(u: Vec4, v: Vec4, j: nat)
    requires j < 4
    ensures Lane(Mul(u, v), j) == Lane(u, j) * Lane(v, j)
  {
  }

  lemma ColLane(a: Mat4, i: nat, j: nat)
    requires i < 4 && j < 4
    ensures Lane(Col(a, j), i) == At(a, i, j)
  {
  }

  /** The entries of a matrix that has ones on the diagonal and zeros elsewhere. */
  predicate IsIdentity(e: Mat4)
  {
    forall i, j | 0 <= i < 4 && 0 <= j < 4 :: At(e, i, j) == if i == j then 1.0 else 0.0
  }

  /** Row i of such a matrix dotted with v picks lane i of v, in either order, and column i equals row i. */
  lemma UnitRowDot(e: Mat4, i: nat, v: Vec4)
    requires IsIdentity(e) && i < 4
    ensures Dot4Value(e[i], v) == Lane(v, i)
    ensures Dot4Value(v, e[i]) == Lane(v, i)
    ensures Col(e, i) == e[i]
  {
    assert e[i] == Vec4(At(e, i, 0), At(e, i, 1), At(e, i, 2), At(e, i, 3));
    assert Col(e, i) == Vec4(At(e, 0, i), At(e, 1, i), At(e, 2, i), At(e, 3, i));
  }

  lemma UnitProducts(e: Mat4, a: Mat4)
    requires IsIdentity(e)
    ensures MatrixProduct(e, a) == a
    ensures MatrixProduct(a, e) == a
  {
    var p := MatrixProduct(e, a);
    forall i, j | 0 <= i < 4 && 0 <= j < 4
      ensures At(p, i, j) == At(a, i, j)
    {
      UnitRowDot(e, i, Col(a, j));
      ColLane(a, i, j);
    }
    EntriesEqual(p, a);
    var q := MatrixProduct(a, e);
    forall i, j | 0 <= i < 4 && 0 <= j < 4
      ensures At(q, i, j) == At(a, i, j)
    {
      UnitRowDot(e, j, a[i]);
    }
    EntriesEqual(q, a);
  }

  /** identity() is a unit of operator* on both sides. */
  lemma IdentityIsUnit(a: Mat4)
    ensures MatrixProduct(Identity(), a) == a
    ensures MatrixProduct(a, Identity()) == a
  {
    UnitProducts(Identity(), a);
  }

  /** translate(amt): the identity with amt in lane 3 of rows 0-2. */
  function Translate(amt: Vector3.Vector3f): Mat4
  {
    [Vec4(1.0, 0.0, 0.0, Vector3.Get(amt, 0)),
     Vec4(0.0, 1.0, 0.0, Vector3.Get(amt, 1)),
     Vec4(0.0, 0.0, 1.0, Vector3.Get(amt, 2)),
     Vec4(0.0, 0.0, 0.0, 1.0)]
  }

  /** translate(t) moves the point (p, 1) to (p + t, 1), and getTranslation reads t back. */
  lemma TranslateMovesPoints(amt: Vector3.Vector3f, p: Vec4)
    ensures Transform(p.(w := 1.0), Translate(amt)) ==
      Vec4(p.x + Vector3.Get(amt, 0), p.y + Vector3.Get(amt, 1), p.z + Vector3.Get(amt, 2), 1.0)
    ensures GetTranslation(Translate(amt)) == Vec4(Vector3.Get(amt, 0), Vector3.Get(amt, 1), Vector3.Get(amt, 2), 1.0)
  {
  }

  /** scale(amt): amt's x, y and z on the diagonal, 1 in the corner. */
  function Scale(amt: Vector3.Vector3f): Mat4
  {
    [Vec4(Vector3.Get(amt, 0), 0.0, 0.0, 0.0),
     Vec4(0.0, Vector3.Get(amt, 1), 0.0, 0.0),
     Vec4(0.0, 0.0, Vector3.Get(amt, 2), 0.0),
     Vec4(0.0, 0.0, 0.0, 1.0)]
  }

  /** scale(float): the same factor on all three axes. */
  function ScaleUniform(amt: real): Mat4
  {
    Scale(Vector3.Splat(amt))
  }

  /** scale(s) multiplies each coordinate of a point by its factor and keeps lane 3. */
  lemma ScaleScalesPoints(amt: Vector3.Vector3f, p: Vec4)
    ensures Transform(p, Scale(amt)) ==
      Vec4(p.x * Vector3.Get(amt, 0), p.y * Vector3.Get(amt, 1), p.z * Vector3.Get(amt, 2), p.w)
    ensures Transform(p, ScaleUniform(1.0)) == p
  {
  }

  /** ortho() divides by the width, height and depth of the box. */
  predicate OrthoDefined(left: real, right: real, bottom: real, top: real, near: real, far: real)
  {
    right - left != 0.0 && top - bottom != 0.0 && far - near != 0.0
  }

  /** ortho(left, right, bottom, top, near, far). */
  function Ortho(left: real, right: real, bottom: real, top: real, near: real, far: real): Mat4
    requires OrthoDefined(left, right, bottom, top, near, far)
  {
    var rwidth := GenericMath.Reciprocal(right - left);
    var rheight := GenericMath.Reciprocal(top - bottom);
    var rdepth := GenericMath.Reciprocal(far - near);
    [Vec4(2.0 * rwidth, 0.0, 0.0, -(right + left) * rwidth),
     Vec4(0.0, 2.0 * rheight, 0.0, -(top + bottom) * rheight),
     Vec4(0.0, 0.0, 2.0 * rdepth, -(far + near) * rdepth),
     Vec4(0.0, 0.0, 0.0, 1.0)]
  }

  /** One axis of ortho: lo maps to -1 and hi to +1. */
  lemma OrthoAxis(lo: real, hi: real, k: real)
    requires k * (hi - lo) == 1.0
    ensures 2.0 * k * lo + -(hi + lo) * k == -1.0
    ensures 2.0 * k * hi + -(hi + lo) * k == 1.0
  {
    assert 2.0 * k * lo + -(hi + lo) * k == -(k * (hi - lo));
    assert 2.0 * k * hi + -(hi + lo) * k == k * (hi - lo);
  }

  /** ortho maps the box's faces to the faces of the cube [-1, 1]^3. */
  lemma OrthoMapsBoxToCube(left: real, right: real, bottom: real, top: real, near: real, far: real, p: Vec4)
    requires OrthoDefined(left, right, bottom, top, near, far)
    ensures var m := Ortho(left, right, bottom, top, near, far);
      Transform(p.(x := left, w := 1.0), m).x == -1.0 && Transform(p.(x := right, w := 1.0), m).x == 1.0 &&
      Transform(p.(y := bottom, w := 1.0), m).y == -1.0 && Transform(p.(y := top, w := 1.0), m).y == 1.0 &&
      Transform(p.(z := near, w := 1.0), m).z == -1.0 && Transform(p.(z := far, w := 1.0), m).z == 1.0 &&
      Transform(p.(w := 1.0), m).w == 1.0
  {
    var m := Ortho(left, right, bottom, top, near, far);
    OrthoMapsX(left, right, bottom, top, near, far, p, m);
    OrthoMapsY(left, right, bottom, top, near, far, p, m);
    OrthoMapsZ(left, right, bottom, top, near, far, p, m);
  }

  lemma OrthoMapsX(left: real, right: real, bottom: real, top: real, near: real, far: real, p: Vec4, m: Mat4)
    requires OrthoDefined(left, right, bottom, top, near, far)
    requires m == Ortho(left, right, bottom, top, near, far)
    ensures Transform(p.(x := left, w := 1.0), m).x == -1.0 && Transform(p.(x := right, w := 1.0), m).x == 1.0
  {
    OrthoAxis(left, right, GenericMath.Reciprocal(right - left));
  }

  lemma OrthoMapsY(left: real, right: real, bottom: real, top: real, near: real, far: real, p: Vec4, m: Mat4)
    requires OrthoDefined(left, right, bottom, top, near, far)
    requires m == Ortho(left, right, bottom, top, near, far)
    ensures Transform(p.(y := bottom, w := 1.0), m).y == -1.0 && Transform(p.(y := top, w := 1.0), m).y == 1.0
  {
    OrthoAxis(bottom, top, GenericMath.Reciprocal(top - bottom));
  }

  lemma OrthoMapsZ(left: real, right: real, bottom: real, top: real, near: real, far: real, p: Vec4, m: Mat4)
    requires OrthoDefined(left, right, bottom, top, near, far)
    requires m == Ortho(left, right, bottom, top, near, far)
    ensures Transform(p.(z := near, w := 1.0), m).z == -1.0 && Transform(p.(z := far, w := 1.0), m).z == 1.0
    ensures Transform(p.(w := 1.0), m).w == 1.0
  {
    OrthoAxis(near, far, GenericMath.Reciprocal(far - near));
  }

  /** The depth factor of perspective(): 1 when near == far, else far / (far - near). */
  function PerspectiveScaleZ(nearZ: real, farZ: real): (r: real)
    ensures nearZ == farZ ==> r == 1.0
    ensures nearZ != farZ ==> r * (farZ - nearZ) == farZ
  {
    if nearZ == farZ then 1.0 else farZ / (farZ - nearZ)
  }

  /** perspective(halfFov, aspect, nearZ, farZ); row 3 is (0, 0, 1, 1) as written. */
  function Perspective(lm: GenericMath.Libm, halfFov: real, aspect: real, nearZ: real, farZ: real): Mat4
    requires lm.tan(halfFov) != 0.0
  {
    var rtanHalfFov := GenericMath.Reciprocal(lm.tan(halfFov));
    var scaleZ := PerspectiveScaleZ(nearZ, farZ);
    var offsetZ := -nearZ * scaleZ;
    [Vec4(rtanHalfFov, 0.0, 0.0, 0.0),
     Vec4(0.0, aspect * rtanHalfFov, 0.0, 0.0),
     Vec4(0.0, 0.0, scaleZ, offsetZ),
     Vec4(0.0, 0.0, 1.0, 1.0)]
  }

  /**
   * perspective puts depth 0 at the near plane and `far` at the far plane
   * (before the divide), scales x by 1 / tan(halfFov), and gives w = z + 1.
   */
  lemma PerspectiveDepth(lm: GenericMath.Libm, halfFov: real, aspect: real, nearZ: real, farZ: real, p: Vec4)
    requires lm.tan(halfFov) != 0.0
    ensures var m := Perspective(lm, halfFov, aspect, nearZ, farZ);
      Transform(p.(z := nearZ, w := 1.0), m).z == 0.0 &&
      Transform(p.(z := farZ, w := 1.0), m).z == (if nearZ == farZ then 0.0 else farZ) &&
      Transform(p.(w := 1.0), m).w == p.z + 1.0 &&
      Transform(p.(w := 1.0), m).x * lm.tan(halfFov) == p.x
  {
    var k := PerspectiveScaleZ(nearZ, farZ);
    assert nearZ * k + -nearZ * k == 0.0;
    assert farZ * k + -nearZ * k == (farZ - nearZ) * k;
    var rt := GenericMath.Reciprocal(lm.tan(halfFov));
    assert p.x * rt * lm.tan(halfFov) == p.x * (rt * lm.tan(halfFov));
  }

  /** transformMatrix(translation, rotation, scale): createTransformMatrix on the three vectors. */
  function TransformMatrixOf(translation: Vector3.Vector3f, rotation: Quaternions.Quaternion, scale: Vector3.Vector3f): (r: Mat4)
    ensures GetTranslation(r) == Vec4(Vector3.Get(translation, 0), Vector3.Get(translation, 1), Vector3.Get(translation, 2), 1.0)
  {
    TransformMatrix(Vector3.ToVector(translation), Quaternions.ToVector(rotation), Vector3.ToVector(scale))
  }

  // ---------------------------------------------------------------------
  // Value specifications
  // ---------------------------------------------------------------------

  /** operator+: entry-wise sum. */
  function MatrixSum(a: Mat4, b: Mat4): (r: Mat4)
    ensures forall i, j | 0 <= i < 4 && 0 <= j < 4 :: At(r, i, j) == At(a, i, j) + At(b, i, j)
  {
    var r: Mat4 := [Add(a[0], b[0]), Add(a[1], b[1]), Add(a[2], b[2]), Add(a[3], b[3])];
    assert forall i, j | 0 <= i < 4 && 0 <= j < 4 :: At(r, i, j) == At(a, i, j) + At(b, i, j) by {
      forall i, j | 0 <= i < 4 && 0 <= j < 4
        ensures At(r, i, j) == At(a, i, j) + At(b, i, j)
      {
        assert r[i] == Add(a[i], b[i]);
        AddLane(a[i], b[i], j);
      }
    }
    r
  }

  /** operator*(float): every entry times amt. */
  function MatrixScaled(a: Mat4, amt: real): (r: Mat4)
    ensures forall i, j | 0 <= i < 4 && 0 <= j < 4 :: At(r, i, j) == At(a, i, j) * amt
  {
    var r := ScaleRows(a, amt);
    assert forall i, j | 0 <= i < 4 && 0 <= j < 4 :: At(r, i, j) == At(a, i, j) * amt by {
      forall i, j | 0 <= i < 4 && 0 <= j < 4
        ensures At(r, i, j) == At(a, i, j) * amt
      {
        assert r[i] == Mul(a[i], Load1f(amt));
        MulLane(a[i], Load1f(amt), j);
      }
    }
    r
  }

  /** transpose: entry (i, j) is the original (j, i). */
  function Transposed(a: Mat4): (r: Mat4)
    ensures forall i, j | 0 <= i < 4 && 0 <= j < 4 :: At(r, i, j) == At(a, j, i)
  {
    var r: Mat4 := [Col(a, 0), Col(a, 1), Col(a, 2), Col(a, 3)];
    assert forall i, j | 0 <= i < 4 && 0 <= j < 4 :: At(r, i, j) == At(a, j, i) by {
      forall i, j | 0 <= i < 4 && 0 <= j < 4
        ensures At(r, i, j) == At(a, j, i)
      {
        assert r[i] == Col(a, i);
        ColLane(a, j, i);
      }
    }
    r
  }

  lemma TransposeInvolution(a: Mat4)
    ensures Transposed(Transposed(a)) == a
  {
    EntriesEqual(Transposed(Transposed(a)), a);
  }

  /** applyScale(s): every row multiplied lane-wise by s, i.e. column j scaled by s[j]. */
  function ColumnsScaled(a: Mat4, scale: Vec4): (r: Mat4)
    ensures forall i, j | 0 <= i < 4 && 0 <= j < 4 :: At(r, i, j) == At(a, i, j) * Lane(scale, j)
  {
    var r: Mat4 := [Mul(a[0], scale), Mul(a[1], scale), Mul(a[2], scale), Mul(a[3], scale)];
    assert forall i, j | 0 <= i < 4 && 0 <= j < 4 :: At(r, i, j) == At(a, i, j) * Lane(scale, j) by {
      forall i, j | 0 <= i < 4 && 0 <= j < 4
        ensures At(r, i, j) == At(a, i, j) * Lane(scale, j)
      {
        assert r[i] == Mul(a[i], scale);
        MulLane(a[i], scale, j);
      }
    }
    r
  }

  /** Column j of the column-scaled matrix is column j of m times s[j]. */
  lemma ColumnOfColumnsScaled(a: Mat4, scale: Vec4, j: nat)
    requires j < 4
    ensures Col(ColumnsScaled(a, scale), j) == Mul(Col(a, j), Load1f(Lane(scale, j)))
  {
    var r := ColumnsScaled(a, scale);
    assert r == [Mul(a[0], scale), Mul(a[1], scale), Mul(a[2], scale), Mul(a[3], scale)];
    MulLane(a[0], scale, j);
    MulLane(a[1], scale, j);
    MulLane(a[2], scale, j);
    MulLane(a[3], scale, j);
  }

  lemma ScaledDot(u: Vec4, v: Vec4, scale: Vec4)
    ensures Dot4Value(v, Mul(u, scale)) == Dot4Value(Mul(v, scale), u)
  {
    assert v.x * (u.x * scale.x) == (v.x * scale.x) * u.x;
    assert v.y * (u.y * scale.y) == (v.y * scale.y) * u.y;
    assert v.z * (u.z * scale.z) == (v.z * scale.z) * u.z;
    assert v.w * (u.w * scale.w) == (v.w * scale.w) * u.w;
  }

  /** Scaling the columns of m by s transforms v as m transforms v scaled by s. */
  lemma ColumnsScaledTransform(a: Mat4, scale: Vec4, v: Vec4)
    ensures Transform(v, ColumnsScaled(a, scale)) == Transform(Mul(v, scale), a)
  {
    var r := ColumnsScaled(a, scale);
    assert r[0] == Mul(a[0], scale) && r[1] == Mul(a[1], scale);
    assert r[2] == Mul(a[2], scale) && r[3] == Mul(a[3], scale);
    ScaledDot(a[0], v, scale);
    ScaledDot(a[1], v, scale);
    ScaledDot(a[2], v, scale);
    ScaledDot(a[3], v, scale);
  }

  /** The running sum of m[0]^2 + ... + m[k-1]^2, lane-wise, as getScale accumulates it. */
  function SquareSum(a: Mat4, k: nat): Vec4
    requires k <= 4
  {
    if k == 0 then ZERO else Add(SquareSum(a, k - 1), Mul(a[k - 1], a[k - 1]))
  }

  lemma SquareSumUnrolled(a: Mat4)
    ensures SquareSum(a, 4) == Add(Add(Add(Mul(a[0], a[0]), Mul(a[1], a[1])), Mul(a[2], a[2])), Mul(a[3], a[3]))
  {
    assert SquareSum(a, 1) == Mul(a[0], a[0]);
    assert SquareSum(a, 2) == Add(Mul(a[0], a[0]), Mul(a[1], a[1]));
    assert SquareSum(a, 3) == Add(SquareSum(a, 2), Mul(a[2], a[2]));
  }

  /** Lane j: the squared norm of column j. */
  function ColumnSquares(a: Mat4): (r: Vec4)
    ensures r.x == Dot4Value(Col(a, 0), Col(a, 0)) && r.y == Dot4Value(Col(a, 1), Col(a, 1))
    ensures r.z == Dot4Value(Col(a, 2), Col(a, 2)) && r.w == Dot4Value(Col(a, 3), Col(a, 3))
  {
    SquareSumUnrolled(a);
    SquareSum(a, 4)
  }

  /** getScale and removeScale take rsqrt of the first three column sums. */
  predicate ScaleDefined(lm: GenericMath.Libm, a: Mat4)
  {
    var cs := ColumnSquares(a);
    lm.sqrt(cs.x) != 0.0 && lm.sqrt(cs.y) != 0.0 && lm.sqrt(cs.z) != 0.0
  }

  /** rsqrt of the column sums with lane 3 replaced by 1 (the MASK_W select). */
  function InverseScale(lm: GenericMath.Libm, a: Mat4): (r: Vec4)
    requires ScaleDefined(lm, a)
    ensures r.x * lm.sqrt(ColumnSquares(a).x) == 1.0
    ensures r.y * lm.sqrt(ColumnSquares(a).y) == 1.0
    ensures r.z * lm.sqrt(ColumnSquares(a).z) == 1.0
    ensures r.w == 1.0
  {
    var cs := ColumnSquares(a);
    var rs := Vec4(GenericMath.Rsqrt(lm, cs.x), GenericMath.Rsqrt(lm, cs.y), GenericMath.Rsqrt(lm, cs.z), cs.w);
    SelectMaskW(rs, ONE);
    Select(rs, MASK_W, ONE)
  }

  lemma InverseScaleNonZero(lm: GenericMath.Libm, a: Mat4)
    requires ScaleDefined(lm, a)
    ensures NoZeroLane(InverseScale(lm, a))
  {
  }

  /** getScale: lane j < 3 is the norm of column j, lane 3 is 1. */
  function ScaleOf(lm: GenericMath.Libm, a: Mat4): (r: Vec4)
    requires ScaleDefined(lm, a)
    ensures r.x == lm.sqrt(Dot4Value(Col(a, 0), Col(a, 0)))
    ensures r.y == lm.sqrt(Dot4Value(Col(a, 1), Col(a, 1)))
    ensures r.z == lm.sqrt(Dot4Value(Col(a, 2), Col(a, 2)))
    ensures r.w == 1.0
  {
    var inv := InverseScale(lm, a);
    InverseScaleNonZero(lm, a);
    var r := ReciprocalV(inv);
    var cs := ColumnSquares(a);
    ReciprocalOfRsqrt(lm, cs.x, inv.x, r.x);
    ReciprocalOfRsqrt(lm, cs.y, inv.y, r.y);
    ReciprocalOfRsqrt(lm, cs.z, inv.z, r.z);
    r
  }

  lemma ReciprocalOfRsqrt(lm: GenericMath.Libm, x: real, k: real, r: real)
    requires k * lm.sqrt(x) == 1.0 && r * k == 1.0
    ensures r == lm.sqrt(x)
  {
    assert r * k * lm.sqrt(x) == r;
    assert r * (k * lm.sqrt(x)) == lm.sqrt(x);
  }

  /** removeScale: each column divided by its norm; lane 3 (the translation) left alone. */
  function RemovedScale(lm: GenericMath.Libm, a: Mat4): (r: Mat4)
    requires ScaleDefined(lm, a)
    ensures Col(r, 3) == Col(a, 3)
  {
    var inv := InverseScale(lm, a);
    ColumnOfColumnsScaled(a, inv, 3);
    ColumnsScaled(a, inv)
  }

  lemma SquaresNonNegative(c: Vec4)
    ensures 0.0 <= Dot4Value(c, c)
  {
    assert 0.0 <= c.x * c.x && 0.0 <= c.y * c.y && 0.0 <= c.z * c.z && 0.0 <= c.w * c.w;
  }

  lemma UnitColumn(c: Vec4, k: real, s: real)
    requires s * s == Dot4Value(c, c) && k * s == 1.0
    ensures Dot4Value(Mul(c, Load1f(k)), Mul(c, Load1f(k))) == 1.0
  {
    var b := Mul(c, Load1f(k));
    SquaresScaled(c.x, c.y, c.z, c.w, k, b.x, b.y, b.z, b.w);
    UnitFromReciprocal(k, s, Dot4Value(c, c), Dot4Value(b, b));
  }

  lemma SqrtSquared(lm: GenericMath.Libm, n: real)
    requires GenericMath.SqrtIsExact(lm) && 0.0 <= n
    ensures lm.sqrt(n) * lm.sqrt(n) == n
  {
  }

  /** Column j has squared length 1. */
  predicate IsUnitColumn(a: Mat4, j: nat)
    requires j < 4
  {
    Dot4Value(Col(a, j), Col(a, j)) == 1.0
  }

  /** With an exact square root, removeScale leaves the first three columns of unit length. */
  lemma RemovedScaleHasUnitColumns(lm: GenericMath.Libm, a: Mat4)
    requires GenericMath.SqrtIsExact(lm)
    requires ScaleDefined(lm, a)
    ensures IsUnitColumn(RemovedScale(lm, a), 0) && IsUnitColumn(RemovedScale(lm, a), 1) && IsUnitColumn(RemovedScale(lm, a), 2)
  {
    RemovedColumnIsUnit(lm, a, 0);
    RemovedColumnIsUnit(lm, a, 1);
    RemovedColumnIsUnit(lm, a, 2);
  }

  lemma RemovedColumnIsUnit(lm: GenericMath.Libm, a: Mat4, j: nat)
    requires GenericMath.SqrtIsExact(lm) && ScaleDefined(lm, a) && j < 3
    ensures IsUnitColumn(RemovedScale(lm, a), j)
  {
    var inv := InverseScale(lm, a);
    var cs := ColumnSquares(a);
    if j == 0 {
      ScaledColumnIsUnit(lm, a, inv, 0, inv.x, cs.x);
    } else if j == 1 {
      ScaledColumnIsUnit(lm, a, inv, 1, inv.y, cs.y);
    } else {
      ScaledColumnIsUnit(lm, a, inv, 2, inv.z, cs.z);
    }
  }

  lemma ScaledColumnIsUnit(lm: GenericMath.Libm, a: Mat4, scale: Vec4, j: nat, k: real, n: real)
    requires GenericMath.SqrtIsExact(lm) && j < 4
    requires k == Lane(scale, j) && n == Dot4Value(Col(a, j), Col(a, j)) && k * lm.sqrt(n) == 1.0
    ensures IsUnitColumn(ColumnsScaled(a, scale), j)
  {
    ColumnOfColumnsScaled(a, scale, j);
    SquaresNonNegative(Col(a, j));
    SqrtSquared(lm, n);
    UnitColumn(Col(a, j), k, lm.sqrt(n));
  }

  lemma UnitFromReciprocal(k: real, s: real, n: real, d: real)
    requires k * s == 1.0 && s * s == n && d == k * k * n
    ensures d == 1.0
  {
    calc {
      d;
      == k * k * n;
      == k * k * (s * s);
      == (k * s) * (k * s);
      == 1.0;
    }
  }

  /** getTranslation: lane 3 of each row. */
  function GetTranslation(a: Mat4): (r: Vec4)
    ensures forall i | 0 <= i < 4 :: Lane(r, i) == At(a, i, 3)
  {
    Vec4(At(a, 0, 3), At(a, 1, 3), At(a, 2, 3), At(a, 3, 3))
  }

  /** toNormalMatrix: inverse().transpose(). */
  function NormalMatrix(a: Mat4): Mat4
    requires Det4(a) != 0.0
  {
    Transposed(Inverse(a))
  }

  /** The 4-lane dot product is linear in its second argument. */
  lemma DotAddRight(u: Vec4, p: Vec4, q: Vec4)
    ensures Dot4Value(u, Add(p, q)) == Dot4Value(u, p) + Dot4Value(u, q)
  {
  }

  lemma DotScaleRight(u: Vec4, p: Vec4, c: real)
    ensures Dot4Value(u, Mul(p, Load1f(c))) == Dot4Value(u, p) * c
  {
  }

  /** The combination a.x b0 + a.y b1 + a.z b2 + a.w b3 of four rows. */
  function RowCombination(a: Vec4, b0: Vec4, b1: Vec4, b2: Vec4, b3: Vec4): Vec4
  {
    Add(Add(Add(Mul(b0, Load1f(a.x)), Mul(b1, Load1f(a.y))), Mul(b2, Load1f(a.z))), Mul(b3, Load1f(a.w)))
  }

  /** u . (a.x b0 + ... + a.w b3) == a.x (u . b0) + ... + a.w (u . b3). */
  lemma DotRowCombination(u: Vec4, a: Vec4, b0: Vec4, b1: Vec4, b2: Vec4, b3: Vec4)
    ensures Dot4Value(u, RowCombination(a, b0, b1, b2, b3)) ==
      Dot4Value(u, b0) * a.x + Dot4Value(u, b1) * a.y + Dot4Value(u, b2) * a.z + Dot4Value(u, b3) * a.w
  {
    var s0 := Mul(b0, Load1f(a.x));
    var s1 := Mul(b1, Load1f(a.y));
    var s2 := Mul(b2, Load1f(a.z));
    var s3 := Mul(b3, Load1f(a.w));
    DotAddRight(u, Add(Add(s0, s1), s2), s3);
    DotAddRight(u, Add(s0, s1), s2);
    DotAddRight(u, s0, s1);
    DotScaleRight(u, b0, a.x);
    DotScaleRight(u, b1, a.y);
    DotScaleRight(u, b2, a.z);
    DotScaleRight(u, b3, a.w);
  }

  /** Row `a` of A B is the combination of B's rows weighted by `a`. */
  lemma RowTimesIsCombination(a: Vec4, b: Mat4)
    ensures RowTimes(a, b) == RowCombination(a, b[0], b[1], b[2], b[3])
  {
    var r := RowTimes(a, b);
    var c := RowCombination(a, b[0], b[1], b[2], b[3]);
    assert Col(b, 0) == Vec4(b[0].x, b[1].x, b[2].x, b[3].x);
    assert Col(b, 1) == Vec4(b[0].y, b[1].y, b[2].y, b[3].y);
    assert Col(b, 2) == Vec4(b[0].z, b[1].z, b[2].z, b[3].z);
    assert Col(b, 3) == Vec4(b[0].w, b[1].w, b[2].w, b[3].w);
    assert r.x == c.x && r.y == c.y && r.z == c.z && r.w == c.w;
  }

  /** One lane of a composed transform: (A (B u))_i = ((A B) u)_i for row a of A. */
  lemma RowComposes(a: Vec4, b: Mat4, u: Vec4)
    ensures Dot4Value(Transform(u, b), a) == Dot4Value(u, RowTimes(a, b))
  {
    TransformRows(u, b);
    RowTimesIsCombination(a, b);
    DotRowCombination(u, a, b[0], b[1], b[2], b[3]);
  }

  /** Transforming by B and then by A is transforming by the product A B. */
  lemma TransformComposes(u: Vec4, a: Mat4, b: Mat4)
    ensures Transform(Transform(u, b), a) == Transform(u, MatrixProduct(a, b))
  {
    var t := Transform(u, b);
    var p := MatrixProduct(a, b);
    assert t == Vec4(Dot4Value(u, b[0]), Dot4Value(u, b[1]), Dot4Value(u, b[2]), Dot4Value(u, b[3]));
    forall i | 0 <= i < 4
      ensures Dot4Value(t, a[i]) == Dot4Value(u, p[i])
    {
      assert p[i] == RowTimes(a[i], b);
      RowComposes(a[i], b, u);
    }
    var l := Transform(t, a);
    var rr := Transform(u, p);
    assert Lane(l, 0) == Lane(rr, 0) && Lane(l, 1) == Lane(rr, 1);
    assert Lane(l, 2) == Lane(rr, 2) && Lane(l, 3) == Lane(rr, 3);
  }

  lemma DotCommutes(a: Vec4, b: Vec4)
    ensures Dot4Value(a, b) == Dot4Value(b, a)
  {
  }

  /** Transform written out as its four row dots. */
  lemma TransformRows(u: Vec4, m: Mat4)
    ensures Transform(u, m) == Vec4(Dot4Value(u, m[0]), Dot4Value(u, m[1]), Dot4Value(u, m[2]), Dot4Value(u, m[3]))
  {
    var t := Transform(u, m);
    assert Lane(t, 0) == Dot4Value(u, m[0]) && Lane(t, 1) == Dot4Value(u, m[1]);
    assert Lane(t, 2) == Dot4Value(u, m[2]) && Lane(t, 3) == Dot4Value(u, m[3]);
  }

  /** Transforming by the transpose is multiplying the row vector by the matrix. */
  lemma TransformTransposed(v: Vec4, a: Mat4)
    ensures Transform(v, Transposed(a)) == RowTimes(v, a)
  {
    var t := Transposed(a);
    assert t[0] == Col(a, 0) && t[1] == Col(a, 1) && t[2] == Col(a, 2) && t[3] == Col(a, 3);
    TransformRows(v, t);
  }

  /** (A^T v) . w == v . (A w). */
  lemma TransposedDot(v: Vec4, a: Mat4, w: Vec4)
    ensures Dot4Value(Transform(v, Transposed(a)), w) == Dot4Value(v, Transform(w, a))
  {
    TransformTransposed(v, a);
    RowTimesIsCombination(v, a);
    DotCommutes(RowCombination(v, a[0], a[1], a[2], a[3]), w);
    DotRowCombination(w, v, a[0], a[1], a[2], a[3]);
    TransformRows(w, a);
  }

  /** Transforming by a matrix with identity entries changes nothing. */
  lemma TransformByIdentity(e: Mat4, u: Vec4)
    requires IsIdentity(e)
    ensures Transform(u, e) == u
  {
    UnitRowDot(e, 0, u);
    UnitRowDot(e, 1, u);
    UnitRowDot(e, 2, u);
    UnitRowDot(e, 3, u);
  }

  /**
   * toNormalMatrix's purpose: a plane transformed by the normal matrix,
   * dotted with a point transformed by the matrix, gives the original dot.
   */
  lemma NormalMatrixKeepsDot(a: Mat4, plane: Vec4, u: Vec4)
    requires Det4(a) != 0.0
    ensures Dot4Value(Transform(plane, NormalMatrix(a)), Transform(u, a)) == Dot4Value(plane, u)
  {
    var inv := GenericVecmath.Inverse(a);
    TransposedDot(plane, inv, Transform(u, a));
    TransformComposes(u, inv, a);
    InverseIsLeftInverse(a);
    TransformByIdentity(Identity(), u);
  }

  // ---------------------------------------------------------------------
  // getRotation
  // ---------------------------------------------------------------------

  /** The trace of the upper-left 3x3 block. */
  function Trace3(a: Mat4): real
  {
    At(a, 0, 0) + At(a, 1, 1) + At(a, 2, 2)
  }

  /** Which of getRotation's four formulas applies to a (scale-free) matrix. */
  function RotationCase(a: Mat4): (c: nat)
    ensures c < 4
  {
    if Trace3(a) > 0.0 then 0
    else if At(a, 0, 0) > At(a, 1, 1) && At(a, 0, 0) > At(a, 2, 2) then 1
    else if At(a, 1, 1) > At(a, 2, 2) then 2
    else 3
  }

  /** The square-root argument of each case: trace + 1, or 1 plus one diagonal entry minus the other two. */
  function CaseRadicand(a: Mat4): real
  {
    match RotationCase(a)
    case 0 => Trace3(a) + 1.0
    case 1 => 1.0 + At(a, 0, 0) - At(a, 1, 1) - At(a, 2, 2)
    case 2 => 1.0 + At(a, 1, 1) - At(a, 0, 0) - At(a, 2, 2)
    case 3 => 1.0 + At(a, 2, 2) - At(a, 0, 0) - At(a, 1, 1)
  }

  /** The un-normalized quaternion (x, y, z, w) of getRotation's branches, before w is negated. */
  function RawRotation(lm: GenericMath.Libm, a: Mat4): Vec4
    requires lm.sqrt(CaseRadicand(a)) != 0.0
  {
    var m00, m01, m02 := At(a, 0, 0), At(a, 0, 1), At(a, 0, 2);
    var m10, m11, m12 := At(a, 1, 0), At(a, 1, 1), At(a, 1, 2);
    var m20, m21, m22 := At(a, 2, 0), At(a, 2, 1), At(a, 2, 2);
    match RotationCase(a)
    case 0 =>
      var s := 0.5 * GenericMath.Rsqrt(lm, CaseRadicand(a));
      Vec4((m12 - m21) * s, (m20 - m02) * s, (m01 - m10) * s, 0.25 / s)
    case 1 =>
      var s := 2.0 * lm.sqrt(CaseRadicand(a));
      Vec4(0.25 * s, (m10 + m01) / s, (m20 + m02) / s, (m12 - m21) / s)
    case 2 =>
      var s := 2.0 * lm.sqrt(CaseRadicand(a));
      Vec4((m10 + m01) / s, 0.25 * s, (m12 + m21) / s, (m20 - m02) / s)
    case 3 =>
      var s := 2.0 * lm.sqrt(CaseRadicand(a));
      Vec4((m20 + m02) / s, (m12 + m21) / s, 0.25 * s, (m01 - m10) / s)
  }

  /** The branch result with w negated, as getRotation passes it to normalized(). */
  function RotationInput(lm: GenericMath.Libm, a: Mat4): Quaternions.Quaternion
    requires ScaleDefined(lm, a) && lm.sqrt(CaseRadicand(RemovedScale(lm, a))) != 0.0
  {
    var raw := RawRotation(lm, RemovedScale(lm, a));
    Quaternions.Make(raw.x, raw.y, raw.z, -raw.w)
  }

  /** What getRotation needs: removeScale defined, a nonzero root in the chosen case, and normalized() defined. */
  predicate RotationDefined(lm: GenericMath.Libm, a: Mat4)
  {
    ScaleDefined(lm, a) &&
    lm.sqrt(CaseRadicand(RemovedScale(lm, a))) != 0.0 &&
    Quaternions.CanNormalize(lm, RotationInput(lm, a), Quaternions.NORMALIZE_MARGIN)
  }

  /**
   * getRotation: the branch quaternion of the scale-free copy, with w
   * negated, normalized.
   */
  function RotationOf(lm: GenericMath.Libm, a: Mat4): (q: Quaternions.Quaternion)
    requires RotationDefined(lm, a)
    ensures Quaternions.LengthSquared(RotationInput(lm, a)) < Quaternions.NORMALIZE_MARGIN ==> q == Quaternions.Identity()
  {
    Quaternions.Normalized(lm, RotationInput(lm, a), Quaternions.NORMALIZE_MARGIN)
  }

  /** With an exact square root, getRotation returns a unit quaternion. */
  lemma RotationIsUnit(lm: GenericMath.Libm, a: Mat4)
    requires GenericMath.SqrtIsExact(lm) && RotationDefined(lm, a)
    ensures Quaternions.LengthSquared(RotationOf(lm, a)) == 1.0
  {
    Quaternions.NormalizedIsUnit(lm, RotationInput(lm, a), Quaternions.NORMALIZE_MARGIN);
  }

  // ---------------------------------------------------------------------
  // The Matrix object
  // ---------------------------------------------------------------------

  /** A Matrix: the fixed array of four rows that the in-place operators update. */
  class Matrix {
    const m: array<Vec4>

    ghost predicate Valid()
    {
      m.Length == 4
    }

    function Rows(): Mat4
      reads m
      requires Valid()
    {
      m[..]
    }

    /** Matrix(vecX, vecY, vecZ, vecOffset). */
    constructor (vecX: Vec4, vecY: Vec4, vecZ: Vec4, vecOffset: Vec4)
      ensures Valid() && fresh(m)
      ensures Rows() == [vecX, vecY, vecZ, vecOffset]
    {
      var rows := new Vec4[4];
      rows[0], rows[1], rows[2], rows[3] := vecX, vecY, vecZ, vecOffset;
      m := rows;
    }

    /** The copy constructor. */
    constructor Copy(other: Matrix)
      requires other.Valid()
      ensures Valid() && fresh(m)
      ensures Rows() == other.Rows()
    {
      var rows := new Vec4[4];
      rows[0], rows[1], rows[2], rows[3] := other.m[0], other.m[1], other.m[2], other.m[3];
      m := rows;
    }

    /** operator[]. */
    function Row(index: nat): Vec4
      reads m
      requires Valid() && index < 4
    {
      m[index]
    }

    /** operator+: a new matrix, built row by row. */
    method Plus(other: Matrix) returns (r: Mat4)
      requires Valid() && other.Valid()
      ensures r == MatrixSum(Rows(), other.Rows())
    {
      var rows: seq<Vec4> := [];
      for i := 0 to 4
        invariant |rows| == i
        invariant forall k | 0 <= k < i :: rows[k] == Add(m[k], other.m[k])
      {
        rows := rows + [Add(m[i], other.m[i])];
      }
      r := rows;
    }

    /** operator+=: row i becomes m[i] + other.m[i]; other may be this matrix. */
    method AddAssign(other: Matrix)
      requires Valid() && other.Valid()
      modifies m
      ensures Rows() == MatrixSum(old(Rows()), old(other.Rows()))
    {
      ghost var a := m[..];
      ghost var b := other.m[..];
      for i := 0 to 4
        invariant forall k | 0 <= k < i :: m[k] == Add(a[k], b[k])
        invariant forall k | i <= k < 4 :: m[k] == a[k] && other.m[k] == b[k]
      {
        m[i] := Add(m[i], other.m[i]);
      }
      assert m[..] == MatrixSum(a, b);
    }

    /** operator*: matrixMul into a new matrix. */
    method Times(other: Matrix) returns (r: Mat4)
      requires Valid() && other.Valid()
      ensures r == MatrixProduct(Rows(), other.Rows())
    {
      var result := new Vec4[4];
      MatrixMul(result, m, other.m);
      r := result[..];
    }

    /** operator*=: matrixMul with this matrix as both output and left operand. */
    method MulAssign(other: Matrix)
      requires Valid() && other.Valid()
      modifies m
      ensures Rows() == MatrixProduct(old(Rows()), old(other.Rows()))
    {
      MatrixMul(m, m, other.m);
    }

    /** operator*(float): a new matrix, each row times the broadcast factor. */
    method TimesScalar(amt: real) returns (r: Mat4)
      requires Valid()
      ensures r == MatrixScaled(Rows(), amt)
    {
      var vecAmt := Load1f(amt);
      var rows: seq<Vec4> := [];
      for i := 0 to 4
        invariant |rows| == i
        invariant forall k | 0 <= k < i :: rows[k] == Mul(m[k], vecAmt)
      {
        rows := rows + [Mul(m[i], vecAmt)];
      }
      r := rows;
    }

    /** operator*=(float). */
    method ScaleAssign(amt: real)
      requires Valid()
      modifies m
      ensures Rows() == MatrixScaled(old(Rows()), amt)
    {
      var vecAmt := Load1f(amt);
      ghost var a := m[..];
      for i := 0 to 4
        invariant forall k | 0 <= k < i :: m[k] == Mul(a[k], vecAmt)
        invariant forall k | i <= k < 4 :: m[k] == a[k]
      {
        m[i] := Mul(m[i], vecAmt);
      }
      assert m[..] == MatrixScaled(a, amt);
    }

    /** operator==: stops at the first row with a differing lane. */
    method Equal(other: Matrix) returns (r: bool)
      requires Valid() && other.Valid()
      ensures r <==> Rows() == other.Rows()
    {
      for i := 0 to 4
        invariant forall k | 0 <= k < i :: m[k] == other.m[k]
      {
        ComparisonMasks(m[i], other.m[i]);
        if !IsZero4f(Ne(m[i], other.m[i])) {
          assert Rows()[i] != other.Rows()[i];
          return false;
        }
      }
      assert Rows() == other.Rows();
      return true;
    }

    /** operator!=: the negation of ==. */
    method NotEqual(other: Matrix) returns (r: bool)
      requires Valid() && other.Valid()
      ensures r <==> Rows() != other.Rows()
    {
      var eq := Equal(other);
      r := !eq;
    }

    /** equals(other, margin): every entry within margin. */
    method ApproxEquals(other: Matrix, errorMargin: real) returns (r: bool)
      requires Valid() && other.Valid()
      ensures r <==> forall i, j | 0 <= i < 4 && 0 <= j < 4 ::
        GenericMath.Abs(At(Rows(), i, j) - At(other.Rows(), i, j)) < errorMargin
    {
      var rows, others := m[..], other.m[..];
      RowsNearAreEntriesNear(rows, others, errorMargin);
      for i := 0 to 4
        invariant forall k | 0 <= k < i :: LanesNear(rows[k], others[k], errorMargin)
      {
        var mask := NotEqualsMask(m[i], other.m[i], errorMargin);
        RowNear(m[i], other.m[i], errorMargin);
        if !IsZero4f(mask) {
          assert rows[i] == m[i] && others[i] == other.m[i];
          assert !LanesNear(rows[i], others[i], errorMargin);
          assert !(forall k | 0 <= k < 4 :: LanesNear(rows[k], others[k], errorMargin));
          assert rows == Rows() && others == other.Rows();
          assert !(forall k, j | 0 <= k < 4 && 0 <= j < 4 ::
            GenericMath.Abs(At(rows, k, j) - At(others, k, j)) < errorMargin);
          return false;
        }
      }
      return true;
    }

    /** transform(v): lane i is row i . v. */
    function TransformVec(v: Vec4): (r: Vec4)
      reads m
      requires Valid()
      ensures forall i | 0 <= i < 4 :: Lane(r, i) == Dot4Value(v, Row(i))
    {
      Transform(v, Rows())
    }

    /** transpose: the rows stored to four float arrays, then row i rebuilt from their lane i. */
    method Transpose() returns (r: Mat4)
      requires Valid()
      ensures r == Transposed(Rows())
    {
      var m0, m1, m2, m3 := m[0], m[1], m[2], m[3];
      var rows: seq<Vec4> := [];
      for i := 0 to 4
        invariant |rows| == i
        invariant forall k | 0 <= k < i :: rows[k] == Vec4(Lane(m0, k), Lane(m1, k), Lane(m2, k), Lane(m3, k))
      {
        rows := rows + [Vec4(Lane(m0, i), Lane(m1, i), Lane(m2, i), Lane(m3, i))];
      }
      r := rows;
      assert forall k | 0 <= k < 4 :: r[k] == Col(Rows(), k);
    }

    /** determinant4x4: the backend's minor expansion, equal to the Leibniz sum. */
    function Determinant4x4(): (d: real)
      reads m
      requires Valid()
      ensures d == Leibniz4(Rows())
    {
      Det4IsLeibniz(Rows());
      Det4(Rows())
    }

    /** determinant3x3: the upper-left block's determinant. */
    function Determinant3x3(): (d: real)
      reads m
      requires Valid()
      ensures d == Leibniz3(Rows())
    {
      Det3x3IsLeibniz(Rows());
      Det3x3(Rows())
    }

    /** inverse: matrixInverse into a new matrix; it is a left inverse. */
    method Inverse() returns (r: Mat4)
      requires Valid() && Det4(Rows()) != 0.0
      ensures r == GenericVecmath.Inverse(Rows())
      ensures MatrixProduct(r, Rows()) == Identity()
    {
      var result := new Vec4[4];
      MatrixInverse(result, m);
      r := result[..];
      InverseIsLeftInverse(Rows());
    }

    /** toNormalMatrix: inverse().transpose(). */
    method ToNormalMatrix() returns (r: Mat4)
      requires Valid() && Det4(Rows()) != 0.0
      ensures r == NormalMatrix(Rows())
    {
      var inv := Inverse();
      var tmp := new Matrix(inv[0], inv[1], inv[2], inv[3]);
      assert tmp.Rows() == inv;
      r := tmp.Transpose();
    }

    /** applyScale(scale): every row times scale, lane by lane; returns the new value. */
    method ApplyScale(scale: Vec4) returns (r: Mat4)
      requires Valid()
      modifies m
      ensures Rows() == ColumnsScaled(old(Rows()), scale) && r == Rows()
    {
      ghost var a := m[..];
      for i := 0 to 4
        invariant forall k | 0 <= k < i :: m[k] == Mul(a[k], scale)
        invariant forall k | i <= k < 4 :: m[k] == a[k]
      {
        m[i] := Mul(m[i], scale);
      }
      assert m[..] == ColumnsScaled(a, scale);
      r := m[..];
    }

    /** The shared first loop of getScale and removeScale: the column sums of squares. */
    method ColumnSums() returns (invScale: Vec4)
      requires Valid()
      ensures invScale == ColumnSquares(Rows())
    {
      invScale := ZERO;
      for i := 0 to 4
        invariant invScale == SquareSum(Rows(), i)
      {
        invScale := Add(invScale, Mul(m[i], m[i]));
      }
    }

    /** getScale: the norms of the first three columns, with 1 in lane 3. */
    method GetScale(lm: GenericMath.Libm) returns (r: Vec4)
      requires Valid() && ScaleDefined(lm, Rows())
      ensures r == ScaleOf(lm, Rows())
    {
      var invScale := ColumnSums();
      var rs := Vec4(GenericMath.Rsqrt(lm, invScale.x), GenericMath.Rsqrt(lm, invScale.y),
                     GenericMath.Rsqrt(lm, invScale.z), invScale.w);
      invScale := Select(rs, MASK_W, ONE);
      r := ReciprocalV(invScale);
    }

    /** removeScale(errorMargin): divides each column by its norm in place (the margin is unused) and returns getScale's value. */
    method RemoveScale(lm: GenericMath.Libm, errorMargin: real) returns (r: Vec4)
      requires Valid() && ScaleDefined(lm, Rows())
      modifies m
      ensures Rows() == RemovedScale(lm, old(Rows()))
      ensures r == ScaleOf(lm, old(Rows()))
    {
      ghost var a := m[..];
      var invScale := ColumnSums();
      var rs := Vec4(GenericMath.Rsqrt(lm, invScale.x), GenericMath.Rsqrt(lm, invScale.y),
                     GenericMath.Rsqrt(lm, invScale.z), invScale.w);
      invScale := Select(rs, MASK_W, ONE);
      assert invScale == InverseScale(lm, a);
      for i := 0 to 4
        invariant forall k | 0 <= k < i :: m[k] == Mul(a[k], invScale)
        invariant forall k | i <= k < 4 :: m[k] == a[k]
      {
        m[i] := Mul(m[i], invScale);
      }
      assert m[..] == RemovedScale(lm, a);
      r := ReciprocalV(invScale);
    }

    /** getTranslation. */
    function Translation(): (r: Vec4)
      reads m
      requires Valid()
      ensures r == Vec4(Row(0).w, Row(1).w, Row(2).w, Row(3).w)
    {
      GetTranslation(Rows())
    }

    /** getRotation: works on a copy with its scale removed; this matrix is left as it was. */
    method GetRotation(lm: GenericMath.Libm) returns (q: Quaternions.Quaternion)
      requires Valid() && RotationDefined(lm, Rows())
      ensures q == RotationOf(lm, Rows())
    {
      var temp := new Matrix.Copy(this);
      var unusedScale := temp.RemoveScale(lm, Quaternions.NORMALIZE_MARGIN);
      var raw := RawRotation(lm, temp.Rows());
      q := Quaternions.Normalized(lm, Quaternions.Make(raw.x, raw.y, raw.z, -raw.w), Quaternions.NORMALIZE_MARGIN);
    }
  }

  /** Every lane of a within margin of the same lane of b. */
  predicate LanesNear(a: Vec4, b: Vec4, margin: real)
  {
    forall j | 0 <= j < 4 :: GenericMath.Abs(Lane(a, j) - Lane(b, j)) < margin
  }

  /** Two matrices are near row by row exactly when they are near entry by entry. */
  lemma RowsNearAreEntriesNear(a: Mat4, b: Mat4, margin: real)
    ensures (forall i | 0 <= i < 4 :: LanesNear(a[i], b[i], margin)) <==>
      (forall i, j | 0 <= i < 4 && 0 <= j < 4 :: GenericMath.Abs(At(a, i, j) - At(b, i, j)) < margin)
  {
    if forall i | 0 <= i < 4 :: LanesNear(a[i], b[i], margin) {
      forall i, j | 0 <= i < 4 && 0 <= j < 4
        ensures GenericMath.Abs(At(a, i, j) - At(b, i, j)) < margin
      {
        assert LanesNear(a[i], b[i], margin);
      }
    }
    if forall i, j | 0 <= i < 4 && 0 <= j < 4 :: GenericMath.Abs(At(a, i, j) - At(b, i, j)) < margin {
      forall i | 0 <= i < 4
        ensures LanesNear(a[i], b[i], margin)
      {
        forall j | 0 <= j < 4
          ensures GenericMath.Abs(Lane(a[i], j) - Lane(b[i], j)) < margin
        {
          assert GenericMath.Abs(At(a, i, j) - At(b, i, j)) < margin;
        }
      }
    }
  }

  /** No lane of the not-equals mask is set exactly when all four lanes are within margin. */
  lemma RowNear(a: Vec4, b: Vec4, margin: real)
    ensures IsZero4f(NotEqualsMask(a, b, margin)) <==> LanesNear(a, b, margin)
  {
    assert Lane(a, 0) == a.x && Lane(a, 1) == a.y && Lane(a, 2) == a.z && Lane(a, 3) == a.w;
    assert Lane(b, 0) == b.x && Lane(b, 1) == b.y && Lane(b, 2) == b.z && Lane(b, 3) == b.w;
  }
}
