/**
 * Transform (transform.hpp / transform.cpp): a translation, a rotation
 * quaternion and a per-axis scale.  A point is scaled, then rotated, then
 * moved by translation * w; the inverse undoes the three steps in the
 * opposite order.  The matrix form is createTransformMatrix of the three
 * parts, and the inverse is only ever returned as a matrix.
 */
module Transforms {
  import GenericMath
  import opened GenericVecmath
  import opened Vecmath
  import Vector3
  import Quaternions
  import Matrices

  datatype Transform = Transform(translation: Vector3.Vector3f, rotation: Quaternions.Quaternion, scale: Vector3.Vector3f)

  /** Transform(): no translation, the identity rotation (0, 0, 0, 1), unit scale. */
  function Default(): Transform
  {
    Transform(Vector3.Make(0.0, 0.0, 0.0), Quaternions.Identity(), Vector3.Make(1.0, 1.0, 1.0))
  }

  /** Transform(translation): the other two parts are the default ones. */
  function FromTranslation(translation: Vector3.Vector3f): (r: Transform)
    ensures r == Default().(translation := translation)
  {
    Transform(translation, Quaternions.Identity(), Vector3.Make(1.0, 1.0, 1.0))
  }

  /** Transform(rotation): the other two parts are the default ones. */
  function FromRotation(rotation: Quaternions.Quaternion): (r: Transform)
    ensures r == Default().(rotation := rotation)
  {
    Transform(Vector3.Make(0.0, 0.0, 0.0), rotation, Vector3.Make(1.0, 1.0, 1.0))
  }

  /** The first three lanes of a and b agree. */
  predicate SameXyz(a: Vec4, b: Vec4)
  {
    a.x == b.x && a.y == b.y && a.z == b.z
  }

  /** No scale lane is 0, so the reciprocal scale the inverse divides by exists. */
  predicate NonZeroScale(t: Transform)
  {
    t.scale.vec.x != 0.0 && t.scale.vec.y != 0.0 && t.scale.vec.z != 0.0
  }

  // ---------------------------------------------------------------------
  // Applying the transform
  // ---------------------------------------------------------------------

  /** transform(vector, w): rotate(scale * vector) + translation * w, lane 3 set to 0. */
  function TransformVec3(t: Transform, v: Vector3.Vector3f, w: real): (r: Vec4)
    ensures r.w == 0.0
  {
    Vector3.ToVectorW(Vector3.Plus(Quaternions.Rotate(t.rotation, Vector3.Times(t.scale, v)),
      Vector3.TimesScalar(t.translation, w)), 0.0)
  }

  /** transform(Vector): the vector's lane 3 is the weight w. */
  function TransformVector(t: Transform, v: Vec4): (r: Vec4)
    ensures r == TransformVec3(t, Vector3.Vector3f(v), v.w)
  {
    TransformVec3(t, Vector3.Vector3f(v), Lane(v, 3))
  }

  /**
   * inverseTransform(vector, w): rotate(vector - translation * w) by the
   * inverse rotation, then divide by the scale, lane 3 set to 0.
   */
  function InverseTransformVec3(lm: GenericMath.Libm, t: Transform, v: Vector3.Vector3f, w: real): (r: Vec4)
    requires Quaternions.CanNormalize(lm, t.rotation, Quaternions.NORMALIZE_MARGIN)
    requires NonZeroScale(t)
    ensures r.w == 0.0
  {
    Vector3.ToVectorW(Vector3.Times(
      Quaternions.Rotate(Quaternions.Inverse(lm, t.rotation), Vector3.Minus(v, Vector3.TimesScalar(t.translation, w))),
      Vector3.ReciprocalVec(t.scale)), 0.0)
  }

  /** inverseTransform(Vector): the vector's lane 3 is the weight w. */
  function InverseTransformVector(lm: GenericMath.Libm, t: Transform, v: Vec4): (r: Vec4)
    requires Quaternions.CanNormalize(lm, t.rotation, Quaternions.NORMALIZE_MARGIN)
    requires NonZeroScale(t)
    ensures r == InverseTransformVec3(lm, t, Vector3.Vector3f(v), v.w)
  {
    InverseTransformVec3(lm, t, Vector3.Vector3f(v), Lane(v, 3))
  }

  // Lane bookkeeping for the steps of transform and its inverse, stated on
  // plain vectors so that the rotation never enters these proofs.

  /** Adding tw and then taking it away again gives back the xyz of p. */
  lemma UntranslateXyz(p: Vector3.Vector3f, tw: Vector3.Vector3f)
    ensures SameXyz(Vector3.Minus(Vector3.Vector3f(Vector3.ToVectorW(Vector3.Plus(p, tw), 0.0)), tw).vec, p.vec)
  {
    var d := Vector3.Minus(Vector3.Vector3f(Vector3.ToVectorW(Vector3.Plus(p, tw), 0.0)), tw);
    assert Vector3.Plus(d, tw).vec == Add(d.vec, tw.vec);
  }

  /** If p has the xyz of v - tw, then p + tw has the xyz of v. */
  lemma RetranslateXyz(p: Vector3.Vector3f, tw: Vector3.Vector3f, v: Vector3.Vector3f)
    requires SameXyz(p.vec, Vector3.Minus(v, tw).vec)
    ensures SameXyz(Vector3.ToVectorW(Vector3.Plus(p, tw), 0.0), v.vec)
  {
    var d := Vector3.Minus(v, tw);
    assert Vector3.Plus(d, tw).vec == Add(d.vec, tw.vec);
  }

  lemma UndoScale(s: real, v: real, r: real)
    requires r * s == 1.0
    ensures (s * v) * r == v && s * (v * r) == v
  {
    assert (s * v) * r == v * (r * s);
    assert s * (v * r) == v * (r * s);
  }

  /** Multiplying s * v by the reciprocal of s gives back the xyz of v. */
  lemma UnscaleXyz(e: Vector3.Vector3f, s: Vector3.Vector3f, v: Vector3.Vector3f)
    requires s.vec.x != 0.0 && s.vec.y != 0.0 && s.vec.z != 0.0
    requires SameXyz(e.vec, Mul(s.vec, v.vec))
    ensures SameXyz(Mul(e.vec, Vector3.ReciprocalVec(s).vec), v.vec)
  {
    var k := Vector3.ReciprocalVec(s);
    assert Vector3.Get(k, 0) * Vector3.Get(s, 0) == 1.0;
    assert Vector3.Get(k, 1) * Vector3.Get(s, 1) == 1.0;
    assert Vector3.Get(k, 2) * Vector3.Get(s, 2) == 1.0;
    UndoScale(s.vec.x, v.vec.x, k.vec.x);
    UndoScale(s.vec.y, v.vec.y, k.vec.y);
    UndoScale(s.vec.z, v.vec.z, k.vec.z);
  }

  /** Multiplying e times the reciprocal of s by s gives back the xyz of e. */
  lemma RescaleXyz(e: Vector3.Vector3f, s: Vector3.Vector3f)
    requires s.vec.x != 0.0 && s.vec.y != 0.0 && s.vec.z != 0.0
    ensures SameXyz(Mul(s.vec, Mul(e.vec, Vector3.ReciprocalVec(s).vec)), e.vec)
  {
    var k := Vector3.ReciprocalVec(s);
    assert Vector3.Get(k, 0) * Vector3.Get(s, 0) == 1.0;
    assert Vector3.Get(k, 1) * Vector3.Get(s, 1) == 1.0;
    assert Vector3.Get(k, 2) * Vector3.Get(s, 2) == 1.0;
    UndoScale(s.vec.x, e.vec.x, k.vec.x);
    UndoScale(s.vec.y, e.vec.y, k.vec.y);
    UndoScale(s.vec.z, e.vec.z, k.vec.z);
  }

  /** The lanes of the closed formula for given |u|^2, u.v and u x v read only the xyz of the vector. */
  lemma TermsReadXyz(q: Vec4, a: Vec4, b: Vec4, uu: real, uv: real, c: Vec4)
    requires SameXyz(a, b)
    ensures SameXyz(RotationTerms(q, a, uu, uv, c), RotationTerms(q, b, uu, uv, c))
  {
    assert b == a.(w := b.w);
  }

  /** The closed rotation formula reads only the xyz of the rotated vector. */
  lemma FormulaReadsXyz(q: Vec4, a: Vec4, b: Vec4)
    requires SameXyz(a, b)
    ensures SameXyz(RotationFormula(q, a), RotationFormula(q, b))
  {
    assert Dot3Value(q, a) == Dot3Value(q, b);
    assert Cross3(q, a) == Cross3(q, b);
    TermsReadXyz(q, a, b, Dot3Value(q, q), Dot3Value(q, a), Cross3(q, a));
  }

  /** rotate reads only the xyz of the rotated vector. */
  lemma RotateReadsXyz(q: Quaternions.Quaternion, a: Vector3.Vector3f, b: Vector3.Vector3f)
    requires SameXyz(a.vec, b.vec)
    ensures SameXyz(Quaternions.Rotate(q, a).vec, Quaternions.Rotate(q, b).vec)
  {
    FormulaReadsXyz(q.vec, a.vec, b.vec);
  }

  /** A unit scale and a zero translation leave the xyz of v alone. */
  lemma DefaultParts(s: Vector3.Vector3f, t0: Vector3.Vector3f, v: Vector3.Vector3f, w: real)
    requires s.vec == Vec4(1.0, 1.0, 1.0, 0.0) && t0.vec == Vec4(0.0, 0.0, 0.0, 0.0)
    ensures SameXyz(Vector3.Times(s, v).vec, v.vec)
    ensures SameXyz(Vector3.ToVectorW(Vector3.Plus(Vector3.Times(s, v), Vector3.TimesScalar(t0, w)), 0.0), v.vec)
  {
  }

  /** The default transform leaves the xyz of every point alone, whatever its weight. */
  lemma DefaultIsIdentity(v: Vector3.Vector3f, w: real)
    ensures SameXyz(TransformVec3(Default(), v, w), v.vec)
  {
    var d := Default();
    assert d.scale.vec == Vec4(1.0, 1.0, 1.0, 0.0) && d.translation.vec == Vec4(0.0, 0.0, 0.0, 0.0);
    DefaultParts(d.scale, d.translation, v, w);
    Quaternions.RotateByIdentity(Vector3.Times(d.scale, v));
  }

  /** createTransformMatrix of no translation, the identity rotation and unit scale is the identity matrix. */
  lemma IdentityParts(t: Vec4, q: Vec4, s: Vec4)
    requires t == Vec4(0.0, 0.0, 0.0, 0.0) && q == Vec4(0.0, 0.0, 0.0, 1.0) && s == Vec4(1.0, 1.0, 1.0, 0.0)
    ensures TransformMatrix(t, q, s) == Identity()
  {
  }

  /** The default transform's matrix is the identity matrix. */
  lemma DefaultMatrix()
    ensures ToMatrix(Default()) == Identity()
  {
    var d := Default();
    assert d.scale.vec == Vec4(1.0, 1.0, 1.0, 0.0) && d.translation.vec == Vec4(0.0, 0.0, 0.0, 0.0);
    IdentityParts(d.translation.vec, d.rotation.vec, d.scale.vec);
  }

  /** The default transform's matrix has determinant 1, so its inverse exists. */
  lemma DefaultDeterminant()
    ensures Det4(ToMatrix(Default())) == 1.0
  {
    DefaultMatrix();
    IdentityDeterminant();
  }

  lemma IdentityDeterminant()
    ensures Det4(Identity()) == 1.0
  {
  }

  // ---------------------------------------------------------------------
  // Matrix form
  // ---------------------------------------------------------------------

  /** toMatrix: createTransformMatrix(translation, rotation, scale). */
  function ToMatrix(t: Transform): (r: Mat4)
    ensures r[3] == Vec4(0.0, 0.0, 0.0, 1.0)
    ensures r[0].w == t.translation.vec.x && r[1].w == t.translation.vec.y && r[2].w == t.translation.vec.z
  {
    Matrices.TransformMatrixOf(t.translation, t.rotation, t.scale)
  }

  /** Row mi of a transform matrix is row ri of the pure-rotation matrix with its lanes scaled by s, and translation ti. */
  predicate ScaledRow(mi: Vec4, ri: Vec4, s: Vec4, ti: real)
  {
    mi == Vec4(ri.x * s.x, ri.y * s.y, ri.z * s.z, ti) && ri.w == 0.0
  }

  /** createTransformMatrix with no translation and unit scale: the pure rotation block. */
  function RotationOnly(q: Vec4): (r: Mat4)
    ensures r[0].w == 0.0 && r[1].w == 0.0 && r[2].w == 0.0 && r[3] == Vec4(0.0, 0.0, 0.0, 1.0)
  {
    TransformMatrix(Vec4(0.0, 0.0, 0.0, 0.0), q, Load1f(1.0))
  }

  lemma Row0Scaled(t: Vec4, q: Vec4, s: Vec4)
    ensures ScaledRow(TransformMatrix(t, q, s)[0], RotationOnly(q)[0], s, t.x)
  {
  }

  lemma Row1Scaled(t: Vec4, q: Vec4, s: Vec4)
    ensures ScaledRow(TransformMatrix(t, q, s)[1], RotationOnly(q)[1], s, t.y)
  {
  }

  lemma Row2Scaled(t: Vec4, q: Vec4, s: Vec4)
    ensures ScaledRow(TransformMatrix(t, q, s)[2], RotationOnly(q)[2], s, t.z)
  {
  }

  /** The rotation-scale block of the matrix is the pure rotation block with its columns scaled. */
  lemma ToMatrixEntries(t: Transform)
    ensures var m, r, s := ToMatrix(t), RotationOnly(t.rotation.vec), t.scale.vec;
      ScaledRow(m[0], r[0], s, t.translation.vec.x) && ScaledRow(m[1], r[1], s, t.translation.vec.y)
      && ScaledRow(m[2], r[2], s, t.translation.vec.z)
  {
    Row0Scaled(t.translation.vec, t.rotation.vec, t.scale.vec);
    Row1Scaled(t.translation.vec, t.rotation.vec, t.scale.vec);
    Row2Scaled(t.translation.vec, t.rotation.vec, t.scale.vec);
  }

  /** One matrix row applied to (v, w): the pure-rotation row applied to s * v, plus ti w. */
  lemma RowStep(p: Vec4, mi: Vec4, u0: Vec4, ri: Vec4, s: Vec4, v: Vec4, ti: real, w: real)
    requires ScaledRow(mi, ri, s, ti)
    requires p == Vec4(v.x, v.y, v.z, w) && u0 == Mul(s, v).(w := 0.0)
    ensures Dot4Value(p, mi) == Dot4Value(u0, ri) + ti * w
  {
    assert v.x * (ri.x * s.x) == (s.x * v.x) * ri.x;
    assert v.y * (ri.y * s.y) == (s.y * v.y) * ri.y;
    assert v.z * (ri.z * s.z) == (s.z * v.z) * ri.z;
  }

  /** The lanes of m applied to v, one row at a time. */
  lemma MatrixLanes(v: Vec4, m: Mat4)
    ensures var r := GenericVecmath.Transform(v, m);
      r.x == Dot4Value(v, m[0]) && r.y == Dot4Value(v, m[1]) && r.z == Dot4Value(v, m[2]) && r.w == Dot4Value(v, m[3])
  {
  }

  /** Three row identities, read off as lanes: a is b plus tr * w in xyz. */
  lemma RowsCombine(p: Vec4, m: Mat4, u0: Vec4, rot: Mat4, tr: Vec4, w: real, a: Vec4, b: Vec4)
    requires Dot4Value(p, m[0]) == Dot4Value(u0, rot[0]) + tr.x * w
    requires Dot4Value(p, m[1]) == Dot4Value(u0, rot[1]) + tr.y * w
    requires Dot4Value(p, m[2]) == Dot4Value(u0, rot[2]) + tr.z * w
    requires a.x == Dot4Value(p, m[0]) && a.y == Dot4Value(p, m[1]) && a.z == Dot4Value(p, m[2])
    requires b.x == Dot4Value(u0, rot[0]) && b.y == Dot4Value(u0, rot[1]) && b.z == Dot4Value(u0, rot[2])
    ensures a.x == b.x + tr.x * w && a.y == b.y + tr.y * w && a.z == b.z + tr.z * w
  {
  }

  /** p + tr * w, with lane 3 set to 0, in xyz: rotated plus tr * w. */
  lemma SumLanes(p: Vector3.Vector3f, tr: Vector3.Vector3f, w: real, rotated: Vec4)
    requires SameXyz(rotated, p.vec)
    ensures var r := Vector3.ToVectorW(Vector3.Plus(p, Vector3.TimesScalar(tr, w)), 0.0);
      r.x == rotated.x + tr.vec.x * w && r.y == rotated.y + tr.vec.y * w && r.z == rotated.z + tr.vec.z * w
  {
  }

  /** The rotation block applied to u with lane 3 cleared, against rotate: equal in xyz. */
  lemma BlockRotates(q: Quaternions.Quaternion, u: Vector3.Vector3f)
    ensures SameXyz(GenericVecmath.Transform(u.vec.(w := 0.0), RotationOnly(q.vec)), Quaternions.Rotate(q, u).vec)
  {
    TransformMatrixRotates(q.vec, u.vec);
    QuatRotateVecFormula(q.vec, u.vec);
  }

  /** The matrix with scaled rows applied to (v, w) is the rotation block applied to s * v, plus tr * w. */
  lemma ScaledRowsApplied(p: Vec4, m: Mat4, u0: Vec4, rot: Mat4, s: Vec4, v: Vec4, tr: Vec4, w: real)
    requires ScaledRow(m[0], rot[0], s, tr.x) && ScaledRow(m[1], rot[1], s, tr.y) && ScaledRow(m[2], rot[2], s, tr.z)
    requires p == Vec4(v.x, v.y, v.z, w) && u0 == Mul(s, v).(w := 0.0)
    ensures var a, b := GenericVecmath.Transform(p, m), GenericVecmath.Transform(u0, rot);
      a.x == b.x + tr.x * w && a.y == b.y + tr.y * w && a.z == b.z + tr.z * w
  {
    RowStep(p, m[0], u0, rot[0], s, v, tr.x, w);
    RowStep(p, m[1], u0, rot[1], s, v, tr.y, w);
    RowStep(p, m[2], u0, rot[2], s, v, tr.z, w);
    MatrixLanes(p, m);
    MatrixLanes(u0, rot);
    RowsCombine(p, m, u0, rot, tr, w, GenericVecmath.Transform(p, m), GenericVecmath.Transform(u0, rot));
  }

  /**
   * toMatrix() agrees with transform: the matrix applied to (v, w) has the
   * xyz of transform(v, w).
   */
  lemma ToMatrixAgrees(t: Transform, v: Vector3.Vector3f, w: real)
    ensures SameXyz(GenericVecmath.Transform(Vec4(v.vec.x, v.vec.y, v.vec.z, w), ToMatrix(t)), TransformVec3(t, v, w))
  {
    var u := Vector3.Times(t.scale, v);
    var b := GenericVecmath.Transform(u.vec.(w := 0.0), RotationOnly(t.rotation.vec));
    ToMatrixEntries(t);
    ScaledRowsApplied(Vec4(v.vec.x, v.vec.y, v.vec.z, w), ToMatrix(t), u.vec.(w := 0.0), RotationOnly(t.rotation.vec),
      t.scale.vec, v.vec, t.translation.vec, w);
    BlockRotates(t.rotation, u);
    SumLanes(Quaternions.Rotate(t.rotation, u), t.translation, w, b);
  }

  /** A unit rotation gives the matrix the determinant s.x s.y s.z. */
  lemma ToMatrixDeterminant(t: Transform)
    requires Quaternions.LengthSquared(t.rotation) == 1.0
    ensures Det4(ToMatrix(t)) == t.scale.vec.x * t.scale.vec.y * t.scale.vec.z
    ensures NonZeroScale(t) ==> Det4(ToMatrix(t)) != 0.0
  {
    TransformMatrixDeterminant(t.translation.vec, t.rotation.vec, t.scale.vec);
    var s := t.scale.vec;
    if NonZeroScale(t) {
      assert s.x * s.y != 0.0;
    }
  }

  /**
   * inverse(): toMatrix().inverse(), a matrix rather than a transform.  It
   * is a left inverse of toMatrix().
   */
  function Inverse(t: Transform): (r: Mat4)
    requires Det4(ToMatrix(t)) != 0.0
    ensures MatrixProduct(r, ToMatrix(t)) == Identity()
  {
    InverseIsLeftInverse(ToMatrix(t));
    GenericVecmath.Inverse(ToMatrix(t))
  }

  // ---------------------------------------------------------------------
  // The inverse transform
  // ---------------------------------------------------------------------

  /**
   * For a unit rotation and a nonzero scale, inverseTransform undoes
   * transform for the same weight.
   */
  lemma InverseTransformUndoesTransform(lm: GenericMath.Libm, t: Transform, v: Vector3.Vector3f, w: real)
    requires GenericMath.SqrtIsExact(lm)
    requires Quaternions.LengthSquared(t.rotation) == 1.0 && NonZeroScale(t)
    ensures Quaternions.CanNormalize(lm, t.rotation, Quaternions.NORMALIZE_MARGIN)
    ensures SameXyz(InverseTransformVec3(lm, t, Vector3.Vector3f(TransformVec3(t, v, w)), w), v.vec)
  {
    var su := Vector3.Times(t.scale, v);
    var p := Quaternions.Rotate(t.rotation, su);
    var tw := Vector3.TimesScalar(t.translation, w);
    var d := Vector3.Minus(Vector3.Vector3f(TransformVec3(t, v, w)), tw);
    UntranslateXyz(p, tw);
    Quaternions.InverseUndoesRotation(lm, t.rotation, su);
    var inv := Quaternions.Inverse(lm, t.rotation);
    RotateReadsXyz(inv, d, p);
    UnscaleXyz(Quaternions.Rotate(inv, d), t.scale, v);
  }

  /**
   * For a unit rotation and a nonzero scale, transform undoes
   * inverseTransform for the same weight.
   */
  lemma TransformUndoesInverseTransform(lm: GenericMath.Libm, t: Transform, v: Vector3.Vector3f, w: real)
    requires GenericMath.SqrtIsExact(lm)
    requires Quaternions.LengthSquared(t.rotation) == 1.0 && NonZeroScale(t)
    ensures Quaternions.CanNormalize(lm, t.rotation, Quaternions.NORMALIZE_MARGIN)
    ensures SameXyz(TransformVec3(t, Vector3.Vector3f(InverseTransformVec3(lm, t, v, w)), w), v.vec)
  {
    var tw := Vector3.TimesScalar(t.translation, w);
    var d := Vector3.Minus(v, tw);
    Quaternions.InverseUndoesRotation(lm, t.rotation, d);
    var inv := Quaternions.Inverse(lm, t.rotation);
    var e := Quaternions.Rotate(inv, d);
    var y := InverseTransformVec3(lm, t, v, w);
    var su := Vector3.Times(t.scale, Vector3.Vector3f(y));
    RescaleXyz(e, t.scale);
    RotateReadsXyz(t.rotation, su, e);
    RetranslateXyz(Quaternions.Rotate(t.rotation, su), tw, v);
  }

  // ---------------------------------------------------------------------
  // Component-wise operators
  // ---------------------------------------------------------------------

  /** operator+: translations, rotations and scales added lane by lane. */
  function Plus(a: Transform, b: Transform): (r: Transform)
    ensures forall i | 0 <= i < 4 :: Lane(r.translation.vec, i) == Lane(a.translation.vec, i) + Lane(b.translation.vec, i)
    ensures forall i | 0 <= i < 4 :: Quaternions.Get(r.rotation, i) == Quaternions.Get(a.rotation, i) + Quaternions.Get(b.rotation, i)
    ensures forall i | 0 <= i < 4 :: Lane(r.scale.vec, i) == Lane(a.scale.vec, i) + Lane(b.scale.vec, i)
  {
    Transform(Vector3.Plus(a.translation, b.translation), Quaternions.Plus(a.rotation, b.rotation),
      Vector3.Plus(a.scale, b.scale))
  }

  /**
   * operator*(Transform): translations and scales by the lane-wise vector
   * product, rotations by the Hamilton product.
   */
  function Times(a: Transform, b: Transform): (r: Transform)
    ensures r.translation == Vector3.Times(a.translation, b.translation) && r.scale == Vector3.Times(a.scale, b.scale)
    ensures r.rotation.vec == HamiltonProduct(a.rotation.vec, b.rotation.vec)
  {
    Transform(Vector3.Times(a.translation, b.translation), Quaternions.Times(a.rotation, b.rotation),
      Vector3.Times(a.scale, b.scale))
  }

  /** operator*(float): every part scaled by the same amount. */
  function TimesScalar(a: Transform, amt: real): (r: Transform)
    ensures r.translation == Vector3.TimesScalar(a.translation, amt) && r.scale == Vector3.TimesScalar(a.scale, amt)
    ensures forall i | 0 <= i < 4 :: Quaternions.Get(r.rotation, i) == Quaternions.Get(a.rotation, i) * amt
  {
    Transform(Vector3.TimesScalar(a.translation, amt), Quaternions.TimesScalar(a.rotation, amt),
      Vector3.TimesScalar(a.scale, amt))
  }

  lemma SameVec(a: Vec4, b: Vec4)
    requires forall i | 0 <= i < 4 :: Lane(a, i) == Lane(b, i)
    ensures a == b
  {
    assert Lane(a, 0) == Lane(b, 0) && Lane(a, 1) == Lane(b, 1) && Lane(a, 2) == Lane(b, 2) && Lane(a, 3) == Lane(b, 3);
  }

  /** Adding a transform to itself is scaling it by 2, and + is commutative. */
  lemma PlusProperties(a: Transform, b: Transform)
    ensures Plus(a, a) == TimesScalar(a, 2.0)
    ensures Plus(a, b) == Plus(b, a)
  {
    var d, s := Plus(a, a), TimesScalar(a, 2.0);
    SameVec(d.translation.vec, s.translation.vec);
    SameVec(d.scale.vec, s.scale.vec);
    forall i | 0 <= i < 4
      ensures Lane(d.rotation.vec, i) == Lane(s.rotation.vec, i)
    {
      assert Quaternions.Get(d.rotation, i) == Quaternions.Get(a.rotation, i) + Quaternions.Get(a.rotation, i);
    }
    SameVec(d.rotation.vec, s.rotation.vec);
    var p, q := Plus(a, b), Plus(b, a);
    SameVec(p.translation.vec, q.translation.vec);
    SameVec(p.scale.vec, q.scale.vec);
    forall i | 0 <= i < 4
      ensures Lane(p.rotation.vec, i) == Lane(q.rotation.vec, i)
    {
      assert Quaternions.Get(p.rotation, i) == Quaternions.Get(a.rotation, i) + Quaternions.Get(b.rotation, i);
      assert Quaternions.Get(q.rotation, i) == Quaternions.Get(b.rotation, i) + Quaternions.Get(a.rotation, i);
    }
    SameVec(p.rotation.vec, q.rotation.vec);
  }

  /**
   * operator* is not composition: the default transform is not a unit for
   * it, because translations multiply and the default translation is 0.
   */
  lemma TimesIsNotComposition(a: Transform)
    ensures Times(a, Default()).translation.vec == Vec4(0.0, 0.0, 0.0, 0.0)
    ensures Times(a, Default()).scale == a.scale.(vec := a.scale.vec.(w := 0.0))
    ensures Times(a, Default()).rotation == a.rotation
  {
    var r := Times(a, Default());
    assert Lane(r.translation.vec, 0) == Lane(a.translation.vec, 0) * 0.0;
    assert Lane(r.translation.vec, 1) == Lane(a.translation.vec, 1) * 0.0;
    assert Lane(r.translation.vec, 2) == Lane(a.translation.vec, 2) * 0.0;
    assert Lane(r.translation.vec, 3) == Lane(a.translation.vec, 3) * 0.0;
    assert Lane(r.scale.vec, 0) == Lane(a.scale.vec, 0) * 1.0;
    assert Lane(r.scale.vec, 1) == Lane(a.scale.vec, 1) * 1.0;
    assert Lane(r.scale.vec, 2) == Lane(a.scale.vec, 2) * 1.0;
    assert Lane(r.scale.vec, 3) == Lane(a.scale.vec, 3) * 0.0;
    assert r.rotation.vec == a.rotation.vec;
  }

  // ---------------------------------------------------------------------
  // In-place updates
  // ---------------------------------------------------------------------

  /** A Transform variable: the setters, the compound operators and normalizeRotation overwrite its fields. */
  class TransformVar {
    var translation: Vector3.Vector3f
    var rotation: Quaternions.Quaternion
    var scale: Vector3.Vector3f

    function Value(): Transform
      reads this
    {
      Transform(translation, rotation, scale)
    }

    constructor (t: Transform)
      ensures Value() == t
    {
      translation, rotation, scale := t.translation, t.rotation, t.scale;
    }

    /** set(translation, rotation, scale): all three fields. */
    method Set(translationIn: Vector3.Vector3f, rotationIn: Quaternions.Quaternion, scaleIn: Vector3.Vector3f)
      modifies this
      ensures Value() == Transform(translationIn, rotationIn, scaleIn)
    {
      translation, rotation, scale := translationIn, rotationIn, scaleIn;
    }

    method SetTranslation(val: Vector3.Vector3f)
      modifies this
      ensures Value() == old(Value()).(translation := val)
    {
      translation := val;
    }

    method SetRotation(val: Quaternions.Quaternion)
      modifies this
      ensures Value() == old(Value()).(rotation := val)
    {
      rotation := val;
    }

    method SetScale(val: Vector3.Vector3f)
      modifies this
      ensures Value() == old(Value()).(scale := val)
    {
      scale := val;
    }

    /** operator+=: returns a copy of the updated value. */
    method AddAssign(other: Transform) returns (r: Transform)
      modifies this
      ensures Value() == Plus(old(Value()), other) && r == Value()
    {
      translation := Vector3.Plus(translation, other.translation);
      rotation := Quaternions.Plus(rotation, other.rotation);
      scale := Vector3.Plus(scale, other.scale);
      r := Value();
    }

    method MulAssign(other: Transform) returns (r: Transform)
      modifies this
      ensures Value() == Times(old(Value()), other) && r == Value()
    {
      translation := Vector3.Times(translation, other.translation);
      rotation := Quaternions.Times(rotation, other.rotation);
      scale := Vector3.Times(scale, other.scale);
      r := Value();
    }

    method MulScalarAssign(amt: real) returns (r: Transform)
      modifies this
      ensures Value() == TimesScalar(old(Value()), amt) && r == Value()
    {
      translation := Vector3.TimesScalar(translation, amt);
      rotation := Quaternions.TimesScalar(rotation, amt);
      scale := Vector3.TimesScalar(scale, amt);
      r := Value();
    }

    /** normalizeRotation: the rotation becomes rotation.normalized(); nothing else changes. */
    method NormalizeRotation(lm: GenericMath.Libm)
      requires Quaternions.CanNormalize(lm, rotation, Quaternions.NORMALIZE_MARGIN)
      modifies this
      ensures Value() == old(Value()).(rotation := Quaternions.Normalized(lm, old(rotation), Quaternions.NORMALIZE_MARGIN))
    {
      rotation := Quaternions.Normalized(lm, rotation, Quaternions.NORMALIZE_MARGIN);
    }

    /** isRotationNormalized: |rotation|^2 within 1e-4 of 1. */
    method IsRotationNormalized() returns (b: bool)
      ensures b <==> GenericMath.Abs(1.0 - Quaternions.LengthSquared(rotation)) < IS_NORMALIZED_MARGIN
    {
      b := Quaternions.IsNormalized(rotation, IS_NORMALIZED_MARGIN);
    }
  }

  /** The default margin of isNormalized. */
  const IS_NORMALIZED_MARGIN: real := 0.0001
}
