/**
 * Quaternion: a rotation stored as one four-lane vector (x, y, z, w) with
 * the scalar part w in lane 3.  Its product is the backend's quatMul, its
 * action on a Vector3f the backend's quatRotateVec.
 */
module Quaternions {
  import GenericMath
  import opened GenericVecmath
  import opened Vecmath
  import Vector3

  datatype Quaternion = Quaternion(vec: Vec4)

  /** normalized()'s default margin, 1.e-8f. */
  const NORMALIZE_MARGIN: real := 0.00000001

  /** The quaternion (0, 0, 0, 1) that normalized() falls back to. */
  function Identity(): Quaternion
  {
    Quaternion(Vec4(0.0, 0.0, 0.0, 1.0))
  }

  /** operator[]: lane index of the stored vector. */
  function Get(q: Quaternion, index: nat): real
    requires index < 4
  {
    Lane(q.vec, index)
  }

  /** Quaternion(x, y, z, w). */
  function Make(x: real, y: real, z: real, w: real): (r: Quaternion)
    ensures Get(r, 0) == x && Get(r, 1) == y && Get(r, 2) == z && Get(r, 3) == w
  {
    Quaternion(Vec4(x, y, z, w))
  }

  /** Quaternion(axis, angle): the axis scaled by sin(angle / 2) in xyz and cos(angle / 2) in w. */
  function FromAxisAngle(lm: GenericMath.Libm, axis: Vector3.Vector3f, angle: real): (r: Quaternion)
    ensures forall i | 0 <= i < 3 :: Get(r, i) == Vector3.Get(axis, i) * lm.sin(angle * 0.5)
    ensures Get(r, 3) == lm.cos(angle * 0.5)
  {
    var sinAngle := lm.sin(angle * 0.5);
    var cosAngle := lm.cos(angle * 0.5);
    var vals := Vector3.ToVector(axis);
    Quaternion(Vec4(vals.x * sinAngle, vals.y * sinAngle, vals.z * sinAngle, cosAngle))
  }

  /** A unit axis and a sine and cosine with sin^2 + cos^2 = 1 give a unit quaternion. */
  lemma AxisAngleIsUnit(lm: GenericMath.Libm, axis: Vector3.Vector3f, angle: real)
    requires Vector3.Dot(axis, axis) == 1.0
    requires lm.sin(angle * 0.5) * lm.sin(angle * 0.5) + lm.cos(angle * 0.5) * lm.cos(angle * 0.5) == 1.0
    ensures LengthSquared(FromAxisAngle(lm, axis, angle)) == 1.0
  {
    var s := lm.sin(angle * 0.5);
    var q := FromAxisAngle(lm, axis, angle);
    var a := axis.vec;
    assert q.vec == Vec4(a.x * s, a.y * s, a.z * s, lm.cos(angle * 0.5));
    DotScaled(a, s);
    assert Dot3Value(q.vec, q.vec) == Dot3Value(Mul(a, Load1f(s)), Mul(a, Load1f(s)));
    MulSubst(Dot3Value(a, a), 1.0, s * s);
  }

  // ---------------------------------------------------------------------
  // Arithmetic
  // ---------------------------------------------------------------------

  function Plus(a: Quaternion, b: Quaternion): (r: Quaternion)
    ensures forall i | 0 <= i < 4 :: Get(r, i) == Get(a, i) + Get(b, i)
  {
    Quaternion(Add(a.vec, b.vec))
  }

  function Minus(a: Quaternion, b: Quaternion): (r: Quaternion)
    ensures Plus(r, b) == a
  {
    Quaternion(Sub(a.vec, b.vec))
  }

  /** operator*(Quaternion): quatMul, which is the Hamilton product. */
  function Times(a: Quaternion, b: Quaternion): (r: Quaternion)
    ensures r.vec == HamiltonProduct(a.vec, b.vec)
  {
    QuatMulIsHamilton(a.vec, b.vec);
    Quaternion(QuatMul(a.vec, b.vec))
  }

  function TimesScalar(a: Quaternion, amt: real): (r: Quaternion)
    ensures forall i | 0 <= i < 4 :: Get(r, i) == Get(a, i) * amt
  {
    Quaternion(Mul(a.vec, Load1f(amt)))
  }

  /** operator/(amt): multiplication by the reciprocal, so dividing undoes scaling. */
  function QuotientScalar(a: Quaternion, amt: real): (r: Quaternion)
    requires amt != 0.0
    ensures TimesScalar(r, amt) == a
  {
    var k := GenericMath.Reciprocal(amt);
    ScaleUndone(a.vec, k, amt);
    TimesScalar(a, k)
  }

  lemma ScaleUndone(v: Vec4, k: real, amt: real)
    requires k * amt == 1.0
    ensures Mul(Mul(v, Load1f(k)), Load1f(amt)) == v
  {
    assert v.x * k * amt == v.x * (k * amt);
    assert v.y * k * amt == v.y * (k * amt);
    assert v.z * k * amt == v.z * (k * amt);
    assert v.w * k * amt == v.w * (k * amt);
  }

  /** operator*(Vector3f) and rotate(): quatRotateVec on the vector's four lanes. */
  function Rotate(q: Quaternion, v: Vector3.Vector3f): (r: Vector3.Vector3f)
    ensures r.vec == RotationFormula(q.vec, v.vec)
  {
    QuatRotateVecFormula(q.vec, Vector3.ToVector(v));
    Vector3.Vector3f(QuatRotateVec(q.vec, Vector3.ToVector(v)))
  }

  /** The identity quaternion leaves every vector where it is. */
  lemma RotateByIdentity(v: Vector3.Vector3f)
    ensures Rotate(Identity(), v) == v
  {
  }

  // ---------------------------------------------------------------------
  // Comparisons
  // ---------------------------------------------------------------------

  /** operator==: all four lanes equal. */
  function Equal(a: Quaternion, b: Quaternion): (r: bool)
    ensures r <==> a == b
  {
    ComparisonMasks(a.vec, b.vec);
    IsZero4f(Ne(a.vec, b.vec))
  }

  /** operator!=: true only when every one of the four lanes differs. */
  function NotEqual(a: Quaternion, b: Quaternion): (r: bool)
    ensures r <==> forall i | 0 <= i < 4 :: Get(a, i) != Get(b, i)
  {
    assert Get(a, 0) == a.vec.x && Get(a, 1) == a.vec.y && Get(a, 2) == a.vec.z && Get(a, 3) == a.vec.w;
    assert Get(b, 0) == b.vec.x && Get(b, 1) == b.vec.y && Get(b, 2) == b.vec.z && Get(b, 3) == b.vec.w;
    IsZero4f(Eq(a.vec, b.vec))
  }

  /** != is not the negation of ==: two quaternions differing in one lane are neither. */
  lemma NotEqualIsNotNegation()
    ensures !Equal(Identity(), Make(0.0, 0.0, 0.0, 0.0))
    ensures !NotEqual(Identity(), Make(0.0, 0.0, 0.0, 0.0))
    ensures forall a: Quaternion, b: Quaternion :: Equal(a, b) ==> !NotEqual(a, b)
  {
    assert Get(Identity(), 0) == Get(Make(0.0, 0.0, 0.0, 0.0), 0);
  }

  /** All four lanes of a and b within margin of each other. */
  predicate Near(a: Vec4, b: Vec4, margin: real)
  {
    forall i | 0 <= i < 4 :: GenericMath.Abs(Lane(a, i) - Lane(b, i)) < margin
  }

  /** equals(other, margin): within margin of other, or of -other, on every lane. */
  function ApproxEquals(a: Quaternion, b: Quaternion, margin: real): (r: bool)
    ensures r <==> Near(a.vec, b.vec, margin) || Near(a.vec, Neg(b.vec), margin)
  {
    var error := Load1f(margin);
    NearMask(a.vec, b.vec, margin);
    NearMask(a.vec, Neg(b.vec), margin);
    assert Sub(a.vec, Neg(b.vec)) == Add(a.vec, b.vec);
    IsZero4f(Ge(AbsV(Sub(a.vec, b.vec)), error)) || IsZero4f(Ge(AbsV(Add(a.vec, b.vec)), error))
  }

  /** No lane of |a - b| >= margin exactly when all four lanes are within margin. */
  lemma NearMask(a: Vec4, b: Vec4, margin: real)
    ensures IsZero4f(Ge(AbsV(Sub(a, b)), Load1f(margin))) <==> Near(a, b, margin)
  {
    assert Lane(a, 0) == a.x && Lane(a, 1) == a.y && Lane(a, 2) == a.z && Lane(a, 3) == a.w;
    assert Lane(b, 0) == b.x && Lane(b, 1) == b.y && Lane(b, 2) == b.z && Lane(b, 3) == b.w;
  }

  /** equals does not see the sign: q and -q describe the same rotation. */
  lemma ApproxEqualsIgnoresSign(a: Quaternion, b: Quaternion, margin: real)
    ensures ApproxEquals(a, Quaternion(Neg(b.vec)), margin) <==> ApproxEquals(a, b, margin)
    ensures 0.0 < margin ==> ApproxEquals(a, a, margin) && ApproxEquals(a, Quaternion(Neg(a.vec)), margin)
  {
    assert Neg(Neg(b.vec)) == b.vec;
    if 0.0 < margin {
      assert Neg(Neg(a.vec)) == a.vec;
      forall i | 0 <= i < 4
        ensures GenericMath.Abs(Lane(a.vec, i) - Lane(a.vec, i)) < margin
      {
        assert Lane(a.vec, i) - Lane(a.vec, i) == 0.0;
      }
    }
  }

  // ---------------------------------------------------------------------
  // Length
  // ---------------------------------------------------------------------

  /** dot: the four-lane dot product. */
  function Dot(a: Quaternion, b: Quaternion): (r: real)
    ensures r == Dot4Value(a.vec, b.vec)
  {
    Lane(Dot4(a.vec, b.vec), 0)
  }

  function LengthSquared(q: Quaternion): (r: real)
    ensures r == Dot4Value(q.vec, q.vec) && 0.0 <= r
  {
    Dot(q, q)
  }

  function Length(lm: GenericMath.Libm, q: Quaternion): real
  {
    lm.sqrt(LengthSquared(q))
  }

  /** isNormalized(errorMargin): |1 - |q|^2| < errorMargin. */
  predicate IsNormalized(q: Quaternion, errorMargin: real)
  {
    GenericMath.Abs(1.0 - LengthSquared(q)) < errorMargin
  }

  /** normalized() needs a nonzero square root wherever it divides by it. */
  predicate CanNormalize(lm: GenericMath.Libm, q: Quaternion, errorMargin: real)
  {
    LengthSquared(q) >= errorMargin ==> lm.sqrt(LengthSquared(q)) != 0.0
  }

  /** normalized(errorMargin): (0, 0, 0, 1) below the margin, else q * rsqrt(|q|^2). */
  function Normalized(lm: GenericMath.Libm, q: Quaternion, errorMargin: real): (r: Quaternion)
    requires CanNormalize(lm, q, errorMargin)
    ensures LengthSquared(q) < errorMargin ==> r == Identity()
    ensures LengthSquared(q) >= errorMargin ==>
      forall i | 0 <= i < 4 :: Get(r, i) * lm.sqrt(LengthSquared(q)) == Get(q, i)
  {
    var lenSq := LengthSquared(q);
    if lenSq < errorMargin then
      Identity()
    else
      var k := GenericMath.Rsqrt(lm, lenSq);
      Vector3.ScaledByReciprocal(q.vec, k, lm.sqrt(lenSq));
      Quaternion(Mul(q.vec, Load1f(k)))
  }

  /** With an exact square root and a positive margin, normalized() is always a unit quaternion. */
  lemma NormalizedIsUnit(lm: GenericMath.Libm, q: Quaternion, errorMargin: real)
    requires GenericMath.SqrtIsExact(lm)
    requires 0.0 < errorMargin
    ensures CanNormalize(lm, q, errorMargin)
    ensures LengthSquared(Normalized(lm, q, errorMargin)) == 1.0
    ensures IsNormalized(Normalized(lm, q, errorMargin), errorMargin)
  {
    var lenSq := LengthSquared(q);
    if lenSq >= errorMargin {
      assert lm.sqrt(lenSq) * lm.sqrt(lenSq) == lenSq;
      var k := GenericMath.Rsqrt(lm, lenSq);
      UnitAfterScaling(lm, q.vec, lenSq, k);
      assert Normalized(lm, q, errorMargin).vec == Mul(q.vec, Load1f(k));
    }
  }

  /** A unit quaternion is its own normalization, given an exact square root. */
  lemma NormalizedOfUnit(lm: GenericMath.Libm, q: Quaternion, errorMargin: real)
    requires GenericMath.SqrtIsExact(lm)
    requires LengthSquared(q) == 1.0 && errorMargin <= 1.0
    ensures CanNormalize(lm, q, errorMargin)
    ensures Normalized(lm, q, errorMargin) == q
  {
    SqrtOfOne(lm);
    var r := Normalized(lm, q, errorMargin);
    assert forall i | 0 <= i < 4 :: Get(r, i) == Get(q, i);
    assert r.vec == q.vec;
  }

  lemma SqrtOfOne(lm: GenericMath.Libm)
    requires GenericMath.SqrtIsExact(lm)
    ensures lm.sqrt(1.0) == 1.0
  {
    Vector3.SqrtOfSquare(lm, -1.0);
  }

  // ---------------------------------------------------------------------
  // Axis and angle
  // ---------------------------------------------------------------------

  /** max(1 - w^2, 0), the squared sine of half the rotation angle of a unit quaternion. */
  function AxisDivisorSquared(q: Quaternion): real
  {
    GenericMath.Max(1.0 - q.vec.w * q.vec.w, 0.0)
  }

  function AxisDivisor(lm: GenericMath.Libm, q: Quaternion): real
  {
    lm.sqrt(AxisDivisorSquared(q))
  }

  /** getAxis needs rsqrt(max(1 - w^2, 0)) to exist: |w| < 1 with an exact square root. */
  predicate HasAxis(lm: GenericMath.Libm, q: Quaternion)
  {
    AxisDivisor(lm, q) != 0.0
  }

  /** getAxis: every lane divided by sqrt(max(1 - w^2, 0)). */
  function GetAxis(lm: GenericMath.Libm, q: Quaternion): (r: Vector3.Vector3f)
    requires HasAxis(lm, q)
    ensures forall i | 0 <= i < 4 :: Lane(r.vec, i) * AxisDivisor(lm, q) == Get(q, i)
  {
    var rangleDivisor := GenericMath.Rsqrt(lm, AxisDivisorSquared(q));
    Vector3.ScaledByReciprocal(q.vec, rangleDivisor, AxisDivisor(lm, q));
    Vector3.Vector3f(Mul(q.vec, Load1f(rangleDivisor)))
  }

  /** getAngle: 2 acos(w). */
  function GetAngle(lm: GenericMath.Libm, q: Quaternion): real
  {
    2.0 * lm.acos(Get(q, 3))
  }

  /** axisAndAngle: both at once. */
  method AxisAndAngle(lm: GenericMath.Libm, q: Quaternion) returns (axis: Vector3.Vector3f, angle: real)
    requires HasAxis(lm, q)
    ensures axis == GetAxis(lm, q) && angle == GetAngle(lm, q)
  {
    angle := GetAngle(lm, q);
    axis := GetAxis(lm, q);
  }

  /**
   * getAxis and getAngle undo the axis-angle constructor when sin(angle / 2) > 0,
   * sin^2 + cos^2 = 1, the square root is exact and acos inverts cos there.
   */
  lemma AxisAngleRoundTrip(lm: GenericMath.Libm, axis: Vector3.Vector3f, angle: real)
    requires GenericMath.SqrtIsExact(lm)
    requires 0.0 < lm.sin(angle * 0.5)
    requires lm.sin(angle * 0.5) * lm.sin(angle * 0.5) + lm.cos(angle * 0.5) * lm.cos(angle * 0.5) == 1.0
    ensures HasAxis(lm, FromAxisAngle(lm, axis, angle))
    ensures forall i | 0 <= i < 3 :: Vector3.Get(GetAxis(lm, FromAxisAngle(lm, axis, angle)), i) == Vector3.Get(axis, i)
    ensures lm.acos(lm.cos(angle * 0.5)) == angle * 0.5 ==> GetAngle(lm, FromAxisAngle(lm, axis, angle)) == angle
  {
    var s := lm.sin(angle * 0.5);
    var c := lm.cos(angle * 0.5);
    var q := FromAxisAngle(lm, axis, angle);
    assert q.vec.w == c;
    DivisorOfSine(lm, q, s);
    var r := GetAxis(lm, q);
    forall i | 0 <= i < 3
      ensures Vector3.Get(r, i) == Vector3.Get(axis, i)
    {
      assert Lane(r.vec, i) * s == Vector3.Get(axis, i) * s;
      CancelFactor(Lane(r.vec, i), Vector3.Get(axis, i), s);
    }
  }

  /** sqrt(max(1 - w^2, 0)) = s when s > 0 and s^2 + w^2 = 1. */
  lemma DivisorOfSine(lm: GenericMath.Libm, q: Quaternion, s: real)
    requires GenericMath.SqrtIsExact(lm)
    requires 0.0 < s && s * s + q.vec.w * q.vec.w == 1.0
    ensures AxisDivisor(lm, q) == s
  {
    SqrtOfPositiveSquare(lm, AxisDivisorSquared(q), s);
  }

  lemma SqrtOfPositiveSquare(lm: GenericMath.Libm, x: real, s: real)
    requires GenericMath.SqrtIsExact(lm)
    requires 0.0 <= s && x == s * s
    ensures lm.sqrt(x) == s
  {
    var t := lm.sqrt(x);
    assert 0.0 <= t && t * t == x;
    assert (t - s) * (t + s) == 0.0;
    if t + s != 0.0 {
      Vector3.ZeroProduct(t - s, t + s);
    }
  }

  lemma CancelFactor(x: real, y: real, s: real)
    requires x * s == y * s && s != 0.0
    ensures x == y
  {
    assert (x - y) * s == 0.0;
  }

  // ---------------------------------------------------------------------
  // Conjugate and inverse
  // ---------------------------------------------------------------------

  /** conjugate: x, y, z negated, w kept. */
  function Conjugate(q: Quaternion): (r: Quaternion)
    ensures forall i | 0 <= i < 3 :: Get(r, i) == -Get(q, i)
    ensures Get(r, 3) == Get(q, 3)
  {
    Quaternion(Mul(q.vec, Vec4(-1.0, -1.0, -1.0, 1.0)))
  }

  lemma ConjugateInvolution(q: Quaternion)
    ensures Conjugate(Conjugate(q)) == q
  {
    var c := Conjugate(Conjugate(q));
    assert Get(c, 0) == Get(q, 0) && Get(c, 1) == Get(q, 1) && Get(c, 2) == Get(q, 2) && Get(c, 3) == Get(q, 3);
  }

  /** q q* is the real quaternion |q|^2. */
  lemma TimesConjugate(q: Quaternion)
    ensures Times(q, Conjugate(q)).vec == Vec4(0.0, 0.0, 0.0, LengthSquared(q))
  {
    var c := Conjugate(q);
    assert c.vec == Vec4(-q.vec.x, -q.vec.y, -q.vec.z, q.vec.w);
  }

  /** inverse: normalized().conjugate(). */
  function Inverse(lm: GenericMath.Libm, q: Quaternion): Quaternion
    requires CanNormalize(lm, q, NORMALIZE_MARGIN)
  {
    Conjugate(Normalized(lm, q, NORMALIZE_MARGIN))
  }

  /** (p q) q* is p scaled by |q|^2, lane by lane. */
  lemma HamiltonThenConjugate(p: Vec4, q: Vec4)
    ensures HamiltonProduct(HamiltonProduct(p, q), Vec4(-q.x, -q.y, -q.z, q.w)) == Mul(p, Load1f(Dot4Value(q, q)))
  {
    var c := Vec4(-q.x, -q.y, -q.z, q.w);
    var pq := HamiltonProduct(p, q);
    var r, n := HamiltonProduct(pq, c), Dot4Value(q, q);
    assert IsProduct(p, q, pq) by { ProductLanes(p, q); }
    assert IsConjugateProduct(pq, q, r) by {
      ProductLanes(pq, c);
      ConjugateFactor(pq, q, c, r);
    }
    ConjugatedLanes(p, q, pq, r, n);
    BroadcastScale(p, n);
  }

  lemma BroadcastScale(p: Vec4, n: real)
    ensures Mul(p, Load1f(n)) == Vec4(p.x * n, p.y * n, p.z * n, p.w * n)
  {
  }

  /** r holds the lanes of the Hamilton product a b. */
  predicate IsProduct(a: Vec4, b: Vec4, r: Vec4)
  {
    && r.x == a.x * b.w + a.w * b.x + a.y * b.z - a.z * b.y
    && r.y == a.y * b.w + a.w * b.y + a.z * b.x - a.x * b.z
    && r.z == a.z * b.w + a.w * b.z + a.x * b.y - a.y * b.x
    && r.w == a.w * b.w - a.x * b.x - a.y * b.y - a.z * b.z
  }

  lemma ProductLanes(a: Vec4, b: Vec4)
    ensures IsProduct(a, b, HamiltonProduct(a, b))
  {
  }

  /** r holds the lanes of the Hamilton product a q*. */
  predicate IsConjugateProduct(a: Vec4, q: Vec4, r: Vec4)
  {
    && r.x == a.x * q.w + a.w * (-q.x) + a.y * (-q.z) - a.z * (-q.y)
    && r.y == a.y * q.w + a.w * (-q.y) + a.z * (-q.x) - a.x * (-q.z)
    && r.z == a.z * q.w + a.w * (-q.z) + a.x * (-q.y) - a.y * (-q.x)
    && r.w == a.w * q.w - a.x * (-q.x) - a.y * (-q.y) - a.z * (-q.z)
  }

  /** The product by c = q* restated with the lanes of q. */
  lemma ConjugateFactor(a: Vec4, q: Vec4, c: Vec4, r: Vec4)
    requires IsProduct(a, c, r)
    requires c.x == -q.x && c.y == -q.y && c.z == -q.z && c.w == q.w
    ensures IsConjugateProduct(a, q, r)
  {
    FactorLane(a.x, a.y, a.z, a.w, q.x, q.y, q.z, q.w, c.x, c.y, c.z, c.w, r.x, r.y, r.z, r.w);
  }

  lemma FactorLane(ax: real, ay: real, az: real, aw: real, qx: real, qy: real, qz: real, qw: real,
      cx: real, cy: real, cz: real, cw: real, rx: real, ry: real, rz: real, rw: real)
    requires cx == -qx && cy == -qy && cz == -qz && cw == qw
    requires rx == ax * cw + aw * cx + ay * cz - az * cy
    requires ry == ay * cw + aw * cy + az * cx - ax * cz
    requires rz == az * cw + aw * cz + ax * cy - ay * cx
    requires rw == aw * cw - ax * cx - ay * cy - az * cz
    ensures rx == ax * qw + aw * (-qx) + ay * (-qz) - az * (-qy)
    ensures ry == ay * qw + aw * (-qy) + az * (-qx) - ax * (-qz)
    ensures rz == az * qw + aw * (-qz) + ax * (-qy) - ay * (-qx)
    ensures rw == aw * qw - ax * (-qx) - ay * (-qy) - az * (-qz)
  {
  }

  /** (p q) q* is p scaled by n = |q|^2, with the lanes of p q and of the result as atoms. */
  lemma ConjugatedLanes(p: Vec4, q: Vec4, pq: Vec4, r: Vec4, n: real)
    requires IsProduct(p, q, pq) && IsConjugateProduct(pq, q, r)
    requires n == Dot4Value(q, q)
    ensures r == Vec4(p.x * n, p.y * n, p.z * n, p.w * n)
  {
    ConjugatedX(p, q, pq, r, n);
    ConjugatedY(p, q, pq, r, n);
    ConjugatedZ(p, q, pq, r, n);
    ConjugatedW(p, q, pq, r, n);
  }

  lemma ConjugatedX(p: Vec4, q: Vec4, pq: Vec4, r: Vec4, n: real)
    requires IsProduct(p, q, pq) && IsConjugateProduct(pq, q, r)
    requires n == q.x * q.x + q.y * q.y + q.z * q.z + q.w * q.w
    ensures r.x == p.x * n
  {
    ConjugateLaneX(p.x, p.y, p.z, p.w, q.x, q.y, q.z, q.w, pq.x, pq.y, pq.z, pq.w, r.x, n);
  }

  lemma ConjugatedY(p: Vec4, q: Vec4, pq: Vec4, r: Vec4, n: real)
    requires IsProduct(p, q, pq) && IsConjugateProduct(pq, q, r)
    requires n == q.x * q.x + q.y * q.y + q.z * q.z + q.w * q.w
    ensures r.y == p.y * n
  {
    ConjugateLaneY(p.x, p.y, p.z, p.w, q.x, q.y, q.z, q.w, pq.x, pq.y, pq.z, pq.w, r.y, n);
  }

  lemma ConjugatedZ(p: Vec4, q: Vec4, pq: Vec4, r: Vec4, n: real)
    requires IsProduct(p, q, pq) && IsConjugateProduct(pq, q, r)
    requires n == q.x * q.x + q.y * q.y + q.z * q.z + q.w * q.w
    ensures r.z == p.z * n
  {
    ConjugateLaneZ(p.x, p.y, p.z, p.w, q.x, q.y, q.z, q.w, pq.x, pq.y, pq.z, pq.w, r.z, n);
  }

  lemma ConjugatedW(p: Vec4, q: Vec4, pq: Vec4, r: Vec4, n: real)
    requires IsProduct(p, q, pq) && IsConjugateProduct(pq, q, r)
    requires n == q.x * q.x + q.y * q.y + q.z * q.z + q.w * q.w
    ensures r.w == p.w * n
  {
    ConjugateLaneW(p.x, p.y, p.z, p.w, q.x, q.y, q.z, q.w, pq.x, pq.y, pq.z, pq.w, r.w, n);
  }

  /** Lane x of (p q) q*, over scalars, with pq's lanes as atoms; one such lemma per lane. */
  lemma ConjugateLaneX(px: real, py: real, pz: real, pw: real, qx: real, qy: real, qz: real, qw: real,
      x: real, y: real, z: real, w: real, r: real, n: real)
    requires x == px * qw + pw * qx + py * qz - pz * qy
    requires y == py * qw + pw * qy + pz * qx - px * qz
    requires z == pz * qw + pw * qz + px * qy - py * qx
    requires w == pw * qw - px * qx - py * qy - pz * qz
    requires r == x * qw + w * (-qx) + y * (-qz) - z * (-qy)
    requires n == qx * qx + qy * qy + qz * qz + qw * qw
    ensures r == px * n
  {
    GenericVecmath.MulSubst(x, px * qw + pw * qx + py * qz - pz * qy, qw);
    GenericVecmath.MulSubst(w, pw * qw - px * qx - py * qy - pz * qz, -qx);
    GenericVecmath.MulSubst(y, py * qw + pw * qy + pz * qx - px * qz, -qz);
    GenericVecmath.MulSubst(z, pz * qw + pw * qz + px * qy - py * qx, -qy);
  }

  lemma ConjugateLaneY(px: real, py: real, pz: real, pw: real, qx: real, qy: real, qz: real, qw: real,
      x: real, y: real, z: real, w: real, r: real, n: real)
    requires x == px * qw + pw * qx + py * qz - pz * qy
    requires y == py * qw + pw * qy + pz * qx - px * qz
    requires z == pz * qw + pw * qz + px * qy - py * qx
    requires w == pw * qw - px * qx - py * qy - pz * qz
    requires r == y * qw + w * (-qy) + z * (-qx) - x * (-qz)
    requires n == qx * qx + qy * qy + qz * qz + qw * qw
    ensures r == py * n
  {
    GenericVecmath.MulSubst(y, py * qw + pw * qy + pz * qx - px * qz, qw);
    GenericVecmath.MulSubst(w, pw * qw - px * qx - py * qy - pz * qz, -qy);
    GenericVecmath.MulSubst(z, pz * qw + pw * qz + px * qy - py * qx, -qx);
    GenericVecmath.MulSubst(x, px * qw + pw * qx + py * qz - pz * qy, -qz);
  }

  lemma ConjugateLaneZ(px: real, py: real, pz: real, pw: real, qx: real, qy: real, qz: real, qw: real,
      x: real, y: real, z: real, w: real, r: real, n: real)
    requires x == px * qw + pw * qx + py * qz - pz * qy
    requires y == py * qw + pw * qy + pz * qx - px * qz
    requires z == pz * qw + pw * qz + px * qy - py * qx
    requires w == pw * qw - px * qx - py * qy - pz * qz
    requires r == z * qw + w * (-qz) + x * (-qy) - y * (-qx)
    requires n == qx * qx + qy * qy + qz * qz + qw * qw
    ensures r == pz * n
  {
    GenericVecmath.MulSubst(z, pz * qw + pw * qz + px * qy - py * qx, qw);
    GenericVecmath.MulSubst(w, pw * qw - px * qx - py * qy - pz * qz, -qz);
    GenericVecmath.MulSubst(x, px * qw + pw * qx + py * qz - pz * qy, -qy);
    GenericVecmath.MulSubst(y, py * qw + pw * qy + pz * qx - px * qz, -qx);
  }

  lemma ConjugateLaneW(px: real, py: real, pz: real, pw: real, qx: real, qy: real, qz: real, qw: real,
      x: real, y: real, z: real, w: real, r: real, n: real)
    requires x == px * qw + pw * qx + py * qz - pz * qy
    requires y == py * qw + pw * qy + pz * qx - px * qz
    requires z == pz * qw + pw * qz + px * qy - py * qx
    requires w == pw * qw - px * qx - py * qy - pz * qz
    requires r == w * qw - x * (-qx) - y * (-qy) - z * (-qz)
    requires n == qx * qx + qy * qy + qz * qz + qw * qw
    ensures r == pw * n
  {
    GenericVecmath.MulSubst(w, pw * qw - px * qx - py * qy - pz * qz, qw);
    GenericVecmath.MulSubst(x, px * qw + pw * qx + py * qz - pz * qy, -qx);
    GenericVecmath.MulSubst(y, py * qw + pw * qy + pz * qx - px * qz, -qy);
    GenericVecmath.MulSubst(z, pz * qw + pw * qz + px * qy - py * qx, -qz);
  }

  /** Multiplying by a unit quaternion and then by its inverse gives back the original. */
  lemma InverseUndoesProduct(lm: GenericMath.Libm, p: Quaternion, q: Quaternion)
    requires GenericMath.SqrtIsExact(lm)
    requires LengthSquared(q) == 1.0
    ensures CanNormalize(lm, q, NORMALIZE_MARGIN)
    ensures Times(Times(p, q), Inverse(lm, q)) == p
  {
    NormalizedOfUnit(lm, q, NORMALIZE_MARGIN);
    var c := Conjugate(q);
    assert c.vec == Vec4(-q.vec.x, -q.vec.y, -q.vec.z, q.vec.w);
    HamiltonThenConjugate(p.vec, q.vec);
    assert Mul(p.vec, Load1f(1.0)) == p.vec;
  }

  /** Rotating by the conjugate of a unit quaternion and then by the quaternion itself gives back the vector. */
  lemma RotateByConjugateUndone(q: Quaternion, v: Vector3.Vector3f)
    requires LengthSquared(q) == 1.0
    ensures Rotate(q, Rotate(Conjugate(q), v)) == v
  {
    var x, y, z, w := q.vec.x, q.vec.y, q.vec.z, q.vec.w;
    var a, b, c, d := v.vec.x, v.vec.y, v.vec.z, v.vec.w;
    assert q.vec == Vec4(x, y, z, w) && v.vec == Vec4(a, b, c, d);
    assert Conjugate(q).vec == Vec4(-x, -y, -z, w);
    RotationUndone(x, y, z, w, a, b, c, d);
  }

  /** The conjugate of a unit quaternion is a unit quaternion. */
  lemma ConjugateIsUnit(q: Quaternion)
    requires LengthSquared(q) == 1.0
    ensures LengthSquared(Conjugate(q)) == 1.0
  {
    assert Conjugate(q).vec == Vec4(-q.vec.x, -q.vec.y, -q.vec.z, q.vec.w);
  }

  /** rotate by a unit quaternion and by its inverse() undo each other, in either order. */
  lemma InverseUndoesRotation(lm: GenericMath.Libm, q: Quaternion, v: Vector3.Vector3f)
    requires GenericMath.SqrtIsExact(lm)
    requires LengthSquared(q) == 1.0
    ensures CanNormalize(lm, q, NORMALIZE_MARGIN)
    ensures Rotate(q, Rotate(Inverse(lm, q), v)) == v
    ensures Rotate(Inverse(lm, q), Rotate(q, v)) == v
  {
    NormalizedOfUnit(lm, q, NORMALIZE_MARGIN);
    RotateByConjugateUndone(q, v);
    ConjugateIsUnit(q);
    ConjugateInvolution(q);
    RotateByConjugateUndone(Conjugate(q), v);
  }

  // ---------------------------------------------------------------------
  // Interpolation
  // ---------------------------------------------------------------------

  /** +1 when the quaternions lie in the same half-space, else -1. */
  function ArcSign(a: Quaternion, b: Quaternion): (r: real)
    ensures r == 1.0 || r == -1.0
  {
    GenericMath.Select(Dot(a, b), 1.0, -1.0)
  }

  /** b amt + a (dir (1 - amt)): lane by lane the lerp from dir a to b. */
  function SignedBlend(a: Quaternion, b: Quaternion, amt: real, dir: real): (r: Quaternion)
    ensures r.vec.x == GenericMath.Lerp(dir * a.vec.x, b.vec.x, amt)
    ensures r.vec.y == GenericMath.Lerp(dir * a.vec.y, b.vec.y, amt)
    ensures r.vec.z == GenericMath.Lerp(dir * a.vec.z, b.vec.z, amt)
    ensures r.vec.w == GenericMath.Lerp(dir * a.vec.w, b.vec.w, amt)
  {
    LerpLane(a.vec.x, b.vec.x, dir, amt);
    LerpLane(a.vec.y, b.vec.y, dir, amt);
    LerpLane(a.vec.z, b.vec.z, dir, amt);
    LerpLane(a.vec.w, b.vec.w, dir, amt);
    Quaternion(Vec4(b.vec.x * amt + a.vec.x * (dir * (1.0 - amt)), b.vec.y * amt + a.vec.y * (dir * (1.0 - amt)),
                    b.vec.z * amt + a.vec.z * (dir * (1.0 - amt)), b.vec.w * amt + a.vec.w * (dir * (1.0 - amt))))
  }

  /** Math::lerp<Quaternion>: b amt + a dir (1 - amt), dir the sign of a . b (see SignedBlend). */
  function Lerp(a: Quaternion, b: Quaternion, amt: real): Quaternion
  {
    SignedBlend(a, b, amt, ArcSign(a, b))
  }

  lemma LerpLane(a: real, b: real, dir: real, amt: real)
    ensures b * amt + a * (dir * (1.0 - amt)) == GenericMath.Lerp(dir * a, b, amt)
  {
  }

  /** lerp starts at a (or -a on the far side) and ends at b. */
  lemma LerpEndpoints(a: Quaternion, b: Quaternion)
    ensures Lerp(a, b, 1.0) == b
    ensures 0.0 <= Dot(a, b) ==> Lerp(a, b, 0.0) == a
    ensures Dot(a, b) < 0.0 ==> Lerp(a, b, 0.0) == Quaternion(Neg(a.vec))
  {
    var r1 := Lerp(a, b, 1.0);
    assert r1.vec == b.vec;
    var r0 := Lerp(a, b, 0.0);
    var s := ArcSign(a, b);
    assert r0.vec.x == s * a.vec.x && r0.vec.y == s * a.vec.y && r0.vec.z == s * a.vec.z && r0.vec.w == s * a.vec.w;
  }

  /** sqrt(1 - c^2): the sine of the angle whose cosine is c. */
  function SinOfAngle(lm: GenericMath.Libm, cosAngle: real): real
  {
    lm.sqrt(1.0 - cosAngle * cosAngle)
  }

  /** sin(t acos c): the numerator of a spherical weight. */
  function SinWeight(lm: GenericMath.Libm, t: real, cosAngle: real): real
  {
    lm.sin(t * lm.acos(cosAngle))
  }

  /** slerp needs rsqrt(1 - cos^2) on the spherical branch. */
  predicate CanSlerp(lm: GenericMath.Libm, a: Quaternion, dest: Quaternion, errorMargin: real)
  {
    GenericMath.Abs(Dot(a, dest)) < 1.0 - errorMargin ==> SinOfAngle(lm, GenericMath.Abs(Dot(a, dest))) != 0.0
  }

  /**
   * The two weights slerp applies, before the destination's sign flip: 1 - t
   * and t within margin of parallel, else sin((1 - t) angle) / sin angle and
   * sin(t angle) / sin angle.
   */
  function SlerpWeights(lm: GenericMath.Libm, cosAngle: real, amt: real, errorMargin: real): (w: (real, real))
    requires cosAngle < 1.0 - errorMargin ==> SinOfAngle(lm, cosAngle) != 0.0
    ensures cosAngle >= 1.0 - errorMargin ==> w == (1.0 - amt, amt)
    ensures cosAngle < 1.0 - errorMargin ==>
      w.0 * SinOfAngle(lm, cosAngle) == SinWeight(lm, 1.0 - amt, cosAngle) &&
      w.1 * SinOfAngle(lm, cosAngle) == SinWeight(lm, amt, cosAngle)
  {
    if cosAngle < 1.0 - errorMargin then
      var rsinAngle := GenericMath.Rsqrt(lm, 1.0 - cosAngle * cosAngle);
      ReciprocalFactor(SinWeight(lm, 1.0 - amt, cosAngle), rsinAngle, SinOfAngle(lm, cosAngle));
      ReciprocalFactor(SinWeight(lm, amt, cosAngle), rsinAngle, SinOfAngle(lm, cosAngle));
      (SinWeight(lm, 1.0 - amt, cosAngle) * rsinAngle, SinWeight(lm, amt, cosAngle) * rsinAngle)
    else
      (1.0 - amt, amt)
  }

  lemma ReciprocalFactor(x: real, k: real, s: real)
    requires k * s == 1.0
    ensures x * k * s == x
  {
    assert x * k * s == x * (k * s);
  }

  /** a s + b t, formed as slerp forms it from broadcast weights. */
  function Blend(a: Quaternion, b: Quaternion, s: real, t: real): (r: Quaternion)
    ensures r == Plus(TimesScalar(a, s), TimesScalar(b, t))
  {
    Quaternion(Add(Mul(a.vec, Load1f(s)), Mul(b.vec, Load1f(t))))
  }

  /**
   * slerp: a w1 + dest w2 with the weights of SlerpWeights for |a . dest|,
   * and w2 negated when a . dest < 0 so the path takes the shorter arc.
   */
  function Slerp(lm: GenericMath.Libm, a: Quaternion, dest: Quaternion, amt: real, errorMargin: real): (r: Quaternion)
    requires CanSlerp(lm, a, dest, errorMargin)
    ensures r == Plus(TimesScalar(a, SlerpWeights(lm, GenericMath.Abs(Dot(a, dest)), amt, errorMargin).0),
                      TimesScalar(dest, ArcSign(a, dest) * SlerpWeights(lm, GenericMath.Abs(Dot(a, dest)), amt, errorMargin).1))
  {
    var cosAngleInitial := Dot(a, dest);
    var cosAngle := GenericMath.Select(cosAngleInitial, cosAngleInitial, -cosAngleInitial);
    assert cosAngle == GenericMath.Abs(cosAngleInitial);
    var w := SlerpWeights(lm, cosAngle, amt, errorMargin);
    var lerpAmt2 := GenericMath.Select(cosAngleInitial, w.1, -w.1);
    SignTimes(cosAngleInitial, w.1);
    Blend(a, dest, w.0, lerpAmt2)
  }

  lemma SignTimes(c: real, x: real)
    ensures GenericMath.Select(c, x, -x) == GenericMath.Select(c, 1.0, -1.0) * x
  {
  }

  /** Near-parallel quaternions: slerp at 0 is the source, at 1 the destination on the near side. */
  lemma SlerpLinearEndpoints(lm: GenericMath.Libm, a: Quaternion, dest: Quaternion, errorMargin: real)
    requires GenericMath.Abs(Dot(a, dest)) >= 1.0 - errorMargin
    ensures CanSlerp(lm, a, dest, errorMargin)
    ensures Slerp(lm, a, dest, 0.0, errorMargin) == a
    ensures Slerp(lm, a, dest, 1.0, errorMargin) == TimesScalar(dest, ArcSign(a, dest))
  {
    var s := ArcSign(a, dest);
    BlendUnitWeights(a, dest, s);
  }

  /** a 1 + b 0 is a, and a 0 + b (s 1) is b s. */
  lemma BlendUnitWeights(a: Quaternion, b: Quaternion, s: real)
    ensures Plus(TimesScalar(a, 1.0 - 0.0), TimesScalar(b, s * 0.0)) == a
    ensures Plus(TimesScalar(a, 1.0 - 1.0), TimesScalar(b, s * 1.0)) == TimesScalar(b, s)
  {
    var r0 := Plus(TimesScalar(a, 1.0 - 0.0), TimesScalar(b, s * 0.0));
    assert forall i | 0 <= i < 4 :: Get(r0, i) == Get(a, i);
    assert r0.vec == a.vec;
    var r1 := Plus(TimesScalar(a, 1.0 - 1.0), TimesScalar(b, s * 1.0));
    assert forall i | 0 <= i < 4 :: Get(r1, i) == Get(TimesScalar(b, s), i);
    assert r1.vec == TimesScalar(b, s).vec;
  }

  /** On the spherical branch slerp starts at the source when sin 0 = 0 and sin(acos c) = sqrt(1 - c^2). */
  lemma SlerpStartsAtSource(lm: GenericMath.Libm, a: Quaternion, dest: Quaternion, errorMargin: real)
    requires CanSlerp(lm, a, dest, errorMargin)
    requires GenericMath.Abs(Dot(a, dest)) < 1.0 - errorMargin
    requires lm.sin(0.0) == 0.0
    requires lm.sin(lm.acos(GenericMath.Abs(Dot(a, dest)))) == SinOfAngle(lm, GenericMath.Abs(Dot(a, dest)))
    ensures Slerp(lm, a, dest, 0.0, errorMargin) == a
  {
    var c := GenericMath.Abs(Dot(a, dest));
    var s := SinOfAngle(lm, c);
    var w := SlerpWeights(lm, c, 0.0, errorMargin);
    assert SinWeight(lm, 1.0 - 0.0, c) == s by {
      assert (1.0 - 0.0) * lm.acos(c) == lm.acos(c);
    }
    assert SinWeight(lm, 0.0, c) == 0.0 by {
      assert 0.0 * lm.acos(c) == 0.0;
    }
    CancelFactor(w.0, 1.0, s);
    CancelFactor(w.1, 0.0, s);
    BlendUnitWeights(a, dest, ArcSign(a, dest));
  }

  /** -b scaled by -t is b scaled by t. */
  lemma NegatedScaled(b: Quaternion, t: real)
    ensures TimesScalar(Quaternion(Neg(b.vec)), -t) == TimesScalar(b, t)
  {
    var r := TimesScalar(Quaternion(Neg(b.vec)), -t);
    assert forall i | 0 <= i < 4 :: Get(r, i) == Get(TimesScalar(b, t), i);
    assert r.vec == TimesScalar(b, t).vec;
  }

  lemma DotNegated(a: Quaternion, b: Quaternion)
    ensures Dot(a, Quaternion(Neg(b.vec))) == -Dot(a, b)
  {
  }

  /** Flipping the destination's sign does not change slerp, away from a . dest = 0. */
  lemma SlerpIgnoresDestinationSign(lm: GenericMath.Libm, a: Quaternion, dest: Quaternion, amt: real, errorMargin: real)
    requires CanSlerp(lm, a, dest, errorMargin)
    requires Dot(a, dest) != 0.0
    ensures CanSlerp(lm, a, Quaternion(Neg(dest.vec)), errorMargin)
    ensures Slerp(lm, a, Quaternion(Neg(dest.vec)), amt, errorMargin) == Slerp(lm, a, dest, amt, errorMargin)
  {
    var nd := Quaternion(Neg(dest.vec));
    DotNegated(a, dest);
    assert GenericMath.Abs(Dot(a, nd)) == GenericMath.Abs(Dot(a, dest));
    assert ArcSign(a, nd) == -ArcSign(a, dest);
    var w := SlerpWeights(lm, GenericMath.Abs(Dot(a, dest)), amt, errorMargin);
    assert ArcSign(a, nd) * w.1 == -(ArcSign(a, dest) * w.1);
    NegatedScaled(dest, ArcSign(a, dest) * w.1);
  }

  // ---------------------------------------------------------------------
  // Basis vectors
  // ---------------------------------------------------------------------

  /** getAxisX: the rotated unit x vector, the first column of the rotation matrix. */
  function GetAxisX(q: Quaternion): (r: Vector3.Vector3f)
    ensures var u := q.vec;
      r.vec == Vec4(1.0 - 2.0 * (u.y * u.y + u.z * u.z), 2.0 * (u.x * u.y + u.w * u.z), 2.0 * (u.x * u.z - u.w * u.y), 0.0)
  {
    Rotate(q, Vector3.Make(1.0, 0.0, 0.0))
  }

  /** getAxisY: the rotated unit y vector, the second column of the rotation matrix. */
  function GetAxisY(q: Quaternion): (r: Vector3.Vector3f)
    ensures var u := q.vec;
      r.vec == Vec4(2.0 * (u.x * u.y - u.w * u.z), 1.0 - 2.0 * (u.x * u.x + u.z * u.z), 2.0 * (u.y * u.z + u.w * u.x), 0.0)
  {
    Rotate(q, Vector3.Make(0.0, 1.0, 0.0))
  }

  /** getAxisZ: the rotated unit z vector, the third column of the rotation matrix. */
  function GetAxisZ(q: Quaternion): (r: Vector3.Vector3f)
    ensures var u := q.vec;
      r.vec == Vec4(2.0 * (u.x * u.z + u.w * u.y), 2.0 * (u.y * u.z - u.w * u.x), 1.0 - 2.0 * (u.x * u.x + u.y * u.y), 0.0)
  {
    Rotate(q, Vector3.Make(0.0, 0.0, 1.0))
  }

  /** toVector: the stored lanes. */
  function ToVector(q: Quaternion): Vec4
  {
    q.vec
  }

  // ---------------------------------------------------------------------
  // Compound assignment
  // ---------------------------------------------------------------------

  /** A Quaternion variable, for the operators that update `vec` in place. */
  class QuaternionVar {
    var vec: Vec4

    function Value(): Quaternion
      reads this
    {
      Quaternion(vec)
    }

    constructor (q: Quaternion)
      ensures Value() == q
    {
      vec := q.vec;
    }

    method AddAssign(other: Quaternion) returns (r: Quaternion)
      modifies this
      ensures Value() == Plus(old(Value()), other) && r == Value()
    {
      vec := Add(vec, other.vec);
      r := Value();
    }

    method SubAssign(other: Quaternion) returns (r: Quaternion)
      modifies this
      ensures Value() == Minus(old(Value()), other) && r == Value()
    {
      vec := Sub(vec, other.vec);
      r := Value();
    }

    method MulAssign(other: Quaternion) returns (r: Quaternion)
      modifies this
      ensures Value() == Times(old(Value()), other) && r == Value()
    {
      vec := QuatMul(vec, other.vec);
      r := Value();
    }

    method MulScalarAssign(amt: real) returns (r: Quaternion)
      modifies this
      ensures Value() == TimesScalar(old(Value()), amt) && r == Value()
    {
      vec := Mul(vec, Load1f(amt));
      r := Value();
    }

    method DivScalarAssign(amt: real) returns (r: Quaternion)
      requires amt != 0.0
      modifies this
      ensures Value() == QuotientScalar(old(Value()), amt) && r == Value()
    {
      vec := Mul(vec, Load1f(GenericMath.Reciprocal(amt)));
      r := Value();
    }
  }
}
