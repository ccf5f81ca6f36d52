/**
 * Matrix::extractFrustumPlanes: the six clipping planes of a
 * (view-)projection matrix.  Plane k is row 3 plus or minus row 2, 1 or 0,
 * normalized, so a point lies on the inner side of all six exactly when its
 * clip coordinates satisfy -w <= x, y, z <= w.
 */
module Frustum {
  import GenericMath
  import opened GenericVecmath
  import Planes
  import Matrices

  /** The unnormalized plane k: m[3] + m[2], m[3] - m[2], m[3] + m[1], m[3] - m[1], m[3] + m[0], m[3] - m[0]. */
  function FrustumRow(m: Mat4, k: nat): Vec4
    requires k < 6
  {
    var other := m[2 - k / 2];
    if k % 2 == 0 then Add(m[3], other) else Sub(m[3], other)
  }

  /** normalize3 needs each of the six normals to have nonzero length. */
  predicate FrustumDefined(lm: GenericMath.Libm, m: Mat4)
  {
    forall k | 0 <= k < 6 :: Planes.CanNormalize(lm, Planes.Plane(FrustumRow(m, k)))
  }

  /** Plane k as extractFrustumPlanes writes it (normalized with its default margin). */
  function FrustumPlane(lm: GenericMath.Libm, m: Mat4, k: nat): Planes.Plane
    requires k < 6 && FrustumDefined(lm, m)
  {
    Planes.Normalized(lm, Planes.Plane(FrustumRow(m, k)), 0.00000001)
  }

  /** extractFrustumPlanes(planes): writes planes[0..5] in order and nothing else. */
  method ExtractFrustumPlanes(lm: GenericMath.Libm, matrix: Matrices.Matrix, planes: array<Planes.Plane>)
    requires matrix.Valid() && 6 <= planes.Length
    requires FrustumDefined(lm, matrix.Rows())
    modifies planes
    ensures forall k | 0 <= k < 6 :: planes[k] == FrustumPlane(lm, matrix.Rows(), k)
    ensures forall k | 6 <= k < planes.Length :: planes[k] == old(planes[k])
  {
    var m := matrix.Rows();
    planes[0] := FrustumPlane(lm, m, 0);
    planes[1] := FrustumPlane(lm, m, 1);
    planes[2] := FrustumPlane(lm, m, 2);
    planes[3] := FrustumPlane(lm, m, 3);
    planes[4] := FrustumPlane(lm, m, 4);
    planes[5] := FrustumPlane(lm, m, 5);
  }

  /** With clip coordinates c = M v: the value of plane k is c.w + c.z, c.w - c.z, c.w + c.y, ... */
  function ClipBound(c: Vec4, k: nat): real
    requires k < 6
  {
    var other := Lane(c, 2 - k / 2);
    if k % 2 == 0 then c.w + other else c.w - other
  }

  /** The unnormalized plane k evaluated at v is the clip bound k of M v. */
  lemma FrustumRowDot(m: Mat4, k: nat, v: Vec4)
    requires k < 6
    ensures Dot4Value(v, FrustumRow(m, k)) == ClipBound(Transform(v, m), k)
  {
    var c := Transform(v, m);
    var j := 2 - k / 2;
    assert Lane(c, 3) == Dot4Value(v, m[3]) && Lane(c, j) == Dot4Value(v, m[j]);
    Lanes(v, m[3], m[j]);
  }

  /** Dotting with a sum or a difference of two rows. */
  lemma Lanes(v: Vec4, a: Vec4, b: Vec4)
    ensures Dot4Value(v, Add(a, b)) == Dot4Value(v, a) + Dot4Value(v, b)
    ensures Dot4Value(v, Sub(a, b)) == Dot4Value(v, a) - Dot4Value(v, b)
  {
  }

  /**
   * With a square root that is exact, plane k's value at v has the sign of
   * clip bound k: the point is on the inner side exactly when the bound holds.
   */
  lemma FrustumPlaneSide(lm: GenericMath.Libm, m: Mat4, k: nat, v: Vec4)
    requires GenericMath.SqrtIsExact(lm)
    requires k < 6 && FrustumDefined(lm, m)
    ensures 0.0 <= Planes.DotVector(FrustumPlane(lm, m, k), v) <==> 0.0 <= ClipBound(Transform(v, m), k)
  {
    var p := Planes.Plane(FrustumRow(m, k));
    Planes.NormalizedKeepsPoints(lm, p, 0.00000001, v);
    FrustumRowDot(m, k, v);
    PositiveLength(lm, Dot3Value(p.data, p.data));
    SameSign(Planes.DotVector(FrustumPlane(lm, m, k), v), Planes.NormalLength(lm, p),
      Planes.DotVector(p, v), ClipBound(Transform(v, m), k));
  }

  /** An exact square root of a non-negative value is non-negative. */
  lemma PositiveLength(lm: GenericMath.Libm, n: real)
    requires GenericMath.SqrtIsExact(lm)
    ensures 0.0 <= n ==> 0.0 <= lm.sqrt(n)
  {
  }

  /** d = raw / len with len > 0 has the sign of raw. */
  lemma SameSign(d: real, len: real, raw: real, bound: real)
    requires 0.0 <= len && len != 0.0 && d * len == raw && raw == bound
    ensures 0.0 <= d <==> 0.0 <= bound
  {
    if d < 0.0 {
      assert d * len < 0.0;
    }
  }

  /** Inside all six planes iff -w <= x <= w, -w <= y <= w and -w <= z <= w in clip space. */
  lemma InsideFrustum(lm: GenericMath.Libm, m: Mat4, v: Vec4)
    requires GenericMath.SqrtIsExact(lm)
    requires FrustumDefined(lm, m)
    ensures (forall k | 0 <= k < 6 :: 0.0 <= Planes.DotVector(FrustumPlane(lm, m, k), v)) <==>
      var c := Transform(v, m);
      -c.w <= c.x <= c.w && -c.w <= c.y <= c.w && -c.w <= c.z <= c.w
  {
    var c := Transform(v, m);
    forall k | 0 <= k < 6
      ensures 0.0 <= Planes.DotVector(FrustumPlane(lm, m, k), v) <==> 0.0 <= ClipBound(c, k)
    {
      FrustumPlaneSide(lm, m, k, v);
    }
    assert ClipBound(c, 0) == c.w + c.z && ClipBound(c, 1) == c.w - c.z;
    assert ClipBound(c, 2) == c.w + c.y && ClipBound(c, 3) == c.w - c.y;
    assert ClipBound(c, 4) == c.w + c.x && ClipBound(c, 5) == c.w - c.x;
  }
}
