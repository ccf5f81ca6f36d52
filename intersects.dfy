/**
 * The Intersects namespace: a plane against a box, a plane against a
 * sphere, and a sphere against a box. The plane tests classify a shape by
 * the signed distance d of its center and its half-width r along the plane
 * normal; "fully inside" means on the positive side of the plane.
 */
module Intersects {
  import GenericMath
  import opened GenericVecmath
  import opened Vecmath
  import Vector3
  import Planes
  import Boxes
  import Spheres

  /** The two flags the plane tests write through their out-parameters. */
  datatype Sides = Sides(isFullyInside: bool, isPartiallyInside: bool)

  // ---------------------------------------------------------------------
  // Plane against box
  // ---------------------------------------------------------------------

  /** intersectPlaneAABBFast: d = plane . center and r = |plane| . extents, on all four lanes. */
  function PlaneAABBFast(center: Vec4, extents: Vec4, plane: Planes.Plane, absPlane: Planes.Plane): Sides
  {
    var d := Planes.DotVector(plane, center);
    var r := Planes.DotVector(absPlane, extents);
    Sides(d - r >= 0.0, d + r > 0.0)
  }

  /** The flags intersectPlaneAABB writes: center and extents both get lane 3 = 1. */
  function PlaneAABBSides(a: Boxes.AABB, plane: Planes.Plane): Sides
  {
    PlaneAABBFast(Vector3.ToVectorW(Boxes.Center(a), 1.0), Vector3.ToVectorW(Boxes.Extents(a), 1.0),
      plane, Planes.Abs(plane))
  }

  /** intersectPlaneAABB's result: partially but not fully inside. */
  function IntersectPlaneAABB(a: Boxes.AABB, plane: Planes.Plane): bool
  {
    var sides := PlaneAABBSides(a, plane);
    sides.isPartiallyInside && !sides.isFullyInside
  }

  /** At d = r = 0 the fast test reports "fully" without "partially". */
  lemma FullyWithoutPartially(center: Vec4, extents: Vec4, plane: Planes.Plane, absPlane: Planes.Plane)
    requires Planes.DotVector(plane, center) == 0.0 && Planes.DotVector(absPlane, extents) == 0.0
    ensures PlaneAABBFast(center, extents, plane, absPlane) == Sides(true, false)
  {
  }

  /** With a positive half-width, "fully" implies "partially". */
  lemma FastFullyImpliesPartially(center: Vec4, extents: Vec4, plane: Planes.Plane, absPlane: Planes.Plane)
    requires 0.0 < Planes.DotVector(absPlane, extents)
    ensures PlaneAABBFast(center, extents, plane, absPlane).isFullyInside ==>
      PlaneAABBFast(center, extents, plane, absPlane).isPartiallyInside
  {
  }

  /** The half-width of the box along the normal: |n.x| e.x + |n.y| e.y + |n.z| e.z. */
  function Spread(a: Boxes.AABB, plane: Planes.Plane): real
  {
    Dot3Value(AbsV(plane.data), Boxes.Extents(a).vec)
  }

  /** The r intersectPlaneAABB computes is the half-width plus |plane.w|. */
  lemma HalfWidthIncludesOffset(a: Boxes.AABB, plane: Planes.Plane)
    ensures Planes.DotVector(Planes.Abs(plane), Vector3.ToVectorW(Boxes.Extents(a), 1.0))
      == Spread(a, plane) + GenericMath.Abs(plane.data.w)
  {
  }

  /** The flags as written, in terms of d, the half-width and |plane.w|. */
  lemma SidesValues(a: Boxes.AABB, plane: Planes.Plane)
    ensures PlaneAABBSides(a, plane) ==
      Sides(Planes.Dot(plane, Boxes.Center(a)) - (Spread(a, plane) + GenericMath.Abs(plane.data.w)) >= 0.0,
            Planes.Dot(plane, Boxes.Center(a)) + (Spread(a, plane) + GenericMath.Abs(plane.data.w)) > 0.0)
  {
    HalfWidthIncludesOffset(a, plane);
    CenterDistance(a, plane);
  }

  /** The signed distance d is the plane's dot with the center. */
  lemma CenterDistance(a: Boxes.AABB, plane: Planes.Plane)
    ensures Planes.DotVector(plane, Vector3.ToVectorW(Boxes.Center(a), 1.0)) == Planes.Dot(plane, Boxes.Center(a))
  {
  }

  /** The flags with the extents' lane 3 set to 0, so that r is the box's half-width. */
  function PlaneAABBSidesIntended(a: Boxes.AABB, plane: Planes.Plane): Sides
  {
    PlaneAABBFast(Vector3.ToVectorW(Boxes.Center(a), 1.0), Vector3.ToVectorW(Boxes.Extents(a), 0.0),
      plane, Planes.Abs(plane))
  }

  /** The straddle test with the intended half-width. */
  function IntersectPlaneAABBIntended(a: Boxes.AABB, plane: Planes.Plane): bool
  {
    var sides := PlaneAABBSidesIntended(a, plane);
    sides.isPartiallyInside && !sides.isFullyInside
  }

  /** The intended flags in terms of d and the half-width. */
  lemma IntendedSidesValues(a: Boxes.AABB, plane: Planes.Plane)
    ensures PlaneAABBSidesIntended(a, plane).isFullyInside <==> Planes.Dot(plane, Boxes.Center(a)) - Spread(a, plane) >= 0.0
    ensures PlaneAABBSidesIntended(a, plane).isPartiallyInside <==> Planes.Dot(plane, Boxes.Center(a)) + Spread(a, plane) > 0.0
  {
    CenterDistance(a, plane);
  }

  /** Non-negative factors have a non-negative product. */
  lemma MulNonneg(x: real, y: real)
    requires 0.0 <= x && 0.0 <= y
    ensures 0.0 <= x * y
  {
  }

  /** One axis: an offset within [-e, e] moves n * offset by at most |n| e. */
  lemma AxisBound(n: real, m: real, off: real, e: real)
    requires m == GenericMath.Abs(n) && -e <= off <= e
    ensures -(m * e) <= n * off <= m * e
  {
    MulNonneg(m, e - off);
    MulNonneg(m, off + e);
    assert m * (e - off) == m * e - m * off;
    assert m * (off + e) == m * off + m * e;
    if n < 0.0 {
      assert n * off == -(m * off);
    }
  }

  /** Three axes: |n . off| <= |n| . e when each offset lies within its extent. */
  lemma SumBound(n: Vec4, m: Vec4, off: Vec4, e: Vec4)
    requires m == AbsV(n)
    requires -e.x <= off.x <= e.x && -e.y <= off.y <= e.y && -e.z <= off.z <= e.z
    ensures -Dot3Value(m, e) <= Dot3Value(n, off) <= Dot3Value(m, e)
  {
    AxisBound(n.x, m.x, off.x, e.x);
    AxisBound(n.y, m.y, off.y, e.y);
    AxisBound(n.z, m.z, off.z, e.z);
  }

  /** The dot with p, taken from c: n . p = n . c + n . (p - c). */
  lemma DotOffset(n: Vec4, p: Vec4, c: Vec4, off: Vec4)
    requires off == Sub(p, c)
    ensures Dot3Value(n, p) == Dot3Value(n, c) + Dot3Value(n, off)
  {
  }

  /** The lanes of a point of the box, as offsets from the center within the extents. */
  lemma BoxOffsets(a: Boxes.AABB, p: Vector3.Vector3f, off: Vec4, e: Vec4)
    requires Boxes.Encloses(a, p)
    requires off == Sub(p.vec, Boxes.Center(a).vec) && e == Boxes.Extents(a).vec
    ensures -e.x <= off.x <= e.x && -e.y <= off.y <= e.y && -e.z <= off.z <= e.z
  {
    Boxes.CenterLanes(a);
    Boxes.Coords(p);
    Boxes.Coords(a.minExtents);
    Boxes.Coords(a.maxExtents);
  }

  /** Every point of the box lies within the half-width of the center's distance. */
  lemma BoxDotRange(a: Boxes.AABB, plane: Planes.Plane, p: Vector3.Vector3f)
    requires Boxes.Encloses(a, p)
    ensures Planes.Dot(plane, Boxes.Center(a)) - Spread(a, plane) <= Planes.Dot(plane, p)
    ensures Planes.Dot(plane, p) <= Planes.Dot(plane, Boxes.Center(a)) + Spread(a, plane)
  {
    var off := Sub(p.vec, Boxes.Center(a).vec);
    BoxOffsets(a, p, off, Boxes.Extents(a).vec);
    SumBound(plane.data, AbsV(plane.data), off, Boxes.Extents(a).vec);
    DotOffset(plane.data, p.vec, Boxes.Center(a).vec, off);
  }

  /** The corner farthest along the normal (toward = true) or against it. */
  function Corner(a: Boxes.AABB, plane: Planes.Plane, toward: bool): Vector3.Vector3f
  {
    var n := plane.data;
    var lo := a.minExtents.vec;
    var hi := a.maxExtents.vec;
    Vector3.Vector3f(Vec4(if (n.x >= 0.0) == toward then hi.x else lo.x,
                          if (n.y >= 0.0) == toward then hi.y else lo.y,
                          if (n.z >= 0.0) == toward then hi.z else lo.z, 0.0))
  }

  /** The corners of an ordered box lie in it. */
  lemma CornerInBox(a: Boxes.AABB, plane: Planes.Plane, toward: bool)
    requires Boxes.Ordered(a)
    ensures Boxes.Encloses(a, Corner(a, plane, toward))
  {
    Boxes.Coords(a.minExtents);
    Boxes.Coords(a.maxExtents);
    Boxes.Coords(Corner(a, plane, toward));
  }

  /** One axis of a corner: n times its offset from the center is |n| e toward the normal, -|n| e against it. */
  lemma AxisCorner(n: real, m: real, lo: real, hi: real, q: real, c: real, e: real, d: real, toward: bool)
    requires m == GenericMath.Abs(n)
    requires q == (if (n >= 0.0) == toward then hi else lo)
    requires c == (hi + lo) * 0.5 && e == (hi - lo) * 0.5 && d == q - c
    ensures n * d == (if toward then m * e else -(m * e))
  {
    if (n >= 0.0) == toward {
      assert d == e;
    } else {
      assert d == -e;
    }
  }

  /** Lane-wise products of plus or minus m e sum to plus or minus m . e. */
  lemma SignedSum(n: Vec4, off: Vec4, m: Vec4, e: Vec4, toward: bool)
    requires n.x * off.x == (if toward then m.x * e.x else -(m.x * e.x))
    requires n.y * off.y == (if toward then m.y * e.y else -(m.y * e.y))
    requires n.z * off.z == (if toward then m.z * e.z else -(m.z * e.z))
    ensures Dot3Value(n, off) == (if toward then Dot3Value(m, e) else -Dot3Value(m, e))
  {
  }

  /** Three axes of a corner: n . (q - c) is the half-width |n| . e toward the normal, minus it against. */
  lemma CornerSum(n: Vec4, m: Vec4, lo: Vec4, hi: Vec4, q: Vec4, c: Vec4, e: Vec4, off: Vec4, toward: bool)
    requires m == AbsV(n)
    requires q.x == (if (n.x >= 0.0) == toward then hi.x else lo.x)
    requires q.y == (if (n.y >= 0.0) == toward then hi.y else lo.y)
    requires q.z == (if (n.z >= 0.0) == toward then hi.z else lo.z)
    requires c.x == (hi.x + lo.x) * 0.5 && c.y == (hi.y + lo.y) * 0.5 && c.z == (hi.z + lo.z) * 0.5
    requires e.x == (hi.x - lo.x) * 0.5 && e.y == (hi.y - lo.y) * 0.5 && e.z == (hi.z - lo.z) * 0.5
    requires off == Sub(q, c)
    ensures Dot3Value(n, off) == (if toward then Dot3Value(m, e) else -Dot3Value(m, e))
  {
    AxisCorner(n.x, m.x, lo.x, hi.x, q.x, c.x, e.x, off.x, toward);
    AxisCorner(n.y, m.y, lo.y, hi.y, q.y, c.y, e.y, off.y, toward);
    AxisCorner(n.z, m.z, lo.z, hi.z, q.z, c.z, e.z, off.z, toward);
    SignedSum(n, off, m, e, toward);
  }

  /** The corner's offset from the center, dotted with n, is plus or minus the half-width. */
  lemma CornerOffset(a: Boxes.AABB, plane: Planes.Plane, toward: bool, off: Vec4)
    requires off == Sub(Corner(a, plane, toward).vec, Boxes.Center(a).vec)
    ensures Dot3Value(plane.data, off) == (if toward then Spread(a, plane) else -Spread(a, plane))
  {
    Boxes.CenterLanes(a);
    CornerSum(plane.data, AbsV(plane.data), a.minExtents.vec, a.maxExtents.vec, Corner(a, plane, toward).vec,
      Boxes.Center(a).vec, Boxes.Extents(a).vec, off, toward);
  }

  /** The corners are at d + half-width and d - half-width from the plane. */
  lemma CornerDot(a: Boxes.AABB, plane: Planes.Plane, toward: bool)
    ensures Planes.Dot(plane, Corner(a, plane, toward))
      == Planes.Dot(plane, Boxes.Center(a)) + (if toward then Spread(a, plane) else -Spread(a, plane))
  {
    var off := Sub(Corner(a, plane, toward).vec, Boxes.Center(a).vec);
    CornerOffset(a, plane, toward, off);
    DotOffset(plane.data, Corner(a, plane, toward).vec, Boxes.Center(a).vec, off);
  }

  /**
   * With the intended half-width, an ordered box is fully inside exactly
   * when every point of it is on the non-negative side, and partially
   * inside exactly when some point of it is strictly on the positive side.
   */
  lemma IntendedClassifiesBox(a: Boxes.AABB, plane: Planes.Plane)
    requires Boxes.Ordered(a)
    ensures PlaneAABBSidesIntended(a, plane).isFullyInside <==>
      forall p :: Boxes.Encloses(a, p) ==> 0.0 <= Planes.Dot(plane, p)
    ensures PlaneAABBSidesIntended(a, plane).isPartiallyInside <==>
      exists p :: Boxes.Encloses(a, p) && 0.0 < Planes.Dot(plane, p)
  {
    IntendedSidesValues(a, plane);
    CornerInBox(a, plane, true);
    CornerInBox(a, plane, false);
    CornerDot(a, plane, true);
    CornerDot(a, plane, false);
    forall p | Boxes.Encloses(a, p)
      ensures Planes.Dot(plane, Boxes.Center(a)) - Spread(a, plane) <= Planes.Dot(plane, p) <= Planes.Dot(plane, Boxes.Center(a)) + Spread(a, plane)
    {
      BoxDotRange(a, plane, p);
    }
  }

  /** The intended straddle test: the ordered box has points strictly on both sides. */
  lemma IntendedIntersectStraddles(a: Boxes.AABB, plane: Planes.Plane)
    requires Boxes.Ordered(a)
    ensures IntersectPlaneAABBIntended(a, plane) <==>
      (exists p :: Boxes.Encloses(a, p) && 0.0 < Planes.Dot(plane, p)) &&
      (exists q :: Boxes.Encloses(a, q) && Planes.Dot(plane, q) < 0.0)
  {
    IntendedClassifiesBox(a, plane);
  }

  /**
   * The flags as written are each on the safe side of the intended ones:
   * "fully" only when every point is on the non-negative side, and
   * "partially" whenever some point is strictly on the positive side;
   * for a plane through the origin they agree.
   */
  lemma AsWrittenWidensHalfWidth(a: Boxes.AABB, plane: Planes.Plane)
    ensures PlaneAABBSides(a, plane).isFullyInside ==> PlaneAABBSidesIntended(a, plane).isFullyInside
    ensures PlaneAABBSidesIntended(a, plane).isPartiallyInside ==> PlaneAABBSides(a, plane).isPartiallyInside
    ensures plane.data.w == 0.0 ==> PlaneAABBSides(a, plane) == PlaneAABBSidesIntended(a, plane)
  {
    HalfWidthIncludesOffset(a, plane);
    CenterDistance(a, plane);
    IntendedSidesValues(a, plane);
  }

  // ---------------------------------------------------------------------
  // Plane against sphere
  // ---------------------------------------------------------------------

  /** intersectPlaneSphereFast: d = plane.dot(center) against the radius. */
  function PlaneSphereFast(center: Vec4, radius: real, plane: Planes.Plane): Sides
  {
    var d := Planes.Dot(plane, Vector3.Vector3f(center));
    Sides(d >= radius, d >= -radius)
  }

  /** The flags intersectPlaneSphere writes. */
  function PlaneSphereSides(s: Spheres.Sphere, plane: Planes.Plane): Sides
  {
    PlaneSphereFast(Vector3.ToVectorW(Spheres.Center(s), 1.0), Spheres.Radius(s), plane)
  }

  /** intersectPlaneSphere's result: partially but not fully inside. */
  function IntersectPlaneSphere(s: Spheres.Sphere, plane: Planes.Plane): bool
  {
    var sides := PlaneSphereSides(s, plane);
    sides.isPartiallyInside && !sides.isFullyInside
  }

  /** The flags intersectPlaneSphere writes, in terms of d and the radius. */
  lemma SphereSidesValues(s: Spheres.Sphere, plane: Planes.Plane)
    ensures PlaneSphereSides(s, plane) ==
      Sides(Planes.Dot(plane, Spheres.Center(s)) >= Spheres.Radius(s), Planes.Dot(plane, Spheres.Center(s)) >= -Spheres.Radius(s))
  {
    SphereDistance(s, plane);
  }

  /** With a non-negative radius, "fully" implies "partially". */
  lemma SphereFullyImpliesPartially(center: Vec4, radius: real, plane: Planes.Plane)
    requires 0.0 <= radius
    ensures PlaneSphereFast(center, radius, plane).isFullyInside ==> PlaneSphereFast(center, radius, plane).isPartiallyInside
  {
  }

  /** radiusSq: the radius times itself. */
  function RadiusSq(s: Spheres.Sphere): real
  {
    Spheres.Radius(s) * Spheres.Radius(s)
  }

  /** The plane's normal has unit length. */
  predicate UnitNormal(plane: Planes.Plane)
  {
    Dot3Value(plane.data, plane.data) == 1.0
  }

  /** The closed ball of the sphere. */
  predicate InBall(s: Spheres.Sphere, p: Vector3.Vector3f)
  {
    Vector3.DistSquared(p, Spheres.Center(s)) <= RadiusSq(s)
  }

  /** The squared distance from p to c, as the squared length of c - p. */
  lemma DistLanes(p: Vector3.Vector3f, c: Vector3.Vector3f, u: Vec4)
    requires u == Sub(c.vec, p.vec)
    ensures Vector3.DistSquared(p, c) == Dot3Value(u, u)
  {
  }

  /** x^2 <= 1 * uu <= rad^2 with rad >= 0 puts x within [-rad, rad]. */
  lemma Within(x: real, nn: real, uu: real, rad: real, rsq: real)
    requires x * x <= nn * uu && nn == 1.0 && uu <= rsq && rsq == rad * rad && 0.0 <= rad
    ensures -rad <= x <= rad
  {
    var m := GenericMath.Abs(x);
    assert m * m == x * x;
    if rad < m {
      Spheres.SquareBelow(rad, m);
      assert false;
    }
  }

  /** Every point of the ball is within the radius of the center's distance, for a unit normal. */
  lemma BallDotRange(s: Spheres.Sphere, plane: Planes.Plane, p: Vector3.Vector3f)
    requires UnitNormal(plane) && 0.0 <= Spheres.Radius(s) && InBall(s, p)
    ensures Planes.Dot(plane, Spheres.Center(s)) - Spheres.Radius(s) <= Planes.Dot(plane, p)
    ensures Planes.Dot(plane, p) <= Planes.Dot(plane, Spheres.Center(s)) + Spheres.Radius(s)
  {
    var n := plane.data;
    var u := Sub(Spheres.Center(s).vec, p.vec);
    DistLanes(p, Spheres.Center(s), u);
    Spheres.CauchySchwarz(n, u);
    Within(Dot3Value(n, u), Dot3Value(n, n), Dot3Value(u, u), Spheres.Radius(s), RadiusSq(s));
    DotOffset(n, Spheres.Center(s).vec, p.vec, u);
  }

  /** The point at signed distance k from the center along the normal. */
  function AlongNormal(s: Spheres.Sphere, plane: Planes.Plane, k: real): Vector3.Vector3f
  {
    Vector3.Plus(Spheres.Center(s), Vector3.TimesScalar(Vector3.Vector3f(plane.data), k))
  }

  /** Scaling n by k scales n . n by k^2 and moves the dot with n by k (n . n). */
  lemma ScaledLanes(n: Vec4, k: real, u: Vec4, v: Vec4)
    requires u.x == -(n.x * k) && u.y == -(n.y * k) && u.z == -(n.z * k)
    requires v.x == n.x * k && v.y == n.y * k && v.z == n.z * k
    ensures Dot3Value(u, u) == (k * k) * Dot3Value(n, n)
    ensures Dot3Value(n, v) == k * Dot3Value(n, n)
  {
  }

  /** The lanes of AlongNormal: the center plus k times the normal. */
  lemma AlongNormalLanes(s: Spheres.Sphere, plane: Planes.Plane, k: real, u: Vec4, v: Vec4)
    requires u == Sub(Spheres.Center(s).vec, AlongNormal(s, plane, k).vec)
    requires v == Sub(AlongNormal(s, plane, k).vec, Spheres.Center(s).vec)
    ensures u.x == -(plane.data.x * k) && u.y == -(plane.data.y * k) && u.z == -(plane.data.z * k)
    ensures v.x == plane.data.x * k && v.y == plane.data.y * k && v.z == plane.data.z * k
  {
    var q := AlongNormal(s, plane, k).vec;
    var t := Vector3.TimesScalar(Vector3.Vector3f(plane.data), k).vec;
    assert Lane(t, 0) == plane.data.x * k && Lane(t, 1) == plane.data.y * k && Lane(t, 2) == plane.data.z * k;
    assert Lane(q, 0) == Spheres.Center(s).vec.x + t.x;
    assert Lane(q, 1) == Spheres.Center(s).vec.y + t.y;
    assert Lane(q, 2) == Spheres.Center(s).vec.z + t.z;
  }

  /** That point is at squared distance k^2 from the center and at d + k from the plane. */
  lemma AlongNormalFacts(s: Spheres.Sphere, plane: Planes.Plane, k: real)
    requires UnitNormal(plane)
    ensures Vector3.DistSquared(AlongNormal(s, plane, k), Spheres.Center(s)) == k * k
    ensures Planes.Dot(plane, AlongNormal(s, plane, k)) == Planes.Dot(plane, Spheres.Center(s)) + k
  {
    var u := Sub(Spheres.Center(s).vec, AlongNormal(s, plane, k).vec);
    var v := Sub(AlongNormal(s, plane, k).vec, Spheres.Center(s).vec);
    AlongNormalLanes(s, plane, k, u, v);
    ScaledLanes(plane.data, k, u, v);
    DistLanes(AlongNormal(s, plane, k), Spheres.Center(s), u);
    DotOffset(plane.data, AlongNormal(s, plane, k).vec, Spheres.Center(s).vec, v);
  }

  /** A point at distance |k| = radius along the normal lies in the ball, at d + k from the plane. */
  lemma BallPoint(s: Spheres.Sphere, plane: Planes.Plane, k: real)
    requires UnitNormal(plane) && k * k == RadiusSq(s)
    ensures InBall(s, AlongNormal(s, plane, k))
    ensures Planes.Dot(plane, AlongNormal(s, plane, k)) == Planes.Dot(plane, Spheres.Center(s)) + k
  {
    AlongNormalFacts(s, plane, k);
  }

  /** The negated value has the same square. */
  lemma NegSquare(x: real, y: real)
    requires y == -x
    ensures y * y == x * x
  {
  }

  /** plane.dot of the center with lane 3 set to 1 is plane.dot of the center. */
  lemma SphereDistance(s: Spheres.Sphere, plane: Planes.Plane)
    ensures Planes.Dot(plane, Vector3.Vector3f(Vector3.ToVectorW(Spheres.Center(s), 1.0))) == Planes.Dot(plane, Spheres.Center(s))
  {
  }

  /**
   * For a unit normal and a non-negative radius, the sphere is fully
   * inside exactly when every point of its ball is on the non-negative
   * side, and partially inside exactly when some point of it is.
   */
  lemma PlaneSphereClassifies(s: Spheres.Sphere, plane: Planes.Plane)
    requires UnitNormal(plane) && 0.0 <= Spheres.Radius(s)
    ensures PlaneSphereSides(s, plane).isFullyInside <==> forall p :: InBall(s, p) ==> 0.0 <= Planes.Dot(plane, p)
    ensures PlaneSphereSides(s, plane).isPartiallyInside <==> exists p :: InBall(s, p) && 0.0 <= Planes.Dot(plane, p)
  {
    SphereDistance(s, plane);
    BallPoint(s, plane, Spheres.Radius(s));
    NegSquare(Spheres.Radius(s), -Spheres.Radius(s));
    BallPoint(s, plane, -Spheres.Radius(s));
    forall p | InBall(s, p)
      ensures Planes.Dot(plane, Spheres.Center(s)) - Spheres.Radius(s) <= Planes.Dot(plane, p) <= Planes.Dot(plane, Spheres.Center(s)) + Spheres.Radius(s)
    {
      BallDotRange(s, plane, p);
    }
  }

  // ---------------------------------------------------------------------
  // Sphere against box
  // ---------------------------------------------------------------------

  /** How far the center lies outside the box on each lane: below min, above max, else 0. */
  function Overshoot(sphereCenter: Vec4, aabbMins: Vec4, aabbMaxs: Vec4): Vec4
  {
    Add(Select(Sub(sphereCenter, aabbMins), Lt(sphereCenter, aabbMins), ZERO),
        Select(Sub(sphereCenter, aabbMaxs), Gt(sphereCenter, aabbMaxs), ZERO))
  }

  /** intersectSphereAABBFast: the squared overshoot on x, y and z is below radiusSq. */
  function SphereAABBFast(sphereCenter: Vec4, aabbMins: Vec4, aabbMaxs: Vec4, radiusSq: real): bool
  {
    var result := Overshoot(sphereCenter, aabbMins, aabbMaxs);
    Lane(Dot3(result, result), 0) < radiusSq
  }

  /** intersectSphereAABB: the packed center (lane 3 is the radius) and the corners as they are. */
  function IntersectSphereAABB(s: Spheres.Sphere, a: Boxes.AABB): bool
  {
    SphereAABBFast(Spheres.Center(s).vec, a.minExtents.vec, a.maxExtents.vec, RadiusSq(s))
  }

  /** The overshoot on one axis. */
  function AxisOvershoot(c: real, lo: real, hi: real): real
  {
    (if c < lo then c - lo else 0.0) + (if c > hi then c - hi else 0.0)
  }

  /** The lanes of Overshoot. */
  lemma OvershootLanes(c: Vec4, lo: Vec4, hi: Vec4)
    ensures Overshoot(c, lo, hi).x == AxisOvershoot(c.x, lo.x, hi.x)
    ensures Overshoot(c, lo, hi).y == AxisOvershoot(c.y, lo.y, hi.y)
    ensures Overshoot(c, lo, hi).z == AxisOvershoot(c.z, lo.z, hi.z)
  {
    assert Lane(Overshoot(c, lo, hi), 0) == AxisOvershoot(c.x, lo.x, hi.x);
    assert Lane(Overshoot(c, lo, hi), 1) == AxisOvershoot(c.y, lo.y, hi.y);
    assert Lane(Overshoot(c, lo, hi), 2) == AxisOvershoot(c.z, lo.z, hi.z);
  }

  /** One axis: a coordinate q inside [lo, hi] is at least the overshoot away from c. */
  lemma AxisOvershootBelow(c: real, lo: real, hi: real, q: real, o: real, d: real)
    requires lo <= q <= hi
    requires o == AxisOvershoot(c, lo, hi) && d == c - q
    ensures o * o <= d * d
  {
    if c < lo {
      assert o == c - lo && d <= o <= 0.0;
      Spheres.ProductBelow(-o, -d, -o, -d);
      assert (-o) * (-o) == o * o && (-d) * (-d) == d * d;
    } else if c > hi {
      assert o == c - hi && 0.0 <= o <= d;
      Spheres.ProductBelow(o, d, o, d);
    }
  }

  /** The point of the box nearest to p: p clamped into [min, max] on each axis. */
  function Closest(a: Boxes.AABB, p: Vector3.Vector3f): Vector3.Vector3f
  {
    var lo := a.minExtents.vec;
    var hi := a.maxExtents.vec;
    Vector3.Vector3f(Vec4(GenericMath.Clamp(p.vec.x, lo.x, hi.x), GenericMath.Clamp(p.vec.y, lo.y, hi.y),
                          GenericMath.Clamp(p.vec.z, lo.z, hi.z), 0.0))
  }

  /** For an ordered box the clamped point lies in it, and the overshoot is the offset to it. */
  lemma ClosestFacts(a: Boxes.AABB, p: Vector3.Vector3f)
    requires Boxes.Ordered(a)
    ensures Boxes.Encloses(a, Closest(a, p))
    ensures Dot3Value(Overshoot(p.vec, a.minExtents.vec, a.maxExtents.vec), Overshoot(p.vec, a.minExtents.vec, a.maxExtents.vec))
      == Vector3.DistSquared(Closest(a, p), p)
  {
    var lo := a.minExtents.vec;
    var hi := a.maxExtents.vec;
    Boxes.Coords(a.minExtents);
    Boxes.Coords(a.maxExtents);
    Boxes.Coords(Closest(a, p));
    OvershootLanes(p.vec, lo, hi);
    var o := Overshoot(p.vec, lo, hi);
    var u := Vector3.Minus(p, Closest(a, p)).vec;
    assert u.x == o.x && u.y == o.y && u.z == o.z;
  }

  /** Three axes: a point q between the corners is at least the overshoot away from c. */
  lemma OvershootBelowLanes(c: Vec4, lo: Vec4, hi: Vec4, q: Vec4, u: Vec4)
    requires lo.x <= q.x <= hi.x && lo.y <= q.y <= hi.y && lo.z <= q.z <= hi.z
    requires u == Sub(c, q)
    ensures Dot3Value(Overshoot(c, lo, hi), Overshoot(c, lo, hi)) <= Dot3Value(u, u)
  {
    var o := Overshoot(c, lo, hi);
    OvershootLanes(c, lo, hi);
    AxisOvershootBelow(c.x, lo.x, hi.x, q.x, o.x, u.x);
    AxisOvershootBelow(c.y, lo.y, hi.y, q.y, o.y, u.y);
    AxisOvershootBelow(c.z, lo.z, hi.z, q.z, o.z, u.z);
    SquaresBelow(o, u);
  }

  /** Lane-wise smaller squares give a smaller squared length. */
  lemma SquaresBelow(o: Vec4, u: Vec4)
    requires o.x * o.x <= u.x * u.x && o.y * o.y <= u.y * u.y && o.z * o.z <= u.z * u.z
    ensures Dot3Value(o, o) <= Dot3Value(u, u)
  {
  }

  /** For a point of the box, the squared overshoot is at most its squared distance to p. */
  lemma OvershootBelow(a: Boxes.AABB, p: Vector3.Vector3f, q: Vector3.Vector3f)
    requires Boxes.Encloses(a, q)
    ensures Dot3Value(Overshoot(p.vec, a.minExtents.vec, a.maxExtents.vec), Overshoot(p.vec, a.minExtents.vec, a.maxExtents.vec))
      <= Vector3.DistSquared(q, p)
  {
    EnclosedLanes(a, q);
    OvershootBelowLanes(p.vec, a.minExtents.vec, a.maxExtents.vec, q.vec, Sub(p.vec, q.vec));
    DistLanes(q, p, Sub(p.vec, q.vec));
  }

  /**
   * An ordered box and a sphere intersect exactly when some point of the
   * box is strictly closer to the center than the radius.
   */
  lemma SphereAABBMeaning(s: Spheres.Sphere, a: Boxes.AABB)
    requires Boxes.Ordered(a)
    ensures IntersectSphereAABB(s, a) <==>
      exists q :: Boxes.Encloses(a, q) && Vector3.DistSquared(q, Spheres.Center(s)) < RadiusSq(s)
  {
    var c := Spheres.Center(s);
    ClosestFacts(a, c);
    forall q | Boxes.Encloses(a, q)
      ensures Dot3Value(Overshoot(c.vec, a.minExtents.vec, a.maxExtents.vec), Overshoot(c.vec, a.minExtents.vec, a.maxExtents.vec))
        <= Vector3.DistSquared(q, c)
    {
      OvershootBelow(a, c, q);
    }
  }

  /** intersectSphereAABB on the overshoot of each axis. */
  lemma SphereAABBLanes(s: Spheres.Sphere, a: Boxes.AABB, ox: real, oy: real, oz: real)
    requires ox == AxisOvershoot(s.data.x, a.minExtents.vec.x, a.maxExtents.vec.x)
    requires oy == AxisOvershoot(s.data.y, a.minExtents.vec.y, a.maxExtents.vec.y)
    requires oz == AxisOvershoot(s.data.z, a.minExtents.vec.z, a.maxExtents.vec.z)
    ensures IntersectSphereAABB(s, a) <==> ox * ox + oy * oy + oz * oz < RadiusSq(s)
  {
    FastLanes(Spheres.Center(s).vec, a.minExtents.vec, a.maxExtents.vec, RadiusSq(s), ox, oy, oz);
  }

  /** intersectSphereAABBFast on the overshoot of each axis. */
  lemma FastLanes(c: Vec4, lo: Vec4, hi: Vec4, radiusSq: real, ox: real, oy: real, oz: real)
    requires ox == AxisOvershoot(c.x, lo.x, hi.x) && oy == AxisOvershoot(c.y, lo.y, hi.y)
    requires oz == AxisOvershoot(c.z, lo.z, hi.z)
    ensures SphereAABBFast(c, lo, hi, radiusSq) <==> ox * ox + oy * oy + oz * oz < radiusSq
  {
    FastValue(c, lo, hi, radiusSq);
    OvershootLanes(c, lo, hi);
    SquaredLanes(Overshoot(c, lo, hi), ox, oy, oz);
  }

  /** intersectSphereAABBFast compares the squared length of the overshoot with radiusSq. */
  lemma FastValue(c: Vec4, lo: Vec4, hi: Vec4, radiusSq: real)
    ensures SphereAABBFast(c, lo, hi, radiusSq) <==> Dot3Value(Overshoot(c, lo, hi), Overshoot(c, lo, hi)) < radiusSq
  {
    var o := Overshoot(c, lo, hi);
    assert Lane(Dot3(o, o), 0) == Dot3Value(o, o);
  }

  /** The squared length of o over given lane values. */
  lemma SquaredLanes(o: Vec4, ox: real, oy: real, oz: real)
    requires o.x == ox && o.y == oy && o.z == oz
    ensures Dot3Value(o, o) == ox * ox + oy * oy + oz * oz
  {
  }

  /** intersectSphereAABB compares the squared overshoot on x, y and z with r^2. */
  lemma SphereAABBValue(s: Spheres.Sphere, a: Boxes.AABB)
    ensures IntersectSphereAABB(s, a) <==>
      Dot3Value(Overshoot(Spheres.Center(s).vec, a.minExtents.vec, a.maxExtents.vec),
                Overshoot(Spheres.Center(s).vec, a.minExtents.vec, a.maxExtents.vec)) < RadiusSq(s)
  {
    var o := Overshoot(Spheres.Center(s).vec, a.minExtents.vec, a.maxExtents.vec);
    assert Lane(Dot3(o, o), 0) == Dot3Value(o, o);
  }

  /** A center within the corners on x, y and z overshoots by nothing. */
  lemma NoOvershoot(c: Vec4, lo: Vec4, hi: Vec4)
    requires lo.x <= c.x <= hi.x && lo.y <= c.y <= hi.y && lo.z <= c.z <= hi.z
    ensures Dot3Value(Overshoot(c, lo, hi), Overshoot(c, lo, hi)) == 0.0
  {
    OvershootLanes(c, lo, hi);
  }

  /** The lanes of a point of the box lie between its corners. */
  lemma EnclosedLanes(a: Boxes.AABB, p: Vector3.Vector3f)
    requires Boxes.Encloses(a, p)
    ensures a.minExtents.vec.x <= p.vec.x <= a.maxExtents.vec.x
    ensures a.minExtents.vec.y <= p.vec.y <= a.maxExtents.vec.y
    ensures a.minExtents.vec.z <= p.vec.z <= a.maxExtents.vec.z
  {
    Boxes.Coords(a.minExtents);
    Boxes.Coords(a.maxExtents);
    Boxes.Coords(p);
  }

  /** A center in the closed box gives true exactly when r^2 > 0. */
  lemma CenterInsideBox(s: Spheres.Sphere, a: Boxes.AABB)
    requires Boxes.Encloses(a, Spheres.Center(s))
    ensures IntersectSphereAABB(s, a) <==> 0.0 < RadiusSq(s)
  {
    SphereAABBValue(s, a);
    EnclosedLanes(a, Spheres.Center(s));
    NoOvershoot(Spheres.Center(s).vec, a.minExtents.vec, a.maxExtents.vec);
  }
}
