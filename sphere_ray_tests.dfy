/**
 * The ray and line cases of the unit test (test.cpp, testIntersects) for
 * the sphere of radius 0.5 at the origin, stated lane by lane with an exact
 * square root, one case per lemma; and a segment that intersectLine
 * accepts although the sphere lies behind its start.
 */
module SphereRayTests {
  import GenericMath
  import opened GenericVecmath
  import Vector3
  import opened Spheres
  import opened SphereRays

  /** The exact square root of c^2 is c for c >= 0. */
  lemma SqrtOf(lm: GenericMath.Libm, c: real, n: real)
    requires GenericMath.SqrtIsExact(lm)
    requires 0.0 <= c && n == c * c
    ensures lm.sqrt(n) == c
  {
    var r := lm.sqrt(n);
    assert 0.0 <= r && r * r == n;
    assert (r - c) * (r + c) == r * r - c * c;
    if r + c != 0.0 {
      Vector3.ZeroProduct(r - c, r + c);
    }
  }

  /** From (0,0,-3) along +z the ray enters at 2.5 and leaves at 3.5. */
  lemma RayThroughCenter(lm: GenericMath.Libm, sphere3: Sphere, start: Vector3.Vector3f, dir: Vector3.Vector3f)
    requires GenericMath.SqrtIsExact(lm)
    requires sphere3.data.x == 0.0 && sphere3.data.y == 0.0 && sphere3.data.z == 0.0 && sphere3.data.w == 0.5
    requires start.vec.x == 0.0 && start.vec.y == 0.0 && start.vec.z == -3.0
    requires dir.vec.x == 0.0 && dir.vec.y == 0.0 && dir.vec.z == 1.0
    ensures IntersectRay(lm, sphere3, start, dir).Hit?
    ensures IntersectRay(lm, sphere3, start, dir).point1 == 2.5 && IntersectRay(lm, sphere3, start, dir).point2 == 3.5
  {
    assert AlongRay(sphere3, start, dir) == 3.0;
    assert PerpSquared(sphere3, start, dir) == 0.0;
    SqrtOf(lm, 0.5, 0.25);
  }

  /** From (-0.5,0,-3) along +z the ray grazes the sphere: both parameters are 3. */
  lemma RayGrazing(lm: GenericMath.Libm, sphere3: Sphere, start: Vector3.Vector3f, dir: Vector3.Vector3f)
    requires GenericMath.SqrtIsExact(lm)
    requires sphere3.data.x == 0.0 && sphere3.data.y == 0.0 && sphere3.data.z == 0.0 && sphere3.data.w == 0.5
    requires start.vec.x == -0.5 && start.vec.y == 0.0 && start.vec.z == -3.0
    requires dir.vec.x == 0.0 && dir.vec.y == 0.0 && dir.vec.z == 1.0
    ensures IntersectRay(lm, sphere3, start, dir).Hit?
    ensures IntersectRay(lm, sphere3, start, dir).point1 == 3.0 && IntersectRay(lm, sphere3, start, dir).point2 == 3.0
  {
    assert AlongRay(sphere3, start, dir) == 3.0;
    assert PerpSquared(sphere3, start, dir) == 0.25;
    SqrtOf(lm, 0.0, 0.0);
  }

  /** From (0.6,0,-3) along +z the ray misses. */
  lemma RayMissing(lm: GenericMath.Libm, sphere3: Sphere, start: Vector3.Vector3f, dir: Vector3.Vector3f)
    requires sphere3.data.x == 0.0 && sphere3.data.y == 0.0 && sphere3.data.z == 0.0 && sphere3.data.w == 0.5
    requires start.vec.x == 0.6 && start.vec.y == 0.0 && start.vec.z == -3.0
    requires dir.vec.x == 0.0 && dir.vec.y == 0.0 && dir.vec.z == 1.0
    ensures IntersectRay(lm, sphere3, start, dir).Miss?
  {
    assert PerpSquared(sphere3, start, dir) == 0.36;
  }

  /** A segment of length len > 0 along +z normalizes to (0,0,1). */
  lemma DirectionAlongZ(lm: GenericMath.Libm, start: Vector3.Vector3f, end: Vector3.Vector3f, len: real)
    requires GenericMath.SqrtIsExact(lm)
    requires 0.0 < len
    requires end.vec.x == start.vec.x && end.vec.y == start.vec.y && end.vec.z - start.vec.z == len
    ensures lm.sqrt(Vector3.LengthSquared(Vector3.Minus(end, start))) == len
    ensures Vector3.LengthSquared(Vector3.Minus(end, start)) == len * len
    ensures LineDirection(lm, start, end).vec.x == 0.0 && LineDirection(lm, start, end).vec.y == 0.0
    ensures LineDirection(lm, start, end).vec.z == 1.0
  {
    var d := Vector3.Minus(end, start);
    assert Vector3.LengthSquared(d) == len * len;
    SqrtOf(lm, len, len * len);
    var n := LineDirection(lm, start, end);
    assert Lane(n.vec, 0) * len == 0.0 && Lane(n.vec, 1) * len == 0.0 && Lane(n.vec, 2) * len == len;
    Vector3.ZeroProduct(n.vec.x, len);
    Vector3.ZeroProduct(n.vec.y, len);
    Vector3.ZeroProduct(n.vec.z - 1.0, len);
  }

  /** The segment from (0,0,-3) to (0,0,3) intersects the sphere. */
  lemma LineThroughCenter(lm: GenericMath.Libm, sphere3: Sphere, start: Vector3.Vector3f, end: Vector3.Vector3f)
    requires GenericMath.SqrtIsExact(lm)
    requires sphere3.data.x == 0.0 && sphere3.data.y == 0.0 && sphere3.data.z == 0.0 && sphere3.data.w == 0.5
    requires start.vec.x == 0.0 && start.vec.y == 0.0 && start.vec.z == -3.0
    requires end.vec.x == 0.0 && end.vec.y == 0.0 && end.vec.z == 3.0
    ensures lm.sqrt(Vector3.LengthSquared(Vector3.Minus(end, start))) != 0.0
    ensures IntersectLine(lm, sphere3, start, end)
  {
    DirectionAlongZ(lm, start, end, 6.0);
    RayThroughCenter(lm, sphere3, start, LineDirection(lm, start, end));
  }

  /** The segment from (0.5,0,-3) to (0.5,0,3) touches the sphere and counts as intersecting. */
  lemma LineAtEdge(lm: GenericMath.Libm, sphere3: Sphere, start: Vector3.Vector3f, end: Vector3.Vector3f)
    requires GenericMath.SqrtIsExact(lm)
    requires sphere3.data.x == 0.0 && sphere3.data.y == 0.0 && sphere3.data.z == 0.0 && sphere3.data.w == 0.5
    requires start.vec.x == 0.5 && start.vec.y == 0.0 && start.vec.z == -3.0
    requires end.vec.x == 0.5 && end.vec.y == 0.0 && end.vec.z == 3.0
    ensures lm.sqrt(Vector3.LengthSquared(Vector3.Minus(end, start))) != 0.0
    ensures IntersectLine(lm, sphere3, start, end)
  {
    DirectionAlongZ(lm, start, end, 6.0);
    RayGrazingAt(lm, sphere3, start, LineDirection(lm, start, end));
  }

  /** The ray from (0.5,0,-3) along (0,0,1) touches the sphere at parameter 3. */
  lemma RayGrazingAt(lm: GenericMath.Libm, sphere3: Sphere, start: Vector3.Vector3f, dir: Vector3.Vector3f)
    requires GenericMath.SqrtIsExact(lm)
    requires sphere3.data.x == 0.0 && sphere3.data.y == 0.0 && sphere3.data.z == 0.0 && sphere3.data.w == 0.5
    requires start.vec.x == 0.5 && start.vec.y == 0.0 && start.vec.z == -3.0
    requires dir.vec.x == 0.0 && dir.vec.y == 0.0 && dir.vec.z == 1.0
    ensures IntersectRay(lm, sphere3, start, dir).Hit? && IntersectRay(lm, sphere3, start, dir).point1 == 3.0
  {
    assert AlongRay(sphere3, start, dir) == 3.0;
    assert PerpSquared(sphere3, start, dir) == 0.25;
    SqrtOf(lm, 0.0, 0.0);
  }

  /** The segment from (0.6,0,-3) to (0.6,0,3) passes the sphere by. */
  lemma LineMissing(lm: GenericMath.Libm, sphere3: Sphere, start: Vector3.Vector3f, end: Vector3.Vector3f)
    requires GenericMath.SqrtIsExact(lm)
    requires sphere3.data.x == 0.0 && sphere3.data.y == 0.0 && sphere3.data.z == 0.0 && sphere3.data.w == 0.5
    requires start.vec.x == 0.6 && start.vec.y == 0.0 && start.vec.z == -3.0
    requires end.vec.x == 0.6 && end.vec.y == 0.0 && end.vec.z == 3.0
    ensures lm.sqrt(Vector3.LengthSquared(Vector3.Minus(end, start))) != 0.0
    ensures !IntersectLine(lm, sphere3, start, end)
  {
    DirectionAlongZ(lm, start, end, 6.0);
    RayMissing(lm, sphere3, start, LineDirection(lm, start, end));
  }

  /**
   * intersectLine compares only point1^2 with the squared length, so a
   * sphere of radius 0.5 at (0,0,-2), wholly behind the segment from the
   * origin to (0,0,10), is reported as intersected, while no point of the
   * segment lies in its ball.
   */
  lemma LineBehindStartCounts(lm: GenericMath.Libm, s: Sphere, start: Vector3.Vector3f, end: Vector3.Vector3f)
    requires GenericMath.SqrtIsExact(lm)
    requires s.data.x == 0.0 && s.data.y == 0.0 && s.data.z == -2.0 && s.data.w == 0.5
    requires start.vec.x == 0.0 && start.vec.y == 0.0 && start.vec.z == 0.0
    requires end.vec.x == 0.0 && end.vec.y == 0.0 && end.vec.z == 10.0
    ensures lm.sqrt(Vector3.LengthSquared(Vector3.Minus(end, start))) != 0.0
    ensures IntersectLine(lm, s, start, end)
    ensures !SegmentMeetsBall(s, start, LineDirection(lm, start, end), lm.sqrt(Vector3.LengthSquared(Vector3.Minus(end, start))))
  {
    DirectionAlongZ(lm, start, end, 10.0);
    BehindRay(lm, s, start, LineDirection(lm, start, end));
    IntersectLineIntendedMeetsBall(lm, s, start, end);
  }

  /** From the origin along +z, the sphere at (0,0,-2) of radius 0.5 is met at -2.5 and -1.5. */
  lemma BehindRay(lm: GenericMath.Libm, s: Sphere, start: Vector3.Vector3f, dir: Vector3.Vector3f)
    requires GenericMath.SqrtIsExact(lm)
    requires s.data.x == 0.0 && s.data.y == 0.0 && s.data.z == -2.0 && s.data.w == 0.5
    requires start.vec.x == 0.0 && start.vec.y == 0.0 && start.vec.z == 0.0
    requires dir.vec.x == 0.0 && dir.vec.y == 0.0 && dir.vec.z == 1.0
    ensures IntersectRay(lm, s, start, dir).Hit?
    ensures IntersectRay(lm, s, start, dir).point1 == -2.5 && IntersectRay(lm, s, start, dir).point2 == -1.5
  {
    assert AlongRay(s, start, dir) == -2.0;
    assert PerpSquared(s, start, dir) == 0.0;
    SqrtOf(lm, 0.5, 0.25);
  }
}
