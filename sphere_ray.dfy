/**
 * Sphere::intersectRay and Sphere::intersectLine.  The ray test projects
 * the center onto the ray: t is the parameter of the closest approach,
 * perp^2 = |c - start|^2 - t^2 the squared distance of the center from the
 * ray's line, and with h = sqrt(r^2 - perp^2) the two parameters are t - h
 * and t + h.  Nothing restricts them to be positive, so the test is one on
 * the whole line through start.
 */
module SphereRays {
  import GenericMath
  import opened GenericVecmath
  import Vector3
  import opened Spheres

  /** intersectRay's result: false, or true together with the two parameters it writes. */
  datatype RayHit = Miss | Hit(point1: real, point2: real)

  /** start + rayDir * t. */
  function PointAt(start: Vector3.Vector3f, rayDir: Vector3.Vector3f, t: real): Vector3.Vector3f
  {
    Vector3.Plus(start, Vector3.TimesScalar(rayDir, t))
  }

  /** rayToCenter = center - start. */
  function RayToCenter(s: Sphere, start: Vector3.Vector3f): Vector3.Vector3f
  {
    Vector3.Minus(Center(s), start)
  }

  /** distToCenterAlongRay: the parameter of the foot of the center on the ray. */
  function AlongRay(s: Sphere, start: Vector3.Vector3f, rayDir: Vector3.Vector3f): real
  {
    Vector3.Dot(RayToCenter(s, start), rayDir)
  }

  /** sphereCenterDistToRaySq = |rayToCenter|^2 - distToCenterAlongRay^2. */
  function PerpSquared(s: Sphere, start: Vector3.Vector3f, rayDir: Vector3.Vector3f): real
  {
    Vector3.LengthSquared(RayToCenter(s, start)) - AlongRay(s, start, rayDir) * AlongRay(s, start, rayDir)
  }

  /** halfRayPenetrationDist = sqrt(r^2 - perp^2). */
  function HalfChord(lm: GenericMath.Libm, s: Sphere, start: Vector3.Vector3f, rayDir: Vector3.Vector3f): real
  {
    lm.sqrt(s.data.w * s.data.w - PerpSquared(s, start, rayDir))
  }

  /**
   * intersectRay(start, rayDir, point1, point2): false when the line passes
   * farther than the radius from the center; otherwise the two parameters lie
   * symmetrically about the closest approach, point1 first.
   */
  function IntersectRay(lm: GenericMath.Libm, s: Sphere, start: Vector3.Vector3f, rayDir: Vector3.Vector3f): (r: RayHit)
    ensures r.Miss? <==> PerpSquared(s, start, rayDir) > Radius(s) * Radius(s)
    ensures r.Hit? ==> r.point1 + r.point2 == AlongRay(s, start, rayDir) + AlongRay(s, start, rayDir)
    ensures r.Hit? && GenericMath.SqrtIsExact(lm) ==> r.point1 <= r.point2
  {
    var distToCenterAlongRay := AlongRay(s, start, rayDir);
    var sphereCenterDistToRaySq := PerpSquared(s, start, rayDir);
    var radius2 := s.data.w * s.data.w;
    if sphereCenterDistToRaySq > radius2 then
      Miss
    else
      var halfRayPenetrationDist := HalfChord(lm, s, start, rayDir);
      Hit(distToCenterAlongRay - halfRayPenetrationDist, distToCenterAlongRay + halfRayPenetrationDist)
  }

  /**
   * For a unit direction, the squared distance from the center to the point
   * at parameter t is (t - distToCenterAlongRay)^2 + perp^2: smallest at the
   * foot, growing with the distance from it.
   */
  lemma DistanceAlongLine(s: Sphere, start: Vector3.Vector3f, rayDir: Vector3.Vector3f, t: real)
    requires Vector3.LengthSquared(rayDir) == 1.0
    ensures Vector3.DistSquared(PointAt(start, rayDir, t), Center(s)) ==
      (t - AlongRay(s, start, rayDir)) * (t - AlongRay(s, start, rayDir)) + PerpSquared(s, start, rayDir)
  {
    PointLanes(s, start, rayDir, t);
    LineIdentity(RayToCenter(s, start).vec, rayDir.vec, t, Vector3.Minus(Center(s), PointAt(start, rayDir, t)).vec,
      AlongRay(s, start, rayDir), PerpSquared(s, start, rayDir));
  }

  /** center - (start + rayDir t) = rayToCenter - rayDir t, lane by lane. */
  lemma PointLanes(s: Sphere, start: Vector3.Vector3f, rayDir: Vector3.Vector3f, t: real)
    ensures var q := Vector3.Minus(Center(s), PointAt(start, rayDir, t)).vec;
      var e := RayToCenter(s, start).vec;
      q.x == e.x - rayDir.vec.x * t && q.y == e.y - rayDir.vec.y * t && q.z == e.z - rayDir.vec.z * t
  {
  }

  /** |e - d t|^2 = (t - a)^2 + perp for a unit d, a = e . d and perp = |e|^2 - a^2. */
  lemma LineIdentity(e: Vec4, d: Vec4, t: real, q: Vec4, a: real, perp: real)
    requires Dot3Value(d, d) == 1.0 && a == Dot3Value(e, d) && perp == Dot3Value(e, e) - a * a
    requires q.x == e.x - d.x * t && q.y == e.y - d.y * t && q.z == e.z - d.z * t
    ensures Dot3Value(q, q) == (t - a) * (t - a) + perp
  {
    assert Dot3Value(q, q) == Dot3Value(e, e) - 2.0 * t * Dot3Value(e, d) + t * t * Dot3Value(d, d);
  }

  /** With a unit direction and an exact square root, both parameters of a hit lie on the sphere's surface. */
  lemma HitPointsOnSurface(lm: GenericMath.Libm, s: Sphere, start: Vector3.Vector3f, rayDir: Vector3.Vector3f)
    requires GenericMath.SqrtIsExact(lm)
    requires Vector3.LengthSquared(rayDir) == 1.0
    requires IntersectRay(lm, s, start, rayDir).Hit?
    ensures Vector3.DistSquared(PointAt(start, rayDir, IntersectRay(lm, s, start, rayDir).point1), Center(s)) ==
      Radius(s) * Radius(s)
    ensures Vector3.DistSquared(PointAt(start, rayDir, IntersectRay(lm, s, start, rayDir).point2), Center(s)) ==
      Radius(s) * Radius(s)
  {
    HitParameters(lm, s, start, rayDir);
    HalfChordSquared(lm, s, start, rayDir);
    ChordEndsOnSurface(lm, s, start, rayDir);
  }

  /** Both ends of the chord, the foot minus and plus h with h^2 = r^2 - perp^2, lie on the surface. */
  lemma ChordEndsOnSurface(lm: GenericMath.Libm, s: Sphere, start: Vector3.Vector3f, rayDir: Vector3.Vector3f)
    requires Vector3.LengthSquared(rayDir) == 1.0
    requires HalfChord(lm, s, start, rayDir) * HalfChord(lm, s, start, rayDir) ==
      Radius(s) * Radius(s) - PerpSquared(s, start, rayDir)
    ensures Vector3.DistSquared(PointAt(start, rayDir, AlongRay(s, start, rayDir) - HalfChord(lm, s, start, rayDir)), Center(s)) ==
      Radius(s) * Radius(s)
    ensures Vector3.DistSquared(PointAt(start, rayDir, AlongRay(s, start, rayDir) + HalfChord(lm, s, start, rayDir)), Center(s)) ==
      Radius(s) * Radius(s)
  {
    var h := HalfChord(lm, s, start, rayDir);
    PointOnSurface(s, start, rayDir, AlongRay(s, start, rayDir) - h, h);
    PointOnSurface(s, start, rayDir, AlongRay(s, start, rayDir) + h, h);
  }

  /** A parameter h before or after the foot, with h^2 = r^2 - perp^2, gives a point at squared distance r^2. */
  lemma PointOnSurface(s: Sphere, start: Vector3.Vector3f, rayDir: Vector3.Vector3f, t: real, h: real)
    requires Vector3.LengthSquared(rayDir) == 1.0
    requires t == AlongRay(s, start, rayDir) - h || t == AlongRay(s, start, rayDir) + h
    requires h * h == Radius(s) * Radius(s) - PerpSquared(s, start, rayDir)
    ensures Vector3.DistSquared(PointAt(start, rayDir, t), Center(s)) == Radius(s) * Radius(s)
  {
    ChordOffset(t, AlongRay(s, start, rayDir), h);
    DistanceAlongLine(s, start, rayDir, t);
  }

  /** t = a - h or t = a + h gives (t - a)^2 = h^2. */
  lemma ChordOffset(t: real, a: real, h: real)
    requires t == a - h || t == a + h
    ensures (t - a) * (t - a) == h * h
  {
    assert t - a == h || t - a == -h;
  }

  /** On a hit, with an exact square root, h is non-negative and h^2 = r^2 - perp^2. */
  lemma HalfChordSquared(lm: GenericMath.Libm, s: Sphere, start: Vector3.Vector3f, rayDir: Vector3.Vector3f)
    requires GenericMath.SqrtIsExact(lm)
    requires PerpSquared(s, start, rayDir) <= Radius(s) * Radius(s)
    ensures 0.0 <= HalfChord(lm, s, start, rayDir)
    ensures HalfChord(lm, s, start, rayDir) * HalfChord(lm, s, start, rayDir) ==
      Radius(s) * Radius(s) - PerpSquared(s, start, rayDir)
  {
  }

  /** With a unit direction, a miss means every point of the line lies outside the closed ball. */
  lemma MissClearsBall(lm: GenericMath.Libm, s: Sphere, start: Vector3.Vector3f, rayDir: Vector3.Vector3f, t: real)
    requires Vector3.LengthSquared(rayDir) == 1.0
    requires IntersectRay(lm, s, start, rayDir).Miss?
    ensures Radius(s) * Radius(s) < Vector3.DistSquared(PointAt(start, rayDir, t), Center(s))
  {
    LineOutside(s, start, rayDir, t);
  }

  /** A line passing farther than the radius from the center stays outside the closed ball. */
  lemma LineOutside(s: Sphere, start: Vector3.Vector3f, rayDir: Vector3.Vector3f, t: real)
    requires Vector3.LengthSquared(rayDir) == 1.0
    requires PerpSquared(s, start, rayDir) > Radius(s) * Radius(s)
    ensures Radius(s) * Radius(s) < Vector3.DistSquared(PointAt(start, rayDir, t), Center(s))
  {
    DistanceAlongLine(s, start, rayDir, t);
    var u := t - AlongRay(s, start, rayDir);
    assert 0.0 <= u * u;
  }

  // ---------------------------------------------------------------------
  // intersectLine
  // ---------------------------------------------------------------------

  /** dir = end - start, normalized (normalized needs it nonzero). */
  function LineDirection(lm: GenericMath.Libm, start: Vector3.Vector3f, end: Vector3.Vector3f): Vector3.Vector3f
    requires lm.sqrt(Vector3.LengthSquared(Vector3.Minus(end, start))) != 0.0
  {
    Vector3.Normalized(lm, Vector3.Minus(end, start), 0.00000001)
  }

  /**
   * intersectLine(start, end): the ray test along the normalized direction,
   * then point1^2 against |end - start|^2.
   */
  function IntersectLine(lm: GenericMath.Libm, s: Sphere, start: Vector3.Vector3f, end: Vector3.Vector3f): (r: bool)
    requires lm.sqrt(Vector3.LengthSquared(Vector3.Minus(end, start))) != 0.0
    ensures r ==> IntersectRay(lm, s, start, LineDirection(lm, start, end)).Hit?
  {
    var dir := Vector3.Minus(end, start);
    match IntersectRay(lm, s, start, LineDirection(lm, start, end))
    case Miss => false
    case Hit(p1, _) => p1 * p1 < Vector3.LengthSquared(dir)
  }

  /** Some point of the segment from start to start + n * len lies in the closed ball. */
  ghost predicate SegmentMeetsBall(s: Sphere, start: Vector3.Vector3f, n: Vector3.Vector3f, len: real)
  {
    exists t: real :: 0.0 <= t <= len && Vector3.DistSquared(PointAt(start, n, t), Center(s)) <= Radius(s) * Radius(s)
  }

  /**
   * The segment test intersectLine evidently means: the interval
   * [point1, point2] of the ray test overlaps [0, |end - start|].
   */
  function IntersectLineIntended(lm: GenericMath.Libm, s: Sphere, start: Vector3.Vector3f, end: Vector3.Vector3f): bool
    requires lm.sqrt(Vector3.LengthSquared(Vector3.Minus(end, start))) != 0.0
  {
    var len := lm.sqrt(Vector3.LengthSquared(Vector3.Minus(end, start)));
    match IntersectRay(lm, s, start, LineDirection(lm, start, end))
    case Miss => false
    case Hit(p1, p2) => p1 <= len && 0.0 <= p2
  }

  /** With an exact square root, the normalized direction of a nonzero segment is a unit vector. */
  lemma LineDirectionIsUnit(lm: GenericMath.Libm, start: Vector3.Vector3f, end: Vector3.Vector3f)
    requires GenericMath.SqrtIsExact(lm)
    requires lm.sqrt(Vector3.LengthSquared(Vector3.Minus(end, start))) != 0.0
    ensures Vector3.LengthSquared(LineDirection(lm, start, end)) == 1.0
  {
    Vector3.NormalizedIsNormalized(lm, Vector3.Minus(end, start), 0.00000001, 1.0);
  }

  /**
   * With an exact square root, the intended segment test holds exactly when
   * some point of the segment from start to end lies in the closed ball.
   */
  lemma IntersectLineIntendedMeetsBall(lm: GenericMath.Libm, s: Sphere, start: Vector3.Vector3f, end: Vector3.Vector3f)
    requires GenericMath.SqrtIsExact(lm)
    requires lm.sqrt(Vector3.LengthSquared(Vector3.Minus(end, start))) != 0.0
    ensures IntersectLineIntended(lm, s, start, end) <==>
      SegmentMeetsBall(s, start, LineDirection(lm, start, end), lm.sqrt(Vector3.LengthSquared(Vector3.Minus(end, start))))
  {
    var n := LineDirection(lm, start, end);
    var len := lm.sqrt(Vector3.LengthSquared(Vector3.Minus(end, start)));
    LineDirectionIsUnit(lm, start, end);
    assert 0.0 <= len;
    if IntersectLineIntended(lm, s, start, end) {
      OverlapMeetsBall(lm, s, start, n, len);
    }
    if SegmentMeetsBall(s, start, n, len) {
      var t :| 0.0 <= t <= len && Vector3.DistSquared(PointAt(start, n, t), Center(s)) <= Radius(s) * Radius(s);
      DistanceAlongLine(s, start, n, t);
      MeetingPointInside(lm, s, start, n, t, len);
    }
  }

  /** A hit whose interval reaches into [0, len] puts a point of the segment in the closed ball. */
  lemma OverlapMeetsBall(lm: GenericMath.Libm, s: Sphere, start: Vector3.Vector3f, n: Vector3.Vector3f, len: real)
    requires GenericMath.SqrtIsExact(lm)
    requires Vector3.LengthSquared(n) == 1.0
    requires IntersectRay(lm, s, start, n).Hit?
    requires IntersectRay(lm, s, start, n).point1 <= len && 0.0 <= IntersectRay(lm, s, start, n).point2
    requires 0.0 <= len
    ensures SegmentMeetsBall(s, start, n, len)
  {
    var hit := IntersectRay(lm, s, start, n);
    var t := if hit.point1 < 0.0 then 0.0 else hit.point1;
    HitParameters(lm, s, start, n);
    HalfChordSquared(lm, s, start, n);
    WithinOffset(t, AlongRay(s, start, n), HalfChord(lm, s, start, n));
    PointInside(s, start, n, t);
    assert 0.0 <= t <= len && Vector3.DistSquared(PointAt(start, n, t), Center(s)) <= Radius(s) * Radius(s);
  }

  /** On a hit the parameters are the foot minus and plus sqrt(r^2 - perp^2). */
  lemma HitParameters(lm: GenericMath.Libm, s: Sphere, start: Vector3.Vector3f, rayDir: Vector3.Vector3f)
    requires IntersectRay(lm, s, start, rayDir).Hit?
    ensures IntersectRay(lm, s, start, rayDir).point1 == AlongRay(s, start, rayDir) - HalfChord(lm, s, start, rayDir)
    ensures IntersectRay(lm, s, start, rayDir).point2 == AlongRay(s, start, rayDir) + HalfChord(lm, s, start, rayDir)
  {
  }

  /** A parameter whose squared offset from the foot is at most r^2 - perp^2 gives a point of the closed ball. */
  lemma PointInside(s: Sphere, start: Vector3.Vector3f, rayDir: Vector3.Vector3f, t: real)
    requires Vector3.LengthSquared(rayDir) == 1.0
    requires (t - AlongRay(s, start, rayDir)) * (t - AlongRay(s, start, rayDir)) <=
      Radius(s) * Radius(s) - PerpSquared(s, start, rayDir)
    ensures Vector3.DistSquared(PointAt(start, rayDir, t), Center(s)) <= Radius(s) * Radius(s)
  {
    DistanceAlongLine(s, start, rayDir, t);
  }

  /** a - h <= t <= a + h gives (t - a)^2 <= h^2. */
  lemma WithinOffset(t: real, a: real, h: real)
    requires 0.0 <= h && a - h <= t <= a + h
    ensures (t - a) * (t - a) <= h * h
  {
    var u := t - a;
    if 0.0 <= u {
      assert u * u <= h * u <= h * h;
    } else {
      assert u * u <= -h * u <= h * h;
    }
  }

  /** A point of the line in the closed ball makes the ray test hit with an interval reaching its parameter. */
  lemma MeetingPointInside(lm: GenericMath.Libm, s: Sphere, start: Vector3.Vector3f, n: Vector3.Vector3f, t: real, len: real)
    requires GenericMath.SqrtIsExact(lm)
    requires 0.0 <= t <= len
    requires (t - AlongRay(s, start, n)) * (t - AlongRay(s, start, n)) + PerpSquared(s, start, n) <= Radius(s) * Radius(s)
    ensures IntersectRay(lm, s, start, n).Hit?
    ensures IntersectRay(lm, s, start, n).point1 <= len && 0.0 <= IntersectRay(lm, s, start, n).point2
  {
    var u := t - AlongRay(s, start, n);
    assert 0.0 <= u * u;
    HalfChordSquared(lm, s, start, n);
    HitParameters(lm, s, start, n);
    ChordCovers(u, HalfChord(lm, s, start, n), PerpSquared(s, start, n), Radius(s) * Radius(s));
  }

  /** u^2 + perp <= r2 with h^2 = r2 - perp and h >= 0 gives -h <= u <= h. */
  lemma ChordCovers(u: real, h: real, perp: real, r2: real)
    requires u * u + perp <= r2 && h * h == r2 - perp && 0.0 <= h
    ensures -h <= u <= h
  {
    OffsetWithin(u, h);
  }

  /** u^2 <= h^2 with h >= 0 gives -h <= u <= h. */
  lemma OffsetWithin(u: real, h: real)
    requires 0.0 <= h && u * u <= h * h
    ensures -h <= u <= h
  {
    if h < u {
      SquareBelow(h, u);
      assert false;
    } else if u < -h {
      SquareBelow(h, -u);
      assert false;
    }
  }
}
