/**
 * Two segments on which AABB::intersectLine disagrees with the geometry:
 * it compares the squared entry parameter with the squared length, so a box
 * lying wholly behind start is reported, and a segment starting inside a
 * box whose far side lies further behind than the segment is long is not.
 * Both segments run from the origin to (2, 2, 1), of length 3.
 */
module BoxLineTests {
  import GenericMath
  import opened GenericVecmath
  import Vector3
  import opened Boxes
  import SphereRayTests

  /** The segment's endpoints. */
  predicate Diagonal(start: Vector3.Vector3f, end: Vector3.Vector3f)
  {
    start.vec.x == 0.0 && start.vec.y == 0.0 && start.vec.z == 0.0 &&
    end.vec.x == 2.0 && end.vec.y == 2.0 && end.vec.z == 1.0
  }

  /** From the origin to (2, 2, 1): length 3 and direction (2/3, 2/3, 1/3). */
  lemma DiagonalDirection(lm: GenericMath.Libm, start: Vector3.Vector3f, end: Vector3.Vector3f)
    requires GenericMath.SqrtIsExact(lm) && Diagonal(start, end)
    ensures Vector3.LengthSquared(Vector3.Minus(end, start)) == 9.0
    ensures lm.sqrt(Vector3.LengthSquared(Vector3.Minus(end, start))) == 3.0
    ensures LineDirection(lm, start, end).vec.x == 2.0 / 3.0 && LineDirection(lm, start, end).vec.y == 2.0 / 3.0
    ensures LineDirection(lm, start, end).vec.z == 1.0 / 3.0
    ensures LineDefined(lm, start, end)
  {
    var d := Vector3.Minus(end, start);
    assert Vector3.LengthSquared(d) == 9.0;
    SphereRayTests.SqrtOf(lm, 3.0, 9.0);
    var n := LineDirection(lm, start, end);
    assert Lane(n.vec, 0) * 3.0 == 2.0 && Lane(n.vec, 1) * 3.0 == 2.0 && Lane(n.vec, 2) * 3.0 == 1.0;
  }

  /** The slabs of a box along (2/3, 2/3, 1/3) from the origin: entry at -1.5, exit at -0.75. */
  lemma BehindCrossings(a: AABB, start: Vector3.Vector3f, n: Vector3.Vector3f)
    requires start.vec.x == 0.0 && start.vec.y == 0.0 && start.vec.z == 0.0
    requires n.vec.x == 2.0 / 3.0 && n.vec.y == 2.0 / 3.0 && n.vec.z == 1.0 / 3.0
    requires a.minExtents.vec.x == -1.0 && a.minExtents.vec.y == -1.0 && a.minExtents.vec.z == -1.0
    requires a.maxExtents.vec.x == -0.5 && a.maxExtents.vec.y == -0.5 && a.maxExtents.vec.z == -0.25
    ensures RayDefined(n)
    ensures RayEntry(a, start, n) == -1.5 && RayExit(a, start, n) == -0.75
  {
    Coords(n); Coords(start); Coords(a.minExtents); Coords(a.maxExtents);
    assert SlabEntry(a, start, n, 0) == -1.5 && SlabExit(a, start, n, 0) == -0.75;
    assert SlabEntry(a, start, n, 1) == -1.5 && SlabExit(a, start, n, 1) == -0.75;
    assert SlabEntry(a, start, n, 2) == -3.0 && SlabExit(a, start, n, 2) == -0.75;
  }

  /**
   * The box [-1, -0.5] x [-1, -0.5] x [-1, -0.25] lies behind the origin:
   * intersectLine's condition holds on it, yet no point of the segment is in
   * the box and the intended test rejects it.
   */
  lemma BoxBehindStartCounts(lm: GenericMath.Libm, a: AABB, start: Vector3.Vector3f, end: Vector3.Vector3f)
    requires GenericMath.SqrtIsExact(lm) && Diagonal(start, end)
    requires a.minExtents.vec.x == -1.0 && a.minExtents.vec.y == -1.0 && a.minExtents.vec.z == -1.0
    requires a.maxExtents.vec.x == -0.5 && a.maxExtents.vec.y == -0.5 && a.maxExtents.vec.z == -0.25
    ensures LineDefined(lm, start, end) && Ordered(a)
    ensures RayEntry(a, start, LineDirection(lm, start, end)) <= RayExit(a, start, LineDirection(lm, start, end))
    ensures WithinLength(RayEntry(a, start, LineDirection(lm, start, end)), Vector3.LengthSquared(Vector3.Minus(end, start)))
    ensures !SegmentMeetsBox(a, start, LineDirection(lm, start, end), lm.sqrt(Vector3.LengthSquared(Vector3.Minus(end, start))))
    ensures !IntersectLineIntended(lm, a, start, end)
  {
    DiagonalDirection(lm, start, end);
    BehindCrossings(a, start, LineDirection(lm, start, end));
    Coords(a.minExtents); Coords(a.maxExtents);
    IntersectLineIntendedMeetsBox(lm, a, start, end);
  }

  /** The slabs of a box along (2/3, 2/3, 1/3) from the origin: entry at -15, exit at 1.5. */
  lemma AroundCrossings(a: AABB, start: Vector3.Vector3f, n: Vector3.Vector3f)
    requires start.vec.x == 0.0 && start.vec.y == 0.0 && start.vec.z == 0.0
    requires n.vec.x == 2.0 / 3.0 && n.vec.y == 2.0 / 3.0 && n.vec.z == 1.0 / 3.0
    requires a.minExtents.vec.x == -10.0 && a.minExtents.vec.y == -10.0 && a.minExtents.vec.z == -10.0
    requires a.maxExtents.vec.x == 1.0 && a.maxExtents.vec.y == 1.0 && a.maxExtents.vec.z == 1.0
    ensures RayDefined(n)
    ensures RayEntry(a, start, n) == -15.0 && RayExit(a, start, n) == 1.5
  {
    Coords(n); Coords(start); Coords(a.minExtents); Coords(a.maxExtents);
    assert SlabEntry(a, start, n, 0) == -15.0 && SlabExit(a, start, n, 0) == 1.5;
    assert SlabEntry(a, start, n, 1) == -15.0 && SlabExit(a, start, n, 1) == 1.5;
    assert SlabEntry(a, start, n, 2) == -30.0 && SlabExit(a, start, n, 2) == 3.0;
  }

  /**
   * The box [-10, 1]^3 holds the origin, where the segment starts, yet
   * intersectLine's condition fails on it: the entry -15 squared is not
   * below 9.  The intended test accepts it.
   */
  lemma StartInsideBoxMissed(lm: GenericMath.Libm, a: AABB, start: Vector3.Vector3f, end: Vector3.Vector3f)
    requires GenericMath.SqrtIsExact(lm) && Diagonal(start, end)
    requires a.minExtents.vec.x == -10.0 && a.minExtents.vec.y == -10.0 && a.minExtents.vec.z == -10.0
    requires a.maxExtents.vec.x == 1.0 && a.maxExtents.vec.y == 1.0 && a.maxExtents.vec.z == 1.0
    ensures LineDefined(lm, start, end) && Ordered(a)
    ensures !WithinLength(RayEntry(a, start, LineDirection(lm, start, end)), Vector3.LengthSquared(Vector3.Minus(end, start)))
    ensures SegmentMeetsBox(a, start, LineDirection(lm, start, end), lm.sqrt(Vector3.LengthSquared(Vector3.Minus(end, start))))
    ensures IntersectLineIntended(lm, a, start, end)
  {
    DiagonalDirection(lm, start, end);
    AroundCrossings(a, start, LineDirection(lm, start, end));
    Coords(a.minExtents); Coords(a.maxExtents);
    IntersectLineIntendedMeetsBox(lm, a, start, end);
  }
}
