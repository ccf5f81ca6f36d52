/**
 * AABB: an axis-aligned box stored as its two corners, extents[0] (the
 * minimum) and extents[1] (the maximum).  The intersection and containment
 * tests are strict on every axis, so boxes that only touch do not
 * intersect and points on the boundary are not contained.
 */
module Boxes {
  import GenericMath
  import opened GenericVecmath
  import Vector3
  import Matrices

  datatype AABB = AABB(minExtents: Vector3.Vector3f, maxExtents: Vector3.Vector3f)

  /** Coordinate i (0, 1 or 2) of a point. */
  function C(p: Vector3.Vector3f, i: nat): real
    requires i < 3
  {
    Vector3.Get(p, i)
  }

  /** The closed box: min <= p <= max on x, y and z. */
  predicate Encloses(a: AABB, p: Vector3.Vector3f)
  {
    forall i | 0 <= i < 3 :: C(a.minExtents, i) <= C(p, i) <= C(a.maxExtents, i)
  }

  /** The open box: min < p < max on x, y and z. */
  predicate StrictlyInside(a: AABB, p: Vector3.Vector3f)
  {
    forall i | 0 <= i < 3 :: C(a.minExtents, i) < C(p, i) < C(a.maxExtents, i)
  }

  /** The minimum corner is nowhere above the maximum corner. */
  predicate Ordered(a: AABB)
  {
    forall i | 0 <= i < 3 :: C(a.minExtents, i) <= C(a.maxExtents, i)
  }

  /** The box has a non-empty interior. */
  predicate NonEmpty(a: AABB)
  {
    forall i | 0 <= i < 3 :: C(a.minExtents, i) < C(a.maxExtents, i)
  }

  lemma Coords(p: Vector3.Vector3f)
    ensures C(p, 0) == p.vec.x && C(p, 1) == p.vec.y && C(p, 2) == p.vec.z
  {
  }

  // ---------------------------------------------------------------------
  // Tests
  // ---------------------------------------------------------------------

  /** intersects(other): (min >= other.max | max <= other.min) is zero on x, y and z. */
  function Intersects(a: AABB, other: AABB): (r: bool)
    ensures r <==> forall i | 0 <= i < 3 ::
      C(a.minExtents, i) < C(other.maxExtents, i) && C(other.minExtents, i) < C(a.maxExtents, i)
  {
    Coords(a.minExtents); Coords(a.maxExtents); Coords(other.minExtents); Coords(other.maxExtents);
    IsZero3f(Or(Ge(a.minExtents.vec, other.maxExtents.vec), Le(a.maxExtents.vec, other.minExtents.vec)))
  }

  /** The test is symmetric, and boxes that touch on one axis do not intersect. */
  lemma TouchingBoxesDoNotIntersect(a: AABB, b: AABB, i: nat)
    requires i < 3 && C(a.maxExtents, i) == C(b.minExtents, i)
    ensures !Intersects(a, b) && !Intersects(b, a)
  {
  }

  /** Two boxes with interiors intersect exactly when their overlap has an interior. */
  lemma IntersectsIffOverlapNonEmpty(a: AABB, b: AABB)
    requires NonEmpty(a) && NonEmpty(b)
    ensures Intersects(a, b) <==> NonEmpty(Overlap(a, b))
  {
    var o := Overlap(a, b);
    forall i | 0 <= i < 3
      ensures C(o.minExtents, i) < C(o.maxExtents, i) <==>
        C(a.minExtents, i) < C(b.maxExtents, i) && C(b.minExtents, i) < C(a.maxExtents, i)
    {
      OverlapCoords(a, b, i);
    }
  }

  /** contains(point): (p <= min | p >= max) is zero on x, y and z. */
  function ContainsPoint(a: AABB, point: Vector3.Vector3f): (r: bool)
    ensures r <==> StrictlyInside(a, point)
  {
    Coords(a.minExtents); Coords(a.maxExtents); Coords(point);
    IsZero3f(Or(Le(point.vec, a.minExtents.vec), Ge(point.vec, a.maxExtents.vec)))
  }

  /** contains(other): both corners of other strictly inside. */
  function ContainsBox(a: AABB, other: AABB): (r: bool)
    ensures r <==> StrictlyInside(a, other.minExtents) && StrictlyInside(a, other.maxExtents)
  {
    Coords(a.minExtents); Coords(a.maxExtents); Coords(other.minExtents); Coords(other.maxExtents);
    var lo := other.minExtents.vec;
    var hi := other.maxExtents.vec;
    IsZero3f(Or(Or(Or(Le(lo, a.minExtents.vec), Ge(lo, a.maxExtents.vec)),
      Le(hi, a.minExtents.vec)), Ge(hi, a.maxExtents.vec)))
  }

  /** A box never contains itself, and never contains one of its own corners. */
  lemma NeverContainsItself(a: AABB)
    ensures !ContainsBox(a, a)
    ensures !ContainsPoint(a, a.minExtents) && !ContainsPoint(a, a.maxExtents)
  {
    assert !(C(a.minExtents, 0) < C(a.minExtents, 0));
    assert !(C(a.maxExtents, 0) < C(a.maxExtents, 0));
  }

  /** Every point of a contained box, boundary included, is strictly inside the container. */
  lemma ContainedBoxPoints(a: AABB, other: AABB, p: Vector3.Vector3f)
    requires ContainsBox(a, other) && Encloses(other, p)
    ensures ContainsPoint(a, p)
  {
    forall i | 0 <= i < 3
      ensures C(a.minExtents, i) < C(p, i) < C(a.maxExtents, i)
    {
      assert C(a.minExtents, i) < C(other.minExtents, i) && C(other.maxExtents, i) < C(a.maxExtents, i);
    }
  }

  // ---------------------------------------------------------------------
  // Combining boxes
  // ---------------------------------------------------------------------

  /** overlap(other): the larger of the minimum corners and the smaller of the maximum corners. */
  function Overlap(a: AABB, other: AABB): AABB
  {
    AABB(Vector3.MaxVec(a.minExtents, other.minExtents), Vector3.MinVec(a.maxExtents, other.maxExtents))
  }

  lemma OverlapCoords(a: AABB, b: AABB, i: nat)
    requires i < 3
    ensures C(Overlap(a, b).minExtents, i) == GenericMath.Max(C(a.minExtents, i), C(b.minExtents, i))
    ensures C(Overlap(a, b).maxExtents, i) == GenericMath.Min(C(a.maxExtents, i), C(b.maxExtents, i))
  {
  }

  /** The overlap holds exactly the points both boxes hold, open or closed. */
  lemma OverlapIsIntersection(a: AABB, b: AABB, p: Vector3.Vector3f)
    ensures ContainsPoint(Overlap(a, b), p) <==> ContainsPoint(a, p) && ContainsPoint(b, p)
    ensures Encloses(Overlap(a, b), p) <==> Encloses(a, p) && Encloses(b, p)
  {
    forall i | 0 <= i < 3
      ensures C(Overlap(a, b).minExtents, i) == GenericMath.Max(C(a.minExtents, i), C(b.minExtents, i))
      ensures C(Overlap(a, b).maxExtents, i) == GenericMath.Min(C(a.maxExtents, i), C(b.maxExtents, i))
    {
      OverlapCoords(a, b, i);
    }
  }

  /** addPoint(p): the minimum corner lowered and the maximum corner raised to p. */
  function AddPoint(a: AABB, other: Vector3.Vector3f): AABB
  {
    AABB(Vector3.MinVec(a.minExtents, other), Vector3.MaxVec(a.maxExtents, other))
  }

  /** addAABB(other): the corner-wise min of the minima and max of the maxima. */
  function AddBox(a: AABB, other: AABB): AABB
  {
    AABB(Vector3.MinVec(a.minExtents, other.minExtents), Vector3.MaxVec(a.maxExtents, other.maxExtents))
  }

  /** The grown box holds the new point and every point the old box held. */
  lemma AddPointEncloses(a: AABB, p: Vector3.Vector3f, q: Vector3.Vector3f)
    ensures Encloses(AddPoint(a, p), p)
    ensures Encloses(a, q) ==> Encloses(AddPoint(a, p), q)
  {
    forall i | 0 <= i < 3
      ensures C(AddPoint(a, p).minExtents, i) == GenericMath.Min(C(a.minExtents, i), C(p, i))
      ensures C(AddPoint(a, p).maxExtents, i) == GenericMath.Max(C(a.maxExtents, i), C(p, i))
    {
    }
  }

  /** The union box holds every point either box held. */
  lemma AddBoxEncloses(a: AABB, b: AABB, q: Vector3.Vector3f)
    ensures Encloses(a, q) || Encloses(b, q) ==> Encloses(AddBox(a, b), q)
  {
    forall i | 0 <= i < 3
      ensures C(AddBox(a, b).minExtents, i) == GenericMath.Min(C(a.minExtents, i), C(b.minExtents, i))
      ensures C(AddBox(a, b).maxExtents, i) == GenericMath.Max(C(a.maxExtents, i), C(b.maxExtents, i))
    {
    }
  }

  // ---------------------------------------------------------------------
  // Center, extents and volume
  // ---------------------------------------------------------------------

  /** getCenter(): (max + min) * 0.5. */
  function Center(a: AABB): Vector3.Vector3f
  {
    Vector3.TimesScalar(Vector3.Plus(a.maxExtents, a.minExtents), 0.5)
  }

  /** getExtents(): the half-widths (max - min) * 0.5. */
  function Extents(a: AABB): Vector3.Vector3f
  {
    Vector3.TimesScalar(Vector3.Minus(a.maxExtents, a.minExtents), 0.5)
  }

  /** The lanes of Center and Extents. */
  lemma CenterLanes(a: AABB)
    ensures Center(a).vec == Vec4((a.maxExtents.vec.x + a.minExtents.vec.x) * 0.5,
      (a.maxExtents.vec.y + a.minExtents.vec.y) * 0.5, (a.maxExtents.vec.z + a.minExtents.vec.z) * 0.5,
      (a.maxExtents.vec.w + a.minExtents.vec.w) * 0.5)
    ensures Extents(a).vec == Vec4((a.maxExtents.vec.x - a.minExtents.vec.x) * 0.5,
      (a.maxExtents.vec.y - a.minExtents.vec.y) * 0.5, (a.maxExtents.vec.z - a.minExtents.vec.z) * 0.5,
      (a.maxExtents.vec.w - a.minExtents.vec.w) * 0.5)
  {
  }

  /**
   * getCenterAndExtents: extents = (max - min) * 0.5 and center = min +
   * extents, which is the same center as getCenter's (max + min) * 0.5.
   */
  function CenterAndExtents(a: AABB): (r: (Vector3.Vector3f, Vector3.Vector3f))
    ensures r.0 == Center(a) && r.1 == Extents(a)
  {
    CenterLanes(a);
    var extents := Vector3.TimesScalar(Vector3.Minus(a.maxExtents, a.minExtents), 0.5);
    (Vector3.Plus(a.minExtents, extents), extents)
  }

  /** getVolume(): the product of the three side lengths, that is 8 times the product of the half-widths. */
  function Volume(a: AABB): (r: real)
    ensures r == 8.0 * (C(Extents(a), 0) * C(Extents(a), 1) * C(Extents(a), 2))
  {
    CenterLanes(a);
    var lengths := Vector3.Minus(a.maxExtents, a.minExtents);
    Coords(lengths); Coords(Extents(a));
    C(lengths, 0) * C(lengths, 1) * C(lengths, 2)
  }

  // ---------------------------------------------------------------------
  // Moving and resizing
  // ---------------------------------------------------------------------

  /** translate(amt): both corners moved by amt. */
  function Translate(a: AABB, amt: Vector3.Vector3f): AABB
  {
    AABB(Vector3.Plus(a.minExtents, amt), Vector3.Plus(a.maxExtents, amt))
  }

  /** Translating moves the center by amt and keeps the extents. */
  lemma TranslateMovesCenter(a: AABB, amt: Vector3.Vector3f)
    ensures Center(Translate(a, amt)) == Vector3.Plus(Center(a), amt)
    ensures Extents(Translate(a, amt)) == Extents(a)
  {
    CenterLanes(a);
    CenterLanes(Translate(a, amt));
  }

  /** moveTo(destination): translated by destination - center. */
  function MoveTo(a: AABB, destination: Vector3.Vector3f): AABB
  {
    Translate(a, Vector3.Minus(destination, Center(a)))
  }

  /** After moveTo the center is the destination, on all four lanes, and the extents are kept. */
  lemma MoveToCenters(a: AABB, destination: Vector3.Vector3f)
    ensures Center(MoveTo(a, destination)) == destination
    ensures Extents(MoveTo(a, destination)) == Extents(a)
  {
    var d := Vector3.Minus(destination, Center(a));
    TranslateMovesCenter(a, d);
  }

  /** expand(amt): min - amt and max + amt. */
  function Expand(a: AABB, amt: Vector3.Vector3f): AABB
  {
    AABB(Vector3.Minus(a.minExtents, amt), Vector3.Plus(a.maxExtents, amt))
  }

  /** expand(distance) is expand(Vector3f(distance)). */
  function ExpandBy(a: AABB, distance: real): AABB
  {
    Expand(a, Vector3.Splat(distance))
  }

  /** Expanding keeps the center and adds amt to the extents. */
  lemma ExpandGrowsExtents(a: AABB, amt: Vector3.Vector3f)
    ensures Center(Expand(a, amt)) == Center(a)
    ensures Extents(Expand(a, amt)) == Vector3.Plus(Extents(a), amt)
  {
    CenterLanes(a);
    CenterLanes(Expand(a, amt));
  }

  /** scaleFromOrigin(amt): both corners multiplied lane-wise. */
  function ScaleFromOrigin(a: AABB, amt: Vector3.Vector3f): AABB
  {
    AABB(Vector3.Times(a.minExtents, amt), Vector3.Times(a.maxExtents, amt))
  }

  /** Scaling from the origin scales the center and the extents alike. */
  lemma ScaleFromOriginScales(a: AABB, amt: Vector3.Vector3f)
    ensures Center(ScaleFromOrigin(a, amt)) == Vector3.Times(Center(a), amt)
    ensures Extents(ScaleFromOrigin(a, amt)) == Vector3.Times(Extents(a), amt)
  {
    CenterLanes(a);
    CenterLanes(ScaleFromOrigin(a, amt));
    var lo, hi, s := a.minExtents.vec, a.maxExtents.vec, amt.vec;
    assert (hi.x * s.x + lo.x * s.x) * 0.5 == (hi.x + lo.x) * 0.5 * s.x;
    assert (hi.y * s.y + lo.y * s.y) * 0.5 == (hi.y + lo.y) * 0.5 * s.y;
    assert (hi.z * s.z + lo.z * s.z) * 0.5 == (hi.z + lo.z) * 0.5 * s.z;
    assert (hi.w * s.w + lo.w * s.w) * 0.5 == (hi.w + lo.w) * 0.5 * s.w;
    assert (hi.x * s.x - lo.x * s.x) * 0.5 == (hi.x - lo.x) * 0.5 * s.x;
    assert (hi.y * s.y - lo.y * s.y) * 0.5 == (hi.y - lo.y) * 0.5 * s.y;
    assert (hi.z * s.z - lo.z * s.z) * 0.5 == (hi.z - lo.z) * 0.5 * s.z;
    assert (hi.w * s.w - lo.w * s.w) * 0.5 == (hi.w - lo.w) * 0.5 * s.w;
  }

  /** scaleFromCenter(amt): center -/+ extents * amt. */
  function ScaleFromCenter(a: AABB, amt: Vector3.Vector3f): AABB
  {
    var (center, extents) := CenterAndExtents(a);
    var scaled := Vector3.Times(extents, amt);
    AABB(Vector3.Minus(center, scaled), Vector3.Plus(center, scaled))
  }

  /** Scaling from the center keeps the center and scales the extents. */
  lemma ScaleFromCenterScales(a: AABB, amt: Vector3.Vector3f)
    ensures Center(ScaleFromCenter(a, amt)) == Center(a)
    ensures Extents(ScaleFromCenter(a, amt)) == Vector3.Times(Extents(a), amt)
  {
    CenterLanes(ScaleFromCenter(a, amt));
  }

  // ---------------------------------------------------------------------
  // Comparisons
  // ---------------------------------------------------------------------

  /** operator==: both corners equal on x, y and z. */
  function Equal(a: AABB, other: AABB): (r: bool)
    ensures r <==> forall i | 0 <= i < 3 ::
      C(a.minExtents, i) == C(other.minExtents, i) && C(a.maxExtents, i) == C(other.maxExtents, i)
  {
    Coords(a.minExtents); Coords(a.maxExtents); Coords(other.minExtents); Coords(other.maxExtents);
    Vector3.Equal(a.minExtents, other.minExtents) && Vector3.Equal(a.maxExtents, other.maxExtents)
  }

  /** operator!=: both corners differ (each on some axis). */
  function NotEqual(a: AABB, other: AABB): (r: bool)
    ensures r <==> ((exists i | 0 <= i < 3 :: C(a.minExtents, i) != C(other.minExtents, i)) &&
      (exists i | 0 <= i < 3 :: C(a.maxExtents, i) != C(other.maxExtents, i)))
  {
    Coords(a.minExtents); Coords(a.maxExtents); Coords(other.minExtents); Coords(other.maxExtents);
    Vector3.NotEqual(a.minExtents, other.minExtents) && Vector3.NotEqual(a.maxExtents, other.maxExtents)
  }

  /** Boxes that share one corner are neither == nor !=. */
  lemma NotEqualIsNotNegation(a: AABB, b: AABB)
    requires a.minExtents == b.minExtents && C(a.maxExtents, 0) != C(b.maxExtents, 0)
    ensures !Equal(a, b) && !NotEqual(a, b)
  {
  }

  /** equals(other, margin): both corners within margin on x, y and z. */
  function ApproxEquals(a: AABB, other: AABB, errorMargin: real): (r: bool)
    ensures r <==> forall i | 0 <= i < 3 ::
      GenericMath.Abs(C(a.minExtents, i) - C(other.minExtents, i)) < errorMargin &&
      GenericMath.Abs(C(a.maxExtents, i) - C(other.maxExtents, i)) < errorMargin
  {
    Coords(a.minExtents); Coords(a.maxExtents); Coords(other.minExtents); Coords(other.maxExtents);
    Vector3.ApproxEquals(a.minExtents, other.minExtents, errorMargin) &&
    Vector3.ApproxEquals(a.maxExtents, other.maxExtents, errorMargin)
  }

  // ---------------------------------------------------------------------
  // Point-cloud constructors
  // ---------------------------------------------------------------------

  /** The box the constructor's loop builds: grown point by point, in order. */
  function Bounds(points: seq<Vector3.Vector3f>): AABB
    requires |points| > 0
  {
    if |points| == 1 then AABB(points[0], points[0])
    else AddPoint(Bounds(points[..|points| - 1]), points[|points| - 1])
  }

  /** No points give the all-zero box; otherwise the bounds of the points. */
  function PointCloudBounds(points: seq<Vector3.Vector3f>): AABB
  {
    if |points| == 0 then AABB(Vector3.Zero(), Vector3.Zero()) else Bounds(points)
  }

  /** Every point lies in the closed bounding box. */
  lemma {:induction false} BoundsEnclose(points: seq<Vector3.Vector3f>, j: nat)
    requires j < |points|
    ensures Encloses(Bounds(points), points[j])
  {
    if |points| > 1 {
      var init := points[..|points| - 1];
      var last := points[|points| - 1];
      AddPointEncloses(Bounds(init), last, points[j]);
      if j < |points| - 1 {
        BoundsEnclose(init, j);
        assert init[j] == points[j];
      }
    }
  }

  /** Each coordinate of each corner is the coordinate of some input point. */
  lemma {:induction false} BoundsAttained(points: seq<Vector3.Vector3f>, i: nat)
    requires |points| > 0 && i < 3
    ensures exists j | 0 <= j < |points| :: C(Bounds(points).minExtents, i) == C(points[j], i)
    ensures exists j | 0 <= j < |points| :: C(Bounds(points).maxExtents, i) == C(points[j], i)
  {
    if |points| == 1 {
      assert C(Bounds(points).minExtents, i) == C(points[0], i);
      assert C(Bounds(points).maxExtents, i) == C(points[0], i);
    } else {
      var init := points[..|points| - 1];
      var last := |points| - 1;
      BoundsAttained(init, i);
      var b := Bounds(init);
      assert C(Bounds(points).minExtents, i) == GenericMath.Min(C(b.minExtents, i), C(points[last], i));
      assert C(Bounds(points).maxExtents, i) == GenericMath.Max(C(b.maxExtents, i), C(points[last], i));
      var j0 :| 0 <= j0 < |init| && C(b.minExtents, i) == C(init[j0], i);
      var j1 :| 0 <= j1 < |init| && C(b.maxExtents, i) == C(init[j1], i);
      assert init[j0] == points[j0] && init[j1] == points[j1];
    }
  }

  /** AABB(Vector3f* points, amt): the first point, then min/max with each further point. */
  method FromPoints(points: array<Vector3.Vector3f>, amt: nat) returns (r: AABB)
    requires amt <= points.Length
    ensures r == PointCloudBounds(points[..amt])
  {
    if amt == 0 {
      return AABB(Vector3.Make(0.0, 0.0, 0.0), Vector3.Make(0.0, 0.0, 0.0));
    }
    var lo := points[0];
    var hi := points[0];
    assert points[..1] == [points[0]];
    for i := 1 to amt
      invariant AABB(lo, hi) == Bounds(points[..i])
    {
      lo := Vector3.MinVec(lo, points[i]);
      hi := Vector3.MaxVec(hi, points[i]);
      assert points[..i + 1][..i] == points[..i];
    }
    assert points[..amt] == points[..amt];
    r := AABB(lo, hi);
  }

  /**
   * Where the float constructor reads point i: point 0 at 0, point 1 at 3,
   * and each later point stride + 3 after the one before.
   */
  function StrideOffset(i: nat, stride: nat): nat
  {
    if i == 0 then 0 else 3 + (i - 1) * (stride + 3)
  }

  /** Point 1 is read at offset 3 whatever the stride; from then on points are stride + 3 apart. */
  lemma StrideOffsets(i: nat, stride: nat)
    ensures StrideOffset(1, stride) == 3
    ensures 1 <= i ==> StrideOffset(i + 1, stride) == StrideOffset(i, stride) + stride + 3
    ensures stride == 0 ==> StrideOffset(i, stride) == 3 * i
  {
  }

  /** The floats hold every point the constructor reads. */
  predicate StridedInRange(floats: seq<real>, amt: nat, stride: nat)
  {
    forall i | 0 <= i < amt :: StrideOffset(i, stride) + 2 < |floats|
  }

  /** The points the float constructor reads. */
  function StridedPoints(floats: seq<real>, amt: nat, stride: nat): (r: seq<Vector3.Vector3f>)
    requires StridedInRange(floats, amt, stride)
    ensures |r| == amt
  {
    seq(amt, i requires 0 <= i < amt =>
      var k := StrideOffset(i, stride);
      Vector3.Make(floats[k], floats[k + 1], floats[k + 2]))
  }

  /** AABB(float* points, amt, stride): as FromPoints, on the points read at StrideOffset. */
  method FromFloats(points: array<real>, amt: nat, stride: nat) returns (r: AABB)
    requires StridedInRange(points[..], amt, stride)
    ensures r == PointCloudBounds(StridedPoints(points[..], amt, stride))
  {
    ghost var pts := StridedPoints(points[..], amt, stride);
    if amt == 0 {
      return AABB(Vector3.Make(0.0, 0.0, 0.0), Vector3.Make(0.0, 0.0, 0.0));
    }
    assert StrideOffset(0, stride) + 2 < points.Length;
    var initialPoint := Vector3.Make(points[0], points[1], points[2]);
    var lo := initialPoint;
    var hi := initialPoint;
    var index := 3;
    var step := stride + 3;
    assert pts[..1] == [initialPoint];
    for i := 1 to amt
      invariant index == StrideOffset(i, stride)
      invariant AABB(lo, hi) == Bounds(pts[..i])
    {
      assert StrideOffset(i, stride) + 2 < points.Length;
      var point := Vector3.Make(points[index], points[index + 1], points[index + 2]);
      assert point == pts[i];
      lo := Vector3.MinVec(lo, point);
      hi := Vector3.MaxVec(hi, point);
      index := index + step;
      assert pts[..i + 1][..i] == pts[..i];
    }
    assert pts[..amt] == pts;
    r := AABB(lo, hi);
  }

  // ---------------------------------------------------------------------
  // Transformation
  // ---------------------------------------------------------------------

  /**
   * transform(M) as written: the new center is M (c, 1) and the new
   * half-extents are M (|e|, 0) with M itself, because the loop meant to
   * take |M| assigns into the copies operator[] returns.
   */
  function TransformedBox(a: AABB, m: Mat4): AABB
  {
    var center := Transform(Vector3.ToVectorW(Center(a), 1.0), m);
    var extents := Transform(AbsV(Vector3.ToVectorW(Extents(a), 0.0)), m);
    AABB(Vector3.Vector3f(Sub(center, extents)), Vector3.Vector3f(Add(center, extents)))
  }

  /** transform(M): the loop over absMatrix's rows leaves absMatrix equal to M. */
  method TransformBox(a: AABB, transform: Matrices.Matrix) returns (r: AABB)
    requires transform.Valid()
    ensures r == TransformedBox(a, transform.Rows())
  {
    var center := Vector3.ToVectorW(Center(a), 1.0);
    var extents := Vector3.ToVectorW(Extents(a), 0.0);
    var absExtents := AbsV(extents);
    var absMatrix := transform.Rows();
    for i := 0 to 4
      invariant absMatrix == transform.Rows()
    {
      var row := absMatrix[i];
      row := AbsV(row);
    }
    var newCenter := Transform(center, transform.Rows());
    var newExtents := Transform(absExtents, absMatrix);
    r := AABB(Vector3.Vector3f(Sub(newCenter, newExtents)), Vector3.Vector3f(Add(newCenter, newExtents)));
  }

  /**
   * When M mirrors x (row 0 is (-1, 0, 0, 0)) a box with an interior comes
   * out with min.x > max.x, so it holds no point at all, not even the images
   * of its own points.
   */
  lemma TransformedBoxInverts(a: AABB, m: Mat4, p: Vector3.Vector3f)
    requires NonEmpty(a)
    requires m[0].x == -1.0 && m[0].y == 0.0 && m[0].z == 0.0 && m[0].w == 0.0
    ensures C(TransformedBox(a, m).maxExtents, 0) < C(TransformedBox(a, m).minExtents, 0)
    ensures !Encloses(TransformedBox(a, m), p)
  {
    var b := TransformedBox(a, m);
    var c := Vector3.ToVectorW(Center(a), 1.0);
    var e := AbsV(Vector3.ToVectorW(Extents(a), 0.0));
    CenterLanes(a);
    Coords(a.minExtents); Coords(a.maxExtents);
    assert 0.0 < C(a.maxExtents, 0) - C(a.minExtents, 0);
    assert Lane(Transform(c, m), 0) == Dot4Value(c, m[0]);
    assert Lane(Transform(e, m), 0) == Dot4Value(e, m[0]);
    MirroredLane(c, e, m[0]);
    Coords(b.minExtents); Coords(b.maxExtents);
  }

  /** Row (-1, 0, 0, 0) gives -c.x for the center and -e.x for the extents. */
  lemma MirroredLane(c: Vec4, e: Vec4, u: Vec4)
    requires u.x == -1.0 && u.y == 0.0 && u.z == 0.0 && u.w == 0.0
    ensures Dot4Value(c, u) == -c.x && Dot4Value(e, u) == -e.x
  {
  }

  /** |M|: every entry replaced by its absolute value. */
  function AbsRows(m: Mat4): Mat4
  {
    [AbsV(m[0]), AbsV(m[1]), AbsV(m[2]), AbsV(m[3])]
  }

  /** transform(M) as intended: half-extents |M| |e|. */
  function TransformedBoxIntended(a: AABB, m: Mat4): AABB
  {
    var center := Transform(Vector3.ToVectorW(Center(a), 1.0), m);
    var extents := Transform(AbsV(Vector3.ToVectorW(Extents(a), 0.0)), AbsRows(m));
    AABB(Vector3.Vector3f(Sub(center, extents)), Vector3.Vector3f(Add(center, extents)))
  }

  /** The intended box holds the image of every point of the original box. */
  lemma TransformedBoxEncloses(a: AABB, m: Mat4, p: Vector3.Vector3f)
    requires Encloses(a, p)
    ensures Encloses(TransformedBoxIntended(a, m), Vector3.Vector3f(Transform(Vector3.ToVectorW(p, 1.0), m)))
  {
    var c := Vector3.ToVectorW(Center(a), 1.0);
    var e := AbsV(Vector3.ToVectorW(Extents(a), 0.0));
    var q := Vector3.ToVectorW(p, 1.0);
    CenterLanes(a);
    Coords(p); Coords(a.minExtents); Coords(a.maxExtents);
    HalfWidth(a.minExtents.vec.x, p.vec.x, a.maxExtents.vec.x, c.x, e.x);
    HalfWidth(a.minExtents.vec.y, p.vec.y, a.maxExtents.vec.y, c.y, e.y);
    HalfWidth(a.minExtents.vec.z, p.vec.z, a.maxExtents.vec.z, c.z, e.z);
    var b := TransformedBoxIntended(a, m);
    var image := Vector3.Vector3f(Transform(q, m));
    forall i | 0 <= i < 3
      ensures C(b.minExtents, i) <= C(image, i) <= C(b.maxExtents, i)
    {
      RowBound(m[i], q, c, e);
      assert Lane(Transform(q, m), i) == Dot4Value(q, m[i]);
      assert Lane(Transform(c, m), i) == Dot4Value(c, m[i]);
      assert Lane(Transform(e, AbsRows(m)), i) == Dot4Value(e, AbsV(m[i]));
      assert C(b.minExtents, i) == Dot4Value(c, m[i]) - Dot4Value(e, AbsV(m[i]));
      assert C(b.maxExtents, i) == Dot4Value(c, m[i]) + Dot4Value(e, AbsV(m[i]));
    }
  }

  /** A coordinate in [lo, hi] is within |hi - lo| / 2 of the midpoint. */
  lemma HalfWidth(lo: real, p: real, hi: real, c: real, e: real)
    requires lo <= p <= hi
    requires c == (hi + lo) * 0.5 && e == GenericMath.Abs((hi - lo) * 0.5)
    ensures -e <= p - c <= e
  {
  }

  /** One row of M moves a point within |row| . e of the center's image. */
  lemma RowBound(u: Vec4, q: Vec4, c: Vec4, e: Vec4)
    requires q.w == 1.0 && c.w == 1.0 && e.w == 0.0
    requires -e.x <= q.x - c.x <= e.x && -e.y <= q.y - c.y <= e.y && -e.z <= q.z - c.z <= e.z
    ensures Dot4Value(c, u) - Dot4Value(e, AbsV(u)) <= Dot4Value(q, u) <= Dot4Value(c, u) + Dot4Value(e, AbsV(u))
  {
    var a := AbsV(u);
    TermsBounded(u, a, q, c, e);
    RowSum(u, a, q, c, e);
  }

  /** The three terms of q . u - c . u, each bounded by |u_j| e_j. */
  predicate TermBounds(u: Vec4, a: Vec4, q: Vec4, c: Vec4, e: Vec4)
  {
    -(a.x * e.x) <= q.x * u.x - c.x * u.x <= a.x * e.x &&
    -(a.y * e.y) <= q.y * u.y - c.y * u.y <= a.y * e.y &&
    -(a.z * e.z) <= q.z * u.z - c.z * u.z <= a.z * e.z
  }

  lemma TermsBounded(u: Vec4, a: Vec4, q: Vec4, c: Vec4, e: Vec4)
    requires a == AbsV(u)
    requires -e.x <= q.x - c.x <= e.x && -e.y <= q.y - c.y <= e.y && -e.z <= q.z - c.z <= e.z
    ensures TermBounds(u, a, q, c, e)
  {
    LaneTerm(u.x, a.x, q.x, c.x, e.x);
    LaneTerm(u.y, a.y, q.y, c.y, e.y);
    LaneTerm(u.z, a.z, q.z, c.z, e.z);
  }

  lemma RowSum(u: Vec4, a: Vec4, q: Vec4, c: Vec4, e: Vec4)
    requires q.w == c.w && e.w == 0.0 && TermBounds(u, a, q, c, e)
    ensures Dot4Value(c, u) - Dot4Value(e, a) <= Dot4Value(q, u) <= Dot4Value(c, u) + Dot4Value(e, a)
  {
    DotDifference(u, q, c);
    AbsDot(e, a);
    SumBound(q.x * u.x - c.x * u.x, q.y * u.y - c.y * u.y, q.z * u.z - c.z * u.z,
      a.x * e.x, a.y * e.y, a.z * e.z, Dot4Value(q, u) - Dot4Value(c, u), Dot4Value(e, a));
  }

  /** e . a with e.w = 0, written with a's lanes first. */
  lemma AbsDot(e: Vec4, a: Vec4)
    requires e.w == 0.0
    ensures Dot4Value(e, a) == a.x * e.x + a.y * e.y + a.z * e.z
  {
  }

  /** The change in row . v between two points with equal lane 3. */
  lemma DotDifference(u: Vec4, q: Vec4, c: Vec4)
    requires q.w == c.w
    ensures Dot4Value(q, u) - Dot4Value(c, u) == (q.x * u.x - c.x * u.x) + (q.y * u.y - c.y * u.y) + (q.z * u.z - c.z * u.z)
  {
  }

  lemma SumBound(k0: real, k1: real, k2: real, b0: real, b1: real, b2: real, diff: real, bound: real)
    requires -b0 <= k0 <= b0 && -b1 <= k1 <= b1 && -b2 <= k2 <= b2
    requires diff == k0 + k1 + k2 && bound == b0 + b1 + b2
    ensures -bound <= diff <= bound
  {
  }

  /** One term of the difference: |q u - c u| <= |u| e when |q - c| <= e. */
  lemma LaneTerm(u: real, a: real, q: real, c: real, e: real)
    requires a == GenericMath.Abs(u) && -e <= q - c <= e
    ensures -(a * e) <= q * u - c * u <= a * e
  {
    ProductBound(u, a, q - c, e);
    assert q * u - c * u == u * (q - c);
  }

  /** |u d| <= |u| e when |d| <= e. */
  lemma ProductBound(u: real, a: real, d: real, e: real)
    requires a == GenericMath.Abs(u) && -e <= d <= e
    ensures -(a * e) <= u * d <= a * e
  {
    if u >= 0.0 {
      if d >= 0.0 { assert u * d <= u * e; } else { assert u * -d <= u * e; }
    } else {
      if d >= 0.0 { assert -u * d <= -u * e; } else { assert -u * -d <= -u * e; }
    }
  }


  // ---------------------------------------------------------------------
  // Rays and lines
  // ---------------------------------------------------------------------

  /** The slab test divides by x, y and z of the direction; the real model has no infinities. */
  predicate RayDefined(rayDir: Vector3.Vector3f)
  {
    rayDir.vec.x != 0.0 && rayDir.vec.y != 0.0 && rayDir.vec.z != 0.0
  }

  /** The parameters at which the ray crosses the two planes of axis i, nearer one first. */
  function SlabEntry(a: AABB, start: Vector3.Vector3f, rayDir: Vector3.Vector3f, i: nat): real
    requires i < 3 && RayDefined(rayDir)
  {
    Coords(rayDir);
    var r := GenericMath.Reciprocal(C(rayDir, i));
    GenericMath.Min((C(a.minExtents, i) - C(start, i)) * r, (C(a.maxExtents, i) - C(start, i)) * r)
  }

  function SlabExit(a: AABB, start: Vector3.Vector3f, rayDir: Vector3.Vector3f, i: nat): real
    requires i < 3 && RayDefined(rayDir)
  {
    Coords(rayDir);
    var r := GenericMath.Reciprocal(C(rayDir, i));
    GenericMath.Max((C(a.minExtents, i) - C(start, i)) * r, (C(a.maxExtents, i) - C(start, i)) * r)
  }

  /** The latest entry into a slab. */
  function RayEntry(a: AABB, start: Vector3.Vector3f, rayDir: Vector3.Vector3f): real
    requires RayDefined(rayDir)
  {
    GenericMath.Max(GenericMath.Max(SlabEntry(a, start, rayDir, 0), SlabEntry(a, start, rayDir, 1)),
      SlabEntry(a, start, rayDir, 2))
  }

  /** The earliest exit from a slab. */
  function RayExit(a: AABB, start: Vector3.Vector3f, rayDir: Vector3.Vector3f): real
    requires RayDefined(rayDir)
  {
    GenericMath.Min(GenericMath.Min(SlabExit(a, start, rayDir, 0), SlabExit(a, start, rayDir, 1)),
      SlabExit(a, start, rayDir, 2))
  }

  /**
   * intersectRay(start, rayDir, point1, point2): clips the x and y slabs,
   * then z, and gives up as soon as the interval is empty.  point1 and
   * point2 are written only when it returns true.
   */
  method IntersectRay(a: AABB, start: Vector3.Vector3f, rayDir: Vector3.Vector3f, point1In: real, point2In: real)
    returns (hit: bool, point1: real, point2: real)
    requires RayDefined(rayDir)
    ensures hit <==> RayEntry(a, start, rayDir) <= RayExit(a, start, rayDir)
    ensures hit ==> point1 == RayEntry(a, start, rayDir) && point2 == RayExit(a, start, rayDir)
    ensures !hit ==> point1 == point1In && point2 == point2In
  {
    point1, point2 := point1In, point2In;
    var mins, maxs := SlabCrossings(a, start, rayDir);
    if mins[0] > maxs[1] || mins[1] > maxs[0] {
      return false, point1, point2;
    }
    if mins[1] > mins[0] {
      mins := mins[0 := mins[1]];
    }
    if maxs[1] < maxs[0] {
      maxs := maxs[0 := maxs[1]];
    }
    if mins[0] > maxs[2] || mins[2] > maxs[0] {
      return false, point1, point2;
    }
    if mins[2] > mins[0] {
      mins := mins[0 := mins[2]];
    }
    if maxs[2] < maxs[0] {
      maxs := maxs[0 := maxs[2]];
    }
    point1 := mins[0];
    point2 := maxs[0];
    return true, point1, point2;
  }

  /**
   * The vector part of intersectRay: the reciprocal direction, the two
   * plane crossings per axis, and their lane-wise min and max, stored as
   * the four-float mins and maxs.
   */
  method SlabCrossings(a: AABB, start: Vector3.Vector3f, rayDir: Vector3.Vector3f)
    returns (mins: seq<real>, maxs: seq<real>)
    requires RayDefined(rayDir)
    ensures |mins| == 4 && |maxs| == 4
    ensures forall i | 0 <= i < 3 :: mins[i] == SlabEntry(a, start, rayDir, i) && maxs[i] == SlabExit(a, start, rayDir, i)
  {
    var startVec := start.vec;
    var dirVec := rayDir.vec;
    var minVec := a.minExtents.vec;
    var maxVec := a.maxExtents.vec;
    // lane 3 (1/0 in IEEE arithmetic) is never read
    var rdirVec := Vec4(GenericMath.Reciprocal(dirVec.x), GenericMath.Reciprocal(dirVec.y),
      GenericMath.Reciprocal(dirVec.z), 0.0);
    var intersects1 := Mul(Sub(minVec, startVec), rdirVec);
    var intersects2 := Mul(Sub(maxVec, startVec), rdirVec);
    var lo := MinV(intersects1, intersects2);
    var hi := MaxV(intersects1, intersects2);
    mins := [lo.x, lo.y, lo.z, lo.w];
    maxs := [hi.x, hi.y, hi.z, hi.w];
    Coords(rayDir); Coords(start); Coords(a.minExtents); Coords(a.maxExtents);
    SlabFromLanes(a, start, rayDir, 0, rdirVec.x, intersects1.x, intersects2.x);
    SlabFromLanes(a, start, rayDir, 1, rdirVec.y, intersects1.y, intersects2.y);
    SlabFromLanes(a, start, rayDir, 2, rdirVec.z, intersects1.z, intersects2.z);
  }

  /** The slab's entry and exit, from lane i of the reciprocal direction and of the two crossings. */
  lemma SlabFromLanes(a: AABB, start: Vector3.Vector3f, rayDir: Vector3.Vector3f, i: nat, r: real, c1: real, c2: real)
    requires RayDefined(rayDir) && i < 3
    requires r == GenericMath.Reciprocal(C(rayDir, i))
    requires c1 == (C(a.minExtents, i) - C(start, i)) * r && c2 == (C(a.maxExtents, i) - C(start, i)) * r
    ensures GenericMath.Min(c1, c2) == SlabEntry(a, start, rayDir, i)
    ensures GenericMath.Max(c1, c2) == SlabExit(a, start, rayDir, i)
  {
    var lo, hi := (C(a.minExtents, i) - C(start, i)) * r, (C(a.maxExtents, i) - C(start, i)) * r;
    assert SlabEntry(a, start, rayDir, i) == GenericMath.Min(lo, hi);
    assert SlabExit(a, start, rayDir, i) == GenericMath.Max(lo, hi);
  }

  /** start + t * rayDir. */
  function PointAt(start: Vector3.Vector3f, rayDir: Vector3.Vector3f, t: real): Vector3.Vector3f
  {
    Vector3.Plus(start, Vector3.TimesScalar(rayDir, t))
  }

  /**
   * For a box whose minimum corner is below its maximum corner, the point at
   * t lies in the closed box exactly when t is between the latest slab entry
   * and the earliest slab exit: what intersectRay reports is the part of the
   * ray inside the box.
   */
  lemma RayInsideBox(a: AABB, start: Vector3.Vector3f, rayDir: Vector3.Vector3f, t: real)
    requires RayDefined(rayDir) && Ordered(a)
    ensures Encloses(a, PointAt(start, rayDir, t)) <==>
      RayEntry(a, start, rayDir) <= t <= RayExit(a, start, rayDir)
  {
    var p := PointAt(start, rayDir, t);
    AxisInside(a, start, rayDir, t, 0);
    AxisInside(a, start, rayDir, t, 1);
    AxisInside(a, start, rayDir, t, 2);
    Between(SlabEntry(a, start, rayDir, 0), SlabEntry(a, start, rayDir, 1), SlabEntry(a, start, rayDir, 2),
      SlabExit(a, start, rayDir, 0), SlabExit(a, start, rayDir, 1), SlabExit(a, start, rayDir, 2), t);
  }

  /** t is below the smallest exit and above the largest entry iff it is inside every slab. */
  lemma Between(e0: real, e1: real, e2: real, x0: real, x1: real, x2: real, t: real)
    ensures GenericMath.Max(GenericMath.Max(e0, e1), e2) <= t <= GenericMath.Min(GenericMath.Min(x0, x1), x2) <==>
      e0 <= t <= x0 && e1 <= t <= x1 && e2 <= t <= x2
  {
  }

  /** Axis i of the point at t is inside the slab iff t is between that slab's entry and exit. */
  lemma AxisInside(a: AABB, start: Vector3.Vector3f, rayDir: Vector3.Vector3f, t: real, i: nat)
    requires RayDefined(rayDir) && Ordered(a) && i < 3
    ensures C(a.minExtents, i) <= C(PointAt(start, rayDir, t), i) <= C(a.maxExtents, i) <==>
      SlabEntry(a, start, rayDir, i) <= t <= SlabExit(a, start, rayDir, i)
  {
    var d := C(rayDir, i);
    var r := GenericMath.Reciprocal(d);
    var s := C(start, i);
    var lo, hi := C(a.minExtents, i), C(a.maxExtents, i);
    var u, w := (lo - s) * r, (hi - s) * r;
    PointAtCoord(start, rayDir, t, i);
    SlabFromLanes(a, start, rayDir, i, r, u, w);
    SlabAxisAt(lo, hi, C(PointAt(start, rayDir, t), i), s, d, t, r, u, w);
  }

  /** Coordinate i of start + t * rayDir. */
  lemma PointAtCoord(start: Vector3.Vector3f, rayDir: Vector3.Vector3f, t: real, i: nat)
    requires i < 3
    ensures C(PointAt(start, rayDir, t), i) == C(start, i) + C(rayDir, i) * t
  {
  }

  /** SlabAxis for the point p = s + d t, with r the reciprocal of d. */
  lemma SlabAxisAt(lo: real, hi: real, p: real, s: real, d: real, t: real, r: real, u: real, w: real)
    requires r * d == 1.0 && p == s + d * t && lo <= hi
    requires u == (lo - s) * r && w == (hi - s) * r
    ensures lo <= p <= hi <==> GenericMath.Min(u, w) <= t <= GenericMath.Max(u, w)
  {
    Cancel(d, t, r);
    SlabAxis(lo, hi, p, s, d * t, t, r, u, w);
  }

  /**
   * One axis, with k = d t and r = 1 / d: lo <= s + k <= hi iff t lies
   * between the two crossings (lo - s) r and (hi - s) r.
   */
  lemma SlabAxis(lo: real, hi: real, p: real, s: real, k: real, t: real, r: real, u: real, w: real)
    requires r != 0.0 && k * r == t && p == s + k && lo <= hi
    requires u == (lo - s) * r && w == (hi - s) * r
    ensures lo <= p <= hi <==> GenericMath.Min(u, w) <= t <= GenericMath.Max(u, w)
  {
    BoundSide(lo, p, s, k, t, r, u);
    BoundSide(hi, p, s, k, t, r, w);
    if r > 0.0 {
      ScaleKeepsOrder(lo - s, hi - s, r);
    } else {
      ScaleFlipsOrder(lo - s, hi - s, r);
    }
  }

  /** Which side of the bound x the point p = s + k lies on, read off the crossing u = (x - s) r. */
  lemma BoundSide(x: real, p: real, s: real, k: real, t: real, r: real, u: real)
    requires r != 0.0 && k * r == t && p == s + k && u == (x - s) * r
    ensures r > 0.0 ==> (x <= p <==> u <= t) && (p <= x <==> t <= u)
    ensures r < 0.0 ==> (x <= p <==> t <= u) && (p <= x <==> u <= t)
  {
    if r > 0.0 {
      ScaleKeepsOrder(x - s, k, r);
      ScaleKeepsOrder(k, x - s, r);
    } else {
      ScaleFlipsOrder(x - s, k, r);
      ScaleFlipsOrder(k, x - s, r);
    }
  }

  /** (d t) r == t when r is the reciprocal of d. */
  lemma Cancel(d: real, t: real, r: real)
    requires r * d == 1.0
    ensures r != 0.0 && d * t * r == t
  {
    assert d * t * r == (r * d) * t;
  }

  lemma ScaleKeepsOrder(x: real, y: real, r: real)
    requires r > 0.0
    ensures x <= y <==> x * r <= y * r
  {
    if x <= y { assert (y - x) * r >= 0.0; } else { assert (x - y) * r > 0.0; }
  }

  lemma ScaleFlipsOrder(x: real, y: real, r: real)
    requires r < 0.0
    ensures x <= y <==> y * r <= x * r
  {
    if x <= y { assert (y - x) * r <= 0.0; } else { assert (x - y) * r < 0.0; }
  }

  /** The normalized direction of end - start. */
  function LineDirection(lm: GenericMath.Libm, start: Vector3.Vector3f, end: Vector3.Vector3f): Vector3.Vector3f
    requires lm.sqrt(Vector3.LengthSquared(Vector3.Minus(end, start))) != 0.0
  {
    Vector3.Normalized(lm, Vector3.Minus(end, start), 0.00000001)
  }

  /** What intersectLine needs: a nonzero segment whose normalized direction has nonzero x, y and z. */
  predicate LineDefined(lm: GenericMath.Libm, start: Vector3.Vector3f, end: Vector3.Vector3f)
  {
    lm.sqrt(Vector3.LengthSquared(Vector3.Minus(end, start))) != 0.0 && RayDefined(LineDirection(lm, start, end))
  }

  /**
   * With a unit direction, the entry parameter is a distance along the
   * line: entry^2 < len2 puts the entry point closer than sqrt(len2) to start.
   */
  predicate WithinLength(entry: real, len2: real)
  {
    entry * entry < len2
  }

  /**
   * intersectLine(start, end): intersectRay along the normalized direction,
   * and the entry parameter squared below the squared length of end - start.
   */
  method IntersectLine(lm: GenericMath.Libm, a: AABB, start: Vector3.Vector3f, end: Vector3.Vector3f) returns (r: bool)
    requires LineDefined(lm, start, end)
    ensures r <==> (RayEntry(a, start, LineDirection(lm, start, end)) <= RayExit(a, start, LineDirection(lm, start, end)) &&
      WithinLength(RayEntry(a, start, LineDirection(lm, start, end)), Vector3.LengthSquared(Vector3.Minus(end, start))))
  {
    var dir := Vector3.Minus(end, start);
    r := ClipSegment(a, start, LineDirection(lm, start, end), Vector3.LengthSquared(dir));
  }

  /** The ray test along n, then the entry parameter squared against len2. */
  method ClipSegment(a: AABB, start: Vector3.Vector3f, n: Vector3.Vector3f, len2: real) returns (r: bool)
    requires RayDefined(n)
    ensures r <==> (RayEntry(a, start, n) <= RayExit(a, start, n) && WithinLength(RayEntry(a, start, n), len2))
  {
    var intersect, p1, p2 := IntersectRay(a, start, n, 0.0, 0.0);
    r := intersect && p1 * p1 < len2;
    LineResult(intersect, p1, RayEntry(a, start, n), RayExit(a, start, n), len2, r);
  }

  /** The line test holds iff the ray test does and the entry lies before end. */
  lemma LineResult(hit: bool, p1: real, entry: real, exit: real, len2: real, r: bool)
    requires hit <==> entry <= exit
    requires hit ==> p1 == entry
    requires r == (hit && p1 * p1 < len2)
    ensures r <==> entry <= exit && WithinLength(entry, len2)
  {
  }

  /**
   * What the line test establishes when it passes on an ordered box: the
   * point at the entry parameter lies in the box, at a signed distance along
   * n whose square is below len2.  That point may lie behind start.
   */
  lemma ClipSegmentMeetsLine(a: AABB, start: Vector3.Vector3f, n: Vector3.Vector3f, len2: real)
    requires RayDefined(n) && Ordered(a)
    requires RayEntry(a, start, n) <= RayExit(a, start, n) && WithinLength(RayEntry(a, start, n), len2)
    ensures Encloses(a, PointAt(start, n, RayEntry(a, start, n)))
    ensures RayEntry(a, start, n) * RayEntry(a, start, n) < len2
  {
    RayInsideBox(a, start, n, RayEntry(a, start, n));
  }

  /** Some point of the segment from start to start + n * len lies in the closed box. */
  ghost predicate SegmentMeetsBox(a: AABB, start: Vector3.Vector3f, n: Vector3.Vector3f, len: real)
  {
    exists t: real :: 0.0 <= t <= len && Encloses(a, PointAt(start, n, t))
  }

  /**
   * The segment test intersectLine evidently means: the interval
   * [entry, exit] of the ray test overlaps [0, len].
   */
  function ClipSegmentIntended(a: AABB, start: Vector3.Vector3f, n: Vector3.Vector3f, len: real): bool
    requires RayDefined(n)
  {
    RayEntry(a, start, n) <= RayExit(a, start, n) && RayEntry(a, start, n) <= len && 0.0 <= RayExit(a, start, n)
  }

  /** On an ordered box the intended test holds exactly when the segment meets the box. */
  lemma ClipSegmentIntendedMeetsBox(a: AABB, start: Vector3.Vector3f, n: Vector3.Vector3f, len: real)
    requires RayDefined(n) && Ordered(a) && 0.0 <= len
    ensures ClipSegmentIntended(a, start, n, len) <==> SegmentMeetsBox(a, start, n, len)
  {
    var entry, exit := RayEntry(a, start, n), RayExit(a, start, n);
    if ClipSegmentIntended(a, start, n, len) {
      var t := if entry < 0.0 then 0.0 else entry;
      RayInsideBox(a, start, n, t);
      assert 0.0 <= t <= len && Encloses(a, PointAt(start, n, t));
    }
    if SegmentMeetsBox(a, start, n, len) {
      var t :| 0.0 <= t <= len && Encloses(a, PointAt(start, n, t));
      RayInsideBox(a, start, n, t);
    }
  }

  /** intersectLine as intended: the ray test along the normalized direction against [0, |end - start|]. */
  function IntersectLineIntended(lm: GenericMath.Libm, a: AABB, start: Vector3.Vector3f, end: Vector3.Vector3f): bool
    requires LineDefined(lm, start, end)
  {
    ClipSegmentIntended(a, start, LineDirection(lm, start, end), lm.sqrt(Vector3.LengthSquared(Vector3.Minus(end, start))))
  }

  /**
   * With an exact square root, the intended line test on an ordered box holds
   * exactly when some point of the segment from start to end lies in the box.
   */
  lemma IntersectLineIntendedMeetsBox(lm: GenericMath.Libm, a: AABB, start: Vector3.Vector3f, end: Vector3.Vector3f)
    requires GenericMath.SqrtIsExact(lm) && LineDefined(lm, start, end) && Ordered(a)
    ensures IntersectLineIntended(lm, a, start, end) <==>
      SegmentMeetsBox(a, start, LineDirection(lm, start, end), lm.sqrt(Vector3.LengthSquared(Vector3.Minus(end, start))))
  {
    var len := lm.sqrt(Vector3.LengthSquared(Vector3.Minus(end, start)));
    assert 0.0 <= len;
    ClipSegmentIntendedMeetsBox(a, start, LineDirection(lm, start, end), len);
  }
}
