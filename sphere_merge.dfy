/**
 * Sphere::addSphere and Sphere::addPoint: a sphere holding two spheres.
 * If one already contains the other (in the sense of contains(Sphere) with
 * its default margin) that one is the result; otherwise the result spans
 * the two extreme points of the spheres along the axis through their
 * centers.
 */
module SphereMerge {
  import GenericMath
  import opened GenericVecmath
  import Vector3
  import Spheres

  /** other.data - data as a Vector3f: the offset between the centers (its lane 3 holds r_o - r). */
  function CenterOffset(s: Spheres.Sphere, other: Spheres.Sphere): Vector3.Vector3f
  {
    Vector3.Vector3f(Sub(other.data, s.data))
  }

  /** dir.length(): the distance between the two centers. */
  function CenterDistance(lm: GenericMath.Libm, s: Spheres.Sphere, other: Spheres.Sphere): real
  {
    Vector3.Length(lm, CenterOffset(s, other))
  }

  /** dir /= dist: the axis from the center of s towards the center of other. */
  function Axis(lm: GenericMath.Libm, s: Spheres.Sphere, other: Spheres.Sphere): Vector3.Vector3f
    requires CenterDistance(lm, s, other) != 0.0
  {
    Vector3.QuotientScalar(CenterOffset(s, other), CenterDistance(lm, s, other))
  }

  /** extreme1: the point of s farthest from other along the axis. */
  function Extreme1(lm: GenericMath.Libm, s: Spheres.Sphere, other: Spheres.Sphere): Vector3.Vector3f
    requires CenterDistance(lm, s, other) != 0.0
  {
    Vector3.Minus(Spheres.Center(s), Vector3.TimesScalar(Axis(lm, s, other), Spheres.Radius(s)))
  }

  /** extreme2: the point of other farthest from s along the axis. */
  function Extreme2(lm: GenericMath.Libm, s: Spheres.Sphere, other: Spheres.Sphere): Vector3.Vector3f
    requires CenterDistance(lm, s, other) != 0.0
  {
    Vector3.Plus(Spheres.Center(other), Vector3.TimesScalar(Axis(lm, s, other), Spheres.Radius(other)))
  }

  /** The general case: centered between the extremes, with radius (dist + r1 + r2) / 2. */
  function Merged(lm: GenericMath.Libm, s: Spheres.Sphere, other: Spheres.Sphere): Spheres.Sphere
    requires CenterDistance(lm, s, other) != 0.0
  {
    var center := Vector3.TimesScalar(Vector3.Plus(Extreme1(lm, s, other), Extreme2(lm, s, other)), 0.5);
    Spheres.FromCenterRadius(center, (CenterDistance(lm, s, other) + Spheres.Radius(s) + Spheres.Radius(other)) * 0.5)
  }

  /** What addSphere produces: a sphere, or NaN lanes after dividing by a zero distance. */
  datatype Added = Added(sphere: Spheres.Sphere) | NotANumber

  /** addSphere(other) as written, with contains' default margin. */
  function AddSphere(lm: GenericMath.Libm, s: Spheres.Sphere, other: Spheres.Sphere): Added
  {
    if Spheres.ContainsSphere(s, other, Spheres.DEFAULT_MARGIN) then Added(s)
    else if Spheres.Radius(s) == 0.0 || Spheres.ContainsSphere(other, s, Spheres.DEFAULT_MARGIN) then Added(other)
    else if CenterDistance(lm, s, other) == 0.0 then NotANumber
    else Added(Merged(lm, s, other))
  }

  /** addPoint(p) is addSphere of the zero-radius sphere at p. */
  function AddPoint(lm: GenericMath.Libm, s: Spheres.Sphere, p: Vector3.Vector3f): Added
  {
    AddSphere(lm, s, Spheres.FromCenterRadius(p, 0.0))
  }

  // ---------------------------------------------------------------------
  // The general case, coordinate by coordinate
  // ---------------------------------------------------------------------

  /** With an exact square root the axis is a unit vector and D u is the offset between the centers. */
  lemma AxisFacts(lm: GenericMath.Libm, s: Spheres.Sphere, other: Spheres.Sphere, u: Vec4, d: real)
    requires GenericMath.SqrtIsExact(lm)
    requires d == CenterDistance(lm, s, other) && d != 0.0 && u == Axis(lm, s, other).vec
    ensures 0.0 < d && d * d == Spheres.CenterDistSquared(s, other) && d * d == Spheres.CenterDistSquared(other, s)
    ensures AxisStep(u, s.data, other.data, d)
    ensures Dot3Value(u, u) == 1.0
  {
    var off := CenterOffset(s, other).vec;
    assert d * d == Dot3Value(off, off);
    Spheres.SquaredDifferenceSymmetric(other.data, s.data);
    assert Vector3.TimesScalar(Axis(lm, s, other), d) == CenterOffset(s, other);
    assert Lane(off, 0) == u.x * d && Lane(off, 1) == u.y * d && Lane(off, 2) == u.z * d;
    UnitFromScaled(u, off, d);
  }

  /** u d == off lane by lane with |off| = d > 0 makes u a unit vector. */
  lemma UnitFromScaled(u: Vec4, off: Vec4, d: real)
    requires 0.0 < d && d * d == Dot3Value(off, off)
    requires off.x == u.x * d && off.y == u.y * d && off.z == u.z * d
    ensures Dot3Value(u, u) == 1.0
  {
    var n := Dot3Value(u, u);
    var q := d * d;
    assert Dot3Value(off, off) == n * q;
    CancelSquare(n, q, d);
  }

  /** x q == q with q = d^2 and d > 0 gives x == 1. */
  lemma CancelSquare(x: real, q: real, d: real)
    requires q == d * d && x * q == q && 0.0 < d
    ensures x == 1.0
  {
    if 1.0 < x {
      Spheres.MulPos(x - 1.0, d);
      Spheres.MulPos((x - 1.0) * d, d);
    } else if x < 1.0 {
      Spheres.MulPos(1.0 - x, d);
      Spheres.MulPos((1.0 - x) * d, d);
    }
  }


  /**
   * The lanes of the merged sphere: its center is (c1 - u r1 + c2 + u r2) / 2
   * with c1, c2 the two centers and u the axis, its radius (dist + r1 + r2) / 2.
   */
  lemma MergedLanes(lm: GenericMath.Libm, s: Spheres.Sphere, other: Spheres.Sphere, u: Vec4, c: Vec4)
    requires CenterDistance(lm, s, other) != 0.0 && u == Axis(lm, s, other).vec
    requires c == Merged(lm, s, other).data
    ensures CenterBetween(c, s.data, other.data, u)
    ensures c.w == (CenterDistance(lm, s, other) + s.data.w + other.data.w) * 0.5
  {
    var a := Axis(lm, s, other);
    var e1 := Extreme1(lm, s, other);
    var e2 := Extreme2(lm, s, other);
    assert e1 == Vector3.Minus(Vector3.Vector3f(s.data), Vector3.TimesScalar(a, s.data.w));
    assert e2 == Vector3.Plus(Vector3.Vector3f(other.data), Vector3.TimesScalar(a, other.data.w));
    var center := Vector3.TimesScalar(Vector3.Plus(e1, e2), 0.5);
    PackedLanes(c, center, (CenterDistance(lm, s, other) + s.data.w + other.data.w) * 0.5);
    MidpointLanes(s.data, other.data, a, center, c);
  }

  /** The lanes of Sphere(center, radius).data: the center's x, y and z, then the radius. */
  lemma PackedLanes(c: Vec4, center: Vector3.Vector3f, radius: real)
    requires c == Spheres.FromCenterRadius(center, radius).data
    ensures c == Vec4(center.vec.x, center.vec.y, center.vec.z, radius)
  {
  }

  /** The x, y and z lanes of (c1 - a r1 + (c2 + a r2)) * 0.5, with r1, r2 in lane 3 of c1, c2. */
  lemma MidpointLanes(c1: Vec4, c2: Vec4, a: Vector3.Vector3f, center: Vector3.Vector3f, m: Vec4)
    requires center == Vector3.TimesScalar(Vector3.Plus(
      Vector3.Minus(Vector3.Vector3f(c1), Vector3.TimesScalar(a, c1.w)),
      Vector3.Plus(Vector3.Vector3f(c2), Vector3.TimesScalar(a, c2.w))), 0.5)
    requires m.x == center.vec.x && m.y == center.vec.y && m.z == center.vec.z
    ensures CenterBetween(m, c1, c2, a.vec)
  {
  }


  /** u d == c2 - c1 on x, y and z. */
  predicate AxisStep(u: Vec4, c1: Vec4, c2: Vec4, d: real)
  {
    u.x * d == c2.x - c1.x && u.y * d == c2.y - c1.y && u.z * d == c2.z - c1.z
  }

  /** m == (c1 - u r1 + c2 + u r2) / 2 on x, y and z, with r1, r2 in lane 3 of c1, c2. */
  predicate CenterBetween(m: Vec4, c1: Vec4, c2: Vec4, u: Vec4)
  {
    && m.x == 0.5 * ((c1.x - u.x * c1.w) + (c2.x + u.x * c2.w))
    && m.y == 0.5 * ((c1.y - u.y * c1.w) + (c2.y + u.y * c2.w))
    && m.z == 0.5 * ((c1.z - u.z * c1.w) + (c2.z + u.z * c2.w))
  }

  /** m - c == u a on x, y and z. */
  predicate StepFrom(m: Vec4, c: Vec4, u: Vec4, a: real)
  {
    m.x - c.x == u.x * a && m.y - c.y == u.y * a && m.z - c.z == u.z * a
  }

  /** One lane of the merged center, measured from each center along the axis. */
  lemma AlongAxis(m: real, c1: real, c2: real, u: real, d: real, r1: real, r2: real, k1: real, k2: real)
    requires m == 0.5 * ((c1 - u * r1) + (c2 + u * r2)) && u * d == c2 - c1
    requires k1 == (d + r2 - r1) * 0.5 && k2 == (r2 - r1 - d) * 0.5
    ensures m - c1 == u * k1 && m - c2 == u * k2
  {
  }

  /** The merged center lies k1 = (d + r2 - r1) / 2 along the axis from c1 and k2 = (r2 - r1 - d) / 2 from c2. */
  lemma CenterSteps(m: Vec4, c1: Vec4, c2: Vec4, u: Vec4, d: real, k1: real, k2: real)
    requires CenterBetween(m, c1, c2, u) && AxisStep(u, c1, c2, d)
    requires k1 == (d + c2.w - c1.w) * 0.5 && k2 == (c2.w - c1.w - d) * 0.5
    ensures StepFrom(m, c1, u, k1) && StepFrom(m, c2, u, k2)
  {
    AlongAxis(m.x, c1.x, c2.x, u.x, d, c1.w, c2.w, k1, k2);
    AlongAxis(m.y, c1.y, c2.y, u.y, d, c1.w, c2.w, k1, k2);
    AlongAxis(m.z, c1.z, c2.z, u.z, d, c1.w, c2.w, k1, k2);
  }

  /**
   * Both balls (c1, r1) and (c2, r2) lie within radius + margin of the
   * merged center m when neither radius exceeds the other by d + margin;
   * c1 and c2 are d apart along the unit axis u and carry r1, r2 in lane 3.
   */
  lemma BallsInMerged(p: Vec4, c1: Vec4, c2: Vec4, m: Vec4, u: Vec4, d: real, radius: real, bound: real)
    requires 0.0 <= c1.w && 0.0 <= c2.w && 0.0 < d && Dot3Value(u, u) == 1.0
    requires AxisStep(u, c1, c2, d) && CenterBetween(m, c1, c2, u)
    requires c1.w - c2.w - d < Spheres.DEFAULT_MARGIN && c2.w - c1.w - d < Spheres.DEFAULT_MARGIN
    requires radius == (d + c1.w + c2.w) * 0.5 && bound == radius + Spheres.DEFAULT_MARGIN
    requires Dot3Value(Sub(c1, p), Sub(c1, p)) <= c1.w * c1.w || Dot3Value(Sub(c2, p), Sub(c2, p)) <= c2.w * c2.w
    ensures Dot3Value(Sub(m, p), Sub(m, p)) < bound * bound
  {
    var k1 := (d + c2.w - c1.w) * 0.5;
    var k2 := (c2.w - c1.w - d) * 0.5;
    CenterSteps(m, c1, c2, u, d, k1, k2);
    if Dot3Value(Sub(c1, p), Sub(c1, p)) <= c1.w * c1.w {
      BallInMerged(p, c1, m, u, k1, c1.w, bound);
    } else {
      BallInMerged(p, c2, m, u, k2, c2.w, bound);
    }
  }

  /** |u| <= a and |v| <= b with a, b >= 0 give |u + v| <= a + b, in squares. */
  lemma TriangleSquaredAtMost(u: Vec4, v: Vec4, a: real, b: real, sum: real)
    requires 0.0 <= a && 0.0 <= b && sum == a + b
    requires Dot3Value(u, u) <= a * a && Dot3Value(v, v) <= b * b
    ensures Dot3Value(Add(u, v), Add(u, v)) <= sum * sum
  {
    var uv := Dot3Value(u, v);
    Spheres.CauchySchwarz(u, v);
    Spheres.ProductBelow(Dot3Value(u, u), a * a, Dot3Value(v, v), b * b);
    assert (a * b) * (a * b) == (a * a) * (b * b);
    if 0.0 <= uv {
      Spheres.SquareBelow(a * b, uv);
    }
    assert uv <= a * b;
    assert Dot3Value(Add(u, v), Add(u, v)) == Dot3Value(u, u) + 2.0 * uv + Dot3Value(v, v);
  }


  /**
   * A point within r of c is within bound of m when m = c + a u for a unit
   * vector u and r + |a| < bound.
   */
  lemma BallInMerged(p: Vec4, c: Vec4, m: Vec4, u: Vec4, a: real, r: real, bound: real)
    requires 0.0 <= r && Dot3Value(Sub(c, p), Sub(c, p)) <= r * r
    requires Dot3Value(u, u) == 1.0
    requires StepFrom(m, c, u, a) && r + a < bound && r - a < bound
    ensures Dot3Value(Sub(m, p), Sub(m, p)) < bound * bound
  {
    var v := Sub(m, c);
    var w := Sub(c, p);
    var aa := GenericMath.Abs(a);
    ScaledUnitNorm(v, u, a, aa);
    var sum := aa + r;
    TriangleSquaredAtMost(v, w, aa, r, sum);
    assert Add(v, w) == Sub(m, p);
    WithinBound(Dot3Value(Sub(m, p), Sub(m, p)), sum, bound);
  }

  /** n <= s^2 with 0 <= s < bound gives n < bound^2. */
  lemma WithinBound(n: real, s: real, bound: real)
    requires 0.0 <= s && s < bound && n <= s * s
    ensures n < bound * bound
  {
    Spheres.SquareBelow(s, bound);
  }

  /** v = a u for a unit vector u has squared length a^2 = |a|^2. */
  lemma ScaledUnitNorm(v: Vec4, u: Vec4, a: real, aa: real)
    requires v.x == u.x * a && v.y == u.y * a && v.z == u.z * a && Dot3Value(u, u) == 1.0
    requires aa == a || aa == -a
    ensures Dot3Value(v, v) == aa * aa
  {
    assert Dot3Value(v, v) == (a * a) * Dot3Value(u, u);
  }


  /** Not containing other leaves r - r_o - dist below the margin. */
  lemma NotContainedGap(s: Spheres.Sphere, other: Spheres.Sphere, d: real)
    requires !Spheres.ContainsSphere(s, other, Spheres.DEFAULT_MARGIN)
    requires 0.0 < d && d * d == Spheres.CenterDistSquared(s, other)
    ensures s.data.w - other.data.w - d < Spheres.DEFAULT_MARGIN
  {
    if Spheres.Radius(other) + Spheres.DEFAULT_MARGIN <= Spheres.Radius(s) {
      var g := Spheres.DEFAULT_MARGIN + Sub(s.data, other.data).w;
      assert g * g <= d * d;
      Spheres.SquareBelow(d, g);
    }
  }


  /**
   * With an exact square root and non-negative radii, when neither sphere
   * contains the other the merged sphere contains (with the default margin)
   * every point of both closed balls.
   */
  lemma MergedEncloses(lm: GenericMath.Libm, s: Spheres.Sphere, other: Spheres.Sphere, p: Vector3.Vector3f)
    requires GenericMath.SqrtIsExact(lm) && CenterDistance(lm, s, other) != 0.0
    requires 0.0 <= Spheres.Radius(s) && 0.0 <= Spheres.Radius(other)
    requires !Spheres.ContainsSphere(s, other, Spheres.DEFAULT_MARGIN)
    requires !Spheres.ContainsSphere(other, s, Spheres.DEFAULT_MARGIN)
    requires Vector3.DistSquared(p, Spheres.Center(s)) <= Spheres.Radius(s) * Spheres.Radius(s) ||
             Vector3.DistSquared(p, Spheres.Center(other)) <= Spheres.Radius(other) * Spheres.Radius(other)
    ensures Spheres.ContainsPoint(Merged(lm, s, other), p, Spheres.DEFAULT_MARGIN)
  {
    var d := CenterDistance(lm, s, other);
    var u := Axis(lm, s, other).vec;
    var t := Merged(lm, s, other);
    AxisFacts(lm, s, other, u, d);
    MergedLanes(lm, s, other, u, t.data);
    NotContainedGap(s, other, d);
    NotContainedGap(other, s, d);
    var bound := t.data.w + Spheres.DEFAULT_MARGIN;
    Spheres.ContainsPointValue(t, p, Spheres.DEFAULT_MARGIN, bound);
    Spheres.InClosedBallValue(s, p);
    Spheres.InClosedBallValue(other, p);
    BallsInMerged(p.vec, s.data, other.data, t.data, u, d, t.data.w, bound);
  }

  // ---------------------------------------------------------------------
  // addSphere as written
  // ---------------------------------------------------------------------

  /** A sphere that contains the other holds every point of both closed balls. */
  lemma KeptEncloses(s: Spheres.Sphere, other: Spheres.Sphere, p: Vector3.Vector3f)
    requires 0.0 <= Spheres.Radius(s) && 0.0 <= Spheres.Radius(other)
    requires Spheres.ContainsSphere(s, other, Spheres.DEFAULT_MARGIN)
    requires Vector3.DistSquared(p, Spheres.Center(s)) <= Spheres.Radius(s) * Spheres.Radius(s) ||
             Vector3.DistSquared(p, Spheres.Center(other)) <= Spheres.Radius(other) * Spheres.Radius(other)
    ensures Spheres.ContainsPoint(s, p, Spheres.DEFAULT_MARGIN)
  {
    if Vector3.DistSquared(p, Spheres.Center(s)) <= Spheres.Radius(s) * Spheres.Radius(s) {
      Spheres.ClosedBallContained(s, p, Spheres.DEFAULT_MARGIN);
    } else {
      Spheres.ContainedSpherePoints(s, other, Spheres.DEFAULT_MARGIN, p);
    }
  }

  /**
   * With an exact square root and non-negative radii, whenever addSphere
   * returns a sphere and this sphere's radius is not 0, that sphere contains
   * (with the default margin) every point of both closed balls.
   */
  lemma AddSphereEncloses(lm: GenericMath.Libm, s: Spheres.Sphere, other: Spheres.Sphere, p: Vector3.Vector3f)
    requires GenericMath.SqrtIsExact(lm)
    requires 0.0 <= Spheres.Radius(s) && 0.0 <= Spheres.Radius(other) && Spheres.Radius(s) != 0.0
    requires AddSphere(lm, s, other).Added?
    requires Vector3.DistSquared(p, Spheres.Center(s)) <= Spheres.Radius(s) * Spheres.Radius(s) ||
             Vector3.DistSquared(p, Spheres.Center(other)) <= Spheres.Radius(other) * Spheres.Radius(other)
    ensures Spheres.ContainsPoint(AddSphere(lm, s, other).sphere, p, Spheres.DEFAULT_MARGIN)
  {
    if Spheres.ContainsSphere(s, other, Spheres.DEFAULT_MARGIN) {
      KeptEncloses(s, other, p);
    } else if Spheres.ContainsSphere(other, s, Spheres.DEFAULT_MARGIN) {
      KeptEncloses(other, s, p);
    } else {
      MergedEncloses(lm, s, other, p);
    }
  }

  /**
   * A sphere of radius 0 is dropped: addSphere returns other unchanged, so
   * the old center is lost whenever other does not contain it.
   */
  lemma ZeroRadiusDropsThis(lm: GenericMath.Libm, s: Spheres.Sphere, other: Spheres.Sphere)
    requires Spheres.Radius(s) == 0.0 && 0.0 <= Spheres.Radius(other)
    requires !Spheres.ContainsPoint(other, Spheres.Center(s), Spheres.DEFAULT_MARGIN)
    ensures AddSphere(lm, s, other) == Added(other)
    ensures !Spheres.ContainsPoint(AddSphere(lm, s, other).sphere, Spheres.Center(s), Spheres.DEFAULT_MARGIN)
  {
  }

  /**
   * Two spheres whose centers coincide and whose radii differ by less than
   * the margin (s.addSphere(s) with a nonzero radius among them) reach
   * dir /= dist with dist == 0.
   */
  lemma CoincidentCentersNotANumber(lm: GenericMath.Libm, s: Spheres.Sphere, other: Spheres.Sphere)
    requires GenericMath.SqrtIsExact(lm)
    requires s.data.x == other.data.x && s.data.y == other.data.y && s.data.z == other.data.z
    requires Spheres.Radius(s) != 0.0
    requires Spheres.Radius(s) - Spheres.Radius(other) < Spheres.DEFAULT_MARGIN && Spheres.Radius(other) - Spheres.Radius(s) < Spheres.DEFAULT_MARGIN
    ensures AddSphere(lm, s, other) == NotANumber
  {
    var off := CenterOffset(s, other);
    assert Vector3.LengthSquared(off) == 0.0;
    SqrtOfZero(lm, Vector3.LengthSquared(off));
  }

  // ---------------------------------------------------------------------
  // addSphere as evidently intended
  // ---------------------------------------------------------------------

  /**
   * addSphere without the radius-0 shortcut and with coincident centers
   * handled: the larger of the two spheres is kept.
   */
  function AddSphereIntended(lm: GenericMath.Libm, s: Spheres.Sphere, other: Spheres.Sphere): Spheres.Sphere
  {
    if Spheres.ContainsSphere(s, other, Spheres.DEFAULT_MARGIN) then s
    else if Spheres.ContainsSphere(other, s, Spheres.DEFAULT_MARGIN) then other
    else if CenterDistance(lm, s, other) == 0.0 then
      (if Spheres.Radius(other) <= Spheres.Radius(s) then s else other)
    else Merged(lm, s, other)
  }

  /** addPoint(p) on the intended addSphere. */
  function AddPointIntended(lm: GenericMath.Libm, s: Spheres.Sphere, p: Vector3.Vector3f): Spheres.Sphere
  {
    AddSphereIntended(lm, s, Spheres.FromCenterRadius(p, 0.0))
  }

  /**
   * addPoint as written, when s has a nonzero radius and no NaN arises: the
   * result holds both the new point and every point of the old ball.
   */
  lemma AddPointEncloses(lm: GenericMath.Libm, s: Spheres.Sphere, p: Vector3.Vector3f, q: Vector3.Vector3f)
    requires GenericMath.SqrtIsExact(lm) && 0.0 < Spheres.Radius(s)
    requires AddPoint(lm, s, p).Added?
    requires Vector3.DistSquared(q, Spheres.Center(s)) <= Spheres.Radius(s) * Spheres.Radius(s)
    ensures Spheres.ContainsPoint(AddPoint(lm, s, p).sphere, p, Spheres.DEFAULT_MARGIN)
    ensures Spheres.ContainsPoint(AddPoint(lm, s, p).sphere, q, Spheres.DEFAULT_MARGIN)
  {
    var o := Spheres.FromCenterRadius(p, 0.0);
    PointSphereHoldsPoint(p, o, 0.0);
    AddSphereEncloses(lm, s, o, p);
    AddSphereEncloses(lm, s, o, q);
  }

  /** x y == 0 with x == y forces x == 0 (stated on two names so that the product is not a square of one). */
  lemma SquareZero(x: real, y: real)
    requires x == y && x * y == 0.0
    ensures x == 0.0
  {
    if 0.0 < x {
      Spheres.MulPos(x, y);
    } else if x < 0.0 {
      Spheres.MulPos(-x, -y);
    }
  }

  /** 0 * 0 == 0, stated on two names. */
  lemma SquareOfZero(x: real, y: real)
    requires x == 0.0 && y == x
    ensures x * y == 0.0
  {
  }

  /** A vector that is 0 on x, y and z has dot3 0 with itself. */
  lemma ZeroDot3(v: Vec4, w: Vec4)
    requires v == w && v.x == 0.0 && v.y == 0.0 && v.z == 0.0
    ensures Dot3Value(v, w) == 0.0
  {
    SquareOfZero(v.x, w.x);
    SquareOfZero(v.y, w.y);
    SquareOfZero(v.z, w.z);
  }

  /** 0 <= 0 * 0, stated on three names. */
  lemma ZeroBelowSquare(d: real, x: real, y: real)
    requires d == 0.0 && x == 0.0 && y == x
    ensures d <= x * y
  {
    SquareOfZero(x, y);
  }

  /** An exact square root of 0 is 0. */
  lemma SqrtOfZero(lm: GenericMath.Libm, z: real)
    requires GenericMath.SqrtIsExact(lm) && z == 0.0
    ensures lm.sqrt(z) == 0.0
  {
    SquareZero(lm.sqrt(z), lm.sqrt(z));
  }

  /** With an exact square root, a zero center distance means a zero squared distance. */
  lemma ZeroDistanceCoincide(lm: GenericMath.Libm, s: Spheres.Sphere, other: Spheres.Sphere)
    requires GenericMath.SqrtIsExact(lm) && CenterDistance(lm, s, other) == 0.0
    ensures Spheres.CenterDistSquared(s, other) == 0.0 && Spheres.CenterDistSquared(other, s) == 0.0
  {
    var n := Vector3.LengthSquared(CenterOffset(s, other));
    assert lm.sqrt(n) * lm.sqrt(n) == n;
    Spheres.SquaredDifferenceSymmetric(s.data, other.data);
  }

  /** Concentric balls: the one with the larger radius holds every point of both. */
  lemma ConcentricEncloses(s: Spheres.Sphere, other: Spheres.Sphere, p: Vector3.Vector3f)
    requires Spheres.CenterDistSquared(s, other) == 0.0
    requires 0.0 <= Spheres.Radius(other) <= Spheres.Radius(s)
    requires Vector3.DistSquared(p, Spheres.Center(s)) <= Spheres.Radius(s) * Spheres.Radius(s) ||
             Vector3.DistSquared(p, Spheres.Center(other)) <= Spheres.Radius(other) * Spheres.Radius(other)
    ensures Spheres.ContainsPoint(s, p, Spheres.DEFAULT_MARGIN)
  {
    if !(Vector3.DistSquared(p, Spheres.Center(s)) <= Spheres.Radius(s) * Spheres.Radius(s)) {
      var u := Sub(other.data, p.vec);
      var v := Sub(s.data, other.data);
      var r := Spheres.Radius(other);
      var zero := 0.0;
      Spheres.InClosedBallValue(other, p);
      TriangleSquaredAtMost(u, v, r, zero, r);
      assert Add(u, v) == Sub(s.data, p.vec);
      Spheres.ProductBelow(r, Spheres.Radius(s), r, Spheres.Radius(s));
      Spheres.InClosedBallValue(s, p);
    }
    Spheres.ClosedBallContained(s, p, Spheres.DEFAULT_MARGIN);
  }
  /**
   * With an exact square root and non-negative radii the intended addSphere
   * contains (with the default margin) every point of both closed balls,
   * whatever the radii and centers.
   */
  lemma AddSphereIntendedEncloses(lm: GenericMath.Libm, s: Spheres.Sphere, other: Spheres.Sphere, p: Vector3.Vector3f)
    requires GenericMath.SqrtIsExact(lm)
    requires 0.0 <= Spheres.Radius(s) && 0.0 <= Spheres.Radius(other)
    requires Vector3.DistSquared(p, Spheres.Center(s)) <= Spheres.Radius(s) * Spheres.Radius(s) ||
             Vector3.DistSquared(p, Spheres.Center(other)) <= Spheres.Radius(other) * Spheres.Radius(other)
    ensures Spheres.ContainsPoint(AddSphereIntended(lm, s, other), p, Spheres.DEFAULT_MARGIN)
  {
    if Spheres.ContainsSphere(s, other, Spheres.DEFAULT_MARGIN) {
      KeptEncloses(s, other, p);
    } else if Spheres.ContainsSphere(other, s, Spheres.DEFAULT_MARGIN) {
      KeptEncloses(other, s, p);
    } else if CenterDistance(lm, s, other) == 0.0 {
      ZeroDistanceCoincide(lm, s, other);
      if Spheres.Radius(other) <= Spheres.Radius(s) {
        ConcentricEncloses(s, other, p);
      } else {
        ConcentricEncloses(other, s, p);
      }
    } else {
      MergedEncloses(lm, s, other, p);
    }
  }

  /** Wherever addSphere as written gives a sphere and this radius is not 0, the intended one gives the same. */
  lemma IntendedAgrees(lm: GenericMath.Libm, s: Spheres.Sphere, other: Spheres.Sphere)
    requires Spheres.Radius(s) != 0.0 && AddSphere(lm, s, other).Added?
    ensures AddSphereIntended(lm, s, other) == AddSphere(lm, s, other).sphere
  {
  }

  /** A point lies in the closed ball of the zero-radius sphere at that point. */
  lemma PointSphereHoldsPoint(p: Vector3.Vector3f, o: Spheres.Sphere, zero: real)
    requires zero == 0.0 && o == Spheres.FromCenterRadius(p, zero)
    ensures Vector3.DistSquared(p, Spheres.Center(o)) <= Spheres.Radius(o) * Spheres.Radius(o)
    ensures Spheres.Radius(o) == 0.0
  {
    PointSphereDistance(p, o, zero);
    ZeroBelowSquare(Vector3.DistSquared(p, Spheres.Center(o)), Spheres.Radius(o), Spheres.Radius(o));
  }

  /** The zero-radius sphere at p is centered on p. */
  lemma PointSphereDistance(p: Vector3.Vector3f, o: Spheres.Sphere, zero: real)
    requires zero == 0.0 && o == Spheres.FromCenterRadius(p, zero)
    ensures Vector3.DistSquared(p, Spheres.Center(o)) == 0.0 && Spheres.Radius(o) == 0.0
  {
    Spheres.DistSquaredValue(p, Spheres.Center(o));
    var d := Sub(Spheres.Center(o).vec, p.vec);
    ZeroDot3(d, d);
  }  /** The intended addPoint keeps every point of the old closed ball and the new point. */
  lemma AddPointIntendedEncloses(lm: GenericMath.Libm, s: Spheres.Sphere, p: Vector3.Vector3f, q: Vector3.Vector3f)
    requires GenericMath.SqrtIsExact(lm) && 0.0 <= Spheres.Radius(s)
    requires Vector3.DistSquared(q, Spheres.Center(s)) <= Spheres.Radius(s) * Spheres.Radius(s)
    ensures Spheres.ContainsPoint(AddPointIntended(lm, s, p), p, Spheres.DEFAULT_MARGIN)
    ensures Spheres.ContainsPoint(AddPointIntended(lm, s, p), q, Spheres.DEFAULT_MARGIN)
  {
    var o := Spheres.FromCenterRadius(p, 0.0);
    PointSphereHoldsPoint(p, o, 0.0);
    AddSphereIntendedEncloses(lm, s, o, p);
    AddSphereIntendedEncloses(lm, s, o, q);
  }
}
