/**
 * `Plane`: a plane stored as one vector (a, b, c, d), the set of points p
 * with a*p.x + b*p.y + c*p.z + d == 0.  `dot(p)` is that signed value; for
 * a plane whose normal (a, b, c) is a unit vector it is the signed distance.
 */
module Planes {
  import GenericMath
  import opened GenericVecmath
  import opened Vecmath
  import Vector3
  import Matrices

  datatype Plane = Plane(data: Vec4)

  /** Plane(x, y, z, w). */
  function Make(x: real, y: real, z: real, w: real): (r: Plane)
    ensures Lane(r.data, 0) == x && Lane(r.data, 1) == y && Lane(r.data, 2) == z && Lane(r.data, 3) == w
  {
    Plane(Vec4(x, y, z, w))
  }

  /** Plane(normal, w): the normal's xyz with w as the offset. */
  function FromNormal(normal: Vector3.Vector3f, w: real): (r: Plane)
    ensures Vector3.Equal(Vector3.Vector3f(r.data), normal) && r.data.w == w
  {
    Plane(Vector3.ToVectorW(normal, w))
  }

  /** toVector(). */
  function ToVector(p: Plane): Vec4
  {
    p.data
  }

  // ---------------------------------------------------------------------
  // Dot products
  // ---------------------------------------------------------------------

  /** dot(point): the point with lane 3 set to 1, dotted with all four lanes of the plane. */
  function Dot(p: Plane, point: Vector3.Vector3f): (r: real)
    ensures r == Dot3Value(p.data, point.vec) + p.data.w
    ensures r == Dot4Value(Vector3.ToVectorW(point, 1.0), p.data)
  {
    Lane(Dot4(Vector3.ToVectorW(point, 1.0), p.data), 0)
  }

  /** dotVector(v): all four lanes, so lane 3 of v weighs the offset. */
  function DotVector(p: Plane, v: Vec4): (r: real)
    ensures r == Dot4Value(v, p.data)
    ensures v.w == 1.0 ==> r == Dot(p, Vector3.Vector3f(v))
  {
    Lane(Dot4(v, p.data), 0)
  }

  /** dotPlane(other). */
  function DotPlane(p: Plane, other: Plane): (r: real)
    ensures r == Dot4Value(other.data, p.data)
    ensures r == Dot4Value(p.data, other.data)
  {
    Lane(Dot4(other.data, p.data), 0)
  }

  /** The plane values the tests check: x = 1, y = 1 and z = 1 seen from (2, 0, 0). */
  lemma DotExamples()
    ensures Dot(Plane(Vec4(1.0, 0.0, 0.0, -1.0)), Vector3.Vector3f(Vec4(2.0, 0.0, 0.0, 0.0))) == 1.0
    ensures Dot(Plane(Vec4(0.0, 1.0, 0.0, -1.0)), Vector3.Vector3f(Vec4(2.0, 0.0, 0.0, 0.0))) == -1.0
    ensures Dot(Plane(Vec4(0.0, 0.0, 1.0, -1.0)), Vector3.Vector3f(Vec4(2.0, 0.0, 0.0, 0.0))) == -1.0
  {
    var q := Vector3.Vector3f(Vec4(2.0, 0.0, 0.0, 0.0));
    DotFormula(Plane(Vec4(1.0, 0.0, 0.0, -1.0)), q);
    DotFormula(Plane(Vec4(0.0, 1.0, 0.0, -1.0)), q);
    DotFormula(Plane(Vec4(0.0, 0.0, 1.0, -1.0)), q);
  }

  /** dot written out lane by lane. */
  lemma DotFormula(p: Plane, point: Vector3.Vector3f)
    ensures Dot(p, point) == p.data.x * point.vec.x + p.data.y * point.vec.y + p.data.z * point.vec.z + p.data.w
  {
  }

  /** The planes x = 1, y = 1 and z = 1 as the tests build them from normals. */
  lemma AxisPlanesFromNormals()
    ensures AxisPlanes(FromNormal(Vector3.Make(1.0, 0.0, 0.0), -1.0),
                       FromNormal(Vector3.Make(0.0, 1.0, 0.0), -1.0),
                       FromNormal(Vector3.Make(0.0, 0.0, 1.0), -1.0), 1.0, 1.0, 1.0)
  {
    assert Vector3.Make(1.0, 0.0, 0.0).vec == Vec4(1.0, 0.0, 0.0, 0.0);
    assert Vector3.Make(0.0, 1.0, 0.0).vec == Vec4(0.0, 1.0, 0.0, 0.0);
    assert Vector3.Make(0.0, 0.0, 1.0).vec == Vec4(0.0, 0.0, 1.0, 0.0);
  }

  // ---------------------------------------------------------------------
  // Normalisation
  // ---------------------------------------------------------------------

  /** The length of the normal. */
  function NormalLength(lm: GenericMath.Libm, p: Plane): real
  {
    lm.sqrt(Dot3Value(p.data, p.data))
  }

  /** normalize3 needs a normal of nonzero length. */
  predicate CanNormalize(lm: GenericMath.Libm, p: Plane)
  {
    NormalLength(lm, p) != 0.0
  }

  /**
   * normalized(errorMargin): all four lanes divided by the length of the
   * normal, so the plane describes the same points.  The margin is unused.
   */
  function Normalized(lm: GenericMath.Libm, p: Plane, errorMargin: real): (r: Plane)
    requires CanNormalize(lm, p)
    ensures forall i | 0 <= i < 4 :: Lane(r.data, i) * NormalLength(lm, p) == Lane(p.data, i)
  {
    var k := GenericMath.Rsqrt(lm, Dot3Value(p.data, p.data));
    assert Normalize3(lm, p.data) == Mul(p.data, Load1f(k));
    Vector3.ScaledByReciprocal(p.data, k, NormalLength(lm, p));
    Plane(Normalize3(lm, p.data))
  }

  /** isNormalized(errorMargin): |1 - |n|^2| < errorMargin. */
  predicate IsNormalized(p: Plane, errorMargin: real)
  {
    GenericMath.Abs(1.0 - Dot3Value(p.data, p.data)) < errorMargin
  }

  /** With an exact square root normalized() has a unit normal. */
  lemma NormalizedIsNormalized(lm: GenericMath.Libm, p: Plane, errorMargin: real, margin: real)
    requires GenericMath.SqrtIsExact(lm)
    requires CanNormalize(lm, p)
    requires 0.0 < margin
    ensures Dot3Value(Normalized(lm, p, errorMargin).data, Normalized(lm, p, errorMargin).data) == 1.0
    ensures IsNormalized(Normalized(lm, p, errorMargin), margin)
  {
    NormalizeIsUnit(lm, p.data);
  }

  /** If r is q with every lane divided by s, dotting with r is dotting with q divided by s. */
  lemma DotOfScaled(v: Vec4, r: Vec4, q: Vec4, s: real)
    requires r.x * s == q.x && r.y * s == q.y && r.z * s == q.z && r.w * s == q.w
    ensures Dot4Value(v, r) * s == Dot4Value(v, q)
  {
    assert v.x * r.x * s == v.x * q.x;
    assert v.y * r.y * s == v.y * q.y;
    assert v.z * r.z * s == v.z * q.z;
    assert v.w * r.w * s == v.w * q.w;
  }

  /** The lanes of the normalized plane, written out. */
  lemma NormalizedLanes(lm: GenericMath.Libm, p: Plane, errorMargin: real)
    requires CanNormalize(lm, p)
    ensures Normalized(lm, p, errorMargin).data.x * NormalLength(lm, p) == p.data.x
    ensures Normalized(lm, p, errorMargin).data.y * NormalLength(lm, p) == p.data.y
    ensures Normalized(lm, p, errorMargin).data.z * NormalLength(lm, p) == p.data.z
    ensures Normalized(lm, p, errorMargin).data.w * NormalLength(lm, p) == p.data.w
  {
    var r := Normalized(lm, p, errorMargin).data;
    assert Lane(r, 0) == r.x && Lane(r, 1) == r.y && Lane(r, 2) == r.z && Lane(r, 3) == r.w;
  }

  /** Normalizing keeps the plane's points: every value of dotVector is divided by |n|. */
  lemma NormalizedKeepsPoints(lm: GenericMath.Libm, p: Plane, errorMargin: real, v: Vec4)
    requires CanNormalize(lm, p)
    ensures DotVector(Normalized(lm, p, errorMargin), v) * NormalLength(lm, p) == DotVector(p, v)
    ensures DotVector(Normalized(lm, p, errorMargin), v) == 0.0 <==> DotVector(p, v) == 0.0
  {
    NormalizedLanes(lm, p, errorMargin);
    DotOfScaled(v, Normalized(lm, p, errorMargin).data, p.data, NormalLength(lm, p));
  }

  /** getNormal(): the normalized plane's four lanes as a Vector3f. */
  function GetNormal(lm: GenericMath.Libm, p: Plane): (r: Vector3.Vector3f)
    requires CanNormalize(lm, p)
    ensures r.vec == Normalized(lm, p, 0.0).data
  {
    Vector3.Vector3f(Normalize3(lm, p.data))
  }

  /** With an exact square root the normal has length 1. */
  lemma GetNormalIsUnit(lm: GenericMath.Libm, p: Plane)
    requires GenericMath.SqrtIsExact(lm)
    requires CanNormalize(lm, p)
    ensures Vector3.Dot(GetNormal(lm, p), GetNormal(lm, p)) == 1.0
  {
    NormalizeIsUnit(lm, p.data);
  }

  /** An exact square root maps 1 to 1. */
  lemma SqrtOfOne(lm: GenericMath.Libm)
    requires GenericMath.SqrtIsExact(lm)
    ensures lm.sqrt(1.0) == 1.0
  {
    Vector3.SqrtOfSquare(lm, -1.0);
  }

  /** A unit normal has length 1 when sqrt(1) is 1. */
  lemma UnitNormalLength(lm: GenericMath.Libm, p: Plane)
    requires lm.sqrt(1.0) == 1.0
    requires Dot3Value(p.data, p.data) == 1.0
    ensures NormalLength(lm, p) == 1.0
  {
  }

  /** A plane whose normal has length 1 is its own normalization. */
  lemma UnitPlaneIsNormal(lm: GenericMath.Libm, p: Plane)
    requires NormalLength(lm, p) == 1.0
    ensures GetNormal(lm, p).vec == p.data
  {
    Normalize3OfUnit(lm, p.data);
  }

  // ---------------------------------------------------------------------
  // Rays and lines
  // ---------------------------------------------------------------------

  /** The denominator of intersectRay: the direction against the unit normal. */
  function RayDenominator(lm: GenericMath.Libm, p: Plane, rayDir: Vector3.Vector3f): real
    requires CanNormalize(lm, p)
  {
    Vector3.Dot(rayDir, GetNormal(lm, p))
  }

  /** intersectRay(start, rayDir): -dot(start) / (rayDir . n), n the unit normal. */
  function IntersectRay(lm: GenericMath.Libm, p: Plane, start: Vector3.Vector3f, rayDir: Vector3.Vector3f): (r: real)
    requires CanNormalize(lm, p) && RayDenominator(lm, p, rayDir) != 0.0
    ensures r * RayDenominator(lm, p, rayDir) == -Dot(p, start)
  {
    var num := Dot(p, start);
    var den := RayDenominator(lm, p, rayDir);
    QuotientLaw(num, den);
    -num / den
  }

  /** (-num / den) * den == -num. */
  lemma QuotientLaw(num: real, den: real)
    requires den != 0.0
    ensures (-num / den) * den == -num
  {
  }

  /** start + t * dir. */
  function PointAt(start: Vector3.Vector3f, dir: Vector3.Vector3f, t: real): Vector3.Vector3f
  {
    Vector3.Plus(start, Vector3.TimesScalar(dir, t))
  }

  /** Dot(p, start + t dir) == Dot(p, start) + t (n . dir). */
  lemma DotAlongRay(p: Plane, start: Vector3.Vector3f, dir: Vector3.Vector3f, t: real)
    ensures Dot(p, PointAt(start, dir, t)) == Dot(p, start) + t * Dot3Value(dir.vec, p.data)
  {
    var q := PointAt(start, dir, t);
    assert Lane(q.vec, 0) == start.vec.x + dir.vec.x * t;
    assert Lane(q.vec, 1) == start.vec.y + dir.vec.y * t;
    assert Lane(q.vec, 2) == start.vec.z + dir.vec.z * t;
    DotFormula(p, q);
    DotFormula(p, start);
  }

  /** A value t with t (dir . n) == -dot(start) puts start + t dir on the plane. */
  lemma HitsPlaneAt(p: Plane, start: Vector3.Vector3f, dir: Vector3.Vector3f, t: real, d: real)
    requires d == Dot3Value(dir.vec, p.data) && t * d == -Dot(p, start)
    ensures Dot(p, PointAt(start, dir, t)) == 0.0
  {
    DotAlongRay(p, start, dir, t);
  }

  /** For a normal of length 1 the denominator is the direction against the plane's own normal. */
  lemma UnitRayDenominator(lm: GenericMath.Libm, p: Plane, rayDir: Vector3.Vector3f)
    requires NormalLength(lm, p) == 1.0
    ensures RayDenominator(lm, p, rayDir) == Dot3Value(rayDir.vec, p.data)
  {
    UnitPlaneIsNormal(lm, p);
  }

  /** The intersection point is on the plane whenever the unit normal is the stored one. */
  lemma IntersectRayOnPlane(lm: GenericMath.Libm, p: Plane, start: Vector3.Vector3f, rayDir: Vector3.Vector3f)
    requires CanNormalize(lm, p) && RayDenominator(lm, p, rayDir) != 0.0
    requires RayDenominator(lm, p, rayDir) == Dot3Value(rayDir.vec, p.data)
    ensures Dot(p, PointAt(start, rayDir, IntersectRay(lm, p, start, rayDir))) == 0.0
  {
    var t := IntersectRay(lm, p, start, rayDir);
    var d := RayDenominator(lm, p, rayDir);
    QuotientLaw(Dot(p, start), d);
    HitsPlaneAt(p, start, rayDir, t, d);
  }

  /**
   * For a plane with a unit normal (and sqrt(1) == 1) the point intersectRay
   * names lies on the plane.
   */
  lemma IntersectRayHitsPlane(lm: GenericMath.Libm, p: Plane, start: Vector3.Vector3f, rayDir: Vector3.Vector3f)
    requires lm.sqrt(1.0) == 1.0
    requires Dot3Value(p.data, p.data) == 1.0
    requires Dot3Value(rayDir.vec, p.data) != 0.0
    ensures CanNormalize(lm, p) && RayDenominator(lm, p, rayDir) != 0.0
    ensures Dot(p, PointAt(start, rayDir, IntersectRay(lm, p, start, rayDir))) == 0.0
  {
    UnitNormalLength(lm, p);
    UnitRayDenominator(lm, p, rayDir);
    IntersectRayOnPlane(lm, p, start, rayDir);
  }

  /** intersectLine(start, end): intersectRay along end - start. */
  function IntersectLine(lm: GenericMath.Libm, p: Plane, lineStart: Vector3.Vector3f, lineEnd: Vector3.Vector3f): (r: real)
    requires CanNormalize(lm, p) && RayDenominator(lm, p, Vector3.Minus(lineEnd, lineStart)) != 0.0
    ensures r * RayDenominator(lm, p, Vector3.Minus(lineEnd, lineStart)) == -Dot(p, lineStart)
  {
    IntersectRay(lm, p, lineStart, Vector3.Minus(lineEnd, lineStart))
  }

  /** The point start + (end - start) * t of intersectLine lies on a unit plane. */
  lemma IntersectLineHitsPlane(lm: GenericMath.Libm, p: Plane, lineStart: Vector3.Vector3f, lineEnd: Vector3.Vector3f)
    requires lm.sqrt(1.0) == 1.0
    requires Dot3Value(p.data, p.data) == 1.0
    requires Dot3Value(Vector3.Minus(lineEnd, lineStart).vec, p.data) != 0.0
    ensures CanNormalize(lm, p) && RayDenominator(lm, p, Vector3.Minus(lineEnd, lineStart)) != 0.0
    ensures Dot(p, PointAt(lineStart, Vector3.Minus(lineEnd, lineStart), IntersectLine(lm, p, lineStart, lineEnd))) == 0.0
  {
    IntersectRayHitsPlane(lm, p, lineStart, Vector3.Minus(lineEnd, lineStart));
  }

  /** The line test: the plane x = 1 meets the segment (0,0,0)-(2,0,0) halfway. */
  lemma IntersectLineExample(lm: GenericMath.Libm, p: Plane, a: Vector3.Vector3f, b: Vector3.Vector3f)
    requires lm.sqrt(1.0) == 1.0
    requires p == Plane(Vec4(1.0, 0.0, 0.0, -1.0))
    requires a == Vector3.Vector3f(Vec4(0.0, 0.0, 0.0, 0.0))
    requires b == Vector3.Vector3f(Vec4(2.0, 0.0, 0.0, 0.0))
    ensures CanNormalize(lm, p) && RayDenominator(lm, p, Vector3.Minus(b, a)) != 0.0
    ensures IntersectLine(lm, p, a, b) == 0.5
  {
    LineExampleDirection(a, b);
    IntersectRayExample(lm, p, a, Vector3.Minus(b, a));
  }

  /** (2,0,0) - (0,0,0) is (2,0,0). */
  lemma LineExampleDirection(a: Vector3.Vector3f, b: Vector3.Vector3f)
    requires a == Vector3.Vector3f(Vec4(0.0, 0.0, 0.0, 0.0))
    requires b == Vector3.Vector3f(Vec4(2.0, 0.0, 0.0, 0.0))
    ensures Vector3.Minus(b, a) == b
  {
  }

  /** The ray from the origin along (2,0,0) meets the plane x = 1 at t = 1/2. */
  lemma IntersectRayExample(lm: GenericMath.Libm, p: Plane, a: Vector3.Vector3f, dir: Vector3.Vector3f)
    requires lm.sqrt(1.0) == 1.0
    requires p == Plane(Vec4(1.0, 0.0, 0.0, -1.0))
    requires a == Vector3.Vector3f(Vec4(0.0, 0.0, 0.0, 0.0))
    requires dir == Vector3.Vector3f(Vec4(2.0, 0.0, 0.0, 0.0))
    ensures CanNormalize(lm, p) && RayDenominator(lm, p, dir) != 0.0
    ensures IntersectRay(lm, p, a, dir) == 0.5
  {
    RayExampleFacts(lm, p, a, dir);
    RayExampleValue(lm, p, a, dir);
  }

  /** The numbers of the example: |n| = 1, dir . n = 2 and dot(start) = -1. */
  lemma RayExampleFacts(lm: GenericMath.Libm, p: Plane, a: Vector3.Vector3f, dir: Vector3.Vector3f)
    requires lm.sqrt(1.0) == 1.0
    requires p == Plane(Vec4(1.0, 0.0, 0.0, -1.0))
    requires a == Vector3.Vector3f(Vec4(0.0, 0.0, 0.0, 0.0))
    requires dir == Vector3.Vector3f(Vec4(2.0, 0.0, 0.0, 0.0))
    ensures CanNormalize(lm, p) && RayDenominator(lm, p, dir) == 2.0 && Dot(p, a) == -1.0
  {
    UnitNormalLength(lm, p);
    UnitRayDenominator(lm, p, dir);
    DotFormula(p, a);
  }

  /** t (dir . n) == -dot(start) with dir . n = 2 and dot(start) = -1 gives t = 1/2. */
  lemma RayExampleValue(lm: GenericMath.Libm, p: Plane, a: Vector3.Vector3f, dir: Vector3.Vector3f)
    requires CanNormalize(lm, p) && RayDenominator(lm, p, dir) == 2.0 && Dot(p, a) == -1.0
    ensures IntersectRay(lm, p, a, dir) == 0.5
  {
    LineExampleValue(IntersectRay(lm, p, a, dir), RayDenominator(lm, p, dir), Dot(p, a));
  }

  lemma LineExampleValue(t: real, d: real, a: real)
    requires d == 2.0 && a == -1.0 && t * d == -a
    ensures t == 0.5
  {
  }

  // ---------------------------------------------------------------------
  // Reflection
  // ---------------------------------------------------------------------

  /**
   * reflect(point): the point with lane 3 set to 1, minus the plane times
   * twice its dot; the returned Vector3f keeps that lane 3.
   */
  function Reflect(p: Plane, point: Vector3.Vector3f): (r: Vector3.Vector3f)
    ensures r.vec == Reflection(point.vec, p.data, Dot(p, point))
  {
    var pointAsVector := Vector3.ToVectorW(point, 1.0);
    var s := Dot(p, point);
    assert Dot4(p.data, pointAsVector) == Load1f(s);
    var dotAmt := Mul(TWO, Dot4(p.data, pointAsVector));
    assert dotAmt == Load1f(2.0 * s);
    Vector3.Vector3f(Sub(pointAsVector, Mul(p.data, dotAmt)))
  }

  /** (x, y, z, 1) - 2 s n: the point moved by twice its signed distance s along n. */
  function Reflection(x: Vec4, n: Vec4, s: real): Vec4
  {
    Vec4(x.x - 2.0 * s * n.x, x.y - 2.0 * s * n.y, x.z - 2.0 * s * n.z, 1.0 - 2.0 * s * n.w)
  }

  /** The reflection, evaluated on the plane, is the negated value. */
  lemma ReflectedDot(n: Vec4, x: Vec4, r: Vec4, s: real)
    requires n.x * n.x + n.y * n.y + n.z * n.z == 1.0
    requires s == n.x * x.x + n.y * x.y + n.z * x.z + n.w
    requires r.x == x.x - 2.0 * s * n.x
    requires r.y == x.y - 2.0 * s * n.y
    requires r.z == x.z - 2.0 * s * n.z
    ensures n.x * r.x + n.y * r.y + n.z * r.z + n.w == -s
  {
    assert n.x * r.x + n.y * r.y + n.z * r.z
      == (n.x * x.x + n.y * x.y + n.z * x.z) - 2.0 * s * (n.x * n.x + n.y * n.y + n.z * n.z);
  }

  /** For a unit normal the reflected point lies as far on the other side. */
  lemma ReflectNegatesDot(p: Plane, point: Vector3.Vector3f)
    requires Dot3Value(p.data, p.data) == 1.0
    ensures Dot(p, Reflect(p, point)) == -Dot(p, point)
  {
    ReflectionValue(p, point, Reflect(p, point), Dot(p, point));
  }

  /** ReflectNegatesDot for the point r that Reflect's contract describes. */
  lemma ReflectionValue(p: Plane, point: Vector3.Vector3f, r: Vector3.Vector3f, s: real)
    requires Dot3Value(p.data, p.data) == 1.0
    requires s == Dot(p, point)
    requires r.vec == Reflection(point.vec, p.data, s)
    ensures Dot(p, r) == -s
  {
    DotFormula(p, point);
    DotFormula(p, r);
    ReflectedDot(p.data, point.vec, r.vec, s);
  }

  /** Vector3f's == holds when x, y and z agree. */
  lemma SameXyz(a: Vector3.Vector3f, b: Vector3.Vector3f)
    requires (a.vec.x, a.vec.y, a.vec.z) == (b.vec.x, b.vec.y, b.vec.z)
    ensures Vector3.Equal(a, b)
  {
    assert Vector3.Get(a, 0) == a.vec.x && Vector3.Get(b, 0) == b.vec.x;
    assert Vector3.Get(a, 1) == a.vec.y && Vector3.Get(b, 1) == b.vec.y;
    assert Vector3.Get(a, 2) == a.vec.z && Vector3.Get(b, 2) == b.vec.z;
  }

  /** Reflecting x - 2 s n with the negated value s' = -s adds 2 s n back. */
  lemma UndoReflection(x: real, n: real, s: real, s': real, once: real, twice: real)
    requires s' == -s
    requires once == x - 2.0 * s * n
    requires twice == once - 2.0 * s' * n
    ensures twice == x
  {
  }

  /** For a unit normal reflecting twice gives back x, y and z. */
  lemma ReflectTwice(p: Plane, point: Vector3.Vector3f)
    requires Dot3Value(p.data, p.data) == 1.0
    ensures Vector3.Equal(Reflect(p, Reflect(p, point)), point)
  {
    ReflectNegatesDot(p, point);
    var once := Reflect(p, point);
    ReflectedTwice(point.vec, p.data, Dot(p, point), Dot(p, once), once.vec, Reflect(p, once).vec);
    SameXyz(Reflect(p, once), point);
  }

  /** ReflectTwice lane by lane, for the values Reflect's contract describes. */
  lemma ReflectedTwice(x: Vec4, n: Vec4, s: real, s': real, once: Vec4, twice: Vec4)
    requires s' == -s
    requires once == Reflection(x, n, s)
    requires twice == Reflection(once, n, s')
    ensures (twice.x, twice.y, twice.z) == (x.x, x.y, x.z)
  {
    UndoReflection(x.x, n.x, s, s', once.x, twice.x);
    UndoReflection(x.y, n.y, s, s', once.y, twice.y);
    UndoReflection(x.z, n.z, s, s', once.z, twice.z);
  }

  /** Points on the plane are their own reflection, lane 3 becoming 1. */
  lemma ReflectFixesPlanePoints(p: Plane, point: Vector3.Vector3f)
    requires Dot(p, point) == 0.0
    ensures Reflect(p, point).vec == Vector3.ToVectorW(point, 1.0)
  {
    ReflectionAtZero(point.vec, p.data, Dot(p, point));
  }

  /** Moving by 2 s n with s = 0 only sets lane 3 to 1. */
  lemma ReflectionAtZero(x: Vec4, n: Vec4, s: real)
    requires s == 0.0
    ensures Reflection(x, n, s) == Vec4(x.x, x.y, x.z, 1.0)
  {
  }

  // ---------------------------------------------------------------------
  // Lane-wise operators
  // ---------------------------------------------------------------------

  /** abs(): every lane made non-negative. */
  function Abs(p: Plane): (r: Plane)
    ensures forall i | 0 <= i < 4 :: Lane(r.data, i) == GenericMath.Abs(Lane(p.data, i))
  {
    Plane(AbsV(p.data))
  }

  /** unary -: the same points, the normal flipped. */
  function Negated(p: Plane): (r: Plane)
    ensures Add(r.data, p.data) == ZERO
    ensures forall point: Vector3.Vector3f :: Dot(r, point) == -Dot(p, point)
  {
    Plane(Neg(p.data))
  }

  function Plus(p: Plane, other: Plane): (r: Plane)
    ensures forall i | 0 <= i < 4 :: Lane(r.data, i) == Lane(p.data, i) + Lane(other.data, i)
  {
    Plane(Add(p.data, other.data))
  }

  function Minus(p: Plane, other: Plane): (r: Plane)
    ensures Plus(r, other) == p
  {
    Plane(Sub(p.data, other.data))
  }

  function Times(p: Plane, other: Plane): (r: Plane)
    ensures forall i | 0 <= i < 4 :: Lane(r.data, i) == Lane(p.data, i) * Lane(other.data, i)
  {
    Plane(Mul(p.data, other.data))
  }

  /** Plane / Plane: lane-wise quotient; every lane of the divisor must be nonzero. */
  function Quotient(p: Plane, other: Plane): (r: Plane)
    requires NoZeroLane(other.data)
    ensures Times(r, other) == p
  {
    Plane(Div(p.data, other.data))
  }

  function TimesScalar(p: Plane, amt: real): (r: Plane)
    ensures forall i | 0 <= i < 4 :: Lane(r.data, i) == Lane(p.data, i) * amt
  {
    Plane(Mul(p.data, Load1f(amt)))
  }

  /** Plane / amt: multiplication by reciprocal(amt). */
  function QuotientScalar(p: Plane, amt: real): (r: Plane)
    requires amt != 0.0
    ensures TimesScalar(r, amt) == p
  {
    var q := Vector3.QuotientScalar(Vector3.Vector3f(p.data), amt);
    assert Vector3.TimesScalar(q, amt).vec == TimesScalar(Plane(q.vec), amt).data;
    Plane(q.vec)
  }

  /** Scaling a plane by a nonzero amount keeps its points. */
  lemma ScaledPlaneKeepsPoints(p: Plane, amt: real, point: Vector3.Vector3f)
    ensures Dot(TimesScalar(p, amt), point) == Dot(p, point) * amt
  {
    var r := TimesScalar(p, amt);
    assert r.data == Vec4(p.data.x * amt, p.data.y * amt, p.data.z * amt, p.data.w * amt);
  }

  // ---------------------------------------------------------------------
  // Comparisons
  // ---------------------------------------------------------------------

  /** operator==: no lane differs. */
  function Equal(p: Plane, other: Plane): (r: bool)
    ensures r <==> p == other
  {
    IsZero4f(Ne(p.data, other.data))
  }

  /**
   * operator!=: "no lane is equal", so every one of the four lanes must
   * differ; it is not the negation of ==.
   */
  function NotEqual(p: Plane, other: Plane): (r: bool)
    ensures r <==> forall i | 0 <= i < 4 :: Lane(p.data, i) != Lane(other.data, i)
  {
    assert Lane(p.data, 0) == p.data.x && Lane(p.data, 1) == p.data.y;
    assert Lane(p.data, 2) == p.data.z && Lane(p.data, 3) == p.data.w;
    assert Lane(other.data, 0) == other.data.x && Lane(other.data, 1) == other.data.y;
    assert Lane(other.data, 2) == other.data.z && Lane(other.data, 3) == other.data.w;
    IsZero4f(Eq(p.data, other.data))
  }

  /** Two planes that differ in one lane only are neither == nor !=. */
  lemma NotEqualIsNotNegation()
    ensures !Equal(Make(1.0, 0.0, 0.0, 0.0), Make(1.0, 0.0, 0.0, 1.0))
    ensures !NotEqual(Make(1.0, 0.0, 0.0, 0.0), Make(1.0, 0.0, 0.0, 1.0))
  {
    assert Lane(Make(1.0, 0.0, 0.0, 0.0).data, 0) == Lane(Make(1.0, 0.0, 0.0, 1.0).data, 0);
  }

  /** equals(other, margin): every lane within the margin. */
  function ApproxEquals(p: Plane, other: Plane, errorMargin: real): (r: bool)
    ensures r <==> forall i | 0 <= i < 4 :: GenericMath.Abs(Lane(p.data, i) - Lane(other.data, i)) < errorMargin
  {
    Matrices.RowNear(p.data, other.data, errorMargin);
    IsZero4f(NotEqualsMask(p.data, other.data, errorMargin))
  }

  // ---------------------------------------------------------------------
  // Intersection of three planes
  // ---------------------------------------------------------------------

  /** det = (n0 x n1) . n2, the triple product of the three normals. */
  function Det(p: Plane, other1: Plane, other2: Plane): real
  {
    Lane(Dot3(Cross3(p.data, other1.data), other2.data), 0)
  }

  /** The triple product read off from each of the three normals. */
  lemma TripleProducts(a: Vec4, b: Vec4, c: Vec4)
    ensures Dot3Value(a, Cross3(b, c)) == Dot3Value(Cross3(a, b), c)
    ensures Dot3Value(b, Cross3(c, a)) == Dot3Value(Cross3(a, b), c)
    ensures Dot3Value(c, Cross3(a, b)) == Dot3Value(Cross3(a, b), c)
  {
  }

  lemma Dot3AddRight(n: Vec4, a: Vec4, b: Vec4)
    ensures Dot3Value(n, Add(a, b)) == Dot3Value(n, a) + Dot3Value(n, b)
  {
  }

  lemma Dot3ScaleRight(n: Vec4, k: real, a: Vec4)
    ensures Dot3Value(n, Mul(Load1f(k), a)) == k * Dot3Value(n, a)
  {
  }

  /** w0 (n1 x n2) + w1 (n2 x n0) + w2 (n0 x n1). */
  function WeightedCrosses(p: Plane, other1: Plane, other2: Plane): Vec4
  {
    var cross01 := Cross3(p.data, other1.data);
    var cross12 := Cross3(other1.data, other2.data);
    var cross20 := Cross3(other2.data, p.data);
    Add(Add(Mul(Replicate(p.data, 3), cross12), Mul(Replicate(other1.data, 3), cross20)),
        Mul(Replicate(other2.data, 3), cross01))
  }

  /** n . (w0 c12 + w1 c20 + w2 c01) by linearity. */
  lemma DotWeighted(n: Vec4, w0: real, w1: real, w2: real, c12: Vec4, c20: Vec4, c01: Vec4)
    ensures Dot3Value(n, Add(Add(Mul(Load1f(w0), c12), Mul(Load1f(w1), c20)), Mul(Load1f(w2), c01))) ==
      w0 * Dot3Value(n, c12) + w1 * Dot3Value(n, c20) + w2 * Dot3Value(n, c01)
  {
    Dot3AddRight(n, Add(Mul(Load1f(w0), c12), Mul(Load1f(w1), c20)), Mul(Load1f(w2), c01));
    Dot3AddRight(n, Mul(Load1f(w0), c12), Mul(Load1f(w1), c20));
    Dot3ScaleRight(n, w0, c12);
    Dot3ScaleRight(n, w1, c20);
    Dot3ScaleRight(n, w2, c01);
  }

  /** Each normal against the weighted crosses: its own offset times det. */
  lemma WeightedCrossesDots(p: Plane, other1: Plane, other2: Plane)
    ensures Dot3Value(p.data, WeightedCrosses(p, other1, other2)) == p.data.w * Det(p, other1, other2)
    ensures Dot3Value(other1.data, WeightedCrosses(p, other1, other2)) == other1.data.w * Det(p, other1, other2)
    ensures Dot3Value(other2.data, WeightedCrosses(p, other1, other2)) == other2.data.w * Det(p, other1, other2)
  {
    var n0, n1, n2 := p.data, other1.data, other2.data;
    var c01, c12, c20 := Cross3(n0, n1), Cross3(n1, n2), Cross3(n2, n0);
    assert Replicate(n0, 3) == Load1f(n0.w) && Replicate(n1, 3) == Load1f(n1.w) && Replicate(n2, 3) == Load1f(n2.w);
    TripleProducts(n0, n1, n2);
    Cross3Orthogonal(n0, n1);
    Cross3Orthogonal(n1, n2);
    Cross3Orthogonal(n2, n0);
    assert Dot3Value(n0, c20) == 0.0 && Dot3Value(n0, c01) == 0.0;
    assert Dot3Value(n1, c12) == 0.0 && Dot3Value(n1, c01) == 0.0;
    assert Dot3Value(n2, c12) == 0.0 && Dot3Value(n2, c20) == 0.0;
    DotWeighted(n0, n0.w, n1.w, n2.w, c12, c20, c01);
    DotWeighted(n1, n0.w, n1.w, n2.w, c12, c20, c01);
    DotWeighted(n2, n0.w, n1.w, n2.w, c12, c20, c01);
  }

  /** A plane's value at -(1/det) times the weighted crosses. */
  lemma DotAtIntersection(n: Vec4, v: Vec4, k: real, det: real)
    requires k * det == 1.0
    requires Dot3Value(n, v) == n.w * det
    ensures Dot3Value(n, Mul(Load1f(-k), v)) + n.w == 0.0
  {
    Dot3ScaleRight(n, -k, v);
    assert -k * (n.w * det) == -(n.w * (k * det));
  }

  /**
   * The point intersectPlanes writes: -(1/det) times the weighted crosses.
   * It lies on all three planes.
   */
  function IntersectionPoint(p: Plane, other1: Plane, other2: Plane): (r: Vector3.Vector3f)
    requires Det(p, other1, other2) != 0.0
    ensures Dot(p, r) == 0.0 && Dot(other1, r) == 0.0 && Dot(other2, r) == 0.0
  {
    var det := Det(p, other1, other2);
    var k := GenericMath.Reciprocal(det);
    var v := WeightedCrosses(p, other1, other2);
    WeightedCrossesDots(p, other1, other2);
    DotAtIntersection(p.data, v, k, det);
    DotAtIntersection(other1.data, v, k, det);
    DotAtIntersection(other2.data, v, k, det);
    Vector3.Vector3f(Mul(Load1f(-k), v))
  }

  /**
   * intersectPlanes(point, other1, other2, errorMargin): when det^2 is below
   * the margin the planes count as parallel, false is returned and the
   * point is not written; otherwise the common point is written.
   */
  method IntersectPlanes(p: Plane, intersectionPoint: Vector3.Vector3fVar, other1: Plane, other2: Plane,
                         errorMargin: real) returns (found: bool)
    requires 0.0 < errorMargin
    modifies intersectionPoint
    ensures found <==> !(Det(p, other1, other2) * Det(p, other1, other2) < errorMargin)
    ensures !found ==> intersectionPoint.Value() == old(intersectionPoint.Value())
    ensures found ==> (Det(p, other1, other2) != 0.0 &&
      intersectionPoint.Value() == IntersectionPoint(p, other1, other2))
  {
    var cross01 := Cross3(p.data, other1.data);
    var det := Lane(Dot3(cross01, other2.data), 0);
    var detSq := det * det;
    if detSq < errorMargin {
      return false;
    }
    intersectionPoint.vec := IntersectionPoint(p, other1, other2).vec;
    return true;
  }

  /** The planes x = a, y = b and z = c, with normals along the axes. */
  predicate AxisPlanes(p1: Plane, p2: Plane, p3: Plane, a: real, b: real, c: real)
  {
    (Coefficients(p1), Coefficients(p2), Coefficients(p3)) ==
    ((1.0, 0.0, 0.0, -a), (0.0, 1.0, 0.0, -b), (0.0, 0.0, 1.0, -c))
  }

  /** The four coefficients of ax + by + cz + d. */
  function Coefficients(p: Plane): (real, real, real, real)
  {
    (p.data.x, p.data.y, p.data.z, p.data.w)
  }

  /**
   * The axis normals are a right-handed unit frame: det = 1, so with the
   * default margin 1e-8 intersectPlanes does not report them parallel.
   */
  lemma AxisDet(p1: Plane, p2: Plane, p3: Plane, a: real, b: real, c: real)
    requires AxisPlanes(p1, p2, p3, a, b, c)
    ensures Det(p1, p2, p3) == 1.0
  {
  }

  /**
   * A point on x = a, y = b and z = c is (a, b, c): with IntersectionPoint's
   * contract, the point intersectPlanes writes for the test's planes is (1, 1, 1).
   */
  lemma AxisPoint(p1: Plane, p2: Plane, p3: Plane, a: real, b: real, c: real, q: Vector3.Vector3f)
    requires AxisPlanes(p1, p2, p3, a, b, c)
    requires (Dot(p1, q), Dot(p2, q), Dot(p3, q)) == (0.0, 0.0, 0.0)
    ensures q.vec.x == a && q.vec.y == b && q.vec.z == c
  {
    DotFormula(p1, q);
    DotFormula(p2, q);
    DotFormula(p3, q);
  }

  // ---------------------------------------------------------------------
  // Transformation
  // ---------------------------------------------------------------------

  /** The plane vector moved by the normal matrix, before normalisation. */
  function NormalTransformed(p: Plane, transform: Mat4): Plane
    requires Det4(transform) != 0.0
  {
    Plane(Transform(p.data, Matrices.NormalMatrix(transform)))
  }

  /** transform(m): the plane moved by m's normal matrix, then normalized. */
  function TransformPlane(lm: GenericMath.Libm, p: Plane, transform: Mat4): Plane
    requires Det4(transform) != 0.0 && CanNormalize(lm, NormalTransformed(p, transform))
  {
    Normalized(lm, NormalTransformed(p, transform), 0.00000001)
  }

  /**
   * A point u on the plane moves onto the transformed plane: the value of the
   * transformed plane at m u is the value of the plane at u divided by a
   * fixed length.
   */
  lemma TransformPlaneKeepsIncidence(lm: GenericMath.Libm, p: Plane, transform: Mat4, u: Vec4)
    requires Det4(transform) != 0.0 && CanNormalize(lm, NormalTransformed(p, transform))
    ensures DotVector(TransformPlane(lm, p, transform), Transform(u, transform)) *
      NormalLength(lm, NormalTransformed(p, transform)) == DotVector(p, u)
    ensures DotVector(p, u) == 0.0 <==> DotVector(TransformPlane(lm, p, transform), Transform(u, transform)) == 0.0
  {
    var q := NormalTransformed(p, transform);
    NormalizedKeepsPoints(lm, q, 0.00000001, Transform(u, transform));
    Matrices.NormalMatrixKeepsDot(transform, p.data, u);
    DotCommutes(q.data, Transform(u, transform));
    DotCommutes(p.data, u);
  }

  lemma DotCommutes(a: Vec4, b: Vec4)
    ensures Dot4Value(a, b) == Dot4Value(b, a)
  {
  }

  // ---------------------------------------------------------------------
  // A plane variable: the compound operators
  // ---------------------------------------------------------------------

  /** A Plane variable: the compound operators overwrite `data` and return a copy. */
  class PlaneVar {
    var data: Vec4

    function Value(): Plane
      reads this
    {
      Plane(data)
    }

    constructor (p: Plane)
      ensures Value() == p
    {
      data := p.data;
    }

    method AddAssign(other: Plane) returns (r: Plane)
      modifies this
      ensures Value() == Plus(old(Value()), other) && r == Value()
    {
      data := Add(data, other.data);
      r := Value();
    }

    method SubAssign(other: Plane) returns (r: Plane)
      modifies this
      ensures Value() == Minus(old(Value()), other) && r == Value()
    {
      data := Sub(data, other.data);
      r := Value();
    }

    method MulAssign(other: Plane) returns (r: Plane)
      modifies this
      ensures Value() == Times(old(Value()), other) && r == Value()
    {
      data := Mul(data, other.data);
      r := Value();
    }

    method DivAssign(other: Plane) returns (r: Plane)
      requires NoZeroLane(other.data)
      modifies this
      ensures Value() == Quotient(old(Value()), other) && r == Value()
    {
      data := Div(data, other.data);
      r := Value();
    }

    method MulScalarAssign(val: real) returns (r: Plane)
      modifies this
      ensures Value() == TimesScalar(old(Value()), val) && r == Value()
    {
      data := Mul(data, Load1f(val));
      r := Value();
    }

    method DivScalarAssign(val: real) returns (r: Plane)
      requires val != 0.0
      modifies this
      ensures Value() == QuotientScalar(old(Value()), val) && r == Value()
    {
      data := Mul(data, Load1f(GenericMath.Reciprocal(val)));
      r := Value();
    }
  }
}
