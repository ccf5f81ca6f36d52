/**
 * Sphere: the center and the radius packed into one four-lane vector,
 * [cx, cy, cz, r].  Containment and intersection are strict and take an
 * error margin (1e-4 by default) that is added to the radius.
 */
module Spheres {
  import GenericMath
  import opened GenericVecmath
  import Vecmath
  import Vector3
  import Boxes
  import Matrices
  import Quaternions

  /** The default errorMargin of intersects, contains and equals. */
  const DEFAULT_MARGIN: real := 0.0001

  datatype Sphere = Sphere(data: Vec4)

  /** The x, y and z of a point; lane 3 of a Vector3f plays no part in its geometry. */
  function Xyz(p: Vector3.Vector3f): (real, real, real)
  {
    (p.vec.x, p.vec.y, p.vec.z)
  }

  // ---------------------------------------------------------------------
  // Packing
  // ---------------------------------------------------------------------

  /** getRadius(): lane 3. */
  function Radius(s: Sphere): real
  {
    s.data.w
  }

  /** getCenter(): the packed vector as a Vector3f (its lane 3 still holds the radius). */
  function Center(s: Sphere): Vector3.Vector3f
  {
    Vector3.Vector3f(s.data)
  }

  /** Sphere(center, radius): getCenter and getRadius read the two parts back. */
  function FromCenterRadius(center: Vector3.Vector3f, radius: real): (r: Sphere)
    ensures Xyz(Center(r)) == Xyz(center) && Radius(r) == radius
  {
    Sphere(Vector3.ToVectorW(center, radius))
  }

  /** toVector(): the packed lanes. */
  function ToVector(s: Sphere): Vec4
  {
    s.data
  }

  /** Unpacking and repacking gives the same sphere. */
  lemma PackingRoundTrip(s: Sphere)
    ensures FromCenterRadius(Center(s), Radius(s)) == s
    ensures ToVector(s) == Vec4(Center(s).vec.x, Center(s).vec.y, Center(s).vec.z, Radius(s))
  {
  }

  // ---------------------------------------------------------------------
  // Intersection and containment
  // ---------------------------------------------------------------------

  /** Squared distance between the two centers (dot3 of the packed difference). */
  function CenterDistSquared(s: Sphere, other: Sphere): real
  {
    var dist := Sub(s.data, other.data);
    Dot3Value(dist, dist)
  }

  /** The packed difference gives the squared distance between the centers. */
  lemma CenterDistSquaredIsDistance(s: Sphere, other: Sphere)
    ensures CenterDistSquared(s, other) == Vector3.DistSquared(Center(other), Center(s))
  {
    DistSquaredValue(Center(other), Center(s));
  }

  /** distSquared as a dot product of the lane differences. */
  lemma DistSquaredValue(a: Vector3.Vector3f, b: Vector3.Vector3f)
    ensures Vector3.DistSquared(a, b) == Dot3Value(Sub(b.vec, a.vec), Sub(b.vec, a.vec))
  {
  }

  /** A point of the closed ball, on the lanes: |c - p|^2 <= r^2 with c, r packed in data. */
  lemma InClosedBallValue(s: Sphere, p: Vector3.Vector3f)
    ensures (Vector3.DistSquared(p, Center(s)) <= Radius(s) * Radius(s)) ==
      (Dot3Value(Sub(s.data, p.vec), Sub(s.data, p.vec)) <= s.data.w * s.data.w)
  {
    DistSquaredValue(p, Center(s));
  }

  /** |a - b|^2 == |b - a|^2, and both are non-negative. */
  lemma SquaredDifferenceSymmetric(a: Vec4, b: Vec4)
    ensures Dot3Value(Sub(a, b), Sub(a, b)) == Dot3Value(Sub(b, a), Sub(b, a))
    ensures 0.0 <= Dot3Value(Sub(a, b), Sub(a, b))
  {
    var d := Sub(a, b);
    var e := Sub(b, a);
    assert e.x == -d.x && e.y == -d.y && e.z == -d.z;
    assert e.x * e.x == d.x * d.x && e.y * e.y == d.y * d.y && e.z * e.z == d.z * d.z;
  }

  /** intersects(other, margin): |c1 - c2|^2 < max(0, r1 + r2 + margin)^2. */
  function Intersects(s: Sphere, other: Sphere, errorMargin: real): bool
  {
    var maxR := GenericMath.Max(0.0, Radius(s) + Radius(other) + errorMargin);
    CenterDistSquared(s, other) < maxR * maxR
  }

  /** intersects does not depend on the order of the two spheres. */
  lemma IntersectsSymmetric(s: Sphere, other: Sphere, errorMargin: real)
    ensures Intersects(s, other, errorMargin) == Intersects(other, s, errorMargin)
  {
    SquaredDifferenceSymmetric(s.data, other.data);
    assert Radius(s) + Radius(other) == Radius(other) + Radius(s);
  }

  /**
   * With an exact square root, two spheres intersect iff their centers are
   * closer than the sum of the radii and the margin.
   */
  lemma IntersectsIffDistance(lm: GenericMath.Libm, s: Sphere, other: Sphere, errorMargin: real)
    requires GenericMath.SqrtIsExact(lm)
    ensures Intersects(s, other, errorMargin) <==>
      lm.sqrt(CenterDistSquared(s, other)) < Radius(s) + Radius(other) + errorMargin
  {
    var n := CenterDistSquared(s, other);
    SquaredDifferenceSymmetric(s.data, other.data);
    var bound := Radius(s) + Radius(other) + errorMargin;
    var m := GenericMath.Max(0.0, bound);
    assert Intersects(s, other, errorMargin) == (n < m * m);
    SqrtBelow(lm, n, m, bound);
  }

  /** For n >= 0 and m = max(0, b): sqrt(n) < b iff n < m^2. */
  lemma SqrtBelow(lm: GenericMath.Libm, n: real, m: real, b: real)
    requires GenericMath.SqrtIsExact(lm)
    requires 0.0 <= n && m == GenericMath.Max(0.0, b)
    ensures lm.sqrt(n) < b <==> n < m * m
  {
    var d := lm.sqrt(n);
    assert 0.0 <= d && d * d == n;
    if b > 0.0 {
      SquareBelow(d, b);
    }
  }

  /** For non-negative d and b: d < b iff d^2 < b^2. */
  lemma SquareBelow(d: real, b: real)
    requires 0.0 <= d && 0.0 <= b
    ensures d < b <==> d * d < b * b
  {
    if d < b {
      assert d * b - d * d == d * (b - d) && 0.0 <= d * (b - d);
      assert b * b - d * b == b * (b - d) && 0.0 < b * (b - d);
    } else {
      assert b * d - b * b == b * (d - b) && 0.0 <= b * (d - b);
      assert d * d - b * d == d * (d - b) && 0.0 <= d * (d - b);
    }
  }

  /** contains(point, margin): |p - c|^2 < (r + margin)^2. */
  function ContainsPoint(s: Sphere, point: Vector3.Vector3f, errorMargin: real): bool
  {
    var r := Radius(s) + errorMargin;
    Vector3.DistSquared(point, Center(s)) < r * r
  }

  /** contains(point) on the lanes: |c - p|^2 < (r + margin)^2. */
  lemma ContainsPointValue(s: Sphere, point: Vector3.Vector3f, errorMargin: real, bound: real)
    requires bound == Radius(s) + errorMargin
    ensures ContainsPoint(s, point, errorMargin) ==
      (Dot3Value(Sub(s.data, point.vec), Sub(s.data, point.vec)) < bound * bound)
  {
    DistSquaredValue(point, Center(s));
  }

  /**
   * With an exact square root and r + margin >= 0, a point is contained iff
   * it is closer to the center than r + margin.
   */
  lemma ContainsPointIffDistance(lm: GenericMath.Libm, s: Sphere, point: Vector3.Vector3f, errorMargin: real)
    requires GenericMath.SqrtIsExact(lm)
    requires 0.0 <= Radius(s) + errorMargin
    ensures ContainsPoint(s, point, errorMargin) <==>
      lm.sqrt(Vector3.DistSquared(point, Center(s))) < Radius(s) + errorMargin
  {
    var b := Radius(s) + errorMargin;
    SqrtBelow(lm, Vector3.DistSquared(point, Center(s)), b, b);
  }

  /**
   * contains(other, margin): false when r < r_o + margin (the rest of the
   * test is blind to which sphere is larger); otherwise
   * |c - c_o|^2 < (margin + r - r_o)^2.
   */
  function ContainsSphere(s: Sphere, other: Sphere, errorMargin: real): bool
  {
    if Radius(s) < Radius(other) + errorMargin then false
    else
      var dataDist := Sub(s.data, other.data);
      var r := errorMargin + dataDist.w;
      CenterDistSquared(s, other) < r * r
  }

  /**
   * A sphere that contains other contains (in the point sense) every point
   * of the closed ball of other, when the margin and other's radius are
   * non-negative.
   */
  lemma ContainedSpherePoints(s: Sphere, other: Sphere, errorMargin: real, p: Vector3.Vector3f)
    requires 0.0 <= errorMargin && 0.0 <= Radius(other)
    requires ContainsSphere(s, other, errorMargin)
    requires Vector3.DistSquared(p, Center(other)) <= Radius(other) * Radius(other)
    ensures ContainsPoint(s, p, errorMargin)
  {
    var u := Sub(p.vec, other.data);
    var v := Sub(other.data, s.data);
    var gap := errorMargin + Radius(s) - Radius(other);
    DistSquaredValue(p, Center(other));
    DistSquaredValue(p, Center(s));
    SquaredDifferenceSymmetric(p.vec, other.data);
    SquaredDifferenceSymmetric(p.vec, s.data);
    assert Sub(p.vec, s.data) == Add(u, v);
    TriangleSquared(u, v, Radius(other), gap);
  }

  /** |u| <= a and |v| < b with a, b >= 0 give |u + v| < a + b, in squares. */
  lemma TriangleSquared(u: Vec4, v: Vec4, a: real, b: real)
    requires 0.0 <= a && 0.0 <= b
    requires Dot3Value(u, u) <= a * a && Dot3Value(v, v) < b * b
    ensures Dot3Value(Add(u, v), Add(u, v)) < (a + b) * (a + b)
  {
    var uv := Dot3Value(u, v);
    CauchySchwarz(u, v);
    ProductBelow(Dot3Value(u, u), a * a, Dot3Value(v, v), b * b);
    assert (a * b) * (a * b) == (a * a) * (b * b);
    if 0.0 <= uv {
      SquareBelow(a * b, uv);
    }
    assert uv <= a * b;
    assert Dot3Value(Add(u, v), Add(u, v)) == Dot3Value(u, u) + 2.0 * uv + Dot3Value(v, v);
  }

  /** (u . v)^2 <= |u|^2 |v|^2 on x, y and z (Lagrange's identity). */
  lemma CauchySchwarz(u: Vec4, v: Vec4)
    ensures Dot3Value(u, v) * Dot3Value(u, v) <= Dot3Value(u, u) * Dot3Value(v, v)
  {
    var c1 := u.y * v.z - u.z * v.y;
    var c2 := u.z * v.x - u.x * v.z;
    var c3 := u.x * v.y - u.y * v.x;
    assert Dot3Value(u, u) * Dot3Value(v, v) - Dot3Value(u, v) * Dot3Value(u, v) == c1 * c1 + c2 * c2 + c3 * c3;
  }

  /** 0 <= x <= a and 0 <= y <= b give x y <= a b. */
  lemma ProductBelow(x: real, a: real, y: real, b: real)
    requires 0.0 <= x <= a && 0.0 <= y <= b
    ensures x * y <= a * b
  {
    assert x * y <= a * y <= a * b;
  }

  // ---------------------------------------------------------------------
  // Moving, growing and scaling
  // ---------------------------------------------------------------------

  /** expand(distance): adds distance to lane 3 only. */
  function Expand(s: Sphere, distance: real): (r: Sphere)
    ensures Xyz(Center(r)) == Xyz(Center(s)) && Radius(r) == Radius(s) + distance
  {
    Sphere(Add(s.data, Vec4(0.0, 0.0, 0.0, distance)))
  }

  /** Growing a sphere by d is the same as testing it with a margin larger by d. */
  lemma ExpandIsMargin(s: Sphere, distance: real, other: Sphere, point: Vector3.Vector3f, errorMargin: real)
    ensures Intersects(Expand(s, distance), other, errorMargin) == Intersects(s, other, errorMargin + distance)
    ensures ContainsPoint(Expand(s, distance), point, errorMargin) == ContainsPoint(s, point, errorMargin + distance)
  {
    var e := Expand(s, distance);
    assert CenterDistSquared(e, other) == CenterDistSquared(s, other);
    assert Vector3.DistSquared(point, Center(e)) == Vector3.DistSquared(point, Center(s)) by {
      DistSquaredValue(point, Center(e));
      DistSquaredValue(point, Center(s));
    }
  }

  /** moveTo(destination): the given center with the old radius. */
  function MoveTo(s: Sphere, destination: Vector3.Vector3f): (r: Sphere)
    ensures Xyz(Center(r)) == Xyz(destination) && Radius(r) == Radius(s)
  {
    FromCenterRadius(destination, Radius(s))
  }

  /** Only the last destination of two moves counts. */
  lemma MoveToLastWins(s: Sphere, a: Vector3.Vector3f, b: Vector3.Vector3f)
    ensures MoveTo(MoveTo(s, a), b) == MoveTo(s, b)
  {
  }

  /** translate(amt): adds amt to the center (amt.toVector(0) leaves lane 3 alone). */
  function Translate(s: Sphere, amt: Vector3.Vector3f): (r: Sphere)
    ensures Xyz(Center(r)) == Xyz(Vector3.Plus(Center(s), amt)) && Radius(r) == Radius(s)
  {
    Sphere(Add(s.data, Vector3.ToVectorW(amt, 0.0)))
  }

  /** A translated sphere contains the translated point exactly when the original contains the point. */
  lemma TranslateKeepsContainment(s: Sphere, amt: Vector3.Vector3f, point: Vector3.Vector3f, errorMargin: real)
    ensures ContainsPoint(Translate(s, amt), Vector3.Plus(point, amt), errorMargin) == ContainsPoint(s, point, errorMargin)
  {
    var t := Translate(s, amt);
    var q := Vector3.Plus(point, amt);
    DistSquaredValue(q, Center(t));
    DistSquaredValue(point, Center(s));
    assert Sub(Center(t).vec, q.vec).x == Sub(Center(s).vec, point.vec).x;
    assert Sub(Center(t).vec, q.vec).y == Sub(Center(s).vec, point.vec).y;
    assert Sub(Center(t).vec, q.vec).z == Sub(Center(s).vec, point.vec).z;
  }

  /** scaleFromCenter(amt): multiplies lane 3 only. */
  function ScaleFromCenter(s: Sphere, amt: real): (r: Sphere)
    ensures Xyz(Center(r)) == Xyz(Center(s)) && Radius(r) == Radius(s) * amt
  {
    Sphere(Mul(s.data, Vec4(1.0, 1.0, 1.0, amt)))
  }

  /** scaleFromOrigin(amt): multiplies all four lanes, so the center and the radius both scale. */
  function ScaleFromOrigin(s: Sphere, amt: real): (r: Sphere)
    ensures Xyz(Center(r)) == Xyz(Vector3.TimesScalar(Center(s), amt)) && Radius(r) == Radius(s) * amt
  {
    Sphere(Mul(s.data, Load1f(amt)))
  }

  /** Scaling from the origin by k > 0 maps a contained point k p into the scaled sphere (margin scaled too). */
  lemma ScaleFromOriginKeepsContainment(s: Sphere, k: real, point: Vector3.Vector3f, errorMargin: real)
    requires 0.0 < k
    ensures ContainsPoint(ScaleFromOrigin(s, k), Vector3.TimesScalar(point, k), errorMargin * k) ==
      ContainsPoint(s, point, errorMargin)
  {
    var t := ScaleFromOrigin(s, k);
    var q := Vector3.TimesScalar(point, k);
    ContainsPointValue(t, q, errorMargin * k, Radius(t) + errorMargin * k);
    ContainsPointValue(s, point, errorMargin, Radius(s) + errorMargin);
    var d := Sub(s.data, point.vec);
    var e := Sub(t.data, q.vec);
    assert t.data == Mul(s.data, Load1f(k)) && q.vec == Mul(point.vec, Load1f(k));
    ScaledDifference(s.data, point.vec, k);
    ScaledSquares(d, e, k);
    ScaledBelow(Dot3Value(d, d), Dot3Value(e, e), Radius(s) + errorMargin, Radius(t) + errorMargin * k, k);
  }

  /** k a - k p = k (a - p), lane by lane. */
  lemma ScaledDifference(a: Vec4, p: Vec4, k: real)
    ensures Sub(Mul(a, Load1f(k)), Mul(p, Load1f(k))) == Mul(Sub(a, p), Load1f(k))
  {
  }

  /** e = k d gives |e|^2 = k^2 |d|^2. */
  lemma ScaledSquares(d: Vec4, e: Vec4, k: real)
    requires e == Mul(d, Load1f(k))
    ensures Dot3Value(e, e) == k * k * Dot3Value(d, d)
  {
  }

  /** For k > 0, n' = k^2 n and b' = b k: n' < b'^2 iff n < b^2. */
  lemma ScaledBelow(n: real, n': real, b: real, b': real, k: real)
    requires 0.0 < k && n' == k * k * n && b' == b * k
    ensures n' < b' * b' <==> n < b * b
  {
    var kn := k * n;
    var kbb := k * (b * b);
    assert n' == k * kn;
    assert b' * b' == k * kbb;
    StrictScale(k, n, b * b, kn, kbb);
    StrictScale(k, kn, kbb, n', b' * b');
  }

  /** For c > 0, x' = c x and y' = c y: x' < y' iff x < y. */
  lemma StrictScale(c: real, x: real, y: real, x': real, y': real)
    requires 0.0 < c && x' == c * x && y' == c * y
    ensures x' < y' <==> x < y
  {
    assert y' - x' == c * (y - x);
  }

  /** getVolume(): pi 4/3 r^3; pi is a parameter, where the source uses MATH_PI. */
  function Volume(pi: real, s: Sphere): (r: real)
    ensures 0.0 <= pi && 0.0 <= Radius(s) ==> 0.0 <= r
  {
    var radius := Radius(s);
    Cube(radius);
    pi * 4.0 / 3.0 * radius * radius * radius
  }

  /** A non-negative number has a non-negative cube. */
  lemma Cube(x: real)
    ensures 0.0 <= x ==> 0.0 <= x * x * x
  {
    if 0.0 <= x {
      assert 0.0 <= x * x;
    }
  }

  /** The volume scales with the cube of the factor under scaleFromCenter and scaleFromOrigin. */
  lemma VolumeScales(pi: real, s: Sphere, k: real)
    ensures Volume(pi, ScaleFromCenter(s, k)) == k * k * k * Volume(pi, s)
    ensures Volume(pi, ScaleFromOrigin(s, k)) == k * k * k * Volume(pi, s)
  {
    var r := Radius(s);
    assert (r * k) * (r * k) * (r * k) == k * k * k * (r * r * r);
  }

  // ---------------------------------------------------------------------
  // Comparisons
  // ---------------------------------------------------------------------

  /** operator==: no lane differs, so it is exact equality of the packed vectors. */
  function Equal(s: Sphere, other: Sphere): (r: bool)
    ensures r <==> s == other
  {
    IsZero4f(Ne(s.data, other.data))
  }

  /** operator!=: no lane is equal, so all four lanes must differ; it is not the negation of ==. */
  function NotEqual(s: Sphere, other: Sphere): (r: bool)
    ensures r <==> forall i | 0 <= i < 4 :: Lane(s.data, i) != Lane(other.data, i)
  {
    assert Lane(s.data, 0) == s.data.x && Lane(s.data, 1) == s.data.y;
    assert Lane(s.data, 2) == s.data.z && Lane(s.data, 3) == s.data.w;
    assert Lane(other.data, 0) == other.data.x && Lane(other.data, 1) == other.data.y;
    assert Lane(other.data, 2) == other.data.z && Lane(other.data, 3) == other.data.w;
    IsZero4f(Eq(s.data, other.data))
  }

  /** Two spheres with the same center and different radii are neither == nor !=. */
  lemma NotEqualIsNotNegation(s: Sphere, other: Sphere)
    requires s.data == Vec4(1.0, 0.0, 0.0, 1.0) && other.data == Vec4(1.0, 0.0, 0.0, 2.0)
    ensures !Equal(s, other) && !NotEqual(s, other)
  {
    assert Lane(s.data, 0) == Lane(other.data, 0);
  }

  /** equals(other, margin): every lane, radius included, within the margin. */
  function ApproxEquals(s: Sphere, other: Sphere, errorMargin: real): (r: bool)
    ensures r <==> forall i | 0 <= i < 4 :: GenericMath.Abs(Lane(s.data, i) - Lane(other.data, i)) < errorMargin
  {
    Matrices.RowNear(s.data, other.data, errorMargin);
    IsZero4f(NotEqualsMask(s.data, other.data, errorMargin))
  }

  /** With a positive margin, == implies equals. */
  lemma EqualImpliesApproxEquals(s: Sphere, other: Sphere, errorMargin: real)
    requires 0.0 < errorMargin && Equal(s, other)
    ensures ApproxEquals(s, other, errorMargin)
  {
    forall i | 0 <= i < 4
      ensures GenericMath.Abs(Lane(s.data, i) - Lane(other.data, i)) < errorMargin
    {
      assert Lane(s.data, i) - Lane(other.data, i) == 0.0;
    }
  }

  // ---------------------------------------------------------------------
  // Transformation
  // ---------------------------------------------------------------------

  /** The largest squared norm of rows 0-2 over x, y and z, the factor transform() takes the root of. */
  function MaxRowSquared(m: Mat4): real
  {
    GenericMath.Max3(Dot3Value(m[0], m[0]), Dot3Value(m[1], m[1]), Dot3Value(m[2], m[2]))
  }

  /**
   * transform(m) as written: the center (c, 1) goes through m and the radius
   * is multiplied by the square root of the largest squared row norm.
   */
  function TransformSphere(lm: GenericMath.Libm, s: Sphere, m: Mat4): Sphere
  {
    var center := Transform(Vector3.ToVectorW(Center(s), 1.0), m);
    FromCenterRadius(Vector3.Vector3f(center), Radius(s) * lm.sqrt(MaxRowSquared(m)))
  }

  /** The image of a point (p, 1) under m, as a Vector3f. */
  function TransformPoint(p: Vector3.Vector3f, m: Mat4): Vector3.Vector3f
  {
    Vector3.Vector3f(Transform(Vector3.ToVectorW(p, 1.0), m))
  }

  /** Transforming by translate(amt) is translate(amt). */
  lemma TransformByTranslation(lm: GenericMath.Libm, s: Sphere, amt: Vector3.Vector3f, m: Mat4, r: Sphere)
    requires lm.sqrt(1.0) == 1.0
    requires m == Matrices.Translate(amt) && r == TransformSphere(lm, s, m)
    ensures Xyz(Center(r)) == Xyz(Center(Translate(s, amt))) && Radius(r) == Radius(s)
  {
    assert MaxRowSquared(m) == 1.0;
  }

  /** Transforming by scale(k) with k >= 0 is scaleFromOrigin(k). */
  lemma TransformByUniformScale(lm: GenericMath.Libm, s: Sphere, k: real, m: Mat4, r: Sphere)
    requires GenericMath.SqrtIsExact(lm) && 0.0 <= k
    requires m == Matrices.ScaleUniform(k) && r == TransformSphere(lm, s, m)
    ensures Xyz(Center(r)) == Xyz(Center(ScaleFromOrigin(s, k)))
    ensures Radius(r) == Radius(ScaleFromOrigin(s, k))
  {
    UniformScaleRows(k, m);
    var n := MaxRowSquared(m);
    Quaternions.SqrtOfPositiveSquare(lm, n, k);
    var c := Vector3.ToVectorW(Center(s), 1.0);
    var t := Vector3.TimesScalar(Center(s), k);
    assert Lane(t.vec, 0) == s.data.x * k && Lane(t.vec, 1) == s.data.y * k && Lane(t.vec, 2) == s.data.z * k;
    assert Lane(Transform(c, m), 0) == Dot4Value(c, m[0]);
    assert Lane(Transform(c, m), 1) == Dot4Value(c, m[1]);
    assert Lane(Transform(c, m), 2) == Dot4Value(c, m[2]);
    assert Dot4Value(c, m[0]) == s.data.x * k;
    assert Dot4Value(c, m[1]) == s.data.y * k;
    assert Dot4Value(c, m[2]) == s.data.z * k;
    assert Xyz(Center(r)) == Xyz(Vector3.Vector3f(Transform(c, m)));
  }

  /** The rows of scale(k): k on the diagonal, so every row of the 3x3 block has squared norm k k. */
  lemma UniformScaleRows(k: real, m: Mat4)
    requires m == Matrices.ScaleUniform(k)
    ensures m[0] == Vec4(k, 0.0, 0.0, 0.0) && m[1] == Vec4(0.0, k, 0.0, 0.0) && m[2] == Vec4(0.0, 0.0, k, 0.0)
    ensures MaxRowSquared(m) == k * k
  {
  }

  /** The upper 3x3 block of m is R(a, b) scale(k, 1, 1): a rotation about z with cosine a and sine b, after stretching x by k. */
  predicate RotatedStretch(m: Mat4, a: real, b: real, k: real)
  {
    m[0].x == k * a && m[0].y == -b && m[0].z == 0.0 &&
    m[1].x == k * b && m[1].y == a && m[1].z == 0.0 &&
    m[2].x == 0.0 && m[2].y == 0.0 && m[2].z == 1.0
  }

  /**
   * As written, the radius is too small for any rotation about z that is
   * not a multiple of a quarter turn combined with a stretch k > 1 along x,
   * the shape createTransformMatrix builds: the point c + (R, 0, 0) of the
   * surface of s lands outside the closed ball of the result.  (With
   * a = 0.6, b = 0.8, k = 2 the rows have squared norms 2.08, 2.92, 1,
   * while the point moves to squared distance 4.)
   */
  lemma RowNormRadiusTooSmall(lm: GenericMath.Libm, s: Sphere, p: Vector3.Vector3f, m: Mat4, r: Sphere,
                              a: real, b: real, k: real)
    requires GenericMath.SqrtIsExact(lm)
    requires a * a + b * b == 1.0 && 0.0 < a && 0.0 < b && 1.0 < k && RotatedStretch(m, a, b, k)
    requires 0.0 < Radius(s)
    requires p.vec.x == s.data.x + Radius(s) && p.vec.y == s.data.y && p.vec.z == s.data.z
    requires r == TransformSphere(lm, s, m)
    ensures Radius(r) * Radius(r) < Vector3.DistSquared(TransformPoint(p, m), Center(r))
  {
    SurfacePointImage(lm, s, p, m, r, a, b, k);
    var n := MaxRowSquared(m);
    RowsBelowStretch(m, a, b, k, n);
    Matrices.SqrtSquared(lm, n);
    ScaledRadiusBelow(n, k, Radius(s), lm.sqrt(n), Radius(r), Vector3.DistSquared(TransformPoint(p, m), Center(r)));
  }

  /** The surface point c + (R, 0, 0) lands at squared distance k^2 R^2 from the transformed center. */
  lemma SurfacePointImage(lm: GenericMath.Libm, s: Sphere, p: Vector3.Vector3f, m: Mat4, r: Sphere,
                          a: real, b: real, k: real)
    requires a * a + b * b == 1.0 && RotatedStretch(m, a, b, k)
    requires p.vec.x == s.data.x + Radius(s) && p.vec.y == s.data.y && p.vec.z == s.data.z
    requires r == TransformSphere(lm, s, m)
    ensures Vector3.DistSquared(TransformPoint(p, m), Center(r)) == ScaledSquare(k, Radius(s))
    ensures Radius(r) == Radius(s) * lm.sqrt(MaxRowSquared(m))
  {
    var c := Vector3.ToVectorW(Center(s), 1.0);
    var q := TransformPoint(p, m);
    var image := Vector3.Vector3f(Transform(c, m));
    assert Xyz(Center(r)) == Xyz(image);
    XyzDistance(Center(r), image, q);
    SurfaceOffsetImage(s, p, m, a, b, k);
    assert Vector3.DistSquared(q, Center(r)) == Vector3.LengthSquared(Vector3.Minus(Center(r), q));
  }

  /** The offset between the images of the center and of the surface point c + (R, 0, 0) has squared length k^2 R^2. */
  lemma SurfaceOffsetImage(s: Sphere, p: Vector3.Vector3f, m: Mat4, a: real, b: real, k: real)
    requires a * a + b * b == 1.0 && RotatedStretch(m, a, b, k)
    requires p.vec.x == s.data.x + Radius(s) && p.vec.y == s.data.y && p.vec.z == s.data.z
    ensures Vector3.LengthSquared(Vector3.Minus(Vector3.Vector3f(Transform(Vector3.ToVectorW(Center(s), 1.0), m)), TransformPoint(p, m)))
      == ScaledSquare(k, Radius(s))
  {
    var image := Vector3.Vector3f(Transform(Vector3.ToVectorW(Center(s), 1.0), m));
    var e := Vector3.Minus(image, TransformPoint(p, m)).vec;
    var d := Vector3.Minus(Center(s), p).vec;
    ImageDifference(p, Center(s), m, e, d);
    assert d.x == -Radius(s) && d.y == 0.0 && d.z == 0.0;
    StretchedImage(m, a, b, k, d, e, Radius(s));
    assert Vector3.LengthSquared(Vector3.Minus(image, TransformPoint(p, m))) == Dot3Value(e, e);
  }

  /** k^2 x^2, the squared length of x stretched by k. */
  function ScaledSquare(k: real, x: real): real
  {
    (k * k) * (x * x)
  }

  /** d = (-R, 0, 0) goes to e with |e|^2 = k^2 R^2. */
  lemma StretchedImage(m: Mat4, a: real, b: real, k: real, d: Vec4, e: Vec4, radius: real)
    requires a * a + b * b == 1.0 && RotatedStretch(m, a, b, k)
    requires d.x == -radius && d.y == 0.0 && d.z == 0.0
    requires e.x == m[0].x * d.x + m[0].y * d.y + m[0].z * d.z
    requires e.y == m[1].x * d.x + m[1].y * d.y + m[1].z * d.z
    requires e.z == m[2].x * d.x + m[2].y * d.y + m[2].z * d.z
    ensures Dot3Value(e, e) == ScaledSquare(k, radius)
  {
    assert e.x == -(k * a * radius) && e.y == -(k * b * radius) && e.z == 0.0;
    assert Dot3Value(e, e) == (k * k) * (radius * radius) * (a * a + b * b);
  }

  /** Every row of R(a, b) scale(k, 1, 1) is shorter than k when 0 < a, b and k > 1. */
  lemma RowsBelowStretch(m: Mat4, a: real, b: real, k: real, n: real)
    requires a * a + b * b == 1.0 && 0.0 < a && 0.0 < b && 1.0 < k && RotatedStretch(m, a, b, k)
    requires n == MaxRowSquared(m)
    ensures 1.0 <= n < k * k
  {
    StretchRowBelow(a, b, k, Dot3Value(m[0], m[0]));
    StretchRowBelow(b, a, k, Dot3Value(m[1], m[1]));
    MulPos(k - 1.0, k + 1.0);
    assert Dot3Value(m[2], m[2]) == k * k - (k - 1.0) * (k + 1.0) + 0.0;
  }

  /** 0 < x and 0 < y give 0 < x y. */
  lemma MulPos(x: real, y: real)
    requires 0.0 < x && 0.0 < y
    ensures 0.0 < x * y
  {
  }

  /** (k a)^2 + b^2 < k^2 when a^2 + b^2 = 1, b > 0 and k > 1, built from positive factors one at a time. */
  lemma StretchRowBelow(a: real, b: real, k: real, row: real)
    requires a * a + b * b == 1.0 && 0.0 < b && 1.0 < k && row == (k * a) * (k * a) + b * b
    ensures row < k * k
  {
    MulPos(k - 1.0, k + 1.0);
    MulPos((k - 1.0) * (k + 1.0), b);
    MulPos((k - 1.0) * (k + 1.0) * b, b);
    assert row == k * k - (k - 1.0) * (k + 1.0) * b * b;
  }

  /** A radius x t with t^2 = n < k^2 squares to less than k^2 x^2. */
  lemma ScaledRadiusBelow(n: real, k: real, x: real, t: real, rr: real, hi: real)
    requires n < k * k && 0.0 < x && t * t == n && rr == x * t && hi == ScaledSquare(k, x)
    ensures rr * rr < hi
  {
    RadiusSquared(x, t, n, rr);
    BelowScaled(n, k, x, rr * rr, hi);
  }

  /** n < k^2 and 0 < x give lo = n x^2 below hi = k^2 x^2. */
  lemma BelowScaled(n: real, k: real, x: real, lo: real, hi: real)
    requires n < k * k && 0.0 < x && lo == n * (x * x) && hi == (k * k) * (x * x)
    ensures lo < hi
  {
    MulPos(k * k - n, x);
    MulPos((k * k - n) * x, x);
    assert hi - lo == (k * k - n) * x * x;
  }

  /** The largest squared norm of columns 0-2 of the 3x3 block: getScale's x, y and z, squared. */
  function MaxColumnSquared(m: Mat4): real
  {
    GenericMath.Max3(Dot3Value(Col(m, 0), Col(m, 0)), Dot3Value(Col(m, 1), Col(m, 1)), Dot3Value(Col(m, 2), Col(m, 2)))
  }

  /** transform(m) scaling the radius by the largest column norm, the largest stretch of a rotation times a scale. */
  function TransformSphereIntended(lm: GenericMath.Libm, s: Sphere, m: Mat4): Sphere
  {
    var center := Transform(Vector3.ToVectorW(Center(s), 1.0), m);
    FromCenterRadius(Vector3.Vector3f(center), Radius(s) * lm.sqrt(MaxColumnSquared(m)))
  }

  /** The columns of the 3x3 block are pairwise orthogonal, as in every translate * rotate * scale matrix. */
  predicate OrthogonalColumns(m: Mat4)
  {
    Dot3Value(Col(m, 0), Col(m, 1)) == 0.0 && Dot3Value(Col(m, 0), Col(m, 2)) == 0.0 &&
    Dot3Value(Col(m, 1), Col(m, 2)) == 0.0
  }

  /**
   * For a matrix with orthogonal columns, the intended transform maps every
   * point of the closed ball of s into the closed ball of the result.
   */
  lemma TransformSphereIntendedEncloses(lm: GenericMath.Libm, s: Sphere, m: Mat4, p: Vector3.Vector3f, r: Sphere)
    requires GenericMath.SqrtIsExact(lm) && 0.0 <= Radius(s) && OrthogonalColumns(m)
    requires Vector3.DistSquared(p, Center(s)) <= Radius(s) * Radius(s)
    requires r == TransformSphereIntended(lm, s, m)
    ensures Vector3.DistSquared(TransformPoint(p, m), Center(r)) <= Radius(r) * Radius(r)
  {
    var c := Vector3.ToVectorW(Center(s), 1.0);
    var q := TransformPoint(p, m);
    XyzDistance(Center(r), Vector3.Vector3f(Transform(c, m)), q);
    var e := Vector3.Minus(Vector3.Vector3f(Transform(c, m)), q).vec;
    var d := Vector3.Minus(Center(s), p).vec;
    ImageDifference(p, Center(s), m, e, d);
    assert Vector3.LengthSquared(Vector3.Minus(Center(s), p)) == Dot3Value(d, d);
    var n := MaxColumnSquared(m);
    var t := lm.sqrt(n);
    ColumnBound(m, d, e, n);
    assert 0.0 <= n;
    RadiusSquared(Radius(s), t, n, Radius(r));
    BoundScaled(Dot3Value(e, e), Dot3Value(d, d), n, Radius(s) * Radius(s));
  }

  /** Lane i < 3 of the images of (c, 1) and (p, 1) differ by row i applied to c - p. */
  lemma ImageDifference(p: Vector3.Vector3f, c: Vector3.Vector3f, m: Mat4, e: Vec4, d: Vec4)
    requires e == Vector3.Minus(Vector3.Vector3f(Transform(Vector3.ToVectorW(c, 1.0), m)), TransformPoint(p, m)).vec
    requires d == Vector3.Minus(c, p).vec
    ensures e.x == m[0].x * d.x + m[0].y * d.y + m[0].z * d.z
    ensures e.y == m[1].x * d.x + m[1].y * d.y + m[1].z * d.z
    ensures e.z == m[2].x * d.x + m[2].y * d.y + m[2].z * d.z
  {
    ImageLanes(p, c, m, e, d);
    RowsApplied(Vector3.ToVectorW(c, 1.0), Vector3.ToVectorW(p, 1.0), m, d, e);
  }

  /** The lanes of the two images and of c - p, before any arithmetic. */
  lemma ImageLanes(p: Vector3.Vector3f, c: Vector3.Vector3f, m: Mat4, e: Vec4, d: Vec4)
    requires e == Vector3.Minus(Vector3.Vector3f(Transform(Vector3.ToVectorW(c, 1.0), m)), TransformPoint(p, m)).vec
    requires d == Vector3.Minus(c, p).vec
    ensures var cv, pv := Vector3.ToVectorW(c, 1.0), Vector3.ToVectorW(p, 1.0);
      && cv.w == 1.0 && pv.w == 1.0
      && d.x == cv.x - pv.x && d.y == cv.y - pv.y && d.z == cv.z - pv.z
      && e.x == Dot4Value(cv, m[0]) - Dot4Value(pv, m[0])
      && e.y == Dot4Value(cv, m[1]) - Dot4Value(pv, m[1])
      && e.z == Dot4Value(cv, m[2]) - Dot4Value(pv, m[2])
  {
    var cv, pv := Vector3.ToVectorW(c, 1.0), Vector3.ToVectorW(p, 1.0);
    assert Lane(Transform(cv, m), 0) == Dot4Value(cv, m[0]) && Lane(Transform(pv, m), 0) == Dot4Value(pv, m[0]);
    assert Lane(Transform(cv, m), 1) == Dot4Value(cv, m[1]) && Lane(Transform(pv, m), 1) == Dot4Value(pv, m[1]);
    assert Lane(Transform(cv, m), 2) == Dot4Value(cv, m[2]) && Lane(Transform(pv, m), 2) == Dot4Value(pv, m[2]);
  }

  /** Rows 0-2 applied to d = c - p, from the lane facts of ImageLanes. */
  lemma RowsApplied(cv: Vec4, pv: Vec4, m: Mat4, d: Vec4, e: Vec4)
    requires cv.w == 1.0 && pv.w == 1.0
    requires d.x == cv.x - pv.x && d.y == cv.y - pv.y && d.z == cv.z - pv.z
    requires e.x == Dot4Value(cv, m[0]) - Dot4Value(pv, m[0])
    requires e.y == Dot4Value(cv, m[1]) - Dot4Value(pv, m[1])
    requires e.z == Dot4Value(cv, m[2]) - Dot4Value(pv, m[2])
    ensures e.x == m[0].x * d.x + m[0].y * d.y + m[0].z * d.z
    ensures e.y == m[1].x * d.x + m[1].y * d.y + m[1].z * d.z
    ensures e.z == m[2].x * d.x + m[2].y * d.y + m[2].z * d.z
  {
    RowDifference(cv, pv, m, 0, d, e.x);
    RowDifference(cv, pv, m, 1, d, e.y);
    RowDifference(cv, pv, m, 2, d, e.z);
  }

  /** (c . m[i]) - (p . m[i]) is row i applied to c - p when c and p both have lane 3 equal to 1. */
  lemma RowDifference(cv: Vec4, pv: Vec4, m: Mat4, i: nat, d: Vec4, r: real)
    requires i < 4 && cv.w == 1.0 && pv.w == 1.0
    requires d.x == cv.x - pv.x && d.y == cv.y - pv.y && d.z == cv.z - pv.z
    requires r == Dot4Value(cv, m[i]) - Dot4Value(pv, m[i])
    ensures r == m[i].x * d.x + m[i].y * d.y + m[i].z * d.z
  {
    GenericVecmath.MulSubst(d.x, cv.x - pv.x, m[i].x);
    GenericVecmath.MulSubst(d.y, cv.y - pv.y, m[i].y);
    GenericVecmath.MulSubst(d.z, cv.z - pv.z, m[i].z);
  }

  /** |M d|^2 <= n |d|^2 when the columns are orthogonal and n bounds every squared column norm. */
  lemma ColumnBound(m: Mat4, d: Vec4, e: Vec4, n: real)
    requires OrthogonalColumns(m) && n == MaxColumnSquared(m)
    requires e.x == m[0].x * d.x + m[0].y * d.y + m[0].z * d.z
    requires e.y == m[1].x * d.x + m[1].y * d.y + m[1].z * d.z
    requires e.z == m[2].x * d.x + m[2].y * d.y + m[2].z * d.z
    ensures Dot3Value(e, e) <= n * Dot3Value(d, d)
  {
    var c0, c1, c2 := Col(m, 0), Col(m, 1), Col(m, 2);
    ColumnExpansion(m[0], m[1], m[2], c0, c1, c2, d, e);
    WeightedBelow(d.x, d.y, d.z, Dot3Value(c0, c0), Dot3Value(c1, c1), Dot3Value(c2, c2), n);
  }

  /** Expanding |M d|^2 by columns: the squares carry the column norms, the cross terms the column dot products. */
  lemma ColumnExpansion(a: Vec4, b: Vec4, c: Vec4, c0: Vec4, c1: Vec4, c2: Vec4, d: Vec4, e: Vec4)
    requires c0.x == a.x && c0.y == b.x && c0.z == c.x
    requires c1.x == a.y && c1.y == b.y && c1.z == c.y
    requires c2.x == a.z && c2.y == b.z && c2.z == c.z
    requires e.x == a.x * d.x + a.y * d.y + a.z * d.z
    requires e.y == b.x * d.x + b.y * d.y + b.z * d.z
    requires e.z == c.x * d.x + c.y * d.y + c.z * d.z
    ensures Dot3Value(e, e) == d.x * d.x * Dot3Value(c0, c0) + d.y * d.y * Dot3Value(c1, c1) + d.z * d.z * Dot3Value(c2, c2)
      + 2.0 * d.x * d.y * Dot3Value(c0, c1) + 2.0 * d.x * d.z * Dot3Value(c0, c2) + 2.0 * d.y * d.z * Dot3Value(c1, c2)
  {
  }

  /** Weights below n give a weighted sum of squares below n times the plain sum. */
  lemma WeightedBelow(x: real, y: real, z: real, n0: real, n1: real, n2: real, n: real)
    requires n0 <= n && n1 <= n && n2 <= n
    ensures x * x * n0 + y * y * n1 + z * z * n2 <= n * (x * x + y * y + z * z)
  {
    assert x * x * (n - n0) + y * y * (n - n1) + z * z * (n - n2) == n * (x * x + y * y + z * z) - (x * x * n0 + y * y * n1 + z * z * n2);
    assert 0.0 <= x * x && 0.0 <= y * y && 0.0 <= z * z;
    assert 0.0 <= x * x * (n - n0);
    assert 0.0 <= y * y * (n - n1);
    assert 0.0 <= z * z * (n - n2);
  }

  /** (R t)^2 = R^2 n when t t = n. */
  lemma RadiusSquared(radius: real, t: real, n: real, r: real)
    requires t * t == n && r == radius * t
    ensures r * r == n * (radius * radius)
  {
    assert r * r == (radius * radius) * (t * t);
  }

  /** x <= n y and y <= b with n >= 0 give x <= n b. */
  lemma BoundScaled(x: real, y: real, n: real, b: real)
    requires 0.0 <= n && x <= n * y && y <= b
    ensures x <= n * b
  {
    assert n * y <= n * b;
  }

  // ---------------------------------------------------------------------
  // Point-cloud constructors
  // ---------------------------------------------------------------------

  /** The sum of the points, in order, as Vector3f += adds them (all four lanes). */
  function Sum(points: seq<Vector3.Vector3f>): Vector3.Vector3f
  {
    if |points| == 0 then Vector3.Zero()
    else Vector3.Plus(Sum(points[..|points| - 1]), points[|points| - 1])
  }

  /** Candidate 1: the midpoint of the corners the extents loop builds (the AABB of the points). */
  function BoxCenter(points: seq<Vector3.Vector3f>): Vector3.Vector3f
    requires |points| > 0
  {
    var b := Boxes.Bounds(points);
    Vector3.QuotientScalar(Vector3.Plus(b.minExtents, b.maxExtents), 2.0)
  }

  /**
   * Candidate 2 as written: meanPoint starts at zero and the loop adds
   * points 1 .. amt - 1, so point 0 is left out, yet the sum is divided by amt.
   */
  function MeanCandidate(points: seq<Vector3.Vector3f>): Vector3.Vector3f
    requires |points| > 0
  {
    Vector3.TimesScalar(Sum(points[1..]), GenericMath.Reciprocal(|points| as real))
  }

  /** The largest squared distance from center to a point, starting from 0 as radius21 and radius22 do. */
  function MaxDistSquared(center: Vector3.Vector3f, points: seq<Vector3.Vector3f>): real
  {
    if |points| == 0 then 0.0
    else GenericMath.Max(MaxDistSquared(center, points[..|points| - 1]),
      Vector3.LengthSquared(Vector3.Minus(center, points[|points| - 1])))
  }

  /** The sphere around the better of two centers; the second wins only when strictly better. */
  function BestOfTwo(lm: GenericMath.Libm, points: seq<Vector3.Vector3f>, center1: Vector3.Vector3f,
                     center2: Vector3.Vector3f): Sphere
  {
    var radius21 := MaxDistSquared(center1, points);
    var radius22 := MaxDistSquared(center2, points);
    if radius22 < radius21 then FromCenterRadius(center2, lm.sqrt(radius22))
    else FromCenterRadius(center1, lm.sqrt(radius21))
  }

  /** Sphere(points, amt) as written: the all-zero sphere for no points, else the better candidate. */
  function BoundingSphere(lm: GenericMath.Libm, points: seq<Vector3.Vector3f>): Sphere
  {
    if |points| == 0 then Sphere(Vec4(0.0, 0.0, 0.0, 0.0))
    else BestOfTwo(lm, points, BoxCenter(points), MeanCandidate(points))
  }

  /** The intended candidate 2: the sum of all amt points divided by amt. */
  function Centroid(points: seq<Vector3.Vector3f>): Vector3.Vector3f
    requires |points| > 0
  {
    Vector3.TimesScalar(Sum(points), GenericMath.Reciprocal(|points| as real))
  }

  /** Sphere(points, amt) with the intended mean candidate. */
  function BoundingSphereIntended(lm: GenericMath.Libm, points: seq<Vector3.Vector3f>): Sphere
  {
    if |points| == 0 then Sphere(Vec4(0.0, 0.0, 0.0, 0.0))
    else BestOfTwo(lm, points, BoxCenter(points), Centroid(points))
  }

  /** All points equal to p. */
  predicate AllAt(points: seq<Vector3.Vector3f>, p: Vector3.Vector3f)
  {
    forall i | 0 <= i < |points| :: Xyz(points[i]) == Xyz(p)
  }

  /** The sum of n copies of p is n p on x, y and z. */
  lemma {:induction false} SumOfCopies(points: seq<Vector3.Vector3f>, p: Vector3.Vector3f)
    requires AllAt(points, p)
    ensures Sum(points).vec.x == |points| as real * p.vec.x
    ensures Sum(points).vec.y == |points| as real * p.vec.y
    ensures Sum(points).vec.z == |points| as real * p.vec.z
  {
    if |points| > 0 {
      var init := points[..|points| - 1];
      assert AllAt(init, p) by {
        forall i | 0 <= i < |init| ensures Xyz(init[i]) == Xyz(p) {
          assert init[i] == points[i];
        }
      }
      SumOfCopies(init, p);
      assert Xyz(points[|points| - 1]) == Xyz(p);
    }
  }

  /** m = s c with s = (n - 1) x and c n = 1 gives m n = (n - 1) x, so m differs from a nonzero x. */
  lemma ScaledLane(m: real, n: real, c: real, sum: real, x: real)
    requires c * n == 1.0 && sum == (n - 1.0) * x && m == sum * c
    ensures m * n == (n - 1.0) * x
    ensures x != 0.0 ==> m != x
  {
    assert m * n == sum * (c * n);
    if m == x {
      assert x * n == n * x - x;
    }
  }

  /**
   * As written, the mean of n copies of p is (n - 1) p / n: every lane of p
   * that is nonzero is missed, so the mean of a cloud of equal points is not
   * that point.
   */
  lemma MeanOmitsFirstPoint(points: seq<Vector3.Vector3f>, p: Vector3.Vector3f, mean: Vector3.Vector3f, n: real)
    requires |points| > 0 && AllAt(points, p)
    requires mean == MeanCandidate(points) && n == |points| as real
    ensures mean.vec.x * n == (n - 1.0) * p.vec.x
    ensures p.vec.x != 0.0 ==> mean.vec.x != p.vec.x
  {
    TailSum(points, p);
    var c := GenericMath.Reciprocal(n);
    assert Lane(mean.vec, 0) == Lane(Sum(points[1..]).vec, 0) * c;
    ScaledLane(mean.vec.x, n, c, Sum(points[1..]).vec.x, p.vec.x);
  }

  /** The loop's sum of points 1 .. n - 1 of n copies of p is (n - 1) p on x. */
  lemma TailSum(points: seq<Vector3.Vector3f>, p: Vector3.Vector3f)
    requires |points| > 0 && AllAt(points, p)
    ensures Sum(points[1..]).vec.x == (|points| as real - 1.0) * p.vec.x
  {
    var tail := points[1..];
    assert AllAt(tail, p) by {
      forall i | 0 <= i < |tail| ensures Xyz(tail[i]) == Xyz(p) {
        assert tail[i] == points[i + 1];
      }
    }
    SumOfCopies(tail, p);
  }

  /** With every point counted, the mean of n copies of p is p. */
  lemma CentroidOfEqualPoints(points: seq<Vector3.Vector3f>, p: Vector3.Vector3f)
    requires |points| > 0 && AllAt(points, p)
    ensures Xyz(Centroid(points)) == Xyz(p)
  {
    SumOfCopies(points, p);
    var n := |points| as real;
    var c := GenericMath.Reciprocal(n);
    CancelCount(Centroid(points).vec.x, n, c, p.vec.x);
    CancelCount(Centroid(points).vec.y, n, c, p.vec.y);
    CancelCount(Centroid(points).vec.z, n, c, p.vec.z);
  }

  /** (n x) c == x when c n == 1. */
  lemma CancelCount(m: real, n: real, c: real, x: real)
    requires c * n == 1.0 && m == n * x * c
    ensures m == x
  {
    assert m == x * (c * n);
  }

  /** The intended sphere encloses every point just as the written one does. */
  lemma BoundingSphereIntendedEncloses(lm: GenericMath.Libm, points: seq<Vector3.Vector3f>, s: Sphere, j: nat,
                                       errorMargin: real)
    requires GenericMath.SqrtIsExact(lm)
    requires j < |points| && 0.0 < errorMargin
    requires s == BoundingSphereIntended(lm, points)
    ensures 0.0 <= Radius(s) && Vector3.DistSquared(points[j], Center(s)) <= Radius(s) * Radius(s)
    ensures ContainsPoint(s, points[j], errorMargin)
  {
    BestOfTwoEncloses(lm, points, BoxCenter(points), Centroid(points), s, j);
    ClosedBallContained(s, points[j], errorMargin);
  }

  /** MaxDistSquared is non-negative and bounds the squared distance to every point. */
  lemma {:induction false} MaxDistSquaredBounds(center: Vector3.Vector3f, points: seq<Vector3.Vector3f>, j: nat)
    requires j < |points|
    ensures 0.0 <= MaxDistSquared(center, points)
    ensures Vector3.LengthSquared(Vector3.Minus(center, points[j])) <= MaxDistSquared(center, points)
  {
    var init := points[..|points| - 1];
    if j < |points| - 1 {
      MaxDistSquaredBounds(center, init, j);
      assert init[j] == points[j];
    }
  }

  /** MaxDistSquared of a nonempty cloud is the squared distance to one of its points. */
  lemma {:induction false} MaxDistSquaredAttained(center: Vector3.Vector3f, points: seq<Vector3.Vector3f>)
    requires |points| > 0
    ensures exists j | 0 <= j < |points| ::
      MaxDistSquared(center, points) == Vector3.LengthSquared(Vector3.Minus(center, points[j]))
  {
    var last := |points| - 1;
    var init := points[..last];
    if |init| == 0 {
      assert MaxDistSquared(center, points) == Vector3.LengthSquared(Vector3.Minus(center, points[last]));
    } else if MaxDistSquared(center, init) < Vector3.LengthSquared(Vector3.Minus(center, points[last])) {
      assert MaxDistSquared(center, points) == Vector3.LengthSquared(Vector3.Minus(center, points[last]));
    } else {
      MaxDistSquaredAttained(center, init);
      var j :| 0 <= j < |init| && MaxDistSquared(center, init) == Vector3.LengthSquared(Vector3.Minus(center, init[j]));
      assert init[j] == points[j];
    }
  }

  /** Squared distances see only x, y and z. */
  lemma XyzDistance(a: Vector3.Vector3f, b: Vector3.Vector3f, p: Vector3.Vector3f)
    requires Xyz(a) == Xyz(b)
    ensures Vector3.LengthSquared(Vector3.Minus(a, p)) == Vector3.LengthSquared(Vector3.Minus(b, p))
  {
    assert Vector3.Minus(a, p).vec.x == Vector3.Minus(b, p).vec.x;
    assert Vector3.Minus(a, p).vec.y == Vector3.Minus(b, p).vec.y;
    assert Vector3.Minus(a, p).vec.z == Vector3.Minus(b, p).vec.z;
  }

  /**
   * With an exact square root, the sphere around either candidate is a
   * closed ball holding every point: its radius is non-negative and its
   * square bounds the squared distance from the center to each point.
   */
  lemma BestOfTwoEncloses(lm: GenericMath.Libm, points: seq<Vector3.Vector3f>, center1: Vector3.Vector3f,
                          center2: Vector3.Vector3f, s: Sphere, j: nat)
    requires GenericMath.SqrtIsExact(lm) && j < |points|
    requires s == BestOfTwo(lm, points, center1, center2)
    ensures 0.0 <= Radius(s) && Vector3.DistSquared(points[j], Center(s)) <= Radius(s) * Radius(s)
  {
    var radius21 := MaxDistSquared(center1, points);
    var radius22 := MaxDistSquared(center2, points);
    if radius22 < radius21 {
      MaxDistSquaredBounds(center2, points, j);
      KeptCandidate(lm, points[j], center2, radius22, s);
    } else {
      MaxDistSquaredBounds(center1, points, j);
      KeptCandidate(lm, points[j], center1, radius21, s);
    }
  }

  /** The sphere around center with radius sqrt(radius2) holds p in its closed ball when |center - p|^2 <= radius2. */
  lemma KeptCandidate(lm: GenericMath.Libm, p: Vector3.Vector3f, center: Vector3.Vector3f, radius2: real, s: Sphere)
    requires GenericMath.SqrtIsExact(lm)
    requires Vector3.LengthSquared(Vector3.Minus(center, p)) <= radius2
    requires s == FromCenterRadius(center, lm.sqrt(radius2))
    ensures 0.0 <= Radius(s) && Vector3.DistSquared(p, Center(s)) <= Radius(s) * Radius(s)
  {
    XyzDistance(Center(s), center, p);
    assert 0.0 <= lm.sqrt(radius2) && lm.sqrt(radius2) * lm.sqrt(radius2) == radius2;
  }

  /**
   * The kept radius is the square root of the smaller of the two
   * candidates' maxima, and the mean candidate is kept only when its
   * maximum is strictly smaller.
   */
  lemma BestOfTwoIsTighter(lm: GenericMath.Libm, points: seq<Vector3.Vector3f>, center1: Vector3.Vector3f,
                           center2: Vector3.Vector3f, s: Sphere)
    requires s == BestOfTwo(lm, points, center1, center2)
    ensures Radius(s) == lm.sqrt(GenericMath.Min(MaxDistSquared(center1, points), MaxDistSquared(center2, points)))
    ensures Xyz(Center(s)) == if MaxDistSquared(center2, points) < MaxDistSquared(center1, points) then Xyz(center2) else Xyz(center1)
  {
  }

  /** A closed ball of radius r >= 0 is inside the open ball of radius r + margin for every margin > 0. */
  lemma WithinClosedBall(d: real, r: real, m: real)
    requires 0.0 <= r && 0.0 < m && d <= r * r
    ensures d < (r + m) * (r + m)
  {
    assert (r + m) * (r + m) == r * r + m * (2.0 * r + m);
    assert 0.0 < m * (2.0 * r + m);
  }

  /** A point of the closed ball is contained for every positive margin. */
  lemma ClosedBallContained(s: Sphere, p: Vector3.Vector3f, errorMargin: real)
    requires 0.0 <= Radius(s) && 0.0 < errorMargin
    requires Vector3.DistSquared(p, Center(s)) <= Radius(s) * Radius(s)
    ensures ContainsPoint(s, p, errorMargin)
  {
    WithinClosedBall(Vector3.DistSquared(p, Center(s)), Radius(s), errorMargin);
  }

  /**
   * With an exact square root, the bounding sphere of a nonempty cloud holds
   * every point in the closed ball, and so contains it for every positive margin.
   */
  lemma BoundingSphereEncloses(lm: GenericMath.Libm, points: seq<Vector3.Vector3f>, s: Sphere, j: nat, errorMargin: real)
    requires GenericMath.SqrtIsExact(lm) && j < |points| && 0.0 < errorMargin
    requires s == BoundingSphere(lm, points)
    ensures 0.0 <= Radius(s) && Vector3.DistSquared(points[j], Center(s)) <= Radius(s) * Radius(s)
    ensures ContainsPoint(s, points[j], errorMargin)
  {
    BestOfTwoEncloses(lm, points, BoxCenter(points), MeanCandidate(points), s, j);
    ClosedBallContained(s, points[j], errorMargin);
  }

  /**
   * Sphere(Vector3f* points, amt): the extents loop and the meanPoint sum
   * over points 1 .. amt - 1, then the radius loop over all points.
   */
  method FromPoints(lm: GenericMath.Libm, points: array<Vector3.Vector3f>, amt: nat) returns (r: Sphere)
    requires amt <= points.Length
    ensures r == BoundingSphere(lm, points[..amt])
  {
    if amt == 0 {
      return Sphere(Vec4(0.0, 0.0, 0.0, 0.0));
    }
    var lo, hi, meanPoint := ExtentsAndSum(points, amt);
    var center1 := Vector3.QuotientScalar(Vector3.Plus(lo, hi), 2.0);
    var center2 := Vector3.TimesScalar(meanPoint, GenericMath.Reciprocal(amt as real));
    var radius21, radius22 := MaxDistances(points, amt, center1, center2);
    if radius22 < radius21 {
      r := FromCenterRadius(center2, lm.sqrt(radius22));
    } else {
      r := FromCenterRadius(center1, lm.sqrt(radius21));
    }
  }

  /** The first loop of Sphere(Vector3f* points, amt): extents from all points, meanPoint from points 1 .. amt - 1. */
  method ExtentsAndSum(points: array<Vector3.Vector3f>, amt: nat)
    returns (lo: Vector3.Vector3f, hi: Vector3.Vector3f, meanPoint: Vector3.Vector3f)
    requires 0 < amt <= points.Length
    ensures Boxes.AABB(lo, hi) == Boxes.Bounds(points[..amt])
    ensures meanPoint == Sum(points[1..amt])
  {
    lo := points[0];
    hi := points[0];
    meanPoint := Vector3.Zero();
    assert points[..1] == [points[0]];
    for i := 1 to amt
      invariant Boxes.AABB(lo, hi) == Boxes.Bounds(points[..i])
      invariant meanPoint == Sum(points[1..i])
    {
      var point := points[i];
      lo := Vector3.MinVec(lo, point);
      hi := Vector3.MaxVec(hi, point);
      meanPoint := Vector3.Plus(meanPoint, point);
      assert points[..i + 1][..i] == points[..i];
      assert points[1..i + 1][..i - 1] == points[1..i];
    }
  }

  /** The second loop: the largest squared distances from center1 and from center2 to the points. */
  method MaxDistances(points: array<Vector3.Vector3f>, amt: nat, center1: Vector3.Vector3f, center2: Vector3.Vector3f)
    returns (radius21: real, radius22: real)
    requires amt <= points.Length
    ensures radius21 == MaxDistSquared(center1, points[..amt])
    ensures radius22 == MaxDistSquared(center2, points[..amt])
  {
    radius21 := 0.0;
    radius22 := 0.0;
    for i := 0 to amt
      invariant radius21 == MaxDistSquared(center1, points[..i])
      invariant radius22 == MaxDistSquared(center2, points[..i])
    {
      radius21 := GenericMath.Max(radius21, Vector3.LengthSquared(Vector3.Minus(center1, points[i])));
      radius22 := GenericMath.Max(radius22, Vector3.LengthSquared(Vector3.Minus(center2, points[i])));
      assert points[..i + 1][..i] == points[..i];
    }
  }

  /** Sphere(float* points, amt): as FromPoints, with point i read from points[3i .. 3i + 2]. */
  method FromFloats(lm: GenericMath.Libm, points: array<real>, amt: nat) returns (r: Sphere)
    requires Boxes.StridedInRange(points[..], amt, 0)
    ensures r == BoundingSphere(lm, Boxes.StridedPoints(points[..], amt, 0))
  {
    if amt == 0 {
      return Sphere(Vec4(0.0, 0.0, 0.0, 0.0));
    }
    var lo, hi, meanPoint := ExtentsAndSumFloats(points, amt);
    var center1 := Vector3.QuotientScalar(Vector3.Plus(lo, hi), 2.0);
    var center2 := Vector3.TimesScalar(meanPoint, GenericMath.Reciprocal(amt as real));
    var radius21, radius22 := MaxDistancesFloats(points, amt, center1, center2);
    if radius22 < radius21 {
      r := FromCenterRadius(center2, lm.sqrt(radius22));
    } else {
      r := FromCenterRadius(center1, lm.sqrt(radius21));
    }
  }

  /** The first loop of the float constructor, reading point i at index 3i. */
  method ExtentsAndSumFloats(points: array<real>, amt: nat)
    returns (lo: Vector3.Vector3f, hi: Vector3.Vector3f, meanPoint: Vector3.Vector3f)
    requires 0 < amt && Boxes.StridedInRange(points[..], amt, 0)
    ensures Boxes.AABB(lo, hi) == Boxes.Bounds(Boxes.StridedPoints(points[..], amt, 0))
    ensures meanPoint == Sum(Boxes.StridedPoints(points[..], amt, 0)[1..])
  {
    ghost var pts := Boxes.StridedPoints(points[..], amt, 0);
    assert Boxes.StrideOffset(0, 0) + 2 < points.Length;
    var point0 := Vector3.Make(points[0], points[1], points[2]);
    lo := point0;
    hi := point0;
    meanPoint := Vector3.Zero();
    var index := 3;
    assert pts[..1] == [point0];
    for i := 1 to amt
      invariant index == 3 * i
      invariant Boxes.AABB(lo, hi) == Boxes.Bounds(pts[..i])
      invariant meanPoint == Sum(pts[1..i])
    {
      Boxes.StrideOffsets(i, 0);
      assert Boxes.StrideOffset(i, 0) + 2 < points.Length;
      var point := Vector3.Make(points[index], points[index + 1], points[index + 2]);
      assert point == pts[i];
      lo := Vector3.MinVec(lo, point);
      hi := Vector3.MaxVec(hi, point);
      meanPoint := Vector3.Plus(meanPoint, point);
      index := index + 3;
      assert pts[..i + 1][..i] == pts[..i];
      assert pts[1..i + 1][..i - 1] == pts[1..i];
    }
    assert pts[..amt] == pts && pts[1..amt] == pts[1..];
  }

  /** The second loop of the float constructor, reading point i at index 3i again. */
  method MaxDistancesFloats(points: array<real>, amt: nat, center1: Vector3.Vector3f, center2: Vector3.Vector3f)
    returns (radius21: real, radius22: real)
    requires Boxes.StridedInRange(points[..], amt, 0)
    ensures radius21 == MaxDistSquared(center1, Boxes.StridedPoints(points[..], amt, 0))
    ensures radius22 == MaxDistSquared(center2, Boxes.StridedPoints(points[..], amt, 0))
  {
    ghost var pts := Boxes.StridedPoints(points[..], amt, 0);
    radius21 := 0.0;
    radius22 := 0.0;
    var index := 0;
    for i := 0 to amt
      invariant index == 3 * i
      invariant radius21 == MaxDistSquared(center1, pts[..i])
      invariant radius22 == MaxDistSquared(center2, pts[..i])
    {
      Boxes.StrideOffsets(i, 0);
      assert Boxes.StrideOffset(i, 0) + 2 < points.Length;
      var point := Vector3.Make(points[index], points[index + 1], points[index + 2]);
      assert point == pts[i];
      radius21 := GenericMath.Max(radius21, Vector3.LengthSquared(Vector3.Minus(center1, point)));
      radius22 := GenericMath.Max(radius22, Vector3.LengthSquared(Vector3.Minus(center2, point)));
      index := index + 3;
      assert pts[..i + 1][..i] == pts[..i];
    }
    assert pts[..amt] == pts;
  }
}
