/**
 * Vector3f: a three-component vector stored in a four-lane `Vec4` whose
 * lane 3 is carried along (0 after the component constructors, whatever the
 * source vector held after `Vector3f(const Vector&)`).
 *
 * The compound operators and `set` update the stored vector in place; they
 * are the methods of class `Vector3fVar`.  Every other member is a pure
 * function of its operands.
 */
module Vector3 {
  import GenericMath
  import opened GenericVecmath
  import opened Vecmath

  datatype Vector3f = Vector3f(vec: Vec4)

  // ---------------------------------------------------------------------
  // Construction and access
  // ---------------------------------------------------------------------

  /** Vector3f(): every lane 0. */
  function Zero(): (r: Vector3f)
    ensures forall i | 0 <= i < 4 :: Lane(r.vec, i) == 0.0
  {
    Vector3f(ZERO)
  }

  /** Vector3f(val): val in x, y and z, 0 in lane 3. */
  function Splat(val: real): (r: Vector3f)
    ensures r.vec.w == 0.0
    ensures forall i | 0 <= i < 3 :: Get(r, i) == val
  {
    Vector3f(Vec4(val, val, val, 0.0))
  }

  /** Vector3f(x, y, z): lane 3 is 0. */
  function Make(x: real, y: real, z: real): (r: Vector3f)
    ensures r.vec.w == 0.0
    ensures Get(r, 0) == x && Get(r, 1) == y && Get(r, 2) == z
  {
    Vector3f(Set3(x, y, z))
  }

  /** operator[]: only x, y and z may be read. */
  function Get(a: Vector3f, index: nat): real
    requires index < 3
  {
    Lane(a.vec, index)
  }

  /** toVector(): the stored four lanes. */
  function ToVector(a: Vector3f): Vec4
  {
    a.vec
  }

  /** Vector3f(const Vector&) keeps all four lanes, and toVector() gives them back. */
  lemma ToVectorRoundTrip(v: Vec4, a: Vector3f)
    ensures ToVector(Vector3f(v)) == v
    ensures Vector3f(ToVector(a)) == a
  {
  }

  /** toVector(w): xyz kept, lane 3 replaced by w (a select against MASK_W). */
  function ToVectorW(a: Vector3f, w: real): (r: Vec4)
    ensures r == Vec4(a.vec.x, a.vec.y, a.vec.z, w)
  {
    Select(a.vec, MASK_W, Load1f(w))
  }

  // ---------------------------------------------------------------------
  // Products and lengths
  // ---------------------------------------------------------------------

  /** dot: lane 0 of dot3, so lane 3 plays no part. */
  function Dot(a: Vector3f, b: Vector3f): (r: real)
    ensures r == Dot3Value(a.vec, b.vec)
  {
    Lane(Dot3(a.vec, b.vec), 0)
  }

  /** dot is symmetric and does not look at lane 3. */
  lemma DotSymmetric(a: Vector3f, b: Vector3f, w: real)
    ensures Dot(a, b) == Dot(b, a)
    ensures Dot(Vector3f(a.vec.(w := w)), b) == Dot(a, b)
  {
  }

  /** dotToVector: the three-lane dot product in every lane, lane 3 included. */
  function DotToVector(a: Vector3f, b: Vector3f): (r: Vector3f)
    ensures forall i | 0 <= i < 4 :: Lane(r.vec, i) == Dot(a, b)
  {
    Vector3f(Dot3(a.vec, b.vec))
  }

  /** cross: orthogonal to both operands, lane 3 is 0. */
  function Cross(a: Vector3f, b: Vector3f): (r: Vector3f)
    ensures r.vec.w == 0.0
    ensures Dot(r, a) == 0.0 && Dot(r, b) == 0.0
  {
    Cross3Orthogonal(a.vec, b.vec);
    Vector3f(Cross3(a.vec, b.vec))
  }

  function LengthSquared(a: Vector3f): (r: real)
    ensures r == Dot(a, a)
    ensures 0.0 <= r
  {
    Lane(Dot3(a.vec, a.vec), 0)
  }

  /** distSquared: the squared length of other - this. */
  function DistSquared(a: Vector3f, other: Vector3f): (r: real)
    ensures r == LengthSquared(Minus(other, a))
  {
    var temp := Minus(other, a);
    Lane(Dot3(temp.vec, temp.vec), 0)
  }

  lemma DistSquaredSymmetric(a: Vector3f, b: Vector3f)
    ensures DistSquared(a, b) == DistSquared(b, a)
    ensures DistSquared(a, a) == 0.0
  {
    var d := Minus(b, a).vec;
    var e := Minus(a, b).vec;
    assert e.x == -d.x && e.y == -d.y && e.z == -d.z;
    assert e.x * e.x == d.x * d.x && e.y * e.y == d.y * d.y && e.z * e.z == d.z * d.z;
  }

  function Length(lm: GenericMath.Libm, a: Vector3f): real
  {
    lm.sqrt(LengthSquared(a))
  }

  function Dist(lm: GenericMath.Libm, a: Vector3f, other: Vector3f): (r: real)
    ensures r == Length(lm, Minus(other, a))
  {
    lm.sqrt(DistSquared(a, other))
  }

  // ---------------------------------------------------------------------
  // Arithmetic operators (binary forms)
  // ---------------------------------------------------------------------

  function Plus(a: Vector3f, b: Vector3f): (r: Vector3f)
    ensures forall i | 0 <= i < 4 :: Lane(r.vec, i) == Lane(a.vec, i) + Lane(b.vec, i)
  {
    Vector3f(Add(a.vec, b.vec))
  }

  function Minus(a: Vector3f, b: Vector3f): (r: Vector3f)
    ensures Plus(r, b) == a
  {
    Vector3f(Sub(a.vec, b.vec))
  }

  function Times(a: Vector3f, b: Vector3f): (r: Vector3f)
    ensures forall i | 0 <= i < 4 :: Lane(r.vec, i) == Lane(a.vec, i) * Lane(b.vec, i)
  {
    Vector3f(Mul(a.vec, b.vec))
  }

  /** 0/0 in lane 3 is not a real number; the model gives that lane 0. */
  function LaneQuotient(a: real, b: real): real
  {
    if b == 0.0 then 0.0 else a / b
  }

  /** Vector / Vector: lane-wise quotient; the divisor's x, y and z must be nonzero. */
  function Quotient(a: Vector3f, b: Vector3f): (r: Vector3f)
    requires b.vec.x != 0.0 && b.vec.y != 0.0 && b.vec.z != 0.0
    ensures forall i | 0 <= i < 3 :: Get(r, i) * Get(b, i) == Get(a, i)
    ensures b.vec.w != 0.0 ==> r.vec.w * b.vec.w == a.vec.w
  {
    Vector3f(Vec4(a.vec.x / b.vec.x, a.vec.y / b.vec.y, a.vec.z / b.vec.z, LaneQuotient(a.vec.w, b.vec.w)))
  }

  function PlusScalar(a: Vector3f, amt: real): (r: Vector3f)
    ensures forall i | 0 <= i < 4 :: Lane(r.vec, i) == Lane(a.vec, i) + amt
  {
    Vector3f(Add(a.vec, Load1f(amt)))
  }

  function MinusScalar(a: Vector3f, amt: real): (r: Vector3f)
    ensures PlusScalar(r, amt) == a
  {
    Vector3f(Sub(a.vec, Load1f(amt)))
  }

  function TimesScalar(a: Vector3f, amt: real): (r: Vector3f)
    ensures forall i | 0 <= i < 4 :: Lane(r.vec, i) == Lane(a.vec, i) * amt
  {
    Vector3f(Mul(a.vec, Load1f(amt)))
  }

  /** v / amt is v * reciprocal(amt). */
  function QuotientScalar(a: Vector3f, amt: real): (r: Vector3f)
    requires amt != 0.0
    ensures TimesScalar(r, amt) == a
  {
    var k := GenericMath.Reciprocal(amt);
    var r := Vector3f(Mul(a.vec, Load1f(k)));
    assert r.vec.x * amt == a.vec.x * (k * amt);
    assert r.vec.y * amt == a.vec.y * (k * amt);
    assert r.vec.z * amt == a.vec.z * (k * amt);
    assert r.vec.w * amt == a.vec.w * (k * amt);
    r
  }

  function Negated(a: Vector3f): (r: Vector3f)
    ensures Plus(r, a) == Zero()
  {
    Vector3f(Neg(a.vec))
  }

  /** Binary operators invert each other as over the reals. */
  lemma OperatorInverses(a: Vector3f, b: Vector3f, k: real)
    ensures Minus(Plus(a, b), b) == a
    ensures k != 0.0 ==> QuotientScalar(TimesScalar(a, k), k) == a
    ensures Negated(Negated(a)) == a
  {
    if k != 0.0 {
      var t := TimesScalar(a, k);
      var q := QuotientScalar(t, k);
      assert TimesScalar(q, k) == t;
      assert q.vec.x * k == a.vec.x * k && q.vec.y * k == a.vec.y * k;
      assert q.vec.z * k == a.vec.z * k && q.vec.w * k == a.vec.w * k;
    }
  }

  // ---------------------------------------------------------------------
  // Comparisons
  // ---------------------------------------------------------------------

  /** operator==: lanes 0-2 compared exactly; lane 3 is ignored. */
  function Equal(a: Vector3f, b: Vector3f): (r: bool)
    ensures r <==> forall i | 0 <= i < 3 :: Get(a, i) == Get(b, i)
  {
    assert Get(a, 0) == a.vec.x && Get(a, 1) == a.vec.y && Get(a, 2) == a.vec.z;
    assert Get(b, 0) == b.vec.x && Get(b, 1) == b.vec.y && Get(b, 2) == b.vec.z;
    IsZero3f(Ne(a.vec, b.vec))
  }

  /** operator!=: the exact negation of ==. */
  function NotEqual(a: Vector3f, b: Vector3f): (r: bool)
    ensures r <==> exists i | 0 <= i < 3 :: Get(a, i) != Get(b, i)
  {
    !Equal(a, b)
  }

  /** equals(other, margin): |a_i - b_i| < margin for i = 0, 1, 2. */
  function ApproxEquals(a: Vector3f, b: Vector3f, margin: real): (r: bool)
    ensures r <==> forall i | 0 <= i < 3 :: GenericMath.Abs(Get(a, i) - Get(b, i)) < margin
  {
    assert Get(a, 0) == a.vec.x && Get(a, 1) == a.vec.y && Get(a, 2) == a.vec.z;
    assert Get(b, 0) == b.vec.x && Get(b, 1) == b.vec.y && Get(b, 2) == b.vec.z;
    IsZero3f(NotEqualsMask(a.vec, b.vec, margin))
  }

  /** equals(val, margin): each of x, y, z within margin of val. */
  function ApproxEqualsScalar(a: Vector3f, val: real, margin: real): (r: bool)
    ensures r <==> forall i | 0 <= i < 3 :: GenericMath.Abs(Get(a, i) - val) < margin
  {
    ApproxEquals(a, Splat(val), margin)
  }

  lemma ComparisonsIgnoreLane3(a: Vector3f, w: real, margin: real)
    ensures Equal(a, Vector3f(a.vec.(w := w)))
    ensures 0.0 < margin ==> ApproxEquals(a, Vector3f(a.vec.(w := w)), margin)
  {
    assert Get(a, 0) == Get(Vector3f(a.vec.(w := w)), 0);
    assert Get(a, 1) == Get(Vector3f(a.vec.(w := w)), 1);
    assert Get(a, 2) == Get(Vector3f(a.vec.(w := w)), 2);
  }

  // ---------------------------------------------------------------------
  // Component extremes and lane-wise functions
  // ---------------------------------------------------------------------

  /** max(): the largest of x, y, z. */
  function MaxComponent(a: Vector3f): (r: real)
    ensures forall i | 0 <= i < 3 :: Get(a, i) <= r
    ensures exists i | 0 <= i < 3 :: Get(a, i) == r
  {
    var r := GenericMath.Max3(a.vec.x, a.vec.y, a.vec.z);
    assert Get(a, 0) == a.vec.x && Get(a, 1) == a.vec.y && Get(a, 2) == a.vec.z;
    r
  }

  function MinComponent(a: Vector3f): (r: real)
    ensures forall i | 0 <= i < 3 :: r <= Get(a, i)
    ensures exists i | 0 <= i < 3 :: Get(a, i) == r
  {
    var r := GenericMath.Min3(a.vec.x, a.vec.y, a.vec.z);
    assert Get(a, 0) == a.vec.x && Get(a, 1) == a.vec.y && Get(a, 2) == a.vec.z;
    r
  }

  /** absMax(): the largest magnitude among x, y, z. */
  function AbsMax(a: Vector3f): (r: real)
    ensures forall i | 0 <= i < 3 :: GenericMath.Abs(Get(a, i)) <= r
    ensures exists i | 0 <= i < 3 :: GenericMath.Abs(Get(a, i)) == r
  {
    var r := MaxComponent(AbsVec(a));
    assert forall i | 0 <= i < 3 :: Get(AbsVec(a), i) == GenericMath.Abs(Get(a, i));
    r
  }

  function AbsMin(a: Vector3f): (r: real)
    ensures forall i | 0 <= i < 3 :: r <= GenericMath.Abs(Get(a, i))
    ensures exists i | 0 <= i < 3 :: GenericMath.Abs(Get(a, i)) == r
  {
    var r := MinComponent(AbsVec(a));
    assert forall i | 0 <= i < 3 :: Get(AbsVec(a), i) == GenericMath.Abs(Get(a, i));
    r
  }

  function AbsVec(a: Vector3f): (r: Vector3f)
    ensures forall i | 0 <= i < 4 :: Lane(r.vec, i) == GenericMath.Abs(Lane(a.vec, i))
  {
    Vector3f(AbsV(a.vec))
  }

  /** min(other): lane-wise minimum, ties going to this vector. */
  function MinVec(a: Vector3f, b: Vector3f): (r: Vector3f)
    ensures forall i | 0 <= i < 4 :: Lane(r.vec, i) == GenericMath.Min(Lane(a.vec, i), Lane(b.vec, i))
  {
    Vector3f(MinV(a.vec, b.vec))
  }

  function MaxVec(a: Vector3f, b: Vector3f): (r: Vector3f)
    ensures forall i | 0 <= i < 4 :: Lane(r.vec, i) == GenericMath.Max(Lane(a.vec, i), Lane(b.vec, i))
  {
    Vector3f(MaxV(a.vec, b.vec))
  }

  // ---------------------------------------------------------------------
  // Normalisation
  // ---------------------------------------------------------------------

  /**
   * normalized(errorMargin): normalize3, every lane divided by the length of
   * xyz.  The margin is not used.
   */
  function Normalized(lm: GenericMath.Libm, a: Vector3f, errorMargin: real): (r: Vector3f)
    requires lm.sqrt(LengthSquared(a)) != 0.0
    ensures forall i | 0 <= i < 4 :: Lane(r.vec, i) * Length(lm, a) == Lane(a.vec, i)
  {
    var k := GenericMath.Rsqrt(lm, Dot3Value(a.vec, a.vec));
    assert Normalize3(lm, a.vec) == Mul(a.vec, Load1f(k));
    ScaledByReciprocal(a.vec, k, Length(lm, a));
    Vector3f(Normalize3(lm, a.vec))
  }

  /** Lanes of v * k, times s, give back v when k * s == 1. */
  lemma ScaledByReciprocal(v: Vec4, k: real, s: real)
    requires k * s == 1.0
    ensures forall i | 0 <= i < 4 :: Lane(Mul(v, Load1f(k)), i) * s == Lane(v, i)
  {
    assert v.x * k * s == v.x * (k * s);
    assert v.y * k * s == v.y * (k * s);
    assert v.z * k * s == v.z * (k * s);
    assert v.w * k * s == v.w * (k * s);
  }

  /** isNormalized(errorMargin): |1 - |v|^2| < errorMargin. */
  predicate IsNormalized(a: Vector3f, errorMargin: real)
  {
    GenericMath.Abs(1.0 - LengthSquared(a)) < errorMargin
  }

  /** With an exact square root the normalized vector is normalized for every positive margin. */
  lemma NormalizedIsNormalized(lm: GenericMath.Libm, a: Vector3f, errorMargin: real, margin: real)
    requires GenericMath.SqrtIsExact(lm)
    requires lm.sqrt(LengthSquared(a)) != 0.0
    requires 0.0 < margin
    ensures LengthSquared(Normalized(lm, a, errorMargin)) == 1.0
    ensures IsNormalized(Normalized(lm, a, errorMargin), margin)
  {
    NormalizeIsUnit(lm, a.vec);
  }

  /**
   * dirAndLength: the direction is this * rsqrt(|v|^2) on every lane and the
   * length is reciprocal(rsqrt(|v|^2)), which is sqrt(|v|^2).
   */
  method DirAndLength(lm: GenericMath.Libm, a: Vector3f) returns (dir: Vector3f, length: real)
    requires lm.sqrt(LengthSquared(a)) != 0.0
    ensures length == Length(lm, a)
    ensures dir == Normalized(lm, a, 0.0)
    ensures forall i | 0 <= i < 4 :: Lane(dir.vec, i) * length == Lane(a.vec, i)
  {
    var rlen := RsqrtV(lm, Dot3(a.vec, a.vec));
    dir := Vector3f(Mul(a.vec, rlen));
    length := GenericMath.Reciprocal(rlen.x);
  }

  /** project(): every lane divided by z, so z becomes 1. */
  function Project(a: Vector3f): (r: Vector3f)
    requires a.vec.z != 0.0
    ensures r.vec.z == 1.0
    ensures forall i | 0 <= i < 4 :: Lane(r.vec, i) * a.vec.z == Lane(a.vec, i)
  {
    var k := GenericMath.Reciprocal(a.vec.z);
    ScaledByReciprocal(a.vec, k, a.vec.z);
    Vector3f(Mul(a.vec, Load1f(k)))
  }

  /** reciprocal(): 1 / lane; x, y and z must be nonzero (lane 3 as in Quotient). */
  function ReciprocalVec(a: Vector3f): (r: Vector3f)
    requires a.vec.x != 0.0 && a.vec.y != 0.0 && a.vec.z != 0.0
    ensures forall i | 0 <= i < 3 :: Get(r, i) * Get(a, i) == 1.0
  {
    Vector3f(Vec4(1.0 / a.vec.x, 1.0 / a.vec.y, 1.0 / a.vec.z, LaneQuotient(1.0, a.vec.w)))
  }

  // ---------------------------------------------------------------------
  // Rotation, reflection, refraction
  // ---------------------------------------------------------------------

  /**
   * rotate(axis, angle): with s = sin(-angle) and c = cos(-angle),
   * v x (axis s) + axis (v . axis (1 - c)) + v c.
   */
  function Rotate(lm: GenericMath.Libm, a: Vector3f, axis: Vector3f, angle: real): Vector3f
  {
    var s := lm.sin(-angle);
    var c := lm.cos(-angle);
    var rotatedX := Cross3(a.vec, Mul(axis.vec, Load1f(s)));
    var rotatedY := Mul(axis.vec, Dot3(a.vec, Mul(axis.vec, Load1f(1.0 - c))));
    var rotatedZ := Mul(a.vec, Load1f(c));
    Vector3f(Add(Add(rotatedX, rotatedY), rotatedZ))
  }

  /** Rotating about a unit axis keeps the component along the axis. */
  lemma RotateKeepsAxisComponent(lm: GenericMath.Libm, a: Vector3f, axis: Vector3f, angle: real)
    requires Dot(axis, axis) == 1.0
    ensures Dot(Rotate(lm, a, axis, angle), axis) == Dot(a, axis)
  {
    var s := lm.sin(-angle);
    var c := lm.cos(-angle);
    var v := a.vec;
    var n := axis.vec;
    var x := Cross3(v, Mul(n, Load1f(s)));
    var d := Dot3Value(v, Mul(n, Load1f(1.0 - c)));
    var y := Mul(n, Load1f(d));
    var z := Mul(v, Load1f(c));
    var p := Dot3Value(v, n);
    assert Dot3(v, Mul(n, Load1f(1.0 - c))) == Load1f(d);
    assert Rotate(lm, a, axis, angle).vec == Add(Add(x, y), z);
    DotOfSum(x, y, z, n);
    CrossScaledIsOrthogonal(v, n, s);
    DotScaledOperand(v, n, 1.0 - c);
    DotScaledOperand(n, n, d);
    DotScaledOperand(v, n, c);
    assert Dot3Value(Mul(n, Load1f(d)), n) == d;
    assert Dot3Value(Add(Add(x, y), z), n) == (1.0 - c) * p + c * p;
  }

  /** The dot product distributes over a sum of three vectors. */
  lemma DotOfSum(x: Vec4, y: Vec4, z: Vec4, n: Vec4)
    ensures Dot3Value(Add(Add(x, y), z), n) == Dot3Value(x, n) + Dot3Value(y, n) + Dot3Value(z, n)
  {
  }

  /** v x (n s) is orthogonal to n. */
  lemma CrossScaledIsOrthogonal(v: Vec4, n: Vec4, s: real)
    ensures Dot3Value(Cross3(v, Mul(n, Load1f(s))), n) == 0.0
  {
  }

  /** Scaling one operand lane-wise by k scales the dot product by k. */
  lemma DotScaledOperand(v: Vec4, n: Vec4, k: real)
    ensures Dot3Value(v, Mul(n, Load1f(k))) == k * Dot3Value(v, n)
    ensures Dot3Value(Mul(v, Load1f(k)), n) == k * Dot3Value(v, n)
  {
  }

  /** rotate by angle 0, when sin(0) = 0 and cos(0) = 1, gives back the vector. */
  lemma RotateByZero(lm: GenericMath.Libm, a: Vector3f, axis: Vector3f)
    requires lm.sin(0.0) == 0.0 && lm.cos(0.0) == 1.0
    ensures Rotate(lm, a, axis, 0.0) == a
  {
  }

  /** reflect(normal): v - 2 (v . n) n, lane by lane. */
  function Reflect(a: Vector3f, normal: Vector3f): (r: Vector3f)
    ensures forall i | 0 <= i < 4 :: Lane(r.vec, i) == Lane(a.vec, i) - Lane(normal.vec, i) * (2.0 * Dot(a, normal))
  {
    var dotAmt := Mul(TWO, Dot3(a.vec, normal.vec));
    Vector3f(Sub(a.vec, Mul(normal.vec, dotAmt)))
  }

  /** About a unit normal, reflection negates the normal component and undoes itself. */
  lemma ReflectTwice(a: Vector3f, normal: Vector3f)
    requires Dot(normal, normal) == 1.0
    ensures Dot(Reflect(a, normal), normal) == -Dot(a, normal)
    ensures Reflect(Reflect(a, normal), normal) == a
  {
    var n := normal.vec;
    var d := Dot(a, normal);
    var r := Reflect(a, normal);
    ReflectFields(a, normal);
    ReflectedDot(a.vec, n, r.vec, d);
    ReflectFields(r, normal);
  }

  lemma ReflectFields(a: Vector3f, normal: Vector3f)
    ensures var r, n, k := Reflect(a, normal).vec, normal.vec, 2.0 * Dot(a, normal);
      r.x == a.vec.x - n.x * k && r.y == a.vec.y - n.y * k && r.z == a.vec.z - n.z * k && r.w == a.vec.w - n.w * k
  {
  }

  lemma ReflectedDot(a: Vec4, n: Vec4, r: Vec4, d: real)
    requires Dot3Value(n, n) == 1.0 && d == Dot3Value(a, n)
    requires r.x == a.x - n.x * (2.0 * d) && r.y == a.y - n.y * (2.0 * d) && r.z == a.z - n.z * (2.0 * d)
    ensures Dot3Value(r, n) == -d
  {
    calc {
      Dot3Value(r, n);
      == Dot3Value(a, n) - 2.0 * d * Dot3Value(n, n);
      == -d;
    }
  }

  /** 1 - eta^2 (1 - (v . n)^2), the refraction discriminant. */
  function RefractanceSquared(a: Vector3f, normal: Vector3f, indexOfRefraction: real): real
  {
    var cosNormalAngle := Dot(a, normal);
    1.0 - indexOfRefraction * indexOfRefraction * (1.0 - cosNormalAngle * cosNormalAngle)
  }

  /** refract's factor on the normal, eta (v . n) + sqrt k. */
  function NormalScale(lm: GenericMath.Libm, a: Vector3f, normal: Vector3f, indexOfRefraction: real): real
  {
    indexOfRefraction * Dot(a, normal) + lm.sqrt(RefractanceSquared(a, normal, indexOfRefraction))
  }

  /** refract: the zero vector on total internal reflection, else v eta - (eta (v . n) + sqrt k) n. */
  function Refract(lm: GenericMath.Libm, a: Vector3f, normal: Vector3f, indexOfRefraction: real): (r: Vector3f)
    ensures RefractanceSquared(a, normal, indexOfRefraction) < 0.0 ==> r == Zero()
    ensures 0.0 <= RefractanceSquared(a, normal, indexOfRefraction) ==>
      r == Minus(TimesScalar(a, indexOfRefraction), TimesScalar(normal, NormalScale(lm, a, normal, indexOfRefraction)))
  {
    var refractanceSquared := RefractanceSquared(a, normal, indexOfRefraction);
    if refractanceSquared < 0.0 then
      Vector3f(ZERO)
    else
      Bend(a, normal, indexOfRefraction, NormalScale(lm, a, normal, indexOfRefraction))
  }

  /** v eta - k n, computed as refract writes it with the broadcast factors. */
  function Bend(a: Vector3f, normal: Vector3f, eta: real, normalScale: real): (r: Vector3f)
    ensures r == Minus(TimesScalar(a, eta), TimesScalar(normal, normalScale))
  {
    assert Mul(Load1f(normalScale), normal.vec) == Mul(normal.vec, Load1f(normalScale));
    Vector3f(Sub(Mul(a.vec, Load1f(eta)), Mul(Load1f(normalScale), normal.vec)))
  }

  /** With index 1 and an exact square root, a ray meeting the surface (v . n <= 0) passes straight through. */
  lemma RefractIndexOne(lm: GenericMath.Libm, a: Vector3f, normal: Vector3f)
    requires GenericMath.SqrtIsExact(lm)
    requires Dot(a, normal) <= 0.0
    ensures Refract(lm, a, normal, 1.0) == a
  {
    var c := Dot(a, normal);
    var rs := RefractanceSquared(a, normal, 1.0);
    assert rs == c * c;
    SqrtOfSquare(lm, c);
    TimesScalarZeroOne(a, normal);
  }

  lemma TimesScalarZeroOne(a: Vector3f, b: Vector3f)
    ensures Minus(TimesScalar(a, 1.0), TimesScalar(b, 0.0)) == a
  {
  }

  /** sqrt(c^2) = -c for c <= 0, given an exact square root. */
  lemma SqrtOfSquare(lm: GenericMath.Libm, c: real)
    requires GenericMath.SqrtIsExact(lm)
    requires c <= 0.0
    ensures lm.sqrt(c * c) == -c
  {
    var s := lm.sqrt(c * c);
    assert 0.0 <= s && s * s == c * c;
    assert (s + c) * (s - c) == 0.0;
    if s - c != 0.0 {
      ZeroProduct(s + c, s - c);
    }
  }

  lemma ZeroProduct(x: real, y: real)
    requires x * y == 0.0 && y != 0.0
    ensures x == 0.0
  {
    calc {
      x;
      == x * y / y;
      == 0.0;
    }
  }

  /** toDegrees / toRadians: every lane scaled by the conversion factor. */
  function ToDegrees(a: Vector3f, radToDeg: real): (r: Vector3f)
    ensures r == TimesScalar(a, radToDeg)
  {
    Vector3f(Mul(a.vec, Load1f(radToDeg)))
  }

  function ToRadians(a: Vector3f, degToRad: real): (r: Vector3f)
    ensures r == TimesScalar(a, degToRad)
  {
    Vector3f(Mul(a.vec, Load1f(degToRad)))
  }

  /** With reciprocal conversion factors, toRadians undoes toDegrees. */
  lemma DegreesRoundTrip(a: Vector3f, radToDeg: real, degToRad: real)
    requires radToDeg * degToRad == 1.0
    ensures ToRadians(ToDegrees(a, radToDeg), degToRad) == a
  {
    var v := a.vec;
    assert v.x * radToDeg * degToRad == v.x * (radToDeg * degToRad);
    assert v.y * radToDeg * degToRad == v.y * (radToDeg * degToRad);
    assert v.z * radToDeg * degToRad == v.z * (radToDeg * degToRad);
    assert v.w * radToDeg * degToRad == v.w * (radToDeg * degToRad);
  }

  // ---------------------------------------------------------------------
  // In-place updates
  // ---------------------------------------------------------------------

  /** A Vector3f variable: the compound operators and `set` overwrite `vec`. */
  class Vector3fVar {
    var vec: Vec4

    function Value(): Vector3f
      reads this
    {
      Vector3f(vec)
    }

    constructor (v: Vector3f)
      ensures Value() == v
    {
      vec := v.vec;
    }

    /** operator+=: returns a copy of the updated value. */
    method AddAssign(other: Vector3f) returns (r: Vector3f)
      modifies this
      ensures Value() == Plus(old(Value()), other) && r == Value()
    {
      vec := Add(vec, other.vec);
      r := Value();
    }

    method SubAssign(other: Vector3f) returns (r: Vector3f)
      modifies this
      ensures Value() == Minus(old(Value()), other) && r == Value()
    {
      vec := Sub(vec, other.vec);
      r := Value();
    }

    method MulAssign(other: Vector3f) returns (r: Vector3f)
      modifies this
      ensures Value() == Times(old(Value()), other) && r == Value()
    {
      vec := Mul(vec, other.vec);
      r := Value();
    }

    method DivAssign(other: Vector3f) returns (r: Vector3f)
      requires other.vec.x != 0.0 && other.vec.y != 0.0 && other.vec.z != 0.0
      modifies this
      ensures Value() == Quotient(old(Value()), other) && r == Value()
    {
      vec := Quotient(Value(), other).vec;
      r := Value();
    }

    method AddScalarAssign(val: real) returns (r: Vector3f)
      modifies this
      ensures Value() == PlusScalar(old(Value()), val) && r == Value()
    {
      vec := Add(vec, Load1f(val));
      r := Value();
    }

    method SubScalarAssign(val: real) returns (r: Vector3f)
      modifies this
      ensures Value() == MinusScalar(old(Value()), val) && r == Value()
    {
      vec := Sub(vec, Load1f(val));
      r := Value();
    }

    method MulScalarAssign(val: real) returns (r: Vector3f)
      modifies this
      ensures Value() == TimesScalar(old(Value()), val) && r == Value()
    {
      vec := Mul(vec, Load1f(val));
      r := Value();
    }

    /** operator/=(val): multiplies by reciprocal(val), like the binary operator. */
    method DivScalarAssign(val: real) returns (r: Vector3f)
      requires val != 0.0
      modifies this
      ensures Value() == QuotientScalar(old(Value()), val) && r == Value()
    {
      vec := Mul(vec, Load1f(GenericMath.Reciprocal(val)));
      r := Value();
    }

    /** set(x, y, z): lane 3 becomes 0. */
    method Set(x: real, y: real, z: real)
      modifies this
      ensures Value() == Make(x, y, z)
    {
      vec := Set3(x, y, z);
    }

    /** set(index, val): a select against mask(index); only lane `index` changes. */
    method SetLane(index: nat, val: real)
      requires index < 4
      modifies this
      ensures forall i | 0 <= i < 4 :: Lane(vec, i) == (if i == index then val else Lane(old(vec), i))
    {
      vec := Select(vec, MaskFor(index), Load1f(val));
    }
  }
}

/**
 * Vector2f: a plain pair of floats.  vector2.hpp's declarations (the
 * constructors, dot, lengthSquared and the arithmetic operators) are
 * modelled component-wise here.
 */
module Vector2 {
  import GenericMath
  import opened GenericVecmath

  datatype Vector2f = Vector2f(x: real, y: real)

  function Splat(val: real): Vector2f
  {
    Vector2f(val, val)
  }

  function Get(a: Vector2f, index: nat): real
    requires index < 2
  {
    if index == 0 then a.x else a.y
  }

  function Dot(a: Vector2f, b: Vector2f): real
  {
    a.x * b.x + a.y * b.y
  }

  function LengthSquared(a: Vector2f): (r: real)
    ensures 0.0 <= r
  {
    Dot(a, a)
  }

  function Minus(a: Vector2f, b: Vector2f): Vector2f
  {
    Vector2f(a.x - b.x, a.y - b.y)
  }

  function Times(a: Vector2f, b: Vector2f): Vector2f
  {
    Vector2f(a.x * b.x, a.y * b.y)
  }

  function TimesScalar(a: Vector2f, k: real): Vector2f
  {
    Vector2f(a.x * k, a.y * k)
  }

  /** operator==: both components equal. */
  function Equal(a: Vector2f, b: Vector2f): (r: bool)
    ensures r <==> a == b
  {
    a.x == b.x && a.y == b.y
  }

  /** operator!=: some component differs, the negation of ==. */
  function NotEqual(a: Vector2f, b: Vector2f): (r: bool)
    ensures r <==> !Equal(a, b)
  {
    a.x != b.x || a.y != b.y
  }

  /** equals(other, margin): one-sided, a_i - b_i < margin with no absolute value. */
  function ApproxEquals(a: Vector2f, b: Vector2f, margin: real): (r: bool)
    ensures r <==> forall i | 0 <= i < 2 :: Get(a, i) - Get(b, i) < margin
  {
    assert Get(a, 0) == a.x && Get(a, 1) == a.y && Get(b, 0) == b.x && Get(b, 1) == b.y;
    (a.x - b.x) < margin && (a.y - b.y) < margin
  }

  function ApproxEqualsScalar(a: Vector2f, val: real, margin: real): (r: bool)
    ensures r <==> ApproxEquals(a, Splat(val), margin)
  {
    (a.x - val) < margin && (a.y - val) < margin
  }

  /** The one-sided test accepts any vector that is smaller, however far away. */
  lemma ApproxEqualsIsOneSided()
    ensures ApproxEquals(Vector2f(0.0, 0.0), Vector2f(5.0, 5.0), 0.0001)
    ensures !ApproxEquals(Vector2f(5.0, 5.0), Vector2f(0.0, 0.0), 0.0001)
  {
  }

  function MaxComponent(a: Vector2f): (r: real)
    ensures a.x <= r && a.y <= r && (r == a.x || r == a.y)
  {
    GenericMath.Max(a.x, a.y)
  }

  function MinComponent(a: Vector2f): (r: real)
    ensures r <= a.x && r <= a.y && (r == a.x || r == a.y)
  {
    GenericMath.Min(a.x, a.y)
  }

  function AbsMax(a: Vector2f): (r: real)
    ensures r == MaxComponent(AbsVec(a))
  {
    GenericMath.Max(GenericMath.Abs(a.x), GenericMath.Abs(a.y))
  }

  function AbsMin(a: Vector2f): (r: real)
    ensures r == MinComponent(AbsVec(a))
  {
    GenericMath.Min(GenericMath.Abs(a.x), GenericMath.Abs(a.y))
  }

  function AbsVec(a: Vector2f): (r: Vector2f)
    ensures 0.0 <= r.x && 0.0 <= r.y
    ensures r.x * r.x == a.x * a.x && r.y * r.y == a.y * a.y
  {
    Vector2f(GenericMath.Abs(a.x), GenericMath.Abs(a.y))
  }

  function MinVec(a: Vector2f, b: Vector2f): (r: Vector2f)
    ensures r.x <= a.x && r.x <= b.x && r.y <= a.y && r.y <= b.y
    ensures (r.x == a.x || r.x == b.x) && (r.y == a.y || r.y == b.y)
  {
    Vector2f(GenericMath.Min(a.x, b.x), GenericMath.Min(a.y, b.y))
  }

  function MaxVec(a: Vector2f, b: Vector2f): (r: Vector2f)
    ensures a.x <= r.x && b.x <= r.x && a.y <= r.y && b.y <= r.y
    ensures (r.x == a.x || r.x == b.x) && (r.y == a.y || r.y == b.y)
  {
    Vector2f(GenericMath.Max(a.x, b.x), GenericMath.Max(a.y, b.y))
  }

  /** The divisor rsqrt needs: sqrt of the squared length is nonzero whenever it is not below the margin. */
  predicate CanNormalize(lm: GenericMath.Libm, a: Vector2f, errorMargin: real)
  {
    LengthSquared(a) >= errorMargin ==> lm.sqrt(LengthSquared(a)) != 0.0
  }

  /** normalized(errorMargin): (0, 0) below the margin, else this * rsqrt(|v|^2). */
  function Normalized(lm: GenericMath.Libm, a: Vector2f, errorMargin: real): (r: Vector2f)
    requires CanNormalize(lm, a, errorMargin)
    ensures LengthSquared(a) < errorMargin ==> r == Vector2f(0.0, 0.0)
    ensures LengthSquared(a) >= errorMargin ==>
      r.x * lm.sqrt(LengthSquared(a)) == a.x && r.y * lm.sqrt(LengthSquared(a)) == a.y
  {
    var lenSq := LengthSquared(a);
    if lenSq < errorMargin then
      Vector2f(0.0, 0.0)
    else
      var k := GenericMath.Rsqrt(lm, lenSq);
      assert a.x * k * lm.sqrt(lenSq) == a.x * (k * lm.sqrt(lenSq));
      assert a.y * k * lm.sqrt(lenSq) == a.y * (k * lm.sqrt(lenSq));
      TimesScalar(a, k)
  }

  predicate IsNormalized(a: Vector2f, errorMargin: real)
  {
    GenericMath.Abs(1.0 - LengthSquared(a)) < errorMargin
  }

  /** With an exact square root, a vector at or above the margin normalizes to unit length. */
  lemma NormalizedIsUnit(lm: GenericMath.Libm, a: Vector2f, errorMargin: real)
    requires GenericMath.SqrtIsExact(lm)
    requires 0.0 < errorMargin <= LengthSquared(a)
    ensures CanNormalize(lm, a, errorMargin)
    ensures LengthSquared(Normalized(lm, a, errorMargin)) == 1.0
    ensures IsNormalized(Normalized(lm, a, errorMargin), errorMargin)
  {
    var l2 := LengthSquared(a);
    var s := lm.sqrt(l2);
    assert s * s == l2;
    assert s != 0.0;
    var r := Normalized(lm, a, errorMargin);
    assert r.x * s == a.x && r.y * s == a.y;
    assert (r.x * r.x + r.y * r.y) * (s * s) == (r.x * s) * (r.x * s) + (r.y * s) * (r.y * s);
    assert LengthSquared(r) * l2 == l2;
  }

  /** dirAndLength: ((0, 0), 0) below the margin, else (this * rlen, 1 / rlen) with rlen = rsqrt(|v|^2). */
  method DirAndLength(lm: GenericMath.Libm, a: Vector2f, errorMargin: real) returns (dir: Vector2f, length: real)
    requires CanNormalize(lm, a, errorMargin)
    ensures dir == Normalized(lm, a, errorMargin)
    ensures LengthSquared(a) < errorMargin ==> length == 0.0
    ensures LengthSquared(a) >= errorMargin ==> length == lm.sqrt(LengthSquared(a))
  {
    var lenSq := LengthSquared(a);
    if lenSq < errorMargin {
      dir := Vector2f(0.0, 0.0);
      length := 0.0;
      return;
    }
    var rlen := GenericMath.Rsqrt(lm, lenSq);
    dir := TimesScalar(a, rlen);
    length := GenericMath.Reciprocal(rlen);
  }

  function ReciprocalVec(a: Vector2f): (r: Vector2f)
    requires a.x != 0.0 && a.y != 0.0
    ensures r.x * a.x == 1.0 && r.y * a.y == 1.0
  {
    Vector2f(GenericMath.Reciprocal(a.x), GenericMath.Reciprocal(a.y))
  }

  /** rotate(angle): (c x - s y, s x + c y) with s, c = sincos(angle). */
  function Rotate(lm: GenericMath.Libm, a: Vector2f, angle: real): Vector2f
  {
    var s := lm.sin(angle);
    var c := lm.cos(angle);
    Vector2f(c * a.x - s * a.y, s * a.x + c * a.y)
  }

  /** When sin^2 + cos^2 = 1 at the angle, rotation keeps the squared length. */
  lemma RotateKeepsLength(lm: GenericMath.Libm, a: Vector2f, angle: real)
    requires lm.sin(angle) * lm.sin(angle) + lm.cos(angle) * lm.cos(angle) == 1.0
    ensures LengthSquared(Rotate(lm, a, angle)) == LengthSquared(a)
  {
    var s := lm.sin(angle);
    var c := lm.cos(angle);
    RotationSquares(s, c, a.x, a.y);
  }

  lemma RotationSquares(s: real, c: real, x: real, y: real)
    requires s * s + c * c == 1.0
    ensures (c * x - s * y) * (c * x - s * y) + (s * x + c * y) * (s * x + c * y) == x * x + y * y
  {
    calc {
      (c * x - s * y) * (c * x - s * y) + (s * x + c * y) * (s * x + c * y);
      == (s * s + c * c) * (x * x) + (s * s + c * c) * (y * y);
      == x * x + y * y;
    }
  }

  /** reflect(normal): this - normal * (2 (this . normal)). */
  function Reflect(a: Vector2f, normal: Vector2f): (r: Vector2f)
    ensures r.x == a.x - normal.x * (2.0 * Dot(a, normal))
    ensures r.y == a.y - normal.y * (2.0 * Dot(a, normal))
  {
    var dotAmt := Splat(2.0 * Dot(a, normal));
    Minus(a, Times(normal, dotAmt))
  }

  lemma ReflectTwice(a: Vector2f, normal: Vector2f)
    requires Dot(normal, normal) == 1.0
    ensures Dot(Reflect(a, normal), normal) == -Dot(a, normal)
    ensures Reflect(Reflect(a, normal), normal) == a
  {
    var d := Dot(a, normal);
    var r := Reflect(a, normal);
    assert Dot(r, normal) == d - 2.0 * d * Dot(normal, normal);
  }

  function RefractanceSquared(a: Vector2f, normal: Vector2f, indexOfRefraction: real): real
  {
    var cosNormalAngle := Dot(a, normal);
    1.0 - indexOfRefraction * indexOfRefraction * (1.0 - cosNormalAngle * cosNormalAngle)
  }

  /** refract: (0, 0) on total internal reflection, else this eta - (eta (v . n) + sqrt k) normal. */
  function Refract(lm: GenericMath.Libm, a: Vector2f, normal: Vector2f, indexOfRefraction: real): (r: Vector2f)
    ensures RefractanceSquared(a, normal, indexOfRefraction) < 0.0 ==> r == Vector2f(0.0, 0.0)
    ensures 0.0 <= RefractanceSquared(a, normal, indexOfRefraction) ==>
      var k := indexOfRefraction * Dot(a, normal) + lm.sqrt(RefractanceSquared(a, normal, indexOfRefraction));
      r == Minus(TimesScalar(a, indexOfRefraction), TimesScalar(normal, k))
  {
    var cosNormalAngle := Dot(a, normal);
    var refractanceSquared := RefractanceSquared(a, normal, indexOfRefraction);
    if refractanceSquared < 0.0 then
      Splat(0.0)
    else
      var normalScale := indexOfRefraction * cosNormalAngle + lm.sqrt(refractanceSquared);
      assert Times(Splat(normalScale), normal) == TimesScalar(normal, normalScale);
      Minus(Times(a, Splat(indexOfRefraction)), Times(Splat(normalScale), normal))
  }

  function ToDegrees(a: Vector2f, radToDeg: real): (r: Vector2f)
    ensures r == TimesScalar(a, radToDeg)
  {
    Vector2f(radToDeg * a.x, radToDeg * a.y)
  }

  function ToRadians(a: Vector2f, degToRad: real): (r: Vector2f)
    ensures r == TimesScalar(a, degToRad)
  {
    Vector2f(degToRad * a.x, degToRad * a.y)
  }

  /** toVector(other): (x, y, other.x, other.y). */
  function ToVectorWith(a: Vector2f, other: Vector2f): (r: Vec4)
    ensures r.x == a.x && r.y == a.y && r.z == other.x && r.w == other.y
  {
    Vec4(a.x, a.y, other.x, other.y)
  }

  /** toVector(z, w) and toVector() reach the four-lane form through toVector(other). */
  function ToVectorZW(a: Vector2f, z: real, w: real): (r: Vec4)
    ensures r == Vec4(a.x, a.y, z, w)
  {
    ToVectorWith(a, Vector2f(z, w))
  }

  function ToVector(a: Vector2f): (r: Vec4)
    ensures r == Vec4(a.x, a.y, 0.0, 0.0)
  {
    ToVectorZW(a, 0.0, 0.0)
  }

  /** A Vector2f variable: `set` overwrites `vals` in place. */
  class Vector2fVar {
    var vals: Vector2f

    constructor (v: Vector2f)
      ensures vals == v
    {
      vals := v;
    }

    method Set(x: real, y: real)
      modifies this
      ensures vals == Vector2f(x, y)
    {
      vals := Vector2f(x, y);
    }

    /** set(index, val): index must be 0 or 1; the other component is kept. */
    method SetLane(index: nat, val: real)
      requires index < 2
      modifies this
      ensures Get(vals, index) == val
      ensures Get(vals, 1 - index) == Get(old(vals), 1 - index)
    {
      if index == 0 {
        vals := vals.(x := val);
      } else {
        vals := vals.(y := val);
      }
    }
  }
}
