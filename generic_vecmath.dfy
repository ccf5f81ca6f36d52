/**
 * The portable four-lane vector backend.  A lane is an exact real; a
 * comparison mask lane is a boolean (the backend stores the float
 * conversion of 0xFFFFFFFF for true and 0 for false, and `select` tests the
 * lane's bits for nonzero, so only the truth value matters).
 *
 * A 4x4 matrix is four row vectors; the translation of an affine transform
 * lives in lane 3 of rows 0-2.
 */
module GenericVecmath {
  import opened GenericMath

  datatype Vec4 = Vec4(x: real, y: real, z: real, w: real)

  datatype Mask4 = Mask4(x: bool, y: bool, z: bool, w: bool)

  type Mat4 = m: seq<Vec4> | |m| == 4
    witness [Vec4(0.0, 0.0, 0.0, 0.0), Vec4(0.0, 0.0, 0.0, 0.0), Vec4(0.0, 0.0, 0.0, 0.0), Vec4(0.0, 0.0, 0.0, 0.0)]

  /** operator[]. */
  function Lane(v: Vec4, i: nat): real
    requires i < 4
  {
    match i
    case 0 => v.x
    case 1 => v.y
    case 2 => v.z
    case 3 => v.w
  }

  function MaskLane(m: Mask4, i: nat): bool
    requires i < 4
  {
    match i
    case 0 => m.x
    case 1 => m.y
    case 2 => m.z
    case 3 => m.w
  }

  function At(m: Mat4, i: nat, j: nat): real
    requires i < 4 && j < 4
  {
    Lane(m[i], j)
  }

  // ---------------------------------------------------------------------
  // Construction
  // ---------------------------------------------------------------------

  function Load1f(val: real): Vec4
  {
    Vec4(val, val, val, val)
  }

  /** set(x, y, z): lane 3 becomes 0. */
  function Set3(x: real, y: real, z: real): (r: Vec4)
    ensures r.w == 0.0 && Lane(r, 0) == x && Lane(r, 1) == y && Lane(r, 2) == z
  {
    Vec4(x, y, z, 0.0)
  }

  /** mask(index): lane `index` false, the other three true. */
  function MaskFor(index: nat): (r: Mask4)
    requires index < 4
    ensures forall i | 0 <= i < 4 :: MaskLane(r, i) <==> i != index
  {
    Mask4(index != 0, index != 1, index != 2, index != 3)
  }

  function Replicate(v: Vec4, index: nat): Vec4
    requires index < 4
  {
    Load1f(Lane(v, index))
  }

  // ---------------------------------------------------------------------
  // Lane-wise arithmetic
  // ---------------------------------------------------------------------

  function Add(a: Vec4, b: Vec4): Vec4
  {
    Vec4(a.x + b.x, a.y + b.y, a.z + b.z, a.w + b.w)
  }

  function Sub(a: Vec4, b: Vec4): Vec4
  {
    Vec4(a.x - b.x, a.y - b.y, a.z - b.z, a.w - b.w)
  }

  function Mul(a: Vec4, b: Vec4): Vec4
  {
    Vec4(a.x * b.x, a.y * b.y, a.z * b.z, a.w * b.w)
  }

  predicate NoZeroLane(v: Vec4)
  {
    v.x != 0.0 && v.y != 0.0 && v.z != 0.0 && v.w != 0.0
  }

  function Div(a: Vec4, b: Vec4): (r: Vec4)
    requires NoZeroLane(b)
    ensures Mul(r, b) == a
  {
    Vec4(a.x / b.x, a.y / b.y, a.z / b.z, a.w / b.w)
  }

  function Neg(a: Vec4): (r: Vec4)
    ensures Add(r, a) == Load1f(0.0)
  {
    Vec4(-a.x, -a.y, -a.z, -a.w)
  }

  function AbsV(a: Vec4): Vec4
  {
    Vec4(Abs(a.x), Abs(a.y), Abs(a.z), Abs(a.w))
  }

  function MinV(a: Vec4, b: Vec4): Vec4
  {
    Vec4(Min(a.x, b.x), Min(a.y, b.y), Min(a.z, b.z), Min(a.w, b.w))
  }

  function MaxV(a: Vec4, b: Vec4): Vec4
  {
    Vec4(Max(a.x, b.x), Max(a.y, b.y), Max(a.z, b.z), Max(a.w, b.w))
  }

  /** this * mul + add, lane by lane. */
  function MadV(a: Vec4, mul: Vec4, add: Vec4): (r: Vec4)
    ensures r == Add(Mul(a, mul), add)
  {
    Vec4(Mad(a.x, mul.x, add.x), Mad(a.y, mul.y, add.y), Mad(a.z, mul.z, add.z), Mad(a.w, mul.w, add.w))
  }

  function ReciprocalV(a: Vec4): (r: Vec4)
    requires NoZeroLane(a)
    ensures Mul(r, a) == Load1f(1.0)
  {
    Vec4(Reciprocal(a.x), Reciprocal(a.y), Reciprocal(a.z), Reciprocal(a.w))
  }

  predicate RsqrtDefined(lm: Libm, a: Vec4)
  {
    lm.sqrt(a.x) != 0.0 && lm.sqrt(a.y) != 0.0 && lm.sqrt(a.z) != 0.0 && lm.sqrt(a.w) != 0.0
  }

  function RsqrtV(lm: Libm, a: Vec4): (r: Vec4)
    requires RsqrtDefined(lm, a)
    ensures Mul(r, Vec4(lm.sqrt(a.x), lm.sqrt(a.y), lm.sqrt(a.z), lm.sqrt(a.w))) == Load1f(1.0)
  {
    Vec4(Rsqrt(lm, a.x), Rsqrt(lm, a.y), Rsqrt(lm, a.z), Rsqrt(lm, a.w))
  }

  // ---------------------------------------------------------------------
  // Dot and cross products
  // ---------------------------------------------------------------------

  function Dot3Value(a: Vec4, b: Vec4): real
  {
    a.x * b.x + a.y * b.y + a.z * b.z
  }

  function Dot4Value(a: Vec4, b: Vec4): real
  {
    a.x * b.x + a.y * b.y + a.z * b.z + a.w * b.w
  }

  /** The three-lane dot product broadcast into every lane; lane 3 is ignored. */
  function Dot3(a: Vec4, b: Vec4): (r: Vec4)
    ensures r == Load1f(Dot3Value(a, b))
    ensures forall aw: real, bw: real {:trigger Vec4(a.x, a.y, a.z, aw), Vec4(b.x, b.y, b.z, bw)} ::
      Dot3Value(Vec4(a.x, a.y, a.z, aw), Vec4(b.x, b.y, b.z, bw)) == Dot3Value(a, b)
  {
    var d := a.x * b.x + a.y * b.y + a.z * b.z;
    Vec4(d, d, d, d)
  }

  /** The four-lane dot product broadcast into every lane. */
  function Dot4(a: Vec4, b: Vec4): (r: Vec4)
    ensures r == Load1f(Dot3Value(a, b) + a.w * b.w)
  {
    var d := a.x * b.x + a.y * b.y + a.z * b.z + a.w * b.w;
    Vec4(d, d, d, d)
  }

  /** The cross product of the xyz parts, with lane 3 set to 0. */
  function Cross3(a: Vec4, b: Vec4): (r: Vec4)
    ensures r.w == 0.0
  {
    Vec4(a.y * b.z - a.z * b.y, a.z * b.x - a.x * b.z, a.x * b.y - a.y * b.x, 0.0)
  }

  /** The cross product is orthogonal to both operands. */
  lemma Cross3Orthogonal(a: Vec4, b: Vec4)
    ensures Dot3Value(Cross3(a, b), a) == 0.0 && Dot3Value(Cross3(a, b), b) == 0.0
  {
  }

  lemma Cross3AntiCommutes(a: Vec4, b: Vec4)
    ensures Cross3(b, a) == Neg(Cross3(a, b)).(w := 0.0)
  {
  }

  /** The concrete dot and cross cases the vector tests check. */
  lemma DotCrossExamples()
    ensures Dot4(Vec4(1.0, 2.0, 3.0, 4.0), Vec4(3.0, 4.0, 5.0, 6.0)) == Load1f(50.0)
    ensures Dot3(Vec4(1.0, 2.0, 3.0, 4.0), Vec4(3.0, 4.0, 5.0, 6.0)) == Load1f(26.0)
    ensures Cross3(Vec4(1.0, 2.0, 3.0, 0.0), Vec4(3.0, 4.0, 5.0, 0.0)) == Vec4(-2.0, 4.0, -2.0, 0.0)
  {
  }

  function Rlen3(lm: Libm, a: Vec4): Vec4
    requires lm.sqrt(Dot3Value(a, a)) != 0.0
  {
    RsqrtV(lm, Dot3(a, a))
  }

  function Rlen4(lm: Libm, a: Vec4): Vec4
    requires lm.sqrt(Dot4Value(a, a)) != 0.0
  {
    RsqrtV(lm, Dot4(a, a))
  }

  /** this * rlen3: every lane (lane 3 included) scaled by 1/|xyz|. */
  function Normalize3(lm: Libm, a: Vec4): Vec4
    requires lm.sqrt(Dot3Value(a, a)) != 0.0
  {
    Mul(a, Rlen3(lm, a))
  }

  function Normalize4(lm: Libm, a: Vec4): Vec4
    requires lm.sqrt(Dot4Value(a, a)) != 0.0
  {
    Mul(a, Rlen4(lm, a))
  }

  /** With an exact square root, normalize3 and normalize4 give unit length. */
  lemma NormalizeIsUnit(lm: Libm, a: Vec4)
    requires SqrtIsExact(lm)
    ensures lm.sqrt(Dot3Value(a, a)) != 0.0 ==> Dot3Value(Normalize3(lm, a), Normalize3(lm, a)) == 1.0
    ensures lm.sqrt(Dot4Value(a, a)) != 0.0 ==> Dot4Value(Normalize4(lm, a), Normalize4(lm, a)) == 1.0
  {
    if lm.sqrt(Dot3Value(a, a)) != 0.0 {
      UnitAfterScaling(lm, a, Dot3Value(a, a), Rsqrt(lm, Dot3Value(a, a)));
    }
    if lm.sqrt(Dot4Value(a, a)) != 0.0 {
      UnitAfterScaling(lm, a, Dot4Value(a, a), Rsqrt(lm, Dot4Value(a, a)));
    }
  }

  /** A vector whose length is already 1 is left unchanged by normalize3. */
  lemma Normalize3OfUnit(lm: Libm, a: Vec4)
    requires lm.sqrt(Dot3Value(a, a)) == 1.0
    ensures Normalize3(lm, a) == a
  {
    RsqrtVOfOne(lm, Dot3(a, a));
    MulByOne(a);
  }

  /** rsqrt of lanes whose square root is 1 is 1 in every lane. */
  lemma RsqrtVOfOne(lm: Libm, v: Vec4)
    requires lm.sqrt(v.x) == 1.0 && lm.sqrt(v.y) == 1.0 && lm.sqrt(v.z) == 1.0 && lm.sqrt(v.w) == 1.0
    ensures RsqrtV(lm, v) == Load1f(1.0)
  {
  }

  lemma MulByOne(a: Vec4)
    ensures Mul(a, Load1f(1.0)) == a
  {
  }

  lemma UnitAfterScaling(lm: Libm, a: Vec4, len2: real, k: real)
    requires SqrtIsExact(lm)
    requires len2 == Dot4Value(a, a) || len2 == Dot3Value(a, a)
    requires lm.sqrt(len2) != 0.0 && k == Rsqrt(lm, len2)
    ensures len2 == Dot3Value(a, a) ==> Dot3Value(Mul(a, Load1f(k)), Mul(a, Load1f(k))) == 1.0
    ensures len2 == Dot4Value(a, a) ==> Dot4Value(Mul(a, Load1f(k)), Mul(a, Load1f(k))) == 1.0
  {
    assert 0.0 <= len2;
    if len2 == 0.0 {
      assert false;
    }
    RsqrtLaw(lm, len2);
    assert k * k * len2 == 1.0;
    DotScaled(a, k);
  }

  /** Scaling every lane by k scales the squared lengths by k * k. */
  lemma DotScaled(a: Vec4, k: real)
    ensures Dot3Value(Mul(a, Load1f(k)), Mul(a, Load1f(k))) == k * k * Dot3Value(a, a)
    ensures Dot4Value(Mul(a, Load1f(k)), Mul(a, Load1f(k))) == k * k * Dot4Value(a, a)
  {
    var b := Mul(a, Load1f(k));
    SquaresScaled(a.x, a.y, a.z, a.w, k, b.x, b.y, b.z, b.w);
  }

  lemma SquaresScaled(x: real, y: real, z: real, w: real, k: real, bx: real, b_y: real, bz: real, bw: real)
    requires bx == x * k && b_y == y * k && bz == z * k && bw == w * k
    ensures bx * bx + b_y * b_y + bz * bz == k * k * (x * x + y * y + z * z)
    ensures bx * bx + b_y * b_y + bz * bz + bw * bw == k * k * (x * x + y * y + z * z + w * w)
  {
  }

  // ---------------------------------------------------------------------
  // Quaternions (x, y, z, w) with w in lane 3
  // ---------------------------------------------------------------------

  /** The Hamilton product written out, as the backend's commented naive form states it. */
  function HamiltonProduct(a: Vec4, b: Vec4): Vec4
  {
    Vec4(HamiltonX(a, b), HamiltonY(a, b), HamiltonZ(a, b), HamiltonW(a, b))
  }

  /** The Hamilton product's lanes, one function each so that a lane can be used on its own. */
  function HamiltonX(a: Vec4, b: Vec4): real
  {
    a.x * b.w + a.w * b.x + a.y * b.z - a.z * b.y
  }

  function HamiltonY(a: Vec4, b: Vec4): real
  {
    a.y * b.w + a.w * b.y + a.z * b.x - a.x * b.z
  }

  function HamiltonZ(a: Vec4, b: Vec4): real
  {
    a.z * b.w + a.w * b.z + a.x * b.y - a.y * b.x
  }

  function HamiltonW(a: Vec4, b: Vec4): real
  {
    a.w * b.w - a.x * b.x - a.y * b.y - a.z * b.z
  }

  /** The eight-multiplication quaternion product. */
  function QuatMul(a: Vec4, b: Vec4): Vec4
  {
    var t0 := (a.z - a.y) * (b.y - b.z);
    var t1 := (a.w + a.x) * (b.w + b.x);
    var t2 := (a.w - a.x) * (b.y + b.z);
    var t3 := (a.z + a.y) * (b.w - b.x);
    var t4 := (a.z - a.x) * (b.x - b.y);
    var t5 := (a.z + a.x) * (b.x + b.y);
    var t6 := (a.w + a.y) * (b.w - b.z);
    var t7 := (a.w - a.y) * (b.w + b.z);
    var t8 := t5 + t6 + t7;
    var t9 := 0.5 * (t4 + t8);
    Vec4(t1 + t9 - t8, t2 + t9 - t7, t3 + t9 - t6, t0 + t9 - t5)
  }

  lemma QuatMulLane(ax: real, ay: real, az: real, aw: real, bx: real, b_y: real, bz: real, bw: real)
    ensures var t0 := (az - ay) * (b_y - bz);
      var t1 := (aw + ax) * (bw + bx);
      var t2 := (aw - ax) * (b_y + bz);
      var t3 := (az + ay) * (bw - bx);
      var t4 := (az - ax) * (bx - b_y);
      var t5 := (az + ax) * (bx + b_y);
      var t6 := (aw + ay) * (bw - bz);
      var t7 := (aw - ay) * (bw + bz);
      var t8 := t5 + t6 + t7;
      var t9 := 0.5 * (t4 + t8);
      t1 + t9 - t8 == ax * bw + aw * bx + ay * bz - az * b_y &&
      t2 + t9 - t7 == ay * bw + aw * b_y + az * bx - ax * bz &&
      t3 + t9 - t6 == az * bw + aw * bz + ax * b_y - ay * bx &&
      t0 + t9 - t5 == aw * bw - ax * bx - ay * b_y - az * bz
  {
  }

  /** The eight-multiplication form equals the Hamilton product lane for lane. */
  lemma QuatMulIsHamilton(a: Vec4, b: Vec4)
    ensures QuatMul(a, b) == HamiltonProduct(a, b)
  {
    QuatMulLane(a.x, a.y, a.z, a.w, b.x, b.y, b.z, b.w);
  }

  /**
   * v + w*t + q x t with t = 2 (q x v).  For every q (unit or not) this is
   * v (1 - 2|u|^2) + 2u (u.v) + 2w (u x v) on xyz, with u = q.xyz, and it
   * keeps v's lane 3.
   */
  function QuatRotateVec(q: Vec4, v: Vec4): (r: Vec4)
    ensures r.w == v.w
  {
    var tmp := Mul(Load1f(2.0), Cross3(q, v));
    Add(Add(v, Mul(tmp, Replicate(q, 3))), Cross3(q, tmp))
  }

  /** v (1 - 2|u|^2) + 2u (u.v) + 2w (u x v), written without cross products of cross products. */
  function RotationFormula(q: Vec4, v: Vec4): Vec4
  {
    RotationTerms(q, v, Dot3Value(q, q), Dot3Value(q, v), Cross3(q, v))
  }

  /** The closed formula's lanes for given |u|^2, u.v and u x v. */
  function RotationTerms(q: Vec4, v: Vec4, uu: real, uv: real, c: Vec4): Vec4
  {
    Vec4(v.x * (1.0 - 2.0 * uu) + 2.0 * q.x * uv + 2.0 * q.w * c.x,
         v.y * (1.0 - 2.0 * uu) + 2.0 * q.y * uv + 2.0 * q.w * c.y,
         v.z * (1.0 - 2.0 * uu) + 2.0 * q.z * uv + 2.0 * q.w * c.z,
         v.w)
  }

  /** One lane of quatRotateVec against the closed formula, over scalars. */
  lemma RotateLane(qx: real, qy: real, qz: real, qw: real, vx: real, vy: real, vz: real,
                   tx: real, ty: real, tz: real, uu: real, uv: real, cx: real, cy: real, cz: real)
    requires cx == qy * vz - qz * vy && cy == qz * vx - qx * vz && cz == qx * vy - qy * vx
    requires tx == 2.0 * cx && ty == 2.0 * cy && tz == 2.0 * cz
    requires uu == qx * qx + qy * qy + qz * qz
    requires uv == qx * vx + qy * vy + qz * vz
    ensures vx + tx * qw + (qy * tz - qz * ty) == vx * (1.0 - 2.0 * uu) + 2.0 * qx * uv + 2.0 * qw * cx
  {
    MulSubst(tx, 2.0 * cx, qw);
    MulSubst(tz, 2.0 * cz, qy);
    MulSubst(ty, 2.0 * cy, qz);
    MulSubst(cz, qx * vy - qy * vx, qy);
    MulSubst(cy, qz * vx - qx * vz, qz);
    MulSubst(uu, qx * qx + qy * qy + qz * qz, vx);
    MulSubst(uv, qx * vx + qy * vy + qz * vz, qx);
  }

  /** r's lanes are quatRotateVec's sums v + w*t + q x t, for a given t. */
  predicate StepLanes(q: Vec4, v: Vec4, r: Vec4, t: Vec4)
  {
    r.x == v.x + t.x * q.w + (q.y * t.z - q.z * t.y) &&
    r.y == v.y + t.y * q.w + (q.z * t.x - q.x * t.z) &&
    r.z == v.z + t.z * q.w + (q.x * t.y - q.y * t.x)
  }

  /** f's lanes are the closed formula's terms, for given |u|^2, u.v and u x v. */
  predicate FormulaLanes(q: Vec4, v: Vec4, f: Vec4, uu: real, uv: real, c: Vec4)
  {
    f.x == v.x * (1.0 - 2.0 * uu) + 2.0 * q.x * uv + 2.0 * q.w * c.x &&
    f.y == v.y * (1.0 - 2.0 * uu) + 2.0 * q.y * uv + 2.0 * q.w * c.y &&
    f.z == v.z * (1.0 - 2.0 * uu) + 2.0 * q.z * uv + 2.0 * q.w * c.z
  }

  /** uu, uv and c are |u|^2, u.v and u x v for u = q.xyz. */
  predicate RotationAtoms(q: Vec4, v: Vec4, uu: real, uv: real, c: Vec4)
  {
    uu == q.x * q.x + q.y * q.y + q.z * q.z &&
    uv == q.x * v.x + q.y * v.y + q.z * v.z &&
    c.x == q.y * v.z - q.z * v.y && c.y == q.z * v.x - q.x * v.z && c.z == q.x * v.y - q.y * v.x
  }

  lemma AtomsOf(q: Vec4, v: Vec4)
    ensures RotationAtoms(q, v, Dot3Value(q, q), Dot3Value(q, v), Cross3(q, v))
  {
  }

  /** The intermediate values of quatRotateVec, lane by lane, with t = 2 (q x v). */
  lemma RotateSteps(q: Vec4, v: Vec4)
    ensures StepLanes(q, v, QuatRotateVec(q, v), Mul(Load1f(2.0), Cross3(q, v)))
  {
    var tmp := Mul(Load1f(2.0), Cross3(q, v));
    assert Replicate(q, 3) == Load1f(q.w);
    assert QuatRotateVec(q, v) == Add(Add(v, Mul(tmp, Load1f(q.w))), Cross3(q, tmp));
  }

  lemma FormulaSteps(q: Vec4, v: Vec4, uu: real, uv: real, c: Vec4)
    ensures FormulaLanes(q, v, RotationTerms(q, v, uu, uv, c), uu, uv, c)
  {
  }

  /** RotateLane on lane x. */
  lemma RotateLaneX(q: Vec4, v: Vec4, t: Vec4, c: Vec4, uu: real, uv: real)
    requires c.x == q.y * v.z - q.z * v.y && c.y == q.z * v.x - q.x * v.z && c.z == q.x * v.y - q.y * v.x
    requires t.x == 2.0 * c.x && t.y == 2.0 * c.y && t.z == 2.0 * c.z
    requires uu == q.x * q.x + q.y * q.y + q.z * q.z
    requires uv == q.x * v.x + q.y * v.y + q.z * v.z
    ensures v.x + t.x * q.w + (q.y * t.z - q.z * t.y) == v.x * (1.0 - 2.0 * uu) + 2.0 * q.x * uv + 2.0 * q.w * c.x
  {
    RotateLane(q.x, q.y, q.z, q.w, v.x, v.y, v.z, t.x, t.y, t.z, uu, uv, c.x, c.y, c.z);
  }

  /** RotateLane on lane y: the lanes taken in the order y, z, x. */
  lemma RotateLaneY(q: Vec4, v: Vec4, t: Vec4, c: Vec4, uu: real, uv: real)
    requires c.x == q.y * v.z - q.z * v.y && c.y == q.z * v.x - q.x * v.z && c.z == q.x * v.y - q.y * v.x
    requires t.x == 2.0 * c.x && t.y == 2.0 * c.y && t.z == 2.0 * c.z
    requires uu == q.x * q.x + q.y * q.y + q.z * q.z
    requires uv == q.x * v.x + q.y * v.y + q.z * v.z
    ensures v.y + t.y * q.w + (q.z * t.x - q.x * t.z) == v.y * (1.0 - 2.0 * uu) + 2.0 * q.y * uv + 2.0 * q.w * c.y
  {
    RotateLane(q.y, q.z, q.x, q.w, v.y, v.z, v.x, t.y, t.z, t.x, uu, uv, c.y, c.z, c.x);
  }

  /** RotateLane on lane z: the lanes taken in the order z, x, y. */
  lemma RotateLaneZ(q: Vec4, v: Vec4, t: Vec4, c: Vec4, uu: real, uv: real)
    requires c.x == q.y * v.z - q.z * v.y && c.y == q.z * v.x - q.x * v.z && c.z == q.x * v.y - q.y * v.x
    requires t.x == 2.0 * c.x && t.y == 2.0 * c.y && t.z == 2.0 * c.z
    requires uu == q.x * q.x + q.y * q.y + q.z * q.z
    requires uv == q.x * v.x + q.y * v.y + q.z * v.z
    ensures v.z + t.z * q.w + (q.x * t.y - q.y * t.x) == v.z * (1.0 - 2.0 * uu) + 2.0 * q.z * uv + 2.0 * q.w * c.z
  {
    RotateLane(q.z, q.x, q.y, q.w, v.z, v.x, v.y, t.z, t.x, t.y, uu, uv, c.z, c.x, c.y);
  }

  /** Three instances of RotateLane, one per lane, over the lanes of the quantities involved. */
  lemma RotateLanes(q: Vec4, v: Vec4, r: Vec4, f: Vec4, t: Vec4, c: Vec4, uu: real, uv: real)
    requires c.x == q.y * v.z - q.z * v.y && c.y == q.z * v.x - q.x * v.z && c.z == q.x * v.y - q.y * v.x
    requires t.x == 2.0 * c.x && t.y == 2.0 * c.y && t.z == 2.0 * c.z
    requires uu == q.x * q.x + q.y * q.y + q.z * q.z
    requires uv == q.x * v.x + q.y * v.y + q.z * v.z
    requires r.x == v.x + t.x * q.w + (q.y * t.z - q.z * t.y)
    requires r.y == v.y + t.y * q.w + (q.z * t.x - q.x * t.z)
    requires r.z == v.z + t.z * q.w + (q.x * t.y - q.y * t.x)
    requires f.x == v.x * (1.0 - 2.0 * uu) + 2.0 * q.x * uv + 2.0 * q.w * c.x
    requires f.y == v.y * (1.0 - 2.0 * uu) + 2.0 * q.y * uv + 2.0 * q.w * c.y
    requires f.z == v.z * (1.0 - 2.0 * uu) + 2.0 * q.z * uv + 2.0 * q.w * c.z
    ensures r.x == f.x && r.y == f.y && r.z == f.z
  {
    RotateLaneX(q, v, t, c, uu, uv);
    RotateLaneY(q, v, t, c, uu, uv);
    RotateLaneZ(q, v, t, c, uu, uv);
  }

  /**
   * Vectors whose lanes are quatRotateVec's intermediate values and the
   * closed formula's terms agree on xyz.
   */
  lemma RotateRecord(q: Vec4, v: Vec4, r: Vec4, f: Vec4, t: Vec4, c: Vec4, uu: real, uv: real)
    requires RotationAtoms(q, v, uu, uv, c)
    requires t.x == 2.0 * c.x && t.y == 2.0 * c.y && t.z == 2.0 * c.z
    requires StepLanes(q, v, r, t)
    requires FormulaLanes(q, v, f, uu, uv, c)
    ensures r.x == f.x && r.y == f.y && r.z == f.z
  {
    RotateLanes(q, v, r, f, t, c, uu, uv);
  }

  /** For every q (unit or not) quatRotateVec is the closed rotation formula and keeps lane 3. */
  lemma QuatRotateVecFormula(q: Vec4, v: Vec4)
    ensures QuatRotateVec(q, v) == RotationFormula(q, v)
  {
    RotateSteps(q, v);
    FormulaSteps(q, v, Dot3Value(q, q), Dot3Value(q, v), Cross3(q, v));
    AtomsOf(q, v);
    RotateRecord(q, v, QuatRotateVec(q, v), RotationFormula(q, v), Mul(Load1f(2.0), Cross3(q, v)), Cross3(q, v),
      Dot3Value(q, q), Dot3Value(q, v));
  }

  // ---------------------------------------------------------------------
  // Comparisons, masks and selection
  // ---------------------------------------------------------------------

  function Eq(a: Vec4, b: Vec4): Mask4 { Mask4(a.x == b.x, a.y == b.y, a.z == b.z, a.w == b.w) }
  function Ne(a: Vec4, b: Vec4): Mask4 { Mask4(a.x != b.x, a.y != b.y, a.z != b.z, a.w != b.w) }
  function Gt(a: Vec4, b: Vec4): Mask4 { Mask4(a.x > b.x, a.y > b.y, a.z > b.z, a.w > b.w) }
  function Ge(a: Vec4, b: Vec4): Mask4 { Mask4(a.x >= b.x, a.y >= b.y, a.z >= b.z, a.w >= b.w) }
  function Lt(a: Vec4, b: Vec4): Mask4 { Mask4(a.x < b.x, a.y < b.y, a.z < b.z, a.w < b.w) }
  function Le(a: Vec4, b: Vec4): Mask4 { Mask4(a.x <= b.x, a.y <= b.y, a.z <= b.z, a.w <= b.w) }

  /** |a - b| < margin on each lane. */
  function EqualsMask(a: Vec4, b: Vec4, margin: real): (r: Mask4)
    ensures forall i | 0 <= i < 4 :: MaskLane(r, i) <==> Equals(Lane(a, i), Lane(b, i), margin)
  {
    Lt(AbsV(Sub(a, b)), Load1f(margin))
  }

  /** |a - b| >= margin on each lane: the exact lane-wise complement of EqualsMask. */
  function NotEqualsMask(a: Vec4, b: Vec4, margin: real): (r: Mask4)
    ensures forall i | 0 <= i < 4 :: MaskLane(r, i) <==> !MaskLane(EqualsMask(a, b, margin), i)
  {
    Ge(AbsV(Sub(a, b)), Load1f(margin))
  }

  function Or(a: Mask4, b: Mask4): Mask4 { Mask4(a.x || b.x, a.y || b.y, a.z || b.z, a.w || b.w) }
  function And(a: Mask4, b: Mask4): Mask4 { Mask4(a.x && b.x, a.y && b.y, a.z && b.z, a.w && b.w) }
  function Xor(a: Mask4, b: Mask4): Mask4 { Mask4(a.x != b.x, a.y != b.y, a.z != b.z, a.w != b.w) }

  /** All of lanes 0-2 false (every lane compares equal to 0.0). */
  predicate IsZero3f(m: Mask4)
  {
    !m.x && !m.y && !m.z
  }

  predicate IsZero4f(m: Mask4)
  {
    !m.x && !m.y && !m.z && !m.w
  }

  /** this where the mask lane is set, other elsewhere. */
  function Select(v: Vec4, mask: Mask4, other: Vec4): (r: Vec4)
    ensures forall i | 0 <= i < 4 :: Lane(r, i) == (if MaskLane(mask, i) then Lane(v, i) else Lane(other, i))
  {
    Vec4(if mask.x then v.x else other.x, if mask.y then v.y else other.y,
         if mask.z then v.z else other.z, if mask.w then v.w else other.w)
  }

  lemma ComparisonMasks(a: Vec4, b: Vec4)
    ensures IsZero4f(Ne(a, b)) <==> a == b
    ensures IsZero3f(Ne(a, b)) <==> (a.x == b.x && a.y == b.y && a.z == b.z)
    ensures IsZero4f(Eq(a, b)) <==> (a.x != b.x && a.y != b.y && a.z != b.z && a.w != b.w)
    ensures Select(a, Gt(a, b), b) == MaxV(a, b).(x := if a.x > b.x then a.x else b.x)
  {
  }

  // ---------------------------------------------------------------------
  // Matrices
  // ---------------------------------------------------------------------

  /** Column j of m as a vector. */
  function Col(m: Mat4, j: nat): Vec4
    requires j < 4
  {
    Vec4(Lane(m[0], j), Lane(m[1], j), Lane(m[2], j), Lane(m[3], j))
  }

  /** Row `row` times m2, accumulated with replicate and mad as the backend does. */
  function RowTimes(row: Vec4, m2: Mat4): (r: Vec4)
    ensures r.x == Dot4Value(row, Col(m2, 0))
    ensures r.y == Dot4Value(row, Col(m2, 1))
    ensures r.z == Dot4Value(row, Col(m2, 2))
    ensures r.w == Dot4Value(row, Col(m2, 3))
  {
    var t0 := Mul(Replicate(row, 0), m2[0]);
    var t1 := MadV(Replicate(row, 1), m2[1], t0);
    var t2 := MadV(Replicate(row, 2), m2[2], t1);
    MadV(Replicate(row, 3), m2[3], t2)
  }

  /** The standard matrix product: entry (i, j) is row i of m1 dotted with column j of m2. */
  function MatrixProduct(m1: Mat4, m2: Mat4): (r: Mat4)
    ensures forall i, j | 0 <= i < 4 && 0 <= j < 4 :: At(r, i, j) == Dot4Value(m1[i], Col(m2, j))
  {
    var r: Mat4 := [RowTimes(m1[0], m2), RowTimes(m1[1], m2), RowTimes(m1[2], m2), RowTimes(m1[3], m2)];
    assert forall i | 0 <= i < 4 :: r[i] == RowTimes(m1[i], m2);
    r
  }

  /**
   * matrixMul: all four rows are computed before any is stored, so the
   * result is the product even when `result` is one of the inputs.
   */
  method MatrixMul(result: array<Vec4>, m1: array<Vec4>, m2: array<Vec4>)
    requires result.Length == 4 && m1.Length == 4 && m2.Length == 4
    modifies result
    ensures result[..] == MatrixProduct(old(m1[..]), old(m2[..]))
  {
    var a: Mat4 := m1[..];
    var b: Mat4 := m2[..];
    var r0 := RowTimes(m1[0], b);
    var r1 := RowTimes(m1[1], b);
    var r2 := RowTimes(m1[2], b);
    var r3 := RowTimes(m1[3], b);
    result[0] := r0;
    result[1] := r1;
    result[2] := r2;
    result[3] := r3;
    assert result[..] == [r0, r1, r2, r3];
  }

  /** Lane i of the result is row i dotted with v. */
  function Transform(v: Vec4, m: Mat4): (r: Vec4)
    ensures forall i | 0 <= i < 4 :: Lane(r, i) == Dot4Value(v, m[i])
  {
    Vec4(Dot4(v, m[0]).x, Dot4(v, m[1]).x, Dot4(v, m[2]).x, Dot4(v, m[3]).x)
  }

  /** Determinant of the upper-left 3x3 block, expanded along column 0. */
  function Det3x3(m: Mat4): real
  {
    At(m, 0, 0) * (At(m, 1, 1) * At(m, 2, 2) - At(m, 1, 2) * At(m, 2, 1)) -
    At(m, 1, 0) * (At(m, 0, 1) * At(m, 2, 2) - At(m, 0, 2) * At(m, 2, 1)) +
    At(m, 2, 0) * (At(m, 0, 1) * At(m, 1, 2) - At(m, 0, 2) * At(m, 1, 1))
  }

  /** The Leibniz (permutation) expansion of the 3x3 block. */
  function Leibniz3(m: Mat4): real
  {
    At(m, 0, 0) * At(m, 1, 1) * At(m, 2, 2) + At(m, 0, 1) * At(m, 1, 2) * At(m, 2, 0)
    + At(m, 0, 2) * At(m, 1, 0) * At(m, 2, 1) - At(m, 0, 2) * At(m, 1, 1) * At(m, 2, 0)
    - At(m, 0, 0) * At(m, 1, 2) * At(m, 2, 1) - At(m, 0, 1) * At(m, 1, 0) * At(m, 2, 2)
  }

  lemma Det3x3IsLeibniz(m: Mat4)
    ensures Det3x3(m) == Leibniz3(m)
  {
  }

  /** The six 2x2 minors of rows 0-1 (s[0..5]); mIJ is row I, lane J. */
  function DetS(m: Mat4): (s: seq<real>)
    ensures |s| == 6
  {
    var m00, m01, m02, m03 := m[0].x, m[0].y, m[0].z, m[0].w;
    var m10, m11, m12, m13 := m[1].x, m[1].y, m[1].z, m[1].w;
    var m20, m21, m22, m23 := m[2].x, m[2].y, m[2].z, m[2].w;
    var m30, m31, m32, m33 := m[3].x, m[3].y, m[3].z, m[3].w;
    [m00 * m11 - m10 * m01, m00 * m12 - m10 * m02, m00 * m13 - m10 * m03,
     m01 * m12 - m11 * m02, m01 * m13 - m11 * m03, m02 * m13 - m12 * m03]
  }

  /** The six complementary 2x2 minors of rows 2-3 (c[0..5]). */
  function DetC(m: Mat4): (c: seq<real>)
    ensures |c| == 6
  {
    var m00, m01, m02, m03 := m[0].x, m[0].y, m[0].z, m[0].w;
    var m10, m11, m12, m13 := m[1].x, m[1].y, m[1].z, m[1].w;
    var m20, m21, m22, m23 := m[2].x, m[2].y, m[2].z, m[2].w;
    var m30, m31, m32, m33 := m[3].x, m[3].y, m[3].z, m[3].w;
    [m20 * m31 - m30 * m21, m20 * m32 - m30 * m22, m20 * m33 - m30 * m23,
     m21 * m32 - m31 * m22, m21 * m33 - m31 * m23, m22 * m33 - m32 * m23]
  }

  /** The Laplace expansion over the first two rows, given their minors s and the complementary minors c. */
  function Laplace(s: seq<real>, c: seq<real>): real
    requires |s| == 6 && |c| == 6
  {
    s[0] * c[5] - s[1] * c[4] + s[2] * c[3] + s[3] * c[2] - s[4] * c[1] + s[5] * c[0]
  }

  function Det4(m: Mat4): real
  {
    Laplace(DetS(m), DetC(m))
  }

  /** The 24-term Leibniz determinant. */
  function Leibniz4(m: Mat4): real
  {
    var a, b, c, d := m[0], m[1], m[2], m[3];
    a.x * (b.y * (c.z * d.w - c.w * d.z) - b.z * (c.y * d.w - c.w * d.y) + b.w * (c.y * d.z - c.z * d.y))
    - a.y * (b.x * (c.z * d.w - c.w * d.z) - b.z * (c.x * d.w - c.w * d.x) + b.w * (c.x * d.z - c.z * d.x))
    + a.z * (b.x * (c.y * d.w - c.w * d.y) - b.y * (c.x * d.w - c.w * d.x) + b.w * (c.x * d.y - c.y * d.x))
    - a.w * (b.x * (c.y * d.z - c.z * d.y) - b.y * (c.x * d.z - c.z * d.x) + b.z * (c.x * d.y - c.y * d.x))
  }

  lemma Det4IsLeibniz(m: Mat4)
    ensures Det4(m) == Leibniz4(m)
  {
  }

  /**
   * matrixDeterminant4x4: returns the determinant and, for each output
   * array that is present, stores the six minors into it.
   */
  method MatrixDeterminant4x4(outS: array?<real>, outC: array?<real>, m: array<Vec4>) returns (det: real)
    requires m.Length == 4
    requires outS != null ==> outS.Length == 6
    requires outC != null ==> outC.Length == 6
    requires outS != null && outC != null ==> outS != outC
    modifies outS, outC
    ensures det == Det4(m[..])
    ensures outS != null ==> outS[..] == DetS(m[..])
    ensures outC != null ==> outC[..] == DetC(m[..])
  {
    var mm: Mat4 := m[..];
    var s := DetS(mm);
    var c := DetC(mm);
    if outS != null {
      StoreMinors(outS, s);
    }
    if outC != null {
      StoreMinors(outC, c);
    }
    det := Laplace(s, c);
    assert m[..] == mm;
  }

  /** The six stores of one set of minors into an output array. */
  method StoreMinors(out: array<real>, v: seq<real>)
    requires out.Length == 6 && |v| == 6
    modifies out
    ensures out[..] == v
  {
    out[0], out[1], out[2], out[3], out[4], out[5] := v[0], v[1], v[2], v[3], v[4], v[5];
    assert out[..] == v;
  }

  /**
   * The adjugate (transposed cofactor matrix), each entry a combination of
   * three entries of m and three of the twelve 2x2 minors.
   */
  function Adjugate(m: Mat4): Mat4
  {
    var s, c := DetS(m), DetC(m);
    [AdjugateRowFromMinors0(m, s, c), AdjugateRowFromMinors1(m, s, c), AdjugateRowFromMinors2(m, s, c), AdjugateRowFromMinors3(m, s, c)]
  }

  function AdjugateRowFromMinors0(m: Mat4, s: seq<real>, c: seq<real>): Vec4
    requires |s| == 6 && |c| == 6
  {
    Vec4( m[1].y * c[5] - m[1].z * c[4] + m[1].w * c[3], -m[0].y * c[5] + m[0].z * c[4] - m[0].w * c[3],
          m[3].y * s[5] - m[3].z * s[4] + m[3].w * s[3], -m[2].y * s[5] + m[2].z * s[4] - m[2].w * s[3])
  }

  function AdjugateRowFromMinors1(m: Mat4, s: seq<real>, c: seq<real>): Vec4
    requires |s| == 6 && |c| == 6
  {
    Vec4(-m[1].x * c[5] + m[1].z * c[2] - m[1].w * c[1],  m[0].x * c[5] - m[0].z * c[2] + m[0].w * c[1],
         -m[3].x * s[5] + m[3].z * s[2] - m[3].w * s[1],  m[2].x * s[5] - m[2].z * s[2] + m[2].w * s[1])
  }

  function AdjugateRowFromMinors2(m: Mat4, s: seq<real>, c: seq<real>): Vec4
    requires |s| == 6 && |c| == 6
  {
    Vec4( m[1].x * c[4] - m[1].y * c[2] + m[1].w * c[0], -m[0].x * c[4] + m[0].y * c[2] - m[0].w * c[0],
          m[3].x * s[4] - m[3].y * s[2] + m[3].w * s[0], -m[2].x * s[4] + m[2].y * s[2] - m[2].w * s[0])
  }

  function AdjugateRowFromMinors3(m: Mat4, s: seq<real>, c: seq<real>): Vec4
    requires |s| == 6 && |c| == 6
  {
    Vec4(-m[1].x * c[3] + m[1].y * c[1] - m[1].z * c[0],  m[0].x * c[3] - m[0].y * c[1] + m[0].z * c[0],
         -m[3].x * s[3] + m[3].y * s[1] - m[3].z * s[0],  m[2].x * s[3] - m[2].y * s[1] + m[2].z * s[0])
  }

  function ScaleRows(m: Mat4, k: real): Mat4
  {
    [Mul(m[0], Load1f(k)), Mul(m[1], Load1f(k)), Mul(m[2], Load1f(k)), Mul(m[3], Load1f(k))]
  }

  /** Every adjugate entry times reciprocal(det). */
  function Inverse(m: Mat4): Mat4
    requires Det4(m) != 0.0
  {
    ScaleRows(Adjugate(m), Reciprocal(Det4(m)))
  }

  /** matrixInverse: computes into a temporary and then copies, so dest may alias src. */
  method MatrixInverse(dest: array<Vec4>, src: array<Vec4>)
    requires dest.Length == 4 && src.Length == 4
    requires Det4(src[..]) != 0.0
    modifies dest
    ensures dest[..] == Inverse(old(src[..]))
  {
    var s := new real[6];
    var c := new real[6];
    var det := MatrixDeterminant4x4(s, c, src);
    var rdet := Reciprocal(det);
    var m: Mat4 := src[..];
    var result := Inverse(m);
    dest[0], dest[1], dest[2], dest[3] := result[0], result[1], result[2], result[3];
    assert dest[..] == result;
  }

  function Identity(): (r: Mat4)
    ensures forall i, j | 0 <= i < 4 && 0 <= j < 4 :: At(r, i, j) == if i == j then 1.0 else 0.0
  {
    [Vec4(1.0, 0.0, 0.0, 0.0), Vec4(0.0, 1.0, 0.0, 0.0), Vec4(0.0, 0.0, 1.0, 0.0), Vec4(0.0, 0.0, 0.0, 1.0)]
  }

  /**
   * The rotation-and-scale block from a quaternion and a scale, with the
   * translation in lane 3 of rows 0-2 and row 3 = (0, 0, 0, 1).
   */
  function TransformMatrix(t: Vec4, q: Vec4, s: Vec4): (r: Mat4)
    ensures r[3] == Vec4(0.0, 0.0, 0.0, 1.0)
    ensures r[0].w == t.x && r[1].w == t.y && r[2].w == t.z
  {
    [TransformMatrixRow0(t, q, s), TransformMatrixRow1(t, q, s), TransformMatrixRow2(t, q, s),
     Vec4(0.0, 0.0, 0.0, 1.0)]
  }

  /*
   * The first three rows, one function each so that a row can be used on its
   * own (x2 = x + x and so on; xx2 = x * x2, xy2 = x * y2, xw2 = w * x2).
   */
  function TransformMatrixRow0(t: Vec4, q: Vec4, s: Vec4): Vec4
  {
    var y2, z2 := q.y + q.y, q.z + q.z;
    Vec4((1.0 - (q.y * y2 + q.z * z2)) * s.x, (q.x * y2 - q.w * z2) * s.y, (q.x * z2 + q.w * y2) * s.z, t.x)
  }

  function TransformMatrixRow1(t: Vec4, q: Vec4, s: Vec4): Vec4
  {
    var x2, y2, z2 := q.x + q.x, q.y + q.y, q.z + q.z;
    Vec4((q.x * y2 + q.w * z2) * s.x, (1.0 - (q.x * x2 + q.z * z2)) * s.y, (q.y * z2 - q.w * x2) * s.z, t.y)
  }

  function TransformMatrixRow2(t: Vec4, q: Vec4, s: Vec4): Vec4
  {
    var x2, y2, z2 := q.x + q.x, q.y + q.y, q.z + q.z;
    Vec4((q.x * z2 - q.w * y2) * s.x, (q.y * z2 + q.w * x2) * s.y, (1.0 - (q.x * x2 + q.y * y2)) * s.z, t.z)
  }

  /** Row 0 of TransformMatrix(t, q, s), written in terms of q's doubled lanes. */
  predicate TransformRow0(t: Vec4, q: Vec4, s: Vec4, r: Vec4)
  {
    r.x == (1.0 - (q.y * (q.y + q.y) + q.z * (q.z + q.z))) * s.x &&
    r.y == (q.x * (q.y + q.y) - q.w * (q.z + q.z)) * s.y &&
    r.z == (q.x * (q.z + q.z) + q.w * (q.y + q.y)) * s.z &&
    r.w == t.x
  }

  /** Row 1 of TransformMatrix(t, q, s). */
  predicate TransformRow1(t: Vec4, q: Vec4, s: Vec4, r: Vec4)
  {
    r.x == (q.x * (q.y + q.y) + q.w * (q.z + q.z)) * s.x &&
    r.y == (1.0 - (q.x * (q.x + q.x) + q.z * (q.z + q.z))) * s.y &&
    r.z == (q.y * (q.z + q.z) - q.w * (q.x + q.x)) * s.z &&
    r.w == t.y
  }

  /** Row 2 of TransformMatrix(t, q, s). */
  predicate TransformRow2(t: Vec4, q: Vec4, s: Vec4, r: Vec4)
  {
    r.x == (q.x * (q.z + q.z) - q.w * (q.y + q.y)) * s.x &&
    r.y == (q.y * (q.z + q.z) + q.w * (q.x + q.x)) * s.y &&
    r.z == (1.0 - (q.x * (q.x + q.x) + q.y * (q.y + q.y))) * s.z &&
    r.w == t.z
  }

  lemma TransformMatrixRows(t: Vec4, q: Vec4, s: Vec4)
    ensures var m := TransformMatrix(t, q, s);
      TransformRow0(t, q, s, m[0]) && TransformRow1(t, q, s, m[1]) && TransformRow2(t, q, s, m[2])
  {
  }

  method CreateTransformMatrix(dest: array<Vec4>, translation: Vec4, quatRotation: Vec4, scaleVec: Vec4)
    requires dest.Length == 4
    modifies dest
    ensures dest[..] == TransformMatrix(translation, quatRotation, scaleVec)
  {
    var mat := TransformMatrix(translation, quatRotation, scaleVec);
    dest[0], dest[1], dest[2], dest[3] := mat[0], mat[1], mat[2], mat[3];
    assert dest[..] == mat;
  }

  /** m's upper-left 3x3 block holds the rotation entries of q, with unit scale. */
  predicate BlockEntries(q: Vec4, m: Mat4)
  {
    m[0].x == (1.0 - (q.y * (q.y + q.y) + q.z * (q.z + q.z))) * 1.0 &&
    m[0].y == (q.x * (q.y + q.y) - q.w * (q.z + q.z)) * 1.0 &&
    m[0].z == (q.x * (q.z + q.z) + q.w * (q.y + q.y)) * 1.0 &&
    m[1].x == (q.x * (q.y + q.y) + q.w * (q.z + q.z)) * 1.0 &&
    m[1].y == (1.0 - (q.x * (q.x + q.x) + q.z * (q.z + q.z))) * 1.0 &&
    m[1].z == (q.y * (q.z + q.z) - q.w * (q.x + q.x)) * 1.0 &&
    m[2].x == (q.x * (q.z + q.z) - q.w * (q.y + q.y)) * 1.0 &&
    m[2].y == (q.y * (q.z + q.z) + q.w * (q.x + q.x)) * 1.0 &&
    m[2].z == (1.0 - (q.x * (q.x + q.x) + q.y * (q.y + q.y))) * 1.0
  }

  /** The 3x3 rotation block of TransformMatrix with zero translation and unit scale. */
  lemma RotationBlockEntries(q: Vec4)
    ensures BlockEntries(q, TransformMatrix(Vec4(0.0, 0.0, 0.0, 0.0), q, Load1f(1.0)))
  {
  }

  /** A direction (lane 3 zero) through the matrix reads only the 3x3 block. */
  lemma TransformDirection(v: Vec4, m: Mat4)
    requires m[0].w == 0.0 && m[1].w == 0.0 && m[2].w == 0.0
    ensures var r := Transform(v.(w := 0.0), m);
      r.x == v.x * m[0].x + v.y * m[0].y + v.z * m[0].z &&
      r.y == v.x * m[1].x + v.y * m[1].y + v.z * m[1].z &&
      r.z == v.x * m[2].x + v.y * m[2].y + v.z * m[2].z
  {
  }

  /** Each row of the rotation block against v is the closed rotation formula, over scalars. */
  lemma MatrixRotateLane(qx: real, qy: real, qz: real, qw: real, vx: real, vy: real, vz: real,
                         uu: real, uv: real, cx: real, cy: real, cz: real,
                         a00: real, a01: real, a02: real, a10: real, a11: real, a12: real,
                         a20: real, a21: real, a22: real)
    requires uu == qx * qx + qy * qy + qz * qz
    requires uv == qx * vx + qy * vy + qz * vz
    requires cx == qy * vz - qz * vy && cy == qz * vx - qx * vz && cz == qx * vy - qy * vx
    requires a00 == (1.0 - (qy * (qy + qy) + qz * (qz + qz))) * 1.0 && a01 == (qx * (qy + qy) - qw * (qz + qz)) * 1.0 && a02 == (qx * (qz + qz) + qw * (qy + qy)) * 1.0
    requires a10 == (qx * (qy + qy) + qw * (qz + qz)) * 1.0 && a11 == (1.0 - (qx * (qx + qx) + qz * (qz + qz))) * 1.0 && a12 == (qy * (qz + qz) - qw * (qx + qx)) * 1.0
    requires a20 == (qx * (qz + qz) - qw * (qy + qy)) * 1.0 && a21 == (qy * (qz + qz) + qw * (qx + qx)) * 1.0 && a22 == (1.0 - (qx * (qx + qx) + qy * (qy + qy))) * 1.0
    ensures vx * a00 + vy * a01 + vz * a02 == vx * (1.0 - 2.0 * uu) + 2.0 * qx * uv + 2.0 * qw * cx
    ensures vx * a10 + vy * a11 + vz * a12 == vy * (1.0 - 2.0 * uu) + 2.0 * qy * uv + 2.0 * qw * cy
    ensures vx * a20 + vy * a21 + vz * a22 == vz * (1.0 - 2.0 * uu) + 2.0 * qz * uv + 2.0 * qw * cz
  {
    MulSubst(a00, (1.0 - (qy * (qy + qy) + qz * (qz + qz))) * 1.0, vx);
    MulSubst(a01, (qx * (qy + qy) - qw * (qz + qz)) * 1.0, vy);
    MulSubst(a02, (qx * (qz + qz) + qw * (qy + qy)) * 1.0, vz);
    MulSubst(a10, (qx * (qy + qy) + qw * (qz + qz)) * 1.0, vx);
    MulSubst(a11, (1.0 - (qx * (qx + qx) + qz * (qz + qz))) * 1.0, vy);
    MulSubst(a12, (qy * (qz + qz) - qw * (qx + qx)) * 1.0, vz);
    MulSubst(a20, (qx * (qz + qz) - qw * (qy + qy)) * 1.0, vx);
    MulSubst(a21, (qy * (qz + qz) + qw * (qx + qx)) * 1.0, vy);
    MulSubst(a22, (1.0 - (qx * (qx + qx) + qy * (qy + qy))) * 1.0, vz);
    MulSubst(uu, qx * qx + qy * qy + qz * qz, vx);
    MulSubst(uu, qx * qx + qy * qy + qz * qz, vy);
    MulSubst(uu, qx * qx + qy * qy + qz * qz, vz);
    MulSubst(uv, qx * vx + qy * vy + qz * vz, qx);
    MulSubst(uv, qx * vx + qy * vy + qz * vz, qy);
    MulSubst(uv, qx * vx + qy * vy + qz * vz, qz);
    MulSubst(cx, qy * vz - qz * vy, qw);
    MulSubst(cy, qz * vx - qx * vz, qw);
    MulSubst(cz, qx * vy - qy * vx, qw);
  }

  /** MatrixRotateLane over the lanes of the quantities involved. */
  lemma BlockDotsLanes(q: Vec4, v: Vec4, m: Mat4, f: Vec4, uu: real, uv: real, c: Vec4)
    requires uu == q.x * q.x + q.y * q.y + q.z * q.z
    requires uv == q.x * v.x + q.y * v.y + q.z * v.z
    requires c.x == q.y * v.z - q.z * v.y && c.y == q.z * v.x - q.x * v.z && c.z == q.x * v.y - q.y * v.x
    requires f.x == v.x * (1.0 - 2.0 * uu) + 2.0 * q.x * uv + 2.0 * q.w * c.x
    requires f.y == v.y * (1.0 - 2.0 * uu) + 2.0 * q.y * uv + 2.0 * q.w * c.y
    requires f.z == v.z * (1.0 - 2.0 * uu) + 2.0 * q.z * uv + 2.0 * q.w * c.z
    requires m[0].x == (1.0 - (q.y * (q.y + q.y) + q.z * (q.z + q.z))) * 1.0 &&
             m[0].y == (q.x * (q.y + q.y) - q.w * (q.z + q.z)) * 1.0 &&
             m[0].z == (q.x * (q.z + q.z) + q.w * (q.y + q.y)) * 1.0
    requires m[1].x == (q.x * (q.y + q.y) + q.w * (q.z + q.z)) * 1.0 &&
             m[1].y == (1.0 - (q.x * (q.x + q.x) + q.z * (q.z + q.z))) * 1.0 &&
             m[1].z == (q.y * (q.z + q.z) - q.w * (q.x + q.x)) * 1.0
    requires m[2].x == (q.x * (q.z + q.z) - q.w * (q.y + q.y)) * 1.0 &&
             m[2].y == (q.y * (q.z + q.z) + q.w * (q.x + q.x)) * 1.0 &&
             m[2].z == (1.0 - (q.x * (q.x + q.x) + q.y * (q.y + q.y))) * 1.0
    ensures v.x * m[0].x + v.y * m[0].y + v.z * m[0].z == f.x
    ensures v.x * m[1].x + v.y * m[1].y + v.z * m[1].z == f.y
    ensures v.x * m[2].x + v.y * m[2].y + v.z * m[2].z == f.z
  {
    MatrixRotateLane(q.x, q.y, q.z, q.w, v.x, v.y, v.z, uu, uv, c.x, c.y, c.z,
      m[0].x, m[0].y, m[0].z, m[1].x, m[1].y, m[1].z, m[2].x, m[2].y, m[2].z);
  }

  /**
   * Rows of a matrix holding the rotation block's entries, dotted with v,
   * give a vector whose lanes are the closed rotation formula.
   */
  lemma BlockDotsFormula(q: Vec4, v: Vec4, m: Mat4, f: Vec4, uu: real, uv: real, c: Vec4)
    requires RotationAtoms(q, v, uu, uv, c)
    requires FormulaLanes(q, v, f, uu, uv, c)
    requires BlockEntries(q, m)
    ensures v.x * m[0].x + v.y * m[0].y + v.z * m[0].z == f.x
    ensures v.x * m[1].x + v.y * m[1].y + v.z * m[1].z == f.y
    ensures v.x * m[2].x + v.y * m[2].y + v.z * m[2].z == f.z
  {
    BlockDotsLanes(q, v, m, f, uu, uv, c);
  }

  /** Each row of the rotation block dotted with v is a lane of the closed rotation formula. */
  lemma RotationBlockDots(q: Vec4, v: Vec4, m: Mat4, f: Vec4)
    requires m == TransformMatrix(Vec4(0.0, 0.0, 0.0, 0.0), q, Load1f(1.0)) && f == RotationFormula(q, v)
    ensures v.x * m[0].x + v.y * m[0].y + v.z * m[0].z == f.x
    ensures v.x * m[1].x + v.y * m[1].y + v.z * m[1].z == f.y
    ensures v.x * m[2].x + v.y * m[2].y + v.z * m[2].z == f.z
  {
    RotationBlockEntries(q);
    FormulaSteps(q, v, Dot3Value(q, q), Dot3Value(q, v), Cross3(q, v));
    AtomsOf(q, v);
    BlockDotsFormula(q, v, m, f, Dot3Value(q, q), Dot3Value(q, v), Cross3(q, v));
  }

  /** The rotation block applied to a direction is the closed rotation formula. */
  lemma TransformMatrixFormula(q: Vec4, v: Vec4)
    ensures var m := TransformMatrix(Vec4(0.0, 0.0, 0.0, 0.0), q, Load1f(1.0));
      var r, f := Transform(v.(w := 0.0), m), RotationFormula(q, v);
      r.x == f.x && r.y == f.y && r.z == f.z
  {
    RotationBlockDots(q, v, TransformMatrix(Vec4(0.0, 0.0, 0.0, 0.0), q, Load1f(1.0)), RotationFormula(q, v));
    TransformDirection(v, TransformMatrix(Vec4(0.0, 0.0, 0.0, 0.0), q, Load1f(1.0)));
  }

  /**
   * The rotation block applied to a direction is the quaternion rotation of
   * that direction, for every quaternion.
   */
  lemma TransformMatrixRotates(q: Vec4, v: Vec4)
    ensures var m := TransformMatrix(Vec4(0.0, 0.0, 0.0, 0.0), q, Load1f(1.0));
      var r, rot := Transform(v.(w := 0.0), m), QuatRotateVec(q, v);
      r.x == rot.x && r.y == rot.y && r.z == rot.z
  {
    TransformMatrixFormula(q, v);
    QuatRotateVecFormula(q, v);
  }

  // Adjugate identity: row i of adj(M) dotted with column j of M is det(M)
  // when i == j and 0 otherwise. The identity is proved on the sixteen
  // entries and the row's four adjugate entries as scalars; the minors are
  // replaced by their polynomials product by product.

  lemma MulSubst(t: real, e: real, u: real)
    requires t == e
    ensures t * u == e * u
  {
  }

  lemma AdjugateRowIdentity0(
    m00: real, m01: real, m02: real, m03: real,
    m10: real, m11: real, m12: real, m13: real,
    m20: real, m21: real, m22: real, m23: real,
    m30: real, m31: real, m32: real, m33: real,
    a0: real, a1: real, a2: real, a3: real)
    requires a0 == m11 * (m22 * m33 - m32 * m23) - m12 * (m21 * m33 - m31 * m23) + m13 * (m21 * m32 - m31 * m22)
    requires a1 == -m01 * (m22 * m33 - m32 * m23) + m02 * (m21 * m33 - m31 * m23) - m03 * (m21 * m32 - m31 * m22)
    requires a2 == m31 * (m02 * m13 - m12 * m03) - m32 * (m01 * m13 - m11 * m03) + m33 * (m01 * m12 - m11 * m02)
    requires a3 == -m21 * (m02 * m13 - m12 * m03) + m22 * (m01 * m13 - m11 * m03) - m23 * (m01 * m12 - m11 * m02)
    ensures a0 * m00 + a1 * m10 + a2 * m20 + a3 * m30
      == m00 * (m11 * (m22 * m33 - m23 * m32) - m12 * (m21 * m33 - m23 * m31) + m13 * (m21 * m32 - m22 * m31))
      - m01 * (m10 * (m22 * m33 - m23 * m32) - m12 * (m20 * m33 - m23 * m30) + m13 * (m20 * m32 - m22 * m30))
      + m02 * (m10 * (m21 * m33 - m23 * m31) - m11 * (m20 * m33 - m23 * m30) + m13 * (m20 * m31 - m21 * m30))
      - m03 * (m10 * (m21 * m32 - m22 * m31) - m11 * (m20 * m32 - m22 * m30) + m12 * (m20 * m31 - m21 * m30))
    ensures a0 * m01 + a1 * m11 + a2 * m21 + a3 * m31
      == 0.0
    ensures a0 * m02 + a1 * m12 + a2 * m22 + a3 * m32
      == 0.0
    ensures a0 * m03 + a1 * m13 + a2 * m23 + a3 * m33
      == 0.0
  {
  }

  lemma AdjugateRowIdentity1(
    m00: real, m01: real, m02: real, m03: real,
    m10: real, m11: real, m12: real, m13: real,
    m20: real, m21: real, m22: real, m23: real,
    m30: real, m31: real, m32: real, m33: real,
    a0: real, a1: real, a2: real, a3: real)
    requires a0 == -m10 * (m22 * m33 - m32 * m23) + m12 * (m20 * m33 - m30 * m23) - m13 * (m20 * m32 - m30 * m22)
    requires a1 == m00 * (m22 * m33 - m32 * m23) - m02 * (m20 * m33 - m30 * m23) + m03 * (m20 * m32 - m30 * m22)
    requires a2 == -m30 * (m02 * m13 - m12 * m03) + m32 * (m00 * m13 - m10 * m03) - m33 * (m00 * m12 - m10 * m02)
    requires a3 == m20 * (m02 * m13 - m12 * m03) - m22 * (m00 * m13 - m10 * m03) + m23 * (m00 * m12 - m10 * m02)
    ensures a0 * m00 + a1 * m10 + a2 * m20 + a3 * m30
      == 0.0
    ensures a0 * m01 + a1 * m11 + a2 * m21 + a3 * m31
      == m00 * (m11 * (m22 * m33 - m23 * m32) - m12 * (m21 * m33 - m23 * m31) + m13 * (m21 * m32 - m22 * m31))
      - m01 * (m10 * (m22 * m33 - m23 * m32) - m12 * (m20 * m33 - m23 * m30) + m13 * (m20 * m32 - m22 * m30))
      + m02 * (m10 * (m21 * m33 - m23 * m31) - m11 * (m20 * m33 - m23 * m30) + m13 * (m20 * m31 - m21 * m30))
      - m03 * (m10 * (m21 * m32 - m22 * m31) - m11 * (m20 * m32 - m22 * m30) + m12 * (m20 * m31 - m21 * m30))
    ensures a0 * m02 + a1 * m12 + a2 * m22 + a3 * m32
      == 0.0
    ensures a0 * m03 + a1 * m13 + a2 * m23 + a3 * m33
      == 0.0
  {
  }

  lemma AdjugateRowIdentity2(
    m00: real, m01: real, m02: real, m03: real,
    m10: real, m11: real, m12: real, m13: real,
    m20: real, m21: real, m22: real, m23: real,
    m30: real, m31: real, m32: real, m33: real,
    a0: real, a1: real, a2: real, a3: real)
    requires a0 == m10 * (m21 * m33 - m31 * m23) - m11 * (m20 * m33 - m30 * m23) + m13 * (m20 * m31 - m30 * m21)
    requires a1 == -m00 * (m21 * m33 - m31 * m23) + m01 * (m20 * m33 - m30 * m23) - m03 * (m20 * m31 - m30 * m21)
    requires a2 == m30 * (m01 * m13 - m11 * m03) - m31 * (m00 * m13 - m10 * m03) + m33 * (m00 * m11 - m10 * m01)
    requires a3 == -m20 * (m01 * m13 - m11 * m03) + m21 * (m00 * m13 - m10 * m03) - m23 * (m00 * m11 - m10 * m01)
    ensures a0 * m00 + a1 * m10 + a2 * m20 + a3 * m30
      == 0.0
    ensures a0 * m01 + a1 * m11 + a2 * m21 + a3 * m31
      == 0.0
    ensures a0 * m02 + a1 * m12 + a2 * m22 + a3 * m32
      == m00 * (m11 * (m22 * m33 - m23 * m32) - m12 * (m21 * m33 - m23 * m31) + m13 * (m21 * m32 - m22 * m31))
      - m01 * (m10 * (m22 * m33 - m23 * m32) - m12 * (m20 * m33 - m23 * m30) + m13 * (m20 * m32 - m22 * m30))
      + m02 * (m10 * (m21 * m33 - m23 * m31) - m11 * (m20 * m33 - m23 * m30) + m13 * (m20 * m31 - m21 * m30))
      - m03 * (m10 * (m21 * m32 - m22 * m31) - m11 * (m20 * m32 - m22 * m30) + m12 * (m20 * m31 - m21 * m30))
    ensures a0 * m03 + a1 * m13 + a2 * m23 + a3 * m33
      == 0.0
  {
  }

  lemma AdjugateRowIdentity3(
    m00: real, m01: real, m02: real, m03: real,
    m10: real, m11: real, m12: real, m13: real,
    m20: real, m21: real, m22: real, m23: real,
    m30: real, m31: real, m32: real, m33: real,
    a0: real, a1: real, a2: real, a3: real)
    requires a0 == -m10 * (m21 * m32 - m31 * m22) + m11 * (m20 * m32 - m30 * m22) - m12 * (m20 * m31 - m30 * m21)
    requires a1 == m00 * (m21 * m32 - m31 * m22) - m01 * (m20 * m32 - m30 * m22) + m02 * (m20 * m31 - m30 * m21)
    requires a2 == -m30 * (m01 * m12 - m11 * m02) + m31 * (m00 * m12 - m10 * m02) - m32 * (m00 * m11 - m10 * m01)
    requires a3 == m20 * (m01 * m12 - m11 * m02) - m21 * (m00 * m12 - m10 * m02) + m22 * (m00 * m11 - m10 * m01)
    ensures a0 * m00 + a1 * m10 + a2 * m20 + a3 * m30
      == 0.0
    ensures a0 * m01 + a1 * m11 + a2 * m21 + a3 * m31
      == 0.0
    ensures a0 * m02 + a1 * m12 + a2 * m22 + a3 * m32
      == 0.0
    ensures a0 * m03 + a1 * m13 + a2 * m23 + a3 * m33
      == m00 * (m11 * (m22 * m33 - m23 * m32) - m12 * (m21 * m33 - m23 * m31) + m13 * (m21 * m32 - m22 * m31))
      - m01 * (m10 * (m22 * m33 - m23 * m32) - m12 * (m20 * m33 - m23 * m30) + m13 * (m20 * m32 - m22 * m30))
      + m02 * (m10 * (m21 * m33 - m23 * m31) - m11 * (m20 * m33 - m23 * m30) + m13 * (m20 * m31 - m21 * m30))
      - m03 * (m10 * (m21 * m32 - m22 * m31) - m11 * (m20 * m32 - m22 * m30) + m12 * (m20 * m31 - m21 * m30))
  {
  }

  /** Entry (0, x) of the adjugate as a polynomial in the entries of m. */
  lemma AdjugateEntry0X(m: Mat4)
    ensures Adjugate(m)[0].x == m[1].y * (m[2].z * m[3].w - m[3].z * m[2].w) - m[1].z * (m[2].y * m[3].w - m[3].y * m[2].w) + m[1].w * (m[2].y * m[3].z - m[3].y * m[2].z)
  {
    var s, c := DetS(m), DetC(m);
    assert Adjugate(m)[0] == AdjugateRowFromMinors0(m, s, c);
    MulSubst(c[5], m[2].z * m[3].w - m[3].z * m[2].w, m[1].y);
    MulSubst(c[4], m[2].y * m[3].w - m[3].y * m[2].w, m[1].z);
    MulSubst(c[3], m[2].y * m[3].z - m[3].y * m[2].z, m[1].w);
  }

  /** Entry (0, y) of the adjugate as a polynomial in the entries of m. */
  lemma AdjugateEntry0Y(m: Mat4)
    ensures Adjugate(m)[0].y == -m[0].y * (m[2].z * m[3].w - m[3].z * m[2].w) + m[0].z * (m[2].y * m[3].w - m[3].y * m[2].w) - m[0].w * (m[2].y * m[3].z - m[3].y * m[2].z)
  {
    var s, c := DetS(m), DetC(m);
    assert Adjugate(m)[0] == AdjugateRowFromMinors0(m, s, c);
    MulSubst(c[5], m[2].z * m[3].w - m[3].z * m[2].w, m[0].y);
    MulSubst(c[4], m[2].y * m[3].w - m[3].y * m[2].w, m[0].z);
    MulSubst(c[3], m[2].y * m[3].z - m[3].y * m[2].z, m[0].w);
  }

  /** Entry (0, z) of the adjugate as a polynomial in the entries of m. */
  lemma AdjugateEntry0Z(m: Mat4)
    ensures Adjugate(m)[0].z == m[3].y * (m[0].z * m[1].w - m[1].z * m[0].w) - m[3].z * (m[0].y * m[1].w - m[1].y * m[0].w) + m[3].w * (m[0].y * m[1].z - m[1].y * m[0].z)
  {
    var s, c := DetS(m), DetC(m);
    assert Adjugate(m)[0] == AdjugateRowFromMinors0(m, s, c);
    MulSubst(s[5], m[0].z * m[1].w - m[1].z * m[0].w, m[3].y);
    MulSubst(s[4], m[0].y * m[1].w - m[1].y * m[0].w, m[3].z);
    MulSubst(s[3], m[0].y * m[1].z - m[1].y * m[0].z, m[3].w);
  }

  /** Entry (0, w) of the adjugate as a polynomial in the entries of m. */
  lemma AdjugateEntry0W(m: Mat4)
    ensures Adjugate(m)[0].w == -m[2].y * (m[0].z * m[1].w - m[1].z * m[0].w) + m[2].z * (m[0].y * m[1].w - m[1].y * m[0].w) - m[2].w * (m[0].y * m[1].z - m[1].y * m[0].z)
  {
    var s, c := DetS(m), DetC(m);
    assert Adjugate(m)[0] == AdjugateRowFromMinors0(m, s, c);
    MulSubst(s[5], m[0].z * m[1].w - m[1].z * m[0].w, m[2].y);
    MulSubst(s[4], m[0].y * m[1].w - m[1].y * m[0].w, m[2].z);
    MulSubst(s[3], m[0].y * m[1].z - m[1].y * m[0].z, m[2].w);
  }

  /** Entry (1, x) of the adjugate as a polynomial in the entries of m. */
  lemma AdjugateEntry1X(m: Mat4)
    ensures Adjugate(m)[1].x == -m[1].x * (m[2].z * m[3].w - m[3].z * m[2].w) + m[1].z * (m[2].x * m[3].w - m[3].x * m[2].w) - m[1].w * (m[2].x * m[3].z - m[3].x * m[2].z)
  {
    var s, c := DetS(m), DetC(m);
    assert Adjugate(m)[1] == AdjugateRowFromMinors1(m, s, c);
    MulSubst(c[5], m[2].z * m[3].w - m[3].z * m[2].w, m[1].x);
    MulSubst(c[2], m[2].x * m[3].w - m[3].x * m[2].w, m[1].z);
    MulSubst(c[1], m[2].x * m[3].z - m[3].x * m[2].z, m[1].w);
  }

  /** Entry (1, y) of the adjugate as a polynomial in the entries of m. */
  lemma AdjugateEntry1Y(m: Mat4)
    ensures Adjugate(m)[1].y == m[0].x * (m[2].z * m[3].w - m[3].z * m[2].w) - m[0].z * (m[2].x * m[3].w - m[3].x * m[2].w) + m[0].w * (m[2].x * m[3].z - m[3].x * m[2].z)
  {
    var s, c := DetS(m), DetC(m);
    assert Adjugate(m)[1] == AdjugateRowFromMinors1(m, s, c);
    MulSubst(c[5], m[2].z * m[3].w - m[3].z * m[2].w, m[0].x);
    MulSubst(c[2], m[2].x * m[3].w - m[3].x * m[2].w, m[0].z);
    MulSubst(c[1], m[2].x * m[3].z - m[3].x * m[2].z, m[0].w);
  }

  /** Entry (1, z) of the adjugate as a polynomial in the entries of m. */
  lemma AdjugateEntry1Z(m: Mat4)
    ensures Adjugate(m)[1].z == -m[3].x * (m[0].z * m[1].w - m[1].z * m[0].w) + m[3].z * (m[0].x * m[1].w - m[1].x * m[0].w) - m[3].w * (m[0].x * m[1].z - m[1].x * m[0].z)
  {
    var s, c := DetS(m), DetC(m);
    assert Adjugate(m)[1] == AdjugateRowFromMinors1(m, s, c);
    MulSubst(s[5], m[0].z * m[1].w - m[1].z * m[0].w, m[3].x);
    MulSubst(s[2], m[0].x * m[1].w - m[1].x * m[0].w, m[3].z);
    MulSubst(s[1], m[0].x * m[1].z - m[1].x * m[0].z, m[3].w);
  }

  /** Entry (1, w) of the adjugate as a polynomial in the entries of m. */
  lemma AdjugateEntry1W(m: Mat4)
    ensures Adjugate(m)[1].w == m[2].x * (m[0].z * m[1].w - m[1].z * m[0].w) - m[2].z * (m[0].x * m[1].w - m[1].x * m[0].w) + m[2].w * (m[0].x * m[1].z - m[1].x * m[0].z)
  {
    var s, c := DetS(m), DetC(m);
    assert Adjugate(m)[1] == AdjugateRowFromMinors1(m, s, c);
    MulSubst(s[5], m[0].z * m[1].w - m[1].z * m[0].w, m[2].x);
    MulSubst(s[2], m[0].x * m[1].w - m[1].x * m[0].w, m[2].z);
    MulSubst(s[1], m[0].x * m[1].z - m[1].x * m[0].z, m[2].w);
  }

  /** Entry (2, x) of the adjugate as a polynomial in the entries of m. */
  lemma AdjugateEntry2X(m: Mat4)
    ensures Adjugate(m)[2].x == m[1].x * (m[2].y * m[3].w - m[3].y * m[2].w) - m[1].y * (m[2].x * m[3].w - m[3].x * m[2].w) + m[1].w * (m[2].x * m[3].y - m[3].x * m[2].y)
  {
    var s, c := DetS(m), DetC(m);
    assert Adjugate(m)[2] == AdjugateRowFromMinors2(m, s, c);
    MulSubst(c[4], m[2].y * m[3].w - m[3].y * m[2].w, m[1].x);
    MulSubst(c[2], m[2].x * m[3].w - m[3].x * m[2].w, m[1].y);
    MulSubst(c[0], m[2].x * m[3].y - m[3].x * m[2].y, m[1].w);
  }

  /** Entry (2, y) of the adjugate as a polynomial in the entries of m. */
  lemma AdjugateEntry2Y(m: Mat4)
    ensures Adjugate(m)[2].y == -m[0].x * (m[2].y * m[3].w - m[3].y * m[2].w) + m[0].y * (m[2].x * m[3].w - m[3].x * m[2].w) - m[0].w * (m[2].x * m[3].y - m[3].x * m[2].y)
  {
    var s, c := DetS(m), DetC(m);
    assert Adjugate(m)[2] == AdjugateRowFromMinors2(m, s, c);
    MulSubst(c[4], m[2].y * m[3].w - m[3].y * m[2].w, m[0].x);
    MulSubst(c[2], m[2].x * m[3].w - m[3].x * m[2].w, m[0].y);
    MulSubst(c[0], m[2].x * m[3].y - m[3].x * m[2].y, m[0].w);
  }

  /** Entry (2, z) of the adjugate as a polynomial in the entries of m. */
  lemma AdjugateEntry2Z(m: Mat4)
    ensures Adjugate(m)[2].z == m[3].x * (m[0].y * m[1].w - m[1].y * m[0].w) - m[3].y * (m[0].x * m[1].w - m[1].x * m[0].w) + m[3].w * (m[0].x * m[1].y - m[1].x * m[0].y)
  {
    var s, c := DetS(m), DetC(m);
    assert Adjugate(m)[2] == AdjugateRowFromMinors2(m, s, c);
    MulSubst(s[4], m[0].y * m[1].w - m[1].y * m[0].w, m[3].x);
    MulSubst(s[2], m[0].x * m[1].w - m[1].x * m[0].w, m[3].y);
    MulSubst(s[0], m[0].x * m[1].y - m[1].x * m[0].y, m[3].w);
  }

  /** Entry (2, w) of the adjugate as a polynomial in the entries of m. */
  lemma AdjugateEntry2W(m: Mat4)
    ensures Adjugate(m)[2].w == -m[2].x * (m[0].y * m[1].w - m[1].y * m[0].w) + m[2].y * (m[0].x * m[1].w - m[1].x * m[0].w) - m[2].w * (m[0].x * m[1].y - m[1].x * m[0].y)
  {
    var s, c := DetS(m), DetC(m);
    assert Adjugate(m)[2] == AdjugateRowFromMinors2(m, s, c);
    MulSubst(s[4], m[0].y * m[1].w - m[1].y * m[0].w, m[2].x);
    MulSubst(s[2], m[0].x * m[1].w - m[1].x * m[0].w, m[2].y);
    MulSubst(s[0], m[0].x * m[1].y - m[1].x * m[0].y, m[2].w);
  }

  /** Entry (3, x) of the adjugate as a polynomial in the entries of m. */
  lemma AdjugateEntry3X(m: Mat4)
    ensures Adjugate(m)[3].x == -m[1].x * (m[2].y * m[3].z - m[3].y * m[2].z) + m[1].y * (m[2].x * m[3].z - m[3].x * m[2].z) - m[1].z * (m[2].x * m[3].y - m[3].x * m[2].y)
  {
    var s, c := DetS(m), DetC(m);
    assert Adjugate(m)[3] == AdjugateRowFromMinors3(m, s, c);
    MulSubst(c[3], m[2].y * m[3].z - m[3].y * m[2].z, m[1].x);
    MulSubst(c[1], m[2].x * m[3].z - m[3].x * m[2].z, m[1].y);
    MulSubst(c[0], m[2].x * m[3].y - m[3].x * m[2].y, m[1].z);
  }

  /** Entry (3, y) of the adjugate as a polynomial in the entries of m. */
  lemma AdjugateEntry3Y(m: Mat4)
    ensures Adjugate(m)[3].y == m[0].x * (m[2].y * m[3].z - m[3].y * m[2].z) - m[0].y * (m[2].x * m[3].z - m[3].x * m[2].z) + m[0].z * (m[2].x * m[3].y - m[3].x * m[2].y)
  {
    var s, c := DetS(m), DetC(m);
    assert Adjugate(m)[3] == AdjugateRowFromMinors3(m, s, c);
    MulSubst(c[3], m[2].y * m[3].z - m[3].y * m[2].z, m[0].x);
    MulSubst(c[1], m[2].x * m[3].z - m[3].x * m[2].z, m[0].y);
    MulSubst(c[0], m[2].x * m[3].y - m[3].x * m[2].y, m[0].z);
  }

  /** Entry (3, z) of the adjugate as a polynomial in the entries of m. */
  lemma AdjugateEntry3Z(m: Mat4)
    ensures Adjugate(m)[3].z == -m[3].x * (m[0].y * m[1].z - m[1].y * m[0].z) + m[3].y * (m[0].x * m[1].z - m[1].x * m[0].z) - m[3].z * (m[0].x * m[1].y - m[1].x * m[0].y)
  {
    var s, c := DetS(m), DetC(m);
    assert Adjugate(m)[3] == AdjugateRowFromMinors3(m, s, c);
    MulSubst(s[3], m[0].y * m[1].z - m[1].y * m[0].z, m[3].x);
    MulSubst(s[1], m[0].x * m[1].z - m[1].x * m[0].z, m[3].y);
    MulSubst(s[0], m[0].x * m[1].y - m[1].x * m[0].y, m[3].z);
  }

  /** Entry (3, w) of the adjugate as a polynomial in the entries of m. */
  lemma AdjugateEntry3W(m: Mat4)
    ensures Adjugate(m)[3].w == m[2].x * (m[0].y * m[1].z - m[1].y * m[0].z) - m[2].y * (m[0].x * m[1].z - m[1].x * m[0].z) + m[2].z * (m[0].x * m[1].y - m[1].x * m[0].y)
  {
    var s, c := DetS(m), DetC(m);
    assert Adjugate(m)[3] == AdjugateRowFromMinors3(m, s, c);
    MulSubst(s[3], m[0].y * m[1].z - m[1].y * m[0].z, m[2].x);
    MulSubst(s[1], m[0].x * m[1].z - m[1].x * m[0].z, m[2].y);
    MulSubst(s[0], m[0].x * m[1].y - m[1].x * m[0].y, m[2].z);
  }

  /** A vector holding row 0's cofactor polynomials, against each column of m. */
  lemma AdjugateRowDots0(m: Mat4, a: Vec4)
    requires a.x == m[1].y * (m[2].z * m[3].w - m[3].z * m[2].w) - m[1].z * (m[2].y * m[3].w - m[3].y * m[2].w) + m[1].w * (m[2].y * m[3].z - m[3].y * m[2].z)
    requires a.y == -m[0].y * (m[2].z * m[3].w - m[3].z * m[2].w) + m[0].z * (m[2].y * m[3].w - m[3].y * m[2].w) - m[0].w * (m[2].y * m[3].z - m[3].y * m[2].z)
    requires a.z == m[3].y * (m[0].z * m[1].w - m[1].z * m[0].w) - m[3].z * (m[0].y * m[1].w - m[1].y * m[0].w) + m[3].w * (m[0].y * m[1].z - m[1].y * m[0].z)
    requires a.w == -m[2].y * (m[0].z * m[1].w - m[1].z * m[0].w) + m[2].z * (m[0].y * m[1].w - m[1].y * m[0].w) - m[2].w * (m[0].y * m[1].z - m[1].y * m[0].z)
    ensures Dot4Value(a, Col(m, 0)) == Leibniz4(m)
    ensures Dot4Value(a, Col(m, 1)) == 0.0
    ensures Dot4Value(a, Col(m, 2)) == 0.0
    ensures Dot4Value(a, Col(m, 3)) == 0.0
  {
    assert Col(m, 0) == Vec4(m[0].x, m[1].x, m[2].x, m[3].x);
    assert Col(m, 1) == Vec4(m[0].y, m[1].y, m[2].y, m[3].y);
    assert Col(m, 2) == Vec4(m[0].z, m[1].z, m[2].z, m[3].z);
    assert Col(m, 3) == Vec4(m[0].w, m[1].w, m[2].w, m[3].w);
    AdjugateRowIdentity0(m[0].x, m[0].y, m[0].z, m[0].w, m[1].x, m[1].y, m[1].z, m[1].w, m[2].x, m[2].y, m[2].z, m[2].w, m[3].x, m[3].y, m[3].z, m[3].w,
      a.x, a.y, a.z, a.w);
  }

  /** Row 0 of the adjugate against each column of m. */
  lemma AdjugateRow0(m: Mat4)
    ensures Dot4Value(Adjugate(m)[0], Col(m, 0)) == Det4(m)
    ensures Dot4Value(Adjugate(m)[0], Col(m, 1)) == 0.0
    ensures Dot4Value(Adjugate(m)[0], Col(m, 2)) == 0.0
    ensures Dot4Value(Adjugate(m)[0], Col(m, 3)) == 0.0
  {
    Det4IsLeibniz(m);
    AdjugateEntry0X(m);
    AdjugateEntry0Y(m);
    AdjugateEntry0Z(m);
    AdjugateEntry0W(m);
    AdjugateRowDots0(m, Adjugate(m)[0]);
  }

  /** A vector holding row 1's cofactor polynomials, against each column of m. */
  lemma AdjugateRowDots1(m: Mat4, a: Vec4)
    requires a.x == -m[1].x * (m[2].z * m[3].w - m[3].z * m[2].w) + m[1].z * (m[2].x * m[3].w - m[3].x * m[2].w) - m[1].w * (m[2].x * m[3].z - m[3].x * m[2].z)
    requires a.y == m[0].x * (m[2].z * m[3].w - m[3].z * m[2].w) - m[0].z * (m[2].x * m[3].w - m[3].x * m[2].w) + m[0].w * (m[2].x * m[3].z - m[3].x * m[2].z)
    requires a.z == -m[3].x * (m[0].z * m[1].w - m[1].z * m[0].w) + m[3].z * (m[0].x * m[1].w - m[1].x * m[0].w) - m[3].w * (m[0].x * m[1].z - m[1].x * m[0].z)
    requires a.w == m[2].x * (m[0].z * m[1].w - m[1].z * m[0].w) - m[2].z * (m[0].x * m[1].w - m[1].x * m[0].w) + m[2].w * (m[0].x * m[1].z - m[1].x * m[0].z)
    ensures Dot4Value(a, Col(m, 0)) == 0.0
    ensures Dot4Value(a, Col(m, 1)) == Leibniz4(m)
    ensures Dot4Value(a, Col(m, 2)) == 0.0
    ensures Dot4Value(a, Col(m, 3)) == 0.0
  {
    assert Col(m, 0) == Vec4(m[0].x, m[1].x, m[2].x, m[3].x);
    assert Col(m, 1) == Vec4(m[0].y, m[1].y, m[2].y, m[3].y);
    assert Col(m, 2) == Vec4(m[0].z, m[1].z, m[2].z, m[3].z);
    assert Col(m, 3) == Vec4(m[0].w, m[1].w, m[2].w, m[3].w);
    AdjugateRowIdentity1(m[0].x, m[0].y, m[0].z, m[0].w, m[1].x, m[1].y, m[1].z, m[1].w, m[2].x, m[2].y, m[2].z, m[2].w, m[3].x, m[3].y, m[3].z, m[3].w,
      a.x, a.y, a.z, a.w);
  }

  /** Row 1 of the adjugate against each column of m. */
  lemma AdjugateRow1(m: Mat4)
    ensures Dot4Value(Adjugate(m)[1], Col(m, 0)) == 0.0
    ensures Dot4Value(Adjugate(m)[1], Col(m, 1)) == Det4(m)
    ensures Dot4Value(Adjugate(m)[1], Col(m, 2)) == 0.0
    ensures Dot4Value(Adjugate(m)[1], Col(m, 3)) == 0.0
  {
    Det4IsLeibniz(m);
    AdjugateEntry1X(m);
    AdjugateEntry1Y(m);
    AdjugateEntry1Z(m);
    AdjugateEntry1W(m);
    AdjugateRowDots1(m, Adjugate(m)[1]);
  }

  /** A vector holding row 2's cofactor polynomials, against each column of m. */
  lemma AdjugateRowDots2(m: Mat4, a: Vec4)
    requires a.x == m[1].x * (m[2].y * m[3].w - m[3].y * m[2].w) - m[1].y * (m[2].x * m[3].w - m[3].x * m[2].w) + m[1].w * (m[2].x * m[3].y - m[3].x * m[2].y)
    requires a.y == -m[0].x * (m[2].y * m[3].w - m[3].y * m[2].w) + m[0].y * (m[2].x * m[3].w - m[3].x * m[2].w) - m[0].w * (m[2].x * m[3].y - m[3].x * m[2].y)
    requires a.z == m[3].x * (m[0].y * m[1].w - m[1].y * m[0].w) - m[3].y * (m[0].x * m[1].w - m[1].x * m[0].w) + m[3].w * (m[0].x * m[1].y - m[1].x * m[0].y)
    requires a.w == -m[2].x * (m[0].y * m[1].w - m[1].y * m[0].w) + m[2].y * (m[0].x * m[1].w - m[1].x * m[0].w) - m[2].w * (m[0].x * m[1].y - m[1].x * m[0].y)
    ensures Dot4Value(a, Col(m, 0)) == 0.0
    ensures Dot4Value(a, Col(m, 1)) == 0.0
    ensures Dot4Value(a, Col(m, 2)) == Leibniz4(m)
    ensures Dot4Value(a, Col(m, 3)) == 0.0
  {
    assert Col(m, 0) == Vec4(m[0].x, m[1].x, m[2].x, m[3].x);
    assert Col(m, 1) == Vec4(m[0].y, m[1].y, m[2].y, m[3].y);
    assert Col(m, 2) == Vec4(m[0].z, m[1].z, m[2].z, m[3].z);
    assert Col(m, 3) == Vec4(m[0].w, m[1].w, m[2].w, m[3].w);
    AdjugateRowIdentity2(m[0].x, m[0].y, m[0].z, m[0].w, m[1].x, m[1].y, m[1].z, m[1].w, m[2].x, m[2].y, m[2].z, m[2].w, m[3].x, m[3].y, m[3].z, m[3].w,
      a.x, a.y, a.z, a.w);
  }

  /** Row 2 of the adjugate against each column of m. */
  lemma AdjugateRow2(m: Mat4)
    ensures Dot4Value(Adjugate(m)[2], Col(m, 0)) == 0.0
    ensures Dot4Value(Adjugate(m)[2], Col(m, 1)) == 0.0
    ensures Dot4Value(Adjugate(m)[2], Col(m, 2)) == Det4(m)
    ensures Dot4Value(Adjugate(m)[2], Col(m, 3)) == 0.0
  {
    Det4IsLeibniz(m);
    AdjugateEntry2X(m);
    AdjugateEntry2Y(m);
    AdjugateEntry2Z(m);
    AdjugateEntry2W(m);
    AdjugateRowDots2(m, Adjugate(m)[2]);
  }

  /** A vector holding row 3's cofactor polynomials, against each column of m. */
  lemma AdjugateRowDots3(m: Mat4, a: Vec4)
    requires a.x == -m[1].x * (m[2].y * m[3].z - m[3].y * m[2].z) + m[1].y * (m[2].x * m[3].z - m[3].x * m[2].z) - m[1].z * (m[2].x * m[3].y - m[3].x * m[2].y)
    requires a.y == m[0].x * (m[2].y * m[3].z - m[3].y * m[2].z) - m[0].y * (m[2].x * m[3].z - m[3].x * m[2].z) + m[0].z * (m[2].x * m[3].y - m[3].x * m[2].y)
    requires a.z == -m[3].x * (m[0].y * m[1].z - m[1].y * m[0].z) + m[3].y * (m[0].x * m[1].z - m[1].x * m[0].z) - m[3].z * (m[0].x * m[1].y - m[1].x * m[0].y)
    requires a.w == m[2].x * (m[0].y * m[1].z - m[1].y * m[0].z) - m[2].y * (m[0].x * m[1].z - m[1].x * m[0].z) + m[2].z * (m[0].x * m[1].y - m[1].x * m[0].y)
    ensures Dot4Value(a, Col(m, 0)) == 0.0
    ensures Dot4Value(a, Col(m, 1)) == 0.0
    ensures Dot4Value(a, Col(m, 2)) == 0.0
    ensures Dot4Value(a, Col(m, 3)) == Leibniz4(m)
  {
    assert Col(m, 0) == Vec4(m[0].x, m[1].x, m[2].x, m[3].x);
    assert Col(m, 1) == Vec4(m[0].y, m[1].y, m[2].y, m[3].y);
    assert Col(m, 2) == Vec4(m[0].z, m[1].z, m[2].z, m[3].z);
    assert Col(m, 3) == Vec4(m[0].w, m[1].w, m[2].w, m[3].w);
    AdjugateRowIdentity3(m[0].x, m[0].y, m[0].z, m[0].w, m[1].x, m[1].y, m[1].z, m[1].w, m[2].x, m[2].y, m[2].z, m[2].w, m[3].x, m[3].y, m[3].z, m[3].w,
      a.x, a.y, a.z, a.w);
  }

  /** Row 3 of the adjugate against each column of m. */
  lemma AdjugateRow3(m: Mat4)
    ensures Dot4Value(Adjugate(m)[3], Col(m, 0)) == 0.0
    ensures Dot4Value(Adjugate(m)[3], Col(m, 1)) == 0.0
    ensures Dot4Value(Adjugate(m)[3], Col(m, 2)) == 0.0
    ensures Dot4Value(Adjugate(m)[3], Col(m, 3)) == Det4(m)
  {
    Det4IsLeibniz(m);
    AdjugateEntry3X(m);
    AdjugateEntry3Y(m);
    AdjugateEntry3Z(m);
    AdjugateEntry3W(m);
    AdjugateRowDots3(m, Adjugate(m)[3]);
  }

  lemma ScaledDot(a: Vec4, b: Vec4, k: real)
    ensures Dot4Value(Mul(a, Load1f(k)), b) == k * Dot4Value(a, b)
  {
  }

  /** Row i of the inverse dotted with column j of m is 1 on the diagonal and 0 elsewhere. */
  lemma InverseRowDots(m: Mat4, i: nat)
    requires Det4(m) != 0.0 && i < 4
    ensures forall j | 0 <= j < 4 :: Dot4Value(Inverse(m)[i], Col(m, j)) == if i == j then 1.0 else 0.0
  {
    var k := Reciprocal(Det4(m));
    assert Inverse(m)[i] == Mul(Adjugate(m)[i], Load1f(k));
    if i == 0 { AdjugateRow0(m); } else if i == 1 { AdjugateRow1(m); }
    else if i == 2 { AdjugateRow2(m); } else { AdjugateRow3(m); }
    forall j | 0 <= j < 4
      ensures Dot4Value(Inverse(m)[i], Col(m, j)) == if i == j then 1.0 else 0.0
    {
      ScaledDot(Adjugate(m)[i], Col(m, j), k);
    }
  }

  /** matrixInverse yields a left inverse: Inverse(m) * m is the identity whenever det(m) != 0. */
  lemma InverseIsLeftInverse(m: Mat4)
    requires Det4(m) != 0.0
    ensures MatrixProduct(Inverse(m), m) == Identity()
  {
    var p := MatrixProduct(Inverse(m), m);
    var id := Identity();
    forall i | 0 <= i < 4
      ensures p[i] == id[i]
    {
      InverseRowDots(m, i);
      assert At(p, i, 0) == At(id, i, 0) && At(p, i, 1) == At(id, i, 1);
      assert At(p, i, 2) == At(id, i, 2) && At(p, i, 3) == At(id, i, 3);
    }
  }

  // Determinant of a transform matrix: with row 3 = (0, 0, 0, 1) the
  // determinant is that of the 3x3 block, whose columns are the rotation
  // block's scaled by s.x, s.y and s.z; for a unit quaternion the rotation
  // block has determinant 1.

  /** The determinant of a matrix whose last row is (0, 0, 0, 1) is that of its 3x3 block. */
  lemma Det4OfAffine(m: Mat4)
    requires m[3] == Vec4(0.0, 0.0, 0.0, 1.0)
    ensures Det4(m) == Det3x3(m)
  {
    Det4IsLeibniz(m);
    Det3x3IsLeibniz(m);
  }

  /** The 3x3 determinant expanded along column 0, over its nine entries. */
  function Det3Entries(a00: real, a01: real, a02: real, a10: real, a11: real, a12: real,
                       a20: real, a21: real, a22: real): real
  {
    a00 * (a11 * a22 - a12 * a21) - a10 * (a01 * a22 - a02 * a21) + a20 * (a01 * a12 - a02 * a11)
  }

  /** Det3Entries of equal entries are equal. */
  lemma Det3Congruence(a00: real, a01: real, a02: real, a10: real, a11: real, a12: real, a20: real, a21: real, a22: real,
                       b00: real, b01: real, b02: real, b10: real, b11: real, b12: real, b20: real, b21: real, b22: real)
    requires a00 == b00 && a01 == b01 && a02 == b02
    requires a10 == b10 && a11 == b11 && a12 == b12
    requires a20 == b20 && a21 == b21 && a22 == b22
    ensures Det3Entries(a00, a01, a02, a10, a11, a12, a20, a21, a22) == Det3Entries(b00, b01, b02, b10, b11, b12, b20, b21, b22)
  {
  }

  /** Scaling the columns by sx, sy and sz scales the determinant by sx sy sz. */
  lemma Det3ScaledColumns(b00: real, b01: real, b02: real, b10: real, b11: real, b12: real, b20: real, b21: real, b22: real,
                          sx: real, sy: real, sz: real)
    ensures Det3Entries(b00 * sx, b01 * sy, b02 * sz, b10 * sx, b11 * sy, b12 * sz, b20 * sx, b21 * sy, b22 * sz)
      == sx * sy * sz * Det3Entries(b00, b01, b02, b10, b11, b12, b20, b21, b22)
  {
  }

  /** The rotation block of a unit quaternion has determinant 1, over its entries' polynomials. */
  lemma RotationDeterminant(x: real, y: real, z: real, w: real)
    requires x * x + y * y + z * z + w * w == 1.0
    ensures Det3Entries(
      1.0 - (y * (y + y) + z * (z + z)), x * (y + y) - w * (z + z), x * (z + z) + w * (y + y),
      x * (y + y) + w * (z + z), 1.0 - (x * (x + x) + z * (z + z)), y * (z + z) - w * (x + x),
      x * (z + z) - w * (y + y), y * (z + z) + w * (x + x), 1.0 - (x * (x + x) + y * (y + y))) == 1.0
  {
  }

  /** The rotation block of a unit quaternion has determinant 1, over given entries. */
  lemma UnitBlock(x: real, y: real, z: real, w: real,
                  r00: real, r01: real, r02: real, r10: real, r11: real, r12: real, r20: real, r21: real, r22: real)
    requires x * x + y * y + z * z + w * w == 1.0
    requires r00 == 1.0 - (y * (y + y) + z * (z + z)) && r01 == x * (y + y) - w * (z + z) && r02 == x * (z + z) + w * (y + y)
    requires r10 == x * (y + y) + w * (z + z) && r11 == 1.0 - (x * (x + x) + z * (z + z)) && r12 == y * (z + z) - w * (x + x)
    requires r20 == x * (z + z) - w * (y + y) && r21 == y * (z + z) + w * (x + x) && r22 == 1.0 - (x * (x + x) + y * (y + y))
    ensures Det3Entries(r00, r01, r02, r10, r11, r12, r20, r21, r22) == 1.0
  {
    RotationDeterminant(x, y, z, w);
    Det3Congruence(r00, r01, r02, r10, r11, r12, r20, r21, r22,
      1.0 - (y * (y + y) + z * (z + z)), x * (y + y) - w * (z + z), x * (z + z) + w * (y + y),
      x * (y + y) + w * (z + z), 1.0 - (x * (x + x) + z * (z + z)), y * (z + z) - w * (x + x),
      x * (z + z) - w * (y + y), y * (z + z) + w * (x + x), 1.0 - (x * (x + x) + y * (y + y)));
  }

  /** Entries a equal to those of r with the columns scaled by sx, sy and sz give determinant sx sy sz det(r). */
  lemma ScaledBlock(a00: real, a01: real, a02: real, a10: real, a11: real, a12: real, a20: real, a21: real, a22: real,
                    r00: real, r01: real, r02: real, r10: real, r11: real, r12: real, r20: real, r21: real, r22: real,
                    sx: real, sy: real, sz: real)
    requires a00 == r00 * sx && a01 == r01 * sy && a02 == r02 * sz
    requires a10 == r10 * sx && a11 == r11 * sy && a12 == r12 * sz
    requires a20 == r20 * sx && a21 == r21 * sy && a22 == r22 * sz
    ensures Det3Entries(a00, a01, a02, a10, a11, a12, a20, a21, a22) == sx * sy * sz * Det3Entries(r00, r01, r02, r10, r11, r12, r20, r21, r22)
  {
    Det3Congruence(a00, a01, a02, a10, a11, a12, a20, a21, a22,
      r00 * sx, r01 * sy, r02 * sz, r10 * sx, r11 * sy, r12 * sz, r20 * sx, r21 * sy, r22 * sz);
    Det3ScaledColumns(r00, r01, r02, r10, r11, r12, r20, r21, r22, sx, sy, sz);
  }

  /** k d == k when d == 1. */
  lemma TimesUnit(p: real, k: real, d: real)
    requires p == k * d && d == 1.0
    ensures p == k
  {
  }

  /** Entries of a unit quaternion's rotation block with the columns scaled by sx, sy and sz have determinant sx sy sz. */
  lemma BlockFromEntries(a00: real, a01: real, a02: real, a10: real, a11: real, a12: real, a20: real, a21: real, a22: real,
                         x: real, y: real, z: real, w: real,
                         r00: real, r01: real, r02: real, r10: real, r11: real, r12: real, r20: real, r21: real, r22: real,
                         sx: real, sy: real, sz: real)
    requires x * x + y * y + z * z + w * w == 1.0
    requires r00 == 1.0 - (y * (y + y) + z * (z + z)) && r01 == x * (y + y) - w * (z + z) && r02 == x * (z + z) + w * (y + y)
    requires r10 == x * (y + y) + w * (z + z) && r11 == 1.0 - (x * (x + x) + z * (z + z)) && r12 == y * (z + z) - w * (x + x)
    requires r20 == x * (z + z) - w * (y + y) && r21 == y * (z + z) + w * (x + x) && r22 == 1.0 - (x * (x + x) + y * (y + y))
    requires a00 == r00 * sx && a01 == r01 * sy && a02 == r02 * sz
    requires a10 == r10 * sx && a11 == r11 * sy && a12 == r12 * sz
    requires a20 == r20 * sx && a21 == r21 * sy && a22 == r22 * sz
    ensures Det3Entries(a00, a01, a02, a10, a11, a12, a20, a21, a22) == sx * sy * sz
  {
    ScaledBlock(a00, a01, a02, a10, a11, a12, a20, a21, a22, r00, r01, r02, r10, r11, r12, r20, r21, r22, sx, sy, sz);
    UnitBlock(x, y, z, w, r00, r01, r02, r10, r11, r12, r20, r21, r22);
    TimesUnit(Det3Entries(a00, a01, a02, a10, a11, a12, a20, a21, a22), sx * sy * sz,
      Det3Entries(r00, r01, r02, r10, r11, r12, r20, r21, r22));
  }

  /** Entries laid out as in createTransformMatrix, for a unit quaternion (x, y, z, w), have determinant sx sy sz. */
  lemma ScaledRotationEntries(a00: real, a01: real, a02: real, a10: real, a11: real, a12: real, a20: real, a21: real, a22: real,
                              x: real, y: real, z: real, w: real, sx: real, sy: real, sz: real)
    requires x * x + y * y + z * z + w * w == 1.0
    requires a00 == (1.0 - (y * (y + y) + z * (z + z))) * sx && a01 == (x * (y + y) - w * (z + z)) * sy
    requires a02 == (x * (z + z) + w * (y + y)) * sz
    requires a10 == (x * (y + y) + w * (z + z)) * sx && a11 == (1.0 - (x * (x + x) + z * (z + z))) * sy
    requires a12 == (y * (z + z) - w * (x + x)) * sz
    requires a20 == (x * (z + z) - w * (y + y)) * sx && a21 == (y * (z + z) + w * (x + x)) * sy
    requires a22 == (1.0 - (x * (x + x) + y * (y + y))) * sz
    ensures Det3Entries(a00, a01, a02, a10, a11, a12, a20, a21, a22) == sx * sy * sz
  {
    BlockFromEntries(a00, a01, a02, a10, a11, a12, a20, a21, a22, x, y, z, w,
      1.0 - (y * (y + y) + z * (z + z)), x * (y + y) - w * (z + z), x * (z + z) + w * (y + y),
      x * (y + y) + w * (z + z), 1.0 - (x * (x + x) + z * (z + z)), y * (z + z) - w * (x + x),
      x * (z + z) - w * (y + y), y * (z + z) + w * (x + x), 1.0 - (x * (x + x) + y * (y + y)),
      sx, sy, sz);
  }

  /** Three rows of createTransformMatrix(t, q, s), for a unit q, form a block of determinant s.x s.y s.z. */
  lemma RowsBlock(t: Vec4, q: Vec4, s: Vec4, r0: Vec4, r1: Vec4, r2: Vec4)
    requires q.x * q.x + q.y * q.y + q.z * q.z + q.w * q.w == 1.0
    requires TransformRow0(t, q, s, r0) && TransformRow1(t, q, s, r1) && TransformRow2(t, q, s, r2)
    ensures Det3Entries(r0.x, r0.y, r0.z, r1.x, r1.y, r1.z, r2.x, r2.y, r2.z) == s.x * s.y * s.z
  {
    ScaledRotationEntries(r0.x, r0.y, r0.z, r1.x, r1.y, r1.z, r2.x, r2.y, r2.z, q.x, q.y, q.z, q.w, s.x, s.y, s.z);
  }

  /** A matrix with the rows of createTransformMatrix(t, q, s), for a unit q, has a 3x3 block of determinant s.x s.y s.z. */
  lemma RowsBlockDeterminant(t: Vec4, q: Vec4, s: Vec4, m: Mat4)
    requires q.x * q.x + q.y * q.y + q.z * q.z + q.w * q.w == 1.0
    requires TransformRow0(t, q, s, m[0]) && TransformRow1(t, q, s, m[1]) && TransformRow2(t, q, s, m[2])
    ensures Det3x3(m) == s.x * s.y * s.z
  {
    RowsBlock(t, q, s, m[0], m[1], m[2]);
    assert Det3x3(m) == Det3Entries(m[0].x, m[0].y, m[0].z, m[1].x, m[1].y, m[1].z, m[2].x, m[2].y, m[2].z);
  }

  /** createTransformMatrix(t, q, s) for a unit q has determinant s.x s.y s.z, whatever t is. */
  lemma TransformMatrixDeterminant(t: Vec4, q: Vec4, s: Vec4)
    requires Dot4Value(q, q) == 1.0
    ensures Det4(TransformMatrix(t, q, s)) == s.x * s.y * s.z
  {
    Det4OfAffine(TransformMatrix(t, q, s));
    TransformMatrixRows(t, q, s);
    RowsBlockDeterminant(t, q, s, TransformMatrix(t, q, s));
  }

  // ---------------------------------------------------------------------
  // Rotating back by the conjugate
  // ---------------------------------------------------------------------

  /** Lane x of the closed rotation formula, multiplied out over scalars. */
  lemma RotationLaneX(x: real, y: real, z: real, w: real, a: real, b: real, c: real, d: real)
    ensures RotationFormula(Vec4(x, y, z, w), Vec4(a, b, c, d)).x ==
      a * (1.0 - 2.0 * (x * x + y * y + z * z)) + 2.0 * x * (x * a + y * b + z * c) + 2.0 * w * (y * c - z * b)
  {
  }

  /** Lane x of the rotation by the conjugate (-x, -y, -z, w), multiplied out over scalars. */
  lemma ConjugateLaneX(x: real, y: real, z: real, w: real, a: real, b: real, c: real, d: real)
    ensures RotationFormula(Vec4(-x, -y, -z, w), Vec4(a, b, c, d)).x ==
      a * (1.0 - 2.0 * (x * x + y * y + z * z)) + 2.0 * x * (x * a + y * b + z * c) - 2.0 * w * (y * c - z * b)
  {
  }

  /** Lane x of the rotation is row 0 of the rotation block of createTransformMatrix dotted with the vector. */
  lemma RowFormX(x: real, y: real, z: real, w: real, a: real, b: real, c: real, d: real)
    ensures a * (1.0 - 2.0 * (x * x + y * y + z * z)) + 2.0 * x * (x * a + y * b + z * c) + 2.0 * w * (y * c - z * b) ==
      Dot3Value(Vec4(1.0 - 2.0 * (y * y + z * z), 2.0 * x * y - 2.0 * w * z, 2.0 * x * z + 2.0 * w * y, 0.0), Vec4(a, b, c, d))
  {
  }

  /** Lane x of the rotation by the conjugate is column 0 of the rotation block dotted with the vector. */
  lemma ColumnFormX(x: real, y: real, z: real, w: real, a: real, b: real, c: real, d: real)
    ensures a * (1.0 - 2.0 * (x * x + y * y + z * z)) + 2.0 * x * (x * a + y * b + z * c) - 2.0 * w * (y * c - z * b) ==
      Dot3Value(Vec4(1.0 - 2.0 * (y * y + z * z), 2.0 * x * y + 2.0 * w * z, 2.0 * x * z - 2.0 * w * y, 0.0), Vec4(a, b, c, d))
  {
  }

  /** Lane y of the closed rotation formula, multiplied out over scalars. */
  lemma RotationLaneY(x: real, y: real, z: real, w: real, a: real, b: real, c: real, d: real)
    ensures RotationFormula(Vec4(x, y, z, w), Vec4(a, b, c, d)).y ==
      b * (1.0 - 2.0 * (x * x + y * y + z * z)) + 2.0 * y * (x * a + y * b + z * c) + 2.0 * w * (z * a - x * c)
  {
  }

  /** Lane y of the rotation by the conjugate (-x, -y, -z, w), multiplied out over scalars. */
  lemma ConjugateLaneY(x: real, y: real, z: real, w: real, a: real, b: real, c: real, d: real)
    ensures RotationFormula(Vec4(-x, -y, -z, w), Vec4(a, b, c, d)).y ==
      b * (1.0 - 2.0 * (x * x + y * y + z * z)) + 2.0 * y * (x * a + y * b + z * c) - 2.0 * w * (z * a - x * c)
  {
  }

  /** Lane y of the rotation is row 1 of the rotation block of createTransformMatrix dotted with the vector. */
  lemma RowFormY(x: real, y: real, z: real, w: real, a: real, b: real, c: real, d: real)
    ensures b * (1.0 - 2.0 * (x * x + y * y + z * z)) + 2.0 * y * (x * a + y * b + z * c) + 2.0 * w * (z * a - x * c) ==
      Dot3Value(Vec4(2.0 * x * y + 2.0 * w * z, 1.0 - 2.0 * (x * x + z * z), 2.0 * y * z - 2.0 * w * x, 0.0), Vec4(a, b, c, d))
  {
  }

  /** Lane y of the rotation by the conjugate is column 1 of the rotation block dotted with the vector. */
  lemma ColumnFormY(x: real, y: real, z: real, w: real, a: real, b: real, c: real, d: real)
    ensures b * (1.0 - 2.0 * (x * x + y * y + z * z)) + 2.0 * y * (x * a + y * b + z * c) - 2.0 * w * (z * a - x * c) ==
      Dot3Value(Vec4(2.0 * x * y - 2.0 * w * z, 1.0 - 2.0 * (x * x + z * z), 2.0 * y * z + 2.0 * w * x, 0.0), Vec4(a, b, c, d))
  {
  }

  /** Lane z of the closed rotation formula, multiplied out over scalars. */
  lemma RotationLaneZ(x: real, y: real, z: real, w: real, a: real, b: real, c: real, d: real)
    ensures RotationFormula(Vec4(x, y, z, w), Vec4(a, b, c, d)).z ==
      c * (1.0 - 2.0 * (x * x + y * y + z * z)) + 2.0 * z * (x * a + y * b + z * c) + 2.0 * w * (x * b - y * a)
  {
  }

  /** Lane z of the rotation by the conjugate (-x, -y, -z, w), multiplied out over scalars. */
  lemma ConjugateLaneZ(x: real, y: real, z: real, w: real, a: real, b: real, c: real, d: real)
    ensures RotationFormula(Vec4(-x, -y, -z, w), Vec4(a, b, c, d)).z ==
      c * (1.0 - 2.0 * (x * x + y * y + z * z)) + 2.0 * z * (x * a + y * b + z * c) - 2.0 * w * (x * b - y * a)
  {
  }

  /** Lane z of the rotation is row 2 of the rotation block of createTransformMatrix dotted with the vector. */
  lemma RowFormZ(x: real, y: real, z: real, w: real, a: real, b: real, c: real, d: real)
    ensures c * (1.0 - 2.0 * (x * x + y * y + z * z)) + 2.0 * z * (x * a + y * b + z * c) + 2.0 * w * (x * b - y * a) ==
      Dot3Value(Vec4(2.0 * x * z - 2.0 * w * y, 2.0 * y * z + 2.0 * w * x, 1.0 - 2.0 * (x * x + y * y), 0.0), Vec4(a, b, c, d))
  {
  }

  /** Lane z of the rotation by the conjugate is column 2 of the rotation block dotted with the vector. */
  lemma ColumnFormZ(x: real, y: real, z: real, w: real, a: real, b: real, c: real, d: real)
    ensures c * (1.0 - 2.0 * (x * x + y * y + z * z)) + 2.0 * z * (x * a + y * b + z * c) - 2.0 * w * (x * b - y * a) ==
      Dot3Value(Vec4(2.0 * x * z + 2.0 * w * y, 2.0 * y * z - 2.0 * w * x, 1.0 - 2.0 * (x * x + y * y), 0.0), Vec4(a, b, c, d))
  {
  }

  /** For a unit quaternion, row 0 of the rotation block has length 1. */
  lemma RowsOrthonormal00(x: real, y: real, z: real, w: real)
    requires x * x + y * y + z * z + w * w == 1.0
    ensures Dot3Value(Vec4(1.0 - 2.0 * (y * y + z * z), 2.0 * x * y - 2.0 * w * z, 2.0 * x * z + 2.0 * w * y, 0.0),
      Vec4(1.0 - 2.0 * (y * y + z * z), 2.0 * x * y - 2.0 * w * z, 2.0 * x * z + 2.0 * w * y, 0.0)) == 1.0
  {
  }

  /** Row 0 of the rotation block dotted with row 1, multiplied out over scalars. */
  lemma RowsDot01(x: real, y: real, z: real, w: real)
    ensures Dot3Value(Vec4(1.0 - 2.0 * (y * y + z * z), 2.0 * x * y - 2.0 * w * z, 2.0 * x * z + 2.0 * w * y, 0.0),
      Vec4(2.0 * x * y + 2.0 * w * z, 1.0 - 2.0 * (x * x + z * z), 2.0 * y * z - 2.0 * w * x, 0.0)) ==
      (1.0 - 2.0 * (y * y + z * z)) * (2.0 * x * y + 2.0 * w * z) +
      (2.0 * x * y - 2.0 * w * z) * (1.0 - 2.0 * (x * x + z * z)) +
      (2.0 * x * z + 2.0 * w * y) * (2.0 * y * z - 2.0 * w * x)
  {
  }

  /** For a unit quaternion the products of rows 0 and 1 cancel, over scalars. */
  lemma RowsProducts01(x: real, y: real, z: real, w: real)
    requires x * x + y * y + z * z + w * w == 1.0
    ensures (1.0 - 2.0 * (y * y + z * z)) * (2.0 * x * y + 2.0 * w * z) +
      (2.0 * x * y - 2.0 * w * z) * (1.0 - 2.0 * (x * x + z * z)) +
      (2.0 * x * z + 2.0 * w * y) * (2.0 * y * z - 2.0 * w * x) == 0.0
  {
  }

  /** For a unit quaternion, rows 0 and 1 of the rotation block are orthogonal. */
  lemma RowsOrthonormal01(x: real, y: real, z: real, w: real)
    requires x * x + y * y + z * z + w * w == 1.0
    ensures Dot3Value(Vec4(1.0 - 2.0 * (y * y + z * z), 2.0 * x * y - 2.0 * w * z, 2.0 * x * z + 2.0 * w * y, 0.0),
      Vec4(2.0 * x * y + 2.0 * w * z, 1.0 - 2.0 * (x * x + z * z), 2.0 * y * z - 2.0 * w * x, 0.0)) == 0.0
  {
    RowsDot01(x, y, z, w);
    RowsProducts01(x, y, z, w);
  }

  /** Row 0 of the rotation block dotted with row 2, multiplied out over scalars. */
  lemma RowsDot02(x: real, y: real, z: real, w: real)
    ensures Dot3Value(Vec4(1.0 - 2.0 * (y * y + z * z), 2.0 * x * y - 2.0 * w * z, 2.0 * x * z + 2.0 * w * y, 0.0),
      Vec4(2.0 * x * z - 2.0 * w * y, 2.0 * y * z + 2.0 * w * x, 1.0 - 2.0 * (x * x + y * y), 0.0)) ==
      (1.0 - 2.0 * (y * y + z * z)) * (2.0 * x * z - 2.0 * w * y) +
      (2.0 * x * y - 2.0 * w * z) * (2.0 * y * z + 2.0 * w * x) +
      (2.0 * x * z + 2.0 * w * y) * (1.0 - 2.0 * (x * x + y * y))
  {
  }

  /** For a unit quaternion the products of rows 0 and 2 cancel, over scalars. */
  lemma RowsProducts02(x: real, y: real, z: real, w: real)
    requires x * x + y * y + z * z + w * w == 1.0
    ensures (1.0 - 2.0 * (y * y + z * z)) * (2.0 * x * z - 2.0 * w * y) +
      (2.0 * x * y - 2.0 * w * z) * (2.0 * y * z + 2.0 * w * x) +
      (2.0 * x * z + 2.0 * w * y) * (1.0 - 2.0 * (x * x + y * y)) == 0.0
  {
  }

  /** For a unit quaternion, rows 0 and 2 of the rotation block are orthogonal. */
  lemma RowsOrthonormal02(x: real, y: real, z: real, w: real)
    requires x * x + y * y + z * z + w * w == 1.0
    ensures Dot3Value(Vec4(1.0 - 2.0 * (y * y + z * z), 2.0 * x * y - 2.0 * w * z, 2.0 * x * z + 2.0 * w * y, 0.0),
      Vec4(2.0 * x * z - 2.0 * w * y, 2.0 * y * z + 2.0 * w * x, 1.0 - 2.0 * (x * x + y * y), 0.0)) == 0.0
  {
    RowsDot02(x, y, z, w);
    RowsProducts02(x, y, z, w);
  }

  /** For a unit quaternion, row 1 of the rotation block has length 1. */
  lemma RowsOrthonormal11(x: real, y: real, z: real, w: real)
    requires x * x + y * y + z * z + w * w == 1.0
    ensures Dot3Value(Vec4(2.0 * x * y + 2.0 * w * z, 1.0 - 2.0 * (x * x + z * z), 2.0 * y * z - 2.0 * w * x, 0.0),
      Vec4(2.0 * x * y + 2.0 * w * z, 1.0 - 2.0 * (x * x + z * z), 2.0 * y * z - 2.0 * w * x, 0.0)) == 1.0
  {
  }

  /** Row 1 of the rotation block dotted with row 2, multiplied out over scalars. */
  lemma RowsDot12(x: real, y: real, z: real, w: real)
    ensures Dot3Value(Vec4(2.0 * x * y + 2.0 * w * z, 1.0 - 2.0 * (x * x + z * z), 2.0 * y * z - 2.0 * w * x, 0.0),
      Vec4(2.0 * x * z - 2.0 * w * y, 2.0 * y * z + 2.0 * w * x, 1.0 - 2.0 * (x * x + y * y), 0.0)) ==
      (2.0 * x * y + 2.0 * w * z) * (2.0 * x * z - 2.0 * w * y) +
      (1.0 - 2.0 * (x * x + z * z)) * (2.0 * y * z + 2.0 * w * x) +
      (2.0 * y * z - 2.0 * w * x) * (1.0 - 2.0 * (x * x + y * y))
  {
  }

  /** For a unit quaternion the products of rows 1 and 2 cancel, over scalars. */
  lemma RowsProducts12(x: real, y: real, z: real, w: real)
    requires x * x + y * y + z * z + w * w == 1.0
    ensures (2.0 * x * y + 2.0 * w * z) * (2.0 * x * z - 2.0 * w * y) +
      (1.0 - 2.0 * (x * x + z * z)) * (2.0 * y * z + 2.0 * w * x) +
      (2.0 * y * z - 2.0 * w * x) * (1.0 - 2.0 * (x * x + y * y)) == 0.0
  {
  }

  /** For a unit quaternion, rows 1 and 2 of the rotation block are orthogonal. */
  lemma RowsOrthonormal12(x: real, y: real, z: real, w: real)
    requires x * x + y * y + z * z + w * w == 1.0
    ensures Dot3Value(Vec4(2.0 * x * y + 2.0 * w * z, 1.0 - 2.0 * (x * x + z * z), 2.0 * y * z - 2.0 * w * x, 0.0),
      Vec4(2.0 * x * z - 2.0 * w * y, 2.0 * y * z + 2.0 * w * x, 1.0 - 2.0 * (x * x + y * y), 0.0)) == 0.0
  {
    RowsDot12(x, y, z, w);
    RowsProducts12(x, y, z, w);
  }

  /** For a unit quaternion, row 2 of the rotation block has length 1. */
  lemma RowsOrthonormal22(x: real, y: real, z: real, w: real)
    requires x * x + y * y + z * z + w * w == 1.0
    ensures Dot3Value(Vec4(2.0 * x * z - 2.0 * w * y, 2.0 * y * z + 2.0 * w * x, 1.0 - 2.0 * (x * x + y * y), 0.0),
      Vec4(2.0 * x * z - 2.0 * w * y, 2.0 * y * z + 2.0 * w * x, 1.0 - 2.0 * (x * x + y * y), 0.0)) == 1.0
  {
  }

  /** The three-lane dot product is symmetric. */
  lemma Dot3Commutes(a: Vec4, b: Vec4)
    ensures Dot3Value(a, b) == Dot3Value(b, a)
  {
  }

  /** A row r combining the lanes l = n (a, b, c) is (r n) applied to (a, b, c), over scalars. */
  lemma CombineRows(r0: real, r1: real, r2: real, n00: real, n01: real, n02: real, n10: real, n11: real, n12: real,
                    n20: real, n21: real, n22: real, l0: real, l1: real, l2: real, a: real, b: real, c: real,
                    k0: real, k1: real, k2: real)
    requires l0 == n00 * a + n01 * b + n02 * c
    requires l1 == n10 * a + n11 * b + n12 * c
    requires l2 == n20 * a + n21 * b + n22 * c
    requires r0 * n00 + r1 * n10 + r2 * n20 == k0
    requires r0 * n01 + r1 * n11 + r2 * n21 == k1
    requires r0 * n02 + r1 * n12 + r2 * n22 == k2
    ensures r0 * l0 + r1 * l1 + r2 * l2 == k0 * a + k1 * b + k2 * c
  {
  }

  /** The same combination over three-lane dot products. */
  lemma CombineDots(r: Vec4, c0: Vec4, c1: Vec4, c2: Vec4, v: Vec4, p: Vec4, k0: real, k1: real, k2: real)
    requires p.x == Dot3Value(c0, v) && p.y == Dot3Value(c1, v) && p.z == Dot3Value(c2, v)
    requires Dot3Value(r, Vec4(c0.x, c1.x, c2.x, 0.0)) == k0
    requires Dot3Value(r, Vec4(c0.y, c1.y, c2.y, 0.0)) == k1
    requires Dot3Value(r, Vec4(c0.z, c1.z, c2.z, 0.0)) == k2
    ensures Dot3Value(r, p) == k0 * v.x + k1 * v.y + k2 * v.z
  {
    CombineRows(r.x, r.y, r.z, c0.x, c0.y, c0.z, c1.x, c1.y, c1.z, c2.x, c2.y, c2.z, p.x, p.y, p.z, v.x, v.y, v.z, k0, k1, k2);
  }

  /** Rotating by (-x, -y, -z, w) and then by a unit (x, y, z, w) gives back the vector, over scalars. */
  lemma RotationUndone(x: real, y: real, z: real, w: real, a: real, b: real, c: real, d: real)
    requires x * x + y * y + z * z + w * w == 1.0
    ensures RotationFormula(Vec4(x, y, z, w), RotationFormula(Vec4(-x, -y, -z, w), Vec4(a, b, c, d))) == Vec4(a, b, c, d)
  {
    var v := Vec4(a, b, c, d);
    var p := RotationFormula(Vec4(-x, -y, -z, w), v);
    var r0, r1, r2 := Vec4(1.0 - 2.0 * (y * y + z * z), 2.0 * x * y - 2.0 * w * z, 2.0 * x * z + 2.0 * w * y, 0.0),
      Vec4(2.0 * x * y + 2.0 * w * z, 1.0 - 2.0 * (x * x + z * z), 2.0 * y * z - 2.0 * w * x, 0.0),
      Vec4(2.0 * x * z - 2.0 * w * y, 2.0 * y * z + 2.0 * w * x, 1.0 - 2.0 * (x * x + y * y), 0.0);
    var c0, c1, c2 := Vec4(1.0 - 2.0 * (y * y + z * z), 2.0 * x * y + 2.0 * w * z, 2.0 * x * z - 2.0 * w * y, 0.0),
      Vec4(2.0 * x * y - 2.0 * w * z, 1.0 - 2.0 * (x * x + z * z), 2.0 * y * z + 2.0 * w * x, 0.0),
      Vec4(2.0 * x * z + 2.0 * w * y, 2.0 * y * z - 2.0 * w * x, 1.0 - 2.0 * (x * x + y * y), 0.0);
    ConjugateLaneX(x, y, z, w, a, b, c, d);
    ConjugateLaneY(x, y, z, w, a, b, c, d);
    ConjugateLaneZ(x, y, z, w, a, b, c, d);
    ColumnFormX(x, y, z, w, a, b, c, d);
    ColumnFormY(x, y, z, w, a, b, c, d);
    ColumnFormZ(x, y, z, w, a, b, c, d);
    var px, py, pz, pw := p.x, p.y, p.z, p.w;
    assert Vec4(px, py, pz, pw) == p;
    RotationLaneX(x, y, z, w, px, py, pz, pw);
    RotationLaneY(x, y, z, w, px, py, pz, pw);
    RotationLaneZ(x, y, z, w, px, py, pz, pw);
    RowFormX(x, y, z, w, px, py, pz, pw);
    RowFormY(x, y, z, w, px, py, pz, pw);
    RowFormZ(x, y, z, w, px, py, pz, pw);
    RowsOrthonormal00(x, y, z, w);
    RowsOrthonormal01(x, y, z, w);
    RowsOrthonormal02(x, y, z, w);
    RowsOrthonormal11(x, y, z, w);
    RowsOrthonormal12(x, y, z, w);
    RowsOrthonormal22(x, y, z, w);
    Dot3Commutes(r1, r0);
    Dot3Commutes(r2, r0);
    Dot3Commutes(r2, r1);
    CombineDots(r0, c0, c1, c2, v, p, 1.0, 0.0, 0.0);
    CombineDots(r1, c0, c1, c2, v, p, 0.0, 1.0, 0.0);
    CombineDots(r2, c0, c1, c2, v, p, 0.0, 0.0, 1.0);
  }

}
