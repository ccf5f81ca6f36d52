/**
 * The SSE backend (SSEVector). A register holds four real lanes, reusing
 * GenericVecmath.Vec4; the lane-wise intrinsics _mm_add_ps, _mm_sub_ps and
 * _mm_mul_ps are GenericVecmath.Add, Sub and Mul. Comparison results and
 * bit masks are registers of 32-bit lane patterns (Bits4), so the xor/and
 * blend of select and the sign-bit movemask of isZero are modelled exactly.
 * Every operation is proved lane-wise equal to the generic backend.
 */
module SseVecmath {
  import opened GenericMath
  import opened GenericVecmath

  /** A register viewed as four 32-bit lane patterns. */
  datatype Bits4 = Bits4(x: bv32, y: bv32, z: bv32, w: bv32)

  const ALL_ONES: bv32 := 0xFFFF_FFFF

  // ---------------------------------------------------------------------
  // Shuffles
  // ---------------------------------------------------------------------

  /** _mm_shuffle_ps(a, b, SHUFFLEMASK(i, j, k, l)): lanes i, j of a, then lanes k, l of b. */
  function Shuffle(a: Vec4, b: Vec4, i: nat, j: nat, k: nat, l: nat): (r: Vec4)
    requires i < 4 && j < 4 && k < 4 && l < 4
    ensures r.x == Lane(a, i) && r.y == Lane(a, j) && r.z == Lane(b, k) && r.w == Lane(b, l)
  {
    Vec4(Lane(a, i), Lane(a, j), Lane(b, k), Lane(b, l))
  }

  function Swizzle(v: Vec4, i: nat, j: nat, k: nat, l: nat): Vec4
    requires i < 4 && j < 4 && k < 4 && l < 4
  {
    Shuffle(v, v, i, j, k, l)
  }

  // ---------------------------------------------------------------------
  // Cross product and quaternion product
  // ---------------------------------------------------------------------

  /** cross3: two shuffled products; lane 3 is a.w * b.w - b.w * a.w. */
  function Cross3(a: Vec4, b: Vec4): Vec4
  {
    var t0 := Swizzle(a, 1, 2, 0, 3);
    var t1 := Swizzle(b, 2, 0, 1, 3);
    var t3 := Swizzle(a, 2, 0, 1, 3);
    var t2 := Swizzle(b, 1, 2, 0, 3);
    Sub(Mul(t0, t1), Mul(t2, t3))
  }

  lemma Cross3Agrees(a: Vec4, b: Vec4)
    ensures Cross3(a, b) == GenericVecmath.Cross3(a, b)
  {
  }

  /** xor with make(0, 0, 0, -0.0): lanes 0-2 keep their bits, lane 3 flips its sign bit. */
  function FlipSignW(v: Vec4): Vec4
  {
    Vec4(v.x, v.y, v.z, -v.w)
  }

  function QuatMul(a: Vec4, b: Vec4): Vec4
  {
    var comp1 := Mul(Swizzle(a, 0, 1, 2, 0), Swizzle(b, 3, 3, 3, 0));
    var comp2 := Mul(Swizzle(a, 1, 2, 0, 1), Swizzle(b, 2, 0, 1, 1));
    var comp3 := Mul(Swizzle(a, 2, 0, 1, 2), Swizzle(b, 1, 2, 0, 2));
    Add(Sub(Mul(Replicate(a, 3), b), comp3), FlipSignW(Add(comp1, comp2)))
  }

  /** The shuffle form is the Hamilton product with w in lane 3. */
  lemma QuatMulIsHamilton(a: Vec4, b: Vec4)
    ensures QuatMul(a, b) == HamiltonProduct(a, b)
  {
  }

  lemma QuatMulAgrees(a: Vec4, b: Vec4)
    ensures QuatMul(a, b) == GenericVecmath.QuatMul(a, b)
  {
    QuatMulIsHamilton(a, b);
    GenericVecmath.QuatMulIsHamilton(a, b);
  }

  /** quatRotateVec: v + w * t + q x t with t = 2 (q x v), using the shuffle cross product. */
  function QuatRotateVec(q: Vec4, v: Vec4): Vec4
  {
    var tmp := Mul(Load1f(2.0), Cross3(q, v));
    Add(Add(v, Mul(tmp, Replicate(q, 3))), Cross3(q, tmp))
  }

  lemma QuatRotateVecAgrees(q: Vec4, v: Vec4)
    ensures QuatRotateVec(q, v) == GenericVecmath.QuatRotateVec(q, v)
  {
    var tmp := Mul(Load1f(2.0), Cross3(q, v));
    Cross3Agrees(q, v);
    Cross3Agrees(q, tmp);
  }

  // ---------------------------------------------------------------------
  // Dot products
  // ---------------------------------------------------------------------

  /** _mm_hadd_ps(a, b) = (a0 + a1, a2 + a3, b0 + b1, b2 + b3). */
  function Hadd(a: Vec4, b: Vec4): Vec4
  {
    Vec4(a.x + a.y, a.z + a.w, b.x + b.y, b.z + b.w)
  }

  /**
   * horizontalAdd: two hadds when SSSE3 is available, otherwise two
   * shuffle-and-add rounds. The build-time choice is the parameter.
   */
  function HorizontalAdd(t0: Vec4, hasSsse3: bool): (r: Vec4)
    ensures r == Load1f(t0.x + t0.y + t0.z + t0.w)
  {
    if hasSsse3 then
      var t1 := Hadd(t0, t0);
      Hadd(t1, t1)
    else
      var t1 := Shuffle(t0, t0, 2, 3, 0, 1);
      var t2 := Add(t1, t0);
      var t3 := Shuffle(t2, t2, 1, 2, 3, 0);
      Add(t3, t2)
  }

  function Dot4(a: Vec4, b: Vec4, hasSsse3: bool): Vec4
  {
    HorizontalAdd(Mul(a, b), hasSsse3)
  }

  /** dot3: x + (y + z) of the lane products, broadcast. */
  function Dot3(a: Vec4, b: Vec4): Vec4
  {
    var m := Mul(a, b);
    Add(Shuffle(m, m, 0, 0, 0, 0), Add(Shuffle(m, m, 1, 1, 1, 1), Shuffle(m, m, 2, 2, 2, 2)))
  }

  lemma DotAgrees(a: Vec4, b: Vec4, hasSsse3: bool)
    ensures Dot4(a, b, hasSsse3) == GenericVecmath.Dot4(a, b)
    ensures Dot3(a, b) == GenericVecmath.Dot3(a, b)
  {
  }

  /** transform: lane i is lane 0 of dot4 with row i. */
  function Transform(v: Vec4, m: Mat4, hasSsse3: bool): Vec4
  {
    Vec4(Dot4(v, m[0], hasSsse3).x, Dot4(v, m[1], hasSsse3).x,
         Dot4(v, m[2], hasSsse3).x, Dot4(v, m[3], hasSsse3).x)
  }

  lemma TransformAgrees(v: Vec4, m: Mat4, hasSsse3: bool)
    ensures Transform(v, m, hasSsse3) == GenericVecmath.Transform(v, m)
  {
  }

  // ---------------------------------------------------------------------
  // Masks: comparisons, select, isZero
  // ---------------------------------------------------------------------

  function LaneMask(c: bool): bv32
  {
    if c then ALL_ONES else 0
  }

  /** A comparison result: all ones where the lane predicate holds, zero elsewhere. */
  function FromBool(m: Mask4): (r: Bits4)
    ensures Uniform(r) && Truth(r) == m
  {
    Bits4(LaneMask(m.x), LaneMask(m.y), LaneMask(m.z), LaneMask(m.w))
  }

  function CmpEq(a: Vec4, b: Vec4): Bits4 { FromBool(Mask4(a.x == b.x, a.y == b.y, a.z == b.z, a.w == b.w)) }
  function CmpNe(a: Vec4, b: Vec4): Bits4 { FromBool(Mask4(a.x != b.x, a.y != b.y, a.z != b.z, a.w != b.w)) }
  function CmpGt(a: Vec4, b: Vec4): Bits4 { FromBool(Mask4(a.x > b.x, a.y > b.y, a.z > b.z, a.w > b.w)) }
  function CmpGe(a: Vec4, b: Vec4): Bits4 { FromBool(Mask4(a.x >= b.x, a.y >= b.y, a.z >= b.z, a.w >= b.w)) }
  function CmpLt(a: Vec4, b: Vec4): Bits4 { FromBool(Mask4(a.x < b.x, a.y < b.y, a.z < b.z, a.w < b.w)) }
  function CmpLe(a: Vec4, b: Vec4): Bits4 { FromBool(Mask4(a.x <= b.x, a.y <= b.y, a.z <= b.z, a.w <= b.w)) }

  /** Every lane is all ones or all zeros, as comparison results are. */
  predicate Uniform(m: Bits4)
  {
    (m.x == 0 || m.x == ALL_ONES) && (m.y == 0 || m.y == ALL_ONES) &&
    (m.z == 0 || m.z == ALL_ONES) && (m.w == 0 || m.w == ALL_ONES)
  }

  /** The generic backend's reading of a mask: a lane is true iff it is nonzero. */
  function Truth(m: Bits4): Mask4
  {
    Mask4(m.x != 0, m.y != 0, m.z != 0, m.w != 0)
  }

  lemma ComparisonsAgree(a: Vec4, b: Vec4)
    ensures Uniform(CmpEq(a, b)) && Truth(CmpEq(a, b)) == Eq(a, b)
    ensures Uniform(CmpNe(a, b)) && Truth(CmpNe(a, b)) == Ne(a, b)
    ensures Uniform(CmpGt(a, b)) && Truth(CmpGt(a, b)) == Gt(a, b)
    ensures Uniform(CmpGe(a, b)) && Truth(CmpGe(a, b)) == Ge(a, b)
    ensures Uniform(CmpLt(a, b)) && Truth(CmpLt(a, b)) == Lt(a, b)
    ensures Uniform(CmpLe(a, b)) && Truth(CmpLe(a, b)) == Le(a, b)
  {
  }

  /** mask(index): lane `index` zero, the other three all ones. */
  function MaskFor(index: nat): Bits4
    requires index < 4
  {
    Bits4(LaneMask(index != 0), LaneMask(index != 1), LaneMask(index != 2), LaneMask(index != 3))
  }

  lemma MaskForAgrees(index: nat)
    requires index < 4
    ensures Uniform(MaskFor(index)) && Truth(MaskFor(index)) == GenericVecmath.MaskFor(index)
  {
  }

  /** The blend of select on one lane: other ^ (mask & (mine ^ other)), `mine` being this lane. */
  function Blend(mask: bv32, mine: bv32, other: bv32): bv32
  {
    other ^ (mask & (mine ^ other))
  }

  /** Bit by bit, the blend takes `this` where the mask bit is set and `other` elsewhere. */
  lemma BlendIsBitwiseChoice(mask: bv32, mine: bv32, other: bv32)
    ensures Blend(mask, mine, other) == (mask & mine) | (!mask & other)
  {
  }

  /** A uniform mask lane selects one whole encoding. */
  lemma BlendOfUniformLane(mask: bv32, mine: bv32, other: bv32)
    requires mask == 0 || mask == ALL_ONES
    ensures Blend(mask, mine, other) == if mask == ALL_ONES then mine else other
  {
    if mask == ALL_ONES {
      assert mask & (mine ^ other) == mine ^ other;
      assert other ^ (mine ^ other) == mine;
    } else {
      assert mask & (mine ^ other) == 0;
    }
  }

  /**
   * select on real lanes. A uniform mask picks one lane's whole encoding
   * (BlendIsBitwiseChoice), hence its value; a mask with mixed bits splices
   * two encodings, which has no real-valued reading, so it is excluded.
   */
  function Select(v: Vec4, mask: Bits4, other: Vec4): (r: Vec4)
    requires Uniform(mask)
    ensures r == GenericVecmath.Select(v, Truth(mask), other)
  {
    Vec4(if mask.x == ALL_ONES then v.x else other.x, if mask.y == ALL_ONES then v.y else other.y,
         if mask.z == ALL_ONES then v.z else other.z, if mask.w == ALL_ONES then v.w else other.w)
  }

  /** _mm_movemask_ps: bit i of the result is the sign bit of lane i. */
  function MoveMask(m: Bits4): (r: bv32)
    ensures r < 16
  {
    (m.x >> 31) | ((m.y >> 31) << 1) | ((m.z >> 31) << 2) | ((m.w >> 31) << 3)
  }

  predicate IsZero3f(m: Bits4)
  {
    MoveMask(m) & 0x07 == 0
  }

  predicate IsZero4f(m: Bits4)
  {
    MoveMask(m) == 0
  }

  /** On comparison results both backends' isZero agree. */
  lemma IsZeroAgrees(m: Bits4)
    requires Uniform(m)
    ensures IsZero3f(m) <==> GenericVecmath.IsZero3f(Truth(m))
    ensures IsZero4f(m) <==> GenericVecmath.IsZero4f(Truth(m))
  {
  }

  /** Off comparison results they differ: movemask reads sign bits only. */
  lemma IsZeroReadsSignBitsOnly()
    ensures IsZero4f(Bits4(1, 0, 0, 0)) && !GenericVecmath.IsZero4f(Truth(Bits4(1, 0, 0, 0)))
  {
  }

  // ---------------------------------------------------------------------
  // neg and abs on encodings
  // ---------------------------------------------------------------------

  /** neg: xor with -0.0 flips the sign bit. */
  function NegBits(bits: bv32): bv32
  {
    bits ^ 0x8000_0000
  }

  /** abs: and with 0x7FFFFFFF clears the sign bit. */
  function AbsBits(bits: bv32): bv32
  {
    bits & 0x7FFF_FFFF
  }

  lemma NegBitsFields(bits: bv32)
    ensures ExponentField(NegBits(bits)) == ExponentField(bits)
    ensures SignificandField(NegBits(bits)) == SignificandField(bits)
    ensures SignBit(NegBits(bits)) == 1 - SignBit(bits)
    ensures IsFinite(NegBits(bits)) <==> IsFinite(bits)
    ensures IsNaN(NegBits(bits)) <==> IsNaN(bits)
  {
  }

  lemma AbsBitsFields(bits: bv32)
    ensures ExponentField(AbsBits(bits)) == ExponentField(bits)
    ensures SignificandField(AbsBits(bits)) == SignificandField(bits)
    ensures SignBit(AbsBits(bits)) == 0
    ensures IsFinite(AbsBits(bits)) <==> IsFinite(bits)
    ensures IsNaN(AbsBits(bits)) <==> IsNaN(bits)
  {
  }

  /** On every finite encoding, neg denotes the negated value. */
  lemma NegValue(bits: bv32)
    requires IsFinite(bits)
    ensures IsFinite(NegBits(bits)) && Decode(NegBits(bits)) == -Decode(bits)
  {
    NegBitsFields(bits);
    var n := NegBits(bits);
    assert Magnitude(n) == Magnitude(bits);
    if SignBit(bits) == 0 {
      assert SignBit(n) == 1;
    } else {
      assert SignBit(n) == 0;
    }
  }

  /** On every finite encoding, abs denotes the absolute value. */
  lemma AbsValue(bits: bv32)
    requires IsFinite(bits)
    ensures IsFinite(AbsBits(bits)) && Decode(AbsBits(bits)) == Abs(Decode(bits))
  {
    AbsBitsFields(bits);
    assert Magnitude(AbsBits(bits)) == Magnitude(bits);
  }

  /** Lane-wise reading of neg and abs on real lanes. */
  lemma NegAbsAgree(v: Vec4)
    ensures Neg(v) == Mul(v, Load1f(-1.0))
    ensures AbsV(v) == Vec4(Abs(v.x), Abs(v.y), Abs(v.z), Abs(v.w))
  {
  }

  // ---------------------------------------------------------------------
  // Matrices
  // ---------------------------------------------------------------------

  lemma MulPair(a: real, a': real, e: real, e': real)
    requires a == a' && e == e'
    ensures a * e == e' * a'
  {
  }

  /** The lane-wise products createTransformMatrix forms, and its scale vector (s0, s1, s2, 1). */
  predicate SseProducts(q: Vec4, s: Vec4, ns: Vec4, rot2: Vec4, rs12: Vec4, rs22: Vec4, rs32: Vec4)
  {
    rot2.x == q.x + q.x && rot2.y == q.y + q.y && rot2.z == q.z + q.z &&
    rs12.x == q.x * rot2.x && rs12.y == q.y * rot2.y && rs12.z == q.z * rot2.z &&
    rs22.x == q.x * rot2.y && rs22.y == q.y * rot2.z && rs22.z == q.x * rot2.z &&
    rs32.x == q.w * rot2.x && rs32.y == q.w * rot2.y && rs32.z == q.w * rot2.z &&
    ns == Vec4(s.x, s.y, s.z, 1.0)
  }

  /** Selecting scaleVec under MASK_W against 1 keeps xyz and puts 1 in lane 3. */
  lemma NewScale(s: Vec4)
    ensures Select(s, MaskFor(3), Load1f(1.0)) == Vec4(s.x, s.y, s.z, 1.0)
  {
    assert MaskFor(3) == Bits4(ALL_ONES, ALL_ONES, ALL_ONES, 0);
  }

  lemma SseProductsHold(q: Vec4, s: Vec4)
    ensures var rot2 := Add(q, q);
      SseProducts(q, s, Select(s, MaskFor(3), Load1f(1.0)), rot2, Mul(q, rot2),
        Mul(Swizzle(q, 0, 1, 0, 3), Swizzle(rot2, 1, 2, 2, 3)), Mul(Replicate(q, 3), rot2))
  {
    NewScale(s);
    var rot2 := Add(q, q);
    assert Swizzle(q, 0, 1, 0, 3) == Vec4(q.x, q.y, q.x, q.w);
    assert Swizzle(rot2, 1, 2, 2, 3) == Vec4(rot2.y, rot2.z, rot2.z, rot2.w);
    assert Replicate(q, 3) == Vec4(q.w, q.w, q.w, q.w);
  }

  /** The lanes of a lane-wise product determine it. */
  lemma MulLanes(a: Vec4, b: Vec4, r: Vec4)
    requires a.x * b.x == r.x && a.y * b.y == r.y && a.z * b.z == r.z && a.w * b.w == r.w
    ensures Mul(a, b) == r
  {
  }

  /**
   * Row i of the rotation block as createTransformMatrix forms it from the
   * lane-wise products rs12 = q*2q, rs22 = q.xyx * 2q.yzz and
   * rs32 = w * 2q, times the scale, is row i of TransformMatrix.
   */
  lemma SseBlockRow0(t: Vec4, q: Vec4, s: Vec4, ns: Vec4, rot2: Vec4, rs12: Vec4, rs22: Vec4, rs32: Vec4, v: Vec4, r: Vec4)
    requires SseProducts(q, s, ns, rot2, rs12, rs22, rs32)
    requires TransformRow0(t, q, s, r)
    requires v == Vec4(1.0 - (rs12.y + rs12.z), rs22.x - rs32.z, rs22.z + rs32.y, t.x)
    ensures Mul(ns, v) == r
  {
    MulSubst(rot2.y, q.y + q.y, q.y);
    MulSubst(rot2.z, q.z + q.z, q.z);
    MulSubst(rot2.y, q.y + q.y, q.x);
    MulSubst(rot2.z, q.z + q.z, q.x);
    MulSubst(rot2.z, q.z + q.z, q.w);
    MulSubst(rot2.y, q.y + q.y, q.w);
    MulPair(ns.x, s.x, v.x, 1.0 - (q.y * (q.y + q.y) + q.z * (q.z + q.z)));
    MulPair(ns.y, s.y, v.y, q.x * (q.y + q.y) - q.w * (q.z + q.z));
    MulPair(ns.z, s.z, v.z, q.x * (q.z + q.z) + q.w * (q.y + q.y));
    MulPair(ns.w, 1.0, v.w, t.x);
    MulLanes(ns, v, r);
  }

  lemma SseBlockRow1(t: Vec4, q: Vec4, s: Vec4, ns: Vec4, rot2: Vec4, rs12: Vec4, rs22: Vec4, rs32: Vec4, v: Vec4, r: Vec4)
    requires SseProducts(q, s, ns, rot2, rs12, rs22, rs32)
    requires TransformRow1(t, q, s, r)
    requires v == Vec4(rs22.x + rs32.z, 1.0 - (rs12.x + rs12.z), rs22.y - rs32.x, t.y)
    ensures Mul(ns, v) == r
  {
    MulSubst(rot2.y, q.y + q.y, q.x);
    MulSubst(rot2.z, q.z + q.z, q.w);
    MulSubst(rot2.x, q.x + q.x, q.x);
    MulSubst(rot2.z, q.z + q.z, q.z);
    MulSubst(rot2.z, q.z + q.z, q.y);
    MulSubst(rot2.x, q.x + q.x, q.w);
    MulPair(ns.x, s.x, v.x, q.x * (q.y + q.y) + q.w * (q.z + q.z));
    MulPair(ns.y, s.y, v.y, 1.0 - (q.x * (q.x + q.x) + q.z * (q.z + q.z)));
    MulPair(ns.z, s.z, v.z, q.y * (q.z + q.z) - q.w * (q.x + q.x));
    MulPair(ns.w, 1.0, v.w, t.y);
    MulLanes(ns, v, r);
  }

  lemma SseBlockRow2(t: Vec4, q: Vec4, s: Vec4, ns: Vec4, rot2: Vec4, rs12: Vec4, rs22: Vec4, rs32: Vec4, v: Vec4, r: Vec4)
    requires SseProducts(q, s, ns, rot2, rs12, rs22, rs32)
    requires TransformRow2(t, q, s, r)
    requires v == Vec4(rs22.z - rs32.y, rs22.y + rs32.x, 1.0 - (rs12.x + rs12.y), t.z)
    ensures Mul(ns, v) == r
  {
    MulSubst(rot2.z, q.z + q.z, q.x);
    MulSubst(rot2.y, q.y + q.y, q.w);
    MulSubst(rot2.z, q.z + q.z, q.y);
    MulSubst(rot2.x, q.x + q.x, q.w);
    MulSubst(rot2.x, q.x + q.x, q.x);
    MulSubst(rot2.y, q.y + q.y, q.y);
    MulPair(ns.x, s.x, v.x, q.x * (q.z + q.z) - q.w * (q.y + q.y));
    MulPair(ns.y, s.y, v.y, q.y * (q.z + q.z) + q.w * (q.x + q.x));
    MulPair(ns.z, s.z, v.z, 1.0 - (q.x * (q.x + q.x) + q.y * (q.y + q.y)));
    MulPair(ns.w, 1.0, v.w, t.z);
    MulLanes(ns, v, r);
  }

  /** The three row vectors createTransformMatrix scales, before the scale is applied. */
  predicate RowVectors(t: Vec4, rs12: Vec4, rs22: Vec4, rs32: Vec4, v0: Vec4, v1: Vec4, v2: Vec4)
  {
    v0 == Vec4(1.0 - (rs12.y + rs12.z), rs22.x - rs32.z, rs22.z + rs32.y, t.x) &&
    v1 == Vec4(rs22.x + rs32.z, 1.0 - (rs12.x + rs12.z), rs22.y - rs32.x, t.y) &&
    v2 == Vec4(rs22.z - rs32.y, rs22.y + rs32.x, 1.0 - (rs12.x + rs12.y), t.z)
  }

  /** The three rows createTransformMatrix forms are the first three rows of m. */
  lemma SseRows(t: Vec4, q: Vec4, s: Vec4, ns: Vec4, rot2: Vec4, rs12: Vec4, rs22: Vec4, rs32: Vec4,
                v0: Vec4, v1: Vec4, v2: Vec4, m: Mat4)
    requires SseProducts(q, s, ns, rot2, rs12, rs22, rs32)
    requires RowVectors(t, rs12, rs22, rs32, v0, v1, v2)
    requires TransformRow0(t, q, s, m[0]) && TransformRow1(t, q, s, m[1]) && TransformRow2(t, q, s, m[2])
    ensures Mul(ns, v0) == m[0] && Mul(ns, v1) == m[1] && Mul(ns, v2) == m[2]
  {
    SseBlockRow0(t, q, s, ns, rot2, rs12, rs22, rs32, v0, m[0]);
    SseBlockRow1(t, q, s, ns, rot2, rs12, rs22, rs32, v1, m[1]);
    SseBlockRow2(t, q, s, ns, rot2, rs12, rs22, rs32, v2, m[2]);
  }

  /**
   * createTransformMatrix: the rotation terms come from three lane-wise
   * products, and each row is multiplied by newScale = (s0, s1, s2, 1),
   * which is scaleVec selected with MASK_W against 1.
   */
  method CreateTransformMatrix(dest: array<Vec4>, translation: Vec4, quatRotation: Vec4, scaleVec: Vec4)
    requires dest.Length == 4
    modifies dest
    ensures dest[..] == TransformMatrix(translation, quatRotation, scaleVec)
  {
    var q := quatRotation;
    var rot2 := Add(q, q);
    var rs12 := Mul(q, rot2);
    var rs22 := Mul(Swizzle(q, 0, 1, 0, 3), Swizzle(rot2, 1, 2, 2, 3));
    var rs32 := Mul(Replicate(q, 3), rot2);
    var xx2, yy2, zz2 := rs12.x, rs12.y, rs12.z;
    var xy2, yz2, xz2 := rs22.x, rs22.y, rs22.z;
    var xw2, yw2, zw2 := rs32.x, rs32.y, rs32.z;
    var newScale := Select(scaleVec, MaskFor(3), Load1f(1.0));
    var v0 := Vec4(1.0 - (yy2 + zz2), xy2 - zw2, xz2 + yw2, translation.x);
    var v1 := Vec4(xy2 + zw2, 1.0 - (xx2 + zz2), yz2 - xw2, translation.y);
    var v2 := Vec4(xz2 - yw2, yz2 + xw2, 1.0 - (xx2 + yy2), translation.z);
    var row0, row1, row2 := Mul(newScale, v0), Mul(newScale, v1), Mul(newScale, v2);
    var row3 := Vec4(0.0, 0.0, 0.0, 1.0);
    var tm := TransformMatrix(translation, quatRotation, scaleVec);
    SseProductsHold(q, scaleVec);
    TransformMatrixRows(translation, quatRotation, scaleVec);
    SseRows(translation, q, scaleVec, newScale, rot2, rs12, rs22, rs32, v0, v1, v2, tm);
    assert [row0, row1, row2, row3] == tm;
    dest[0], dest[1], dest[2], dest[3] := row0, row1, row2, row3;
    assert dest[..] == [row0, row1, row2, row3];
  }
}
