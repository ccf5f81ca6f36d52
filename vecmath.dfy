/**
 * The platform vector type the value types are built on, the shared vector
 * constants and the vector specialisation of `Math::lerp`.
 *
 * The value types use the portable backend's `Vec4`; the SSE backend is
 * proved lane-for-lane equal to it in module SseVecmath.
 */
module Vecmath {
  import GenericMath
  import opened GenericVecmath
  import SseVecmath

  const ZERO: Vec4 := Load1f(0.0)
  const ONE: Vec4 := Load1f(1.0)
  const TWO: Vec4 := Load1f(2.0)
  const HALF: Vec4 := Load1f(0.5)

  /** MASK_X..MASK_W as the portable backend reads them: the named lane clear, the rest set. */
  const MASK_X: Mask4 := Mask4(false, true, true, true)
  const MASK_Y: Mask4 := Mask4(true, false, true, true)
  const MASK_Z: Mask4 := Mask4(true, true, false, true)
  const MASK_W: Mask4 := Mask4(true, true, true, false)

  /** The same four constants as 32-bit lane patterns. */
  const SSE_MASK_X: SseVecmath.Bits4 := SseVecmath.Bits4(0, SseVecmath.ALL_ONES, SseVecmath.ALL_ONES, SseVecmath.ALL_ONES)
  const SSE_MASK_Y: SseVecmath.Bits4 := SseVecmath.Bits4(SseVecmath.ALL_ONES, 0, SseVecmath.ALL_ONES, SseVecmath.ALL_ONES)
  const SSE_MASK_Z: SseVecmath.Bits4 := SseVecmath.Bits4(SseVecmath.ALL_ONES, SseVecmath.ALL_ONES, 0, SseVecmath.ALL_ONES)
  const SSE_MASK_W: SseVecmath.Bits4 := SseVecmath.Bits4(SseVecmath.ALL_ONES, SseVecmath.ALL_ONES, SseVecmath.ALL_ONES, 0)

  /** SIGN_MASK: every bit but the sign bit. */
  const SIGN_MASK: bv32 := 0x7FFF_FFFF

  /** MASK_X, MASK_Y, MASK_Z, MASK_W by lane number. */
  function MaskConstant(index: nat): Mask4
    requires index < 4
  {
    match index
    case 0 => MASK_X
    case 1 => MASK_Y
    case 2 => MASK_Z
    case 3 => MASK_W
  }

  function SseMaskConstant(index: nat): SseVecmath.Bits4
    requires index < 4
  {
    match index
    case 0 => SSE_MASK_X
    case 1 => SSE_MASK_Y
    case 2 => SSE_MASK_Z
    case 3 => SSE_MASK_W
  }

  lemma ConstantsBroadcast()
    ensures forall i | 0 <= i < 4 ::
      Lane(ZERO, i) == 0.0 && Lane(ONE, i) == 1.0 && Lane(TWO, i) == 2.0 && Lane(HALF, i) == 0.5
  {
  }

  /**
   * The named lane of each mask constant is clear and the other three set,
   * and each constant is what `Vector::mask(index)` returns in either backend.
   */
  lemma MaskConstantsAgree(index: nat)
    requires index < 4
    ensures forall i | 0 <= i < 4 :: MaskLane(MaskConstant(index), i) <==> i != index
    ensures MaskConstant(index) == GenericVecmath.MaskFor(index)
    ensures SseMaskConstant(index) == SseVecmath.MaskFor(index)
    ensures SseVecmath.Uniform(SseMaskConstant(index))
    ensures SseVecmath.Truth(SseMaskConstant(index)) == MaskConstant(index)
  {
    SseVecmath.MaskForAgrees(index);
  }

  /** Selecting against MASK_W keeps the receiver's xyz and takes lane 3 from the other vector. */
  lemma SelectMaskW(v: Vec4, u: Vec4)
    ensures Select(v, MASK_W, u) == Vec4(v.x, v.y, v.z, u.w)
  {
  }

  /** `Math::lerp<Vector>`: (val2 - val1) * amt + val1, lane by lane. */
  function LerpV(a: Vec4, b: Vec4, amt: real): (r: Vec4)
    ensures r.x == GenericMath.Lerp(a.x, b.x, amt) && r.y == GenericMath.Lerp(a.y, b.y, amt)
    ensures r.z == GenericMath.Lerp(a.z, b.z, amt) && r.w == GenericMath.Lerp(a.w, b.w, amt)
  {
    Add(Mul(Sub(b, a), Load1f(amt)), a)
  }

  lemma LerpVEndpoints(a: Vec4, b: Vec4)
    ensures LerpV(a, b, 0.0) == a
    ensures LerpV(a, b, 1.0) == b
  {
  }

  lemma LerpVOfEqualEnds(a: Vec4, amt: real)
    ensures LerpV(a, a, amt) == a
  {
  }

  /** Lane i of the result depends on lane i of the two ends only. */
  lemma LerpVLaneLocal(a: Vec4, b: Vec4, a': Vec4, b': Vec4, amt: real, i: nat)
    requires i < 4
    requires Lane(a, i) == Lane(a', i) && Lane(b, i) == Lane(b', i)
    ensures Lane(LerpV(a, b, amt), i) == Lane(LerpV(a', b', amt), i)
  {
  }
}
