/**
 * Scalar helpers of the portable math layer: integer logarithms, rounding,
 * selection, clamping and the binary32 classification predicates.
 *
 * Floats are modelled as exact reals.  The C library's transcendental
 * functions are parameters: they are gathered in `Libm`, a value
 * of function type that callers pass in, and nothing is assumed about them
 * except where a lemma says so explicitly.
 */
module GenericMath {

  /** The transcendental functions the library forwards to libm. */
  datatype Libm = Libm(
    sqrt: real -> real,
    acos: real -> real,
    sin: real -> real,
    cos: real -> real,
    tan: real -> real,
    pow: (real, real) -> real)

  /** The ideal square root on non-negative inputs; used only by lemmas that say so. */
  ghost predicate SqrtIsExact(lm: Libm)
  {
    forall x: real {:trigger lm.sqrt(x)} :: 0.0 <= x ==> 0.0 <= lm.sqrt(x) && lm.sqrt(x) * lm.sqrt(x) == x
  }

  // ---------------------------------------------------------------------
  // Rounding (float -> integer conversions, without the int32 range limit)
  // ---------------------------------------------------------------------

  /** C's `(int32)val`: truncation toward zero. */
  function TruncToInt(val: real): (r: int)
    ensures 0.0 <= val ==> r as real <= val < r as real + 1.0
    ensures val < 0.0 ==> r as real - 1.0 < val <= r as real
  {
    if 0.0 <= val then val.Floor else -((-val).Floor)
  }

  function TruncToFloat(val: real): (r: real)
    ensures r == TruncToInt(val) as real
  {
    TruncToInt(val) as real
  }

  lemma TruncOfInteger(k: int)
    ensures TruncToInt(k as real) == k
  {
    if 0 <= k {
      assert (k as real).Floor == k;
    } else {
      assert (-(k as real)).Floor == -k;
    }
  }

  function FloorToInt(val: real): (r: int)
    ensures r as real <= val < r as real + 1.0
  {
    TruncOfInteger(val.Floor);
    TruncToInt(val.Floor as real)
  }

  function CeilToInt(val: real): (r: int)
    ensures r as real - 1.0 < val <= r as real
  {
    TruncOfInteger(-((-val).Floor));
    TruncToInt((-((-val).Floor)) as real)
  }

  /** Rounds by taking the ceiling of val - 0.5. */
  function RoundToInt(val: real): (r: int)
  {
    CeilToInt(val - 0.5)
  }

  function RoundToFloat(val: real): (r: real)
    ensures r == RoundToInt(val) as real
  {
    (-((-(val - 0.5)).Floor)) as real
  }

  /** val minus its truncation. */
  function Fractional(val: real): (r: real)
  {
    val - TruncToFloat(val)
  }

  /** RoundToInt picks the nearest integer, and an exact half goes to the lower one. */
  lemma RoundToIntNearest(val: real)
    ensures val - RoundToInt(val) as real <= 0.5
    ensures RoundToInt(val) as real - val < 0.5
  {
  }

  /** An exact half k + 0.5 rounds down to k. */
  lemma RoundHalfDown(k: int)
    ensures RoundToInt(k as real + 0.5) == k
  {
  }

  lemma RoundHalfExamples()
    ensures RoundToInt(2.5) == 2 && RoundToInt(-2.5) == -3 && RoundToInt(2.6) == 3
  {
  }

  /** The fractional part lies strictly between -1 and 1 and has the sign of val. */
  lemma FractionalBounds(val: real)
    ensures -1.0 < Fractional(val) < 1.0
    ensures 0.0 <= val ==> 0.0 <= Fractional(val)
    ensures val <= 0.0 ==> Fractional(val) <= 0.0
    ensures (val - Fractional(val)).Floor as real == val - Fractional(val)
  {
  }

  // ---------------------------------------------------------------------
  // Reciprocals and the square-root family
  // ---------------------------------------------------------------------

  function Reciprocal(val: real): (r: real)
    requires val != 0.0
    ensures r * val == 1.0
  {
    1.0 / val
  }

  /** reciprocal(sqrt(val)). */
  function Rsqrt(lm: Libm, val: real): (r: real)
    requires lm.sqrt(val) != 0.0
    ensures r * lm.sqrt(val) == 1.0
  {
    Reciprocal(lm.sqrt(val))
  }

  lemma RsqrtLaw(lm: Libm, val: real)
    requires SqrtIsExact(lm)
    requires 0.0 < val
    ensures lm.sqrt(val) != 0.0
    ensures Rsqrt(lm, val) * Rsqrt(lm, val) * val == 1.0
  {
    var s := lm.sqrt(val);
    assert s * s == val;
    var r := Rsqrt(lm, val);
    assert r * s == 1.0;
    calc {
      r * r * val;
      == r * r * (s * s);
      == (r * s) * (r * s);
      == 1.0;
    }
  }

  // ---------------------------------------------------------------------
  // Integer logarithms on uint32
  // ---------------------------------------------------------------------

  /** Position of the highest set bit, by five conditional shifts; 0 for 0. */
  method FloorLog2(v: bv32) returns (r: bv32)
    ensures v == 0 ==> r == 0
    ensures v != 0 ==> r < 32 && (1 as bv32 << r) <= v
    ensures v != 0 && r < 31 ==> v < (1 as bv32 << (r + 1))
  {
    var val := v;
    var pos: bv32 := 0;
    if val >= 1 << 16 { val := val >> 16; pos := pos + 16; }
    if val >= 1 << 8 { val := val >> 8; pos := pos + 8; }
    if val >= 1 << 4 { val := val >> 4; pos := pos + 4; }
    if val >= 1 << 2 { val := val >> 2; pos := pos + 2; }
    if val >= 1 << 1 { pos := pos + 1; }
    r := if val == 0 then 0 else pos;
  }

  /** 32 for zero, otherwise 31 - floorLog2(v): the number of zero bits above the top set bit. */
  method GetNumLeadingZeroes(v: bv32) returns (r: bv32)
    ensures v == 0 ==> r == 32
    ensures v != 0 ==> r < 32 && v >> (31 - r) == 1
  {
    if v == 0 {
      return 32;
    }
    var f := FloorLog2(v);
    r := 31 - f;
  }

  /** 0 for v <= 1, otherwise floorLog2(v - 1) + 1: the least c with v <= 2^c. */
  method CeilLog2(v: bv32) returns (r: bv32)
    ensures v <= 1 ==> r == 0
    ensures 1 < v ==> 1 <= r <= 32
    ensures 1 < v && r < 32 ==> v <= (1 as bv32 << r)
    ensures 1 < v && r == 32 ==> (1 as bv32 << 31) < v
    ensures 1 < v ==> (1 as bv32 << (r - 1)) < v
  {
    if v <= 1 {
      return 0;
    }
    var f := FloorLog2(v - 1);
    r := f + 1;
  }

  /**
   * 1 << ceilLog2(v).  The shift is on a 32-bit int, so it is defined only
   * while ceilLog2(v) <= 31, i.e. v <= 2^31.
   */
  method RoundUpToNextPowerOf2(v: bv32) returns (r: bv32)
    requires v <= 1 << 31
    ensures r != 0 && r & (r - 1) == 0
    ensures v <= r
    ensures 1 < v ==> r / 2 < v
  {
    var c := CeilLog2(v);
    r := 1 << c;
  }

  // ---------------------------------------------------------------------
  // Selection, min/max, clamp
  // ---------------------------------------------------------------------

  function Select(cmp: real, ifNonNegative: real, ifNegative: real): (r: real)
    ensures 0.0 <= cmp ==> r == ifNonNegative
    ensures cmp < 0.0 ==> r == ifNegative
  {
    if cmp >= 0.0 then ifNonNegative else ifNegative
  }

  function Abs(val: real): (r: real)
    ensures 0.0 <= r && (r == val || r == -val)
  {
    if val >= 0.0 then val else -val
  }

  function Min(v1: real, v2: real): (r: real)
    ensures r <= v1 && r <= v2 && (r == v1 || r == v2)
  {
    if v1 <= v2 then v1 else v2
  }

  function Max(v1: real, v2: real): (r: real)
    ensures v1 <= r && v2 <= r && (r == v1 || r == v2)
  {
    if v1 >= v2 then v1 else v2
  }

  function Min3(v1: real, v2: real, v3: real): (r: real)
    ensures r <= v1 && r <= v2 && r <= v3
    ensures r == v1 || r == v2 || r == v3
  {
    Min(Min(v1, v2), v3)
  }

  function Max3(v1: real, v2: real, v3: real): (r: real)
    ensures v1 <= r && v2 <= r && v3 <= r
    ensures r == v1 || r == v2 || r == v3
  {
    Max(Max(v1, v2), v3)
  }

  function Mad(v1: real, v2: real, v3: real): real
  {
    v1 * v2 + v3
  }

  /** val1 * (1 - amt) + val2 * amt. */
  function Lerp(v1: real, v2: real, amt: real): (r: real)
    ensures r == v1 + (v2 - v1) * amt
    ensures amt == 0.0 ==> r == v1
    ensures amt == 1.0 ==> r == v2
    ensures v1 == v2 ==> r == v1
  {
    v1 * (1.0 - amt) + v2 * amt
  }

  /** Above max gives max, above min gives val, anything else gives min. */
  function Clamp(val: real, lo: real, hi: real): (r: real)
    ensures lo <= hi ==> lo <= r <= hi
    ensures lo <= hi ==> r == Max(lo, Min(val, hi))
    ensures lo < val <= hi ==> r == val
    ensures hi < val ==> r == hi
    ensures val <= lo && val <= hi ==> r == lo
  {
    if val > hi then hi
    else if val > lo then val
    else lo
  }

  function Saturate(val: real): (r: real)
    ensures 0.0 <= r <= 1.0
    ensures 0.0 <= val <= 1.0 ==> r == val
  {
    Clamp(val, 0.0, 1.0)
  }

  /** Strict: |v1 - v2| < margin. */
  predicate Equals(v1: real, v2: real, margin: real)
  {
    Abs(v1 - v2) < margin
  }

  lemma EqualsMeaning(v1: real, v2: real, margin: real)
    ensures Equals(v1, v2, margin) <==> v1 - margin < v2 < v1 + margin
    ensures Equals(v1, v2, margin) == Equals(v2, v1, margin)
    ensures !Equals(v1, v1, 0.0)
  {
  }

  // ---------------------------------------------------------------------
  // binary32 classification (IEEE 754-2008 section 3.4)
  // ---------------------------------------------------------------------

  /** Biased exponent field E of a binary32 encoding. */
  function ExponentField(bits: bv32): bv32
  {
    (bits >> 23) & 0xFF
  }

  /** Trailing significand field T of a binary32 encoding. */
  function SignificandField(bits: bv32): bv32
  {
    bits & 0x7F_FFFF
  }

  /** Magnitude bits above the infinity pattern. */
  predicate IsNaN(bits: bv32)
  {
    (bits & 0x7FFF_FFFF) > 0x7F80_0000
  }

  /** Exponent field not all ones. */
  predicate IsFinite(bits: bv32)
  {
    (bits & 0x7F80_0000) != 0x7F80_0000
  }

  /** Both predicates agree with the field-level classification of the standard. */
  lemma ClassificationMatchesFields(bits: bv32)
    ensures IsNaN(bits) <==> ExponentField(bits) == 0xFF && SignificandField(bits) != 0
    ensures IsFinite(bits) <==> ExponentField(bits) != 0xFF
  {
  }

  lemma NaNIsNotFinite(bits: bv32)
    ensures IsNaN(bits) ==> !IsFinite(bits)
  {
    ClassificationMatchesFields(bits);
  }

  lemma InfinitiesAreNeitherNaNNorFinite()
    ensures !IsNaN(0x7F80_0000) && !IsFinite(0x7F80_0000)
    ensures !IsNaN(0xFF80_0000) && !IsFinite(0xFF80_0000)
    ensures IsFinite(0) && IsFinite(0x8000_0000) && IsFinite(0x3F80_0000)
    ensures IsNaN(0x7FC0_0000)
  {
  }

  // Values of finite binary32 encodings (IEEE 754-2008 section 3.4):
  // (-1)^S * 2^(E - 127) * (1 + T / 2^23) for a biased exponent E in 1..254,
  // and (-1)^S * 2^-126 * (T / 2^23) for E = 0.

  /** Sign bit S of a binary32 encoding. */
  function SignBit(bits: bv32): bv32
  {
    bits >> 31
  }

  /** 2^n for any integer n. */
  function Pow2(n: int): (r: real)
    ensures r > 0.0
    decreases if n < 0 then -n else n
  {
    if n == 0 then 1.0 else if n > 0 then 2.0 * Pow2(n - 1) else Pow2(n + 1) / 2.0
  }

  /** The magnitude denoted by a biased exponent E < 255 and a trailing significand T. */
  function FieldMagnitude(e: bv32, t: bv32): (r: real)
    ensures r >= 0.0
  {
    var f := t as real / 8388608.0;
    // subnormals (E == 0) have scale 2^-126 and no implicit leading one
    var scale := Pow2(if e == 0 then -126 else e as int - 127);
    var significand := if e == 0 then f else 1.0 + f;
    MulNonneg(scale, significand);
    scale * significand
  }

  lemma MulNonneg(a: real, b: real)
    requires a >= 0.0 && b >= 0.0
    ensures a * b >= 0.0
  {
  }

  /** The magnitude a finite encoding denotes; it depends only on E and T. */
  function Magnitude(bits: bv32): (r: real)
    requires IsFinite(bits)
    ensures r >= 0.0
  {
    FieldMagnitude(ExponentField(bits), SignificandField(bits))
  }

  /** The real number a finite binary32 encoding denotes (both zeros denote 0). */
  function Decode(bits: bv32): (r: real)
    requires IsFinite(bits)
    ensures Abs(r) == Magnitude(bits)
    ensures SignBit(bits) == 0 ==> r == Magnitude(bits)
  {
    if SignBit(bits) == 1 then -Magnitude(bits) else Magnitude(bits)
  }

  lemma DecodeExamples()
    ensures Decode(0x3F80_0000) == 1.0 && Decode(0xBF80_0000) == -1.0
    ensures Decode(0x4000_0000) == 2.0 && Decode(0x3F00_0000) == 0.5
    ensures Decode(0) == 0.0 && Decode(0x8000_0000) == 0.0
  {
    assert Pow2(1) == 2.0;
    assert Pow2(-1) == 0.5;
  }
}
