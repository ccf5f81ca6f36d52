/**
 * Color (color.hpp / color.cpp): an RGBA value held in one vector, red in
 * lane 0 and alpha in lane 3.  The arithmetic operators work on all four
 * lanes; negation and the three adjustments leave alpha alone.
 */
module Colors {
  import GenericMath
  import opened GenericVecmath
  import opened Vecmath

  datatype Color = Color(data: Vec4)

  /** Color(r, g, b, a); alpha defaults to 1. */
  function Make(r: real, g: real, b: real, a: real := 1.0): (c: Color)
    ensures Get(c, 0) == r && Get(c, 1) == g && Get(c, 2) == b && Get(c, 3) == a
  {
    Color(Vec4(r, g, b, a))
  }

  /** operator[]. */
  function Get(c: Color, index: nat): real
    requires index < 4
  {
    Lane(c.data, index)
  }

  // ---------------------------------------------------------------------
  // The named colors
  // ---------------------------------------------------------------------

  const WHITE: Color := Color(Vec4(1.0, 1.0, 1.0, 1.0))
  const BLACK: Color := Color(Vec4(0.0, 0.0, 0.0, 1.0))
  const RED: Color := Color(Vec4(1.0, 0.0, 0.0, 1.0))
  const GREEN: Color := Color(Vec4(0.0, 1.0, 0.0, 1.0))
  const BLUE: Color := Color(Vec4(0.0, 0.0, 1.0, 1.0))
  const CYAN: Color := Color(Vec4(0.0, 1.0, 1.0, 1.0))
  const YELLOW: Color := Color(Vec4(1.0, 1.0, 0.0, 1.0))
  const MAGENTA: Color := Color(Vec4(1.0, 0.0, 1.0, 1.0))
  const TRANSPARENT: Color := Color(Vec4(0.0, 0.0, 0.0, 0.0))

  /** The luminance weights of red, green and blue; alpha weighs nothing. */
  const LUMINANCE_VECTOR: Vec4 := Vec4(0.2125, 0.7154, 0.0721, 0.0)

  /** The default margin of `equals`. */
  const DEFAULT_MARGIN: real := 0.0001

  /** Every named color but TRANSPARENT is opaque, and TRANSPARENT is all zero. */
  lemma NamedColorsOpaque()
    ensures forall c | c in {WHITE, BLACK, RED, GREEN, BLUE, CYAN, YELLOW, MAGENTA} :: Get(c, 3) == 1.0
    ensures forall i | 0 <= i < 4 :: Get(TRANSPARENT, i) == 0.0
  {
  }

  /** The secondary colors are sums of two primaries. */
  lemma SecondaryColors()
    ensures Plus(GREEN, BLUE).data == CYAN.data.(w := 2.0)
    ensures Plus(RED, GREEN).data == YELLOW.data.(w := 2.0)
    ensures Plus(RED, BLUE).data == MAGENTA.data.(w := 2.0)
  {
    PlusLanes(GREEN, BLUE);
    PlusLanes(RED, GREEN);
    PlusLanes(RED, BLUE);
  }

  // ---------------------------------------------------------------------
  // Arithmetic, every lane
  // ---------------------------------------------------------------------

  function Plus(a: Color, b: Color): (r: Color)
    ensures Minus(r, b) == a
    ensures forall i | 0 <= i < 4 :: Get(r, i) == Get(a, i) + Get(b, i)
  {
    Color(Add(a.data, b.data))
  }

  /** operator+ on the record fields. */
  lemma PlusLanes(a: Color, b: Color)
    ensures Plus(a, b).data == Vec4(a.data.x + b.data.x, a.data.y + b.data.y, a.data.z + b.data.z, a.data.w + b.data.w)
  {
  }

  function Minus(a: Color, b: Color): (r: Color)
    ensures forall i | 0 <= i < 4 :: Get(r, i) == Get(a, i) - Get(b, i)
  {
    Color(Sub(a.data, b.data))
  }

  function Times(a: Color, b: Color): (r: Color)
    ensures forall i | 0 <= i < 4 :: Get(r, i) == Get(a, i) * Get(b, i)
  {
    Color(Mul(a.data, b.data))
  }

  /** operator/: every lane of b, alpha included, must be nonzero. */
  function Quotient(a: Color, b: Color): (r: Color)
    requires NoZeroLane(b.data)
    ensures Times(r, b) == a
  {
    Color(Div(a.data, b.data))
  }

  /** operator- (unary): each of red, green and blue becomes 1 minus itself; alpha stays. */
  function Negated(c: Color): (r: Color)
    ensures forall i | 0 <= i < 3 :: Get(r, i) == 1.0 - Get(c, i)
    ensures Get(r, 3) == Get(c, 3)
  {
    SelectMaskW(Sub(ONE, c.data), c.data);
    Color(Select(Sub(ONE, c.data), MASK_W, c.data))
  }

  /** Negating twice gives the color back. */
  lemma NegatedTwice(c: Color)
    ensures Negated(Negated(c)) == c
  {
    var n := Negated(Negated(c));
    assert Get(n, 0) == Get(c, 0) && Get(n, 1) == Get(c, 1) && Get(n, 2) == Get(c, 2) && Get(n, 3) == Get(c, 3);
  }

  /** Negation swaps black and white and keeps alpha, so transparent black becomes transparent white. */
  lemma NegatedGreys()
    ensures Negated(BLACK) == WHITE && Negated(WHITE) == BLACK
    ensures Negated(TRANSPARENT) == Make(1.0, 1.0, 1.0, 0.0)
  {
    NegatedFields(BLACK);
    NegatedFields(WHITE);
    NegatedFields(TRANSPARENT);
  }

  /** Negation maps each primary to the secondary opposite it. */
  lemma NegatedPrimaries()
    ensures Negated(RED) == CYAN && Negated(GREEN) == MAGENTA && Negated(BLUE) == YELLOW
  {
    NegatedFields(RED);
    NegatedFields(GREEN);
    NegatedFields(BLUE);
  }

  lemma NegatedFields(c: Color)
    ensures Negated(c).data == Vec4(1.0 - c.data.x, 1.0 - c.data.y, 1.0 - c.data.z, c.data.w)
  {
    SelectMaskW(Sub(ONE, c.data), c.data);
  }

  // ---------------------------------------------------------------------
  // Comparison
  // ---------------------------------------------------------------------

  /** operator==: no lane differs. */
  function Equal(a: Color, b: Color): (r: bool)
    ensures r <==> a == b
  {
    ComparisonMasks(a.data, b.data);
    IsZero4f(Ne(a.data, b.data))
  }

  /** operator!=: true only when every one of the four lanes differs. */
  function NotEqual(a: Color, b: Color): (r: bool)
    ensures r <==> forall i | 0 <= i < 4 :: Get(a, i) != Get(b, i)
  {
    assert Get(a, 0) == a.data.x && Get(a, 1) == a.data.y && Get(a, 2) == a.data.z && Get(a, 3) == a.data.w;
    assert Get(b, 0) == b.data.x && Get(b, 1) == b.data.y && Get(b, 2) == b.data.z && Get(b, 3) == b.data.w;
    ComparisonMasks(a.data, b.data);
    IsZero4f(Eq(a.data, b.data))
  }

  /** A color that differs from another in only some lanes is neither == nor != to it. */
  lemma NotEqualIsNotNegation()
    ensures !Equal(BLACK, TRANSPARENT) && !NotEqual(BLACK, TRANSPARENT)
    ensures forall a: Color, b: Color :: Equal(a, b) ==> !NotEqual(a, b)
  {
    assert Get(BLACK, 3) == Get(TRANSPARENT, 3) + 1.0;
    assert Get(BLACK, 0) == Get(TRANSPARENT, 0);
    forall a: Color, b: Color | Equal(a, b)
      ensures !NotEqual(a, b)
    {
      assert Get(a, 0) == Get(b, 0);
    }
  }

  /** Every lane of a within margin of the same lane of b. */
  predicate Near(a: Color, b: Color, margin: real)
  {
    forall i | 0 <= i < 4 :: GenericMath.Abs(Get(a, i) - Get(b, i)) < margin
  }

  /** equals(other, margin): no lane of |a - b| reaches margin. */
  function ApproxEquals(a: Color, b: Color, margin: real := DEFAULT_MARGIN): (r: bool)
    ensures r <==> Near(a, b, margin)
  {
    NearMask(a, b, margin);
    IsZero4f(NotEqualsMask(a.data, b.data, margin))
  }

  /** No lane of |a - b| >= margin exactly when all four lanes are within margin. */
  lemma NearMask(a: Color, b: Color, margin: real)
    ensures IsZero4f(NotEqualsMask(a.data, b.data, margin)) <==> Near(a, b, margin)
  {
    assert Get(a, 0) == a.data.x && Get(a, 1) == a.data.y && Get(a, 2) == a.data.z && Get(a, 3) == a.data.w;
    assert Get(b, 0) == b.data.x && Get(b, 1) == b.data.y && Get(b, 2) == b.data.z && Get(b, 3) == b.data.w;
  }

  /** Near is reflexive for a positive margin and symmetric. */
  lemma ApproxEqualsReflexiveSymmetric(a: Color, b: Color, margin: real)
    ensures 0.0 < margin ==> ApproxEquals(a, a, margin)
    ensures ApproxEquals(a, b, margin) <==> ApproxEquals(b, a, margin)
  {
    forall i | 0 <= i < 4
      ensures GenericMath.Abs(Get(a, i) - Get(b, i)) == GenericMath.Abs(Get(b, i) - Get(a, i))
    {
    }
  }

  // ---------------------------------------------------------------------
  // Luminance and the adjustments
  // ---------------------------------------------------------------------

  /** getLuminance: the weighted sum of red, green and blue. */
  function Luminance(c: Color): (l: real)
    ensures l == 0.2125 * Get(c, 0) + 0.7154 * Get(c, 1) + 0.0721 * Get(c, 2)
  {
    Lane(Dot4(LUMINANCE_VECTOR, c.data), 0)
  }

  /** The weights sum to 1: white is 1, black and transparent 0. */
  lemma LuminanceOfGreys()
    ensures Luminance(WHITE) == 1.0 && Luminance(BLACK) == 0.0 && Luminance(TRANSPARENT) == 0.0
  {
    assert Get(WHITE, 0) == 1.0 && Get(WHITE, 1) == 1.0 && Get(WHITE, 2) == 1.0;
    assert Get(BLACK, 0) == 0.0 && Get(BLACK, 1) == 0.0 && Get(BLACK, 2) == 0.0;
    assert Get(TRANSPARENT, 0) == 0.0 && Get(TRANSPARENT, 1) == 0.0 && Get(TRANSPARENT, 2) == 0.0;
  }

  /** Each primary has its own weight as luminance. */
  lemma LuminanceOfPrimaries()
    ensures Luminance(RED) == 0.2125 && Luminance(GREEN) == 0.7154 && Luminance(BLUE) == 0.0721
  {
    assert Get(RED, 0) == 1.0 && Get(RED, 1) == 0.0 && Get(RED, 2) == 0.0;
    assert Get(GREEN, 0) == 0.0 && Get(GREEN, 1) == 1.0 && Get(GREEN, 2) == 0.0;
    assert Get(BLUE, 0) == 0.0 && Get(BLUE, 1) == 0.0 && Get(BLUE, 2) == 1.0;
  }

  /** Luminance does not depend on alpha and is linear. */
  lemma LuminanceLinear(a: Color, b: Color, k: real, alpha: real)
    ensures Luminance(Color(a.data.(w := alpha))) == Luminance(a)
    ensures Luminance(Plus(a, b)) == Luminance(a) + Luminance(b)
    ensures Luminance(Color(Mul(a.data, Load1f(k)))) == k * Luminance(a)
  {
  }

  /** contrastAdjust: red, green and blue move from 0.5 towards (or away from) their value; alpha stays. */
  function ContrastAdjust(c: Color, contrast: real): (r: Color)
    ensures forall i | 0 <= i < 3 :: Get(r, i) == GenericMath.Lerp(0.5, Get(c, i), contrast)
    ensures Get(r, 3) == Get(c, 3)
  {
    SelectMaskW(LerpV(HALF, c.data, contrast), c.data);
    Color(Select(LerpV(HALF, c.data, contrast), MASK_W, c.data))
  }

  /** saturationAdjust: red, green and blue move from the luminance grey towards their value; alpha stays. */
  function SaturationAdjust(c: Color, saturation: real): (r: Color)
    ensures forall i | 0 <= i < 3 :: Get(r, i) == GenericMath.Lerp(Luminance(c), Get(c, i), saturation)
    ensures Get(r, 3) == Get(c, 3)
  {
    var grey := Load1f(Luminance(c));
    SelectMaskW(LerpV(grey, c.data, saturation), c.data);
    Color(Select(LerpV(grey, c.data, saturation), MASK_W, c.data))
  }

  /** varianceAdjust: red, green and blue scaled by variance; alpha stays. */
  function VarianceAdjust(c: Color, variance: real): (r: Color)
    ensures forall i | 0 <= i < 3 :: Get(r, i) == Get(c, i) * variance
    ensures Get(r, 3) == Get(c, 3)
  {
    SelectMaskW(Mul(c.data, Load1f(variance)), c.data);
    Color(Select(Mul(c.data, Load1f(variance)), MASK_W, c.data))
  }

  /** An amount of 1 leaves the color unchanged for all three adjustments. */
  lemma AdjustmentsIdentity(c: Color)
    ensures ContrastAdjust(c, 1.0) == c && SaturationAdjust(c, 1.0) == c && VarianceAdjust(c, 1.0) == c
  {
    SameLanes(ContrastAdjust(c, 1.0), c);
    SameLanes(SaturationAdjust(c, 1.0), c);
    SameLanes(VarianceAdjust(c, 1.0), c);
  }

  /** An amount of 0 gives the flat color each adjustment pulls towards, with alpha kept. */
  lemma AdjustmentsAtZero(c: Color)
    ensures ContrastAdjust(c, 0.0) == Make(0.5, 0.5, 0.5, Get(c, 3))
    ensures SaturationAdjust(c, 0.0) == Make(Luminance(c), Luminance(c), Luminance(c), Get(c, 3))
    ensures VarianceAdjust(c, 0.0) == Make(0.0, 0.0, 0.0, Get(c, 3))
  {
    SameLanes(ContrastAdjust(c, 0.0), Make(0.5, 0.5, 0.5, Get(c, 3)));
    SameLanes(SaturationAdjust(c, 0.0), Make(Luminance(c), Luminance(c), Luminance(c), Get(c, 3)));
    SameLanes(VarianceAdjust(c, 0.0), Make(0.0, 0.0, 0.0, Get(c, 3)));
  }

  /**
   * Changing saturation keeps luminance, because the weights sum to 1;
   * changing variance scales it.
   */
  lemma AdjustmentsAndLuminance(c: Color, amt: real)
    ensures Luminance(SaturationAdjust(c, amt)) == Luminance(c)
    ensures Luminance(VarianceAdjust(c, amt)) == amt * Luminance(c)
  {
    var l := Luminance(c);
    var s := SaturationAdjust(c, amt);
    assert Luminance(s) == l + (Luminance(c) - (0.2125 + 0.7154 + 0.0721) * l) * amt;
  }

  /** Colors that agree on every lane are equal. */
  lemma SameLanes(a: Color, b: Color)
    requires forall i | 0 <= i < 4 :: Get(a, i) == Get(b, i)
    ensures a == b
  {
    assert Get(a, 0) == Get(b, 0) && Get(a, 1) == Get(b, 1) && Get(a, 2) == Get(b, 2) && Get(a, 3) == Get(b, 3);
  }

  // ---------------------------------------------------------------------
  // Quantizing and packing
  // ---------------------------------------------------------------------

  /** 255 as a float: the scale between a channel in [0, 1] and a byte. */
  const CONVERSION: real := 255.0

  /** The byte a scaled channel value maps to: clamped to [0, 255] and rounded. */
  function Level(scaled: real): (k: int)
    ensures 0 <= k <= 255
  {
    var v := GenericMath.Clamp(scaled, 0.0, CONVERSION);
    GenericMath.RoundToIntNearest(v);
    GenericMath.RoundToInt(v)
  }

  /** The level is the nearest whole number to the clamped value. */
  lemma LevelNearest(scaled: real)
    ensures GenericMath.Abs(Level(scaled) as real - GenericMath.Clamp(scaled, 0.0, CONVERSION)) <= 0.5
  {
    GenericMath.RoundToIntNearest(GenericMath.Clamp(scaled, 0.0, CONVERSION));
  }

  /** A whole number in [0, 255] is its own level. */
  lemma LevelOfWhole(k: int)
    requires 0 <= k <= 255
    ensures Level(k as real) == k
  {
    GenericMath.RoundToIntNearest(k as real);
  }

  /** The byte of channel `index` of c. */
  function ChannelByte(c: Color, index: nat): (k: int)
    requires index < 4
    ensures 0 <= k <= 255
  {
    Level(Get(c, index) * CONVERSION)
  }

  /** The color every channel of which is its byte divided by 255. */
  function QuantizedColor(c: Color): (r: Color)
    ensures forall i | 0 <= i < 4 :: Get(r, i) * CONVERSION == ChannelByte(c, i) as real
  {
    Make(ChannelByte(c, 0) as real / CONVERSION, ChannelByte(c, 1) as real / CONVERSION,
      ChannelByte(c, 2) as real / CONVERSION, ChannelByte(c, 3) as real / CONVERSION)
  }

  /**
   * quantized: scale into vals[4], clamp and round each in place, and scale
   * back.
   */
  method Quantized(c: Color) returns (r: Color)
    ensures r == QuantizedColor(c)
  {
    var vals := new real[4];
    vals[0], vals[1], vals[2], vals[3] := c.data.x * CONVERSION, c.data.y * CONVERSION,
      c.data.z * CONVERSION, c.data.w * CONVERSION;
    assert vals[..] == Rounded(c, 0);
    for i := 0 to 4
      invariant vals[..] == Rounded(c, i)
    {
      vals[i] := GenericMath.Clamp(vals[i], 0.0, CONVERSION);
      vals[i] := GenericMath.RoundToFloat(vals[i]);
      RoundedStep(c, i, vals[i]);
    }
    var levels := Vec4(vals[0], vals[1], vals[2], vals[3]);
    r := Color(Div(levels, Load1f(CONVERSION)));
    QuantizedOfLevels(c, levels, r);
  }

  /** vals[] while quantizing: the first n channels rounded to a level, the rest only scaled. */
  ghost function Rounded(c: Color, n: nat): (vals: seq<real>)
    ensures |vals| == 4
  {
    seq(4, j requires 0 <= j < 4 => if j < n then ChannelByte(c, j) as real else Get(c, j) * CONVERSION)
  }

  lemma RoundedStep(c: Color, i: nat, v: real)
    requires i < 4 && v == GenericMath.RoundToFloat(GenericMath.Clamp(Rounded(c, i)[i], 0.0, CONVERSION))
    ensures Rounded(c, i)[i := v] == Rounded(c, i + 1)
  {
  }

  lemma QuantizedOfLevels(c: Color, levels: Vec4, r: Color)
    requires levels == Vec4(ChannelByte(c, 0) as real, ChannelByte(c, 1) as real, ChannelByte(c, 2) as real, ChannelByte(c, 3) as real)
    requires Mul(r.data, Load1f(CONVERSION)) == levels
    ensures r == QuantizedColor(c)
  {
    var q := QuantizedColor(c);
    assert Get(q, 0) == q.data.x && Get(q, 1) == q.data.y && Get(q, 2) == q.data.z && Get(q, 3) == q.data.w;
  }

  /** Quantizing twice is quantizing once. */
  lemma QuantizedIdempotent(c: Color)
    ensures QuantizedColor(QuantizedColor(c)) == QuantizedColor(c)
  {
    var q := QuantizedColor(c);
    forall i | 0 <= i < 4
      ensures ChannelByte(q, i) == ChannelByte(c, i)
    {
      LevelOfWhole(ChannelByte(c, i));
    }
    SameLanes(QuantizedColor(q), q);
  }

  /** Each quantized channel lies in [0, 1] within half a level of the clamped channel. */
  lemma QuantizedNearest(c: Color, i: nat)
    requires i < 4
    ensures 0.0 <= Get(QuantizedColor(c), i) <= 1.0
    ensures GenericMath.Abs(Get(QuantizedColor(c), i) * CONVERSION
      - GenericMath.Clamp(Get(c, i) * CONVERSION, 0.0, CONVERSION)) <= 0.5
  {
    LevelNearest(Get(c, i) * CONVERSION);
  }

  const TWO24: int := 0x100_0000
  const TWO31: int := 0x8000_0000
  const TWO32: int := 0x1_0000_0000
  type uint32 = x: int | 0 <= x < TWO32
  type int32 = x: int | -TWO31 <= x < TWO31

  /** The word toInt builds: red in the top byte, alpha in the bottom one. */
  function Pack(b0: int, b1: int, b2: int, b3: int): int
  {
    ((b0 * 256 + b1) * 256 + b2) * 256 + b3
  }

  /** The word built from the first n channel bytes, each appended below the ones before it. */
  function PackedPrefix(c: Color, n: nat): (p: int)
    requires n <= 4
    ensures 0 <= p
    ensures n <= 3 ==> p < TWO24
  {
    if n == 0 then 0
    else if n == 1 then ChannelByte(c, 0)
    else if n == 2 then ChannelByte(c, 0) * 256 + ChannelByte(c, 1)
    else if n == 3 then (ChannelByte(c, 0) * 256 + ChannelByte(c, 1)) * 256 + ChannelByte(c, 2)
    else Pack(ChannelByte(c, 0), ChannelByte(c, 1), ChannelByte(c, 2), ChannelByte(c, 3))
  }

  /**
   * In 32-bit arithmetic, shifting a value below 2^24 left by 8 and or-ing
   * in a byte is multiplying by 256 and adding the byte.
   */
  lemma ShiftInByte(result: bv32, b: bv32)
    requires result < 0x100_0000 && b < 256
    ensures (result << 8) | b == result * 256 + b
    ensures result * 256 + b >= result
  {
  }

  /** The (int32) cast of a 32-bit unsigned value: two's complement. */
  function ToSigned(u: uint32): (s: int32)
    ensures s % TWO32 == u
    ensures s < 0 <==> u >= TWO31
  {
    if u < TWO31 then u else u - TWO32
  }

  /**
   * toInt: scale into vals[4]; for each channel clamp it, round it and shift
   * it into the low byte of the 32-bit result (ShiftInByte), then
   * reinterpret the result as an int32.
   */
  method ToInt(c: Color) returns (r: int32)
    ensures r == ToSigned(Pack(ChannelByte(c, 0), ChannelByte(c, 1), ChannelByte(c, 2), ChannelByte(c, 3)))
  {
    var vals := new real[4];
    vals[0], vals[1], vals[2], vals[3] := c.data.x * CONVERSION, c.data.y * CONVERSION,
      c.data.z * CONVERSION, c.data.w * CONVERSION;
    var result: uint32 := 0;
    for i := 0 to 4
      invariant result == PackedPrefix(c, i)
      invariant forall j | i <= j < 4 :: vals[j] == Get(c, j) * CONVERSION
    {
      vals[i] := GenericMath.Clamp(vals[i], 0.0, CONVERSION);
      var k := GenericMath.RoundToInt(vals[i]);
      assert k == ChannelByte(c, i);
      result := result * 256 + k;
    }
    r := ToSigned(result);
  }

  /** The packed word's four bytes, from most to least significant, are the channel bytes. */
  lemma PackExtract(b0: int, b1: int, b2: int, b3: int)
    requires 0 <= b0 < 256 && 0 <= b1 < 256 && 0 <= b2 < 256 && 0 <= b3 < 256
    ensures 0 <= Pack(b0, b1, b2, b3) < TWO32
    ensures Pack(b0, b1, b2, b3) / TWO24 == b0
    ensures Pack(b0, b1, b2, b3) / 0x1_0000 % 256 == b1
    ensures Pack(b0, b1, b2, b3) / 256 % 256 == b2
    ensures Pack(b0, b1, b2, b3) % 256 == b3
  {
    var p := Pack(b0, b1, b2, b3);
    var p1, p2 := b0 * 256 + b1, (b0 * 256 + b1) * 256 + b2;
    DivModByte(p, p2, b3);
    DivModByte(p2, p1, b2);
    DivModByte(p1, b0, b1);
    assert p / 0x1_0000 == p / 256 / 256;
    assert p / TWO24 == p / 256 / 256 / 256;
  }

  lemma DivModByte(p: int, high: int, low: int)
    requires p == high * 256 + low && 0 <= low < 256
    ensures p / 256 == high && p % 256 == low
  {
  }

  /** toInt is negative exactly when the red byte is at least 128. */
  lemma ToIntSign(c: Color)
    ensures 0 <= Pack(ChannelByte(c, 0), ChannelByte(c, 1), ChannelByte(c, 2), ChannelByte(c, 3)) < TWO32
    ensures ToSigned(Pack(ChannelByte(c, 0), ChannelByte(c, 1), ChannelByte(c, 2), ChannelByte(c, 3))) < 0
      <==> ChannelByte(c, 0) >= 128
  {
    PackExtract(ChannelByte(c, 0), ChannelByte(c, 1), ChannelByte(c, 2), ChannelByte(c, 3));
  }

  /** Quantizing first does not change the bytes toInt packs. */
  lemma ToIntMatchesQuantized(c: Color)
    ensures forall i | 0 <= i < 4 :: ChannelByte(QuantizedColor(c), i) == ChannelByte(c, i)
  {
    var q := QuantizedColor(c);
    forall i | 0 <= i < 4
      ensures ChannelByte(q, i) == ChannelByte(c, i)
    {
      LevelOfWhole(ChannelByte(c, i));
    }
  }

  /** White's bytes are all 255 and toInt reads -1; opaque black packs to 255; transparent to 0. */
  lemma ToIntExamples()
    ensures forall i | 0 <= i < 4 :: ChannelByte(WHITE, i) == 255 && ChannelByte(TRANSPARENT, i) == 0
    ensures forall i | 0 <= i < 3 :: ChannelByte(BLACK, i) == 0
    ensures ChannelByte(BLACK, 3) == 255
    ensures ToSigned(Pack(255, 255, 255, 255)) == -1 && ToSigned(Pack(0, 0, 0, 255)) == 255
  {
    LevelOfWhole(255);
    LevelOfWhole(0);
  }

  // ---------------------------------------------------------------------
  // In-place updates
  // ---------------------------------------------------------------------

  /** A Color variable: the compound operators overwrite `data`. */
  class ColorVar {
    var data: Vec4

    function Value(): Color
      reads this
    {
      Color(data)
    }

    constructor (c: Color)
      ensures Value() == c
    {
      data := c.data;
    }

    /** operator+=: returns a copy of the updated value. */
    method AddAssign(other: Color) returns (r: Color)
      modifies this
      ensures Value() == Plus(old(Value()), other) && r == Value()
    {
      data := Add(data, other.data);
      r := Value();
    }

    method SubAssign(other: Color) returns (r: Color)
      modifies this
      ensures Value() == Minus(old(Value()), other) && r == Value()
    {
      data := Sub(data, other.data);
      r := Value();
    }

    method MulAssign(other: Color) returns (r: Color)
      modifies this
      ensures Value() == Times(old(Value()), other) && r == Value()
    {
      data := Mul(data, other.data);
      r := Value();
    }

    method DivAssign(other: Color) returns (r: Color)
      requires NoZeroLane(other.data)
      modifies this
      ensures Value() == Quotient(old(Value()), other) && r == Value()
    {
      data := Div(data, other.data);
      r := Value();
    }
  }
}
