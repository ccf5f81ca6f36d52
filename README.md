# CGFX5 geometric math core, modelled in Dafny

CGFX5 is a small real-time rendering framework. Its geometric math core is
built up in layers:

- a 4-lane vector abstraction with two interchangeable backends, a portable
  scalar one and an SSE one;
- 3D and 2D vectors, quaternions, 4x4 matrices and planes on top of it;
- axis-aligned boxes, bounding spheres and rigid transforms on top of those;
- a handful of plane, box and sphere intersection tests.

Beside the core sit several smaller pieces:

- integer and bit utilities;
- the RGBA color type;
- Marsaglia's CMWC4096 random number generator;
- string splitting;
- the generic aligned allocator and memory helpers;
- the indexed model builder;
- the array bitmap;
- the naive floating-point reference routines that the performance tests
  compare both backends against.

This project models those pieces and proves what they promise.

How the model is built:

- **Numbers.** Floats are exact reals. A vector register is `Vec4`, four
  real lanes. A matrix is four rows. Comparison masks and bit tricks are
  modelled in two ways. The SSE backend's masks are 32-bit lane
  patterns, so its `select`, `isZero` and `movemask` follow the bits. The
  generic backend's masks are booleans, one per lane, which covers the
  masks its comparisons produce. The float classification predicates
  (`isNaN`, `isFinite`) read binary32 patterns in both.
- **Transcendental functions.** The C library's `sqrt`, `sin`, `cos`,
  `tan`, `acos` and `atan2` are fields of a `Libm` value that callers pass
  in. Nothing is assumed about them unless a lemma's `requires` says so.
  For example, `GenericMath.SqrtIsExact(lm)` says `sqrt` is the exact
  square root.
- **Value types and mutators.** Value types are datatypes and pure
  functions. The `+=`-style mutators are classes that hold the value in a
  field.
- **Imperative code.** Code that updates buffers in place keeps its
  arrays, loops and `modifies` clauses:
  - the generic and SSE matrix stores;
  - the AABB and sphere point-cloud constructors;
  - the CMWC state;
  - `split`;
  - `memset` and `memswap`;
  - the allocator's heap;
  - the indexed model's lists;
  - the bitmap's pixel buffer;
  - the naive test routines.
- **What is proved.** Each operation is proved against an independent
  statement of what it computes, or against its inverse or an invariant:
  - the SSE backend is lane-for-lane equal to the generic one;
  - the adjugate-based matrix inverse times the matrix gives the identity;
  - `getRotation` recovers the rotation of `transformMatrix` up to sign;
  - a transform and its inverse transform undo each other;
  - `addSphere` encloses both inputs;
  - `split` joined with its delimiter gives back its input;
  - the CMWC step keeps its carry bound;
  - a bitmap `set` is read back by `get`;
  - the naive routines compute the library's products, rotations and
    transform matrices.
- **Findings.** Where the code as written does not do what its design
  says, both versions are modelled. See "## Findings".

## Model

| member | source | states |
|---|---|---|
| GenericMath.TruncToInt | src/platform/generic/genericMath.hpp:31-34 | truncation toward zero: the result is within 1 of val on val's side of zero |
| GenericMath.TruncToFloat | src/platform/generic/genericMath.hpp:36-39 | truncToFloat is the truncated integer as a real |
| GenericMath.TruncOfInteger | src/platform/generic/genericMath.hpp:31-39 | truncating an integral value gives it back |
| GenericMath.FloorToInt | src/platform/generic/genericMath.hpp:41-49 | the greatest integer not above val |
| GenericMath.CeilToInt | src/platform/generic/genericMath.hpp:66-74 | the least integer not below val |
| GenericMath.RoundToFloat | src/platform/generic/genericMath.hpp:61-64 | roundToFloat is roundToInt as a real |
| GenericMath.RoundToIntNearest | src/platform/generic/genericMath.hpp:56-59 | ceil(val - 0.5) is within 0.5 of val, and an exact half goes to the lower integer |
| GenericMath.RoundHalfDown | src/platform/generic/genericMath.hpp:56-59 | k + 0.5 rounds to k |
| GenericMath.RoundHalfExamples | src/platform/generic/genericMath.hpp:56-59 | 2.5 gives 2, -2.5 gives -3, 2.6 gives 3 |
| GenericMath.FractionalBounds | src/platform/generic/genericMath.hpp:81-84 | val - trunc(val) lies in (-1, 1), has val's sign, and val minus it is an integer |
| GenericMath.Reciprocal | src/platform/generic/genericMath.hpp:157-160 | r * val == 1 |
| GenericMath.Rsqrt | src/platform/generic/genericMath.hpp:162-165 | rsqrt(val) times sqrt(val) is 1 |
| GenericMath.RsqrtLaw | src/platform/generic/genericMath.hpp:162-165 | with an exact sqrt and val > 0, rsqrt(val)^2 * val == 1 |
| GenericMath.FloorLog2 | src/platform/generic/genericMath.hpp:191-200 | 0 for 0; otherwise r < 32 with 2^r <= v < 2^(r+1) |
| GenericMath.GetNumLeadingZeroes | src/platform/generic/genericMath.hpp:202-208 | 32 for 0; otherwise the number of zero bits above the top set bit (v >> (31 - r) == 1) |
| GenericMath.CeilLog2 | src/platform/generic/genericMath.hpp:210-216 | 0 for v <= 1; otherwise the least r with v <= 2^r (r == 32 when v > 2^31) |
| GenericMath.RoundUpToNextPowerOf2 | src/platform/generic/genericMath.hpp:218-221 | for v <= 2^31, a power of two at least v and, for v > 1, less than 2v |
| GenericMath.Select | src/platform/generic/genericMath.hpp:223-229 | the first value iff cmp >= 0 |
| GenericMath.Abs | src/platform/generic/genericMath.hpp:231-235 | non-negative and equal to val or -val |
| GenericMath.Min | src/platform/generic/genericMath.hpp:244-248 | a lower bound of both arguments that is one of them |
| GenericMath.Max | src/platform/generic/genericMath.hpp:256-260 | an upper bound of both arguments that is one of them |
| GenericMath.Min3 | src/platform/generic/genericMath.hpp:250-254 | a lower bound of all three that is one of them |
| GenericMath.Max3 | src/platform/generic/genericMath.hpp:262-266 | an upper bound of all three that is one of them |
| GenericMath.Lerp | src/platform/generic/genericMath.hpp:286-290 | v1 + (v2 - v1) amt; amt 0 gives v1, amt 1 gives v2, equal ends give that end |
| GenericMath.Clamp | src/platform/generic/genericMath.hpp:334-344 | max above max, val in (min, max], min otherwise; with min <= max the result is max(min, min(val, max)) in [min, max] |
| GenericMath.Saturate | src/platform/generic/genericMath.hpp:346-350 | in [0, 1], and val itself when val is already there |
| GenericMath.EqualsMeaning | src/platform/generic/genericMath.hpp:364-368 | equals is the strict, symmetric abs(v1 - v2) < margin, so nothing equals itself at margin 0 |
| GenericMath.ClassificationMatchesFields | src/platform/generic/genericMath.hpp:167-185 | isNaN iff exponent all ones and significand nonzero; isFinite iff exponent not all ones |
| GenericMath.NaNIsNotFinite | src/platform/generic/genericMath.hpp:167-185 | a NaN pattern is never finite |
| GenericMath.InfinitiesAreNeitherNaNNorFinite | src/platform/generic/genericMath.hpp:167-185 | both infinities are neither NaN nor finite; zeros and 1.0 are finite; 0x7FC00000 is NaN |
| GenericMath.Decode | src/platform/generic/genericMath.hpp:177-185 | the value a finite pattern denotes, with the sign bit deciding the sign of a nonzero value |
| GenericMath.DecodeExamples | src/platform/generic/genericMath.hpp:177-185 | 0x3F800000 is 1, 0xBF800000 is -1, 0x40000000 is 2, 0x3F000000 is 0.5, both zeros are 0 |
| GenericVecmath.Set3 | src/platform/generic/genericVecmath.hpp:204-207 | set(x, y, z) puts x, y, z in lanes 0-2 and 0 in lane 3 |
| GenericVecmath.MaskFor | src/platform/generic/genericVecmath.hpp:163-172 | mask(index) is false on lane index and true on the other three |
| GenericVecmath.Div | src/platform/generic/genericVecmath.hpp:443-447 | lane-wise quotient: multiplying back by b gives a |
| GenericVecmath.Neg | src/platform/generic/genericVecmath.hpp:288-296 | neg adds to a to give all zeros |
| GenericVecmath.MadV | src/platform/generic/genericVecmath.hpp:410-417 | mad is a * mul + add lane-wise |
| GenericVecmath.ReciprocalV | src/platform/generic/genericVecmath.hpp:338-345 | every lane times the input lane is 1 |
| GenericVecmath.RsqrtV | src/platform/generic/genericVecmath.hpp:329-336 | every lane times sqrt of the input lane is 1 |
| GenericVecmath.Dot3 | src/platform/generic/genericVecmath.hpp:298-302 | x*x'+y*y'+z*z' broadcast to all four lanes; lane 3 of either input does not matter |
| GenericVecmath.Dot4 | src/platform/generic/genericVecmath.hpp:304-309 | the four-lane dot product broadcast to all four lanes |
| GenericVecmath.Cross3 | src/platform/generic/genericVecmath.hpp:311-318 | lane 3 of the cross product is 0 |
| GenericVecmath.Cross3Orthogonal | src/platform/generic/genericVecmath.hpp:311-318 | the cross product is orthogonal to both inputs |
| GenericVecmath.Cross3AntiCommutes | src/platform/generic/genericVecmath.hpp:311-318 | swapping the inputs negates xyz of the cross product |
| GenericVecmath.DotCrossExamples | tests/vecmath_tests.cpp:147-156 | dot4((1,2,3,4),(3,4,5,6)) = 50, dot3 = 26, cross((1,2,3),(3,4,5)) = (-2,4,-2,0) |
| GenericVecmath.NormalizeIsUnit | src/platform/generic/genericVecmath.hpp:357-365 | with an exact sqrt, normalize3 and normalize4 of a nonzero vector have unit length |
| GenericVecmath.Normalize3OfUnit | src/platform/generic/genericVecmath.hpp:362-365 | normalize3 leaves a unit vector unchanged |
| GenericVecmath.QuatMulIsHamilton | src/platform/generic/genericVecmath.hpp:375-402 | the eight-multiplication quatMul equals the commented Hamilton product lane for lane |
| GenericVecmath.QuatRotateVec | src/platform/generic/genericVecmath.hpp:404-408 | v + w t + q x t with t = 2 (q x v) keeps v's lane 3 |
| GenericVecmath.QuatRotateVecFormula | src/platform/generic/genericVecmath.hpp:404-408 | quatRotateVec equals the closed rotation formula v(1 - 2 abs(u)^2) + 2u(u.v) + 2w(u x v) on every lane |
| GenericVecmath.RotationUndone | src/platform/generic/genericVecmath.hpp:404-408 | for a unit q, rotating by q undoes rotating by its conjugate, for every vector |
| GenericVecmath.EqualsMask | src/platform/generic/genericVecmath.hpp:474-477 | lane i is true iff the lanes differ by less than the margin |
| GenericVecmath.NotEqualsMask | src/platform/generic/genericVecmath.hpp:479-482 | lane i is the negation of equals' lane i |
| GenericVecmath.Select | src/platform/generic/genericVecmath.hpp:563-571 | lane i comes from this vector where the mask lane is nonzero (true), else from other |
| GenericVecmath.ComparisonMasks | src/platform/generic/genericVecmath.hpp:449-528 | isZero4f of != holds iff the vectors are equal, isZero3f of != iff xyz are equal, isZero4f of == iff every lane differs; select with a > mask is the lane-wise max |
| GenericVecmath.RowTimes | src/platform/generic/genericVecmath.hpp:9-40 | lane j of a row of the product is that row dotted with column j of m2 |
| GenericVecmath.MatrixProduct | src/platform/generic/genericVecmath.hpp:9-40 | entry (i, j) of the product is row i of m1 dotted with column j of m2 |
| GenericVecmath.MatrixMul | src/platform/generic/genericVecmath.hpp:9-40 | writes the standard product of the old inputs into result, also when result is one of them |
| GenericVecmath.Transform | src/platform/generic/genericVecmath.hpp:419-423 | lane i of transform(v) is v dotted with row i |
| GenericVecmath.Det3x3IsLeibniz | src/platform/generic/genericVecmath.hpp:42-52 | matrixDeterminant3x3Vector equals the Leibniz 3x3 determinant |
| GenericVecmath.Det4IsLeibniz | src/platform/generic/genericVecmath.hpp:54-84 | the s/c minor expansion equals the Leibniz 4x4 determinant |
| GenericVecmath.MatrixDeterminant4x4 | src/platform/generic/genericVecmath.hpp:54-84 | returns the determinant and fills outS and outC with the six s and c minors only when they are non-null |
| GenericVecmath.MatrixInverse | src/platform/generic/genericVecmath.hpp:86-120 | for a nonzero determinant, dest becomes the adjugate scaled by 1/det of the old src |
| GenericVecmath.InverseIsLeftInverse | src/platform/generic/genericVecmath.hpp:86-120 | for a nonzero determinant, inverse(m) * m is the identity |
| GenericVecmath.Identity | src/math/matrix.hpp:60-67 | ones on the diagonal, zeros elsewhere |
| GenericVecmath.TransformMatrix | src/platform/generic/genericVecmath.hpp:122-151 | row 3 is (0,0,0,1) and the translation sits in lane 3 of rows 0-2 |
| GenericVecmath.TransformMatrixRows | src/platform/generic/genericVecmath.hpp:122-151 | proof step only, unfolding the three row definitions for its callers: rows 0-2 are the rotation-matrix rows scaled lane-wise by (s0, s1, s2) with the translation in lane 3 |
| GenericVecmath.CreateTransformMatrix | src/platform/generic/genericVecmath.hpp:122-151 | writes the transform matrix of (translation, rotation, scale) into dest |
| GenericVecmath.TransformMatrixFormula | src/platform/generic/genericVecmath.hpp:122-151 | with zero translation and unit scale, the matrix applied to (v, 0) equals the closed rotation formula on xyz |
| GenericVecmath.TransformMatrixRotates | src/platform/generic/genericVecmath.hpp:122-151 | with zero translation and unit scale, the matrix applied to (v, 0) equals quatRotateVec(q, v) on xyz |
| GenericVecmath.Det4OfAffine | src/platform/generic/genericVecmath.hpp:54-84 | with row 3 = (0,0,0,1) the 4x4 determinant is the upper 3x3 determinant |
| GenericVecmath.TransformMatrixDeterminant | src/test.cpp:101 | for a unit q, det(transformMatrix(t, q, s)) = s0 s1 s2 |
| SseVecmath.Shuffle | src/platform/sse/sseVecmath.hpp:7-13 | SSEVector_Shuffle(a, b, i, j, k, l) takes lanes i, j of a and lanes k, l of b |
| SseVecmath.Cross3Agrees | src/platform/sse/sseVecmath.hpp:329-340 | the shuffle cross product equals the generic backend's cross3 |
| SseVecmath.QuatMulIsHamilton | src/platform/sse/sseVecmath.hpp:399-407 | the shuffle quaternion product with its sign flip on lane 3 is the Hamilton product |
| SseVecmath.QuatMulAgrees | src/platform/sse/sseVecmath.hpp:399-407 | the SSE quatMul equals the generic quatMul |
| SseVecmath.QuatRotateVecAgrees | src/platform/sse/sseVecmath.hpp:409-413 | the SSE quatRotateVec equals the generic one |
| SseVecmath.HorizontalAdd | src/platform/sse/sseVecmath.hpp:556-568 | both the SSSE3 hadd path and the shuffle-and-add path broadcast the sum of the four lanes |
| SseVecmath.DotAgrees | src/platform/sse/sseVecmath.hpp:310-327 | SSE dot4 (on either horizontalAdd path) and dot3 equal the generic ones |
| SseVecmath.TransformAgrees | src/platform/sse/sseVecmath.hpp:422-426 | SSE transform equals the generic transform |
| SseVecmath.FromBool | src/platform/sse/sseVecmath.hpp:466-516 | a comparison result is all ones where the lane predicate holds and zero elsewhere |
| SseVecmath.ComparisonsAgree | src/platform/sse/sseVecmath.hpp:466-516 | ==, !=, >, >=, <, <= give uniform masks whose truth is the generic backend's boolean mask |
| SseVecmath.MaskForAgrees | src/platform/sse/sseVecmath.hpp:169-178 | mask(index) is uniform and reads as the generic mask(index) |
| SseVecmath.BlendIsBitwiseChoice | src/platform/sse/sseVecmath.hpp:545-551 | other ^ (mask & (this ^ other)) takes this's bit where the mask bit is set and other's elsewhere |
| SseVecmath.BlendOfUniformLane | src/platform/sse/sseVecmath.hpp:545-551 | an all-ones mask lane gives this lane's encoding and a zero one gives other's |
| SseVecmath.Select | src/platform/sse/sseVecmath.hpp:545-551 | on a uniform mask select equals the generic select of the mask's truth |
| SseVecmath.MoveMask | src/platform/sse/sseVecmath.hpp:456-464 | movemask packs the four sign bits into a value below 16 |
| SseVecmath.IsZeroAgrees | src/platform/sse/sseVecmath.hpp:456-464 | on comparison results isZero3f and isZero4f agree with the generic backend |
| SseVecmath.IsZeroReadsSignBitsOnly | src/platform/sse/sseVecmath.hpp:456-464 | on a lane holding 1 the SSE isZero4f holds while the generic one does not: only sign bits are read |
| SseVecmath.NegBitsFields | src/platform/sse/sseVecmath.hpp:298-303 | xor with -0.0 flips the sign bit and keeps exponent and significand, so finiteness and NaN-ness |
| SseVecmath.AbsBitsFields | src/platform/sse/sseVecmath.hpp:266-273 | and with 0x7FFFFFFF clears the sign bit and keeps exponent and significand |
| SseVecmath.NegValue | src/platform/sse/sseVecmath.hpp:298-303 | on a finite encoding neg decodes to the negated value |
| SseVecmath.AbsValue | src/platform/sse/sseVecmath.hpp:266-273 | on a finite encoding abs decodes to the absolute value |
| SseVecmath.NegAbsAgree | src/platform/sse/sseVecmath.hpp:266-303 | lane-wise, neg is multiplication by -1 and abs the absolute value of each lane |
| SseVecmath.NewScale | src/platform/sse/sseVecmath.hpp:133-153 | scaleVec selected under MASK_W against 1 keeps xyz and puts 1 in lane 3 |
| SseVecmath.SseRows | src/platform/sse/sseVecmath.hpp:130-158 | the three scaled rows built from rs12, rs22, rs32 are the rows of the transform matrix |
| SseVecmath.CreateTransformMatrix | src/platform/sse/sseVecmath.hpp:130-158 | the SSE createTransformMatrix writes the same matrix as the generic one |
| SseMatrix.MinorsOfRows | src/platform/sse/sseVecmath.hpp:64-95 | the SSE minors of rows 0-1 and of rows 2-3 are the generic backend's s and c |
| SseMatrix.MatrixDeterminant4x4 | src/platform/sse/sseVecmath.hpp:64-95 | returns the 4x4 determinant and writes the s and c minors through outS and outC only when they are non-null |
| SseMatrix.RowMajorAt | src/platform/sse/sseVecmath.hpp:96-128 | entry j of row i sits at index 4 i + j of the row-major layout |
| SseMatrix.CofactorSumsAreAdjugate | src/platform/sse/sseVecmath.hpp:96-128 | the sixteen bracketed sums over the matrix's own minors are the adjugate's entries, row-major |
| SseMatrix.ScaleRowsEntries | src/platform/sse/sseVecmath.hpp:96-128 | scaling every row by k scales every row-major entry by k |
| SseMatrix.InverseIsScaledCofactorSums | src/platform/sse/sseVecmath.hpp:96-128 | the inverse, row-major, is the cofactor sums times reciprocal(det) |
| SseMatrix.MatrixInverse | src/platform/sse/sseVecmath.hpp:96-128 | for a nonzero determinant, dest holds the generic backend's inverse of the old src, row-major, even when dest aliases src |
| Vecmath.ConstantsBroadcast | src/math/vecmath.cpp:4-7 | ZERO, ONE, TWO and HALF hold 0, 1, 2 and 0.5 in every lane |
| Vecmath.MaskConstantsAgree | src/math/vecmath.cpp:9-12 | MASK_X..MASK_W clear exactly the named lane, and each equals mask(index) of both backends, as a uniform SSE mask reading as the generic one |
| Vecmath.SelectMaskW | src/math/vecmath.cpp:12 | selecting against MASK_W keeps xyz and takes lane 3 from the other vector |
| Vecmath.LerpV | src/math/vecmath.hpp:24-29 | lane i is the scalar lerp of lane i of the two ends |
| Vecmath.LerpVEndpoints | src/math/vecmath.hpp:24-29 | amount 0 gives val1 and amount 1 gives val2 |
| Vecmath.LerpVOfEqualEnds | src/math/vecmath.hpp:24-29 | equal ends give that vector for every amount |
| Vecmath.LerpVLaneLocal | src/math/vecmath.hpp:24-29 | lane i of the result depends on lane i of the ends only |
| Vector3.Zero | src/math/vector.hpp:86-87 | Vector3f() holds 0 in every lane |
| Vector3.Splat | src/math/vector.hpp:89-90 | Vector3f(val) holds val in x, y, z and 0 in lane 3 |
| Vector3.Make | src/math/vector.hpp:92-93 | Vector3f(x, y, z) holds x, y, z and 0 in lane 3 |
| Vector3.ToVectorRoundTrip | src/math/vector.hpp:83-84 | constructing from a Vector and toVector() are inverse, lane 3 included |
| Vector3.ToVectorW | src/math/vector.cpp:169-175 | toVector(w) keeps xyz and puts w in lane 3 |
| Vector3.Dot | src/math/vector.hpp:95-98 | dot is x*x'+y*y'+z*z' |
| Vector3.DotSymmetric | src/math/vector.hpp:95-98 | dot is symmetric and ignores lane 3 |
| Vector3.DotToVector | src/math/vector.hpp:100-103 | dotToVector holds the dot product in all four lanes |
| Vector3.Cross | src/math/vector.hpp:105-108 | the cross product is orthogonal to both operands and has lane 3 = 0 |
| Vector3.LengthSquared | src/math/vector.hpp:199-202 | lengthSquared is the dot of the vector with itself, and is non-negative |
| Vector3.DistSquared | src/math/vector.hpp:115-120 | distSquared is the squared length of other - this |
| Vector3.DistSquaredSymmetric | src/math/vector.hpp:115-120 | distSquared is symmetric and zero from a vector to itself |
| Vector3.Dist | src/math/vector.hpp:110-113 | dist is the length of other - this |
| Vector3.Plus | src/math/vector.hpp:122-125 | lane-wise sum |
| Vector3.Minus | src/math/vector.hpp:127-130 | the difference plus b gives back a |
| Vector3.Times | src/math/vector.hpp:132-135 | lane-wise product |
| Vector3.Quotient | src/math/vector.hpp:137-141 | for a divisor with nonzero x, y, z, each of those lanes times the divisor's gives back a's |
| Vector3.PlusScalar | src/math/vector.hpp:143-146 | amt added to every lane |
| Vector3.MinusScalar | src/math/vector.hpp:148-151 | adding amt back gives the vector |
| Vector3.TimesScalar | src/math/vector.hpp:153-156 | every lane times amt |
| Vector3.QuotientScalar | src/math/vector.hpp:158-162 | for amt nonzero, multiplying back by amt gives the vector |
| Vector3.Negated | src/math/vector.hpp:164-167 | the negation plus the vector is zero |
| Vector3.OperatorInverses | src/math/vector.hpp:122-167 | (a + b) - b = a, (a k) / k = a for k nonzero, and -(-a) = a |
| Vector3.Equal | src/math/vector.cpp:3-6 | == holds iff x, y, z are equal |
| Vector3.NotEqual | src/math/vector.cpp:8-11 | != holds iff some of x, y, z differs |
| Vector3.ApproxEquals | src/math/vector.cpp:13-16 | equals holds iff each of x, y, z differs by less than the margin |
| Vector3.ApproxEqualsScalar | src/math/vector.cpp:18-22 | equals(val) holds iff each of x, y, z is within the margin of val |
| Vector3.ComparisonsIgnoreLane3 | src/math/vector.cpp:3-16 | changing lane 3 changes neither == nor equals |
| Vector3.MaxComponent | src/math/vector.cpp:41-46 | max() is the largest of x, y, z and is one of them |
| Vector3.MinComponent | src/math/vector.cpp:48-53 | min() is the smallest of x, y, z and is one of them |
| Vector3.AbsMax | src/math/vector.cpp:55-60 | absMax() is the largest magnitude among x, y, z and is attained |
| Vector3.AbsMin | src/math/vector.cpp:62-68 | absMin() is the smallest magnitude among x, y, z and is attained |
| Vector3.AbsVec | src/math/vector.cpp:70-73 | lane-wise absolute value |
| Vector3.MinVec | src/math/vector.cpp:75-78 | lane-wise minimum |
| Vector3.MaxVec | src/math/vector.cpp:80-83 | lane-wise maximum |
| Vector3.Normalized | src/math/vector.cpp:85-90 | each lane of the result times the length gives back the lane |
| Vector3.NormalizedIsNormalized | src/math/vector.cpp:85-96 | with an exact sqrt, the normalized vector has unit squared length and passes isNormalized for every positive margin |
| Vector3.DirAndLength | src/math/vector.cpp:98-103 | length is the vector's length and dir is the normalized vector; dir times length gives back every lane |
| Vector3.Project | src/math/vector.cpp:105-109 | project() divides every lane by z, so z becomes 1 |
| Vector3.ReciprocalVec | src/math/vector.cpp:111-115 | each of x, y, z times the input's is 1 |
| Vector3.RotateKeepsAxisComponent | src/math/vector.cpp:117-133 | rotating about a unit axis keeps the component along the axis |
| Vector3.RotateByZero | src/math/vector.cpp:117-133 | rotating by angle 0 gives back the vector when sin 0 = 0 and cos 0 = 1 |
| Vector3.Reflect | src/math/vector.cpp:135-139 | v - n (2 (v . n)) lane by lane |
| Vector3.ReflectTwice | src/math/vector.cpp:135-139 | about a unit normal, reflection negates the normal component and reflecting twice gives back the vector |
| Vector3.Refract | src/math/vector.cpp:141-157 | zero on total internal reflection (k < 0), else v eta - (eta (v . n) + sqrt k) n |
| Vector3.RefractIndexOne | src/math/vector.cpp:141-157 | with index 1 and an exact sqrt, a vector facing the surface passes straight through |
| Vector3.ToDegrees | src/math/vector.cpp:159-162 | every lane scaled by the radians-to-degrees factor |
| Vector3.ToRadians | src/math/vector.cpp:164-167 | every lane scaled by the degrees-to-radians factor |
| Vector3.DegreesRoundTrip | src/math/vector.cpp:159-167 | with reciprocal factors, toRadians undoes toDegrees |
| Vector3.Vector3fVar.AddAssign | src/math/vector.hpp:169-173 | += adds other and returns the updated value |
| Vector3.Vector3fVar.SubAssign | src/math/vector.hpp:175-179 | -= subtracts other and returns the updated value |
| Vector3.Vector3fVar.MulAssign | src/math/vector.hpp:181-185 | *= multiplies lane-wise and returns the updated value |
| Vector3.Vector3fVar.DivAssign | src/math/vector.hpp:187-192 | /= divides lane-wise and returns the updated value |
| Vector3.Vector3fVar.AddScalarAssign | src/math/vector.hpp:205-209 | += val adds val to every lane |
| Vector3.Vector3fVar.SubScalarAssign | src/math/vector.hpp:211-215 | -= val subtracts val from every lane |
| Vector3.Vector3fVar.MulScalarAssign | src/math/vector.hpp:217-221 | *= val scales every lane |
| Vector3.Vector3fVar.DivScalarAssign | src/math/vector.hpp:223-227 | /= val multiplies by reciprocal(val) |
| Vector3.Vector3fVar.Set | src/math/vector.cpp:31-34 | set(x, y, z) stores x, y, z with lane 3 = 0 |
| Vector3.Vector3fVar.SetLane | src/math/vector.cpp:36-39 | set(index, val) changes lane index only |
| Vector2.Equal | src/math/vector.cpp:177-180 | == holds iff both components are equal |
| Vector2.NotEqual | src/math/vector.cpp:182-185 | != is the negation of == |
| Vector2.ApproxEquals | src/math/vector.cpp:187-191 | equals holds iff a_i - b_i < margin for both components, with no absolute value |
| Vector2.ApproxEqualsScalar | src/math/vector.cpp:193-197 | equals(val) is equals against (val, val) |
| Vector2.ApproxEqualsIsOneSided | src/math/vector.cpp:187-191 | (0, 0) equals (5, 5) within 0.0001, but (5, 5) does not equal (0, 0) |
| Vector2.MaxComponent | src/math/vector.cpp:217-220 | max() is the larger component and is one of them |
| Vector2.MinComponent | src/math/vector.cpp:222-225 | min() is the smaller component and is one of them |
| Vector2.AbsMax | src/math/vector.cpp:227-230 | absMax() is the largest magnitude |
| Vector2.AbsMin | src/math/vector.cpp:232-235 | absMin() is the smallest magnitude |
| Vector2.AbsVec | src/math/vector.cpp:237-240 | component-wise absolute value |
| Vector2.MinVec | src/math/vector.cpp:242-247 | component-wise minimum, one of the two components |
| Vector2.MaxVec | src/math/vector.cpp:249-254 | component-wise maximum, one of the two components |
| Vector2.Normalized | src/math/vector.cpp:256-263 | (0, 0) below the margin, else each component times the length gives back the component |
| Vector2.NormalizedIsUnit | src/math/vector.cpp:256-268 | with an exact sqrt, a vector at or above a positive margin normalizes to unit length and passes isNormalized |
| Vector2.DirAndLength | src/math/vector.cpp:270-281 | ((0, 0), 0) below the margin, else the normalized vector and the length |
| Vector2.ReciprocalVec | src/math/vector.cpp:283-286 | each component times the input's is 1 |
| Vector2.RotateKeepsLength | src/math/vector.cpp:288-295 | when sin^2 + cos^2 = 1 at the angle, rotation keeps the squared length |
| Vector2.Reflect | src/math/vector.cpp:297-301 | this - n (2 (this . n)) |
| Vector2.ReflectTwice | src/math/vector.cpp:297-301 | about a unit normal, reflection negates the normal component and undoes itself |
| Vector2.Refract | src/math/vector.cpp:303-319 | (0, 0) on total internal reflection, else this eta - (eta (v . n) + sqrt k) n |
| Vector2.ToDegrees | src/math/vector.cpp:321-324 | both components scaled by the radians-to-degrees factor |
| Vector2.ToRadians | src/math/vector.cpp:326-329 | both components scaled by the degrees-to-radians factor |
| Vector2.ToVector | src/math/vector.cpp:331-334 | toVector() is (x, y, 0, 0) |
| Vector2.ToVectorZW | src/math/vector.cpp:336-339 | toVector(z, w) is (x, y, z, w) |
| Vector2.ToVectorWith | src/math/vector.cpp:341-344 | toVector(other) is (x, y, other.x, other.y) |
| Vector2.Vector2fVar.Set | src/math/vector.cpp:205-209 | set(x, y) stores both components |
| Vector2.Vector2fVar.SetLane | src/math/vector.cpp:211-215 | set(index, val) changes component index and keeps the other |
| Quaternions.Make | src/math/quaternion.hpp:67-68 | Quaternion(x, y, z, w) holds the four components in order |
| Quaternions.FromAxisAngle | src/math/quaternion.hpp:70-82 | xyz is the axis times sin(angle / 2) and w is cos(angle / 2) |
| Quaternions.AxisAngleIsUnit | src/math/quaternion.hpp:70-82 | a unit axis with sin^2 + cos^2 = 1 gives a unit quaternion |
| Quaternions.Plus | src/math/quaternion.hpp:89-92 | component-wise sum |
| Quaternions.Minus | src/math/quaternion.hpp:100-103 | the difference plus b gives back a |
| Quaternions.Times | src/math/quaternion.hpp:111-114 | operator* is the Hamilton product |
| Quaternions.TimesScalar | src/math/quaternion.hpp:127-130 | every component times amt |
| Quaternions.QuotientScalar | src/math/quaternion.hpp:138-141 | for amt nonzero, multiplying back by amt gives the quaternion |
| Quaternions.Rotate | src/math/quaternion.cpp:37-40 | rotate (and operator* on a vector) is the closed rotation formula on the vector's lanes |
| Quaternions.RotateByIdentity | src/math/quaternion.cpp:37-40 | the identity quaternion leaves every vector unchanged |
| Quaternions.Equal | src/math/quaternion.hpp:149-152 | == holds iff all four components are equal |
| Quaternions.NotEqual | src/math/quaternion.hpp:154-157 | != holds iff every one of the four components differs |
| Quaternions.NotEqualIsNotNegation | src/math/quaternion.hpp:149-157 | == implies not !=, but (0,0,0,1) and (0,0,0,0) satisfy neither |
| Quaternions.ApproxEquals | src/math/quaternion.hpp:159-165 | equals holds iff every lane is within the margin of other or every lane is within the margin of -other |
| Quaternions.ApproxEqualsIgnoresSign | src/math/quaternion.hpp:159-165 | equals against -b is equals against b, and a positive margin accepts q and -q |
| Quaternions.Dot | src/math/quaternion.hpp:167-171 | the four-component dot product |
| Quaternions.LengthSquared | src/math/quaternion.hpp:178-181 | the dot of the quaternion with itself, non-negative |
| Quaternions.Normalized | src/math/quaternion.cpp:3-10 | (0, 0, 0, 1) below the margin, else each component times the length gives back the component |
| Quaternions.NormalizedIsUnit | src/math/quaternion.cpp:3-15 | with an exact sqrt and a positive margin, normalized() is a unit quaternion and passes isNormalized |
| Quaternions.NormalizedOfUnit | src/math/quaternion.cpp:3-10 | a unit quaternion is its own normalization |
| Quaternions.GetAxis | src/math/quaternion.cpp:18-23 | each lane of the axis times sqrt(max(1 - w^2, 0)) gives back the component |
| Quaternions.AxisAndAngle | src/math/quaternion.cpp:30-34 | returns getAxis() and getAngle() |
| Quaternions.AxisAngleRoundTrip | src/math/quaternion.cpp:18-28 | getAxis and getAngle undo the axis-angle constructor when sin(angle / 2) > 0 and acos inverts cos there |
| Quaternions.Conjugate | src/math/quaternion.cpp:66-70 | x, y, z negated and w kept |
| Quaternions.ConjugateInvolution | src/math/quaternion.cpp:66-70 | conjugating twice gives back the quaternion |
| Quaternions.TimesConjugate | src/math/quaternion.cpp:66-70 | q q* is (0, 0, 0, abs(q)^2) |
| Quaternions.HamiltonThenConjugate | src/math/quaternion.cpp:66-70 | (p q) q* is p scaled by abs(q)^2 |
| Quaternions.InverseUndoesProduct | src/math/quaternion.cpp:72-75 | for a unit q, (p q) inverse(q) = p |
| Quaternions.RotateByConjugateUndone | src/math/quaternion.cpp:66-70 | for a unit q, rotating by q* and then by q gives back the vector |
| Quaternions.ConjugateIsUnit | src/math/quaternion.cpp:66-70 | the conjugate of a unit quaternion is a unit quaternion |
| Quaternions.InverseUndoesRotation | src/math/quaternion.cpp:72-75 | for a unit q, rotating by q and by inverse(q) undo each other in either order |
| Quaternions.SignedBlend | src/math/quaternion.hpp:55-62 | lane by lane, the lerp from dir a to b |
| Quaternions.LerpEndpoints | src/math/quaternion.hpp:55-62 | lerp at 1 is b; at 0 it is a, or -a when a . b < 0 |
| Quaternions.SlerpWeights | src/math/quaternion.cpp:42-64 | 1 - t and t near parallel, else sin((1 - t) angle) / sin angle and sin(t angle) / sin angle |
| Quaternions.Slerp | src/math/quaternion.cpp:42-64 | a w1 + dest w2 with the weights of abs(a . dest), w2 negated when a . dest < 0 |
| Quaternions.SlerpLinearEndpoints | src/math/quaternion.cpp:42-64 | near parallel, slerp at 0 is the source and at 1 the destination on the near side |
| Quaternions.SlerpStartsAtSource | src/math/quaternion.cpp:42-64 | on the spherical branch slerp at 0 is the source |
| Quaternions.SlerpIgnoresDestinationSign | src/math/quaternion.cpp:42-64 | away from a . dest = 0, slerp towards -dest equals slerp towards dest |
| Quaternions.GetAxisX | src/math/quaternion.hpp:183-186 | the rotated unit x vector, the first column of the rotation matrix |
| Quaternions.GetAxisY | src/math/quaternion.hpp:188-191 | the rotated unit y vector, the second column of the rotation matrix |
| Quaternions.GetAxisZ | src/math/quaternion.hpp:193-196 | the rotated unit z vector, the third column of the rotation matrix |
| Quaternions.QuaternionVar.AddAssign | src/math/quaternion.hpp:94-98 | += adds other and returns the updated value |
| Quaternions.QuaternionVar.SubAssign | src/math/quaternion.hpp:105-109 | -= subtracts other and returns the updated value |
| Quaternions.QuaternionVar.MulAssign | src/math/quaternion.hpp:116-120 | *= multiplies by other and returns the updated value |
| Quaternions.QuaternionVar.MulScalarAssign | src/math/quaternion.hpp:132-136 | *= amt scales and returns the updated value |
| Quaternions.QuaternionVar.DivScalarAssign | src/math/quaternion.hpp:143-147 | /= amt divides and returns the updated value |
| Matrices.IdentityIsUnit | src/math/matrix.hpp:60-67 | identity() is a unit of operator* on both sides |
| Matrices.TranslateMovesPoints | src/math/matrix.hpp:69-76 | translate(t) moves the point (p, 1) to (p + t, 1) and getTranslation reads (t, 1) back |
| Matrices.ScaleScalesPoints | src/math/matrix.hpp:78-90 | scale(s) multiplies each coordinate by its factor and keeps lane 3; scale(1) changes nothing |
| Matrices.OrthoMapsBoxToCube | src/math/matrix.hpp:92-104 | ortho maps each face of the box [left, right] x [bottom, top] x [near, far] to the matching face of [-1, 1]^3 |
| Matrices.PerspectiveScaleZ | src/math/matrix.hpp:106-118 | the depth factor is 1 when near == far, else far / (far - near) |
| Matrices.PerspectiveDepth | src/math/matrix.hpp:106-118 | perspective puts depth 0 at the near plane and far at the far plane before the divide, and w = z + 1 |
| Matrices.TransformMatrixOf | src/math/matrix.hpp:120-127 | transformMatrix's translation column is (t, 1) |
| Matrices.MatrixSum | src/math/matrix.hpp:140-147 | entry-wise sum |
| Matrices.MatrixScaled | src/math/matrix.hpp:170-178 | every entry times amt |
| Matrices.Transposed | src/math/matrix.hpp:222-239 | entry (i, j) is the original's (j, i) |
| Matrices.TransposeInvolution | src/math/matrix.hpp:222-239 | transposing twice gives back the matrix |
| Matrices.ColumnsScaled | src/math/matrix.hpp:287-293 | applyScale multiplies entry (i, j) by scale lane j |
| Matrices.ColumnOfColumnsScaled | src/math/matrix.hpp:287-293 | column j of the result is column j times scale lane j |
| Matrices.ColumnsScaledTransform | src/math/matrix.hpp:287-293 | transforming by the scaled matrix is transforming the lane-wise scaled vector |
| Matrices.ColumnSquares | src/math/matrix.hpp:259-280 | lane j is the squared norm of column j |
| Matrices.InverseScale | src/math/matrix.hpp:269-280 | lanes 0-2 times the column norms are 1 and lane 3 is 1 |
| Matrices.ScaleOf | src/math/matrix.hpp:259-267 | getScale: lane j < 3 is the norm of column j, lane 3 is 1 |
| Matrices.RemovedScale | src/math/matrix.hpp:269-280 | removeScale leaves column 3 (the translation) unchanged |
| Matrices.RemovedScaleHasUnitColumns | src/math/matrix.hpp:269-280 | with an exact sqrt, removeScale leaves the first three columns of unit length |
| Matrices.GetTranslation | src/math/matrix.hpp:282-285 | lane i is entry (i, 3) |
| Matrices.TransformComposes | src/math/matrix.hpp:157-162 | transforming by B then by A is transforming by A * B |
| Matrices.TransformTransposed | src/math/matrix.hpp:216-239 | transforming by the transpose is multiplying the row vector by the matrix |
| Matrices.TransposedDot | src/math/matrix.hpp:216-239 | (A^T v) . w = v . (A w) |
| Matrices.NormalMatrixKeepsDot | src/math/matrix.cpp:58-62 | for an invertible matrix, a plane moved by toNormalMatrix dotted with a point moved by the matrix gives the original dot |
| Matrices.RotationCase | src/math/matrix.cpp:3-46 | picks one of getRotation's four branches |
| Matrices.RotationOf | src/math/matrix.cpp:3-46 | the result is the identity when the branch quaternion is below the normalize margin |
| Matrices.RotationIsUnit | src/math/matrix.cpp:3-46 | with an exact sqrt, getRotation returns a unit quaternion |
| Matrices.Matrix.constructor | src/math/matrix.hpp:131-138 | Matrix(vecX, vecY, vecZ, vecOffset) holds the four rows in order |
| Matrices.Matrix.Plus | src/math/matrix.hpp:140-147 | operator+ returns the entry-wise sum |
| Matrices.Matrix.AddAssign | src/math/matrix.hpp:149-155 | operator+= stores the entry-wise sum, also when other is this matrix |
| Matrices.Matrix.Times | src/math/matrix.hpp:157-162 | operator* returns the matrix product |
| Matrices.Matrix.MulAssign | src/math/matrix.hpp:164-168 | operator*= stores the product of the old matrices, also when other is this one |
| Matrices.Matrix.TimesScalar | src/math/matrix.hpp:170-178 | operator*(amt) returns every entry times amt |
| Matrices.Matrix.ScaleAssign | src/math/matrix.hpp:180-187 | operator*=(amt) scales every entry |
| Matrices.Matrix.Equal | src/math/matrix.hpp:189-197 | == holds iff all sixteen entries are equal |
| Matrices.Matrix.NotEqual | src/math/matrix.hpp:199-202 | != is the negation of == |
| Matrices.Matrix.ApproxEquals | src/math/matrix.hpp:205-214 | equals holds iff every entry is within the margin |
| Matrices.RowsNearAreEntriesNear | src/math/matrix.hpp:205-214 | row-by-row nearness is entry-by-entry nearness |
| Matrices.Matrix.TransformVec | src/math/matrix.hpp:216-219 | lane i is v dotted with row i |
| Matrices.Matrix.Transpose | src/math/matrix.hpp:222-239 | returns the transpose |
| Matrices.Matrix.Determinant4x4 | src/math/matrix.hpp:241-244 | determinant4x4 is the Leibniz determinant |
| Matrices.Matrix.Determinant3x3 | src/math/matrix.hpp:246-249 | determinant3x3 is the Leibniz determinant of the upper-left block |
| Matrices.Matrix.Inverse | src/math/matrix.hpp:251-256 | for a nonzero determinant, the result times the matrix is the identity |
| Matrices.Matrix.ToNormalMatrix | src/math/matrix.cpp:58-62 | toNormalMatrix is inverse().transpose() |
| Matrices.Matrix.ApplyScale | src/math/matrix.hpp:287-293 | applyScale scales column j by scale lane j and returns the new value |
| Matrices.Matrix.GetScale | src/math/matrix.hpp:259-267 | returns the column norms with 1 in lane 3 |
| Matrices.Matrix.RemoveScale | src/math/matrix.hpp:269-280 | divides each of the first three columns by its norm in place and returns getScale's value |
| Matrices.Matrix.Translation | src/math/matrix.hpp:282-285 | lane i is lane 3 of row i |
| Matrices.Matrix.GetRotation | src/math/matrix.cpp:3-46 | returns the rotation of a scale-free copy; this matrix is unchanged |
| MatrixRotation.UnitColumn0 | src/platform/generic/genericVecmath.hpp:122-151 | column 0 of a unit quaternion's rotation block has unit length |
| MatrixRotation.UnitColumn1 | src/platform/generic/genericVecmath.hpp:122-151 | column 1 of the rotation block has unit length |
| MatrixRotation.UnitColumn2 | src/platform/generic/genericVecmath.hpp:122-151 | column 2 of the rotation block has unit length |
| MatrixRotation.TransformColumns | src/platform/generic/genericVecmath.hpp:122-151 | column j < 3 of transformMatrix(t, q, s) is s[j] times column j of q's rotation block |
| MatrixRotation.ScaleOfColumns | src/math/matrix.hpp:259-280 | for positive scales, getScale of such columns is defined and its inverse lanes are 1 / s[j] |
| MatrixRotation.RemovedScaleIsRotation | src/math/matrix.hpp:269-280 | removeScale of transformMatrix(t, q, s), q unit and s positive, leaves q's rotation block |
| MatrixRotation.BlockRecoversRotation | src/math/matrix.cpp:12-44 | on q's rotation block, whichever of the four branches applies has a nonzero root and yields q or -q once w is negated |
| MatrixRotation.RecoverFromBlock | src/math/matrix.cpp:3-46 | a matrix whose scale-free block is q's rotation gives back q or -q |
| MatrixRotation.GetRotationRecoversRotation | src/test.cpp:94-99 | getRotation(transformMatrix(t, q, s)) is q or -q for a unit q and positive scales, whatever t |
| Frustum.ExtractFrustumPlanes | src/math/matrix.cpp:48-56 | planes[k] becomes the normalized plane of row 3 plus or minus row 2, 1, 0 for k = 0..5, and nothing past planes[5] changes |
| Frustum.FrustumRowDot | src/math/matrix.cpp:48-56 | the unnormalized plane k at v is clip bound k of M v (w + z, w - z, w + y, ...) |
| Frustum.FrustumPlaneSide | src/math/matrix.cpp:48-56 | with an exact sqrt, v is on the inner side of plane k exactly when clip bound k holds |
| Frustum.InsideFrustum | src/math/matrix.cpp:48-56 | v is inside all six planes iff -w <= x, y, z <= w in clip space |
| Planes.FromNormal | src/math/plane.hpp:64-65 | Plane(normal, w) keeps the normal's xyz and puts w in lane 3 |
| Planes.Dot | src/math/plane.hpp:67-70 | dot(point) is n . point + w, the point taken with lane 3 = 1 |
| Planes.DotVector | src/math/plane.hpp:72-75 | all four lanes; for lane 3 = 1 it is dot(point) |
| Planes.DotPlane | src/math/plane.hpp:77-80 | the symmetric four-lane dot of two planes |
| Planes.DotExamples | src/test.cpp:131-136 | the planes x = 1, y = 1, z = 1 give 1, -1, -1 at (2, 0, 0) |
| Planes.AxisPlanesFromNormals | src/test.cpp:131-133 | the test's three planes built from unit normals are x = 1, y = 1, z = 1 |
| Planes.Normalized | src/math/plane.hpp:82-86 | all four lanes divided by the normal's length |
| Planes.NormalizedIsNormalized | src/math/plane.hpp:82-91 | with an exact sqrt the normalized plane has a unit normal and passes isNormalized |
| Planes.NormalizedKeepsPoints | src/math/plane.hpp:82-86 | every dotVector value is divided by the normal's length, so the plane's points are kept |
| Planes.GetNormal | src/math/plane.hpp:93-96 | getNormal is the normalized plane's lanes |
| Planes.GetNormalIsUnit | src/math/plane.hpp:93-96 | with an exact sqrt the normal has length 1 |
| Planes.UnitPlaneIsNormal | src/math/plane.hpp:82-96 | a plane with a unit normal is its own normal vector |
| Planes.IntersectRay | src/math/plane.hpp:103-106 | t times (dir . n) is -dot(start), n the unit normal |
| Planes.IntersectRayHitsPlane | src/math/plane.hpp:103-106 | for a unit-normal plane, start + t dir lies on the plane |
| Planes.IntersectLine | src/math/plane.hpp:98-101 | intersectRay along end - start |
| Planes.IntersectLineHitsPlane | src/math/plane.hpp:98-101 | for a unit-normal plane, start + t (end - start) lies on the plane |
| Planes.IntersectLineExample | src/test.cpp:150-153 | x = 1 meets the segment (0,0,0)-(2,0,0) at t = 1/2 |
| Planes.IntersectRayExample | src/math/plane.hpp:103-106 | the ray from the origin along (2,0,0) meets x = 1 at t = 1/2 |
| Planes.Reflect | src/math/plane.hpp:108-113 | the point with lane 3 = 1 minus the plane times twice the point's dot |
| Planes.ReflectNegatesDot | src/math/plane.hpp:108-113 | for a unit normal the reflection lies as far on the other side |
| Planes.ReflectTwice | src/math/plane.hpp:108-113 | for a unit normal reflecting twice gives back x, y and z |
| Planes.ReflectFixesPlanePoints | src/math/plane.hpp:108-113 | a point on the plane is its own reflection (lane 3 becoming 1) |
| Planes.Abs | src/math/plane.hpp:115-118 | every lane's absolute value |
| Planes.Negated | src/math/plane.hpp:120-123 | the negation adds to zero and negates every point's dot |
| Planes.Quotient | src/math/plane.hpp:140-144 | for a divisor with no zero lane, multiplying back gives the plane |
| Planes.QuotientScalar | src/math/plane.hpp:176-179 | for amt nonzero, multiplying back by amt gives the plane |
| Planes.ScaledPlaneKeepsPoints | src/math/plane.hpp:171-174 | scaling a plane scales every point's dot, so nonzero scaling keeps its points |
| Planes.Equal | src/math/plane.hpp:194-197 | == holds iff all four lanes are equal |
| Planes.NotEqual | src/math/plane.hpp:199-202 | != holds iff every one of the four lanes differs |
| Planes.NotEqualIsNotNegation | src/math/plane.hpp:194-202 | two planes differing in one lane are neither == nor != |
| Planes.ApproxEquals | src/math/plane.hpp:204-207 | equals holds iff every lane is within the margin |
| Planes.IntersectionPoint | src/math/plane.cpp:9-26 | the point -(1/det)(w0 c12 + w1 c20 + w2 c01) lies on all three planes |
| Planes.IntersectPlanes | src/math/plane.cpp:9-26 | returns false and leaves the point alone iff det^2 is below the margin; otherwise writes the common point |
| Planes.AxisDet | src/test.cpp:131-141 | the test's axis planes have det = 1, so the default margin does not reject them |
| Planes.AxisPoint | src/test.cpp:131-141 | the common point of x = 1, y = 1, z = 1 is (1, 1, 1) |
| Planes.TransformPlaneKeepsIncidence | src/math/plane.cpp:4-7 | for an invertible transform, a point on the plane moves onto the transformed plane, and only such points do |
| Planes.PlaneVar.AddAssign | src/math/plane.hpp:146-150 | += adds lane-wise and returns the updated value |
| Planes.PlaneVar.SubAssign | src/math/plane.hpp:152-156 | -= subtracts lane-wise and returns the updated value |
| Planes.PlaneVar.MulAssign | src/math/plane.hpp:158-162 | *= multiplies lane-wise and returns the updated value |
| Planes.PlaneVar.DivAssign | src/math/plane.hpp:164-168 | /= divides lane-wise and returns the updated value |
| Planes.PlaneVar.MulScalarAssign | src/math/plane.hpp:181-185 | *= val scales every lane |
| Planes.PlaneVar.DivScalarAssign | src/math/plane.hpp:187-191 | /= val multiplies by reciprocal(val) |
| Boxes.Intersects | src/math/aabb.hpp:53-58 | intersects holds iff on each of x, y, z each box's min lies strictly below the other's max |
| Boxes.TouchingBoxesDoNotIntersect | src/test.cpp:46-49 | the test is symmetric and boxes that touch on one axis do not intersect |
| Boxes.IntersectsIffOverlapNonEmpty | src/math/aabb.hpp:53-58 | for boxes with interiors, intersects holds iff their overlap has an interior |
| Boxes.ContainsPoint | src/math/aabb.hpp:113-117 | contains(point) holds iff the point is strictly inside on x, y and z |
| Boxes.ContainsBox | src/math/aabb.hpp:119-126 | contains(other) holds iff both corners of other are strictly inside |
| Boxes.NeverContainsItself | src/test.cpp:56 | no box contains itself or either of its own corners |
| Boxes.ContainedBoxPoints | src/math/aabb.hpp:119-126 | every point of a contained box, boundary included, is strictly inside the container |
| Boxes.OverlapIsIntersection | src/math/aabb.hpp:107-111 | the overlap holds exactly the points both boxes hold, open or closed |
| Boxes.AddPointEncloses | src/math/aabb.hpp:128-131 | the grown box holds the new point and every point the old box held |
| Boxes.AddBoxEncloses | src/math/aabb.hpp:133-136 | the union box holds every point either box held |
| Boxes.CenterAndExtents | src/math/aabb.hpp:95-99 | getCenterAndExtents returns getCenter's center and getExtents' extents |
| Boxes.Volume | src/math/aabb.hpp:101-105 | the volume is 8 times the product of the half-widths |
| Boxes.TranslateMovesCenter | src/math/aabb.hpp:138-141 | translate moves the center by amt and keeps the extents |
| Boxes.MoveToCenters | src/math/aabb.hpp:70-73 | after moveTo the center is the destination and the extents are kept |
| Boxes.ExpandGrowsExtents | src/math/aabb.hpp:60-68 | expand keeps the center and adds amt to the extents |
| Boxes.ScaleFromOriginScales | src/math/aabb.hpp:143-146 | scaling from the origin scales the center and the extents |
| Boxes.ScaleFromCenterScales | src/math/aabb.hpp:148-154 | scaling from the center keeps the center and scales the extents |
| Boxes.Equal | src/math/aabb.hpp:156-159 | == holds iff both corners agree on x, y and z |
| Boxes.NotEqual | src/math/aabb.hpp:161-164 | != holds iff both corners differ, each on some axis |
| Boxes.NotEqualIsNotNegation | src/math/aabb.hpp:156-164 | boxes sharing one corner are neither == nor != |
| Boxes.ApproxEquals | src/math/aabb.hpp:166-171 | equals holds iff both corners are within the margin on x, y and z |
| Boxes.BoundsEnclose | src/math/aabb.cpp:3-16 | the box built from points holds every one of them |
| Boxes.BoundsAttained | src/math/aabb.cpp:3-16 | each coordinate of each corner is the coordinate of some input point |
| Boxes.FromPoints | src/math/aabb.cpp:3-16 | zero points give the zero box; otherwise the result is the bounding box of the first amt points |
| Boxes.StrideOffsets | src/math/aabb.cpp:18-36 | point 1 is read at offset 3 whatever the stride, later points stride + 3 apart |
| Boxes.FromFloats | src/math/aabb.cpp:18-36 | the bounding box of the points read at those offsets |
| Boxes.TransformBox | src/math/aabb.cpp:38-51 | returns the box transform computes, in which the abs loop leaves absMatrix equal to the input |
| Boxes.TransformedBoxInverts | src/math/aabb.cpp:38-51 | as written, a matrix that mirrors x turns a box with an interior into one with min.x > max.x that holds no point |
| Boxes.TransformedBoxEncloses | src/math/aabb.cpp:38-51 | the intended box, with absolute row entries, holds the image of every point of the original |
| Boxes.IntersectRay | src/math/aabb.cpp:53-89 | returns true iff the latest slab entry is at most the earliest exit; point1 and point2 are written only then, with the entry and exit |
| Boxes.RayInsideBox | src/math/aabb.cpp:53-89 | for an ordered box, start + t dir lies in the box iff t is between the entry and the exit |
| Boxes.IntersectLine | src/math/aabb.cpp:91-97 | true iff the ray test along the normalized direction passes and the entry squared is below the squared length |
| Boxes.ClipSegment | src/math/aabb.cpp:91-97 | the ray test along n, then the entry squared against len2 |
| Boxes.LineResult | src/math/aabb.cpp:91-97 | the line test holds iff the ray test does and the entry lies before end |
| Boxes.ClipSegmentMeetsLine | src/math/aabb.cpp:91-97 | when the test passes, the point at the entry parameter is in the box and that parameter squared is below len2 |
| Boxes.ClipSegmentIntendedMeetsBox | src/math/aabb.cpp:91-97 | the intended test (entry <= exit, entry <= len, exit >= 0) holds iff the segment meets the box |
| Boxes.IntersectLineIntendedMeetsBox | src/math/aabb.cpp:91-97 | with an exact sqrt, the intended line test holds iff some point of the segment from start to end lies in the box |
| BoxLineTests.DiagonalDirection | src/math/aabb.cpp:91-97 | the segment from the origin to (2, 2, 1) has length 3 and direction (2/3, 2/3, 1/3) |
| BoxLineTests.BoxBehindStartCounts | src/math/aabb.cpp:91-97 | a box wholly behind the start passes intersectLine's test, though no point of the segment is in it |
| BoxLineTests.StartInsideBoxMissed | src/math/aabb.cpp:91-97 | a box holding the start fails intersectLine's test, though the segment meets it |
| Spheres.FromCenterRadius | src/math/sphere.hpp:10-11 | the sphere built from a center and a radius has that center and that radius |
| Spheres.PackingRoundTrip | src/math/sphere.hpp:66-74 | rebuilding a sphere from getCenter and getRadius gives the same sphere, and toVector packs the center in x, y, z and the radius in w |
| Spheres.IntersectsSymmetric | src/math/sphere.hpp:43-48 | intersects gives the same answer with the two spheres swapped |
| Spheres.IntersectsIffDistance | src/math/sphere.hpp:43-48 | with an exact square root, intersects holds iff the distance between the centers is below the sum of the radii plus the margin |
| Spheres.ContainsPointIffDistance | src/math/sphere.hpp:76-80 | with an exact square root and a nonnegative radius plus margin, contains(point) holds iff the point's distance to the center is below radius plus margin |
| Spheres.ContainedSpherePoints | src/math/sphere.hpp:82-94 | when contains(other) holds with a nonnegative margin, every point of other's closed ball is contained in this sphere |
| Spheres.Expand | src/math/sphere.hpp:50-53 | expand keeps the center and adds the distance to the radius |
| Spheres.ExpandIsMargin | src/math/sphere.hpp:43-53 | intersecting or containing with an expanded sphere is the same as using the original sphere with the distance added to the margin |
| Spheres.MoveTo | src/math/sphere.hpp:55-58 | moveTo puts the center at the destination and keeps the radius |
| Spheres.MoveToLastWins | src/math/sphere.hpp:55-58 | two moves in a row give the same sphere as the second move alone |
| Spheres.Translate | src/math/sphere.hpp:96-99 | translate adds the amount to the center and keeps the radius |
| Spheres.TranslateKeepsContainment | src/math/sphere.hpp:76-80 | a point translated with the sphere is contained in the translated sphere iff it was contained before |
| Spheres.ScaleFromCenter | src/math/sphere.hpp:101-104 | scaleFromCenter keeps the center and multiplies the radius |
| Spheres.ScaleFromOrigin | src/math/sphere.hpp:106-109 | scaleFromOrigin multiplies the center and the radius by the amount |
| Spheres.ScaleFromOriginKeepsContainment | src/math/sphere.hpp:106-109 | for a positive factor, a scaled point is contained in the scaled sphere with the scaled margin iff the original point was contained |
| Spheres.Volume | src/math/sphere.hpp:60-64 | getVolume is nonnegative for a nonnegative radius |
| Spheres.VolumeScales | src/math/sphere.hpp:60-64 | scaling a sphere either way by k multiplies its volume by k cubed |
| Spheres.Equal | src/math/sphere.hpp:116-119 | == holds iff the two spheres are identical |
| Spheres.NotEqual | src/math/sphere.hpp:121-124 | != holds iff every one of the four lanes differs |
| Spheres.NotEqualIsNotNegation | src/math/sphere.hpp:116-124 | two spheres that differ only in the radius are neither == nor != |
| Spheres.ApproxEquals | src/math/sphere.hpp:126-129 | equals holds iff every lane differs by less than the margin |
| Spheres.EqualImpliesApproxEquals | src/math/sphere.hpp:116-129 | equal spheres are equal within any positive margin |
| Spheres.TransformByTranslation | src/math/sphere.cpp:79-89 | transforming by a translation matrix moves the center like translate and keeps the radius |
| Spheres.TransformByUniformScale | src/math/sphere.cpp:79-89 | transforming by a uniform scale of k >= 0 agrees with scaleFromOrigin(k) |
| Spheres.RowNormRadiusTooSmall | src/math/sphere.cpp:79-89 | for a rotation followed by a stretch along x, a surface point of the sphere is mapped outside the transformed sphere, because the radius uses row norms instead of column norms |
| Spheres.TransformSphereIntendedEncloses | src/math/sphere.cpp:79-89 | with column norms, for a matrix with orthogonal columns the image of every point of the ball lies in the transformed ball |
| Spheres.MeanOmitsFirstPoint | src/math/sphere.cpp:19-27 | when all points are equal to p, the mean candidate times n is (n - 1) p, so the mean differs from p whenever p's coordinate is nonzero |
| Spheres.CentroidOfEqualPoints | src/math/sphere.cpp:19-27 | the intended centroid, summing every point, of points all equal to p is p |
| Spheres.BoundingSphereIntendedEncloses | src/math/sphere.cpp:10-39 | the bounding sphere built with the intended centroid holds every input point in its closed ball and contains it with any positive margin |
| Spheres.MaxDistSquaredBounds | src/math/sphere.cpp:28-33 | the running maximum of squared distances is nonnegative and at least the squared distance of every point |
| Spheres.MaxDistSquaredAttained | src/math/sphere.cpp:28-33 | for a nonempty point list the maximum squared distance is that of some point |
| Spheres.BestOfTwoEncloses | src/math/sphere.cpp:34-38 | whichever candidate center is chosen, every point lies in the closed ball of the chosen sphere |
| Spheres.BestOfTwoIsTighter | src/math/sphere.cpp:34-38 | the chosen radius is the square root of the smaller of the two maxima, and the center is the mean candidate exactly when its maximum is strictly smaller |
| Spheres.BoundingSphereEncloses | src/math/sphere.cpp:10-39 | the sphere built from points as written holds every input point in its closed ball, despite the mean's missing first point |
| Spheres.FromPoints | src/math/sphere.cpp:10-39 | the constructor's loops compute the bounding sphere of the first amt points, and the zero sphere for none |
| Spheres.ExtentsAndSum | src/math/sphere.cpp:16-25 | the first loop yields the bounds of the points and the sum of all points but the first |
| Spheres.MaxDistances | src/math/sphere.cpp:28-33 | the second loop yields the largest squared distance from each candidate center |
| Spheres.FromFloats | src/math/sphere.cpp:41-77 | the constructor on packed floats computes the bounding sphere of the points read three floats at a time |
| Spheres.ExtentsAndSumFloats | src/math/sphere.cpp:47-59 | the first loop over packed floats yields the bounds and the sum of all points but the first |
| Spheres.MaxDistancesFloats | src/math/sphere.cpp:62-70 | the second loop over packed floats yields the largest squared distance from each candidate center |
| SphereMerge.MergedEncloses | src/math/sphere.cpp:96-105 | when neither sphere contains the other and the centers differ, the merged sphere contains every point of both closed balls |
| SphereMerge.KeptEncloses | src/math/sphere.cpp:93-94 | when this sphere contains other, keeping it contains every point of both balls |
| SphereMerge.AddSphereEncloses | src/math/sphere.cpp:91-106 | for a nonzero radius and a result that is a number, addSphere contains every point of both closed balls |
| SphereMerge.AddPointEncloses | src/math/sphere.hpp:111-114 | for a nonzero radius and a result that is a number, addPoint contains the new point and every point of the old ball |
| SphereMerge.ZeroRadiusDropsThis | src/math/sphere.cpp:95-96 | a radius-0 sphere is replaced by other, losing its center whenever other does not contain it |
| SphereMerge.CoincidentCentersNotANumber | src/math/sphere.cpp:97-99 | equal centers with radii closer than the margin, and neither containing the other, lead to a division by a zero distance |
| SphereMerge.ConcentricEncloses | src/math/sphere.cpp:91-106 | for coincident centers the larger sphere contains every point of both balls |
| SphereMerge.AddSphereIntendedEncloses | src/math/sphere.cpp:91-106 | the intended addSphere, without the radius-0 shortcut and keeping the larger of two concentric spheres, always contains every point of both balls |
| SphereMerge.IntendedAgrees | src/math/sphere.cpp:91-106 | for a nonzero radius and a result that is a number, the intended addSphere returns what the written one does |
| SphereMerge.AddPointIntendedEncloses | src/math/sphere.hpp:111-114 | addPoint on the intended addSphere contains the new point and every point of the old ball |
| SphereRays.IntersectRay | src/math/sphere.cpp:109-123 | the ray misses iff the squared distance from the center to the ray exceeds the squared radius, the two hit parameters are centered on the closest approach, and with an exact square root point1 <= point2 |
| SphereRays.DistanceAlongLine | src/math/sphere.cpp:109-123 | for a unit direction, the squared distance from the center to the point at parameter t is (t - along)^2 plus the squared distance to the ray |
| SphereRays.HitPointsOnSurface | src/math/sphere.cpp:109-123 | for a unit direction and an exact square root, both hit points lie on the sphere |
| SphereRays.MissClearsBall | src/math/sphere.cpp:114-116 | for a unit direction, when the ray misses, every point of its line lies outside the closed ball |
| SphereRays.IntersectLine | src/math/sphere.cpp:125-131 | intersectLine holds only if the ray along the segment's normalized direction hits the sphere |
| SphereRays.LineDirectionIsUnit | src/math/sphere.cpp:125-131 | with an exact square root, the normalized segment direction has length 1 |
| SphereRays.IntersectLineIntendedMeetsBall | src/math/sphere.cpp:125-131 | the intended segment test holds iff some point of the segment lies in the closed ball |
| SphereRayTests.RayThroughCenter | src/test.cpp:213-215 | the ray from (0,0,-3) along +z meets the sphere of radius 0.5 at the origin at 2.5 and 3.5 |
| SphereRayTests.RayGrazing | src/test.cpp:217-219 | the ray from (-0.5,0,-3) along +z grazes the sphere with both parameters 3 |
| SphereRayTests.RayMissing | src/test.cpp:220 | the ray from (0.6,0,-3) along +z misses the sphere |
| SphereRayTests.LineThroughCenter | src/test.cpp:222 | the segment from (0,0,-3) to (0,0,3) intersects the sphere |
| SphereRayTests.LineAtEdge | src/test.cpp:226 | the segment from (0.5,0,-3) to (0.5,0,3) touches the sphere and counts as intersecting |
| SphereRayTests.LineMissing | src/test.cpp:225 | the segment from (0.6,0,-3) to (0.6,0,3) does not intersect the sphere |
| SphereRayTests.LineBehindStartCounts | src/math/sphere.cpp:125-131 | a sphere wholly behind the start of a segment is reported as intersecting, while no point of the segment lies in its ball |
| SphereTests.ApartSpheres | src/test.cpp:17 | unit spheres at the origin and at (0,3,0) do not intersect |
| SphereTests.TouchingSpheresWithoutMargin | src/test.cpp:18 | touching unit spheres do not intersect with a zero margin |
| SphereTests.TouchingSpheres | src/test.cpp:19 | touching unit spheres intersect with the default margin |
| SphereTests.OverlappingSpheres | src/test.cpp:20 | the unit spheres at the origin and at (1,0,0) intersect |
| SphereTests.OverlappingLargerSphere | src/test.cpp:21 | the unit sphere and the radius-2 sphere at (1,0,0) intersect |
| SphereTests.NestedSpheres | src/test.cpp:22 | the radius-2 sphere at (1,0,0) contains the unit sphere at the origin |
| SphereTests.NestedSpheresConverse | src/test.cpp:23 | the unit sphere does not contain the radius-2 sphere |
| SphereTests.PointOnUnitSphere | src/test.cpp:24 | the unit sphere contains (0,1,0) with the default margin |
| SphereTests.PointOutsideUnitSphere | src/test.cpp:25 | the unit sphere does not contain (-1.1,0,0) |
| SphereTests.PointOfMovedSphere | src/test.cpp:26 | the unit sphere moved to (-1,0,0) contains (-1.1,0,0) |
| Intersects.FullyWithoutPartially | src/math/intersects.hpp:8-15 | when the center's distance and the extents' reach are both 0, the fast test reports fully but not partially inside |
| Intersects.FastFullyImpliesPartially | src/math/intersects.hpp:8-15 | for a positive reach, fully inside implies partially inside |
| Intersects.HalfWidthIncludesOffset | src/math/intersects.hpp:17-22 | the reach computed from the absolute plane and the extents with w = 1 is the box's true half-width along the normal plus the absolute plane offset |
| Intersects.SidesValues | src/math/intersects.hpp:17-22 | intersectPlaneAABB's flags compare the center's signed distance with that widened reach |
| Intersects.IntendedSidesValues | src/math/intersects.hpp:17-22 | the intended flags compare the center's signed distance with the box's half-width along the normal |
| Intersects.BoxDotRange | src/math/intersects.hpp:17-22 | every point of a box has a signed distance within the center's distance plus or minus the half-width |
| Intersects.CornerInBox | src/math/intersects.hpp:17-22 | the corner chosen toward or away from the normal is a point of an ordered box |
| Intersects.CornerDot | src/math/intersects.hpp:17-22 | that corner's signed distance is exactly the center's distance plus or minus the half-width |
| Intersects.IntendedClassifiesBox | src/math/intersects.hpp:17-22 | the intended flags hold iff every point of the box is on the nonnegative side, and iff some point is strictly on the positive side |
| Intersects.IntendedIntersectStraddles | src/math/intersects.hpp:17-29 | the intended intersectPlaneAABB holds iff the box has points strictly on both sides of the plane |
| Intersects.AsWrittenWidensHalfWidth | src/math/intersects.hpp:17-22 | the written flags are more cautious than the intended ones, and the two agree for a plane through the origin |
| Intersects.SphereSidesValues | src/math/intersects.hpp:31-42 | intersectPlaneSphere's flags compare the center's signed distance with plus and minus the radius |
| Intersects.SphereFullyImpliesPartially | src/math/intersects.hpp:31-36 | for a nonnegative radius, fully inside implies partially inside |
| Intersects.BallDotRange | src/math/intersects.hpp:31-42 | for a unit normal, every point of the ball has a signed distance within the center's distance plus or minus the radius |
| Intersects.PlaneSphereClassifies | src/math/intersects.hpp:31-42 | for a unit normal, fully inside holds iff every point of the ball is on the nonnegative side, and partially inside iff some point is |
| Intersects.ClosestFacts | src/math/intersects.hpp:51-57 | the per-axis overshoot is the offset from a point to its closest point in the box, and that closest point is in the box |
| Intersects.OvershootBelow | src/math/intersects.hpp:51-57 | the squared overshoot is at most the squared distance to any point of the box |
| Intersects.FastValue | src/math/intersects.hpp:51-57 | intersectSphereAABBFast holds iff the squared overshoot is below the squared radius |
| Intersects.SphereAABBValue | src/math/intersects.hpp:60-67 | intersectSphereAABB holds iff the squared overshoot of the center is below the squared radius |
| Intersects.SphereAABBMeaning | src/math/intersects.hpp:51-67 | for an ordered box, intersectSphereAABB holds iff some point of the box lies strictly within the radius of the center |
| Intersects.CenterInsideBox | src/math/intersects.hpp:51-67 | a sphere whose center is in the box intersects it iff its radius is nonzero |
| IntersectsTests.PlaneBoxInFront | src/test.cpp:180-181 | the box [1,2]^3 is fully and partially in front of the plane x = 0 |
| IntersectsTests.PlaneBoxBehind | src/test.cpp:182-183 | the box [-2,-1]^3 is neither fully nor partially in front |
| IntersectsTests.PlaneBoxAcross | src/test.cpp:184-185 | the box [-1,1]^3 is partially but not fully in front, so it intersects the plane |
| IntersectsTests.PlaneSphereInFront | src/test.cpp:191-192 | the sphere at (1,1,1) of radius 0.5 is fully in front of the plane |
| IntersectsTests.PlaneSphereBehind | src/test.cpp:193-194 | the sphere at (-1,-1,-1) is wholly behind |
| IntersectsTests.PlaneSphereAcross | src/test.cpp:195-196 | the sphere at the origin straddles the plane |
| IntersectsTests.SphereOneBoxInFront | src/test.cpp:198 | sphere1 intersects aabb1 |
| IntersectsTests.SphereOneBoxBehind | src/test.cpp:199 | sphere1 does not intersect aabb2 |
| IntersectsTests.SphereOneBoxAcross | src/test.cpp:200 | sphere1 intersects aabb3 |
| IntersectsTests.SphereTwoBoxInFront | src/test.cpp:201 | sphere2 does not intersect aabb1 |
| IntersectsTests.SphereTwoBoxBehind | src/test.cpp:202 | sphere2 intersects aabb2 |
| IntersectsTests.SphereTwoBoxAcross | src/test.cpp:203 | sphere2 intersects aabb3 |
| IntersectsTests.SphereThreeBoxInFront | src/test.cpp:204 | sphere3 does not intersect aabb1 |
| IntersectsTests.SphereThreeBoxBehind | src/test.cpp:205 | sphere3 does not intersect aabb2 |
| IntersectsTests.SphereThreeBoxAcross | src/test.cpp:206 | sphere3 intersects aabb3 |
| IntersectsTests.SphereFourMissesBoxFour | src/test.cpp:208-210 | the sphere at (0,1.2,0) of radius 0.5 misses the thin box below it |
| IntersectsTests.OffsetPlaneStraddlesDistantBox | src/math/intersects.hpp:17-22 | the plane x = 5 is reported to cross the box [6,7]^3, which lies wholly in front of it, while the intended test finds it fully in front |
| Transforms.FromTranslation | src/math/transform.hpp:15-18 | Transform(translation) has that translation and the default rotation and scale |
| Transforms.FromRotation | src/math/transform.hpp:20-23 | Transform(rotation) has that rotation and the default translation and scale |
| Transforms.TransformVec3 | src/math/transform.hpp:118-121 | transform(vector, w) returns a vector with w = 0 |
| Transforms.TransformVector | src/math/transform.hpp:123-126 | transform(vector) is transform(xyz, w) with the vector's own w |
| Transforms.InverseTransformVec3 | src/math/transform.hpp:128-131 | inverseTransform(vector, w) returns a vector with w = 0 |
| Transforms.InverseTransformVector | src/math/transform.hpp:133-136 | inverseTransform(vector) is inverseTransform(xyz, w) with the vector's own w |
| Transforms.DefaultIsIdentity | src/math/transform.hpp:10-13 | the default transform maps every vector to itself on x, y, z |
| Transforms.DefaultMatrix | src/math/transform.hpp:61-64 | the default transform's matrix is the identity |
| Transforms.DefaultDeterminant | src/math/transform.hpp:61-64 | the default transform's matrix has determinant 1 |
| Transforms.ToMatrix | src/math/transform.hpp:61-64 | toMatrix's last row is (0, 0, 0, 1) and its last column holds the translation |
| Transforms.RotationOnly | src/math/matrix.hpp:120-127 | the rotation block alone has no translation and last row (0, 0, 0, 1) |
| Transforms.ToMatrixEntries | src/math/transform.hpp:61-64 | each of toMatrix's first three rows is the rotation row scaled lane by lane by the scale, with the translation in w |
| Transforms.BlockRotates | src/math/transform.hpp:61-64 | the rotation block applied to a w = 0 vector rotates it by the quaternion |
| Transforms.ToMatrixAgrees | src/math/transform.hpp:61-64 | applying toMatrix to (v, w) gives transform(v, w) on x, y, z |
| Transforms.ToMatrixDeterminant | src/math/transform.hpp:61-64 | for a unit rotation, toMatrix's determinant is the product of the scales, nonzero when every scale is |
| Transforms.Inverse | src/math/transform.cpp:3-19 | inverse is a left inverse of toMatrix for a nonsingular matrix |
| Transforms.InverseTransformUndoesTransform | src/test.cpp:117 | for a unit rotation and nonzero scales, inverseTransform undoes transform on x, y, z |
| Transforms.TransformUndoesInverseTransform | src/test.cpp:117 | for a unit rotation and nonzero scales, transform undoes inverseTransform on x, y, z |
| Transforms.Plus | src/math/transform.hpp:76-80 | operator+ adds the translations, the rotations and the scales lane by lane |
| Transforms.Times | src/math/transform.hpp:90-94 | operator* multiplies translations and scales lane by lane and composes the rotations by the Hamilton product |
| Transforms.TimesScalar | src/math/transform.hpp:104-108 | operator*(float) multiplies every part by the factor |
| Transforms.PlusProperties | src/math/transform.hpp:76-80 | a transform added to itself is it times 2, and operator+ commutes |
| Transforms.TimesIsNotComposition | src/math/transform.hpp:90-94 | multiplying by the default transform zeroes the translation instead of keeping it, so operator* is not composition |
| Transforms.TransformVar.constructor | src/math/transform.hpp:25-29 | the new object holds the given transform |
| Transforms.TransformVar.Set | src/math/transform.hpp:154-160 | set replaces all three parts |
| Transforms.TransformVar.SetTranslation | src/math/transform.hpp:162-165 | setTranslation replaces the translation and nothing else |
| Transforms.TransformVar.SetRotation | src/math/transform.hpp:167-170 | setRotation replaces the rotation and nothing else |
| Transforms.TransformVar.SetScale | src/math/transform.hpp:172-175 | setScale replaces the scale and nothing else |
| Transforms.TransformVar.AddAssign | src/math/transform.hpp:82-88 | += stores the sum and returns it |
| Transforms.TransformVar.MulAssign | src/math/transform.hpp:96-102 | *= stores the product and returns it |
| Transforms.TransformVar.MulScalarAssign | src/math/transform.hpp:110-116 | *=(float) stores the scaled transform and returns it |
| Transforms.TransformVar.NormalizeRotation | src/math/transform.hpp:66-69 | normalizeRotation replaces the rotation by its normalized form and nothing else |
| Transforms.TransformVar.IsRotationNormalized | src/math/transform.hpp:71-74 | isRotationNormalized holds iff the rotation's squared length is within the margin of 1 |
| Colors.Make | src/math/color.hpp:48-49 | Color(r, g, b, a) stores the four channels in order, with alpha 1 by default |
| Colors.NamedColorsOpaque | src/math/color.cpp:3-11 | every named color is opaque and TRANSPARENT is all zeros |
| Colors.SecondaryColors | src/math/color.cpp:3-11 | cyan, yellow and magenta are the sums of two primaries on red, green and blue |
| Colors.Plus | src/math/color.hpp:65-68 | operator+ adds lane by lane, and subtracting the second operand gives the first back |
| Colors.Minus | src/math/color.hpp:76-79 | operator- subtracts lane by lane |
| Colors.Times | src/math/color.hpp:87-90 | operator* multiplies lane by lane |
| Colors.Quotient | src/math/color.hpp:98-101 | for a divisor without zero lanes, operator/ gives the color that times the divisor is the dividend |
| Colors.Negated | src/math/color.hpp:59-63 | unary minus replaces each of red, green and blue by one minus itself and keeps alpha |
| Colors.NegatedTwice | src/math/color.hpp:59-63 | negating twice gives the color back |
| Colors.NegatedGreys | src/math/color.hpp:59-63 | black and white negate to each other and TRANSPARENT to transparent white |
| Colors.NegatedPrimaries | src/math/color.hpp:59-63 | red, green and blue negate to cyan, magenta and yellow |
| Colors.Equal | src/math/color.hpp:109-112 | == holds iff the colors are identical |
| Colors.NotEqual | src/math/color.hpp:114-117 | != holds iff every lane differs |
| Colors.NotEqualIsNotNegation | src/math/color.hpp:109-117 | black and TRANSPARENT are neither == nor !=, and equal colors are never != |
| Colors.ApproxEquals | src/math/color.hpp:119-122 | equals holds iff every lane differs by less than the margin |
| Colors.NearMask | src/math/color.hpp:119-122 | the notEquals mask is all zero iff every lane is within the margin |
| Colors.ApproxEqualsReflexiveSymmetric | src/math/color.hpp:119-122 | for a positive margin equals is reflexive, and it is symmetric for any margin |
| Colors.Luminance | src/math/color.hpp:125-128 | getLuminance weighs red, green and blue by 0.2125, 0.7154 and 0.0721 and ignores alpha |
| Colors.LuminanceOfGreys | src/math/color.hpp:125-128 | white has luminance 1, black and TRANSPARENT 0 |
| Colors.LuminanceOfPrimaries | src/math/color.hpp:125-128 | each primary's luminance is its own weight |
| Colors.LuminanceLinear | src/math/color.hpp:125-128 | luminance ignores alpha, is additive and scales with the color |
| Colors.ContrastAdjust | src/math/color.hpp:156-161 | contrastAdjust interpolates each of red, green and blue from 0.5 by the contrast and keeps alpha |
| Colors.SaturationAdjust | src/math/color.hpp:163-168 | saturationAdjust interpolates each of red, green and blue from the luminance by the saturation and keeps alpha |
| Colors.VarianceAdjust | src/math/color.hpp:170-175 | varianceAdjust scales red, green and blue and keeps alpha |
| Colors.AdjustmentsIdentity | src/math/color.hpp:156-175 | each adjustment by 1 leaves the color unchanged |
| Colors.AdjustmentsAtZero | src/math/color.hpp:156-175 | each adjustment by 0 gives mid grey, the luminance grey or black, keeping alpha |
| Colors.AdjustmentsAndLuminance | src/math/color.hpp:163-175 | saturationAdjust keeps the luminance and varianceAdjust scales it |
| Colors.Level | src/math/color.hpp:148-151 | the rounded clamped level of a channel lies in 0..255 |
| Colors.LevelNearest | src/math/color.hpp:148-151 | the level is within 0.5 of the clamped scaled channel |
| Colors.LevelOfWhole | src/math/color.hpp:148-151 | a whole level in 0..255 rounds to itself |
| Colors.ChannelByte | src/math/color.hpp:146-151 | each channel's byte lies in 0..255 |
| Colors.QuantizedColor | src/math/color.hpp:130-140 | each quantized channel times 255 is that channel's byte |
| Colors.Quantized | src/math/color.hpp:130-140 | the quantizing loop over the four channels computes the quantized color |
| Colors.QuantizedIdempotent | src/math/color.hpp:130-140 | quantizing a quantized color changes nothing |
| Colors.QuantizedNearest | src/math/color.hpp:130-140 | each quantized channel lies in [0, 1] and within half a level of the clamped channel |
| Colors.PackedPrefix | src/math/color.hpp:147-151 | after fewer than four channels the packed value stays below 2^24, so the next shift by 8 loses no bits |
| Colors.ShiftInByte | src/math/color.hpp:150 | shifting left by 8 and or-ing a byte into a value below 2^24 is multiplying by 256 and adding the byte |
| Colors.ToSigned | src/math/color.hpp:152 | the cast to int32 keeps the value modulo 2^32 and is negative iff the top bit is set |
| Colors.ToInt | src/math/color.hpp:142-153 | toInt's loop packs the four channel bytes red first and casts to int32 |
| Colors.PackExtract | src/math/color.hpp:142-153 | the packed word lies in 32 bits and each byte is recovered from its position |
| Colors.ToIntSign | src/math/color.hpp:142-153 | toInt is negative iff red's byte is at least 128 |
| Colors.ToIntMatchesQuantized | src/math/color.hpp:130-153 | a quantized color has the same channel bytes as the original, so toInt agrees on both |
| Colors.ToIntExamples | src/math/color.hpp:142-153 | white gives bytes 255 and -1, TRANSPARENT gives 0, and black has only the alpha byte set |
| Colors.ColorVar.constructor | src/math/color.hpp:51-52 | the new object holds the given color |
| Colors.ColorVar.AddAssign | src/math/color.hpp:70-74 | += stores the sum and returns it |
| Colors.ColorVar.SubAssign | src/math/color.hpp:81-85 | -= stores the difference and returns it |
| Colors.ColorVar.MulAssign | src/math/color.hpp:92-96 | *= stores the product and returns it |
| Colors.ColorVar.DivAssign | src/math/color.hpp:103-107 | for a divisor without zero lanes, /= stores the quotient and returns it |
| Cmwc.Rand32 | src/platform/generic/cmwc4096.c:4-8 | rand32's low 16 bits come from the second draw alone and its high 16 bits are the first draw's low half xor the second draw's high half |
| Cmwc.Step | src/platform/generic/cmwc4096.c:31-39 | one step writes a times Q[i] plus c as carry times (2^32 - 1) plus x, with x a 32-bit word and the carry at most a + 1 |
| Cmwc.SplitOfWide | src/platform/generic/cmwc4096.c:32-39 | splitting t into its high and low 32 bits and adding the high part back reduces t modulo 2^32 - 1, with the correction applied exactly when the 32-bit sum wraps |
| Cmwc.Output | src/platform/generic/cmwc4096.c:40 | the output m - x is a 32-bit word, and wraps to 2^32 - 1 when x is 2^32 - 1 |
| Cmwc.NextIndex | src/platform/generic/cmwc4096.c:31 | i + 1 masked by CMWC_CYCLE - 1 stays in the table and wraps from 4095 to 0 |
| Cmwc.FirstCarry | src/platform/generic/cmwc4096.c:17-19 | the carry loop stops at the first draw below CMWC_C_MAX |
| Cmwc.State.Init | src/platform/generic/cmwc4096.c:11-21 | initCMWC fills Q with the first 4096 draws, takes the first later draw below CMWC_C_MAX as the carry and sets i to 4095 |
| Cmwc.State.Next | src/platform/generic/cmwc4096.c:24-41 | randCMWC advances i, stores and returns the complemented word of the step in Q[i], sets the carry to the step's carry and keeps the state valid |
| Cmwc.StepKeepsCarryLimit | src/platform/generic/cmwc4096.h:14 | a step from a carry below CMWC_C_MAX leaves a carry below CMWC_C_MAX, and at most a when the carry was small |
| Strings.CharAt | src/dataStructures/string.cpp:7-14 | reading the C string at position k gives s[k] inside the string and the terminator '\0' at its length |
| Strings.IndexOf | src/dataStructures/string.cpp:13-18 | the inner loop stops at the first delimiter, or at the length when there is none |
| Strings.Pieces | src/dataStructures/string.cpp:3-26 | split always yields at least one piece |
| Strings.Split | src/dataStructures/string.cpp:3-26 | the nested loops push exactly the pieces of the string between delimiters, in order |
| Strings.JoinPieces | src/dataStructures/string.cpp:3-26 | joining the pieces with the delimiter gives the string back |
| Strings.PiecesHaveNoDelim | src/dataStructures/string.cpp:3-26 | no piece contains the delimiter |
| Strings.PieceCount | src/dataStructures/string.cpp:3-26 | there is one piece more than there are occurrences of the delimiter |
| Strings.EmptySplit | src/dataStructures/string.cpp:12-23 | the empty string splits into one empty piece |
| Strings.EdgeDelimiters | src/dataStructures/string.cpp:12-23 | a leading delimiter gives an empty first piece and a trailing one an empty last piece |
| Strings.AdjacentDelimiters | src/dataStructures/string.cpp:12-23 | two delimiters in a row give an empty piece between them |
| Memory.Align | src/platform/generic/genericMemory.hpp:52-56 | for a power-of-two alignment, align rounds up to the least multiple of the alignment at or above the pointer |
| Memory.AlignIdempotent | src/platform/generic/genericMemory.hpp:52-56 | aligning an aligned pointer again changes nothing |
| Memory.AlignOfMultiple | src/platform/generic/genericMemory.hpp:52-56 | a multiple of the alignment is its own alignment |
| Memory.CopyInto | src/platform/generic/genericMemory.hpp:38-41 | memcpy of n bytes to an offset replaces exactly those n bytes by the source's first n |
| Memory.MemsetPattern | src/platform/generic/genericMemory.hpp:20-31 | memset<T> writes byte k mod sizeof(T) of the value at each of the first amt bytes, including the partial copy at the end, and leaves the rest alone |
| Memory.Memset | src/platform/generic/genericMemory.hpp:75-79 | the uint8 memset sets the first amt bytes to the value and leaves the rest alone |
| Memory.Memzero | src/platform/generic/genericMemory.hpp:33-36 | memzero sets the first amt bytes to 0 and leaves the rest alone |
| Memory.OneBytePattern | src/platform/generic/genericMemory.hpp:20-31 | the generic memset with a one-byte value writes that byte everywhere, agreeing with the uint8 specialisation |
| Memory.PatternPeriodic | src/platform/generic/genericMemory.hpp:20-31 | the pattern memset writes repeats with period sizeof(T) |
| Memory.SmallMemswap | src/platform/generic/genericMemory.hpp:64-72 | smallmemswap exchanges the first size bytes of two distinct buffers and leaves the rest in place |
| Memory.Memswap | src/platform/generic/genericMemory.hpp:43-50 | memswap of at most 16 bytes exchanges the first size bytes of the two buffers |
| Memory.EffectiveAlignment | src/platform/generic/genericMemory.cpp:8 | the alignment used is the requested one or 16 for sizes of at least 16 and 8 otherwise, whichever is larger |
| Memory.PlacedInBlock | src/platform/generic/genericMemory.cpp:9-13 | the result is aligned, the two header words lie in the raw block below it, and the amt data bytes end inside the raw block |
| Memory.Heap.constructor | src/platform/generic/genericMemory.cpp:6-14 | a new heap holds no header words, no bytes and no blocks |
| Memory.Heap.Malloc | src/platform/generic/genericMemory.cpp:6-14 | malloc returns the aligned address above the two header words, records the raw block, stores the raw address 8 bytes and the size 16 bytes below the result, and changes no data byte |
| Memory.Heap.GetAllocSize | src/platform/generic/genericMemory.cpp:44-47 | getAllocSize reads the size word 16 bytes below the pointer, so it returns the amt that malloc stored |
| Memory.Heap.Free | src/platform/generic/genericMemory.cpp:36-42 | free releases the raw block named in the header of a non-null pointer, does nothing on null, and always returns null |
| Memory.Heap.Copy | src/platform/generic/genericMemory.cpp:30 | memcpy between disjoint ranges of the heap copies n bytes and changes nothing outside the destination |
| Memory.Heap.Realloc | src/platform/generic/genericMemory.cpp:16-34 | realloc of null is malloc, of size 0 frees and returns null, and otherwise copies min(old size, amt) bytes into a fresh block and frees the old one |
| Memory.Min | src/platform/generic/genericMemory.cpp:30 | min is at most both arguments and equal to one of them |
| IndexedModels.InstanceComponents | src/rendering/indexedModel.cpp:86-88 | without instancing there are no instance components, and otherwise the elements from the start index on are instanced |
| IndexedModels.VertexComponents | src/rendering/indexedModel.cpp:86-89 | without instancing every element is per-vertex, and otherwise the elements before the start index are |
| IndexedModels.ComponentsPartition | src/rendering/indexedModel.cpp:86-89 | with a start index inside the element list the two counts add up to the number of elements |
| IndexedModels.IndexedModel.constructor | src/rendering/indexedModel.hpp:8-9 | a new model has no indices and no elements, and no instancing |
| IndexedModels.IndexedModel.AllocateElement | src/rendering/indexedModel.cpp:64-68 | allocateElement appends the component size and an empty element and changes nothing else |
| IndexedModels.IndexedModel.SetInstancedElementStartIndex | src/rendering/indexedModel.cpp:70-73 | setInstancedElementStartIndex sets the start index and changes nothing else |
| IndexedModels.IndexedModel.AddElement1f | src/rendering/indexedModel.cpp:3-7 | addElement1f appends one value to the chosen element and changes nothing else |
| IndexedModels.IndexedModel.AddElement2f | src/rendering/indexedModel.cpp:9-14 | addElement2f appends two values in order to the chosen element and changes nothing else |
| IndexedModels.IndexedModel.AddElement3f | src/rendering/indexedModel.cpp:16-22 | addElement3f appends three values in order to the chosen element and changes nothing else |
| IndexedModels.IndexedModel.AddElement4f | src/rendering/indexedModel.cpp:24-31 | addElement4f appends four values in order to the chosen element and changes nothing else |
| IndexedModels.IndexedModel.AddIndices1i | src/rendering/indexedModel.cpp:33-36 | addIndices1i appends one index and changes nothing else |
| IndexedModels.IndexedModel.AddIndices2i | src/rendering/indexedModel.cpp:38-42 | addIndices2i appends two indices in order and changes nothing else |
| IndexedModels.IndexedModel.AddIndices3i | src/rendering/indexedModel.cpp:44-49 | addIndices3i appends three indices in order and changes nothing else |
| IndexedModels.IndexedModel.AddIndices4i | src/rendering/indexedModel.cpp:51-57 | addIndices4i appends four indices in order and changes nothing else |
| IndexedModels.IndexedModel.GetNumIndices | src/rendering/indexedModel.cpp:59-62 | getNumIndices is the number of indices truncated to 32 bits |
| IndexedModels.IndexedModel.CreateVertexArray | src/rendering/indexedModel.cpp:83-105 | createVertexArray hands the device the per-vertex elements in order, all component sizes, the two component counts adding up to the element count, the vertex count of element 0 and all indices |
| Bitmaps.IndexInRange | src/rendering/arrayBitmap.hpp:51-63 | x + y * width lies inside the pixel array for every in-range coordinate |
| Bitmaps.IndexInjective | src/rendering/arrayBitmap.hpp:51-63 | distinct in-range coordinates address distinct pixels |
| Bitmaps.SetThenGet | src/rendering/arrayBitmap.hpp:51-63 | after set at (x, y), get at (x, y) returns the new pixel and every other coordinate its old one |
| Bitmaps.ArrayBitmap.PixelsSize | src/rendering/arrayBitmap.hpp:46-49 | getPixelsSize is four bytes per pixel |
| Bitmaps.ArrayBitmap.constructor | src/rendering/arrayBitmap.cpp:5-10 | the bitmap gets the given width and height and a fresh width * height pixel array |
| Bitmaps.ArrayBitmap.Copy | src/rendering/arrayBitmap.cpp:12-20 | the copying constructor holds a fresh copy of the first width * height source pixels |
| Bitmaps.ArrayBitmap.Get | src/rendering/arrayBitmap.hpp:51-56 | get returns the pixel at x + y * width |
| Bitmaps.ArrayBitmap.Set | src/rendering/arrayBitmap.hpp:58-63 | set changes exactly the pixel at x + y * width |
| Bitmaps.ArrayBitmap.Clear | src/rendering/arrayBitmap.cpp:73-76 | clear sets every pixel to the color |
| Bitmaps.ArrayBitmap.Load | src/rendering/arrayBitmap.cpp:44-65 | a failed decode changes nothing and returns false; a successful one takes the image's size and pixels, reusing the array when the size matches and allocating a fresh one otherwise |
| Bitmaps.CopyIn | src/rendering/arrayBitmap.cpp:54-60 | memcpy of the decoded data fills the pixel array with it |
| NaiveReference.Flat | src/test.cpp:308-323 | a matrix laid out as the 16 floats the naive routines index as `m[i*4+j]` has exactly 16 entries |
| NaiveReference.FlatEntry | src/test.cpp:308-323 | entry `i*4+j` of the flat layout is the matrix's row i, column j |
| NaiveReference.Unflat | src/test.cpp:308-323 | reading 16 floats back as a matrix puts float `i*4+j` at row i, column j |
| NaiveReference.FlatRoundTrip | src/test.cpp:308-323 | the flat layout and reading it back are mutually inverse, in both directions |
| NaiveReference.FlatEqual | src/test.cpp:308-323 | two 16-float buffers that agree at every index are equal |
| NaiveReference.FlatProduct | src/test.cpp:308-323 | the product of two flat matrices is again 16 floats |
| NaiveReference.FlatProductEntry | src/test.cpp:314-320 | entry `r*4+c` of the flat product is the sum over k of the first factor's row r, column k times the second's row k, column c |
| NaiveReference.FlatProductIsProduct | src/test.cpp:308-323 | the flat product read back as a matrix is the library's matrix product of the two factors read back |
| NaiveReference.ProductEntry | src/test.cpp:314-320 | each entry of the library's matrix product equals the naive triple-loop sum |
| NaiveReference.RowColIsDot | src/test.cpp:318-319 | the naive inner sum is the dot product of a row of one factor with a column of the other |
| NaiveReference.FullEntry | src/test.cpp:317-320 | after all four steps of the innermost loop the accumulated `ret[i*4+j]` is the full row-by-column sum |
| NaiveReference.NaiveMatrixMultiply | src/test.cpp:308-323 | writes into `output` the product `other x input`: `ret[i*4+j]` sums `m[k*4+j] * r[i*4+k]`, so `other` is the left factor |
| NaiveReference.NaiveCrossProduct | src/test.cpp:325-333 | writes the cross product of the first three floats of `v1` and `v2` into `output[0..3]`, computed from the inputs before any write, and leaves the rest of `output` alone |
| NaiveReference.NaiveQuatMul | src/test.cpp:335-346 | writes the Hamilton product of `a` and `b` as x, y, z, w, equal to the library's quaternion product, and leaves the rest of `output` alone |
| NaiveReference.NaiveQuatRotate | src/test.cpp:348-358 | writes `a * b * conj(a)`; for a unit `a` that is the library's rotation of `b` by `a` |
| NaiveReference.SandwichExpandX | src/test.cpp:348-358 | the x lane of `(q*v)*conj(q)`, expanded as a polynomial in the components |
| NaiveReference.SandwichExpandedX | src/test.cpp:348-358 | the x lane of the sandwich product equals that polynomial |
| NaiveReference.SandwichUnitX | src/test.cpp:348-358 | for a unit quaternion the x polynomial equals the rotation formula's x |
| NaiveReference.SandwichLaneX | src/test.cpp:348-358 | for a unit quaternion the sandwich's x lane is the rotation formula's x |
| NaiveReference.SandwichExpandY | src/test.cpp:348-358 | the y lane of `(q*v)*conj(q)`, expanded |
| NaiveReference.SandwichExpandedY | src/test.cpp:348-358 | the y lane of the sandwich product equals that polynomial |
| NaiveReference.SandwichUnitY | src/test.cpp:348-358 | for a unit quaternion the y polynomial equals the rotation formula's y |
| NaiveReference.SandwichLaneY | src/test.cpp:348-358 | for a unit quaternion the sandwich's y lane is the rotation formula's y |
| NaiveReference.SandwichExpandZ | src/test.cpp:348-358 | the z lane of `(q*v)*conj(q)`, expanded |
| NaiveReference.SandwichExpandedZ | src/test.cpp:348-358 | the z lane of the sandwich product equals that polynomial |
| NaiveReference.SandwichUnitZ | src/test.cpp:348-358 | for a unit quaternion the z polynomial equals the rotation formula's z |
| NaiveReference.SandwichLaneZ | src/test.cpp:348-358 | for a unit quaternion the sandwich's z lane is the rotation formula's z |
| NaiveReference.SandwichExpandW | src/test.cpp:348-358 | the w lane of the sandwich is `v.w` times the squared norm of `q` |
| NaiveReference.SandwichLaneW | src/test.cpp:348-358 | for a unit quaternion the sandwich keeps `v.w` |
| NaiveReference.SandwichIsFormula | src/test.cpp:348-358 | for a unit quaternion the whole sandwich product is the closed rotation formula |
| NaiveReference.SandwichIsRotation | src/test.cpp:348-358 | for a unit quaternion the sandwich product is the library's quaternion rotation, so the naive and library rotations agree |
| NaiveReference.StoreMatrix | src/test.cpp:370-372 | a fresh 16-float buffer holding a matrix's flat layout, as `(float*)&matrix` exposes it |
| NaiveReference.ScaleEntries | src/test.cpp:369 | the flat layout of `Matrix::scale(s)`: s on the diagonal, 1 in the corner, 0 elsewhere |
| NaiveReference.TranslateEntries | src/test.cpp:367 | the flat layout of `Matrix::translate(t)`: identity with t in entries 3, 7 and 11 |
| NaiveReference.FlatScaledTop | src/test.cpp:371 | multiplying by the scale matrix on the right scales the first three columns of rows 0 and 1 |
| NaiveReference.FlatScaledBottom | src/test.cpp:371 | the same for rows 2 and 3 |
| NaiveReference.FlatScaledColumns | src/test.cpp:371 | a matrix times `scale(s)` is that matrix with its x, y, z columns multiplied by s |
| NaiveReference.FlatTranslatedTop | src/test.cpp:372 | `translate(t)` times a matrix whose last row is (0,0,0,1) adds t to column 3 of rows 0 and 1 |
| NaiveReference.FlatTranslatedBottom | src/test.cpp:372 | the same for rows 2 and 3 |
| NaiveReference.FlatTranslated | src/test.cpp:372 | `translate(t)` times an affine matrix adds t to its translation column |
| NaiveReference.RowScaled | src/test.cpp:371 | scaling a unit-scale row by s gives the row with s's factors |
| NaiveReference.Row0Scaled | src/test.cpp:371 | row 0 of the transform matrix with scale s is row 0 of the unit-scale one with its columns scaled |
| NaiveReference.Row1Scaled | src/test.cpp:371 | the same for row 1 |
| NaiveReference.Row2Scaled | src/test.cpp:371 | the same for row 2 |
| NaiveReference.TransformScaledColumns | src/test.cpp:371 | the transform matrix with scale s is the unit-scale one with its x, y, z columns scaled by s |
| NaiveReference.FlatRotationTimesScale | src/test.cpp:368-371 | the rotation-only transform matrix times `scale(s)` is the transform matrix with zero translation, rotation q and scale s |
| NaiveReference.TransformTranslated | src/test.cpp:372 | the transform matrix with translation t is the zero-translation one with t added to its translation column |
| NaiveReference.FlatTranslateRotation | src/test.cpp:372 | `translate(t)` times the zero-translation transform matrix is the full transform matrix |
| NaiveReference.ComposedTransform | src/test.cpp:360-373 | translation times rotation times scale, composed with the library's product, is the library's `transformMatrix(t, q, s)` |
| NaiveReference.NaiveTransformCreate | src/test.cpp:360-373 | writes into `output` the flat layout of `transformMatrix(t, q, s)` built from the input arrays as they were on entry |
| NaiveInverse.IdentityFlat | src/test.cpp:375-453 | the flat identity is 16 floats |
| NaiveInverse.IdentityEntry | src/test.cpp:375-453 | the flat identity has 1 on the diagonal and 0 elsewhere |
| NaiveInverse.SwapRows | src/test.cpp:407-419 | exchanging two rows keeps a 16-float buffer |
| NaiveInverse.SubtractRow | src/test.cpp:421-428 | subtracting a multiple of one row from another keeps a 16-float buffer |
| NaiveInverse.DivideRow | src/test.cpp:439-442 | dividing a row by a nonzero pivot keeps a 16-float buffer |
| NaiveInverse.SwapRowsEntry | src/test.cpp:411-417 | after the exchange, row i holds the old row p, row p the old row i, and the other rows are unchanged |
| NaiveInverse.SubtractRowEntry | src/test.cpp:424-427 | only row j changes, each entry losing f times the same column of row i |
| NaiveInverse.DivideRowEntry | src/test.cpp:439-442 | only row i changes, each entry divided by f |
| NaiveInverse.SwapCommutes | src/test.cpp:407-419 | a row exchange is a left multiplication: exchanging rows of `E` then multiplying by `X` equals exchanging rows of `E X` |
| NaiveInverse.SwapCommutesAt | src/test.cpp:407-419 | the same, entry by entry |
| NaiveInverse.RowColSwap | src/test.cpp:407-419 | a row-by-column sum after the exchange is the sum for the exchanged row |
| NaiveInverse.SubtractCommutes | src/test.cpp:421-428 | a row subtraction is a left multiplication: it commutes with multiplying on the right |
| NaiveInverse.SubtractCommutesAt | src/test.cpp:421-428 | the same, entry by entry |
| NaiveInverse.RowColSubtract | src/test.cpp:421-428 | a row-by-column sum after the subtraction loses f times row i's sum in row j, and is unchanged in other rows |
| NaiveInverse.RowColSubtractSame | src/test.cpp:421-428 | the subtracted row's sums lose f times row i's sums |
| NaiveInverse.SubtractRowEntries | src/test.cpp:424-427 | the four entries of the subtracted row |
| NaiveInverse.SubtractRowAt | src/test.cpp:424-427 | one entry of the subtracted row |
| NaiveInverse.SubtractedRowCol | src/test.cpp:421-428 | any row with those four entries has the reduced row-by-column sum |
| NaiveInverse.RowColSubtractOther | src/test.cpp:421-428 | rows other than the subtracted one keep their sums |
| NaiveInverse.DivideCommutes | src/test.cpp:439-442 | dividing a row is a left multiplication: it commutes with multiplying on the right |
| NaiveInverse.DivideCommutesAt | src/test.cpp:439-442 | the same, entry by entry |
| NaiveInverse.RowColDivide | src/test.cpp:439-442 | a row-by-column sum of the divided row is divided by f and the other rows' sums are unchanged |
| NaiveInverse.DivideRowEntries | src/test.cpp:439-442 | the four entries of the divided row |
| NaiveInverse.DivideRowAt | src/test.cpp:439-442 | one entry of the divided row |
| NaiveInverse.DividedRowCol | src/test.cpp:439-442 | any row with those four entries has the divided row-by-column sum |
| NaiveInverse.RowColDivideOther | src/test.cpp:439-442 | rows other than the divided one keep their sums |
| NaiveInverse.RowColSum4 | src/test.cpp:375-453 | a row-by-column sum written out as four products |
| NaiveInverse.SubtractTerms | src/test.cpp:424-427 | four-term sums are linear under a row subtraction |
| NaiveInverse.DivideTerms | src/test.cpp:439-442 | four-term sums are linear under a row division |
| NaiveInverse.LeftIdentity | src/test.cpp:375-453 | the identity times any matrix is that matrix |
| NaiveInverse.RightIdentity | src/test.cpp:375-453 | any matrix times the identity is that matrix |
| NaiveInverse.SwapKeepsLowerZero | src/test.cpp:407-419 | exchanging row i with a row at or below it keeps the columns before i zero below the diagonal |
| NaiveInverse.EliminateBelow | src/test.cpp:421-428 | subtracting `t[j][i] / t[i][i]` times row i from row j zeroes column i of row j and keeps the pivot and the zeros found so far |
| NaiveInverse.LowerZeroNext | src/test.cpp:383-429 | once column i is zero below the diagonal the lower triangle is zero up to column i+1 |
| NaiveInverse.ForwardDone | src/test.cpp:383-429 | after the three forward passes the matrix is upper triangular, the shape backward substitution starts from |
| NaiveInverse.DivideUnit | src/test.cpp:435-442 | dividing row i by its nonzero diagonal makes that diagonal 1 |
| NaiveInverse.ClearAbove | src/test.cpp:444-451 | subtracting `t[j][i]` times the unit row i from row j zeroes column i of row j |
| NaiveInverse.BackStep | src/test.cpp:432-452 | after row i is divided and column i cleared above it, rows i..3 are identity rows |
| NaiveInverse.BackDone | src/test.cpp:432-452 | after the last backward pass the matrix is the identity |
| NaiveInverse.SameCells | src/test.cpp:375-453 | two 16-float buffers that agree at every row and column are equal |
| NaiveInverse.FindPivot | src/test.cpp:384-401 | the pivot is the first row at or below i holding the largest absolute value in column i, and the size is that value |
| NaiveInverse.SwapColumn | src/test.cpp:408-418 | one step of the exchange loop extends the exchanged prefix by one column |
| NaiveInverse.SwapPartialDone | src/test.cpp:408-418 | after four steps the rows are exchanged |
| NaiveInverse.SubtractColumn | src/test.cpp:424-427 | one step of the subtraction loop extends the subtracted prefix by one column |
| NaiveInverse.SubtractPartialDone | src/test.cpp:424-427 | after four steps the row is subtracted |
| NaiveInverse.DivideColumn | src/test.cpp:439-442 | one step of the division loop extends the divided prefix by one column |
| NaiveInverse.DividePartialDone | src/test.cpp:439-442 | after four steps the row is divided |
| NaiveInverse.SwapRowsBoth | src/test.cpp:407-419 | exchanges rows i and p of both `t` and `s` |
| NaiveInverse.SubtractRowBoth | src/test.cpp:421-428 | subtracts f times row i from row j of both `t` and `s` |
| NaiveInverse.DivideRowBoth | src/test.cpp:439-442 | divides row i of both `t` and `s` by f |
| NaiveInverse.NaiveMatrixInverse | src/test.cpp:375-453 | on every exit, early or not, both buffers have been multiplied on the left by the same matrix E; on completion `t` is the identity, so when `s` started as the identity it ends as a two-sided inverse of the original `t`, and equals `GenericVecmath.Inverse` of it when its determinant is nonzero |
| NaiveInverse.ScaleSum4 | src/test.cpp:375-453 | scaling a four-term sum scales each of its terms |
| NaiveInverse.Distribute4 | src/test.cpp:375-453 | a product distributes over a four-term sum |
| NaiveInverse.AssocTerms | src/test.cpp:375-453 | the row-by-column sums of `(A B) C` and `A (B C)` agree, term by term |
| NaiveInverse.AssocCombine | src/test.cpp:375-453 | one entry of `(A B) C` equals the same entry of `A (B C)`, given the entries of `A B` and `B C` |
| NaiveInverse.AssocAt | src/test.cpp:375-453 | one entry of `(A B) C` equals the same entry of `A (B C)` |
| NaiveInverse.FlatAssoc | src/test.cpp:375-453 | the row-major 4x4 product is associative |
| NaiveInverse.SwapUndone | src/test.cpp:407-419 | exchanging the same two rows twice gives back the matrix |
| NaiveInverse.SubtractUndone | src/test.cpp:421-428 | subtracting f times row i from row j and then -f times it gives back the matrix |
| NaiveInverse.DivideByReciprocal | src/test.cpp:439-442 | dividing by f and then by 1/f is the identity on a value, and 1/f is nonzero |
| NaiveInverse.DivideUndone | src/test.cpp:439-442 | dividing a row by f and then by 1/f gives back the matrix |
| NaiveInverse.SwapInverse | src/test.cpp:407-419 | the exchanged identity, multiplied on the left of an exchanged matrix, undoes the exchange |
| NaiveInverse.SubtractInverse | src/test.cpp:421-428 | the identity with -f times row i subtracted from row j, multiplied on the left, undoes the subtraction |
| NaiveInverse.DivideInverse | src/test.cpp:439-442 | the identity with row i divided by 1/f, multiplied on the left, undoes the division |
| NaiveInverse.LeftInverseStep | src/test.cpp:375-453 | if U is a left inverse of E and V undoes the step taking E to E', then U V is a left inverse of E' |
| NaiveInverse.TwoSided | src/test.cpp:375-453 | a matrix with a left inverse U and a right inverse T has T = U, so T is two-sided |
| NaiveInverse.RightInverseIsInverse | src/test.cpp:375-453 | a right inverse of a matrix with nonzero determinant is the library's adjugate-based inverse |
| NaiveInverse.SwapStep | src/test.cpp:407-419 | one exchange keeps both buffers the same left multiple of their starting values and extends the left inverse of the accumulated matrix |
| NaiveInverse.SubtractStep | src/test.cpp:421-428 | one row subtraction keeps both buffers the same left multiple of their starting values and extends the left inverse of the accumulated matrix |
| NaiveInverse.DivideStep | src/test.cpp:439-442 | one row division keeps both buffers the same left multiple of their starting values and extends the left inverse of the accumulated matrix |
| NaiveInverse.Finished | src/test.cpp:375-453 | when the elimination has reduced the source to the identity, a destination that started as the identity is its two-sided inverse and, for a nonzero determinant, the library's inverse |
| NaiveInverse.UnflatIdentity | src/test.cpp:375-453 | the flat identity read back is the library's identity matrix |

## Left out

- Floating point: every float is an exact real. Rounding, infinities, NaN propagation and the 32-bit width of the intermediate results are not modelled; only isNaN and isFinite, and the SSE backend's masks, select, isZero, movemask, neg and abs, look at binary32 patterns.
- Transcendental functions: sqrt, rsqrt, sin, cos, tan, acos, atan2, pow and the polynomial sincos of genericMath.hpp are fields of `GenericMath.Libm` with no accuracy lemmas. Lemmas that need an exact square root say so with `GenericMath.SqrtIsExact(lm)`, a hypothesis about the parameter rather than a fact about the C library.
- GenericMath.TruncToInt: the `(int32)` cast has no range here, so values outside the int32 range truncate to an unbounded integer, where the source's cast is undefined.
- GenericMath.RoundUpToNextPowerOf2: accepts v up to 2^31 and returns the bit pattern 1 << 31 for v = 2^31, which in the source is a shift into the sign bit of a signed int.
- Division by zero: where the source divides and would produce an infinity or NaN, the model requires a nonzero divisor, since a real has no infinity. This covers, for example, GenericVecmath.Inverse and GenericVecmath.MatrixInverse (det != 0), SseMatrix.MatrixInverse, Matrices.Matrix.Inverse, Matrices.NormalMatrix, Matrices.ScaleDefined (nonzero column norms for removeScale and getRotation), Vector3.Quotient, Vector3.QuotientScalar, Vector3.Normalized, Vector3.Project, Vector3.ReciprocalVec, Vector2.ReciprocalVec, Planes.CanNormalize, Planes.QuotientScalar, Planes.IntersectRay, Planes.IntersectionPoint, Quaternions.QuotientScalar, Quaternions.CanNormalize, Quaternions.HasAxis, Quaternions.CanSlerp, Vector2.CanNormalize, Colors.Quotient, Colors.ColorVar.DivAssign, Transforms.NonZeroScale and Transforms.Inverse, the sphere merge's nonzero center distance, and the line tests' nonzero segment length.
- Vector3.Quotient: lane 3 of the quotient is 0.0, where the source divides 0 by 0 in that lane.
- SseVecmath.Select: requires every mask lane to be all-ones or all-zero; on other bit patterns the source's xor/and blend mixes bits of both inputs, which is not modelled.
- Planes.IntersectPlanes: requires a positive errorMargin; the source accepts any margin.
- Boxes.IntersectRay: requires nonzero direction components, because the source's division by a zero component relies on IEEE infinities.
- GenericVecmath.Select, GenericVecmath.IsZero3f and GenericVecmath.IsZero4f: the generic masks are booleans, so only masks produced by comparisons (all-ones or zero words) are modelled. On an arbitrary float mask the source's select takes a lane wherever the mask word has any nonzero bit, and isZero3f/isZero4f compare the mask floats with 0.0f; neither is modelled.
- Generic sign() and the bitwise or/and/xor on non-mask floats differ between the two backends at the bit level; they are modelled on mask lanes only.
- SSE matrixMul and matrixDeterminant3x3 (sseVecmath.hpp:19-62) are the same arithmetic as the generic backend's (genericVecmath.hpp:9-52) and share its model.
- Cmwc: the C library `rand` that initCMWC calls is not modelled; the words it would return are a parameter of `Cmwc.State.Init`.
- Memory.Memswap: only sizes up to 16, the smallmemswap path, are modelled; bigmemswap is declared at src/platform/generic/genericMemory.hpp:63 but genericMemory.cpp does not define it, so sizes above 16 are not modelled.
- Memory.Align: pointers are unbounded naturals, so the wrap-around of `ptr + alignment - 1` near the top of the address space is not modelled.
- memmove and memcmp forward to the C library and are not modelled; core/memory.hpp is pure forwarding, and the operator new / new_handler loop of core/memory.cpp is a C++ runtime hook.
- The system `::malloc` and `::free` are parameters of `Memory.Heap`: the address malloc returns is an argument, and free only removes the block from the heap's record.
- Strings.Split: string lengths are unbounded, where the source indexes with 32-bit integers.
- ArrayBitmap: the offset constructor (arrayBitmap.cpp:22-37) is not modelled; its memcpy copies `width` bytes per row rather than `width` pixels and it leaves `pixels` pointing past the buffer. `save`, the stb_image decoder (its result is an Option parameter of `Load`) and the trivial getters getWidth, getHeight and getPixelArray are not modelled either.
- IndexedModels.IndexedModel.CreateVertexArray: requires start <= count, a nonempty element list and elementSizes[0] != 0, because otherwise the source reads out of range or divides by zero; the render device call is not modelled, and the method returns what would be handed to it.
- Colors: channels are reals; the float products of quantized and toInt are exact here, and roundToInt rounds the exact value.
- Transforms: the getters are field reads and are not separate members.
- Transforms.InverseTransformUndoesTransform and Transforms.TransformUndoesInverseTransform: assume a unit rotation and an exact sqrt, where the source's test only checks the round trip within a margin.
- MatrixRotation.GetRotationRecoversRotation: proves the result is q or -q, the "same rotation" the test's sign-insensitive equals accepts, rather than an equals within a margin.
- NaiveReference.NaiveMatrixMultiply: requires the output to be distinct from both inputs. The in-place calls at test.cpp:544-545 are commented out, and with aliasing the loop would overwrite its inputs before reading them.
- NaiveInverse.NaiveMatrixInverse: requires distinct source and destination. An early return does not mean the input is singular: it only means a zero pivot or diagonal entry was met, and the contract says only that both buffers were multiplied by the same matrix. On completion a destination that started as the identity is proved a two-sided inverse of the source and, when the determinant is nonzero, equal to `GenericVecmath.Inverse`.
- The inner loops of naiveMatrixInverse are separate methods (FindPivot, SwapRowsBoth, SubtractRowBoth, DivideRowBoth), each proved against the row operation it performs.
- The OpenGL render device and its wrappers, the SDL application, window and main loop, timing, the Assimp, DDS and stb_image loaders, and the performance test driver issue foreign calls or do I/O only, and are not modelled.

## Findings

| source | as written | input that shows it | evidently intended | confidence | as-written member | corrected member |
|---|---|---|---|---|---|---|
| src/math/aabb.cpp:43-46 | the loop that takes the absolute value of each row assigns into the copy that `Matrix::operator[]` (matrix.hpp:52-55) returns, so the extents are transformed by the signed matrix | a box with an interior and a matrix whose row 0 is (-1, 0, 0, 0): the result has min.x > max.x and holds no point | transform the extents by the entrywise absolute matrix, so the result encloses the image of every point of the box | high, not executed | Boxes.TransformedBoxInverts | Boxes.TransformedBoxEncloses |
| src/math/sphere.cpp:79-89 | the new radius is the old one times the largest row norm of the upper 3x3 block | a rotation about z by (a, b) = (0.6, 0.8) combined with a stretch by 2 along x: the rows' squared norms are at most 2.92, but the surface point c + (R, 0, 0) moves to squared distance 4R^2 | scale by the largest column norm; when the columns are orthogonal, as in every translate * rotate * scale matrix, the result then encloses the image of the ball | high, not executed | Spheres.RowNormRadiusTooSmall | Spheres.TransformSphereIntendedEncloses |
| src/math/sphere.cpp:19-27 | the mean candidate sums points 1..amt-1 but divides by amt | n copies of a point p with p.x != 0: the mean's x is (n - 1) p.x / n, not p.x | sum all amt points, so the mean of a cloud is its centroid and the kept radius encloses every point | high, not executed | Spheres.MeanOmitsFirstPoint | Spheres.BoundingSphereIntendedEncloses |
| src/math/intersects.hpp:19 | the box extents are widened with w = 1, so the half-width r gains \|plane.w\| | the plane x = 5 and the box [6,7]^3: every point is in front of the plane, yet the box is reported as straddling it | widen with w = 0, so r is the box's half-width along the normal and the classification is exact | high, not executed | IntersectsTests.OffsetPlaneStraddlesDistantBox | Intersects.IntendedClassifiesBox, Intersects.IntendedIntersectStraddles |
| src/math/sphere.cpp:125-131 | intersectLine accepts when the ray hits and point1^2 < length^2, so a negative point1 of any size below the length counts | the sphere of radius 0.5 at (0, 0, -2) and the segment from the origin to (0, 0, 10): reported as intersected, though no point of the segment is in the ball | report a hit exactly when some point of the segment lies in the ball | high, not executed | SphereRayTests.LineBehindStartCounts | SphereRays.IntersectLineIntendedMeetsBall |
| src/math/sphere.cpp:95-96 | a sphere of radius 0 is dropped and `other` is returned unchanged | a radius-0 sphere whose center lies outside `other`: the merged sphere does not hold it | merge a radius-0 sphere as the point it is, so the result encloses both inputs; a radius-0 sphere may instead be meant as an empty accumulator | plausible, not executed | SphereMerge.ZeroRadiusDropsThis | SphereMerge.AddSphereIntendedEncloses |
| src/math/aabb.cpp:91-97 | intersectLine compares the squared entry parameter with the squared length | the segment from the origin to (2, 2, 1): the box [-1,-0.5]x[-1,-0.5]x[-1,-0.25] behind the start is reported, and the box [-10,1]^3 holding the start is missed | report a hit exactly when some point of the segment lies in the box | high, not executed | BoxLineTests.BoxBehindStartCounts, BoxLineTests.StartInsideBoxMissed | Boxes.IntersectLineIntendedMeetsBox |
