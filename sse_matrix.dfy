/**
 * The SSE backend's matrix determinant and inverse (sseVecmath.hpp). Both
 * run on scalar copies of the four rows; the minors and the cofactor sums
 * are the generic backend's, and so are the results.
 */
module SseMatrix {
  import opened GenericMath
  import opened GenericVecmath

  /**
   * The six minors of rows a and b as the SSE code writes them; the fourth
   * reads lane 2 of b through the vector's operator[] rather than its
   * scalar copy, which holds the same value.
   */
  function RowMinors(a: Vec4, b: Vec4): (r: seq<real>)
    ensures |r| == 6
  {
    [a.x * b.y - b.x * a.y, a.x * b.z - b.x * a.z, a.x * b.w - b.x * a.w,
     a.y * Lane(b, 2) - b.y * a.z, a.y * b.w - b.y * a.w, a.z * b.w - b.z * a.w]
  }

  /** Rows 0-1 and rows 2-3 give the generic backend's s and c. */
  lemma MinorsOfRows(m: Mat4, s: seq<real>, c: seq<real>)
    requires s == RowMinors(m[0], m[1]) && c == RowMinors(m[2], m[3])
    ensures s == DetS(m) && c == DetC(m)
  {
    var ds, dc := DetS(m), DetC(m);
    assert s[0] == ds[0] && s[1] == ds[1] && s[2] == ds[2] && s[3] == ds[3] && s[4] == ds[4] && s[5] == ds[5];
    assert c[0] == dc[0] && c[1] == dc[1] && c[2] == dc[2] && c[3] == dc[3] && c[4] == dc[4] && c[5] == dc[5];
  }

  /**
   * matrixDeterminant4x4: the minors of rows 0-1 and of rows 2-3, written
   * through outS/outC when given (otherwise into local buffers, which the
   * model does not need), then the Laplace expansion over them.
   */
  method MatrixDeterminant4x4(outS: array?<real>, outC: array?<real>, m: array<Vec4>) returns (det: real)
    requires m.Length == 4
    requires outS != null ==> outS.Length == 6
    requires outC != null ==> outC.Length == 6
    requires outS != null && outC != null ==> outS != outC
    modifies outS, outC
    ensures det == Det4(m[..])
    ensures outS != null ==> outS[..] == DetS(m[..])
    ensures outC != null ==> outC[..] == DetC(m[..])
  {
    var mm: Mat4 := m[..];
    var s := RowMinors(mm[0], mm[1]);
    var c := RowMinors(mm[2], mm[3]);
    MinorsOfRows(mm, s, c);
    if outS != null {
      StoreMinors(outS, s);
    }
    if outC != null {
      StoreMinors(outC, c);
    }
    det := Laplace(s, c);
    assert m[..] == mm;
  }

  /**
   * The sixteen bracketed sums matrixInverse multiplies by reciprocal(det),
   * row-major, over the minors s and c it was handed.
   */
  function CofactorSums(m: Mat4, s: seq<real>, c: seq<real>): (r: seq<real>)
    requires |s| == 6 && |c| == 6
    ensures |r| == 16
  {
    [m[1].y * c[5] - m[1].z * c[4] + m[1].w * c[3], -m[0].y * c[5] + m[0].z * c[4] - m[0].w * c[3],
     m[3].y * s[5] - m[3].z * s[4] + m[3].w * s[3], -m[2].y * s[5] + m[2].z * s[4] - m[2].w * s[3],
     -m[1].x * c[5] + m[1].z * c[2] - m[1].w * c[1], m[0].x * c[5] - m[0].z * c[2] + m[0].w * c[1],
     -m[3].x * s[5] + m[3].z * s[2] - m[3].w * s[1], m[2].x * s[5] - m[2].z * s[2] + m[2].w * s[1],
     m[1].x * c[4] - m[1].y * c[2] + m[1].w * c[0], -m[0].x * c[4] + m[0].y * c[2] - m[0].w * c[0],
     m[3].x * s[4] - m[3].y * s[2] + m[3].w * s[0], -m[2].x * s[4] + m[2].y * s[2] - m[2].w * s[0],
     -m[1].x * c[3] + m[1].y * c[1] - m[1].z * c[0], m[0].x * c[3] - m[0].y * c[1] + m[0].z * c[0],
     -m[3].x * s[3] + m[3].y * s[1] - m[3].z * s[0], m[2].x * s[3] - m[2].y * s[1] + m[2].z * s[0]]
  }

  /** The four lanes of a vector, in memory order (store4f). */
  function Lanes(v: Vec4): (r: seq<real>)
    ensures |r| == 4 && forall j | 0 <= j < 4 :: r[j] == Lane(v, j)
  {
    [v.x, v.y, v.z, v.w]
  }

  /** The sixteen entries of a matrix, row-major, as matrixInverse lays out its result. */
  function RowMajor(m: Mat4): (r: seq<real>)
    ensures |r| == 16
  {
    Lanes(m[0]) + Lanes(m[1]) + Lanes(m[2]) + Lanes(m[3])
  }

  /** Entry j of row i sits at 4 * i + j. */
  lemma RowMajorAt(m: Mat4, i: nat, j: nat)
    requires i < 4 && j < 4
    ensures RowMajor(m)[4 * i + j] == At(m, i, j)
  {
    var r := RowMajor(m);
    assert r[4 * i .. 4 * i + 4] == Lanes(m[i]);
  }

  /** Over the matrix's own minors, the sums are the adjugate's entries. */
  lemma CofactorSumsAreAdjugate(m: Mat4)
    ensures CofactorSums(m, DetS(m), DetC(m)) == RowMajor(Adjugate(m))
  {
    var e, a := CofactorSums(m, DetS(m), DetC(m)), Adjugate(m);
    assert e[0] == a[0].x && e[1] == a[0].y && e[2] == a[0].z && e[3] == a[0].w;
    assert e[4] == a[1].x && e[5] == a[1].y && e[6] == a[1].z && e[7] == a[1].w;
    assert e[8] == a[2].x && e[9] == a[2].y && e[10] == a[2].z && e[11] == a[2].w;
    assert e[12] == a[3].x && e[13] == a[3].y && e[14] == a[3].z && e[15] == a[3].w;
    assert e == [a[0].x, a[0].y, a[0].z, a[0].w, a[1].x, a[1].y, a[1].z, a[1].w,
                 a[2].x, a[2].y, a[2].z, a[2].w, a[3].x, a[3].y, a[3].z, a[3].w];
  }

  /** Every element of e times k. */
  function Scaled(e: seq<real>, k: real): (r: seq<real>)
    ensures |r| == |e| && forall n | 0 <= n < |e| :: r[n] == e[n] * k
  {
    seq(|e|, n requires 0 <= n < |e| => e[n] * k)
  }

  lemma ScaledConcat(a: seq<real>, b: seq<real>, k: real)
    ensures Scaled(a + b, k) == Scaled(a, k) + Scaled(b, k)
  {
    var l, r := Scaled(a + b, k), Scaled(a, k) + Scaled(b, k);
    forall n | 0 <= n < |l|
      ensures l[n] == r[n]
    {
      if n < |a| {
        assert r[n] == Scaled(a, k)[n];
      } else {
        assert r[n] == Scaled(b, k)[n - |a|];
      }
    }
  }

  lemma LanesScale(v: Vec4, k: real)
    ensures Lanes(Mul(v, Load1f(k))) == Scaled(Lanes(v), k)
  {
    var l, r := Lanes(Mul(v, Load1f(k))), Scaled(Lanes(v), k);
    assert l[0] == r[0] && l[1] == r[1] && l[2] == r[2] && l[3] == r[3];
  }

  /** Scaling the rows scales every entry. */
  lemma ScaleRowsEntries(a: Mat4, k: real)
    ensures RowMajor(ScaleRows(a, k)) == Scaled(RowMajor(a), k)
  {
    var b := ScaleRows(a, k);
    LanesScale(a[0], k);
    LanesScale(a[1], k);
    LanesScale(a[2], k);
    LanesScale(a[3], k);
    ScaledConcat(Lanes(a[0]) + Lanes(a[1]) + Lanes(a[2]), Lanes(a[3]), k);
    ScaledConcat(Lanes(a[0]) + Lanes(a[1]), Lanes(a[2]), k);
    ScaledConcat(Lanes(a[0]), Lanes(a[1]), k);
  }

  /** The inverse, row-major, is the cofactor sums times reciprocal(det). */
  lemma InverseIsScaledCofactorSums(m: Mat4)
    requires Det4(m) != 0.0
    ensures RowMajor(Inverse(m)) == Scaled(CofactorSums(m, DetS(m), DetC(m)), Reciprocal(Det4(m)))
  {
    CofactorSumsAreAdjugate(m);
    ScaleRowsEntries(Adjugate(m), Reciprocal(Det4(m)));
  }

  /** The sixteen stores of matrixInverse, in index order. */
  method StoreRowMajor(dest: array<real>, v: seq<real>)
    requires dest.Length == 16 && |v| == 16
    modifies dest
    ensures dest[..] == v
  {
    forall n | 0 <= n < 16 {
      dest[n] := v[n];
    }
    assert dest[..] == v;
  }

  /**
   * matrixInverse: writes the sixteen cofactor sums times reciprocal(det)
   * straight into dest, row-major; src is read before any store, so dest
   * may alias src.
   */
  method MatrixInverse(dest: array<real>, src: array<Vec4>)
    requires dest.Length == 16 && src.Length == 4
    requires Det4(src[..]) != 0.0
    modifies dest
    ensures dest[..] == RowMajor(Inverse(old(src[..])))
  {
    var s := new real[6];
    var c := new real[6];
    var det := MatrixDeterminant4x4(s, c, src);
    var rdet := Reciprocal(det);
    var mm: Mat4 := src[..];
    var e := CofactorSums(mm, s[..], c[..]);
    var v := Scaled(e, rdet);
    StoreRowMajor(dest, v);
    InverseIsScaledCofactorSums(mm);
  }
}
