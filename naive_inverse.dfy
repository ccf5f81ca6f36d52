/**
 * naiveMatrixInverse of test.cpp: Gauss-Jordan elimination with partial
 * pivoting on two flat 4x4 matrices.  Every row operation applied to the
 * source t is applied to the destination s as well, so both are always
 * the same matrix e times their starting values; when the elimination runs
 * to the end, t is the identity, and a destination that started as the
 * identity then holds a two-sided inverse of the source, the same matrix
 * as the adjugate-based inverse of the library whenever the determinant
 * is nonzero.
 */
module NaiveInverse {
  import opened GenericVecmath
  import opened NaiveReference

  // ---------------------------------------------------------------------
  // Row operations on flat matrices
  // ---------------------------------------------------------------------

  function Abs(x: real): real
  {
    if x < 0.0 then -x else x
  }

  /** Entry (r, c) of a flat matrix. */
  function Cell(a: seq<real>, r: nat, c: nat): real
    requires |a| == 16 && r < 4 && c < 4
  {
    a[r * 4 + c]
  }

  /** The identity, row by row. */
  function IdentityFlat(): (a: seq<real>)
    ensures |a| == 16
  {
    [1.0, 0.0, 0.0, 0.0, 0.0, 1.0, 0.0, 0.0, 0.0, 0.0, 1.0, 0.0, 0.0, 0.0, 0.0, 1.0]
  }

  /** Entry (r, c) of the identity. */
  lemma IdentityEntry(r: nat, c: nat)
    requires r < 4 && c < 4
    ensures Cell(IdentityFlat(), r, c) == if r == c then 1.0 else 0.0
  {
    assert r == 0 || r == 1 || r == 2 || r == 3;
  }

  /** Rows i and p exchanged. */
  function SwapRows(a: seq<real>, i: nat, p: nat): (b: seq<real>)
    requires |a| == 16 && i < 4 && p < 4
    ensures |b| == 16
  {
    seq(16, n requires 0 <= n < 16 =>
      if n / 4 == i then a[p * 4 + n % 4] else if n / 4 == p then a[i * 4 + n % 4] else a[n])
  }

  /** Row j minus f times row i. */
  function SubtractRow(a: seq<real>, j: nat, i: nat, f: real): (b: seq<real>)
    requires |a| == 16 && j < 4 && i < 4
    ensures |b| == 16
  {
    seq(16, n requires 0 <= n < 16 => if n / 4 == j then a[n] - f * a[i * 4 + n % 4] else a[n])
  }

  /** Row i divided by f. */
  function DivideRow(a: seq<real>, i: nat, f: real): (b: seq<real>)
    requires |a| == 16 && i < 4 && f != 0.0
    ensures |b| == 16
  {
    seq(16, n requires 0 <= n < 16 => if n / 4 == i then a[n] / f else a[n])
  }

  lemma SwapRowsEntry(a: seq<real>, i: nat, p: nat, r: nat, c: nat)
    requires |a| == 16 && i < 4 && p < 4 && r < 4 && c < 4
    ensures Cell(SwapRows(a, i, p), r, c) ==
      if r == i then Cell(a, p, c) else if r == p then Cell(a, i, c) else Cell(a, r, c)
  {
    assert (r * 4 + c) / 4 == r && (r * 4 + c) % 4 == c;
  }

  lemma SubtractRowEntry(a: seq<real>, j: nat, i: nat, f: real, r: nat, c: nat)
    requires |a| == 16 && j < 4 && i < 4 && r < 4 && c < 4
    ensures Cell(SubtractRow(a, j, i, f), r, c) == if r == j then Cell(a, r, c) - f * Cell(a, i, c) else Cell(a, r, c)
  {
    assert (r * 4 + c) / 4 == r && (r * 4 + c) % 4 == c;
  }

  lemma DivideRowEntry(a: seq<real>, i: nat, f: real, r: nat, c: nat)
    requires |a| == 16 && i < 4 && f != 0.0 && r < 4 && c < 4
    ensures Cell(DivideRow(a, i, f), r, c) == if r == i then Cell(a, r, c) / f else Cell(a, r, c)
  {
    assert (r * 4 + c) / 4 == r && (r * 4 + c) % 4 == c;
  }

  // ---------------------------------------------------------------------
  // Row operations commute with multiplying on the right
  // ---------------------------------------------------------------------

  /** Swapping rows of e swaps those rows of e x. */
  lemma SwapCommutes(e: seq<real>, x: seq<real>, i: nat, p: nat)
    requires |e| == 16 && |x| == 16 && i < 4 && p < 4
    ensures FlatProduct(SwapRows(e, i, p), x) == SwapRows(FlatProduct(e, x), i, p)
  {
    forall n | 0 <= n < 16
      ensures FlatProduct(SwapRows(e, i, p), x)[n] == SwapRows(FlatProduct(e, x), i, p)[n]
    {
      SwapCommutesAt(e, x, i, p, n / 4, n % 4);
    }
  }

  lemma SwapCommutesAt(e: seq<real>, x: seq<real>, i: nat, p: nat, r: nat, c: nat)
    requires |e| == 16 && |x| == 16 && i < 4 && p < 4 && r < 4 && c < 4
    ensures FlatProduct(SwapRows(e, i, p), x)[r * 4 + c] == SwapRows(FlatProduct(e, x), i, p)[r * 4 + c]
  {
    FlatProductEntry(SwapRows(e, i, p), x, r, c);
    SwapRowsEntry(FlatProduct(e, x), i, p, r, c);
    RowColSwap(e, x, i, p, r, c);
    if r == i {
      FlatProductEntry(e, x, p, c);
    } else if r == p {
      FlatProductEntry(e, x, i, c);
    } else {
      FlatProductEntry(e, x, r, c);
    }
  }

  lemma RowColSwap(e: seq<real>, x: seq<real>, i: nat, p: nat, r: nat, c: nat)
    requires |e| == 16 && |x| == 16 && i < 4 && p < 4 && r < 4 && c < 4
    ensures RowCol(SwapRows(e, i, p), x, r, c) == RowCol(e, x, if r == i then p else if r == p then i else r, c)
  {
    SwapRowsEntry(e, i, p, r, 0);
    SwapRowsEntry(e, i, p, r, 1);
    SwapRowsEntry(e, i, p, r, 2);
    SwapRowsEntry(e, i, p, r, 3);
  }

  /** Subtracting f times row i of e from row j does the same to e x. */
  lemma SubtractCommutes(e: seq<real>, x: seq<real>, j: nat, i: nat, f: real)
    requires |e| == 16 && |x| == 16 && j < 4 && i < 4
    ensures FlatProduct(SubtractRow(e, j, i, f), x) == SubtractRow(FlatProduct(e, x), j, i, f)
  {
    forall n | 0 <= n < 16
      ensures FlatProduct(SubtractRow(e, j, i, f), x)[n] == SubtractRow(FlatProduct(e, x), j, i, f)[n]
    {
      SubtractCommutesAt(e, x, j, i, f, n / 4, n % 4);
    }
  }

  lemma SubtractCommutesAt(e: seq<real>, x: seq<real>, j: nat, i: nat, f: real, r: nat, c: nat)
    requires |e| == 16 && |x| == 16 && j < 4 && i < 4 && r < 4 && c < 4
    ensures FlatProduct(SubtractRow(e, j, i, f), x)[r * 4 + c] == SubtractRow(FlatProduct(e, x), j, i, f)[r * 4 + c]
  {
    FlatProductEntry(SubtractRow(e, j, i, f), x, r, c);
    SubtractRowEntry(FlatProduct(e, x), j, i, f, r, c);
    FlatProductEntry(e, x, r, c);
    FlatProductEntry(e, x, i, c);
    RowColSubtract(e, x, j, i, f, r, c);
  }

  lemma RowColSubtract(e: seq<real>, x: seq<real>, j: nat, i: nat, f: real, r: nat, c: nat)
    requires |e| == 16 && |x| == 16 && j < 4 && i < 4 && r < 4 && c < 4
    ensures RowCol(SubtractRow(e, j, i, f), x, r, c) ==
      if r == j then RowCol(e, x, r, c) - f * RowCol(e, x, i, c) else RowCol(e, x, r, c)
  {
    if r == j {
      RowColSubtractSame(e, x, j, i, f, c);
    } else {
      RowColSubtractOther(e, x, j, i, f, r, c);
    }
  }

  lemma RowColSubtractSame(e: seq<real>, x: seq<real>, j: nat, i: nat, f: real, c: nat)
    requires |e| == 16 && |x| == 16 && j < 4 && i < 4 && c < 4
    ensures RowCol(SubtractRow(e, j, i, f), x, j, c) == RowCol(e, x, j, c) - f * RowCol(e, x, i, c)
  {
    SubtractRowEntries(e, j, i, f);
    SubtractedRowCol(e, x, SubtractRow(e, j, i, f), j, i, f, c);
  }

  /** The four entries of the changed row. */
  lemma SubtractRowEntries(e: seq<real>, j: nat, i: nat, f: real)
    requires |e| == 16 && j < 4 && i < 4
    ensures var d := SubtractRow(e, j, i, f);
      d[j * 4] == e[j * 4] - f * e[i * 4] && d[j * 4 + 1] == e[j * 4 + 1] - f * e[i * 4 + 1] &&
      d[j * 4 + 2] == e[j * 4 + 2] - f * e[i * 4 + 2] && d[j * 4 + 3] == e[j * 4 + 3] - f * e[i * 4 + 3]
  {
    SubtractRowAt(e, j, i, f, 0);
    SubtractRowAt(e, j, i, f, 1);
    SubtractRowAt(e, j, i, f, 2);
    SubtractRowAt(e, j, i, f, 3);
  }

  lemma SubtractRowAt(e: seq<real>, j: nat, i: nat, f: real, k: nat)
    requires |e| == 16 && j < 4 && i < 4 && k < 4
    ensures SubtractRow(e, j, i, f)[j * 4 + k] == e[j * 4 + k] - f * e[i * 4 + k]
  {
    assert (j * 4 + k) / 4 == j && (j * 4 + k) % 4 == k;
  }

  /** A row whose entries are row j minus f times row i, times column c. */
  lemma SubtractedRowCol(e: seq<real>, x: seq<real>, d: seq<real>, j: nat, i: nat, f: real, c: nat)
    requires |e| == 16 && |x| == 16 && |d| == 16 && j < 4 && i < 4 && c < 4
    requires d[j * 4] == e[j * 4] - f * e[i * 4] && d[j * 4 + 1] == e[j * 4 + 1] - f * e[i * 4 + 1]
    requires d[j * 4 + 2] == e[j * 4 + 2] - f * e[i * 4 + 2] && d[j * 4 + 3] == e[j * 4 + 3] - f * e[i * 4 + 3]
    ensures RowCol(d, x, j, c) == RowCol(e, x, j, c) - f * RowCol(e, x, i, c)
  {
    RowColSum4(d, x, j, c);
    RowColSum4(e, x, j, c);
    RowColSum4(e, x, i, c);
    SubtractTerms(e[j * 4], e[j * 4 + 1], e[j * 4 + 2], e[j * 4 + 3],
      e[i * 4], e[i * 4 + 1], e[i * 4 + 2], e[i * 4 + 3], d[j * 4], d[j * 4 + 1], d[j * 4 + 2], d[j * 4 + 3],
      x[c], x[4 + c], x[8 + c], x[12 + c], f);
  }

  lemma RowColSubtractOther(e: seq<real>, x: seq<real>, j: nat, i: nat, f: real, r: nat, c: nat)
    requires |e| == 16 && |x| == 16 && j < 4 && i < 4 && r < 4 && c < 4 && r != j
    ensures RowCol(SubtractRow(e, j, i, f), x, r, c) == RowCol(e, x, r, c)
  {
    var d := SubtractRow(e, j, i, f);
    assert d[r * 4] == e[r * 4] by { SubtractRowEntry(e, j, i, f, r, 0); }
    assert d[r * 4 + 1] == e[r * 4 + 1] by { SubtractRowEntry(e, j, i, f, r, 1); }
    assert d[r * 4 + 2] == e[r * 4 + 2] by { SubtractRowEntry(e, j, i, f, r, 2); }
    assert d[r * 4 + 3] == e[r * 4 + 3] by { SubtractRowEntry(e, j, i, f, r, 3); }
  }

  /** Dividing row i of e by f does the same to e x. */
  lemma DivideCommutes(e: seq<real>, x: seq<real>, i: nat, f: real)
    requires |e| == 16 && |x| == 16 && i < 4 && f != 0.0
    ensures FlatProduct(DivideRow(e, i, f), x) == DivideRow(FlatProduct(e, x), i, f)
  {
    forall n | 0 <= n < 16
      ensures FlatProduct(DivideRow(e, i, f), x)[n] == DivideRow(FlatProduct(e, x), i, f)[n]
    {
      DivideCommutesAt(e, x, i, f, n / 4, n % 4);
    }
  }

  lemma DivideCommutesAt(e: seq<real>, x: seq<real>, i: nat, f: real, r: nat, c: nat)
    requires |e| == 16 && |x| == 16 && i < 4 && f != 0.0 && r < 4 && c < 4
    ensures FlatProduct(DivideRow(e, i, f), x)[r * 4 + c] == DivideRow(FlatProduct(e, x), i, f)[r * 4 + c]
  {
    FlatProductEntry(DivideRow(e, i, f), x, r, c);
    DivideRowEntry(FlatProduct(e, x), i, f, r, c);
    FlatProductEntry(e, x, r, c);
    RowColDivide(e, x, i, f, r, c);
  }

  lemma RowColDivide(e: seq<real>, x: seq<real>, i: nat, f: real, r: nat, c: nat)
    requires |e| == 16 && |x| == 16 && i < 4 && f != 0.0 && r < 4 && c < 4
    ensures RowCol(DivideRow(e, i, f), x, r, c) == if r == i then RowCol(e, x, r, c) / f else RowCol(e, x, r, c)
  {
    if r == i {
      DivideRowEntries(e, i, f);
      DividedRowCol(e, x, DivideRow(e, i, f), i, f, c);
    } else {
      RowColDivideOther(e, x, i, f, r, c);
    }
  }

  /** The four entries of the divided row. */
  lemma DivideRowEntries(e: seq<real>, i: nat, f: real)
    requires |e| == 16 && i < 4 && f != 0.0
    ensures var d := DivideRow(e, i, f);
      d[i * 4] == e[i * 4] / f && d[i * 4 + 1] == e[i * 4 + 1] / f &&
      d[i * 4 + 2] == e[i * 4 + 2] / f && d[i * 4 + 3] == e[i * 4 + 3] / f
  {
    DivideRowAt(e, i, f, 0);
    DivideRowAt(e, i, f, 1);
    DivideRowAt(e, i, f, 2);
    DivideRowAt(e, i, f, 3);
  }

  lemma DivideRowAt(e: seq<real>, i: nat, f: real, k: nat)
    requires |e| == 16 && i < 4 && f != 0.0 && k < 4
    ensures DivideRow(e, i, f)[i * 4 + k] == e[i * 4 + k] / f
  {
    assert (i * 4 + k) / 4 == i && (i * 4 + k) % 4 == k;
  }

  /** A row whose entries are row i divided by f, times column c. */
  lemma DividedRowCol(e: seq<real>, x: seq<real>, d: seq<real>, i: nat, f: real, c: nat)
    requires |e| == 16 && |x| == 16 && |d| == 16 && i < 4 && c < 4 && f != 0.0
    requires d[i * 4] == e[i * 4] / f && d[i * 4 + 1] == e[i * 4 + 1] / f
    requires d[i * 4 + 2] == e[i * 4 + 2] / f && d[i * 4 + 3] == e[i * 4 + 3] / f
    ensures RowCol(d, x, i, c) == RowCol(e, x, i, c) / f
  {
    RowColSum4(d, x, i, c);
    RowColSum4(e, x, i, c);
    DivideTerms(e[i * 4], e[i * 4 + 1], e[i * 4 + 2], e[i * 4 + 3], d[i * 4], d[i * 4 + 1], d[i * 4 + 2], d[i * 4 + 3],
      x[c], x[4 + c], x[8 + c], x[12 + c], f);
  }

  lemma RowColDivideOther(e: seq<real>, x: seq<real>, i: nat, f: real, r: nat, c: nat)
    requires |e| == 16 && |x| == 16 && i < 4 && f != 0.0 && r < 4 && c < 4 && r != i
    ensures RowCol(DivideRow(e, i, f), x, r, c) == RowCol(e, x, r, c)
  {
    var d := DivideRow(e, i, f);
    assert d[r * 4] == e[r * 4] by { DivideRowEntry(e, i, f, r, 0); }
    assert d[r * 4 + 1] == e[r * 4 + 1] by { DivideRowEntry(e, i, f, r, 1); }
    assert d[r * 4 + 2] == e[r * 4 + 2] by { DivideRowEntry(e, i, f, r, 2); }
    assert d[r * 4 + 3] == e[r * 4 + 3] by { DivideRowEntry(e, i, f, r, 3); }
  }


  /** A four-term dot product over scalars. */
  function Sum4(a0: real, a1: real, a2: real, a3: real, x0: real, x1: real, x2: real, x3: real): real
  {
    a0 * x0 + a1 * x1 + a2 * x2 + a3 * x3
  }

  lemma RowColSum4(e: seq<real>, x: seq<real>, r: nat, c: nat)
    requires |e| == 16 && |x| == 16 && r < 4 && c < 4
    ensures RowCol(e, x, r, c) == Sum4(e[r * 4], e[r * 4 + 1], e[r * 4 + 2], e[r * 4 + 3], x[c], x[4 + c], x[8 + c], x[12 + c])
  {
  }

  lemma SubtractTerms(a0: real, a1: real, a2: real, a3: real, b0: real, b1: real, b2: real, b3: real,
      d0: real, d1: real, d2: real, d3: real, x0: real, x1: real, x2: real, x3: real, f: real)
    requires d0 == a0 - f * b0 && d1 == a1 - f * b1 && d2 == a2 - f * b2 && d3 == a3 - f * b3
    ensures Sum4(d0, d1, d2, d3, x0, x1, x2, x3) ==
      Sum4(a0, a1, a2, a3, x0, x1, x2, x3) - f * Sum4(b0, b1, b2, b3, x0, x1, x2, x3)
  {
  }

  lemma DivideTerms(a0: real, a1: real, a2: real, a3: real, d0: real, d1: real, d2: real, d3: real,
      x0: real, x1: real, x2: real, x3: real, f: real)
    requires f != 0.0 && d0 == a0 / f && d1 == a1 / f && d2 == a2 / f && d3 == a3 / f
    ensures Sum4(d0, d1, d2, d3, x0, x1, x2, x3) == Sum4(a0, a1, a2, a3, x0, x1, x2, x3) / f
  {
    assert d0 * x0 + d1 * x1 + d2 * x2 + d3 * x3 == (a0 * x0) / f + (a1 * x1) / f + (a2 * x2) / f + (a3 * x3) / f;
  }

  /** The identity is a left unit of the flat product. */
  lemma LeftIdentity(x: seq<real>)
    requires |x| == 16
    ensures FlatProduct(IdentityFlat(), x) == x
  {
    var p := FlatProduct(IdentityFlat(), x);
    forall n | 0 <= n < 16
      ensures p[n] == x[n]
    {
      var r, c := n / 4, n % 4;
      FlatProductEntry(IdentityFlat(), x, r, c);
      assert r == 0 || r == 1 || r == 2 || r == 3;
    }
  }

  /** The identity is a right unit of the flat product. */
  lemma RightIdentity(e: seq<real>)
    requires |e| == 16
    ensures FlatProduct(e, IdentityFlat()) == e
  {
    var p := FlatProduct(e, IdentityFlat());
    forall n | 0 <= n < 16
      ensures p[n] == e[n]
    {
      var r, c := n / 4, n % 4;
      FlatProductEntry(e, IdentityFlat(), r, c);
      assert c == 0 || c == 1 || c == 2 || c == 3;
    }
  }

  // ---------------------------------------------------------------------
  // Associativity, and every row operation undone by another
  // ---------------------------------------------------------------------

  /** A four-term sum scaled by c is the sum with every second factor scaled by c. */
  lemma ScaleSum4(a0: real, a1: real, a2: real, a3: real, x0: real, x1: real, x2: real, x3: real, c: real)
    ensures Sum4(a0, a1, a2, a3, x0, x1, x2, x3) * c == Sum4(a0, a1, a2, a3, x0 * c, x1 * c, x2 * c, x3 * c)
  {
  }

  /** One entry of (a b) c and of a (b c), written out over scalars: b_lk is row l, column k of b. */
  lemma AssocTerms(a0: real, a1: real, a2: real, a3: real,
      b00: real, b01: real, b02: real, b03: real, b10: real, b11: real, b12: real, b13: real,
      b20: real, b21: real, b22: real, b23: real, b30: real, b31: real, b32: real, b33: real,
      c0: real, c1: real, c2: real, c3: real)
    ensures Sum4(Sum4(a0, a1, a2, a3, b00, b10, b20, b30), Sum4(a0, a1, a2, a3, b01, b11, b21, b31),
                 Sum4(a0, a1, a2, a3, b02, b12, b22, b32), Sum4(a0, a1, a2, a3, b03, b13, b23, b33),
                 c0, c1, c2, c3)
         == Sum4(a0, a1, a2, a3,
                 Sum4(b00, b01, b02, b03, c0, c1, c2, c3), Sum4(b10, b11, b12, b13, c0, c1, c2, c3),
                 Sum4(b20, b21, b22, b23, c0, c1, c2, c3), Sum4(b30, b31, b32, b33, c0, c1, c2, c3))
  {
    ScaleSum4(a0, a1, a2, a3, b00, b10, b20, b30, c0);
    ScaleSum4(a0, a1, a2, a3, b01, b11, b21, b31, c1);
    ScaleSum4(a0, a1, a2, a3, b02, b12, b22, b32, c2);
    ScaleSum4(a0, a1, a2, a3, b03, b13, b23, b33, c3);
    Distribute4(a0, b00 * c0, b01 * c1, b02 * c2, b03 * c3);
    Distribute4(a1, b10 * c0, b11 * c1, b12 * c2, b13 * c3);
    Distribute4(a2, b20 * c0, b21 * c1, b22 * c2, b23 * c3);
    Distribute4(a3, b30 * c0, b31 * c1, b32 * c2, b33 * c3);
  }

  lemma Distribute4(a: real, y0: real, y1: real, y2: real, y3: real)
    ensures a * (y0 + y1 + y2 + y3) == a * y0 + a * y1 + a * y2 + a * y3
  {
  }

  /**
   * Entry (r, k) of ab c is entry (r, k) of a bc, for any ab holding row r
   * of a b and any bc holding column k of b c.
   */
  lemma AssocCombine(a: seq<real>, b: seq<real>, c: seq<real>, ab: seq<real>, bc: seq<real>, r: nat, k: nat)
    requires |a| == 16 && |b| == 16 && |c| == 16 && |ab| == 16 && |bc| == 16 && r < 4 && k < 4
    requires ab[r * 4] == RowCol(a, b, r, 0) && ab[r * 4 + 1] == RowCol(a, b, r, 1)
    requires ab[r * 4 + 2] == RowCol(a, b, r, 2) && ab[r * 4 + 3] == RowCol(a, b, r, 3)
    requires bc[k] == RowCol(b, c, 0, k) && bc[4 + k] == RowCol(b, c, 1, k)
    requires bc[8 + k] == RowCol(b, c, 2, k) && bc[12 + k] == RowCol(b, c, 3, k)
    ensures RowCol(ab, c, r, k) == RowCol(a, bc, r, k)
  {
    RowColSum4(ab, c, r, k);
    RowColSum4(a, bc, r, k);
    RowColSum4(a, b, r, 0);
    RowColSum4(a, b, r, 1);
    RowColSum4(a, b, r, 2);
    RowColSum4(a, b, r, 3);
    RowColSum4(b, c, 0, k);
    RowColSum4(b, c, 1, k);
    RowColSum4(b, c, 2, k);
    RowColSum4(b, c, 3, k);
    AssocTerms(a[r * 4], a[r * 4 + 1], a[r * 4 + 2], a[r * 4 + 3],
      b[0], b[1], b[2], b[3], b[4], b[5], b[6], b[7], b[8], b[9], b[10], b[11], b[12], b[13], b[14], b[15],
      c[k], c[4 + k], c[8 + k], c[12 + k]);
  }

  /** Entry (r, k) of (a b) c is entry (r, k) of a (b c). */
  lemma AssocAt(a: seq<real>, b: seq<real>, c: seq<real>, r: nat, k: nat)
    requires |a| == 16 && |b| == 16 && |c| == 16 && r < 4 && k < 4
    ensures FlatProduct(FlatProduct(a, b), c)[r * 4 + k] == FlatProduct(a, FlatProduct(b, c))[r * 4 + k]
  {
    var ab, bc := FlatProduct(a, b), FlatProduct(b, c);
    FlatProductEntry(ab, c, r, k);
    FlatProductEntry(a, bc, r, k);
    FlatProductEntry(a, b, r, 0);
    FlatProductEntry(a, b, r, 1);
    FlatProductEntry(a, b, r, 2);
    FlatProductEntry(a, b, r, 3);
    FlatProductEntry(b, c, 0, k);
    FlatProductEntry(b, c, 1, k);
    FlatProductEntry(b, c, 2, k);
    FlatProductEntry(b, c, 3, k);
    AssocCombine(a, b, c, ab, bc, r, k);
  }

  /** The flat product is associative. */
  lemma FlatAssoc(a: seq<real>, b: seq<real>, c: seq<real>)
    requires |a| == 16 && |b| == 16 && |c| == 16
    ensures FlatProduct(FlatProduct(a, b), c) == FlatProduct(a, FlatProduct(b, c))
  {
    var p, q := FlatProduct(FlatProduct(a, b), c), FlatProduct(a, FlatProduct(b, c));
    forall n | 0 <= n < 16
      ensures p[n] == q[n]
    {
      AssocAt(a, b, c, n / 4, n % 4);
    }
  }

  /** Exchanging the same two rows again restores the matrix. */
  lemma SwapUndone(a: seq<real>, i: nat, p: nat)
    requires |a| == 16 && i < 4 && p < 4
    ensures SwapRows(SwapRows(a, i, p), i, p) == a
  {
    var b := SwapRows(a, i, p);
    forall r: nat, c: nat | r < 4 && c < 4
      ensures Cell(SwapRows(b, i, p), r, c) == Cell(a, r, c)
    {
      SwapRowsEntry(b, i, p, r, c);
      SwapRowsEntry(a, i, p, i, c);
      SwapRowsEntry(a, i, p, p, c);
      SwapRowsEntry(a, i, p, r, c);
    }
    SameCells(SwapRows(b, i, p), a);
  }

  /** Adding back f times row i undoes subtracting it, as long as the two rows differ. */
  lemma SubtractUndone(a: seq<real>, j: nat, i: nat, f: real)
    requires |a| == 16 && j < 4 && i < 4 && j != i
    ensures SubtractRow(SubtractRow(a, j, i, f), j, i, -f) == a
  {
    var b := SubtractRow(a, j, i, f);
    forall r: nat, c: nat | r < 4 && c < 4
      ensures Cell(SubtractRow(b, j, i, -f), r, c) == Cell(a, r, c)
    {
      SubtractRowEntry(b, j, i, -f, r, c);
      SubtractRowEntry(a, j, i, f, r, c);
      SubtractRowEntry(a, j, i, f, i, c);
    }
    SameCells(SubtractRow(b, j, i, -f), a);
  }

  lemma DivideByReciprocal(x: real, f: real)
    requires f != 0.0
    ensures 1.0 / f != 0.0 && (x / f) / (1.0 / f) == x
  {
  }

  /** Dividing row i by 1 / f undoes dividing it by f. */
  lemma DivideUndone(a: seq<real>, i: nat, f: real)
    requires |a| == 16 && i < 4 && f != 0.0
    ensures 1.0 / f != 0.0 && DivideRow(DivideRow(a, i, f), i, 1.0 / f) == a
  {
    DivideByReciprocal(0.0, f);
    var b := DivideRow(a, i, f);
    forall r: nat, c: nat | r < 4 && c < 4
      ensures Cell(DivideRow(b, i, 1.0 / f), r, c) == Cell(a, r, c)
    {
      DivideRowEntry(b, i, 1.0 / f, r, c);
      DivideRowEntry(a, i, f, r, c);
      DivideByReciprocal(Cell(a, r, c), f);
    }
    SameCells(DivideRow(b, i, 1.0 / f), a);
  }

  /** The exchange applied to the identity, times the exchanged e, gives e back. */
  lemma SwapInverse(e: seq<real>, i: nat, p: nat)
    requires |e| == 16 && i < 4 && p < 4
    ensures FlatProduct(SwapRows(IdentityFlat(), i, p), SwapRows(e, i, p)) == e
  {
    SwapCommutes(IdentityFlat(), SwapRows(e, i, p), i, p);
    LeftIdentity(SwapRows(e, i, p));
    SwapUndone(e, i, p);
  }

  /** Adding back f times row i, applied to the identity, times the subtracted e, gives e back. */
  lemma SubtractInverse(e: seq<real>, j: nat, i: nat, f: real)
    requires |e| == 16 && j < 4 && i < 4 && j != i
    ensures FlatProduct(SubtractRow(IdentityFlat(), j, i, -f), SubtractRow(e, j, i, f)) == e
  {
    var x := SubtractRow(e, j, i, f);
    calc {
      FlatProduct(SubtractRow(IdentityFlat(), j, i, -f), x);
      { SubtractCommutes(IdentityFlat(), x, j, i, -f); }
      SubtractRow(FlatProduct(IdentityFlat(), x), j, i, -f);
      { LeftIdentity(x); }
      SubtractRow(x, j, i, -f);
      { SubtractUndone(e, j, i, f); }
      e;
    }
  }

  /** Dividing row i of the identity by 1 / f, times the divided e, gives e back. */
  lemma DivideInverse(e: seq<real>, i: nat, f: real)
    requires |e| == 16 && i < 4 && f != 0.0
    ensures 1.0 / f != 0.0
    ensures FlatProduct(DivideRow(IdentityFlat(), i, 1.0 / f), DivideRow(e, i, f)) == e
  {
    DivideUndone(e, i, f);
    DivideCommutes(IdentityFlat(), DivideRow(e, i, f), i, 1.0 / f);
    LeftIdentity(DivideRow(e, i, f));
  }

  /** A left inverse g of e stays one, as g v, when v undoes the step from e to e2. */
  lemma LeftInverseStep(g: seq<real>, e: seq<real>, e2: seq<real>, v: seq<real>)
    requires |g| == 16 && |e| == 16 && |e2| == 16 && |v| == 16
    requires FlatProduct(g, e) == IdentityFlat() && FlatProduct(v, e2) == e
    ensures FlatProduct(FlatProduct(g, v), e2) == IdentityFlat()
  {
    FlatAssoc(g, v, e2);
  }

  /**
   * When g is a left inverse of e and e t0 is the identity, t0 is g, so e
   * is a right inverse of t0 as well.
   */
  lemma TwoSided(g: seq<real>, e: seq<real>, t0: seq<real>)
    requires |g| == 16 && |e| == 16 && |t0| == 16
    requires FlatProduct(g, e) == IdentityFlat() && FlatProduct(e, t0) == IdentityFlat()
    ensures t0 == g && FlatProduct(t0, e) == IdentityFlat()
  {
    FlatAssoc(g, e, t0);
    LeftIdentity(t0);
    RightIdentity(g);
  }

  /**
   * A right inverse of a matrix with nonzero determinant is the back-end's
   * adjugate inverse.
   */
  lemma RightInverseIsInverse(x: seq<real>, s: seq<real>)
    requires |x| == 16 && |s| == 16
    requires FlatProduct(x, s) == IdentityFlat() && Det4(Unflat(x)) != 0.0
    ensures Unflat(s) == Inverse(Unflat(x))
  {
    var inv := Inverse(Unflat(x));
    var y := Flat(inv);
    InverseIsLeftInverse(Unflat(x));
    FlatRoundTrip(inv, x);
    FlatProductIsProduct(y, x);
    UnflatIdentity();
    FlatRoundTrip(Identity(), FlatProduct(y, x));
    FlatRoundTrip(Identity(), IdentityFlat());
    assert FlatProduct(y, x) == IdentityFlat();
    FlatAssoc(y, x, s);
    RightIdentity(y);
    LeftIdentity(s);
    FlatRoundTrip(inv, s);
  }

  /** One exchange, applied to e, to both products and to the left inverse u of e. */
  lemma SwapStep(e: seq<real>, u: seq<real>, t0: seq<real>, s0: seq<real>, i: nat, p: nat)
    requires |e| == 16 && |u| == 16 && |t0| == 16 && |s0| == 16 && i < 4 && p < 4
    requires FlatProduct(u, e) == IdentityFlat()
    ensures FlatProduct(SwapRows(e, i, p), t0) == SwapRows(FlatProduct(e, t0), i, p)
    ensures FlatProduct(SwapRows(e, i, p), s0) == SwapRows(FlatProduct(e, s0), i, p)
    ensures FlatProduct(FlatProduct(u, SwapRows(IdentityFlat(), i, p)), SwapRows(e, i, p)) == IdentityFlat()
  {
    SwapCommutes(e, t0, i, p);
    SwapCommutes(e, s0, i, p);
    SwapInverse(e, i, p);
    LeftInverseStep(u, e, SwapRows(e, i, p), SwapRows(IdentityFlat(), i, p));
  }

  /** One row subtraction, applied to e, to both products and to the left inverse u of e. */
  lemma SubtractStep(e: seq<real>, u: seq<real>, t0: seq<real>, s0: seq<real>, j: nat, i: nat, f: real)
    requires |e| == 16 && |u| == 16 && |t0| == 16 && |s0| == 16 && j < 4 && i < 4 && j != i
    requires FlatProduct(u, e) == IdentityFlat()
    ensures FlatProduct(SubtractRow(e, j, i, f), t0) == SubtractRow(FlatProduct(e, t0), j, i, f)
    ensures FlatProduct(SubtractRow(e, j, i, f), s0) == SubtractRow(FlatProduct(e, s0), j, i, f)
    ensures FlatProduct(FlatProduct(u, SubtractRow(IdentityFlat(), j, i, -f)), SubtractRow(e, j, i, f)) == IdentityFlat()
  {
    SubtractCommutes(e, t0, j, i, f);
    SubtractCommutes(e, s0, j, i, f);
    SubtractInverse(e, j, i, f);
    LeftInverseStep(u, e, SubtractRow(e, j, i, f), SubtractRow(IdentityFlat(), j, i, -f));
  }

  /** One row division, applied to e, to both products and to the left inverse u of e. */
  lemma DivideStep(e: seq<real>, u: seq<real>, t0: seq<real>, s0: seq<real>, i: nat, f: real)
    requires |e| == 16 && |u| == 16 && |t0| == 16 && |s0| == 16 && i < 4 && f != 0.0
    requires FlatProduct(u, e) == IdentityFlat()
    ensures 1.0 / f != 0.0
    ensures FlatProduct(DivideRow(e, i, f), t0) == DivideRow(FlatProduct(e, t0), i, f)
    ensures FlatProduct(DivideRow(e, i, f), s0) == DivideRow(FlatProduct(e, s0), i, f)
    ensures FlatProduct(FlatProduct(u, DivideRow(IdentityFlat(), i, 1.0 / f)), DivideRow(e, i, f)) == IdentityFlat()
  {
    DivideCommutes(e, t0, i, f);
    DivideCommutes(e, s0, i, f);
    DivideInverse(e, i, f);
    LeftInverseStep(u, e, DivideRow(e, i, f), DivideRow(IdentityFlat(), i, 1.0 / f));
  }

  /**
   * What the finished elimination gives: with u a left inverse of e and
   * e t0 the identity, e = e s0 for s0 the identity is a two-sided inverse
   * of t0, and the back-end's inverse when det t0 != 0.
   */
  lemma Finished(e: seq<real>, u: seq<real>, t0: seq<real>, s: seq<real>)
    requires |e| == 16 && |u| == 16 && |t0| == 16 && |s| == 16
    requires FlatProduct(u, e) == IdentityFlat() && FlatProduct(e, t0) == IdentityFlat()
    requires s == FlatProduct(e, IdentityFlat())
    ensures FlatProduct(s, t0) == IdentityFlat() && FlatProduct(t0, s) == IdentityFlat()
    ensures MatrixProduct(Unflat(s), Unflat(t0)) == Identity()
    ensures Det4(Unflat(t0)) != 0.0 ==> Unflat(s) == Inverse(Unflat(t0))
  {
    RightIdentity(e);
    FlatProductIsProduct(s, t0);
    UnflatIdentity();
    TwoSided(u, e, t0);
    if Det4(Unflat(t0)) != 0.0 {
      RightInverseIsInverse(t0, s);
    }
  }

  // ---------------------------------------------------------------------
  // The shapes the elimination goes through
  // ---------------------------------------------------------------------

  /** Columns 0 .. i-1 are zero below the diagonal. */
  ghost predicate LowerZero(a: seq<real>, i: nat)
    requires |a| == 16
  {
    forall r: nat, c: nat | c < i && c < r < 4 :: Cell(a, r, c) == 0.0
  }

  /** Column i is zero in rows i+1 .. j-1. */
  ghost predicate ColumnZeroBelow(a: seq<real>, i: nat, j: nat)
    requires |a| == 16 && i < 4
  {
    forall r: nat | i < r < j && r < 4 :: Cell(a, r, i) == 0.0
  }

  /** Row r is row r of the identity. */
  ghost predicate UnitRow(a: seq<real>, r: nat)
    requires |a| == 16 && r < 4
  {
    forall c: nat | c < 4 :: Cell(a, r, c) == if r == c then 1.0 else 0.0
  }

  /**
   * Before back substitution reaches row i: the rows below i are identity
   * rows, and the rows up to i are upper triangular with nothing right of
   * column i.
   */
  ghost predicate BackShape(a: seq<real>, i: int)
    requires |a| == 16 && -1 <= i < 4
  {
    && (forall r: nat | i < r < 4 :: UnitRow(a, r))
    && (forall r: nat, c: nat | r <= i && c < 4 && (c < r || c > i) :: Cell(a, r, c) == 0.0)
  }

  /** Back substitution in row i, with rows 0 .. j-1 above it cleared in column i. */
  ghost predicate BackPartial(a: seq<real>, i: nat, j: nat)
    requires |a| == 16 && i < 4
  {
    && (forall r: nat | i <= r < 4 :: UnitRow(a, r))
    && (forall r: nat, c: nat | r < i && c < 4 && (c < r || c > i || (r < j && c == i)) :: Cell(a, r, c) == 0.0)
  }

  /** Exchanging row i with a row below keeps columns 0 .. i-1 zero below the diagonal. */
  lemma SwapKeepsLowerZero(a: seq<real>, i: nat, p: nat)
    requires |a| == 16 && i <= p < 4 && LowerZero(a, i)
    ensures LowerZero(SwapRows(a, i, p), i)
  {
    forall r: nat, c: nat | c < i && c < r < 4
      ensures Cell(SwapRows(a, i, p), r, c) == 0.0
    {
      SwapRowsEntry(a, i, p, r, c);
    }
  }

  /** Subtracting the multiple of the pivot row that zeroes column i of row j. */
  lemma EliminateBelow(a: seq<real>, i: nat, j: nat)
    requires |a| == 16 && i < j < 4 && Cell(a, i, i) != 0.0
    requires LowerZero(a, i) && ColumnZeroBelow(a, i, j)
    ensures var b := SubtractRow(a, j, i, Cell(a, j, i) / Cell(a, i, i));
      LowerZero(b, i) && ColumnZeroBelow(b, i, j + 1) && Cell(b, i, i) == Cell(a, i, i)
  {
    var f := Cell(a, j, i) / Cell(a, i, i);
    var b := SubtractRow(a, j, i, f);
    forall r: nat, c: nat | c < i && c < r < 4
      ensures Cell(b, r, c) == 0.0
    {
      SubtractRowEntry(a, j, i, f, r, c);
    }
    forall r: nat | i < r < j + 1 && r < 4
      ensures Cell(b, r, i) == 0.0
    {
      SubtractRowEntry(a, j, i, f, r, i);
    }
    SubtractRowEntry(a, j, i, f, i, i);
  }

  /** With column i cleared below the diagonal, columns 0 .. i are. */
  lemma LowerZeroNext(a: seq<real>, i: nat)
    requires |a| == 16 && i < 4 && LowerZero(a, i) && ColumnZeroBelow(a, i, 4)
    ensures LowerZero(a, i + 1)
  {
  }

  /** After forward elimination the matrix is upper triangular. */
  lemma ForwardDone(a: seq<real>)
    requires |a| == 16 && LowerZero(a, 3)
    ensures BackShape(a, 3)
  {
  }

  /** Dividing row i by its diagonal entry makes it an identity row. */
  lemma DivideUnit(a: seq<real>, i: nat)
    requires |a| == 16 && i < 4 && Cell(a, i, i) != 0.0 && BackShape(a, i)
    ensures BackPartial(DivideRow(a, i, Cell(a, i, i)), i, 0)
  {
    var f := Cell(a, i, i);
    var b := DivideRow(a, i, f);
    forall r: nat | i <= r < 4
      ensures UnitRow(b, r)
    {
      forall c: nat | c < 4
        ensures Cell(b, r, c) == if r == c then 1.0 else 0.0
      {
        DivideRowEntry(a, i, f, r, c);
        if r != i {
          assert UnitRow(a, r);
        }
      }
    }
    forall r: nat, c: nat | r < i && c < 4 && (c < r || c > i)
      ensures Cell(b, r, c) == 0.0
    {
      DivideRowEntry(a, i, f, r, c);
    }
  }

  /** Subtracting t[j][i] times the identity row i clears column i of row j. */
  lemma ClearAbove(a: seq<real>, i: nat, j: nat)
    requires |a| == 16 && j < i < 4 && BackPartial(a, i, j)
    ensures BackPartial(SubtractRow(a, j, i, Cell(a, j, i)), i, j + 1)
  {
    var f := Cell(a, j, i);
    var b := SubtractRow(a, j, i, f);
    assert UnitRow(a, i);
    forall r: nat | i <= r < 4
      ensures UnitRow(b, r)
    {
      assert UnitRow(a, r);
      forall c: nat | c < 4
        ensures Cell(b, r, c) == if r == c then 1.0 else 0.0
      {
        SubtractRowEntry(a, j, i, f, r, c);
      }
    }
    forall r: nat, c: nat | r < i && c < 4 && (c < r || c > i || (r < j + 1 && c == i))
      ensures Cell(b, r, c) == 0.0
    {
      SubtractRowEntry(a, j, i, f, r, c);
      assert Cell(a, i, c) == if i == c then 1.0 else 0.0;
    }
  }

  /** Row i done: the shape for row i - 1. */
  lemma BackStep(a: seq<real>, i: nat)
    requires |a| == 16 && i < 4 && BackPartial(a, i, i)
    ensures BackShape(a, i - 1)
  {
  }

  /** Back substitution done: the identity. */
  lemma BackDone(a: seq<real>)
    requires |a| == 16 && BackShape(a, -1)
    ensures a == IdentityFlat()
  {
    forall n | 0 <= n < 16
      ensures a[n] == IdentityFlat()[n]
    {
      var r: nat, c: nat := n / 4, n % 4;
      assert UnitRow(a, r);
      assert Cell(a, r, c) == if r == c then 1.0 else 0.0;
      IdentityEntry(r, c);
    }
  }

  /** Two flat matrices that agree cell by cell are equal. */
  lemma SameCells(a: seq<real>, b: seq<real>)
    requires |a| == 16 && |b| == 16
    requires forall r: nat, c: nat | r < 4 && c < 4 :: Cell(a, r, c) == Cell(b, r, c)
    ensures a == b
  {
    forall n | 0 <= n < 16
      ensures a[n] == b[n]
    {
      var r: nat, c: nat := n / 4, n % 4;
      assert Cell(a, r, c) == Cell(b, r, c);
    }
  }

  // ---------------------------------------------------------------------
  // The steps of naiveMatrixInverse on the two arrays
  // ---------------------------------------------------------------------

  /**
   * The pivot search: the first row at or below i whose entry in column i
   * has the largest magnitude, and that magnitude.
   */
  method FindPivot(t: array<real>, i: nat) returns (pivot: nat, pivotsize: real)
    requires t.Length == 16 && i < 4
    ensures i <= pivot < 4 && pivotsize == Abs(Cell(t[..], pivot, i))
    ensures forall r: nat | i <= r < 4 :: Abs(Cell(t[..], r, i)) <= pivotsize
    ensures forall r: nat | i <= r < pivot :: Abs(Cell(t[..], r, i)) < pivotsize
  {
    pivot := i;
    pivotsize := t[i * 4 + i];
    if pivotsize < 0.0 {
      pivotsize := -pivotsize;
    }
    for j := i + 1 to 4
      invariant i <= pivot < j && pivotsize == Abs(Cell(t[..], pivot, i))
      invariant forall r: nat | i <= r < j :: Abs(Cell(t[..], r, i)) <= pivotsize
      invariant forall r: nat | i <= r < pivot :: Abs(Cell(t[..], r, i)) < pivotsize
    {
      var tmp := t[j * 4 + i];
      if tmp < 0.0 {
        tmp := -tmp;
      }
      if tmp > pivotsize {
        pivot := j;
        pivotsize := tmp;
      }
    }
  }

  /** Columns 0 .. j-1 of rows i and p of a0 exchanged. */
  ghost predicate SwapPartial(a: seq<real>, a0: seq<real>, i: nat, p: nat, j: nat)
    requires |a| == 16 && |a0| == 16 && i < 4 && p < 4
  {
    forall r: nat, c: nat | r < 4 && c < 4 ::
      Cell(a, r, c) == if r == i && c < j then Cell(a0, p, c) else if r == p && c < j then Cell(a0, i, c) else Cell(a0, r, c)
  }

  lemma SwapColumn(a: seq<real>, a0: seq<real>, i: nat, p: nat, j: nat)
    requires |a| == 16 && |a0| == 16 && i < 4 && p < 4 && i != p && j < 4 && SwapPartial(a, a0, i, p, j)
    ensures SwapPartial(a[i * 4 + j := a[p * 4 + j]][p * 4 + j := a[i * 4 + j]], a0, i, p, j + 1)
  {
  }

  lemma SwapPartialDone(a: seq<real>, a0: seq<real>, i: nat, p: nat)
    requires |a| == 16 && |a0| == 16 && i < 4 && p < 4 && SwapPartial(a, a0, i, p, 4)
    ensures a == SwapRows(a0, i, p)
  {
    forall r: nat, c: nat | r < 4 && c < 4
      ensures Cell(a, r, c) == Cell(SwapRows(a0, i, p), r, c)
    {
      SwapRowsEntry(a0, i, p, r, c);
    }
    SameCells(a, SwapRows(a0, i, p));
  }

  /** Columns 0 .. k-1 of row j of a0 reduced by f times row i. */
  ghost predicate SubtractPartial(a: seq<real>, a0: seq<real>, j: nat, i: nat, f: real, k: nat)
    requires |a| == 16 && |a0| == 16 && j < 4 && i < 4
  {
    forall r: nat, c: nat | r < 4 && c < 4 ::
      Cell(a, r, c) == if r == j && c < k then Cell(a0, j, c) - f * Cell(a0, i, c) else Cell(a0, r, c)
  }

  lemma SubtractColumn(a: seq<real>, a0: seq<real>, j: nat, i: nat, f: real, k: nat)
    requires |a| == 16 && |a0| == 16 && j < 4 && i < 4 && j != i && k < 4 && SubtractPartial(a, a0, j, i, f, k)
    ensures SubtractPartial(a[j * 4 + k := a[j * 4 + k] - f * a[i * 4 + k]], a0, j, i, f, k + 1)
  {
  }

  lemma SubtractPartialDone(a: seq<real>, a0: seq<real>, j: nat, i: nat, f: real)
    requires |a| == 16 && |a0| == 16 && j < 4 && i < 4 && SubtractPartial(a, a0, j, i, f, 4)
    ensures a == SubtractRow(a0, j, i, f)
  {
    forall r: nat, c: nat | r < 4 && c < 4
      ensures Cell(a, r, c) == Cell(SubtractRow(a0, j, i, f), r, c)
    {
      SubtractRowEntry(a0, j, i, f, r, c);
    }
    SameCells(a, SubtractRow(a0, j, i, f));
  }

  /** Columns 0 .. j-1 of row i of a0 divided by f. */
  ghost predicate DividePartial(a: seq<real>, a0: seq<real>, i: nat, f: real, j: nat)
    requires |a| == 16 && |a0| == 16 && i < 4 && f != 0.0
  {
    forall r: nat, c: nat | r < 4 && c < 4 ::
      Cell(a, r, c) == if r == i && c < j then Cell(a0, r, c) / f else Cell(a0, r, c)
  }

  lemma DivideColumn(a: seq<real>, a0: seq<real>, i: nat, f: real, j: nat)
    requires |a| == 16 && |a0| == 16 && i < 4 && j < 4 && f != 0.0 && DividePartial(a, a0, i, f, j)
    ensures DividePartial(a[i * 4 + j := a[i * 4 + j] / f], a0, i, f, j + 1)
  {
  }

  lemma DividePartialDone(a: seq<real>, a0: seq<real>, i: nat, f: real)
    requires |a| == 16 && |a0| == 16 && i < 4 && f != 0.0 && DividePartial(a, a0, i, f, 4)
    ensures a == DivideRow(a0, i, f)
  {
    forall r: nat, c: nat | r < 4 && c < 4
      ensures Cell(a, r, c) == Cell(DivideRow(a0, i, f), r, c)
    {
      DivideRowEntry(a0, i, f, r, c);
    }
    SameCells(a, DivideRow(a0, i, f));
  }

  /** Rows i and p of both matrices exchanged, one column at a time. */
  method SwapRowsBoth(t: array<real>, s: array<real>, i: nat, p: nat)
    requires t.Length == 16 && s.Length == 16 && t != s && i < 4 && p < 4 && i != p
    modifies t, s
    ensures t[..] == SwapRows(old(t[..]), i, p) && s[..] == SwapRows(old(s[..]), i, p)
  {
    ghost var t0, s0 := t[..], s[..];
    for j := 0 to 4
      invariant SwapPartial(t[..], t0, i, p, j) && SwapPartial(s[..], s0, i, p, j)
    {
      ghost var ta, sa := t[..], s[..];
      var tmp := t[i * 4 + j];
      t[i * 4 + j] := t[p * 4 + j];
      t[p * 4 + j] := tmp;
      tmp := s[i * 4 + j];
      s[i * 4 + j] := s[p * 4 + j];
      s[p * 4 + j] := tmp;
      assert t[..] == ta[i * 4 + j := ta[p * 4 + j]][p * 4 + j := ta[i * 4 + j]];
      assert s[..] == sa[i * 4 + j := sa[p * 4 + j]][p * 4 + j := sa[i * 4 + j]];
      SwapColumn(ta, t0, i, p, j);
      SwapColumn(sa, s0, i, p, j);
    }
    SwapPartialDone(t[..], t0, i, p);
    SwapPartialDone(s[..], s0, i, p);
  }

  /** Row j of both matrices minus f times their row i. */
  method SubtractRowBoth(t: array<real>, s: array<real>, j: nat, i: nat, f: real)
    requires t.Length == 16 && s.Length == 16 && t != s && j < 4 && i < 4 && j != i
    modifies t, s
    ensures t[..] == SubtractRow(old(t[..]), j, i, f) && s[..] == SubtractRow(old(s[..]), j, i, f)
  {
    ghost var t0, s0 := t[..], s[..];
    for k := 0 to 4
      invariant SubtractPartial(t[..], t0, j, i, f, k) && SubtractPartial(s[..], s0, j, i, f, k)
    {
      ghost var ta, sa := t[..], s[..];
      ghost var tv, sv := ta[j * 4 + k] - f * ta[i * 4 + k], sa[j * 4 + k] - f * sa[i * 4 + k];
      t[j * 4 + k] := t[j * 4 + k] - f * t[i * 4 + k];
      assert t[j * 4 + k] == tv;
      assert t[..] == ta[j * 4 + k := tv];
      s[j * 4 + k] := s[j * 4 + k] - f * s[i * 4 + k];
      assert s[j * 4 + k] == sv;
      assert s[..] == sa[j * 4 + k := sv];
      SubtractColumn(ta, t0, j, i, f, k);
      SubtractColumn(sa, s0, j, i, f, k);
    }
    SubtractPartialDone(t[..], t0, j, i, f);
    SubtractPartialDone(s[..], s0, j, i, f);
  }

  /** Row i of both matrices divided by f. */
  method DivideRowBoth(t: array<real>, s: array<real>, i: nat, f: real)
    requires t.Length == 16 && s.Length == 16 && t != s && i < 4 && f != 0.0
    modifies t, s
    ensures t[..] == DivideRow(old(t[..]), i, f) && s[..] == DivideRow(old(s[..]), i, f)
  {
    ghost var t0, s0 := t[..], s[..];
    for j := 0 to 4
      invariant DividePartial(t[..], t0, i, f, j) && DividePartial(s[..], s0, i, f, j)
    {
      ghost var ta, sa := t[..], s[..];
      t[i * 4 + j] := t[i * 4 + j] / f;
      s[i * 4 + j] := s[i * 4 + j] / f;
      assert t[..] == ta[i * 4 + j := ta[i * 4 + j] / f];
      assert s[..] == sa[i * 4 + j := sa[i * 4 + j] / f];
      DivideColumn(ta, t0, i, f, j);
      DivideColumn(sa, s0, i, f, j);
    }
    DividePartialDone(t[..], t0, i, f);
    DividePartialDone(s[..], s0, i, f);
  }

  // ---------------------------------------------------------------------
  // naiveMatrixInverse
  // ---------------------------------------------------------------------

  /**
   * naiveMatrixInverse(dest, src), with s the destination and t the source.
   * It gives up (completed == false) when a pivot column is zero in the
   * forward phase or a diagonal entry is zero in the backward phase; the
   * ghost e is the product of the row operations applied to both arrays.
   */
  method NaiveMatrixInverse(s: array<real>, t: array<real>) returns (completed: bool, ghost e: seq<real>)
    requires s.Length == 16 && t.Length == 16 && s != t
    modifies s, t
    ensures |e| == 16
    ensures t[..] == FlatProduct(e, old(t[..])) && s[..] == FlatProduct(e, old(s[..]))
    ensures completed ==> t[..] == IdentityFlat()
    ensures completed && old(s[..]) == IdentityFlat() ==> FlatProduct(s[..], old(t[..])) == IdentityFlat()
    ensures completed && old(s[..]) == IdentityFlat() ==>
      MatrixProduct(Unflat(s[..]), Unflat(old(t[..]))) == Identity()
    ensures completed && old(s[..]) == IdentityFlat() ==> FlatProduct(old(t[..]), s[..]) == IdentityFlat()
    ensures completed && old(s[..]) == IdentityFlat() && Det4(Unflat(old(t[..]))) != 0.0 ==>
      Unflat(s[..]) == Inverse(Unflat(old(t[..])))
  {
    ghost var t0, s0 := t[..], s[..];
    e := IdentityFlat();
    // u undoes e: each step multiplies it on the right by the inverse of that step
    ghost var u := IdentityFlat();
    LeftIdentity(t0);
    LeftIdentity(s0);
    LeftIdentity(u);
    // Forward elimination
    for i := 0 to 3
      invariant |e| == 16 && t[..] == FlatProduct(e, t0) && s[..] == FlatProduct(e, s0)
      invariant |u| == 16 && FlatProduct(u, e) == IdentityFlat()
      invariant LowerZero(t[..], i)
    {
      var pivot, pivotsize := FindPivot(t, i);
      if pivotsize == 0.0 {
        return false, e;
      }
      if pivot != i {
        ghost var a := t[..];
        SwapRowsBoth(t, s, i, pivot);
        SwapKeepsLowerZero(a, i, pivot);
        SwapRowsEntry(a, i, pivot, i, i);
        SwapStep(e, u, t0, s0, i, pivot);
        u := FlatProduct(u, SwapRows(IdentityFlat(), i, pivot));
        e := SwapRows(e, i, pivot);
      }
      assert Cell(t[..], i, i) != 0.0;
      for j := i + 1 to 4
        invariant |e| == 16 && t[..] == FlatProduct(e, t0) && s[..] == FlatProduct(e, s0)
        invariant |u| == 16 && FlatProduct(u, e) == IdentityFlat()
        invariant LowerZero(t[..], i) && ColumnZeroBelow(t[..], i, j) && Cell(t[..], i, i) != 0.0
      {
        var f := t[j * 4 + i] / t[i * 4 + i];
        ghost var a := t[..];
        SubtractRowBoth(t, s, j, i, f);
        EliminateBelow(a, i, j);
        SubtractStep(e, u, t0, s0, j, i, f);
        u := FlatProduct(u, SubtractRow(IdentityFlat(), j, i, -f));
        e := SubtractRow(e, j, i, f);
      }
      LowerZeroNext(t[..], i);
    }
    ForwardDone(t[..]);
    // Backward substitution
    var i := 3;
    while i >= 0
      invariant -1 <= i <= 3
      invariant |e| == 16 && t[..] == FlatProduct(e, t0) && s[..] == FlatProduct(e, s0)
      invariant |u| == 16 && FlatProduct(u, e) == IdentityFlat()
      invariant BackShape(t[..], i)
    {
      var f := t[i * 4 + i];
      if f == 0.0 {
        return false, e;
      }
      ghost var a := t[..];
      DivideRowBoth(t, s, i, f);
      DivideUnit(a, i);
      DivideStep(e, u, t0, s0, i, f);
      u := FlatProduct(u, DivideRow(IdentityFlat(), i, 1.0 / f));
      e := DivideRow(e, i, f);
      for j := 0 to i
        invariant |e| == 16 && t[..] == FlatProduct(e, t0) && s[..] == FlatProduct(e, s0)
        invariant |u| == 16 && FlatProduct(u, e) == IdentityFlat()
        invariant BackPartial(t[..], i, j)
      {
        var g := t[j * 4 + i];
        ghost var b := t[..];
        SubtractRowBoth(t, s, j, i, g);
        ClearAbove(b, i, j);
        SubtractStep(e, u, t0, s0, j, i, g);
        u := FlatProduct(u, SubtractRow(IdentityFlat(), j, i, -g));
        e := SubtractRow(e, j, i, g);
      }
      BackStep(t[..], i);
      i := i - 1;
    }
    BackDone(t[..]);
    completed := true;
    if s0 == IdentityFlat() {
      Finished(e, u, t0, s[..]);
    }
  }

  lemma UnflatIdentity()
    ensures Unflat(IdentityFlat()) == Identity()
  {
  }
}
