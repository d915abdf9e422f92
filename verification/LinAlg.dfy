/** treasuryforge/signals/linalg.py: the hand-written matrix product, Gauss-Jordan
    inverse and least-squares fit, on nested lists updated in loops. */
module LinAlg {
  import opened Sums
  import opened Wrappers
  import opened MatrixAlgebra
  import opened Elimination

  type Matrix = seq<seq<real>>

  /** Pivots smaller than this make the inverse give up. */
  const PIVOT_TOLERANCE: real := 0.000000000001

  datatype Error = SingularMatrix | TooFewObservations | IndexError

  ghost predicate IsMatrix(a: Matrix, n: nat, m: nat) {
    |a| == n && forall i :: 0 <= i < n ==> |a[i]| == m
  }

  /** Entry (i, j), and 0 outside the list. */
  function Entry(a: Matrix, i: int, j: int): real {
    if 0 <= i < |a| && 0 <= j < |a[i]| then a[i][j] else 0.0
  }

  ghost function Fn(a: Matrix): Mat {
    (i: int, j: int) => Entry(a, i, j)
  }

  /** A list as a one-column matrix. */
  ghost function Column(y: seq<real>): Mat {
    (i: int, j: int) => if 0 <= i < |y| then y[i] else 0.0
  }

  // ---- product and transpose ------------------------------------------------

  /** The product with the zero-skipping inner loop. */
  method MatMul(a: Matrix, b: Matrix) returns (out: Matrix)
    requires |b| > 0 && IsMatrix(b, |b|, |b[0]|) && IsMatrix(a, |a|, |b|)
    ensures IsMatrix(out, |a|, |b[0]|)
    ensures Eq(Fn(out), Prod(Fn(a), Fn(b), |b|), |a|, |b[0]|)
  {
    var n, m, p := |a|, |b|, |b[0]|;
    out := seq(n, _ => seq(p, _ => 0.0));
    for i := 0 to n
      invariant IsMatrix(out, n, p)
      invariant forall r, j :: 0 <= r < i && 0 <= j < p ==> out[r][j] == Prod(Fn(a), Fn(b), m)(r, j)
      invariant forall r, j :: i <= r < n && 0 <= j < p ==> out[r][j] == 0.0
    {
      for k := 0 to m
        invariant IsMatrix(out, n, p)
        invariant forall r, j :: 0 <= r < i && 0 <= j < p ==> out[r][j] == Prod(Fn(a), Fn(b), m)(r, j)
        invariant forall r, j :: i < r < n && 0 <= j < p ==> out[r][j] == 0.0
        invariant forall j :: 0 <= j < p ==> out[i][j] == Sum(k, Term(Fn(a), Fn(b), i, j))
      {
        var x := a[i][k];
        ghost var before := out[i];
        if x != 0.0 {
          var row := out[i];
          for j := 0 to p
            invariant |row| == p
            invariant forall c :: 0 <= c < j ==> row[c] == before[c] + x * b[k][c]
            invariant forall c :: j <= c < p ==> row[c] == before[c]
          {
            row := row[j := row[j] + x * b[k][j]];
          }
          out := out[i := row];
        }
        forall j | 0 <= j < p
          ensures out[i][j] == Sum(k + 1, Term(Fn(a), Fn(b), i, j))
        {
          assert out[i][j] == before[j] + x * b[k][j];
        }
      }
    }
  }

  function TransposeRows(a: Matrix): (t: Matrix)
    requires |a| > 0 && forall i :: 0 <= i < |a| ==> |a[i]| == |a[0]|
    ensures IsMatrix(t, |a[0]|, |a|)
    ensures forall i, j :: 0 <= i < |a[0]| && 0 <= j < |a| ==> t[i][j] == a[j][i]
  {
    seq(|a[0]|, i requires 0 <= i < |a[0]| => seq(|a|, j requires 0 <= j < |a| => a[j][i]))
  }

  // ---- Gauss-Jordan ------------------------------------------------------------

  /** [a | I], the matrix the elimination starts from. */
  ghost function Augmented(a: Mat, n: nat): Mat {
    (i: int, j: int) => if j < n then a(i, j) else Identity()(i, j - n)
  }

  ghost function RightHalf(m: Mat, n: nat): Mat {
    (i: int, j: int) => m(i, n + j)
  }

  /** The elimination invariant.  The row operations done so far are the right half
      of m, taking a to the left half; and f undoes all of them at once. */
  ghost predicate Tracks(a: Mat, f: Mat, m: Mat, n: nat) {
    && Eq(Prod(f, m, n), Augmented(a, n), n, 2 * n)
    && Eq(Prod(RightHalf(m, n), a, n), m, n, n)
  }

  /** The first c columns are those of the identity. */
  ghost predicate UnitColumns(m: Mat, n: nat, c: nat) {
    forall i, j :: 0 <= i < n && 0 <= j < c ==> m(i, j) == (if i == j then 1.0 else 0.0)
  }

  lemma TracksStart(a: Mat, m: Mat, n: nat)
    requires Eq(m, Augmented(a, n), n, 2 * n)
    ensures Tracks(a, Identity(), m, n)
  {
    ProdIdentityLeft(m, n, 2 * n);
    ProdExt(RightHalf(m, n), Identity(), a, a, n, n, n);
    ProdIdentityLeft(a, n, n);
    var rhs := RightHalf(m, n);
    forall i, j | 0 <= i < n && 0 <= j < n
      ensures Prod(rhs, a, n)(i, j) == m(i, j)
    {
      assert Prod(rhs, a, n)(i, j) == Prod(Identity(), a, n)(i, j) == a(i, j) == Augmented(a, n)(i, j);
    }
  }

  lemma TracksSwap(a: Mat, f: Mat, m: Mat, m': Mat, n: nat, x: int, y: int)
    requires Tracks(a, f, m, n) && 0 <= x < n && 0 <= y < n
    requires Eq(m', SwapRows(m, x, y), n, 2 * n)
    ensures Tracks(a, SwapCols(f, x, y), m', n)
  {
    var f' := SwapCols(f, x, y);
    SwapUndone(f, m, n, 2 * n, x, y);
    ProdExt(f', f', m', SwapRows(m, x, y), n, n, 2 * n);
    SwapKeepsFactor(RightHalf(m, n), a, m, n, n, x, y);
    ProdExt(RightHalf(m', n), SwapRows(RightHalf(m, n), x, y), a, a, n, n, n);
    TracksChain(a, f, f', m, SwapRows(m, x, y), m', SwapRows(RightHalf(m, n), x, y), n);
  }

  lemma TracksDivide(a: Mat, f: Mat, m: Mat, m': Mat, n: nat, r: int, d: real)
    requires Tracks(a, f, m, n) && 0 <= r < n && d != 0.0
    requires Eq(m', DivideRow(m, r, d), n, 2 * n)
    ensures Tracks(a, TimesCol(f, r, d), m', n)
  {
    var f' := TimesCol(f, r, d);
    DivideUndone(f, m, n, 2 * n, r, d);
    ProdExt(f', f', m', DivideRow(m, r, d), n, n, 2 * n);
    DivideKeepsFactor(RightHalf(m, n), a, m, n, n, r, d);
    ProdExt(RightHalf(m', n), DivideRow(RightHalf(m, n), r, d), a, a, n, n, n);
    TracksChain(a, f, f', m, DivideRow(m, r, d), m', DivideRow(RightHalf(m, n), r, d), n);
  }

  lemma TracksSubtract(a: Mat, f: Mat, m: Mat, m': Mat, n: nat, r: int, c: real, s: int)
    requires Tracks(a, f, m, n) && 0 <= r < n && 0 <= s < n && r != s
    requires Eq(m', SubtractRow(m, r, c, s), n, 2 * n)
    ensures Tracks(a, AddCol(f, r, c, s), m', n)
  {
    var f' := AddCol(f, r, c, s);
    SubtractUndone(f, m, n, 2 * n, r, c, s);
    ProdExt(f', f', m', SubtractRow(m, r, c, s), n, n, 2 * n);
    SubtractKeepsFactor(RightHalf(m, n), a, m, n, n, r, c, s);
    ProdExt(RightHalf(m', n), SubtractRow(RightHalf(m, n), r, c, s), a, a, n, n, n);
    TracksChain(a, f, f', m, SubtractRow(m, r, c, s), m', SubtractRow(RightHalf(m, n), r, c, s), n);
  }

  lemma TracksChain(a: Mat, f: Mat, f': Mat, m: Mat, op: Mat, m': Mat, g: Mat, n: nat)
    requires Tracks(a, f, m, n)
    requires Eq(m', op, n, 2 * n)
    requires Eq(Prod(f', op, n), Prod(f, m, n), n, 2 * n)
    requires Eq(Prod(f', m', n), Prod(f', op, n), n, 2 * n)
    requires Eq(Prod(RightHalf(m', n), a, n), Prod(g, a, n), n, n)
    requires Eq(Prod(g, a, n), op, n, n)
    ensures Tracks(a, f', m', n)
  {
    forall i, j | 0 <= i < n && 0 <= j < 2 * n
      ensures Prod(f', m', n)(i, j) == Augmented(a, n)(i, j)
    {
      assert Prod(f', m', n)(i, j) == Prod(f', op, n)(i, j) == Prod(f, m, n)(i, j);
    }
    forall i, j | 0 <= i < n && 0 <= j < n
      ensures Prod(RightHalf(m', n), a, n)(i, j) == m'(i, j)
    {
      assert Prod(RightHalf(m', n), a, n)(i, j) == Prod(g, a, n)(i, j) == op(i, j);
    }
  }

  /** When every column is a unit column the right half is a two-sided inverse. */
  lemma TracksFinish(a: Mat, f: Mat, m: Mat, n: nat)
    requires Tracks(a, f, m, n) && UnitColumns(m, n, n)
    ensures IsInverse(RightHalf(m, n), a, n)
  {
    var r := RightHalf(m, n);
    FactorIsInput(a, f, m, n);
    ProdExt(a, f, r, r, n, n, n);
    forall i, j | 0 <= i < n && 0 <= j < n
      ensures Prod(a, r, n)(i, j) == Identity()(i, j) && Prod(r, a, n)(i, j) == Identity()(i, j)
    {
      RightOfProduct(a, f, m, n, i, j);
      assert Prod(a, r, n)(i, j) == Prod(f, r, n)(i, j);
      assert Prod(r, a, n)(i, j) == m(i, j);
    }
  }

  /** The left half of f * m = [a | I] says that f is a, once m's left half is I. */
  lemma FactorIsInput(a: Mat, f: Mat, m: Mat, n: nat)
    requires Tracks(a, f, m, n) && UnitColumns(m, n, n)
    ensures Eq(f, a, n, n)
  {
    ProdExt(f, f, m, Identity(), n, n, n);
    ProdIdentityRight(f, n, n);
    forall i, j | 0 <= i < n && 0 <= j < n ensures f(i, j) == a(i, j) {
      assert Prod(f, m, n)(i, j) == Augmented(a, n)(i, j);
      assert Prod(f, m, n)(i, j) == Prod(f, Identity(), n)(i, j) == f(i, j);
    }
  }

  /** Its right half says that f undoes the row operations. */
  lemma RightOfProduct(a: Mat, f: Mat, m: Mat, n: nat, i: int, j: int)
    requires Tracks(a, f, m, n) && 0 <= i < n && 0 <= j < n
    ensures Prod(f, RightHalf(m, n), n)(i, j) == Identity()(i, j)
  {
    SumExt(n, Term(f, RightHalf(m, n), i, j), Term(f, m, i, n + j));
    assert Prod(f, m, n)(i, n + j) == Augmented(a, n)(i, n + j);
  }

  ghost predicate IsInverse(r: Mat, a: Mat, n: nat) {
    Eq(Prod(r, a, n), Identity(), n, n) && Eq(Prod(a, r, n), Identity(), n, n)
  }

  /** v has a 1 in row c, and a sends it below the tolerance in every row. */
  ghost predicate NearKernel(a: Mat, n: nat, v: Mat, c: nat) {
    && c < n && v(c, 0) == 1.0
    && forall i :: 0 <= i < n ==> Abs(Prod(a, v, n)(i, 0)) < 0.000000000001
  }

  ghost predicate NearlySingular(a: Mat, n: nat) {
    exists v, c :: NearKernel(a, n, v, c)
  }

  /** From column c on, f only permutes: zeros and ones, and at most a single one in a row. */
  ghost predicate Fresh(f: Mat, n: nat, c: nat) {
    && (forall i, j :: 0 <= i < n && c <= j < n ==> f(i, j) == 0.0 || f(i, j) == 1.0)
    && (forall i, j, k :: 0 <= i < n && c <= j < n && c <= k < n && j != k ==> f(i, j) == 0.0 || f(i, k) == 0.0)
  }

  lemma FreshAfterSwap(f: Mat, n: nat, c: nat, piv: nat)
    requires Fresh(f, n, c) && c <= piv < n
    ensures Fresh(SwapCols(f, c, piv), n, c)
  {
  }

  /** Operations that undo into column c leave the later ones fresh. */
  lemma FreshBeyond(f: Mat, n: nat, c: nat, r: int, x: real)
    requires Fresh(f, n, c + 1)
    ensures Fresh(TimesCol(f, c, x), n, c + 1) && Fresh(AddCol(f, r, x, c), n, c + 1)
  {
  }

  lemma FreshFrom(f: Mat, n: nat, c: nat)
    requires Fresh(f, n, c)
    ensures Fresh(f, n, c + 1)
  {
  }

  lemma FreshStart(n: nat)
    ensures Fresh(Identity(), n, 0)
  {
  }

  ghost function KernelCandidate(m: Mat, c: int): Mat {
    (k: int, j: int) => if k < c then -m(k, c) else if k == c then 1.0 else 0.0
  }

  lemma CandidateProduct(m: Mat, n: nat, c: nat, i: nat)
    requires c < n && i < n && UnitColumns(m, n, c)
    ensures Prod(m, KernelCandidate(m, c), n)(i, 0) == if i < c then 0.0 else m(i, c)
  {
    var v := KernelCandidate(m, c);
    if i < c {
      var zero := (k: int) => 0.0;
      SumAgreeButTwo(n, Term(m, v, i, 0), zero, i, c);
      SumZero(n, zero);
    } else {
      SumSingle(n, Term(m, v, i, 0), c);
    }
  }

  /** Undoing the row operations on a column that is zero before c permutes the rest of it. */
  lemma FreshPermutes(f: Mat, w: Mat, n: nat, c: nat, i: nat)
    requires c < n && i < n && Fresh(f, n, c)
    requires forall k :: 0 <= k < c ==> w(k, 0) == 0.0
    requires forall k :: c <= k < n ==> Abs(w(k, 0)) < PIVOT_TOLERANCE
    ensures Abs(Prod(f, w, n)(i, 0)) < PIVOT_TOLERANCE
  {
    if at :| c <= at < n && f(i, at) == 1.0 {
      SumSingle(n, Term(f, w, i, 0), at);
    } else {
      SumZero(n, Term(f, w, i, 0));
    }
  }

  /** With no pivot left in column c, a has a nonzero vector it all but kills. */
  lemma StuckMeansNearlySingular(a: Mat, f: Mat, m: Mat, n: nat, c: nat)
    requires c < n && Tracks(a, f, m, n) && UnitColumns(m, n, c) && Fresh(f, n, c)
    requires forall i :: c <= i < n ==> Abs(m(i, c)) < PIVOT_TOLERANCE
    ensures NearlySingular(a, n)
  {
    var v := KernelCandidate(m, c);
    forall i | 0 <= i < n
      ensures Abs(Prod(a, v, n)(i, 0)) < PIVOT_TOLERANCE
    {
      SumExt(n, Term(a, v, i, 0), Term(Prod(f, m, n), v, i, 0));
      ProdAssocAt(f, m, v, n, n, i, 0);
      forall k | 0 <= k < n
        ensures Prod(m, v, n)(k, 0) == if k < c then 0.0 else m(k, c)
      {
        CandidateProduct(m, n, c, k);
      }
      FreshPermutes(f, Prod(m, v, n), n, c, i);
    }
    assert NearKernel(a, n, v, c);
  }

  /** Gauss-Jordan with partial pivoting on [a | I], each row replaced in place. */
  method Inverse(a: Matrix) returns (res: Result<Matrix, Error>)
    requires IsMatrix(a, |a|, |a|)
    ensures res.Ok? ==> IsMatrix(res.value, |a|, |a|) && IsInverse(Fn(res.value), Fn(a), |a|)
    ensures res.Err? ==> res.error == SingularMatrix && NearlySingular(Fn(a), |a|)
    ensures res.Ok? <==> HasPivots(Fn(a), |a|)
  {
    hide Fresh, Tracks, Block, PivotsFrom, Eliminated;
    var n := |a|;
    var m: Matrix := seq(n, i requires 0 <= i < n => a[i] + seq(n, j => if i == j then 1.0 else 0.0));
    ghost var f := Identity();
    assert Eq(Fn(m), Augmented(Fn(a), n), n, 2 * n);
    TracksStart(Fn(a), Fn(m), n);
    FreshStart(n);
    ghost var b := Fn(a);
    BlockStart(a, m, n);
    for col := 0 to n
      invariant IsMatrix(m, n, 2 * n)
      invariant Tracks(Fn(a), f, Fn(m), n)
      invariant UnitColumns(Fn(m), n, col) && Fresh(f, n, col)
      invariant Block(m, b, n, col) && (HasPivots(Fn(a), n) <==> PivotsFrom(b, col, n))
    {
      var piv := ArgMaxPivot(m, col, n);
      PivotFound(m, b, n, col, piv);
      if Abs(m[piv][col]) < PIVOT_TOLERANCE {
        StuckMeansNearlySingular(Fn(a), f, Fn(m), n, col);
        return Err(SingularMatrix);
      }
      ghost var m0 := m;
      m, f := SwapPivot(m, col, piv, n, Fn(a), f);
      ghost var m1 := m;
      m, f := ScalePivot(m, col, n, Fn(a), f);
      ghost var m2 := m;
      m, f := ClearColumn(m, col, n, Fn(a), f);
      BlockStep(m0, m1, m2, m, b, n, col, piv);
      b := Eliminated(b, col, n);
    }
    NoMorePivots(b, n);
    TracksFinish(Fn(a), f, Fn(m), n);
    var out: Matrix := seq(n, i requires 0 <= i < n => m[i][n..]);
    LeftOver(a, m, out, n);
    return Ok(out);
  }

  /** The rows and columns from c on are those plain elimination has by then. */
  ghost predicate Block(m: Matrix, b: Mat, n: nat, c: nat) {
    IsMatrix(m, n, 2 * n) && forall i, j :: c <= i < n && c <= j < n ==> m[i][j] == b(i, j)
  }

  lemma BlockStart(a: Matrix, m: Matrix, n: nat)
    requires |a| == n && IsMatrix(a, n, n) && IsMatrix(m, n, 2 * n)
    requires forall i :: 0 <= i < n ==> m[i][..n] == a[i]
    ensures Block(m, Fn(a), n, 0)
  {
    forall i, j | 0 <= i < n && 0 <= j < n ensures m[i][j] == Fn(a)(i, j) {
      assert m[i][..n][j] == a[i][j];
    }
  }

  lemma NoMorePivots(b: Mat, n: nat)
    ensures PivotsFrom(b, n, n)
  {
  }

  /** The row the code picks is the pivot of the elimination. */
  lemma PivotFound(m: Matrix, b: Mat, n: nat, c: nat, piv: nat)
    requires Block(m, b, n, c) && c <= piv < n
    requires forall i :: c <= i < n ==> Abs(m[i][c]) <= Abs(m[piv][c])
    requires forall i :: c <= i < piv ==> Abs(m[i][c]) < Abs(m[piv][c])
    ensures Best(b, c, n) == piv && m[piv][c] == b(piv, c)
    ensures PivotsFrom(b, c, n) <==> Abs(m[piv][c]) >= 0.000000000001 && PivotsFrom(Eliminated(b, c, n), c + 1, n)
  {
    BestIs(b, c, n, piv);
  }

  /** row' is row less f times other. */
  ghost predicate Subtracts(row': seq<real>, row: seq<real>, f: real, other: seq<real>) {
    |row'| == |row| == |other| && forall j :: 0 <= j < |row| ==> row'[j] == row[j] - Times(f, other[j])
  }

  /** Swap, divide and clear do to the block what one step of the elimination does. */
  lemma BlockStep(m: Matrix, m1: Matrix, m2: Matrix, m3: Matrix, b: Mat, n: nat, c: nat, piv: nat)
    requires Block(m, b, n, c) && c <= piv < n && Best(b, c, n) == piv && m[piv][c] == b(piv, c) != 0.0
    requires m1 == m[c := m[piv]][piv := m[c]]
    requires IsMatrix(m2, n, 2 * n) && (forall i :: 0 <= i < n && i != c ==> m2[i] == m1[i])
    requires forall j :: 0 <= j < 2 * n ==> m2[c][j] == m1[c][j] / m1[c][c]
    requires IsMatrix(m3, n, 2 * n) && forall i :: 0 <= i < n && i != c ==> Subtracts(m3[i], m2[i], m2[i][c], m2[c])
    ensures Block(m3, Eliminated(b, c, n), n, c + 1)
  {
    hide Times, Subtracts, Best;
    forall i, j | c + 1 <= i < n && c + 1 <= j < n ensures m3[i][j] == Eliminated(b, c, n)(i, j) {
      var r := if i == piv then c else i;
      assert m2[i] == m[r] && m1[c] == m[piv];
      SubtractsAt(m3[i], m2[i], m2[i][c], m2[c], j);
    }
  }

  lemma SubtractsAt(row': seq<real>, row: seq<real>, f: real, other: seq<real>, j: nat)
    requires Subtracts(row', row, f, other) && j < |row|
    ensures row'[j] == row[j] - Times(f, other[j])
  {
  }

  lemma LeftOver(a: Matrix, m: Matrix, out: Matrix, n: nat)
    requires |a| == n && IsMatrix(m, n, 2 * n) && IsInverse(RightHalf(Fn(m), n), Fn(a), n)
    requires IsMatrix(out, n, n) && forall i :: 0 <= i < n ==> out[i] == m[i][n..]
    ensures IsInverse(Fn(out), Fn(a), n)
  {
    var w := RightHalf(Fn(m), n);
    assert Eq(Fn(out), w, n, n);
    ProdExt(Fn(out), w, Fn(a), Fn(a), n, n, n);
    ProdExt(Fn(a), Fn(a), Fn(out), w, n, n, n);
  }

  /** Bring the pivot row up. */
  method SwapPivot(m: Matrix, col: nat, piv: nat, n: nat, ghost a: Mat, ghost f: Mat)
      returns (m': Matrix, ghost f': Mat)
    requires col <= piv < n && IsMatrix(m, n, 2 * n)
    requires Tracks(a, f, Fn(m), n) && UnitColumns(Fn(m), n, col) && Fresh(f, n, col)
    ensures IsMatrix(m', n, 2 * n) && m' == m[col := m[piv]][piv := m[col]]
    ensures Tracks(a, f', Fn(m'), n) && UnitColumns(Fn(m'), n, col) && Fresh(f', n, col)
  {
    hide Fresh;
    m' := m[col := m[piv]][piv := m[col]];
    f' := SwapCols(f, col, piv);
    FreshAfterSwap(f, n, col, piv);
    assert Eq(Fn(m'), SwapRows(Fn(m), col, piv), n, 2 * n);
    TracksSwap(a, f, Fn(m), Fn(m'), n, col, piv);
    forall i, j | 0 <= i < n && 0 <= j < col
      ensures Fn(m')(i, j) == (if i == j then 1.0 else 0.0)
    {
      var i' := if i == col then piv else if i == piv then col else i;
      assert Fn(m)(i', j) == (if i' == j then 1.0 else 0.0);
    }
  }

  /** Divide the pivot row by the pivot. */
  method ScalePivot(m: Matrix, col: nat, n: nat, ghost a: Mat, ghost f: Mat)
      returns (m': Matrix, ghost f': Mat)
    requires col < n && IsMatrix(m, n, 2 * n) && m[col][col] != 0.0
    requires Tracks(a, f, Fn(m), n) && UnitColumns(Fn(m), n, col) && Fresh(f, n, col)
    ensures IsMatrix(m', n, 2 * n) && m'[col][col] == 1.0
    ensures forall j :: 0 <= j < 2 * n ==> m'[col][j] == m[col][j] / m[col][col]
    ensures forall i :: 0 <= i < n && i != col ==> m'[i] == m[i]
    ensures Tracks(a, f', Fn(m'), n) && UnitColumns(Fn(m'), n, col) && Fresh(f', n, col + 1)
  {
    hide Fresh;
    var pivval := m[col][col];
    var row := seq(2 * n, j requires 0 <= j < 2 * n => m[col][j] / pivval);
    m' := m[col := row];
    f' := TimesCol(f, col, pivval);
    FreshFrom(f, n, col);
    FreshBeyond(f, n, col, col, pivval);
    assert Eq(Fn(m'), DivideRow(Fn(m), col, pivval), n, 2 * n);
    TracksDivide(a, f, Fn(m), Fn(m'), n, col, pivval);
    forall i, j | 0 <= i < n && 0 <= j < col
      ensures Fn(m')(i, j) == (if i == j then 1.0 else 0.0)
    {
      assert Fn(m)(i, j) == (if i == j then 1.0 else 0.0);
    }
  }

  /** Subtract the pivot row from every other row with a nonzero entry in the column. */
  method ClearColumn(m: Matrix, col: nat, n: nat, ghost a: Mat, ghost f: Mat)
      returns (m': Matrix, ghost f': Mat)
    requires col < n && IsMatrix(m, n, 2 * n) && m[col][col] == 1.0
    requires Tracks(a, f, Fn(m), n) && UnitColumns(Fn(m), n, col) && Fresh(f, n, col + 1)
    ensures IsMatrix(m', n, 2 * n)
    ensures Tracks(a, f', Fn(m'), n) && UnitColumns(Fn(m'), n, col + 1) && Fresh(f', n, col + 1)
    ensures m'[col] == m[col] && forall i :: 0 <= i < n && i != col ==> Subtracts(m'[i], m[i], m[i][col], m[col])
  {
    hide Fresh, Tracks, Subtracts;
    m', f' := m, f;
    for r := 0 to n
      invariant IsMatrix(m', n, 2 * n)
      invariant Tracks(a, f', Fn(m'), n)
      invariant UnitColumns(Fn(m'), n, col) && Fresh(f', n, col + 1)
      invariant m'[col] == m[col] && (forall i :: r <= i < n ==> m'[i] == m[i])
      invariant forall i :: 0 <= i < r && i != col ==> m'[i][col] == 0.0
      invariant forall i :: 0 <= i < r && i != col ==> Subtracts(m'[i], m[i], m[i][col], m[col])
    {
      NothingSubtracted(m[r], m[col]);
      if r != col && m'[r][col] != 0.0 {
        m', f' := ClearRow(m', r, col, n, a, f');
      }
    }
    assert UnitColumns(Fn(m'), n, col + 1) by {
      forall i, j | 0 <= i < n && 0 <= j < col + 1
        ensures Fn(m')(i, j) == (if i == j then 1.0 else 0.0)
      {
        if j == col {
          assert i != col ==> m'[i][col] == 0.0;
        }
      }
    }
  }

  lemma NothingSubtracted(row: seq<real>, other: seq<real>)
    requires |row| == |other|
    ensures Subtracts(row, row, 0.0, other)
  {
  }

  method ClearRow(m: Matrix, r: nat, col: nat, n: nat, ghost a: Mat, ghost f: Mat)
      returns (m': Matrix, ghost f': Mat)
    requires col < n && r < n && r != col && IsMatrix(m, n, 2 * n) && m[col][col] == 1.0
    requires Tracks(a, f, Fn(m), n) && UnitColumns(Fn(m), n, col) && Fresh(f, n, col + 1)
    ensures IsMatrix(m', n, 2 * n)
    ensures Tracks(a, f', Fn(m'), n) && UnitColumns(Fn(m'), n, col) && Fresh(f', n, col + 1)
    ensures m'[r][col] == 0.0 && forall i :: 0 <= i < n && i != r ==> m'[i] == m[i]
    ensures Subtracts(m'[r], m[r], m[r][col], m[col])
  {
    hide Fresh;
    var factor := m[r][col];
    var row := seq(2 * n, j requires 0 <= j < 2 * n => m[r][j] - factor * m[col][j]);
    m' := m[r := row];
    assert Eq(Fn(m'), SubtractRow(Fn(m), r, factor, col), n, 2 * n);
    TracksSubtract(a, f, Fn(m), Fn(m'), n, r, factor, col);
    f' := AddCol(f, r, factor, col);
    FreshBeyond(f, n, col, r, factor);
    SubtractedUnits(Fn(m), Fn(m'), n, r, factor, col);
  }

  lemma SubtractedUnits(m: Mat, m': Mat, n: nat, r: int, c: real, s: int)
    requires 0 <= r < n && 0 <= s < n && UnitColumns(m, n, s)
    requires Eq(m', SubtractRow(m, r, c, s), n, 2 * n)
    ensures UnitColumns(m', n, s)
  {
    forall i, j | 0 <= i < n && 0 <= j < s
      ensures m'(i, j) == (if i == j then 1.0 else 0.0)
    {
      assert m(i, j) == (if i == j then 1.0 else 0.0) && m(s, j) == 0.0;
      assert m'(i, j) == SubtractRow(m, r, c, s)(i, j);
    }
  }

  /** The first row from col on whose entry in that column is largest in size. */
  method ArgMaxPivot(m: Matrix, col: nat, n: nat) returns (piv: nat)
    requires col < n && IsMatrix(m, n, 2 * n)
    ensures col <= piv < n
    ensures forall i :: col <= i < n ==> Abs(m[i][col]) <= Abs(m[piv][col])
    ensures forall i :: col <= i < piv ==> Abs(m[i][col]) < Abs(m[piv][col])
  {
    piv := col;
    for r := col + 1 to n
      invariant col <= piv < r
      invariant forall i :: col <= i < r ==> Abs(m[i][col]) <= Abs(m[piv][col])
      invariant forall i :: col <= i < piv ==> Abs(m[i][col]) < Abs(m[piv][col])
    {
      if Abs(m[r][col]) > Abs(m[piv][col]) {
        piv := r;
      }
    }
  }

  /** A matrix with an inverse kills no nonzero vector, so a truly singular matrix
      never gets past the pivot test of Inverse. */
  lemma InvertibleHasNoKernel(r: Mat, a: Mat, n: nat, v: Mat)
    requires IsInverse(r, a, n)
    requires forall i :: 0 <= i < n ==> Prod(a, v, n)(i, 0) == 0.0
    ensures forall i :: 0 <= i < n ==> v(i, 0) == 0.0
  {
    var zero: Mat := (i: int, j: int) => 0.0;
    ProdAssoc(r, a, v, n, n, n, 1);
    ProdExt(Prod(r, a, n), Identity(), v, v, n, n, 1);
    ProdIdentityLeft(v, n, 1);
    ProdExt(r, r, Prod(a, v, n), zero, n, n, 1);
    forall i | 0 <= i < n ensures v(i, 0) == 0.0 {
      assert v(i, 0) == Prod(Identity(), v, n)(i, 0) == Prod(Prod(r, a, n), v, n)(i, 0)
          == Prod(r, Prod(a, v, n), n)(i, 0) == Prod(r, zero, n)(i, 0);
      SumZero(n, Term(r, zero, i, 0));
    }
  }

  /** There is only one inverse, so any correct method returns what Inverse returns. */
  lemma InverseIsUnique(r: Mat, s: Mat, a: Mat, n: nat)
    requires IsInverse(r, a, n) && IsInverse(s, a, n)
    ensures Eq(r, s, n, n)
  {
    ProdAssoc(r, a, s, n, n, n, n);
    ProdExt(Prod(r, a, n), Identity(), s, s, n, n, n);
    ProdIdentityLeft(s, n, n);
    ProdExt(r, r, Prod(a, s, n), Identity(), n, n, n);
    ProdIdentityRight(r, n, n);
    forall i, j | 0 <= i < n && 0 <= j < n ensures r(i, j) == s(i, j) {
      assert s(i, j) == Prod(Identity(), s, n)(i, j) == Prod(Prod(r, a, n), s, n)(i, j)
          == Prod(r, Prod(a, s, n), n)(i, j) == Prod(r, Identity(), n)(i, j);
    }
  }
}
