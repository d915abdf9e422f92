/** The algebra the regression code relies on, over index functions rather than
    nested lists: products, identity, transpose, and the two invariants of
    Gauss-Jordan elimination under each kind of row operation. */
module MatrixAlgebra {
  import opened Sums

  /** Entry (row, column) of a matrix; only a finite corner is ever looked at. */
  type Mat = (int, int) -> real

  ghost function Identity(): Mat {
    (i: int, j: int) => if i == j then 1.0 else 0.0
  }

  ghost function Transpose(a: Mat): Mat {
    (i: int, j: int) => a(j, i)
  }

  ghost function Term(a: Mat, b: Mat, i: int, j: int): int -> real {
    (k: int) => a(i, k) * b(k, j)
  }

  /** The product of an _ x m and an m x _ matrix. */
  ghost function Prod(a: Mat, b: Mat, m: nat): Mat {
    (i: int, j: int) => Sum(m, Term(a, b, i, j))
  }

  /** Equality on the n x p corner. */
  ghost predicate Eq(a: Mat, b: Mat, n: nat, p: nat) {
    forall i, j :: 0 <= i < n && 0 <= j < p ==> a(i, j) == b(i, j)
  }

  /** Equal corners have equal products. */
  lemma ProdExt(a: Mat, a': Mat, b: Mat, b': Mat, n: nat, m: nat, p: nat)
    requires Eq(a, a', n, m) && Eq(b, b', m, p)
    ensures Eq(Prod(a, b, m), Prod(a', b', m), n, p)
  {
    forall i, j | 0 <= i < n && 0 <= j < p
      ensures Prod(a, b, m)(i, j) == Prod(a', b', m)(i, j)
    {
      SumExt(m, Term(a, b, i, j), Term(a', b', i, j));
    }
  }

  lemma ProdIdentityLeft(a: Mat, n: nat, p: nat)
    ensures Eq(Prod(Identity(), a, n), a, n, p)
  {
    forall i, j | 0 <= i < n && 0 <= j < p
      ensures Prod(Identity(), a, n)(i, j) == a(i, j)
    {
      SumSingle(n, Term(Identity(), a, i, j), i);
    }
  }

  lemma ProdIdentityRight(a: Mat, n: nat, m: nat)
    ensures Eq(Prod(a, Identity(), m), a, n, m)
  {
    forall i, j | 0 <= i < n && 0 <= j < m
      ensures Prod(a, Identity(), m)(i, j) == a(i, j)
    {
      SumSingle(m, Term(a, Identity(), i, j), j);
    }
  }

  /** The triple product's table of terms at one entry. */
  ghost function Triple(a: Mat, b: Mat, c: Mat, i: int, j: int): (int, int) -> real {
    (k: int, l: int) => a(i, k) * b(k, l) * c(l, j)
  }

  /** (ab)c = a(bc). */
  lemma ProdAssoc(a: Mat, b: Mat, c: Mat, n: nat, m: nat, q: nat, p: nat)
    ensures Eq(Prod(Prod(a, b, m), c, q), Prod(a, Prod(b, c, q), m), n, p)
  {
    forall i, j | 0 <= i < n && 0 <= j < p
      ensures Prod(Prod(a, b, m), c, q)(i, j) == Prod(a, Prod(b, c, q), m)(i, j)
    {
      ProdAssocAt(a, b, c, m, q, i, j);
    }
  }

  lemma ProdAssocAt(a: Mat, b: Mat, c: Mat, m: nat, q: nat, i: int, j: int)
    ensures Prod(Prod(a, b, m), c, q)(i, j) == Prod(a, Prod(b, c, q), m)(i, j)
  {
    var t := Triple(a, b, c, i, j);
    forall l | 0 <= l < q
      ensures Term(Prod(a, b, m), c, i, j)(l) == RowSum(Flip(t), m)(l)
    {
      SumTimes(m, Row(Flip(t), l), Term(a, b, i, l), c(l, j));
    }
    SumExt(q, Term(Prod(a, b, m), c, i, j), RowSum(Flip(t), m));
    forall k | 0 <= k < m
      ensures Term(a, Prod(b, c, q), i, j)(k) == RowSum(t, q)(k)
    {
      SumTimes(q, Row(t, k), Term(b, c, k, j), a(i, k));
    }
    SumExt(m, Term(a, Prod(b, c, q), i, j), RowSum(t, q));
    SumSwap(m, q, t);
  }

  lemma SumTimes(n: nat, h: int -> real, g: int -> real, c: real)
    requires forall k :: 0 <= k < n ==> h(k) == c * g(k)
    ensures Sum(n, h) == c * Sum(n, g)
  {
    var zero := (k: int) => 0.0;
    SumLinear(n, h, zero, c, g);
    SumZero(n, zero);
  }

  // ---- row operations and their inverses --------------------------------
  // An elimination step multiplies on the left by an elementary matrix.  The
  // ghost factor f undoes it: f is changed by the inverse column operation, so
  // that f * m stays what it was.

  ghost function SwapRows(m: Mat, a: int, b: int): Mat {
    (i: int, j: int) => if i == a then m(b, j) else if i == b then m(a, j) else m(i, j)
  }

  ghost function SwapCols(f: Mat, a: int, b: int): Mat {
    Transpose(SwapRows(Transpose(f), a, b))
  }

  ghost function DivideRow(m: Mat, r: int, d: real): Mat
    requires d != 0.0
  {
    (i: int, j: int) => if i == r then m(i, j) / d else m(i, j)
  }

  ghost function TimesCol(f: Mat, r: int, d: real): Mat {
    (i: int, j: int) => if j == r then f(i, j) * d else f(i, j)
  }

  /** row r -= c * row s. */
  ghost function SubtractRow(m: Mat, r: int, c: real, s: int): Mat {
    (i: int, j: int) => if i == r then m(i, j) - c * m(s, j) else m(i, j)
  }

  /** column s += c * column r. */
  ghost function AddCol(f: Mat, r: int, c: real, s: int): Mat {
    (i: int, j: int) => if j == s then f(i, j) + c * f(i, r) else f(i, j)
  }

  lemma SwapUndone(f: Mat, m: Mat, n: nat, w: nat, a: int, b: int)
    requires 0 <= a < n && 0 <= b < n
    ensures Eq(Prod(SwapCols(f, a, b), SwapRows(m, a, b), n), Prod(f, m, n), n, w)
  {
    forall i, j | 0 <= i < n && 0 <= j < w
      ensures Prod(SwapCols(f, a, b), SwapRows(m, a, b), n)(i, j) == Prod(f, m, n)(i, j)
    {
      SwapUndoneAt(f, m, n, a, b, i, j);
    }
  }

  lemma SwapUndoneAt(f: Mat, m: Mat, n: nat, a: int, b: int, i: int, j: int)
    requires 0 <= a < n && 0 <= b < n
    ensures Prod(SwapCols(f, a, b), SwapRows(m, a, b), n)(i, j) == Prod(f, m, n)(i, j)
  {
    var f', m' := SwapCols(f, a, b), SwapRows(m, a, b);
    var g, h := Term(f', m', i, j), Term(f, m, i, j);
    assert f'(i, a) == f(i, b) && m'(a, j) == m(b, j);
    assert f'(i, b) == f(i, a) && m'(b, j) == m(a, j);
    assert g(a) == h(b) && g(b) == h(a);
    forall k | 0 <= k < n && k != a && k != b ensures g(k) == h(k) {
      assert f'(i, k) == f(i, k) && m'(k, j) == m(k, j);
    }
    if a == b {
      SumExt(n, g, h);
    } else {
      SumAgreeButTwo(n, g, h, a, b);
    }
  }

  lemma DivideUndone(f: Mat, m: Mat, n: nat, w: nat, r: int, d: real)
    requires 0 <= r < n && d != 0.0
    ensures Eq(Prod(TimesCol(f, r, d), DivideRow(m, r, d), n), Prod(f, m, n), n, w)
  {
    forall i, j | 0 <= i < n && 0 <= j < w
      ensures Prod(TimesCol(f, r, d), DivideRow(m, r, d), n)(i, j) == Prod(f, m, n)(i, j)
    {
      var x := f(i, r);
      assert (x * d) * (m(r, j) / d) == x * (d * (m(r, j) / d)) == x * m(r, j);
      SumExt(n, Term(TimesCol(f, r, d), DivideRow(m, r, d), i, j), Term(f, m, i, j));
    }
  }

  lemma SubtractUndone(f: Mat, m: Mat, n: nat, w: nat, r: int, c: real, s: int)
    requires 0 <= r < n && 0 <= s < n && r != s
    ensures Eq(Prod(AddCol(f, r, c, s), SubtractRow(m, r, c, s), n), Prod(f, m, n), n, w)
  {
    forall i, j | 0 <= i < n && 0 <= j < w
      ensures Prod(AddCol(f, r, c, s), SubtractRow(m, r, c, s), n)(i, j) == Prod(f, m, n)(i, j)
    {
      var g, h := Term(AddCol(f, r, c, s), SubtractRow(m, r, c, s), i, j), Term(f, m, i, j);
      Redistribute(f(i, r), f(i, s), m(r, j), m(s, j), c);
      assert g(r) == f(i, r) * (m(r, j) - c * m(s, j));
      assert g(s) == (f(i, s) + c * f(i, r)) * m(s, j);
      SumAgreeButTwo(n, g, h, r, s);
    }
  }

  lemma Redistribute(x: real, y: real, u: real, v: real, c: real)
    ensures x * (u - c * v) + (y + c * x) * v == x * u + y * v
  {
    assert x * (u - c * v) == x * u - x * (c * v);
    assert (y + c * x) * v == y * v + (c * x) * v;
    assert x * (c * v) == (c * x) * v;
  }

  // ---- the left factor --------------------------------------------------
  // The right half of the working matrix is the product of the row operations
  // so far: it maps the input to the left half.

  lemma SwapKeepsFactor(g: Mat, a0: Mat, l: Mat, n: nat, p: nat, a: int, b: int)
    requires 0 <= a < n && 0 <= b < n
    requires Eq(Prod(g, a0, n), l, n, p)
    ensures Eq(Prod(SwapRows(g, a, b), a0, n), SwapRows(l, a, b), n, p)
  {
    forall i, j | 0 <= i < n && 0 <= j < p
      ensures Prod(SwapRows(g, a, b), a0, n)(i, j) == SwapRows(l, a, b)(i, j)
    {
      var i' := if i == a then b else if i == b then a else i;
      SumExt(n, Term(SwapRows(g, a, b), a0, i, j), Term(g, a0, i', j));
      assert Prod(g, a0, n)(i', j) == l(i', j);
    }
  }

  lemma DivideKeepsFactor(g: Mat, a0: Mat, l: Mat, n: nat, p: nat, r: int, d: real)
    requires 0 <= r < n && d != 0.0
    requires Eq(Prod(g, a0, n), l, n, p)
    ensures Eq(Prod(DivideRow(g, r, d), a0, n), DivideRow(l, r, d), n, p)
  {
    forall i, j | 0 <= i < n && 0 <= j < p
      ensures Prod(DivideRow(g, r, d), a0, n)(i, j) == DivideRow(l, r, d)(i, j)
    {
      assert Prod(g, a0, n)(i, j) == l(i, j);
      if i == r {
        DividedEntry(g, a0, n, r, d, j);
        DivideTimes(1.0, d, l(i, j));
      } else {
        SumExt(n, Term(DivideRow(g, r, d), a0, i, j), Term(g, a0, i, j));
      }
    }
  }

  lemma DividedEntry(g: Mat, a0: Mat, n: nat, r: int, d: real, j: int)
    requires d != 0.0
    ensures Prod(DivideRow(g, r, d), a0, n)(r, j) == (1.0 / d) * Prod(g, a0, n)(r, j)
  {
    forall k | 0 <= k < n
      ensures Term(DivideRow(g, r, d), a0, r, j)(k) == (1.0 / d) * Term(g, a0, r, j)(k)
    {
      DivideTimes(g(r, k), d, a0(k, j));
    }
    SumTimes(n, Term(DivideRow(g, r, d), a0, r, j), Term(g, a0, r, j), 1.0 / d);
  }

  lemma DivideTimes(x: real, d: real, y: real)
    requires d != 0.0
    ensures (x / d) * y == (1.0 / d) * (x * y)
    ensures (x / d) * y == (x * y) / d
  {
    var q := x / d;
    assert q * d == x;
    var e := 1.0 / d;
    assert e * d == 1.0;
    assert q == q * (e * d) == (q * d) * e == x * e;
    assert q * y == (x * e) * y == e * (x * y);
    var z := (x * y) / d;
    assert z * d == x * y;
    assert z == z * (e * d) == (z * d) * e == (x * y) * e;
  }

  lemma SubtractKeepsFactor(g: Mat, a0: Mat, l: Mat, n: nat, p: nat, r: int, c: real, s: int)
    requires 0 <= r < n && 0 <= s < n && r != s
    requires Eq(Prod(g, a0, n), l, n, p)
    ensures Eq(Prod(SubtractRow(g, r, c, s), a0, n), SubtractRow(l, r, c, s), n, p)
  {
    forall i, j | 0 <= i < n && 0 <= j < p
      ensures Prod(SubtractRow(g, r, c, s), a0, n)(i, j) == SubtractRow(l, r, c, s)(i, j)
    {
      assert Prod(g, a0, n)(i, j) == l(i, j) && Prod(g, a0, n)(s, j) == l(s, j);
      if i == r {
        SubtractedRow(g, a0, n, r, c, s, j);
      } else {
        SumExt(n, Term(SubtractRow(g, r, c, s), a0, i, j), Term(g, a0, i, j));
      }
    }
  }

  lemma SubtractedRow(g: Mat, a0: Mat, n: nat, r: int, c: real, s: int, j: int)
    ensures Prod(SubtractRow(g, r, c, s), a0, n)(r, j) == Prod(g, a0, n)(r, j) - c * Prod(g, a0, n)(s, j)
  {
    var h, t, u := Term(SubtractRow(g, r, c, s), a0, r, j), Term(g, a0, r, j), Term(g, a0, s, j);
    forall k | 0 <= k < n ensures h(k) == t(k) + (-c) * u(k) {
      DistributeMinus(g(r, k), c, g(s, k), a0(k, j));
    }
    SumLinear(n, h, t, -c, u);
    assert (-c) * Sum(n, u) == -(c * Sum(n, u));
  }

  lemma DistributeMinus(x: real, c: real, y: real, z: real)
    ensures (x - c * y) * z == x * z + (-c) * (y * z)
  {
    assert (x - c * y) * z == x * z - (c * y) * z;
    assert (c * y) * z == c * (y * z);
    assert (-c) * (y * z) == -(c * (y * z));
  }
}
