/** Ordinary least squares by the normal equations (treasuryforge/signals/linalg.py)
    and the Engle-Granger spread built on it (treasuryforge/signals/cointegration.py). */
module LeastSquares {
  import opened Sums
  import opened Wrappers
  import opened MatrixAlgebra
  import opened Elimination
  import opened LinAlg

  /** The fit; variance[j] is the square of the standard error of coef[j]. */
  datatype Fit = Fit(coef: seq<real>, variance: seq<real>, resid: seq<real>, dof: int)

  // ---- what a fit is for ----------------------------------------------------------

  /** y - x b, as a column. */
  ghost function Residual(x: Mat, y: Mat, b: Mat, k: nat): Mat {
    (r: int, j: int) => y(r, j) - Prod(x, b, k)(r, j)
  }

  ghost function Square(e: Mat): int -> real {
    (r: int) => e(r, 0) * e(r, 0)
  }

  /** The residual sum of squares of the coefficient column b over n observations. */
  ghost function Rss(x: Mat, y: Mat, b: Mat, n: nat, k: nat): real {
    Sum(n, Square(Residual(x, y, b, k)))
  }

  /** x' e = 0: no regressor has anything left to explain. */
  ghost predicate Orthogonal(x: Mat, e: Mat, n: nat, k: nat) {
    forall j :: 0 <= j < k ==> Prod(Transpose(x), e, n)(j, 0) == 0.0
  }

  ghost function Gram(x: Mat, n: nat): Mat {
    Prod(Transpose(x), x, n)
  }

  ghost function Minus(b: Mat, c: Mat): Mat {
    (i: int, j: int) => b(i, j) - c(i, j)
  }

  /** b = (x'x)^-1 x'y solves the normal equations. */
  lemma NormalEquations(x: Mat, y: Mat, n: nat, k: nat, r: Mat, b: Mat)
    requires IsInverse(r, Gram(x, n), k)
    requires Eq(b, Prod(r, Prod(Transpose(x), y, n), k), k, 1)
    ensures Orthogonal(x, Residual(x, y, b, k), n, k)
  {
    var xt, g := Transpose(x), Gram(x, n);
    var xty := Prod(xt, y, n);
    // x' (x b) = g b = g (r xty) = (g r) xty = xty
    ProdAssoc(xt, x, b, k, n, k, 1);
    ProdExt(g, g, b, Prod(r, xty, k), k, k, 1);
    ProdAssoc(g, r, xty, k, k, k, 1);
    ProdExt(Prod(g, r, k), Identity(), xty, xty, k, k, 1);
    ProdIdentityLeft(xty, k, 1);
    forall j | 0 <= j < k
      ensures Prod(xt, Residual(x, y, b, k), n)(j, 0) == 0.0
    {
      assert Prod(xt, Prod(x, b, k), n)(j, 0) == Prod(g, b, k)(j, 0);
      assert Prod(g, b, k)(j, 0) == Prod(g, Prod(r, xty, k), k)(j, 0);
      assert Prod(g, Prod(r, xty, k), k)(j, 0) == Prod(Prod(g, r, k), xty, k)(j, 0);
      assert Prod(Prod(g, r, k), xty, k)(j, 0) == Prod(Identity(), xty, k)(j, 0) == xty(j, 0);
      ProdResidual(x, y, b, n, k, j);
    }
  }

  lemma ProdResidual(x: Mat, y: Mat, b: Mat, n: nat, k: nat, j: int)
    ensures Prod(Transpose(x), Residual(x, y, b, k), n)(j, 0)
         == Prod(Transpose(x), y, n)(j, 0) - Prod(Transpose(x), Prod(x, b, k), n)(j, 0)
  {
    var xt, e, xb := Transpose(x), Residual(x, y, b, k), Prod(x, b, k);
    forall r | 0 <= r < n
      ensures Term(xt, e, j, 0)(r) == Term(xt, y, j, 0)(r) + -1.0 * Term(xt, xb, j, 0)(r)
    {
      var u, v, w := x(r, j), y(r, 0), xb(r, 0);
      assert u * (v - w) == u * v + -1.0 * (u * w);
    }
    SumLinear(n, Term(xt, e, j, 0), Term(xt, y, j, 0), -1.0, Term(xt, xb, j, 0));
  }

  /** Pythagoras: moving from b to c costs exactly the squared length of x (b - c). */
  lemma RssSplits(x: Mat, y: Mat, b: Mat, c: Mat, n: nat, k: nat)
    requires Orthogonal(x, Residual(x, y, b, k), n, k)
    ensures Rss(x, y, c, n, k) == Rss(x, y, b, n, k) + Sum(n, Square(Prod(x, Minus(b, c), k)))
  {
    hide Residual, Prod, Minus, Square, Term, Rss;
    var e, d := Residual(x, y, b, k), Minus(b, c);
    var xd, ec := Prod(x, d, k), Residual(x, y, c, k);
    var cross := Term(Transpose(e), xd, 0, 0);
    CrossVanishes(x, e, d, n, k);
    forall r | 0 <= r < n
      ensures Square(ec)(r) == Square(e)(r) + Square(xd)(r) + 2.0 * cross(r)
    {
      ResidualSquare(x, y, b, c, k, r);
    }
    SumOfThree(n, Square(ec), Square(e), Square(xd), cross);
    RssIs(x, y, b, n, k);
    RssIs(x, y, c, n, k);
  }

  lemma RssIs(x: Mat, y: Mat, b: Mat, n: nat, k: nat)
    ensures Rss(x, y, b, n, k) == Sum(n, Square(Residual(x, y, b, k)))
  {
  }

  lemma {:induction false} SumOfThree(n: nat, h: int -> real, f: int -> real, g: int -> real, c: int -> real)
    requires forall k :: 0 <= k < n ==> h(k) == f(k) + g(k) + 2.0 * c(k)
    ensures Sum(n, h) == Sum(n, f) + Sum(n, g) + 2.0 * Sum(n, c)
  {
    if n > 0 {
      SumOfThree(n - 1, h, f, g, c);
    }
  }

  lemma ResidualSquare(x: Mat, y: Mat, b: Mat, c: Mat, k: nat, r: int)
    ensures var e, xd := Residual(x, y, b, k), Prod(x, Minus(b, c), k);
      Square(Residual(x, y, c, k))(r) == Square(e)(r) + Square(xd)(r) + 2.0 * Term(Transpose(e), xd, 0, 0)(r)
  {
    ProdMinus(x, b, c, k, r);
    var u, v := Residual(x, y, b, k)(r, 0), Prod(x, Minus(b, c), k)(r, 0);
    assert Residual(x, y, c, k)(r, 0) == u + v;
    assert Term(Transpose(Residual(x, y, b, k)), Prod(x, Minus(b, c), k), 0, 0)(r) == u * v;
    SquareOfSum(u, v);
  }

  lemma SquareOfSum(u: real, v: real)
    ensures (u + v) * (u + v) == u * u + v * v + 2.0 * (u * v)
  {
    TimesAdds(u, v, u + v);
    TimesAdds(u, v, u);
    TimesAdds(u, v, v);
    assert Times(u, u + v) == Times(u + v, u) && Times(v, u + v) == Times(u + v, v) && Times(u, v) == Times(v, u);
  }

  lemma ProdMinus(x: Mat, b: Mat, c: Mat, k: nat, r: int)
    ensures Prod(x, Minus(b, c), k)(r, 0) == Prod(x, b, k)(r, 0) - Prod(x, c, k)(r, 0)
  {
    forall j | 0 <= j < k
      ensures Term(x, Minus(b, c), r, 0)(j) == Term(x, b, r, 0)(j) + -1.0 * Term(x, c, r, 0)(j)
    {
      var u, v, w := x(r, j), b(j, 0), c(j, 0);
      assert u * (v - w) == u * v + -1.0 * (u * w);
    }
    SumLinear(k, Term(x, Minus(b, c), r, 0), Term(x, b, r, 0), -1.0, Term(x, c, r, 0));
  }

  lemma CrossVanishes(x: Mat, e: Mat, d: Mat, n: nat, k: nat)
    requires Orthogonal(x, e, n, k)
    ensures Sum(n, Term(Transpose(e), Prod(x, d, k), 0, 0)) == 0.0
  {
    // e'(x d) = (e'x) d, and e'x is the row of zeros
    ProdAssoc(Transpose(e), x, d, 1, n, k, 1);
    assert Prod(Transpose(e), Prod(x, d, k), n)(0, 0) == Prod(Prod(Transpose(e), x, n), d, k)(0, 0);
    forall j | 0 <= j < k
      ensures Term(Prod(Transpose(e), x, n), d, 0, 0)(j) == 0.0
    {
      SumExt(n, Term(Transpose(e), x, 0, j), Term(Transpose(x), e, j, 0));
      assert Prod(Transpose(e), x, n)(0, j) == Prod(Transpose(x), e, n)(j, 0) == 0.0;
    }
    SumZero(k, Term(Prod(Transpose(e), x, n), d, 0, 0));
  }

  /** No other coefficient column does as well. */
  lemma LeastSquaresIsOptimal(x: Mat, y: Mat, b: Mat, c: Mat, n: nat, k: nat, r: Mat)
    requires IsInverse(r, Gram(x, n), k)
    requires Orthogonal(x, Residual(x, y, b, k), n, k)
    ensures Rss(x, y, b, n, k) <= Rss(x, y, c, n, k)
    ensures Rss(x, y, b, n, k) == Rss(x, y, c, n, k) <==> Eq(b, c, k, 1)
  {
    var d := Minus(b, c);
    var sq := Square(Prod(x, d, k));
    RssSplits(x, y, b, c, n, k);
    forall i | 0 <= i < n ensures sq(i) >= 0.0 {
      SquareNonneg(Prod(x, d, k)(i, 0));
    }
    SumNonneg(n, sq);
    if Sum(n, sq) == 0.0 {
      forall i | 0 <= i < n ensures Prod(x, d, k)(i, 0) == 0.0 {
        SumNonnegZero(n, sq, i);
        SquareNonneg(Prod(x, d, k)(i, 0));
      }
      FullRankHasNoKernel(x, d, n, k, r);
      forall i, j | 0 <= i < k && 0 <= j < 1 ensures b(i, j) == c(i, j) {
        assert d(i, 0) == 0.0;
      }
    }
    if Eq(b, c, k, 1) {
      forall i | 0 <= i < n ensures sq(i) == 0.0 {
        SumZero(k, Term(x, d, i, 0));
      }
      SumZero(n, sq);
    }
  }

  lemma SquareNonneg(v: real)
    ensures v * v >= 0.0
    ensures v * v == 0.0 ==> v == 0.0
  {
    NoZeroDivisors(v, v);
  }

  /** Collinear regressors (x d = 0 with d nonzero) leave no inverse to find. */
  lemma FullRankHasNoKernel(x: Mat, d: Mat, n: nat, k: nat, r: Mat)
    requires IsInverse(r, Gram(x, n), k)
    requires forall i :: 0 <= i < n ==> Prod(x, d, k)(i, 0) == 0.0
    ensures forall j :: 0 <= j < k ==> d(j, 0) == 0.0
  {
    ProdAssoc(Transpose(x), x, d, k, n, k, 1);
    forall j | 0 <= j < k ensures Prod(Gram(x, n), d, k)(j, 0) == 0.0 {
      assert Prod(Gram(x, n), d, k)(j, 0) == Prod(Transpose(x), Prod(x, d, k), n)(j, 0);
      SumZero(n, Term(Transpose(x), Prod(x, d, k), j, 0));
    }
    InvertibleHasNoKernel(r, Gram(x, n), k, d);
  }

  /** The diagonal of (x'x)^-1 is a sum of squares, so clamping a variance at zero
      never changes it. */
  lemma GramInverseDiagonal(x: Mat, n: nat, k: nat, r: Mat, j: int)
    requires IsInverse(r, Gram(x, n), k) && 0 <= j < k
    ensures r(j, j) >= 0.0
  {
    // column j of r, as a column u:  r_jj = u' (x'x) u = |x u|^2
    var u: Mat := (i: int, l: int) => r(i, j);
    var xu := Prod(x, u, k);
    GramTimesColumn(x, n, k, r, j, u);
    var ut, xt := Transpose(u), Transpose(x);
    ProdAssoc(ut, xt, xu, 1, k, n, 1);
    SumSingle(k, Term(ut, Prod(xt, xu, n), 0, 0), j);
    assert Prod(ut, Prod(xt, xu, n), k)(0, 0) == r(j, j);
    SquaredLength(x, u, n, k);
    assert r(j, j) == Sum(n, Square(xu));
    forall l | 0 <= l < n ensures Square(xu)(l) >= 0.0 {
      SquareNonneg(xu(l, 0));
    }
    SumNonneg(n, Square(xu));
  }

  lemma GramTimesColumn(x: Mat, n: nat, k: nat, r: Mat, j: int, u: Mat)
    requires IsInverse(r, Gram(x, n), k) && 0 <= j < k
    requires forall i, l :: u(i, l) == r(i, j)
    ensures forall i :: 0 <= i < k ==> Prod(Transpose(x), Prod(x, u, k), n)(i, 0) == (if i == j then 1.0 else 0.0)
  {
    var g, xt, xu := Gram(x, n), Transpose(x), Prod(x, u, k);
    ProdAssoc(xt, x, u, k, n, k, 1);
    forall i | 0 <= i < k ensures Prod(xt, xu, n)(i, 0) == (if i == j then 1.0 else 0.0) {
      assert Prod(xt, xu, n)(i, 0) == Prod(g, u, k)(i, 0);
      SumExt(k, Term(g, u, i, 0), Term(g, r, i, j));
      assert Prod(g, r, k)(i, j) == Identity()(i, j);
    }
  }

  lemma SquaredLength(x: Mat, u: Mat, n: nat, k: nat)
    ensures Prod(Prod(Transpose(u), Transpose(x), k), Prod(x, u, k), n)(0, 0) == Sum(n, Square(Prod(x, u, k)))
  {
    var ut, xt, xu := Transpose(u), Transpose(x), Prod(x, u, k);
    forall l | 0 <= l < n
      ensures Term(Prod(ut, xt, k), xu, 0, 0)(l) == Square(xu)(l)
    {
      SumExt(k, Term(ut, xt, 0, l), Term(x, u, l, 0));
    }
    SumExt(n, Term(Prod(ut, xt, k), xu, 0, 0), Square(xu));
  }

  // ---- the code ---------------------------------------------------------------------

  function DotEntry(xt: Matrix, y: seq<real>, i: int): int -> real {
    (r: int) => Entry(xt, i, r) * (if 0 <= r < |y| then y[r] else 0.0)
  }

  /** Sizes, residuals, and the normal equations. */
  ghost predicate Solves(fit: Fit, x: Matrix, y: seq<real>, k: nat) {
    var e := Column(fit.resid);
    && |fit.coef| == |fit.variance| == k < |x| && |fit.resid| == |x| && fit.dof == |x| - k
    && Eq(e, Residual(Fn(x), Column(y), Column(fit.coef), k), |x|, 1)
    && Orthogonal(Fn(x), e, |x|, k)
  }

  /** Every other coefficient column has a strictly larger residual sum of squares. */
  ghost predicate Optimal(b: Mat, x: Mat, y: Mat, n: nat, k: nat) {
    forall c: Mat ::
      && Rss(x, y, b, n, k) <= Rss(x, y, c, n, k)
      && (Rss(x, y, b, n, k) == Rss(x, y, c, n, k) ==> Eq(b, c, k, 1))
  }

  /** variance[j] is sigma^2 times the j-th diagonal entry r of (x'x)^-1, unclamped. */
  ghost predicate HasVariances(fit: Fit, x: Matrix, y: seq<real>, k: nat, r: Mat)
    requires Solves(fit, x, y, k)
  {
    var sigma2 := Rss(Fn(x), Column(y), Column(fit.coef), |x|, k) / fit.dof as real;
    IsInverse(r, Gram(Fn(x), |x|), k)
    && forall j :: 0 <= j < k ==> fit.variance[j] == sigma2 * r(j, j) && fit.variance[j] >= 0.0
  }

  ghost predicate GoodFit(fit: Fit, x: Matrix, y: seq<real>, k: nat) {
    && Solves(fit, x, y, k)
    && Optimal(Column(fit.coef), Fn(x), Column(y), |x|, k)
    && exists r: Mat :: HasVariances(fit, x, y, k, r)
  }

  /** beta = (X'X)^-1 X'y, residuals, and the coefficient variances. */
  method Ols(x: Matrix, y: seq<real>) returns (res: Result<Fit, Error>)
    requires forall i :: 0 <= i < |x| ==> |x[i]| == |x[0]|
    ensures res.Ok? ==> |x| > 0 && |y| >= |x| > |x[0]| > 0 && GoodFit(res.value, x, y, |x[0]|)
    ensures res.Err? && res.error == TooFewObservations <==> |x| > 0 && |x| <= |x[0]|
    ensures res.Err? && res.error == SingularMatrix <==>
              |x| > 0 && |x| > |x[0]| > 0 && !HasPivots(Gram(Fn(x), |x|), |x[0]|)
    ensures res.Err? && res.error == IndexError <==>
              || |x| == 0 || |x[0]| == 0
              || (|x| > |x[0]| && HasPivots(Gram(Fn(x), |x|), |x[0]|) && |y| < |x|)
    ensures res.Err? && res.error == SingularMatrix ==> |x| > 0 && NearlySingular(Gram(Fn(x), |x|), |x[0]|)
  {
    if |x| == 0 {
      return Err(IndexError);
    }
    var n, k := |x|, |x[0]|;
    if n <= k {
      return Err(TooFewObservations);
    }
    if k == 0 {
      return Err(IndexError);      // the product with an empty X'y looks at its first row
    }
    var xt := TransposeRows(x);
    var xtx := MatMul(xt, x);
    GramOfLists(x, xt, xtx);
    PivotsExt(Fn(xtx), Gram(Fn(x), n), 0, k);
    var inv := Inverse(xtx);
    if inv.Err? {
      NearlySingularExt(Fn(xtx), Gram(Fn(x), n), k);
      return Err(inv.error);
    }
    if |y| < n {
      return Err(IndexError);
    }
    InverseExt(Fn(inv.value), Fn(xtx), Gram(Fn(x), n), k);
    var fit := FitFrom(x, y, xt, inv.value);
    return Ok(fit);
  }

  /** The part of the fit after the inverse r of X'X is known. */
  method FitFrom(x: Matrix, y: seq<real>, xt: Matrix, r: Matrix) returns (fit: Fit)
    requires |x| > 0 && IsMatrix(x, |x|, |x[0]|) && |y| >= |x| > |x[0]| > 0
    requires xt == TransposeRows(x)
    requires IsMatrix(r, |x[0]|, |x[0]|) && IsInverse(Fn(r), Gram(Fn(x), |x|), |x[0]|)
    ensures GoodFit(fit, x, y, |x[0]|)
  {
    var n, k := |x|, |x[0]|;
    var beta := BetaFrom(x, y, xt, r);
    var resid := seq(n, i requires 0 <= i < n => y[i] - Sum(k, DotEntry(x, beta, i)));
    ResidualOfLists(x, y, beta, resid);
    var rss := Sum(n, Squared(resid));
    var sigma2 := rss / (n - k) as real;
    var variance := Variances(sigma2, r, k);
    fit := Fit(beta, variance, resid, n - k);
    FitIsGood(fit, x, y, r, sigma2);
  }

  function Variances(sigma2: real, r: Matrix, k: nat): (v: seq<real>)
    requires IsMatrix(r, k, k)
    ensures |v| == k && forall j :: 0 <= j < k ==> v[j] == Max(sigma2 * r[j][j], 0.0)
  {
    seq(k, j requires 0 <= j < k => Clamped(sigma2, r[j][j]))
  }

  function Clamped(s: real, d: real): real {
    Max(s * d, 0.0)
  }

  method BetaFrom(x: Matrix, y: seq<real>, xt: Matrix, r: Matrix) returns (beta: seq<real>)
    requires |x| > 0 && IsMatrix(x, |x|, |x[0]|) && |y| >= |x| > |x[0]| > 0
    requires xt == TransposeRows(x) && IsMatrix(r, |x[0]|, |x[0]|)
    ensures |beta| == |x[0]|
    ensures Eq(Column(beta), Prod(Fn(r), Prod(Transpose(Fn(x)), Column(y), |x|), |x[0]|), |x[0]|, 1)
  {
    var n, k := |x|, |x[0]|;
    var xty: Matrix := seq(k, i => [Sum(n, DotEntry(xt, y, i))]);
    var betaRows := MatMul(r, xty);
    beta := seq(k, i requires 0 <= i < k => betaRows[i][0]);
    BetaOfLists(x, y, xt, xty, r, betaRows, beta);
  }

  function Squared(e: seq<real>): int -> real {
    (i: int) => if 0 <= i < |e| then e[i] * e[i] else 0.0
  }

  // ---- between the lists and the index functions ----------------------------------------

  lemma GramOfLists(x: Matrix, xt: Matrix, xtx: Matrix)
    requires |x| > 0 && IsMatrix(x, |x|, |x[0]|) && xt == TransposeRows(x)
    requires Eq(Fn(xtx), Prod(Fn(xt), Fn(x), |x|), |x[0]|, |x[0]|)
    ensures Eq(Fn(xtx), Gram(Fn(x), |x|), |x[0]|, |x[0]|)
  {
    var n, k := |x|, |x[0]|;
    assert Eq(Fn(xt), Transpose(Fn(x)), k, n);
    ProdExt(Fn(xt), Transpose(Fn(x)), Fn(x), Fn(x), k, n, k);
    forall i, j | 0 <= i < k && 0 <= j < k ensures Fn(xtx)(i, j) == Gram(Fn(x), n)(i, j) {
      assert Fn(xtx)(i, j) == Prod(Fn(xt), Fn(x), n)(i, j);
    }
  }

  lemma InverseExt(r: Mat, a: Mat, b: Mat, n: nat)
    requires IsInverse(r, a, n) && Eq(a, b, n, n)
    ensures IsInverse(r, b, n)
  {
    ProdExt(r, r, a, b, n, n, n);
    ProdExt(a, b, r, r, n, n, n);
    forall i, j | 0 <= i < n && 0 <= j < n
      ensures Prod(r, b, n)(i, j) == Identity()(i, j) && Prod(b, r, n)(i, j) == Identity()(i, j)
    {
      assert Prod(r, a, n)(i, j) == Identity()(i, j) && Prod(a, r, n)(i, j) == Identity()(i, j);
    }
  }

  lemma NearlySingularExt(a: Mat, b: Mat, n: nat)
    requires NearlySingular(a, n) && Eq(a, b, n, n)
    ensures NearlySingular(b, n)
  {
    var v, c :| NearKernel(a, n, v, c);
    ProdExt(a, b, v, v, n, n, 1);
    forall i | 0 <= i < n
      ensures Abs(Prod(b, v, n)(i, 0)) < PIVOT_TOLERANCE
    {
      assert Prod(a, v, n)(i, 0) == Prod(b, v, n)(i, 0);
    }
    assert NearKernel(b, n, v, c);
  }

  lemma BetaOfLists(x: Matrix, y: seq<real>, xt: Matrix, xty: Matrix, r: Matrix, rows: Matrix, beta: seq<real>)
    requires 0 < |x| <= |y| && IsMatrix(x, |x|, |x[0]|) && xt == TransposeRows(x)
    requires IsMatrix(xty, |x[0]|, 1) && IsMatrix(rows, |x[0]|, 1) && |beta| == |x[0]|
    requires forall i :: 0 <= i < |x[0]| ==> xty[i][0] == Sum(|x|, DotEntry(xt, y, i))
    requires Eq(Fn(rows), Prod(Fn(r), Fn(xty), |x[0]|), |x[0]|, 1)
    requires forall i :: 0 <= i < |x[0]| ==> beta[i] == rows[i][0]
    ensures Eq(Column(beta), Prod(Fn(r), Prod(Transpose(Fn(x)), Column(y), |x|), |x[0]|), |x[0]|, 1)
  {
    var n, k := |x|, |x[0]|;
    var target := Prod(Transpose(Fn(x)), Column(y), n);
    forall i, j | 0 <= i < k && 0 <= j < 1 ensures Fn(xty)(i, j) == target(i, j) {
      SumExt(n, DotEntry(xt, y, i), Term(Transpose(Fn(x)), Column(y), i, 0));
    }
    ProdExt(Fn(r), Fn(r), Fn(xty), target, k, k, 1);
    forall i, j | 0 <= i < k && 0 <= j < 1 ensures Column(beta)(i, j) == Prod(Fn(r), target, k)(i, j) {
      assert Fn(rows)(i, 0) == Prod(Fn(r), Fn(xty), k)(i, 0);
    }
  }

  lemma ResidualOfLists(x: Matrix, y: seq<real>, beta: seq<real>, resid: seq<real>)
    requires |x| <= |y| && |resid| == |x|
    requires forall i :: 0 <= i < |x| ==> resid[i] == y[i] - Sum(|beta|, DotEntry(x, beta, i))
    ensures Eq(Column(resid), Residual(Fn(x), Column(y), Column(beta), |beta|), |x|, 1)
  {
    forall i, j | 0 <= i < |x| && 0 <= j < 1
      ensures Column(resid)(i, j) == Residual(Fn(x), Column(y), Column(beta), |beta|)(i, j)
    {
      SumExt(|beta|, DotEntry(x, beta, i), Term(Fn(x), Column(beta), i, j));
      assert Prod(Fn(x), Column(beta), |beta|)(i, j) == Sum(|beta|, DotEntry(x, beta, i));
      assert Column(y)(i, j) == y[i] && Column(resid)(i, j) == resid[i];
    }
  }

  lemma RssOfLists(x: Matrix, y: seq<real>, b: Mat, resid: seq<real>, k: nat)
    requires |resid| == |x|
    requires Eq(Column(resid), Residual(Fn(x), Column(y), b, k), |x|, 1)
    ensures Sum(|x|, Squared(resid)) == Rss(Fn(x), Column(y), b, |x|, k)
    ensures Sum(|x|, Squared(resid)) >= 0.0
  {
    var e := Residual(Fn(x), Column(y), b, k);
    forall i | 0 <= i < |x| ensures Squared(resid)(i) == Square(e)(i) && Squared(resid)(i) >= 0.0 {
      assert Column(resid)(i, 0) == e(i, 0);
      SquareNonneg(resid[i]);
    }
    SumExt(|x|, Squared(resid), Square(e));
    SumNonneg(|x|, Squared(resid));
  }

  lemma OrthogonalExt(x: Mat, e: Mat, e': Mat, n: nat, k: nat)
    requires Eq(e, e', n, 1) && Orthogonal(x, e', n, k)
    ensures Orthogonal(x, e, n, k)
  {
    ProdExt(Transpose(x), Transpose(x), e, e', k, n, 1);
    forall j | 0 <= j < k ensures Prod(Transpose(x), e, n)(j, 0) == 0.0 {
      assert Prod(Transpose(x), e, n)(j, 0) == Prod(Transpose(x), e', n)(j, 0);
    }
  }

  lemma OptimalFrom(x: Mat, y: Mat, b: Mat, n: nat, k: nat, r: Mat)
    requires IsInverse(r, Gram(x, n), k) && Orthogonal(x, Residual(x, y, b, k), n, k)
    ensures Optimal(b, x, y, n, k)
  {
    forall c: Mat
      ensures Rss(x, y, b, n, k) <= Rss(x, y, c, n, k)
      ensures Rss(x, y, b, n, k) == Rss(x, y, c, n, k) ==> Eq(b, c, k, 1)
    {
      LeastSquaresIsOptimal(x, y, b, c, n, k, r);
    }
  }

  lemma VariancesFrom(fit: Fit, x: Matrix, y: seq<real>, r: Matrix, sigma2: real, k: nat)
    requires Solves(fit, x, y, k) && IsMatrix(r, k, k) && IsInverse(Fn(r), Gram(Fn(x), |x|), k)
    requires sigma2 == Sum(|x|, Squared(fit.resid)) / fit.dof as real
    requires forall j :: 0 <= j < k ==> fit.variance[j] == Max(sigma2 * r[j][j], 0.0)
    ensures HasVariances(fit, x, y, k, Fn(r))
  {
    hide Gram, Orthogonal, Rss, Squared, Residual;
    RssOfLists(x, y, Column(fit.coef), fit.resid, k);
    QuotientNonneg(Sum(|x|, Squared(fit.resid)), fit.dof as real);
    forall j | 0 <= j < k
      ensures fit.variance[j] == sigma2 * Fn(r)(j, j) && fit.variance[j] >= 0.0
    {
      GramInverseDiagonal(Fn(x), |x|, k, Fn(r), j);
      ProductNonneg(sigma2, r[j][j]);
    }
  }

  lemma FitIsGood(fit: Fit, x: Matrix, y: seq<real>, r: Matrix, sigma2: real)
    requires |x| > 0 && |x| > |x[0]| == |fit.coef| == |fit.variance|
    requires |fit.resid| == |x| && fit.dof == |x| - |x[0]|
    requires IsMatrix(r, |x[0]|, |x[0]|) && IsInverse(Fn(r), Gram(Fn(x), |x|), |x[0]|)
    requires Eq(Column(fit.coef), Prod(Fn(r), Prod(Transpose(Fn(x)), Column(y), |x|), |x[0]|), |x[0]|, 1)
    requires Eq(Column(fit.resid), Residual(Fn(x), Column(y), Column(fit.coef), |x[0]|), |x|, 1)
    requires sigma2 == Sum(|x|, Squared(fit.resid)) / fit.dof as real
    requires forall j :: 0 <= j < |x[0]| ==> fit.variance[j] == Max(sigma2 * r[j][j], 0.0)
    ensures GoodFit(fit, x, y, |x[0]|)
  {
    var n, k, b := |x|, |x[0]|, Column(fit.coef);
    NormalEquations(Fn(x), Column(y), n, k, Fn(r), b);
    OrthogonalExt(Fn(x), Column(fit.resid), Residual(Fn(x), Column(y), b, k), n, k);
    OptimalFrom(Fn(x), Column(y), b, n, k, Fn(r));
    VariancesFrom(fit, x, y, r, sigma2, k);
  }

  // ---- treasuryforge/signals/cointegration.py ---------------------------------------------

  /** OLS of a on b with an intercept. */
  method HedgeRatio(a: seq<real>, b: seq<real>) returns (res: Result<(real, real), Error>, ghost fit: Fit)
    ensures res.Ok? ==> |a| >= |b| > 2 && GoodFit(fit, WithIntercept(b), a, 2) && fit.coef == [res.value.0, res.value.1]
    // every refusal, on the numbers alone
    ensures res.Err? && res.error == TooFewObservations <==> 0 < |b| <= 2
    ensures res.Err? && res.error == SingularMatrix <==> |b| > 2 && !Spread(b)
    ensures res.Err? && res.error == IndexError <==> |b| == 0 || (|b| > 2 && Spread(b) && |a| < |b|)
  {
    var x := WithIntercept(b);
    if |b| > 2 {
      HasPivotsIff(b);
    }
    var r := Ols(x, a);
    if r.Err? {
      fit := Fit([], [], [], 0);
      return Err(r.error), fit;
    }
    fit := r.value;
    return Ok((r.value.coef[0], r.value.coef[1])), fit;
  }

  function WithIntercept(b: seq<real>): (x: Matrix)
    ensures |x| == |b| && forall i :: 0 <= i < |b| ==> x[i] == [1.0, b[i]]
  {
    seq(|b|, i requires 0 <= i < |b| => [1.0, b[i]])
  }

  ghost function At(s: seq<real>): int -> real {
    (i: int) => if 0 <= i < |s| then s[i] else 0.0
  }

  ghost function AtTimes(s: seq<real>, t: seq<real>): int -> real {
    (i: int) => At(t)(i) * At(s)(i)
  }

  /** The second leg varies enough for a fit: n times the sum of its squares exceeds the square of its
      sum by 1e-12 of the larger of n and the size of that sum. */
  ghost predicate Spread(b: seq<real>) {
    var n, s, q := |b| as real, Sum(|b|, At(b)), Sum(|b|, AtTimes(b, b));
    Abs(n * q - s * s) >= 0.000000000001 * Max(n, Abs(s))
  }

  /** That is when both pivots of its 2 x 2 normal equations are large enough. */
  lemma HasPivotsIff(b: seq<real>)
    requires |b| > 2
    ensures HasPivots(Gram(Fn(WithIntercept(b)), |b|), 2) <==> Spread(b)
  {
    hide Gram, Sum, HasPivots, SecondPivot;
    var n, s, q := |b| as real, Sum(|b|, At(b)), Sum(|b|, AtTimes(b, b));
    GramWithIntercept(b);
    TwoPivots(Gram(Fn(WithIntercept(b)), |b|), n, s, q);
    SecondPivotIff(n, s, q);
  }

  /** What elimination leaves of [n s; s q] below the larger of n and s. */
  ghost function SecondPivot(n: real, s: real, q: real): real
    requires n > 0.0
  {
    if Abs(s) > n then s - Times(n, q / s) else q - Times(s, s / n)
  }

  lemma SecondPivotIff(n: real, s: real, q: real)
    requires n > 0.0
    ensures Abs(SecondPivot(n, s, q)) >= 0.000000000001
       <==> Abs(n * q - s * s) >= 0.000000000001 * Max(n, Abs(s))
  {
    hide Times;
    var d, p := SecondPivot(n, s, q), if Abs(s) > n then s else n;
    if Abs(s) > n {
      TimesDivided(n, q, s);
      TimesAdds(s, Times(n, q / s), s);
    } else {
      TimesDivided(s, s, n);
      TimesAdds(q, Times(s, s / n), n);
    }
    ProductsOf(n, s, q);
    SizeOfTimes(d, p);
    SizesCompare(Abs(d), 0.000000000001, Max(n, Abs(s)));
  }

  lemma ProductsOf(n: real, s: real, q: real)
    ensures Times(n, q) == Times(q, n) == n * q && Times(s, s) == s * s
  {
  }

  lemma TimesDivided(y: real, z: real, p: real)
    requires p != 0.0
    ensures Times(Times(y, z / p), p) == Times(y, z)
  {
    var t := z / p;
    assert t * p == z;
    assert (y * t) * p == y * (t * p);
  }

  lemma SizeOfTimes(d: real, p: real)
    ensures Times(Abs(d), Abs(p)) == Abs(Times(d, p))
  {
    if d > 0.0 && p > 0.0 {
      PositiveProduct(d, p);
    } else if d > 0.0 && p < 0.0 {
      PositiveProduct(d, -p);
      assert d * -p == -(d * p);
    } else if d < 0.0 && p > 0.0 {
      PositiveProduct(-d, p);
      assert -d * p == -(d * p);
    } else if d < 0.0 && p < 0.0 {
      PositiveProduct(-d, -p);
      assert -d * -p == d * p;
    }
  }

  lemma SizesCompare(x: real, y: real, m: real)
    requires m > 0.0
    ensures x >= y <==> Times(x, m) >= y * m
  {
    if x >= y {
      ProductNonneg(x - y, m);
    } else {
      PositiveProduct(y - x, m);
    }
    assert (x - y) * m == x * m - y * m;
  }

  lemma TwoPivots(g: Mat, n: real, s: real, q: real)
    requires n > 2.0 && g(0, 0) == n && g(0, 1) == s && g(1, 0) == s && g(1, 1) == q
    ensures HasPivots(g, 2) <==> Abs(SecondPivot(n, s, q)) >= 0.000000000001
  {
    hide Times;
    assert Best(g, 0, 2) == if Abs(s) > n then 1 else 0;
    var h := Eliminated(g, 0, 2);
    assert Best(h, 1, 2) == 1;
    assert PivotsFrom(Eliminated(h, 1, 2), 2, 2);
  }

  lemma GramWithIntercept(b: seq<real>)
    ensures var g := Gram(Fn(WithIntercept(b)), |b|);
      && g(0, 0) == |b| as real && g(0, 1) == Sum(|b|, At(b)) && g(1, 0) == Sum(|b|, At(b))
      && g(1, 1) == Sum(|b|, AtTimes(b, b))
  {
    hide Sum;
    var n, x := |b|, Fn(WithIntercept(b));
    var xt := Transpose(x);
    forall i | 0 <= i < n
      ensures Term(xt, x, 0, 0)(i) == 1.0 && Term(xt, x, 0, 1)(i) == At(b)(i) == Term(xt, x, 1, 0)(i)
      ensures Term(xt, x, 1, 1)(i) == AtTimes(b, b)(i)
    {
      RowWithIntercept(b, i);
    }
    SumOnes(n, Term(xt, x, 0, 0));
    SumExt(n, Term(xt, x, 0, 1), At(b));
    SumExt(n, Term(xt, x, 1, 0), At(b));
    SumExt(n, Term(xt, x, 1, 1), AtTimes(b, b));
  }

  lemma RowWithIntercept(b: seq<real>, i: int)
    requires 0 <= i < |b|
    ensures var x := Fn(WithIntercept(b));
      var xt := Transpose(x);
      && Term(xt, x, 0, 0)(i) == 1.0 && Term(xt, x, 0, 1)(i) == At(b)(i) == Term(xt, x, 1, 0)(i)
      && Term(xt, x, 1, 1)(i) == AtTimes(b, b)(i)
  {
    assert WithIntercept(b)[i] == [1.0, b[i]];
    var x := Fn(WithIntercept(b));
    assert x(i, 0) == 1.0 && x(i, 1) == b[i];
    assert b[i] * 1.0 == b[i] && 1.0 * b[i] == b[i];
  }

  lemma {:induction false} SumOnes(n: nat, f: int -> real)
    requires forall i :: 0 <= i < n ==> f(i) == 1.0
    ensures Sum(n, f) == n as real
  {
    if n > 0 {
      SumOnes(n - 1, f);
    }
  }

  /** The spread a - (alpha + beta b) of the Engle-Granger test is balanced around
      zero and uncorrelated with b. */
  method EngleGrangerSpread(a: seq<real>, b: seq<real>) returns (res: Result<seq<real>, Error>)
    requires |a| == |b|
    ensures res.Ok? ==> |res.value| == |a|
    ensures res.Ok? ==> Sum(|a|, At(res.value)) == 0.0
    ensures res.Ok? ==> Sum(|a|, AtTimes(res.value, b)) == 0.0
    ensures res.Ok? <==> |a| > 2 && Spread(b)
  {
    var hr, fit := HedgeRatio(a, b);
    if hr.Err? {
      return Err(hr.error);
    }
    var (alpha, beta) := hr.value;
    var spread := seq(|a|, i requires 0 <= i < |a| => a[i] - (alpha + beta * b[i]));
    SpreadIsResidual(a, b, fit, spread);
    return Ok(spread);
  }

  lemma SpreadIsResidual(a: seq<real>, b: seq<real>, fit: Fit, spread: seq<real>)
    requires |a| == |b| == |spread| && Solves(fit, WithIntercept(b), a, 2)
    requires forall i :: 0 <= i < |a| ==> spread[i] == a[i] - (fit.coef[0] + fit.coef[1] * b[i])
    ensures Sum(|a|, At(spread)) == 0.0
    ensures Sum(|a|, AtTimes(spread, b)) == 0.0
  {
    var n, x := |a|, Fn(WithIntercept(b));
    forall i | 0 <= i < n ensures spread[i] == fit.resid[i] {
      ResidualWithIntercept(a, b, fit, i);
    }
    SpreadSums(b, fit.resid);
    assert spread == fit.resid;
    var e := Column(fit.resid);
    assert Prod(Transpose(x), e, n)(0, 0) == 0.0 && Prod(Transpose(x), e, n)(1, 0) == 0.0;
  }

  lemma ResidualWithIntercept(a: seq<real>, b: seq<real>, fit: Fit, i: int)
    requires 0 <= i < |a| == |b| && Solves(fit, WithIntercept(b), a, 2)
    ensures fit.resid[i] == a[i] - (fit.coef[0] + fit.coef[1] * b[i])
  {
    var x := WithIntercept(b);
    var t := Term(Fn(x), Column(fit.coef), i, 0);
    assert Column(fit.resid)(i, 0) == Residual(Fn(x), Column(a), Column(fit.coef), 2)(i, 0);
    TwoTerms(t);
    assert x[i] == [1.0, b[i]];
    var c0, c1, bi := fit.coef[0], fit.coef[1], b[i];
    assert t(0) == 1.0 * c0 && t(1) == bi * c1;
    assert bi * c1 == c1 * bi;
    assert Prod(Fn(x), Column(fit.coef), 2)(i, 0) == Sum(2, t);
    assert Residual(Fn(x), Column(a), Column(fit.coef), 2)(i, 0) == a[i] - Sum(2, t);
    assert Column(fit.resid)(i, 0) == fit.resid[i];
  }

  lemma TwoTerms(f: int -> real)
    ensures Sum(2, f) == f(0) + f(1)
  {
    assert Sum(2, f) == Sum(1, f) + f(1);
  }

  lemma SpreadSums(b: seq<real>, e: seq<real>)
    requires |e| == |b|
    ensures Sum(|b|, At(e)) == Prod(Transpose(Fn(WithIntercept(b))), Column(e), |b|)(0, 0)
    ensures Sum(|b|, AtTimes(e, b)) == Prod(Transpose(Fn(WithIntercept(b))), Column(e), |b|)(1, 0)
  {
    var x := WithIntercept(b);
    forall i | 0 <= i < |b|
      ensures At(e)(i) == Term(Transpose(Fn(x)), Column(e), 0, 0)(i)
      ensures AtTimes(e, b)(i) == Term(Transpose(Fn(x)), Column(e), 1, 0)(i)
    {
      assert x[i] == [1.0, b[i]];
    }
    SumExt(|b|, At(e), Term(Transpose(Fn(x)), Column(e), 0, 0));
    SumExt(|b|, AtTimes(e, b), Term(Transpose(Fn(x)), Column(e), 1, 0));
  }
}
