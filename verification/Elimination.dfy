/** Gaussian elimination on the index functions: which pivots a matrix has, without any inverse
    or right half.  LinAlg's Gauss-Jordan is proved to give up exactly when one of these is
    too small. */
module Elimination {
  import opened Sums
  import opened MatrixAlgebra

  /** The first of rows c .. i-1 with the largest entry in column c. */
  ghost function Best(b: Mat, c: nat, i: nat): nat
    requires c < i
  {
    if i == c + 1 then c
    else
      var p := Best(b, c, i - 1);
      if Abs(b(i - 1, c)) > Abs(b(p, c)) then i - 1 else p
  }

  lemma {:induction false} BestIs(b: Mat, c: nat, i: nat, p: nat)
    requires c <= p < i
    requires forall k :: c <= k < i ==> Abs(b(k, c)) <= Abs(b(p, c))
    requires forall k :: c <= k < p ==> Abs(b(k, c)) < Abs(b(p, c))
    ensures Best(b, c, i) == p
  {
    if p < i - 1 {
      BestIs(b, c, i - 1, p);
    } else if c < p {
      BestBelow(b, c, i - 1);
    }
  }

  lemma {:induction false} BestBelow(b: Mat, c: nat, i: nat)
    requires c < i
    ensures c <= Best(b, c, i) < i
  {
    if c + 1 < i {
      BestBelow(b, c, i - 1);
    }
  }

  /** What column c leaves of the rows below it: the pivot row is exchanged with row c, and its
      multiple taken off each other. */
  ghost function Eliminated(b: Mat, c: nat, n: nat): Mat
    requires c < n
  {
    var p := Best(b, c, n);
    (i: int, j: int) =>
      var r := if i == p then c else i;
      if b(p, c) == 0.0 then 0.0 else b(r, j) - Times(b(r, c), b(p, j) / b(p, c))
  }

  /** From column c on every pivot is at least 1e-12 in size. */
  ghost predicate PivotsFrom(b: Mat, c: nat, n: nat)
    requires c <= n
    decreases n - c
  {
    c == n || (Abs(b(Best(b, c, n), c)) >= 0.000000000001 && PivotsFrom(Eliminated(b, c, n), c + 1, n))
  }

  ghost predicate HasPivots(a: Mat, n: nat) {
    PivotsFrom(a, 0, n)
  }

  /** The pivots depend on the square alone. */
  lemma {:induction false} PivotsExt(a: Mat, b: Mat, c: nat, n: nat)
    requires c <= n && forall i, j :: c <= i < n && c <= j < n ==> a(i, j) == b(i, j)
    ensures PivotsFrom(a, c, n) == PivotsFrom(b, c, n)
    decreases n - c
  {
    hide Eliminated;
    if c < n {
      BestExt(a, b, c, n);
      BestBelow(a, c, n);
      EliminatedExt(a, b, c, n);
      PivotsExt(Eliminated(a, c, n), Eliminated(b, c, n), c + 1, n);
    }
  }

  lemma {:induction false} BestExt(a: Mat, b: Mat, c: nat, i: nat)
    requires c < i && forall k :: c <= k < i ==> a(k, c) == b(k, c)
    ensures Best(a, c, i) == Best(b, c, i)
  {
    if c + 1 < i {
      BestExt(a, b, c, i - 1);
      BestBelow(a, c, i - 1);
    }
  }

  lemma EliminatedExt(a: Mat, b: Mat, c: nat, n: nat)
    requires c < n && Best(a, c, n) == Best(b, c, n) < n && c <= Best(a, c, n)
    requires forall i, j :: c <= i < n && c <= j < n ==> a(i, j) == b(i, j)
    ensures forall i, j :: c < i < n && c < j < n ==> Eliminated(a, c, n)(i, j) == Eliminated(b, c, n)(i, j)
  {
    hide Times, Best;
  }
}
