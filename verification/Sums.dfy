/** Finite sums over an index range and over a sequence, with the few laws the
    other modules need.  Numbers are mathematical reals throughout the project. */
module Sums {

  function Abs(x: real): real {
    if x < 0.0 then -x else x
  }

  function Min(x: real, y: real): real {
    if y < x then y else x
  }

  function Max(x: real, y: real): real {
    if y > x then y else x
  }

  /** A product kept under a name, so that proofs can treat it as a unit. */
  function Times(a: real, b: real): real {
    a * b
  }

  lemma TimesNext(n: int, c: real)
    ensures Times((n + 1) as real, c) == Times(n as real, c) + c
    ensures Times(0.0, c) == 0.0
  {
    assert ((n as real) + 1.0) * c == (n as real) * c + c;
  }

  lemma NoZeroDivisors(a: real, b: real)
    ensures a * b == 0.0 ==> a == 0.0 || b == 0.0
  {
    if a * b == 0.0 && a != 0.0 {
      var q := 1.0 / a;
      assert q * a == 1.0;
      assert b == (q * a) * b == q * (a * b);
    }
  }

  lemma CancelFactor(a: real, q: real)
    requires a != 0.0
    ensures (a * q) / a == q
  {
    var s := (a * q) / a;
    assert s * a == a * q;
    assert (s - q) * a == s * a - q * a;
    NoZeroDivisors(s - q, a);
  }

  lemma PositiveProduct(a: real, b: real)
    requires a > 0.0 && b > 0.0
    ensures a * b > 0.0
  {
  }

  lemma ProductNonneg(a: real, b: real)
    requires a >= 0.0 && b >= 0.0
    ensures a * b >= 0.0 && Times(a, b) >= 0.0
  {
  }

  lemma QuotientNonneg(a: real, b: real)
    requires a >= 0.0 && b > 0.0
    ensures a / b >= 0.0
  {
  }

  lemma TimesAdds(a: real, b: real, s: real)
    ensures Times(a + b, s) == Times(a, s) + Times(b, s)
    ensures Times(a - b, s) == Times(a, s) - Times(b, s)
    ensures Times(0.0, s) == 0.0
  {
  }

  lemma TimesMonotone(q: real, a: real, b: real)
    requires q >= 0.0 && a <= b
    ensures Times(q, a) <= Times(q, b) && Times(a, q) <= Times(b, q)
  {
  }

  /** f(0) + ... + f(n-1). */
  function Sum(n: nat, f: int -> real): real {
    if n == 0 then 0.0 else Sum(n - 1, f) + f(n - 1)
  }

  lemma {:induction false} SumExt(n: nat, f: int -> real, g: int -> real)
    requires forall k :: 0 <= k < n ==> f(k) == g(k)
    ensures Sum(n, f) == Sum(n, g)
  {
    if n > 0 {
      SumExt(n - 1, f, g);
    }
  }

  /** h = f + c * g pointwise makes the sums linear in the same way. */
  lemma {:induction false} SumLinear(n: nat, h: int -> real, f: int -> real, c: real, g: int -> real)
    requires forall k :: 0 <= k < n ==> h(k) == f(k) + c * g(k)
    ensures Sum(n, h) == Sum(n, f) + c * Sum(n, g)
  {
    if n > 0 {
      SumLinear(n - 1, h, f, c, g);
    }
  }

  lemma {:induction false} SumPlus(n: nat, h: int -> real, f: int -> real, g: int -> real)
    requires forall k :: 0 <= k < n ==> h(k) == f(k) + g(k)
    ensures Sum(n, h) == Sum(n, f) + Sum(n, g)
  {
    if n > 0 {
      SumPlus(n - 1, h, f, g);
    }
  }

  lemma {:induction false} SumZero(n: nat, f: int -> real)
    requires forall k :: 0 <= k < n ==> f(k) == 0.0
    ensures Sum(n, f) == 0.0
  {
    if n > 0 {
      SumZero(n - 1, f);
    }
  }

  /** A sum with at most one nonzero term. */
  lemma {:induction false} SumSingle(n: nat, f: int -> real, at: int)
    requires 0 <= at < n
    requires forall k :: 0 <= k < n && k != at ==> f(k) == 0.0
    ensures Sum(n, f) == f(at)
  {
    if at == n - 1 {
      SumZero(n - 1, f);
    } else {
      SumSingle(n - 1, f, at);
    }
  }

  /** Changing one term changes the sum by that term. */
  lemma {:induction false} SumAgreeButOne(n: nat, f: int -> real, g: int -> real, at: int)
    requires 0 <= at < n
    requires forall k :: 0 <= k < n && k != at ==> f(k) == g(k)
    ensures Sum(n, f) - f(at) == Sum(n, g) - g(at)
  {
    if at == n - 1 {
      SumExt(n - 1, f, g);
    } else {
      SumAgreeButOne(n - 1, f, g, at);
    }
  }

  /** Two terms may be redistributed between each other. */
  lemma {:induction false} SumAgreeButTwo(n: nat, f: int -> real, g: int -> real, a: int, b: int)
    requires 0 <= a < n && 0 <= b < n && a != b
    requires forall k :: 0 <= k < n && k != a && k != b ==> f(k) == g(k)
    requires f(a) + f(b) == g(a) + g(b)
    ensures Sum(n, f) == Sum(n, g)
  {
    var hi, lo := if a < b then b else a, if a < b then a else b;
    if hi == n - 1 {
      SumAgreeButOne(n - 1, f, g, lo);
    } else {
      SumAgreeButTwo(n - 1, f, g, a, b);
    }
  }

  /** The row sums and the column sums of an n x m table have the same total. */
  ghost function RowSum(t: (int, int) -> real, m: nat): int -> real {
    (i: int) => Sum(m, Row(t, i))
  }

  ghost function Row(t: (int, int) -> real, i: int): int -> real {
    (j: int) => t(i, j)
  }

  ghost function Flip(t: (int, int) -> real): (int, int) -> real {
    (j: int, i: int) => t(i, j)
  }

  lemma {:induction false} SumSwap(n: nat, m: nat, t: (int, int) -> real)
    ensures Sum(n, RowSum(t, m)) == Sum(m, RowSum(Flip(t), n))
  {
    if n == 0 {
      SumZero(m, RowSum(Flip(t), 0));
    } else {
      SumSwap(n - 1, m, t);
      SumPlus(m, RowSum(Flip(t), n), RowSum(Flip(t), n - 1), Row(t, n - 1));
    }
  }

  lemma {:induction false} SumNonneg(n: nat, f: int -> real)
    requires forall k :: 0 <= k < n ==> f(k) >= 0.0
    ensures Sum(n, f) >= 0.0
  {
    if n > 0 {
      SumNonneg(n - 1, f);
    }
  }

  lemma {:induction false} SumNonnegZero(n: nat, f: int -> real, at: int)
    requires forall k :: 0 <= k < n ==> f(k) >= 0.0
    requires Sum(n, f) == 0.0 && 0 <= at < n
    ensures f(at) == 0.0
  {
    SumNonneg(n - 1, f);
    if at < n - 1 {
      SumNonnegZero(n - 1, f, at);
    }
  }

  // ---- sums of sequences ------------------------------------------------

  /** s[0] + ... + s[|s|-1]. */
  function Total(s: seq<real>): real {
    if s == [] then 0.0 else Total(s[..|s| - 1]) + s[|s| - 1]
  }

  lemma TotalAppend(s: seq<real>, x: real)
    ensures Total(s + [x]) == Total(s) + x
  {
    assert (s + [x])[..|s|] == s;
  }

  lemma {:induction false} TotalConcat(s: seq<real>, t: seq<real>)
    ensures Total(s + t) == Total(s) + Total(t)
  {
    if t == [] {
      assert s + t == s;
    } else {
      var n := |t| - 1;
      assert s + t == (s + t[..n]) + [t[n]];
      TotalAppend(s + t[..n], t[n]);
      TotalConcat(s, t[..n]);
    }
  }
}
