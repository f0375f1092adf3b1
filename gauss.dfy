/**
 * The sum 1 + 2 + ... + n that the sum-to-n exercises compute three ways each,
 * and Gauss's closed form for it.
 */
module Gauss {
  /** 1 + 2 + ... + n; the empty sum 0 when n < 1. */
  function SumTo(n: int): int
    decreases if n < 1 then 0 else n
  {
    if n < 1 then 0 else SumTo(n - 1) + n
  }

  /** Twice the sum up to n is n(n + 1). */
  lemma {:induction false} GaussFormula(n: int)
    requires n >= 0
    ensures 2 * SumTo(n) == n * (n + 1)
    decreases n
  {
    if n > 0 {
      GaussFormula(n - 1);
    }
  }

  /** The product of two consecutive integers is never negative and always even. */
  lemma ConsecutiveProductEven(n: int)
    ensures n * (n + 1) >= 0 && (n * (n + 1)) % 2 == 0
  {
    var m := if n >= 0 then n else -n - 1;
    assert n * (n + 1) == m * (m + 1);
    GaussFormula(m);
  }

  /** So halving n(n + 1) is exact, and gives the sum for n >= 0. */
  lemma HalfProduct(n: int)
    ensures (n * (n + 1)) / 2 * 2 == n * (n + 1)
    ensures n >= 0 ==> (n * (n + 1)) / 2 == SumTo(n)
  {
    ConsecutiveProductEven(n);
    if n >= 0 {
      GaussFormula(n);
    }
  }
}
