/**
 * Three Go functions for 1 + ... + n: a counting loop, a recursion and
 * Gauss's formula. Inputs are meant to be positive; for negative n the
 * recursion differs from the other two. Go's `int` is modelled unbounded.
 */
module Problem4 {
  import opened FixedPoint
  import opened Gauss

  /** `sum_to_n_a`: adds 1, 2, ..., n in a loop; nothing for n < 1. */
  method SumToNA(n: int) returns (out: int)
    ensures out == SumTo(n)
  {
    out := 0;
    var i := 1;
    while i <= n
      invariant 1 <= i && (i <= n + 1 || i == 1)
      invariant out == SumTo(i - 1)
    {
      out := out + i;
      i := i + 1;
    }
  }

  /** `sum_to_n_b`: n itself once n <= 1, otherwise n plus the sum below it. */
  function SumToNB(n: int): int
    decreases if n <= 1 then 0 else n
  {
    if n <= 1 then n else n + SumToNB(n - 1)
  }

  /** `sum_to_n_c`: n(n + 1) halved with Go's truncating division. */
  function SumToNC(n: int): int
  {
    TruncQuo(n * (n + 1), 2)
  }

  /** The recursion computes the sum for every n >= 0, and returns n itself below 0. */
  lemma {:induction false} SumToNBIsSum(n: int)
    ensures n >= 0 ==> SumToNB(n) == SumTo(n)
    ensures n < 0 ==> SumToNB(n) == n
    decreases if n <= 1 then 0 else n
  {
    if n > 1 {
      SumToNBIsSum(n - 1);
    }
  }

  /** The formula is exact: it is the sum for n >= 0, and for n < 0 the sum up to -n - 1. */
  lemma SumToNCIsSum(n: int)
    ensures n >= 0 ==> SumToNC(n) == SumTo(n)
    ensures n < 0 ==> SumToNC(n) == SumTo(-n - 1)
  {
    ConsecutiveProductEven(n);
    var h := n * (n + 1) / 2;
    TruncQuoExact(h, 2);
    assert h * 2 == n * (n + 1);
    HalfProduct(n);
    if n < 0 {
      assert n * (n + 1) == (-n - 1) * (-n);
      HalfProduct(-n - 1);
    }
  }

  /**
   * For n >= 0 the loop's sum, the recursion and the formula agree; at 0 all
   * give 0.
   */
  lemma AgreeOnNaturals(n: int)
    requires n >= 0
    ensures SumTo(n) == SumToNB(n) == SumToNC(n)
    ensures n == 0 ==> SumToNB(n) == SumToNC(n) == 0
  {
    SumToNBIsSum(n);
    SumToNCIsSum(n);
  }

  /** Below 0 the versions part: at -1 the loop and the formula give 0, the recursion -1. */
  lemma DisagreeBelowZero()
    ensures SumTo(-1) == 0 && SumToNC(-1) == 0 && SumToNB(-1) == -1
  {
    SumToNCIsSum(-1);
  }
}
