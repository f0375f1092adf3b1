/**
 * Three JavaScript functions for 1 + ... + n: a counting loop, Gauss's formula
 * and a recursion that stops only at 0. JavaScript numbers are modelled as
 * integers for the argument and as reals for a division's result.
 */
module Problem1 {
  import opened Gauss

  /** `sum_to_n_a`: adds 1, 2, ..., n in a loop; nothing for n < 1. */
  method SumToNA(n: int) returns (sum: int)
    ensures sum == SumTo(n)
  {
    sum := 0;
    var i := 1;
    while i <= n
      invariant 1 <= i && (i <= n + 1 || i == 1)
      invariant sum == SumTo(i - 1)
    {
      sum := sum + i;
      i := i + 1;
    }
  }

  /** `sum_to_n_b`: n(n + 1) / 2 with JavaScript's exact-quotient division. */
  function SumToNB(n: int): real
  {
    (n * (n + 1)) as real / 2.0
  }

  /**
   * `sum_to_n_c`: 0 at n = 0, otherwise n plus the sum below it. It reaches
   * its base case only from a natural number.
   */
  function SumToNC(n: int): int
    requires n >= 0
  {
    if n == 0 then 0 else n + SumToNC(n - 1)
  }

  /** The formula's quotient is a whole number, the sum for n >= 0. */
  lemma SumToNBIsSum(n: int)
    ensures n >= 0 ==> SumToNB(n) == SumTo(n) as real
    ensures n < 0 ==> SumToNB(n) == SumTo(-n - 1) as real
  {
    var m := if n >= 0 then n else -n - 1;
    assert n * (n + 1) == m * (m + 1);
    GaussFormula(m);
    assert (n * (n + 1)) as real == 2.0 * SumTo(m) as real;
  }

  /** The recursion computes the sum. */
  lemma {:induction false} SumToNCIsSum(n: int)
    requires n >= 0
    ensures SumToNC(n) == SumTo(n)
  {
    if n > 0 {
      SumToNCIsSum(n - 1);
    }
  }

  /** For every n >= 0 the loop's sum, the formula and the recursion agree. */
  lemma AgreeOnNaturals(n: int)
    requires n >= 0
    ensures SumToNB(n) == SumTo(n) as real && SumToNC(n) == SumTo(n)
  {
    SumToNBIsSum(n);
    SumToNCIsSum(n);
  }
}
