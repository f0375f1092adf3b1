/**
 * Three more JavaScript functions for 1 + ... + n: the arithmetic-series
 * formula guarded at n <= 0, a counting loop, and the first-plus-last formula
 * guarded at n < 0. They agree on every integer.
 */
module ThreeWays {
  import opened Gauss

  const FirstTerm: int := 1
  const Difference: int := 1

  /** `sum_to_n_a`: 0 for n <= 0, otherwise (n / 2)(2·first + (n - 1)·difference). */
  function SumToNA(n: int): real
  {
    if n <= 0 then 0.0
    else (n as real / 2.0) * ((2 * FirstTerm + (n - 1) * Difference) as real)
  }

  /** `sum_to_n_b`: adds 1, 2, ..., n in a loop; nothing for n < 1. */
  method SumToNB(n: int) returns (result: int)
    ensures result == SumTo(n)
  {
    result := 0;
    var i := 1;
    while i <= n
      invariant 1 <= i && (i <= n + 1 || i == 1)
      invariant result == SumTo(i - 1)
    {
      result := result + i;
      i := i + 1;
    }
  }

  /** `sum_to_n_c`: 0 for n < 0, otherwise n(first + last) / 2 with last = n. */
  function SumToNC(n: int): real
  {
    if n < 0 then 0.0 else (n * (FirstTerm + n)) as real / 2.0
  }

  /** The series formula is the sum, on every integer. */
  lemma SumToNAIsSum(n: int)
    ensures SumToNA(n) == SumTo(n) as real
  {
    if n > 0 {
      GaussFormula(n);
      assert (n as real / 2.0) * ((n + 1) as real) == (n * (n + 1)) as real / 2.0;
    }
  }

  /** The first-plus-last formula is the sum, on every integer; at 0 it is 0. */
  lemma SumToNCIsSum(n: int)
    ensures SumToNC(n) == SumTo(n) as real
  {
    if n >= 0 {
      GaussFormula(n);
    }
  }

  /** All three agree on every integer, negative ones included. */
  lemma AllAgree(n: int)
    ensures SumToNA(n) == SumToNC(n) == SumTo(n) as real
  {
    SumToNAIsSum(n);
    SumToNCIsSum(n);
  }
}
