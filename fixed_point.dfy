/**
 * The numeric types of the Cosmos SDK used by the market engine, as unbounded integers.
 *
 * `sdk.Dec` is a decimal with 18 fractional digits; a `Dec` here is that decimal
 * multiplied by 10^18, so 0.2 is 200_000_000_000_000_000. `sdkmath.Int` is `int`.
 * Go's fixed-width integers are subset types, so every value stored in one is in range.
 */
module FixedPoint {

  /** 10^18: the scale of `sdk.Dec`. */
  const Precision: int := 1_000_000_000_000_000_000

  /** A decimal with 18 fractional digits, stored as value * 10^18. */
  type Dec = int

  /** The decimal 1. */
  const OneDec: Dec := Precision

  type Uint32 = x: int | 0 <= x < 0x1_0000_0000
  type Uint64 = x: int | 0 <= x < 0x1_0000_0000_0000_0000
  type Int64 = x: int | -0x8000_0000_0000_0000 <= x < 0x8000_0000_0000_0000

  function Abs(x: int): (r: nat)
    ensures r == x || r == -x
  {
    if x < 0 then -x else x
  }

  /** `sdk.NewDecFromInt`: the integer i as a decimal. */
  function DecFromInt(i: int): (d: Dec)
    ensures d / Precision == i && d % Precision == 0
  {
    i * Precision
  }

  /** `Dec.IsInteger`: no fractional digits. */
  predicate IsInteger(d: Dec)
  {
    d % Precision == 0
  }

  /** `sdk.MaxDec`. */
  function MaxDec(a: Dec, b: Dec): (r: Dec)
    ensures r >= a && r >= b && (r == a || r == b)
  {
    if a < b then b else a
  }

  /**
   * True when the exact product of two decimals has at most 18 fractional digits,
   * so that `Dec.Mul` needs no rounding.
   */
  predicate MulFits(a: Dec, b: Dec)
  {
    (a * b) % Precision == 0
  }

  /**
   * `chopPrecisionAndRound`: x / 10^18 rounded to the nearest integer, halves to the
   * even neighbour, applied to the magnitude so that the sign is kept.
   */
  function ChopRound(x: int): (r: int)
    ensures 2 * Abs(r * Precision - x) <= Precision
    ensures x % Precision == 0 ==> r * Precision == x
    ensures 2 * Abs(r * Precision - x) == Precision ==> r % 2 == 0
  {
    if x < 0 then
      var n: int := ChopRoundNat(-x);
      assert x % Precision == 0 ==> (-x) % Precision == 0 by {
        if x % Precision == 0 {
          var q := x / Precision;
          assert -x == (-q) * Precision;
          ModUnique(-x, Precision, -q, 0);
        }
      }
      -n
    else ChopRoundNat(x)
  }

  function ChopRoundNat(x: nat): (r: nat)
    ensures 2 * Abs(r * Precision - x) <= Precision
    ensures x % Precision == 0 ==> r * Precision == x
    ensures 2 * Abs(r * Precision - x) == Precision ==> r % 2 == 0
  {
    var q, rem := x / Precision, x % Precision;
    assert x == q * Precision + rem;
    if 2 * rem < Precision then q
    else if 2 * rem > Precision then q + 1
    else if q % 2 == 0 then q
    else q + 1
  }

  /**
   * `Dec.Mul`: the exact product rounded to 18 fractional digits, halves to even;
   * exact when the product fits.
   */
  function Mul(a: Dec, b: Dec): (r: Dec)
    ensures 2 * Abs(r * Precision - a * b) <= Precision
    ensures MulFits(a, b) ==> r * Precision == a * b
  {
    ChopRound(a * b)
  }

  /**
   * `Dec.Ceil` followed by `TruncateInt`: the smallest integer not below d.
   */
  function CeilInt(d: Dec): (r: int)
    ensures r * Precision >= d
    ensures (r - 1) * Precision < d
  {
    if d % Precision == 0 then d / Precision else d / Precision + 1
  }

  /** Multiplying by an integer as a decimal never rounds. */
  lemma MulIntExact(i: int, d: Dec)
    ensures Mul(DecFromInt(i), d) == i * d
  {
    var x := i * d;
    assert DecFromInt(i) * d == x * Precision;
    ModUnique(x * Precision, Precision, x, 0);
    MulCancel(Mul(DecFromInt(i), d), x, Precision);
  }

  /** The ceiling bounds of `CeilInt`, scaled once more. */
  lemma CeilIntScaled(d: Dec)
    ensures CeilInt(d) * Precision * Precision >= d * Precision
    ensures (CeilInt(d) - 1) * Precision * Precision < d * Precision
  {
    var r := CeilInt(d);
    MulLe(d, r * Precision, Precision);
    MulStrict(d - (r - 1) * Precision, Precision);
    assert (d - (r - 1) * Precision) * Precision == d * Precision - (r - 1) * Precision * Precision;
  }

  /**
   * `big.Int.Quo` as used by `sdkmath.Int.Quo`: division truncated toward zero,
   * unlike Dafny's Euclidean `/`.
   */
  function TruncQuo(a: int, b: int): (r: int)
    requires b != 0
    ensures Abs(r) * Abs(b) <= Abs(a) < (Abs(r) + 1) * Abs(b)
    ensures (a >= 0) == (b > 0) ==> r >= 0
    ensures (a >= 0) != (b > 0) ==> r <= 0
  {
    var q := Abs(a) / Abs(b);
    DivisionBounds(Abs(a), Abs(b));
    var r := if (a >= 0) == (b > 0) then q else -q;
    assert Abs(r) == q;
    r
  }


  /**
   * `Dec.Quo`: the dividend scaled twice, divided with truncation toward zero,
   * then rounded to 18 decimals. Dividing by zero panics.
   */
  function Quo(a: Dec, b: Dec): Dec
    requires b != 0
  {
    ChopRound(TruncQuo(a * Precision * Precision, b))
  }

  /** Truncated division of an exact multiple gives the multiplier back. */
  lemma TruncQuoExact(q: int, b: int)
    requires b > 0
    ensures TruncQuo(q * b, b) == q
  {
    var r := TruncQuo(q * b, b);
    assert Abs(q * b) == Abs(q) * b;
    if Abs(r) < Abs(q) {
      MulMonotone(Abs(r) + 1, Abs(q), b, b);
    } else if Abs(r) > Abs(q) {
      MulMonotone(Abs(q) + 1, Abs(r), b, b);
    }
    if q < 0 {
      MulLe(q, -1, b);
    }
  }

  /** Go's int64 subtraction and addition wrap modulo 2^64. */
  function WrapInt64(x: int): (r: Int64)
    ensures (r - x) % 0x1_0000_0000_0000_0000 == 0
    ensures -0x8000_0000_0000_0000 <= x < 0x8000_0000_0000_0000 ==> r == x
  {
    var y := x % 0x1_0000_0000_0000_0000;
    if y >= 0x8000_0000_0000_0000 then y - 0x1_0000_0000_0000_0000 else y
  }

  /** Euclidean division by a positive divisor rounds down, for negative dividends too. */
  lemma DivisionBounds(x: int, y: int)
    requires y > 0
    ensures (x / y) * y <= x < (x / y + 1) * y
  {
    assert x == (x / y) * y + x % y;
  }

  /** Adding a multiple of n does not change the remainder modulo n. */
  lemma ModShift(x: int, k: int, n: int)
    requires n > 0
    ensures (x + k * n) % n == x % n
  {
    var q := x / n;
    assert x == q * n + x % n;
    assert x + k * n == (q + k) * n + x % n;
    ModUnique(x + k * n, n, q + k, x % n);
  }

  /** A quotient-remainder decomposition with the remainder in [0, n) is the Euclidean one. */
  lemma ModUnique(a: int, n: int, q: int, r: int)
    requires n > 0 && 0 <= r < n && a == q * n + r
    ensures a / n == q && a % n == r
  {
    var q', r' := a / n, a % n;
    assert a == q' * n + r';
    assert (q' - q) * n == r - r';
    if q' > q {
      MulAtLeast(q' - q, n);
    } else if q' < q {
      MulAtLeast(q - q', n);
    }
  }

  lemma MulAtLeast(x: int, n: int)
    requires x >= 1 && n > 0
    ensures x * n >= n
  {
    var y := x - 1;
    assert x * n == y * n + n;
  }

  lemma MulMonotone(a: int, b: int, x: int, y: int)
    requires 0 <= a <= b && 0 <= x <= y
    ensures a * x <= b * y
  {
    assert a * x <= b * x;
    assert b * x <= b * y;
  }

  lemma MulCancel(a: int, b: int, n: int)
    requires n > 0 && a * n == b * n
    ensures a == b
  {
    assert (a - b) * n == 0;
    if a != b {
      MulStrict(Abs(a - b), n);
    }
  }

  /** Multiplying by a non-negative factor keeps an inequality, whatever the signs. */
  lemma MulLe(a: int, b: int, n: int)
    requires a <= b && n >= 0
    ensures a * n <= b * n
  {
    assert b * n - a * n == (b - a) * n;
    MulMonotone(0, b - a, n, n);
  }

  lemma MulStrict(x: int, n: int)
    requires x > 0 && n > 0
    ensures x * n > 0
  {
  }
}
