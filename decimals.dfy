/** Fixed-point money and `Decimal.quantize` under Python's default decimal
    context, whose rounding mode is ROUND_HALF_EVEN. */
module Decimals {

  /** An amount in thousandths of a pound (£/MWh with three decimal places). */
  type Milli = int

  function Abs(x: int): int {
    if x < 0 then -x else x
  }

  /** `q` is `num / den` rounded to an integer, ties to the even neighbour:
      q is within half a unit of the exact quotient, and even on a tie. */
  predicate IsHalfEven(num: int, den: int, q: int)
    requires den > 0
  {
    Abs(2 * num - 2 * den * q) <= den
    && (Abs(2 * num - 2 * den * q) == den ==> q % 2 == 0)
  }

  /** The exact quotient `num / den` rounded half-to-even. */
  function RoundHalfEven(num: int, den: int): (q: int)
    requires den > 0
    ensures IsHalfEven(num, den, q)
  {
    var fl := num / den;
    var twice := 2 * (num % den);
    if twice < den then fl
    else if twice > den then fl + 1
    else if fl % 2 == 0 then fl
    else fl + 1
  }

  /** Half-even rounding is unique: any integer meeting `IsHalfEven` is the
      one `RoundHalfEven` computes. */
  lemma HalfEvenUnique(num: int, den: int, q: int)
    requires den > 0 && IsHalfEven(num, den, q)
    ensures q == RoundHalfEven(num, den)
  {
    var fl := num / den;
    var r := num % den;
    assert num == den * fl + r;
    assert 2 * num - 2 * den * q == 2 * den * (fl - q) + 2 * r;
    ScaledWithinOne(den, fl - q, 2 * r);
    if q == fl + 1 {
      assert 2 * num - 2 * den * q == 2 * r - 2 * den;
    }
  }

  /** A multiple `2 * den * x` of `den` within `den` of `[0, 2 * den)` has
      `x` in {-1, 0}. */
  lemma ScaledWithinOne(den: int, x: int, t: int)
    requires den > 0 && 0 <= t < 2 * den && Abs(2 * den * x + t) <= den
    ensures -1 <= x <= 0
  {
    if x >= 1 {
      MulLeftMono(2 * den, 1, x);
    } else if x <= -2 {
      MulLeftMono(2 * den, x, -2);
    }
  }

  lemma MulLeftMono(k: int, a: int, b: int)
    requires k > 0 && a <= b
    ensures k * a <= k * b
  {
    assert k * b == k * a + k * (b - a);
  }

  /** A quotient known to lie between two whole numbers rounds into them. */
  lemma RoundHalfEvenBetween(num: int, den: int, lo: int, hi: int)
    requires den > 0 && lo * den <= num <= hi * den
    ensures lo <= RoundHalfEven(num, den) <= hi
  {
    var q := RoundHalfEven(num, den);
    assert 2 * den * (lo - q) <= den by {
      assert 2 * den * (lo - q) == 2 * (lo * den) - 2 * den * q;
    }
    assert 2 * den * (q - hi) <= den by {
      assert 2 * den * (q - hi) == 2 * den * q - 2 * (hi * den);
    }
    AtMostHalf(den, lo - q);
    AtMostHalf(den, q - hi);
  }

  /** `2 * den * x <= den` leaves `x` non-positive. */
  lemma AtMostHalf(den: int, x: int)
    requires den > 0 && 2 * den * x <= den
    ensures x <= 0
  {
    if x > 0 {
      MulLeftMono(2 * den, 1, x);
    }
  }

  /** An exact quotient is returned unchanged. */
  lemma RoundHalfEvenExact(k: int, den: int)
    requires den > 0
    ensures RoundHalfEven(k * den, den) == k
  {
    assert IsHalfEven(k * den, den, k);
    HalfEvenUnique(k * den, den, k);
  }

  /** `x.quantize(Decimal("0.01"))` for `x = num / den` thousandths: the
      amount in thousandths, rounded half-to-even to whole hundredths. */
  function QuantizeCents(num: int, den: int): (r: Milli)
    requires den > 0
    ensures r % 10 == 0
    ensures IsHalfEven(num, 10 * den, r / 10)
  {
    10 * RoundHalfEven(num, 10 * den)
  }

  /** `x.quantize(Decimal("0.1"))` in the same style, for the carbon summary
      whose values are whole grams: the result is in tenths. */
  function QuantizeTenths(num: int, den: int): (r: int)
    requires den > 0
    ensures IsHalfEven(10 * num, den, r)
  {
    RoundHalfEven(10 * num, den)
  }

  /** A mean known to lie between two whole numbers keeps its tenths between
      them. */
  lemma QuantizeTenthsBetween(num: int, den: int, lo: int, hi: int)
    requires den > 0 && lo * den <= num <= hi * den
    ensures 10 * lo <= QuantizeTenths(num, den) <= 10 * hi
  {
    assert (10 * lo) * den == 10 * (lo * den);
    assert (10 * hi) * den == 10 * (hi * den);
    RoundHalfEvenBetween(10 * num, den, 10 * lo, 10 * hi);
  }
}
