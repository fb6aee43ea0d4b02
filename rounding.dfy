/** Python's round() on exact real values: round(x) gives the nearest integer
    with ties going to the even neighbour, and round(x, d) does the same at the
    d-th decimal place. Binary floating point is not modelled: every quantity
    here is an exact real. */
module Rounding {

  /** round(x): the integer nearest to x, ties to even. */
  function RoundHalfEven(x: real): (n: int)
    ensures x - 0.5 <= n as real <= x + 0.5
    ensures (n as real - x == 0.5 || x - n as real == 0.5) ==> n % 2 == 0
  {
    var f := x.Floor;
    var frac := x - f as real;
    if frac < 0.5 then f
    else if frac > 0.5 then f + 1
    else if f % 2 == 0 then f else f + 1
  }

  /** The two properties in RoundHalfEven's contract pin its result down. */
  lemma RoundHalfEvenUnique(x: real, m: int)
    requires x - 0.5 <= m as real <= x + 0.5
    requires (m as real - x == 0.5 || x - m as real == 0.5) ==> m % 2 == 0
    ensures m == RoundHalfEven(x)
  {
    var n := RoundHalfEven(x);
    if m != n {
      assert false;
    }
  }

  /** Rounding an integer-valued real gives that integer back. */
  lemma RoundHalfEvenOfInt(k: int)
    ensures RoundHalfEven(k as real) == k
  {
    RoundHalfEvenUnique(k as real, k);
  }

  /** round(x, 4): x rounded half-even to four decimal places; the result is
      within half a ten-thousandth of x and is a whole number of ten-thousandths. */
  function Round4(x: real): (r: real)
    ensures -0.00005 <= r - x <= 0.00005
    ensures r * 10000.0 == (r * 10000.0).Floor as real
  {
    var n := RoundHalfEven(x * 10000.0);
    ScaleBack(n, 10000.0);
    n as real / 10000.0
  }

  /** round(x, 2): x rounded half-even to two decimal places; the result is
      within half a hundredth of x and is a whole number of hundredths. */
  function Round2(x: real): (r: real)
    ensures -0.005 <= r - x <= 0.005
    ensures r * 100.0 == (r * 100.0).Floor as real
  {
    var n := RoundHalfEven(x * 100.0);
    ScaleBack(n, 100.0);
    n as real / 100.0
  }

  /** Dividing an integer by a positive scale and multiplying back gives it again. */
  lemma ScaleBack(n: int, scale: real)
    requires scale > 0.0
    ensures (n as real / scale) * scale == n as real
  {
  }

  /** A value that is already a whole number of ten-thousandths is left unchanged by round(x, 4). */
  lemma Round4Exact(x: real, k: int)
    requires x * 10000.0 == k as real
    ensures Round4(x) == x
  {
    RoundHalfEvenOfInt(k);
  }

  /** round(x, 4) is idempotent. */
  lemma Round4Idempotent(x: real)
    ensures Round4(Round4(x)) == Round4(x)
  {
    Round4Exact(Round4(x), RoundHalfEven(x * 10000.0));
  }

  /** round() never reverses the order of its arguments. */
  lemma RoundHalfEvenMonotone(x: real, y: real)
    requires x <= y
    ensures RoundHalfEven(x) <= RoundHalfEven(y)
  {
    var n, m := RoundHalfEven(x), RoundHalfEven(y);
    if n > m {
      assert false;
    }
  }

  /** round(x, 4) never reverses the order of its arguments. */
  lemma Round4Monotone(x: real, y: real)
    requires x <= y
    ensures Round4(x) <= Round4(y)
  {
    RoundHalfEvenMonotone(x * 10000.0, y * 10000.0);
  }
}
