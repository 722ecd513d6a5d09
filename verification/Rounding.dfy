/** Python's `round` to an integer: the nearest integer, ties to even. */
module Rounding {

  /** n is the nearest integer to x, and the even one when x lies half way. */
  ghost predicate NearestEven(x: real, n: int) {
    && -0.5 <= n as real - x <= 0.5
    && (n as real - x == 0.5 || x - n as real == 0.5 ==> n % 2 == 0)
  }

  function RoundHalfEven(x: real): (r: int)
    ensures -0.5 <= r as real - x <= 0.5
    ensures r as real - x == 0.5 || x - r as real == 0.5 ==> r % 2 == 0
  {
    var f := x.Floor;
    var d := x - f as real;
    if d < 0.5 || (d == 0.5 && f % 2 == 0) then f else f + 1
  }

  /** Half-even rounding leaves no choice: two integers that qualify are the same. */
  lemma NearestEvenUnique(x: real, m: int, n: int)
    requires NearestEven(x, m) && NearestEven(x, n)
    ensures m == n
  {
    assert -1.0 <= (m - n) as real <= 1.0;
  }

  lemma RoundMonotone(x: real, y: real)
    requires x <= y
    ensures RoundHalfEven(x) <= RoundHalfEven(y)
  {
    assert RoundHalfEven(x) as real <= x + 0.5 <= y + 0.5 <= RoundHalfEven(y) as real + 1.0;
  }

  lemma RoundInteger(n: int)
    ensures RoundHalfEven(n as real) == n
  {}

  /** `round(x, 4)`. */
  function Round4(x: real): real {
    RoundHalfEven(x * 10000.0) as real / 10000.0
  }

  /** r is n ten-thousandths, and n is the nearest such number to x, even on ties. */
  ghost predicate InTenThousandths(x: real, r: real, n: int) {
    NearestEven(x * 10000.0, n) && r * 10000.0 == n as real
  }

  /** r is x to four decimals: a whole number of ten-thousandths, the nearest one, even on ties. */
  ghost predicate IsRounded4(x: real, r: real) {
    exists n: int :: InTenThousandths(x, r, n)
  }

  lemma Round4Is(x: real)
    ensures IsRounded4(x, Round4(x))
  {
    var n := RoundHalfEven(x * 10000.0);
    assert InTenThousandths(x, Round4(x), n);
  }

  /** Four-decimal rounding is determined, and moves a value by at most 1/20000. */
  lemma Rounded4Determined(x: real, r: real)
    requires IsRounded4(x, r)
    ensures r == Round4(x)
    ensures -0.00005 <= r - x <= 0.00005
  {
    var n: int :| InTenThousandths(x, r, n);
    NearestEvenUnique(x * 10000.0, n, RoundHalfEven(x * 10000.0));
  }

  lemma Round4Monotone(x: real, y: real)
    requires x <= y
    ensures Round4(x) <= Round4(y)
  {
    RoundMonotone(x * 10000.0, y * 10000.0);
  }
}
