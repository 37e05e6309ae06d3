/**
 * Amounts of money (dirhams) are exact rationals. A price shown or stored on a
 * line item is rounded to two decimal places, that is to a whole number of
 * fils (hundredths).
 */
module Money {

  /** `x` is a whole number of hundredths. */
  predicate IsCents(x: real) {
    (x * 100.0).Floor as real == x * 100.0
  }

  /** Number of hundredths in `x`, which must be a whole number of them. */
  function CentsOf(x: real): (n: int) {
    (x * 100.0).Floor
  }

  /**
   * `round(x, 2)`: the nearest whole number of hundredths; a value exactly
   * half-way between two of them goes to the even one.
   */
  function Round2(x: real): (r: real)
    ensures IsCents(r)
    ensures -0.005 <= r - x <= 0.005
    ensures (r - x == 0.005 || r - x == -0.005) ==> CentsOf(r) % 2 == 0
  {
    var c := x * 100.0;
    var n := c.Floor;
    var f := c - n as real;
    var m := if f < 0.5 then n
             else if f > 0.5 then n + 1
             else if n % 2 == 0 then n else n + 1;
    assert (m as real / 100.0) * 100.0 == m as real;
    m as real / 100.0
  }

  /** Rounding an amount that is already in whole hundredths leaves it alone. */
  lemma RoundKeepsCents(x: real)
    requires IsCents(x)
    ensures Round2(x) == x
  {
  }

  /** The sum of two amounts in whole hundredths is in whole hundredths. */
  lemma CentsAdd(a: real, b: real)
    requires IsCents(a) && IsCents(b)
    ensures IsCents(a + b)
  {
    var n := CentsOf(a) + CentsOf(b);
    assert (a + b) * 100.0 == a * 100.0 + b * 100.0;
    assert (a + b) * 100.0 == n as real;
    assert (n as real).Floor == n;
  }

  /** Rounding never reverses the order of two amounts. */
  lemma RoundMonotone(x: real, y: real)
    requires x <= y
    ensures Round2(x) <= Round2(y)
  {
    var cx, cy := x * 100.0, y * 100.0;
    assert cx <= cy;
    assert cx.Floor <= cy.Floor;
  }
}
