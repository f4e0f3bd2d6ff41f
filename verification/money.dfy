/**
 * Rounding to cents: `parseFloat(x.toFixed(2))` over exact reals.
 * `toFixed` rounds the magnitude and keeps the sign, so a tie is rounded away from zero.
 */
module Money {

  /** Round half away from zero to two decimal places. */
  function Round2(x: real): (r: real)
    ensures r == Cents(x) as real / 100.0
    ensures -1.0 / 200.0 <= r - x <= 1.0 / 200.0
    ensures x >= 0.0 ==> r >= 0.0
    ensures x <= 0.0 ==> r <= 0.0
  {
    Cents(x) as real / 100.0
  }

  /** The whole number of cents nearest to x, a tie going away from zero. */
  function Cents(x: real): (n: int)
    ensures -1.0 / 2.0 <= n as real - x * 100.0 <= 1.0 / 2.0
    ensures x >= 0.0 ==> n >= 0
    ensures x <= 0.0 ==> n <= 0
  {
    if x >= 0.0 then HalfUpCents(x) else -HalfUpCents(-x)
  }

  /** The number of whole cents nearest to a non-negative real, a tie going up. */
  function HalfUpCents(x: real): (n: int)
    requires x >= 0.0
    ensures n >= 0
    ensures -1.0 / 2.0 < n as real - x * 100.0 <= 1.0 / 2.0
  {
    (x * 100.0 + 0.5).Floor
  }

  /** Round2 leaves a whole number of cents as it is. */
  lemma Round2OfCents(n: int)
    ensures Round2(n as real / 100.0) == n as real / 100.0
  {
    var x := n as real / 100.0;
    if n >= 0 {
      assert (x * 100.0 + 0.5).Floor == n;
    } else {
      assert (-x * 100.0 + 0.5).Floor == -n;
    }
  }

  /** Rounding twice is rounding once. */
  lemma Round2Idempotent(x: real)
    ensures Round2(Round2(x)) == Round2(x)
  {
    Round2OfCents(Cents(x));
  }

  /** Rounding is monotone: it never swaps the order of two amounts. */
  lemma Round2Monotone(x: real, y: real)
    requires x <= y
    ensures Round2(x) <= Round2(y)
  {
    if 0.0 <= x {
      FloorMonotone(x * 100.0 + 0.5, y * 100.0 + 0.5);
    } else if y < 0.0 {
      FloorMonotone(-y * 100.0 + 0.5, -x * 100.0 + 0.5);
    }
  }

  lemma FloorMonotone(a: real, b: real)
    requires a <= b
    ensures a.Floor <= b.Floor
  {
  }
}
