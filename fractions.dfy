/**
 * Whole-HP fractions.  The game computes `Math.ceil(a / b)` and
 * `Math.floor(a / b)` on numbers; for a positive divisor these are the
 * integer ceiling and floor quotients defined here (Dafny's `/` on `int`
 * already rounds down when the divisor is positive).
 */
module HpFractions {

  /** The least integer at least `a / b`. */
  function CeilDiv(a: int, b: int): (r: int)
    requires b > 0
    ensures b * (r - 1) < a <= b * r
  {
    (a + b - 1) / b
  }

  /** The greatest integer at most `a / b`. */
  lemma FloorDivBounds(a: int, b: int)
    requires b > 0
    ensures b * (a / b) <= a < b * (a / b + 1)
  {
  }

  /** Rounding up and rounding down agree exactly on multiples of the divisor, and otherwise differ by one. */
  lemma CeilFloor(a: int, b: int)
    requires b > 0
    ensures CeilDiv(a, b) == a / b <==> a % b == 0
    ensures CeilDiv(a, b) != a / b ==> CeilDiv(a, b) == a / b + 1
  {
    var c, q := CeilDiv(a, b), a / b;
    assert b * q + a % b == a;
    // b * (c - 1) < a < b * (q + 1), so c - 1 < q + 1
    MulCancelLess(b, c - 1, q + 1);
    if a % b == 0 {
      // b * q == a <= b * c and b * (c - 1) < a == b * q
      MulCancelLessEq(b, q, c);
      MulCancelLess(b, c - 1, q);
    } else {
      // b * q < a <= b * c
      MulCancelLess(b, q, c);
    }
  }

  lemma MulCancelLess(b: int, x: int, y: int)
    requires b > 0 && b * x < b * y
    ensures x < y
  {
  }

  lemma MulCancelLessEq(b: int, x: int, y: int)
    requires b > 0 && b * x <= b * y
    ensures x <= y
  {
  }

  /**
   * How much HP a hit of `amount` takes off a combatant with `hp` left: the
   * whole amount, or what is left when it is smaller.
   */
  function DamageDealt(hp: int, amount: int): (r: int)
    ensures r <= amount && r <= hp
    ensures r == amount || r == hp
  {
    if amount < hp then amount else hp
  }
}
