/** Division by a positive number, in small steps for the solver. */
module Arith {

  lemma Division(x: int, d: int)
    requires d > 0
    ensures x / d * d <= x < x / d * d + d && x % d == x - x / d * d
  {
  }

  lemma Order(a: int, b: int, d: int)
    requires d > 0
    ensures a < b ==> a * d + d <= b * d
  {
    if a < b { NotNegative(b - a - 1, d); }
  }

  lemma NotNegative(a: nat, b: nat)
    ensures a * b >= 0
  {
  }

  lemma QuotientIs(x: int, d: int, q: int)
    requires d > 0 && q * d <= x < q * d + d
    ensures x / d == q && x % d == x - q * d
  {
    Division(x, d);
    Order(x / d, q, d);
    Order(q, x / d, d);
  }

  /** Remainders by a divisor of the modulus survive the modulus. */
  lemma NestedRemainder(x: int, m: int, d: int, k: int)
    requires d > 0 && k > 0 && m == k * d
    ensures x % m % d == x % d
  {
    Division(x, m);
    Division(x % m, d);
    var q := x / m * k + x % m / d;
    assert q * d == x / m * m + x % m / d * d by { Regroup(x / m, k, d, x % m / d); }
    QuotientIs(x, d, q);
  }

  /** Adding multiples of the divisor leaves the remainder. */
  lemma Wraps(x: int, d: int, k: int)
    requires d > 0
    ensures (x + k * d) % d == x % d && (x + k * d) / d == x / d + k
  {
    Division(x, d);
    assert (x / d + k) * d == x / d * d + k * d;
    QuotientIs(x + k * d, d, x / d + k);
  }

  lemma Regroup(a: int, k: int, d: int, b: int)
    ensures (a * k + b) * d == a * (k * d) + b * d
  {
  }
}
