/**
 * The bit operations the CPU applies to its (unbounded, non-negative) Python integers:
 * `x >> k` and `x >> k & 1`.
 */
module Bits {

  function Pow2(k: nat): (p: nat)
    ensures p >= 1
  {
    if k == 0 then 1 else 2 * Pow2(k - 1)
  }

  lemma {:induction false} MultiplyMonotone(d: nat, a: nat, b: nat)
    requires a <= b
    ensures d * a <= d * b
  {
    if a < b {
      MultiplyMonotone(d, a, b - 1);
    }
  }

  /** Euclidean division has exactly one quotient. */
  lemma DivisionUnique(x: nat, d: nat, q: nat, rest: nat)
    requires 0 < d && rest < d && x == d * q + rest
    ensures x / d == q
  {
    var q' := x / d;
    if q' < q {
      MultiplyMonotone(d, q' + 1, q);
    } else if q < q' {
      MultiplyMonotone(d, q + 1, q');
    }
  }

  lemma HalveThenDivide(x: nat, p: nat)
    requires 0 < p
    ensures x / 2 / p == x / (2 * p)
  {
    var q, r := x / 2 / p, x / 2 % p;
    assert x / 2 == p * q + r;
    assert x == (2 * p) * q + (2 * r + x % 2);
    DivisionUnique(x, 2 * p, q, 2 * r + x % 2);
  }

  /** `x >> k`: `k` halvings, each rounding down, which is division by 2^k. */
  function ShiftRight(x: nat, k: nat): (r: nat)
    ensures r == x / Pow2(k)
  {
    if k == 0 then x
    else
      HalveThenDivide(x, Pow2(k - 1));
      ShiftRight(x / 2, k - 1)
  }

  /** `x >> k & 1`: bit `k` of `x`. */
  function Bit(x: nat, k: nat): (b: nat)
    ensures b == x / Pow2(k) % 2
  {
    ShiftRight(x, k) % 2
  }
}
