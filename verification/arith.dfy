/** Small arithmetic facts shared by the calibration and percentage maps. */
module Arith {

  function Min(a: int, b: int): int {
    if a <= b then a else b
  }

  /** Multiplying both sides of `a <= b` by a non-negative factor keeps the order. */
  lemma {:induction false} MulMonotone(a: int, b: int, c: nat)
    requires a <= b
    ensures a * c <= b * c
    decreases c
  {
    if c > 0 {
      MulMonotone(a, b, c - 1);
      assert a * c == a * (c - 1) + a;
      assert b * c == b * (c - 1) + b;
    }
  }

  /** Floor division by a positive divisor: the quotient times the divisor brackets the dividend. */
  lemma FloorDiv(x: nat, d: nat)
    requires d > 0
    ensures x / d >= 0
    ensures (x / d) * d <= x < (x / d + 1) * d
  {
    var q, r := x / d, x % d;
    assert x == q * d + r && 0 <= r < d;
    assert (q + 1) * d == q * d + d;
  }

  /** The floor characterisation pins the quotient down: `q` with `q*d <= k*d < (q+1)*d` is `k`. */
  lemma FloorUnique(q: int, k: int, d: nat)
    requires d > 0 && q * d <= k * d < (q + 1) * d
    ensures q == k
  {
    if q < k {
      MulMonotone(q + 1, k, d);
    } else if q > k {
      MulMonotone(k + 1, q, d);
    }
  }

}
