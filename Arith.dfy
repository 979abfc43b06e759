/** Facts about multiplication that the solver does not find on its own. */
module Arith {
  /** Multiplying by a natural number keeps the order. */
  lemma MulLe(a: nat, b: nat, n: nat)
    requires a <= b
    ensures a * n <= b * n
  {
    assert b * n == a * n + (b - a) * n;
  }

  /** One more row of `k`: `(n + 1) * k == n * k + k`. */
  lemma MulSucc(n: nat, k: nat)
    ensures (n + 1) * k == n * k + k
  {
  }
}
