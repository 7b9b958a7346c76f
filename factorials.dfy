/** The mathematical factorial that every variant of `MpInt::factorial` computes,
    and the arithmetic facts its multiply-and-decrement loop relies on. */
module Factorials {

  function Fact(n: nat): nat
  {
    if n == 0 then 1 else n * Fact(n - 1)
  }

  /** `result := result * n; n := n - 1` keeps `result * Fact(n)` fixed. */
  lemma StepKeepsProduct(r: nat, n: nat, total: nat)
    requires n >= 1
    requires r * Fact(n) == total
    ensures (r * n) * Fact(n - 1) == total
  {
  }
}
