/**
 * Reference semantics of `BigInteger.modPow` restricted to non-negative operands
 * and a positive modulus.
 */
module Arith {

  /** `b` raised to `e`, with the convention `Pow(b, 0) == 1` (so `0^0 == 1`). */
  function Pow(b: nat, e: nat): (r: nat)
  {
    if e == 0 then 1 else b * Pow(b, e - 1)
  }

  /** `b^e mod m`; Java throws for a modulus that is not positive, hence `m > 0`. */
  function ModPow(b: nat, e: nat, m: nat): (r: nat)
    requires m > 0
    ensures r < m
  {
    Pow(b, e) % m
  }

  /** The exponent 0 gives `1 mod m`, even for base 0; a modulus of 1 always gives 0. */
  lemma ModPowEdges(b: nat, e: nat, m: nat)
    requires m > 0
    ensures ModPow(b, 0, m) == (if m == 1 then 0 else 1)
    ensures ModPow(b, e, 1) == 0
  {
  }
}
