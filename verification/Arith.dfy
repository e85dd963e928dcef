/** Powers of two and 64-bit saturating arithmetic. */
module Arith {

  const U64_MODULUS: nat := 0x1_0000_0000_0000_0000
  const U64_MAX: nat := U64_MODULUS - 1

  function Min(a: nat, b: nat): nat { if a <= b then a else b }

  function Max(a: nat, b: nat): nat { if a <= b then b else a }

  function Pow2(n: nat): (p: nat)
    ensures p > 0
  {
    if n == 0 then 1 else 2 * Pow2(n - 1)
  }

  lemma {:induction false} Pow2Monotone(m: nat, n: nat)
    requires m <= n
    ensures Pow2(m) <= Pow2(n)
  {
    if m < n { Pow2Monotone(m, n - 1); }
  }

  lemma {:induction false} Pow2Add(m: nat, n: nat)
    ensures Pow2(m + n) == Pow2(m) * Pow2(n)
  {
    if m > 0 {
      Pow2Add(m - 1, n);
      assert Pow2(m + n) == 2 * Pow2(m - 1 + n);
    }
  }

  /** `u64::saturating_mul`. */
  function SaturatingMul(a: nat, b: nat): nat { Min(a * b, U64_MAX) }

  /** `2u64.saturating_pow(n)`, by repeated saturating doubling. */
  function SaturatingPow2(n: nat): nat {
    if n == 0 then 1 else SaturatingMul(2, SaturatingPow2(n - 1))
  }

  lemma {:induction false} SaturatingPow2Exact(n: nat)
    ensures SaturatingPow2(n) == Min(Pow2(n), U64_MAX)
  {
    if n > 0 { SaturatingPow2Exact(n - 1); }
  }
}
