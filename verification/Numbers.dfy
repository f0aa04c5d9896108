/** Machine integer ranges, powers of two and bit lengths. */
module Numbers {
  type u8 = x: int | 0 <= x < 0x100
  type u16 = x: int | 0 <= x < 0x1_0000
  type u32 = x: int | 0 <= x < 0x1_0000_0000
  type u64 = x: int | 0 <= x < 0x1_0000_0000_0000_0000
  type i32 = x: int | -0x8000_0000 <= x < 0x8000_0000
  type i64 = x: int | -0x8000_0000_0000_0000 <= x < 0x8000_0000_0000_0000

  const U64_MAX := 0xFFFF_FFFF_FFFF_FFFF
  const U128_MAX := 0xFFFF_FFFF_FFFF_FFFF_FFFF_FFFF_FFFF_FFFF
  const I64_MAX := 0x7FFF_FFFF_FFFF_FFFF
  const I64_MIN := -0x8000_0000_0000_0000

  function Pow2(n: nat): (r: nat)
    ensures r > 0
  {
    if n == 0 then 1 else 2 * Pow2(n - 1)
  }

  /** Number of binary digits of `n`; zero has none. */
  function BitLength(n: nat): nat {
    if n == 0 then 0 else 1 + BitLength(n / 2)
  }

  lemma BitLengthZero(n: nat)
    ensures BitLength(n) == 0 <==> n == 0
  {
  }

  /** `BitLength(n)` is the least `k` with `n < 2^k`. */
  lemma {:induction false} BitLengthIsLeast(n: nat, k: nat)
    ensures n < Pow2(k) <==> BitLength(n) <= k
  {
    if n != 0 && k != 0 {
      BitLengthIsLeast(n / 2, k - 1);
    }
  }
}
