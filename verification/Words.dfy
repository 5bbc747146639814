/** Fixed-width unsigned words, and the wrapping operations the stack applies to them. */
module Words {
  const M32 := 0x1_0000_0000

  type u8 = x: int | 0 <= x < 0x100
  type u16 = x: int | 0 <= x < 0x1_0000
  type u32 = x: int | 0 <= x < M32

  /** `u32::wrapping_add` */
  function Add32(a: u32, b: u32): u32 {
    if a + b < M32 then a + b else a + b - M32
  }

  /** `u32::wrapping_sub` */
  function Sub32(a: u32, b: u32): u32 {
    if b <= a then a - b else a - b + M32
  }

  /** The word that an unbounded count is stored as. */
  function Wrap(n: nat): u32 {
    if n < M32 then n else Wrap(n - M32)
  }

  lemma {:induction false} WrapIsMod(n: nat)
    ensures Wrap(n) == n % M32
  {
    if n >= M32 {
      WrapIsMod(n - M32);
    }
  }

  lemma {:induction false} WrapAtMost(n: nat)
    ensures Wrap(n) <= n
  {
    if n >= M32 {
      WrapAtMost(n - M32);
    }
  }

  function Min(a: nat, b: nat): nat {
    if a <= b then a else b
  }

  /** Advancing a wrapped count is wrapping the advanced count. */
  lemma {:induction false} WrapStep(n: nat, k: u32)
    ensures Add32(Wrap(n), k) == Wrap(n + k)
  {
    if n >= M32 {
      WrapStep(n - M32, k);
    }
  }
}
