/** Fixed-width machine words of the driver, as ranges of integers with explicit wrap-around. */
module Words {

  const U32_RANGE := 0x1_0000_0000
  const U64_RANGE := 0x1_0000_0000_0000_0000

  type u32 = x: int | 0 <= x < 0x1_0000_0000
  type u64 = x: int | 0 <= x < 0x1_0000_0000_0000_0000
  type byte = x: int | 0 <= x < 0x100

  /** Truncation to 32 bits, as every store to a `u32` does. */
  function Wrap32(x: int): u32 {
    x % 0x1_0000_0000
  }

  /** Truncation to 64 bits, as every store to a `u64` or a 64-bit `size_t` does. */
  function Wrap64(x: int): u64 {
    x % 0x1_0000_0000_0000_0000
  }

  function Low32(x: u64): u32 {
    x % 0x1_0000_0000
  }

  function High32(x: u64): u32 {
    x / 0x1_0000_0000
  }

  function Join64(lo: u32, hi: u32): u64 {
    lo + hi * 0x1_0000_0000
  }

  function Min(a: int, b: int): int {
    if a <= b then a else b
  }

  function Max(a: int, b: int): int {
    if a <= b then b else a
  }

  /** `a += b` on 32-bit words. */
  function Add32(a: u32, b: u32): u32 {
    if a + b < 0x1_0000_0000 then a + b else a + b - 0x1_0000_0000
  }

  /** `a += b` on 64-bit words. */
  function Add64(a: u64, b: u64): u64 {
    if a + b < 0x1_0000_0000_0000_0000 then a + b else a + b - 0x1_0000_0000_0000_0000
  }

  /** `a - b` on 32-bit words. */
  function Sub32(a: u32, b: u32): u32 {
    if b <= a then a - b else a - b + 0x1_0000_0000
  }

  lemma WrapsItself(x: u32)
    ensures Wrap32(x) == x
  {
  }

  /** Wrapping at every step is the same as wrapping once. */
  lemma Add32Wraps(x: int, y: int)
    ensures Add32(Wrap32(x), Wrap32(y)) == Wrap32(x + y)
  {
  }

  lemma Add64Wraps(x: int, y: u64)
    ensures Add64(Wrap64(x), y) == Wrap64(x + y)
  {
  }

  lemma Sub32Wraps(x: int, y: int)
    ensures Sub32(Wrap32(x), Wrap32(y)) == Wrap32(x - y)
  {
  }
}
