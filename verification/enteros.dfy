/** The fixed-width unsigned integers of the source, where their range matters. */
module Enteros {
  /** Rust's `u8`: an arithmetic result outside this range panics. */
  newtype u8 = x: int | 0 <= x < 256

  /** Rust's `as u8` on an unsigned value: the low 8 bits. */
  function ComoU8(n: nat): (r: u8)
    ensures n < 256 ==> r as int == n
    ensures (r as int - n) % 256 == 0
  {
    (n % 256) as u8
  }

  /** Rust's `u16`. */
  newtype u16 = x: int | 0 <= x < 65536

  /** Rust's `as u16` on an unsigned value: the low 16 bits. */
  function ComoU16(n: nat): (r: u16)
    ensures n < 65536 ==> r as int == n
    ensures (r as int - n) % 65536 == 0
  {
    (n % 65536) as u16
  }

  /** Rust's `u32`. */
  newtype u32 = x: int | 0 <= x < 0x1_0000_0000

  /** Rust's `as u32` on an unsigned value: the low 32 bits. */
  function ComoU32(n: nat): (r: u32)
    ensures n < 0x1_0000_0000 ==> r as int == n
    ensures (r as int - n) % 0x1_0000_0000 == 0
  {
    (n % 0x1_0000_0000) as u32
  }

  /** Rust's `u64`. */
  newtype u64 = x: int | 0 <= x < 0x1_0000_0000_0000_0000

  /** Rust's `i32`. */
  newtype i32 = x: int | -0x8000_0000 <= x < 0x8000_0000

  /** Rust's `i64`. */
  newtype i64 = x: int | -0x8000_0000_0000_0000 <= x < 0x8000_0000_0000_0000
}
