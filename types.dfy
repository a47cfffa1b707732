/**
 * Machine integers of the kernel target, with their wrap-around written out.
 * `unsigned long long` is 64 bits wide and `unsigned int` 32 bits wide.
 */
module Types {

  const U64_MODULUS: nat := 0x1_0000_0000_0000_0000
  const U32_MODULUS: nat := 0x1_0000_0000

  /** `unsigned long long` (and `sector_t`, `size_t` on a 64-bit kernel) */
  type u64 = x: nat | x < U64_MODULUS

  /** `unsigned int` */
  type u32 = x: nat | x < U32_MODULUS

  /** An 8-bit field, such as the operation code `bio_op` extracts */
  type u8 = x: nat | x < 256

  /** The low 64 bits of `x`: what a conversion to `unsigned long long` keeps. */
  function Wrap64(x: nat): (r: u64)
    ensures x < U64_MODULUS ==> r == x
  {
    x % U64_MODULUS
  }

  /** `a + b` in `unsigned long long` arithmetic: exact unless it passes 2^64, then wrapped once. */
  function Add64(a: u64, b: u64): (r: u64)
    ensures a + b < U64_MODULUS ==> r == a + b
    ensures a + b >= U64_MODULUS ==> r == a + b - U64_MODULUS
  {
    Wrap64(a + b)
  }

  /** `a * b` in `unsigned long long` arithmetic: the low 64 bits of the product. */
  function Mul64(a: u64, b: u64): (r: u64)
    ensures a * b < U64_MODULUS ==> r == a * b
  {
    Wrap64(a * b)
  }

  datatype Option<T> = None | Some(value: T)
}
