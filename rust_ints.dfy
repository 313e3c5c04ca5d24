/**
 * Rust's fixed-width integer types as subset types of `int`, and the two
 * `as` casts the lenient decoder relies on. A Rust `as` cast between integer
 * types keeps the low bits of the two's-complement representation and reads
 * them in the target type: it never saturates and never fails.
 */
module RustInts {

  const TWO_32: int := 0x1_0000_0000
  const TWO_64: int := 0x1_0000_0000_0000_0000

  const I32_MIN: int := -0x8000_0000
  const I32_MAX: int := 0x7fff_ffff
  const I64_MIN: int := -0x8000_0000_0000_0000
  const I64_MAX: int := 0x7fff_ffff_ffff_ffff

  type Int8 = x: int | -0x80 <= x < 0x80
  type Int16 = x: int | -0x8000 <= x < 0x8000
  type Int32 = x: int | I32_MIN <= x <= I32_MAX
  type Int64 = x: int | I64_MIN <= x <= I64_MAX
  type UInt64 = x: int | 0 <= x < TWO_64

  /** `x as i32`: the low 32 bits of `x`, read as a signed number. */
  function AsI32(x: int): (r: Int32)
    ensures (r - x) % TWO_32 == 0
  {
    var low := x % TWO_32;
    if low <= I32_MAX then low else low - TWO_32
  }

  /** `x as i64`: the low 64 bits of `x`, read as a signed number. */
  function AsI64(x: int): (r: Int64)
    ensures (r - x) % TWO_64 == 0
  {
    var low := x % TWO_64;
    if low <= I64_MAX then low else low - TWO_64
  }

  /** Two values of a width-`m` range congruent modulo `m` are equal: the casts are the only possible ones. */
  lemma CongruentInWindow(a: int, b: int, lo: int, m: int)
    requires m > 0
    requires lo <= a < lo + m && lo <= b < lo + m
    requires (a - b) % m == 0
    ensures a == b
  {
    var d := a - b;
    assert -m < d < m;
  }

  /** An i32 is the unique 32-bit signed value congruent to `x`; a value already in range is unchanged. */
  lemma AsI32Unique(x: int, r: Int32)
    requires (r - x) % TWO_32 == 0
    ensures AsI32(x) == r
    ensures I32_MIN <= x <= I32_MAX ==> AsI32(x) == x
  {
    var a := AsI32(x);
    assert (a - r) % TWO_32 == 0 by {
      assert a - r == (a - x) - (r - x);
    }
    CongruentInWindow(a, r, I32_MIN, TWO_32);
    if I32_MIN <= x <= I32_MAX {
      CongruentInWindow(x, r, I32_MIN, TWO_32);
    }
  }

  /** An i64 is the unique 64-bit signed value congruent to `x`; a value already in range is unchanged. */
  lemma AsI64Unique(x: int, r: Int64)
    requires (r - x) % TWO_64 == 0
    ensures AsI64(x) == r
    ensures I64_MIN <= x <= I64_MAX ==> AsI64(x) == x
  {
    var a := AsI64(x);
    assert (a - r) % TWO_64 == 0 by {
      assert a - r == (a - x) - (r - x);
    }
    CongruentInWindow(a, r, I64_MIN, TWO_64);
    if I64_MIN <= x <= I64_MAX {
      CongruentInWindow(x, r, I64_MIN, TWO_64);
    }
  }

  /** `u as i64` for a u64: unchanged up to i64::MAX, otherwise `u - 2^64` (never 0, never saturated). */
  lemma U64AsI64(u: UInt64)
    ensures u <= I64_MAX ==> AsI64(u) == u
    ensures u > I64_MAX ==> AsI64(u) == u - TWO_64 && AsI64(u) < 0
  {
  }

  /** `u as i32` for a u64 applies no range check: 2^31 wraps to -2^31 and 2^32 to 0. */
  lemma U64AsI32Wraps()
    ensures AsI32(0x8000_0000) == I32_MIN
    ensures AsI32(TWO_32) == 0
    ensures AsI32(TWO_32 + 5) == 5
    ensures AsI32(TWO_64 - 1) == -1
  {
  }
}
