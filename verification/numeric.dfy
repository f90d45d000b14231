/** Fixed-width integers of the Rust source and the casts between them.
    Dafny integers are unbounded, so every wrap-around or truncation that
    an `as` cast performs in the source is written out here. */
module Numeric {

  const U32_LIMIT: nat := 0x1_0000_0000
  const I32_LIMIT: nat := 0x8000_0000
  const U64_LIMIT: nat := 0x1_0000_0000_0000_0000
  const U64_MAX: nat := U64_LIMIT - 1

  /** 2^22: guild ids (snowflakes) keep their timestamp above bit 22. */
  const SNOWFLAKE_SHIFT_UNIT: nat := 0x40_0000

  type U8 = x: int | 0 <= x < 0x100
  type U32 = x: int | 0 <= x < 0x1_0000_0000
  type U64 = x: int | 0 <= x < 0x1_0000_0000_0000_0000
  type I32 = x: int | -0x8000_0000 <= x < 0x8000_0000

  /** `NonZeroU64`, the integer inside the voice library's id types
      (`GuildId`, `UserId`, `ChannelId`). */
  type NonZeroU64 = x: int | 0 < x < 0x1_0000_0000_0000_0000 witness 1

  /** `x as u64` for an `i32`: sign extension, so a negative value becomes
      a value at the very top of the u64 range. */
  function I32AsU64(x: I32): (r: U64)
    ensures 0 <= x ==> r == x
    ensures x < 0 ==> U64_LIMIT - I32_LIMIT <= r
    ensures (r - x) % U64_LIMIT == 0
  {
    if 0 <= x then x else x + U64_LIMIT
  }

  /** `x as i32` for a `u64`: keep the low 32 bits and read them as two's
      complement. */
  function U64AsI32(x: U64): (r: I32)
    ensures r == x <==> x < I32_LIMIT
    ensures (x - r) % U32_LIMIT == 0
  {
    var low := x % U32_LIMIT;
    if low < I32_LIMIT then low else low - U32_LIMIT
  }

  /** `x as u32` for an unsigned value of any wider width (u64 or u128):
      reduction modulo 2^32. */
  function TruncateU32(x: nat): (r: U32)
    ensures r == x <==> x < U32_LIMIT
    ensures (x - r) % U32_LIMIT == 0
  {
    x % U32_LIMIT
  }

  /** `x >> 22` on a `u64`. */
  function Shr22(x: U64): (r: U64)
    ensures r * SNOWFLAKE_SHIFT_UNIT <= x < (r + 1) * SNOWFLAKE_SHIFT_UNIT
    ensures r < U64_LIMIT / SNOWFLAKE_SHIFT_UNIT
  {
    x / SNOWFLAKE_SHIFT_UNIT
  }

  /** `a % n` is the remainder of Euclidean division: below `n`, and `a`
      minus it is a multiple of `n`. */
  lemma {:induction false} ModIsResidue(a: nat, n: nat)
    requires n > 0
    ensures a % n < n
    ensures (a - a % n) % n == 0
  {
    var q := a / n;
    assert a - a % n == q * n;
    MultipleModIsZero(q, n);
  }

  lemma MultipleModIsZero(q: nat, n: nat)
    requires n > 0
    ensures (q * n) % n == 0
  {
    var k, r := (q * n) / n, (q * n) % n;
    assert (q - k) * n == r;
    if q - k >= 1 {
      assert false;
    } else if q - k <= -1 {
      assert false;
    }
  }

  /** A value below the modulus is its own remainder. */
  lemma ModBelowModulus(a: nat, n: nat)
    requires a < n
    ensures a % n == a
  {
  }
}
