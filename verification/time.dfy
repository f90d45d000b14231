/** `std::time::Duration` as far as the binding uses it: built from a
    millisecond count and read back as whole milliseconds. */
module Time {
  import opened Numeric

  const NANOS_PER_MILLI: nat := 1_000_000
  const MILLIS_PER_SEC: nat := 1000

  type Nanos = x: int | 0 <= x < 1_000_000_000

  datatype Duration = Duration(secs: U64, nanos: Nanos)

  /** `Duration::from_millis(ms)`. */
  function FromMillis(ms: U64): (d: Duration)
    ensures d.nanos % NANOS_PER_MILLI == 0
  {
    Duration(ms / MILLIS_PER_SEC, (ms % MILLIS_PER_SEC) * NANOS_PER_MILLI)
  }

  /** `d.as_millis()`: whole milliseconds, sub-millisecond nanoseconds
      dropped. The result is a u128 in Rust and never wraps. */
  function AsMillis(d: Duration): (ms: nat)
    ensures ms * NANOS_PER_MILLI <= d.secs * 1_000_000_000 + d.nanos < (ms + 1) * NANOS_PER_MILLI
  {
    d.secs * MILLIS_PER_SEC + d.nanos / NANOS_PER_MILLI
  }

  /** `d.as_millis() as u32`: the millisecond count reduced modulo 2^32. */
  function AsMillisU32(d: Duration): (ms: U32)
    ensures ms == AsMillis(d) <==> AsMillis(d) < U32_LIMIT
    ensures (AsMillis(d) - ms) % U32_LIMIT == 0
  {
    TruncateU32(AsMillis(d))
  }

  /** Converting milliseconds to a duration and back loses nothing. */
  lemma MillisRoundTrip(ms: U64)
    ensures AsMillis(FromMillis(ms)) == ms
  {
    var d := FromMillis(ms);
    assert d.nanos / NANOS_PER_MILLI == ms % MILLIS_PER_SEC;
  }

  /** A u32 timecode survives `from_millis(t as u64)` followed by
      `as_millis() as u32`. */
  lemma TimecodeRoundTrip(t: U32)
    ensures AsMillisU32(FromMillis(t)) == t
  {
    MillisRoundTrip(t);
  }
}
