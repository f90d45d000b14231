/** Decimal text of unsigned 64-bit ids, as Rust's standard library reads
    and writes it: `str::parse::<u64>()` and `u64::to_string()`.
    Every id that crosses the JavaScript boundary (guild, user, channel)
    travels as such a string. */
module Decimal {
  import opened Wrappers
  import opened Numeric

  /** The error kinds of Rust's `ParseIntError` that a u64 or `NonZeroU64`
      parse can give. */
  datatype ParseIntError = Empty | InvalidDigit | PosOverflow | Zero

  predicate IsDigit(c: char) {
    '0' <= c <= '9'
  }

  predicate AllDigits(s: string) {
    forall i :: 0 <= i < |s| ==> IsDigit(s[i])
  }

  function DigitValue(c: char): (d: nat)
    requires IsDigit(c)
    ensures d < 10
  {
    c as int - '0' as int
  }

  function DigitChar(d: nat): (c: char)
    requires d < 10
    ensures IsDigit(c) && DigitValue(c) == d
  {
    ('0' as int + d) as char
  }

  /** The unchecked value of the digit string `ds` read after a prefix
      whose value is `acc`: the reference meaning of a decimal numeral. */
  function Fold(acc: nat, ds: string): nat
    requires AllDigits(ds)
    decreases |ds|
  {
    if ds == [] then acc else Fold(acc * 10 + DigitValue(ds[0]), ds[1..])
  }

  /** The digit loop of Rust's `from_str_radix`: left to right, a non-digit
      is reported before an overflow at the same position, and the
      multiply-and-add is checked against the u64 range at every step. */
  function Accumulate(acc: U64, ds: string): (r: Result<U64, ParseIntError>)
    ensures r != Failure(Empty) && r != Failure(Zero)
    ensures r.Success? ==> acc <= r.value
    decreases |ds|
  {
    if ds == [] then Success(acc)
    else if !IsDigit(ds[0]) then Failure(InvalidDigit)
    else if acc * 10 + DigitValue(ds[0]) > U64_MAX then Failure(PosOverflow)
    else Accumulate(acc * 10 + DigitValue(ds[0]), ds[1..])
  }

  /** `s.parse::<u64>()`: the empty string is `Empty`; a lone sign is
      `InvalidDigit`; one leading `+` is accepted; a `-` is just a
      non-digit for an unsigned type. Leading zeros are accepted. */
  function ParseU64(s: string): (r: Result<U64, ParseIntError>)
    ensures r == Failure(Empty) <==> s == []
    ensures r != Failure(Zero)
    ensures |s| == 1 && (s[0] == '+' || s[0] == '-') ==> r == Failure(InvalidDigit)
    ensures |s| > 0 && s != "+" && s != "-" ==> r == Accumulate(0, Digits(s))
  {
    if s == [] then Failure(Empty)
    else if (s[0] == '+' || s[0] == '-') && |s| == 1 then Failure(InvalidDigit)
    else if s[0] == '+' then Accumulate(0, s[1..])
    else Accumulate(0, s)
  }

  /** `s.parse::<NonZeroU64>()`: the u64 parse, with a zero value
      refused as `Zero`. */
  function ParseNonZeroU64(s: string): (r: Result<NonZeroU64, ParseIntError>)
    ensures r.Success? <==> ParseU64(s).Success? && ParseU64(s).value != 0
    ensures r.Success? ==> r.value == ParseU64(s).value
    ensures r == Failure(Zero) <==> ParseU64(s) == Success(0)
    ensures ParseU64(s).Failure? ==> r == Failure(ParseU64(s).error)
  {
    match ParseU64(s)
    case Failure(e) => Failure(e)
    case Success(n) => if n == 0 then Failure(Zero) else Success(n)
  }

  /** `n.to_string()`: shortest decimal numeral, no sign, no leading zero. */
  function RenderU64(n: nat): (s: string)
    ensures Canonical(s)
    ensures s[0] == '0' ==> n == 0
    decreases n
  {
    if n < 10 then [DigitChar(n)] else RenderU64(n / 10) + [DigitChar(n % 10)]
  }

  /** The shape of `to_string`'s output: digits only, and no leading zero
      unless the number is zero. */
  predicate Canonical(t: string) {
    |t| > 0 && AllDigits(t) && (t[0] == '0' ==> |t| == 1)
  }

  /** The text that the parser accepts syntactically: a non-empty run of
      digits, optionally after one `+`. */
  predicate WellFormed(s: string) {
    && |s| > 0
    && (s[0] == '+' ==> |s| > 1 && AllDigits(s[1..]))
    && (s[0] != '+' ==> AllDigits(s))
  }

  /** The text after an optional leading `+`: the part the digit loop
      reads. For a well-formed numeral these are its digits. */
  function Digits(s: string): (ds: string)
    requires |s| > 0
    ensures s[0] == '+' ==> s == ['+'] + ds
    ensures s[0] != '+' ==> ds == s
    ensures WellFormed(s) ==> |ds| > 0 && AllDigits(ds)
  {
    if s[0] == '+' then s[1..] else s
  }

  lemma {:induction false} FoldAppend(acc: nat, xs: string, ys: string)
    requires AllDigits(xs) && AllDigits(ys)
    ensures AllDigits(xs + ys)
    ensures Fold(acc, xs + ys) == Fold(Fold(acc, xs), ys)
    decreases |xs|
  {
    if xs != [] {
      assert (xs + ys)[1..] == xs[1..] + ys;
      FoldAppend(acc * 10 + DigitValue(xs[0]), xs[1..], ys);
    } else {
      assert xs + ys == ys;
    }
  }

  lemma {:induction false} FoldAtLeast(acc: nat, ds: string)
    requires AllDigits(ds)
    ensures Fold(acc, ds) >= acc
    decreases |ds|
  {
    if ds != [] {
      FoldAtLeast(acc * 10 + DigitValue(ds[0]), ds[1..]);
    }
  }

  /** The checked loop agrees with the unchecked value: it succeeds with
      that value when it fits in a u64 and reports `PosOverflow` otherwise. */
  lemma {:induction false} AccumulateMeansFold(acc: U64, ds: string)
    requires AllDigits(ds)
    ensures Fold(acc, ds) <= U64_MAX ==> Accumulate(acc, ds) == Success(Fold(acc, ds))
    ensures Fold(acc, ds) > U64_MAX ==> Accumulate(acc, ds) == Failure(PosOverflow)
    decreases |ds|
  {
    if ds != [] {
      var next := acc * 10 + DigitValue(ds[0]);
      if next > U64_MAX {
        FoldAtLeast(next, ds[1..]);
      } else {
        AccumulateMeansFold(next, ds[1..]);
      }
    }
  }

  /** A string with a non-digit never parses: whichever failure comes
      first decides the kind, as the two lemmas below make precise. */
  lemma {:induction false} AccumulateRejectsNonDigit(acc: U64, ds: string)
    requires !AllDigits(ds)
    ensures Accumulate(acc, ds) == Failure(InvalidDigit) || Accumulate(acc, ds) == Failure(PosOverflow)
    decreases |ds|
  {
    if IsDigit(ds[0]) {
      if acc * 10 + DigitValue(ds[0]) <= U64_MAX {
        assert !AllDigits(ds[1..]) by {
          var i :| 0 <= i < |ds| && !IsDigit(ds[i]);
          assert ds[1..][i - 1] == ds[i];
        }
        AccumulateRejectsNonDigit(acc * 10 + DigitValue(ds[0]), ds[1..]);
      }
    }
  }

  /** A non-digit reached while the digits before it still fit in a u64
      is reported as `InvalidDigit`. */
  lemma {:induction false} NonDigitBeforeOverflowIsInvalid(acc: U64, ds: string, i: nat)
    requires i < |ds| && !IsDigit(ds[i])
    requires AllDigits(ds[..i]) && Fold(acc, ds[..i]) <= U64_MAX
    ensures Accumulate(acc, ds) == Failure(InvalidDigit)
    decreases i
  {
    if i > 0 {
      var next := acc * 10 + DigitValue(ds[0]);
      assert ds[..i][1..] == ds[1..][..i - 1];
      FoldAtLeast(next, ds[1..][..i - 1]);
      NonDigitBeforeOverflowIsInvalid(next, ds[1..], i - 1);
    }
  }

  /** A digit prefix whose value leaves the u64 range is reported as
      `PosOverflow`, whatever follows it. */
  lemma {:induction false} OverflowBeforeNonDigitIsOverflow(acc: U64, ds: string, i: nat)
    requires i <= |ds|
    requires AllDigits(ds[..i]) && Fold(acc, ds[..i]) > U64_MAX
    ensures Accumulate(acc, ds) == Failure(PosOverflow)
    decreases i
  {
    if i > 0 {
      var next := acc * 10 + DigitValue(ds[0]);
      assert ds[..i][1..] == ds[1..][..i - 1];
      if next <= U64_MAX {
        OverflowBeforeNonDigitIsOverflow(next, ds[1..], i - 1);
      }
    }
  }

  /** What `parse::<u64>()` accepts, in both directions: exactly the
      well-formed numerals whose value fits in 64 bits, and it then yields
      that value. Nothing is defaulted: every other string is an error. */
  lemma ParseU64Meaning(s: string)
    ensures ParseU64(s).Success? <==> WellFormed(s) && Fold(0, Digits(s)) <= U64_MAX
    ensures ParseU64(s).Success? ==> ParseU64(s).value == Fold(0, Digits(s))
  {
    if s == [] {
    } else if (s[0] == '+' || s[0] == '-') && |s| == 1 {
    } else {
      var ds := if s[0] == '+' then s[1..] else s;
      assert ParseU64(s) == Accumulate(0, ds);
      if AllDigits(ds) {
        AccumulateMeansFold(0, ds);
      } else {
        AccumulateRejectsNonDigit(0, ds);
      }
    }
  }

  /** The kind of a `parse::<u64>()` failure, first case: a non-digit
      after an optional `+` (a `-` included), reached while the digits
      before it still fit in a u64, is `InvalidDigit`. */
  lemma ParseU64NonDigitIsInvalid(s: string, i: nat)
    requires |s| > 0 && i < |Digits(s)| && !IsDigit(Digits(s)[i])
    requires AllDigits(Digits(s)[..i]) && Fold(0, Digits(s)[..i]) <= U64_MAX
    ensures ParseU64(s) == Failure(InvalidDigit)
  {
    if s != "-" {
      NonDigitBeforeOverflowIsInvalid(0, Digits(s), i);
    }
  }

  /** The kind of a `parse::<u64>()` failure, second case: a digit prefix
      whose value leaves the u64 range is `PosOverflow`, whatever follows. */
  lemma ParseU64OverflowIsPosOverflow(s: string, i: nat)
    requires |s| > 0 && i <= |Digits(s)|
    requires AllDigits(Digits(s)[..i]) && Fold(0, Digits(s)[..i]) > U64_MAX
    ensures ParseU64(s) == Failure(PosOverflow)
  {
    OverflowBeforeNonDigitIsOverflow(0, Digits(s), i);
  }

  lemma {:induction false} FoldRender(n: nat)
    ensures Fold(0, RenderU64(n)) == n
    decreases n
  {
    if n >= 10 {
      FoldRender(n / 10);
      FoldAppend(0, RenderU64(n / 10), [DigitChar(n % 10)]);
    }
  }

  /** Rendering a u64 and parsing it back returns the same id. */
  lemma RenderParseRoundTrip(n: U64)
    ensures ParseU64(RenderU64(n)) == Success(n)
  {
    var s := RenderU64(n);
    FoldRender(n);
    assert IsDigit(s[0]);
    assert ParseU64(s) == Accumulate(0, s);
    AccumulateMeansFold(0, s);
  }

  /** A non-zero id renders to text that the `NonZeroU64` parse reads back. */
  lemma RenderParseNonZeroRoundTrip(n: NonZeroU64)
    ensures ParseNonZeroU64(RenderU64(n)) == Success(n)
  {
    RenderParseRoundTrip(n);
  }

  /** Distinct ids render to distinct strings. */
  lemma RenderInjective(m: U64, n: U64)
    ensures RenderU64(m) == RenderU64(n) ==> m == n
  {
    RenderParseRoundTrip(m);
    RenderParseRoundTrip(n);
  }
}
