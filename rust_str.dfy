/** The fixed-width integers of the Rust code and the two standard-library
    string operations the core relies on: `str::parse::<u32>` /
    `str::parse::<i32>` (decimal, as `FromStr` implements it) and
    `[String]::join`. */
module RustStr {
  import opened Wrappers

  newtype byte = x: int | 0 <= x < 0x100
  newtype u32 = x: int | 0 <= x < 0x1_0000_0000
  newtype u64 = x: int | 0 <= x < 0x1_0000_0000_0000_0000
  newtype i32 = x: int | -0x8000_0000 <= x < 0x8000_0000

  const U32_MAX: nat := 0xFFFF_FFFF
  const I32_MAX: nat := 0x7FFF_FFFF
  /** The magnitude of `i32::MIN`. */
  const I32_MIN_MAGNITUDE: nat := 0x8000_0000

  /** The kinds of `ParseIntError` that decimal `from_str` produces. */
  datatype IntErrorKind = Empty | InvalidDigit | PosOverflow | NegOverflow

  /** `ParseIntError`'s `Display` text. */
  function IntErrorMessage(kind: IntErrorKind): string {
    match kind
    case Empty => "cannot parse integer from empty string"
    case InvalidDigit => "invalid digit found in string"
    case PosOverflow => "number too large to fit in target type"
    case NegOverflow => "number too small to fit in target type"
  }

  predicate IsDigit(c: char) {
    '0' <= c <= '9'
  }

  function DigitValue(c: char): nat
    requires IsDigit(c)
  {
    c as int - '0' as int
  }

  predicate AllDigits(s: string) {
    forall i :: 0 <= i < |s| ==> IsDigit(s[i])
  }

  /** The decimal value of the digit string `s` read left to right,
      starting from the accumulated value `acc`. */
  function ValueFrom(acc: nat, s: string): nat
    requires AllDigits(s)
    decreases |s|
  {
    if s == [] then acc else ValueFrom(acc * 10 + DigitValue(s[0]), s[1..])
  }

  /** The digit loop of `from_str`: digits are consumed left to right and the
      first failure wins; a character that is not a digit is `InvalidDigit`,
      a magnitude beyond `limit` is the overflow kind given. */
  function AccumulateDigits(s: string, acc: nat, limit: nat, overflow: IntErrorKind): (r: Result<nat, IntErrorKind>)
    requires acc <= limit
    ensures r.Success? ==> r.value <= limit
    decreases |s|
  {
    if s == [] then Success(acc)
    else if !IsDigit(s[0]) then Failure(InvalidDigit)
    else if acc * 10 + DigitValue(s[0]) > limit then Failure(overflow)
    else AccumulateDigits(s[1..], acc * 10 + DigitValue(s[0]), limit, overflow)
  }

  /** What is left of the input of `u32::from_str` once its optional `+` is taken off. */
  function UnsignedDigits(s: string): string {
    if |s| > 0 && s[0] == '+' then s[1..] else s
  }

  /** `s.parse::<u32>()`. */
  function ParseU32(s: string): Result<u32, IntErrorKind> {
    if s == [] then Failure(Empty)
    else if (s[0] == '+' || s[0] == '-') && |s| == 1 then Failure(InvalidDigit)
    else
      match AccumulateDigits(UnsignedDigits(s), 0, U32_MAX, PosOverflow)
      case Success(v) => Success(v as u32)
      case Failure(k) => Failure(k)
  }

  /** `s.parse::<i32>()`: a leading `-` is accepted here, unlike for `u32`. */
  function ParseI32(s: string): Result<i32, IntErrorKind> {
    if s == [] then Failure(Empty)
    else if (s[0] == '+' || s[0] == '-') && |s| == 1 then Failure(InvalidDigit)
    else if s[0] == '-' then
      match AccumulateDigits(s[1..], 0, I32_MIN_MAGNITUDE, NegOverflow)
      case Success(v) => Success((0 - v as int) as i32)
      case Failure(k) => Failure(k)
    else
      match AccumulateDigits(UnsignedDigits(s), 0, I32_MAX, PosOverflow)
      case Success(v) => Success(v as i32)
      case Failure(k) => Failure(k)
  }

  /** The decimal text of a natural number, as Rust's `Display` writes it. */
  function NatToDecimal(n: nat): (s: string)
    ensures |s| > 0 && AllDigits(s)
  {
    if n < 10 then ['0' + n as char] else NatToDecimal(n / 10) + ['0' + (n % 10) as char]
  }

  /** `slice.join(sep)` for a slice of strings. */
  function Join(parts: seq<string>, sep: string): string {
    if |parts| == 0 then ""
    else if |parts| == 1 then parts[0]
    else parts[0] + sep + Join(parts[1..], sep)
  }

  function TotalLength(parts: seq<string>): nat {
    if parts == [] then 0 else |parts[0]| + TotalLength(parts[1..])
  }

  // ---------------------------------------------------------------------------
  // Parsing: what is accepted and with which value

  lemma {:induction false} ValueFromAtLeast(acc: nat, s: string)
    requires AllDigits(s)
    ensures ValueFrom(acc, s) >= acc
    decreases |s|
  {
    if s != [] {
      ValueFromAtLeast(acc * 10 + DigitValue(s[0]), s[1..]);
    }
  }

  /** The digit loop succeeds exactly on all-digit input whose value fits,
      and then yields that value. */
  lemma {:induction false} AccumulateDigitsSpec(s: string, acc: nat, limit: nat, overflow: IntErrorKind)
    requires acc <= limit
    ensures AccumulateDigits(s, acc, limit, overflow).Success?
        <==> AllDigits(s) && ValueFrom(acc, s) <= limit
    ensures AccumulateDigits(s, acc, limit, overflow).Success?
        ==> AllDigits(s) && AccumulateDigits(s, acc, limit, overflow).value == ValueFrom(acc, s)
    decreases |s|
  {
    if s != [] {
      if !IsDigit(s[0]) {
        assert !AllDigits(s);
      } else {
        var next := acc * 10 + DigitValue(s[0]);
        assert AllDigits(s) <==> AllDigits(s[1..]) by {
          if AllDigits(s[1..]) {
            forall i | 0 <= i < |s| ensures IsDigit(s[i]) {
              if i > 0 { assert s[i] == s[1..][i - 1]; }
            }
          }
        }
        if next > limit {
          if AllDigits(s) { ValueFromAtLeast(next, s[1..]); }
        } else {
          AccumulateDigitsSpec(s[1..], next, limit, overflow);
        }
      }
    }
  }

  /** `parse::<u32>` accepts exactly an optional `+` followed by at least one
      decimal digit and nothing else, with a value that fits in 32 bits. */
  lemma ParseU32Spec(s: string)
    ensures ParseU32(s).Success? <==>
      (var d := UnsignedDigits(s); d != [] && AllDigits(d) && ValueFrom(0, d) <= U32_MAX)
    ensures ParseU32(s).Success? ==>
      (var d := UnsignedDigits(s); AllDigits(d) && ParseU32(s).value as int == ValueFrom(0, d))
  {
    if s != [] {
      AccumulateDigitsSpec(UnsignedDigits(s), 0, U32_MAX, PosOverflow);
    }
  }

  /** `parse::<i32>` accepts an optional sign followed by at least one decimal
      digit, with a value in the range of `i32`. */
  lemma ParseI32Spec(s: string)
    ensures ParseI32(s).Success? <==>
      (if |s| > 0 && s[0] == '-'
       then |s| > 1 && AllDigits(s[1..]) && ValueFrom(0, s[1..]) <= I32_MIN_MAGNITUDE
       else (var d := UnsignedDigits(s); d != [] && AllDigits(d) && ValueFrom(0, d) <= I32_MAX))
    ensures ParseI32(s).Success? && |s| > 0 && s[0] == '-' ==>
      AllDigits(s[1..]) && ParseI32(s).value as int == 0 - ValueFrom(0, s[1..]) as int
    ensures ParseI32(s).Success? && !(|s| > 0 && s[0] == '-') ==>
      (var d := UnsignedDigits(s); AllDigits(d) && ParseI32(s).value as int == ValueFrom(0, d))
  {
    if s != [] {
      if s[0] == '-' {
        AccumulateDigitsSpec(s[1..], 0, I32_MIN_MAGNITUDE, NegOverflow);
      } else {
        AccumulateDigitsSpec(UnsignedDigits(s), 0, I32_MAX, PosOverflow);
      }
    }
  }

  lemma {:induction false} ValueFromSnoc(acc: nat, s: string, c: char)
    requires AllDigits(s) && IsDigit(c)
    ensures AllDigits(s + [c])
    ensures ValueFrom(acc, s + [c]) == ValueFrom(acc, s) * 10 + DigitValue(c)
    decreases |s|
  {
    if s == [] {
      assert (s + [c])[1..] == [];
    } else {
      assert (s + [c])[1..] == s[1..] + [c];
      ValueFromSnoc(acc * 10 + DigitValue(s[0]), s[1..], c);
    }
  }

  lemma {:induction false} NatToDecimalValue(n: nat)
    ensures ValueFrom(0, NatToDecimal(n)) == n
  {
    if n < 10 {
      assert NatToDecimal(n)[1..] == [];
    } else {
      NatToDecimalValue(n / 10);
      ValueFromSnoc(0, NatToDecimal(n / 10), '0' + (n % 10) as char);
    }
  }

  /** Writing a `u32` in decimal and parsing it back gives the number again. */
  lemma ParseU32RoundTrip(n: u32)
    ensures ParseU32(NatToDecimal(n as nat)) == Success(n)
  {
    var s := NatToDecimal(n as nat);
    NatToDecimalValue(n as nat);
    assert UnsignedDigits(s) == s by { assert IsDigit(s[0]); }
    ParseU32Spec(s);
  }

  /** Inputs the FLAC number fields are known to carry that `u32` rejects or accepts. */
  lemma ParseU32Examples()
    ensures ParseU32("") == Failure(Empty)
    ensures ParseU32("+") == Failure(InvalidDigit)
    ensures ParseU32("3/12") == Failure(InvalidDigit)
    ensures ParseU32("-0") == Failure(InvalidDigit)
    ensures ParseU32(" 3") == Failure(InvalidDigit)
    ensures ParseU32("+07") == Success(7)
    ensures ParseU32("4294967296") == Failure(PosOverflow)
  {
    assert UnsignedDigits("+07") == "07";
    var big := "4294967296";
    assert big[1..] == "294967296" && big[1..][1..] == "94967296";
  }

  // ---------------------------------------------------------------------------
  // Joining

  /** Joining one value more appends the separator and that value. */
  lemma {:induction false} JoinSnoc(parts: seq<string>, p: string, sep: string)
    requires |parts| > 0
    ensures Join(parts + [p], sep) == Join(parts, sep) + sep + p
    decreases |parts|
  {
    if |parts| == 1 {
      assert (parts + [p])[1..] == [p];
    } else {
      assert (parts + [p])[1..] == parts[1..] + [p];
      JoinSnoc(parts[1..], p, sep);
    }
  }

  /** Where the `i`-th value starts in the joined text: after the values
      before it and one separator for each of them. */
  function JoinOffset(parts: seq<string>, sep: string, i: nat): nat
    requires i <= |parts|
  {
    TotalLength(parts[..i]) + i * |sep|
  }

  /** The joined text holds each value at its offset, with the separator
      right after every value but the last. */
  lemma {:induction false} JoinContents(parts: seq<string>, sep: string, i: nat)
    requires i < |parts|
    ensures var o := JoinOffset(parts, sep, i);
      o + |parts[i]| <= |Join(parts, sep)| && Join(parts, sep)[o..o + |parts[i]|] == parts[i]
    ensures i + 1 < |parts| ==>
      var o := JoinOffset(parts, sep, i) + |parts[i]|;
      o + |sep| <= |Join(parts, sep)| && Join(parts, sep)[o..o + |sep|] == sep
    decreases i
  {
    assert parts[..0] == [];
    if |parts| > 1 {
      var rest := parts[1..];
      var head := parts[0] + sep;
      assert Join(parts, sep) == head + Join(rest, sep);
      if i > 0 {
        JoinContents(rest, sep, i - 1);
        JoinOffsetStep(parts, sep, i);
        var o := JoinOffset(rest, sep, i - 1);
        SliceAfter(head, Join(rest, sep), o, o + |rest[i - 1]|);
        if i + 1 < |parts| {
          SliceAfter(head, Join(rest, sep), o + |rest[i - 1]|, o + |rest[i - 1]| + |sep|);
        }
      }
    }
  }

  /** Past the first value and its separator, offsets are those of the remaining values. */
  lemma JoinOffsetStep(parts: seq<string>, sep: string, i: nat)
    requires 0 < i <= |parts|
    ensures JoinOffset(parts, sep, i) == |parts[0]| + |sep| + JoinOffset(parts[1..], sep, i - 1)
  {
    assert parts[..i][1..] == parts[1..][..i - 1];
    assert TotalLength(parts[..i]) == |parts[0]| + TotalLength(parts[1..][..i - 1]);
    assert i * |sep| == |sep| + (i - 1) * |sep|;
  }

  /** A slice of `a + b` that lies past `a` is a slice of `b`. */
  lemma SliceAfter<T>(a: seq<T>, b: seq<T>, x: nat, y: nat)
    requires x <= y <= |b|
    ensures (a + b)[|a| + x..|a| + y] == b[x..y]
  {
  }

  /** The joined text is as long as the values with one separator between each two. */
  lemma {:induction false} JoinLength(parts: seq<string>, sep: string)
    ensures |parts| > 0 ==> |Join(parts, sep)| == TotalLength(parts) + (|parts| - 1) * |sep|
    ensures |parts| == 0 ==> Join(parts, sep) == ""
  {
    if |parts| > 1 {
      JoinLength(parts[1..], sep);
    }
  }
}
