/**
 * Number texts and integer arithmetic shared by the model: decimal and binary
 * renderings of integers (JavaScript `String(n)` and `n.toString(2)` for
 * integral n), the decimal value of a digit string, `Math.round` of a
 * quotient, and C's `std::stoul` on a 64-bit `unsigned long`.
 */
module Numbers {
  import opened Wrappers

  predicate IsDigit(c: char) { '0' <= c <= '9' }

  predicate AllDigits(s: string) { forall k :: 0 <= k < |s| ==> IsDigit(s[k]) }

  function DigitChar(d: nat): (c: char)
    requires d < 10
    ensures IsDigit(c) && (c as int) - ('0' as int) == d
  {
    (('0' as int) + d) as char
  }

  function DigitOf(c: char): (d: nat)
    requires IsDigit(c)
    ensures d < 10 && DigitChar(d) == c
  {
    (c as int) - ('0' as int)
  }

  /** The decimal rendering of a natural number, with no leading zero. */
  function NatToString(n: nat): (s: string)
    ensures |s| >= 1 && AllDigits(s)
    ensures s[0] == '0' ==> n == 0
  {
    if n < 10 then [DigitChar(n)] else NatToString(n / 10) + [DigitChar(n % 10)]
  }

  /** The decimal rendering of an integer: a leading '-' for negative values. */
  function IntToString(i: int): (s: string)
    ensures |s| >= 1
    ensures forall k :: 0 <= k < |s| ==> IsDigit(s[k]) || s[k] == '-'
  {
    if i < 0 then "-" + NatToString(-i) else NatToString(i)
  }

  /** The value of a string of decimal digits; leading zeros are allowed. */
  function DigitsValue(s: string): nat
    requires AllDigits(s)
  {
    if s == [] then 0 else 10 * DigitsValue(s[..|s| - 1]) + DigitOf(s[|s| - 1])
  }

  /** Reading back a rendered natural number gives the number itself. */
  lemma {:induction false} DigitsValueOfNatToString(n: nat)
    ensures DigitsValue(NatToString(n)) == n
  {
    if n >= 10 {
      var s := NatToString(n);
      assert s[..|s| - 1] == NatToString(n / 10);
      DigitsValueOfNatToString(n / 10);
    }
  }

  lemma NatToStringInjective(m: nat, n: nat)
    requires NatToString(m) == NatToString(n)
    ensures m == n
  {
    DigitsValueOfNatToString(m);
    DigitsValueOfNatToString(n);
  }

  /** The base-2 rendering of a natural number (`n.toString(2)`). */
  function NatToBinary(n: nat): (s: string)
    ensures |s| >= 1 && forall k :: 0 <= k < |s| ==> s[k] == '0' || s[k] == '1'
  {
    if n < 2 then [DigitChar(n)] else NatToBinary(n / 2) + [DigitChar(n % 2)]
  }

  /** The value of a string of binary digits. */
  function BinaryValue(s: string): nat
    requires forall k :: 0 <= k < |s| ==> s[k] == '0' || s[k] == '1'
  {
    if s == [] then 0 else 2 * BinaryValue(s[..|s| - 1]) + (if s[|s| - 1] == '1' then 1 else 0)
  }

  lemma {:induction false} BinaryValueOfNatToBinary(n: nat)
    ensures BinaryValue(NatToBinary(n)) == n
  {
    if n >= 2 {
      var s := NatToBinary(n);
      assert s[..|s| - 1] == NatToBinary(n / 2);
      BinaryValueOfNatToBinary(n / 2);
    }
  }

  /**
   * `Math.round(n / d)` for a positive divisor: the integer nearest to n/d,
   * halves rounded up (towards +infinity).
   */
  function RoundDiv(n: int, d: int): (r: int)
    requires d > 0
    ensures 2 * d * r <= 2 * n + d < 2 * d * (r + 1)
  {
    (2 * n + d) / (2 * d)
  }

  /** Values of C++ `std::size_t` / `unsigned long` on a 64-bit target. */
  const SizeLimit: int := 0x1_0000_0000_0000_0000
  type SizeT = n: int | 0 <= n < SizeLimit

  /** The two exceptions that `std::stoul` and `std::stod` throw. */
  datatype ConversionError = InvalidArgument | OutOfRange

  /** `std::isspace` in the "C" locale. */
  predicate IsSpace(c: char) { c == ' ' || c == '\t' || c == '\n' || c as int == 11 || c as int == 12 || c == '\r' }

  /** The text after its leading white space. */
  function SkipSpace(s: string): (r: string)
    ensures |r| <= |s| && (r != [] ==> !IsSpace(r[0]))
  {
    if s != [] && IsSpace(s[0]) then SkipSpace(s[1..]) else s
  }

  /** b to the power e. */
  function Pow(b: nat, e: nat): nat
  {
    if e == 0 then 1 else b * Pow(b, e - 1)
  }

  /**
   * The least magnitude that an IEEE-754 double rounds to infinity:
   * 2^1024 - 2^970, halfway between the largest finite double and 2^1024.
   */
  const DoubleOverflow: int := 0xFFFFFFFFFFFFFC00000000000000000000000000000000000000000000000000000000000000000000000000000000000000000000000000000000000000000000000000000000000000000000000000000000000000000000000000000000000000000000000000000000000000000000000000000000000000000000000000

  /** The longest prefix of s made of decimal digits. */
  function LeadingDigits(s: string): (r: string)
    ensures |r| <= |s| && r == s[..|r|] && AllDigits(r)
    ensures |r| < |s| ==> !IsDigit(s[|r|])
  {
    if s == [] || !IsDigit(s[0]) then [] else [s[0]] + LeadingDigits(s[1..])
  }

  /**
   * `std::stoul(t, nullptr, 10)`: leading white space is skipped, then an
   * optional sign and the longest run of decimal digits; no digit throws
   * invalid_argument, a magnitude beyond ULONG_MAX throws out_of_range, and
   * a '-' negates modulo 2^64 as strtoul does.
   */
  function Stoul(t: string): Result<SizeT, ConversionError>
  {
    var u := SkipSpace(t);
    var signed := |u| > 0 && (u[0] == '-' || u[0] == '+');
    var digits := LeadingDigits(if signed then u[1..] else u);
    if digits == [] then Err(InvalidArgument)
    else
      var v := DigitsValue(digits);
      if v >= SizeLimit then Err(OutOfRange)
      else if signed && u[0] == '-' then Ok((SizeLimit - v) % SizeLimit)
      else Ok(v)
  }

  /** White space in front of the number does not change what stoul reads. */
  lemma StoulSkipsSpace(c: char, t: string)
    requires IsSpace(c)
    ensures Stoul([c] + t) == Stoul(t)
  {
    assert ([c] + t)[1..] == t;
  }

  /** A rendered size reads back as itself, and "-1" wraps to ULONG_MAX. */
  lemma StoulOfNatToString(n: nat)
    requires n < SizeLimit
    ensures Stoul(NatToString(n)) == Ok(n)
    ensures Stoul("-" + NatToString(n)) == Ok((SizeLimit - n) % SizeLimit)
  {
    var s := NatToString(n);
    AllDigitsLeading(s);
    assert SkipSpace(s) == s;
    assert SkipSpace("-" + s) == "-" + s;
    assert ("-" + s)[1..] == s;
    DigitsValueOfNatToString(n);
  }

  /** The `std::size_t` that `std::stoul` makes of a rendered integer. */
  function Wrap(x: int): SizeT
  {
    x % SizeLimit
  }

  /** A rendered integer reads back modulo 2^64. */
  lemma StoulIntToString(x: int)
    requires -SizeLimit < x < SizeLimit
    ensures Stoul(IntToString(x)) == Ok(Wrap(x))
  {
    if x >= 0 {
      assert IntToString(x) == NatToString(x) && Wrap(x) == x;
      StoulOfNatToString(x);
    } else {
      var m := -x;
      assert IntToString(x) == "-" + NatToString(m);
      assert Wrap(x) == (SizeLimit - m) % SizeLimit by {
        assert (SizeLimit - m) % SizeLimit == SizeLimit - m;
      }
      StoulOfNatToString(m);
    }
  }

  lemma {:induction false} AllDigitsLeading(s: string)
    requires AllDigits(s)
    ensures LeadingDigits(s) == s
  {
    if s != [] {
      AllDigitsLeading(s[1..]);
    }
  }

  /** The digit run in front of a non-digit is the leading digits. */
  lemma {:induction false} LeadingDigitsStop(d: string, rest: string)
    requires AllDigits(d) && (rest == [] || !IsDigit(rest[0]))
    ensures LeadingDigits(d + rest) == d
  {
    if d != [] {
      assert (d + rest)[1..] == d[1..] + rest;
      LeadingDigitsStop(d[1..], rest);
    } else {
      assert d + rest == rest;
    }
  }
}
