/** Status numbers as the generated code handles them: Rust's `u16`, its
    decimal `FromStr` parser, and the range `http::StatusCode::from_u16`
    accepts. */
module Status {
  import opened Wrappers

  /** Rust's `u16`. */
  type U16 = n: int | 0 <= n < 0x1_0000

  /** The fallback status used when no usable status is given. */
  const InternalServerError: U16 := 500

  /** `http::StatusCode::from_u16` accepts exactly the three-digit numbers;
      every other value is an `InvalidStatusCode` error. */
  predicate ValidStatus(n: int) {
    100 <= n < 1000
  }

  predicate IsDigit(c: char) {
    '0' <= c <= '9'
  }

  predicate AllDigits(s: string) {
    forall i :: 0 <= i < |s| ==> IsDigit(s[i])
  }

  function DigitValue(c: char): (d: nat)
    requires IsDigit(c)
    ensures d < 10
  {
    c as int - '0' as int
  }

  function DigitChar(d: nat): (c: char)
    requires d < 10
    ensures IsDigit(c) && DigitValue(c) == d
  {
    ('0' as int + d) as char
  }

  /** Value of a digit string read most significant digit first. */
  function DigitsValue(s: string): nat
    requires AllDigits(s)
  {
    if |s| == 0 then 0 else DigitsValue(s[..|s| - 1]) * 10 + DigitValue(s[|s| - 1])
  }

  /** The digits an unsigned parse reads: a single leading `+` is skipped. */
  function UnsignedDigits(s: string): string
    requires |s| > 0
  {
    if s[0] == '+' then s[1..] else s
  }

  /** `<u16 as FromStr>::from_str`: an empty string, a lone sign, a `-` sign,
      any non-digit, or a value above 65535 is an error; leading zeros and one
      leading `+` are accepted. */
  function ParseU16(s: string): (r: Option<U16>)
    ensures |s| == 0 ==> r.None?
    ensures r.Some? ==> |s| > 0 && |UnsignedDigits(s)| > 0 && AllDigits(UnsignedDigits(s))
                        && r.value == DigitsValue(UnsignedDigits(s))
    ensures |s| > 0 && s[0] == '-' ==> r.None?
    ensures (|s| > 0 && |UnsignedDigits(s)| > 0 && AllDigits(UnsignedDigits(s))
             && DigitsValue(UnsignedDigits(s)) < 0x1_0000)
            ==> r == Some(DigitsValue(UnsignedDigits(s)))
  {
    if |s| == 0 then None
    else if (s[0] == '+' || s[0] == '-') && |s| == 1 then None
    else
      var digits := UnsignedDigits(s);
      if AllDigits(digits) && DigitsValue(digits) < 0x1_0000 then Some(DigitsValue(digits)) else None
  }

  /** Canonical decimal rendering of a number (no sign, no leading zeros). */
  function Decimal(n: nat): (s: string)
    ensures |s| > 0 && AllDigits(s)
  {
    if n < 10 then [DigitChar(n)] else Decimal(n / 10) + [DigitChar(n % 10)]
  }

  lemma {:induction false} DecimalValue(n: nat)
    ensures DigitsValue(Decimal(n)) == n
  {
    if n >= 10 {
      var s := Decimal(n);
      assert s[..|s| - 1] == Decimal(n / 10);
      DecimalValue(n / 10);
    }
  }

  /** Parsing the decimal rendering of any `u16` gives it back, with or
      without a leading `+`. */
  lemma ParseDecimalRoundTrip(n: U16)
    ensures ParseU16(Decimal(n)) == Some(n)
    ensures ParseU16("+" + Decimal(n)) == Some(n)
  {
    DecimalValue(n);
    var s := Decimal(n);
    assert IsDigit(s[0]);
    assert ("+" + s)[1..] == s;
  }

  /** A number with more value than 16 bits never parses, however it is written. */
  lemma ParseRejectsOverflow(s: string)
    requires |s| > 0 && AllDigits(s) && DigitsValue(s) >= 0x1_0000
    ensures ParseU16(s).None?
    ensures ParseU16("+" + s).None?
  {
    assert UnsignedDigits(s) == s;
    assert ("+" + s)[1..] == s;
  }

  /** Any character other than a digit after the optional sign makes the parse fail. */
  lemma ParseRejectsNonDigit(s: string, i: nat)
    requires 0 < i < |s| && !IsDigit(s[i])
    ensures ParseU16(s).None?
  {
  }
}
