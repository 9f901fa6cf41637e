/** Base-10 integers as text: `strconv.FormatInt` and `strconv.ParseInt`. */
module Decimal {
  import opened Wrappers

  const MAX_INT64: int := 9_223_372_036_854_775_807
  const MIN_INT64: int := -9_223_372_036_854_775_808

  function Digit(d: nat): (c: char)
    requires d < 10
    ensures '0' <= c <= '9' && DigitValue(c) == d
  {
    (('0' as int) + d) as char
  }

  function DigitValue(c: char): int
  {
    (c as int) - ('0' as int)
  }

  predicate AllDigits(s: string)
  {
    forall i :: 0 <= i < |s| ==> '0' <= s[i] <= '9'
  }

  function Value(s: string): (n: nat)
    requires AllDigits(s)
  {
    if s == "" then 0 else Value(s[..|s| - 1]) * 10 + DigitValue(s[|s| - 1])
  }

  function FormatNat(n: nat): (s: string)
    ensures s != "" && AllDigits(s) && Value(s) == n
  {
    if n < 10 then [Digit(n)]
    else
      var s := FormatNat(n / 10) + [Digit(n % 10)];
      assert s[..|s| - 1] == FormatNat(n / 10);
      s
  }

  function FormatInt(n: int): (s: string)
    ensures s != "" && forall i :: 0 <= i < |s| ==> s[i] == '-' || '0' <= s[i] <= '9'
  {
    if n < 0 then "-" + FormatNat(-n) else FormatNat(n)
  }

  /** A sign is optional, a digit is not, and the value must fit 64 bits. */
  function ParseInt64(s: string): Option<int>
  {
    var digits := if s != "" && (s[0] == '+' || s[0] == '-') then s[1..] else s;
    if digits == "" || !AllDigits(digits) then None
    else
      var n := (if s[0] == '-' then -1 else 1) * Value(digits);
      if MIN_INT64 <= n <= MAX_INT64 then Some(n) else None
  }

  lemma ParseAfterFormat(n: int)
    requires MIN_INT64 <= n <= MAX_INT64
    ensures ParseInt64(FormatInt(n)) == Some(n)
  {
    if n < 0 {
      assert FormatInt(n)[1..] == FormatNat(-n);
    }
  }

  /** A sign, possibly none, and at least one digit. */
  predicate IsNumeral(sign: string, digits: string)
  {
    (sign == "" || sign == "+" || sign == "-") && digits != "" && AllDigits(digits)
  }

  function SignedValue(sign: string, digits: string): int
    requires IsNumeral(sign, digits)
  {
    if sign == "-" then 0 - Value(digits) else Value(digits)
  }

  /** A numeral is parsed exactly if its value fits 64 bits, and to that value. */
  lemma NumeralIsParsed(sign: string, digits: string)
    requires IsNumeral(sign, digits)
    ensures var n := SignedValue(sign, digits);
            ParseInt64(sign + digits) == if MIN_INT64 <= n <= MAX_INT64 then Some(n) else None
  {
    hide Value;
    var s := sign + digits;
    if sign == "" {
      assert s == digits && '0' <= s[0] <= '9';
    } else {
      assert s[0] == sign[0] && s[1..] == digits;
    }
  }

  /** Nothing but numerals is parsed. */
  lemma ParsedIsNumeral(s: string) returns (sign: string, digits: string)
    requires ParseInt64(s).Some?
    ensures IsNumeral(sign, digits) && s == sign + digits
  {
    hide Value;
    if s[0] == '+' || s[0] == '-' {
      sign, digits := [s[0]], s[1..];
    } else {
      sign, digits := "", s;
    }
  }
}
