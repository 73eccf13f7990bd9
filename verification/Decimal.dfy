/** Base-10 integers as strings, as strconv formats and parses them. */
module Decimal {
  import opened Wrappers

  const INT64_MIN: int := -0x8000_0000_0000_0000
  const INT64_MAX: int := 0x7fff_ffff_ffff_ffff

  predicate IsDigit(c: char) { '0' <= c <= '9' }

  function DigitChar(d: nat): (c: char)
    requires d < 10
    ensures IsDigit(c) && DigitValue(c) == d
  {
    '0' + d as char
  }

  function DigitValue(c: char): (d: nat)
    requires IsDigit(c)
    ensures d < 10
  {
    c as int - '0' as int
  }

  predicate AllDigits(s: string) { forall i :: 0 <= i < |s| ==> IsDigit(s[i]) }

  function Digits(n: nat): (s: string)
    ensures |s| > 0 && AllDigits(s)
  {
    if n < 10 then [DigitChar(n)] else Digits(n / 10) + [DigitChar(n % 10)]
  }

  function Value(s: string): nat
    requires AllDigits(s)
  {
    if s == "" then 0 else 10 * Value(s[..|s| - 1]) + DigitValue(s[|s| - 1])
  }

  function FormatInt(v: int): string { if v < 0 then "-" + Digits(-v) else Digits(v) }

  /** An optional sign, at least one digit, nothing else, and a value that fits 64 bits. */
  function ParseInt(s: string): Option<int> {
    var signed := |s| > 0 && (s[0] == '-' || s[0] == '+');
    var digits := if signed then s[1..] else s;
    if digits == "" || !AllDigits(digits) then None
    else
      var n: int := Value(digits);
      var v := if signed && s[0] == '-' then -n else n;
      if INT64_MIN <= v <= INT64_MAX then Some(v) else None
  }

  lemma {:induction false} ValueOfDigits(n: nat)
    ensures Value(Digits(n)) == n
  {
    var s := Digits(n);
    if n < 10 {
      assert s[..0] == "";
    } else {
      assert s[..|s| - 1] == Digits(n / 10);
      ValueOfDigits(n / 10);
    }
  }

  lemma ParseOfFormat(v: int)
    requires INT64_MIN <= v <= INT64_MAX
    ensures ParseInt(FormatInt(v)) == Some(v)
  {
    var s := FormatInt(v);
    if v < 0 {
      ValueOfDigits(-v);
      assert s[1..] == Digits(-v);
    } else {
      ValueOfDigits(v);
      assert IsDigit(s[0]);
    }
  }
}
