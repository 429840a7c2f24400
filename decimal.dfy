/** How a JavaScript integer-valued number renders with `toString()`, and its inverse. */
module Decimal {
  import opened Wrappers

  predicate IsDigit(c: char) { '0' <= c <= '9' }

  predicate IsDigitString(s: string) { forall i :: 0 <= i < |s| ==> IsDigit(s[i]) }

  function DigitChar(d: nat): (c: char)
    requires d < 10
    ensures IsDigit(c) && c as int - '0' as int == d
  {
    ('0' as int + d) as char
  }

  /** The decimal digits of `n`, most significant first, without leading zeros. */
  function Digits(n: nat): (s: string)
    ensures |s| >= 1 && IsDigitString(s)
    ensures s[0] == '0' <==> n == 0
    decreases n
  {
    if n < 10 then [DigitChar(n)] else Digits(n / 10) + [DigitChar(n % 10)]
  }

  /** The number a string of decimal digits denotes. */
  function Value(s: string): nat
    requires IsDigitString(s)
  {
    if s == [] then 0 else Value(s[..|s| - 1]) * 10 + (s[|s| - 1] as int - '0' as int)
  }

  lemma {:induction false} ValueOfDigits(n: nat)
    ensures Value(Digits(n)) == n
    decreases n
  {
    if n >= 10 {
      ValueOfDigits(n / 10);
      var s := Digits(n / 10) + [DigitChar(n % 10)];
      assert s[..|s| - 1] == Digits(n / 10);
    }
  }

  /** `Number.prototype.toString()` on an integer: an optional minus sign, then the digits. */
  function IntToString(v: int): (s: string)
    ensures |s| >= 1
    ensures s[0] == '-' <==> v < 0
    ensures v >= 0 ==> IsDigitString(s)
    ensures v < 0 ==> IsDigitString(s[1..])
  {
    if v < 0 then "-" + Digits(-v) else Digits(v)
  }

  /** Reads back an optional minus sign followed by at least one digit. */
  function ParseInteger(s: string): Option<int>
  {
    if |s| > 1 && s[0] == '-' && IsDigitString(s[1..]) then Some(-(Value(s[1..]) as int))
    else if |s| > 0 && IsDigitString(s) then Some(Value(s))
    else None
  }

  lemma IntToStringRoundTrip(v: int)
    ensures ParseInteger(IntToString(v)) == Some(v)
  {
    if v < 0 {
      assert IntToString(v)[1..] == Digits(-v);
      ValueOfDigits(-v);
    } else {
      ValueOfDigits(v);
    }
  }
}
