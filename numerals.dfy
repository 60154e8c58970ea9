/**
  Digits: Python's `str(i)` for integers, the decimal reading that undoes it,
  and the value of a hexadecimal digit.
 */
module Numerals {
  import opened Wrappers

  predicate IsDigit(c: char) {
    '0' <= c <= '9'
  }

  predicate AllDigits(s: string) {
    forall i :: 0 <= i < |s| ==> IsDigit(s[i])
  }

  /** The value of a hexadecimal digit of either case. */
  function HexValue(c: char): (r: Option<int>)
    ensures r.Some? ==> 0 <= r.value < 16
  {
    if '0' <= c <= '9' then Some(c as int - '0' as int)
    else if 'a' <= c <= 'f' then Some(c as int - 'a' as int + 10)
    else if 'A' <= c <= 'F' then Some(c as int - 'A' as int + 10)
    else None
  }

  function DigitChar(d: int): (c: char)
    requires 0 <= d < 10
    ensures IsDigit(c)
  {
    ('0' as int + d) as char
  }

  /** The decimal digits of `n`, most significant first, without leading zeros. */
  function NatToString(n: nat): (s: string)
    ensures |s| >= 1 && AllDigits(s)
    ensures s[0] == '0' ==> n == 0
    decreases n
  {
    if n < 10 then [DigitChar(n)] else NatToString(n / 10) + [DigitChar(n % 10)]
  }

  /** `str(i)`: a minus sign before the digits of a negative number. */
  function IntToString(i: int): (s: string)
  {
    if i < 0 then "-" + NatToString(-i) else NatToString(i)
  }

  /** The number a run of decimal digits denotes. */
  function DigitsValue(s: string): nat
    requires AllDigits(s)
    decreases |s|
  {
    if s == [] then 0 else DigitsValue(s[..|s| - 1]) * 10 + (s[|s| - 1] as int - '0' as int)
  }

  /** Reads an optional minus sign followed by at least one digit. */
  function ParseInt(s: string): (r: Option<int>)
  {
    if |s| >= 2 && s[0] == '-' && AllDigits(s[1..]) then Some(0 - DigitsValue(s[1..]) as int)
    else if |s| >= 1 && AllDigits(s) then Some(DigitsValue(s))
    else None
  }

  /** Decimal text as `str` writes it: a digit run without a leading zero
      (unless it is "0" itself), after a minus sign only for a non-zero
      value. */
  predicate CanonicalInt(s: string) {
    if |s| >= 1 && s[0] == '-' then |s| >= 2 && s[1] != '0'
    else |s| >= 1 && (s[0] == '0' ==> |s| == 1)
  }

  /** `str(i)` is canonical, so it is the only text of `i` the reader admits
      in that form. */
  lemma IntToStringCanonical(i: int)
    ensures CanonicalInt(IntToString(i))
  {
    if i < 0 {
      var digits := NatToString(-i);
      assert IntToString(i) == "-" + digits;
      assert IntToString(i)[1] == digits[0];
    } else if i < 10 {
      assert IntToString(i) == [DigitChar(i)];
    } else {
      var s := NatToString(i);
      assert s[0] != '0';
    }
  }

  lemma {:induction false} DigitsValueOfNatToString(n: nat)
    ensures DigitsValue(NatToString(n)) == n
    decreases n
  {
    if n >= 10 {
      var s := NatToString(n);
      assert s[..|s| - 1] == NatToString(n / 10);
      DigitsValueOfNatToString(n / 10);
    }
  }

  /** Reading back the rendering of any integer gives that integer. */
  lemma ParseIntToString(i: int)
    ensures ParseInt(IntToString(i)) == Some(i)
  {
    var s := IntToString(i);
    if i < 0 {
      var digits := NatToString(-i);
      assert s == "-" + digits && s[1..] == digits;
      DigitsValueOfNatToString(-i);
      assert ParseInt(s) == Some(0 - DigitsValue(digits) as int);
    } else {
      assert IsDigit(s[0]);
      DigitsValueOfNatToString(i);
      assert ParseInt(s) == Some(DigitsValue(s));
    }
  }
}
