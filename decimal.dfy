/**
 * Decimal text of integers, as JavaScript's `toString()` and
 * `toLocaleString('en-US')` write them, with the parser that reads the
 * plain form back.
 */
module Decimal {

  /** The decimal digit for 0..9. */
  function Digit(d: int): char
    requires 0 <= d < 10
  {
    ('0' as int + d) as char
  }

  /** The decimal text of a natural number, without leading zeros. */
  function NatToString(n: nat): string
    decreases n
  {
    if n < 10 then [Digit(n)] else NatToString(n / 10) + [Digit(n % 10)]
  }

  /** The decimal text of an integer, with a leading '-' when negative. */
  function IntToString(n: int): string {
    if n < 0 then "-" + NatToString(-n) else NatToString(n)
  }

  function DigitValue(c: char): int {
    if '0' <= c <= '9' then c as int - '0' as int else 0
  }

  /** Reads back a string of decimal digits. */
  function ParseNat(s: string): int
    decreases |s|
  {
    if s == [] then 0 else 10 * ParseNat(s[..|s| - 1]) + DigitValue(s[|s| - 1])
  }

  function ParseInt(s: string): int {
    if |s| > 0 && s[0] == '-' then -ParseNat(s[1..]) else ParseNat(s)
  }

  predicate AllDigits(s: string) {
    forall i :: 0 <= i < |s| ==> '0' <= s[i] <= '9'
  }

  lemma {:induction false} NatToStringRoundTrip(n: nat)
    ensures |NatToString(n)| > 0 && AllDigits(NatToString(n))
    ensures ParseNat(NatToString(n)) == n
  {
    if n >= 10 {
      NatToStringRoundTrip(n / 10);
      var s := NatToString(n);
      assert s == NatToString(n / 10) + [Digit(n % 10)];
      assert s[..|s| - 1] == NatToString(n / 10);
      assert DigitValue(s[|s| - 1]) == n % 10;
    }
  }

  /** Writing an integer in decimal and reading it back gives the integer; the text starts with a digit or '-'. */
  lemma IntToStringRoundTrip(n: int)
    ensures ParseInt(IntToString(n)) == n
    ensures IntToString(n) != []
    ensures IntToString(n)[0] == '-' || '0' <= IntToString(n)[0] <= '9'
  {
    if n < 0 {
      NatToStringRoundTrip(-n);
      assert IntToString(n)[1..] == NatToString(-n);
    } else {
      NatToStringRoundTrip(n);
    }
  }

  /** Digits grouped in threes from the right, separated by commas. */
  function Grouped(digits: string): string
    decreases |digits|
  {
    if |digits| <= 3 then digits
    else Grouped(digits[..|digits| - 3]) + "," + digits[|digits| - 3..]
  }

  /** `toLocaleString('en-US')` of an integer: the decimal digits grouped in threes, after a '-' when negative. */
  function LocaleString(n: int): string {
    if n < 0 then "-" + Grouped(NatToString(-n)) else Grouped(NatToString(n))
  }

  /** The text with every comma removed. */
  function StripCommas(s: string): string
    decreases |s|
  {
    if s == [] then [] else (if s[0] == ',' then [] else [s[0]]) + StripCommas(s[1..])
  }

  lemma {:induction false} StripCommasAppend(a: string, b: string)
    ensures StripCommas(a + b) == StripCommas(a) + StripCommas(b)
  {
    if a != [] {
      assert (a + b)[1..] == a[1..] + b;
      StripCommasAppend(a[1..], b);
    } else {
      assert a + b == b;
    }
  }

  lemma {:induction false} StripCommasDigits(s: string)
    requires AllDigits(s)
    ensures StripCommas(s) == s
  {
    if s != [] {
      StripCommasDigits(s[1..]);
      assert s == [s[0]] + s[1..];
    }
  }

  /** Removing the separators from grouped digits gives the digits back. */
  lemma {:induction false} GroupedStrips(digits: string)
    requires AllDigits(digits)
    ensures StripCommas(Grouped(digits)) == digits
  {
    if |digits| <= 3 {
      StripCommasDigits(digits);
    } else {
      DigitsSplit(digits, |digits| - 3);
      GroupedStrips(digits[..|digits| - 3]);
      GroupedStripsStep(digits);
    }
  }

  lemma {:induction false} GroupedStripsStep(digits: string)
    requires |digits| > 3 && AllDigits(digits[|digits| - 3..])
    requires StripCommas(Grouped(digits[..|digits| - 3])) == digits[..|digits| - 3]
    ensures StripCommas(Grouped(digits)) == digits
  {
    var head, tail := digits[..|digits| - 3], digits[|digits| - 3..];
    var g := Grouped(head);
    assert Grouped(digits) == g + ("," + tail);
    CommaThenDigits(tail);
    StripCommasAppend(g, "," + tail);
    assert head + tail == digits;
  }

  lemma DigitsSplit(s: string, k: nat)
    requires AllDigits(s) && k <= |s|
    ensures AllDigits(s[..k]) && AllDigits(s[k..])
  {
    assert forall i :: 0 <= i < k ==> s[..k][i] == s[i];
    assert forall i :: 0 <= i < |s| - k ==> s[k..][i] == s[k + i];
  }

  lemma CommaThenDigits(t: string)
    requires AllDigits(t)
    ensures StripCommas("," + t) == t
  {
    assert ("," + t)[0] == ',' && ("," + t)[1..] == t;
    StripCommasDigits(t);
  }

  /** The locale form reads back as the same integer once its separators are removed. */
  lemma LocaleStringReadsBack(n: int)
    ensures ParseInt(StripCommas(LocaleString(n))) == n
  {
    IntToStringRoundTrip(n);
    if n < 0 {
      NatToStringRoundTrip(-n);
      GroupedStrips(NatToString(-n));
      StripCommasAppend("-", Grouped(NatToString(-n)));
      assert StripCommas("-") == "-";
    } else {
      NatToStringRoundTrip(n);
      GroupedStrips(NatToString(n));
    }
  }
}
