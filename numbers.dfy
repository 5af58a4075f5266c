/**
 * The .NET number and boolean formats the resolver depends on: `int.Parse`,
 * `bool.Parse` and their `ToString` counterparts, as partial parsers over text.
 */
module Numbers {
  import opened Wrappers

  /** C#'s `int`. */
  type Int32 = i: int | -0x8000_0000 <= i < 0x8000_0000

  predicate IsDigit(c: char) {
    '0' <= c <= '9'
  }

  predicate AllDigits(s: string) {
    forall k :: 0 <= k < |s| ==> IsDigit(s[k])
  }

  /** The number a run of decimal digits denotes, most significant digit first. */
  function DigitsValue(s: string): nat
    requires AllDigits(s)
  {
    if s == [] then 0 else DigitsValue(s[..|s| - 1]) * 10 + (s[|s| - 1] as int - '0' as int)
  }

  /**
   * `int.Parse`: an optional sign followed by at least one decimal digit, and a
   * value within the 32-bit range; anything else fails.
   */
  function ParseInt(s: string): Option<Int32>
  {
    var negative := |s| > 0 && s[0] == '-';
    var digits := if |s| > 0 && (s[0] == '-' || s[0] == '+') then s[1..] else s;
    if digits == [] || !AllDigits(digits) then None
    else
      var n: int := if negative then -(DigitsValue(digits) as int) else DigitsValue(digits);
      if -0x8000_0000 <= n < 0x8000_0000 then Some(n) else None
  }

  function DigitChar(d: nat): char
    requires d < 10
  {
    ('0' as int + d) as char
  }

  /** Shortest decimal text of a natural number. */
  function NatText(n: nat): string
  {
    if n < 10 then [DigitChar(n)] else NatText(n / 10) + [DigitChar(n % 10)]
  }

  /** `Int32.ToString()` in the invariant culture. */
  function IntText(i: Int32): string
  {
    if i < 0 then "-" + NatText(-(i as int)) else NatText(i)
  }

  lemma {:induction false} NatTextDigits(n: nat)
    ensures |NatText(n)| > 0 && AllDigits(NatText(n)) && DigitsValue(NatText(n)) == n
  {
    if n >= 10 {
      NatTextDigits(n / 10);
      var t := NatText(n);
      assert t[..|t| - 1] == NatText(n / 10);
    }
  }

  /** `int.Parse` reads back every number `ToString` writes. */
  lemma IntTextRoundTrip(i: Int32)
    ensures ParseInt(IntText(i)) == Some(i)
  {
    NatTextDigits(if i < 0 then -(i as int) else i);
    if i < 0 {
      assert IntText(i)[1..] == NatText(-(i as int));
    }
  }

  /** A number with a leading plus sign or leading zeros parses to the same value. */
  lemma ParseIntIgnoresPlusAndZeros(i: Int32, zeros: nat)
    requires i >= 0
    ensures ParseInt("+" + Zeros(zeros) + IntText(i)) == Some(i)
    ensures ParseInt(Zeros(zeros) + IntText(i)) == Some(i)
  {
    NatTextDigits(i);
    ZerosValue(zeros, IntText(i));
    assert ("+" + Zeros(zeros) + IntText(i))[1..] == Zeros(zeros) + IntText(i);
  }

  function Zeros(n: nat): string
  {
    seq(n, _ => '0')
  }

  lemma {:induction false} ZerosValue(n: nat, s: string)
    requires AllDigits(s)
    ensures AllDigits(Zeros(n) + s) && DigitsValue(Zeros(n) + s) == DigitsValue(s)
  {
    if s == [] {
      assert Zeros(n) + s == Zeros(n);
      if n > 0 {
        ZerosValue(n - 1, s);
        assert Zeros(n)[..n - 1] == Zeros(n - 1) + s;
      }
    } else {
      var init := s[..|s| - 1];
      ZerosValue(n, init);
      assert (Zeros(n) + s)[..|Zeros(n) + s| - 1] == Zeros(n) + init;
    }
  }

  function LowerAscii(c: char): char
  {
    if 'A' <= c <= 'Z' then (c as int + 32) as char else c
  }

  /** Ordinal comparison ignoring the case of ASCII letters. */
  predicate EqualsIgnoreCase(s: string, t: string)
  {
    |s| == |t| && forall k :: 0 <= k < |s| ==> LowerAscii(s[k]) == LowerAscii(t[k])
  }

  /** `bool.Parse`: "true" or "false" in any letter case; anything else fails. */
  function ParseBool(s: string): Option<bool>
  {
    if EqualsIgnoreCase(s, "true") then Some(true)
    else if EqualsIgnoreCase(s, "false") then Some(false)
    else None
  }

  /** `Boolean.ToString()`, which `bool.Parse` reads back. */
  function BoolText(b: bool): (t: string)
    ensures ParseBool(t) == Some(b)
  {
    if b then "True" else "False"
  }

  /** `bool.Parse` accepts exactly two spellings up to case, and never both. */
  lemma ParseBoolCases(s: string)
    ensures ParseBool(s) == Some(true) <==> EqualsIgnoreCase(s, "true")
    ensures ParseBool(s) == Some(false) <==> EqualsIgnoreCase(s, "false")
    ensures ParseBool(s).None? ==> !EqualsIgnoreCase(s, "true") && !EqualsIgnoreCase(s, "false")
  {
    if EqualsIgnoreCase(s, "true") {
      assert LowerAscii(s[0]) == 't';
      assert !EqualsIgnoreCase(s, "false");
    }
  }

  /** The texts the sample configurations use parse as expected. */
  lemma ParsesSampleTexts()
    ensures ParseInt("321") == Some(321) && ParseInt("123") == Some(123)
    ensures ParseBool("false") == Some(false) && ParseBool("true") == Some(true)
  {
    assert NatText(32) == NatText(3) + [DigitChar(2)];
    assert NatText(321) == NatText(32) + [DigitChar(1)];
    assert IntText(321) == "321";
    IntTextRoundTrip(321);
    assert NatText(12) == NatText(1) + [DigitChar(2)];
    assert NatText(123) == NatText(12) + [DigitChar(3)];
    assert IntText(123) == "123";
    IntTextRoundTrip(123);
    assert !EqualsIgnoreCase("false", "true");
  }
}
