// Decimal numerals and text cut at separators.
module Text {

  const DIGITS := "0123456789"

  predicate IsDigit(c: char) {
    '0' <= c <= '9'
  }

  predicate AllDigits(s: string) {
    forall i :: 0 <= i < |s| ==> IsDigit(s[i])
  }

  function Decimal(n: nat): (s: string)
    ensures s != "" && AllDigits(s)
  {
    if n < 10 then [DIGITS[n]] else Decimal(n / 10) + [DIGITS[n % 10]]
  }

  function DigitValue(c: char): nat
    requires IsDigit(c)
  {
    c as int - '0' as int
  }

  function Number(s: string): nat
    requires AllDigits(s)
  {
    if s == "" then 0 else Number(s[..|s| - 1]) * 10 + DigitValue(s[|s| - 1])
  }

  lemma {:induction false} NumberOfDecimal(n: nat)
    ensures Number(Decimal(n)) == n
  {
    if n >= 10 {
      NumberOfDecimal(n / 10);
      assert Decimal(n)[..|Decimal(n)| - 1] == Decimal(n / 10);
    } else {
      assert Number([DIGITS[n]][..0]) == 0;
    }
  }

  // The usual way to write n: digits, and no zero in front of others.
  ghost predicate Numeral(d: string, n: nat) {
    d != "" && AllDigits(d) && Number(d) == n && (d[0] == '0' ==> |d| == 1)
  }

  lemma {:induction false} DecimalIsNumeral(n: nat)
    ensures Numeral(Decimal(n), n)
  {
    NumberOfDecimal(n);
    if n >= 10 {
      DecimalIsNumeral(n / 10);
      assert Decimal(n)[0] == Decimal(n / 10)[0];
      if n / 10 < 10 {
        assert Decimal(n / 10) == [DIGITS[n / 10]];
      }
    }
  }

  lemma {:induction false} NumeralIsDecimal(d: string, n: nat)
    requires Numeral(d, n)
    ensures d == Decimal(n)
    decreases |d|
  {
    var init, last := d[..|d| - 1], d[|d| - 1];
    assert d == init + [last] && DIGITS[DigitValue(last)] == last;
    if init == "" {
      assert Number(init) == 0;
    } else {
      assert n / 10 == Number(init) && n % 10 == DigitValue(last);
      assert |init| == 1 ==> Number(init[..0]) == 0 && Number(init) == DigitValue(init[0]);
      NumeralIsDecimal(init, n / 10);
    }
  }

  lemma DecimalInjective(m: nat, n: nat)
    requires Decimal(m) == Decimal(n)
    ensures m == n
  {
    NumberOfDecimal(m);
    NumberOfDecimal(n);
  }

  // Text without the separator is cut at its first occurrence in only one way.
  lemma FirstSeparator(a: string, b: string, c: char, x: string, y: string)
    requires c !in a && c !in b && a + [c] + x == b + [c] + y
    ensures a == b && x == y
  {
    var s, t := a + [c] + x, b + [c] + y;
    assert s[|a|] == c && t[|b|] == c;
    assert forall i :: 0 <= i < |a| ==> s[i] == a[i];
    assert forall i :: 0 <= i < |b| ==> t[i] == b[i];
    assert |a| == |b|;
    assert a == s[..|a|] && b == t[..|b|];
    assert x == s[|a| + 1..] && y == t[|b| + 1..];
  }

  lemma LastSeparator(x: string, y: string, c: char, a: string, b: string)
    requires c !in a && c !in b && x + [c] + a == y + [c] + b
    ensures x == y && a == b
  {
    var s, t := x + [c] + a, y + [c] + b;
    assert s[|x|] == c && t[|y|] == c;
    assert forall i :: |x| < i < |s| ==> s[i] == a[i - |x| - 1];
    assert forall i :: |y| < i < |t| ==> t[i] == b[i - |y| - 1];
    assert |x| == |y|;
    assert x == s[..|x|] && y == t[..|y|];
    assert a == s[|x| + 1..] && b == t[|y| + 1..];
  }

  // ------------------------------------------------------------------------------------------
  // Trimming, case, and numbers as the standard library parses them
  // ------------------------------------------------------------------------------------------

  predicate IsWhite(c: char) {
    || '\U{9}' <= c <= '\U{D}' || c == ' ' || c == '\U{85}' || c == '\U{A0}' || c == '\U{1680}'
    || '\U{2000}' <= c <= '\U{200A}' || c == '\U{2028}' || c == '\U{2029}' || c == '\U{202F}' || c == '\U{205F}'
    || c == '\U{3000}'
  }

  function TrimStart(s: string): string {
    if s != "" && IsWhite(s[0]) then TrimStart(s[1..]) else s
  }

  function TrimEnd(s: string): string {
    if s != "" && IsWhite(s[|s| - 1]) then TrimEnd(s[..|s| - 1]) else s
  }

  function Trim(s: string): string {
    TrimEnd(TrimStart(s))
  }

  function LowerChar(c: char): char {
    if 'A' <= c <= 'Z' then (c as int + 32) as char else c
  }

  function Lower(s: string): string {
    seq(|s|, i requires 0 <= i < |s| => LowerChar(s[i]))
  }

  ghost predicate AllWhite(s: string) {
    forall i :: 0 <= i < |s| ==> IsWhite(s[i])
  }

  // The blanks, by code point: the Unicode characters with the property White_Space.
  lemma BlankCodePoints(c: char)
    ensures IsWhite(c) <==> c as int in {
              0x9, 0xA, 0xB, 0xC, 0xD, 0x20, 0x85, 0xA0, 0x1680, 0x2000, 0x2001, 0x2002, 0x2003, 0x2004, 0x2005,
              0x2006, 0x2007, 0x2008, 0x2009, 0x200A, 0x2028, 0x2029, 0x202F, 0x205F, 0x3000 }
  {
  }

  // Trimming takes blanks off both ends, all of them and nothing else.
  lemma TrimMeaning(s: string) returns (a: string, b: string)
    ensures s == a + Trim(s) + b && AllWhite(a) && AllWhite(b)
    ensures Trim(s) != "" ==> !IsWhite(Trim(s)[0]) && !IsWhite(Trim(s)[|Trim(s)| - 1])
  {
    a := TrimmedStart(s);
    b := TrimmedEnd(TrimStart(s));
    assert TrimStart(s) == Trim(s) + b;
    assert a + (Trim(s) + b) == a + Trim(s) + b;
    assert Trim(s) != "" ==> Trim(s)[0] == TrimStart(s)[0];
  }

  lemma {:induction false} TrimmedStart(s: string) returns (a: string)
    ensures s == a + TrimStart(s) && AllWhite(a)
    ensures TrimStart(s) != "" ==> !IsWhite(TrimStart(s)[0])
  {
    if s != "" && IsWhite(s[0]) {
      a := TrimmedStart(s[1..]);
      a := [s[0]] + a;
    } else {
      a := "";
    }
  }

  lemma {:induction false} TrimmedEnd(s: string) returns (b: string)
    ensures s == TrimEnd(s) + b && AllWhite(b)
    ensures TrimEnd(s) != "" ==> !IsWhite(TrimEnd(s)[|TrimEnd(s)| - 1])
  {
    if s != "" && IsWhite(s[|s| - 1]) {
      b := TrimmedEnd(s[..|s| - 1]);
      b := b + [s[|s| - 1]];
      assert s == s[..|s| - 1] + [s[|s| - 1]];
    } else {
      b := "";
    }
  }

  // Lowering changes the 26 letters, each to its small form, and nothing else.
  lemma LowerMeaning(s: string, i: nat)
    requires i < |s|
    ensures var upper, lower := "ABCDEFGHIJKLMNOPQRSTUVWXYZ", "abcdefghijklmnopqrstuvwxyz";
            && |Lower(s)| == |s|
            && (if s[i] in upper then exists k :: 0 <= k < 26 && s[i] == upper[k] && Lower(s)[i] == lower[k]
                else Lower(s)[i] == s[i])
  {
    if 'A' <= s[i] <= 'Z' {
      var k := s[i] as int - 'A' as int;
      Letters(k);
    } else {
      assert forall k: nat :: k < 26 ==> 'A' <= "ABCDEFGHIJKLMNOPQRSTUVWXYZ"[k] <= 'Z';
    }
  }

  lemma Letters(k: nat)
    requires k < 26
    ensures "ABCDEFGHIJKLMNOPQRSTUVWXYZ"[k] == ('A' as int + k) as char
    ensures "abcdefghijklmnopqrstuvwxyz"[k] == ('a' as int + k) as char
  {
  }

  const U64_MAX: nat := 0xFFFF_FFFF_FFFF_FFFF

  // Digits with an optional plus sign, within 64 bits.
  function ParseU64(s: string): (n: nat)
    requires CanParseU64(s)
    ensures n <= U64_MAX
  {
    Number(Unsigned(s))
  }

  predicate CanParseU64(s: string) {
    Unsigned(s) != "" && AllDigits(Unsigned(s)) && Number(Unsigned(s)) <= U64_MAX
  }

  function Unsigned(s: string): string {
    if s != "" && s[0] == '+' then s[1..] else s
  }

  // Numbers up to 2^64 - 1 are read back, with a plus sign or without.
  lemma ParseDecimal(n: nat)
    requires n < 0x1_0000_0000_0000_0000
    ensures CanParseU64(Decimal(n)) && ParseU64(Decimal(n)) == n
    ensures CanParseU64("+" + Decimal(n)) && ParseU64("+" + Decimal(n)) == n
  {
    NumberOfDecimal(n);
    assert IsDigit(Decimal(n)[0]);
    assert Unsigned("+" + Decimal(n)) == Decimal(n);
  }
}
