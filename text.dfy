/**
 * Characters and digit strings as the .NET runtime treats them: `char.IsWhiteSpace`,
 * upper-casing, fixed-width decimal and hexadecimal formatting and the matching parse.
 */
module Text {

  /** `char.IsWhiteSpace`: the Unicode space separators, line and paragraph separators and the
      control characters U+0009..U+000D and U+0085. */
  predicate IsWhiteSpace(c: char) {
    var u := c as int;
    (0x09 <= u <= 0x0D) || u == 0x20 || u == 0x85 || u == 0xA0 || u == 0x1680
    || (0x2000 <= u <= 0x200A) || u == 0x2028 || u == 0x2029 || u == 0x202F
    || u == 0x205F || u == 0x3000
  }

  /** `string.IsNullOrWhiteSpace` for a non-null string. */
  predicate IsBlank(s: string) {
    forall i :: 0 <= i < |s| ==> IsWhiteSpace(s[i])
  }

  /** The UTF-16 code units a character takes: two (a surrogate pair) outside the Basic
      Multilingual Plane, one inside it. */
  function Utf16Units(c: char): nat {
    if c as int >= 0x10000 then 2 else 1
  }

  /** `string.Length`: .NET strings are UTF-16, so the length counts code units, not
      characters. */
  function Utf16Length(s: string): (n: nat)
    ensures |s| <= n <= 2 * |s|
    decreases |s|
  {
    if s == [] then 0 else Utf16Length(s[..|s| - 1]) + Utf16Units(s[|s| - 1])
  }

  /** A text inside the Basic Multilingual Plane is as long in code units as in characters. */
  lemma {:induction false} Utf16LengthOfBmp(s: string)
    requires forall i :: 0 <= i < |s| ==> s[i] as int < 0x10000
    ensures Utf16Length(s) == |s|
    decreases |s|
  {
    if s != [] {
      Utf16LengthOfBmp(s[..|s| - 1]);
    }
  }

  predicate IsDecimalDigit(c: char) {
    '0' <= c <= '9'
  }

  predicate IsLowerHexDigit(c: char) {
    IsDecimalDigit(c) || 'a' <= c <= 'f'
  }

  predicate IsUpperHexDigit(c: char) {
    IsDecimalDigit(c) || 'A' <= c <= 'F'
  }

  /** Upper-casing of one character; only the ASCII letters are mapped. */
  function ToUpperChar(c: char): (u: char)
    ensures 'a' <= c <= 'z' ==> 'A' <= u <= 'Z' && u as int == c as int - 32
    ensures !('a' <= c <= 'z') ==> u == c
  {
    if 'a' <= c <= 'z' then (c as int - 32) as char else c
  }

  /** `string.ToUpper()`, character by character. */
  function ToUpper(s: string): (r: string)
    ensures |r| == |s|
    ensures forall i :: 0 <= i < |s| ==> r[i] == ToUpperChar(s[i])
  {
    if s == [] then [] else ToUpper(s[..|s| - 1]) + [ToUpperChar(s[|s| - 1])]
  }

  lemma {:induction false} UpperOfLowerHex(s: string)
    requires forall i :: 0 <= i < |s| ==> IsLowerHexDigit(s[i])
    ensures forall i :: 0 <= i < |s| ==> IsUpperHexDigit(ToUpper(s)[i])
  {
    forall i | 0 <= i < |s| ensures IsUpperHexDigit(ToUpper(s)[i]) {
      assert ToUpper(s)[i] == ToUpperChar(s[i]);
    }
  }

  function Pow(radix: nat, k: nat): (p: nat)
    ensures radix > 0 ==> p > 0
  {
    if k == 0 then 1 else radix * Pow(radix, k - 1)
  }

  /** The character for digit `d` in base 2..16, lower-case as .NET's "x" and "D" formats print it. */
  function DigitChar(d: nat): (c: char)
    requires d < 16
    ensures d < 10 ==> IsDecimalDigit(c)
    ensures IsLowerHexDigit(c)
  {
    if d < 10 then ('0' as int + d) as char else ('a' as int + d - 10) as char
  }

  /** The value of a digit character; 0 for anything that is not a digit. */
  function CharValue(c: char): nat {
    if '0' <= c <= '9' then c as int - '0' as int
    else if 'a' <= c <= 'f' then c as int - 'a' as int + 10
    else if 'A' <= c <= 'F' then c as int - 'A' as int + 10
    else 0
  }

  /** `n` written in base `radix` with exactly `width` digits, most significant first,
      zero-padded on the left (as `{n:D4}` or `{n:x8}` print a value that fits). */
  function Digits(n: nat, width: nat, radix: nat): (s: string)
    requires 2 <= radix <= 16
    decreases width
    ensures |s| == width
    ensures forall i :: 0 <= i < |s| ==> IsLowerHexDigit(s[i])
    ensures radix <= 10 ==> forall i :: 0 <= i < |s| ==> IsDecimalDigit(s[i])
  {
    if width == 0 then [] else Digits(n / radix, width - 1, radix) + [DigitChar(n % radix)]
  }

  /** The number a digit string spells in base `radix` (the parse that undoes `Digits`). */
  function Value(s: string, radix: nat): nat {
    if s == [] then 0 else Value(s[..|s| - 1], radix) * radix + CharValue(s[|s| - 1])
  }

  /** Formatting to `width` digits and parsing back gives the number, whenever it fits. */
  lemma {:induction false} DigitsRoundTrip(n: nat, width: nat, radix: nat)
    requires 2 <= radix <= 16
    requires n < Pow(radix, width)
    ensures Value(Digits(n, width, radix), radix) == n
    decreases width
  {
    if width > 0 {
      var q, d := n / radix, n % radix;
      var t := Digits(q, width - 1, radix);
      assert Digits(n, width, radix) == t + [DigitChar(d)];
      DivBelow(n, radix, Pow(radix, width - 1));
      DigitsRoundTrip(q, width - 1, radix);
      ValueSnoc(t, DigitChar(d), radix);
      assert CharValue(DigitChar(d)) == d;
      DivMod(n, radix);
    }
  }

  lemma ValueSnoc(t: string, c: char, radix: nat)
    ensures Value(t + [c], radix) == Value(t, radix) * radix + CharValue(c)
  {
    assert (t + [c])[..|t|] == t;
  }

  lemma DivMod(n: nat, radix: nat)
    requires radix > 0
    ensures (n / radix) * radix + n % radix == n
  {
  }

  lemma DivBelow(n: nat, radix: nat, p: nat)
    requires radix > 0 && n < radix * p
    ensures n / radix < p
  {
  }

  /** `int.ToString()` of a non-negative number: its decimal digits without padding. */
  function NatToString(n: nat): (s: string)
    ensures |s| > 0
    ensures forall i :: 0 <= i < |s| ==> IsDecimalDigit(s[i])
  {
    if n < 10 then [DigitChar(n)] else NatToString(n / 10) + [DigitChar(n % 10)]
  }

  lemma {:induction false} NatToStringRoundTrip(n: nat)
    ensures Value(NatToString(n), 10) == n
  {
    var s := NatToString(n);
    if n >= 10 {
      assert s[..|s| - 1] == NatToString(n / 10);
      NatToStringRoundTrip(n / 10);
      assert CharValue(DigitChar(n % 10)) == n % 10;
    } else {
      assert s[..0] == [];
      assert CharValue(DigitChar(n)) == n;
    }
  }
}
