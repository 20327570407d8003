/**
 * `System.Guid`, modelled by the 128-bit number that its canonical text spells, with
 * `Guid.Empty` and `Guid.ToString()` (the "D" format: 32 lower-case hexadecimal digits
 * grouped 8-4-4-4-12 by hyphens).
 */
module Guids {
  import opened Text

  const GuidBound: nat := Pow(16, 32)

  type Guid = g: int | 0 <= g < GuidBound

  /** `Guid.Empty`, the all-zero value that FluentValidation's `NotEmpty` rejects. */
  const Empty: Guid := 0

  predicate IsHyphenPosition(i: int) {
    i == 8 || i == 13 || i == 18 || i == 23
  }

  /** The 32 hexadecimal digits of the value, most significant first. */
  function HexDigits(g: Guid): (h: string)
    ensures |h| == 32
    ensures forall i :: 0 <= i < 32 ==> IsLowerHexDigit(h[i])
  {
    Digits(g, 32, 16)
  }

  /** `Guid.ToString()`. */
  function ToText(g: Guid): (s: string)
    ensures |s| == 36
    ensures forall i :: 0 <= i < 36 ==> if IsHyphenPosition(i) then s[i] == '-' else IsLowerHexDigit(s[i])
    ensures s[..8] == HexDigits(g)[..8]
  {
    var h := HexDigits(g);
    h[..8] + "-" + h[8..12] + "-" + h[12..16] + "-" + h[16..20] + "-" + h[20..]
  }

  /** The hexadecimal digits of the text, hyphens removed, spell the value back. */
  lemma TextRoundTrip(g: Guid)
    ensures var s := ToText(g);
            Value(s[..8] + s[9..13] + s[14..18] + s[19..23] + s[24..], 16) == g
  {
    var s := ToText(g);
    var h := HexDigits(g);
    assert s[..8] == h[..8] && s[9..13] == h[8..12] && s[14..18] == h[12..16];
    assert s[19..23] == h[16..20] && s[24..] == h[20..];
    assert h[..8] + h[8..12] + h[12..16] + h[16..20] + h[20..] == h;
    DigitsRoundTrip(g, 32, 16);
  }
}
