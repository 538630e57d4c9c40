/**
 The revision text of a stored profile: the canonical spelling of a 128-bit UUID
 (section 4 of RFC 9562) and the test `str(UUID(value)) == value` that recognises it.
 */
module Uuid {
  import opened Wrappers

  function Pow16(k: nat): (p: nat)
    ensures p >= 1
  {
    if k == 0 then 1 else 16 * Pow16(k - 1)
  }

  const HEX := "0123456789abcdef"

  predicate IsLowerHex(c: char) { '0' <= c <= '9' || 'a' <= c <= 'f' }

  predicate LowerHex(h: string) { forall i :: 0 <= i < |h| ==> IsLowerHex(h[i]) }

  function DigitValue(c: char): (d: nat)
    requires IsLowerHex(c)
    ensures d < 16 && HEX[d] == c
  {
    if '0' <= c <= '9' then c as int - '0' as int else c as int - 'a' as int + 10
  }

  /** `'%0<width>x' % n`: the last `width` hexadecimal digits, most significant first. */
  function Hex(n: nat, width: nat): (h: string)
    ensures |h| == width && LowerHex(h)
  {
    if width == 0 then "" else Hex(n / 16, width - 1) + [HEX[n % 16]]
  }

  /** `int(h, 16)` on lower-case digits. */
  function Value(h: string): (n: nat)
    requires LowerHex(h)
    ensures n < Pow16(|h|)
  {
    if h == "" then 0 else 16 * Value(h[..|h| - 1]) + DigitValue(h[|h| - 1])
  }

  lemma {:induction false} ValueOfHex(n: nat, width: nat)
    requires n < Pow16(width)
    ensures Value(Hex(n, width)) == n
  {
    if width > 0 {
      ValueOfHex(n / 16, width - 1);
      var h := Hex(n, width);
      assert h[..|h| - 1] == Hex(n / 16, width - 1);
      DigitOfHex(n % 16);
    }
  }

  lemma DigitOfHex(d: nat)
    requires d < 16
    ensures IsLowerHex(HEX[d]) && DigitValue(HEX[d]) == d
  {
  }

  lemma LastDigit(n: nat, d: nat)
    requires d < 16
    ensures (16 * n + d) / 16 == n && (16 * n + d) % 16 == d
  {
  }

  lemma {:induction false} HexOfValue(h: string)
    requires LowerHex(h)
    ensures Hex(Value(h), |h|) == h
  {
    if h != "" {
      var front, last := h[..|h| - 1], h[|h| - 1];
      HexOfValue(front);
      LastDigit(Value(front), DigitValue(last));
      assert h == front + [last];
    }
  }

  /** Eight, four, four, four and twelve digits separated by hyphens. */
  function Hyphenate(h: string): (text: string)
    requires |h| == 32
    ensures |text| == 36
  {
    h[..8] + "-" + h[8..12] + "-" + h[12..16] + "-" + h[16..20] + "-" + h[20..]
  }

  /** `str(UUID(int=n))`. */
  function Format(n: nat): (text: string)
    ensures |text| == 36
  {
    Hyphenate(Hex(n, 32))
  }

  predicate IsHyphenAt(i: int) { i == 8 || i == 13 || i == 18 || i == 23 }

  /** The canonical text form of section 4 of RFC 9562, in lower case. */
  predicate Canonical(text: string) {
    && |text| == 36
    && forall i :: 0 <= i < 36 ==>
      if IsHyphenAt(i) then text[i] == '-' else IsLowerHex(text[i])
  }

  /** `text.replace('-', '')`. */
  function StripHyphens(text: string): string {
    if text == "" then ""
    else if text[0] == '-' then StripHyphens(text[1..])
    else [text[0]] + StripHyphens(text[1..])
  }

  lemma {:induction false} StripConcat(a: string, b: string)
    ensures StripHyphens(a + b) == StripHyphens(a) + StripHyphens(b)
  {
    if a == "" {
      assert a + b == b;
    } else {
      StripConcat(a[1..], b);
      assert (a + b)[1..] == a[1..] + b && (a + b)[0] == a[0];
      var front, back := StripHyphens(a[1..]), StripHyphens(b);
      assert [a[0]] + (front + back) == [a[0]] + front + back;
    }
  }

  lemma {:induction false} StripHex(h: string)
    requires LowerHex(h)
    ensures StripHyphens(h) == h
  {
    if h != "" {
      StripHex(h[1..]);
    }
  }

  lemma StripGroup(h: string, rest: string)
    requires LowerHex(h)
    ensures StripHyphens(h + ("-" + rest)) == h + StripHyphens(rest)
  {
    StripConcat(h, "-" + rest);
    StripHex(h);
    assert ("-" + rest)[1..] == rest;
  }

  lemma StripHyphenate(h: string)
    requires |h| == 32 && LowerHex(h)
    ensures StripHyphens(Hyphenate(h)) == h
  {
    var e := h[20..];
    var de := h[16..20] + ("-" + e);
    var cde := h[12..16] + ("-" + de);
    var bcde := h[8..12] + ("-" + cde);
    StripHex(e);
    StripGroup(h[16..20], e);
    StripGroup(h[12..16], de);
    StripGroup(h[8..12], cde);
    StripGroup(h[..8], bcde);
    HyphenateGroups(h);
    GroupsOf(h);
  }

  lemma HyphenateGroups(h: string)
    requires |h| == 32
    ensures Hyphenate(h) ==
            h[..8] + ("-" + (h[8..12] + ("-" + (h[12..16] + ("-" + (h[16..20] + ("-" + h[20..])))))))
  {
  }

  lemma GroupsOf(h: string)
    requires |h| == 32
    ensures h == h[..8] + (h[8..12] + (h[12..16] + (h[16..20] + h[20..])))
  {
  }

  lemma CanonicalIsHyphenated(text: string) returns (h: string)
    requires Canonical(text)
    ensures |h| == 32 && LowerHex(h) && Hyphenate(h) == text
  {
    h := text[..8] + text[9..13] + text[14..18] + text[19..23] + text[24..];
    assert h[..8] == text[..8];
    assert h[8..12] == text[9..13];
    assert h[12..16] == text[14..18];
    assert h[16..20] == text[19..23];
    assert h[20..] == text[24..];
    assert text[8..9] == text[13..14] == text[18..19] == text[23..24] == "-";
  }

  function Lower(c: char): char {
    if 'A' <= c <= 'F' then (c as int + 32) as char else c
  }

  function LowerAll(s: string): (t: string)
    ensures |t| == |s|
  {
    seq(|s|, i requires 0 <= i < |s| => Lower(s[i]))
  }

  /** `UUID(text).int` for text written with hexadecimal digits of either case and hyphens. */
  function Parse(text: string): (r: Option<nat>)
    ensures r.Some? ==> r.value < Pow16(32)
  {
    var digits := LowerAll(StripHyphens(text));
    if |digits| == 32 && LowerHex(digits) then Some(Value(digits)) else None
  }

  /** `str(UUID(value)) == value`. */
  predicate ValidRevision(text: string) {
    Parse(text).Some? && Format(Parse(text).value) == text
  }

  lemma ParseOfFormat(n: nat)
    requires n < Pow16(32)
    ensures Parse(Format(n)) == Some(n)
  {
    StripHyphenate(Hex(n, 32));
    assert LowerAll(Hex(n, 32)) == Hex(n, 32);
    ValueOfHex(n, 32);
  }

  /** Printing meets the standard, and every canonical text is the print of its value. */
  lemma FormatIsCanonical(n: nat)
    ensures Canonical(Format(n))
  {
  }

  lemma CanonicalIsFormat(text: string) returns (n: nat)
    requires Canonical(text)
    ensures n < Pow16(32) && Format(n) == text
  {
    var h := CanonicalIsHyphenated(text);
    n := Value(h);
    HexOfValue(h);
  }

  /** The comparison accepts exactly the canonical spellings. */
  lemma ValidRevisionIsCanonical(text: string)
    ensures ValidRevision(text) <==> Canonical(text)
  {
    if ValidRevision(text) {
      FormatIsCanonical(Parse(text).value);
    }
    if Canonical(text) {
      var n := CanonicalIsFormat(text);
      ParseOfFormat(n);
    }
  }

  /**
   The parser of the standard library accepts more spellings than `Parse` (braces, a `urn:uuid:`
   prefix, digit separators). Whatever else a parser accepts, the comparison decides the same.
   */
  ghost predicate ReadsCanonical(parse: string -> Option<nat>) {
    && (forall n: nat :: n < Pow16(32) ==> parse(Format(n)) == Some(n))
    && (forall text :: parse(text).Some? ==> parse(text).value < Pow16(32))
  }

  lemma LenientParserDecidesTheSame(parse: string -> Option<nat>, text: string)
    requires ReadsCanonical(parse)
    ensures (parse(text).Some? && Format(parse(text).value) == text) <==> ValidRevision(text)
  {
    ValidRevisionIsCanonical(text);
    if parse(text).Some? && Format(parse(text).value) == text {
      FormatIsCanonical(parse(text).value);
    }
    if Canonical(text) {
      var n := CanonicalIsFormat(text);
    }
  }
}
