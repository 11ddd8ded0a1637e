/**
 * The parts of Rust's standard library that the sumo viewer's core leans on,
 * written out: fixed-width integers, `str::trim`, ASCII case folding,
 * `str::contains`, `str::starts_with`, integer `FromStr`, decimal formatting
 * and byte-offset slicing of UTF-8 strings.
 */
module RustStd {
  import opened Wrappers

  type U8 = x: int | 0 <= x < 0x100
  type U32 = x: int | 0 <= x < 0x1_0000_0000

  const U8_MAX: nat := 0xff
  const U32_MAX: nat := 0xffff_ffff
  const I32_MIN: int := -0x8000_0000
  const I32_MAX: int := 0x7fff_ffff

  /** `u8::saturating_add(1)`. */
  function SaturatingInc(x: U8): U8 {
    if x < U8_MAX then x + 1 else x
  }

  /** `saturating_sub` on an unsigned integer: never goes below zero. */
  function SaturatingSub(a: nat, b: nat): nat {
    if a >= b then a - b else 0
  }

  // ---------------------------------------------------------------- digits

  /** `char::is_ascii_digit`. */
  predicate IsAsciiDigit(c: char) {
    '0' <= c <= '9'
  }

  predicate AllDigits(s: string) {
    forall i :: 0 <= i < |s| ==> IsAsciiDigit(s[i])
  }

  function DigitValue(c: char): nat
    requires IsAsciiDigit(c)
  {
    c as int - '0' as int
  }

  /** The decimal value of a run of ASCII digits (most significant first). */
  function DigitsValue(s: string): nat
    requires AllDigits(s)
  {
    if s == [] then 0 else DigitsValue(s[..|s| - 1]) * 10 + DigitValue(s[|s| - 1])
  }

  function DigitChar(d: nat): (c: char)
    requires d < 10
    ensures IsAsciiDigit(c) && DigitValue(c) == d
  {
    ('0' as int + d) as char
  }

  // ---------------------------------------------------------------- FromStr

  /**
   * `<uN as FromStr>::from_str` with `max` the largest value of the type:
   * an optional leading '+', then at least one ASCII digit, and a value
   * that fits; anything else is an error (`None`).
   */
  function ParseUnsigned(s: string, max: nat): Option<nat> {
    var d := if |s| > 0 && s[0] == '+' then s[1..] else s;
    if d != [] && AllDigits(d) && DigitsValue(d) <= max then Some(DigitsValue(d)) else None
  }

  /**
   * `<iN as FromStr>::from_str` for a signed type with range [min, max]:
   * an optional leading '+' or '-', then at least one ASCII digit.
   */
  function ParseSigned(s: string, min: int, max: int): Option<int> {
    var negative := |s| > 0 && s[0] == '-';
    var d := if |s| > 0 && (s[0] == '+' || s[0] == '-') then s[1..] else s;
    if d == [] || !AllDigits(d) then None
    else
      var v := if negative then -(DigitsValue(d) as int) else DigitsValue(d);
      if min <= v <= max then Some(v) else None
  }

  // ---------------------------------------------------------------- Display

  /** `format!("{}", n)` for an unsigned integer. */
  function NatToString(n: nat): string
    decreases n
  {
    if n < 10 then [DigitChar(n)] else NatToString(n / 10) + [DigitChar(n % 10)]
  }

  /** `format!("{}", i)` for a signed integer. */
  function IntToString(i: int): string {
    if i < 0 then "-" + NatToString(-i) else NatToString(i)
  }

  /** `format!("{:02}", n)`: zero-padded to at least two digits. */
  function Pad2(n: nat): string {
    if n < 10 then "0" + NatToString(n) else NatToString(n)
  }

  /** Printing a number and reading it back gives the number. */
  lemma {:induction false} NatToStringDigits(n: nat)
    ensures NatToString(n) != [] && AllDigits(NatToString(n))
    ensures DigitsValue(NatToString(n)) == n
    decreases n
  {
    if n >= 10 {
      NatToStringDigits(n / 10);
      var s := NatToString(n / 10) + [DigitChar(n % 10)];
      assert s[..|s| - 1] == NatToString(n / 10);
    }
  }

  /** The number of characters `format!("{}", n)` prints for one- to four-digit numbers. */
  lemma {:induction false} NatToStringLength(n: nat)
    ensures n < 10 ==> |NatToString(n)| == 1
    ensures 10 <= n < 100 ==> |NatToString(n)| == 2
    ensures 100 <= n < 1000 ==> |NatToString(n)| == 3
    ensures 1000 <= n < 10000 ==> |NatToString(n)| == 4
    decreases n
  {
    if n >= 10 {
      NatToStringLength(n / 10);
    }
  }

  /** `n.to_string().parse::<uN>()` gives back `n` whenever `n` fits the type. */
  lemma ParseUnsignedRoundTrip(n: nat, max: nat)
    requires n <= max
    ensures ParseUnsigned(NatToString(n), max) == Some(n)
  {
    NatToStringDigits(n);
  }

  // ---------------------------------------------------------------- trim

  /** `char::is_whitespace`: the Unicode White_Space property. */
  predicate IsWhitespace(c: char) {
    || '\t' <= c <= '\r'
    || c == ' '
    || c == '\U{85}'
    || c == '\U{A0}'
    || c == '\U{1680}'
    || '\U{2000}' <= c <= '\U{200A}'
    || c == '\U{2028}'
    || c == '\U{2029}'
    || c == '\U{202F}'
    || c == '\U{205F}'
    || c == '\U{3000}'
  }

  function TrimStart(s: string): string {
    if s != [] && IsWhitespace(s[0]) then TrimStart(s[1..]) else s
  }

  function TrimEnd(s: string): string {
    if s != [] && IsWhitespace(s[|s| - 1]) then TrimEnd(s[..|s| - 1]) else s
  }

  /** `str::trim`: drops leading and trailing whitespace. */
  function Trim(s: string): string {
    TrimEnd(TrimStart(s))
  }

  // ---------------------------------------------------------------- ASCII case

  function AsciiLowerChar(c: char): char {
    if 'A' <= c <= 'Z' then (c as int + 32) as char else c
  }

  function AsciiUpperChar(c: char): char {
    if 'a' <= c <= 'z' then (c as int - 32) as char else c
  }

  predicate IsAsciiAlphabetic(c: char) {
    'A' <= c <= 'Z' || 'a' <= c <= 'z'
  }

  predicate IsAsciiUpper(c: char) {
    'A' <= c <= 'Z'
  }

  /** Case folding restricted to ASCII, as the core's `to_lowercase` calls are used. */
  function AsciiLower(s: string): (r: string)
    ensures |r| == |s|
    ensures forall i :: 0 <= i < |s| ==> r[i] == AsciiLowerChar(s[i])
  {
    seq(|s|, i requires 0 <= i < |s| => AsciiLowerChar(s[i]))
  }

  // ---------------------------------------------------------------- search

  /** `str::starts_with(c)` for a single character. */
  predicate StartsWith(s: string, c: char) {
    s != [] && s[0] == c
  }

  /** `t` occurs in `s` beginning at index `i`. */
  predicate OccursAt(s: string, t: string, i: int) {
    0 <= i && i + |t| <= |s| && s[i..i + |t|] == t
  }

  /** `str::contains(t)`: `t` occurs somewhere in `s` as a contiguous run. */
  predicate Contains(s: string, t: string) {
    exists i :: 0 <= i <= |s| - |t| && OccursAt(s, t, i)
  }

  /** An occurrence found by hand is an occurrence `Contains` finds. */
  lemma OccursContains(s: string, t: string, i: int)
    requires OccursAt(s, t, i)
    ensures Contains(s, t)
  {
  }

  /** A pattern holding a character the text lacks is not contained in the text. */
  lemma MissingCharNotContained(s: string, t: string, c: char)
    requires c in t && c !in s
    ensures !Contains(s, t)
  {
    var k :| 0 <= k < |t| && t[k] == c;
    forall i | 0 <= i && i + |t| <= |s|
      ensures !OccursAt(s, t, i)
    {
      assert s[i..i + |t|][k] == s[i + k];
    }
  }

  /** Text without upper-case ASCII letters is its own lower-case form. */
  lemma AsciiLowerNoUpper(s: string)
    requires forall i :: 0 <= i < |s| ==> !IsAsciiUpper(s[i])
    ensures AsciiLower(s) == s
  {
  }

  /** Text that neither begins nor ends with whitespace is its own trimmed form. */
  lemma TrimUntouched(s: string)
    requires s != [] ==> !IsWhitespace(s[0]) && !IsWhitespace(s[|s| - 1])
    ensures Trim(s) == s
  {
  }

  /** `Iterator::position` over an equality test: the first index holding `x`. */
  function Position<T(==)>(xs: seq<T>, x: T): (r: Option<nat>)
    ensures r.None? <==> x !in xs
    ensures r.Some? ==> r.value < |xs| && xs[r.value] == x && x !in xs[..r.value]
  {
    if xs == [] then None
    else if xs[0] == x then Some(0)
    else
      match Position(xs[1..], x)
      case None => None
      case Some(i) =>
        assert xs[..i + 1] == [xs[0]] + xs[1..][..i];
        Some(i + 1)
  }

  // ---------------------------------------------------------------- UTF-8

  /** The number of bytes UTF-8 uses for `c`. */
  function Utf8Width(c: char): nat {
    if c as int < 0x80 then 1
    else if c as int < 0x800 then 2
    else if c as int < 0x1_0000 then 3
    else 4
  }

  /** `str::len`: the length in UTF-8 bytes, not in characters. */
  function ByteLen(s: string): nat {
    if s == [] then 0 else Utf8Width(s[0]) + ByteLen(s[1..])
  }

  /** The index of the character that begins at byte offset `b`, when `b` is a character boundary. */
  function CharIndexAt(s: string, b: nat): (r: Option<nat>)
    ensures r.Some? ==> r.value <= |s| && ByteLen(s[..r.value]) == b
    decreases |s|
  {
    if b == 0 then Some(0)
    else if s == [] || b < Utf8Width(s[0]) then None
    else
      match CharIndexAt(s[1..], b - Utf8Width(s[0]))
      case None => None
      case Some(i) =>
        assert s[..i + 1][1..] == s[1..][..i];
        Some(i + 1)
  }

  /** The end of a string is always a character boundary. */
  lemma {:induction false} CharIndexAtEnd(s: string)
    ensures CharIndexAt(s, ByteLen(s)) == Some(|s|)
    decreases |s|
  {
    if s != [] {
      CharIndexAtEnd(s[1..]);
    }
  }

  /** `&s[lo..hi]`; `None` stands for the panic when an end is not a character boundary or `lo > hi`. */
  function ByteSlice(s: string, lo: nat, hi: nat): Option<string> {
    match (CharIndexAt(s, lo), CharIndexAt(s, hi))
    case (Some(i), Some(j)) => if i <= j then Some(s[i..j]) else None
    case _ => None
  }

  predicate IsAscii(s: string) {
    forall i :: 0 <= i < |s| ==> s[i] as int < 0x80
  }

  /** On ASCII text, bytes and characters coincide, so every offset is a boundary. */
  lemma {:induction false} AsciiOffsets(s: string)
    requires IsAscii(s)
    ensures ByteLen(s) == |s|
    ensures forall b: nat :: b <= |s| ==> CharIndexAt(s, b) == Some(b)
    decreases |s|
  {
    if s != [] {
      AsciiOffsets(s[1..]);
      forall b: nat | b <= |s| ensures CharIndexAt(s, b) == Some(b) {
        if b > 0 {
          assert CharIndexAt(s[1..], b - 1) == Some(b - 1);
        }
      }
    }
  }

  /** Slicing ASCII text by bytes is slicing it by characters, and never panics. */
  lemma AsciiByteSlice(s: string, lo: nat, hi: nat)
    requires IsAscii(s) && lo <= hi <= |s|
    ensures ByteSlice(s, lo, hi) == Some(s[lo..hi])
  {
    AsciiOffsets(s);
  }
}
