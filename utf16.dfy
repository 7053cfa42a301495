/**
 * .NET strings as sequences of UTF-16 code units, and the three encodings
 * the packet code uses (Encoding.Unicode, Encoding.UTF8, Encoding.ASCII)
 * with their default replacement behaviour.
 */
module Utf16 {
  import opened Bytes

  /** A .NET `char`: one UTF-16 code unit, possibly a lone surrogate. */
  type Unit = uint16
  type Units = seq<Unit>

  const REPLACEMENT: Unit := 0xFFFD

  predicate IsHigh(u: Unit) { 0xD800 <= u < 0xDC00 }
  predicate IsLow(u: Unit) { 0xDC00 <= u < 0xE000 }
  predicate IsSurrogate(u: Unit) { 0xD800 <= u < 0xE000 }

  /** No lone surrogates: every high surrogate is followed by a low one and vice versa. */
  predicate WellFormed(s: Units)
    decreases |s|
  {
    if |s| == 0 then true
    else if IsHigh(s[0]) && |s| >= 2 && IsLow(s[1]) then WellFormed(s[2..])
    else !IsSurrogate(s[0]) && WellFormed(s[1..])
  }

  /** Every lone surrogate replaced by U+FFFD, as the .NET encoders do. */
  function Scrub(s: Units): (r: Units)
    ensures |r| == |s|
    decreases |s|
  {
    if |s| == 0 then []
    else if IsHigh(s[0]) && |s| >= 2 && IsLow(s[1]) then s[..2] + Scrub(s[2..])
    else if IsSurrogate(s[0]) then [REPLACEMENT] + Scrub(s[1..])
    else [s[0]] + Scrub(s[1..])
  }

  lemma {:induction false} ScrubWellFormed(s: Units)
    ensures WellFormed(Scrub(s))
    decreases |s|
  {
    if |s| == 0 {
    } else if IsHigh(s[0]) && |s| >= 2 && IsLow(s[1]) {
      ScrubWellFormed(s[2..]);
      assert Scrub(s)[2..] == Scrub(s[2..]);
    } else {
      ScrubWellFormed(s[1..]);
      assert Scrub(s)[1..] == Scrub(s[1..]);
    }
  }

  lemma {:induction false} ScrubOfWellFormed(s: Units)
    requires WellFormed(s)
    ensures Scrub(s) == s
    decreases |s|
  {
    if |s| == 0 {
    } else if IsHigh(s[0]) && |s| >= 2 && IsLow(s[1]) {
      ScrubOfWellFormed(s[2..]);
      assert s == s[..2] + s[2..];
    } else {
      ScrubOfWellFormed(s[1..]);
      assert s == [s[0]] + s[1..];
    }
  }

  /** Replacing lone surrogates twice changes nothing more. */
  lemma ScrubIdempotent(s: Units)
    ensures Scrub(Scrub(s)) == Scrub(s)
  {
    ScrubWellFormed(s);
    ScrubOfWellFormed(Scrub(s));
  }

  /** Code units of little-endian byte pairs; an odd last byte becomes U+FFFD. */
  function PairsOf(b: seq<byte>): (r: Units)
    ensures |r| == (|b| + 1) / 2
    decreases |b|
  {
    if |b| == 0 then []
    else if |b| == 1 then [REPLACEMENT]
    else [(b[0] as int) + 256 * (b[1] as int)] + PairsOf(b[2..])
  }

  /** `Encoding.Unicode.GetString(bytes)`. */
  function GetString(b: seq<byte>): (r: Units)
    ensures |r| == (|b| + 1) / 2
  {
    Scrub(PairsOf(b))
  }

  /** Each code unit as two little-endian bytes. */
  function UnitBytes(s: Units): (r: seq<byte>)
    ensures |r| == 2 * |s|
    decreases |s|
  {
    if |s| == 0 then [] else U16Bytes(s[0]) + UnitBytes(s[1..])
  }

  /** `Encoding.Unicode.GetBytes(s)` (UTF-16LE, no byte order mark). */
  function UnicodeBytes(s: Units): (r: seq<byte>)
    ensures |r| == 2 * |s|
  {
    UnitBytes(Scrub(s))
  }

  lemma {:induction false} PairsOfUnitBytes(s: Units)
    ensures PairsOf(UnitBytes(s)) == s
    decreases |s|
  {
    if |s| > 0 {
      var b := UnitBytes(s);
      assert b[2..] == UnitBytes(s[1..]);
      PairsOfUnitBytes(s[1..]);
      assert b[..2] == U16Bytes(s[0]);
      U16BytesOf(s[0]);
      assert (b[0] as int) + 256 * (b[1] as int) == s[0];
    }
  }

  /** Decoding UTF-16LE bytes produced by the encoder gives the same text back. */
  lemma GetStringOfUnicodeBytes(s: Units)
    ensures GetString(UnicodeBytes(s)) == Scrub(s)
  {
    PairsOfUnitBytes(Scrub(s));
    ScrubIdempotent(s);
  }

  /** The code points of `s`, each lone surrogate read as U+FFFD. */
  function Scalars(s: Units): (r: seq<int>)
    ensures forall i :: 0 <= i < |r| ==> 0 <= r[i] < 0x11_0000
    decreases |s|
  {
    if |s| == 0 then []
    else if IsHigh(s[0]) && |s| >= 2 && IsLow(s[1]) then
      [0x1_0000 + (s[0] - 0xD800) * 0x400 + (s[1] - 0xDC00)] + Scalars(s[2..])
    else if IsSurrogate(s[0]) then [REPLACEMENT as int] + Scalars(s[1..])
    else [s[0] as int] + Scalars(s[1..])
  }

  /** The UTF-8 encoding of one code point. */
  function Utf8Of(c: int): (r: seq<byte>)
    requires 0 <= c < 0x11_0000
    ensures 1 <= |r| <= 4
  {
    if c < 0x80 then [c]
    else if c < 0x800 then [0xC0 + c / 0x40, 0x80 + c % 0x40]
    else if c < 0x1_0000 then [0xE0 + c / 0x1000, 0x80 + (c / 0x40) % 0x40, 0x80 + c % 0x40]
    else [0xF0 + c / 0x4_0000, 0x80 + (c / 0x1000) % 0x40, 0x80 + (c / 0x40) % 0x40, 0x80 + c % 0x40]
  }

  function Utf8OfScalars(cs: seq<int>): seq<byte>
    requires forall i :: 0 <= i < |cs| ==> 0 <= cs[i] < 0x11_0000
    decreases |cs|
  {
    if |cs| == 0 then [] else Utf8Of(cs[0]) + Utf8OfScalars(cs[1..])
  }

  /** `Encoding.UTF8.GetBytes(s)` (no byte order mark). */
  function Utf8Bytes(s: Units): seq<byte>
  {
    Utf8OfScalars(Scalars(s))
  }

  /**
   * `Encoding.ASCII.GetBytes(s)`: one byte per UTF-16 code unit, the unit
   * itself below 0x80 and '?' otherwise. The replacement works on code
   * units, so a surrogate pair becomes "??" and a lone surrogate "?".
   */
  function AsciiBytes(s: Units): (r: seq<byte>)
    ensures |r| == |s|
    ensures forall i :: 0 <= i < |s| ==> r[i] < 0x80
    ensures forall i :: 0 <= i < |s| ==> (r[i] == s[i] <==> s[i] < 0x80 || s[i] == '?' as int)
    ensures forall i :: 0 <= i < |s| && 0x80 <= s[i] ==> r[i] == '?' as int
    decreases |s|
  {
    if |s| == 0 then []
    else [if s[0] < 0x80 then s[0] else '?' as int] + AsciiBytes(s[1..])
  }

  /** Text of ASCII units is written as those units, unchanged. */
  lemma AsciiOfAscii(s: Units)
    requires forall i :: 0 <= i < |s| ==> s[i] < 0x80
    ensures AsciiBytes(s) == s
  {
  }

  /** A surrogate pair (U+1F600 here) is two units, so it becomes two '?' bytes. */
  lemma AsciiSurrogatePair()
    ensures AsciiBytes([0xD83D, 0xDE00]) == ['?' as int, '?' as int]
    ensures |AsciiBytes([0xD83D, 0xDE00])| == 2
  {
  }

  /** `s.TrimEnd('\0')`. */
  function TrimEndNul(s: Units): (r: Units)
    ensures |r| <= |s| && r == s[..|r|]
    ensures |r| > 0 ==> r[|r| - 1] != 0
    ensures forall i :: |r| <= i < |s| ==> s[i] == 0
    decreases |s|
  {
    if |s| == 0 then []
    else if s[|s| - 1] == 0 then TrimEndNul(s[..|s| - 1])
    else s
  }

  /** Units of a Dafny string literal that is plain ASCII. */
  function OfAscii(t: string): (r: Units)
    requires forall i :: 0 <= i < |t| ==> t[i] < 128 as char
    ensures |r| == |t|
    ensures forall i :: 0 <= i < |t| ==> r[i] == t[i] as int
    decreases |t|
  {
    if |t| == 0 then [] else [t[0] as int] + OfAscii(t[1..])
  }

  /** The units of a Dafny string whose characters all lie below the surrogate range, one unit each. */
  function OfBmp(t: string): (r: Units)
    requires forall i :: 0 <= i < |t| ==> t[i] as int < 0xD800
    ensures |r| == |t|
    ensures forall i :: 0 <= i < |t| ==> r[i] == t[i] as int
    ensures Scalars(r) == seq(|t|, i requires 0 <= i < |t| => t[i] as int)
    decreases |t|
  {
    if |t| == 0 then [] else
      var r: Units := [t[0] as int] + OfBmp(t[1..]);
      assert r[1..] == OfBmp(t[1..]);
      r
  }
}
