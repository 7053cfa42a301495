/**
 * The .NET string operations the two line-oriented text formats rely on:
 * `Trim`, `IndexOf`, `ToLower`, `Split`, `string.Join`, `File.ReadAllLines`,
 * `StringBuilder.AppendLine`, and the `int`/`bool` parsers and printers.
 *
 * Text here is a Dafny `string` (Unicode scalar values). Lower-casing is the
 * ASCII mapping: the keys and section names compared against are ASCII.
 */
module Text {
  import opened Bytes
  import opened Wrappers

  // ---------------------------------------------------------------------
  // Whitespace and trimming.

  /** `char.IsWhiteSpace`: the Unicode space, line and paragraph separators and the controls U+0009 to U+000D and U+0085. */
  predicate IsWhite(c: char)
  {
    c == ' ' || '\t' <= c <= '\r' || c == '\U{85}' || c == '\U{A0}' || c == '\U{1680}'
    || '\U{2000}' <= c <= '\U{200A}' || c == '\U{2028}' || c == '\U{2029}' || c == '\U{202F}'
    || c == '\U{205F}' || c == '\U{3000}'
  }

  /** Text that `Trim` leaves as it is: empty, or not starting or ending with whitespace. */
  predicate Trimmed(s: string)
  {
    |s| == 0 || (!IsWhite(s[0]) && !IsWhite(s[|s| - 1]))
  }

  /** `TrimStart`: the suffix left after dropping leading whitespace. */
  function TrimStart(s: string): (r: string)
    ensures |r| <= |s| && r == s[|s| - |r|..]
    ensures forall i :: 0 <= i < |s| - |r| ==> IsWhite(s[i])
    ensures |r| > 0 ==> !IsWhite(r[0])
    decreases |s|
  {
    if |s| > 0 && IsWhite(s[0]) then TrimStart(s[1..]) else s
  }

  /** `TrimEnd`: the prefix left after dropping trailing whitespace. */
  function TrimEnd(s: string): (r: string)
    ensures |r| <= |s| && r == s[..|r|]
    ensures forall i :: |r| <= i < |s| ==> IsWhite(s[i])
    ensures |r| > 0 ==> !IsWhite(r[|r| - 1])
    decreases |s|
  {
    if |s| > 0 && IsWhite(s[|s| - 1]) then TrimEnd(s[..|s| - 1]) else s
  }

  /** `Trim`: whitespace dropped at both ends; what is left is a slice of the input. */
  function Trim(s: string): (r: string)
    ensures Trimmed(r)
    ensures |r| <= |s|
  {
    TrimEnd(TrimStart(s))
  }

  /** Trimming text that has no whitespace at either end changes nothing. */
  lemma TrimOfTrimmed(s: string)
    requires Trimmed(s)
    ensures Trim(s) == s
  {
  }

  lemma TrimIdempotent(s: string)
    ensures Trim(Trim(s)) == Trim(s)
  {
    TrimOfTrimmed(Trim(s));
  }

  /** Only text made of whitespace trims to nothing. */
  lemma TrimEmpty(s: string)
    ensures Trim(s) == [] <==> forall i :: 0 <= i < |s| ==> IsWhite(s[i])
  {
  }

  // ---------------------------------------------------------------------
  // Searching, prefixes and case.

  /** `IndexOf(c)`: the first position of `c`, if any. */
  function IndexOf(s: string, c: char): (r: Option<nat>)
    ensures r.Some? ==> r.value < |s| && s[r.value] == c && forall j :: 0 <= j < r.value ==> s[j] != c
    ensures r.None? ==> forall j :: 0 <= j < |s| ==> s[j] != c
    decreases |s|
  {
    if |s| == 0 then None
    else if s[0] == c then Some(0)
    else
      var t := IndexOf(s[1..], c);
      if t.None? then None else Some(t.value + 1)
  }

  /** `IndexOf` on a text made of a part without `c`, then `c`, then anything. */
  lemma IndexOfJoined(a: string, c: char, b: string)
    requires forall j :: 0 <= j < |a| ==> a[j] != c
    ensures IndexOf(a + [c] + b, c) == Some(|a|)
  {
    var s := a + [c] + b;
    assert s[|a|] == c;
    assert forall j :: 0 <= j < |a| ==> s[j] == a[j];
  }

  predicate StartsWith(s: string, c: char)
  {
    |s| > 0 && s[0] == c
  }

  predicate EndsWith(s: string, c: char)
  {
    |s| > 0 && s[|s| - 1] == c
  }

  function LowerChar(c: char): char
  {
    if 'A' <= c <= 'Z' then (c as int + 32) as char else c
  }

  /** `ToLower`, on the ASCII letters. */
  function Lower(s: string): (r: string)
    ensures |r| == |s|
  {
    seq(|s|, i requires 0 <= i < |s| => LowerChar(s[i]))
  }

  // ---------------------------------------------------------------------
  // Booleans.

  /** `bool.ToString()`. */
  function BoolText(b: bool): string
  {
    if b then "True" else "False"
  }

  /** `bool.TryParse` (and `bool.Parse`, which throws where this gives None): "true" or "false" in any case. */
  function ParseBool(s: string): (r: Option<bool>)
    ensures r.Some? ==> |s| == 4 || |s| == 5
  {
    var l := Lower(s);
    if l == "true" then Some(true) else if l == "false" then Some(false) else None
  }

  lemma BoolRoundTrip(b: bool)
    ensures ParseBool(BoolText(b)) == Some(b)
    ensures Trimmed(BoolText(b))
  {
    if b {
      assert Lower("True") == "true";
    } else {
      assert Lower("False") == "false";
    }
  }

  // ---------------------------------------------------------------------
  // Integers.

  predicate IsDigit(c: char)
  {
    '0' <= c <= '9'
  }

  predicate AllDigits(s: string)
  {
    forall i :: 0 <= i < |s| ==> IsDigit(s[i])
  }

  /** The value of a run of decimal digits, most significant first. */
  function DigitsValue(s: string): nat
    requires AllDigits(s)
    decreases |s|
  {
    if |s| == 0 then 0 else 10 * DigitsValue(s[..|s| - 1]) + (s[|s| - 1] as int - '0' as int)
  }

  /** `int.TryParse`: an optional sign and at least one decimal digit, within the 32-bit range. */
  function ParseInt32(s: string): (r: Option<int32>)
    ensures r.Some? ==> |s| > 0
  {
    var negative := StartsWith(s, '-');
    var digits := if StartsWith(s, '-') || StartsWith(s, '+') then s[1..] else s;
    if |digits| == 0 || !AllDigits(digits) then None
    else
      var v := if negative then -(DigitsValue(digits) as int) else DigitsValue(digits) as int;
      if -0x8000_0000 <= v < 0x8000_0000 then Some(v as int32) else None
  }

  function DigitChar(d: nat): (c: char)
    requires d < 10
    ensures IsDigit(c)
  {
    ('0' as int + d) as char
  }

  /** Decimal digits of a natural number, with no leading zero. */
  function NatText(n: nat): (r: string)
    ensures |r| > 0 && AllDigits(r)
    decreases n
  {
    if n < 10 then [DigitChar(n)] else NatText(n / 10) + [DigitChar(n % 10)]
  }

  /** `int.ToString()`: a minus sign for negative values, then the digits. */
  function IntText(n: int): (r: string)
    ensures |r| > 0
  {
    if n < 0 then "-" + NatText(-n) else NatText(n)
  }

  lemma {:induction false} NatTextValue(n: nat)
    ensures DigitsValue(NatText(n)) == n
    decreases n
  {
    if n >= 10 {
      NatTextValue(n / 10);
      var t := NatText(n);
      assert t[..|t| - 1] == NatText(n / 10);
    }
  }

  /** Printed integers parse back to themselves. */
  lemma IntRoundTrip(n: int32)
    ensures ParseInt32(IntText(n)) == Some(n)
  {
    var t := IntText(n);
    if n < 0 {
      var m := -(n as int);
      NatTextValue(m);
      assert t == "-" + NatText(m) && t[1..] == NatText(m);
      assert StartsWith(t, '-');
    } else {
      NatTextValue(n as int);
      assert t == NatText(n as int) && IsDigit(t[0]);
      assert !StartsWith(t, '-') && !StartsWith(t, '+');
    }
  }

  /** Different 32-bit integers print differently. */
  lemma IntTextInjective(a: int32, b: int32)
    ensures IntText(a) == IntText(b) ==> a == b
  {
    IntRoundTrip(a);
    IntRoundTrip(b);
  }

  /** A printed integer is a sign and digits only: no whitespace and no line break. */
  lemma IntTextPlain(n: int)
    ensures forall i :: 0 <= i < |IntText(n)| ==> IntText(n)[i] == '-' || IsDigit(IntText(n)[i])
    ensures Trimmed(IntText(n)) && '\n' !in IntText(n)
  {
    var t := IntText(n);
    if n < 0 {
      assert forall i :: 1 <= i < |t| ==> t[i] == NatText(-n)[i - 1];
    }
  }

  // ---------------------------------------------------------------------
  // Searching.

  /** `sub` occurs in `s` starting at position `i`. */
  predicate OccursAt(s: string, sub: string, i: int)
  {
    0 <= i && i + |sub| <= |s| && s[i..i + |sub|] == sub
  }

  /** `s.Contains(sub)`: an ordinal search for `sub` anywhere in `s`. */
  predicate Contains(s: string, sub: string)
  {
    exists i :: 0 <= i <= |s| && OccursAt(s, sub, i)
  }

  /** A text without the first character of `sub` does not contain `sub`. */
  lemma MissingFirst(s: string, sub: string)
    requires |sub| > 0 && sub[0] !in s
    ensures !Contains(s, sub)
  {
  }

  /** A prefix without the first character of `sub` can be skipped when searching for `sub`. */
  lemma ContainsAfter(a: string, b: string, sub: string)
    requires |sub| > 0 && sub[0] !in a
    ensures Contains(a + b, sub) <==> Contains(b, sub)
  {
    if Contains(b, sub) {
      var i :| 0 <= i <= |b| && OccursAt(b, sub, i);
      assert (a + b)[|a| + i..|a| + i + |sub|] == b[i..i + |sub|];
      assert OccursAt(a + b, sub, |a| + i);
    }
    if Contains(a + b, sub) {
      var i :| 0 <= i <= |a + b| && OccursAt(a + b, sub, i);
      assert (a + b)[i] == (a + b)[i..i + |sub|][0];
      assert b[i - |a|..i - |a| + |sub|] == (a + b)[i..i + |sub|];
      assert OccursAt(b, sub, i - |a|);
    }
  }

  /** When the first character of `sub` occurs only at the head of `s`, `sub` is found only as a prefix. */
  lemma ContainsOnlyAtStart(s: string, sub: string)
    requires |s| > 0 && |sub| > 0 && sub[0] !in s[1..]
    ensures Contains(s, sub) <==> sub <= s
  {
    if Contains(s, sub) {
      var i :| 0 <= i <= |s| && OccursAt(s, sub, i);
      assert s[i] == s[i..i + |sub|][0];
      assert OccursAt(s, sub, 0);
    }
    if sub <= s {
      assert OccursAt(s, sub, 0);
    }
  }

  // ---------------------------------------------------------------------
  // Lines.

  /** `Split(sep)`: the pieces between separators, empty ones included. */
  function SplitOn(s: string, sep: char): (r: seq<string>)
    ensures |r| >= 1
    ensures forall k :: 0 <= k < |r| ==> sep !in r[k]
    decreases |s|
  {
    match IndexOf(s, sep)
    case None => [s]
    case Some(i) => [s[..i]] + SplitOn(s[i + 1..], sep)
  }

  /** `string.Join(sep, parts)`. */
  function JoinWith(parts: seq<string>, sep: string): string
    decreases |parts|
  {
    if |parts| == 0 then ""
    else if |parts| == 1 then parts[0]
    else parts[0] + sep + JoinWith(parts[1..], sep)
  }

  /** Joining the pieces of a split gives the text back. */
  lemma {:induction false} JoinOfSplit(s: string, sep: char)
    ensures JoinWith(SplitOn(s, sep), [sep]) == s
    decreases |s|
  {
    match IndexOf(s, sep)
    case None =>
    case Some(i) =>
      JoinOfSplit(s[i + 1..], sep);
      JoinCons(s[..i], SplitOn(s[i + 1..], sep), sep);
      SplitAround(s, i);
  }

  /** Joining a first part and at least one more. */
  lemma JoinCons(a: string, rest: seq<string>, sep: char)
    requires |rest| >= 1
    ensures JoinWith([a] + rest, [sep]) == a + [sep] + JoinWith(rest, [sep])
  {
    ConsParts(a, rest);
  }

  /** Splitting joined parts that do not contain the separator gives the parts back. */
  lemma {:induction false} SplitOfJoin(parts: seq<string>, sep: char)
    requires |parts| >= 1
    requires forall k :: 0 <= k < |parts| ==> sep !in parts[k]
    ensures SplitOn(JoinWith(parts, [sep]), sep) == parts
    decreases |parts|
  {
    if |parts| == 1 {
      assert IndexOf(parts[0], sep).None?;
    } else {
      var t := JoinWith(parts[1..], [sep]);
      assert forall j :: 0 <= j < |parts[0]| ==> parts[0][j] != sep;
      IndexOfJoined(parts[0], sep, t);
      JoinedPieces(parts[0], sep, t);
      SplitOfJoin(parts[1..], sep);
      ConsParts(parts[0], parts[1..]);
    }
  }

  lemma JoinedPieces<T>(a: seq<T>, x: T, b: seq<T>)
    ensures (a + [x] + b)[..|a|] == a && (a + [x] + b)[|a| + 1..] == b
  {
  }

  lemma SplitAround<T>(s: seq<T>, i: nat)
    requires i < |s|
    ensures s == s[..i] + [s[i]] + s[i + 1..]
  {
  }

  lemma ConsParts<T>(a: T, rest: seq<T>)
    ensures ([a] + rest)[0] == a && ([a] + rest)[1..] == rest && |[a] + rest| == |rest| + 1
  {
  }

  /** `StringSplitOptions.RemoveEmptyEntries`. */
  function NonEmpty(parts: seq<string>): (r: seq<string>)
    ensures |r| <= |parts|
    ensures forall k :: 0 <= k < |r| ==> |r[k]| > 0
    decreases |parts|
  {
    if |parts| == 0 then []
    else (if |parts[0]| == 0 then [] else [parts[0]]) + NonEmpty(parts[1..])
  }

  /** Filtering a concatenation filters each part. */
  lemma {:induction false} NonEmptyAppend(a: seq<string>, b: seq<string>)
    ensures NonEmpty(a + b) == NonEmpty(a) + NonEmpty(b)
    decreases |a|
  {
    if |a| > 0 {
      NonEmptyAppend(a[1..], b);
      assert (a + b)[1..] == a[1..] + b;
    } else {
      assert a + b == b;
    }
  }

  /** A list with no empty entry is left as it is. */
  lemma {:induction false} NonEmptyKeeps(parts: seq<string>)
    requires forall k :: 0 <= k < |parts| ==> |parts[k]| > 0
    ensures NonEmpty(parts) == parts
    decreases |parts|
  {
    if |parts| > 0 {
      NonEmptyKeeps(parts[1..]);
    }
  }

  predicate NoBreak(line: string)
  {
    forall j :: 0 <= j < |line| ==> line[j] != '\r' && line[j] != '\n'
  }

  /** The length of the first line: up to the first CR or LF, or all of the text. */
  function LineLength(s: string): (r: nat)
    ensures r <= |s| && NoBreak(s[..r])
    ensures r < |s| ==> s[r] == '\r' || s[r] == '\n'
    decreases |s|
  {
    if |s| == 0 || s[0] == '\r' || s[0] == '\n' then 0
    else
      var t := LineLength(s[1..]);
      assert s[..t + 1] == [s[0]] + s[1..][..t];
      t + 1
  }

  /**
   * `File.ReadAllLines`: lines end at CR, LF or CR LF; a final line break
   * does not start another line.
   */
  function ReadLines(s: string): (r: seq<string>)
    ensures forall k :: 0 <= k < |r| ==> NoBreak(r[k])
    decreases |s|
  {
    if |s| == 0 then []
    else
      var n := LineLength(s);
      if n == |s| then [s]
      else
        var skip := if s[n] == '\r' && n + 1 < |s| && s[n + 1] == '\n' then 2 else 1;
        [s[..n]] + ReadLines(s[n + skip..])
  }

  /** Text built by `StringBuilder.AppendLine`, one line after another, each followed by CR LF. */
  function WriteLines(lines: seq<string>): string
    decreases |lines|
  {
    if |lines| == 0 then "" else lines[0] + "\r\n" + WriteLines(lines[1..])
  }

  /** The first line of a text whose first line break is a CR LF after `l`. */
  lemma {:induction false} FirstLineLength(l: string, t: string)
    requires NoBreak(l)
    ensures LineLength(l + "\r\n" + t) == |l|
    decreases |l|
  {
    var s := l + "\r\n" + t;
    if |l| > 0 {
      assert s[0] == l[0];
      assert s[1..] == l[1..] + "\r\n" + t;
      FirstLineLength(l[1..], t);
    }
  }

  /** Lines without line breaks are read back as they were written. */
  lemma {:induction false} ReadWrittenLines(lines: seq<string>)
    requires forall k :: 0 <= k < |lines| ==> NoBreak(lines[k])
    ensures ReadLines(WriteLines(lines)) == lines
    decreases |lines|
  {
    if |lines| > 0 {
      var l := lines[0];
      var t := WriteLines(lines[1..]);
      var s := l + "\r\n" + t;
      assert s[..|l|] == l && s[|l|] == '\r' && s[|l| + 1] == '\n' && s[|l| + 2..] == t;
      FirstLineLength(l, t);
      ReadWrittenLines(lines[1..]);
      assert lines == [l] + lines[1..];
    }
  }
}
