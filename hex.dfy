/**
 * `PacketHexHelper.ToHex`: the public instance fields of a command object,
 * then its readable non-indexed public properties, each written
 * little-endian by a BinaryWriter, and the bytes printed as uppercase hex
 * with no separators.
 *
 * Reflection is replaced by an explicit member list in declaration order.
 */
module PacketHex {
  import opened Bytes
  import opened Utf16
  import opened Wrappers

  /** The encodings the callers pass; `Unicode` is UTF-16LE. */
  datatype Encoding = Utf8 | Unicode | Ascii

  /** A member value, by its declared type; `Other` is any type the writer rejects. */
  datatype Value =
    | Byte(b: byte)
    | Short(s: int16)
    | UShort(us: uint16)
    | Int(i: int32)
    | UInt(ui: uint32)
    | Long(l: int64)
    | ULong(ul: uint64)
    | Float(floatBits: uint32)     // a float, as its bit pattern
    | Double(doubleBits: uint64)   // a double, as its bit pattern
    | Bool(flag: bool)
    | Str(text: Option<Units>)     // None is a null string
    | Vec3(x: uint32, y: uint32, z: uint32)
    | Other(typeName: string)

  datatype Member = Member(name: string, value: Value)

  datatype Property = Property(member: Member, canRead: bool, indexParameters: nat)

  /** What reflection sees of an object: its fields and its properties, each in declaration order. */
  datatype PacketObject = PacketObject(fields: seq<Member>, properties: seq<Property>)

  datatype HexError = NotSupported(memberName: string)

  // ---------------------------------------------------------------------
  // Hex digits.

  /** One uppercase hexadecimal digit. */
  function HexDigit(d: nat): (c: char)
    requires d < 16
    ensures '0' <= c <= '9' || 'A' <= c <= 'F'
  {
    if d < 10 then ('0' as int + d) as char else ('A' as int + d - 10) as char
  }

  /**
   * `BitConverter.ToString(bytes).Replace("-", "")`: two uppercase digits per
   * byte, high nibble first.
   */
  function HexOf(b: seq<byte>): (r: string)
    ensures |r| == 2 * |b|
    decreases |b|
  {
    if |b| == 0 then []
    else [HexDigit(b[0] / 16), HexDigit(b[0] % 16)] + HexOf(b[1..])
  }

  /** Characters `2i` and `2i + 1` are the high and the low digit of byte `i`. */
  lemma {:induction false} HexOfDigits(b: seq<byte>)
    ensures forall i :: 0 <= i < |b| ==>
      HexOf(b)[2 * i] == HexDigit(b[i] / 16) && HexOf(b)[2 * i + 1] == HexDigit(b[i] % 16)
    decreases |b|
  {
    if |b| > 0 {
      HexOfDigits(b[1..]);
      var r := HexOf(b);
      forall i | 0 <= i < |b|
        ensures r[2 * i] == HexDigit(b[i] / 16) && r[2 * i + 1] == HexDigit(b[i] % 16)
      {
        if i > 0 {
          assert b[1..][i - 1] == b[i];
          assert r[2 * i] == HexOf(b[1..])[2 * (i - 1)];
          assert r[2 * i + 1] == HexOf(b[1..])[2 * (i - 1) + 1];
        }
      }
    }
  }

  // ---------------------------------------------------------------------
  // Members.

  /** `stringEncoding.GetBytes(s)`. */
  function Encode(enc: Encoding, s: Units): seq<byte>
  {
    match enc
    case Utf8 => Utf8Bytes(s)
    case Unicode => UnicodeBytes(s)
    case Ascii => AsciiBytes(s)
  }

  /**
   * A string member: an optional 16-bit byte count (the count cast to 16
   * bits), the encoded bytes, and a two-byte NUL terminator for UTF-16LE only.
   */
  function StringBytes(text: Option<Units>, enc: Encoding, includeLength: bool): seq<byte>
  {
    var bytes := Encode(enc, if text.Some? then text.value else []);
    (if includeLength then U16Bytes(|bytes| % 0x1_0000) else [])
    + bytes
    + (if enc == Unicode then U16Bytes(0) else [])
  }

  predicate Supported(v: Value)
  {
    !v.Other?
  }

  /** The bytes one member writes; None for an unsupported type. */
  function ValueBytes(v: Value, enc: Encoding, includeLength: bool): (r: Option<seq<byte>>)
    ensures r.Some? <==> Supported(v)
  {
    match v
    case Byte(b) => Some([b])
    case Short(s) => Some(I16Bytes(s))
    case UShort(us) => Some(U16Bytes(us))
    case Int(i) => Some(I32Bytes(i))
    case UInt(ui) => Some(U32Bytes(ui))
    case Long(l) => Some(I64Bytes(l))
    case ULong(ul) => Some(U64Bytes(ul))
    case Float(bits) => Some(U32Bytes(bits))
    case Double(bits) => Some(U64Bytes(bits))
    case Bool(flag) => Some([if flag then 1 else 0])
    case Str(text) => Some(StringBytes(text, enc, includeLength))
    case Vec3(x, y, z) => Some(U32Bytes(x) + U32Bytes(y) + U32Bytes(z))
    case Other(_) => None
  }

  /** The bytes of a member list, or the first member whose type is not supported. */
  function MembersBytes(ms: seq<Member>, enc: Encoding, includeLength: bool): Result<seq<byte>, HexError>
    decreases |ms|
  {
    if |ms| == 0 then Ok([])
    else
      var b := ValueBytes(ms[0].value, enc, includeLength);
      if b.None? then Err(NotSupported(ms[0].name))
      else
        var rest := MembersBytes(ms[1..], enc, includeLength);
        if rest.Err? then rest else Ok(b.value + rest.value)
  }

  /** Properties the writer visits: readable and without index parameters. */
  predicate Visited(p: Property)
  {
    p.canRead && p.indexParameters == 0
  }

  function VisitedMembers(ps: seq<Property>): (r: seq<Member>)
    ensures |r| <= |ps|
    decreases |ps|
  {
    if |ps| == 0 then []
    else (if Visited(ps[0]) then [ps[0].member] else []) + VisitedMembers(ps[1..])
  }

  /** The members written, in order: all fields, then the visited properties. */
  function Written(obj: PacketObject): seq<Member>
  {
    obj.fields + VisitedMembers(obj.properties)
  }

  /**
   * `ToHex(obj, stringEncoding ?? UTF8, includeStringLength)`: fails exactly
   * when a written member has a type the writer does not support, naming the
   * first one; otherwise two hex digits per byte written.
   */
  function ToHexF(obj: PacketObject, stringEncoding: Option<Encoding>, includeStringLength: bool): (r: Result<string, HexError>)
    ensures r.Err? <==> exists i :: 0 <= i < |Written(obj)| && !Supported(Written(obj)[i].value)
    ensures r.Err? ==>
      exists i :: 0 <= i < |Written(obj)| && !Supported(Written(obj)[i].value) &&
        Written(obj)[i].name == r.error.memberName &&
        forall j :: 0 <= j < i ==> Supported(Written(obj)[j].value)
    ensures r.Ok? ==> |r.value| % 2 == 0
  {
    var enc := if stringEncoding.Some? then stringEncoding.value else Utf8;
    FirstUnsupported(Written(obj), enc, includeStringLength);
    var b := MembersBytes(Written(obj), enc, includeStringLength);
    if b.Err? then Err(b.error) else Ok(HexOf(b.value))
  }

  function ToHexUtf16LeF(obj: PacketObject, includeStringLength: bool): Result<string, HexError>
  {
    ToHexF(obj, Some(Unicode), includeStringLength)
  }

  function ToHexUtf8F(obj: PacketObject, includeStringLength: bool): Result<string, HexError>
  {
    ToHexF(obj, Some(Utf8), includeStringLength)
  }

  function ToHexAsciiF(obj: PacketObject, includeStringLength: bool): Result<string, HexError>
  {
    ToHexF(obj, Some(Ascii), includeStringLength)
  }

  /** The two loops over fields and properties, writing to one stream. */
  method ToHex(obj: PacketObject, stringEncoding: Option<Encoding>, includeStringLength: bool)
    returns (res: Result<string, HexError>)
    ensures res == ToHexF(obj, stringEncoding, includeStringLength)
  {
    var enc := if stringEncoding.Some? then stringEncoding.value else Utf8;
    var fields := WriteFields(obj, enc, includeStringLength);
    if fields.Err? {
      return Err(fields.error);
    }
    var all := WriteProperties(obj, enc, includeStringLength, fields.value);
    if all.Err? {
      return Err(all.error);
    }
    res := Ok(HexOf(all.value));
  }

  /** The loop over the public fields. */
  method WriteFields(obj: PacketObject, enc: Encoding, includeLength: bool) returns (res: Result<seq<byte>, HexError>)
    ensures res.Ok? ==> res == MembersBytes(obj.fields, enc, includeLength)
    ensures res.Err? ==> res == MembersBytes(Written(obj), enc, includeLength)
  {
    var ms: seq<byte> := [];
    var i := 0;
    while i < |obj.fields|
      invariant 0 <= i <= |obj.fields|
      invariant MembersBytes(obj.fields[..i], enc, includeLength) == Ok(ms)
    {
      var f := obj.fields[i];
      var b := ValueBytes(f.value, enc, includeLength);
      MembersSnoc(obj.fields[..i], f, enc, includeLength);
      assert obj.fields[..i] + [f] == obj.fields[..i + 1];
      if b.None? {
        assert Written(obj)[..i + 1] == obj.fields[..i + 1];
        MembersPrefixError(Written(obj), i + 1, enc, includeLength);
        return Err(NotSupported(f.name));
      }
      ms := ms + b.value;
      i := i + 1;
    }
    assert obj.fields[..i] == obj.fields;
    res := Ok(ms);
  }

  /** The loop over the properties, continuing the stream the fields started. */
  method WriteProperties(obj: PacketObject, enc: Encoding, includeLength: bool, fieldBytes: seq<byte>)
    returns (res: Result<seq<byte>, HexError>)
    requires MembersBytes(obj.fields, enc, includeLength) == Ok(fieldBytes)
    ensures res == MembersBytes(Written(obj), enc, includeLength)
  {
    var ms := fieldBytes;
    assert obj.properties[..0] == [];
    assert obj.fields + [] == obj.fields;
    var j := 0;
    while j < |obj.properties|
      invariant 0 <= j <= |obj.properties|
      invariant MembersBytes(obj.fields + VisitedMembers(obj.properties[..j]), enc, includeLength) == Ok(ms)
    {
      var p := obj.properties[j];
      PropertyStep(obj, j, enc, includeLength);
      if Visited(p) {
        var b := ValueBytes(p.member.value, enc, includeLength);
        if b.None? {
          return Err(NotSupported(p.member.name));
        }
        ms := ms + b.value;
      }
      j := j + 1;
    }
    assert obj.properties[..j] == obj.properties;
    res := Ok(ms);
  }

  /** One turn of the property loop: what visiting the next property adds, or the error it ends with. */
  lemma PropertyStep(obj: PacketObject, j: nat, enc: Encoding, includeLength: bool)
    requires j < |obj.properties|
    requires MembersBytes(obj.fields + VisitedMembers(obj.properties[..j]), enc, includeLength).Ok?
    ensures var p := obj.properties[j];
      var before := MembersBytes(obj.fields + VisitedMembers(obj.properties[..j]), enc, includeLength).value;
      var after := MembersBytes(obj.fields + VisitedMembers(obj.properties[..j + 1]), enc, includeLength);
      var b := ValueBytes(p.member.value, enc, includeLength);
      (!Visited(p) ==> after == Ok(before)) &&
      (Visited(p) && b.Some? ==> after == Ok(before + b.value)) &&
      (Visited(p) && b.None? ==> MembersBytes(Written(obj), enc, includeLength) == Err(NotSupported(p.member.name)))
  {
    var p := obj.properties[j];
    var visited := VisitedMembers(obj.properties[..j]);
    SnocPrefix(obj.properties, j);
    VisitedSnoc(obj.properties[..j], p);
    if Visited(p) {
      MembersSnoc(obj.fields + visited, p.member, enc, includeLength);
      ConcatAssoc(obj.fields, visited, [p.member]);
      if ValueBytes(p.member.value, enc, includeLength).None? {
        VisitedPrefixError(obj, j + 1, enc, includeLength);
      }
    } else {
      AppendEmpty(visited);
    }
  }

  /** An error among the members written so far is the error of the whole object. */
  lemma VisitedPrefixError(obj: PacketObject, n: nat, enc: Encoding, includeLength: bool)
    requires n <= |obj.properties|
    requires MembersBytes(obj.fields + VisitedMembers(obj.properties[..n]), enc, includeLength).Err?
    ensures MembersBytes(Written(obj), enc, includeLength) ==
      MembersBytes(obj.fields + VisitedMembers(obj.properties[..n]), enc, includeLength)
  {
    var pre := VisitedMembers(obj.properties[..n]);
    VisitedPrefix(obj.properties, n);
    PrefixOfAppend(obj.fields, pre, VisitedMembers(obj.properties));
    MembersPrefixError(Written(obj), |obj.fields + pre|, enc, includeLength);
  }

  /** Writing one more member after a list that was written. */
  lemma {:induction false} MembersSnoc(ms: seq<Member>, m: Member, enc: Encoding, includeLength: bool)
    requires MembersBytes(ms, enc, includeLength).Ok?
    ensures var b := ValueBytes(m.value, enc, includeLength);
      MembersBytes(ms + [m], enc, includeLength) ==
        if b.None? then Err(NotSupported(m.name)) else Ok(MembersBytes(ms, enc, includeLength).value + b.value)
    decreases |ms|
  {
    if |ms| == 0 {
      assert ms + [m] == [m];
      assert [m][1..] == [];
      var b := ValueBytes(m.value, enc, includeLength);
      if b.Some? {
        assert b.value + [] == [] + b.value;
      }
    } else {
      assert (ms + [m])[0] == ms[0];
      assert (ms + [m])[1..] == ms[1..] + [m];
      MembersSnoc(ms[1..], m, enc, includeLength);
      var b := ValueBytes(m.value, enc, includeLength);
      if b.Some? {
        var h := ValueBytes(ms[0].value, enc, includeLength).value;
        var t := MembersBytes(ms[1..], enc, includeLength).value;
        assert h + (t + b.value) == (h + t) + b.value;
      }
    }
  }

  /** An error in a prefix is the error of the whole list. */
  lemma {:induction false} MembersPrefixError(ms: seq<Member>, n: nat, enc: Encoding, includeLength: bool)
    requires n <= |ms|
    requires MembersBytes(ms[..n], enc, includeLength).Err?
    ensures MembersBytes(ms, enc, includeLength) == MembersBytes(ms[..n], enc, includeLength)
    decreases n
  {
    assert n > 0;
    assert ms[..n][0] == ms[0];
    assert ms[..n][1..] == ms[1..][..n - 1];
    if ValueBytes(ms[0].value, enc, includeLength).Some? {
      MembersPrefixError(ms[1..], n - 1, enc, includeLength);
    }
  }

  lemma {:induction false} VisitedSnoc(ps: seq<Property>, p: Property)
    ensures VisitedMembers(ps + [p]) == VisitedMembers(ps) + (if Visited(p) then [p.member] else [])
    decreases |ps|
  {
    if |ps| == 0 {
      assert [] + [p] == [p];
      assert [p][1..] == [];
    } else {
      var head := if Visited(ps[0]) then [ps[0].member] else [];
      var tail := if Visited(p) then [p.member] else [];
      assert (ps + [p])[0] == ps[0];
      assert (ps + [p])[1..] == ps[1..] + [p];
      VisitedSnoc(ps[1..], p);
      calc {
        VisitedMembers(ps + [p]);
        head + VisitedMembers(ps[1..] + [p]);
        head + (VisitedMembers(ps[1..]) + tail);
        (head + VisitedMembers(ps[1..])) + tail;
      }
    }
  }

  /** Visited properties of a prefix are a prefix of the visited properties. */
  lemma {:induction false} VisitedPrefix(ps: seq<Property>, n: nat)
    requires n <= |ps|
    ensures VisitedMembers(ps[..n]) <= VisitedMembers(ps)
    decreases n
  {
    if n > 0 {
      assert ps[..n][0] == ps[0];
      assert ps[..n][1..] == ps[1..][..n - 1];
      VisitedPrefix(ps[1..], n - 1);
    }
  }

  // ---------------------------------------------------------------------
  // What the writer promises.

  /** Bytes a member of a fixed-width type writes. */
  function Width(v: Value): nat
  {
    match v
    case Byte(_) => 1
    case Bool(_) => 1
    case Short(_) => 2
    case UShort(_) => 2
    case Int(_) => 4
    case UInt(_) => 4
    case Float(_) => 4
    case Long(_) => 8
    case ULong(_) => 8
    case Double(_) => 8
    case Vec3(_, _, _) => 12
    case Str(_) => 0
    case Other(_) => 0
  }

  /** Every supported type but string has a fixed width; a bool is written as 01 or 00. */
  lemma FixedWidths(v: Value, enc: Encoding, includeLength: bool)
    requires Supported(v) && !v.Str?
    ensures |ValueBytes(v, enc, includeLength).value| == Width(v)
    ensures v.Bool? ==> ValueBytes(v, enc, includeLength).value == [if v.flag then 1 else 0]
  {
  }

  /**
   * A string is its byte count (when asked for, cast to 16 bits), its encoded
   * bytes, and two zero bytes after them for UTF-16LE only.
   */
  lemma StringLayout(text: Option<Units>, enc: Encoding, includeLength: bool)
    ensures var bytes := Encode(enc, if text.Some? then text.value else []);
      var w := StringBytes(text, enc, includeLength);
      var p := if includeLength then 2 else 0;
      |w| == p + |bytes| + (if enc == Unicode then 2 else 0) &&
      (includeLength ==> w[..2] == U16Bytes(|bytes| % 0x1_0000)) &&
      w[p..p + |bytes|] == bytes &&
      (enc == Unicode ==> w[|w| - 2..] == [0, 0])
  {
    assert U16Bytes(0) == [0, 0];
  }

  /** A UTF-16LE string with its length: the byte count, the bytes, a NUL unit. */
  lemma UnicodeStringBytes(text: Units)
    requires 2 * |text| < 0x1_0000
    ensures StringBytes(Some(text), Unicode, true) == U16Bytes(2 * |text|) + UnicodeBytes(text) + [0, 0]
  {
    U16BytesOf(0);
    assert |UnicodeBytes(text)| % 0x1_0000 == 2 * |text|;
  }

  /**
   * An ASCII string with its length: the count is the number of code units,
   * one byte per unit follows, and no terminator.
   */
  lemma AsciiStringBytes(text: Units)
    requires |text| < 0x1_0000
    ensures StringBytes(Some(text), Ascii, true) == U16Bytes(|text|) + AsciiBytes(text)
    ensures |StringBytes(Some(text), Ascii, true)| == 2 + |text|
  {
    var bytes := AsciiBytes(text);
    assert Encode(Ascii, text) == bytes;
    assert |bytes| % 0x1_0000 == |text|;
    assert StringBytes(Some(text), Ascii, true) == U16Bytes(|text|) + bytes + [];
  }

  /** U+1F600 (the units D83D DE00) with its length is written as 02 00 3F 3F. */
  lemma AsciiSurrogatePairString()
    ensures StringBytes(Some([0xD83D, 0xDE00]), Ascii, true) == [2, 0, 0x3F, 0x3F]
  {
    AsciiSurrogatePair();
    U16BytesOf(2);
  }

  /**
   * A UTF-16LE string with its length reads back: the prefix is its byte
   * count, the text's UTF-16LE bytes follow (which `GetStringOfUnicodeBytes`
   * decodes back), and then a NUL unit.
   */
  lemma UnicodeStringReadBack(text: Units, rest: seq<byte>, w: seq<byte>)
    requires 2 * |text| < 0x1_0000
    requires w == StringBytes(Some(text), Unicode, true) + rest
    ensures TakeUInt16(w) == Got(2 * |text|, UnicodeBytes(text) + ([0, 0] + rest))
    ensures w[2..2 + 2 * |text|] == UnicodeBytes(text)
    ensures w[2 + 2 * |text|..4 + 2 * |text|] == [0, 0]
  {
    UnicodeStringBytes(text);
    CountedReadBack(UnicodeBytes(text), [0, 0] + rest, w);
  }

  /** A 16-bit count, that many bytes and a tail: the count reads back and the bytes follow it. */
  lemma CountedReadBack(b: seq<byte>, tail: seq<byte>, w: seq<byte>)
    requires |b| < 0x1_0000
    requires w == U16Bytes(|b|) + b + tail
    ensures TakeUInt16(w) == Got(|b|, b + tail)
    ensures w[2..2 + |b|] == b && w[2 + |b|..] == tail
  {
    assert w == U16Bytes(|b|) + (b + tail);
    TakeUInt16Of(|b|, b + tail);
  }

  /**
   * Writing fails exactly when some member has an unsupported type, and then
   * names the first such member.
   */
  lemma {:induction false} FirstUnsupported(ms: seq<Member>, enc: Encoding, includeLength: bool)
    ensures MembersBytes(ms, enc, includeLength).Err? <==> exists i :: 0 <= i < |ms| && !Supported(ms[i].value)
    ensures MembersBytes(ms, enc, includeLength).Err? ==>
      exists i :: 0 <= i < |ms| && !Supported(ms[i].value) &&
        ms[i].name == MembersBytes(ms, enc, includeLength).error.memberName &&
        forall j :: 0 <= j < i ==> Supported(ms[j].value)
    decreases |ms|
  {
    if |ms| > 0 {
      FirstUnsupported(ms[1..], enc, includeLength);
      assert forall i :: 1 <= i < |ms| ==> ms[1..][i - 1] == ms[i];
      if Supported(ms[0].value) && MembersBytes(ms, enc, includeLength).Err? {
        var k :| 0 <= k < |ms[1..]| && !Supported(ms[1..][k].value) &&
          ms[1..][k].name == MembersBytes(ms, enc, includeLength).error.memberName &&
          forall j :: 0 <= j < k ==> Supported(ms[1..][j].value);
        assert ms[k + 1] == ms[1..][k];
        assert forall j :: 0 <= j < k + 1 ==> Supported(ms[j].value) by {
          forall j | 0 <= j < k + 1 ensures Supported(ms[j].value) {
            if j > 0 { assert ms[j] == ms[1..][j - 1]; }
          }
        }
      }
    }
  }

  /** The bytes of two member lists in a row are the bytes of each, concatenated. */
  lemma {:induction false} MembersAppend(a: seq<Member>, b: seq<Member>, enc: Encoding, includeLength: bool)
    requires MembersBytes(a, enc, includeLength).Ok? && MembersBytes(b, enc, includeLength).Ok?
    ensures MembersBytes(a + b, enc, includeLength) ==
      Ok(MembersBytes(a, enc, includeLength).value + MembersBytes(b, enc, includeLength).value)
    decreases |a|
  {
    if |a| == 0 {
      assert a + b == b;
      assert [] + MembersBytes(b, enc, includeLength).value == MembersBytes(b, enc, includeLength).value;
    } else {
      MembersTail(a, enc, includeLength);
      MembersAppend(a[1..], b, enc, includeLength);
      MembersAppendCons(a, b, enc, includeLength);
    }
  }

  /** The step of `MembersAppend`: from the tail of `a` followed by `b` to all of `a` followed by `b`. */
  lemma MembersAppendCons(a: seq<Member>, b: seq<Member>, enc: Encoding, includeLength: bool)
    requires |a| > 0 && MembersBytes(a, enc, includeLength).Ok? && MembersBytes(b, enc, includeLength).Ok?
    requires MembersBytes(a[1..], enc, includeLength).Ok?
    requires MembersBytes(a[1..] + b, enc, includeLength)
          == Ok(MembersBytes(a[1..], enc, includeLength).value + MembersBytes(b, enc, includeLength).value)
    ensures MembersBytes(a + b, enc, includeLength) ==
      Ok(MembersBytes(a, enc, includeLength).value + MembersBytes(b, enc, includeLength).value)
  {
    MembersTail(a, enc, includeLength);
    var u := MembersBytes(b, enc, includeLength).value;
    var h := ValueBytes(a[0].value, enc, includeLength).value;
    var t := MembersBytes(a[1..], enc, includeLength).value;
    ConcatTail(a, b);
    MembersHead(a + b, h, t + u, enc, includeLength);
    ConcatAssoc(h, t, u);
  }

  /** A list that encodes has a head and a tail that encode, and its bytes are theirs. */
  lemma MembersTail(ms: seq<Member>, enc: Encoding, includeLength: bool)
    requires |ms| > 0 && MembersBytes(ms, enc, includeLength).Ok?
    ensures ValueBytes(ms[0].value, enc, includeLength).Some?
    ensures MembersBytes(ms[1..], enc, includeLength).Ok?
    ensures MembersBytes(ms, enc, includeLength).value
         == ValueBytes(ms[0].value, enc, includeLength).value + MembersBytes(ms[1..], enc, includeLength).value
  {
  }

  /** A list whose head and tail encode encodes as their concatenation. */
  lemma MembersHead(ms: seq<Member>, h: seq<byte>, t: seq<byte>, enc: Encoding, includeLength: bool)
    requires |ms| > 0
    requires ValueBytes(ms[0].value, enc, includeLength) == Some(h)
    requires MembersBytes(ms[1..], enc, includeLength) == Ok(t)
    ensures MembersBytes(ms, enc, includeLength) == Ok(h + t)
  {
  }


  /** All fields are written before any property. */
  lemma FieldsBeforeProperties(obj: PacketObject, enc: Encoding, includeLength: bool)
    requires MembersBytes(obj.fields, enc, includeLength).Ok?
    requires MembersBytes(VisitedMembers(obj.properties), enc, includeLength).Ok?
    ensures MembersBytes(Written(obj), enc, includeLength) ==
      Ok(MembersBytes(obj.fields, enc, includeLength).value
         + MembersBytes(VisitedMembers(obj.properties), enc, includeLength).value)
  {
    MembersAppend(obj.fields, VisitedMembers(obj.properties), enc, includeLength);
  }

  // ---------------------------------------------------------------------
  // The command classes: auto-properties only, in declaration order.

  /** Auto-properties: readable and without index parameters. */
  function Auto(ms: seq<Member>): (r: seq<Property>)
    ensures |r| == |ms|
    decreases |ms|
  {
    if |ms| == 0 then [] else [Property(ms[0], true, 0)] + Auto(ms[1..])
  }

  /** An object made only of auto-properties writes every one of them, in order. */
  lemma {:induction false} AutoVisited(ms: seq<Member>)
    ensures VisitedMembers(Auto(ms)) == ms
    decreases |ms|
  {
    if |ms| > 0 {
      var r := Auto(ms);
      assert r[0] == Property(ms[0], true, 0);
      assert r[1..] == Auto(ms[1..]);
      AutoVisited(ms[1..]);
      assert [ms[0]] + ms[1..] == ms;
    }
  }

  function RequestItemListMembers(itemType: byte): seq<Member>
  {
    [Member("PacketId", Byte(0xD0)), Member("SubPacketId", UShort(0x0214)),
     Member("Unknown2", UShort(0)), Member("Unknown3", Byte(0x03)),
     Member("ItemType", Byte(itemType)), Member("Unknown4", UShort(0x00FF))]
  }

  function RequestCommissionBuyInfoMembers(itemType: int32): seq<Member>
  {
    [Member("PacketId", Byte(0xD0)), Member("SubPacketId", UShort(0x009E)),
     Member("Unknown1", Int(1)), Member("ItemType", Int(itemType)),
     Member("Unknown2", Long(-1)), Member("Unknown3", UShort(0))]
  }

  function ActionMembers(objectId: int32, originX: int32, originY: int32, originZ: int32, actionId: byte): seq<Member>
  {
    [Member("PacketId", Byte(0x1F)), Member("ObjectId", Int(objectId)),
     Member("OriginX", Int(originX)), Member("OriginY", Int(originY)),
     Member("OriginZ", Int(originZ)), Member("ActionId", Byte(actionId))]
  }

  function WorldExchangeSearchItemMembers(itemType: uint16, unknown2: uint16): seq<Member>
  {
    [Member("PacketId", Byte(0xD0)), Member("SubPacketId", UShort(0x023F)),
     Member("ItemType", UShort(itemType)), Member("Unknown2", UShort(unknown2)),
     Member("Unknown3", UInt(0)), Member("Unknown4", UShort(0)), Member("Unknown5", Byte(0))]
  }

  /** A member written in front of a list. */
  lemma MembersCons(m: Member, ms: seq<Member>, enc: Encoding, includeLength: bool, b: seq<byte>, rest: seq<byte>)
    requires ValueBytes(m.value, enc, includeLength) == Some(b)
    requires MembersBytes(ms, enc, includeLength) == Ok(rest)
    ensures MembersBytes([m] + ms, enc, includeLength) == Ok(b + rest)
  {
    assert ([m] + ms)[0] == m;
    assert ([m] + ms)[1..] == ms;
  }

  function RequestItemListCommand(itemType: byte): PacketObject
  {
    PacketObject([], Auto(RequestItemListMembers(itemType)))
  }

  function RequestCommissionBuyInfoCommand(itemType: int32): PacketObject
  {
    PacketObject([], Auto(RequestCommissionBuyInfoMembers(itemType)))
  }

  function ActionCommand(objectId: int32, originX: int32, originY: int32, originZ: int32, actionId: byte): PacketObject
  {
    PacketObject([], Auto(ActionMembers(objectId, originX, originY, originZ, actionId)))
  }

  function WorldExchangeSearchItemCommand(itemType: uint16, unknown2: uint16): PacketObject
  {
    PacketObject([], Auto(WorldExchangeSearchItemMembers(itemType, unknown2)))
  }

  /** A command object writes exactly its auto-properties. */
  lemma CommandWritten(ms: seq<Member>)
    ensures Written(PacketObject([], Auto(ms))) == ms
  {
    AutoVisited(ms);
    assert [] + ms == ms;
  }

  /** Six members, each with known bytes, written in a row. */
  lemma SixMembers(ms: seq<Member>, enc: Encoding, includeLength: bool,
                   b0: seq<byte>, b1: seq<byte>, b2: seq<byte>, b3: seq<byte>, b4: seq<byte>, b5: seq<byte>)
    requires |ms| == 6
    requires ValueBytes(ms[0].value, enc, includeLength) == Some(b0)
    requires ValueBytes(ms[1].value, enc, includeLength) == Some(b1)
    requires ValueBytes(ms[2].value, enc, includeLength) == Some(b2)
    requires ValueBytes(ms[3].value, enc, includeLength) == Some(b3)
    requires ValueBytes(ms[4].value, enc, includeLength) == Some(b4)
    requires ValueBytes(ms[5].value, enc, includeLength) == Some(b5)
    ensures MembersBytes(ms, enc, includeLength) == Ok(b0 + (b1 + (b2 + (b3 + (b4 + b5)))))
  {
    var t5: seq<Member> := [ms[5]] + [];
    MembersCons(ms[5], [], enc, includeLength, b5, []);
    assert b5 + [] == b5;
    var t4 := [ms[4]] + t5;
    MembersCons(ms[4], t5, enc, includeLength, b4, b5);
    var t3 := [ms[3]] + t4;
    MembersCons(ms[3], t4, enc, includeLength, b3, b4 + b5);
    var t2 := [ms[2]] + t3;
    MembersCons(ms[2], t3, enc, includeLength, b2, b3 + (b4 + b5));
    var t1 := [ms[1]] + t2;
    MembersCons(ms[1], t2, enc, includeLength, b1, b2 + (b3 + (b4 + b5)));
    MembersCons(ms[0], t1, enc, includeLength, b0, b1 + (b2 + (b3 + (b4 + b5))));
    assert ms == [ms[0]] + t1;
  }

  /** A private-store item-list request is the 9 bytes D0 14 02 00 00 03 t FF 00. */
  lemma RequestItemListBytes(itemType: byte, enc: Encoding, includeLength: bool)
    ensures MembersBytes(Written(RequestItemListCommand(itemType)), enc, includeLength)
      == Ok([0xD0, 0x14, 0x02, 0x00, 0x00, 0x03, itemType, 0xFF, 0x00])
  {
    var ms := RequestItemListMembers(itemType);
    CommandWritten(ms);
    U16BytesOf(0x0214); U16BytesOf(0); U16BytesOf(0x00FF);
    SixMembers(ms, enc, includeLength, [0xD0], [0x14, 0x02], [0x00, 0x00], [0x03], [itemType], [0xFF, 0x00]);
    assert [0xD0] + ([0x14, 0x02] + ([0x00, 0x00] + ([0x03] + ([itemType] + [0xFF, 0x00]))))
      == [0xD0, 0x14, 0x02, 0x00, 0x00, 0x03, itemType, 0xFF, 0x00];
  }

  /** The int 1 and the long -1, little-endian. */
  lemma CommissionConstants()
    ensures I32Bytes(1) == [0x01, 0x00, 0x00, 0x00]
    ensures I64Bytes(-1) == [0xFF, 0xFF, 0xFF, 0xFF, 0xFF, 0xFF, 0xFF, 0xFF]
  {
  }

  /**
   * A commission buy-info request: D0 9E 00, the int 1, the item type, the
   * long -1 (eight FF bytes, see `CommissionConstants`) and 00 00, each
   * little-endian.
   */
  lemma RequestCommissionBuyInfoBytes(itemType: int32, enc: Encoding, includeLength: bool)
    ensures MembersBytes(Written(RequestCommissionBuyInfoCommand(itemType)), enc, includeLength)
      == Ok([0xD0] + ([0x9E, 0x00] + (I32Bytes(1) + (I32Bytes(itemType) + (I64Bytes(-1) + [0x00, 0x00])))))
  {
    var ms := RequestCommissionBuyInfoMembers(itemType);
    CommandWritten(ms);
    U16BytesOf(0x009E); U16BytesOf(0);
    SixMembers(ms, enc, includeLength, [0xD0], [0x9E, 0x00], I32Bytes(1), I32Bytes(itemType),
      I64Bytes(-1), [0x00, 0x00]);
  }

  /** An action request: 1F, four little-endian ints and the action id byte. */
  lemma ActionBytes(objectId: int32, originX: int32, originY: int32, originZ: int32, actionId: byte,
                    enc: Encoding, includeLength: bool)
    ensures MembersBytes(Written(ActionCommand(objectId, originX, originY, originZ, actionId)), enc, includeLength)
      == Ok([0x1F] + (I32Bytes(objectId) + (I32Bytes(originX) + (I32Bytes(originY) + (I32Bytes(originZ) + [actionId])))))
  {
    var ms := ActionMembers(objectId, originX, originY, originZ, actionId);
    CommandWritten(ms);
    SixMembers(ms, enc, includeLength, [0x1F], I32Bytes(objectId), I32Bytes(originX), I32Bytes(originY),
      I32Bytes(originZ), [actionId]);
  }

  /**
   * A world-exchange search: D0 3F 02, the item type and the second word as
   * little-endian shorts, then seven zero bytes.
   */
  lemma WorldExchangeSearchBytes(itemType: uint16, unknown2: uint16, enc: Encoding, includeLength: bool)
    ensures MembersBytes(Written(WorldExchangeSearchItemCommand(itemType, unknown2)), enc, includeLength)
      == Ok([0xD0, 0x3F, 0x02] + (U16Bytes(itemType) + (U16Bytes(unknown2) + [0, 0, 0, 0, 0, 0, 0])))
  {
    var ms := WorldExchangeSearchItemMembers(itemType, unknown2);
    CommandWritten(ms);
    U16BytesOf(0x023F); U16BytesOf(0);
    assert U32Bytes(0) == [0, 0, 0, 0];
    var first := ms[..6];
    assert ms == first + [ms[6]];
    SixMembers(first, enc, includeLength, [0xD0], [0x3F, 0x02], U16Bytes(itemType), U16Bytes(unknown2),
      [0, 0, 0, 0], [0, 0]);
    MembersSnoc(first, ms[6], enc, includeLength);
    var a := U16Bytes(itemType);
    var b := U16Bytes(unknown2);
    calc {
      ([0xD0] + ([0x3F, 0x02] + (a + (b + ([0, 0, 0, 0] + [0, 0]))))) + [0];
      [0xD0] + ([0x3F, 0x02] + (a + (b + ([0, 0, 0, 0] + [0, 0] + [0]))));
      { assert [0, 0, 0, 0] + [0, 0] + [0] == [0, 0, 0, 0, 0, 0, 0]; }
      [0xD0] + ([0x3F, 0x02] + (a + (b + [0, 0, 0, 0, 0, 0, 0])));
      ([0xD0] + [0x3F, 0x02]) + (a + (b + [0, 0, 0, 0, 0, 0, 0]));
      { assert [0xD0] + [0x3F, 0x02] == [0xD0, 0x3F, 0x02]; }
      [0xD0, 0x3F, 0x02] + (a + (b + [0, 0, 0, 0, 0, 0, 0]));
    }
  }
}
