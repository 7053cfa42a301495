/**
 * The fixed-layout UserInfo game packet (id 0x32, server to client): id byte,
 * object id, a UTF-16LE name prefixed by its unit count, level, class id and a
 * position of three single-precision floats.
 *
 * The packet object is mutable: `ParseFromBytes` assigns its properties one
 * after another, so a packet cut short leaves the properties read so far
 * updated and the rest as they were.
 */
module UserInfoEntity {
  import opened Bytes
  import opened Utf16
  import opened Wrappers

  const USER_INFO_ID: int := 0x32

  /** Packet length without the name: id, object id, name length, level, class id, x, y, z. */
  const FIXED_SIZE: nat := 27

  /** A position; each coordinate is the bit pattern of a single-precision float. */
  datatype Vector3 = Vector3(x: uint32, y: uint32, z: uint32)

  /** The properties `ParseFromBytes` assigns. */
  datatype Properties = Properties(objectId: uint32, name: Units, level: int32, classId: int32, position: Vector3)

  datatype ParseError = EndOfStream | UnexpectedPacketId(packetId: byte)

  /** The properties after a parse, and the exception that ended it, if any. */
  datatype Parsed = Parsed(fields: Properties, error: Option<ParseError>)

  /** Where a parse stands after some reads: the properties, the exception if any, what is unread. */
  datatype Step = Step(fields: Properties, error: Option<ParseError>, rest: seq<byte>)

  /** The id check, the object id and the name. */
  function HeadF(id: int, data: seq<byte>, f: Properties): Step
  {
    var packetId := TakeByte(data);
    if packetId.Eof? then Step(f, Some(EndOfStream), [])
    else if packetId.value != id then Step(f, Some(UnexpectedPacketId(packetId.value)), packetId.rest)
    else
      var objectId := TakeUInt32(packetId.rest);
      if objectId.Eof? then Step(f, Some(EndOfStream), []) else
      var f1 := f.(objectId := objectId.value);
      var len := TakeUInt16(objectId.rest);
      if len.Eof? then Step(f1, Some(EndOfStream), []) else
      var b := TakeAtMost(len.rest, 2 * len.value);
      Step(f1.(name := TrimEndNul(GetString(b))), None, len.rest[|b|..])
  }

  /** Level, class id and the position, which is assigned only once all three floats are read. */
  function TailF(s: seq<byte>, f: Properties): Parsed
  {
    var level := TakeInt32(s);
    if level.Eof? then Parsed(f, Some(EndOfStream)) else
    var f1 := f.(level := level.value);
    var classId := TakeInt32(level.rest);
    if classId.Eof? then Parsed(f1, Some(EndOfStream)) else
    var f2 := f1.(classId := classId.value);
    var x := TakeUInt32(classId.rest);
    if x.Eof? then Parsed(f2, Some(EndOfStream)) else
    var y := TakeUInt32(x.rest);
    if y.Eof? then Parsed(f2, Some(EndOfStream)) else
    var z := TakeUInt32(y.rest);
    if z.Eof? then Parsed(f2, Some(EndOfStream)) else
    Parsed(f2.(position := Vector3(x.value, y.value, z.value)), None)
  }

  /** `ParseFromBytes` on a packet whose `Id` is `id` and whose properties are `f`. */
  function ParseF(id: int, data: seq<byte>, f: Properties): Parsed
  {
    var h := HeadF(id, data, f);
    if h.error.Some? then Parsed(h.fields, h.error) else TailF(h.rest, h.fields)
  }

  /** `ToBytes`: the name's unit count is cast to 16 bits. */
  function ToBytesF(id: int, f: Properties): seq<byte>
  {
    var nameBytes := UnicodeBytes(f.name);
    [ToByte(id)] + (U32Bytes(f.objectId) + (U16Bytes((|nameBytes| / 2) % 0x1_0000) + (nameBytes
    + (I32Bytes(f.level) + (I32Bytes(f.classId) + (U32Bytes(f.position.x)
    + (U32Bytes(f.position.y) + U32Bytes(f.position.z))))))))
  }

  class UserInfoPacket {
    var id: int
    var direction: string
    var objectId: uint32
    var name: Units
    var level: int32
    var classId: int32
    var position: Vector3

    function Props(): Properties
      reads this
    {
      Properties(objectId, name, level, classId, position)
    }

    constructor ()
      ensures id == USER_INFO_ID && direction == "S"
      ensures Props() == Properties(0, [], 0, 0, Vector3(0, 0, 0))
    {
      id := USER_INFO_ID;
      direction := "S";
      objectId := 0;
      name := [];
      level := 0;
      classId := 0;
      position := Vector3(0, 0, 0);
    }

    method ParseHead(r: Reader) returns (error: Option<ParseError>)
      requires r.Valid()
      modifies this, r
      ensures r.Valid() && id == old(id) && direction == old(direction)
      ensures Step(Props(), error, r.Rest()) == HeadF(id, old(r.Rest()), old(Props()))
    {
      var packetId := r.ReadByte();
      if packetId.Eof? { return Some(EndOfStream); }
      if packetId.value != id { return Some(UnexpectedPacketId(packetId.value)); }
      var o := r.ReadUInt32();
      if o.Eof? { return Some(EndOfStream); }
      objectId := o.value;
      var len := r.ReadUInt16();
      if len.Eof? { return Some(EndOfStream); }
      var nameBytes := r.ReadBytes(2 * len.value);
      name := TrimEndNul(GetString(nameBytes));
      error := None;
    }

    method ParseTail(r: Reader) returns (error: Option<ParseError>)
      requires r.Valid()
      modifies this
      modifies r
      ensures r.Valid() && id == old(id) && direction == old(direction)
      ensures Parsed(Props(), error) == TailF(old(r.Rest()), old(Props()))
    {
      var l := r.ReadInt32();
      if l.Eof? { return Some(EndOfStream); }
      level := l.value;
      var c := r.ReadInt32();
      if c.Eof? { return Some(EndOfStream); }
      classId := c.value;
      var x := r.ReadUInt32();
      if x.Eof? { return Some(EndOfStream); }
      var y := r.ReadUInt32();
      if y.Eof? { return Some(EndOfStream); }
      var z := r.ReadUInt32();
      if z.Eof? { return Some(EndOfStream); }
      position := Vector3(x.value, y.value, z.value);
      error := None;
    }

    /** Returns the exception the parse ends with, if any. */
    method ParseFromBytes(data: seq<byte>) returns (error: Option<ParseError>)
      modifies this
      ensures id == old(id) && direction == old(direction)
      ensures Parsed(Props(), error) == ParseF(id, data, old(Props()))
    {
      var r := new Reader(data);
      error := ParseHead(r);
      if error.Some? { return; }
      error := ParseTail(r);
    }

    method ToBytes() returns (b: seq<byte>)
      ensures b == ToBytesF(id, Props())
    {
      var nameBytes := UnicodeBytes(name);
      b := [ToByte(id)] + U32Bytes(objectId);
      b := b + U16Bytes((|nameBytes| / 2) % 0x1_0000) + nameBytes;
      b := b + I32Bytes(level) + I32Bytes(classId);
      b := b + U32Bytes(position.x) + U32Bytes(position.y) + U32Bytes(position.z);
    }
  }

  // ---------------------------------------------------------------------
  // What parse and serialisation promise.

  /** A packet is 27 bytes plus two per name unit, and its length field is the unit count cast to 16 bits. */
  lemma ToBytesLayout(id: int, f: Properties)
    ensures |ToBytesF(id, f)| == FIXED_SIZE + 2 * |f.name|
    ensures ToBytesF(id, f)[0] == id % 256
    ensures ToBytesF(id, f)[5..7] == U16Bytes(|f.name| % 0x1_0000)
  {
  }

  /** A packet with another id is rejected before any property changes. */
  lemma WrongIdRejected(id: int, data: seq<byte>, f: Properties)
    requires |data| >= 1 && data[0] != id
    ensures ParseF(id, data, f) == Parsed(f, Some(UnexpectedPacketId(data[0])))
  {
    assert data[..1] == [data[0]];
  }

  /** The fields after the name, read back. */
  lemma TailRoundTrip(f: Properties, g: Properties)
    ensures TailF(I32Bytes(f.level) + (I32Bytes(f.classId) + (U32Bytes(f.position.x)
      + (U32Bytes(f.position.y) + U32Bytes(f.position.z)))), g)
      == Parsed(g.(level := f.level, classId := f.classId, position := f.position), None)
  {
    var s6 := U32Bytes(f.position.y) + U32Bytes(f.position.z);
    var s5 := U32Bytes(f.position.x) + s6;
    var s4 := I32Bytes(f.classId) + s5;
    TakeInt32Of(f.level, s4);
    TakeInt32Of(f.classId, s5);
    TakeUInt32Of(f.position.x, s6);
    TakeUInt32Of(f.position.y, U32Bytes(f.position.z));
    assert U32Bytes(f.position.z) == U32Bytes(f.position.z) + [];
    TakeUInt32Of(f.position.z, []);
  }

  /** The id, object id and name, read back; a well-formed name is followed by `rest`. */
  lemma HeadRoundTrip(id: byte, objectId: uint32, name: Units, rest: seq<byte>, g: Properties)
    requires |name| < 0x1_0000
    ensures HeadF(id, [id] + (U32Bytes(objectId) + (U16Bytes(|name|) + (UnicodeBytes(name) + rest))), g)
      == Step(g.(objectId := objectId, name := TrimEndNul(Scrub(name))), None, rest)
  {
    var s2 := UnicodeBytes(name) + rest;
    var s1 := U16Bytes(|name|) + s2;
    TakeByteOf(id, U32Bytes(objectId) + s1);
    TakeUInt32Of(objectId, s1);
    TakeUInt16Of(|name|, s2);
    TakeAtMostOf(UnicodeBytes(name), rest);
    GetStringOfUnicodeBytes(name);
  }

  /**
   * Serialising and parsing back restores every property, the name without
   * lone surrogates and trailing NULs, as long as the unit count fits in 16 bits.
   */
  lemma RoundTrip(id: int, f: Properties, g: Properties)
    requires 0 <= id < 256 && |f.name| < 0x1_0000
    ensures ParseF(id, ToBytesF(id, f), g) == Parsed(f.(name := TrimEndNul(Scrub(f.name))), None)
  {
    var tail := I32Bytes(f.level) + (I32Bytes(f.classId) + (U32Bytes(f.position.x)
      + (U32Bytes(f.position.y) + U32Bytes(f.position.z))));
    var nameBytes := UnicodeBytes(f.name);
    assert (|nameBytes| / 2) % 0x1_0000 == |f.name|;
    var b: byte := id;
    assert ToBytesF(id, f) == [b] + (U32Bytes(f.objectId) + (U16Bytes(|f.name|) + (nameBytes + tail)));
    HeadRoundTrip(b, f.objectId, f.name, tail, g);
    TailRoundTrip(f, g.(objectId := f.objectId, name := TrimEndNul(Scrub(f.name))));
  }

  /**
   * A packet cut short after the name (fewer than four bytes of level) leaves
   * the object id and the name updated and every later property as it was.
   */
  lemma CutAfterName(id: byte, objectId: uint32, name: Units, tail: seq<byte>, g: Properties)
    requires |name| < 0x1_0000 && |tail| < 4
    ensures ParseF(id, [id] + (U32Bytes(objectId) + (U16Bytes(|name|) + (UnicodeBytes(name) + tail))), g)
      == Parsed(g.(objectId := objectId, name := TrimEndNul(Scrub(name))), Some(EndOfStream))
  {
    var data := [id] + (U32Bytes(objectId) + (U16Bytes(|name|) + (UnicodeBytes(name) + tail)));
    HeadRoundTrip(id, objectId, name, tail, g);
    CutAfterHead(id, data, g);
  }

  /** A packet whose head reads and which then has fewer than four bytes ends after the head. */
  lemma CutAfterHead(id: int, data: seq<byte>, g: Properties)
    requires HeadF(id, data, g).error.None? && |HeadF(id, data, g).rest| < 4
    ensures ParseF(id, data, g) == Parsed(HeadF(id, data, g).fields, Some(EndOfStream))
  {
    var h := HeadF(id, data, g);
    TailShort(h.rest, h.fields);
  }

  /** Fewer than four bytes after the name: the level cannot be read and nothing more changes. */
  lemma TailShort(s: seq<byte>, f: Properties)
    requires |s| < 4
    ensures TailF(s, f) == Parsed(f, Some(EndOfStream))
  {
    TakeWordShort(s, 4);
  }
}
