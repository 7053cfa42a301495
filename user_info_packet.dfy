/**
 * The component-based UserInfo packet.
 *
 * A header (object id, init block size, a count of mask bits) is followed by
 * `(maskBits + 7) / 8` mask bytes. Each set bit names a component; bit 7 of
 * mask byte `i` names component `8 i`, bit 0 names `8 i + 7`. The component
 * number is cast to a byte, and only numbers 0x00..0x1C are kept. The
 * components are then read in mask order: RELATION, BASIC_INFO and POSITION
 * are decoded and stored by type (a later one overwrites an earlier one);
 * every other component is skipped by its 16-bit size prefix.
 */
module UserInfoPacket {
  import opened Bytes
  import opened Utf16
  import opened Wrappers

  // Values of the byte-sized `UserInfoType` enumeration that are decoded.
  const RELATION: byte := 0x00
  const BASIC_INFO: byte := 0x01
  const POSITION: byte := 0x0A
  /** The last defined value (`VANGUARD_MOUNT`); every value up to it is defined. */
  const LAST_TYPE: byte := 0x1C

  /** Header bytes before the mask: object id, init block size, mask bits. */
  const HEADER_SIZE: nat := 10

  /** `Enum.IsDefined(typeof(UserInfoType), t)`. */
  predicate IsDefined(t: byte)
  {
    t <= LAST_TYPE
  }

  /** The component types whose payload is decoded and stored. */
  predicate Stored(t: byte)
  {
    t == RELATION || t == BASIC_INFO || t == POSITION
  }

  datatype Component =
    | Relation(relation: uint32)
    | BasicInfo(name: Units, gm: byte, race: byte, female: byte,
                rootClass: uint32, classId: uint32, level: uint32, classIdRepeat: uint32)
    | Position(x: int32, y: int32, z: int32, vehicleId: uint32)

  datatype UserInfo = UserInfo(
    objectId: uint32,
    initBlockSize: uint32,
    maskBits: uint16,
    mask: seq<byte>,
    components: map<byte, Component>)

  datatype UserInfoError =
    | PacketTooShort(length: nat)  // InvalidDataException for an empty packet
    | EndOfStream

  // ---------------------------------------------------------------------
  // The mask.

  /** `(b & (1 << bit)) != 0`. */
  predicate BitSet(b: byte, bit: nat)
    requires bit < 8
  {
    (b as bv8) & ((1 as bv8) << bit) != 0
  }

  /** Mask bit `k` is set and names a defined component once cast to a byte. */
  predicate Selected(mask: seq<byte>, k: nat)
    requires k < 8 * |mask|
  {
    BitSet(mask[k / 8], 7 - k % 8) && IsDefined(ToByte(k))
  }

  /** The components named by mask bits `0 .. n - 1`, in bit order. */
  function IncludedUpTo(mask: seq<byte>, n: nat): (r: seq<byte>)
    requires n <= 8 * |mask|
    ensures |r| <= n
    ensures forall j :: 0 <= j < |r| ==> IsDefined(r[j])
  {
    if n == 0 then []
    else IncludedUpTo(mask, n - 1) + (if Selected(mask, n - 1) then [ToByte(n - 1)] else [])
  }

  /** The components named by the whole mask. */
  function Included(mask: seq<byte>): seq<byte>
  {
    IncludedUpTo(mask, 8 * |mask|)
  }

  /** Bit `bit` of mask byte `i` is mask bit `8 i + 7 - bit`. */
  lemma MaskBitOf(mask: seq<byte>, i: nat, bit: nat)
    requires i < |mask| && bit < 8
    ensures var k := i * 8 + (7 - bit);
      k < 8 * |mask| && k / 8 == i && k % 8 == 7 - bit &&
      (Selected(mask, k) <==> BitSet(mask[i], bit) && IsDefined(ToByte(k)))
  {
  }

  /** One more bit of the scan: bit `bit` of mask byte `i`, which is mask bit `n`. */
  lemma IncludedStep(mask: seq<byte>, i: nat, bit: nat, n: nat)
    requires i < |mask| && bit < 8 && n == 8 * i + (7 - bit)
    ensures n < 8 * |mask|
    ensures IncludedUpTo(mask, n + 1) ==
      IncludedUpTo(mask, n) + (if BitSet(mask[i], bit) && IsDefined(ToByte(n)) then [ToByte(n)] else [])
  {
    MaskBitOf(mask, i, bit);
  }

  /** The scan over mask bytes and, within a byte, from bit 7 down to bit 0. */
  method IncludedComponents(mask: seq<byte>) returns (included: seq<byte>)
    ensures included == Included(mask)
  {
    included := [];
    var i := 0;
    while i < |mask|
      invariant 0 <= i <= |mask|
      invariant included == IncludedUpTo(mask, 8 * i)
    {
      included := ScanMaskByte(mask, i, included);
      i := i + 1;
    }
  }

  /** The inner loop of `IncludedComponents`: the bits of mask byte `i`, from bit 7 down to bit 0. */
  method ScanMaskByte(mask: seq<byte>, i: nat, included: seq<byte>) returns (included': seq<byte>)
    requires i < |mask| && included == IncludedUpTo(mask, 8 * i)
    ensures included' == IncludedUpTo(mask, 8 * (i + 1))
  {
    included' := included;
    var bit := 7;
    ghost var n := 8 * i;
    while bit >= 0
      invariant -1 <= bit <= 7 && n == 8 * i + (7 - bit)
      invariant included' == IncludedUpTo(mask, n)
    {
      var maskBit := i * 8 + (7 - bit);
      assert maskBit == n;
      IncludedStep(mask, i, bit, maskBit);
      if BitSet(mask[i], bit) {
        if IsDefined(ToByte(maskBit)) {
          included' := included' + [ToByte(maskBit)];
        }
      }
      bit := bit - 1;
      n := n + 1;
    }
  }

  /** A type is included exactly when some selected mask bit names it. */
  lemma {:induction false} IncludedUpToMembers(mask: seq<byte>, n: nat, t: byte)
    requires n <= 8 * |mask|
    ensures t in IncludedUpTo(mask, n) <==> exists k :: 0 <= k < n && Selected(mask, k) && ToByte(k) == t
  {
    if n > 0 {
      IncludedUpToMembers(mask, n - 1, t);
      if Selected(mask, n - 1) && ToByte(n - 1) == t {
        assert t in IncludedUpTo(mask, n);
      }
    }
  }

  /**
   * Component `t` is included iff its type is defined and some set mask bit
   * `k` names it once cast to a byte (`k % 256 == t`).
   */
  lemma IncludedMembers(mask: seq<byte>, t: byte)
    ensures t in Included(mask) <==>
      IsDefined(t) && exists k :: 0 <= k < 8 * |mask| && BitSet(mask[k / 8], 7 - k % 8) && ToByte(k) == t
  {
    IncludedUpToMembers(mask, 8 * |mask|, t);
  }

  /** Which bits of the mask C0 20 are set: 0, 1 and 10 (bits 7 and 6 of the first byte, bit 5 of the second). */
  lemma ExampleMaskBits()
    ensures var m: seq<byte> := [0xC0, 0x20];
      forall k :: 0 <= k < 16 ==> (Selected(m, k) <==> k == 0 || k == 1 || k == 10)
  {
    var m: seq<byte> := [0xC0, 0x20];
    assert BitSet(0xC0, 7) && BitSet(0xC0, 6) && !BitSet(0xC0, 5) && !BitSet(0xC0, 4);
    assert !BitSet(0xC0, 3) && !BitSet(0xC0, 2) && !BitSet(0xC0, 1) && !BitSet(0xC0, 0);
    assert !BitSet(0x20, 7) && !BitSet(0x20, 6) && BitSet(0x20, 5) && !BitSet(0x20, 4);
    assert !BitSet(0x20, 3) && !BitSet(0x20, 2) && !BitSet(0x20, 1) && !BitSet(0x20, 0);
    forall k | 0 <= k < 16 ensures Selected(m, k) <==> k == 0 || k == 1 || k == 10 {
      assert m[k / 8] == if k < 8 then 0xC0 else 0x20;
    }
  }

  lemma IncludedExample()
    ensures Included([0xC0, 0x20]) == [RELATION, BASIC_INFO, POSITION]
  {
    var m: seq<byte> := [0xC0, 0x20];
    ExampleMaskBits();
    assert IncludedUpTo(m, 1) == [RELATION];
    assert IncludedUpTo(m, 2) == [RELATION, BASIC_INFO];
    assert IncludedUpTo(m, 3) == [RELATION, BASIC_INFO];
    assert IncludedUpTo(m, 4) == [RELATION, BASIC_INFO];
    assert IncludedUpTo(m, 5) == [RELATION, BASIC_INFO];
    assert IncludedUpTo(m, 6) == [RELATION, BASIC_INFO];
    assert IncludedUpTo(m, 7) == [RELATION, BASIC_INFO];
    assert IncludedUpTo(m, 8) == [RELATION, BASIC_INFO];
    assert IncludedUpTo(m, 9) == [RELATION, BASIC_INFO];
    assert IncludedUpTo(m, 10) == [RELATION, BASIC_INFO];
    assert IncludedUpTo(m, 11) == [RELATION, BASIC_INFO, POSITION];
    assert IncludedUpTo(m, 12) == [RELATION, BASIC_INFO, POSITION];
    assert IncludedUpTo(m, 13) == [RELATION, BASIC_INFO, POSITION];
    assert IncludedUpTo(m, 14) == [RELATION, BASIC_INFO, POSITION];
    assert IncludedUpTo(m, 15) == [RELATION, BASIC_INFO, POSITION];
  }


  // ---------------------------------------------------------------------
  // Components.

  /** BASIC_INFO's size (unused), name length and UTF-16LE name, NULs trimmed. */
  function NameBlockF(s: seq<byte>): Read<Units>
  {
    var size := TakeUInt16(s);                 if size.Eof? then Eof else
    var len := TakeUInt16(size.rest);          if len.Eof? then Eof else
    var b := TakeAtMost(len.rest, 2 * len.value);
    Got(TrimEndNul(GetString(b)), len.rest[|b|..])
  }

  function BasicInfoF(s: seq<byte>): Read<Component>
  {
    var name := NameBlockF(s);                 if name.Eof? then Eof else
    var gm := TakeByte(name.rest);             if gm.Eof? then Eof else
    var race := TakeByte(gm.rest);             if race.Eof? then Eof else
    var female := TakeByte(race.rest);         if female.Eof? then Eof else
    var root := TakeUInt32(female.rest);       if root.Eof? then Eof else
    var classId := TakeUInt32(root.rest);      if classId.Eof? then Eof else
    var level := TakeUInt32(classId.rest);     if level.Eof? then Eof else
    var repeat := TakeUInt32(level.rest);      if repeat.Eof? then Eof else
    Got(BasicInfo(name.value, gm.value, race.value, female.value,
                  root.value, classId.value, level.value, repeat.value),
        repeat.rest)
  }

  function PositionF(s: seq<byte>): Read<Component>
  {
    var size := TakeUInt16(s);                 if size.Eof? then Eof else
    var x := TakeInt32(size.rest);             if x.Eof? then Eof else
    var y := TakeInt32(x.rest);                if y.Eof? then Eof else
    var z := TakeInt32(y.rest);                if z.Eof? then Eof else
    var vehicle := TakeUInt32(z.rest);         if vehicle.Eof? then Eof else
    Got(Position(x.value, y.value, z.value, vehicle.value), vehicle.rest)
  }

  /**
   * Skipping a component that is not decoded: when two bytes remain, its size
   * is read, and its payload is skipped when it fits. A size that does not fit
   * leaves the stream right after the size.
   */
  function SkipF(s: seq<byte>): seq<byte>
  {
    if |s| < 2 then s
    else
      var size := TakeUInt16(s);
      if size.Got? && size.value <= |size.rest| then size.rest[size.value..]
      else After(size)
  }

  /** The type a decoded component is stored under. */
  function TypeOf(c: Component): (t: byte)
    ensures Stored(t)
  {
    match c
    case Relation(_) => RELATION
    case BasicInfo(_, _, _, _, _, _, _, _) => BASIC_INFO
    case Position(_, _, _, _) => POSITION
  }

  /**
   * One component: its stored value, or None when it was skipped. A value is
   * produced exactly for the three decoded types, and is of that type; a
   * skipped component never fails.
   */
  function ComponentF(t: byte, s: seq<byte>): (r: Read<Option<Component>>)
    ensures r.Got? ==> (r.value.Some? <==> Stored(t))
    ensures r.Got? && r.value.Some? ==> TypeOf(r.value.value) == t
    ensures !Stored(t) ==> r.Got?
  {
    if t == RELATION then
      var v := TakeUInt32(s);
      if v.Eof? then Eof else Got(Some(Relation(v.value)), v.rest)
    else if t == BASIC_INFO then
      var v := BasicInfoF(s);
      if v.Eof? then Eof else Got(Some(v.value), v.rest)
    else if t == POSITION then
      var v := PositionF(s);
      if v.Eof? then Eof else Got(Some(v.value), v.rest)
    else Got(None, SkipF(s))
  }

  /** The components of `types` read in order into `acc`; the last one of a type wins. */
  function ComponentsF(types: seq<byte>, s: seq<byte>, acc: map<byte, Component>): Read<map<byte, Component>>
    decreases |types|
  {
    if |types| == 0 then Got(acc, s)
    else
      var c := ComponentF(types[0], s);
      if c.Eof? then Eof
      else ComponentsF(types[1..], c.rest, if c.value.Some? then acc[types[0] := c.value.value] else acc)
  }

  method ReadNameBlock(r: Reader) returns (res: Read<Units>)
    requires r.Valid()
    modifies r
    ensures r.Valid()
    ensures res == NameBlockF(old(r.Rest())) && r.Rest() == After(res)
  {
    var size := r.ReadUInt16();
    if size.Eof? { return Eof; }
    var len := r.ReadUInt16();
    if len.Eof? { return Eof; }
    var b := r.ReadBytes(2 * len.value);
    res := Got(TrimEndNul(GetString(b)), r.Rest());
  }

  method ReadBasicInfo(r: Reader) returns (res: Read<Component>)
    requires r.Valid()
    modifies r
    ensures r.Valid()
    ensures res == BasicInfoF(old(r.Rest())) && r.Rest() == After(res)
  {
    var name := ReadNameBlock(r);
    if name.Eof? { return Eof; }
    var gm := r.ReadByte();
    if gm.Eof? { return Eof; }
    var race := r.ReadByte();
    if race.Eof? { return Eof; }
    var female := r.ReadByte();
    if female.Eof? { return Eof; }
    var root := r.ReadUInt32();
    if root.Eof? { return Eof; }
    var classId := r.ReadUInt32();
    if classId.Eof? { return Eof; }
    var level := r.ReadUInt32();
    if level.Eof? { return Eof; }
    var repeat := r.ReadUInt32();
    if repeat.Eof? { return Eof; }
    res := Got(BasicInfo(name.value, gm.value, race.value, female.value,
                         root.value, classId.value, level.value, repeat.value),
               r.Rest());
  }

  method ReadPosition(r: Reader) returns (res: Read<Component>)
    requires r.Valid()
    modifies r
    ensures r.Valid()
    ensures res == PositionF(old(r.Rest())) && r.Rest() == After(res)
  {
    var size := r.ReadUInt16();
    if size.Eof? { return Eof; }
    var x := r.ReadInt32();
    if x.Eof? { return Eof; }
    var y := r.ReadInt32();
    if y.Eof? { return Eof; }
    var z := r.ReadInt32();
    if z.Eof? { return Eof; }
    var vehicle := r.ReadUInt32();
    if vehicle.Eof? { return Eof; }
    res := Got(Position(x.value, y.value, z.value, vehicle.value), r.Rest());
  }

  /** One arm of the component switch. */
  method ReadComponent(r: Reader, t: byte) returns (res: Read<Option<Component>>)
    requires r.Valid()
    modifies r
    ensures r.Valid()
    ensures res == ComponentF(t, old(r.Rest())) && r.Rest() == After(res)
  {
    if t == RELATION {
      var v := r.ReadUInt32();
      res := if v.Eof? then Eof else Got(Some(Relation(v.value)), v.rest);
    } else if t == BASIC_INFO {
      var v := ReadBasicInfo(r);
      res := if v.Eof? then Eof else Got(Some(v.value), v.rest);
    } else if t == POSITION {
      var v := ReadPosition(r);
      res := if v.Eof? then Eof else Got(Some(v.value), v.rest);
    } else {
      if r.Position() + 2 <= r.Length() {
        var size := r.ReadUInt16();
        if r.Position() + size.value <= r.Length() {
          var skipped := r.ReadBytes(size.value);
        }
      }
      res := Got(None, r.Rest());
    }
  }

  // ---------------------------------------------------------------------
  // The packet.

  /** Object id, init block size, mask bit count and the mask bytes read. */
  datatype Header = Header(objectId: uint32, initBlockSize: uint32, maskBits: uint16, mask: seq<byte>)

  function HeaderF(data: seq<byte>): Read<Header>
  {
    var objectId := TakeUInt32(data);           if objectId.Eof? then Eof else
    var initBlock := TakeUInt32(objectId.rest); if initBlock.Eof? then Eof else
    var maskBits := TakeUInt16(initBlock.rest); if maskBits.Eof? then Eof else
    var mask := TakeAtMost(maskBits.rest, (maskBits.value + 7) / 8);
    Got(Header(objectId.value, initBlock.value, maskBits.value, mask), maskBits.rest[|mask|..])
  }

  /** `UserInfoPacket.FromBytes`. */
  function FromBytesF(data: seq<byte>): Result<UserInfo, UserInfoError>
  {
    if |data| < 1 then Err(PacketTooShort(|data|)) else
    var h := HeaderF(data);
    if h.Eof? then Err(EndOfStream) else
    var comps := ComponentsF(Included(h.value.mask), h.rest, map[]);
    if comps.Eof? then Err(EndOfStream)
    else Ok(UserInfo(h.value.objectId, h.value.initBlockSize, h.value.maskBits, h.value.mask, comps.value))
  }

  method ReadHeader(r: Reader) returns (res: Read<Header>)
    requires r.Valid()
    modifies r
    ensures r.Valid()
    ensures res == HeaderF(old(r.Rest())) && r.Rest() == After(res)
  {
    var objectId := r.ReadUInt32();
    if objectId.Eof? { return Eof; }
    var initBlock := r.ReadUInt32();
    if initBlock.Eof? { return Eof; }
    var maskBits := r.ReadUInt16();
    if maskBits.Eof? { return Eof; }
    ghost var rest := r.Rest();
    assert rest == maskBits.rest;
    var mask := r.ReadBytes((maskBits.value + 7) / 8);
    assert r.Rest() == maskBits.rest[|mask|..];
    res := Got(Header(objectId.value, initBlock.value, maskBits.value, mask), r.Rest());
  }

  /** The `foreach` over the included components. */
  method ReadComponents(r: Reader, types: seq<byte>) returns (res: Read<map<byte, Component>>)
    requires r.Valid()
    modifies r
    ensures r.Valid()
    ensures res == ComponentsF(types, old(r.Rest()), map[])
    ensures res.Got? ==> r.Rest() == res.rest
  {
    var components: map<byte, Component> := map[];
    var i := 0;
    while i < |types|
      invariant 0 <= i <= |types|
      invariant r.Valid()
      invariant ComponentsF(types[i..], r.Rest(), components) == ComponentsF(types, old(r.Rest()), map[])
    {
      var c := ReadComponent(r, types[i]);
      if c.Eof? { return Eof; }
      assert types[i..][1..] == types[i + 1..];
      if c.value.Some? {
        components := components[types[i] := c.value.value];
      }
      i := i + 1;
    }
    res := Got(components, r.Rest());
  }

  method FromBytes(data: seq<byte>) returns (res: Result<UserInfo, UserInfoError>)
    ensures res == FromBytesF(data)
  {
    var r := new Reader(data);
    if |data| < 1 {
      return Err(PacketTooShort(|data|));
    }
    var h := ReadHeader(r);
    if h.Eof? { return Err(EndOfStream); }
    var included := IncludedComponents(h.value.mask);
    var comps := ReadComponents(r, included);
    if comps.Eof? { return Err(EndOfStream); }
    res := Ok(UserInfo(h.value.objectId, h.value.initBlockSize, h.value.maskBits, h.value.mask, comps.value));
  }

  // ---------------------------------------------------------------------
  // What the decoder promises.

  lemma HeaderShape(data: seq<byte>)
    ensures HeaderF(data).Got? <==> |data| >= HEADER_SIZE
    ensures HeaderF(data).Got? ==>
      var h := HeaderF(data).value;
      h.maskBits == FromLE(data[8..10]) &&
      |h.mask| == (if (h.maskBits + 7) / 8 <= |data| - HEADER_SIZE then (h.maskBits + 7) / 8 else |data| - HEADER_SIZE) &&
      h.mask == data[HEADER_SIZE..HEADER_SIZE + |h.mask|] &&
      HeaderF(data).rest == data[HEADER_SIZE + |h.mask|..]
  {
    if |data| >= HEADER_SIZE {
      assert data[0..] == data;
      TakeWordAt(data, 0, 4); TakeWordAt(data, 4, 4); TakeWordAt(data, 8, 2);
      assert data[8..][..2] == data[8..10];
    }
  }

  /** The keys read are the stored types among those listed, plus the ones already there. */
  lemma {:induction false} ComponentsKeys(types: seq<byte>, s: seq<byte>, acc: map<byte, Component>)
    requires forall t :: t in acc ==> TypeOf(acc[t]) == t
    ensures var r := ComponentsF(types, s, acc);
      r.Got? ==> r.value.Keys == acc.Keys + (set t | t in types && Stored(t)) &&
                 forall t :: t in r.value ==> TypeOf(r.value[t]) == t
    decreases |types|
  {
    if |types| > 0 {
      var c := ComponentF(types[0], s);
      if c.Got? {
        var acc' := if c.value.Some? then acc[types[0] := c.value.value] else acc;
        ComponentsKeys(types[1..], c.rest, acc');
        assert (set t | t in types && Stored(t)) ==
          (if Stored(types[0]) then {types[0]} else {}) + (set t | t in types[1..] && Stored(t)) by {
          assert forall t :: t in types <==> t == types[0] || t in types[1..];
        }
      }
    }
  }

  /**
   * Reading one more component after a list: the map gets that component if
   * it is stored, replacing any earlier value of the same type.
   */
  lemma {:induction false} LastWins(types: seq<byte>, t: byte, s: seq<byte>, acc: map<byte, Component>)
    requires ComponentsF(types, s, acc).Got?
    ensures var r := ComponentsF(types, s, acc);
      var c := ComponentF(t, r.rest);
      ComponentsF(types + [t], s, acc) ==
        if c.Eof? then Eof
        else if c.value.Some? then Got(r.value[t := c.value.value], c.rest)
        else Got(r.value, c.rest)
    decreases |types|
  {
    if |types| > 0 {
      assert (types + [t])[1..] == types[1..] + [t];
      var c := ComponentF(types[0], s);
      LastWins(types[1..], t, c.rest, if c.value.Some? then acc[types[0] := c.value.value] else acc);
    } else {
      assert ([] + [t])[1..] == [];
    }
  }

  /**
   * The outcome of `FromBytes`: an empty packet is rejected as too short, a
   * header cut short is EndOfStream, and a decoded packet holds the mask bytes
   * present and one component for each stored type the mask includes.
   */
  lemma DecodeOutcome(data: seq<byte>)
    ensures FromBytesF(data).Err? && FromBytesF(data).error.PacketTooShort? <==> |data| == 0
    ensures 1 <= |data| < HEADER_SIZE ==> FromBytesF(data) == Err(EndOfStream)
    ensures FromBytesF(data).Ok? ==>
      var p := FromBytesF(data).value;
      |data| >= HEADER_SIZE &&
      p.mask == data[HEADER_SIZE..HEADER_SIZE + |p.mask|] &&
      |p.mask| == (if (p.maskBits + 7) / 8 <= |data| - HEADER_SIZE then (p.maskBits + 7) / 8 else |data| - HEADER_SIZE) &&
      p.components.Keys == (set t | t in Included(p.mask) && Stored(t)) &&
      forall t :: t in p.components ==> TypeOf(p.components[t]) == t
  {
    HeaderShape(data);
    if |data| >= HEADER_SIZE {
      var h := HeaderF(data);
      ComponentsKeys(Included(h.value.mask), h.rest, map[]);
    }
  }

  // ---------------------------------------------------------------------
  // The sender's side.

  /** A component as the decoder returns it: a BASIC_INFO name loses lone surrogates and trailing NULs. */
  function Decoded(c: Component): (d: Component)
    ensures TypeOf(d) == TypeOf(c)
  {
    if c.BasicInfo? then c.(name := TrimEndNul(Scrub(c.name))) else c
  }

  /** A component's payload: a decoded one with its size field, or an opaque one. */
  datatype Part = Part(size: uint16, c: Component) | Opaque(payload: seq<byte>)

  /** `p` can be written as a component of type `t`. */
  predicate Fits(t: byte, p: Part)
  {
    match p
    case Part(_, c) => TypeOf(c) == t && (c.BasicInfo? ==> |c.name| < 0x1_0000)
    case Opaque(payload) => !Stored(t) && |payload| < 0x1_0000
  }

  function NameBlockOnto(size: uint16, name: Units, rest: seq<byte>): seq<byte>
    requires |name| < 0x1_0000
  {
    U16Bytes(size) + (U16Bytes(|name|) + (UnicodeBytes(name) + rest))
  }

  function PartOnto(t: byte, p: Part, rest: seq<byte>): seq<byte>
    requires Fits(t, p)
  {
    match p
    case Opaque(payload) => U16Bytes(|payload|) + (payload + rest)
    case Part(size, c) =>
      match c
      case Relation(v) => U32Bytes(v) + rest
      case BasicInfo(name, gm, race, female, root, classId, level, repeat) =>
        NameBlockOnto(size, name, [gm, race, female] + (U32Bytes(root) + (U32Bytes(classId)
        + (U32Bytes(level) + (U32Bytes(repeat) + rest)))))
      case Position(x, y, z, vehicle) =>
        U16Bytes(size) + (I32Bytes(x) + (I32Bytes(y) + (I32Bytes(z) + (U32Bytes(vehicle) + rest))))
  }

  lemma NameBlockRoundTrip(size: uint16, name: Units, rest: seq<byte>)
    requires |name| < 0x1_0000
    ensures NameBlockF(NameBlockOnto(size, name, rest)) == Got(TrimEndNul(Scrub(name)), rest)
  {
    var body := UnicodeBytes(name) + rest;
    TakeUInt16Of(size, U16Bytes(|name|) + body);
    TakeUInt16Of(|name|, body);
    assert TakeAtMost(body, 2 * |name|) == UnicodeBytes(name);
    assert body[2 * |name|..] == rest;
    GetStringOfUnicodeBytes(name);
  }

  /** The fixed part of a basic-info block after the name: three bytes and four words. */
  lemma BasicInfoFixedRoundTrip(gm: byte, race: byte, female: byte, root: uint32, classId: uint32,
                                level: uint32, repeat: uint32, rest: seq<byte>)
    ensures var s := [gm, race, female] + (U32Bytes(root) + (U32Bytes(classId) + (U32Bytes(level) + (U32Bytes(repeat) + rest))));
      var g := TakeByte(s);
      var r := TakeByte(g.rest);
      var f := TakeByte(r.rest);
      g == Got(gm, [race, female] + s[3..]) && r == Got(race, [female] + s[3..]) && f == Got(female, s[3..])
  {
    var s2 := U32Bytes(root) + (U32Bytes(classId) + (U32Bytes(level) + (U32Bytes(repeat) + rest)));
    ThreeThen(gm, race, female, s2);
    TakeByteOf(gm, [race, female] + s2);
    TakeByteOf(race, [female] + s2);
    TakeByteOf(female, s2);
  }

  lemma ThreeThen<T>(x: T, y: T, z: T, t: seq<T>)
    ensures [x, y, z] + t == [x] + ([y, z] + t) && [y, z] + t == [y] + ([z] + t) && ([x, y, z] + t)[3..] == t
  {
  }

  lemma BasicInfoRoundTrip(size: uint16, c: Component, rest: seq<byte>)
    requires c.BasicInfo? && |c.name| < 0x1_0000
    ensures ComponentF(BASIC_INFO, PartOnto(BASIC_INFO, Part(size, c), rest)) == Got(Some(Decoded(c)), rest)
  {
    var s4 := U32Bytes(c.level) + (U32Bytes(c.classIdRepeat) + rest);
    var s3 := U32Bytes(c.classId) + s4;
    var s2 := U32Bytes(c.rootClass) + s3;
    var s1 := [c.gm, c.race, c.female] + s2;
    NameBlockRoundTrip(size, c.name, s1);
    BasicInfoFixedRoundTrip(c.gm, c.race, c.female, c.rootClass, c.classId, c.level, c.classIdRepeat, rest);
    assert s1[3..] == s2;
    TakeUInt32Of(c.rootClass, s3);
    TakeUInt32Of(c.classId, s4);
    TakeUInt32Of(c.level, U32Bytes(c.classIdRepeat) + rest);
    TakeUInt32Of(c.classIdRepeat, rest);
  }


  lemma PositionRoundTrip(size: uint16, c: Component, rest: seq<byte>)
    requires c.Position?
    ensures ComponentF(POSITION, PartOnto(POSITION, Part(size, c), rest)) == Got(Some(c), rest)
  {
    var s3 := I32Bytes(c.z) + (U32Bytes(c.vehicleId) + rest);
    var s2 := I32Bytes(c.y) + s3;
    var s1 := I32Bytes(c.x) + s2;
    TakeUInt16Of(size, s1);
    TakeInt32Of(c.x, s2);
    TakeInt32Of(c.y, s3);
    TakeInt32Of(c.z, U32Bytes(c.vehicleId) + rest);
    TakeUInt32Of(c.vehicleId, rest);
  }

  /** A skipped component with a payload that fits leaves the stream right after it. */
  lemma OpaqueRoundTrip(t: byte, payload: seq<byte>, rest: seq<byte>)
    requires !Stored(t) && |payload| < 0x1_0000
    ensures ComponentF(t, PartOnto(t, Opaque(payload), rest)) == Got(None, rest)
  {
    TakeUInt16Of(|payload|, payload + rest);
    assert (payload + rest)[|payload|..] == rest;
  }

  /** Every part reads back as itself (decoded). */
  lemma PartRoundTrip(t: byte, p: Part, rest: seq<byte>)
    requires Fits(t, p)
    ensures ComponentF(t, PartOnto(t, p, rest)) ==
      Got(if p.Part? then Some(Decoded(p.c)) else None, rest)
  {
    match p
    case Opaque(payload) => OpaqueRoundTrip(t, payload, rest);
    case Part(size, c) =>
      match c
      case Relation(v) => TakeUInt32Of(v, rest);
      case BasicInfo(_, _, _, _, _, _, _, _) => BasicInfoRoundTrip(size, c, rest);
      case Position(_, _, _, _) => PositionRoundTrip(size, c, rest);
  }

  /**
   * A payload whose size field claims more than remains is not skipped: only
   * the size field is consumed, and decoding goes on.
   */
  lemma OpaqueCutShort(t: byte, size: uint16, tail: seq<byte>)
    requires !Stored(t) && size > |tail|
    ensures ComponentF(t, U16Bytes(size) + tail) == Got(None, tail)
  {
    TakeUInt16Of(size, tail);
  }

  function PartsOnto(types: seq<byte>, parts: seq<Part>, rest: seq<byte>): seq<byte>
    requires |types| == |parts| && forall i :: 0 <= i < |parts| ==> Fits(types[i], parts[i])
    decreases |parts|
  {
    if |parts| == 0 then rest
    else PartOnto(types[0], parts[0], PartsOnto(types[1..], parts[1..], rest))
  }

  /** The map the parts produce, updating `acc` in order. */
  function StoredMap(types: seq<byte>, parts: seq<Part>, acc: map<byte, Component>): map<byte, Component>
    requires |types| == |parts|
    decreases |parts|
  {
    if |parts| == 0 then acc
    else StoredMap(types[1..], parts[1..], if parts[0].Part? then acc[types[0] := Decoded(parts[0].c)] else acc)
  }

  lemma {:induction false} PartsRoundTrip(types: seq<byte>, parts: seq<Part>, rest: seq<byte>, acc: map<byte, Component>)
    requires |types| == |parts| && forall i :: 0 <= i < |parts| ==> Fits(types[i], parts[i])
    ensures ComponentsF(types, PartsOnto(types, parts, rest), acc) == Got(StoredMap(types, parts, acc), rest)
    decreases |parts|
  {
    if |parts| > 0 {
      var tail := PartsOnto(types[1..], parts[1..], rest);
      PartRoundTrip(types[0], parts[0], tail);
      PartsRoundTrip(types[1..], parts[1..], rest,
        if parts[0].Part? then acc[types[0] := Decoded(parts[0].c)] else acc);
    }
  }

  /** The whole packet: header, mask, then one part per included component. */
  function PacketOnto(objectId: uint32, initBlockSize: uint32, maskBits: uint16, mask: seq<byte>,
                      parts: seq<Part>, rest: seq<byte>): seq<byte>
    requires |parts| == |Included(mask)|
    requires forall i :: 0 <= i < |parts| ==> Fits(Included(mask)[i], parts[i])
  {
    U32Bytes(objectId) + (U32Bytes(initBlockSize) + (U16Bytes(maskBits)
    + (mask + PartsOnto(Included(mask), parts, rest))))
  }

  lemma HeaderRoundTrip(objectId: uint32, initBlockSize: uint32, maskBits: uint16, mask: seq<byte>, body: seq<byte>)
    requires |mask| == (maskBits + 7) / 8
    ensures HeaderF(U32Bytes(objectId) + (U32Bytes(initBlockSize) + (U16Bytes(maskBits) + (mask + body))))
      == Got(Header(objectId, initBlockSize, maskBits, mask), body)
  {
    var s2 := U16Bytes(maskBits) + (mask + body);
    TakeUInt32Of(objectId, U32Bytes(initBlockSize) + s2);
    TakeUInt32Of(initBlockSize, s2);
    TakeUInt16Of(maskBits, mask + body);
    assert TakeAtMost(mask + body, |mask|) == mask;
    assert (mask + body)[|mask|..] == body;
  }

  /**
   * A packet whose mask holds `(maskBits + 7) / 8` bytes decodes to its header
   * fields, its mask and the components its parts carry.
   */
  lemma PacketRoundTrip(objectId: uint32, initBlockSize: uint32, maskBits: uint16, mask: seq<byte>,
                        parts: seq<Part>, rest: seq<byte>)
    requires |mask| == (maskBits + 7) / 8
    requires |parts| == |Included(mask)|
    requires forall i :: 0 <= i < |parts| ==> Fits(Included(mask)[i], parts[i])
    ensures FromBytesF(PacketOnto(objectId, initBlockSize, maskBits, mask, parts, rest)) ==
      Ok(UserInfo(objectId, initBlockSize, maskBits, mask, StoredMap(Included(mask), parts, map[])))
  {
    var body := PartsOnto(Included(mask), parts, rest);
    HeaderRoundTrip(objectId, initBlockSize, maskBits, mask, body);
    PartsRoundTrip(Included(mask), parts, rest, map[]);
  }
}
