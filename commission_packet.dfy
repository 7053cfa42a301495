/**
 * The ExResponseCommissionList packet: a reply type, then, for the two reply
 * types that carry auctions, a header and `chunkSize` commission items.
 *
 * Failures are the .NET exceptions the decoder lets escape:
 *   - EndOfStream when the reply type or the header is cut short;
 *   - InvalidItem(i + 1) when item `i` (counting from 0) cannot be read.
 * The cast of the reply type to its enum never fails, so any int32 is kept
 * as it is.
 */
module CommissionPacket {
  import opened Bytes
  import opened Utf16
  import opened Wrappers
  import opened ItemInfos

  const PLAYER_AUCTIONS_EMPTY: int32 := -2
  const ITEM_DOES_NOT_EXIST: int32 := -1
  const PLAYER_AUCTIONS: int32 := 2
  const AUCTIONS: int32 := 3

  /** The most code units a seller name can have: the first one and 100 more. */
  const MAX_NAME_UNITS: nat := 101

  const COMMISSION_KEYS := ElementalKeys("attack_type", "attack_power")

  datatype CommissionItem = CommissionItem(
    commissionId: int64,
    pricePerUnit: int64,
    commissionItemType: int32,
    durationType: int32,
    endTime: int32,
    sellerName: Option<Units>,
    itemInfo: ItemInfo)

  datatype CommissionList = CommissionList(
    replyType: int32,
    currentTime: int32,
    chunkId: int32,
    chunkSize: int32,
    items: seq<CommissionItem>)

  datatype DecodeError = EndOfStream | InvalidItem(index: int)

  /** A reply type after which a header and items follow. */
  predicate CarriesItems(replyType: int32)
  {
    replyType == PLAYER_AUCTIONS || replyType == AUCTIONS
  }

  // ---------------------------------------------------------------------
  // Seller names.

  /**
   * The name loop after `count` units have been collected into `chars`: it stops
   * after 101 units, when fewer than two bytes are left, or at a zero unit,
   * which it consumes.
   */
  function NameTailF(s: seq<byte>, chars: Units, count: nat): Read<Option<Units>>
    decreases 101 - count
  {
    if count > 100 || |s| < 2 then Got(Some(chars), s)
    else
      var c := TakeUInt16(s);
      if c.Eof? then Eof
      else if c.value == 0 then Got(Some(chars), c.rest)
      else NameTailF(c.rest, chars + [c.value], count + 1)
  }

  /** `ReadNullString`: a lone zero unit, or a stream that ends at once, is no name. */
  function NullStringF(s: seq<byte>): Read<Option<Units>>
  {
    var first := TakeUInt16(s);
    if first.Eof? then Got(None, [])
    else if first.value == 0 then Got(None, first.rest)
    else NameTailF(first.rest, [first.value], 1)
  }

  method ReadNullString(r: Reader) returns (res: Read<Option<Units>>)
    requires r.Valid()
    modifies r
    ensures r.Valid()
    ensures res == NullStringF(old(r.Rest())) && r.Rest() == After(res)
  {
    var first := r.ReadUInt16();
    if first.Eof? { return Got(None, []); }
    if first.value == 0 { return Got(None, r.Rest()); }
    ghost var start := r.Rest();
    var chars: Units := [first.value];
    var count := 1;
    while count <= 100
      invariant r.Valid() && 1 <= count <= 101
      invariant NameTailF(start, [first.value], 1) == NameTailF(r.Rest(), chars, count)
      decreases 101 - count
    {
      if r.Position() + 2 > r.Length() { break; }
      var c := r.ReadUInt16();
      if c.Eof? || c.value == 0 { break; }
      chars := chars + [c.value];
      count := count + 1;
    }
    res := Got(Some(chars), r.Rest());
  }

  lemma {:induction false} NameTailShape(s: seq<byte>, chars: Units, count: nat)
    requires 1 <= count == |chars| <= 101
    requires forall i :: 0 <= i < |chars| ==> chars[i] != 0
    ensures var r := NameTailF(s, chars, count);
      && r.Got? && r.value.Some?
      && |chars| <= |r.value.value| <= MAX_NAME_UNITS
      && r.value.value[..|chars|] == chars
      && (forall i :: 0 <= i < |r.value.value| ==> r.value.value[i] != 0)
    decreases 101 - count
  {
    if count <= 100 && |s| >= 2 {
      var c := TakeUInt16(s);
      if c.value != 0 {
        NameTailShape(c.rest, chars + [c.value], count + 1);
        var r := NameTailF(c.rest, chars + [c.value], count + 1);
        assert r.value.value[..|chars|] == (r.value.value[..|chars| + 1])[..|chars|];
      }
    }
  }

  /**
   * Reading a name never fails; a name it returns has between 1 and 101 code
   * units and no zero unit.
   */
  lemma NullStringShape(s: seq<byte>)
    ensures var r := NullStringF(s);
      && r.Got?
      && (r.value.Some? ==>
            1 <= |r.value.value| <= MAX_NAME_UNITS
            && forall i :: 0 <= i < |r.value.value| ==> r.value.value[i] != 0)
  {
    var first := TakeUInt16(s);
    if first.Got? && first.value != 0 {
      NameTailShape(first.rest, [first.value], 1);
    }
  }

  /** A name with no zero unit contains a zero unit at none of its positions. */
  predicate NoNul(name: Units)
  {
    forall i :: 0 <= i < |name| ==> name[i] != 0
  }

  /** The bytes a sender writes for a name, followed by `rest`. */
  function NameOnto(name: Option<Units>, rest: seq<byte>): seq<byte>
  {
    if name.None? then [0, 0] + rest
    else if |name.value| < MAX_NAME_UNITS then UnitBytes(name.value) + ([0, 0] + rest)
    else UnitBytes(name.value) + rest
  }

  predicate NameWritable(name: Option<Units>)
  {
    name.Some? ==> 1 <= |name.value| <= MAX_NAME_UNITS && NoNul(name.value)
  }

  lemma {:induction false} NameTailRoundTrip(name: Units, chars: Units, count: nat, rest: seq<byte>)
    requires 1 <= count == |chars| && count + |name| <= MAX_NAME_UNITS && NoNul(name)
    ensures NameTailF(UnitBytes(name) + (if count + |name| < MAX_NAME_UNITS then [0, 0] + rest else rest), chars, count)
         == Got(Some(chars + name), rest)
    decreases |name|
  {
    var tail := if count + |name| < MAX_NAME_UNITS then [0, 0] + rest else rest;
    if |name| == 0 {
      assert chars + name == chars;
      assert UnitBytes(name) + tail == tail;
      if count < MAX_NAME_UNITS {
        assert U16Bytes(0) == [0, 0];
        TakeUInt16Of(0, rest);
        assert TakeUInt16([0, 0] + rest) == Got(0, rest);
      }
    } else {
      var next := UnitBytes(name[1..]) + tail;
      assert UnitBytes(name) + tail == U16Bytes(name[0]) + next;
      TakeUInt16Of(name[0], next);
      assert NameTailF(U16Bytes(name[0]) + next, chars, count) == NameTailF(next, chars + [name[0]], count + 1);
      NameTailRoundTrip(name[1..], chars + [name[0]], count + 1, rest);
      assert chars + [name[0]] + name[1..] == chars + name;
    }
  }

  /** Reading back a name a sender wrote gives the name and leaves what followed. */
  lemma NullStringRoundTrip(name: Option<Units>, rest: seq<byte>)
    requires NameWritable(name)
    ensures NullStringF(NameOnto(name, rest)) == Got(name, rest)
  {
    if name.None? {
      TakeUInt16Of(0, rest);
      assert U16Bytes(0) == [0, 0];
    } else {
      var n := name.value;
      var tail := if 1 + |n[1..]| < MAX_NAME_UNITS then [0, 0] + rest else rest;
      assert NameOnto(name, rest) == U16Bytes(n[0]) + (UnitBytes(n[1..]) + tail);
      TakeUInt16Of(n[0], UnitBytes(n[1..]) + tail);
      NameTailRoundTrip(n[1..], [n[0]], 1, rest);
      assert [n[0]] + n[1..] == n;
    }
  }

  // ---------------------------------------------------------------------
  // Items and the packet.

  /** `ReadCommissionItem`: a 28-byte header, the seller name and the item record. */
  function CommissionItemF(s: seq<byte>): Read<CommissionItem>
  {
    var id := TakeInt64(s);
    if id.Eof? then Eof else
    var price := TakeInt64(id.rest);
    if price.Eof? then Eof else
    var itemType := TakeInt32(price.rest);
    if itemType.Eof? then Eof else
    var duration := TakeInt32(itemType.rest);
    if duration.Eof? then Eof else
    var endTime := TakeInt32(duration.rest);
    if endTime.Eof? then Eof else
    var name := NullStringF(endTime.rest);
    if name.Eof? then Eof else
    var info := ItemInfoF(COMMISSION_KEYS, name.rest);
    if info.Eof? then Eof else
    Got(CommissionItem(id.value, price.value, itemType.value, duration.value, endTime.value,
                       name.value, info.value),
        info.rest)
  }

  method ReadCommissionItem(r: Reader) returns (res: Read<CommissionItem>)
    requires r.Valid()
    modifies r
    ensures r.Valid()
    ensures res == CommissionItemF(old(r.Rest())) && r.Rest() == After(res)
  {
    var id := r.ReadInt64();
    if id.Eof? { return Eof; }
    var price := r.ReadInt64();
    if price.Eof? { return Eof; }
    var itemType := r.ReadInt32();
    if itemType.Eof? { return Eof; }
    var duration := r.ReadInt32();
    if duration.Eof? { return Eof; }
    var endTime := r.ReadInt32();
    if endTime.Eof? { return Eof; }
    var name := ReadNullString(r);
    if name.Eof? { return Eof; }
    var info := ReadItemInfo(r, COMMISSION_KEYS);
    if info.Eof? { return Eof; }
    res := Got(CommissionItem(id.value, price.value, itemType.value, duration.value, endTime.value,
                              name.value, info.value),
               info.rest);
  }

  /** `FromBytes`. */
  function FromBytesF(data: seq<byte>): Result<CommissionList, DecodeError>
  {
    var replyType := TakeInt32(data);
    if replyType.Eof? then Err(EndOfStream)
    else if !CarriesItems(replyType.value) then Ok(CommissionList(replyType.value, 0, 0, 0, []))
    else
      var currentTime := TakeInt32(replyType.rest);
      if currentTime.Eof? then Err(EndOfStream) else
      var chunkId := TakeInt32(currentTime.rest);
      if chunkId.Eof? then Err(EndOfStream) else
      var chunkSize := TakeInt32(chunkId.rest);
      if chunkSize.Eof? then Err(EndOfStream) else
      var items := RepeatF(CommissionItemF, chunkSize.rest, 0, chunkSize.value, []);
      if items.FailedAt? then Err(InvalidItem(items.index))
      else Ok(CommissionList(replyType.value, currentTime.value, chunkId.value, chunkSize.value, items.values))
  }

  method FromBytes(data: seq<byte>) returns (res: Result<CommissionList, DecodeError>)
    ensures res == FromBytesF(data)
  {
    var r := new Reader(data);
    var replyType := r.ReadInt32();
    if replyType.Eof? { return Err(EndOfStream); }
    if !CarriesItems(replyType.value) {
      return Ok(CommissionList(replyType.value, 0, 0, 0, []));
    }
    var currentTime := r.ReadInt32();
    if currentTime.Eof? { return Err(EndOfStream); }
    var chunkId := r.ReadInt32();
    if chunkId.Eof? { return Err(EndOfStream); }
    var chunkSize := r.ReadInt32();
    if chunkSize.Eof? { return Err(EndOfStream); }
    ghost var start := r.Rest();
    var items: seq<CommissionItem> := [];
    var i := 0;
    while i < chunkSize.value
      invariant r.Valid()
      invariant 0 <= i && (i <= chunkSize.value || i == 0)
      invariant RepeatF(CommissionItemF, start, 0, chunkSize.value, [])
             == RepeatF(CommissionItemF, r.Rest(), i, chunkSize.value, items)
      decreases chunkSize.value - i
    {
      var item := ReadCommissionItem(r);
      if item.Eof? {
        return Err(InvalidItem(i + 1));
      }
      items := items + [item.value];
      i := i + 1;
    }
    res := Ok(CommissionList(replyType.value, currentTime.value, chunkId.value, chunkSize.value, items));
  }

  // ---------------------------------------------------------------------
  // Properties of the decoder.

  /**
   * A reply type without auctions yields an empty list and zero header values,
   * whatever follows it.
   */
  lemma NoAuctionsReply(replyType: int32, rest: seq<byte>)
    requires !CarriesItems(replyType)
    ensures FromBytesF(I32Bytes(replyType) + rest) == Ok(CommissionList(replyType, 0, 0, 0, []))
  {
    TakeInt32Of(replyType, rest);
  }

  /**
   * A decoded list holds exactly `chunkSize` items (none for a negative size);
   * a failure at item `k` names an index between 1 and `chunkSize`.
   */
  lemma DecodedCounts(data: seq<byte>)
    ensures var r := FromBytesF(data);
      && (r.Ok? ==> |r.value.items| == if r.value.chunkSize > 0 then r.value.chunkSize as int else 0)
      && (r.Err? && r.error.InvalidItem? ==>
            |data| >= 16 && 1 <= r.error.index <= TakeInt32(data[12..]).value)
  {
    var replyType := TakeInt32(data);
    if replyType.Got? && CarriesItems(replyType.value) && |data| >= 16 {
      var chunkSize := TakeInt32(data[12..]);
      RepeatCount(CommissionItemF, data[16..], 0, chunkSize.value, []);
    }
  }

  /** The stream ends too early for the header exactly when the packet is shorter than it. */
  lemma EndOfStreamWhen(data: seq<byte>)
    ensures FromBytesF(data) == Err(EndOfStream)
        <==> |data| < 4 || (CarriesItems(TakeInt32(data).value) && |data| < 16)
  {
    var replyType := TakeInt32(data);
    if replyType.Got? && CarriesItems(replyType.value) && |data| >= 16 {
      var chunkSize := TakeInt32(data[12..]);
      RepeatCount(CommissionItemF, data[16..], 0, chunkSize.value, []);
    }
  }

  // ---------------------------------------------------------------------
  // Reading back what a sender wrote.

  datatype CommissionWire = CommissionWire(
    commissionId: int64,
    pricePerUnit: int64,
    commissionItemType: int32,
    durationType: int32,
    endTime: int32,
    sellerName: Option<Units>,
    item: ItemWire)

  predicate CommissionWritable(w: CommissionWire)
  {
    NameWritable(w.sellerName) && WireValid(w.item)
  }

  function CommissionOnto(w: CommissionWire, rest: seq<byte>): seq<byte>
    requires CommissionWritable(w)
  {
    I64Bytes(w.commissionId) + (I64Bytes(w.pricePerUnit) + (I32Bytes(w.commissionItemType)
    + (I32Bytes(w.durationType) + (I32Bytes(w.endTime) + NameOnto(w.sellerName, ItemInfoOnto(w.item, rest))))))
  }

  function DecodedItem(w: CommissionWire): CommissionItem
  {
    CommissionItem(w.commissionId, w.pricePerUnit, w.commissionItemType, w.durationType, w.endTime,
                   w.sellerName, Decoded(COMMISSION_KEYS, w.item))
  }

  lemma CommissionItemRoundTrip(w: CommissionWire, rest: seq<byte>)
    requires CommissionWritable(w)
    ensures CommissionItemF(CommissionOnto(w, rest)) == Got(DecodedItem(w), rest)
  {
    var info := ItemInfoOnto(w.item, rest);
    var name := NameOnto(w.sellerName, info);
    var s5 := I32Bytes(w.endTime) + name;
    var s4 := I32Bytes(w.durationType) + s5;
    var s3 := I32Bytes(w.commissionItemType) + s4;
    var s2 := I64Bytes(w.pricePerUnit) + s3;
    TakeInt64Of(w.commissionId, s2);
    TakeInt64Of(w.pricePerUnit, s3);
    TakeInt32Of(w.commissionItemType, s4);
    TakeInt32Of(w.durationType, s5);
    TakeInt32Of(w.endTime, name);
    NullStringRoundTrip(w.sellerName, info);
    ItemInfoRoundTrip(COMMISSION_KEYS, w.item, rest);
  }

  function ItemsOnto(ws: seq<CommissionWire>, rest: seq<byte>): seq<byte>
    requires forall i :: 0 <= i < |ws| ==> CommissionWritable(ws[i])
    decreases |ws|
  {
    if |ws| == 0 then rest else CommissionOnto(ws[0], ItemsOnto(ws[1..], rest))
  }

  function DecodedItems(ws: seq<CommissionWire>): (r: seq<CommissionItem>)
    ensures |r| == |ws| && forall i :: 0 <= i < |ws| ==> r[i] == DecodedItem(ws[i])
    decreases |ws|
  {
    if |ws| == 0 then [] else [DecodedItem(ws[0])] + DecodedItems(ws[1..])
  }

  /** The loop reads back every item a sender wrote, in order. */
  lemma ItemsRoundTrip(ws: seq<CommissionWire>, rest: seq<byte>)
    requires forall k :: 0 <= k < |ws| ==> CommissionWritable(ws[k])
    ensures RepeatF(CommissionItemF, ItemsOnto(ws, rest), 0, |ws|, []) == Repeated(DecodedItems(ws), rest)
  {
    var ss := seq(|ws| + 1, k requires 0 <= k <= |ws| => ItemsOnto(ws[k..], rest));
    var xs := DecodedItems(ws);
    forall k | 0 <= k < |xs|
      ensures CommissionItemF(ss[k]) == Got(xs[k], ss[k + 1])
    {
      assert ws[k..][1..] == ws[k + 1..];
      assert ss[k] == CommissionOnto(ws[k], ss[k + 1]);
      CommissionItemRoundTrip(ws[k], ss[k + 1]);
    }
    assert ws[0..] == ws && ws[|ws|..] == [];
    RepeatOfChain(CommissionItemF, ss, xs, 0, |ws|, []);
    assert [] + xs == xs;
  }

  /** The bytes of a packet with auctions: the header, then the items, then anything. */
  function PacketOnto(replyType: int32, currentTime: int32, chunkId: int32, ws: seq<CommissionWire>, rest: seq<byte>): seq<byte>
    requires |ws| <= INT32_MAX
    requires forall i :: 0 <= i < |ws| ==> CommissionWritable(ws[i])
  {
    I32Bytes(replyType) + (I32Bytes(currentTime) + (I32Bytes(chunkId) + (I32Bytes(|ws|) + ItemsOnto(ws, rest))))
  }

  /** A header for `n` items is read, and the item loop runs on whatever follows it. */
  lemma HeaderThenItems(replyType: int32, currentTime: int32, chunkId: int32, n: int32, body: seq<byte>)
    requires CarriesItems(replyType)
    ensures var items := RepeatF(CommissionItemF, body, 0, n, []);
      FromBytesF(I32Bytes(replyType) + (I32Bytes(currentTime) + (I32Bytes(chunkId) + (I32Bytes(n) + body))))
        == if items.FailedAt? then Err(InvalidItem(items.index))
           else Ok(CommissionList(replyType, currentTime, chunkId, n, items.values))
  {
    var s4 := I32Bytes(n) + body;
    var s3 := I32Bytes(chunkId) + s4;
    var s2 := I32Bytes(currentTime) + s3;
    TakeInt32Of(replyType, s2);
    TakeInt32Of(currentTime, s3);
    TakeInt32Of(chunkId, s4);
    TakeInt32Of(n, body);
  }

  /** Decoding a packet a sender wrote gives back its header and every item, in order. */
  lemma PacketRoundTrip(replyType: int32, currentTime: int32, chunkId: int32, ws: seq<CommissionWire>, rest: seq<byte>)
    requires CarriesItems(replyType)
    requires |ws| <= INT32_MAX
    requires forall i :: 0 <= i < |ws| ==> CommissionWritable(ws[i])
    ensures FromBytesF(PacketOnto(replyType, currentTime, chunkId, ws, rest))
         == Ok(CommissionList(replyType, currentTime, chunkId, |ws|, DecodedItems(ws)))
  {
    ItemsRoundTrip(ws, rest);
    HeaderThenItems(replyType, currentTime, chunkId, |ws|, ItemsOnto(ws, rest));
  }
}
