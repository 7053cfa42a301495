/**
 * The ExPrivateStoreSearchItem packet: one page of a private-store search.
 *
 * The header is the page and the last page (one unsigned byte each) and an
 * int32 item count. Up to that many items follow. The first item that cannot
 * be read ends the list silently; the items before it are kept. Only a
 * header cut short escapes as EndOfStream.
 */
module PrivateStorePacket {
  import opened Bytes
  import opened Utf16
  import opened Wrappers
  import opened ItemInfos

  const MAX_ITEM_PER_PAGE: nat := 120

  const STORE_KEYS := ElementalKeys("attackType", "attackPower")

  datatype PrivateStoreItem = PrivateStoreItem(
    vendorName: Units,
    vendorObjectId: int32,
    storeType: byte,
    price: int64,
    vendorX: int32,
    vendorY: int32,
    vendorZ: int32,
    itemInfo: ItemInfo)

  datatype SearchPage = SearchPage(
    page: byte,
    maxPage: byte,
    nSize: int32,
    items: seq<PrivateStoreItem>)

  /** The only failure that leaves the decoder: the header is cut short. */
  datatype HeaderError = EndOfStream

  // ---------------------------------------------------------------------
  // Vendor names.

  /**
   * `ReadSizedStringUtf16`: a unit count, then at most twice that many bytes
   * decoded as UTF-16LE. A count of 0 reads nothing more.
   */
  function SizedStringF(s: seq<byte>): Read<Units>
  {
    var n := TakeUInt16(s);
    if n.Eof? then Eof
    else if n.value == 0 then Got([], n.rest)
    else
      var b := TakeAtMost(n.rest, 2 * n.value);
      Got(GetString(b), n.rest[|b|..])
  }

  method ReadSizedString(r: Reader) returns (res: Read<Units>)
    requires r.Valid()
    modifies r
    ensures r.Valid()
    ensures res == SizedStringF(old(r.Rest())) && r.Rest() == After(res)
  {
    var n := r.ReadUInt16();
    if n.Eof? { return Eof; }
    if n.value == 0 { return Got([], r.Rest()); }
    var b := r.ReadBytes(2 * n.value);
    res := Got(GetString(b), r.Rest());
  }

  /** The name a sender writes: its unit count, then its UTF-16LE bytes. */
  function SizedStringOnto(name: Units, rest: seq<byte>): seq<byte>
    requires |name| < 0x1_0000
  {
    U16Bytes(|name|) + (UnicodeBytes(name) + rest)
  }

  /** A name read back is the written one with lone surrogates replaced. */
  lemma SizedStringRoundTrip(name: Units, rest: seq<byte>)
    requires |name| < 0x1_0000
    ensures SizedStringF(SizedStringOnto(name, rest)) == Got(Scrub(name), rest)
  {
    var body := UnicodeBytes(name) + rest;
    TakeUInt16Of(|name|, body);
    if |name| > 0 {
      assert TakeAtMost(body, 2 * |name|) == UnicodeBytes(name);
      assert body[2 * |name|..] == rest;
      GetStringOfUnicodeBytes(name);
    }
  }

  // ---------------------------------------------------------------------
  // Items.

  /**
   * `ReadItemInfo(reader, itemSize)`: the shared record decoder, failing when
   * it consumed more than the declared size. A record shorter than the
   * declared size leaves the reader right after the record.
   */
  function ItemWithinF(itemSize: int32, s: seq<byte>): Read<ItemInfo>
  {
    var info := ItemInfoF(STORE_KEYS, s);
    if info.Eof? then Eof
    else if |s| - |info.rest| > itemSize then Eof
    else info
  }

  /** The fields in front of the item record, with the record's declared size. */
  datatype OfferHeader = OfferHeader(
    vendorName: Units,
    vendorObjectId: int32,
    storeType: byte,
    price: int64,
    vendorX: int32,
    vendorY: int32,
    vendorZ: int32,
    itemSize: int32)

  /** The first eight reads of `ReadPrivateStoreItem`. */
  function OfferHeaderF(s: seq<byte>): Read<OfferHeader>
  {
    var name := SizedStringF(s);
    if name.Eof? then Eof else
    var vendor := TakeInt32(name.rest);
    if vendor.Eof? then Eof else
    var storeType := TakeByte(vendor.rest);
    if storeType.Eof? then Eof else
    var price := TakeInt64(storeType.rest);
    if price.Eof? then Eof else
    var x := TakeInt32(price.rest);
    if x.Eof? then Eof else
    var y := TakeInt32(x.rest);
    if y.Eof? then Eof else
    var z := TakeInt32(y.rest);
    if z.Eof? then Eof else
    var itemSize := TakeInt32(z.rest);
    if itemSize.Eof? then Eof else
    Got(OfferHeader(name.value, vendor.value, storeType.value, price.value, x.value, y.value, z.value, itemSize.value),
        itemSize.rest)
  }

  /** `ReadPrivateStoreItem`. */
  function PrivateStoreItemF(s: seq<byte>): Read<PrivateStoreItem>
  {
    var h := OfferHeaderF(s);
    if h.Eof? then Eof else
    var info := ItemWithinF(h.value.itemSize, h.rest);
    if info.Eof? then Eof else
    Got(PrivateStoreItem(h.value.vendorName, h.value.vendorObjectId, h.value.storeType, h.value.price,
                         h.value.vendorX, h.value.vendorY, h.value.vendorZ, info.value),
        info.rest)
  }

  method ReadOfferHeader(r: Reader) returns (res: Read<OfferHeader>)
    requires r.Valid()
    modifies r
    ensures r.Valid()
    ensures res == OfferHeaderF(old(r.Rest()))
    ensures res.Got? ==> r.Rest() == res.rest
  {
    var name := ReadSizedString(r);
    if name.Eof? { return Eof; }
    var vendor := r.ReadInt32();
    if vendor.Eof? { return Eof; }
    var storeType := r.ReadByte();
    if storeType.Eof? { return Eof; }
    var price := r.ReadInt64();
    if price.Eof? { return Eof; }
    var x := r.ReadInt32();
    if x.Eof? { return Eof; }
    var y := r.ReadInt32();
    if y.Eof? { return Eof; }
    var z := r.ReadInt32();
    if z.Eof? { return Eof; }
    var itemSize := r.ReadInt32();
    if itemSize.Eof? { return Eof; }
    res := Got(OfferHeader(name.value, vendor.value, storeType.value, price.value, x.value, y.value, z.value, itemSize.value),
               itemSize.rest);
  }

  /**
   * Reads one item. A failure may leave the reader anywhere: the caller stops
   * reading after it.
   */
  method ReadPrivateStoreItem(r: Reader) returns (res: Read<PrivateStoreItem>)
    requires r.Valid()
    modifies r
    ensures r.Valid()
    ensures res == PrivateStoreItemF(old(r.Rest()))
    ensures res.Got? ==> r.Rest() == res.rest
  {
    var h := ReadOfferHeader(r);
    if h.Eof? { return Eof; }
    var startPosition := r.Position();
    var info := ReadItemInfo(r, STORE_KEYS);
    if info.Eof? { return Eof; }
    var readBytes := r.Position() - startPosition;
    assert readBytes == |h.rest| - |info.rest|;
    if readBytes > h.value.itemSize { return Eof; }
    res := Got(PrivateStoreItem(h.value.vendorName, h.value.vendorObjectId, h.value.storeType, h.value.price,
                                h.value.vendorX, h.value.vendorY, h.value.vendorZ, info.value),
               info.rest);
  }

  /** `FromBytes`. */
  function FromBytesF(data: seq<byte>): Result<SearchPage, HeaderError>
  {
    var page := TakeByte(data);
    if page.Eof? then Err(EndOfStream) else
    var maxPage := TakeByte(page.rest);
    if maxPage.Eof? then Err(EndOfStream) else
    var nSize := TakeInt32(maxPage.rest);
    if nSize.Eof? then Err(EndOfStream) else
    Ok(SearchPage(page.value, maxPage.value, nSize.value,
                  if nSize.value > 0 then RepeatUntilF(PrivateStoreItemF, nSize.rest, 0, nSize.value, []) else []))
  }

  /** The item loop of `FromBytes`: up to `n` offers, ending quietly at the first one cut short. */
  method ReadItems(r: Reader, n: int32) returns (items: seq<PrivateStoreItem>)
    requires r.Valid() && n > 0
    modifies r
    ensures items == RepeatUntilF(PrivateStoreItemF, old(r.Rest()), 0, n, [])
  {
    ghost var start := r.Rest();
    items := [];
    var i := 0;
    while i < n
      invariant r.Valid() && 0 <= i <= n
      invariant RepeatUntilF(PrivateStoreItemF, start, 0, n, [])
             == RepeatUntilF(PrivateStoreItemF, r.Rest(), i, n, items)
      decreases n - i
    {
      ghost var before := r.Rest();
      var item := ReadPrivateStoreItem(r);
      RepeatUntilStep(PrivateStoreItemF, before, i, n, items);
      if item.Eof? {
        return;
      }
      items := items + [item.value];
      i := i + 1;
    }
  }

  method FromBytes(data: seq<byte>) returns (res: Result<SearchPage, HeaderError>)
    ensures res == FromBytesF(data)
  {
    var r := new Reader(data);
    var page := r.ReadByte();
    if page.Eof? { return Err(EndOfStream); }
    var maxPage := r.ReadByte();
    if maxPage.Eof? { return Err(EndOfStream); }
    var nSize := r.ReadInt32();
    if nSize.Eof? { return Err(EndOfStream); }
    var items: seq<PrivateStoreItem> := [];
    if nSize.value > 0 {
      items := ReadItems(r, nSize.value);
    }
    res := Ok(SearchPage(page.value, maxPage.value, nSize.value, items));
  }

  // ---------------------------------------------------------------------
  // Properties of the decoder.

  /**
   * Only a header shorter than six bytes is an error; a decoded page holds at
   * most `nSize` items (none for a count of zero or less).
   */
  lemma DecodedCounts(data: seq<byte>)
    ensures FromBytesF(data).Err? <==> |data| < 6
    ensures var r := FromBytesF(data);
      r.Ok? ==> |r.value.items| <= if r.value.nSize > 0 then r.value.nSize as int else 0
  {
    if |data| >= 6 {
      var nSize := TakeInt32(data[2..]);
      RepeatUntilBound(PrivateStoreItemF, data[6..], 0, nSize.value, []);
    }
  }

  /**
   * An item's record never runs past its declared size, and the reader stops
   * right after the record even when the declared size is larger.
   */
  lemma ItemWithinShape(itemSize: int32, s: seq<byte>)
    ensures var info := ItemInfoF(STORE_KEYS, s);
      ItemWithinF(itemSize, s).Got? <==> info.Got? && WireSize(info.value) <= itemSize
    ensures ItemWithinF(itemSize, s).Got? ==>
      |s| == |ItemWithinF(itemSize, s).rest| + WireSize(ItemWithinF(itemSize, s).value)
    ensures ItemWithinF(itemSize, s).Got? ==>
      ItemWithinF(itemSize, s).rest == s[WireSize(ItemWithinF(itemSize, s).value)..]
  {
    var info := ItemInfoF(STORE_KEYS, s);
    assert ItemWithinF(itemSize, s) == if info.Eof? || |s| - |info.rest| > itemSize then Eof else info;
    if info.Got? {
      ItemInfoSize(STORE_KEYS, s);
    }
  }

  // ---------------------------------------------------------------------
  // Reading back what a sender wrote.

  datatype StoreWire = StoreWire(
    vendorName: Units,
    vendorObjectId: int32,
    storeType: byte,
    price: int64,
    vendorX: int32,
    vendorY: int32,
    vendorZ: int32,
    itemSize: int32,
    item: ItemWire)

  /** A name the count can describe and a record that fits its declared size. */
  predicate StoreWritable(w: StoreWire)
  {
    |w.vendorName| < 0x1_0000 && WireValid(w.item) && WireSize(Decoded(STORE_KEYS, w.item)) <= w.itemSize
  }

  /** The bytes in front of the item record. */
  function OfferHeaderOnto(w: StoreWire, tail: seq<byte>): seq<byte>
    requires |w.vendorName| < 0x1_0000
  {
    SizedStringOnto(w.vendorName, I32Bytes(w.vendorObjectId) + ([w.storeType] + (I64Bytes(w.price)
    + (I32Bytes(w.vendorX) + (I32Bytes(w.vendorY) + (I32Bytes(w.vendorZ) + (I32Bytes(w.itemSize) + tail)))))))
  }

  function StoreOnto(w: StoreWire, rest: seq<byte>): seq<byte>
    requires StoreWritable(w)
  {
    OfferHeaderOnto(w, ItemInfoOnto(w.item, rest))
  }

  function DecodedItem(w: StoreWire): PrivateStoreItem
  {
    PrivateStoreItem(Scrub(w.vendorName), w.vendorObjectId, w.storeType, w.price,
                     w.vendorX, w.vendorY, w.vendorZ, Decoded(STORE_KEYS, w.item))
  }

  lemma ItemWithinRoundTrip(w: StoreWire, rest: seq<byte>)
    requires StoreWritable(w)
    ensures ItemWithinF(w.itemSize, ItemInfoOnto(w.item, rest)) == Got(Decoded(STORE_KEYS, w.item), rest)
  {
    ItemInfoRoundTrip(STORE_KEYS, w.item, rest);
    ItemInfoSize(STORE_KEYS, ItemInfoOnto(w.item, rest));
  }

  lemma OfferHeaderRoundTrip(w: StoreWire, tail: seq<byte>)
    requires |w.vendorName| < 0x1_0000
    ensures OfferHeaderF(OfferHeaderOnto(w, tail))
         == Got(OfferHeader(Scrub(w.vendorName), w.vendorObjectId, w.storeType, w.price,
                            w.vendorX, w.vendorY, w.vendorZ, w.itemSize), tail)
  {
    var s8 := I32Bytes(w.itemSize) + tail;
    var s7 := I32Bytes(w.vendorZ) + s8;
    var s6 := I32Bytes(w.vendorY) + s7;
    var s5 := I32Bytes(w.vendorX) + s6;
    var s4 := I64Bytes(w.price) + s5;
    var s3 := [w.storeType] + s4;
    var s2 := I32Bytes(w.vendorObjectId) + s3;
    SizedStringRoundTrip(w.vendorName, s2);
    TakeInt32Of(w.vendorObjectId, s3);
    TakeByteOf(w.storeType, s4);
    TakeInt64Of(w.price, s5);
    TakeInt32Of(w.vendorX, s6);
    TakeInt32Of(w.vendorY, s7);
    TakeInt32Of(w.vendorZ, s8);
    TakeInt32Of(w.itemSize, tail);
  }

  lemma StoreItemRoundTrip(w: StoreWire, rest: seq<byte>)
    requires StoreWritable(w)
    ensures PrivateStoreItemF(StoreOnto(w, rest)) == Got(DecodedItem(w), rest)
  {
    OfferHeaderRoundTrip(w, ItemInfoOnto(w.item, rest));
    ItemWithinRoundTrip(w, rest);
  }

  function ItemsOnto(ws: seq<StoreWire>, rest: seq<byte>): seq<byte>
    requires forall i :: 0 <= i < |ws| ==> StoreWritable(ws[i])
    decreases |ws|
  {
    if |ws| == 0 then rest else StoreOnto(ws[0], ItemsOnto(ws[1..], rest))
  }

  function DecodedItems(ws: seq<StoreWire>): (r: seq<PrivateStoreItem>)
    ensures |r| == |ws| && forall i :: 0 <= i < |ws| ==> r[i] == DecodedItem(ws[i])
    decreases |ws|
  {
    if |ws| == 0 then [] else [DecodedItem(ws[0])] + DecodedItems(ws[1..])
  }

  /**
   * The loop reads back every written item in order, and then either runs out
   * of steps or meets something that is not an item and stops there.
   */
  lemma ItemsRoundTrip(ws: seq<StoreWire>, rest: seq<byte>, n: int)
    requires forall k :: 0 <= k < |ws| ==> StoreWritable(ws[k])
    requires |ws| <= n
    requires |ws| < n ==> PrivateStoreItemF(rest).Eof?
    ensures RepeatUntilF(PrivateStoreItemF, ItemsOnto(ws, rest), 0, n, []) == DecodedItems(ws)
  {
    var ss := seq(|ws| + 1, k requires 0 <= k <= |ws| => ItemsOnto(ws[k..], rest));
    var xs := DecodedItems(ws);
    forall k | 0 <= k < |xs|
      ensures PrivateStoreItemF(ss[k]) == Got(xs[k], ss[k + 1])
    {
      assert ws[k..][1..] == ws[k + 1..];
      assert ss[k] == StoreOnto(ws[k], ss[k + 1]);
      StoreItemRoundTrip(ws[k], ss[k + 1]);
    }
    assert ws[0..] == ws && ws[|ws|..] == [];
    RepeatUntilOfChain(PrivateStoreItemF, ss, xs, 0, n, []);
    assert [] + xs == xs;
  }

  /**
   * A page whose count is at least the number of written items decodes to
   * exactly those items when the bytes after them are not an item: a bad item
   * costs only itself and what follows it.
   */
  lemma PageRoundTrip(page: byte, maxPage: byte, nSize: int32, ws: seq<StoreWire>, rest: seq<byte>)
    requires forall k :: 0 <= k < |ws| ==> StoreWritable(ws[k])
    requires |ws| <= nSize
    requires |ws| < nSize ==> PrivateStoreItemF(rest).Eof?
    ensures FromBytesF([page] + ([maxPage] + (I32Bytes(nSize) + ItemsOnto(ws, rest))))
         == Ok(SearchPage(page, maxPage, nSize, DecodedItems(ws)))
  {
    var body := ItemsOnto(ws, rest);
    TakeByteOf(page, [maxPage] + (I32Bytes(nSize) + body));
    TakeByteOf(maxPage, I32Bytes(nSize) + body);
    TakeInt32Of(nSize, body);
    if nSize > 0 {
      ItemsRoundTrip(ws, rest, nSize);
    }
  }
}
