/**
 * The WorldExchangeItemList packet: an 11-byte header (category, sort type,
 * page, item count) and then `itemsCount` fixed-size items of 82 bytes.
 *
 * Failures are the .NET exceptions the decoder lets escape:
 *   - EndOfStream when the header is cut short;
 *   - InvalidItem(i + 1) when item `i` (counting from 0) is cut short.
 */
module WorldExchangePacket {
  import opened Bytes
  import opened Wrappers

  /** Bytes one item occupies. */
  const ITEM_SIZE: nat := 82

  /** Bytes of the header. */
  const HEADER_SIZE: nat := 11

  datatype WorldExchangeItem = WorldExchangeItem(
    worldExchangeId: uint64,
    price: uint64,
    endTime: int32,
    itemId: int32,
    count: uint64,
    enchantLevel: int32,
    augmentationOption1: int32,
    augmentationOption2: int32,
    unknownField: int32,
    attackAttributeType: uint16,
    attackAttributeValue: uint16,
    defenceFire: uint16,
    defenceWater: uint16,
    defenceWind: uint16,
    defenceEarth: uint16,
    defenceHoly: uint16,
    defenceDark: uint16,
    visualId: int32,
    soulCrystalOption1: int32,
    soulCrystalOption2: int32,
    soulCrystalSpecialOption: int32,
    isBlessed: uint16)

  datatype WorldExchangeList = WorldExchangeList(
    category: uint16,
    sortType: byte,
    page: int32,
    itemsCount: int32,
    items: seq<WorldExchangeItem>)

  datatype DecodeError = EndOfStream | InvalidItem(index: int)

  // ---------------------------------------------------------------------
  // The FE FF marker scan.

  predicate MarkerAt(b: seq<byte>, i: int)
    requires 0 <= i < |b| - 1
  {
    b[i] == 0xFE && b[i + 1] == 0xFF
  }

  /**
   * The scan `ReadWorldExchangeItem` runs over the whole buffer from the
   * current position: the first FE FF pair at or after `start`, or -1.
   */
  method FindMarker(b: seq<byte>, start: nat) returns (pos: int)
    ensures pos == -1 || start <= pos < |b| - 1
    ensures pos != -1 ==> MarkerAt(b, pos)
    ensures forall i :: start <= i < |b| - 1 && (pos == -1 || i < pos) ==> !MarkerAt(b, i)
  {
    pos := -1;
    var i := start;
    while i < |b| - 1
      invariant start <= i || |b| - 1 <= i
      invariant forall k :: start <= k < i && k < |b| - 1 ==> !MarkerAt(b, k)
      decreases |b| - i
    {
      if b[i] == 0xFE && b[i + 1] == 0xFF {
        return i;
      }
      i := i + 1;
    }
  }

  // ---------------------------------------------------------------------
  // Items.

  /** An item with every field zero, filled in group by group as the fields are read. */
  const BLANK := WorldExchangeItem(0, 0, 0, 0, 0, 0, 0, 0, 0, 0, 0, 0, 0, 0, 0, 0, 0, 0, 0, 0, 0, 0)

  /** Id, price, end time, item id, count and enchant level: 36 bytes. */
  function BaseF(s: seq<byte>): Read<WorldExchangeItem>
  {
    var wid := TakeUInt64(s);                  if wid.Eof? then Eof else
    var price := TakeUInt64(wid.rest);         if price.Eof? then Eof else
    var endTime := TakeInt32(price.rest);      if endTime.Eof? then Eof else
    var itemId := TakeInt32(endTime.rest);     if itemId.Eof? then Eof else
    var count := TakeUInt64(itemId.rest);      if count.Eof? then Eof else
    var enchant := TakeInt32(count.rest);      if enchant.Eof? then Eof else
    Got(BLANK.(worldExchangeId := wid.value, price := price.value, endTime := endTime.value,
               itemId := itemId.value, count := count.value, enchantLevel := enchant.value),
        enchant.rest)
  }

  /** Two augmentation options and the unknown word: 12 bytes. */
  function AugmentationF(x: WorldExchangeItem, s: seq<byte>): Read<WorldExchangeItem>
  {
    var aug1 := TakeInt32(s);                  if aug1.Eof? then Eof else
    var aug2 := TakeInt32(aug1.rest);          if aug2.Eof? then Eof else
    var unknown := TakeInt32(aug2.rest);       if unknown.Eof? then Eof else
    Got(x.(augmentationOption1 := aug1.value, augmentationOption2 := aug2.value, unknownField := unknown.value),
        unknown.rest)
  }

  /** Attack attribute type and value: 4 bytes. */
  function AttackF(x: WorldExchangeItem, s: seq<byte>): Read<WorldExchangeItem>
  {
    var attackType := TakeUInt16(s);                 if attackType.Eof? then Eof else
    var attackValue := TakeUInt16(attackType.rest);  if attackValue.Eof? then Eof else
    Got(x.(attackAttributeType := attackType.value, attackAttributeValue := attackValue.value),
        attackValue.rest)
  }

  /** Fire, water, wind, earth, holy and dark defence: 12 bytes. */
  function DefenceF(x: WorldExchangeItem, s: seq<byte>): Read<WorldExchangeItem>
  {
    var fire := TakeUInt16(s);                 if fire.Eof? then Eof else
    var water := TakeUInt16(fire.rest);        if water.Eof? then Eof else
    var wind := TakeUInt16(water.rest);        if wind.Eof? then Eof else
    var earth := TakeUInt16(wind.rest);        if earth.Eof? then Eof else
    var holy := TakeUInt16(earth.rest);        if holy.Eof? then Eof else
    var dark := TakeUInt16(holy.rest);         if dark.Eof? then Eof else
    Got(x.(defenceFire := fire.value, defenceWater := water.value, defenceWind := wind.value,
           defenceEarth := earth.value, defenceHoly := holy.value, defenceDark := dark.value),
        dark.rest)
  }

  /** Visual id, the three soul-crystal options and the blessed flag: 18 bytes. */
  function TrailerF(x: WorldExchangeItem, s: seq<byte>): Read<WorldExchangeItem>
  {
    var visualId := TakeInt32(s);              if visualId.Eof? then Eof else
    var sc1 := TakeInt32(visualId.rest);       if sc1.Eof? then Eof else
    var sc2 := TakeInt32(sc1.rest);            if sc2.Eof? then Eof else
    var scSpecial := TakeInt32(sc2.rest);      if scSpecial.Eof? then Eof else
    var blessed := TakeUInt16(scSpecial.rest); if blessed.Eof? then Eof else
    Got(x.(visualId := visualId.value, soulCrystalOption1 := sc1.value, soulCrystalOption2 := sc2.value,
           soulCrystalSpecialOption := scSpecial.value, isBlessed := blessed.value),
        blessed.rest)
  }

  /** The defence block, then the trailer: 30 bytes. */
  function ArmourF(x: WorldExchangeItem, s: seq<byte>): Read<WorldExchangeItem>
  {
    var d := DefenceF(x, s);  if d.Eof? then Eof else
    TrailerF(d.value, d.rest)
  }

  /** The attack attribute, then the rest from the defence block on: 34 bytes. */
  function CombatF(x: WorldExchangeItem, s: seq<byte>): Read<WorldExchangeItem>
  {
    var k := AttackF(x, s);  if k.Eof? then Eof else
    ArmourF(k.value, k.rest)
  }

  /** The augmentation block, then the rest from the attack attribute on: 46 bytes. */
  function ExtrasF(x: WorldExchangeItem, s: seq<byte>): Read<WorldExchangeItem>
  {
    var a := AugmentationF(x, s);  if a.Eof? then Eof else
    CombatF(a.value, a.rest)
  }

  /** `ReadWorldExchangeItem`: 22 fields in declaration order. */
  function WorldExchangeItemF(s: seq<byte>): Read<WorldExchangeItem>
  {
    var b := BaseF(s);  if b.Eof? then Eof else
    ExtrasF(b.value, b.rest)
  }

  method ReadBase(r: Reader) returns (res: Read<WorldExchangeItem>)
    requires r.Valid()
    modifies r
    ensures r.Valid()
    ensures res == BaseF(old(r.Rest())) && r.Rest() == After(res)
  {
    var wid := r.ReadUInt64();                  if wid.Eof? { return Eof; }
    var price := r.ReadUInt64();                if price.Eof? { return Eof; }
    var endTime := r.ReadInt32();               if endTime.Eof? { return Eof; }
    var itemId := r.ReadInt32();                if itemId.Eof? { return Eof; }
    var count := r.ReadUInt64();                if count.Eof? { return Eof; }
    var enchant := r.ReadInt32();               if enchant.Eof? { return Eof; }
    res := Got(BLANK.(worldExchangeId := wid.value, price := price.value, endTime := endTime.value,
                      itemId := itemId.value, count := count.value, enchantLevel := enchant.value),
               enchant.rest);
  }

  method ReadAugmentation(r: Reader, x: WorldExchangeItem) returns (res: Read<WorldExchangeItem>)
    requires r.Valid()
    modifies r
    ensures r.Valid()
    ensures res == AugmentationF(x, old(r.Rest())) && r.Rest() == After(res)
  {
    var aug1 := r.ReadInt32();                  if aug1.Eof? { return Eof; }
    var aug2 := r.ReadInt32();                  if aug2.Eof? { return Eof; }
    var unknown := r.ReadInt32();               if unknown.Eof? { return Eof; }
    res := Got(x.(augmentationOption1 := aug1.value, augmentationOption2 := aug2.value,
                  unknownField := unknown.value),
               unknown.rest);
  }

  method ReadAttack(r: Reader, x: WorldExchangeItem) returns (res: Read<WorldExchangeItem>)
    requires r.Valid()
    modifies r
    ensures r.Valid()
    ensures res == AttackF(x, old(r.Rest())) && r.Rest() == After(res)
  {
    var attackType := r.ReadUInt16();           if attackType.Eof? { return Eof; }
    var attackValue := r.ReadUInt16();          if attackValue.Eof? { return Eof; }
    res := Got(x.(attackAttributeType := attackType.value, attackAttributeValue := attackValue.value),
               attackValue.rest);
  }

  method ReadDefence(r: Reader, x: WorldExchangeItem) returns (res: Read<WorldExchangeItem>)
    requires r.Valid()
    modifies r
    ensures r.Valid()
    ensures res == DefenceF(x, old(r.Rest())) && r.Rest() == After(res)
  {
    var fire := r.ReadUInt16();                 if fire.Eof? { return Eof; }
    var water := r.ReadUInt16();                if water.Eof? { return Eof; }
    var wind := r.ReadUInt16();                 if wind.Eof? { return Eof; }
    var earth := r.ReadUInt16();                if earth.Eof? { return Eof; }
    var holy := r.ReadUInt16();                 if holy.Eof? { return Eof; }
    var dark := r.ReadUInt16();                 if dark.Eof? { return Eof; }
    res := Got(x.(defenceFire := fire.value, defenceWater := water.value, defenceWind := wind.value,
                  defenceEarth := earth.value, defenceHoly := holy.value, defenceDark := dark.value),
               dark.rest);
  }

  method ReadTrailer(r: Reader, x: WorldExchangeItem) returns (res: Read<WorldExchangeItem>)
    requires r.Valid()
    modifies r
    ensures r.Valid()
    ensures res == TrailerF(x, old(r.Rest())) && r.Rest() == After(res)
  {
    var visualId := r.ReadInt32();              if visualId.Eof? { return Eof; }
    var sc1 := r.ReadInt32();                   if sc1.Eof? { return Eof; }
    var sc2 := r.ReadInt32();                   if sc2.Eof? { return Eof; }
    var scSpecial := r.ReadInt32();             if scSpecial.Eof? { return Eof; }
    var blessed := r.ReadUInt16();              if blessed.Eof? { return Eof; }
    res := Got(x.(visualId := visualId.value, soulCrystalOption1 := sc1.value, soulCrystalOption2 := sc2.value,
                  soulCrystalSpecialOption := scSpecial.value, isBlessed := blessed.value),
               blessed.rest);
  }

  /**
   * Reads one item. The marker scan runs first and its result is dropped: the
   * item read does not depend on it.
   */
  method ReadWorldExchangeItem(r: Reader) returns (res: Read<WorldExchangeItem>)
    requires r.Valid()
    modifies r
    ensures r.Valid()
    ensures res == WorldExchangeItemF(old(r.Rest())) && r.Rest() == After(res)
  {
    var marker := FindMarker(r.data, r.Position());
    var b := ReadBase(r);
    if b.Eof? { return Eof; }
    var a := ReadAugmentation(r, b.value);
    if a.Eof? { return Eof; }
    var k := ReadAttack(r, a.value);
    if k.Eof? { return Eof; }
    var d := ReadDefence(r, k.value);
    if d.Eof? { return Eof; }
    res := ReadTrailer(r, d.value);
  }

  /** `FromBytes`. */
  function FromBytesF(data: seq<byte>): Result<WorldExchangeList, DecodeError>
  {
    var category := TakeUInt16(data);
    if category.Eof? then Err(EndOfStream) else
    var sortType := TakeByte(category.rest);
    if sortType.Eof? then Err(EndOfStream) else
    var page := TakeInt32(sortType.rest);
    if page.Eof? then Err(EndOfStream) else
    var itemsCount := TakeInt32(page.rest);
    if itemsCount.Eof? then Err(EndOfStream) else
    var items := RepeatF(WorldExchangeItemF, itemsCount.rest, 0, itemsCount.value, []);
    if items.FailedAt? then Err(InvalidItem(items.index))
    else Ok(WorldExchangeList(category.value, sortType.value, page.value, itemsCount.value, items.values))
  }

  method FromBytes(data: seq<byte>) returns (res: Result<WorldExchangeList, DecodeError>)
    ensures res == FromBytesF(data)
  {
    var r := new Reader(data);
    var category := r.ReadUInt16();
    if category.Eof? { return Err(EndOfStream); }
    var sortType := r.ReadByte();
    if sortType.Eof? { return Err(EndOfStream); }
    var page := r.ReadInt32();
    if page.Eof? { return Err(EndOfStream); }
    var itemsCount := r.ReadInt32();
    if itemsCount.Eof? { return Err(EndOfStream); }
    ghost var start := r.Rest();
    var items: seq<WorldExchangeItem> := [];
    var i := 0;
    while i < itemsCount.value
      invariant r.Valid()
      invariant 0 <= i && (i <= itemsCount.value || i == 0)
      invariant RepeatF(WorldExchangeItemF, start, 0, itemsCount.value, [])
             == RepeatF(WorldExchangeItemF, r.Rest(), i, itemsCount.value, items)
      decreases itemsCount.value - i
    {
      var item := ReadWorldExchangeItem(r);
      if item.Eof? {
        return Err(InvalidItem(i + 1));
      }
      items := items + [item.value];
      i := i + 1;
    }
    res := Ok(WorldExchangeList(category.value, sortType.value, page.value, itemsCount.value, items));
  }

  // ---------------------------------------------------------------------
  // Properties of the decoder.

  lemma BaseShape(s: seq<byte>)
    ensures BaseF(s).Got? <==> |s| >= 36
    ensures BaseF(s).Got? ==> BaseF(s).rest == s[36..]
  {
    if |s| >= 36 {
      DropNone(s);
      TakeWordAt(s, 0, 8); TakeWordAt(s, 8, 8); TakeWordAt(s, 16, 4);
      TakeWordAt(s, 20, 4); TakeWordAt(s, 24, 8); TakeWordAt(s, 32, 4);
    }
  }

  lemma AugmentationShape(x: WorldExchangeItem, s: seq<byte>)
    ensures AugmentationF(x, s).Got? <==> |s| >= 12
    ensures AugmentationF(x, s).Got? ==> AugmentationF(x, s).rest == s[12..]
  {
    if |s| >= 12 {
      DropNone(s);
      TakeWordAt(s, 0, 4); TakeWordAt(s, 4, 4); TakeWordAt(s, 8, 4);
    }
  }

  lemma AttackShape(x: WorldExchangeItem, s: seq<byte>)
    ensures AttackF(x, s).Got? <==> |s| >= 4
    ensures AttackF(x, s).Got? ==> AttackF(x, s).rest == s[4..]
  {
    if |s| >= 4 {
      DropNone(s);
      TakeWordAt(s, 0, 2); TakeWordAt(s, 2, 2);
    }
  }

  lemma DefenceShape(x: WorldExchangeItem, s: seq<byte>)
    ensures DefenceF(x, s).Got? <==> |s| >= 12
    ensures DefenceF(x, s).Got? ==> DefenceF(x, s).rest == s[12..]
  {
    if |s| >= 12 {
      DropNone(s);
      TakeWordAt(s, 0, 2); TakeWordAt(s, 2, 2); TakeWordAt(s, 4, 2);
      TakeWordAt(s, 6, 2); TakeWordAt(s, 8, 2); TakeWordAt(s, 10, 2);
    }
  }

  lemma TrailerShape(x: WorldExchangeItem, s: seq<byte>)
    ensures TrailerF(x, s).Got? <==> |s| >= 18
    ensures TrailerF(x, s).Got? ==> TrailerF(x, s).rest == s[18..]
  {
    if |s| >= 18 {
      DropNone(s);
      TakeWordAt(s, 0, 4); TakeWordAt(s, 4, 4); TakeWordAt(s, 8, 4);
      TakeWordAt(s, 12, 4); TakeWordAt(s, 16, 2);
    }
  }

  lemma ArmourShape(x: WorldExchangeItem, s: seq<byte>)
    ensures ArmourF(x, s).Got? <==> |s| >= 30
    ensures ArmourF(x, s).Got? ==> ArmourF(x, s).rest == s[30..]
  {
    DefenceShape(x, s);
    var d := DefenceF(x, s);
    if d.Got? {
      TrailerShape(d.value, d.rest);
      if |s| >= 30 {
        DropDrop(s, 12, 18);
      }
    }
  }

  lemma CombatShape(x: WorldExchangeItem, s: seq<byte>)
    ensures CombatF(x, s).Got? <==> |s| >= 34
    ensures CombatF(x, s).Got? ==> CombatF(x, s).rest == s[34..]
  {
    AttackShape(x, s);
    var k := AttackF(x, s);
    if k.Got? {
      ArmourShape(k.value, k.rest);
      if |s| >= 34 {
        DropDrop(s, 4, 30);
      }
    }
  }

  lemma ExtrasShape(x: WorldExchangeItem, s: seq<byte>)
    ensures ExtrasF(x, s).Got? <==> |s| >= 46
    ensures ExtrasF(x, s).Got? ==> ExtrasF(x, s).rest == s[46..]
  {
    AugmentationShape(x, s);
    var a := AugmentationF(x, s);
    if a.Got? {
      CombatShape(a.value, a.rest);
      if |s| >= 46 {
        DropDrop(s, 12, 34);
      }
    }
  }

  /** An item is read exactly when 82 bytes are left, and consumes exactly those. */
  lemma ItemShape(s: seq<byte>)
    ensures WorldExchangeItemF(s).Got? <==> |s| >= ITEM_SIZE
    ensures WorldExchangeItemF(s).Got? ==> WorldExchangeItemF(s).rest == s[ITEM_SIZE..]
  {
    BaseShape(s);
    var b := BaseF(s);
    if b.Got? {
      ExtrasShape(b.value, b.rest);
      if |s| >= ITEM_SIZE {
        DropDrop(s, 36, 46);
      }
    }
  }

  /**
   * With `n - i` steps left, the item loop succeeds exactly when 82 bytes are
   * there for each of them; otherwise it fails at the first item that is cut
   * short.
   */
  lemma {:induction false} ItemsFit(s: seq<byte>, i: int, n: int, acc: seq<WorldExchangeItem>)
    requires i <= n
    ensures var r := RepeatF(WorldExchangeItemF, s, i, n, acc);
      && (r.Repeated? <==> |s| >= ITEM_SIZE * (n - i))
      && (r.FailedAt? ==> r.index == i + |s| / ITEM_SIZE + 1)
    decreases n - i
  {
    if i < n {
      ItemShape(s);
      if |s| >= ITEM_SIZE {
        var x := WorldExchangeItemF(s);
        ItemsFit(x.rest, i + 1, n, acc + [x.value]);
        assert |x.rest| == |s| - ITEM_SIZE;
        assert |x.rest| / ITEM_SIZE == |s| / ITEM_SIZE - 1;
      }
    }
  }

  /** The header's four fields fill the first eleven bytes; the items follow them. */
  lemma HeaderFields(data: seq<byte>)
    ensures |data| < HEADER_SIZE ==> FromBytesF(data) == Err(EndOfStream)
    ensures |data| >= HEADER_SIZE ==>
      var n := TakeInt32(data[7..]).value;
      var items := RepeatF(WorldExchangeItemF, data[HEADER_SIZE..], 0, n, []);
      FromBytesF(data) == if items.FailedAt? then Err(InvalidItem(items.index))
        else Ok(WorldExchangeList(TakeUInt16(data).value, data[2], TakeInt32(data[3..]).value, n, items.values))
  {
  }

  /**
   * Only a packet shorter than its 11-byte header is EndOfStream. A decoded
   * list holds exactly max(itemsCount, 0) items and the packet is long enough
   * for all of them; a failure names the first item that is cut short.
   */
  lemma DecodedCounts(data: seq<byte>)
    ensures FromBytesF(data) == Err(EndOfStream) <==> |data| < HEADER_SIZE
    ensures var r := FromBytesF(data);
      r.Ok? ==>
        && |r.value.items| == (if r.value.itemsCount > 0 then r.value.itemsCount as int else 0)
        && |data| >= HEADER_SIZE + ITEM_SIZE * |r.value.items|
    ensures var r := FromBytesF(data);
      r.Err? && r.error.InvalidItem? ==>
        && |data| >= HEADER_SIZE
        && r.error.index == (|data| - HEADER_SIZE) / ITEM_SIZE + 1
        && 1 <= r.error.index <= TakeInt32(data[7..]).value
  {
    HeaderFields(data);
    if |data| >= HEADER_SIZE {
      var n := TakeInt32(data[7..]).value;
      var body := data[HEADER_SIZE..];
      RepeatCount(WorldExchangeItemF, body, 0, n, []);
      if n > 0 {
        ItemsFit(body, 0, n, []);
      }
      var items := RepeatF(WorldExchangeItemF, body, 0, n, []);
      assert |body| == |data| - HEADER_SIZE;
      if items.Repeated? {
        assert n > 0 ==> |body| >= ITEM_SIZE * n;
      }
    }
  }

  // ---------------------------------------------------------------------
  // Reading back what a sender wrote.

  function BaseOnto(x: WorldExchangeItem, rest: seq<byte>): seq<byte>
  {
    U64Bytes(x.worldExchangeId) + (U64Bytes(x.price) + (I32Bytes(x.endTime) + (I32Bytes(x.itemId)
    + (U64Bytes(x.count) + (I32Bytes(x.enchantLevel) + rest)))))
  }

  function AugmentationOnto(x: WorldExchangeItem, rest: seq<byte>): seq<byte>
  {
    I32Bytes(x.augmentationOption1) + (I32Bytes(x.augmentationOption2) + (I32Bytes(x.unknownField) + rest))
  }

  function AttackOnto(x: WorldExchangeItem, rest: seq<byte>): seq<byte>
  {
    U16Bytes(x.attackAttributeType) + (U16Bytes(x.attackAttributeValue) + rest)
  }

  function DefenceOnto(x: WorldExchangeItem, rest: seq<byte>): seq<byte>
  {
    U16Bytes(x.defenceFire) + (U16Bytes(x.defenceWater) + (U16Bytes(x.defenceWind)
    + (U16Bytes(x.defenceEarth) + (U16Bytes(x.defenceHoly) + (U16Bytes(x.defenceDark) + rest)))))
  }

  function TrailerOnto(x: WorldExchangeItem, rest: seq<byte>): seq<byte>
  {
    I32Bytes(x.visualId) + (I32Bytes(x.soulCrystalOption1) + (I32Bytes(x.soulCrystalOption2)
    + (I32Bytes(x.soulCrystalSpecialOption) + (U16Bytes(x.isBlessed) + rest))))
  }

  /** The 82 bytes a sender writes for an item, in field order, followed by `rest`. */
  function ItemOnto(x: WorldExchangeItem, rest: seq<byte>): seq<byte>
  {
    BaseOnto(x, AugmentationOnto(x, AttackOnto(x, DefenceOnto(x, TrailerOnto(x, rest)))))
  }

  lemma BaseRoundTrip(x: WorldExchangeItem, rest: seq<byte>)
    ensures BaseF(BaseOnto(x, rest)) == Got(BLANK.(worldExchangeId := x.worldExchangeId, price := x.price,
      endTime := x.endTime, itemId := x.itemId, count := x.count, enchantLevel := x.enchantLevel), rest)
  {
    var s6 := I32Bytes(x.enchantLevel) + rest;
    var s5 := U64Bytes(x.count) + s6;
    var s4 := I32Bytes(x.itemId) + s5;
    var s3 := I32Bytes(x.endTime) + s4;
    var s2 := U64Bytes(x.price) + s3;
    TakeUInt64Of(x.worldExchangeId, s2);
    TakeUInt64Of(x.price, s3);
    TakeInt32Of(x.endTime, s4);
    TakeInt32Of(x.itemId, s5);
    TakeUInt64Of(x.count, s6);
    TakeInt32Of(x.enchantLevel, rest);
  }

  lemma AugmentationRoundTrip(x: WorldExchangeItem, y: WorldExchangeItem, rest: seq<byte>)
    ensures AugmentationF(y, AugmentationOnto(x, rest)) == Got(y.(augmentationOption1 := x.augmentationOption1,
      augmentationOption2 := x.augmentationOption2, unknownField := x.unknownField), rest)
  {
    var s3 := I32Bytes(x.unknownField) + rest;
    var s2 := I32Bytes(x.augmentationOption2) + s3;
    TakeInt32Of(x.augmentationOption1, s2);
    TakeInt32Of(x.augmentationOption2, s3);
    TakeInt32Of(x.unknownField, rest);
  }

  lemma AttackRoundTrip(x: WorldExchangeItem, y: WorldExchangeItem, rest: seq<byte>)
    ensures AttackF(y, AttackOnto(x, rest)) == Got(y.(attackAttributeType := x.attackAttributeType,
      attackAttributeValue := x.attackAttributeValue), rest)
  {
    TakeUInt16Of(x.attackAttributeType, U16Bytes(x.attackAttributeValue) + rest);
    TakeUInt16Of(x.attackAttributeValue, rest);
  }

  lemma DefenceRoundTrip(x: WorldExchangeItem, y: WorldExchangeItem, rest: seq<byte>)
    ensures DefenceF(y, DefenceOnto(x, rest)) == Got(y.(defenceFire := x.defenceFire,
      defenceWater := x.defenceWater, defenceWind := x.defenceWind, defenceEarth := x.defenceEarth,
      defenceHoly := x.defenceHoly, defenceDark := x.defenceDark), rest)
  {
    var s6 := U16Bytes(x.defenceDark) + rest;
    var s5 := U16Bytes(x.defenceHoly) + s6;
    var s4 := U16Bytes(x.defenceEarth) + s5;
    var s3 := U16Bytes(x.defenceWind) + s4;
    var s2 := U16Bytes(x.defenceWater) + s3;
    TakeUInt16Of(x.defenceFire, s2);
    TakeUInt16Of(x.defenceWater, s3);
    TakeUInt16Of(x.defenceWind, s4);
    TakeUInt16Of(x.defenceEarth, s5);
    TakeUInt16Of(x.defenceHoly, s6);
    TakeUInt16Of(x.defenceDark, rest);
  }

  lemma TrailerRoundTrip(x: WorldExchangeItem, y: WorldExchangeItem, rest: seq<byte>)
    ensures TrailerF(y, TrailerOnto(x, rest)) == Got(y.(visualId := x.visualId,
      soulCrystalOption1 := x.soulCrystalOption1, soulCrystalOption2 := x.soulCrystalOption2,
      soulCrystalSpecialOption := x.soulCrystalSpecialOption, isBlessed := x.isBlessed), rest)
  {
    var s5 := U16Bytes(x.isBlessed) + rest;
    var s4 := I32Bytes(x.soulCrystalSpecialOption) + s5;
    var s3 := I32Bytes(x.soulCrystalOption2) + s4;
    var s2 := I32Bytes(x.soulCrystalOption1) + s3;
    TakeInt32Of(x.visualId, s2);
    TakeInt32Of(x.soulCrystalOption1, s3);
    TakeInt32Of(x.soulCrystalOption2, s4);
    TakeInt32Of(x.soulCrystalSpecialOption, s5);
    TakeUInt16Of(x.isBlessed, rest);
  }

  /** Every field of an item is read back exactly as written. */
  lemma ItemRoundTrip(x: WorldExchangeItem, rest: seq<byte>)
    ensures WorldExchangeItemF(ItemOnto(x, rest)) == Got(x, rest)
  {
    var t := TrailerOnto(x, rest);
    var d := DefenceOnto(x, t);
    var k := AttackOnto(x, d);
    var a := AugmentationOnto(x, k);
    BaseRoundTrip(x, a);
    var b := BaseF(BaseOnto(x, a)).value;
    AugmentationRoundTrip(x, b, k);
    var b2 := AugmentationF(b, a).value;
    AttackRoundTrip(x, b2, d);
    var b3 := AttackF(b2, k).value;
    DefenceRoundTrip(x, b3, t);
    var b4 := DefenceF(b3, d).value;
    TrailerRoundTrip(x, b4, rest);
  }

  function ItemsOnto(xs: seq<WorldExchangeItem>, rest: seq<byte>): seq<byte>
    decreases |xs|
  {
    if |xs| == 0 then rest else ItemOnto(xs[0], ItemsOnto(xs[1..], rest))
  }

  /** The loop reads back every written item, in order. */
  lemma ItemsRoundTrip(xs: seq<WorldExchangeItem>, rest: seq<byte>)
    ensures RepeatF(WorldExchangeItemF, ItemsOnto(xs, rest), 0, |xs|, []) == Repeated(xs, rest)
  {
    var ss := seq(|xs| + 1, k requires 0 <= k <= |xs| => ItemsOnto(xs[k..], rest));
    forall k | 0 <= k < |xs|
      ensures WorldExchangeItemF(ss[k]) == Got(xs[k], ss[k + 1])
    {
      assert xs[k..][1..] == xs[k + 1..];
      assert ss[k] == ItemOnto(xs[k], ss[k + 1]);
      ItemRoundTrip(xs[k], ss[k + 1]);
    }
    assert xs[0..] == xs && xs[|xs|..] == [];
    RepeatOfChain(WorldExchangeItemF, ss, xs, 0, |xs|, []);
    assert [] + xs == xs;
  }

  /** A header for `n` items is read, and the item loop runs on whatever follows it. */
  lemma HeaderThenItems(category: uint16, sortType: byte, page: int32, n: int32, body: seq<byte>)
    ensures var items := RepeatF(WorldExchangeItemF, body, 0, n, []);
      FromBytesF(U16Bytes(category) + ([sortType] + (I32Bytes(page) + (I32Bytes(n) + body))))
        == if items.FailedAt? then Err(InvalidItem(items.index))
           else Ok(WorldExchangeList(category, sortType, page, n, items.values))
  {
    TakeUInt16Of(category, [sortType] + (I32Bytes(page) + (I32Bytes(n) + body)));
    TakeByteOf(sortType, I32Bytes(page) + (I32Bytes(n) + body));
    TakeInt32Of(page, I32Bytes(n) + body);
    TakeInt32Of(n, body);
  }

  /** Decoding a packet a sender wrote gives back its header and every item, in order. */
  lemma PacketRoundTrip(category: uint16, sortType: byte, page: int32, xs: seq<WorldExchangeItem>, rest: seq<byte>)
    requires |xs| <= INT32_MAX
    ensures FromBytesF(U16Bytes(category) + ([sortType] + (I32Bytes(page) + (I32Bytes(|xs|) + ItemsOnto(xs, rest)))))
         == Ok(WorldExchangeList(category, sortType, page, |xs|, xs))
  {
    ItemsRoundTrip(xs, rest);
    HeaderThenItems(category, sortType, page, |xs|, ItemsOnto(xs, rest));
  }
}
