/**
 * The item record carried by the commission list and the private-store search
 * packets, and the mask-driven decoder that both packets use for it.
 *
 * Both decoders read a 45-byte prefix. Mask bits then switch on optional
 * sections, always in this order:
 *   - bit 1 (augmentation): two int32 options;
 *   - bit 2 (elemental attribute): an int16 attack type, an int16 attack
 *     power and six int16 defence values, which are skipped;
 *   - bit 4 (visual id): one int32;
 *   - bit 8 (soul crystal): a byte count and that many int32 values, then a
 *     second byte count and that many int32 values.
 * The other declared bits (16 reuse delay, 32 enchant effect, 128 blessed)
 * read nothing.
 *
 * The two decoders differ only in the dictionary keys used for the elemental
 * attack values. They are a parameter here.
 */
module ItemInfos {
  import opened Bytes
  import opened Wrappers

  /** A Dictionary<string, int> that is only ever inserted into, in insertion order. */
  type Dict = seq<(string, int32)>

  /** `d[key]` when `d.ContainsKey(key)`: the value stored last under `key`, if any. */
  function Lookup(d: Dict, key: string): (r: Option<int32>)
    ensures r.Some? <==> exists i :: 0 <= i < |d| && d[i].0 == key
    ensures r.Some? ==> exists i :: 0 <= i < |d| && d[i] == (key, r.value)
    decreases |d|
  {
    if |d| == 0 then None
    else if d[|d| - 1].0 == key then Some(d[|d| - 1].1)
    else
      var r := Lookup(d[..|d| - 1], key);
      assert forall i :: 0 <= i < |d| - 1 ==> d[..|d| - 1][i] == d[i];
      r
  }

  const AUGMENT_BONUS: nat := 1
  const ELEMENTAL_ATTRIBUTE: nat := 2
  const VISUAL_ID: nat := 4
  const SOUL_CRYSTAL: nat := 8
  const REUSE_DELAY: nat := 16
  const ENCHANT_EFFECT: nat := 32
  const BLESSED: nat := 128

  /** `(mask & flag) != 0` for a non-negative mask and a one-bit flag. */
  predicate HasFlag(mask: nat, flag: nat)
    requires flag > 0
  {
    (mask / flag) % 2 == 1
  }

  datatype ItemInfo = ItemInfo(
    mask: uint16,
    objectId: int32,
    itemId: int32,
    location: byte,
    count: int64,
    itemType2: byte,
    customType1: byte,
    equipped: uint16,
    bodyPart: int64,
    enchantLevel: uint16,
    mana: int32,
    time: int32,
    available: bool,
    augmentation: Option<Dict>,
    elementalAttrs: Option<Dict>,
    visualId: Option<int32>,
    soulCrystalOptions: Option<seq<int32>>,
    soulCrystalSpecialOptions: Option<seq<int32>>,
    enchantEffects: Option<seq<int>>,
    reuseDelay: Option<int>,
    blessed: Option<bool>)

  /** The two keys under which the elemental attack type and power are stored. */
  datatype ElementalKeys = ElementalKeys(typeKey: string, powerKey: string)

  /** The fixed part of the record: 15 fields, 45 bytes. */
  function PrefixF(s: seq<byte>): Read<ItemInfo>
  {
    var mask := TakeUInt16(s);
    if mask.Eof? then Eof else
    var objectId := TakeInt32(mask.rest);
    if objectId.Eof? then Eof else
    var itemId := TakeInt32(objectId.rest);
    if itemId.Eof? then Eof else
    var location := TakeByte(itemId.rest);
    if location.Eof? then Eof else
    var count := TakeInt64(location.rest);
    if count.Eof? then Eof else
    var itemType2 := TakeByte(count.rest);
    if itemType2.Eof? then Eof else
    var customType1 := TakeByte(itemType2.rest);
    if customType1.Eof? then Eof else
    var equipped := TakeUInt16(customType1.rest);
    if equipped.Eof? then Eof else
    var bodyPart := TakeInt64(equipped.rest);
    if bodyPart.Eof? then Eof else
    var enchant := TakeUInt16(bodyPart.rest);
    if enchant.Eof? then Eof else
    var mana := TakeInt32(enchant.rest);
    if mana.Eof? then Eof else
    var protocol270 := TakeByte(mana.rest);
    if protocol270.Eof? then Eof else
    var time := TakeInt32(protocol270.rest);
    if time.Eof? then Eof else
    var available := TakeByte(time.rest);
    if available.Eof? then Eof else
    var locked := TakeUInt16(available.rest);
    if locked.Eof? then Eof else
    Got(ItemInfo(mask.value, objectId.value, itemId.value, location.value, count.value,
                 itemType2.value, customType1.value, equipped.value, bodyPart.value,
                 enchant.value, mana.value, time.value, available.value != 0,
                 None, None, None, None, None, None, None, None),
        locked.rest)
  }

  function AugmentationF(info: ItemInfo, s: seq<byte>): Read<ItemInfo>
  {
    if !HasFlag(info.mask, AUGMENT_BONUS) then Got(info, s) else
    var o1 := TakeInt32(s);
    if o1.Eof? then Eof else
    var o2 := TakeInt32(o1.rest);
    if o2.Eof? then Eof else
    Got(info.(augmentation := Some([("option1", o1.value as int32), ("option2", o2.value as int32)])), o2.rest)
  }

  /** `n` more int16 values read one after the other, after the values `acc` already read. */
  function Int16sF(s: seq<byte>, n: nat, acc: seq<int16>): Read<seq<int16>>
    decreases n
  {
    if n == 0 then Got(acc, s) else
    var x := TakeInt16(s);
    if x.Eof? then Eof else Int16sF(x.rest, n - 1, acc + [x.value])
  }

  function ElementalF(keys: ElementalKeys, info: ItemInfo, s: seq<byte>): Read<ItemInfo>
  {
    if !HasFlag(info.mask, ELEMENTAL_ATTRIBUTE) then Got(info, s) else
    var attackType := TakeInt16(s);
    if attackType.Eof? then Eof else
    var attackPower := TakeInt16(attackType.rest);
    if attackPower.Eof? then Eof else
    var defences := Int16sF(attackPower.rest, 6, []);
    if defences.Eof? then Eof else
    Got(info.(elementalAttrs := Some([(keys.typeKey, attackType.value as int32),
                                     (keys.powerKey, attackPower.value as int32)])),
        defences.rest)
  }

  function VisualIdF(info: ItemInfo, s: seq<byte>): Read<ItemInfo>
  {
    if !HasFlag(info.mask, VISUAL_ID) then Got(info, s) else
    var v := TakeInt32(s);
    if v.Eof? then Eof else Got(info.(visualId := Some(v.value)), v.rest)
  }

  /** `n` more int32 values read one after the other, after the values `acc` already read. */
  function Int32sF(s: seq<byte>, n: nat, acc: seq<int32>): Read<seq<int32>>
    decreases n
  {
    if n == 0 then Got(acc, s) else
    var x := TakeInt32(s);
    if x.Eof? then Eof else Int32sF(x.rest, n - 1, acc + [x.value])
  }

  function SoulCrystalF(info: ItemInfo, s: seq<byte>): Read<ItemInfo>
  {
    if !HasFlag(info.mask, SOUL_CRYSTAL) then Got(info, s) else
    var regularCount := TakeByte(s);
    if regularCount.Eof? then Eof else
    var regular := Int32sF(regularCount.rest, regularCount.value, []);
    if regular.Eof? then Eof else
    var specialCount := TakeByte(regular.rest);
    if specialCount.Eof? then Eof else
    var special := Int32sF(specialCount.rest, specialCount.value, []);
    if special.Eof? then Eof else
    Got(info.(soulCrystalOptions := Some(regular.value), soulCrystalSpecialOptions := Some(special.value)),
        special.rest)
  }

  /** `ReadItemInfo`: the prefix, then the sections the mask switches on. */
  function ItemInfoF(keys: ElementalKeys, s: seq<byte>): Read<ItemInfo>
  {
    var p := PrefixF(s);
    if p.Eof? then Eof else SectionsF(keys, p.value, p.rest)
  }

  /** The optional sections after the prefix, in mask-bit order. */
  function SectionsF(keys: ElementalKeys, info: ItemInfo, s: seq<byte>): Read<ItemInfo>
  {
    var a := AugmentationF(info, s);
    if a.Eof? then Eof else
    var e := ElementalF(keys, a.value, a.rest);
    if e.Eof? then Eof else
    var v := VisualIdF(e.value, e.rest);
    if v.Eof? then Eof else
    SoulCrystalF(v.value, v.rest)
  }

  // ---------------------------------------------------------------------
  // Imperative decoders over the stream reader, one per step.

  method ReadPrefix(r: Reader) returns (res: Read<ItemInfo>)
    requires r.Valid()
    modifies r
    ensures r.Valid()
    ensures res == PrefixF(old(r.Rest())) && r.Rest() == After(res)
  {
    var mask := r.ReadUInt16();
    if mask.Eof? { return Eof; }
    var objectId := r.ReadInt32();
    if objectId.Eof? { return Eof; }
    var itemId := r.ReadInt32();
    if itemId.Eof? { return Eof; }
    var location := r.ReadByte();
    if location.Eof? { return Eof; }
    var count := r.ReadInt64();
    if count.Eof? { return Eof; }
    var itemType2 := r.ReadByte();
    if itemType2.Eof? { return Eof; }
    var customType1 := r.ReadByte();
    if customType1.Eof? { return Eof; }
    var equipped := r.ReadUInt16();
    if equipped.Eof? { return Eof; }
    var bodyPart := r.ReadInt64();
    if bodyPart.Eof? { return Eof; }
    var enchant := r.ReadUInt16();
    if enchant.Eof? { return Eof; }
    var mana := r.ReadInt32();
    if mana.Eof? { return Eof; }
    var protocol270 := r.ReadByte();
    if protocol270.Eof? { return Eof; }
    var time := r.ReadInt32();
    if time.Eof? { return Eof; }
    var available := r.ReadByte();
    if available.Eof? { return Eof; }
    var locked := r.ReadUInt16();
    if locked.Eof? { return Eof; }
    res := Got(ItemInfo(mask.value, objectId.value, itemId.value, location.value, count.value,
                        itemType2.value, customType1.value, equipped.value, bodyPart.value,
                        enchant.value, mana.value, time.value, available.value != 0,
                        None, None, None, None, None, None, None, None),
               locked.rest);
  }

  method ReadAugmentation(r: Reader, info: ItemInfo) returns (res: Read<ItemInfo>)
    requires r.Valid()
    modifies r
    ensures r.Valid()
    ensures res == AugmentationF(info, old(r.Rest())) && r.Rest() == After(res)
  {
    if !HasFlag(info.mask, AUGMENT_BONUS) { return Got(info, r.Rest()); }
    var o1 := r.ReadInt32();
    if o1.Eof? { return Eof; }
    var o2 := r.ReadInt32();
    if o2.Eof? { return Eof; }
    res := Got(info.(augmentation := Some([("option1", o1.value as int32), ("option2", o2.value as int32)])), o2.rest);
  }

  method ReadElemental(r: Reader, keys: ElementalKeys, info: ItemInfo) returns (res: Read<ItemInfo>)
    requires r.Valid()
    modifies r
    ensures r.Valid()
    ensures res == ElementalF(keys, info, old(r.Rest())) && r.Rest() == After(res)
  {
    if !HasFlag(info.mask, ELEMENTAL_ATTRIBUTE) { return Got(info, r.Rest()); }
    var attackType := r.ReadInt16();
    if attackType.Eof? { return Eof; }
    var attackPower := r.ReadInt16();
    if attackPower.Eof? { return Eof; }
    ghost var start := r.Rest();
    var skipped: seq<int16> := [];
    var i := 0;
    while i < 6
      invariant 0 <= i <= 6 && r.Valid() && |skipped| == i
      invariant Int16sF(start, 6, []) == Int16sF(r.Rest(), 6 - i, skipped)
    {
      var d := r.ReadInt16();
      if d.Eof? {
        return Eof;
      }
      skipped := skipped + [d.value];
      i := i + 1;
    }
    res := Got(info.(elementalAttrs := Some([(keys.typeKey, attackType.value as int32),
                                            (keys.powerKey, attackPower.value as int32)])),
               r.Rest());
  }

  method ReadInt32s(r: Reader, n: nat) returns (res: Read<seq<int32>>)
    requires r.Valid()
    modifies r
    ensures r.Valid()
    ensures res == Int32sF(old(r.Rest()), n, []) && r.Rest() == After(res)
  {
    ghost var start := r.Rest();
    var values: seq<int32> := [];
    var j := 0;
    while j < n
      invariant 0 <= j <= n && r.Valid() && |values| == j
      invariant Int32sF(start, n, []) == Int32sF(r.Rest(), n - j, values)
    {
      var x := r.ReadInt32();
      if x.Eof? {
        return Eof;
      }
      values := values + [x.value];
      j := j + 1;
    }
    res := Got(values, r.Rest());
  }

  method ReadVisualId(r: Reader, info: ItemInfo) returns (res: Read<ItemInfo>)
    requires r.Valid()
    modifies r
    ensures r.Valid()
    ensures res == VisualIdF(info, old(r.Rest())) && r.Rest() == After(res)
  {
    if !HasFlag(info.mask, VISUAL_ID) { return Got(info, r.Rest()); }
    var v := r.ReadInt32();
    if v.Eof? { return Eof; }
    res := Got(info.(visualId := Some(v.value)), v.rest);
  }

  method ReadSoulCrystal(r: Reader, info: ItemInfo) returns (res: Read<ItemInfo>)
    requires r.Valid()
    modifies r
    ensures r.Valid()
    ensures res == SoulCrystalF(info, old(r.Rest())) && r.Rest() == After(res)
  {
    if !HasFlag(info.mask, SOUL_CRYSTAL) { return Got(info, r.Rest()); }
    var regularCount := r.ReadByte();
    if regularCount.Eof? { return Eof; }
    var regular := ReadInt32s(r, regularCount.value);
    if regular.Eof? { return Eof; }
    var specialCount := r.ReadByte();
    if specialCount.Eof? { return Eof; }
    var special := ReadInt32s(r, specialCount.value);
    if special.Eof? { return Eof; }
    res := Got(info.(soulCrystalOptions := Some(regular.value), soulCrystalSpecialOptions := Some(special.value)),
               special.rest);
  }

  method ReadItemInfo(r: Reader, keys: ElementalKeys) returns (res: Read<ItemInfo>)
    requires r.Valid()
    modifies r
    ensures r.Valid()
    ensures res == ItemInfoF(keys, old(r.Rest())) && r.Rest() == After(res)
  {
    var p := ReadPrefix(r);
    if p.Eof? { return Eof; }
    res := ReadSections(r, keys, p.value);
  }

  method ReadSections(r: Reader, keys: ElementalKeys, info: ItemInfo) returns (res: Read<ItemInfo>)
    requires r.Valid()
    modifies r
    ensures r.Valid()
    ensures res == SectionsF(keys, info, old(r.Rest())) && r.Rest() == After(res)
  {
    var a := ReadAugmentation(r, info);
    if a.Eof? { return Eof; }
    var e := ReadElemental(r, keys, a.value);
    if e.Eof? { return Eof; }
    var v := ReadVisualId(r, e.value);
    if v.Eof? { return Eof; }
    res := ReadSoulCrystal(r, v.value);
  }

  // ---------------------------------------------------------------------
  // What the decoder consumes.

  /** Bytes a decoded record occupies on the wire. */
  function WireSize(info: ItemInfo): nat
  {
    45 + AugmentationSize(info) + ElementalSize(info) + VisualIdSize(info) + SoulCrystalSize(info)
  }

  function AugmentationSize(info: ItemInfo): nat
  {
    if info.augmentation.Some? then 8 else 0
  }

  function ElementalSize(info: ItemInfo): nat
  {
    if info.elementalAttrs.Some? then 16 else 0
  }

  function VisualIdSize(info: ItemInfo): nat
  {
    if info.visualId.Some? then 4 else 0
  }

  function SoulCrystalSize(info: ItemInfo): nat
  {
    if info.soulCrystalOptions.Some? && info.soulCrystalSpecialOptions.Some?
    then 2 + 4 * (|info.soulCrystalOptions.value| + |info.soulCrystalSpecialOptions.value|)
    else 0
  }

  /**
   * The prefix succeeds exactly when 45 bytes are left, consumes exactly those,
   * and leaves every optional section absent.
   */
  lemma PrefixShape(s: seq<byte>)
    ensures PrefixF(s).Got? <==> |s| >= 45
    ensures PrefixF(s).Got? ==> PrefixF(s).rest == s[45..] && NoSections(PrefixF(s).value)
  {
    PrefixSize(s);
    PrefixNoSections(s);
  }

  lemma PrefixSize(s: seq<byte>)
    ensures PrefixF(s).Got? <==> |s| >= 45
    ensures PrefixF(s).Got? ==> PrefixF(s).rest == s[45..]
  {
    if |s| >= 45 {
      assert TakeUInt16(s).rest == s[2..];
      assert TakeInt32(s[2..]).rest == s[6..];
      assert TakeInt32(s[6..]).rest == s[10..];
      assert TakeByte(s[10..]).rest == s[11..];
      assert TakeInt64(s[11..]).rest == s[19..];
      assert TakeByte(s[19..]).rest == s[20..];
      assert TakeByte(s[20..]).rest == s[21..];
      assert TakeUInt16(s[21..]).rest == s[23..];
      assert TakeInt64(s[23..]).rest == s[31..];
      assert TakeUInt16(s[31..]).rest == s[33..];
      assert TakeInt32(s[33..]).rest == s[37..];
      assert TakeByte(s[37..]).rest == s[38..];
      assert TakeInt32(s[38..]).rest == s[42..];
      assert TakeByte(s[42..]).rest == s[43..];
      assert TakeUInt16(s[43..]).rest == s[45..];
    }
  }

  lemma PrefixNoSections(s: seq<byte>)
    ensures PrefixF(s).Got? ==> NoSections(PrefixF(s).value)
  {
  }

  predicate NoSections(info: ItemInfo)
  {
    && info.augmentation.None? && info.elementalAttrs.None? && info.visualId.None?
    && info.soulCrystalOptions.None? && info.soulCrystalSpecialOptions.None?
    && info.enchantEffects.None? && info.reuseDelay.None? && info.blessed.None?
  }

  lemma {:induction false} Int32sSize(s: seq<byte>, n: nat, acc: seq<int32>)
    ensures Int32sF(s, n, acc).Got? <==> |s| >= 4 * n
    ensures Int32sF(s, n, acc).Got? ==>
              |Int32sF(s, n, acc).value| == |acc| + n && Int32sF(s, n, acc).rest == s[4 * n..]
    decreases n
  {
    if n > 0 && |s| >= 4 {
      Int32sSize(s[4..], n - 1, acc + [TakeInt32(s).value]);
    }
  }

  lemma {:induction false} Int16sSize(s: seq<byte>, n: nat, acc: seq<int16>)
    ensures Int16sF(s, n, acc).Got? <==> |s| >= 2 * n
    ensures Int16sF(s, n, acc).Got? ==> Int16sF(s, n, acc).rest == s[2 * n..]
    decreases n
  {
    if n > 0 && |s| >= 2 {
      Int16sSize(s[2..], n - 1, acc + [TakeInt16(s).value]);
    }
  }

  lemma AugmentationShape(info: ItemInfo, s: seq<byte>)
    requires info.augmentation.None?
    ensures var r := AugmentationF(info, s);
      r.Got? ==>
        && r.value.(augmentation := None) == info
        && (r.value.augmentation.Some? <==> HasFlag(info.mask, AUGMENT_BONUS))
        && |s| >= AugmentationSize(r.value) && r.rest == s[AugmentationSize(r.value)..]
  {
  }

  lemma ElementalShape(keys: ElementalKeys, info: ItemInfo, s: seq<byte>)
    requires info.elementalAttrs.None?
    ensures var r := ElementalF(keys, info, s);
      r.Got? ==>
        && r.value.(elementalAttrs := None) == info
        && (r.value.elementalAttrs.Some? <==> HasFlag(info.mask, ELEMENTAL_ATTRIBUTE))
        && (r.value.elementalAttrs.Some? ==>
              |r.value.elementalAttrs.value| == 2
              && r.value.elementalAttrs.value[0].0 == keys.typeKey
              && r.value.elementalAttrs.value[1].0 == keys.powerKey)
        && |s| >= ElementalSize(r.value) && r.rest == s[ElementalSize(r.value)..]
  {
    if HasFlag(info.mask, ELEMENTAL_ATTRIBUTE) && |s| >= 4 {
      Int16sSize(s[4..], 6, []);
    }
  }

  lemma VisualIdShape(info: ItemInfo, s: seq<byte>)
    requires info.visualId.None?
    ensures var r := VisualIdF(info, s);
      r.Got? ==>
        && r.value.(visualId := None) == info
        && (r.value.visualId.Some? <==> HasFlag(info.mask, VISUAL_ID))
        && |s| >= VisualIdSize(r.value) && r.rest == s[VisualIdSize(r.value)..]
  {
  }

  lemma SoulCrystalShape(info: ItemInfo, s: seq<byte>)
    requires info.soulCrystalOptions.None? && info.soulCrystalSpecialOptions.None?
    ensures var r := SoulCrystalF(info, s);
      r.Got? ==>
        && r.value.(soulCrystalOptions := None, soulCrystalSpecialOptions := None) == info
        && (r.value.soulCrystalOptions.Some? <==> HasFlag(info.mask, SOUL_CRYSTAL))
        && (r.value.soulCrystalSpecialOptions.Some? <==> HasFlag(info.mask, SOUL_CRYSTAL))
        && |s| >= SoulCrystalSize(r.value) && r.rest == s[SoulCrystalSize(r.value)..]
  {
    if HasFlag(info.mask, SOUL_CRYSTAL) && |s| >= 1 {
      var rc := TakeByte(s);
      Int32sSize(rc.rest, rc.value, []);
      var rg := Int32sF(rc.rest, rc.value, []);
      if rg.Got? && |rg.rest| >= 1 {
        var sc := TakeByte(rg.rest);
        Int32sSize(sc.rest, sc.value, []);
      }
    }
  }

  /** The sections add exactly what the mask asks for, and nothing else changes. */
  lemma SectionsShape(keys: ElementalKeys, info: ItemInfo, s: seq<byte>)
    requires NoSections(info)
    requires SectionsF(keys, info, s).Got?
    ensures var r := SectionsF(keys, info, s).value;
      && r.(augmentation := None, elementalAttrs := None, visualId := None,
            soulCrystalOptions := None, soulCrystalSpecialOptions := None) == info
      && (r.augmentation.Some? <==> HasFlag(info.mask, AUGMENT_BONUS))
      && (r.elementalAttrs.Some? <==> HasFlag(info.mask, ELEMENTAL_ATTRIBUTE))
      && (r.visualId.Some? <==> HasFlag(info.mask, VISUAL_ID))
      && (r.soulCrystalOptions.Some? <==> HasFlag(info.mask, SOUL_CRYSTAL))
      && (r.soulCrystalSpecialOptions.Some? <==> HasFlag(info.mask, SOUL_CRYSTAL))
      && (r.elementalAttrs.Some? ==>
            |r.elementalAttrs.value| == 2
            && r.elementalAttrs.value[0].0 == keys.typeKey
            && r.elementalAttrs.value[1].0 == keys.powerKey)
    ensures |s| == |SectionsF(keys, info, s).rest| + WireSize(SectionsF(keys, info, s).value) - 45
    ensures SectionsF(keys, info, s).rest == s[WireSize(SectionsF(keys, info, s).value) - 45..]
  {
    SectionsFields(keys, info, s);
    SectionsSize(keys, info, s);
  }

  lemma SectionsFields(keys: ElementalKeys, info: ItemInfo, s: seq<byte>)
    requires NoSections(info)
    requires SectionsF(keys, info, s).Got?
    ensures var r := SectionsF(keys, info, s).value;
      && r.(augmentation := None, elementalAttrs := None, visualId := None,
            soulCrystalOptions := None, soulCrystalSpecialOptions := None) == info
      && (r.augmentation.Some? <==> HasFlag(info.mask, AUGMENT_BONUS))
      && (r.elementalAttrs.Some? <==> HasFlag(info.mask, ELEMENTAL_ATTRIBUTE))
      && (r.visualId.Some? <==> HasFlag(info.mask, VISUAL_ID))
      && (r.soulCrystalOptions.Some? <==> HasFlag(info.mask, SOUL_CRYSTAL))
      && (r.soulCrystalSpecialOptions.Some? <==> HasFlag(info.mask, SOUL_CRYSTAL))
      && (r.elementalAttrs.Some? ==>
            |r.elementalAttrs.value| == 2
            && r.elementalAttrs.value[0].0 == keys.typeKey
            && r.elementalAttrs.value[1].0 == keys.powerKey)
  {
    AugmentationShape(info, s);
    var a := AugmentationF(info, s);
    ElementalShape(keys, a.value, a.rest);
    var e := ElementalF(keys, a.value, a.rest);
    VisualIdShape(e.value, e.rest);
    var v := VisualIdF(e.value, e.rest);
    SoulCrystalShape(v.value, v.rest);
    var c := SoulCrystalF(v.value, v.rest);
    assert SectionsF(keys, info, s) == c;
  }

  lemma SectionsSize(keys: ElementalKeys, info: ItemInfo, s: seq<byte>)
    requires NoSections(info)
    requires SectionsF(keys, info, s).Got?
    ensures |s| == |SectionsF(keys, info, s).rest| + WireSize(SectionsF(keys, info, s).value) - 45
    ensures SectionsF(keys, info, s).rest == s[WireSize(SectionsF(keys, info, s).value) - 45..]
  {
    var a := AugmentationF(info, s);
    var e := ElementalF(keys, a.value, a.rest);
    var v := VisualIdF(e.value, e.rest);
    var c := SoulCrystalF(v.value, v.rest);
    assert SectionsF(keys, info, s) == c;
    SectionsSizeAt(keys, info, s, a, e, v, c);
  }

  lemma SectionsSizeAt(keys: ElementalKeys, info: ItemInfo, s: seq<byte>,
                       a: Read<ItemInfo>, e: Read<ItemInfo>, v: Read<ItemInfo>, c: Read<ItemInfo>)
    requires NoSections(info)
    requires a == AugmentationF(info, s) && a.Got?
    requires e == ElementalF(keys, a.value, a.rest) && e.Got?
    requires v == VisualIdF(e.value, e.rest) && v.Got?
    requires c == SoulCrystalF(v.value, v.rest) && c.Got?
    ensures |s| == |c.rest| + WireSize(c.value) - 45 && c.rest == s[WireSize(c.value) - 45..]
  {
    FrontSized(keys, info, s, a, e);
    BackSized(e.value, e.rest, v, c);
    var k1 := AugmentationSize(e.value) + ElementalSize(e.value);
    var k2 := VisualIdSize(c.value) + SoulCrystalSize(c.value);
    DropDrop(s, k1, k2);
  }

  /** The augmentation and the elemental attributes, together. */
  lemma FrontSized(keys: ElementalKeys, info: ItemInfo, s: seq<byte>, a: Read<ItemInfo>, e: Read<ItemInfo>)
    requires NoSections(info)
    requires a == AugmentationF(info, s) && a.Got?
    requires e == ElementalF(keys, a.value, a.rest) && e.Got?
    ensures AugmentationSize(e.value) + ElementalSize(e.value) <= |s|
    ensures e.rest == s[AugmentationSize(e.value) + ElementalSize(e.value)..]
    ensures e.value.visualId.None? && e.value.soulCrystalOptions.None? && e.value.soulCrystalSpecialOptions.None?
  {
    AugmentationSized(info, s);
    ElementalSized(keys, a.value, a.rest);
    DropDrop(s, AugmentationSize(a.value), ElementalSize(e.value));
  }

  /** The visual id and the soul crystal options, together. */
  lemma BackSized(info: ItemInfo, s: seq<byte>, v: Read<ItemInfo>, c: Read<ItemInfo>)
    requires info.visualId.None? && info.soulCrystalOptions.None? && info.soulCrystalSpecialOptions.None?
    requires v == VisualIdF(info, s) && v.Got?
    requires c == SoulCrystalF(v.value, v.rest) && c.Got?
    ensures AugmentationSize(c.value) == AugmentationSize(info) && ElementalSize(c.value) == ElementalSize(info)
    ensures VisualIdSize(c.value) + SoulCrystalSize(c.value) <= |s|
    ensures c.rest == s[VisualIdSize(c.value) + SoulCrystalSize(c.value)..]
  {
    VisualIdSized(info, s);
    SoulCrystalSized(v.value, v.rest);
    DropDrop(s, VisualIdSize(v.value), SoulCrystalSize(c.value));
  }

  // What each section consumes, and the later sections it leaves untouched.

  lemma AugmentationSized(info: ItemInfo, s: seq<byte>)
    requires info.augmentation.None?
    requires AugmentationF(info, s).Got?
    ensures var r := AugmentationF(info, s);
      && r.value.elementalAttrs == info.elementalAttrs && r.value.visualId == info.visualId
      && r.value.soulCrystalOptions == info.soulCrystalOptions
      && r.value.soulCrystalSpecialOptions == info.soulCrystalSpecialOptions
      && AugmentationSize(r.value) <= |s| && r.rest == s[AugmentationSize(r.value)..]
  {
    if HasFlag(info.mask, AUGMENT_BONUS) && |s| >= 8 {
      DropDrop(s, 4, 4);
    }
  }

  lemma ElementalSized(keys: ElementalKeys, info: ItemInfo, s: seq<byte>)
    requires info.elementalAttrs.None?
    requires ElementalF(keys, info, s).Got?
    ensures var r := ElementalF(keys, info, s);
      && r.value.augmentation == info.augmentation && r.value.visualId == info.visualId
      && r.value.soulCrystalOptions == info.soulCrystalOptions
      && r.value.soulCrystalSpecialOptions == info.soulCrystalSpecialOptions
      && ElementalSize(r.value) <= |s| && r.rest == s[ElementalSize(r.value)..]
  {
    if HasFlag(info.mask, ELEMENTAL_ATTRIBUTE) && |s| >= 4 {
      DropDrop(s, 2, 2);
      Int16sSize(s[4..], 6, []);
      DropDrop(s, 4, 12);
    }
  }

  lemma VisualIdSized(info: ItemInfo, s: seq<byte>)
    requires info.visualId.None?
    requires VisualIdF(info, s).Got?
    ensures var r := VisualIdF(info, s);
      && r.value.augmentation == info.augmentation && r.value.elementalAttrs == info.elementalAttrs
      && r.value.soulCrystalOptions == info.soulCrystalOptions
      && r.value.soulCrystalSpecialOptions == info.soulCrystalSpecialOptions
      && VisualIdSize(r.value) <= |s| && r.rest == s[VisualIdSize(r.value)..]
  {
  }

  lemma SoulCrystalSized(info: ItemInfo, s: seq<byte>)
    requires info.soulCrystalOptions.None? && info.soulCrystalSpecialOptions.None?
    requires SoulCrystalF(info, s).Got?
    ensures var r := SoulCrystalF(info, s);
      && r.value.augmentation == info.augmentation && r.value.elementalAttrs == info.elementalAttrs
      && r.value.visualId == info.visualId
      && SoulCrystalSize(r.value) <= |s| && r.rest == s[SoulCrystalSize(r.value)..]
  {
    SoulCrystalShape(info, s);
  }

  /**
   * A decoded record: its optional sections are present exactly when the mask
   * says so, the undecoded ones stay absent, and the decoder consumed exactly
   * `WireSize` bytes.
   */
  lemma ItemInfoShape(keys: ElementalKeys, s: seq<byte>)
    requires ItemInfoF(keys, s).Got?
    ensures var info := ItemInfoF(keys, s).value;
      && (info.augmentation.Some? <==> HasFlag(info.mask, AUGMENT_BONUS))
      && (info.elementalAttrs.Some? <==> HasFlag(info.mask, ELEMENTAL_ATTRIBUTE))
      && (info.visualId.Some? <==> HasFlag(info.mask, VISUAL_ID))
      && (info.soulCrystalOptions.Some? <==> HasFlag(info.mask, SOUL_CRYSTAL))
      && (info.soulCrystalSpecialOptions.Some? <==> HasFlag(info.mask, SOUL_CRYSTAL))
      && info.enchantEffects.None? && info.reuseDelay.None? && info.blessed.None?
      && (info.elementalAttrs.Some? ==>
            |info.elementalAttrs.value| == 2
            && info.elementalAttrs.value[0].0 == keys.typeKey
            && info.elementalAttrs.value[1].0 == keys.powerKey)
    ensures |s| == |ItemInfoF(keys, s).rest| + WireSize(ItemInfoF(keys, s).value)
    ensures ItemInfoF(keys, s).rest == s[WireSize(ItemInfoF(keys, s).value)..]
  {
    PrefixShape(s);
    var p := PrefixF(s);
    SectionsShape(keys, p.value, p.rest);
  }

  /** A decoded record consumes exactly its wire size. */
  lemma ItemInfoSize(keys: ElementalKeys, s: seq<byte>)
    requires ItemInfoF(keys, s).Got?
    ensures |s| == |ItemInfoF(keys, s).rest| + WireSize(ItemInfoF(keys, s).value)
    ensures ItemInfoF(keys, s).rest == s[WireSize(ItemInfoF(keys, s).value)..]
  {
    PrefixShape(s);
    var p := PrefixF(s);
    SectionsSize(keys, p.value, p.rest);
  }

  // ---------------------------------------------------------------------
  // Reading back what a sender wrote.

  /** Every value the decoder reads, including the ones it reads and discards. */
  datatype ItemWire = ItemWire(
    mask: uint16,
    objectId: int32,
    itemId: int32,
    location: byte,
    count: int64,
    itemType2: byte,
    customType1: byte,
    equipped: uint16,
    bodyPart: int64,
    enchantLevel: uint16,
    mana: int32,
    protocol270: byte,
    time: int32,
    available: byte,
    locked: uint16,
    option1: int32,
    option2: int32,
    attackType: int16,
    attackPower: int16,
    defences: seq<int16>,
    visualId: int32,
    regular: seq<int32>,
    special: seq<int32>)

  /** Six defence values, and soul-crystal lists short enough for their byte counts. */
  predicate WireValid(w: ItemWire)
  {
    |w.defences| == 6 && |w.regular| < 256 && |w.special| < 256
  }

  function Int16sOnto(xs: seq<int16>, rest: seq<byte>): seq<byte>
    decreases |xs|
  {
    if |xs| == 0 then rest else I16Bytes(xs[0]) + Int16sOnto(xs[1..], rest)
  }

  function Int32sOnto(xs: seq<int32>, rest: seq<byte>): seq<byte>
    decreases |xs|
  {
    if |xs| == 0 then rest else I32Bytes(xs[0]) + Int32sOnto(xs[1..], rest)
  }

  function PrefixOnto(w: ItemWire, rest: seq<byte>): seq<byte>
  {
    U16Bytes(w.mask) + (I32Bytes(w.objectId) + (I32Bytes(w.itemId) + ([w.location] + (I64Bytes(w.count)
    + ([w.itemType2] + ([w.customType1] + (U16Bytes(w.equipped) + (I64Bytes(w.bodyPart)
    + (U16Bytes(w.enchantLevel) + (I32Bytes(w.mana) + ([w.protocol270] + (I32Bytes(w.time)
    + ([w.available] + (U16Bytes(w.locked) + rest))))))))))))))
  }

  function AugmentationOnto(w: ItemWire, rest: seq<byte>): seq<byte>
  {
    if HasFlag(w.mask, AUGMENT_BONUS) then I32Bytes(w.option1) + (I32Bytes(w.option2) + rest) else rest
  }

  function ElementalOnto(w: ItemWire, rest: seq<byte>): seq<byte>
  {
    if HasFlag(w.mask, ELEMENTAL_ATTRIBUTE)
    then I16Bytes(w.attackType) + (I16Bytes(w.attackPower) + Int16sOnto(w.defences, rest))
    else rest
  }

  function VisualIdOnto(w: ItemWire, rest: seq<byte>): seq<byte>
  {
    if HasFlag(w.mask, VISUAL_ID) then I32Bytes(w.visualId) + rest else rest
  }

  function SoulCrystalOnto(w: ItemWire, rest: seq<byte>): seq<byte>
    requires WireValid(w)
  {
    if HasFlag(w.mask, SOUL_CRYSTAL)
    then [|w.regular| as byte] + Int32sOnto(w.regular, [|w.special| as byte] + Int32sOnto(w.special, rest))
    else rest
  }

  function SectionsOnto(w: ItemWire, rest: seq<byte>): seq<byte>
    requires WireValid(w)
  {
    AugmentationOnto(w, ElementalOnto(w, VisualIdOnto(w, SoulCrystalOnto(w, rest))))
  }

  /** The bytes of a record followed by `rest`. */
  function ItemInfoOnto(w: ItemWire, rest: seq<byte>): seq<byte>
    requires WireValid(w)
  {
    PrefixOnto(w, SectionsOnto(w, rest))
  }

  /** The record a receiver builds from the written values. */
  function Decoded(keys: ElementalKeys, w: ItemWire): ItemInfo
  {
    ItemInfo(w.mask, w.objectId, w.itemId, w.location, w.count, w.itemType2, w.customType1,
             w.equipped, w.bodyPart, w.enchantLevel, w.mana, w.time, w.available != 0,
             if HasFlag(w.mask, AUGMENT_BONUS)
             then Some([("option1", w.option1 as int32), ("option2", w.option2 as int32)]) else None,
             if HasFlag(w.mask, ELEMENTAL_ATTRIBUTE)
             then Some([(keys.typeKey, w.attackType as int32), (keys.powerKey, w.attackPower as int32)]) else None,
             if HasFlag(w.mask, VISUAL_ID) then Some(w.visualId) else None,
             if HasFlag(w.mask, SOUL_CRYSTAL) then Some(w.regular) else None,
             if HasFlag(w.mask, SOUL_CRYSTAL) then Some(w.special) else None,
             None, None, None)
  }

  lemma {:induction false} Int16sRoundTrip(xs: seq<int16>, acc: seq<int16>, rest: seq<byte>)
    ensures Int16sF(Int16sOnto(xs, rest), |xs|, acc) == Got(acc + xs, rest)
    decreases |xs|
  {
    if |xs| > 0 {
      TakeInt16Of(xs[0], Int16sOnto(xs[1..], rest));
      Int16sRoundTrip(xs[1..], acc + [xs[0]], rest);
      assert acc + [xs[0]] + xs[1..] == acc + xs;
    } else {
      assert acc + xs == acc;
    }
  }

  lemma {:induction false} Int32sRoundTrip(xs: seq<int32>, acc: seq<int32>, rest: seq<byte>)
    ensures Int32sF(Int32sOnto(xs, rest), |xs|, acc) == Got(acc + xs, rest)
    decreases |xs|
  {
    if |xs| > 0 {
      TakeInt32Of(xs[0], Int32sOnto(xs[1..], rest));
      Int32sRoundTrip(xs[1..], acc + [xs[0]], rest);
      assert acc + [xs[0]] + xs[1..] == acc + xs;
    } else {
      assert acc + xs == acc;
    }
  }

  lemma PrefixRoundTrip(w: ItemWire, rest: seq<byte>)
    ensures PrefixF(PrefixOnto(w, rest)) == Got(Decoded(ElementalKeys("", ""), w).(
      augmentation := None, elementalAttrs := None, visualId := None,
      soulCrystalOptions := None, soulCrystalSpecialOptions := None), rest)
  {
    var s15 := U16Bytes(w.locked) + rest;
    var s14 := [w.available] + s15;
    var s13 := I32Bytes(w.time) + s14;
    var s12 := [w.protocol270] + s13;
    var s11 := I32Bytes(w.mana) + s12;
    var s10 := U16Bytes(w.enchantLevel) + s11;
    var s9 := I64Bytes(w.bodyPart) + s10;
    var s8 := U16Bytes(w.equipped) + s9;
    var s7 := [w.customType1] + s8;
    var s6 := [w.itemType2] + s7;
    var s5 := I64Bytes(w.count) + s6;
    var s4 := [w.location] + s5;
    var s3 := I32Bytes(w.itemId) + s4;
    var s2 := I32Bytes(w.objectId) + s3;
    TakeUInt16Of(w.mask, s2);
    TakeInt32Of(w.objectId, s3);
    TakeInt32Of(w.itemId, s4);
    TakeByteOf(w.location, s5);
    TakeInt64Of(w.count, s6);
    TakeByteOf(w.itemType2, s7);
    TakeByteOf(w.customType1, s8);
    TakeUInt16Of(w.equipped, s9);
    TakeInt64Of(w.bodyPart, s10);
    TakeUInt16Of(w.enchantLevel, s11);
    TakeInt32Of(w.mana, s12);
    TakeByteOf(w.protocol270, s13);
    TakeInt32Of(w.time, s14);
    TakeByteOf(w.available, s15);
    TakeUInt16Of(w.locked, rest);
  }

  lemma AugmentationRoundTrip(w: ItemWire, info: ItemInfo, tail: seq<byte>)
    requires info.mask == w.mask && info.augmentation.None?
    ensures AugmentationF(info, AugmentationOnto(w, tail)) == Got(info.(augmentation := Decoded(ElementalKeys("", ""), w).augmentation), tail)
  {
    if HasFlag(w.mask, AUGMENT_BONUS) {
      TakeInt32Of(w.option1, I32Bytes(w.option2) + tail);
      TakeInt32Of(w.option2, tail);
    }
  }

  lemma ElementalRoundTrip(keys: ElementalKeys, w: ItemWire, info: ItemInfo, tail: seq<byte>)
    requires info.mask == w.mask && info.elementalAttrs.None? && |w.defences| == 6
    ensures ElementalF(keys, info, ElementalOnto(w, tail)) == Got(info.(elementalAttrs := Decoded(keys, w).elementalAttrs), tail)
  {
    if HasFlag(w.mask, ELEMENTAL_ATTRIBUTE) {
      var defences := Int16sOnto(w.defences, tail);
      TakeInt16Of(w.attackType, I16Bytes(w.attackPower) + defences);
      TakeInt16Of(w.attackPower, defences);
      Int16sRoundTrip(w.defences, [], tail);
    }
  }

  lemma VisualIdRoundTrip(w: ItemWire, info: ItemInfo, tail: seq<byte>)
    requires info.mask == w.mask && info.visualId.None?
    ensures VisualIdF(info, VisualIdOnto(w, tail)) == Got(info.(visualId := Decoded(ElementalKeys("", ""), w).visualId), tail)
  {
    if HasFlag(w.mask, VISUAL_ID) {
      TakeInt32Of(w.visualId, tail);
    }
  }

  lemma SoulCrystalRoundTrip(w: ItemWire, info: ItemInfo, tail: seq<byte>)
    requires info.mask == w.mask && WireValid(w)
    requires info.soulCrystalOptions.None? && info.soulCrystalSpecialOptions.None?
    ensures var d := Decoded(ElementalKeys("", ""), w);
      SoulCrystalF(info, SoulCrystalOnto(w, tail))
        == Got(info.(soulCrystalOptions := d.soulCrystalOptions, soulCrystalSpecialOptions := d.soulCrystalSpecialOptions), tail)
  {
    if HasFlag(w.mask, SOUL_CRYSTAL) {
      var special := Int32sOnto(w.special, tail);
      var specialCount := [|w.special| as byte] + special;
      var regular := Int32sOnto(w.regular, specialCount);
      TakeByteOf(|w.regular| as byte, regular);
      Int32sRoundTrip(w.regular, [], specialCount);
      TakeByteOf(|w.special| as byte, special);
      Int32sRoundTrip(w.special, [], tail);
      assert [] + w.regular == w.regular && [] + w.special == w.special;
      var s := [|w.regular| as byte] + regular;
      assert TakeByte(s) == Got(|w.regular| as byte, regular);
      assert Int32sF(regular, |w.regular|, []) == Got(w.regular, specialCount);
      assert TakeByte(specialCount) == Got(|w.special| as byte, special);
      assert Int32sF(special, |w.special|, []) == Got(w.special, tail);
    }
  }

  lemma SectionsRoundTrip(keys: ElementalKeys, w: ItemWire, info: ItemInfo, rest: seq<byte>)
    requires WireValid(w) && info.mask == w.mask && NoSections(info)
    ensures SectionsF(keys, info, SectionsOnto(w, rest)) == Got(info.(
      augmentation := Decoded(keys, w).augmentation,
      elementalAttrs := Decoded(keys, w).elementalAttrs,
      visualId := Decoded(keys, w).visualId,
      soulCrystalOptions := Decoded(keys, w).soulCrystalOptions,
      soulCrystalSpecialOptions := Decoded(keys, w).soulCrystalSpecialOptions), rest)
  {
    var d := Decoded(keys, w);
    var soul := SoulCrystalOnto(w, rest);
    var visual := VisualIdOnto(w, soul);
    var elemental := ElementalOnto(w, visual);
    var i1 := info.(augmentation := d.augmentation);
    var i2 := i1.(elementalAttrs := d.elementalAttrs);
    var i3 := i2.(visualId := d.visualId);
    AugmentationRoundTrip(w, info, elemental);
    ElementalRoundTrip(keys, w, i1, visual);
    VisualIdRoundTrip(w, i2, soul);
    SoulCrystalRoundTrip(w, i3, rest);
  }

  /** Decoding the bytes of a record gives back the record and leaves exactly what followed. */
  lemma ItemInfoRoundTrip(keys: ElementalKeys, w: ItemWire, rest: seq<byte>)
    requires WireValid(w)
    ensures ItemInfoF(keys, ItemInfoOnto(w, rest)) == Got(Decoded(keys, w), rest)
  {
    var sections := SectionsOnto(w, rest);
    PrefixRoundTrip(w, sections);
    var info := PrefixF(PrefixOnto(w, sections)).value;
    SectionsRoundTrip(keys, w, info, rest);
  }
}
