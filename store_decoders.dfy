/**
 * `StoreDecoders`: the texts the private-store search shows for a store
 * type, an item's body-part mask, its type2 and its elemental attack type.
 */
module StoreDecoders {
  import opened Bytes
  import opened Wrappers
  import opened Text
  import opened CodeTables
  import opened BodyParts
  import CommissionDecoders

  const SLOTS: seq<Slot> := [
    Slot(0x400_0000_0000, "SlotArtifact"),
    Slot(0x200_0000_0000, "SlotArtifactBook"),
    Slot(0x30_0000_0000, "SlotAgathion"),
    Slot(0x4000_0000, "SlotBroochJewel"),
    Slot(0x2000_0000, "SlotBrooch"),
    Slot(0x1000_0000, "SlotBelt"),
    Slot(0x40_0000, "SlotDeco"),
    Slot(0x20_0000, "SlotLBracelet"),
    Slot(0x10_0000, "SlotRBracelet"),
    Slot(0x8_0000, "SlotHairAll"),
    Slot(0x4_0000, "SlotHair2"),
    Slot(0x2_0000, "SlotAllDress"),
    Slot(0x1_0000, "SlotHair"),
    Slot(0x8000, "SlotFullArmor"),
    Slot(0x4000, "SlotLrHand"),
    Slot(0x2000, "SlotBack"),
    Slot(0x1000, "SlotFeet"),
    Slot(0x0800, "SlotLegs"),
    Slot(0x0400, "SlotChest"),
    Slot(0x0200, "SlotGloves"),
    Slot(0x0100, "SlotLHand"),
    Slot(0x0080, "SlotRHand"),
    Slot(0x0040, "SlotHead"),
    Slot(0x0030, "SlotLrFinger"),
    Slot(0x0020, "SlotLFinger"),
    Slot(0x0010, "SlotRFinger"),
    Slot(0x0008, "SlotNeck"),
    Slot(0x0006, "SlotLrEar"),
    Slot(0x0004, "SlotLEar"),
    Slot(0x0002, "SlotREar"),
    Slot(0x0001, "SlotUnderwear"),
    Slot(0x0000, "SlotNone")]

  /** The table is in descending order and every name starts with "Slot". */
  lemma SlotsWellFormed()
    ensures |SLOTS| == 32 && Descending(SLOTS)
    ensures forall i :: 0 <= i < |SLOTS| ==> |SLOTS[i].name| > 0 && SLOTS[i].name[0] == 'S'
  {
    SlotsDescending();
    SlotNames();
  }

  lemma SlotsDescending()
    ensures |SLOTS| == 32 && Descending(SLOTS)
  {
    SlotsDescendingFront();
    SlotsDescendingBack();
  }

  lemma SlotNames()
    ensures forall i :: 0 <= i < |SLOTS| ==> |SLOTS[i].name| > 0 && SLOTS[i].name[0] == 'S'
  {
  }

  /** The first half of the table is in descending order. */
  lemma SlotsDescendingFront()
    ensures |SLOTS| == 32 && forall i :: 0 <= i < 16 ==> SLOTS[i].value > SLOTS[i + 1].value
  {
  }

  /** The second half of the table is in descending order. */
  lemma SlotsDescendingBack()
    ensures |SLOTS| == 32 && forall i :: 16 <= i < 31 ==> SLOTS[i].value > SLOTS[i + 1].value
  {
  }

  /** The two enums list the same values in the same order; only three names are spelled differently. */
  lemma SameValuesAsCommission()
    ensures Values(SLOTS) == Values(CommissionDecoders.SLOTS)
    ensures forall i :: 0 <= i < |SLOTS| && i != 14 && i != 23 && i != 27 ==> SLOTS[i] == CommissionDecoders.SLOTS[i]
  {
    assert |SLOTS| == |CommissionDecoders.SLOTS| == 32;
    assert forall i :: 0 <= i < 32 ==> SLOTS[i].value == CommissionDecoders.SLOTS[i].value;
  }

  /**
   * For every mask both decoders find an exact member or both do not, and
   * their walks take the same flag values in the same order.
   */
  lemma SameSlotsAsCommission(bodyPart: int64)
    ensures ExactName(SLOTS, bodyPart).Some? <==> ExactName(CommissionDecoders.SLOTS, bodyPart).Some?
    ensures Values(Greedy(SLOTS, InputBits(bodyPart))) == Values(Greedy(CommissionDecoders.SLOTS, InputBits(bodyPart)))
  {
    SameValuesAsCommission();
    SameValuesSameExact(SLOTS, CommissionDecoders.SLOTS, bodyPart);
    GreedySameValues(SLOTS, CommissionDecoders.SLOTS, InputBits(bodyPart));
  }

  const STORE_TYPES: seq<Entry> := [Entry(0, "Продажа"), Entry(1, "Покупка"), Entry(2, "Пакетная продажа")]

  /** `DecodeStoreType`: sell, buy and package sale by name; "Неизвестный (n)" otherwise. */
  function DecodeStoreType(storeType: int32): (r: string)
    ensures 0 <= storeType <= 2 ==> r == STORE_TYPES[storeType].name
    ensures !(0 <= storeType <= 2) ==> r == Unknown("Неизвестный (", storeType)
  {
    DecodeRun(STORE_TYPES, "Неизвестный (", 0, storeType);
    Decode(STORE_TYPES, storeType, "Неизвестный (")
  }

  lemma StoreTypeTable()
    ensures DistinctCodes(STORE_TYPES) && DistinctNames(STORE_TYPES) && NamesAvoid(STORE_TYPES, "Неизвестный (")
  {
    forall i | 0 <= i < |STORE_TYPES| ensures !("Неизвестный (" <= STORE_TYPES[i].name) {
      Mismatch("Неизвестный (", STORE_TYPES[i].name, 0);
    }
  }

  /** Codes 0 to 2 have names, every other code the unknown text, and different codes print differently. */
  lemma StoreTypeIdentifies(a: int32, b: int32)
    ensures Known(STORE_TYPES, a) <==> 0 <= a <= 2
    ensures !(0 <= a <= 2) ==> DecodeStoreType(a) == "Неизвестный (" + IntText(a) + ")"
    ensures DecodeStoreType(a) == DecodeStoreType(b) ==> a == b
  {
    if 0 <= a <= 2 {
      assert STORE_TYPES[a].code == a as int;
    }
    StoreTypeTable();
    DecodeInjective(STORE_TYPES, "Неизвестный (", a, b);
  }

  const ITEM_TYPE2: seq<Entry> := [
    Entry(0, "WEAPON"), Entry(1, "SHIELD_ARMOR"), Entry(2, "ACCESSORY"),
    Entry(3, "QUEST"), Entry(4, "MONEY"), Entry(5, "OTHER")]

  /** `DecodeItemType2`: the switch over 0 to 5, "UNKNOWN_TYPE2(n)" otherwise. */
  function DecodeItemType2(type2: int32): (r: string)
    ensures 0 <= type2 <= 5 ==> r == ITEM_TYPE2[type2].name
    ensures !(0 <= type2 <= 5) ==> r == Unknown("UNKNOWN_TYPE2(", type2)
  {
    DecodeRun(ITEM_TYPE2, "UNKNOWN_TYPE2(", 0, type2);
    Decode(ITEM_TYPE2, type2, "UNKNOWN_TYPE2(")
  }

  /** The switch and the commission decoder's dictionary give the same text for every code. */
  lemma SameItemType2AsCommission(type2: int32)
    ensures DecodeItemType2(type2) == CommissionDecoders.DecodeItemType2(type2)
  {
    assert ITEM_TYPE2 == CommissionDecoders.ITEM_TYPE2;
  }

  const ELEMENTS: seq<Entry> := [
    Entry(-2, "Нет атакующего атрибута"), Entry(0, "Огонь"), Entry(1, "Вода"), Entry(2, "Ветер"),
    Entry(3, "Земля"), Entry(4, "Свет"), Entry(5, "Тьма")]

  /** `DecodeElementalAttribute`: -2 (no attack attribute) and the six elements 0 to 5 by name. */
  function DecodeElementalAttribute(attackType: int32): (r: string)
    ensures attackType == -2 ==> r == "Нет атакующего атрибута"
    ensures 0 <= attackType <= 5 ==> r == ELEMENT_NAMES[attackType]
    ensures attackType != -2 && !(0 <= attackType <= 5) ==> r == Unknown("Неизвестный (", attackType)
  {
    DecodeRun(ELEMENTS[1..], "Неизвестный (", 0, attackType);
    Decode(ELEMENTS, attackType, "Неизвестный (")
  }

  lemma ElementTable()
    ensures DistinctCodes(ELEMENTS) && DistinctNames(ELEMENTS) && NamesAvoid(ELEMENTS, "Неизвестный (")
  {
    ElementCodesDistinct();
    ElementNamesDistinct();
    ElementNamesAvoid();
  }

  lemma ElementCodesDistinct()
    ensures DistinctCodes(ELEMENTS)
  {
    assert ELEMENTS[0].code == -2;
    assert forall i :: 1 <= i < |ELEMENTS| ==> ELEMENTS[i].code == i - 1;
  }

  lemma ElementNamesDistinct()
    ensures DistinctNames(ELEMENTS)
  {
  }

  lemma ElementNamesAvoid()
    ensures NamesAvoid(ELEMENTS, "Неизвестный (")
  {
    forall i | 0 <= i < |ELEMENTS| ensures !("Неизвестный (" <= ELEMENTS[i].name) {
      Mismatch("Неизвестный (", ELEMENTS[i].name, if i == 0 then 2 else 0);
    }
  }

  /** Exactly -2 and 0 to 5 have names. */
  lemma ElementCodes(a: int32)
    ensures Known(ELEMENTS, a) <==> a == -2 || 0 <= a <= 5
  {
    if a == -2 {
      assert ELEMENTS[0].code == a as int;
    } else if 0 <= a <= 5 {
      assert ELEMENTS[a + 1].code == a as int;
    } else {
      assert forall i :: 0 <= i < |ELEMENTS| ==> ELEMENTS[i].code == -2 || 0 <= ELEMENTS[i].code <= 5;
    }
  }

  /** Different codes print differently. */
  lemma ElementIdentifies(a: int32, b: int32)
    ensures DecodeElementalAttribute(a) == DecodeElementalAttribute(b) ==> a == b
  {
    ElementTable();
    DecodeInjective(ELEMENTS, "Неизвестный (", a, b);
  }

  /** `GetElementNames`: the six element names, fire to dark. */
  const ELEMENT_NAMES: seq<string> := ["Огонь", "Вода", "Ветер", "Земля", "Свет", "Тьма"]

  /** The list names the elements 0 to 5 exactly as the decoder does. */
  lemma ElementNamesInOrder(i: int32)
    requires 0 <= i < 6
    ensures ELEMENT_NAMES[i] == DecodeElementalAttribute(i)
  {
    assert ELEMENTS[i + 1].code == i as int;
    ElementCodesDistinct();
    var j :| 0 <= j < |ELEMENTS| && ELEMENTS[j].code == i as int && DecodeElementalAttribute(i) == ELEMENTS[j].name;
    assert j == i + 1;
  }
}
