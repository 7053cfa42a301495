/**
 * `CommissionDecoders`: the texts the commission list shows for an item's
 * body-part mask, shadow mana, time limit, type2, custom type and equipped
 * flag.
 */
module CommissionDecoders {
  import opened Bytes
  import opened Text
  import opened CodeTables
  import opened BodyParts

  /** The members of the commission `BodyPart` enum, largest value first. */
  const SLOTS: seq<Slot> := [
    Slot(0x400_0000_0000, "SlotArtifact"),
    Slot(0x200_0000_0000, "SlotArtifactBook"),
    Slot(0x30_0000_0000, "SlotAgathion"),
    Slot(0x4000_0000, "SlotBroochJewel"),
    Slot(0x2000_0000, "SlotBrooch"),
    Slot(0x1000_0000, "SlotBelt"),
    Slot(0x40_0000, "SlotDeco"),
    Slot(0x20_0000, "SlotLBracelet"),
    Slot(0x10_0000, "SlotRBracelet"),
    Slot(0x8_0000, "SlotHairAll"),
    Slot(0x4_0000, "SlotHair2"),
    Slot(0x2_0000, "SlotAllDress"),
    Slot(0x1_0000, "SlotHair"),
    Slot(0x8000, "SlotFullArmor"),
    Slot(0x4000, "SlotLRHand"),
    Slot(0x2000, "SlotBack"),
    Slot(0x1000, "SlotFeet"),
    Slot(0x0800, "SlotLegs"),
    Slot(0x0400, "SlotChest"),
    Slot(0x0200, "SlotGloves"),
    Slot(0x0100, "SlotLHand"),
    Slot(0x0080, "SlotRHand"),
    Slot(0x0040, "SlotHead"),
    Slot(0x0030, "SlotLRFinger"),
    Slot(0x0020, "SlotLFinger"),
    Slot(0x0010, "SlotRFinger"),
    Slot(0x0008, "SlotNeck"),
    Slot(0x0006, "SlotLREar"),
    Slot(0x0004, "SlotLEar"),
    Slot(0x0002, "SlotREar"),
    Slot(0x0001, "SlotUnderwear"),
    Slot(0x0000, "SlotNone")]

  /** The table is in descending order and every name starts with "Slot". */
  lemma SlotsWellFormed()
    ensures |SLOTS| == 32 && Descending(SLOTS)
    ensures forall i :: 0 <= i < |SLOTS| ==> |SLOTS[i].name| > 0 && SLOTS[i].name[0] == 'S'
  {
    SlotsDescendingFront();
    SlotsDescendingBack();
  }

  /** The first half of the table is in descending order. */
  lemma SlotsDescendingFront()
    ensures |SLOTS| == 32 && forall i :: 0 <= i < 16 ==> SLOTS[i].value > SLOTS[i + 1].value
  {
  }

  /** The second half of the table is in descending order. */
  lemma SlotsDescendingBack()
    ensures |SLOTS| == 32 && forall i :: 16 <= i < 31 ==> SLOTS[i].value > SLOTS[i + 1].value
  {
  }

  /** The bits of the small values the example below meets. */
  lemma SmallBits()
    ensures BitSet(1) == {0} && BitSet(2) == {1} && BitSet(3) == {0, 1} && BitSet(4) == {2}
    ensures BitSet(6) == {1, 2} && BitSet(7) == {0, 1, 2} && BitSet(8) == {3} && BitSet(14) == {1, 2, 3}
  {
    assert BitSet(1) == {0};
    assert BitSet(3) == {0, 1};
    assert BitSet(7) == {0, 1, 2};
    assert BitSet(2) == {1};
    assert BitSet(4) == {2};
  }

  /** A composite member wins over its parts: 0xE is the neck and both ears, not three single slots. */
  lemma NeckAndEars()
    ensures DecodeF(SLOTS, 0xE) == "SlotNeck | SlotLREar"
  {
    NeckAndEarsOf(SLOTS);
  }

  lemma NeckAndEarsOf(t: seq<Slot>)
    requires t == SLOTS
    ensures DecodeF(t, 0xE) == "SlotNeck | SlotLREar"
  {
    WalkFourteen(t);
    NamesFourteen();
  }

  lemma WalkFourteen(t: seq<Slot>)
    requires t == SLOTS
    ensures DecodeF(t, 0xE) == JoinWith(Names([Slot(8, "SlotNeck"), Slot(6, "SlotLREar")]), " | ")
  {
    SmallBits();
    assert InputBits(0xE) == {1, 2, 3};
    NoMemberFourteen();
    FourteenPassesLarger();
    FourteenTail();
    DecodedByWalk(t, 0xE, [Slot(8, "SlotNeck"), Slot(6, "SlotLREar")]);
  }

  lemma NamesFourteen()
    ensures JoinWith(Names([Slot(8, "SlotNeck"), Slot(6, "SlotLREar")]), " | ") == "SlotNeck | SlotLREar"
  {
    assert Names([Slot(8, "SlotNeck"), Slot(6, "SlotLREar")]) == ["SlotNeck", "SlotLREar"];
    JoinTwo("SlotNeck", "SlotLREar");
  }

  lemma JoinTwo(a: string, b: string)
    ensures JoinWith([a, b], " | ") == a + " | " + b
  {
    assert [a, b][1..] == [b];
  }

  lemma NoMemberFourteen()
    ensures ExactName(SLOTS, 0xE).None?
  {
    SlotsWellFormed();
    assert SLOTS[25].value == 16 && SLOTS[26].value == 8;
    NoExactBetween(SLOTS, 25, 0xE);
  }

  lemma FourteenPassesLarger()
    ensures Greedy(SLOTS, {1, 2, 3}) == Greedy(SLOTS[26..], {1, 2, 3})
  {
    SmallBits();
    GreedyAfterLarger(SLOTS, 26, 0xE, {1, 2, 3});
  }

  lemma FourteenTail()
    ensures Greedy(SLOTS[26..], {1, 2, 3}) == [Slot(8, "SlotNeck"), Slot(6, "SlotLREar")]
  {
    var tail := [Slot(8, "SlotNeck"), Slot(6, "SlotLREar"), Slot(4, "SlotLEar"), Slot(2, "SlotREar"),
                 Slot(1, "SlotUnderwear"), Slot(0, "SlotNone")];
    assert SLOTS[26..] == tail;
    TailWalk();
  }

  lemma TailWalk()
    ensures Greedy([Slot(8, "SlotNeck"), Slot(6, "SlotLREar"), Slot(4, "SlotLEar"), Slot(2, "SlotREar"),
                    Slot(1, "SlotUnderwear"), Slot(0, "SlotNone")], {1, 2, 3})
         == [Slot(8, "SlotNeck"), Slot(6, "SlotLREar")]
  {
    SmallBits();
  }

  /** A text made of `p` and more starts with `p`, and with the first character of `p`. */
  lemma Prefixed(p: string, t: string)
    requires |p| > 0
    ensures p <= p + t && (p + t)[0] == p[0]
  {
  }

  /** `DecodeMana`: -1 (no mana), 0 (expired), a positive number of seconds, or any other value. */
  function DecodeMana(mana: int32): (r: string)
    ensures r == "no mana/not shadow item" <==> mana == -1
    ensures r == "shadow item expired" <==> mana == 0
    ensures r == "unknown mana value" <==> mana < -1
    ensures mana > 0 ==> "shadow item time: " <= r
  {
    if mana == -1 then "no mana/not shadow item"
    else if mana == 0 then "shadow item expired"
    else if mana > 0 then
      var seconds := IntText(mana) + " seconds";
      Prefixed("shadow item time: ", seconds);
      "shadow item time: " + seconds
    else "unknown mana value"
  }

  /** The text tells -1, 0 and each positive value apart; only values below -1 share a text. */
  lemma ManaIdentifies(a: int32, b: int32)
    ensures DecodeMana(a) == DecodeMana(b) ==> a == b || (a < -1 && b < -1)
  {
    if a > 0 {
      PositiveManaDiffers(a);
    }
    if b > 0 {
      PositiveManaDiffers(b);
    }
    if a > 0 && b > 0 {
      PositiveManaInjective(a, b);
    }
  }

  lemma PositiveManaDiffers(a: int32)
    requires a > 0
    ensures DecodeMana(a) != "no mana/not shadow item" && DecodeMana(a) != "shadow item expired"
    ensures DecodeMana(a) != "unknown mana value"
  {
    var p := "shadow item time: ";
    assert DecodeMana(a)[..|p|] == p;
  }

  lemma PositiveManaInjective(a: int32, b: int32)
    requires a > 0 && b > 0
    ensures DecodeMana(a) == DecodeMana(b) ==> a == b
  {
    var p := "shadow item time: ";
    var ta, tb := IntText(a) + " seconds", IntText(b) + " seconds";
    assert DecodeMana(a) == p + ta && DecodeMana(b) == p + tb;
    if DecodeMana(a) == DecodeMana(b) {
      assert ta == (p + ta)[|p|..] && tb == (p + tb)[|p|..];
      assert IntText(a) == ta[..|ta| - 8] && IntText(b) == tb[..|tb| - 8];
      IntTextInjective(a, b);
    }
  }

  /** `DecodeTime`: two special codes, a positive number of seconds, or any other value. */
  function DecodeTime(timeValue: int32): (r: string)
    ensures r == "not time-limited" <==> timeValue == -9999
    ensures r == "special time value (possibly display bug)" <==> timeValue == -2559744
    ensures r == "unknown time value" <==> timeValue <= 0 && timeValue != -9999 && timeValue != -2559744
    ensures timeValue > 0 ==> "time-limited: " <= r
  {
    if timeValue == -9999 then "not time-limited"
    else if timeValue == -2559744 then "special time value (possibly display bug)"
    else if timeValue > 0 then
      var clock := IntText(timeValue / 3600) + "h " + IntText((timeValue % 3600) / 60) + "m "
        + IntText(timeValue % 60) + "s remaining";
      Prefixed("time-limited: ", clock);
      "time-limited: " + clock
    else "unknown time value"
  }

  /** A positive time is shown as whole hours, minutes below 60 and seconds below 60 that add up to it. */
  lemma TimeSplits(timeValue: int32)
    requires timeValue > 0
    ensures exists h: nat, m: nat, s: nat :: (h * 3600 + m * 60 + s == timeValue as int && m < 60 && s < 60
      && DecodeTime(timeValue) == "time-limited: " + IntText(h) + "h " + IntText(m) + "m " + IntText(s) + "s remaining")
  {
    var t := timeValue as int;
    var h, r := t / 3600, t % 3600;
    var m, s := r / 60, r % 60;
    var q := 60 * h + m;
    assert t == 60 * q + s;
    assert t % 60 == s;
    assert DecodeTime(timeValue) == "time-limited: " + IntText(h) + "h " + IntText(m) + "m " + IntText(s) + "s remaining";
  }

  const ITEM_TYPE2: seq<Entry> := [
    Entry(0, "WEAPON"), Entry(1, "SHIELD_ARMOR"), Entry(2, "ACCESSORY"),
    Entry(3, "QUEST"), Entry(4, "MONEY"), Entry(5, "OTHER")]

  lemma ItemType2Table()
    ensures DistinctCodes(ITEM_TYPE2) && DistinctNames(ITEM_TYPE2) && NamesAvoid(ITEM_TYPE2, "UNKNOWN_TYPE2(")
  {
  }

  /** `DecodeItemType2`: the dictionary lookup, "UNKNOWN_TYPE2(n)" on a miss. */
  function DecodeItemType2(type2: int32): (r: string)
    ensures 0 <= type2 <= 5 ==> r == ITEM_TYPE2[type2].name
    ensures !(0 <= type2 <= 5) ==> r == Unknown("UNKNOWN_TYPE2(", type2)
  {
    DecodeRun(ITEM_TYPE2, "UNKNOWN_TYPE2(", 0, type2);
    Decode(ITEM_TYPE2, type2, "UNKNOWN_TYPE2(")
  }

  /** Codes 0 to 5 have names, every other code the unknown text, and different codes print differently. */
  lemma ItemType2Identifies(a: int32, b: int32)
    ensures Known(ITEM_TYPE2, a) <==> 0 <= a <= 5
    ensures !(0 <= a <= 5) ==> DecodeItemType2(a) == "UNKNOWN_TYPE2(" + IntText(a) + ")"
    ensures DecodeItemType2(a) == DecodeItemType2(b) ==> a == b
  {
    if 0 <= a <= 5 {
      assert ITEM_TYPE2[a].code == a as int;
    }
    ItemType2Table();
    DecodeInjective(ITEM_TYPE2, "UNKNOWN_TYPE2(", a, b);
  }

  const CUSTOM_TYPE1: seq<Entry> := [Entry(0, "normal")]

  /** `DecodeCustomType1`: "normal" for 0, "custom(n)" otherwise. */
  function DecodeCustomType1(customType1: int32): (r: string)
    ensures customType1 == 0 ==> r == "normal"
    ensures customType1 != 0 ==> r == Unknown("custom(", customType1)
  {
    DecodeRun(CUSTOM_TYPE1, "custom(", 0, customType1);
    Decode(CUSTOM_TYPE1, customType1, "custom(")
  }

  lemma CustomType1Identifies(a: int32, b: int32)
    ensures DecodeCustomType1(a) == "normal" <==> a == 0
    ensures DecodeCustomType1(a) == DecodeCustomType1(b) ==> a == b
  {
    DecodeInjective(CUSTOM_TYPE1, "custom(", a, b);
    DecodeInjective(CUSTOM_TYPE1, "custom(", a, 0);
  }

  const EQUIPPED: seq<Entry> := [Entry(0, "not equipped"), Entry(1, "equipped")]

  /** `DecodeEquipped`: 0 and 1 by name, "unknown equipped(n)" otherwise. */
  function DecodeEquipped(equipped: int32): (r: string)
    ensures equipped == 0 ==> r == "not equipped"
    ensures equipped == 1 ==> r == "equipped"
    ensures !(0 <= equipped <= 1) ==> r == Unknown("unknown equipped(", equipped)
  {
    DecodeRun(EQUIPPED, "unknown equipped(", 0, equipped);
    Decode(EQUIPPED, equipped, "unknown equipped(")
  }

  lemma EquippedIdentifies(a: int32, b: int32)
    ensures DecodeEquipped(a) == "equipped" <==> a == 1
    ensures DecodeEquipped(a) == "not equipped" <==> a == 0
    ensures DecodeEquipped(a) == DecodeEquipped(b) ==> a == b
  {
    DecodeInjective(EQUIPPED, "unknown equipped(", a, b);
    DecodeInjective(EQUIPPED, "unknown equipped(", a, 0);
    DecodeInjective(EQUIPPED, "unknown equipped(", a, 1);
  }
}
