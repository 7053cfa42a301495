/**
 * `MarketDecoders`: the texts and colours the market windows show for the
 * codes of a listing, its price, its remaining time and its enchant level.
 * Every code switch is a table of `CodeTables`; the store-type and element
 * switches are the same tables as the private-store decoder's.
 */
module MarketDecoders {
  import opened Bytes
  import opened Text
  import opened Wrappers
  import opened CodeTables
  import StoreDecoders

  const UNKNOWN: string := "Неизвестный ("

  // ---------------------------------------------------------------------
  // Code switches.

  /** `DecodeStoreType`: sell, buy and package sale by name. */
  function DecodeStoreType(storeType: int32): (r: string)
    ensures 0 <= storeType <= 2 ==> r == StoreDecoders.STORE_TYPES[storeType].name
    ensures !(0 <= storeType <= 2) ==> r == Unknown(UNKNOWN, storeType)
  {
    StoreDecoders.StoreTypeIdentifies(storeType, storeType);
    if 0 <= storeType <= 2 then
      StoreDecoders.StoreTypeTable();
      DecodeAt(StoreDecoders.STORE_TYPES, UNKNOWN, storeType as nat, storeType);
      Decode(StoreDecoders.STORE_TYPES, storeType, UNKNOWN)
    else
      Decode(StoreDecoders.STORE_TYPES, storeType, UNKNOWN)
  }

  /** `DecodeElementalAttribute`: "no attack attribute" for -2 and the six elements for 0 to 5. */
  function DecodeElementalAttribute(attackType: int32): (r: string)
    ensures attackType == -2 ==> r == "Нет атакующего атрибута"
    ensures 0 <= attackType <= 5 ==> r == StoreDecoders.ELEMENT_NAMES[attackType]
    ensures !(attackType == -2 || 0 <= attackType <= 5) ==> r == Unknown(UNKNOWN, attackType)
  {
    StoreDecoders.ElementCodes(attackType);
    if attackType == -2 then
      StoreDecoders.ElementCodesDistinct();
      DecodeAt(StoreDecoders.ELEMENTS, UNKNOWN, 0, attackType);
      StoreDecoders.DecodeElementalAttribute(attackType)
    else if 0 <= attackType <= 5 then
      StoreDecoders.ElementNamesInOrder(attackType);
      StoreDecoders.DecodeElementalAttribute(attackType)
    else
      StoreDecoders.DecodeElementalAttribute(attackType)
  }

  /** `GetElementNames`: fire, water, wind, earth, holy and dark, in code order. */
  function GetElementNames(): (r: seq<string>)
    ensures |r| == 6
    ensures forall i :: 0 <= i < 6 ==> r[i] == DecodeElementalAttribute(i as int32)
  {
    StoreDecoders.ELEMENT_NAMES
  }

  const ITEM_TYPES: seq<Entry> := [
    Entry(0, "Оружие"), Entry(1, "Щит/Броня"), Entry(2, "Аксессуар"),
    Entry(3, "Квест"), Entry(4, "Деньги"), Entry(5, "Прочее")]

  /** `DecodeItemType`: the six item types 0 to 5 by name. */
  function DecodeItemType(itemType: int32): (r: string)
    ensures 0 <= itemType <= 5 ==> r == ITEM_TYPES[itemType].name
    ensures !(0 <= itemType <= 5) ==> r == Unknown(UNKNOWN, itemType)
  {
    ItemTypeCodes();
    KnownIffListed(ITEM_TYPES, itemType);
    if 0 <= itemType <= 5 then
      DecodeAt(ITEM_TYPES, UNKNOWN, itemType as nat, itemType);
      Decode(ITEM_TYPES, itemType, UNKNOWN)
    else
      Decode(ITEM_TYPES, itemType, UNKNOWN)
  }

  lemma ItemTypeCodes()
    ensures Codes(ITEM_TYPES) == [0, 1, 2, 3, 4, 5] && DistinctCodes(ITEM_TYPES)
  {
  }

  lemma ItemTypeNames()
    ensures DistinctNames(ITEM_TYPES) && NamesAvoid(ITEM_TYPES, UNKNOWN)
  {
    forall i | 0 <= i < |ITEM_TYPES| ensures !(UNKNOWN <= ITEM_TYPES[i].name) {
      Mismatch(UNKNOWN, ITEM_TYPES[i].name, 0);
    }
  }

  /** Different item types print differently, and no name reads like the unknown text. */
  lemma ItemTypeIdentifies(a: int32, b: int32)
    ensures DecodeItemType(a) == DecodeItemType(b) ==> a == b
  {
    ItemTypeCodes();
    ItemTypeNames();
    DecodeInjective(ITEM_TYPES, UNKNOWN, a, b);
  }

  const SUB_ITEM_TYPES: seq<Entry> := [
    Entry(0, "Оружие"), Entry(1, "Броня"), Entry(2, "Аксессуар"), Entry(3, "Экипировка"),
    Entry(8, "Свиток зачарования"), Entry(15, "Камень жизни"), Entry(16, "Красители"),
    Entry(17, "Кристалл"), Entry(18, "Книга заклинаний"), Entry(19, "Усиление"),
    Entry(20, "Зелье/Свиток"), Entry(21, "Билет"), Entry(22, "Ремесло"), Entry(24, "Продукты")]

  const SUB_ITEM_CODES: seq<int> := [0, 1, 2, 3, 8, 15, 16, 17, 18, 19, 20, 21, 22, 24]

  /** `DecodeSubItemType`: the fourteen listed sub-types by name. */
  function DecodeSubItemType(subItemType: int32): (r: string)
    ensures subItemType as int in SUB_ITEM_CODES ==>
      exists i :: 0 <= i < |SUB_ITEM_TYPES| && SUB_ITEM_TYPES[i] == Entry(subItemType as int, r)
    ensures subItemType as int !in SUB_ITEM_CODES ==> r == Unknown(UNKNOWN, subItemType)
  {
    SubItemTypeCodes();
    KnownIffListed(SUB_ITEM_TYPES, subItemType);
    Decode(SUB_ITEM_TYPES, subItemType, UNKNOWN)
  }

  lemma SubItemTypeCodes()
    ensures Codes(SUB_ITEM_TYPES) == SUB_ITEM_CODES
  {
  }

  lemma SubItemTypeCodesDistinct()
    ensures DistinctCodes(SUB_ITEM_TYPES)
  {
    assert forall i, j :: 0 <= i < j < |SUB_ITEM_CODES| ==> SUB_ITEM_CODES[i] < SUB_ITEM_CODES[j];
    SubItemTypeCodes();
  }

  lemma SubItemTypeNames()
    ensures DistinctNames(SUB_ITEM_TYPES)
  {
  }

  lemma SubItemTypeNamesAvoid()
    ensures NamesAvoid(SUB_ITEM_TYPES, UNKNOWN)
  {
    forall i | 0 <= i < |SUB_ITEM_TYPES| ensures !(UNKNOWN <= SUB_ITEM_TYPES[i].name) {
      Mismatch(UNKNOWN, SUB_ITEM_TYPES[i].name, 0);
    }
  }

  /** Different sub-types print differently. */
  lemma SubItemTypeIdentifies(a: int32, b: int32)
    ensures DecodeSubItemType(a) == DecodeSubItemType(b) ==> a == b
  {
    SubItemTypeCodesDistinct();
    SubItemTypeNames();
    SubItemTypeNamesAvoid();
    DecodeInjective(SUB_ITEM_TYPES, UNKNOWN, a, b);
  }

  const REPLY_TYPES: seq<Entry> := [
    Entry(-2, "Аукционы игрока пусты"), Entry(-1, "Предмет не существует"),
    Entry(2, "Аукционы игрока"), Entry(3, "Все аукционы")]

  /** `DecodeCommissionReplyType`: the four commission list replies by name. */
  function DecodeCommissionReplyType(replyType: int32): (r: string)
    ensures replyType as int in [-2, -1, 2, 3] ==>
      exists i :: 0 <= i < |REPLY_TYPES| && REPLY_TYPES[i] == Entry(replyType as int, r)
    ensures replyType as int !in [-2, -1, 2, 3] ==> r == Unknown(UNKNOWN, replyType)
  {
    ReplyTypeTable();
    KnownIffListed(REPLY_TYPES, replyType);
    Decode(REPLY_TYPES, replyType, UNKNOWN)
  }

  lemma ReplyTypeTable()
    ensures Codes(REPLY_TYPES) == [-2, -1, 2, 3] && DistinctCodes(REPLY_TYPES)
    ensures DistinctNames(REPLY_TYPES) && NamesAvoid(REPLY_TYPES, UNKNOWN)
  {
    forall i | 0 <= i < |REPLY_TYPES| ensures !(UNKNOWN <= REPLY_TYPES[i].name) {
      Mismatch(UNKNOWN, REPLY_TYPES[i].name, 0);
    }
  }

  /** Different reply types print differently. */
  lemma ReplyTypeIdentifies(a: int32, b: int32)
    ensures DecodeCommissionReplyType(a) == DecodeCommissionReplyType(b) ==> a == b
  {
    ReplyTypeTable();
    DecodeInjective(REPLY_TYPES, UNKNOWN, a, b);
  }

  const WORLD_EXCHANGE_SUB_TYPES: seq<Entry> := [
    Entry(1, "Оружие"), Entry(2, "Броня"), Entry(3, "Аксессуар"), Entry(4, "Материал"),
    Entry(5, "Расходник"), Entry(6, "Прочее"), Entry(7, "Питомец"), Entry(8, "Навык"),
    Entry(9, "Зачарование"), Entry(10, "Особый")]

  /** `DecodeWorldExchangeSubType`: the ten world exchange categories 1 to 10 by name. */
  function DecodeWorldExchangeSubType(subType: int32): (r: string)
    ensures 1 <= subType <= 10 ==> r == WORLD_EXCHANGE_SUB_TYPES[subType - 1].name
    ensures !(1 <= subType <= 10) ==> r == Unknown(UNKNOWN, subType)
  {
    WorldExchangeSubTypeCodes();
    KnownIffListed(WORLD_EXCHANGE_SUB_TYPES, subType);
    if 1 <= subType <= 10 then
      DecodeAt(WORLD_EXCHANGE_SUB_TYPES, UNKNOWN, (subType - 1) as nat, subType);
      Decode(WORLD_EXCHANGE_SUB_TYPES, subType, UNKNOWN)
    else
      Decode(WORLD_EXCHANGE_SUB_TYPES, subType, UNKNOWN)
  }

  lemma WorldExchangeSubTypeCodes()
    ensures Codes(WORLD_EXCHANGE_SUB_TYPES) == [1, 2, 3, 4, 5, 6, 7, 8, 9, 10]
    ensures DistinctCodes(WORLD_EXCHANGE_SUB_TYPES)
  {
    assert forall i :: 0 <= i < |WORLD_EXCHANGE_SUB_TYPES| ==> WORLD_EXCHANGE_SUB_TYPES[i].code == i + 1;
  }

  lemma WorldExchangeSubTypeNames()
    ensures DistinctNames(WORLD_EXCHANGE_SUB_TYPES) && NamesAvoid(WORLD_EXCHANGE_SUB_TYPES, UNKNOWN)
  {
    forall i | 0 <= i < |WORLD_EXCHANGE_SUB_TYPES| ensures !(UNKNOWN <= WORLD_EXCHANGE_SUB_TYPES[i].name) {
      Mismatch(UNKNOWN, WORLD_EXCHANGE_SUB_TYPES[i].name, if i == 7 then 1 else 0);
    }
  }

  /** Different categories print differently. */
  lemma WorldExchangeSubTypeIdentifies(a: int32, b: int32)
    ensures DecodeWorldExchangeSubType(a) == DecodeWorldExchangeSubType(b) ==> a == b
  {
    WorldExchangeSubTypeCodes();
    WorldExchangeSubTypeNames();
    DecodeInjective(WORLD_EXCHANGE_SUB_TYPES, UNKNOWN, a, b);
  }

  // ---------------------------------------------------------------------
  // Filter lists.

  /** `GetStoreTypes`: the store-type filter, keyed by the search's store type (sell 0, buy 1, all 3). */
  function GetStoreTypes(): (r: map<int, string>)
    ensures r.Keys == {0, 1, 3}
    ensures forall k :: k in r && k != 3 ==> r[k] == DecodeStoreType(k as int32)
  {
    map[0 := "Продажа", 1 := "Покупка", 3 := "Все"]
  }

  /** `GetItemTypes`: the item-type filter, keyed by the search's item category. */
  function GetItemTypes(): (r: map<int, string>)
    ensures r.Keys == {0xFF, 0, 2, 4} && r[0xFF] == "Все"
  {
    map[0xFF := "Все", 0 := "Экипировка", 2 := "Усиление/Опыт", 4 := "Продукты/Коллекция"]
  }

  /**
   * `GetSubItemTypes`: "all" under 0xFF, and every listed sub-type under its
   * own code with its decoded name. The dictionary repeats the switch's
   * fourteen names, so the model builds it from the same table.
   */
  function GetSubItemTypes(): (r: map<int, string>)
    ensures forall c :: c in r <==> c == 0xFF || c in Codes(SUB_ITEM_TYPES)
    ensures r[0xFF] == "Все"
    ensures forall c: int32 :: c as int in Codes(SUB_ITEM_TYPES) ==> r[c as int] == DecodeSubItemType(c)
  {
    SubItemTypeCodesDistinct();
    SubItemAllApart();
    var listed := ToMap(SUB_ITEM_TYPES);
    assert forall c: int32 :: c as int in Codes(SUB_ITEM_TYPES) ==> listed[c as int] == DecodeSubItemType(c) by {
      forall c: int32 | c as int in Codes(SUB_ITEM_TYPES) ensures listed[c as int] == DecodeSubItemType(c) {
        ToMapDecodes(SUB_ITEM_TYPES, UNKNOWN, c);
      }
    }
    map[0xFF := "Все"] + listed
  }

  /** The code 0xFF of "all" is not a sub-type of its own. */
  lemma SubItemAllApart()
    ensures 0xFF !in Codes(SUB_ITEM_TYPES)
  {
    SubItemTypeCodes();
  }

  // ---------------------------------------------------------------------
  // Prices.

  /**
   * A price as a window prints it: `F1` of `value / divisor` followed by the
   * suffix, `N0` (digits grouped by the culture's separator) of the value, or
   * the value's plain `ToString`. The digits of `F1` and `N0` depend on the
   * culture and on double rounding and are not part of this model.
   */
  datatype PriceText = Scaled(value: int64, divisor: nat, suffix: string) | Grouped(value: int64) | Plain(value: int64)

  /** The unit a price text counts in: the divisor of a scaled text, 1 otherwise. */
  function Unit(t: PriceText): nat
  {
    if t.Scaled? then t.divisor else 1
  }

  /**
   * `FormatPrice`: billions, millions or thousands with one decimal, and the
   * grouped whole number below a thousand. The unit chosen is the largest
   * that the price reaches, so the scaled value lies in [1, 1000) except for
   * billions, which have no upper bound.
   */
  function FormatPrice(price: int64): (r: PriceText)
    ensures r.value == price && !r.Plain?
    ensures r.Scaled? <==> price >= 1_000
    ensures r.Scaled? ==> r.divisor <= price && (r.divisor == 1_000_000_000 || price < 1000 * r.divisor)
    ensures r.Scaled? ==> (r.divisor, r.suffix) in {(1_000, "K"), (1_000_000, "M"), (1_000_000_000, "B")}
  {
    if price >= 1_000_000_000 then Scaled(price, 1_000_000_000, "B")
    else if price >= 1_000_000 then Scaled(price, 1_000_000, "M")
    else if price >= 1_000 then Scaled(price, 1_000, "K")
    else Grouped(price)
  }

  /** A larger price never gets a smaller unit. */
  lemma PriceUnitMonotone(a: int64, b: int64)
    requires a <= b
    ensures Unit(FormatPrice(a)) <= Unit(FormatPrice(b))
  {
  }

  // ---------------------------------------------------------------------
  // Remaining time.

  const EXPIRED: string := "Истек"

  /**
   * `FormatEndTime` at `currentTime` (Unix seconds, cast to 32 bits): the
   * remaining seconds wrap as a 32-bit subtraction; none left is "Истек",
   * otherwise days and hours, hours and minutes, or minutes alone, whichever
   * is the largest nonzero unit.
   */
  function FormatEndTime(endTime: int32, currentTime: int32): (r: string)
    ensures r == EXPIRED <==> Wrap32(endTime as int - currentTime as int) <= 0
  {
    var remaining := Wrap32(endTime as int - currentTime as int);
    if remaining <= 0 then EXPIRED
    else
      var days := remaining / 86400;
      var hours := remaining % 86400 / 3600;
      var minutes := remaining % 3600 / 60;
      var r := if days > 0 then IntText(days) + "д " + IntText(hours) + "ч"
        else if hours > 0 then IntText(hours) + "ч " + IntText(minutes) + "м"
        else IntText(minutes) + "м";
      assert r[|r| - 1] != EXPIRED[|EXPIRED| - 1];
      r
  }

  /**
   * The three numbers shown add up with the dropped seconds to the remaining
   * time: hours stay below a day and minutes below an hour.
   */
  lemma RemainingParts(remaining: int)
    requires remaining > 0
    ensures var days, hours, minutes := remaining / 86400, remaining % 86400 / 3600, remaining % 3600 / 60;
      remaining == 86400 * days + 3600 * hours + 60 * minutes + remaining % 60 &&
      0 <= hours < 24 && 0 <= minutes < 60
  {
    var days := remaining / 86400;
    var x := remaining % 86400;
    var hours := x / 3600;
    var y := x % 3600;
    assert x == 3600 * hours + y;
    Mod3600(remaining, 24 * days + hours, y);
    var minutes := y / 60;
    var seconds := y % 60;
    Mod60(remaining, 60 * (24 * days + hours) + minutes, seconds);
  }

  lemma Mod3600(n: int, q: int, rest: int)
    requires n == 3600 * q + rest && 0 <= rest < 3600
    ensures n % 3600 == rest
  {
  }

  lemma Mod60(n: int, q: int, rest: int)
    requires n == 60 * q + rest && 0 <= rest < 60
    ensures n % 60 == rest
  {
  }

  // ---------------------------------------------------------------------
  // Enchant level.

  /** `FormatEnchantLevel`: nothing for 0, a plus sign before a positive level, and the plain number otherwise. */
  function FormatEnchantLevel(enchantLevel: int32): (r: string)
    ensures r == "" <==> enchantLevel == 0
    ensures enchantLevel > 0 <==> |r| > 0 && r[0] == '+'
  {
    if enchantLevel == 0 then ""
    else if enchantLevel > 0 then "+" + IntText(enchantLevel)
    else
      var r := IntText(enchantLevel);
      assert r[0] == '-';
      r
  }

  /** A shown level reads back as the same level, so the text identifies the level. */
  lemma EnchantLevelRoundTrip(enchantLevel: int32)
    requires enchantLevel != 0
    ensures ParseInt32(FormatEnchantLevel(enchantLevel)) == Some(enchantLevel)
  {
    if enchantLevel > 0 {
      var t := FormatEnchantLevel(enchantLevel);
      assert t[1..] == NatText(enchantLevel as nat);
      NatTextValue(enchantLevel as nat);
    } else {
      IntRoundTrip(enchantLevel);
    }
  }

  const GOLD: string := "#FFD700"
  const RED: string := "#FF6B6B"
  const TURQUOISE: string := "#4ECDC4"
  const BLUE: string := "#45B7D1"
  const GREY: string := "#95A5A6"

  /** `GetEnchantColor`: gold from +16, red from +10, turquoise from +5, blue from +1, grey below. */
  function GetEnchantColor(enchantLevel: int32): (r: string)
    ensures r == GREY <==> enchantLevel < 1
  {
    if enchantLevel >= 16 then GOLD
    else if enchantLevel >= 10 then RED
    else if enchantLevel >= 5 then TURQUOISE
    else if enchantLevel >= 1 then BLUE
    else GREY
  }

  /** The colour is a step function: the levels between two levels of one colour have that colour too. */
  lemma EnchantColorSteps(a: int32, b: int32, c: int32)
    requires a <= c <= b && GetEnchantColor(a) == GetEnchantColor(b)
    ensures GetEnchantColor(c) == GetEnchantColor(a)
  {
  }

  /** Exactly the levels 16, 10, 5 and 1 start a new colour. */
  lemma EnchantColorChanges(a: int32)
    requires a < 0x7FFF_FFFF
    ensures GetEnchantColor(a) != GetEnchantColor(a + 1) <==> a + 1 in {16, 10, 5, 1}
  {
  }

  // ---------------------------------------------------------------------
  // Price colour.

  const CHEAP: string := "#2ECC71"
  const FAIR: string := "#F39C12"
  const DEAR: string := "#E67E22"
  const VERY_DEAR: string := "#E74C3C"

  /**
   * `GetPriceColor`: grey without an average; otherwise by the ratio of the
   * price to the average, green up to 0.5, orange up to 0.8, dark orange up
   * to 1.2 and red above.
   */
  function GetPriceColor(price: int64, averagePrice: int64): (r: string)
    ensures r == GREY <==> averagePrice == 0
  {
    if averagePrice == 0 then GREY
    else
      var ratio := Ratio(price, averagePrice);
      if ratio <= 0.5 then CHEAP
      else if ratio <= 0.8 then FAIR
      else if ratio <= 1.2 then DEAR
      else VERY_DEAR
  }

  /** `(double)price / averagePrice`, as an exact fraction. */
  function Ratio(price: int64, averagePrice: int64): (r: real)
    requires averagePrice != 0
    ensures r * averagePrice as real == price as real
  {
    price as real / averagePrice as real
  }

  /** Against a positive average the bands are exact fractions of it. */
  lemma PriceColorBands(price: int64, averagePrice: int64)
    requires averagePrice > 0
    ensures GetPriceColor(price, averagePrice) == CHEAP <==> 2 * price <= averagePrice
    ensures GetPriceColor(price, averagePrice) == VERY_DEAR <==> 5 * price > 6 * averagePrice
  {
    var a := averagePrice as real;
    var p := price as real;
    var ratio := Ratio(price, averagePrice);
    RatioBound(p, a, ratio, 0.5);
    RatioBound(p, a, ratio, 1.2);
    assert (2 * price) as real == 2.0 * p && (5 * price) as real == 5.0 * p;
    assert (6 * averagePrice) as real == 6.0 * a;
  }

  /** Against a positive average, the ratio is at most `y` exactly when the price is at most `y` averages. */
  lemma RatioBound(p: real, a: real, ratio: real, y: real)
    requires a > 0.0 && ratio * a == p
    ensures ratio <= y <==> p <= y * a
  {
    assert (y - ratio) * a == y * a - p;
    if ratio <= y {
      assert (y - ratio) * a >= 0.0;
    } else {
      assert (ratio - y) * a > 0.0;
    }
  }
}
