/**
 * `MarketItemViewModel`: the row a market window shows for one listing of
 * the private stores, the commission house or the world exchange. The three
 * factories turn a decoded listing into a row of texts and numbers; the
 * display properties derive the price text, the remaining lifetime, the
 * colour and the icon of the market from the row. `DateTime.UtcNow` is the
 * parameter `now` (in ticks), and the date text of an end time is a
 * parameter as well. Change notification is not modelled.
 */
module MarketItemView {
  import opened Bytes
  import opened Wrappers
  import opened Text
  import opened Utf16
  import opened CodeTables
  import opened ItemInfos
  import opened MarketCommon
  import StoreDecoders
  import BodyParts
  import MarketDecoders
  import PrivateStorePacket
  import CommissionPacket
  import WorldExchangePacket

  /**
   * The backing fields of the view model, each with the value a new view
   * model starts from; `sellerName` keeps the UTF-16 text of the listing.
   */
  datatype ItemView = ItemView(
    itemName: string := "",
    price: int64 := 0,
    sellerName: Units := [],
    marketType: string := "",
    enchantLevel: int32 := 0,
    hasAugmentation: bool := false,
    hasSoulCrystal: bool := false,
    isBlessed: bool := false,
    lastSeen: Ticks := 0,
    itemId: string := "",
    additionalInfo: string := "",
    count: int64 := 0,
    itemType2: int32 := 0,
    bodyPart: int64 := 0,
    mana: int32 := 0,
    time: int32 := 0,
    available: bool := false,
    visualId: int32 := 0,
    coordinates: string := "",
    endTime: string := "",
    attackAttribute: string := "",
    defenceAttributes: string := "",
    soulCrystalInfo: string := "",
    objectId: int32 := 0,
    location: int32 := 0,
    customType1: int32 := 0,
    equipped: int32 := 0,
    augmentationInfo: string := "",
    elementalAttrs: string := "",
    enchantEffects: string := "",
    reuseDelay: int := 0,
    commissionId: string := "",
    commissionType: string := "",
    durationType: string := "",
    worldExchangeId: string := "",
    unknownField: int32 := 0,
    vendorObjectId: int32 := 0)

  // ---------------------------------------------------------------------
  // Price and enchant level.

  /**
   * `FormattedPrice`: trillions, billions, millions or thousands with one
   * decimal, and the plain number below a thousand (0 included, which the
   * source spells out as "0").
   */
  function FormattedPrice(price: int64): (r: MarketDecoders.PriceText)
    ensures r.value == price && !r.Grouped?
    ensures r.Scaled? <==> price >= 1_000
    ensures r.Scaled? ==> r.divisor <= price && (r.divisor == 1_000_000_000_000 || price < 1000 * r.divisor)
    ensures r.Scaled? ==>
      (r.divisor, r.suffix) in {(1_000, "K"), (1_000_000, "M"), (1_000_000_000, "B"), (1_000_000_000_000, "T")}
  {
    if price == 0 then MarketDecoders.Plain(0)
    else if price >= 1_000_000_000_000 then MarketDecoders.Scaled(price, 1_000_000_000_000, "T")
    else if price >= 1_000_000_000 then MarketDecoders.Scaled(price, 1_000_000_000, "B")
    else if price >= 1_000_000 then MarketDecoders.Scaled(price, 1_000_000, "M")
    else if price >= 1_000 then MarketDecoders.Scaled(price, 1_000, "K")
    else MarketDecoders.Plain(price)
  }

  /**
   * The row and `MarketDecoders.FormatPrice` pick the same unit for every
   * price below a trillion; from a trillion on the row counts in trillions
   * where the decoder stays with billions.
   */
  lemma PriceUnitsAgree(price: int64)
    ensures price < 1_000_000_000_000 ==> MarketDecoders.Unit(FormattedPrice(price)) == MarketDecoders.Unit(MarketDecoders.FormatPrice(price))
    ensures 1_000 <= price < 1_000_000_000_000 ==> FormattedPrice(price) == MarketDecoders.FormatPrice(price)
    ensures price >= 1_000_000_000_000 ==> MarketDecoders.Unit(FormattedPrice(price)) == 1000 * MarketDecoders.Unit(MarketDecoders.FormatPrice(price))
  {
  }

  /** `FormattedEnchantLevel`: a plus sign and the level when it is positive, nothing otherwise. */
  function FormattedEnchantLevel(enchantLevel: int32): (r: string)
    ensures r == "" <==> enchantLevel <= 0
  {
    if enchantLevel > 0 then "+" + IntText(enchantLevel) else ""
  }

  /** A positive level reads the same as in `MarketDecoders.FormatEnchantLevel`; a negative one is hidden here and shown there. */
  lemma EnchantTextsAgree(enchantLevel: int32)
    ensures enchantLevel > 0 ==> FormattedEnchantLevel(enchantLevel) == MarketDecoders.FormatEnchantLevel(enchantLevel)
    ensures enchantLevel < 0 ==> FormattedEnchantLevel(enchantLevel) != MarketDecoders.FormatEnchantLevel(enchantLevel)
  {
  }

  // ---------------------------------------------------------------------
  // Status icons.

  const AUGMENTED_ICON: char := '⚡'
  const SOUL_CRYSTAL_ICON: char := '💎'
  const BLESSED_ICON: char := '✨'

  function Flag(b: bool): nat { if b then 1 else 0 }

  /** `GetStatusIcons`: one icon per flag that is set, in the order augmentation, soul crystal, blessing. */
  function StatusIcons(v: ItemView): (r: string)
    ensures |r| == Flag(v.hasAugmentation) + Flag(v.hasSoulCrystal) + Flag(v.isBlessed)
    ensures AUGMENTED_ICON in r <==> v.hasAugmentation
    ensures SOUL_CRYSTAL_ICON in r <==> v.hasSoulCrystal
    ensures BLESSED_ICON in r <==> v.isBlessed
    ensures v.hasAugmentation ==> r[0] == AUGMENTED_ICON
    ensures v.isBlessed ==> r[|r| - 1] == BLESSED_ICON
  {
    (if v.hasAugmentation then [AUGMENTED_ICON] else [])
    + (if v.hasSoulCrystal then [SOUL_CRYSTAL_ICON] else [])
    + (if v.isBlessed then [BLESSED_ICON] else [])
  }

  // ---------------------------------------------------------------------
  // Lifetime and the time left.

  const PRIVATE_STORE: string := "Частный магазин"
  const COMMISSION: string := "Комиссия"
  const WORLD_EXCHANGE: string := "Мировой обмен"

  /** `GetItemLifetime`: five minutes for a private store, ten for the commission house, fifteen for the world exchange, five otherwise. */
  function Lifetime(marketType: string): (r: Ticks)
    ensures r == 10 * TICKS_PER_MINUTE <==> !Contains(marketType, PRIVATE_STORE) && Contains(marketType, COMMISSION)
    ensures r == 15 * TICKS_PER_MINUTE <==>
      !Contains(marketType, PRIVATE_STORE) && !Contains(marketType, COMMISSION) && Contains(marketType, WORLD_EXCHANGE)
    ensures r == 5 * TICKS_PER_MINUTE || r == 10 * TICKS_PER_MINUTE || r == 15 * TICKS_PER_MINUTE
  {
    if Contains(marketType, PRIVATE_STORE) then 5 * TICKS_PER_MINUTE
    else if Contains(marketType, COMMISSION) then 10 * TICKS_PER_MINUTE
    else if Contains(marketType, WORLD_EXCHANGE) then 15 * TICKS_PER_MINUTE
    else 5 * TICKS_PER_MINUTE
  }

  /** The lifetime less the time since the listing was last seen. */
  function TimeLeft(v: ItemView, now: Ticks): Ticks
  {
    Lifetime(v.marketType) - (now - v.lastSeen)
  }

  const EXPIRED: string := "Истек"
  const UNDER_A_MINUTE: string := "<1 мин"

  /** `TimeUntilExpiry`: "Истек" when no time is left, "<1 мин" under a minute, otherwise the whole minutes left. */
  function TimeUntilExpiry(v: ItemView, now: Ticks): (r: string)
    ensures r == EXPIRED <==> TimeLeft(v, now) <= 0
    ensures r == UNDER_A_MINUTE <==> 0 < TimeLeft(v, now) < TICKS_PER_MINUTE
    ensures TimeLeft(v, now) >= TICKS_PER_MINUTE ==>
      exists m: nat :: r == IntText(m) + " мин" && m * TICKS_PER_MINUTE <= TimeLeft(v, now) < (m + 1) * TICKS_PER_MINUTE
  {
    var left := TimeLeft(v, now);
    if left <= 0 then EXPIRED
    else if left < TICKS_PER_MINUTE then UNDER_A_MINUTE
    else
      var m := left / TICKS_PER_MINUTE;
      var r := IntText(m) + " мин";
      assert r[0] != EXPIRED[0] && r[0] != UNDER_A_MINUTE[0] by {
        IntTextPlain(m);
      }
      r
  }

  const EXPIRED_COLOR: string := "#E74C3C"
  const LAST_MINUTE_COLOR: string := "#F39C12"
  const LAST_TWO_MINUTES_COLOR: string := "#F1C40F"
  const FRESH_COLOR: string := "#27AE60"

  /** `TimeUntilExpiryColor`: red when expired, orange under one minute, yellow under two, green otherwise. */
  function TimeUntilExpiryColor(v: ItemView, now: Ticks): (r: string)
    ensures r == EXPIRED_COLOR <==> TimeLeft(v, now) <= 0
    ensures r == FRESH_COLOR <==> TimeLeft(v, now) >= 2 * TICKS_PER_MINUTE
  {
    var left := TimeLeft(v, now);
    if left <= 0 then EXPIRED_COLOR
    else if left < TICKS_PER_MINUTE then LAST_MINUTE_COLOR
    else if left < 2 * TICKS_PER_MINUTE then LAST_TWO_MINUTES_COLOR
    else FRESH_COLOR
  }

  /** The colour and the text tell the same story: red with "Истек", orange with "<1 мин", yellow with "1 мин". */
  lemma ExpiryColorMatchesText(v: ItemView, now: Ticks)
    ensures TimeUntilExpiryColor(v, now) == EXPIRED_COLOR <==> TimeUntilExpiry(v, now) == EXPIRED
    ensures TimeUntilExpiryColor(v, now) == LAST_MINUTE_COLOR <==> TimeUntilExpiry(v, now) == UNDER_A_MINUTE
    ensures TimeUntilExpiryColor(v, now) == LAST_TWO_MINUTES_COLOR <==> TimeUntilExpiry(v, now) == "1 мин"
  {
    var left := TimeLeft(v, now);
    if left >= TICKS_PER_MINUTE {
      var m := left / TICKS_PER_MINUTE;
      assert TimeUntilExpiry(v, now) == IntText(m) + " мин";
      assert m == 1 <==> left < 2 * TICKS_PER_MINUTE;
      if m != 1 {
        assert IntText(m) != "1" by {
          if m < 10 {
            assert IntText(m) == [DigitChar(m)];
            assert DigitChar(m) != '1';
          } else {
            assert IntText(m) == NatText(m / 10) + [DigitChar(m % 10)];
          }
        }
        assert (IntText(m) + " мин")[..|IntText(m)|] == IntText(m);
      }
    }
  }

  /** A listing seen just now shows its whole lifetime in minutes. */
  lemma FreshListingShowsLifetime(v: ItemView)
    ensures TimeUntilExpiry(v, v.lastSeen) == IntText(Lifetime(v.marketType) / TICKS_PER_MINUTE) + " мин"
    ensures TimeUntilExpiryColor(v, v.lastSeen) == FRESH_COLOR
  {
  }

  // ---------------------------------------------------------------------
  // Placeholders.

  const DASH: string := "—"

  /** `FormattedCoordinates` and the other placeholders: an em dash for an empty text, the text otherwise. */
  function Placeholder(s: string): (r: string)
    ensures r != "" && (s != "" ==> r == s) && (s == "" ==> r == DASH)
  {
    if s == "" then DASH else s
  }

  // ---------------------------------------------------------------------
  // Colour and icon of the market.

  const SALE: string := "Продажа"
  const PURCHASE: string := "Покупка"
  const PACKAGE_SALE: string := "Пакетная продажа"

  const SALE_COLOR: string := "#27AE60"
  const PURCHASE_COLOR: string := "#E74C3C"
  const PACKAGE_COLOR: string := "#F39C12"
  const STORE_COLOR: string := "#3498DB"
  const COMMISSION_COLOR: string := "#E67E22"
  const WORLD_EXCHANGE_COLOR: string := "#9B59B6"
  const OTHER_COLOR: string := "#95A5A6"

  const SALE_ICON: string := "💰"
  const PURCHASE_ICON: string := "🛒"
  const PACKAGE_ICON: string := "📦"
  const STORE_ICON: string := "🏪"
  const COMMISSION_ICON: string := "🏛️"
  const WORLD_EXCHANGE_ICON: string := "🌍"
  const OTHER_ICON: string := "❓"

  /**
   * `MarketTypeColor`: a private store by what it does (sale, purchase,
   * package sale, anything else); otherwise a switch on the whole text, in
   * which only the exact texts "Комиссия" and "Мировой обмен" have colours
   * of their own.
   */
  function MarketTypeColor(marketType: string): (r: string)
    ensures r == OTHER_COLOR <==> !Contains(marketType, PRIVATE_STORE) && marketType != COMMISSION && marketType != WORLD_EXCHANGE
  {
    if Contains(marketType, PRIVATE_STORE) then
      if Contains(marketType, SALE) then SALE_COLOR
      else if Contains(marketType, PURCHASE) then PURCHASE_COLOR
      else if Contains(marketType, PACKAGE_SALE) then PACKAGE_COLOR
      else STORE_COLOR
    else if marketType == COMMISSION then COMMISSION_COLOR
    else if marketType == WORLD_EXCHANGE then WORLD_EXCHANGE_COLOR
    else OTHER_COLOR
  }

  /** `MarketTypeIcon`: the same distinctions as `MarketTypeColor`, with an icon for each. */
  function MarketTypeIcon(marketType: string): (r: string)
    ensures r == OTHER_ICON <==> !Contains(marketType, PRIVATE_STORE) && marketType != COMMISSION && marketType != WORLD_EXCHANGE
  {
    if Contains(marketType, PRIVATE_STORE) then
      if Contains(marketType, SALE) then SALE_ICON
      else if Contains(marketType, PURCHASE) then PURCHASE_ICON
      else if Contains(marketType, PACKAGE_SALE) then PACKAGE_ICON
      else STORE_ICON
    else if marketType == COMMISSION then COMMISSION_ICON
    else if marketType == WORLD_EXCHANGE then WORLD_EXCHANGE_ICON
    else OTHER_ICON
  }

  /** Two market texts get the same colour exactly when they get the same icon. */
  lemma ColorIconAgree(a: string, b: string)
    ensures MarketTypeColor(a) == MarketTypeColor(b) <==> MarketTypeIcon(a) == MarketTypeIcon(b)
  {
  }

  /**
   * The colour and icon the switch evidently means: the commission house and
   * the world exchange recognised by `Contains`, as `GetItemLifetime` does,
   * so that the texts the factories produce reach their own cases.
   */
  function IntendedMarketTypeColor(marketType: string): (r: string)
    ensures Contains(marketType, PRIVATE_STORE) || marketType == COMMISSION ==> r == MarketTypeColor(marketType)
  {
    assert marketType == COMMISSION ==> OccursAt(marketType, COMMISSION, 0);
    if Contains(marketType, PRIVATE_STORE) then MarketTypeColor(marketType)
    else if Contains(marketType, COMMISSION) then COMMISSION_COLOR
    else if Contains(marketType, WORLD_EXCHANGE) then WORLD_EXCHANGE_COLOR
    else OTHER_COLOR
  }

  function IntendedMarketTypeIcon(marketType: string): (r: string)
    ensures Contains(marketType, PRIVATE_STORE) || marketType == COMMISSION ==> r == MarketTypeIcon(marketType)
  {
    assert marketType == COMMISSION ==> OccursAt(marketType, COMMISSION, 0);
    if Contains(marketType, PRIVATE_STORE) then MarketTypeIcon(marketType)
    else if Contains(marketType, COMMISSION) then COMMISSION_ICON
    else if Contains(marketType, WORLD_EXCHANGE) then WORLD_EXCHANGE_ICON
    else OTHER_ICON
  }

  /** The intended colour and icon stay in step, and follow the lifetime's choice of market. */
  lemma IntendedFollowsLifetime(marketType: string)
    ensures IntendedMarketTypeColor(marketType) == COMMISSION_COLOR <==> Lifetime(marketType) == 10 * TICKS_PER_MINUTE
    ensures IntendedMarketTypeColor(marketType) == WORLD_EXCHANGE_COLOR <==> Lifetime(marketType) == 15 * TICKS_PER_MINUTE
    ensures IntendedMarketTypeIcon(marketType) == WORLD_EXCHANGE_ICON <==> Lifetime(marketType) == 15 * TICKS_PER_MINUTE
  {
  }

  // ---------------------------------------------------------------------
  // Code tables of the view.

  const UNKNOWN: string := "Неизвестный ("

  /** `GetElementName`: the element names with an icon in front, and "Нет атрибута" for -2. */
  const ELEMENT_LABELS: seq<Entry> := [
    Entry(-2, "Нет атрибута"), Entry(0, "🔥 Огонь"), Entry(1, "💧 Вода"), Entry(2, "💨 Ветер"),
    Entry(3, "🌍 Земля"), Entry(4, "✨ Свет"), Entry(5, "🌑 Тьма")]

  const ELEMENT_ICONS: seq<string> := ["🔥", "💧", "💨", "🌍", "✨", "🌑"]

  function GetElementName(elementType: int32): (r: string)
    ensures elementType == -2 ==> r == "Нет атрибута"
    ensures 0 <= elementType <= 5 ==> r == ELEMENT_ICONS[elementType] + " " + StoreDecoders.ELEMENT_NAMES[elementType]
    ensures elementType != -2 && !(0 <= elementType <= 5) ==> r == Unknown(UNKNOWN, elementType)
  {
    DecodeRun(ELEMENT_LABELS[1..], UNKNOWN, 0, elementType);
    ElementLabelsDecorate();
    Decode(ELEMENT_LABELS, elementType, UNKNOWN)
  }

  lemma ElementLabelCodes()
    ensures DistinctCodes(ELEMENT_LABELS) && Codes(ELEMENT_LABELS) == Codes(StoreDecoders.ELEMENTS)
  {
    assert ELEMENT_LABELS[0].code == -2;
    assert forall i :: 1 <= i < |ELEMENT_LABELS| ==> ELEMENT_LABELS[i].code == i - 1;
  }

  lemma ElementLabelNames()
    ensures DistinctNames(ELEMENT_LABELS) && NamesAvoid(ELEMENT_LABELS, UNKNOWN)
  {
    forall i | 0 <= i < |ELEMENT_LABELS| ensures !(UNKNOWN <= ELEMENT_LABELS[i].name) {
      Mismatch(UNKNOWN, ELEMENT_LABELS[i].name, if i == 0 then 2 else 0);
    }
  }

  /** Each label is the decoder's element name with its icon in front. */
  lemma ElementLabelsDecorate()
    ensures forall i :: 0 <= i < 6 ==> ELEMENT_LABELS[i + 1].name == ELEMENT_ICONS[i] + " " + StoreDecoders.ELEMENT_NAMES[i]
  {
  }

  /**
   * The elements 0 to 5 read as the store decoder's names with an icon in
   * front, a code outside the table reads exactly as in the store decoder,
   * and different codes read differently.
   */
  lemma ElementNameDecorates(a: int32, b: int32)
    ensures 0 <= a <= 5 ==> GetElementName(a) == ELEMENT_ICONS[a] + " " + StoreDecoders.DecodeElementalAttribute(a)
    ensures a != -2 && !(0 <= a <= 5) ==> GetElementName(a) == StoreDecoders.DecodeElementalAttribute(a)
    ensures GetElementName(a) == GetElementName(b) ==> a == b
  {
    ElementLabelCodes();
    ElementLabelNames();
    if 0 <= a <= 5 {
      DecodeAt(ELEMENT_LABELS, UNKNOWN, a + 1, a);
      ElementLabelsDecorate();
      StoreDecoders.ElementNamesInOrder(a);
    } else if a != -2 {
      StoreDecoders.ElementCodes(a);
      KnownIffListed(StoreDecoders.ELEMENTS, a);
      KnownIffListed(ELEMENT_LABELS, a);
    }
    DecodeInjective(ELEMENT_LABELS, UNKNOWN, a, b);
  }

  const COMMISSION_TYPES: seq<Entry> := [Entry(0, "Обычная"), Entry(1, "Премиум"), Entry(2, "VIP")]

  /** `DecodeCommissionType`: regular, premium and VIP by name. */
  function DecodeCommissionType(commissionItemType: int32): (r: string)
    ensures 0 <= commissionItemType <= 2 ==> r == COMMISSION_TYPES[commissionItemType].name
    ensures !(0 <= commissionItemType <= 2) ==> r == Unknown(UNKNOWN, commissionItemType)
  {
    DecodeRun(COMMISSION_TYPES, UNKNOWN, 0, commissionItemType);
    Decode(COMMISSION_TYPES, commissionItemType, UNKNOWN)
  }

  /** Codes 0 to 2 have names, any other code the unknown text, and different codes read differently. */
  lemma CommissionTypeIdentifies(a: int32, b: int32)
    ensures Known(COMMISSION_TYPES, a) <==> 0 <= a <= 2
    ensures !(0 <= a <= 2) ==> DecodeCommissionType(a) == UNKNOWN + IntText(a) + ")"
    ensures DecodeCommissionType(a) == DecodeCommissionType(b) ==> a == b
  {
    if 0 <= a <= 2 {
      assert COMMISSION_TYPES[a].code == a as int;
    }
    CommissionTypeTable();
    DecodeInjective(COMMISSION_TYPES, UNKNOWN, a, b);
  }

  lemma CommissionTypeTable()
    ensures DistinctCodes(COMMISSION_TYPES) && DistinctNames(COMMISSION_TYPES) && NamesAvoid(COMMISSION_TYPES, UNKNOWN)
  {
    assert forall i :: 0 <= i < |COMMISSION_TYPES| ==> COMMISSION_TYPES[i].code == i;
    forall i | 0 <= i < |COMMISSION_TYPES| ensures !(UNKNOWN <= COMMISSION_TYPES[i].name) {
      Mismatch(UNKNOWN, COMMISSION_TYPES[i].name, 0);
    }
  }

  const DURATION_TYPES: seq<Entry> := [
    Entry(0, "1 день"), Entry(1, "3 дня"), Entry(2, "7 дней"), Entry(3, "14 дней"), Entry(4, "30 дней")]

  /** `DecodeDurationType`: one, three, seven, fourteen and thirty days. */
  function DecodeDurationType(durationType: int32): (r: string)
    ensures 0 <= durationType <= 4 ==> r == DURATION_TYPES[durationType].name
    ensures !(0 <= durationType <= 4) ==> r == Unknown(UNKNOWN, durationType)
  {
    DecodeRun(DURATION_TYPES, UNKNOWN, 0, durationType);
    Decode(DURATION_TYPES, durationType, UNKNOWN)
  }

  /** Codes 0 to 4 have names, any other code the unknown text, and different codes read differently. */
  lemma DurationTypeIdentifies(a: int32, b: int32)
    ensures Known(DURATION_TYPES, a) <==> 0 <= a <= 4
    ensures !(0 <= a <= 4) ==> DecodeDurationType(a) == UNKNOWN + IntText(a) + ")"
    ensures DecodeDurationType(a) == DecodeDurationType(b) ==> a == b
  {
    if 0 <= a <= 4 {
      assert DURATION_TYPES[a].code == a as int;
    }
    DurationTypeTable();
    DecodeInjective(DURATION_TYPES, UNKNOWN, a, b);
  }

  lemma DurationTypeTable()
    ensures DistinctCodes(DURATION_TYPES) && DistinctNames(DURATION_TYPES) && NamesAvoid(DURATION_TYPES, UNKNOWN)
  {
    assert forall i :: 0 <= i < |DURATION_TYPES| ==> DURATION_TYPES[i].code == i;
    forall i | 0 <= i < |DURATION_TYPES| ensures !(UNKNOWN <= DURATION_TYPES[i].name) {
      Mismatch(UNKNOWN, DURATION_TYPES[i].name, 0);
    }
  }

  // ---------------------------------------------------------------------
  // Elemental attributes.

  /** `x?.Any() == true`: present and not empty. */
  predicate Any<T>(x: Option<seq<T>>)
  {
    x.Some? && |x.value| > 0
  }

  /** A joined list whose first part is not empty is not empty. */
  lemma JoinNotEmpty(parts: seq<string>, sep: string)
    requires |parts| > 0 && parts[0] != ""
    ensures JoinWith(parts, sep) != ""
  {
  }

  /** The keys the view reads the attack from. */
  const VIEW_KEYS := ElementalKeys("attack_type", "attack_power")

  const ATTACK_ICON: string := "⚔️ "
  const SHIELD_ICON: string := "🛡️ "

  /** The attack line for a dictionary with both keys `keys` and a positive power. */
  function AttackLine(keys: ElementalKeys, d: Dict): (r: seq<string>)
    ensures |r| <= 1
    ensures |r| == 1 <==> Lookup(d, keys.typeKey).Some? && Lookup(d, keys.powerKey).Some? && Lookup(d, keys.powerKey).value > 0
    ensures |r| == 1 ==> r[0] == ATTACK_ICON + GetElementName(Lookup(d, keys.typeKey).value) + ": " + IntText(Lookup(d, keys.powerKey).value)
  {
    var attackType, attackPower := Lookup(d, keys.typeKey), Lookup(d, keys.powerKey);
    if attackType.Some? && attackPower.Some? && attackPower.value > 0
    then [ATTACK_ICON + GetElementName(attackType.value) + ": " + IntText(attackPower.value)]
    else []
  }

  /**
   * `FormatAttackAttributeFromElementalAttrs`: the element and the power when
   * the dictionary holds both "attack_type" and "attack_power" and the power
   * is positive, nothing otherwise.
   */
  function FormatAttackAttributeFromElementalAttrs(attrs: Option<Dict>): (r: string)
    ensures r != "" <==>
      (attrs.Some? && Lookup(attrs.value, VIEW_KEYS.typeKey).Some?
       && Lookup(attrs.value, VIEW_KEYS.powerKey).Some? && Lookup(attrs.value, VIEW_KEYS.powerKey).value > 0)
    ensures r != "" ==> ATTACK_ICON <= r
  {
    if attrs.None? then "" else
    var line := AttackLine(VIEW_KEYS, attrs.value);
    if |line| == 0 then "" else line[0]
  }

  /** The defence keys and the labels they are shown with. */
  const DEFENCES: seq<(string, string)> := [
    ("defense_fire", "🔥 Огонь"), ("defense_water", "💧 Вода"), ("defense_wind", "💨 Ветер"),
    ("defense_earth", "🌍 Земля"), ("defense_holy", "✨ Свет"), ("defense_dark", "🌑 Тьма")]

  /** The value stored under `key`, a missing key counting as 0. */
  function ValueOrZero(d: Dict, key: string): int
  {
    match Lookup(d, key)
    case Some(v) => v
    case None => 0
  }

  /** Each defence label with the value the dictionary holds for its key. */
  function DefenceEntries(d: Dict): (r: seq<(string, int)>)
    ensures |r| == |DEFENCES|
    ensures forall i :: 0 <= i < |DEFENCES| ==> r[i] == (DEFENCES[i].1, ValueOrZero(d, DEFENCES[i].0))
  {
    seq(|DEFENCES|, i requires 0 <= i < |DEFENCES| => (DEFENCES[i].1, ValueOrZero(d, DEFENCES[i].0)))
  }

  /** `label + sep + value` for each entry whose value is positive, in order. */
  function Shown(entries: seq<(string, int)>, sep: string): (r: seq<string>)
    ensures |r| <= |entries|
    decreases |entries|
  {
    if |entries| == 0 then []
    else
      Shown(entries[..|entries| - 1], sep) + ShownEntry(entries[|entries| - 1], sep)
  }

  /** One entry as shown: `label + sep + value` when its value is positive, nothing otherwise. */
  function ShownEntry(entry: (string, int), sep: string): (r: seq<string>)
    ensures |r| <= 1 && (|r| == 1 <==> entry.1 > 0)
  {
    if entry.1 > 0 then [entry.0 + sep + IntText(entry.1)] else []
  }

  /** Nothing is shown exactly when no value is positive, and nothing shown is empty. */
  lemma {:induction false} ShownEmptyIff(entries: seq<(string, int)>, sep: string)
    ensures |Shown(entries, sep)| == 0 <==> forall i :: 0 <= i < |entries| ==> entries[i].1 <= 0
    ensures forall k :: 0 <= k < |Shown(entries, sep)| ==> Shown(entries, sep)[k] != ""
    decreases |entries|
  {
    if |entries| > 0 {
      var init := entries[..|entries| - 1];
      ShownEmptyIff(init, sep);
      assert forall i :: 0 <= i < |init| ==> init[i] == entries[i];
    }
  }

  /** One more entry adds what that entry shows, after what was shown before. */
  lemma ShownSnoc(entries: seq<(string, int)>, e: (string, int), sep: string)
    ensures Shown(entries + [e], sep) == Shown(entries, sep) + ShownEntry(e, sep)
  {
    assert (entries + [e])[..|entries|] == entries;
  }

  /** The defence line of a dictionary, when any defence is positive. */
  function DefenceLine(d: Dict): (r: seq<string>)
    ensures |r| <= 1
    ensures |r| == 1 <==> exists i :: 0 <= i < |DEFENCES| && ValueOrZero(d, DEFENCES[i].0) > 0
  {
    var values := Shown(DefenceEntries(d), ": ");
    ShownEmptyIff(DefenceEntries(d), ": ");
    assert (exists i :: 0 <= i < |DEFENCES| && ValueOrZero(d, DEFENCES[i].0) > 0)
      <==> exists i :: 0 <= i < |DEFENCES| && DefenceEntries(d)[i].1 > 0;
    if |values| > 0 then [SHIELD_ICON + JoinWith(values, ", ")] else []
  }

  /**
   * What `FormatDefenceAttributesFromElementalAttrs` returns: the positive
   * defences after a shield, or nothing.
   */
  function DefenceText(attrs: Option<Dict>): (r: string)
    ensures r != "" <==> attrs.Some? && exists i :: 0 <= i < |DEFENCES| && ValueOrZero(attrs.value, DEFENCES[i].0) > 0
    ensures r != "" ==> SHIELD_ICON <= r
  {
    if attrs.None? then "" else
    var line := DefenceLine(attrs.value);
    if |line| == 0 then "" else line[0]
  }

  /** The loop over the defence keys: the positive ones, labelled, in table order. */
  method CollectDefences(d: Dict) returns (values: seq<string>)
    ensures values == Shown(DefenceEntries(d), ": ")
  {
    var entries := DefenceEntries(d);
    values := [];
    for i := 0 to |DEFENCES|
      invariant values == Shown(entries[..i], ": ")
    {
      var (attr, name) := DEFENCES[i];
      var value := Lookup(d, attr);
      ghost var entry := entries[i];
      assert entry == (name, ValueOrZero(d, attr));
      assert entries[..i + 1] == entries[..i] + [entry];
      ShownSnoc(entries[..i], entry, ": ");
      if value.Some? && value.value > 0 {
        values := values + [name + ": " + IntText(value.value)];
      }
    }
    assert entries[..|DEFENCES|] == entries;
  }

  /** `FormatDefenceAttributesFromElementalAttrs`. */
  method FormatDefenceAttributesFromElementalAttrs(attrs: Option<Dict>) returns (text: string)
    ensures text == DefenceText(attrs)
  {
    if attrs.None? {
      return "";
    }
    var values := CollectDefences(attrs.value);
    if |values| > 0 {
      text := SHIELD_ICON + JoinWith(values, ", ");
    } else {
      text := "";
    }
  }

  /**
   * What `FormatElementalAttrs` returns: nothing for a missing or empty
   * dictionary, otherwise the attack line and the defence line, each when
   * present, joined by " | ".
   */
  function ElementalText(attrs: Option<Dict>): (r: string)
    ensures r != "" ==> Any<(string, int32)>(attrs)
  {
    if !Any<(string, int32)>(attrs) then "" else
    JoinWith(AttackLine(VIEW_KEYS, attrs.value) + DefenceLine(attrs.value), " | ")
  }

  /** `FormatElementalAttrs`. */
  method FormatElementalAttrs(attrs: Option<Dict>) returns (text: string)
    ensures text == ElementalText(attrs)
  {
    if !Any<(string, int32)>(attrs) {
      return "";
    }
    var d := attrs.value;
    var result: seq<string> := [];
    var attackType, attackPower := Lookup(d, VIEW_KEYS.typeKey), Lookup(d, VIEW_KEYS.powerKey);
    if attackType.Some? && attackPower.Some? && attackPower.value > 0 {
      result := result + [ATTACK_ICON + GetElementName(attackType.value) + ": " + IntText(attackPower.value)];
    }
    var defenceValues := CollectDefences(d);
    if |defenceValues| > 0 {
      result := result + [SHIELD_ICON + JoinWith(defenceValues, ", ")];
    }
    text := JoinWith(result, " | ");
  }

  /** The elemental column is the attack column and the defence column, the empty ones left out, joined by " | ". */
  lemma ElementalJoinsColumns(attrs: Option<Dict>)
    ensures ElementalText(attrs) == JoinWith(NonEmpty([FormatAttackAttributeFromElementalAttrs(attrs), DefenceText(attrs)]), " | ")
  {
    var a, t := FormatAttackAttributeFromElementalAttrs(attrs), DefenceText(attrs);
    if Any<(string, int32)>(attrs) {
      var d := attrs.value;
      assert AttackLine(VIEW_KEYS, d) == NonEmpty([a]);
      assert DefenceLine(d) == NonEmpty([t]);
      NonEmptyAppend([a], [t]);
      assert [a] + [t] == [a, t];
    } else if attrs.Some? {
      assert |attrs.value| == 0;
    }
  }

  // ---------------------------------------------------------------------
  // Soul crystals, augmentation and enchant effects.

  /** The decimal texts of numbers, for `string.Join`. */
  function Numbers(xs: seq<int>): (r: seq<string>)
    ensures |r| == |xs| && forall i :: 0 <= i < |xs| ==> r[i] == IntText(xs[i])
  {
    seq(|xs|, i requires 0 <= i < |xs| => IntText(xs[i]))
  }

  /** `FormatSoulCrystalInfo`: the regular options and the special options, each when present, joined by " | ". */
  function FormatSoulCrystalInfo(options: Option<seq<int32>>, specialOptions: Option<seq<int32>>): (r: string)
    ensures r == "" <==> !Any(options) && !Any(specialOptions)
  {
    var info := (if Any(options) then ["Обычные: " + JoinWith(Numbers(options.value), ",")] else [])
      + (if Any(specialOptions) then ["Спец: " + JoinWith(Numbers(specialOptions.value), ",")] else []);
    assert |info| > 0 ==> JoinWith(info, " | ") != "" by {
      if |info| > 0 {
        JoinNotEmpty(info, " | ");
      }
    }
    JoinWith(info, " | ")
  }

  /** `FormatWorldExchangeSoulCrystal`: each nonzero option with its slot, separated by spaces. */
  function FormatWorldExchangeSoulCrystal(option1: int32, option2: int32, specialOption: int32): (r: string)
    ensures r == "" <==> option1 == 0 && option2 == 0 && specialOption == 0
  {
    var info := (if option1 != 0 then ["1:" + IntText(option1)] else [])
      + (if option2 != 0 then ["2:" + IntText(option2)] else [])
      + (if specialOption != 0 then ["Спец:" + IntText(specialOption)] else []);
    assert |info| > 0 ==> JoinWith(info, " ") != "" by {
      if |info| > 0 {
        JoinNotEmpty(info, " ");
      }
    }
    JoinWith(info, " ")
  }

  const AUGMENTATION_ICON: string := "💎 "

  /** `FormatAugmentationInfo`: every entry as "key:value" after a gem, in insertion order; nothing when there is none. */
  function FormatAugmentationInfo(augmentation: Option<Dict>): (r: string)
    ensures r == "" <==> !Any<(string, int32)>(augmentation)
    ensures r != "" ==> AUGMENTATION_ICON <= r
  {
    if !Any<(string, int32)>(augmentation) then "" else
    var d := augmentation.value;
    AUGMENTATION_ICON + JoinWith(seq(|d|, i requires 0 <= i < |d| => d[i].0 + ":" + IntText(d[i].1)), ", ")
  }

  const EFFECTS_ICON: string := "⚡ "

  /** `FormatEnchantEffects`: the effects after a lightning sign, comma separated; nothing when there is none. */
  function FormatEnchantEffects(enchantEffects: Option<seq<int>>): (r: string)
    ensures r == "" <==> !Any(enchantEffects)
    ensures r != "" ==> EFFECTS_ICON <= r
  {
    if !Any(enchantEffects) then "" else EFFECTS_ICON + JoinWith(Numbers(enchantEffects.value), ", ")
  }

  // ---------------------------------------------------------------------
  // End time and the helpers no factory calls.

  const NO_END: string := "Бессрочно"

  /** A date as "dd.MM.yyyy HH:mm": sixteen characters. */
  type DateText = s: string | |s| == 16 witness "01.01.1970 00:00"

  /** `FormatEndTime`: "Бессрочно" for 0, otherwise the date of the Unix time `endTime` as `date` writes it. */
  function FormatEndTime(endTime: int32, date: int32 -> DateText): (r: string)
    ensures r == NO_END <==> endTime == 0
    ensures endTime != 0 ==> r == date(endTime)
  {
    if endTime == 0 then NO_END else date(endTime)
  }

  /** `FormatAttackAttribute`: "Атака type: value", or nothing when either is 0. */
  function FormatAttackAttribute(attackType: uint16, value: uint16): (r: string)
    ensures r == "" <==> attackType == 0 || value == 0
  {
    if attackType == 0 || value == 0 then "" else "Атака " + IntText(attackType) + ": " + IntText(value)
  }

  /** `FormatDefenceAttributes`: "Огонь:n" and so on for every positive defence, separated by spaces. */
  function FormatDefenceAttributes(fire: uint16, water: uint16, wind: uint16, earth: uint16, holy: uint16, dark: uint16): (r: string)
    ensures r == "" <==> fire == 0 && water == 0 && wind == 0 && earth == 0 && holy == 0 && dark == 0
  {
    var entries := [("Огонь", fire as int), ("Вода", water as int), ("Ветер", wind as int),
                    ("Земля", earth as int), ("Свет", holy as int), ("Тьма", dark as int)];
    var defences := Shown(entries, ":");
    ShownEmptyIff(entries, ":");
    assert JoinWith(defences, " ") == "" <==> |defences| == 0 by {
      if |defences| > 0 {
        JoinNotEmpty(defences, " ");
      }
    }
    assert (forall i :: 0 <= i < 6 ==> entries[i].1 <= 0)
      <==> fire == 0 && water == 0 && wind == 0 && earth == 0 && holy == 0 && dark == 0 by {
      assert entries[0].1 == fire && entries[1].1 == water && entries[2].1 == wind;
      assert entries[3].1 == earth && entries[4].1 == holy && entries[5].1 == dark;
    }
    JoinWith(defences, " ")
  }

  // ---------------------------------------------------------------------
  // The factories.

  /** `x ?? 0`. */
  function OrZero(x: Option<int32>): int32
  {
    if x.Some? then x.value else 0
  }

  /** The icon `FromPrivateStoreItem` puts before a private store: by store type 0, 1 and 3, a question mark otherwise. */
  function StoreTypeIcon(storeType: byte): string
  {
    if storeType == 0 then "🏪" else if storeType == 1 then "🛒" else if storeType == 3 then "🔄" else "❓"
  }

  /** The market text of a private store: its icon, "Частный магазин" and the decoded store type in parentheses. */
  function PrivateMarketType(storeType: byte): string
  {
    StoreTypeIcon(storeType) + " " + PRIVATE_STORE + " (" + StoreDecoders.DecodeStoreType(storeType) + ")"
  }

  const PURCHASE_NOTE: string := " | ПОКУПКА"

  /**
   * `FromPrivateStoreItem` at `now`: the listing's own fields, its texts as
   * the store decoders print them, and the vendor's coordinates.
   */
  function FromPrivateStoreItem(item: PrivateStorePacket.PrivateStoreItem, now: Ticks): (v: ItemView)
    ensures v.lastSeen == now && v.marketType == PrivateMarketType(item.storeType)
  {
    var info := item.itemInfo;
    var additionalInfo := StoreDecoders.DecodeItemType2(info.itemType2) + " | "
      + BodyParts.DecodeF(StoreDecoders.SLOTS, info.bodyPart)
      + (if item.storeType == 1 then PURCHASE_NOTE else "")
      + " | VisualID: " + IntText(OrZero(info.visualId));
    ItemView(
      itemName := "Item " + IntText(info.itemId),
      price := item.price,
      sellerName := item.vendorName,
      marketType := PrivateMarketType(item.storeType),
      enchantLevel := info.enchantLevel,
      hasAugmentation := Any<(string, int32)>(info.augmentation),
      hasSoulCrystal := Any(info.soulCrystalOptions),
      isBlessed := info.blessed == Some(true),
      lastSeen := now,
      itemId := IntText(info.itemId),
      additionalInfo := additionalInfo,
      count := info.count,
      itemType2 := info.itemType2,
      bodyPart := info.bodyPart,
      mana := info.mana,
      time := info.time,
      available := info.available,
      visualId := OrZero(info.visualId),
      coordinates := "X:" + IntText(item.vendorX) + " Y:" + IntText(item.vendorY) + " Z:" + IntText(item.vendorZ),
      soulCrystalInfo := FormatSoulCrystalInfo(info.soulCrystalOptions, info.soulCrystalSpecialOptions),
      objectId := info.objectId,
      location := info.location,
      customType1 := info.customType1,
      equipped := info.equipped,
      augmentationInfo := FormatAugmentationInfo(info.augmentation),
      elementalAttrs := ElementalText(info.elementalAttrs),
      enchantEffects := FormatEnchantEffects(info.enchantEffects),
      reuseDelay := if info.reuseDelay.Some? then info.reuseDelay.value else 0,
      vendorObjectId := item.vendorObjectId,
      attackAttribute := FormatAttackAttributeFromElementalAttrs(info.elementalAttrs),
      defenceAttributes := DefenceText(info.elementalAttrs))
  }

  /**
   * `x > (ulong)long.MaxValue ? long.MaxValue : (long)x` on a 64-bit signed
   * value: the guard never holds, so the value passes unchanged.
   */
  function Saturate(x: int64): (r: int64)
    ensures r == x
  {
    if x > LONG_MAX then LONG_MAX else x
  }

  const LONG_MAX: int64 := 0x7FFF_FFFF_FFFF_FFFF

  /** The item name of a commission row: the id, then "+n" for a positive enchant, " (Blessed)" and " (Augmented)". */
  function CommissionItemName(info: ItemInfo): (r: string)
  {
    "Item " + IntText(info.itemId)
    + (if info.enchantLevel > 0 then "+" + IntText(info.enchantLevel) else "")
    + (if info.blessed == Some(true) then " (Blessed)" else "")
    + (if Any<(string, int32)>(info.augmentation) then " (Augmented)" else "")
  }

  const UNKNOWN_SELLER: string := "Неизвестно"

  /**
   * `FromCommissionItem` at `now`, with `date` writing end times: the
   * seller defaults to "Неизвестно", and the commission's id, type and
   * duration are shown.
   */
  function FromCommissionItem(item: CommissionPacket.CommissionItem, now: Ticks, date: int32 -> DateText): (v: ItemView)
    ensures v.lastSeen == now && v.marketType == COMMISSION
  {
    var info := item.itemInfo;
    var sellerName := if item.sellerName.Some? then item.sellerName.value else OfBmp(UNKNOWN_SELLER);
    ItemView(
      itemName := CommissionItemName(info),
      price := Saturate(item.pricePerUnit),
      sellerName := sellerName,
      marketType := COMMISSION,
      enchantLevel := info.enchantLevel,
      hasAugmentation := Any<(string, int32)>(info.augmentation),
      hasSoulCrystal := Any(info.soulCrystalOptions),
      isBlessed := info.blessed == Some(true),
      lastSeen := now,
      itemId := IntText(info.itemId),
      additionalInfo := "ID комиссии: " + IntText(item.commissionId)
        + " | Тип: " + DecodeCommissionType(item.commissionItemType)
        + " | Длительность: " + DecodeDurationType(item.durationType)
        + " | VisualID: " + IntText(OrZero(info.visualId)),
      count := Saturate(info.count),
      itemType2 := info.itemType2,
      bodyPart := Saturate(info.bodyPart),
      mana := info.mana,
      time := info.time,
      available := info.available,
      visualId := OrZero(info.visualId),
      endTime := FormatEndTime(item.endTime, date),
      coordinates := COMMISSION,
      soulCrystalInfo := FormatSoulCrystalInfo(info.soulCrystalOptions, info.soulCrystalSpecialOptions),
      objectId := info.objectId,
      location := info.location,
      customType1 := info.customType1,
      equipped := info.equipped,
      augmentationInfo := FormatAugmentationInfo(info.augmentation),
      elementalAttrs := ElementalText(info.elementalAttrs),
      enchantEffects := FormatEnchantEffects(info.enchantEffects),
      reuseDelay := if info.reuseDelay.Some? then info.reuseDelay.value else 0,
      commissionId := IntText(item.commissionId),
      commissionType := DecodeCommissionType(item.commissionItemType),
      durationType := DecodeDurationType(item.durationType),
      attackAttribute := FormatAttackAttributeFromElementalAttrs(info.elementalAttrs),
      defenceAttributes := DefenceText(info.elementalAttrs))
  }

  /** The dictionary `FromWorldExchangeItem` builds from the listing's attack and six defences. */
  function WorldExchangeAttrs(item: WorldExchangePacket.WorldExchangeItem): Dict
  {
    [(VIEW_KEYS.typeKey, item.attackAttributeType as int32), (VIEW_KEYS.powerKey, item.attackAttributeValue as int32),
     (DEFENCES[0].0, item.defenceFire as int32), (DEFENCES[1].0, item.defenceWater as int32),
     (DEFENCES[2].0, item.defenceWind as int32), (DEFENCES[3].0, item.defenceEarth as int32),
     (DEFENCES[4].0, item.defenceHoly as int32), (DEFENCES[5].0, item.defenceDark as int32)]
  }

  /** Both augmentation options, only when either is nonzero. */
  function WorldExchangeAugmentation(item: WorldExchangePacket.WorldExchangeItem): Dict
  {
    if item.augmentationOption1 != 0 || item.augmentationOption2 != 0
    then [("option1", item.augmentationOption1), ("option2", item.augmentationOption2)]
    else []
  }

  /** The enchant level as the one effect, when it is positive. */
  function WorldExchangeEffects(item: WorldExchangePacket.WorldExchangeItem): seq<int>
  {
    if item.enchantLevel > 0 then [item.enchantLevel as int] else []
  }

  const WORLD_EXCHANGE_MARKET: string := "🌍 " + WORLD_EXCHANGE

  /**
   * `FromWorldExchangeItem` at `now`, with `date` writing end times: price
   * and count are the unsigned values read as signed, and the columns come
   * from the dictionaries built above.
   */
  function FromWorldExchangeItem(item: WorldExchangePacket.WorldExchangeItem, now: Ticks, date: int32 -> DateText): (v: ItemView)
    ensures v.lastSeen == now && v.marketType == WORLD_EXCHANGE_MARKET
  {
    var attrs := WorldExchangeAttrs(item);
    ItemView(
      itemName := "Item " + IntText(item.itemId),
      price := Int64Of(item.price),
      sellerName := OfBmp(WORLD_EXCHANGE),
      marketType := WORLD_EXCHANGE_MARKET,
      enchantLevel := item.enchantLevel,
      hasAugmentation := item.augmentationOption1 != 0 || item.augmentationOption2 != 0,
      hasSoulCrystal := item.soulCrystalOption1 != 0 || item.soulCrystalOption2 != 0,
      isBlessed := item.isBlessed != 0,
      lastSeen := now,
      itemId := IntText(item.itemId),
      additionalInfo := "ID обмена: " + IntText(item.worldExchangeId) + " | VisualID: " + IntText(item.visualId),
      count := Int64Of(item.count),
      visualId := item.visualId,
      endTime := FormatEndTime(item.endTime, date),
      coordinates := WORLD_EXCHANGE,
      soulCrystalInfo := FormatWorldExchangeSoulCrystal(item.soulCrystalOption1, item.soulCrystalOption2, item.soulCrystalSpecialOption),
      objectId := 0,
      worldExchangeId := IntText(item.worldExchangeId),
      unknownField := item.unknownField,
      elementalAttrs := ElementalText(Some(attrs)),
      augmentationInfo := FormatAugmentationInfo(Some(WorldExchangeAugmentation(item))),
      enchantEffects := FormatEnchantEffects(Some(WorldExchangeEffects(item))),
      attackAttribute := FormatAttackAttributeFromElementalAttrs(Some(attrs)),
      defenceAttributes := DefenceText(Some(attrs)))
  }

  // ---------------------------------------------------------------------
  // What the rows promise.

  /** A private-store row: its flags agree with its texts, and it has no end time, commission or exchange id. */
  lemma PrivateStoreRow(item: PrivateStorePacket.PrivateStoreItem, now: Ticks)
    ensures var v := FromPrivateStoreItem(item, now);
      && v.price == item.price && v.sellerName == item.vendorName && v.itemId == IntText(item.itemInfo.itemId)
      && (v.hasAugmentation <==> v.augmentationInfo != "")
      && (v.hasSoulCrystal ==> v.soulCrystalInfo != "")
      && v.endTime == "" && v.commissionId == "" && v.worldExchangeId == ""
  {
  }

  /**
   * A commission row: price, count and body part pass unchanged, the seller
   * is the listing's or "Неизвестно", the end time is "Бессрочно" exactly
   * for 0, and the flags agree with the texts.
   */
  lemma CommissionRow(item: CommissionPacket.CommissionItem, now: Ticks, date: int32 -> DateText)
    ensures var v := FromCommissionItem(item, now, date);
      && v.price == item.pricePerUnit && v.count == item.itemInfo.count && v.bodyPart == item.itemInfo.bodyPart
      && (item.sellerName.Some? ==> v.sellerName == item.sellerName.value)
      && (item.sellerName.None? ==> Scalars(v.sellerName) == seq(|UNKNOWN_SELLER|, i requires 0 <= i < |UNKNOWN_SELLER| => UNKNOWN_SELLER[i] as int))
      && (v.endTime == NO_END <==> item.endTime == 0)
  {
  }

  lemma CommissionFlags(item: CommissionPacket.CommissionItem, now: Ticks, date: int32 -> DateText)
    ensures var v := FromCommissionItem(item, now, date);
      && (v.hasAugmentation <==> v.augmentationInfo != "")
      && (v.hasSoulCrystal ==> v.soulCrystalInfo != "")
      && v.worldExchangeId == "" && v.coordinates == COMMISSION
  {
  }

  /**
   * A world-exchange row: price and count turn negative exactly when the
   * unsigned value is above the largest signed one, the end time is
   * "Бессрочно" exactly for 0, and the enchant effect is shown exactly for
   * a positive level.
   */
  lemma WorldExchangeRow(item: WorldExchangePacket.WorldExchangeItem, now: Ticks, date: int32 -> DateText)
    ensures var v := FromWorldExchangeItem(item, now, date);
      && (v.price < 0 <==> item.price > INT64_MAX)
      && (v.count < 0 <==> item.count > INT64_MAX)
      && (v.endTime == NO_END <==> item.endTime == 0)
      && (v.enchantEffects != "" <==> item.enchantLevel > 0)
      && v.objectId == 0
  {
  }

  lemma WorldExchangeFlags(item: WorldExchangePacket.WorldExchangeItem, now: Ticks, date: int32 -> DateText)
    ensures var v := FromWorldExchangeItem(item, now, date);
      && (v.hasAugmentation <==> v.augmentationInfo != "")
      && (v.hasSoulCrystal ==> v.soulCrystalInfo != "")
  {
  }

  // ---------------------------------------------------------------------
  // Colour, icon and lifetime of each market.

  /** Around a name, the private-store text can hold a word starting with 'П' only in the name and its closing parenthesis. */
  lemma StoreTextSearch(icon: string, name: string, sub: string)
    requires 'П' !in icon && |sub| > 0 && sub[0] == 'П'
    ensures Contains(icon + " " + PRIVATE_STORE + " (" + name + ")", PRIVATE_STORE)
    ensures Contains(icon + " " + PRIVATE_STORE + " (" + name + ")", sub) <==> Contains(name + ")", sub)
  {
    var head := icon + " " + PRIVATE_STORE + " (";
    var tail := name + ")";
    assert icon + " " + PRIVATE_STORE + " (" + name + ")" == head + tail;
    assert (head + tail)[|icon| + 1..|icon| + 1 + |PRIVATE_STORE|] == PRIVATE_STORE;
    assert OccursAt(head + tail, PRIVATE_STORE, |icon| + 1);
    assert 'П' !in head;
    ContainsAfter(head, tail, sub);
  }

  /** The market text of a private store holds "Частный магазин", and a word starting with 'П' only in the decoded store type. */
  lemma PrivateMarketTypeSearch(storeType: byte, sub: string)
    requires |sub| > 0 && sub[0] == 'П'
    ensures Contains(PrivateMarketType(storeType), PRIVATE_STORE)
    ensures Contains(PrivateMarketType(storeType), sub) <==> Contains(StoreDecoders.DecodeStoreType(storeType) + ")", sub)
  {
    assert 'П' !in StoreTypeIcon(storeType);
    StoreTextSearch(StoreTypeIcon(storeType), StoreDecoders.DecodeStoreType(storeType), sub);
  }

  /** The decoded names of store types 0 to 2. */
  lemma StoreTypeNames(storeType: byte)
    requires storeType <= 2
    ensures StoreDecoders.DecodeStoreType(storeType) == StoreDecoders.STORE_TYPES[storeType].name
  {
    StoreDecoders.StoreTypeTable();
    DecodeAt(StoreDecoders.STORE_TYPES, UNKNOWN, storeType, storeType);
  }

  /** The decoded text of any other store type holds no 'П'. */
  lemma UnknownStoreTypeText(storeType: byte)
    requires storeType > 2
    ensures 'П' !in StoreDecoders.DecodeStoreType(storeType) + ")"
  {
    StoreDecoders.StoreTypeIdentifies(storeType, storeType);
    IntTextPlain(storeType);
    assert StoreDecoders.DecodeStoreType(storeType) + ")" == UNKNOWN + IntText(storeType) + "))";
  }

  /** Which of the three store words the market text of a store type 0 to 2 holds. */
  lemma KnownStoreSearch(storeType: byte, sub: string)
    requires storeType <= 2 && |sub| > 0 && sub[0] == 'П'
    ensures Contains(PrivateMarketType(storeType), sub) <==> sub <= StoreDecoders.STORE_TYPES[storeType].name + ")"
  {
    PrivateMarketTypeSearch(storeType, sub);
    StoreTypeNames(storeType);
    KnownNameTail(storeType);
    ContainsOnlyAtStart(StoreDecoders.STORE_TYPES[storeType].name + ")", sub);
  }

  /** The decoded names of store types 0 to 2 have their only 'П' at the start. */
  lemma KnownNameTail(storeType: byte)
    requires storeType <= 2
    ensures 'П' !in (StoreDecoders.STORE_TYPES[storeType].name + ")")[1..]
  {
    var name := if storeType == 0 then SALE else if storeType == 1 then PURCHASE else PACKAGE_SALE;
    assert StoreDecoders.STORE_TYPES[storeType].name == name;
    assert forall i | 1 <= i < |name| :: name[i] != 'П';
  }

  /** A word whose `k`-th letter differs from a known store type's name is not found in its market text. */
  lemma KnownStoreMiss(storeType: byte, sub: string, k: nat)
    requires storeType <= 2 && |sub| > 0 && sub[0] == 'П' && k < |sub|
    requires k < |StoreDecoders.STORE_TYPES[storeType].name| && StoreDecoders.STORE_TYPES[storeType].name[k] != sub[k]
    ensures !Contains(PrivateMarketType(storeType), sub)
  {
    KnownStoreSearch(storeType, sub);
    var t := StoreDecoders.STORE_TYPES[storeType].name + ")";
    assert t[k] == StoreDecoders.STORE_TYPES[storeType].name[k];
    Mismatch(sub, t, k);
  }

  /** A known store type's own name is found in its market text. */
  lemma KnownStoreHit(storeType: byte, sub: string)
    requires storeType <= 2 && |sub| > 0 && sub[0] == 'П'
    requires sub == StoreDecoders.STORE_TYPES[storeType].name
    ensures Contains(PrivateMarketType(storeType), sub)
  {
    KnownStoreSearch(storeType, sub);
    assert sub <= sub + ")";
  }

  /** The name of known store type `w` is found in the market text of a known store type exactly when the types agree. */
  lemma KnownStoreWord(storeType: byte, w: byte, sub: string)
    requires storeType <= 2 && w <= 2 && sub == StoreDecoders.STORE_TYPES[w].name
    ensures Contains(PrivateMarketType(storeType), sub) <==> storeType == w
  {
    if storeType == w {
      KnownStoreHit(storeType, sub);
    } else {
      KnownStoreMiss(storeType, sub, 1);
    }
  }

  lemma OtherStoreWords(storeType: byte)
    requires storeType > 2
    ensures !Contains(PrivateMarketType(storeType), SALE) && !Contains(PrivateMarketType(storeType), PURCHASE)
    ensures !Contains(PrivateMarketType(storeType), PACKAGE_SALE)
  {
    var tail := StoreDecoders.DecodeStoreType(storeType) + ")";
    UnknownStoreTypeText(storeType);
    PrivateMarketTypeSearch(storeType, SALE);
    PrivateMarketTypeSearch(storeType, PURCHASE);
    PrivateMarketTypeSearch(storeType, PACKAGE_SALE);
    MissingFirst(tail, SALE);
    MissingFirst(tail, PURCHASE);
    MissingFirst(tail, PACKAGE_SALE);
  }

  /** The market text of a store type finds the sale, purchase and package words exactly for types 0, 1 and 2. */
  lemma StoreWords(storeType: byte)
    ensures Contains(PrivateMarketType(storeType), PRIVATE_STORE)
    ensures Contains(PrivateMarketType(storeType), SALE) <==> storeType == 0
    ensures Contains(PrivateMarketType(storeType), PURCHASE) <==> storeType == 1
    ensures Contains(PrivateMarketType(storeType), PACKAGE_SALE) <==> storeType == 2
  {
    PrivateMarketTypeSearch(storeType, SALE);
    if storeType <= 2 {
      KnownStoreWord(storeType, 0, SALE);
      KnownStoreWord(storeType, 1, PURCHASE);
      KnownStoreWord(storeType, 2, PACKAGE_SALE);
    } else {
      OtherStoreWords(storeType);
    }
  }

  /**
   * A private-store row lives five minutes and is coloured by its store
   * type: green with a purse for a sale, red with a cart for a purchase,
   * orange with a parcel for a package sale, blue with a shop otherwise.
   */
  lemma PrivateStoreBadges(item: PrivateStorePacket.PrivateStoreItem, now: Ticks)
    ensures var v := FromPrivateStoreItem(item, now);
      && Lifetime(v.marketType) == 5 * TICKS_PER_MINUTE
      && (item.storeType == 0 ==> MarketTypeColor(v.marketType) == SALE_COLOR && MarketTypeIcon(v.marketType) == SALE_ICON)
      && (item.storeType == 1 ==> MarketTypeColor(v.marketType) == PURCHASE_COLOR && MarketTypeIcon(v.marketType) == PURCHASE_ICON)
      && (item.storeType == 2 ==> MarketTypeColor(v.marketType) == PACKAGE_COLOR && MarketTypeIcon(v.marketType) == PACKAGE_ICON)
      && (item.storeType > 2 ==> MarketTypeColor(v.marketType) == STORE_COLOR && MarketTypeIcon(v.marketType) == STORE_ICON)
  {
    StoreWords(item.storeType);
  }

  /** A commission row lives ten minutes and shows the commission colour and icon. */
  lemma CommissionBadges(item: CommissionPacket.CommissionItem, now: Ticks, date: int32 -> DateText)
    ensures var v := FromCommissionItem(item, now, date);
      && Lifetime(v.marketType) == 10 * TICKS_PER_MINUTE
      && MarketTypeColor(v.marketType) == COMMISSION_COLOR && MarketTypeIcon(v.marketType) == COMMISSION_ICON
  {
    MissingFirst(COMMISSION, PRIVATE_STORE);
    assert OccursAt(COMMISSION, COMMISSION, 0);
  }

  /**
   * As written, a world-exchange row lives fifteen minutes, so `GetItemLifetime`
   * recognises it, but the switch of `MarketTypeColor` and `MarketTypeIcon`
   * compares the whole text "🌍 Мировой обмен" with "Мировой обмен" and
   * gives it the grey colour and the question mark of an unknown market.
   */
  lemma WorldExchangeBadges(item: WorldExchangePacket.WorldExchangeItem, now: Ticks, date: int32 -> DateText)
    ensures var v := FromWorldExchangeItem(item, now, date);
      && Lifetime(v.marketType) == 15 * TICKS_PER_MINUTE
      && MarketTypeColor(v.marketType) == OTHER_COLOR && MarketTypeIcon(v.marketType) == OTHER_ICON
  {
    WorldExchangeMarketSearch();
  }

  lemma WorldExchangeMarketSearch()
    ensures !Contains(WORLD_EXCHANGE_MARKET, PRIVATE_STORE) && !Contains(WORLD_EXCHANGE_MARKET, COMMISSION)
    ensures Contains(WORLD_EXCHANGE_MARKET, WORLD_EXCHANGE)
    ensures WORLD_EXCHANGE_MARKET != COMMISSION && WORLD_EXCHANGE_MARKET != WORLD_EXCHANGE
  {
    MissingFirst(WORLD_EXCHANGE_MARKET, PRIVATE_STORE);
    MissingFirst(WORLD_EXCHANGE_MARKET, COMMISSION);
    assert WORLD_EXCHANGE_MARKET[2..] == WORLD_EXCHANGE;
    assert OccursAt(WORLD_EXCHANGE_MARKET, WORLD_EXCHANGE, 2);
    assert |WORLD_EXCHANGE_MARKET| != |WORLD_EXCHANGE|;
  }

  /** With the intended colour and icon, the world-exchange row gets the purple colour and the globe. */
  lemma WorldExchangeIntendedBadges(item: WorldExchangePacket.WorldExchangeItem, now: Ticks, date: int32 -> DateText)
    ensures var v := FromWorldExchangeItem(item, now, date);
      && IntendedMarketTypeColor(v.marketType) == WORLD_EXCHANGE_COLOR
      && IntendedMarketTypeIcon(v.marketType) == WORLD_EXCHANGE_ICON
  {
    WorldExchangeMarketSearch();
  }

  // ---------------------------------------------------------------------
  // The attack of a private-store row.

  /**
   * As written, the private-store decoder stores the attack under
   * "attackType" and "attackPower" while the view reads "attack_type" and
   * "attack_power": every private-store row shows no attack and no
   * elemental text, whatever the attack power on the wire.
   */
  lemma PrivateStoreAttackHidden(w: PrivateStorePacket.StoreWire, now: Ticks)
    ensures var v := FromPrivateStoreItem(PrivateStorePacket.DecodedItem(w), now);
      v.attackAttribute == "" && v.elementalAttrs == "" && v.defenceAttributes == ""
  {
    var attrs := PrivateStorePacket.DecodedItem(w).itemInfo.elementalAttrs;
    if attrs.Some? {
      var d := attrs.value;
      assert d == [(PrivateStorePacket.STORE_KEYS.typeKey, w.item.attackType as int32),
                   (PrivateStorePacket.STORE_KEYS.powerKey, w.item.attackPower as int32)];
      assert Lookup(d, VIEW_KEYS.typeKey).None? && Lookup(d, VIEW_KEYS.powerKey).None?;
      forall i | 0 <= i < |DEFENCES| ensures ValueOrZero(d, DEFENCES[i].0) == 0 {
        assert Lookup(d, DEFENCES[i].0).None?;
      }
      DefenceEntriesZero(d);
    }
  }

  lemma DefenceEntriesZero(d: Dict)
    requires forall i :: 0 <= i < |DEFENCES| ==> ValueOrZero(d, DEFENCES[i].0) == 0
    ensures DefenceLine(d) == []
  {
  }

  /**
   * Read under the keys the private-store decoder writes, the attack of a
   * decoded row is shown exactly when the wire carries the elemental section
   * with a positive power, as the element name and the power.
   */
  function IntendedStoreAttack(item: PrivateStorePacket.PrivateStoreItem): (r: string)
  {
    var attrs := item.itemInfo.elementalAttrs;
    if attrs.None? then "" else
    var line := AttackLine(PrivateStorePacket.STORE_KEYS, attrs.value);
    if |line| == 0 then "" else line[0]
  }

  lemma IntendedStoreAttackShown(w: PrivateStorePacket.StoreWire)
    ensures var r := IntendedStoreAttack(PrivateStorePacket.DecodedItem(w));
      && (r != "" <==> HasFlag(w.item.mask, ELEMENTAL_ATTRIBUTE) && w.item.attackPower > 0)
      && (r != "" ==> r == ATTACK_ICON + GetElementName(w.item.attackType) + ": " + IntText(w.item.attackPower))
  {
    var attrs := PrivateStorePacket.DecodedItem(w).itemInfo.elementalAttrs;
    if attrs.Some? {
      var d := attrs.value;
      assert d == [(PrivateStorePacket.STORE_KEYS.typeKey, w.item.attackType as int32),
                   (PrivateStorePacket.STORE_KEYS.powerKey, w.item.attackPower as int32)];
      assert Lookup(d, PrivateStorePacket.STORE_KEYS.typeKey) == Some(w.item.attackType as int32);
      assert Lookup(d, PrivateStorePacket.STORE_KEYS.powerKey) == Some(w.item.attackPower as int32);
    }
  }
}
