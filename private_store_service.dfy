/**
 * `PrivateStoreService`: the table of private-store offers seen on search
 * pages, keyed by "vendor_object_item", with an index from item id to the
 * keys that hold that item and the time each key was last seen.
 *
 * A page's offers are grouped by store type. Bulk-sale offers (store type 1)
 * replace, vendor by vendor, that vendor's earlier bulk-sale offers; every
 * other group replaces everything its vendors had. A cleanup drops offers
 * not seen for more than five minutes. Every update keeps the index exact.
 */
module PrivateStoreService {
  import opened Bytes
  import opened Wrappers
  import opened Utf16
  import opened Text
  import opened ItemInfos
  import opened PrivateStorePacket
  import opened MarketCommon

  const ITEM_LIFETIME: Ticks := 5 * TICKS_PER_MINUTE

  /** Store type 1, a bulk sale: the only group that takes the bulk path. */
  const BULK_SALE: int := 1

  const STORE_TYPE_SELL: int := 0
  const STORE_TYPE_BUY: int := 1

  // ---------------------------------------------------------------------
  // Keys.

  /** `GenerateItemKey`: vendor, object and item id in decimal, joined by '_'. */
  function ItemKey(item: PrivateStoreItem): string
  {
    IntText(item.vendorObjectId) + "_" + IntText(item.itemInfo.objectId) + "_" + IntText(item.itemInfo.itemId)
  }

  /** `GetVendorObjectIdFromKey`: the text before the first '_' as an int32, or -1. */
  function VendorOfKey(key: string): int32
  {
    match ParseInt32(SplitOn(key, '_')[0])
    case Some(v) => v
    case None => -1
  }

  lemma NoUnderscore(n: int)
    ensures '_' !in IntText(n)
  {
    IntTextPlain(n);
  }

  /** A key splits on '_' into exactly its three numbers. */
  lemma KeyParts(item: PrivateStoreItem)
    ensures SplitOn(ItemKey(item), '_') ==
      [IntText(item.vendorObjectId), IntText(item.itemInfo.objectId), IntText(item.itemInfo.itemId)]
  {
    var parts := [IntText(item.vendorObjectId), IntText(item.itemInfo.objectId), IntText(item.itemInfo.itemId)];
    NoUnderscore(item.vendorObjectId);
    NoUnderscore(item.itemInfo.objectId);
    NoUnderscore(item.itemInfo.itemId);
    assert JoinWith(parts[2..], "_") == parts[2];
    assert JoinWith(parts[1..], "_") == parts[1] + "_" + parts[2];
    assert JoinWith(parts, "_") == ItemKey(item);
    SplitOfJoin(parts, '_');
  }

  /** The vendor id is read back from any generated key. */
  lemma VendorOfItemKey(item: PrivateStoreItem)
    ensures VendorOfKey(ItemKey(item)) == item.vendorObjectId
  {
    KeyParts(item);
    IntRoundTrip(item.vendorObjectId);
  }

  /** Two offers share a key exactly when they share vendor, object and item id. */
  lemma KeyInjective(a: PrivateStoreItem, b: PrivateStoreItem)
    ensures ItemKey(a) == ItemKey(b) <==>
      a.vendorObjectId == b.vendorObjectId && a.itemInfo.objectId == b.itemInfo.objectId && a.itemInfo.itemId == b.itemInfo.itemId
  {
    if ItemKey(a) == ItemKey(b) {
      KeyParts(a);
      KeyParts(b);
      IntRoundTrip(a.vendorObjectId);
      IntRoundTrip(b.vendorObjectId);
      IntRoundTrip(a.itemInfo.objectId);
      IntRoundTrip(b.itemInfo.objectId);
      IntRoundTrip(a.itemInfo.itemId);
      IntRoundTrip(b.itemInfo.itemId);
    }
  }

  // ---------------------------------------------------------------------
  // The tables and their invariant.

  /** Every stored offer sits under the key it generates. */
  predicate KeysGenerated(items: map<string, PrivateStoreItem>)
  {
    forall k :: k in items ==> ItemKey(items[k]) == k
  }

  /**
   * The item-id index holds, for each item id in the table, exactly the keys
   * of its offers, and no empty set.
   */
  predicate IndexExact(items: map<string, PrivateStoreItem>, index: map<int32, set<string>>)
  {
    (forall id :: id in index ==> index[id] != {})
    && (forall id, k :: id in index && k in index[id] ==> k in items && items[k].itemInfo.itemId == id)
    && (forall k :: k in items ==> items[k].itemInfo.itemId in index && k in index[items[k].itemInfo.itemId])
  }

  /** Removing a stored offer and its key from the index keeps the index exact. */
  lemma RemoveKeepsIndex(items: map<string, PrivateStoreItem>, index: map<int32, set<string>>, key: string)
    requires IndexExact(items, index) && key in items
    ensures IndexExact(items - {key}, IndexWithout(index, items[key].itemInfo.itemId, key))
  {
  }

  /** Storing an offer under its key and indexing the key keeps the index exact. */
  lemma StoreKeepsIndex(items: map<string, PrivateStoreItem>, index: map<int32, set<string>>, item: PrivateStoreItem)
    requires IndexExact(items, index) && KeysGenerated(items)
    ensures IndexExact(items[ItemKey(item) := item], IndexWith(index, item.itemInfo.itemId, ItemKey(item)))
  {
    var key := ItemKey(item);
    if key in items {
      KeyInjective(item, items[key]);
    }
  }

  // ---------------------------------------------------------------------
  // What the updates do, on values.

  function BatchKeys(batch: seq<PrivateStoreItem>): set<string>
  {
    set i | i in batch :: ItemKey(i)
  }

  function BatchVendors(batch: seq<PrivateStoreItem>): set<int32>
  {
    set i | i in batch :: i.vendorObjectId
  }

  /** The batch as a table; a later offer under the same key wins. */
  function Batch(batch: seq<PrivateStoreItem>): (r: map<string, PrivateStoreItem>)
    ensures r.Keys == BatchKeys(batch)
    ensures KeysGenerated(r)
    ensures forall k :: k in r ==> r[k] in batch
    decreases |batch|
  {
    if |batch| == 0 then map[]
    else
      var init := batch[..|batch| - 1];
      var last := batch[|batch| - 1];
      assert batch == init + [last];
      Batch(init)[ItemKey(last) := last]
  }

  /** `ToDictionary(GenerateItemKey)` succeeds: no two offers of the batch share a key. */
  predicate DistinctKeys(batch: seq<PrivateStoreItem>)
  {
    forall i, j :: 0 <= i < j < |batch| ==> ItemKey(batch[i]) != ItemKey(batch[j])
  }

  /** The last-seen table after the batch's keys are stamped with `now`, in order. */
  function Stamped(seen: map<string, Ticks>, batch: seq<PrivateStoreItem>, now: Ticks): (r: map<string, Ticks>)
    ensures r.Keys == seen.Keys + BatchKeys(batch)
    ensures forall k :: k in r ==> r[k] == if k in BatchKeys(batch) then now else seen[k]
    decreases |batch|
  {
    if |batch| == 0 then seen
    else
      var init := batch[..|batch| - 1];
      var last := batch[|batch| - 1];
      assert batch == init + [last];
      Stamped(seen, init, now)[ItemKey(last) := now]
  }

  /** One more offer of the batch: its key gets the offer and the time. */
  lemma BatchStep(batch: seq<PrivateStoreItem>, i: nat, seen: map<string, Ticks>, now: Ticks)
    requires i < |batch|
    ensures Batch(batch[..i + 1]) == Batch(batch[..i])[ItemKey(batch[i]) := batch[i]]
    ensures Stamped(seen, batch[..i + 1], now) == Stamped(seen, batch[..i], now)[ItemKey(batch[i]) := now]
  {
    assert batch[..i + 1][..i] == batch[..i];
  }

  /** A regular update: every vendor of the batch keeps exactly its batch offers. */
  function RegularUpdate(items: map<string, PrivateStoreItem>, batch: seq<PrivateStoreItem>): map<string, PrivateStoreItem>
  {
    (map k | k in items && VendorOfKey(k) !in BatchVendors(batch) :: items[k]) + Batch(batch)
  }

  /** A regular update is: remove the vendors' keys that the batch does not list, then store the batch. */
  lemma RegularUpdateSteps(items: map<string, PrivateStoreItem>, batch: seq<PrivateStoreItem>)
    ensures var vendors := set i | i in batch :: i.vendorObjectId;
      var existing := set k | k in items && VendorOfKey(k) in vendors;
      (items - (existing - BatchKeys(batch))) + Batch(batch) == RegularUpdate(items, batch)
  {
  }

  /** A vendor's earlier bulk-sale keys. */
  function BulkKeysOf(items: map<string, PrivateStoreItem>, vendor: int32): set<string>
  {
    set k | k in items && VendorOfKey(k) == vendor && items[k].storeType == BULK_SALE
  }

  /** One vendor's bulk sale: its earlier bulk-sale offers go, the new ones come in. */
  function BulkVendorUpdate(items: map<string, PrivateStoreItem>, vendor: int32, vendorItems: seq<PrivateStoreItem>): map<string, PrivateStoreItem>
  {
    (items - BulkKeysOf(items, vendor)) + Batch(vendorItems)
  }

  /** The offers of one vendor, in batch order. */
  function OffersOf(batch: seq<PrivateStoreItem>, vendor: int32): (r: seq<PrivateStoreItem>)
    ensures forall i :: i in r <==> i in batch && i.vendorObjectId == vendor
    decreases |batch|
  {
    if |batch| == 0 then []
    else
      var rest := OffersOf(batch[1..], vendor);
      assert forall i :: i in batch <==> i == batch[0] || i in batch[1..];
      if batch[0].vendorObjectId == vendor then [batch[0]] + rest else rest
  }

  /** The vendors of a batch, in the order they first appear. */
  function VendorOrder(batch: seq<PrivateStoreItem>): seq<int>
  {
    FirstOccurrences(seq(|batch|, i requires 0 <= i < |batch| => batch[i].vendorObjectId as int))
  }

  /** Every vendor of the batch is a 32-bit id. */
  lemma VendorInRange(batch: seq<PrivateStoreItem>, v: int)
    requires v in VendorOrder(batch)
    ensures -0x8000_0000 <= v < 0x8000_0000
  {
    var ids := seq(|batch|, i requires 0 <= i < |batch| => batch[i].vendorObjectId as int);
    var i :| 0 <= i < |ids| && ids[i] == v;
  }

  /** The bulk path: each vendor's bulk sale, in the order the vendors appear. */
  function BulkUpdate(items: map<string, PrivateStoreItem>, batch: seq<PrivateStoreItem>, vendors: seq<int>): map<string, PrivateStoreItem>
    decreases |vendors|
  {
    if |vendors| == 0 then items
    else
      var v := vendors[0];
      if -0x8000_0000 <= v < 0x8000_0000 then
        BulkUpdate(BulkVendorUpdate(items, v as int32, OffersOf(batch, v as int32)), batch, vendors[1..])
      else BulkUpdate(items, batch, vendors[1..])
  }

  /** The last-seen table after the bulk path: each vendor's offers stamped in turn. */
  function BulkStamped(seen: map<string, Ticks>, batch: seq<PrivateStoreItem>, vendors: seq<int>, now: Ticks): map<string, Ticks>
    decreases |vendors|
  {
    if |vendors| == 0 then seen
    else
      var v := vendors[0];
      if -0x8000_0000 <= v < 0x8000_0000 then
        BulkStamped(Stamped(seen, OffersOf(batch, v as int32), now), batch, vendors[1..], now)
      else BulkStamped(seen, batch, vendors[1..], now)
  }

  /** Removing the stored expired keys leaves the unexpired offers. */
  lemma CleanupResult(items: map<string, PrivateStoreItem>, seen: map<string, Ticks>, now: Ticks, expired: set<string>, removed: set<string>)
    requires expired == set k | k in seen && Expired(now, seen[k], ITEM_LIFETIME)
    requires forall k :: k in removed <==> k in items && k in expired
    ensures items - removed == Unexpired(items, seen, now)
    ensures items.Keys - (items - removed).Keys == removed
  {
  }

  /** The offers the cleanup keeps: those not seen, or seen at most the lifetime ago. */
  function Unexpired(items: map<string, PrivateStoreItem>, seen: map<string, Ticks>, now: Ticks): map<string, PrivateStoreItem>
  {
    map k | k in items && !(k in seen && Expired(now, seen[k], ITEM_LIFETIME)) :: items[k]
  }

  /** The store types of a page, in the order they first appear: the groups of `GroupBy(StoreType)`. */
  function StoreTypeOrder(batch: seq<PrivateStoreItem>): seq<int>
  {
    FirstOccurrences(seq(|batch|, i requires 0 <= i < |batch| => batch[i].storeType as int))
  }

  /** The offers of one store type, in page order. */
  function OfStoreType(batch: seq<PrivateStoreItem>, storeType: int): (r: seq<PrivateStoreItem>)
    ensures forall i :: i in r <==> i in batch && i.storeType == storeType
    decreases |batch|
  {
    if |batch| == 0 then []
    else
      var rest := OfStoreType(batch[1..], storeType);
      assert forall i :: i in batch <==> i == batch[0] || i in batch[1..];
      if batch[0].storeType == storeType then [batch[0]] + rest else rest
  }

  /** Both tables after a page, and whether every group was applied. */
  datatype Outcome = Outcome(items: map<string, PrivateStoreItem>, lastSeen: map<string, Ticks>, completed: bool)

  /**
   * `HandlePrivateStoreUpdated`: the groups in turn, bulk sales on the bulk
   * path and the others on the regular path. A regular group with two
   * offers under one key throws, which ends the handler: the groups before
   * it stay applied, the ones after it are skipped.
   */
  function HandleGroups(items: map<string, PrivateStoreItem>, seen: map<string, Ticks>, batch: seq<PrivateStoreItem>, types: seq<int>, now: Ticks): Outcome
    decreases |types|
  {
    if |types| == 0 then Outcome(items, seen, true)
    else
      var group := OfStoreType(batch, types[0]);
      if types[0] == BULK_SALE then
        HandleGroups(BulkUpdate(items, group, VendorOrder(group)), BulkStamped(seen, group, VendorOrder(group), now), batch, types[1..], now)
      else if DistinctKeys(group) then
        HandleGroups(RegularUpdate(items, group), Stamped(seen, group, now), batch, types[1..], now)
      else Outcome(items, seen, false)
  }

  // ---------------------------------------------------------------------
  // Properties of the updates.

  /** On a table whose keys are generated, a key's vendor is its offer's vendor. */
  lemma VendorOfStored(items: map<string, PrivateStoreItem>, k: string)
    requires KeysGenerated(items) && k in items
    ensures VendorOfKey(k) == items[k].vendorObjectId
  {
    VendorOfItemKey(items[k]);
  }

  /**
   * After a regular update, a vendor of the batch holds exactly its batch
   * offers, whatever their store type; every other vendor's offers are as
   * they were.
   */
  lemma RegularUpdateByVendor(items: map<string, PrivateStoreItem>, batch: seq<PrivateStoreItem>, k: string)
    requires KeysGenerated(items)
    ensures var r := RegularUpdate(items, batch);
      && (k in items && items[k].vendorObjectId !in BatchVendors(batch) ==> k in r && r[k] == items[k])
      && (k in r && r[k].vendorObjectId in BatchVendors(batch) ==> k in BatchKeys(batch) && r[k] in batch)
      && (k in BatchKeys(batch) ==> k in r && r[k] in batch)
      && (k in r ==> k in items || k in BatchKeys(batch))
  {
    var r := RegularUpdate(items, batch);
    if k in items {
      VendorOfStored(items, k);
      if k in BatchKeys(batch) {
        var i :| i in batch && ItemKey(i) == k;
        KeyInjective(i, items[k]);
      }
    }
  }

  /** A bulk sale keeps the vendor's offers of other store types, unless a new offer takes their key. */
  lemma BulkKeepsOtherStoreTypes(items: map<string, PrivateStoreItem>, vendor: int32, vendorItems: seq<PrivateStoreItem>, k: string)
    requires k in items && items[k].storeType != BULK_SALE && k !in BatchKeys(vendorItems)
    ensures var r := BulkVendorUpdate(items, vendor, vendorItems); k in r && r[k] == items[k]
  {
  }

  /** A bulk sale drops the vendor's earlier bulk-sale offers that the new offers do not list again. */
  lemma BulkReplacesBulkOffers(items: map<string, PrivateStoreItem>, vendor: int32, vendorItems: seq<PrivateStoreItem>, k: string)
    requires KeysGenerated(items) && k in items
    requires items[k].vendorObjectId == vendor && items[k].storeType == BULK_SALE
    ensures k in BulkVendorUpdate(items, vendor, vendorItems) <==> k in BatchKeys(vendorItems)
  {
    VendorOfStored(items, k);
  }

  /** A bulk sale leaves other vendors' offers alone. */
  lemma BulkKeepsOtherVendors(items: map<string, PrivateStoreItem>, vendor: int32, vendorItems: seq<PrivateStoreItem>, k: string)
    requires KeysGenerated(items) && k in items && items[k].vendorObjectId != vendor
    requires forall i :: i in vendorItems ==> i.vendorObjectId == vendor
    ensures var r := BulkVendorUpdate(items, vendor, vendorItems); k in r && r[k] == items[k]
  {
    VendorOfStored(items, k);
    if k in BatchKeys(vendorItems) {
      var i :| i in vendorItems && ItemKey(i) == k;
      KeyInjective(i, items[k]);
    }
  }

  /** When every offer was stamped, the cleanup keeps exactly the offers seen within the lifetime. */
  lemma CleanupExact(items: map<string, PrivateStoreItem>, seen: map<string, Ticks>, now: Ticks, k: string)
    requires items.Keys <= seen.Keys
    ensures k in Unexpired(items, seen, now) <==> k in items && now - seen[k] <= ITEM_LIFETIME
  {
  }

  // ---------------------------------------------------------------------
  // Queries.

  /** The filters of the `GetItemsBy*` and `GetItemsWith*` queries. */
  datatype Query =
    | PriceRange(minPrice: int64, maxPrice: int64)
    | VendorNamed(vendorName: Units, upper: Unit -> Unit)
    | StoreTypeIs(storeType: int)
    | ItemTypeIs(itemType: int)
    | SubItemTypeIs(subItemType: int)
    | BodyPartShares(bodyPart: int64)
    | WithAugmentation
    | WithElementalAttributes
    | EnchantRange(minEnchant: int32, maxEnchant: int32)
    | WithSoulCrystal
    | WithVisualId
    | ElementalAttributeIs(attackType: int32)

  predicate Matches(q: Query, item: PrivateStoreItem)
  {
    var info := item.itemInfo;
    match q
    case PriceRange(lo, hi) => lo <= item.price <= hi
    case VendorNamed(name, upper) => EqualsIgnoreCase(item.vendorName, name, upper)
    case StoreTypeIs(t) => item.storeType == t
    case ItemTypeIs(t) => info.itemType2 == t
    case SubItemTypeIs(t) => info.customType1 == t
    case BodyPartShares(mask) => SharesBit(info.bodyPart, mask)
    case WithAugmentation =>
      info.augmentation.Some? && (Lookup(info.augmentation.value, "option1").Some? || Lookup(info.augmentation.value, "option2").Some?)
    case WithElementalAttributes => info.elementalAttrs.Some? && |info.elementalAttrs.value| > 0
    case EnchantRange(lo, hi) => lo <= info.enchantLevel <= hi
    case WithSoulCrystal => info.soulCrystalOptions.Some? && |info.soulCrystalOptions.value| > 0
    case WithVisualId => info.visualId.Some?
    case ElementalAttributeIs(t) =>
      info.elementalAttrs.Some? && Lookup(info.elementalAttrs.value, "attackType") == Some(t as int32)
  }

  /** The stored offers a filter keeps, under their keys (the order of `Values` is not modelled). */
  function Select(items: map<string, PrivateStoreItem>, q: Query): (r: map<string, PrivateStoreItem>)
    ensures forall k :: k in r <==> k in items && Matches(q, items[k])
    ensures forall k :: k in r ==> r[k] == items[k]
  {
    map k | k in items && Matches(q, items[k]) :: items[k]
  }

  /** The price filter includes both of its bounds. */
  lemma PriceRangeInclusive(items: map<string, PrivateStoreItem>, k: string, lo: int64, hi: int64)
    requires k in items && lo <= hi && (items[k].price == lo || items[k].price == hi)
    ensures k in Select(items, PriceRange(lo, hi))
  {
  }

  /** An offer with no slot bits is never found by a slot query. */
  lemma NoSlotNeverMatches(item: PrivateStoreItem, mask: int64)
    requires item.itemInfo.bodyPart == 0
    ensures !Matches(BodyPartShares(mask), item)
  {
  }

  // ---------------------------------------------------------------------
  // Statistics.

  /** The prices of the stored offers. */
  function Prices(items: map<string, PrivateStoreItem>): (r: set<int>)
    ensures forall k :: k in items ==> items[k].price in r
    ensures forall p :: p in r ==> exists k :: k in items && items[k].price == p
  {
    set k | k in items :: items[k].price as int
  }

  /** The number of stored offers a filter keeps. */
  function Count(items: map<string, PrivateStoreItem>, q: Query): (r: nat)
    ensures r <= |items|
  {
    var kept := Select(items, q).Keys;
    SubsetNoLarger(kept, items.Keys);
    |kept|
  }

  /** The distinct vendor names, compared ordinally as `Distinct` does. */
  function Vendors(items: map<string, PrivateStoreItem>): (r: set<Units>)
    ensures |r| <= |items|
    ensures forall v :: v in r <==> exists k :: k in items && items[k].vendorName == v
  {
    var names := map k | k in items :: items[k].vendorName;
    ValuesNoMore(names);
    assert names.Keys == items.Keys;
    assert forall k :: k in items ==> names[k] in names.Values;
    names.Values
  }

  /** The distinct item ids. */
  function ItemTypes(items: map<string, PrivateStoreItem>): (r: set<int32>)
    ensures |r| <= |items|
    ensures forall id :: id in r <==> exists k :: k in items && items[k].itemInfo.itemId == id
  {
    var ids := map k | k in items :: items[k].itemInfo.itemId;
    ValuesNoMore(ids);
    assert ids.Keys == items.Keys;
    assert forall k :: k in items ==> ids[k] in ids.Values;
    ids.Values
  }

  /** The number of offers whose augmentation dictionary is present and not empty (`Any()`). */
  function AugmentedCount(items: map<string, PrivateStoreItem>): (r: nat)
    ensures r <= |items|
    ensures r == 0 <==> forall k :: k in items ==> items[k].itemInfo.augmentation.None? || items[k].itemInfo.augmentation.value == []
  {
    var augmented := set k | k in items && items[k].itemInfo.augmentation.Some? && items[k].itemInfo.augmentation.value != [];
    SubsetNoLarger(augmented, items.Keys);
    assert forall k :: k in items && items[k].itemInfo.augmentation.Some? && items[k].itemInfo.augmentation.value != [] ==> k in augmented;
    assert (forall k :: k !in augmented) ==> augmented == {};
    |augmented|
  }

  /** `StoreItemType` values counted by the statistics. */
  const ITEM_TYPE_EQUIPMENT: int := 0x00
  const ITEM_TYPE_ENHANCEMENT: int := 0x02
  const ITEM_TYPE_GROCERY: int := 0x04

  datatype Statistics = Statistics(
    totalItems: nat,
    uniqueVendors: nat,
    uniqueItemTypes: nat,
    minPrice: int,
    maxPrice: int,
    sellStores: nat,
    buyStores: nat,
    equipmentItems: nat,
    enhancementItems: nat,
    groceryItems: nat,
    withAugmentation: nat,
    withElementalAttrs: nat,
    withSoulCrystal: nat,
    withVisualId: nat)

  /** `GetStatisticsAsync`, without the average price. */
  ghost function StatisticsOf(items: map<string, PrivateStoreItem>): (r: Statistics)
    ensures r.totalItems == |items|
    ensures |items| == 0 ==> r.minPrice == 0 && r.maxPrice == 0
    ensures forall k :: k in items ==> r.minPrice <= items[k].price <= r.maxPrice
    ensures |items| > 0 ==> r.minPrice in Prices(items) && r.maxPrice in Prices(items)
    ensures r.uniqueVendors <= |items| && r.uniqueItemTypes <= |items| && r.withAugmentation <= |items|
    ensures r.sellStores + r.buyStores <= |items|
    ensures r.equipmentItems + r.enhancementItems + r.groceryItems <= |items|
    ensures r.withElementalAttrs <= |items| && r.withSoulCrystal <= |items| && r.withVisualId <= |items|
  {
    StatisticsDisjoint(items, StoreTypeIs(STORE_TYPE_SELL), StoreTypeIs(STORE_TYPE_BUY));
    StatisticsDisjoint3(items);
    Statistics(
      |items|,
      |Vendors(items)|,
      |ItemTypes(items)|,
      if |items| == 0 then 0 else SetMin(Prices(items)),
      if |items| == 0 then 0 else SetMax(Prices(items)),
      Count(items, StoreTypeIs(STORE_TYPE_SELL)),
      Count(items, StoreTypeIs(STORE_TYPE_BUY)),
      Count(items, ItemTypeIs(ITEM_TYPE_EQUIPMENT)),
      Count(items, ItemTypeIs(ITEM_TYPE_ENHANCEMENT)),
      Count(items, ItemTypeIs(ITEM_TYPE_GROCERY)),
      AugmentedCount(items),
      Count(items, WithElementalAttributes),
      Count(items, WithSoulCrystal),
      Count(items, WithVisualId))
  }

  /** Two filters no offer passes together count no more offers than there are. */
  lemma StatisticsDisjoint(items: map<string, PrivateStoreItem>, p: Query, q: Query)
    requires forall it: PrivateStoreItem :: !(Matches(p, it) && Matches(q, it))
    ensures Count(items, p) + Count(items, q) <= |items|
  {
    var a, b := Select(items, p).Keys, Select(items, q).Keys;
    assert a * b == {};
    SubsetNoLarger(a + b, items.Keys);
  }

  /** The three item-type counts cover different offers. */
  lemma StatisticsDisjoint3(items: map<string, PrivateStoreItem>)
    ensures Count(items, ItemTypeIs(ITEM_TYPE_EQUIPMENT)) + Count(items, ItemTypeIs(ITEM_TYPE_ENHANCEMENT))
      + Count(items, ItemTypeIs(ITEM_TYPE_GROCERY)) <= |items|
  {
    var a := Select(items, ItemTypeIs(ITEM_TYPE_EQUIPMENT)).Keys;
    var b := Select(items, ItemTypeIs(ITEM_TYPE_ENHANCEMENT)).Keys;
    var c := Select(items, ItemTypeIs(ITEM_TYPE_GROCERY)).Keys;
    assert a * b == {} && (a + b) * c == {};
    SubsetNoLarger(a + b + c, items.Keys);
  }

  /** Each counted feature of the statistics is the size of the matching query's answer. */
  lemma StatisticsCountQueries(items: map<string, PrivateStoreItem>)
    ensures var r := StatisticsOf(items);
      && r.sellStores == |Select(items, StoreTypeIs(STORE_TYPE_SELL)).Keys|
      && r.buyStores == |Select(items, StoreTypeIs(STORE_TYPE_BUY)).Keys|
      && r.withElementalAttrs == |Select(items, WithElementalAttributes).Keys|
      && r.withSoulCrystal == |Select(items, WithSoulCrystal).Keys|
      && r.withVisualId == |Select(items, WithVisualId).Keys|
  {
  }

  // ---------------------------------------------------------------------
  // The service.

  class PrivateStoreService {
    var items: map<string, PrivateStoreItem>
    var itemsByItemId: map<int32, set<string>>
    var itemLastSeen: map<string, Ticks>

    /** Keys are generated, the index is exact, and every stored key has a last-seen time. */
    ghost predicate Valid()
      reads this
    {
      KeysGenerated(items) && IndexExact(items, itemsByItemId) && items.Keys <= itemLastSeen.Keys
    }

    constructor()
      ensures Valid()
      ensures items == map[] && itemsByItemId == map[] && itemLastSeen == map[]
    {
      items := map[];
      itemsByItemId := map[];
      itemLastSeen := map[];
    }

    /** `TryRemove` of one key and the removal of that key from its item id's index set. */
    method RemoveStored(key: string)
      requires Valid()
      modifies this
      ensures Valid()
      ensures items == old(items) - {key} && itemLastSeen == old(itemLastSeen)
      ensures itemsByItemId == if key in old(items) then IndexWithout(old(itemsByItemId), old(items)[key].itemInfo.itemId, key) else old(itemsByItemId)
    {
      if key in items {
        var removed := items[key];
        RemoveKeepsIndex(items, itemsByItemId, key);
        items := items - {key};
        var id := removed.itemInfo.itemId;
        if id in itemsByItemId {
          var keys := itemsByItemId[id] - {key};
          if keys == {} {
            itemsByItemId := itemsByItemId - {id};
          } else {
            itemsByItemId := itemsByItemId[id := keys];
          }
        }
      }
    }

    /** Stores one offer under its key, stamps it, and adds the key to its item id's index set. */
    method Store(item: PrivateStoreItem, now: Ticks)
      requires Valid()
      modifies this
      ensures Valid()
      ensures items == old(items)[ItemKey(item) := item]
      ensures itemLastSeen == old(itemLastSeen)[ItemKey(item) := now]
      ensures itemsByItemId == IndexWith(old(itemsByItemId), item.itemInfo.itemId, ItemKey(item))
    {
      var key := ItemKey(item);
      var id := item.itemInfo.itemId;
      StoreKeepsIndex(items, itemsByItemId, item);
      items := items[key := item];
      itemLastSeen := itemLastSeen[key := now];
      if id in itemsByItemId {
        itemsByItemId := itemsByItemId[id := itemsByItemId[id] + {key}];
      } else {
        itemsByItemId := itemsByItemId[id := {key}];
      }
    }

    /** Removes a set of keys, one at a time. */
    method RemoveAll(keys: set<string>)
      requires Valid()
      modifies this
      ensures Valid()
      ensures items == old(items) - keys && itemLastSeen == old(itemLastSeen)
    {
      var pending := keys;
      while pending != {}
        invariant Valid()
        invariant pending <= keys
        invariant items == old(items) - (keys - pending) && itemLastSeen == old(itemLastSeen)
        decreases pending
      {
        var key :| key in pending;
        RemoveStored(key);
        pending := pending - {key};
      }
    }

    /** Stores a batch of offers in order. */
    method StoreAll(batch: seq<PrivateStoreItem>, now: Ticks)
      requires Valid()
      modifies this
      ensures Valid()
      ensures items == old(items) + Batch(batch)
      ensures itemLastSeen == Stamped(old(itemLastSeen), batch, now)
    {
      for i := 0 to |batch|
        invariant Valid()
        invariant items == old(items) + Batch(batch[..i])
        invariant itemLastSeen == Stamped(old(itemLastSeen), batch[..i], now)
      {
        BatchStep(batch, i, old(itemLastSeen), now);
        MergeUpdate(old(items), Batch(batch[..i]), ItemKey(batch[i]), batch[i]);
        Store(batch[i], now);
      }
      assert batch[..|batch|] == batch;
    }

    /** `UpdateItemsAsync`: the regular path. Fails, changing nothing, when two offers share a key. */
    method UpdateItems(newItems: seq<PrivateStoreItem>, now: Ticks) returns (ok: bool)
      requires Valid()
      modifies this
      ensures Valid()
      ensures ok <==> DistinctKeys(newItems)
      ensures ok ==> items == RegularUpdate(old(items), newItems)
      ensures ok ==> itemLastSeen == Stamped(old(itemLastSeen), newItems, now)
      ensures !ok ==> items == old(items) && itemsByItemId == old(itemsByItemId) && itemLastSeen == old(itemLastSeen)
    {
      if !DistinctKeys(newItems) {
        return false;
      }
      var vendors := set i | i in newItems :: i.vendorObjectId;
      var existing := set k | k in items && VendorOfKey(k) in vendors;
      var newKeys := set i | i in newItems :: ItemKey(i);
      RegularUpdateSteps(items, newItems);
      RemoveAll(existing - newKeys);
      StoreAll(newItems, now);
      return true;
    }

    /** One vendor's part of `ProcessBulkSaleItemsAsync`. */
    method BulkSaleOfVendor(vendor: int32, vendorItems: seq<PrivateStoreItem>, now: Ticks)
      requires Valid()
      modifies this
      ensures Valid()
      ensures items == BulkVendorUpdate(old(items), vendor, vendorItems)
      ensures itemLastSeen == Stamped(old(itemLastSeen), vendorItems, now)
    {
      var oldKeys := set k | k in items && VendorOfKey(k) == vendor && items[k].storeType == BULK_SALE;
      RemoveAll(oldKeys);
      StoreAll(vendorItems, now);
    }

    /** `ProcessBulkSaleItemsAsync`: the bulk path, vendor by vendor in order of appearance. */
    method ProcessBulkSale(bulkItems: seq<PrivateStoreItem>, now: Ticks)
      requires Valid()
      modifies this
      ensures Valid()
      ensures items == BulkUpdate(old(items), bulkItems, VendorOrder(bulkItems))
      ensures itemLastSeen == BulkStamped(old(itemLastSeen), bulkItems, VendorOrder(bulkItems), now)
    {
      var vendors := VendorOrder(bulkItems);
      for i := 0 to |vendors|
        invariant Valid()
        invariant BulkUpdate(items, bulkItems, vendors[i..]) == BulkUpdate(old(items), bulkItems, vendors)
        invariant BulkStamped(itemLastSeen, bulkItems, vendors[i..], now) == BulkStamped(old(itemLastSeen), bulkItems, vendors, now)
      {
        var v := vendors[i];
        VendorInRange(bulkItems, v);
        assert vendors[i..][1..] == vendors[i + 1..];
        BulkSaleOfVendor(v as int32, OffersOf(bulkItems, v as int32), now);
      }
    }

    /** `HandlePrivateStoreUpdated`: one page of offers, grouped by store type. */
    method HandleUpdated(pageItems: seq<PrivateStoreItem>, now: Ticks) returns (completed: bool)
      requires Valid()
      modifies this
      ensures Valid()
      ensures Outcome(items, itemLastSeen, completed) == HandleGroups(old(items), old(itemLastSeen), pageItems, StoreTypeOrder(pageItems), now)
    {
      var types := StoreTypeOrder(pageItems);
      for i := 0 to |types|
        invariant Valid()
        invariant HandleGroups(items, itemLastSeen, pageItems, types[i..], now) == HandleGroups(old(items), old(itemLastSeen), pageItems, types, now)
      {
        var group := OfStoreType(pageItems, types[i]);
        assert types[i..][1..] == types[i + 1..];
        if types[i] == BULK_SALE {
          ProcessBulkSale(group, now);
        } else {
          var ok := UpdateItems(group, now);
          if !ok {
            return false;
          }
        }
      }
      return true;
    }

    /** The scan of `CleanupExpiredItems`: the keys last seen more than the lifetime ago. */
    method ExpiredKeys(now: Ticks) returns (expired: set<string>)
      ensures expired == set k | k in itemLastSeen && Expired(now, itemLastSeen[k], ITEM_LIFETIME)
    {
      expired := {};
      var pending := itemLastSeen.Keys;
      while pending != {}
        invariant pending <= itemLastSeen.Keys
        invariant expired == set k | k in itemLastSeen.Keys - pending && Expired(now, itemLastSeen[k], ITEM_LIFETIME)
        decreases pending
      {
        var k :| k in pending;
        if Expired(now, itemLastSeen[k], ITEM_LIFETIME) {
          expired := expired + {k};
        }
        pending := pending - {k};
      }
    }

    /** The removal of one expired key: the offer, its last-seen time and its index entry. */
    method RemoveExpired(key: string)
      requires Valid() && key in items
      modifies this
      ensures Valid()
      ensures items == old(items) - {key} && itemLastSeen == old(itemLastSeen) - {key}
    {
      RemoveStored(key);
      itemLastSeen := itemLastSeen - {key};
    }

    /** `CleanupExpiredItems`: drops the offers last seen more than the lifetime ago. */
    method CleanupExpired(now: Ticks) returns (removedCount: nat)
      requires Valid()
      modifies this
      ensures Valid()
      ensures items == Unexpired(old(items), old(itemLastSeen), now)
      ensures itemLastSeen == old(itemLastSeen) - (old(items).Keys - items.Keys)
      ensures removedCount == |old(items).Keys - items.Keys|
    {
      var expired := ExpiredKeys(now);
      removedCount := 0;
      var rest := expired;
      ghost var removed: set<string> := {};
      while rest != {}
        invariant Valid()
        invariant rest <= expired
        invariant forall k :: k in removed <==> k in old(items) && k in expired && k !in rest
        invariant items == old(items) - removed
        invariant itemLastSeen == old(itemLastSeen) - removed
        invariant removedCount == |removed|
        decreases rest
      {
        var k :| k in rest;
        if k in items {
          assert k !in removed;
          SubtractOneMore(old(items), removed, k);
          SubtractOneMore(old(itemLastSeen), removed, k);
          RemoveExpired(k);
          removed := removed + {k};
          removedCount := removedCount + 1;
        }
        rest := rest - {k};
      }
      CleanupResult(old(items), old(itemLastSeen), now, expired, removed);
    }

    /** `ClearAsync`: all three tables empty. */
    method Clear()
      modifies this
      ensures Valid()
      ensures items == map[] && itemsByItemId == map[] && itemLastSeen == map[]
    {
      items := map[];
      itemsByItemId := map[];
      itemLastSeen := map[];
    }

    /** `GetItemsByItemIdAsync`: the indexed keys that are still stored. */
    function GetItemsByItemId(id: int32): (r: map<string, PrivateStoreItem>)
      reads this
      ensures forall k :: k in r ==> k in items && r[k] == items[k]
      ensures Valid() ==> forall k :: k in r <==> k in items && items[k].itemInfo.itemId == id
    {
      if id in itemsByItemId then map k | k in itemsByItemId[id] && k in items :: items[k] else map[]
    }

    /** `GetItemsCountAsync`. */
    function GetItemsCount(): (r: nat)
      reads this
      ensures r == |items.Keys|
    {
      |items|
    }
  }
}
