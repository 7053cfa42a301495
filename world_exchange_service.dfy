/**
 * The world-exchange tracker `WorldExchangeService`: listings keyed by their
 * world-exchange id, an index from item id to ids, an index from the category
 * a batch was requested for to ids, and the time each listing was last seen.
 * An update only adds or replaces listings; listings leave only through the
 * cleanup timer, once they have not been seen for more than fifteen minutes.
 *
 * The cleanup takes an expired id out of the index set of its current item id
 * and out of every category set, so the category index never names a missing
 * listing, while the item-id index may keep stale entries (an id re-listed
 * under another item id stays under the old one).
 */
module WorldExchangeService {
  import opened Bytes
  import opened Wrappers
  import opened WorldExchangePacket
  import opened MarketCommon

  /** A listing unseen for longer than this is dropped by the cleanup. */
  const ITEM_LIFETIME: Ticks := 15 * TICKS_PER_MINUTE

  /** The window of the `ExpiringSoon` statistic, in seconds. */
  const EXPIRING_SOON: int32 := 3600

  /** The enchant level from which a listing counts as highly enchanted. */
  const HIGH_ENCHANT: int32 := 10

  type Listings = map<uint64, WorldExchangeItem>
  type Index = map<int32, set<uint64>>

  /** The world-exchange ids of a batch. */
  function Ids(batch: seq<WorldExchangeItem>): set<uint64>
  {
    set x | x in batch :: x.worldExchangeId
  }

  /** Every listing is in the index set of its item id, and no index set is empty. */
  ghost predicate IndexCovers(items: Listings, index: Index)
  {
    (forall id :: id in index ==> index[id] != {})
    && (forall c :: c in items ==> items[c].itemId in index && c in index[items[c].itemId])
  }

  /** Every category set is non-empty and names only stored listings. */
  ghost predicate CategoriesWithin(items: Listings, categories: Index)
  {
    forall cat :: cat in categories ==> categories[cat] != {} && categories[cat] <= items.Keys
  }

  // ---------------------------------------------------------------------
  // The update, as functions of the old tables.

  /** The listings after `AddOrUpdate` of each listing of the batch, in order. */
  function Upserted(items: Listings, batch: seq<WorldExchangeItem>): Listings
    decreases |batch|
  {
    if |batch| == 0 then items
    else
      var last := batch[|batch| - 1];
      Upserted(items, batch[..|batch| - 1])[last.worldExchangeId := last]
  }

  /** The last-seen times after each listing of the batch is stamped with `now`. */
  function Stamped(seen: map<uint64, Ticks>, batch: seq<WorldExchangeItem>, now: Ticks): map<uint64, Ticks>
    decreases |batch|
  {
    if |batch| == 0 then seen
    else Stamped(seen, batch[..|batch| - 1], now)[batch[|batch| - 1].worldExchangeId := now]
  }

  /** The item-id index after each listing's id joins the set of its item id. */
  function Indexed(index: Index, batch: seq<WorldExchangeItem>): Index
    decreases |batch|
  {
    if |batch| == 0 then index
    else
      var last := batch[|batch| - 1];
      IndexWith(Indexed(index, batch[..|batch| - 1]), last.itemId, last.worldExchangeId)
  }

  /** The category index after each listing's id joins the batch's category, when it has one. */
  function Categorized(categories: Index, batch: seq<WorldExchangeItem>, category: Option<int32>): Index
    decreases |batch|
  {
    if |batch| == 0 || category.None? then categories
    else IndexWith(Categorized(categories, batch[..|batch| - 1], category), category.value,
                   batch[|batch| - 1].worldExchangeId)
  }

  lemma PrefixIds(batch: seq<WorldExchangeItem>)
    requires |batch| > 0
    ensures Ids(batch) == Ids(batch[..|batch| - 1]) + {batch[|batch| - 1].worldExchangeId}
  {
    assert batch == batch[..|batch| - 1] + [batch[|batch| - 1]];
  }

  /** The update keeps every listing and adds exactly the batch's ids. */
  lemma {:induction false} UpsertedKeys(items: Listings, batch: seq<WorldExchangeItem>)
    ensures Upserted(items, batch).Keys == items.Keys + Ids(batch)
    decreases |batch|
  {
    if |batch| > 0 {
      UpsertedKeys(items, batch[..|batch| - 1]);
      PrefixIds(batch);
    }
  }

  /** A listing whose id the batch does not carry is left as it was. */
  lemma {:induction false} UpsertedKeepsOthers(items: Listings, batch: seq<WorldExchangeItem>, c: uint64)
    requires c in items && c !in Ids(batch)
    ensures c in Upserted(items, batch) && Upserted(items, batch)[c] == items[c]
    decreases |batch|
  {
    if |batch| > 0 {
      PrefixIds(batch);
      UpsertedKeepsOthers(items, batch[..|batch| - 1], c);
    }
  }

  /** The last listing of the batch with a given id is the one stored. */
  lemma {:induction false} UpsertedLastWins(items: Listings, batch: seq<WorldExchangeItem>, i: nat)
    requires i < |batch|
    requires forall j :: i < j < |batch| ==> batch[j].worldExchangeId != batch[i].worldExchangeId
    ensures batch[i].worldExchangeId in Upserted(items, batch)
    ensures Upserted(items, batch)[batch[i].worldExchangeId] == batch[i]
    decreases |batch|
  {
    if i < |batch| - 1 {
      UpsertedLastWins(items, batch[..|batch| - 1], i);
    }
  }

  /** Every listing of the batch is stamped with `now`; other stamps are kept. */
  lemma {:induction false} StampedExact(seen: map<uint64, Ticks>, batch: seq<WorldExchangeItem>, now: Ticks, c: uint64)
    ensures c in Stamped(seen, batch, now) <==> c in seen || c in Ids(batch)
    ensures c in Ids(batch) ==> Stamped(seen, batch, now)[c] == now
    ensures c in seen && c !in Ids(batch) ==> Stamped(seen, batch, now)[c] == seen[c]
    decreases |batch|
  {
    if |batch| > 0 {
      PrefixIds(batch);
      StampedExact(seen, batch[..|batch| - 1], now, c);
    }
  }

  /** The update keeps the item-id index covering the listings. */
  lemma {:induction false} IndexedCovers(items: Listings, index: Index, batch: seq<WorldExchangeItem>)
    requires IndexCovers(items, index)
    ensures IndexCovers(Upserted(items, batch), Indexed(index, batch))
    decreases |batch|
  {
    if |batch| > 0 {
      IndexedCovers(items, index, batch[..|batch| - 1]);
    }
  }

  /**
   * With a category, its set gains exactly the batch's ids and the other
   * categories are untouched; without one, the category index is unchanged.
   */
  lemma {:induction false} CategorizedExact(categories: Index, batch: seq<WorldExchangeItem>, category: Option<int32>)
    ensures category.None? || |batch| == 0 ==> Categorized(categories, batch, category) == categories
    ensures category.Some? && |batch| > 0 ==>
      var cat := category.value;
      Categorized(categories, batch, category)
        == categories[cat := (if cat in categories then categories[cat] else {}) + Ids(batch)]
    decreases |batch|
  {
    if category.Some? && |batch| > 0 {
      var cat := category.value;
      var init := batch[..|batch| - 1];
      CategorizedExact(categories, init, category);
      PrefixIds(batch);
      var before := Categorized(categories, init, category);
      var last := batch[|batch| - 1].worldExchangeId;
      IndexWithIs(before, cat, last);
      var old0 := if cat in categories then categories[cat] else {};
      assert Ids(batch) == Ids(init) + {last};
      if |init| == 0 {
        assert Ids(init) == {};
        assert before == categories;
        assert Ids(batch) == {last};
      } else {
        assert before == categories[cat := old0 + Ids(init)];
        assert old0 + Ids(init) + {last} == old0 + Ids(batch);
        MapUpdateTwice(categories, cat, old0 + Ids(init), old0 + Ids(batch));
      }
    }
  }

  lemma MapUpdateTwice<K, V>(m: map<K, V>, k: K, a: V, b: V)
    ensures m[k := a][k := b] == m[k := b]
  {
  }

  /** `AddOrUpdate` of one id into an index, as one map update. */
  lemma IndexWithIs(index: Index, key: int32, c: uint64)
    ensures IndexWith(index, key, c) == index[key := (if key in index then index[key] else {}) + {c}]
  {
  }

  /** The update keeps every category set within the stored listings. */
  lemma {:induction false} CategorizedWithin(items: Listings, categories: Index, batch: seq<WorldExchangeItem>, category: Option<int32>)
    requires CategoriesWithin(items, categories)
    ensures CategoriesWithin(Upserted(items, batch), Categorized(categories, batch, category))
    decreases |batch|
  {
    if |batch| > 0 && category.Some? {
      CategorizedWithin(items, categories, batch[..|batch| - 1], category);
    }
    if |batch| > 0 && category.None? {
      UpsertedKeys(items, batch);
    }
  }

  // ---------------------------------------------------------------------
  // The cleanup, as functions of the old tables.

  /** The listings seen within the lifetime. */
  function Unexpired(items: Listings, seen: map<uint64, Ticks>, now: Ticks): Listings
    requires items.Keys <= seen.Keys
  {
    map c | c in items && !Expired(now, seen[c], ITEM_LIFETIME) :: items[c]
  }

  /** The removed listings whose item id is `id`. */
  function RemovedUnder(items: Listings, gone: set<uint64>, id: int32): set<uint64>
  {
    set c | c in gone && c in items && items[c].itemId == id
  }

  /** The item-id index once each removed listing has left the set of its own item id. */
  function Purged(index: Index, items: Listings, gone: set<uint64>): Index
  {
    map id | id in index && index[id] - RemovedUnder(items, gone, id) != {} :: index[id] - RemovedUnder(items, gone, id)
  }

  /** The category index once the removed ids have left every set; a set left empty is dropped. */
  function Uncategorized(categories: Index, gone: set<uint64>): (r: Index)
    ensures forall cat :: cat in r ==> cat in categories && r[cat] == categories[cat] - gone
    ensures forall cat :: cat in r ==> r[cat] != {} && r[cat] !! gone
    ensures forall cat :: cat in categories && categories[cat] - gone != {} ==> cat in r
  {
    map cat | cat in categories && categories[cat] - gone != {} :: categories[cat] - gone
  }

  /** Removing one more listing from the purged item-id index purges it too. */
  lemma PurgeStep(index: Index, items: Listings, gone: set<uint64>, c: uint64)
    requires c in items && c !in gone
    ensures IndexWithout(Purged(index, items, gone), items[c].itemId, c) == Purged(index, items, gone + {c})
  {
    var id := items[c].itemId;
    var l := IndexWithout(Purged(index, items, gone), id, c);
    var r := Purged(index, items, gone + {c});
    forall i
      ensures RemovedUnder(items, gone + {c}, i) == RemovedUnder(items, gone, i) + (if i == id then {c} else {})
    {
    }
    if id in index {
      assert (index[id] - RemovedUnder(items, gone, id)) - {c} == index[id] - RemovedUnder(items, gone + {c}, id);
    }
    assert l.Keys == r.Keys;
    forall i | i in l
      ensures l[i] == r[i]
    {
    }
  }

  /** Taking one more id out of every category set is taking the larger set of ids out. */
  lemma UncategorizedStep(categories: Index, gone: set<uint64>, c: uint64)
    ensures Uncategorized(Uncategorized(categories, gone), {c}) == Uncategorized(categories, gone + {c})
  {
    var l := Uncategorized(Uncategorized(categories, gone), {c});
    var r := Uncategorized(categories, gone + {c});
    forall cat | cat in categories
      ensures categories[cat] - gone - {c} == categories[cat] - (gone + {c})
    {
    }
    assert l.Keys == r.Keys;
  }

  lemma UncategorizedNothing(categories: Index)
    requires forall cat :: cat in categories ==> categories[cat] != {}
    ensures Uncategorized(categories, {}) == categories
  {
    forall cat | cat in categories
      ensures categories[cat] - {} == categories[cat]
    {
    }
  }

  /** Keeping exactly the listings seen within the lifetime. */
  lemma CleanupExact(items: Listings, seen: map<uint64, Ticks>, now: Ticks, c: uint64)
    requires items.Keys <= seen.Keys
    ensures c in Unexpired(items, seen, now) <==> c in items && now - seen[c] <= ITEM_LIFETIME
  {
  }

  /** The cleanup loop's removals are exactly the expired listings. */
  lemma CleanupResult(items: Listings, seen: map<uint64, Ticks>, now: Ticks, expired: set<uint64>, removed: set<uint64>)
    requires items.Keys == seen.Keys
    requires expired == set c | c in seen && Expired(now, seen[c], ITEM_LIFETIME)
    requires forall c :: c in removed <==> c in items && c in expired
    ensures removed == items.Keys - Unexpired(items, seen, now).Keys
    ensures items - removed == Unexpired(items, seen, now)
  {
  }

  // ---------------------------------------------------------------------
  // Queries.

  /** The filters of the `GetItemsBy*` and `GetItemsWith*` queries. */
  datatype Query =
    | PriceRange(minPrice: int64, maxPrice: int64)
    | EnchantRange(minEnchant: int32, maxEnchant: int32)
    | EndsWithin(currentTime: int32, maxTimeRemaining: int32)
    | WithAugmentation
    | WithSoulCrystal
    | AnySubType(subType: int32)
    | Blessed
    | WithAttackAttributes
    | WithDefenceAttributes
    | WithVisualId
    | AttackTypeIs(attackType: uint16)
    | AttackPowerRange(minPower: uint16, maxPower: uint16)

  /** `(long)item.Price`: the unsigned price reinterpreted as a signed 64-bit value. */
  function SignedPrice(item: WorldExchangeItem): int64
  {
    Int64Of(item.price)
  }

  predicate Matches(q: Query, item: WorldExchangeItem)
  {
    match q
    case PriceRange(lo, hi) => lo <= SignedPrice(item) <= hi
    case EnchantRange(lo, hi) => lo <= item.enchantLevel <= hi
    case EndsWithin(now, most) => Wrap32(item.endTime - now) <= most
    case WithAugmentation => item.augmentationOption1 != 0 || item.augmentationOption2 != 0
    case WithSoulCrystal =>
      item.soulCrystalOption1 != 0 || item.soulCrystalOption2 != 0 || item.soulCrystalSpecialOption != 0
    case AnySubType(_) => true
    case Blessed => item.isBlessed != 0
    case WithAttackAttributes => item.attackAttributeType != 0 || item.attackAttributeValue != 0
    case WithDefenceAttributes =>
      item.defenceFire != 0 || item.defenceWater != 0 || item.defenceWind != 0
      || item.defenceEarth != 0 || item.defenceHoly != 0 || item.defenceDark != 0
    case WithVisualId => item.visualId != 0
    case AttackTypeIs(t) => item.attackAttributeType == t
    case AttackPowerRange(lo, hi) => lo <= item.attackAttributeValue <= hi
  }

  /** The stored listings a filter keeps, under their ids (the order of `Values` is not modelled). */
  function Select(items: Listings, q: Query): (r: Listings)
    ensures forall c :: c in r <==> c in items && Matches(q, items[c])
    ensures forall c :: c in r ==> r[c] == items[c]
  {
    map c | c in items && Matches(q, items[c]) :: items[c]
  }

  /** The listings named by one set of an index, restricted to the ids still stored. */
  function Present(items: Listings, index: Index, key: int32): (r: Listings)
    ensures forall c :: c in r <==> key in index && c in index[key] && c in items
    ensures forall c :: c in r ==> r[c] == items[c]
  {
    if key in index then map c | c in index[key] && c in items :: items[c] else map[]
  }

  /** Through the item-id index, every stored listing of that item id is found. */
  lemma ItemsUnderComplete(items: Listings, index: Index, id: int32, c: uint64)
    requires IndexCovers(items, index) && c in items && items[c].itemId == id
    ensures c in Present(items, index, id)
  {
  }

  /** Through the category index, the presence filter drops nothing: the answer is the whole set. */
  lemma CategoryAnswersWholeSet(items: Listings, categories: Index, cat: int32)
    requires CategoriesWithin(items, categories) && cat in categories
    ensures Present(items, categories, cat).Keys == categories[cat]
  {
  }

  /** The price filter includes both of its bounds. */
  lemma PriceRangeInclusive(items: Listings, c: uint64, lo: int64, hi: int64)
    requires c in items && lo <= hi && (SignedPrice(items[c]) == lo || SignedPrice(items[c]) == hi)
    ensures c in Select(items, PriceRange(lo, hi))
  {
  }

  /** A price from 2^63 on is compared as the negative value it reinterprets to. */
  lemma HighPriceIsNegative(item: WorldExchangeItem, lo: int64, hi: int64)
    requires item.price >= 0x8000_0000_0000_0000
    ensures SignedPrice(item) < 0
    ensures Matches(PriceRange(lo, hi), item) <==> lo <= item.price - 0x1_0000_0000_0000_0000 <= hi
    ensures !Matches(PriceRange(0, 0x7FFF_FFFF_FFFF_FFFF), item)
  {
  }

  /** Below 2^63 the price is compared as it is. */
  lemma LowPriceIsItself(item: WorldExchangeItem, lo: int64, hi: int64)
    requires item.price < 0x8000_0000_0000_0000
    ensures Matches(PriceRange(lo, hi), item) <==> lo <= item.price <= hi
  {
  }

  /** The sub-type query answers every listing, whatever the sub-type. */
  lemma SubTypeSelectsAll(items: Listings, subType: int32)
    ensures Select(items, AnySubType(subType)) == items
  {
  }

  // ---------------------------------------------------------------------
  // Statistics.

  /** The number of stored listings a filter keeps. */
  function Count(items: Listings, q: Query): (r: nat)
    ensures r <= |items|
    ensures r == |Select(items, q).Keys|
  {
    var kept := Select(items, q).Keys;
    SubsetNoLarger(kept, items.Keys);
    |kept|
  }

  /** The unsigned prices of the stored listings. */
  function Prices(items: Listings): (r: set<int>)
    ensures forall c :: c in items ==> items[c].price in r
    ensures forall p :: p in r ==> exists c :: c in items && items[c].price == p
  {
    set c | c in items :: items[c].price as int
  }

  function ItemIds(items: Listings): map<uint64, int32>
  {
    map c | c in items :: items[c].itemId
  }

  /** The distinct item ids. */
  function ItemTypes(items: Listings): (r: set<int32>)
    ensures |r| <= |items|
  {
    var ids := ItemIds(items);
    ValuesNoMore(ids);
    assert ids.Keys == items.Keys;
    ids.Values
  }

  /** Exactly the item ids of the listings are counted. */
  lemma ItemTypesExact(items: Listings, id: int32)
    ensures id in ItemTypes(items) <==> exists c :: c in items && items[c].itemId == id
  {
    if exists c :: c in items && items[c].itemId == id {
      var c :| c in items && items[c].itemId == id;
      assert ItemIds(items)[c] == id;
    }
  }

  /**
   * `(long)items.Min(i => i.Price)`: the least unsigned price, then
   * reinterpreted as signed; 0 without listings.
   */
  ghost function MinPrice(items: Listings): (r: int64)
    ensures items == map[] ==> r == 0
    ensures items != map[] ==> exists c :: (c in items && r == SignedPrice(items[c])
      && forall d :: d in items ==> items[c].price <= items[d].price)
  {
    if items == map[] then 0 else
    assert (forall c :: c !in items) ==> items == map[];
    var p := SetMin(Prices(items));
    var c :| c in items && items[c].price == p;
    SignedPrice(items[c])
  }

  /**
   * `(long)items.Max(i => i.Price)`: the greatest unsigned price, then
   * reinterpreted as signed; 0 without listings.
   */
  ghost function MaxPrice(items: Listings): (r: int64)
    ensures items == map[] ==> r == 0
    ensures items != map[] ==> exists c :: (c in items && r == SignedPrice(items[c])
      && forall d :: d in items ==> items[d].price <= items[c].price)
  {
    if items == map[] then 0 else
    assert (forall c :: c !in items) ==> items == map[];
    var p := SetMax(Prices(items));
    var c :| c in items && items[c].price == p;
    SignedPrice(items[c])
  }

  /** With every price below 2^63, the reported least and greatest prices bound every price. */
  lemma PriceBoundsOrdered(items: Listings)
    requires forall c :: c in items ==> items[c].price < 0x8000_0000_0000_0000
    ensures forall c :: c in items ==> MinPrice(items) <= items[c].price <= MaxPrice(items)
    ensures MinPrice(items) <= MaxPrice(items)
  {
    if items != map[] {
      var lo :| lo in items && MinPrice(items) == SignedPrice(items[lo])
        && forall d :: d in items ==> items[lo].price <= items[d].price;
      var hi :| hi in items && MaxPrice(items) == SignedPrice(items[hi])
        && forall d :: d in items ==> items[d].price <= items[hi].price;
    }
  }

  /** Prices on both sides of 2^63 make the reported least price exceed the greatest. */
  lemma PriceBoundsStraddle(items: Listings, a: uint64, b: uint64)
    requires a in items && b in items
    requires items[a].price < 0x8000_0000_0000_0000 <= items[b].price
    requires forall c :: c in items ==> items[a].price <= items[c].price
    ensures MinPrice(items) >= 0 > MaxPrice(items)
  {
    var lo :| lo in items && MinPrice(items) == SignedPrice(items[lo])
      && forall d :: d in items ==> items[lo].price <= items[d].price;
    var hi :| hi in items && MaxPrice(items) == SignedPrice(items[hi])
      && forall d :: d in items ==> items[d].price <= items[hi].price;
    assert items[lo].price <= items[a].price;
    assert items[b].price <= items[hi].price;
  }

  datatype Statistics = Statistics(
    totalItems: nat,
    uniqueItemTypes: nat,
    categoriesCount: nat,
    minPrice: int64,
    maxPrice: int64,
    expiringSoon: nat,
    withAugmentation: nat,
    withSoulCrystal: nat,
    blessedItems: nat,
    withAttackAttributes: nat,
    withDefenceAttributes: nat,
    withVisualId: nat,
    highEnchantItems: nat)

  /** `GetStatisticsAsync` at `currentTime` in Unix seconds, without the two averages. */
  ghost function StatisticsOf(items: Listings, categories: Index, currentTime: int32): (r: Statistics)
    ensures r.totalItems == |items| && r.categoriesCount == |categories|
    ensures items == map[] ==> r.minPrice == 0 && r.maxPrice == 0
    ensures r.uniqueItemTypes <= |items| && r.expiringSoon <= |items| && r.withAugmentation <= |items|
    ensures r.withSoulCrystal <= |items| && r.blessedItems <= |items| && r.withAttackAttributes <= |items|
    ensures r.withDefenceAttributes <= |items| && r.withVisualId <= |items| && r.highEnchantItems <= |items|
    ensures r.expiringSoon == |Select(items, EndsWithin(currentTime, EXPIRING_SOON)).Keys|
    ensures r.highEnchantItems == |Select(items, EnchantRange(HIGH_ENCHANT, 0x7FFF_FFFF)).Keys|
    ensures r.blessedItems == |Select(items, Blessed).Keys|
  {
    Statistics(
      |items|,
      |ItemTypes(items)|,
      |categories|,
      MinPrice(items),
      MaxPrice(items),
      Count(items, EndsWithin(currentTime, EXPIRING_SOON)),
      Count(items, WithAugmentation),
      Count(items, WithSoulCrystal),
      Count(items, Blessed),
      Count(items, WithAttackAttributes),
      Count(items, WithDefenceAttributes),
      Count(items, WithVisualId),
      Count(items, EnchantRange(HIGH_ENCHANT, 0x7FFF_FFFF)))
  }

  // ---------------------------------------------------------------------
  // The service.

  class WorldExchangeService {
    var items: Listings
    var itemsByItemId: Index
    var itemsByCategory: Index
    var itemLastSeen: map<uint64, Ticks>

    /**
     * The item-id index covers the listings, the category index names only
     * stored listings, and exactly the listings have a last-seen time.
     */
    ghost predicate Valid()
      reads this
    {
      IndexCovers(items, itemsByItemId) && CategoriesWithin(items, itemsByCategory)
      && itemLastSeen.Keys == items.Keys
    }

    constructor()
      ensures Valid()
      ensures items == map[] && itemsByItemId == map[] && itemsByCategory == map[] && itemLastSeen == map[]
    {
      items := map[];
      itemsByItemId := map[];
      itemsByCategory := map[];
      itemLastSeen := map[];
    }

    /** One step of `UpdateItemsAsync`: store, stamp and index one listing. */
    method Upsert(item: WorldExchangeItem, category: Option<int32>, now: Ticks)
      requires Valid()
      modifies this
      ensures Valid()
      ensures items == old(items)[item.worldExchangeId := item]
      ensures itemLastSeen == old(itemLastSeen)[item.worldExchangeId := now]
      ensures itemsByItemId == IndexWith(old(itemsByItemId), item.itemId, item.worldExchangeId)
      ensures itemsByCategory == if category.Some?
        then IndexWith(old(itemsByCategory), category.value, item.worldExchangeId)
        else old(itemsByCategory)
    {
      var wid := item.worldExchangeId;
      UpsertKeepsValid(items, itemsByItemId, itemsByCategory, item, category);
      items := items[wid := item];
      itemLastSeen := itemLastSeen[wid := now];
      itemsByItemId := IndexWith(itemsByItemId, item.itemId, wid);
      if category.Some? {
        itemsByCategory := IndexWith(itemsByCategory, category.value, wid);
      }
    }

    /** `UpdateItemsAsync` (the body of `HandleWorldExchangeUpdated`): every listing of the batch, in order. */
    method UpdateItems(newItems: seq<WorldExchangeItem>, category: Option<int32>, now: Ticks)
      requires Valid()
      modifies this
      ensures Valid()
      ensures items == Upserted(old(items), newItems)
      ensures itemLastSeen == Stamped(old(itemLastSeen), newItems, now)
      ensures itemsByItemId == Indexed(old(itemsByItemId), newItems)
      ensures itemsByCategory == Categorized(old(itemsByCategory), newItems, category)
    {
      for i := 0 to |newItems|
        invariant Valid()
        invariant items == Upserted(old(items), newItems[..i])
        invariant itemLastSeen == Stamped(old(itemLastSeen), newItems[..i], now)
        invariant itemsByItemId == Indexed(old(itemsByItemId), newItems[..i])
        invariant itemsByCategory == Categorized(old(itemsByCategory), newItems[..i], category)
      {
        assert newItems[..i + 1][..i] == newItems[..i];
        Upsert(newItems[i], category, now);
      }
      assert newItems[..|newItems|] == newItems;
    }

    /** The scan of `CleanupExpiredItems`: the ids last seen more than the lifetime ago. */
    method ExpiredIds(now: Ticks) returns (expired: set<uint64>)
      ensures expired == set c | c in itemLastSeen && Expired(now, itemLastSeen[c], ITEM_LIFETIME)
    {
      expired := {};
      var pending := itemLastSeen.Keys;
      while pending != {}
        invariant pending <= itemLastSeen.Keys
        invariant expired == set c | c in itemLastSeen.Keys - pending && Expired(now, itemLastSeen[c], ITEM_LIFETIME)
        decreases pending
      {
        var c :| c in pending;
        if Expired(now, itemLastSeen[c], ITEM_LIFETIME) {
          expired := expired + {c};
        }
        pending := pending - {c};
      }
    }

    /**
     * The inner loop of `CleanupExpiredItems`: over a snapshot of the category
     * keys, the id leaves each set and a set left empty is dropped.
     */
    method RemoveFromCategories(c: uint64)
      modifies this
      ensures itemsByCategory == Uncategorized(old(itemsByCategory), {c})
      ensures items == old(items) && itemsByItemId == old(itemsByItemId) && itemLastSeen == old(itemLastSeen)
    {
      var keys := itemsByCategory.Keys;
      PartlyNothingPending(itemsByCategory, c);
      while keys != {}
        invariant keys <= old(itemsByCategory).Keys
        invariant itemsByCategory == PartlyUncategorized(old(itemsByCategory), keys, c)
        invariant items == old(items) && itemsByItemId == old(itemsByItemId) && itemLastSeen == old(itemLastSeen)
        decreases keys
      {
        var cat :| cat in keys;
        PartlyStep(old(itemsByCategory), keys, cat, c);
        var ids := itemsByCategory[cat] - {c};
        if ids == {} {
          itemsByCategory := itemsByCategory - {cat};
        } else {
          itemsByCategory := itemsByCategory[cat := ids];
        }
        keys := keys - {cat};
      }
      PartlyAllDone(old(itemsByCategory), c);
    }

    /** The removal of one expired listing: the listing, its stamp, its item-id entry and its categories. */
    method RemoveExpired(c: uint64)
      requires Valid() && c in items
      modifies this
      ensures Valid()
      ensures items == old(items) - {c} && itemLastSeen == old(itemLastSeen) - {c}
      ensures itemsByItemId == IndexWithout(old(itemsByItemId), old(items)[c].itemId, c)
      ensures itemsByCategory == Uncategorized(old(itemsByCategory), {c})
    {
      var removed := items[c];
      items := items - {c};
      itemLastSeen := itemLastSeen - {c};
      var id := removed.itemId;
      if id in itemsByItemId {
        var ids := itemsByItemId[id] - {c};
        if ids == {} {
          itemsByItemId := itemsByItemId - {id};
        } else {
          itemsByItemId := itemsByItemId[id := ids];
        }
      }
      RemoveFromCategories(c);
    }

    /** `CleanupExpiredItems`: drops the listings last seen more than the lifetime ago. */
    method CleanupExpired(now: Ticks) returns (removedCount: nat)
      requires Valid()
      modifies this
      ensures Valid()
      ensures items == Unexpired(old(items), old(itemLastSeen), now)
      ensures itemLastSeen == old(itemLastSeen) - (old(items).Keys - items.Keys)
      ensures itemsByItemId == Purged(old(itemsByItemId), old(items), old(items).Keys - items.Keys)
      ensures itemsByCategory == Uncategorized(old(itemsByCategory), old(items).Keys - items.Keys)
      ensures removedCount == |old(items).Keys - items.Keys|
    {
      var expired := ExpiredIds(now);
      removedCount := 0;
      var rest := expired;
      ghost var removed: set<uint64> := {};
      forall id | id in itemsByItemId
        ensures itemsByItemId[id] - RemovedUnder(items, {}, id) == itemsByItemId[id]
      {
        assert RemovedUnder(items, {}, id) == {};
      }
      assert Purged(itemsByItemId, items, {}) == itemsByItemId;
      UncategorizedNothing(itemsByCategory);
      while rest != {}
        invariant Valid()
        invariant rest <= expired
        invariant forall c :: c in removed <==> c in old(items) && c in expired && c !in rest
        invariant items == old(items) - removed
        invariant itemLastSeen == old(itemLastSeen) - removed
        invariant itemsByItemId == Purged(old(itemsByItemId), old(items), removed)
        invariant itemsByCategory == Uncategorized(old(itemsByCategory), removed)
        invariant removedCount == |removed|
        decreases rest
      {
        var c :| c in rest;
        if c in items {
          assert c !in removed;
          SubtractOneMore(old(items), removed, c);
          SubtractOneMore(old(itemLastSeen), removed, c);
          PurgeStep(old(itemsByItemId), old(items), removed, c);
          UncategorizedStep(old(itemsByCategory), removed, c);
          RemoveExpired(c);
          removed := removed + {c};
          removedCount := removedCount + 1;
        }
        rest := rest - {c};
      }
      CleanupResult(old(items), old(itemLastSeen), now, expired, removed);
    }

    /** `ClearAsync`: all four tables empty. */
    method Clear()
      modifies this
      ensures Valid()
      ensures items == map[] && itemsByItemId == map[] && itemsByCategory == map[] && itemLastSeen == map[]
    {
      items := map[];
      itemsByItemId := map[];
      itemsByCategory := map[];
      itemLastSeen := map[];
    }

    /** `GetItemsByItemIdAsync`: only ids still stored are answered, and every stored listing of the item id is. */
    function GetItemsByItemId(id: int32): (r: Listings)
      reads this
      ensures forall c :: c in r ==> c in items && r[c] == items[c]
      ensures Valid() ==> forall c :: c in items && items[c].itemId == id ==> c in r
    {
      Present(items, itemsByItemId, id)
    }

    /** `GetItemsByCategoryAsync`: only ids still stored are answered, and under `Valid` the whole set is. */
    function GetItemsByCategory(cat: int32): (r: Listings)
      reads this
      ensures forall c :: c in r ==> c in items && r[c] == items[c]
      ensures Valid() && cat in itemsByCategory ==> r.Keys == itemsByCategory[cat]
      ensures cat !in itemsByCategory ==> r == map[]
    {
      Present(items, itemsByCategory, cat)
    }

    /** `GetItemsCountAsync`. */
    function GetItemsCount(): (r: nat)
      reads this
      ensures r == |items.Keys|
    {
      |items|
    }
  }

  /** The category index part way through `RemoveFromCategories`: the `pending` sets are still whole. */
  function PartlyUncategorized(categories: Index, pending: set<int32>, c: uint64): Index
  {
    map cat | cat in categories && (cat in pending || categories[cat] - {c} != {})
      :: if cat in pending then categories[cat] else categories[cat] - {c}
  }

  lemma PartlyNothingPending(categories: Index, c: uint64)
    ensures PartlyUncategorized(categories, categories.Keys, c) == categories
  {
  }

  /** One more category key leaves the pending snapshot. */
  lemma PartlyStep(categories: Index, pending: set<int32>, cat: int32, c: uint64)
    requires cat in pending && pending <= categories.Keys
    ensures var before := PartlyUncategorized(categories, pending, c);
      cat in before
      && var ids := before[cat] - {c};
      (if ids == {} then before - {cat} else before[cat := ids]) == PartlyUncategorized(categories, pending - {cat}, c)
  {
    var before := PartlyUncategorized(categories, pending, c);
    var ids := before[cat] - {c};
    var l := if ids == {} then before - {cat} else before[cat := ids];
    var r := PartlyUncategorized(categories, pending - {cat}, c);
    assert l.Keys == r.Keys;
  }

  lemma PartlyAllDone(categories: Index, c: uint64)
    ensures PartlyUncategorized(categories, {}, c) == Uncategorized(categories, {c})
  {
  }

  /** Storing and indexing one listing keeps both indexes valid. */
  lemma UpsertKeepsValid(items: Listings, index: Index, categories: Index, item: WorldExchangeItem, category: Option<int32>)
    requires IndexCovers(items, index) && CategoriesWithin(items, categories)
    ensures var items' := items[item.worldExchangeId := item];
      && IndexCovers(items', IndexWith(index, item.itemId, item.worldExchangeId))
      && CategoriesWithin(items', if category.Some? then IndexWith(categories, category.value, item.worldExchangeId) else categories)
  {
  }
}
