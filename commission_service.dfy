/**
 * The commission-house tracker `CommissionService`: listings keyed by their
 * commission id, an index from item id to commission ids, and the time each
 * listing was last seen. An update only adds or replaces listings (the last
 * listing of a batch with a given id wins); listings leave only through the
 * cleanup timer, once they have not been seen for more than ten minutes.
 *
 * The index is only ever added to by an update and only the listing's current
 * item id is cleaned, so it covers every listing but may hold stale entries:
 * a commission id re-listed under another item id stays under the old one.
 */
module CommissionService {
  import opened Bytes
  import opened Wrappers
  import opened Utf16
  import opened ItemInfos
  import opened CommissionPacket
  import opened MarketCommon

  /** A listing unseen for longer than this is dropped by the cleanup. */
  const ITEM_LIFETIME: Ticks := 10 * TICKS_PER_MINUTE

  /** The window of the `ExpiringSoon` statistic, in seconds. */
  const EXPIRING_SOON: int32 := 3600

  /** The enchant level from which a listing counts as highly enchanted. */
  const HIGH_ENCHANT: int32 := 10

  type Listings = map<int64, CommissionItem>
  type Index = map<int32, set<int64>>

  function ItemIdOf(item: CommissionItem): int32
  {
    item.itemInfo.itemId
  }

  /** The commission ids of a batch. */
  function Ids(batch: seq<CommissionItem>): set<int64>
  {
    set x | x in batch :: x.commissionId
  }

  /** Every listing is in the index set of its item id, and no index set is empty. */
  ghost predicate IndexCovers(items: Listings, index: Index)
  {
    (forall id :: id in index ==> index[id] != {})
    && (forall c :: c in items ==> ItemIdOf(items[c]) in index && c in index[ItemIdOf(items[c])])
  }

  // ---------------------------------------------------------------------
  // The update, as functions of the old tables.

  /** The listings after `AddOrUpdate` of each listing of the batch, in order. */
  function Upserted(items: Listings, batch: seq<CommissionItem>): (r: Listings)
    decreases |batch|
  {
    if |batch| == 0 then items
    else
      var last := batch[|batch| - 1];
      Upserted(items, batch[..|batch| - 1])[last.commissionId := last]
  }

  /** The last-seen times after each listing of the batch is stamped with `now`. */
  function Stamped(seen: map<int64, Ticks>, batch: seq<CommissionItem>, now: Ticks): (r: map<int64, Ticks>)
    decreases |batch|
  {
    if |batch| == 0 then seen
    else Stamped(seen, batch[..|batch| - 1], now)[batch[|batch| - 1].commissionId := now]
  }

  /** The index after each listing's id joins the set of its item id. */
  function Indexed(index: Index, batch: seq<CommissionItem>): (r: Index)
    decreases |batch|
  {
    if |batch| == 0 then index
    else
      var last := batch[|batch| - 1];
      IndexWith(Indexed(index, batch[..|batch| - 1]), ItemIdOf(last), last.commissionId)
  }

  lemma PrefixIds(batch: seq<CommissionItem>)
    requires |batch| > 0
    ensures Ids(batch) == Ids(batch[..|batch| - 1]) + {batch[|batch| - 1].commissionId}
  {
    assert batch == batch[..|batch| - 1] + [batch[|batch| - 1]];
  }

  /** The update keeps every listing and adds exactly the batch's ids. */
  lemma {:induction false} UpsertedKeys(items: Listings, batch: seq<CommissionItem>)
    ensures Upserted(items, batch).Keys == items.Keys + Ids(batch)
    decreases |batch|
  {
    if |batch| > 0 {
      UpsertedKeys(items, batch[..|batch| - 1]);
      PrefixIds(batch);
    }
  }

  /** A listing whose id the batch does not carry is left as it was. */
  lemma {:induction false} UpsertedKeepsOthers(items: Listings, batch: seq<CommissionItem>, c: int64)
    requires c in items && c !in Ids(batch)
    ensures c in Upserted(items, batch) && Upserted(items, batch)[c] == items[c]
    decreases |batch|
  {
    if |batch| > 0 {
      PrefixIds(batch);
      UpsertedKeepsOthers(items, batch[..|batch| - 1], c);
    }
  }

  /** The last listing of the batch with a given id is the one stored. */
  lemma {:induction false} UpsertedLastWins(items: Listings, batch: seq<CommissionItem>, i: nat)
    requires i < |batch|
    requires forall j :: i < j < |batch| ==> batch[j].commissionId != batch[i].commissionId
    ensures batch[i].commissionId in Upserted(items, batch)
    ensures Upserted(items, batch)[batch[i].commissionId] == batch[i]
    decreases |batch|
  {
    if i < |batch| - 1 {
      UpsertedLastWins(items, batch[..|batch| - 1], i);
    }
  }

  /** Every listing of the batch is stamped with `now`; other stamps are kept. */
  lemma {:induction false} StampedExact(seen: map<int64, Ticks>, batch: seq<CommissionItem>, now: Ticks, c: int64)
    ensures c in Stamped(seen, batch, now) <==> c in seen || c in Ids(batch)
    ensures c in Ids(batch) ==> Stamped(seen, batch, now)[c] == now
    ensures c in seen && c !in Ids(batch) ==> Stamped(seen, batch, now)[c] == seen[c]
    decreases |batch|
  {
    if |batch| > 0 {
      PrefixIds(batch);
      StampedExact(seen, batch[..|batch| - 1], now, c);
    }
  }

  /** The update keeps the index covering the listings. */
  lemma {:induction false} IndexedCovers(items: Listings, index: Index, batch: seq<CommissionItem>)
    requires IndexCovers(items, index)
    ensures IndexCovers(Upserted(items, batch), Indexed(index, batch))
    decreases |batch|
  {
    if |batch| > 0 {
      IndexedCovers(items, index, batch[..|batch| - 1]);
    }
  }

  /** The update never takes an id out of an index set. */
  lemma {:induction false} IndexedGrows(index: Index, batch: seq<CommissionItem>, id: int32)
    requires id in index
    ensures id in Indexed(index, batch) && index[id] <= Indexed(index, batch)[id]
    decreases |batch|
  {
    if |batch| > 0 {
      IndexedGrows(index, batch[..|batch| - 1], id);
    }
  }

  // ---------------------------------------------------------------------
  // The cleanup, as functions of the old tables.

  /** The listings seen within the lifetime. */
  function Unexpired(items: Listings, seen: map<int64, Ticks>, now: Ticks): (r: Listings)
    requires items.Keys <= seen.Keys
  {
    map c | c in items && !Expired(now, seen[c], ITEM_LIFETIME) :: items[c]
  }

  /** The removed listings whose item id is `id`. */
  function RemovedUnder(items: Listings, gone: set<int64>, id: int32): set<int64>
  {
    set c | c in gone && c in items && ItemIdOf(items[c]) == id
  }

  /** The index once each removed listing has left the set of its own item id. */
  function Purged(index: Index, items: Listings, gone: set<int64>): (r: Index)
  {
    map id | id in index && index[id] - RemovedUnder(items, gone, id) != {} :: index[id] - RemovedUnder(items, gone, id)
  }

  /** Removing one more listing from the purged index purges it too. */
  lemma PurgeStep(index: Index, items: Listings, gone: set<int64>, c: int64)
    requires c in items && c !in gone
    ensures IndexWithout(Purged(index, items, gone), ItemIdOf(items[c]), c) == Purged(index, items, gone + {c})
  {
    var id := ItemIdOf(items[c]);
    var l := IndexWithout(Purged(index, items, gone), id, c);
    var r := Purged(index, items, gone + {c});
    forall i
      ensures RemovedUnder(items, gone + {c}, i) == RemovedUnder(items, gone, i) + (if i == id then {c} else {})
    {
    }
    if id in index {
      assert (index[id] - RemovedUnder(items, gone, id)) - {c} == index[id] - RemovedUnder(items, gone + {c}, id);
    }
    assert l.Keys == r.Keys;
    forall i | i in l
      ensures l[i] == r[i]
    {
    }
  }

  /** Keeping exactly the listings seen within the lifetime. */
  lemma CleanupExact(items: Listings, seen: map<int64, Ticks>, now: Ticks, c: int64)
    requires items.Keys <= seen.Keys
    ensures c in Unexpired(items, seen, now) <==> c in items && now - seen[c] <= ITEM_LIFETIME
  {
  }

  /** The cleanup loop's removals are exactly the expired listings. */
  lemma CleanupResult(items: Listings, seen: map<int64, Ticks>, now: Ticks, expired: set<int64>, removed: set<int64>)
    requires items.Keys == seen.Keys
    requires expired == set c | c in seen && Expired(now, seen[c], ITEM_LIFETIME)
    requires forall c :: c in removed <==> c in items && c in expired
    ensures removed == items.Keys - Unexpired(items, seen, now).Keys
    ensures items - removed == Unexpired(items, seen, now)
  {
  }

  /** Only the expired listings' own item ids lose entries; stale entries elsewhere stay. */
  lemma PurgedKeepsOthers(index: Index, items: Listings, gone: set<int64>, id: int32, c: int64)
    requires id in index && c in index[id]
    requires c !in gone || c !in items || ItemIdOf(items[c]) != id
    ensures id in Purged(index, items, gone) && c in Purged(index, items, gone)[id]
  {
    assert c in index[id] - RemovedUnder(items, gone, id);
  }

  // ---------------------------------------------------------------------
  // Queries.

  /** The filters of the `GetItemsBy*` and `GetItemsWith*` queries. */
  datatype Query =
    | PriceRange(minPrice: int64, maxPrice: int64)
    | SellerNamed(sellerName: Units, upper: Unit -> Unit)
    | CommissionTypeIs(commissionType: int32)
    | AnyReplyType(replyType: int32)
    | DurationTypeIs(durationType: int32)
    | WithAugmentation
    | WithElementalAttributes
    | WithSoulCrystal
    | WithVisualId
    | EnchantRange(minEnchant: int32, maxEnchant: int32)
    | EndsWithin(currentTime: int32, maxTimeRemaining: int32)

  /** `EndTime - currentTime` in unchecked 32-bit arithmetic. */
  function Remaining(item: CommissionItem, currentTime: int32): int32
  {
    Wrap32(item.endTime - currentTime)
  }

  predicate Matches(q: Query, item: CommissionItem)
  {
    var info := item.itemInfo;
    match q
    case PriceRange(lo, hi) => lo <= item.pricePerUnit <= hi
    case SellerNamed(name, upper) =>
      item.sellerName.Some? && |item.sellerName.value| > 0 && EqualsIgnoreCase(item.sellerName.value, name, upper)
    case CommissionTypeIs(t) => item.commissionItemType == t
    case AnyReplyType(_) => true
    case DurationTypeIs(t) => item.durationType == t
    case WithAugmentation => info.augmentation.Some? && |info.augmentation.value| > 0
    case WithElementalAttributes => info.elementalAttrs.Some? && |info.elementalAttrs.value| > 0
    case WithSoulCrystal => info.soulCrystalOptions.Some? && |info.soulCrystalOptions.value| > 0
    case WithVisualId => info.visualId.Some?
    case EnchantRange(lo, hi) => lo <= info.enchantLevel <= hi
    case EndsWithin(now, most) => Remaining(item, now) <= most
  }

  /** The stored listings a filter keeps, under their ids (the order of `Values` is not modelled). */
  function Select(items: Listings, q: Query): (r: Listings)
    ensures forall c :: c in r <==> c in items && Matches(q, items[c])
    ensures forall c :: c in r ==> r[c] == items[c]
  {
    map c | c in items && Matches(q, items[c]) :: items[c]
  }

  /** The listings of an item id, found through the index: only ids still stored are answered. */
  function ItemsUnder(items: Listings, index: Index, id: int32): (r: Listings)
    ensures forall c :: c in r ==> c in items && r[c] == items[c]
    ensures IndexCovers(items, index) ==> forall c :: c in items && ItemIdOf(items[c]) == id ==> c in r
  {
    if id in index then map c | c in index[id] && c in items :: items[c] else map[]
  }

  /** The price filter includes both of its bounds. */
  lemma PriceRangeInclusive(items: Listings, c: int64, lo: int64, hi: int64)
    requires c in items && lo <= hi && (items[c].pricePerUnit == lo || items[c].pricePerUnit == hi)
    ensures c in Select(items, PriceRange(lo, hi))
  {
  }

  /** A listing without a seller name is never found by name, not even by the empty name. */
  lemma NamelessSellerNeverMatches(item: CommissionItem, name: Units, upper: Unit -> Unit)
    requires item.sellerName == None || item.sellerName == Some([])
    ensures !Matches(SellerNamed(name, upper), item)
  {
  }

  /** The reply-type query answers every listing, whatever the reply type. */
  lemma ReplyTypeSelectsAll(items: Listings, replyType: int32)
    ensures Select(items, AnyReplyType(replyType)) == items
  {
  }

  /** With both times non-negative the difference cannot wrap, so the filter is the plain one. */
  lemma EndsWithinPlain(item: CommissionItem, currentTime: int32, most: int32)
    requires item.endTime >= 0 && currentTime >= 0
    ensures Matches(EndsWithin(currentTime, most), item) <==> item.endTime - currentTime <= most
  {
  }

  /** A listing that ended long ago can look far from ending once the difference wraps. */
  lemma EndsWithinWraps(item: CommissionItem)
    requires item.endTime == -0x8000_0000
    ensures !Matches(EndsWithin(1, 0), item)
  {
  }

  /**
   * A commission id re-listed under another item id in one batch stays in the
   * old item id's index set, so the query for the old item id answers the new
   * listing.
   */
  lemma RelistedStaysUnderOldItemId(items: Listings, index: Index, x: CommissionItem, y: CommissionItem)
    requires x.commissionId == y.commissionId && ItemIdOf(x) != ItemIdOf(y)
    ensures var r := ItemsUnder(Upserted(items, [x, y]), Indexed(index, [x, y]), ItemIdOf(x));
      x.commissionId in r && ItemIdOf(r[x.commissionId]) == ItemIdOf(y)
  {
    assert [x, y][..1] == [x];
    assert [x][..0] == [];
  }

  // ---------------------------------------------------------------------
  // Statistics.

  /** The number of stored listings a filter keeps. */
  function Count(items: Listings, q: Query): (r: nat)
    ensures r <= |items|
  {
    var kept := Select(items, q).Keys;
    SubsetNoLarger(kept, items.Keys);
    |kept|
  }

  /** The prices of the stored listings. */
  function Prices(items: Listings): (r: set<int>)
    ensures forall c :: c in items ==> items[c].pricePerUnit in r
    ensures forall p :: p in r ==> exists c :: c in items && items[c].pricePerUnit == p
  {
    set c | c in items :: items[c].pricePerUnit as int
  }

  function SellerNameOf(item: CommissionItem): Units
  {
    if item.sellerName.Some? then item.sellerName.value else []
  }

  /** The non-empty seller names, compared ordinally as `Distinct` does. */
  function Sellers(items: Listings): (r: set<Units>)
    ensures |r| <= |items|
  {
    var names := SellerNames(items);
    ValuesNoMore(names);
    SubsetNoLarger(names.Keys, items.Keys);
    names.Values
  }

  function SellerNames(items: Listings): map<int64, Units>
  {
    map c | c in items && |SellerNameOf(items[c])| > 0 :: SellerNameOf(items[c])
  }

  /** Exactly the non-empty names of the listings' sellers are counted. */
  lemma SellersExact(items: Listings, name: Units)
    ensures name in Sellers(items) <==> |name| > 0 && exists c :: c in items && SellerNameOf(items[c]) == name
  {
    if |name| > 0 && exists c :: c in items && SellerNameOf(items[c]) == name {
      var c :| c in items && SellerNameOf(items[c]) == name;
      assert SellerNames(items)[c] == name;
    }
  }

  /** The distinct item ids. */
  function ItemTypes(items: Listings): (r: set<int32>)
    ensures |r| <= |items|
  {
    var ids := ItemIds(items);
    ValuesNoMore(ids);
    assert ids.Keys == items.Keys;
    ids.Values
  }

  function ItemIds(items: Listings): map<int64, int32>
  {
    map c | c in items :: ItemIdOf(items[c])
  }

  /** Exactly the item ids of the listings are counted. */
  lemma ItemTypesExact(items: Listings, id: int32)
    ensures id in ItemTypes(items) <==> exists c :: c in items && ItemIdOf(items[c]) == id
  {
    if exists c :: c in items && ItemIdOf(items[c]) == id {
      var c :| c in items && ItemIdOf(items[c]) == id;
      assert ItemIds(items)[c] == id;
    }
  }

  /** The number of listings whose item is blessed. */
  function BlessedCount(items: Listings): (r: nat)
    ensures r <= |items|
    ensures r == 0 <==> forall c :: c in items ==> items[c].itemInfo.blessed != Some(true)
  {
    var blessed := set c | c in items && items[c].itemInfo.blessed == Some(true);
    SubsetNoLarger(blessed, items.Keys);
    assert forall c :: c in items && items[c].itemInfo.blessed == Some(true) ==> c in blessed;
    assert (forall c :: c !in blessed) ==> blessed == {};
    |blessed|
  }

  /** LINQ's `Min` of the prices, or 0 without listings. */
  ghost function MinPrice(items: Listings): (r: int)
    ensures items == map[] ==> r == 0
    ensures items != map[] ==> r in Prices(items)
    ensures forall c :: c in items ==> r <= items[c].pricePerUnit
  {
    if items == map[] then 0 else
    assert (forall c :: c !in items) ==> items == map[];
    SetMin(Prices(items))
  }

  /** LINQ's `Max` of the prices, or 0 without listings. */
  ghost function MaxPrice(items: Listings): (r: int)
    ensures items == map[] ==> r == 0
    ensures items != map[] ==> r in Prices(items)
    ensures forall c :: c in items ==> items[c].pricePerUnit <= r
  {
    if items == map[] then 0 else
    assert (forall c :: c !in items) ==> items == map[];
    SetMax(Prices(items))
  }

  datatype Statistics = Statistics(
    totalItems: nat,
    uniqueSellers: nat,
    uniqueItemTypes: nat,
    minPrice: int,
    maxPrice: int,
    expiringSoon: nat,
    withAugmentation: nat,
    withElementalAttrs: nat,
    withSoulCrystal: nat,
    withVisualId: nat,
    highEnchantItems: nat,
    blessedItems: nat)

  /** `GetStatisticsAsync` at `currentTime` in Unix seconds, without the average price. */
  ghost function StatisticsOf(items: Listings, currentTime: int32): (r: Statistics)
    ensures r.totalItems == |items|
    ensures items == map[] ==> r.minPrice == 0 && r.maxPrice == 0
    ensures forall c :: c in items ==> r.minPrice <= items[c].pricePerUnit <= r.maxPrice
    ensures items != map[] ==> r.minPrice in Prices(items) && r.maxPrice in Prices(items)
    ensures r.uniqueSellers <= |items| && r.uniqueItemTypes <= |items| && r.blessedItems <= |items|
    ensures r.expiringSoon <= |items| && r.withAugmentation <= |items| && r.withElementalAttrs <= |items|
    ensures r.withSoulCrystal <= |items| && r.withVisualId <= |items| && r.highEnchantItems <= |items|
  {
    Statistics(
      |items|,
      |Sellers(items)|,
      |ItemTypes(items)|,
      MinPrice(items),
      MaxPrice(items),
      Count(items, EndsWithin(currentTime, EXPIRING_SOON)),
      Count(items, WithAugmentation),
      Count(items, WithElementalAttributes),
      Count(items, WithSoulCrystal),
      Count(items, WithVisualId),
      Count(items, EnchantRange(HIGH_ENCHANT, 0xFFFF)),
      BlessedCount(items))
  }

  /** Each counted feature of the statistics is the size of the matching query's answer. */
  lemma StatisticsCountQueries(items: Listings, currentTime: int32)
    ensures var r := StatisticsOf(items, currentTime);
      && r.expiringSoon == |Select(items, EndsWithin(currentTime, EXPIRING_SOON)).Keys|
      && r.withAugmentation == |Select(items, WithAugmentation).Keys|
      && r.withElementalAttrs == |Select(items, WithElementalAttributes).Keys|
      && r.withSoulCrystal == |Select(items, WithSoulCrystal).Keys|
      && r.withVisualId == |Select(items, WithVisualId).Keys|
      && r.highEnchantItems == |Select(items, EnchantRange(HIGH_ENCHANT, 0xFFFF)).Keys|
  {
  }

  // ---------------------------------------------------------------------
  // The service.

  class CommissionService {
    var items: Listings
    var itemsByItemId: Index
    var itemLastSeen: map<int64, Ticks>

    /** The index covers the listings, and exactly the listings have a last-seen time. */
    ghost predicate Valid()
      reads this
    {
      IndexCovers(items, itemsByItemId) && itemLastSeen.Keys == items.Keys
    }

    constructor()
      ensures Valid()
      ensures items == map[] && itemsByItemId == map[] && itemLastSeen == map[]
    {
      items := map[];
      itemsByItemId := map[];
      itemLastSeen := map[];
    }

    /** One step of `UpdateItemsAsync`: store, stamp and index one listing. */
    method Upsert(item: CommissionItem, now: Ticks)
      requires Valid()
      modifies this
      ensures Valid()
      ensures items == old(items)[item.commissionId := item]
      ensures itemLastSeen == old(itemLastSeen)[item.commissionId := now]
      ensures itemsByItemId == IndexWith(old(itemsByItemId), ItemIdOf(item), item.commissionId)
    {
      items := items[item.commissionId := item];
      itemLastSeen := itemLastSeen[item.commissionId := now];
      var id := ItemIdOf(item);
      if id in itemsByItemId {
        itemsByItemId := itemsByItemId[id := itemsByItemId[id] + {item.commissionId}];
      } else {
        itemsByItemId := itemsByItemId[id := {item.commissionId}];
      }
    }

    /** `UpdateItemsAsync` (the body of `HandleCommissionUpdated`): every listing of the batch, in order. */
    method UpdateItems(newItems: seq<CommissionItem>, now: Ticks)
      requires Valid()
      modifies this
      ensures Valid()
      ensures items == Upserted(old(items), newItems)
      ensures itemLastSeen == Stamped(old(itemLastSeen), newItems, now)
      ensures itemsByItemId == Indexed(old(itemsByItemId), newItems)
    {
      for i := 0 to |newItems|
        invariant Valid()
        invariant items == Upserted(old(items), newItems[..i])
        invariant itemLastSeen == Stamped(old(itemLastSeen), newItems[..i], now)
        invariant itemsByItemId == Indexed(old(itemsByItemId), newItems[..i])
      {
        assert newItems[..i + 1][..i] == newItems[..i];
        Upsert(newItems[i], now);
      }
      assert newItems[..|newItems|] == newItems;
    }

    /** The scan of `CleanupExpiredItems`: the ids last seen more than the lifetime ago. */
    method ExpiredIds(now: Ticks) returns (expired: set<int64>)
      ensures expired == set c | c in itemLastSeen && Expired(now, itemLastSeen[c], ITEM_LIFETIME)
    {
      expired := {};
      var pending := itemLastSeen.Keys;
      while pending != {}
        invariant pending <= itemLastSeen.Keys
        invariant expired == set c | c in itemLastSeen.Keys - pending && Expired(now, itemLastSeen[c], ITEM_LIFETIME)
        decreases pending
      {
        var c :| c in pending;
        if Expired(now, itemLastSeen[c], ITEM_LIFETIME) {
          expired := expired + {c};
        }
        pending := pending - {c};
      }
    }

    /** The removal of one expired listing: the listing, its stamp, and its id under its item id. */
    method RemoveExpired(c: int64)
      requires Valid() && c in items
      modifies this
      ensures Valid()
      ensures items == old(items) - {c} && itemLastSeen == old(itemLastSeen) - {c}
      ensures itemsByItemId == IndexWithout(old(itemsByItemId), ItemIdOf(old(items)[c]), c)
    {
      var removed := items[c];
      items := items - {c};
      itemLastSeen := itemLastSeen - {c};
      var id := ItemIdOf(removed);
      if id in itemsByItemId {
        var ids := itemsByItemId[id] - {c};
        if ids == {} {
          itemsByItemId := itemsByItemId - {id};
        } else {
          itemsByItemId := itemsByItemId[id := ids];
        }
      }
    }

    /** `CleanupExpiredItems`: drops the listings last seen more than the lifetime ago. */
    method CleanupExpired(now: Ticks) returns (removedCount: nat)
      requires Valid()
      modifies this
      ensures Valid()
      ensures items == Unexpired(old(items), old(itemLastSeen), now)
      ensures itemLastSeen == old(itemLastSeen) - (old(items).Keys - items.Keys)
      ensures itemsByItemId == Purged(old(itemsByItemId), old(items), old(items).Keys - items.Keys)
      ensures removedCount == |old(items).Keys - items.Keys|
    {
      var expired := ExpiredIds(now);
      removedCount := 0;
      var rest := expired;
      ghost var removed: set<int64> := {};
      forall id | id in itemsByItemId
        ensures itemsByItemId[id] - RemovedUnder(items, {}, id) == itemsByItemId[id]
      {
        assert RemovedUnder(items, {}, id) == {};
      }
      assert Purged(itemsByItemId, items, {}) == itemsByItemId;
      while rest != {}
        invariant Valid()
        invariant rest <= expired
        invariant forall c :: c in removed <==> c in old(items) && c in expired && c !in rest
        invariant items == old(items) - removed
        invariant itemLastSeen == old(itemLastSeen) - removed
        invariant itemsByItemId == Purged(old(itemsByItemId), old(items), removed)
        invariant removedCount == |removed|
        decreases rest
      {
        var c :| c in rest;
        if c in items {
          assert c !in removed;
          SubtractOneMore(old(items), removed, c);
          SubtractOneMore(old(itemLastSeen), removed, c);
          PurgeStep(old(itemsByItemId), old(items), removed, c);
          RemoveExpired(c);
          removed := removed + {c};
          removedCount := removedCount + 1;
        }
        rest := rest - {c};
      }
      CleanupResult(old(items), old(itemLastSeen), now, expired, removed);
    }

    /** `ClearAsync`: all three tables empty. */
    method Clear()
      modifies this
      ensures Valid()
      ensures items == map[] && itemsByItemId == map[] && itemLastSeen == map[]
    {
      items := map[];
      itemsByItemId := map[];
      itemLastSeen := map[];
    }

    /** `GetItemsByItemIdAsync`. */
    function GetItemsByItemId(id: int32): (r: Listings)
      reads this
      ensures forall c :: c in r ==> c in items && r[c] == items[c]
      ensures Valid() ==> forall c :: c in items && ItemIdOf(items[c]) == id ==> c in r
    {
      ItemsUnder(items, itemsByItemId, id)
    }

    /** `GetItemsCountAsync`. */
    function GetItemsCount(): (r: nat)
      reads this
      ensures r == |items.Keys|
    {
      |items|
    }
  }
}
