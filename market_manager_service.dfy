/**
 * `MarketManagerService`: one front over the three market trackers. Its
 * overview adds up their listing counts, its searches ask all three and add
 * up the answers, and `ClearAllAsync` empties all three.
 */
module MarketManagerService {
  import opened Bytes
  import opened MarketCommon
  import PS = PrivateStoreService
  import PrivateStorePacket
  import CS = CommissionService
  import WS = WorldExchangeService

  /** `MarketSearchResult` without its timestamp; the three answers are keyed as in their stores. */
  datatype MarketSearchResult = MarketSearchResult(
    itemId: int32,
    privateStoreItems: map<string, PrivateStorePacket.PrivateStoreItem>,
    commissionItems: CS.Listings,
    worldExchangeItems: WS.Listings,
    totalCount: nat)

  /** `MarketOverviewStatistics` without its timestamp. */
  datatype MarketOverviewStatistics = MarketOverviewStatistics(
    privateStores: PS.Statistics,
    commissions: CS.Statistics,
    worldExchange: WS.Statistics,
    totalItems: nat)

  /** The three answers and the sum of their sizes. */
  function Combine(itemId: int32, ps: map<string, PrivateStorePacket.PrivateStoreItem>, cs: CS.Listings, ws: WS.Listings): (r: MarketSearchResult)
    ensures r.totalCount == |ps.Keys| + |cs.Keys| + |ws.Keys|
  {
    MarketSearchResult(itemId, ps, cs, ws, |ps| + |cs| + |ws|)
  }

  class MarketManagerService {
    const privateStores: PS.PrivateStoreService
    const commissions: CS.CommissionService
    const worldExchange: WS.WorldExchangeService

    ghost predicate Valid()
      reads privateStores, commissions, worldExchange
    {
      privateStores.Valid() && commissions.Valid() && worldExchange.Valid()
    }

    constructor(privateStores: PS.PrivateStoreService, commissions: CS.CommissionService,
                worldExchange: WS.WorldExchangeService)
      ensures this.privateStores == privateStores && this.commissions == commissions
      ensures this.worldExchange == worldExchange
    {
      this.privateStores := privateStores;
      this.commissions := commissions;
      this.worldExchange := worldExchange;
    }

    /** `GetOverviewStatisticsAsync` at `currentTime` in Unix seconds: the total is every stored listing of the three markets. */
    ghost function OverviewStatistics(currentTime: int32): (r: MarketOverviewStatistics)
      reads privateStores, commissions, worldExchange
      ensures r.totalItems == |privateStores.items| + |commissions.items| + |worldExchange.items|
      ensures r.totalItems == privateStores.GetItemsCount() + commissions.GetItemsCount() + worldExchange.GetItemsCount()
    {
      var p := PS.StatisticsOf(privateStores.items);
      var c := CS.StatisticsOf(commissions.items, currentTime);
      var w := WS.StatisticsOf(worldExchange.items, worldExchange.itemsByCategory, currentTime);
      MarketOverviewStatistics(p, c, w, p.totalItems + c.totalItems + w.totalItems)
    }

    /** `ClearAllAsync`: the private stores, the commissions and the world exchange are emptied, in that order. */
    method ClearAll()
      modifies privateStores, commissions, worldExchange
      ensures Valid()
      ensures privateStores.items == map[] && privateStores.itemsByItemId == map[] && privateStores.itemLastSeen == map[]
      ensures commissions.items == map[] && commissions.itemsByItemId == map[] && commissions.itemLastSeen == map[]
      ensures worldExchange.items == map[] && worldExchange.itemsByItemId == map[]
      ensures worldExchange.itemsByCategory == map[] && worldExchange.itemLastSeen == map[]
    {
      privateStores.Clear();
      commissions.Clear();
      worldExchange.Clear();
    }

    /**
     * `SearchItemsByItemIdAsync`: the item id is echoed, every stored listing
     * of that item id in each market is answered, only stored listings are
     * answered, and the total is the sum of the three answers.
     */
    function SearchItemsByItemId(itemId: int32): (r: MarketSearchResult)
      reads privateStores, commissions, worldExchange
      ensures r.itemId == itemId
      ensures r.totalCount == |r.privateStoreItems.Keys| + |r.commissionItems.Keys| + |r.worldExchangeItems.Keys|
      ensures r.privateStoreItems.Keys <= privateStores.items.Keys && r.commissionItems.Keys <= commissions.items.Keys
      ensures r.worldExchangeItems.Keys <= worldExchange.items.Keys
      ensures r.totalCount <= |privateStores.items| + |commissions.items| + |worldExchange.items|
      ensures Valid() ==> forall k :: (k in privateStores.items && privateStores.items[k].itemInfo.itemId == itemId
        ==> k in r.privateStoreItems)
      ensures Valid() ==> forall c :: (c in commissions.items && CS.ItemIdOf(commissions.items[c]) == itemId
        ==> c in r.commissionItems)
      ensures Valid() ==> forall c :: (c in worldExchange.items && worldExchange.items[c].itemId == itemId
        ==> c in r.worldExchangeItems)
    {
      var ps := privateStores.GetItemsByItemId(itemId);
      var cs := commissions.GetItemsByItemId(itemId);
      var ws := worldExchange.GetItemsByItemId(itemId);
      SubsetNoLarger(ps.Keys, privateStores.items.Keys);
      SubsetNoLarger(cs.Keys, commissions.items.Keys);
      SubsetNoLarger(ws.Keys, worldExchange.items.Keys);
      Combine(itemId, ps, cs, ws)
    }

    /**
     * `SearchItemsByPriceRangeAsync`: the item id is 0, each market answers
     * exactly its listings whose price lies in the inclusive range (the world
     * exchange comparing its price as signed), and the total is the sum.
     */
    function SearchItemsByPriceRange(minPrice: int64, maxPrice: int64): (r: MarketSearchResult)
      reads privateStores, commissions, worldExchange
      ensures r.itemId == 0
      ensures r.totalCount == |r.privateStoreItems.Keys| + |r.commissionItems.Keys| + |r.worldExchangeItems.Keys|
      ensures forall k :: k in r.privateStoreItems <==>
        k in privateStores.items && minPrice <= privateStores.items[k].price <= maxPrice
      ensures forall c :: c in r.commissionItems <==>
        c in commissions.items && minPrice <= commissions.items[c].pricePerUnit <= maxPrice
      ensures forall c :: c in r.worldExchangeItems <==>
        c in worldExchange.items && minPrice <= Int64Of(worldExchange.items[c].price) <= maxPrice
    {
      Combine(0,
        PS.Select(privateStores.items, PS.PriceRange(minPrice, maxPrice)),
        CS.Select(commissions.items, CS.PriceRange(minPrice, maxPrice)),
        WS.Select(worldExchange.items, WS.PriceRange(minPrice, maxPrice)))
    }
  }
}
