/**
 * The tracking rule shared by `TrackingService` and `MarketQueryService`:
 * which market and item it watches, the price limits of its match, its
 * notification and its auto-buy, and the two fields the tracker updates in
 * place when an item matches, the match count and the time of the last match.
 */
module TrackingRules {
  import opened Bytes
  import opened MarketCommon

  /** `MarketType`: the three markets, and `All` for a rule that watches every one. */
  datatype MarketType = PrivateStore | Commission | WorldExchange | All

  /** `TrackingRule`; the time of the last match is `DateTime.MinValue`, tick 0, until a first match. */
  class TrackingRule {
    const id: string
    const name: string
    const marketType: MarketType
    const itemId: int32
    const maxPrice: int64
    const notificationPrice: int64
    const autoBuyPrice: int64
    const isEnabled: bool
    const hasNotifications: bool
    const hasAutoBuy: bool
    var matchesFound: int32
    var lastMatch: Ticks

    /** A new rule: enabled, with notifications and without auto-buy unless told otherwise, and no match yet. */
    constructor(id: string, name: string, marketType: MarketType, itemId: int32, maxPrice: int64,
                notificationPrice: int64, autoBuyPrice: int64, isEnabled: bool := true,
                hasNotifications: bool := true, hasAutoBuy: bool := false)
      ensures this.id == id && this.name == name && this.marketType == marketType && this.itemId == itemId
      ensures this.maxPrice == maxPrice && this.notificationPrice == notificationPrice
      ensures this.autoBuyPrice == autoBuyPrice && this.isEnabled == isEnabled
      ensures this.hasNotifications == hasNotifications && this.hasAutoBuy == hasAutoBuy
      ensures matchesFound == 0 && lastMatch == 0
    {
      this.id := id;
      this.name := name;
      this.marketType := marketType;
      this.itemId := itemId;
      this.maxPrice := maxPrice;
      this.notificationPrice := notificationPrice;
      this.autoBuyPrice := autoBuyPrice;
      this.isEnabled := isEnabled;
      this.hasNotifications := hasNotifications;
      this.hasAutoBuy := hasAutoBuy;
      matchesFound := 0;
      lastMatch := 0;
    }
  }

  /** No rule appears twice in the list. */
  predicate Distinct(rs: seq<TrackingRule>)
  {
    forall i, j :: 0 <= i < j < |rs| ==> rs[i] != rs[j]
  }
}
