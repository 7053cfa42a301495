/**
 * `AutoBuyService`: the money set aside for automatic purchases, and the
 * purchase of a tracked match. A purchase is refused when the price exceeds
 * the money; otherwise the purchase is attempted, and only a successful one
 * takes the price off the money. The balance is a C# long: it wraps.
 *
 * Whether the game confirms a purchase is not something the service
 * decides; the model takes it as a parameter.
 */
module AutoBuyService {
  import opened Bytes
  import opened Wrappers
  import TrackingService
  import MarketDecoders

  /** The money a new service starts with. */
  const INITIAL_MONEY: int64 := 10_000_000

  class AutoBuyService {
    var availableMoney: int64

    constructor()
      ensures availableMoney == INITIAL_MONEY
    {
      availableMoney := INITIAL_MONEY;
    }

    /** `CanAffordAsync`: the price is at most the money. */
    predicate CanAfford(price: int64)
      reads this
    {
      availableMoney >= price
    }

    /**
     * `TryAutoBuyAsync` as written: no match, or a price above the money,
     * buys nothing; otherwise the purchase is attempted (the item always
     * counts as still available) and a successful one subtracts the price,
     * with 64-bit wrap-around.
     */
    method TryAutoBuy(found: Option<TrackingService.ItemMatch>, purchaseSucceeds: bool) returns (bought: bool)
      modifies this
      ensures bought <==> found.Some? && found.value.item.price <= old(availableMoney) && purchaseSucceeds
      ensures bought ==> availableMoney == Wrap64(old(availableMoney) - found.value.item.price)
      ensures !bought ==> availableMoney == old(availableMoney)
    {
      if found.None? {
        return false;
      }
      var price := found.value.item.price;
      if !CanAfford(price) {
        return false;
      }
      if purchaseSucceeds {
        availableMoney := Wrap64(availableMoney - price);
      }
      return purchaseSucceeds;
    }

    /**
     * `TryAutoBuyAsync` with the price also required not to be negative: a
     * successful purchase then leaves the money between zero and what it was.
     */
    method TryAutoBuyChecked(found: Option<TrackingService.ItemMatch>, purchaseSucceeds: bool) returns (bought: bool)
      requires availableMoney >= 0
      modifies this
      ensures bought <==> found.Some? && 0 <= found.value.item.price <= old(availableMoney) && purchaseSucceeds
      ensures bought ==> availableMoney == old(availableMoney) - found.value.item.price
      ensures 0 <= availableMoney <= old(availableMoney)
    {
      if found.None? {
        return false;
      }
      var price := found.value.item.price;
      if price < 0 || !CanAfford(price) {
        return false;
      }
      if purchaseSucceeds {
        availableMoney := availableMoney - price;
      }
      return purchaseSucceeds;
    }

    /** `AddMoneyAsync`: the amount is added, with 64-bit wrap-around. */
    method AddMoney(amount: int64)
      modifies this
      ensures availableMoney == Wrap64(old(availableMoney) + amount)
      ensures old(availableMoney) + amount <= INT64_MAX && old(availableMoney) + amount >= -INT64_MAX - 1 ==>
        availableMoney == old(availableMoney) + amount
    {
      WrapInRange(availableMoney + amount);
      availableMoney := Wrap64(availableMoney + amount);
    }

    /** `GetFormattedMoney`: the money in billions, millions or thousands, as `FormatPrice` writes a price. */
    function GetFormattedMoney(): (r: MarketDecoders.PriceText)
      reads this
      ensures r == MarketDecoders.FormatPrice(availableMoney)
    {
      if availableMoney >= 1_000_000_000 then MarketDecoders.Scaled(availableMoney, 1_000_000_000, "B")
      else if availableMoney >= 1_000_000 then MarketDecoders.Scaled(availableMoney, 1_000_000, "M")
      else if availableMoney >= 1_000 then MarketDecoders.Scaled(availableMoney, 1_000, "K")
      else MarketDecoders.Grouped(availableMoney)
    }
  }

  /** A value already in the 64-bit range wraps to itself. */
  lemma WrapInRange(x: int)
    ensures -INT64_MAX - 1 <= x <= INT64_MAX ==> Wrap64(x) == x
  {
    if -INT64_MAX - 1 <= x <= INT64_MAX {
      if x < 0 {
        assert x % 0x1_0000_0000_0000_0000 == x + 0x1_0000_0000_0000_0000;
      } else {
        assert x % 0x1_0000_0000_0000_0000 == x;
      }
    }
  }

  /**
   * A purchase at a price that is not negative and at most the money leaves
   * the money between zero and what it was, without wrapping.
   */
  lemma AffordablePurchaseInRange(money: int64, price: int64)
    requires 0 <= price <= money
    ensures Wrap64(money - price) == money - price
    ensures 0 <= Wrap64(money - price) <= money
  {
    WrapInRange(money - price);
  }

  /**
   * The balance check lets a negative price through: with the initial money,
   * a price of `long.MinValue` (a world-exchange price of 2^63 read as
   * signed) is affordable, and its successful purchase wraps the money to a
   * negative value.
   */
  lemma NegativePriceWrapsMoney()
    ensures var price: int64 := -INT64_MAX - 1;
      price <= INITIAL_MONEY && Wrap64(INITIAL_MONEY - price) < 0
  {
    var price: int64 := -INT64_MAX - 1;
    assert (INITIAL_MONEY - price) % 0x1_0000_0000_0000_0000 == INITIAL_MONEY - price;
  }
}
