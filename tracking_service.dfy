/**
 * `TrackingService`: tracking rules keyed by their id, and the check of each
 * market update against them. A batch of rows is checked row by row against
 * every enabled rule that watches the batch's market or all markets; a match
 * counts on the rule, stamps its last-match time, and fires a notification
 * and an auto-buy when the row's price is within the rule's limits for each.
 *
 * The rules dictionary enumerates its keys in an order the model takes as a
 * parameter; the two event streams are returned as the sequences of matches
 * they carry, in the order they are raised.
 */
module TrackingService {
  import opened Bytes
  import opened Text
  import opened MarketCommon
  import opened TrackingRules
  import MarketItemView
  import PrivateStorePacket
  import CommissionPacket
  import WorldExchangePacket

  type ItemView = MarketItemView.ItemView

  /** `ItemMatch`: the rule, the matching row and the time the match was found. */
  datatype ItemMatch = ItemMatch(rule: TrackingRule, item: ItemView, foundAt: Ticks)

  /** The two events a match can raise: `ItemMatchFound` and `AutoBuyTriggered`. */
  datatype Action = Notify | AutoBuy

  /** `MatchesRule`: a numeric item id must be the rule's (any other item id passes), and the price must not exceed the rule's maximum. */
  predicate MatchesRule(item: ItemView, rule: TrackingRule)
  {
    var id := ParseInt32(item.itemId);
    !(id.Some? && id.value != rule.itemId) && item.price <= rule.maxPrice
  }

  /** A rule takes part in a batch of `marketType` when it is enabled and watches that market or every market. */
  predicate Applies(rule: TrackingRule, marketType: MarketType)
  {
    rule.isEnabled && (rule.marketType == marketType || rule.marketType == All)
  }

  /** Whether a match raises the event: the rule asks for it and the price is at most the rule's limit for it. */
  predicate Fires(action: Action, m: ItemMatch)
  {
    match action
    case Notify => m.rule.hasNotifications && m.item.price <= m.rule.notificationPrice
    case AutoBuy => m.rule.hasAutoBuy && m.item.price <= m.rule.autoBuyPrice
  }

  /** Every rule is stored under its own id. */
  predicate Keyed(rules: map<string, TrackingRule>)
  {
    forall k :: k in rules ==> rules[k].id == k
  }

  /** `order` lists every key of `rules` once: the order in which the dictionary enumerates them. */
  predicate Enumerates(order: seq<string>, rules: map<string, TrackingRule>)
  {
    (forall k :: k in order ==> k in rules) && (forall k :: k in rules ==> k in order) && (forall i, j :: 0 <= i < j < |order| ==> order[i] != order[j])
  }

  // ---------------------------------------------------------------------
  // The check of a batch, as functions of the batch and the rules.

  /** The rules that take part in a batch of `marketType`, in enumeration order. */
  function ActiveRules(order: seq<string>, rules: map<string, TrackingRule>, marketType: MarketType): (r: seq<TrackingRule>)
    requires forall k :: k in order ==> k in rules
    ensures |r| <= |order|
    ensures forall x :: x in r ==> Applies(x, marketType) && x in rules.Values
    decreases |order|
  {
    if |order| == 0 then []
    else
      var init := ActiveRules(order[..|order| - 1], rules, marketType);
      var rule := rules[order[|order| - 1]];
      if Applies(rule, marketType) then init + [rule] else init
  }

  /** With the whole enumeration, the active rules are every stored rule that applies, each once. */
  lemma {:induction false} ActiveRulesExact(order: seq<string>, rules: map<string, TrackingRule>, marketType: MarketType)
    requires Keyed(rules) && forall k :: k in order ==> k in rules
    requires forall i, j :: 0 <= i < j < |order| ==> order[i] != order[j]
    ensures forall x :: x in ActiveRules(order, rules, marketType) <==>
      Applies(x, marketType) && exists k :: k in order && rules[k] == x
    ensures Distinct(ActiveRules(order, rules, marketType))
    decreases |order|
  {
    if |order| > 0 {
      var init := order[..|order| - 1];
      var last := order[|order| - 1];
      ActiveRulesExact(init, rules, marketType);
      assert forall k :: k in order <==> k in init || k == last;
      var rule := rules[last];
      forall x | x in ActiveRules(init, rules, marketType) ensures x != rule {
        var k :| k in init && rules[k] == x;
        assert k != last;
      }
    }
  }

  /** The matches of one row, in rule order. */
  function RowMatches(item: ItemView, active: seq<TrackingRule>, now: Ticks): (r: seq<ItemMatch>)
    decreases |active|
  {
    if |active| == 0 then []
    else
      var rule := active[|active| - 1];
      RowMatches(item, active[..|active| - 1], now) + (if MatchesRule(item, rule) then [ItemMatch(rule, item, now)] else [])
  }

  /** The matches of a batch: row by row, and within a row rule by rule. */
  function BatchMatches(items: seq<ItemView>, active: seq<TrackingRule>, now: Ticks): (r: seq<ItemMatch>)
    decreases |items|
  {
    if |items| == 0 then []
    else BatchMatches(items[..|items| - 1], active, now) + RowMatches(items[|items| - 1], active, now)
  }

  /** The matches that raise an event, in order. */
  function Fired(ms: seq<ItemMatch>, action: Action): (r: seq<ItemMatch>)
    ensures |r| <= |ms|
    decreases |ms|
  {
    if |ms| == 0 then []
    else Fired(ms[..|ms| - 1], action) + (if Fires(action, ms[|ms| - 1]) then [ms[|ms| - 1]] else [])
  }

  /** An event is raised for exactly the matches it fires on. */
  lemma {:induction false} FiredExactly(ms: seq<ItemMatch>, action: Action)
    ensures forall m :: m in Fired(ms, action) <==> m in ms && Fires(action, m)
    decreases |ms|
  {
    if |ms| > 0 {
      FiredExactly(ms[..|ms| - 1], action);
      assert forall m :: m in ms <==> m in ms[..|ms| - 1] || m == ms[|ms| - 1];
    }
  }

  lemma {:induction false} FiredAppend(a: seq<ItemMatch>, b: seq<ItemMatch>, action: Action)
    ensures Fired(a + b, action) == Fired(a, action) + Fired(b, action)
    decreases |b|
  {
    if |b| > 0 {
      var init := b[..|b| - 1];
      var last := b[|b| - 1];
      var tail := if Fires(action, last) then [last] else [];
      assert (a + b)[..|a + b| - 1] == a + init;
      assert (a + b)[|a + b| - 1] == last;
      FiredAppend(a, init, action);
      calc {
        Fired(a + b, action);
        Fired(a + init, action) + tail;
        Fired(a, action) + Fired(init, action) + tail;
        Fired(a, action) + Fired(b, action);
      }
    } else {
      assert a + b == a;
    }
  }

  /** The number of rows of a batch that match a rule. */
  function Hits(items: seq<ItemView>, rule: TrackingRule): (r: nat)
    ensures r <= |items|
    decreases |items|
  {
    if |items| == 0 then 0
    else Hits(items[..|items| - 1], rule) + (if MatchesRule(items[|items| - 1], rule) then 1 else 0)
  }

  // ---------------------------------------------------------------------
  // A rule's match count is a C# int: it wraps.

  lemma SameResidue(a: int, b: int)
    requires (a - b) % 0x1_0000_0000 == 0
    ensures Wrap32(a) == Wrap32(b)
  {
    var q := (a - b) / 0x1_0000_0000;
    assert a == b + q * 0x1_0000_0000;
    assert a % 0x1_0000_0000 == b % 0x1_0000_0000;
  }

  /** Adding one to a wrapped count is adding one before wrapping. */
  lemma WrapStep(x: int)
    ensures Wrap32(Wrap32(x) + 1) == Wrap32(x + 1)
  {
    SameResidue(Wrap32(x) + 1, x + 1);
  }

  /** `MatchesFound++` on a C# int: the largest value steps to the smallest. */
  function Increment(count: int32): (r: int32)
    ensures r == Wrap32(count + 1)
  {
    if count == INT32_MAX then -0x8000_0000 else count + 1
  }

  /** A count after `n` increments. */
  function Bumped(count: int32, n: nat): int32
    decreases n
  {
    if n == 0 then count else Increment(Bumped(count, n - 1))
  }

  /** `n` increments add `n` to the count, modulo 2^32. */
  lemma {:induction false} BumpedWraps(count: int32, n: nat)
    ensures Bumped(count, n) == Wrap32(count + n)
    decreases n
  {
    if n == 0 {
      SameResidue(count, count);
      assert Wrap32(count) == Int32Of(count % 0x1_0000_0000);
    } else {
      BumpedWraps(count, n - 1);
      WrapStep(count + n - 1);
    }
  }

  /** Rows built from the three markets carry their item id as text, so a rule matches them by item id and price. */
  lemma ItemIdMatches(item: ItemView, id: int32, rule: TrackingRule)
    requires item.itemId == IntText(id)
    ensures MatchesRule(item, rule) <==> id == rule.itemId && item.price <= rule.maxPrice
  {
    IntRoundTrip(id);
  }

  lemma PrivateStoreRowMatches(x: PrivateStorePacket.PrivateStoreItem, now: Ticks, rule: TrackingRule)
    ensures MatchesRule(MarketItemView.FromPrivateStoreItem(x, now), rule) <==>
      x.itemInfo.itemId == rule.itemId && x.price <= rule.maxPrice
  {
    MarketItemView.PrivateStoreRow(x, now);
    ItemIdMatches(MarketItemView.FromPrivateStoreItem(x, now), x.itemInfo.itemId, rule);
  }

  lemma CommissionRowMatches(x: CommissionPacket.CommissionItem, now: Ticks, date: int32 -> MarketItemView.DateText, rule: TrackingRule)
    ensures MatchesRule(MarketItemView.FromCommissionItem(x, now, date), rule) <==>
      x.itemInfo.itemId == rule.itemId && x.pricePerUnit <= rule.maxPrice
  {
    var v := MarketItemView.FromCommissionItem(x, now, date);
    assert v.itemId == IntText(x.itemInfo.itemId) && v.price == x.pricePerUnit;
    ItemIdMatches(v, x.itemInfo.itemId, rule);
  }

  /**
   * A world-exchange row is matched on its price read as a signed value: a
   * price above `long.MaxValue` reads negative and passes every maximum that
   * is not negative.
   */
  lemma WorldExchangeRowMatches(x: WorldExchangePacket.WorldExchangeItem, now: Ticks, date: int32 -> MarketItemView.DateText, rule: TrackingRule)
    ensures MatchesRule(MarketItemView.FromWorldExchangeItem(x, now, date), rule) <==>
      x.itemId == rule.itemId && Int64Of(x.price) <= rule.maxPrice
    ensures x.price > INT64_MAX && rule.maxPrice >= 0 ==>
      (MatchesRule(MarketItemView.FromWorldExchangeItem(x, now, date), rule) <==> x.itemId == rule.itemId)
  {
    var v := MarketItemView.FromWorldExchangeItem(x, now, date);
    assert v.itemId == IntText(x.itemId) && v.price == Int64Of(x.price);
    ItemIdMatches(v, x.itemId, rule);
  }

  /** `TrackingService`: the rules by id. */
  class TrackingService {
    var rules: map<string, TrackingRule>

    ghost predicate Valid()
      reads this
    {
      Keyed(rules)
    }

    constructor()
      ensures Valid() && rules == map[]
    {
      rules := map[];
    }

    /** `AddRuleAsync`: a missing rule throws; a rule whose id is taken is not added, the stored one stays. */
    method AddRule(rule: TrackingRule?) returns (thrown: bool)
      requires Valid()
      modifies this
      ensures Valid()
      ensures thrown <==> rule == null
      ensures rule == null || rule.id in old(rules) ==> rules == old(rules)
      ensures rule != null && rule.id !in old(rules) ==> rules == old(rules)[rule.id := rule]
    {
      if rule == null {
        return true;
      }
      if rule.id !in rules {
        rules := rules[rule.id := rule];
      }
      return false;
    }

    /** `RemoveRuleAsync`: the rule with that id, if any, is dropped; nothing else changes. */
    method RemoveRule(ruleId: string)
      requires Valid()
      modifies this
      ensures Valid()
      ensures rules == old(rules) - {ruleId}
    {
      rules := rules - {ruleId};
    }

    /** `UpdateRuleAsync`: a missing rule throws; otherwise the rule is stored under its id, added or replacing. */
    method UpdateRule(rule: TrackingRule?) returns (thrown: bool)
      requires Valid()
      modifies this
      ensures Valid()
      ensures thrown <==> rule == null
      ensures rule == null ==> rules == old(rules)
      ensures rule != null ==> rules == old(rules)[rule.id := rule]
    {
      if rule == null {
        return true;
      }
      rules := rules[rule.id := rule];
      return false;
    }

    /** `GetRulesAsync`: the stored rules, one for each id. */
    function GetRules(): (r: set<TrackingRule>)
      reads this
      ensures r <= rules.Values && forall k :: k in rules ==> rules[k] in r
      ensures Valid() ==> |r| == |rules|
    {
      KeyedValues(rules);
      rules.Values
    }

    /** `GetActiveRulesAsync`: exactly the stored rules that are enabled. */
    function GetActiveRules(): (r: set<TrackingRule>)
      reads this
      ensures r <= GetRules()
      ensures forall k :: k in rules ==> (rules[k] in r <==> rules[k].isEnabled)
      ensures Valid() ==> |r| <= |rules|
    {
      KeyedValues(rules);
      var r := set x | x in rules.Values && x.isEnabled;
      SubsetNoLarger(r, rules.Values);
      r
    }

    /**
     * `CheckItemsAgainstRules`: each row against each rule that takes part,
     * in enumeration order. Every rule that takes part counts the rows it
     * matches and, if it matched any, has the time of the check as its last
     * match; no other rule changes. The notifications and the auto-buys are
     * the matches that fire each.
     */
    method CheckItemsAgainstRules(items: seq<ItemView>, marketType: MarketType, order: seq<string>, now: Ticks)
      returns (notified: seq<ItemMatch>, autoBuys: seq<ItemMatch>)
      requires Valid() && Enumerates(order, rules)
      modifies rules.Values
      ensures var ms := BatchMatches(items, ActiveRules(order, rules, marketType), now);
        notified == Fired(ms, Notify) && autoBuys == Fired(ms, AutoBuy)
      ensures forall k :: k in rules ==>
        rules[k].matchesFound == Bumped(old(rules[k].matchesFound), if Applies(rules[k], marketType) then Hits(items, rules[k]) else 0)
      ensures forall k :: k in rules ==>
        rules[k].lastMatch == if Applies(rules[k], marketType) && Hits(items, rules[k]) > 0 then now else old(rules[k].lastMatch)
    {
      var active := ActiveRules(order, rules, marketType);
      ActiveRulesExact(order, rules, marketType);
      assert forall k :: k in rules ==> (rules[k] in active <==> Applies(rules[k], marketType)) by {
        forall k | k in rules ensures rules[k] in active <==> Applies(rules[k], marketType) {
          assert k in order;
        }
      }
      notified, autoBuys := CheckBatch(items, active, now);
    }
  }

  /**
   * The rows of a batch, one after another, against the active rules: each
   * active rule counts the rows it matches and, if it matched any, is stamped
   * with the time of the check.
   */
  method CheckBatch(items: seq<ItemView>, active: seq<TrackingRule>, now: Ticks)
    returns (notified: seq<ItemMatch>, autoBuys: seq<ItemMatch>)
    requires Distinct(active)
    modifies set x | x in active
    ensures var ms := BatchMatches(items, active, now);
      notified == Fired(ms, Notify) && autoBuys == Fired(ms, AutoBuy)
    ensures forall x | x in active ::
      x.matchesFound == Bumped(old(x.matchesFound), Hits(items, x))
      && x.lastMatch == if Hits(items, x) > 0 then now else old(x.lastMatch)
  {
    notified, autoBuys := [], [];
    for i := 0 to |items|
      invariant notified == Fired(BatchMatches(items[..i], active, now), Notify)
      invariant autoBuys == Fired(BatchMatches(items[..i], active, now), AutoBuy)
      invariant forall x | x in active ::
        x.matchesFound == Bumped(old(x.matchesFound), Hits(items[..i], x))
        && x.lastMatch == if Hits(items[..i], x) > 0 then now else old(x.lastMatch)
    {
      var rowNotified, rowBuys := CheckRow(items[i], active, now);
      BatchStep(items, active, i, now, Notify);
      BatchStep(items, active, i, now, AutoBuy);
      notified := notified + rowNotified;
      autoBuys := autoBuys + rowBuys;
      forall x | x in active
        ensures x.matchesFound == Bumped(old(x.matchesFound), Hits(items[..i + 1], x))
        ensures x.lastMatch == if Hits(items[..i + 1], x) > 0 then now else old(x.lastMatch)
      {
        HitsStep(items, i, x);
        var t :| 0 <= t < |active| && active[t] == x;
      }
    }
    assert items[..|items|] == items;
  }

  /** One row against the active rules: each matching rule counts the row and is stamped; the others are untouched. */
  method CheckRow(item: ItemView, active: seq<TrackingRule>, now: Ticks)
    returns (notified: seq<ItemMatch>, autoBuys: seq<ItemMatch>)
    requires Distinct(active)
    modifies set x | x in active
    ensures notified == Fired(RowMatches(item, active, now), Notify)
    ensures autoBuys == Fired(RowMatches(item, active, now), AutoBuy)
    ensures forall t :: 0 <= t < |active| ==>
      active[t].matchesFound == if MatchesRule(item, active[t]) then Increment(old(active[t].matchesFound)) else old(active[t].matchesFound)
    ensures forall t :: 0 <= t < |active| ==>
      active[t].lastMatch == if MatchesRule(item, active[t]) then now else old(active[t].lastMatch)
  {
    notified, autoBuys := [], [];
    for j := 0 to |active|
      invariant notified == Fired(RowMatches(item, active[..j], now), Notify)
      invariant autoBuys == Fired(RowMatches(item, active[..j], now), AutoBuy)
      invariant forall t :: 0 <= t < j ==>
        active[t].matchesFound == if MatchesRule(item, active[t]) then Increment(old(active[t].matchesFound)) else old(active[t].matchesFound)
      invariant forall t :: 0 <= t < j ==>
        active[t].lastMatch == if MatchesRule(item, active[t]) then now else old(active[t].lastMatch)
      invariant forall t :: j <= t < |active| ==>
        active[t].matchesFound == old(active[t].matchesFound) && active[t].lastMatch == old(active[t].lastMatch)
    {
      var rule := active[j];
      RowStep(item, active, j, now, Notify);
      RowStep(item, active, j, now, AutoBuy);
      assert forall t :: 0 <= t < |active| && t != j ==> active[t] != rule;
      if MatchesRule(item, rule) {
        Record(rule, now);
        var m := ItemMatch(rule, item, now);
        if Fires(Notify, m) {
          notified := notified + [m];
        }
        if Fires(AutoBuy, m) {
          autoBuys := autoBuys + [m];
        }
      }
    }
    assert active[..|active|] == active;
  }

  /** One row further in a batch: its events follow those of the earlier rows. */
  lemma BatchStep(items: seq<ItemView>, active: seq<TrackingRule>, i: nat, now: Ticks, action: Action)
    requires i < |items|
    ensures Fired(BatchMatches(items[..i + 1], active, now), action) ==
      Fired(BatchMatches(items[..i], active, now), action) + Fired(RowMatches(items[i], active, now), action)
  {
    assert items[..i + 1][..i] == items[..i];
    FiredAppend(BatchMatches(items[..i], active, now), RowMatches(items[i], active, now), action);
  }

  lemma HitsStep(items: seq<ItemView>, i: nat, rule: TrackingRule)
    requires i < |items|
    ensures Hits(items[..i + 1], rule) == Hits(items[..i], rule) + if MatchesRule(items[i], rule) then 1 else 0
  {
    assert items[..i + 1][..i] == items[..i];
  }

  /** One rule further in a row: its match, if any, follows the earlier rules' matches, and fires as it alone would. */
  lemma RowStep(item: ItemView, active: seq<TrackingRule>, j: nat, now: Ticks, action: Action)
    requires j < |active|
    ensures !MatchesRule(item, active[j]) ==>
      Fired(RowMatches(item, active[..j + 1], now), action) == Fired(RowMatches(item, active[..j], now), action)
    ensures MatchesRule(item, active[j]) ==>
      var m := ItemMatch(active[j], item, now);
      Fired(RowMatches(item, active[..j + 1], now), action) ==
        Fired(RowMatches(item, active[..j], now), action) + if Fires(action, m) then [m] else []
  {
    assert active[..j + 1][..j] == active[..j];
    var m := ItemMatch(active[j], item, now);
    var before := RowMatches(item, active[..j], now);
    if MatchesRule(item, active[j]) {
      FiredAppend(before, [m], action);
      assert [m][..0] == [];
    } else {
      assert before + [] == before;
    }
  }

  /** A match on a rule: `MatchesFound++` and `LastMatch` set to the time of the check. */
  method Record(rule: TrackingRule, now: Ticks)
    modifies rule
    ensures rule.matchesFound == Increment(old(rule.matchesFound)) && rule.lastMatch == now
  {
    rule.matchesFound := Increment(rule.matchesFound);
    rule.lastMatch := now;
  }

  /** A map whose values are stored under their own ids has as many values as keys. */
  lemma {:induction false} KeyedValues(m: map<string, TrackingRule>)
    ensures Keyed(m) ==> |m.Values| == |m.Keys|
    ensures Keyed(m) ==> forall x :: x in m.Values ==> x.id in m && m[x.id] == x
    decreases |m|
  {
    if Keyed(m) && |m| > 0 {
      var k :| k in m;
      var rest := m - {k};
      KeyedValues(rest);
      forall x | x in m.Values ensures x in rest.Values || x == m[k] {
        var j :| j in m && m[j] == x;
        if j != k {
          assert j in rest;
        }
      }
      forall x | x in rest.Values ensures x in m.Values && x != m[k] {
        var j :| j in rest && rest[j] == x;
        assert m[j] == x;
      }
      assert m.Values == rest.Values + {m[k]};
      assert m.Keys == rest.Keys + {k};
    }
  }
}
