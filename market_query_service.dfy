/**
 * `MarketQueryService`: a timer per market that periodically asks the game
 * for that market's listings, the tracking rules registered per market, and
 * the fixed sequence of commands one query sends.
 *
 * A timer is modelled by its serial number and interval: the service hands
 * out serial numbers in order, and keeps the set of serials it disposed, so
 * that "no timer is leaked" becomes an invariant. The commands a query sends
 * are returned as a list; which of them throw is a parameter.
 */
module MarketQueryService {
  import opened Bytes
  import opened TrackingRules

  /** A periodic timer: its serial number and its period in ticks. */
  datatype Timer = Timer(serial: nat, interval: int)

  /** Ticks in one millisecond. */
  const TICKS_PER_MILLISECOND := 10000

  /** `(long)interval.TotalMilliseconds`: whole milliseconds, truncated toward zero. */
  function PeriodMilliseconds(ticks: int): (r: int)
    ensures ticks >= 0 ==> 0 <= r * TICKS_PER_MILLISECOND <= ticks < (r + 1) * TICKS_PER_MILLISECOND
    ensures ticks < 0 ==> (r - 1) * TICKS_PER_MILLISECOND < ticks <= r * TICKS_PER_MILLISECOND <= 0
  {
    if ticks >= 0 then ticks / TICKS_PER_MILLISECOND else -((-ticks) / TICKS_PER_MILLISECOND)
  }

  /**
   * The periods `new Timer(callback, state, dueTime, period)` accepts: from
   * -1 ms (no repetition) up to 0xFFFFFFFE ms; any other period throws
   * `ArgumentOutOfRangeException`.
   */
  predicate PeriodAccepted(ticks: int)
  {
    -1 <= PeriodMilliseconds(ticks) <= 0xFFFF_FFFE
  }

  /** The accepted periods in ticks: above -2 ms and below 0xFFFFFFFF ms. */
  lemma PeriodAcceptedRange(ticks: int)
    ensures PeriodAccepted(ticks) <==> -2 * TICKS_PER_MILLISECOND < ticks < 0xFFFF_FFFF * TICKS_PER_MILLISECOND
  {
  }

  /** An interval of fifty days (about 49.7 days is the longest period) is refused. */
  lemma FiftyDaysRefused()
    ensures !PeriodAccepted(50 * 24 * 60 * 60 * 1000 * TICKS_PER_MILLISECOND)
  {
  }

  /** One call on the command service. */
  datatype QueryStep =
    | Action(objectId: int32, originX: int32, originY: int32, originZ: int32, actionId: byte)
    | Bypass(npcId: string, command: string)
    | CommissionBuyInfo(category: int32)
    | PrivateStoreWindow
    | ItemList(listType: byte)
    | WorldExchangeSearch(searchType: byte, unknown2: uint16)

  /** The commission manager the query clicks twice. */
  const COMMISSION_NPC := Action(1210072924, 18805, 145867, -3077, 0)

  /** The world-exchange item types a query asks for, in the order it asks. */
  const WORLD_EXCHANGE_ITEM_TYPES: seq<byte> :=
    [0x02, 0x01, 0x00, 0x07, 0x06, 0x05, 0x04, 0x08, 0x0B, 0x0A, 0x09, 0x0C, 0x0E, 0x0D, 0x19, 0x17, 0x10, 0x0F]

  /** The search type argument's default, used for every per-type world-exchange search. */
  const DEFAULT_SEARCH_UNKNOWN2: uint16 := 0x0002

  /** The commands that open a market's window, sent before any listing request. */
  function Opening(t: MarketType): (r: seq<QueryStep>)
  {
    match t
    case Commission => [COMMISSION_NPC, COMMISSION_NPC, Bypass("268458944", "show_commission")]
    case PrivateStore => [PrivateStoreWindow]
    case WorldExchange => [WorldExchangeSearch(0x18, 0x0800)]
    case All => []
  }

  /** The listing requests, one per item type. */
  function Requests(t: MarketType): (r: seq<QueryStep>)
  {
    match t
    case Commission => seq(6, i requires 0 <= i < 6 => CommissionBuyInfo(i as int32))
    case PrivateStore => seq(5, i requires 0 <= i < 5 => ItemList(i as byte))
    case WorldExchange => seq(|WORLD_EXCHANGE_ITEM_TYPES|, i requires 0 <= i < |WORLD_EXCHANGE_ITEM_TYPES| =>
                            WorldExchangeSearch(WORLD_EXCHANGE_ITEM_TYPES[i], DEFAULT_SEARCH_UNKNOWN2))
    case All => []
  }

  /** Serial numbers `0 .. n-1`. */
  ghost function Issued(n: nat): set<nat>
  {
    if n == 0 then {} else Issued(n - 1) + {n - 1}
  }

  /** The issued serials are exactly those below `n`. */
  lemma {:induction false} IssuedBelow(n: nat)
    ensures forall s: nat :: s in Issued(n) <==> s < n
  {
    if n > 0 {
      IssuedBelow(n - 1);
    }
  }

  /** `GetMarketTypeName`: the Russian name of each market, the enum name for `All`. */
  function GetMarketTypeName(t: MarketType): (r: string)
    ensures t != All ==> r != "All"
  {
    match t
    case PrivateStore => "Частные магазины"
    case Commission => "Комиссии"
    case WorldExchange => "Мировой обмен"
    case All => "All"
  }

  /** The markets have different names. */
  lemma MarketTypeNamesDistinct(t: MarketType, u: MarketType)
    ensures GetMarketTypeName(t) == GetMarketTypeName(u) <==> t == u
  {
    if t != u {
      assert GetMarketTypeName(t)[0] != GetMarketTypeName(u)[0];
    }
  }

  /** `Count(r => r.IsEnabled)`: the enabled rules of a list. */
  function EnabledCount(rs: seq<TrackingRule>): (r: nat)
    ensures r <= |rs|
  {
    if rs == [] then 0
    else (if rs[0].isEnabled then 1 else 0) + EnabledCount(rs[1..])
  }

  /** The enabled rules in a list, as a set. */
  ghost function EnabledSet(rs: seq<TrackingRule>): set<TrackingRule>
  {
    set r | r in rs && r.isEnabled
  }

  /** In a list without repetitions, the count of enabled rules is the number of enabled rules. */
  lemma {:induction false} EnabledCountIsSize(rs: seq<TrackingRule>)
    requires Distinct(rs)
    ensures EnabledCount(rs) == |EnabledSet(rs)|
  {
    if rs != [] {
      var tail := rs[1..];
      assert Distinct(tail) by {
        forall i, j | 0 <= i < j < |tail| ensures tail[i] != tail[j] {
          assert tail[i] == rs[i + 1] && tail[j] == rs[j + 1];
        }
      }
      EnabledCountIsSize(tail);
      assert rs[0] !in tail by {
        forall i | 0 <= i < |tail| ensures tail[i] != rs[0] {
          assert tail[i] == rs[i + 1];
        }
      }
      assert rs == [rs[0]] + tail;
      if rs[0].isEnabled {
        assert EnabledSet(rs) == {rs[0]} + EnabledSet(tail);
      } else {
        assert EnabledSet(rs) == EnabledSet(tail);
      }
    }
  }

  /** `List.Remove`: the list without the first occurrence of `x`. */
  function RemoveFirst(rs: seq<TrackingRule>, x: TrackingRule): (r: seq<TrackingRule>)
    ensures multiset(r) == multiset(rs) - multiset{x}
  {
    if rs == [] then []
    else if rs[0] == x then (assert rs == [rs[0]] + rs[1..]; rs[1..])
    else (assert rs == [rs[0]] + rs[1..]; [rs[0]] + RemoveFirst(rs[1..], x))
  }

  /** From a list without repetitions, `RemoveFirst` removes `x` entirely and keeps the rest. */
  lemma {:induction false} RemoveFirstDistinct(rs: seq<TrackingRule>, x: TrackingRule)
    requires Distinct(rs)
    ensures Distinct(RemoveFirst(rs, x))
    ensures forall y | y in RemoveFirst(rs, x) :: y in rs && y != x
    ensures forall y | y in rs && y != x :: y in RemoveFirst(rs, x)
  {
    if rs != [] {
      var tail := rs[1..];
      assert rs == [rs[0]] + tail;
      assert Distinct(tail) by {
        forall i, j | 0 <= i < j < |tail| ensures tail[i] != tail[j] {
          assert tail[i] == rs[i + 1] && tail[j] == rs[j + 1];
        }
      }
      assert rs[0] !in tail by {
        forall i | 0 <= i < |tail| ensures tail[i] != rs[0] {
          assert tail[i] == rs[i + 1];
        }
      }
      if rs[0] != x {
        RemoveFirstDistinct(tail, x);
        var r := RemoveFirst(tail, x);
        var s := [rs[0]] + r;
        assert RemoveFirst(rs, x) == s;
        forall i, j | 0 <= i < j < |s| ensures s[i] != s[j] {
          assert s[j] == r[j - 1];
          if i > 0 {
            assert s[i] == r[i - 1];
          }
        }
      }
    }
  }

  /** The serials of the timers in a map. */
  function Serials(timers: map<MarketType, Timer>): set<nat>
  {
    set t | t in timers :: timers[t].serial
  }

  /** No two markets share a timer. */
  ghost predicate DistinctSerials(timers: map<MarketType, Timer>)
  {
    forall t, u | t in timers && u in timers && t != u :: timers[t].serial != timers[u].serial
  }

  /** Putting a timer with a fresh serial replaces the market's old serial by the new one. */
  lemma SerialsAfterPut(timers: map<MarketType, Timer>, t: MarketType, timer: Timer)
    requires DistinctSerials(timers) && timer.serial !in Serials(timers)
    ensures DistinctSerials(timers[t := timer])
    ensures Serials(timers[t := timer]) ==
      Serials(timers) - (if t in timers then {timers[t].serial} else {}) + {timer.serial}
  {
    var after := timers[t := timer];
    var replaced := if t in timers then {timers[t].serial} else {};
    forall s ensures s in Serials(after) <==> s in Serials(timers) - replaced || s == timer.serial {
      if s in Serials(after) && s != timer.serial {
        var u :| u in after && after[u].serial == s;
        assert u != t && u in timers;
      }
      if s in Serials(timers) - replaced {
        var u :| u in timers && timers[u].serial == s;
        assert u != t && u in after;
      }
      if s == timer.serial {
        assert t in after && after[t].serial == s;
      }
    }
  }

  /** Removing a market's timer removes exactly its serial. */
  lemma SerialsAfterRemove(timers: map<MarketType, Timer>, t: MarketType)
    requires DistinctSerials(timers) && t in timers
    ensures DistinctSerials(timers - {t})
    ensures Serials(timers - {t}) == Serials(timers) - {timers[t].serial}
  {
    var after := timers - {t};
    forall s ensures s in Serials(after) <==> s in Serials(timers) && s != timers[t].serial {
      if s in Serials(after) {
        var u :| u in after && after[u].serial == s;
        assert u != t && u in timers;
      }
      if s in Serials(timers) && s != timers[t].serial {
        var u :| u in timers && timers[u].serial == s;
        assert u != t && u in after;
      }
    }
  }

  class MarketQueryService {
    /** `_trackingTimers`: at most one timer per market. */
    var timers: map<MarketType, Timer>
    /** `_activeRules`: the rules registered per market. */
    var activeRules: map<MarketType, seq<TrackingRule>>
    /** The number of timers created so far; the next one gets this serial. */
    var created: nat
    /** The serials of the timers disposed so far. */
    var disposed: set<nat>

    /** No timer in the map is disposed: every timer listed is running. */
    ghost predicate NoStale()
      reads this
    {
      Live() !! disposed
    }

    /** The serials of the timers in the map. */
    function Live(): set<nat>
      reads this
    {
      Serials(timers)
    }

    /**
     * Every market but `All` has a rule list, without repetitions and
     * holding only rules for that market; there is never a timer for `All`;
     * the timers in the map have different serials; and every timer ever
     * created is in the map or disposed. A disposed timer can stay in the map
     * when a replacement could not be created (see `StartQuerying`).
     */
    ghost predicate Valid()
      reads this
    {
      && All !in timers
      && (forall t :: t in activeRules <==> t != All)
      && (forall t | t in activeRules :: Distinct(activeRules[t]))
      && (forall t, r | t in activeRules && r in activeRules[t] :: r.marketType == t)
      && DistinctSerials(timers)
      && Live() + disposed == Issued(created)
    }

    /** A service with no timer and an empty rule list for each market. */
    constructor()
      ensures Valid()
      ensures timers == map[] && created == 0 && disposed == {}
      ensures activeRules == map[PrivateStore := [], Commission := [], WorldExchange := []]
    {
      timers := map[];
      activeRules := map[PrivateStore := [], Commission := [], WorldExchange := []];
      created := 0;
      disposed := {};
      new;
      assert Issued(0) == {};
    }

    /**
     * `IsTrackingActive`: a timer runs for the market; never for `All`, which
     * a valid service never gives a timer, so the early return only shortcuts.
     */
    function IsTrackingActive(t: MarketType): (r: bool)
      reads this
      ensures t == All ==> !r
      ensures Valid() ==> (r <==> t in timers)
    {
      t != All && t in timers
    }

    /**
     * `StartQuerying`: for `All` nothing changes; otherwise the market's timer
     * is disposed and a new one with the interval replaces it. When the timer
     * constructor refuses the interval, it throws after the disposal: the
     * disposed timer stays in the map, so the market still counts as tracked.
     */
    method StartQuerying(t: MarketType, interval: int) returns (thrown: bool)
      requires Valid()
      modifies this
      ensures Valid()
      ensures thrown <==> t != All && !PeriodAccepted(interval)
      ensures t == All ==> timers == old(timers) && created == old(created) && disposed == old(disposed)
      ensures t != All ==> disposed == old(disposed) + (if t in old(timers) then {old(timers)[t].serial} else {})
      ensures t != All && !thrown ==> timers == old(timers)[t := Timer(old(created), interval)] && created == old(created) + 1
      ensures t != All && !thrown ==> IsTrackingActive(t) && timers[t].serial !in disposed
      ensures !thrown && old(NoStale()) ==> NoStale()
      ensures thrown ==> timers == old(timers) && created == old(created)
      ensures thrown ==> (IsTrackingActive(t) <==> t in old(timers))
      ensures thrown && t in timers ==> timers[t].serial in disposed
      ensures activeRules == old(activeRules)
    {
      thrown := false;
      if t == All {
        return;
      }
      DisposeTimerOf(t);
      if !PeriodAccepted(interval) {
        thrown := true;
        return;
      }
      PutTimer(t, interval);
    }

    /** Disposes the market's timer, if any, leaving it in the map. */
    method DisposeTimerOf(t: MarketType)
      requires Valid() && t != All
      modifies this
      ensures Valid()
      ensures disposed == old(disposed) + (if t in timers then {timers[t].serial} else {})
      ensures timers == old(timers) && created == old(created) && activeRules == old(activeRules)
    {
      if t in timers {
        assert timers[t].serial in Live();
        disposed := disposed + {timers[t].serial};
      }
    }

    /** Stores a new timer for the market, with the next serial. */
    method PutTimer(t: MarketType, interval: int)
      requires Valid() && t != All
      requires t in timers ==> timers[t].serial in disposed
      modifies this
      ensures Valid()
      ensures timers == old(timers)[t := Timer(old(created), interval)] && created == old(created) + 1
      ensures Live() == old(Live()) - (if t in old(timers) then {old(timers)[t].serial} else {}) + {old(created)}
      ensures old(created) !in disposed
      ensures disposed == old(disposed) && activeRules == old(activeRules)
    {
      IssuedBelow(created);
      assert created !in Live() + disposed;
      SerialsAfterPut(timers, t, Timer(created, interval));
      IssuedBelow(created + 1);
      timers := timers[t := Timer(created, interval)];
      created := created + 1;
    }

    /** `StopQuerying`: the market's timer, when there is one, is disposed and removed. */
    method StopQuerying(t: MarketType)
      requires Valid()
      modifies this
      ensures Valid()
      ensures t == All || t !in old(timers) ==> timers == old(timers) && disposed == old(disposed)
      ensures t != All && t in old(timers) ==> timers == old(timers) - {t} && disposed == old(disposed) + {old(timers)[t].serial}
      ensures !IsTrackingActive(t)
      ensures old(NoStale()) ==> NoStale()
      ensures created == old(created) && activeRules == old(activeRules)
    {
      if t == All {
        return;
      }
      if t in timers {
        SerialsAfterRemove(timers, t);
        disposed := disposed + {timers[t].serial};
        timers := timers - {t};
      }
    }

    /** `AddRule`: the rule is appended to its market's list unless it is already there; `All` rules are refused. */
    method AddRule(rule: TrackingRule)
      requires Valid()
      modifies this
      ensures Valid()
      ensures rule.marketType == All || rule in old(activeRules[rule.marketType]) ==> activeRules == old(activeRules)
      ensures rule.marketType != All && rule !in old(activeRules[rule.marketType]) ==>
        activeRules == old(activeRules)[rule.marketType := old(activeRules[rule.marketType]) + [rule]]
      ensures timers == old(timers) && created == old(created) && disposed == old(disposed)
    {
      var t := rule.marketType;
      if t == All {
        return;
      }
      if rule !in activeRules[t] {
        var rs := activeRules[t];
        activeRules := activeRules[t := rs + [rule]];
        assert Distinct(rs + [rule]) by {
          var s := rs + [rule];
          forall i, j | 0 <= i < j < |s| ensures s[i] != s[j] {
            if j == |rs| {
              assert s[i] == rs[i];
            } else {
              assert s[i] == rs[i] && s[j] == rs[j];
            }
          }
        }
      }
    }

    /** `RemoveRule`: the rule leaves its market's list; `All` rules are ignored. */
    method RemoveRule(rule: TrackingRule)
      requires Valid()
      modifies this
      ensures Valid()
      ensures rule.marketType == All ==> activeRules == old(activeRules)
      ensures rule.marketType != All ==>
        activeRules == old(activeRules)[rule.marketType := RemoveFirst(old(activeRules[rule.marketType]), rule)]
      ensures rule.marketType != All ==> rule !in activeRules[rule.marketType]
      ensures timers == old(timers) && created == old(created) && disposed == old(disposed)
    {
      var t := rule.marketType;
      if t == All {
        return;
      }
      var rs := activeRules[t];
      var rest := RemoveFirst(rs, rule);
      RemoveFirstDistinct(rs, rule);
      forall r | r in rest ensures r.marketType == t {
        assert r in rs;
      }
      activeRules := activeRules[t := rest];
    }

    /** `GetActiveRulesCount`: the number of enabled rules registered for the market, 0 for `All`. */
    method GetActiveRulesCount(t: MarketType) returns (count: nat)
      requires Valid()
      ensures t == All ==> count == 0
      ensures t != All ==> count == |EnabledSet(activeRules[t])|
    {
      if t == All {
        return 0;
      }
      EnabledCountIsSize(activeRules[t]);
      return EnabledCount(activeRules[t]);
    }

    /** `Dispose`: every running timer is disposed and the map emptied. */
    method Dispose()
      requires Valid()
      modifies this
      ensures Valid()
      ensures timers == map[] && disposed == old(disposed) + old(Live())
      ensures NoStale()
      ensures created == old(created) && activeRules == old(activeRules)
    {
      disposed := disposed + Live();
      timers := map[];
      assert Live() == {};
    }
  }

  /**
   * `SendMarketQueryAsync`: the commands a query sends, in order. The window
   * is opened first; a command of the opening that throws ends the query
   * after it; a listing request that throws is skipped over.
   * `throwsAt` holds the positions, counted from 0, of the opening commands
   * that throw.
   */
  method SendMarketQuery(t: MarketType, throwsAt: set<nat>) returns (sent: seq<QueryStep>)
    ensures sent <= Opening(t) + Requests(t)
    ensures (forall i | 0 <= i < |Opening(t)| :: i !in throwsAt) ==> sent == Opening(t) + Requests(t)
    ensures |sent| < |Opening(t) + Requests(t)| ==>
      && 0 < |sent| <= |Opening(t)|
      && |sent| - 1 in throwsAt
      && forall i | 0 <= i < |sent| - 1 :: i !in throwsAt
  {
    sent := [];
    match t {
      case Commission =>
        sent := sent + [COMMISSION_NPC];
        if 0 in throwsAt { return; }
        sent := sent + [COMMISSION_NPC];
        if 1 in throwsAt { return; }
        sent := sent + [Bypass("268458944", "show_commission")];
        if 2 in throwsAt { return; }
        for itemType := 0 to 6
          invariant sent == Opening(t) + Requests(t)[..itemType]
        {
          sent := sent + [CommissionBuyInfo(itemType as int32)];
        }
      case PrivateStore =>
        sent := sent + [PrivateStoreWindow];
        if 0 in throwsAt { return; }
        for itemType := 0 to 5
          invariant sent == Opening(t) + Requests(t)[..itemType]
        {
          sent := sent + [ItemList(itemType as byte)];
        }
      case WorldExchange =>
        sent := sent + [WorldExchangeSearch(0x18, 0x0800)];
        if 0 in throwsAt { return; }
        for i := 0 to |WORLD_EXCHANGE_ITEM_TYPES|
          invariant sent == Opening(t) + Requests(t)[..i]
        {
          sent := sent + [WorldExchangeSearch(WORLD_EXCHANGE_ITEM_TYPES[i], DEFAULT_SEARCH_UNKNOWN2)];
        }
      case All =>
    }
    assert Requests(t)[..|Requests(t)|] == Requests(t);
  }

  /** Every listed world-exchange type is asked for once, and all lie in `0x00 .. 0x19`. */
  lemma WorldExchangeTypes()
    ensures |Requests(WorldExchange)| == 18
    ensures forall i, j | 0 <= i < j < 18 :: WORLD_EXCHANGE_ITEM_TYPES[i] != WORLD_EXCHANGE_ITEM_TYPES[j]
    ensures forall i | 0 <= i < 18 :: WORLD_EXCHANGE_ITEM_TYPES[i] <= 0x19
  {
  }

  /** The commission query asks for item types 0 to 5 in ascending order, the private-store query for 0 to 4. */
  lemma RequestOrder()
    ensures forall i, j | 0 <= i < j < |Requests(Commission)| ::
      Requests(Commission)[i].category < Requests(Commission)[j].category
    ensures forall i | 0 <= i < |Requests(PrivateStore)| :: Requests(PrivateStore)[i].listType as int == i
    ensures |Requests(Commission)| == 6 && |Requests(PrivateStore)| == 5
  {
  }
}
