/**
 * `PacketParserService`: hex payloads from the pipe become bytes, and each
 * packet is routed by its id, its direction and, for id 0xFE, its extended
 * id. The three market packets are decoded and announced as events; every
 * other handler only logs. The service also keeps a running flag.
 *
 * JSON parsing of the pipe message and all log messages are not modelled:
 * a packet arrives here as a `GamePacket` with its hex payload.
 */
module PacketParser {
  import opened Bytes
  import opened Wrappers
  import PacketHex
  import PrivateStorePacket
  import WorldExchangePacket
  import CommissionPacket

  // ---------------------------------------------------------------------
  // Hex text to bytes.

  /** The value of one hexadecimal digit, in either case. */
  function HexValue(c: char): (r: Option<nat>)
    ensures r.Some? ==> r.value < 16
  {
    if '0' <= c <= '9' then Some(c as int - '0' as int)
    else if 'A' <= c <= 'F' then Some(c as int - 'A' as int + 10)
    else if 'a' <= c <= 'f' then Some(c as int - 'a' as int + 10)
    else None
  }

  /** The digits accepted are exactly the decimal ones and the letters A to F in either case. */
  lemma HexDigitsAccepted(c: char)
    ensures HexValue(c).Some? <==> c in "0123456789ABCDEFabcdef"
  {
    var s := "0123456789ABCDEFabcdef";
    if '0' <= c <= '9' {
      assert s[c as int - '0' as int] == c;
    } else if 'A' <= c <= 'F' {
      assert s[c as int - 'A' as int + 10] == c;
    } else if 'a' <= c <= 'f' {
      assert s[c as int - 'a' as int + 16] == c;
    }
  }

  /**
   * `Convert.ToByte(pair, 16)` on a two-character string: two hex digits, or
   * a '+' sign and one digit; anything else throws.
   */
  function PairValue(hi: char, lo: char): Option<byte>
  {
    var l := HexValue(lo);
    if l.None? then None
    else if hi == '+' then Some(l.value)
    else
      var h := HexValue(hi);
      if h.None? then None else Some(16 * h.value + l.value)
  }

  /** Every pair converted, or None when some pair throws. */
  function PairsF(hex: string): Option<seq<byte>>
    requires |hex| % 2 == 0
    decreases |hex|
  {
    if |hex| == 0 then Some([])
    else
      var b := PairValue(hex[0], hex[1]);
      var rest := PairsF(hex[2..]);
      if b.None? || rest.None? then None else Some([b.value] + rest.value)
  }

  /** `ConvertHexStringToBytes`: empty for empty or odd-length text and when any pair is not hex. */
  function ConvertF(hex: string): seq<byte>
  {
    if |hex| == 0 || |hex| % 2 != 0 then []
    else
      var b := PairsF(hex);
      if b.None? then [] else b.value
  }

  predicate PairOk(hex: string, i: nat)
    requires 2 * i + 1 < |hex|
  {
    PairValue(hex[2 * i], hex[2 * i + 1]).Some?
  }

  /** Pair `i + 1` of a text is pair `i` of the text without its first pair. */
  lemma PairShift(hex: string, i: nat)
    requires |hex| % 2 == 0 && 2 * i + 3 < |hex|
    ensures hex[2..][2 * i] == hex[2 * (i + 1)] && hex[2..][2 * i + 1] == hex[2 * (i + 1) + 1]
  {
  }

  /** Converting succeeds exactly when every pair converts, and byte `i` is then the value of pair `i`. */
  lemma {:induction false} PairsMeaning(hex: string)
    requires |hex| % 2 == 0
    ensures PairsF(hex).Some? <==> forall i :: 0 <= i < |hex| / 2 ==> PairOk(hex, i)
    ensures PairsF(hex).Some? ==>
      |PairsF(hex).value| == |hex| / 2 &&
      forall i :: 0 <= i < |hex| / 2 ==> PairValue(hex[2 * i], hex[2 * i + 1]) == Some(PairsF(hex).value[i])
    decreases |hex|
  {
    if |hex| > 0 {
      var t := hex[2..];
      PairsMeaning(t);
      var p := PairsF(hex);
      if p.Some? {
        var q := PairsF(t).value;
        assert p.value == [PairValue(hex[0], hex[1]).value] + q;
        forall i | 0 <= i < |hex| / 2
          ensures PairValue(hex[2 * i], hex[2 * i + 1]) == Some(p.value[i])
        {
          if i > 0 {
            PairShift(hex, i - 1);
            assert p.value[i] == q[i - 1];
          }
        }
      } else if PairValue(hex[0], hex[1]).None? {
        assert !PairOk(hex, 0);
      } else {
        var k :| 0 <= k < |t| / 2 && !PairOk(t, k);
        PairShift(hex, k);
        assert !PairOk(hex, k + 1);
      }
    }
  }

  lemma ConvertEmptyOrOdd(hex: string)
    requires |hex| == 0 || |hex| % 2 == 1
    ensures ConvertF(hex) == []
  {
  }

  /**
   * Even-length text whose pairs all convert gives one byte per pair, the
   * value of that pair; a single bad pair empties the whole result.
   */
  lemma ConvertMeaning(hex: string)
    requires |hex| % 2 == 0
    ensures (forall i :: 0 <= i < |hex| / 2 ==> PairOk(hex, i)) ==>
      |ConvertF(hex)| == |hex| / 2 &&
      forall i :: 0 <= i < |hex| / 2 ==> PairValue(hex[2 * i], hex[2 * i + 1]) == Some(ConvertF(hex)[i])
    ensures (exists i :: 0 <= i < |hex| / 2 && !PairOk(hex, i)) ==> ConvertF(hex) == []
  {
    PairsMeaning(hex);
  }

  /** Two hex digits: the high one times 16 plus the low one, whatever their case. */
  lemma PairOfDigits(hi: char, lo: char)
    requires HexValue(hi).Some? && HexValue(lo).Some?
    ensures PairValue(hi, lo) == Some(16 * HexValue(hi).value + HexValue(lo).value)
  {
  }

  /** The uppercase digits the hex writer prints read back as their values. */
  lemma DigitReadBack(d: nat)
    requires d < 16
    ensures HexValue(PacketHex.HexDigit(d)) == Some(d)
  {
  }

  /** A byte's high and low digit convert back to the byte. */
  lemma ByteDigitsReadBack(x: byte)
    ensures PairValue(PacketHex.HexDigit(x / 16), PacketHex.HexDigit(x % 16)) == Some(x)
  {
    DigitReadBack(x / 16);
    DigitReadBack(x % 16);
  }

  /** Converting a text that starts with one pair. */
  lemma PairsCons(hi: char, lo: char, t: string)
    requires |t| % 2 == 0
    ensures PairsF([hi, lo] + t) ==
      (if PairValue(hi, lo).None? || PairsF(t).None? then None
       else Some([PairValue(hi, lo).value] + PairsF(t).value))
  {
    var h := [hi, lo] + t;
    assert h[0] == hi && h[1] == lo && h[2..] == t;
  }

  /** Decoding what the hex writer prints gives back the bytes it was given. */
  lemma {:induction false} PairsOfHexOf(b: seq<byte>)
    ensures PairsF(PacketHex.HexOf(b)) == Some(b)
    decreases |b|
  {
    if |b| > 0 {
      var hi, lo := PacketHex.HexDigit(b[0] / 16), PacketHex.HexDigit(b[0] % 16);
      var t := PacketHex.HexOf(b[1..]);
      assert PacketHex.HexOf(b) == [hi, lo] + t;
      ByteDigitsReadBack(b[0]);
      PairsOfHexOf(b[1..]);
      PairsCons(hi, lo, t);
      assert [b[0]] + b[1..] == b;
    }
  }

  lemma {:induction false} HexRoundTrip(b: seq<byte>)
    ensures ConvertF(PacketHex.HexOf(b)) == b
  {
    PairsOfHexOf(b);
  }

  // ---------------------------------------------------------------------
  // Routing.

  datatype GamePacket = GamePacket(direction: string, id: int, exId: Option<int>, size: int, data: seq<byte>)

  /** A packet as built from a pipe message: the payload is the converted hex. */
  function PacketOf(direction: string, id: int, exId: Option<int>, size: int, dataHex: string): (p: GamePacket)
    ensures p.data == ConvertF(dataHex)
  {
    GamePacket(direction, id, exId, size, ConvertF(dataHex))
  }

  datatype Handler =
    | SkillList | MagicSkillUse | RequestMagicSkillUse | RequestActionUse
    | NpcInfo | DeleteObject | Die | ValidatePosition | StatusUpdate | CharInfo
    | PrivateStoreSearchItem | WorldExchangeItemList | CommissionList
    | Unhandled

  /** The `switch` in `ProcessPacket`, case by case in source order. */
  function Route(p: GamePacket): Handler
  {
    if p.id == 0x5F && p.direction == "S" then SkillList
    else if p.id == 0x48 && p.direction == "S" then MagicSkillUse
    else if p.id == 0x39 && p.direction == "C" then RequestMagicSkillUse
    else if p.id == 0x56 && p.direction == "C" then RequestActionUse
    else if p.id == 0x0C && p.direction == "S" then NpcInfo
    else if p.id == 0x08 && p.direction == "S" then DeleteObject
    else if p.id == 0x00 && p.direction == "S" then Die
    else if p.id == 0x59 && p.direction == "C" then ValidatePosition
    else if p.id == 0x18 && p.direction == "S" then StatusUpdate
    else if p.id == 0x32 && p.direction == "S" then CharInfo
    else if p.id == 0xFE && p.exId == Some(0x02D4) && p.direction == "S" then PrivateStoreSearchItem
    else if p.id == 0xFE && p.exId == Some(0x02FD) && p.direction == "S" then WorldExchangeItemList
    else if p.id == 0xFE && p.exId == Some(0x00F8) && p.direction == "S" then CommissionList
    else Unhandled
  }

  /** What a handler listens for: an id, a direction and, for 0xFE, an extended id. */
  datatype Key = Key(id: int, direction: string, exId: Option<int>)

  /** The table of handlers, written independently of the `switch`. */
  function KeyOf(h: Handler): Key
    requires h != Unhandled
  {
    match h
    case SkillList => Key(0x5F, "S", None)
    case MagicSkillUse => Key(0x48, "S", None)
    case RequestMagicSkillUse => Key(0x39, "C", None)
    case RequestActionUse => Key(0x56, "C", None)
    case NpcInfo => Key(0x0C, "S", None)
    case DeleteObject => Key(0x08, "S", None)
    case Die => Key(0x00, "S", None)
    case ValidatePosition => Key(0x59, "C", None)
    case StatusUpdate => Key(0x18, "S", None)
    case CharInfo => Key(0x32, "S", None)
    case PrivateStoreSearchItem => Key(0xFE, "S", Some(0x02D4))
    case WorldExchangeItemList => Key(0xFE, "S", Some(0x02FD))
    case CommissionList => Key(0xFE, "S", Some(0x00F8))
  }

  /** A key with no extended id ignores the packet's; one with an extended id needs it. */
  predicate Matches(p: GamePacket, k: Key)
  {
    p.id == k.id && p.direction == k.direction && (k.exId.Some? ==> p.exId == k.exId)
  }

  /** Each handler fires for exactly the packets its key matches. */
  lemma RouteByKey(p: GamePacket, h: Handler)
    requires h != Unhandled
    ensures Route(p) == h <==> Matches(p, KeyOf(h))
  {
  }

  /** A packet no key matches is dropped. */
  lemma UnmatchedDropped(p: GamePacket)
    ensures Route(p) == Unhandled <==> forall h: Handler :: h != Unhandled ==> !Matches(p, KeyOf(h))
  {
    if Route(p) != Unhandled {
      RouteByKey(p, Route(p));
    }
  }

  // ---------------------------------------------------------------------
  // Events.

  datatype MarketEvent =
    | PrivateStoreUpdated(storeItems: seq<PrivateStorePacket.PrivateStoreItem>)
    | WorldExchangeUpdated(exchangeItems: seq<WorldExchangePacket.WorldExchangeItem>, category: uint16)
    | CommissionUpdated(commissionItems: seq<CommissionPacket.CommissionItem>)

  /**
   * The market event `ProcessPacket` publishes, if any: a packet that fails
   * to decode is logged and publishes nothing.
   */
  function ProcessF(p: GamePacket): Option<MarketEvent>
  {
    match Route(p)
    case PrivateStoreSearchItem =>
      var r := PrivateStorePacket.FromBytesF(p.data);
      if r.Ok? then Some(PrivateStoreUpdated(r.value.items)) else None
    case WorldExchangeItemList =>
      var r := WorldExchangePacket.FromBytesF(p.data);
      if r.Ok? then Some(WorldExchangeUpdated(r.value.items, r.value.category)) else None
    case CommissionList =>
      var r := CommissionPacket.FromBytesF(p.data);
      if r.Ok? then Some(CommissionUpdated(r.value.items)) else None
    case _ => None
  }

  /**
   * Only server packets with id 0xFE and one of the three extended ids
   * publish, and each publishes the items its decoder produced.
   */
  lemma ProcessEvents(p: GamePacket)
    ensures ProcessF(p).Some? ==> p.id == 0xFE && p.direction == "S" && p.exId.Some?
    ensures ProcessF(p).Some? && ProcessF(p).value.PrivateStoreUpdated? <==>
      p.id == 0xFE && p.direction == "S" && p.exId == Some(0x02D4) && PrivateStorePacket.FromBytesF(p.data).Ok?
    ensures ProcessF(p).Some? && ProcessF(p).value.PrivateStoreUpdated? ==>
      ProcessF(p).value.storeItems == PrivateStorePacket.FromBytesF(p.data).value.items
    ensures ProcessF(p).Some? && ProcessF(p).value.WorldExchangeUpdated? <==>
      p.id == 0xFE && p.direction == "S" && p.exId == Some(0x02FD) && WorldExchangePacket.FromBytesF(p.data).Ok?
    ensures ProcessF(p).Some? && ProcessF(p).value.WorldExchangeUpdated? ==>
      ProcessF(p).value.exchangeItems == WorldExchangePacket.FromBytesF(p.data).value.items &&
      ProcessF(p).value.category == WorldExchangePacket.FromBytesF(p.data).value.category
    ensures ProcessF(p).Some? && ProcessF(p).value.CommissionUpdated? <==>
      p.id == 0xFE && p.direction == "S" && p.exId == Some(0x00F8) && CommissionPacket.FromBytesF(p.data).Ok?
    ensures ProcessF(p).Some? && ProcessF(p).value.CommissionUpdated? ==>
      ProcessF(p).value.commissionItems == CommissionPacket.FromBytesF(p.data).value.items
  {
  }

  // ---------------------------------------------------------------------
  // The service.

  class PacketParserService {
    var isRunning: bool

    constructor ()
      ensures !isRunning
    {
      isRunning := false;
    }

    /** Sets the flag; a second start leaves it set. */
    method StartAsync()
      modifies this
      ensures isRunning
    {
      if isRunning {
        return;
      }
      isRunning := true;
    }

    /** Clears the flag; stopping a stopped service changes nothing. */
    method Stop()
      modifies this
      ensures !isRunning
      ensures !old(isRunning) ==> unchanged(this)
    {
      if !isRunning {
        return;
      }
      isRunning := false;
    }
  }
}
