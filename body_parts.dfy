/**
 * Body-part slot decoding, shared by `CommissionDecoders.DecodeBodyPart` and
 * `StoreDecoders.DecodeBodyPart`. A value that equals an enum member gives
 * that member's name. Otherwise the members are walked from the largest value
 * down: each nonzero member whose bits all lie in what is left is taken and
 * its bits cleared. The names taken are joined with " | ", and when none is
 * taken the text is "UNKNOWN_SLOT(0x…)" with the value in uppercase hex.
 *
 * A 64-bit mask is modelled by the set of positions of its one bits:
 * `(remaining & v) == v` is `BitSet(v) <= remaining` and `remaining &= ~v`
 * is `remaining - BitSet(v)`. The two decoders differ only in their member
 * tables, which are a parameter here.
 */
module BodyParts {
  import opened Bytes
  import opened Wrappers
  import opened Text
  import PacketHex

  /** One enum member: its value and its name. */
  datatype Slot = Slot(value: nat, name: string)

  /** The positions of the one bits of `n`. */
  function BitSet(n: nat): set<nat>
    decreases n
  {
    if n == 0 then {}
    else
      var upper := set k | k in BitSet(n / 2) :: k + 1;
      if n % 2 == 1 then {0} + upper else upper
  }

  /** A 64-bit signed value read as unsigned: its two's-complement bits. */
  function Unsigned64(x: int64): (r: nat)
    ensures r < 0x1_0000_0000_0000_0000
  {
    if x < 0 then x as int + 0x1_0000_0000_0000_0000 else x as int
  }

  /** `(remaining & v) == v`: every bit of `v` is set in `remaining`. */
  predicate Fits(v: nat, remaining: set<nat>)
  {
    BitSet(v) <= remaining
  }

  /** A nonzero value has a bit. */
  lemma {:induction false} NonzeroHasBit(n: nat)
    requires n > 0
    ensures BitSet(n) != {}
    decreases n
  {
    if n % 2 == 0 {
      NonzeroHasBit(n / 2);
      var k :| k in BitSet(n / 2);
      assert k + 1 in BitSet(n);
    }
  }

  /** A value whose bits all lie in `x`'s bits is no larger than `x`. */
  lemma {:induction false} BitsNoLarger(v: nat, x: nat)
    requires BitSet(v) <= BitSet(x)
    ensures v <= x
    decreases x
  {
    if v > 0 {
      NonzeroHasBit(v);
      if x == 0 {
        assert false;
      }
      assert BitSet(v / 2) <= BitSet(x / 2) by {
        forall k | k in BitSet(v / 2) ensures k in BitSet(x / 2) {
          assert k + 1 in BitSet(v);
        }
      }
      BitsNoLarger(v / 2, x / 2);
      if v % 2 == 1 {
        assert 0 in BitSet(v);
      }
    }
  }

  /** Each value is larger than the next: the order `OrderByDescending` visits. */
  predicate Descending(t: seq<Slot>)
  {
    forall i :: 0 <= i < |t| - 1 ==> t[i].value > t[i + 1].value
  }

  /** Larger than every later value, not only the next one. */
  lemma {:induction false} DescendingEverywhere(t: seq<Slot>, i: nat, j: nat)
    requires Descending(t) && i < j < |t|
    ensures t[i].value > t[j].value
    decreases j - i
  {
    if j > i + 1 {
      DescendingEverywhere(t, i + 1, j);
    }
  }

  function Values(t: seq<Slot>): (r: seq<nat>)
    ensures |r| == |t| && forall i :: 0 <= i < |t| ==> r[i] == t[i].value
  {
    seq(|t|, i requires 0 <= i < |t| => t[i].value)
  }

  function Names(t: seq<Slot>): (r: seq<string>)
    ensures |r| == |t| && forall i :: 0 <= i < |t| ==> r[i] == t[i].name
  {
    seq(|t|, i requires 0 <= i < |t| => t[i].name)
  }

  // ---------------------------------------------------------------------
  // The greedy walk.

  /** The members the walk takes, in the order it takes them. */
  function Greedy(t: seq<Slot>, remaining: set<nat>): seq<Slot>
    decreases |t|
  {
    if |t| == 0 then []
    else if t[0].value != 0 && Fits(t[0].value, remaining) then [t[0]] + Greedy(t[1..], remaining - BitSet(t[0].value))
    else Greedy(t[1..], remaining)
  }

  /** The bits left over when the walk ends. */
  function Leftover(t: seq<Slot>, remaining: set<nat>): set<nat>
    decreases |t|
  {
    if |t| == 0 then remaining
    else if t[0].value != 0 && Fits(t[0].value, remaining) then Leftover(t[1..], remaining - BitSet(t[0].value))
    else Leftover(t[1..], remaining)
  }

  /** Every member taken is a nonzero member of the table whose bits all lie in the input. */
  lemma {:induction false} GreedyTakesFitting(t: seq<Slot>, x: set<nat>)
    ensures forall s :: s in Greedy(t, x) ==> s in t && s.value != 0 && Fits(s.value, x)
    decreases |t|
  {
    if |t| > 0 {
      var v := t[0].value;
      if v != 0 && Fits(v, x) {
        GreedyTakesFitting(t[1..], x - BitSet(v));
      } else {
        GreedyTakesFitting(t[1..], x);
      }
    }
  }

  /** No two members taken share a bit. */
  lemma {:induction false} GreedyDisjoint(t: seq<Slot>, x: set<nat>)
    ensures forall i, j :: 0 <= i < j < |Greedy(t, x)| ==> BitSet(Greedy(t, x)[i].value) !! BitSet(Greedy(t, x)[j].value)
    decreases |t|
  {
    if |t| > 0 {
      var v := t[0].value;
      if v != 0 && Fits(v, x) {
        var rest := Greedy(t[1..], x - BitSet(v));
        GreedyDisjoint(t[1..], x - BitSet(v));
        GreedyTakesFitting(t[1..], x - BitSet(v));
        forall j | 0 <= j < |rest| ensures BitSet(v) !! BitSet(rest[j].value) {
          assert rest[j] in rest;
        }
      } else {
        GreedyDisjoint(t[1..], x);
      }
    }
  }

  /** Over a descending table, the names come out in descending value order. */
  lemma {:induction false} GreedyDescending(t: seq<Slot>, x: set<nat>)
    requires Descending(t)
    ensures Descending(Greedy(t, x))
    decreases |t|
  {
    if |t| > 0 {
      var v := t[0].value;
      var y := if v != 0 && Fits(v, x) then x - BitSet(v) else x;
      GreedyDescending(t[1..], y);
      if v != 0 && Fits(v, x) {
        var rest := Greedy(t[1..], y);
        if |rest| > 0 {
          GreedyTakesFitting(t[1..], y);
          assert rest[0] in t[1..];
          var k :| 0 <= k < |t[1..]| && t[1..][k] == rest[0];
          DescendingEverywhere(t, 0, k + 1);
        }
      }
    }
  }

  /** The walk takes nothing exactly when no nonzero member fits the input. */
  lemma {:induction false} GreedyEmptyIff(t: seq<Slot>, x: set<nat>)
    ensures Greedy(t, x) == [] <==> forall i :: 0 <= i < |t| ==> t[i].value == 0 || !Fits(t[i].value, x)
    decreases |t|
  {
    if |t| > 0 {
      GreedyEmptyIff(t[1..], x);
      assert forall i :: 1 <= i < |t| ==> t[i] == t[1..][i - 1];
    }
  }

  /** The leftover lies within the input. */
  lemma {:induction false} LeftoverWithin(t: seq<Slot>, x: set<nat>)
    ensures Leftover(t, x) <= x
    decreases |t|
  {
    if |t| > 0 {
      var v := t[0].value;
      if v != 0 && Fits(v, x) {
        LeftoverWithin(t[1..], x - BitSet(v));
      } else {
        LeftoverWithin(t[1..], x);
      }
    }
  }

  /** The walk is maximal: no nonzero member fits what it leaves over. */
  lemma {:induction false} LeftoverHoldsNoMember(t: seq<Slot>, x: set<nat>)
    ensures forall i :: 0 <= i < |t| && t[i].value != 0 ==> !Fits(t[i].value, Leftover(t, x))
    decreases |t|
  {
    if |t| > 0 {
      var v := t[0].value;
      var y := if v != 0 && Fits(v, x) then x - BitSet(v) else x;
      LeftoverHoldsNoMember(t[1..], y);
      LeftoverWithin(t[1..], y);
      assert forall i :: 1 <= i < |t| ==> t[i] == t[1..][i - 1];
      if v != 0 {
        NonzeroHasBit(v);
      }
    }
  }

  /** Tables with the same values in the same order take the same values from every input. */
  lemma {:induction false} GreedySameValues(t1: seq<Slot>, t2: seq<Slot>, x: set<nat>)
    requires Values(t1) == Values(t2)
    ensures Values(Greedy(t1, x)) == Values(Greedy(t2, x))
    decreases |t1|
  {
    if |t1| > 0 {
      assert t1[0].value == Values(t1)[0] == Values(t2)[0] == t2[0].value;
      assert Values(t1[1..]) == Values(t2[1..]);
      var v := t1[0].value;
      if v != 0 && Fits(v, x) {
        GreedySameValues(t1[1..], t2[1..], x - BitSet(v));
      } else {
        GreedySameValues(t1[1..], t2[1..], x);
      }
    }
  }

  /** Members larger than `x` never fit within `x`'s bits, so the walk passes them by. */
  lemma {:induction false} GreedyAfterLarger(t: seq<Slot>, k: nat, x: nat, remaining: set<nat>)
    requires k <= |t| && remaining <= BitSet(x)
    requires forall i :: 0 <= i < k ==> t[i].value > x
    ensures Greedy(t, remaining) == Greedy(t[k..], remaining)
    decreases k
  {
    if k > 0 {
      var v := t[0].value;
      if Fits(v, remaining) {
        BitsNoLarger(v, x);
      }
      assert forall i :: 0 <= i < k - 1 ==> t[1..][i] == t[i + 1];
      GreedyAfterLarger(t[1..], k - 1, x, remaining);
      assert t[1..][k - 1..] == t[k..];
    }
  }

  // ---------------------------------------------------------------------
  // Exact match and the whole decoder.

  /** The name of a member whose value equals `x`, looking through the table in order. */
  function ExactName(t: seq<Slot>, x: int64): (r: Option<string>)
    ensures r.Some? <==> exists i :: 0 <= i < |t| && t[i].value == x as int
    ensures r.Some? ==> exists i :: 0 <= i < |t| && t[i].value == x as int && t[i].name == r.value
    decreases |t|
  {
    if |t| == 0 then None
    else if t[0].value == x as int then Some(t[0].name)
    else
      var r := ExactName(t[1..], x);
      assert forall i :: 1 <= i < |t| ==> t[i] == t[1..][i - 1];
      r
  }

  /** In a descending table, a value strictly between two neighbours has no member of its own. */
  lemma NoExactBetween(t: seq<Slot>, k: nat, x: int64)
    requires Descending(t) && k + 1 < |t| && t[k].value > x as int > t[k + 1].value
    ensures ExactName(t, x).None?
  {
    forall i | 0 <= i < |t| ensures t[i].value != x as int {
      if i < k {
        DescendingEverywhere(t, i, k);
      } else if i > k + 1 {
        DescendingEverywhere(t, k + 1, i);
      }
    }
  }

  /** Tables with the same values in the same order both find an exact member or both do not. */
  lemma SameValuesSameExact(t1: seq<Slot>, t2: seq<Slot>, x: int64)
    requires Values(t1) == Values(t2)
    ensures ExactName(t1, x).Some? <==> ExactName(t2, x).Some?
  {
    if ExactName(t1, x).Some? {
      var i :| 0 <= i < |t1| && t1[i].value == x as int;
      assert t2[i].value == Values(t2)[i] == Values(t1)[i];
    }
    if ExactName(t2, x).Some? {
      var i :| 0 <= i < |t2| && t2[i].value == x as int;
      assert t1[i].value == Values(t1)[i] == Values(t2)[i];
    }
  }

  /** `{value:X}`: uppercase hexadecimal digits with no leading zero. */
  function HexText(n: nat): (r: string)
    ensures |r| > 0
    ensures forall i :: 0 <= i < |r| ==> '0' <= r[i] <= '9' || 'A' <= r[i] <= 'F'
    decreases n
  {
    if n < 16 then [PacketHex.HexDigit(n)] else HexText(n / 16) + [PacketHex.HexDigit(n % 16)]
  }

  /** The bits of the input as the walk starts. */
  function InputBits(bodyPart: int64): set<nat>
  {
    BitSet(Unsigned64(bodyPart))
  }

  /** The text for a value no nonzero member fits. */
  function UnknownSlot(bodyPart: int64): string
  {
    "UNKNOWN_SLOT(0x" + HexText(Unsigned64(bodyPart)) + ")"
  }

  /** The text `DecodeBodyPart` returns for `bodyPart` over the member table `t`. */
  function DecodeF(t: seq<Slot>, bodyPart: int64): (r: string)
    ensures (exists i :: 0 <= i < |t| && t[i].value == bodyPart as int) ==>
      exists i :: 0 <= i < |t| && t[i].value == bodyPart as int && r == t[i].name
    ensures (forall i :: 0 <= i < |t| ==>
      t[i].value != bodyPart as int && (t[i].value == 0 || !Fits(t[i].value, InputBits(bodyPart))))
      ==> r == UnknownSlot(bodyPart)
  {
    GreedyEmptyIff(t, InputBits(bodyPart));
    match ExactName(t, bodyPart)
    case Some(name) => name
    case None =>
      var taken := Greedy(t, InputBits(bodyPart));
      if |taken| > 0 then JoinWith(Names(taken), " | ") else UnknownSlot(bodyPart)
  }

  /** With no exact member, the text is the names the walk takes, when it takes any. */
  lemma DecodedByWalk(t: seq<Slot>, bodyPart: int64, taken: seq<Slot>)
    requires ExactName(t, bodyPart).None? && Greedy(t, InputBits(bodyPart)) == taken && |taken| > 0
    ensures DecodeF(t, bodyPart) == JoinWith(Names(taken), " | ")
  {
  }

  /**
   * Over a table whose names all start with 'S', a value with no exact member
   * decodes as unknown exactly when no nonzero member fits it.
   */
  lemma UnknownIff(t: seq<Slot>, bodyPart: int64)
    requires forall i :: 0 <= i < |t| ==> |t[i].name| > 0 && t[i].name[0] == 'S'
    requires ExactName(t, bodyPart).None?
    ensures DecodeF(t, bodyPart) == UnknownSlot(bodyPart)
        <==> forall i :: 0 <= i < |t| ==> t[i].value == 0 || !Fits(t[i].value, InputBits(bodyPart))
  {
    var taken := Greedy(t, InputBits(bodyPart));
    GreedyEmptyIff(t, InputBits(bodyPart));
    if |taken| > 0 {
      GreedyTakesFitting(t, InputBits(bodyPart));
      assert taken[0] in taken;
      var text := JoinWith(Names(taken), " | ");
      assert text[0] == 'S' by {
        if |taken| > 1 {
          assert text == taken[0].name + " | " + JoinWith(Names(taken)[1..], " | ");
        }
      }
      assert UnknownSlot(bodyPart)[0] == 'U';
    }
  }

  // ---------------------------------------------------------------------
  // The loops.

  /** The exact-match loop: the first member whose value equals `bodyPart`. */
  method FindExact(t: seq<Slot>, bodyPart: int64) returns (r: Option<string>)
    ensures r == ExactName(t, bodyPart)
  {
    for i := 0 to |t|
      invariant ExactName(t, bodyPart) == ExactName(t[i..], bodyPart)
    {
      assert t[i..][1..] == t[i + 1..];
      if t[i].value == bodyPart as int {
        return Some(t[i].name);
      }
    }
    return None;
  }

  /** The descending walk with its mutable `remaining` and list of names. */
  method Decompose(t: seq<Slot>, bodyPart: int64) returns (parts: seq<string>, remaining: set<nat>)
    ensures parts == Names(Greedy(t, InputBits(bodyPart)))
    ensures remaining == Leftover(t, InputBits(bodyPart))
  {
    parts := [];
    remaining := InputBits(bodyPart);
    for i := 0 to |t|
      invariant parts + Names(Greedy(t[i..], remaining)) == Names(Greedy(t, InputBits(bodyPart)))
      invariant Leftover(t[i..], remaining) == Leftover(t, InputBits(bodyPart))
    {
      assert t[i..][1..] == t[i + 1..];
      var v := t[i].value;
      if v != 0 && BitSet(v) <= remaining {
        assert Names(Greedy(t[i..], remaining)) == [t[i].name] + Names(Greedy(t[i + 1..], remaining - BitSet(v)));
        parts := parts + [t[i].name];
        remaining := remaining - BitSet(v);
      }
    }
  }

  /** `DecodeBodyPart` over the member table `t`. */
  method DecodeBodyPart(t: seq<Slot>, bodyPart: int64) returns (text: string)
    ensures text == DecodeF(t, bodyPart)
  {
    var exact := FindExact(t, bodyPart);
    if exact.Some? {
      return exact.value;
    }
    var parts, _ := Decompose(t, bodyPart);
    if |parts| > 0 {
      text := JoinWith(parts, " | ");
    } else {
      text := UnknownSlot(bodyPart);
    }
  }
}
