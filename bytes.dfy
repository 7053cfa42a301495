/**
 * Fixed-width little-endian integers and the stream reader shared by the
 * packet decoders.
 *
 * The decoders read a byte array through a .NET BinaryReader over a
 * MemoryStream. A read works on the unread suffix of the stream. A fixed-width
 * read that finds too few bytes throws EndOfStreamException and leaves the
 * stream positioned at its end. `ReadBytes(n)` never throws: it returns
 * whatever is left when fewer than `n` bytes remain.
 */
module Bytes {

  type byte = x: int | 0 <= x < 0x100
  type uint16 = x: int | 0 <= x < 0x1_0000
  type int16 = x: int | -0x8000 <= x < 0x8000
  type int32 = x: int | -0x8000_0000 <= x < 0x8000_0000
  type uint32 = x: int | 0 <= x < 0x1_0000_0000
  type int64 = x: int | -0x8000_0000_0000_0000 <= x < 0x8000_0000_0000_0000
  type uint64 = x: int | 0 <= x < 0x1_0000_0000_0000_0000

  const INT32_MAX: int := 0x7FFF_FFFF
  const INT64_MAX: int := 0x7FFF_FFFF_FFFF_FFFF

  function Pow256(w: nat): (r: nat)
    ensures r >= 1
  {
    if w == 0 then 1 else 256 * Pow256(w - 1)
  }

  /** Unsigned value of a little-endian byte string. */
  function FromLE(s: seq<byte>): nat
  {
    if |s| == 0 then 0 else s[0] + 256 * FromLE(s[1..])
  }

  /** The `w` low-order bytes of `n`, least significant first. */
  function ToLE(n: nat, w: nat): (r: seq<byte>)
    ensures |r| == w
  {
    if w == 0 then [] else [n % 256] + ToLE(n / 256, w - 1)
  }

  lemma {:induction false} FromLEBound(s: seq<byte>)
    ensures FromLE(s) < Pow256(|s|)
  {
    if |s| > 0 {
      FromLEBound(s[1..]);
    }
  }

  lemma {:induction false} FromToLE(n: nat, w: nat)
    requires n < Pow256(w)
    ensures FromLE(ToLE(n, w)) == n
  {
    if w > 0 {
      FromToLE(n / 256, w - 1);
      assert ToLE(n, w)[1..] == ToLE(n / 256, w - 1);
    }
  }

  lemma {:induction false} ToFromLE(s: seq<byte>)
    ensures ToLE(FromLE(s), |s|) == s
  {
    if |s| > 0 {
      ToFromLE(s[1..]);
      assert (s[0] + 256 * FromLE(s[1..])) / 256 == FromLE(s[1..]);
    }
  }

  // Two's complement views of the unsigned words.

  function Int16Of(u: uint16): int16 { if u < 0x8000 then u else u - 0x1_0000 }
  function Int32Of(u: uint32): int32 { if u < 0x8000_0000 then u else u - 0x1_0000_0000 }
  function Int64Of(u: uint64): int64
  {
    if u < 0x8000_0000_0000_0000 then u else u - 0x1_0000_0000_0000_0000
  }
  function UInt16Of(v: int16): uint16 { if v >= 0 then v else v + 0x1_0000 }
  function UInt32Of(v: int32): uint32 { if v >= 0 then v else v + 0x1_0000_0000 }
  function UInt64Of(v: int64): uint64 { if v >= 0 then v else v + 0x1_0000_0000_0000_0000 }

  /** C# unchecked 32-bit arithmetic: the result wraps modulo 2^32. */
  function Wrap32(x: int): (r: int32)
    ensures (r - x) % 0x1_0000_0000 == 0
  {
    Int32Of(x % 0x1_0000_0000)
  }

  /** C# unchecked 64-bit arithmetic: the result wraps modulo 2^64. */
  function Wrap64(x: int): (r: int64)
    ensures (r - x) % 0x1_0000_0000_0000_0000 == 0
  {
    Int64Of(x % 0x1_0000_0000_0000_0000)
  }

  /** The unchecked conversion `(byte)k`. */
  function ToByte(k: int): byte { k % 256 }

  // Little-endian encodings written by BinaryWriter.

  function U16Bytes(v: uint16): seq<byte> { ToLE(v, 2) }
  /** The two bytes of a code unit, low byte first. */
  lemma U16BytesOf(v: uint16)
    ensures U16Bytes(v) == [v % 256, v / 256]
  {
    assert ToLE(v / 256, 1) == [(v / 256) % 256] + ToLE(v / 256 / 256, 0);
  }

  function I16Bytes(v: int16): seq<byte> { ToLE(UInt16Of(v), 2) }
  function U32Bytes(v: uint32): seq<byte> { ToLE(v, 4) }
  function I32Bytes(v: int32): seq<byte> { ToLE(UInt32Of(v), 4) }
  function U64Bytes(v: uint64): seq<byte> { ToLE(v, 8) }
  function I64Bytes(v: int64): seq<byte> { ToLE(UInt64Of(v), 8) }

  /**
   * Outcome of a read on the unread suffix of a stream: the value and what
   * is left, or end of stream (after which the stream is at its end).
   */
  datatype Read<T> = Got(value: T, rest: seq<byte>) | Eof

  /** The unread suffix after a read. */
  function After<T>(r: Read<T>): seq<byte>
  {
    if r.Got? then r.rest else []
  }

  /** An unsigned little-endian word of `w` bytes. */
  function TakeWord(s: seq<byte>, w: nat): (r: Read<nat>)
    ensures r.Got? <==> w <= |s|
    ensures r.Got? ==> r.value < Pow256(w) && r.rest == s[w..]
  {
    if |s| < w then Eof
    else
      FromLEBound(s[..w]);
      Got(FromLE(s[..w]), s[w..])
  }

  function TakeByte(s: seq<byte>): Read<byte>
  {
    var r := TakeWord(s, 1);
    if r.Eof? then Eof else Got(r.value, r.rest)
  }

  function TakeUInt16(s: seq<byte>): Read<uint16>
  {
    var r := TakeWord(s, 2);
    if r.Eof? then Eof else Got(r.value, r.rest)
  }

  function TakeInt16(s: seq<byte>): Read<int16>
  {
    var r := TakeWord(s, 2);
    if r.Eof? then Eof else Got(Int16Of(r.value), r.rest)
  }

  function TakeUInt32(s: seq<byte>): Read<uint32>
  {
    var r := TakeWord(s, 4);
    if r.Eof? then Eof else Got(r.value, r.rest)
  }

  function TakeInt32(s: seq<byte>): Read<int32>
  {
    var r := TakeWord(s, 4);
    if r.Eof? then Eof else Got(Int32Of(r.value), r.rest)
  }

  function TakeUInt64(s: seq<byte>): Read<uint64>
  {
    var r := TakeWord(s, 8);
    if r.Eof? then Eof else Got(r.value, r.rest)
  }

  function TakeInt64(s: seq<byte>): Read<int64>
  {
    var r := TakeWord(s, 8);
    if r.Eof? then Eof else Got(Int64Of(r.value), r.rest)
  }

  /** `ReadBytes(n)`: at most `n` bytes, never an error. */
  function TakeAtMost(s: seq<byte>, n: nat): (r: seq<byte>)
    ensures |r| == if n <= |s| then n else |s|
    ensures r == s[..|r|]
  {
    if n <= |s| then s[..n] else s
  }

  /** A word read at offset `k` of a stream long enough for it. */
  lemma TakeWordAt(s: seq<byte>, k: nat, w: nat)
    requires k + w <= |s|
    ensures TakeWord(s[k..], w).Got? && TakeWord(s[k..], w).rest == s[k + w..]
  {
    DropDrop(s, k, w);
  }

  /** A stream shorter than `w` bytes has no word of `w` bytes. */
  lemma TakeWordShort(s: seq<byte>, w: nat)
    requires |s| < w
    ensures TakeWord(s, w) == Eof
  {
  }

  /** The first `|b|` bytes of `b + rest` are `b`, and `rest` follows them. */
  lemma TakeAtMostOf(b: seq<byte>, rest: seq<byte>)
    ensures TakeAtMost(b + rest, |b|) == b && (b + rest)[|b|..] == rest
  {
    SplitAppend(b, rest);
  }

  /** Reading back what was written: a word followed by anything. */
  lemma TakeWordOf(n: nat, w: nat, rest: seq<byte>)
    requires n < Pow256(w)
    ensures TakeWord(ToLE(n, w) + rest, w) == Got(n, rest)
  {
    SplitAppend(ToLE(n, w), rest);
    FromToLE(n, w);
  }

  lemma TakeByteOf(v: byte, rest: seq<byte>)
    ensures TakeByte([v] + rest) == Got(v, rest)
  {
    assert [v] == ToLE(v, 1);
    TakeWordOf(v, 1, rest);
  }

  lemma TakeUInt16Of(v: uint16, rest: seq<byte>)
    ensures TakeUInt16(U16Bytes(v) + rest) == Got(v, rest)
  {
    TakeWordOf(v, 2, rest);
  }

  lemma TakeInt16Of(v: int16, rest: seq<byte>)
    ensures TakeInt16(I16Bytes(v) + rest) == Got(v, rest)
  {
    TakeWordOf(UInt16Of(v), 2, rest);
  }

  lemma TakeUInt32Of(v: uint32, rest: seq<byte>)
    ensures TakeUInt32(U32Bytes(v) + rest) == Got(v, rest)
  {
    TakeWordOf(v, 4, rest);
  }

  lemma TakeInt32Of(v: int32, rest: seq<byte>)
    ensures TakeInt32(I32Bytes(v) + rest) == Got(v, rest)
  {
    TakeWordOf(UInt32Of(v), 4, rest);
  }

  lemma TakeUInt64Of(v: uint64, rest: seq<byte>)
    ensures TakeUInt64(U64Bytes(v) + rest) == Got(v, rest)
  {
    TakeWordOf(v, 8, rest);
  }

  lemma TakeInt64Of(v: int64, rest: seq<byte>)
    ensures TakeInt64(I64Bytes(v) + rest) == Got(v, rest)
  {
    TakeWordOf(UInt64Of(v), 8, rest);
  }

  /** Outcome of a counted read loop whose failure at step `i` is reported as `i + 1`. */
  datatype Repeated<T> = Repeated(values: seq<T>, rest: seq<byte>) | FailedAt(index: int)

  /**
   * `for (int i = ...; i < n; i++) values.Add(read())` from step `i`, after the
   * values `acc`, where a failed read ends the loop with its 1-based index.
   */
  function RepeatF<T>(f: seq<byte> -> Read<T>, s: seq<byte>, i: int, n: int, acc: seq<T>): Repeated<T>
    decreases n - i
  {
    if i >= n then Repeated(acc, s)
    else
      var x := f(s);
      if x.Eof? then FailedAt(i + 1) else RepeatF(f, x.rest, i + 1, n, acc + [x.value])
  }

  /** The loop adds one value per remaining step, or fails at a step it had still to run. */
  lemma {:induction false} RepeatCount<T>(f: seq<byte> -> Read<T>, s: seq<byte>, i: int, n: int, acc: seq<T>)
    ensures var r := RepeatF(f, s, i, n, acc);
      && (r.Repeated? ==> |r.values| == |acc| + (if n > i then n - i else 0))
      && (r.FailedAt? ==> i < r.index <= n)
    decreases n - i
  {
    if i < n {
      var x := f(s);
      if x.Got? {
        RepeatCount(f, x.rest, i + 1, n, acc + [x.value]);
      }
    }
  }

  /** The loop over a chain of suffixes, each read leading to the next suffix. */
  lemma {:induction false} RepeatOfChain<T>(f: seq<byte> -> Read<T>, ss: seq<seq<byte>>, xs: seq<T>, i: int, n: int, acc: seq<T>)
    requires |ss| == |xs| + 1 && n - i == |xs|
    requires forall k :: 0 <= k < |xs| ==> f(ss[k]) == Got(xs[k], ss[k + 1])
    ensures RepeatF(f, ss[0], i, n, acc) == Repeated(acc + xs, ss[|xs|])
    decreases |xs|
  {
    if |xs| == 0 {
      assert acc + xs == acc;
    } else {
      assert f(ss[0]) == Got(xs[0], ss[1]);
      forall k | 0 <= k < |xs[1..]|
        ensures f(ss[1..][k]) == Got(xs[1..][k], ss[1..][k + 1])
      {
        assert f(ss[k + 1]) == Got(xs[k + 1], ss[k + 2]);
      }
      RepeatOfChain(f, ss[1..], xs[1..], i + 1, n, acc + [xs[0]]);
      assert acc + [xs[0]] + xs[1..] == acc + xs;
    }
  }

  /**
   * `for (...; i < n; i++) { try { values.Add(read()); } catch { break; } }`
   * from step `i`, after the values `acc`: the first failed read ends the loop
   * and keeps what was read before it.
   */
  function RepeatUntilF<T>(f: seq<byte> -> Read<T>, s: seq<byte>, i: int, n: int, acc: seq<T>): seq<T>
    decreases n - i
  {
    if i >= n then acc
    else
      var x := f(s);
      if x.Eof? then acc else RepeatUntilF(f, x.rest, i + 1, n, acc + [x.value])
  }

  /** One step of the loop: a failed read ends it, a successful one moves on to the next step. */
  lemma RepeatUntilStep<T>(f: seq<byte> -> Read<T>, s: seq<byte>, i: int, n: int, acc: seq<T>)
    requires i < n
    ensures f(s).Eof? ==> RepeatUntilF(f, s, i, n, acc) == acc
    ensures f(s).Got? ==> RepeatUntilF(f, s, i, n, acc) == RepeatUntilF(f, f(s).rest, i + 1, n, acc + [f(s).value])
  {
  }

  /** The loop keeps what it had and adds at most one value per remaining step. */
  lemma {:induction false} RepeatUntilBound<T>(f: seq<byte> -> Read<T>, s: seq<byte>, i: int, n: int, acc: seq<T>)
    ensures var r := RepeatUntilF(f, s, i, n, acc);
      |acc| <= |r| <= |acc| + (if n > i then n - i else 0) && r[..|acc|] == acc
    decreases n - i
  {
    if i < n {
      var x := f(s);
      if x.Got? {
        RepeatUntilBound(f, x.rest, i + 1, n, acc + [x.value]);
        var r := RepeatUntilF(f, x.rest, i + 1, n, acc + [x.value]);
        assert r[..|acc|] == r[..|acc| + 1][..|acc|];
      }
    }
  }

  /**
   * Over a chain of suffixes the loop collects every value of the chain, then
   * stops because it ran out of steps or because the next read fails.
   */
  lemma {:induction false} RepeatUntilOfChain<T>(f: seq<byte> -> Read<T>, ss: seq<seq<byte>>, xs: seq<T>, i: int, n: int, acc: seq<T>)
    requires |ss| == |xs| + 1 && i + |xs| <= n
    requires forall k :: 0 <= k < |xs| ==> f(ss[k]) == Got(xs[k], ss[k + 1])
    requires i + |xs| < n ==> f(ss[|xs|]).Eof?
    ensures RepeatUntilF(f, ss[0], i, n, acc) == acc + xs
    decreases |xs|
  {
    if |xs| == 0 {
      assert acc + xs == acc;
    } else {
      assert f(ss[0]) == Got(xs[0], ss[1]);
      forall k | 0 <= k < |xs[1..]|
        ensures f(ss[1..][k]) == Got(xs[1..][k], ss[1..][k + 1])
      {
        assert f(ss[k + 1]) == Got(xs[k + 1], ss[k + 2]);
      }
      assert ss[1..][|xs[1..]|] == ss[|xs|];
      RepeatUntilOfChain(f, ss[1..], xs[1..], i + 1, n, acc + [xs[0]]);
      assert acc + [xs[0]] + xs[1..] == acc + xs;
    }
  }

  /**
   * A BinaryReader over a MemoryStream holding `data`, positioned at `pos`.
   */
  class Reader {
    const data: seq<byte>
    var pos: nat

    ghost predicate Valid()
      reads this
    {
      pos <= |data|
    }

    /** The bytes not read yet. */
    function Rest(): seq<byte>
      reads this
      requires Valid()
    {
      data[pos..]
    }

    constructor (d: seq<byte>)
      ensures Valid() && data == d && pos == 0 && Rest() == d
    {
      data := d;
      pos := 0;
    }

    /** `BaseStream.Position`. */
    function Position(): nat
      reads this
    {
      pos
    }

    /** `BaseStream.Length`. */
    function Length(): nat
    {
      |data|
    }

    method ReadWord(w: nat) returns (r: Read<nat>)
      requires Valid()
      modifies this
      ensures Valid()
      ensures r == TakeWord(old(Rest()), w) && Rest() == After(r)
    {
      if |data| - pos < w {
        pos := |data|;
        return Eof;
      }
      FromLEBound(data[pos..pos + w]);
      assert data[pos..][..w] == data[pos..pos + w];
      r := Got(FromLE(data[pos..pos + w]), data[pos + w..]);
      pos := pos + w;
    }

    method ReadByte() returns (r: Read<byte>)
      requires Valid()
      modifies this
      ensures Valid()
      ensures r == TakeByte(old(Rest())) && Rest() == After(r)
    {
      var x := ReadWord(1);
      r := if x.Eof? then Eof else Got(x.value, x.rest);
    }

    method ReadUInt16() returns (r: Read<uint16>)
      requires Valid()
      modifies this
      ensures Valid()
      ensures r == TakeUInt16(old(Rest())) && Rest() == After(r)
    {
      var x := ReadWord(2);
      r := if x.Eof? then Eof else Got(x.value, x.rest);
    }

    method ReadInt16() returns (r: Read<int16>)
      requires Valid()
      modifies this
      ensures Valid()
      ensures r == TakeInt16(old(Rest())) && Rest() == After(r)
    {
      var x := ReadWord(2);
      r := if x.Eof? then Eof else Got(Int16Of(x.value), x.rest);
    }

    method ReadUInt32() returns (r: Read<uint32>)
      requires Valid()
      modifies this
      ensures Valid()
      ensures r == TakeUInt32(old(Rest())) && Rest() == After(r)
    {
      var x := ReadWord(4);
      r := if x.Eof? then Eof else Got(x.value, x.rest);
    }

    method ReadInt32() returns (r: Read<int32>)
      requires Valid()
      modifies this
      ensures Valid()
      ensures r == TakeInt32(old(Rest())) && Rest() == After(r)
    {
      var x := ReadWord(4);
      r := if x.Eof? then Eof else Got(Int32Of(x.value), x.rest);
    }

    method ReadUInt64() returns (r: Read<uint64>)
      requires Valid()
      modifies this
      ensures Valid()
      ensures r == TakeUInt64(old(Rest())) && Rest() == After(r)
    {
      var x := ReadWord(8);
      r := if x.Eof? then Eof else Got(x.value, x.rest);
    }

    method ReadInt64() returns (r: Read<int64>)
      requires Valid()
      modifies this
      ensures Valid()
      ensures r == TakeInt64(old(Rest())) && Rest() == After(r)
    {
      var x := ReadWord(8);
      r := if x.Eof? then Eof else Got(Int64Of(x.value), x.rest);
    }

    method ReadBytes(n: nat) returns (b: seq<byte>)
      requires Valid()
      modifies this
      ensures Valid()
      ensures b == TakeAtMost(old(Rest()), n) && Rest() == old(Rest())[|b|..]
    {
      var k := if n <= |data| - pos then n else |data| - pos;
      b := data[pos..pos + k];
      assert data[pos..][..k] == b;
      pos := pos + k;
    }
  }

  // Sequence laws stated generically: proving them at a byte type costs far more.

  lemma ConcatAssoc<T>(x: seq<T>, y: seq<T>, z: seq<T>)
    ensures x + (y + z) == (x + y) + z
  {
  }

  lemma ConcatTail<T>(a: seq<T>, b: seq<T>)
    requires |a| > 0
    ensures (a + b)[0] == a[0] && (a + b)[1..] == a[1..] + b
  {
  }

  lemma AppendEmpty<T>(a: seq<T>)
    ensures a + [] == a
  {
  }

  lemma SnocPrefix<T>(s: seq<T>, j: nat)
    requires j < |s|
    ensures s[..j] + [s[j]] == s[..j + 1]
  {
  }

  lemma PrefixOfAppend<T>(a: seq<T>, b: seq<T>, c: seq<T>)
    requires b <= c
    ensures (a + c)[..|a + b|] == a + b
  {
  }

  lemma SplitAppend<T>(a: seq<T>, b: seq<T>)
    ensures (a + b)[..|a|] == a && (a + b)[|a|..] == b
  {
  }

  lemma DropDrop<T>(s: seq<T>, k: nat, w: nat)
    requires k + w <= |s|
    ensures s[k..][w..] == s[k + w..]
  {
  }

  lemma DropOne<T>(s: seq<T>, i: nat)
    requires i < |s|
    ensures s[i..][0] == s[i] && s[i..][1..] == s[i + 1..]
  {
  }

  lemma DropNone<T>(s: seq<T>)
    ensures s[0..] == s
  {
  }
}
