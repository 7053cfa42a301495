/**
 * What the three market services share: time as DateTime ticks, the strict
 * "older than the lifetime" test of their cleanup timers, and the order in
 * which LINQ's `GroupBy` visits groups, the item-id index step, the
 * ordinal case-insensitive name comparison and the least and greatest price.
 */
module MarketCommon {
  import opened Bytes
  import opened Utf16

  /** A DateTime or a TimeSpan, in ticks of 100 ns. */
  type Ticks = int

  const TICKS_PER_MINUTE: Ticks := 600_000_000

  /** `now - lastSeen > lifetime`: strictly older than the lifetime. */
  predicate Expired(now: Ticks, lastSeen: Ticks, lifetime: Ticks)
  {
    now - lastSeen > lifetime
  }

  /** The index of the first occurrence of `x` in `s`. */
  function FirstIndex(s: seq<int>, x: int): (k: nat)
    requires x in s
    ensures k < |s| && s[k] == x
    ensures forall m :: 0 <= m < k ==> s[m] != x
  {
    if s[0] == x then 0 else 1 + FirstIndex(s[1..], x)
  }

  /** An element of a prefix first occurs in the whole sequence where it first occurs in the prefix. */
  lemma FirstIndexPrefix(s: seq<int>, n: nat, x: int)
    requires n <= |s| && x in s[..n]
    ensures FirstIndex(s, x) == FirstIndex(s[..n], x)
  {
    var k1, k2 := FirstIndex(s, x), FirstIndex(s[..n], x);
    assert s[k2] == x;
    assert k1 <= k2;
    assert s[..n][k1] == x;
  }

  /** The distinct elements of `s`, in the order they first appear: the group order of `GroupBy`. */
  function FirstOccurrences(s: seq<int>): (r: seq<int>)
    ensures forall x :: x in r <==> x in s
    ensures forall i, j :: 0 <= i < j < |r| ==> r[i] != r[j]
    ensures forall i, j :: 0 <= i < j < |r| ==> FirstIndex(s, r[i]) < FirstIndex(s, r[j])
    decreases |s|
  {
    if |s| == 0 then []
    else
      var prefix := s[..|s| - 1];
      var init := FirstOccurrences(prefix);
      var last := s[|s| - 1];
      assert forall x :: x in s <==> x in prefix || x == last by {
        assert s == prefix + [last];
      }
      assert forall x :: x in prefix ==> FirstIndex(s, x) == FirstIndex(prefix, x) < |s| - 1 by {
        forall x | x in prefix
          ensures FirstIndex(s, x) == FirstIndex(prefix, x) < |s| - 1
        {
          FirstIndexPrefix(s, |s| - 1, x);
        }
      }
      if last in init then init
      else
        assert FirstIndex(s, last) == |s| - 1;
        init + [last]
  }

  /** The two's-complement bits of a 64-bit signed value. */
  function Bits64(x: int64): bv64
  {
    if x < 0 then (x + 0x1_0000_0000_0000_0000) as bv64 else x as bv64
  }

  /** `(a & b) != 0` on two 64-bit signed values. */
  predicate SharesBit(a: int64, b: int64)
  {
    Bits64(a) & Bits64(b) != 0
  }

  /** The index after `key` leaves the set of item `id`; a set left empty is dropped. */
  function IndexWithout<K(==)>(index: map<int32, set<K>>, id: int32, key: K): (r: map<int32, set<K>>)
    ensures forall i :: i in r ==> i in index && (r[i] == if i == id then index[i] - {key} else index[i])
    ensures forall i :: i in index && i != id ==> i in r
    ensures id in r <==> id in index && index[id] - {key} != {}
  {
    if id in index then
      var keys := index[id] - {key};
      if keys == {} then index - {id} else index[id := keys]
    else index
  }

  /** The index after `key` joins the set of item `id`, which is created when missing. */
  function IndexWith<K(==)>(index: map<int32, set<K>>, id: int32, key: K): (r: map<int32, set<K>>)
    ensures r.Keys == index.Keys + {id}
    ensures forall i :: i in index && i != id ==> r[i] == index[i]
    ensures r[id] == (if id in index then index[id] else {}) + {key}
  {
    if id in index then index[id := index[id] + {key}] else index[id := {key}]
  }

  /**
   * `string.Equals(a, b, StringComparison.OrdinalIgnoreCase)`: equal lengths and
   * code units equal once both are mapped by `upper`, the invariant culture's
   * simple upper-case mapping of one UTF-16 code unit, which is a parameter.
   */
  predicate EqualsIgnoreCase(a: Units, b: Units, upper: Unit -> Unit)
  {
    |a| == |b| && forall i :: 0 <= i < |a| ==> upper(a[i]) == upper(b[i])
  }

  /** LINQ's `Min` of a non-empty collection of prices, here the set of its values. */
  ghost function SetMin(s: set<int>): (r: int)
    requires s != {}
    ensures r in s
    ensures forall y :: y in s ==> r <= y
    decreases s
  {
    assert (forall y :: y !in s) ==> s == {};
    var x :| x in s;
    if s == {x} then x
    else
      var rest := SetMin(s - {x});
      assert forall y :: y in s ==> y == x || y in s - {x};
      if x < rest then x else rest
  }

  /** LINQ's `Max` of a non-empty collection of prices, here the set of its values. */
  ghost function SetMax(s: set<int>): (r: int)
    requires s != {}
    ensures r in s
    ensures forall y :: y in s ==> y <= r
    decreases s
  {
    assert (forall y :: y !in s) ==> s == {};
    var x :| x in s;
    if s == {x} then x
    else
      var rest := SetMax(s - {x});
      assert forall y :: y in s ==> y == x || y in s - {x};
      if x > rest then x else rest
  }

  lemma SubtractOneMore<K, V>(m: map<K, V>, s: set<K>, k: K)
    ensures (m - s) - {k} == m - (s + {k})
  {
  }

  lemma MergeUpdate<K, V>(a: map<K, V>, b: map<K, V>, k: K, v: V)
    ensures a + b[k := v] == (a + b)[k := v]
  {
  }

  lemma {:induction false} SubsetNoLarger<K>(a: set<K>, b: set<K>)
    requires a <= b
    ensures |a| <= |b|
    decreases b
  {
    if a != {} {
      assert (forall y :: y !in a) ==> a == {};
      var x :| x in a;
      SubsetNoLarger(a - {x}, b - {x});
    }
  }

  /** A map has no more distinct values than keys. */
  lemma {:induction false} ValuesNoMore<K, V>(m: map<K, V>)
    ensures |m.Values| <= |m.Keys|
    decreases |m.Keys|
  {
    if m.Keys != {} {
      assert (forall y :: y !in m.Keys) ==> m.Keys == {};
      var k :| k in m.Keys;
      var rest := m - {k};
      ValuesNoMore(rest);
      assert m.Values <= rest.Values + {m[k]} by {
        forall v | v in m.Values
          ensures v in rest.Values + {m[k]}
        {
          var j :| j in m && m[j] == v;
          if j != k {
            assert rest[j] == v;
          }
        }
      }
      SubsetNoLarger(m.Values, rest.Values + {m[k]});
      assert rest.Keys == m.Keys - {k};
    }
  }
}
