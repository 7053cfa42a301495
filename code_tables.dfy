/**
 * The code-to-name switches of the decoders: a fixed table of codes and
 * names, and for any other code the text `prefix + n + ")"`, such as
 * "Неизвестный (7)" or "UNKNOWN_TYPE2(7)".
 */
module CodeTables {
  import opened Bytes
  import opened Text

  datatype Entry = Entry(code: int, name: string)

  predicate DistinctCodes(table: seq<Entry>)
  {
    forall i, j :: 0 <= i < j < |table| ==> table[i].code != table[j].code
  }

  predicate DistinctNames(table: seq<Entry>)
  {
    forall i, j :: 0 <= i < j < |table| ==> table[i].name != table[j].name
  }

  /** No name of the table could be mistaken for the text of an unknown code. */
  predicate NamesAvoid(table: seq<Entry>, prefix: string)
  {
    forall i :: 0 <= i < |table| ==> !(prefix <= table[i].name)
  }

  /** The codes of the table, in table order. */
  function Codes(table: seq<Entry>): (r: seq<int>)
    ensures |r| == |table| && forall i :: 0 <= i < |table| ==> r[i] == table[i].code
  {
    seq(|table|, i requires 0 <= i < |table| => table[i].code)
  }

  /** A dictionary initialiser over the table; its `Add` calls need distinct codes. */
  function ToMap(table: seq<Entry>): (r: map<int, string>)
    requires DistinctCodes(table)
    ensures forall c :: c in r <==> c in Codes(table)
    ensures forall i :: 0 <= i < |table| ==> r[table[i].code] == table[i].name
  {
    map i | 0 <= i < |table| :: table[i].code := table[i].name
  }

  /** The dictionary and the switch agree on every listed code. */
  lemma ToMapDecodes(table: seq<Entry>, prefix: string, code: int32)
    requires DistinctCodes(table) && code as int in Codes(table)
    ensures ToMap(table)[code as int] == Decode(table, code, prefix)
  {
    var i :| 0 <= i < |table| && Codes(table)[i] == code as int;
    DecodeAt(table, prefix, i, code);
  }

  lemma KnownIffListed(table: seq<Entry>, code: int)
    ensures Known(table, code) <==> code in Codes(table)
  {
    if code in Codes(table) {
      var i :| 0 <= i < |Codes(table)| && Codes(table)[i] == code;
      assert table[i].code == code;
    }
  }

  /** A text that differs from `prefix` at position `k`, or stops before it, does not start with it. */
  lemma Mismatch(prefix: string, name: string, k: nat)
    requires k < |prefix| && (k >= |name| || name[k] != prefix[k])
    ensures !(prefix <= name)
  {
  }

  predicate Known(table: seq<Entry>, code: int)
  {
    exists i :: 0 <= i < |table| && table[i].code == code
  }

  /** The text of a code the table does not list. */
  function Unknown(prefix: string, code: int32): (r: string)
    ensures prefix <= r
  {
    prefix + IntText(code) + ")"
  }

  /** The switch: the name listed for `code`, or the unknown text. */
  function Decode(table: seq<Entry>, code: int32, prefix: string): (r: string)
    ensures Known(table, code) ==> exists i :: 0 <= i < |table| && table[i].code == code && r == table[i].name
    ensures !Known(table, code) ==> r == Unknown(prefix, code)
    decreases |table|
  {
    if |table| == 0 then Unknown(prefix, code)
    else if table[0].code == code then table[0].name
    else
      assert forall i :: 1 <= i < |table| ==> table[i] == table[1..][i - 1];
      Decode(table[1..], code, prefix)
  }

  /** With distinct codes, the listed code at position `i` gets exactly the name at `i`. */
  lemma DecodeAt(table: seq<Entry>, prefix: string, i: nat, code: int32)
    requires DistinctCodes(table) && i < |table| && table[i].code == code
    ensures Decode(table, code, prefix) == table[i].name
  {
    var j :| 0 <= j < |table| && table[j].code == code && Decode(table, code, prefix) == table[j].name;
    assert i == j;
  }

  /**
   * A table listing the codes `first`, `first + 1`, ... in order: a listed
   * code reads as the name in its place, any other code as the unknown text.
   */
  lemma DecodeRun(table: seq<Entry>, prefix: string, first: int, code: int32)
    requires forall i :: 0 <= i < |table| ==> table[i].code == first + i
    ensures first <= code as int < first + |table| ==> Decode(table, code, prefix) == table[code as int - first].name
    ensures !(first <= code as int < first + |table|) ==> Decode(table, code, prefix) == Unknown(prefix, code)
  {
    if first <= code as int < first + |table| {
      DecodeAt(table, prefix, code as int - first, code);
    }
  }

  /** Different codes give different texts, so the text identifies the code. */
  lemma DecodeInjective(table: seq<Entry>, prefix: string, a: int32, b: int32)
    requires DistinctCodes(table) && DistinctNames(table) && NamesAvoid(table, prefix)
    ensures Decode(table, a, prefix) == Decode(table, b, prefix) ==> a == b
  {
    if Decode(table, a, prefix) == Decode(table, b, prefix) {
      if Known(table, a) && Known(table, b) {
        var i :| 0 <= i < |table| && table[i].code == a && Decode(table, a, prefix) == table[i].name;
        var j :| 0 <= j < |table| && table[j].code == b && Decode(table, b, prefix) == table[j].name;
        assert i == j;
      } else if !Known(table, a) && !Known(table, b) {
        var ta, tb := IntText(a) + ")", IntText(b) + ")";
        assert Unknown(prefix, a) == prefix + ta && Unknown(prefix, b) == prefix + tb;
        assert ta == (prefix + ta)[|prefix|..];
        assert ta == tb;
        assert IntText(a) == ta[..|ta| - 1];
        IntTextInjective(a, b);
      }
    }
  }
}
