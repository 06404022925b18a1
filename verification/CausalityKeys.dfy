/** The byte strings by which transactions are compared for conflicts. */
module CausalityKeys {
  import opened SinkTypes

  // ----- Big-endian numbers -----

  function Pow256(k: nat): nat {
    if k == 0 then 1 else 256 * Pow256(k - 1)
  }

  /** The `k` low bytes of `n`, most significant first. */
  function BigEndian(n: nat, k: nat): (b: Bytes)
    ensures |b| == k
  {
    if k == 0 then [] else BigEndian(n / 256, k - 1) + [n % 256]
  }

  lemma {:induction false} BigEndianInjective(m: nat, n: nat, k: nat)
    requires m < Pow256(k) && n < Pow256(k)
    requires BigEndian(m, k) == BigEndian(n, k)
    ensures m == n
  {
    if k > 0 {
      var a, b := BigEndian(m, k), BigEndian(n, k);
      assert a[..k - 1] == BigEndian(m / 256, k - 1) && b[..k - 1] == BigEndian(n / 256, k - 1);
      assert a[k - 1] == b[k - 1];
      BigEndianInjective(m / 256, n / 256, k - 1);
    }
  }

  /** The unsigned 64-bit reading of a signed number. */
  function ToUint64(x: Int64): (n: nat)
    ensures n < Pow256(8)
  {
    assert Pow256(8) == 0x1_0000_0000_0000_0000;
    if x < 0 then 0x1_0000_0000_0000_0000 + x else x
  }

  function Uint64Bytes(x: Int64): (b: Bytes)
    ensures |b| == 8
  {
    BigEndian(ToUint64(x), 8)
  }

  lemma Uint64BytesInjective(x: Int64, y: Int64)
    requires Uint64Bytes(x) == Uint64Bytes(y)
    ensures x == y
  {
    BigEndianInjective(ToUint64(x), ToUint64(y), 8);
  }

  // ----- Keys of an index, a row, a transaction -----

  /** The column can take part in a key: present, not null, not generated. */
  predicate Usable(c: Option<Column>) {
    c.Some? && c.value.value.Some? && !c.value.generated
  }

  predicate InRange(columns: Columns, offsets: seq<nat>) {
    forall k :: 0 <= k < |offsets| ==> offsets[k] < |columns|
  }

  predicate AllUsable(columns: Columns, offsets: seq<nat>)
    requires InRange(columns, offsets)
  {
    forall k :: 0 <= k < |offsets| ==> Usable(columns[offsets[k]])
  }

  /** The values of the columns, each followed by a zero byte. */
  function Joined(columns: Columns, offsets: seq<nat>): Bytes
    requires InRange(columns, offsets) && AllUsable(columns, offsets)
  {
    if offsets == [] then []
    else
      var last := |offsets| - 1;
      Joined(columns, offsets[..last]) + columns[offsets[last]].value.value.value + [0]
  }

  function Suffix(index: nat, tableID: Int64): (b: Bytes)
    requires index <= MAX_INT64
    ensures |b| == 16
  {
    Uint64Bytes(index) + Uint64Bytes(tableID)
  }

  /** An index has a key for a row if it has columns and all of them are usable. */
  predicate HasKey(columns: Columns, offsets: seq<nat>)
    requires InRange(columns, offsets)
  {
    offsets != [] && AllUsable(columns, offsets)
  }

  function IndexKey(columns: Columns, index: nat, offsets: seq<nat>, tableID: Int64): Bytes
    requires index <= MAX_INT64 && InRange(columns, offsets) && HasKey(columns, offsets)
  {
    Joined(columns, offsets) + Suffix(index, tableID)
  }

  method GenKeyList(columns: Columns, index: nat, offsets: seq<nat>, tableID: Int64) returns (key: Bytes)
    requires index <= MAX_INT64 && InRange(columns, offsets)
    ensures key == if HasKey(columns, offsets) then IndexKey(columns, index, offsets, tableID) else []
  {
    key := [];
    var i := 0;
    while i < |offsets|
      invariant 0 <= i <= |offsets|
      invariant AllUsable(columns, offsets[..i]) && key == Joined(columns, offsets[..i]) && |key| >= i
    {
      var c := columns[offsets[i]];
      if c.None? || c.value.value.None? || c.value.generated {
        assert !Usable(columns[offsets[i]]);
        return [];
      }
      assert offsets[..i + 1][..i] == offsets[..i];
      key := key + c.value.value.value + [0];
      i := i + 1;
    }
    assert offsets[..i] == offsets;
    if key == [] {
      return [];
    }
    key := key + (Uint64Bytes(index) + Uint64Bytes(tableID));
  }

  /** The keys of the indexes from one version of a row. */
  function VersionKeys(r: Row, columns: Columns, n: nat): set<Bytes>
    requires n <= |r.indexes| <= MAX_INT64
    requires forall i :: 0 <= i < n ==> InRange(columns, r.indexes[i])
  {
    if n == 0 then {}
    else
      var i := n - 1;
      VersionKeys(r, columns, i)
      + (if HasKey(columns, r.indexes[i]) then {IndexKey(columns, i, r.indexes[i], r.tableID)} else {})
  }

  lemma {:induction false} VersionKeysHold(r: Row, columns: Columns, n: nat, i: nat)
    requires i < n <= |r.indexes| <= MAX_INT64
    requires forall i :: 0 <= i < n ==> InRange(columns, r.indexes[i])
    requires HasKey(columns, r.indexes[i])
    ensures IndexKey(columns, i, r.indexes[i], r.tableID) in VersionKeys(r, columns, n)
  {
    if i < n - 1 {
      VersionKeysHold(r, columns, n - 1, i);
    }
  }

  /** A row without any index key stands for its whole table. */
  function RowKeys(r: Row): set<Bytes>
    requires WellFormedRow(r)
  {
    var keys := (if r.columns != [] then VersionKeys(r, r.columns, |r.indexes|) else {})
                + (if r.preColumns != [] then VersionKeys(r, r.preColumns, |r.indexes|) else {});
    if keys == {} then {Uint64Bytes(r.tableID)} else keys
  }

  function RowsKeys(rows: seq<Row>): set<Bytes>
    requires forall i :: 0 <= i < |rows| ==> WellFormedRow(rows[i])
  {
    if rows == [] then {} else RowsKeys(rows[..|rows| - 1]) + RowKeys(rows[|rows| - 1])
  }

  function TxnKeys(t: Txn): set<Bytes>
    requires WellFormedTxn(t)
  {
    RowsKeys(t.rows)
  }

  function Elements(s: seq<Bytes>): set<Bytes> {
    set b | b in s
  }

  lemma OneMoreKey(r: Row, columns: Columns, i: nat, key: Bytes)
    requires i < |r.indexes| <= MAX_INT64
    requires forall k :: 0 <= k <= i ==> InRange(columns, r.indexes[k])
    requires key == if HasKey(columns, r.indexes[i]) then IndexKey(columns, i, r.indexes[i], r.tableID) else []
    ensures VersionKeys(r, columns, i + 1) == VersionKeys(r, columns, i) + if key == [] then {} else {key}
  {
  }

  lemma ElementsMore(keys: seq<Bytes>, key: Bytes)
    ensures Elements(keys + [key]) == Elements(keys) + {key}
  {
  }

  method GenVersionKeys(r: Row, columns: Columns) returns (keys: seq<Bytes>)
    requires |r.indexes| <= MAX_INT64
    requires forall i :: 0 <= i < |r.indexes| ==> InRange(columns, r.indexes[i])
    ensures Elements(keys) == VersionKeys(r, columns, |r.indexes|)
  {
    keys := [];
    var i := 0;
    while i < |r.indexes|
      invariant 0 <= i <= |r.indexes|
      invariant Elements(keys) == VersionKeys(r, columns, i)
    {
      var key := GenKeyList(columns, i, r.indexes[i], r.tableID);
      OneMoreKey(r, columns, i, key);
      if key != [] {
        ElementsMore(keys, key);
        keys := keys + [key];
      }
      i := i + 1;
    }
  }

  method GenRowKeys(r: Row) returns (keys: seq<Bytes>)
    requires WellFormedRow(r)
    ensures Elements(keys) == RowKeys(r)
  {
    keys := [];
    if |r.columns| != 0 {
      keys := GenVersionKeys(r, r.columns);
    }
    if |r.preColumns| != 0 {
      var more := GenVersionKeys(r, r.preColumns);
      assert Elements(keys + more) == Elements(keys) + Elements(more);
      keys := keys + more;
    }
    if |keys| == 0 {
      keys := [Uint64Bytes(r.tableID)];
    } else {
      assert keys[0] in Elements(keys);
    }
  }

  method GenTxnKeys(t: Txn) returns (keys: set<Bytes>)
    requires WellFormedTxn(t)
    ensures keys == TxnKeys(t)
  {
    keys := {};
    var i := 0;
    while i < |t.rows|
      invariant 0 <= i <= |t.rows|
      invariant keys == RowsKeys(t.rows[..i])
    {
      assert t.rows[..i + 1][..i] == t.rows[..i];
      var rowKeys := GenRowKeys(t.rows[i]);
      keys := keys + Elements(rowKeys);
      i := i + 1;
    }
    assert t.rows[..i] == t.rows;
  }

  // ----- What the keys promise -----

  /** The two versions hold the same values in the columns of the index. */
  predicate Agree(a: Columns, b: Columns, offsets: seq<nat>)
    requires InRange(a, offsets) && InRange(b, offsets)
  {
    forall k :: 0 <= k < |offsets| ==>
      && Usable(a[offsets[k]]) && Usable(b[offsets[k]])
      && a[offsets[k]].value.value == b[offsets[k]].value.value
  }

  lemma {:induction false} AgreeMeansJoined(a: Columns, b: Columns, offsets: seq<nat>)
    requires InRange(a, offsets) && InRange(b, offsets) && Agree(a, b, offsets)
    ensures Joined(a, offsets) == Joined(b, offsets)
  {
    if offsets != [] {
      AgreeMeansJoined(a, b, offsets[..|offsets| - 1]);
    }
  }

  /** A version of a row that the row event carries. */
  predicate Carries(r: Row, version: Columns) {
    version != [] && (version == r.columns || version == r.preColumns)
  }

  lemma CarriedKey(r: Row, version: Columns, index: nat)
    requires WellFormedRow(r) && Carries(r, version) && index < |r.indexes| && HasKey(version, r.indexes[index])
    ensures IndexKey(version, index, r.indexes[index], r.tableID) in RowKeys(r)
  {
    VersionKeysHold(r, version, |r.indexes|, index);
  }

  /** Rows of one table that meet in a unique index share a key, whichever versions meet. */
  lemma SameIndexValuesShareAKey(r: Row, a: Columns, s: Row, b: Columns, index: nat)
    requires WellFormedRow(r) && WellFormedRow(s) && Carries(r, a) && Carries(s, b)
    requires r.tableID == s.tableID && r.indexes == s.indexes
    requires index < |r.indexes| && r.indexes[index] != []
    requires Agree(a, b, r.indexes[index])
    ensures RowKeys(r) * RowKeys(s) != {}
  {
    var offsets := r.indexes[index];
    AgreeMeansJoined(a, b, offsets);
    CarriedKey(r, a, index);
    CarriedKey(s, b, index);
    assert IndexKey(a, index, offsets, r.tableID) in RowKeys(r) * RowKeys(s);
  }

  predicate NoIndexKey(r: Row)
    requires WellFormedRow(r)
  {
    forall i :: 0 <= i < |r.indexes| ==>
      && (r.columns != [] ==> !HasKey(r.columns, r.indexes[i]))
      && (r.preColumns != [] ==> !HasKey(r.preColumns, r.indexes[i]))
  }

  lemma {:induction false} NoVersionKeys(r: Row, columns: Columns, n: nat)
    requires n <= |r.indexes| <= MAX_INT64
    requires forall i :: 0 <= i < n ==> InRange(columns, r.indexes[i]) && !HasKey(columns, r.indexes[i])
    ensures VersionKeys(r, columns, n) == {}
  {
    if n > 0 {
      NoVersionKeys(r, columns, n - 1);
    }
  }

  lemma Keyless(r: Row)
    requires WellFormedRow(r) && NoIndexKey(r)
    ensures RowKeys(r) == {Uint64Bytes(r.tableID)}
  {
    if r.columns != [] {
      NoVersionKeys(r, r.columns, |r.indexes|);
    }
    if r.preColumns != [] {
      NoVersionKeys(r, r.preColumns, |r.indexes|);
    }
  }

  /** Rows of one table that both have no index key share the table's key. */
  lemma KeylessRowsShareAKey(r: Row, s: Row)
    requires WellFormedRow(r) && WellFormedRow(s) && r.tableID == s.tableID
    requires NoIndexKey(r) && NoIndexKey(s)
    ensures RowKeys(r) == RowKeys(s) == {Uint64Bytes(r.tableID)}
  {
    Keyless(r);
    Keyless(s);
  }

  /** Keys made for different indexes or different tables never coincide. */
  lemma IndexKeysAreApart(a: Columns, i: nat, p: seq<nat>, t: Int64, b: Columns, j: nat, q: seq<nat>, u: Int64)
    requires i <= MAX_INT64 && InRange(a, p) && HasKey(a, p)
    requires j <= MAX_INT64 && InRange(b, q) && HasKey(b, q)
    requires IndexKey(a, i, p, t) == IndexKey(b, j, q, u)
    ensures i == j && t == u && Joined(a, p) == Joined(b, q)
  {
    var k, l := IndexKey(a, i, p, t), IndexKey(b, j, q, u);
    var n := |k| - 16;
    assert k[n..] == Suffix(i, t) && l[n..] == Suffix(j, u);
    assert k[n..][..8] == Uint64Bytes(i) && l[n..][..8] == Uint64Bytes(j);
    assert k[n..][8..] == Uint64Bytes(t) && l[n..][8..] == Uint64Bytes(u);
    Uint64BytesInjective(i, j);
    Uint64BytesInjective(t, u);
    assert k[..n] == Joined(a, p) && l[..n] == Joined(b, q);
  }

  /** A table's key is never an index key, nor another table's key. */
  lemma TableKeysAreApart(t: Int64, u: Int64, a: Columns, i: nat, p: seq<nat>)
    requires i <= MAX_INT64 && InRange(a, p) && HasKey(a, p)
    ensures Uint64Bytes(t) != IndexKey(a, i, p, u)
    ensures t != u ==> Uint64Bytes(t) != Uint64Bytes(u)
  {
    if Uint64Bytes(t) == Uint64Bytes(u) {
      Uint64BytesInjective(t, u);
    }
  }

  // ----- What sharing a key means -----

  predicate NoZero(v: Bytes) {
    forall i :: 0 <= i < |v| ==> v[i] != 0
  }

  /** No value but the first has a zero byte in it. */
  predicate Plain(columns: Columns, offsets: seq<nat>)
    requires InRange(columns, offsets) && AllUsable(columns, offsets)
  {
    forall k :: 1 <= k < |offsets| ==> NoZero(columns[offsets[k]].value.value.value)
  }

  lemma JoinedEnd(columns: Columns, offsets: seq<nat>)
    requires InRange(columns, offsets) && AllUsable(columns, offsets)
    ensures var b := Joined(columns, offsets);
            if offsets == [] then b == [] else b != [] && b[|b| - 1] == 0
  {
  }

  lemma EndsBefore(x: Bytes, v: Bytes, y: Bytes)
    requires NoZero(v) && y <= x + v && y != [] && y[|y| - 1] == 0
    ensures |y| <= |x|
  {
    assert forall i :: |x| <= i < |x + v| ==> (x + v)[i] != 0;
    assert (x + v)[|y| - 1] == 0;
  }

  /** A zero byte ends a value that has none. */
  lemma LastValue(x: Bytes, v: Bytes, y: Bytes, w: Bytes)
    requires x + v == y + w && NoZero(v) && NoZero(w)
    requires x != [] && x[|x| - 1] == 0 && y != [] && y[|y| - 1] == 0
    ensures x == y && v == w
  {
    var s := x + v;
    assert s == y + w;
    EndsBefore(x, v, y);
    EndsBefore(y, w, x);
    assert x == s[..|x|] && v == s[|x|..] && y == s[..|y|] && w == s[|y|..];
  }

  lemma CutEnd(x: Bytes, v: Bytes, y: Bytes, w: Bytes)
    requires x + v + [0] == y + w + [0]
    ensures x + v == y + w
  {
    var s := x + v + [0];
    assert s[..|s| - 1] == x + v;
    assert s == y + w + [0];
    assert s[..|s| - 1] == y + w;
  }

  predicate JoinedAlike(a: Columns, b: Columns, offsets: seq<nat>) {
    && InRange(a, offsets) && InRange(b, offsets) && AllUsable(a, offsets) && AllUsable(b, offsets)
    && Plain(a, offsets) && Plain(b, offsets) && Joined(a, offsets) == Joined(b, offsets)
  }

  lemma LastAlike(a: Columns, b: Columns, offsets: seq<nat>)
    requires JoinedAlike(a, b, offsets) && offsets != []
    ensures var n := |offsets| - 1;
            JoinedAlike(a, b, offsets[..n]) && a[offsets[n]].value.value == b[offsets[n]].value.value
  {
    var n := |offsets| - 1;
    var front, o := offsets[..n], offsets[n];
    assert forall k :: 0 <= k < n ==> front[k] == offsets[k];
    var x, v, y, w := Joined(a, front), a[o].value.value.value, Joined(b, front), b[o].value.value.value;
    CutEnd(x, v, y, w);
    JoinedEnd(a, front);
    JoinedEnd(b, front);
    if n > 0 {
      LastValue(x, v, y, w);
    } else {
      assert x + v == v && y + w == w;
    }
  }

  /** Keys with the same values in front were made from the same values. */
  lemma {:induction false} JoinedMeansAgree(a: Columns, b: Columns, offsets: seq<nat>)
    requires JoinedAlike(a, b, offsets)
    ensures Agree(a, b, offsets)
  {
    if offsets != [] {
      var n := |offsets| - 1;
      LastAlike(a, b, offsets);
      JoinedMeansAgree(a, b, offsets[..n]);
      assert forall k :: 0 <= k < n ==> offsets[..n][k] == offsets[k];
    }
  }

  lemma {:induction false} VersionKeysOnly(r: Row, columns: Columns, n: nat, key: Bytes) returns (i: nat)
    requires n <= |r.indexes| <= MAX_INT64
    requires forall i :: 0 <= i < n ==> InRange(columns, r.indexes[i])
    requires key in VersionKeys(r, columns, n)
    ensures i < n && HasKey(columns, r.indexes[i]) && key == IndexKey(columns, i, r.indexes[i], r.tableID)
  {
    i := n - 1;
    if !(HasKey(columns, r.indexes[i]) && key == IndexKey(columns, i, r.indexes[i], r.tableID)) {
      i := VersionKeysOnly(r, columns, n - 1, key);
    }
  }

  /** A key of a row is that of an index in one of its versions, or the table's. */
  predicate KeyFrom(r: Row, version: Columns, i: nat, key: Bytes)
    requires WellFormedRow(r)
  {
    || (key == Uint64Bytes(r.tableID) && NoIndexKey(r))
    || (&& Carries(r, version) && i < |r.indexes| && HasKey(version, r.indexes[i])
        && key == IndexKey(version, i, r.indexes[i], r.tableID))
  }

  lemma RowKeysOnly(r: Row, key: Bytes) returns (version: Columns, i: nat)
    requires WellFormedRow(r) && key in RowKeys(r)
    ensures KeyFrom(r, version, i, key)
  {
    i, version := 0, [];
    if r.columns != [] && key in VersionKeys(r, r.columns, |r.indexes|) {
      version := r.columns;
      i := VersionKeysOnly(r, version, |r.indexes|, key);
    } else if r.preColumns != [] && key in VersionKeys(r, r.preColumns, |r.indexes|) {
      version := r.preColumns;
      i := VersionKeysOnly(r, version, |r.indexes|, key);
    } else {
      forall i | 0 <= i < |r.indexes|
        ensures r.columns != [] ==> !HasKey(r.columns, r.indexes[i])
        ensures r.preColumns != [] ==> !HasKey(r.preColumns, r.indexes[i])
      {
        if r.columns != [] && HasKey(r.columns, r.indexes[i]) {
          VersionKeysHold(r, r.columns, |r.indexes|, i);
        }
        if r.preColumns != [] && HasKey(r.preColumns, r.indexes[i]) {
          VersionKeysHold(r, r.preColumns, |r.indexes|, i);
        }
      }
    }
  }

  /** Every value that may go into a key is free of zero bytes. */
  predicate PlainRow(r: Row) {
    && (forall k :: 0 <= k < |r.columns| && Usable(r.columns[k]) ==> NoZero(r.columns[k].value.value.value))
    && (forall k :: 0 <= k < |r.preColumns| && Usable(r.preColumns[k]) ==> NoZero(r.preColumns[k].value.value.value))
  }

  /** The rows meet in a unique index. */
  ghost predicate Meet(r: Row, a: Columns, s: Row, b: Columns, i: nat)
    requires WellFormedRow(r) && WellFormedRow(s) && r.indexes == s.indexes
  {
    Carries(r, a) && Carries(s, b) && i < |r.indexes| && r.indexes[i] != [] && Agree(a, b, r.indexes[i])
  }

  lemma SharedMeans(r: Row, a: Columns, i: nat, s: Row, b: Columns, j: nat, key: Bytes)
    requires WellFormedRow(r) && WellFormedRow(s) && r.indexes == s.indexes && PlainRow(r) && PlainRow(s)
    requires KeyFrom(r, a, i, key) && KeyFrom(s, b, j, key)
    ensures r.tableID == s.tableID && ((NoIndexKey(r) && NoIndexKey(s)) || Meet(r, a, s, b, i))
  {
    if |key| == 8 {
      Uint64BytesInjective(r.tableID, s.tableID);
    } else {
      IndexKeysAreApart(a, i, r.indexes[i], r.tableID, b, j, s.indexes[j], s.tableID);
      JoinedMeansAgree(a, b, r.indexes[i]);
    }
  }

  /** Rows share a key exactly if they are of one table and meet in a unique index, or neither has an index key. */
  lemma SharedKeyMeansMeeting(r: Row, s: Row)
    requires WellFormedRow(r) && WellFormedRow(s) && r.indexes == s.indexes && PlainRow(r) && PlainRow(s)
    ensures RowKeys(r) * RowKeys(s) != {} <==>
            && r.tableID == s.tableID
            && ((NoIndexKey(r) && NoIndexKey(s)) || exists a, b, i: nat :: Meet(r, a, s, b, i))
  {
    if RowKeys(r) * RowKeys(s) != {} {
      var key :| key in RowKeys(r) * RowKeys(s);
      var a, i := RowKeysOnly(r, key);
      var b, j := RowKeysOnly(s, key);
      SharedMeans(r, a, i, s, b, j, key);
    }
    if r.tableID == s.tableID && NoIndexKey(r) && NoIndexKey(s) {
      KeylessRowsShareAKey(r, s);
      assert Uint64Bytes(r.tableID) in RowKeys(r) * RowKeys(s);
    }
    if r.tableID == s.tableID && exists a, b, i: nat :: Meet(r, a, s, b, i) {
      var a, b, i: nat :| Meet(r, a, s, b, i);
      SameIndexValuesShareAKey(r, a, s, b, i);
    }
  }

  /** A zero byte inside a value can make different values look the same. */
  lemma ZeroBytesConfuse()
    ensures var none, zero := Some(Column("a", Some([]), false, true)), Some(Column("a", Some([0]), false, true));
            var a, b, offsets := [none, zero], [zero, none], [0, 1];
            && AllUsable(a, offsets) && AllUsable(b, offsets) && !Agree(a, b, offsets)
            && Joined(a, offsets) == Joined(b, offsets)
  {
    var none, zero := Some(Column("a", Some([]), false, true)), Some(Column("a", Some([0]), false, true));
    var a, b := [none, zero], [zero, none];
    JoinedTwo(a);
    JoinedTwo(b);
    assert a[[0, 1][0]].value.value != b[[0, 1][0]].value.value;
  }

  lemma JoinedTwo(columns: Columns)
    requires |columns| == 2 && Usable(columns[0]) && Usable(columns[1])
    ensures AllUsable(columns, [0, 1])
    ensures Joined(columns, [0, 1]) == columns[0].value.value.value + [0] + columns[1].value.value.value + [0]
  {
    var offsets: seq<nat> := [0, 1];
    assert offsets[..1] == [0] && [0 as nat][..0] == [];
    assert Joined(columns, [0]) == columns[0].value.value.value + [0];
  }
}
