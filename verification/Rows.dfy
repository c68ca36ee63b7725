/** Rows, tables and the three operations a statement can have on a table.

    A row is a key with a value; the key stands for the encoded primary key, whose
    encoding is injective. A table is a bag of rows: Iceberg does not enforce keys,
    so a key may occur more than once. */
module Rows {
  type Key = nat

  datatype Option<+T> = None | Some(value: T)

  datatype Row = Row(key: Key, val: int)

  type Table = multiset<Row>

  /** What one statement does. An INSERT carries its aligned batches; a keyed UPDATE or
      DELETE addresses one key exactly. */
  datatype Op =
    | Insert(batches: seq<seq<Row>>)
    | Put(key: Key, val: int)
    | Del(key: Key)

  function Max(a: nat, b: nat): (r: nat)
    ensures r >= a && r >= b && (r == a || r == b)
  {
    if a >= b then a else b
  }

  function Flatten(batches: seq<seq<Row>>): seq<Row> {
    if |batches| == 0 then [] else Flatten(batches[..|batches| - 1]) + batches[|batches| - 1]
  }

  function KeysOf(rows: seq<Row>): set<Key> {
    set r | r in rows :: r.key
  }

  /** The value of the last row of the key. */
  function LastVal(rows: seq<Row>, k: Key): int {
    if |rows| == 0 then 0
    else if rows[|rows| - 1].key == k then rows[|rows| - 1].val
    else LastVal(rows[..|rows| - 1], k)
  }

  /** The keys a statement names. */
  function OpKeys(op: Op): set<Key> {
    match op
    case Insert(batches) => KeysOf(Flatten(batches))
    case Put(key, _) => {key}
    case Del(key) => {key}
  }

  ghost predicate HasKey(t: Table, key: Key) {
    exists v :: Row(key, v) in t
  }

  ghost predicate DistinctKeys(rows: seq<Row>) {
    forall i, j :: 0 <= i < j < |rows| ==> rows[i].key != rows[j].key
  }

  /** No key occurs twice. */
  ghost predicate UniqueKeys(t: Table) {
    forall r, r' :: r in t && r' in t && r.key == r'.key ==> r == r' && t[r] == 1
  }

  /** The rows of `t` whose key is outside `keys`. */
  ghost function Without(t: Table, keys: set<Key>): (u: Table)
    ensures forall r :: u[r] == if r.key in keys then 0 else t[r]
    decreases |t|
  {
    if t == multiset{} then multiset{}
    else
      var r :| r in t;
      var rest := Without(t[r := 0], keys);
      if r.key in keys then rest else rest[r := t[r]]
  }

  /** One statement run on a table, one after another: the specification everything
      else is measured against. */
  ghost function Exec(t: Table, op: Op): Table {
    match op
    case Insert(batches) => t + multiset(Flatten(batches))
    case Put(key, val) => Without(t, {key}) + multiset{Row(key, val)}
    case Del(key) => Without(t, {key})
  }

  lemma SameTable(t: Table, u: Table)
    requires forall r: Row :: t[r] == u[r]
    ensures t == u
  {}

  /** An operation touches only the rows of the keys it names. */
  lemma ExecFrame(t: Table, op: Op, r: Row)
    requires r.key !in OpKeys(op)
    ensures Exec(t, op)[r] == t[r]
  {
    if op.Insert? {
      assert r !in Flatten(op.batches);
      assert multiset(Flatten(op.batches))[r] == 0;
    }
  }

  /** What an operation makes of a row depends only on the rows of that key. */
  lemma ExecLocal(t: Table, u: Table, op: Op, r: Row)
    requires t[r] == u[r]
    ensures Exec(t, op)[r] == Exec(u, op)[r]
  {}

  lemma FlattenSingle(rows: seq<Row>)
    ensures Flatten([rows]) == rows
  {
    assert [rows][..0] == [];
    assert Flatten([rows]) == Flatten([]) + rows;
  }

  lemma FlattenSnoc(batches: seq<seq<Row>>, rows: seq<Row>)
    ensures Flatten(batches + [rows]) == Flatten(batches) + rows
  {
    assert (batches + [rows])[..|batches|] == batches;
  }

  // ---- filtering a batch by key -------------------------------------------------

  /** The rows whose key is not in `keys`, in order: the vectorised key filter. */
  function Suppress(rows: seq<Row>, keys: set<Key>): (out: seq<Row>)
  {
    if |rows| == 0 then []
    else
      var init := Suppress(rows[..|rows| - 1], keys);
      if rows[|rows| - 1].key in keys then init else init + [rows[|rows| - 1]]
  }

  /** The rows whose key is in `keys`, in order. */
  function Hits(rows: seq<Row>, keys: set<Key>): (out: seq<Row>)
  {
    if |rows| == 0 then []
    else
      var init := Hits(rows[..|rows| - 1], keys);
      if rows[|rows| - 1].key in keys then init + [rows[|rows| - 1]] else init
  }

  lemma SnocBag(rows: seq<Row>)
    requires |rows| > 0
    ensures multiset(rows) == multiset(rows[..|rows| - 1]) + multiset{rows[|rows| - 1]}
  {
    assert rows == rows[..|rows| - 1] + [rows[|rows| - 1]];
  }

  lemma {:induction false} SuppressBag(rows: seq<Row>, keys: set<Key>)
    ensures multiset(Suppress(rows, keys)) == Without(multiset(rows), keys)
  {
    if |rows| > 0 {
      SuppressBag(rows[..|rows| - 1], keys);
      SnocBag(rows);
    }
  }

  lemma {:induction false} HitsBag(rows: seq<Row>, keys: set<Key>)
    ensures multiset(Hits(rows, keys)) == multiset(rows) - Without(multiset(rows), keys)
  {
    if |rows| > 0 {
      HitsBag(rows[..|rows| - 1], keys);
      SnocBag(rows);
    }
  }

  lemma SuppressIn(rows: seq<Row>, keys: set<Key>, r: Row)
    ensures r in Suppress(rows, keys) <==> r in rows && r.key !in keys
  {
    SuppressBag(rows, keys);
    assert multiset(Suppress(rows, keys))[r] == Without(multiset(rows), keys)[r];
  }

  lemma HitsIn(rows: seq<Row>, keys: set<Key>, r: Row)
    ensures r in Hits(rows, keys) <==> r in rows && r.key in keys
  {
    HitsBag(rows, keys);
    assert multiset(Hits(rows, keys))[r] == multiset(rows)[r] - Without(multiset(rows), keys)[r];
  }

  lemma {:induction false} HitsDistinct(rows: seq<Row>, keys: set<Key>)
    requires DistinctKeys(rows)
    ensures DistinctKeys(Hits(rows, keys))
  {
    if |rows| > 0 {
      var init := rows[..|rows| - 1];
      HitsDistinct(init, keys);
      forall i | 0 <= i < |Hits(init, keys)| ensures Hits(init, keys)[i].key != rows[|rows| - 1].key {
        HitsIn(init, keys, Hits(init, keys)[i]);
        assert Hits(init, keys)[i] in init;
      }
    }
  }

  lemma {:induction false} DistinctUnique(rows: seq<Row>)
    requires DistinctKeys(rows)
    ensures UniqueKeys(multiset(rows))
  {
    if |rows| > 0 {
      var init, last := rows[..|rows| - 1], rows[|rows| - 1];
      DistinctUnique(init);
      assert rows == init + [last];
      assert multiset(rows) == multiset(init) + multiset{last};
      forall r | r in init ensures r.key != last.key {}
    }
  }
}
