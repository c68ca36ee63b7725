/** Routing: what an insert or a keyed write does to the live window, and when that is the
    statement itself. Tail sequence order is the total order for a key. */
module Routing {
  import opened Rows
  import opened Window
  import opened Layers

  lemma {:induction false} SuppressConcat(a: seq<Row>, b: seq<Row>, keys: set<Key>)
    ensures Suppress(a + b, keys) == Suppress(a, keys) + Suppress(b, keys)
    decreases |b|
  {
    if |b| == 0 {
      assert a + b == a;
    } else {
      assert (a + b)[..|a + b| - 1] == a + b[..|b| - 1];
      SuppressConcat(a, b[..|b| - 1], keys);
    }
  }

  lemma {:induction false} HitsConcat(a: seq<Row>, b: seq<Row>, keys: set<Key>)
    ensures Hits(a + b, keys) == Hits(a, keys) + Hits(b, keys)
    decreases |b|
  {
    if |b| == 0 {
      assert a + b == a;
    } else {
      assert (a + b)[..|a + b| - 1] == a + b[..|b| - 1];
      HitsConcat(a, b[..|b| - 1], keys);
    }
  }

  // ---- superseding rows --------------------------------------------------------------

  /** Two accumulators with the same keyed state and the same undo records of keys. */
  ghost predicate SameKeyed(a: Acc, b: Acc) {
    a.buf.keyed == b.buf.keyed && a.routed.keyed == b.routed.keyed
  }

  lemma {:induction false} SupersedeSame(a: Acc, b: Acc, rows: seq<Row>, sq: Option<nat>)
    requires a.buf.keyed.Some? && SameKeyed(a, b)
    ensures SameKeyed(SupersedeRows(a, rows, sq), SupersedeRows(b, rows, sq))
  {
    if |rows| > 0 {
      SupersedeSame(a, b, rows[..|rows| - 1], sq);
    }
  }

  lemma {:induction false} SupersedeConcat(a: Acc, x: seq<Row>, y: seq<Row>, sq: Option<nat>)
    requires a.buf.keyed.Some?
    ensures SupersedeRows(a, x + y, sq) == SupersedeRows(SupersedeRows(a, x, sq), y, sq)
    decreases |y|
  {
    if |y| == 0 {
      assert x + y == x;
    } else {
      assert (x + y)[..|x + y| - 1] == x + y[..|y| - 1];
      SupersedeConcat(a, x, y[..|y| - 1], sq);
    }
  }

  /** Everything `SupersedeRows` changes, in closed form. */
  ghost predicate Superseded(ks: KeyedState, ks': KeyedState, rows: seq<Row>, sq: Option<nat>) {
    && ks'.pkCols == ks.pkCols && ks'.claimedBelow == ks.claimedBelow
    && ks'.nextStamp == ks.nextStamp + |rows|
    && ks'.entries.Keys == ks.entries.Keys + KeysOf(rows)
    && (forall k :: k in ks.entries && k !in KeysOf(rows) ==> ks'.entries[k] == ks.entries[k])
    && (forall k :: k in KeysOf(rows) ==>
          && ks'.entries[k].kind.Upsert? && Row(k, ks'.entries[k].kind.val) in rows
          && ks'.entries[k].seqno == sq
          && ks.nextStamp <= ks'.entries[k].stamp < ks'.nextStamp)
  }

  lemma {:induction false} SupersedeRowsEffect(a: Acc, rows: seq<Row>, sq: Option<nat>)
    requires a.buf.keyed.Some?
    ensures var r := SupersedeRows(a, rows, sq);
            && Superseded(a.buf.keyed.value, r.buf.keyed.value, rows, sq)
            && r.buf == a.buf.(keyed := r.buf.keyed) && r.routed.ids == a.routed.ids
  {
    if |rows| > 0 {
      var init, last := rows[..|rows| - 1], rows[|rows| - 1];
      SupersedeRowsEffect(a, init, sq);
      assert rows == init + [last];
      assert KeysOf(rows) == KeysOf(init) + {last.key};
    }
  }

  // ---- routing a whole statement -------------------------------------------------------

  /** The batches an insert pushed: unclaimed, numbered on, and clear of every buffered key. */
  ghost predicate Pushed(pushed: seq<Batch>, firstId: nat, keys: set<Key>, sq: Option<nat>) {
    forall i :: 0 <= i < |pushed| ==>
      && pushed[i].id == firstId + i && !pushed[i].claimed && pushed[i].seqno == sq
      && forall r :: r in pushed[i].rows ==> r.key !in keys
  }

  /** Everything routing the rows `rows` changes, in closed form. */
  ghost predicate RoutedTo(a: Acc, r: Acc, rows: seq<Row>, sq: Option<nat>) {
    RoutedParts(a, r, Suppress(rows, Entries(a.buf).Keys), Hits(rows, Entries(a.buf).Keys), sq)
  }

  ghost predicate RoutedParts(a: Acc, r: Acc, rest: seq<Row>, hits: seq<Row>, sq: Option<nat>) {
    && a.buf.pending <= r.buf.pending
    && a.routed.ids <= r.routed.ids
    && var pushed := r.buf.pending[|a.buf.pending|..];
    && r.buf == a.buf.(pending := r.buf.pending, pendingRows := r.buf.pendingRows,
                       nextId := r.buf.nextId, keyed := r.buf.keyed)
    && Pushed(pushed, a.buf.nextId, Entries(a.buf).Keys, sq)
    && Flatten(RowsOf(pushed)) == rest
    && r.buf.nextId == a.buf.nextId + |pushed|
    && r.buf.pendingRows == a.buf.pendingRows + RowCount(pushed)
    && (forall i :: i in r.routed.ids[|a.routed.ids|..] <==> a.buf.nextId <= i < r.buf.nextId)
    && (a.buf.keyed.None? ==> SameKeyed(a, r))
    && (a.buf.keyed.Some? ==> SameKeyed(SupersedeRows(a, hits, sq), r))
  }

  lemma RowCountSnoc(pending: seq<Batch>, b: Batch)
    ensures RowCount(pending + [b]) == RowCount(pending) + |b.rows|
  {
    assert (pending + [b])[..|pending|] == pending;
  }

  lemma RowsOfSnoc(p: seq<Batch>, nb: Batch)
    ensures RowsOf(p + [nb]) == RowsOf(p) + [nb.rows]
    ensures Flatten(RowsOf(p + [nb])) == Flatten(RowsOf(p)) + nb.rows
  {
    FlattenSnoc(RowsOf(p), nb.rows);
  }

  lemma PushedSnoc(p: seq<Batch>, firstId: nat, keys: set<Key>, sq: Option<nat>, nb: Batch)
    requires Pushed(p, firstId, keys, sq)
    requires nb.id == firstId + |p| && !nb.claimed && nb.seqno == sq
    requires forall x :: x in nb.rows ==> x.key !in keys
    ensures Pushed(p + [nb], firstId, keys, sq)
  {}

  lemma PushParts(a: Acc, m: Acc, rest: seq<Row>, hits: seq<Row>, add: seq<Row>, sq: Option<nat>)
    requires RoutedParts(a, m, rest, hits, sq)
    requires forall x :: x in add ==> x.key !in Entries(a.buf).Keys
    ensures RoutedParts(a, Push(m, add, sq), rest + add, hits, sq)
  {
    var r := Push(m, add, sq);
    var p, p' := m.buf.pending[|a.buf.pending|..], r.buf.pending[|a.buf.pending|..];
    var nb := Batch(m.buf.nextId, false, sq, add);
    assert p' == p + [nb];
    PushedSnoc(p, a.buf.nextId, Entries(a.buf).Keys, sq, nb);
    RowsOfSnoc(p, nb);
    RowCountSnoc(p, nb);
    assert r.routed.ids[|a.routed.ids|..] == m.routed.ids[|a.routed.ids|..] + [m.buf.nextId];
  }

  lemma PushRouted(a: Acc, m: Acc, rows: seq<Row>, add: seq<Row>, sq: Option<nat>)
    requires RoutedTo(a, m, rows, sq)
    requires Suppress(add, Entries(a.buf).Keys) == add && Hits(add, Entries(a.buf).Keys) == []
    requires forall x :: x in add ==> x.key !in Entries(a.buf).Keys
    ensures RoutedTo(a, Push(m, add, sq), rows + add, sq)
  {
    var keys := Entries(a.buf).Keys;
    PushParts(a, m, Suppress(rows, keys), Hits(rows, keys), add, sq);
    SuppressConcat(rows, add, keys);
    HitsConcat(rows, add, keys);
    assert Hits(rows, keys) + [] == Hits(rows, keys);
  }

  lemma SupersedeRouted(a: Acc, m: Acc, rows: seq<Row>, hits: seq<Row>, sq: Option<nat>)
    requires RoutedTo(a, m, rows, sq)
    requires a.buf.keyed.Some? && m.buf.keyed.Some?
    requires Suppress(hits, Entries(a.buf).Keys) == [] && Hits(hits, Entries(a.buf).Keys) == hits
    ensures RoutedTo(a, SupersedeRows(m, hits, sq), rows + hits, sq)
  {
    var keys := Entries(a.buf).Keys;
    SupersedeRowsEffect(m, hits, sq);
    SupersedeSame(SupersedeRows(a, Hits(rows, keys), sq), m, hits, sq);
    SupersedeConcat(a, Hits(rows, keys), hits, sq);
    SuppressConcat(rows, hits, keys);
    HitsConcat(rows, hits, keys);
    assert Suppress(rows, keys) + [] == Suppress(rows, keys);
  }

  /** Routing changes entries, never the set of buffered keys. */
  lemma RoutedKeySet(a: Acc, m: Acc, rows: seq<Row>, sq: Option<nat>)
    requires RoutedTo(a, m, rows, sq)
    ensures a.buf.keyed.Some? == m.buf.keyed.Some?
    ensures Entries(m.buf).Keys == Entries(a.buf).Keys
    ensures a.buf.keyed.Some? ==>
      Superseded(a.buf.keyed.value, m.buf.keyed.value, Hits(rows, Entries(a.buf).Keys), sq)
  {
    if a.buf.keyed.Some? {
      var hits := Hits(rows, Entries(a.buf).Keys);
      SupersedeRowsEffect(a, hits, sq);
      forall k | k in KeysOf(hits) ensures k in Entries(a.buf) {
        var r :| r in hits && r.key == k;
        HitsIn(rows, Entries(a.buf).Keys, r);
      }
      assert Entries(a.buf).Keys + KeysOf(hits) == Entries(a.buf).Keys;
    }
  }

  lemma {:induction false} FilterIdempotent(rows: seq<Row>, keys: set<Key>)
    ensures Suppress(Suppress(rows, keys), keys) == Suppress(rows, keys)
    ensures Hits(Suppress(rows, keys), keys) == []
    ensures Hits(Hits(rows, keys), keys) == Hits(rows, keys)
    ensures Suppress(Hits(rows, keys), keys) == []
  {
    if |rows| > 0 {
      var init, last := rows[..|rows| - 1], rows[|rows| - 1];
      FilterIdempotent(init, keys);
      SuppressConcat(Suppress(init, keys), [last], keys);
      HitsConcat(Suppress(init, keys), [last], keys);
      SuppressConcat(Hits(init, keys), [last], keys);
      HitsConcat(Hits(init, keys), [last], keys);
      assert [last][..0] == [];
    }
  }

  /** Hits first, then survivors: the same rows as the batch in its own order. */
  lemma Regroup(rows: seq<Row>, batch: seq<Row>, keys: set<Key>)
    ensures Suppress(rows + Hits(batch, keys) + Suppress(batch, keys), keys) == Suppress(rows + batch, keys)
    ensures Hits(rows + Hits(batch, keys) + Suppress(batch, keys), keys) == Hits(rows + batch, keys)
  {
    FilterIdempotent(batch, keys);
    SuppressConcat(rows + Hits(batch, keys), Suppress(batch, keys), keys);
    SuppressConcat(rows, Hits(batch, keys), keys);
    SuppressConcat(rows, batch, keys);
    HitsConcat(rows + Hits(batch, keys), Suppress(batch, keys), keys);
    HitsConcat(rows, Hits(batch, keys), keys);
    HitsConcat(rows, batch, keys);
  }

  lemma RouteBatchEffect(a: Acc, m: Acc, rows: seq<Row>, batch: seq<Row>, sq: Option<nat>)
    requires a.buf.keyed.Some? && m.buf.keyed.Some?
    requires RoutedTo(a, m, rows, sq)
    ensures RoutedTo(a, RouteBatch(m, batch, sq), rows + batch, sq)
  {
    var keys := Entries(a.buf).Keys;
    RoutedKeySet(a, m, rows, sq);
    FilterIdempotent(batch, keys);
    var h := SupersedeRows(m, Hits(batch, keys), sq);
    SupersedeRouted(a, m, rows, Hits(batch, keys), sq);
    var rest := Suppress(batch, keys);
    if rest == [] {
      assert rows + Hits(batch, keys) + rest == rows + Hits(batch, keys);
    } else {
      forall r | r in rest ensures r.key !in keys { SuppressIn(batch, keys, r); }
      PushRouted(a, h, rows + Hits(batch, keys), rest, sq);
    }
    Regroup(rows, batch, keys);
  }

  lemma RoutedToStart(a: Acc, sq: Option<nat>)
    ensures RoutedTo(a, a, [], sq)
  {
    assert a.buf.pending[|a.buf.pending|..] == [];
    assert RowsOf(a.buf.pending[|a.buf.pending|..]) == [];
    assert a.routed.ids[|a.routed.ids|..] == [];
  }

  lemma {:induction false} RouteBatchesEffect(a: Acc, batches: seq<seq<Row>>, sq: Option<nat>)
    requires a.buf.keyed.Some?
    ensures RoutedTo(a, RouteBatches(a, batches, sq), Flatten(batches), sq)
  {
    if |batches| == 0 {
      RoutedToStart(a, sq);
    } else {
      var init, last := batches[..|batches| - 1], batches[|batches| - 1];
      RouteBatchesEffect(a, init, sq);
      RouteBatchEffect(a, RouteBatches(a, init, sq), Flatten(init), last, sq);
    }
  }

  lemma {:induction false} NoKeys(rows: seq<Row>)
    ensures Suppress(rows, {}) == rows && Hits(rows, {}) == []
  {
    if |rows| > 0 {
      NoKeys(rows[..|rows| - 1]);
    }
  }

  lemma {:induction false} PushBatchesEffect(a: Acc, batches: seq<seq<Row>>, sq: Option<nat>)
    requires Entries(a.buf) == map[]
    ensures RoutedTo(a, PushBatches(a, batches, sq), Flatten(batches), sq)
  {
    if |batches| == 0 {
      RoutedToStart(a, sq);
    } else {
      var init, last := batches[..|batches| - 1], batches[|batches| - 1];
      PushBatchesEffect(a, init, sq);
      NoKeys(last);
      assert Entries(a.buf).Keys == {};
      PushRouted(a, PushBatches(a, init, sq), Flatten(init), last, sq);
    }
  }

  /** Both forms of routing, the plain one and the keyed one, do the same thing. */
  lemma RouteEffect(b: Buf, batches: seq<seq<Row>>, sq: Option<nat>)
    ensures RoutedTo(Acc(b, NOTHING), Route(b, batches, sq), Flatten(batches), sq)
  {
    if Entries(b) == map[] {
      PushBatchesEffect(Acc(b, NOTHING), batches, sq);
    } else {
      RouteBatchesEffect(Acc(b, NOTHING), batches, sq);
    }
  }

  // ---- what routing means ------------------------------------------------------------------

  lemma RoutedBag(a: Acc, r: Acc, rows: seq<Row>, sq: Option<nat>)
    requires RoutedTo(a, r, rows, sq)
    ensures Bag(RowsOf(r.buf.pending))
         == Bag(RowsOf(a.buf.pending)) + Without(multiset(rows), Entries(a.buf).Keys)
  {
    var pushed := r.buf.pending[|a.buf.pending|..];
    assert r.buf.pending == a.buf.pending + pushed;
    RowsOfConcat(a.buf.pending, pushed);
    BagConcat(RowsOf(a.buf.pending), RowsOf(pushed));
    SuppressBag(rows, Entries(a.buf).Keys);
  }

  /** Each row an insert routes into the keyed map takes the place of a buffered delete, and no
      two of them share a key. */
  ghost predicate HitsAreDeleted(b: Buf, rows: seq<Row>) {
    var hits := Hits(rows, Entries(b).Keys);
    && DistinctKeys(hits)
    && forall r :: r in hits ==> r.key in Entries(b) && Entries(b)[r.key].kind.Delete?
  }

  lemma HitCount(rows: seq<Row>, keys: set<Key>, r: Row)
    requires r.key in keys
    ensures multiset(rows)[r] == multiset(Hits(rows, keys))[r]
  {
    HitsBag(rows, keys);
  }

  /** The row a routed key ends up with, against the statement's own rows of that key. */
  lemma RouteRowAt(b: Buf, batches: seq<seq<Row>>, sq: Option<nat>, c: Table, x: Row)
    ensures var rows, b' := Flatten(batches), Route(b, batches, sq).buf;
            && (x.key !in KeysOf(Hits(rows, Entries(b).Keys))
                ==> Apply(c, Live(b'))[x] == Apply(c, Live(b))[x] + multiset(rows)[x])
            && (x.key in KeysOf(Hits(rows, Entries(b).Keys)) ==>
                && x.key in Entries(b) && x.key in Entries(b') && Entries(b')[x.key].kind.Upsert?
                && Row(x.key, Entries(b')[x.key].kind.val) in Hits(rows, Entries(b).Keys)
                && Apply(c, Live(b'))[x] == if Entries(b')[x.key].kind.val == x.val then 1 else 0)
  {
    var keys, rows := Entries(b).Keys, Flatten(batches);
    RouteEffect(b, batches, sq);
    RoutedKeySet(Acc(b, NOTHING), Route(b, batches, sq), rows, sq);
    RoutedBag(Acc(b, NOTHING), Route(b, batches, sq), rows, sq);
    if x.key in KeysOf(Hits(rows, keys)) {
      var y :| y in Hits(rows, keys) && y.key == x.key;
      HitsIn(rows, keys, y);
    } else if x.key in keys {
      HitCount(rows, keys, x);
      assert x !in Hits(rows, keys);
    }
  }

  lemma CountDistinct(rows: seq<Row>, x: Row, y: Row)
    requires DistinctKeys(rows) && y in rows && x.key == y.key
    ensures multiset(rows)[x] == if x == y then 1 else 0
  {
    DistinctUnique(rows);
    if x in rows {
      assert x in multiset(rows) && y in multiset(rows);
    }
  }

  lemma RouteDenotesAt(b: Buf, batches: seq<seq<Row>>, sq: Option<nat>, c: Table, x: Row)
    requires HitsAreDeleted(b, Flatten(batches))
    ensures Apply(c, Live(Route(b, batches, sq).buf))[x] == Apply(c, Live(b))[x] + multiset(Flatten(batches))[x]
  {
    var rows := Flatten(batches);
    var hits := Hits(rows, Entries(b).Keys);
    RouteRowAt(b, batches, sq, c, x);
    if x.key in KeysOf(hits) {
      var y := Row(x.key, Entries(Route(b, batches, sq).buf)[x.key].kind.val);
      CountDistinct(hits, x, y);
      HitCount(rows, Entries(b).Keys, x);
      assert Entries(b)[x.key].kind.Delete?;
    }
  }

  lemma RouteDenotesInsert(b: Buf, batches: seq<seq<Row>>, sq: Option<nat>, c: Table)
    requires HitsAreDeleted(b, Flatten(batches))
    ensures Apply(c, Live(Route(b, batches, sq).buf)) == Apply(c, Live(b)) + multiset(Flatten(batches))
  {
    var now, was := Apply(c, Live(Route(b, batches, sq).buf)), Apply(c, Live(b)) + multiset(Flatten(batches));
    forall x: Row ensures now[x] == was[x] { RouteDenotesAt(b, batches, sq, c, x); }
    SameTable(now, was);
  }

  lemma {:induction false} CountTwice(rows: seq<Row>, i: nat, j: nat)
    requires i < j < |rows| && rows[i] == rows[j]
    ensures multiset(rows)[rows[i]] >= 2
  {
    assert rows == rows[..j] + [rows[j]] + rows[j + 1..];
    assert rows[..j][i] == rows[i];
    assert rows[i] in multiset(rows[..j]);
  }

  /** A routed row over a buffered upsert overwrites a row the insert would have kept. */
  lemma OverUpsertDiffers(b: Buf, batches: seq<seq<Row>>, sq: Option<nat>, c: Table, x: Row)
    requires x in Hits(Flatten(batches), Entries(b).Keys)
    requires x.key in Entries(b) && Entries(b)[x.key].kind.Upsert?
    ensures Apply(c, Live(Route(b, batches, sq).buf)) != Apply(c, Live(b)) + multiset(Flatten(batches))
  {
    var rows, b' := Flatten(batches), Route(b, batches, sq).buf;
    var was := Row(x.key, Entries(b)[x.key].kind.val);
    RouteRowAt(b, batches, sq, c, was);
    var now := Row(x.key, Entries(b')[x.key].kind.val);
    HitsIn(rows, Entries(b).Keys, now);
    assert Apply(c, Live(b))[was] == 1;
    assert multiset(rows)[now] >= 1;
    assert Apply(c, Live(b'))[was] < (Apply(c, Live(b)) + multiset(rows))[was];
  }

  /** Two routed rows of one key leave one row where the insert leaves two. */
  lemma TwiceRoutedDiffers(b: Buf, batches: seq<seq<Row>>, sq: Option<nat>, c: Table, i: nat, j: nat)
    requires var hits := Hits(Flatten(batches), Entries(b).Keys);
             i < j < |hits| && hits[i].key == hits[j].key
    ensures Apply(c, Live(Route(b, batches, sq).buf)) != Apply(c, Live(b)) + multiset(Flatten(batches))
  {
    var rows, keys, b' := Flatten(batches), Entries(b).Keys, Route(b, batches, sq).buf;
    var hits := Hits(rows, keys);
    HitsIn(rows, keys, hits[i]);
    RouteRowAt(b, batches, sq, c, hits[i]);
    RouteRowAt(b, batches, sq, c, hits[j]);
    HitCount(rows, keys, hits[i]);
    HitCount(rows, keys, hits[j]);
    if hits[i] == hits[j] {
      CountTwice(hits, i, j);
      assert Apply(c, Live(b'))[hits[i]] < (Apply(c, Live(b)) + multiset(rows))[hits[i]];
    } else {
      assert hits[i] in multiset(hits) && hits[j] in multiset(hits);
      var x := if Apply(c, Live(b'))[hits[i]] == 0 then hits[i] else hits[j];
      assert Apply(c, Live(b'))[x] < (Apply(c, Live(b)) + multiset(rows))[x];
    }
  }

  /** Routing an insert is the insert exactly when every routed row replaces a buffered delete
      and no two routed rows share a key. */
  lemma RouteExactIff(b: Buf, batches: seq<seq<Row>>, sq: Option<nat>, c: Table)
    ensures Apply(c, Live(Route(b, batches, sq).buf)) == Apply(c, Live(b)) + multiset(Flatten(batches))
       <==> HitsAreDeleted(b, Flatten(batches))
  {
    var rows := Flatten(batches);
    var hits := Hits(rows, Entries(b).Keys);
    if HitsAreDeleted(b, rows) {
      RouteDenotesInsert(b, batches, sq, c);
    } else {
      forall x | x in hits ensures x.key in Entries(b) { HitsIn(rows, Entries(b).Keys, x); }
      if x :| x in hits && Entries(b)[x.key].kind.Upsert? {
        OverUpsertDiffers(b, batches, sq, c, x);
      } else {
        var i: nat, j: nat :| i < j < |hits| && hits[i].key == hits[j].key;
        TwiceRoutedDiffers(b, batches, sq, c, i, j);
      }
    }
  }

  lemma KeyedWriteEffect(
    b: Buf, pk: seq<string>, key: Key, kind: Kind, staged: Option<nat>, replayed: Option<nat>)
    requires !PkChanged(b, pk)
    ensures var b' := KeyedWrite(b, pk, key, kind, staged, replayed).buf;
            && b'.pending == b.pending
            && Entries(b').Keys == Entries(b).Keys + {key}
            && Entries(b')[key].kind == kind
            && forall k :: k in Entries(b) && k != key ==> Entries(b')[k] == Entries(b)[k]
  {}

  lemma OverwriteKey(c: Table, l: Layer, l': Layer, key: Key, kind: Kind)
    requires l'.batches == l.batches && l'.ops.Keys == l.ops.Keys + {key} && l'.ops[key].kind == kind
    requires forall k :: k in l.ops && k != key ==> l'.ops[k] == l.ops[k]
    ensures Apply(c, l') == Exec(Apply(c, l), KindOp(key, kind))
  {
    var one, two := Apply(c, l'), Exec(Apply(c, l), KindOp(key, kind));
    forall r: Row ensures one[r] == two[r] {}
    assert one == two;
  }

  /** A keyed write is always the statement itself. */
  lemma KeyedWriteDenotes(
    b: Buf, pk: seq<string>, key: Key, kind: Kind, staged: Option<nat>, replayed: Option<nat>, c: Table)
    requires !PkChanged(b, pk)
    ensures Apply(c, Live(KeyedWrite(b, pk, key, kind, staged, replayed).buf))
         == Exec(Apply(c, Live(b)), KindOp(key, kind))
  {
    KeyedWriteEffect(b, pk, key, kind, staged, replayed);
    OverwriteKey(c, Live(b), Live(KeyedWrite(b, pk, key, kind, staged, replayed).buf), key, kind);
  }
}
