/** One statement at the window: what routing it changes, what it means, what undoing it changes,
    and what every transition of the window keeps. */
module Statements {
  import opened Rows
  import opened Window
  import opened Layers
  import opened Routing
  import opened Undo

  function RouteStmt(b: Buf, pk: seq<string>, op: Op, staged: Option<nat>, replayed: Option<nat>): Acc
    requires !PkChanged(b, pk)
  {
    match op
    case Insert(batches) => Append(b, batches, staged, replayed)
    case Put(key, val) => KeyedWrite(b, pk, key, Upsert(val), staged, replayed)
    case Del(key) => KeyedWrite(b, pk, key, Delete, staged, replayed)
  }

  function NextStamp(b: Buf): nat {
    if b.keyed.Some? then b.keyed.value.nextStamp else 1
  }

  function ClaimedBelow(b: Buf): nat {
    if b.keyed.Some? then b.keyed.value.claimedBelow else 1
  }

  /** The batches a statement added, in closed form. */
  ghost predicate NewBatches(b: Buf, b': Buf, op: Op, sq: Option<nat>) {
    && b.pending <= b'.pending
    && b.nextId <= b'.nextId
    && forall i :: |b.pending| <= i < |b'.pending| ==>
         && !b'.pending[i].claimed && b'.pending[i].seqno == sq
         && b'.pending[i].id == b.nextId + (i - |b.pending|) < b'.nextId
         && forall r :: r in b'.pending[i].rows ==> r.key in OpKeys(op) && r.key !in Entries(b)
  }

  /** The entries a statement changed. */
  ghost predicate NewEntries(b: Buf, b': Buf, op: Op, sq: Option<nat>) {
    && NextStamp(b) <= NextStamp(b') && ClaimedBelow(b') == ClaimedBelow(b)
    && (forall k :: k in Entries(b) ==> k in Entries(b'))
    && (forall k :: k in Entries(b') && k !in OpKeys(op) ==> k in Entries(b) && Entries(b')[k] == Entries(b)[k])
    && (forall k :: k in Entries(b') && k in OpKeys(op) ==>
          || (k in Entries(b) && Entries(b')[k] == Entries(b)[k])
          || (Entries(b')[k].seqno == sq && NextStamp(b) <= Entries(b')[k].stamp < NextStamp(b')))
  }

  /** The undo record names only what the statement added. */
  ghost predicate OwnRecord(b: Buf, a: Acc, op: Op) {
    && (forall i :: i in a.routed.ids ==> b.nextId <= i < a.buf.nextId)
    && (forall i :: 0 <= i < |a.routed.keyed| ==>
          a.routed.keyed[i].key in OpKeys(op) && NextStamp(b) <= a.routed.keyed[i].stamp < NextStamp(a.buf))
  }

  lemma {:induction false} FlattenHas(batches: seq<seq<Row>>, i: nat, r: Row)
    requires i < |batches| && r in batches[i]
    ensures r in Flatten(batches)
  {
    if i < |batches| - 1 {
      FlattenHas(batches[..|batches| - 1], i, r);
    }
  }

  lemma AppendBatches(b: Buf, batches: seq<seq<Row>>, sq: Option<nat>)
    ensures NewBatches(b, Route(b, batches, sq).buf, Insert(batches), sq)
  {
    RouteEffect(b, batches, sq);
    var b' := Route(b, batches, sq).buf;
    var pushed := b'.pending[|b.pending|..];
    forall i, r | |b.pending| <= i < |b'.pending| && r in b'.pending[i].rows ensures r.key in OpKeys(Insert(batches)) {
      assert b'.pending[i] == pushed[i - |b.pending|];
      FlattenHas(RowsOf(pushed), i - |b.pending|, r);
      SuppressIn(Flatten(batches), Entries(b).Keys, r);
    }
    forall i | |b.pending| <= i < |b'.pending|
      ensures !b'.pending[i].claimed && b'.pending[i].seqno == sq
           && b'.pending[i].id == b.nextId + (i - |b.pending|) < b'.nextId
           && forall r :: r in b'.pending[i].rows ==> r.key !in Entries(b)
    {
      assert b'.pending[i] == pushed[i - |b.pending|];
    }
  }

  lemma AppendEntries(b: Buf, batches: seq<seq<Row>>, sq: Option<nat>)
    ensures NewEntries(b, Route(b, batches, sq).buf, Insert(batches), sq)
    ensures Entries(Route(b, batches, sq).buf).Keys == Entries(b).Keys
  {
    RouteEffect(b, batches, sq);
    RoutedKeySet(Acc(b, NOTHING), Route(b, batches, sq), Flatten(batches), sq);
    if b.keyed.Some? {
      var hits := Hits(Flatten(batches), Entries(b).Keys);
      forall k | k in KeysOf(hits) ensures k in OpKeys(Insert(batches)) {
        var r :| r in hits && r.key == k;
        HitsIn(Flatten(batches), Entries(b).Keys, r);
      }
    }
  }

  lemma AppendRecord(b: Buf, batches: seq<seq<Row>>, sq: Option<nat>)
    ensures OwnRecord(b, Route(b, batches, sq), Insert(batches))
  {
    RouteEffect(b, batches, sq);
    var r := Route(b, batches, sq);
    assert r.routed.ids[|NOTHING.ids|..] == r.routed.ids;
    if b.keyed.Some? {
      var hits := Hits(Flatten(batches), Entries(b).Keys);
      SupersedeRecords(Acc(b, NOTHING), hits, sq);
      SupersedeRowsEffect(Acc(b, NOTHING), hits, sq);
      var s := SupersedeRows(Acc(b, NOTHING), hits, sq);
      assert Records(Acc(b, NOTHING), s) == r.routed.keyed;
      forall i | 0 <= i < |r.routed.keyed| ensures r.routed.keyed[i].key in OpKeys(Insert(batches)) {
        HitsIn(Flatten(batches), Entries(b).Keys, hits[i]);
        assert r.routed.keyed[i].key == hits[i].key;
      }
    }
  }

  /** A statement that brings a row leaves a trace an undo could find. */
  lemma AppendNonempty(b: Buf, batches: seq<seq<Row>>, sq: Option<nat>)
    requires |Flatten(batches)| > 0
    ensures var r := Route(b, batches, sq); r.routed.ids != [] || r.routed.keyed != []
  {
    RouteEffect(b, batches, sq);
    var r := Route(b, batches, sq);
    var x := Flatten(batches)[0];
    assert r.routed.ids[|NOTHING.ids|..] == r.routed.ids;
    if x.key in Entries(b) {
      HitsIn(Flatten(batches), Entries(b).Keys, x);
      SupersedeRecords(Acc(b, NOTHING), Hits(Flatten(batches), Entries(b).Keys), sq);
    } else {
      SuppressIn(Flatten(batches), Entries(b).Keys, x);
      assert |Flatten(RowsOf(r.buf.pending[|b.pending|..]))| > 0;
      assert b.nextId in r.routed.ids;
    }
  }

  /** What a statement does to the window, in one place. */
  lemma StmtFacts(b: Buf, pk: seq<string>, op: Op, staged: Option<nat>, replayed: Option<nat>)
    requires !PkChanged(b, pk)
    ensures var a, sq := RouteStmt(b, pk, op, staged, replayed), StmtSeq(staged, replayed);
            && NewBatches(b, a.buf, op, sq) && NewEntries(b, a.buf, op, sq) && OwnRecord(b, a, op)
            && a.buf.flushed == b.flushed
            && a.buf.tailHigh == Stage(b, staged).tailHigh && a.buf.undurable == Stage(b, staged).undurable
  {
    var sq := StmtSeq(staged, replayed);
    if op.Insert? {
      var b0 := Stage(b, staged);
      AppendBatches(b0, op.batches, sq);
      AppendEntries(b0, op.batches, sq);
      AppendRecord(b0, op.batches, sq);
      RouteEffect(b0, op.batches, sq);
    }
  }

  lemma StmtDisplaced(b: Buf, pk: seq<string>, op: Op, staged: Option<nat>, replayed: Option<nat>)
    requires !PkChanged(b, pk) && StampsBelow(b)
    ensures var recs := RouteStmt(b, pk, op, staged, replayed).routed.keyed; OlderDisplaced(recs) && StampsRise(recs)
  {
    if op.Insert? {
      var b0, sq := Stage(b, staged), StmtSeq(staged, replayed);
      RouteEffect(b0, op.batches, sq);
      if b0.keyed.Some? {
        var a, hits := Acc(b0, NOTHING), Hits(Flatten(op.batches), Entries(b0).Keys);
        SupersedeDisplaced(a, hits, sq);
        SupersedeRecords(a, hits, sq);
        assert Records(a, SupersedeRows(a, hits, sq)) == Route(b0, op.batches, sq).routed.keyed;
      }
    }
  }

  /** After a keyed statement its own declaration goes through and every other one is refused. */
  lemma KeyedWriteDeclares(
    b: Buf, pk: seq<string>, key: Key, kind: Kind, staged: Option<nat>, replayed: Option<nat>)
    requires !PkChanged(b, pk)
    ensures var after := KeyedWrite(b, pk, key, kind, staged, replayed).buf;
            after.keyed.Some? && after.keyed.value.pkCols == pk
            && forall other :: PkChanged(after, other) <==> other != pk
  {
    var after := KeyedWrite(b, pk, key, kind, staged, replayed).buf;
    assert key in Entries(after);
  }

  lemma StmtPk(b: Buf, pk: seq<string>, op: Op, staged: Option<nat>, replayed: Option<nat>)
    requires !PkChanged(b, pk) && (b.keyed.Some? ==> b.keyed.value.pkCols == pk)
    ensures var b' := RouteStmt(b, pk, op, staged, replayed).buf;
            && (b'.keyed.Some? ==> b'.keyed.value.pkCols == pk)
            && (op.Insert? && Entries(b) == map[] ==> Entries(b') == map[])
            && (b.keyed.Some? ==> b'.keyed.Some?)
  {
    if op.Insert? {
      var b0, sq := Stage(b, staged), StmtSeq(staged, replayed);
      RouteEffect(b0, op.batches, sq);
      RoutedKeySet(Acc(b0, NOTHING), Route(b0, op.batches, sq), Flatten(op.batches), sq);
      if Entries(b) == map[] {
        assert Entries(Route(b0, op.batches, sq).buf).Keys == {};
      }
    }
  }

  lemma StmtNonempty(b: Buf, pk: seq<string>, op: Op, staged: Option<nat>, replayed: Option<nat>)
    requires !PkChanged(b, pk) && (op.Insert? ==> |Flatten(op.batches)| > 0)
    ensures var a := RouteStmt(b, pk, op, staged, replayed); a.routed.ids != [] || a.routed.keyed != []
  {
    if op.Insert? {
      AppendNonempty(Stage(b, staged), op.batches, StmtSeq(staged, replayed));
    }
  }

  /** Routing a statement is running it, under the condition an insert needs. */
  lemma StmtDenotes(
    b: Buf, pk: seq<string>, op: Op, staged: Option<nat>, replayed: Option<nat>, c: Table)
    requires !PkChanged(b, pk)
    requires op.Insert? ==> HitsAreDeleted(b, Flatten(op.batches))
    ensures Apply(c, Live(RouteStmt(b, pk, op, staged, replayed).buf)) == Exec(Apply(c, Live(b)), op)
  {
    match op
    case Insert(batches) =>
      var b0 := Stage(b, staged);
      assert Live(b0) == Live(b);
      RouteDenotesInsert(b0, batches, StmtSeq(staged, replayed), c);
    case Put(key, val) => KeyedWriteDenotes(b, pk, key, Upsert(val), staged, replayed, c);
    case Del(key) => KeyedWriteDenotes(b, pk, key, Delete, staged, replayed, c);
  }

  /** An insert that targets no present key hits buffered deletes only. */
  lemma AbsentKeysHitDeletes(b: Buf, rows: seq<Row>, c: Table)
    requires DistinctKeys(rows)
    requires forall r :: r in rows ==> !HasKey(Apply(c, Live(b)), r.key)
    ensures HitsAreDeleted(b, rows)
  {
    var hits := Hits(rows, Entries(b).Keys);
    HitsDistinct(rows, Entries(b).Keys);
    forall r | r in hits ensures r.key in Entries(b) && Entries(b)[r.key].kind.Delete? {
      HitsIn(rows, Entries(b).Keys, r);
      var kind := Entries(b)[r.key].kind;
      assert Row(r.key, if kind.Upsert? then kind.val else 0) !in Apply(c, Live(b));
    }
  }

  // ---- undo, seen from the table -----------------------------------------------------------

  /** The statement's batches hold only rows of its own keys. */
  ghost predicate OwnBatches(b: Buf, routed: Routed, keys: set<Key>) {
    && (forall i, r :: 0 <= i < |b.pending| && b.pending[i].id in routed.ids && r in b.pending[i].rows ==> r.key in keys)
    && (forall i :: 0 <= i < |routed.keyed| ==> routed.keyed[i].key in keys)
  }

  lemma {:induction false} DropBag(pending: seq<Batch>, ids: set<nat>, keys: set<Key>, r: Row)
    requires forall i, x :: 0 <= i < |pending| && pending[i].id in ids && x in pending[i].rows ==> x.key in keys
    requires r.key !in keys
    ensures Bag(RowsOf(DropIds(pending, ids)))[r] == Bag(RowsOf(pending))[r]
  {
    if |pending| > 0 {
      var init, last := pending[..|pending| - 1], pending[|pending| - 1];
      DropBag(init, ids, keys, r);
      assert pending == init + [last];
      RowsOfSnoc(init, last);
      RowsOfSnoc(DropIds(init, ids), last);
      if last.id in ids {
        assert r !in last.rows;
        assert multiset(last.rows)[r] == 0;
      }
    }
  }

  /** Undo leaves every other key alone. */
  lemma UndoFrame(c: Table, b: Buf, routed: Routed, keys: set<Key>, r: Row)
    requires OwnBatches(b, routed, keys) && r.key !in keys
    ensures Apply(c, Live(Retract(b, routed)))[r] == Apply(c, Live(b))[r]
  {
    DropBag(b.pending, IdSet(routed.ids), keys, r);
    RestoreFrame(Entries(b), routed.keyed, r.key);
    UndoEntries(b, routed);
  }

  lemma UndoEntries(b: Buf, routed: Routed)
    ensures Entries(Retract(b, routed)) == RestoreKeys(Entries(b), routed.keyed)
  {
    RestoreSubset(map[], routed.keyed);
  }

  /** What a layer shows of a row depends only on that key's entry and that row's count. */
  lemma ApplyLocal(c: Table, a: Layer, b: Layer, r: Row)
    requires r.key in a.ops <==> r.key in b.ops
    requires r.key in a.ops ==> a.ops[r.key].kind == b.ops[r.key].kind
    requires r.key !in a.ops ==> Bag(a.batches)[r] == Bag(b.batches)[r]
    ensures Apply(c, a)[r] == Apply(c, b)[r]
  {}

  lemma UndoKeyedAtOnce(b: Buf, pk: seq<string>, key: Key, kind: Kind, sq: nat)
    requires !PkChanged(b, pk)
    ensures var a := KeyedWrite(b, pk, key, kind, Some(sq), None);
            Live(Retract(a.buf, a.routed)) == Live(b)
  {
    var a := KeyedWrite(b, pk, key, kind, Some(sq), None);
    assert IdSet(a.routed.ids) == {};
    DropNone(a.buf.pending, {});
    UndoEntries(a.buf, a.routed);
    var rk := a.routed.keyed[0];
    assert a.routed.keyed == [rk] && [rk][..0] == [];
    assert RestoreKeys(Entries(a.buf), [rk]) == RestoreKey(Entries(a.buf), rk);
    assert RestoreKey(Entries(a.buf), rk) == Entries(b);
  }

  lemma UndoInsertAtOnce(b: Buf, batches: seq<seq<Row>>, sq: nat)
    requires IdsUnique(b) && b.pendingRows == RowCount(b.pending)
    requires DistinctKeys(Hits(Flatten(batches), Entries(b).Keys))
    ensures var a := Append(b, batches, Some(sq), None);
            Live(Retract(a.buf, a.routed)) == Live(b)
  {
    var b0 := Stage(b, Some(sq));
    assert Entries(b0) == Entries(b);
    UndoInsertExact(b0, batches, Some(sq));
  }

  /** A statement undone at once is as if it had not been routed. */
  lemma UndoStmtAtOnce(b: Buf, pk: seq<string>, op: Op, sq: nat)
    requires !PkChanged(b, pk) && IdsUnique(b) && b.pendingRows == RowCount(b.pending)
    requires op.Insert? ==> DistinctKeys(Hits(Flatten(op.batches), Entries(b).Keys))
    ensures var a := RouteStmt(b, pk, op, Some(sq), None);
            Live(Retract(a.buf, a.routed)) == Live(b)
  {
    match op
    case Insert(batches) => UndoInsertAtOnce(b, batches, sq);
    case Put(key, val) => UndoKeyedAtOnce(b, pk, key, Upsert(val), sq);
    case Del(key) => UndoKeyedAtOnce(b, pk, key, Delete, sq);
  }

  // ---- what every transition keeps ------------------------------------------------------------

  lemma StmtWellFormed(b: Buf, pk: seq<string>, op: Op, staged: Option<nat>, replayed: Option<nat>)
    requires WellFormed(b) && !PkChanged(b, pk)
    ensures WellFormed(RouteStmt(b, pk, op, staged, replayed).buf)
  {
    var a := RouteStmt(b, pk, op, staged, replayed);
    StmtFacts(b, pk, op, staged, replayed);
    var n :| ClaimedPrefix(b.pending, n);
    assert ClaimedPrefix(a.buf.pending, n);
    StmtRowCount(b, pk, op, staged, replayed);
    StmtStamps(b, pk, op, staged, replayed);
    StmtKeyedReady(b, pk, op, staged, replayed);
  }

  lemma StmtStamps(b: Buf, pk: seq<string>, op: Op, staged: Option<nat>, replayed: Option<nat>)
    requires !PkChanged(b, pk) && StampsBelow(b)
    ensures StampsBelow(RouteStmt(b, pk, op, staged, replayed).buf)
  {
    var a := RouteStmt(b, pk, op, staged, replayed);
    StmtFacts(b, pk, op, staged, replayed);
    forall k | k in Entries(a.buf) ensures Entries(a.buf)[k].stamp < NextStamp(a.buf) {
      assert k in OpKeys(op) || k in Entries(b);
    }
  }

  lemma RouteRowCount(b: Buf, batches: seq<seq<Row>>, sq: Option<nat>)
    requires b.pendingRows == RowCount(b.pending)
    ensures var b' := Route(b, batches, sq).buf; b'.pendingRows == RowCount(b'.pending)
  {
    RouteEffect(b, batches, sq);
    var b' := Route(b, batches, sq).buf;
    assert b'.pending == b.pending + b'.pending[|b.pending|..];
    RowCountConcat(b.pending, b'.pending[|b.pending|..]);
  }

  lemma StmtRowCount(b: Buf, pk: seq<string>, op: Op, staged: Option<nat>, replayed: Option<nat>)
    requires b.pendingRows == RowCount(b.pending) && !PkChanged(b, pk)
    ensures var b' := RouteStmt(b, pk, op, staged, replayed).buf;
            b'.pendingRows == RowCount(b'.pending)
  {
    if op.Insert? {
      RouteRowCount(Stage(b, staged), op.batches, StmtSeq(staged, replayed));
    }
  }

  lemma StmtKeyedReady(b: Buf, pk: seq<string>, op: Op, staged: Option<nat>, replayed: Option<nat>)
    requires KeyedReady(b) && !PkChanged(b, pk)
    ensures KeyedReady(RouteStmt(b, pk, op, staged, replayed).buf)
  {
    if op.Insert? {
      RouteEffect(Stage(b, staged), op.batches, StmtSeq(staged, replayed));
    }
  }
}
