/** The undo of a statement others have been routed behind, exactly: which views it gets right, told
    from the undo record, the current entries, and whether a later keyed operation came. */
module UndoExact {
  import opened Rows
  import opened Window
  import opened Layers
  import opened Undo
  import opened Statements
  import opened Log
  import opened WindowSteps
  import opened UndoLater

  ghost predicate OwnsKey(entries: map<Key, Entry>, routed: Routed, k: Key) {
    exists j :: 0 <= j < |routed.keyed| && routed.keyed[j].key == k && StillOwn(entries, routed.keyed[j])
  }

  /** A later keyed operation addressed the key. */
  ghost predicate KeyedSince(later: seq<Stmt>, k: Key) {
    exists e :: e in later && !e.op.Insert? && k in OpKeys(e.op)
  }

  /** Each key the statement first put into the map is still its own there, or a later keyed operation
      has addressed it. */
  ghost predicate UndoClean(entries: map<Key, Entry>, routed: Routed, later: seq<Stmt>) {
    forall j :: 0 <= j < |routed.keyed| && routed.keyed[j].displaced.None?
      ==> StillOwn(entries, routed.keyed[j]) || KeyedSince(later, routed.keyed[j].key)
  }

  function Kept(b: Buf, routed: Routed): seq<seq<Row>> {
    RowsOf(DropIds(b.pending, IdSet(routed.ids)))
  }

  ghost predicate SameRows(b: Buf, w: Buf, routed: Routed, k: Key) {
    forall r: Row :: r.key == k ==> Bag(Kept(b, routed))[r] == Bag(RowsOf(w.pending))[r]
  }

  // ---- three ways a key can stand ------------------------------------------------------------------------

  /** With and without the statement, the key is in the map or not alike, and the undo leaves it as it
      would be. */
  ghost predicate Even(b: Buf, w: Buf, routed: Routed, k: Key) {
    && (k in Entries(b) <==> k in Entries(w))
    && SameOp(RestoreKeys(Entries(b), routed.keyed), Entries(w), k)
    && (k !in Entries(w) ==> SameRows(b, w, routed, k))
  }

  /** Only the statement put the key there; the undo would take it out again. */
  ghost predicate Untaken(b: Buf, w: Buf, routed: Routed, k: Key) {
    && OwnsKey(Entries(b), routed, k)
    && k !in Entries(w) && k !in RestoreKeys(Entries(b), routed.keyed)
    && SameRows(b, w, routed, k)
  }

  /** An INSERT has taken the entry over, where it would have been a plain append. */
  ghost predicate Taken(b: Buf, w: Buf, routed: Routed, k: Key) {
    && k in Entries(b) && !OwnsKey(Entries(b), routed, k)
    && k !in Entries(w) && k in RestoreKeys(Entries(b), routed.keyed)
    && exists r: Row :: r.key == k && Bag(RowsOf(w.pending))[r] >= 1
  }

  // ---- a later statement -------------------------------------------------------------------------------------

  lemma OtherCount(b: Buf, b': Buf, op: Op, sq: Option<nat>, routed: Routed, r: Row)
    requires NewBatches(b, b', op, sq) && r.key !in OpKeys(op) && Past(b, routed)
    ensures Bag(Kept(b', routed))[r] == Bag(Kept(b, routed))[r]
    ensures Bag(RowsOf(b'.pending))[r] == Bag(RowsOf(b.pending))[r]
  {
    RetractStmtBag(b, b', op, sq, IdSet(routed.ids), r);
    RetractStmtBag(b, b', op, sq, {}, r);
    DropNone(b.pending, {});
    DropNone(b'.pending, {});
  }

  lemma OtherEntry(b: Buf, b': Buf, op: Op, sq: Option<nat>, routed: Routed, k: Key)
    requires NewEntries(b, b', op, sq) && k !in OpKeys(op)
    ensures (k in Entries(b') <==> k in Entries(b)) && (k in Entries(b) ==> Entries(b')[k] == Entries(b)[k])
    ensures var now, was := RestoreKeys(Entries(b'), routed.keyed), RestoreKeys(Entries(b), routed.keyed);
            (k in now <==> k in was) && (k in now ==> now[k] == was[k])
    ensures OwnsKey(Entries(b'), routed, k) == OwnsKey(Entries(b), routed, k)
  {
    RestoreLocal(Entries(b'), Entries(b), routed.keyed, k);
  }

  /** A statement that does not name the key leaves it standing as it stood. */
  lemma OtherStmt(b: Buf, w: Buf, pk: seq<string>, routed: Routed, e: Stmt, k: Key)
    requires PkOk(b, pk) && PkOk(w, pk) && Past(b, routed) && k !in OpKeys(e.op)
    ensures var b', w' := RouteStmt(b, pk, e.op, Some(e.seqno), None).buf, RouteStmt(w, pk, e.op, Some(e.seqno), None).buf;
            && (Even(b, w, routed, k) ==> Even(b', w', routed, k))
            && (Untaken(b, w, routed, k) ==> Untaken(b', w', routed, k))
            && (Taken(b, w, routed, k) ==> Taken(b', w', routed, k))
  {
    var b', w' := RouteStmt(b, pk, e.op, Some(e.seqno), None).buf, RouteStmt(w, pk, e.op, Some(e.seqno), None).buf;
    StmtFacts(b, pk, e.op, Some(e.seqno), None);
    StmtFacts(w, pk, e.op, Some(e.seqno), None);
    OtherEntry(b, b', e.op, Some(e.seqno), routed, k);
    OtherEntry(w, w', e.op, Some(e.seqno), NOTHING, k);
    forall r: Row | r.key == k
      ensures Bag(Kept(b', routed))[r] == Bag(Kept(b, routed))[r] && Bag(RowsOf(w'.pending))[r] == Bag(RowsOf(w.pending))[r]
    {
      OtherCount(b, b', e.op, Some(e.seqno), routed, r);
      OtherCount(w, w', e.op, Some(e.seqno), NOTHING, r);
    }
  }

  /** A keyed operation settles the key. */
  lemma KeyedStmt(b: Buf, w: Buf, pk: seq<string>, routed: Routed, key: Key, kind: Kind, sq: nat)
    requires PkOk(b, pk) && PkOk(w, pk) && Past(b, routed)
    ensures Even(KeyedWrite(b, pk, key, kind, Some(sq), None).buf, KeyedWrite(w, pk, key, kind, Some(sq), None).buf, routed, key)
  {
    KeyedBehindAt(b, w, pk, routed, key, kind, sq, key);
  }

  lemma HitNotOwn(b: Buf, batches: seq<seq<Row>>, sq: Option<nat>, routed: Routed, k: Key)
    requires k in Entries(b) && k in OpKeys(Insert(batches)) && Past(b, routed)
    ensures var e := Entries(Route(b, batches, sq).buf);
            && k in e && !OwnsKey(e, routed, k)
            && k in RestoreKeys(e, routed.keyed) && RestoreKeys(e, routed.keyed)[k] == e[k]
  {
    HitValue(b, batches, sq, k);
    RestoreNewer(Entries(Route(b, batches, sq).buf), routed.keyed, k, NextStamp(b));
  }

  /** An INSERT on a key that stands even keeps it even. */
  lemma InsertEven(b: Buf, w: Buf, routed: Routed, batches: seq<seq<Row>>, sq: Option<nat>, k: Key)
    requires Even(b, w, routed, k) && Past(b, routed) && k in OpKeys(Insert(batches))
    ensures Even(Route(b, batches, sq).buf, Route(w, batches, sq).buf, routed, k)
  {
    var b', w' := Route(b, batches, sq).buf, Route(w, batches, sq).buf;
    InsertBehindAt(b, w, routed, batches, sq, k);
    AppendEntries(b, batches, sq);
    AppendEntries(w, batches, sq);
    if k !in Entries(w) {
      forall r: Row | r.key == k ensures Bag(Kept(b', routed))[r] == Bag(RowsOf(w'.pending))[r] {
        InsertedBag(b, batches, sq, IdSet(routed.ids), r);
        InsertedBag(w, batches, sq, {}, r);
        DropNone(w.pending, {});
        DropNone(w'.pending, {});
      }
    }
  }

  /** An INSERT on a key only the statement put there takes it over. */
  lemma InsertTakes(b: Buf, w: Buf, routed: Routed, batches: seq<seq<Row>>, sq: Option<nat>, k: Key)
    requires k in Entries(b) && k !in Entries(w) && Past(b, routed) && k in OpKeys(Insert(batches))
    ensures Taken(Route(b, batches, sq).buf, Route(w, batches, sq).buf, routed, k)
  {
    var b', w' := Route(b, batches, sq).buf, Route(w, batches, sq).buf;
    HitNotOwn(b, batches, sq, routed, k);
    AppendEntries(w, batches, sq);
    var x :| x in Flatten(batches) && x.key == k;
    InsertedBag(w, batches, sq, {}, x);
    DropNone(w.pending, {});
    DropNone(w'.pending, {});
    assert Bag(RowsOf(w'.pending))[x] >= 1;
  }

  // ---- all later statements ----------------------------------------------------------------------------------

  ghost predicate Stands(b: Buf, w: Buf, routed: Routed, later: seq<Stmt>, k: Key) {
    if NewKey(routed, k) && !KeyedSince(later, k) then Untaken(b, w, routed, k) || Taken(b, w, routed, k)
    else Even(b, w, routed, k)
  }

  lemma SinceNext(init: seq<Stmt>, e: Stmt, k: Key)
    ensures KeyedSince(init + [e], k) <==> KeyedSince(init, k) || (!e.op.Insert? && k in OpKeys(e.op))
  {
    if KeyedSince(init, k) { var x :| x in init && !x.op.Insert? && k in OpKeys(x.op); assert x in init + [e]; }
    if !e.op.Insert? && k in OpKeys(e.op) { assert e in init + [e]; }
  }

  lemma StageStands(b: Buf, w: Buf, routed: Routed, later: seq<Stmt>, k: Key, sq: Option<nat>)
    requires Stands(b, w, routed, later, k)
    ensures Stands(Stage(b, sq), Stage(w, sq), routed, later, k)
  {
    assert Entries(Stage(b, sq)) == Entries(b) && Entries(Stage(w, sq)) == Entries(w);
  }

  lemma InsertStands(b: Buf, w: Buf, routed: Routed, later: seq<Stmt>, batches: seq<seq<Row>>, sq: Option<nat>, k: Key)
    requires Stands(b, w, routed, later, k) && Past(b, routed) && k in OpKeys(Insert(batches))
    ensures Stands(Route(b, batches, sq).buf, Route(w, batches, sq).buf, routed, later, k)
  {
    if NewKey(routed, k) && !KeyedSince(later, k) {
      InsertTakes(b, w, routed, batches, sq, k);
    } else {
      InsertEven(b, w, routed, batches, sq, k);
    }
  }

  lemma NextStands(b: Buf, w: Buf, pk: seq<string>, routed: Routed, init: seq<Stmt>, e: Stmt, k: Key)
    requires PkOk(b, pk) && PkOk(w, pk) && Past(b, routed) && Stands(b, w, routed, init, k)
    ensures Stands(RouteStmt(b, pk, e.op, Some(e.seqno), None).buf, RouteStmt(w, pk, e.op, Some(e.seqno), None).buf,
                   routed, init + [e], k)
  {
    SinceNext(init, e, k);
    if k !in OpKeys(e.op) {
      OtherStmt(b, w, pk, routed, e, k);
    } else {
      match e.op
      case Insert(batches) =>
        StageStands(b, w, routed, init, k, Some(e.seqno));
        InsertStands(Stage(b, Some(e.seqno)), Stage(w, Some(e.seqno)), routed, init, batches, Some(e.seqno), k);
      case Put(key, val) => KeyedStmt(b, w, pk, routed, key, Upsert(val), e.seqno);
      case Del(key) => KeyedStmt(b, w, pk, routed, key, Delete, e.seqno);
    }
  }

  lemma {:induction false} AllPast(b: Buf, pk: seq<string>, routed: Routed, later: seq<Stmt>)
    requires PkOk(b, pk) && Past(b, routed)
    ensures Past(RouteAll(b, pk, later), routed)
  {
    if |later| > 0 {
      var init, e := later[..|later| - 1], later[|later| - 1];
      AllPast(b, pk, routed, init);
      StmtFacts(RouteAll(b, pk, init), pk, e.op, Some(e.seqno), None);
    }
  }

  lemma {:induction false} AllStands(b: Buf, w: Buf, pk: seq<string>, routed: Routed, later: seq<Stmt>, k: Key)
    requires PkOk(b, pk) && PkOk(w, pk) && Past(b, routed) && Stands(b, w, routed, [], k)
    ensures Stands(RouteAll(b, pk, later), RouteAll(w, pk, later), routed, later, k)
  {
    if |later| > 0 {
      var init, e := later[..|later| - 1], later[|later| - 1];
      AllStands(b, w, pk, routed, init, k);
      AllPast(b, pk, routed, init);
      NextStands(RouteAll(b, pk, init), RouteAll(w, pk, init), pk, routed, init, e, k);
      assert later == init + [e];
    }
  }

  /** Just routed, the statement owns the keys it first put into the map; all others are even. */
  lemma OwnStands(b: Buf, pk: seq<string>, op: Op, sq: nat, k: Key)
    requires WellFormed(b) && PkOk(b, pk)
    requires op.Insert? ==> DistinctKeys(Hits(Flatten(op.batches), Entries(b).Keys))
    ensures var a := RouteStmt(b, pk, op, Some(sq), None); Stands(a.buf, b, a.routed, [], k) && Past(a.buf, a.routed)
  {
    var a := RouteStmt(b, pk, op, Some(sq), None);
    StmtShadows(b, pk, op, sq);
    if NewKey(a.routed, k) {
      NewIsOwn(b, pk, op, sq, k);
    }
    ShadowStands(a.buf, b, a.routed, k);
  }

  lemma ShadowStands(b: Buf, w: Buf, routed: Routed, k: Key)
    requires Shadows(b, w, routed) && (NewKey(routed, k) ==> OwnsKey(Entries(b), routed, k) && k !in Entries(w))
    ensures Stands(b, w, routed, [], k)
  {
    assert SameOp(RestoreKeys(Entries(b), routed.keyed), Entries(w), k);
    forall r: Row | r.key == k ensures Bag(Kept(b, routed))[r] == Bag(RowsOf(w.pending))[r] {}
    if NewKey(routed, k) {
      assert Untaken(b, w, routed, k);
    } else {
      assert Even(b, w, routed, k);
    }
  }

  lemma NewIsOwn(b: Buf, pk: seq<string>, op: Op, sq: nat, k: Key)
    requires PkOk(b, pk) && NewKey(RouteStmt(b, pk, op, Some(sq), None).routed, k)
    ensures var a := RouteStmt(b, pk, op, Some(sq), None); OwnsKey(Entries(a.buf), a.routed, k) && k !in Entries(b)
  {
    var a := RouteStmt(b, pk, op, Some(sq), None);
    if op.Insert? {
      InsertAddsNoKey(Stage(b, Some(sq)), op.batches, Some(sq), k);
    } else {
      assert StillOwn(Entries(a.buf), a.routed.keyed[0]);
    }
  }

  // ---- what is seen ----------------------------------------------------------------------------------------------

  lemma CleanAt(b: Buf, w: Buf, routed: Routed, c: Table, r: Row)
    requires Even(b, w, routed, r.key) || Untaken(b, w, routed, r.key)
    ensures Apply(c, Live(Retract(b, routed)))[r] == Apply(c, Live(w))[r]
  {
    UndoEntries(b, routed);
  }

  /** Over a table that holds the taken row, the undo shows it once and the INSERT alone twice. */
  lemma TakenShows(b: Buf, w: Buf, routed: Routed, k: Key) returns (c: Table)
    requires Taken(b, w, routed, k)
    ensures Apply(c, Live(Retract(b, routed))) != Apply(c, Live(w))
  {
    UndoEntries(b, routed);
    var r: Row :| r.key == k && Bag(RowsOf(w.pending))[r] >= 1;
    c := multiset{r};
    assert Apply(c, Live(Retract(b, routed)))[r] <= 1 && Apply(c, Live(w))[r] >= 2;
  }

  lemma OneRecord(b: Buf, pk: seq<string>, op: Op, sq: nat, j: nat)
    requires PkOk(b, pk)
    requires var a := RouteStmt(b, pk, op, Some(sq), None); j < |a.routed.keyed| && a.routed.keyed[j].displaced.None?
    ensures |RouteStmt(b, pk, op, Some(sq), None).routed.keyed| == 1
  {
    if op.Insert? {
      var a := RouteStmt(b, pk, op, Some(sq), None);
      assert NewKey(a.routed, a.routed.keyed[j].key);
      InsertAddsNoKey(Stage(b, Some(sq)), op.batches, Some(sq), a.routed.keyed[j].key);
    }
  }

  /** After any later statements the undo leaves what there would be without the statement, over every
      committed table, exactly when each key the statement first put into the map is still its own
      there or a later keyed operation has addressed it: what spoils an undo is an INSERT that found
      the statement's entry and took it over. */
  lemma UndoneLaterIff(b: Buf, pk: seq<string>, op: Op, sq: nat, later: seq<Stmt>)
    requires WellFormed(b) && PkOk(b, pk)
    requires op.Insert? ==> DistinctKeys(Hits(Flatten(op.batches), Entries(b).Keys))
    ensures PkOk(RouteStmt(b, pk, op, Some(sq), None).buf, pk)
    ensures var a := RouteStmt(b, pk, op, Some(sq), None);
            var now, never := RouteAll(a.buf, pk, later), RouteAll(b, pk, later);
            (forall c :: Apply(c, Live(Retract(now, a.routed))) == Apply(c, Live(never)))
            <==> UndoClean(Entries(now), a.routed, later)
  {
    var a := RouteStmt(b, pk, op, Some(sq), None);
    StmtPk(b, pk, op, Some(sq), None);
    var now, never := RouteAll(a.buf, pk, later), RouteAll(b, pk, later);
    forall k ensures Stands(now, never, a.routed, later, k) {
      OwnStands(b, pk, op, sq, k);
      AllStands(a.buf, b, pk, a.routed, later, k);
    }
    if UndoClean(Entries(now), a.routed, later) {
      forall c ensures Apply(c, Live(Retract(now, a.routed))) == Apply(c, Live(never)) {
        AllClean(now, never, a.routed, later, c);
      }
    } else {
      var j :| 0 <= j < |a.routed.keyed| && a.routed.keyed[j].displaced.None?
               && !StillOwn(Entries(now), a.routed.keyed[j]) && !KeyedSince(later, a.routed.keyed[j].key);
      OneRecord(b, pk, op, sq, j);
      LostKey(now, never, a.routed, later, j);
      var c := TakenShows(now, never, a.routed, a.routed.keyed[j].key);
    }
  }

  lemma LostKey(now: Buf, never: Buf, routed: Routed, later: seq<Stmt>, j: nat)
    requires j < |routed.keyed| == 1 && routed.keyed[j].displaced.None?
    requires !StillOwn(Entries(now), routed.keyed[j]) && !KeyedSince(later, routed.keyed[j].key)
    requires Stands(now, never, routed, later, routed.keyed[j].key)
    ensures Taken(now, never, routed, routed.keyed[j].key)
  {
    assert NewKey(routed, routed.keyed[j].key);
  }

  lemma AllClean(now: Buf, never: Buf, routed: Routed, later: seq<Stmt>, c: Table)
    requires UndoClean(Entries(now), routed, later) && forall k :: Stands(now, never, routed, later, k)
    ensures Apply(c, Live(Retract(now, routed))) == Apply(c, Live(never))
  {
    var one, two := Apply(c, Live(Retract(now, routed))), Apply(c, Live(never));
    forall r: Row ensures one[r] == two[r] {
      CleanStands(now, never, routed, later, r.key);
      CleanAt(now, never, routed, c, r);
    }
    SameTable(one, two);
  }

  lemma CleanStands(now: Buf, never: Buf, routed: Routed, later: seq<Stmt>, k: Key)
    requires UndoClean(Entries(now), routed, later) && Stands(now, never, routed, later, k)
    ensures Even(now, never, routed, k) || Untaken(now, never, routed, k)
  {
    if NewKey(routed, k) && !KeyedSince(later, k) {
      var j :| 0 <= j < |routed.keyed| && routed.keyed[j].key == k && routed.keyed[j].displaced.None?;
      assert StillOwn(Entries(now), routed.keyed[j]);
      assert OwnsKey(Entries(now), routed, k);
    }
  }

  // ---- two undos on one key ----------------------------------------------------------------------------------

  /** Two statements recorded the key, and the older is undone first: its own entry comes back
      exactly when it is what the newer one displaced and the newer one's is still current. */
  lemma UndoRevivesIff(entries: map<Key, Entry>, older: RoutedKey, newer: RoutedKey)
    requires older.key == newer.key && older.key in entries && older.stamp < newer.stamp
    requires older.displaced.Some? ==> older.displaced.value.stamp < older.stamp
    ensures var left := RestoreKey(RestoreKey(entries, older), newer);
            StillOwn(left, older)
            <==> StillOwn(entries, newer) && newer.displaced.Some? && newer.displaced.value.stamp == older.stamp
  {}

  /** Undone newest first, two statements leave what was there before them. */
  lemma UndoInOrder(entries: map<Key, Entry>, older: RoutedKey, newer: RoutedKey)
    requires older.key == newer.key && StillOwn(entries, newer)
    requires newer.displaced.Some? && newer.displaced.value.stamp == older.stamp
    ensures RestoreKey(RestoreKey(entries, newer), older)
         == if older.displaced.Some? then entries[older.key := older.displaced.value] else entries - {older.key}
  {}
}
