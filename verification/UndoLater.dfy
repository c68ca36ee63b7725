/** Undoing a statement after others have been routed behind it: when exactly the window shows what
    it would show had the statement never been there. */
module UndoLater {
  import opened Rows
  import opened Window
  import opened Layers
  import opened Routing
  import opened Undo
  import opened Statements
  import opened Log
  import opened WindowSteps

  /** The buffered keys were encoded under this declaration. */
  predicate PkOk(b: Buf, pk: seq<string>) {
    b.keyed.Some? ==> b.keyed.value.pkCols == pk
  }

  /** Statements routed one after another. */
  function RouteAll(b: Buf, pk: seq<string>, later: seq<Stmt>): (r: Buf)
    requires PkOk(b, pk)
    ensures PkOk(r, pk)
  {
    if |later| == 0 then b
    else
      var e := later[|later| - 1];
      var m := RouteAll(b, pk, later[..|later| - 1]);
      StmtPk(m, pk, e.op, Some(e.seqno), None);
      RouteStmt(m, pk, e.op, Some(e.seqno), None).buf
  }

  /** Two maps hold the same operation for a key, stamps aside. */
  ghost predicate SameOp(m: map<Key, Entry>, n: map<Key, Entry>, k: Key) {
    && (k in m <==> k in n)
    && (k in m ==> m[k].kind == n[k].kind && m[k].seqno == n[k].seqno)
  }

  /** The statement put this key into the map, where none was. */
  predicate NewKey(routed: Routed, k: Key) {
    exists j :: 0 <= j < |routed.keyed| && routed.keyed[j].key == k && routed.keyed[j].displaced.None?
  }

  /** A record names batches and stamps of the past only. */
  ghost predicate Past(b: Buf, routed: Routed) {
    && (forall i :: i in routed.ids ==> i < b.nextId)
    && (forall j :: 0 <= j < |routed.keyed| ==> routed.keyed[j].stamp < NextStamp(b))
  }

  // ---- what one INSERT makes of a key -----------------------------------------------------------------

  lemma {:induction false} HitsLast(rows: seq<Row>, keys: set<Key>, k: Key)
    requires k in keys
    ensures LastVal(Hits(rows, keys), k) == LastVal(rows, k)
  {
    if |rows| > 0 {
      var init, last := rows[..|rows| - 1], rows[|rows| - 1];
      HitsLast(init, keys, k);
      if last.key in keys { assert (Hits(init, keys) + [last])[..|Hits(init, keys)|] == Hits(init, keys); }
    }
  }

  lemma {:induction false} SupersedeLastVal(a: Acc, rows: seq<Row>, sq: Option<nat>, k: Key)
    requires a.buf.keyed.Some? && k in KeysOf(rows)
    ensures var e := Entries(SupersedeRows(a, rows, sq).buf); k in e && e[k].kind == Upsert(LastVal(rows, k))
  {
    var init, last := rows[..|rows| - 1], rows[|rows| - 1];
    assert rows == init + [last];
    if last.key != k {
      SupersedeLastVal(a, init, sq, k);
    }
  }

  lemma InsertEntries(b: Buf, batches: seq<seq<Row>>, sq: Option<nat>)
    requires b.keyed.Some?
    ensures var b' := Route(b, batches, sq).buf;
            Entries(b') == Entries(SupersedeRows(Acc(b, NOTHING), Hits(Flatten(batches), Entries(b).Keys), sq).buf)
    ensures Route(b, batches, sq).buf.keyed.Some?
  {
    RouteEffect(b, batches, sq);
    RoutedKeySet(Acc(b, NOTHING), Route(b, batches, sq), Flatten(batches), sq);
  }

  /** A key with an entry takes the INSERT's last row of it, whatever the entry was. */
  lemma HitValue(b: Buf, batches: seq<seq<Row>>, sq: Option<nat>, k: Key)
    requires k in Entries(b) && k in OpKeys(Insert(batches))
    ensures var e := Entries(Route(b, batches, sq).buf);
            k in e && e[k].kind == Upsert(LastVal(Flatten(batches), k)) && e[k].seqno == sq && e[k].stamp >= NextStamp(b)
  {
    HitIsNew(b, batches, sq, k);
    InsertEntries(b, batches, sq);
    var rows, keys := Flatten(batches), Entries(b).Keys;
    var x :| x in rows && x.key == k;
    HitsIn(rows, keys, x);
    SupersedeLastVal(Acc(b, NOTHING), Hits(rows, keys), sq, k);
    HitsLast(rows, keys, k);
  }

  lemma InsertKeepsEntry(b: Buf, batches: seq<seq<Row>>, sq: Option<nat>, k: Key)
    requires !(k in Entries(b) && k in OpKeys(Insert(batches)))
    ensures var b' := Route(b, batches, sq).buf;
            (k in Entries(b') <==> k in Entries(b)) && (k in Entries(b) ==> Entries(b')[k] == Entries(b)[k])
  {
    AppendEntries(b, batches, sq);
  }

  // ---- exactly as if it had never been there ---------------------------------------------------------------

  /** `b` carries the statement, `w` never did; the key sets differ by the statement's new keys. */
  ghost predicate Shadows(b: Buf, w: Buf, routed: Routed) {
    && Flatten(RowsOf(DropIds(b.pending, IdSet(routed.ids)))) == Flatten(RowsOf(w.pending))
    && (forall k :: SameOp(RestoreKeys(Entries(b), routed.keyed), Entries(w), k))
    && (forall k :: !NewKey(routed, k) ==> (k in Entries(b) <==> k in Entries(w)))
    && Past(b, routed)
  }

  lemma {:induction false} FilterSame(rows: seq<Row>, a: set<Key>, b: set<Key>)
    requires forall r :: r in rows ==> (r.key in a <==> r.key in b)
    ensures Suppress(rows, a) == Suppress(rows, b) && Hits(rows, a) == Hits(rows, b)
  {
    if |rows| > 0 {
      FilterSame(rows[..|rows| - 1], a, b);
      assert rows[|rows| - 1] in rows;
    }
  }

  lemma InsertBehindAt(b: Buf, w: Buf, routed: Routed, batches: seq<seq<Row>>, sq: Option<nat>, k: Key)
    requires SameOp(RestoreKeys(Entries(b), routed.keyed), Entries(w), k) && Past(b, routed)
    requires k in OpKeys(Insert(batches)) ==> (k in Entries(b) <==> k in Entries(w))
    ensures SameOp(RestoreKeys(Entries(Route(b, batches, sq).buf), routed.keyed), Entries(Route(w, batches, sq).buf), k)
  {
    var b' := Route(b, batches, sq).buf;
    if k in OpKeys(Insert(batches)) && k in Entries(b) {
      HitValue(b, batches, sq, k);
      HitValue(w, batches, sq, k);
      RestoreNewer(Entries(b'), routed.keyed, k, NextStamp(b));
    } else {
      InsertKeepsEntry(b, batches, sq, k);
      InsertKeepsEntry(w, batches, sq, k);
      RestoreLocal(Entries(b'), Entries(b), routed.keyed, k);
    }
  }

  lemma InsertBehind(b: Buf, w: Buf, routed: Routed, batches: seq<seq<Row>>, sq: Option<nat>)
    requires Shadows(b, w, routed)
    requires forall k :: k in OpKeys(Insert(batches)) ==> !NewKey(routed, k)
    ensures Shadows(Route(b, batches, sq).buf, Route(w, batches, sq).buf, routed)
  {
    var b', w', rows := Route(b, batches, sq).buf, Route(w, batches, sq).buf, Flatten(batches);
    forall r | r in rows ensures r.key in Entries(b) <==> r.key in Entries(w) { assert r.key in OpKeys(Insert(batches)); }
    FilterSame(rows, Entries(b).Keys, Entries(w).Keys);
    InsertRows(b, batches, sq, IdSet(routed.ids));
    InsertRows(w, batches, sq, {});
    DropNone(w.pending, {});
    DropNone(w'.pending, {});
    AppendEntries(b, batches, sq);
    AppendEntries(w, batches, sq);
    AppendBatches(b, batches, sq);
    forall k ensures SameOp(RestoreKeys(Entries(b'), routed.keyed), Entries(w'), k) {
      InsertBehindAt(b, w, routed, batches, sq, k);
    }
  }

  lemma KeyedBehindAt(b: Buf, w: Buf, pk: seq<string>, routed: Routed, key: Key, kind: Kind, sq: nat, k: Key)
    requires PkOk(b, pk) && PkOk(w, pk) && Past(b, routed)
    requires k != key ==> SameOp(RestoreKeys(Entries(b), routed.keyed), Entries(w), k)
    ensures SameOp(RestoreKeys(Entries(KeyedWrite(b, pk, key, kind, Some(sq), None).buf), routed.keyed),
                   Entries(KeyedWrite(w, pk, key, kind, Some(sq), None).buf), k)
  {
    var b' := KeyedWrite(b, pk, key, kind, Some(sq), None).buf;
    if k == key {
      RestoreNewer(Entries(b'), routed.keyed, k, NextStamp(b));
    } else {
      RestoreLocal(Entries(b'), Entries(b), routed.keyed, k);
    }
  }

  lemma KeyedBehind(b: Buf, w: Buf, pk: seq<string>, routed: Routed, key: Key, kind: Kind, sq: nat)
    requires Shadows(b, w, routed) && PkOk(b, pk) && PkOk(w, pk)
    ensures Shadows(KeyedWrite(b, pk, key, kind, Some(sq), None).buf, KeyedWrite(w, pk, key, kind, Some(sq), None).buf, routed)
  {
    var b', w' := KeyedWrite(b, pk, key, kind, Some(sq), None).buf, KeyedWrite(w, pk, key, kind, Some(sq), None).buf;
    forall k ensures SameOp(RestoreKeys(Entries(b'), routed.keyed), Entries(w'), k) {
      KeyedBehindAt(b, w, pk, routed, key, kind, sq, k);
    }
  }

  lemma StageShadows(b: Buf, w: Buf, routed: Routed, sq: Option<nat>)
    requires Shadows(b, w, routed)
    ensures Shadows(Stage(b, sq), Stage(w, sq), routed)
  {
    assert Entries(Stage(b, sq)) == Entries(b) && Entries(Stage(w, sq)) == Entries(w);
  }

  lemma StmtBehind(b: Buf, w: Buf, pk: seq<string>, routed: Routed, e: Stmt)
    requires Shadows(b, w, routed) && PkOk(b, pk) && PkOk(w, pk)
    requires e.op.Insert? ==> forall k :: k in OpKeys(e.op) ==> !NewKey(routed, k)
    ensures Shadows(RouteStmt(b, pk, e.op, Some(e.seqno), None).buf, RouteStmt(w, pk, e.op, Some(e.seqno), None).buf, routed)
  {
    match e.op
    case Insert(batches) =>
      StageShadows(b, w, routed, Some(e.seqno));
      InsertBehind(Stage(b, Some(e.seqno)), Stage(w, Some(e.seqno)), routed, batches, Some(e.seqno));
    case Put(key, val) => KeyedBehind(b, w, pk, routed, key, Upsert(val), e.seqno);
    case Del(key) => KeyedBehind(b, w, pk, routed, key, Delete, e.seqno);
  }

  lemma {:induction false} AllBehind(b: Buf, w: Buf, pk: seq<string>, routed: Routed, later: seq<Stmt>)
    requires Shadows(b, w, routed) && PkOk(b, pk) && PkOk(w, pk)
    requires forall e, k :: e in later && e.op.Insert? && k in OpKeys(e.op) ==> !NewKey(routed, k)
    ensures Shadows(RouteAll(b, pk, later), RouteAll(w, pk, later), routed)
  {
    if |later| > 0 {
      var init, e := later[..|later| - 1], later[|later| - 1];
      AllBehind(b, w, pk, routed, init);
      assert e in later;
      StmtBehind(RouteAll(b, pk, init), RouteAll(w, pk, init), pk, routed, e);
    }
  }

  // ---- the statement itself -----------------------------------------------------------------------------

  /** Rows that hit entries displace something, every one of them. */
  lemma {:induction false} HitsDisplace(a: Acc, rows: seq<Row>, sq: Option<nat>)
    requires a.buf.keyed.Some? && KeysOf(rows) <= Entries(a.buf).Keys
    ensures var r := SupersedeRows(a, rows, sq);
            && a.routed.keyed <= r.routed.keyed
            && forall j :: 0 <= j < |Records(a, r)| ==> Records(a, r)[j].displaced.Some?
  {
    if |rows| > 0 {
      var init, last := rows[..|rows| - 1], rows[|rows| - 1];
      assert rows == init + [last];
      HitsDisplace(a, init, sq);
      SupersedeRowsEffect(a, init, sq);
      SupersedeAdds(a, SupersedeRows(a, init, sq), last, sq);
      assert last.key in KeysOf(rows);
    }
  }

  lemma InsertAddsNoKey(b: Buf, batches: seq<seq<Row>>, sq: Option<nat>, k: Key)
    ensures !NewKey(Route(b, batches, sq).routed, k)
  {
    RouteEffect(b, batches, sq);
    if b.keyed.Some? {
      var a, hits := Acc(b, NOTHING), Hits(Flatten(batches), Entries(b).Keys);
      HitKeys(Flatten(batches), Entries(b).Keys);
      HitsDisplace(a, hits, sq);
      assert Records(a, SupersedeRows(a, hits, sq)) == Route(b, batches, sq).routed.keyed;
    }
  }

  /** The key set after a statement: grown by the keys it put there first. */
  lemma StmtKeySet(b: Buf, pk: seq<string>, op: Op, sq: nat, k: Key)
    requires PkOk(b, pk)
    ensures var a := RouteStmt(b, pk, op, Some(sq), None);
            !NewKey(a.routed, k) ==> (k in Entries(a.buf) <==> k in Entries(b))
  {
    match op
    case Insert(batches) =>
      AppendEntries(Stage(b, Some(sq)), batches, Some(sq));
    case _ =>
      var a := RouteStmt(b, pk, op, Some(sq), None);
      assert |a.routed.keyed| == 1 && a.routed.keyed[0].displaced.None? ==> NewKey(a.routed, a.routed.keyed[0].key);
  }

  lemma StmtShadows(b: Buf, pk: seq<string>, op: Op, sq: nat)
    requires WellFormed(b) && PkOk(b, pk)
    requires op.Insert? ==> DistinctKeys(Hits(Flatten(op.batches), Entries(b).Keys))
    ensures var a := RouteStmt(b, pk, op, Some(sq), None); Shadows(a.buf, b, a.routed)
  {
    var a := RouteStmt(b, pk, op, Some(sq), None);
    UndoStmtAtOnce(b, pk, op, sq);
    UndoEntries(a.buf, a.routed);
    StmtFacts(b, pk, op, Some(sq), None);
    forall k ensures !NewKey(a.routed, k) ==> (k in Entries(a.buf) <==> k in Entries(b)) {
      StmtKeySet(b, pk, op, sq, k);
    }
    ShadowsAtOnce(a, b, op);
  }

  lemma ShadowsAtOnce(a: Acc, b: Buf, op: Op)
    requires Live(Retract(a.buf, a.routed)) == Live(b) && OwnRecord(b, a, op)
    requires Entries(Retract(a.buf, a.routed)) == RestoreKeys(Entries(a.buf), a.routed.keyed)
    requires forall k :: !NewKey(a.routed, k) ==> (k in Entries(a.buf) <==> k in Entries(b))
    ensures Shadows(a.buf, b, a.routed)
  {
    assert Live(Retract(a.buf, a.routed)).batches == RowsOf(DropIds(a.buf.pending, IdSet(a.routed.ids)));
    assert Live(Retract(a.buf, a.routed)).ops == Entries(b);
  }

  lemma {:induction false} RouteAllWellFormed(b: Buf, pk: seq<string>, later: seq<Stmt>)
    requires WellFormed(b) && PkOk(b, pk)
    ensures WellFormed(RouteAll(b, pk, later))
  {
    if |later| > 0 {
      var init, e := later[..|later| - 1], later[|later| - 1];
      RouteAllWellFormed(b, pk, init);
      StmtWellFormed(RouteAll(b, pk, init), pk, e.op, Some(e.seqno), None);
    }
  }

  lemma {:induction false} RowCountIsRows(pending: seq<Batch>)
    ensures RowCount(pending) == |Flatten(RowsOf(pending))|
  {
    if |pending| > 0 {
      var init, last := pending[..|pending| - 1], pending[|pending| - 1];
      RowCountIsRows(init);
      assert pending == init + [last];
      RowsOfSnoc(init, last);
    }
  }

  lemma ShadowsMeans(b: Buf, w: Buf, routed: Routed)
    requires Shadows(b, w, routed) && b.pendingRows == RowCount(b.pending) && w.pendingRows == RowCount(w.pending)
    ensures var undone := Retract(b, routed);
            && Flatten(RowsOf(undone.pending)) == Flatten(RowsOf(w.pending)) && undone.pendingRows == w.pendingRows
            && forall k :: SameOp(Entries(undone), Entries(w), k)
  {
    UndoEntries(b, routed);
    DropIdsFacts(b.pending, IdSet(routed.ids));
    RowCountIsRows(Retract(b, routed).pending);
    RowCountIsRows(w.pending);
  }

  /** A statement undone after any others have been routed behind it leaves the pending rows in order,
      the row count and every keyed operation as they would be had it never been routed, provided no
      later INSERT names a key the statement first put into the map. An INSERT puts none there: nothing
      is asked where there are no keyed operations. */
  lemma UndoneLaterIsNever(b: Buf, pk: seq<string>, op: Op, sq: nat, later: seq<Stmt>)
    requires WellFormed(b) && PkOk(b, pk)
    requires op.Insert? ==> DistinctKeys(Hits(Flatten(op.batches), Entries(b).Keys))
    requires !op.Insert? ==> forall e, k :: e in later && e.op.Insert? && k in OpKeys(e.op) ==>
               !NewKey(RouteStmt(b, pk, op, Some(sq), None).routed, k)
    ensures var a := RouteStmt(b, pk, op, Some(sq), None);
            && PkOk(a.buf, pk)
            && var undone, never := Retract(RouteAll(a.buf, pk, later), a.routed), RouteAll(b, pk, later);
            && Flatten(RowsOf(undone.pending)) == Flatten(RowsOf(never.pending))
            && undone.pendingRows == never.pendingRows
            && forall k :: SameOp(Entries(undone), Entries(never), k)
  {
    var a := RouteStmt(b, pk, op, Some(sq), None);
    StmtPk(b, pk, op, Some(sq), None);
    StmtShadows(b, pk, op, sq);
    if op.Insert? {
      forall k ensures !NewKey(a.routed, k) { InsertAddsNoKey(Stage(b, Some(sq)), op.batches, Some(sq), k); }
    }
    AllBehind(a.buf, b, pk, a.routed, later);
    StmtWellFormed(b, pk, op, Some(sq), None);
    RouteAllWellFormed(a.buf, pk, later);
    RouteAllWellFormed(b, pk, later);
    ShadowsMeans(RouteAll(a.buf, pk, later), RouteAll(b, pk, later), a.routed);
  }
}
