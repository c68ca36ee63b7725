/** How the window's transitions keep a window well formed and what they do to the table it
    shows: undoing, snapshotting, draining a committed snapshot, folding a lost one back. */
module WindowSteps {
  import opened Rows
  import opened Window
  import opened Layers
  import opened Routing
  import opened Undo
  import opened Statements
  import opened Log
  import opened Engine
  import opened Invariants

  // ---- undo ------------------------------------------------------------------------------------

  lemma {:induction false} DropIdsFacts(pending: seq<Batch>, ids: set<nat>)
    ensures RowCount(DropIds(pending, ids)) <= RowCount(pending)
    ensures |DropIds(pending, ids)| <= |pending|
    ensures forall pb :: pb in DropIds(pending, ids) ==> pb in pending
  {
    if |pending| > 0 {
      DropIdsFacts(pending[..|pending| - 1], ids);
      if pending[|pending| - 1].id !in ids {
        RowCountSnoc(DropIds(pending[..|pending| - 1], ids), pending[|pending| - 1]);
      }
    }
  }

  lemma {:induction false} DropIdsUnique(pending: seq<Batch>, ids: set<nat>)
    requires forall i, j :: 0 <= i < j < |pending| ==> pending[i].id != pending[j].id
    ensures var p := DropIds(pending, ids); forall i, j :: 0 <= i < j < |p| ==> p[i].id != p[j].id
  {
    if |pending| > 0 {
      var init, last := pending[..|pending| - 1], pending[|pending| - 1];
      DropIdsUnique(init, ids);
      DropIdsFacts(init, ids);
      OthersIds(init, last, DropIds(init, ids));
    }
  }

  lemma OthersIds(init: seq<Batch>, last: Batch, kept: seq<Batch>)
    requires forall i :: 0 <= i < |init| ==> init[i].id != last.id
    requires forall pb :: pb in kept ==> pb in init
    ensures forall i :: 0 <= i < |kept| ==> kept[i].id != last.id
  {
    forall i | 0 <= i < |kept| ensures kept[i].id != last.id { assert kept[i] in init; }
  }

  lemma DropIdsClaimed(pending: seq<Batch>, ids: set<nat>, n: nat)
    requires ClaimedPrefix(pending, n)
    requires forall i :: 0 <= i < |pending| && pending[i].id in ids ==> !pending[i].claimed
    ensures ClaimedPrefix(DropIds(pending, ids), n)
    ensures DropIds(pending, ids)[..n] == pending[..n]
    ensures DropIds(pending, ids) == pending[..n] + DropIds(pending[n..], ids)
  {
    var head, rest := pending[..n], pending[n..];
    assert pending == head + rest;
    DropConcat(head, rest, ids);
    forall i | 0 <= i < |head| ensures head[i].id !in ids {
      assert head[i] == pending[i];
    }
    DropNone(head, ids);
    DropIdsFacts(rest, ids);
    forall pb | pb in DropIds(rest, ids) ensures !pb.claimed {
      var j :| 0 <= j < |rest| && rest[j] == pb;
      assert pending[n + j] == pb;
    }
  }

  lemma {:induction false} RestoreStamps(entries: map<Key, Entry>, recs: seq<RoutedKey>, bound: nat, k: Key)
    requires k in entries ==> entries[k].stamp < bound
    requires forall i :: 0 <= i < |recs| ==>
               recs[i].stamp < bound && (recs[i].displaced.Some? ==> recs[i].displaced.value.stamp < bound)
    ensures k in RestoreKeys(entries, recs) ==> RestoreKeys(entries, recs)[k].stamp < bound
  {
    if |recs| > 0 {
      RestoreStamps(entries, recs[..|recs| - 1], bound, k);
    }
  }

  lemma RetractWellFormed(b: Buf, op: Op, routed: Routed)
    requires WellFormed(b) && RecordOk(b, op, routed) && Unclaimed(b, routed)
    ensures WellFormed(Retract(b, routed))
  {
    RetractPending(b, routed);
    RetractStamps(b, routed);
  }

  /** The batches left are counted, in order and distinct. */
  lemma RetractPending(b: Buf, routed: Routed)
    requires WellFormed(b)
    requires forall i :: 0 <= i < |b.pending| && b.pending[i].id in IdSet(routed.ids) ==> !b.pending[i].claimed
    ensures var r := Retract(b, routed);
            r.pendingRows == RowCount(r.pending) && (exists n :: ClaimedPrefix(r.pending, n)) && IdsUnique(r)
  {
    var ids := IdSet(routed.ids);
    var n :| ClaimedPrefix(b.pending, n);
    DropIdsClaimed(b.pending, ids, n);
    assert ClaimedPrefix(Retract(b, routed).pending, n);
    DropIdsFacts(b.pending, ids);
    RetractIds(b, routed);
  }

  lemma RetractIds(b: Buf, routed: Routed)
    requires IdsUnique(b)
    ensures IdsUnique(Retract(b, routed))
  {
    var left := DropIds(b.pending, IdSet(routed.ids));
    DropIdsFacts(b.pending, IdSet(routed.ids));
    DropIdsUnique(b.pending, IdSet(routed.ids));
    forall i | 0 <= i < |left| ensures left[i].id < b.nextId {
      assert left[i] in left;
    }
  }

  lemma RetractStamps(b: Buf, routed: Routed)
    requires StampsBelow(b) && OlderDisplaced(routed.keyed)
    requires forall j :: 0 <= j < |routed.keyed| ==> routed.keyed[j].stamp < NextStamp(b)
    ensures StampsBelow(Retract(b, routed))
  {
    if b.keyed.Some? {
      var entries := b.keyed.value.entries;
      RestoreSubset(entries, routed.keyed);
      forall k | k in RestoreKeys(entries, routed.keyed)
        ensures RestoreKeys(entries, routed.keyed)[k].stamp < b.keyed.value.nextStamp
      {
        RestoreStamps(entries, routed.keyed, b.keyed.value.nextStamp, k);
      }
    }
  }

  /** A claimed statement is left wholly untouched. */
  lemma WhollyClaimedIsClaimed(b: Buf, routed: Routed)
    requires WhollyClaimed(b, routed)
    ensures Claimed(b, routed)
  {
    var ids := IdSet(routed.ids);
    if routed.ids == [] {
      assert KeyClaimed(b, routed.keyed[0]);
    } else {
      CountNone(b.pending, ids);
      assert routed.ids[0] in ids;
    }
  }

  // ---- undo, next to another statement --------------------------------------------------------

  lemma OtherRows(pushed: seq<Batch>, r: Row)
    requires forall i, x :: 0 <= i < |pushed| && x in pushed[i].rows ==> x.key != r.key
    ensures Bag(RowsOf(pushed))[r] == 0
  {
    BagWithin(pushed, {r.key}, r);
  }

  lemma BagAppend(a: seq<Batch>, b: seq<Batch>)
    ensures Bag(RowsOf(a + b)) == Bag(RowsOf(a)) + Bag(RowsOf(b))
  {
    RowsOfConcat(a, b);
    BagConcat(RowsOf(a), RowsOf(b));
  }

  /** Undoing an earlier statement after a later one was routed: the batches. */
  lemma RetractStmtBag(b: Buf, b': Buf, op: Op, sq: Option<nat>, ids: set<nat>, r: Row)
    requires NewBatches(b, b', op, sq) && r.key !in OpKeys(op)
    requires forall i :: i in ids ==> i < b.nextId
    ensures Bag(RowsOf(DropIds(b'.pending, ids)))[r] == Bag(RowsOf(DropIds(b.pending, ids)))[r]
  {
    var pushed := b'.pending[|b.pending|..];
    assert b'.pending == b.pending + pushed;
    DropConcat(b.pending, pushed, ids);
    forall i | 0 <= i < |pushed| ensures pushed[i].id !in ids && forall x :: x in pushed[i].rows ==> x.key != r.key {
      assert pushed[i] == b'.pending[|b.pending| + i];
    }
    DropNone(pushed, ids);
    OtherRows(pushed, r);
    BagAppend(DropIds(b.pending, ids), pushed);
  }

  /** ... and the entries: a key the later statement took stays its own. */
  lemma RetractStmtEntry(b: Buf, b': Buf, op: Op, sq: Option<nat>, recs: seq<RoutedKey>, k: Key)
    requires NewEntries(b, b', op, sq)
    requires forall j :: 0 <= j < |recs| ==> recs[j].stamp < NextStamp(b)
    ensures var now, was := RestoreKeys(Entries(b'), recs), RestoreKeys(Entries(b), recs);
            || (k in now && k in Entries(b') && k in OpKeys(op) && now[k] == Entries(b')[k] && now[k].stamp >= NextStamp(b))
            || ((k in Entries(b') <==> k in Entries(b)) && (k in now <==> k in was) && (k in now ==> now[k] == was[k]))
  {
    if k in Entries(b') && Entries(b')[k].stamp >= NextStamp(b) && (k in Entries(b) ==> Entries(b')[k] != Entries(b)[k]) {
      RestoreNewer(Entries(b'), recs, k, NextStamp(b));
    } else {
      RestoreLocal(Entries(b'), Entries(b), recs, k);
    }
  }

  lemma RetractStmtFrame(
    b: Buf, b': Buf, op: Op, sq: Option<nat>, routed: Routed, c: Table, t: Table, r: Row)
    requires NewBatches(b, b', op, sq) && NewEntries(b, b', op, sq) && r.key !in OpKeys(op)
    requires forall i :: i in routed.ids ==> i < b.nextId
    requires forall j :: 0 <= j < |routed.keyed| ==> routed.keyed[j].stamp < NextStamp(b)
    requires Apply(c, Live(Retract(b, routed)))[r] == t[r]
    ensures Apply(c, Live(Retract(b', routed)))[r] == Exec(t, op)[r]
  {
    RetractStmtBag(b, b', op, sq, IdSet(routed.ids), r);
    RetractStmtEntry(b, b', op, sq, routed.keyed, r.key);
    UndoEntries(b, routed);
    UndoEntries(b', routed);
    ApplyLocal(c, Live(Retract(b', routed)), Live(Retract(b, routed)), r);
    ExecFrame(t, op, r);
  }

  lemma RetractStmtKeyed(
    b: Buf, b': Buf, op: Op, sq: Option<nat>, routed: Routed, c: Table, t: Table, r: Row)
    requires NewEntries(b, b', op, sq) && !op.Insert? && r.key in OpKeys(op)
    requires r.key in Entries(b') && Entries(b')[r.key].stamp >= NextStamp(b)
    requires op == if Entries(b')[r.key].kind.Upsert? then Put(r.key, Entries(b')[r.key].kind.val) else Del(r.key)
    requires forall j :: 0 <= j < |routed.keyed| ==> routed.keyed[j].stamp < NextStamp(b)
    ensures Apply(c, Live(Retract(b', routed)))[r] == Exec(t, op)[r]
  {
    RestoreNewer(Entries(b'), routed.keyed, r.key, NextStamp(b));
    UndoEntries(b', routed);
  }

  lemma {:induction false} DropBagLess(pending: seq<Batch>, ids: set<nat>, r: Row)
    ensures Bag(RowsOf(DropIds(pending, ids)))[r] <= Bag(RowsOf(pending))[r]
  {
    if |pending| > 0 {
      var init, last := pending[..|pending| - 1], pending[|pending| - 1];
      DropBagLess(init, ids, r);
      assert pending == init + [last];
      RowsOfSnoc(init, last);
      RowsOfSnoc(DropIds(init, ids), last);
    }
  }

  /** What an INSERT adds to pending, next to a statement that may be taken out. */
  lemma InsertRows(b: Buf, batches: seq<seq<Row>>, sq: Option<nat>, ids: set<nat>)
    requires forall i :: i in ids ==> i < b.nextId
    ensures var b' := Route(b, batches, sq).buf;
            Flatten(RowsOf(DropIds(b'.pending, ids)))
            == Flatten(RowsOf(DropIds(b.pending, ids))) + Suppress(Flatten(batches), Entries(b).Keys)
  {
    RouteEffect(b, batches, sq);
    var b' := Route(b, batches, sq).buf;
    var pushed := b'.pending[|b.pending|..];
    assert b'.pending == b.pending + pushed;
    DropConcat(b.pending, pushed, ids);
    DropNone(pushed, ids);
    RowsOfConcat(DropIds(b.pending, ids), pushed);
    FlattenConcat(RowsOf(DropIds(b.pending, ids)), RowsOf(pushed));
  }

  lemma InsertedBag(b: Buf, batches: seq<seq<Row>>, sq: Option<nat>, ids: set<nat>, r: Row)
    requires forall i :: i in ids ==> i < b.nextId
    requires r.key !in Entries(b)
    ensures Bag(RowsOf(DropIds(Route(b, batches, sq).buf.pending, ids)))[r]
         == Bag(RowsOf(DropIds(b.pending, ids)))[r] + multiset(Flatten(batches))[r]
  {
    InsertRows(b, batches, sq, ids);
    SuppressBag(Flatten(batches), Entries(b).Keys);
  }

  /** Where an INSERT is allowed and the undo leaves its keys' deletes alone, the undo leaves its keys
      absent. */
  lemma UncoveredAt(b: Buf, routed: Routed, keys: set<Key>, c: Table, r: Row)
    requires r.key in keys && !Uncovers(Entries(b), routed.keyed, keys)
    requires OlderDisplaced(routed.keyed) && StampsRise(routed.keyed)
    requires Apply(c, Live(b))[r] == 0
    ensures Apply(c, Live(Retract(b, routed)))[r] == 0
  {
    UndoEntries(b, routed);
    RestoreSubset(Entries(b), routed.keyed);
    DropBagLess(b.pending, IdSet(routed.ids), r);
    var e, k := Entries(b), r.key;
    if k in e && (k in RestoreKeys(e, routed.keyed) ==> RestoreKeys(e, routed.keyed)[k] != e[k]) {
      var j := RestoreFind(e, routed.keyed, k);
      RestoreOwn(e, routed.keyed, j);
    }
  }

  lemma AbsentAt(t: Table, op: Op, r: Row)
    requires Allowed(true, t, op) && op.Insert? && r.key in OpKeys(op)
    ensures t[r] == 0
  {
    var x :| x in Flatten(op.batches) && x.key == r.key;
    assert !HasKey(t, x.key) && r == Row(r.key, r.val);
  }

  /** Undo after an INSERT on one of the INSERT's keys that no entry holds. */
  lemma RetractUnheld(b: Buf, batches: seq<seq<Row>>, sq: Option<nat>, routed: Routed, c: Table, r: Row)
    requires forall i :: i in routed.ids ==> i < b.nextId
    requires r.key !in Entries(b)
    ensures Apply(c, Live(Retract(Route(b, batches, sq).buf, routed)))[r]
         == Apply(c, Live(Retract(b, routed)))[r] + multiset(Flatten(batches))[r]
  {
    var b' := Route(b, batches, sq).buf;
    InsertedBag(b, batches, sq, IdSet(routed.ids), r);
    AppendEntries(b, batches, sq);
    UndoEntries(b, routed);
    UndoEntries(b', routed);
    RestoreSubset(Entries(b), routed.keyed);
    RestoreSubset(Entries(b'), routed.keyed);
  }

  /** ... and on one an entry holds: the INSERT's own entry is the newer one and stays. */
  lemma RetractHeld(
    b: Buf, batches: seq<seq<Row>>, sq: Option<nat>, routed: Routed, c: Table, r: Row)
    requires r.key in Entries(b) && r.key in OpKeys(Insert(batches))
    requires forall j :: 0 <= j < |routed.keyed| ==> routed.keyed[j].stamp < NextStamp(b)
    ensures var b' := Route(b, batches, sq).buf;
            Apply(c, Live(Retract(b', routed)))[r] == Apply(c, Live(b'))[r]
  {
    var b', k := Route(b, batches, sq).buf, r.key;
    UndoEntries(b', routed);
    HitIsNew(b, batches, sq, k);
    RestoreNewer(Entries(b'), routed.keyed, k, NextStamp(b));
  }

  lemma HitIsNew(b: Buf, batches: seq<seq<Row>>, sq: Option<nat>, k: Key)
    requires k in Entries(b) && k in OpKeys(Insert(batches))
    ensures var b' := Route(b, batches, sq).buf;
            k in Entries(b') && Entries(b')[k].stamp >= NextStamp(b) && Entries(b')[k].kind.Upsert?
            && Entries(b')[k].seqno == sq
  {
    RouteEffect(b, batches, sq);
    RoutedKeySet(Acc(b, NOTHING), Route(b, batches, sq), Flatten(batches), sq);
    var x :| x in Flatten(batches) && x.key == k;
    HitsIn(Flatten(batches), Entries(b).Keys, x);
    assert k in KeysOf(Hits(Flatten(batches), Entries(b).Keys));
  }

  /** Undo after an INSERT, at one of the INSERT's keys. */
  lemma RetractAfterInsert(
    b: Buf, batches: seq<seq<Row>>, sq: Option<nat>, keyedTable: bool, routed: Routed, c: Table, r: Row)
    requires forall i :: i in routed.ids ==> i < b.nextId
    requires forall j :: 0 <= j < |routed.keyed| ==> routed.keyed[j].stamp < NextStamp(b)
    requires r.key in OpKeys(Insert(batches)) && !Uncovers(Entries(b), routed.keyed, OpKeys(Insert(batches)))
    requires OlderDisplaced(routed.keyed) && StampsRise(routed.keyed)
    requires Allowed(keyedTable, Apply(c, Live(b)), Insert(batches)) && (!keyedTable ==> Entries(b) == map[])
    requires Apply(c, Live(Route(b, batches, sq).buf)) == Exec(Apply(c, Live(b)), Insert(batches))
    ensures Apply(c, Live(Retract(Route(b, batches, sq).buf, routed)))[r]
         == Apply(c, Live(Retract(b, routed)))[r] + multiset(Flatten(batches))[r]
  {
    if r.key in Entries(b) {
      AbsentAt(Apply(c, Live(b)), Insert(batches), r);
      UncoveredAt(b, routed, OpKeys(Insert(batches)), c, r);
      RetractHeld(b, batches, sq, routed, c, r);
    } else {
      RetractUnheld(b, batches, sq, routed, c, r);
    }
  }

  /** Undoing an earlier statement after a later one leaves the later one run on what the undo
      alone would have left. */
  lemma RetractAfterStmt(
    b: Buf, pk: seq<string>, keyedTable: bool, op: Op, sq: nat, routed: Routed, c: Table, t: Table, r: Row)
    requires !PkChanged(b, pk) && (!keyedTable ==> Entries(b) == map[])
    requires forall i :: i in routed.ids ==> i < b.nextId
    requires forall j :: 0 <= j < |routed.keyed| ==> routed.keyed[j].stamp < NextStamp(b)
    requires Allowed(keyedTable, Apply(c, Live(b)), op)
    requires op.Insert? ==> !Uncovers(Entries(b), routed.keyed, OpKeys(op))
    requires OlderDisplaced(routed.keyed) && StampsRise(routed.keyed)
    requires Apply(c, Live(RouteStmt(b, pk, op, Some(sq), None).buf)) == Exec(Apply(c, Live(b)), op)
    requires Apply(c, Live(Retract(b, routed)))[r] == t[r]
    ensures Apply(c, Live(Retract(RouteStmt(b, pk, op, Some(sq), None).buf, routed)))[r] == Exec(t, op)[r]
  {
    var b' := RouteStmt(b, pk, op, Some(sq), None).buf;
    StmtFacts(b, pk, op, Some(sq), None);
    if r.key !in OpKeys(op) {
      RetractStmtFrame(b, b', op, Some(sq), routed, c, t, r);
    } else if op.Insert? {
      var b0 := Stage(b, Some(sq));
      assert Live(b0) == Live(b) && Live(Retract(b0, routed)) == Live(Retract(b, routed));
      RetractAfterInsert(b0, op.batches, Some(sq), keyedTable, routed, c, r);
    } else {
      RetractStmtKeyed(b, b', op, Some(sq), routed, c, t, r);
    }
  }

  /** Undo after a statement keeps a snapshotted key in the map. */
  lemma SnapKeptAfterStmt(b: Buf, b': Buf, op: Op, sq: Option<nat>, recs: seq<RoutedKey>, snap: map<Key, Entry>)
    requires NewEntries(b, b', op, sq) && SnapKept(RestoreKeys(Entries(b), recs), snap)
    requires OpsBelow(snap, NextStamp(b))
    requires forall j :: 0 <= j < |recs| ==> recs[j].stamp < NextStamp(b)
    ensures SnapKept(RestoreKeys(Entries(b'), recs), snap)
  {
    forall k | k in snap
      ensures k in RestoreKeys(Entries(b'), recs)
      ensures RestoreKeys(Entries(b'), recs)[k].stamp == snap[k].stamp ==> RestoreKeys(Entries(b'), recs)[k] == snap[k]
    {
      RetractStmtEntry(b, b', op, sq, recs, k);
    }
  }

  // ---- undo, next to another undo ---------------------------------------------------------------

  lemma {:induction false} DropTwiceBag(pending: seq<Batch>, gone: set<nat>, ids: set<nat>, r: Row)
    requires forall i, x :: 0 <= i < |pending| && pending[i].id in gone && x in pending[i].rows ==> x.key != r.key
    ensures Bag(RowsOf(DropIds(DropIds(pending, gone), ids)))[r] == Bag(RowsOf(DropIds(pending, ids)))[r]
  {
    if |pending| > 0 {
      var init, last := pending[..|pending| - 1], pending[|pending| - 1];
      DropTwiceBag(init, gone, ids, r);
      var one, two := DropIds(init, gone), DropIds(init, ids);
      RowsOfSnoc(two, last);
      if last.id in gone {
        forall x | x in last.rows ensures x.key != r.key {}
        assert multiset(last.rows)[r] == 0;
      } else {
        assert (one + [last])[..|one|] == one;
        RowsOfSnoc(DropIds(one, ids), last);
      }
    }
  }

  /** Two undos with no key in common do not meet. */
  lemma RetractTwiceAt(b: Buf, gone: Routed, keys: set<Key>, routed: Routed, c: Table, r: Row)
    requires OwnBatches(b, gone, keys) && r.key !in keys
    ensures Apply(c, Live(Retract(Retract(b, gone), routed)))[r] == Apply(c, Live(Retract(b, routed)))[r]
  {
    var b1 := Retract(b, gone);
    DropTwiceBag(b.pending, IdSet(gone.ids), IdSet(routed.ids), r);
    UndoEntries(b, gone);
    UndoEntries(b, routed);
    UndoEntries(b1, routed);
    RestoreFrame(Entries(b), gone.keyed, r.key);
    RestoreLocal(Entries(b1), Entries(b), routed.keyed, r.key);
    ApplyLocal(c, Live(Retract(b1, routed)), Live(Retract(b, routed)), r);
  }

  lemma SnapKeptTwice(
    entries: map<Key, Entry>, gone: seq<RoutedKey>, recs: seq<RoutedKey>, keys: set<Key>, snap: map<Key, Entry>)
    requires SnapKept(RestoreKeys(entries, gone), snap) && SnapKept(RestoreKeys(entries, recs), snap)
    requires forall i :: 0 <= i < |gone| ==> gone[i].key !in keys
    requires forall i :: 0 <= i < |recs| ==> recs[i].key in keys
    ensures SnapKept(RestoreKeys(RestoreKeys(entries, gone), recs), snap)
  {
    forall k | k in snap
      ensures k in RestoreKeys(RestoreKeys(entries, gone), recs)
      ensures var e := RestoreKeys(RestoreKeys(entries, gone), recs)[k]; e.stamp == snap[k].stamp ==> e == snap[k]
    {
      if k in keys {
        RestoreFrame(entries, gone, k);
        RestoreLocal(RestoreKeys(entries, gone), entries, recs, k);
      } else {
        RestoreFrame(RestoreKeys(entries, gone), recs, k);
      }
    }
  }

  // ---- snapshots ------------------------------------------------------------------------------------

  lemma SnapshotKeepsLive(b: Buf)
    ensures Live(AfterSnapshot(b)) == Live(b)
  {
    assert RowsOf(ClaimAll(b.pending)) == RowsOf(b.pending);
  }

  lemma {:induction false} ClaimAllCount(pending: seq<Batch>)
    ensures RowCount(ClaimAll(pending)) == RowCount(pending)
  {
    if |pending| > 0 {
      ClaimAllCount(pending[..|pending| - 1]);
      assert ClaimAll(pending)[..|pending| - 1] == ClaimAll(pending[..|pending| - 1]);
    }
  }

  lemma SnapshotWellFormed(b: Buf)
    requires WellFormed(b)
    ensures WellFormed(AfterSnapshot(b))
  {
    ClaimAllCount(b.pending);
    assert ClaimedPrefix(AfterSnapshot(b).pending, |b.pending|);
  }

  // ---- draining a snapshot ----------------------------------------------------------------------------

  lemma DrainedNothing(entries: map<Key, Entry>)
    ensures Drained(entries, map[]) == entries
  {}

  lemma DropPrefixShape(b: Buf, n: nat, snap: map<Key, Entry>)
    requires n <= |b.pending|
    ensures var b' := DropPrefix(b, n, snap);
            && b'.pending == b.pending[n..] && Entries(b') == Drained(Entries(b), snap)
            && NextStamp(b') == NextStamp(b) && ClaimedBelow(b') == ClaimedBelow(b)
            && b'.nextId == b.nextId && b'.flushed == b.flushed && b'.tailHigh == b.tailHigh
            && (b'.keyed.Some? <==> b.keyed.Some?)
  {}

  lemma DropPrefixWellFormed(b: Buf, n: nat, snap: map<Key, Entry>)
    requires WellFormed(b) && ClaimedPrefix(b.pending, n)
    ensures WellFormed(DropPrefix(b, n, snap))
  {
    assert b.pending == b.pending[..n] + b.pending[n..];
    RowCountConcat(b.pending[..n], b.pending[n..]);
    assert ClaimedPrefix(b.pending[n..], 0);
  }

  /** Draining the committed snapshot leaves the same view over the table with the snapshot applied. */
  lemma DropPrefixLive(c: Table, b: Buf, snap: Snap)
    requires SnapOf(b, snap.n, snap.keyed) && RowsOf(b.pending[..snap.n]) == snap.batches
    ensures Apply(Apply(c, SnapLayer(snap)), Live(DropPrefix(b, snap.n, snap.keyed))) == Apply(c, Live(b))
  {
    SplitAtSnapshot(c, b, snap.n, snap.keyed);
    DropPrefixShape(b, snap.n, snap.keyed);
  }

  lemma RestoreUntouched(entries: map<Key, Entry>, recs: seq<RoutedKey>, k: Key, below: nat)
    requires k in entries && entries[k].stamp < below
    requires forall j :: 0 <= j < |recs| ==> recs[j].stamp >= below
    ensures k in RestoreKeys(entries, recs) && RestoreKeys(entries, recs)[k] == entries[k]
    decreases |recs|
  {
    if |recs| > 0 { RestoreUntouched(entries, recs[..|recs| - 1], k, below); }
  }

  /** Undo after the drain, at one key: what is left of the snapshot's entry, or the newer one. */
  lemma RestoreDrained(entries: map<Key, Entry>, recs: seq<RoutedKey>, snap: map<Key, Entry>, k: Key, below: nat)
    requires SnapKept(entries, snap) && SnapKept(RestoreKeys(entries, recs), snap)
    requires OpsBelow(snap, below) && forall j :: 0 <= j < |recs| ==> recs[j].stamp >= below
    ensures var was, now := RestoreKeys(entries, recs), RestoreKeys(Drained(entries, snap), recs);
            || ((k in was <==> k in now) && (k in now ==> was[k] == now[k]))
            || (k in snap && k in was && k !in now && was[k] == snap[k])
  {
    if k in snap && entries[k].stamp == snap[k].stamp {
      RestoreUntouched(entries, recs, k, below);
      RestoreSubset(Drained(entries, snap), recs);
    } else {
      RestoreLocal(Drained(entries, snap), entries, recs, k);
    }
  }

  lemma DrainedBag(b: Buf, n: nat, ids: set<nat>, r: Row)
    requires ClaimedPrefix(b.pending, n)
    requires forall i :: 0 <= i < |b.pending| && b.pending[i].id in ids ==> !b.pending[i].claimed
    ensures Bag(RowsOf(DropIds(b.pending, ids)))[r]
         == Bag(RowsOf(b.pending[..n]))[r] + Bag(RowsOf(DropIds(b.pending[n..], ids)))[r]
  {
    DropIdsClaimed(b.pending, ids, n);
    BagAppend(b.pending[..n], DropIds(b.pending[n..], ids));
  }

  lemma {:induction false} DropWithin(pending: seq<Batch>, ids: set<nat>, snap: map<Key, Entry>, r: Row)
    requires forall i, x :: 0 <= i < |pending| && x in pending[i].rows ==> x.key !in snap
    requires r.key in snap
    ensures Bag(RowsOf(DropIds(pending, ids)))[r] == 0
  {
    DropIdsFacts(pending, ids);
    forall i, x | 0 <= i < |DropIds(pending, ids)| && x in DropIds(pending, ids)[i].rows ensures x.key !in snap {
      assert DropIds(pending, ids)[i] in pending;
    }
    BagWithin(DropIds(pending, ids), snap.Keys, r);
  }

  lemma RetractDrainedAt(b: Buf, snap: Snap, routed: Routed, c: Table, r: Row)
    requires SnapOf(b, snap.n, snap.keyed) && RowsOf(b.pending[..snap.n]) == snap.batches
    requires ClaimedPrefix(b.pending, snap.n) && Unclaimed(b, routed)
    requires OpsBelow(snap.keyed, ClaimedBelow(b))
    requires SnapKept(RestoreKeys(Entries(b), routed.keyed), snap.keyed)
    ensures Apply(Apply(c, SnapLayer(snap)), Live(Retract(DropPrefix(b, snap.n, snap.keyed), routed)))[r]
         == Apply(c, Live(Retract(b, routed)))[r]
  {
    var b', ids := DropPrefix(b, snap.n, snap.keyed), IdSet(routed.ids);
    DropPrefixShape(b, snap.n, snap.keyed);
    UndoEntries(b, routed);
    UndoEntries(b', routed);
    DrainedBag(b, snap.n, ids, r);
    RestoreDrained(Entries(b), routed.keyed, snap.keyed, r.key, ClaimedBelow(b));
    if r.key in snap.keyed {
      forall i, x | 0 <= i < |b'.pending| && x in b'.pending[i].rows ensures x.key !in snap.keyed {
        assert b'.pending[i] == b.pending[snap.n + i];
      }
      DropWithin(b'.pending, ids, snap.keyed, r);
    }
    RetractDrainedRow(Layer(RowsOf(DropIds(b.pending, ids)), RestoreKeys(Entries(b), routed.keyed)),
                      Layer(RowsOf(DropIds(b'.pending, ids)), RestoreKeys(Entries(b'), routed.keyed)),
                      SnapLayer(snap), c, r);
  }

  lemma RetractDrainedRow(was: Layer, now: Layer, snap: Layer, c: Table, r: Row)
    requires Bag(was.batches)[r] == Bag(snap.batches)[r] + Bag(now.batches)[r]
    requires || ((r.key in was.ops <==> r.key in now.ops) && (r.key in now.ops ==> was.ops[r.key] == now.ops[r.key]))
             || (r.key in snap.ops && r.key in was.ops && r.key !in now.ops && was.ops[r.key] == snap.ops[r.key])
    requires r.key in snap.ops ==> r.key in was.ops && Bag(now.batches)[r] == 0
    ensures Apply(Apply(c, snap), now)[r] == Apply(c, was)[r]
  {}

  // ---- folding a generation back ---------------------------------------------------------------------------

  lemma GenPositionLast(hist: seq<Version>, nextSnap: nat, flushed: seq<Gen>)
    requires IdsOk(hist, nextSnap, flushed) && |flushed| > 0 && flushed[|flushed| - 1].commit.Snapshot?
    ensures GenPosition(flushed, flushed[|flushed| - 1].commit.id) == |flushed| - 1
  {
    var p := GenPosition(flushed, flushed[|flushed| - 1].commit.id);
    assert !(p < |flushed| - 1);
  }

  lemma {:induction false} RebornCount(batches: seq<GenBatch>, firstId: nat)
    ensures RowCount(Reborn(batches, firstId)) == GenRowCount(batches)
  {
    if |batches| > 0 {
      RebornCount(batches[..|batches| - 1], firstId);
      assert Reborn(batches, firstId)[..|batches| - 1] == Reborn(batches[..|batches| - 1], firstId);
    }
  }

  /** The merged-back window: what `MoveBack` makes of the newest generation. */
  lemma MoveBackShape(b: Buf, sid: nat)
    requires |b.flushed| > 0 && GenPosition(b.flushed, sid) == |b.flushed| - 1 && KeyedReady(b)
    ensures var g, b' := b.flushed[|b.flushed| - 1], MoveBack(b, sid);
            && b'.pending == Reborn(g.batches, b.nextId) + b.pending
            && Entries(b') == g.keyed + Entries(b)
            && b'.flushed == b.flushed[..|b.flushed| - 1]
            && NextStamp(b') == NextStamp(b) && ClaimedBelow(b') == ClaimedBelow(b)
            && b'.nextId == b.nextId + |g.batches| && b'.tailHigh == b.tailHigh && (b'.keyed.Some? <==> b.keyed.Some?)
  {
    var g, b' := b.flushed[|b.flushed| - 1], MoveBack(b, sid);
    assert b.flushed[..|b.flushed| - 1] + b.flushed[|b.flushed|..] == b.flushed[..|b.flushed| - 1];
    if b.keyed.None? {
      assert g.keyed + Entries(b) == map[];
    }
  }

  lemma MoveBackWellFormed(b: Buf, sid: nat)
    requires WellFormed(b) && |b.flushed| > 0 && GenPosition(b.flushed, sid) == |b.flushed| - 1
    requires OpsBelow(b.flushed[|b.flushed| - 1].keyed, NextStamp(b))
    ensures WellFormed(MoveBack(b, sid))
  {
    var g, b' := b.flushed[|b.flushed| - 1], MoveBack(b, sid);
    MoveBackShape(b, sid);
    RebornCount(g.batches, b.nextId);
    RowCountConcat(Reborn(g.batches, b.nextId), b.pending);
    var n :| ClaimedPrefix(b.pending, n);
    MoveBackPrefix(g, b, n);
    MoveBackIds(g, b);
  }

  lemma MoveBackPrefix(g: Gen, b: Buf, n: nat)
    requires ClaimedPrefix(b.pending, n)
    ensures ClaimedPrefix(Reborn(g.batches, b.nextId) + b.pending, |g.batches| + n)
  {}

  lemma MoveBackIds(g: Gen, b: Buf)
    requires IdsUnique(b)
    ensures var p := Reborn(g.batches, b.nextId) + b.pending;
            && (forall i :: 0 <= i < |p| ==> p[i].id < b.nextId + |g.batches|)
            && (forall i, j :: 0 <= i < j < |p| ==> p[i].id != p[j].id)
  {}

  lemma RebornDropped(b: Buf, g: Gen, ids: set<nat>)
    requires forall i :: i in ids ==> i < b.nextId
    ensures Bag(RowsOf(DropIds(Reborn(g.batches, b.nextId) + b.pending, ids)))
         == Bag(GenRows(g.batches)) + Bag(RowsOf(DropIds(b.pending, ids)))
  {
    var reborn := Reborn(g.batches, b.nextId);
    DropConcat(reborn, b.pending, ids);
    DropNone(reborn, ids);
    BagAppend(reborn, DropIds(b.pending, ids));
    assert RowsOf(reborn) == GenRows(g.batches);
  }

  lemma MergedRow(was: Layer, now: Layer, g: Layer, c: Table, r: Row)
    requires r.key !in g.ops && Bag(now.batches)[r] == Bag(g.batches)[r] + Bag(was.batches)[r]
    requires (r.key in now.ops <==> r.key in was.ops) && (r.key in was.ops ==> now.ops[r.key] == was.ops[r.key])
    ensures Apply(c, now)[r] == Apply(Apply(c, g), was)[r]
  {}

  /** A row of a key the generation owns: its live entry decides, or the generation's does over no
      newer append. */
  lemma OwnedRow(was: Layer, now: Layer, g: Layer, c: Table, r: Row)
    requires r.key in g.ops && r.key in now.ops
    requires if r.key in was.ops then now.ops[r.key] == was.ops[r.key]
             else now.ops[r.key] == g.ops[r.key] && Bag(was.batches)[r] == 0
    ensures Apply(c, now)[r] == Apply(Apply(c, g), was)[r]
  {}

  lemma StillHeld(entries: map<Key, Entry>, recs: seq<RoutedKey>, keys: set<Key>, k: Key)
    requires OlderDisplaced(recs) && StampsRise(recs) && k in keys && k in entries && !Bares(entries, recs, keys)
    ensures k in RestoreKeys(entries, recs)
  {
    if k !in RestoreKeys(entries, recs) {
      var j := RestoreFind(entries, recs, k);
      RestoreOwn(entries, recs, j);
    }
  }

  lemma OwnedEntry(b: Buf, g: Gen, routed: Routed, k: Key)
    requires k in g.keyed && !Bares(Entries(b), routed.keyed, g.keyed.Keys)
    requires OpsBelow(g.keyed, ClaimedBelow(b)) && forall j :: 0 <= j < |routed.keyed| ==> routed.keyed[j].stamp >= ClaimedBelow(b)
    requires OlderDisplaced(routed.keyed) && StampsRise(routed.keyed)
    ensures var was, now := RestoreKeys(Entries(b), routed.keyed), RestoreKeys(g.keyed + Entries(b), routed.keyed);
            && k in now
            && if k in Entries(b) then k in was && now[k] == was[k] else k !in was && now[k] == g.keyed[k]
  {
    if k in Entries(b) {
      RestoreLocal(g.keyed + Entries(b), Entries(b), routed.keyed, k);
      StillHeld(Entries(b), routed.keyed, g.keyed.Keys, k);
    } else {
      RestoreSubset(Entries(b), routed.keyed);
      RestoreUntouched(g.keyed + Entries(b), routed.keyed, k, ClaimedBelow(b));
    }
  }

  /** No live append carries a key the generation owns and the live map lacks, whatever is undone. */
  lemma NoOwnedAppend(b: Buf, g: Gen, ids: set<nat>, r: Row)
    requires MergeBackSafe(g, b) && r.key in g.keyed && r.key !in Entries(b)
    ensures Bag(RowsOf(DropIds(b.pending, ids)))[r] == 0
  {
    DropBagLess(b.pending, ids, r);
    PendingHas(b, r);
  }

  /** Undo after a merge-back: the generation's layer below, as if it had stayed where it was. */
  lemma RetractMergedAt(b: Buf, sid: nat, routed: Routed, c: Table, r: Row)
    requires |b.flushed| > 0 && GenPosition(b.flushed, sid) == |b.flushed| - 1 && KeyedReady(b)
    requires var g := b.flushed[|b.flushed| - 1];
             && MergeBackSafe(g, b) && !Bares(Entries(b), routed.keyed, g.keyed.Keys)
             && OpsBelow(g.keyed, ClaimedBelow(b))
    requires Unclaimed(b, routed) && OlderDisplaced(routed.keyed) && StampsRise(routed.keyed)
    requires forall i :: i in routed.ids ==> i < b.nextId
    ensures Apply(c, Live(Retract(MoveBack(b, sid), routed)))[r]
         == Apply(Apply(c, GenLayer(b.flushed[|b.flushed| - 1])), Live(Retract(b, routed)))[r]
  {
    var g, b', ids := b.flushed[|b.flushed| - 1], MoveBack(b, sid), IdSet(routed.ids);
    MoveBackShape(b, sid);
    UndoEntries(b, routed);
    UndoEntries(b', routed);
    RebornDropped(b, g, ids);
    if r.key in g.keyed {
      OwnedEntry(b, g, routed, r.key);
      if r.key !in Entries(b) { NoOwnedAppend(b, g, ids, r); }
      OwnedRow(Live(Retract(b, routed)), Live(Retract(b', routed)), GenLayer(g), c, r);
    } else {
      RestoreLocal(Entries(b'), Entries(b), routed.keyed, r.key);
      MergedRow(Live(Retract(b, routed)), Live(Retract(b', routed)), GenLayer(g), c, r);
    }
  }

  /** A key the undo takes out of the map while the generation owns it: over two rows of the key the
      merged window shows two, the generation below the undone window at most one. */
  lemma BaredDiffers(b: Buf, sid: nat, routed: Routed, k: Key) returns (c: Table)
    requires |b.flushed| > 0 && GenPosition(b.flushed, sid) == |b.flushed| - 1 && KeyedReady(b)
    requires k in b.flushed[|b.flushed| - 1].keyed && k in Entries(b) && k !in RestoreKeys(Entries(b), routed.keyed)
    requires forall i :: i in routed.ids ==> i < b.nextId
    ensures Apply(c, Live(Retract(MoveBack(b, sid), routed)))
         != Apply(Apply(c, GenLayer(b.flushed[|b.flushed| - 1])), Live(Retract(b, routed)))
  {
    var g, b', r := b.flushed[|b.flushed| - 1], MoveBack(b, sid), Row(k, 0);
    c := multiset{}[r := 2];
    MoveBackShape(b, sid);
    UndoEntries(b, routed);
    UndoEntries(b', routed);
    RebornDropped(b, g, IdSet(routed.ids));
    RestoreLocal(Entries(b'), Entries(b), routed.keyed, k);
    assert Apply(c, Live(Retract(b', routed)))[r] > Apply(Apply(c, GenLayer(g)), Live(Retract(b, routed)))[r];
  }

  /** After a merge-back the undo leaves the generation below the undone window, as if it had never
      been flushed, over every committed table, exactly when no record on a key of the generation is
      still current and displaced nothing. */
  lemma UndoAfterMergeBackIff(b: Buf, sid: nat, routed: Routed)
    requires |b.flushed| > 0 && GenPosition(b.flushed, sid) == |b.flushed| - 1 && KeyedReady(b)
    requires var g := b.flushed[|b.flushed| - 1]; MergeBackSafe(g, b) && OpsBelow(g.keyed, ClaimedBelow(b))
    requires Unclaimed(b, routed) && OlderDisplaced(routed.keyed) && StampsRise(routed.keyed)
    requires forall i :: i in routed.ids ==> i < b.nextId
    ensures var g := b.flushed[|b.flushed| - 1];
            (forall c :: Apply(c, Live(Retract(MoveBack(b, sid), routed))) == Apply(Apply(c, GenLayer(g)), Live(Retract(b, routed))))
            <==> !Bares(Entries(b), routed.keyed, g.keyed.Keys)
  {
    var g := b.flushed[|b.flushed| - 1];
    if Bares(Entries(b), routed.keyed, g.keyed.Keys) {
      var j :| 0 <= j < |routed.keyed| && routed.keyed[j].key in g.keyed.Keys
               && StillOwn(Entries(b), routed.keyed[j]) && routed.keyed[j].displaced.None?;
      RestoreOwn(Entries(b), routed.keyed, j);
      var c := BaredDiffers(b, sid, routed, routed.keyed[j].key);
    } else {
      forall c ensures Apply(c, Live(Retract(MoveBack(b, sid), routed))) == Apply(Apply(c, GenLayer(g)), Live(Retract(b, routed))) {
        RetractMerged(b, sid, routed, c);
      }
    }
  }

  lemma RetractMerged(b: Buf, sid: nat, routed: Routed, c: Table)
    requires |b.flushed| > 0 && GenPosition(b.flushed, sid) == |b.flushed| - 1 && KeyedReady(b)
    requires var g := b.flushed[|b.flushed| - 1];
             && MergeBackSafe(g, b) && !Bares(Entries(b), routed.keyed, g.keyed.Keys)
             && OpsBelow(g.keyed, ClaimedBelow(b))
    requires Unclaimed(b, routed) && OlderDisplaced(routed.keyed) && StampsRise(routed.keyed)
    requires forall i :: i in routed.ids ==> i < b.nextId
    ensures Apply(c, Live(Retract(MoveBack(b, sid), routed)))
         == Apply(Apply(c, GenLayer(b.flushed[|b.flushed| - 1])), Live(Retract(b, routed)))
  {
    var one, two := Apply(c, Live(Retract(MoveBack(b, sid), routed))),
                    Apply(Apply(c, GenLayer(b.flushed[|b.flushed| - 1])), Live(Retract(b, routed)));
    forall r: Row ensures one[r] == two[r] { RetractMergedAt(b, sid, routed, c, r); }
    SameTable(one, two);
  }
}
