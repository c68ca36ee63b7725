/** Undoing a statement whose durability wait failed: when the removal leaves the window as
    if the statement had never been routed, and what a flush snapshot's claim means. */
module Undo {
  import opened Rows
  import opened Window
  import opened Routing

  // ---- pending batches by id -----------------------------------------------------------

  lemma {:induction false} DropNone(pending: seq<Batch>, ids: set<nat>)
    requires forall i :: 0 <= i < |pending| ==> pending[i].id !in ids
    ensures DropIds(pending, ids) == pending
  {
    if |pending| > 0 {
      DropNone(pending[..|pending| - 1], ids);
      assert pending == pending[..|pending| - 1] + [pending[|pending| - 1]];
    }
  }

  lemma {:induction false} DropAll(pending: seq<Batch>, ids: set<nat>)
    requires forall i :: 0 <= i < |pending| ==> pending[i].id in ids
    ensures DropIds(pending, ids) == []
  {
    if |pending| > 0 {
      DropAll(pending[..|pending| - 1], ids);
    }
  }

  lemma {:induction false} DropConcat(a: seq<Batch>, b: seq<Batch>, ids: set<nat>)
    ensures DropIds(a + b, ids) == DropIds(a, ids) + DropIds(b, ids)
    decreases |b|
  {
    if |b| == 0 {
      assert a + b == a;
    } else {
      assert (a + b)[..|a + b| - 1] == a + b[..|b| - 1];
      DropConcat(a, b[..|b| - 1], ids);
    }
  }

  lemma {:induction false} RowCountConcat(a: seq<Batch>, b: seq<Batch>)
    ensures RowCount(a + b) == RowCount(a) + RowCount(b)
    decreases |b|
  {
    if |b| == 0 {
      assert a + b == a;
    } else {
      assert (a + b)[..|a + b| - 1] == a + b[..|b| - 1];
      RowCountConcat(a, b[..|b| - 1]);
    }
  }

  lemma {:induction false} CountNone(pending: seq<Batch>, ids: set<nat>)
    requires forall i :: 0 <= i < |pending| ==> pending[i].id !in ids || pending[i].claimed
    ensures UnclaimedCount(pending, ids) == 0
  {
    if |pending| > 0 {
      CountNone(pending[..|pending| - 1], ids);
    }
  }

  // ---- keyed entries -------------------------------------------------------------------

  /** The undo records a run of superseded rows leaves. */
  function Records(a: Acc, r: Acc): seq<RoutedKey>
    requires a.routed.keyed <= r.routed.keyed
  {
    r.routed.keyed[|a.routed.keyed|..]
  }

  lemma {:induction false} SupersedeRecords(a: Acc, rows: seq<Row>, sq: Option<nat>)
    requires a.buf.keyed.Some?
    ensures var r := SupersedeRows(a, rows, sq);
            && a.routed.keyed <= r.routed.keyed
            && |Records(a, r)| == |rows|
            && forall i :: 0 <= i < |rows| ==>
                 && Records(a, r)[i].key == rows[i].key
                 && Records(a, r)[i].stamp == a.buf.keyed.value.nextStamp + i
  {
    if |rows| > 0 {
      var init, last := rows[..|rows| - 1], rows[|rows| - 1];
      SupersedeRecords(a, init, sq);
      SupersedeRowsEffect(a, init, sq);
      SupersedeAdds(a, SupersedeRows(a, init, sq), last, sq);
    }
  }

  lemma SupersedeAdds(a: Acc, m: Acc, last: Row, sq: Option<nat>)
    requires m.buf.keyed.Some? && a.routed.keyed <= m.routed.keyed
    ensures var ks := m.buf.keyed.value;
            var r := Supersede(m, last.key, Upsert(last.val), sq);
            && a.routed.keyed <= r.routed.keyed
            && Records(a, r) == Records(a, m) + [RoutedKey(last.key, ks.nextStamp, Displaced(ks.entries, last.key))]
  {}

  /** What a record displaced is older than the record. */
  lemma {:induction false} SupersedeDisplaced(a: Acc, rows: seq<Row>, sq: Option<nat>)
    requires a.buf.keyed.Some? && StampsBelow(a.buf)
    ensures var r := SupersedeRows(a, rows, sq);
            && StampsBelow(r.buf) && a.routed.keyed <= r.routed.keyed
            && forall i :: 0 <= i < |Records(a, r)| && Records(a, r)[i].displaced.Some?
                 ==> Records(a, r)[i].displaced.value.stamp < Records(a, r)[i].stamp
  {
    if |rows| > 0 {
      SupersedeDisplaced(a, rows[..|rows| - 1], sq);
      SupersedeLast(a, rows, sq, map[]);
    }
  }

  function Displaced(entries: map<Key, Entry>, k: Key): Option<Entry> {
    if k in entries then Some(entries[k]) else None
  }

  /** The last row superseded: one more record, one more entry. */
  lemma SupersedeLast(a: Acc, rows: seq<Row>, sq: Option<nat>, now: map<Key, Entry>)
    requires a.buf.keyed.Some? && |rows| > 0
    ensures var init, last := rows[..|rows| - 1], rows[|rows| - 1];
            var m, r := SupersedeRows(a, init, sq), SupersedeRows(a, rows, sq);
            var ks := m.buf.keyed.value;
            var rk := RoutedKey(last.key, ks.nextStamp, Displaced(ks.entries, last.key));
            && ks.nextStamp == a.buf.keyed.value.nextStamp + |init|
            && a.routed.keyed <= m.routed.keyed && a.routed.keyed <= r.routed.keyed
            && Records(a, r) == Records(a, m) + [rk]
            && r.buf.keyed.value.entries == ks.entries[last.key := Entry(ks.nextStamp, Upsert(last.val), sq)]
            && RestoreKeys(now, Records(a, r)) == RestoreKey(RestoreKeys(now, Records(a, m)), rk)
  {
    var init, last := rows[..|rows| - 1], rows[|rows| - 1];
    var m, r := SupersedeRows(a, init, sq), SupersedeRows(a, rows, sq);
    SupersedeRowsEffect(a, init, sq);
    SupersedeRecords(a, init, sq);
    SupersedeRecords(a, rows, sq);
    var ks := m.buf.keyed.value;
    var rk := RoutedKey(last.key, ks.nextStamp, Displaced(ks.entries, last.key));
    assert Records(a, r) == Records(a, m) + [rk];
    assert Records(a, r)[..|Records(a, r)| - 1] == Records(a, m);
  }

  /** One record undone on top of the earlier ones. */
  lemma RestoreStep(
    was: map<Key, Entry>, now: map<Key, Entry>, restored: map<Key, Entry>, keys: set<Key>, rk: RoutedKey, k: Key)
    requires k in now && k in restored && rk.key !in keys && rk.key in was
    requires k in keys ==> k in was
    requires restored[k] == if k in keys then was[k] else now[k]
    requires rk.displaced == Some(was[rk.key])
    requires k == rk.key ==> now[k].stamp == rk.stamp
    ensures k in RestoreKey(restored, rk)
    ensures RestoreKey(restored, rk)[k] == if k in keys + {rk.key} then was[k] else now[k]
  {}

  /** Undoing superseded rows with pairwise distinct keys restores every displaced entry, key
      by key, in any map that still holds the statement's own entries. */
  lemma {:induction false} RestoreDistinct(
    a: Acc, rows: seq<Row>, sq: Option<nat>, now: map<Key, Entry>, k: Key)
    requires a.buf.keyed.Some? && DistinctKeys(rows) && KeysOf(rows) <= Entries(a.buf).Keys && k in now
    requires var r := SupersedeRows(a, rows, sq);
             k in KeysOf(rows) ==> k in Entries(r.buf) && now[k] == Entries(r.buf)[k]
    ensures var r := SupersedeRows(a, rows, sq);
            && a.routed.keyed <= r.routed.keyed
            && var restored := RestoreKeys(now, Records(a, r));
               k in restored && restored[k] == if k in KeysOf(rows) then Entries(a.buf)[k] else now[k]
  {
    SupersedeRecords(a, rows, sq);
    if |rows| > 0 {
      var init, last := rows[..|rows| - 1], rows[|rows| - 1];
      DistinctInit(rows);
      SupersedeLast(a, rows, sq, now);
      EntryOfInit(a, rows, sq, k);
      RestoreDistinct(a, init, sq, now, k);
      var m := SupersedeRows(a, init, sq);
      DisplacedIsOld(a, init, last.key, sq);
      var rk := RoutedKey(last.key, m.buf.keyed.value.nextStamp, Some(Entries(a.buf)[last.key]));
      RestoreStep(Entries(a.buf), now, RestoreKeys(now, Records(a, m)), KeysOf(init), rk, k);
    }
  }

  lemma DistinctInit(rows: seq<Row>)
    requires |rows| > 0 && DistinctKeys(rows)
    ensures var init, last := rows[..|rows| - 1], rows[|rows| - 1];
            DistinctKeys(init) && last.key !in KeysOf(init) && KeysOf(rows) == KeysOf(init) + {last.key}
  {
    var init, last := rows[..|rows| - 1], rows[|rows| - 1];
    assert rows == init + [last];
  }

  /** The last row leaves the entry of an earlier row's key. */
  lemma EntryOfInit(a: Acc, rows: seq<Row>, sq: Option<nat>, k: Key)
    requires a.buf.keyed.Some? && |rows| > 0 && rows[|rows| - 1].key !in KeysOf(rows[..|rows| - 1])
    ensures var m, r := SupersedeRows(a, rows[..|rows| - 1], sq), SupersedeRows(a, rows, sq);
            k in KeysOf(rows[..|rows| - 1]) ==>
              k in Entries(m.buf) && k in Entries(r.buf) && Entries(m.buf)[k] == Entries(r.buf)[k]
  {
    SupersedeRowsEffect(a, rows[..|rows| - 1], sq);
    SupersedeLast(a, rows, sq, map[]);
  }

  /** Rows of other keys leave the entry a row will displace. */
  lemma DisplacedIsOld(a: Acc, init: seq<Row>, key: Key, sq: Option<nat>)
    requires a.buf.keyed.Some? && key !in KeysOf(init) && key in Entries(a.buf)
    ensures Displaced(Entries(SupersedeRows(a, init, sq).buf), key) == Some(Entries(a.buf)[key])
  {
    SupersedeRowsEffect(a, init, sq);
  }

  /** Undo brings no key into the map. */
  lemma {:induction false} RestoreSubset(entries: map<Key, Entry>, recs: seq<RoutedKey>)
    ensures RestoreKeys(entries, recs).Keys <= entries.Keys
  {
    if |recs| > 0 {
      RestoreSubset(entries, recs[..|recs| - 1]);
    }
  }

  /** What the records would put back is older than what they would take away. */
  ghost predicate OlderDisplaced(recs: seq<RoutedKey>) {
    forall i :: 0 <= i < |recs| && recs[i].displaced.Some? ==> recs[i].displaced.value.stamp < recs[i].stamp
  }

  ghost predicate StampsRise(recs: seq<RoutedKey>) {
    forall i, j :: 0 <= i < j < |recs| ==> recs[i].stamp < recs[j].stamp
  }

  lemma {:induction false} RestoreOther(entries: map<Key, Entry>, recs: seq<RoutedKey>, k: Key)
    requires k in entries && forall j :: 0 <= j < |recs| && recs[j].key == k ==> recs[j].stamp != entries[k].stamp
    ensures k in RestoreKeys(entries, recs) && RestoreKeys(entries, recs)[k] == entries[k]
  {
    if |recs| > 0 {
      RestoreOther(entries, recs[..|recs| - 1], k);
    }
  }

  /** Records as a statement leaves them: of those on a key at most one acts, the one whose entry is
      still the current one, and what it displaced stays. */
  lemma {:induction false} RestoreOwn(entries: map<Key, Entry>, recs: seq<RoutedKey>, j: nat)
    requires OlderDisplaced(recs) && StampsRise(recs) && j < |recs| && StillOwn(entries, recs[j])
    ensures var k, restored := recs[j].key, RestoreKeys(entries, recs);
            (k in restored <==> recs[j].displaced.Some?) && (k in restored ==> restored[k] == recs[j].displaced.value)
  {
    var init, last := recs[..|recs| - 1], recs[|recs| - 1];
    if j == |init| {
      RestoreOther(entries, init, last.key);
    } else {
      assert init[j] == recs[j] && recs[j].stamp < last.stamp;
      RestoreOwn(entries, init, j);
    }
  }

  /** A key of the map that the undo takes out, or leaves with another entry, has such a record. */
  lemma RestoreFind(entries: map<Key, Entry>, recs: seq<RoutedKey>, k: Key) returns (j: nat)
    requires k in entries && (k in RestoreKeys(entries, recs) ==> RestoreKeys(entries, recs)[k] != entries[k])
    ensures j < |recs| && recs[j].key == k && StillOwn(entries, recs[j])
  {
    if forall i :: 0 <= i < |recs| && recs[i].key == k ==> recs[i].stamp != entries[k].stamp {
      RestoreOther(entries, recs, k);
    }
    j :| 0 <= j < |recs| && recs[j].key == k && recs[j].stamp == entries[k].stamp;
  }

  lemma {:induction false} RestoreFrame(entries: map<Key, Entry>, recs: seq<RoutedKey>, k: Key)
    requires forall i :: 0 <= i < |recs| ==> recs[i].key != k
    ensures k in RestoreKeys(entries, recs) <==> k in entries
    ensures k in entries ==> RestoreKeys(entries, recs)[k] == entries[k]
  {
    if |recs| > 0 {
      RestoreFrame(entries, recs[..|recs| - 1], k);
    }
  }

  ghost predicate OccursTwice(rows: seq<Row>, k: Key) {
    exists i, j :: 0 <= i < j < |rows| && rows[i].key == k && rows[j].key == k
  }

  lemma TwiceInit(rows: seq<Row>, k: Key)
    requires OccursTwice(rows, k)
    ensures |rows| > 0
    ensures rows[|rows| - 1].key == k ==> k in KeysOf(rows[..|rows| - 1])
    ensures rows[|rows| - 1].key != k ==> OccursTwice(rows[..|rows| - 1], k)
  {
    var i, j :| 0 <= i < j < |rows| && rows[i].key == k && rows[j].key == k;
    var init := rows[..|rows| - 1];
    assert init[i] == rows[i] && init[i] in init;
    if rows[|rows| - 1].key != k {
      assert init[j] == rows[j];
    }
  }

  /** The last superseded row of a key is preceded by another row of the same key: replaying
      the undo records forwards puts the statement's own earlier row back. */
  lemma {:induction false} RestoreTwice(a: Acc, rows: seq<Row>, sq: Option<nat>, k: Key)
    requires a.buf.keyed.Some? && OccursTwice(rows, k)
    ensures var r := SupersedeRows(a, rows, sq);
            && a.routed.keyed <= r.routed.keyed
            && var restored := RestoreKeys(Entries(r.buf), Records(a, r));
               k in restored && restored[k].seqno == sq
  {
    TwiceInit(rows, k);
    var init, last := rows[..|rows| - 1], rows[|rows| - 1];
    var m, r := SupersedeRows(a, init, sq), SupersedeRows(a, rows, sq);
    SupersedeLast(a, rows, sq, Entries(r.buf));
    SupersedeRecords(a, init, sq);
    if last.key == k {
      SupersedeRowsEffect(a, init, sq);
      RestoreNewer(Entries(r.buf), Records(a, m), k, m.buf.keyed.value.nextStamp);
    } else {
      RestoreTwice(a, init, sq, k);
      RestoreLocal(Entries(m.buf), Entries(r.buf), Records(a, m), k);
    }
  }

  /** An entry stamped above every undo record stays. */
  lemma {:induction false} RestoreNewer(entries: map<Key, Entry>, recs: seq<RoutedKey>, k: Key, bound: nat)
    requires forall i :: 0 <= i < |recs| ==> recs[i].stamp < bound
    requires k in entries && entries[k].stamp >= bound
    ensures k in RestoreKeys(entries, recs) && RestoreKeys(entries, recs)[k] == entries[k]
  {
    if |recs| > 0 {
      RestoreNewer(entries, recs[..|recs| - 1], k, bound);
    }
  }

  /** What undo makes of a key depends on that key's entry alone. */
  lemma {:induction false} RestoreLocal(e: map<Key, Entry>, f: map<Key, Entry>, recs: seq<RoutedKey>, k: Key)
    requires k in e <==> k in f
    requires k in e ==> e[k] == f[k]
    ensures k in RestoreKeys(e, recs) <==> k in RestoreKeys(f, recs)
    ensures k in RestoreKeys(e, recs) ==> RestoreKeys(e, recs)[k] == RestoreKeys(f, recs)[k]
  {
    if |recs| > 0 {
      RestoreLocal(e, f, recs[..|recs| - 1], k);
    }
  }

  // ---- undoing an insert at once ----------------------------------------------------------

  /** Pending batches, row count and keyed entries as they were. */
  ghost predicate SameWindow(a: Buf, b: Buf) {
    a.pending == b.pending && a.pendingRows == b.pendingRows && Entries(a) == Entries(b)
  }

  lemma UndoPending(b: Buf, batches: seq<seq<Row>>, sq: Option<nat>)
    requires IdsUnique(b) && b.pendingRows == RowCount(b.pending)
    ensures var r := Route(b, batches, sq);
            Retract(r.buf, r.routed).pending == b.pending && Retract(r.buf, r.routed).pendingRows == b.pendingRows
  {
    RouteEffect(b, batches, sq);
    var r := Route(b, batches, sq);
    var pushed := r.buf.pending[|b.pending|..];
    assert r.routed.ids[|NOTHING.ids|..] == r.routed.ids;
    assert r.buf.pending == b.pending + pushed;
    DropPushed(b.pending, pushed, IdSet(r.routed.ids));
  }

  lemma DropPushed(was: seq<Batch>, pushed: seq<Batch>, ids: set<nat>)
    requires forall i :: 0 <= i < |was| ==> was[i].id !in ids
    requires forall i :: 0 <= i < |pushed| ==> pushed[i].id in ids
    ensures DropIds(was + pushed, ids) == was
    ensures RowCount(was + pushed) == RowCount(was) + RowCount(pushed)
  {
    DropConcat(was, pushed, ids);
    DropNone(was, ids);
    DropAll(pushed, ids);
    RowCountConcat(was, pushed);
  }

  /** Nothing in the window carries the statement's sequence yet. */
  ghost predicate FreshSeq(b: Buf, sq: Option<nat>) {
    forall k :: k in Entries(b) ==> Entries(b)[k].seqno != sq
  }

  lemma RouteRecords(b: Buf, batches: seq<seq<Row>>, sq: Option<nat>)
    requires b.keyed.Some?
    ensures var a, hits := Acc(b, NOTHING), Hits(Flatten(batches), Entries(b).Keys);
            SameKeyed(SupersedeRows(a, hits, sq), Route(b, batches, sq))
  {
    RouteEffect(b, batches, sq);
  }

  lemma HitKeys(rows: seq<Row>, keys: set<Key>)
    ensures KeysOf(Hits(rows, keys)) <= keys
  {
    forall k | k in KeysOf(Hits(rows, keys)) ensures k in keys {
      var r :| r in Hits(rows, keys) && r.key == k;
      HitsIn(rows, keys, r);
    }
  }

  /** Undoing the routed keys of an insert that hits no buffered key twice. */
  lemma UndoEntriesExact(b: Buf, rows: seq<Row>, sq: Option<nat>)
    requires b.keyed.Some? && DistinctKeys(Hits(rows, Entries(b).Keys))
    ensures var a, hits := Acc(b, NOTHING), Hits(rows, Entries(b).Keys);
            var r := SupersedeRows(a, hits, sq);
            RestoreKeys(Entries(r.buf), r.routed.keyed) == Entries(b)
  {
    var a, hits := Acc(b, NOTHING), Hits(rows, Entries(b).Keys);
    var r := SupersedeRows(a, hits, sq);
    SupersedeRecords(a, hits, sq);
    assert Records(a, r) == r.routed.keyed;
    HitKeys(rows, Entries(b).Keys);
    SupersedeRowsEffect(a, hits, sq);
    assert Entries(b).Keys + KeysOf(hits) == Entries(b).Keys;
    RestoreSubset(Entries(r.buf), r.routed.keyed);
    forall k | k in Entries(b)
      ensures k in RestoreKeys(Entries(r.buf), r.routed.keyed)
      ensures RestoreKeys(Entries(r.buf), r.routed.keyed)[k] == Entries(b)[k]
    {
      RestoreDistinct(a, hits, sq, Entries(r.buf), k);
    }
    assert RestoreKeys(Entries(r.buf), r.routed.keyed) == Entries(b);
  }

  /** Undoing the routed keys of an insert, in both directions. */
  lemma UndoEntriesIff(b: Buf, rows: seq<Row>, sq: Option<nat>)
    requires b.keyed.Some? && FreshSeq(b, sq)
    ensures var a, hits := Acc(b, NOTHING), Hits(rows, Entries(b).Keys);
            var r := SupersedeRows(a, hits, sq);
            RestoreKeys(Entries(r.buf), r.routed.keyed) == Entries(b) <==> DistinctKeys(hits)
  {
    var a, hits := Acc(b, NOTHING), Hits(rows, Entries(b).Keys);
    if DistinctKeys(hits) {
      UndoEntriesExact(b, rows, sq);
    } else {
      var r := SupersedeRows(a, hits, sq);
      SupersedeRecords(a, hits, sq);
      assert Records(a, r) == r.routed.keyed;
      HitKeys(rows, Entries(b).Keys);
      var i, j :| 0 <= i < j < |hits| && hits[i].key == hits[j].key;
      assert OccursTwice(hits, hits[i].key);
      RestoreTwice(a, hits, sq, hits[i].key);
    }
  }

  lemma UndoUnkeyed(b: Buf, batches: seq<seq<Row>>, sq: Option<nat>)
    requires b.keyed.None?
    ensures Retract(Route(b, batches, sq).buf, Route(b, batches, sq).routed).keyed.None?
  {
    RouteEffect(b, batches, sq);
  }

  lemma UndoInsertExact(b: Buf, batches: seq<seq<Row>>, sq: Option<nat>)
    requires IdsUnique(b) && b.pendingRows == RowCount(b.pending)
    requires DistinctKeys(Hits(Flatten(batches), Entries(b).Keys))
    ensures var r := Route(b, batches, sq); SameWindow(Retract(r.buf, r.routed), b)
  {
    UndoPending(b, batches, sq);
    if b.keyed.None? {
      UndoUnkeyed(b, batches, sq);
    } else {
      RouteRecords(b, batches, sq);
      UndoEntriesExact(b, Flatten(batches), sq);
    }
  }

  /** An undone insert leaves no trace exactly when no buffered key is hit twice by it: the undo
      records are replayed forwards, so of two hits the first one's own row would come back. */
  lemma UndoInsertExactIff(b: Buf, batches: seq<seq<Row>>, sq: Option<nat>)
    requires IdsUnique(b) && b.pendingRows == RowCount(b.pending) && FreshSeq(b, sq)
    ensures var r := Route(b, batches, sq);
            SameWindow(Retract(r.buf, r.routed), b)
            <==> DistinctKeys(Hits(Flatten(batches), Entries(b).Keys))
  {
    UndoPending(b, batches, sq);
    if b.keyed.None? {
      assert Entries(b).Keys == {};
      NoKeys(Flatten(batches));
      UndoUnkeyed(b, batches, sq);
    } else {
      RouteRecords(b, batches, sq);
      UndoEntriesIff(b, Flatten(batches), sq);
    }
  }
}
