/** The table buffer as the program keeps it: one object whose fields every statement, flush and
    scan updates in place under the buffer lock. */
module TableBuffers {
  import opened Rows
  import opened Window
  import opened Layers
  import opened Routing
  import opened Undo
  import opened Statements
  import opened Log
  import opened Engine
  import opened WindowSteps
  import opened TailApi

  datatype Result<+T> = Ok(value: T) | PrimaryKeyChanged | MissingSequence

  /** What a scan must union with its committed data, and the keys it must hide there. */
  datatype Overlay = Overlay(batches: seq<seq<Row>>, keys: set<Key>)

  class TableBuffer {
    var pending: seq<Batch>
    var pendingRows: nat
    var nextId: nat
    var keyed: Option<KeyedState>
    var flushed: seq<Gen>
    var tailHigh: Option<nat>
    var undurable: set<nat>

    function State(): Buf
      reads this
    {
      Buf(pending, pendingRows, nextId, keyed, flushed, tailHigh, undurable)
    }

    ghost predicate Valid()
      reads this
    {
      WellFormed(State())
    }

    constructor ()
      ensures State() == EMPTY && Valid()
    {
      pending, pendingRows, nextId := [], 0, 1;
      keyed, flushed, tailHigh, undurable := None, [], None, {};
      new;
      assert ClaimedPrefix(pending, 0);
    }

    // ---- routing -------------------------------------------------------------------------

    method PushPending(routed: Routed, rows: seq<Row>, sq: Option<nat>) returns (routed': Routed)
      modifies this
      ensures Acc(State(), routed') == Push(Acc(old(State()), routed), rows, sq)
    {
      var id := nextId;
      nextId := nextId + 1;
      routed' := routed.(ids := routed.ids + [id]);
      pendingRows := pendingRows + |rows|;
      pending := pending + [Batch(id, false, sq, rows)];
    }

    method SupersedeKey(routed: Routed, key: Key, kind: Kind, sq: Option<nat>) returns (routed': Routed)
      requires keyed.Some?
      modifies this
      ensures keyed.Some?
      ensures Acc(State(), routed') == Supersede(Acc(old(State()), routed), key, kind, sq)
    {
      var ks := keyed.value;
      var stamp := ks.nextStamp;
      var displaced := if key in ks.entries then Some(ks.entries[key]) else None;
      keyed := Some(ks.(nextStamp := stamp + 1, entries := ks.entries[key := Entry(stamp, kind, sq)]));
      routed' := routed.(keyed := routed.keyed + [RoutedKey(key, stamp, displaced)]);
    }

    /** One batch on a table with buffered keys: rows whose key has an entry supersede it. */
    method RouteBatchInPlace(routed: Routed, rows: seq<Row>, sq: Option<nat>) returns (routed': Routed)
      requires keyed.Some?
      modifies this
      ensures keyed.Some?
      ensures Acc(State(), routed') == RouteBatch(Acc(old(State()), routed), rows, sq)
    {
      ghost var a := Acc(State(), routed);
      var keys := keyed.value.entries.Keys;
      routed' := routed;
      var rest: seq<Row> := [];
      var i := 0;
      while i < |rows|
        invariant 0 <= i <= |rows| && keyed.Some?
        invariant rest == Suppress(rows[..i], keys)
        invariant Acc(State(), routed') == SupersedeRows(a, Hits(rows[..i], keys), sq)
      {
        assert rows[..i + 1][..i] == rows[..i];
        if rows[i].key in keys {
          assert (Hits(rows[..i], keys) + [rows[i]])[..|Hits(rows[..i], keys)|] == Hits(rows[..i], keys);
          routed' := SupersedeKey(routed', rows[i].key, Upsert(rows[i].val), sq);
        } else {
          rest := rest + [rows[i]];
        }
        i := i + 1;
      }
      assert rows[..|rows|] == rows;
      if rest != [] {
        routed' := PushPending(routed', rest, sq);
      }
    }

    /** Route one statement's batches: the plain fast path, or batch by batch. */
    method RouteAppends(batches: seq<seq<Row>>, sq: Option<nat>) returns (routed: Routed)
      modifies this
      ensures Acc(State(), routed) == Route(old(State()), batches, sq)
    {
      ghost var a := Acc(State(), NOTHING);
      routed := NOTHING;
      var i := 0;
      if keyed.None? || keyed.value.entries == map[] {
        while i < |batches|
          invariant 0 <= i <= |batches|
          invariant Acc(State(), routed) == PushBatches(a, batches[..i], sq)
        {
          assert batches[..i + 1][..i] == batches[..i];
          routed := PushPending(routed, batches[i], sq);
          i := i + 1;
        }
      } else {
        while i < |batches|
          invariant 0 <= i <= |batches| && keyed.Some?
          invariant Acc(State(), routed) == RouteBatches(a, batches[..i], sq)
        {
          assert batches[..i + 1][..i] == batches[..i];
          routed := RouteBatchInPlace(routed, batches[i], sq);
          i := i + 1;
        }
      }
      assert batches[..|batches|] == batches;
    }

    /** Under the lock: the staged frame moves the high mark and is unresolved, then the rows are
        routed. The wait for durability comes after, outside the lock. */
    method AppendStaged(batches: seq<seq<Row>>, staged: Option<nat>, replayed: Option<nat>) returns (routed: Routed)
      requires Valid()
      modifies this
      ensures Acc(State(), routed) == Append(old(State()), batches, staged, replayed)
      ensures Valid()
    {
      ghost var b := State();
      if staged.Some? {
        tailHigh := staged;
        undurable := undurable + {staged.value};
      }
      routed := RouteAppends(batches, if staged.Some? then staged else replayed);
      StmtWellFormed(b, if b.keyed.Some? then b.keyed.value.pkCols else [], Insert(batches), staged, replayed);
    }

    /** Some key is buffered with a keyed operation, live or flushed. */
    ghost predicate HoldsKeyed()
      reads this
    {
      || (keyed.Some? && exists k :: k in keyed.value.entries)
      || exists i, k :: 0 <= i < |flushed| && k in flushed[i].keyed
    }

    lemma HoldsKeyedIff()
      ensures HoldsKeyed() <==> OldKeysBuffered(State())
    {
      if OldKeysBuffered(State()) && Entries(State()) == map[] {
        var i :| 0 <= i < |flushed| && flushed[i].keyed != map[];
        var k :| k in flushed[i].keyed;
        assert HoldsKeyed();
      }
      if keyed.Some? && keyed.value.entries != map[] {
        var k :| k in keyed.value.entries;
      }
    }

    /** One keyed operation under the lock. A changed primary-key declaration is refused while keys
        encoded under the old one are buffered, and changes nothing then. */
    method KeyedStaged(pk: seq<string>, key: Key, kind: Kind, staged: Option<nat>, replayed: Option<nat>)
      returns (res: Result<Routed>)
      requires Valid()
      modifies this
      ensures Valid()
      ensures PkChanged(old(State()), pk) ==> res == PrimaryKeyChanged && State() == old(State())
      ensures !PkChanged(old(State()), pk) ==>
        res.Ok? && Acc(State(), res.value) == KeyedWrite(old(State()), pk, key, kind, staged, replayed)
      ensures res.Ok? <==> old(keyed).None? || old(keyed).value.pkCols == pk || !old(HoldsKeyed())
      ensures res.Ok? ==> keyed.Some? && keyed.value.pkCols == pk && HoldsKeyed()
    {
      ghost var b := State();
      HoldsKeyedIff();
      var oldKeys := OldKeysInWindow();
      if keyed.None? {
        keyed := Some(KeyedState(pk, map[], 1, 1));
      } else if keyed.value.pkCols != pk {
        if oldKeys {
          return PrimaryKeyChanged;
        }
        keyed := Some(keyed.value.(pkCols := pk));
      }
      if staged.Some? {
        tailHigh := staged;
        undurable := undurable + {staged.value};
      }
      var routed := SupersedeKey(NOTHING, key, kind, if staged.Some? then staged else replayed);
      res := Ok(routed);
      KeyedWriteDeclares(b, pk, key, kind, staged, replayed);
      HoldsKeyedIff();
      StmtWellFormed(b, pk, KindOp(key, kind), staged, replayed);
    }

    method OldKeysInWindow() returns (any: bool)
      ensures any == OldKeysBuffered(State())
    {
      any := keyed.Some? && keyed.value.entries != map[];
      var i := 0;
      while i < |flushed| && !any
        invariant 0 <= i <= |flushed|
        invariant any ==> OldKeysBuffered(State())
        invariant !any ==> Entries(State()) == map[] && forall j :: 0 <= j < i ==> flushed[j].keyed == map[]
      {
        any := flushed[i].keyed != map[];
        i := i + 1;
      }
    }

    /** The key's current version when the live map decides it. */
    method KeyedCurrent(key: Key, pk: seq<string>) returns (kind: Option<Kind>)
      ensures kind == if key in Entries(State()) && keyed.value.pkCols == pk then Some(Entries(State())[key].kind) else None
    {
      if keyed.None? || keyed.value.pkCols != pk || key !in keyed.value.entries {
        return None;
      }
      return Some(keyed.value.entries[key].kind);
    }

    // ---- ending a durability wait ----------------------------------------------------------

    method Durable(sq: nat)
      requires Valid()
      modifies this
      ensures State() == NoteDurable(old(State()), sq) && Valid()
    {
      ghost var n :| ClaimedPrefix(pending, n);
      undurable := undurable - {sq};
      assert ClaimedPrefix(pending, n);
    }

    method RaiseTailHigh(sq: nat)
      requires Valid()
      modifies this
      ensures State() == NoteTailHigh(old(State()), sq) && Valid()
      ensures State() == old(State()).(tailHigh := tailHigh) && tailHigh.Some? && tailHigh.value >= sq
      ensures tailHigh == Some(sq) || tailHigh == old(tailHigh)
      ensures old(tailHigh).Some? ==> tailHigh.value >= old(tailHigh).value
    {
      ghost var n :| ClaimedPrefix(pending, n);
      tailHigh := Some(if tailHigh.Some? && tailHigh.value > sq then tailHigh.value else sq);
      assert ClaimedPrefix(pending, n);
    }

    method IsClaimed(routed: Routed) returns (claimed: bool)
      ensures claimed == Claimed(State(), routed)
    {
      var ids := IdSet(routed.ids);
      var present := 0;
      var i := 0;
      while i < |pending|
        invariant 0 <= i <= |pending| && present == UnclaimedCount(pending[..i], ids)
      {
        assert pending[..i + 1][..i] == pending[..i];
        if pending[i].id in ids && !pending[i].claimed {
          present := present + 1;
        }
        i := i + 1;
      }
      assert pending[..|pending|] == pending;
      claimed := present != |ids|;
      var j := 0;
      while j < |routed.keyed| && !claimed
        invariant 0 <= j <= |routed.keyed|
        invariant claimed ==> Claimed(State(), routed)
        invariant !claimed ==> present == |ids| && forall k :: 0 <= k < j ==> !KeyClaimed(State(), routed.keyed[k])
      {
        claimed := KeyClaimed(State(), routed.keyed[j]);
        j := j + 1;
      }
    }

    /** Remove the statement's batches in place, counting the rows that go. */
    method RemoveBatches(ids: set<nat>)
      requires Valid()
      modifies this
      ensures State() == old(State()).(pending := DropIds(old(pending), ids),
                                       pendingRows := RowCount(DropIds(old(pending), ids)))
    {
      var kept, removed := DropBatches(pending, ids);
      pending := kept;
      pendingRows := pendingRows - removed;
    }

    method RestoreDisplaced(recs: seq<RoutedKey>)
      requires keyed.Some?
      modifies this
      ensures State() == old(State()).(keyed := Some(old(keyed).value.(entries := RestoreKeys(old(keyed).value.entries, recs))))
    {
      ghost var entries := keyed.value.entries;
      var i := 0;
      while i < |recs|
        invariant 0 <= i <= |recs| && keyed.Some?
        invariant State() == old(State()).(keyed := Some(old(keyed).value.(entries := RestoreKeys(entries, recs[..i]))))
      {
        assert recs[..i + 1][..i] == recs[..i];
        var now, rk := keyed.value.entries, recs[i];
        if rk.key in now && now[rk.key].stamp == rk.stamp {
          if rk.displaced.Some? {
            keyed := Some(keyed.value.(entries := now[rk.key := rk.displaced.value]));
          } else {
            keyed := Some(keyed.value.(entries := now - {rk.key}));
          }
        }
        i := i + 1;
      }
      assert recs[..|recs|] == recs;
    }

    /** The failed wait: all or nothing. A statement a snapshot claimed is left alone, its sequence
        still unresolved; any other is removed, every displaced entry back in place. */
    method UnrouteFailed(sq: nat, routed: Routed)
      requires Valid() && RecordFits(State(), routed)
      modifies this
      ensures State() == Unroute(old(State()), sq, routed) && Valid()
      ensures Claimed(old(State()), routed) ==> State() == old(State())
    {
      ghost var b := State();
      var claimed := IsClaimed(routed);
      if claimed {
        return;
      }
      undurable := undurable - {sq};
      assert WellFormed(State()) by { ghost var n :| ClaimedPrefix(b.pending, n); assert ClaimedPrefix(pending, n); }
      DropIdsFacts(pending, IdSet(routed.ids));
      if routed.ids != [] {
        RemoveBatches(IdSet(routed.ids));
      } else {
        DropNone(pending, IdSet(routed.ids));
      }
      if keyed.Some? {
        RestoreDisplaced(routed.keyed);
      }
      UnrouteWellFormed(b, sq, routed);
    }

    // ---- flushing -----------------------------------------------------------------------------

    method SnapshotPending() returns (snap: Snap)
      requires Valid()
      modifies this
      ensures snap == TakeSnapshot(old(State()))
      ensures State() == AfterSnapshot(old(State())) && Valid()
    {
      ghost var b := State();
      snap := Snap(RowsOf(pending), |pending|, if keyed.Some? then keyed.value.entries else map[], tailHigh);
      var claimed: seq<Batch> := [];
      var i := 0;
      while i < |pending|
        invariant 0 <= i <= |pending| && State() == b
        invariant claimed == ClaimAll(pending[..i])
      {
        claimed := claimed + [pending[i].(claimed := true)];
        i := i + 1;
      }
      assert pending[..|pending|] == pending;
      pending := claimed;
      if keyed.Some? {
        keyed := Some(keyed.value.(claimedBelow := keyed.value.nextStamp));
      }
      SnapshotWellFormed(b);
    }

    method Observed(isCommitted: GenCommit -> bool)
      requires Valid()
      modifies this
      ensures State() == NoteObserved(old(State()), isCommitted) && Valid()
    {
      ghost var b := State();
      ghost var n :| ClaimedPrefix(pending, n);
      var seen: seq<Gen> := [];
      var i := 0;
      while i < |flushed|
        invariant 0 <= i <= |flushed| && State() == b
        invariant seen == Observe(flushed[..i], isCommitted)
      {
        seen := seen + [if !flushed[i].observed && isCommitted(flushed[i].commit) then flushed[i].(observed := true)
                        else flushed[i]];
        i := i + 1;
      }
      assert flushed[..|flushed|] == flushed;
      flushed := seen;
      assert ClaimedPrefix(pending, n);
    }

    /** Take the claimed prefix out of `pending`. */
    method DrainBatches(n: nat) returns (drained: seq<Batch>)
      requires n <= |pending| && pendingRows == RowCount(pending)
      modifies this
      ensures drained == old(pending)[..n]
      ensures State() == old(State()).(pending := old(pending)[n..], pendingRows := RowCount(old(pending)[n..]))
    {
      DropPrefixRows(State(), n);
      var rows := CountRows(pending[..n]);
      drained := pending[..n];
      pending := pending[n..];
      pendingRows := pendingRows - rows;
    }

    /** Remove the snapshotted entries, each only while its stamp still matches. */
    method DrainEntries(snap: map<Key, Entry>)
      modifies this
      ensures State() == DrainKeyed(old(State()), snap)
    {
      if keyed.None? {
        return;
      }
      ghost var ks := keyed.value;
      var left := snap.Keys;
      DrainedNone(ks.entries, snap);
      while left != {}
        invariant left <= snap.Keys && keyed.Some?
        invariant State() == old(State()).(keyed := keyed)
        invariant keyed.value == ks.(entries := DrainedOf(ks.entries, snap, snap.Keys - left))
        decreases left
      {
        var key :| key in left;
        var now := keyed.value.entries;
        DrainedOne(ks.entries, snap, snap.Keys - left, key);
        if key in now && now[key].stamp == snap[key].stamp {
          keyed := Some(keyed.value.(entries := now - {key}));
        }
        left := left - {key};
        assert snap.Keys - left == (snap.Keys - (left + {key})) + {key};
      }
      assert DrainedOf(ks.entries, snap, snap.Keys - {}) == Drained(ks.entries, snap);
    }

    method DropPendingPrefix(n: nat, snap: map<Key, Entry>)
      requires Valid() && ClaimedPrefix(pending, n)
      modifies this
      ensures State() == DropPrefix(old(State()), n, snap) && Valid()
    {
      DropPrefixWellFormed(State(), n, snap);
      DropPrefixRows(State(), n);
      var _ := DrainBatches(n);
      DrainEntries(snap);
    }

    /** Tag the claimed prefix as a flushed generation, before its post. */
    method MovePendingToFlushed(n: nat, snap: map<Key, Entry>, commit: GenCommit, now: nat)
      requires Valid() && ClaimedPrefix(pending, n) && (keyed.None? ==> snap == map[])
      modifies this
      ensures State() == MoveToFlushed(old(State()), n, snap, commit, now) && Valid()
    {
      ghost var b := State();
      var batches := ToGen(pending[..n]);
      DropPendingPrefix(n, snap);
      flushed := flushed + [Gen(commit, batches, snap, now, false)];
      TaggedValid(DropPrefix(b, n, snap), State());
    }

    method PositionOf(sid: nat) returns (p: nat)
      ensures p == GenPosition(flushed, sid)
    {
      p := 0;
      while p < |flushed| && flushed[p].commit != Snapshot(sid)
        invariant 0 <= p <= |flushed| && forall i :: 0 <= i < p ==> flushed[i].commit != Snapshot(sid)
      {
        p := p + 1;
      }
    }

    /** A post that lost: the generation's batches back in front, claimed and renumbered; its keyed
        operations only where no newer entry lives. */
    method MoveFlushedBack(sid: nat)
      requires Valid()
      requires forall i :: 0 <= i < |flushed| ==> forall k :: k in flushed[i].keyed ==> flushed[i].keyed[k].stamp < NextStamp(State())
      modifies this
      ensures State() == MoveBack(old(State()), sid) && Valid()
    {
      ghost var b := State();
      var p := PositionOf(sid);
      if p == |flushed| {
        return;
      }
      var g := flushed[p];
      flushed := flushed[..p] + flushed[p + 1..];
      var restored, rows := RestoreBatches(g.batches, nextId);
      nextId := nextId + |g.batches|;
      pending := restored + pending;
      pendingRows := pendingRows + rows;
      if keyed.Some? {
        MergeEntries(g.keyed);
      }
      MoveBackValid(b, sid, p);
    }

    method MergeEntries(older: map<Key, Entry>)
      requires keyed.Some?
      modifies this
      ensures State() == old(State()).(keyed := Some(old(keyed).value.(entries := older + old(keyed).value.entries)))
    {
      ghost var ks := keyed.value;
      var left := older.Keys;
      MergedNone(older, ks.entries);
      while left != {}
        invariant left <= older.Keys && keyed.Some?
        invariant State() == old(State()).(keyed := keyed)
        invariant keyed.value == ks.(entries := MergedOf(older, ks.entries, older.Keys - left))
        decreases left
      {
        var key :| key in left;
        MergedOne(older, ks.entries, older.Keys - left, key);
        if key !in keyed.value.entries {
          keyed := Some(keyed.value.(entries := keyed.value.entries[key := older[key]]));
        }
        left := left - {key};
        assert older.Keys - left == (older.Keys - (left + {key})) + {key};
      }
      assert MergedOf(older, ks.entries, older.Keys - {}) == older + ks.entries;
    }

    /** The union overlay for one scan, and the observation that goes with it. */
    method OverlayWith(isCommitted: GenCommit -> bool) returns (overlay: Option<Overlay>)
      requires Valid()
      modifies this
      ensures State() == NoteObserved(old(State()), isCommitted) && Valid()
      ensures var layers := VisibleLayers(old(State()), isCommitted);
              if overlay.Some? then Bag(overlay.value.batches) == OverlayRows(layers) && overlay.value.keys == AllKeys(layers)
              else OverlayRows(layers) == multiset{} && AllKeys(layers) == {}
    {
      var layers := TakeLayers(isCommitted);
      var keys := CollectKeys(layers);
      if keys == {} {
        var batches := PlainAppends(layers);
        return if batches == [] then None else Some(Overlay(batches, {}));
      }
      var batches := SuppressLayers(layers);
      return Some(Overlay(batches, keys));
    }

    /** The layers a scan cannot see, marking the generations it can see as observed. */
    method TakeLayers(isCommitted: GenCommit -> bool) returns (layers: seq<Layer>)
      requires Valid()
      modifies this
      ensures State() == NoteObserved(old(State()), isCommitted) && Valid()
      ensures layers == VisibleLayers(old(State()), isCommitted)
    {
      ghost var b := State();
      layers := [];
      var i := 0;
      while i < |flushed|
        invariant 0 <= i <= |flushed| && State() == b
        invariant layers == Unseen(flushed[..i], isCommitted)
      {
        assert flushed[..i + 1][..i] == flushed[..i];
        if !isCommitted(flushed[i].commit) {
          layers := layers + [GenLayer(flushed[i])];
        }
        i := i + 1;
      }
      assert flushed[..|flushed|] == flushed;
      layers := layers + [Layer(RowsOf(pending), if keyed.Some? then keyed.value.entries else map[])];
      Observed(isCommitted);
    }

    /** The open tail API's snapshot: every durable operation of the window, or an error when some
        operation has no tail sequence. */
    method TailSnapshot() returns (res: Result<(seq<Item>, nat)>)
      ensures res.Ok? <==> AllSequenced(State())
      ensures res.Ok? ==> ServesWindow(State(), res.value.0, res.value.1)
      ensures !res.Ok? ==> res == MissingSequence
    {
      var ok, items := GatherItems(State());
      if !ok { return MissingSequence; }
      items := SortBySeq(items);
      var high := if tailHigh.Some? then tailHigh.value else 0;
      if undurable != {} {
        ServableSorted(items, undurable);
        forall it ensures multiset(Servable(items, undurable))[it] == if it.seqno in undurable then 0 else multiset(items)[it] {
          ServableBag(items, undurable, it);
        }
        items := DropUnresolved(items, undurable);
        high := MaxSeq(items);
      }
      res := Ok((items, high));
    }

    /** Boot: drop the frames the watermark covers, route the others again in sequence order, and
        let the next flush's mark cover them. */
    method ReplayTail(pk: seq<string>, frames: seq<Stmt>, watermark: nat) returns (dropped: nat)
      requires State() == EMPTY && Sorted(frames)
      modifies this
      ensures State() == Boot(pk, Above(frames, watermark)) && Valid()
      ensures dropped + |Above(frames, watermark)| == |frames|
    {
      assert ClaimedPrefix(pending, 0);
      var survivors := DropStale(frames, watermark);
      dropped := |frames| - |survivors|;
      if |survivors| == 0 {
        return;
      }
      var i := 0;
      while i < |survivors|
        invariant 0 <= i <= |survivors| && State() == Replay(pk, survivors[..i]) && Valid()
      {
        assert survivors[..i + 1][..i] == survivors[..i];
        ReplayFrame(pk, survivors[i]);
        i := i + 1;
      }
      assert survivors[..|survivors|] == survivors;
      RaiseTailHigh(survivors[|survivors| - 1].seqno);
    }

    method ReplayFrame(pk: seq<string>, frame: Stmt)
      requires Valid() && !PkChanged(State(), pk)
      modifies this
      ensures State() == RouteStmt(old(State()), pk, frame.op, None, Some(frame.seqno)).buf && Valid()
    {
      match frame.op
      case Insert(batches) => var _ := AppendStaged(batches, None, Some(frame.seqno));
      case Put(key, val) => var _ := KeyedStaged(pk, key, Upsert(val), None, Some(frame.seqno));
      case Del(key) => var _ := KeyedStaged(pk, key, Delete, None, Some(frame.seqno));
    }

    method CollectFlushed(now: nat, gcAge: nat)
      requires Valid()
      modifies this
      ensures State() == Gc(old(State()), now, gcAge) && Valid()
    {
      ghost var b := State();
      ghost var n :| ClaimedPrefix(pending, n);
      var kept: seq<Gen> := [];
      var i := 0;
      while i < |flushed|
        invariant 0 <= i <= |flushed| && State() == b
        invariant kept == Unexpired(flushed[..i], now, gcAge)
        invariant forall g :: g in kept ==> g in flushed
      {
        assert flushed[..i + 1][..i] == flushed[..i];
        if !Expired(flushed[i], now, gcAge) {
          kept := kept + [flushed[i]];
        }
        i := i + 1;
      }
      assert flushed[..|flushed|] == flushed;
      flushed := kept;
      assert ClaimedPrefix(pending, n);
      CollectReady(b, State());
    }
  }

  /** The batches outside `ids`, and how many rows go with the others. */
  method DropBatches(pending: seq<Batch>, ids: set<nat>) returns (kept: seq<Batch>, removed: nat)
    ensures kept == DropIds(pending, ids) && removed + RowCount(kept) == RowCount(pending)
  {
    kept, removed := [], 0;
    var i := 0;
    while i < |pending|
      invariant 0 <= i <= |pending| && kept == DropIds(pending[..i], ids)
      invariant removed + RowCount(kept) == RowCount(pending[..i])
    {
      assert pending[..i + 1][..i] == pending[..i];
      if pending[i].id in ids {
        removed := removed + |pending[i].rows|;
      } else {
        RowCountSnoc(kept, pending[i]);
        kept := kept + [pending[i]];
      }
      i := i + 1;
    }
    assert pending[..|pending|] == pending;
  }

  /** A generation's batches as pending ones again: renumbered, claimed. */
  method RestoreBatches(batches: seq<GenBatch>, firstId: nat) returns (restored: seq<Batch>, rows: nat)
    ensures restored == Reborn(batches, firstId) && rows == GenRowCount(batches)
  {
    restored, rows := [], 0;
    var id := firstId;
    var i := 0;
    while i < |batches|
      invariant 0 <= i <= |batches| && id == firstId + i
      invariant restored == Reborn(batches[..i], firstId) && rows == GenRowCount(batches[..i])
    {
      assert batches[..i + 1][..i] == batches[..i];
      restored := restored + [Batch(id, true, batches[i].seqno, batches[i].rows)];
      rows := rows + |batches[i].rows|;
      id := id + 1;
      i := i + 1;
    }
    assert batches[..|batches|] == batches;
  }

  method CountRows(batches: seq<Batch>) returns (rows: nat)
    ensures rows == RowCount(batches)
  {
    rows := 0;
    var i := 0;
    while i < |batches|
      invariant 0 <= i <= |batches| && rows == RowCount(batches[..i])
    {
      assert batches[..i + 1][..i] == batches[..i];
      rows := rows + |batches[i].rows|;
      i := i + 1;
    }
    assert batches[..|batches|] == batches;
  }

  /** Frames above the watermark, in order. */
  method DropStale(frames: seq<Stmt>, watermark: nat) returns (survivors: seq<Stmt>)
    requires Sorted(frames)
    ensures survivors == Above(frames, watermark) && |survivors| <= |frames|
  {
    survivors := [];
    var i := 0;
    while i < |frames|
      invariant 0 <= i <= |frames| && survivors == Above(frames[..i], watermark) && |survivors| <= i
    {
      assert frames[..i + 1][..i] == frames[..i];
      if frames[i].seqno > watermark {
        survivors := survivors + [frames[i]];
      } else {
        assert forall j :: 0 <= j < i ==> frames[..i][j].seqno <= watermark;
        UptoAll(frames[..i], watermark);
      }
      i := i + 1;
    }
    assert frames[..|frames|] == frames;
  }

  // ---- the overlay's loops ----------------------------------------------------------------------

  method CollectKeys(layers: seq<Layer>) returns (keys: set<Key>)
    ensures keys == AllKeys(layers)
  {
    keys := {};
    var i := |layers|;
    while i > 0
      invariant 0 <= i <= |layers| && keys == AllKeys(layers[i..])
    {
      i := i - 1;
      assert layers[i..][1..] == layers[i + 1..];
      keys := layers[i].ops.Keys + keys;
    }
    assert layers[0..] == layers;
  }

  /** No keyed operation anywhere: plain concatenation. */
  method PlainAppends(layers: seq<Layer>) returns (batches: seq<seq<Row>>)
    requires AllKeys(layers) == {}
    ensures Bag(batches) == OverlayRows(layers)
  {
    batches := [];
    NoneKeyed(layers);
    var i := |layers|;
    while i > 0
      invariant 0 <= i <= |layers| && AllKeys(layers[i..]) == {}
      invariant Bag(batches) == OverlayRows(layers[i..])
    {
      i := i - 1;
      assert layers[i..][1..] == layers[i + 1..];
      PlainLayer(layers[i]);
      BagConcat(layers[i].batches, batches);
      batches := layers[i].batches + batches;
    }
    assert layers[0..] == layers;
  }

  lemma {:induction false} NoneKeyed(layers: seq<Layer>)
    requires AllKeys(layers) == {}
    ensures forall i :: 0 <= i < |layers| ==> layers[i].ops.Keys == {}
    decreases |layers|
  {
    if |layers| > 0 {
      NoneKeyed(layers[1..]);
      forall i | 0 < i < |layers| ensures layers[i].ops.Keys == {} { assert layers[1..][i - 1] == layers[i]; }
    }
  }

  lemma PlainLayer(l: Layer)
    requires l.ops.Keys == {}
    ensures Without(Bag(l.batches), {}) == Bag(l.batches)
    ensures Without(UpsertRows(l.ops), {}) == multiset{}
  {
    assert forall r: Row :: Without(Bag(l.batches), {})[r] == Bag(l.batches)[r];
    assert forall r: Row :: Without(UpsertRows(l.ops), {})[r] == 0;
  }

  /** Layer by layer: appends filtered by own and newer keys, upsert rows by newer keys. */
  method SuppressLayers(layers: seq<Layer>) returns (batches: seq<seq<Row>>)
    ensures Bag(batches) == OverlayRows(layers)
  {
    var newer := SuffixKeys(layers);
    batches := [];
    var i := 0;
    assert layers[0..] == layers;
    while i < |layers|
      invariant 0 <= i <= |layers|
      invariant Bag(batches) + OverlayRows(layers[i..]) == OverlayRows(layers)
    {
      assert layers[i..][1..] == layers[i + 1..];
      var own := SuppressLayer(layers[i], newer[i]);
      BagConcat(batches, own);
      batches := batches + own;
      i := i + 1;
    }
    assert layers[|layers|..] == [];
  }

  /** One layer's contribution: its appends, then its upserts. */
  method SuppressLayer(layer: Layer, newer: set<Key>) returns (own: seq<seq<Row>>)
    ensures Bag(own) == Without(Bag(layer.batches), layer.ops.Keys + newer) + Without(UpsertRows(layer.ops), newer)
  {
    var appends := SuppressAll(layer.batches, layer.ops.Keys + newer);
    var upserts := SuppressUpserts(layer.ops, newer);
    BagConcat(appends, upserts);
    own := appends + upserts;
  }

  /** For each layer the keys of every newer one. */
  method SuffixKeys(layers: seq<Layer>) returns (newer: seq<set<Key>>)
    ensures |newer| == |layers| && forall i :: 0 <= i < |layers| ==> newer[i] == AllKeys(layers[i + 1..])
  {
    newer := [];
    var keys: set<Key> := {};
    var i := |layers|;
    while i > 0
      invariant 0 <= i <= |layers| && keys == AllKeys(layers[i..]) && |newer| == |layers| - i
      invariant forall j :: 0 <= j < |newer| ==> newer[j] == AllKeys(layers[i + j + 1..])
    {
      i := i - 1;
      assert layers[i..][1..] == layers[i + 1..];
      newer := [keys] + newer;
      keys := layers[i].ops.Keys + keys;
    }
  }

  lemma SuppressOne(batches: seq<seq<Row>>, rows: seq<Row>, keys: set<Key>)
    ensures Without(Bag(batches + [rows]), keys) == Without(Bag(batches), keys) + multiset(Suppress(rows, keys))
  {
    FlattenSnoc(batches, rows);
    SuppressBag(rows, keys);
    var one, two := Without(Bag(batches + [rows]), keys), Without(Bag(batches), keys) + Without(multiset(rows), keys);
    assert forall r: Row :: one[r] == two[r];
    assert one == two;
  }

  method SuppressAll(batches: seq<seq<Row>>, keys: set<Key>) returns (out: seq<seq<Row>>)
    ensures Bag(out) == Without(Bag(batches), keys)
  {
    out := [];
    var i := 0;
    while i < |batches|
      invariant 0 <= i <= |batches| && Bag(out) == Without(Bag(batches[..i]), keys)
    {
      assert batches[..i + 1] == batches[..i] + [batches[i]];
      SuppressOne(batches[..i], batches[i], keys);
      var rest := Suppress(batches[i], keys);
      FlattenSnoc(out, rest);
      if rest != [] {
        out := out + [rest];
      }
      i := i + 1;
    }
    assert batches[..|batches|] == batches;
  }

  /** The upsert rows of the keys already looked at, outside the newer keys. */
  ghost predicate UpsertsDone(out: seq<seq<Row>>, ops: map<Key, Entry>, newer: set<Key>, left: set<Key>) {
    forall r: Row :: Bag(out)[r] == if r.key in left then 0 else Without(UpsertRows(ops), newer)[r]
  }

  lemma UpsertStep(out: seq<seq<Row>>, ops: map<Key, Entry>, newer: set<Key>, left: set<Key>, key: Key)
    requires UpsertsDone(out, ops, newer, left) && key in left && key in ops
    ensures UpsertsDone(if key !in newer && ops[key].kind.Upsert? then out + [[Row(key, ops[key].kind.val)]] else out,
                        ops, newer, left - {key})
  {
    if key !in newer && ops[key].kind.Upsert? {
      var row := Row(key, ops[key].kind.val);
      FlattenSnoc(out, [row]);
      forall r: Row ensures Bag(out + [[row]])[r] == if r.key in left - {key} then 0 else Without(UpsertRows(ops), newer)[r] {
        assert Bag(out + [[row]])[r] == Bag(out)[r] + if r == row then 1 else 0;
      }
    }
  }

  method SuppressUpserts(ops: map<Key, Entry>, newer: set<Key>) returns (out: seq<seq<Row>>)
    ensures Bag(out) == Without(UpsertRows(ops), newer)
  {
    out := [];
    var left := ops.Keys;
    while left != {}
      invariant left <= ops.Keys && UpsertsDone(out, ops, newer, left)
      decreases left
    {
      var key :| key in left;
      UpsertStep(out, ops, newer, left, key);
      if key !in newer && ops[key].kind.Upsert? {
        out := out + [[Row(key, ops[key].kind.val)]];
      }
      left := left - {key};
    }
    assert forall r: Row :: Bag(out)[r] == Without(UpsertRows(ops), newer)[r];
  }

  // ---- the tail snapshot's loops --------------------------------------------------------------------

  lemma FlushedBagNext(flushed: seq<Gen>, i: nat)
    requires i < |flushed|
    ensures FlushedBag(flushed[..i + 1]) == FlushedBag(flushed[..i]) + GenBag(flushed[i])
  {
    assert flushed[..i + 1][..i] == flushed[..i];
  }

  /** The generations looked at so far. */
  ghost predicate Gathered(flushed: seq<Gen>, i: nat, items: seq<Item>)
    requires i <= |flushed|
  {
    && multiset(items) == FlushedBag(flushed[..i])
    && forall j :: 0 <= j < i ==> GenSequenced(flushed[j])
  }

  lemma GatheredNext(flushed: seq<Gen>, i: nat, items: seq<Item>, more: seq<Item>)
    requires i < |flushed| && Gathered(flushed, i, items) && GenSequenced(flushed[i])
    requires multiset(more) == multiset(items) + GenBag(flushed[i])
    ensures Gathered(flushed, i + 1, more)
  {
    FlushedBagNext(flushed, i);
  }

  method GatherFlushed(flushed: seq<Gen>) returns (ok: bool, items: seq<Item>)
    ensures ok == forall i :: 0 <= i < |flushed| ==> GenSequenced(flushed[i])
    ensures ok ==> multiset(items) == FlushedBag(flushed)
  {
    items := [];
    var i := 0;
    while i < |flushed|
      invariant 0 <= i <= |flushed| && Gathered(flushed, i, items)
    {
      var more: seq<Item>;
      ok, more := PushGen(flushed[i], items);
      if !ok { return; }
      GatheredNext(flushed, i, items, more);
      items := more;
      i := i + 1;
    }
    assert flushed[..|flushed|] == flushed;
    ok := true;
  }

  /** Generations oldest first, then the live window. */
  method GatherItems(b: Buf) returns (ok: bool, items: seq<Item>)
    ensures ok == AllSequenced(b)
    ensures ok ==> multiset(items) == WindowBag(b)
  {
    ok, items := GatherFlushed(b.flushed);
    if !ok { return; }
    ok, items := PushAppends(ToGen(b.pending), items);
    if !ok { return; }
    ok, items := PushKeyed(Entries(b), items);
  }

  method PushGen(g: Gen, items: seq<Item>) returns (ok: bool, out: seq<Item>)
    ensures ok == GenSequenced(g)
    ensures ok ==> multiset(out) == multiset(items) + GenBag(g)
  {
    ok, out := PushAppends(g.batches, items);
    if ok {
      ok, out := PushKeyed(g.keyed, out);
    }
  }

  method PushAppends(batches: seq<GenBatch>, items: seq<Item>) returns (ok: bool, out: seq<Item>)
    ensures ok == BatchesSequenced(batches)
    ensures ok ==> multiset(out) == multiset(items) + AppendBag(batches)
  {
    out := items;
    var i := 0;
    while i < |batches|
      invariant 0 <= i <= |batches| && multiset(out) == multiset(items) + AppendBag(batches[..i])
      invariant forall j :: 0 <= j < i ==> batches[j].seqno.Some?
    {
      assert batches[..i + 1][..i] == batches[..i];
      if batches[i].seqno.None? { return false, out; }
      out := out + [AppendItem(batches[i].seqno.value, batches[i].rows)];
      i := i + 1;
    }
    assert batches[..|batches|] == batches;
    ok := true;
  }

  lemma KeyedBagOne(ops: map<Key, Entry>, done: set<Key>, key: Key)
    requires key in ops && key !in done && ops[key].seqno.Some?
    ensures KeyedBag(ops, done + {key}) == KeyedBag(ops, done) + multiset{KeyedItem(key, ops[key])}
  {
    var small := set k | k in ops && k in done && ops[k].seqno.Some? :: KeyedItem(k, ops[k]);
    var big := set k | k in ops && k in done + {key} && ops[k].seqno.Some? :: KeyedItem(k, ops[k]);
    assert big == small + {KeyedItem(key, ops[key])};
    assert KeyedItem(key, ops[key]) !in small;
  }

  method PushKeyed(ops: map<Key, Entry>, items: seq<Item>) returns (ok: bool, out: seq<Item>)
    ensures ok == OpsSequenced(ops)
    ensures ok ==> multiset(out) == multiset(items) + KeyedBag(ops, ops.Keys)
  {
    out := items;
    var left := ops.Keys;
    assert ops.Keys - left == {};
    while left != {}
      invariant left <= ops.Keys && multiset(out) == multiset(items) + KeyedBag(ops, ops.Keys - left)
      invariant forall k :: k in ops && k !in left ==> ops[k].seqno.Some?
      decreases left
    {
      var key :| key in left;
      if ops[key].seqno.None? { return false, out; }
      KeyedBagOne(ops, ops.Keys - left, key);
      out := out + [KeyedItem(key, ops[key])];
      assert ops.Keys - (left - {key}) == ops.Keys - left + {key};
      left := left - {key};
    }
    ok := true;
  }

  method SortBySeq(items: seq<Item>) returns (sorted: seq<Item>)
    ensures multiset(sorted) == multiset(items) && SortedItems(sorted)
  {
    sorted := [];
    var i := 0;
    while i < |items|
      invariant 0 <= i <= |items| && multiset(sorted) == multiset(items[..i]) && SortedItems(sorted)
    {
      assert items[..i + 1] == items[..i] + [items[i]];
      InsertBag(sorted, items[i]);
      InsertSorted(sorted, items[i]);
      sorted := InsertItem(sorted, items[i]);
      i := i + 1;
    }
    assert items[..|items|] == items;
  }

  method DropUnresolved(items: seq<Item>, undurable: set<nat>) returns (served: seq<Item>)
    ensures served == Servable(items, undurable)
  {
    served := [];
    var i := 0;
    while i < |items|
      invariant 0 <= i <= |items| && served == Servable(items[..i], undurable)
    {
      assert items[..i + 1][..i] == items[..i];
      if items[i].seqno !in undurable {
        served := served + [items[i]];
      }
      i := i + 1;
    }
    assert items[..|items|] == items;
  }

  // ---- facts the methods need --------------------------------------------------------------------

  /** The record is one this buffer could have handed out. */
  ghost predicate RecordFits(b: Buf, routed: Routed) {
    && OlderDisplaced(routed.keyed)
    && forall j :: 0 <= j < |routed.keyed| ==> routed.keyed[j].stamp < NextStamp(b)
  }

  /** One more generation, keyed only where there is keyed state. */
  lemma TaggedValid(b: Buf, b': Buf)
    requires WellFormed(b) && |b'.flushed| == |b.flushed| + 1 && b'.flushed[..|b.flushed|] == b.flushed
    requires b' == b.(flushed := b'.flushed)
    requires b.keyed.None? ==> b'.flushed[|b.flushed|].keyed == map[]
    ensures WellFormed(b')
  {
    var n :| ClaimedPrefix(b.pending, n);
    assert ClaimedPrefix(b'.pending, n);
    forall i | 0 <= i < |b.flushed| ensures b'.flushed[i] == b.flushed[i] { assert b'.flushed[..|b.flushed|][i] == b.flushed[i]; }
  }

  lemma CollectReady(b: Buf, b': Buf)
    requires KeyedReady(b) && (b'.keyed.None? ==> b.keyed.None?)
    requires forall g :: g in b'.flushed ==> g in b.flushed
    ensures KeyedReady(b')
  {
    forall i | 0 <= i < |b'.flushed| ensures exists j :: 0 <= j < |b.flushed| && b.flushed[j] == b'.flushed[i] {
      assert b'.flushed[i] in b.flushed;
    }
  }

  /** The entries left once the snapshotted keys in `done` have been looked at. */
  function DrainedOf(entries: map<Key, Entry>, snap: map<Key, Entry>, done: set<Key>): map<Key, Entry> {
    map k | k in entries && !(k in snap && k in done && entries[k].stamp == snap[k].stamp) :: entries[k]
  }

  lemma DrainedNone(entries: map<Key, Entry>, snap: map<Key, Entry>)
    ensures DrainedOf(entries, snap, snap.Keys - snap.Keys) == entries
  {}

  lemma DrainedOne(entries: map<Key, Entry>, snap: map<Key, Entry>, done: set<Key>, key: Key)
    requires key in snap && key !in done
    ensures var now := DrainedOf(entries, snap, done);
            DrainedOf(entries, snap, done + {key})
            == if key in now && now[key].stamp == snap[key].stamp then now - {key} else now
  {}

  /** The map once the older keys in `done` have been offered to it. */
  function MergedOf(older: map<Key, Entry>, entries: map<Key, Entry>, done: set<Key>): map<Key, Entry> {
    (map k | k in older && k in done :: older[k]) + entries
  }

  lemma MergedNone(older: map<Key, Entry>, entries: map<Key, Entry>)
    ensures MergedOf(older, entries, older.Keys - older.Keys) == entries
  {}

  lemma MergedOne(older: map<Key, Entry>, entries: map<Key, Entry>, done: set<Key>, key: Key)
    requires key in older && key !in done
    ensures var now := MergedOf(older, entries, done);
            MergedOf(older, entries, done + {key}) == if key !in now then now[key := older[key]] else now
  {}

  lemma DropPrefixRows(b: Buf, n: nat)
    requires n <= |b.pending| && b.pendingRows == RowCount(b.pending)
    ensures b.pendingRows - RowCount(b.pending[..n]) == RowCount(b.pending[n..])
  {
    assert b.pending == b.pending[..n] + b.pending[n..];
    RowCountConcat(b.pending[..n], b.pending[n..]);
  }

  lemma {:induction false} CountSet(pending: seq<Batch>, ids: set<nat>) returns (found: set<nat>)
    requires forall i, j :: 0 <= i < j < |pending| ==> pending[i].id != pending[j].id
    ensures found <= ids && |found| == UnclaimedCount(pending, ids)
    ensures forall id :: id in found <==> HasUnclaimed(pending, ids, id)
  {
    if |pending| == 0 {
      found := {};
    } else {
      var init, last := pending[..|pending| - 1], pending[|pending| - 1];
      var few := CountSet(init, ids);
      found := if last.id in ids && !last.claimed then few + {last.id} else few;
      forall id | id in few ensures id != last.id {
        var i :| 0 <= i < |init| && init[i].id == id;
        assert pending[i].id == id;
      }
      forall id ensures id in found <==> HasUnclaimed(pending, ids, id) { CountNext(pending, ids, id); }
    }
  }

  ghost predicate HasUnclaimed(pending: seq<Batch>, ids: set<nat>, id: nat) {
    exists i :: 0 <= i < |pending| && pending[i].id == id && id in ids && !pending[i].claimed
  }

  lemma CountNext(pending: seq<Batch>, ids: set<nat>, id: nat)
    requires |pending| > 0
    ensures var init, last := pending[..|pending| - 1], pending[|pending| - 1];
            HasUnclaimed(pending, ids, id)
            <==> HasUnclaimed(init, ids, id) || (last.id == id && id in ids && !last.claimed)
  {
    var init := pending[..|pending| - 1];
    if HasUnclaimed(init, ids, id) {
      var i :| 0 <= i < |init| && init[i].id == id && id in ids && !init[i].claimed;
      assert pending[i] == init[i];
    }
    if i :| 0 <= i < |pending| && pending[i].id == id && id in ids && !pending[i].claimed {
      if i < |init| { assert init[i] == pending[i]; }
    }
  }

  /** What the claim check really establishes: none of the statement's batches is claimed. */
  lemma UnclaimedIsAll(b: Buf, routed: Routed)
    requires IdsUnique(b) && !Claimed(b, routed)
    ensures forall i :: 0 <= i < |b.pending| && b.pending[i].id in IdSet(routed.ids) ==> !b.pending[i].claimed
  {
    var ids := IdSet(routed.ids);
    var found := CountSet(b.pending, ids);
    SubsetFull(found, ids);
    forall i | 0 <= i < |b.pending| && b.pending[i].id in ids ensures !b.pending[i].claimed {
      var j :| 0 <= j < |b.pending| && b.pending[j].id == b.pending[i].id && !b.pending[j].claimed;
      assert i == j;
    }
  }

  lemma SubsetFull(a: set<nat>, b: set<nat>)
    requires a <= b && |a| == |b|
    ensures a == b
  {
    assert |b - a| == 0;
  }

  lemma UnrouteWellFormed(b: Buf, sq: nat, routed: Routed)
    requires WellFormed(b) && RecordFits(b, routed) && !Claimed(b, routed)
    ensures WellFormed(Unroute(b, sq, routed))
  {
    UnclaimedIsAll(b, routed);
    RetractPending(b, routed);
    RetractStamps(b, routed);
    LikeWellFormed(Retract(b, routed), b.undurable - {sq});
  }

  lemma LikeWellFormed(b: Buf, undurable: set<nat>)
    requires WellFormed(b)
    ensures WellFormed(b.(undurable := undurable))
  {
    var n :| ClaimedPrefix(b.pending, n);
    assert ClaimedPrefix(b.(undurable := undurable).pending, n);
  }

  lemma MoveBackValid(b: Buf, sid: nat, p: nat)
    requires WellFormed(b) && p == GenPosition(b.flushed, sid) < |b.flushed|
    requires forall k :: k in b.flushed[p].keyed ==> b.flushed[p].keyed[k].stamp < NextStamp(b)
    ensures WellFormed(MoveBack(b, sid))
  {
    var g := b.flushed[p];
    RebornCount(g.batches, b.nextId);
    RowCountConcat(Reborn(g.batches, b.nextId), b.pending);
    var n :| ClaimedPrefix(b.pending, n);
    MoveBackPrefix(g, b, n);
    MoveBackIds(g, b);
    MoveBackStamps(b, sid, p);
    MoveBackKeyedReady(b, sid, p);
  }

  lemma MoveBackStamps(b: Buf, sid: nat, p: nat)
    requires StampsBelow(b) && p == GenPosition(b.flushed, sid) < |b.flushed|
    requires forall k :: k in b.flushed[p].keyed ==> b.flushed[p].keyed[k].stamp < NextStamp(b)
    ensures StampsBelow(MoveBack(b, sid))
  {}

  lemma MoveBackKeyedReady(b: Buf, sid: nat, p: nat)
    requires KeyedReady(b) && p == GenPosition(b.flushed, sid) < |b.flushed|
    ensures KeyedReady(MoveBack(b, sid))
  {
    var f := b.flushed[..p] + b.flushed[p + 1..];
    forall i | 0 <= i < |f| ensures f[i] in b.flushed {
      assert f[i] == if i < p then b.flushed[i] else b.flushed[i + 1];
    }
  }
}
