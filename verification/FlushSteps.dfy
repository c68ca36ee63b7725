/** The flusher: snapshot, load, park or drop or post, and settle. */
module FlushSteps {
  import opened Rows
  import opened Window
  import opened Layers
  import opened Undo
  import opened Statements
  import opened Log
  import opened Engine
  import opened Invariants
  import opened CatalogSteps
  import opened WindowSteps
  import opened StageSteps
  import opened FailSteps

  // ---- the snapshot ----------------------------------------------------------------------------------

  lemma SnapshotMark(s: State)
    requires WindowInv(s) && (s.buf.pending != [] || Entries(s.buf) != map[])
    ensures var s' := DoSnapshot(s);
            && s.buf.tailHigh == Some(s'.frozen) && s.liveLo < s'.frozen && s.frozen <= s'.frozen < s.tail.nextSeq
  {}

  lemma SnapshotCatalog(s: State)
    requires CatalogInv(s) && WindowInv(s) && s.flight.Idle? && (s.buf.pending != [] || Entries(s.buf) != map[])
    ensures CatalogInv(DoSnapshot(s))
  {
    SnapshotMark(s);
    var s' := DoSnapshot(s);
    assert s' == s.(buf := s'.buf, flight := s'.flight, frozen := s'.frozen) && s'.buf.flushed == s.buf.flushed;
    CatalogIntro(s');
  }

  lemma SnapshotReady(s: State)
    requires WindowInv(s) && (s.buf.pending != [] || Entries(s.buf) != map[])
    ensures var s' := DoSnapshot(s); SnapReady(s'.buf, s'.flight.snap, s'.liveLo, s'.frozen, s'.base, s'.log)
  {
    SnapshotMark(s);
    var s' := DoSnapshot(s);
    var snap := s'.flight.snap;
    AtTop(s.base, s.log, s'.frozen);
    SnapshotKeepsLive(s.buf);
    assert SnapLayer(snap) == Live(s.buf);
    assert s'.buf.pending[..snap.n] == s'.buf.pending;
    assert Drained(Entries(s'.buf), snap.keyed) == map[];
  }

  lemma SnapshotWindow(s: State)
    requires WindowInv(s) && (s.buf.pending != [] || Entries(s.buf) != map[])
    ensures WindowInv(DoSnapshot(s))
  {
    SnapshotMark(s);
    SnapshotReady(s);
    SnapshotWellFormed(s.buf);
    SnapshotKeepsLive(s.buf);
    var s' := DoSnapshot(s);
    assert s' == s.(buf := s'.buf, flight := s'.flight, frozen := s'.frozen);
    assert BufOk(s.pk, s.keyedTable, s'.buf);
    WindowIntro(s');
  }

  lemma SnapshotWait(s: State, q: nat, w: Wait)
    requires WaitOk(q, w, s.buf, s.flight, s.liveLo, s.frozen, s.base, s.log, s.failed)
    requires s.buf.tailHigh.Some?
    ensures var s' := DoSnapshot(s);
            WaitOk(q, w, s'.buf, s'.flight, s'.liveLo, s'.frozen, s'.base, s'.log, s'.failed)
  {
    var b' := AfterSnapshot(s.buf);
    assert RecordOk(b', w.op, w.routed);
    assert WhollyClaimed(b', w.routed);
  }

  lemma SnapshotWaits(s: State)
    requires WaitInv(s) && WindowInv(s) && (s.buf.pending != [] || Entries(s.buf) != map[])
    ensures WaitInv(DoSnapshot(s))
  {
    SnapshotMark(s);
    var s' := DoSnapshot(s);
    forall q | q in s'.waiting
      ensures WaitOk(q, s'.waiting[q], s'.buf, s'.flight, s'.liveLo, s'.frozen, s'.base, s'.log, s'.failed)
    {
      SnapshotWait(s, q, s.waiting[q]);
    }
    NoneAbove(s, s');
  }

  /** Nothing that waits is above the mark of a snapshot. */
  lemma NoneAbove(s: State, s': State)
    requires WaitsOk(s.waiting, s.buf, s.flight, s.liveLo, s.frozen, s.base, s.log, s.failed)
    requires s'.waiting == s.waiting && s.buf.tailHigh == Some(s'.frozen)
    ensures UndoAllowed(s'.keyedTable, s'.waiting, s'.frozen, s'.base, s'.log)
    ensures PlainOk(s'.keyedTable, s'.waiting, s'.frozen, s'.buf)
  {
    forall q | q in s'.waiting ensures q <= s'.frozen {
      assert WaitOk(q, s.waiting[q], s.buf, s.flight, s.liveLo, s.frozen, s.base, s.log, s.failed);
    }
  }

  lemma SnapshotInv(s: State)
    requires Inv(s) && s.flight.Idle? && (s.buf.pending != [] || Entries(s.buf) != map[])
    ensures Inv(DoSnapshot(s))
  {
    SnapshotCatalog(s);
    SnapshotWindow(s);
    SnapshotWaits(s);
  }

  // ---- metadata is observed ------------------------------------------------------------------------------

  lemma ObserveSame(flushed: seq<Gen>, isCommitted: GenCommit -> bool)
    ensures SameGens(flushed, Observe(flushed, isCommitted))
  {}

  lemma FewerScanned(scans: multiset<Scan>, scans': multiset<Scan>)
    requires scans' <= scans
    ensures forall v :: Scanned(scans', v) ==> Scanned(scans, v)
  {
    forall v | Scanned(scans', v) ensures Scanned(scans, v) {
      var x :| x in scans' && x.version == v;
      assert x in scans;
    }
  }

  lemma ObserveCatalog(s: State, s': State, v: nat)
    requires CatalogInv(s) && v < |s.hist|
    requires s'.buf.flushed == Observe(s.buf.flushed, Seen(s.hist, v))
    requires s'.served == Max(s.served, v) && s'.scans <= s.scans
    requires s' == s.(buf := s'.buf, scans := s'.scans, served := s'.served, flight := s'.flight)
    requires s'.flight.Posted? == s.flight.Posted? && (s.flight.Posted? ==> s'.flight == s.flight)
    ensures CatalogInv(s')
  {
    var f, f' := s.buf.flushed, s'.buf.flushed;
    ObserveSame(f, Seen(s.hist, v));
    SameGensChain(s.spans, s.liveLo, f, f', s.base, s.log);
    SameGensSeen(s.hist, s.spans, f, f');
    SameGensIds(s.hist, s.nextSnap, f, f');
    SameGensAllSeen(s.hist, f, f', s.flight);
    FewerScanned(s.scans, s'.scans);
    NarrowLink(s.hist, s.served, s.scans, s'.served, s'.scans, s.spans, s.liveLo, f, f', s.base, s.log);
    ObserveObserved(s, v, s'.served, s'.scans);
    SameGensLag(s.hist, s.scans, s'.scans, f, f', s.clock, s.lag);
    CatalogIntro(s');
  }

  lemma ObserveBuf(pk: seq<string>, keyedTable: bool, b: Buf, isCommitted: GenCommit -> bool)
    requires BufOk(pk, keyedTable, b)
    ensures BufOk(pk, keyedTable, NoteObserved(b, isCommitted))
  {
    var b' := NoteObserved(b, isCommitted);
    var n :| ClaimedPrefix(b.pending, n);
    assert ClaimedPrefix(b'.pending, n);
  }

  lemma LoadWindow(s: State)
    requires CatalogInv(s) && WindowInv(s) && s.flight.Snapped?
    ensures WindowInv(DoLoad(s))
  {
    var s' := DoLoad(s);
    ObserveBuf(s.pk, s.keyedTable, s.buf, Seen(s.hist, LastIdx(s)));
    LikeSnap(s.buf, s'.buf, s.flight.snap, s.liveLo, s.frozen, s.base, s.log);
    LikeRetract(s.buf, s'.buf, NOTHING);
    assert s' == s.(buf := s'.buf, flight := s'.flight, served := s'.served);
    WindowIntro(s');
  }

  lemma LoadInv(s: State)
    requires Inv(s) && s.flight.Snapped?
    ensures Inv(DoLoad(s))
  {
    ObserveCatalog(s, DoLoad(s), LastIdx(s));
    LoadWindow(s);
    LikeWaits(s, DoLoad(s));
  }

  lemma ObserveFlight(s: State, b': Buf)
    requires FlightOk(s.flight, s.hist, s.nextSnap, s.buf, s.spans, s.liveLo, s.frozen, s.tail.sidecar, s.base, s.log)
    requires LikeWindow(s.buf, b') && SameGens(s.buf.flushed, b'.flushed)
    ensures FlightOk(s.flight, s.hist, s.nextSnap, b', s.spans, s.liveLo, s.frozen, s.tail.sidecar, s.base, s.log)
  {
    if s.flight.Snapped? || s.flight.Loaded? {
      LikeSnap(s.buf, b', s.flight.snap, s.liveLo, s.frozen, s.base, s.log);
    }
  }

  lemma OverlayWindow(s: State, x: Scan)
    requires WindowInv(s)
    ensures WindowInv(DoOverlay(s, x))
  {
    var s', v := DoOverlay(s, x), x.version;
    ObserveBuf(s.pk, s.keyedTable, s.buf, Seen(s.hist, v));
    ObserveSame(s.buf.flushed, Seen(s.hist, v));
    LikeRetract(s.buf, s'.buf, NOTHING);
    ObserveFlight(s, s'.buf);
    assert s' == s.(buf := s'.buf, scans := s'.scans, served := s'.served);
    WindowIntro(s');
  }

  lemma OverlayInv(s: State, x: Scan)
    requires Inv(s) && x in s.scans
    ensures Inv(DoOverlay(s, x))
  {
    assert Scanned(s.scans, x.version);
    ObserveCatalog(s, DoOverlay(s, x), x.version);
    OverlayWindow(s, x);
    LikeWaits(s, DoOverlay(s, x));
  }

  // ---- the snapshot leaves the live window -----------------------------------------------------------------

  /** The live window moves up to the frozen mark, its snapshot drained. */
  ghost predicate DrainsTo(s: State, s': State) {
    && (s.flight.Snapped? || s.flight.Loaded?) && s.flight.snap.n <= |s.buf.pending|
    && (s'.flight.Posted? || s'.flight.Settling?)
    && s'.liveLo == s.frozen == s'.frozen
    && LikeWindow(DropPrefix(s.buf, s.flight.snap.n, s.flight.snap.keyed), s'.buf)
    && s'.base == s.base && s'.log == s.log && s'.tail == s.tail && s'.pk == s.pk && s'.keyedTable == s.keyedTable
    && s'.waiting == s.waiting && s'.failed == s.failed
    && SnapReady(s.buf, s.flight.snap, s.liveLo, s.frozen, s.base, s.log)
  }

  lemma LikeBufOk(pk: seq<string>, keyedTable: bool, b: Buf, b': Buf)
    requires WellFormed(b) && LikeWindow(b, b') && KeyedReady(b')
    requires b.keyed.Some? ==> b.keyed.value.pkCols == pk
    requires !keyedTable ==> Entries(b) == map[] && forall i :: 0 <= i < |b'.flushed| ==> b'.flushed[i].keyed == map[]
    ensures BufOk(pk, keyedTable, b')
  {
    var n :| ClaimedPrefix(b.pending, n);
    assert ClaimedPrefix(b'.pending, n);
  }

  lemma DrainBuf(s: State, s': State)
    requires DrainsTo(s, s') && BufOk(s.pk, s.keyedTable, s.buf) && KeyedReady(s'.buf)
    requires !s.keyedTable ==> forall i :: 0 <= i < |s'.buf.flushed| ==> s'.buf.flushed[i].keyed == map[]
    ensures BufOk(s'.pk, s'.keyedTable, s'.buf)
  {
    var snap := s.flight.snap;
    DropPrefixWellFormed(s.buf, snap.n, snap.keyed);
    DropPrefixShape(s.buf, snap.n, snap.keyed);
    LikeBufOk(s.pk, s.keyedTable, DropPrefix(s.buf, snap.n, snap.keyed), s'.buf);
  }

  lemma DrainTop(s: State, s': State)
    requires DrainsTo(s, s') && TopOk(s.buf, s.log, s.liveLo, s.frozen, s.tail.nextSeq)
    ensures TopOk(s'.buf, s'.log, s'.liveLo, s'.frozen, s'.tail.nextSeq)
  {
    DropPrefixShape(s.buf, s.flight.snap.n, s.flight.snap.keyed);
  }

  lemma DrainLive(s: State, s': State)
    requires DrainsTo(s, s') && LiveOk(s.base, s.log, s.liveLo, s.buf)
    ensures LiveOk(s'.base, s'.log, s'.liveLo, s'.buf)
  {
    var snap := s.flight.snap;
    DropPrefixLive(At(s.base, s.log, s.liveLo), s.buf, snap);
    LikeRetract(DropPrefix(s.buf, snap.n, snap.keyed), s'.buf, NOTHING);
  }

  lemma DrainUndoOk(s: State, s': State, q: nat, w: Wait)
    requires DrainsTo(s, s') && UndoOk(q, w.op, w.routed, s.buf, s.liveLo, s.base, s.log)
    requires Unclaimed(s.buf, w.routed) && SnapKept(RestoreKeys(Entries(s.buf), w.routed.keyed), s.flight.snap.keyed)
    ensures UndoOk(q, w.op, w.routed, s'.buf, s'.liveLo, s'.base, s'.log)
  {
    var snap := s.flight.snap;
    var d := DropPrefix(s.buf, snap.n, snap.keyed);
    LikeRetract(d, s'.buf, w.routed);
    forall r: Row | r.key in OpKeys(w.op)
      ensures Apply(At(s'.base, s'.log, s'.liveLo), Live(Retract(s'.buf, w.routed)))[r] == Fold(s'.base, Minus(s'.log, {q}))[r]
    {
      RetractDrainedAt(s.buf, snap, w.routed, At(s.base, s.log, s.liveLo), r);
    }
  }

  lemma DrainPlaces(b: Buf, d: Buf, snap: Snap, op: Op, routed: Routed)
    requires snap.n <= |b.pending| && LikeWindow(DropPrefix(b, snap.n, snap.keyed), d) && RecordOk(b, op, routed)
    ensures RecordOk(d, op, routed)
    ensures WhollyClaimed(b, routed) ==> WhollyClaimed(d, routed)
    ensures Unclaimed(b, routed) ==> Unclaimed(d, routed)
  {
    DropPrefixShape(b, snap.n, snap.keyed);
    forall i | 0 <= i < |d.pending| ensures d.pending[i] == b.pending[snap.n + i] {}
  }

  lemma DrainReady(s: State, s': State, q: nat, w: Wait)
    requires DrainsTo(s, s') && UndoReady(q, w, s.buf, s.flight, s.liveLo, s.base, s.log) && Unclaimed(s.buf, w.routed)
    ensures UndoReady(q, w, s'.buf, s'.flight, s'.liveLo, s'.base, s'.log)
  {
    DrainUndoOk(s, s', q, w);
  }

  lemma DrainWait(s: State, s': State, q: nat, w: Wait)
    requires DrainsTo(s, s')
    requires WaitOk(q, w, s.buf, s.flight, s.liveLo, s.frozen, s.base, s.log, s.failed)
    ensures WaitOk(q, w, s'.buf, s'.flight, s'.liveLo, s'.frozen, s'.base, s'.log, s'.failed)
  {
    DrainPlaces(s.buf, s'.buf, s.flight.snap, w.op, w.routed);
    if q > s.frozen && !w.shadowed {
      DrainReady(s, s', q, w);
    }
    assert s'.buf.tailHigh == s.buf.tailHigh;
    WaitIntro(q, w, s'.buf, s'.flight, s'.liveLo, s'.frozen, s'.base, s'.log, s'.failed);
  }

  lemma DrainPlainRows(b: Buf, d: Buf, snap: Snap, w: Wait)
    requires snap.n <= |b.pending| && LikeWindow(DropPrefix(b, snap.n, snap.keyed), d)
    requires ClaimedPrefix(b.pending, snap.n) && Unclaimed(b, w.routed) && PlainRows(b.pending, w)
    ensures PlainRows(d.pending, w)
  {
    var ids := IdSet(w.routed.ids);
    DropPrefixShape(b, snap.n, snap.keyed);
    DropNone(b.pending, {});
    DropNone(d.pending, {});
    forall r: Row
      ensures Bag(RowsOf(DropIds(d.pending, ids)))[r] + multiset(Flatten(w.op.batches))[r] == Bag(RowsOf(d.pending))[r]
    {
      DrainedBag(b, snap.n, ids, r);
      DrainedBag(b, snap.n, {}, r);
    }
  }

  lemma DrainPlain(s: State, s': State)
    requires DrainsTo(s, s') && PlainOk(s.keyedTable, s.waiting, s.frozen, s.buf)
    requires WaitsOk(s.waiting, s.buf, s.flight, s.liveLo, s.frozen, s.base, s.log, s.failed)
    ensures PlainOk(s'.keyedTable, s'.waiting, s'.frozen, s'.buf)
  {
    if !s.keyedTable {
      forall q | q in s'.waiting && q > s'.frozen ensures PlainRows(s'.buf.pending, s'.waiting[q]) {
        assert WaitOk(q, s.waiting[q], s.buf, s.flight, s.liveLo, s.frozen, s.base, s.log, s.failed);
        DrainPlainRows(s.buf, s'.buf, s.flight.snap, s.waiting[q]);
      }
    }
  }

  lemma DrainWaits(s: State, s': State)
    requires DrainsTo(s, s') && WaitInv(s)
    ensures WaitInv(s')
  {
    DrainPlain(s, s');
    forall q | q in s'.waiting
      ensures WaitOk(q, s'.waiting[q], s'.buf, s'.flight, s'.liveLo, s'.frozen, s'.base, s'.log, s'.failed)
    {
      DrainWait(s, s', q, s.waiting[q]);
    }
  }

  /** A new generation holds exactly the snapshot. */
  lemma GenIsSnap(b: Buf, snap: Snap, commit: GenCommit, now: nat)
    requires snap.n <= |b.pending| && RowsOf(b.pending[..snap.n]) == snap.batches
    ensures GenLayer(Gen(commit, ToGen(b.pending[..snap.n]), snap.keyed, now, false)) == SnapLayer(snap)
  {
    assert GenRows(ToGen(b.pending[..snap.n])) == RowsOf(b.pending[..snap.n]);
  }

  /** The state with the drained snapshot appended as a generation committed as `commit`. */
  ghost predicate AppendsGen(s: State, s': State, commit: GenCommit) {
    && DrainsTo(s, s')
    && s'.buf == MoveToFlushed(s.buf, s.flight.snap.n, s.flight.snap.keyed, commit, s.clock)
    && s'.spans == s.spans + [Span(s.liveLo, s.frozen)]
    && s'.hist == s.hist && s'.served == s.served && s'.scans == s.scans && s'.clock == s.clock && s'.lag == s.lag
    && s'.nextSnap == (if commit.Snapshot? then s.nextSnap + 1 else s.nextSnap)
    && (commit.Snapshot? ==> commit.id == s.nextSnap)
  }

  lemma AppendCatalog(s: State, s': State, commit: GenCommit)
    requires CatalogInv(s) && AppendsGen(s, s', commit) && SeenAs(s.hist, commit, s.liveLo, s.frozen)
    requires AllSeen(s'.hist, s'.buf.flushed, s'.flight) && DoubledOk(s'.hist, s'.liveLo)
    ensures CatalogInv(s')
  {
    var snap := s.flight.snap;
    var g := Gen(commit, ToGen(s.buf.pending[..snap.n]), snap.keyed, s.clock, false);
    assert s'.buf.flushed == s.buf.flushed + [g];
    GenIsSnap(s.buf, snap, commit, s.clock);
    AppendMarks(s.spans, s.liveLo, s.frozen, s.tail.nextSeq);
    AppendChain(s.spans, s.liveLo, s.buf.flushed, s.base, s.log, g, s.frozen);
    AppendSeen(s.hist, s.spans, s.buf.flushed, g, s.liveLo, s.frozen);
    AppendLink(s.hist, s.served, s.scans, s.spans, s.liveLo, s.buf.flushed, s.base, s.log, g, s.frozen);
    AppendIds(s.hist, s.nextSnap, s.buf.flushed, g);
    AppendObserved(s.hist, s.served, s.scans, s.buf.flushed, s.clock, g);
    AppendLag(s.hist, s.scans, s.buf.flushed, s.clock, s.lag, g);
    CatalogIntro(s');
  }

  lemma AppendBuf(s: State, s': State, commit: GenCommit)
    requires AppendsGen(s, s', commit) && BufOk(s.pk, s.keyedTable, s.buf)
    ensures BufOk(s'.pk, s'.keyedTable, s'.buf)
  {
    var snap := s.flight.snap;
    DropPrefixShape(s.buf, snap.n, snap.keyed);
    if Entries(s.buf) == map[] {
      assert snap.keyed == map[] by { assert forall k :: k in snap.keyed ==> k in Entries(s.buf); }
    }
    DrainBuf(s, s');
  }

  // ---- the already-committed guard -------------------------------------------------------------------------------

  /** What the guard compares: the watermark loaded, which is the newest, with the snapshot's mark. It
      recognises a window that is covered wholly, and no other. */
  lemma Recognised(s: State)
    requires CatalogInv(s) && WindowInv(s) && s.flight.Loaded?
    ensures s.flight.base < |s.hist| && s.hist[s.flight.base].wm == s.hist[LastIdx(s)].wm
    ensures s.flight.snap.n <= |s.buf.pending| && s.flight.snap.mark == Some(s.frozen)
    ensures AlreadyCommitted(s.hist, s.flight.base, MarkOf(s.flight.snap)) <==> s.hist[LastIdx(s)].wm >= s.frozen
    ensures Doubled(s) <==> PartlyCovered(s) || AlreadyCommitted(s.hist, s.flight.base, MarkOf(s.flight.snap))
  {}

  // ---- parked: the window is already committed ---------------------------------------------------------------

  lemma ParkSeenAs(s: State)
    requires CatalogInv(s) && s.flight.Loaded? && s.flight.base < |s.hist| && s.liveLo < s.frozen
    requires s.hist[s.flight.base].wm == s.hist[LastIdx(s)].wm && s.hist[LastIdx(s)].wm >= s.frozen
    ensures SeenAs(s.hist, CoveredByWatermark(s.frozen), s.liveLo, s.frozen)
  {
    forall v: nat | v < |s.hist|
      ensures if Contains(s.hist, v, CoveredByWatermark(s.frozen)) then s.hist[v].wm == s.frozen
              else s.hist[v].wm <= s.liveLo
    {
      assert s.hist[v].wm <= s.hist[LastIdx(s)].wm;
    }
  }

  lemma ParkShape(s: State)
    requires s.flight.Loaded? && s.flight.snap.n <= |s.buf.pending|
    requires SnapReady(s.buf, s.flight.snap, s.liveLo, s.frozen, s.base, s.log)
    ensures AppendsGen(s, DoPark(s), CoveredByWatermark(s.frozen)) && MarkOf(s.flight.snap) == s.frozen
  {}

  lemma ParkWindow(s: State)
    requires CatalogInv(s) && WindowInv(s) && s.flight.Loaded? && s.flight.snap.n <= |s.buf.pending|
    requires AlreadyCommitted(s.hist, s.flight.base, MarkOf(s.flight.snap))
    ensures WindowInv(DoPark(s))
  {
    ParkShape(s);
    var s' := DoPark(s);
    AppendBuf(s, s', CoveredByWatermark(s.frozen));
    DrainTop(s, s');
    DrainLive(s, s');
    WindowIntro(s');
  }

  lemma ParkAllSeen(s: State)
    requires CatalogInv(s) && s.flight.Loaded? && s.flight.snap.n <= |s.buf.pending|
    requires s.hist[LastIdx(s)].wm >= s.frozen > 0 && MarkOf(s.flight.snap) == s.frozen
    ensures AllSeen(DoPark(s).hist, DoPark(s).buf.flushed, DoPark(s).flight)
  {
    assert Contains(s.hist, LastIdx(s), CoveredByWatermark(s.frozen));
  }

  lemma ParkCatalog(s: State)
    requires CatalogInv(s) && WindowInv(s) && s.flight.Loaded? && s.flight.snap.n <= |s.buf.pending|
    requires AlreadyCommitted(s.hist, s.flight.base, MarkOf(s.flight.snap))
    ensures CatalogInv(DoPark(s))
  {
    ParkShape(s);
    ParkSeenAs(s);
    ParkAllSeen(s);
    AppendCatalog(s, DoPark(s), CoveredByWatermark(s.frozen));
  }

  lemma ParkInv(s: State)
    requires Inv(s) && s.flight.Loaded? && s.flight.snap.n <= |s.buf.pending|
    requires AlreadyCommitted(s.hist, s.flight.base, MarkOf(s.flight.snap))
    ensures Inv(DoPark(s))
  {
    ParkShape(s);
    ParkCatalog(s);
    ParkWindow(s);
    DrainWaits(s, DoPark(s));
    InvIntro(DoPark(s));
  }

  // ---- nothing to commit ---------------------------------------------------------------------------------

  /** Without a double, the newest version's rows are the table below the live window. */
  lemma LastLink(s: State)
    requires CatalogInv(s) && (s.flight.Posted? ==> s.flight.landed) && !Doubled(s)
    ensures s.hist[LastIdx(s)].wm <= s.liveLo
    ensures At(s.base, s.log, s.hist[LastIdx(s)].wm) == At(s.base, s.log, s.liveLo)
    ensures forall v: nat :: v < |s.hist| ==> s.hist[v].wm <= s.liveLo
  {
    assert Servable(s.hist, s.served, s.scans, LastIdx(s));
    assert FirstUnseen(s.hist, s.buf.flushed, LastIdx(s), |s.buf.flushed|);
    forall v: nat | v < |s.hist| ensures s.hist[v].wm <= s.liveLo {
      assert s.hist[v].wm <= s.hist[LastIdx(s)].wm;
    }
  }

  /** A commit with nothing to do would change nothing. */
  lemma NetZeroKeeps(c: Table, l: Layer)
    ensures NetZero(c, l) ==> Apply(c, l) == c
  {
    if NetZero(c, l) {
      forall r: Row ensures Apply(c, l)[r] == c[r] {
        assert Without(c, l.ops.Keys)[r] == c[r];
        assert Without(Bag(l.batches), l.ops.Keys)[r] == 0;
        assert UpsertRows(l.ops)[r] == 0;
      }
    }
  }

  /** What the loaded metadata says is what the newest version says. */
  lemma LoadedBase(s: State)
    requires CatalogInv(s) && WindowInv(s) && s.flight.Loaded? && !Doubled(s)
    ensures s.flight.base < |s.hist| && s.hist[s.flight.base].wm <= s.liveLo
    ensures s.hist[s.flight.base].rows == At(s.base, s.log, s.liveLo)
    ensures SnapReady(s.buf, s.flight.snap, s.liveLo, s.frozen, s.base, s.log)
  {
    LastLink(s);
    assert s.hist[s.flight.base].rows == At(s.base, s.log, s.hist[s.flight.base].wm);
  }

  lemma DropEqual(s: State)
    requires CatalogInv(s) && WindowInv(s) && s.flight.Loaded? && !Doubled(s)
    requires s.flight.base < |s.hist| && NetZero(s.hist[s.flight.base].rows, SnapLayer(s.flight.snap))
    ensures At(s.base, s.log, s.liveLo) == At(s.base, s.log, s.frozen)
  {
    LoadedBase(s);
    NetZeroKeeps(s.hist[s.flight.base].rows, SnapLayer(s.flight.snap));
  }

  lemma DropCatalog(s: State, s': State)
    requires CatalogInv(s) && s.flight.Loaded? && !Doubled(s)
    requires At(s.base, s.log, s.liveLo) == At(s.base, s.log, s.frozen)
    requires s' == s.(buf := s'.buf, liveLo := s.frozen, flight := s'.flight) && s'.buf.flushed == s.buf.flushed
    requires s'.flight.Settling?
    ensures CatalogInv(s')
  {
    LastLink(s);
    RaiseMarks(s.spans, s.liveLo, s.frozen, s.tail.nextSeq);
    RaiseChain(s.spans, s.liveLo, s.frozen, s.buf.flushed, s.base, s.log);
    RaiseLink(s.hist, s.served, s.scans, s.spans, s.liveLo, s.frozen, s.buf.flushed, s.base, s.log);
    CatalogIntro(s');
  }

  lemma DropWindow(s: State)
    requires CatalogInv(s) && WindowInv(s) && s.flight.Loaded? && s.flight.snap.n <= |s.buf.pending| && !Doubled(s)
    requires At(s.base, s.log, s.liveLo) == At(s.base, s.log, s.frozen)
    ensures WindowInv(DoDrop(s)) && DrainsTo(s, DoDrop(s))
  {
    LastLink(s);
    var s' := DoDrop(s);
    assert DrainsTo(s, s');
    DropPrefixShape(s.buf, s.flight.snap.n, s.flight.snap.keyed);
    DrainBuf(s, s');
    DrainTop(s, s');
    DrainLive(s, s');
    WindowIntro(s');
  }

  lemma DropInv(s: State)
    requires Inv(s) && s.flight.Loaded? && s.flight.snap.n <= |s.buf.pending| && !Doubled(s)
    requires s.flight.base < |s.hist| && NetZero(s.hist[s.flight.base].rows, SnapLayer(s.flight.snap))
    ensures Inv(DoDrop(s))
  {
    DropEqual(s);
    DropWindow(s);
    DropCatalog(s, DoDrop(s));
    DrainWaits(s, DoDrop(s));
    InvIntro(DoDrop(s));
  }

  // ---- the post ---------------------------------------------------------------------------------------------

  lemma PrepareShape(s: State)
    requires CatalogInv(s) && WindowInv(s) && s.flight.Loaded? && s.flight.snap.n <= |s.buf.pending| && !Doubled(s)
    requires s.flight.base < |s.hist|
    ensures var s' := DoPrepare(s);
            && AppendsGen(s, s', Snapshot(s.nextSnap))
            && s'.flight == Posted(Version(s.nextSnap, At(s.base, s.log, s.frozen), s.frozen), s.frozen, s.flight.base, false)
  {
    LoadedBase(s);
  }

  lemma PrepareSeenAs(s: State)
    requires CatalogInv(s) && s.flight.Loaded? && !Doubled(s)
    ensures SeenAs(s.hist, Snapshot(s.nextSnap), s.liveLo, s.frozen)
    ensures forall v: nat :: v < |s.hist| ==> s.hist[v].id != s.nextSnap && s.hist[v].wm <= s.liveLo
  {
    LastLink(s);
  }

  lemma PrepareSeen(s: State, s': State)
    requires CatalogInv(s) && s.flight.Loaded? && !Doubled(s) && AppendsGen(s, s', Snapshot(s.nextSnap))
    requires s'.flight.Posted? && !s'.flight.landed
    ensures AllSeen(s'.hist, s'.buf.flushed, s'.flight) && DoubledOk(s'.hist, s'.liveLo)
  {
    PrepareSeenAs(s);
    assert s'.buf.flushed[..|s.buf.flushed|] == s.buf.flushed;
    forall v: nat | v < |s.hist| ensures s.hist[v].wm <= s.frozen {}
  }

  lemma PrepareCatalog(s: State)
    requires CatalogInv(s) && WindowInv(s) && s.flight.Loaded? && s.flight.snap.n <= |s.buf.pending| && !Doubled(s)
    requires s.flight.base < |s.hist|
    ensures CatalogInv(DoPrepare(s))
  {
    PrepareShape(s);
    PrepareSeenAs(s);
    PrepareSeen(s, DoPrepare(s));
    AppendCatalog(s, DoPrepare(s), Snapshot(s.nextSnap));
  }

  lemma PreparePosted(s: State, s': State)
    requires CatalogInv(s) && WindowInv(s) && s.flight.Loaded? && !Doubled(s)
    requires AppendsGen(s, s', Snapshot(s.nextSnap))
    requires s'.flight == Posted(Version(s.nextSnap, At(s.base, s.log, s.frozen), s.frozen), s.frozen, s.flight.base, false)
    ensures FlightOk(s'.flight, s'.hist, s'.nextSnap, s'.buf, s'.spans, s'.liveLo, s'.frozen, s'.tail.sidecar, s'.base, s'.log)
  {
    PrepareSeenAs(s);
    StampOrder(s.buf);
    DropPrefixShape(s.buf, s.flight.snap.n, s.flight.snap.keyed);
    assert s'.buf.flushed[|s'.buf.flushed| - 1].keyed == s.flight.snap.keyed;
    assert NextStamp(s'.buf) == NextStamp(s.buf);
    assert s'.spans[|s'.spans| - 1] == Span(s.liveLo, s.frozen);
  }

  lemma PrepareWindow(s: State)
    requires CatalogInv(s) && WindowInv(s) && s.flight.Loaded? && s.flight.snap.n <= |s.buf.pending| && !Doubled(s)
    requires s.flight.base < |s.hist|
    ensures WindowInv(DoPrepare(s))
  {
    var s' := DoPrepare(s);
    PrepareShape(s);
    AppendBuf(s, s', Snapshot(s.nextSnap));
    DrainTop(s, s');
    DrainLive(s, s');
    PreparePosted(s, s');
    WindowIntro(s');
  }

  lemma PrepareInv(s: State)
    requires Inv(s) && s.flight.Loaded? && s.flight.snap.n <= |s.buf.pending| && !Doubled(s)
    requires s.flight.base < |s.hist|
    ensures Inv(DoPrepare(s))
  {
    PrepareShape(s);
    PrepareCatalog(s);
    PrepareWindow(s);
    DrainWaits(s, DoPrepare(s));
    InvIntro(DoPrepare(s));
  }
}
