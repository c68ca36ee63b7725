/** A wait ends: acknowledged, failed after a flush claimed the statement, or undone. */
module FailSteps {
  import opened Rows
  import opened Window
  import opened Layers
  import opened Routing
  import opened Undo
  import opened Statements
  import opened Log
  import opened Engine
  import opened Invariants
  import opened WindowSteps
  import opened StageSteps

  // ---- shared --------------------------------------------------------------------------------------

  lemma TraceShrinks(wm: nat, tail: Tail, waiting: map<nat, Wait>, q: nat, spoilt: set<nat>)
    requires TraceOk(wm, tail, waiting) && q in waiting
    ensures TraceOk(wm, tail, waiting - {q})
    ensures TraceOk(wm, tail.(frames := Minus(tail.frames, {q})), waiting - {q})
    ensures TraceOk(wm, tail.(frames := Minus(tail.frames, {q})), Shadow(waiting - {q}, spoilt))
  {
    if wm > 0 && tail.sidecar == 0 {
      var x :| x in tail.frames && x.seqno !in waiting;
      assert x in tail.frames && x.seqno !in waiting - {q};
      MinusIn(tail.frames, {q}, x);
      assert x.seqno !in Shadow(waiting - {q}, spoilt);
    }
  }

  // ---- acknowledged ----------------------------------------------------------------------------------

  /** The same live window: the unresolved sequences and the generations may differ. */
  ghost predicate LikeWindow(b: Buf, b': Buf) {
    b' == b.(undurable := b'.undurable, flushed := b'.flushed)
  }

  lemma LikeRetract(b: Buf, b': Buf, routed: Routed)
    requires LikeWindow(b, b')
    ensures Live(Retract(b', routed)) == Live(Retract(b, routed)) && Live(b') == Live(b)
  {
    UndoEntries(b, routed);
    UndoEntries(b', routed);
  }

  /** The flusher gave up its snapshot, or still holds the same one. */
  ghost predicate FlightLoosens(flight: Flight, flight': Flight) {
    SnapKeyed(flight') == SnapKeyed(flight) || SnapKeyed(flight') == map[]
  }

  lemma LikeUndoOk(q: nat, w: Wait, b: Buf, b': Buf, liveLo: nat, base: Table, log: seq<Stmt>)
    requires UndoOk(q, w.op, w.routed, b, liveLo, base, log) && LikeWindow(b, b')
    ensures UndoOk(q, w.op, w.routed, b', liveLo, base, log)
  {
    LikeRetract(b, b', w.routed);
  }

  lemma LikeWait(s: State, q: nat, w: Wait, b': Buf, flight': Flight)
    requires WaitOk(q, w, s.buf, s.flight, s.liveLo, s.frozen, s.base, s.log, s.failed)
    requires LikeWindow(s.buf, b') && FlightLoosens(s.flight, flight')
    ensures WaitOk(q, w, b', flight', s.liveLo, s.frozen, s.base, s.log, s.failed)
  {
    if q > s.frozen && !w.shadowed {
      LikeUndoOk(q, w, s.buf, b', s.liveLo, s.base, s.log);
    }
  }

  lemma LikeWaits(s: State, s': State)
    requires WaitInv(s) && LikeWindow(s.buf, s'.buf) && FlightLoosens(s.flight, s'.flight)
    requires forall q :: q in s'.waiting ==> q in s.waiting && s'.waiting[q] == s.waiting[q]
    requires s'.liveLo == s.liveLo && s'.frozen == s.frozen && s'.base == s.base && s'.log == s.log && s'.failed == s.failed
    requires s'.keyedTable == s.keyedTable
    ensures WaitInv(s')
  {
    forall q | q in s'.waiting
      ensures WaitOk(q, s'.waiting[q], s'.buf, s'.flight, s'.liveLo, s'.frozen, s'.base, s'.log, s'.failed)
    {
      LikeWait(s, q, s.waiting[q], s'.buf, s'.flight);
    }
    WaitsIntro(s');
  }

  /** Only the set of unresolved sequences changes. */
  ghost predicate SameButUndurable(s: State, s': State) {
    s' == s.(buf := s.buf.(undurable := s'.buf.undurable), waiting := s'.waiting)
  }

  lemma DurableParts(s: State, s': State)
    requires SameButUndurable(s, s') && CatalogInv(s) && WindowInv(s)
    ensures CatalogInv(s') && WindowInv(s')
  {
    DurableWindow(s, s');
  }

  lemma DurableBuf(pk: seq<string>, keyedTable: bool, b: Buf, u: set<nat>)
    requires BufOk(pk, keyedTable, b)
    ensures BufOk(pk, keyedTable, b.(undurable := u))
  {
    var n :| ClaimedPrefix(b.pending, n);
    assert ClaimedPrefix(b.(undurable := u).pending, n);
  }

  lemma LikeSnap(b: Buf, b': Buf, snap: Snap, liveLo: nat, frozen: nat, base: Table, log: seq<Stmt>)
    requires SnapReady(b, snap, liveLo, frozen, base, log) && LikeWindow(b, b')
    ensures SnapReady(b', snap, liveLo, frozen, base, log)
  {}

  lemma DurableFlight(s: State, u: set<nat>)
    requires FlightOk(s.flight, s.hist, s.nextSnap, s.buf, s.spans, s.liveLo, s.frozen, s.tail.sidecar, s.base, s.log)
    ensures FlightOk(s.flight, s.hist, s.nextSnap, s.buf.(undurable := u), s.spans, s.liveLo, s.frozen, s.tail.sidecar, s.base, s.log)
  {
    var b' := s.buf.(undurable := u);
    match s.flight
    case Snapped(snap) => LikeSnap(s.buf, b', snap, s.liveLo, s.frozen, s.base, s.log);
    case Loaded(snap, _) => LikeSnap(s.buf, b', snap, s.liveLo, s.frozen, s.base, s.log);
    case Posted(next, mark, _, landed) =>
      PostedKept(next, mark, landed, s.hist, s.nextSnap, s.buf, b', s.spans, s.liveLo,
                 s.frozen, s.tail.sidecar, s.base, s.log, s.log);
    case _ =>
  }

  lemma DurableTopLive(b: Buf, u: set<nat>, base: Table, log: seq<Stmt>, liveLo: nat, frozen: nat, nextSeq: nat)
    requires TopOk(b, log, liveLo, frozen, nextSeq) && LiveOk(base, log, liveLo, b)
    ensures TopOk(b.(undurable := u), log, liveLo, frozen, nextSeq) && LiveOk(base, log, liveLo, b.(undurable := u))
  {
    assert Live(b.(undurable := u)) == Live(b);
  }

  lemma DurableWindow(s: State, s': State)
    requires SameButUndurable(s, s') && WindowInv(s)
    ensures WindowInv(s')
  {
    var u := s'.buf.undurable;
    DurableBuf(s.pk, s.keyedTable, s.buf, u);
    DurableTopLive(s.buf, u, s.base, s.log, s.liveLo, s.frozen, s.tail.nextSeq);
    DurableFlight(s, u);
    WindowIntro(s');
  }

  lemma AckInv(s: State, q: nat)
    requires Inv(s) && q in s.waiting
    ensures Inv(DoAck(s, q))
  {
    DurableParts(s, DoAck(s, q));
    TraceShrinks(s.hist[LastIdx(s)].wm, s.tail, s.waiting, q, {});
    LikeWaits(s, DoAck(s, q));
  }

  // ---- failed after a claim ----------------------------------------------------------------------------

  lemma MinusFrames(tail: Tail, q: nat)
    requires Sorted(tail.frames) && forall e :: e in tail.frames ==> 1 <= e.seqno < tail.nextSeq
    ensures Sorted(Minus(tail.frames, {q})) && forall e :: e in Minus(tail.frames, {q}) ==> 1 <= e.seqno < tail.nextSeq
  {
    MinusSorted(tail.frames, {q});
    forall e | e in Minus(tail.frames, {q}) ensures 1 <= e.seqno < tail.nextSeq { MinusIn(tail.frames, {q}, e); }
  }

  lemma ClaimedTail(tail: Tail, wm: nat, log: seq<Stmt>, failed: set<nat>, q: nat)
    requires TailOk(tail, wm, log, failed) && q < tail.nextSeq
    ensures TailOk(tail.(frames := Minus(tail.frames, {q})), wm, log, failed + {q})
  {
    var w := Max(wm, tail.sidecar);
    MinusFrames(tail, q);
    AboveMinus(tail.frames, {q}, w);
    MinusTwice(Above(log, w), failed, {q});
  }

  lemma UndoneTail(tail: Tail, wm: nat, log: seq<Stmt>, failed: set<nat>, q: nat)
    requires TailOk(tail, wm, log, failed) && Sorted(log)
    ensures TailOk(tail.(frames := Minus(tail.frames, {q})), wm, Minus(log, {q}), failed)
  {
    var w := Max(wm, tail.sidecar);
    MinusFrames(tail, q);
    AboveMinus(tail.frames, {q}, w);
    AboveMinus(log, {q}, w);
    MinusTwice(Above(log, w), failed, {q});
    MinusTwice(Above(log, w), {q}, failed);
    assert failed + {q} == {q} + failed;
  }

  lemma FailClaimedWaits(s: State, q: nat)
    requires WaitInv(s)
    ensures WaitInv(FailedClaimed(s, q))
  {
    var s' := FailedClaimed(s, q);
    forall p | p in s'.waiting
      ensures WaitOk(p, s'.waiting[p], s'.buf, s'.flight, s'.liveLo, s'.frozen, s'.base, s'.log, s'.failed)
    {
      assert WaitOk(p, s.waiting[p], s.buf, s.flight, s.liveLo, s.frozen, s.base, s.log, s.failed);
    }
    WaitsIntro(s');
  }

  lemma FailClaimedTail(s: State, q: nat, wm: nat)
    requires |s.hist| > 0 && wm == s.hist[LastIdx(s)].wm && q in s.waiting && q < s.tail.nextSeq
    requires TailOk(s.tail, wm, s.log, s.failed) && TraceOk(wm, s.tail, s.waiting)
    ensures TailInv(FailedClaimed(s, q))
  {
    ClaimedTail(s.tail, wm, s.log, s.failed, q);
    TraceShrinks(wm, s.tail, s.waiting, q, {});
    var s' := FailedClaimed(s, q);
    assert s'.hist[LastIdx(s')].wm == wm;
    TailIntro(s');
  }

  lemma FailClaimedInv(s: State, q: nat)
    requires Inv(s) && q in s.waiting
    ensures Inv(FailedClaimed(s, q))
  {
    WaitBelow(s, q);
    FailClaimedTail(s, q, s.hist[LastIdx(s)].wm);
    FailClaimedWaits(s, q);
    var s' := FailedClaimed(s, q);
    assert s' == s.(waiting := s'.waiting, failed := s'.failed, tail := s.tail.(frames := s'.tail.frames));
    CatalogIntro(s');
    WindowIntro(s');
  }

  lemma WaitBelow(s: State, q: nat)
    requires WaitInv(s) && q in s.waiting && LogOk(s.keyedTable, s.base, s.log, s.tail.nextSeq)
    ensures 1 <= q < s.tail.nextSeq && Stmt(q, s.waiting[q].op) in s.log
  {
    assert WaitOk(q, s.waiting[q], s.buf, s.flight, s.liveLo, s.frozen, s.base, s.log, s.failed);
    var e := Stmt(q, s.waiting[q].op);
    assert e in s.log && e.seqno == q;
  }

  // ---- undone --------------------------------------------------------------------------------------------

  /** What an undone statement brings along: it is above the frozen mark and ready to be undone. */
  ghost predicate Undoable(s: State, q: nat, w: Wait) {
    && Stmt(q, w.op) in s.log && q > s.frozen
    && s.buf.tailHigh.Some? && q <= s.buf.tailHigh.value
    && RecordOk(s.buf, w.op, w.routed) && Unclaimed(s.buf, w.routed)
    && UndoReady(q, w, s.buf, s.flight, s.liveLo, s.base, s.log)
    && (s.keyedTable ==> AllAllowed(true, s.base, Minus(s.log, {q})))
  }

  lemma UndoneLog(s: State, q: nat)
    requires LogOk(s.keyedTable, s.base, s.log, s.tail.nextSeq)
    requires s.keyedTable ==> AllAllowed(true, s.base, Minus(s.log, {q}))
    ensures LogOk(s.keyedTable, s.base, Minus(s.log, {q}), s.tail.nextSeq)
  {
    MinusSorted(s.log, {q});
    if !s.keyedTable { AllowedPlain(s.base, s.log, {q}); }
    forall e | e in Minus(s.log, {q}) ensures 1 <= e.seqno < s.tail.nextSeq { MinusIn(s.log, {q}, e); }
  }

  lemma UndoneCatalog(s: State, q: nat, w: Wait)
    requires CatalogInv(s) && Sorted(s.log) && q > s.frozen
    ensures CatalogInv(FailedUndone(s, q, w))
  {
    var s' := FailedUndone(s, q, w);
    AgreeMinus(s.base, s.log, q, s.frozen);
    HistAgree(s.hist, s.base, s.log, s'.log, s.frozen);
    ChainAgree(s.spans, s.liveLo, s.buf.flushed, s.base, s.log, s'.log, s.frozen, s.tail.nextSeq);
    LinkAgree(s.hist, s.served, s.scans, s.spans, s.liveLo, s.buf.flushed, s.base, s.log, s'.log, s.frozen, s.tail.nextSeq);
  }

  lemma UndoneBuf(s: State, q: nat, w: Wait)
    requires BufOk(s.pk, s.keyedTable, s.buf) && RecordOk(s.buf, w.op, w.routed) && Unclaimed(s.buf, w.routed)
    ensures BufOk(s.pk, s.keyedTable, FailedUndone(s, q, w).buf)
  {
    var b' := Retract(s.buf, w.routed);
    RetractWellFormed(s.buf, w.op, w.routed);
    UndoEntries(s.buf, w.routed);
    RestoreSubset(Entries(s.buf), w.routed.keyed);
    if !s.keyedTable { assert Entries(b').Keys == {}; }
    DurableBuf(s.pk, s.keyedTable, b', s.buf.undurable - {q});
  }

  lemma UndoneTop(s: State, q: nat, w: Wait)
    requires TopOk(s.buf, s.log, s.liveLo, s.frozen, s.tail.nextSeq)
    ensures var s' := FailedUndone(s, q, w); TopOk(s'.buf, s'.log, s'.liveLo, s'.frozen, s'.tail.nextSeq)
  {
    var b' := Retract(s.buf, w.routed);
    UndoEntries(s.buf, w.routed);
    RestoreSubset(Entries(s.buf), w.routed.keyed);
    DropIdsFacts(s.buf.pending, IdSet(w.routed.ids));
    if Entries(s.buf) == map[] { assert Entries(b').Keys == {}; }
    forall e | e in Minus(s.log, {q}) ensures e in s.log { MinusIn(s.log, {q}, e); }
  }

  lemma UndoneRow(s: State, q: nat, w: Wait, r: Row)
    requires LiveOk(s.base, s.log, s.liveLo, s.buf) && Sorted(s.log) && Stmt(q, w.op) in s.log
    requires UndoOk(q, w.op, w.routed, s.buf, s.liveLo, s.base, s.log) && OwnBatches(s.buf, w.routed, OpKeys(w.op))
    ensures Apply(At(s.base, s.log, s.liveLo), Live(Retract(s.buf, w.routed)))[r] == Fold(s.base, Minus(s.log, {q}))[r]
  {
    if r.key !in OpKeys(w.op) {
      UndoFrame(At(s.base, s.log, s.liveLo), s.buf, w.routed, OpKeys(w.op), r);
      forall e | e in s.log && e.seqno in {q} ensures r.key !in OpKeys(e.op) {
        OneSeq(s.log, e, Stmt(q, w.op));
      }
      FoldMinusFrame(s.base, s.log, {q}, r);
    }
  }

  lemma UndoneLive(s: State, q: nat, w: Wait)
    requires LiveOk(s.base, s.log, s.liveLo, s.buf) && Sorted(s.log) && Stmt(q, w.op) in s.log && q > s.liveLo
    requires UndoOk(q, w.op, w.routed, s.buf, s.liveLo, s.base, s.log) && OwnBatches(s.buf, w.routed, OpKeys(w.op))
    ensures var s' := FailedUndone(s, q, w); LiveOk(s'.base, s'.log, s'.liveLo, s'.buf)
  {
    var b' := Retract(s.buf, w.routed);
    UptoBelow(s.log, q, s.liveLo);
    var one, two := Apply(At(s.base, s.log, s.liveLo), Live(b')), Fold(s.base, Minus(s.log, {q}));
    forall r: Row ensures one[r] == two[r] { UndoneRow(s, q, w, r); }
    assert one == two;
    assert Live(FailedUndone(s, q, w).buf) == Live(b');
  }

  lemma UndoneSnapOf(b: Buf, routed: Routed, snap: Snap)
    requires SnapOf(b, snap.n, snap.keyed) && ClaimedPrefix(b.pending, snap.n) && Unclaimed(b, routed)
    requires SnapKept(RestoreKeys(Entries(b), routed.keyed), snap.keyed)
    ensures var b' := Retract(b, routed);
            SnapOf(b', snap.n, snap.keyed) && ClaimedPrefix(b'.pending, snap.n) && b'.pending[..snap.n] == b.pending[..snap.n]
  {
    var b', ids := Retract(b, routed), IdSet(routed.ids);
    UndoEntries(b, routed);
    DropIdsClaimed(b.pending, ids, snap.n);
    DropIdsFacts(b.pending[snap.n..], ids);
    forall i, r | snap.n <= i < |b'.pending| && r in b'.pending[i].rows ensures r.key !in snap.keyed {
      var pb := b'.pending[i];
      assert pb == DropIds(b.pending[snap.n..], ids)[i - snap.n];
      assert pb in b.pending[snap.n..];
      var j :| 0 <= j < |b.pending[snap.n..]| && b.pending[snap.n..][j] == pb;
      assert b.pending[snap.n + j] == pb;
    }
  }

  lemma UndoneSnapReady(s: State, q: nat, w: Wait, snap: Snap)
    requires SnapReady(s.buf, snap, s.liveLo, s.frozen, s.base, s.log) && Sorted(s.log)
    requires Undoable(s, q, w) && SnapKeyed(s.flight) == snap.keyed
    ensures SnapReady(FailedUndone(s, q, w).buf, snap, s.liveLo, s.frozen, s.base, Minus(s.log, {q}))
  {
    UndoneSnapOf(s.buf, w.routed, snap);
    UptoBelow(s.log, q, s.liveLo);
    UptoBelow(s.log, q, s.frozen);
    LikeSnap(Retract(s.buf, w.routed), FailedUndone(s, q, w).buf, snap, s.liveLo, s.frozen, s.base, Minus(s.log, {q}));
  }

  lemma UndonePosted(s: State, q: nat, w: Wait)
    requires s.flight.Posted? && Sorted(s.log) && q > s.frozen
    requires PostedOk(s.flight.next, s.flight.mark, s.flight.landed, s.hist, s.nextSnap, s.buf, s.spans,
                      s.liveLo, s.frozen, s.tail.sidecar, s.base, s.log)
    ensures var s' := FailedUndone(s, q, w);
            PostedOk(s.flight.next, s.flight.mark, s.flight.landed, s.hist, s.nextSnap, s'.buf, s.spans,
                     s.liveLo, s.frozen, s.tail.sidecar, s.base, s'.log)
  {
    UptoBelow(s.log, q, s.flight.mark);
    PostedKept(s.flight.next, s.flight.mark, s.flight.landed, s.hist, s.nextSnap, s.buf,
               FailedUndone(s, q, w).buf, s.spans,
               s.liveLo, s.frozen, s.tail.sidecar, s.base, s.log, Minus(s.log, {q}));
  }

  lemma UndoneFlight(s: State, q: nat, w: Wait)
    requires FlightOk(s.flight, s.hist, s.nextSnap, s.buf, s.spans, s.liveLo, s.frozen, s.tail.sidecar, s.base, s.log)
    requires s.liveLo <= s.frozen && |s.hist| > 0 && s.hist[LastIdx(s)].wm <= s.frozen && Sorted(s.log)
    requires Undoable(s, q, w)
    ensures var s' := FailedUndone(s, q, w);
            FlightOk(s.flight, s.hist, s.nextSnap, s'.buf, s.spans, s.liveLo, s.frozen, s.tail.sidecar, s.base, s'.log)
  {
    AgreeMinus(s.base, s.log, q, s.frozen);
    if s.flight.Snapped? || s.flight.Loaded? {
      UndoneSnapReady(s, q, w, s.flight.snap);
    } else if s.flight.Posted? {
      UndonePosted(s, q, w);
    }
    FlightKept(s.flight, s.hist, s.nextSnap, s.buf, FailedUndone(s, q, w).buf, s.spans, s.liveLo, s.frozen,
               s.tail.sidecar, s.base, s.log, Minus(s.log, {q}));
  }

  lemma UndoneWindow(s: State, q: nat, w: Wait)
    requires CatalogInv(s) && WindowInv(s) && Undoable(s, q, w)
    ensures WindowInv(FailedUndone(s, q, w))
  {
    var s' := FailedUndone(s, q, w);
    UndoneLog(s, q);
    UndoneBuf(s, q, w);
    UndoneTop(s, q, w);
    UndoneLive(s, q, w);
    UndoneFlight(s, q, w);
    assert s' == s.(buf := s'.buf, log := s'.log, tail := s.tail.(frames := s'.tail.frames), waiting := s'.waiting);
    WindowIntro(s');
  }

  lemma UndoneTailInv(s: State, q: nat, w: Wait, wm: nat)
    requires |s.hist| > 0 && wm == s.hist[LastIdx(s)].wm && q in s.waiting && Sorted(s.log)
    requires TailOk(s.tail, wm, s.log, s.failed) && TraceOk(wm, s.tail, s.waiting)
    ensures TailInv(FailedUndone(s, q, w))
  {
    UndoneTail(s.tail, wm, s.log, s.failed, q);
    TraceShrinks(wm, s.tail, s.waiting, q, SpoiltByUndo(s.keyedTable, s.waiting, OpKeys(w.op)));
    var s' := FailedUndone(s, q, w);
    assert s'.hist[LastIdx(s')].wm == wm;
    TailIntro(s');
  }

  // ---- undone, seen by the others ------------------------------------------------------------------------

  lemma FewerBatches(b: Buf, b': Buf, op: Op, routed: Routed)
    requires forall pb :: pb in b'.pending ==> pb in b.pending
    requires b'.nextId == b.nextId && NextStamp(b') == NextStamp(b)
    requires RecordOk(b, op, routed)
    ensures RecordOk(b', op, routed)
  {
    forall i | 0 <= i < |b'.pending| ensures exists j :: 0 <= j < |b.pending| && b.pending[j] == b'.pending[i] {
      assert b'.pending[i] in b.pending;
    }
  }

  lemma FewerClaims(b: Buf, b': Buf, routed: Routed)
    requires forall pb :: pb in b'.pending ==> pb in b.pending
    requires ClaimedBelow(b') == ClaimedBelow(b)
    ensures WhollyClaimed(b, routed) ==> WhollyClaimed(b', routed)
    ensures Unclaimed(b, routed) ==> Unclaimed(b', routed)
  {
    forall i | 0 <= i < |b'.pending| ensures exists j :: 0 <= j < |b.pending| && b.pending[j] == b'.pending[i] {
      assert b'.pending[i] in b.pending;
    }
  }

  lemma OthersPlaces(b: Buf, gone: Routed, u: set<nat>, op: Op, routed: Routed)
    requires RecordOk(b, op, routed)
    ensures var b' := Retract(b, gone).(undurable := u);
            && RecordOk(b', op, routed)
            && (WhollyClaimed(b, routed) ==> WhollyClaimed(b', routed))
            && (Unclaimed(b, routed) ==> Unclaimed(b', routed))
  {
    var b' := Retract(b, gone).(undurable := u);
    DropIdsFacts(b.pending, IdSet(gone.ids));
    FewerBatches(b, b', op, routed);
    FewerClaims(b, b', routed);
  }

  lemma OthersUndoOk(s: State, q: nat, w: Wait, p: nat, v: Wait)
    requires UndoOk(p, v.op, v.routed, s.buf, s.liveLo, s.base, s.log)
    requires Sorted(s.log) && Stmt(q, w.op) in s.log && q > s.liveLo
    requires OwnBatches(s.buf, w.routed, OpKeys(w.op)) && OpKeys(w.op) !! OpKeys(v.op)
    ensures UndoOk(p, v.op, v.routed, FailedUndone(s, q, w).buf, s.liveLo, s.base, Minus(s.log, {q}))
  {
    var b', log' := FailedUndone(s, q, w).buf, Minus(s.log, {q});
    UptoBelow(s.log, q, s.liveLo);
    forall r: Row | r.key in OpKeys(v.op)
      ensures Apply(At(s.base, log', s.liveLo), Live(Retract(b', v.routed)))[r] == Fold(s.base, Minus(log', {p}))[r]
    {
      LikeRetract(Retract(s.buf, w.routed), b', v.routed);
      RetractTwiceAt(s.buf, w.routed, OpKeys(w.op), v.routed, At(s.base, s.log, s.liveLo), r);
      OthersFold(s.base, s.log, q, w.op, p, r);
    }
  }

  lemma OthersFold(base: Table, log: seq<Stmt>, q: nat, op: Op, p: nat, r: Row)
    requires Sorted(log) && Stmt(q, op) in log && r.key !in OpKeys(op)
    ensures Fold(base, Minus(Minus(log, {q}), {p}))[r] == Fold(base, Minus(log, {p}))[r]
  {
    MinusTwice(log, {q}, {p});
    MinusTwice(log, {p}, {q});
    assert {q} + {p} == {p} + {q};
    forall e | e in Minus(log, {p}) && e.seqno in {q} ensures r.key !in OpKeys(e.op) {
      MinusIn(log, {p}, e);
      OneSeq(log, e, Stmt(q, op));
    }
    FoldMinusFrame(base, Minus(log, {p}), {q}, r);
  }

  lemma OthersReady(s: State, q: nat, w: Wait, p: nat, v: Wait)
    requires UndoReady(p, v, s.buf, s.flight, s.liveLo, s.base, s.log) && Undoable(s, q, w)
    requires Sorted(s.log) && q > s.liveLo && OpKeys(w.op) !! OpKeys(v.op) && RecordOk(s.buf, v.op, v.routed)
    ensures UndoReady(p, v, FailedUndone(s, q, w).buf, s.flight, s.liveLo, s.base, Minus(s.log, {q}))
  {
    OthersUndoOk(s, q, w, p, v);
    SnapKeptTwice(Entries(s.buf), w.routed.keyed, v.routed.keyed, OpKeys(v.op), SnapKeyed(s.flight));
    UndoEntries(s.buf, w.routed);
  }

  // ---- ... on a table without keyed operations -------------------------------------------------------------

  /** Rows that stand in batches of their own can be taken out whatever else is there. */
  lemma PlainUndoOk(s: State, q: nat, w: Wait)
    requires LogOk(s.keyedTable, s.base, s.log, s.tail.nextSeq) && !s.keyedTable && Entries(s.buf) == map[]
    requires LiveOk(s.base, s.log, s.liveLo, s.buf) && Stmt(q, w.op) in s.log && PlainRows(s.buf.pending, w)
    ensures UndoOk(q, w.op, w.routed, s.buf, s.liveLo, s.base, s.log)
  {
    var c := At(s.base, s.log, s.liveLo);
    UndoEntries(s.buf, w.routed);
    RestoreSubset(Entries(s.buf), w.routed.keyed);
    forall r: Row | r.key in OpKeys(w.op)
      ensures Apply(c, Live(Retract(s.buf, w.routed)))[r] == Fold(s.base, Minus(s.log, {q}))[r]
    {
      PlainMinusAt(s.base, s.log, Stmt(q, w.op), r);
    }
  }

  lemma PlainReady(s: State, q: nat, w: Wait)
    requires LogOk(s.keyedTable, s.base, s.log, s.tail.nextSeq) && BufOk(s.pk, s.keyedTable, s.buf) && !s.keyedTable
    requires LiveOk(s.base, s.log, s.liveLo, s.buf) && Stmt(q, w.op) in s.log && PlainRows(s.buf.pending, w)
    requires SnapKeyed(s.flight) == map[]
    ensures UndoReady(q, w, s.buf, s.flight, s.liveLo, s.base, s.log)
  {
    PlainUndoOk(s, q, w);
  }

  lemma PlainSnap(s: State)
    requires WindowInv(s) && !s.keyedTable
    ensures SnapKeyed(s.flight) == map[]
  {
    if s.flight.Snapped? || s.flight.Loaded? {
      assert forall k :: k in s.flight.snap.keyed ==> k in Entries(s.buf);
    }
  }

  lemma {:induction false} DropApart(pending: seq<Batch>, gone: set<nat>, ids: set<nat>, r: Row)
    requires gone !! ids
    ensures Bag(RowsOf(DropIds(DropIds(pending, gone), ids)))[r] + Bag(RowsOf(pending))[r]
         == Bag(RowsOf(DropIds(pending, gone)))[r] + Bag(RowsOf(DropIds(pending, ids)))[r]
  {
    if |pending| > 0 {
      var init, last := pending[..|pending| - 1], pending[|pending| - 1];
      DropApart(init, gone, ids, r);
      assert pending == init + [last];
      DropSnoc(init, last, gone);
      DropBagSnoc(init, last, gone, r);
      DropBagSnoc(init, last, ids, r);
      DropBagSnoc(DropIds(init, gone), last, ids, r);
      BagSnoc(init, last, r);
    }
  }

  lemma DropBagSnoc(init: seq<Batch>, last: Batch, ids: set<nat>, r: Row)
    ensures Bag(RowsOf(DropIds(init + [last], ids)))[r]
         == Bag(RowsOf(DropIds(init, ids)))[r] + (if last.id in ids then 0 else multiset(last.rows)[r])
  {
    DropSnoc(init, last, ids);
    BagSnoc(DropIds(init, ids), last, r);
  }

  lemma DropSnoc(init: seq<Batch>, last: Batch, ids: set<nat>)
    ensures DropIds(init + [last], ids) == DropIds(init, ids) + (if last.id in ids then [] else [last])
  {
    assert (init + [last])[..|init|] == init;
  }

  lemma BagSnoc(init: seq<Batch>, last: Batch, r: Row)
    ensures Bag(RowsOf(init + [last]))[r] == Bag(RowsOf(init))[r] + multiset(last.rows)[r]
  {
    RowsOfSnoc(init, last);
  }

  lemma PlainApart(pending: seq<Batch>, gone: Wait, w: Wait)
    requires PlainRows(pending, gone) && PlainRows(pending, w) && IdSet(gone.routed.ids) !! IdSet(w.routed.ids)
    ensures PlainRows(DropIds(pending, IdSet(gone.routed.ids)), w)
  {
    forall r: Row
      ensures Bag(RowsOf(DropIds(DropIds(pending, IdSet(gone.routed.ids)), IdSet(w.routed.ids))))[r]
              + multiset(Flatten(w.op.batches))[r] == Bag(RowsOf(DropIds(pending, IdSet(gone.routed.ids))))[r]
    {
      DropApart(pending, IdSet(gone.routed.ids), IdSet(w.routed.ids), r);
    }
  }

  lemma UndonePlain(s: State, q: nat)
    requires PlainOk(s.keyedTable, s.waiting, s.frozen, s.buf) && q in s.waiting && q > s.frozen
    ensures var s' := FailedUndone(s, q, s.waiting[q]); PlainOk(s'.keyedTable, s'.waiting, s'.frozen, s'.buf)
  {
    var w, s' := s.waiting[q], FailedUndone(s, q, s.waiting[q]);
    if !s.keyedTable {
      forall p | p in s'.waiting && p > s'.frozen ensures PlainRows(s'.buf.pending, s'.waiting[p]) {
        PlainApart(s.buf.pending, w, s.waiting[p]);
        SamePlain(s'.buf.pending, s.waiting[p], s'.waiting[p]);
      }
    }
  }

  lemma UndoneAllowed(s: State, q: nat)
    requires UndoAllowed(s.keyedTable, s.waiting, s.frozen, s.base, s.log) && Sorted(s.log)
    requires WaitsOk(s.waiting, s.buf, s.flight, s.liveLo, s.frozen, s.base, s.log, s.failed)
    requires s.keyedTable ==> AllAllowed(true, s.base, s.log)
    requires q in s.waiting && q > s.frozen && !s.waiting[q].shadowed
    ensures var s' := FailedUndone(s, q, s.waiting[q]);
            UndoAllowed(s'.keyedTable, s'.waiting, s'.frozen, s'.base, s'.log)
  {
    var w, s' := s.waiting[q], FailedUndone(s, q, s.waiting[q]);
    if s.keyedTable {
      forall p | p in s'.waiting && p > s'.frozen && !s'.waiting[p].shadowed
        ensures AllAllowed(true, s.base, Minus(Minus(s.log, {q}), {p}))
      {
        var v := s.waiting[p];
        Unshadowed(s.waiting - {q}, SpoiltByUndo(s.keyedTable, s.waiting, OpKeys(w.op)), p);
        Unmet(s.keyedTable, s.waiting, OpKeys(w.op), p);
        WaitNames(s, q);
        WaitNames(s, p);
        AllowedTwice(s.base, s.log, q, OpKeys(w.op), p, OpKeys(v.op));
      }
    }
  }

  lemma WaitNames(s: State, q: nat)
    requires WaitsOk(s.waiting, s.buf, s.flight, s.liveLo, s.frozen, s.base, s.log, s.failed) && Sorted(s.log)
    requires q in s.waiting
    ensures NamesOnly(s.log, q, OpKeys(s.waiting[q].op))
  {
    assert WaitOk(q, s.waiting[q], s.buf, s.flight, s.liveLo, s.frozen, s.base, s.log, s.failed);
    forall e | e in s.log && e.seqno == q ensures e.op == s.waiting[q].op { OneSeq(s.log, e, Stmt(q, s.waiting[q].op)); }
  }

  // ---- the others after the undo ------------------------------------------------------------------------------

  lemma OthersWait(s: State, q: nat, w: Wait, p: nat)
    requires p in s.waiting && p != q && Undoable(s, q, w) && Sorted(s.log) && q > s.liveLo
    requires WaitOk(p, s.waiting[p], s.buf, s.flight, s.liveLo, s.frozen, s.base, s.log, s.failed)
    requires var s' := FailedUndone(s, q, w);
             !s.keyedTable && p > s.frozen ==> UndoReady(p, s.waiting[p], s'.buf, s'.flight, s'.liveLo, s'.base, s'.log)
    ensures var s' := FailedUndone(s, q, w);
            WaitOk(p, s'.waiting[p], s'.buf, s'.flight, s'.liveLo, s'.frozen, s'.base, s'.log, s'.failed)
  {
    var v, s' := s.waiting[p], FailedUndone(s, q, w);
    OthersPlaces(s.buf, w.routed, s.buf.undurable - {q}, v.op, v.routed);
    MinusIn(s.log, {q}, Stmt(p, v.op));
    if p > s.frozen && !s'.waiting[p].shadowed && s.keyedTable {
      Unshadowed(s.waiting - {q}, SpoiltByUndo(s.keyedTable, s.waiting, OpKeys(w.op)), p);
      Unmet(s.keyedTable, s.waiting, OpKeys(w.op), p);
      OthersReady(s, q, w, p, v);
    }
    WaitIntro(p, s'.waiting[p], s'.buf, s'.flight, s'.liveLo, s'.frozen, s'.base, s'.log, s'.failed);
  }

  lemma OthersPlain(s: State, q: nat, p: nat)
    requires q in s.waiting && !s.keyedTable
    requires var s' := FailedUndone(s, q, s.waiting[q]);
             && WindowInv(s') && PlainOk(false, s'.waiting, s'.frozen, s'.buf)
    requires p in s.waiting && p != q && p > s.frozen && Stmt(p, s.waiting[p].op) in s.log
    ensures var s' := FailedUndone(s, q, s.waiting[q]);
            UndoReady(p, s.waiting[p], s'.buf, s'.flight, s'.liveLo, s'.base, s'.log)
  {
    var s' := FailedUndone(s, q, s.waiting[q]);
    MinusIn(s.log, {q}, Stmt(p, s.waiting[p].op));
    SamePlain(s'.buf.pending, s'.waiting[p], s.waiting[p]);
    PlainSnap(s');
    PlainReady(s', p, s.waiting[p]);
  }

  lemma UndoneWaits(s: State, q: nat)
    requires CatalogInv(s) && WindowInv(s) && WaitInv(s) && q in s.waiting && !s.waiting[q].shadowed
    requires Undoable(s, q, s.waiting[q]) && WindowInv(FailedUndone(s, q, s.waiting[q]))
    ensures WaitInv(FailedUndone(s, q, s.waiting[q]))
  {
    var s' := FailedUndone(s, q, s.waiting[q]);
    UndonePlain(s, q);
    UndoneAllowed(s, q);
    forall p | p in s'.waiting
      ensures WaitOk(p, s'.waiting[p], s'.buf, s'.flight, s'.liveLo, s'.frozen, s'.base, s'.log, s'.failed)
    {
      assert WaitOk(p, s.waiting[p], s.buf, s.flight, s.liveLo, s.frozen, s.base, s.log, s.failed);
      if !s.keyedTable && p > s.frozen { OthersPlain(s, q, p); }
      OthersWait(s, q, s.waiting[q], p);
    }
    WaitsIntro(s');
  }

  lemma UndoneInv(s: State, q: nat)
    requires Inv(s) && q in s.waiting && !s.waiting[q].shadowed && Undoable(s, q, s.waiting[q])
    ensures Inv(FailedUndone(s, q, s.waiting[q]))
  {
    var w := s.waiting[q];
    UndoneCatalog(s, q, w);
    UndoneWindow(s, q, w);
    UndoneTailInv(s, q, w, s.hist[LastIdx(s)].wm);
    UndoneWaits(s, q);
    InvIntro(FailedUndone(s, q, w));
  }

  lemma FailInv(s: State, q: nat)
    requires Inv(s) && q in s.waiting && (Claimed(s.buf, s.waiting[q].routed) || !s.waiting[q].shadowed)
    ensures Inv(DoFail(s, q))
  {
    var w := s.waiting[q];
    if Claimed(s.buf, w.routed) {
      FailClaimedInv(s, q);
    } else {
      UnclaimedUndoable(s, q);
      UndoneInv(s, q);
    }
  }

  lemma UnclaimedUndoable(s: State, q: nat)
    requires WaitInv(s) && q in s.waiting && !Claimed(s.buf, s.waiting[q].routed) && !s.waiting[q].shadowed
    ensures Undoable(s, q, s.waiting[q])
  {
    assert WaitOk(q, s.waiting[q], s.buf, s.flight, s.liveLo, s.frozen, s.base, s.log, s.failed);
    if q <= s.frozen {
      WhollyClaimedIsClaimed(s.buf, s.waiting[q].routed);
    }
  }
}
