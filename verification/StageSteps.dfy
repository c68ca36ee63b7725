/** Statements: staging one, acknowledging it, undoing it. */
module StageSteps {
  import opened Rows
  import opened Window
  import opened Layers
  import opened Routing
  import opened Undo
  import opened Statements
  import opened Log
  import opened Engine
  import opened Invariants
  import opened WindowSteps

  // ---- staging ---------------------------------------------------------------------------------

  lemma StageCatalog(s: State, op: Op)
    requires CatalogInv(s) && !PkChanged(s.buf, s.pk)
    ensures CatalogInv(DoStage(s, op))
  {
    var sq := s.tail.nextSeq;
    StmtFacts(s.buf, s.pk, op, Some(sq), None);
    AgreeSnoc(s.base, s.log, Stmt(sq, op), s.frozen);
    var s' := DoStage(s, op);
    HistAgree(s.hist, s.base, s.log, s'.log, s.frozen);
    ChainAgree(s.spans, s.liveLo, s.buf.flushed, s.base, s.log, s'.log, s.frozen, s.tail.nextSeq);
    LinkAgree(s.hist, s.served, s.scans, s.spans, s.liveLo, s.buf.flushed, s.base, s.log, s'.log, s.frozen, s.tail.nextSeq);
  }

  lemma StageSorted(log: seq<Stmt>, e: Stmt)
    requires e.seqno >= 1 && Sorted(log) && forall x :: x in log ==> 1 <= x.seqno < e.seqno
    ensures Sorted(log + [e]) && forall x :: x in log + [e] ==> 1 <= x.seqno < e.seqno + 1
  {
    assert forall i :: 0 <= i < |log| ==> log[i] in log;
  }

  lemma StageAllowed(keyedTable: bool, base: Table, log: seq<Stmt>, e: Stmt)
    requires AllAllowed(keyedTable, base, log) && Allowed(keyedTable, Fold(base, log), e.op)
    ensures AllAllowed(keyedTable, base, log + [e])
  {
    SnocInit(log, e);
  }

  lemma StageLog(s: State, op: Op)
    requires LogOk(s.keyedTable, s.base, s.log, s.tail.nextSeq)
    requires s.tail.nextSeq >= 1 && Allowed(s.keyedTable, Logical(s), op)
    ensures LogOk(s.keyedTable, s.base, s.log + [Stmt(s.tail.nextSeq, op)], s.tail.nextSeq + 1)
  {
    StageSorted(s.log, Stmt(s.tail.nextSeq, op));
    StageAllowed(s.keyedTable, s.base, s.log, Stmt(s.tail.nextSeq, op));
  }

  /** On every allowed statement the window is in order for routing to mean the statement. */
  lemma AllowedRoutes(keyedTable: bool, b: Buf, c: Table, t: Table, op: Op)
    requires Allowed(keyedTable, t, op) && Apply(c, Live(b)) == t
    requires !keyedTable ==> Entries(b) == map[]
    ensures op.Insert? ==> HitsAreDeleted(b, Flatten(op.batches))
    ensures op.Insert? ==> DistinctKeys(Hits(Flatten(op.batches), Entries(b).Keys))
  {
    if op.Insert? {
      if keyedTable {
        AbsentKeysHitDeletes(b, Flatten(op.batches), c);
        HitsDistinct(Flatten(op.batches), Entries(b).Keys);
      } else {
        assert Entries(b).Keys == {};
        NoKeys(Flatten(op.batches));
      }
    }
  }

  lemma StageLive(s: State, op: Op)
    requires LiveOk(s.base, s.log, s.liveLo, s.buf) && s.liveLo < s.tail.nextSeq
    requires !PkChanged(s.buf, s.pk) && BufOk(s.pk, s.keyedTable, s.buf)
    requires Allowed(s.keyedTable, Logical(s), op)
    ensures var s' := DoStage(s, op); LiveOk(s'.base, s'.log, s'.liveLo, s'.buf)
  {
    var sq := s.tail.nextSeq;
    var c := At(s.base, s.log, s.liveLo);
    AllowedRoutes(s.keyedTable, s.buf, c, Logical(s), op);
    StmtDenotes(s.buf, s.pk, op, Some(sq), None, c);
    UptoSnoc(s.log, Stmt(sq, op), s.liveLo);
    FoldSnoc(s.base, s.log, Stmt(sq, op));
  }

  lemma StageBuf(s: State, op: Op)
    requires BufOk(s.pk, s.keyedTable, s.buf) && !PkChanged(s.buf, s.pk)
    requires Allowed(s.keyedTable, Logical(s), op)
    ensures BufOk(s.pk, s.keyedTable, DoStage(s, op).buf)
  {
    var sq := s.tail.nextSeq;
    StmtFacts(s.buf, s.pk, op, Some(sq), None);
    StmtPk(s.buf, s.pk, op, Some(sq), None);
    StmtWellFormed(s.buf, s.pk, op, Some(sq), None);
  }

  lemma StageTop(s: State, op: Op)
    requires TopOk(s.buf, s.log, s.liveLo, s.frozen, s.tail.nextSeq) && !PkChanged(s.buf, s.pk)
    requires MarksOk(s.spans, s.liveLo, s.frozen, s.tail.nextSeq)
    requires LogOk(s.keyedTable, s.base, s.log, s.tail.nextSeq)
    ensures var s' := DoStage(s, op); TopOk(s'.buf, s'.log, s'.liveLo, s'.frozen, s'.tail.nextSeq)
  {
    StmtFacts(s.buf, s.pk, op, Some(s.tail.nextSeq), None);
  }

  lemma StageSnapOf(b: Buf, b': Buf, op: Op, sq: Option<nat>, snap: Snap)
    requires SnapOf(b, snap.n, snap.keyed) && OpsBelow(snap.keyed, NextStamp(b))
    requires NewBatches(b, b', op, sq) && NewEntries(b, b', op, sq)
    ensures SnapOf(b', snap.n, snap.keyed)
  {
    forall i, r | snap.n <= i < |b'.pending| && r in b'.pending[i].rows ensures r.key !in snap.keyed {
      if i < |b.pending| {
        assert b'.pending[i] == b.pending[i];
      } else {
        assert r.key !in Entries(b);
      }
    }
  }

  lemma StampOrder(b: Buf)
    requires StampsBelow(b)
    ensures ClaimedBelow(b) <= NextStamp(b)
  {}

  lemma StagePrefix(b: Buf, b': Buf, op: Op, sq: Option<nat>, n: nat)
    requires ClaimedPrefix(b.pending, n) && NewBatches(b, b', op, sq)
    ensures ClaimedPrefix(b'.pending, n) && b'.pending[..n] == b.pending[..n]
  {}

  lemma StageSnapReady(s: State, op: Op, snap: Snap)
    requires SnapReady(s.buf, snap, s.liveLo, s.frozen, s.base, s.log) && StampsBelow(s.buf)
    requires !PkChanged(s.buf, s.pk) && s.frozen < s.tail.nextSeq
    ensures var s' := DoStage(s, op); SnapReady(s'.buf, snap, s.liveLo, s.frozen, s.base, s'.log)
  {
    var sq := s.tail.nextSeq;
    var s' := DoStage(s, op);
    StmtFacts(s.buf, s.pk, op, Some(sq), None);
    StampOrder(s.buf);
    StageSnapOf(s.buf, s'.buf, op, Some(sq), snap);
    StagePrefix(s.buf, s'.buf, op, Some(sq), snap.n);
    UptoSnoc(s.log, Stmt(sq, op), s.liveLo);
    UptoSnoc(s.log, Stmt(sq, op), s.frozen);
  }

  /** A posted commit only cares for the newest generation and the table at its mark. */
  lemma PostedKept(
    next: Version, mark: nat, landed: bool, hist: seq<Version>, nextSnap: nat, b: Buf, b': Buf,
    spans: seq<Span>, liveLo: nat, frozen: nat, sidecar: nat, base: Table, log: seq<Stmt>, log': seq<Stmt>)
    requires PostedOk(next, mark, landed, hist, nextSnap, b, spans, liveLo, frozen, sidecar, base, log)
    requires b'.flushed == b.flushed && b'.tailHigh.Some? && ClaimedBelow(b) <= ClaimedBelow(b')
    requires At(base, log', mark) == At(base, log, mark)
    ensures PostedOk(next, mark, landed, hist, nextSnap, b', spans, liveLo, frozen, sidecar, base, log')
  {}

  lemma StagePosted(s: State, op: Op)
    requires s.flight.Posted? && !PkChanged(s.buf, s.pk) && s.frozen < s.tail.nextSeq
    requires PostedOk(s.flight.next, s.flight.mark, s.flight.landed, s.hist, s.nextSnap, s.buf, s.spans,
                      s.liveLo, s.frozen, s.tail.sidecar, s.base, s.log)
    ensures var s' := DoStage(s, op);
            PostedOk(s.flight.next, s.flight.mark, s.flight.landed, s.hist, s.nextSnap, s'.buf, s.spans,
                     s.liveLo, s.frozen, s.tail.sidecar, s.base, s'.log)
  {
    var sq := s.tail.nextSeq;
    StmtFacts(s.buf, s.pk, op, Some(sq), None);
    UptoSnoc(s.log, Stmt(sq, op), s.flight.mark);
    PostedKept(s.flight.next, s.flight.mark, s.flight.landed, s.hist, s.nextSnap, s.buf,
               RouteStmt(s.buf, s.pk, op, Some(sq), None).buf, s.spans,
               s.liveLo, s.frozen, s.tail.sidecar, s.base, s.log, s.log + [Stmt(sq, op)]);
  }

  /** What the flusher holds stays good. */
  lemma StageHolds(s: State, op: Op)
    requires FlightOk(s.flight, s.hist, s.nextSnap, s.buf, s.spans, s.liveLo, s.frozen, s.tail.sidecar, s.base, s.log)
    requires StampsBelow(s.buf) && !PkChanged(s.buf, s.pk) && s.frozen < s.tail.nextSeq
    ensures var b', log' := DoStage(s, op).buf, s.log + [Stmt(s.tail.nextSeq, op)];
            && (s.flight.Snapped? || s.flight.Loaded? ==> SnapReady(b', s.flight.snap, s.liveLo, s.frozen, s.base, log'))
            && (s.flight.Posted? ==>
                  PostedOk(s.flight.next, s.flight.mark, s.flight.landed, s.hist, s.nextSnap, b', s.spans, s.liveLo,
                           s.frozen, s.tail.sidecar, s.base, log'))
  {
    if s.flight.Snapped? || s.flight.Loaded? {
      StageSnapReady(s, op, s.flight.snap);
    } else if s.flight.Posted? {
      StagePosted(s, op);
    }
  }

  lemma StageFlight(s: State, op: Op)
    requires FlightOk(s.flight, s.hist, s.nextSnap, s.buf, s.spans, s.liveLo, s.frozen, s.tail.sidecar, s.base, s.log)
    requires StampsBelow(s.buf) && !PkChanged(s.buf, s.pk)
    requires s.liveLo <= s.frozen < s.tail.nextSeq && |s.hist| > 0 && s.hist[LastIdx(s)].wm <= s.frozen
    ensures var s' := DoStage(s, op);
            FlightOk(s.flight, s.hist, s.nextSnap, s'.buf, s.spans, s.liveLo, s.frozen, s.tail.sidecar, s.base, s'.log)
  {
    var e := Stmt(s.tail.nextSeq, op);
    AgreeSnoc(s.base, s.log, e, s.frozen);
    StageHolds(s, op);
    FlightKept(s.flight, s.hist, s.nextSnap, s.buf, DoStage(s, op).buf, s.spans, s.liveLo, s.frozen,
               s.tail.sidecar, s.base, s.log, s.log + [e]);
  }

  lemma StageWindowFrom(s: State, op: Op, a: Acc)
    requires LogOk(s.keyedTable, s.base, s.log + [Stmt(s.tail.nextSeq, op)], s.tail.nextSeq + 1)
    requires BufOk(s.pk, s.keyedTable, a.buf)
    requires TopOk(a.buf, s.log + [Stmt(s.tail.nextSeq, op)], s.liveLo, s.frozen, s.tail.nextSeq + 1)
    requires LiveOk(s.base, s.log + [Stmt(s.tail.nextSeq, op)], s.liveLo, a.buf)
    requires FlightOk(s.flight, s.hist, s.nextSnap, a.buf, s.spans, s.liveLo, s.frozen, s.tail.sidecar, s.base,
                      s.log + [Stmt(s.tail.nextSeq, op)])
    ensures WindowInv(Staged(s, op, a))
  {
    WindowIntro(Staged(s, op, a));
  }

  lemma StageWindow(s: State, op: Op)
    requires LogOk(s.keyedTable, s.base, s.log, s.tail.nextSeq) && BufOk(s.pk, s.keyedTable, s.buf)
    requires TopOk(s.buf, s.log, s.liveLo, s.frozen, s.tail.nextSeq) && LiveOk(s.base, s.log, s.liveLo, s.buf)
    requires FlightOk(s.flight, s.hist, s.nextSnap, s.buf, s.spans, s.liveLo, s.frozen, s.tail.sidecar, s.base, s.log)
    requires MarksOk(s.spans, s.liveLo, s.frozen, s.tail.nextSeq) && |s.hist| > 0 && s.hist[LastIdx(s)].wm <= s.frozen
    requires !PkChanged(s.buf, s.pk) && Allowed(s.keyedTable, Logical(s), op)
    ensures WindowInv(DoStage(s, op))
  {
    StageLog(s, op);
    StageBuf(s, op);
    StageTop(s, op);
    StageLive(s, op);
    StageFlight(s, op);
    StageWindowFrom(s, op, RouteStmt(s.buf, s.pk, op, Some(s.tail.nextSeq), None));
  }

  lemma StageTrace(wm: nat, tail: Tail, waiting: map<nat, Wait>, e: Stmt, spoilt: set<nat>, w: Wait)
    requires TraceOk(wm, tail, waiting)
    requires e.seqno == tail.nextSeq && forall x :: x in tail.frames ==> x.seqno < tail.nextSeq
    ensures TraceOk(wm, tail.(frames := tail.frames + [e], nextSeq := e.seqno + 1), Shadow(waiting, spoilt)[e.seqno := w])
  {
    if wm > 0 && tail.sidecar == 0 {
      var x :| x in tail.frames && x.seqno !in waiting;
      assert x in tail.frames + [e] && x.seqno !in Shadow(waiting, spoilt)[e.seqno := w];
    }
  }

  lemma StageTailOk(tail: Tail, wm: nat, log: seq<Stmt>, failed: set<nat>, e: Stmt)
    requires TailOk(tail, wm, log, failed) && e.seqno == tail.nextSeq > Max(wm, tail.sidecar)
    ensures TailOk(tail.(frames := tail.frames + [e], nextSeq := e.seqno + 1), wm, log + [e], failed)
  {
    var w := Max(wm, tail.sidecar);
    UptoSnoc(tail.frames, e, w);
    UptoSnoc(log, e, w);
    MinusSnoc(Above(log, w), e, failed);
  }

  lemma StageTailParts(s: State, op: Op, a: Acc, wm: nat)
    requires |s.hist| > 0 && wm == s.hist[LastIdx(s)].wm && s.tail.nextSeq > Max(wm, s.tail.sidecar)
    requires TailOk(s.tail, wm, s.log, s.failed)
    ensures var s' := Staged(s, op, a); TailOk(s'.tail, wm, s'.log, s'.failed)
  {
    StageTailOk(s.tail, wm, s.log, s.failed, Stmt(s.tail.nextSeq, op));
  }

  lemma StageTraceParts(s: State, op: Op, a: Acc, wm: nat)
    requires |s.hist| > 0 && wm == s.hist[LastIdx(s)].wm && TraceOk(wm, s.tail, s.waiting)
    requires forall x :: x in s.tail.frames ==> x.seqno < s.tail.nextSeq
    ensures var s' := Staged(s, op, a); TraceOk(wm, s'.tail, s'.waiting)
  {
    StageTrace(wm, s.tail, s.waiting, Stmt(s.tail.nextSeq, op), SpoiltByStage(s, op), Wait(op, a.routed, false));
  }

  lemma StageTail(s: State, op: Op, a: Acc, wm: nat)
    requires |s.hist| > 0 && wm == s.hist[LastIdx(s)].wm && s.tail.nextSeq > Max(wm, s.tail.sidecar)
    requires TailOk(s.tail, wm, s.log, s.failed) && TraceOk(wm, s.tail, s.waiting)
    ensures TailInv(Staged(s, op, a))
  {
    StageTailParts(s, op, a, wm);
    StageTraceParts(s, op, a, wm);
    var s' := Staged(s, op, a);
    assert s'.hist[LastIdx(s')].wm == wm;
    TailIntro(s');
  }

  // ---- staging, seen by the statements still waiting ------------------------------------------------

  lemma StageRecord(b: Buf, b': Buf, op: Op, sq: Option<nat>, other: Op, routed: Routed)
    requires RecordOk(b, other, routed) && NewBatches(b, b', op, sq) && NewEntries(b, b', op, sq)
    ensures RecordOk(b', other, routed)
  {}

  lemma StageStrong(b: Buf, b': Buf, op: Op, sq: Option<nat>, other: Op, routed: Routed)
    requires WhollyClaimed(b, routed) && RecordOk(b, other, routed)
    requires NewBatches(b, b', op, sq) && NewEntries(b, b', op, sq)
    ensures WhollyClaimed(b', routed)
  {}

  lemma StageUnclaimed(b: Buf, b': Buf, op: Op, sq: Option<nat>, routed: Routed)
    requires Unclaimed(b, routed) && NewBatches(b, b', op, sq) && NewEntries(b, b', op, sq)
    ensures Unclaimed(b', routed)
  {}

  /** Routing the statement is running it. */
  lemma StageMeans(s: State, op: Op)
    requires LiveOk(s.base, s.log, s.liveLo, s.buf) && BufOk(s.pk, s.keyedTable, s.buf) && !PkChanged(s.buf, s.pk)
    requires Allowed(s.keyedTable, Logical(s), op)
    ensures var c := At(s.base, s.log, s.liveLo);
            Apply(c, Live(DoStage(s, op).buf)) == Exec(Apply(c, Live(s.buf)), op)
  {
    var c := At(s.base, s.log, s.liveLo);
    AllowedRoutes(s.keyedTable, s.buf, c, Logical(s), op);
    StmtDenotes(s.buf, s.pk, op, Some(s.tail.nextSeq), None, c);
  }

  lemma StageUndoOk(s: State, op: Op, q: nat, w: Wait)
    requires UndoOk(q, w.op, w.routed, s.buf, s.liveLo, s.base, s.log) && !PkChanged(s.buf, s.pk)
    requires RecordOk(s.buf, w.op, w.routed) && s.liveLo < s.tail.nextSeq && q < s.tail.nextSeq
    requires LiveOk(s.base, s.log, s.liveLo, s.buf) && BufOk(s.pk, s.keyedTable, s.buf) && Allowed(s.keyedTable, Logical(s), op)
    requires op.Insert? ==> !Uncovers(Entries(s.buf), w.routed.keyed, OpKeys(op))
    ensures var s' := DoStage(s, op); UndoOk(q, w.op, w.routed, s'.buf, s'.liveLo, s'.base, s'.log)
  {
    var e := Stmt(s.tail.nextSeq, op);
    UptoSnoc(s.log, e, s.liveLo);
    MinusSnoc(s.log, e, {q});
    FoldSnoc(s.base, Minus(s.log, {q}), e);
    StageMeans(s, op);
    forall r: Row | r.key in OpKeys(w.op)
      ensures Apply(At(s.base, s.log, s.liveLo), Live(Retract(DoStage(s, op).buf, w.routed)))[r]
           == Exec(Fold(s.base, Minus(s.log, {q})), op)[r]
    {
      StageUndoRow(s, op, q, w, r);
    }
  }

  lemma StageUndoRow(s: State, op: Op, q: nat, w: Wait, r: Row)
    requires UndoOk(q, w.op, w.routed, s.buf, s.liveLo, s.base, s.log) && !PkChanged(s.buf, s.pk)
    requires RecordOk(s.buf, w.op, w.routed) && BufOk(s.pk, s.keyedTable, s.buf) && r.key in OpKeys(w.op)
    requires Apply(At(s.base, s.log, s.liveLo), Live(s.buf)) == Logical(s) && Allowed(s.keyedTable, Logical(s), op)
    requires op.Insert? ==> !Uncovers(Entries(s.buf), w.routed.keyed, OpKeys(op))
    requires var c := At(s.base, s.log, s.liveLo); Apply(c, Live(DoStage(s, op).buf)) == Exec(Apply(c, Live(s.buf)), op)
    ensures Apply(At(s.base, s.log, s.liveLo), Live(Retract(DoStage(s, op).buf, w.routed)))[r]
         == Exec(Fold(s.base, Minus(s.log, {q})), op)[r]
  {
    RetractAfterStmt(s.buf, s.pk, s.keyedTable, op, s.tail.nextSeq, w.routed, At(s.base, s.log, s.liveLo),
                     Fold(s.base, Minus(s.log, {q})), r);
  }

  lemma StageUndoReady(s: State, op: Op, q: nat, w: Wait)
    requires UndoReady(q, w, s.buf, s.flight, s.liveLo, s.base, s.log) && !PkChanged(s.buf, s.pk)
    requires RecordOk(s.buf, w.op, w.routed) && s.liveLo < s.tail.nextSeq && q < s.tail.nextSeq
    requires LiveOk(s.base, s.log, s.liveLo, s.buf) && BufOk(s.pk, s.keyedTable, s.buf) && Allowed(s.keyedTable, Logical(s), op)
    requires op.Insert? ==> !Uncovers(Entries(s.buf), w.routed.keyed, OpKeys(op))
    requires OpsBelow(SnapKeyed(s.flight), NextStamp(s.buf))
    ensures var s' := DoStage(s, op); UndoReady(q, w, s'.buf, s'.flight, s'.liveLo, s'.base, s'.log)
  {
    StageUndoOk(s, op, q, w);
    StmtFacts(s.buf, s.pk, op, Some(s.tail.nextSeq), None);
    SnapKeptAfterStmt(s.buf, DoStage(s, op).buf, op, Some(s.tail.nextSeq), w.routed.keyed, SnapKeyed(s.flight));
  }

  lemma SnapStamps(s: State)
    requires WindowInv(s)
    ensures OpsBelow(SnapKeyed(s.flight), NextStamp(s.buf))
  {
    StampOrder(s.buf);
  }

  lemma StageOtherWait(s: State, op: Op, q: nat)
    requires q in s.waiting && !PkChanged(s.buf, s.pk)
    requires WaitOk(q, s.waiting[q], s.buf, s.flight, s.liveLo, s.frozen, s.base, s.log, s.failed)
    requires s.liveLo < s.tail.nextSeq && q < s.tail.nextSeq
    requires LiveOk(s.base, s.log, s.liveLo, s.buf) && BufOk(s.pk, s.keyedTable, s.buf) && Allowed(s.keyedTable, Logical(s), op)
    requires OpsBelow(SnapKeyed(s.flight), NextStamp(s.buf))
    ensures var s' := DoStage(s, op);
            WaitOk(q, s'.waiting[q], s'.buf, s'.flight, s'.liveLo, s'.frozen, s'.base, s'.log, s'.failed)
  {
    var w, s' := s.waiting[q], DoStage(s, op);
    var sq := Some(s.tail.nextSeq);
    StmtFacts(s.buf, s.pk, op, sq, None);
    StageRecord(s.buf, s'.buf, op, sq, w.op, w.routed);
    if q <= s.frozen {
      StageStrong(s.buf, s'.buf, op, sq, w.op, w.routed);
    } else {
      StageUnclaimed(s.buf, s'.buf, op, sq, w.routed);
      if !s'.waiting[q].shadowed {
        Unshadowed(s.waiting, SpoiltByStage(s, op), q);
        StageUndoReady(s, op, q, w);
      }
    }
  }

  // ---- the statement just staged -----------------------------------------------------------------------

  lemma StageOwnRecord(s: State, op: Op)
    requires WellFormed(s.buf) && !PkChanged(s.buf, s.pk) && Allowed(s.keyedTable, Logical(s), op)
    ensures var s' := DoStage(s, op); var routed := s'.waiting[s.tail.nextSeq].routed;
            RecordOk(s'.buf, op, routed) && Unclaimed(s'.buf, routed)
  {
    var sq, s' := s.tail.nextSeq, DoStage(s, op);
    var routed := s'.waiting[sq].routed;
    StmtFacts(s.buf, s.pk, op, Some(sq), None);
    StmtNonempty(s.buf, s.pk, op, Some(sq), None);
    StmtDisplaced(s.buf, s.pk, op, Some(sq), None);
    StampOrder(s.buf);
    OwnPlaces(s.buf, s'.buf, op, Some(sq), routed);
  }

  lemma OwnPlaces(b: Buf, b': Buf, op: Op, sq: Option<nat>, routed: Routed)
    requires IdsUnique(b) && NewBatches(b, b', op, sq) && OwnRecord(b, Acc(b', routed), op)
    ensures OwnBatches(b', routed, OpKeys(op))
    ensures forall i :: 0 <= i < |b'.pending| && b'.pending[i].id in routed.ids ==> !b'.pending[i].claimed
  {
    assert forall i :: 0 <= i < |b.pending| ==> b'.pending[i] == b.pending[i];
    assert forall i :: 0 <= i < |b'.pending| && b'.pending[i].id in routed.ids ==> i >= |b.pending|;
  }

  lemma StageOwnUndo(s: State, op: Op)
    requires WellFormed(s.buf) && !PkChanged(s.buf, s.pk) && Allowed(s.keyedTable, Logical(s), op)
    requires !s.keyedTable ==> Entries(s.buf) == map[]
    requires LiveOk(s.base, s.log, s.liveLo, s.buf) && s.liveLo < s.tail.nextSeq
    requires forall e :: e in s.log ==> e.seqno < s.tail.nextSeq
    ensures var s' := DoStage(s, op); var q := s.tail.nextSeq;
            && UndoOk(q, op, s'.waiting[q].routed, s'.buf, s'.liveLo, s'.base, s'.log)
            && RestoreKeys(Entries(s'.buf), s'.waiting[q].routed.keyed) == Entries(s.buf)
  {
    var q, s' := s.tail.nextSeq, DoStage(s, op);
    var routed := s'.waiting[q].routed;
    var c := At(s.base, s.log, s.liveLo);
    AllowedRoutes(s.keyedTable, s.buf, c, Logical(s), op);
    UndoStmtAtOnce(s.buf, s.pk, op, q);
    UndoEntries(s'.buf, routed);
    assert Live(Retract(s'.buf, routed)) == Live(s.buf);
    UptoSnoc(s.log, Stmt(q, op), s.liveLo);
    MinusSnoc(s.log, Stmt(q, op), {q});
    MinusAbsent(s.log, {q});
  }

  lemma SnapKeptNow(s: State)
    requires WindowInv(s)
    ensures SnapKept(Entries(s.buf), SnapKeyed(s.flight))
  {}

  lemma StageOwnWait(s: State, op: Op)
    requires CatalogInv(s) && WindowInv(s) && !PkChanged(s.buf, s.pk) && Allowed(s.keyedTable, Logical(s), op)
    requires s.tail.nextSeq !in s.failed
    ensures var s' := DoStage(s, op); var q := s.tail.nextSeq;
            WaitOk(q, s'.waiting[q], s'.buf, s'.flight, s'.liveLo, s'.frozen, s'.base, s'.log, s'.failed)
  {
    StageOwnRecord(s, op);
    StageOwnUndo(s, op);
    SnapKeptNow(s);
    StmtFacts(s.buf, s.pk, op, Some(s.tail.nextSeq), None);
  }

  // ---- what an undo would leave behind ----------------------------------------------------------------

  /** An INSERT that leaves an undo unspoilt is allowed on what the undo would leave. */
  lemma StageStillAllowed(s: State, op: Op, q: nat, w: Wait)
    requires s.keyedTable && LiveOk(s.base, s.log, s.liveLo, s.buf) && Sorted(s.log) && Stmt(q, w.op) in s.log
    requires Allowed(true, Logical(s), op)
    requires op.Insert? ==> !Uncovers(Entries(s.buf), w.routed.keyed, OpKeys(op))
    requires UndoOk(q, w.op, w.routed, s.buf, s.liveLo, s.base, s.log)
    requires OlderDisplaced(w.routed.keyed) && StampsRise(w.routed.keyed)
    ensures Allowed(true, Fold(s.base, Minus(s.log, {q})), op)
  {
    var c, t := At(s.base, s.log, s.liveLo), Fold(s.base, Minus(s.log, {q}));
    if op.Insert? {
      forall r: Row | r.key in OpKeys(op) ensures t[r] == Logical(s)[r] {
        AbsentAt(Logical(s), op, r);
        if r.key in OpKeys(w.op) {
          UncoveredAt(s.buf, w.routed, OpKeys(op), c, r);
        } else {
          forall e | e in s.log && e.seqno in {q} ensures r.key !in OpKeys(e.op) { OneSeq(s.log, e, Stmt(q, w.op)); }
          FoldMinusFrame(s.base, s.log, {q}, r);
        }
      }
    }
    AllowedEither(Logical(s), Logical(s), t, op);
  }

  lemma OneSeq(log: seq<Stmt>, e: Stmt, f: Stmt)
    requires Sorted(log) && e in log && f in log && e.seqno == f.seqno
    ensures e == f
  {
    var i :| 0 <= i < |log| && log[i] == e;
    var j :| 0 <= j < |log| && log[j] == f;
    assert i == j;
  }

  /** The log without a statement that can still be undone takes the new statement. */
  lemma StageWithout(s: State, op: Op, q: nat)
    requires s.keyedTable && q in s.waiting && q > s.frozen && q < s.tail.nextSeq && Sorted(s.log)
    requires WaitOk(q, s.waiting[q], s.buf, s.flight, s.liveLo, s.frozen, s.base, s.log, s.failed)
    requires UndoAllowed(true, s.waiting, s.frozen, s.base, s.log) && LiveOk(s.base, s.log, s.liveLo, s.buf)
    requires Allowed(true, Logical(s), op) && !Shadow(s.waiting, SpoiltByStage(s, op))[q].shadowed
    ensures AllAllowed(true, s.base, Minus(s.log + [Stmt(s.tail.nextSeq, op)], {q}))
  {
    var e := Stmt(s.tail.nextSeq, op);
    Unshadowed(s.waiting, SpoiltByStage(s, op), q);
    StageStillAllowed(s, op, q, s.waiting[q]);
    MinusSnoc(s.log, e, {q});
    SnocInit(Minus(s.log, {q}), e);
  }

  lemma StageWithoutOwn(s: State, op: Op)
    requires s.keyedTable && LogOk(true, s.base, s.log, s.tail.nextSeq) && Allowed(true, Logical(s), op)
    ensures AllAllowed(true, s.base, Minus(s.log + [Stmt(s.tail.nextSeq, op)], {s.tail.nextSeq}))
  {
    MinusSnoc(s.log, Stmt(s.tail.nextSeq, op), {s.tail.nextSeq});
    MinusAbsent(s.log, {s.tail.nextSeq});
  }

  lemma StageUndoAllowed(s: State, op: Op)
    requires Inv(s) && !PkChanged(s.buf, s.pk) && Allowed(s.keyedTable, Logical(s), op)
    ensures var s' := DoStage(s, op); UndoAllowed(s'.keyedTable, s'.waiting, s'.frozen, s'.base, s'.log)
  {
    var s' := DoStage(s, op);
    if s.keyedTable {
      StageWithoutOwn(s, op);
      forall q | q in s'.waiting && q > s'.frozen && !s'.waiting[q].shadowed
        ensures AllAllowed(true, s.base, Minus(s'.log, {q}))
      {
        if q != s.tail.nextSeq {
          assert WaitOk(q, s.waiting[q], s.buf, s.flight, s.liveLo, s.frozen, s.base, s.log, s.failed);
          StageWithout(s, op, q);
        }
      }
    }
  }

  lemma PlainAppended(b: Buf, batches: seq<seq<Row>>, sq: Option<nat>, w: Wait)
    requires Entries(b) == map[] && PlainRows(b.pending, w) && forall i :: i in w.routed.ids ==> i < b.nextId
    ensures PlainRows(Route(b, batches, sq).buf.pending, w)
  {
    var b' := Route(b, batches, sq).buf;
    forall r: Row
      ensures Bag(RowsOf(DropIds(b'.pending, IdSet(w.routed.ids))))[r] + multiset(Flatten(w.op.batches))[r]
           == Bag(RowsOf(b'.pending))[r]
    {
      InsertedBag(b, batches, sq, IdSet(w.routed.ids), r);
      InsertedBag(b, batches, sq, {}, r);
      DropNone(b.pending, {});
      DropNone(b'.pending, {});
    }
  }

  lemma PlainOwn(b: Buf, batches: seq<seq<Row>>, sq: Option<nat>)
    requires Entries(b) == map[] && IdsUnique(b) && b.pendingRows == RowCount(b.pending)
    ensures var a := Route(b, batches, sq); PlainRows(a.buf.pending, Wait(Insert(batches), a.routed, false))
  {
    var a := Route(b, batches, sq);
    RouteEffect(b, batches, sq);
    UndoPending(b, batches, sq);
    assert Entries(b).Keys == {};
    NoKeys(Flatten(batches));
    forall r: Row
      ensures Bag(RowsOf(DropIds(a.buf.pending, IdSet(a.routed.ids))))[r] + multiset(Flatten(batches))[r]
           == Bag(RowsOf(a.buf.pending))[r]
    {
      InsertedBag(b, batches, sq, {}, r);
      DropNone(b.pending, {});
      DropNone(a.buf.pending, {});
    }
  }

  lemma StagePlain(s: State, op: Op)
    requires WaitsOk(s.waiting, s.buf, s.flight, s.liveLo, s.frozen, s.base, s.log, s.failed)
    requires PlainOk(s.keyedTable, s.waiting, s.frozen, s.buf) && BufOk(s.pk, s.keyedTable, s.buf)
    requires !PkChanged(s.buf, s.pk) && Allowed(s.keyedTable, Logical(s), op)
    ensures var s' := DoStage(s, op); PlainOk(s'.keyedTable, s'.waiting, s'.frozen, s'.buf)
  {
    if !s.keyedTable {
      var a := RouteStmt(s.buf, s.pk, op, Some(s.tail.nextSeq), None);
      PlainStaged(s.buf, s.pk, op, s.tail.nextSeq);
      PlainIds(s.buf, s.pk, op, s.tail.nextSeq);
      forall q | q in s.waiting && q > s.frozen
        ensures PlainRows(a.buf.pending, s.waiting[q]) && (forall i :: i in s.waiting[q].routed.ids ==> i < s.buf.nextId)
      {
        PlainKept(s, op, q);
      }
      StagePlainFrom(s, Staged(s, op, a), s.tail.nextSeq);
    }
  }

  lemma PlainIds(b: Buf, pk: seq<string>, op: Op, sq: nat)
    requires !PkChanged(b, pk)
    ensures forall i :: i in RouteStmt(b, pk, op, Some(sq), None).routed.ids ==> i >= b.nextId
  {
    StmtFacts(b, pk, op, Some(sq), None);
  }

  lemma PlainStaged(b: Buf, pk: seq<string>, op: Op, sq: nat)
    requires op.Insert? && !PkChanged(b, pk) && WellFormed(b) && Entries(b) == map[]
    ensures var a := RouteStmt(b, pk, op, Some(sq), None); PlainRows(a.buf.pending, Wait(op, a.routed, false))
  {
    PlainOwn(Stage(b, Some(sq)), op.batches, Some(sq));
  }

  lemma PlainKept(s: State, op: Op, q: nat)
    requires WaitsOk(s.waiting, s.buf, s.flight, s.liveLo, s.frozen, s.base, s.log, s.failed) && q in s.waiting
    requires op.Insert? && !PkChanged(s.buf, s.pk) && Entries(s.buf) == map[] && PlainRows(s.buf.pending, s.waiting[q])
    ensures PlainRows(RouteStmt(s.buf, s.pk, op, Some(s.tail.nextSeq), None).buf.pending, s.waiting[q])
    ensures forall i :: i in s.waiting[q].routed.ids ==> i < s.buf.nextId
  {
    assert WaitOk(q, s.waiting[q], s.buf, s.flight, s.liveLo, s.frozen, s.base, s.log, s.failed);
    PlainAppended(Stage(s.buf, Some(s.tail.nextSeq)), op.batches, Some(s.tail.nextSeq), s.waiting[q]);
  }

  lemma StagePlainFrom(s: State, s': State, sq: nat)
    requires !s.keyedTable && PlainOk(false, s.waiting, s.frozen, s.buf) && s'.frozen == s.frozen
    requires s'.waiting.Keys == s.waiting.Keys + {sq} && PlainRows(s'.buf.pending, s'.waiting[sq])
    requires forall q :: q in s.waiting && q != sq ==>
               s'.waiting[q].op == s.waiting[q].op && s'.waiting[q].routed == s.waiting[q].routed
    requires forall q :: q in s.waiting && q > s.frozen ==>
               PlainRows(s'.buf.pending, s.waiting[q]) && forall i :: i in s.waiting[q].routed.ids ==> i < s.buf.nextId
    requires forall i :: i in s'.waiting[sq].routed.ids ==> i >= s.buf.nextId
    ensures PlainOk(false, s'.waiting, s'.frozen, s'.buf)
  {
    forall q | q in s'.waiting && q > s'.frozen ensures PlainRows(s'.buf.pending, s'.waiting[q]) {
      if q != sq { SamePlain(s'.buf.pending, s.waiting[q], s'.waiting[q]); }
    }
  }

  lemma SamePlain(pending: seq<Batch>, w: Wait, w': Wait)
    requires PlainRows(pending, w) && w'.op == w.op && w'.routed == w.routed
    ensures PlainRows(pending, w')
  {}

  lemma StageWaits(s: State, op: Op)
    requires Inv(s) && !PkChanged(s.buf, s.pk) && Allowed(s.keyedTable, Logical(s), op)
    ensures WaitInv(DoStage(s, op))
  {
    var s' := DoStage(s, op);
    StageUndoAllowed(s, op);
    StagePlain(s, op);
    SnapStamps(s);
    StageOwnWait(s, op);
    forall q | q in s'.waiting
      ensures WaitOk(q, s'.waiting[q], s'.buf, s'.flight, s'.liveLo, s'.frozen, s'.base, s'.log, s'.failed)
    {
      if q != s.tail.nextSeq { StageOtherWait(s, op, q); }
    }
  }

  lemma StageBounds(s: State)
    requires CatalogInv(s) && WindowInv(s)
    ensures MarksOk(s.spans, s.liveLo, s.frozen, s.tail.nextSeq) && |s.hist| > 0 && s.hist[LastIdx(s)].wm <= s.frozen
    ensures s.tail.nextSeq > Max(s.hist[LastIdx(s)].wm, s.tail.sidecar)
  {}

  lemma StageInv(s: State, op: Op)
    requires Inv(s) && !PkChanged(s.buf, s.pk) && Allowed(s.keyedTable, Logical(s), op)
    ensures Inv(DoStage(s, op))
  {
    StageBounds(s);
    StageCatalog(s, op);
    StageWindow(s, op);
    StageTail(s, op, RouteStmt(s.buf, s.pk, op, Some(s.tail.nextSeq), None), s.hist[LastIdx(s)].wm);
    StageWaits(s, op);
    InvIntro(DoStage(s, op));
  }
}
