/** After the post: landing, conflict and merge-back, the watermark record, truncation; and the
    steps of everyone else: foreign commits, scans, collection. */
module SettleSteps {
  import opened Rows
  import opened Window
  import opened Layers
  import opened Undo
  import opened Log
  import opened Engine
  import opened Invariants
  import opened CatalogSteps
  import opened WindowSteps
  import opened StageSteps
  import opened FailSteps

  // ---- the tail under a raised watermark --------------------------------------------------------------------

  lemma {:induction false} AboveSorted(log: seq<Stmt>, w: nat)
    requires Sorted(log)
    ensures Sorted(Above(log, w))
  {
    if |log| > 0 && log[|log| - 1].seqno > w {
      var init := log[..|log| - 1];
      AboveSorted(init, w);
      forall i | 0 <= i < |Above(init, w)| ensures Above(init, w)[i].seqno < log[|log| - 1].seqno {
        AboveIn(init, w, Above(init, w)[i]);
        var j :| 0 <= j < |init| && init[j] == Above(init, w)[i];
      }
    }
  }

  /** Recording or committing a higher watermark drops the same frames as statements. */
  lemma TailRaise(tail: Tail, wm: nat, tail': Tail, wm': nat, log: seq<Stmt>, failed: set<nat>)
    requires TailOk(tail, wm, log, failed) && Sorted(log)
    requires tail' == tail.(sidecar := tail'.sidecar) && Max(wm, tail.sidecar) <= Max(wm', tail'.sidecar)
    ensures TailOk(tail', wm', log, failed)
  {
    var w, w' := Max(wm, tail.sidecar), Max(wm', tail'.sidecar);
    AboveAbove(tail.frames, w, w');
    AboveAbove(log, w, w');
    AboveSorted(log, w);
    AboveMinus(Above(log, w), failed, w');
  }

  /** Truncation touches only frames the watermark already covers. */
  lemma TailTruncate(tail: Tail, wm: nat, log: seq<Stmt>, failed: set<nat>, removed: set<nat>)
    requires TailOk(tail, wm, log, failed)
    requires forall q :: q in removed ==> q <= Max(wm, tail.sidecar)
    ensures TailOk(tail.(frames := Minus(tail.frames, removed)), wm, log, failed)
  {
    var w := Max(wm, tail.sidecar);
    MinusSorted(tail.frames, removed);
    AboveMinus(tail.frames, removed, w);
    forall e | e in Above(tail.frames, w) ensures e.seqno !in removed { AboveIn(tail.frames, w, e); }
    MinusAbsent(Above(tail.frames, w), removed);
    forall e | e in Minus(tail.frames, removed) ensures 1 <= e.seqno < tail.nextSeq { MinusIn(tail.frames, removed, e); }
  }

  // ---- the commit lands ----------------------------------------------------------------------------------------

  lemma LandLandsOn(s: State)
    requires s.flight.Posted? && !s.flight.landed
    requires SeenOk(s.hist, s.spans, s.buf.flushed) && AllSeen(s.hist, s.buf.flushed, s.flight)
    requires PostedOk(s.flight.next, s.flight.mark, false, s.hist, s.nextSnap, s.buf, s.spans, s.liveLo, s.frozen,
                      s.tail.sidecar, s.base, s.log)
    requires s.hist[LastIdx(s)].wm <= s.flight.next.wm
    ensures LandsOn(s.hist, s.flight.next, s.spans, s.buf.flushed)
    ensures AllSeen(s.hist + [s.flight.next], s.buf.flushed, s.flight.(landed := true))
  {
    forall i: nat | i < |s.buf.flushed|
      ensures Contains(s.hist + [s.flight.next], |s.hist|, s.buf.flushed[i].commit)
      ensures s.spans[i].hi <= s.flight.next.wm
    {
      ContainsNew(s.hist, s.flight.next, s.buf.flushed[i].commit);
      if i < |s.buf.flushed| - 1 {
        assert Contains(s.hist, LastIdx(s), s.buf.flushed[i].commit);
      }
    }
  }

  lemma LandCatalog(s: State)
    requires CatalogInv(s) && s.flight.Posted? && !s.flight.landed
    requires PostedOk(s.flight.next, s.flight.mark, false, s.hist, s.nextSnap, s.buf, s.spans, s.liveLo, s.frozen,
                      s.tail.sidecar, s.base, s.log)
    ensures CatalogInv(DoLand(s))
  {
    var s', next := DoLand(s), s.flight.next;
    LandHist(s.hist, s.base, s.log, s.frozen, next);
    LandLandsOn(s);
    LandSeen(s.hist, next, s.spans, s.buf.flushed);
    LandLink(s.hist, s.served, s.scans, s.spans, s.liveLo, s.buf.flushed, s.base, s.log, next);
    LandObserved(s.hist, s.served, s.scans, s.buf.flushed, s.clock, next);
    LandLag(s.hist, s.scans, s.buf.flushed, s.clock, s.lag, next);
    LandDoubled(s.hist, next, s.liveLo);
    CatalogIntro(s');
  }

  lemma LandDoubled(hist: seq<Version>, next: Version, liveLo: nat)
    requires |hist| > 0 && hist[|hist| - 1].wm <= liveLo && next.wm == liveLo
    requires forall v :: 0 <= v < |hist| ==> hist[v].wm <= hist[|hist| - 1].wm
    ensures DoubledOk(hist + [next], liveLo)
  {}

  lemma LandWindow(s: State)
    requires WindowInv(s) && s.flight.Posted? && !s.flight.landed
    ensures WindowInv(DoLand(s))
  {
    var s' := DoLand(s);
    assert s' == s.(hist := s'.hist, flight := s'.flight);
    assert s'.hist[|s'.hist| - 1] == s.flight.next;
    WindowIntro(s');
  }

  lemma LandInv(s: State)
    requires Inv(s) && s.flight.Posted? && !s.flight.landed && Traced(s.tail, s.waiting)
    ensures Inv(DoLand(s))
  {
    var s' := DoLand(s);
    LandCatalog(s);
    LandWindow(s);
    assert s'.hist[LastIdx(s')].wm == s.flight.mark;
    TailRaise(s.tail, s.hist[LastIdx(s)].wm, s.tail, s.flight.mark, s.log, s.failed);
    TailIntro(s');
    LikeWaits(s, s');
  }

  // ---- the generation goes back ----------------------------------------------------------------------------------

  lemma BackDoubled(s: State)
    requires CatalogInv(s) && s.flight.Posted? && |s.spans| > 0
    requires PostedOk(s.flight.next, s.flight.mark, s.flight.landed, s.hist, s.nextSnap, s.buf, s.spans, s.liveLo,
                      s.frozen, s.tail.sidecar, s.base, s.log)
    ensures DoubledOk(s.hist, s.spans[|s.spans| - 1].lo)
  {
    var g := s.buf.flushed[|s.buf.flushed| - 1];
    forall v: nat | v < |s.hist|
      ensures s.hist[v].wm <= s.spans[|s.spans| - 1].lo || s.hist[v].wm == s.hist[LastIdx(s)].wm
    {
      assert s.hist[v].wm <= s.hist[LastIdx(s)].wm;
      assert Contains(s.hist, v, g.commit) || !Contains(s.hist, v, g.commit);
    }
  }

  lemma BackIds(hist: seq<Version>, nextSnap: nat, served: nat, scans: multiset<Scan>, flushed: seq<Gen>, clock: nat,
                flight: Flight)
    requires IdsOk(hist, nextSnap, flushed) && ObservedOk(hist, served, scans, flushed, clock) && |flushed| > 0
    requires AllSeen(hist, flushed, flight)
    ensures var init := flushed[..|flushed| - 1];
            IdsOk(hist, nextSnap, init) && ObservedOk(hist, served, scans, init, clock) && AllSeen(hist, init, Idle)
  {}

  lemma PrefixLag(hist: seq<Version>, scans: multiset<Scan>, flushed: seq<Gen>, clock: nat, lag: nat)
    requires LagOk(hist, scans, flushed, clock, lag) && |flushed| > 0
    ensures LagOk(hist, scans, flushed[..|flushed| - 1], clock, lag)
  {
    var init := flushed[..|flushed| - 1];
    forall x, i | x in scans && 0 <= i < |init| && !Contains(hist, x.version, init[i].commit)
      ensures x.began <= init[i].committedAt + lag
    {
      assert init[i] == flushed[i];
    }
  }

  lemma BackShape(s: State)
    requires IdsOk(s.hist, s.nextSnap, s.buf.flushed) && KeyedReady(s.buf) && s.flight.Posted?
    requires PostedOk(s.flight.next, s.flight.mark, s.flight.landed, s.hist, s.nextSnap, s.buf, s.spans, s.liveLo,
                      s.frozen, s.tail.sidecar, s.base, s.log)
    ensures GenPosition(s.buf.flushed, s.flight.next.id) == |s.buf.flushed| - 1
    ensures DoMergeBack(s).buf.flushed == s.buf.flushed[..|s.buf.flushed| - 1]
  {
    GenPositionLast(s.hist, s.nextSnap, s.buf.flushed);
    MoveBackShape(s.buf, s.flight.next.id);
  }

  lemma BackCatalog(s: State)
    requires CatalogInv(s) && KeyedReady(s.buf) && s.flight.Posted?
    requires PostedOk(s.flight.next, s.flight.mark, s.flight.landed, s.hist, s.nextSnap, s.buf, s.spans, s.liveLo,
                      s.frozen, s.tail.sidecar, s.base, s.log)
    ensures CatalogInv(DoMergeBack(s))
  {
    var s' := DoMergeBack(s);
    BackShape(s);
    DropMarks(s.spans, s.liveLo, s.frozen, s.tail.nextSeq);
    DropChain(s.spans, s.liveLo, s.buf.flushed, s.base, s.log);
    DropSeen(s.hist, s.spans, s.buf.flushed);
    DropLink(s.hist, s.served, s.scans, s.spans, s.liveLo, s.buf.flushed, s.base, s.log);
    BackDoubled(s);
    BackIds(s.hist, s.nextSnap, s.served, s.scans, s.buf.flushed, s.clock, s.flight);
    PrefixLag(s.hist, s.scans, s.buf.flushed, s.clock, s.lag);
    CatalogIntro(s');
  }

  lemma BackBuf(s: State)
    requires BufOk(s.pk, s.keyedTable, s.buf) && IdsOk(s.hist, s.nextSnap, s.buf.flushed) && s.flight.Posted?
    requires PostedOk(s.flight.next, s.flight.mark, s.flight.landed, s.hist, s.nextSnap, s.buf, s.spans, s.liveLo,
                      s.frozen, s.tail.sidecar, s.base, s.log)
    ensures BufOk(s.pk, s.keyedTable, DoMergeBack(s).buf)
  {
    BackShape(s);
    StampOrder(s.buf);
    MoveBackShape(s.buf, s.flight.next.id);
    MoveBackWellFormed(s.buf, s.flight.next.id);
  }

  lemma BackLive(s: State)
    requires LiveOk(s.base, s.log, s.liveLo, s.buf) && KeyedReady(s.buf) && IdsOk(s.hist, s.nextSnap, s.buf.flushed)
    requires ChainOk(s.spans, s.liveLo, s.buf.flushed, s.base, s.log) && s.flight.Posted? && MergeBackOk(s)
    requires PostedOk(s.flight.next, s.flight.mark, s.flight.landed, s.hist, s.nextSnap, s.buf, s.spans, s.liveLo,
                      s.frozen, s.tail.sidecar, s.base, s.log)
    ensures var s' := DoMergeBack(s); LiveOk(s'.base, s'.log, s'.liveLo, s'.buf)
  {
    BackShape(s);
    var i := |s.spans| - 1;
    var g, c := s.buf.flushed[i], At(s.base, s.log, s.spans[i].lo);
    assert ChainAt(s.spans, s.liveLo, s.buf.flushed, s.base, s.log, i);
    MoveBackIsMerge(s.buf, s.flight.next.id);
    MergeBackExactIff(c, g, s.buf);
  }

  lemma BackTop(s: State)
    requires TopOk(s.buf, s.log, s.liveLo, s.frozen, s.tail.nextSeq) && s.flight.Posted?
    requires PostedOk(s.flight.next, s.flight.mark, s.flight.landed, s.hist, s.nextSnap, s.buf, s.spans, s.liveLo,
                      s.frozen, s.tail.sidecar, s.base, s.log)
    requires s.spans[|s.spans| - 1].lo < s.liveLo
    ensures var s' := DoMergeBack(s); TopOk(s'.buf, s'.log, s'.liveLo, s'.frozen, s'.tail.nextSeq)
  {}

  lemma BackWindow(s: State)
    requires CatalogInv(s) && WindowInv(s) && s.flight.Posted? && MergeBackOk(s) && |s.spans| > 0
    ensures WindowInv(DoMergeBack(s))
  {
    var s' := DoMergeBack(s);
    BackBuf(s);
    BackLive(s);
    BackTop(s);
    assert s'.flight == Idle && s'.log == s.log && s'.base == s.base && s'.tail == s.tail && s'.hist == s.hist;
    WindowIntro(s');
  }

  lemma BackPlaces(b: Buf, sid: nat, op: Op, routed: Routed)
    requires |b.flushed| > 0 && GenPosition(b.flushed, sid) == |b.flushed| - 1 && KeyedReady(b)
    requires RecordOk(b, op, routed)
    ensures RecordOk(MoveBack(b, sid), op, routed)
    ensures WhollyClaimed(b, routed) ==> WhollyClaimed(MoveBack(b, sid), routed)
    ensures Unclaimed(b, routed) ==> Unclaimed(MoveBack(b, sid), routed)
  {
    var g, b' := b.flushed[|b.flushed| - 1], MoveBack(b, sid);
    MoveBackShape(b, sid);
    forall i | 0 <= i < |b'.pending| && b'.pending[i].id in routed.ids
      ensures i >= |g.batches| && b'.pending[i] == b.pending[i - |g.batches|] {}
  }

  lemma BackReady(s: State, q: nat, w: Wait)
    requires UndoReady(q, w, s.buf, s.flight, s.liveLo, s.base, s.log) && RecordOk(s.buf, w.op, w.routed)
    requires KeyedReady(s.buf) && IdsOk(s.hist, s.nextSnap, s.buf.flushed) && s.flight.Posted?
    requires ChainOk(s.spans, s.liveLo, s.buf.flushed, s.base, s.log)
    requires PostedOk(s.flight.next, s.flight.mark, s.flight.landed, s.hist, s.nextSnap, s.buf, s.spans, s.liveLo,
                      s.frozen, s.tail.sidecar, s.base, s.log)
    requires MergeBackOk(s) && Unclaimed(s.buf, w.routed)
    requires !Bares(Entries(s.buf), w.routed.keyed, s.buf.flushed[|s.buf.flushed| - 1].keyed.Keys)
    ensures var s' := DoMergeBack(s); UndoReady(q, w, s'.buf, s'.flight, s'.liveLo, s'.base, s'.log)
  {
    BackShape(s);
    var i, s' := |s.spans| - 1, DoMergeBack(s);
    assert ChainAt(s.spans, s.liveLo, s.buf.flushed, s.base, s.log, i);
    forall r: Row | r.key in OpKeys(w.op)
      ensures Apply(At(s'.base, s'.log, s'.liveLo), Live(Retract(s'.buf, w.routed)))[r] == Fold(s'.base, Minus(s'.log, {q}))[r]
    {
      RetractMergedAt(s.buf, s.flight.next.id, w.routed, At(s.base, s.log, s.spans[i].lo), r);
    }
  }

  lemma BackWait(s: State, q: nat)
    requires q in s.waiting && |s.spans| > 0 && MergeBackOk(s)
    requires WaitOk(q, s.waiting[q], s.buf, s.flight, s.liveLo, s.frozen, s.base, s.log, s.failed)
    requires KeyedReady(s.buf) && IdsOk(s.hist, s.nextSnap, s.buf.flushed) && s.flight.Posted?
    requires ChainOk(s.spans, s.liveLo, s.buf.flushed, s.base, s.log)
    requires PostedOk(s.flight.next, s.flight.mark, s.flight.landed, s.hist, s.nextSnap, s.buf, s.spans, s.liveLo,
                      s.frozen, s.tail.sidecar, s.base, s.log)
    ensures var s' := DoMergeBack(s);
            WaitOk(q, s'.waiting[q], s'.buf, s'.flight, s'.liveLo, s'.frozen, s'.base, s'.log, s'.failed)
  {
    var w, s' := s.waiting[q], DoMergeBack(s);
    BackShape(s);
    BackPlaces(s.buf, s.flight.next.id, w.op, w.routed);
    MoveBackShape(s.buf, s.flight.next.id);
    if q > s.frozen && !s'.waiting[q].shadowed {
      Unshadowed(s.waiting, SpoiltByBack(Entries(s.buf), s.waiting, s.buf.flushed[|s.buf.flushed| - 1].keyed.Keys), q);
      BackReady(s, q, w);
    }
    WaitIntro(q, s'.waiting[q], s'.buf, s'.flight, s'.liveLo, s'.frozen, s'.base, s'.log, s'.failed);
  }

  lemma BackPlainRows(b: Buf, sid: nat, w: Wait)
    requires |b.flushed| > 0 && GenPosition(b.flushed, sid) == |b.flushed| - 1 && KeyedReady(b)
    requires PlainRows(b.pending, w) && forall i :: i in w.routed.ids ==> i < b.nextId
    ensures PlainRows(MoveBack(b, sid).pending, w)
  {
    var g, b' := b.flushed[|b.flushed| - 1], MoveBack(b, sid);
    MoveBackShape(b, sid);
    RebornDropped(b, g, IdSet(w.routed.ids));
    RebornDropped(b, g, {});
    DropNone(b.pending, {});
    DropNone(b'.pending, {});
  }

  lemma BackPlain(s: State)
    requires PlainOk(s.keyedTable, s.waiting, s.frozen, s.buf) && s.flight.Posted? && |s.spans| > 0 && |s.buf.flushed| > 0
    requires WaitsOk(s.waiting, s.buf, s.flight, s.liveLo, s.frozen, s.base, s.log, s.failed)
    requires GenPosition(s.buf.flushed, s.flight.next.id) == |s.buf.flushed| - 1 && KeyedReady(s.buf)
    ensures var s' := DoMergeBack(s); PlainOk(s'.keyedTable, s'.waiting, s'.frozen, s'.buf)
  {
    if !s.keyedTable {
      var s' := DoMergeBack(s);
      forall q | q in s'.waiting && q > s'.frozen ensures PlainRows(s'.buf.pending, s'.waiting[q]) {
        assert WaitOk(q, s.waiting[q], s.buf, s.flight, s.liveLo, s.frozen, s.base, s.log, s.failed);
        BackPlainRows(s.buf, s.flight.next.id, s.waiting[q]);
        SamePlain(s'.buf.pending, s.waiting[q], s'.waiting[q]);
      }
    }
  }

  lemma BackWaits(s: State)
    requires WaitInv(s) && CatalogInv(s) && WindowInv(s) && s.flight.Posted? && |s.spans| > 0 && MergeBackOk(s)
    ensures WaitInv(DoMergeBack(s))
  {
    var s' := DoMergeBack(s);
    BackShape(s);
    BackPlain(s);
    forall q | q in s'.waiting
      ensures WaitOk(q, s'.waiting[q], s'.buf, s'.flight, s'.liveLo, s'.frozen, s'.base, s'.log, s'.failed)
    {
      BackWait(s, q);
    }
  }

  lemma ShadowTrace(wm: nat, tail: Tail, waiting: map<nat, Wait>, spoilt: set<nat>)
    requires TraceOk(wm, tail, waiting)
    ensures TraceOk(wm, tail, Shadow(waiting, spoilt))
  {
    if wm > 0 && tail.sidecar == 0 {
      var x :| x in tail.frames && x.seqno !in waiting;
      assert x in tail.frames && x.seqno !in Shadow(waiting, spoilt);
    }
  }

  lemma BackTail(s: State, wm: nat)
    requires s.flight.Posted? && |s.spans| > 0 && |s.buf.flushed| > 0 && |s.hist| > 0 && wm == s.hist[LastIdx(s)].wm
    requires TailOk(s.tail, wm, s.log, s.failed) && TraceOk(wm, s.tail, s.waiting)
    ensures TailInv(DoMergeBack(s))
  {
    var s' := DoMergeBack(s);
    ShadowTrace(wm, s.tail, s.waiting,
                SpoiltByBack(Entries(s.buf), s.waiting, s.buf.flushed[|s.buf.flushed| - 1].keyed.Keys));
    assert s'.hist[LastIdx(s')].wm == wm;
    TailIntro(s');
  }

  lemma BackInv(s: State)
    requires Inv(s) && s.flight.Posted? && MergeBackOk(s) && |s.spans| > 0
    ensures Inv(DoMergeBack(s))
  {
    BackCatalog(s);
    BackWindow(s);
    BackTail(s, s.hist[LastIdx(s)].wm);
    BackWaits(s);
  }

  // ---- settling -----------------------------------------------------------------------------------------------------

  /** Only the flusher's own variables change, and no snapshot is taken. */
  lemma FlightInv(s: State, flight': Flight)
    requires Inv(s) && !flight'.Posted? && !flight'.Snapped? && !flight'.Loaded?
    requires s.flight.Posted? ==> s.flight.landed
    requires FlightOk(flight', s.hist, s.nextSnap, s.buf, s.spans, s.liveLo, s.frozen, s.tail.sidecar, s.base, s.log)
    ensures Inv(s.(flight := flight'))
  {
    var s' := s.(flight := flight');
    CatalogIntro(s');
    WindowIntro(s');
    LikeWaits(s, s');
  }

  lemma CommittedInv(s: State)
    requires Inv(s) && s.flight.Posted? && s.flight.landed
    ensures Inv(s.(flight := Settling(s.flight.mark)))
  {
    assert s.spans[|s.spans| - 1].lo < s.spans[|s.spans| - 1].hi;
    FlightInv(s, Settling(s.flight.mark));
  }

  lemma PostErrorInv(s: State, reload: bool)
    requires Inv(s) && s.flight.Posted? && |s.spans| > 0
    requires !(reload && s.hist[LastIdx(s)].wm >= s.flight.mark) ==> MergeBackOk(s)
    ensures Inv(if reload && s.hist[LastIdx(s)].wm >= s.flight.mark then s.(flight := Settling(s.flight.mark))
                else DoMergeBack(s))
  {
    if reload && s.hist[LastIdx(s)].wm >= s.flight.mark {
      CoveredLanded(s);
      CommittedInv(s);
    } else {
      BackInv(s);
    }
  }

  /** A reload that covers the mark proves that this very commit landed. */
  lemma CoveredLanded(s: State)
    requires CatalogInv(s) && WindowInv(s) && s.flight.Posted? && s.hist[LastIdx(s)].wm >= s.flight.mark
    ensures s.flight.landed
  {
    assert s.spans[|s.spans| - 1].lo < s.spans[|s.spans| - 1].hi;
  }

  lemma RecordParts(s: State, wm: nat)
    requires |s.hist| > 0 && wm == s.hist[LastIdx(s)].wm && s.flight.Settling? && s.flight.mark > 0
    requires TailOk(s.tail, wm, s.log, s.failed) && Sorted(s.log)
    ensures TailInv(DoRecord(s, true))
  {
    var s' := DoRecord(s, true);
    TailRaise(s.tail, wm, s'.tail, wm, s.log, s.failed);
    assert s'.hist[LastIdx(s')].wm == wm;
    TailIntro(s');
  }

  lemma RecordInv(s: State, ok: bool)
    requires Inv(s) && s.flight.Settling?
    ensures Inv(DoRecord(s, ok))
  {
    if ok {
      var s' := DoRecord(s, true);
      RecordParts(s, s.hist[LastIdx(s)].wm);
      CatalogIntro(s');
      WindowIntro(s');
      LikeWaits(s, s');
    } else {
      FlightInv(s, Idle);
    }
  }

  lemma TruncateTail(s: State, removed: set<nat>, wm: nat)
    requires |s.hist| > 0 && wm == s.hist[LastIdx(s)].wm && s.flight.Recorded? && 0 < s.flight.mark <= s.tail.sidecar
    requires forall q :: q in removed ==> q <= s.flight.mark
    requires TailOk(s.tail, wm, s.log, s.failed)
    ensures TailInv(DoTruncate(s, removed))
  {
    var s' := DoTruncate(s, removed);
    TailTruncate(s.tail, wm, s.log, s.failed, removed);
    assert s'.hist[LastIdx(s')].wm == wm;
    TailIntro(s');
  }

  lemma TruncateRest(s: State, removed: set<nat>)
    requires CatalogInv(s) && WindowInv(s) && s.flight.Recorded?
    ensures CatalogInv(DoTruncate(s, removed)) && WindowInv(DoTruncate(s, removed))
  {
    var s' := DoTruncate(s, removed);
    assert s' == s.(tail := s.tail.(frames := s'.tail.frames), flight := Idle);
    CatalogIntro(s');
    WindowIntro(s');
  }

  lemma TruncateInv(s: State, removed: set<nat>)
    requires Inv(s) && s.flight.Recorded? && forall q :: q in removed ==> q <= s.flight.mark
    ensures Inv(DoTruncate(s, removed))
  {
    TruncateTail(s, removed, s.hist[LastIdx(s)].wm);
    TruncateRest(s, removed);
    LikeWaits(s, DoTruncate(s, removed));
  }

  // ---- everyone else ------------------------------------------------------------------------------------------------

  lemma ForeignLandsOn(s: State, next: Version)
    requires |s.hist| > 0 && next == Version(s.nextSnap, s.hist[LastIdx(s)].rows, s.hist[LastIdx(s)].wm)
    requires SeenOk(s.hist, s.spans, s.buf.flushed) && IdsOk(s.hist, s.nextSnap, s.buf.flushed)
    ensures LandsOn(s.hist, next, s.spans, s.buf.flushed)
    ensures forall i: nat :: i < |s.buf.flushed| ==>
      Contains(s.hist + [next], |s.hist|, s.buf.flushed[i].commit) == Contains(s.hist, LastIdx(s), s.buf.flushed[i].commit)
  {
    forall i: nat | i < |s.buf.flushed|
      ensures Contains(s.hist + [next], |s.hist|, s.buf.flushed[i].commit) == Contains(s.hist, LastIdx(s), s.buf.flushed[i].commit)
    {
      ContainsNew(s.hist, next, s.buf.flushed[i].commit);
    }
  }

  lemma ForeignLink(s: State, next: Version, j: nat)
    requires ForeignSame(s, next) && LinkOk(s.hist, s.served, s.scans, s.spans, s.liveLo, s.buf.flushed, s.base, s.log)
    requires s.served < |s.hist| && FirstUnseen(s.hist + [next], s.buf.flushed, |s.hist|, j)
    requires j == |s.buf.flushed| ==> next.wm <= s.liveLo
    ensures At(s.base, s.log, next.wm) == At(s.base, s.log, Lo(s.spans, s.liveLo, j))
  {
    assert Servable(s.hist, s.served, s.scans, LastIdx(s));
    assert FirstUnseen(s.hist, s.buf.flushed, LastIdx(s), j);
  }

  /** The foreign version shows the generations its predecessor showed. */
  ghost predicate ForeignSame(s: State, next: Version) {
    && |s.hist| > 0 && next.wm == s.hist[LastIdx(s)].wm
    && forall i: nat :: i < |s.buf.flushed| ==>
         Contains(s.hist + [next], |s.hist|, s.buf.flushed[i].commit) == Contains(s.hist, LastIdx(s), s.buf.flushed[i].commit)
  }

  lemma ForeignCatalog(s: State)
    requires CatalogInv(s)
    ensures CatalogInv(DoForeign(s))
  {
    var last := s.hist[LastIdx(s)];
    var s', next := DoForeign(s), Version(s.nextSnap, last.rows, last.wm);
    ForeignLandsOn(s, next);
    LandHist(s.hist, s.base, s.log, s.frozen, next);
    LandSeen(s.hist, next, s.spans, s.buf.flushed);
    forall j: nat | FirstUnseen(s.hist + [next], s.buf.flushed, |s.hist|, j) && (j == |s.buf.flushed| ==> next.wm <= s.liveLo)
      ensures At(s.base, s.log, next.wm) == At(s.base, s.log, Lo(s.spans, s.liveLo, j))
    {
      ForeignLink(s, next, j);
    }
    LandLink(s.hist, s.served, s.scans, s.spans, s.liveLo, s.buf.flushed, s.base, s.log, next);
    LandObserved(s.hist, s.served, s.scans, s.buf.flushed, s.clock, next);
    LandLag(s.hist, s.scans, s.buf.flushed, s.clock, s.lag, next);
    LandAllSeen(s.hist, s.buf.flushed, next, s.flight);
    ForeignIds(s.hist, s.nextSnap, s.buf.flushed, next);
    CatalogIntro(s');
  }

  lemma ForeignIds(hist: seq<Version>, nextSnap: nat, flushed: seq<Gen>, next: Version)
    requires IdsOk(hist, nextSnap, flushed) && next.id == nextSnap
    ensures IdsOk(hist + [next], nextSnap + 1, flushed)
  {}

  lemma ForeignPosted(s: State, next: Version)
    requires s.flight.Posted? && |s.hist| > 0 && next.wm == s.hist[LastIdx(s)].wm && next.id == s.nextSnap
    requires PostedOk(s.flight.next, s.flight.mark, s.flight.landed, s.hist, s.nextSnap, s.buf, s.spans, s.liveLo,
                      s.frozen, s.tail.sidecar, s.base, s.log)
    ensures PostedOk(s.flight.next, s.flight.mark, s.flight.landed, s.hist + [next], s.nextSnap + 1, s.buf, s.spans,
                     s.liveLo, s.frozen, s.tail.sidecar, s.base, s.log)
  {}

  lemma ForeignFlight(s: State, next: Version)
    requires |s.hist| > 0 && next.wm == s.hist[LastIdx(s)].wm && next.id == s.nextSnap
    requires FlightOk(s.flight, s.hist, s.nextSnap, s.buf, s.spans, s.liveLo, s.frozen, s.tail.sidecar, s.base, s.log)
    ensures FlightOk(s.flight, s.hist + [next], s.nextSnap + 1, s.buf, s.spans, s.liveLo, s.frozen, s.tail.sidecar, s.base, s.log)
  {
    var hist' := s.hist + [next];
    assert hist'[|hist'| - 1].wm == s.hist[|s.hist| - 1].wm;
    if s.flight.Posted? {
      ForeignPosted(s, next);
    }
  }

  lemma ForeignWindow(s: State)
    requires WindowInv(s) && |s.hist| > 0
    ensures WindowInv(DoForeign(s))
  {
    var last := s.hist[LastIdx(s)];
    ForeignFlight(s, Version(s.nextSnap, last.rows, last.wm));
    WindowIntro(DoForeign(s));
  }

  lemma ForeignInv(s: State)
    requires Inv(s)
    ensures Inv(DoForeign(s))
  {
    var s' := DoForeign(s);
    ForeignCatalog(s);
    ForeignWindow(s);
    assert s'.hist[LastIdx(s')].wm == s.hist[LastIdx(s)].wm;
    TailIntro(s');
    LikeWaits(s, s');
  }

  lemma BeginScanned(scans: multiset<Scan>, x: Scan)
    ensures forall v :: Scanned(scans + multiset{x}, v) ==> Scanned(scans, v) || v == x.version
  {
    forall v | Scanned(scans + multiset{x}, v) ensures Scanned(scans, v) || v == x.version {
      var y :| y in scans + multiset{x} && y.version == v;
      assert y == x || y in scans;
    }
  }

  lemma BeginScanInv(s: State, v: nat)
    requires Inv(s) && s.served <= v < |s.hist| && Recent(s, v)
    ensures Inv(s.(scans := s.scans + multiset{Scan(v, s.clock)}))
  {
    var s' := s.(scans := s.scans + multiset{Scan(v, s.clock)});
    BeginScanned(s.scans, Scan(v, s.clock));
    NarrowLink(s.hist, s.served, s.scans, s.served, s'.scans, s.spans, s.liveLo, s.buf.flushed, s.buf.flushed, s.base, s.log);
    CatalogIntro(s');
    WindowIntro(s');
    LikeWaits(s, s');
  }

  lemma TickInv(s: State, d: nat)
    requires Inv(s)
    ensures Inv(s.(clock := s.clock + d))
  {
    var s' := s.(clock := s.clock + d);
    CatalogIntro(s');
    WindowIntro(s');
    LikeWaits(s, s');
  }

  // ---- collection ------------------------------------------------------------------------------------------------------

  /** Whatever is collected, every metadata version a scan holds or can still get contains. */
  lemma CollectedSeen(s: State, v: nat, i: nat)
    requires CatalogInv(s) && ScansYoung(s) && Servable(s.hist, s.served, s.scans, v)
    requires i < |s.buf.flushed| && Expired(s.buf.flushed[i], s.clock, s.gcAge)
    ensures Contains(s.hist, v, s.buf.flushed[i].commit)
  {
    if s.served <= v {
      ContainsUp(s.hist, s.served, v, s.buf.flushed[i].commit, s.base, s.log, s.frozen);
    } else {
      var x :| x in s.scans && x.version == v;
      YoungHolds(s, x, i);
    }
  }

  /** A scan younger than the age less the lag began after anything now old enough to go was in its
      metadata. */
  lemma YoungHolds(s: State, x: Scan, i: nat)
    requires LagOk(s.hist, s.scans, s.buf.flushed, s.clock, s.lag) && ScansYoung(s) && x in s.scans
    requires i < |s.buf.flushed| && Expired(s.buf.flushed[i], s.clock, s.gcAge)
    ensures Contains(s.hist, x.version, s.buf.flushed[i].commit)
  {
    assert HoldsExpired(s, x.version) || s.clock + s.lag < x.began + s.gcAge;
  }

  lemma CollectCatalog(s: State, k: nat)
    requires CatalogInv(s) && ScansYoung(s) && k <= |s.buf.flushed|
    requires forall i :: 0 <= i < k ==> Expired(s.buf.flushed[i], s.clock, s.gcAge)
    ensures CatalogInv(s.(buf := s.buf.(flushed := s.buf.flushed[k..]), spans := s.spans[k..]))
  {
    var s' := s.(buf := s.buf.(flushed := s.buf.flushed[k..]), spans := s.spans[k..]);
    forall v: nat, i | Servable(s.hist, s.served, s.scans, v) && 0 <= i < k
      ensures Contains(s.hist, v, s.buf.flushed[i].commit)
    {
      CollectedSeen(s, v, i);
    }
    SuffixMarks(s.spans, s.liveLo, s.frozen, s.tail.nextSeq, k);
    SuffixChain(s.spans, s.liveLo, s.buf.flushed, s.base, s.log, k);
    SuffixSeen(s.hist, s.spans, s.buf.flushed, k);
    SuffixLink(s.hist, s.served, s.scans, s.spans, s.liveLo, s.buf.flushed, s.base, s.log, k);
    SuffixObserved(s.hist, s.served, s.scans, s.buf.flushed, s.clock, k);
    SuffixIds(s.hist, s.nextSnap, s.buf.flushed, s.flight, k);
    SuffixLag(s.hist, s.scans, s.buf.flushed, s.clock, s.lag, k);
    CatalogIntro(s');
  }

  lemma CollectBuf(pk: seq<string>, keyedTable: bool, b: Buf, k: nat)
    requires BufOk(pk, keyedTable, b) && k <= |b.flushed|
    ensures BufOk(pk, keyedTable, b.(flushed := b.flushed[k..]))
  {
    var n :| ClaimedPrefix(b.pending, n);
    assert ClaimedPrefix(b.(flushed := b.flushed[k..]).pending, n);
  }

  lemma CollectWindow(s: State, k: nat)
    requires WindowInv(s) && s.flight.Idle? && k <= |s.buf.flushed| && k <= |s.spans|
    ensures WindowInv(s.(buf := s.buf.(flushed := s.buf.flushed[k..]), spans := s.spans[k..]))
  {
    var s' := s.(buf := s.buf.(flushed := s.buf.flushed[k..]), spans := s.spans[k..]);
    CollectBuf(s.pk, s.keyedTable, s.buf, k);
    LikeRetract(s.buf, s'.buf, NOTHING);
    WindowIntro(s');
  }

  lemma CollectInv(s: State)
    requires Inv(s) && s.flight.Idle? && ScansYoung(s)
    ensures Inv(DoCollect(s))
  {
    ExpiredPrefix(s.buf.flushed, s.clock, s.gcAge);
    var k := ExpiredCount(s.buf.flushed, s.clock, s.gcAge);
    CollectCatalog(s, k);
    CollectWindow(s, k);
    LikeWaits(s, DoCollect(s));
  }
}
