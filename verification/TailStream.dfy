/** A tail subscription: what the snapshot serves and what the events after it deliver. Every buffered
    operation carries a sequence no higher than the window's mark, so a snapshot can always be served and
    its mark bounds what it serves. */
module TailStream {
  import opened Rows
  import opened Window
  import opened Routing
  import opened Undo
  import opened Statements
  import opened Log
  import opened Engine
  import opened Invariants
  import opened WindowSteps
  import opened CrashSteps
  import opened TailApi
  import opened Sequencing
  import opened Refinement
  import opened Durability

  // ---- sequences in the window ------------------------------------------------------------------------------

  ghost predicate Under(sq: Option<nat>, top: nat) {
    sq.Some? && sq.value <= top
  }

  ghost predicate EntriesUnder(entries: map<Key, Entry>, top: nat) {
    forall k :: k in entries ==> Under(entries[k].seqno, top)
  }

  ghost predicate PendingUnder(pending: seq<Batch>, top: nat) {
    forall i :: 0 <= i < |pending| ==> Under(pending[i].seqno, top)
  }

  ghost predicate GenUnder(g: Gen, top: nat) {
    (forall i :: 0 <= i < |g.batches| ==> Under(g.batches[i].seqno, top)) && EntriesUnder(g.keyed, top)
  }

  ghost predicate GensUnder(flushed: seq<Gen>, top: nat) {
    forall i :: 0 <= i < |flushed| ==> GenUnder(flushed[i], top)
  }

  /** What an undo would put back. */
  ghost predicate RecordsUnder(recs: seq<RoutedKey>, top: nat) {
    forall j :: 0 <= j < |recs| && recs[j].displaced.Some? ==> Under(recs[j].displaced.value.seqno, top)
  }

  ghost predicate WaitsUnder(waiting: map<nat, Wait>, top: nat) {
    forall q :: q in waiting ==> RecordsUnder(waiting[q].routed.keyed, top)
  }

  ghost predicate WindowUnder(b: Buf, top: nat) {
    PendingUnder(b.pending, top) && EntriesUnder(Entries(b), top) && GensUnder(b.flushed, top)
  }

  ghost predicate SeqsUnder(s: State) {
    && WindowUnder(s.buf, Top(s.buf, 0)) && EntriesUnder(SnapKeyed(s.flight), Top(s.buf, 0))
    && WaitsUnder(s.waiting, Top(s.buf, 0))
  }

  lemma Higher(b: Buf, waiting: map<nat, Wait>, snap: map<Key, Entry>, top: nat, top': nat)
    requires top <= top'
    ensures WindowUnder(b, top) ==> WindowUnder(b, top')
    ensures WaitsUnder(waiting, top) ==> WaitsUnder(waiting, top')
    ensures EntriesUnder(snap, top) ==> EntriesUnder(snap, top')
  {
    if GensUnder(b.flushed, top) {
      forall i | 0 <= i < |b.flushed| ensures GenUnder(b.flushed[i], top') { assert GenUnder(b.flushed[i], top); }
    }
    if WaitsUnder(waiting, top) {
      forall q | q in waiting ensures RecordsUnder(waiting[q].routed.keyed, top') {
        assert RecordsUnder(waiting[q].routed.keyed, top);
      }
    }
  }

  // ---- one statement ------------------------------------------------------------------------------------------

  lemma {:induction false} SupersedeUnder(a: Acc, rows: seq<Row>, sq: Option<nat>, top: nat)
    requires a.buf.keyed.Some? && EntriesUnder(Entries(a.buf), top) && Under(sq, top) && RecordsUnder(a.routed.keyed, top)
    ensures var r := SupersedeRows(a, rows, sq); EntriesUnder(Entries(r.buf), top) && RecordsUnder(r.routed.keyed, top)
  {
    if |rows| > 0 {
      SupersedeUnder(a, rows[..|rows| - 1], sq, top);
    }
  }

  lemma InsertUnder(b: Buf, batches: seq<seq<Row>>, sq: Option<nat>, top: nat)
    requires EntriesUnder(Entries(b), top) && Under(sq, top)
    ensures RecordsUnder(Route(b, batches, sq).routed.keyed, top)
  {
    RouteEffect(b, batches, sq);
    if b.keyed.Some? {
      RouteRecords(b, batches, sq);
      SupersedeUnder(Acc(b, NOTHING), Hits(Flatten(batches), Entries(b).Keys), sq, top);
    }
  }

  /** A statement sequenced at or above everything in the window. */
  lemma StmtUnder(b: Buf, pk: seq<string>, op: Op, staged: Option<nat>, replayed: Option<nat>, top: nat)
    requires !PkChanged(b, pk) && WindowUnder(b, top) && Under(StmtSeq(staged, replayed), top)
    ensures var a := RouteStmt(b, pk, op, staged, replayed);
            WindowUnder(a.buf, top) && RecordsUnder(a.routed.keyed, top)
  {
    var a := RouteStmt(b, pk, op, staged, replayed);
    StmtFacts(b, pk, op, staged, replayed);
    forall i | 0 <= i < |a.buf.pending| ensures Under(a.buf.pending[i].seqno, top) {
      if i < |b.pending| { assert a.buf.pending[i] == b.pending[i]; }
    }
    forall k | k in Entries(a.buf) ensures Under(Entries(a.buf)[k].seqno, top) {
      assert k in OpKeys(op) || (k in Entries(b) && Entries(a.buf)[k] == Entries(b)[k]);
    }
    StmtRecordsUnder(b, pk, op, staged, replayed, top);
  }

  lemma StmtRecordsUnder(b: Buf, pk: seq<string>, op: Op, staged: Option<nat>, replayed: Option<nat>, top: nat)
    requires !PkChanged(b, pk) && EntriesUnder(Entries(b), top) && Under(StmtSeq(staged, replayed), top)
    ensures RecordsUnder(RouteStmt(b, pk, op, staged, replayed).routed.keyed, top)
  {
    if op.Insert? {
      assert Entries(Stage(b, staged)) == Entries(b);
      InsertUnder(Stage(b, staged), op.batches, StmtSeq(staged, replayed), top);
    }
  }

  lemma StageUnder(s: State, op: Op)
    requires SeqsUnder(s) && !PkChanged(s.buf, s.pk) && Top(s.buf, 0) <= s.tail.nextSeq
    ensures SeqsUnder(DoStage(s, op))
  {
    var sq, a := s.tail.nextSeq, RouteStmt(s.buf, s.pk, op, Some(s.tail.nextSeq), None);
    Higher(s.buf, s.waiting, SnapKeyed(s.flight), Top(s.buf, 0), sq);
    StmtUnder(s.buf, s.pk, op, Some(sq), None, sq);
    StmtFacts(s.buf, s.pk, op, Some(sq), None);
    assert Top(a.buf, 0) == sq;
    StagedUnder(s, op, a, sq);
  }

  lemma StagedUnder(s: State, op: Op, a: Acc, top: nat)
    requires WindowUnder(a.buf, top) && RecordsUnder(a.routed.keyed, top) && Top(a.buf, 0) == top
    requires WaitsUnder(s.waiting, top) && EntriesUnder(SnapKeyed(s.flight), top)
    ensures SeqsUnder(Staged(s, op, a))
  {
    var waiting' := Staged(s, op, a).waiting;
    forall q | q in waiting' ensures RecordsUnder(waiting'[q].routed.keyed, top) {
      if q != s.tail.nextSeq { assert RecordsUnder(s.waiting[q].routed.keyed, top); }
    }
  }

  // ---- undo ------------------------------------------------------------------------------------------------------

  lemma {:induction false} RestoreUnder(entries: map<Key, Entry>, recs: seq<RoutedKey>, top: nat)
    requires EntriesUnder(entries, top) && RecordsUnder(recs, top)
    ensures EntriesUnder(RestoreKeys(entries, recs), top)
  {
    if |recs| > 0 {
      assert forall j :: 0 <= j < |recs| - 1 ==> recs[..|recs| - 1][j] == recs[j];
      RestoreUnder(entries, recs[..|recs| - 1], top);
    }
  }

  lemma RetractUnder(b: Buf, routed: Routed, top: nat)
    requires WindowUnder(b, top) && RecordsUnder(routed.keyed, top)
    ensures WindowUnder(Retract(b, routed), top)
  {
    UndoEntries(b, routed);
    RestoreUnder(Entries(b), routed.keyed, top);
    DropIdsFacts(b.pending, IdSet(routed.ids));
    var left := DropIds(b.pending, IdSet(routed.ids));
    forall i | 0 <= i < |left| ensures Under(left[i].seqno, top) {
      assert left[i] in b.pending;
    }
  }

  lemma FewerWaits(waiting: map<nat, Wait>, waiting': map<nat, Wait>, top: nat)
    requires WaitsUnder(waiting, top)
    requires forall q :: q in waiting' ==> q in waiting && waiting'[q].routed == waiting[q].routed
    ensures WaitsUnder(waiting', top)
  {
    forall q | q in waiting' ensures RecordsUnder(waiting'[q].routed.keyed, top) {
      assert RecordsUnder(waiting[q].routed.keyed, top);
    }
  }

  lemma FailUnder(s: State, sq: nat)
    requires SeqsUnder(s) && sq in s.waiting
    ensures SeqsUnder(DoFail(s, sq))
  {
    var s' := DoFail(s, sq);
    assert RecordsUnder(s.waiting[sq].routed.keyed, Top(s.buf, 0));
    RetractUnder(s.buf, s.waiting[sq].routed, Top(s.buf, 0));
    FewerWaits(s.waiting, s'.waiting, Top(s.buf, 0));
    assert Entries(s'.buf) == Entries(Unroute(s.buf, sq, s.waiting[sq].routed));
  }

  // ---- the flusher ------------------------------------------------------------------------------------------------

  lemma DrainUnder(b: Buf, n: nat, snap: map<Key, Entry>, top: nat)
    requires n <= |b.pending| && WindowUnder(b, top)
    ensures WindowUnder(DropPrefix(b, n, snap), top)
  {
    DropPrefixShape(b, n, snap);
  }

  lemma TaggedUnder(b: Buf, n: nat, snap: map<Key, Entry>, commit: GenCommit, now: nat, top: nat)
    requires n <= |b.pending| && WindowUnder(b, top) && EntriesUnder(snap, top)
    ensures WindowUnder(MoveToFlushed(b, n, snap, commit, now), top)
  {
    DrainUnder(b, n, snap, top);
    var g := Gen(commit, ToGen(b.pending[..n]), snap, now, false);
    assert GenUnder(g, top);
    var b' := MoveToFlushed(b, n, snap, commit, now);
    assert b'.flushed == b.flushed + [g];
    assert Entries(b') == Entries(DropPrefix(b, n, snap));
  }

  lemma MergedUnder(b: Buf, sid: nat, top: nat)
    requires WindowUnder(b, top)
    ensures WindowUnder(MoveBack(b, sid), top)
  {
    var p := GenPosition(b.flushed, sid);
    if p < |b.flushed| {
      var g, b' := b.flushed[p], MoveBack(b, sid);
      assert GenUnder(g, top);
      forall i | 0 <= i < |b'.flushed| ensures GenUnder(b'.flushed[i], top) {
        assert b'.flushed[i] == if i < p then b.flushed[i] else b.flushed[i + 1];
      }
      assert forall k :: k in Entries(b') ==> (k in Entries(b) && Entries(b')[k] == Entries(b)[k])
                                              || (k in g.keyed && Entries(b')[k] == g.keyed[k]);
    }
  }

  lemma {:induction false} CollectedUnder(flushed: seq<Gen>, now: nat, gcAge: nat, top: nat)
    requires GensUnder(flushed, top)
    ensures GensUnder(Unexpired(flushed, now, gcAge), top)
  {
    if |flushed| > 0 {
      assert GenUnder(flushed[|flushed| - 1], top);
      assert forall i :: 0 <= i < |flushed| - 1 ==> flushed[..|flushed| - 1][i] == flushed[i];
      CollectedUnder(flushed[..|flushed| - 1], now, gcAge, top);
    }
  }

  lemma ObservedUnder(b: Buf, isCommitted: GenCommit -> bool, top: nat)
    requires WindowUnder(b, top)
    ensures WindowUnder(NoteObserved(b, isCommitted), top)
  {
    var b' := NoteObserved(b, isCommitted);
    forall i | 0 <= i < |b'.flushed| ensures GenUnder(b'.flushed[i], top) { assert GenUnder(b.flushed[i], top); }
    assert Entries(b') == Entries(b);
  }

  // ---- a crash --------------------------------------------------------------------------------------------------------

  lemma {:induction false} ReplayUnder(pk: seq<string>, frames: seq<Stmt>)
    requires Sorted(frames)
    ensures WindowUnder(Replay(pk, frames), LastSeq(frames))
  {
    if |frames| > 0 {
      var init, e := frames[..|frames| - 1], frames[|frames| - 1];
      ReplayUnder(pk, init);
      Higher(Replay(pk, init), map[], map[], LastSeq(init), e.seqno);
      StmtUnder(Replay(pk, init), pk, e.op, None, Some(e.seqno), e.seqno);
    }
  }

  lemma BootUnder(pk: seq<string>, survivors: seq<Stmt>)
    requires Sorted(survivors)
    ensures WindowUnder(Boot(pk, survivors), Top(Boot(pk, survivors), 0))
  {
    ReplayUnder(pk, survivors);
    if |survivors| > 0 {
      var b := Replay(pk, survivors);
      assert Entries(Boot(pk, survivors)) == Entries(b);
      Higher(b, map[], map[], LastSeq(survivors), Top(Boot(pk, survivors), 0));
    }
  }

  lemma CrashUnder(s: State, lost: set<nat>)
    requires |s.hist| > 0 && Sorted(s.log) && TailOk(s.tail, s.hist[LastIdx(s)].wm, s.log, s.failed)
    ensures SeqsUnder(DoCrash(s, lost))
  {
    SurvivorsAre(s, lost);
    BootUnder(s.pk, Survivors(s, lost));
    CrashFlightIs(s, lost);
  }

  lemma CrashFlightIs(s: State, lost: set<nat>)
    requires |s.hist| > 0
    ensures var s' := DoCrash(s, lost);
            s'.buf == Boot(s.pk, Survivors(s, lost)) && s'.waiting == map[] && SnapKeyed(s'.flight) == map[]
  {}

  // ---- every reachable state --------------------------------------------------------------------------------------------

  /** The steps of the flusher and of scans: what each makes of the window. */
  lemma SameUnder(s: State, s': State)
    requires SeqsUnder(s) && Top(s'.buf, 0) == Top(s.buf, 0) && WindowUnder(s'.buf, Top(s.buf, 0))
    requires EntriesUnder(SnapKeyed(s'.flight), Top(s.buf, 0))
    requires forall q :: q in s'.waiting ==> q in s.waiting && s'.waiting[q].routed == s.waiting[q].routed
    ensures SeqsUnder(s')
  {
    FewerWaits(s.waiting, s'.waiting, Top(s.buf, 0));
  }

  lemma SnapshotUnder(s: State)
    requires SeqsUnder(s)
    ensures SeqsUnder(DoSnapshot(s))
  {
    assert Entries(AfterSnapshot(s.buf)) == Entries(s.buf);
    SameUnder(s, DoSnapshot(s));
  }

  lemma LoadUnder(s: State)
    requires SeqsUnder(s) && s.flight.Snapped? && |s.hist| > 0
    ensures SeqsUnder(DoLoad(s))
  {
    ObservedUnder(s.buf, Seen(s.hist, LastIdx(s)), Top(s.buf, 0));
    SameUnder(s, DoLoad(s));
  }

  lemma ParkUnder(s: State)
    requires SeqsUnder(s) && s.flight.Loaded? && s.flight.snap.n <= |s.buf.pending|
    ensures SeqsUnder(DoPark(s))
  {
    var snap := s.flight.snap;
    TaggedUnder(s.buf, snap.n, snap.keyed, CoveredByWatermark(MarkOf(snap)), s.clock, Top(s.buf, 0));
    DropPrefixShape(s.buf, snap.n, snap.keyed);
    SameUnder(s, DoPark(s));
  }

  lemma DropUnder(s: State)
    requires SeqsUnder(s) && s.flight.Loaded? && s.flight.snap.n <= |s.buf.pending|
    ensures SeqsUnder(DoDrop(s))
  {
    DrainUnder(s.buf, s.flight.snap.n, s.flight.snap.keyed, Top(s.buf, 0));
    DropPrefixShape(s.buf, s.flight.snap.n, s.flight.snap.keyed);
    SameUnder(s, DoDrop(s));
  }

  lemma PrepareUnder(s: State)
    requires SeqsUnder(s) && s.flight.Loaded? && s.flight.snap.n <= |s.buf.pending| && s.flight.base < |s.hist|
    ensures SeqsUnder(DoPrepare(s))
  {
    var snap := s.flight.snap;
    TaggedUnder(s.buf, snap.n, snap.keyed, Snapshot(s.nextSnap), s.clock, Top(s.buf, 0));
    DropPrefixShape(s.buf, snap.n, snap.keyed);
    SameUnder(s, DoPrepare(s));
  }

  lemma BackUnder(s: State)
    requires SeqsUnder(s) && s.flight.Posted? && |s.spans| > 0 && |s.buf.flushed| > 0
    ensures SeqsUnder(DoMergeBack(s))
  {
    MergedUnder(s.buf, s.flight.next.id, Top(s.buf, 0));
    SameUnder(s, DoMergeBack(s));
  }

  lemma OverlayUnder(s: State, x: Scan)
    requires SeqsUnder(s)
    ensures SeqsUnder(DoOverlay(s, x))
  {
    ObservedUnder(s.buf, Seen(s.hist, x.version), Top(s.buf, 0));
    SameUnder(s, DoOverlay(s, x));
  }

  lemma CollectUnder(s: State)
    requires SeqsUnder(s)
    ensures SeqsUnder(DoCollect(s))
  {
    CollectedUnder(s.buf.flushed, s.clock, s.gcAge, Top(s.buf, 0));
    assert Entries(DoCollect(s).buf) == Entries(s.buf);
    SameUnder(s, DoCollect(s));
  }

  lemma AckUnder(s: State, sq: nat)
    requires SeqsUnder(s)
    ensures SeqsUnder(DoAck(s, sq))
  {
    assert Entries(DoAck(s, sq).buf) == Entries(s.buf);
    SameUnder(s, DoAck(s, sq));
  }

  /** Nothing of the window changes. */
  lemma StillUnder(s: State, s': State)
    requires SeqsUnder(s) && s'.buf == s.buf && s'.waiting == s.waiting
    requires SnapKeyed(s'.flight) == SnapKeyed(s.flight) || SnapKeyed(s'.flight) == map[]
    ensures SeqsUnder(s')
  {}

  lemma TopBelow(s: State)
    requires Inv(s)
    ensures Top(s.buf, 0) < s.tail.nextSeq
  {}

  lemma StatementsUnder(s: State, step: Step)
    requires Inv(s) && SeqsUnder(s) && Can(s, step) && OfStatements(step)
    ensures SeqsUnder(Do(s, step))
  {
    match step
    case StageStmt(op) =>
      TopBelow(s);
      StageUnder(s, op);
    case Ack(sq) => AckUnder(s, sq);
    case FailWait(sq) => FailUnder(s, sq);
  }

  lemma SnapshotsUnder(s: State, step: Step)
    requires SeqsUnder(s) && Can(s, step) && OfSnapshots(step)
    ensures SeqsUnder(Do(s, step))
  {
    match step
    case FlushSnapshot => SnapshotUnder(s);
    case FlushLoad => LoadUnder(s);
    case ParkCovered => ParkUnder(s);
  }

  lemma CommitsUnder(s: State, step: Step)
    requires SeqsUnder(s) && Can(s, step) && OfCommits(step)
    ensures SeqsUnder(Do(s, step))
  {
    match step
    case DropNetZero => DropUnder(s);
    case Prepare => PrepareUnder(s);
    case Land => StillUnder(s, DoLand(s));
  }

  lemma OutcomesUnder(s: State, step: Step)
    requires SeqsUnder(s) && Can(s, step) && OfOutcomes(step)
    ensures SeqsUnder(Do(s, step))
  {
    if step.Reject? || (step.PostError? && !(step.reload && s.hist[LastIdx(s)].wm >= s.flight.mark)) {
      BackUnder(s);
    } else {
      StillUnder(s, s.(flight := Settling(s.flight.mark)));
    }
  }

  lemma TailStepUnder(s: State, step: Step)
    requires Inv(s) && SeqsUnder(s) && Can(s, step) && OfTail(step)
    ensures SeqsUnder(Do(s, step))
  {
    match step
    case RecordWatermark(ok) => RecordUnder(s, ok);
    case Truncate(removed) => TruncateUnder(s, removed);
    case Crash(lost) => CrashStepUnder(s, lost);
  }

  lemma RecordUnder(s: State, ok: bool)
    requires SeqsUnder(s) && Can(s, RecordWatermark(ok))
    ensures SeqsUnder(Do(s, RecordWatermark(ok)))
  {
    RecordCan(s, ok);
    StillUnder(s, DoRecord(s, ok));
  }

  lemma TruncateUnder(s: State, removed: set<nat>)
    requires SeqsUnder(s) && Can(s, Truncate(removed))
    ensures SeqsUnder(Do(s, Truncate(removed)))
  {
    TruncateCan(s, removed);
    StillUnder(s, DoTruncate(s, removed));
  }

  lemma CrashStepUnder(s: State, lost: set<nat>)
    requires Inv(s) && Can(s, Crash(lost))
    ensures SeqsUnder(Do(s, Crash(lost)))
  {
    CrashParts(s, lost);
    CrashUnder(s, lost);
  }

  lemma ScansUnder(s: State, step: Step)
    requires SeqsUnder(s) && Can(s, step) && OfScans(step)
    ensures SeqsUnder(Do(s, step))
  {
    match step
    case BeginScan(v) => StillUnder(s, s.(scans := s.scans + multiset{Scan(v, s.clock)}));
    case TakeOverlay(x) => OverlayUnder(s, x);
    case Collect => CollectUnder(s);
  }

  lemma RestUnder(s: State, step: Step)
    requires SeqsUnder(s) && Can(s, step) && (step.ForeignCommit? || step.Tick?)
    ensures SeqsUnder(Do(s, step))
  {
    if step.Tick? {
      StillUnder(s, s.(clock := s.clock + step.d));
    } else {
      StillUnder(s, DoForeign(s));
    }
  }

  lemma UnderStep(s: State, step: Step)
    requires Inv(s) && SeqsUnder(s) && Can(s, step)
    ensures SeqsUnder(Do(s, step))
  {
    if OfStatements(step) {
      StatementsUnder(s, step);
    } else if OfSnapshots(step) {
      SnapshotsUnder(s, step);
    } else if OfCommits(step) {
      CommitsUnder(s, step);
    } else if OfOutcomes(step) {
      OutcomesUnder(s, step);
    } else if OfTail(step) {
      TailStepUnder(s, step);
    } else if OfScans(step) {
      ScansUnder(s, step);
    } else {
      RestUnder(s, step);
    }
  }

  lemma UnderNext(s: State, step: Step, s': State)
    requires Inv(s) && SeqsUnder(s) && Next(s, step, s')
    ensures SeqsUnder(s')
  {
    UnderStep(s, step);
  }

  lemma UnderAlong(trace: seq<State>, steps: seq<Step>, i: nat)
    requires Run(trace, steps) && i < |steps| && SeqsUnder(trace[i])
    ensures SeqsUnder(trace[i + 1])
  {
    RunInv(trace, steps, i);
    UnderNext(trace[i], steps[i], trace[i + 1]);
  }

  lemma {:induction false} RunUnder(trace: seq<State>, steps: seq<Step>, i: nat)
    requires Run(trace, steps) && i < |trace|
    ensures SeqsUnder(trace[i])
  {
    if i > 0 {
      RunUnder(trace, steps, i - 1);
      UnderAlong(trace, steps, i - 1);
    }
  }

  // ---- what a subscriber gets ------------------------------------------------------------------------------------------

  /** Every operation carries its sequence, so the snapshot never fails. */
  lemma AlwaysServes(trace: seq<State>, steps: seq<Step>, i: nat)
    requires Run(trace, steps) && i < |trace|
    ensures AllSequenced(trace[i].buf)
  {
    RunUnder(trace, steps, i);
    var b := trace[i].buf;
    forall j | 0 <= j < |b.flushed| ensures GenSequenced(b.flushed[j]) { assert GenUnder(b.flushed[j], Top(b, 0)); }
  }

  lemma {:induction false} AppendsUnder(batches: seq<GenBatch>, top: nat, it: Item)
    requires forall i :: 0 <= i < |batches| ==> Under(batches[i].seqno, top)
    ensures it in AppendBag(batches) ==> it.seqno <= top
  {
    if |batches| > 0 {
      assert forall i :: 0 <= i < |batches| - 1 ==> batches[..|batches| - 1][i] == batches[i];
      AppendsUnder(batches[..|batches| - 1], top, it);
    }
  }

  lemma {:induction false} FlushedUnder(flushed: seq<Gen>, top: nat, it: Item)
    requires GensUnder(flushed, top)
    ensures it in FlushedBag(flushed) ==> it.seqno <= top
  {
    if |flushed| > 0 {
      var init, last := flushed[..|flushed| - 1], flushed[|flushed| - 1];
      assert GenUnder(last, top) && forall i :: 0 <= i < |init| ==> init[i] == flushed[i];
      FlushedUnder(init, top, it);
      AppendsUnder(last.batches, top, it);
    }
  }

  /** No buffered operation lies above the window's high mark. */
  lemma ItemsUnder(b: Buf, top: nat, it: Item)
    requires WindowUnder(b, top) && it in WindowBag(b)
    ensures it.seqno <= top
  {
    FlushedUnder(b.flushed, top, it);
    AppendsUnder(ToGen(b.pending), top, it);
  }

  /** The mark bounds what the snapshot serves, and what is staged later lies above it. */
  lemma ServedBelowHigh(trace: seq<State>, steps: seq<Step>, i: nat, items: seq<Item>, high: nat)
    requires Run(trace, steps) && i < |trace| && ServesWindow(trace[i].buf, items, high)
    ensures forall x :: x in items ==> x.seqno <= high
    ensures high < trace[i].tail.nextSeq
  {
    RunUnder(trace, steps, i);
    RunInv(trace, steps, i);
    TopBelow(trace[i]);
    forall x | x in items ensures x.seqno <= Top(trace[i].buf, 0) {
      assert x in multiset(items);
      ItemsUnder(trace[i].buf, Top(trace[i].buf, 0), x);
    }
  }

  /** A buffered operation whose wait has not failed is served exactly when its wait is over. One still
      waiting is held back, and once acknowledged it passes the subscriber's filter, sequence above the
      snapshot's mark, unless the snapshot served an operation sequenced above it: exactly then it is
      neither in the snapshot nor in the stream and is seen only with the next flush. None is served and
      streamed both. */
  lemma SubscriberGets(trace: seq<State>, steps: seq<Step>, i: nat, items: seq<Item>, high: nat, it: Item)
    requires Run(trace, steps) && i < |trace| && ServesWindow(trace[i].buf, items, high)
    requires it in WindowBag(trace[i].buf) && it.seqno !in trace[i].failed
    ensures it in items <==> it.seqno !in trace[i].waiting
    ensures it in items ==> !(it.seqno > high)
    ensures it.seqno in trace[i].waiting ==>
      (it.seqno > high <==> forall x :: x in items ==> x.seqno < it.seqno)
  {
    RunResolved(trace, steps, i);
    ServedBelowHigh(trace, steps, i, items, high);
    assert it in items <==> it in multiset(items);
    if it.seqno in trace[i].waiting {
      RunInv(trace, steps, i);
      WaitPositive(trace[i], it.seqno);
      WaitingHeldBack(trace[i].buf, items, high, it);
    }
  }

  lemma WaitPositive(s: State, q: nat)
    requires Inv(s) && q in s.waiting
    ensures q > 0
  {
    assert WaitOk(q, s.waiting[q], s.buf, s.flight, s.liveLo, s.frozen, s.base, s.log, s.failed);
    assert Stmt(q, s.waiting[q].op) in s.log;
  }

  lemma WaitingHeldBack(b: Buf, items: seq<Item>, high: nat, it: Item)
    requires ServesWindow(b, items, high) && it.seqno in b.undurable && it in WindowBag(b) && it.seqno > 0
    ensures it.seqno > high <==> forall x :: x in items ==> x.seqno < it.seqno
  {
    forall x | x in items ensures x.seqno != it.seqno { assert x in multiset(items); }
  }

  lemma SeqsRise(s: State, step: Step, s': State)
    requires Next(s, step, s') && !step.Crash?
    ensures s.tail.nextSeq <= s'.tail.nextSeq
  {}

  lemma {:induction false} SeqsRiseAlong(trace: seq<State>, steps: seq<Step>, i: nat, j: nat)
    requires Run(trace, steps) && i <= j < |trace| && forall k :: i <= k < j ==> !steps[k].Crash?
    ensures trace[i].tail.nextSeq <= trace[j].tail.nextSeq
    decreases j
  {
    if i < j {
      SeqsRiseAlong(trace, steps, i, j - 1);
      SeqsRise(trace[j - 1], steps[j - 1], trace[j]);
    }
  }

  /** While the server is up, everything staged after the snapshot lies above its mark, so its event is
      delivered. */
  lemma LaterAbove(trace: seq<State>, steps: seq<Step>, i: nat, j: nat, items: seq<Item>, high: nat)
    requires Run(trace, steps) && i <= j < |trace| && ServesWindow(trace[i].buf, items, high)
    requires forall k :: i <= k < j ==> !steps[k].Crash?
    ensures high < trace[j].tail.nextSeq
  {
    ServedBelowHigh(trace, steps, i, items, high);
    SeqsRiseAlong(trace, steps, i, j);
  }
}
