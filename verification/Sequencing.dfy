/** Tail sequences of what is buffered. While no durability wait fails, every layer holds only
    operations of its own range of marks, and a keyed entry is newer than any append of its key
    beside it. */
module Sequencing {
  import opened Rows
  import opened Window
  import opened Layers
  import opened Statements
  import opened Log
  import opened Engine
  import opened Invariants
  import opened CatalogSteps
  import opened WindowSteps
  import opened FlushSteps
  import opened SettleSteps
  import opened CrashSteps
  import opened Refinement

  ghost predicate Within(sq: Option<nat>, lo: nat, hi: nat) {
    sq.Some? && lo < sq.value <= hi
  }

  /** One layer's operations lie in `(lo, hi]`, entries above the appends of their key. */
  ghost predicate LayerSeq(batches: seq<GenBatch>, ops: map<Key, Entry>, lo: nat, hi: nat) {
    && (forall i :: 0 <= i < |batches| ==> Within(batches[i].seqno, lo, hi))
    && (forall k :: k in ops ==> Within(ops[k].seqno, lo, hi))
    && (forall i, r :: 0 <= i < |batches| && r in batches[i].rows && r.key in ops
          ==> batches[i].seqno.value < ops[r.key].seqno.value)
  }

  ghost predicate GensSeq(spans: seq<Span>, flushed: seq<Gen>) {
    && |spans| == |flushed|
    && forall i :: 0 <= i < |flushed| ==> LayerSeq(flushed[i].batches, flushed[i].keyed, spans[i].lo, spans[i].hi)
  }

  function Top(b: Buf, liveLo: nat): nat {
    if b.tailHigh.Some? then b.tailHigh.value else liveLo
  }

  ghost predicate LiveSeq(b: Buf, liveLo: nat) {
    LayerSeq(ToGen(b.pending), Entries(b), liveLo, Top(b, liveLo))
  }

  /** While a snapshot is held: what it took lies up to the frozen mark, the rest above it. */
  ghost predicate SnapSeq(b: Buf, snap: Snap, liveLo: nat, frozen: nat) {
    && snap.n <= |b.pending|
    && LayerSeq(ToGen(b.pending[..snap.n]), snap.keyed, liveLo, frozen)
    && LayerSeq(ToGen(b.pending[snap.n..]), Drained(Entries(b), snap.keyed), frozen, Top(b, frozen))
  }

  ghost predicate Sequenced(s: State) {
    && GensSeq(s.spans, s.buf.flushed)
    && LiveSeq(s.buf, s.liveLo)
    && (s.flight.Snapped? || s.flight.Loaded? ==> SnapSeq(s.buf, s.flight.snap, s.liveLo, s.frozen))
  }

  lemma InitialSequenced(s: State)
    requires Initial(s)
    ensures Sequenced(s)
  {}

  // ---- one statement -------------------------------------------------------------------------------

  lemma InsertAddsNoKey(b: Buf, pk: seq<string>, op: Op, staged: Option<nat>, replayed: Option<nat>)
    requires !PkChanged(b, pk) && op.Insert?
    ensures Entries(RouteStmt(b, pk, op, staged, replayed).buf).Keys == Entries(b).Keys
  {
    AppendEntries(Stage(b, staged), op.batches, StmtSeq(staged, replayed));
  }

  /** A statement sequenced above a layer extends it. */
  lemma StmtLayer(b: Buf, b': Buf, op: Op, sq: nat, snap: map<Key, Entry>, n: nat, lo: nat, hi: nat)
    requires NewBatches(b, b', op, Some(sq)) && NewEntries(b, b', op, Some(sq)) && n <= |b.pending|
    requires if op.Insert? then Entries(b').Keys == Entries(b).Keys else b'.pending == b.pending
    requires LayerSeq(ToGen(b.pending[n..]), Drained(Entries(b), snap), lo, hi) && lo <= hi < sq
    requires OpsBelow(snap, NextStamp(b))
    ensures LayerSeq(ToGen(b'.pending[n..]), Drained(Entries(b'), snap), lo, sq)
  {
    var was, now := b.pending[n..], b'.pending[n..];
    var ops, ops' := Drained(Entries(b), snap), Drained(Entries(b'), snap);
    assert forall i :: 0 <= i < |was| ==> ToGen(now)[i] == ToGen(was)[i];
    forall i | |was| <= i < |now| ensures ToGen(now)[i].seqno == Some(sq) {
      assert now[i] == b'.pending[n + i];
    }
    forall k | k in ops' ensures (k in ops && ops'[k] == ops[k]) || ops'[k].seqno == Some(sq) {}
    forall i, r | |was| <= i < |now| && r in ToGen(now)[i].rows ensures r.key !in ops' {
      assert now[i] == b'.pending[n + i];
    }
    forall i, r | 0 <= i < |was| && r in ToGen(now)[i].rows && r.key in ops'
      ensures ToGen(now)[i].seqno.value < ops'[r.key].seqno.value
    {
      assert ToGen(now)[i] == ToGen(was)[i];
    }
  }

  lemma StageLiveSeq(s: State, op: Op)
    requires LiveSeq(s.buf, s.liveLo) && !PkChanged(s.buf, s.pk)
    requires Top(s.buf, s.liveLo) < s.tail.nextSeq && s.liveLo <= Top(s.buf, s.liveLo)
    ensures LiveSeq(DoStage(s, op).buf, s.liveLo)
  {
    var sq, b, b' := s.tail.nextSeq, s.buf, DoStage(s, op).buf;
    StmtFacts(b, s.pk, op, Some(sq), None);
    if op.Insert? { InsertAddsNoKey(b, s.pk, op, Some(sq), None); }
    DrainedNothing(Entries(b));
    DrainedNothing(Entries(b'));
    assert b.pending[0..] == b.pending && b'.pending[0..] == b'.pending;
    StmtLayer(b, b', op, sq, map[], 0, s.liveLo, Top(b, s.liveLo));
  }

  lemma StageSnapSeq(s: State, op: Op, snap: Snap)
    requires SnapSeq(s.buf, snap, s.liveLo, s.frozen) && !PkChanged(s.buf, s.pk)
    requires s.frozen <= Top(s.buf, s.frozen) < s.tail.nextSeq && OpsBelow(snap.keyed, NextStamp(s.buf))
    ensures SnapSeq(DoStage(s, op).buf, snap, s.liveLo, s.frozen)
  {
    var sq, b, b' := s.tail.nextSeq, s.buf, DoStage(s, op).buf;
    StmtFacts(b, s.pk, op, Some(sq), None);
    if op.Insert? { InsertAddsNoKey(b, s.pk, op, Some(sq), None); }
    assert b'.pending[..snap.n] == b.pending[..snap.n];
    StmtLayer(b, b', op, sq, snap.keyed, snap.n, s.frozen, Top(b, s.frozen));
  }

  lemma StageSequenced(s: State, op: Op)
    requires Inv(s) && Sequenced(s) && !PkChanged(s.buf, s.pk)
    ensures Sequenced(DoStage(s, op))
  {
    StageLiveSeq(s, op);
    StmtFacts(s.buf, s.pk, op, Some(s.tail.nextSeq), None);
    if s.flight.Snapped? || s.flight.Loaded? {
      StampsOfSnap(s);
      StageSnapSeq(s, op, s.flight.snap);
    }
  }

  lemma StampsOfSnap(s: State)
    requires WindowInv(s) && (s.flight.Snapped? || s.flight.Loaded?)
    ensures OpsBelow(s.flight.snap.keyed, NextStamp(s.buf))
  {}

  // ---- the flusher -----------------------------------------------------------------------------------

  lemma SnapshotSequenced(s: State)
    requires Inv(s) && Sequenced(s) && (s.buf.pending != [] || Entries(s.buf) != map[])
    ensures Sequenced(DoSnapshot(s))
  {
    SnapshotMark(s);
    var s' := DoSnapshot(s);
    assert ToGen(s'.buf.pending) == ToGen(s.buf.pending) && Entries(s'.buf) == Entries(s.buf);
    assert Top(s'.buf, s'.liveLo) == s'.frozen == Top(s.buf, s.liveLo);
    SnapSeqNow(s'.buf, s'.flight.snap, s.liveLo, s'.frozen);
  }

  lemma SnapSeqNow(b: Buf, snap: Snap, liveLo: nat, frozen: nat)
    requires snap.n == |b.pending| && snap.keyed == Entries(b)
    requires LayerSeq(ToGen(b.pending), Entries(b), liveLo, frozen)
    ensures SnapSeq(b, snap, liveLo, frozen)
  {
    assert b.pending[..snap.n] == b.pending && b.pending[snap.n..] == [];
    assert Drained(Entries(b), snap.keyed) == map[];
  }

  lemma SameGensSeq(spans: seq<Span>, flushed: seq<Gen>, flushed': seq<Gen>)
    requires GensSeq(spans, flushed) && SameGens(flushed, flushed')
    ensures GensSeq(spans, flushed')
  {
    forall i | 0 <= i < |flushed'| ensures LayerSeq(flushed'[i].batches, flushed'[i].keyed, spans[i].lo, spans[i].hi) {
      assert LayerSeq(flushed[i].batches, flushed[i].keyed, spans[i].lo, spans[i].hi);
    }
  }

  /** The steps that leave the live window and the layers of the generations as they are. */
  lemma SameSequenced(s: State, s': State)
    requires Sequenced(s) && SameGens(s.buf.flushed, s'.buf.flushed) && s'.spans == s.spans && s'.liveLo == s.liveLo
    requires s'.buf.pending == s.buf.pending && s'.buf.keyed == s.buf.keyed && s'.buf.tailHigh == s.buf.tailHigh
    requires s'.flight.Snapped? || s'.flight.Loaded? ==>
               (s.flight.Snapped? || s.flight.Loaded?) && s'.flight.snap == s.flight.snap && s'.frozen == s.frozen
    ensures Sequenced(s')
  {
    SameGensSeq(s.spans, s.buf.flushed, s'.buf.flushed);
    assert Entries(s'.buf) == Entries(s.buf);
  }

  lemma DrainSequenced(s: State, s': State)
    requires Inv(s) && Sequenced(s) && (s.flight.Snapped? || s.flight.Loaded?) && s.flight.snap.n <= |s.buf.pending|
    requires LikeBuf(DropPrefix(s.buf, s.flight.snap.n, s.flight.snap.keyed), s'.buf) && s'.liveLo == s.frozen
    requires GensSeq(s'.spans, s'.buf.flushed) && (s'.flight.Posted? || s'.flight.Settling?)
    ensures Sequenced(s')
  {
    DropPrefixShape(s.buf, s.flight.snap.n, s.flight.snap.keyed);
  }

  ghost predicate LikeBuf(b: Buf, b': Buf) {
    b'.pending == b.pending && b'.keyed == b.keyed && b'.tailHigh == b.tailHigh
  }

  lemma AppendGensSeq(s: State, commit: GenCommit)
    requires Sequenced(s) && (s.flight.Snapped? || s.flight.Loaded?) && s.flight.snap.n <= |s.buf.pending|
    ensures GensSeq(s.spans + [Span(s.liveLo, s.frozen)],
                    MoveToFlushed(s.buf, s.flight.snap.n, s.flight.snap.keyed, commit, s.clock).flushed)
  {}

  lemma ParkSequenced(s: State)
    requires Inv(s) && Sequenced(s) && s.flight.Loaded? && s.flight.snap.n <= |s.buf.pending|
    ensures Sequenced(DoPark(s))
  {
    ParkShape(s);
    AppendGensSeq(s, CoveredByWatermark(s.frozen));
    DrainSequenced(s, DoPark(s));
  }

  lemma DropSequenced(s: State)
    requires Inv(s) && Sequenced(s) && s.flight.Loaded? && s.flight.snap.n <= |s.buf.pending|
    ensures Sequenced(DoDrop(s))
  {
    DropPrefixShape(s.buf, s.flight.snap.n, s.flight.snap.keyed);
    DrainSequenced(s, DoDrop(s));
  }

  lemma PrepareSequenced(s: State)
    requires Inv(s) && Sequenced(s) && s.flight.Loaded? && s.flight.snap.n <= |s.buf.pending|
    requires s.flight.base < |s.hist| && !Doubled(s)
    ensures Sequenced(DoPrepare(s))
  {
    PrepareShape(s);
    AppendGensSeq(s, Snapshot(s.nextSnap));
    DrainSequenced(s, DoPrepare(s));
  }

  lemma MergedLayer(g: Gen, b: Buf, lo: nat, mid: nat, hi: nat)
    requires LayerSeq(g.batches, g.keyed, lo, mid) && LayerSeq(ToGen(b.pending), Entries(b), mid, hi)
    requires MergeBackSafe(g, b) && lo <= mid <= hi
    ensures LayerSeq(g.batches + ToGen(b.pending), g.keyed + Entries(b), lo, hi)
  {
    var batches, ops := g.batches + ToGen(b.pending), g.keyed + Entries(b);
    forall i, r | 0 <= i < |batches| && r in batches[i].rows && r.key in ops
      ensures batches[i].seqno.value < ops[r.key].seqno.value
    {
      if i >= |g.batches| {
        var j := i - |g.batches|;
        assert batches[i] == ToGen(b.pending)[j];
        FlattenHas(RowsOf(b.pending), j, r);
        assert r.key in Entries(b);
      } else {
        assert batches[i] == g.batches[i];
      }
    }
  }

  lemma BackSequenced(s: State)
    requires Inv(s) && Sequenced(s) && s.flight.Posted? && MergeBackOk(s) && |s.spans| > 0
    ensures Sequenced(DoMergeBack(s))
  {
    BackShape(s);
    MoveBackShape(s.buf, s.flight.next.id);
    assert s.spans[|s.spans| - 1].lo < s.liveLo <= Top(s.buf, s.liveLo);
    BackLayers(s);
  }

  lemma BackLayers(s: State)
    requires Sequenced(s) && s.flight.Posted? && MergeBackOk(s) && |s.spans| > 0 && KeyedReady(s.buf)
    requires GenPosition(s.buf.flushed, s.flight.next.id) == |s.buf.flushed| - 1
    requires s.spans[|s.spans| - 1].hi == s.liveLo && s.buf.tailHigh.Some?
    requires s.spans[|s.spans| - 1].lo < s.liveLo <= Top(s.buf, s.liveLo)
    ensures Sequenced(DoMergeBack(s))
  {
    var s', n := DoMergeBack(s), |s.spans| - 1;
    var g := s.buf.flushed[n];
    MoveBackShape(s.buf, s.flight.next.id);
    MergedLayer(g, s.buf, s.spans[n].lo, s.liveLo, Top(s.buf, s.liveLo));
    assert ToGen(s'.buf.pending) == g.batches + ToGen(s.buf.pending);
    assert Top(s'.buf, s'.liveLo) == Top(s.buf, s.liveLo);
    assert LiveSeq(s'.buf, s'.liveLo);
  }

  lemma CollectSequenced(s: State)
    requires ObservedOk(s.hist, s.served, s.scans, s.buf.flushed, s.clock) && Sequenced(s)
    requires !s.flight.Snapped? && !s.flight.Loaded?
    ensures Sequenced(DoCollect(s))
  {
    ExpiredPrefix(s.buf.flushed, s.clock, s.gcAge);
    var k, s' := ExpiredCount(s.buf.flushed, s.clock, s.gcAge), DoCollect(s);
    forall i | 0 <= i < |s'.buf.flushed|
      ensures LayerSeq(s'.buf.flushed[i].batches, s'.buf.flushed[i].keyed, s'.spans[i].lo, s'.spans[i].hi)
    {
      assert s'.buf.flushed[i] == s.buf.flushed[k + i] && s'.spans[i] == s.spans[k + i];
    }
  }

  // ---- replay ------------------------------------------------------------------------------------------

  lemma {:induction false} ReplaySeq(pk: seq<string>, keyedTable: bool, frames: seq<Stmt>, c: Table, lo: nat)
    requires AllAllowed(keyedTable, c, frames) && Sorted(frames) && forall e :: e in frames ==> e.seqno > lo
    ensures LayerSeq(ToGen(Replay(pk, frames).pending), Entries(Replay(pk, frames)), lo,
                     if |frames| == 0 then lo else LastSeq(frames))
  {
    if |frames| > 0 {
      var init, e := frames[..|frames| - 1], frames[|frames| - 1];
      forall x | x in init ensures x in frames && x.seqno < e.seqno {
        var i :| 0 <= i < |init| && init[i] == x;
        assert frames[i] == x;
      }
      assert e in frames;
      ReplaySeq(pk, keyedTable, init, c, lo);
      ReplayDenotes(pk, keyedTable, init, c);
      ReplayStep(pk, Replay(pk, init), e, lo, if |init| == 0 then lo else LastSeq(init));
    }
  }

  lemma ReplayStep(pk: seq<string>, b: Buf, e: Stmt, lo: nat, hi: nat)
    requires LayerSeq(ToGen(b.pending), Entries(b), lo, hi) && lo <= hi < e.seqno && !PkChanged(b, pk)
    ensures var b' := RouteStmt(b, pk, e.op, None, Some(e.seqno)).buf;
            LayerSeq(ToGen(b'.pending), Entries(b'), lo, e.seqno)
  {
    var b' := RouteStmt(b, pk, e.op, None, Some(e.seqno)).buf;
    StmtFacts(b, pk, e.op, None, Some(e.seqno));
    if e.op.Insert? { InsertAddsNoKey(b, pk, e.op, None, Some(e.seqno)); }
    DrainedNothing(Entries(b));
    DrainedNothing(Entries(b'));
    assert b.pending[0..] == b.pending && b'.pending[0..] == b'.pending;
    StmtLayer(b, b', e.op, e.seqno, map[], 0, lo, hi);
  }

  lemma CrashSequenced(s: State, lost: set<nat>)
    requires Inv(s) && lost <= s.waiting.Keys && CrashAllowed(s, lost)
    ensures Sequenced(DoCrash(s, lost))
  {
    var w, s', survivors := EffectiveWatermark(s), DoCrash(s, lost), Survivors(s, lost);
    SurvivorsAre(s, lost);
    AllowedConcat(s.keyedTable, s.base, Upto(s.log, w), survivors);
    ReplaySeq(s.pk, s.keyedTable, survivors, Fold(s.base, Upto(s.log, w)), w);
    BootDenotes(s.pk, s.keyedTable, survivors, Fold(s.base, Upto(s.log, w)));
    assert s'.buf.flushed == [] && s'.spans == [];
    if |survivors| > 0 {
      assert s'.buf == NoteTailHigh(Replay(s.pk, survivors), LastSeq(survivors));
    }
  }

  // ---- runs -----------------------------------------------------------------------------------------------

  lemma ObserveSequenced(s: State, step: Step)
    requires Inv(s) && Sequenced(s) && Can(s, step) && (step.FlushLoad? || step.TakeOverlay?)
    ensures Sequenced(Do(s, step))
  {
    match step
    case FlushLoad =>
      ObserveSame(s.buf.flushed, Seen(s.hist, LastIdx(s)));
      SameSequenced(s, DoLoad(s));
    case TakeOverlay(x) =>
      ObserveSame(s.buf.flushed, Seen(s.hist, x.version));
      SameSequenced(s, DoOverlay(s, x));
  }

  lemma RecordSequenced(s: State, ok: bool)
    requires Sequenced(s) && s.flight.Settling?
    ensures Sequenced(DoRecord(s, ok))
  {
    SameSequenced(s, DoRecord(s, ok));
  }

  lemma TruncateSequenced(s: State, removed: set<nat>)
    requires Sequenced(s) && s.flight.Recorded?
    ensures Sequenced(DoTruncate(s, removed))
  {
    SameSequenced(s, DoTruncate(s, removed));
  }

  lemma ScanSequenced(s: State, scans: multiset<Scan>, clock: nat)
    requires Sequenced(s)
    ensures Sequenced(s.(scans := scans, clock := clock))
  {
    SameSequenced(s, s.(scans := scans, clock := clock));
  }

  lemma TailSequenced(s: State, step: Step)
    requires Sequenced(s) && Can(s, step) && (step.RecordWatermark? || step.Truncate?)
    ensures Sequenced(Do(s, step))
  {
    match step
    case RecordWatermark(ok) =>
      RecordCan(s, ok);
      RecordSequenced(s, ok);
    case Truncate(removed) =>
      TruncateCan(s, removed);
      TruncateSequenced(s, removed);
  }

  lemma PassiveSequenced(s: State, step: Step)
    requires Sequenced(s) && Can(s, step) && (step.BeginScan? || step.Tick?)
    ensures Sequenced(Do(s, step))
  {
    match step
    case BeginScan(v) => ScanSequenced(s, s.scans + multiset{Scan(v, s.clock)}, s.clock);
    case Tick(d) => ScanSequenced(s, s.scans, s.clock + d);
  }

  lemma QuietSequenced(s: State, step: Step)
    requires Inv(s) && Sequenced(s) && Can(s, step)
    requires step.Ack? || step.Land? || step.Committed? || step.ForeignCommit?
    ensures Sequenced(Do(s, step))
  {
    SameSequenced(s, Do(s, step));
  }

  lemma PostErrorSequenced(s: State, reload: bool)
    requires Inv(s) && Sequenced(s) && s.flight.Posted? && |s.spans| > 0
    requires !(reload && s.hist[LastIdx(s)].wm >= s.flight.mark) ==> MergeBackOk(s)
    ensures Sequenced(if reload && s.hist[LastIdx(s)].wm >= s.flight.mark then s.(flight := Settling(s.flight.mark))
                      else DoMergeBack(s))
  {
    if reload && s.hist[LastIdx(s)].wm >= s.flight.mark {
      SameSequenced(s, s.(flight := Settling(s.flight.mark)));
    } else {
      BackSequenced(s);
    }
  }

  lemma MovesSequenced(s: State, step: Step)
    requires Inv(s) && Sequenced(s) && Can(s, step) && MovesWindow(step)
    ensures Sequenced(Do(s, step))
  {
    match step
    case StageStmt(op) => StageSequenced(s, op);
    case FlushSnapshot => SnapshotSequenced(s);
    case ParkCovered =>
      ParkCan(s);
      ParkSequenced(s);
    case DropNetZero =>
      DropCan(s);
      DropSequenced(s);
    case Prepare =>
      PrepareCan(s);
      PrepareSequenced(s);
  }

  lemma ConflictsSequenced(s: State, step: Step)
    requires Inv(s) && Sequenced(s) && Can(s, step) && (step.Reject? || step.PostError?)
    ensures Sequenced(Do(s, step))
  {
    match step
    case Reject =>
      RejectCan(s);
      BackSequenced(s);
    case PostError(reload) =>
      PostErrorCan(s, reload);
      PostErrorSequenced(s, reload);
  }

  lemma CollectStepSequenced(s: State)
    requires Inv(s) && Sequenced(s) && Can(s, Collect)
    ensures Sequenced(Do(s, Collect))
  {
    CollectCan(s);
    CollectSequenced(s);
  }

  lemma CrashStepSequenced(s: State, lost: set<nat>)
    requires Inv(s) && Can(s, Crash(lost))
    ensures Sequenced(Do(s, Crash(lost)))
  {
    CrashCan(s, lost);
    CrashSequenced(s, lost);
  }

  /** Every step but a failed wait keeps the layers in sequence. */
  lemma SequencedStep(s: State, step: Step)
    requires Inv(s) && Sequenced(s) && Can(s, step) && !step.FailWait?
    ensures Sequenced(Do(s, step))
  {
    if MovesWindow(step) {
      MovesSequenced(s, step);
    } else if step.Reject? || step.PostError? {
      ConflictsSequenced(s, step);
    } else if step.Collect? {
      CollectStepSequenced(s);
    } else if step.Crash? {
      CrashStepSequenced(s, step.lost);
    } else if step.FlushLoad? || step.TakeOverlay? {
      ObserveSequenced(s, step);
    } else if step.RecordWatermark? || step.Truncate? {
      TailSequenced(s, step);
    } else if step.BeginScan? || step.Tick? {
      PassiveSequenced(s, step);
    } else {
      QuietSequenced(s, step);
    }
  }

  lemma SequencedNext(s: State, step: Step, s': State)
    requires Inv(s) && Sequenced(s) && Next(s, step, s') && !step.FailWait?
    ensures Sequenced(s')
  {
    SequencedStep(s, step);
  }

  /** A run in which every durability wait succeeds. */
  ghost predicate DurableRun(trace: seq<State>, steps: seq<Step>) {
    Run(trace, steps) && forall j :: 0 <= j < |steps| ==> !steps[j].FailWait?
  }

  lemma SequencedAlong(trace: seq<State>, steps: seq<Step>, i: nat)
    requires DurableRun(trace, steps) && i < |steps| && Sequenced(trace[i])
    ensures Sequenced(trace[i + 1])
  {
    RunInv(trace, steps, i);
    SequencedNext(trace[i], steps[i], trace[i + 1]);
  }

  lemma {:induction false} RunSequenced(trace: seq<State>, steps: seq<Step>, i: nat)
    requires DurableRun(trace, steps) && i < |trace|
    ensures Sequenced(trace[i])
  {
    if i == 0 {
      InitialSequenced(trace[0]);
    } else {
      RunSequenced(trace, steps, i - 1);
      SequencedAlong(trace, steps, i - 1);
    }
  }
}
