/** The theorems about whole runs: every view is the sequential log, the flusher's steps are
    invisible, and every acknowledged statement survives exactly once. */
module Refinement {
  import opened Rows
  import opened Window
  import opened Layers
  import opened Log
  import opened Engine
  import opened Invariants
  import opened CatalogSteps
  import opened StageSteps
  import opened FailSteps
  import opened FlushSteps
  import opened SettleSteps
  import opened CrashSteps

  // ---- every reachable state ---------------------------------------------------------------------------

  predicate OfStatements(step: Step) {
    step.StageStmt? || step.Ack? || step.FailWait?
  }

  predicate OfSnapshots(step: Step) {
    step.FlushSnapshot? || step.FlushLoad? || step.ParkCovered?
  }

  predicate OfCommits(step: Step) {
    step.DropNetZero? || step.Prepare? || step.Land?
  }

  predicate OfOutcomes(step: Step) {
    step.Reject? || step.Committed? || step.PostError?
  }

  predicate OfTail(step: Step) {
    step.RecordWatermark? || step.Truncate? || step.Crash?
  }

  predicate OfScans(step: Step) {
    step.BeginScan? || step.TakeOverlay? || step.Collect?
  }

  predicate MovesWindow(step: Step) {
    step.StageStmt? || step.FlushSnapshot? || step.ParkCovered? || step.DropNetZero? || step.Prepare?
  }

  lemma StatementsInv(s: State, step: Step)
    requires Inv(s) && Can(s, step) && OfStatements(step)
    ensures Inv(Do(s, step))
  {
    match step
    case StageStmt(op) => StageInv(s, op);
    case Ack(sq) => AckInv(s, sq);
    case FailWait(sq) => FailInv(s, sq);
  }

  lemma SnapshotsInv(s: State, step: Step)
    requires Inv(s) && Can(s, step) && OfSnapshots(step)
    ensures Inv(Do(s, step))
  {
    match step
    case FlushSnapshot => SnapshotInv(s);
    case FlushLoad => LoadInv(s);
    case ParkCovered => ParkInv(s);
  }

  lemma CommitsInv(s: State, step: Step)
    requires Inv(s) && Can(s, step) && OfCommits(step)
    ensures Inv(Do(s, step))
  {
    match step
    case DropNetZero =>
      DropCan(s);
      DropInv(s);
    case Prepare =>
      PrepareCan(s);
      PrepareInv(s);
    case Land => LandInv(s);
  }

  lemma OutcomesInv(s: State, step: Step)
    requires Inv(s) && Can(s, step) && OfOutcomes(step)
    ensures Inv(Do(s, step))
  {
    if step.Committed? {
      CommittedInv(s);
    } else {
      ConflictsInv(s, step);
    }
  }

  lemma ConflictsInv(s: State, step: Step)
    requires Inv(s) && Can(s, step) && (step.Reject? || step.PostError?)
    ensures Inv(Do(s, step))
  {
    match step
    case Reject =>
      RejectCan(s);
      BackInv(s);
    case PostError(reload) =>
      PostErrorCan(s, reload);
      PostErrorInv(s, reload);
  }

  lemma DropCan(s: State)
    requires CatalogInv(s) && WindowInv(s) && Can(s, DropNetZero)
    ensures s.flight.Loaded? && s.flight.snap.n <= |s.buf.pending| && !Doubled(s) && Do(s, DropNetZero) == DoDrop(s)
  {
    Recognised(s);
  }

  lemma PrepareCan(s: State)
    requires CatalogInv(s) && WindowInv(s) && Can(s, Prepare)
    ensures s.flight.Loaded? && s.flight.snap.n <= |s.buf.pending| && s.flight.base < |s.hist| && !Doubled(s)
    ensures Do(s, Prepare) == DoPrepare(s)
  {
    Recognised(s);
  }

  lemma ParkCan(s: State)
    requires Can(s, ParkCovered)
    ensures s.flight.Loaded? && s.flight.snap.n <= |s.buf.pending| && Do(s, ParkCovered) == DoPark(s)
  {}

  lemma RejectCan(s: State)
    requires Can(s, Reject)
    ensures s.flight.Posted? && MergeBackOk(s) && |s.spans| > 0 && Do(s, Reject) == DoMergeBack(s)
  {}

  lemma PostErrorCan(s: State, reload: bool)
    requires Can(s, PostError(reload))
    ensures s.flight.Posted? && |s.spans| > 0 && |s.hist| > 0
    ensures !(reload && s.hist[LastIdx(s)].wm >= s.flight.mark) ==> MergeBackOk(s)
    ensures Do(s, PostError(reload))
         == if reload && s.hist[LastIdx(s)].wm >= s.flight.mark then s.(flight := Settling(s.flight.mark))
            else DoMergeBack(s)
  {}

  lemma BeginScanCan(s: State, v: nat)
    requires Can(s, BeginScan(v))
    ensures s.served <= v < |s.hist| && Recent(s, v)
    ensures Do(s, BeginScan(v)) == s.(scans := s.scans + multiset{Scan(v, s.clock)})
  {}

  lemma RecordCan(s: State, ok: bool)
    requires Can(s, RecordWatermark(ok))
    ensures s.flight.Settling? && Do(s, RecordWatermark(ok)) == DoRecord(s, ok)
  {}

  lemma RecordStep(s: State, ok: bool)
    requires Inv(s) && Can(s, RecordWatermark(ok))
    ensures Inv(Do(s, RecordWatermark(ok)))
  {
    RecordCan(s, ok);
    RecordInv(s, ok);
  }

  lemma TruncateCan(s: State, removed: set<nat>)
    requires Can(s, Truncate(removed))
    ensures s.flight.Recorded? && (forall q :: q in removed ==> q <= s.flight.mark)
    ensures Do(s, Truncate(removed)) == DoTruncate(s, removed)
  {}

  lemma TruncateStep(s: State, removed: set<nat>)
    requires Inv(s) && Can(s, Truncate(removed))
    ensures Inv(Do(s, Truncate(removed)))
  {
    TruncateCan(s, removed);
    TruncateInv(s, removed);
  }

  lemma BeginScanStep(s: State, v: nat)
    requires Inv(s) && Can(s, BeginScan(v))
    ensures Inv(Do(s, BeginScan(v)))
  {
    BeginScanCan(s, v);
    BeginScanInv(s, v);
  }

  lemma OverlayCan(s: State, x: Scan)
    requires Can(s, TakeOverlay(x))
    ensures x in s.scans && Do(s, TakeOverlay(x)) == DoOverlay(s, x)
  {}

  lemma OverlayStep(s: State, x: Scan)
    requires Inv(s) && Can(s, TakeOverlay(x))
    ensures Inv(Do(s, TakeOverlay(x)))
  {
    OverlayCan(s, x);
    OverlayInv(s, x);
  }

  lemma CollectCan(s: State)
    requires Can(s, Collect)
    ensures s.flight.Idle? && ScansYoung(s) && Do(s, Collect) == DoCollect(s)
  {}

  lemma CollectStep(s: State)
    requires Inv(s) && Can(s, Collect)
    ensures Inv(Do(s, Collect))
  {
    CollectCan(s);
    CollectInv(s);
  }

  lemma CrashParts(s: State, lost: set<nat>)
    requires Can(s, Crash(lost))
    ensures |s.hist| > 0 && lost <= s.waiting.Keys && CrashClean(s, lost) && Do(s, Crash(lost)) == DoCrash(s, lost)
  {}

  lemma CrashKeeps(s: State, lost: set<nat>)
    requires Inv(s) && lost <= s.waiting.Keys && CrashClean(s, lost)
    ensures Inv(DoCrash(s, lost))
  {
    CleanAllowed(s, lost);
    CrashInv(s, lost);
  }

  lemma CrashStep(s: State, lost: set<nat>)
    requires Inv(s) && Can(s, Crash(lost))
    ensures Inv(Do(s, Crash(lost)))
  {
    CrashParts(s, lost);
    CrashKeeps(s, lost);
  }

  lemma TailStepsInv(s: State, step: Step)
    requires Inv(s) && Can(s, step) && OfTail(step)
    ensures Inv(Do(s, step))
  {
    match step
    case RecordWatermark(ok) => RecordStep(s, ok);
    case Truncate(removed) => TruncateStep(s, removed);
    case Crash(lost) => CrashStep(s, lost);
  }

  lemma ScansInv(s: State, step: Step)
    requires Inv(s) && Can(s, step) && OfScans(step)
    ensures Inv(Do(s, step))
  {
    match step
    case BeginScan(v) => BeginScanStep(s, v);
    case TakeOverlay(x) => OverlayStep(s, x);
    case Collect => CollectStep(s);
  }

  lemma RestInv(s: State, step: Step)
    requires Inv(s) && Can(s, step) && (step.ForeignCommit? || step.Tick?)
    ensures Inv(Do(s, step))
  {
    if step.ForeignCommit? {
      ForeignStep(s);
    } else {
      TickStep(s, step.d);
    }
  }

  lemma ForeignStep(s: State)
    requires Inv(s)
    ensures Enabled(s, ForeignCommit) && Inv(Do(s, ForeignCommit))
  {
    ForeignInv(s);
  }

  lemma TickStep(s: State, d: nat)
    requires Inv(s)
    ensures Enabled(s, Tick(d)) && Inv(Do(s, Tick(d)))
  {
    TickInv(s, d);
  }

  lemma StepInv(s: State, step: Step)
    requires Inv(s) && Can(s, step)
    ensures Inv(Do(s, step))
  {
    if OfStatements(step) {
      StatementsInv(s, step);
    } else if OfSnapshots(step) {
      SnapshotsInv(s, step);
    } else if OfCommits(step) {
      CommitsInv(s, step);
    } else if OfOutcomes(step) {
      OutcomesInv(s, step);
    } else if OfTail(step) {
      TailStepsInv(s, step);
    } else if OfScans(step) {
      ScansInv(s, step);
    } else {
      RestInv(s, step);
    }
  }

  ghost predicate Next(s: State, step: Step, s': State) {
    Can(s, step) && s' == Do(s, step)
  }

  /** A run: one state more than steps, each the outcome of a step that could happen. */
  ghost predicate Run(trace: seq<State>, steps: seq<Step>) {
    && |trace| == |steps| + 1
    && Initial(trace[0])
    && forall i :: 0 <= i < |steps| ==> Next(trace[i], steps[i], trace[i + 1])
  }

  lemma NextInv(s: State, step: Step, s': State)
    requires Inv(s) && Next(s, step, s')
    ensures Inv(s')
  {
    StepInv(s, step);
  }

  lemma InvAlong(trace: seq<State>, steps: seq<Step>, i: nat)
    requires Run(trace, steps) && i < |steps| && Inv(trace[i])
    ensures Inv(trace[i + 1])
  {
    NextInv(trace[i], steps[i], trace[i + 1]);
  }

  lemma {:induction false} RunInv(trace: seq<State>, steps: seq<Step>, i: nat)
    requires Run(trace, steps) && i < |trace|
    ensures Inv(trace[i])
  {
    if i == 0 {
      InitialInv(trace[0]);
    } else {
      RunInv(trace, steps, i - 1);
      InvAlong(trace, steps, i - 1);
    }
  }

  // ---- a scan sees the log ---------------------------------------------------------------------------------

  function GenLayers(flushed: seq<Gen>): seq<Layer> {
    if |flushed| == 0 then [] else GenLayers(flushed[..|flushed| - 1]) + [GenLayer(flushed[|flushed| - 1])]
  }

  lemma {:induction false} UnseenSuffix(flushed: seq<Gen>, isCommitted: GenCommit -> bool, j: nat)
    requires j <= |flushed|
    requires forall i :: 0 <= i < |flushed| ==> (isCommitted(flushed[i].commit) <==> i < j)
    ensures Unseen(flushed, isCommitted) == GenLayers(flushed[j..])
  {
    if |flushed| > 0 {
      var init := flushed[..|flushed| - 1];
      if j == |flushed| {
        UnseenSuffix(init, isCommitted, j - 1);
        assert init[j - 1..] == flushed[j..];
      } else {
        UnseenSuffix(init, isCommitted, j);
        assert flushed[j..][..|flushed[j..]| - 1] == init[j..];
      }
    }
  }

  lemma ChainStep(
    spans: seq<Span>, liveLo: nat, flushed: seq<Gen>, base: Table, log: seq<Stmt>, j: nat, n: nat)
    requires |spans| == |flushed| && j <= n < |flushed| && ChainAt(spans, liveLo, flushed, base, log, n)
    requires ApplyAll(At(base, log, Lo(spans, liveLo, j)), GenLayers(flushed[j..n])) == At(base, log, Lo(spans, liveLo, n))
    ensures ApplyAll(At(base, log, Lo(spans, liveLo, j)), GenLayers(flushed[j..n + 1]))
         == At(base, log, Lo(spans, liveLo, n + 1))
  {
    GenLayersSnoc(flushed, j, n);
    ApplyAllSnoc(At(base, log, Lo(spans, liveLo, j)), GenLayers(flushed[j..n]), GenLayer(flushed[n]));
    assert Lo(spans, liveLo, n) == spans[n].lo;
  }

  lemma GenLayersSnoc(flushed: seq<Gen>, j: nat, n: nat)
    requires j <= n < |flushed|
    ensures GenLayers(flushed[j..n + 1]) == GenLayers(flushed[j..n]) + [GenLayer(flushed[n])]
  {
    var more := flushed[j..n + 1];
    assert more[..|more| - 1] == flushed[j..n] && more[|more| - 1] == flushed[n];
  }

  lemma {:induction false} ChainApplies(
    spans: seq<Span>, liveLo: nat, flushed: seq<Gen>, base: Table, log: seq<Stmt>, j: nat, n: nat)
    requires ChainOk(spans, liveLo, flushed, base, log) && j <= n <= |flushed|
    requires ApplyAll(At(base, log, Lo(spans, liveLo, j)), GenLayers(flushed[j..n])) == At(base, log, Lo(spans, liveLo, n))
    ensures ApplyAll(At(base, log, Lo(spans, liveLo, j)), GenLayers(flushed[j..])) == At(base, log, liveLo)
    decreases |flushed| - n
  {
    if n < |flushed| {
      ChainStep(spans, liveLo, flushed, base, log, j, n);
      ChainApplies(spans, liveLo, flushed, base, log, j, n + 1);
    } else {
      assert flushed[j..n] == flushed[j..];
    }
  }

  function SeenCount(hist: seq<Version>, v: nat, flushed: seq<Gen>): nat {
    if |flushed| > 0 && Contains(hist, v, flushed[0].commit) then 1 + SeenCount(hist, v, flushed[1..]) else 0
  }

  lemma {:induction false} SeenCountFirst(hist: seq<Version>, v: nat, flushed: seq<Gen>)
    ensures FirstUnseen(hist, flushed, v, SeenCount(hist, v, flushed))
  {
    if |flushed| > 0 && Contains(hist, v, flushed[0].commit) {
      SeenCountFirst(hist, v, flushed[1..]);
      var j := SeenCount(hist, v, flushed[1..]);
      forall i | 0 <= i < j + 1 ensures Contains(hist, v, flushed[i].commit) {
        if i > 0 { assert flushed[1..][i - 1] == flushed[i]; }
      }
      if j + 1 < |flushed| { assert flushed[1..][j] == flushed[j + 1]; }
    }
  }

  lemma SeenSplits(s: State, v: nat, j: nat, i: nat)
    requires CatalogInv(s) && v < |s.hist| && FirstUnseen(s.hist, s.buf.flushed, v, j) && i < |s.buf.flushed|
    ensures Contains(s.hist, v, s.buf.flushed[i].commit) <==> i < j
  {
    if i >= j && Contains(s.hist, v, s.buf.flushed[i].commit) {
      SeenPrefix(s.hist, s.spans, s.buf.flushed, s.liveLo, s.frozen, s.tail.nextSeq, v, j, i);
    }
  }

  /** What a scan returns, layer by layer, before it is compared with anything. */
  lemma ScanLayers(s: State, v: nat, j: nat)
    requires CatalogInv(s) && v < |s.hist| && FirstUnseen(s.hist, s.buf.flushed, v, j)
    ensures ScanResult(s, v) == Apply(ApplyAll(s.hist[v].rows, GenLayers(s.buf.flushed[j..])), Live(s.buf))
  {
    forall i | 0 <= i < |s.buf.flushed| ensures Seen(s.hist, v)(s.buf.flushed[i].commit) <==> i < j {
      SeenSplits(s, v, j, i);
    }
    UnseenSuffix(s.buf.flushed, Seen(s.hist, v), j);
    OverlayRefinesSequential(s.hist[v].rows, VisibleLayers(s.buf, Seen(s.hist, v)));
    ApplyAllSnoc(s.hist[v].rows, GenLayers(s.buf.flushed[j..]), Live(s.buf));
  }

  /** The unseen generations take a servable version's rows to the live window's mark. */
  lemma UnseenReachLive(s: State, v: nat, j: nat)
    requires CatalogInv(s) && Servable(s.hist, s.served, s.scans, v) && FirstUnseen(s.hist, s.buf.flushed, v, j)
    requires s.hist[v].wm <= s.liveLo
    ensures ApplyAll(s.hist[v].rows, GenLayers(s.buf.flushed[j..])) == At(s.base, s.log, s.liveLo)
  {
    ViewBase(s, v, j);
    assert s.buf.flushed[j..j] == [];
    ChainApplies(s.spans, s.liveLo, s.buf.flushed, s.base, s.log, j, j);
  }

  lemma ViewFolds(s: State, v: nat)
    requires CatalogInv(s) && LiveOk(s.base, s.log, s.liveLo, s.buf)
    requires Servable(s.hist, s.served, s.scans, v) && s.hist[v].wm <= s.liveLo
    ensures ScanResult(s, v) == Logical(s)
  {
    var j := SeenCount(s.hist, v, s.buf.flushed);
    SeenCountFirst(s.hist, v, s.buf.flushed);
    ScanLayers(s, v, j);
    UnseenReachLive(s, v, j);
  }

  /** In every reachable state, whatever metadata a scan holds or can be served, committed rows
      united with the overlay are the statements folded in tail-sequence order. */
  lemma ViewIsLogical(s: State, v: nat)
    requires Inv(s) && Servable(s.hist, s.served, s.scans, v) && s.hist[v].wm <= s.liveLo
    ensures ScanResult(s, v) == Logical(s)
  {
    ViewFolds(s, v);
  }

  lemma ViewBase(s: State, v: nat, j: nat)
    requires CatalogInv(s) && Servable(s.hist, s.served, s.scans, v) && FirstUnseen(s.hist, s.buf.flushed, v, j)
    requires s.hist[v].wm <= s.liveLo
    ensures s.hist[v].rows == At(s.base, s.log, Lo(s.spans, s.liveLo, j))
  {
    assert s.hist[v].rows == At(s.base, s.log, s.hist[v].wm);
  }

  lemma NotDoubled(s: State, v: nat)
    requires Inv(s) && !Doubled(s) && v < |s.hist|
    ensures s.hist[v].wm <= s.liveLo
  {
    assert s.hist[v].wm <= s.hist[LastIdx(s)].wm;
  }

  lemma NoGenerations(s: State, v: nat)
    requires v < |s.hist| && s.buf.flushed == []
    ensures ScanResult(s, v) == Apply(s.hist[v].rows, Live(s.buf))
  {
    OverlayRefinesSequential(s.hist[v].rows, [] + [Live(s.buf)]);
    ApplyAllSnoc(s.hist[v].rows, [], Live(s.buf));
  }

  // ---- stuttering -------------------------------------------------------------------------------------------------

  /** The steps that change what the table holds; all others leave the log alone. */
  predicate Changes(s: State, step: Step) {
    step.StageStmt? || step.FailWait? || step.Crash?
  }

  lemma LogStutters(s: State, step: Step)
    requires Can(s, step) && !Changes(s, step)
    ensures Do(s, step).log == s.log && Do(s, step).base == s.base
  {}

  /** Snapshot, tagging, commit, conflict and merge-back, observation, collection, truncation,
      foreign commits and scans are invisible: any two scans, one before and one after, agree. */
  lemma Stutter(s: State, step: Step, v: nat, v': nat)
    requires Inv(s) && Can(s, step) && !Changes(s, step)
    requires Servable(s.hist, s.served, s.scans, v) && s.hist[v].wm <= s.liveLo
    requires var s' := Do(s, step); Servable(s'.hist, s'.served, s'.scans, v') && s'.hist[v'].wm <= s'.liveLo
    ensures ScanResult(Do(s, step), v') == ScanResult(s, v)
  {
    StepInv(s, step);
    LogStutters(s, step);
    ViewIsLogical(s, v);
    ViewIsLogical(Do(s, step), v');
  }

  /** Staging a statement is the one step that runs it. */
  lemma StageIsExec(s: State, op: Op, v: nat)
    requires Inv(s) && Can(s, StageStmt(op))
    requires Servable(s.hist, s.served, s.scans, v) && s.hist[v].wm <= s.liveLo
    ensures Logical(Do(s, StageStmt(op))) == Exec(Logical(s), op)
    ensures ScanResult(DoStage(s, op), v) == Exec(ScanResult(s, v), op)
  {
    StageInv(s, op);
    FoldSnoc(s.base, s.log, Stmt(s.tail.nextSeq, op));
    ViewIsLogical(s, v);
    ViewIsLogical(DoStage(s, op), v);
  }

  /** An undone statement is gone from every view; a claimed one stays in every view. */
  lemma FailedView(s: State, sq: nat, v: nat)
    requires Inv(s) && Can(s, FailWait(sq))
    requires Servable(s.hist, s.served, s.scans, v) && s.hist[v].wm <= s.liveLo
    ensures ScanResult(DoFail(s, sq), v)
         == if Claimed(s.buf, s.waiting[sq].routed) then ScanResult(s, v) else Fold(s.base, Minus(s.log, {sq}))
  {
    FailInv(s, sq);
    ViewIsLogical(s, v);
    ViewIsLogical(DoFail(s, sq), v);
  }

  // ---- exactly once -------------------------------------------------------------------------------------------------

  /** Acknowledged: in the log, its wait over, and over well. */
  ghost predicate Acked(s: State, e: Stmt) {
    e in s.log && e.seqno !in s.waiting && e.seqno !in s.failed
  }

  lemma AckedCrash(s: State, lost: set<nat>, e: Stmt)
    requires Inv(s) && lost <= s.waiting.Keys && Acked(s, e)
    ensures Acked(DoCrash(s, lost), e)
  {
    var w := EffectiveWatermark(s);
    SurvivorsAre(s, lost);
    if e.seqno <= w {
      UptoIn(s.log, w, e);
    } else {
      AboveIn(s.log, w, e);
      MinusIn(Above(s.log, w), s.failed + lost, e);
    }
  }

  lemma AckedStage(s: State, op: Op, e: Stmt)
    requires LogOk(s.keyedTable, s.base, s.log, s.tail.nextSeq) && Acked(s, e) && !PkChanged(s.buf, s.pk)
    ensures Acked(DoStage(s, op), e)
  {}

  lemma AckedFail(s: State, sq: nat, e: Stmt)
    requires Acked(s, e) && sq in s.waiting
    ensures Acked(DoFail(s, sq), e)
  {
    MinusIn(s.log, {sq}, e);
  }

  /** The steps that touch no log leave acknowledgements alone. */
  lemma AckedStutters(s: State, step: Step, e: Stmt)
    requires Can(s, step) && !Changes(s, step) && Acked(s, e)
    ensures Acked(Do(s, step), e)
  {}

  lemma AckedStageStep(s: State, op: Op, e: Stmt)
    requires Inv(s) && Can(s, StageStmt(op)) && Acked(s, e)
    ensures Acked(Do(s, StageStmt(op)), e)
  {
    AckedStage(s, op, e);
  }

  lemma AckedFailStep(s: State, sq: nat, e: Stmt)
    requires Can(s, FailWait(sq)) && Acked(s, e)
    ensures Acked(Do(s, FailWait(sq)), e)
  {
    AckedFail(s, sq, e);
  }

  lemma AckedCrashStep(s: State, lost: set<nat>, e: Stmt)
    requires Inv(s) && Can(s, Crash(lost)) && Acked(s, e)
    ensures Acked(Do(s, Crash(lost)), e)
  {
    CrashCan(s, lost);
    AckedCrash(s, lost, e);
  }

  lemma CrashCan(s: State, lost: set<nat>)
    requires Inv(s) && Can(s, Crash(lost))
    ensures lost <= s.waiting.Keys && CrashAllowed(s, lost) && Do(s, Crash(lost)) == DoCrash(s, lost)
  {
    CrashParts(s, lost);
    CleanAllowed(s, lost);
  }

  lemma AckedChanges(s: State, step: Step, e: Stmt)
    requires Inv(s) && Can(s, step) && Changes(s, step) && Acked(s, e)
    ensures Acked(Do(s, step), e)
  {
    match step
    case StageStmt(op) => AckedStageStep(s, op, e);
    case FailWait(sq) => AckedFailStep(s, sq, e);
    case Crash(lost) => AckedCrashStep(s, lost, e);
  }

  /** No step, a crash included, loses an acknowledged statement or takes its acknowledgement back. */
  lemma AckedStays(s: State, step: Step, e: Stmt)
    requires Inv(s) && Can(s, step) && Acked(s, e)
    ensures Acked(Do(s, step), e)
  {
    if Changes(s, step) {
      AckedChanges(s, step, e);
    } else {
      AckedStutters(s, step, e);
    }
  }

  lemma AckedNext(s: State, step: Step, s': State, e: Stmt)
    requires Inv(s) && Next(s, step, s') && Acked(s, e)
    ensures Acked(s', e)
  {
    AckedStays(s, step, e);
  }

  /** Nothing enters the log but the statement being staged. */
  lemma NothingElse(s: State, step: Step, e: Stmt)
    requires Inv(s) && Can(s, step) && e in Do(s, step).log
    ensures e in s.log || (step.StageStmt? && e == Stmt(s.tail.nextSeq, step.op))
  {
    if !Changes(s, step) {
      LogStutters(s, step);
    } else {
      match step
      case StageStmt(_) =>
      case FailWait(sq) => MinusIn(s.log, {sq}, e);
      case Crash(lost) => CrashCut(s, lost);
    }
  }

  lemma NothingNew(s: State, step: Step, s': State, e: Stmt)
    requires Inv(s) && Next(s, step, s') && e in s'.log
    ensures e in s.log || (step.StageStmt? && e == Stmt(s.tail.nextSeq, step.op))
  {
    NothingElse(s, step, e);
  }

  lemma UndoneIsGone(s: State, sq: nat)
    requires Inv(s) && Can(s, FailWait(sq)) && !Claimed(s.buf, s.waiting[sq].routed)
    ensures !HasSeq(DoFail(s, sq).log, sq)
  {
    forall e | e in DoFail(s, sq).log ensures e.seqno != sq { MinusIn(s.log, {sq}, e); }
  }

  lemma AckedAlong(trace: seq<State>, steps: seq<Step>, i: nat, e: Stmt)
    requires Run(trace, steps) && i < |steps| && Acked(trace[i], e)
    ensures Acked(trace[i + 1], e)
  {
    RunInv(trace, steps, i);
    AckedNext(trace[i], steps[i], trace[i + 1], e);
  }

  /** An acknowledged statement is in the log of every later state, through any number of
      flushes, errored posts and crashes. */
  lemma {:induction false} AckedForever(trace: seq<State>, steps: seq<Step>, i: nat, j: nat, e: Stmt)
    requires Run(trace, steps) && i <= j < |trace| && Acked(trace[i], e)
    ensures Acked(trace[j], e)
    decreases j
  {
    if i < j {
      AckedForever(trace, steps, i, j - 1, e);
      AckedAlong(trace, steps, j - 1, e);
    }
  }

  /** Each statement of the log counts once: its sequence is its own. */
  lemma OnceEach(s: State, i: nat, j: nat)
    requires Inv(s) && i < |s.log| && j < |s.log| && s.log[i].seqno == s.log[j].seqno
    ensures i == j
  {}

  /** Statement `e` entered the log at step `i` and has been in it up to state `j`. */
  ghost predicate StagedAt(trace: seq<State>, steps: seq<Step>, i: nat, j: nat, e: Stmt) {
    && i < j < |trace| && |steps| + 1 == |trace|
    && steps[i].StageStmt? && e == Stmt(trace[i].tail.nextSeq, steps[i].op)
    && forall k :: i < k <= j ==> e in trace[k].log
  }

  lemma NothingAlong(trace: seq<State>, steps: seq<Step>, i: nat, e: Stmt)
    requires Run(trace, steps) && i < |steps| && e in trace[i + 1].log
    ensures e in trace[i].log || (steps[i].StageStmt? && e == Stmt(trace[i].tail.nextSeq, steps[i].op))
  {
    RunInv(trace, steps, i);
    NothingNew(trace[i], steps[i], trace[i + 1], e);
  }

  lemma StagedStill(trace: seq<State>, steps: seq<Step>, i: nat, j: nat, e: Stmt)
    requires 0 < j < |trace| && StagedAt(trace, steps, i, j - 1, e) && e in trace[j].log
    ensures StagedAt(trace, steps, i, j, e)
  {}

  lemma StagedNow(trace: seq<State>, steps: seq<Step>, i: nat, e: Stmt)
    requires i < |steps| && |steps| + 1 == |trace| && e in trace[i + 1].log
    requires steps[i].StageStmt? && e == Stmt(trace[i].tail.nextSeq, steps[i].op)
    ensures StagedAt(trace, steps, i, i + 1, e)
  {}

  lemma {:induction false} FindStaged(trace: seq<State>, steps: seq<Step>, k: nat, e: Stmt) returns (i: nat)
    requires Run(trace, steps) && k < |steps| && e in trace[k + 1].log
    ensures StagedAt(trace, steps, i, k + 1, e)
    decreases k
  {
    NothingAlong(trace, steps, k, e);
    if e !in trace[k].log {
      i := k;
      StagedNow(trace, steps, k, e);
    } else {
      EmptyAtStart(trace, steps, k, e);
      i := FindStaged(trace, steps, k - 1, e);
      StagedStill(trace, steps, i, k + 1, e);
    }
  }

  lemma EmptyAtStart(trace: seq<State>, steps: seq<Step>, j: nat, e: Stmt)
    requires Run(trace, steps) && j < |trace| && e in trace[j].log
    ensures j > 0
  {}

  /** A statement of a run was staged in it, and neither undone nor lost since. */
  lemma LogIsStaged(trace: seq<State>, steps: seq<Step>, j: nat, e: Stmt)
    requires Run(trace, steps) && j < |trace| && e in trace[j].log
    ensures exists i: nat :: StagedAt(trace, steps, i, j, e)
  {
    EmptyAtStart(trace, steps, j, e);
    var i := FindStaged(trace, steps, j - 1, e);
  }

  /** Recovery: what the newest committed metadata holds, with the surviving frames above the
      effective watermark folded on top, is the logical table of the rebooted state, and so is
      what any scan of the rebooted server returns. */
  lemma RecoveredExactlyOnce(s: State, lost: set<nat>)
    requires Inv(s) && lost <= s.waiting.Keys && CrashClean(s, lost)
    ensures var s' := DoCrash(s, lost);
            && Fold(s.hist[LastIdx(s)].rows, Survivors(s, lost)) == Logical(s')
            && ScanResult(s', LastIdx(s')) == Logical(s')
  {
    var w, s' := EffectiveWatermark(s), DoCrash(s, lost);
    CrashKeeps(s, lost);
    CrashLink(s, lost);
    RecoveredRows(s, lost);
    CrashCut(s, lost);
    FoldConcat(s.base, Upto(s.log, w), Survivors(s, lost));
    ViewIsLogical(s', LastIdx(s'));
  }

  lemma RecoveredRows(s: State, lost: set<nat>)
    requires Inv(s)
    ensures s.hist[LastIdx(s)].rows == Fold(s.base, Upto(s.log, EffectiveWatermark(s)))
  {
    assert s.hist[LastIdx(s)].rows == At(s.base, s.log, s.hist[LastIdx(s)].wm);
  }

  /** A statement staged after any number of crashes is numbered above every committed watermark,
      so no later replay can take it for covered. */
  lemma FreshAboveWatermarks(trace: seq<State>, steps: seq<Step>, i: nat, v: nat)
    requires Run(trace, steps) && i < |trace| && v < |trace[i].hist|
    ensures trace[i].hist[v].wm < trace[i].tail.nextSeq && trace[i].tail.sidecar < trace[i].tail.nextSeq
  {
    RunInv(trace, steps, i);
    assert trace[i].hist[v].wm <= trace[i].hist[LastIdx(trace[i])].wm;
  }

  /** The main theorem over runs: any view of any reachable state is the fold of its log. */
  lemma RunRefines(trace: seq<State>, steps: seq<Step>, i: nat, v: nat)
    requires Run(trace, steps) && i < |trace|
    requires Servable(trace[i].hist, trace[i].served, trace[i].scans, v) && !Doubled(trace[i])
    ensures ScanResult(trace[i], v) == Fold(trace[0].base, trace[i].log)
  {
    RunInv(trace, steps, i);
    NotDoubled(trace[i], v);
    ViewIsLogical(trace[i], v);
    BaseStays(trace, steps, i);
  }

  lemma BaseNext(s: State, step: Step, s': State)
    requires Next(s, step, s')
    ensures s'.base == s.base
  {}

  lemma {:induction false} BaseStays(trace: seq<State>, steps: seq<Step>, i: nat)
    requires Run(trace, steps) && i < |trace|
    ensures trace[i].base == trace[0].base
  {
    if i > 0 {
      BaseStays(trace, steps, i - 1);
      BaseNext(trace[i - 1], steps[i - 1], trace[i]);
    }
  }
}
