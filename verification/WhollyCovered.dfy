/** A window metadata already covers to its mark: an errored post had landed and nothing was staged since.
    The flusher recognises it, parks it, and commits it no second time. */
module WhollyCovered {
  import opened Rows
  import opened Window
  import opened Log
  import opened Engine
  import opened Invariants
  import opened FlushSteps
  import opened SettleSteps
  import opened CrashSteps
  import opened Refinement

  // ---- what the guard lets through -----------------------------------------------------------------------------

  /** In every reachable state a loaded flush is parked if and only if the watermark it loaded reaches its
      mark; it is posted, or dropped as net zero, if and only if it does not. */
  lemma GuardIff(s: State)
    requires Inv(s) && s.flight.Loaded?
    ensures s.flight.base < |s.hist| && s.flight.snap.mark.Some?
    ensures var wm, mark := s.hist[s.flight.base].wm, s.flight.snap.mark.value;
            && (Enabled(s, ParkCovered) <==> wm > 0 && wm >= mark)
            && (Enabled(s, Prepare) || Enabled(s, DropNetZero) <==> !(wm > 0 && wm >= mark))
            && !(Enabled(s, Prepare) && Enabled(s, DropNetZero))
  {
    Recognised(s);
    MarkAbove(s);
    GuardFrom(s);
  }

  lemma MarkAbove(s: State)
    requires WindowInv(s) && s.flight.Loaded?
    ensures s.frozen > 0
  {
    assert s.frozen > s.liveLo;
  }

  lemma GuardFrom(s: State)
    requires s.flight.Loaded? && s.flight.base < |s.hist| && s.flight.snap.n <= |s.buf.pending|
    requires s.flight.snap.mark == Some(s.frozen)
    requires AlreadyCommitted(s.hist, s.flight.base, MarkOf(s.flight.snap)) <==> s.hist[s.flight.base].wm >= s.frozen
    requires s.frozen > 0
    ensures var wm, mark := s.hist[s.flight.base].wm, s.flight.snap.mark.value;
            && (Enabled(s, ParkCovered) <==> wm > 0 && wm >= mark)
            && (Enabled(s, Prepare) || Enabled(s, DropNetZero) <==> !(wm > 0 && wm >= mark))
            && !(Enabled(s, Prepare) && Enabled(s, DropNetZero))
  {}

  lemma RunGuardIff(trace: seq<State>, steps: seq<Step>, i: nat)
    requires Run(trace, steps) && i < |trace| && trace[i].flight.Loaded?
    ensures trace[i].flight.base < |trace[i].hist| && trace[i].flight.snap.mark.Some?
    ensures var s := trace[i];
            var wm, mark := s.hist[s.flight.base].wm, s.flight.snap.mark.value;
            && (Enabled(s, ParkCovered) <==> wm > 0 && wm >= mark)
            && (Enabled(s, Prepare) || Enabled(s, DropNetZero) <==> !(wm > 0 && wm >= mark))
            && !(Enabled(s, Prepare) && Enabled(s, DropNetZero))
  {
    RunInv(trace, steps, i);
    GuardIff(trace[i]);
  }

  // ---- an errored post ---------------------------------------------------------------------------------------------

  /** A post whose answer is an error: with a reload it is taken as committed if and only if it landed, and
      nothing is then shown twice; otherwise it goes back into the window. */
  lemma PostErrorIff(s: State, reload: bool)
    requires Inv(s) && Enabled(s, PostError(reload))
    ensures var t := Do(s, PostError(reload));
            && (t.flight.Settling? <==> reload && s.flight.landed)
            && (t.flight.Settling? ==> t.flight.mark == s.flight.mark && t.buf == s.buf && !Doubled(t))
            && (!t.flight.Settling? ==> t.flight.Idle? && |t.buf.flushed| < |s.buf.flushed|)
  {
    PostErrorOutcome(s, reload);
    PostedPlace(s);
  }

  lemma PostErrorOutcome(s: State, reload: bool)
    requires CatalogInv(s) && WindowInv(s) && Enabled(s, PostError(reload))
    ensures s.hist[LastIdx(s)].wm >= s.flight.mark <==> s.flight.landed
    ensures s.flight.landed ==> !Doubled(s)
  {
    if s.hist[LastIdx(s)].wm >= s.flight.mark { CoveredLanded(s); }
  }

  lemma PostedPlace(s: State)
    requires WindowInv(s) && s.flight.Posted?
    ensures GenPosition(s.buf.flushed, s.flight.next.id) < |s.buf.flushed|
  {
    assert s.buf.flushed[|s.buf.flushed| - 1].commit == Snapshot(s.flight.next.id);
  }

  // ---- nothing staged above the newest watermark ---------------------------------------------------------------

  /** Metadata covers every statement there is. */
  ghost predicate CaughtUp(s: State) {
    && |s.hist| > 0
    && (s.buf.tailHigh.Some? ==> s.buf.tailHigh.value <= s.hist[LastIdx(s)].wm)
    && forall e :: e in s.log ==> e.seqno <= s.hist[LastIdx(s)].wm
  }

  /** The newest version's rows are the whole log, each statement once. */
  lemma CaughtUpRows(s: State)
    requires Inv(s) && CaughtUp(s)
    ensures s.hist[LastIdx(s)].rows == Logical(s)
  {
    AtTop(s.base, s.log, s.hist[LastIdx(s)].wm);
    assert s.hist[LastIdx(s)].rows == At(s.base, s.log, s.hist[LastIdx(s)].wm);
  }

  /** Then nothing is posted. */
  lemma CaughtUpPostsNot(s: State, step: Step)
    requires Inv(s) && CaughtUp(s) && Enabled(s, step)
    ensures !step.Prepare? && !step.DropNetZero? && !step.Land?
  {
    if s.flight.Loaded? {
      GuardIff(s);
      LoadedCovered(s);
    }
    if step.Land? {
      UnlandedAbove(s);
    }
  }

  lemma LoadedCovered(s: State)
    requires CatalogInv(s) && WindowInv(s) && CaughtUp(s) && s.flight.Loaded?
    ensures s.hist[s.flight.base].wm == s.hist[LastIdx(s)].wm >= s.frozen > 0 && s.flight.snap.mark == Some(s.frozen)
  {
    Recognised(s);
    assert s.frozen > s.liveLo;
  }

  lemma UnlandedAbove(s: State)
    requires CatalogInv(s) && WindowInv(s) && s.flight.Posted? && !s.flight.landed
    ensures !CaughtUp(s)
  {
    assert s.spans[|s.spans| - 1].lo < s.spans[|s.spans| - 1].hi;
  }

  lemma SameCaughtUp(s: State, s': State)
    requires CaughtUp(s) && |s'.hist| > 0 && s'.hist[LastIdx(s')].wm == s.hist[LastIdx(s)].wm
    requires s'.buf.tailHigh == s.buf.tailHigh || s'.buf.tailHigh == None
    requires forall e :: e in s'.log ==> e in s.log
    ensures CaughtUp(s')
  {}

  /** The steps that neither stage nor post nor crash leave log, high mark and history as they are. */
  predicate Idles(step: Step) {
    !step.StageStmt? && !step.Prepare? && !step.DropNetZero? && !step.Land? && !step.Crash? && !step.ForeignCommit? && !step.FailWait?
  }

  lemma IdleKeeps(s: State, step: Step)
    requires Can(s, step) && Idles(step)
    ensures var s' := Do(s, step); s'.log == s.log && s'.hist == s.hist && s'.buf.tailHigh == s.buf.tailHigh
  {}

  lemma FailKeeps(s: State, sq: nat)
    requires sq in s.waiting
    ensures var s' := DoFail(s, sq);
            s'.hist == s.hist && s'.buf.tailHigh == s.buf.tailHigh && forall e :: e in s'.log ==> e in s.log
  {
    forall e | e in Minus(s.log, {sq}) ensures e in s.log { MinusIn(s.log, {sq}, e); }
  }

  lemma CrashKeepsAll(s: State, lost: set<nat>)
    requires |s.hist| > 0 && Sorted(s.log) && TailOk(s.tail, s.hist[LastIdx(s)].wm, s.log, s.failed) && CaughtUp(s)
    ensures var s' := DoCrash(s, lost);
            s'.hist == s.hist && s'.buf.tailHigh == None && forall e :: e in s'.log ==> e in s.log
  {
    SurvivorsAre(s, lost);
    CrashCut(s, lost);
    UptoAll(s.log, EffectiveWatermark(s));
    assert Survivors(s, lost) == [];
  }

  /** Until a statement is staged, metadata stays ahead: no step posts anything, and the newest version
      keeps its rows and its watermark. */
  lemma CaughtUpStep(s: State, step: Step)
    requires Inv(s) && CaughtUp(s) && Can(s, step) && !step.StageStmt?
    ensures !step.Prepare? && !step.DropNetZero? && !step.Land?
    ensures var s' := Do(s, step);
            && CaughtUp(s')
            && s'.hist[LastIdx(s')].rows == s.hist[LastIdx(s)].rows && s'.hist[LastIdx(s')].wm == s.hist[LastIdx(s)].wm
  {
    CaughtUpPostsNot(s, step);
    if step.Crash? {
      CrashCaughtUp(s, step.lost);
    } else if step.FailWait? {
      FailCaughtUp(s, step.sq);
    } else if step.ForeignCommit? {
      ForeignCaughtUp(s);
    } else {
      IdleKeeps(s, step);
      SameCaughtUp(s, Do(s, step));
    }
  }

  lemma CrashCaughtUp(s: State, lost: set<nat>)
    requires Inv(s) && CaughtUp(s) && Can(s, Crash(lost))
    ensures var s' := Do(s, Crash(lost)); CaughtUp(s') && s'.hist == s.hist
  {
    CrashParts(s, lost);
    CrashKeepsAll(s, lost);
    SameCaughtUp(s, DoCrash(s, lost));
  }

  lemma FailCaughtUp(s: State, sq: nat)
    requires CaughtUp(s) && Can(s, FailWait(sq))
    ensures var s' := Do(s, FailWait(sq)); CaughtUp(s') && s'.hist == s.hist
  {
    FailKeeps(s, sq);
    SameCaughtUp(s, DoFail(s, sq));
  }

  lemma ForeignCaughtUp(s: State)
    requires CaughtUp(s)
    ensures var s' := DoForeign(s);
            && CaughtUp(s')
            && s'.hist[LastIdx(s')].rows == s.hist[LastIdx(s)].rows && s'.hist[LastIdx(s')].wm == s.hist[LastIdx(s)].wm
  {
    SameCaughtUp(s, DoForeign(s));
  }

  /** A commit that lands with nothing staged since its snapshot covers all there is. */
  lemma LandCatchesUp(s: State)
    requires Inv(s) && s.flight.Posted? && !s.flight.landed && s.buf.tailHigh == Some(s.flight.mark)
    ensures CaughtUp(DoLand(s)) && DoLand(s).hist[LastIdx(DoLand(s))] == s.flight.next
  {}

  // ---- runs ----------------------------------------------------------------------------------------------------

  /** Nothing is staged between the states `i` and `j`. */
  ghost predicate NothingStaged(steps: seq<Step>, i: nat, j: nat)
    requires i <= j <= |steps|
  {
    forall k :: i <= k < j ==> !steps[k].StageStmt?
  }

  lemma CaughtUpNext(s: State, step: Step, s': State)
    requires Inv(s) && CaughtUp(s) && Next(s, step, s') && !step.StageStmt?
    ensures !step.Prepare? && !step.DropNetZero? && !step.Land?
    ensures CaughtUp(s') && s'.hist[LastIdx(s')].rows == s.hist[LastIdx(s)].rows
  {
    CaughtUpStep(s, step);
  }

  lemma {:induction false} CaughtUpAlong(trace: seq<State>, steps: seq<Step>, i: nat, j: nat)
    requires Run(trace, steps) && i <= j < |trace| && CaughtUp(trace[i]) && NothingStaged(steps, i, j)
    ensures CaughtUp(trace[j])
    ensures trace[j].hist[LastIdx(trace[j])].rows == trace[i].hist[LastIdx(trace[i])].rows
    ensures forall k :: i <= k < j ==> !steps[k].Prepare? && !steps[k].DropNetZero? && !steps[k].Land?
    decreases j
  {
    if i < j {
      CaughtUpAlong(trace, steps, i, j - 1);
      RunInv(trace, steps, j - 1);
      CaughtUpNext(trace[j - 1], steps[j - 1], trace[j]);
    }
  }

  lemma LandNext(s: State, s': State)
    requires Inv(s) && s.flight.Posted? && s.buf.tailHigh == Some(s.flight.mark) && Next(s, Land, s')
    ensures CaughtUp(s') && s'.hist[LastIdx(s')].rows == s.flight.next.rows
  {
    LandCatchesUp(s);
  }

  /** A commit that landed, whatever the client was told of it and however often its reload failed, is
      made once: while nothing new is staged no later step posts or lands anything, the newest version
      holds its rows, which are the whole log, and every flush that gets as far as loading metadata is
      parked. */
  lemma LandedOnce(trace: seq<State>, steps: seq<Step>, i: nat, j: nat)
    requires Run(trace, steps) && i < j < |trace| && steps[i] == Land
    requires trace[i].flight.Posted? && trace[i].buf.tailHigh == Some(trace[i].flight.mark) && NothingStaged(steps, i, j)
    ensures forall k :: i < k < j ==> !steps[k].Prepare? && !steps[k].DropNetZero? && !steps[k].Land?
    ensures |trace[j].hist| > 0 && trace[j].hist[LastIdx(trace[j])].rows == trace[i].flight.next.rows == Logical(trace[j])
    ensures trace[j].flight.Loaded? ==> Enabled(trace[j], ParkCovered)
  {
    RunInv(trace, steps, i);
    LandNext(trace[i], trace[i + 1]);
    CaughtUpAlong(trace, steps, i + 1, j);
    RunInv(trace, steps, j);
    CaughtUpRows(trace[j]);
    if trace[j].flight.Loaded? {
      GuardIff(trace[j]);
      LoadedCovered(trace[j]);
    }
  }

  /** Parked, the window is no longer shown twice: every servable view is the log. */
  lemma ParkedViews(s: State, v: nat)
    requires Inv(s) && Enabled(s, ParkCovered)
    requires Servable(DoPark(s).hist, DoPark(s).served, DoPark(s).scans, v)
    ensures ScanResult(DoPark(s), v) == Logical(s)
  {
    ParkInv(s);
    Recognised(s);
    NotDoubled(DoPark(s), v);
    ViewIsLogical(DoPark(s), v);
  }
}
