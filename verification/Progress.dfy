/** What the steps let happen: from any reachable state at rest a flush can run to its end, whichever way
    it goes, and it leaves every statement committed once, nothing buffered and nothing to replay. */
module Progress {
  import opened Rows
  import opened Window
  import opened Log
  import opened Engine
  import opened Invariants
  import opened FlushSteps
  import opened Refinement
  import opened WhollyCovered

  /** No client statement, no crash, no one else's commit. */
  predicate Flushes(step: Step) {
    || step.FlushSnapshot? || step.FlushLoad? || step.ParkCovered? || step.DropNetZero? || step.Prepare? || step.Land?
    || step.Committed? || step.RecordWatermark? || step.Truncate?
  }

  /** The flusher's steps can be taken one after another, from `s` to `t`. */
  ghost predicate Leads(s: State, steps: seq<Step>, t: State)
    decreases |steps|
  {
    if |steps| == 0 then t == s
    else Flushes(steps[0]) && exists u :: Next(s, steps[0], u) && Leads(u, steps[1..], t)
  }

  ghost predicate FlushesTo(s: State, t: State) {
    exists steps :: Leads(s, steps, t)
  }

  lemma Nowhere(s: State)
    ensures FlushesTo(s, s)
  {
    assert Leads(s, [], s);
  }

  lemma After(s: State, step: Step, u: State, t: State)
    requires Flushes(step) && Next(s, step, u) && FlushesTo(u, t)
    ensures FlushesTo(s, t)
  {
    var steps :| Leads(u, steps, t);
    assert ([step] + steps)[1..] == steps;
    assert Leads(s, [step] + steps, t);
  }

  ghost predicate Waiting(b: Buf) {
    b.pending != [] || Entries(b) != map[]
  }

  /** Everything staged is in the newest version, nothing is buffered. */
  ghost predicate Done(s: State) {
    && |s.hist| > 0 && s.hist[LastIdx(s)].rows == Logical(s)
    && !Waiting(s.buf)
    && forall e :: e in s.log ==> e.seqno <= s.frozen
  }

  /** At rest: everything is committed, nothing is buffered, no frame is left. */
  ghost predicate Clean(s: State, log: seq<Stmt>) {
    Inv(s) && Done(s) && s.flight.Idle? && s.tail.frames == [] && s.log == log
  }

  // ---- the flush, step by step -------------------------------------------------------------------------------

  /** Taken and loaded: the snapshot is the whole window, up to the high mark, on the newest metadata. */
  ghost predicate Whole(s: State) {
    && s.flight.Loaded? && |s.hist| > 0 && s.flight.base == LastIdx(s)
    && s.flight.snap.n == |s.buf.pending| && s.flight.snap.keyed == Entries(s.buf)
    && s.buf.tailHigh == Some(s.frozen) && s.flight.snap.mark == Some(s.frozen)
  }

  lemma TakenWhole(s: State)
    requires |s.hist| > 0 && Waiting(s.buf) && s.flight.Idle? && s.buf.tailHigh.Some?
    ensures Next(s, FlushSnapshot, DoSnapshot(s)) && Next(DoSnapshot(s), FlushLoad, DoLoad(DoSnapshot(s)))
    ensures var s2 := DoLoad(DoSnapshot(s));
            && Whole(s2) && s2.log == s.log && s2.hist == s.hist && s2.tail == s.tail && s2.waiting == s.waiting
            && s2.liveLo == s.liveLo && s2.frozen == s.buf.tailHigh.value
  {}

  lemma TakeInv(s: State)
    requires Inv(s) && Waiting(s.buf) && s.flight.Idle?
    ensures |s.hist| > 0 && s.buf.tailHigh.Some? && Inv(DoLoad(DoSnapshot(s)))
  {
    SnapshotMark(s);
    SnapshotInv(s);
    LoadInv(DoSnapshot(s));
  }

  /** Nothing staged is above the mark, and no frame is. */
  lemma MarkTops(s: State)
    requires WindowInv(s) && s.buf.tailHigh == Some(s.frozen)
    ensures forall e :: e in s.log ==> e.seqno <= s.frozen
  {}

  lemma DrainedWhole(entries: map<Key, Entry>)
    ensures Drained(entries, entries) == map[]
  {}

  lemma EmptiedWhole(b: Buf, commit: GenCommit, now: nat)
    ensures !Waiting(DropPrefix(b, |b.pending|, Entries(b)))
    ensures !Waiting(MoveToFlushed(b, |b.pending|, Entries(b), commit, now))
  {
    DrainedWhole(Entries(b));
  }

  // ---- the three ways ------------------------------------------------------------------------------------------

  /** The state before the watermark is recorded. */
  ghost predicate Finished(s: State) {
    Done(s) && s.flight == Settling(s.frozen) && s.buf.tailHigh == Some(s.frozen)
  }

  lemma ParkedIs(s: State)
    requires Inv(s) && Whole(s) && Enabled(s, ParkCovered)
    ensures Next(s, ParkCovered, DoPark(s)) && Inv(DoPark(s)) && Finished(DoPark(s))
  {
    Recognised(s);
    ParkInv(s);
    MarkTops(s);
    var t := DoPark(s);
    EmptiedWhole(s.buf, CoveredByWatermark(s.frozen), s.clock);
    CoveredRows(t, s.frozen);
  }

  /** Metadata whose watermark reaches every statement holds them all. */
  lemma CoveredRows(s: State, mark: nat)
    requires CatalogInv(s) && s.hist[LastIdx(s)].wm >= mark && forall e :: e in s.log ==> e.seqno <= mark
    ensures s.hist[LastIdx(s)].rows == Logical(s)
  {
    AtTop(s.base, s.log, s.hist[LastIdx(s)].wm);
    assert s.hist[LastIdx(s)].rows == At(s.base, s.log, s.hist[LastIdx(s)].wm);
  }

  lemma DroppedShape(s: State)
    requires Whole(s)
    ensures var t := DoDrop(s);
            && t.flight == Settling(s.frozen) && t.frozen == t.liveLo == s.frozen && t.buf.tailHigh == s.buf.tailHigh
            && t.log == s.log && !Waiting(t.buf)
  {
    EmptiedWhole(s.buf, Snapshot(0), 0);
  }

  lemma DroppedIs(s: State)
    requires Inv(s) && Whole(s) && Can(s, DropNetZero)
    ensures Next(s, DropNetZero, DoDrop(s)) && Inv(DoDrop(s)) && DoDrop(s).log == s.log && Finished(DoDrop(s))
  {
    MarkTops(s);
    StepInv(s, DropNetZero);
    DroppedShape(s);
    UncoveredLinks(DoDrop(s));
  }

  /** Nothing above the mark, and no watermark either: the newest rows are the log. */
  lemma UncoveredLinks(s: State)
    requires CatalogInv(s) && !s.flight.Posted? && s.liveLo == s.frozen && forall e :: e in s.log ==> e.seqno <= s.frozen
    ensures s.hist[LastIdx(s)].rows == Logical(s)
  {
    LastLink(s);
    AtTop(s.base, s.log, s.liveLo);
    assert s.hist[LastIdx(s)].rows == At(s.base, s.log, s.hist[LastIdx(s)].wm);
  }

  /** Posted and not yet landed, on the newest metadata. */
  ghost predicate Ready(s: State) {
    && |s.hist| > 0 && s.flight.Posted? && !s.flight.landed && s.flight.base == LastIdx(s) && s.flight.mark == s.frozen
    && !Waiting(s.buf) && s.buf.tailHigh == Some(s.frozen) && Traced(s.tail, s.waiting)
  }

  lemma PreparedReady(s: State)
    requires Whole(s) && Enabled(s, Prepare) && Traced(s.tail, s.waiting)
    ensures Ready(DoPrepare(s)) && DoPrepare(s).log == s.log
  {
    EmptiedWhole(s.buf, Snapshot(s.nextSnap), s.clock);
  }

  lemma PreparedIs(s: State)
    requires Inv(s) && Whole(s) && Can(s, Prepare) && Traced(s.tail, s.waiting)
    ensures Next(s, Prepare, DoPrepare(s)) && Inv(DoPrepare(s)) && Ready(DoPrepare(s)) && DoPrepare(s).log == s.log
  {
    PreparedReady(s);
    StepInv(s, Prepare);
  }

  function Confirmed(s: State): State
    requires s.flight.Posted?
  {
    s.(flight := Settling(s.flight.mark))
  }

  lemma LandsNext(s: State)
    requires Ready(s)
    ensures Next(s, Land, DoLand(s)) && Next(DoLand(s), Committed, Confirmed(DoLand(s)))
  {}

  lemma LandedIs(s: State)
    requires Inv(s) && Ready(s)
    ensures Inv(DoLand(s)) && Inv(Confirmed(DoLand(s)))
    ensures Finished(Confirmed(DoLand(s))) && Confirmed(DoLand(s)).log == s.log
  {
    LandsNext(s);
    MarkTops(s);
    StepInv(s, Land);
    StepInv(DoLand(s), Committed);
    LandedMark(s);
    CoveredRows(Confirmed(DoLand(s)), s.frozen);
  }

  lemma LandedMark(s: State)
    requires WindowInv(s) && s.flight.Posted? && !s.flight.landed
    ensures s.flight.next.wm == s.flight.mark
  {}

  lemma RecordsNext(s: State, removed: set<nat>)
    requires |s.hist| > 0 && s.flight.Settling? && forall q :: q in removed ==> q <= s.flight.mark
    ensures Next(s, RecordWatermark(true), DoRecord(s, true))
    ensures Next(DoRecord(s, true), Truncate(removed), DoTruncate(DoRecord(s, true), removed))
  {}

  /** Record and truncate: no frame is left. */
  lemma FinishedEnds(s: State) returns (t: State)
    requires Inv(s) && Finished(s)
    ensures FlushesTo(s, t) && Clean(t, s.log)
  {
    var r := DoRecord(s, true);
    var removed := set e | e in s.tail.frames :: e.seqno;
    FramesBelow(s);
    RecordsNext(s, removed);
    NextInv(s, RecordWatermark(true), r);
    t := DoTruncate(r, removed);
    NextInv(r, Truncate(removed), t);
    FinishedClean(s, removed);
    Nowhere(t);
    After(r, Truncate(removed), t, t);
    After(s, RecordWatermark(true), r, t);
  }

  lemma FinishedClean(s: State, removed: set<nat>)
    requires Finished(s) && forall e :: e in s.tail.frames ==> e.seqno in removed
    ensures var t := DoTruncate(DoRecord(s, true), removed);
            Done(t) && t.flight.Idle? && t.tail.frames == [] && t.log == s.log
  {
    MinusAll(s.tail.frames, removed);
  }

  /** Every frame is at or below the mark. */
  lemma FramesBelow(s: State)
    requires CatalogInv(s) && WindowInv(s) && Finished(s) && TailInv(s)
    ensures forall e :: e in s.tail.frames ==> e.seqno <= s.frozen
  {
    var w := Max(s.hist[LastIdx(s)].wm, s.tail.sidecar);
    forall e | e in s.tail.frames ensures e.seqno <= s.frozen {
      if e.seqno > w {
        AboveIn(s.tail.frames, w, e);
        MinusIn(Above(s.log, w), s.failed, e);
        AboveIn(s.log, w, e);
      }
    }
  }

  lemma {:induction false} MinusAll(frames: seq<Stmt>, gone: set<nat>)
    requires forall e :: e in frames ==> e.seqno in gone
    ensures Minus(frames, gone) == []
  {
    if |frames| > 0 {
      assert frames[|frames| - 1] in frames;
      MinusAll(frames[..|frames| - 1], gone);
    }
  }

  // ---- a flush can finish -----------------------------------------------------------------------------------------

  /** From loading the metadata to the end, whichever of the three ways. */
  lemma LoadedEnds(s: State) returns (t: State)
    requires Inv(s) && Whole(s) && !PartlyCovered(s) && Traced(s.tail, s.waiting)
    ensures FlushesTo(s, t) && Clean(t, s.log)
  {
    OneWay(s);
    if Enabled(s, ParkCovered) {
      ParkedIs(s);
      t := FinishedEnds(DoPark(s));
      After(s, ParkCovered, DoPark(s), t);
    } else if Can(s, DropNetZero) {
      DroppedIs(s);
      t := FinishedEnds(DoDrop(s));
      After(s, DropNetZero, DoDrop(s), t);
    } else {
      t := PostedEnds(s);
    }
  }

  lemma OneWay(s: State)
    requires Inv(s) && s.flight.Loaded? && !PartlyCovered(s)
    ensures Enabled(s, ParkCovered) || Can(s, DropNetZero) || Can(s, Prepare)
  {
    GuardIff(s);
  }

  lemma PostedEnds(s: State) returns (t: State)
    requires Inv(s) && Whole(s) && Can(s, Prepare) && Traced(s.tail, s.waiting)
    ensures FlushesTo(s, t) && Clean(t, s.log)
  {
    PreparedIs(s);
    t := ReadyEnds(DoPrepare(s));
    After(s, Prepare, DoPrepare(s), t);
  }

  lemma ReadyEnds(s: State) returns (t: State)
    requires Inv(s) && Ready(s)
    ensures FlushesTo(s, t) && Clean(t, s.log)
  {
    LandedIs(s);
    LandsNext(s);
    t := FinishedEnds(Confirmed(DoLand(s)));
    After(DoLand(s), Committed, Confirmed(DoLand(s)), t);
    After(s, Land, DoLand(s), t);
  }

  /** From any reachable state at rest with something buffered, unless metadata covers a part of it, a flush
      can run to its end: everything staged is then in the newest version, nothing is buffered, and no
      frame is left to replay. */
  lemma FlushCompletes(s: State) returns (t: State)
    requires Inv(s) && s.flight.Idle? && Waiting(s.buf) && Traced(s.tail, s.waiting)
    requires s.buf.tailHigh.Some? ==> !(s.liveLo < s.hist[LastIdx(s)].wm < s.buf.tailHigh.value)
    ensures FlushesTo(s, t) && Clean(t, s.log) && t.base == s.base
    ensures t.hist[LastIdx(t)].rows == Logical(s) && t.buf.pending == [] && Entries(t.buf) == map[]
  {
    TakeInv(s);
    TakenWhole(s);
    t := LoadedEnds(DoLoad(DoSnapshot(s)));
    After(DoSnapshot(s), FlushLoad, DoLoad(DoSnapshot(s)), t);
    After(s, FlushSnapshot, DoSnapshot(s), t);
    BaseAlong(s, t);
  }

  /** A post that lost its race is not the end of it: merged back, the flush can run again. */
  lemma RejectedRetries(s: State) returns (r: State, t: State)
    requires Inv(s) && Can(s, Reject) && Traced(s.tail, s.waiting)
    ensures Next(s, Reject, r)
    ensures Waiting(r.buf) ==> FlushesTo(r, t) && Clean(t, s.log) && t.base == s.base
  {
    RejectedRests(s);
    r := DoMergeBack(s);
    t := r;
    NextInv(s, Reject, r);
    if Waiting(r.buf) {
      t := FlushCompletes(r);
    }
  }

  lemma RejectedRests(s: State)
    requires WindowInv(s) && Can(s, Reject)
    ensures var r := DoMergeBack(s);
            && Next(s, Reject, r) && r.flight.Idle? && r.hist == s.hist && r.log == s.log && r.base == s.base && r.tail == s.tail
            && r.hist[LastIdx(r)].wm <= r.liveLo && (Traced(s.tail, s.waiting) ==> Traced(r.tail, r.waiting))
  {}

  lemma {:induction false} BaseKept(s: State, steps: seq<Step>, t: State)
    requires Leads(s, steps, t)
    ensures t.base == s.base
    decreases |steps|
  {
    if |steps| > 0 {
      var u :| Next(s, steps[0], u) && Leads(u, steps[1..], t);
      BaseNext(s, steps[0], u);
      BaseKept(u, steps[1..], t);
    }
  }

  lemma BaseAlong(s: State, t: State)
    requires FlushesTo(s, t)
    ensures t.base == s.base
  {
    var steps :| Leads(s, steps, t);
    BaseKept(s, steps, t);
  }

  // ---- after a crash ----------------------------------------------------------------------------------------------

  lemma {:induction false} AboveLength(frames: seq<Stmt>, w: nat)
    ensures |Above(frames, w)| <= |frames|
    ensures |Above(frames, w)| == |frames| ==> Above(frames, w) == frames
  {
    if |frames| > 0 { AboveLength(frames[..|frames| - 1], w); }
  }

  lemma {:induction false} CoveredGone(frames: seq<Stmt>, w: nat, gone: set<nat>)
    requires Sorted(frames) && forall e :: e in frames ==> (e.seqno in gone <==> e.seqno <= w)
    ensures Minus(frames, gone) == Above(frames, w)
  {
    if |frames| > 0 {
      var init, last := frames[..|frames| - 1], frames[|frames| - 1];
      assert last in frames;
      if last.seqno <= w {
        forall e | e in frames ensures e.seqno in gone {
          var i :| 0 <= i < |frames| && frames[i] == e;
          assert e.seqno <= last.seqno;
        }
        MinusAll(frames, gone);
      } else {
        CoveredGone(init, w, gone);
      }
    }
  }

  /** After a reboot the flusher's first steps leave exactly the surviving frames in the tail: those a
      commit covers are gone, and the window is untouched. */
  lemma RebootSettles(s: State, lost: set<nat>) returns (t: State)
    requires Inv(s)
    ensures var c := DoCrash(s, lost);
            FlushesTo(c, t) && t.flight.Idle? && t.tail.frames == Survivors(s, lost) && t.buf == c.buf && t.log == c.log
  {
    var c, w := DoCrash(s, lost), EffectiveWatermark(s);
    t := c;
    Nowhere(t);
    AboveLength(c.tail.frames, w);
    if c.flight.Settling? {
      var gone := set e | e in c.tail.frames && e.seqno <= w :: e.seqno;
      FramesSorted(s, lost);
      CoveredGone(c.tail.frames, w, gone);
      RecordsNext(c, gone);
      t := DoTruncate(DoRecord(c, true), gone);
      Nowhere(t);
      After(DoRecord(c, true), Truncate(gone), t, t);
      After(c, RecordWatermark(true), DoRecord(c, true), t);
    }
  }

  lemma FramesSorted(s: State, lost: set<nat>)
    requires |s.hist| > 0 && TailInv(s)
    ensures Sorted(Minus(s.tail.frames, lost))
  {
    MinusSorted(s.tail.frames, lost);
  }
}
