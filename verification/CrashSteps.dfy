/** A crash: the window, the flusher and every unresolved wait are gone; boot replay filters the
    surviving frames against the effective watermark and routes them again. */
module CrashSteps {
  import opened Rows
  import opened Window
  import opened Layers
  import opened Statements
  import opened Log
  import opened Engine
  import opened Invariants
  import opened StageSteps
  import opened SettleSteps

  // ---- replaying frames ------------------------------------------------------------------------------

  lemma EmptyWindow(pk: seq<string>, keyedTable: bool, c: Table)
    ensures BufOk(pk, keyedTable, EMPTY) && Apply(c, Live(EMPTY)) == c
  {
    assert ClaimedPrefix(EMPTY.pending, 0);
    assert RowsOf(EMPTY.pending) == [];
    forall r: Row ensures Apply(c, Live(EMPTY))[r] == c[r] {}
  }

  lemma ReplayOne(pk: seq<string>, keyedTable: bool, b: Buf, e: Stmt, c: Table, t: Table)
    requires BufOk(pk, keyedTable, b) && Apply(c, Live(b)) == t && Allowed(keyedTable, t, e.op)
    ensures !PkChanged(b, pk)
    ensures BufOk(pk, keyedTable, RouteStmt(b, pk, e.op, None, Some(e.seqno)).buf)
    ensures Apply(c, Live(RouteStmt(b, pk, e.op, None, Some(e.seqno)).buf)) == Exec(t, e.op)
    ensures RouteStmt(b, pk, e.op, None, Some(e.seqno)).buf.tailHigh == b.tailHigh
  {
    AllowedRoutes(keyedTable, b, c, t, e.op);
    StmtDenotes(b, pk, e.op, None, Some(e.seqno), c);
    StmtFacts(b, pk, e.op, None, Some(e.seqno));
    StmtPk(b, pk, e.op, None, Some(e.seqno));
    StmtWellFormed(b, pk, e.op, None, Some(e.seqno));
  }

  /** Replaying frames through the same routing as live statements runs them in order. */
  lemma {:induction false} ReplayDenotes(pk: seq<string>, keyedTable: bool, frames: seq<Stmt>, c: Table)
    requires AllAllowed(keyedTable, c, frames)
    ensures BufOk(pk, keyedTable, Replay(pk, frames))
    ensures Apply(c, Live(Replay(pk, frames))) == Fold(c, frames)
    ensures Replay(pk, frames).tailHigh == None
  {
    if |frames| == 0 {
      EmptyWindow(pk, keyedTable, c);
    } else {
      var init, last := frames[..|frames| - 1], frames[|frames| - 1];
      ReplayDenotes(pk, keyedTable, init, c);
      ReplayOne(pk, keyedTable, Replay(pk, init), last, c, Fold(c, init));
    }
  }

  lemma BootDenotes(pk: seq<string>, keyedTable: bool, survivors: seq<Stmt>, c: Table)
    requires AllAllowed(keyedTable, c, survivors)
    ensures var b := Boot(pk, survivors);
            && BufOk(pk, keyedTable, b) && Apply(c, Live(b)) == Fold(c, survivors) && b.flushed == []
            && b.tailHigh == (if |survivors| == 0 then None else Some(LastSeq(survivors)))
            && (|survivors| == 0 ==> b == EMPTY)
  {
    ReplayDenotes(pk, keyedTable, survivors, c);
    if |survivors| == 0 {
      EmptyWindow(pk, keyedTable, c);
    } else {
      BootBuf(pk, keyedTable, Replay(pk, survivors), LastSeq(survivors));
    }
  }

  lemma BootBuf(pk: seq<string>, keyedTable: bool, b: Buf, high: nat)
    requires BufOk(pk, keyedTable, b)
    ensures BufOk(pk, keyedTable, NoteTailHigh(b, high)) && Live(NoteTailHigh(b, high)) == Live(b)
  {
    var n :| ClaimedPrefix(b.pending, n);
    assert ClaimedPrefix(NoteTailHigh(b, high).pending, n);
  }

  // ---- the log a crash leaves -----------------------------------------------------------------------------

  lemma CutConcat(a: seq<Stmt>, b: seq<Stmt>, w: nat)
    requires Sorted(a) && Sorted(b)
    requires (forall e :: e in a ==> e.seqno <= w) && (forall e :: e in b ==> e.seqno > w)
    ensures Sorted(a + b) && Upto(a + b, w) == a && Above(a + b, w) == b
  {
    assert forall i :: 0 <= i < |a| ==> a[i] in a;
    assert forall i :: 0 <= i < |b| ==> b[i] in b;
    CutTail(a, b, w);
  }

  lemma {:induction false} CutTail(a: seq<Stmt>, b: seq<Stmt>, w: nat)
    requires (forall i :: 0 <= i < |a| ==> a[i].seqno <= w) && (forall i :: 0 <= i < |b| ==> b[i].seqno > w)
    ensures Upto(a + b, w) == a && Above(a + b, w) == b
    decreases |b|
  {
    if |b| == 0 {
      assert a + b == a;
    } else {
      assert a + b == (a + b[..|b| - 1]) + [b[|b| - 1]];
      CutTail(a, b[..|b| - 1], w);
      UptoSnoc(a + b[..|b| - 1], b[|b| - 1], w);
    }
  }

  lemma {:induction false} UptoSorted(log: seq<Stmt>, w: nat)
    requires Sorted(log)
    ensures Sorted(Upto(log, w))
  {
    if |log| > 0 { UptoSorted(log[..|log| - 1], w); }
  }

  /** What boot replay recovers: the log above the effective watermark, without the statements
      whose frames are gone. */
  lemma SurvivorsAre(s: State, lost: set<nat>)
    requires |s.hist| > 0 && Sorted(s.log) && TailOk(s.tail, s.hist[LastIdx(s)].wm, s.log, s.failed)
    ensures Survivors(s, lost) == Minus(Above(s.log, EffectiveWatermark(s)), s.failed + lost)
    ensures Sorted(Survivors(s, lost))
    ensures forall e :: e in Survivors(s, lost) ==> e in s.log && e.seqno > EffectiveWatermark(s)
  {
    var w := EffectiveWatermark(s);
    AboveMinus(s.tail.frames, lost, w);
    MinusTwice(Above(s.log, w), s.failed, lost);
    AboveSorted(s.log, w);
    MinusSorted(Above(s.log, w), s.failed + lost);
    forall e | e in Survivors(s, lost) ensures e in s.log && e.seqno > w {
      MinusIn(Above(s.log, w), s.failed + lost, e);
      AboveIn(s.log, w, e);
    }
  }

  lemma CrashCut(s: State, lost: set<nat>)
    requires |s.hist| > 0 && Sorted(s.log) && TailOk(s.tail, s.hist[LastIdx(s)].wm, s.log, s.failed)
    ensures var w, log' := EffectiveWatermark(s), DoCrash(s, lost).log;
            Sorted(log') && Upto(log', w) == Upto(s.log, w) && Above(log', w) == Survivors(s, lost)
    ensures forall e :: e in DoCrash(s, lost).log ==> e in s.log
  {
    var w := EffectiveWatermark(s);
    SurvivorsAre(s, lost);
    UptoSorted(s.log, w);
    forall e | e in Upto(s.log, w) ensures e in s.log && e.seqno <= w { UptoIn(s.log, w, e); }
    CutConcat(Upto(s.log, w), Survivors(s, lost), w);
  }

  lemma CrashAgree(base: Table, log: seq<Stmt>, log': seq<Stmt>, w: nat)
    requires Upto(log', w) == Upto(log, w)
    ensures Agree(base, log, log', w)
  {
    forall x: nat | x <= w ensures At(base, log', x) == At(base, log, x) {
      UptoUpto(log, x, w);
      UptoUpto(log', x, w);
    }
  }

  // ---- the sequence floor ------------------------------------------------------------------------------------

  lemma LastSeqMax(frames: seq<Stmt>, e: Stmt)
    requires Sorted(frames) && e in frames
    ensures e.seqno <= LastSeq(frames)
  {
    var i :| 0 <= i < |frames| && frames[i] == e;
  }

  /** The next boot numbers new frames above every committed watermark, the sidecar, and every
      statement it keeps: a trace of the table is always left in the tail. */
  lemma SequenceFloor(s: State, lost: set<nat>)
    requires Inv(s) && lost <= s.waiting.Keys
    ensures var s' := DoCrash(s, lost);
            && EffectiveWatermark(s) < s'.tail.nextSeq
            && (forall e :: e in s'.tail.frames ==> e.seqno < s'.tail.nextSeq)
            && (forall e :: e in s'.log ==> 1 <= e.seqno < s'.tail.nextSeq)
  {
    var w, s' := EffectiveWatermark(s), DoCrash(s, lost);
    var frames := Minus(s.tail.frames, lost);
    CrashCut(s, lost);
    MinusSorted(s.tail.frames, lost);
    forall e | e in frames ensures e.seqno <= LastSeq(frames) { LastSeqMax(frames, e); }
    TraceSurvives(s, lost);
    forall e | e in s'.log ensures 1 <= e.seqno < s'.tail.nextSeq {
      if e.seqno > w {
        AboveIn(s'.log, w, e);
        SurvivorFrame(s, lost, e);
      }
    }
  }

  lemma SurvivorFrame(s: State, lost: set<nat>, e: Stmt)
    requires |s.hist| > 0 && Sorted(s.tail.frames) && e in Survivors(s, lost)
    ensures e in Minus(s.tail.frames, lost)
  {
    MinusSorted(s.tail.frames, lost);
    AboveIn(Minus(s.tail.frames, lost), EffectiveWatermark(s), e);
  }

  lemma TraceSurvives(s: State, lost: set<nat>)
    requires |s.hist| > 0 && TraceOk(s.hist[LastIdx(s)].wm, s.tail, s.waiting) && lost <= s.waiting.Keys
    ensures EffectiveWatermark(s) > 0 ==> Minus(s.tail.frames, lost) != [] || s.tail.sidecar > 0
    ensures TraceOk(s.hist[LastIdx(s)].wm, s.tail.(frames := Minus(s.tail.frames, lost)), map[])
  {
    if s.hist[LastIdx(s)].wm > 0 && s.tail.sidecar == 0 {
      var x :| x in s.tail.frames && x.seqno !in s.waiting;
      MinusIn(s.tail.frames, lost, x);
    }
  }

  // ---- what may be lost ----------------------------------------------------------------------------------------

  /** A crash that orphans no surviving INSERT leaves a log the table could have had; on a table
      without keyed operations every crash does. */
  lemma CleanAllowed(s: State, lost: set<nat>)
    requires Inv(s) && CrashClean(s, lost)
    ensures CrashAllowed(s, lost)
  {
    var w := EffectiveWatermark(s);
    var t, rest := Fold(s.base, Upto(s.log, w)), Above(s.log, w);
    UptoAbove(s.log, w);
    AllowedConcat(s.keyedTable, s.base, Upto(s.log, w), rest);
    SurvivorsAre(s, lost);
    AboveSorted(s.log, w);
    if s.keyedTable {
      AllowedMinus(t, rest, s.failed + lost);
    } else {
      AllowedPlain(t, rest, s.failed + lost);
    }
    AllowedConcat(s.keyedTable, s.base, Upto(s.log, w), Survivors(s, lost));
  }

  // ---- the invariant after the reboot ----------------------------------------------------------------------------

  lemma CrashLogOk(s: State, lost: set<nat>)
    requires Inv(s) && lost <= s.waiting.Keys && CrashAllowed(s, lost)
    ensures var s' := DoCrash(s, lost); LogOk(s'.keyedTable, s'.base, s'.log, s'.tail.nextSeq)
  {
    CrashCut(s, lost);
    SequenceFloor(s, lost);
  }

  lemma CrashLink(s: State, lost: set<nat>)
    requires Inv(s)
    ensures var s' := DoCrash(s, lost);
            && At(s'.base, s'.log, s'.hist[LastIdx(s')].wm) == At(s'.base, s'.log, s'.liveLo)
            && Agree(s.base, s.log, s'.log, s'.liveLo)
  {
    CrashAgrees(s, lost);
    SidecarCovered(s);
    CrashLinkFrom(s, DoCrash(s, lost), EffectiveWatermark(s));
  }

  lemma CrashAgrees(s: State, lost: set<nat>)
    requires Inv(s)
    ensures Agree(s.base, s.log, DoCrash(s, lost).log, EffectiveWatermark(s))
  {
    CrashCut(s, lost);
    CrashAgree(s.base, s.log, DoCrash(s, lost).log, EffectiveWatermark(s));
  }

  lemma SidecarCovered(s: State)
    requires WindowInv(s)
    ensures Covered(s.hist, s.tail.sidecar, s.base, s.log)
  {}

  lemma CrashLinkFrom(s: State, s': State, w: nat)
    requires Covered(s.hist, s.tail.sidecar, s.base, s.log) && w == Max(s.hist[LastIdx(s)].wm, s.tail.sidecar)
    requires s'.hist == s.hist && s'.base == s.base && s'.liveLo == w && Agree(s.base, s.log, s'.log, w)
    ensures At(s'.base, s'.log, s'.hist[LastIdx(s')].wm) == At(s'.base, s'.log, s'.liveLo)
  {
    CoveredLink(s.hist, s.tail.sidecar, s.base, s.log, s'.log);
  }

  lemma CoveredLink(hist: seq<Version>, sidecar: nat, base: Table, log: seq<Stmt>, log': seq<Stmt>)
    requires Covered(hist, sidecar, base, log) && Agree(base, log, log', Max(hist[|hist| - 1].wm, sidecar))
    ensures var wm := hist[|hist| - 1].wm; At(base, log', wm) == At(base, log', Max(wm, sidecar))
  {
    var wm := hist[|hist| - 1].wm;
    AgreeAt(base, log, log', Max(wm, sidecar), wm);
    AgreeAt(base, log, log', Max(wm, sidecar), sidecar);
  }

  lemma CrashHist(hist: seq<Version>, base: Table, log: seq<Stmt>, log': seq<Stmt>, frozen: nat, w: nat)
    requires HistOk(hist, base, log, frozen) && Agree(base, log, log', w) && hist[|hist| - 1].wm <= w
    ensures HistOk(hist, base, log', w) && DoubledOk(hist, w)
  {
    forall v | 0 <= v < |hist| ensures hist[v].rows == At(base, log', hist[v].wm) && hist[v].wm <= w {
      assert hist[v].wm <= hist[|hist| - 1].wm;
    }
  }

  lemma CrashCatalog(s: State, lost: set<nat>)
    requires Inv(s) && lost <= s.waiting.Keys
    ensures CatalogInv(DoCrash(s, lost))
  {
    var s' := DoCrash(s, lost);
    CrashLink(s, lost);
    CrashHist(s.hist, s.base, s.log, s'.log, s.frozen, s'.liveLo);
    SequenceFloor(s, lost);
    assert s'.buf.flushed == [];
    assert LinkOk(s'.hist, s'.served, s'.scans, s'.spans, s'.liveLo, s'.buf.flushed, s'.base, s'.log) by {
      forall v: nat, j: nat | Servable(s'.hist, s'.served, s'.scans, v) && FirstUnseen(s'.hist, s'.buf.flushed, v, j)
        ensures At(s'.base, s'.log, s'.hist[v].wm) == At(s'.base, s'.log, Lo(s'.spans, s'.liveLo, j))
      {
        assert v == LastIdx(s');
      }
    }
    CatalogIntro(s');
  }

  lemma CrashBuf(s: State, lost: set<nat>)
    requires Inv(s) && lost <= s.waiting.Keys && CrashAllowed(s, lost)
    ensures var s' := DoCrash(s, lost);
            && BufOk(s'.pk, s'.keyedTable, s'.buf) && LiveOk(s'.base, s'.log, s'.liveLo, s'.buf)
            && TopOk(s'.buf, s'.log, s'.liveLo, s'.frozen, s'.tail.nextSeq)
  {
    var w, s', survivors := EffectiveWatermark(s), DoCrash(s, lost), Survivors(s, lost);
    var c := Fold(s.base, Upto(s.log, w));
    AllowedConcat(s.keyedTable, s.base, Upto(s.log, w), survivors);
    BootDenotes(s.pk, s.keyedTable, survivors, c);
    FoldConcat(s.base, Upto(s.log, w), survivors);
    CrashCut(s, lost);
    assert At(s'.base, s'.log, w) == c;
    CrashTop(s, lost);
  }

  lemma CrashTop(s: State, lost: set<nat>)
    requires Inv(s) && lost <= s.waiting.Keys && CrashAllowed(s, lost)
    requires var survivors := Survivors(s, lost);
             var b := Boot(s.pk, survivors);
             b.tailHigh == (if |survivors| == 0 then None else Some(LastSeq(survivors))) && (|survivors| == 0 ==> b == EMPTY)
    ensures var s' := DoCrash(s, lost); TopOk(s'.buf, s'.log, s'.liveLo, s'.frozen, s'.tail.nextSeq)
  {
    var w, s', survivors := EffectiveWatermark(s), DoCrash(s, lost), Survivors(s, lost);
    SurvivorsAre(s, lost);
    SequenceFloor(s, lost);
    CrashCut(s, lost);
    if |survivors| > 0 {
      var last := survivors[|survivors| - 1];
      assert last in survivors && last.seqno == LastSeq(survivors);
      AboveIn(s'.log, w, last);
      forall e | e in s'.log ensures e.seqno <= LastSeq(survivors) {
        if e.seqno > w {
          AboveIn(s'.log, w, e);
          LastSeqMax(survivors, e);
        }
      }
    }
  }

  lemma CrashFlight(s: State, lost: set<nat>)
    requires Inv(s) && lost <= s.waiting.Keys
    ensures var s' := DoCrash(s, lost);
            FlightOk(s'.flight, s'.hist, s'.nextSnap, s'.buf, s'.spans, s'.liveLo, s'.frozen, s'.tail.sidecar, s'.base, s'.log)
  {
    var w, s', frames := EffectiveWatermark(s), DoCrash(s, lost), Minus(s.tail.frames, lost);
    CrashLink(s, lost);
    AgreeAt(s.base, s.log, s'.log, w, s.tail.sidecar);
    AgreeAt(s.base, s.log, s'.log, w, s.hist[LastIdx(s)].wm);
    if w == 0 {
      forall e | e in frames ensures e.seqno > 0 { MinusIn(s.tail.frames, lost, e); }
      AboveAll(frames, 0);
    }
  }

  lemma CrashTail(s: State, lost: set<nat>)
    requires Inv(s) && lost <= s.waiting.Keys
    ensures TailInv(DoCrash(s, lost))
  {
    var w, s', frames := EffectiveWatermark(s), DoCrash(s, lost), Minus(s.tail.frames, lost);
    CrashCut(s, lost);
    MinusAbsent(Above(s'.log, w), {});
    MinusSorted(s.tail.frames, lost);
    SequenceFloor(s, lost);
    forall e | e in frames ensures 1 <= e.seqno { MinusIn(s.tail.frames, lost, e); }
    TraceSurvives(s, lost);
    assert s'.hist[LastIdx(s')].wm == s.hist[LastIdx(s)].wm;
    TailIntro(s');
  }

  lemma CrashInv(s: State, lost: set<nat>)
    requires Inv(s) && lost <= s.waiting.Keys && CrashAllowed(s, lost)
    ensures Inv(DoCrash(s, lost))
  {
    CrashCatalog(s, lost);
    CrashLogOk(s, lost);
    CrashBuf(s, lost);
    CrashFlight(s, lost);
    WindowIntro(DoCrash(s, lost));
    CrashTail(s, lost);
  }
}
