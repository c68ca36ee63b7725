/** Where the keys of logged keyed operations are: in the live map, in what the flusher holds, or in the
    generation in flight, and after an undo still. An invariant of every reachable state, beside the
    main one. */
module KeysHeld {
  import opened Rows
  import opened Window
  import opened Undo
  import opened Statements
  import opened Log
  import opened Engine
  import opened Invariants
  import opened CatalogSteps
  import opened WindowSteps
  import opened StageSteps
  import opened FailSteps
  import opened FlushSteps
  import opened SettleSteps
  import opened CrashSteps
  import opened Refinement

  // ---- where logged keys are -----------------------------------------------------------------------------

  /** Every keyed operation above `lo` has its key among these. */
  ghost predicate HeldAbove(log: seq<Stmt>, lo: nat, keys: set<Key>) {
    forall e :: e in log && e.seqno > lo && !e.op.Insert? ==> OpKeys(e.op) <= keys
  }

  ghost predicate HeldBetween(log: seq<Stmt>, lo: nat, hi: nat, keys: set<Key>) {
    forall e :: e in log && lo < e.seqno <= hi && !e.op.Insert? ==> OpKeys(e.op) <= keys
  }

  /** The live map holds the keys above the window's mark, and what a drain would leave of it those above
      the frozen mark. */
  ghost predicate Keeps(log: seq<Stmt>, entries: map<Key, Entry>, flight: Flight, liveLo: nat, frozen: nat) {
    && HeldAbove(log, liveLo, entries.Keys)
    && HeldAbove(log, frozen, Drained(entries, SnapKeyed(flight)).Keys)
  }

  /** What is in flight holds the keys of its own marks. */
  ghost predicate FlightHeld(
    flight: Flight, log: seq<Stmt>, spans: seq<Span>, flushed: seq<Gen>, liveLo: nat, frozen: nat)
  {
    match flight
    case Snapped(snap) => HeldBetween(log, liveLo, frozen, snap.keyed.Keys)
    case Loaded(snap, _) => HeldBetween(log, liveLo, frozen, snap.keyed.Keys)
    case Posted(_, _, _, _) =>
      |spans| > 0 && |flushed| > 0 && HeldBetween(log, spans[|spans| - 1].lo, liveLo, flushed[|flushed| - 1].keyed.Keys)
    case _ => true
  }

  /** Without a statement that can still be undone, its undo leaves the keys of the others. */
  ghost predicate WaitsHeld(
    waiting: map<nat, Wait>, log: seq<Stmt>, entries: map<Key, Entry>, flight: Flight, liveLo: nat, frozen: nat)
  {
    forall q :: q in waiting && q > frozen && !waiting[q].shadowed
      ==> Keeps(Minus(log, {q}), RestoreKeys(entries, waiting[q].routed.keyed), flight, liveLo, frozen)
  }

  ghost predicate Held(s: State) {
    && Keeps(s.log, Entries(s.buf), s.flight, s.liveLo, s.frozen)
    && FlightHeld(s.flight, s.log, s.spans, s.buf.flushed, s.liveLo, s.frozen)
    && WaitsHeld(s.waiting, s.log, Entries(s.buf), s.flight, s.liveLo, s.frozen)
  }

  lemma HeldIntro(s: State, entries: map<Key, Entry>)
    requires Entries(s.buf) == entries && Keeps(s.log, entries, s.flight, s.liveLo, s.frozen)
    requires FlightHeld(s.flight, s.log, s.spans, s.buf.flushed, s.liveLo, s.frozen)
    requires WaitsHeld(s.waiting, s.log, entries, s.flight, s.liveLo, s.frozen)
    ensures Held(s)
  {}

  /** On a table without keyed operations there is nothing to hold. */
  lemma PlainHeld(s: State)
    requires Inv(s) && !s.keyedTable
    ensures Held(s)
  {
    forall e | e in s.log ensures e.op.Insert? { NoKeyed(s.base, s.log, e); }
    forall q | q in s.waiting
      ensures Keeps(Minus(s.log, {q}), RestoreKeys(Entries(s.buf), s.waiting[q].routed.keyed), s.flight, s.liveLo, s.frozen)
    {
      forall e | e in Minus(s.log, {q}) ensures e.op.Insert? { MinusIn(s.log, {q}, e); }
    }
    PlainFlight(s);
  }

  lemma PlainFlight(s: State)
    requires WindowInv(s) && forall e :: e in s.log ==> e.op.Insert?
    ensures FlightHeld(s.flight, s.log, s.spans, s.buf.flushed, s.liveLo, s.frozen)
  {}

  // ---- a statement ------------------------------------------------------------------------------------------

  /** After a later statement the undo leaves every key it left before. */
  lemma StageHas(b: Buf, b': Buf, op: Op, sq: Option<nat>, recs: seq<RoutedKey>, snap: map<Key, Entry>, k: Key)
    requires NewEntries(b, b', op, sq) && OpsBelow(snap, NextStamp(b))
    requires forall j :: 0 <= j < |recs| ==> recs[j].stamp < NextStamp(b)
    ensures var was, now := RestoreKeys(Entries(b), recs), RestoreKeys(Entries(b'), recs);
            && (k in was ==> k in now) && (k in Drained(was, snap) ==> k in Drained(now, snap))
  {
    RetractStmtEntry(b, b', op, sq, recs, k);
    RestoreSubset(Entries(b), recs);
  }

  /** A keyed operation's own entry is the newest. */
  lemma OwnHas(b: Buf, pk: seq<string>, op: Op, staged: Option<nat>, replayed: Option<nat>, k: Key)
    requires !PkChanged(b, pk) && !op.Insert? && k in OpKeys(op)
    ensures var e := Entries(RouteStmt(b, pk, op, staged, replayed).buf); k in e && e[k].stamp >= NextStamp(b)
  {}

  lemma StageKeeps(
    b: Buf, pk: seq<string>, log: seq<Stmt>, e: Stmt, recs: seq<RoutedKey>, flight: Flight, liveLo: nat,
    frozen: nat)
    requires !PkChanged(b, pk) && OpsBelow(SnapKeyed(flight), NextStamp(b))
    requires forall j :: 0 <= j < |recs| ==> recs[j].stamp < NextStamp(b)
    requires Keeps(log, RestoreKeys(Entries(b), recs), flight, liveLo, frozen)
    ensures Keeps(log + [e], RestoreKeys(Entries(RouteStmt(b, pk, e.op, Some(e.seqno), None).buf), recs), flight, liveLo, frozen)
  {
    var b', snap := RouteStmt(b, pk, e.op, Some(e.seqno), None).buf, SnapKeyed(flight);
    var now := RestoreKeys(Entries(b'), recs);
    StmtFacts(b, pk, e.op, Some(e.seqno), None);
    forall k | k in OpKeys(e.op) && !e.op.Insert? ensures k in now && k in Drained(now, snap) {
      OwnHas(b, pk, e.op, Some(e.seqno), None, k);
      RestoreNewer(Entries(b'), recs, k, NextStamp(b));
    }
    forall k
      ensures k in RestoreKeys(Entries(b), recs) ==> k in now
      ensures k in Drained(RestoreKeys(Entries(b), recs), snap) ==> k in Drained(now, snap)
    {
      StageHas(b, b', e.op, Some(e.seqno), recs, snap, k);
    }
  }

  lemma StageFlightHeld(
    flight: Flight, log: seq<Stmt>, e: Stmt, spans: seq<Span>, flushed: seq<Gen>, liveLo: nat, frozen: nat)
    requires FlightHeld(flight, log, spans, flushed, liveLo, frozen) && liveLo <= frozen < e.seqno
    ensures FlightHeld(flight, log + [e], spans, flushed, liveLo, frozen)
  {}

  lemma StageWaitHeld(s: State, op: Op, q: nat)
    requires q in s.waiting && q > s.frozen && !s.waiting[q].shadowed && q < s.tail.nextSeq && !PkChanged(s.buf, s.pk)
    requires WaitsHeld(s.waiting, s.log, Entries(s.buf), s.flight, s.liveLo, s.frozen)
    requires WaitOk(q, s.waiting[q], s.buf, s.flight, s.liveLo, s.frozen, s.base, s.log, s.failed)
    requires OpsBelow(SnapKeyed(s.flight), NextStamp(s.buf))
    ensures Keeps(Minus(s.log + [Stmt(s.tail.nextSeq, op)], {q}),
                  RestoreKeys(Entries(DoStage(s, op).buf), s.waiting[q].routed.keyed), s.flight, s.liveLo, s.frozen)
  {
    var e := Stmt(s.tail.nextSeq, op);
    MinusSnoc(s.log, e, {q});
    StageKeeps(s.buf, s.pk, Minus(s.log, {q}), e, s.waiting[q].routed.keyed, s.flight, s.liveLo, s.frozen);
  }

  lemma StageOwnHeld(s: State, op: Op)
    requires Inv(s) && Held(s) && !PkChanged(s.buf, s.pk) && Allowed(s.keyedTable, Logical(s), op)
    ensures var q, s' := s.tail.nextSeq, DoStage(s, op);
            Keeps(Minus(s'.log, {q}), RestoreKeys(Entries(s'.buf), s'.waiting[q].routed.keyed), s'.flight, s'.liveLo, s'.frozen)
  {
    var q := s.tail.nextSeq;
    StageOwnUndo(s, op);
    MinusSnoc(s.log, Stmt(q, op), {q});
    MinusAbsent(s.log, {q});
  }

  lemma StageWaitsHeld(s: State, op: Op)
    requires WaitsHeld(s.waiting, s.log, Entries(s.buf), s.flight, s.liveLo, s.frozen) && !PkChanged(s.buf, s.pk)
    requires WaitsOk(s.waiting, s.buf, s.flight, s.liveLo, s.frozen, s.base, s.log, s.failed)
    requires OpsBelow(SnapKeyed(s.flight), NextStamp(s.buf)) && forall e :: e in s.log ==> e.seqno < s.tail.nextSeq
    requires var q, s' := s.tail.nextSeq, DoStage(s, op);
             Keeps(Minus(s'.log, {q}), RestoreKeys(Entries(s'.buf), s'.waiting[q].routed.keyed), s.flight, s.liveLo, s.frozen)
    ensures var s' := DoStage(s, op); WaitsHeld(s'.waiting, s'.log, Entries(s'.buf), s.flight, s.liveLo, s.frozen)
  {
    var s' := DoStage(s, op);
    forall q | q in s'.waiting && q > s.frozen && !s'.waiting[q].shadowed
      ensures Keeps(Minus(s'.log, {q}), RestoreKeys(Entries(s'.buf), s'.waiting[q].routed.keyed), s.flight, s.liveLo, s.frozen)
    {
      if q != s.tail.nextSeq {
        Unshadowed(s.waiting, SpoiltByStage(s, op), q);
        assert WaitOk(q, s.waiting[q], s.buf, s.flight, s.liveLo, s.frozen, s.base, s.log, s.failed);
        StageWaitHeld(s, op, q);
      }
    }
  }

  lemma StageHeld(s: State, op: Op)
    requires Inv(s) && Held(s) && !PkChanged(s.buf, s.pk) && Allowed(s.keyedTable, Logical(s), op)
    ensures Held(DoStage(s, op))
  {
    var e := Stmt(s.tail.nextSeq, op);
    SnapStamps(s);
    StmtFacts(s.buf, s.pk, op, Some(s.tail.nextSeq), None);
    StageKeeps(s.buf, s.pk, s.log, e, [], s.flight, s.liveLo, s.frozen);
    StageFlightHeld(s.flight, s.log, e, s.spans, s.buf.flushed, s.liveLo, s.frozen);
    StageOwnHeld(s, op);
    StageWaitsHeld(s, op);
    HeldIntro(DoStage(s, op), Entries(DoStage(s, op).buf));
  }

  // ---- a failed wait ----------------------------------------------------------------------------------------

  lemma FewerKeeps(
    log: seq<Stmt>, log': seq<Stmt>, entries: map<Key, Entry>, flight: Flight, flight': Flight, liveLo: nat,
    frozen: nat)
    requires Keeps(log, entries, flight, liveLo, frozen) && liveLo <= frozen
    requires FlightLoosens(flight, flight') && forall e :: e in log' ==> e in log
    ensures Keeps(log', entries, flight', liveLo, frozen)
  {}

  /** A key that each of two undos leaves, both leave when they share no key. */
  lemma TwiceHas(
    entries: map<Key, Entry>, gone: seq<RoutedKey>, recs: seq<RoutedKey>, keys: set<Key>, snap: map<Key, Entry>,
    k: Key)
    requires forall i :: 0 <= i < |gone| ==> gone[i].key in keys
    requires forall i :: 0 <= i < |recs| ==> recs[i].key !in keys
    ensures var one, two := RestoreKeys(entries, gone), RestoreKeys(entries, recs);
            var both := RestoreKeys(one, recs);
            && (k in one && k in two ==> k in both)
            && (k in Drained(one, snap) && k in Drained(two, snap) ==> k in Drained(both, snap))
  {
    if k in keys {
      RestoreFrame(RestoreKeys(entries, gone), recs, k);
    } else {
      RestoreFrame(entries, gone, k);
      RestoreLocal(RestoreKeys(entries, gone), entries, recs, k);
    }
  }

  lemma TwiceKeeps(
    log: seq<Stmt>, entries: map<Key, Entry>, q: nat, gone: seq<RoutedKey>, p: nat, recs: seq<RoutedKey>, keys: set<Key>,
    flight: Flight, liveLo: nat, frozen: nat)
    requires forall i :: 0 <= i < |gone| ==> gone[i].key in keys
    requires forall i :: 0 <= i < |recs| ==> recs[i].key !in keys
    requires Keeps(Minus(log, {q}), RestoreKeys(entries, gone), flight, liveLo, frozen)
    requires Keeps(Minus(log, {p}), RestoreKeys(entries, recs), flight, liveLo, frozen)
    ensures Keeps(Minus(Minus(log, {q}), {p}), RestoreKeys(RestoreKeys(entries, gone), recs), flight, liveLo, frozen)
  {
    forall e | e in Minus(Minus(log, {q}), {p}) ensures e in Minus(log, {q}) && e in Minus(log, {p}) {
      MinusIn(Minus(log, {q}), {p}, e);
      MinusIn(log, {q}, e);
      MinusIn(log, {p}, e);
    }
    forall k
      ensures var one, two := RestoreKeys(entries, gone), RestoreKeys(entries, recs);
              var both, snap := RestoreKeys(one, recs), SnapKeyed(flight);
              && (k in one && k in two ==> k in both)
              && (k in Drained(one, snap) && k in Drained(two, snap) ==> k in Drained(both, snap))
    {
      TwiceHas(entries, gone, recs, keys, SnapKeyed(flight), k);
    }
  }

  lemma FailFlightHeld(
    flight: Flight, log: seq<Stmt>, log': seq<Stmt>, spans: seq<Span>, flushed: seq<Gen>, liveLo: nat, frozen: nat)
    requires FlightHeld(flight, log, spans, flushed, liveLo, frozen) && forall e :: e in log' ==> e in log
    ensures FlightHeld(flight, log', spans, flushed, liveLo, frozen)
  {}

  lemma UndoneWaitHeld(s: State, sq: nat, p: nat)
    requires WaitInv(s) && Held(s) && s.keyedTable && sq in s.waiting && p in s.waiting && p != sq
    requires sq > s.frozen && !s.waiting[sq].shadowed && p > s.frozen
    requires !Shadow(s.waiting - {sq}, SpoiltByUndo(true, s.waiting, OpKeys(s.waiting[sq].op)))[p].shadowed
    ensures Keeps(Minus(Minus(s.log, {sq}), {p}),
                  RestoreKeys(RestoreKeys(Entries(s.buf), s.waiting[sq].routed.keyed), s.waiting[p].routed.keyed),
                  s.flight, s.liveLo, s.frozen)
  {
    var w, v := s.waiting[sq], s.waiting[p];
    Unshadowed(s.waiting - {sq}, SpoiltByUndo(true, s.waiting, OpKeys(w.op)), p);
    Unmet(true, s.waiting, OpKeys(w.op), p);
    assert WaitOk(sq, w, s.buf, s.flight, s.liveLo, s.frozen, s.base, s.log, s.failed);
    assert WaitOk(p, v, s.buf, s.flight, s.liveLo, s.frozen, s.base, s.log, s.failed);
    TwiceKeeps(s.log, Entries(s.buf), sq, w.routed.keyed, p, v.routed.keyed, OpKeys(w.op), s.flight, s.liveLo, s.frozen);
  }

  lemma UndoneHeld(s: State, sq: nat)
    requires Inv(s) && Held(s) && s.keyedTable && sq in s.waiting && sq > s.frozen && !s.waiting[sq].shadowed
    ensures Held(FailedUndone(s, sq, s.waiting[sq]))
  {
    var w := s.waiting[sq];
    var s' := FailedUndone(s, sq, w);
    UndoEntries(s.buf, w.routed);
    assert Entries(s'.buf) == RestoreKeys(Entries(s.buf), w.routed.keyed);
    forall e | e in s'.log ensures e in s.log { MinusIn(s.log, {sq}, e); }
    FailFlightHeld(s.flight, s.log, s'.log, s.spans, s.buf.flushed, s.liveLo, s.frozen);
    forall p | p in s'.waiting && p > s'.frozen && !s'.waiting[p].shadowed
      ensures Keeps(Minus(s'.log, {p}), RestoreKeys(Entries(s'.buf), s'.waiting[p].routed.keyed), s'.flight, s'.liveLo, s'.frozen)
    {
      UndoneWaitHeld(s, sq, p);
    }
  }

  lemma FailHeld(s: State, sq: nat)
    requires Inv(s) && Held(s) && s.keyedTable && sq in s.waiting
    requires Claimed(s.buf, s.waiting[sq].routed) || !s.waiting[sq].shadowed
    ensures Held(DoFail(s, sq))
  {
    if Claimed(s.buf, s.waiting[sq].routed) {
      SameHeld(s, FailedClaimed(s, sq));
    } else {
      assert WaitOk(sq, s.waiting[sq], s.buf, s.flight, s.liveLo, s.frozen, s.base, s.log, s.failed);
      if sq <= s.frozen { WhollyClaimedIsClaimed(s.buf, s.waiting[sq].routed); }
      UndoneHeld(s, sq);
    }
  }

  // ---- the steps that leave log, map and marks alone --------------------------------------------------------

  ghost predicate SameGround(s: State, s': State) {
    && s'.log == s.log && Entries(s'.buf) == Entries(s.buf) && s'.liveLo == s.liveLo && s'.frozen == s.frozen
    && s.liveLo <= s.frozen && FlightLoosens(s.flight, s'.flight)
    && forall q :: q in s'.waiting ==> q in s.waiting && s'.waiting[q] == s.waiting[q]
  }

  lemma SameHeld(s: State, s': State)
    requires Held(s) && SameGround(s, s')
    requires FlightHeld(s'.flight, s.log, s'.spans, s'.buf.flushed, s.liveLo, s.frozen)
    ensures Held(s')
  {
    FewerKeeps(s.log, s.log, Entries(s.buf), s.flight, s'.flight, s.liveLo, s.frozen);
    forall q | q in s'.waiting && q > s'.frozen && !s'.waiting[q].shadowed
      ensures Keeps(Minus(s'.log, {q}), RestoreKeys(Entries(s'.buf), s'.waiting[q].routed.keyed), s'.flight, s'.liveLo, s'.frozen)
    {
      FewerKeeps(Minus(s.log, {q}), Minus(s.log, {q}), RestoreKeys(Entries(s.buf), s.waiting[q].routed.keyed),
                 s.flight, s'.flight, s.liveLo, s.frozen);
    }
  }

  /** Only the flusher's own variables and what no layer depends on change. */
  lemma SettleHeld(s: State, s': State)
    requires Held(s) && SameGround(s, s') && !s'.flight.Snapped? && !s'.flight.Loaded? && !s'.flight.Posted?
    ensures Held(s')
  {
    SameHeld(s, s');
  }

  lemma SameFlightHeld(s: State, s': State)
    requires Held(s) && SameGround(s, s') && s'.flight == s.flight && s'.spans == s.spans
    requires SameGens(s.buf.flushed, s'.buf.flushed)
    ensures Held(s')
  {
    SameHeld(s, s');
  }

  lemma MarksInOrder(s: State)
    requires Inv(s)
    ensures s.liveLo <= s.frozen
  {}

  lemma AckHeld(s: State, sq: nat)
    requires Held(s) && s.liveLo <= s.frozen
    ensures Held(DoAck(s, sq))
  {
    assert Entries(DoAck(s, sq).buf) == Entries(s.buf);
    SameFlightHeld(s, DoAck(s, sq));
  }

  lemma LoadHeld(s: State)
    requires Held(s) && s.liveLo <= s.frozen && s.flight.Snapped? && |s.hist| > 0
    ensures Held(DoLoad(s))
  {
    assert Entries(DoLoad(s).buf) == Entries(s.buf);
    SameHeld(s, DoLoad(s));
  }

  lemma LandHeld(s: State)
    requires Held(s) && s.liveLo <= s.frozen && s.flight.Posted?
    ensures Held(DoLand(s))
  {
    SameHeld(s, DoLand(s));
  }

  lemma OverlayHeld(s: State, x: Scan)
    requires Held(s) && s.liveLo <= s.frozen
    ensures Held(DoOverlay(s, x))
  {
    ObserveSame(s.buf.flushed, Seen(s.hist, x.version));
    assert Entries(DoOverlay(s, x).buf) == Entries(s.buf);
    SameFlightHeld(s, DoOverlay(s, x));
  }

  lemma CollectHeld(s: State)
    requires Held(s) && s.liveLo <= s.frozen && s.flight.Idle?
    ensures Held(DoCollect(s))
  {
    assert Entries(DoCollect(s).buf) == Entries(s.buf);
    SettleHeld(s, DoCollect(s));
  }

  lemma QuietHeld(s: State, step: Step)
    requires Held(s) && s.liveLo <= s.frozen && Can(s, step) && (step.Ack? || step.FlushLoad? || step.Land? || step.Committed?)
    ensures Held(Do(s, step))
  {
    match step
    case Ack(sq) => AckHeld(s, sq);
    case FlushLoad => LoadHeld(s);
    case Land => LandHeld(s);
    case Committed => SettleHeld(s, s.(flight := Settling(s.flight.mark)));
  }

  lemma TailHeld(s: State, step: Step)
    requires Held(s) && s.liveLo <= s.frozen && Can(s, step) && (step.RecordWatermark? || step.Truncate?)
    ensures Held(Do(s, step))
  {
    match step
    case RecordWatermark(ok) =>
      RecordCan(s, ok);
      SettleHeld(s, DoRecord(s, ok));
    case Truncate(removed) =>
      TruncateCan(s, removed);
      SettleHeld(s, DoTruncate(s, removed));
  }

  lemma ScansHeld(s: State, step: Step)
    requires Held(s) && s.liveLo <= s.frozen && Can(s, step) && OfScans(step)
    ensures Held(Do(s, step))
  {
    match step
    case BeginScan(v) => SameFlightHeld(s, s.(scans := s.scans + multiset{Scan(v, s.clock)}));
    case TakeOverlay(x) => OverlayHeld(s, x);
    case Collect => CollectHeld(s);
  }

  lemma RestHeld(s: State, step: Step)
    requires Held(s) && s.liveLo <= s.frozen && Can(s, step) && (step.ForeignCommit? || step.Tick?)
    ensures Held(Do(s, step))
  {
    if step.Tick? {
      SameFlightHeld(s, s.(clock := s.clock + step.d));
    } else {
      SameFlightHeld(s, DoForeign(s));
    }
  }

  // ---- the flusher ------------------------------------------------------------------------------------------

  lemma SnapshotHeld(s: State)
    requires Inv(s) && Held(s) && (s.buf.pending != [] || Entries(s.buf) != map[])
    ensures Held(DoSnapshot(s))
  {
    SnapshotMark(s);
    var s' := DoSnapshot(s);
    assert Entries(s'.buf) == Entries(s.buf) && forall e :: e in s.log ==> e.seqno <= s'.frozen;
    forall q | q in s'.waiting ensures q <= s'.frozen {
      assert WaitOk(q, s.waiting[q], s.buf, s.flight, s.liveLo, s.frozen, s.base, s.log, s.failed);
    }
  }

  /** A drain takes out exactly what the undo leaves of the snapshot. */
  lemma DrainHas(entries: map<Key, Entry>, recs: seq<RoutedKey>, snap: map<Key, Entry>, k: Key, below: nat)
    requires SnapKept(entries, snap) && SnapKept(RestoreKeys(entries, recs), snap)
    requires OpsBelow(snap, below) && forall j :: 0 <= j < |recs| ==> recs[j].stamp >= below
    requires k in Drained(RestoreKeys(entries, recs), snap)
    ensures k in RestoreKeys(Drained(entries, snap), recs)
  {
    RestoreDrained(entries, recs, snap, k, below);
  }

  lemma DrainKeeps(
    log: seq<Stmt>, entries: map<Key, Entry>, recs: seq<RoutedKey>, snap: map<Key, Entry>, below: nat,
    flight: Flight, flight': Flight, liveLo: nat, frozen: nat)
    requires Keeps(log, RestoreKeys(entries, recs), flight, liveLo, frozen) && SnapKeyed(flight) == snap && SnapKeyed(flight') == map[]
    requires SnapKept(entries, snap) && SnapKept(RestoreKeys(entries, recs), snap)
    requires OpsBelow(snap, below) && forall j :: 0 <= j < |recs| ==> recs[j].stamp >= below
    ensures Keeps(log, RestoreKeys(Drained(entries, snap), recs), flight', frozen, frozen)
  {
    var now := RestoreKeys(Drained(entries, snap), recs);
    forall k | k in Drained(RestoreKeys(entries, recs), snap) ensures k in now { DrainHas(entries, recs, snap, k, below); }
    DrainedNothing(now);
  }

  lemma DrainFlightHeld(s: State, s': State)
    requires FlightHeld(s.flight, s.log, s.spans, s.buf.flushed, s.liveLo, s.frozen) && DrainsTo(s, s')
    requires s'.flight.Posted? ==>
               && |s'.spans| > 0 && s'.spans[|s'.spans| - 1].lo == s.liveLo
               && |s'.buf.flushed| > 0 && s'.buf.flushed[|s'.buf.flushed| - 1].keyed == s.flight.snap.keyed
    ensures FlightHeld(s'.flight, s'.log, s'.spans, s'.buf.flushed, s'.liveLo, s'.frozen)
  {}

  lemma DrainWaitHeld(s: State, s': State, q: nat)
    requires DrainsTo(s, s') && SnapKept(Entries(s.buf), s.flight.snap.keyed)
    requires WaitsHeld(s.waiting, s.log, Entries(s.buf), s.flight, s.liveLo, s.frozen)
    requires q in s.waiting && q > s.frozen && !s.waiting[q].shadowed
    requires WaitOk(q, s.waiting[q], s.buf, s.flight, s.liveLo, s.frozen, s.base, s.log, s.failed)
    ensures Keeps(Minus(s.log, {q}), RestoreKeys(Drained(Entries(s.buf), s.flight.snap.keyed), s.waiting[q].routed.keyed),
                  s'.flight, s.frozen, s.frozen)
  {
    var recs := s.waiting[q].routed.keyed;
    DrainKeeps(Minus(s.log, {q}), Entries(s.buf), recs, s.flight.snap.keyed, ClaimedBelow(s.buf),
               s.flight, s'.flight, s.liveLo, s.frozen);
  }

  lemma DrainHeld(s: State, s': State)
    requires SnapKept(Entries(s.buf), SnapKeyed(s.flight)) && Held(s) && DrainsTo(s, s')
    requires WaitsOk(s.waiting, s.buf, s.flight, s.liveLo, s.frozen, s.base, s.log, s.failed)
    requires FlightHeld(s'.flight, s'.log, s'.spans, s'.buf.flushed, s'.liveLo, s'.frozen)
    ensures Held(s')
  {
    DrainedShape(s, s');
    DrainWaitsHeld(s, s');
    DrainedNothing(Drained(Entries(s.buf), s.flight.snap.keyed));
  }

  lemma DrainedShape(s: State, s': State)
    requires DrainsTo(s, s')
    ensures Entries(s'.buf) == Drained(Entries(s.buf), s.flight.snap.keyed) && SnapKeyed(s'.flight) == map[]
  {
    DropPrefixShape(s.buf, s.flight.snap.n, s.flight.snap.keyed);
  }

  lemma DrainWaitsHeld(s: State, s': State)
    requires DrainsTo(s, s') && SnapKept(Entries(s.buf), s.flight.snap.keyed)
    requires WaitsOk(s.waiting, s.buf, s.flight, s.liveLo, s.frozen, s.base, s.log, s.failed)
    requires WaitsHeld(s.waiting, s.log, Entries(s.buf), s.flight, s.liveLo, s.frozen)
    ensures WaitsHeld(s'.waiting, s'.log, Drained(Entries(s.buf), s.flight.snap.keyed), s'.flight, s'.liveLo, s'.frozen)
  {
    forall q | q in s.waiting && q > s.frozen && !s.waiting[q].shadowed
      ensures Keeps(Minus(s.log, {q}), RestoreKeys(Drained(Entries(s.buf), s.flight.snap.keyed), s.waiting[q].routed.keyed),
                    s'.flight, s.frozen, s.frozen)
    {
      assert WaitOk(q, s.waiting[q], s.buf, s.flight, s.liveLo, s.frozen, s.base, s.log, s.failed);
      DrainWaitHeld(s, s', q);
    }
  }

  lemma ParkHeld(s: State)
    requires Inv(s) && Held(s) && s.flight.Loaded? && s.flight.snap.n <= |s.buf.pending|
    ensures Held(DoPark(s))
  {
    ParkShape(s);
    SnapKeptNow(s);
    DrainFlightHeld(s, DoPark(s));
    DrainHeld(s, DoPark(s));
  }

  lemma DropHeld(s: State)
    requires Inv(s) && Held(s) && s.flight.Loaded? && s.flight.snap.n <= |s.buf.pending| && !Doubled(s)
    requires s.flight.base < |s.hist| && NetZero(s.hist[s.flight.base].rows, SnapLayer(s.flight.snap))
    ensures Held(DoDrop(s))
  {
    DropEqual(s);
    DropWindow(s);
    SnapKeptNow(s);
    DrainFlightHeld(s, DoDrop(s));
    DrainHeld(s, DoDrop(s));
  }

  lemma PrepareHeld(s: State)
    requires Inv(s) && Held(s) && s.flight.Loaded? && s.flight.snap.n <= |s.buf.pending| && !Doubled(s)
    requires s.flight.base < |s.hist|
    ensures Held(DoPrepare(s))
  {
    PrepareShape(s);
    SnapKeptNow(s);
    DrainFlightHeld(s, DoPrepare(s));
    DrainHeld(s, DoPrepare(s));
  }

  // ---- a merge-back -----------------------------------------------------------------------------------------

  /** With the generation's entries below, the undo leaves what it left and what the generation owns. */
  lemma BackHas(b: Buf, g: Gen, routed: Routed, k: Key)
    requires !Bares(Entries(b), routed.keyed, g.keyed.Keys) && OpsBelow(g.keyed, ClaimedBelow(b)) && Unclaimed(b, routed)
    requires OlderDisplaced(routed.keyed) && StampsRise(routed.keyed)
    requires k in RestoreKeys(Entries(b), routed.keyed) || k in g.keyed
    ensures k in RestoreKeys(g.keyed + Entries(b), routed.keyed)
  {
    if k in g.keyed {
      OwnedEntry(b, g, routed, k);
    } else {
      RestoreLocal(g.keyed + Entries(b), Entries(b), routed.keyed, k);
    }
  }

  lemma BackKeeps(
    log: seq<Stmt>, was: map<Key, Entry>, now: map<Key, Entry>, keys: set<Key>, flight: Flight, lo: nat,
    liveLo: nat)
    requires HeldAbove(log, liveLo, was.Keys) && HeldBetween(log, lo, liveLo, keys) && SnapKeyed(flight) == map[] && lo <= liveLo
    requires forall k :: k in was || k in keys ==> k in now
    ensures Keeps(log, now, flight, lo, liveLo)
  {
    DrainedNothing(now);
  }

  /** Of a wait the merge-back has not spoilt. */
  lemma BackWaitKeeps(log: seq<Stmt>, b: Buf, g: Gen, q: nat, routed: Routed, flight: Flight, lo: nat, liveLo: nat)
    requires Keeps(Minus(log, {q}), RestoreKeys(Entries(b), routed.keyed), flight, liveLo, liveLo) && lo <= liveLo
    requires HeldBetween(log, lo, liveLo, g.keyed.Keys) && Unclaimed(b, routed) && OpsBelow(g.keyed, ClaimedBelow(b))
    requires !Bares(Entries(b), routed.keyed, g.keyed.Keys) && OlderDisplaced(routed.keyed) && StampsRise(routed.keyed)
    ensures Keeps(Minus(log, {q}), RestoreKeys(g.keyed + Entries(b), routed.keyed), Idle, lo, liveLo)
  {
    var was, now := RestoreKeys(Entries(b), routed.keyed), RestoreKeys(g.keyed + Entries(b), routed.keyed);
    forall k | k in was || k in g.keyed.Keys ensures k in now { BackHas(b, g, routed, k); }
    forall e | e in Minus(log, {q}) ensures e in log { MinusIn(log, {q}, e); }
    BackKeeps(Minus(log, {q}), was, now, g.keyed.Keys, Idle, lo, liveLo);
  }

  lemma BackWaitHeld(s: State, q: nat)
    requires s.flight.Posted? && |s.spans| > 0 && |s.buf.flushed| > 0 && q in s.waiting && q > s.frozen
    requires FlightHeld(s.flight, s.log, s.spans, s.buf.flushed, s.liveLo, s.frozen)
    requires WaitsHeld(s.waiting, s.log, Entries(s.buf), s.flight, s.liveLo, s.frozen)
    requires WaitOk(q, s.waiting[q], s.buf, s.flight, s.liveLo, s.frozen, s.base, s.log, s.failed)
    requires s.spans[|s.spans| - 1].lo < s.liveLo == s.frozen
    requires OpsBelow(s.buf.flushed[|s.buf.flushed| - 1].keyed, ClaimedBelow(s.buf))
    requires !DoMergeBack(s).waiting[q].shadowed
    ensures Keeps(Minus(s.log, {q}), RestoreKeys(s.buf.flushed[|s.buf.flushed| - 1].keyed + Entries(s.buf), s.waiting[q].routed.keyed),
                  Idle, s.spans[|s.spans| - 1].lo, s.liveLo)
  {
    var g := s.buf.flushed[|s.buf.flushed| - 1];
    Unshadowed(s.waiting, SpoiltByBack(Entries(s.buf), s.waiting, g.keyed.Keys), q);
    BackWaitKeeps(s.log, s.buf, g, q, s.waiting[q].routed, s.flight, s.spans[|s.spans| - 1].lo, s.liveLo);
  }

  lemma BackMarks(s: State)
    requires Inv(s) && s.flight.Posted? && |s.spans| > 0
    ensures s.spans[|s.spans| - 1].lo < s.liveLo == s.frozen
  {
    assert s.spans[|s.spans| - 1].lo < s.spans[|s.spans| - 1].hi;
  }

  lemma BackWaitsHeld(s: State)
    requires s.flight.Posted? && |s.spans| > 0 && |s.buf.flushed| > 0
    requires FlightHeld(s.flight, s.log, s.spans, s.buf.flushed, s.liveLo, s.frozen)
    requires WaitsHeld(s.waiting, s.log, Entries(s.buf), s.flight, s.liveLo, s.frozen)
    requires WaitsOk(s.waiting, s.buf, s.flight, s.liveLo, s.frozen, s.base, s.log, s.failed)
    requires s.spans[|s.spans| - 1].lo < s.liveLo == s.frozen
    requires OpsBelow(s.buf.flushed[|s.buf.flushed| - 1].keyed, ClaimedBelow(s.buf))
    ensures WaitsHeld(DoMergeBack(s).waiting, s.log, s.buf.flushed[|s.buf.flushed| - 1].keyed + Entries(s.buf), Idle,
                      s.spans[|s.spans| - 1].lo, s.liveLo)
  {
    var waiting' := DoMergeBack(s).waiting;
    forall q | q in waiting' && q > s.frozen && !waiting'[q].shadowed
      ensures Keeps(Minus(s.log, {q}), RestoreKeys(s.buf.flushed[|s.buf.flushed| - 1].keyed + Entries(s.buf), waiting'[q].routed.keyed),
                    Idle, s.spans[|s.spans| - 1].lo, s.liveLo)
    {
      assert WaitOk(q, s.waiting[q], s.buf, s.flight, s.liveLo, s.frozen, s.base, s.log, s.failed);
      BackWaitHeld(s, q);
    }
  }

  lemma BackHeld(s: State)
    requires Inv(s) && Held(s) && s.flight.Posted? && MergeBackOk(s) && |s.spans| > 0
    ensures Held(DoMergeBack(s))
  {
    var s', g := DoMergeBack(s), s.buf.flushed[|s.buf.flushed| - 1];
    BackShape(s);
    BackMarks(s);
    MoveBackShape(s.buf, s.flight.next.id);
    BackKeeps(s.log, Entries(s.buf), g.keyed + Entries(s.buf), g.keyed.Keys, Idle, s'.liveLo, s.liveLo);
    BackWaitsHeld(s);
    HeldIntro(s', g.keyed + Entries(s.buf));
  }

  // ---- a crash ----------------------------------------------------------------------------------------------

  /** Replay routes every keyed operation, and no routing takes a key out of the map. */
  lemma {:induction false} ReplayHolds(pk: seq<string>, frames: seq<Stmt>, lo: nat)
    ensures HeldAbove(frames, lo, Entries(Replay(pk, frames)).Keys)
  {
    if |frames| > 0 {
      var init, e := frames[..|frames| - 1], frames[|frames| - 1];
      var b := Replay(pk, init);
      ReplayHolds(pk, init, lo);
      assert frames == init + [e];
      StmtFacts(b, pk, e.op, None, Some(e.seqno));
      if !e.op.Insert? {
        forall k | k in OpKeys(e.op) ensures k in Entries(Replay(pk, frames)) { OwnHas(b, pk, e.op, None, Some(e.seqno), k); }
      }
    }
  }

  lemma CrashKeys(s: State, lost: set<nat>)
    requires |s.hist| > 0 && Sorted(s.log) && TailOk(s.tail, s.hist[LastIdx(s)].wm, s.log, s.failed)
    ensures HeldAbove(DoCrash(s, lost).log, EffectiveWatermark(s), Entries(Replay(s.pk, Survivors(s, lost))).Keys)
  {
    var w, log' := EffectiveWatermark(s), DoCrash(s, lost).log;
    CrashCut(s, lost);
    ReplayHolds(s.pk, Survivors(s, lost), w);
    forall e | e in log' && e.seqno > w ensures e in Survivors(s, lost) { AboveIn(log', w, e); }
  }

  lemma BootEntries(pk: seq<string>, survivors: seq<Stmt>)
    ensures Entries(Boot(pk, survivors)) == Entries(Replay(pk, survivors))
  {}

  lemma CrashHeld(s: State, lost: set<nat>)
    requires |s.hist| > 0 && Sorted(s.log) && TailOk(s.tail, s.hist[LastIdx(s)].wm, s.log, s.failed)
    ensures Held(DoCrash(s, lost))
  {
    CrashKeys(s, lost);
    BootEntries(s.pk, Survivors(s, lost));
    FreshHeld(DoCrash(s, lost), Entries(Replay(s.pk, Survivors(s, lost))));
  }

  /** Nothing waits and nothing is in flight. */
  lemma FreshHeld(s: State, entries: map<Key, Entry>)
    requires Entries(s.buf) == entries && HeldAbove(s.log, s.liveLo, entries.Keys) && s.liveLo == s.frozen
    requires s.waiting == map[] && (s.flight.Idle? || s.flight.Settling?)
    ensures Held(s)
  {
    DrainedNothing(entries);
  }

  // ---- every reachable state --------------------------------------------------------------------------------

  lemma ErroredHeld(s: State, reload: bool)
    requires Inv(s) && Held(s) && s.flight.Posted? && |s.spans| > 0
    requires !(reload && s.hist[LastIdx(s)].wm >= s.flight.mark) ==> MergeBackOk(s)
    ensures Held(if reload && s.hist[LastIdx(s)].wm >= s.flight.mark then s.(flight := Settling(s.flight.mark))
                 else DoMergeBack(s))
  {
    if reload && s.hist[LastIdx(s)].wm >= s.flight.mark {
      MarksInOrder(s);
      SettleHeld(s, s.(flight := Settling(s.flight.mark)));
    } else {
      BackHeld(s);
    }
  }

  lemma PostErrorHeld(s: State, reload: bool)
    requires Inv(s) && Held(s) && Can(s, PostError(reload))
    ensures Held(Do(s, PostError(reload)))
  {
    PostErrorCan(s, reload);
    ErroredHeld(s, reload);
  }

  lemma RejectHeld(s: State)
    requires Inv(s) && Held(s) && Can(s, Reject)
    ensures Held(Do(s, Reject))
  {
    RejectCan(s);
    BackHeld(s);
  }

  lemma CrashStepHeld(s: State, lost: set<nat>)
    requires Inv(s) && Can(s, Crash(lost))
    ensures Held(Do(s, Crash(lost)))
  {
    CrashParts(s, lost);
    CrashHeld(s, lost);
  }

  lemma MovesHeld(s: State, step: Step)
    requires Inv(s) && Held(s) && Can(s, step) && s.keyedTable
    requires step.StageStmt? || step.FailWait? || step.FlushSnapshot?
    ensures Held(Do(s, step))
  {
    match step
    case StageStmt(op) => StageHeld(s, op);
    case FailWait(sq) => FailHeld(s, sq);
    case FlushSnapshot => SnapshotHeld(s);
  }

  lemma DrainsHeld(s: State, step: Step)
    requires Inv(s) && Held(s) && Can(s, step) && (step.ParkCovered? || step.DropNetZero? || step.Prepare?)
    ensures Held(Do(s, step))
  {
    match step
    case ParkCovered =>
      ParkCan(s);
      ParkHeld(s);
    case DropNetZero =>
      DropCan(s);
      DropHeld(s);
    case Prepare =>
      PrepareCan(s);
      PrepareHeld(s);
  }

  lemma WindowHeld(s: State, step: Step)
    requires Inv(s) && Held(s) && Can(s, step) && s.keyedTable
    requires MovesWindow(step) || step.FailWait? || step.Reject? || step.PostError? || step.Crash?
    ensures Held(Do(s, step))
  {
    if step.ParkCovered? || step.DropNetZero? || step.Prepare? {
      DrainsHeld(s, step);
    } else if step.Reject? {
      RejectHeld(s);
    } else if step.PostError? {
      PostErrorHeld(s, step.reload);
    } else if step.Crash? {
      CrashStepHeld(s, step.lost);
    } else {
      MovesHeld(s, step);
    }
  }

  lemma GroundHeld(s: State, step: Step)
    requires Held(s) && s.liveLo <= s.frozen && Can(s, step)
    requires !(MovesWindow(step) || step.FailWait? || step.Reject? || step.PostError? || step.Crash?)
    ensures Held(Do(s, step))
  {
    if step.RecordWatermark? || step.Truncate? {
      TailHeld(s, step);
    } else if OfScans(step) {
      ScansHeld(s, step);
    } else if step.ForeignCommit? || step.Tick? {
      RestHeld(s, step);
    } else {
      QuietHeld(s, step);
    }
  }

  lemma PlainStep(s: State, step: Step)
    requires Inv(s) && Can(s, step) && !s.keyedTable
    ensures Held(Do(s, step))
  {
    StepInv(s, step);
    SameTableKind(s, step);
    PlainHeld(Do(s, step));
  }

  lemma SameTableKind(s: State, step: Step)
    requires Can(s, step)
    ensures Do(s, step).keyedTable == s.keyedTable
  {}

  /** Every step keeps the keys of logged keyed operations where a flush or an undo finds them. */
  lemma HeldStep(s: State, step: Step)
    requires Inv(s) && Held(s) && Can(s, step)
    ensures Held(Do(s, step))
  {
    if !s.keyedTable {
      PlainStep(s, step);
    } else if MovesWindow(step) || step.FailWait? || step.Reject? || step.PostError? || step.Crash? {
      WindowHeld(s, step);
    } else {
      MarksInOrder(s);
      GroundHeld(s, step);
    }
  }

  lemma HeldNext(s: State, step: Step, s': State)
    requires Inv(s) && Held(s) && Next(s, step, s')
    ensures Held(s')
  {
    HeldStep(s, step);
  }

  lemma HeldAlong(trace: seq<State>, steps: seq<Step>, i: nat)
    requires Run(trace, steps) && i < |steps| && Held(trace[i])
    ensures Held(trace[i + 1])
  {
    RunInv(trace, steps, i);
    HeldNext(trace[i], steps[i], trace[i + 1]);
  }

  lemma {:induction false} RunHeld(trace: seq<State>, steps: seq<Step>, i: nat)
    requires Run(trace, steps) && i < |trace|
    ensures Held(trace[i])
  {
    if i > 0 {
      RunHeld(trace, steps, i - 1);
      HeldAlong(trace, steps, i - 1);
    }
  }
}
