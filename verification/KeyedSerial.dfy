/** Keyed read-modify-writes under the table's serial lock, on the engine: inserts, their failed waits,
    flushes, crashes and scans go on beside them. */
module KeyedSerial {
  import opened Rows
  import opened Window
  import opened Layers
  import opened Log
  import Engine
  import Invariants
  import Refinement
  import StageSteps
  import Hypotheses
  import opened Paths

  /** Who holds the lock, and how far it got: the row read, or the frame whose wait is on. */
  datatype Holder = Free | Locked | HasRead(key: Key, row: Row) | Waiting(sq: nat)

  datatype State = State(engine: Engine.State, holder: Holder)

  datatype Step =
    | Lock
    | ReadLive(key: Key, row: Row)
    | ReadView(v: nat, key: Key, row: Row)
    | StageRow(kind: Kind)
    | Unlock
    | Beside(step: Engine.Step)

  /** The row is the key's one row. */
  ghost predicate HoldsOnly(t: Table, key: Key, row: Row) {
    forall r: Row :: r.key == key ==> t[r] == if r == row then 1 else 0
  }

  /** When the code takes a step. The row is read from the live map if the key is there, else through
      the union view of some metadata; the lock is held until the frame's wait is over; keyed statements
      are staged under the lock only. */
  ghost predicate Enabled(s: State, step: Step) {
    match step
    case Lock => s.holder.Free?
    case ReadLive(key, row) =>
      && s.holder.Locked? && row.key == key && key in Entries(s.engine.buf)
      && Entries(s.engine.buf)[key].kind == Upsert(row.val)
    case ReadView(v, key, row) =>
      && s.holder.Locked? && row.key == key && key !in Entries(s.engine.buf)
      && v < |s.engine.hist| && HoldsOnly(Engine.ScanResult(s.engine, v), key, row)
    case StageRow(kind) => s.holder.HasRead? && Engine.Enabled(s.engine, Engine.StageStmt(KindOp(s.holder.key, kind)))
    case Unlock => s.holder.Locked? || s.holder.HasRead? || (s.holder.Waiting? && s.holder.sq !in s.engine.waiting)
    case Beside(step) => Engine.Enabled(s.engine, step) && (step.StageStmt? ==> step.op.Insert?)
  }

  ghost function Do(s: State, step: Step): State
    requires Enabled(s, step)
  {
    match step
    case Lock => s.(holder := Locked)
    case ReadLive(key, row) => s.(holder := HasRead(key, row))
    case ReadView(_, key, row) => s.(holder := HasRead(key, row))
    case StageRow(kind) =>
      State(Engine.Do(s.engine, Engine.StageStmt(KindOp(s.holder.key, kind))), Waiting(s.engine.tail.nextSeq))
    case Unlock => s.(holder := Free)
    case Beside(step) => State(Engine.Do(s.engine, step), if step.Crash? then Free else s.holder)
  }

  /** A keyed operation on the key follows statement `sq` in the log. */
  ghost predicate KeyedAfter(log: seq<Stmt>, sq: nat, key: Key) {
    exists e :: e in log && e.seqno > sq && !e.op.Insert? && key in OpKeys(e.op)
  }

  /** The failing wait leaves the row just read where it was. */
  ghost predicate SparesRead(s: State, sq: nat)
    requires sq in s.engine.waiting
  {
    s.holder.HasRead? && !Claimed(s.engine.buf, s.engine.waiting[sq].routed) ==>
      s.holder.key !in OpKeys(s.engine.waiting[sq].op) || KeyedAfter(s.engine.log, sq, s.holder.key)
  }

  /** The engine's hypotheses; the view read is one a scan may be served; and no INSERT of the key fails
      unclaimed between the read and the frame, unless a keyed operation on the key has followed it. */
  ghost predicate Assumed(s: State, step: Step)
    requires Enabled(s, step)
  {
    match step
    case ReadView(v, _, _) =>
      Invariants.Servable(s.engine.hist, s.engine.served, s.engine.scans, v) && !Engine.Doubled(s.engine)
    case StageRow(kind) => Engine.Assumed(s.engine, Engine.StageStmt(KindOp(s.holder.key, kind)))
    case Beside(step) => Engine.Assumed(s.engine, step) && (step.FailWait? ==> SparesRead(s, step.sq))
    case _ => true
  }

  /** Between statements only inserts wait; the row read is the key's row. */
  ghost predicate Inv(s: State) {
    && Invariants.Inv(s.engine) && s.engine.keyedTable
    && (forall q :: q in s.engine.waiting && !s.engine.waiting[q].op.Insert? ==> s.holder == Waiting(q))
    && (s.holder.HasRead? ==> s.holder.row.key == s.holder.key
                              && HoldsOnly(Engine.Logical(s.engine), s.holder.key, s.holder.row))
  }

  // ---- the two ways to read ------------------------------------------------------------------------------

  /** The live-map shortcut reads what every union view reads, whether or not a snapshot has taken the
      entry. */
  lemma ShortcutIsView(s: Engine.State, v: nat, key: Key, row: Row)
    requires v < |s.hist| && key in Entries(s.buf) && row.key == key
    ensures Entries(s.buf)[key].kind == Upsert(row.val) <==> HoldsOnly(Engine.ScanResult(s, v), key, row)
  {
    forall r: Row | r.key == key
      ensures Engine.ScanResult(s, v)[r] == if Entries(s.buf)[key].kind == Upsert(r.val) then 1 else 0
    {
      ShortcutAgreesWithUnion(s.hist[v].rows, s.buf, Engine.Seen(s.hist, v), r);
    }
    if HoldsOnly(Engine.ScanResult(s, v), key, row) { assert Engine.ScanResult(s, v)[row] == 1; }
  }

  lemma LiveIsLogical(s: Engine.State, key: Key, row: Row)
    requires Invariants.WindowInv(s) && key in Entries(s.buf) && row.key == key && Entries(s.buf)[key].kind == Upsert(row.val)
    ensures HoldsOnly(Engine.Logical(s), key, row)
  {
    assert Apply(Engine.At(s.base, s.log, s.liveLo), Live(s.buf)) == Engine.Logical(s);
  }

  lemma ViewHolds(s: Engine.State, v: nat, key: Key, row: Row)
    requires Invariants.Inv(s) && Invariants.Servable(s.hist, s.served, s.scans, v) && !Engine.Doubled(s)
    requires HoldsOnly(Engine.ScanResult(s, v), key, row)
    ensures HoldsOnly(Engine.Logical(s), key, row)
  {
    Refinement.NotDoubled(s, v);
    Refinement.ViewIsLogical(s, v);
  }

  // ---- a failed wait beside the read ---------------------------------------------------------------------------

  /** Without a keyed operation behind it, an INSERT is all that its key's rows rest on. */
  lemma {:induction false} RestsOn(t: Table, log: seq<Stmt>, e: Stmt, key: Key)
    requires Sorted(log) && AllAllowed(true, t, log) && e in log && e.op.Insert? && key in OpKeys(e.op)
    requires !KeyedAfter(log, e.seqno, key)
    ensures HasKey(Fold(t, log), key)
    ensures forall r: Row :: r.key == key ==> Fold(t, Minus(log, {e.seqno}))[r] == 0
  {
    var init, last := log[..|log| - 1], log[|log| - 1];
    assert log == init + [last];
    if last == e {
      JustInserted(t, init, e, key);
    } else {
      var i :| 0 <= i < |log| && log[i] == e;
      assert init[i] == e && e.seqno < last.seqno;
      forall x | x in init ensures x in log {}
      RestsOn(t, init, e, key);
      if key in OpKeys(last.op) && last.op.Insert? { NotAgain(Fold(t, init), last.op, key); }
      assert key !in OpKeys(last.op);
      UnnamedLast(t, init, last, e.seqno, key);
    }
  }

  lemma NotAgain(t: Table, op: Op, key: Key)
    requires op.Insert? && Allowed(true, t, op) && key in OpKeys(op)
    ensures !HasKey(t, key)
  {
    var x :| x in Flatten(op.batches) && x.key == key;
    assert !HasKey(t, x.key);
  }

  lemma JustInserted(t: Table, init: seq<Stmt>, e: Stmt, key: Key)
    requires Sorted(init + [e]) && Allowed(true, Fold(t, init), e.op) && e.op.Insert? && key in OpKeys(e.op)
    ensures HasKey(Fold(t, init + [e]), key)
    ensures forall r: Row :: r.key == key ==> Fold(t, Minus(init + [e], {e.seqno}))[r] == 0
  {
    FoldSnoc(t, init, e);
    MinusSnoc(init, e, {e.seqno});
    forall x | x in init ensures x.seqno !in {e.seqno} {
      var i :| 0 <= i < |init| && init[i] == x;
      assert (init + [e])[i] == x && (init + [e])[|init|] == e;
    }
    MinusAbsent(init, {e.seqno});
    var x :| x in Flatten(e.op.batches) && x.key == key;
    assert x in multiset(Flatten(e.op.batches)) && Row(key, x.val) in Fold(t, init + [e]);
    forall r: Row | r.key == key ensures Fold(t, init)[r] == 0 { assert r == Row(x.key, r.val); }
  }

  lemma UnnamedLast(t: Table, init: seq<Stmt>, last: Stmt, sq: nat, key: Key)
    requires HasKey(Fold(t, init), key) && key !in OpKeys(last.op)
    requires forall r: Row :: r.key == key ==> Fold(t, Minus(init, {sq}))[r] == 0
    ensures HasKey(Fold(t, init + [last]), key)
    ensures forall r: Row :: r.key == key ==> Fold(t, Minus(init + [last], {sq}))[r] == 0
  {
    FoldSnoc(t, init, last);
    MinusSnoc(init, last, {sq});
    FoldSnoc(t, Minus(init, {sq}), last);
    var v :| Row(key, v) in Fold(t, init);
    ExecFrame(Fold(t, init), last.op, Row(key, v));
    forall r: Row | r.key == key ensures Fold(t, Minus(init + [last], {sq}))[r] == 0 {
      ExecFrame(Fold(t, Minus(init, {sq})), last.op, r);
    }
  }

  /** A later keyed operation decides the key, whatever came before it. */
  lemma {:induction false} KeyedDecides(t: Table, log: seq<Stmt>, sq: nat, key: Key, r: Row)
    requires Sorted(log) && KeyedAfter(log, sq, key) && r.key == key
    ensures Fold(t, Minus(log, {sq}))[r] == Fold(t, log)[r]
  {
    var e :| e in log && e.seqno > sq && !e.op.Insert? && key in OpKeys(e.op);
    var init, last := log[..|log| - 1], log[|log| - 1];
    var i :| 0 <= i < |log| && log[i] == e;
    assert last.seqno >= e.seqno && log == init + [last];
    if e != last {
      assert init[i] == e && e in init;
      KeyedDecides(t, init, sq, key, r);
    }
    KeyedLast(t, init, last, sq, r);
  }

  lemma KeyedLast(t: Table, init: seq<Stmt>, last: Stmt, sq: nat, r: Row)
    requires last.seqno != sq
    requires Fold(t, Minus(init, {sq}))[r] == Fold(t, init)[r] || (!last.op.Insert? && r.key in OpKeys(last.op))
    ensures Fold(t, Minus(init + [last], {sq}))[r] == Fold(t, init + [last])[r]
  {
    MinusSnoc(init, last, {sq});
    FoldSnoc(t, Minus(init, {sq}), last);
    FoldSnoc(t, init, last);
  }

  /** The row read survives a failed wait exactly when the failed INSERT does not name the key, or a keyed
      operation on the key has followed it. */
  lemma SparesReadIff(s: Engine.State, sq: nat, key: Key, row: Row)
    requires Invariants.LogOk(s.keyedTable, s.base, s.log, s.tail.nextSeq) && s.keyedTable
    requires sq in s.waiting && Stmt(sq, s.waiting[sq].op) in s.log && s.waiting[sq].op.Insert?
    requires row.key == key && HoldsOnly(Engine.Logical(s), key, row)
    ensures HoldsOnly(Fold(s.base, Minus(s.log, {sq})), key, row)
       <==> key !in OpKeys(s.waiting[sq].op) || KeyedAfter(s.log, sq, key)
  {
    var e := Stmt(sq, s.waiting[sq].op);
    if key !in OpKeys(e.op) {
      forall x | x in s.log && x.seqno in {sq} ensures key !in OpKeys(x.op) { StageSteps.OneSeq(s.log, x, e); }
      forall r: Row | r.key == key ensures Fold(s.base, Minus(s.log, {sq}))[r] == Engine.Logical(s)[r] {
        FoldMinusFrame(s.base, s.log, {sq}, r);
      }
    } else if KeyedAfter(s.log, sq, key) {
      forall r: Row | r.key == key ensures Fold(s.base, Minus(s.log, {sq}))[r] == Engine.Logical(s)[r] {
        KeyedDecides(s.base, s.log, sq, key, r);
      }
    } else {
      RestsOn(s.base, s.log, e, key);
      assert Fold(s.base, Minus(s.log, {sq}))[row] == 0;
    }
  }

  // ---- every step keeps the row ------------------------------------------------------------------------------------

  lemma InsertSpares(t: Table, op: Op, key: Key, row: Row)
    requires Allowed(true, t, op) && op.Insert? && row.key == key && HoldsOnly(t, key, row)
    ensures HoldsOnly(Exec(t, op), key, row)
  {
    assert t[row] == 1 && row == Row(key, row.val);
    assert HasKey(t, key);
    if key in OpKeys(op) { NotAgain(t, op, key); }
    forall r: Row | r.key == key ensures Exec(t, op)[r] == t[r] { ExecFrame(t, op, r); }
  }

  lemma StageSpares(s: Engine.State, op: Op, key: Key, row: Row)
    requires Engine.Can(s, Engine.StageStmt(op)) && s.keyedTable && op.Insert? && row.key == key
    requires HoldsOnly(Engine.Logical(s), key, row)
    ensures HoldsOnly(Engine.Logical(Engine.Do(s, Engine.StageStmt(op))), key, row)
  {
    FoldSnoc(s.base, s.log, Stmt(s.tail.nextSeq, op));
    InsertSpares(Engine.Logical(s), op, key, row);
  }

  lemma FailSpares(s: Engine.State, sq: nat, key: Key, row: Row)
    requires Invariants.Inv(s) && Engine.Can(s, Engine.FailWait(sq)) && s.keyedTable && s.waiting[sq].op.Insert?
    requires row.key == key && HoldsOnly(Engine.Logical(s), key, row)
    requires !Claimed(s.buf, s.waiting[sq].routed) ==> key !in OpKeys(s.waiting[sq].op) || KeyedAfter(s.log, sq, key)
    ensures HoldsOnly(Engine.Logical(Engine.DoFail(s, sq)), key, row)
  {
    assert Invariants.WaitOk(sq, s.waiting[sq], s.buf, s.flight, s.liveLo, s.frozen, s.base, s.log, s.failed);
    SparesReadIff(s, sq, key, row);
  }

  lemma BesideSpares(s: Engine.State, step: Engine.Step, key: Key, row: Row)
    requires Invariants.Inv(s) && Engine.Can(s, step) && s.keyedTable && !step.Crash?
    requires step.StageStmt? ==> step.op.Insert?
    requires step.FailWait? ==> s.waiting[step.sq].op.Insert?
    requires step.FailWait? && !Claimed(s.buf, s.waiting[step.sq].routed) ==>
               key !in OpKeys(s.waiting[step.sq].op) || KeyedAfter(s.log, step.sq, key)
    requires row.key == key && HoldsOnly(Engine.Logical(s), key, row)
    ensures HoldsOnly(Engine.Logical(Engine.Do(s, step)), key, row)
  {
    if step.StageStmt? {
      StageSpares(s, step.op, key, row);
    } else if step.FailWait? {
      FailSpares(s, step.sq, key, row);
    } else {
      Refinement.LogStutters(s, step);
    }
  }

  /** Nothing starts to wait but a staged statement. */
  lemma WaitsKept(s: Engine.State, step: Engine.Step)
    requires Engine.Can(s, step)
    ensures Engine.Do(s, step).keyedTable == s.keyedTable
    ensures forall q :: q in Engine.Do(s, step).waiting ==>
      || (q in s.waiting && Engine.Do(s, step).waiting[q].op == s.waiting[q].op)
      || (step.StageStmt? && q == s.tail.nextSeq && Engine.Do(s, step).waiting[q].op == step.op)
  {}

  lemma CrashEnds(s: Engine.State, lost: set<nat>)
    requires Engine.Can(s, Engine.Crash(lost))
    ensures Engine.Do(s, Engine.Crash(lost)).waiting == map[]
  {}

  lemma CrashInv(s: Engine.State, lost: set<nat>)
    requires Invariants.Inv(s) && s.keyedTable && Engine.Can(s, Engine.Crash(lost))
    ensures Inv(State(Engine.Do(s, Engine.Crash(lost)), Free))
  {
    Refinement.StepInv(s, Engine.Crash(lost));
    WaitsKept(s, Engine.Crash(lost));
    CrashEnds(s, lost);
    Intro(Engine.Do(s, Engine.Crash(lost)), Free);
  }

  lemma OtherInv(s: Engine.State, step: Engine.Step, holder: Holder)
    requires Inv(State(s, holder)) && Engine.Can(s, step) && !step.Crash? && (step.StageStmt? ==> step.op.Insert?)
    requires step.FailWait? ==> SparesRead(State(s, holder), step.sq)
    ensures Inv(State(Engine.Do(s, step), holder))
  {
    OtherEngine(s, step);
    BesideWaits(s, step, holder);
    if holder.HasRead? { OtherRead(s, step, holder); }
    Intro(Engine.Do(s, step), holder);
  }

  lemma OtherEngine(s: Engine.State, step: Engine.Step)
    requires Invariants.Inv(s) && s.keyedTable && Engine.Can(s, step)
    ensures Invariants.Inv(Engine.Do(s, step)) && Engine.Do(s, step).keyedTable
  {
    Refinement.StepInv(s, step);
    WaitsKept(s, step);
  }

  lemma FailCan(s: Engine.State, sq: nat)
    requires Engine.Can(s, Engine.FailWait(sq))
    ensures sq in s.waiting
  {}

  lemma OtherRead(s: Engine.State, step: Engine.Step, holder: Holder)
    requires Invariants.Inv(s) && s.keyedTable && OnlyInserts(s.waiting, holder)
    requires Engine.Can(s, step) && !step.Crash? && (step.StageStmt? ==> step.op.Insert?)
    requires step.FailWait? ==> SparesRead(State(s, holder), step.sq)
    requires holder.HasRead? && holder.row.key == holder.key && HoldsOnly(Engine.Logical(s), holder.key, holder.row)
    ensures HoldsOnly(Engine.Logical(Engine.Do(s, step)), holder.key, holder.row)
  {
    if step.FailWait? { FailCan(s, step.sq); }
    BesideSpares(s, step, holder.key, holder.row);
  }

  lemma BesideInv(s: State, step: Engine.Step)
    requires Inv(s) && Enabled(s, Beside(step)) && Assumed(s, Beside(step))
    ensures Inv(Do(s, Beside(step)))
  {
    if step.Crash? {
      CrashInv(s.engine, step.lost);
    } else {
      OtherInv(s.engine, step, s.holder);
    }
  }

  /** Only inserts wait, but for the holder's own statement. */
  ghost predicate OnlyInserts(waiting: map<nat, Engine.Wait>, holder: Holder) {
    forall q :: q in waiting && !waiting[q].op.Insert? ==> holder == Waiting(q)
  }

  lemma BesideWaits(s: Engine.State, step: Engine.Step, holder: Holder)
    requires Engine.Can(s, step) && (step.StageStmt? ==> step.op.Insert?) && OnlyInserts(s.waiting, holder)
    ensures !step.Crash? ==> OnlyInserts(Engine.Do(s, step).waiting, holder)
  {
    WaitsKept(s, step);
  }

  lemma Intro(engine: Engine.State, holder: Holder)
    requires Invariants.Inv(engine) && engine.keyedTable && OnlyInserts(engine.waiting, holder)
    requires holder.HasRead? ==> holder.row.key == holder.key && HoldsOnly(Engine.Logical(engine), holder.key, holder.row)
    ensures Inv(State(engine, holder))
  {}

  lemma StageWaits(s: Engine.State, op: Op, holder: Holder)
    requires Engine.Can(s, Engine.StageStmt(op)) && holder.HasRead? && OnlyInserts(s.waiting, holder)
    ensures OnlyInserts(Engine.Do(s, Engine.StageStmt(op)).waiting, Waiting(s.tail.nextSeq))
  {
    WaitsKept(s, Engine.StageStmt(op));
  }

  lemma StageRowInv(s: State, kind: Kind)
    requires Inv(s) && Enabled(s, StageRow(kind)) && Assumed(s, StageRow(kind))
    ensures Inv(Do(s, StageRow(kind)))
  {
    var step := Engine.StageStmt(KindOp(s.holder.key, kind));
    Refinement.StepInv(s.engine, step);
    WaitsKept(s.engine, step);
    StageWaits(s.engine, KindOp(s.holder.key, kind), s.holder);
    Intro(Engine.Do(s.engine, step), Waiting(s.engine.tail.nextSeq));
  }

  lemma ReadInv(s: State, step: Step)
    requires Inv(s) && Enabled(s, step) && Assumed(s, step) && (step.ReadLive? || step.ReadView?)
    ensures Inv(Do(s, step))
  {
    match step
    case ReadLive(key, row) => LiveIsLogical(s.engine, key, row);
    case ReadView(v, key, row) => ViewHolds(s.engine, v, key, row);
  }

  lemma StepInv(s: State, step: Step)
    requires Inv(s) && Enabled(s, step) && Assumed(s, step)
    ensures Inv(Do(s, step))
  {
    match step
    case Beside(step) => BesideInv(s, step);
    case StageRow(kind) => StageRowInv(s, kind);
    case ReadLive(_, _) => ReadInv(s, step);
    case ReadView(_, _, _) => ReadInv(s, step);
    case Lock =>
    case Unlock =>
  }

  ghost function Assured(): (State, Step, State) -> bool {
    (s, step, t) => Enabled(s, step) && Assumed(s, step) && t == Do(s, step)
  }

  lemma {:induction false} InvAlong(s: State, steps: seq<Step>, t: State)
    requires Inv(s) && Path(Assured(), s, steps, t)
    ensures Inv(t)
    decreases |steps|
  {
    if |steps| > 0 {
      var m :| Assured()(s, steps[0], m) && Path(Assured(), m, steps[1..], t);
      StepInv(s, steps[0]);
      InvAlong(m, steps[1..], t);
    }
  }

  ghost predicate Initial(s: State) {
    Engine.Initial(s.engine) && s.engine.keyedTable && s.holder.Free?
  }

  /** In every run, whatever inserts, failed waits, flushes, lost posts and crashes came between, the row
      a keyed statement read is still its key's one row when its frame is staged, in the log and in every
      view a scan may have; and staging runs the statement on it. */
  lemma ReadRowIsCurrent(s: State, steps: seq<Step>, t: State, kind: Kind, v: nat)
    requires Initial(s) && Path(Assured(), s, steps, t) && Enabled(t, StageRow(kind))
    requires Invariants.Servable(t.engine.hist, t.engine.served, t.engine.scans, v) && t.engine.hist[v].wm <= t.engine.liveLo
    ensures HoldsOnly(Engine.Logical(t.engine), t.holder.key, t.holder.row)
    ensures HoldsOnly(Engine.ScanResult(t.engine, v), t.holder.key, t.holder.row)
    ensures Engine.Logical(Do(t, StageRow(kind)).engine) == Exec(Engine.Logical(t.engine), KindOp(t.holder.key, kind))
  {
    Invariants.InitialInv(s.engine);
    InvAlong(s, steps, t);
    Refinement.ViewIsLogical(t.engine, v);
    FoldSnoc(t.engine.base, t.engine.log, Stmt(t.engine.tail.nextSeq, KindOp(t.holder.key, kind)));
  }

  // ---- a run in which the row is gone --------------------------------------------------------------------------------

  ghost function Code(): (State, Step, State) -> bool {
    (s, step, t) => Enabled(s, step) && t == Do(s, step)
  }

  const A := Hypotheses.A

  ghost function Birth(): State {
    State(Hypotheses.Start(true, multiset{}), Free)
  }

  const ROUTED_A := Routed([1], [])

  /** An INSERT is staged; its row shows before its wait is over. */
  lemma InsertShows() returns (t: Engine.State)
    ensures t == Engine.Do(Birth().engine, Engine.StageStmt(Insert([[A]])))
    ensures HoldsOnly(Engine.ScanResult(t, 0), 1, A) && |t.hist| == 1
    ensures t.buf.pending == [Batch(1, false, Some(1), [A])] && t.buf.keyed.None? && t.buf.flushed == [] && t.buf.pendingRows == 1
    ensures t.waiting.Keys == {1} && t.waiting[1].routed == ROUTED_A && t.log == [Stmt(1, Insert([[A]]))]
    ensures t.base == multiset{} && t.pk == []
  {
    var s := Birth().engine;
    Hypotheses.StageOne(EMPTY, A, 1);
    Hypotheses.OneBatch(A);
    t := Engine.DoStage(s, Insert([[A]]));
    assert t.log == [Stmt(1, Insert([[A]]))];
    OneRowShows(t);
  }

  lemma OneRowShows(t: Engine.State)
    requires t.hist == [Engine.Version(0, multiset{}, 0)] && t.buf.flushed == [] && t.buf.keyed.None?
    requires t.buf.pending == [Batch(1, false, Some(1), [A])] && Bag([[A]]) == multiset{A}
    ensures HoldsOnly(Engine.ScanResult(t, 0), 1, A)
  {
    assert RowsOf(t.buf.pending) == [[A]];
    Refinement.NoGenerations(t, 0);
  }

  lemma PlainUndone(b: Buf)
    requires b.pending == [Batch(1, false, Some(1), [A])] && b.keyed.None?
    ensures !Claimed(b, ROUTED_A) && Retract(b, ROUTED_A).pending == [] && Retract(b, ROUTED_A).keyed.None?
  {
    assert IdSet(ROUTED_A.ids) == {1};
    assert b.pending[..0] == [];
    assert UnclaimedCount(b.pending, {1}) == 1;
    assert DropIds(b.pending[..0], {1}) == [];
    assert DropIds(b.pending, {1}) == [];
  }

  /** The wait fails: the row is gone from the log and the window. */
  lemma InsertGone(s: Engine.State) returns (t: Engine.State)
    requires s.buf.pending == [Batch(1, false, Some(1), [A])] && s.buf.keyed.None? && |s.hist| > 0
    requires s.waiting.Keys == {1} && s.waiting[1].routed == ROUTED_A && s.log == [Stmt(1, Insert([[A]]))]
    ensures Engine.Enabled(s, Engine.FailWait(1)) && t == Engine.Do(s, Engine.FailWait(1))
    ensures t.log == [] && t.base == s.base && t.buf.keyed.None? && t.pk == s.pk && t.hist == s.hist
  {
    PlainUndone(s.buf);
    t := Engine.DoFail(s, 1);
    assert s.log[..0] == [] && Minus(s.log[..0], {1}) == [];
    assert Minus(s.log, {1}) == [];
  }

  /** Without the hypothesis: a keyed UPDATE reads the row of an INSERT still waiting, the INSERT fails and
      is undone, and the UPDATE's frame is staged on a row that is no longer there: the row the failed
      INSERT brought comes into being as the UPDATE's image. */
  lemma FailedInsertComesBack() returns (steps: seq<Step>, t: State)
    ensures Path(Code(), Birth(), steps, t)
    ensures t.holder == HasRead(1, A) && t.engine.log == [] && Engine.Logical(t.engine) == multiset{}
    ensures Enabled(t, StageRow(Upsert(11))) && Engine.Logical(Do(t, StageRow(Upsert(11))).engine) == multiset{Row(1, 11)}
  {
    var first, s := RowRead();
    var e := InsertGone(s.engine);
    PathSnoc(Code(), Birth(), first, s, Beside(Engine.FailWait(1)), Do(s, Beside(Engine.FailWait(1))));
    steps := first + [Beside(Engine.FailWait(1))];
    t := State(e, HasRead(1, A));
    ImageOnly(t);
  }

  lemma RowRead() returns (steps: seq<Step>, t: State)
    ensures Path(Code(), Birth(), steps, t) && t.holder == HasRead(1, A)
    ensures t.engine.buf.pending == [Batch(1, false, Some(1), [A])] && t.engine.buf.keyed.None? && |t.engine.hist| > 0
    ensures t.engine.waiting.Keys == {1} && t.engine.waiting[1].routed == ROUTED_A
    ensures t.engine.log == [Stmt(1, Insert([[A]]))] && t.engine.base == multiset{}
  {
    var e := InsertShows();
    FirstStep(e);
    steps, t := ReadsShown([Beside(Engine.StageStmt(Insert([[A]])))], e);
  }

  lemma FirstStep(e: Engine.State)
    requires e == Engine.Do(Birth().engine, Engine.StageStmt(Insert([[A]])))
    ensures Path(Code(), Birth(), [Beside(Engine.StageStmt(Insert([[A]])))], State(e, Free))
  {
    var step := Beside(Engine.StageStmt(Insert([[A]])));
    assert Enabled(Birth(), step) && Do(Birth(), step) == State(e, Free);
    PathOne(Code(), Birth(), step, State(e, Free));
  }

  lemma ReadsShown(first: seq<Step>, e: Engine.State) returns (steps: seq<Step>, t: State)
    requires Path(Code(), Birth(), first, State(e, Free)) && |e.hist| > 0 && HoldsOnly(Engine.ScanResult(e, 0), 1, A)
    requires e.buf.keyed.None?
    ensures Path(Code(), Birth(), steps, t) && t == State(e, HasRead(1, A))
  {
    PathSnoc(Code(), Birth(), first, State(e, Free), Lock, Do(State(e, Free), Lock));
    PathSnoc(Code(), Birth(), first + [Lock], State(e, Locked), ReadView(0, 1, A), Do(State(e, Locked), ReadView(0, 1, A)));
    t := State(e, HasRead(1, A));
    steps := first + [Lock] + [ReadView(0, 1, A)];
  }

  lemma ImageOnly(t: State)
    requires t.engine.log == [] && t.engine.base == multiset{} && t.holder == HasRead(1, A) && t.engine.buf.keyed.None?
    requires |t.engine.hist| > 0
    ensures Enabled(t, StageRow(Upsert(11))) && Engine.Logical(Do(t, StageRow(Upsert(11))).engine) == multiset{Row(1, 11)}
  {
    var op := KindOp(1, Upsert(11));
    FoldSnoc(multiset{}, [], Stmt(t.engine.tail.nextSeq, op));
    assert [] + [Stmt(t.engine.tail.nextSeq, op)] == [Stmt(t.engine.tail.nextSeq, op)];
    forall r: Row ensures Exec(multiset{}, op)[r] == multiset{Row(1, 11)}[r] {}
    SameTable(Exec(multiset{}, op), multiset{Row(1, 11)});
  }
}
