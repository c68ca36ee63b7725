/** Boot replay, exactly: which surviving frames routing recovers as the statements they are, told from
    the frames alone. */
module Recovery {
  import opened Rows
  import opened Window
  import opened Layers
  import opened Undo
  import opened Statements
  import opened Log
  import opened Engine
  import opened Invariants
  import opened WindowSteps
  import opened CrashSteps
  import opened Refinement
  import opened UndoLater
  import UndoExact
  import opened Hypotheses

  /** Where a key stands after some frames: no keyed operation yet, deleted last, or written last. */
  datatype Standing = Plain | Gone | Written

  function StandingOf(frames: seq<Stmt>, k: Key): Standing {
    if |frames| == 0 then Plain
    else
      var was, op := StandingOf(frames[..|frames| - 1], k), frames[|frames| - 1].op;
      if k !in OpKeys(op) then was
      else match op
           case Put(_, _) => Written
           case Del(_) => Gone
           case Insert(_) => if was == Gone then Written else was
  }

  /** Some INSERT finds the key written, or brings two rows of it over a delete, and no keyed operation
      on the key follows. */
  ghost predicate Clobbered(frames: seq<Stmt>, k: Key) {
    |frames| > 0
    && var init, op := frames[..|frames| - 1], frames[|frames| - 1].op;
       if k !in OpKeys(op) then Clobbered(init, k)
       else op.Insert? && (|| Clobbered(init, k) || StandingOf(init, k) == Written
                           || (StandingOf(init, k) == Gone && OccursTwice(Flatten(op.batches), k)))
  }

  /** The table holds the row, and another of its key. */
  ghost predicate More(t: Table, r: Row) {
    t[r] >= 1 && (t[r] >= 2 || exists x: Row :: x.key == r.key && x != r && t[x] >= 1)
  }

  // ---- one frame --------------------------------------------------------------------------------------------

  ghost predicate EntryIs(b: Buf, k: Key, standing: Standing) {
    && (k in Entries(b) <==> standing != Plain)
    && (k in Entries(b) ==> (Entries(b)[k].kind.Delete? <==> standing == Gone))
  }

  lemma OtherFrame(b: Buf, pk: seq<string>, e: Stmt, c: Table, k: Key)
    requires PkOk(b, pk) && k !in OpKeys(e.op)
    ensures var b' := RouteStmt(b, pk, e.op, None, Some(e.seqno)).buf;
            && (forall r: Row :: r.key == k ==> Apply(c, Live(b'))[r] == Apply(c, Live(b))[r])
            && (k in Entries(b') <==> k in Entries(b)) && (k in Entries(b) ==> Entries(b')[k] == Entries(b)[k])
  {
    var b' := RouteStmt(b, pk, e.op, None, Some(e.seqno)).buf;
    StmtFacts(b, pk, e.op, None, Some(e.seqno));
    forall r: Row | r.key == k ensures Bag(RowsOf(b'.pending))[r] == Bag(RowsOf(b.pending))[r] {
      UndoExact.OtherCount(b, b', e.op, Some(e.seqno), NOTHING, r);
    }
  }

  lemma PlainFrame(b: Buf, batches: seq<seq<Row>>, sq: Option<nat>, c: Table, k: Key)
    requires k !in Entries(b)
    ensures var b' := Route(b, batches, sq).buf;
            && k !in Entries(b')
            && forall r: Row :: r.key == k ==> Apply(c, Live(b'))[r] == Apply(c, Live(b))[r] + multiset(Flatten(batches))[r]
  {
    AppendEntries(b, batches, sq);
    DropNone(b.pending, {});
    DropNone(Route(b, batches, sq).buf.pending, {});
    forall r: Row | r.key == k
      ensures Bag(RowsOf(Route(b, batches, sq).buf.pending))[r] == Bag(RowsOf(b.pending))[r] + multiset(Flatten(batches))[r]
    {
      InsertedBag(b, batches, sq, {}, r);
    }
  }

  lemma {:induction false} LastIn(rows: seq<Row>, k: Key)
    requires k in KeysOf(rows)
    ensures Row(k, LastVal(rows, k)) in rows
  {
    var init, last := rows[..|rows| - 1], rows[|rows| - 1];
    assert rows == init + [last];
    if last.key != k { LastIn(init, k); }
  }

  lemma TwiceStays(init: seq<Row>, last: Row, k: Key)
    ensures OccursTwice(init, k) ==> OccursTwice(init + [last], k)
  {
    var rows := init + [last];
    if OccursTwice(init, k) {
      var i, j :| 0 <= i < j < |init| && init[i].key == k && init[j].key == k;
      assert rows[i] == init[i] && rows[j] == init[j];
    }
  }

  /** One row of the key: it is the last one, and counts once. */
  lemma {:induction false} OnceCounts(rows: seq<Row>, k: Key, r: Row)
    requires k in KeysOf(rows) && !OccursTwice(rows, k) && r.key == k
    ensures multiset(rows)[r] == if r.val == LastVal(rows, k) then 1 else 0
  {
    var init, last := rows[..|rows| - 1], rows[|rows| - 1];
    assert rows == init + [last];
    if last.key == k {
      forall i | 0 <= i < |init| ensures init[i].key != k { assert rows[i] == init[i]; }
      assert r !in init;
    } else {
      TwiceStays(init, last, k);
      OnceCounts(init, k, r);
    }
  }

  lemma {:induction false} EqualTwice(rows: seq<Row>, i: nat, j: nat)
    requires i < j < |rows| && rows[i] == rows[j]
    ensures multiset(rows)[rows[i]] >= 2
  {
    var init, last := rows[..|rows| - 1], rows[|rows| - 1];
    assert rows == init + [last];
    if j < |init| {
      EqualTwice(init, i, j);
    } else {
      assert init[i] in multiset(init);
    }
  }

  /** Two rows of the key make more than one of it. */
  lemma TwiceIsMore(t: Table, rows: seq<Row>, k: Key)
    requires OccursTwice(rows, k)
    ensures k in KeysOf(rows) && More(t + multiset(rows), Row(k, LastVal(rows, k)))
  {
    var i, j :| 0 <= i < j < |rows| && rows[i].key == k && rows[j].key == k;
    assert rows[i] in rows && rows[j] in rows;
    LastIn(rows, k);
    var r := Row(k, LastVal(rows, k));
    assert r in multiset(rows);
    if rows[i] == rows[j] {
      EqualTwice(rows, i, j);
      if rows[i] != r { assert rows[i] in multiset(rows); }
    } else {
      var x := if rows[i] != r then rows[i] else rows[j];
      assert x in multiset(rows);
    }
  }

  /** A row of the key, and then another: more than one of it. */
  lemma ThenMore(t: Table, x: Row, rows: seq<Row>)
    requires t[x] >= 1 && x.key in KeysOf(rows)
    ensures More(t + multiset(rows), Row(x.key, LastVal(rows, x.key)))
  {
    LastIn(rows, x.key);
    var r := Row(x.key, LastVal(rows, x.key));
    assert r in multiset(rows);
    if x != r { assert (t + multiset(rows))[x] >= 1; }
  }

  // ---- all frames -------------------------------------------------------------------------------------------

  ghost predicate SameAt(t: Table, u: Table, k: Key) {
    forall r: Row :: r.key == k ==> t[r] == u[r]
  }

  /** Replay agrees with the fold at the key, or shows one row of it where the fold has more. */
  ghost predicate Outcome(b: Buf, c: Table, t: Table, k: Key, clobbered: bool) {
    if clobbered then k in Entries(b) && Entries(b)[k].kind.Upsert? && More(t, Row(k, Entries(b)[k].kind.val))
    else SameAt(Apply(c, Live(b)), t, k)
  }

  lemma KeyedFrame(b: Buf, pk: seq<string>, e: Stmt, c: Table, t: Table, k: Key)
    requires PkOk(b, pk) && !e.op.Insert? && k in OpKeys(e.op)
    ensures var b' := RouteStmt(b, pk, e.op, None, Some(e.seqno)).buf;
            Outcome(b', c, Exec(t, e.op), k, false) && EntryIs(b', k, if e.op.Put? then Written else Gone)
  {}

  lemma InsertFrame(
    b: Buf, batches: seq<seq<Row>>, sq: Option<nat>, c: Table, t: Table, k: Key, standing: Standing,
    clobbered: bool)
    requires k in OpKeys(Insert(batches)) && EntryIs(b, k, standing) && Outcome(b, c, t, k, clobbered)
    ensures var b' := Route(b, batches, sq).buf;
            Outcome(b', c, t + multiset(Flatten(batches)), k,
                    clobbered || standing == Written || (standing == Gone && OccursTwice(Flatten(batches), k)))
    ensures EntryIs(Route(b, batches, sq).buf, k, if standing == Gone then Written else standing)
  {
    if standing == Plain {
      PlainFrame(b, batches, sq, c, k);
    } else {
      HitValue(b, batches, sq, k);
      HitFrame(b, Route(b, batches, sq).buf, c, t, Flatten(batches), k, standing, clobbered);
    }
  }

  /** The frame's last row of the key is its entry now. */
  lemma HitFrame(b: Buf, b': Buf, c: Table, t: Table, rows: seq<Row>, k: Key, standing: Standing, clobbered: bool)
    requires standing != Plain && EntryIs(b, k, standing) && Outcome(b, c, t, k, clobbered) && k in KeysOf(rows)
    requires k in Entries(b') && Entries(b')[k].kind == Upsert(LastVal(rows, k))
    ensures Outcome(b', c, t + multiset(rows), k,
                    clobbered || standing == Written || (standing == Gone && OccursTwice(rows, k)))
  {
    if clobbered || standing == Written {
      var x := Row(k, Entries(b)[k].kind.val);
      assert t[x] >= 1;
      ThenMore(t, x, rows);
    } else if OccursTwice(rows, k) {
      TwiceIsMore(t, rows, k);
    } else {
      OverDelete(b, b', c, t, rows, k);
    }
  }

  lemma OverDelete(b: Buf, b': Buf, c: Table, t: Table, rows: seq<Row>, k: Key)
    requires k in Entries(b) && Entries(b)[k].kind.Delete? && SameAt(Apply(c, Live(b)), t, k)
    requires k in KeysOf(rows) && !OccursTwice(rows, k)
    requires k in Entries(b') && Entries(b')[k].kind == Upsert(LastVal(rows, k))
    ensures SameAt(Apply(c, Live(b')), t + multiset(rows), k)
  {
    forall r: Row | r.key == k ensures Apply(c, Live(b'))[r] == (t + multiset(rows))[r] {
      OnceCounts(rows, k, r);
      assert Apply(c, Live(b))[r] == 0;
    }
  }

  lemma ReplayNext(b: Buf, pk: seq<string>, e: Stmt, c: Table, t: Table, k: Key, standing: Standing, clobbered: bool)
    requires PkOk(b, pk) && EntryIs(b, k, standing) && Outcome(b, c, t, k, clobbered)
    ensures var b', op := RouteStmt(b, pk, e.op, None, Some(e.seqno)).buf, e.op;
            && (k !in OpKeys(op) ==> EntryIs(b', k, standing) && Outcome(b', c, Exec(t, op), k, clobbered))
            && (k in OpKeys(op) && op.Put? ==> EntryIs(b', k, Written) && Outcome(b', c, Exec(t, op), k, false))
            && (k in OpKeys(op) && op.Del? ==> EntryIs(b', k, Gone) && Outcome(b', c, Exec(t, op), k, false))
            && (k in OpKeys(op) && op.Insert? ==>
                  && EntryIs(b', k, if standing == Gone then Written else standing)
                  && Outcome(b', c, Exec(t, op), k, clobbered || standing == Written
                                                    || (standing == Gone && OccursTwice(Flatten(op.batches), k))))
  {
    if k !in OpKeys(e.op) {
      OtherFrame(b, pk, e, c, k);
      forall r: Row | r.key == k ensures Exec(t, e.op)[r] == t[r] { ExecFrame(t, e.op, r); }
    } else if e.op.Insert? {
      InsertFrame(b, e.op.batches, Some(e.seqno), c, t, k, standing, clobbered);
    } else {
      KeyedFrame(b, pk, e, c, t, k);
    }
  }

  lemma {:induction false} ReplayStands(pk: seq<string>, frames: seq<Stmt>, c: Table, k: Key)
    ensures EntryIs(Replay(pk, frames), k, StandingOf(frames, k))
    ensures Outcome(Replay(pk, frames), c, Fold(c, frames), k, Clobbered(frames, k))
  {
    if |frames| == 0 {
      EmptyWindow(pk, true, c);
    } else {
      var init, e := frames[..|frames| - 1], frames[|frames| - 1];
      ReplayStands(pk, init, c, k);
      ReplayNext(Replay(pk, init), pk, e, c, Fold(c, init), k, StandingOf(init, k), Clobbered(init, k));
    }
  }

  lemma MoreDiffers(b: Buf, c: Table, t: Table, k: Key)
    requires Outcome(b, c, t, k, true)
    ensures Apply(c, Live(b)) != t
  {
    var r := Row(k, Entries(b)[k].kind.val);
    assert Apply(c, Live(b))[r] == 1;
    if t[r] < 2 {
      var x: Row :| x.key == r.key && x != r && t[x] >= 1;
      assert Apply(c, Live(b))[x] == 0;
    }
  }

  /** No key is clobbered. */
  ghost predicate Faithful(frames: seq<Stmt>) {
    forall k :: !Clobbered(frames, k)
  }

  lemma ReplaySame(pk: seq<string>, frames: seq<Stmt>, c: Table, k: Key)
    requires !Clobbered(frames, k)
    ensures SameAt(Apply(c, Live(Replay(pk, frames))), Fold(c, frames), k)
  {
    ReplayStands(pk, frames, c, k);
  }

  lemma ReplayDiffers(pk: seq<string>, frames: seq<Stmt>, c: Table, k: Key)
    requires Clobbered(frames, k)
    ensures Apply(c, Live(Replay(pk, frames))) != Fold(c, frames)
  {
    ReplayStands(pk, frames, c, k);
    MoreDiffers(Replay(pk, frames), c, Fold(c, frames), k);
  }

  /** Replaying frames over a committed table runs them in order exactly when no key is clobbered. */
  lemma ReplayExactIff(pk: seq<string>, frames: seq<Stmt>, c: Table)
    ensures Apply(c, Live(Replay(pk, frames))) == Fold(c, frames) <==> Faithful(frames)
  {
    if Faithful(frames) {
      var one, two := Apply(c, Live(Replay(pk, frames))), Fold(c, frames);
      forall k ensures SameAt(one, two, k) { ReplaySame(pk, frames, c, k); }
      SameEverywhere(one, two);
    } else {
      var k :| Clobbered(frames, k);
      ReplayDiffers(pk, frames, c, k);
    }
  }

  lemma SameEverywhere(t: Table, u: Table)
    requires forall k :: SameAt(t, u, k)
    ensures t == u
  {
    forall r: Row ensures t[r] == u[r] { assert SameAt(t, u, r.key); }
    SameTable(t, u);
  }

  // ---- the rebooted server ----------------------------------------------------------------------------------

  lemma BootLive(pk: seq<string>, survivors: seq<Stmt>)
    ensures Boot(pk, survivors).flushed == [] && Live(Boot(pk, survivors)) == Live(Replay(pk, survivors))
  {}

  /** After any crash, with no hypothesis on what was lost, a scan of the rebooted server returns the
      newest committed rows with the surviving frames run on top, each once and in order, exactly when
      no key is clobbered by them. */
  lemma RecoveredIff(s: State, lost: set<nat>)
    requires |s.hist| > 0
    ensures var s' := DoCrash(s, lost);
            ScanResult(s', LastIdx(s')) == Fold(s.hist[LastIdx(s)].rows, Survivors(s, lost))
            <==> Faithful(Survivors(s, lost))
  {
    CrashRead(s, lost);
    ReplayExactIff(s.pk, Survivors(s, lost), s.hist[LastIdx(s)].rows);
  }

  lemma CrashRead(s: State, lost: set<nat>)
    requires |s.hist| > 0
    ensures var s' := DoCrash(s, lost);
            && LastIdx(s') == LastIdx(s)
            && ScanResult(s', LastIdx(s)) == Apply(s.hist[LastIdx(s)].rows, Live(Replay(s.pk, Survivors(s, lost))))
  {
    var s' := DoCrash(s, lost);
    BootLive(s.pk, Survivors(s, lost));
    assert s'.hist == s.hist && s'.buf == Boot(s.pk, Survivors(s, lost));
    NoGenerations(s', LastIdx(s));
  }

  /** Without keyed operations no key is ever clobbered. */
  lemma {:induction false} PlainNeverClobbered(frames: seq<Stmt>, k: Key)
    requires forall e :: e in frames ==> e.op.Insert?
    ensures StandingOf(frames, k) == Plain && !Clobbered(frames, k)
  {
    if |frames| > 0 {
      var init := frames[..|frames| - 1];
      assert frames[|frames| - 1] in frames && forall e :: e in init ==> e in frames;
      PlainNeverClobbered(init, k);
    }
  }

  /** On a table without keyed operations every crash of every run is recovered so, whatever was lost. */
  lemma RecoveredPlain(trace: seq<State>, steps: seq<Step>, i: nat, lost: set<nat>)
    requires Run(trace, steps) && i < |trace| && !trace[i].keyedTable
    ensures |trace[i].hist| > 0
    ensures var s, s' := trace[i], DoCrash(trace[i], lost);
            ScanResult(s', LastIdx(s')) == Fold(s.hist[LastIdx(s)].rows, Survivors(s, lost))
  {
    RunInv(trace, steps, i);
    PlainSurvivors(trace[i], lost);
    RecoveredIff(trace[i], lost);
  }

  lemma PlainSurvivors(s: State, lost: set<nat>)
    requires Inv(s) && !s.keyedTable
    ensures Faithful(Survivors(s, lost))
  {
    SurvivorsAre(s, lost);
    forall e | e in Survivors(s, lost) ensures e.op.Insert? { NoKeyed(s.base, s.log, e); }
    forall k ensures !Clobbered(Survivors(s, lost), k) { PlainNeverClobbered(Survivors(s, lost), k); }
  }

  // ---- a lost delete ----------------------------------------------------------------------------------------

  const WROTE := Stmt(1, Put(1, 5))
  const DELETED := Stmt(2, Del(1))
  const INSERTED := Stmt(3, Insert([[Row(1, 7)]]))

  /** Staging one statement: what of the state this run needs. */
  lemma StageOn(s: State, op: Op) returns (t: State)
    requires |s.hist| > 0 && s.pk == [] && (s.buf.keyed.Some? ==> s.buf.keyed.value.pkCols == [])
    ensures Reaches(s, [StageStmt(op)], t)
    ensures t.hist == s.hist && t.pk == [] && t.base == s.base && t.tail.sidecar == s.tail.sidecar
    ensures t.buf.keyed.Some? ==> t.buf.keyed.value.pkCols == []
    ensures t.log == s.log + [Stmt(s.tail.nextSeq, op)] && t.tail.frames == s.tail.frames + [Stmt(s.tail.nextSeq, op)]
    ensures t.tail.nextSeq == s.tail.nextSeq + 1 && s.tail.nextSeq in t.waiting
    ensures t.waiting.Keys == s.waiting.Keys + {s.tail.nextSeq}
  {
    StmtPk(s.buf, s.pk, op, Some(s.tail.nextSeq), None);
    ReachesOne(s, StageStmt(op));
    t := DoStage(s, op);
  }

  /** A write and an INSERT are acknowledged; the DELETE between them is not. */
  lemma DeleteUnresolved() returns (steps: seq<Step>, s: State)
    ensures Reaches(Start(true, multiset{}), steps, s)
    ensures s.hist == [Version(0, multiset{}, 0)] && s.pk == [] && s.tail.sidecar == 0 && s.base == multiset{}
    ensures s.tail.frames == [WROTE, DELETED, INSERTED] && s.log == s.tail.frames && s.waiting.Keys == {2}
  {
    var s0 := Start(true, multiset{});
    var s1 := StageOn(s0, Put(1, 5));
    var s2 := StageOn(s1, Del(1));
    var s3 := StageOn(s2, Insert([[Row(1, 7)]]));
    ReachesOn(s0, [StageStmt(WROTE.op)], s1, [StageStmt(DELETED.op)], s2);
    ReachesOn(s0, [StageStmt(WROTE.op)] + [StageStmt(DELETED.op)], s2, [StageStmt(INSERTED.op)], s3);
    var first := [StageStmt(WROTE.op)] + [StageStmt(DELETED.op)] + [StageStmt(INSERTED.op)];
    ReachesOne(s3, Ack(1));
    var s4 := DoAck(s3, 1);
    ReachesOne(s4, Ack(3));
    s := DoAck(s4, 3);
    ReachesOn(s0, first, s3, [Ack(1)], s4);
    ReachesOn(s0, first + [Ack(1)], s4, [Ack(3)], s);
    steps := first + [Ack(1)] + [Ack(3)];
  }

  lemma TwoSurvive(frames: seq<Stmt>)
    requires frames == [WROTE, DELETED, INSERTED]
    ensures Above(Minus(frames, {2}), 0) == [WROTE, INSERTED] && Upto(frames, 0) == []
  {
    assert frames[..2] == [WROTE, DELETED] && frames[..2][..1] == [WROTE] && [WROTE][..0] == [];
    assert Minus([WROTE], {2}) == [] + [WROTE];
    assert Minus(frames[..2], {2}) == [WROTE];
    assert Minus(frames, {2}) == [WROTE] + [INSERTED];
    AboveAll(Minus(frames, {2}), 0);
    AboveAll(frames, 0);
  }

  lemma WrittenTwice()
    ensures Clobbered([WROTE, INSERTED], 1)
  {
    var frames := [WROTE, INSERTED];
    assert frames[..1] == [WROTE] && [WROTE][..0] == [];
    OneBatch(Row(1, 7));
    assert Row(1, 7) in Flatten([[Row(1, 7)]]);
    assert 1 in OpKeys(INSERTED.op);
    assert StandingOf([WROTE], 1) == Written;
  }

  /** Why a crash must not orphan an INSERT: a write and an INSERT of its key are acknowledged, the
      unresolved DELETE between them is lost, and the rebooted server shows one row of the key where the
      acknowledged statements make two. */
  lemma LostDeleteClobbers() returns (steps: seq<Step>, t: State)
    ensures Reaches(Start(true, multiset{}), steps, t)
    ensures t.log == [WROTE, INSERTED] && |t.hist| == 1 && ScanResult(t, 0) != Logical(t)
  {
    var first, s := DeleteUnresolved();
    ReachesOne(s, Crash({2}));
    t := DoCrash(s, {2});
    ReachesOn(Start(true, multiset{}), first, s, [Crash({2})], t);
    steps := first + [Crash({2})];
    TwoSurvive(s.tail.frames);
    assert Survivors(s, {2}) == [WROTE, INSERTED];
    assert [] + [WROTE, INSERTED] == [WROTE, INSERTED];
    CrashRead(s, {2});
    WrittenTwice();
    ReplayDiffers(s.pk, [WROTE, INSERTED], multiset{}, 1);
  }
}
