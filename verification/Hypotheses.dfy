/** Why the hypotheses are there: for each, when exactly the step is safe, and a run of the code
    in which it is not. */
module Hypotheses {
  import opened Rows
  import opened Window
  import opened Layers
  import opened Undo
  import opened Statements
  import opened Log
  import opened Engine
  import opened Invariants
  import opened SettleSteps
  import opened Refinement
  import opened Paths

  // ---- H1: merge-back ------------------------------------------------------------------------------

  lemma BackView(s: State, v: nat)
    requires Inv(s) && s.flight.Posted? && |s.spans| > 0
    requires var s' := DoMergeBack(s); Servable(s'.hist, s'.served, s'.scans, v) && s'.hist[v].wm <= s'.liveLo
    ensures var s' := DoMergeBack(s);
            ScanResult(s', v) == Apply(At(s.base, s.log, s'.liveLo), Live(s'.buf))
  {
    var s' := DoMergeBack(s);
    BackCatalog(s);
    var j := SeenCount(s'.hist, v, s'.buf.flushed);
    SeenCountFirst(s'.hist, v, s'.buf.flushed);
    ScanLayers(s', v, j);
    UnseenReachLive(s', v, j);
  }

  /** A lost post is invisible to scans exactly when the generation that goes back owns no key of a
      newer plain append that the live map lacks. */
  lemma MergeBackViewIff(s: State, v: nat)
    requires Inv(s) && s.flight.Posted? && |s.spans| > 0
    requires var s' := DoMergeBack(s); Servable(s'.hist, s'.served, s'.scans, v) && s'.hist[v].wm <= s'.liveLo
    ensures ScanResult(DoMergeBack(s), v) == Logical(s) <==> MergeBackOk(s)
  {
    BackView(s, v);
    BackShape(s);
    var i := |s.spans| - 1;
    assert ChainAt(s.spans, s.liveLo, s.buf.flushed, s.base, s.log, i);
    MoveBackIsMerge(s.buf, s.flight.next.id);
    MergeBackExactIff(At(s.base, s.log, s.spans[i].lo), s.buf.flushed[i], s.buf);
  }

  // ---- H5: a trace in the tail --------------------------------------------------------------------------

  /** The next boot numbers above the committed watermark after every crash that may come, if and only
      if nothing is committed or the tail holds the sidecar or a frame whose wait is over: a crash may
      lose every other frame, and a tail with no trace of the table numbers from one again. */
  lemma FloorExactIff(s: State)
    requires |s.hist| > 0
    ensures (forall lost :: lost <= s.waiting.Keys ==> DoCrash(s, lost).tail.nextSeq > EffectiveWatermark(s))
       <==> EffectiveWatermark(s) == 0 || Traced(s.tail, s.waiting)
  {
    if EffectiveWatermark(s) == 0 || Traced(s.tail, s.waiting) {
      forall lost | lost <= s.waiting.Keys ensures DoCrash(s, lost).tail.nextSeq > EffectiveWatermark(s) {
        TraceKept(s, lost);
      }
    } else {
      AllLost(s.tail.frames, s.waiting.Keys);
      assert DoCrash(s, s.waiting.Keys).tail.nextSeq == 1;
    }
  }

  lemma TraceKept(s: State, lost: set<nat>)
    requires |s.hist| > 0 && lost <= s.waiting.Keys && (EffectiveWatermark(s) == 0 || Traced(s.tail, s.waiting))
    ensures DoCrash(s, lost).tail.nextSeq > EffectiveWatermark(s)
  {
    if e :| e in s.tail.frames && e.seqno !in s.waiting {
      MinusIn(s.tail.frames, lost, e);
    }
  }

  lemma {:induction false} AllLost(frames: seq<Stmt>, lost: set<nat>)
    requires forall e :: e in frames ==> e.seqno in lost
    ensures Minus(frames, lost) == []
  {
    if |frames| > 0 {
      assert frames[|frames| - 1] in frames;
      AllLost(frames[..|frames| - 1], lost);
    }
  }

  // ---- runs ---------------------------------------------------------------------------------------------

  ghost function Code(): (State, Step, State) -> bool {
    (s, step, t) => Enabled(s, step) && t == Do(s, step)
  }

  /** The code can go from `s` to `t` by these steps, whatever is assumed of it. */
  ghost predicate Reaches(s: State, steps: seq<Step>, t: State) {
    Path(Code(), s, steps, t)
  }

  lemma ReachesOn(s: State, first: seq<Step>, m: State, rest: seq<Step>, t: State)
    requires Reaches(s, first, m) && Reaches(m, rest, t)
    ensures Reaches(s, first + rest, t)
  {
    PathOn(Code(), s, first, m, rest, t);
  }

  lemma ReachesOne(s: State, step: Step)
    requires Enabled(s, step)
    ensures Reaches(s, [step], Do(s, step))
  {
    PathOne(Code(), s, step, Do(s, step));
  }

  lemma ReachesThree(s: State, a: Step, s1: State, b: Step, s2: State, c: Step, t: State)
    requires Reaches(s, [a], s1) && Reaches(s1, [b], s2) && Reaches(s2, [c], t)
    ensures Reaches(s, [a, b, c], t)
  {
    ReachesOn(s1, [b], s2, [c], t);
    ReachesOn(s, [a], s1, [b] + [c], t);
    assert [a] + ([b] + [c]) == [a, b, c];
  }

  lemma ReachesFour(
    s: State, a: seq<Step>, s1: State, b: seq<Step>, s2: State, c: seq<Step>, s3: State, d: seq<Step>, t: State)
    requires Reaches(s, a, s1) && Reaches(s1, b, s2) && Reaches(s2, c, s3) && Reaches(s3, d, t)
    ensures Reaches(s, a + b + c + d, t)
  {
    ReachesOn(s, a, s1, b, s2);
    ReachesOn(s, a + b, s2, c, s3);
    ReachesOn(s, a + b + c, s3, d, t);
  }

  ghost function Start(keyedTable: bool, base: Table): State {
    State([], keyedTable, 30, 0, [Version(0, base, 0)], 1, EMPTY, Idle, Tail([], 0, 1), multiset{}, 0, 0,
          base, [], map[], {}, [], 0, 0)
  }

  const A := Row(1, 10)
  const B := Row(2, 20)

  lemma OneBatch(r: Row)
    ensures Flatten([[r]]) == [r] && Bag([[r]]) == multiset{r}
  {
    FlattenSingle([r]);
  }

  /** Staging a one-row INSERT where no key is buffered. */
  lemma StageOne(b: Buf, r: Row, sq: nat)
    requires b.keyed.None?
    ensures RouteStmt(b, [], Insert([[r]]), Some(sq), None)
         == Acc(b.(pending := b.pending + [Batch(b.nextId, false, Some(sq), [r])], pendingRows := b.pendingRows + 1,
                   nextId := b.nextId + 1, tailHigh := Some(sq), undurable := b.undurable + {sq}),
                Routed([b.nextId], []))
  {
    var b0 := Stage(b, Some(sq));
    var batches := [[r]];
    assert batches[..0] == [];
    assert PushBatches(Acc(b0, NOTHING), [], Some(sq)) == Acc(b0, NOTHING);
    assert PushBatches(Acc(b0, NOTHING), batches, Some(sq)) == Push(Acc(b0, NOTHING), [r], Some(sq));
    assert Routed([], []).ids + [b.nextId] == [b.nextId];
  }

  // ---- H3, the run: a landed post errors, its reload fails, and a new statement is staged -------------------

  /** A one-row statement, snapshotted and with metadata loaded. */
  lemma RowLoaded() returns (steps: seq<Step>, s: State)
    ensures Reaches(Start(false, multiset{}), steps, s)
    ensures s == Start(false, multiset{}).(
      buf := Buf([Batch(1, true, Some(1), [A])], 1, 2, None, [], Some(1), {1}),
      flight := Loaded(Snap([[A]], 1, map[], Some(1)), 0), tail := Tail([Stmt(1, Insert([[A]]))], 0, 2), frozen := 1,
      log := [Stmt(1, Insert([[A]]))], waiting := s.waiting)
    ensures s.waiting.Keys == {1}
  {
    var s0 := Start(false, multiset{});
    StageOne(EMPTY, A, 1);
    var s1 := DoStage(s0, Insert([[A]]));
    ReachesOne(s0, StageStmt(Insert([[A]])));
    assert s1.log == [Stmt(1, Insert([[A]]))];
    assert s1.buf == Buf([Batch(1, false, Some(1), [A])], 1, 2, None, [], Some(1), {1});
    var t := SnapLoad(s1, A);
    ReachesOn(s0, [StageStmt(Insert([[A]]))], s1, [FlushSnapshot, FlushLoad], t);
    assert t.buf == Buf([Batch(1, true, Some(1), [A])], 1, 2, None, [], Some(1), {1});
    return [StageStmt(Insert([[A]]))] + [FlushSnapshot, FlushLoad], t;
  }

  lemma SnapLoad(s: State, r: Row) returns (t: State)
    requires s.hist == [Version(0, multiset{}, 0)] && s.flight.Idle? && s.served == 0
    requires s.buf == Buf([Batch(1, false, Some(1), [r])], 1, 2, None, [], Some(1), {1})
    ensures Reaches(s, [FlushSnapshot, FlushLoad], t)
    ensures t == s.(buf := s.buf.(pending := [Batch(1, true, Some(1), [r])]),
                    flight := Loaded(Snap([[r]], 1, map[], Some(1)), 0), frozen := 1)
  {
    var m := DoSnapshot(s);
    assert m.buf.pending == [Batch(1, true, Some(1), [r])];
    assert RowsOf(s.buf.pending) == [[r]];
    t := DoLoad(m);
    assert t.buf == m.buf;
    ReachesOne(s, FlushSnapshot);
    ReachesOne(m, FlushLoad);
    ReachesOn(s, [FlushSnapshot], m, [FlushLoad], t);
    assert [FlushSnapshot] + [FlushLoad] == [FlushSnapshot, FlushLoad];
  }

  lemma OneSnap()
    ensures var l := SnapLayer(Snap([[A]], 1, map[], Some(1)));
            Apply(multiset{}, l) == multiset{A} && !NetZero(multiset{}, l)
  {
    OneBatch(A);
    var l := SnapLayer(Snap([[A]], 1, map[], Some(1)));
    assert Without(Bag(l.batches), l.ops.Keys)[A] == 1;
    var rows := Apply(multiset{}, l);
    forall r: Row ensures rows[r] == multiset{A}[r] {}
    SameTable(rows, multiset{A});
  }

  lemma PreparedRow(s: State)
    requires s.hist == [Version(0, multiset{}, 0)] && s.nextSnap == 1 && s.clock == 0
    requires s.buf == Buf([Batch(1, true, Some(1), [A])], 1, 2, None, [], Some(1), {1})
    requires s.flight == Loaded(Snap([[A]], 1, map[], Some(1)), 0)
    ensures Enabled(s, Prepare)
    ensures DoPrepare(s).buf
         == Buf([], 0, 2, None, [Gen(Snapshot(1), [GenBatch(Some(1), [A])], map[], 0, false)], Some(1), {1})
    ensures DoPrepare(s).flight == Posted(Version(1, multiset{A}, 1), 1, 0, false)
  {
    OneSnap();
    assert s.buf.pending[..1] == s.buf.pending && s.buf.pending[1..] == [];
    assert RowCount(s.buf.pending) == 1 by { assert s.buf.pending[..0] == []; }
    assert ToGen(s.buf.pending) == [GenBatch(Some(1), [A])];
  }

  /** The row is posted and lands; the post errors and the reload fails: the row goes back. */
  lemma LandedAndBack(s: State) returns (t: State)
    requires s.hist == [Version(0, multiset{}, 0)] && s.nextSnap == 1 && s.clock == 0
    requires s.buf == Buf([Batch(1, true, Some(1), [A])], 1, 2, None, [], Some(1), {1})
    requires s.flight == Loaded(Snap([[A]], 1, map[], Some(1)), 0) && s.spans == [] && s.liveLo == 0
    ensures Reaches(s, [Prepare, Land, PostError(false)], t)
    ensures t.hist == [Version(0, multiset{}, 0), Version(1, multiset{A}, 1)] && t.flight.Idle?
    ensures t.buf == Buf([Batch(2, true, Some(1), [A])], 1, 3, None, [], Some(1), {1})
    ensures t.log == s.log && t.base == s.base && t.served == s.served && t.tail == s.tail && t.pk == s.pk
    ensures t.nextSnap == 2 && t.spans == [] && t.liveLo == 0
  {
    PreparedRow(s);
    ReachesOne(s, Prepare);
    var s1 := DoPrepare(s);
    var s2, s3 := LandThenError(s1);
    t := s3;
    ReachesThree(s, Prepare, s1, Land, s2, PostError(false), t);
  }

  lemma LandThenError(s: State) returns (m: State, t: State)
    requires s.hist == [Version(0, multiset{}, 0)] && s.nextSnap == 2 && s.spans == [Span(0, 1)]
    requires s.buf == Buf([], 0, 2, None, [Gen(Snapshot(1), [GenBatch(Some(1), [A])], map[], 0, false)], Some(1), {1})
    requires s.flight == Posted(Version(1, multiset{A}, 1), 1, 0, false)
    ensures Reaches(s, [Land], m) && Reaches(m, [PostError(false)], t)
    ensures t.hist == [Version(0, multiset{}, 0), Version(1, multiset{A}, 1)] && t.flight.Idle?
    ensures t.buf == Buf([Batch(2, true, Some(1), [A])], 1, 3, None, [], Some(1), {1})
    ensures t.log == s.log && t.base == s.base && t.served == s.served && t.tail == s.tail && t.pk == s.pk
    ensures t.nextSnap == 2 && t.spans == [] && t.liveLo == 0
  {
    m := DoLand(s);
    ReachesOne(s, Land);
    t := DoMergeBack(m);
    BackRow(m.buf);
    ReachesOne(m, PostError(false));
  }

  lemma BackRow(b: Buf)
    requires b == Buf([], 0, 2, None, [Gen(Snapshot(1), [GenBatch(Some(1), [A])], map[], 0, false)], Some(1), {1})
    ensures MoveBack(b, 1) == Buf([Batch(2, true, Some(1), [A])], 1, 3, None, [], Some(1), {1})
  {
    var g := b.flushed[0];
    assert GenPosition(b.flushed, 1) == 0;
    assert GenRowCount(g.batches) == 1 by { assert g.batches[..0] == []; }
    assert Reborn(g.batches, 2) == [Batch(2, true, Some(1), [A])];
    assert b.flushed[..0] + b.flushed[1..] == [];
  }

  /** A second row is staged before the next flush, which therefore commits the first one again. */
  lemma SecondFlush(s: State) returns (t: State)
    requires s.hist == [Version(0, multiset{}, 0), Version(1, multiset{A}, 1)] && s.flight.Idle?
    requires s.buf == Buf([Batch(2, true, Some(1), [A])], 1, 3, None, [], Some(1), {1}) && s.pk == []
    requires s.tail.nextSeq == 2 && s.log == [Stmt(1, Insert([[A]]))]
    ensures Reaches(s, [StageStmt(Insert([[B]])), FlushSnapshot, FlushLoad], t)
    ensures t.flight.Loaded? && t.flight.snap.batches == [[A], [B]] && t.flight.snap.keyed == map[]
    ensures t.flight.snap.n == |t.buf.pending| && t.flight.snap.mark == Some(2)
    ensures t.flight.base == 1 && t.hist == s.hist && t.log == [Stmt(1, Insert([[A]])), Stmt(2, Insert([[B]]))]
    ensures t.base == s.base
  {
    StageOne(s.buf, B, 2);
    var s1 := DoStage(s, Insert([[B]]));
    var s2 := DoSnapshot(s1);
    assert RowsOf(s1.buf.pending) == [[A], [B]];
    t := DoLoad(s2);
    ReachesOne(s, StageStmt(Insert([[B]])));
    ReachesOne(s1, FlushSnapshot);
    ReachesOne(s2, FlushLoad);
    ReachesThree(s, StageStmt(Insert([[B]])), s1, FlushSnapshot, s2, FlushLoad, t);
  }

  lemma TwoBatches(a: Row, b: Row)
    ensures Bag([[a], [b]]) == multiset{a, b}
  {
    OneBatch(a);
    FlattenSnoc([[a]], [b]);
    assert [[a]] + [[b]] == [[a], [b]];
  }

  lemma DoubledCommit(s: State)
    requires s.hist == [Version(0, multiset{}, 0), Version(1, multiset{A}, 1)]
    requires s.flight.Loaded? && s.flight.snap.batches == [[A], [B]] && s.flight.snap.keyed == map[]
    requires s.flight.snap.n == |s.buf.pending| && s.flight.snap.mark == Some(2) && s.flight.base == 1
    ensures Enabled(s, Prepare) && DoPrepare(s).flight.next.rows[A] == 2 && DoPrepare(s).flight.base == 1
    ensures DoPrepare(s).flight.Posted? && !DoPrepare(s).flight.landed && DoPrepare(s).hist == s.hist
  {
    TwoBatches(A, B);
    var l := SnapLayer(s.flight.snap);
    assert Without(Bag(l.batches), l.ops.Keys)[A] == 1;
  }

  lemma LoggedTwice(log: seq<Stmt>)
    requires log == [Stmt(1, Insert([[A]])), Stmt(2, Insert([[B]]))]
    ensures Fold(multiset{}, log)[A] == 1
  {
    OneBatch(A);
    OneBatch(B);
    FoldSnoc(multiset{}, [], Stmt(1, Insert([[A]])));
    FoldSnoc(multiset{}, [] + [Stmt(1, Insert([[A]]))], Stmt(2, Insert([[B]])));
    assert log == ([] + [Stmt(1, Insert([[A]]))]) + [Stmt(2, Insert([[B]]))];
  }

  /** Without H3 the code commits a row twice: the generation lands, its post errors, the reload
      fails, and before the next flush another statement raises the mark above the watermark. */
  lemma PartialCoverCommitsTwice() returns (steps: seq<Step>, t: State)
    ensures Reaches(Start(false, multiset{}), steps, t)
    ensures |t.hist| == 3 && t.hist[2].rows[A] == 2 && Logical(t)[A] == 1
  {
    var first, s1 := RowLoaded();
    var s2 := LandedAndBack(s1);
    var s3 := SecondFlush(s2);
    t := CommitTwice(s3);
    LoggedTwice(t.log);
    steps := first + [Prepare, Land, PostError(false)] + [StageStmt(Insert([[B]])), FlushSnapshot, FlushLoad] + [Prepare, Land];
    ReachesFour(Start(false, multiset{}), first, s1, [Prepare, Land, PostError(false)], s2,
                [StageStmt(Insert([[B]])), FlushSnapshot, FlushLoad], s3, [Prepare, Land], t);
  }

  lemma CommitTwice(s: State) returns (t: State)
    requires s.hist == [Version(0, multiset{}, 0), Version(1, multiset{A}, 1)]
    requires s.flight.Loaded? && s.flight.snap.batches == [[A], [B]] && s.flight.snap.keyed == map[]
    requires s.flight.snap.n == |s.buf.pending| && s.flight.snap.mark == Some(2) && s.flight.base == 1
    ensures Reaches(s, [Prepare, Land], t)
    ensures |t.hist| == 3 && t.hist[2].rows[A] == 2 && t.log == s.log && t.base == s.base
  {
    DoubledCommit(s);
    var m := DoPrepare(s);
    t := DoLand(m);
    ReachesOne(s, Prepare);
    ReachesOne(m, Land);
    ReachesOn(s, [Prepare], m, [Land], t);
    assert [Prepare] + [Land] == [Prepare, Land];
  }

  // ---- H1 and H2, on the window: what a run of transitions loses ----------------------------------------------

  const ONE_DELETE: map<Key, Entry> := map[1 := Entry(1, Delete, Some(1))]

  /** The window of one acknowledged keyed DELETE, snapshotted, and the same once tagged as flushed. */
  const HELD := Buf([], 0, 1, Some(KeyedState(["id"], ONE_DELETE, 2, 2)), [], Some(1), {})
  const GONE := Buf([], 0, 1, Some(KeyedState(["id"], map[], 2, 2)),
                    [Gen(Snapshot(7), [], ONE_DELETE, 0, false)], Some(1), {})

  lemma HeldGone()
    ensures MoveToFlushed(HELD, 0, Entries(HELD), Snapshot(7), 0) == GONE
  {
    assert Drained(ONE_DELETE, ONE_DELETE) == map[];
    assert ToGen([]) == [];
  }

  /** H1. A generation owning a delete of the key is posted; an INSERT of the key is staged meanwhile
      and is a plain append, the map being drained; the post loses and the generation goes back. The
      newer row is then hidden by the older delete. */
  lemma MergeBackHidesNewerInsert(c: Table)
    ensures MoveToFlushed(HELD, 0, Entries(HELD), Snapshot(7), 0) == GONE
    ensures var more := Append(GONE, [[A]], Some(2), None).buf;
            && Apply(Apply(c, GenLayer(GONE.flushed[0])), Live(more))[A] == 1
            && Apply(c, Live(MoveBack(more, 7)))[A] == 0
  {
    HeldGone();
    var more := Append(GONE, [[A]], Some(2), None).buf;
    PushOnly(GONE, A, 2);
    var back := MoveBack(more, 7);
    assert Entries(back) == ONE_DELETE;
    OneBatch(A);
    assert RowsOf(more.pending) == [[A]];
  }

  lemma PushOnly(b: Buf, r: Row, sq: nat)
    requires Entries(b) == map[]
    ensures var b' := Append(b, [[r]], Some(sq), None).buf;
            b'.pending == b.pending + [Batch(b.nextId, false, Some(sq), [r])] && b'.keyed == b.keyed && b'.flushed == b.flushed
  {
    var b0 := Stage(b, Some(sq));
    assert [[r]][..0] == [];
    assert PushBatches(Acc(b0, NOTHING), [], Some(sq)) == Acc(b0, NOTHING);
    assert PushBatches(Acc(b0, NOTHING), [[r]], Some(sq)) == Push(Acc(b0, NOTHING), [r], Some(sq));
  }

  const UNDO_OVER := Routed([], [RoutedKey(1, 2, None)])

  /** The same window with a keyed UPDATE of the key staged over the in-flight generation. */
  const OVER := Buf([], 0, 1, Some(KeyedState(["id"], map[1 := Entry(2, Upsert(5), Some(2))], 3, 2)),
                    [Gen(Snapshot(7), [], ONE_DELETE, 0, false)], Some(2), {2})

  lemma StagedOver()
    ensures !PkChanged(GONE, ["id"])
    ensures KeyedWrite(GONE, ["id"], 1, Upsert(5), Some(2), None) == Acc(OVER, UNDO_OVER)
  {
    var m: map<Key, Entry> := map[];
    assert m[1 := Entry(2, Upsert(5), Some(2))] == map[1 := Entry(2, Upsert(5), Some(2))];
  }

  lemma BackOver()
    ensures MoveBack(OVER, 7) == OVER.(flushed := [])
  {
    assert GenPosition(OVER.flushed, 7) == 0;
    assert ONE_DELETE + Entries(OVER) == Entries(OVER);
    assert Reborn([], 1) + [] == [];
    assert OVER.flushed[..0] + OVER.flushed[1..] == [];
  }

  lemma UndoneOver()
    ensures !Claimed(OVER.(flushed := []), UNDO_OVER)
    ensures Live(Unroute(OVER.(flushed := []), 2, UNDO_OVER)) == Layer([], map[])
  {
    assert IdSet(UNDO_OVER.ids) == {};
    assert UNDO_OVER.keyed[..0] == [];
    assert RestoreKeys(Entries(OVER), UNDO_OVER.keyed) == RestoreKey(Entries(OVER), UNDO_OVER.keyed[0]);
    assert Entries(OVER) - {1} == map[];
    assert RowsOf([]) == [];
  }

  /** A statement staged while the key's acknowledged DELETE was in flight displaced nothing. After
      the merge-back the live entry wins over the generation's, and undoing it takes the key with it:
      the acknowledged DELETE is lost and the committed row is back. */
  lemma UndoAfterMergeBackLoses(c: Table)
    ensures KeyedWrite(GONE, ["id"], 1, Upsert(5), Some(2), None) == Acc(OVER, UNDO_OVER)
    ensures Apply(Apply(c, GenLayer(GONE.flushed[0])), Live(GONE))[A] == 0
    ensures Apply(c, Live(Unroute(MoveBack(OVER, 7), 2, UNDO_OVER)))[A] == c[A]
  {
    StagedOver();
    BackOver();
    UndoneOver();
    assert RowsOf([]) == [];
  }

  // ---- H2: the same key twice in one statement -------------------------------------------------------------

  const TWICE: seq<Row> := [Row(1, 5), Row(1, 6)]

  lemma TwiceHits()
    ensures Hits(TWICE, {1}) == TWICE && Suppress(TWICE, {1}) == []
  {
    assert TWICE[..1] == [Row(1, 5)] && TWICE[..1][..0] == [];
    assert Hits(TWICE[..1], {1}) == [Row(1, 5)] && Suppress(TWICE[..1], {1}) == [];
  }

  lemma TwiceSuperseded()
    ensures var a := SupersedeRows(Acc(HELD, NOTHING), TWICE, Some(2));
            && Entries(a.buf) == map[1 := Entry(3, Upsert(6), Some(2))]
            && a.routed.keyed == [RoutedKey(1, 2, Some(Entry(1, Delete, Some(1)))),
                                  RoutedKey(1, 3, Some(Entry(2, Upsert(5), Some(2))))]
  {
    var acc := Acc(HELD, NOTHING);
    assert TWICE[..1] == [Row(1, 5)] && TWICE[..1][..0] == [];
    assert SupersedeRows(acc, [], Some(2)) == acc;
    assert SupersedeRows(acc, TWICE[..1], Some(2)) == Supersede(acc, 1, Upsert(5), Some(2));
  }

  lemma TwiceRestored(now: map<Key, Entry>, recs: seq<RoutedKey>)
    requires now == map[1 := Entry(3, Upsert(6), Some(2))]
    requires recs == [RoutedKey(1, 2, Some(Entry(1, Delete, Some(1)))), RoutedKey(1, 3, Some(Entry(2, Upsert(5), Some(2))))]
    ensures RestoreKeys(now, recs) == map[1 := Entry(2, Upsert(5), Some(2))]
  {
    assert recs[..1] == [recs[0]] && recs[..1][..0] == [];
    assert RestoreKeys(now, recs[..1]) == now;
  }

  /** One statement brings two rows of a key with a buffered delete; undone, it leaves its own
      first row behind. */
  lemma UndoTwiceHitKeepsOwnRow()
    ensures var a := RouteBatch(Acc(HELD, NOTHING), TWICE, Some(2));
            Entries(Retract(a.buf, a.routed)) == map[1 := Entry(2, Upsert(5), Some(2))]
  {
    TwiceHits();
    TwiceSuperseded();
    assert Entries(HELD).Keys == {1};
    var a := SupersedeRows(Acc(HELD, NOTHING), TWICE, Some(2));
    TwiceRestored(Entries(a.buf), a.routed.keyed);
    UndoEntries(a.buf, a.routed);
  }

  // ---- H2, the runs: an undo that another statement has spoilt --------------------------------------------

  const N := Row(1, 20)
  const REMOVED := map[1 := Entry(1, Delete, Some(1))]
  const RETAKEN := map[1 := Entry(2, Upsert(20), Some(2))]

  /** A DELETE of the committed row, and then an INSERT of the key over it. */
  const BUF_REMOVED := Buf([], 0, 1, Some(KeyedState([], REMOVED, 2, 1)), [], Some(1), {1})
  const BUF_RETAKEN := Buf([], 0, 1, Some(KeyedState([], RETAKEN, 3, 1)), [], Some(2), {1, 2})
  const UNDO_DELETE := Routed([], [RoutedKey(1, 1, None)])
  const UNDO_INSERT := Routed([], [RoutedKey(1, 2, Some(Entry(1, Delete, Some(1))))])

  lemma Removes()
    ensures RouteStmt(EMPTY, [], Del(1), Some(1), None) == Acc(BUF_REMOVED, UNDO_DELETE)
  {
    var m: map<Key, Entry> := map[];
    assert m[1 := Entry(1, Delete, Some(1))] == REMOVED;
    assert RouteStmt(EMPTY, [], Del(1), Some(1), None).routed.keyed == UNDO_DELETE.keyed;
  }

  lemma RetakesBatch(a: Acc)
    requires a.buf == BUF_REMOVED.(tailHigh := Some(2), undurable := {1, 2}) && a.routed == NOTHING
    ensures RouteBatch(a, [N], Some(2)) == Acc(BUF_RETAKEN, UNDO_INSERT)
  {
    assert [N][..0] == [];
    assert Hits([N], {1}) == [] + [N] && Suppress([N], {1}) == [];
    assert Entries(a.buf).Keys == {1};
    assert SupersedeRows(a, [], Some(2)) == a;
    assert REMOVED[1 := Entry(2, Upsert(20), Some(2))] == RETAKEN;
    assert SupersedeRows(a, [N], Some(2)) == Supersede(a, 1, Upsert(20), Some(2));
    assert Supersede(a, 1, Upsert(20), Some(2)).routed.keyed == UNDO_INSERT.keyed;
  }

  lemma Retakes()
    ensures RouteStmt(BUF_REMOVED, [], Insert([[N]]), Some(2), None) == Acc(BUF_RETAKEN, UNDO_INSERT)
  {
    var a := Acc(Stage(BUF_REMOVED, Some(2)), NOTHING);
    assert a.buf.undurable == {1, 2};
    RetakesBatch(a);
    assert [[N]][..0] == [];
    assert RouteBatches(a, [], Some(2)) == a;
    assert RouteBatches(a, [[N]], Some(2)) == RouteBatch(a, [N], Some(2));
    assert Entries(a.buf) == REMOVED && 1 in REMOVED;
  }

  /** Both statements staged, neither wait over. */
  lemma DeleteThenInsert() returns (s: State)
    ensures Reaches(Start(true, multiset{A}), [StageStmt(Del(1)), StageStmt(Insert([[N]]))], s)
    ensures s.buf == BUF_RETAKEN && s.hist == [Version(0, multiset{A}, 0)] && s.base == multiset{A}
    ensures s.log == [Stmt(1, Del(1)), Stmt(2, Insert([[N]]))]
    ensures s.waiting.Keys == {1, 2} && s.waiting[1].routed == UNDO_DELETE && s.waiting[2].routed == UNDO_INSERT
  {
    var s0 := Start(true, multiset{A});
    Removes();
    var s1 := DoStage(s0, Del(1));
    ReachesOne(s0, StageStmt(Del(1)));
    assert s1.buf == BUF_REMOVED && s1.waiting.Keys == {1} && s1.waiting[1].routed == UNDO_DELETE;
    Retakes();
    s := DoStage(s1, Insert([[N]]));
    ReachesOne(s1, StageStmt(Insert([[N]])));
    ReachesOn(s0, [StageStmt(Del(1))], s1, [StageStmt(Insert([[N]]))], s);
    assert [StageStmt(Del(1))] + [StageStmt(Insert([[N]]))] == [StageStmt(Del(1)), StageStmt(Insert([[N]]))];
  }

  lemma NotClaimed(b: Buf, rk: RoutedKey)
    requires b.keyed.Some? && b.keyed.value.claimedBelow <= rk.stamp && rk.key in Entries(b)
    ensures !Claimed(b, Routed([], [rk]))
  {
    assert IdSet([]) == {};
    NoneCounted(b.pending);
  }

  lemma {:induction false} NoneCounted(pending: seq<Batch>)
    ensures UnclaimedCount(pending, {}) == 0
  {
    if |pending| > 0 { NoneCounted(pending[..|pending| - 1]); }
  }

  lemma RetractOne(b: Buf, rk: RoutedKey)
    ensures Entries(Retract(b, Routed([], [rk]))) == RestoreKey(Entries(b), rk)
    ensures Retract(b, Routed([], [rk])).pending == b.pending && Retract(b, Routed([], [rk])).flushed == b.flushed
    ensures Retract(b, Routed([], [rk])).keyed.Some? == b.keyed.Some?
    ensures b.keyed.Some? ==> Retract(b, Routed([], [rk])).keyed.value == b.keyed.value.(entries := RestoreKey(Entries(b), rk))
  {
    UndoEntries(b, Routed([], [rk]));
    assert IdSet([]) == {};
    DropNone(b.pending, {});
    assert [rk][..0] == [];
    assert RestoreKeys(Entries(b), [rk]) == RestoreKey(RestoreKeys(Entries(b), []), rk);
  }

  /** The DELETE fails first: its entry is no longer the current one, and stays overwritten. */
  lemma DeleteFails(s: State) returns (t: State)
    requires s.buf.keyed == BUF_RETAKEN.keyed && s.buf.pending == [] && s.buf.flushed == []
    requires |s.hist| > 0 && 1 in s.waiting && s.waiting[1].routed == UNDO_DELETE
    ensures Reaches(s, [FailWait(1)], t)
    ensures t.buf.keyed == s.buf.keyed && t.buf.pending == [] && t.buf.flushed == []
    ensures t.hist == s.hist && t.base == s.base && t.log == Minus(s.log, {1})
    ensures t.waiting.Keys == s.waiting.Keys - {1} && forall q :: q in t.waiting ==> t.waiting[q].routed == s.waiting[q].routed
  {
    NotClaimed(s.buf, UNDO_DELETE.keyed[0]);
    RetractOne(s.buf, UNDO_DELETE.keyed[0]);
    t := DoFail(s, 1);
    ReachesOne(s, FailWait(1));
  }

  lemma TwoLogged(gone: nat)
    requires gone == 1 || gone == 2
    ensures Minus([Stmt(1, Del(1)), Stmt(2, Insert([[N]]))], {gone})
         == if gone == 1 then [Stmt(2, Insert([[N]]))] else [Stmt(1, Del(1))]
    ensures Minus([Stmt(2, Insert([[N]]))], {2}) == []
  {
    var log := [Stmt(1, Del(1)), Stmt(2, Insert([[N]]))];
    assert log[..1] == [Stmt(1, Del(1))] && log[..1][..0] == [];
    assert Minus(log[..1], {gone}) == if gone == 1 then [] else [] + [Stmt(1, Del(1))];
    assert [Stmt(2, Insert([[N]]))][..0] == [];
  }

  lemma MapDecides(s: State, r: Row)
    requires |s.hist| > 0 && s.buf.flushed == [] && s.buf.pending == [] && r.key in Entries(s.buf)
    ensures ScanResult(s, 0)[r] == if Entries(s.buf)[r.key].kind == Upsert(r.val) then 1 else 0
  {
    NoGenerations(s, 0);
  }

  lemma InsertedOverOld()
    ensures Fold(multiset{A}, [Stmt(2, Insert([[N]]))])[A] == 1
    ensures Fold(multiset{A}, [])[A] == 1
  {
    OneBatch(N);
    FoldSnoc(multiset{A}, [], Stmt(2, Insert([[N]])));
    assert [] + [Stmt(2, Insert([[N]]))] == [Stmt(2, Insert([[N]]))];
  }

  /** Without H2, first: an INSERT is staged over a DELETE still waiting, and acknowledged; the DELETE
      fails. The log is the INSERT alone, but the row the DELETE removed does not come back. */
  lemma UndoneDeleteStaysHidden() returns (steps: seq<Step>, t: State)
    ensures Reaches(Start(true, multiset{A}), steps, t)
    ensures t.log == [Stmt(2, Insert([[N]]))] && Logical(t)[A] == 1 && |t.hist| > 0 && ScanResult(t, 0)[A] == 0
  {
    var s1 := DeleteThenInsert();
    var s2 := DoAck(s1, 2);
    ReachesOne(s1, Ack(2));
    t := DeleteFails(s2);
    TwoLogged(1);
    InsertedOverOld();
    MapDecides(t, A);
    ReachesThreeOn([StageStmt(Del(1)), StageStmt(Insert([[N]]))], s1, Ack(2), s2, FailWait(1), t);
    steps := [StageStmt(Del(1)), StageStmt(Insert([[N]]))] + [Ack(2)] + [FailWait(1)];
  }

  lemma ReachesThreeOn(first: seq<Step>, s1: State, b: Step, s2: State, c: Step, t: State)
    requires Reaches(Start(true, multiset{A}), first, s1) && Reaches(s1, [b], s2) && Reaches(s2, [c], t)
    ensures Reaches(Start(true, multiset{A}), first + [b] + [c], t)
  {
    ReachesOn(Start(true, multiset{A}), first, s1, [b], s2);
    ReachesOn(Start(true, multiset{A}), first + [b], s2, [c], t);
  }

  /** Without H2, second: both waits fail, the older first. The INSERT's undo puts the failed DELETE's
      entry back: nothing is logged, and the committed row is hidden. */
  lemma TwoUndosRevive() returns (steps: seq<Step>, t: State)
    ensures Reaches(Start(true, multiset{A}), steps, t)
    ensures t.log == [] && Logical(t)[A] == 1 && |t.hist| > 0 && ScanResult(t, 0)[A] == 0
  {
    var s1 := DeleteThenInsert();
    var s2 := DeleteFails(s1);
    TwoLogged(1);
    t := InsertFails(s2);
    InsertedOverOld();
    MapDecides(t, A);
    ReachesThreeOn([StageStmt(Del(1)), StageStmt(Insert([[N]]))], s1, FailWait(1), s2, FailWait(2), t);
    steps := [StageStmt(Del(1)), StageStmt(Insert([[N]]))] + [FailWait(1)] + [FailWait(2)];
  }

  lemma InsertFails(s: State) returns (t: State)
    requires s.buf.keyed == BUF_RETAKEN.keyed && s.buf.pending == [] && s.buf.flushed == []
    requires |s.hist| > 0 && 2 in s.waiting && s.waiting[2].routed == UNDO_INSERT
    ensures Reaches(s, [FailWait(2)], t)
    ensures t.buf.pending == [] && t.buf.flushed == [] && Entries(t.buf) == REMOVED
    ensures t.hist == s.hist && t.base == s.base && t.log == Minus(s.log, {2})
  {
    NotClaimed(s.buf, UNDO_INSERT.keyed[0]);
    RetractOne(s.buf, UNDO_INSERT.keyed[0]);
    assert RETAKEN[1 := Entry(1, Delete, Some(1))] == REMOVED;
    t := DoFail(s, 2);
    ReachesOne(s, FailWait(2));
  }

  // ---- H5, the run: a commit that leaves no trace in the tail ------------------------------------------------

  /** The row's own frame is unresolved when its commit lands; the record of the watermark fails. */
  lemma UntracedCommit() returns (steps: seq<Step>, s: State)
    ensures Reaches(Start(false, multiset{}), steps, s)
    ensures s.hist == [Version(0, multiset{}, 0), Version(1, multiset{A}, 1)] && s.base == multiset{} && s.pk == []
    ensures s.tail == Tail([Stmt(1, Insert([[A]]))], 0, 2) && s.waiting.Keys == {1} && s.log == [Stmt(1, Insert([[A]]))]
    ensures s.flight.Idle?
  {
    var first, s1 := RowLoaded();
    PreparedRow(s1);
    var s2 := DoPrepare(s1);
    ReachesOne(s1, Prepare);
    ReachesOn(Start(false, multiset{}), first, s1, [Prepare], s2);
    var more := LandsUnrecorded(s2);
    s := more;
    ReachesOn(Start(false, multiset{}), first + [Prepare], s2, [Land, Committed, RecordWatermark(false)], s);
    steps := first + [Prepare] + [Land, Committed, RecordWatermark(false)];
  }

  lemma LandsUnrecorded(s: State) returns (t: State)
    requires s.hist == [Version(0, multiset{}, 0)] && s.flight == Posted(Version(1, multiset{A}, 1), 1, 0, false)
    ensures Reaches(s, [Land, Committed, RecordWatermark(false)], t)
    ensures t == s.(hist := [Version(0, multiset{}, 0), Version(1, multiset{A}, 1)], flight := Idle)
  {
    var s1 := DoLand(s);
    ReachesOne(s, Land);
    var s2 := Do(s1, Committed);
    ReachesOne(s1, Committed);
    t := Do(s2, RecordWatermark(false));
    ReachesOne(s2, RecordWatermark(false));
    ReachesThree(s, Land, s1, Committed, s2, RecordWatermark(false), t);
  }

  /** The crash loses the frame; the tail knows nothing of the table and numbers from one again. */
  lemma RebootsAtOne(s: State) returns (t: State)
    requires s.hist == [Version(0, multiset{}, 0), Version(1, multiset{A}, 1)]
    requires s.tail == Tail([Stmt(1, Insert([[A]]))], 0, 2) && s.waiting.Keys == {1} && s.log == [Stmt(1, Insert([[A]]))]
    ensures Reaches(s, [Crash({1})], t)
    ensures t.hist == s.hist && t.tail == Tail([], 0, 1) && t.buf == EMPTY && t.log == s.log && t.waiting == map[]
    ensures t.base == s.base && t.pk == s.pk && t.failed == {}
  {
    ReachesOne(s, Crash({1}));
    t := DoCrash(s, {1});
    assert s.tail.frames[..0] == [];
    assert Minus(s.tail.frames, {1}) == [];
    assert Above([], 1) == [] && Upto(s.log, 1) == s.log;
    assert s.log + [] == s.log;
  }

  /** A second row is acknowledged under the reused number ... */
  lemma NumberReused(s: State) returns (m: State)
    requires s.tail == Tail([], 0, 1) && s.buf == EMPTY && s.waiting == map[] && s.failed == {} && s.pk == [] && |s.hist| > 0
    ensures Reaches(s, [StageStmt(Insert([[B]])), Ack(1)], m)
    ensures m.hist == s.hist && m.log == s.log + [Stmt(1, Insert([[B]]))] && m.waiting == map[] && m.failed == {}
    ensures m.tail == Tail([Stmt(1, Insert([[B]]))], 0, 2) && m.pk == s.pk
  {
    StageOne(EMPTY, B, 1);
    var s1 := DoStage(s, Insert([[B]]));
    ReachesOne(s, StageStmt(Insert([[B]])));
    assert s1.tail.frames == [Stmt(1, Insert([[B]]))];
    assert s1.waiting.Keys == {1};
    m := DoAck(s1, 1);
    ReachesOne(s1, Ack(1));
    ReachesOn(s, [StageStmt(Insert([[B]]))], s1, [Ack(1)], m);
    assert [StageStmt(Insert([[B]]))] + [Ack(1)] == [StageStmt(Insert([[B]])), Ack(1)];
    assert m.waiting == map[];
  }

  /** ... and the next boot takes it for committed. */
  lemma DroppedAsCovered(s: State) returns (t: State)
    requires s.hist == [Version(0, multiset{}, 0), Version(1, multiset{A}, 1)]
    requires s.tail == Tail([Stmt(1, Insert([[B]]))], 0, 2)
    ensures Reaches(s, [Crash({})], t) && t.hist == s.hist && t.buf == EMPTY
  {
    var frames := s.tail.frames;
    assert frames[..0] == [];
    assert Minus(frames, {}) == [] + [Stmt(1, Insert([[B]]))];
    assert Above(Minus(frames, {}), 1) == [];
    ReachesOne(s, Crash({}));
    t := DoCrash(s, {});
  }

  lemma EmptyRead(s: State, v: nat)
    requires v < |s.hist| && s.buf == EMPTY
    ensures ScanResult(s, v) == s.hist[v].rows
  {
    NoGenerations(s, v);
    EmptyLive(s.hist[v].rows);
  }

  lemma RebootThenReuse(s: State) returns (m: State)
    requires s.hist == [Version(0, multiset{}, 0), Version(1, multiset{A}, 1)] && s.pk == []
    requires s.tail == Tail([Stmt(1, Insert([[A]]))], 0, 2) && s.waiting.Keys == {1} && s.log == [Stmt(1, Insert([[A]]))]
    ensures Reaches(s, [Crash({1})] + [StageStmt(Insert([[B]])), Ack(1)], m)
    ensures m.hist == s.hist && m.tail == Tail([Stmt(1, Insert([[B]]))], 0, 2) && Acked(m, Stmt(1, Insert([[B]])))
  {
    var s1 := RebootsAtOne(s);
    m := NumberReused(s1);
    ReachesOn(s, [Crash({1})], s1, [StageStmt(Insert([[B]])), Ack(1)], m);
    assert Stmt(1, Insert([[B]])) in m.log;
  }

  /** Without the trace: a commit lands whose only frame is unresolved, and its watermark record fails;
      a crash loses the frame, numbering restarts, a new row is acknowledged under the old number, and
      the next boot drops it as covered: no scan has it. */
  lemma UntracedCommitLosesRow() returns (steps: seq<Step>, m: State, t: State)
    ensures Reaches(Start(false, multiset{}), steps, m) && Acked(m, Stmt(1, Insert([[B]])))
    ensures Reaches(m, [Crash({})], t) && |t.hist| == 2 && t.buf == EMPTY
    ensures ScanResult(t, 0)[B] == 0 && ScanResult(t, 1)[B] == 0
  {
    var first, s1 := UntracedCommit();
    m := RebootThenReuse(s1);
    ReachesOn(Start(false, multiset{}), first, s1, [Crash({1})] + [StageStmt(Insert([[B]])), Ack(1)], m);
    steps := first + ([Crash({1})] + [StageStmt(Insert([[B]])), Ack(1)]);
    t := DroppedAsCovered(m);
    EmptyRead(t, 0);
    EmptyRead(t, 1);
  }
}
