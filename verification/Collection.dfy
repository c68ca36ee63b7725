/** Collecting old generations: when exactly a scan in progress sees no difference, and that the code's
    age test is enough exactly when the age exceeds the lag and the longest scan together. */
module Collection {
  import opened Rows
  import opened Window
  import opened Layers
  import opened Log
  import opened Engine
  import opened Invariants
  import opened CatalogSteps
  import opened SettleSteps
  import opened Refinement
  import opened Paths
  import opened Hypotheses

  // ---- one collection -------------------------------------------------------------------------------------

  /** Layers hide the difference between two tables exactly when they differ on their keys only. */
  lemma {:induction false} SameUnderAllIff(c: Table, d: Table, layers: seq<Layer>)
    ensures ApplyAll(c, layers) == ApplyAll(d, layers) <==> forall r: Row :: r.key !in AllKeys(layers) ==> c[r] == d[r]
    decreases |layers|
  {
    if |layers| == 0 {
      if forall r: Row :: c[r] == d[r] { SameTable(c, d); }
    } else {
      SameUnderAllIff(Apply(c, layers[0]), Apply(d, layers[0]), layers[1..]);
    }
  }

  /** The layers a collection leaves: the younger generations and the live window. */
  function LeftLayers(s: State): seq<Layer> {
    var k := ExpiredCount(s.buf.flushed, s.clock, s.gcAge);
    GenLayers(if k <= |s.buf.flushed| then s.buf.flushed[k..] else []) + [Live(s.buf)]
  }

  /** The table below the layers a collection leaves. */
  ghost function BelowLeft(s: State): Table {
    At(s.base, s.log, Lo(s.spans, s.liveLo, ExpiredCount(s.buf.flushed, s.clock, s.gcAge)))
  }

  lemma CollectedShape(s: State)
    requires Inv(s)
    ensures var k := ExpiredCount(s.buf.flushed, s.clock, s.gcAge);
            k <= |s.buf.flushed| && DoCollect(s).buf == s.buf.(flushed := s.buf.flushed[k..])
  {
    ExpiredPrefix(s.buf.flushed, s.clock, s.gcAge);
  }

  lemma LogicalOverLeft(s: State)
    requires Inv(s)
    ensures ApplyAll(BelowLeft(s), LeftLayers(s)) == Logical(s)
  {
    var k := ExpiredCount(s.buf.flushed, s.clock, s.gcAge);
    CollectedShape(s);
    assert s.buf.flushed[k..k] == [];
    ChainApplies(s.spans, s.liveLo, s.buf.flushed, s.base, s.log, k, k);
    ApplyAllSnoc(BelowLeft(s), GenLayers(s.buf.flushed[k..]), Live(s.buf));
  }

  /** A version without all of what is collected reads its own rows under what is left. */
  lemma BareRead(s: State, v: nat, j: nat)
    requires Inv(s) && v < |s.hist| && FirstUnseen(s.hist, s.buf.flushed, v, j)
    requires j < ExpiredCount(s.buf.flushed, s.clock, s.gcAge)
    ensures ScanResult(DoCollect(s), v) == ApplyAll(s.hist[v].rows, LeftLayers(s))
  {
    var k := ExpiredCount(s.buf.flushed, s.clock, s.gcAge);
    CollectedShape(s);
    var left := s.buf.flushed[k..];
    forall i | 0 <= i < |left| ensures !Seen(s.hist, v)(left[i].commit) {
      SeenSplits(s, v, j, k + i);
      assert left[i] == s.buf.flushed[k + i];
    }
    UnseenSuffix(left, Seen(s.hist, v), 0);
    assert left[0..] == left;
    assert Live(DoCollect(s).buf) == Live(s.buf);
    OverlayRefinesSequential(s.hist[v].rows, LeftLayers(s));
  }

  /** A version that holds all of what is collected reads as before. */
  lemma FullRead(s: State, v: nat, j: nat)
    requires Inv(s) && v < |s.hist| && FirstUnseen(s.hist, s.buf.flushed, v, j)
    requires j >= ExpiredCount(s.buf.flushed, s.clock, s.gcAge)
    ensures ScanResult(DoCollect(s), v) == ScanResult(s, v)
  {
    var k := ExpiredCount(s.buf.flushed, s.clock, s.gcAge);
    CollectedShape(s);
    forall i | 0 <= i < |s.buf.flushed| ensures Seen(s.hist, v)(s.buf.flushed[i].commit) <==> i < j { SeenSplits(s, v, j, i); }
    UnseenLeft(s.buf.flushed, Seen(s.hist, v), j, k);
    SameLayers(s.buf, DoCollect(s).buf, Seen(s.hist, v));
  }

  lemma UnseenLeft(flushed: seq<Gen>, isCommitted: GenCommit -> bool, j: nat, k: nat)
    requires k <= j <= |flushed| && forall i :: 0 <= i < |flushed| ==> (isCommitted(flushed[i].commit) <==> i < j)
    ensures Unseen(flushed[k..], isCommitted) == Unseen(flushed, isCommitted)
  {
    var left := flushed[k..];
    forall i | 0 <= i < |left| ensures isCommitted(left[i].commit) <==> i < j - k {
      assert left[i] == flushed[k + i];
    }
    UnseenSuffix(flushed, isCommitted, j);
    UnseenSuffix(left, isCommitted, j - k);
    assert left[j - k..] == flushed[j..];
  }

  lemma SameLayers(b: Buf, b': Buf, isCommitted: GenCommit -> bool)
    requires b' == b.(flushed := b'.flushed) && Unseen(b'.flushed, isCommitted) == Unseen(b.flushed, isCommitted)
    ensures VisibleLayers(b', isCommitted) == VisibleLayers(b, isCommitted)
  {
    assert Live(b') == Live(b);
  }

  /** A scan sees a collection exactly when its metadata lacks some of what is collected and its rows
      differ from the table below what is left at a key no keyed operation left names. */
  lemma CollectSeenIff(s: State, v: nat)
    requires Inv(s) && Servable(s.hist, s.served, s.scans, v) && s.hist[v].wm <= s.liveLo
    ensures ScanResult(DoCollect(s), v) == ScanResult(s, v)
       <==> || SeenCount(s.hist, v, s.buf.flushed) >= ExpiredCount(s.buf.flushed, s.clock, s.gcAge)
            || forall r: Row :: r.key !in AllKeys(LeftLayers(s)) ==> s.hist[v].rows[r] == BelowLeft(s)[r]
  {
    var j := SeenCount(s.hist, v, s.buf.flushed);
    SeenCountFirst(s.hist, v, s.buf.flushed);
    if j >= ExpiredCount(s.buf.flushed, s.clock, s.gcAge) {
      FullRead(s, v, j);
    } else {
      BareRead(s, v, j);
      ViewIsLogical(s, v);
      LogicalOverLeft(s);
      SameUnderAllIff(s.hist[v].rows, BelowLeft(s), LeftLayers(s));
    }
  }

  // ---- the age over whole runs ---------------------------------------------------------------------------------

  /** No scan in progress has been running longer than `longest`. */
  ghost predicate ScansWithin(s: State, longest: nat) {
    forall x :: x in s.scans ==> s.clock <= x.began + longest
  }

  /** The code's steps under their hypotheses; of a collection only this is asked. */
  ghost function Timely(longest: nat): (State, Step, State) -> bool {
    (s, step, t) => && Enabled(s, step) && t == Do(s, step)
                    && if step.Collect? then ScansWithin(s, longest) else Assumed(s, step)
  }

  /** In no run does a collection change what a scan in progress will read. */
  ghost predicate CollectsUnseen(lag: nat, longest: nat, age: nat) {
    forall s0, steps, s, v: nat ::
      && Initial(s0) && s0.lag == lag && s0.gcAge == age && Path(Timely(longest), s0, steps, s)
      && Enabled(s, Collect) && ScansWithin(s, longest) && v < |s.hist| && Scanned(s.scans, v) && s.hist[v].wm <= s.liveLo
      ==> ScanResult(DoCollect(s), v) == ScanResult(s, v)
  }

  lemma WithinYoung(s: State, longest: nat)
    requires ScansWithin(s, longest) && s.lag + longest < s.gcAge
    ensures ScansYoung(s)
  {}

  lemma BoundsStay(s: State, step: Step)
    requires Enabled(s, step)
    ensures Do(s, step).lag == s.lag && Do(s, step).gcAge == s.gcAge
  {}

  lemma TimelyStep(longest: nat, s: State, step: Step, t: State)
    requires Inv(s) && s.lag + longest < s.gcAge && Timely(longest)(s, step, t)
    ensures Inv(t) && t.lag == s.lag && t.gcAge == s.gcAge
  {
    if step.Collect? { WithinYoung(s, longest); }
    StepInv(s, step);
    BoundsStay(s, step);
  }

  lemma {:induction false} TimelyInv(longest: nat, s: State, steps: seq<Step>, t: State)
    requires Inv(s) && s.lag + longest < s.gcAge && Path(Timely(longest), s, steps, t)
    ensures Inv(t) && t.lag == s.lag && t.gcAge == s.gcAge
    decreases |steps|
  {
    if |steps| > 0 {
      var m :| Timely(longest)(s, steps[0], m) && Path(Timely(longest), m, steps[1..], t);
      TimelyStep(longest, s, steps[0], m);
      TimelyInv(longest, m, steps[1..], t);
    }
  }

  lemma CollectUnseen(s: State, v: nat)
    requires Inv(s) && Enabled(s, Collect) && ScansYoung(s)
    requires Servable(s.hist, s.served, s.scans, v) && s.hist[v].wm <= s.liveLo
    ensures ScanResult(DoCollect(s), v) == ScanResult(s, v)
  {
    CollectInv(s);
    ViewIsLogical(s, v);
    ViewIsLogical(DoCollect(s), v);
  }

  lemma OldEnough(lag: nat, longest: nat, age: nat)
    requires lag + longest < age
    ensures CollectsUnseen(lag, longest, age)
  {
    forall s0, steps, s, v: nat |
      && Initial(s0) && s0.lag == lag && s0.gcAge == age && Path(Timely(longest), s0, steps, s)
      && Enabled(s, Collect) && ScansWithin(s, longest) && v < |s.hist| && Scanned(s.scans, v) && s.hist[v].wm <= s.liveLo
      ensures ScanResult(DoCollect(s), v) == ScanResult(s, v)
    {
      InitialInv(s0);
      TimelyInv(longest, s0, steps, s);
      WithinYoung(s, longest);
      CollectUnseen(s, v);
    }
  }

  // ---- a run that loses a row ------------------------------------------------------------------------------------

  lemma TimelyOn(longest: nat, s: State, steps: seq<Step>, m: State, step: Step)
    requires Path(Timely(longest), s, steps, m) && Enabled(m, step) && !step.Collect? && Assumed(m, step)
    ensures Path(Timely(longest), s, steps + [step], Do(m, step))
  {
    PathSnoc(Timely(longest), s, steps, m, step, Do(m, step));
  }

  ghost function Birth(lag: nat, age: nat): State {
    Start(false, multiset{}).(lag := lag, gcAge := age)
  }

  const ONE_ROW := [Stmt(1, Insert([[A]]))]

  /** The row as a generation tagged at time zero, on its way to the catalog. */
  ghost function Tagged(lag: nat, age: nat): State {
    Birth(lag, age).(
      buf := Buf([], 0, 2, None, [Gen(Snapshot(1), [GenBatch(Some(1), [A])], map[], 0, false)], Some(1), {}),
      flight := Posted(Version(1, multiset{A}, 1), 1, 0, false), tail := Tail(ONE_ROW, 0, 2), nextSnap := 2,
      log := ONE_ROW, spans := [Span(0, 1)], liveLo := 1, frozen := 1)
  }

  /** ... acknowledged and loaded by the flusher, just before. */
  ghost function Ready(lag: nat, age: nat): State {
    Birth(lag, age).(
      buf := Buf([Batch(1, true, Some(1), [A])], 1, 2, None, [], Some(1), {}),
      flight := Loaded(Snap([[A]], 1, map[], Some(1)), 0), tail := Tail(ONE_ROW, 0, 2), log := ONE_ROW, frozen := 1)
  }

  lemma RowAcked(lag: nat, age: nat, longest: nat) returns (steps: seq<Step>, s: State)
    ensures Path(Timely(longest), Birth(lag, age), steps, s)
    ensures s == Birth(lag, age).(
      buf := Buf([Batch(1, false, Some(1), [A])], 1, 2, None, [], Some(1), {}), tail := Tail(ONE_ROW, 0, 2), log := ONE_ROW)
  {
    var s0, op := Birth(lag, age), Insert([[A]]);
    StageOne(EMPTY, A, 1);
    OneBatch(A);
    var s1 := DoStage(s0, op);
    assert s1.log == ONE_ROW && s1.tail.frames == ONE_ROW;
    TimelyOn(longest, s0, [], s0, StageStmt(op));
    assert s1.buf == Buf([Batch(1, false, Some(1), [A])], 1, 2, None, [], Some(1), {1}) && s1.waiting.Keys == {1};
    steps, s := RowResolved(lag, age, longest, [] + [StageStmt(op)], s1);
  }

  lemma RowResolved(lag: nat, age: nat, longest: nat, first: seq<Step>, m: State) returns (steps: seq<Step>, s: State)
    requires Path(Timely(longest), Birth(lag, age), first, m) && m.waiting.Keys == {1}
    requires m == Birth(lag, age).(
      buf := Buf([Batch(1, false, Some(1), [A])], 1, 2, None, [], Some(1), {1}), tail := Tail(ONE_ROW, 0, 2), log := ONE_ROW,
      waiting := m.waiting)
    ensures Path(Timely(longest), Birth(lag, age), steps, s)
    ensures s == Birth(lag, age).(
      buf := Buf([Batch(1, false, Some(1), [A])], 1, 2, None, [], Some(1), {}), tail := Tail(ONE_ROW, 0, 2), log := ONE_ROW)
  {
    TimelyOn(longest, Birth(lag, age), first, m, Ack(1));
    s := DoAck(m, 1);
    steps := first + [Ack(1)];
    assert s.waiting == map[];
  }

  lemma RowReady(lag: nat, age: nat, longest: nat) returns (steps: seq<Step>)
    ensures Path(Timely(longest), Birth(lag, age), steps, Ready(lag, age))
  {
    var first, s := RowAcked(lag, age, longest);
    var m := DoSnapshot(s);
    assert m.buf.pending == [Batch(1, true, Some(1), [A])];
    assert RowsOf(s.buf.pending) == [[A]];
    TimelyOn(longest, Birth(lag, age), first, s, FlushSnapshot);
    var t := DoLoad(m);
    assert t.buf == m.buf;
    TimelyOn(longest, Birth(lag, age), first + [FlushSnapshot], m, FlushLoad);
    steps := first + [FlushSnapshot] + [FlushLoad];
    assert t == Ready(lag, age);
  }

  lemma RowTagged(lag: nat, age: nat, longest: nat) returns (steps: seq<Step>)
    ensures Path(Timely(longest), Birth(lag, age), steps, Tagged(lag, age))
  {
    var first := RowReady(lag, age, longest);
    var s := Ready(lag, age);
    ReadyTags(lag, age);
    TimelyOn(longest, Birth(lag, age), first, s, Prepare);
    steps := first + [Prepare];
  }

  lemma ReadyTags(lag: nat, age: nat)
    ensures var s := Ready(lag, age); Enabled(s, Prepare) && Assumed(s, Prepare) && Do(s, Prepare) == Tagged(lag, age)
  {
    var s := Ready(lag, age);
    OneSnap();
    assert s.buf.pending[..1] == s.buf.pending && s.buf.pending[1..] == [];
    assert RowCount(s.buf.pending) == 1 by { assert s.buf.pending[..0] == []; }
    assert ToGen(s.buf.pending) == [GenBatch(Some(1), [A])];
  }

  /** A scan begins on the version before the row, at the end of the lag. */
  ghost function Scanning(lag: nat, age: nat): State {
    Tagged(lag, age).(clock := lag, scans := multiset{Scan(0, lag)})
  }

  lemma RowScanned(lag: nat, age: nat, longest: nat) returns (steps: seq<Step>)
    ensures Path(Timely(longest), Birth(lag, age), steps, Scanning(lag, age))
  {
    var first := RowTagged(lag, age, longest);
    var s, s0 := Tagged(lag, age), Birth(lag, age);
    TimelyOn(longest, s0, first, s, Tick(lag));
    var s1 := Do(s, Tick(lag));
    TimelyOn(longest, s0, first + [Tick(lag)], s1, BeginScan(0));
    steps := first + [Tick(lag)] + [BeginScan(0)];
    assert Do(s1, BeginScan(0)) == Scanning(lag, age);
  }

  /** Then the post lands. */
  ghost function Landed(lag: nat, age: nat): State {
    Scanning(lag, age).(hist := [Version(0, multiset{}, 0), Version(1, multiset{A}, 1)], flight := Idle)
  }

  lemma RowLanded(lag: nat, age: nat, longest: nat) returns (steps: seq<Step>)
    ensures Path(Timely(longest), Birth(lag, age), steps, Landed(lag, age))
  {
    var first := RowScanned(lag, age, longest);
    var s, s0 := Scanning(lag, age), Birth(lag, age);
    assert ONE_ROW[0] in s.tail.frames;
    TimelyOn(longest, s0, first, s, Land);
    var s1 := Do(s, Land);
    steps := first + [Land];
    steps := RowSettled(lag, age, longest, steps, s1);
  }

  lemma RowSettled(lag: nat, age: nat, longest: nat, first: seq<Step>, s: State) returns (steps: seq<Step>)
    requires Path(Timely(longest), Birth(lag, age), first, s)
    requires s == Landed(lag, age).(flight := Posted(Version(1, multiset{A}, 1), 1, 0, true))
    ensures Path(Timely(longest), Birth(lag, age), steps, Landed(lag, age))
  {
    TimelyOn(longest, Birth(lag, age), first, s, Committed);
    var m := Do(s, Committed);
    TimelyOn(longest, Birth(lag, age), first + [Committed], m, RecordWatermark(false));
    steps := first + [Committed] + [RecordWatermark(false)];
    assert Do(m, RecordWatermark(false)) == Landed(lag, age);
  }

  /** Another scan observes the commit, and the first one goes on for as long as a scan may. */
  ghost function Held(lag: nat, age: nat, longest: nat): State {
    var s := Landed(lag, age);
    s.(clock := lag + longest, served := 1,
       buf := s.buf.(flushed := [ROW_GEN]))
  }

  lemma RowHeld(lag: nat, age: nat, longest: nat) returns (steps: seq<Step>)
    ensures Path(Timely(longest), Birth(lag, age), steps, Held(lag, age, longest))
  {
    var first := RowLanded(lag, age, longest);
    var more := RowObserved(lag, age, longest, first);
    var s := Held(lag, age, longest).(clock := lag);
    TimelyOn(longest, Birth(lag, age), more, s, Tick(longest));
    steps := more + [Tick(longest)];
    assert Do(s, Tick(longest)) == Held(lag, age, longest);
  }

  lemma RowObserved(lag: nat, age: nat, longest: nat, first: seq<Step>) returns (steps: seq<Step>)
    requires Path(Timely(longest), Birth(lag, age), first, Landed(lag, age))
    ensures Path(Timely(longest), Birth(lag, age), steps, Held(lag, age, longest).(clock := lag))
  {
    var s, x := Landed(lag, age), Scan(1, lag);
    assert s.hist[1].id == 1;
    TimelyOn(longest, Birth(lag, age), first, s, BeginScan(1));
    var s1 := s.(scans := s.scans + multiset{x});
    assert Do(s, BeginScan(1)) == s1;
    TimelyOn(longest, Birth(lag, age), first + [BeginScan(1)], s1, TakeOverlay(x));
    OverlayObserves(s1);
    steps := first + [BeginScan(1)] + [TakeOverlay(x)];
    assert s1.scans - multiset{x} == s.scans;
  }

  lemma OverlayObserves(s: State)
    requires |s.hist| == 2 && s.hist[1].id == 1 && s.served == 0
    requires s.buf.flushed == [Gen(Snapshot(1), [GenBatch(Some(1), [A])], map[], 0, false)]
    ensures var x := Scan(1, s.clock);
            DoOverlay(s, x) == s.(buf := s.buf.(flushed := [ROW_GEN]), scans := s.scans - multiset{x}, served := 1)
  {
    assert Contains(s.hist, 1, Snapshot(1));
    assert Observe(s.buf.flushed, Seen(s.hist, 1)) == [ROW_GEN];
  }

  /** The collection takes the row from under the first scan, whose version does not have it. */
  lemma RowLost(lag: nat, age: nat, longest: nat)
    requires lag + longest >= age
    ensures var s := Held(lag, age, longest);
            ScanResult(s, 0)[A] == 1 && ScanResult(DoCollect(s), 0)[A] == 0
  {
    OneBatch(A);
    HeldBefore(Held(lag, age, longest));
    HeldAfter(Held(lag, age, longest));
  }

  const ROW_GEN := Gen(Snapshot(1), [GenBatch(Some(1), [A])], map[], 0, true)

  lemma HeldBefore(s: State)
    requires |s.hist| > 0 && s.hist[0] == Version(0, multiset{}, 0)
    requires s.buf == Buf([], 0, 2, None, [ROW_GEN], Some(1), {}) && Bag([[A]]) == multiset{A}
    ensures ScanResult(s, 0)[A] == 1
  {
    assert !Seen(s.hist, 0)(ROW_GEN.commit);
    assert s.buf.flushed[..0] == [] && Unseen([], Seen(s.hist, 0)) == [];
    assert Unseen(s.buf.flushed, Seen(s.hist, 0)) == [] + [GenLayer(ROW_GEN)];
    assert GenRows(ROW_GEN.batches) == [[A]] && RowsOf(s.buf.pending) == [];
    OverlayRefinesSequential(multiset{}, ([] + [GenLayer(ROW_GEN)]) + [Live(s.buf)]);
    ApplyAllSnoc(multiset{}, [] + [GenLayer(ROW_GEN)], Live(s.buf));
    ApplyAllSnoc(multiset{}, [], GenLayer(ROW_GEN));
  }

  lemma HeldAfter(s: State)
    requires |s.hist| > 0 && s.hist[0] == Version(0, multiset{}, 0)
    requires s.buf == Buf([], 0, 2, None, [ROW_GEN], Some(1), {}) && s.clock >= s.gcAge
    ensures ScanResult(DoCollect(s), 0)[A] == 0
  {
    assert Expired(ROW_GEN, s.clock, s.gcAge);
    assert s.buf.flushed[..0] == [] && Unexpired([], s.clock, s.gcAge) == [];
    var b := DoCollect(s).buf;
    assert b.flushed == [] && RowsOf(b.pending) == [];
    OverlayRefinesSequential(multiset{}, [] + [Live(b)]);
    ApplyAllSnoc(multiset{}, [], Live(b));
  }

  lemma TooYoung(lag: nat, longest: nat, age: nat)
    requires lag + longest >= age
    ensures !CollectsUnseen(lag, longest, age)
  {
    var steps := RowHeld(lag, age, longest);
    RowLost(lag, age, longest);
    var s := Held(lag, age, longest);
    HeldFacts(lag, age, longest);
    assert Path(Timely(longest), Birth(lag, age), steps, s);
  }

  lemma HeldFacts(lag: nat, age: nat, longest: nat)
    ensures Initial(Birth(lag, age)) && Birth(lag, age).lag == lag && Birth(lag, age).gcAge == age
    ensures var s := Held(lag, age, longest);
            && Enabled(s, Collect) && ScansWithin(s, longest) && 0 < |s.hist| && Scanned(s.scans, 0) && s.hist[0].wm <= s.liveLo
  {
    assert Scan(0, lag) in Held(lag, age, longest).scans;
  }

  /** The age is enough for every run whose scans begin within the lag and last no longer than
      `longest` if and only if it exceeds both together: a generation's age counts from its tagging, not
      from when it was first observed. */
  lemma CollectAgeIff(lag: nat, longest: nat, age: nat)
    ensures CollectsUnseen(lag, longest, age) <==> lag + longest < age
  {
    if lag + longest < age {
      OldEnough(lag, longest, age);
    } else {
      TooYoung(lag, longest, age);
    }
  }
}
