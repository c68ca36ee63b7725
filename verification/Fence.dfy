/** The fence of a synchronous write: it holds the table's serial lock, flushes what is buffered, and
    commits, with inserts, failed waits and flushes going on beside it. */
module Fence {
  import opened Rows
  import opened Window
  import opened Layers
  import opened Routing
  import opened Statements
  import opened Paths

  /** Where the flusher is with the layer it took: still in the live map, or posted on a version. */
  datatype Flush = Quiet | Snapped(layer: Layer) | Posted(layer: Layer, base: nat)

  /** How far the synchronous write holding the lock got. */
  datatype Holder =
    | Free
    | SyncLocked
    | SyncFlushing
    | SyncFenced
    | SyncDone

  /** One table: its committed rows and their version, the layer in flight, and the live window on
      top of it. */
  datatype State = State(committed: Table, version: nat, flush: Flush, live: Layer, holder: Holder)

  const NO_LAYER := Layer([], map[])

  function InFlight(s: State): Layer {
    if s.flush.Quiet? then NO_LAYER else s.flush.layer
  }

  /** What a union read returns. */
  ghost function View(s: State): Table {
    Apply(Apply(s.committed, InFlight(s)), s.live)
  }

  predicate IsEmpty(l: Layer) {
    l.batches == [] && l.ops == map[]
  }

  /** What the fence asks: is anything in the live window? A snapshot still is, a posted one is not. */
  predicate HasPending(s: State) {
    !IsEmpty(s.live) || s.flush.Snapped?
  }

  /** The keyed map the routing and the shortcut consult: a snapshot is drained when it is posted. */
  function LiveMap(s: State): map<Key, Entry> {
    if s.flush.Snapped? then s.flush.layer.ops + s.live.ops else s.live.ops
  }

  ghost predicate Absent(t: Table, rows: seq<Row>) {
    forall r :: r in rows ==> !HasKey(t, r.key)
  }

  function KeyedEntry(kind: Kind): Entry {
    Entry(0, kind, None)
  }

  /** Rows whose key is in the live map become its newest entry, the others are appended. */
  function Inserted(s: State, rows: seq<Row>): Layer {
    var keys := LiveMap(s).Keys;
    var hits := Hits(rows, keys);
    var rest := Suppress(rows, keys);
    Layer(if rest == [] then s.live.batches else s.live.batches + [rest],
          s.live.ops + (map k | k in KeysOf(hits) :: KeyedEntry(Upsert(LastVal(hits, k)))))
  }

  /** A generation whose post lost, back in front of the live window. */
  function Back(older: Layer, live: Layer): Layer {
    Layer(older.batches + live.batches, older.ops + live.ops)
  }

  ghost predicate BackSafe(older: Layer, live: Layer) {
    forall r :: r in Flatten(live.batches) && r.key in older.ops ==> r.key in live.ops
  }

  datatype Step =
    | KeyedStmt(key: Key, kind: Kind)
    | InsertRows(rows: seq<Row>)
    | UndoStmt(left: Layer)
    | Unlock
    | TakeSnapshot
    | Post
    | Land
    | Lose
    | ForeignCommit
    | LockSync
    | FenceIdle
    | FenceFlush
    | SyncCommit(table: Table)

  ghost predicate KeysWithin(t: Table, u: Table) {
    forall r :: r in t ==> HasKey(u, r.key)
  }

  ghost predicate Names(l: Layer, k: Key) {
    k in l.ops || exists r :: r in Flatten(l.batches) && r.key == k
  }

  /** When the code takes a step. A keyed statement runs from its read to its acknowledgement under the
      lock; an undo leaves nothing that was not named before; a synchronous statement runs on the
      committed rows and moves no key. */
  ghost predicate Enabled(s: State, step: Step) {
    match step
    case KeyedStmt(_, _) => s.holder.Free?
    case InsertRows(rows) => rows != []
    case UndoStmt(left) => forall k :: Names(left, k) ==> Names(s.live, k)
    case Unlock => s.holder.SyncDone?
    case TakeSnapshot => s.flush.Quiet? && !IsEmpty(s.live)
    case Post => s.flush.Snapped?
    case Land => s.flush.Posted? && s.flush.base == s.version
    case Lose => s.flush.Posted? && s.flush.base != s.version
    case ForeignCommit => true
    case LockSync => s.holder.Free?
    case FenceIdle => s.holder.SyncLocked? && !HasPending(s)
    case FenceFlush => s.holder.SyncLocked? && HasPending(s) && s.flush.Quiet?
    case SyncCommit(table) => s.holder.SyncFenced? && KeysWithin(table, s.committed)
  }

  ghost function Do(s: State, step: Step): State
    requires Enabled(s, step)
  {
    match step
    case KeyedStmt(key, kind) => s.(live := Layer(s.live.batches, s.live.ops[key := KeyedEntry(kind)]))
    case InsertRows(rows) => s.(live := Inserted(s, rows))
    case UndoStmt(left) => s.(live := left)
    case Unlock => s.(holder := Free)
    case TakeSnapshot => s.(flush := Snapped(s.live), live := NO_LAYER)
    case Post => s.(flush := Posted(s.flush.layer, s.version))
    case Land =>
      s.(committed := Apply(s.committed, s.flush.layer), version := s.version + 1, flush := Quiet,
         holder := if s.holder.SyncFlushing? then SyncFenced else s.holder)
    case Lose =>
      s.(flush := Quiet, live := Back(s.flush.layer, s.live),
         holder := if s.holder.SyncFlushing? then SyncLocked else s.holder)
    case ForeignCommit => s.(version := s.version + 1)
    case LockSync => s.(holder := SyncLocked)
    case FenceIdle => s.(holder := SyncFenced)
    case FenceFlush => s.(flush := Snapped(s.live), live := NO_LAYER, holder := SyncFlushing)
    case SyncCommit(table) => s.(committed := table, version := s.version + 1, holder := SyncDone)
  }

  /** H1 for a lost post, H6 for inserts, and: the fence does not pass while a post is in flight. */
  ghost predicate Assumed(s: State, step: Step)
    requires Enabled(s, step)
  {
    match step
    case InsertRows(rows) => DistinctKeys(rows) && Absent(View(s), rows)
    case Lose => BackSafe(s.flush.layer, s.live)
    case FenceIdle => s.flush.Quiet?
    case _ => true
  }

  /** A fence that passes leaves nothing uncommitted, unless a post is in flight. */
  lemma FencePasses(s: State)
    requires Enabled(s, FenceIdle) && !s.flush.Posted?
    ensures View(s) == s.committed && s.flush.Quiet?
  {
    ApplyNothing(s.committed);
    assert s.live == NO_LAYER;
  }

  // ---- compare-and-swap -------------------------------------------------------------------------------

  /** The version tells commits apart: whatever changes the committed rows raises it. */
  lemma CommitRaises(s: State, step: Step)
    requires Enabled(s, step)
    ensures var t := Do(s, step);
            && t.version >= s.version && (t.version == s.version ==> t.committed == s.committed)
            && (step.ForeignCommit? ==> t.version > s.version)
            && (t.flush.Posted? ==> (s.flush.Snapped? && t.flush.base == s.version) || t.flush == s.flush)
  {}

  /** A post on the version it was made on stands on the rows it was made on. */
  lemma {:induction false} VersionRises(s: State, steps: seq<Step>, t: State)
    requires Path(Code(), s, steps, t)
    ensures t.version >= s.version && (t.version == s.version ==> t.committed == s.committed)
    ensures t.version == s.version ==> ForeignCommit !in steps
    decreases |steps|
  {
    if |steps| > 0 {
      var m :| Code()(s, steps[0], m) && Path(Code(), m, steps[1..], t);
      CommitRaises(s, steps[0]);
      VersionRises(m, steps[1..], t);
      assert steps == [steps[0]] + steps[1..];
    }
  }

  /** Between a post and its landing nothing else is committed: the layer goes onto the rows it was
      prepared on. */
  lemma LandsOnItsBase(s: State, steps: seq<Step>, t: State)
    requires Enabled(s, Post) && Path(Code(), Do(s, Post), steps, t) && Enabled(t, Land) && t.flush == Do(s, Post).flush
    ensures t.committed == s.committed && ForeignCommit !in steps
    ensures Do(t, Land).committed == Apply(s.committed, s.flush.layer)
  {
    VersionRises(Do(s, Post), steps, t);
  }

  // ---- the view -------------------------------------------------------------------------------------

  lemma ApplyNothing(c: Table)
    ensures Apply(c, NO_LAYER) == c
  {
    forall r: Row ensures Apply(c, NO_LAYER)[r] == c[r] {}
  }

  lemma {:induction false} ValueIsLast(rows: seq<Row>, r: Row)
    requires DistinctKeys(rows) && r in rows
    ensures LastVal(rows, r.key) == r.val
  {
    var init, last := rows[..|rows| - 1], rows[|rows| - 1];
    assert rows == init + [last];
    if r != last {
      assert r in init;
      ValueIsLast(init, r);
      var i :| 0 <= i < |init| && init[i] == r;
      assert rows[i] == r;
    }
  }

  lemma InsertedHit(s: State, rows: seq<Row>, x: Row, r: Row)
    requires DistinctKeys(rows) && Absent(View(s), rows)
    requires x in Hits(rows, LiveMap(s).Keys) && x.key == r.key
    ensures Apply(Apply(s.committed, InFlight(s)), Inserted(s, rows))[r] == View(s)[r] + multiset(rows)[r]
  {
    var hits := Hits(rows, LiveMap(s).Keys);
    HitsIn(rows, LiveMap(s).Keys, x);
    HitsDistinct(rows, LiveMap(s).Keys);
    ValueIsLast(hits, x);
    AbsentRow(View(s), r);
    CountOne(rows, x, r);
    assert r.key in KeysOf(hits);
    assert Inserted(s, rows).ops[r.key] == KeyedEntry(Upsert(x.val));
    OwnKey(Apply(s.committed, InFlight(s)), Inserted(s, rows), r.key, r);
  }

  lemma InsertedMiss(s: State, rows: seq<Row>, r: Row)
    requires r.key !in KeysOf(Hits(rows, LiveMap(s).Keys))
    ensures Apply(Apply(s.committed, InFlight(s)), Inserted(s, rows))[r] == View(s)[r] + multiset(rows)[r]
  {
    var keys := LiveMap(s).Keys;
    SuppressCount(rows, keys, r);
    InsertedBag(s, rows, r);
    if r in rows && r.key in keys {
      HitsIn(rows, keys, r);
      assert false;
    }
    MissRow(Apply(s.committed, InFlight(s)), s.live, Inserted(s, rows), multiset(rows)[r], r);
  }

  lemma SuppressCount(rows: seq<Row>, keys: set<Key>, r: Row)
    ensures multiset(Suppress(rows, keys))[r] == if r.key in keys then 0 else multiset(rows)[r]
  {
    SuppressBag(rows, keys);
  }

  lemma MissRow(c: Table, l: Layer, l': Layer, n: nat, r: Row)
    requires (r.key in l'.ops <==> r.key in l.ops) && (r.key in l.ops ==> l'.ops[r.key] == l.ops[r.key] && n == 0)
    requires Bag(l'.batches)[r] == Bag(l.batches)[r] + n
    ensures Apply(c, l')[r] == Apply(c, l)[r] + n
  {}

  lemma InsertedAt(s: State, rows: seq<Row>, r: Row)
    requires DistinctKeys(rows) && Absent(View(s), rows)
    ensures Apply(Apply(s.committed, InFlight(s)), Inserted(s, rows))[r] == View(s)[r] + multiset(rows)[r]
  {
    var hits := Hits(rows, LiveMap(s).Keys);
    if r.key in KeysOf(hits) {
      var x :| x in hits && x.key == r.key;
      InsertedHit(s, rows, x, r);
    } else {
      InsertedMiss(s, rows, r);
    }
  }

  lemma AbsentRow(t: Table, r: Row)
    requires !HasKey(t, r.key)
    ensures t[r] == 0
  {
    assert r == Row(r.key, r.val);
  }

  lemma CountOne(rows: seq<Row>, x: Row, r: Row)
    requires DistinctKeys(rows) && x in rows && x.key == r.key
    ensures multiset(rows)[r] == if r == x then 1 else 0
  {
    DistinctUnique(rows);
    if r in rows { assert r in multiset(rows) && x in multiset(rows); }
  }

  lemma InsertedBag(s: State, rows: seq<Row>, r: Row)
    ensures Bag(Inserted(s, rows).batches)[r]
         == Bag(s.live.batches)[r] + multiset(Suppress(rows, LiveMap(s).Keys))[r]
  {
    FlattenSnoc(s.live.batches, Suppress(rows, LiveMap(s).Keys));
  }

  lemma BackViewAt(c: Table, older: Layer, live: Layer, r: Row)
    requires Bag(Back(older, live).batches)[r] == Bag(older.batches)[r] + Bag(live.batches)[r]
    requires r.key in older.ops && r.key !in live.ops ==> Bag(live.batches)[r] == 0
    ensures Apply(c, Back(older, live))[r] == Apply(Apply(c, older), live)[r]
  {}

  lemma BackView(c: Table, older: Layer, live: Layer)
    requires BackSafe(older, live)
    ensures Apply(c, Back(older, live)) == Apply(Apply(c, older), live)
  {
    BagConcat(older.batches, live.batches);
    forall r: Row ensures Apply(c, Back(older, live))[r] == Apply(Apply(c, older), live)[r] {
      if r.key in older.ops && r.key !in live.ops {
        assert r !in Flatten(live.batches);
      }
      BackViewAt(c, older, live, r);
    }
    SameTable(Apply(c, Back(older, live)), Apply(Apply(c, older), live));
  }

  predicate Flushing(step: Step) {
    step.TakeSnapshot? || step.Post? || step.Land? || step.Lose? || step.ForeignCommit? || step.FenceFlush?
  }

  lemma LoseStutters(s: State)
    requires Enabled(s, Lose) && Assumed(s, Lose)
    ensures View(Do(s, Lose)) == View(s)
  {
    ApplyNothing(s.committed);
    BackView(s.committed, s.flush.layer, s.live);
  }

  lemma LandStutters(s: State)
    requires Enabled(s, Land)
    ensures View(Do(s, Land)) == View(s)
  {
    ApplyNothing(Apply(s.committed, s.flush.layer));
  }

  /** Flushes, lost posts and foreign commits are invisible. */
  lemma FlushStutters(s: State, step: Step)
    requires Enabled(s, step) && Assumed(s, step) && Flushing(step)
    ensures View(Do(s, step)) == View(s)
  {
    if step.Lose? {
      LoseStutters(s);
    } else if step.Land? {
      LandStutters(s);
    } else if step.TakeSnapshot? || step.FenceFlush? {
      ApplyNothing(s.committed);
      ApplyNothing(Apply(s.committed, s.live));
    }
  }

  // ---- what every reachable state keeps -----------------------------------------------------------------

  /** The layer names no key that occurs in the table. */
  ghost predicate ClearOf(l: Layer, t: Table) {
    forall k :: Names(l, k) ==> !HasKey(t, k)
  }

  /** Nothing buffered, in flight or live, names a key of the rows below it. */
  ghost predicate Clear(s: State) {
    ClearOf(InFlight(s), s.committed) && ClearOf(s.live, Apply(s.committed, InFlight(s)))
  }

  ghost predicate Inv(s: State) {
    && (s.holder.SyncFlushing? ==> !s.flush.Quiet? && ClearOf(s.live, Apply(s.committed, InFlight(s))))
    && (s.holder.SyncFenced? ==> Clear(s))
  }

  lemma UnnamedKeeps(c: Table, l: Layer, r: Row)
    requires !Names(l, r.key)
    ensures Apply(c, l)[r] == c[r]
  {
    assert r !in Flatten(l.batches);
    assert Bag(l.batches)[r] == 0;
  }

  lemma UnnamedKey(c: Table, l: Layer, k: Key)
    requires !Names(l, k)
    ensures HasKey(Apply(c, l), k) <==> HasKey(c, k)
  {
    forall v: int ensures Row(k, v) in Apply(c, l) <==> Row(k, v) in c { UnnamedKeeps(c, l, Row(k, v)); }
    if HasKey(c, k) { var v :| Row(k, v) in c; assert Row(k, v) in Apply(c, l); }
    if HasKey(Apply(c, l), k) { var v :| Row(k, v) in Apply(c, l); assert Row(k, v) in c; }
  }

  lemma InsertedNames(s: State, rows: seq<Row>, k: Key)
    requires Names(Inserted(s, rows), k)
    ensures Names(s.live, k) || k in KeysOf(rows)
  {
    var keys := LiveMap(s).Keys;
    if k in KeysOf(Hits(rows, keys)) {
      var x :| x in Hits(rows, keys) && x.key == k;
      HitsIn(rows, keys, x);
    } else if k !in s.live.ops {
      var r :| r in Flatten(Inserted(s, rows).batches) && r.key == k;
      FlattenSnoc(s.live.batches, Suppress(rows, keys));
      if r in Suppress(rows, keys) { SuppressIn(rows, keys, r); }
    }
  }

  /** An insert of absent keys stays clear of everything below the live window. */
  lemma InsertClear(s: State, rows: seq<Row>)
    requires Absent(View(s), rows) && ClearOf(s.live, Apply(s.committed, InFlight(s)))
    ensures ClearOf(Inserted(s, rows), Apply(s.committed, InFlight(s)))
  {
    forall k | Names(Inserted(s, rows), k) ensures !HasKey(Apply(s.committed, InFlight(s)), k) {
      InsertedNames(s, rows, k);
      if !Names(s.live, k) {
        var x :| x in rows && x.key == k;
        UnnamedKey(Apply(s.committed, InFlight(s)), s.live, k);
      }
    }
  }

  lemma InsertInv(s: State, rows: seq<Row>)
    requires Inv(s) && DistinctKeys(rows) && Absent(View(s), rows)
    ensures Inv(s.(live := Inserted(s, rows)))
  {
    if s.holder.SyncFlushing? || s.holder.SyncFenced? {
      InsertClear(s, rows);
    }
  }

  lemma NothingNamed(k: Key)
    ensures !Names(NO_LAYER, k)
  {}

  lemma BackClear(c: Table, older: Layer, live: Layer)
    requires ClearOf(older, c) && ClearOf(live, Apply(c, older))
    ensures ClearOf(Back(older, live), c)
  {
    forall k | Names(Back(older, live), k) ensures !HasKey(c, k) {
      BackNames(older, live, k);
      if !Names(older, k) { UnnamedKey(c, older, k); }
    }
  }

  lemma BackNames(older: Layer, live: Layer, k: Key)
    requires Names(Back(older, live), k)
    ensures Names(older, k) || Names(live, k)
  {
    if k !in older.ops && k !in live.ops {
      var r :| r in Flatten(older.batches + live.batches) && r.key == k;
      FlattenConcat(older.batches, live.batches);
    }
  }

  lemma FlushInv(s: State, step: Step)
    requires Inv(s) && Enabled(s, step) && Assumed(s, step) && Flushing(step) && !step.FenceFlush?
    ensures Inv(Do(s, step))
  {
    FlushStutters(s, step);
    ApplyNothing(s.committed);
    if s.holder.SyncFlushing? || s.holder.SyncFenced? {
      forall k ensures !Names(NO_LAYER, k) { NothingNamed(k); }
      ApplyNothing(Apply(s.committed, InFlight(s)));
      if step.Lose? && s.holder.SyncFenced? {
        BackClear(s.committed, s.flush.layer, s.live);
      }
    }
  }

  lemma LockInv(s: State, step: Step)
    requires Inv(s) && Enabled(s, step) && Assumed(s, step) && !Flushing(step) && !step.InsertRows?
    ensures Inv(Do(s, step))
  {
    forall k ensures !Names(NO_LAYER, k) { NothingNamed(k); }
    if step.FenceIdle? {
      assert s.live == NO_LAYER;
    }
  }

  lemma FenceFlushInv(s: State)
    requires Enabled(s, FenceFlush)
    ensures Inv(Do(s, FenceFlush))
  {
    forall k ensures !Names(NO_LAYER, k) { NothingNamed(k); }
  }

  lemma StepInv(s: State, step: Step)
    requires Inv(s) && Enabled(s, step) && Assumed(s, step)
    ensures Inv(Do(s, step))
  {
    if step.InsertRows? {
      InsertInv(s, step.rows);
    } else if step.FenceFlush? {
      FenceFlushInv(s);
    } else if Flushing(step) {
      FlushInv(s, step);
    } else {
      LockInv(s, step);
    }
  }

  ghost function Assured(): (State, Step, State) -> bool {
    (s, step, t) => Enabled(s, step) && Assumed(s, step) && t == Do(s, step)
  }

  lemma {:induction false} RunInv(s: State, steps: seq<Step>, t: State)
    requires s.holder.Free? && Path(Assured(), s, steps, t)
    ensures Inv(t)
  {
    InvAlong(s, steps, t);
  }

  lemma {:induction false} InvAlong(s: State, steps: seq<Step>, t: State)
    requires Inv(s) && Path(Assured(), s, steps, t)
    ensures Inv(t)
    decreases |steps|
  {
    if |steps| > 0 {
      var m :| Assured()(s, steps[0], m) && Path(Assured(), m, steps[1..], t);
      StepInv(s, steps[0]);
      InvAlong(m, steps[1..], t);
    }
  }

  // ---- keyed statements -------------------------------------------------------------------------------

  lemma OverwriteAt(c: Table, l: Layer, key: Key, kind: Kind, r: Row)
    ensures Apply(c, Layer(l.batches, l.ops[key := KeyedEntry(kind)]))[r] == Exec(Apply(c, l), KindOp(key, kind))[r]
  {
    var l' := Layer(l.batches, l.ops[key := KeyedEntry(kind)]);
    ExecKeyed(Apply(c, l), key, kind, r);
    if r.key == key {
      OwnKey(c, l', key, r);
    } else {
      OtherKey(c, l, l', r);
    }
  }

  lemma ExecKeyed(t: Table, key: Key, kind: Kind, r: Row)
    ensures Exec(t, KindOp(key, kind))[r]
         == if r.key != key then t[r] else if kind == Upsert(r.val) then 1 else 0
  {}

  lemma OtherKey(c: Table, l: Layer, l': Layer, r: Row)
    requires l'.batches == l.batches && (r.key in l'.ops <==> r.key in l.ops)
    requires r.key in l.ops ==> l'.ops[r.key] == l.ops[r.key]
    ensures Apply(c, l')[r] == Apply(c, l)[r]
  {}

  lemma OwnKey(c: Table, l: Layer, key: Key, r: Row)
    requires key in l.ops && r.key == key
    ensures Apply(c, l)[r] == if l.ops[key].kind == Upsert(r.val) then 1 else 0
  {}

  lemma StageIsExec(s: State, key: Key, kind: Kind)
    requires Enabled(s, KeyedStmt(key, kind))
    ensures View(Do(s, KeyedStmt(key, kind))) == Exec(View(s), KindOp(key, kind))
  {
    var s' := Do(s, KeyedStmt(key, kind));
    forall r: Row ensures View(s')[r] == Exec(View(s), KindOp(key, kind))[r] {
      OverwriteAt(Apply(s.committed, InFlight(s)), s.live, key, kind, r);
    }
    SameTable(View(s'), Exec(View(s), KindOp(key, kind)));
  }

  // ---- what stands for what --------------------------------------------------------------------------------

  /** Where the state stands for a window over committed rows, its insert stands for routing there. */
  lemma InsertIsRouted(s: State, b: Buf, rows: seq<Row>, sq: Option<nat>)
    requires View(s) == Apply(s.committed, Live(b)) && rows != [] && DistinctKeys(rows) && Absent(View(s), rows)
    ensures View(Do(s, InsertRows(rows))) == Apply(s.committed, Live(Route(b, [rows], sq).buf))
  {
    RoutedRows(b, rows, sq, s.committed);
    InsertedView(s, rows);
  }

  lemma InsertedView(s: State, rows: seq<Row>)
    requires rows != [] && DistinctKeys(rows) && Absent(View(s), rows)
    ensures View(Do(s, InsertRows(rows))) == View(s) + multiset(rows)
  {
    var now := View(Do(s, InsertRows(rows)));
    forall r: Row ensures now[r] == (View(s) + multiset(rows))[r] { InsertedAt(s, rows, r); }
    SameTable(now, View(s) + multiset(rows));
  }

  lemma RoutedRows(b: Buf, rows: seq<Row>, sq: Option<nat>, c: Table)
    requires DistinctKeys(rows) && Absent(Apply(c, Live(b)), rows)
    ensures Apply(c, Live(Route(b, [rows], sq).buf)) == Apply(c, Live(b)) + multiset(rows)
  {
    FlattenSingle(rows);
    AbsentKeysHitDeletes(b, rows, c);
    RouteDenotesInsert(b, [rows], sq, c);
  }

  /** ... and its keyed statement for the keyed write. */
  lemma KeyedIsWritten(s: State, b: Buf, pk: seq<string>, key: Key, kind: Kind, sq: nat)
    requires View(s) == Apply(s.committed, Live(b)) && s.holder.Free? && !PkChanged(b, pk)
    ensures View(Do(s, KeyedStmt(key, kind))) == Apply(s.committed, Live(KeyedWrite(b, pk, key, kind, Some(sq), None).buf))
  {
    StageIsExec(s, key, kind);
    KeyedWriteDenotes(b, pk, key, kind, Some(sq), None, s.committed);
  }

  /** The synchronous write shows at every key it could match. */
  ghost predicate Survives(s: State, table: Table)
    requires Enabled(s, SyncCommit(table))
  {
    forall r: Row :: HasKey(s.committed, r.key) ==> View(Do(s, SyncCommit(table)))[r] == table[r]
  }

  lemma ClearShows(c: Table, table: Table, l: Layer, live: Layer, r: Row)
    requires ClearOf(l, c) && ClearOf(live, Apply(c, l)) && HasKey(c, r.key)
    ensures Apply(Apply(table, l), live)[r] == table[r]
  {
    UnnamedKey(c, l, r.key);
    UnnamedKeeps(table, l, r);
    UnnamedKeeps(Apply(table, l), live, r);
  }

  /** A fenced synchronous write runs on the current rows and is seen whole: no buffered image of an
      older row stands over it, now or after any later flush. */
  lemma SyncWriteSurvives(s: State, steps: seq<Step>, t: State, table: Table)
    requires s.holder.Free? && Path(Assured(), s, steps, t) && Enabled(t, SyncCommit(table))
    ensures forall r: Row :: HasKey(t.committed, r.key) ==> View(t)[r] == t.committed[r]
    ensures Survives(t, table)
  {
    RunInv(s, steps, t);
    forall r: Row | HasKey(t.committed, r.key)
      ensures View(t)[r] == t.committed[r] && View(Do(t, SyncCommit(table)))[r] == table[r]
    {
      ClearShows(t.committed, t.committed, InFlight(t), t.live, r);
      ClearShows(t.committed, table, InFlight(t), t.live, r);
    }
  }

  /** The fence can always be got through: with no flush going on, at once or by one flush, the write then
      runs on committed rows that are the whole view. */
  lemma FenceFinishes(s: State) returns (steps: seq<Step>, t: State)
    requires s.holder.SyncLocked? && s.flush.Quiet?
    ensures Path(Assured(), s, steps, t) && t.holder.SyncFenced?
    ensures t.committed == View(s) == View(t) && !HasPending(t)
  {
    if HasPending(s) {
      t := FenceFlushes(s);
      var (s1, s2) := Flushed(s);
      PathOne(Assured(), s, FenceFlush, s1);
      PathSnoc(Assured(), s, [FenceFlush], s1, Post, s2);
      PathSnoc(Assured(), s, [FenceFlush] + [Post], s2, Land, t);
      steps := [FenceFlush] + [Post] + [Land];
    } else {
      FencePasses(s);
      steps, t := [FenceIdle], s.(holder := SyncFenced);
      PathOne(Assured(), s, FenceIdle, t);
    }
  }

  /** The states of the fence's own flush, taken and posted. */
  function Flushed(s: State): (State, State) {
    var s1 := s.(flush := Snapped(s.live), live := NO_LAYER, holder := SyncFlushing);
    (s1, s1.(flush := Posted(s.live, s.version)))
  }

  lemma FenceFlushes(s: State) returns (t: State)
    requires s.holder.SyncLocked? && s.flush.Quiet? && HasPending(s)
    ensures var (s1, s2) := Flushed(s);
            Assured()(s, FenceFlush, s1) && Assured()(s1, Post, s2) && Assured()(s2, Land, t)
    ensures t.holder.SyncFenced? && t.committed == View(s) == View(t) && !HasPending(t)
  {
    var (s1, s2) := Flushed(s);
    t := Do(s2, Land);
    FlushedView(s, t);
  }

  lemma FlushedView(s: State, t: State)
    requires s.flush.Quiet? && t.flush.Quiet? && t.live == NO_LAYER && t.committed == Apply(s.committed, s.live)
    ensures t.committed == View(s) == View(t)
  {
    ApplyNothing(s.committed);
    ApplyNothing(t.committed);
  }

  // ---- the fence and a post in flight ----------------------------------------------------------------------

  /** No committed key is named by anything in flight or live. */
  ghost predicate Unnamed(s: State) {
    forall k :: HasKey(s.committed, k) ==> !Names(InFlight(s), k) && !Names(s.live, k)
  }

  lemma OpsDecide(c: Table, d: Table, l: Layer, live: Layer, r: Row)
    requires r.key in live.ops || r.key in l.ops
    ensures Apply(Apply(c, l), live)[r] == Apply(Apply(d, l), live)[r]
  {}

  /** A key named without a keyed operation has an appended row, and it shows. */
  lemma AppendShows(c: Table, l: Layer, live: Layer, k: Key) returns (r: Row)
    requires (Names(l, k) || Names(live, k)) && k !in l.ops && k !in live.ops
    ensures r.key == k && Apply(Apply(c, l), live)[r] >= 1
  {
    if x :| x in Flatten(l.batches) && x.key == k {
      r := x;
      assert r in multiset(Flatten(l.batches));
    } else {
      var x :| x in Flatten(live.batches) && x.key == k;
      r := x;
      assert r in multiset(Flatten(live.batches));
    }
  }

  lemma HidesRow(l: Layer, live: Layer, k: Key)
    requires Names(l, k) || Names(live, k)
    requires forall r: Row :: r.key == k ==> Apply(Apply(multiset{}, l), live)[r] == 0
    ensures k in l.ops || k in live.ops
  {
    if k !in l.ops && k !in live.ops {
      var r := AppendShows(multiset{}, l, live, k);
      assert false;
    }
  }

  /** Some table a named key spoils, and the row where it shows. */
  lemma SpoilsAt(c: Table, l: Layer, live: Layer, k: Key) returns (table: Table, r: Row)
    requires HasKey(c, k) && (Names(l, k) || Names(live, k))
    ensures r.key == k && KeysWithin(table, c) && Apply(Apply(table, l), live)[r] != table[r]
  {
    if x: Row :| x.key == k && Apply(Apply(multiset{}, l), live)[x] != 0 {
      table, r := multiset{}, x;
    } else {
      HidesRow(l, live, k);
      r := Row(k, 0);
      table := multiset{r};
      OpsDecide(multiset{}, table, l, live, r);
    }
  }

  /** A synchronous write a named key spoils. */
  lemma NamedSpoils(s: State, k: Key) returns (table: Table)
    requires s.holder.SyncFenced? && HasKey(s.committed, k) && (Names(InFlight(s), k) || Names(s.live, k))
    ensures KeysWithin(table, s.committed) && !Survives(s, table)
  {
    var r: Row;
    table, r := SpoilsAt(s.committed, InFlight(s), s.live, k);
    assert InFlight(Do(s, SyncCommit(table))) == InFlight(s);
  }

  lemma SyncView(s: State, table: Table)
    requires s.holder.SyncFenced? && KeysWithin(table, s.committed)
    ensures View(Do(s, SyncCommit(table))) == Apply(Apply(table, InFlight(s)), s.live)
  {}

  lemma UnnamedSurvives(s: State, table: Table)
    requires s.holder.SyncFenced? && Unnamed(s) && KeysWithin(table, s.committed)
    ensures Survives(s, table)
  {
    SyncView(s, table);
    forall r: Row | HasKey(s.committed, r.key) ensures View(Do(s, SyncCommit(table)))[r] == table[r] {
      UnnamedKeeps(table, InFlight(s), r);
      UnnamedKeeps(Apply(table, InFlight(s)), s.live, r);
    }
  }

  /** Every synchronous write the fence lets through survives exactly when nothing buffered, in flight
      or live, names a committed key. */
  lemma SyncSurvivesIff(s: State)
    requires s.holder.SyncFenced?
    ensures (forall table :: KeysWithin(table, s.committed) ==> Survives(s, table)) <==> Unnamed(s)
  {
    if Unnamed(s) {
      forall table | KeysWithin(table, s.committed) ensures Survives(s, table) { UnnamedSurvives(s, table); }
    } else {
      var k :| HasKey(s.committed, k) && (Names(InFlight(s), k) || Names(s.live, k));
      var table := NamedSpoils(s, k);
    }
  }

  ghost function Code(): (State, Step, State) -> bool {
    (s, step, t) => Enabled(s, step) && t == Do(s, step)
  }

  const WAS := Row(1, 10)
  const IMAGE: Layer := Layer([], map[1 := KeyedEntry(Upsert(20))])

  /** A keyed UPDATE is acknowledged and posted. */
  lemma KeyedPosted(s: State) returns (steps: seq<Step>, t: State)
    requires s == State(multiset{WAS}, 0, Quiet, NO_LAYER, Free)
    ensures Path(Code(), s, steps, t) && t == s.(flush := Posted(IMAGE, 0))
  {
    var s1 := Do(s, KeyedStmt(1, Upsert(20)));
    assert s1.live == IMAGE && 1 in s1.live.ops;
    var s2 := Do(s1, TakeSnapshot);
    t := Do(s2, Post);
    PathSnoc(Code(), s, [], s, KeyedStmt(1, Upsert(20)), Do(s, KeyedStmt(1, Upsert(20))));
    PathSnoc(Code(), s, [] + [KeyedStmt(1, Upsert(20))], s1, TakeSnapshot, Do(s1, TakeSnapshot));
    PathSnoc(Code(), s, [] + [KeyedStmt(1, Upsert(20))] + [TakeSnapshot], s2, Post, Do(s2, Post));
    steps := [] + [KeyedStmt(1, Upsert(20))] + [TakeSnapshot] + [Post];
  }

  lemma SyncOver(s: State) returns (steps: seq<Step>, t: State)
    requires s == State(multiset{WAS}, 0, Posted(IMAGE, 0), NO_LAYER, Free)
    ensures Path(Code(), s, steps, t)
    ensures t == State(multiset{Row(1, 30)}, 1, Posted(IMAGE, 0), NO_LAYER, SyncDone)
  {
    var s1 := Do(s, LockSync);
    var s2 := Do(s1, FenceIdle);
    var now := multiset{Row(1, 30)};
    assert Row(1, 10) in s2.committed;
    assert HasKey(s2.committed, 1);
    t := Do(s2, SyncCommit(now));
    PathSnoc(Code(), s, [], s, LockSync, Do(s, LockSync));
    PathSnoc(Code(), s, [] + [LockSync], s1, FenceIdle, Do(s1, FenceIdle));
    PathSnoc(Code(), s, [] + [LockSync] + [FenceIdle], s2, SyncCommit(now), Do(s2, SyncCommit(now)));
    steps := [] + [LockSync] + [FenceIdle] + [SyncCommit(now)];
  }

  /** While the keyed UPDATE is posted but not landed, a later synchronous UPDATE of the key finds
      nothing pending, commits first, and the lost post goes back and over it: the acknowledged
      synchronous write is gone from the view. */
  lemma FenceMissesPost(s: State) returns (steps: seq<Step>, t: State)
    requires s == State(multiset{WAS}, 0, Quiet, NO_LAYER, Free)
    ensures Path(Code(), s, steps, t)
    ensures t.flush.Quiet? && t.committed == multiset{Row(1, 30)} && View(t) == multiset{Row(1, 20)}
  {
    var first, s1 := KeyedPosted(s);
    var second, s2 := SyncOver(s1);
    PathOn(Code(), s, first, s1, second, s2);
    PathSnoc(Code(), s, first + second, s2, Lose, Do(s2, Lose));
    t := Do(s2, Lose);
    steps := first + second + [Lose];
    ImageShows(t);
  }

  lemma ImageShows(t: State)
    requires t.committed == multiset{Row(1, 30)} && t.flush.Quiet? && t.live.batches == [] && t.live.ops == IMAGE.ops
    ensures View(t) == multiset{Row(1, 20)}
  {
    ApplyNothing(t.committed);
    forall r: Row ensures View(t)[r] == multiset{Row(1, 20)}[r] {}
    SameTable(View(t), multiset{Row(1, 20)});
  }
}
