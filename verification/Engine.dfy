/** The buffered-write engine as a state machine: catalog history, window, flusher, durable
    tail and scans, every step atomic exactly where the buffer lock or the catalog makes it so. */
module Engine {
  import opened Rows
  import opened Window
  import opened Layers
  import opened Statements
  import opened Log

  /** One version of the table's metadata: its newest snapshot id, its rows, and the tail
      watermark property stamped in the same commit (0 = no property; sequences start at 1). */
  datatype Version = Version(id: nat, rows: Table, wm: nat)

  /** A statement between staging and the end of its durability wait. `shadowed` records that its
      undo has since been spoilt: an INSERT took over a key the undo leaves without a delete, the undo
      would bare a key a merged-back generation owns, or another undo met it on a key. */
  datatype Wait = Wait(op: Op, routed: Routed, shadowed: bool)

  /** The flusher's local variables. */
  datatype Flight =
    | Idle
    | Snapped(snap: Snap)
    | Loaded(snap: Snap, base: nat)
    | Posted(next: Version, mark: nat, base: nat, landed: bool)
    | Settling(mark: nat)
    | Recorded(mark: nat)

  /** The durable tail: frames in sequence order, the watermark sidecar (0 = none), and the next
      sequence to hand out. */
  datatype Tail = Tail(frames: seq<Stmt>, sidecar: nat, nextSeq: nat)

  /** A scan between loading its metadata and taking its overlay: the version, and when it began. */
  datatype Scan = Scan(version: nat, began: nat)

  /** The tail marks a flushed generation covers: everything above `lo` up to `hi`. */
  datatype Span = Span(lo: nat, hi: nat)

  datatype State = State(
    pk: seq<string>, keyedTable: bool, gcAge: nat, lag: nat,
    hist: seq<Version>, nextSnap: nat,
    buf: Buf, flight: Flight, tail: Tail, scans: multiset<Scan>, served: nat, clock: nat,
    // history variables: the specification log and what the proof keeps about it
    base: Table, log: seq<Stmt>, waiting: map<nat, Wait>, failed: set<nat>,
    spans: seq<Span>, liveLo: nat, frozen: nat)

  // ---- the specification -------------------------------------------------------------------

  /** The table after every statement up to sequence `w`. */
  ghost function At(base: Table, log: seq<Stmt>, w: nat): Table {
    Fold(base, Upto(log, w))
  }

  /** The logical table: every staged statement, in tail-sequence order. */
  ghost function Logical(s: State): Table {
    Fold(s.base, s.log)
  }

  // ---- what metadata proves ------------------------------------------------------------------

  /** A generation is contained in a version by snapshot membership, or by the version's own
      watermark for a generation parked by the already-committed guard. */
  predicate Contains(hist: seq<Version>, v: nat, commit: GenCommit) {
    && v < |hist|
    && match commit
       case Snapshot(id) => exists i :: 0 <= i <= v && hist[i].id == id
       case CoveredByWatermark(mark) => hist[v].wm > 0 && hist[v].wm >= mark
  }

  function Seen(hist: seq<Version>, v: nat): GenCommit -> bool {
    (commit: GenCommit) => Contains(hist, v, commit)
  }

  /** What a scan holding version `v` returns: committed rows united with the overlay. */
  ghost function ScanResult(s: State, v: nat): Table
    requires v < |s.hist|
  {
    UnionRead(s.hist[v].rows, VisibleLayers(s.buf, Seen(s.hist, v)))
  }

  // ---- steps -----------------------------------------------------------------------------------

  datatype Step =
    | StageStmt(op: Op)
    | Ack(sq: nat)
    | FailWait(sq: nat)
    | FlushSnapshot
    | FlushLoad
    | ParkCovered
    | DropNetZero
    | Prepare
    | Land
    | Reject
    | Committed
    | PostError(reload: bool)
    | RecordWatermark(ok: bool)
    | Truncate(removed: set<nat>)
    | ForeignCommit
    | BeginScan(v: nat)
    | TakeOverlay(scan: Scan)
    | Collect
    | Tick(d: nat)
    | Crash(lost: set<nat>)

  function LastIdx(s: State): nat
    requires |s.hist| > 0
  {
    |s.hist| - 1
  }

  /** The waits in `spoilt` can no longer be undone cleanly. */
  function Shadow(waiting: map<nat, Wait>, spoilt: set<nat>): map<nat, Wait> {
    map q | q in waiting :: waiting[q].(shadowed := waiting[q].shadowed || q in spoilt)
  }

  /** A record on one of the keys is still current and would put back no delete. */
  predicate Uncovers(entries: map<Key, Entry>, undo: seq<RoutedKey>, keys: set<Key>) {
    exists j :: 0 <= j < |undo| && undo[j].key in keys && StillOwn(entries, undo[j])
                && !(undo[j].displaced.Some? && undo[j].displaced.value.kind.Delete?)
  }

  /** A record on one of the keys is still current and displaced nothing: the undo would take the key
      out of the map. */
  predicate Bares(entries: map<Key, Entry>, undo: seq<RoutedKey>, keys: set<Key>) {
    exists j :: 0 <= j < |undo| && undo[j].key in keys && StillOwn(entries, undo[j]) && undo[j].displaced.None?
  }

  /** The waits an INSERT of these keys spoils, those a merge-back of a generation with these keys
      does, and those the undo of a statement with these keys does: on a table without keyed
      operations, none. */
  function SpoiltByInsert(entries: map<Key, Entry>, waiting: map<nat, Wait>, keys: set<Key>): set<nat> {
    set q | q in waiting && Uncovers(entries, waiting[q].routed.keyed, keys)
  }

  function SpoiltByBack(entries: map<Key, Entry>, waiting: map<nat, Wait>, keys: set<Key>): set<nat> {
    set q | q in waiting && Bares(entries, waiting[q].routed.keyed, keys)
  }

  function SpoiltByUndo(keyedTable: bool, waiting: map<nat, Wait>, keys: set<Key>): set<nat> {
    set q | q in waiting && keyedTable && OpKeys(waiting[q].op) * keys != {}
  }

  // ---- the flusher's view ------------------------------------------------------------------------

  function SnapLayer(snap: Snap): Layer {
    Layer(snap.batches, snap.keyed)
  }

  function MarkOf(snap: Snap): nat {
    if snap.mark.Some? then snap.mark.value else 0
  }

  /** The commit preparation finds nothing to do: no committed row matches a keyed key, every
      append is folded away, and there is no upsert row. */
  ghost predicate NetZero(rows: Table, l: Layer) {
    && Without(rows, l.ops.Keys) == rows
    && Without(Bag(l.batches), l.ops.Keys) == multiset{}
    && UpsertRows(l.ops) == multiset{}
  }

  /** The commit about to be posted is already in the metadata just loaded. */
  predicate AlreadyCommitted(hist: seq<Version>, base: nat, mark: nat) {
    base < |hist| && hist[base].wm > 0 && hist[base].wm >= mark
  }

  /** Some trace of the table is in the durable tail, so the next boot will be told of it. */
  ghost predicate Traced(tail: Tail, waiting: map<nat, Wait>) {
    tail.sidecar > 0 || exists e :: e in tail.frames && e.seqno !in waiting
  }

  function LastSeq(frames: seq<Stmt>): nat {
    if |frames| == 0 then 0 else frames[|frames| - 1].seqno
  }

  /** Boot replay: surviving frames re-enter the window in sequence order. */
  function Replay(pk: seq<string>, frames: seq<Stmt>): (b: Buf)
    ensures b.flushed == []
    ensures b.keyed.Some? ==> b.keyed.value.pkCols == pk
  {
    if |frames| == 0 then EMPTY
    else
      var b0 := Replay(pk, frames[..|frames| - 1]);
      var e := frames[|frames| - 1];
      StmtFacts(b0, pk, e.op, None, Some(e.seqno));
      StmtPk(b0, pk, e.op, None, Some(e.seqno));
      RouteStmt(b0, pk, e.op, None, Some(e.seqno)).buf
  }

  function Boot(pk: seq<string>, survivors: seq<Stmt>): Buf {
    if |survivors| == 0 then EMPTY
    else NoteTailHigh(Replay(pk, survivors), LastSeq(survivors))
  }

  /** The watermark boot replay filters against: property or sidecar, whichever is higher. */
  function EffectiveWatermark(s: State): nat
    requires |s.hist| > 0
  {
    Max(s.hist[LastIdx(s)].wm, s.tail.sidecar)
  }

  function Survivors(s: State, lost: set<nat>): seq<Stmt>
    requires |s.hist| > 0
  {
    Above(Minus(s.tail.frames, lost), EffectiveWatermark(s))
  }

  // ---- each step's effect --------------------------------------------------------------------

  function SpoiltByStage(s: State, op: Op): set<nat> {
    if op.Insert? then SpoiltByInsert(Entries(s.buf), s.waiting, OpKeys(op)) else {}
  }

  /** The statement is logged with the frame just staged, and its wait begins. */
  function Staged(s: State, op: Op, a: Acc): State {
    var sq := s.tail.nextSeq;
    s.(buf := a.buf,
       tail := s.tail.(frames := s.tail.frames + [Stmt(sq, op)], nextSeq := sq + 1),
       log := s.log + [Stmt(sq, op)],
       waiting := Shadow(s.waiting, SpoiltByStage(s, op))[sq := Wait(op, a.routed, false)])
  }

  function DoStage(s: State, op: Op): State
    requires !PkChanged(s.buf, s.pk)
  {
    Staged(s, op, RouteStmt(s.buf, s.pk, op, Some(s.tail.nextSeq), None))
  }

  function DoAck(s: State, sq: nat): State {
    s.(buf := NoteDurable(s.buf, sq), waiting := s.waiting - {sq})
  }

  /** The wait failed after a flush snapshot claimed the statement: only its frame is gone. */
  function FailedClaimed(s: State, sq: nat): State {
    s.(waiting := s.waiting - {sq}, failed := s.failed + {sq},
       tail := s.tail.(frames := Minus(s.tail.frames, {sq})))
  }

  /** The wait failed first: the statement never happened. */
  function FailedUndone(s: State, sq: nat, w: Wait): State {
    s.(buf := Retract(s.buf, w.routed).(undurable := s.buf.undurable - {sq}),
       waiting := Shadow(s.waiting - {sq}, SpoiltByUndo(s.keyedTable, s.waiting, OpKeys(w.op))),
       log := Minus(s.log, {sq}),
       tail := s.tail.(frames := Minus(s.tail.frames, {sq})))
  }

  function DoFail(s: State, sq: nat): (s': State)
    requires sq in s.waiting
    ensures s'.buf == Unroute(s.buf, sq, s.waiting[sq].routed)
  {
    if Claimed(s.buf, s.waiting[sq].routed) then FailedClaimed(s, sq) else FailedUndone(s, sq, s.waiting[sq])
  }

  function DoSnapshot(s: State): State {
    var snap := TakeSnapshot(s.buf);
    s.(buf := AfterSnapshot(s.buf), flight := Snapped(snap), frozen := MarkOf(snap))
  }

  function DoLoad(s: State): State
    requires s.flight.Snapped? && |s.hist| > 0
  {
    s.(buf := NoteObserved(s.buf, Seen(s.hist, LastIdx(s))),
       flight := Loaded(s.flight.snap, LastIdx(s)), served := Max(s.served, LastIdx(s)))
  }

  function DoPark(s: State): State
    requires s.flight.Loaded? && s.flight.snap.n <= |s.buf.pending|
  {
    var snap, mark := s.flight.snap, MarkOf(s.flight.snap);
    s.(buf := MoveToFlushed(s.buf, snap.n, snap.keyed, CoveredByWatermark(mark), s.clock),
       spans := s.spans + [Span(s.liveLo, mark)], liveLo := mark, flight := Settling(mark))
  }

  function DoDrop(s: State): State
    requires s.flight.Loaded? && s.flight.snap.n <= |s.buf.pending|
  {
    var snap, mark := s.flight.snap, MarkOf(s.flight.snap);
    s.(buf := DropPrefix(s.buf, snap.n, snap.keyed), liveLo := mark, flight := Settling(mark))
  }

  ghost function DoPrepare(s: State): State
    requires s.flight.Loaded? && s.flight.snap.n <= |s.buf.pending| && s.flight.base < |s.hist|
  {
    var snap, mark, v := s.flight.snap, MarkOf(s.flight.snap), s.hist[s.flight.base];
    var next := Version(s.nextSnap, Apply(v.rows, SnapLayer(snap)), Max(v.wm, mark));
    s.(buf := MoveToFlushed(s.buf, snap.n, snap.keyed, Snapshot(s.nextSnap), s.clock),
       nextSnap := s.nextSnap + 1,
       spans := s.spans + [Span(s.liveLo, mark)], liveLo := mark,
       flight := Posted(next, mark, s.flight.base, false))
  }

  function DoLand(s: State): State
    requires s.flight.Posted?
  {
    s.(hist := s.hist + [s.flight.next], flight := s.flight.(landed := true))
  }

  function DoMergeBack(s: State): State
    requires s.flight.Posted? && |s.spans| > 0 && |s.buf.flushed| > 0
  {
    var keys := s.buf.flushed[|s.buf.flushed| - 1].keyed.Keys;
    s.(buf := MoveBack(s.buf, s.flight.next.id),
       waiting := Shadow(s.waiting, SpoiltByBack(Entries(s.buf), s.waiting, keys)),
       spans := s.spans[..|s.spans| - 1], liveLo := s.spans[|s.spans| - 1].lo, flight := Idle)
  }

  function DoRecord(s: State, ok: bool): State
    requires s.flight.Settling?
  {
    if ok then s.(tail := s.tail.(sidecar := Max(s.tail.sidecar, s.flight.mark)), flight := Recorded(s.flight.mark))
    else s.(flight := Idle)
  }

  function DoTruncate(s: State, removed: set<nat>): State {
    s.(tail := s.tail.(frames := Minus(s.tail.frames, removed)), flight := Idle)
  }

  function DoForeign(s: State): State
    requires |s.hist| > 0
  {
    var last := s.hist[LastIdx(s)];
    s.(hist := s.hist + [Version(s.nextSnap, last.rows, last.wm)], nextSnap := s.nextSnap + 1)
  }

  function DoOverlay(s: State, x: Scan): State {
    s.(buf := NoteObserved(s.buf, Seen(s.hist, x.version)), scans := s.scans - multiset{x},
       served := Max(s.served, x.version))
  }

  function ExpiredCount(flushed: seq<Gen>, now: nat, gcAge: nat): nat {
    if |flushed| == 0 then 0
    else ExpiredCount(flushed[..|flushed| - 1], now, gcAge)
         + if Expired(flushed[|flushed| - 1], now, gcAge) then 1 else 0
  }

  function DoCollect(s: State): State {
    var k := ExpiredCount(s.buf.flushed, s.clock, s.gcAge);
    s.(buf := Gc(s.buf, s.clock, s.gcAge), spans := if k <= |s.spans| then s.spans[k..] else [])
  }

  function DoCrash(s: State, lost: set<nat>): State
    requires |s.hist| > 0
  {
    var w := EffectiveWatermark(s);
    var frames := Minus(s.tail.frames, lost);
    var survivors := Survivors(s, lost);
    var reported := frames != [] || s.tail.sidecar > 0;
    s.(buf := Boot(s.pk, survivors),
       tail := Tail(frames, s.tail.sidecar, if reported then Max(w, LastSeq(frames)) + 1 else 1),
       flight := if |survivors| < |frames| then Settling(w) else Idle,
       scans := multiset{}, served := LastIdx(s),
       log := Upto(s.log, w) + survivors, waiting := map[], failed := {},
       spans := [], liveLo := w, frozen := w)
  }

  // ---- when a step may happen ------------------------------------------------------------------

  /** A merge-back loses nothing: the newest generation's keys carry no newer plain append. */
  ghost predicate MergeBackOk(s: State) {
    |s.buf.flushed| > 0 && MergeBackSafe(s.buf.flushed[|s.buf.flushed| - 1], s.buf)
  }

  /** Part of the window is already committed: an errored post had landed and its reload failed. */
  predicate Doubled(s: State) {
    |s.hist| > 0 && s.hist[LastIdx(s)].wm > s.liveLo
  }

  /** ... and only part: statements staged since have raised the snapshot's mark above it. */
  predicate PartlyCovered(s: State) {
    |s.hist| > 0 && s.liveLo < s.hist[LastIdx(s)].wm < s.frozen
  }

  /** The metadata a scan begins on lacks no generation tagged longer than `lag` ago. */
  ghost predicate Recent(s: State, v: nat) {
    forall i :: 0 <= i < |s.buf.flushed| && !Contains(s.hist, v, s.buf.flushed[i].commit)
      ==> s.clock <= s.buf.flushed[i].committedAt + s.lag
  }

  /** The version holds every generation a collection would drop now. */
  ghost predicate HoldsExpired(s: State, v: nat) {
    forall i :: 0 <= i < |s.buf.flushed| && Expired(s.buf.flushed[i], s.clock, s.gcAge)
      ==> Contains(s.hist, v, s.buf.flushed[i].commit)
  }

  /** Each scan in progress holds what is about to be dropped, or has not been running for the collection
      age less the lag. */
  ghost predicate ScansYoung(s: State) {
    forall x :: x in s.scans ==> HoldsExpired(s, x.version) || s.clock + s.lag < x.began + s.gcAge
  }

  /** On a table with keyed operations, no surviving INSERT relies on a statement the crash loses or
      whose wait had failed. */
  ghost predicate CrashClean(s: State, lost: set<nat>)
    requires |s.hist| > 0
  {
    s.keyedTable ==> Unorphaned(Above(s.log, EffectiveWatermark(s)), s.failed + lost)
  }

  /** What a crash leaves is a log the table could have had. */
  ghost predicate CrashAllowed(s: State, lost: set<nat>)
    requires |s.hist| > 0
  {
    AllAllowed(s.keyedTable, s.base, Upto(s.log, EffectiveWatermark(s)) + Survivors(s, lost))
  }

  /** What the code itself tests before a step. */
  ghost predicate Enabled(s: State, step: Step) {
    |s.hist| > 0 &&
    match step
    case StageStmt(op) => !PkChanged(s.buf, s.pk)
    case Ack(sq) => sq in s.waiting
    case FailWait(sq) => sq in s.waiting
    case FlushSnapshot => s.flight.Idle? && (s.buf.pending != [] || Entries(s.buf) != map[])
    case FlushLoad => s.flight.Snapped?
    case ParkCovered =>
      && s.flight.Loaded? && s.flight.snap.n <= |s.buf.pending|
      && AlreadyCommitted(s.hist, s.flight.base, MarkOf(s.flight.snap))
    case DropNetZero =>
      && s.flight.Loaded? && s.flight.snap.n <= |s.buf.pending| && s.flight.base < |s.hist|
      && !AlreadyCommitted(s.hist, s.flight.base, MarkOf(s.flight.snap))
      && NetZero(s.hist[s.flight.base].rows, SnapLayer(s.flight.snap))
    case Prepare =>
      && s.flight.Loaded? && s.flight.snap.n <= |s.buf.pending| && s.flight.base < |s.hist|
      && !AlreadyCommitted(s.hist, s.flight.base, MarkOf(s.flight.snap))
      && !NetZero(s.hist[s.flight.base].rows, SnapLayer(s.flight.snap))
    case Land => s.flight.Posted? && !s.flight.landed && s.flight.base == LastIdx(s)
    case Reject =>
      && s.flight.Posted? && !s.flight.landed && s.flight.base != LastIdx(s)
      && |s.spans| > 0 && |s.buf.flushed| > 0
    case Committed => s.flight.Posted? && s.flight.landed
    case PostError(_) => s.flight.Posted? && |s.spans| > 0 && |s.buf.flushed| > 0
    case RecordWatermark(_) => s.flight.Settling?
    case Truncate(removed) => s.flight.Recorded? && forall q :: q in removed ==> q <= s.flight.mark
    case ForeignCommit => true
    case BeginScan(v) => v < |s.hist|
    case TakeOverlay(x) => x in s.scans
    case Collect => s.flight.Idle?
    case Tick(_) => true
    case Crash(lost) => lost <= s.waiting.Keys
  }

  /** What the code takes for granted, hypothesis by hypothesis:
      H1  a merged-back generation owns no key of a newer plain append;
      H2  nothing has spoilt the undo of a statement that is undone;
      H3  a window part of which, and only part, is already committed is not posted again;
      H5  a scan begins on metadata no older than any observed one and lacking no generation tagged
          longer than `lag` ago, at a collection each scan holds what is dropped or has not been running
          for the age less the lag, and a commit leaves a trace in the tail;
      H6  an INSERT on a keyed table targets no present key, and none that survives a crash follows a
          lost statement on its key. */
  ghost predicate Assumed(s: State, step: Step)
    requires Enabled(s, step)
  {
    match step
    case StageStmt(op) => Allowed(s.keyedTable, Logical(s), op)                                    // H6
    case FailWait(sq) => Claimed(s.buf, s.waiting[sq].routed) || !s.waiting[sq].shadowed           // H2
    case DropNetZero => !PartlyCovered(s)                                                          // H3
    case Prepare => !PartlyCovered(s)                                                              // H3
    case Land => Traced(s.tail, s.waiting)                                                         // H5
    case Reject => MergeBackOk(s)                                                                  // H1
    case PostError(reload) => !(reload && s.hist[LastIdx(s)].wm >= s.flight.mark) ==> MergeBackOk(s)   // H1
    case BeginScan(v) => s.served <= v && Recent(s, v)                                             // H5
    case Collect => ScansYoung(s)                                                                  // H5
    case Crash(lost) => CrashClean(s, lost)                                                        // H6
    case _ => true
  }

  ghost predicate Can(s: State, step: Step) {
    Enabled(s, step) && Assumed(s, step)
  }

  ghost function Do(s: State, step: Step): State
    requires Enabled(s, step)
  {
    match step
    case StageStmt(op) => DoStage(s, op)
    case Ack(sq) => DoAck(s, sq)
    case FailWait(sq) => DoFail(s, sq)
    case FlushSnapshot => DoSnapshot(s)
    case FlushLoad => DoLoad(s)
    case ParkCovered => DoPark(s)
    case DropNetZero => DoDrop(s)
    case Prepare => DoPrepare(s)
    case Land => DoLand(s)
    case Reject => DoMergeBack(s)
    case Committed => s.(flight := Settling(s.flight.mark))
    case PostError(reload) =>
      if reload && s.hist[LastIdx(s)].wm >= s.flight.mark then s.(flight := Settling(s.flight.mark))
      else DoMergeBack(s)
    case RecordWatermark(ok) => DoRecord(s, ok)
    case Truncate(removed) => DoTruncate(s, removed)
    case ForeignCommit => DoForeign(s)
    case BeginScan(v) => s.(scans := s.scans + multiset{Scan(v, s.clock)})
    case TakeOverlay(x) => DoOverlay(s, x)
    case Collect => DoCollect(s)
    case Tick(d) => s.(clock := s.clock + d)
    case Crash(lost) => DoCrash(s, lost)
  }

  /** A table with `rows` committed, nothing buffered, an empty tail. */
  ghost predicate Initial(s: State) {
    && s.hist == [Version(0, s.base, 0)] && s.nextSnap == 1
    && s.buf == EMPTY && s.flight == Idle && s.tail == Tail([], 0, 1)
    && s.scans == multiset{} && s.served == 0
    && s.log == [] && s.waiting == map[] && s.failed == {}
    && s.spans == [] && s.liveLo == 0 && s.frozen == 0
  }
}
