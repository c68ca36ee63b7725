/** What every reachable state of the engine keeps. Each predicate takes the parts of the state
    it speaks about, so a step that leaves them alone keeps it. */
module Invariants {
  import opened Rows
  import opened Window
  import opened Layers
  import opened Undo
  import opened Statements
  import opened Log
  import opened Engine

  /** The mark below generation `i`; below the live window when there is no such generation. */
  function Lo(spans: seq<Span>, liveLo: nat, i: nat): nat {
    if i < |spans| then spans[i].lo else liveLo
  }

  ghost predicate LogOk(keyedTable: bool, base: Table, log: seq<Stmt>, nextSeq: nat) {
    && Sorted(log)
    && (forall e :: e in log ==> 1 <= e.seqno < nextSeq)
    && AllAllowed(keyedTable, base, log)
  }

  /** Watermark-in-commit: a version's rows are the table at the version's own watermark. */
  ghost predicate HistOk(hist: seq<Version>, base: Table, log: seq<Stmt>, frozen: nat) {
    && |hist| > 0
    && (forall v :: 0 <= v < |hist| ==> hist[v].rows == At(base, log, hist[v].wm))
    && (forall u, v :: 0 <= u <= v < |hist| ==> hist[u].wm <= hist[v].wm)
    && hist[|hist| - 1].wm <= frozen
  }

  ghost predicate IdsOk(hist: seq<Version>, nextSnap: nat, flushed: seq<Gen>) {
    && (forall v :: 0 <= v < |hist| ==> hist[v].id < nextSnap)
    && (forall i :: 0 <= i < |flushed| && flushed[i].commit.Snapshot? ==> flushed[i].commit.id < nextSnap)
    && (forall i, j :: 0 <= i < j < |flushed| && flushed[i].commit.Snapshot? && flushed[j].commit.Snapshot?
          ==> flushed[i].commit.id < flushed[j].commit.id)
  }

  /** The marks of the generations and of the live window are in order. */
  ghost predicate MarksOk(spans: seq<Span>, liveLo: nat, frozen: nat, nextSeq: nat) {
    && liveLo <= frozen < nextSeq
    && forall i :: 0 <= i < |spans| ==> spans[i].lo < spans[i].hi <= Lo(spans, liveLo, i + 1)
  }

  ghost predicate BufOk(pk: seq<string>, keyedTable: bool, buf: Buf) {
    && WellFormed(buf)
    && (buf.keyed.Some? ==> buf.keyed.value.pkCols == pk)
    && (!keyedTable ==> Entries(buf) == map[] && forall i :: 0 <= i < |buf.flushed| ==> buf.flushed[i].keyed == map[])
  }

  /** The high mark bounds the log, and lies above the live window's mark while it holds anything. */
  ghost predicate TopOk(buf: Buf, log: seq<Stmt>, liveLo: nat, frozen: nat, nextSeq: nat) {
    && (buf.tailHigh.Some? ==>
          && frozen <= buf.tailHigh.value < nextSeq
          && forall e :: e in log ==> e.seqno <= buf.tailHigh.value)
    && (buf.pending != [] || Entries(buf) != map[] ==> buf.tailHigh.Some? && buf.tailHigh.value > liveLo)
  }

  /** The chain's link at generation `i`. */
  ghost predicate ChainAt(
    spans: seq<Span>, liveLo: nat, flushed: seq<Gen>, base: Table, log: seq<Stmt>, i: nat)
    requires i < |spans| == |flushed|
  {
    Apply(At(base, log, spans[i].lo), GenLayer(flushed[i])) == At(base, log, Lo(spans, liveLo, i + 1))
  }

  /** Each generation's layer takes the table from its own mark to the next one. */
  ghost predicate ChainOk(
    spans: seq<Span>, liveLo: nat, flushed: seq<Gen>, base: Table, log: seq<Stmt>)
  {
    && |spans| == |flushed|
    && forall i: nat :: i < |flushed| ==> ChainAt(spans, liveLo, flushed, base, log, i)
  }

  /** Metadata holds a generation exactly when its watermark has passed the generation's marks. */
  ghost predicate SeenOk(hist: seq<Version>, spans: seq<Span>, flushed: seq<Gen>) {
    && |spans| == |flushed|
    && forall v, i :: 0 <= v < |hist| && 0 <= i < |flushed| ==>
         if Contains(hist, v, flushed[i].commit) then spans[i].hi <= hist[v].wm else hist[v].wm <= spans[i].lo
  }

  /** Every generation is committed, except the one whose post has not landed. */
  ghost predicate AllSeen(hist: seq<Version>, flushed: seq<Gen>, flight: Flight) {
    && |hist| > 0
    && forall i :: 0 <= i < |flushed| && (flight.Posted? && !flight.landed ==> i < |flushed| - 1) ==>
         Contains(hist, |hist| - 1, flushed[i].commit)
  }

  /** Some scan in progress holds this version. */
  ghost predicate Scanned(scans: multiset<Scan>, v: nat) {
    exists x :: x in scans && x.version == v
  }

  /** Metadata a scan may hold now or get from now on. */
  ghost predicate Servable(hist: seq<Version>, served: nat, scans: multiset<Scan>, v: nat) {
    v < |hist| && (served <= v || Scanned(scans, v))
  }

  ghost predicate FirstUnseen(hist: seq<Version>, flushed: seq<Gen>, v: nat, j: nat) {
    && j <= |flushed|
    && (forall i :: 0 <= i < j ==> Contains(hist, v, flushed[i].commit))
    && (j < |flushed| ==> !Contains(hist, v, flushed[j].commit))
  }

  /** A servable version's rows are the table the first unseen layer builds on. */
  ghost predicate LinkOk(
    hist: seq<Version>, served: nat, scans: multiset<Scan>, spans: seq<Span>, liveLo: nat,
    flushed: seq<Gen>, base: Table, log: seq<Stmt>)
  {
    forall v: nat, j: nat ::
      && Servable(hist, served, scans, v) && FirstUnseen(hist, flushed, v, j)
      && (j == |flushed| ==> hist[v].wm <= liveLo)
      ==> At(base, log, hist[v].wm) == At(base, log, Lo(spans, liveLo, j))
  }

  /** Only the newest watermark can have passed the live window's mark. */
  ghost predicate DoubledOk(hist: seq<Version>, liveLo: nat) {
    && |hist| > 0
    && forall v :: 0 <= v < |hist| ==> hist[v].wm <= liveLo || hist[v].wm == hist[|hist| - 1].wm
  }

  ghost predicate LiveOk(base: Table, log: seq<Stmt>, liveLo: nat, buf: Buf) {
    Apply(At(base, log, liveLo), Live(buf)) == Fold(base, log)
  }

  /** A scan in progress lacks only generations that were tagged at most `lag` before it began. */
  ghost predicate LagOk(hist: seq<Version>, scans: multiset<Scan>, flushed: seq<Gen>, clock: nat, lag: nat) {
    forall x :: x in scans ==>
      && x.began <= clock
      && forall i :: 0 <= i < |flushed| && !Contains(hist, x.version, flushed[i].commit)
           ==> x.began <= flushed[i].committedAt + lag
  }

  ghost predicate OpsBelow(ops: map<Key, Entry>, bound: nat) {
    forall k :: k in ops ==> ops[k].stamp < bound
  }

  /** What the flusher knows while it holds a snapshot. */
  ghost predicate SnapReady(buf: Buf, snap: Snap, liveLo: nat, frozen: nat, base: Table, log: seq<Stmt>) {
    && SnapOf(buf, snap.n, snap.keyed)
    && ClaimedPrefix(buf.pending, snap.n)
    && RowsOf(buf.pending[..snap.n]) == snap.batches
    && snap.mark == Some(frozen) && liveLo < frozen
    && Apply(At(base, log, liveLo), SnapLayer(snap)) == At(base, log, frozen)
    && OpsBelow(snap.keyed, ClaimedBelow(buf))
    && buf.tailHigh.Some?
    && (|buf.pending| > snap.n || Drained(Entries(buf), snap.keyed) != map[] ==> buf.tailHigh.value > frozen)
  }

  ghost predicate PostedOk(
    next: Version, mark: nat, landed: bool, hist: seq<Version>, nextSnap: nat, buf: Buf,
    spans: seq<Span>, liveLo: nat, frozen: nat, sidecar: nat, base: Table, log: seq<Stmt>)
  {
    && |hist| > 0 && |buf.flushed| > 0 && |spans| == |buf.flushed|
    && buf.flushed[|buf.flushed| - 1].commit == Snapshot(next.id)
    && spans[|spans| - 1].hi == mark == liveLo == frozen
    && sidecar <= spans[|spans| - 1].lo
    && OpsBelow(buf.flushed[|buf.flushed| - 1].keyed, ClaimedBelow(buf))
    && next.wm == mark && next.rows == At(base, log, mark) && next.id < nextSnap
    && buf.tailHigh.Some?
    && (!landed ==>
          && hist[|hist| - 1].wm <= spans[|spans| - 1].lo
          && forall v :: 0 <= v < |hist| ==> hist[v].id != next.id)
    && (landed ==> hist[|hist| - 1].wm == mark)
  }

  ghost predicate Covered(hist: seq<Version>, mark: nat, base: Table, log: seq<Stmt>) {
    |hist| > 0 && (mark <= hist[|hist| - 1].wm || At(base, log, hist[|hist| - 1].wm) == At(base, log, mark))
  }

  ghost predicate FlightOk(
    flight: Flight, hist: seq<Version>, nextSnap: nat, buf: Buf, spans: seq<Span>, liveLo: nat,
    frozen: nat, sidecar: nat, base: Table, log: seq<Stmt>)
  {
    && sidecar <= liveLo && Covered(hist, sidecar, base, log)
    && match flight
       case Idle => true
       case Snapped(snap) => SnapReady(buf, snap, liveLo, frozen, base, log)
       case Loaded(snap, b) =>
         && SnapReady(buf, snap, liveLo, frozen, base, log)
         && b < |hist| && hist[b].wm == hist[|hist| - 1].wm
       case Posted(next, mark, b, landed) =>
         PostedOk(next, mark, landed, hist, nextSnap, buf, spans, liveLo, frozen, sidecar, base, log)
       case Settling(mark) => 0 < mark == liveLo && Covered(hist, mark, base, log)
       case Recorded(mark) => 0 < mark <= sidecar
  }

  /** The surviving frames above the effective watermark are the log above it, failed waits aside. */
  ghost predicate TailOk(tail: Tail, wm: nat, log: seq<Stmt>, failed: set<nat>) {
    && Sorted(tail.frames)
    && (forall e :: e in tail.frames ==> 1 <= e.seqno < tail.nextSeq)
    && (forall q :: q in failed ==> q < tail.nextSeq)
    && Above(tail.frames, Max(wm, tail.sidecar)) == Minus(Above(log, Max(wm, tail.sidecar)), failed)
  }

  ghost predicate TraceOk(wm: nat, tail: Tail, waiting: map<nat, Wait>) {
    wm > 0 ==> Traced(tail, waiting)
  }

  /** Observation implies every scan from now on sees the commit; ages and observations are in
      generation order. */
  ghost predicate ObservedOk(hist: seq<Version>, served: nat, scans: multiset<Scan>, flushed: seq<Gen>, clock: nat) {
    && served < |hist|
    && (forall x :: x in scans ==> x.version < |hist|)
    && (forall i :: 0 <= i < |flushed| && flushed[i].observed ==> Contains(hist, served, flushed[i].commit))
    && (forall i :: 0 <= i < |flushed| ==> flushed[i].committedAt <= clock)
    && (forall i, j :: 0 <= i < j < |flushed| ==>
          flushed[i].committedAt <= flushed[j].committedAt && (flushed[j].observed ==> flushed[i].observed))
  }

  // ---- waiting statements --------------------------------------------------------------------

  /** A flush snapshot took all of the statement; nothing can undo that. */
  ghost predicate WhollyClaimed(buf: Buf, routed: Routed) {
    && (routed.ids != [] || routed.keyed != [])
    && (forall i :: 0 <= i < |buf.pending| && buf.pending[i].id in routed.ids ==> buf.pending[i].claimed)
    && (forall j :: 0 <= j < |routed.keyed| ==> routed.keyed[j].stamp < ClaimedBelow(buf))
  }

  /** No flush snapshot took any of it. */
  ghost predicate Unclaimed(buf: Buf, routed: Routed) {
    && (forall i :: 0 <= i < |buf.pending| && buf.pending[i].id in routed.ids ==> !buf.pending[i].claimed)
    && (forall j :: 0 <= j < |routed.keyed| ==> routed.keyed[j].stamp >= ClaimedBelow(buf))
  }

  /** A statement's record names what exists, and only its own keys. */
  ghost predicate RecordOk(buf: Buf, op: Op, routed: Routed) {
    && (routed.ids != [] || routed.keyed != [])
    && (forall i :: i in routed.ids ==> i < buf.nextId)
    && (forall j :: 0 <= j < |routed.keyed| ==> routed.keyed[j].stamp < NextStamp(buf))
    && OlderDisplaced(routed.keyed) && StampsRise(routed.keyed)
    && OwnBatches(buf, routed, OpKeys(op))
  }

  /** Unrouting the statement gives the table the log without it gives, at its own keys. */
  ghost predicate UndoOk(q: nat, op: Op, routed: Routed, buf: Buf, liveLo: nat, base: Table, log: seq<Stmt>) {
    forall r: Row :: r.key in OpKeys(op) ==>
      Apply(At(base, log, liveLo), Live(Retract(buf, routed)))[r] == Fold(base, Minus(log, {q}))[r]
  }

  function SnapKeyed(flight: Flight): map<Key, Entry> {
    match flight
    case Snapped(snap) => snap.keyed
    case Loaded(snap, _) => snap.keyed
    case _ => map[]
  }

  /** Undo leaves a snapshotted key in the map. */
  ghost predicate SnapKept(entries: map<Key, Entry>, snap: map<Key, Entry>) {
    forall k :: k in snap ==> k in entries && (entries[k].stamp == snap[k].stamp ==> entries[k] == snap[k])
  }

  ghost predicate UndoReady(
    q: nat, w: Wait, buf: Buf, flight: Flight, liveLo: nat, base: Table, log: seq<Stmt>)
  {
    && UndoOk(q, w.op, w.routed, buf, liveLo, base, log)
    && SnapKept(RestoreKeys(Entries(buf), w.routed.keyed), SnapKeyed(flight))
  }

  ghost predicate WaitOk(
    q: nat, w: Wait, buf: Buf, flight: Flight, liveLo: nat, frozen: nat, base: Table, log: seq<Stmt>,
    failed: set<nat>)
  {
    && Stmt(q, w.op) in log && q !in failed
    && buf.tailHigh.Some? && q <= buf.tailHigh.value
    && RecordOk(buf, w.op, w.routed)
    && (if q <= frozen then WhollyClaimed(buf, w.routed)
        else Unclaimed(buf, w.routed) && (!w.shadowed ==> UndoReady(q, w, buf, flight, liveLo, base, log)))
  }

  ghost predicate WaitsOk(
    waiting: map<nat, Wait>, buf: Buf, flight: Flight, liveLo: nat, frozen: nat, base: Table,
    log: seq<Stmt>, failed: set<nat>)
  {
    forall q :: q in waiting ==> WaitOk(q, waiting[q], buf, flight, liveLo, frozen, base, log, failed)
  }

  /** On a table with keyed operations, the log without a statement that can still be undone is one
      the table could have had. */
  ghost predicate UndoAllowed(keyedTable: bool, waiting: map<nat, Wait>, frozen: nat, base: Table, log: seq<Stmt>) {
    keyedTable ==>
      forall q :: q in waiting && q > frozen && !waiting[q].shadowed ==> AllAllowed(true, base, Minus(log, {q}))
  }

  /** The batches of the record hold exactly the statement's rows. */
  ghost predicate PlainRows(pending: seq<Batch>, w: Wait) {
    && w.op.Insert? && w.routed.keyed == []
    && forall r: Row :: Bag(RowsOf(DropIds(pending, IdSet(w.routed.ids))))[r] + multiset(Flatten(w.op.batches))[r]
                        == Bag(RowsOf(pending))[r]
  }

  /** On a table without keyed operations every statement that can still be undone is in the window
      as it was staged, in batches of its own. */
  ghost predicate PlainOk(keyedTable: bool, waiting: map<nat, Wait>, frozen: nat, buf: Buf) {
    !keyedTable ==>
      && (forall q :: q in waiting && q > frozen ==> PlainRows(buf.pending, waiting[q]))
      && (forall q, p :: q in waiting && p in waiting && q > frozen && p > frozen && q != p ==>
            IdSet(waiting[q].routed.ids) !! IdSet(waiting[p].routed.ids))
  }

  // ---- the whole invariant -------------------------------------------------------------------

  ghost predicate CatalogInv(s: State) {
    && HistOk(s.hist, s.base, s.log, s.frozen)
    && IdsOk(s.hist, s.nextSnap, s.buf.flushed)
    && MarksOk(s.spans, s.liveLo, s.frozen, s.tail.nextSeq)
    && ChainOk(s.spans, s.liveLo, s.buf.flushed, s.base, s.log)
    && SeenOk(s.hist, s.spans, s.buf.flushed)
    && AllSeen(s.hist, s.buf.flushed, s.flight)
    && LinkOk(s.hist, s.served, s.scans, s.spans, s.liveLo, s.buf.flushed, s.base, s.log)
    && DoubledOk(s.hist, s.liveLo)
    && ObservedOk(s.hist, s.served, s.scans, s.buf.flushed, s.clock)
    && LagOk(s.hist, s.scans, s.buf.flushed, s.clock, s.lag)
  }

  ghost predicate WindowInv(s: State) {
    && LogOk(s.keyedTable, s.base, s.log, s.tail.nextSeq)
    && BufOk(s.pk, s.keyedTable, s.buf)
    && TopOk(s.buf, s.log, s.liveLo, s.frozen, s.tail.nextSeq)
    && LiveOk(s.base, s.log, s.liveLo, s.buf)
    && FlightOk(s.flight, s.hist, s.nextSnap, s.buf, s.spans, s.liveLo, s.frozen, s.tail.sidecar, s.base, s.log)
  }

  ghost predicate TailInv(s: State)
    requires |s.hist| > 0
  {
    && TailOk(s.tail, s.hist[LastIdx(s)].wm, s.log, s.failed)
    && TraceOk(s.hist[LastIdx(s)].wm, s.tail, s.waiting)
  }

  ghost predicate WaitInv(s: State) {
    && WaitsOk(s.waiting, s.buf, s.flight, s.liveLo, s.frozen, s.base, s.log, s.failed)
    && UndoAllowed(s.keyedTable, s.waiting, s.frozen, s.base, s.log)
    && PlainOk(s.keyedTable, s.waiting, s.frozen, s.buf)
  }

  ghost predicate Inv(s: State) {
    |s.hist| > 0 && CatalogInv(s) && WindowInv(s) && TailInv(s) && WaitInv(s)
  }

  lemma TailIntro(s: State)
    requires |s.hist| > 0
    requires TailOk(s.tail, s.hist[LastIdx(s)].wm, s.log, s.failed)
    requires TraceOk(s.hist[LastIdx(s)].wm, s.tail, s.waiting)
    ensures TailInv(s)
  {}

  lemma WindowIntro(s: State)
    requires LogOk(s.keyedTable, s.base, s.log, s.tail.nextSeq)
    requires BufOk(s.pk, s.keyedTable, s.buf)
    requires TopOk(s.buf, s.log, s.liveLo, s.frozen, s.tail.nextSeq)
    requires LiveOk(s.base, s.log, s.liveLo, s.buf)
    requires FlightOk(s.flight, s.hist, s.nextSnap, s.buf, s.spans, s.liveLo, s.frozen, s.tail.sidecar, s.base, s.log)
    ensures WindowInv(s)
  {}

  lemma InvIntro(s: State)
    requires |s.hist| > 0 && CatalogInv(s) && WindowInv(s) && TailInv(s) && WaitInv(s)
    ensures Inv(s)
  {}

  lemma CatalogIntro(s: State)
    requires HistOk(s.hist, s.base, s.log, s.frozen)
    requires IdsOk(s.hist, s.nextSnap, s.buf.flushed)
    requires MarksOk(s.spans, s.liveLo, s.frozen, s.tail.nextSeq)
    requires ChainOk(s.spans, s.liveLo, s.buf.flushed, s.base, s.log)
    requires SeenOk(s.hist, s.spans, s.buf.flushed)
    requires AllSeen(s.hist, s.buf.flushed, s.flight)
    requires LinkOk(s.hist, s.served, s.scans, s.spans, s.liveLo, s.buf.flushed, s.base, s.log)
    requires DoubledOk(s.hist, s.liveLo)
    requires ObservedOk(s.hist, s.served, s.scans, s.buf.flushed, s.clock)
    requires LagOk(s.hist, s.scans, s.buf.flushed, s.clock, s.lag)
    ensures CatalogInv(s)
  {}

  lemma WaitIntro(
    q: nat, w: Wait, buf: Buf, flight: Flight, liveLo: nat, frozen: nat, base: Table, log: seq<Stmt>, failed: set<nat>)
    requires Stmt(q, w.op) in log && q !in failed
    requires buf.tailHigh.Some? && q <= buf.tailHigh.value
    requires RecordOk(buf, w.op, w.routed)
    requires q <= frozen ==> WhollyClaimed(buf, w.routed)
    requires q > frozen ==> Unclaimed(buf, w.routed)
    requires q > frozen && !w.shadowed ==> UndoReady(q, w, buf, flight, liveLo, base, log)
    ensures WaitOk(q, w, buf, flight, liveLo, frozen, base, log, failed)
  {}

  lemma WaitsIntro(s: State)
    requires WaitsOk(s.waiting, s.buf, s.flight, s.liveLo, s.frozen, s.base, s.log, s.failed)
    requires UndoAllowed(s.keyedTable, s.waiting, s.frozen, s.base, s.log)
    requires PlainOk(s.keyedTable, s.waiting, s.frozen, s.buf)
    ensures WaitInv(s)
  {}

  lemma Unshadowed(waiting: map<nat, Wait>, spoilt: set<nat>, q: nat)
    requires q in waiting && !Shadow(waiting, spoilt)[q].shadowed
    ensures !waiting[q].shadowed && q !in spoilt
  {}

  /** A statement an undo has not met shares no key with it. */
  lemma Unmet(keyedTable: bool, waiting: map<nat, Wait>, keys: set<Key>, q: nat)
    requires keyedTable && q in waiting && q !in SpoiltByUndo(keyedTable, waiting, keys)
    ensures OpKeys(waiting[q].op) !! keys
  {
    var own := OpKeys(waiting[q].op);
    assert own * keys == {};
    assert forall k :: k in own && k in keys ==> k in own * keys;
  }

  lemma EmptyLive(c: Table)
    ensures Apply(c, Live(EMPTY)) == c
  {
    assert RowsOf([]) == [];
    forall r: Row ensures Apply(c, Live(EMPTY))[r] == c[r] {}
    SameTable(Apply(c, Live(EMPTY)), c);
  }

  lemma InitialWindow(s: State)
    requires Initial(s)
    ensures WindowInv(s)
  {
    assert ClaimedPrefix(s.buf.pending, 0);
    EmptyLive(s.base);
    assert At(s.base, s.log, 0) == s.base;
  }

  lemma InitialCatalog(s: State)
    requires Initial(s)
    ensures CatalogInv(s)
  {
    assert At(s.base, s.log, 0) == s.base;
  }

  lemma InitialInv(s: State)
    requires Initial(s)
    ensures Inv(s)
  {
    InitialWindow(s);
    InitialCatalog(s);
  }

  // ---- logs that agree below a mark ------------------------------------------------------------

  /** Two logs give the same table at every mark up to `top`. */
  ghost predicate Agree(base: Table, log: seq<Stmt>, log': seq<Stmt>, top: nat) {
    forall w: nat :: w <= top ==> At(base, log', w) == At(base, log, w)
  }

  lemma AgreeSnoc(base: Table, log: seq<Stmt>, e: Stmt, top: nat)
    requires e.seqno > top
    ensures Agree(base, log, log + [e], top)
  {
    forall w: nat | w <= top ensures At(base, log + [e], w) == At(base, log, w) { UptoSnoc(log, e, w); }
  }

  lemma AgreeMinus(base: Table, log: seq<Stmt>, sq: nat, top: nat)
    requires Sorted(log) && sq > top
    ensures Agree(base, log, Minus(log, {sq}), top)
  {
    forall w: nat | w <= top ensures At(base, Minus(log, {sq}), w) == At(base, log, w) { UptoBelow(log, sq, w); }
  }

  lemma AtTop(base: Table, log: seq<Stmt>, w: nat)
    requires forall e :: e in log ==> e.seqno <= w
    ensures At(base, log, w) == Fold(base, log)
  {
    UptoAll(log, w);
  }

  lemma LoBound(spans: seq<Span>, liveLo: nat, frozen: nat, nextSeq: nat, i: nat)
    requires MarksOk(spans, liveLo, frozen, nextSeq)
    ensures Lo(spans, liveLo, i) <= liveLo
    decreases |spans| - i
  {
    if i < |spans| { LoBound(spans, liveLo, frozen, nextSeq, i + 1); }
  }

  /** Everything the catalog side says survives a log that agrees below the frozen mark. */
  lemma HistAgree(hist: seq<Version>, base: Table, log: seq<Stmt>, log': seq<Stmt>, frozen: nat)
    requires HistOk(hist, base, log, frozen) && Agree(base, log, log', frozen)
    ensures HistOk(hist, base, log', frozen)
  {
    forall v | 0 <= v < |hist| ensures hist[v].rows == At(base, log', hist[v].wm) {
      assert hist[v].wm <= hist[|hist| - 1].wm;
    }
  }

  lemma AgreeAt(base: Table, log: seq<Stmt>, log': seq<Stmt>, top: nat, w: nat)
    requires Agree(base, log, log', top) && w <= top
    ensures At(base, log', w) == At(base, log, w)
  {}

  lemma ChainAgreeAt(
    spans: seq<Span>, liveLo: nat, flushed: seq<Gen>, base: Table, log: seq<Stmt>, log': seq<Stmt>,
    top: nat, i: nat)
    requires i < |spans| == |flushed| && ChainAt(spans, liveLo, flushed, base, log, i)
    requires Agree(base, log, log', top) && spans[i].lo <= top && Lo(spans, liveLo, i + 1) <= top
    ensures ChainAt(spans, liveLo, flushed, base, log', i)
  {
    AgreeAt(base, log, log', top, spans[i].lo);
    AgreeAt(base, log, log', top, Lo(spans, liveLo, i + 1));
  }

  lemma ChainAgree(
    spans: seq<Span>, liveLo: nat, flushed: seq<Gen>, base: Table, log: seq<Stmt>, log': seq<Stmt>,
    frozen: nat, nextSeq: nat)
    requires ChainOk(spans, liveLo, flushed, base, log) && Agree(base, log, log', frozen)
    requires MarksOk(spans, liveLo, frozen, nextSeq)
    ensures ChainOk(spans, liveLo, flushed, base, log')
  {
    forall i: nat | i < |flushed| ensures ChainAt(spans, liveLo, flushed, base, log', i) {
      assert ChainAt(spans, liveLo, flushed, base, log, i);
      LoBound(spans, liveLo, frozen, nextSeq, i);
      LoBound(spans, liveLo, frozen, nextSeq, i + 1);
      ChainAgreeAt(spans, liveLo, flushed, base, log, log', frozen, i);
    }
  }

  lemma LinkAgree(
    hist: seq<Version>, served: nat, scans: multiset<Scan>, spans: seq<Span>, liveLo: nat, flushed: seq<Gen>,
    base: Table, log: seq<Stmt>, log': seq<Stmt>, frozen: nat, nextSeq: nat)
    requires LinkOk(hist, served, scans, spans, liveLo, flushed, base, log) && Agree(base, log, log', frozen)
    requires MarksOk(spans, liveLo, frozen, nextSeq) && HistOk(hist, base, log, frozen)
    ensures LinkOk(hist, served, scans, spans, liveLo, flushed, base, log')
  {
    forall v: nat, j: nat | Servable(hist, served, scans, v) && FirstUnseen(hist, flushed, v, j)
                  && (j == |flushed| ==> hist[v].wm <= liveLo)
      ensures At(base, log', hist[v].wm) == At(base, log', Lo(spans, liveLo, j))
    {
      LoBound(spans, liveLo, frozen, nextSeq, j);
      assert hist[v].wm <= hist[|hist| - 1].wm;
    }
  }

  lemma CoveredAgree(hist: seq<Version>, mark: nat, base: Table, log: seq<Stmt>, log': seq<Stmt>, frozen: nat)
    requires Covered(hist, mark, base, log) && Agree(base, log, log', frozen)
    requires hist[|hist| - 1].wm <= frozen && mark <= frozen
    ensures Covered(hist, mark, base, log')
  {}

  /** The flusher's knowledge survives a change of window and log, given its own part does. */
  lemma FlightKept(
    flight: Flight, hist: seq<Version>, nextSnap: nat, b: Buf, b': Buf, spans: seq<Span>, liveLo: nat,
    frozen: nat, sidecar: nat, base: Table, log: seq<Stmt>, log': seq<Stmt>)
    requires FlightOk(flight, hist, nextSnap, b, spans, liveLo, frozen, sidecar, base, log)
    requires Agree(base, log, log', frozen) && liveLo <= frozen && hist[|hist| - 1].wm <= frozen
    requires flight.Snapped? || flight.Loaded? ==> SnapReady(b', flight.snap, liveLo, frozen, base, log')
    requires flight.Posted? ==>
      PostedOk(flight.next, flight.mark, flight.landed, hist, nextSnap, b', spans, liveLo, frozen, sidecar, base, log')
    ensures FlightOk(flight, hist, nextSnap, b', spans, liveLo, frozen, sidecar, base, log')
  {
    CoveredAgree(hist, sidecar, base, log, log', frozen);
    if flight.Settling? {
      CoveredAgree(hist, flight.mark, base, log, log', frozen);
    }
  }
}
