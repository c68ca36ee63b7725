/** The per-table write-buffer window as a value, and every transition the buffer
    lock protects, as a function of it. `TableBuffer` is the in-place form. */
module Window {
  import opened Rows

  /** What a buffered keyed operation does to its key. */
  datatype Kind = Upsert(val: int) | Delete

  /** The statement a keyed operation is. */
  function KindOp(key: Key, kind: Kind): Op {
    match kind
    case Upsert(val) => Put(key, val)
    case Delete => Del(key)
  }

  /** A keyed map entry: the operation with its stamp and its tail sequence. */
  datatype Entry = Entry(stamp: nat, kind: Kind, seqno: Option<nat>)

  datatype Batch = Batch(id: nat, claimed: bool, seqno: Option<nat>, rows: seq<Row>)

  datatype KeyedState = KeyedState(
    pkCols: seq<string>, entries: map<Key, Entry>, nextStamp: nat, claimedBelow: nat)

  /** How a flushed generation's commit is recognised in table metadata. */
  datatype GenCommit = Snapshot(id: nat) | CoveredByWatermark(mark: nat)

  datatype GenBatch = GenBatch(seqno: Option<nat>, rows: seq<Row>)

  datatype Gen = Gen(
    commit: GenCommit, batches: seq<GenBatch>, keyed: map<Key, Entry>, committedAt: nat, observed: bool)

  datatype Buf = Buf(
    pending: seq<Batch>, pendingRows: nat, nextId: nat, keyed: Option<KeyedState>,
    flushed: seq<Gen>, tailHigh: Option<nat>, undurable: set<nat>)

  /** What one statement routed: the undo record of a failed durability wait. */
  datatype RoutedKey = RoutedKey(key: Key, stamp: nat, displaced: Option<Entry>)
  datatype Routed = Routed(ids: seq<nat>, keyed: seq<RoutedKey>)

  /** A flusher's snapshot of the window, taken under one lock acquisition. */
  datatype Snap = Snap(batches: seq<seq<Row>>, n: nat, keyed: map<Key, Entry>, mark: Option<nat>)

  const EMPTY := Buf([], 0, 1, None, [], None, {})
  const NOTHING := Routed([], [])

  function Entries(b: Buf): map<Key, Entry> {
    if b.keyed.Some? then b.keyed.value.entries else map[]
  }

  function RowCount(pending: seq<Batch>): nat {
    if |pending| == 0 then 0 else RowCount(pending[..|pending| - 1]) + |pending[|pending| - 1].rows|
  }

  function GenRowCount(batches: seq<GenBatch>): nat {
    if |batches| == 0 then 0 else GenRowCount(batches[..|batches| - 1]) + |batches[|batches| - 1].rows|
  }

  // ---- routing an insert ----------------------------------------------------------

  /** A buffer together with the undo record built so far. */
  datatype Acc = Acc(buf: Buf, routed: Routed)

  function Push(a: Acc, rows: seq<Row>, sq: Option<nat>): Acc {
    Acc(
      a.buf.(pending := a.buf.pending + [Batch(a.buf.nextId, false, sq, rows)],
             pendingRows := a.buf.pendingRows + |rows|,
             nextId := a.buf.nextId + 1),
      a.routed.(ids := a.routed.ids + [a.buf.nextId]))
  }

  /** Supersede the key's entry by an upsert stamped now. */
  function Supersede(a: Acc, key: Key, kind: Kind, sq: Option<nat>): (r: Acc)
    requires a.buf.keyed.Some?
    ensures r.buf.keyed.Some?
  {
    var ks := a.buf.keyed.value;
    var displaced := if key in ks.entries then Some(ks.entries[key]) else None;
    Acc(
      a.buf.(keyed := Some(ks.(entries := ks.entries[key := Entry(ks.nextStamp, kind, sq)],
                               nextStamp := ks.nextStamp + 1))),
      a.routed.(keyed := a.routed.keyed + [RoutedKey(key, ks.nextStamp, displaced)]))
  }

  function SupersedeRows(a: Acc, rows: seq<Row>, sq: Option<nat>): (r: Acc)
    requires a.buf.keyed.Some?
    ensures r.buf.keyed.Some?
  {
    if |rows| == 0 then a
    else
      var row := rows[|rows| - 1];
      Supersede(SupersedeRows(a, rows[..|rows| - 1], sq), row.key, Upsert(row.val), sq)
  }

  /** Rows whose key has an entry supersede it; the others are pushed, if any. */
  function RouteBatch(a: Acc, rows: seq<Row>, sq: Option<nat>): (r: Acc)
    requires a.buf.keyed.Some?
    ensures r.buf.keyed.Some?
  {
    var keys := Entries(a.buf).Keys;
    var h := SupersedeRows(a, Hits(rows, keys), sq);
    var rest := Suppress(rows, keys);
    if rest == [] then h else Push(h, rest, sq)
  }

  function RouteBatches(a: Acc, batches: seq<seq<Row>>, sq: Option<nat>): (r: Acc)
    requires a.buf.keyed.Some?
    ensures r.buf.keyed.Some?
  {
    if |batches| == 0 then a
    else RouteBatch(RouteBatches(a, batches[..|batches| - 1], sq), batches[|batches| - 1], sq)
  }

  function PushBatches(a: Acc, batches: seq<seq<Row>>, sq: Option<nat>): Acc {
    if |batches| == 0 then a
    else Push(PushBatches(a, batches[..|batches| - 1], sq), batches[|batches| - 1], sq)
  }

  function Route(b: Buf, batches: seq<seq<Row>>, sq: Option<nat>): Acc {
    if Entries(b) == map[] then PushBatches(Acc(b, NOTHING), batches, sq)
    else RouteBatches(Acc(b, NOTHING), batches, sq)
  }

  /** The statement's staged frame moves the high mark; it is not servable until its wait
      succeeds. A replayed statement (`staged == None`) carries its own sequence. */
  function Stage(b: Buf, staged: Option<nat>): Buf {
    if staged.None? then b
    else b.(tailHigh := staged, undurable := b.undurable + {staged.value})
  }

  function StmtSeq(staged: Option<nat>, replayed: Option<nat>): Option<nat> {
    if staged.Some? then staged else replayed
  }

  function Append(b: Buf, batches: seq<seq<Row>>, staged: Option<nat>, replayed: Option<nat>): Acc {
    Route(Stage(b, staged), batches, StmtSeq(staged, replayed))
  }

  // ---- one keyed operation ----------------------------------------------------------

  predicate OldKeysBuffered(b: Buf) {
    Entries(b) != map[] || exists i :: 0 <= i < |b.flushed| && b.flushed[i].keyed != map[]
  }

  /** The primary-key declaration changed while keys encoded under the old one are buffered. */
  predicate PkChanged(b: Buf, pk: seq<string>) {
    b.keyed.Some? && b.keyed.value.pkCols != pk && OldKeysBuffered(b)
  }

  function WithPk(b: Buf, pk: seq<string>): (r: Buf)
    ensures r.keyed.Some?
  {
    if b.keyed.None? then b.(keyed := Some(KeyedState(pk, map[], 1, 1)))
    else b.(keyed := Some(b.keyed.value.(pkCols := pk)))
  }

  function KeyedWrite(
    b: Buf, pk: seq<string>, key: Key, kind: Kind, staged: Option<nat>, replayed: Option<nat>): Acc
    requires !PkChanged(b, pk)
  {
    Supersede(Acc(Stage(WithPk(b, pk), staged), NOTHING), key, kind, StmtSeq(staged, replayed))
  }

  function NoteDurable(b: Buf, sq: nat): Buf {
    b.(undurable := b.undurable - {sq})
  }

  function NoteTailHigh(b: Buf, sq: nat): Buf {
    b.(tailHigh := Some(if b.tailHigh.Some? && b.tailHigh.value > sq then b.tailHigh.value else sq))
  }

  // ---- undoing a statement whose wait failed ------------------------------------------

  function IdSet(ids: seq<nat>): set<nat> {
    set i | i in ids
  }

  function UnclaimedCount(pending: seq<Batch>, ids: set<nat>): nat {
    if |pending| == 0 then 0
    else
      var pb := pending[|pending| - 1];
      UnclaimedCount(pending[..|pending| - 1], ids) + if pb.id in ids && !pb.claimed then 1 else 0
  }

  predicate KeyClaimed(b: Buf, rk: RoutedKey) {
    b.keyed.None? || rk.stamp < b.keyed.value.claimedBelow || rk.key !in b.keyed.value.entries
  }

  /** A flush snapshot took some of what the statement routed. */
  predicate Claimed(b: Buf, routed: Routed) {
    || UnclaimedCount(b.pending, IdSet(routed.ids)) != |IdSet(routed.ids)|
    || exists i :: 0 <= i < |routed.keyed| && KeyClaimed(b, routed.keyed[i])
  }

  function DropIds(pending: seq<Batch>, ids: set<nat>): seq<Batch> {
    if |pending| == 0 then []
    else
      var init := DropIds(pending[..|pending| - 1], ids);
      if pending[|pending| - 1].id in ids then init else init + [pending[|pending| - 1]]
  }

  /** The record's entry is still the current one. */
  predicate StillOwn(entries: map<Key, Entry>, rk: RoutedKey) {
    rk.key in entries && entries[rk.key].stamp == rk.stamp
  }

  /** Undo one key: only while the statement's own entry is still the current one. */
  function RestoreKey(entries: map<Key, Entry>, rk: RoutedKey): map<Key, Entry> {
    if StillOwn(entries, rk) then
      if rk.displaced.Some? then entries[rk.key := rk.displaced.value] else entries - {rk.key}
    else entries
  }

  /** The undo records are replayed forwards, in routing order. */
  function RestoreKeys(entries: map<Key, Entry>, keyed: seq<RoutedKey>): map<Key, Entry> {
    if |keyed| == 0 then entries
    else RestoreKey(RestoreKeys(entries, keyed[..|keyed| - 1]), keyed[|keyed| - 1])
  }

  /** The removal itself, without the claim check. */
  function Retract(b: Buf, routed: Routed): Buf {
    var pending := DropIds(b.pending, IdSet(routed.ids));
    var dropped := RowCount(b.pending) - RowCount(pending);
    b.(pending := pending,
       pendingRows := if b.pendingRows >= dropped >= 0 then b.pendingRows - dropped else 0,
       keyed := if b.keyed.None? then None
                else Some(b.keyed.value.(entries := RestoreKeys(b.keyed.value.entries, routed.keyed))))
  }

  function Unroute(b: Buf, sq: nat, routed: Routed): Buf {
    if Claimed(b, routed) then b
    else Retract(b, routed).(undurable := b.undurable - {sq})
  }

  // ---- flushing -----------------------------------------------------------------------

  function ClaimAll(pending: seq<Batch>): (r: seq<Batch>)
    ensures |r| == |pending|
    ensures forall i :: 0 <= i < |pending| ==> r[i] == pending[i].(claimed := true)
  {
    seq(|pending|, i requires 0 <= i < |pending| => pending[i].(claimed := true))
  }

  function RowsOf(pending: seq<Batch>): (r: seq<seq<Row>>)
    ensures |r| == |pending|
    ensures forall i :: 0 <= i < |pending| ==> r[i] == pending[i].rows
  {
    seq(|pending|, i requires 0 <= i < |pending| => pending[i].rows)
  }

  function TakeSnapshot(b: Buf): Snap {
    Snap(RowsOf(b.pending), |b.pending|, Entries(b), b.tailHigh)
  }

  /** A snapshot claims the whole window. */
  function AfterSnapshot(b: Buf): Buf {
    b.(pending := ClaimAll(b.pending),
       keyed := if b.keyed.None? then None
                else Some(b.keyed.value.(claimedBelow := b.keyed.value.nextStamp)))
  }

  /** Remove exactly the snapshotted entries: one overwritten since keeps its newer stamp. */
  function Drained(entries: map<Key, Entry>, snap: map<Key, Entry>): map<Key, Entry> {
    map k | k in entries && !(k in snap && entries[k].stamp == snap[k].stamp) :: entries[k]
  }

  function DrainKeyed(b: Buf, snap: map<Key, Entry>): Buf {
    if b.keyed.None? then b
    else b.(keyed := Some(b.keyed.value.(entries := Drained(b.keyed.value.entries, snap))))
  }

  /** Drop the claimed prefix and the snapshotted entries: nothing had to be committed. */
  function DropPrefix(b: Buf, n: nat, snap: map<Key, Entry>): Buf
    requires n <= |b.pending|
  {
    var dropped := RowCount(b.pending[..n]);
    DrainKeyed(
      b.(pending := b.pending[n..],
         pendingRows := if b.pendingRows >= dropped then b.pendingRows - dropped else 0),
      snap)
  }

  function ToGen(pending: seq<Batch>): (r: seq<GenBatch>)
    ensures |r| == |pending|
    ensures forall i :: 0 <= i < |pending| ==> r[i] == GenBatch(pending[i].seqno, pending[i].rows)
  {
    seq(|pending|, i requires 0 <= i < |pending| => GenBatch(pending[i].seqno, pending[i].rows))
  }

  function MoveToFlushed(b: Buf, n: nat, snap: map<Key, Entry>, commit: GenCommit, now: nat): Buf
    requires n <= |b.pending|
  {
    DropPrefix(b, n, snap).(flushed := b.flushed + [Gen(commit, ToGen(b.pending[..n]), snap, now, false)])
  }

  /** The first generation committed as snapshot `sid`; `|flushed|` when there is none. */
  function GenPosition(flushed: seq<Gen>, sid: nat): (p: nat)
    ensures p <= |flushed|
    ensures p < |flushed| ==> flushed[p].commit == Snapshot(sid)
    ensures forall i :: 0 <= i < p ==> flushed[i].commit != Snapshot(sid)
    decreases |flushed|
  {
    if |flushed| == 0 then 0
    else if flushed[0].commit == Snapshot(sid) then 0
    else 1 + GenPosition(flushed[1..], sid)
  }

  function Reborn(batches: seq<GenBatch>, firstId: nat): (r: seq<Batch>)
    ensures |r| == |batches|
    ensures forall i :: 0 <= i < |batches| ==>
      r[i] == Batch(firstId + i, true, batches[i].seqno, batches[i].rows)
  {
    seq(|batches|, i requires 0 <= i < |batches| =>
      Batch(firstId + i, true, batches[i].seqno, batches[i].rows))
  }

  /** A generation whose post lost goes back: its batches to the front, still claimed, its
      keyed operations only where the live map has no newer entry. */
  function MoveBack(b: Buf, sid: nat): Buf {
    var p := GenPosition(b.flushed, sid);
    if p == |b.flushed| then b
    else
      var g := b.flushed[p];
      b.(pending := Reborn(g.batches, b.nextId) + b.pending,
         pendingRows := b.pendingRows + GenRowCount(g.batches),
         nextId := b.nextId + |g.batches|,
         keyed := if b.keyed.None? then None
                  else Some(b.keyed.value.(entries := g.keyed + b.keyed.value.entries)),
         flushed := b.flushed[..p] + b.flushed[p + 1..])
  }

  function Observe(flushed: seq<Gen>, isCommitted: GenCommit -> bool): (r: seq<Gen>)
    ensures |r| == |flushed|
    ensures forall i :: 0 <= i < |flushed| ==>
      r[i] == flushed[i].(observed := flushed[i].observed || isCommitted(flushed[i].commit))
  {
    seq(|flushed|, i requires 0 <= i < |flushed| =>
      flushed[i].(observed := flushed[i].observed || isCommitted(flushed[i].commit)))
  }

  function NoteObserved(b: Buf, isCommitted: GenCommit -> bool): Buf {
    b.(flushed := Observe(b.flushed, isCommitted))
  }

  predicate Expired(g: Gen, now: nat, gcAge: nat) {
    g.observed && now - g.committedAt >= gcAge
  }

  function Unexpired(flushed: seq<Gen>, now: nat, gcAge: nat): seq<Gen> {
    if |flushed| == 0 then []
    else
      var init := Unexpired(flushed[..|flushed| - 1], now, gcAge);
      if Expired(flushed[|flushed| - 1], now, gcAge) then init else init + [flushed[|flushed| - 1]]
  }

  function Gc(b: Buf, now: nat, gcAge: nat): Buf {
    b.(flushed := Unexpired(b.flushed, now, gcAge))
  }

  // ---- what every transition keeps ------------------------------------------------------

  ghost predicate ClaimedPrefix(pending: seq<Batch>, n: nat) {
    && n <= |pending|
    && (forall i :: 0 <= i < n ==> pending[i].claimed)
    && (forall i :: n <= i < |pending| ==> !pending[i].claimed)
  }

  ghost predicate IdsUnique(b: Buf) {
    && (forall i :: 0 <= i < |b.pending| ==> b.pending[i].id < b.nextId)
    && (forall i, j :: 0 <= i < j < |b.pending| ==> b.pending[i].id != b.pending[j].id)
  }

  ghost predicate StampsBelow(b: Buf) {
    b.keyed.Some? ==>
      && b.keyed.value.claimedBelow <= b.keyed.value.nextStamp
      && forall k :: k in b.keyed.value.entries ==> b.keyed.value.entries[k].stamp < b.keyed.value.nextStamp
  }

  /** Keyed generations imply keyed state. */
  ghost predicate KeyedReady(b: Buf) {
    b.keyed.None? ==> forall i :: 0 <= i < |b.flushed| ==> b.flushed[i].keyed == map[]
  }

  ghost predicate WellFormed(b: Buf) {
    && b.pendingRows == RowCount(b.pending)
    && (exists n :: ClaimedPrefix(b.pending, n))
    && IdsUnique(b)
    && StampsBelow(b)
    && KeyedReady(b)
  }
}
