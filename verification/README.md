# icegres: buffered writes, union reads and the durable tail, modelled and proved in Dafny

icegres puts a PostgreSQL front end on Apache Iceberg tables. In buffered mode an INSERT, and on
opted-in tables an UPDATE or DELETE by primary key, is acknowledged from memory over a durable tail;
a flusher turns each window into one catalog commit under compare-and-swap; every read unites the
committed rows with an overlay of what is not committed yet. This project models that engine and five
smaller parts, and proves what they are for.

## What is modelled

* **Rows, tables, statements** (`Rows`, `Log`). A row is a key with a value; a table is a bag of rows,
  because Iceberg does not enforce keys. The specification of everything else is the sequential one:
  statements folded over a table in tail-sequence order.
* **The table buffer** (`Window`, `Layers`, `Routing`, `Undo`, `UndoLater`, `UndoExact`, `Statements`,
  `WindowSteps`). The window as a value and each transition under the buffer lock as a function of it;
  what a window means (a stack of layers over the committed rows); when routing an insert, undoing a
  statement and folding a lost generation back are exact.
* **The same buffer as an object** (`TableBuffer`, `TailApi`). A class with the program's fields and
  loops; every method is proved equal to its transition and keeps the buffer well formed.
* **The engine** (`Engine`, `Invariants`, `CatalogSteps`, `StageSteps`, `FailSteps`, `FlushSteps`,
  `SettleSteps`, `CrashSteps`, `Refinement`; `Collection` and `Recovery` on what a collection and a
  crash may take away, `KeysHeld` and `HalfCovered` on a window part of which is already committed,
  `WhollyCovered` on one that is committed to its mark, `Progress` on where a flush can always get).
  Catalog history with the watermark stamped in each commit, the buffer, the flusher's local state,
  the tail (frames, sidecar, next sequence) and scans that hold metadata but have not taken their
  overlay. Twenty kinds of steps interleave freely; a crash may happen between any two.
* **The external reader** (`Sequencing`, `TailReader`, `Durability`): the tail snapshot and the
  exactly-once merge rule, against the server's own union read; and its subscription (`TailStream`):
  which operations come with the snapshot and which in the stream behind it.
* **One flush as one commit** (`Commit`): composing the window into table operations and folding them
  over the data files.
* **Keyed read-modify-writes** under the per-table lock, on the engine (`KeyedSerial`), and **fenced
  synchronous writes** (`Fence`).
* **Bounded-staleness reads** (`Freshness`): the generation counters and the guarded cache install.
* **Snapshot lineage and fast-forward merge** (`Branch`), **compaction** (`Compaction`, after the
  Apache Iceberg Table Spec, format version 2, sections "Manifest Entry Fields" and "Optimistic
  Concurrency"), and **the AS OF rewrite**
  (`SqlText`, `AsOfGate`, `AsOf`).

`dafny verify dfyconfig.toml` checks the whole project.

## Hypotheses

The code does not meet its promises in every run. Each theorem names what it takes for granted; what
the code itself tests is `Enabled`, what is assumed beyond it is `Assumed`, and for each hypothesis
there is the exact condition or a run of the code that needs it.

* **H1, merge-back.** `move_flushed_back_to_pending` puts a generation's keyed entry back without
  routing. A plain INSERT of the key staged while the post was in flight is then hidden.
  `Hypotheses.MergeBackViewIff` gives the exact condition.
* **H2, undo.** The undo list is replayed forwards, so a statement that hits one key twice leaves its own
  first row (`Undo.UndoInsertExactIff`, both directions). An undo after other statements is exact if and
  only if each key the statement first put into the map is still its own there or a later keyed operation
  has addressed it (`UndoExact.UndoneLaterIff`): what spoils it is an INSERT that took the entry over
  (`Hypotheses.UndoneDeleteStaysHidden`). Two failed waits on a key bring the older entry back exactly
  when the newer one displaced it and is still current (`UndoExact.UndoRevivesIff`,
  `Hypotheses.TwoUndosRevive`). After a merge-back an undo leaves the generation's rows as they were if
  and only if none of its records on the generation's keys is still current and displaced nothing
  (`WindowSteps.UndoAfterMergeBackIff`); the source does not mention the case, and
  `Hypotheses.UndoAfterMergeBackLoses` is a run that loses an operation so. In a run the engine marks a
  wait when one of the three happens to it and assumes it is then not undone; on a table without keyed
  operations none ever does.
* **H3, ambiguous post.** The already-committed guard needs the watermark to cover the whole mark. A
  window covered to its mark is always recognised and parked, and what it holds committed once
  (`WhollyCovered.RunGuardIff`, `WhollyCovered.LandedOnce`); nothing is assumed of it. A
  window covered in part, and only in part, is posted again. That commit is right if and only if no INSERT sequenced between
  the window's mark and the loaded watermark holds a row whose key is outside the snapshot's keyed map
  (`HalfCovered.RunPostIff`; without keyed operations, if and only if no statement lies there,
  `HalfCovered.PlainPostExactIff`), and `Hypotheses.PartialCoverCommitsTwice` is a run in which it is not.
  The comment at `buffer.rs:2639` that the mark cannot come from an older commit does not cover this case.
  An errored post is applied before the reload or never. While such a window is half covered, a scan is
  right exactly under the same condition on the live map (`HalfCovered.RunViewIff`, which covers every
  scan of every reachable state).
* **H4, freshness.** A version match marks the cache fresh without raising the installed generation. A
  later scan can then be served a stale version if and only if a straggler is left
  (`Freshness.MatchServesStaleIff`, `Freshness.StragglerServesStale`).
* **H5, environment.** A scan begins on metadata no older than any observed, and lacking no generation
  tagged longer than a `lag` ago (post time and staleness together); at a collection each scan in progress
  holds what is dropped or has not been running for the age less that lag. The age counts from the
  tagging, before the post, so it is enough if and only if it exceeds the lag and the longest scan
  together (`Collection.CollectAgeIff`, whose other half is a run of the code that loses a row from under
  a scan within its bound). A snapshot is not expired while its generation is retained, and no foreign
  writer drops the watermark property. A commit leaves a trace in the tail, a resolved frame or the
  sidecar: exactly then every next boot numbers above the watermark (`Hypotheses.FloorExactIff`), and
  without it an acknowledged row is later dropped as covered (`Hypotheses.UntracedCommitLosesRow`).
* **H6, keys.** On a keyed table an INSERT names no present key and no key twice, and none that survives a
  crash follows a lost statement on its key; without keyed operations nothing is asked. What replay
  recovers is exact if and only if no key is clobbered by the surviving frames
  (`Recovery.RecoveredIff`, `Recovery.LostDeleteClobbers`); without keyed operations it always is
  (`Recovery.RecoveredPlain`).
* **The read row.** An INSERT shows before its wait is over, and its failed wait takes no serial lock. A
  row read from it is still the key's row afterwards if and only if the failed INSERT does not name the
  key or a keyed operation on the key has followed it (`KeyedSerial.SparesReadIff`); `KeyedSerial` assumes
  so between read and frame, and `KeyedSerial.FailedInsertComesBack` is the run without it.
* **The fence.** `try_serialized_sync_dml` asks `has_pending`, which does not see a generation that is
  posted but not landed. `Fence` assumes the fence does not pass then; without it an acknowledged
  synchronous write can be overwritten (`Fence.FenceMissesPost`), and `Fence.SyncSurvivesIff` is the exact
  condition.

Where the code and its comments disagree the model follows the code. The module comment at `buffer.rs:126`
takes it that once covering metadata has been observed the age suffices; `Collection.CollectAgeIff` says
when it does. The comment at `buffer.rs:1283` says that with waits out of order an
operation can miss the stream and come with the next flush; `TailStream.SubscriberGets` says which ones.
The AS OF gate promises no false negative for the exact gated syntax, two words with whitespace between
them; the finder also takes a comment there, and such a statement is left alone
(`AsOf.GateStopsAtComment`).

## Model

| member | source | states |
|---|---|---|
| Routing.RouteExactIff | icegres/src/buffer.rs:1361-1431 | Routing an INSERT into the window means the INSERT, over any committed table, exactly when every row sent to the keyed map replaces a buffered delete and no two of them share a key. |
| Routing.RouteDenotesInsert | icegres/src/buffer.rs:1361-1431 | Under that condition the view after routing is the view before plus the inserted rows, each as often as it was inserted. |
| Routing.KeyedWriteDenotes | icegres/src/buffer.rs:671-782 | A keyed UPDATE or DELETE always means itself: the view after it is the statement run on the view before. |
| Statements.StmtDenotes | icegres/src/buffer.rs:474-782 | Any statement routed into the window is the statement run on what the window showed. |
| Statements.AbsentKeysHitDeletes | icegres/src/buffer.rs:1361-1431 | An INSERT of keys that are not present can only meet buffered deletes in the keyed map (hypothesis H6 suffices for exact routing). |
| Statements.StmtFacts | icegres/src/buffer.rs:1343-1431 | What a statement may change: new batches behind the old ones, unclaimed and freshly numbered, holding no row of a buffered key; entries of its own keys only, stamped above all others; an undo record naming nothing else. |
| Statements.StmtWellFormed | icegres/src/buffer.rs:275-327 | Every statement keeps: claimed batches form a prefix of pending, ids are unique, the row count is the sum over the batches, stamps lie below the next one. |
| Statements.KeyedWriteDeclares | icegres/src/buffer.rs:671-767 | After a keyed statement its own key declaration goes through and every other one is refused. |
| Layers.OverlayRefinesSequential | icegres/src/buffer.rs:946-1064 | Layered suppression (own keys hide own appends, newer keys hide older layers, all keys hide committed rows) is the layers applied one after another, for any number of layers. |
| Layers.ShortcutAgreesWithUnion | icegres/src/buffer.rs:645-661 | A key with a live entry reads from the live map what the union view returns for it, whatever is committed and whatever older generations hold. |
| Layers.SplitAtSnapshot | icegres/src/buffer.rs:897-930 | While a snapshot is in flight, the window is the snapshot's layer with everything that arrived or was overwritten since on top of it. |
| Layers.MergeBackExactIff | icegres/src/buffer.rs:1158-1207 | Folding a lost generation back keeps the view exactly when no newer pending append carries a key the generation owns and the live map lacks (H1, both directions). |
| Layers.MoveBackIsMerge | icegres/src/buffer.rs:1158-1207 | The merged-back window has the generation's batches first and its keyed operations only where no newer entry lives. |
| Undo.UndoInsertExactIff | icegres/src/buffer.rs:847-880 | Undoing an INSERT at once restores pending, row count and keyed map exactly when it hit no buffered key twice (H2, both directions): the undo records are replayed forwards. |
| Undo.RestoreDistinct | icegres/src/buffer.rs:860-880 | Undoing hits with distinct keys restores every displaced entry even in a map other statements have changed since. |
| Statements.UndoStmtAtOnce | icegres/src/buffer.rs:784-887 | A statement routed and undone leaves the live window as it was. |
| UndoLater.UndoneLaterIsNever | icegres/src/buffer.rs:784-887 | A statement undone after any number of others were routed behind it leaves the pending rows in order, the row count and every keyed operation as if it had never been routed, provided no later INSERT names a key the statement first put into the keyed map; an INSERT puts none there, so for it nothing is asked. |
| UndoExact.UndoneLaterIff | icegres/src/buffer.rs:784-887 | After any later statements the undo leaves what every committed table would show without the statement, if and only if each key it first put into the map is still its own there or a later keyed operation addressed it: told from the undo record, the current entries and the keyed statements since. |
| UndoExact.UndoRevivesIff | icegres/src/buffer.rs:860-880 | Of two statements on a key undone older first, the older one's entry comes back if and only if the newer one displaced it and is still current. |
| UndoExact.UndoInOrder | icegres/src/buffer.rs:860-880 | Undone newest first, two statements on a key leave what was there before both. |
| WindowSteps.WhollyClaimedIsClaimed | icegres/src/buffer.rs:804-850 | A statement a flush snapshot took is recognised as claimed, whatever was drained or renumbered since. |
| WindowSteps.RetractWellFormed | icegres/src/buffer.rs:847-880 | Removing an unclaimed statement keeps the claimed prefix, ids, counts and stamps in order. |
| WindowSteps.DropPrefixWellFormed | icegres/src/buffer.rs:1083-1156 | Draining the claimed prefix by position removes exactly the snapshotted batches and keeps the row count exact. |
| WindowSteps.DropPrefixLive | icegres/src/buffer.rs:1083-1156 | Over the table with the snapshot applied, the drained window shows what the whole window showed before; an entry overwritten since survives. |
| WindowSteps.MoveBackWellFormed | icegres/src/buffer.rs:1158-1207 | A merge-back keeps the claimed prefix (the restored batches stay claimed), unique ids, counts and stamps. |
| WindowSteps.UndoAfterMergeBackIff | icegres/src/buffer.rs:847-880 | After a merge-back an undo leaves, over every committed table, what it would have left above the generation, if and only if no undo record on a key of the generation is still current and displaced nothing. |
| TableBuffers.TableBuffer.constructor | icegres/src/buffer.rs:490-500 | A table buffer starts empty, with batch ids from one. |
| TableBuffers.TableBuffer.PushPending | icegres/src/buffer.rs:1342-1358 | In place: one unclaimed batch behind the others, its id recorded for the undo. |
| TableBuffers.TableBuffer.RouteBatchInPlace | icegres/src/buffer.rs:1382-1429 | In place, row by row: rows whose key had an entry supersede it in order, the others become one batch. |
| TableBuffers.TableBuffer.RouteAppends | icegres/src/buffer.rs:1371-1431 | The two loops (plain and keyed) compute the routing function of the state before, undo record included. |
| TableBuffers.TableBuffer.AppendStaged | icegres/src/buffer.rs:474-551 | Staging and routing under one lock acquisition: high mark, unresolved sequence, routed rows; the buffer stays well formed. |
| TableBuffers.TableBuffer.KeyedStaged | icegres/src/buffer.rs:671-767 | One keyed operation under the lock; it is refused if and only if the declared primary key differs from the buffered one while a key is buffered anywhere, live or flushed, and then nothing changes; otherwise the new declaration is the buffered one. |
| TableBuffers.TableBuffer.OldKeysInWindow | icegres/src/buffer.rs:706-712 | Old keys are buffered exactly when the live map or some generation holds a keyed operation. |
| TableBuffers.TableBuffer.KeyedCurrent | icegres/src/buffer.rs:645-661 | The live entry's operation, only under the same key declaration. |
| TableBuffers.TableBuffer.Durable | icegres/src/buffer.rs:561-573 | A successful wait takes its sequence out of the unresolved set and changes nothing else. |
| TableBuffers.TableBuffer.RaiseTailHigh | icegres/src/buffer.rs:575-584 | Replayed sequences raise the high mark to at least the sequence, never lower it, and change nothing else. |
| TableBuffers.TableBuffer.IsClaimed | icegres/src/buffer.rs:804-831 | The counting loop and the key test decide whether a snapshot took any of the statement. |
| TableBuffers.TableBuffer.UnrouteFailed | icegres/src/buffer.rs:784-887 | All or nothing: a claimed statement leaves the buffer untouched, any other is removed with every displaced entry put back. |
| TableBuffers.TableBuffer.SnapshotPending | icegres/src/buffer.rs:889-930 | Snapshots the whole window and claims all of it, removing nothing. |
| TableBuffers.TableBuffer.OverlayWith | icegres/src/buffer.rs:932-1064 | The overlay's batches hold exactly the rows of the layered specification and its suppress set is every buffered key; a generation the scan can see is marked observed. |
| TableBuffers.TableBuffer.Observed | icegres/src/buffer.rs:1066-1081 | Marks exactly the generations the metadata contains, keeping earlier observations. |
| TableBuffers.TableBuffer.DropPendingPrefix | icegres/src/buffer.rs:1083-1099 | Drops the claimed prefix and the snapshotted entries whose stamp still matches. |
| TableBuffers.TableBuffer.MovePendingToFlushed | icegres/src/buffer.rs:1132-1156 | The claimed prefix and the snapshot become one generation; the rest of the window stays. |
| TableBuffers.TableBuffer.DrainEntries | icegres/src/buffer.rs:1433-1449 | The removal loop leaves every entry overwritten since the snapshot. |
| TableBuffers.TableBuffer.MoveFlushedBack | icegres/src/buffer.rs:1158-1207 | The restoring loop renumbers the generation's batches in front, claimed, and never clobbers a newer entry. |
| TableBuffers.TableBuffer.CollectFlushed | icegres/src/buffer.rs:1209-1215 | Keeps exactly the generations that are unobserved or too young, in order. |
| TableBuffers.TableBuffer.TailSnapshot | icegres/src/buffer.rs:1217-1315 | Serves every buffered operation as often as it is buffered, in sequence order, without the unresolved ones, and fails exactly when some operation has no sequence; it goes up to the window's high mark, or with waits unresolved to the highest sequence served. |
| TableBuffers.TableBuffer.ReplayTail | icegres/src/buffer.rs:1824-1905 | Boot replay in place: frames at or below the watermark are dropped, the others routed again in order, the high mark covers them. |
| StageSteps.StageInv | icegres/src/buffer.rs:474-782 | Staging keeps the whole engine invariant: the new frame is numbered above every mark, and every waiting statement can still be undone. |
| FailSteps.AckInv | icegres/src/buffer.rs:568-573 | An acknowledgement keeps the invariant. |
| FailSteps.FailInv | icegres/src/buffer.rs:784-887 | A failed wait keeps the invariant, whether the statement was claimed or is undone while others wait, unless its undo has been spoilt; on a table without keyed operations none ever is. |
| FailSteps.UndoneInv | icegres/src/buffer.rs:847-880 | After an undo the window is the log without the statement, also for every other statement still waiting, with or without keys in common on a table without keyed operations, and for a snapshot in flight. |
| FlushSteps.SnapshotInv | icegres/src/buffer.rs:889-930 | At the snapshot every waiting statement becomes wholly claimed and the frozen mark bounds the log. |
| FlushSteps.ParkInv | icegres/src/buffer.rs:2526-2576 | Parking a window that metadata already covers keeps every scan's view: versions at the mark see it, earlier ones do not. |
| WhollyCovered.RunGuardIff | icegres/src/buffer.rs:2526-2576 | In every reachable state a loaded flush is parked if and only if the loaded watermark is there and reaches the snapshot's mark; it is posted or dropped as net zero if and only if not. |
| WhollyCovered.LandedOnce | icegres/src/buffer.rs:2726-2739 | A commit that landed, whatever the client was told of it, is made once: until something new is staged no later step posts, drops or lands anything, the newest version's rows are the whole log, and a flush that loads metadata is parked. H3 is assumed for partly covered windows only. |
| WhollyCovered.ParkedViews | icegres/src/buffer.rs:2526-2576 | After parking, every scan that can be served sees the log, each statement once. |
| WhollyCovered.PostErrorIff | icegres/src/buffer.rs:2629-2681 | After an errored post the flush goes on as committed if and only if the reload succeeds and the commit had landed, and nothing is then shown twice; otherwise the generation goes back into the window. |
| Progress.FlushCompletes | icegres/src/buffer.rs:2444-2628 | From any reachable state at rest with something buffered, unless metadata covers a part of it, the flusher's own steps lead to a state at rest whose newest version holds the whole log, with nothing buffered and no frame left to replay, whichever of park, net-zero drop and commit it goes through. |
| Progress.RejectedRetries | icegres/src/buffer.rs:2621-2628 | A post that lost its race is merged back under H1, and the flush can then run to that end. |
| Progress.RebootSettles | icegres/src/buffer.rs:1829-1850 | After any crash of any reachable state the flusher's first steps leave exactly the surviving frames in the tail and touch neither window nor log. |
| FlushSteps.DropInv | icegres/src/buffer.rs:2588-2600 | Dropping a net-zero window keeps the invariant although the mark moves without a commit. |
| FlushSteps.PrepareInv | icegres/src/buffer.rs:2491-2606 | Tagging the generation before the post keeps the invariant; the prepared version holds the table at its own mark. |
| FlushSteps.LastLink | icegres/src/buffer.rs:2466-2477 | Without a half-covered window, the newest version's rows are the table below the live window, even after net-zero drops. |
| SettleSteps.LandInv | icegres/src/buffer.rs:2606-2620 | A landing commit keeps the invariant: it is seen by exactly the versions from here on. |
| SettleSteps.BackInv | icegres/src/buffer.rs:2621-2628 | A lost post's merge-back keeps the invariant under H1. |
| SettleSteps.CoveredLanded | icegres/src/buffer.rs:2629-2681 | After an errored post, a reload whose watermark covers the mark proves that this very commit landed. |
| SettleSteps.RecordInv | icegres/src/buffer.rs:2741-2768 | Recording the watermark drops the same frames as statements and never more. |
| SettleSteps.TruncateInv | icegres/src/buffer.rs:2741-2777 | Truncation after the record touches only covered frames and leaves a trace of the table. |
| SettleSteps.ForeignInv | icegres/src/buffer.rs:2526-2576 | A row-preserving foreign commit keeps the invariant. |
| SettleSteps.OverlayInv | icegres/src/buffer.rs:932-1064 | Taking an overlay, with its observations, keeps the invariant. |
| SettleSteps.CollectedSeen | icegres/src/buffer.rs:2691-2711 | Whatever collection drops, every metadata version a scan holds or can still get contains: from observation for later scans, and for scans in progress from when they began, how far their metadata may lag, and the age. |
| SettleSteps.CollectInv | icegres/src/buffer.rs:2691-2711 | Collection keeps every view while no scan in progress has been running for the age less the lag: the dropped generations are the oldest ones. |
| Collection.CollectSeenIff | icegres/src/buffer.rs:1209-1215 | A scan sees a collection if and only if its metadata lacks some collected generation and its rows differ from the table below what is left at a key no keyed operation left names. |
| Collection.CollectAgeIff | icegres/src/buffer.rs:112-133 | The age test is enough in every run whose scans begin within the lag and last no longer than a bound if and only if the age exceeds both together; the other half is a run of the code that loses a row. |
| CrashSteps.ReplayDenotes | icegres/src/buffer.rs:1765-1917 | Replaying frames through the live routing runs them in sequence order on the committed table. |
| CrashSteps.SurvivorsAre | icegres/src/buffer.rs:1807-1830 | What boot replay recovers is the log above the effective watermark, without the statements whose frames are gone. |
| CrashSteps.SequenceFloor | icegres/src/buffer.rs:1779-1849 | After any crash the next sequence lies above every committed watermark, the sidecar and every kept statement. |
| CrashSteps.CleanAllowed | icegres/src/buffer.rs:1765-1917 | A crash that orphans no surviving INSERT (none names a key of an earlier statement it loses or whose wait had failed) leaves a log the table could have had; without keyed operations every crash does. |
| Refinement.CrashKeeps | icegres/src/buffer.rs:1765-1917 | Such a crash, with any subset of unresolved frames lost, followed by boot replay, keeps the invariant. |
| Recovery.ReplayExactIff | icegres/src/buffer.rs:1824-1905 | Replaying frames over a committed table runs them in order if and only if no key is clobbered: no INSERT finds it written, or brings it twice over a delete, without a keyed operation on it following. |
| Recovery.RecoveredIff | icegres/src/buffer.rs:1765-1917 | After any crash, whatever was lost, a scan of the rebooted server returns the newest committed rows with the surviving frames run on top if and only if no key is clobbered by them. |
| Recovery.RecoveredPlain | icegres/src/buffer.rs:1765-1917 | On a table without keyed operations every crash of every run, whatever it loses, recovers the committed rows with the surviving frames run on top. |
| Recovery.LostDeleteClobbers | icegres/src/buffer.rs:1824-1905 | A run of the code: a write and an INSERT of its key are acknowledged, the unresolved DELETE between them is lost, and the rebooted server shows one row where the acknowledged statements make two. |
| Refinement.StepInv | icegres/src/buffer.rs:95-133 | Every step of the engine keeps the invariant. |
| Refinement.RunInv | icegres/src/buffer.rs:95-133 | The invariant holds in every state of every run. |
| Refinement.ViewIsLogical | icegres/src/buffer.rs:95-133 | In every reachable state, for every metadata version a scan may hold or be served, committed rows united with the overlay are the statements folded in tail-sequence order. |
| Refinement.RunRefines | icegres/src/buffer.rs:95-133 | The refinement over runs: any view of any reachable state without a half-covered window is the fold of its log over the initial table. |
| Refinement.Stutter | icegres/src/buffer.rs:101-133 | Snapshot, tagging, commit, conflict and merge-back, observation, collection, truncation, foreign commits and scans are invisible: any scan before and any scan after return the same table. |
| Refinement.StageIsExec | icegres/src/buffer.rs:474-782 | Staging is the one step that runs the statement, in every view. |
| Refinement.FailedView | icegres/src/buffer.rs:784-887 | An undone statement is gone from every view; a claimed one stays in every view. |
| Refinement.AckedStays | icegres/src/buffer.rs:1765-1917 | No step, a crash included, loses an acknowledged statement. |
| Refinement.AckedForever | icegres/src/buffer.rs:27-50 | An acknowledged statement is in the log of every later state of the run, through flushes, errored posts and crashes. |
| Refinement.LogIsStaged | icegres/src/buffer.rs:784-887 | Every statement of the log was staged in the run and has neither been undone nor lost since, so no undone statement is in it. |
| Refinement.UndoneIsGone | icegres/src/buffer.rs:847-880 | After an undo no statement of the log carries the failed sequence. |
| Refinement.OnceEach | icegres/src/buffer.rs:500-520 | No two statements of the log share a sequence, so each counts once. |
| Refinement.RecoveredExactlyOnce | icegres/src/buffer.rs:1765-1917 | After a crash that orphans no INSERT, the newest committed rows with the recovered frames folded on top are exactly the log that was kept, and so is what a scan of the rebooted server returns. |
| Refinement.FreshAboveWatermarks | icegres/src/buffer.rs:1817-1821 | In every reachable state new frames are numbered above every committed watermark and the sidecar. |
| Hypotheses.MergeBackViewIff | icegres/src/buffer.rs:1158-1207 | At engine level: a lost post is invisible to scans if and only if the newest generation owns no key of a newer plain append that the live map lacks. |
| HalfCovered.RunPostIff | icegres/src/buffer.rs:2491-2606 | In every reachable state the commit about to be prepared is the table at its mark if and only if no INSERT sequenced between the window's mark and the loaded watermark holds a row whose key is outside the snapshot's keyed map. |
| HalfCovered.PlainPostExactIff | icegres/src/buffer.rs:2491-2606 | On a table without keyed operations: if and only if no logged statement is sequenced there. |
| HalfCovered.RunViewIff | icegres/src/buffer.rs:2629-2681 | The refinement in every reachable state, half-covered windows included: a scan is the fold of the log if and only if no INSERT sequenced between the window's mark and the scan's watermark holds a row whose key is outside the live map. |
| KeysHeld.HeldStep | icegres/src/buffer.rs:889-1207 | Every step keeps the key of each logged keyed operation where a flush finds it: in the live map above the window's mark, in what the flusher holds or posted up to it, and in what any undo that is still clean would leave. |
| Hypotheses.PartialCoverCommitsTwice | icegres/src/buffer.rs:2628-2681 | A run of the code without H3 that commits one row twice. |
| Hypotheses.MergeBackHidesNewerInsert | icegres/src/buffer.rs:1195-1206 | A window without H1: an older delete merged back hides a newer INSERT. |
| Hypotheses.UndoTwiceHitKeepsOwnRow | icegres/src/buffer.rs:860-880 | A statement with one key twice, undone, leaves its own first row behind. |
| Hypotheses.UndoAfterMergeBackLoses | icegres/src/buffer.rs:1195-1206 | A failed wait after a merge-back takes an acknowledged operation of the generation with it. |
| Hypotheses.FloorExactIff | icegres/src/buffer.rs:1807-1821 | Every next boot numbers above the committed watermark, whichever unresolved frames the crash loses, if and only if nothing is committed or the tail holds the sidecar or a frame whose wait is over. |
| Hypotheses.UntracedCommitLosesRow | icegres/src/buffer.rs:1779-1849 | A run of the code without that trace: numbering restarts after a crash and a later acknowledged row is dropped as covered. |
| Hypotheses.UndoneDeleteStaysHidden | icegres/src/buffer.rs:860-880 | A run of the code: an acknowledged INSERT took over the entry of a DELETE still waiting; the DELETE fails, and the row it removed stays hidden. |
| Hypotheses.TwoUndosRevive | icegres/src/buffer.rs:860-880 | A run of the code: two waits on a key fail, the older first, and the failed DELETE comes back. |
| Sequencing.SequencedStep | icegres/src/buffer.rs:500-520 | While no wait fails, every layer holds only operations between its own marks and entries newer than the appends of their key. |
| Durability.TailServesResolved | icegres/src/buffer.rs:1287-1293 | In no reachable state does a tail snapshot serve an operation whose wait is unresolved or failed. |
| TailStream.AlwaysServes | icegres/src/buffer.rs:1217-1315 | In every reachable state every buffered operation has a sequence, so the tail snapshot never fails. |
| TailStream.ServedBelowHigh | icegres/src/buffer.rs:1272-1293 | In every reachable state each operation a tail snapshot serves is sequenced at or below its high mark. |
| TailStream.SubscriberGets | icegres/src/buffer.rs:1272-1293 | An operation held back because its wait is unresolved passes the subscriber's filter (sequence above high) if and only if the snapshot served nothing sequenced above it. |
| TailStream.LaterAbove | icegres/src/tailapi.rs:432-441 | In every run, until a crash, every statement staged after a tail snapshot is sequenced above its high mark and so passes the subscriber's filter. |
| TailReader.PickNewest | bench/clients/p1_tail_reader.py:194-208 | The reader's loop finds, per key, the newest row above the watermark (the first of equals) and the keys a keyed row names. |
| TailReader.Merge | bench/clients/p1_tail_reader.py:209-218 | The merged view holds for each key what its newest row says, else the committed row. |
| TailReader.WatermarkRule | icegres/src/buffer.rs:2377-2395 | The rows above the metadata's own watermark are exactly those of the layers that metadata cannot see. |
| TailReader.ReaderSeesUnion | bench/clients/p1_tail_reader.py:179-218 | With every wait resolved, the external merge of any servable version with a tail snapshot is the server's own union read, key by key. |
| Durability.RunReaderSeesUnion | bench/clients/p1_tail_reader.py:179-218 | The same over runs in which every durability wait succeeds. |
| Commit.FoldIsRun | icegres/src/overwrite.rs:1840-2110 | Folding the files through every row-wise statement and each append through the later ones is the operations run one after another. |
| Commit.ChangedCount | icegres/src/overwrite.rs:1758-1783 | A row-wise statement leaves each row as often as it occurs unmatched, plus once for each matched row whose new image it is. |
| Commit.ChangedInOrder | icegres/src/overwrite.rs:1758-1783 | What it leaves stands in the order of the rows it came from: unmatched rows as they were, matched ones as their images, those without an image gone. |
| Commit.TouchedIff | icegres/src/overwrite.rs:1840-1890 | Folding marks a file as touched if and only if some statement matches a row of it as the statements before have left it. |
| Commit.PrepareCommit | icegres/src/overwrite.rs:1891-2110 | Files are kept, removed or rewritten so that the new files hold the rows of the operations run in order; there is no commit exactly when nothing matched and nothing is appended. For a single UPDATE or DELETE, told without running it: every row is there as often as it was unmatched plus as often as it is the new image of a matched row, exactly the files holding a matched row are replaced, and there is no commit if and only if no file holds one. |
| Commit.Compose | icegres/src/buffer.rs:2487-2525 | The composed window (append, one delete of every keyed key, append of the upserts) means the window's layer on any table. |
| Commit.FlushCommit | icegres/src/buffer.rs:2487-2600 | After a flush the committed files hold exactly the view the overlay showed before it; no commit if and only if the window is net zero. |
| KeyedSerial.ReadRowIsCurrent | icegres/src/buffer.rs:2168-2300 | In every run of the engine, through inserts, failed waits, flushes, lost posts and crashes, the row a keyed statement read is still its key's one row, in the log and in every view, when its frame is staged, and staging runs the statement on it; provided no INSERT of the key fails unclaimed in between without a keyed operation on the key behind it. |
| KeyedSerial.SparesReadIff | icegres/src/buffer.rs:784-887 | The row read survives a failed wait if and only if the failed INSERT does not name the key or a keyed operation on the key has followed it. |
| KeyedSerial.FailedInsertComesBack | icegres/src/buffer.rs:2168-2291 | A run of the code: the INSERT whose row was read is undone before the frame is staged, and its row comes into being as the UPDATE's image. |
| KeyedSerial.ShortcutIsView | icegres/src/buffer.rs:645-661 | The live-map shortcut, entries a snapshot has taken included, reads what the union view of any version reads. |
| Fence.FlushStutters | icegres/src/buffer.rs:2444-2628 | Flushes, lost posts and foreign commits beside the lock leave the union view alone. |
| Fence.FenceFinishes | icegres/src/buffer.rs:2355-2368 | With no flush going on the fence can be got through, at once or by one flush, and the write then runs on committed rows that are the whole view. |
| Fence.LandsOnItsBase | icegres/src/buffer.rs:2606-2628 | Between a post and its landing nothing else is committed, in any run: the layer goes onto the rows it was prepared on. |
| Fence.SyncWriteSurvives | icegres/src/buffer.rs:2315-2368 | A fenced synchronous write runs on the current rows and shows whole, with inserts, undone waits and flushes beside it: no buffered image stands over it, provided the fence does not pass while a post is in flight. |
| Fence.SyncSurvivesIff | icegres/src/buffer.rs:2355-2368 | Every synchronous write survives if and only if nothing buffered, in flight or live, names a committed key. |
| Fence.FenceMissesPost | icegres/src/buffer.rs:2359-2363 | A run of the code in which the fence finds nothing pending while a keyed post is in flight, and the acknowledged synchronous write is overwritten. |
| Fence.InsertIsRouted | icegres/src/buffer.rs:1361-1431 | The fence model's insert stands for routing in the window: over the committed rows both show the same. |
| Fence.KeyedIsWritten | icegres/src/buffer.rs:671-767 | Its keyed statement stands for the keyed write in the window. |
| Freshness.TableCache.CompleteLoad | icegres/src/freshness.rs:145-152 | A completed load raises the fresh generation to its token, never lowers it, and changes nothing else. |
| Freshness.TableCache.Invalidate | icegres/src/freshness.rs:154-158 | After an invalidation the cache is not fresh. |
| Freshness.TableCache.TryMatch | icegres/src/cache.rs:469-480 | A version match completes the load and installs nothing. |
| Freshness.TableCache.Install | icegres/src/cache.rs:488-508 | A load that began before the installed one does not replace it. |
| Freshness.StepInv | icegres/src/cache.rs:360-513 | Every interleaved step keeps: a fresh cache is at or above the newest invalidated commit and no load below it can still install. |
| Freshness.ReadYourWrites | icegres/src/cache.rs:360-513 | After a local commit has been invalidated, no scan that starts later serves an older version, by the fresh fast path or its own load, in any interleaving (H4). |
| Freshness.OwnCommitServed | icegres/src/cache.rs:360-513 | Told from the commit: in any continuation its version stays to be invalidated, and no scan that starts after the invalidation serves a version at or below the one committed on. |
| Freshness.VersionsCount | icegres/src/cache.rs:360-513 | In every run the newest version is the first one plus the commits, local and foreign. |
| Freshness.ScanEnds | icegres/src/cache.rs:360-513 | In every reachable state a scan can be served within two steps of its own load. |
| Freshness.MatchServesStaleIff | icegres/src/cache.rs:469-508 | After a version match on the current generation, a scan that starts later can be served a version older than its floor, in a run that keeps H4 from then on, if and only if a straggler is left at the match. |
| Freshness.StragglerServesStale | icegres/src/cache.rs:469-507 | A run of the code without H4 in which a scan started after the invalidation serves the version before the commit. |
| Branch.LineageOf | icegres/src/branch.rs:308-326 | The parent walk terminates on any finite metadata, cyclic or not, and yields only known snapshots. |
| Branch.LineageIsAncestry | icegres/src/branch.rs:308-326 | The lineage is exactly the known ancestry of the head. |
| Branch.LineageDistinct | icegres/src/branch.rs:313-326 | The lineage passes no snapshot twice. |
| Branch.ForkPointOf | icegres/src/branch.rs:329-342 | The search computes the first snapshot of the one lineage that is in the other. |
| Branch.ForkIsCommon | icegres/src/branch.rs:329-342 | The fork point is an ancestor of both heads. |
| Branch.ForkIsNearest | icegres/src/branch.rs:329-342 | Every common ancestor is an ancestor of the fork point. |
| Branch.ForkIsSymmetric | icegres/src/branch.rs:329-342 | On acyclic metadata the fork point does not depend on the side. |
| Branch.CyclicForkDiffers | icegres/src/branch.rs:329-342 | On cyclic metadata it can. |
| Branch.FastForwardIff | icegres/src/branch.rs:345-361 | A table fast-forwards if and only if the target head is a strict ancestor of the source head, on any metadata. |
| Branch.AdvancedBIff | icegres/src/branch.rs:345-361 | On acyclic metadata the target is ahead if and only if the source head is its strict ancestor. |
| Branch.DivergedIff | icegres/src/branch.rs:345-361 | On acyclic metadata the heads diverge if and only if neither is an ancestor of the other. |
| Branch.RefsDecide | icegres/src/branch.rs:345-361 | Told from the refs, on any metadata: a table refuses if and only if its source ref exists and its target ref is missing, or both exist and differ and neither head is behind the other; it moves if and only if both exist and the target head is a strict ancestor of the source head. |
| Branch.RefusesAcyclic | icegres/src/branch.rs:345-361 | On acyclic metadata a table with both refs refuses if and only if the heads differ and neither is an ancestor of the other. |
| Branch.Transact | icegres/src/branch.rs:817-870 | The catalog's side of the transaction: all refs move if and only if every pinned head still stands where it was observed, else none does. |
| Branch.Merge | icegres/src/branch.rs:753-870 | Which of refused, nothing to do, dry run, raced and merged, each by its exact condition on the refs, the plan and the catalog at commit time; only a merged run moves refs, all of them. |
| Branch.MergeLosesNothing | icegres/src/branch.rs:817-870 | An executed merge loses no snapshot the target reached at commit time, in metadata that may have grown since the plan; a moved table's refs are then equal, and it neither moves nor refuses again. |
| Branch.SideDelta | icegres/src/branch.rs:363-396 | The totals of one side: what the summaries of the snapshots from the head down to the fork, exclusive, report, how many there are and how many report nothing; every snapshot lookup succeeds. |
| Branch.ForkConserves | icegres/src/branch.rs:363-396 | With exact summaries, rows at either head are rows at the fork plus rows added minus rows deleted. |
| Compaction.PlanCompaction | icegres/src/compact.rs:152-182 | The groups are exactly the qualifying partitions, each with all its under-target files and their totals, in the order in which their first files are seen. |
| Compaction.GroupsDisjoint | icegres/src/compact.rs:152-182 | Groups share no file, mix no partitions and touch no file at or above target. |
| Compaction.Walk | icegres/src/compact.rs:286-333 | The walk collects every live entry with what it inherits, and which manifests carry stale DELETED entries. |
| Compaction.WalkManifest | icegres/src/compact.rs:309-333 | Of one manifest the walk takes every entry that is not DELETED, once and in order, with its own snapshot id and sequence numbers and its manifest's where it has none, and says whether a DELETED entry is there. |
| Compaction.FindTouched | icegres/src/compact.rs:478-495 | A manifest is touched if and only if it holds a compacted file or a stale DELETED entry. |
| Compaction.CarriedHolds | icegres/src/compact.rs:500-510 | The carried manifests hold exactly the live entries of the untouched ones and no stale entry. |
| Compaction.RewriteManifest | icegres/src/compact.rs:511-550 | The rewritten manifest lists kept files as EXISTING, entry unchanged, and compacted ones as DELETED under the new snapshot's id with their original data and file sequence numbers, and the kept totals are exact. |
| Compaction.Produce | icegres/src/compact.rs:466-611 | The new snapshot accounts for every live file of the old one. |
| Compaction.RewriteGroups | icegres/src/compact.rs:434-465 | The rolling writers' outputs hold the groups' rows, group by group and in order, however the files are cut into batches and behind whichever batch a writer closes a file. |
| Compaction.CommitOutputs | icegres/src/compact.rs:466-611 | Whatever files were written, the replace snapshot is made if and only if they hold as many records as the files they replace, and then accounts for every live file. |
| Compaction.RewriteCounts | icegres/src/compact.rs:434-477 | What the rewriting loop writes always passes the record count test. |
| Compaction.Compact | icegres/src/compact.rs:200-611 | A whole run commits if and only if the threshold is at least two and some partition has enough small files; it replaces exactly the small files of such partitions, the record count never refuses, and the table holds every row as often as before. |
| Compaction.CompactionConserves | icegres/src/compact.rs:466-611 | File by file with its data and file sequence numbers, every formerly live file is live once more, entry unchanged, or DELETED once under the new snapshot's id; nothing else is live but the outputs; stale entries vanish; the summary totals are sums over the new live set. |
| Compaction.RowsConserved | icegres/src/compact.rs:440-465 | For outputs that hold the rows they replace, every row occurs as often as before. |
| Compaction.RewriteConserves | icegres/src/compact.rs:428-611 | What the rewriting loop writes does hold them: the table keeps every row as often as it had it. |
| SqlText.ByteOffset | icegres/src/asof.rs:127-144 | The byte offset inverts the line and column numbering for multi-byte text and newlines, and finds nothing where the text has no such place. |
| SqlText.LocationCounts | icegres/src/asof.rs:127-144 | The line is one more than the newlines passed, the column one more than the characters since the last of them. |
| SqlText.Utf8Decodes | icegres/src/asof.rs:127-144 | The bytes counted for a character are its UTF-8 encoding: they decode to it, in the shortest form (RFC 3629, section 3). |
| AsOf.MatchReads | icegres/src/asof.rs:150-252 | A match stands exactly for a table-context token, a namespace word and period or none, a table word, AS, OF and a version, and carries their names (quoted words as written, others in lower case) and the version's value. |
| AsOf.ReadMatches | icegres/src/asof.rs:150-252 | Wherever the tokens read so, the match is found. |
| AsOf.SignificantAll | icegres/src/asof.rs:150-175 | Every token that is not whitespace or a comment takes part, and no other. |
| AsOf.MatchesApart | icegres/src/asof.rs:150-252 | Two matches share no token. |
| AsOf.FindOccurrences | icegres/src/asof.rs:150-252 | The scan finds exactly the places where the tokens read as the sugar, in order, each with its byte range, names and version, and fails exactly on a three-part relation. |
| AsOf.OccurrencesApart | icegres/src/asof.rs:150-252 | Matched occurrences are in order and never overlap in the text. |
| AsOf.Splice | icegres/src/asof.rs:317-366 | Back-to-front replacement in place is one substitution pass from the left; the text between the ranges is unchanged. |
| AsOf.SplicedByte | icegres/src/asof.rs:317-366 | Every byte outside the ranges stands in the new text, moved by what the replacements before it added. |
| AsOf.SplicedText | icegres/src/asof.rs:317-366 | Every replacement stands where its range began, moved likewise. |
| AsOf.SplicedSize | icegres/src/asof.rs:317-366 | And nothing else is there: the length is the old one plus all they added. |
| AsOfGate.MightContain | icegres/src/asof.rs:82-113 | The gate is true if and only if the word AS is followed, after blanks only, by the word OF. |
| AsOfGate.GateReads | icegres/src/asof.rs:82-113 | What the gate finds in the bytes is what the characters say, multi-byte ones anywhere in the text included: the word AS in either case, whitespace, the word OF in either case, each not part of a longer ASCII word. |
| AsOf.GateStopsAtComment | icegres/src/asof.rs:82-113 | A whole query with a comment between AS and OF: the finder's scan matches the sugar in its tokens, and the gate is false. |
| AsOf.RewriteComment | icegres/src/asof.rs:308-318 | The rewrite leaves that query as it is, whatever the catalog would answer. |
| AsOf.SnapshotAt | icegres/src/asof.rs:275-305 | The last log entry at or before the time, or which of the two errors. |
| AsOf.RewriteAsOf | icegres/src/asof.rs:308-370 | The whole rewrite, every outcome decided: untouched without the gated words or where no tokens read as the sugar, failed on a three-part relation or an occurrence that cannot be resolved, else the one-pass substitution of every occurrence. |

## Left out

- Catalog HTTP, object store, Parquet, Arrow casts and schema alignment: batches are sequences of (key, value) rows and alignment is the identity.
- The SQL planner, wire protocol hooks, authorization, metrics, retry policies and the stale-serve fallback: foreign calls or single-branch checks.
- The internals of the durable tail: a frame is there or lost as a whole, its wait succeeds or fails, and a failed wait's frame never replays.
- A generation's and a snapshot's keyed operations are a map from key to entry; the program keeps a list sorted by stamp, an order nothing reads.
- Primary-key types and their byte encoding: a key is a number and the encoding is taken to be injective.
- Several tables in one buffer: the model follows one table, and the lock order across tables is not modelled.
- Zero-row INSERTs in engine runs (the class handles them): a statement that routes nothing has no undo record to claim.
- Durations: the age of a generation is compared with a clock that steps advance; the cadence of the flusher and the refresher is not modelled.
- A failed duplicate-key check during commit preparation: on keyed tables H6 excludes it.
- Foreign commits that change rows, and scans that straddle a synchronous commit: not claimed to be linearizable.
- Refinement.RunRefines: says nothing of the states between an errored post whose reload failed and the flush that resolves it, where part of the window may show twice; HalfCovered.RunViewIff says of those states too which scans are right.
- UndoLater.UndoneLaterIsNever: compares pending rows in order but not batch boundaries, ids and stamps, which keep counting.
- FailSteps.FailInv: on a table with keyed operations an undo that shares a key with another undo is taken to be spoilt, although undone newest first the two are exact (UndoExact.UndoInOrder).
- Fence.SyncWriteSurvives: of committed rows, one layer in flight and one live layer, not of the engine's state; the engine has no commit that changes rows outside its log.
- TailReader.ReaderSeesUnion: for tables with a declared primary key; the reader's branch for tables without one, a plain concatenation, is not modelled.
- KeyedSerial.ReadRowIsCurrent: the RMW's fallbacks to the synchronous path (duplicate keys, unsupported key types, predicate shapes) only release the lock.
- Freshness.ReadYourWrites: of scans that serve the fast path or their own successful load; serving a cached snapshot on a catalog error is left out.
- Branch.Merge: catalogs without the multi-table transaction endpoint, which apply nothing.
- Branch.SideDelta: timestamps and operation names of the snapshots passed are not kept.
- Compaction.Compact: the schema guards, the delete-manifest refusal and the partition-spec refusal are single-branch checks before the plan; when the rolling writer closes a file is a parameter (Compaction.RewriteGroups), and what it wrote is the parameter `outputs`.
- AsOf.FindOccurrences: the tokenizer is a parameter; case folding covers ASCII only.
- Branch schema differences, ref creation and deletion, printing and JSON output.
- The LRU plan cache, peer mirrors and explicit transactions.
