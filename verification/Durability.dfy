/** What a tail snapshot may serve: the unresolved set is exactly the waits in progress and the
    waits that failed after a claim, so no such statement is ever served. */
module Durability {
  import opened Rows
  import opened Window
  import opened Statements
  import opened Log
  import opened Engine
  import opened Invariants
  import opened TailApi
  import opened Sequencing
  import opened Refinement
  import opened TailReader

  ghost predicate Resolved(s: State) {
    s.buf.undurable == s.waiting.Keys + s.failed
  }

  lemma {:induction false} ReplayResolved(pk: seq<string>, frames: seq<Stmt>)
    ensures Replay(pk, frames).undurable == {}
  {
    if |frames| > 0 {
      var init, e := frames[..|frames| - 1], frames[|frames| - 1];
      ReplayResolved(pk, init);
      StmtFacts(Replay(pk, init), pk, e.op, None, Some(e.seqno));
    }
  }

  lemma StageResolved(s: State, op: Op)
    requires Resolved(s) && !PkChanged(s.buf, s.pk)
    ensures Resolved(DoStage(s, op))
  {
    StmtFacts(s.buf, s.pk, op, Some(s.tail.nextSeq), None);
  }

  lemma FailResolved(s: State, q: nat)
    requires Resolved(s) && q in s.waiting && q !in s.failed
    ensures Resolved(DoFail(s, q))
  {}

  lemma WaitingNotFailed(s: State, q: nat)
    requires WaitInv(s) && q in s.waiting
    ensures q !in s.failed
  {
    assert WaitOk(q, s.waiting[q], s.buf, s.flight, s.liveLo, s.frozen, s.base, s.log, s.failed);
  }

  lemma AckResolved(s: State, q: nat)
    requires Resolved(s) && q !in s.failed
    ensures Resolved(DoAck(s, q))
  {}

  lemma CrashResolved(s: State, lost: set<nat>)
    requires |s.hist| > 0
    ensures Resolved(DoCrash(s, lost))
  {
    ReplayResolved(s.pk, Survivors(s, lost));
  }

  lemma StatementResolved(s: State, step: Step)
    requires Inv(s) && Resolved(s) && Can(s, step) && OfStatements(step)
    ensures Resolved(Do(s, step))
  {
    match step
    case StageStmt(op) => StageResolved(s, op);
    case Ack(q) =>
      WaitingNotFailed(s, q);
      AckResolved(s, q);
    case FailWait(q) =>
      WaitingNotFailed(s, q);
      FailResolved(s, q);
  }

  /** The same statements are unresolved. */
  ghost predicate SameUnresolved(s: State, s': State) {
    s'.buf.undurable == s.buf.undurable && s'.waiting.Keys == s.waiting.Keys && s'.failed == s.failed
  }

  lemma FlusherResolved(s: State, step: Step)
    requires Can(s, step) && (OfSnapshots(step) || OfCommits(step) || OfOutcomes(step))
    ensures SameUnresolved(s, Do(s, step))
  {}

  lemma ScansResolved(s: State, step: Step)
    requires Can(s, step) && OfScans(step)
    ensures SameUnresolved(s, Do(s, step))
  {}

  lemma OtherResolved(s: State, step: Step)
    requires Can(s, step) && (step.RecordWatermark? || step.Truncate? || step.ForeignCommit? || step.Tick?)
    ensures SameUnresolved(s, Do(s, step))
  {
    match step
    case RecordWatermark(ok) => RecordCan(s, ok);
    case Truncate(removed) => TruncateCan(s, removed);
    case ForeignCommit =>
    case Tick(_) =>
  }

  lemma ResolvedNext(s: State, step: Step, s': State)
    requires Inv(s) && Resolved(s) && Next(s, step, s')
    ensures Resolved(s')
  {
    if OfStatements(step) {
      StatementResolved(s, step);
    } else if step.Crash? {
      CrashResolved(s, step.lost);
    } else if OfSnapshots(step) || OfCommits(step) || OfOutcomes(step) {
      FlusherResolved(s, step);
    } else if OfScans(step) {
      ScansResolved(s, step);
    } else {
      OtherResolved(s, step);
    }
  }

  lemma ResolvedAlong(trace: seq<State>, steps: seq<Step>, i: nat)
    requires Run(trace, steps) && i < |steps| && Resolved(trace[i])
    ensures Resolved(trace[i + 1])
  {
    RunInv(trace, steps, i);
    ResolvedNext(trace[i], steps[i], trace[i + 1]);
  }

  lemma {:induction false} RunResolved(trace: seq<State>, steps: seq<Step>, i: nat)
    requires Run(trace, steps) && i < |trace|
    ensures Resolved(trace[i])
  {
    if i > 0 {
      RunResolved(trace, steps, i - 1);
      ResolvedAlong(trace, steps, i - 1);
    }
  }

  /** In no reachable state does a tail snapshot serve an operation whose wait is unresolved, or
      failed; what it serves is in the window, as often as it is buffered. */
  lemma TailServesResolved(trace: seq<State>, steps: seq<Step>, i: nat, items: seq<Item>, high: nat, it: Item)
    requires Run(trace, steps) && i < |trace| && ServesWindow(trace[i].buf, items, high) && it in items
    ensures it.seqno !in trace[i].waiting && it.seqno !in trace[i].failed
    ensures multiset(items)[it] == WindowBag(trace[i].buf)[it]
  {
    RunResolved(trace, steps, i);
    assert it in multiset(items);
  }

  // ---- runs in which every wait succeeds ------------------------------------------------------------

  lemma NoFailureNext(s: State, step: Step, s': State)
    requires Next(s, step, s') && !step.FailWait? && s.failed == {}
    ensures s'.failed == {}
  {}

  lemma {:induction false} NoFailures(trace: seq<State>, steps: seq<Step>, i: nat)
    requires DurableRun(trace, steps) && i < |trace|
    ensures trace[i].failed == {}
  {
    if i > 0 {
      NoFailures(trace, steps, i - 1);
      NoFailureNext(trace[i - 1], steps[i - 1], trace[i]);
    }
  }

  lemma {:induction false} KeyedStays(trace: seq<State>, steps: seq<Step>, i: nat)
    requires Run(trace, steps) && i < |trace|
    ensures trace[i].keyedTable == trace[0].keyedTable
  {
    if i > 0 {
      KeyedStays(trace, steps, i - 1);
      KeyedNext(trace[i - 1], steps[i - 1], trace[i]);
    }
  }

  lemma KeyedNext(s: State, step: Step, s': State)
    requires Next(s, step, s')
    ensures s'.keyedTable == s.keyedTable
  {}

  /** The external reader's theorem over runs: once every wait of a keyed table has succeeded, the
      merge of any servable version with a tail snapshot is the server's own union read. */
  lemma RunReaderSeesUnion(
    trace: seq<State>, steps: seq<Step>, i: nat, v: nat, items: seq<Item>, high: nat, committed: map<Key, int>, r: Row)
    requires DurableRun(trace, steps) && i < |trace| && trace[i].waiting == map[]
    requires trace[0].keyedTable && UniqueKeys(trace[0].base)
    requires Invariants.Servable(trace[i].hist, trace[i].served, trace[i].scans, v) && !Doubled(trace[i])
    requires ServesWindow(trace[i].buf, items, high) && Holds(committed, trace[i].hist[v].rows)
    ensures ScanResult(trace[i], v)[r]
         == if MergedValue(committed, WireRows(items), trace[i].hist[v].wm, r.key) == Some(r.val) then 1 else 0
  {
    RunInv(trace, steps, i);
    RunSequenced(trace, steps, i);
    RunResolved(trace, steps, i);
    NoFailures(trace, steps, i);
    KeyedStays(trace, steps, i);
    BaseStays(trace, steps, i);
    NotDoubled(trace[i], v);
    ReaderSeesUnion(trace[i], v, items, high, committed, r);
  }
}
