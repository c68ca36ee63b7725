/** One flush as one commit: how the window is composed into table operations, how a commit folds
    them over the data files, and why the result is the view the overlay showed. */
module Commit {
  import opened Rows
  import opened Window
  import opened Layers
  import opened Engine

  /** A row-wise statement: the rows it matches, and what becomes of them. */
  datatype Dml = Dml(matches: Row -> bool, becomes: Row -> Option<Row>)

  datatype TableOp = Append(batches: seq<seq<Row>>) | Change(dml: Dml)

  // ---- the operations one after another -----------------------------------------------------------

  function Changed(rows: seq<Row>, d: Dml): seq<Row> {
    if |rows| == 0 then []
    else
      var init, r := Changed(rows[..|rows| - 1], d), rows[|rows| - 1];
      if !d.matches(r) then init + [r]
      else if d.becomes(r).Some? then init + [d.becomes(r).value]
      else init
  }

  // ---- what a row-wise statement does, row by row ----------------------------------------------------

  /** What becomes of a row: nothing, its image, or the row itself. */
  ghost predicate Leaves(d: Dml, r: Row, x: Row) {
    if d.matches(r) then d.becomes(r) == Some(x) else x == r
  }

  /** `out` is what the statement leaves of `rows`, in their order: row `at[j]` became `out[j]`, and the
      rows that are not among them are the matched ones that become nothing. */
  ghost predicate InOrder(rows: seq<Row>, d: Dml, out: seq<Row>, at: seq<nat>) {
    && |at| == |out|
    && (forall j :: 0 <= j < |at| ==> at[j] < |rows| && Leaves(d, rows[at[j]], out[j]))
    && (forall j, k :: 0 <= j < k < |at| ==> at[j] < at[k])
    && (forall i :: 0 <= i < |rows| && i !in at ==> d.matches(rows[i]) && d.becomes(rows[i]).None?)
  }

  /** How often the statement leaves row `x`: as often as `x` stands unmatched, plus once for every matched
      row whose image it is. */
  ghost function LeftCount(rows: seq<Row>, d: Dml, x: Row): nat {
    |set i | 0 <= i < |rows| && !d.matches(rows[i]) && rows[i] == x|
    + |set i | 0 <= i < |rows| && d.matches(rows[i]) && d.becomes(rows[i]) == Some(x)|
  }

  lemma InOrderSnoc(init: seq<Row>, r: Row, d: Dml, out: seq<Row>, at: seq<nat>)
    requires InOrder(init, d, out, at)
    ensures !d.matches(r) ==> InOrder(init + [r], d, out + [r], at + [|init|])
    ensures d.matches(r) && d.becomes(r).Some? ==> InOrder(init + [r], d, out + [d.becomes(r).value], at + [|init|])
    ensures d.matches(r) && d.becomes(r).None? ==> InOrder(init + [r], d, out, at)
  {
    var rows := init + [r];
    assert forall i :: 0 <= i < |init| ==> rows[i] == init[i];
    assert (at + [|init|])[|at|] == |init|;
    forall i | 0 <= i < |rows| && i !in at + [|init|] ensures i < |init| && i !in at {}
  }

  /** A row-wise statement keeps the order of what it leaves. */
  lemma {:induction false} ChangedInOrder(rows: seq<Row>, d: Dml) returns (at: seq<nat>)
    ensures InOrder(rows, d, Changed(rows, d), at)
  {
    if |rows| == 0 {
      at := [];
    } else {
      var init, r := rows[..|rows| - 1], rows[|rows| - 1];
      var before := ChangedInOrder(init, d);
      InOrderSnoc(init, r, d, Changed(init, d), before);
      assert rows == init + [r];
      at := if d.matches(r) && d.becomes(r).None? then before else before + [|init|];
    }
  }

  lemma IndicesSnoc(p: Row -> bool, init: seq<Row>, r: Row)
    ensures |set i | 0 <= i < |init + [r]| && p((init + [r])[i])|
         == |set i | 0 <= i < |init| && p(init[i])| + if p(r) then 1 else 0
  {
    var rows := init + [r];
    var was, now := set i | 0 <= i < |init| && p(init[i]), set i | 0 <= i < |rows| && p(rows[i]);
    assert forall i :: 0 <= i < |init| ==> rows[i] == init[i];
    assert now == if p(r) then was + {|init|} else was;
  }

  lemma LeftCountIs(rows: seq<Row>, d: Dml, x: Row)
    ensures LeftCount(rows, d, x)
         == |set i | 0 <= i < |rows| && ((r: Row) => !d.matches(r) && r == x)(rows[i])|
            + |set i | 0 <= i < |rows| && ((r: Row) => d.matches(r) && d.becomes(r) == Some(x))(rows[i])|
  {
    assert (set i | 0 <= i < |rows| && !d.matches(rows[i]) && rows[i] == x)
        == (set i | 0 <= i < |rows| && ((r: Row) => !d.matches(r) && r == x)(rows[i]));
    assert (set i | 0 <= i < |rows| && d.matches(rows[i]) && d.becomes(rows[i]) == Some(x))
        == (set i | 0 <= i < |rows| && ((r: Row) => d.matches(r) && d.becomes(r) == Some(x))(rows[i]));
  }

  /** A row-wise statement leaves every row as often as it stands unmatched or is an image. */
  lemma {:induction false} ChangedCount(rows: seq<Row>, d: Dml, x: Row)
    ensures multiset(Changed(rows, d))[x] == LeftCount(rows, d, x)
  {
    if |rows| > 0 {
      var init, r := rows[..|rows| - 1], rows[|rows| - 1];
      assert rows == init + [r];
      ChangedCount(init, d, x);
      LeftCountIs(rows, d, x);
      LeftCountIs(init, d, x);
      IndicesSnoc((r: Row) => !d.matches(r) && r == x, init, r);
      IndicesSnoc((r: Row) => d.matches(r) && d.becomes(r) == Some(x), init, r);
    }
  }

  function RunOp(rows: seq<Row>, op: TableOp): seq<Row> {
    match op
    case Append(batches) => rows + Flatten(batches)
    case Change(d) => Changed(rows, d)
  }

  /** The specification: each operation run on the table the previous ones left. */
  function RunOps(rows: seq<Row>, ops: seq<TableOp>): seq<Row> {
    if |ops| == 0 then rows else RunOp(RunOps(rows, ops[..|ops| - 1]), ops[|ops| - 1])
  }

  // ---- what the commit does instead ------------------------------------------------------------------

  /** Fold rows through the row-wise statements at or after `from`. */
  function FoldFrom(ops: seq<TableOp>, from: nat, rows: seq<Row>): seq<Row>
    requires from <= |ops|
    decreases |ops| - from
  {
    if from == |ops| then rows
    else FoldFrom(ops, from + 1, if ops[from].Change? then Changed(rows, ops[from].dml) else rows)
  }

  predicate Touches(d: Dml, rows: seq<Row>) {
    exists i :: 0 <= i < |rows| && d.matches(rows[i])
  }

  /** Some statement matched some row on its way through. */
  predicate TouchedFrom(ops: seq<TableOp>, from: nat, rows: seq<Row>)
    requires from <= |ops|
    decreases |ops| - from
  {
    if from == |ops| then false
    else if ops[from].Change? then Touches(ops[from].dml, rows) || TouchedFrom(ops, from + 1, Changed(rows, ops[from].dml))
    else TouchedFrom(ops, from + 1, rows)
  }

  lemma TouchedNext(ops: seq<TableOp>, from: nat, rows: seq<Row>)
    requires from < |ops|
    ensures TouchedFrom(ops, from, rows)
       <==> || (ops[from].Change? && Touches(ops[from].dml, rows))
            || TouchedFrom(ops, from + 1, if ops[from].Change? then Changed(rows, ops[from].dml) else rows)
  {}

  /** The rows as operation `j` finds them. */
  ghost predicate MetAt(ops: seq<TableOp>, from: nat, rows: seq<Row>, j: nat)
    requires from <= j < |ops|
  {
    ops[j].Change? && exists r :: r in FoldFrom(ops[..j], from, rows) && ops[j].dml.matches(r)
  }

  lemma {:induction false} FoldPrefix(ops: seq<TableOp>, from: nat, j: nat, rows: seq<Row>)
    requires from < j <= |ops|
    ensures FoldFrom(ops[..j], from, rows)
         == FoldFrom(ops[..j], from + 1, if ops[from].Change? then Changed(rows, ops[from].dml) else rows)
  {
    assert ops[..j][from] == ops[from];
  }

  /** Rows are touched on their way exactly when some statement matches one of them as it finds them. */
  lemma {:induction false} TouchedIff(ops: seq<TableOp>, from: nat, rows: seq<Row>)
    requires from <= |ops|
    ensures TouchedFrom(ops, from, rows) <==> exists j: nat :: from <= j < |ops| && MetAt(ops, from, rows, j)
    decreases |ops| - from
  {
    if from < |ops| {
      var next := if ops[from].Change? then Changed(rows, ops[from].dml) else rows;
      TouchedNext(ops, from, rows);
      TouchedIff(ops, from + 1, next);
      MetHere(ops, from, rows);
      forall j: nat | from < j < |ops| ensures MetAt(ops, from, rows, j) <==> MetAt(ops, from + 1, next, j) {
        FoldPrefix(ops, from, j, rows);
      }
      var later := from + 1;
      if j: nat :| later <= j < |ops| && MetAt(ops, later, next, j) {
        assert MetAt(ops, from, rows, j);
      }
      if j: nat :| from <= j < |ops| && MetAt(ops, from, rows, j) {
        assert j == from || MetAt(ops, later, next, j);
      }
    }
  }

  lemma MetHere(ops: seq<TableOp>, from: nat, rows: seq<Row>)
    requires from < |ops|
    ensures MetAt(ops, from, rows, from) <==> ops[from].Change? && Touches(ops[from].dml, rows)
  {
    assert FoldFrom(ops[..from], from, rows) == rows;
    if ops[from].Change? {
      if r :| r in rows && ops[from].dml.matches(r) {
        var i :| 0 <= i < |rows| && rows[i] == r;
      }
    }
  }

  lemma {:induction false} ChangedConcat(a: seq<Row>, b: seq<Row>, d: Dml)
    ensures Changed(a + b, d) == Changed(a, d) + Changed(b, d)
    decreases |b|
  {
    if |b| == 0 {
      assert a + b == a;
    } else {
      assert (a + b)[..|a + b| - 1] == a + b[..|b| - 1];
      ChangedConcat(a, b[..|b| - 1], d);
    }
  }

  lemma {:induction false} ChangedUntouched(rows: seq<Row>, d: Dml)
    requires !Touches(d, rows)
    ensures Changed(rows, d) == rows
  {
    if |rows| > 0 {
      assert !d.matches(rows[|rows| - 1]);
      assert forall i :: 0 <= i < |rows| - 1 ==> rows[..|rows| - 1][i] == rows[i];
      ChangedUntouched(rows[..|rows| - 1], d);
      assert rows == rows[..|rows| - 1] + [rows[|rows| - 1]];
    }
  }

  lemma {:induction false} FoldUntouched(ops: seq<TableOp>, from: nat, rows: seq<Row>)
    requires from <= |ops| && !TouchedFrom(ops, from, rows)
    ensures FoldFrom(ops, from, rows) == rows
    decreases |ops| - from
  {
    if from < |ops| {
      if ops[from].Change? {
        ChangedUntouched(rows, ops[from].dml);
      }
      FoldUntouched(ops, from + 1, rows);
    }
  }

  lemma {:induction false} FoldConcat(ops: seq<TableOp>, from: nat, a: seq<Row>, b: seq<Row>)
    requires from <= |ops|
    ensures FoldFrom(ops, from, a + b) == FoldFrom(ops, from, a) + FoldFrom(ops, from, b)
    decreases |ops| - from
  {
    if from < |ops| {
      if ops[from].Change? {
        ChangedConcat(a, b, ops[from].dml);
        FoldConcat(ops, from + 1, Changed(a, ops[from].dml), Changed(b, ops[from].dml));
      } else {
        FoldConcat(ops, from + 1, a, b);
      }
    }
  }

  /** Every append's rows, each folded through the statements after it. */
  function AppendedFrom(ops: seq<TableOp>, from: nat): seq<Row>
    requires from <= |ops|
    decreases |ops| - from
  {
    if from == |ops| then []
    else (if ops[from].Append? then FoldFrom(ops, from + 1, Flatten(ops[from].batches)) else [])
         + AppendedFrom(ops, from + 1)
  }

  lemma RunNext(rows: seq<Row>, ops: seq<TableOp>, from: nat)
    requires from < |ops|
    ensures RunOps(rows, ops[..from + 1]) == RunOp(RunOps(rows, ops[..from]), ops[from])
  {
    assert ops[..from + 1][..from] == ops[..from];
  }

  lemma FoldNext(ops: seq<TableOp>, from: nat, before: seq<Row>)
    requires from < |ops|
    ensures FoldFrom(ops, from, before) + AppendedFrom(ops, from)
         == FoldFrom(ops, from + 1, RunOp(before, ops[from])) + AppendedFrom(ops, from + 1)
  {
    if ops[from].Append? {
      var rows := Flatten(ops[from].batches);
      FoldConcat(ops, from + 1, before, rows);
      assert AppendedFrom(ops, from) == FoldFrom(ops, from + 1, rows) + AppendedFrom(ops, from + 1);
    } else {
      assert AppendedFrom(ops, from) == AppendedFrom(ops, from + 1);
    }
  }

  /** Folding is running: the existing rows through every statement, each append through the later
      ones, is the operations one after another. */
  lemma {:induction false} FoldIsRun(rows: seq<Row>, ops: seq<TableOp>, from: nat)
    requires from <= |ops|
    ensures RunOps(rows, ops) == FoldFrom(ops, from, RunOps(rows, ops[..from])) + AppendedFrom(ops, from)
    decreases |ops| - from
  {
    if from == |ops| {
      assert ops[..from] == ops;
    } else {
      FoldIsRun(rows, ops, from + 1);
      RunNext(rows, ops, from);
      FoldNext(ops, from, RunOps(rows, ops[..from]));
    }
  }

  /** What a commit writes: the files it keeps, the ones it marks deleted, the rows it rewrites and
      the rows it appends. */
  datatype Plan = Plan(kept: seq<seq<Row>>, deleted: seq<seq<Row>>, rewritten: seq<Row>, appended: seq<Row>)

  function PlanRows(p: Plan): seq<Row> {
    Flatten(p.kept) + p.rewritten + p.appended
  }

  /** What the walk over the first files has established. */
  ghost predicate Fates(
    ops: seq<TableOp>, done: seq<seq<Row>>, kept: seq<seq<Row>>, deleted: seq<seq<Row>>, rewritten: seq<Row>)
  {
    && multiset(Flatten(kept) + rewritten) == multiset(FoldFrom(ops, 0, Flatten(done)))
    && multiset(kept) + multiset(deleted) == multiset(done)
    && (forall f :: f in kept ==> !TouchedFrom(ops, 0, f))
    && (forall f :: f in deleted ==> TouchedFrom(ops, 0, f))
  }

  lemma FatesNext(
    ops: seq<TableOp>, done: seq<seq<Row>>, file: seq<Row>, kept: seq<seq<Row>>, deleted: seq<seq<Row>>, rewritten: seq<Row>)
    requires Fates(ops, done, kept, deleted, rewritten)
    ensures TouchedFrom(ops, 0, file) ==>
      Fates(ops, done + [file], kept, deleted + [file], rewritten + FoldFrom(ops, 0, file))
    ensures !TouchedFrom(ops, 0, file) ==> Fates(ops, done + [file], kept + [file], deleted, rewritten)
  {
    FileStep(ops, done, file, kept, rewritten);
  }

  /** The file walk: each file is kept, or marked deleted with its surviving rows rewritten. */
  method DecideFates(files: seq<seq<Row>>, ops: seq<TableOp>)
    returns (kept: seq<seq<Row>>, deleted: seq<seq<Row>>, rewritten: seq<Row>)
    ensures Fates(ops, files, kept, deleted, rewritten)
  {
    kept, deleted, rewritten := [], [], [];
    NothingFolded(ops, 0);
    var i := 0;
    while i < |files|
      invariant 0 <= i <= |files| && Fates(ops, files[..i], kept, deleted, rewritten)
    {
      assert files[..i + 1] == files[..i] + [files[i]];
      FatesNext(ops, files[..i], files[i], kept, deleted, rewritten);
      if TouchedFrom(ops, 0, files[i]) {
        deleted := deleted + [files[i]];
        rewritten := rewritten + FoldFrom(ops, 0, files[i]);
      } else {
        kept := kept + [files[i]];
      }
      i := i + 1;
    }
    assert files[..|files|] == files;
  }

  lemma NothingDeleted(ops: seq<TableOp>, files: seq<seq<Row>>, kept: seq<seq<Row>>, deleted: seq<seq<Row>>, rewritten: seq<Row>)
    requires Fates(ops, files, kept, deleted, rewritten)
    ensures deleted == [] <==> forall f :: f in files ==> !TouchedFrom(ops, 0, f)
  {
    forall f | f in files ensures f in multiset(kept) + multiset(deleted) { assert f in multiset(files); }
    forall f | f in deleted ensures f in files { assert f in multiset(kept) + multiset(deleted); }
    if deleted != [] { assert deleted[0] in deleted; }
  }

  /** Each file is kept, removed or rewritten; each append is folded through the later statements;
      nothing to do is no commit. */
  method PrepareCommit(files: seq<seq<Row>>, ops: seq<TableOp>) returns (plan: Option<Plan>)
    ensures plan.Some? ==>
      && multiset(PlanRows(plan.value)) == multiset(RunOps(Flatten(files), ops))
      && multiset(plan.value.kept) + multiset(plan.value.deleted) == multiset(files)
      && (forall f :: f in plan.value.kept ==> !TouchedFrom(ops, 0, f))
      && (forall f :: f in plan.value.deleted ==> TouchedFrom(ops, 0, f))
      && plan.value.appended == AppendedFrom(ops, 0)
    ensures plan.None? <==> (forall f :: f in files ==> !TouchedFrom(ops, 0, f)) && AppendedFrom(ops, 0) == []
    ensures plan.None? ==> RunOps(Flatten(files), ops) == Flatten(files)
    ensures OneChange(ops) && plan.Some? ==> forall x :: multiset(PlanRows(plan.value))[x] == LeftCount(Flatten(files), ops[0].dml, x)
    ensures OneChange(ops) && plan.Some? ==>
      && (forall f :: f in plan.value.kept ==> !MatchesSome(ops[0].dml, f))
      && (forall f :: f in plan.value.deleted ==> MatchesSome(ops[0].dml, f))
    ensures OneChange(ops) ==> (plan.None? <==> forall f :: f in files ==> !MatchesSome(ops[0].dml, f))
  {
    if OneChange(ops) { OneChangeIs(files, ops); }
    var kept, deleted, rewritten := DecideFates(files, ops);
    var appended := CollectAppends(ops);
    FoldIsRun(Flatten(files), ops, 0);
    assert RunOps(Flatten(files), ops[..0]) == Flatten(files);
    NothingDeleted(ops, files, kept, deleted, rewritten);
    if deleted == [] && appended == [] {
      FilesUntouched(ops, files);
      return None;
    }
    plan := Some(Plan(kept, deleted, rewritten, appended));
    assert multiset(PlanRows(plan.value)) == multiset(Flatten(kept) + rewritten) + multiset(appended);
  }

  predicate OneChange(ops: seq<TableOp>) {
    |ops| == 1 && ops[0].Change?
  }

  ghost predicate MatchesSome(d: Dml, rows: seq<Row>) {
    exists r :: r in rows && d.matches(r)
  }

  /** A single row-wise statement, without the folding. */
  lemma OneChangeIs(files: seq<seq<Row>>, ops: seq<TableOp>)
    requires OneChange(ops)
    ensures forall x :: multiset(RunOps(Flatten(files), ops))[x] == LeftCount(Flatten(files), ops[0].dml, x)
    ensures forall f :: TouchedFrom(ops, 0, f) <==> MatchesSome(ops[0].dml, f)
    ensures AppendedFrom(ops, 0) == []
  {
    var d := ops[0].dml;
    assert ops[..0] == [];
    assert RunOps(Flatten(files), ops) == Changed(Flatten(files), d);
    forall x ensures multiset(RunOps(Flatten(files), ops))[x] == LeftCount(Flatten(files), d, x) {
      ChangedCount(Flatten(files), d, x);
    }
    forall f ensures TouchedFrom(ops, 0, f) <==> MatchesSome(d, f) {
      assert TouchedFrom(ops, 0, f) <==> Touches(d, f);
    }
  }

  lemma FileStep(ops: seq<TableOp>, done: seq<seq<Row>>, file: seq<Row>, kept: seq<seq<Row>>, rewritten: seq<Row>)
    requires multiset(Flatten(kept) + rewritten) == multiset(FoldFrom(ops, 0, Flatten(done)))
    ensures TouchedFrom(ops, 0, file) ==>
      multiset(Flatten(kept) + (rewritten + FoldFrom(ops, 0, file))) == multiset(FoldFrom(ops, 0, Flatten(done + [file])))
    ensures !TouchedFrom(ops, 0, file) ==>
      multiset(Flatten(kept + [file]) + rewritten) == multiset(FoldFrom(ops, 0, Flatten(done + [file])))
  {
    FlattenSnoc(done, file);
    FoldConcat(ops, 0, Flatten(done), file);
    if TouchedFrom(ops, 0, file) {
      assert Flatten(kept) + (rewritten + FoldFrom(ops, 0, file)) == Flatten(kept) + rewritten + FoldFrom(ops, 0, file);
    } else {
      FoldUntouched(ops, 0, file);
      FlattenSnoc(kept, file);
    }
  }

  lemma {:induction false} FilesUntouched(ops: seq<TableOp>, files: seq<seq<Row>>)
    requires forall f :: f in files ==> !TouchedFrom(ops, 0, f)
    ensures FoldFrom(ops, 0, Flatten(files)) == Flatten(files)
  {
    if |files| > 0 {
      var init, last := files[..|files| - 1], files[|files| - 1];
      assert last in files && forall f :: f in init ==> f in files;
      FilesUntouched(ops, init);
      FoldConcat(ops, 0, Flatten(init), last);
      FoldUntouched(ops, 0, last);
    } else {
      NothingFolded(ops, 0);
    }
  }

  lemma {:induction false} NothingFolded(ops: seq<TableOp>, from: nat)
    requires from <= |ops|
    ensures FoldFrom(ops, from, []) == []
    decreases |ops| - from
  {
    if from < |ops| { NothingFolded(ops, from + 1); }
  }

  /** Buffered appends, each folded through every later statement. */
  method CollectAppends(ops: seq<TableOp>) returns (appended: seq<Row>)
    ensures appended == AppendedFrom(ops, 0)
  {
    appended := [];
    var i := 0;
    while i < |ops|
      invariant 0 <= i <= |ops| && appended + AppendedFrom(ops, i) == AppendedFrom(ops, 0)
    {
      if ops[i].Append? {
        appended := appended + FoldFrom(ops, i + 1, Flatten(ops[i].batches));
      }
      i := i + 1;
    }
  }

  predicate HoldsKey(rows: seq<Row>, keys: set<Key>) {
    exists i :: 0 <= i < |rows| && rows[i].key in keys
  }

  // ---- a window as table operations --------------------------------------------------------------------

  function DeleteKeys(keys: set<Key>): Dml {
    Dml((r: Row) => r.key in keys, (r: Row) => None)
  }

  /** Pending inserts first, then one delete of every keyed key, then the upsert rows. */
  method Compose(snap: Snap) returns (ops: seq<TableOp>)
    ensures forall rows :: multiset(RunOps(rows, ops)) == Apply(multiset(rows), SnapLayer(snap))
    ensures AppendedFrom(ops, 0) == [] <==>
      Without(Bag(snap.batches), snap.keyed.Keys) == multiset{} && UpsertRows(snap.keyed) == multiset{}
    ensures forall f: seq<Row> :: TouchedFrom(ops, 0, f) <==> HoldsKey(f, snap.keyed.Keys)
  {
    var upserts := CollectUpserts(snap.keyed);
    ops := [];
    if snap.batches != [] {
      ops := ops + [Append(snap.batches)];
    }
    if snap.keyed != map[] {
      ops := ops + [Change(DeleteKeys(snap.keyed.Keys))];
      if upserts != [] {
        ops := ops + [Append([upserts])];
      }
    }
    assert ops == Composed(snap, upserts);
    forall rows ensures multiset(RunOps(rows, ops)) == Apply(multiset(rows), SnapLayer(snap)) {
      ComposedRuns(rows, snap, upserts);
    }
    ComposedAppends(snap, upserts);
    forall f: seq<Row> ensures TouchedFrom(ops, 0, f) <==> HoldsKey(f, snap.keyed.Keys) {
      ComposedTouches(f, snap, upserts);
    }
  }

  method CollectUpserts(keyed: map<Key, Entry>) returns (rows: seq<Row>)
    ensures multiset(rows) == UpsertRows(keyed)
  {
    rows := [];
    var left := keyed.Keys;
    while left != {}
      invariant left <= keyed.Keys
      invariant forall r: Row :: multiset(rows)[r] == if r.key in left then 0 else UpsertRows(keyed)[r]
      decreases left
    {
      var key :| key in left;
      if keyed[key].kind.Upsert? {
        rows := rows + [Row(key, keyed[key].kind.val)];
      }
      left := left - {key};
    }
    assert multiset(rows) == UpsertRows(keyed);
  }

  function Composed(snap: Snap, upserts: seq<Row>): seq<TableOp> {
    (if snap.batches == [] then [] else [Append(snap.batches)])
    + (if snap.keyed == map[] then []
       else [Change(DeleteKeys(snap.keyed.Keys))] + if upserts == [] then [] else [Append([upserts])])
  }

  lemma {:induction false} DeletedBag(rows: seq<Row>, keys: set<Key>)
    ensures multiset(Changed(rows, DeleteKeys(keys))) == Without(multiset(rows), keys)
  {
    if |rows| > 0 {
      DeletedBag(rows[..|rows| - 1], keys);
      SnocBag(rows);
    }
  }

  lemma RunSnoc(rows: seq<Row>, ops: seq<TableOp>, op: TableOp)
    ensures RunOps(rows, ops + [op]) == RunOp(RunOps(rows, ops), op)
  {
    assert (ops + [op])[..|ops|] == ops;
  }

  lemma RunAppends(rows: seq<Row>, snap: Snap)
    ensures RunOps(rows, if snap.batches == [] then [] else [Append(snap.batches)]) == rows + Flatten(snap.batches)
  {
    RunSnoc(rows, [], Append(snap.batches));
    assert [] + [Append(snap.batches)] == [Append(snap.batches)];
  }

  /** Composing the window and running it is applying its layer. */
  lemma ComposedRuns(rows: seq<Row>, snap: Snap, upserts: seq<Row>)
    requires multiset(upserts) == UpsertRows(snap.keyed)
    ensures multiset(RunOps(rows, Composed(snap, upserts))) == Apply(multiset(rows), SnapLayer(snap))
  {
    var first := if snap.batches == [] then [] else [Append(snap.batches)];
    RunAppends(rows, snap);
    var all := rows + Flatten(snap.batches);
    assert multiset(all) == multiset(rows) + Bag(snap.batches);
    if snap.keyed == map[] {
      assert Composed(snap, upserts) == first;
      forall r: Row ensures multiset(all)[r] == Apply(multiset(rows), SnapLayer(snap))[r] {}
    } else {
      ComposedKeyed(rows, first, snap, upserts);
    }
  }

  lemma DeletedRun(rows: seq<Row>, first: seq<TableOp>, keys: set<Key>)
    ensures multiset(RunOps(rows, first + [Change(DeleteKeys(keys))])) == Without(multiset(RunOps(rows, first)), keys)
  {
    RunSnoc(rows, first, Change(DeleteKeys(keys)));
    DeletedBag(RunOps(rows, first), keys);
  }

  lemma ComposedKeyed(rows: seq<Row>, first: seq<TableOp>, snap: Snap, upserts: seq<Row>)
    requires multiset(upserts) == UpsertRows(snap.keyed) && snap.keyed != map[]
    requires first == (if snap.batches == [] then [] else [Append(snap.batches)])
    requires multiset(RunOps(rows, first)) == multiset(rows) + Bag(snap.batches)
    ensures multiset(RunOps(rows, Composed(snap, upserts))) == Apply(multiset(rows), SnapLayer(snap))
  {
    var ops := first + [Change(DeleteKeys(snap.keyed.Keys))];
    DeletedRun(rows, first, snap.keyed.Keys);
    ComposedParts(snap, upserts);
    ComposedLast(rows, ops, RunOps(rows, ops), snap, upserts);
  }

  lemma ComposedParts(snap: Snap, upserts: seq<Row>)
    requires snap.keyed != map[]
    ensures Composed(snap, upserts)
         == (if snap.batches == [] then [] else [Append(snap.batches)]) + [Change(DeleteKeys(snap.keyed.Keys))]
            + (if upserts == [] then [] else [Append([upserts])])
  {}

  lemma ComposedLast(rows: seq<Row>, ops: seq<TableOp>, left: seq<Row>, snap: Snap, upserts: seq<Row>)
    requires multiset(upserts) == UpsertRows(snap.keyed) && RunOps(rows, ops) == left
    requires multiset(left) == Without(multiset(rows) + Bag(snap.batches), snap.keyed.Keys)
    ensures multiset(RunOps(rows, ops + (if upserts == [] then [] else [Append([upserts])])))
         == Apply(multiset(rows), SnapLayer(snap))
  {
    FlattenSingle(upserts);
    RunSnoc(rows, ops, Append([upserts]));
    assert multiset(left + upserts) == multiset(left) + multiset(upserts);
    if upserts == [] {
      assert ops + [] == ops && left + upserts == left;
    }
  }

  lemma DeleteTouches(f: seq<Row>, keys: set<Key>)
    ensures Touches(DeleteKeys(keys), f) <==> HoldsKey(f, keys)
  {
    if HoldsKey(f, keys) {
      var i :| 0 <= i < |f| && f[i].key in keys;
      assert DeleteKeys(keys).matches(f[i]);
    }
  }

  lemma ComposedTouches(f: seq<Row>, snap: Snap, upserts: seq<Row>)
    ensures TouchedFrom(Composed(snap, upserts), 0, f) <==> HoldsKey(f, snap.keyed.Keys)
  {
    var ops, d := Composed(snap, upserts), DeleteKeys(snap.keyed.Keys);
    DeleteTouches(f, snap.keyed.Keys);
    AppendsTouchNothing(ops, |ops|, f);
    if snap.keyed == map[] {
      AppendsTouchNothing(ops, 0, f);
    } else {
      var at := if snap.batches == [] then 0 else 1;
      assert ops[at] == Change(d);
      AppendsTouchNothing(ops, at + 1, Changed(f, d));
      if at == 1 { assert ops[0].Append?; }
    }
  }

  lemma {:induction false} AppendsTouchNothing(ops: seq<TableOp>, from: nat, f: seq<Row>)
    requires from <= |ops| && forall i :: from <= i < |ops| ==> ops[i].Append?
    ensures !TouchedFrom(ops, from, f) && FoldFrom(ops, from, f) == f
    decreases |ops| - from
  {
    if from < |ops| { AppendsTouchNothing(ops, from + 1, f); }
  }

  lemma EmptyBag(rows: seq<Row>)
    ensures rows == [] <==> multiset(rows) == multiset{}
  {
    if |rows| > 0 { assert rows[0] in multiset(rows); }
  }

  lemma ComposedAppends(snap: Snap, upserts: seq<Row>)
    requires multiset(upserts) == UpsertRows(snap.keyed)
    ensures AppendedFrom(Composed(snap, upserts), 0) == [] <==>
      Without(Bag(snap.batches), snap.keyed.Keys) == multiset{} && UpsertRows(snap.keyed) == multiset{}
  {
    ComposedRuns([], snap, upserts);
    var ops := Composed(snap, upserts);
    FoldIsRun([], ops, 0);
    assert ops[..0] == [];
    NothingFolded(ops, 0);
    assert RunOps([], ops) == AppendedFrom(ops, 0);
    EmptyBag(AppendedFrom(ops, 0));
    ApplyToNothing(SnapLayer(snap));
  }

  lemma ApplyToNothing(l: Layer)
    ensures Apply(multiset{}, l) == multiset{} <==> Without(Bag(l.batches), l.ops.Keys) == multiset{} && UpsertRows(l.ops) == multiset{}
  {
    assert multiset{} + Bag(l.batches) == Bag(l.batches);
    assert Apply(multiset{}, l) == Without(Bag(l.batches), l.ops.Keys) + UpsertRows(l.ops);
  }

  // ---- the flush -------------------------------------------------------------------------------------------

  lemma {:induction false} FilesTouched(files: seq<seq<Row>>, keys: set<Key>)
    ensures (forall f :: f in files ==> !HoldsKey(f, keys))
       <==> Without(Bag(files), keys) == Bag(files)
  {
    var rows := Flatten(files);
    KeysInFiles(files, keys);
    if forall i :: 0 <= i < |rows| ==> rows[i].key !in keys {
      assert forall r: Row :: Without(multiset(rows), keys)[r] == multiset(rows)[r];
      assert Without(multiset(rows), keys) == multiset(rows);
    } else {
      var i :| 0 <= i < |rows| && rows[i].key in keys;
      assert rows[i] in multiset(rows);
      assert Without(multiset(rows), keys)[rows[i]] == 0;
    }
  }

  lemma {:induction false} KeysInFiles(files: seq<seq<Row>>, keys: set<Key>)
    ensures (forall f :: f in files ==> !HoldsKey(f, keys))
       <==> forall i :: 0 <= i < |Flatten(files)| ==> Flatten(files)[i].key !in keys
  {
    if |files| > 0 {
      var init, last := files[..|files| - 1], files[|files| - 1];
      KeysInFiles(init, keys);
      assert files == init + [last];
      FlattenSnoc(init, last);
      var a, b := Flatten(init), Flatten(files);
      assert forall i :: 0 <= i < |a| ==> b[i] == a[i];
      assert forall i :: 0 <= i < |last| ==> b[|a| + i] == last[i];
      assert forall i :: |a| <= i < |b| ==> b[i] == last[i - |a|];
      if forall f :: f in files ==> !HoldsKey(f, keys) {
        assert last in files;
        assert forall f :: f in init ==> f in files;
      }
    }
  }

  /** One flush: the rows of the committed files after it are exactly the view the overlay showed
      before it, and there is no commit exactly when there is nothing to commit. */
  method FlushCommit(files: seq<seq<Row>>, snap: Snap) returns (plan: Option<Plan>)
    ensures plan.Some? ==> multiset(PlanRows(plan.value)) == UnionRead(Bag(files), [SnapLayer(snap)])
    ensures plan.None? <==> NetZero(Bag(files), SnapLayer(snap))
    ensures plan.None? ==> Bag(files) == UnionRead(Bag(files), [SnapLayer(snap)])
  {
    var ops := Compose(snap);
    plan := PrepareCommit(files, ops);
    assert multiset(RunOps(Flatten(files), ops)) == Apply(Bag(files), SnapLayer(snap));
    OneLayerView(Bag(files), SnapLayer(snap));
    FilesTouched(files, snap.keyed.Keys);
  }

  lemma OneLayerView(c: Table, l: Layer)
    ensures UnionRead(c, [l]) == Apply(c, l)
  {
    OverlayRefinesSequential(c, [l]);
    ApplyAllSnoc(c, [], l);
    assert [] + [l] == [l];
  }
}
