/** A window part of which is already committed: an errored post had landed, its reload failed, and the
    window grew. When committing it once more is right all the same, and when a scan is, told from
    sequences and keys. */
module HalfCovered {
  import opened Rows
  import opened Window
  import opened Layers
  import opened Log
  import opened Engine
  import opened Invariants
  import opened StageSteps
  import opened FlushSteps
  import opened CrashSteps
  import opened Refinement
  import opened KeysHeld

  // ---- what a range of statements does outside a set of keys ------------------------------------------------

  function Between(log: seq<Stmt>, lo: nat, hi: nat): seq<Stmt> {
    Above(Upto(log, hi), lo)
  }

  lemma BetweenIn(log: seq<Stmt>, lo: nat, hi: nat, e: Stmt)
    requires Sorted(log)
    ensures e in Between(log, lo, hi) <==> e in log && lo < e.seqno <= hi
  {
    UptoSorted(log, hi);
    UptoIn(log, hi, e);
    AboveIn(Upto(log, hi), lo, e);
  }

  lemma AtBetween(base: Table, log: seq<Stmt>, lo: nat, hi: nat)
    requires lo <= hi
    ensures At(base, log, hi) == Fold(At(base, log, lo), Between(log, lo, hi))
  {
    UptoAbove(Upto(log, hi), lo);
    UptoUpto(log, lo, hi);
    FoldConcat(base, Upto(log, lo), Between(log, lo, hi));
  }

  lemma {:induction false} FoldFrame(t: Table, log: seq<Stmt>, r: Row)
    requires forall e :: e in log ==> r.key !in OpKeys(e.op)
    ensures Fold(t, log)[r] == t[r]
  {
    if |log| > 0 {
      var init, last := log[..|log| - 1], log[|log| - 1];
      assert last in log && forall e :: e in init ==> e in log;
      FoldFrame(t, init, r);
      ExecFrame(Fold(t, init), last.op, r);
    }
  }

  /** Where no keyed operation names the key, its rows only become more. */
  lemma {:induction false} FoldGrows(t: Table, log: seq<Stmt>, r: Row)
    requires forall e :: e in log && !e.op.Insert? ==> r.key !in OpKeys(e.op)
    ensures Fold(t, log)[r] >= t[r]
  {
    if |log| > 0 {
      var init, last := log[..|log| - 1], log[|log| - 1];
      assert last in log && forall e :: e in init ==> e in log;
      FoldGrows(t, init, r);
      if !last.op.Insert? { ExecFrame(Fold(t, init), last.op, r); }
    }
  }

  lemma {:induction false} FoldMore(t: Table, log: seq<Stmt>, e: Stmt, r: Row)
    requires forall e :: e in log && !e.op.Insert? ==> r.key !in OpKeys(e.op)
    requires e in log && e.op.Insert? && r in Flatten(e.op.batches)
    ensures Fold(t, log)[r] > t[r]
  {
    var init, last := log[..|log| - 1], log[|log| - 1];
    assert log == init + [last] && last in log && forall x :: x in init ==> x in log;
    if last == e {
      FoldGrows(t, init, r);
      assert multiset(Flatten(e.op.batches))[r] >= 1;
    } else {
      FoldMore(t, init, e, r);
      if !last.op.Insert? { ExecFrame(Fold(t, init), last.op, r); }
    }
  }

  /** No INSERT sequenced in `(lo, hi]` holds a row whose key is outside `keys`. */
  ghost predicate InsertsHeld(log: seq<Stmt>, lo: nat, hi: nat, keys: set<Key>) {
    forall e :: e in log && lo < e.seqno <= hi && e.op.Insert? ==> OpKeys(e.op) <= keys
  }

  /** Tables that agree on every row whose key is outside `keys`. */
  ghost predicate AgreeOutside(t: Table, u: Table, keys: set<Key>) {
    forall r: Row :: r.key !in keys ==> t[r] == u[r]
  }

  lemma OutsideIff(base: Table, log: seq<Stmt>, lo: nat, hi: nat, keys: set<Key>)
    requires Sorted(log) && lo <= hi && HeldBetween(log, lo, hi, keys)
    ensures AgreeOutside(At(base, log, hi), At(base, log, lo), keys) <==> InsertsHeld(log, lo, hi, keys)
  {
    var t, mid := At(base, log, lo), Between(log, lo, hi);
    AtBetween(base, log, lo, hi);
    forall e ensures e in mid <==> e in log && lo < e.seqno <= hi { BetweenIn(log, lo, hi, e); }
    if InsertsHeld(log, lo, hi, keys) {
      forall r: Row | r.key !in keys ensures Fold(t, mid)[r] == t[r] { FoldFrame(t, mid, r); }
    } else {
      var e :| e in log && lo < e.seqno <= hi && e.op.Insert? && !(OpKeys(e.op) <= keys);
      var r :| r in Flatten(e.op.batches) && r.key !in keys;
      FoldMore(t, mid, e, r);
    }
  }

  /** A layer hides the difference between two tables exactly when they differ on its keys only. */
  lemma SameUnderIff(c: Table, d: Table, l: Layer)
    ensures Apply(c, l) == Apply(d, l) <==> AgreeOutside(c, d, l.ops.Keys)
  {
    if AgreeOutside(c, d, l.ops.Keys) {
      forall r: Row ensures Apply(c, l)[r] == Apply(d, l)[r] {}
      SameTable(Apply(c, l), Apply(d, l));
    } else {
      var r: Row :| r.key !in l.ops && c[r] != d[r];
      assert Apply(c, l)[r] != Apply(d, l)[r];
    }
  }

  // ---- H3: committing a half-covered window -----------------------------------------------------------------

  /** The loaded rows against the table below the window, on the keys the snapshot does not own. */
  lemma LoadedOutside(s: State)
    requires Inv(s) && Held(s) && s.flight.Loaded?
    ensures s.flight.base < |s.hist|
    ensures var wm, keys := s.hist[s.flight.base].wm, s.flight.snap.keyed.Keys;
            AgreeOutside(s.hist[s.flight.base].rows, At(s.base, s.log, s.liveLo), keys) <==> InsertsHeld(s.log, s.liveLo, wm, keys)
  {
    var v, keys := s.hist[s.flight.base], s.flight.snap.keyed.Keys;
    assert v.rows == At(s.base, s.log, v.wm) && v.wm == s.hist[LastIdx(s)].wm <= s.frozen;
    if v.wm <= s.liveLo {
      LastLink(s);
    } else {
      OutsideIff(s.base, s.log, s.liveLo, v.wm, keys);
    }
  }

  /** The commit the flusher would prepare now is the table at its mark if and only if no INSERT between
      the window's mark and the loaded watermark holds a row whose key is outside the snapshot's map: such
      a row is in the committed rows and would be appended again. */
  lemma PostExactIff(s: State)
    requires Inv(s) && Held(s) && s.flight.Loaded?
    ensures s.flight.base < |s.hist|
    ensures Apply(s.hist[s.flight.base].rows, SnapLayer(s.flight.snap)) == At(s.base, s.log, s.frozen)
       <==> InsertsHeld(s.log, s.liveLo, s.hist[s.flight.base].wm, s.flight.snap.keyed.Keys)
  {
    LoadedOutside(s);
    SameUnderIff(s.hist[s.flight.base].rows, At(s.base, s.log, s.liveLo), SnapLayer(s.flight.snap));
  }

  /** Without keyed operations: if and only if no statement at all lies there. */
  lemma PlainPostExactIff(s: State)
    requires Inv(s) && s.flight.Loaded? && !s.keyedTable
    ensures s.flight.base < |s.hist|
    ensures Apply(s.hist[s.flight.base].rows, SnapLayer(s.flight.snap)) == At(s.base, s.log, s.frozen)
       <==> forall e :: e in s.log ==> !(s.liveLo < e.seqno <= s.hist[s.flight.base].wm)
  {
    PlainHeld(s);
    PostExactIff(s);
    PlainSnap(s);
    forall e | e in s.log ensures e.op.Insert? && OpKeys(e.op) != {} {
      NoKeyed(s.base, s.log, e);
      assert Flatten(e.op.batches)[0].key in OpKeys(e.op);
    }
  }

  lemma PlainSnap(s: State)
    requires WindowInv(s) && s.flight.Loaded? && !s.keyedTable
    ensures s.flight.snap.keyed.Keys == {}
  {
    SnapKeptNow(s);
    assert Entries(s.buf) == map[];
  }

  // ---- H3: scanning one -------------------------------------------------------------------------------------

  lemma AllCovered(s: State, v: nat)
    requires CatalogInv(s) && v < |s.hist| && s.hist[v].wm > s.liveLo
    ensures FirstUnseen(s.hist, s.buf.flushed, v, |s.buf.flushed|)
  {
    forall i | 0 <= i < |s.buf.flushed| ensures Contains(s.hist, v, s.buf.flushed[i].commit) {
      LoBound(s.spans, s.liveLo, s.frozen, s.tail.nextSeq, i);
    }
  }

  /** A version above the window's mark contains every generation, so the overlay is the live window. */
  lemma CoveredScan(s: State, v: nat)
    requires CatalogInv(s) && v < |s.hist| && s.hist[v].wm > s.liveLo
    ensures ScanResult(s, v) == Apply(s.hist[v].rows, Live(s.buf))
  {
    var n := |s.buf.flushed|;
    AllCovered(s, v);
    ScanLayers(s, v, n);
    assert s.buf.flushed[n..] == [];
  }

  lemma LiveOutside(s: State, v: nat)
    requires Inv(s) && Held(s) && v < |s.hist| && s.hist[v].wm > s.liveLo
    ensures var keys := Entries(s.buf).Keys;
            AgreeOutside(s.hist[v].rows, At(s.base, s.log, s.liveLo), keys) <==> InsertsHeld(s.log, s.liveLo, s.hist[v].wm, keys)
  {
    var keys, wm := Entries(s.buf).Keys, s.hist[v].wm;
    assert s.hist[v].rows == At(s.base, s.log, wm);
    assert HeldBetween(s.log, s.liveLo, wm, keys);
    OutsideIff(s.base, s.log, s.liveLo, wm, keys);
  }

  /** What any scan returns, in every state: the fold of the log if and only if no INSERT between the
      window's mark and the scan's watermark holds a row whose key is outside the live map. Where the
      watermark has not passed the mark nothing lies between. */
  lemma ViewExactIff(s: State, v: nat)
    requires Inv(s) && Held(s) && Servable(s.hist, s.served, s.scans, v)
    ensures ScanResult(s, v) == Logical(s) <==> InsertsHeld(s.log, s.liveLo, s.hist[v].wm, Entries(s.buf).Keys)
  {
    if s.hist[v].wm <= s.liveLo {
      ViewIsLogical(s, v);
    } else {
      CoveredScan(s, v);
      LiveOutside(s, v);
      SameUnderIff(s.hist[v].rows, At(s.base, s.log, s.liveLo), Live(s.buf));
    }
  }

  // ---- over runs --------------------------------------------------------------------------------------------

  /** Any view of any reachable state: when exactly it is the fold of its log. */
  lemma RunViewIff(trace: seq<State>, steps: seq<Step>, i: nat, v: nat)
    requires Run(trace, steps) && i < |trace|
    requires Servable(trace[i].hist, trace[i].served, trace[i].scans, v)
    ensures ScanResult(trace[i], v) == Fold(trace[0].base, trace[i].log)
       <==> InsertsHeld(trace[i].log, trace[i].liveLo, trace[i].hist[v].wm, Entries(trace[i].buf).Keys)
  {
    RunInv(trace, steps, i);
    RunHeld(trace, steps, i);
    ViewExactIff(trace[i], v);
    BaseStays(trace, steps, i);
  }

  /** Any commit about to be prepared in any reachable state. */
  lemma RunPostIff(trace: seq<State>, steps: seq<Step>, i: nat)
    requires Run(trace, steps) && i < |trace| && trace[i].flight.Loaded?
    ensures trace[i].flight.base < |trace[i].hist|
    ensures var s := trace[i];
            (Apply(s.hist[s.flight.base].rows, SnapLayer(s.flight.snap)) == At(s.base, s.log, s.frozen)
             <==> InsertsHeld(s.log, s.liveLo, s.hist[s.flight.base].wm, s.flight.snap.keyed.Keys))
  {
    RunInv(trace, steps, i);
    RunHeld(trace, steps, i);
    PostExactIff(trace[i]);
  }
}
