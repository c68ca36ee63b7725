/** The sequential specification: statements in tail-sequence order, folded over a table. */
module Log {
  import opened Rows

  /** One staged statement with its tail sequence; also the content of one tail frame. */
  datatype Stmt = Stmt(seqno: nat, op: Op)

  ghost function Fold(t: Table, log: seq<Stmt>): Table {
    if |log| == 0 then t else Exec(Fold(t, log[..|log| - 1]), log[|log| - 1].op)
  }

  /** The statements up to sequence `w`, and those above it. */
  function Upto(log: seq<Stmt>, w: nat): seq<Stmt> {
    if |log| == 0 then []
    else if log[|log| - 1].seqno <= w then log
    else Upto(log[..|log| - 1], w)
  }

  function Above(log: seq<Stmt>, w: nat): seq<Stmt> {
    if |log| == 0 then []
    else if log[|log| - 1].seqno <= w then []
    else Above(log[..|log| - 1], w) + [log[|log| - 1]]
  }

  /** The log without the given sequences. */
  function Minus(log: seq<Stmt>, gone: set<nat>): seq<Stmt> {
    if |log| == 0 then []
    else
      var init := Minus(log[..|log| - 1], gone);
      if log[|log| - 1].seqno in gone then init else init + [log[|log| - 1]]
  }

  ghost predicate Sorted(log: seq<Stmt>) {
    forall i, j :: 0 <= i < j < |log| ==> log[i].seqno < log[j].seqno
  }

  ghost predicate HasSeq(log: seq<Stmt>, sq: nat) {
    exists e :: e in log && e.seqno == sq
  }

  /** What a keyed table asks of a statement: an INSERT brings at least one row and targets no
      key that is present, nor one key twice. A table that never opted in takes inserts only. */
  ghost predicate Allowed(keyedTable: bool, t: Table, op: Op) {
    match op
    case Insert(batches) =>
      && |Flatten(batches)| > 0
      && (keyedTable ==>
            && DistinctKeys(Flatten(batches))
            && forall r :: r in Flatten(batches) ==> !HasKey(t, r.key))
    case Put(_, _) => keyedTable
    case Del(_) => keyedTable
  }

  ghost predicate AllAllowed(keyedTable: bool, t: Table, log: seq<Stmt>) {
    |log| > 0 ==>
      && AllAllowed(keyedTable, t, log[..|log| - 1])
      && Allowed(keyedTable, Fold(t, log[..|log| - 1]), log[|log| - 1].op)
  }

  // ---- splitting ---------------------------------------------------------------------

  lemma {:induction false} UptoAbove(log: seq<Stmt>, w: nat)
    ensures log == Upto(log, w) + Above(log, w)
  {
    if |log| > 0 && log[|log| - 1].seqno > w {
      UptoAbove(log[..|log| - 1], w);
      assert log == log[..|log| - 1] + [log[|log| - 1]];
    }
  }

  lemma {:induction false} UptoIn(log: seq<Stmt>, w: nat, e: Stmt)
    requires Sorted(log)
    ensures e in Upto(log, w) <==> e in log && e.seqno <= w
  {
    if |log| > 0 {
      if log[|log| - 1].seqno <= w {
        if e in log {
          var i :| 0 <= i < |log| && log[i] == e;
          assert e.seqno <= log[|log| - 1].seqno;
        }
      } else {
        UptoIn(log[..|log| - 1], w, e);
        assert log == log[..|log| - 1] + [log[|log| - 1]];
      }
    }
  }

  lemma {:induction false} AboveIn(log: seq<Stmt>, w: nat, e: Stmt)
    requires Sorted(log)
    ensures e in Above(log, w) <==> e in log && e.seqno > w
  {
    if |log| > 0 {
      if log[|log| - 1].seqno <= w {
        if e in log {
          var i :| 0 <= i < |log| && log[i] == e;
          assert e.seqno <= log[|log| - 1].seqno;
        }
      } else {
        AboveIn(log[..|log| - 1], w, e);
        assert log == log[..|log| - 1] + [log[|log| - 1]];
      }
    }
  }

  lemma {:induction false} MinusIn(log: seq<Stmt>, gone: set<nat>, e: Stmt)
    ensures e in Minus(log, gone) <==> e in log && e.seqno !in gone
  {
    if |log| > 0 {
      MinusIn(log[..|log| - 1], gone, e);
      assert log == log[..|log| - 1] + [log[|log| - 1]];
    }
  }

  lemma {:induction false} MinusSorted(log: seq<Stmt>, gone: set<nat>)
    requires Sorted(log)
    ensures Sorted(Minus(log, gone))
  {
    if |log| > 0 {
      var init := log[..|log| - 1];
      MinusSorted(init, gone);
      forall i | 0 <= i < |Minus(init, gone)| ensures Minus(init, gone)[i].seqno < log[|log| - 1].seqno {
        MinusIn(init, gone, Minus(init, gone)[i]);
        var j :| 0 <= j < |init| && init[j] == Minus(init, gone)[i];
      }
    }
  }

  lemma {:induction false} MinusAbsent(log: seq<Stmt>, gone: set<nat>)
    requires forall e :: e in log ==> e.seqno !in gone
    ensures Minus(log, gone) == log
  {
    if |log| > 0 {
      assert log == log[..|log| - 1] + [log[|log| - 1]];
      MinusAbsent(log[..|log| - 1], gone);
    }
  }

  lemma {:induction false} MinusTwice(log: seq<Stmt>, a: set<nat>, b: set<nat>)
    ensures Minus(Minus(log, a), b) == Minus(log, a + b)
  {
    if |log| > 0 {
      var init, last := log[..|log| - 1], log[|log| - 1];
      MinusTwice(init, a, b);
      if last.seqno !in a {
        assert (Minus(init, a) + [last])[..|Minus(init, a)|] == Minus(init, a);
      }
    }
  }

  lemma SnocInit(log: seq<Stmt>, e: Stmt)
    ensures (log + [e])[..|log + [e]| - 1] == log && (log + [e])[|log + [e]| - 1] == e
  {}

  lemma MinusSnoc(log: seq<Stmt>, e: Stmt, gone: set<nat>)
    ensures Minus(log + [e], gone) == if e.seqno in gone then Minus(log, gone) else Minus(log, gone) + [e]
  {
    SnocInit(log, e);
  }

  lemma UptoSnoc(log: seq<Stmt>, e: Stmt, w: nat)
    requires e.seqno > w
    ensures Upto(log + [e], w) == Upto(log, w) && Above(log + [e], w) == Above(log, w) + [e]
  {
    SnocInit(log, e);
  }

  lemma FoldSnoc(t: Table, log: seq<Stmt>, e: Stmt)
    ensures Fold(t, log + [e]) == Exec(Fold(t, log), e.op)
  {
    SnocInit(log, e);
  }

  lemma {:induction false} FoldConcat(t: Table, a: seq<Stmt>, b: seq<Stmt>)
    ensures Fold(t, a + b) == Fold(Fold(t, a), b)
    decreases |b|
  {
    if |b| == 0 {
      assert a + b == a;
    } else {
      var init, last := b[..|b| - 1], b[|b| - 1];
      assert a + b == (a + init) + [last];
      FoldConcat(t, a, init);
      FoldSnoc(t, a + init, last);
    }
  }

  lemma {:induction false} AllowedConcat(keyedTable: bool, t: Table, a: seq<Stmt>, b: seq<Stmt>)
    ensures AllAllowed(keyedTable, t, a + b)
       <==> AllAllowed(keyedTable, t, a) && AllAllowed(keyedTable, Fold(t, a), b)
    decreases |b|
  {
    if |b| == 0 {
      assert a + b == a;
    } else {
      var init, last := b[..|b| - 1], b[|b| - 1];
      assert a + b == (a + init) + [last];
      SnocInit(a + init, last);
      AllowedConcat(keyedTable, t, a, init);
      FoldConcat(t, a, init);
    }
  }

  lemma {:induction false} AboveAbove(log: seq<Stmt>, w: nat, w': nat)
    requires w <= w'
    ensures Above(Above(log, w), w') == Above(log, w')
  {
    if |log| > 0 && log[|log| - 1].seqno > w {
      SnocInit(Above(log[..|log| - 1], w), log[|log| - 1]);
      AboveAbove(log[..|log| - 1], w, w');
    }
  }

  lemma {:induction false} UptoUpto(log: seq<Stmt>, w: nat, w': nat)
    requires w <= w'
    ensures Upto(Upto(log, w'), w) == Upto(log, w)
  {
    if |log| > 0 && log[|log| - 1].seqno > w' {
      UptoUpto(log[..|log| - 1], w, w');
    }
  }

  lemma {:induction false} UptoAll(log: seq<Stmt>, w: nat)
    requires forall e :: e in log ==> e.seqno <= w
    ensures Upto(log, w) == log && Above(log, w) == []
  {
    if |log| > 0 {
      assert log[|log| - 1] in log;
    }
  }

  lemma {:induction false} AboveAll(log: seq<Stmt>, w: nat)
    requires forall e :: e in log ==> e.seqno > w
    ensures Above(log, w) == log && Upto(log, w) == []
  {
    if |log| > 0 {
      assert log[|log| - 1] in log;
      assert log == log[..|log| - 1] + [log[|log| - 1]];
      AboveAll(log[..|log| - 1], w);
    }
  }

  /** Filtering and cutting commute. */
  lemma {:induction false} AboveMinus(log: seq<Stmt>, gone: set<nat>, w: nat)
    requires Sorted(log)
    ensures Above(Minus(log, gone), w) == Minus(Above(log, w), gone)
  {
    if |log| > 0 {
      var init, last := log[..|log| - 1], log[|log| - 1];
      AboveMinus(init, gone, w);
      MinusSorted(init, gone);
      if last.seqno <= w {
        forall e | e in Minus(log, gone) ensures e.seqno <= w {
          MinusIn(log, gone, e);
        }
        UptoAll(Minus(log, gone), w);
      } else {
        MinusSnoc(Above(init, w), last, gone);
        if last.seqno !in gone {
          SnocInit(Minus(init, gone), last);
        }
      }
    }
  }

  lemma {:induction false} UptoMinus(log: seq<Stmt>, gone: set<nat>, w: nat)
    requires Sorted(log)
    ensures Upto(Minus(log, gone), w) == Minus(Upto(log, w), gone)
  {
    if |log| > 0 {
      var init, last := log[..|log| - 1], log[|log| - 1];
      UptoMinus(init, gone, w);
      if last.seqno <= w {
        forall e | e in Minus(log, gone) ensures e.seqno <= w {
          MinusIn(log, gone, e);
        }
        UptoAll(Minus(log, gone), w);
      } else if last.seqno !in gone {
        SnocInit(Minus(init, gone), last);
      }
    }
  }

  /** Cutting below a removed statement is cutting the untouched log. */
  lemma UptoBelow(log: seq<Stmt>, sq: nat, w: nat)
    requires Sorted(log) && w < sq
    ensures Upto(Minus(log, {sq}), w) == Upto(log, w)
  {
    UptoMinus(log, {sq}, w);
    forall e | e in Upto(log, w) ensures e.seqno != sq { UptoIn(log, w, e); }
    MinusAbsent(Upto(log, w), {sq});
  }

  // ---- taking statements out -------------------------------------------------------------

  /** Removing statements leaves every key they do not name alone. */
  lemma {:induction false} FoldMinusFrame(t: Table, log: seq<Stmt>, gone: set<nat>, r: Row)
    requires forall e :: e in log && e.seqno in gone ==> r.key !in OpKeys(e.op)
    ensures Fold(t, Minus(log, gone))[r] == Fold(t, log)[r]
  {
    if |log| > 0 {
      var init, last := log[..|log| - 1], log[|log| - 1];
      FoldMinusFrame(t, init, gone, r);
      if last.seqno in gone {
        assert last in log;
        ExecFrame(Fold(t, init), last.op, r);
      } else {
        FoldSnoc(t, Minus(init, gone), last);
        ExecLocal(Fold(t, Minus(init, gone)), Fold(t, init), last.op, r);
      }
    }
  }

  /** A table without keyed operations could have had any part of its log. */
  lemma {:induction false} AllowedPlain(t: Table, log: seq<Stmt>, gone: set<nat>)
    requires AllAllowed(false, t, log)
    ensures AllAllowed(false, t, Minus(log, gone))
  {
    if |log| > 0 {
      AllowedPlain(t, log[..|log| - 1], gone);
      SnocInit(Minus(log[..|log| - 1], gone), log[|log| - 1]);
    }
  }

  /** ... and its log holds INSERTs alone, each with a row. */
  lemma {:induction false} NoKeyed(t: Table, log: seq<Stmt>, e: Stmt)
    requires AllAllowed(false, t, log) && e in log
    ensures e.op.Insert? && |Flatten(e.op.batches)| > 0
  {
    var init, last := log[..|log| - 1], log[|log| - 1];
    assert log == init + [last];
    if e != last { NoKeyed(t, init, e); }
  }

  /** Key by key, the table at hand is one of two on which the statement was allowed. */
  lemma AllowedEither(t: Table, t': Table, u: Table, op: Op)
    requires Allowed(true, t, op) && Allowed(true, t', op)
    requires op.Insert? ==> forall k :: k in OpKeys(op) ==>
               (forall r: Row :: r.key == k ==> u[r] == t[r]) || (forall r: Row :: r.key == k ==> u[r] == t'[r])
    ensures Allowed(true, u, op)
  {
    if op.Insert? {
      forall r | r in Flatten(op.batches) ensures !HasKey(u, r.key) {
        assert r.key in OpKeys(op) && !HasKey(t, r.key) && !HasKey(t', r.key);
        forall v ensures Row(r.key, v) !in u {
          assert Row(r.key, v) !in t && Row(r.key, v) !in t';
        }
      }
    }
  }

  /** No surviving INSERT names a key of an earlier statement that is gone. */
  ghost predicate Unorphaned(log: seq<Stmt>, gone: set<nat>) {
    forall e, f :: e in log && f in log && e.seqno in gone && f.seqno !in gone && e.seqno < f.seqno && f.op.Insert?
      ==> OpKeys(e.op) !! OpKeys(f.op)
  }

  /** A log whose surviving INSERTs rely on nothing that is gone stays one a keyed table could have
      had. */
  lemma {:induction false} AllowedMinus(t: Table, log: seq<Stmt>, gone: set<nat>)
    requires Sorted(log) && Unorphaned(log, gone) && AllAllowed(true, t, log)
    ensures AllAllowed(true, t, Minus(log, gone))
  {
    if |log| > 0 {
      var init, last := log[..|log| - 1], log[|log| - 1];
      assert last in log && (forall e :: e in init ==> e in log);
      AllowedMinus(t, init, gone);
      if last.seqno !in gone {
        SnocInit(Minus(init, gone), last);
        LastAllowed(t, init, last, gone);
      }
    }
  }

  lemma LastAllowed(t: Table, init: seq<Stmt>, last: Stmt, gone: set<nat>)
    requires Allowed(true, Fold(t, init), last.op)
    requires last.op.Insert? ==> forall e :: e in init && e.seqno in gone ==> OpKeys(e.op) !! OpKeys(last.op)
    ensures Allowed(true, Fold(t, Minus(init, gone)), last.op)
  {
    if last.op.Insert? {
      forall r: Row | r.key in OpKeys(last.op) ensures Fold(t, Minus(init, gone))[r] == Fold(t, init)[r] {
        FoldMinusFrame(t, init, gone, r);
      }
    }
    AllowedEither(Fold(t, init), Fold(t, init), Fold(t, Minus(init, gone)), last.op);
  }

  ghost predicate NamesOnly(log: seq<Stmt>, sq: nat, keys: set<Key>) {
    forall e :: e in log && e.seqno == sq ==> OpKeys(e.op) <= keys
  }

  /** Allowed without `gone`, statement by statement. */
  lemma AllowedPeel(t: Table, init: seq<Stmt>, last: Stmt, gone: set<nat>)
    ensures AllAllowed(true, t, Minus(init + [last], gone)) <==>
      && AllAllowed(true, t, Minus(init, gone))
      && (last.seqno !in gone ==> Allowed(true, Fold(t, Minus(init, gone)), last.op))
  {
    MinusSnoc(init, last, gone);
    SnocInit(Minus(init, gone), last);
  }

  /** Two statements with no key in common that could each be taken out can be taken out together. */
  lemma {:induction false} AllowedTwice(t: Table, log: seq<Stmt>, q: nat, keys: set<Key>, p: nat, others: set<Key>)
    requires AllAllowed(true, t, Minus(log, {q})) && AllAllowed(true, t, Minus(log, {p}))
    requires NamesOnly(log, q, keys) && NamesOnly(log, p, others) && keys !! others
    ensures AllAllowed(true, t, Minus(Minus(log, {q}), {p}))
  {
    if |log| > 0 {
      var init, last := log[..|log| - 1], log[|log| - 1];
      assert log == init + [last];
      AllowedPeel(t, init, last, {q});
      AllowedPeel(t, init, last, {p});
      NamesInit(init, last, q, keys);
      NamesInit(init, last, p, others);
      AllowedTwice(t, init, q, keys, p, others);
      AllowedTwiceLast(t, init, last, q, keys, p, others);
    }
  }

  lemma NamesInit(init: seq<Stmt>, last: Stmt, sq: nat, keys: set<Key>)
    requires NamesOnly(init + [last], sq, keys)
    ensures NamesOnly(init, sq, keys)
  {
    forall e | e in init && e.seqno == sq ensures OpKeys(e.op) <= keys { assert e in init + [last]; }
  }

  lemma AllowedTwiceLast(t: Table, init: seq<Stmt>, last: Stmt, q: nat, keys: set<Key>, p: nat, others: set<Key>)
    requires AllAllowed(true, t, Minus(Minus(init, {q}), {p}))
    requires last.seqno != q ==> Allowed(true, Fold(t, Minus(init, {q})), last.op)
    requires last.seqno != p ==> Allowed(true, Fold(t, Minus(init, {p})), last.op)
    requires NamesOnly(init, q, keys) && NamesOnly(init, p, others) && keys !! others
    ensures AllAllowed(true, t, Minus(Minus(init + [last], {q}), {p}))
  {
    if last.seqno != q && last.seqno != p {
      LastAllowedTwice(t, init, last.op, q, keys, p, others);
      MinusSnoc(init, last, {q});
      AllowedPeel(t, Minus(init, {q}), last, {p});
    } else {
      OneLess(init, last, q, p);
    }
  }

  lemma OneLess(init: seq<Stmt>, last: Stmt, q: nat, p: nat)
    requires last.seqno == q || last.seqno == p
    ensures Minus(Minus(init + [last], {q}), {p}) == Minus(Minus(init, {q}), {p})
  {
    MinusSnoc(init, last, {q});
    MinusSnoc(Minus(init, {q}), last, {p});
  }

  lemma LastAllowedTwice(t: Table, init: seq<Stmt>, op: Op, q: nat, keys: set<Key>, p: nat, others: set<Key>)
    requires Allowed(true, Fold(t, Minus(init, {q})), op) && Allowed(true, Fold(t, Minus(init, {p})), op)
    requires NamesOnly(init, q, keys) && NamesOnly(init, p, others) && keys !! others
    ensures Allowed(true, Fold(t, Minus(Minus(init, {q}), {p})), op)
  {
    var both := Minus(Minus(init, {q}), {p});
    MinusTwice(init, {q}, {p});
    MinusTwice(init, {p}, {q});
    assert {q} + {p} == {p} + {q};
    forall r: Row
      ensures r.key !in others ==> Fold(t, both)[r] == Fold(t, Minus(init, {q}))[r]
      ensures r.key !in keys ==> Fold(t, both)[r] == Fold(t, Minus(init, {p}))[r]
    {
      if r.key !in others { MinusFrameAt(t, init, {q}, p, others, r); }
      if r.key !in keys { MinusFrameAt(t, init, {p}, q, keys, r); }
    }
    AllowedEither(Fold(t, Minus(init, {q})), Fold(t, Minus(init, {p})), Fold(t, both), op);
  }

  lemma MinusFrameAt(t: Table, log: seq<Stmt>, gone: set<nat>, q: nat, keys: set<Key>, r: Row)
    requires NamesOnly(log, q, keys) && r.key !in keys
    ensures Fold(t, Minus(Minus(log, gone), {q}))[r] == Fold(t, Minus(log, gone))[r]
  {
    forall e | e in Minus(log, gone) && e.seqno in {q} ensures r.key !in OpKeys(e.op) { MinusIn(log, gone, e); }
    FoldMinusFrame(t, Minus(log, gone), {q}, r);
  }

  /** Without keyed operations a statement's rows are simply no longer counted. */
  lemma {:induction false} PlainMinusAt(t: Table, log: seq<Stmt>, e: Stmt, r: Row)
    requires AllAllowed(false, t, log) && Sorted(log) && e in log && e.op.Insert?
    ensures Fold(t, Minus(log, {e.seqno}))[r] + multiset(Flatten(e.op.batches))[r] == Fold(t, log)[r]
  {
    var init, last := log[..|log| - 1], log[|log| - 1];
    assert log == init + [last];
    if last == e {
      forall x | x in init ensures x.seqno < e.seqno { InitBelow(log, x); }
      MinusAbsent(init, {e.seqno});
    } else {
      InitBelow(log, e);
      PlainMinusAt(t, init, e, r);
      FoldSnoc(t, Minus(init, {e.seqno}), last);
    }
  }

  lemma InitBelow(log: seq<Stmt>, x: Stmt)
    requires Sorted(log) && |log| > 0 && x in log[..|log| - 1]
    ensures x.seqno < log[|log| - 1].seqno
  {
    var i :| 0 <= i < |log| - 1 && log[..|log| - 1][i] == x;
    assert log[i] == x;
  }

  // ---- keys stay unique on a keyed table ---------------------------------------------------

  lemma ExecUnique(t: Table, op: Op)
    requires UniqueKeys(t) && Allowed(true, t, op)
    ensures UniqueKeys(Exec(t, op))
  {
    var u := Exec(t, op);
    match op
    case Insert(batches) =>
      var rows := Flatten(batches);
      DistinctUnique(rows);
      forall r, r' | r in u && r' in u && r.key == r'.key ensures r == r' && u[r] == 1 {
        assert r in multiset(rows) <==> r in rows;
        assert r' in multiset(rows) <==> r' in rows;
        if r in rows || r' in rows {
          assert !HasKey(t, r.key);
          assert r == Row(r.key, r.val) && r' == Row(r'.key, r'.val);
          assert t[r] == 0 && t[r'] == 0;
        }
      }
    case Put(_, _) =>
    case Del(_) =>
  }

  lemma {:induction false} FoldUnique(t: Table, log: seq<Stmt>)
    requires UniqueKeys(t) && AllAllowed(true, t, log)
    ensures UniqueKeys(Fold(t, log))
  {
    if |log| > 0 {
      FoldUnique(t, log[..|log| - 1]);
      ExecUnique(Fold(t, log[..|log| - 1]), log[|log| - 1].op);
    }
  }
}
