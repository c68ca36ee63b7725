/** The external reader: committed rows and a tail snapshot, merged by the exactly-once rule. It
    sees what the server's own union read sees. */
module TailReader {
  import opened Rows
  import opened Window
  import opened Layers
  import opened Log
  import opened Engine
  import opened Invariants
  import opened TailApi
  import opened Sequencing
  import opened Refinement

  datatype WireOp = AppendOp | UpsertOp | DeleteOp

  /** One row of the tail snapshot on the wire. A delete carries its key only. */
  datatype Wire = Wire(seqno: nat, op: WireOp, key: Key, val: int)

  function RowsOfItem(it: Item): seq<Wire> {
    match it.op
    case TailAppend(rows) => seq(|rows|, i requires 0 <= i < |rows| => Wire(it.seqno, AppendOp, rows[i].key, rows[i].val))
    case TailUpsert(key, val) => [Wire(it.seqno, UpsertOp, key, val)]
    case TailDelete(key) => [Wire(it.seqno, DeleteOp, key, 0)]
  }

  function WireRows(items: seq<Item>): seq<Wire> {
    if |items| == 0 then [] else WireRows(items[..|items| - 1]) + RowsOfItem(items[|items| - 1])
  }

  // ---- the merge rule -----------------------------------------------------------------------------

  predicate Counts(x: Wire, w: int, key: Key) {
    x.seqno > w && x.key == key
  }

  /** The newest row of a key above the watermark; of equals the first. */
  function Newest(rows: seq<Wire>, w: int, key: Key): Option<Wire> {
    if |rows| == 0 then None
    else
      var p, x := Newest(rows[..|rows| - 1], w, key), rows[|rows| - 1];
      if Counts(x, w, key) && (p.None? || p.value.seqno < x.seqno) then Some(x) else p
  }

  predicate KeyedNewer(rows: seq<Wire>, w: int, key: Key) {
    exists i :: 0 <= i < |rows| && Counts(rows[i], w, key) && rows[i].op != AppendOp
  }

  /** What the merged view holds for a key. */
  function MergedValue(committed: map<Key, int>, rows: seq<Wire>, w: int, key: Key): Option<int> {
    match Newest(rows, w, key)
    case Some(x) => if x.op == DeleteOp then None else Some(x.val)
    case None => if key in committed then Some(committed[key]) else None
  }

  lemma {:induction false} NewestHas(rows: seq<Wire>, w: int, key: Key)
    ensures Newest(rows, w, key).Some? ==> Counts(Newest(rows, w, key).value, w, key)
    ensures (exists i :: 0 <= i < |rows| && Counts(rows[i], w, key)) ==> Newest(rows, w, key).Some?
  {
    if |rows| > 0 {
      NewestHas(rows[..|rows| - 1], w, key);
      if i :| 0 <= i < |rows| && Counts(rows[i], w, key) && i < |rows| - 1 {
        assert rows[..|rows| - 1][i] == rows[i];
      }
    }
  }

  /** A row above the watermark newer than every other row of its key is the newest. */
  lemma {:induction false} NewestIs(rows: seq<Wire>, w: int, x: Wire)
    requires x in rows && x.seqno > w
    requires forall y :: y in rows && Counts(y, w, x.key) && y != x ==> y.seqno < x.seqno
    ensures Newest(rows, w, x.key) == Some(x)
  {
    var init, last := rows[..|rows| - 1], rows[|rows| - 1];
    assert rows == init + [last];
    if x in init {
      NewestIs(init, w, x);
    } else {
      NewestBelow(init, w, x.key, x.seqno);
    }
  }

  lemma {:induction false} NewestBelow(rows: seq<Wire>, w: int, key: Key, bound: nat)
    requires forall y :: y in rows && Counts(y, w, key) ==> y.seqno < bound
    ensures Newest(rows, w, key).Some? ==> Newest(rows, w, key).value.seqno < bound
  {
    if |rows| > 0 {
      assert rows == rows[..|rows| - 1] + [rows[|rows| - 1]];
      NewestBelow(rows[..|rows| - 1], w, key, bound);
    }
  }

  lemma {:induction false} NewestNone(rows: seq<Wire>, w: int, key: Key)
    requires forall y :: y in rows ==> !Counts(y, w, key)
    ensures Newest(rows, w, key) == None
  {
    if |rows| > 0 {
      assert rows == rows[..|rows| - 1] + [rows[|rows| - 1]];
      NewestNone(rows[..|rows| - 1], w, key);
    }
  }

  /** The reader's loop over the tail rows of a keyed table. */
  method PickNewest(rows: seq<Wire>, w: int) returns (best: map<Key, Wire>, keyedNewer: set<Key>)
    ensures forall key :: (if key in best then Newest(rows, w, key) == Some(best[key]) else Newest(rows, w, key) == None)
    ensures forall key :: key in keyedNewer <==> KeyedNewer(rows, w, key)
  {
    best, keyedNewer := map[], {};
    var i := 0;
    while i < |rows|
      invariant 0 <= i <= |rows|
      invariant forall key :: (if key in best then Newest(rows[..i], w, key) == Some(best[key])
                               else Newest(rows[..i], w, key) == None)
      invariant forall key :: key in keyedNewer <==> KeyedNewer(rows[..i], w, key)
    {
      var x := rows[i];
      assert rows[..i + 1][..i] == rows[..i];
      KeyedNewerNext(rows[..i], x, w);
      assert rows[..i + 1] == rows[..i] + [x];
      if x.seqno > w {
        if x.op != AppendOp {
          keyedNewer := keyedNewer + {x.key};
        }
        if x.key !in best || best[x.key].seqno < x.seqno {
          best := best[x.key := x];
        }
      }
      i := i + 1;
    }
    assert rows[..|rows|] == rows;
  }

  lemma KeyedNewerNext(rows: seq<Wire>, x: Wire, w: int)
    ensures forall key :: KeyedNewer(rows + [x], w, key) <==> KeyedNewer(rows, w, key) || (Counts(x, w, key) && x.op != AppendOp)
  {
    forall key: Key
      ensures KeyedNewer(rows + [x], w, key) <==> KeyedNewer(rows, w, key) || (Counts(x, w, key) && x.op != AppendOp)
    {
      if KeyedNewer(rows, w, key) {
        var i :| 0 <= i < |rows| && Counts(rows[i], w, key) && rows[i].op != AppendOp;
        assert (rows + [x])[i] == rows[i];
      }
      if Counts(x, w, key) && x.op != AppendOp {
        assert (rows + [x])[|rows|] == x;
      }
    }
  }

  /** Suppress committed rows a newer keyed row names, then lay the newest rows over the rest. */
  method Merge(committed: map<Key, int>, rows: seq<Wire>, w: int) returns (merged: map<Key, int>)
    ensures forall key :: (if key in merged then MergedValue(committed, rows, w, key) == Some(merged[key])
                           else MergedValue(committed, rows, w, key) == None)
  {
    var best, keyedNewer := PickNewest(rows, w);
    merged := map k | k in committed && k !in keyedNewer :: committed[k];
    var left := best.Keys;
    while left != {}
      invariant left <= best.Keys
      invariant forall key :: key !in left && key in best ==>
        if best[key].op == DeleteOp then key !in merged else key in merged && merged[key] == best[key].val
      invariant forall key :: key !in best ==>
        (key in merged <==> key in committed && key !in keyedNewer) && (key in merged ==> merged[key] == committed[key])
      decreases left
    {
      var key :| key in left;
      if best[key].op == DeleteOp {
        merged := merged - {key};
      } else {
        merged := merged[key := best[key].val];
      }
      left := left - {key};
    }
    forall key ensures key in keyedNewer ==> key in best {
      NewestHas(rows, w, key);
    }
  }

  // ---- which rows a layer puts on the wire --------------------------------------------------------------

  function WireOf(key: Key, e: Entry): Wire
    requires e.seqno.Some?
  {
    if e.kind.Upsert? then Wire(e.seqno.value, UpsertOp, key, e.kind.val) else Wire(e.seqno.value, DeleteOp, key, 0)
  }

  /** The row comes from one of the layer's appends, or from its entry of the key. */
  ghost predicate InLayer(batches: seq<GenBatch>, ops: map<Key, Entry>, x: Wire) {
    || (x.op == AppendOp && exists i :: 0 <= i < |batches| && batches[i].seqno == Some(x.seqno)
                                        && Row(x.key, x.val) in batches[i].rows)
    || (x.key in ops && ops[x.key].seqno.Some? && x == WireOf(x.key, ops[x.key]))
  }

  ghost predicate InGens(flushed: seq<Gen>, x: Wire) {
    exists i :: 0 <= i < |flushed| && InLayer(flushed[i].batches, flushed[i].keyed, x)
  }

  ghost predicate InWindow(b: Buf, x: Wire) {
    InGens(b.flushed, x) || InLayer(ToGen(b.pending), Entries(b), x)
  }

  lemma {:induction false} WireRowsHas(items: seq<Item>, x: Wire)
    ensures x in WireRows(items) <==> exists it :: it in items && x in RowsOfItem(it)
  {
    if |items| > 0 {
      var init, last := items[..|items| - 1], items[|items| - 1];
      WireRowsHas(init, x);
      assert items == init + [last];
      if x in RowsOfItem(last) { assert last in items; }
    }
  }

  /** An item puts `x` on the wire. */
  ghost predicate Carries(bag: multiset<Item>, x: Wire) {
    exists it :: it in bag && x in RowsOfItem(it)
  }

  lemma CarriesSum(a: multiset<Item>, b: multiset<Item>, x: Wire)
    ensures Carries(a + b, x) <==> Carries(a, x) || Carries(b, x)
  {
    if Carries(a, x) { var it :| it in a && x in RowsOfItem(it); assert it in a + b; }
    if Carries(b, x) { var it :| it in b && x in RowsOfItem(it); assert it in a + b; }
  }

  ghost predicate InAppends(batches: seq<GenBatch>, x: Wire) {
    x.op == AppendOp && exists i :: 0 <= i < |batches| && batches[i].seqno == Some(x.seqno) && Row(x.key, x.val) in batches[i].rows
  }

  lemma AppendItemCarries(sq: nat, rows: seq<Row>, x: Wire)
    ensures Carries(multiset{AppendItem(sq, rows)}, x) <==> x.op == AppendOp && x.seqno == sq && Row(x.key, x.val) in rows
  {
    var it := AppendItem(sq, rows);
    assert it in multiset{it};
    if x.op == AppendOp && x.seqno == sq && Row(x.key, x.val) in rows {
      var i :| 0 <= i < |rows| && rows[i] == Row(x.key, x.val);
      assert RowsOfItem(it)[i] == x;
    }
  }

  lemma {:induction false} AppendBagCarries(batches: seq<GenBatch>, x: Wire)
    ensures Carries(AppendBag(batches), x) <==> InAppends(batches, x)
  {
    if |batches| > 0 {
      var init, last := batches[..|batches| - 1], batches[|batches| - 1];
      AppendBagCarries(init, x);
      if last.seqno.Some? {
        AppendItemCarries(last.seqno.value, last.rows, x);
        CarriesSum(AppendBag(init), multiset{AppendItem(last.seqno.value, last.rows)}, x);
      }
      InAppendsSnoc(init, last, x);
      assert batches == init + [last];
    }
  }

  lemma InAppendsSnoc(init: seq<GenBatch>, last: GenBatch, x: Wire)
    ensures InAppends(init + [last], x) <==>
            InAppends(init, x) || (x.op == AppendOp && last.seqno == Some(x.seqno) && Row(x.key, x.val) in last.rows)
  {
    var all := init + [last];
    if InAppends(init, x) {
      var i :| 0 <= i < |init| && init[i].seqno == Some(x.seqno) && Row(x.key, x.val) in init[i].rows;
      assert all[i] == init[i];
    }
    if x.op == AppendOp && last.seqno == Some(x.seqno) && Row(x.key, x.val) in last.rows {
      assert all[|init|] == last;
    }
  }

  lemma KeyedBagCarries(ops: map<Key, Entry>, x: Wire)
    ensures Carries(KeyedBag(ops, ops.Keys), x) <==> x.key in ops && ops[x.key].seqno.Some? && x == WireOf(x.key, ops[x.key])
  {
    if x.key in ops && ops[x.key].seqno.Some? && x == WireOf(x.key, ops[x.key]) {
      assert KeyedItem(x.key, ops[x.key]) in KeyedBag(ops, ops.Keys);
      assert x == RowsOfItem(KeyedItem(x.key, ops[x.key]))[0];
    }
  }

  lemma LayerCarries(batches: seq<GenBatch>, ops: map<Key, Entry>, x: Wire)
    ensures Carries(AppendBag(batches) + KeyedBag(ops, ops.Keys), x) <==> InLayer(batches, ops, x)
  {
    AppendBagCarries(batches, x);
    KeyedBagCarries(ops, x);
    CarriesSum(AppendBag(batches), KeyedBag(ops, ops.Keys), x);
  }

  lemma {:induction false} FlushedCarries(flushed: seq<Gen>, x: Wire)
    ensures Carries(FlushedBag(flushed), x) <==> InGens(flushed, x)
  {
    if |flushed| > 0 {
      var init, last := flushed[..|flushed| - 1], flushed[|flushed| - 1];
      FlushedCarries(init, x);
      GenCarries(last, x);
      CarriesSum(FlushedBag(init), GenBag(last), x);
      assert flushed == init + [last];
      InGensSnoc(init, last, x);
    }
  }

  lemma GenCarries(g: Gen, x: Wire)
    ensures Carries(GenBag(g), x) <==> InLayer(g.batches, g.keyed, x)
  {
    LayerCarries(g.batches, g.keyed, x);
  }

  lemma InGensSnoc(init: seq<Gen>, last: Gen, x: Wire)
    ensures InGens(init + [last], x) <==> InGens(init, x) || InLayer(last.batches, last.keyed, x)
  {
    var all := init + [last];
    if InGens(init, x) {
      var i :| 0 <= i < |init| && InLayer(init[i].batches, init[i].keyed, x);
      assert all[i] == init[i];
    }
    if InLayer(last.batches, last.keyed, x) {
      assert all[|init|] == last;
    }
  }

  /** The served rows are exactly the window's. */
  lemma ServedRows(b: Buf, items: seq<Item>, high: nat, x: Wire)
    requires ServesWindow(b, items, high) && b.undurable == {}
    ensures x in WireRows(items) <==> InWindow(b, x)
  {
    WireRowsHas(items, x);
    assert multiset(items) == WindowBag(b);
    assert (exists it :: it in items && x in RowsOfItem(it)) <==> Carries(multiset(items), x) by {
      if it :| it in items && x in RowsOfItem(it) { assert it in multiset(items); }
    }
    FlushedCarries(b.flushed, x);
    LayerCarries(ToGen(b.pending), Entries(b), x);
    CarriesSum(FlushedBag(b.flushed), AppendBag(ToGen(b.pending)) + KeyedBag(Entries(b), Entries(b).Keys), x);
    assert WindowBag(b) == FlushedBag(b.flushed) + (AppendBag(ToGen(b.pending)) + KeyedBag(Entries(b), Entries(b).Keys));
  }

  // ---- the newest operation of a key decides it -----------------------------------------------------------

  predicate Says(x: Wire, r: Row) {
    x.op != DeleteOp && x.val == r.val
  }

  /** `x` is the newest of the operations on its key. */
  ghost predicate Tops(has: Wire -> bool, x: Wire) {
    has(x) && forall y :: has(y) && y.key == x.key && y != x ==> y.seqno < x.seqno
  }

  /** From table `c` to table `t`, what happened to key `k` is its newest operation, if any. */
  ghost predicate Decides(c: Table, t: Table, has: Wire -> bool, k: Key) {
    || ((forall x :: has(x) ==> x.key != k) && forall r: Row :: r.key == k ==> t[r] == c[r])
    || (exists x :: Tops(has, x) && x.key == k && forall r: Row :: r.key == k ==> t[r] == if Says(x, r) then 1 else 0)
  }

  lemma DecidesThen(c: Table, t: Table, u: Table, first: Wire -> bool, second: Wire -> bool, both: Wire -> bool, k: Key)
    requires Decides(c, t, first, k) && Decides(t, u, second, k)
    requires forall x :: both(x) <==> first(x) || second(x)
    requires forall x, y :: first(x) && second(y) ==> x.seqno < y.seqno
    ensures Decides(c, u, both, k)
  {
    if forall x :: second(x) ==> x.key != k {
      if x :| Tops(first, x) && x.key == k && forall r: Row :: r.key == k ==> t[r] == if Says(x, r) then 1 else 0 {
        assert Tops(both, x);
      }
    } else {
      var x :| Tops(second, x) && x.key == k && forall r: Row :: r.key == k ==> u[r] == if Says(x, r) then 1 else 0;
      assert Tops(both, x);
    }
  }

  lemma {:induction false} BagHas(batches: seq<GenBatch>, i: nat, r: Row)
    requires i < |batches| && r in batches[i].rows
    ensures Bag(GenRows(batches))[r] >= 1
  {
    var init, last := batches[..|batches| - 1], batches[|batches| - 1];
    GenRowsSnoc(init, last);
    assert batches == init + [last];
    if i < |init| {
      BagHas(init, i, r);
    } else {
      assert r in multiset(last.rows);
    }
  }

  lemma {:induction false} BagHasTwice(batches: seq<GenBatch>, i: nat, j: nat, r: Row)
    requires i < j < |batches| && r in batches[i].rows && r in batches[j].rows
    ensures Bag(GenRows(batches))[r] >= 2
  {
    var init, last := batches[..|batches| - 1], batches[|batches| - 1];
    GenRowsSnoc(init, last);
    assert batches == init + [last];
    if j < |init| {
      BagHasTwice(init, i, j, r);
    } else {
      BagHas(init, i, r);
      assert r in multiset(last.rows);
    }
  }

  lemma {:induction false} BagHasNot(batches: seq<GenBatch>, r: Row)
    requires forall i :: 0 <= i < |batches| ==> r !in batches[i].rows
    ensures Bag(GenRows(batches))[r] == 0
  {
    if |batches| > 0 {
      var init, last := batches[..|batches| - 1], batches[|batches| - 1];
      GenRowsSnoc(init, last);
      assert batches == init + [last];
      BagHasNot(init, r);
      assert r !in last.rows;
      assert multiset(last.rows)[r] == 0;
    }
  }

  lemma GenRowsSnoc(init: seq<GenBatch>, last: GenBatch)
    ensures Bag(GenRows(init + [last])) == Bag(GenRows(init)) + multiset(last.rows)
  {
    assert GenRows(init + [last]) == GenRows(init) + [last.rows];
    FlattenSnoc(GenRows(init), last.rows);
  }

  ghost function LayerHas(batches: seq<GenBatch>, ops: map<Key, Entry>): Wire -> bool {
    x => InLayer(batches, ops, x)
  }

  lemma LayerKeyed(c: Table, batches: seq<GenBatch>, ops: map<Key, Entry>, lo: nat, hi: nat, k: Key)
    requires LayerSeq(batches, ops, lo, hi) && k in ops
    ensures Decides(c, Apply(c, Layer(GenRows(batches), ops)), LayerHas(batches, ops), k)
  {
    var x := WireOf(k, ops[k]);
    assert Tops(LayerHas(batches, ops), x);
  }

  lemma LayerAppended(c: Table, batches: seq<GenBatch>, ops: map<Key, Entry>, lo: nat, hi: nat, x: Wire)
    requires LayerSeq(batches, ops, lo, hi) && x.key !in ops && InAppends(batches, x)
    requires UniqueKeys(Apply(c, Layer(GenRows(batches), ops)))
    ensures Decides(c, Apply(c, Layer(GenRows(batches), ops)), LayerHas(batches, ops), x.key)
  {
    var t := Apply(c, Layer(GenRows(batches), ops));
    var row := Row(x.key, x.val);
    var i :| 0 <= i < |batches| && batches[i].seqno == Some(x.seqno) && row in batches[i].rows;
    BagHas(batches, i, row);
    assert row in t && t[row] == 1;
    forall r: Row | r.key == x.key ensures t[r] == if Says(x, r) then 1 else 0 {
      if r in t { assert r == row; }
    }
    forall y | InLayer(batches, ops, y) && y.key == x.key ensures y == x {
      var j :| 0 <= j < |batches| && batches[j].seqno == Some(y.seqno) && Row(y.key, y.val) in batches[j].rows;
      BagHas(batches, j, Row(y.key, y.val));
      assert Row(y.key, y.val) in t;
      if i != j {
        BagHasTwice(batches, if i < j then i else j, if i < j then j else i, row);
      }
    }
    assert Tops(LayerHas(batches, ops), x);
  }

  lemma NotAppended(batches: seq<GenBatch>, r: Row)
    requires BatchesSequenced(batches) && forall x :: InAppends(batches, x) ==> x.key != r.key
    ensures forall i :: 0 <= i < |batches| ==> r !in batches[i].rows
  {
    forall i | 0 <= i < |batches| ensures r !in batches[i].rows {
      var x := Wire(batches[i].seqno.value, AppendOp, r.key, r.val);
      assert r in batches[i].rows ==> InAppends(batches, x);
    }
  }

  lemma LayerSilent(c: Table, batches: seq<GenBatch>, ops: map<Key, Entry>, k: Key)
    requires k !in ops && BatchesSequenced(batches) && forall x :: InAppends(batches, x) ==> x.key != k
    ensures Decides(c, Apply(c, Layer(GenRows(batches), ops)), LayerHas(batches, ops), k)
  {
    var t := Apply(c, Layer(GenRows(batches), ops));
    forall r: Row | r.key == k ensures t[r] == c[r] {
      NotAppended(batches, r);
      BagHasNot(batches, r);
    }
  }

  /** One layer: its entry of the key, else its one append of it, else nothing. */
  lemma LayerDecides(c: Table, batches: seq<GenBatch>, ops: map<Key, Entry>, lo: nat, hi: nat, k: Key)
    requires LayerSeq(batches, ops, lo, hi) && UniqueKeys(Apply(c, Layer(GenRows(batches), ops)))
    ensures Decides(c, Apply(c, Layer(GenRows(batches), ops)), LayerHas(batches, ops), k)
  {
    if k in ops {
      LayerKeyed(c, batches, ops, lo, hi, k);
    } else if x :| InAppends(batches, x) && x.key == k {
      LayerAppended(c, batches, ops, lo, hi, x);
    } else {
      LayerSilent(c, batches, ops, k);
    }
  }

  // ---- through the generations to the live window ---------------------------------------------------------------

  lemma UniqueAt(s: State, w: nat)
    requires LogOk(s.keyedTable, s.base, s.log, s.tail.nextSeq) && s.keyedTable && UniqueKeys(s.base)
    ensures UniqueKeys(At(s.base, s.log, w)) && UniqueKeys(Logical(s))
  {
    UptoAbove(s.log, w);
    AllowedConcat(true, s.base, Upto(s.log, w), Above(s.log, w));
    FoldUnique(s.base, Upto(s.log, w));
    FoldUnique(s.base, s.log);
  }

  ghost function GensHave(flushed: seq<Gen>): Wire -> bool {
    x => InGens(flushed, x)
  }

  lemma GensWithin(spans: seq<Span>, flushed: seq<Gen>, j: nat, n: nat, x: Wire)
    requires GensSeq(spans, flushed) && j <= n <= |flushed| && InGens(flushed[j..n], x)
    ensures exists i :: j <= i < n && spans[i].lo < x.seqno <= spans[i].hi
  {
    var i :| 0 <= i < |flushed[j..n]| && InLayer(flushed[j..n][i].batches, flushed[j..n][i].keyed, x);
    assert flushed[j..n][i] == flushed[j + i];
    assert LayerSeq(flushed[j + i].batches, flushed[j + i].keyed, spans[j + i].lo, spans[j + i].hi);
    LayerWithin(flushed[j + i].batches, flushed[j + i].keyed, spans[j + i].lo, spans[j + i].hi, x);
  }

  lemma LayerWithin(batches: seq<GenBatch>, ops: map<Key, Entry>, lo: nat, hi: nat, x: Wire)
    requires LayerSeq(batches, ops, lo, hi) && InLayer(batches, ops, x)
    ensures lo < x.seqno <= hi
  {}

  lemma HiBelowLo(s: State, i: nat, n: nat)
    requires MarksOk(s.spans, s.liveLo, s.frozen, s.tail.nextSeq) && i < n <= |s.spans|
    ensures s.spans[i].hi <= Lo(s.spans, s.liveLo, n)
  {
    if n < |s.spans| {
      CatalogSteps.SpanOrder(s.spans, s.liveLo, s.frozen, s.tail.nextSeq, i, n);
    } else if i < n - 1 {
      CatalogSteps.SpanOrder(s.spans, s.liveLo, s.frozen, s.tail.nextSeq, i, n - 1);
      assert s.spans[n - 1].hi <= Lo(s.spans, s.liveLo, n);
    }
  }

  lemma GensBelow(s: State, j: nat, n: nat, x: Wire)
    requires GensSeq(s.spans, s.buf.flushed) && MarksOk(s.spans, s.liveLo, s.frozen, s.tail.nextSeq)
    requires j <= n <= |s.buf.flushed| && InGens(s.buf.flushed[j..n], x)
    ensures x.seqno <= Lo(s.spans, s.liveLo, n)
  {
    GensWithin(s.spans, s.buf.flushed, j, n, x);
    var i :| j <= i < n && s.spans[i].lo < x.seqno <= s.spans[i].hi;
    HiBelowLo(s, i, n);
  }

  lemma GenStep(s: State, n: nat, k: Key)
    requires ChainOk(s.spans, s.liveLo, s.buf.flushed, s.base, s.log) && GensSeq(s.spans, s.buf.flushed)
    requires n < |s.buf.flushed|
    requires UniqueKeys(At(s.base, s.log, Lo(s.spans, s.liveLo, n + 1)))
    ensures Decides(At(s.base, s.log, Lo(s.spans, s.liveLo, n)), At(s.base, s.log, Lo(s.spans, s.liveLo, n + 1)),
                    LayerHas(s.buf.flushed[n].batches, s.buf.flushed[n].keyed), k)
  {
    assert ChainAt(s.spans, s.liveLo, s.buf.flushed, s.base, s.log, n);
    var g := s.buf.flushed[n];
    assert LayerSeq(g.batches, g.keyed, s.spans[n].lo, s.spans[n].hi);
    LayerDecides(At(s.base, s.log, s.spans[n].lo), g.batches, g.keyed, s.spans[n].lo, s.spans[n].hi, k);
  }

  lemma GensHaveNext(flushed: seq<Gen>, j: nat, n: nat, x: Wire)
    requires j <= n < |flushed|
    ensures InGens(flushed[j..n + 1], x) <==> InGens(flushed[j..n], x) || InLayer(flushed[n].batches, flushed[n].keyed, x)
  {
    assert flushed[j..n + 1] == flushed[j..n] + [flushed[n]];
    InGensSnoc(flushed[j..n], flushed[n], x);
  }

  ghost predicate GensDecided(s: State, j: nat, n: nat, k: Key)
    requires j <= n <= |s.buf.flushed|
  {
    Decides(At(s.base, s.log, Lo(s.spans, s.liveLo, j)), At(s.base, s.log, Lo(s.spans, s.liveLo, n)),
            GensHave(s.buf.flushed[j..n]), k)
  }

  lemma {:induction false} GensDecide(s: State, j: nat, n: nat, k: Key)
    requires ChainOk(s.spans, s.liveLo, s.buf.flushed, s.base, s.log) && GensSeq(s.spans, s.buf.flushed)
    requires MarksOk(s.spans, s.liveLo, s.frozen, s.tail.nextSeq) && j <= n <= |s.buf.flushed|
    requires LogOk(s.keyedTable, s.base, s.log, s.tail.nextSeq) && s.keyedTable && UniqueKeys(s.base)
    requires GensDecided(s, j, n, k)
    ensures GensDecided(s, j, |s.buf.flushed|, k)
    decreases |s.buf.flushed| - n
  {
    if n < |s.buf.flushed| {
      GensNext(s, j, n, k);
      GensDecide(s, j, n + 1, k);
    }
  }

  lemma GensJoin(s: State, j: nat, n: nat, k: Key)
    requires GensSeq(s.spans, s.buf.flushed) && MarksOk(s.spans, s.liveLo, s.frozen, s.tail.nextSeq)
    requires j <= n < |s.buf.flushed| && GensDecided(s, j, n, k)
    requires Decides(At(s.base, s.log, Lo(s.spans, s.liveLo, n)), At(s.base, s.log, Lo(s.spans, s.liveLo, n + 1)),
                     LayerHas(s.buf.flushed[n].batches, s.buf.flushed[n].keyed), k)
    ensures GensDecided(s, j, n + 1, k)
  {
    var g := s.buf.flushed[n];
    forall x ensures GensHave(s.buf.flushed[j..n + 1])(x)
                     <==> GensHave(s.buf.flushed[j..n])(x) || LayerHas(g.batches, g.keyed)(x) {
      GensHaveNext(s.buf.flushed, j, n, x);
    }
    forall x, y | GensHave(s.buf.flushed[j..n])(x) && LayerHas(g.batches, g.keyed)(y) ensures x.seqno < y.seqno {
      GensBelow(s, j, n, x);
      LayerWithin(g.batches, g.keyed, s.spans[n].lo, s.spans[n].hi, y);
    }
    DecidesThen(At(s.base, s.log, Lo(s.spans, s.liveLo, j)), At(s.base, s.log, Lo(s.spans, s.liveLo, n)),
                At(s.base, s.log, Lo(s.spans, s.liveLo, n + 1)), GensHave(s.buf.flushed[j..n]),
                LayerHas(g.batches, g.keyed), GensHave(s.buf.flushed[j..n + 1]), k);
  }

  lemma NothingDecides(c: Table, flushed: seq<Gen>, j: nat, k: Key)
    requires j <= |flushed|
    ensures Decides(c, c, GensHave(flushed[j..j]), k)
  {
    assert flushed[j..j] == [];
  }

  lemma GensNext(s: State, j: nat, n: nat, k: Key)
    requires ChainOk(s.spans, s.liveLo, s.buf.flushed, s.base, s.log) && GensSeq(s.spans, s.buf.flushed)
    requires MarksOk(s.spans, s.liveLo, s.frozen, s.tail.nextSeq) && j <= n < |s.buf.flushed|
    requires LogOk(s.keyedTable, s.base, s.log, s.tail.nextSeq) && s.keyedTable && UniqueKeys(s.base)
    requires GensDecided(s, j, n, k)
    ensures GensDecided(s, j, n + 1, k)
  {
    UniqueAt(s, Lo(s.spans, s.liveLo, n + 1));
    GenStep(s, n, k);
    GensJoin(s, j, n, k);
  }

  ghost function WindowHas(b: Buf, j: nat): Wire -> bool
    requires j <= |b.flushed|
  {
    x => InGens(b.flushed[j..], x) || InLayer(ToGen(b.pending), Entries(b), x)
  }

  lemma LiveStep(s: State, k: Key)
    requires LiveOk(s.base, s.log, s.liveLo, s.buf) && LiveSeq(s.buf, s.liveLo) && UniqueKeys(Logical(s))
    ensures Decides(At(s.base, s.log, s.liveLo), Logical(s), LayerHas(ToGen(s.buf.pending), Entries(s.buf)), k)
  {
    assert GenRows(ToGen(s.buf.pending)) == RowsOf(s.buf.pending);
    LayerDecides(At(s.base, s.log, s.liveLo), ToGen(s.buf.pending), Entries(s.buf), s.liveLo, Top(s.buf, s.liveLo), k);
  }

  lemma WindowDecides(s: State, j: nat, k: Key)
    requires CatalogInv(s) && Sequenced(s) && j <= |s.buf.flushed| && LiveOk(s.base, s.log, s.liveLo, s.buf)
    requires LogOk(s.keyedTable, s.base, s.log, s.tail.nextSeq) && s.keyedTable && UniqueKeys(s.base)
    ensures Decides(At(s.base, s.log, Lo(s.spans, s.liveLo, j)), Logical(s), WindowHas(s.buf, j), k)
  {
    var n := |s.buf.flushed|;
    NothingDecides(At(s.base, s.log, Lo(s.spans, s.liveLo, j)), s.buf.flushed, j, k);
    GensDecide(s, j, j, k);
    UniqueAt(s, 0);
    LiveStep(s, k);
    assert s.buf.flushed[j..n] == s.buf.flushed[j..];
    forall x, y | GensHave(s.buf.flushed[j..n])(x) && LayerHas(ToGen(s.buf.pending), Entries(s.buf))(y)
      ensures x.seqno < y.seqno
    {
      GensBelow(s, j, n, x);
      LayerWithin(ToGen(s.buf.pending), Entries(s.buf), s.liveLo, Top(s.buf, s.liveLo), y);
    }
    DecidesThen(At(s.base, s.log, Lo(s.spans, s.liveLo, j)), At(s.base, s.log, s.liveLo), Logical(s),
                GensHave(s.buf.flushed[j..n]), LayerHas(ToGen(s.buf.pending), Entries(s.buf)), WindowHas(s.buf, j), k);
  }

  // ---- the watermark rule -------------------------------------------------------------------------------------------

  lemma LiveAbove(s: State, v: nat, x: Wire)
    requires LiveSeq(s.buf, s.liveLo) && v < |s.hist| && s.hist[v].wm <= s.liveLo
    requires InLayer(ToGen(s.buf.pending), Entries(s.buf), x)
    ensures x.seqno > s.hist[v].wm
  {
    LayerWithin(ToGen(s.buf.pending), Entries(s.buf), s.liveLo, Top(s.buf, s.liveLo), x);
  }

  lemma SuffixGens(flushed: seq<Gen>, j: nat, x: Wire)
    requires j <= |flushed| && InGens(flushed[j..], x)
    ensures InGens(flushed, x)
  {
    var i :| 0 <= i < |flushed[j..]| && InLayer(flushed[j..][i].batches, flushed[j..][i].keyed, x);
    assert flushed[j + i] == flushed[j..][i];
  }

  lemma WindowIsAbove(s: State, v: nat, j: nat, x: Wire)
    requires CatalogInv(s) && Sequenced(s) && v < |s.hist| && FirstUnseen(s.hist, s.buf.flushed, v, j)
    requires s.hist[v].wm <= s.liveLo && WindowHas(s.buf, j)(x)
    ensures InWindow(s.buf, x) && x.seqno > s.hist[v].wm
  {
    if InGens(s.buf.flushed[j..], x) {
      assert s.buf.flushed[j..|s.buf.flushed|] == s.buf.flushed[j..];
      UnseenAbove(s, v, j, x);
      SuffixGens(s.buf.flushed, j, x);
    } else {
      LiveAbove(s, v, x);
    }
  }

  /** The rows above the metadata's own watermark are exactly those of the layers it cannot see. */
  lemma WatermarkRule(s: State, v: nat, j: nat, x: Wire)
    requires CatalogInv(s) && Sequenced(s) && v < |s.hist| && FirstUnseen(s.hist, s.buf.flushed, v, j)
    requires s.hist[v].wm <= s.liveLo
    ensures InWindow(s.buf, x) && x.seqno > s.hist[v].wm <==> WindowHas(s.buf, j)(x)
  {
    if WindowHas(s.buf, j)(x) {
      WindowIsAbove(s, v, j, x);
    }
    if InGens(s.buf.flushed, x) && x.seqno > s.hist[v].wm {
      SeenBelow(s, v, j, x);
    }
  }

  lemma UnseenAbove(s: State, v: nat, j: nat, x: Wire)
    requires CatalogInv(s) && Sequenced(s) && v < |s.hist| && FirstUnseen(s.hist, s.buf.flushed, v, j)
    requires InGens(s.buf.flushed[j..|s.buf.flushed|], x)
    ensures x.seqno > s.hist[v].wm
  {
    GensWithin(s.spans, s.buf.flushed, j, |s.buf.flushed|, x);
    var i :| j <= i < |s.buf.flushed| && s.spans[i].lo < x.seqno <= s.spans[i].hi;
    SeenSplits(s, v, j, i);
  }

  lemma SeenBelow(s: State, v: nat, j: nat, x: Wire)
    requires CatalogInv(s) && Sequenced(s) && v < |s.hist| && FirstUnseen(s.hist, s.buf.flushed, v, j)
    requires InGens(s.buf.flushed, x) && x.seqno > s.hist[v].wm
    ensures InGens(s.buf.flushed[j..], x)
  {
    var flushed := s.buf.flushed;
    var i :| 0 <= i < |flushed| && InLayer(flushed[i].batches, flushed[i].keyed, x);
    assert LayerSeq(flushed[i].batches, flushed[i].keyed, s.spans[i].lo, s.spans[i].hi);
    LayerWithin(flushed[i].batches, flushed[i].keyed, s.spans[i].lo, s.spans[i].hi, x);
    SeenSplits(s, v, j, i);
    assert i >= j;
    assert flushed[j..][i - j] == flushed[i];
  }

  /** The committed rows as the reader holds them: one value per key. */
  ghost predicate Holds(committed: map<Key, int>, t: Table) {
    forall r: Row :: t[r] == if r.key in committed && committed[r.key] == r.val then 1 else 0
  }

  /** The two views agree at a key, however the newest operation decides it. */
  lemma MergeAt(committed: map<Key, int>, c: Table, t: Table, rows: seq<Wire>, w: nat, has: Wire -> bool, r: Row)
    requires Holds(committed, c) && Decides(c, t, has, r.key)
    requires forall x :: x in rows && x.seqno > w <==> has(x)
    ensures t[r] == if MergedValue(committed, rows, w, r.key) == Some(r.val) then 1 else 0
  {
    if forall x :: has(x) ==> x.key != r.key {
      NewestNone(rows, w, r.key);
    } else {
      var x :| Tops(has, x) && x.key == r.key && forall q: Row :: q.key == r.key ==> t[q] == if Says(x, q) then 1 else 0;
      NewestIs(rows, w, x);
    }
  }

  /** When every durability wait has succeeded, an external reader that holds any servable version
      of the metadata and a tail snapshot sees exactly what a scan of the server sees. */
  lemma ReaderSeesUnion(s: State, v: nat, items: seq<Item>, high: nat, committed: map<Key, int>, r: Row)
    requires Inv(s) && Sequenced(s) && s.keyedTable && UniqueKeys(s.base)
    requires Invariants.Servable(s.hist, s.served, s.scans, v) && s.hist[v].wm <= s.liveLo
    requires s.buf.undurable == {} && ServesWindow(s.buf, items, high)
    requires Holds(committed, s.hist[v].rows)
    ensures ScanResult(s, v)[r]
         == if MergedValue(committed, WireRows(items), s.hist[v].wm, r.key) == Some(r.val) then 1 else 0
  {
    var j := SeenCount(s.hist, v, s.buf.flushed);
    SeenCountFirst(s.hist, v, s.buf.flushed);
    ViewIsLogical(s, v);
    ViewBase(s, v, j);
    WindowDecides(s, j, r.key);
    forall x ensures x in WireRows(items) && x.seqno > s.hist[v].wm <==> WindowHas(s.buf, j)(x) {
      ServedRows(s.buf, items, high, x);
      WatermarkRule(s, v, j, x);
    }
    MergeAt(committed, s.hist[v].rows, Logical(s), WireRows(items), s.hist[v].wm, WindowHas(s.buf, j), r);
  }
}
