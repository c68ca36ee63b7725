/** What a window means: each layer of it (a flushed generation, or the live window) is an
    edit of the table below it, and the union read is the edits applied in order. */
module Layers {
  import opened Rows
  import opened Window

  /** Appended batches plus keyed operations, the operations on top. */
  datatype Layer = Layer(batches: seq<seq<Row>>, ops: map<Key, Entry>)

  ghost function Bag(batches: seq<seq<Row>>): Table {
    multiset(Flatten(batches))
  }

  function GenRows(batches: seq<GenBatch>): (r: seq<seq<Row>>)
    ensures |r| == |batches|
    ensures forall i :: 0 <= i < |batches| ==> r[i] == batches[i].rows
  {
    seq(|batches|, i requires 0 <= i < |batches| => batches[i].rows)
  }

  function GenLayer(g: Gen): Layer {
    Layer(GenRows(g.batches), g.keyed)
  }

  function Live(b: Buf): Layer {
    Layer(RowsOf(b.pending), Entries(b))
  }

  ghost function UpsertRows(ops: map<Key, Entry>): (u: Table)
    ensures forall r :: u[r] == if r.key in ops && ops[r.key].kind == Upsert(r.val) then 1 else 0
  {
    multiset(set k | k in ops && ops[k].kind.Upsert? :: Row(k, ops[k].kind.val))
  }

  /** One layer over a table: its keyed operations decide their keys, everything else is the
      table plus the appended rows. */
  ghost function Apply(c: Table, l: Layer): (u: Table)
    ensures forall r :: u[r] == if r.key in l.ops then (if l.ops[r.key].kind == Upsert(r.val) then 1 else 0)
                                else c[r] + Bag(l.batches)[r]
  {
    Without(c + Bag(l.batches), l.ops.Keys) + UpsertRows(l.ops)
  }

  ghost function ApplyAll(c: Table, layers: seq<Layer>): Table
    decreases |layers|
  {
    if |layers| == 0 then c else ApplyAll(Apply(c, layers[0]), layers[1..])
  }

  lemma {:induction false} ApplyAllConcat(c: Table, a: seq<Layer>, b: seq<Layer>)
    ensures ApplyAll(c, a + b) == ApplyAll(ApplyAll(c, a), b)
    decreases |a|
  {
    if |a| == 0 {
      assert a + b == b;
    } else {
      assert (a + b)[1..] == a[1..] + b;
      ApplyAllConcat(Apply(c, a[0]), a[1..], b);
    }
  }

  lemma ApplyAllSnoc(c: Table, a: seq<Layer>, l: Layer)
    ensures ApplyAll(c, a + [l]) == Apply(ApplyAll(c, a), l)
  {
    ApplyAllConcat(c, a, [l]);
    assert [l][1..] == [];
    assert ApplyAll(ApplyAll(c, a), [l]) == ApplyAll(Apply(ApplyAll(c, a), l), []);
  }

  lemma {:induction false} FlattenConcat(a: seq<seq<Row>>, b: seq<seq<Row>>)
    ensures Flatten(a + b) == Flatten(a) + Flatten(b)
    decreases |b|
  {
    if |b| == 0 {
      assert a + b == a;
    } else {
      assert (a + b)[..|a + b| - 1] == a + b[..|b| - 1];
      FlattenConcat(a, b[..|b| - 1]);
    }
  }

  lemma BagConcat(a: seq<seq<Row>>, b: seq<seq<Row>>)
    ensures Bag(a + b) == Bag(a) + Bag(b)
  {
    FlattenConcat(a, b);
  }

  lemma RowsOfConcat(a: seq<Batch>, b: seq<Batch>)
    ensures RowsOf(a + b) == RowsOf(a) + RowsOf(b)
  {}

  // ---- the overlay -----------------------------------------------------------------

  /** The layers a scan cannot see in its metadata, oldest first, then the live window. */
  function Unseen(flushed: seq<Gen>, isCommitted: GenCommit -> bool): seq<Layer> {
    if |flushed| == 0 then []
    else
      var init := Unseen(flushed[..|flushed| - 1], isCommitted);
      if isCommitted(flushed[|flushed| - 1].commit) then init else init + [GenLayer(flushed[|flushed| - 1])]
  }

  function VisibleLayers(b: Buf, isCommitted: GenCommit -> bool): seq<Layer> {
    Unseen(b.flushed, isCommitted) + [Live(b)]
  }

  function AllKeys(layers: seq<Layer>): set<Key> {
    if |layers| == 0 then {} else layers[0].ops.Keys + AllKeys(layers[1..])
  }

  /** The rows the overlay serves: a layer's appends yield to its own and newer keyed
      operations, its upsert rows to newer ones only. */
  ghost function OverlayRows(layers: seq<Layer>): Table {
    if |layers| == 0 then multiset{}
    else
      var newer := AllKeys(layers[1..]);
      Without(Bag(layers[0].batches), layers[0].ops.Keys + newer)
      + Without(UpsertRows(layers[0].ops), newer)
      + OverlayRows(layers[1..])
  }

  /** The union read: committed rows outside the suppressed keys, plus the overlay's rows. */
  ghost function UnionRead(c: Table, layers: seq<Layer>): Table {
    Without(c, AllKeys(layers)) + OverlayRows(layers)
  }

  lemma UnionStep(c: Table, l: Layer, newer: set<Key>)
    ensures Without(c, l.ops.Keys + newer) + Without(Bag(l.batches), l.ops.Keys + newer)
            + Without(UpsertRows(l.ops), newer)
         == Without(Apply(c, l), newer)
  {
    var lhs := Without(c, l.ops.Keys + newer) + Without(Bag(l.batches), l.ops.Keys + newer)
               + Without(UpsertRows(l.ops), newer);
    forall r: Row ensures lhs[r] == Without(Apply(c, l), newer)[r] {}
  }

  /** Layered suppression refines applying the layers one after another. */
  lemma {:induction false} OverlayRefinesSequential(c: Table, layers: seq<Layer>)
    ensures UnionRead(c, layers) == ApplyAll(c, layers)
    decreases |layers|
  {
    if |layers| == 0 {
      assert Without(c, {}) == c;
    } else {
      var l, rest := layers[0], layers[1..];
      OverlayRefinesSequential(Apply(c, l), rest);
      UnionStep(c, l, AllKeys(rest));
    }
  }

  /** The live-map shortcut: a key with a live entry reads the same in every union view,
      whatever is committed and whatever older generations hold. */
  lemma ShortcutAgreesWithUnion(c: Table, b: Buf, isCommitted: GenCommit -> bool, r: Row)
    requires r.key in Entries(b)
    ensures UnionRead(c, VisibleLayers(b, isCommitted))[r]
         == if Entries(b)[r.key].kind == Upsert(r.val) then 1 else 0
  {
    OverlayRefinesSequential(c, VisibleLayers(b, isCommitted));
    ApplyAllSnoc(c, Unseen(b.flushed, isCommitted), Live(b));
  }

  // ---- taking a snapshot apart, putting a lost one back -------------------------------

  /** What may be said of the window while a snapshot of it is in flight. */
  ghost predicate SnapOf(b: Buf, n: nat, snap: map<Key, Entry>) {
    && n <= |b.pending|
    && (forall k :: k in snap ==> k in Entries(b))
    && (forall k :: k in snap && Entries(b)[k].stamp == snap[k].stamp ==> Entries(b)[k] == snap[k])
    && (forall i, r :: n <= i < |b.pending| && r in b.pending[i].rows ==> r.key !in snap)
  }

  lemma {:induction false} BagWithin(pending: seq<Batch>, keys: set<Key>, r: Row)
    requires forall i, x :: 0 <= i < |pending| && x in pending[i].rows ==> x.key !in keys
    requires r.key in keys
    ensures Bag(RowsOf(pending))[r] == 0
  {
    if |pending| > 0 {
      var init, last := pending[..|pending| - 1], pending[|pending| - 1];
      BagWithin(init, keys, r);
      assert RowsOf(pending) == RowsOf(init) + [last.rows];
      FlattenSnoc(RowsOf(init), last.rows);
      assert r !in last.rows;
      assert multiset(last.rows)[r] == 0;
    }
  }

  lemma SplitLayerAt(c: Table, whole: Layer, first: Layer, rest: Layer, r: Row)
    requires Bag(whole.batches)[r] == Bag(first.batches)[r] + Bag(rest.batches)[r]
    requires rest.ops == Drained(whole.ops, first.ops)
    requires r.key in first.ops ==> r.key in whole.ops && Bag(rest.batches)[r] == 0
    requires r.key in first.ops && whole.ops[r.key].stamp == first.ops[r.key].stamp
      ==> whole.ops[r.key] == first.ops[r.key]
    ensures Apply(c, whole)[r] == Apply(Apply(c, first), rest)[r]
  {
    if r.key in rest.ops {
      assert rest.ops[r.key] == whole.ops[r.key];
    }
  }

  lemma SplitLayer(c: Table, whole: Layer, first: Layer, rest: Layer)
    requires forall r: Row :: Bag(whole.batches)[r] == Bag(first.batches)[r] + Bag(rest.batches)[r]
    requires rest.ops == Drained(whole.ops, first.ops)
    requires forall k :: k in first.ops ==>
      k in whole.ops && (whole.ops[k].stamp == first.ops[k].stamp ==> whole.ops[k] == first.ops[k])
    requires forall r: Row :: r.key in first.ops ==> Bag(rest.batches)[r] == 0
    ensures Apply(c, whole) == Apply(Apply(c, first), rest)
  {
    var one, two := Apply(c, whole), Apply(Apply(c, first), rest);
    forall r: Row ensures one[r] == two[r] {
      SplitLayerAt(c, whole, first, rest, r);
    }
    assert one == two;
  }

  /** A window split at a snapshot is the snapshot's layer with the rest on top of it. */
  lemma SplitAtSnapshot(c: Table, b: Buf, n: nat, snap: map<Key, Entry>)
    requires SnapOf(b, n, snap)
    ensures Apply(c, Live(b))
         == Apply(Apply(c, Layer(RowsOf(b.pending[..n]), snap)),
                  Layer(RowsOf(b.pending[n..]), Drained(Entries(b), snap)))
  {
    var first := Layer(RowsOf(b.pending[..n]), snap);
    var rest := Layer(RowsOf(b.pending[n..]), Drained(Entries(b), snap));
    assert RowsOf(b.pending) == first.batches + rest.batches by {
      assert b.pending == b.pending[..n] + b.pending[n..];
      RowsOfConcat(b.pending[..n], b.pending[n..]);
    }
    BagConcat(first.batches, rest.batches);
    forall r: Row | r.key in snap ensures Bag(rest.batches)[r] == 0 {
      BagWithin(b.pending[n..], snap.Keys, r);
    }
    SplitLayer(c, Live(b), first, rest);
  }

  /** No newer pending append carries a key the generation owns and the live map lacks. */
  ghost predicate MergeBackSafe(g: Gen, b: Buf) {
    forall r :: r in Flatten(RowsOf(b.pending)) && r.key in g.keyed ==> r.key in Entries(b)
  }

  /** The window with generation `g` folded back in front of it. */
  function Merged(g: Gen, b: Buf): Layer {
    Layer(GenRows(g.batches) + RowsOf(b.pending), g.keyed + Entries(b))
  }

  lemma MergedAt(c: Table, g: Gen, b: Buf, r: Row)
    ensures r.key in g.keyed && r.key !in Entries(b)
      ==> Apply(Apply(c, GenLayer(g)), Live(b))[r] == Apply(c, Merged(g, b))[r] + Bag(RowsOf(b.pending))[r]
    ensures !(r.key in g.keyed && r.key !in Entries(b))
      ==> Apply(Apply(c, GenLayer(g)), Live(b))[r] == Apply(c, Merged(g, b))[r]
  {
    BagConcat(GenRows(g.batches), RowsOf(b.pending));
  }

  lemma PendingHas(b: Buf, r: Row)
    ensures r in Flatten(RowsOf(b.pending)) <==> Bag(RowsOf(b.pending))[r] > 0
  {}

  /** Folding an in-flight generation back keeps the view exactly when no newer pending append
      carries a key the generation owns and the live map lacks. */
  lemma MergeBackExactIff(c: Table, g: Gen, b: Buf)
    ensures Apply(c, Merged(g, b)) == Apply(Apply(c, GenLayer(g)), Live(b)) <==> MergeBackSafe(g, b)
  {
    var one, two := Apply(c, Merged(g, b)), Apply(Apply(c, GenLayer(g)), Live(b));
    if MergeBackSafe(g, b) {
      forall r: Row ensures one[r] == two[r] {
        MergedAt(c, g, b, r);
        PendingHas(b, r);
      }
      assert one == two;
    } else {
      var r :| r in Flatten(RowsOf(b.pending)) && r.key in g.keyed && r.key !in Entries(b);
      MergedAt(c, g, b, r);
      PendingHas(b, r);
    }
  }

  /** `MoveBack` builds exactly the merged window. */
  lemma MoveBackIsMerge(b: Buf, sid: nat)
    requires KeyedReady(b)
    requires GenPosition(b.flushed, sid) < |b.flushed|
    ensures var g := b.flushed[GenPosition(b.flushed, sid)];
            Live(MoveBack(b, sid)) == Merged(g, b)
  {
    var g := b.flushed[GenPosition(b.flushed, sid)];
    RowsOfConcat(Reborn(g.batches, b.nextId), b.pending);
    assert RowsOf(Reborn(g.batches, b.nextId)) == GenRows(g.batches);
    if b.keyed.None? {
      assert g.keyed == map[];
      assert g.keyed + Entries(b) == map[];
    }
  }
}
