/** The open tail API: what a tail snapshot of the window serves. */
module TailApi {
  import opened Rows
  import opened Window

  datatype TailOp = TailAppend(rows: seq<Row>) | TailUpsert(key: Key, val: int) | TailDelete(key: Key)

  datatype Item = Item(seqno: nat, op: TailOp)

  function AppendItem(seqno: nat, rows: seq<Row>): Item {
    Item(seqno, TailAppend(rows))
  }

  function KeyedItem(key: Key, e: Entry): Item
    requires e.seqno.Some?
  {
    Item(e.seqno.value, if e.kind.Upsert? then TailUpsert(key, e.kind.val) else TailDelete(key))
  }

  // ---- the window's operations ---------------------------------------------------------------

  ghost function AppendBag(batches: seq<GenBatch>): multiset<Item> {
    if |batches| == 0 then multiset{}
    else
      var gb := batches[|batches| - 1];
      AppendBag(batches[..|batches| - 1])
      + if gb.seqno.Some? then multiset{AppendItem(gb.seqno.value, gb.rows)} else multiset{}
  }

  /** The items of the entries whose key is in `keys`. */
  ghost function KeyedBag(ops: map<Key, Entry>, keys: set<Key>): multiset<Item> {
    multiset(set k | k in ops && k in keys && ops[k].seqno.Some? :: KeyedItem(k, ops[k]))
  }

  ghost function GenBag(g: Gen): multiset<Item> {
    AppendBag(g.batches) + KeyedBag(g.keyed, g.keyed.Keys)
  }

  ghost function FlushedBag(flushed: seq<Gen>): multiset<Item> {
    if |flushed| == 0 then multiset{} else FlushedBag(flushed[..|flushed| - 1]) + GenBag(flushed[|flushed| - 1])
  }

  ghost function WindowBag(b: Buf): multiset<Item> {
    FlushedBag(b.flushed) + AppendBag(ToGen(b.pending)) + KeyedBag(Entries(b), Entries(b).Keys)
  }

  ghost predicate OpsSequenced(ops: map<Key, Entry>) {
    forall k :: k in ops ==> ops[k].seqno.Some?
  }

  ghost predicate BatchesSequenced(batches: seq<GenBatch>) {
    forall i :: 0 <= i < |batches| ==> batches[i].seqno.Some?
  }

  ghost predicate GenSequenced(g: Gen) {
    BatchesSequenced(g.batches) && OpsSequenced(g.keyed)
  }

  /** Every buffered operation carries a tail sequence: a durable tail is attached. */
  ghost predicate AllSequenced(b: Buf) {
    && (forall i :: 0 <= i < |b.flushed| ==> GenSequenced(b.flushed[i]))
    && BatchesSequenced(ToGen(b.pending))
    && OpsSequenced(Entries(b))
  }

  // ---- what is served ---------------------------------------------------------------------------

  predicate SortedItems(items: seq<Item>) {
    forall i, j :: 0 <= i < j < |items| ==> items[i].seqno <= items[j].seqno
  }

  /** The highest sequence among the items, zero when there are none. */
  ghost predicate Highest(items: seq<Item>, high: nat) {
    && (forall it :: it in items ==> it.seqno <= high)
    && (if items == [] then high == 0 else exists it :: it in items && it.seqno == high)
  }

  function MaxSeq(items: seq<Item>): (high: nat)
    ensures Highest(items, high)
  {
    if |items| == 0 then 0
    else
      var m := MaxSeq(items[..|items| - 1]);
      if items[|items| - 1].seqno > m then items[|items| - 1].seqno else m
  }

  /** A tail snapshot: the window's operations in sequence order, each as often as it is
      buffered, without those whose wait is unresolved or failed; and how far it goes, the window's high
      mark or, with some held back, the highest sequence served. */
  ghost predicate ServesWindow(b: Buf, items: seq<Item>, high: nat) {
    && SortedItems(items)
    && (forall it :: multiset(items)[it] == if it.seqno in b.undurable then 0 else WindowBag(b)[it])
    && (b.undurable == {} ==> high == if b.tailHigh.Some? then b.tailHigh.value else 0)
    && (b.undurable != {} ==> Highest(items, high))
  }

  // ---- sorting and filtering ----------------------------------------------------------------------

  /** Insertion after every item of the same or a smaller sequence. */
  function InsertItem(items: seq<Item>, it: Item): seq<Item> {
    if |items| == 0 || items[|items| - 1].seqno <= it.seqno then items + [it]
    else InsertItem(items[..|items| - 1], it) + [items[|items| - 1]]
  }

  lemma {:induction false} InsertBag(items: seq<Item>, it: Item)
    ensures multiset(InsertItem(items, it)) == multiset(items) + multiset{it}
  {
    if |items| > 0 && items[|items| - 1].seqno > it.seqno {
      assert items == items[..|items| - 1] + [items[|items| - 1]];
      InsertBag(items[..|items| - 1], it);
    }
  }

  lemma {:induction false} InsertSorted(items: seq<Item>, it: Item)
    requires SortedItems(items)
    ensures SortedItems(InsertItem(items, it))
  {
    if |items| > 0 && items[|items| - 1].seqno > it.seqno {
      var init, last := items[..|items| - 1], items[|items| - 1];
      InsertSorted(init, it);
      InsertBag(init, it);
      forall x | x in InsertItem(init, it) ensures x.seqno <= last.seqno {
        assert x in multiset(InsertItem(init, it));
        assert x in multiset(init) || x == it;
      }
    }
  }

  function Servable(items: seq<Item>, undurable: set<nat>): seq<Item> {
    if |items| == 0 then []
    else
      var init := Servable(items[..|items| - 1], undurable);
      if items[|items| - 1].seqno in undurable then init else init + [items[|items| - 1]]
  }

  lemma {:induction false} ServableBag(items: seq<Item>, undurable: set<nat>, it: Item)
    ensures multiset(Servable(items, undurable))[it] == if it.seqno in undurable then 0 else multiset(items)[it]
  {
    if |items| > 0 {
      var init, last := items[..|items| - 1], items[|items| - 1];
      assert items == init + [last];
      ServableBag(init, undurable, it);
    }
  }

  lemma {:induction false} ServableSorted(items: seq<Item>, undurable: set<nat>)
    requires SortedItems(items)
    ensures SortedItems(Servable(items, undurable))
    ensures forall x :: x in Servable(items, undurable) ==> x in items
  {
    if |items| > 0 {
      var init, last := items[..|items| - 1], items[|items| - 1];
      ServableSorted(init, undurable);
      forall x | x in init ensures x in items && x.seqno <= last.seqno {
        var i :| 0 <= i < |init| && init[i] == x;
        assert items[i] == x;
      }
    }
  }
}
