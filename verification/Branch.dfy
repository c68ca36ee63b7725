/** Snapshot lineages of one table, their fork points, and the fast-forward merge of two refs. */
module Branch {
  import opened Rows

  /** A snapshot: its parent, and the row counts of its summary where it has them. */
  datatype Snapshot = Snapshot(parent: Option<int>, added: Option<nat>, deleted: Option<nat>)

  type Metadata = map<int, Snapshot>

  // ---- lineage --------------------------------------------------------------------------------------

  /** The parent chain from `cur`: it ends at the root, at a snapshot metadata no longer knows, or
      where it would repeat. */
  function LineageFrom(m: Metadata, cur: Option<int>, seen: set<int>): seq<int>
    decreases m.Keys - seen
  {
    if cur.None? || cur.value in seen || cur.value !in m then []
    else
      assert cur.value in m.Keys - seen;
      [cur.value] + LineageFrom(m, m[cur.value].parent, seen + {cur.value})
  }

  function Lineage(m: Metadata, head: int): seq<int> {
    LineageFrom(m, Some(head), {})
  }

  lemma LineageStep(m: Metadata, id: int, seen: set<int>, out: seq<int>)
    requires id in m && id !in seen && seen <= m.Keys
    ensures out + LineageFrom(m, Some(id), seen) == (out + [id]) + LineageFrom(m, m[id].parent, seen + {id})
    ensures m.Keys - (seen + {id}) < m.Keys - seen && |seen + {id}| == |seen| + 1
  {
    assert id in m.Keys - seen;
  }

  /** The walk terminates on any finite metadata, cyclic or not. */
  method LineageOf(m: Metadata, head: int) returns (out: seq<int>)
    ensures out == Lineage(m, head)
    ensures |out| <= |m|
    ensures forall i :: 0 <= i < |out| ==> out[i] in m
  {
    out := [];
    var seen: set<int> := {};
    var cur := Some(head);
    while cur.Some?
      invariant out + LineageFrom(m, cur, seen) == Lineage(m, head)
      invariant seen <= m.Keys && |out| == |seen|
      invariant forall i :: 0 <= i < |out| ==> out[i] in m
      decreases if cur.Some? then 1 else 0, m.Keys - seen
    {
      var id := cur.value;
      if id in seen || id !in m {
        break;
      }
      LineageStep(m, id, seen, out);
      seen := seen + {id};
      out := out + [id];
      cur := m[id].parent;
    }
    SubsetCard(seen, m.Keys);
  }

  lemma SubsetCard(a: set<int>, b: set<int>)
    requires a <= b
    ensures |a| <= |b|
  {
    assert b == a + (b - a);
  }

  /** The `n`-th ancestor that metadata still knows, the snapshot itself being the 0-th. */
  function Up(m: Metadata, id: int, n: nat): Option<int> {
    if n == 0 then if id in m then Some(id) else None
    else
      var below := Up(m, id, n - 1);
      if below.Some? && below.value in m && m[below.value].parent.Some? && m[below.value].parent.value in m
      then m[below.value].parent else None
  }

  ghost predicate Ancestor(m: Metadata, head: int, x: int) {
    exists n: nat :: Up(m, head, n) == Some(x)
  }

  ghost predicate StrictAncestor(m: Metadata, head: int, x: int) {
    exists n: nat :: n > 0 && Up(m, head, n) == Some(x)
  }

  ghost predicate Acyclic(m: Metadata) {
    forall x :: !StrictAncestor(m, x, x)
  }

  lemma {:induction false} UpKnown(m: Metadata, id: int, n: nat)
    ensures Up(m, id, n).Some? ==> id in m && Up(m, id, n).value in m
  {
    if n > 0 { UpKnown(m, id, n - 1); }
  }

  lemma {:induction false} UpShift(m: Metadata, id: int, n: nat)
    requires id in m
    ensures Up(m, id, n + 1)
         == if m[id].parent.Some? then Up(m, m[id].parent.value, n) else None
  {
    if n > 0 { UpShift(m, id, n - 1); }
  }

  lemma {:induction false} UpSum(m: Metadata, id: int, i: nat, j: nat)
    requires Up(m, id, i).Some?
    ensures Up(m, id, i + j) == Up(m, Up(m, id, i).value, j)
  {
    UpKnown(m, id, i);
    if j > 0 { UpSum(m, id, i, j - 1); }
  }

  lemma {:induction false} LineageAt(m: Metadata, id: int, seen: set<int>, i: nat)
    requires i < |LineageFrom(m, Some(id), seen)|
    ensures Up(m, id, i) == Some(LineageFrom(m, Some(id), seen)[i])
    decreases i
  {
    if i > 0 {
      var parent := m[id].parent;
      UpShift(m, id, i - 1);
      if parent.Some? { LineageAt(m, parent.value, seen + {id}, i - 1); }
    }
  }

  /** Each snapshot of the chain has its known parent in the chain, or among those already seen. */
  lemma {:induction false} LineageClosed(m: Metadata, cur: Option<int>, seen: set<int>, x: int)
    requires x in LineageFrom(m, cur, seen)
    ensures x in m
    ensures m[x].parent.Some? && m[x].parent.value in m ==>
      m[x].parent.value in LineageFrom(m, cur, seen) || m[x].parent.value in seen
    decreases m.Keys - seen
  {
    var id := cur.value;
    var rest := LineageFrom(m, m[id].parent, seen + {id});
    assert LineageFrom(m, cur, seen) == [id] + rest;
    assert id in m.Keys - seen;
    if x != id {
      LineageClosed(m, m[id].parent, seen + {id}, x);
    } else if m[id].parent.Some? && m[id].parent.value in m && m[id].parent.value !in seen + {id} {
      assert rest[0] == m[id].parent.value;
    }
  }

  lemma {:induction false} UpInLineage(m: Metadata, head: int, n: nat)
    requires Up(m, head, n).Some?
    ensures Up(m, head, n).value in Lineage(m, head)
  {
    if n == 0 {
      assert Lineage(m, head)[0] == head;
    } else {
      UpInLineage(m, head, n - 1);
      LineageClosed(m, Some(head), {}, Up(m, head, n - 1).value);
    }
  }

  /** The lineage is exactly the known ancestry, on any metadata. */
  lemma LineageIsAncestry(m: Metadata, head: int, x: int)
    ensures x in Lineage(m, head) <==> Ancestor(m, head, x)
  {
    if x in Lineage(m, head) {
      var i :| 0 <= i < |Lineage(m, head)| && Lineage(m, head)[i] == x;
      LineageAt(m, head, {}, i);
    }
    if n: nat :| Up(m, head, n) == Some(x) {
      UpInLineage(m, head, n);
    }
  }

  lemma {:induction false} LineageUnseen(m: Metadata, cur: Option<int>, seen: set<int>, x: int)
    requires x in LineageFrom(m, cur, seen)
    ensures x !in seen
    decreases m.Keys - seen
  {
    var id := cur.value;
    assert id in m.Keys - seen;
    if x != id {
      assert x in LineageFrom(m, m[id].parent, seen + {id});
      LineageUnseen(m, m[id].parent, seen + {id}, x);
    }
  }

  /** The chain passes no snapshot twice. */
  lemma {:induction false} LineageDistinct(m: Metadata, cur: Option<int>, seen: set<int>)
    ensures var out := LineageFrom(m, cur, seen); forall i, j :: 0 <= i < j < |out| ==> out[i] != out[j]
    decreases m.Keys - seen
  {
    if cur.Some? && cur.value !in seen && cur.value in m {
      var id := cur.value;
      assert id in m.Keys - seen;
      var rest := LineageFrom(m, m[id].parent, seen + {id});
      LineageDistinct(m, m[id].parent, seen + {id});
      forall i | 0 <= i < |rest| ensures rest[i] != id { LineageUnseen(m, m[id].parent, seen + {id}, rest[i]); }
    }
  }

  // ---- fork points --------------------------------------------------------------------------------------

  function FirstIn(chain: seq<int>, ids: set<int>): Option<int> {
    if |chain| == 0 then None else if chain[0] in ids then Some(chain[0]) else FirstIn(chain[1..], ids)
  }

  function ForkPoint(m: Metadata, a: int, b: int): Option<int> {
    FirstIn(Lineage(m, b), set x | x in Lineage(m, a))
  }

  method ForkPointOf(m: Metadata, a: int, b: int) returns (fork: Option<int>)
    ensures fork == ForkPoint(m, a, b)
  {
    var ours := LineageOf(m, a);
    var theirs := LineageOf(m, b);
    var ids := set x | x in ours;
    var i := 0;
    assert theirs[0..] == theirs;
    while i < |theirs|
      invariant 0 <= i <= |theirs| && FirstIn(theirs[i..], ids) == FirstIn(theirs, ids)
    {
      assert theirs[i..][1..] == theirs[i + 1..];
      if theirs[i] in ids {
        return Some(theirs[i]);
      }
      i := i + 1;
    }
    return None;
  }

  lemma {:induction false} FirstInAt(chain: seq<int>, ids: set<int>, k: nat)
    requires k < |chain| && chain[k] in ids
    ensures exists i :: 0 <= i <= k && FirstIn(chain, ids) == Some(chain[i]) && chain[i] in ids
    decreases |chain|
  {
    if chain[0] !in ids {
      FirstInAt(chain[1..], ids, k - 1);
      var i :| 0 <= i <= k - 1 && FirstIn(chain[1..], ids) == Some(chain[1..][i]) && chain[1..][i] in ids;
      assert chain[i + 1] == chain[1..][i];
    }
  }

  lemma {:induction false} FirstInIs(chain: seq<int>, ids: set<int>)
    ensures FirstIn(chain, ids).Some? ==> FirstIn(chain, ids).value in chain && FirstIn(chain, ids).value in ids
    decreases |chain|
  {
    if |chain| > 0 && chain[0] !in ids { FirstInIs(chain[1..], ids); }
  }

  lemma ForkIsCommon(m: Metadata, a: int, b: int)
    ensures ForkPoint(m, a, b).Some? ==>
      Ancestor(m, a, ForkPoint(m, a, b).value) && Ancestor(m, b, ForkPoint(m, a, b).value)
  {
    var fork := ForkPoint(m, a, b);
    FirstInIs(Lineage(m, b), set x | x in Lineage(m, a));
    if fork.Some? {
      LineageIsAncestry(m, a, fork.value);
      LineageIsAncestry(m, b, fork.value);
    }
  }

  /** Every common ancestor is an ancestor of the fork point: it is the nearest one. */
  lemma ForkIsNearest(m: Metadata, a: int, b: int, x: int)
    requires Ancestor(m, a, x) && Ancestor(m, b, x)
    ensures ForkPoint(m, a, b).Some? && Ancestor(m, ForkPoint(m, a, b).value, x)
  {
    var chain, ids := Lineage(m, b), set y | y in Lineage(m, a);
    LineageIsAncestry(m, a, x);
    LineageIsAncestry(m, b, x);
    var k :| 0 <= k < |chain| && chain[k] == x;
    FirstInAt(chain, ids, k);
    var i :| 0 <= i <= k && FirstIn(chain, ids) == Some(chain[i]);
    LineageAt(m, b, {}, i);
    LineageAt(m, b, {}, k);
    UpSum(m, b, i, k - i);
  }

  lemma MutualAncestors(m: Metadata, x: int, y: int)
    requires Acyclic(m) && Ancestor(m, x, y) && Ancestor(m, y, x)
    ensures x == y
  {
    var i: nat :| Up(m, x, i) == Some(y);
    var j: nat :| Up(m, y, j) == Some(x);
    UpSum(m, x, i, j);
    assert i + j > 0 ==> StrictAncestor(m, x, x);
  }

  /** On acyclic metadata the fork point does not depend on the side one starts from. */
  lemma ForkIsSymmetric(m: Metadata, a: int, b: int)
    requires Acyclic(m)
    ensures ForkPoint(m, a, b) == ForkPoint(m, b, a)
  {
    var f, g := ForkPoint(m, a, b), ForkPoint(m, b, a);
    ForkIsCommon(m, a, b);
    ForkIsCommon(m, b, a);
    if f.Some? {
      ForkIsNearest(m, b, a, f.value);
      ForkIsNearest(m, a, b, g.value);
      MutualAncestors(m, f.value, g.value);
    } else if g.Some? {
      ForkIsNearest(m, a, b, g.value);
    }
  }

  /** On cyclic metadata it does. */
  lemma CyclicForkDiffers()
    ensures var m: Metadata := map[1 := Snapshot(Some(2), None, None), 2 := Snapshot(Some(1), None, None)];
            ForkPoint(m, 1, 2) == Some(2) && ForkPoint(m, 2, 1) == Some(1)
  {
    var m: Metadata := map[1 := Snapshot(Some(2), None, None), 2 := Snapshot(Some(1), None, None)];
    assert Lineage(m, 1)[0] == 1 && Lineage(m, 2)[0] == 2;
    assert 2 in LineageFrom(m, Some(2), {1});
    assert Lineage(m, 1) == [1] + LineageFrom(m, Some(2), {} + {1});
    assert 1 in LineageFrom(m, Some(1), {2});
    assert Lineage(m, 2) == [2] + LineageFrom(m, Some(1), {} + {2});
  }

  // ---- comparing two refs -----------------------------------------------------------------------------------

  datatype Status = NoRef | OnlyA | OnlyB | Unchanged | AdvancedA | AdvancedB | Diverged

  function Classify(a: Option<int>, b: Option<int>, fork: Option<int>): Status {
    if a.None? && b.None? then NoRef
    else if b.None? then OnlyA
    else if a.None? then OnlyB
    else if a == b then Unchanged
    else if fork == b then AdvancedA
    else if fork == a then AdvancedB
    else Diverged
  }

  function Fork(m: Metadata, a: Option<int>, b: Option<int>): Option<int> {
    if a.Some? && b.Some? then ForkPoint(m, a.value, b.value) else None
  }

  function Compare(m: Metadata, a: Option<int>, b: Option<int>): Status {
    Classify(a, b, Fork(m, a, b))
  }

  /** A table fast-forwards exactly when the target head is a strict ancestor of the source head; on
      any metadata. */
  lemma FastForwardIff(m: Metadata, a: int, b: int)
    ensures Compare(m, Some(a), Some(b)) == AdvancedA <==> a != b && Ancestor(m, a, b)
  {
    LineageIsAncestry(m, a, b);
    FirstInIs(Lineage(m, b), set x | x in Lineage(m, a));
    if a != b && Ancestor(m, a, b) {
      var n: nat :| Up(m, a, n) == Some(b);
      UpKnown(m, a, n);
      assert Lineage(m, b)[0] == b;
    }
  }

  /** On acyclic metadata the other way round is the same statement with the sides exchanged. */
  lemma AdvancedBIff(m: Metadata, a: int, b: int)
    requires Acyclic(m)
    ensures Compare(m, Some(a), Some(b)) == AdvancedB <==> a != b && Ancestor(m, b, a)
  {
    ForkIsSymmetric(m, a, b);
    FastForwardIff(m, b, a);
    FastForwardIff(m, a, b);
    if a != b && Ancestor(m, a, b) && Ancestor(m, b, a) {
      MutualAncestors(m, a, b);
    }
  }

  /** Diverged: both heads move, neither is in the other's ancestry. */
  lemma DivergedIff(m: Metadata, a: int, b: int)
    requires Acyclic(m)
    ensures Compare(m, Some(a), Some(b)) == Diverged <==> a != b && !Ancestor(m, a, b) && !Ancestor(m, b, a)
  {
    FastForwardIff(m, a, b);
    AdvancedBIff(m, a, b);
  }

  // ---- the same, told from the refs --------------------------------------------------------------------------

  lemma {:induction false} FirstInWhere(chain: seq<int>, ids: set<int>, x: int)
    ensures FirstIn(chain, ids) == Some(x)
       <==> x in ids && exists i :: 0 <= i < |chain| && chain[i] == x && forall j :: 0 <= j < i ==> chain[j] !in ids
    decreases |chain|
  {
    if |chain| > 0 && chain[0] !in ids {
      var rest := chain[1..];
      FirstInWhere(rest, ids, x);
      if i :| 0 <= i < |rest| && rest[i] == x && forall j :: 0 <= j < i ==> rest[j] !in ids {
        assert chain[i + 1] == x;
        forall j | 0 <= j < i + 1 ensures chain[j] !in ids { if j > 0 { assert chain[j] == rest[j - 1]; } }
      }
      if x in ids {
        if i :| 0 <= i < |chain| && chain[i] == x && forall j :: 0 <= j < i ==> chain[j] !in ids {
          assert i > 0 && rest[i - 1] == x;
          assert forall j :: 0 <= j < i - 1 ==> rest[j] == chain[j + 1];
        }
      }
    }
  }

  /** Walking up from `b`, the first snapshot that `a` reaches is `a` itself. */
  ghost predicate Behind(m: Metadata, a: int, b: int) {
    exists n: nat :: Up(m, b, n) == Some(a) && forall j: nat, x :: j < n && Up(m, b, j) == Some(x) ==> !Ancestor(m, a, x)
  }

  lemma BehindFork(m: Metadata, a: int, b: int)
    ensures ForkPoint(m, a, b) == Some(a) <==> Behind(m, a, b)
  {
    var chain, ids := Lineage(m, b), set x | x in Lineage(m, a);
    FirstInWhere(chain, ids, a);
    if a in ids && exists i :: 0 <= i < |chain| && chain[i] == a && forall j :: 0 <= j < i ==> chain[j] !in ids {
      var i :| 0 <= i < |chain| && chain[i] == a && forall j :: 0 <= j < i ==> chain[j] !in ids;
      LineageAt(m, b, {}, i);
      forall j: nat, x | j < i && Up(m, b, j) == Some(x) ensures !Ancestor(m, a, x) {
        LineageAt(m, b, {}, j);
        LineageIsAncestry(m, a, x);
      }
      assert Behind(m, a, b);
    }
    if Behind(m, a, b) {
      BehindIsFirst(m, a, b, chain, ids);
    }
  }

  lemma BehindIsFirst(m: Metadata, a: int, b: int, chain: seq<int>, ids: set<int>)
    requires Behind(m, a, b) && chain == Lineage(m, b) && ids == set x | x in Lineage(m, a)
    ensures a in ids && exists i :: 0 <= i < |chain| && chain[i] == a && forall j :: 0 <= j < i ==> chain[j] !in ids
  {
    var n: nat :| Up(m, b, n) == Some(a) && forall j: nat, x :: j < n && Up(m, b, j) == Some(x) ==> !Ancestor(m, a, x);
    UpKnown(m, b, n);
    assert Up(m, a, 0) == Some(a);
    LineageIsAncestry(m, a, a);
    UpInLineage(m, b, n);
    var i :| 0 <= i < |chain| && chain[i] == a;
    LineageAt(m, b, {}, i);
    LineageAt(m, b, {}, n);
    forall j | 0 <= j < n ensures chain[j] !in ids {
      LineageAt(m, b, {}, j);
      LineageIsAncestry(m, a, chain[j]);
    }
  }

  /** On acyclic metadata that is being an ancestor. */
  lemma BehindAcyclic(m: Metadata, a: int, b: int)
    requires Acyclic(m) && a != b
    ensures Behind(m, a, b) <==> Ancestor(m, b, a)
  {
    BehindFork(m, a, b);
    FastForwardIff(m, a, b);
    AdvancedBIff(m, a, b);
    if Ancestor(m, a, b) && Ancestor(m, b, a) { MutualAncestors(m, a, b); }
  }

  // ---- the merge ------------------------------------------------------------------------------------------------

  /** One table in scope: its metadata and the two heads observed. */
  datatype TableRefs = TableRefs(m: Metadata, source: Option<int>, target: Option<int>)

  datatype Outcome = Refused | NothingToDo | DryRun | Raced | Merged

  predicate Conflicting(t: TableRefs) {
    var status := Compare(t.m, t.source, t.target);
    status == OnlyA || status == Diverged
  }

  predicate Movable(t: TableRefs) {
    Compare(t.m, t.source, t.target) == AdvancedA
  }

  /** Both refs are there, and the target head is a strict ancestor of the source head. */
  ghost predicate FastForwards(t: TableRefs) {
    t.source.Some? && t.target.Some? && t.source != t.target && Ancestor(t.m, t.source.value, t.target.value)
  }

  /** The source ref is there and its head cannot be brought to the target: the target ref is missing, or
      the heads differ and neither is behind the other. A table without a source ref never refuses. */
  ghost predicate Refuses(t: TableRefs) {
    t.source.Some? &&
    (t.target.None? ||
     (t.source != t.target && !Ancestor(t.m, t.source.value, t.target.value) && !Behind(t.m, t.source.value, t.target.value)))
  }

  /** The comparison, table by table, told from the refs; on any metadata. */
  lemma RefsDecide(t: TableRefs)
    ensures Conflicting(t) <==> Refuses(t)
    ensures Movable(t) <==> FastForwards(t)
  {
    if t.source.Some? && t.target.Some? {
      var a, b := t.source.value, t.target.value;
      FastForwardIff(t.m, a, b);
      BehindFork(t.m, a, b);
    }
  }

  lemma RefusesAcyclic(t: TableRefs)
    requires Acyclic(t.m)
    ensures Refuses(t) <==>
      t.source.Some? &&
      (t.target.None? ||
       (t.source != t.target && !Ancestor(t.m, t.source.value, t.target.value) && !Ancestor(t.m, t.target.value, t.source.value)))
  {
    if t.source.Some? && t.target.Some? && t.source != t.target {
      BehindAcyclic(t.m, t.source.value, t.target.value);
    }
  }

  /** At commit time both refs of a table to be moved still stand where they were observed. */
  ghost predicate Pinned(observed: TableRefs, now: TableRefs) {
    FastForwards(observed) ==> now.source == observed.source && now.target == observed.target
  }

  /** The table after its target ref has been moved to the source head. */
  ghost function Moved(observed: TableRefs, now: TableRefs): TableRefs {
    if FastForwards(observed) then now.(target := now.source) else now
  }

  /** The catalog's side: every pinned head is checked against what is there now, and all refs move or
      none does. */
  method Transact(tables: seq<TableRefs>, now: seq<TableRefs>) returns (ok: bool, after: seq<TableRefs>)
    requires |now| == |tables|
    ensures ok <==> forall i :: 0 <= i < |tables| ==> Pinned(tables[i], now[i])
    ensures |after| == |now|
    ensures forall i :: 0 <= i < |now| ==> after[i] == if ok then Moved(tables[i], now[i]) else now[i]
  {
    ok, after := true, [];
    var i := 0;
    while i < |tables|
      invariant 0 <= i <= |tables| && |after| == i
      invariant ok <==> forall j :: 0 <= j < i ==> Pinned(tables[j], now[j])
      invariant forall j :: 0 <= j < i ==> after[j] == Moved(tables[j], now[j])
    {
      RefsDecide(tables[i]);
      if Movable(tables[i]) {
        ok := ok && now[i].source == tables[i].source && now[i].target == tables[i].target;
        after := after + [now[i].(target := now[i].source)];
      } else {
        after := after + [now[i]];
      }
      i := i + 1;
    }
    if !ok {
      after := now;
    }
  }

  ghost predicate AnyConflict(tables: seq<TableRefs>) {
    exists i :: 0 <= i < |tables| && Refuses(tables[i])
  }

  ghost predicate AnyMove(tables: seq<TableRefs>) {
    exists i :: 0 <= i < |tables| && FastForwards(tables[i])
  }

  ghost predicate AllPinned(tables: seq<TableRefs>, now: seq<TableRefs>)
    requires |now| == |tables|
  {
    forall i :: 0 <= i < |tables| ==> Pinned(tables[i], now[i])
  }

  /** Fast-forward every table that can be, in one transaction pinned to the heads observed, or change
      nothing: any conflict refuses the run, a head that has moved by commit time aborts it. `now` is the
      catalog when the transaction arrives. */
  method Merge(tables: seq<TableRefs>, execute: bool, now: seq<TableRefs>) returns (outcome: Outcome, after: seq<TableRefs>)
    requires |now| == |tables|
    ensures |after| == |now|
    ensures outcome == Refused <==> AnyConflict(tables)
    ensures outcome == NothingToDo <==> !AnyConflict(tables) && !AnyMove(tables)
    ensures outcome == DryRun <==> !AnyConflict(tables) && AnyMove(tables) && !execute
    ensures outcome == Merged <==> !AnyConflict(tables) && AnyMove(tables) && execute && AllPinned(tables, now)
    ensures outcome == Merged ==> forall i :: 0 <= i < |now| ==> after[i] == Moved(tables[i], now[i])
    ensures outcome != Merged ==> after == now
  {
    var conflicts, moves := CountMoves(tables);
    if conflicts > 0 {
      return Refused, now;
    }
    if moves == 0 {
      return NothingToDo, now;
    }
    if !execute {
      return DryRun, now;
    }
    var ok, moved := Transact(tables, now);
    if !ok {
      return Raced, now;
    }
    return Merged, moved;
  }

  /** The plan, table by table. */
  method CountMoves(tables: seq<TableRefs>) returns (conflicts: nat, moves: nat)
    ensures conflicts > 0 <==> AnyConflict(tables)
    ensures moves > 0 <==> AnyMove(tables)
  {
    conflicts, moves := 0, 0;
    var i := 0;
    while i < |tables|
      invariant 0 <= i <= |tables|
      invariant conflicts > 0 <==> exists j :: 0 <= j < i && Refuses(tables[j])
      invariant moves > 0 <==> exists j :: 0 <= j < i && FastForwards(tables[j])
    {
      var t := tables[i];
      RefsDecide(t);
      var fork := None;
      if t.source.Some? && t.target.Some? {
        fork := ForkPointOf(t.m, t.source.value, t.target.value);
      }
      var status := Classify(t.source, t.target, fork);
      if status == AdvancedA {
        moves := moves + 1;
      } else if status == OnlyA || status == Diverged {
        conflicts := conflicts + 1;
      }
      i := i + 1;
    }
  }

  /** What a ref reaches. */
  ghost predicate Reaches(m: Metadata, head: Option<int>, x: int) {
    head.Some? && Ancestor(m, head.value, x)
  }

  lemma AncestorOfAncestor(m: Metadata, a: int, b: int, x: int)
    requires Ancestor(m, a, b) && Ancestor(m, b, x)
    ensures Ancestor(m, a, x)
  {
    var i: nat :| Up(m, a, i) == Some(b);
    var j: nat :| Up(m, b, j) == Some(x);
    UpSum(m, a, i, j);
  }

  /** Metadata only grows: every snapshot known stays known, as it was. */
  ghost predicate Grows(m: Metadata, n: Metadata) {
    forall x :: x in m ==> x in n && n[x] == m[x]
  }

  lemma GrowsAt(m: Metadata, n: Metadata, x: int)
    requires Grows(m, n) && x in m
    ensures x in n && n[x] == m[x]
  {}

  lemma {:induction false} UpGrows(m: Metadata, n: Metadata, a: int, i: nat)
    requires Grows(m, n) && Up(m, a, i).Some?
    ensures Up(n, a, i) == Up(m, a, i)
  {
    if i > 0 {
      UpGrows(m, n, a, i - 1);
      var x := Up(m, a, i - 1).value;
      GrowsAt(m, n, x);
      GrowsAt(m, n, m[x].parent.value);
    }
  }

  lemma AncestorGrows(m: Metadata, n: Metadata, a: int, b: int)
    requires Grows(m, n) && Ancestor(m, a, b)
    ensures Ancestor(n, a, b)
  {
    var i: nat :| Up(m, a, i) == Some(b);
    UpGrows(m, n, a, i);
  }

  /** A merge loses nothing the target reached at commit time, in metadata that may have grown since the
      plan, and comparing a moved table again finds its refs equal. */
  lemma MergeLosesNothing(observed: TableRefs, now: TableRefs, x: int)
    requires Grows(observed.m, now.m) && Pinned(observed, now)
    ensures var after := Moved(observed, now);
            && (Reaches(now.m, now.target, x) ==> Reaches(after.m, after.target, x))
            && (FastForwards(observed) ==> after.source == after.target && !FastForwards(after) && !Refuses(after))
            && (FastForwards(observed) ==> Reaches(after.m, after.source, now.target.value))
  {
    if FastForwards(observed) {
      AncestorGrows(observed.m, now.m, observed.source.value, observed.target.value);
      if Reaches(now.m, now.target, x) {
        AncestorOfAncestor(now.m, now.source.value, now.target.value, x);
      }
    }
  }

  // ---- row counts along a side ---------------------------------------------------------------------------------------

  function Count(n: Option<nat>): nat {
    if n.Some? then n.value else 0
  }

  /** The totals of one side: snapshots passed, rows added and deleted, summaries without counts. */
  datatype Delta = Delta(snapshots: nat, added: nat, deleted: nat, missing: nat)

  function SideTotals(m: Metadata, chain: seq<int>, fork: Option<int>): Delta
    requires forall i :: 0 <= i < |chain| ==> chain[i] in m
  {
    if |chain| == 0 || Some(chain[0]) == fork then Delta(0, 0, 0, 0)
    else
      var s, rest := m[chain[0]], SideTotals(m, chain[1..], fork);
      Delta(rest.snapshots + 1, rest.added + Count(s.added), rest.deleted + Count(s.deleted),
            rest.missing + if s.added.None? && s.deleted.None? then 1 else 0)
  }

  /** What the summaries of these snapshots report, and how many report nothing. */
  ghost function Reported(m: Metadata, ids: seq<int>): (r: Delta)
    requires forall i :: 0 <= i < |ids| ==> ids[i] in m
  {
    if |ids| == 0 then Delta(0, 0, 0, 0)
    else
      var rest, s := Reported(m, ids[1..]), m[ids[0]];
      match (s.added, s.deleted)
      case (Some(a), Some(d)) => Delta(rest.snapshots + 1, rest.added + a, rest.deleted + d, rest.missing)
      case (Some(a), None) => Delta(rest.snapshots + 1, rest.added + a, rest.deleted, rest.missing)
      case (None, Some(d)) => Delta(rest.snapshots + 1, rest.added, rest.deleted + d, rest.missing)
      case (None, None) => Delta(rest.snapshots + 1, rest.added, rest.deleted, rest.missing + 1)
  }

  /** The totals are those of the snapshots before the fork, all of them where the fork is not among them. */
  lemma {:induction false} TotalsAre(m: Metadata, chain: seq<int>, fork: Option<int>)
    requires forall i :: 0 <= i < |chain| ==> chain[i] in m
    ensures var n := SideTotals(m, chain, fork).snapshots;
            && n <= |chain| && (n < |chain| ==> fork == Some(chain[n]))
            && (forall i :: 0 <= i < n ==> fork != Some(chain[i]))
            && SideTotals(m, chain, fork) == Reported(m, chain[..n])
  {
    if |chain| > 0 && Some(chain[0]) != fork {
      TotalsAre(m, chain[1..], fork);
      var n := SideTotals(m, chain, fork).snapshots;
      assert chain[..n][1..] == chain[1..][..n - 1];
    }
  }

  /** From the head down to the fork, exclusive. Every snapshot looked up is one metadata knows. */
  method SideDelta(m: Metadata, head: int, fork: Option<int>) returns (d: Delta)
    ensures forall i :: 0 <= i < |Lineage(m, head)| ==> Lineage(m, head)[i] in m
    ensures d == SideTotals(m, Lineage(m, head), fork)
    ensures var chain := Lineage(m, head);
            && d.snapshots <= |chain| && (d.snapshots < |chain| ==> fork == Some(chain[d.snapshots]))
            && (forall i :: 0 <= i < d.snapshots ==> fork != Some(chain[i]))
            && d == Reported(m, chain[..d.snapshots])
  {
    var chain := LineageOf(m, head);
    d := Delta(0, 0, 0, 0);
    var i := 0;
    assert chain[0..] == chain;
    while i < |chain| && Some(chain[i]) != fork
      invariant 0 <= i <= |chain|
      invariant var rest := SideTotals(m, chain[i..], fork);
                SideTotals(m, chain, fork)
                == Delta(d.snapshots + rest.snapshots, d.added + rest.added, d.deleted + rest.deleted, d.missing + rest.missing)
    {
      assert chain[i..][1..] == chain[i + 1..];
      var s := m[chain[i]];
      d := Delta(d.snapshots + 1, d.added + Count(s.added), d.deleted + Count(s.deleted),
                 d.missing + if s.added.None? && s.deleted.None? then 1 else 0);
      i := i + 1;
    }
    TotalsAre(m, chain, fork);
  }

  /** A snapshot's summary is exact: it says how its rows differ from its parent's, the root's from
      none. Row counts are given for every snapshot, also those no longer known. */
  predicate Exact(m: Metadata, rows: int -> int, id: int)
    requires id in m
  {
    var before := if m[id].parent.Some? then rows(m[id].parent.value) else 0;
    rows(id) == before + (if m[id].added.Some? then m[id].added.value else 0)
                       - (if m[id].deleted.Some? then m[id].deleted.value else 0)
  }

  lemma {:induction false} LineageKnown(m: Metadata, cur: Option<int>, seen: set<int>)
    ensures forall i :: 0 <= i < |LineageFrom(m, cur, seen)| ==> LineageFrom(m, cur, seen)[i] in m
    decreases m.Keys - seen
  {
    if cur.Some? && cur.value !in seen && cur.value in m {
      assert cur.value in m.Keys - seen;
      LineageKnown(m, m[cur.value].parent, seen + {cur.value});
    }
  }

  /** Rows at the head are rows at the fork, plus the rows added, minus the rows deleted, for every
      fork the lineage knows. */
  lemma {:induction false} DeltaConserves(m: Metadata, rows: int -> int, cur: int, seen: set<int>, fork: int)
    requires forall id :: id in m ==> Exact(m, rows, id)
    requires fork in LineageFrom(m, Some(cur), seen)
    ensures forall i :: 0 <= i < |LineageFrom(m, Some(cur), seen)| ==> LineageFrom(m, Some(cur), seen)[i] in m
    ensures var d := SideTotals(m, LineageFrom(m, Some(cur), seen), Some(fork));
            rows(cur) == rows(fork) + d.added - d.deleted
    decreases m.Keys - seen
  {
    LineageKnown(m, Some(cur), seen);
    assert cur in m.Keys - seen;
    var chain := LineageFrom(m, Some(cur), seen);
    var rest := LineageFrom(m, m[cur].parent, seen + {cur});
    assert chain == [cur] + rest && chain[1..] == rest;
    if cur != fork {
      assert fork in rest;
      DeltaConserves(m, rows, m[cur].parent.value, seen + {cur}, fork);
      assert Exact(m, rows, cur);
    }
  }

  /** The same for the fork point two heads really have. */
  lemma ForkConserves(m: Metadata, rows: int -> int, a: int, b: int)
    requires forall id :: id in m ==> Exact(m, rows, id)
    requires ForkPoint(m, a, b).Some?
    ensures var fork := ForkPoint(m, a, b);
            && (forall i :: 0 <= i < |Lineage(m, a)| ==> Lineage(m, a)[i] in m)
            && (forall i :: 0 <= i < |Lineage(m, b)| ==> Lineage(m, b)[i] in m)
            && var da, db := SideTotals(m, Lineage(m, a), fork), SideTotals(m, Lineage(m, b), fork);
            && rows(a) == rows(fork.value) + da.added - da.deleted
            && rows(b) == rows(fork.value) + db.added - db.deleted
  {
    var fork := ForkPoint(m, a, b).value;
    FirstInIs(Lineage(m, b), set x | x in Lineage(m, a));
    DeltaConserves(m, rows, a, {}, fork);
    DeltaConserves(m, rows, b, {}, fork);
  }
}
