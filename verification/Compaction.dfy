/** Compaction: the bin-pack plan, the manifest walk, and the replace snapshot that keeps every row.
    It follows the manifest entry rules of the Apache Iceberg Table Spec, format version 2: an entry
    without a sequence number inherits its manifest's, and a DELETED entry lives only in the snapshot
    that deleted the file. */
module Compaction {
  import opened Rows

  // ---- the plan ---------------------------------------------------------------------------------------

  datatype DataFile = DataFile(path: nat, size: nat, rows: seq<Row>, partition: nat)

  datatype Group = Group(partition: nat, inputs: seq<nat>, totalBytes: nat, totalRecords: nat)

  /** The under-target files of one partition, in input order. */
  function Members(files: seq<DataFile>, target: nat, partition: nat): seq<nat> {
    if |files| == 0 then []
    else
      var init, f := Members(files[..|files| - 1], target, partition), files[|files| - 1];
      if f.size < target && f.partition == partition then init + [|files| - 1] else init
  }

  function Bytes(files: seq<DataFile>, inputs: seq<nat>): nat
    requires forall i :: 0 <= i < |inputs| ==> inputs[i] < |files|
  {
    if |inputs| == 0 then 0 else Bytes(files, inputs[..|inputs| - 1]) + files[inputs[|inputs| - 1]].size
  }

  function Records(files: seq<DataFile>, inputs: seq<nat>): nat
    requires forall i :: 0 <= i < |inputs| ==> inputs[i] < |files|
  {
    if |inputs| == 0 then 0 else Records(files, inputs[..|inputs| - 1]) + |files[inputs[|inputs| - 1]].rows|
  }

  lemma {:induction false} MembersAre(files: seq<DataFile>, target: nat, partition: nat, i: nat)
    ensures i in Members(files, target, partition) <==>
      i < |files| && files[i].size < target && files[i].partition == partition
    ensures var ms := Members(files, target, partition);
            && (forall j :: 0 <= j < |ms| ==> ms[j] < |files|)
            && (forall j, k :: 0 <= j < k < |ms| ==> ms[j] < ms[k])
  {
    if |files| > 0 {
      MembersAre(files[..|files| - 1], target, partition, i);
    }
  }

  /** A group is its partition's under-target files, all of them, with their totals. */
  ghost predicate GroupOk(files: seq<DataFile>, target: nat, g: Group) {
    && g.inputs == Members(files, target, g.partition)
    && (forall i :: 0 <= i < |g.inputs| ==> g.inputs[i] < |files|)
    && g.totalBytes == Bytes(files, g.inputs) && g.totalRecords == Records(files, g.inputs)
  }

  ghost predicate GroupsOk(files: seq<DataFile>, target: nat, groups: seq<Group>) {
    forall j :: 0 <= j < |groups| ==> GroupOk(files, target, groups[j]) && groups[j].inputs != []
  }

  ghost predicate OnePerPartition(groups: seq<Group>) {
    forall j, k :: 0 <= j < k < |groups| ==> groups[j].partition != groups[k].partition
  }

  ghost predicate Covers(files: seq<DataFile>, target: nat, groups: seq<Group>) {
    forall i :: 0 <= i < |files| && files[i].size < target ==> HasGroup(groups, files[i].partition)
  }

  ghost predicate Planned(files: seq<DataFile>, target: nat, groups: seq<Group>) {
    GroupsOk(files, target, groups) && OnePerPartition(groups) && Covers(files, target, groups)
  }

  ghost predicate HasGroup(groups: seq<Group>, partition: nat) {
    exists j :: 0 <= j < |groups| && groups[j].partition == partition
  }

  method FindGroup(groups: seq<Group>, partition: nat) returns (at: nat)
    ensures at <= |groups|
    ensures at < |groups| ==> groups[at].partition == partition
    ensures at == |groups| ==> !HasGroup(groups, partition)
  {
    at := 0;
    while at < |groups| && groups[at].partition != partition
      invariant 0 <= at <= |groups| && forall j :: 0 <= j < at ==> groups[j].partition != partition
    {
      at := at + 1;
    }
  }

  lemma {:induction false} TotalsGrow(files: seq<DataFile>, f: DataFile, inputs: seq<nat>)
    requires forall i :: 0 <= i < |inputs| ==> inputs[i] < |files|
    ensures Bytes(files + [f], inputs) == Bytes(files, inputs) && Records(files + [f], inputs) == Records(files, inputs)
  {
    if |inputs| > 0 { TotalsGrow(files, f, inputs[..|inputs| - 1]); }
  }

  lemma GroupGrows(files: seq<DataFile>, f: DataFile, target: nat, g: Group)
    requires GroupOk(files, target, g)
    ensures f.size < target && f.partition == g.partition ==>
      GroupOk(files + [f], target,
              Group(g.partition, g.inputs + [|files|], g.totalBytes + f.size, g.totalRecords + |f.rows|))
    ensures !(f.size < target && f.partition == g.partition) ==> GroupOk(files + [f], target, g)
  {
    assert (files + [f])[..|files|] == files;
    TotalsGrow(files, f, g.inputs);
    if f.size < target && f.partition == g.partition {
      var inputs := g.inputs + [|files|];
      assert inputs[..|inputs| - 1] == g.inputs;
    }
  }

  lemma {:induction false} MembersNone(files: seq<DataFile>, target: nat, partition: nat)
    requires forall i :: 0 <= i < |files| && files[i].size < target ==> files[i].partition != partition
    ensures Members(files, target, partition) == []
  {
    if |files| > 0 { MembersNone(files[..|files| - 1], target, partition); }
  }

  lemma MembersSnoc(files: seq<DataFile>, f: DataFile, target: nat, partition: nat)
    ensures Members(files + [f], target, partition)
         == if f.size < target && f.partition == partition then Members(files, target, partition) + [|files|]
            else Members(files, target, partition)
  {
    assert (files + [f])[..|files|] == files;
  }

  lemma OneInput(files: seq<DataFile>, i: nat)
    requires i < |files|
    ensures Bytes(files, [i]) == files[i].size && Records(files, [i]) == |files[i].rows|
  {
    assert [i][..0] == [];
  }

  lemma GroupNew(files: seq<DataFile>, f: DataFile, target: nat)
    requires f.size < target
    requires forall i :: 0 <= i < |files| && files[i].size < target ==> files[i].partition != f.partition
    ensures GroupOk(files + [f], target, Group(f.partition, [|files|], f.size, |f.rows|))
  {
    MembersNone(files, target, f.partition);
    MembersSnoc(files, f, target, f.partition);
    OneInput(files + [f], |files|);
    assert [] + [|files|] == [|files|];
  }

  /** The group of the new file's partition takes it, the others stay. */
  function Taken(groups: seq<Group>, at: nat, idx: nat, f: DataFile): seq<Group>
    requires at < |groups|
  {
    var g := groups[at];
    groups[at := Group(g.partition, g.inputs + [idx], g.totalBytes + f.size, g.totalRecords + |f.rows|)]
  }

  lemma SkipFile(files: seq<DataFile>, f: DataFile, target: nat, groups: seq<Group>)
    requires Planned(files, target, groups) && f.size >= target
    ensures Planned(files + [f], target, groups)
  {
    forall j | 0 <= j < |groups| ensures GroupOk(files + [f], target, groups[j]) { GroupGrows(files, f, target, groups[j]); }
  }

  lemma TakeFile(files: seq<DataFile>, f: DataFile, target: nat, groups: seq<Group>, at: nat)
    requires Planned(files, target, groups) && f.size < target && at < |groups| && groups[at].partition == f.partition
    ensures Planned(files + [f], target, Taken(groups, at, |files|, f))
  {
    var out := Taken(groups, at, |files|, f);
    forall j | 0 <= j < |out| ensures GroupOk(files + [f], target, out[j]) && out[j].inputs != [] {
      GroupGrows(files, f, target, groups[j]);
    }
    GroupsKept(groups, out);
    assert HasGroup(groups, f.partition);
  }

  lemma OpenGroup(files: seq<DataFile>, f: DataFile, target: nat, groups: seq<Group>)
    requires Planned(files, target, groups) && f.size < target && !HasGroup(groups, f.partition)
    ensures Planned(files + [f], target, groups + [Group(f.partition, [|files|], f.size, |f.rows|)])
  {
    var g := Group(f.partition, [|files|], f.size, |f.rows|);
    GroupNew(files, f, target);
    OpenGroupsOk(files, f, target, groups, g);
    GroupsKept(groups, groups + [g]);
    assert (groups + [g])[|groups|].partition == f.partition;
    assert HasGroup(groups + [g], f.partition);
    assert Covers(files + [f], target, groups + [g]);
  }

  lemma OpenGroupsOk(files: seq<DataFile>, f: DataFile, target: nat, groups: seq<Group>, g: Group)
    requires GroupsOk(files, target, groups) && GroupOk(files + [f], target, g) && g.inputs != []
    requires !HasGroup(groups, f.partition)
    ensures GroupsOk(files + [f], target, groups + [g])
  {
    forall j | 0 <= j < |groups| ensures GroupOk(files + [f], target, groups[j]) { GroupGrows(files, f, target, groups[j]); }
  }

  /** The groups stand in the order of their first files. */
  ghost predicate FirstSeen(groups: seq<Group>) {
    && (forall j :: 0 <= j < |groups| ==> groups[j].inputs != [])
    && forall j, k :: 0 <= j < k < |groups| ==> groups[j].inputs[0] < groups[k].inputs[0]
  }

  lemma TakenFirstSeen(groups: seq<Group>, at: nat, idx: nat, f: DataFile)
    requires FirstSeen(groups) && at < |groups|
    ensures FirstSeen(Taken(groups, at, idx, f))
  {
    var out := Taken(groups, at, idx, f);
    forall j | 0 <= j < |out| ensures out[j].inputs != [] && out[j].inputs[0] == groups[j].inputs[0] {}
  }

  lemma OpenFirstSeen(files: seq<DataFile>, target: nat, groups: seq<Group>, g: Group)
    requires FirstSeen(groups) && GroupsOk(files, target, groups) && g.inputs == [|files|]
    ensures FirstSeen(groups + [g])
  {
    forall j | 0 <= j < |groups| ensures groups[j].inputs[0] < |files| { assert GroupOk(files, target, groups[j]); }
  }

  /** Add one file to the groups so far. */
  method AddFile(files: seq<DataFile>, f: DataFile, target: nat, groups: seq<Group>) returns (out: seq<Group>)
    requires Planned(files, target, groups) && FirstSeen(groups)
    ensures Planned(files + [f], target, out) && FirstSeen(out)
  {
    if f.size >= target {
      SkipFile(files, f, target, groups);
      return groups;
    }
    var at := FindGroup(groups, f.partition);
    if at < |groups| {
      TakeFile(files, f, target, groups, at);
      TakenFirstSeen(groups, at, |files|, f);
      out := Taken(groups, at, |files|, f);
    } else {
      OpenGroup(files, f, target, groups);
      OpenFirstSeen(files, target, groups, Group(f.partition, [|files|], f.size, |f.rows|));
      out := groups + [Group(f.partition, [|files|], f.size, |f.rows|)];
    }
  }

  lemma GroupsKept(groups: seq<Group>, out: seq<Group>)
    requires |groups| <= |out| && forall j :: 0 <= j < |groups| ==> out[j].partition == groups[j].partition
    ensures forall p :: HasGroup(groups, p) ==> HasGroup(out, p)
  {
    forall p | HasGroup(groups, p) ensures HasGroup(out, p) {
      var j :| 0 <= j < |groups| && groups[j].partition == p;
      assert out[j].partition == p;
    }
  }

  /** Under-target files grouped by partition, in first-seen order; a partition with too few is left
      alone. */
  method PlanCompaction(files: seq<DataFile>, target: nat, min: nat) returns (groups: seq<Group>)
    ensures forall j :: 0 <= j < |groups| ==> GroupOk(files, target, groups[j]) && |groups[j].inputs| >= min
    ensures OnePerPartition(groups) && FirstSeen(groups)
    ensures forall p :: HasGroup(groups, p) <==> Members(files, target, p) != [] && |Members(files, target, p)| >= min
  {
    var all: seq<Group> := [];
    var i := 0;
    while i < |files|
      invariant 0 <= i <= |files| && Planned(files[..i], target, all) && FirstSeen(all)
    {
      assert files[..i + 1] == files[..i] + [files[i]];
      all := AddFile(files[..i], files[i], target, all);
      i := i + 1;
    }
    assert files[..|files|] == files;
    groups := KeepLarge(all, min);
    forall p ensures HasGroup(groups, p) <==> Members(files, target, p) != [] && |Members(files, target, p)| >= min {
      LargeGroups(files, target, min, all, groups, p);
    }
  }

  ghost predicate KeptLarge(all: seq<Group>, min: nat, groups: seq<Group>) {
    && (forall g :: g in groups <==> g in all && |g.inputs| >= min)
    && OnePerPartition(groups)
  }

  lemma KeptBefore(all: seq<Group>, i: nat, min: nat, groups: seq<Group>)
    requires OnePerPartition(all) && FirstSeen(all) && i < |all| && KeptLarge(all[..i], min, groups)
    ensures forall g :: g in groups ==> g.partition != all[i].partition && g.inputs != [] && g.inputs[0] < all[i].inputs[0]
  {
    forall g | g in groups ensures g.partition != all[i].partition && g.inputs != [] && g.inputs[0] < all[i].inputs[0] {
      assert g in all[..i];
      var j :| 0 <= j < i && all[..i][j] == g;
      assert all[j] == g;
    }
  }

  method KeepLarge(all: seq<Group>, min: nat) returns (groups: seq<Group>)
    requires OnePerPartition(all) && FirstSeen(all)
    ensures KeptLarge(all, min, groups) && FirstSeen(groups)
  {
    groups := [];
    var i := 0;
    while i < |all|
      invariant 0 <= i <= |all| && KeptLarge(all[..i], min, groups) && FirstSeen(groups)
    {
      assert all[..i + 1] == all[..i] + [all[i]];
      KeptBefore(all, i, min, groups);
      if |all[i].inputs| >= min {
        groups := groups + [all[i]];
      }
      i := i + 1;
    }
    assert all[..|all|] == all;
  }

  lemma LargeGroups(files: seq<DataFile>, target: nat, min: nat, all: seq<Group>, groups: seq<Group>, p: nat)
    requires Planned(files, target, all) && KeptLarge(all, min, groups)
    ensures HasGroup(groups, p) <==> Members(files, target, p) != [] && |Members(files, target, p)| >= min
  {
    if HasGroup(groups, p) {
      var j :| 0 <= j < |groups| && groups[j].partition == p;
      assert groups[j] in groups;
      var k :| 0 <= k < |all| && all[k] == groups[j];
    }
    if Members(files, target, p) != [] && |Members(files, target, p)| >= min {
      var first := Members(files, target, p)[0];
      assert first in Members(files, target, p);
      MembersAre(files, target, p, first);
      var k :| 0 <= k < |all| && all[k].partition == p;
      assert all[k] in all;
      assert all[k] in groups;
      var j :| 0 <= j < |groups| && groups[j] == all[k];
    }
  }

  /** Groups never share a file, and no group mixes partitions. */
  lemma GroupsDisjoint(files: seq<DataFile>, target: nat, groups: seq<Group>, j: nat, k: nat, i: nat)
    requires forall g :: g in groups ==> GroupOk(files, target, g)
    requires OnePerPartition(groups)
    requires j < |groups| && k < |groups| && i in groups[j].inputs
    ensures i < |files| && files[i].partition == groups[j].partition && files[i].size < target
    ensures i in groups[k].inputs <==> j == k
  {
    assert groups[j] in groups && groups[k] in groups;
    MembersAre(files, target, groups[j].partition, i);
    MembersAre(files, target, groups[k].partition, i);
  }

  // ---- manifests -----------------------------------------------------------------------------------------

  datatype EntryStatus = Existing | Added | Deleted

  datatype Entry = Entry(status: EntryStatus, file: DataFile, snapshot: Option<int>, seqno: Option<int>, fileSeq: Option<int>)

  datatype Manifest = Manifest(entries: seq<Entry>, addedSnapshot: int, seqno: int)

  /** An entry with what it inherits filled in: its snapshot id, data and file sequence numbers. */
  datatype Placed = Placed(file: DataFile, snapshot: int, seqno: int, fileSeq: int)

  /** A live entry as the walk collects it. */
  datatype LiveEntry = LiveEntry(manifest: nat, placed: Placed)

  datatype Stat = Stat(live: nat, stale: bool)

  function OrElse(x: Option<int>, y: int): int {
    if x.Some? then x.value else y
  }

  function Place(m: Manifest, e: Entry): Placed {
    var seqno := OrElse(e.seqno, m.seqno);
    Placed(e.file, OrElse(e.snapshot, m.addedSnapshot), seqno, OrElse(e.fileSeq, seqno))
  }

  /** The live entries of one manifest, and of a list of manifests. */
  function LiveIn(m: Manifest, n: nat): seq<Placed>
    requires n <= |m.entries|
  {
    if n == 0 then []
    else LiveIn(m, n - 1) + if m.entries[n - 1].status.Deleted? then [] else [Place(m, m.entries[n - 1])]
  }

  function DeletedIn(m: Manifest, n: nat): seq<Placed>
    requires n <= |m.entries|
  {
    if n == 0 then []
    else DeletedIn(m, n - 1) + if m.entries[n - 1].status.Deleted? then [Place(m, m.entries[n - 1])] else []
  }

  function LiveSet(ms: seq<Manifest>): seq<Placed> {
    if |ms| == 0 then [] else LiveSet(ms[..|ms| - 1]) + LiveIn(ms[|ms| - 1], |ms[|ms| - 1].entries|)
  }

  function DeletedSet(ms: seq<Manifest>): seq<Placed> {
    if |ms| == 0 then [] else DeletedSet(ms[..|ms| - 1]) + DeletedIn(ms[|ms| - 1], |ms[|ms| - 1].entries|)
  }

  function PlacedOf(live: seq<LiveEntry>): (r: seq<Placed>)
    ensures |r| == |live|
  {
    seq(|live|, i requires 0 <= i < |live| => live[i].placed)
  }

  /** What the walk collects of manifest `k`, and of all of them. */
  function WalkIn(m: Manifest, k: nat, n: nat): seq<LiveEntry>
    requires n <= |m.entries|
  {
    if n == 0 then []
    else
      var e := m.entries[n - 1];
      WalkIn(m, k, n - 1) + if e.status.Deleted? then [] else [LiveEntry(k, Place(m, e))]
  }

  function WalkSet(ms: seq<Manifest>): seq<LiveEntry> {
    if |ms| == 0 then []
    else WalkSet(ms[..|ms| - 1]) + WalkIn(ms[|ms| - 1], |ms| - 1, |ms[|ms| - 1].entries|)
  }

  ghost predicate HasStale(m: Manifest, n: nat)
    requires n <= |m.entries|
  {
    exists i :: 0 <= i < n && m.entries[i].status.Deleted?
  }

  lemma {:induction false} WalkInPlaces(m: Manifest, k: nat, n: nat)
    requires n <= |m.entries|
    ensures PlacedOf(WalkIn(m, k, n)) == LiveIn(m, n)
    ensures forall i :: 0 <= i < |WalkIn(m, k, n)| ==> WalkIn(m, k, n)[i].manifest == k
  {
    if n > 0 { WalkInPlaces(m, k, n - 1); }
  }

  lemma {:induction false} WalkSetPlaces(ms: seq<Manifest>)
    ensures PlacedOf(WalkSet(ms)) == LiveSet(ms)
    ensures forall i :: 0 <= i < |WalkSet(ms)| ==> WalkSet(ms)[i].manifest < |ms|
  {
    if |ms| > 0 {
      var init, m, k := ms[..|ms| - 1], ms[|ms| - 1], |ms| - 1;
      WalkSetPlaces(init);
      WalkInPlaces(m, k, |m.entries|);
      PlacedConcat(WalkSet(init), WalkIn(m, k, |m.entries|));
    }
  }

  lemma PlacedConcat(a: seq<LiveEntry>, b: seq<LiveEntry>)
    ensures PlacedOf(a + b) == PlacedOf(a) + PlacedOf(b)
  {}

  /** The entry's own snapshot id and sequence numbers; what it lacks comes from its manifest, and a
      missing file sequence number is the entry's sequence number. */
  predicate Inherits(m: Manifest, e: Entry, p: Placed) {
    && p.file == e.file
    && (e.snapshot == Some(p.snapshot) || (e.snapshot.None? && p.snapshot == m.addedSnapshot))
    && (e.seqno == Some(p.seqno) || (e.seqno.None? && p.seqno == m.seqno))
    && (e.fileSeq == Some(p.fileSeq) || (e.fileSeq.None? && p.fileSeq == p.seqno))
  }

  /** The entries at `at` are those that are not DELETED, in order, and `live` holds them. */
  ghost predicate WalkedAt(m: Manifest, k: nat, n: nat, live: seq<LiveEntry>, at: seq<nat>)
    requires n <= |m.entries|
  {
    && |at| == |live|
    && (forall i, j :: 0 <= i < j < |at| ==> at[i] < at[j])
    && (forall j :: 0 <= j < n && !m.entries[j].status.Deleted? ==> j in at)
    && (forall i :: 0 <= i < |at| ==> WalkedFrom(m, k, n, live[i], at[i]))
  }

  predicate WalkedFrom(m: Manifest, k: nat, n: nat, found: LiveEntry, at: nat)
    requires n <= |m.entries|
  {
    at < n && !m.entries[at].status.Deleted? && found.manifest == k && Inherits(m, m.entries[at], found.placed)
  }

  lemma WalkedSkip(m: Manifest, k: nat, n: nat, live: seq<LiveEntry>, at: seq<nat>)
    requires n < |m.entries| && m.entries[n].status.Deleted? && WalkedAt(m, k, n, live, at)
    ensures WalkedAt(m, k, n + 1, live, at)
  {
    forall i | 0 <= i < |at| ensures WalkedFrom(m, k, n + 1, live[i], at[i]) {
      assert WalkedFrom(m, k, n, live[i], at[i]);
    }
  }

  lemma WalkedTake(m: Manifest, k: nat, n: nat, live: seq<LiveEntry>, at: seq<nat>, found: LiveEntry)
    requires n < |m.entries| && WalkedAt(m, k, n, live, at) && WalkedFrom(m, k, n + 1, found, n)
    ensures WalkedAt(m, k, n + 1, live + [found], at + [n])
  {
    var live', at' := live + [found], at + [n];
    forall i | 0 <= i < |at'| ensures WalkedFrom(m, k, n + 1, live'[i], at'[i]) {
      if i < |at| { assert WalkedFrom(m, k, n, live[i], at[i]); }
    }
    forall j | 0 <= j < n + 1 && !m.entries[j].status.Deleted? ensures j in at' {
      if j < n { assert j in at; } else { assert at'[|at|] == n; }
    }
    forall i, j | 0 <= i < j < |at'| ensures at'[i] < at'[j] {
      assert WalkedFrom(m, k, n, live[i], at[i]);
    }
  }

  /** The walk takes every entry that is not DELETED once, with what it inherits. */
  lemma {:induction false} WalkInherits(m: Manifest, k: nat, n: nat) returns (at: seq<nat>)
    requires n <= |m.entries|
    ensures WalkedAt(m, k, n, WalkIn(m, k, n), at)
  {
    if n == 0 { return []; }
    var before := WalkInherits(m, k, n - 1);
    var e := m.entries[n - 1];
    if e.status.Deleted? {
      WalkedSkip(m, k, n - 1, WalkIn(m, k, n - 1), before);
      return before;
    }
    WalkedTake(m, k, n - 1, WalkIn(m, k, n - 1), before, LiveEntry(k, Place(m, e)));
    return before + [n - 1];
  }

  method WalkManifest(m: Manifest, k: nat) returns (live: seq<LiveEntry>, stat: Stat)
    ensures live == WalkIn(m, k, |m.entries|)
    ensures exists at :: WalkedAt(m, k, |m.entries|, live, at)
    ensures stat == Stat(|live|, HasStale(m, |m.entries|))
  {
    live, stat := [], Stat(0, false);
    var i := 0;
    while i < |m.entries|
      invariant 0 <= i <= |m.entries| && live == WalkIn(m, k, i)
      invariant stat.live == |live| && (stat.stale <==> HasStale(m, i))
    {
      var e := m.entries[i];
      if e.status.Deleted? {
        stat := stat.(stale := true);
      } else {
        stat := stat.(live := stat.live + 1);
        live := live + [LiveEntry(k, Place(m, e))];
      }
      i := i + 1;
    }
    ghost var at := WalkInherits(m, k, |m.entries|);
  }

  method Walk(ms: seq<Manifest>) returns (live: seq<LiveEntry>, stats: seq<Stat>)
    ensures live == WalkSet(ms) && |stats| == |ms|
    ensures forall k :: 0 <= k < |ms| ==>
      stats[k] == Stat(|LiveIn(ms[k], |ms[k].entries|)|, HasStale(ms[k], |ms[k].entries|))
  {
    live, stats := [], [];
    var k := 0;
    while k < |ms|
      invariant 0 <= k <= |ms| && live == WalkSet(ms[..k]) && |stats| == k
      invariant forall j :: 0 <= j < k ==>
        stats[j] == Stat(|LiveIn(ms[j], |ms[j].entries|)|, HasStale(ms[j], |ms[j].entries|))
    {
      assert ms[..k + 1][..k] == ms[..k];
      var more, stat := WalkManifest(ms[k], k);
      WalkInPlaces(ms[k], k, |ms[k].entries|);
      live := live + more;
      stats := stats + [stat];
      k := k + 1;
    }
    assert ms[..|ms|] == ms;
  }

  // ---- what is carried, kept and deleted --------------------------------------------------------------------

  /** Untouched manifests with something alive, as they are. */
  function Carried(ms: seq<Manifest>, touched: set<nat>): seq<Manifest> {
    if |ms| == 0 then []
    else
      var m := ms[|ms| - 1];
      Carried(ms[..|ms| - 1], touched) + if |ms| - 1 !in touched && |LiveIn(m, |m.entries|)| > 0 then [m] else []
  }

  /** The live entries of untouched manifests. */
  function Untouched(live: seq<LiveEntry>, touched: set<nat>): seq<Placed> {
    if |live| == 0 then []
    else
      var e := live[|live| - 1];
      Untouched(live[..|live| - 1], touched) + if e.manifest !in touched then [e.placed] else []
  }

  function Kept(live: seq<LiveEntry>, compacted: set<nat>): seq<Placed> {
    if |live| == 0 then []
    else Kept(live[..|live| - 1], compacted) + if |live| - 1 in compacted then [] else [live[|live| - 1].placed]
  }

  function Replaced(live: seq<LiveEntry>, compacted: set<nat>): seq<Placed> {
    if |live| == 0 then []
    else Replaced(live[..|live| - 1], compacted) + if |live| - 1 in compacted then [live[|live| - 1].placed] else []
  }

  lemma {:induction false} UntouchedConcat(a: seq<LiveEntry>, b: seq<LiveEntry>, touched: set<nat>)
    ensures Untouched(a + b, touched) == Untouched(a, touched) + Untouched(b, touched)
    decreases |b|
  {
    if |b| == 0 {
      assert a + b == a;
    } else {
      assert (a + b)[..|a + b| - 1] == a + b[..|b| - 1];
      UntouchedConcat(a, b[..|b| - 1], touched);
    }
  }

  lemma {:induction false} UntouchedOne(live: seq<LiveEntry>, k: nat, touched: set<nat>)
    requires forall i :: 0 <= i < |live| ==> live[i].manifest == k
    ensures Untouched(live, touched) == if k in touched then [] else PlacedOf(live)
  {
    if |live| > 0 { UntouchedOne(live[..|live| - 1], k, touched); }
  }

  lemma LiveSetSnoc(ms: seq<Manifest>, m: Manifest)
    ensures LiveSet(ms + [m]) == LiveSet(ms) + LiveIn(m, |m.entries|)
    ensures DeletedSet(ms + [m]) == DeletedSet(ms) + DeletedIn(m, |m.entries|)
  {
    assert (ms + [m])[..|ms|] == ms;
  }

  lemma {:induction false} NoneDeleted(m: Manifest, n: nat)
    requires n <= |m.entries| && !HasStale(m, n)
    ensures DeletedIn(m, n) == []
  {
    if n > 0 {
      assert !m.entries[n - 1].status.Deleted?;
      NoneDeleted(m, n - 1);
    }
  }

  lemma UntouchedMore(walked: seq<LiveEntry>, m: Manifest, k: nat, touched: set<nat>)
    ensures Untouched(walked + WalkIn(m, k, |m.entries|), touched)
         == Untouched(walked, touched) + (if k in touched then [] else LiveIn(m, |m.entries|))
  {
    var found := WalkIn(m, k, |m.entries|);
    WalkInPlaces(m, k, |m.entries|);
    UntouchedConcat(walked, found, touched);
    UntouchedOne(found, k, touched);
  }

  /** The carried manifests hold exactly the live entries of the untouched ones, and no stale ones. */
  lemma {:induction false} CarriedHolds(ms: seq<Manifest>, touched: set<nat>)
    requires forall k :: 0 <= k < |ms| && HasStale(ms[k], |ms[k].entries|) ==> k in touched
    ensures LiveSet(Carried(ms, touched)) == Untouched(WalkSet(ms), touched)
    ensures DeletedSet(Carried(ms, touched)) == []
  {
    if |ms| > 0 {
      var init, m, k := ms[..|ms| - 1], ms[|ms| - 1], |ms| - 1;
      CarriedHolds(init, touched);
      UntouchedMore(WalkSet(init), m, k, touched);
      if k !in touched && |LiveIn(m, |m.entries|)| > 0 {
        NoneDeleted(m, |m.entries|);
        LiveSetSnoc(Carried(init, touched), m);
      } else {
        assert Carried(ms, touched) == Carried(init, touched);
        assert k !in touched ==> LiveIn(m, |m.entries|) == [];
      }
    }
  }

  // ---- the replace snapshot ---------------------------------------------------------------------------------

  datatype Totals = Totals(files: nat, records: nat, bytes: nat)

  function RecordsOf(f: DataFile): nat { |f.rows| }
  function BytesOf(f: DataFile): nat { f.size }

  function Sum(files: seq<Placed>, measure: DataFile -> nat): nat {
    if |files| == 0 then 0 else Sum(files[..|files| - 1], measure) + measure(files[|files| - 1].file)
  }

  /** An EXISTING entry keeps the snapshot id it had; the writer stamps its own on a DELETED one. Both
      keep their sequence numbers. */
  function ExistingEntry(e: LiveEntry): Entry {
    Entry(Existing, e.placed.file, Some(e.placed.snapshot), Some(e.placed.seqno), Some(e.placed.fileSeq))
  }

  function DeletedEntry(e: LiveEntry, snapshot: int): Entry {
    Entry(Deleted, e.placed.file, Some(snapshot), Some(e.placed.seqno), Some(e.placed.fileSeq))
  }

  /** The same files at the same sequence numbers, under another snapshot's id. */
  function Stamped(places: seq<Placed>, snapshot: int): (r: seq<Placed>)
    ensures |r| == |places|
    ensures forall i :: 0 <= i < |places| ==> r[i] == places[i].(snapshot := snapshot)
  {
    seq(|places|, i requires 0 <= i < |places| => places[i].(snapshot := snapshot))
  }

  /** The rewritten manifest: kept entries as EXISTING, compacted ones as DELETED by this snapshot, with
      the sequence numbers they had; and the totals of everything kept, carried or rewritten. */
  ghost predicate Rewritten(
    live: seq<LiveEntry>, touched: set<nat>, compacted: set<nat>, m0: Manifest, kept: Totals)
  {
    && multiset(LiveIn(m0, |m0.entries|)) + multiset(Untouched(live, touched)) == multiset(Kept(live, compacted))
    && DeletedIn(m0, |m0.entries|) == Stamped(Replaced(live, compacted), m0.addedSnapshot)
    && KeptTotals(live, compacted, kept)
  }

  ghost predicate KeptTotals(live: seq<LiveEntry>, compacted: set<nat>, kept: Totals) {
    kept == Totals(|Kept(live, compacted)|, Sum(Kept(live, compacted), RecordsOf), Sum(Kept(live, compacted), BytesOf))
  }

  lemma EntriesSnoc(m: Manifest, e: Entry)
    ensures var m' := m.(entries := m.entries + [e]);
            && LiveIn(m', |m'.entries|) == LiveIn(m, |m.entries|) + (if e.status.Deleted? then [] else [Place(m, e)])
            && DeletedIn(m', |m'.entries|) == DeletedIn(m, |m.entries|) + (if e.status.Deleted? then [Place(m, e)] else [])
  {
    SameEntries(m, m.(entries := m.entries + [e]), |m.entries|);
  }

  lemma {:induction false} SameEntries(m: Manifest, n: Manifest, i: nat)
    requires i <= |m.entries| && m.entries <= n.entries && n.seqno == m.seqno && n.addedSnapshot == m.addedSnapshot
    ensures LiveIn(n, i) == LiveIn(m, i) && DeletedIn(n, i) == DeletedIn(m, i)
  {
    if i > 0 { SameEntries(m, n, i - 1); }
  }

  lemma UntouchedStep(live: seq<LiveEntry>, i: nat, touched: set<nat>, compacted: set<nat>)
    requires i < |live|
    ensures Untouched(live[..i + 1], touched)
         == Untouched(live[..i], touched) + (if live[i].manifest !in touched then [live[i].placed] else [])
    ensures Replaced(live[..i + 1], compacted)
         == Replaced(live[..i], compacted) + (if i in compacted then [live[i].placed] else [])
    ensures i in compacted ==> Kept(live[..i + 1], compacted) == Kept(live[..i], compacted)
  {
    assert live[..i + 1][..i] == live[..i];
  }

  function Keep(kept: Totals, e: LiveEntry): Totals {
    Totals(kept.files + 1, kept.records + |e.placed.file.rows|, kept.bytes + e.placed.file.size)
  }

  lemma MultisetSnoc(a: seq<Placed>, x: Placed)
    ensures multiset(a + [x]) == multiset(a) + multiset{x}
  {}

  lemma CarryStep(live: seq<LiveEntry>, i: nat, touched: set<nat>, compacted: set<nat>, m0: Manifest, kept: Totals)
    requires i < |live| && Rewritten(live[..i], touched, compacted, m0, kept)
    requires i !in compacted && live[i].manifest !in touched
    ensures Rewritten(live[..i + 1], touched, compacted, m0, Keep(kept, live[i]))
  {
    UntouchedStep(live, i, touched, compacted);
    KeptStep(live, i, compacted);
    MultisetSnoc(Untouched(live[..i], touched), live[i].placed);
    MultisetSnoc(Kept(live[..i], compacted), live[i].placed);
    CarryTotals(live, i, compacted, kept);
  }

  lemma CarryTotals(live: seq<LiveEntry>, i: nat, compacted: set<nat>, kept: Totals)
    requires i < |live| && i !in compacted && KeptTotals(live[..i], compacted, kept)
    ensures KeptTotals(live[..i + 1], compacted, Keep(kept, live[i]))
  {
    KeptStep(live, i, compacted);
  }

  lemma KeepStep(live: seq<LiveEntry>, i: nat, touched: set<nat>, compacted: set<nat>, m0: Manifest, kept: Totals)
    requires i < |live| && Rewritten(live[..i], touched, compacted, m0, kept)
    requires i !in compacted && live[i].manifest in touched
    ensures Rewritten(live[..i + 1], touched, compacted, m0.(entries := m0.entries + [ExistingEntry(live[i])]),
                      Keep(kept, live[i]))
  {
    EntriesSnoc(m0, ExistingEntry(live[i]));
    assert Place(m0, ExistingEntry(live[i])) == live[i].placed;
    UntouchedStep(live, i, touched, compacted);
    KeptStep(live, i, compacted);
    CarryTotals(live, i, compacted, kept);
    OneMore(LiveIn(m0, |m0.entries|), Untouched(live[..i], touched), Kept(live[..i], compacted), live[i].placed);
    assert Replaced(live[..i + 1], compacted) == Replaced(live[..i], compacted);
  }

  lemma OneMore(a: seq<Placed>, b: seq<Placed>, c: seq<Placed>, x: Placed)
    requires multiset(a) + multiset(b) == multiset(c)
    ensures multiset(a + [x]) + multiset(b + []) == multiset(c + [x])
  {
    assert b + [] == b;
  }

  lemma DeleteStep(live: seq<LiveEntry>, i: nat, touched: set<nat>, compacted: set<nat>, m0: Manifest, kept: Totals)
    requires i < |live| && Rewritten(live[..i], touched, compacted, m0, kept)
    requires i in compacted && live[i].manifest in touched
    ensures Rewritten(live[..i + 1], touched, compacted, m0.(entries := m0.entries + [DeletedEntry(live[i], m0.addedSnapshot)]), kept)
  {
    EntriesSnoc(m0, DeletedEntry(live[i], m0.addedSnapshot));
    assert Place(m0, DeletedEntry(live[i], m0.addedSnapshot)) == live[i].placed.(snapshot := m0.addedSnapshot);
    UntouchedStep(live, i, touched, compacted);
  }

  lemma KeptStep(live: seq<LiveEntry>, i: nat, compacted: set<nat>)
    requires i < |live| && i !in compacted
    ensures var was, now := Kept(live[..i], compacted), Kept(live[..i + 1], compacted);
            && now == was + [live[i].placed]
            && Sum(now, RecordsOf) == Sum(was, RecordsOf) + |live[i].placed.file.rows|
            && Sum(now, BytesOf) == Sum(was, BytesOf) + live[i].placed.file.size
  {
    assert live[..i + 1][..i] == live[..i];
    var was := Kept(live[..i], compacted);
    assert (was + [live[i].placed])[..|was|] == was;
  }

  lemma NothingRewritten(touched: set<nat>, compacted: set<nat>, snapshot: int, nextSeq: int)
    ensures Rewritten([], touched, compacted, Manifest([], snapshot, nextSeq), Totals(0, 0, 0))
  {}

  method RewriteEntry(
    live: seq<LiveEntry>, i: nat, touched: set<nat>, compacted: set<nat>, m: Manifest, sofar: Totals)
    returns (m0: Manifest, kept: Totals)
    requires i < |live| && (i in compacted ==> live[i].manifest in touched)
    requires Rewritten(live[..i], touched, compacted, m, sofar)
    ensures Rewritten(live[..i + 1], touched, compacted, m0, kept)
    ensures m0.addedSnapshot == m.addedSnapshot && m0.seqno == m.seqno
  {
    var e := live[i];
    m0, kept := m, sofar;
    if e.manifest !in touched {
      CarryStep(live, i, touched, compacted, m, sofar);
      kept := Keep(sofar, e);
    } else if i in compacted {
      DeleteStep(live, i, touched, compacted, m, sofar);
      m0 := m.(entries := m.entries + [DeletedEntry(e, m.addedSnapshot)]);
    } else {
      KeepStep(live, i, touched, compacted, m, sofar);
      m0 := m.(entries := m.entries + [ExistingEntry(e)]);
      kept := Keep(sofar, e);
    }
  }

  method RewriteManifest(
    live: seq<LiveEntry>, touched: set<nat>, compacted: set<nat>, snapshot: int, nextSeq: int)
    returns (m0: Manifest, kept: Totals)
    requires forall i :: 0 <= i < |live| && i in compacted ==> live[i].manifest in touched
    ensures Rewritten(live, touched, compacted, m0, kept) && m0.addedSnapshot == snapshot
  {
    m0 := Manifest([], snapshot, nextSeq);
    kept := Totals(0, 0, 0);
    NothingRewritten(touched, compacted, snapshot, nextSeq);
    var i := 0;
    assert live[..0] == [];
    while i < |live|
      invariant 0 <= i <= |live| && m0.addedSnapshot == snapshot
      invariant Rewritten(live[..i], touched, compacted, m0, kept)
    {
      m0, kept := RewriteEntry(live, i, touched, compacted, m0, kept);
      i := i + 1;
    }
    assert live[..|live|] == live;
  }

  // ---- the run ----------------------------------------------------------------------------------------------

  datatype Result =
    | Refused
    | NothingToDo
    | RowCountMismatch
    | Committed(manifests: seq<Manifest>, totals: Totals, compacted: set<nat>)

  function FilesOf(live: seq<LiveEntry>): (r: seq<DataFile>)
    ensures |r| == |live|
    ensures forall i :: 0 <= i < |live| ==> r[i] == live[i].placed.file
  {
    seq(|live|, i requires 0 <= i < |live| => live[i].placed.file)
  }

  function AddedEntries(outputs: seq<DataFile>, snapshot: int): (r: seq<Entry>)
    ensures |r| == |outputs|
    ensures forall i :: 0 <= i < |outputs| ==> r[i] == Entry(Added, outputs[i], Some(snapshot), None, None)
  {
    seq(|outputs|, i requires 0 <= i < |outputs| => Entry(Added, outputs[i], Some(snapshot), None, None))
  }

  function AddedPlaced(outputs: seq<DataFile>, snapshot: int, nextSeq: int): (r: seq<Placed>)
    ensures |r| == |outputs|
    ensures forall i :: 0 <= i < |outputs| ==> r[i] == Placed(outputs[i], snapshot, nextSeq, nextSeq)
  {
    seq(|outputs|, i requires 0 <= i < |outputs| => Placed(outputs[i], snapshot, nextSeq, nextSeq))
  }

  lemma {:induction false} AddedLive(outputs: seq<DataFile>, snapshot: int, nextSeq: int, n: nat)
    requires n <= |outputs|
    ensures var m := Manifest(AddedEntries(outputs, snapshot), snapshot, nextSeq);
            LiveIn(m, n) == AddedPlaced(outputs, snapshot, nextSeq)[..n] && DeletedIn(m, n) == []
  {
    if n > 0 { AddedLive(outputs, snapshot, nextSeq, n - 1); }
  }

  function Indices(inputs: seq<nat>): set<nat> {
    set i | i in inputs
  }

  function InputsOf(g: Group): set<nat> {
    Indices(g.inputs)
  }

  function Compacted(groups: seq<Group>): set<nat> {
    if |groups| == 0 then {} else Compacted(groups[..|groups| - 1]) + InputsOf(groups[|groups| - 1])
  }

  lemma {:induction false} CompactedAre(groups: seq<Group>, i: nat)
    ensures i in Compacted(groups) <==> exists j :: 0 <= j < |groups| && i in groups[j].inputs
  {
    if |groups| > 0 {
      var init := groups[..|groups| - 1];
      CompactedAre(init, i);
      if j :| 0 <= j < |groups| && i in groups[j].inputs && j < |groups| - 1 {
        assert i in init[j].inputs;
      }
    }
  }

  /** The new snapshot accounts for every live file of the old one. */
  ghost predicate Accounts(
    live: seq<LiveEntry>, compacted: set<nat>, added: seq<Placed>, snapshot: int, manifests: seq<Manifest>, totals: Totals)
  {
    && multiset(LiveSet(manifests)) == multiset(Kept(live, compacted)) + multiset(added)
    && DeletedSet(manifests) == Stamped(Replaced(live, compacted), snapshot)
    && totals.files == |Kept(live, compacted)| + |added|
    && totals.records == Sum(Kept(live, compacted), RecordsOf) + Sum(added, RecordsOf)
    && totals.bytes == Sum(Kept(live, compacted), BytesOf) + Sum(added, BytesOf)
  }

  /** The manifests the run does not touch, and the one the touched ones become. */
  method CarryAndRewrite(
    ms: seq<Manifest>, live: seq<LiveEntry>, stats: seq<Stat>, compacted: set<nat>, snapshot: int, nextSeq: int)
    returns (touched: set<nat>, carried: seq<Manifest>, m0: Manifest, kept: Totals)
    requires live == WalkSet(ms) && |stats| == |ms|
    requires forall k :: 0 <= k < |ms| ==>
      stats[k] == Stat(|LiveIn(ms[k], |ms[k].entries|)|, HasStale(ms[k], |ms[k].entries|))
    ensures LiveSet(carried) == Untouched(live, touched) && DeletedSet(carried) == []
    ensures Rewritten(live, touched, compacted, m0, kept) && m0.addedSnapshot == snapshot
  {
    touched := FindTouched(live, stats, compacted);
    carried := CarryManifests(ms, stats, touched);
    CarriedHolds(ms, touched);
    m0, kept := RewriteManifest(live, touched, compacted, snapshot, nextSeq);
  }

  /** Carried manifests, the rewritten one, and one for the outputs. */
  method Produce(
    ms: seq<Manifest>, live: seq<LiveEntry>, stats: seq<Stat>, compacted: set<nat>, outputs: seq<DataFile>,
    snapshot: int, nextSeq: int)
    returns (manifests: seq<Manifest>, totals: Totals)
    requires live == WalkSet(ms) && |stats| == |ms|
    requires forall k :: 0 <= k < |ms| ==>
      stats[k] == Stat(|LiveIn(ms[k], |ms[k].entries|)|, HasStale(ms[k], |ms[k].entries|))
    ensures Accounts(live, compacted, AddedPlaced(outputs, snapshot, nextSeq), snapshot, manifests, totals)
  {
    var touched, carried, m0, kept := CarryAndRewrite(ms, live, stats, compacted, snapshot, nextSeq);
    manifests := carried + [m0];
    var records, bytes := SumOutputs(outputs, snapshot, nextSeq);
    totals := Totals(kept.files + |outputs|, kept.records + records, kept.bytes + bytes);
    var m1 := Manifest(AddedEntries(outputs, snapshot), snapshot, nextSeq);
    if outputs != [] {
      manifests := manifests + [m1];
    }
    Assembled(live, touched, compacted, carried, m0, m1, outputs, kept, totals, manifests);
  }

  lemma Assembled(
    live: seq<LiveEntry>, touched: set<nat>, compacted: set<nat>, carried: seq<Manifest>, m0: Manifest, m1: Manifest,
    outputs: seq<DataFile>, kept: Totals, totals: Totals, manifests: seq<Manifest>)
    requires LiveSet(carried) == Untouched(live, touched) && DeletedSet(carried) == []
    requires Rewritten(live, touched, compacted, m0, kept) && m0.addedSnapshot == m1.addedSnapshot
    requires m1 == Manifest(AddedEntries(outputs, m1.addedSnapshot), m1.addedSnapshot, m1.seqno)
    requires var added := AddedPlaced(outputs, m1.addedSnapshot, m1.seqno);
             totals == Totals(kept.files + |outputs|, kept.records + Sum(added, RecordsOf), kept.bytes + Sum(added, BytesOf))
    requires manifests == carried + [m0] + (if outputs == [] then [] else [m1])
    ensures Accounts(live, compacted, AddedPlaced(outputs, m1.addedSnapshot, m1.seqno), m1.addedSnapshot, manifests, totals)
  {
    var added := AddedPlaced(outputs, m1.addedSnapshot, m1.seqno);
    LiveSetSnoc(carried, m0);
    LiveSetSnoc(carried + [m0], m1);
    AddedLive(outputs, m1.addedSnapshot, m1.seqno, |outputs|);
    assert added[..|outputs|] == added;
    if outputs == [] {
      assert manifests == carried + [m0];
      assert added == [];
    }
    AccountedLive(LiveSet(manifests), LiveSet(carried), LiveIn(m0, |m0.entries|), added, Kept(live, compacted));
  }

  lemma AccountedLive(all: seq<Placed>, carried: seq<Placed>, kept0: seq<Placed>, added: seq<Placed>, kept: seq<Placed>)
    requires all == carried + kept0 + added && multiset(kept0) + multiset(carried) == multiset(kept)
    ensures multiset(all) == multiset(kept) + multiset(added)
  {}

  /** A manifest is rewritten when it holds a compacted file or a stale DELETED entry. */
  method FindTouched(live: seq<LiveEntry>, stats: seq<Stat>, compacted: set<nat>) returns (touched: set<nat>)
    ensures forall i :: 0 <= i < |live| && i in compacted ==> live[i].manifest in touched
    ensures forall k :: 0 <= k < |stats| && stats[k].stale ==> k in touched
    ensures forall k :: k in touched ==>
      (k < |stats| && stats[k].stale) || exists i :: 0 <= i < |live| && i in compacted && live[i].manifest == k
  {
    touched := {};
    var i := 0;
    while i < |live|
      invariant 0 <= i <= |live|
      invariant forall j :: 0 <= j < i && j in compacted ==> live[j].manifest in touched
      invariant forall k :: k in touched ==> exists j :: 0 <= j < |live| && j in compacted && live[j].manifest == k
    {
      if i in compacted {
        touched := touched + {live[i].manifest};
      }
      i := i + 1;
    }
    var k := 0;
    while k < |stats|
      invariant 0 <= k <= |stats|
      invariant forall j :: 0 <= j < |live| && j in compacted ==> live[j].manifest in touched
      invariant forall j :: 0 <= j < k && stats[j].stale ==> j in touched
      invariant forall m :: m in touched ==>
        (m < |stats| && stats[m].stale) || exists j :: 0 <= j < |live| && j in compacted && live[j].manifest == m
    {
      if stats[k].stale {
        touched := touched + {k};
      }
      k := k + 1;
    }
  }

  method CarryManifests(ms: seq<Manifest>, stats: seq<Stat>, touched: set<nat>) returns (carried: seq<Manifest>)
    requires |stats| == |ms| && forall k :: 0 <= k < |ms| ==> stats[k].live == |LiveIn(ms[k], |ms[k].entries|)|
    ensures carried == Carried(ms, touched)
  {
    carried := [];
    var k := 0;
    while k < |ms|
      invariant 0 <= k <= |ms| && carried == Carried(ms[..k], touched)
    {
      assert ms[..k + 1][..k] == ms[..k];
      if k !in touched && stats[k].live > 0 {
        carried := carried + [ms[k]];
      }
      k := k + 1;
    }
    assert ms[..|ms|] == ms;
  }

  method SumOutputs(outputs: seq<DataFile>, snapshot: int, nextSeq: int) returns (records: nat, bytes: nat)
    ensures records == Sum(AddedPlaced(outputs, snapshot, nextSeq), RecordsOf)
    ensures bytes == Sum(AddedPlaced(outputs, snapshot, nextSeq), BytesOf)
  {
    records, bytes := 0, 0;
    var added := AddedPlaced(outputs, snapshot, nextSeq);
    var i := 0;
    while i < |outputs|
      invariant 0 <= i <= |outputs| && records == Sum(added[..i], RecordsOf) && bytes == Sum(added[..i], BytesOf)
    {
      assert added[..i + 1][..i] == added[..i];
      records := records + |outputs[i].rows|;
      bytes := bytes + outputs[i].size;
      i := i + 1;
    }
    assert added[..|added|] == added;
  }

  function GroupRecords(groups: seq<Group>): nat {
    if |groups| == 0 then 0 else GroupRecords(groups[..|groups| - 1]) + groups[|groups| - 1].totalRecords
  }

  // ---- what the groups add up to ----------------------------------------------------------------------------

  /** A measure summed over some input files. */
  function InputSum(files: seq<DataFile>, inputs: seq<nat>, measure: DataFile -> nat): nat
    requires forall i :: 0 <= i < |inputs| ==> inputs[i] < |files|
  {
    if |inputs| == 0 then 0
    else InputSum(files, inputs[..|inputs| - 1], measure) + measure(files[inputs[|inputs| - 1]])
  }

  lemma {:induction false} RecordsAreSum(files: seq<DataFile>, inputs: seq<nat>)
    requires forall i :: 0 <= i < |inputs| ==> inputs[i] < |files|
    ensures Records(files, inputs) == InputSum(files, inputs, RecordsOf)
  {
    if |inputs| > 0 { RecordsAreSum(files, inputs[..|inputs| - 1]); }
  }

  lemma {:induction false} InputSumGrows(files: seq<DataFile>, f: DataFile, inputs: seq<nat>, measure: DataFile -> nat)
    requires forall i :: 0 <= i < |inputs| ==> inputs[i] < |files|
    ensures InputSum(files + [f], inputs, measure) == InputSum(files, inputs, measure)
  {
    if |inputs| > 0 { InputSumGrows(files, f, inputs[..|inputs| - 1], measure); }
  }

  lemma {:induction false} ReplacedLocal(live: seq<LiveEntry>, a: set<nat>, b: set<nat>)
    requires forall i :: 0 <= i < |live| ==> (i in a <==> i in b)
    ensures Replaced(live, a) == Replaced(live, b)
  {
    if |live| > 0 { ReplacedLocal(live[..|live| - 1], a, b); }
  }

  lemma {:induction false} ReplacedUnion(live: seq<LiveEntry>, a: set<nat>, b: set<nat>, measure: DataFile -> nat)
    requires a !! b
    ensures Sum(Replaced(live, a + b), measure) == Sum(Replaced(live, a), measure) + Sum(Replaced(live, b), measure)
  {
    if |live| > 0 {
      var init, last := live[..|live| - 1], live[|live| - 1];
      ReplacedUnion(init, a, b, measure);
      SumSnoc(Replaced(init, a + b), last.placed, measure);
      SumSnoc(Replaced(init, a), last.placed, measure);
      SumSnoc(Replaced(init, b), last.placed, measure);
    }
  }

  lemma SumSnoc(a: seq<Placed>, x: Placed, measure: DataFile -> nat)
    ensures Sum(a + [x], measure) == Sum(a, measure) + measure(x.file) && Sum(a + [], measure) == Sum(a, measure)
  {
    assert (a + [x])[..|a|] == a && a + [] == a;
  }

  lemma SetSnoc(inputs: seq<nat>, n: nat)
    ensures Indices(inputs + [n]) == Indices(inputs) + {n}
  {}

  /** One partition's small files, counted over the live entries. */
  lemma {:induction false} ReplacedMembers(live: seq<LiveEntry>, target: nat, p: nat, measure: DataFile -> nat)
    ensures var files := FilesOf(live);
            var inputs := Members(files, target, p);
            && (forall i :: 0 <= i < |inputs| ==> inputs[i] < |files|)
            && Sum(Replaced(live, Indices(inputs)), measure) == InputSum(files, inputs, measure)
  {
    MembersAre(FilesOf(live), target, p, 0);
    if |live| > 0 {
      var init, last := live[..|live| - 1], live[|live| - 1];
      var files := FilesOf(init);
      var inputs := Members(files, target, p);
      assert FilesOf(live) == files + [last.placed.file];
      ReplacedMembers(init, target, p, measure);
      MembersSnoc(files, last.placed.file, target, p);
      InputSumGrows(files, last.placed.file, inputs, measure);
      if last.placed.file.size < target && last.placed.file.partition == p {
        AlsoReplaced(live, inputs, measure);
        InputSumSnoc(FilesOf(live), inputs, |files|, measure);
      } else {
        NotReplaced(live, inputs, measure);
      }
    }
  }

  lemma InputSumSnoc(files: seq<DataFile>, inputs: seq<nat>, n: nat, measure: DataFile -> nat)
    requires n < |files| && forall i :: 0 <= i < |inputs| ==> inputs[i] < |files|
    ensures InputSum(files, inputs + [n], measure) == InputSum(files, inputs, measure) + measure(files[n])
  {
    assert (inputs + [n])[..|inputs|] == inputs;
  }

  lemma NotReplaced(live: seq<LiveEntry>, inputs: seq<nat>, measure: DataFile -> nat)
    requires |live| > 0 && forall i :: 0 <= i < |inputs| ==> inputs[i] < |live| - 1
    ensures Sum(Replaced(live, Indices(inputs)), measure) == Sum(Replaced(live[..|live| - 1], Indices(inputs)), measure)
  {
    assert |live| - 1 !in Indices(inputs);
    SumSnoc(Replaced(live[..|live| - 1], Indices(inputs)), live[|live| - 1].placed, measure);
  }

  lemma AlsoReplaced(live: seq<LiveEntry>, inputs: seq<nat>, measure: DataFile -> nat)
    requires |live| > 0 && forall i :: 0 <= i < |inputs| ==> inputs[i] < |live| - 1
    ensures Sum(Replaced(live, Indices(inputs + [|live| - 1])), measure)
         == Sum(Replaced(live[..|live| - 1], Indices(inputs)), measure) + measure(live[|live| - 1].placed.file)
  {
    var init, s := live[..|live| - 1], Indices(inputs);
    SetSnoc(inputs, |init|);
    ReplacedLocal(init, s, s + {|init|});
    SumSnoc(Replaced(init, s), live[|init|].placed, measure);
  }

  ghost predicate GroupsPlanned(files: seq<DataFile>, target: nat, groups: seq<Group>) {
    (forall j :: 0 <= j < |groups| ==> GroupOk(files, target, groups[j])) && OnePerPartition(groups)
  }

  function GroupSum(files: seq<DataFile>, groups: seq<Group>, measure: DataFile -> nat): nat
    requires forall j, i :: 0 <= j < |groups| && 0 <= i < |groups[j].inputs| ==> groups[j].inputs[i] < |files|
  {
    if |groups| == 0 then 0
    else GroupSum(files, groups[..|groups| - 1], measure) + InputSum(files, groups[|groups| - 1].inputs, measure)
  }

  lemma GroupApart(files: seq<DataFile>, target: nat, groups: seq<Group>)
    requires |groups| > 0 && GroupsPlanned(files, target, groups)
    ensures Compacted(groups[..|groups| - 1]) !! InputsOf(groups[|groups| - 1])
  {
    var init, last := groups[..|groups| - 1], groups[|groups| - 1];
    forall i | i in Compacted(init) ensures i !in InputsOf(last) {
      CompactedAre(init, i);
      var j :| 0 <= j < |init| && i in init[j].inputs;
      MembersAre(files, target, init[j].partition, i);
      MembersAre(files, target, last.partition, i);
      assert groups[j].partition != last.partition;
    }
  }

  lemma {:induction false} CompactedSum(live: seq<LiveEntry>, target: nat, groups: seq<Group>, measure: DataFile -> nat)
    requires GroupsPlanned(FilesOf(live), target, groups)
    ensures Sum(Replaced(live, Compacted(groups)), measure) == GroupSum(FilesOf(live), groups, measure)
  {
    if |groups| == 0 {
      NoneReplaced(live);
    } else {
      var init, last := groups[..|groups| - 1], groups[|groups| - 1];
      CompactedSum(live, target, init, measure);
      GroupApart(FilesOf(live), target, groups);
      ReplacedUnion(live, Compacted(init), InputsOf(last), measure);
      ReplacedMembers(live, target, last.partition, measure);
    }
  }

  lemma {:induction false} NoneReplaced(live: seq<LiveEntry>)
    ensures Replaced(live, {}) == []
  {
    if |live| > 0 { NoneReplaced(live[..|live| - 1]); }
  }

  lemma {:induction false} GroupRecordsSum(files: seq<DataFile>, target: nat, groups: seq<Group>)
    requires GroupsPlanned(files, target, groups)
    ensures GroupRecords(groups) == GroupSum(files, groups, RecordsOf)
  {
    if |groups| > 0 {
      GroupRecordsSum(files, target, groups[..|groups| - 1]);
      RecordsAreSum(files, groups[|groups| - 1].inputs);
    }
  }

  /** The files a run rewrites: under target, in a partition with enough of them. */
  ghost function ToCompact(live: seq<LiveEntry>, target: nat, min: nat): set<nat> {
    set i | 0 <= i < |live| && live[i].placed.file.size < target
            && |Members(FilesOf(live), target, live[i].placed.file.partition)| >= min
  }

  ghost predicate SomethingToDo(live: seq<LiveEntry>, target: nat, min: nat) {
    exists p :: |Members(FilesOf(live), target, p)| >= min
  }

  // ---- rewriting the groups ---------------------------------------------------------------------------------

  function RowsIn(files: seq<DataFile>): seq<Row> {
    if |files| == 0 then [] else RowsIn(files[..|files| - 1]) + files[|files| - 1].rows
  }

  function RowsAt(files: seq<DataFile>, inputs: seq<nat>): seq<Row>
    requires forall i :: 0 <= i < |inputs| ==> inputs[i] < |files|
  {
    if |inputs| == 0 then [] else RowsAt(files, inputs[..|inputs| - 1]) + files[inputs[|inputs| - 1]].rows
  }

  lemma RowsInSnoc(files: seq<DataFile>, f: DataFile)
    ensures RowsIn(files + [f]) == RowsIn(files) + f.rows
  {
    assert (files + [f])[..|files|] == files;
  }

  /** The rolling writer takes a batch, and closes an output behind it once it has enough; `size` and
      `full` stand for the encoder. */
  method WriteBatch(
    done: seq<DataFile>, held: seq<Row>, batch: seq<Row>, full: seq<Row> -> bool, size: seq<Row> -> nat,
    path: nat, partition: nat)
    returns (outs: seq<DataFile>, open: seq<Row>)
    requires forall o :: o in done ==> o.partition == partition && o.rows != []
    ensures RowsIn(outs) + open == RowsIn(done) + held + batch
    ensures forall o :: o in outs ==> o.partition == partition && o.rows != []
  {
    outs, open := done, held + batch;
    if open != [] && full(open) {
      var f := DataFile(path + |done|, size(open), open, partition);
      RowsInSnoc(done, f);
      outs, open := done + [f], [];
    }
  }

  method WriteBatches(
    done: seq<DataFile>, held: seq<Row>, batches: seq<seq<Row>>, full: seq<Row> -> bool, size: seq<Row> -> nat,
    path: nat, partition: nat)
    returns (outs: seq<DataFile>, open: seq<Row>)
    requires forall o :: o in done ==> o.partition == partition && o.rows != []
    ensures RowsIn(outs) + open == RowsIn(done) + held + Flatten(batches)
    ensures forall o :: o in outs ==> o.partition == partition && o.rows != []
  {
    outs, open := done, held;
    var j := 0;
    while j < |batches|
      invariant 0 <= j <= |batches| && RowsIn(outs) + open == RowsIn(done) + held + Flatten(batches[..j])
      invariant forall o :: o in outs ==> o.partition == partition && o.rows != []
    {
      assert batches[..j + 1][..j] == batches[..j];
      outs, open := WriteBatch(outs, open, batches[j], full, size, path, partition);
      j := j + 1;
    }
    assert batches[..|batches|] == batches;
  }

  /** One group through one rolling writer: its files read one after another, batch by batch as `cut`
      reads them. */
  method RewriteGroup(
    files: seq<DataFile>, g: Group, cut: seq<Row> -> seq<seq<Row>>, full: seq<Row> -> bool, size: seq<Row> -> nat, path: nat)
    returns (outs: seq<DataFile>)
    requires forall i :: 0 <= i < |g.inputs| ==> g.inputs[i] < |files|
    requires forall rows :: Flatten(cut(rows)) == rows
    ensures RowsIn(outs) == RowsAt(files, g.inputs)
    ensures forall o :: o in outs ==> o.partition == g.partition && o.rows != []
  {
    outs := [];
    var open: seq<Row> := [];
    var i := 0;
    while i < |g.inputs|
      invariant 0 <= i <= |g.inputs| && RowsIn(outs) + open == RowsAt(files, g.inputs[..i])
      invariant forall o :: o in outs ==> o.partition == g.partition && o.rows != []
    {
      assert g.inputs[..i + 1][..i] == g.inputs[..i];
      outs, open := WriteBatches(outs, open, cut(files[g.inputs[i]].rows), full, size, path, g.partition);
      i := i + 1;
    }
    assert g.inputs[..|g.inputs|] == g.inputs;
    if open != [] {
      RowsInSnoc(outs, DataFile(path + |outs|, size(open), open, g.partition));
      outs := outs + [DataFile(path + |outs|, size(open), open, g.partition)];
    }
  }

  function GroupRows(files: seq<DataFile>, groups: seq<Group>): seq<Row>
    requires forall j, i :: 0 <= j < |groups| && 0 <= i < |groups[j].inputs| ==> groups[j].inputs[i] < |files|
  {
    if |groups| == 0 then [] else GroupRows(files, groups[..|groups| - 1]) + RowsAt(files, groups[|groups| - 1].inputs)
  }

  lemma SnocConcat(a: seq<DataFile>, b: seq<DataFile>)
    requires |b| > 0
    ensures b == b[..|b| - 1] + [b[|b| - 1]]
    ensures a + b == (a + b[..|b| - 1]) + [b[|b| - 1]]
  {}

  lemma SumsAssociate(a: seq<Row>, b: seq<Row>, c: seq<Row>)
    ensures (a + b) + c == a + (b + c)
  {}

  lemma {:induction false} RowsInConcat(a: seq<DataFile>, b: seq<DataFile>)
    ensures RowsIn(a + b) == RowsIn(a) + RowsIn(b)
    decreases |b|
  {
    if |b| == 0 {
      assert a + b == a;
    } else {
      var init, last := b[..|b| - 1], b[|b| - 1];
      RowsInConcat(a, init);
      SnocConcat(a, b);
      RowsInSnoc(a + init, last);
      RowsInSnoc(init, last);
      SumsAssociate(RowsIn(a), RowsIn(init), last.rows);
    }
  }

  /** Every group through a writer of its own. */
  method RewriteGroups(
    files: seq<DataFile>, groups: seq<Group>, cut: seq<Row> -> seq<seq<Row>>, full: seq<Row> -> bool,
    size: seq<Row> -> nat, path: nat)
    returns (outs: seq<DataFile>)
    requires forall j, i :: 0 <= j < |groups| && 0 <= i < |groups[j].inputs| ==> groups[j].inputs[i] < |files|
    requires forall rows :: Flatten(cut(rows)) == rows
    ensures RowsIn(outs) == GroupRows(files, groups)
  {
    outs := [];
    var j := 0;
    while j < |groups|
      invariant 0 <= j <= |groups| && RowsIn(outs) == GroupRows(files, groups[..j])
    {
      assert groups[..j + 1][..j] == groups[..j];
      var more := RewriteGroup(files, groups[j], cut, full, size, path + |outs|);
      RowsInConcat(outs, more);
      outs := outs + more;
      j := j + 1;
    }
    assert groups[..|groups|] == groups;
  }

  /** The replace snapshot for whatever files were written: refused exactly when they do not hold as many
      rows as the files they replace. */
  method CommitOutputs(
    ms: seq<Manifest>, live: seq<LiveEntry>, stats: seq<Stat>, target: nat, groups: seq<Group>, outputs: seq<DataFile>,
    snapshot: int, nextSeq: int)
    returns (res: Result)
    requires live == WalkSet(ms) && |stats| == |ms| && GroupsPlanned(FilesOf(live), target, groups)
    requires forall k :: 0 <= k < |ms| ==>
      stats[k] == Stat(|LiveIn(ms[k], |ms[k].entries|)|, HasStale(ms[k], |ms[k].entries|))
    ensures res.Committed? || res.RowCountMismatch?
    ensures res.Committed? <==>
      Sum(AddedPlaced(outputs, snapshot, nextSeq), RecordsOf) == Sum(Replaced(live, Compacted(groups)), RecordsOf)
    ensures res.Committed? ==>
      && res.compacted == Compacted(groups)
      && Accounts(live, res.compacted, AddedPlaced(outputs, snapshot, nextSeq), snapshot, res.manifests, res.totals)
  {
    CompactedSum(live, target, groups, RecordsOf);
    GroupRecordsSum(FilesOf(live), target, groups);
    var written, _ := SumOutputs(outputs, snapshot, nextSeq);
    var read := ReadRecords(groups);
    if written != read {
      return RowCountMismatch;
    }
    var manifests, totals := Produce(ms, live, stats, Compacted(groups), outputs, snapshot, nextSeq);
    res := Committed(manifests, totals, Compacted(groups));
  }

  lemma PlannedSet(live: seq<LiveEntry>, target: nat, min: nat, groups: seq<Group>)
    requires forall j :: 0 <= j < |groups| ==> GroupOk(FilesOf(live), target, groups[j])
    requires min >= 1
    requires forall p :: HasGroup(groups, p) <==>
               Members(FilesOf(live), target, p) != [] && |Members(FilesOf(live), target, p)| >= min
    ensures Compacted(groups) == ToCompact(live, target, min)
  {
    forall i: nat ensures i in Compacted(groups) <==> i in ToCompact(live, target, min) {
      PlannedFile(FilesOf(live), target, min, groups, i);
    }
  }

  method ReadRecords(groups: seq<Group>) returns (records: nat)
    ensures records == GroupRecords(groups)
  {
    records := 0;
    var i := 0;
    while i < |groups|
      invariant 0 <= i <= |groups| && records == GroupRecords(groups[..i])
    {
      assert groups[..i + 1][..i] == groups[..i];
      records := records + groups[i].totalRecords;
      i := i + 1;
    }
    assert groups[..|groups|] == groups;
  }

  /** A file is rewritten exactly when it is under target in a partition with enough of them. */
  lemma PlannedFile(files: seq<DataFile>, target: nat, min: nat, groups: seq<Group>, i: nat)
    requires forall j :: 0 <= j < |groups| ==> GroupOk(files, target, groups[j])
    requires min >= 1
    requires forall p :: HasGroup(groups, p) <==> Members(files, target, p) != [] && |Members(files, target, p)| >= min
    ensures i in Compacted(groups) <==>
      i < |files| && files[i].size < target && |Members(files, target, files[i].partition)| >= min
  {
    CompactedAre(groups, i);
    if i in Compacted(groups) {
      var j :| 0 <= j < |groups| && i in groups[j].inputs;
      MembersAre(files, target, groups[j].partition, i);
      assert HasGroup(groups, groups[j].partition);
    }
    if i < |files| && files[i].size < target && |Members(files, target, files[i].partition)| >= min {
      var j :| 0 <= j < |groups| && groups[j].partition == files[i].partition;
      MembersAre(files, target, files[i].partition, i);
      assert i in groups[j].inputs;
    }
  }

  // ---- conservation -----------------------------------------------------------------------------------------

  lemma {:induction false} KeptAndReplaced(live: seq<LiveEntry>, compacted: set<nat>)
    ensures multiset(PlacedOf(live)) == multiset(Kept(live, compacted)) + multiset(Replaced(live, compacted))
  {
    if |live| > 0 {
      var init, last := live[..|live| - 1], live[|live| - 1];
      KeptAndReplaced(init, compacted);
      assert PlacedOf(live) == PlacedOf(init) + [last.placed];
    }
  }

  lemma StampedConcat(a: seq<Placed>, b: seq<Placed>, snapshot: int)
    ensures Stamped(a + b, snapshot) == Stamped(a, snapshot) + Stamped(b, snapshot)
  {}

  lemma {:induction false} StampedPermuted(a: seq<Placed>, b: seq<Placed>, snapshot: int)
    requires multiset(a) == multiset(b)
    ensures multiset(Stamped(a, snapshot)) == multiset(Stamped(b, snapshot))
    decreases |a|
  {
    SameCard(a, b);
    if |a| > 0 {
      var init, x := a[..|a| - 1], a[|a| - 1];
      assert x in multiset(b);
      var i :| 0 <= i < |b| && b[i] == x;
      var left, right := b[..i], b[i + 1..];
      assert a == init + [x] && b == left + [x] + right;
      WithoutOne(init, x, left, right);
      StampedPermuted(init, left + right, snapshot);
      StampedAround(init, x, left, right, snapshot);
    }
  }

  lemma StampedAround(init: seq<Placed>, x: Placed, left: seq<Placed>, right: seq<Placed>, snapshot: int)
    requires multiset(Stamped(init, snapshot)) == multiset(Stamped(left + right, snapshot))
    ensures multiset(Stamped(init + [x], snapshot)) == multiset(Stamped(left + [x] + right, snapshot))
  {
    StampedConcat(init, [x], snapshot);
    StampedConcat(left + [x], right, snapshot);
    StampedConcat(left, [x], snapshot);
    StampedConcat(left, right, snapshot);
  }

  /** Every formerly live file is live once more, entry unchanged, or DELETED once by this snapshot; file
      by file with its data and file sequence numbers nothing is lost or doubled, nothing else is live but
      the outputs, and no stale DELETED entry is left. */
  lemma CompactionConserves(
    ms: seq<Manifest>, compacted: set<nat>, added: seq<Placed>, snapshot: int, manifests: seq<Manifest>, totals: Totals)
    requires Accounts(WalkSet(ms), compacted, added, snapshot, manifests, totals)
    ensures multiset(LiveSet(manifests)) <= multiset(LiveSet(ms)) + multiset(added)
    ensures multiset(Stamped(LiveSet(ms), snapshot)) + multiset(Stamped(added, snapshot))
         == multiset(Stamped(LiveSet(manifests), snapshot)) + multiset(DeletedSet(manifests))
    ensures forall d :: d in DeletedSet(manifests) ==> d.snapshot == snapshot
    ensures |DeletedSet(manifests)| == |Replaced(WalkSet(ms), compacted)|
    ensures totals == Totals(|LiveSet(manifests)|, Sum(LiveSet(manifests), RecordsOf), Sum(LiveSet(manifests), BytesOf))
  {
    var live := WalkSet(ms);
    var kept, gone := Kept(live, compacted), Replaced(live, compacted);
    WalkSetPlaces(ms);
    KeptAndReplaced(live, compacted);
    var now := kept + added;
    assert multiset(LiveSet(manifests)) == multiset(now);
    ConservedStamps(LiveSet(ms), LiveSet(manifests), kept, gone, added, snapshot);
    ConservedTotals(LiveSet(manifests), kept, added);
  }

  lemma ConservedStamps(
    was: seq<Placed>, now: seq<Placed>, kept: seq<Placed>, gone: seq<Placed>, added: seq<Placed>, snapshot: int)
    requires multiset(was) == multiset(kept) + multiset(gone) && multiset(now) == multiset(kept) + multiset(added)
    ensures multiset(Stamped(was, snapshot)) + multiset(Stamped(added, snapshot))
         == multiset(Stamped(now, snapshot)) + multiset(Stamped(gone, snapshot))
  {
    assert multiset(kept + gone) == multiset(was) && multiset(kept + added) == multiset(now);
    StampedPermuted(was, kept + gone, snapshot);
    StampedPermuted(now, kept + added, snapshot);
    StampedConcat(kept, gone, snapshot);
    StampedConcat(kept, added, snapshot);
  }

  lemma ConservedTotals(live: seq<Placed>, kept: seq<Placed>, added: seq<Placed>)
    requires multiset(live) == multiset(kept) + multiset(added)
    ensures |live| == |kept| + |added|
    ensures Sum(live, RecordsOf) == Sum(kept, RecordsOf) + Sum(added, RecordsOf)
    ensures Sum(live, BytesOf) == Sum(kept, BytesOf) + Sum(added, BytesOf)
  {
    var now := kept + added;
    SameCard(live, now);
    SumPermuted(live, now, RecordsOf);
    SumPermuted(live, now, BytesOf);
    SumConcat(kept, added, RecordsOf);
    SumConcat(kept, added, BytesOf);
  }

  lemma SameCard(a: seq<Placed>, b: seq<Placed>)
    requires multiset(a) == multiset(b)
    ensures |a| == |b|
  {
    assert |multiset(a)| == |a| && |multiset(b)| == |b|;
  }

  lemma {:induction false} SumConcat(a: seq<Placed>, b: seq<Placed>, measure: DataFile -> nat)
    ensures Sum(a + b, measure) == Sum(a, measure) + Sum(b, measure)
    decreases |b|
  {
    if |b| == 0 {
      assert a + b == a;
    } else {
      assert (a + b)[..|a + b| - 1] == a + b[..|b| - 1];
      SumConcat(a, b[..|b| - 1], measure);
    }
  }

  lemma {:induction false} SumPermuted(a: seq<Placed>, b: seq<Placed>, measure: DataFile -> nat)
    requires multiset(a) == multiset(b)
    ensures Sum(a, measure) == Sum(b, measure)
    decreases |a|
  {
    SameCard(a, b);
    if |a| > 0 {
      var x := a[|a| - 1];
      assert x in multiset(b);
      var i :| 0 <= i < |b| && b[i] == x;
      var less := b[..i] + b[i + 1..];
      assert a == a[..|a| - 1] + [x] && b == b[..i] + [x] + b[i + 1..];
      WithoutOne(a[..|a| - 1], x, b[..i], b[i + 1..]);
      SumPermuted(a[..|a| - 1], less, measure);
      SumInsert(b[..i], x, b[i + 1..], measure);
    }
  }

  lemma WithoutOne(a: seq<Placed>, x: Placed, left: seq<Placed>, right: seq<Placed>)
    requires multiset(a + [x]) == multiset(left + [x] + right)
    ensures multiset(a) == multiset(left + right)
  {
    assert multiset(a) == multiset(a + [x]) - multiset{x};
    assert multiset(left + right) == multiset(left + [x] + right) - multiset{x};
  }

  lemma SumInsert(left: seq<Placed>, x: Placed, right: seq<Placed>, measure: DataFile -> nat)
    ensures Sum(left + [x] + right, measure) == Sum(left + right, measure) + measure(x.file)
  {
    SumConcat(left + [x], right, measure);
    SumConcat(left, [x], measure);
    SumConcat(left, right, measure);
    assert [x][..0] == [];
  }

  function CountOf(r: Row): DataFile -> nat {
    (f: DataFile) => multiset(f.rows)[r]
  }

  /** When the outputs hold the rows of the files they replace, the table holds every row as often as
      before. */
  lemma RowsConserved(
    ms: seq<Manifest>, compacted: set<nat>, added: seq<Placed>, snapshot: int, manifests: seq<Manifest>, totals: Totals,
    r: Row)
    requires Accounts(WalkSet(ms), compacted, added, snapshot, manifests, totals)
    requires Sum(added, CountOf(r)) == Sum(Replaced(WalkSet(ms), compacted), CountOf(r))
    ensures Sum(LiveSet(manifests), CountOf(r)) == Sum(LiveSet(ms), CountOf(r))
  {
    var live := WalkSet(ms);
    var kept, gone := Kept(live, compacted), Replaced(live, compacted);
    WalkSetPlaces(ms);
    KeptAndReplaced(live, compacted);
    SumPermuted(LiveSet(ms), kept + gone, CountOf(r));
    SumPermuted(LiveSet(manifests), kept + added, CountOf(r));
    SumConcat(kept, gone, CountOf(r));
    SumConcat(kept, added, CountOf(r));
  }

  lemma {:induction false} RowsCounted(outs: seq<DataFile>, snapshot: int, nextSeq: int, r: Row, n: nat)
    requires n <= |outs|
    ensures Sum(AddedPlaced(outs, snapshot, nextSeq)[..n], CountOf(r)) == multiset(RowsIn(outs[..n]))[r]
  {
    var added := AddedPlaced(outs, snapshot, nextSeq);
    if n > 0 {
      RowsCounted(outs, snapshot, nextSeq, r, n - 1);
      assert added[..n][..n - 1] == added[..n - 1] && outs[..n][..n - 1] == outs[..n - 1];
    }
  }

  lemma {:induction false} InputsCounted(files: seq<DataFile>, inputs: seq<nat>, r: Row)
    requires forall i :: 0 <= i < |inputs| ==> inputs[i] < |files|
    ensures InputSum(files, inputs, CountOf(r)) == multiset(RowsAt(files, inputs))[r]
  {
    if |inputs| > 0 { InputsCounted(files, inputs[..|inputs| - 1], r); }
  }

  lemma {:induction false} GroupsCounted(files: seq<DataFile>, groups: seq<Group>, r: Row)
    requires forall j, i :: 0 <= j < |groups| && 0 <= i < |groups[j].inputs| ==> groups[j].inputs[i] < |files|
    ensures GroupSum(files, groups, CountOf(r)) == multiset(GroupRows(files, groups))[r]
  {
    if |groups| > 0 {
      GroupsCounted(files, groups[..|groups| - 1], r);
      InputsCounted(files, groups[|groups| - 1].inputs, r);
    }
  }

  /** What the rewrite writes holds every row as often as the files it replaces: the table keeps every
      row as often as it had it. */
  lemma RewriteConserves(
    ms: seq<Manifest>, target: nat, groups: seq<Group>, outs: seq<DataFile>, snapshot: int, nextSeq: int,
    manifests: seq<Manifest>, totals: Totals, r: Row)
    requires GroupsPlanned(FilesOf(WalkSet(ms)), target, groups) && RowsIn(outs) == GroupRows(FilesOf(WalkSet(ms)), groups)
    requires Accounts(WalkSet(ms), Compacted(groups), AddedPlaced(outs, snapshot, nextSeq), snapshot, manifests, totals)
    ensures Sum(LiveSet(manifests), CountOf(r)) == Sum(LiveSet(ms), CountOf(r))
  {
    var added := AddedPlaced(outs, snapshot, nextSeq);
    RowsCounted(outs, snapshot, nextSeq, r, |outs|);
    assert added[..|outs|] == added && outs[..|outs|] == outs;
    GroupsCounted(FilesOf(WalkSet(ms)), groups, r);
    CompactedSum(WalkSet(ms), target, groups, CountOf(r));
    RowsConserved(ms, Compacted(groups), added, snapshot, manifests, totals, r);
  }

  lemma {:induction false} RecordsWritten(outs: seq<DataFile>, snapshot: int, nextSeq: int, n: nat)
    requires n <= |outs|
    ensures Sum(AddedPlaced(outs, snapshot, nextSeq)[..n], RecordsOf) == |RowsIn(outs[..n])|
  {
    var added := AddedPlaced(outs, snapshot, nextSeq);
    if n > 0 {
      RecordsWritten(outs, snapshot, nextSeq, n - 1);
      assert added[..n][..n - 1] == added[..n - 1] && outs[..n][..n - 1] == outs[..n - 1];
    }
  }

  lemma {:induction false} InputRecords(files: seq<DataFile>, inputs: seq<nat>)
    requires forall i :: 0 <= i < |inputs| ==> inputs[i] < |files|
    ensures InputSum(files, inputs, RecordsOf) == |RowsAt(files, inputs)|
  {
    if |inputs| > 0 { InputRecords(files, inputs[..|inputs| - 1]); }
  }

  lemma {:induction false} GroupsRecords(files: seq<DataFile>, groups: seq<Group>)
    requires forall j, i :: 0 <= j < |groups| && 0 <= i < |groups[j].inputs| ==> groups[j].inputs[i] < |files|
    ensures GroupSum(files, groups, RecordsOf) == |GroupRows(files, groups)|
  {
    if |groups| > 0 {
      GroupsRecords(files, groups[..|groups| - 1]);
      InputRecords(files, groups[|groups| - 1].inputs);
    }
  }

  /** What the rewriting loop writes passes the row count test. */
  lemma RewriteCounts(
    live: seq<LiveEntry>, target: nat, groups: seq<Group>, outs: seq<DataFile>, snapshot: int, nextSeq: int)
    requires GroupsPlanned(FilesOf(live), target, groups) && RowsIn(outs) == GroupRows(FilesOf(live), groups)
    ensures Sum(AddedPlaced(outs, snapshot, nextSeq), RecordsOf) == Sum(Replaced(live, Compacted(groups)), RecordsOf)
  {
    var added := AddedPlaced(outs, snapshot, nextSeq);
    RecordsWritten(outs, snapshot, nextSeq, |outs|);
    assert added[..|outs|] == added && outs[..|outs|] == outs;
    GroupsRecords(FilesOf(live), groups);
    CompactedSum(live, target, groups, RecordsOf);
  }

  // ---- the run ----------------------------------------------------------------------------------------------

  /** Compact a table: plan over its live files, refuse a threshold that cannot reduce the file count,
      rewrite the groups, and commit what was written. However the files are cut into batches and the
      outputs closed, the row count never refuses, and the table holds every row as often as before. */
  method Compact(
    ms: seq<Manifest>, target: nat, min: nat, cut: seq<Row> -> seq<seq<Row>>, full: seq<Row> -> bool,
    size: seq<Row> -> nat, path: nat, snapshot: int, nextSeq: int)
    returns (res: Result, outs: seq<DataFile>)
    requires forall rows :: Flatten(cut(rows)) == rows
    ensures res.Refused? <==> min < 2
    ensures res.NothingToDo? <==> min >= 2 && !SomethingToDo(WalkSet(ms), target, min)
    ensures res.Committed? <==> min >= 2 && SomethingToDo(WalkSet(ms), target, min)
    ensures res.Committed? ==>
      && res.compacted == ToCompact(WalkSet(ms), target, min)
      && Accounts(WalkSet(ms), res.compacted, AddedPlaced(outs, snapshot, nextSeq), snapshot, res.manifests, res.totals)
    ensures res.Committed? ==> forall r: Row :: Sum(LiveSet(res.manifests), CountOf(r)) == Sum(LiveSet(ms), CountOf(r))
  {
    outs := [];
    if min < 2 {
      return Refused, [];
    }
    var live, stats := Walk(ms);
    var files := FilesOf(live);
    var groups := PlanCompaction(files, target, min);
    if groups == [] {
      forall p ensures |Members(files, target, p)| < min { assert !HasGroup(groups, p); }
      return NothingToDo, [];
    }
    assert HasGroup(groups, groups[0].partition) && |Members(files, target, groups[0].partition)| >= min;
    PlannedSet(live, target, min, groups);
    PlannedInputs(files, target, groups);
    outs := RewriteGroups(files, groups, cut, full, size, path);
    RewriteCounts(live, target, groups, outs, snapshot, nextSeq);
    res := CommitOutputs(ms, live, stats, target, groups, outs, snapshot, nextSeq);
    forall r: Row ensures Sum(LiveSet(res.manifests), CountOf(r)) == Sum(LiveSet(ms), CountOf(r)) {
      RewriteConserves(ms, target, groups, outs, snapshot, nextSeq, res.manifests, res.totals, r);
    }
  }

  lemma PlannedInputs(files: seq<DataFile>, target: nat, groups: seq<Group>)
    requires GroupsPlanned(files, target, groups)
    ensures forall j, i :: 0 <= j < |groups| && 0 <= i < |groups[j].inputs| ==> groups[j].inputs[i] < |files|
  {}
}
