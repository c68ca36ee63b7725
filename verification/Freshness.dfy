/** Bounded-staleness reads: the freshness generations, the guarded install of the cache, and the
    interleavings of loads, installs, commits, invalidations and scans. */
module Freshness {
  import opened Rows
  import opened Paths

  /** What a table's cache holds: a metadata version and the generation its load began at. */
  datatype Cached = Cached(version: nat, loadedGen: nat)

  /** The part a server keeps per table. */
  datatype Cache = Cache(writeGen: nat, freshGen: nat, cached: Option<Cached>)

  const BORN := Cache(1, 0, None)

  predicate IsFresh(c: Cache) {
    c.freshGen == c.writeGen
  }

  function Completed(c: Cache, token: nat): Cache {
    c.(freshGen := Max(c.freshGen, token))
  }

  /** A load that began before the installed one must not replace it. */
  function Installed(c: Cache, version: nat, token: nat): Cache {
    if c.cached.Some? && c.cached.value.loadedGen > token then c
    else c.(cached := Some(Cached(version, token)))
  }

  function Invalidated(c: Cache): Cache {
    c.(writeGen := c.writeGen + 1)
  }

  predicate SameVersion(c: Cache, version: nat) {
    c.cached.Some? && c.cached.value.version == version
  }

  // ---- the object ---------------------------------------------------------------------------------------

  class TableCache {
    var writeGen: nat
    var freshGen: nat
    var cached: Option<Cached>

    function State(): Cache
      reads this
    {
      Cache(writeGen, freshGen, cached)
    }

    constructor ()
      ensures State() == BORN
    {
      writeGen, freshGen, cached := 1, 0, None;
    }

    method BeginLoad() returns (token: nat)
      ensures token == State().writeGen
    {
      token := writeGen;
    }

    method CompleteLoad(token: nat)
      modifies this
      ensures State() == Completed(old(State()), token)
      ensures token <= freshGen && old(freshGen) <= freshGen && (freshGen == token || freshGen == old(freshGen))
      ensures writeGen == old(writeGen) && cached == old(cached)
    {
      if token > freshGen {
        freshGen := token;
      }
    }

    /** A local write committed, or may have: the next scan must load. */
    method Invalidate()
      modifies this
      ensures State() == Invalidated(old(State()))
      ensures old(State()).freshGen <= old(State()).writeGen ==> !IsFresh(State())
    {
      writeGen := writeGen + 1;
    }

    /** The fast path: the cached version, if the cache is fresh. */
    method ServeFresh() returns (version: Option<nat>)
      ensures version == if IsFresh(State()) && State().cached.Some? then Some(State().cached.value.version) else None
    {
      if freshGen == writeGen && cached.Some? {
        return Some(cached.value.version);
      }
      return None;
    }

    /** The load found the version that is already cached: mark fresh, install nothing. */
    method TryMatch(version: nat, token: nat) returns (matched: bool)
      modifies this
      ensures matched == SameVersion(old(State()), version)
      ensures State() == if matched then Completed(old(State()), token) else old(State())
    {
      matched := cached.Some? && cached.value.version == version;
      if matched {
        CompleteLoad(token);
      }
    }

    method Install(version: nat, token: nat)
      modifies this
      ensures State() == Installed(old(State()), version, token)
    {
      if cached.None? || cached.value.loadedGen <= token {
        cached := Some(Cached(version, token));
      }
    }
  }

  // ---- the protocol ----------------------------------------------------------------------------------------

  /** A load: begun, holding the version it fetched, or installed and about to complete. */
  datatype Load = Begun(token: nat) | Fetched(token: nat, version: nat) | Settled(token: nat, version: nat)

  /** A scan remembers the floor it started at; on the fast path it saw a fresh cache and has not read
      it yet, on the slow path it serves what its own load brings. */
  datatype Scan = Fast(floor: nat) | Slow(floor: nat, load: nat)

  /** The catalog's newest version, the cache, loads and scans in progress; `floors[g]` is the newest
      version whose commit had been invalidated when the write generation became `g`. */
  datatype State = State(
    catalog: nat, cache: Cache, loads: map<nat, Load>, scans: map<nat, Scan>, floors: seq<nat>, committed: set<nat>)

  datatype Step =
    | Begin(load: nat)
    | Fetch(load: nat)
    | Match(load: nat)
    | Mismatch(load: nat)
    | Complete(load: nat)
    | LocalCommit
    | ForeignCommit
    | Invalidate(version: nat)
    | ScanFast(scan: nat)
    | ScanSlow(scan: nat, load: nat)
    | Serve(scan: nat, version: nat)

  function Floor(s: State): nat {
    if s.cache.writeGen < |s.floors| then s.floors[s.cache.writeGen] else 0
  }

  predicate Enabled(s: State, step: Step) {
    match step
    case Begin(l) => l !in s.loads
    case Fetch(l) => l in s.loads && s.loads[l].Begun?
    case Match(l) => l in s.loads && s.loads[l].Fetched? && SameVersion(s.cache, s.loads[l].version)
    case Mismatch(l) => l in s.loads && s.loads[l].Fetched?
    case Complete(l) => l in s.loads && s.loads[l].Settled?
    case LocalCommit => true
    case ForeignCommit => true
    case Invalidate(v) => v in s.committed
    case ScanFast(q) => q !in s.scans && IsFresh(s.cache) && s.cache.cached.Some?
    case ScanSlow(q, l) => q !in s.scans && l !in s.loads
    case Serve(q, v) =>
      && q in s.scans
      && match s.scans[q]
         case Fast(_) => SameVersion(s.cache, v)
         case Slow(_, l) => l in s.loads && (s.loads[l].Settled? || (s.loads[l].Fetched? && SameVersion(s.cache, v))) && s.loads[l].version == v
  }

  function Do(s: State, step: Step): State
    requires Enabled(s, step)
  {
    match step
    case Begin(l) => s.(loads := s.loads[l := Begun(s.cache.writeGen)])
    case Fetch(l) => s.(loads := s.loads[l := Fetched(s.loads[l].token, s.catalog)])
    case Match(l) => s.(cache := Completed(s.cache, s.loads[l].token), loads := s.loads - {l})
    case Mismatch(l) =>
      s.(cache := Installed(s.cache, s.loads[l].version, s.loads[l].token),
         loads := s.loads[l := Settled(s.loads[l].token, s.loads[l].version)])
    case Complete(l) => s.(cache := Completed(s.cache, s.loads[l].token), loads := s.loads - {l})
    case LocalCommit => s.(catalog := s.catalog + 1, committed := s.committed + {s.catalog + 1})
    case ForeignCommit => s.(catalog := s.catalog + 1)
    case Invalidate(v) =>
      s.(cache := Invalidated(s.cache), committed := s.committed - {v}, floors := s.floors + [Max(Floor(s), v)])
    case ScanFast(q) => s.(scans := s.scans[q := Fast(Floor(s))])
    case ScanSlow(q, l) => s.(scans := s.scans[q := Slow(Floor(s), l)], loads := s.loads[l := Begun(s.cache.writeGen)])
    case Serve(q, _) => s.(scans := s.scans - {q})
  }

  /** A straggler: it fetched before, it may still install over what is cached, and what it holds is
      older than the newest invalidated commit. */
  predicate Straggler(s: State, l: nat) {
    && l in s.loads && s.loads[l].Fetched?
    && (s.cache.cached.Some? ==> s.cache.cached.value.loadedGen <= s.loads[l].token)
    && s.loads[l].version < Floor(s)
  }

  /** H4: no version match makes the cache fresh while a straggler can still install. */
  ghost predicate Assumed(s: State, step: Step)
    requires Enabled(s, step)
  {
    step.Match? && s.loads[step.load].token == s.cache.writeGen ==> forall l :: l != step.load ==> !Straggler(s, l)
  }

  ghost predicate Initial(s: State) {
    s.cache == BORN && s.loads == map[] && s.scans == map[] && s.floors == [0, 0] && s.committed == {}
  }

  // ---- what every reachable state keeps -----------------------------------------------------------------------

  /** The invalidated commits are in the catalog, the floors rise, one per generation. */
  ghost predicate FloorsOk(s: State) {
    && |s.floors| == s.cache.writeGen + 1
    && (forall g, h :: 0 <= g <= h < |s.floors| ==> s.floors[g] <= s.floors[h])
    && s.floors[s.cache.writeGen] <= s.catalog
    && (forall v :: v in s.committed ==> v <= s.catalog)
  }

  ghost predicate LoadOk(s: State, l: Load) {
    && l.token <= s.cache.writeGen < |s.floors|
    && (!l.Begun? ==> s.floors[l.token] <= l.version)
    && (l.Settled? ==> s.cache.cached.Some? && s.cache.cached.value.loadedGen >= l.token)
  }

  ghost predicate CacheOk(c: Cache, floors: seq<nat>) {
    && c.freshGen <= c.writeGen < |floors|
    && (c.cached.Some? ==> c.cached.value.loadedGen <= c.writeGen && floors[c.cached.value.loadedGen] <= c.cached.value.version)
  }

  /** A fresh cache holds nothing below the floor, and nothing below it can be installed. */
  ghost predicate FreshOk(s: State) {
    IsFresh(s.cache) ==>
      && s.cache.cached.Some? && s.cache.cached.value.version >= Floor(s)
      && forall l :: !Straggler(s, l)
  }

  /** A scan never serves below the floor it started at. */
  ghost predicate ScanOk(s: State, q: Scan) {
    && q.floor <= Floor(s)
    && (q.Fast? ==> s.cache.cached.Some? && s.cache.cached.value.version >= q.floor
                    && forall l :: l in s.loads && s.loads[l].Fetched? && s.cache.cached.value.loadedGen <= s.loads[l].token
                         ==> s.loads[l].version >= q.floor)
    && (q.Slow? && q.load in s.loads ==>
          && s.loads[q.load].token < |s.floors|
          && (s.loads[q.load].Begun? ==> q.floor <= s.floors[s.loads[q.load].token])
          && (!s.loads[q.load].Begun? ==> s.loads[q.load].version >= q.floor))
  }

  ghost predicate Inv(s: State) {
    && FloorsOk(s)
    && (forall l :: l in s.loads ==> LoadOk(s, s.loads[l]))
    && CacheOk(s.cache, s.floors)
    && FreshOk(s)
    && (forall q :: q in s.scans ==> ScanOk(s, s.scans[q]))
  }

  lemma InitialInv(s: State)
    requires Initial(s)
    ensures Inv(s)
  {}

  // ---- every step keeps it ----------------------------------------------------------------------------------------

  lemma BeginInv(s: State, l: nat)
    requires Inv(s) && Enabled(s, Begin(l))
    ensures Inv(Do(s, Begin(l)))
  {
    var s' := Do(s, Begin(l));
    forall k ensures !IsFresh(s.cache) || !Straggler(s', k) {
      assert Straggler(s', k) ==> Straggler(s, k);
    }
  }

  lemma FetchInv(s: State, l: nat)
    requires Inv(s) && Enabled(s, Fetch(l))
    ensures Inv(Do(s, Fetch(l)))
  {
    var s' := Do(s, Fetch(l));
    assert s.floors[s.loads[l].token] <= s.floors[s.cache.writeGen];
    forall k | k in s'.loads ensures LoadOk(s', s'.loads[k]) {
      if k != l { assert LoadOk(s, s.loads[k]); }
    }
    forall k ensures IsFresh(s.cache) ==> !Straggler(s', k) {
      if k != l { assert Straggler(s', k) ==> Straggler(s, k); }
    }
    forall q | q in s'.scans ensures ScanOk(s', s'.scans[q]) { assert ScanOk(s, s.scans[q]); }
  }

  lemma CompletedOk(s: State, l: nat)
    requires Inv(s) && l in s.loads && !s.loads[l].Begun?
    requires s.cache.cached.Some?
    requires s.loads[l].token == s.cache.writeGen ==>
               s.cache.cached.value.version >= Floor(s) && forall k :: k != l ==> !Straggler(s, k)
    ensures Inv(s.(cache := Completed(s.cache, s.loads[l].token), loads := s.loads - {l}))
  {
    var s' := s.(cache := Completed(s.cache, s.loads[l].token), loads := s.loads - {l});
    forall k ensures Straggler(s', k) ==> k != l && Straggler(s, k) {}
    forall k | k in s'.loads ensures LoadOk(s', s'.loads[k]) { assert LoadOk(s, s.loads[k]); }
    forall q | q in s'.scans ensures ScanOk(s', s'.scans[q]) { assert ScanOk(s, s.scans[q]); }
  }

  lemma MatchInv(s: State, l: nat)
    requires Inv(s) && Enabled(s, Match(l)) && Assumed(s, Match(l))
    ensures Inv(Do(s, Match(l)))
  {
    assert LoadOk(s, s.loads[l]);
    CompletedOk(s, l);
  }

  lemma CompleteInv(s: State, l: nat)
    requires Inv(s) && Enabled(s, Complete(l))
    ensures Inv(Do(s, Complete(l)))
  {
    assert LoadOk(s, s.loads[l]);
    if s.loads[l].token == s.cache.writeGen {
      forall k ensures !Straggler(s, k) {
        if k in s.loads { assert LoadOk(s, s.loads[k]); }
      }
    }
    CompletedOk(s, l);
  }

  lemma InstallCache(s: State, l: nat)
    requires Inv(s) && Enabled(s, Mismatch(l))
    ensures var s' := Do(s, Mismatch(l));
            && CacheOk(s'.cache, s'.floors) && s'.cache.cached.Some?
            && s'.cache.cached.value.loadedGen >= s.loads[l].token
            && (s.cache.cached.Some? ==> s.cache.cached.value.loadedGen <= s'.cache.cached.value.loadedGen)
            && (s'.cache.cached == s.cache.cached
                || ((s.cache.cached.Some? ==> s.cache.cached.value.loadedGen <= s.loads[l].token)
                    && s'.cache.cached == Some(Cached(s.loads[l].version, s.loads[l].token))))
  {
    assert LoadOk(s, s.loads[l]);
  }

  lemma MismatchInv(s: State, l: nat)
    requires Inv(s) && Enabled(s, Mismatch(l))
    ensures Inv(Do(s, Mismatch(l)))
  {
    var s' := Do(s, Mismatch(l));
    InstallCache(s, l);
    assert LoadOk(s, s.loads[l]);
    forall k | k in s'.loads ensures LoadOk(s', s'.loads[k]) { assert LoadOk(s, s.loads[k]); }
    forall k ensures Straggler(s', k) ==> Straggler(s, k) {}
    if IsFresh(s'.cache) {
      assert !Straggler(s, l);
    }
    forall q | q in s'.scans ensures ScanOk(s', s'.scans[q]) { MismatchScan(s, l, q); }
  }

  lemma MismatchScan(s: State, l: nat, q: nat)
    requires Inv(s) && Enabled(s, Mismatch(l)) && q in s.scans
    ensures ScanOk(Do(s, Mismatch(l)), s.scans[q])
  {
    InstallCache(s, l);
    assert ScanOk(s, s.scans[q]);
  }

  lemma InvalidateInv(s: State, v: nat)
    requires Inv(s) && Enabled(s, Invalidate(v))
    ensures Inv(Do(s, Invalidate(v)))
  {
    var s' := Do(s, Invalidate(v));
    forall g: nat | g < |s.floors| ensures s'.floors[g] == s.floors[g] && s.floors[g] <= Floor(s) <= Floor(s') {}
    forall k | k in s'.loads ensures LoadOk(s', s'.loads[k]) { assert LoadOk(s, s.loads[k]); }
    forall q | q in s'.scans ensures ScanOk(s', s'.scans[q]) { assert ScanOk(s, s.scans[q]); }
  }

  lemma CommitInv(s: State, step: Step)
    requires Inv(s) && (step.LocalCommit? || step.ForeignCommit?)
    ensures Inv(Do(s, step))
  {
    var s' := Do(s, step);
    forall k ensures Straggler(s', k) ==> Straggler(s, k) {}
    forall k | k in s'.loads ensures LoadOk(s', s'.loads[k]) { assert LoadOk(s, s.loads[k]); }
    forall q | q in s'.scans ensures ScanOk(s', s'.scans[q]) { assert ScanOk(s, s.scans[q]); }
  }

  lemma ScanFastInv(s: State, q: nat)
    requires Inv(s) && Enabled(s, ScanFast(q))
    ensures Inv(Do(s, ScanFast(q)))
  {
    var s' := Do(s, ScanFast(q));
    forall k ensures Straggler(s', k) ==> Straggler(s, k) {}
    forall l | l in s.loads && s.loads[l].Fetched? && s.cache.cached.value.loadedGen <= s.loads[l].token
      ensures s.loads[l].version >= Floor(s)
    {
      assert !Straggler(s, l);
    }
    forall k | k in s'.loads ensures LoadOk(s', s'.loads[k]) { assert LoadOk(s, s.loads[k]); }
    forall p | p in s'.scans ensures ScanOk(s', s'.scans[p]) {
      if p != q { assert ScanOk(s, s.scans[p]); }
    }
  }

  lemma ScanSlowInv(s: State, q: nat, l: nat)
    requires Inv(s) && Enabled(s, ScanSlow(q, l))
    ensures Inv(Do(s, ScanSlow(q, l)))
  {
    var s' := Do(s, ScanSlow(q, l));
    forall k ensures Straggler(s', k) ==> Straggler(s, k) {}
    forall k | k in s'.loads ensures LoadOk(s', s'.loads[k]) {
      if k != l { assert LoadOk(s, s.loads[k]); }
    }
    forall p | p in s'.scans ensures ScanOk(s', s'.scans[p]) {
      if p != q { assert ScanOk(s, s.scans[p]); }
    }
  }

  lemma ServeInv(s: State, q: nat, v: nat)
    requires Inv(s) && Enabled(s, Serve(q, v))
    ensures Inv(Do(s, Serve(q, v)))
  {
    var s' := Do(s, Serve(q, v));
    forall k ensures Straggler(s', k) ==> Straggler(s, k) {}
    forall k | k in s'.loads ensures LoadOk(s', s'.loads[k]) { assert LoadOk(s, s.loads[k]); }
    forall p | p in s'.scans ensures ScanOk(s', s'.scans[p]) { assert ScanOk(s, s.scans[p]); }
  }

  lemma StepInv(s: State, step: Step)
    requires Inv(s) && Enabled(s, step) && Assumed(s, step)
    ensures Inv(Do(s, step))
  {
    match step
    case Begin(l) => BeginInv(s, l);
    case Fetch(l) => FetchInv(s, l);
    case Match(l) => MatchInv(s, l);
    case Mismatch(l) => MismatchInv(s, l);
    case Complete(l) => CompleteInv(s, l);
    case Invalidate(v) => InvalidateInv(s, v);
    case ScanFast(q) => ScanFastInv(s, q);
    case ScanSlow(q, l) => ScanSlowInv(s, q, l);
    case Serve(q, v) => ServeInv(s, q, v);
    case _ => CommitInv(s, step);
  }

  ghost function Assured(): (State, Step, State) -> bool {
    (s, step, t) => Enabled(s, step) && Assumed(s, step) && t == Do(s, step)
  }

  lemma {:induction false} RunInv(s: State, steps: seq<Step>, t: State)
    requires Inv(s) && Path(Assured(), s, steps, t)
    ensures Inv(t)
    decreases |steps|
  {
    if |steps| > 0 {
      var m :| Assured()(s, steps[0], m) && Path(Assured(), m, steps[1..], t);
      StepInv(s, steps[0]);
      RunInv(m, steps[1..], t);
    }
  }

  // ---- read your own writes --------------------------------------------------------------------------------------------

  lemma FloorRises(s: State, step: Step)
    requires Inv(s) && Enabled(s, step)
    ensures Floor(s) <= Floor(Do(s, step))
    ensures step.Invalidate? ==> step.version <= Floor(Do(s, step))
  {}

  /** What a scan serves is never below the floor it started at. */
  lemma ServedAboveFloor(s: State, q: nat, v: nat)
    requires Inv(s) && Enabled(s, Serve(q, v))
    ensures v >= s.scans[q].floor
  {
    assert ScanOk(s, s.scans[q]);
  }

  ghost predicate ScanHasFloor(s: State, q: nat, version: nat) {
    q in s.scans ==> s.scans[q].floor >= version
  }

  lemma {:induction false} ScanKeepsFloor(s: State, steps: seq<Step>, t: State, q: nat, version: nat)
    requires Inv(s) && Path(Assured(), s, steps, t) && Floor(s) >= version && ScanHasFloor(s, q, version)
    ensures ScanHasFloor(t, q, version)
    decreases |steps|
  {
    if |steps| > 0 {
      var m :| Assured()(s, steps[0], m) && Path(Assured(), m, steps[1..], t);
      StepInv(s, steps[0]);
      FloorRises(s, steps[0]);
      ScanFloorStep(s, steps[0], q, version);
      ScanKeepsFloor(m, steps[1..], t, q, version);
    }
  }

  lemma ScanFloorStep(s: State, step: Step, q: nat, version: nat)
    requires Enabled(s, step) && Floor(s) >= version && ScanHasFloor(s, q, version)
    ensures ScanHasFloor(Do(s, step), q, version)
  {}

  /** After a local commit has been invalidated, in every interleaving of loads, installs, commits and
      invalidations, no scan that starts later serves an older version, by either path. */
  lemma ReadYourWrites(s: State, before: seq<Step>, m: State, version: nat, after: seq<Step>, t: State, q: nat, v: nat)
    requires Initial(s) && Path(Assured(), s, before, m) && Enabled(m, Invalidate(version)) && q !in m.scans
    requires Path(Assured(), Do(m, Invalidate(version)), after, t) && Enabled(t, Serve(q, v))
    ensures v >= version
  {
    InitialInv(s);
    RunInv(s, before, m);
    InvalidateInv(m, version);
    var n := Do(m, Invalidate(version));
    FloorRises(m, Invalidate(version));
    ScanKeepsFloor(n, after, t, q, version);
    RunInv(n, after, t);
    ServedAboveFloor(t, q, v);
  }

  /** How many commits there are among the steps. */
  function Commits(steps: seq<Step>): nat {
    if |steps| == 0 then 0
    else (if steps[0].LocalCommit? || steps[0].ForeignCommit? then 1 else 0) + Commits(steps[1..])
  }

  /** Every commit, local or foreign, makes one new version, and nothing else does. */
  lemma {:induction false} VersionsCount(s: State, steps: seq<Step>, t: State)
    requires Path(Assured(), s, steps, t)
    ensures t.catalog == s.catalog + Commits(steps)
    decreases |steps|
  {
    if |steps| > 0 {
      var m :| Assured()(s, steps[0], m) && Path(Assured(), m, steps[1..], t);
      VersionsCount(m, steps[1..], t);
    }
  }

  /** ... told from the commit itself: a scan that starts after its invalidation serves its version or a
      later one, never the version before it. */
  lemma OwnCommitServed(
    s: State, before: seq<Step>, c: State, between: seq<Step>, m: State, after: seq<Step>, t: State, q: nat, v: nat)
    requires Initial(s) && Path(Assured(), s, before, c) && Path(Assured(), Do(c, LocalCommit), between, m)
    requires q !in m.scans && Invalidate(Do(c, LocalCommit).catalog) !in between
    ensures Enabled(m, Invalidate(Do(c, LocalCommit).catalog))
    ensures Path(Assured(), Do(m, Invalidate(Do(c, LocalCommit).catalog)), after, t) && Enabled(t, Serve(q, v)) ==>
      v > c.catalog
  {
    var own := Do(c, LocalCommit);
    PathSnoc(Assured(), s, before, c, LocalCommit, own);
    PathOn(Assured(), s, before + [LocalCommit], own, between, m);
    StillCommitted(own, between, m, own.catalog);
    if Path(Assured(), Do(m, Invalidate(own.catalog)), after, t) && Enabled(t, Serve(q, v)) {
      ReadYourWrites(s, before + [LocalCommit] + between, m, own.catalog, after, t, q, v);
    }
  }

  lemma {:induction false} StillCommitted(s: State, steps: seq<Step>, t: State, v: nat)
    requires Path(Assured(), s, steps, t) && v in s.committed && Invalidate(v) !in steps
    ensures v in t.committed
    decreases |steps|
  {
    if |steps| > 0 {
      var m :| Assured()(s, steps[0], m) && Path(Assured(), m, steps[1..], t);
      assert steps == [steps[0]] + steps[1..];
      StillCommitted(m, steps[1..], t, v);
    }
  }

  // ---- every scan can be served --------------------------------------------------------------------------------

  /** In every reachable state a scan can be served: from the cache, or once its own load has fetched and
      matched or installed. */
  lemma ScanEnds(s: State, q: nat) returns (steps: seq<Step>, t: State, v: nat)
    requires Inv(s) && q in s.scans && (s.scans[q].Slow? ==> s.scans[q].load in s.loads)
    ensures Path(Code(), s, steps, t) && Enabled(t, Serve(q, v)) && |steps| <= 2
    ensures forall step :: step in steps ==> step.Fetch? || step.Mismatch?
  {
    steps, t := [], s;
    if s.scans[q].Fast? {
      v := s.cache.cached.value.version;
      return;
    }
    var l := s.scans[q].load;
    if t.loads[l].Begun? {
      steps, t := [Fetch(l)], Do(s, Fetch(l));
      PathOne(Code(), s, Fetch(l), t);
    }
    v := t.loads[l].version;
    if t.loads[l].Fetched? && !Enabled(t, Serve(q, v)) {
      PathSnoc(Code(), s, steps, t, Mismatch(l), Do(t, Mismatch(l)));
      steps, t := steps + [Mismatch(l)], Do(t, Mismatch(l));
    }
  }

  // ---- H4 -----------------------------------------------------------------------------------------------------------------

  lemma {:induction false} FreshId(ids: set<nat>) returns (bound: nat)
    ensures forall x :: x in ids ==> x < bound
  {
    if ids == {} {
      bound := 0;
    } else {
      var x :| x in ids;
      var b := FreshId(ids - {x});
      bound := Max(b, x + 1);
      forall y | y in ids ensures y < bound { assert y == x || y in ids - {x}; }
    }
  }

  /** Some scan that starts after `s` is served, in a continuation that keeps H4, a version older than
      the floor it started at. */
  ghost predicate ServesStale(s: State, known: set<nat>) {
    exists steps, t, q: nat, v: nat :: Path(Assured(), s, steps, t) && q !in known && Enabled(t, Serve(q, v)) && v < t.scans[q].floor
  }

  /** A straggler left over installs what it holds, and the next scan takes the fast path to it. */
  lemma StragglerServes(s: State, k: nat, known: set<nat>)
    requires IsFresh(s.cache) && Straggler(s, k) && s.scans.Keys <= known
    ensures ServesStale(s, known)
  {
    var q := FreshId(known);
    var m := Do(s, Mismatch(k));
    var t := Do(m, ScanFast(q));
    PathOne(Assured(), s, Mismatch(k), m);
    PathOne(Assured(), m, ScanFast(q), t);
    PathOn(Assured(), s, [Mismatch(k)], m, [ScanFast(q)], t);
    var v := s.loads[k].version;
    assert Enabled(t, Serve(q, v)) && v < t.scans[q].floor;
  }

  lemma NothingStale(s: State, known: set<nat>)
    requires Inv(s)
    ensures !ServesStale(s, known)
  {
    if ServesStale(s, known) {
      var steps, t, q: nat, v: nat :| Path(Assured(), s, steps, t) && q !in known && Enabled(t, Serve(q, v)) && v < t.scans[q].floor;
      RunInv(s, steps, t);
      ServedAboveFloor(t, q, v);
    }
  }

  /** After a version match on the current generation, a later scan can be served a version older than
      the floor it starts at, in a run that keeps H4 from then on, if and only if a straggler is left at
      the match. */
  lemma MatchServesStaleIff(s: State, l: nat)
    requires Inv(s) && Enabled(s, Match(l)) && s.loads[l].token == s.cache.writeGen
    ensures ServesStale(Do(s, Match(l)), s.scans.Keys) <==> exists k :: k != l && Straggler(s, k)
  {
    var s' := Do(s, Match(l));
    assert LoadOk(s, s.loads[l]);
    if k :| k != l && Straggler(s, k) {
      assert Straggler(s', k);
      StragglerServes(s', k, s.scans.Keys);
    } else {
      MatchInv(s, l);
      NothingStale(s', s.scans.Keys);
    }
  }

  ghost function Code(): (State, Step, State) -> bool {
    (s, step, t) => Enabled(s, step) && t == Do(s, step)
  }

  ghost function Birth(): State {
    State(0, BORN, map[], map[], [0, 0], {})
  }

  /** One load holds version 0; a commit follows and a later load installs it. */
  lemma NewInstalled() returns (steps: seq<Step>, t: State)
    ensures Path(Code(), Birth(), steps, t)
    ensures t == State(1, Cache(1, 1, Some(Cached(1, 1))), map[1 := Fetched(1, 0)], map[], [0, 0], {1})
  {
    var s0 := Birth();
    var s1 := Do(s0, Begin(1));
    var s2 := Do(s1, Fetch(1));
    assert s2.loads == map[1 := Fetched(1, 0)];
    var s3 := Do(s2, LocalCommit);
    var s4 := Do(s3, Begin(2));
    var s5 := Do(s4, Fetch(2));
    assert s5.loads == map[1 := Fetched(1, 0), 2 := Fetched(1, 1)];
    var s6 := Do(s5, Mismatch(2));
    t := Do(s6, Complete(2));
    assert t.loads == map[1 := Fetched(1, 0)];
    steps := [];
    PathSnoc(Code(), s0, steps, s0, Begin(1), Do(s0, Begin(1)));
    steps := steps + [Begin(1)];
    PathSnoc(Code(), s0, steps, s1, Fetch(1), Do(s1, Fetch(1)));
    steps := steps + [Fetch(1)];
    PathSnoc(Code(), s0, steps, s2, LocalCommit, Do(s2, LocalCommit));
    steps := steps + [LocalCommit];
    PathSnoc(Code(), s0, steps, s3, Begin(2), Do(s3, Begin(2)));
    steps := steps + [Begin(2)];
    PathSnoc(Code(), s0, steps, s4, Fetch(2), Do(s4, Fetch(2)));
    steps := steps + [Fetch(2)];
    PathSnoc(Code(), s0, steps, s5, Mismatch(2), Do(s5, Mismatch(2)));
    steps := steps + [Mismatch(2)];
    PathSnoc(Code(), s0, steps, s6, Complete(2), Do(s6, Complete(2)));
    steps := steps + [Complete(2)];
  }

  /** The straggler installs over a fresh cache and a new scan takes the result. */
  lemma StragglerInstalls(steps: seq<Step>, s: State) returns (more: seq<Step>, t: State)
    requires Path(Code(), Birth(), steps, s) && 9 !in s.scans
    requires s.loads == map[1 := Fetched(1, 0)] && s.cache == Cache(2, 2, Some(Cached(1, 1)))
    ensures Path(Code(), Birth(), more, t) && Enabled(t, Serve(9, 0)) && t.scans[9].floor == Floor(s)
  {
    var m := Do(s, Mismatch(1));
    t := Do(m, ScanFast(9));
    PathSnoc(Code(), Birth(), steps, s, Mismatch(1), Do(s, Mismatch(1)));
    PathSnoc(Code(), Birth(), steps + [Mismatch(1)], m, ScanFast(9), Do(m, ScanFast(9)));
    more := steps + [Mismatch(1)] + [ScanFast(9)];
  }

  /** Without H4: the commit is invalidated, a load finds the version already cached and marks it
      fresh without raising its generation; the straggler then installs over it, and a scan started
      after the invalidation serves the version before the commit. */
  lemma StragglerServesStale() returns (steps: seq<Step>, t: State)
    ensures Path(Code(), Birth(), steps, t)
    ensures Enabled(t, Serve(9, 0)) && t.scans[9].floor == 1
  {
    var first, s0 := NewInstalled();
    var s1 := Do(s0, Invalidate(1));
    var s2 := Do(s1, Begin(3));
    var s3 := Do(s2, Fetch(3));
    var s4 := Do(s3, Match(3));
    steps := first;
    PathSnoc(Code(), Birth(), steps, s0, Invalidate(1), Do(s0, Invalidate(1)));
    steps := steps + [Invalidate(1)];
    PathSnoc(Code(), Birth(), steps, s1, Begin(3), Do(s1, Begin(3)));
    steps := steps + [Begin(3)];
    PathSnoc(Code(), Birth(), steps, s2, Fetch(3), Do(s2, Fetch(3)));
    steps := steps + [Fetch(3)];
    PathSnoc(Code(), Birth(), steps, s3, Match(3), Do(s3, Match(3)));
    steps := steps + [Match(3)];
    steps, t := StragglerInstalls(steps, s4);
  }
}
