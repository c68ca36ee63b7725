/** How the engine's steps keep the catalog side of the invariant: generations are appended with
    the commit that carries them, seen by whoever sees its watermark, and dropped once seen. */
module CatalogSteps {
  import opened Rows
  import opened Window
  import opened Layers
  import opened Log
  import opened Engine
  import opened Invariants

  // ---- containment -----------------------------------------------------------------------------

  lemma ContainsUp(hist: seq<Version>, v: nat, v': nat, commit: GenCommit, base: Table, log: seq<Stmt>, frozen: nat)
    requires HistOk(hist, base, log, frozen)
    requires v <= v' < |hist| && Contains(hist, v, commit)
    ensures Contains(hist, v', commit)
  {
    assert hist[v].wm <= hist[v'].wm;
  }

  /** A longer history says the same about the versions it already had. */
  lemma ContainsLonger(hist: seq<Version>, next: Version, v: nat, commit: GenCommit)
    requires v < |hist|
    ensures Contains(hist + [next], v, commit) == Contains(hist, v, commit)
  {
    if commit.Snapshot? {
      if Contains(hist, v, commit) {
        var i :| 0 <= i <= v && hist[i].id == commit.id;
        assert (hist + [next])[i].id == commit.id;
      }
      if Contains(hist + [next], v, commit) {
        var i :| 0 <= i <= v && (hist + [next])[i].id == commit.id;
        assert hist[i].id == commit.id;
      }
    }
  }

  /** The version just landed holds what its predecessor held, and its own snapshot. */
  lemma ContainsNew(hist: seq<Version>, next: Version, commit: GenCommit)
    requires |hist| > 0 && hist[|hist| - 1].wm <= next.wm
    ensures Contains(hist, |hist| - 1, commit) ==> Contains(hist + [next], |hist|, commit)
    ensures commit == Snapshot(next.id) ==> Contains(hist + [next], |hist|, commit)
    ensures Contains(hist + [next], |hist|, commit) && commit.Snapshot? && commit.id != next.id
      ==> Contains(hist, |hist| - 1, commit)
    ensures Contains(hist + [next], |hist|, commit) && commit.CoveredByWatermark?
      ==> next.wm > 0 && next.wm >= commit.mark
  {
    if commit.Snapshot? {
      if Contains(hist, |hist| - 1, commit) {
        var i :| 0 <= i <= |hist| - 1 && hist[i].id == commit.id;
        assert (hist + [next])[i].id == commit.id;
      }
      if commit.id == next.id {
        assert (hist + [next])[|hist|].id == commit.id;
      }
      if Contains(hist + [next], |hist|, commit) && commit.id != next.id {
        var i :| 0 <= i <= |hist| && (hist + [next])[i].id == commit.id;
        assert hist[i].id == commit.id;
      }
    }
  }

  // ---- a generation is appended ------------------------------------------------------------------

  lemma LoAppend(spans: seq<Span>, liveLo: nat, mark: nat, i: nat)
    requires i <= |spans|
    ensures Lo(spans + [Span(liveLo, mark)], mark, i) == Lo(spans, liveLo, i)
    ensures Lo(spans + [Span(liveLo, mark)], mark, |spans| + 1) == mark
  {}

  lemma AppendMarks(spans: seq<Span>, liveLo: nat, frozen: nat, nextSeq: nat)
    requires MarksOk(spans, liveLo, frozen, nextSeq) && liveLo < frozen
    ensures MarksOk(spans + [Span(liveLo, frozen)], frozen, frozen, nextSeq)
  {
    var spans' := spans + [Span(liveLo, frozen)];
    forall i: nat | i < |spans'| ensures spans'[i].lo < spans'[i].hi <= Lo(spans', frozen, i + 1) {
      if i < |spans| { LoAppend(spans, liveLo, frozen, i + 1); }
    }
  }

  lemma AppendChain(
    spans: seq<Span>, liveLo: nat, flushed: seq<Gen>, base: Table, log: seq<Stmt>, g: Gen, mark: nat)
    requires ChainOk(spans, liveLo, flushed, base, log)
    requires Apply(At(base, log, liveLo), GenLayer(g)) == At(base, log, mark)
    ensures ChainOk(spans + [Span(liveLo, mark)], mark, flushed + [g], base, log)
  {
    forall i: nat | i < |flushed| + 1
      ensures ChainAt(spans + [Span(liveLo, mark)], mark, flushed + [g], base, log, i)
    {
      if i < |flushed| {
        assert ChainAt(spans, liveLo, flushed, base, log, i);
        LoAppend(spans, liveLo, mark, i + 1);
      } else {
        LoAppend(spans, liveLo, mark, i);
      }
    }
  }

  /** Who sees the new generation has a watermark at its mark, who does not is below it. */
  ghost predicate SeenAs(hist: seq<Version>, commit: GenCommit, lo: nat, hi: nat) {
    forall v: nat :: v < |hist| ==> if Contains(hist, v, commit) then hist[v].wm == hi else hist[v].wm <= lo
  }

  lemma AppendSeen(hist: seq<Version>, spans: seq<Span>, flushed: seq<Gen>, g: Gen, lo: nat, hi: nat)
    requires SeenOk(hist, spans, flushed) && SeenAs(hist, g.commit, lo, hi)
    ensures SeenOk(hist, spans + [Span(lo, hi)], flushed + [g])
  {}

  lemma FirstUnseenPrefix(hist: seq<Version>, flushed: seq<Gen>, g: Gen, v: nat, j: nat)
    requires FirstUnseen(hist, flushed + [g], v, j)
    ensures j <= |flushed| ==> FirstUnseen(hist, flushed, v, j)
    ensures j == |flushed| ==> !Contains(hist, v, g.commit)
    ensures j == |flushed| + 1 ==> Contains(hist, v, g.commit)
  {
    forall i | 0 <= i < j && i < |flushed| ensures Contains(hist, v, flushed[i].commit) {
      assert (flushed + [g])[i] == flushed[i];
    }
    if j < |flushed| {
      assert (flushed + [g])[j] == flushed[j];
    } else {
      assert (flushed + [g])[|flushed|] == g;
    }
  }

  lemma AppendLink(
    hist: seq<Version>, served: nat, scans: multiset<Scan>, spans: seq<Span>, liveLo: nat, flushed: seq<Gen>,
    base: Table, log: seq<Stmt>, g: Gen, mark: nat)
    requires LinkOk(hist, served, scans, spans, liveLo, flushed, base, log) && |spans| == |flushed|
    requires SeenAs(hist, g.commit, liveLo, mark)
    ensures LinkOk(hist, served, scans, spans + [Span(liveLo, mark)], mark, flushed + [g], base, log)
  {
    var spans' := spans + [Span(liveLo, mark)];
    forall v: nat, j: nat | Servable(hist, served, scans, v) && FirstUnseen(hist, flushed + [g], v, j)
      ensures At(base, log, hist[v].wm) == At(base, log, Lo(spans', mark, j))
    {
      FirstUnseenPrefix(hist, flushed, g, v, j);
      LoAppend(spans, liveLo, mark, if j <= |spans| then j else 0);
    }
  }

  lemma AppendIds(hist: seq<Version>, nextSnap: nat, flushed: seq<Gen>, g: Gen)
    requires IdsOk(hist, nextSnap, flushed)
    requires g.commit.Snapshot? ==> g.commit.id == nextSnap
    ensures IdsOk(hist, if g.commit.Snapshot? then nextSnap + 1 else nextSnap, flushed + [g])
  {}

  lemma AppendObserved(
    hist: seq<Version>, served: nat, scans: multiset<Scan>, flushed: seq<Gen>, clock: nat, g: Gen)
    requires ObservedOk(hist, served, scans, flushed, clock) && g.committedAt == clock && !g.observed
    ensures ObservedOk(hist, served, scans, flushed + [g], clock)
  {}

  lemma AppendLag(
    hist: seq<Version>, scans: multiset<Scan>, flushed: seq<Gen>, clock: nat, lag: nat, g: Gen)
    requires LagOk(hist, scans, flushed, clock, lag) && g.committedAt == clock
    ensures LagOk(hist, scans, flushed + [g], clock, lag)
  {
    forall x, i | x in scans && 0 <= i < |flushed + [g]| && !Contains(hist, x.version, (flushed + [g])[i].commit)
      ensures x.began <= (flushed + [g])[i].committedAt + lag
    {
      if i < |flushed| { assert (flushed + [g])[i] == flushed[i]; }
    }
  }

  // ---- the newest generation goes back -------------------------------------------------------------

  lemma LoInit(spans: seq<Span>, liveLo: nat, i: nat)
    requires i < |spans|
    ensures Lo(spans[..|spans| - 1], spans[|spans| - 1].lo, i) == Lo(spans, liveLo, i)
  {}

  lemma DropMarks(spans: seq<Span>, liveLo: nat, frozen: nat, nextSeq: nat)
    requires MarksOk(spans, liveLo, frozen, nextSeq) && |spans| > 0
    ensures MarksOk(spans[..|spans| - 1], spans[|spans| - 1].lo, frozen, nextSeq)
  {
    var init := spans[..|spans| - 1];
    assert Lo(spans, liveLo, |spans|) == liveLo;
    forall i: nat | i < |init| ensures init[i].lo < init[i].hi <= Lo(init, spans[|spans| - 1].lo, i + 1) {
      LoInit(spans, liveLo, i + 1);
    }
  }

  lemma DropChainAt(spans: seq<Span>, liveLo: nat, flushed: seq<Gen>, base: Table, log: seq<Stmt>, i: nat)
    requires |spans| == |flushed| && i < |spans| - 1
    requires ChainAt(spans, liveLo, flushed, base, log, i)
    ensures ChainAt(spans[..|spans| - 1], spans[|spans| - 1].lo, flushed[..|flushed| - 1], base, log, i)
  {
    LoInit(spans, liveLo, i + 1);
  }

  lemma DropChain(spans: seq<Span>, liveLo: nat, flushed: seq<Gen>, base: Table, log: seq<Stmt>)
    requires ChainOk(spans, liveLo, flushed, base, log) && |spans| > 0
    ensures ChainOk(spans[..|spans| - 1], spans[|spans| - 1].lo, flushed[..|flushed| - 1], base, log)
  {
    var spans', flushed', lo := spans[..|spans| - 1], flushed[..|flushed| - 1], spans[|spans| - 1].lo;
    forall i: nat | i < |flushed'| ensures ChainAt(spans', lo, flushed', base, log, i) {
      assert ChainAt(spans, liveLo, flushed, base, log, i);
      DropChainAt(spans, liveLo, flushed, base, log, i);
    }
  }

  lemma DropSeen(hist: seq<Version>, spans: seq<Span>, flushed: seq<Gen>)
    requires SeenOk(hist, spans, flushed) && |spans| > 0
    ensures SeenOk(hist, spans[..|spans| - 1], flushed[..|flushed| - 1])
  {}

  lemma FirstUnseenInit(hist: seq<Version>, flushed: seq<Gen>, v: nat, j: nat)
    requires |flushed| > 0 && FirstUnseen(hist, flushed[..|flushed| - 1], v, j)
    ensures j < |flushed| - 1 || !Contains(hist, v, flushed[|flushed| - 1].commit) ==> FirstUnseen(hist, flushed, v, j)
  {
    forall i | 0 <= i < j ensures Contains(hist, v, flushed[i].commit) {
      assert flushed[..|flushed| - 1][i] == flushed[i];
    }
  }

  lemma DropLink(
    hist: seq<Version>, served: nat, scans: multiset<Scan>, spans: seq<Span>, liveLo: nat, flushed: seq<Gen>,
    base: Table, log: seq<Stmt>)
    requires LinkOk(hist, served, scans, spans, liveLo, flushed, base, log) && |spans| > 0
    requires SeenOk(hist, spans, flushed) && spans[|spans| - 1].lo < spans[|spans| - 1].hi
    ensures LinkOk(hist, served, scans, spans[..|spans| - 1], spans[|spans| - 1].lo, flushed[..|flushed| - 1], base, log)
  {
    var spans', flushed', lo := spans[..|spans| - 1], flushed[..|flushed| - 1], spans[|spans| - 1].lo;
    forall v: nat, j: nat | Servable(hist, served, scans, v) && FirstUnseen(hist, flushed', v, j)
                            && (j == |flushed'| ==> hist[v].wm <= lo)
      ensures At(base, log, hist[v].wm) == At(base, log, Lo(spans', lo, j))
    {
      FirstUnseenInit(hist, flushed, v, j);
      LoInit(spans, liveLo, j);
    }
  }

  // ---- a commit lands --------------------------------------------------------------------------------

  lemma LandHist(hist: seq<Version>, base: Table, log: seq<Stmt>, frozen: nat, next: Version)
    requires HistOk(hist, base, log, frozen)
    requires next.rows == At(base, log, next.wm) && hist[|hist| - 1].wm <= next.wm <= frozen
    ensures HistOk(hist + [next], base, log, frozen)
  {
    var h := hist + [next];
    forall u, v | 0 <= u <= v < |h| ensures h[u].wm <= h[v].wm {
      if u < |hist| {
        assert hist[u].wm <= hist[|hist| - 1].wm;
      }
    }
  }

  /** What the new version must see of each generation. */
  ghost predicate LandsOn(hist: seq<Version>, next: Version, spans: seq<Span>, flushed: seq<Gen>) {
    && |spans| == |flushed|
    && forall i: nat :: i < |flushed| ==>
         if Contains(hist + [next], |hist|, flushed[i].commit) then spans[i].hi <= next.wm else next.wm <= spans[i].lo
  }

  lemma LandSeen(hist: seq<Version>, next: Version, spans: seq<Span>, flushed: seq<Gen>)
    requires SeenOk(hist, spans, flushed) && LandsOn(hist, next, spans, flushed)
    ensures SeenOk(hist + [next], spans, flushed)
  {
    var h := hist + [next];
    forall v: nat, i: nat | v < |h| && i < |flushed|
      ensures if Contains(h, v, flushed[i].commit) then spans[i].hi <= h[v].wm else h[v].wm <= spans[i].lo
    {
      if v < |hist| { ContainsLonger(hist, next, v, flushed[i].commit); }
    }
  }

  lemma FirstUnseenLonger(hist: seq<Version>, next: Version, flushed: seq<Gen>, v: nat, j: nat)
    requires v < |hist| && FirstUnseen(hist + [next], flushed, v, j)
    ensures FirstUnseen(hist, flushed, v, j)
  {
    forall i: nat | i < |flushed|
      ensures Contains(hist, v, flushed[i].commit) == Contains(hist + [next], v, flushed[i].commit)
    {
      ContainsLonger(hist, next, v, flushed[i].commit);
    }
  }

  lemma LandLink(
    hist: seq<Version>, served: nat, scans: multiset<Scan>, spans: seq<Span>, liveLo: nat, flushed: seq<Gen>,
    base: Table, log: seq<Stmt>, next: Version)
    requires LinkOk(hist, served, scans, spans, liveLo, flushed, base, log)
    requires forall x :: x in scans ==> x.version < |hist|
    requires forall j: nat :: FirstUnseen(hist + [next], flushed, |hist|, j) && (j == |flushed| ==> next.wm <= liveLo)
               ==> At(base, log, next.wm) == At(base, log, Lo(spans, liveLo, j))
    ensures LinkOk(hist + [next], served, scans, spans, liveLo, flushed, base, log)
  {
    forall v: nat, j: nat | Servable(hist + [next], served, scans, v) && FirstUnseen(hist + [next], flushed, v, j)
                            && (j == |flushed| ==> (hist + [next])[v].wm <= liveLo)
      ensures At(base, log, (hist + [next])[v].wm) == At(base, log, Lo(spans, liveLo, j))
    {
      if v < |hist| {
        FirstUnseenLonger(hist, next, flushed, v, j);
        assert Servable(hist, served, scans, v);
      }
    }
  }

  lemma LandObserved(
    hist: seq<Version>, served: nat, scans: multiset<Scan>, flushed: seq<Gen>, clock: nat, next: Version)
    requires ObservedOk(hist, served, scans, flushed, clock)
    ensures ObservedOk(hist + [next], served, scans, flushed, clock)
  {
    forall i | 0 <= i < |flushed| && flushed[i].observed ensures Contains(hist + [next], served, flushed[i].commit) {
      ContainsLonger(hist, next, served, flushed[i].commit);
    }
  }

  lemma LandLag(
    hist: seq<Version>, scans: multiset<Scan>, flushed: seq<Gen>, clock: nat, lag: nat, next: Version)
    requires LagOk(hist, scans, flushed, clock, lag) && forall x :: x in scans ==> x.version < |hist|
    ensures LagOk(hist + [next], scans, flushed, clock, lag)
  {
    forall x, i | x in scans && 0 <= i < |flushed| && !Contains(hist + [next], x.version, flushed[i].commit)
      ensures x.began <= flushed[i].committedAt + lag
    {
      ContainsLonger(hist, next, x.version, flushed[i].commit);
    }
  }

  lemma LandAllSeen(hist: seq<Version>, flushed: seq<Gen>, next: Version, flight: Flight)
    requires AllSeen(hist, flushed, flight) && hist[|hist| - 1].wm <= next.wm
    ensures AllSeen(hist + [next], flushed, flight)
  {
    forall i | 0 <= i < |flushed| && (flight.Posted? && !flight.landed ==> i < |flushed| - 1)
      ensures Contains(hist + [next], |hist|, flushed[i].commit)
    {
      ContainsNew(hist, next, flushed[i].commit);
    }
  }

  // ---- observation and collection ----------------------------------------------------------------------

  /** The same commits and layers, whatever the observation flags say. */
  ghost predicate SameGens(flushed: seq<Gen>, flushed': seq<Gen>) {
    && |flushed'| == |flushed|
    && forall i :: 0 <= i < |flushed| ==>
         && flushed'[i].commit == flushed[i].commit && flushed'[i].batches == flushed[i].batches
         && flushed'[i].keyed == flushed[i].keyed && flushed'[i].committedAt == flushed[i].committedAt
  }

  lemma SameGensChain(
    spans: seq<Span>, liveLo: nat, flushed: seq<Gen>, flushed': seq<Gen>, base: Table, log: seq<Stmt>)
    requires ChainOk(spans, liveLo, flushed, base, log) && SameGens(flushed, flushed')
    ensures ChainOk(spans, liveLo, flushed', base, log)
  {
    forall i: nat | i < |flushed'| ensures ChainAt(spans, liveLo, flushed', base, log, i) {
      assert ChainAt(spans, liveLo, flushed, base, log, i);
      assert GenLayer(flushed'[i]) == GenLayer(flushed[i]);
    }
  }

  lemma SameGensSeen(hist: seq<Version>, spans: seq<Span>, flushed: seq<Gen>, flushed': seq<Gen>)
    requires SeenOk(hist, spans, flushed) && SameGens(flushed, flushed')
    ensures SeenOk(hist, spans, flushed')
  {
    forall v, i | 0 <= v < |hist| && 0 <= i < |flushed'|
      ensures if Contains(hist, v, flushed'[i].commit) then spans[i].hi <= hist[v].wm else hist[v].wm <= spans[i].lo
    {
      assert flushed'[i].commit == flushed[i].commit;
    }
  }

  lemma SameGensFirst(hist: seq<Version>, flushed: seq<Gen>, flushed': seq<Gen>, v: nat, j: nat)
    requires SameGens(flushed, flushed') && FirstUnseen(hist, flushed', v, j)
    ensures FirstUnseen(hist, flushed, v, j)
  {
    forall i | 0 <= i < |flushed| ensures flushed'[i].commit == flushed[i].commit {}
  }

  /** Fewer servable versions, the same generations. */
  lemma NarrowLink(
    hist: seq<Version>, served: nat, scans: multiset<Scan>, served': nat, scans': multiset<Scan>,
    spans: seq<Span>, liveLo: nat, flushed: seq<Gen>, flushed': seq<Gen>, base: Table, log: seq<Stmt>)
    requires LinkOk(hist, served, scans, spans, liveLo, flushed, base, log) && SameGens(flushed, flushed')
    requires forall v: nat :: Servable(hist, served', scans', v) ==> Servable(hist, served, scans, v)
    ensures LinkOk(hist, served', scans', spans, liveLo, flushed', base, log)
  {
    forall v: nat, j: nat | Servable(hist, served', scans', v) && FirstUnseen(hist, flushed', v, j)
                            && (j == |flushed'| ==> hist[v].wm <= liveLo)
      ensures At(base, log, hist[v].wm) == At(base, log, Lo(spans, liveLo, j))
    {
      SameGensFirst(hist, flushed, flushed', v, j);
    }
  }

  lemma SameGensIds(hist: seq<Version>, nextSnap: nat, flushed: seq<Gen>, flushed': seq<Gen>)
    requires IdsOk(hist, nextSnap, flushed) && SameGens(flushed, flushed')
    ensures IdsOk(hist, nextSnap, flushed')
  {
    forall i | 0 <= i < |flushed| ensures flushed'[i].commit == flushed[i].commit {}
  }

  lemma SameGensAllSeen(hist: seq<Version>, flushed: seq<Gen>, flushed': seq<Gen>, flight: Flight)
    requires AllSeen(hist, flushed, flight) && SameGens(flushed, flushed')
    ensures AllSeen(hist, flushed', flight)
  {
    forall i | 0 <= i < |flushed| ensures flushed'[i].commit == flushed[i].commit {}
  }

  /** What metadata holds of the generations is a prefix of them. */
  lemma SeenPrefix(hist: seq<Version>, spans: seq<Span>, flushed: seq<Gen>, liveLo: nat, frozen: nat, nextSeq: nat,
                   v: nat, i: nat, j: nat)
    requires SeenOk(hist, spans, flushed) && MarksOk(spans, liveLo, frozen, nextSeq)
    requires v < |hist| && i <= j < |flushed| && Contains(hist, v, flushed[j].commit)
    ensures Contains(hist, v, flushed[i].commit)
  {
    if i < j {
      SpanOrder(spans, liveLo, frozen, nextSeq, i, j);
      assert !(hist[v].wm <= spans[i].lo);
    }
  }

  lemma SpanOrder(spans: seq<Span>, liveLo: nat, frozen: nat, nextSeq: nat, i: nat, j: nat)
    requires MarksOk(spans, liveLo, frozen, nextSeq) && i < j < |spans|
    ensures spans[i].hi <= spans[j].lo
    decreases j
  {
    assert spans[i].hi <= Lo(spans, liveLo, i + 1);
    assert spans[j - 1].hi <= Lo(spans, liveLo, j) == spans[j].lo;
    if i < j - 1 { SpanOrder(spans, liveLo, frozen, nextSeq, i, j - 1); }
  }

  lemma ObserveObserved(s: State, v: nat, served': nat, scans': multiset<Scan>)
    requires ObservedOk(s.hist, s.served, s.scans, s.buf.flushed, s.clock)
    requires SeenOk(s.hist, s.spans, s.buf.flushed) && MarksOk(s.spans, s.liveLo, s.frozen, s.tail.nextSeq)
    requires HistOk(s.hist, s.base, s.log, s.frozen)
    requires v < |s.hist| && served' == Max(s.served, v) && scans' <= s.scans
    ensures ObservedOk(s.hist, served', scans', Observe(s.buf.flushed, Seen(s.hist, v)), s.clock)
  {
    var flushed' := Observe(s.buf.flushed, Seen(s.hist, v));
    forall i | 0 <= i < |flushed'| && flushed'[i].observed ensures Contains(s.hist, served', flushed'[i].commit) {
      var commit := s.buf.flushed[i].commit;
      if Contains(s.hist, v, commit) {
        ContainsUp(s.hist, v, served', commit, s.base, s.log, s.frozen);
      } else {
        ContainsUp(s.hist, s.served, served', commit, s.base, s.log, s.frozen);
      }
    }
    forall i: nat, j: nat | i < j < |flushed'| && flushed'[j].observed ensures flushed'[i].observed {
      if !s.buf.flushed[j].observed {
        SeenPrefix(s.hist, s.spans, s.buf.flushed, s.liveLo, s.frozen, s.tail.nextSeq, v, i, j);
      }
    }
  }

  /** The expired generations are the oldest ones, so collecting keeps a suffix. */
  lemma {:induction false} ExpiredPrefix(flushed: seq<Gen>, now: nat, gcAge: nat)
    requires forall i, j :: 0 <= i < j < |flushed| ==>
               flushed[i].committedAt <= flushed[j].committedAt && (flushed[j].observed ==> flushed[i].observed)
    ensures var k := ExpiredCount(flushed, now, gcAge);
            && k <= |flushed| && Unexpired(flushed, now, gcAge) == flushed[k..]
            && forall i :: 0 <= i < k ==> Expired(flushed[i], now, gcAge)
  {
    if |flushed| > 0 {
      var init, last := flushed[..|flushed| - 1], flushed[|flushed| - 1];
      ExpiredPrefix(init, now, gcAge);
      var k := ExpiredCount(init, now, gcAge);
      if Expired(last, now, gcAge) {
        AllExpired(init, now, gcAge);
      } else {
        assert flushed[k..] == init[k..] + [last];
      }
    }
  }

  lemma {:induction false} AllExpired(flushed: seq<Gen>, now: nat, gcAge: nat)
    requires forall i :: 0 <= i < |flushed| ==> Expired(flushed[i], now, gcAge)
    ensures ExpiredCount(flushed, now, gcAge) == |flushed| && Unexpired(flushed, now, gcAge) == []
  {
    if |flushed| > 0 {
      AllExpired(flushed[..|flushed| - 1], now, gcAge);
    }
  }

  lemma LoSuffix(spans: seq<Span>, liveLo: nat, k: nat, i: nat)
    requires k <= |spans|
    ensures Lo(spans[k..], liveLo, i) == Lo(spans, liveLo, k + i)
  {}

  lemma SuffixMarks(spans: seq<Span>, liveLo: nat, frozen: nat, nextSeq: nat, k: nat)
    requires MarksOk(spans, liveLo, frozen, nextSeq) && k <= |spans|
    ensures MarksOk(spans[k..], liveLo, frozen, nextSeq)
  {
    forall i: nat | i < |spans[k..]| ensures spans[k..][i].lo < spans[k..][i].hi <= Lo(spans[k..], liveLo, i + 1) {
      LoSuffix(spans, liveLo, k, i + 1);
      assert spans[k..][i] == spans[k + i];
    }
  }

  lemma SuffixChain(spans: seq<Span>, liveLo: nat, flushed: seq<Gen>, base: Table, log: seq<Stmt>, k: nat)
    requires ChainOk(spans, liveLo, flushed, base, log) && k <= |spans|
    ensures ChainOk(spans[k..], liveLo, flushed[k..], base, log)
  {
    forall i: nat | i < |flushed[k..]| ensures ChainAt(spans[k..], liveLo, flushed[k..], base, log, i) {
      assert ChainAt(spans, liveLo, flushed, base, log, k + i);
      LoSuffix(spans, liveLo, k, i + 1);
    }
  }

  lemma SuffixSeen(hist: seq<Version>, spans: seq<Span>, flushed: seq<Gen>, k: nat)
    requires SeenOk(hist, spans, flushed) && k <= |spans|
    ensures SeenOk(hist, spans[k..], flushed[k..])
  {
    forall v: nat, i: nat | v < |hist| && i < |flushed[k..]|
      ensures if Contains(hist, v, flushed[k..][i].commit) then spans[k..][i].hi <= hist[v].wm
              else hist[v].wm <= spans[k..][i].lo
    {
      assert flushed[k..][i] == flushed[k + i] && spans[k..][i] == spans[k + i];
    }
  }

  lemma FirstUnseenSuffix(hist: seq<Version>, flushed: seq<Gen>, k: nat, v: nat, j: nat)
    requires k <= |flushed| && FirstUnseen(hist, flushed[k..], v, j)
    requires forall i :: 0 <= i < k ==> Contains(hist, v, flushed[i].commit)
    ensures FirstUnseen(hist, flushed, v, k + j)
  {
    forall i | k <= i < |flushed| ensures flushed[k..][i - k] == flushed[i] {}
  }

  /** Collecting generations every servable version holds keeps every link. */
  lemma SuffixLink(
    hist: seq<Version>, served: nat, scans: multiset<Scan>, spans: seq<Span>, liveLo: nat, flushed: seq<Gen>,
    base: Table, log: seq<Stmt>, k: nat)
    requires LinkOk(hist, served, scans, spans, liveLo, flushed, base, log) && |spans| == |flushed| && k <= |flushed|
    requires forall v: nat, i :: Servable(hist, served, scans, v) && 0 <= i < k ==> Contains(hist, v, flushed[i].commit)
    ensures LinkOk(hist, served, scans, spans[k..], liveLo, flushed[k..], base, log)
  {
    forall v: nat, j: nat | Servable(hist, served, scans, v) && FirstUnseen(hist, flushed[k..], v, j)
                            && (j == |flushed[k..]| ==> hist[v].wm <= liveLo)
      ensures At(base, log, hist[v].wm) == At(base, log, Lo(spans[k..], liveLo, j))
    {
      FirstUnseenSuffix(hist, flushed, k, v, j);
      LoSuffix(spans, liveLo, k, j);
    }
  }

  lemma SuffixObserved(hist: seq<Version>, served: nat, scans: multiset<Scan>, flushed: seq<Gen>, clock: nat, k: nat)
    requires ObservedOk(hist, served, scans, flushed, clock) && k <= |flushed|
    ensures ObservedOk(hist, served, scans, flushed[k..], clock)
  {
    forall i | 0 <= i < |flushed[k..]| ensures flushed[k..][i] == flushed[k + i] {}
  }

  lemma SuffixLag(hist: seq<Version>, scans: multiset<Scan>, flushed: seq<Gen>, clock: nat, lag: nat, k: nat)
    requires LagOk(hist, scans, flushed, clock, lag) && k <= |flushed|
    ensures LagOk(hist, scans, flushed[k..], clock, lag)
  {
    forall x, i | x in scans && 0 <= i < |flushed[k..]| && !Contains(hist, x.version, flushed[k..][i].commit)
      ensures x.began <= flushed[k..][i].committedAt + lag
    {
      assert flushed[k..][i] == flushed[k + i];
    }
  }

  lemma SameGensLag(
    hist: seq<Version>, scans: multiset<Scan>, scans': multiset<Scan>, flushed: seq<Gen>, flushed': seq<Gen>,
    clock: nat, lag: nat)
    requires LagOk(hist, scans, flushed, clock, lag) && SameGens(flushed, flushed') && scans' <= scans
    ensures LagOk(hist, scans', flushed', clock, lag)
  {
    forall x | x in scans'
      ensures x.began <= clock
      ensures forall i :: 0 <= i < |flushed'| && !Contains(hist, x.version, flushed'[i].commit)
                ==> x.began <= flushed'[i].committedAt + lag
    {
      assert x in scans;
      assert forall i :: 0 <= i < |flushed| ==> flushed'[i].commit == flushed[i].commit;
    }
  }

  lemma SuffixIds(hist: seq<Version>, nextSnap: nat, flushed: seq<Gen>, flight: Flight, k: nat)
    requires IdsOk(hist, nextSnap, flushed) && AllSeen(hist, flushed, flight) && k <= |flushed|
    ensures IdsOk(hist, nextSnap, flushed[k..]) && AllSeen(hist, flushed[k..], flight)
  {
    forall i | 0 <= i < |flushed[k..]| ensures flushed[k..][i] == flushed[k + i] {}
  }

  // ---- the live window's mark moves without a commit -------------------------------------------------------

  lemma RaiseMarks(spans: seq<Span>, liveLo: nat, frozen: nat, nextSeq: nat)
    requires MarksOk(spans, liveLo, frozen, nextSeq)
    ensures MarksOk(spans, frozen, frozen, nextSeq)
  {}

  lemma LoRaise(spans: seq<Span>, liveLo: nat, mark: nat, base: Table, log: seq<Stmt>, i: nat)
    requires At(base, log, liveLo) == At(base, log, mark)
    ensures At(base, log, Lo(spans, mark, i)) == At(base, log, Lo(spans, liveLo, i))
  {}

  lemma RaiseChain(spans: seq<Span>, liveLo: nat, mark: nat, flushed: seq<Gen>, base: Table, log: seq<Stmt>)
    requires ChainOk(spans, liveLo, flushed, base, log) && At(base, log, liveLo) == At(base, log, mark)
    ensures ChainOk(spans, mark, flushed, base, log)
  {
    forall i: nat | i < |flushed| ensures ChainAt(spans, mark, flushed, base, log, i) {
      assert ChainAt(spans, liveLo, flushed, base, log, i);
      LoRaise(spans, liveLo, mark, base, log, i + 1);
    }
  }

  lemma RaiseLink(
    hist: seq<Version>, served: nat, scans: multiset<Scan>, spans: seq<Span>, liveLo: nat, mark: nat,
    flushed: seq<Gen>, base: Table, log: seq<Stmt>)
    requires LinkOk(hist, served, scans, spans, liveLo, flushed, base, log)
    requires forall v: nat :: v < |hist| ==> hist[v].wm <= liveLo
    requires At(base, log, liveLo) == At(base, log, mark)
    ensures LinkOk(hist, served, scans, spans, mark, flushed, base, log)
  {
    forall v: nat, j: nat | Servable(hist, served, scans, v) && FirstUnseen(hist, flushed, v, j)
      ensures At(base, log, hist[v].wm) == At(base, log, Lo(spans, mark, j))
    {
      LoRaise(spans, liveLo, mark, base, log, j);
    }
  }
}
