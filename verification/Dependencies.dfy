/** Dependencies among committed transactions, and what each certifier makes of them. */
module Dependencies {
  import opened Options
  import opened Engine
  import opened EngineInv
  import opened EngineShapes
  import opened EngineGuar
  import opened EngineReads
  import opened EngineWrites
  import opened EngineFacts
  import opened EngineSsi
  import opened EngineBits
  import opened EngineMarks
  import opened EngineRuns

  /** Past the point of no return, whether or not already announced. */
  predicate Committed(s: State, t: Tid) { HasTxn(s, t) && Decided(s.txns[t]) }

  /** b read version v, which a created. */
  predicate WriteRead(s: State, a: Tid, b: Tid, v: Vid) {
    HasTxn(s, b) && v in s.txns[b].seen && HasVer(s, v) && s.vers[v].creator == a
  }

  /** b's version u replaced one that a created. */
  predicate WriteWrite(s: State, a: Tid, b: Tid, u: Vid) {
    HasTxn(s, b) && u in s.txns[b].wset && HasNext(s, u) && s.vers[Prev(s, u)].creator == a
  }

  /** b's version u replaced one that a read. */
  predicate ReadWrite(s: State, a: Tid, b: Tid, u: Vid) {
    HasTxn(s, a) && HasTxn(s, b) && u in s.txns[b].wset && HasNext(s, u) && Prev(s, u) in s.txns[a].seen
  }

  ghost predicate AntiDepends(s: State, a: Tid, b: Tid) { exists u: Vid :: ReadWrite(s, a, b, u) }

  /** b must come after a in any equivalent serial order. */
  ghost predicate Depends(s: State, a: Tid, b: Tid) {
    && a != b && Committed(s, a) && Committed(s, b)
    && ((exists v: Vid :: WriteRead(s, a, b, v)) || (exists u: Vid :: WriteWrite(s, a, b, u)) || AntiDepends(s, a, b))
  }

  /** A closed walk along dependencies. */
  ghost predicate Cycle(s: State, p: seq<Tid>) {
    && |p| >= 2 && p[0] == p[|p| - 1]
    && forall i :: 0 <= i < |p| - 1 ==> Depends(s, p[i], p[i + 1])
  }

  // ---------------------------------------------------------------- what the invariants say of edges

  /** b's version u lies on top of the one it replaced, which had been committed. */
  lemma Linked(s: State, b: Tid, u: Vid)
    requires Shapes(s) && Chains(s) && Committed(s, b) && u in s.txns[b].wset && HasNext(s, u)
    ensures s.vers[u].creator == b
    ensures var V := s.vers[Prev(s, u)];
      && V.over == Some(u) && OverBy(s, Prev(s, u)) == Some(b)
      && V.clsn.Stamped? && HasTxn(s, V.creator) && V.clsn.n == s.txns[V.creator].got
      && Committed(s, V.creator) && Prev(s, u) in s.txns[V.creator].wset
  {
    hide Shapes, Chains;
    MadeHas(s, b);
    GetVer(s, u);
    GetVer(s, Prev(s, u));
  }

  /** What b read had been committed, before b began. */
  lemma ReadsCommitted(s: State, b: Tid, v: Vid)
    requires Shapes(s) && Chains(s) && HasTxn(s, b) && v in s.txns[b].seen
    ensures HasVer(s, v) && HasTxn(s, s.vers[v].creator) && Committed(s, s.vers[v].creator)
    ensures v in s.txns[s.vers[v].creator].wset
    ensures s.vers[v].clsn.Stamped? && s.vers[v].clsn.n == s.txns[s.vers[v].creator].got < s.txns[b].begin
  {
    hide Shapes, Chains;
    Known(s, b);
    assert v in Touched(s.txns[b]);
    GetVer(s, v);
    GetSlots(s);
  }

  lemma CommittedStamp(s: State, t: Tid)
    requires Shapes(s) && Committed(s, t)
    ensures 0 < s.txns[t].got && !s.txns[t].st.Abrtd? && OpenReads(s.txns[t]) == {} && OpenWrites(s.txns[t]) == {}
    ensures OpenS2(s.txns[t]) == {} && (s.cert.SSN? ==> 0 < s.txns[t].sstamp <= s.txns[t].got)
  {
    hide Shapes;
    StatesAre(s, t);
  }

  lemma StampsDiffer(s: State, a: Tid, b: Tid)
    requires Shapes(s) && Committed(s, a) && Committed(s, b) && a != b
    ensures s.txns[a].got != s.txns[b].got
  {
    CommittedStamp(s, a);
  }

  /** An overwriter with a smaller commit stamp is known to the committed reader. */
  lemma KnownOverwriter(s: State, a: Tid, b: Tid, u: Vid)
    requires Inv(s) && a != b && Committed(s, a) && Committed(s, b) && ReadWrite(s, a, b, u)
    requires s.txns[b].got < s.txns[a].got
    ensures Knows(s.cert, s.txns[a], s.txns[b])
  {
    hide Shapes, Chains, BitSide, ReadSide, WriteSide, Facts, PivotSide;
    Linked(s, b, u);
    CommittedStamp(s, a);
    CommittedStamp(s, b);
    GetReads(s, a);
    if Prev(s, u) in s.txns[a].rset { assert Resolved(s, a, Prev(s, u)); } else { assert Untracked(s, a, Prev(s, u)); }
  }

  /** A reader with a smaller commit stamp is allowed for by the committed overwriter. */
  lemma KnownReader(s: State, a: Tid, b: Tid, u: Vid)
    requires Inv(s) && a != b && Committed(s, a) && Committed(s, b) && ReadWrite(s, a, b, u)
    requires s.txns[a].got < s.txns[b].got
    ensures Allows(s.cert, s.txns[b], s.txns[a].got)
  {
    hide Shapes, Chains, BitSide, ReadSide, WriteSide, Facts, PivotSide;
    Linked(s, b, u);
    CommittedStamp(s, a);
    CommittedStamp(s, b);
    GetReads(s, a);
    GetWrites(s, b);
    assert Prev(s, u) in s.txns[a].rset;
    assert Clash(s, b, a, Prev(s, u));
    assert Covers(s, b, Prev(s, u));
  }

  // ---------------------------------------------------------------- SSN

  /** SSN never misses a conflict between a committed reader and a committed overwriter. */
  lemma SsnNeverMisses(s: State, r: Tid, w: Tid, u: Vid)
    requires Reachable(s) && s.cert.SSN? && r != w && Committed(s, r) && Committed(s, w) && ReadWrite(s, r, w, u)
    ensures s.txns[r].got < s.txns[w].got ==> s.txns[r].got <= s.txns[w].pstamp
    ensures s.txns[w].got < s.txns[r].got ==> s.txns[r].sstamp <= s.txns[w].sstamp
    ensures s.txns[r].got != s.txns[w].got
  {
    hide Inv;
    ReachInv(s);
    SsnBothWays(s, r, w, u);
  }

  lemma SsnBothWays(s: State, r: Tid, w: Tid, u: Vid)
    requires Inv(s) && s.cert.SSN? && r != w && Committed(s, r) && Committed(s, w) && ReadWrite(s, r, w, u)
    ensures s.txns[r].got < s.txns[w].got ==> s.txns[r].got <= s.txns[w].pstamp
    ensures s.txns[w].got < s.txns[r].got ==> s.txns[r].sstamp <= s.txns[w].sstamp
    ensures s.txns[r].got != s.txns[w].got
  {
    hide Shapes, Chains, BitSide, ReadSide, WriteSide, Facts, PivotSide, Roots;
    StampsDiffer(s, r, w);
    if s.txns[r].got < s.txns[w].got { KnownReader(s, r, w, u); } else { KnownOverwriter(s, r, w, u); }
  }

  /** The serial order of SSN: by successor stamp, and among equals the later commit first. */
  predicate SsnBefore(s: State, a: Tid, b: Tid)
    requires HasTxn(s, a) && HasTxn(s, b)
  {
    s.txns[a].sstamp < s.txns[b].sstamp || (s.txns[a].sstamp == s.txns[b].sstamp && s.txns[a].got > s.txns[b].got)
  }

  lemma SsnEdge(s: State, a: Tid, b: Tid)
    requires Inv(s) && s.cert.SSN? && Depends(s, a, b)
    ensures SsnBefore(s, a, b)
  {
    hide Shapes, Chains, BitSide, ReadSide, WriteSide, Facts, PivotSide, Roots;
    CommittedStamp(s, a);
    CommittedStamp(s, b);
    GetFacts(s, b);
    if v: Vid :| WriteRead(s, a, b, v) {
      ReadsCommitted(s, b, v);
    } else if u: Vid :| WriteWrite(s, a, b, u) {
      Linked(s, b, u);
    } else {
      var u: Vid :| ReadWrite(s, a, b, u);
      SsnBothWays(s, a, b, u);
    }
  }

  /** No cycle of dependencies commits under SSN. */
  lemma SsnAcyclic(s: State, p: seq<Tid>)
    requires Reachable(s) && s.cert.SSN?
    ensures !Cycle(s, p)
  {
    hide Inv, Depends;
    ReachInv(s);
    if Cycle(s, p) {
      SsnWalk(s, p, |p| - 1);
    }
  }

  lemma {:induction false} SsnWalk(s: State, p: seq<Tid>, k: nat)
    requires Inv(s) && s.cert.SSN? && Cycle(s, p) && 1 <= k < |p|
    ensures HasTxn(s, p[0]) && HasTxn(s, p[k]) && SsnBefore(s, p[0], p[k])
  {
    hide Inv;
    assert Depends(s, p[k - 1], p[k]);
    SsnEdge(s, p[k - 1], p[k]);
    if k > 1 { SsnWalk(s, p, k - 1); }
  }

  // ---------------------------------------------------------------- MVOCC

  lemma MvoccEdge(s: State, a: Tid, b: Tid)
    requires Inv(s) && s.cert.MVOCC? && Depends(s, a, b)
    ensures s.txns[a].got < s.txns[b].got
  {
    hide Shapes, Chains, BitSide, ReadSide, WriteSide, Facts, PivotSide, Roots;
    CommittedStamp(s, b);
    GetFacts(s, b);
    if v: Vid :| WriteRead(s, a, b, v) {
      ReadsCommitted(s, b, v);
    } else if u: Vid :| WriteWrite(s, a, b, u) {
      Linked(s, b, u);
      assert WhenFor(s, b, u);
    } else {
      var u: Vid :| ReadWrite(s, a, b, u);
      StampsDiffer(s, a, b);
      if s.txns[b].got < s.txns[a].got { KnownOverwriter(s, a, b, u); }
    }
  }

  /** Commit stamps are a serial order for MVOCC, so no cycle commits. */
  lemma MvoccAcyclic(s: State, p: seq<Tid>)
    requires Reachable(s) && s.cert.MVOCC?
    ensures !Cycle(s, p)
  {
    hide Inv, Depends;
    ReachInv(s);
    if Cycle(s, p) { MvoccWalk(s, p, |p| - 1); }
  }

  lemma {:induction false} MvoccWalk(s: State, p: seq<Tid>, k: nat)
    requires Inv(s) && s.cert.MVOCC? && Cycle(s, p) && 1 <= k < |p|
    ensures HasTxn(s, p[0]) && HasTxn(s, p[k]) && s.txns[p[0]].got < s.txns[p[k]].got
  {
    hide Inv;
    assert Depends(s, p[k - 1], p[k]);
    MvoccEdge(s, p[k - 1], p[k]);
    if k > 1 { MvoccWalk(s, p, k - 1); }
  }

  // ---------------------------------------------------------------- SSI

  /** a -rw-> b -rw-> c, all committed, c first; a and c may be the same. */
  ghost predicate Dangerous(s: State, a: Tid, b: Tid, c: Tid) {
    && a != b && b != c && Committed(s, a) && Committed(s, b) && Committed(s, c)
    && AntiDepends(s, a, b) && AntiDepends(s, b, c)
    && s.txns[c].got <= s.txns[a].got && s.txns[c].got < s.txns[b].got
  }

  /** Some committed transaction took a zero s2 for the truth while the overwriter, a pivot that
      committed before, was still storing it. */
  ghost predicate CommitsTorn(s: State) { exists t: Tid :: Committed(s, t) && s.txns[t].torn }

  /** In a dangerous structure the reader at its head committed last, and is torn. */
  lemma DangerousIsTorn(s: State, a: Tid, b: Tid, c: Tid)
    requires Inv(s) && s.cert.SSI? && Dangerous(s, a, b, c)
    ensures s.txns[b].got < s.txns[a].got && s.txns[a].torn
  {
    hide Shapes, Chains, BitSide, ReadSide, WriteSide, Facts, PivotSide, Roots;
    var u: Vid, w: Vid :| ReadWrite(s, a, b, u) && ReadWrite(s, b, c, w);
    KnownOverwriter(s, b, c, w);
    StampsDiffer(s, a, b);
    if s.txns[a].got < s.txns[b].got {
      KnownReader(s, a, b, u);
    } else {
      CommittedStamp(s, a);
      Linked(s, b, u);
      GetPivot(s, a);
      assert S2For(s, a, Prev(s, u));
    }
  }

  /** What a torn committed transaction read is the head of a dangerous structure. */
  lemma TornIsDangerous(s: State, a: Tid)
    requires Inv(s) && s.cert.SSI? && Committed(s, a) && s.txns[a].torn
    ensures exists b: Tid, c: Tid :: Dangerous(s, a, b, c)
  {
    hide Shapes, Chains, BitSide, ReadSide, WriteSide, Facts, PivotSide, Roots;
    CommittedStamp(s, a);
    GetPivot(s, a);
    var v: Vid, b: Tid :| TornFor(s, a, v, b);
    GetPivot(s, b);
    var w: Vid, c: Tid :| Ct3For(s, b, w, c);
    OverIsEdge(s, a, b, v);
    OverIsEdge(s, b, c, w);
    assert Dangerous(s, a, b, c);
  }

  lemma OverIsEdge(s: State, a: Tid, b: Tid, v: Vid)
    requires Chains(s) && HasTxn(s, a) && v in s.txns[a].seen && Overwrote(s, v, b)
    ensures AntiDepends(s, a, b)
  {
    LinkBack(s, v);
    assert ReadWrite(s, a, b, s.vers[v].over.value);
  }

  /** SSI commits a dangerous structure exactly when it commits a torn reader. */
  lemma SsiExact(s: State)
    requires Reachable(s) && s.cert.SSI?
    ensures (exists a: Tid, b: Tid, c: Tid :: Dangerous(s, a, b, c)) <==> CommitsTorn(s)
  {
    hide Inv;
    ReachInv(s);
    if a: Tid, b: Tid, c: Tid :| Dangerous(s, a, b, c) { DangerousIsTorn(s, a, b, c); }
    if a: Tid :| Committed(s, a) && s.txns[a].torn { TornIsDangerous(s, a); }
  }

  /** v's overwriter u belongs to a pivot that committed before t and has not stored v's s2 yet. */
  predicate StoresLater(s: State, t: Tid, v: Vid, u: Vid) {
    && HasTxn(s, t) && HasVer(s, v) && HasVer(s, u) && s.vers[v].over == Some(u) && s.vers[u].creator != t
    && HasTxn(s, s.vers[u].creator)
    && var X := s.txns[s.vers[u].creator];
       X.pc.Stamps? && u in X.wset && u in S2Pending(X) && Pivot(X) && X.got < s.txns[t].got
  }

  /** In pre-commit a reader becomes torn exactly when it looks at s2 in the middle of the overwriter's
      post-commit, between its decision and its store of s2. */
  lemma TornWindow(s: State, t: Tid, todo: set<Vid>, v: Vid, pick: nat)
    requires Inv(s) && s.cert.SSI? && HasTxn(s, t) && s.txns[t].pc == Reads(todo, CheckS2(v)) && HasVer(s, v)
    requires !s.txns[t].torn
    ensures ReadsTxn(s, t, todo, CheckS2(v), pick).torn <==> exists u: Vid :: StoresLater(s, t, v, u)
  {
    hide Shapes, Chains, BitSide, ReadSide, WriteSide, Facts, PivotSide, Roots, Waits;
    StatesAre(s, t);
    LinkCreator(s, v);
    assert S2Of(s, v);
    if OverBy(s, v).Some? && Decided(s.txns[OverBy(s, v).value]) {
      OverwroteIf(s, v);
      if StoresLater(s, t, v, s.vers[v].over.value) { }
    }
  }

  /** v carries the final stamp of an overwriter other than t, and the s2 of a pivot, whether it is there by
      now or the overwriter has yet to store it. */
  predicate FinalUnderPivot(s: State, t: Tid, v: Vid) {
    && HasVer(s, v) && s.vers[v].sstamp.ByLog? && s.vers[v].over.Some? && HasVer(s, s.vers[v].over.value)
    && var u := s.vers[v].over.value;
       && s.vers[u].creator != t && HasTxn(s, s.vers[u].creator)
       && var X := s.txns[s.vers[u].creator];
          0 < s.vers[v].s2 < s.vers[v].sstamp.stamp || (u in S2Pending(X) && Pivot(X))
  }

  /** In ssi_read, past its look at s2, a reader becomes torn exactly when the successor stamp it finds is final
      and a pivot's s2 has been stored since that look or is still to come. */
  lemma TornRead(s: State, t: Tid, v: Vid)
    requires Inv(s) && s.cert.SSI? && HasTxn(s, t) && s.txns[t].pc == Work(ReadSucc(v)) && HasVer(s, v)
    requires !s.txns[t].torn
    ensures DoWork(s, t, ReadSucc(v), 0).txns[t].torn <==> FinalUnderPivot(s, t, v)
  {
    hide Shapes, Chains, BitSide, ReadSide, WriteSide, Facts, PivotSide, Roots, Waits;
    StatesAre(s, t);
    LinkCreator(s, v);
    SuccMeans(s, v);
    assert S2Of(s, v);
  }

  /** a read the version below u, which b had replaced with a commit stamp smaller than a's begin stamp. */
  predicate StaleAt(s: State, a: Tid, b: Tid, u: Vid) {
    a != b && Committed(s, a) && Committed(s, b) && ReadWrite(s, a, b, u) && s.txns[b].got < s.txns[a].begin
  }

  /** a missed a write of b that its snapshot should have held. */
  ghost predicate Stale(s: State, a: Tid, b: Tid) { exists u: Vid :: StaleAt(s, a, b, u) }

  /** A dependency that is no anti-dependency runs from the smaller to the larger commit stamp. */
  lemma ForwardEdge(s: State, a: Tid, b: Tid)
    requires Inv(s) && Depends(s, a, b) && !AntiDepends(s, a, b)
    ensures s.txns[a].got < s.txns[b].got
  {
    hide Shapes, Chains, BitSide, ReadSide, WriteSide, Facts, PivotSide, Roots;
    CommittedStamp(s, b);
    GetFacts(s, b);
    if v: Vid :| WriteRead(s, a, b, v) {
      ReadsCommitted(s, b, v);
    } else {
      var u: Vid :| WriteWrite(s, a, b, u);
      Linked(s, b, u);
      assert WhenFor(s, b, u);
    }
  }

  /** b read what c overwrote; whatever b depends on otherwise was committed before c. */
  lemma BeforeOverwriter(s: State, a: Tid, b: Tid, c: Tid)
    requires Inv(s) && s.cert.SSI? && Depends(s, a, b) && !AntiDepends(s, a, b)
    requires Depends(s, b, c) && AntiDepends(s, b, c) && !Stale(s, b, c) && s.txns[c].got < s.txns[b].got
    ensures s.txns[a].got < s.txns[c].got
  {
    hide Shapes, Chains, BitSide, ReadSide, WriteSide, Facts, PivotSide, Roots;
    var w: Vid :| ReadWrite(s, b, c, w);
    if v: Vid :| WriteRead(s, a, b, v) {
      ReadsCommitted(s, b, v);
      SnapshotAnti(s, b, c);
    } else {
      var u: Vid :| WriteWrite(s, a, b, u);
      Linked(s, b, u);
      KnownOverwriter(s, b, c, w);
      CommittedStamp(s, b);
      GetWrites(s, b);
      assert Covers(s, b, Prev(s, u));
    }
  }

  /** Otherwise it began before the commit of whoever overwrote what it read. */
  lemma SnapshotAnti(s: State, a: Tid, b: Tid)
    requires Inv(s) && Depends(s, a, b) && AntiDepends(s, a, b) && !Stale(s, a, b)
    ensures s.txns[a].begin < s.txns[b].got
  {
    hide Shapes, Chains, BitSide, ReadSide, WriteSide, Facts, PivotSide, Roots;
    var u: Vid :| ReadWrite(s, a, b, u);
    assert !StaleAt(s, a, b, u);
    GetSlots(s);
  }

  /** The member of a cycle that committed first, and the two before it, are a dangerous structure. */
  lemma FirstOfCycle(s: State, a: Tid, b: Tid, c: Tid)
    requires Inv(s) && s.cert.SSI? && Depends(s, a, b) && Depends(s, b, c) && !Stale(s, b, c)
    requires s.txns[c].got <= s.txns[a].got && s.txns[c].got <= s.txns[b].got
    ensures Dangerous(s, a, b, c)
  {
    hide Inv;
    ReachesApart(s, b, c);
    if !AntiDepends(s, b, c) { ForwardEdge(s, b, c); }
    if !AntiDepends(s, a, b) { BeforeOverwriter(s, a, b, c); }
  }

  lemma ReachesApart(s: State, a: Tid, b: Tid)
    requires Inv(s) && Committed(s, a) && Committed(s, b) && a != b
    ensures s.txns[a].got != s.txns[b].got
  {
    hide Shapes;
    StampsDiffer(s, a, b);
  }

  /** The position, before the last, of the smallest commit stamp on a walk. */
  lemma {:induction false} FirstCommit(s: State, p: seq<Tid>, n: nat) returns (k: nat)
    requires 1 <= n <= |p| && forall i :: 0 <= i < n ==> HasTxn(s, p[i])
    ensures k < n && forall i :: 0 <= i < n ==>
      HasTxn(s, p[k]) && HasTxn(s, p[i]) && s.txns[p[k]].got <= s.txns[p[i]].got
  {
    if n == 1 { return 0; }
    k := FirstCommit(s, p, n - 1);
    if s.txns[p[n - 1]].got < s.txns[p[k]].got { k := n - 1; }
  }

  /** A cycle of committed transactions under SSI has a member that is torn, or that read a version which the
      next one had replaced before it began. */
  lemma SsiCycle(s: State, p: seq<Tid>)
    requires Reachable(s) && s.cert.SSI? && Cycle(s, p)
    ensures exists i :: 0 <= i < |p| - 1 && HasTxn(s, p[i]) && (s.txns[p[i]].torn || Stale(s, p[i], p[i + 1]))
  {
    hide Inv, Depends, Stale;
    ReachInv(s);
    var n := |p| - 1;
    forall i | 0 <= i < n ensures HasTxn(s, p[i]) { DependsCommitted(s, p[i], p[i + 1]); }
    var k := FirstCommit(s, p, n);
    var j := if k == 0 then n - 1 else k - 1;
    var i := if j == 0 then n - 1 else j - 1;
    assert p[j + 1] == p[k] && p[i + 1] == p[j];
    if !Stale(s, p[j], p[k]) {
      FirstOfCycle(s, p[i], p[j], p[k]);
      DangerousIsTorn(s, p[i], p[j], p[k]);
    }
  }

  lemma DependsCommitted(s: State, a: Tid, b: Tid)
    requires Depends(s, a, b)
    ensures Committed(s, a) && Committed(s, b)
  {
  }

  /** Without torn transactions and stale reads SSI is serializable. */
  lemma SsiAcyclic(s: State, p: seq<Tid>)
    requires Reachable(s) && s.cert.SSI? && !CommitsTorn(s) && forall a: Tid, b: Tid :: !Stale(s, a, b)
    ensures !Cycle(s, p)
  {
    hide Reachable, Stale, Depends;
    if Cycle(s, p) {
      SsiCycle(s, p);
      var i :| 0 <= i < |p| - 1 && HasTxn(s, p[i]) && (s.txns[p[i]].torn || Stale(s, p[i], p[i + 1]));
      assert Depends(s, p[i], p[i + 1]);
      DependsCommitted(s, p[i], p[i + 1]);
    }
  }
}
