/** Which version a read returns (oid_get_version, dbcore/sm-oid.cpp:963-1109): the committed versions of a record are
    ordered by their stamps along the chain, and a read returns the newest one that its begin stamp admits. */
module Visibility {
  import opened Options
  import opened Engine
  import opened EngineInv
  import opened EngineShapes
  import opened EngineGuar
  import opened EngineBits
  import opened EngineReads
  import opened EngineWrites
  import opened EngineFacts
  import opened EngineSsi
  import opened EngineMarks
  import opened EngineRuns

  predicate Final(s: State, v: Vid) { HasVer(s, v) && s.vers[v].clsn.Stamped? }

  /** What lies under a committed version: an older committed one, directly. */
  lemma Under(s: State, u: Vid)
    requires Inv(s) && Final(s, u)
    ensures s.vers[u].depth == 0 <==> s.vers[u].next.None?
    ensures s.vers[u].next.Some? ==>
      && HasNext(s, u) && Final(s, Prev(s, u)) && s.vers[Prev(s, u)].over == Some(u)
      && s.vers[Prev(s, u)].rec == s.vers[u].rec && s.vers[Prev(s, u)].depth + 1 == s.vers[u].depth
      && s.vers[Prev(s, u)].clsn.n < s.vers[u].clsn.n
  {
    hide Shapes, Chains, BitSide, ReadSide, WriteSide, Facts, PivotSide, Roots, S2Side, Waits, ClaimSide;
    GetVer(s, u);
    var x := s.vers[u].creator;
    GetFacts(s, x);
    StatesAre(s, x);
    assert u in Made(s.txns[x]);
    assert WhenFor(s, x, u);
  }

  /** A record has one committed version at each depth. */
  lemma {:induction false} OneAtDepth(s: State, v: Vid, w: Vid)
    requires Inv(s) && Final(s, v) && Final(s, w) && s.vers[v].rec == s.vers[w].rec
    requires s.vers[v].depth == s.vers[w].depth
    ensures v == w
    decreases s.vers[v].depth
  {
    hide Shapes, Chains, BitSide, ReadSide, WriteSide, Facts, PivotSide, S2Side, Waits, ClaimSide;
    Under(s, v);
    Under(s, w);
    if s.vers[v].depth > 0 { OneAtDepth(s, Prev(s, v), Prev(s, w)); }
  }

  /** Whatever is deeper in the chain is older: the version on top of v is no younger than any later one. */
  lemma {:induction false} Climb(s: State, v: Vid, w: Vid)
    requires Inv(s) && Final(s, v) && Final(s, w) && s.vers[v].rec == s.vers[w].rec && s.vers[v].depth < s.vers[w].depth
    ensures s.vers[v].over.Some? && Final(s, s.vers[v].over.value) && s.vers[s.vers[v].over.value].rec == s.vers[v].rec
    ensures s.vers[v].clsn.n < s.vers[s.vers[v].over.value].clsn.n <= s.vers[w].clsn.n
    decreases s.vers[w].depth
  {
    hide Inv;
    Under(s, w);
    var p := Prev(s, w);
    if s.vers[p].depth == s.vers[v].depth { OneAtDepth(s, v, p); } else { Climb(s, v, p); }
  }

  /** The stamps of a record's committed versions are ordered as the chain is. */
  lemma ChainOrder(s: State, v: Vid, w: Vid)
    requires Inv(s) && Final(s, v) && Final(s, w) && s.vers[v].rec == s.vers[w].rec
    ensures s.vers[v].depth < s.vers[w].depth <==> s.vers[v].clsn.n < s.vers[w].clsn.n
    ensures s.vers[v].depth == s.vers[w].depth <==> v == w
  {
    hide Inv;
    if s.vers[v].depth < s.vers[w].depth { Climb(s, v, w); }
    else if s.vers[w].depth < s.vers[v].depth { Climb(s, w, v); }
    else { OneAtDepth(s, v, w); }
  }

  /** v is the youngest of the versions of its record that were stamped no later than `begin`. */
  ghost predicate Newest(s: State, v: Vid, begin: nat) {
    && Final(s, v) && s.vers[v].clsn.n <= begin
    && forall w: Vid :: Final(s, w) && s.vers[w].rec == s.vers[v].rec && s.vers[w].clsn.n <= begin ==>
         s.vers[w].clsn.n <= s.vers[v].clsn.n
  }

  /** The version on top of the newest one is not admitted, and the other way round. */
  lemma NewestIff(s: State, v: Vid, begin: nat)
    requires Inv(s) && HasVer(s, v) && Visible(s.vers[v], begin)
    ensures Newest(s, v, begin) <==>
      s.vers[v].over.None? || (HasVer(s, s.vers[v].over.value) && !Visible(s.vers[s.vers[v].over.value], begin))
  {
    if s.vers[v].over.Some? { OverIs(s, v); }
    hide Inv;
    if s.vers[v].over.None? || !Visible(s.vers[s.vers[v].over.value], begin) {
      forall w: Vid | HasVer(s, w) && s.vers[w].rec == s.vers[v].rec && Visible(s.vers[w], begin)
        ensures s.vers[w].clsn.n <= s.vers[v].clsn.n
      {
        ChainOrder(s, v, w);
        if s.vers[v].depth < s.vers[w].depth { Climb(s, v, w); }
      }
    } else {
      Under(s, s.vers[v].over.value);
    }
  }

  lemma OverIs(s: State, v: Vid)
    requires Inv(s) && HasVer(s, v) && s.vers[v].over.Some?
    ensures HasVer(s, s.vers[v].over.value) && s.vers[s.vers[v].over.value].next == Some(v)
  {
    hide Shapes, Chains, BitSide, ReadSide, WriteSide, Facts, PivotSide, Roots, S2Side, Waits, ClaimSide;
    GetVer(s, v);
  }

  /** A transaction can read exactly the newest version that its begin stamp admits, unless its own lies on top. */
  lemma ReadExact(s: State, t: Tid, v: Vid)
    requires Inv(s)
    ensures CanRead(s, t, v) <==> IsIdle(s, t) && Newest(s, v, s.txns[t].begin) && OverBy(s, v) != Some(t)
  {
    if IsIdle(s, t) && HasVer(s, v) && Visible(s.vers[v], s.txns[t].begin) {
      NewestIff(s, v, s.txns[t].begin);
      if s.vers[v].over.Some? { OverIs(s, v); }
    }
    hide Inv, Newest;
    if IsIdle(s, t) && Newest(s, v, s.txns[t].begin) { NewestHas(s, v, s.txns[t].begin); }
  }

  lemma NewestHas(s: State, v: Vid, begin: nat)
    requires Newest(s, v, begin)
    ensures HasVer(s, v) && Visible(s.vers[v], begin)
  {
  }

  /** An idle transaction can update a record exactly when nothing lies on the version that it would read. */
  lemma UpdateExact(s: State, t: Tid, v: Vid)
    requires Inv(s) && IsIdle(s, t)
    ensures CanUpdate(s, t, v) <==> CanRead(s, t, v) && s.vers[v].over.None?
  {
    hide Shapes, Chains, BitSide, ReadSide, WriteSide, Facts, PivotSide, Roots, S2Side, Waits, ClaimSide;
    if HasVer(s, v) && s.vers[v].clsn.Stamped? {
      GetVer(s, v);
      GetSlots(s);
    }
  }

  /** In every run a read returns the newest version of the record that the reader's begin stamp admits. */
  lemma ReadsNewest(states: seq<State>, steps: seq<Step>, i: nat, t: Tid, v: Vid)
    requires Run(states, steps) && i < |steps| && steps[i] == Read(t, v)
    ensures HasTxn(states[i], t) && Newest(states[i], v, states[i].txns[t].begin)
  {
    hide Inv, Newest;
    RunInv(states, steps, i);
    assert Goes(states[i], steps[i], states[i + 1]);
    ReadExact(states[i], t, v);
  }

  /** Whenever a record has a version that `begin` admits, it has exactly one newest. */
  lemma {:induction false} NewestUpTo(s: State, rec: nat, begin: nat, n: nat) returns (v: Vid)
    requires 0 < n <= |s.vers| && exists w: Vid :: w < n && s.vers[w].rec == rec && Visible(s.vers[w], begin)
    ensures v < n && s.vers[v].rec == rec && Visible(s.vers[v], begin)
    ensures forall w: Vid :: w < n && s.vers[w].rec == rec && Visible(s.vers[w], begin) ==>
      s.vers[w].clsn.n <= s.vers[v].clsn.n
  {
    var m := n - 1;
    if exists w: Vid :: w < m && s.vers[w].rec == rec && Visible(s.vers[w], begin) {
      v := NewestUpTo(s, rec, begin, m);
      if s.vers[m].rec == rec && Visible(s.vers[m], begin) && s.vers[v].clsn.n < s.vers[m].clsn.n { v := m; }
    } else {
      v := m;
    }
  }

  /** An idle transaction finds a version of a record exactly when its begin stamp admits one, and then only one. */
  lemma ReadFinds(s: State, t: Tid, rec: nat)
    requires Inv(s) && IsIdle(s, t)
    ensures (exists w: Vid :: HasVer(s, w) && s.vers[w].rec == rec && Visible(s.vers[w], s.txns[t].begin)) <==>
      exists v: Vid :: HasVer(s, v) && s.vers[v].rec == rec && (CanRead(s, t, v) || TopIsOwn(s, t, v))
    ensures forall v: Vid, w: Vid ::
      CanRead(s, t, v) && CanRead(s, t, w) && s.vers[v].rec == s.vers[w].rec ==> v == w
  {
    hide Inv, Newest, CanRead;
    var begin := s.txns[t].begin;
    forall v: Vid
      ensures CanRead(s, t, v) <==> Newest(s, v, begin) && HasVer(s, v) && OverBy(s, v) != Some(t)
    {
      ReadExact(s, t, v);
      if Newest(s, v, begin) { NewestHas(s, v, begin); }
    }
    if w: Vid :| HasVer(s, w) && s.vers[w].rec == rec && Visible(s.vers[w], begin) {
      var v := NewestUpTo(s, rec, begin, |s.vers|);
      NewestIs(s, v, begin);
    }
    if v: Vid :| HasVer(s, v) && s.vers[v].rec == rec && (CanRead(s, t, v) || TopIsOwn(s, t, v)) {
      if Newest(s, v, begin) { NewestHas(s, v, begin); }
    }
    forall v: Vid, w: Vid | CanRead(s, t, v) && CanRead(s, t, w) && s.vers[v].rec == s.vers[w].rec ensures v == w {
      TwoNewest(s, v, w, begin);
    }
  }

  lemma NewestIs(s: State, v: Vid, begin: nat)
    requires HasVer(s, v) && Visible(s.vers[v], begin)
    requires forall w: Vid :: w < |s.vers| && s.vers[w].rec == s.vers[v].rec && Visible(s.vers[w], begin) ==>
      s.vers[w].clsn.n <= s.vers[v].clsn.n
    ensures Newest(s, v, begin)
  {
  }

  lemma TwoNewest(s: State, v: Vid, w: Vid, begin: nat)
    requires Inv(s) && Newest(s, v, begin) && Newest(s, w, begin) && s.vers[v].rec == s.vers[w].rec
    ensures v == w
  {
    hide Inv;
    ChainOrder(s, v, w);
    ChainOrder(s, w, v);
  }

  /** t's own version lies on the newest one that t's begin stamp admits. */
  ghost predicate TopIsOwn(s: State, t: Tid, v: Vid) {
    HasTxn(s, t) && Newest(s, v, s.txns[t].begin) && OverBy(s, v) == Some(t)
  }

  /** A version that lies on another carries the XID of its creator, or its stamp. */
  lemma OverAlive(s: State, v: Vid)
    requires Inv(s) && HasVer(s, v) && s.vers[v].over.Some?
    ensures HasVer(s, s.vers[v].over.value) && !s.vers[s.vers[v].over.value].clsn.Dead?
  {
    hide Shapes, Chains, BitSide, ReadSide, WriteSide, Facts, PivotSide, Roots, S2Side, Waits, ClaimSide;
    GetVer(s, v);
    var u := s.vers[v].over.value;
    GetVer(s, u);
    OwnTodo(s, s.vers[u].creator);
  }

  /** A version that a read skips, although its creator holds a smaller commit stamp, is not stamped yet. */
  lemma SkippedPending(s: State, a: Tid, b: Tid, v: Vid)
    requires Inv(s) && CanRead(s, a, v) && OverBy(s, v) == Some(b) && HasTxn(s, b) && s.txns[b].got < s.txns[a].begin
    ensures s.vers[v].over.Some? && HasVer(s, s.vers[v].over.value) && s.vers[s.vers[v].over.value].clsn.Pending?
  {
    OverAlive(s, v);
    hide Shapes, Chains, BitSide, ReadSide, WriteSide, Facts, PivotSide, Roots, S2Side, Waits, ClaimSide;
    GetVer(s, s.vers[v].over.value);
  }
}
