/** SSI's dangerous structures: what ct3 and the torn flag say about the transactions around. */
module EngineSsi {
  import opened Options
  import opened Engine
  import opened EngineInv
  import opened EngineShapes
  import opened EngineGuar
  import opened EngineBits
  import opened EngineReads

  /** X read what a transaction that committed before it has overwritten. */
  predicate Pivot(X: Txn) { 0 < X.ct3 < X.got }

  /** Tracked reads whose s2 was not yet looked at. */
  function OpenS2(T: Txn): set<Vid> {
    if T.pc.Reads? then T.pc.todo + ReadFocus(T.pc.rat) else OpenReads(T)
  }

  /** x overwrote v and cannot abort any more. */
  predicate Overwrote(s: State, v: Vid, x: Tid) {
    && HasVer(s, v) && HasTxn(s, x) && Decided(s.txns[x])
    && match s.vers[v].over
       case None => false
       case Some(u) => HasVer(s, u) && s.vers[u].creator == x && u in s.txns[x].wset
  }

  /** The s2 of v told t the truth, or t is torn. */
  ghost predicate S2For(s: State, t: Tid, v: Vid)
    requires HasTxn(s, t) && HasVer(s, v)
  {
    match OverBy(s, v)
    case None => true
    case Some(x) =>
      && HasTxn(s, x)
      && var T, X := s.txns[t], s.txns[x];
         x == t || !Decided(X) || !Pivot(X) || T.torn || 0 < T.got < X.got
  }

  ghost predicate TornOf(s: State, t: Tid)
    requires HasTxn(s, t)
  {
    var T := s.txns[t];
    s.cert.SSI? && !T.st.Abrtd? ==> forall v :: v in T.seen && v !in OpenS2(T) && HasVer(s, v) ==> S2For(s, t, v)
  }

  /** ct3 is the commit stamp of a transaction that overwrote one of t's reads. */
  ghost predicate Ct3For(s: State, t: Tid, w: Vid, y: Tid)
    requires HasTxn(s, t)
  {
    w in s.txns[t].seen && y != t && Overwrote(s, w, y) && s.txns[y].got == s.txns[t].ct3
  }

  ghost predicate Ct3Of(s: State, t: Tid)
    requires HasTxn(s, t)
  {
    s.cert.SSI? && s.txns[t].ct3 != 0 ==> exists w: Vid, y: Tid :: Ct3For(s, t, w, y)
  }

  /** A torn transaction did read what an earlier pivot has overwritten. */
  ghost predicate TornFor(s: State, t: Tid, v: Vid, x: Tid)
    requires HasTxn(s, t)
  {
    && v in s.txns[t].seen && x != t && Overwrote(s, v, x) && Pivot(s.txns[x])
    && (s.txns[t].got == 0 || s.txns[x].got < s.txns[t].got)
  }

  ghost predicate TornReal(s: State, t: Tid)
    requires HasTxn(s, t)
  {
    s.cert.SSI? && s.txns[t].torn ==> exists v: Vid, x: Tid :: TornFor(s, t, v, x)
  }

  ghost predicate PivotOf(s: State, t: Tid)
    requires HasTxn(s, t)
  {
    TornOf(s, t) && Ct3Of(s, t) && TornReal(s, t)
  }

  ghost predicate PivotSide(s: State) { forall t :: 0 <= t < |s.txns| ==> PivotOf(s, t) }

  lemma GetPivot(s: State, t: Tid)
    requires PivotSide(s) && HasTxn(s, t)
    ensures PivotOf(s, t)
  {
  }

  lemma AllPivots(s: State)
    requires forall t :: 0 <= t < |s.txns| ==> PivotOf(s, t)
    ensures PivotSide(s)
  {
  }

  // ---------------------------------------------------------------- stability

  lemma KeepOverwrote(s: State, s': State, m: Tid, v: Vid, x: Tid)
    requires Guar(s, s', m) && Overwrote(s, v, x)
    ensures Overwrote(s', v, x) && s'.txns[x].got == s.txns[x].got && s'.txns[x].ct3 == s.txns[x].ct3
  {
    assert VerGuar(s, s', m, v);
    assert VerGuar(s, s', m, s.vers[v].over.value);
  }

  lemma KeepCt3(s: State, s': State, m: Tid, t: Tid)
    requires Guar(s, s', m) && HasTxn(s, t) && Ct3Of(s, t) && s'.txns[t].ct3 == s.txns[t].ct3
    ensures Ct3Of(s', t)
  {
    if s.cert.SSI? && s.txns[t].ct3 != 0 {
      var w: Vid, y: Tid :| Ct3For(s, t, w, y);
      KeepOverwrote(s, s', m, w, y);
      assert Ct3For(s', t, w, y);
    }
  }

  lemma KeepTornReal(s: State, s': State, m: Tid, t: Tid)
    requires Guar(s, s', m) && HasTxn(s, t) && TornReal(s, t) && s'.txns[t].torn == s.txns[t].torn && Sane(s)
    ensures TornReal(s', t)
  {
    if s.cert.SSI? && s.txns[t].torn {
      var v: Vid, x: Tid :| TornFor(s, t, v, x);
      KeepOverwrote(s, s', m, v, x);
      assert TornFor(s', t, v, x);
    }
  }

  lemma KeepS2(s: State, s': State, m: Tid, t: Tid, v: Vid)
    requires Guar(s, s', m) && HasTxn(s, t) && HasVer(s, v) && S2For(s, t, v) && Sane(s)
    requires if v in s.txns[t].rset then Resolved(s, t, v) && 0 < s.txns[t].got else Untracked(s, t, v)
    requires s.vers[v].over.Some? ==> HasVer(s, s.vers[v].over.value)
    ensures S2For(s', t, v)
  {
    assert VerGuar(s, s', m, v);
    if s.vers[v].over.Some? { assert VerGuar(s, s', m, s.vers[v].over.value); }
  }

  /** t moves; the s2 of at most v is newly looked at. */
  ghost predicate Checks(s: State, s': State, t: Tid, v: Vid)
    requires HasTxn(s, t) && HasTxn(s', t)
  {
    var T, T' := s.txns[t], s'.txns[t];
    && (forall w :: w in T'.seen && w !in T.seen && w !in OpenS2(T') && HasVer(s', w) ==> S2For(s', t, w))
    && OpenS2(T) <= OpenS2(T') + {v}
    && (v in OpenS2(T) && v !in OpenS2(T') && HasVer(s', v) ==> S2For(s', t, v))
  }

  lemma KeepTorn(s: State, s': State, m: Tid, t: Tid, v: Vid)
    requires Shapes(s) && Chains(s) && Guar(s, s', m) && HasTxn(s, t) && TornOf(s, t) && ReadOf(s, t)
    requires Checks(s, s', t, v)
    ensures TornOf(s', t)
  {
    hide Shapes, Chains, Resolved, Untracked, S2For, VerGuar;
    GetSane(s);
    StatesAre(s, t);
    var T, T' := s.txns[t], s'.txns[t];
    if s.cert.SSI? && !T'.st.Abrtd? {
      forall w | w in T'.seen && w !in OpenS2(T') && HasVer(s', w) ensures S2For(s', t, w) {
        if w in T.seen && !(w == v && v in OpenS2(T)) {
          ReadsStamped(s, t, w);
          OverThere(s, w);
          OpenPhase(s, t);
          KeepS2(s, s', m, t, w);
        }
      }
    }
  }

  lemma OpenPhase(s: State, t: Tid)
    requires Shapes(s) && HasTxn(s, t) && !s.txns[t].st.Abrtd?
    ensures OpenReads(s.txns[t]) <= OpenS2(s.txns[t])
    ensures s.txns[t].rset <= OpenS2(s.txns[t]) || s.txns[t].got > 0
  {
    assert TxnOk(s, t);
  }

  lemma CalmPivot(s: State, s': State, m: Tid, t: Tid, v: Vid)
    requires Shapes(s) && Chains(s) && Guar(s, s', m) && HasTxn(s, t) && PivotOf(s, t) && ReadOf(s, t)
    requires var T, T' := s.txns[t], s'.txns[t];
      && T'.ct3 == T.ct3 && T'.torn == T.torn
      && (T'.st.Abrtd? || !s.cert.SSI? || Checks(s, s', t, v))
    ensures PivotOf(s', t)
  {
    hide Shapes, Chains, ReadOf, TornOf, Ct3Of, TornReal, VerGuar, Checks;
    GetSane(s);
    KeepCt3(s, s', m, t);
    KeepTornReal(s, s', m, t);
    if s'.txns[t].st.Abrtd? || !s.cert.SSI? { NoTorn(s', t); } else { KeepTorn(s, s', m, t, v); }
  }

  lemma NoTorn(s: State, t: Tid)
    requires HasTxn(s, t) && (s.txns[t].st.Abrtd? || !s.cert.SSI?)
    ensures TornOf(s, t)
  {
  }

  lemma OthersPivot(s: State, s': State, m: Tid, t: Tid)
    requires Shapes(s) && Chains(s) && Guar(s, s', m) && HasTxn(s, t) && m != t && PivotOf(s, t) && ReadOf(s, t)
    ensures PivotOf(s', t)
  {
    hide Shapes, Chains, ReadOf, PivotOf, VerGuar, S2For;
    assert s'.txns[t] == s.txns[t];
    CalmPivot(s, s', m, t, 0);
  }

  // ---------------------------------------------------------------- a transaction's own steps

  /** The mark on v leads to a decided overwriter. */
  lemma LogOverwrote(s: State, t: Tid, v: Vid)
    requires Shapes(s) && Chains(s) && HasVer(s, v) && s.vers[v].sstamp.ByLog? && s.cert.SSI?
    ensures OverBy(s, v).Some? && Overwrote(s, v, OverBy(s, v).value)
    ensures s.txns[OverBy(s, v).value].got == s.vers[v].sstamp.stamp
  {
    hide Shapes, Chains;
    SuccMeans(s, v);
  }

  lemma OverwroteIf(s: State, v: Vid)
    requires Shapes(s) && Chains(s) && HasVer(s, v) && OverBy(s, v).Some? && HasTxn(s, OverBy(s, v).value)
    requires Decided(s.txns[OverBy(s, v).value])
    ensures Overwrote(s, v, OverBy(s, v).value)
  {
    hide Shapes;
    assert LinkOk(s, v);
    StatesAre(s, OverBy(s, v).value);
    PendingInWset(s, OverBy(s, v).value);
  }

  /** ct3 moved to the stamp of a decided overwriter of v, or stayed. */
  lemma Ct3Moves(s: State, t: Tid, T': Txn, v: Vid, y: Tid)
    requires HasTxn(s, t) && Guar(s, PutTxn(s, t, T'), t) && Ct3Of(s, t) && s.txns[t].seen <= T'.seen
    requires v in T'.seen && y != t && Overwrote(s, v, y) && T'.ct3 == Least(s.txns[t].ct3, s.txns[y].got)
    ensures Ct3Of(PutTxn(s, t, T'), t)
  {
    var s' := PutTxn(s, t, T');
    KeepOverwrote(s, s', t, v, y);
    if T'.ct3 == s.txns[t].ct3 { KeepCt3(s, s', t, t); }
    else if s.cert.SSI? { assert Ct3For(s', t, v, y); }
  }

  /** The torn flag is raised over v, or stays. */
  lemma TornMoves(s: State, t: Tid, T': Txn, v: Vid)
    requires Shapes(s) && Chains(s) && HasTxn(s, t) && Guar(s, PutTxn(s, t, T'), t) && TornReal(s, t) && Sane(s)
    requires HasVer(s, v) && v in T'.seen && T'.torn == (s.txns[t].torn || MissesS2(s, t, v)) && T'.got == s.txns[t].got
    ensures TornReal(PutTxn(s, t, T'), t)
  {
    hide Shapes, Chains;
    var s' := PutTxn(s, t, T');
    if T'.torn == s.txns[t].torn { KeepTornReal(s, s', t, t); }
    else {
      var x := OverBy(s, v).value;
      OverwroteIf(s, v);
      KeepOverwrote(s, s', t, v, x);
      assert TornFor(s', t, v, x);
    }
  }

  /** After a look at s2 that found zero, s2 told the truth or t is torn. */
  lemma MissesChecks(s: State, t: Tid, T': Txn, v: Vid)
    requires Chains(s) && HasTxn(s, t) && HasVer(s, v)
    requires T'.torn == (s.txns[t].torn || MissesS2(s, t, v)) && T'.got == s.txns[t].got && StampsApart(s)
    requires forall x :: 0 <= x < |s.txns| && Decided(s.txns[x]) ==> s.txns[x].got != 0
    ensures S2For(PutTxn(s, t, T'), t, v)
  {
    hide Chains;
    LinkCreator(s, v);
  }

  lemma LinkCreator(s: State, v: Vid)
    requires Chains(s) && HasVer(s, v)
    ensures OverBy(s, v).Some? ==> HasTxn(s, OverBy(s, v).value)
  {
    assert LinkOk(s, v);
  }

  lemma ReadSuccPivot(s: State, t: Tid, v: Vid)
    requires Shapes(s) && Chains(s) && HasTxn(s, t) && s.txns[t].pc == Work(ReadSucc(v)) && HasVer(s, v)
    requires PivotOf(s, t) && ReadOf(s, t) && s.cert.SSI?
    ensures PivotOf(DoWork(s, t, ReadSucc(v), 0), t)
  {
    hide Shapes, Chains, Guar, TornOf, Ct3Of, TornReal, ReadOf, MissesS2, S2For;
    var T' := SsiRead(s.txns[t], v, s.vers[v], MissesS2(s, t, v));
    var s' := PutTxn(s, t, T');
    WorkGuar(s, t, ReadSucc(v), 0);
    StatesAre(s, t);
    GetSane(s);
    GetSlots(s);
    if s.vers[v].sstamp.ByLog? {
      LogOverwrote(s, t, v);
      Ct3Moves(s, t, T', v, OverBy(s, v).value);
      TornMoves(s, t, T', v);
      MissesChecks(s, t, T', v);
      KeepTorn(s, s', t, t, 0);
    } else {
      CalmPivot(s, s', t, t, 0);
    }
  }

  lemma WorkPivot(s: State, t: Tid, w: WorkAt, pick: nat)
    requires Shapes(s) && Chains(s) && HasTxn(s, t) && s.txns[t].pc == Work(w) && CanWork(s, w)
    requires PivotOf(s, t) && ReadOf(s, t)
    ensures PivotOf(DoWork(s, t, w, pick), t)
  {
    hide Shapes, Chains, Guar, PivotOf, ReadOf, S2For;
    if w.ReadSucc? && s.cert.SSI? {
      ReadSuccPivot(s, t, w.v);
    } else {
      WorkGuar(s, t, w, pick);
      WorkCert(s, t);
      CalmPivot(s, DoWork(s, t, w, pick), t, t, 0);
    }
  }

  /** What the reading phase does to t, for the program points that end the look at v without s2. */
  lemma LookChecks(s: State, t: Tid, todo: set<Vid>, v: Vid)
    requires Shapes(s) && Chains(s) && HasTxn(s, t) && s.txns[t].pc == Reads(todo, ReadAt.Next) && HasVer(s, v)
    requires s.cert.SSI?
    ensures Checks(s, PutTxn(s, t, LookAtSucc(s.cert, s.txns[t], t, todo - {v}, v, s.vers[v].sstamp)), t, v)
  {
    hide Shapes, Chains;
    SuccMeans(s, v);
    FocusStamped(s, t);
    if OverBy(s, v).Some? && HasTxn(s, OverBy(s, v).value) { StatesAre(s, OverBy(s, v).value); }
    LinkCreator(s, v);
  }

  lemma ProbeChecks(s: State, t: Tid, todo: set<Vid>, v: Vid, x: Tid)
    requires Shapes(s) && Chains(s) && HasTxn(s, t) && s.txns[t].pc == Reads(todo, Probe(v, x)) && HasTxn(s, x)
    requires AimOk(s, t, Probe(v, x))
    ensures Checks(s, PutTxn(s, t, ProbeSucc(s.txns[t], t, todo, v, x, s.txns[x])), t, v)
  {
    hide Shapes, Chains;
    FocusStamped(s, t);
    StatesAre(s, x);
    LinkCreator(s, v);
  }

  lemma EndChecks(s: State, t: Tid, todo: set<Vid>, v: Vid, x: Tid)
    requires Shapes(s) && Chains(s) && HasTxn(s, t) && s.txns[t].pc == Reads(todo, AwaitEnd(v, x)) && HasTxn(s, x)
    requires AimOk(s, t, AwaitEnd(v, x)) && EndKnown(s.txns[x]) && s.cert.SSI?
    ensures Checks(s, PutTxn(s, t, SuccEnd(s.cert, s.txns[t], todo, v, x, s.txns[x])), t, v)
  {
    hide Shapes, Chains;
    FocusStamped(s, t);
    GetSane(s);
    StatesAre(s, x);
    StatesAre(s, t);
    LinkCreator(s, v);
  }

  lemma LookPivot(s: State, t: Tid, todo: set<Vid>, v: Vid)
    requires Shapes(s) && Chains(s) && HasTxn(s, t) && s.txns[t].pc == Reads(todo, ReadAt.Next) && v in todo
    requires HasVer(s, v)
    requires PivotOf(s, t) && ReadOf(s, t) && s.cert.SSI?
    ensures PivotOf(PutTxn(s, t, LookAtSucc(s.cert, s.txns[t], t, todo - {v}, v, s.vers[v].sstamp)), t)
  {
    hide Shapes, Chains, Guar, TornOf, Ct3Of, TornReal, ReadOf, S2For, Checks;
    var T' := LookAtSucc(s.cert, s.txns[t], t, todo - {v}, v, s.vers[v].sstamp);
    var s' := PutTxn(s, t, T');
    ReadsGuar(s, t, todo, ReadAt.Next, v);
    LookChecks(s, t, todo, v);
    if s.vers[v].sstamp.ByLog? {
      GetSane(s);
      StatesAre(s, t);
      InSeen(s, t);
      LogOverwrote(s, t, v);
      Ct3Moves(s, t, T', v, OverBy(s, v).value);
      KeepTornReal(s, s', t, t);
      KeepTorn(s, s', t, t, v);
    } else {
      CalmPivot(s, s', t, t, v);
    }
  }

  lemma InSeen(s: State, t: Tid)
    requires Shapes(s) && HasTxn(s, t) && s.txns[t].pc.Reads?
    ensures s.txns[t].pc.todo + ReadFocus(s.txns[t].pc.rat) <= s.txns[t].seen && !Decided(s.txns[t])
    ensures ReadFocus(s.txns[t].pc.rat) !! s.txns[t].pc.todo
  {
    assert TxnOk(s, t);
  }

  lemma FatePivot(s: State, t: Tid, todo: set<Vid>, v: Vid, x: Tid, e: nat)
    requires Shapes(s) && Chains(s) && HasTxn(s, t) && s.txns[t].pc == Reads(todo, AwaitFate(v, x, e)) && HasTxn(s, x)
    requires AimOk(s, t, AwaitFate(v, x, e)) && FateKnown(s.txns[x]) && s.cert.SSI?
    requires PivotOf(s, t) && ReadOf(s, t)
    ensures PivotOf(PutTxn(s, t, SuccFate(s.cert, s.txns[t], todo, v, x, e, s.txns[x])), t)
  {
    hide Shapes, Chains, Guar, TornOf, Ct3Of, TornReal, ReadOf, S2For;
    var T' := SuccFate(s.cert, s.txns[t], todo, v, x, e, s.txns[x]);
    var s' := PutTxn(s, t, T');
    ReadsGuar(s, t, todo, AwaitFate(v, x, e), 0);
    InSeen(s, t);
    FocusStamped(s, t);
    GetSane(s);
    StatesAre(s, x);
    if T'.ct3 != s.txns[t].ct3 {
      Ct3Moves(s, t, T', v, x);
    } else {
      KeepCt3(s, s', t, t);
    }
    KeepTornReal(s, s', t, t);
    KeepTorn(s, s', t, t, v);
  }

  lemma CheckS2Pivot(s: State, t: Tid, todo: set<Vid>, v: Vid, pick: nat)
    requires Shapes(s) && Chains(s) && HasTxn(s, t) && s.txns[t].pc == Reads(todo, CheckS2(v)) && HasVer(s, v)
    requires PivotOf(s, t) && ReadOf(s, t) && s.cert.SSI?
    ensures PivotOf(PutTxn(s, t, ReadsTxn(s, t, todo, CheckS2(v), pick)), t)
  {
    hide Shapes, Chains, Guar, TornOf, Ct3Of, TornReal, ReadOf, S2For, MissesS2;
    var T' := ReadsTxn(s, t, todo, CheckS2(v), pick);
    var s' := PutTxn(s, t, T');
    ReadsGuar(s, t, todo, CheckS2(v), pick);
    InSeen(s, t);
    GetSane(s);
    GetSlots(s);
    StatesAre(s, t);
    KeepCt3(s, s', t, t);
    if T'.pc.Doomed? {
      KeepTornReal(s, s', t, t);
      OpenAll(s, t);
      KeepTorn(s, s', t, t, 0);
    } else {
      TornMoves(s, t, T', v);
      MissesChecks(s, t, T', v);
      KeepTorn(s, s', t, t, v);
    }
  }

  lemma OpenAll(s: State, t: Tid)
    requires Shapes(s) && HasTxn(s, t)
    ensures OpenS2(s.txns[t]) <= s.txns[t].rset
  {
    assert TxnOk(s, t);
  }

  lemma ReadsPivot(s: State, t: Tid, todo: set<Vid>, r: ReadAt, pick: nat)
    requires Shapes(s) && Chains(s) && HasTxn(s, t) && s.txns[t].pc == Reads(todo, r) && CanReads(s, todo, r, pick)
    requires PivotOf(s, t) && ReadOf(s, t) && s.cert.SSI?
    ensures PivotOf(PutTxn(s, t, ReadsTxn(s, t, todo, r, pick)), t)
  {
    hide Shapes, Chains, PivotOf, ReadOf, Guar, AimOk, S2For;
    var s' := PutTxn(s, t, ReadsTxn(s, t, todo, r, pick));
    ReadsGuar(s, t, todo, r, pick);
    AimNow(s, t);
    ReadsCerts(s, t);
    if r.Next? {
      if todo == {} { CalmPivot(s, s', t, t, 0); } else { LookPivot(s, t, todo, pick); }
    } else if r.Probe? {
      ProbeChecks(s, t, todo, r.v, r.x);
      CalmPivot(s, s', t, t, r.v);
    } else if r.AwaitEnd? {
      EndChecks(s, t, todo, r.v, r.x);
      CalmPivot(s, s', t, t, r.v);
    } else if r.AwaitFate? {
      FatePivot(s, t, todo, r.v, r.x, r.e);
    } else {
      CheckS2Pivot(s, t, todo, r.v, pick);
    }
  }

  lemma GoPivot(s: State, t: Tid, pick: nat)
    requires Shapes(s) && Chains(s) && CanGo(s, t, pick) && PivotOf(s, t) && ReadOf(s, t) && s.cert.SSI?
    ensures PivotOf(DoGo(s, t, pick), t)
  {
    hide Shapes, Chains, PivotOf, ReadOf, Guar, S2For, RecOk;
    var pc := s.txns[t].pc;
    var s' := DoGo(s, t, pick);
    GoGuar(s, t, pick);
    if pc.Work? { WorkPivot(s, t, pc.wat, pick); }
    else if pc.Reads? { ReadsPivot(s, t, pc.todo, pc.rat, pick); }
    else if pc.Writes? {
      WritesForm(s, t, pc.todo, pc.uat, pick);
      hide DoGo, WritesTxn;
      CalmPivot(s, s', t, t, 0);
    } else if Late(pc) {
      StatesAre(s, t);
      LateStep(s, t, pick);
      hide DoGo;
      CalmPivot(s, s', t, t, 0);
    } else {
      CalmPivot(s, s', t, t, 0);
    }
  }

  lemma ClientPivot(s: State, step: Step)
    requires Shapes(s) && Chains(s) && Enabled(s, step) && !step.Begin? && !step.Go? && PivotOf(s, step.t)
    requires ReadOf(s, step.t)
    requires s.cert.SSI?
    ensures PivotOf(Apply(s, step), step.t)
  {
    hide Shapes, Chains, PivotOf, ReadOf, Guar, S2For;
    StepGuar(s, step);
    StatesAre(s, step.t);
    OpenAll(s, step.t);
    CalmPivot(s, Apply(s, step), step.t, step.t, 0);
  }

  lemma NoPivot(s: State)
    requires !s.cert.SSI?
    ensures PivotSide(s)
  {
  }

  lemma BeginPivot(s: State, slot: Slot)
    requires PivotSide(s) && Chains(s)
    ensures PivotSide(DoBegin(s, slot))
  {
    hide PivotSide, Chains;
    var s' := DoBegin(s, slot);
    forall t | 0 <= t < |s'.txns| ensures PivotOf(s', t) {
      if t < |s.txns| {
        GetPivot(s, t);
        NewPivot(s, slot, t);
      }
    }
    AllPivots(s');
  }

  lemma NewPivot(s: State, slot: Slot, t: Tid)
    requires HasTxn(s, t) && PivotOf(s, t)
    ensures PivotOf(DoBegin(s, slot), t)
  {
    var s' := DoBegin(s, slot);
    var T := s.txns[t];
    if s.cert.SSI? && !T.st.Abrtd? {
      forall v | v in T.seen && v !in OpenS2(T) && HasVer(s', v) ensures S2For(s', t, v) { assert S2For(s, t, v); }
    }
    if s.cert.SSI? && T.ct3 != 0 {
      var w: Vid, y: Tid :| Ct3For(s, t, w, y);
      assert Ct3For(s', t, w, y);
    }
    if s.cert.SSI? && T.torn {
      var v: Vid, x: Tid :| TornFor(s, t, v, x);
      assert TornFor(s', t, v, x);
    }
  }

  /** Every step keeps what ct3 and the torn flag mean. */
  lemma StepPivot(s: State, step: Step)
    requires Shapes(s) && Chains(s) && ReadSide(s) && PivotSide(s) && Enabled(s, step)
    ensures PivotSide(Apply(s, step))
  {
    hide Shapes, Chains, ReadSide, ReadOf, PivotSide, PivotOf, Guar;
    var s' := Apply(s, step);
    if step.Begin? {
      BeginPivot(s, step.slot);
    } else {
      var t := step.t;
      StepGuar(s, step);
      SameCount(s, s', t);
      if !s.cert.SSI? { NoPivot(s'); }
      else {
        GetReads(s, t);
        GetPivot(s, t);
        if step.Go? { GoPivot(s, t, step.pick); } else { ClientPivot(s, step); }
        forall x | 0 <= x < |s'.txns| ensures PivotOf(s', x) {
          if x != t {
            GetReads(s, x);
            GetPivot(s, x);
            OthersPivot(s, s', t, x);
          }
        }
        AllPivots(s');
      }
    }
  }
}
