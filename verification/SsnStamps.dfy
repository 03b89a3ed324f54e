/** The stamps of SSN are exact: pstamp is the commit stamp of a committed predecessor, and sstamp that of a committed
    transaction reached backwards along anti-dependencies. */
module SsnStamps {
  import opened Options
  import opened Engine
  import opened EngineInv
  import opened EngineShapes
  import opened EngineGuar
  import opened EngineBits
  import opened EngineReads
  import opened EngineWrites
  import opened EngineFacts
  import opened EngineSsi
  import opened EngineMarks
  import opened EngineRuns
  import opened EngineReal
  import opened Dependencies
  import opened Snapshots

  // ---------------------------------------------------------------- predecessors

  /** t made a version on top of v, whether or not it kept it. */
  predicate Over(s: State, t: Tid, u: Vid, v: Vid) {
    HasVer(s, u) && HasVer(s, v) && s.vers[u].creator == t && s.vers[u].next == Some(v)
  }

  /** x committed with t's pstamp, and created v, which t read. */
  predicate PByRead(s: State, t: Tid, x: Tid, v: Vid) {
    && HasTxn(s, t) && HasTxn(s, x) && HasVer(s, v) && Decided(s.txns[x]) && s.txns[x].got == s.txns[t].pstamp
    && v in Touched(s.txns[t]) && s.vers[v].creator == x
  }

  /** x committed with t's pstamp, and created or read v, which t overwrote. */
  predicate PByWrite(s: State, t: Tid, x: Tid, u: Vid, v: Vid) {
    && HasTxn(s, t) && HasTxn(s, x) && Decided(s.txns[x]) && s.txns[x].got == s.txns[t].pstamp
    && Over(s, t, u, v) && (s.vers[v].creator == x || v in s.txns[x].seen)
  }

  ghost predicate POf(s: State, t: Tid)
    requires HasTxn(s, t)
  {
    s.cert.SSN? && s.txns[t].pstamp != 0 ==>
      || (exists x: Tid, v: Vid :: PByRead(s, t, x, v))
      || (exists x: Tid, u: Vid, v: Vid :: PByWrite(s, t, x, u, v))
  }

  // ---------------------------------------------------------------- successors

  /** x committed with t's sstamp, and overwrote v, which t read. */
  predicate SFor(s: State, t: Tid, x: Tid, v: Vid) {
    && HasTxn(s, t) && x != t && v in Touched(s.txns[t]) && Overwrote(s, v, x) && s.txns[x].sstamp == s.txns[t].sstamp
  }

  ghost predicate SOf(s: State, t: Tid)
    requires HasTxn(s, t)
  {
    s.cert.SSN? && s.txns[t].sstamp != 0 ==>
      s.txns[t].sstamp == s.txns[t].got || exists x: Tid, v: Vid :: SFor(s, t, x, v)
  }

  ghost predicate StampsReal(s: State) { forall t :: 0 <= t < |s.txns| ==> POf(s, t) && SOf(s, t) }

  // ---------------------------------------------------------------- what a step leaves alone

  /** Under SSN nothing that was read is forgotten. */
  lemma SsnTouched(s: State, step: Step)
    requires Shapes(s) && Chains(s) && Enabled(s, step) && !step.Begin? && s.cert.SSN?
    ensures HasTxn(Apply(s, step), step.t) && Touched(s.txns[step.t]) <= Touched(Apply(s, step).txns[step.t])
  {
    hide Shapes, Chains, DoWork, DoGo;
    StepOwn(s, step);
    if step.Go? {
      GetTxn(s, step.t);
      GoTouched(s, step.t, step.pick);
    }
  }

  lemma GoTouched(s: State, t: Tid, pick: nat)
    requires Shapes(s) && Chains(s) && CanGo(s, t, pick) && s.cert.SSN?
    ensures HasTxn(DoGo(s, t, pick), t) && Touched(s.txns[t]) <= Touched(DoGo(s, t, pick).txns[t])
  {
    hide Shapes, Chains, DoWork, ReadsTxn, WritesTxn, DoStamps, DoLeave, DoForget, DoRevert, RecOk, TargetsFor;
    var pc := s.txns[t].pc;
    GetTxn(s, t);
    if pc.Work? {
      NoS2(s, t);
      WorkTouched(s, t, pc.wat, pick);
    }
    else if pc.Reads? { ReadsTargets(s, t, pc.todo, pc.rat, pick); }
    else if pc.Writes? { WritesForm(s, t, pc.todo, pc.uat, pick); }
    else if Late(pc) { LateStep(s, t, pick); }
  }

  lemma NoS2(s: State, t: Tid)
    requires Shapes(s) && HasTxn(s, t) && s.cert.SSN? && s.txns[t].pc.Work?
    ensures !s.txns[t].pc.wat.ReadS2?
  {
    assert TxnOk(s, t);
  }

  lemma WorkTouched(s: State, t: Tid, w: WorkAt, pick: nat)
    requires HasTxn(s, t) && s.txns[t].pc == Work(w) && CanWork(s, w) && s.cert.SSN? && !w.ReadS2?
    ensures HasTxn(DoWork(s, t, w, pick), t) && Touched(s.txns[t]) <= Touched(DoWork(s, t, w, pick).txns[t])
  {
  }

  lemma KeepOver(s: State, s': State, m: Tid, t: Tid, u: Vid, v: Vid)
    requires Guar(s, s', m) && Over(s, t, u, v)
    ensures Over(s', t, u, v)
  {
    assert VerGuar(s, s', m, u);
  }

  lemma KeepP(s: State, s': State, m: Tid, t: Tid)
    requires Guar(s, s', m) && HasTxn(s, t) && POf(s, t)
    requires s'.txns[t].pstamp == s.txns[t].pstamp && Touched(s.txns[t]) <= Touched(s'.txns[t])
    ensures POf(s', t)
  {
    if s.cert.SSN? && s.txns[t].pstamp != 0 {
      if x: Tid, v: Vid :| PByRead(s, t, x, v) {
        assert VerGuar(s, s', m, v);
        assert PByRead(s', t, x, v);
      } else {
        var x: Tid, u: Vid, v: Vid :| PByWrite(s, t, x, u, v);
        KeepOver(s, s', m, t, u, v);
        assert VerGuar(s, s', m, v);
        assert PByWrite(s', t, x, u, v);
      }
    }
  }

  lemma KeepS(s: State, s': State, m: Tid, t: Tid)
    requires Guar(s, s', m) && HasTxn(s, t) && SOf(s, t) && (s'.txns[t].got == s.txns[t].got || s.txns[t].got == 0)
    requires s'.txns[t].sstamp == s.txns[t].sstamp && Touched(s.txns[t]) <= Touched(s'.txns[t])
    ensures SOf(s', t)
  {
    if s.cert.SSN? && s.txns[t].sstamp != 0 && s.txns[t].sstamp != s.txns[t].got {
      var x: Tid, v: Vid :| SFor(s, t, x, v);
      KeepOverwrote(s, s', m, v, x);
      SameSstamp(s, s', m, x);
      assert SFor(s', t, x, v);
    }
  }

  lemma SameSstamp(s: State, s': State, m: Tid, x: Tid)
    requires Guar(s, s', m) && HasTxn(s, x) && Decided(s.txns[x])
    ensures s'.txns[x].sstamp == s.txns[x].sstamp
  {
  }

  // ---------------------------------------------------------------- where the stamps come from

  /** The creator of a committed version. */
  lemma CreatorReal(s: State, v: Vid)
    requires Shapes(s) && Chains(s) && HasVer(s, v) && s.vers[v].clsn.Stamped?
    ensures HasTxn(s, s.vers[v].creator) && Decided(s.txns[s.vers[v].creator])
    ensures s.txns[s.vers[v].creator].got == s.vers[v].clsn.n
  {
    hide Shapes, Chains, LinkOk, TopOk;
    GetVer(s, v);
  }

  /** A final successor stamp is that of the overwriter. */
  lemma SuccReal(s: State, t: Tid, v: Vid)
    requires Shapes(s) && Chains(s) && s.cert.SSN? && HasTxn(s, t) && !Decided(s.txns[t])
    requires HasVer(s, v) && s.vers[v].sstamp.ByLog?
    ensures exists x: Tid :: x != t && Overwrote(s, v, x) && s.txns[x].sstamp == s.vers[v].sstamp.stamp
  {
    hide Shapes, Chains;
    SuccMeans(s, v);
    assert Overwrote(s, v, OverBy(s, v).value);
  }

  lemma ReadSuccReal(s: State, t: Tid, v: Vid)
    requires Shapes(s) && Chains(s) && s.cert.SSN? && HasTxn(s, t) && s.txns[t].pc == Work(ReadSucc(v)) && HasVer(s, v)
    requires POf(s, t) && SOf(s, t)
    ensures HasTxn(DoWork(s, t, ReadSucc(v), 0), t)
    ensures POf(DoWork(s, t, ReadSucc(v), 0), t) && SOf(DoWork(s, t, ReadSucc(v), 0), t)
  {
    hide Shapes, Chains;
    var s' := DoWork(s, t, ReadSucc(v), 0);
    WorkGuar(s, t, ReadSucc(v), 0);
    WorkTouched(s, t, ReadSucc(v), 0);
    StatesAre(s, t);
    ReadSuccStamps(s, t, v);
    hide DoWork;
    if s'.txns[t].pstamp == s.txns[t].pstamp { KeepP(s, s', t, t); }
    else {
      CreatorReal(s, v);
      assert VerGuar(s, s', t, v);
      assert PByRead(s', t, s.vers[v].creator, v);
    }
    if s'.txns[t].sstamp == s.txns[t].sstamp { KeepS(s, s', t, t); }
    else { TakesSucc(s, s', t, v); }
  }

  lemma ReadSuccStamps(s: State, t: Tid, v: Vid)
    requires HasTxn(s, t) && s.txns[t].pc == Work(ReadSucc(v)) && HasVer(s, v) && s.cert.SSN?
    ensures HasTxn(DoWork(s, t, ReadSucc(v), 0), t)
    ensures var T, T' := s.txns[t], DoWork(s, t, ReadSucc(v), 0).txns[t];
      && T'.got == T.got && v in Touched(T') && v in Touched(T)
      && (T'.pstamp == T.pstamp || (s.vers[v].clsn.Stamped? && T'.pstamp == s.vers[v].clsn.n))
      && (T'.sstamp == T.sstamp || (s.vers[v].sstamp.ByLog? && T'.sstamp == s.vers[v].sstamp.stamp))
  {
  }

  /** t took over the final successor stamp of v. */
  lemma TakesSucc(s: State, s': State, t: Tid, v: Vid)
    requires Shapes(s) && Chains(s) && s.cert.SSN? && Guar(s, s', t) && HasTxn(s, t) && !Decided(s.txns[t])
    requires HasVer(s, v) && s.vers[v].sstamp.ByLog? && s'.txns[t].sstamp == s.vers[v].sstamp.stamp
    requires v in Touched(s'.txns[t])
    ensures SOf(s', t)
  {
    hide Shapes, Chains;
    SuccReal(s, t, v);
    var x: Tid :| x != t && Overwrote(s, v, x) && s.txns[x].sstamp == s.vers[v].sstamp.stamp;
    KeepOverwrote(s, s', t, v, x);
    SameSstamp(s, s', t, x);
    assert SFor(s', t, x, v);
  }

  /** t took over v's access stamp, below its own version u. */
  lemma TakesX(s: State, s': State, t: Tid, u: Vid, v: Vid)
    requires XReal(s) && Guar(s, s', t) && Over(s, t, u, v) && HasTxn(s, t)
    requires s'.txns[t].pstamp == s.vers[v].xstamp
    ensures POf(s', t)
  {
    assert XOf(s, v);
    if s.vers[v].xstamp != 0 {
      var x: Tid :| XFor(s, v, x);
      KeepOver(s, s', t, t, u, v);
      assert VerGuar(s, s', t, v);
      assert PByWrite(s', t, x, u, v);
    }
  }

  lemma OwnOver(s: State, t: Tid, u: Vid)
    requires Shapes(s) && HasTxn(s, t) && HasNext(s, u) && u in Made(s.txns[t])
    ensures Over(s, t, u, Prev(s, u))
  {
    assert TxnOk(s, t);
  }

  lemma WorkReal(s: State, t: Tid, w: WorkAt, pick: nat)
    requires Shapes(s) && Chains(s) && XReal(s) && s.cert.SSN? && HasTxn(s, t) && s.txns[t].pc == Work(w)
    requires CanWork(s, w) && POf(s, t) && SOf(s, t)
    ensures HasTxn(DoWork(s, t, w, pick), t) && POf(DoWork(s, t, w, pick), t) && SOf(DoWork(s, t, w, pick), t)
  {
    hide Shapes, Chains, POf, SOf;
    NoS2(s, t);
    if w.ReadSucc? { ReadSuccReal(s, t, w.v); }
    else {
      var s' := DoWork(s, t, w, pick);
      WorkGuar(s, t, w, pick);
      WorkTouched(s, t, w, pick);
      WorkStamps(s, t, w, pick);
      hide DoWork;
      KeepS(s, s', t, t);
      if s'.txns[t].pstamp == s.txns[t].pstamp { KeepP(s, s', t, t); }
      else {
        OwnOver(s, t, w.u);
        TakesX(s, s', t, w.u, Prev(s, w.u));
      }
    }
  }

  lemma WorkStamps(s: State, t: Tid, w: WorkAt, pick: nat)
    requires HasTxn(s, t) && s.txns[t].pc == Work(w) && CanWork(s, w) && !w.ReadSucc?
    ensures HasTxn(DoWork(s, t, w, pick), t)
    ensures var T, T' := s.txns[t], DoWork(s, t, w, pick).txns[t];
      && T'.got == T.got && T'.sstamp == T.sstamp
      && (T'.pstamp == T.pstamp || (w.Installed? && T'.pstamp == s.vers[Prev(s, w.u)].xstamp))
  {
  }

  lemma ReadsReal(s: State, t: Tid, pick: nat)
    requires Shapes(s) && Chains(s) && s.cert.SSN? && CanGo(s, t, pick) && s.txns[t].pc.Reads? && ReadOf(s, t)
    requires POf(s, t) && SOf(s, t)
    ensures HasTxn(DoGo(s, t, pick), t) && POf(DoGo(s, t, pick), t) && SOf(DoGo(s, t, pick), t)
  {
    hide Shapes, Chains, POf, SOf;
    var s', T, todo, r := DoGo(s, t, pick), s.txns[t], s.txns[t].pc.todo, s.txns[t].pc.rat;
    GoGuar(s, t, pick);
    GoTouched(s, t, pick);
    StatesAre(s, t);
    GetTxn(s, t);
    TornGrows(s, t, todo, r, pick);
    ReadsStamps(s, t, todo, r, pick);
    hide ReadsTxn, AimOk;
    KeepP(s, s', t, t);
    if s'.txns[t].sstamp == T.sstamp { KeepS(s, s', t, t); }
    else if r.Next? {
      assert pick in T.rset && pick in Touched(s'.txns[t]);
      TakesSucc(s, s', t, pick);
    } else {
      assert r.v in T.rset && r.v in Touched(T);
      assert HasVer(s, r.v);
      TakesFate(s, s', t, todo, r);
    }
  }

  lemma ReadsStamps(s: State, t: Tid, todo: set<Vid>, r: ReadAt, pick: nat)
    requires HasTxn(s, t) && s.txns[t].pc == Reads(todo, r) && CanReads(s, todo, r, pick) && s.cert.SSN?
    ensures var T, T' := s.txns[t], ReadsTxn(s, t, todo, r, pick);
      && T'.got == T.got && T'.pstamp == T.pstamp
      && (|| T'.sstamp == T.sstamp
          || (r.Next? && todo != {} && s.vers[pick].sstamp.ByLog? && T'.sstamp == s.vers[pick].sstamp.stamp)
          || (r.TakeStamp? && !s.txns[r.x].pc.Freed? && T'.sstamp == s.txns[r.x].sstamp))
  {
  }

  /** t inherited the successor stamp of a committed overwriter. */
  lemma TakesFate(s: State, s': State, t: Tid, todo: set<Vid>, r: ReadAt)
    requires Guar(s, s', t) && HasTxn(s, t) && s.cert.SSN? && s.txns[t].pc == Reads(todo, r) && r.TakeStamp?
    requires HasVer(s, r.v) && AimOk(s, t, r) && r.v in Touched(s'.txns[t]) && s'.txns[t].sstamp == s.txns[r.x].sstamp
    ensures SOf(s', t)
  {
    assert Overwrote(s, r.v, r.x);
    KeepOverwrote(s, s', t, r.v, r.x);
    SameSstamp(s, s', t, r.x);
    assert SFor(s', t, r.x, r.v);
  }

  lemma WritesReal(s: State, t: Tid, pick: nat)
    requires Shapes(s) && Chains(s) && XReal(s) && s.cert.SSN? && CanGo(s, t, pick) && s.txns[t].pc.Writes?
    requires ScanReal(s, t) && WriteOf(s, t) && POf(s, t) && SOf(s, t)
    ensures HasTxn(DoGo(s, t, pick), t) && POf(DoGo(s, t, pick), t) && SOf(DoGo(s, t, pick), t)
  {
    hide Shapes, Chains, POf, SOf, XReal;
    var s', T, todo, w := DoGo(s, t, pick), s.txns[t], s.txns[t].pc.todo, s.txns[t].pc.uat;
    GoGuar(s, t, pick);
    GoTouched(s, t, pick);
    StatesAre(s, t);
    WritesForm(s, t, todo, w, pick);
    WritesStamps(s, t, todo, w, pick);
    hide WritesTxn;
    KeepS(s, s', t, t);
    if s'.txns[t].pstamp == T.pstamp { KeepP(s, s', t, t); }
    else {
      MadeHas(s, t);
      OwnOver(s, t, w.u);
      if w.LastXstamp? { TakesX(s, s', t, w.u, Prev(s, w.u)); }
      else { TakesReader(s, s', t, todo, w); }
    }
  }

  lemma WritesStamps(s: State, t: Tid, todo: set<Vid>, w: WriteAt, pick: nat)
    requires HasTxn(s, t) && s.txns[t].pc == Writes(todo, w) && CanWrites(s, todo, w, pick) && s.cert.SSN?
    ensures var T, T' := s.txns[t], WritesTxn(s, t, todo, w, pick);
      && T'.got == T.got && T'.sstamp == T.sstamp
      && (|| T'.pstamp == T.pstamp
          || (w.LastXstamp? && T'.pstamp == s.vers[Prev(s, w.u)].xstamp)
          || (w.Scan? && w.at.AwaitReaderFate? && HasTxn(s, w.at.r) && s.txns[w.at.r].st.Cmmtd? && T'.pstamp == w.at.e))
  {
  }

  /** t took over the commit stamp of a reader of the version below u. */
  lemma TakesReader(s: State, s': State, t: Tid, todo: set<Vid>, w: WriteAt)
    requires Guar(s, s', t) && HasTxn(s, t) && s.txns[t].pc == Writes(todo, w) && w.Scan? && w.at.AwaitReaderFate?
    requires HasNext(s, w.u) && ScanReal(s, t) && ScanOk(s, t, w) && Over(s, t, w.u, Prev(s, w.u))
    requires HasTxn(s, w.at.r) && s.txns[w.at.r].st.Cmmtd? && s'.txns[t].pstamp == w.at.e
    ensures POf(s', t)
  {
    KeepOver(s, s', t, t, w.u, Prev(s, w.u));
    assert VerGuar(s, s', t, Prev(s, w.u));
    assert PByWrite(s', t, w.at.r, w.u, Prev(s, w.u));
  }

  /** Other steps change no stamp, except that publication sets a missing sstamp to the commit stamp. */
  lemma OtherStamps(s: State, step: Step)
    requires Shapes(s) && Enabled(s, step) && !step.Begin? && s.cert.SSN?
    requires step.Go? ==> !s.txns[step.t].pc.Work? && !s.txns[step.t].pc.Reads? && !s.txns[step.t].pc.Writes?
    ensures HasTxn(Apply(s, step), step.t)
    ensures var T, T' := s.txns[step.t], Apply(s, step).txns[step.t];
      && T'.pstamp == T.pstamp && (T'.got == T.got || T.got == 0) && (T'.sstamp == T.sstamp || T'.sstamp == T'.got)
  {
    hide Shapes, DoStamps, DoLeave, DoRevert;
    StatesAre(s, step.t);
    if step.Go? && Late(s.txns[step.t].pc) { LateStep(s, step.t, step.pick); }
  }

  lemma OwnReal(s: State, step: Step)
    requires Inv(s) && XReal(s) && ScansReal(s) && Enabled(s, step) && !step.Begin? && s.cert.SSN?
    requires HasTxn(s, step.t) && POf(s, step.t) && SOf(s, step.t)
    ensures HasTxn(Apply(s, step), step.t) && POf(Apply(s, step), step.t) && SOf(Apply(s, step), step.t)
  {
    hide Shapes, Chains, BitSide, ReadSide, WriteSide, Facts, PivotSide, Roots, S2Side, Waits, ClaimSide, XReal;
    hide POf, SOf, ReadOf, WriteOf;
    var t, pc := step.t, s.txns[step.t].pc;
    if step.Go? && pc.Work? { WorkReal(s, t, pc.wat, step.pick); }
    else if step.Go? && pc.Reads? { GetReads(s, t); ReadsReal(s, t, step.pick); }
    else if step.Go? && pc.Writes? {
      GetWrites(s, t);
      assert ScanReal(s, t);
      WritesReal(s, t, step.pick);
    } else {
      var s' := Apply(s, step);
      StepGuar(s, step);
      SsnTouched(s, step);
      OtherStamps(s, step);
      hide Apply;
      KeepP(s, s', t, t);
      if s'.txns[t].sstamp == s.txns[t].sstamp { KeepS(s, s', t, t); } else { OwnStamp(s', t); }
    }
  }

  lemma OwnStamp(s: State, t: Tid)
    requires HasTxn(s, t) && s.txns[t].sstamp == s.txns[t].got
    ensures SOf(s, t)
  {
  }

  lemma StepReal(s: State, step: Step)
    requires Inv(s) && XReal(s) && ScansReal(s) && StampsReal(s) && Enabled(s, step)
    ensures StampsReal(Apply(s, step))
  {
    hide Shapes, Chains, BitSide, ReadSide, WriteSide, Facts, PivotSide, Roots, S2Side, Waits, ClaimSide;
    hide XReal, ScansReal, POf, SOf;
    var s' := Apply(s, step);
    if !s.cert.SSN? { NotSsn(s, step); }
    else if step.Begin? { BeginReal(s, step.slot); }
    else {
      StepGuar(s, step);
      assert POf(s, step.t) && SOf(s, step.t);
      OwnReal(s, step);
      forall t | 0 <= t < |s'.txns| ensures POf(s', t) && SOf(s', t) {
        if t != step.t {
          assert s'.txns[t] == s.txns[t];
          KeepP(s, s', step.t, t);
          KeepS(s, s', step.t, t);
        }
      }
    }
  }

  lemma NotSsn(s: State, step: Step)
    requires Enabled(s, step) && !s.cert.SSN?
    ensures StampsReal(Apply(s, step))
  {
    if !step.Begin? { XidsStep(s, step); }
    hide Apply;
  }

  lemma BeginReal(s: State, slot: Slot)
    requires StampsReal(s)
    ensures StampsReal(DoBegin(s, slot))
  {
    var s' := DoBegin(s, slot);
    forall t | 0 <= t < |s'.txns| ensures POf(s', t) && SOf(s', t) {
      if t < |s.txns| {
        assert POf(s, t) && SOf(s, t);
        if x: Tid, v: Vid :| PByRead(s, t, x, v) { assert PByRead(s', t, x, v); }
        if x: Tid, u: Vid, v: Vid :| PByWrite(s, t, x, u, v) { assert PByWrite(s', t, x, u, v); }
        if x: Tid, v: Vid :| SFor(s, t, x, v) { assert SFor(s', t, x, v); }
      }
    }
  }

  // ---------------------------------------------------------------- every run

  ghost predicate Real(s: State) { BitsReal(s) && ScansReal(s) && XReal(s) && StampsReal(s) }

  lemma {:induction false} RunReal(states: seq<State>, steps: seq<Step>, k: nat)
    requires Run(states, steps) && k <= |steps|
    ensures Real(states[k])
  {
    if k > 0 {
      RunReal(states, steps, k - 1);
      RunInv(states, steps, k - 1);
      var s, step := states[k - 1], steps[k - 1];
      assert Goes(s, step, states[k]);
      hide Apply, Enabled, Shapes, Chains, BitsReal, ScansReal, XReal, StampsReal;
      hide BitSide, ReadSide, WriteSide, Facts, PivotSide, Roots, S2Side, Waits, ClaimSide;
      StepBitsReal(s, step);
      StepScans(s, step);
      StepX(s, step);
      StepReal(s, step);
    }
  }

  lemma ReachReal(s: State)
    requires Reachable(s)
    ensures Inv(s) && Real(s)
  {
    hide Inv, Real;
    ReachInv(s);
    var states: seq<State>, steps: seq<Step> :| Run(states, steps) && states[|steps|] == s;
    RunReal(states, steps, |steps|);
  }
}
