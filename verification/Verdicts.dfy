/** What makes a certifier refuse, and that nothing else does: the two stamps of SSN are exactly the ones its definition
    asks for, and each certifier dooms a transaction only because of a conflict that is there. */
module Verdicts {
  import opened Options
  import opened Engine
  import opened EngineInv
  import opened EngineShapes
  import opened EngineGuar
  import opened EngineBits
  import opened EngineReads
  import opened EngineWrites
  import opened EngineFacts
  import opened EngineSsi
  import opened EngineMarks
  import opened EngineRuns
  import opened EngineReal
  import opened Dependencies
  import opened Snapshots
  import opened SsnStamps

  // ---------------------------------------------------------------- the decision

  /** At the end of pre-commit SSN commits exactly the transactions whose predecessors committed before their
      successors; SSI and MVOCC commit whatever has come so far. */
  lemma DecisionExact(s: State, t: Tid, pick: nat)
    requires Reachable(s) && HasTxn(s, t) && s.txns[t].pc.Deciding?
    ensures HasTxn(Apply(s, Go(t, pick)), t)
    ensures var T, T' := s.txns[t], Apply(s, Go(t, pick)).txns[t];
      && (T'.pc.Stamps? <==> (s.cert.SSN? ==> T.pstamp < T.sstamp)) && (!T'.pc.Stamps? ==> T'.pc.Doomed?)
  {
    hide Reachable;
    ReachInv(s);
    hide Shapes, Chains, BitSide, ReadSide, WriteSide, Facts, PivotSide, Roots, S2Side, Waits, ClaimSide;
    StatesAre(s, t);
  }

  // ---------------------------------------------------------------- pstamp

  /** A version that a committed transaction made is one it wrote. */
  lemma MadeIsKept(s: State, t: Tid, u: Vid)
    requires Inv(s) && Committed(s, t) && HasVer(s, u) && s.vers[u].creator == t
    ensures u in s.txns[t].wset
  {
    hide Shapes, Chains, BitSide, ReadSide, WriteSide, Facts, PivotSide, Roots, S2Side, Waits;
    assert DeadOf(s, u);
    hide ClaimSide, LinkOk, TopOk;
    NotLost(s, t);
    GetVer(s, u);
    OwnTodo(s, t);
    StatesAre(s, t);
  }

  /** pstamp of a committed transaction is the largest commit stamp, below its own, of a transaction it depends on. */
  lemma PstampExact(s: State, t: Tid)
    requires Reachable(s) && s.cert.SSN? && Committed(s, t)
    ensures forall x: Tid :: Depends(s, x, t) && s.txns[x].got < s.txns[t].got ==> s.txns[x].got <= s.txns[t].pstamp
    ensures s.txns[t].pstamp != 0 ==>
      exists x: Tid :: Depends(s, x, t) && s.txns[x].got == s.txns[t].pstamp < s.txns[t].got
  {
    hide Inv, Depends, Reachable, Real;
    ReachReal(s);
    forall x: Tid | HasTxn(s, x) && Depends(s, x, t) && s.txns[x].got < s.txns[t].got
      ensures s.txns[x].got <= s.txns[t].pstamp
    {
      PstampCovers(s, x, t);
    }
    forall x: Tid | Depends(s, x, t) ensures HasTxn(s, x) { DependsCommitted(s, x, t); }
    if s.txns[t].pstamp != 0 { var x := PstampAttained(s, t); }
  }

  lemma PstampCovers(s: State, x: Tid, t: Tid)
    requires Inv(s) && s.cert.SSN? && Depends(s, x, t) && s.txns[x].got < s.txns[t].got
    ensures s.txns[x].got <= s.txns[t].pstamp
  {
    hide Shapes, Chains, BitSide, ReadSide, WriteSide, Facts, PivotSide, Roots, S2Side, Waits, ClaimSide;
    CommittedStamp(s, t);
    GetFacts(s, t);
    if v: Vid :| WriteRead(s, x, t, v) { ReadsCommitted(s, t, v); }
    else if u: Vid :| WriteWrite(s, x, t, u) { Linked(s, t, u); }
    else {
      var u: Vid :| ReadWrite(s, x, t, u);
      KnownReader(s, x, t, u);
    }
  }

  lemma PstampAttained(s: State, t: Tid) returns (x: Tid)
    requires Inv(s) && Real(s) && s.cert.SSN? && Committed(s, t) && s.txns[t].pstamp != 0
    ensures Depends(s, x, t) && s.txns[x].got == s.txns[t].pstamp < s.txns[t].got
  {
    hide Shapes, Chains, BitSide, ReadSide, WriteSide, Facts, PivotSide, Roots, S2Side, Waits, ClaimSide;
    hide BitsReal, ScansReal, XReal;
    assert POf(s, t);
    CommittedStamp(s, t);
    NotLost(s, t);
    GetFacts(s, t);
    if y: Tid, v: Vid :| PByRead(s, t, y, v) {
      x := y;
      assert WriteRead(s, x, t, v);
    } else {
      var y: Tid, u: Vid, v: Vid :| PByWrite(s, t, y, u, v);
      x := y;
      MadeIsKept(s, t, u);
      if s.vers[v].creator == x { assert WriteWrite(s, x, t, u); } else { assert ReadWrite(s, x, t, u); }
    }
  }

  // ---------------------------------------------------------------- sstamp

  /** A path of committed transactions along anti-dependencies, each to one with a smaller commit stamp. */
  ghost predicate BackPath(s: State, p: seq<Tid>) {
    && p != [] && (forall i :: 0 <= i < |p| ==> Committed(s, p[i]))
    && forall i :: 0 <= i < |p| - 1 ==> BackEdge(s, p[i], p[i + 1])
  }

  ghost predicate BackEdge(s: State, a: Tid, b: Tid) {
    a != b && HasTxn(s, a) && HasTxn(s, b) && AntiDepends(s, a, b) && s.txns[b].got < s.txns[a].got
  }

  /** sstamp of a committed transaction is the smallest commit stamp at the end of such a path. */
  lemma SstampExact(s: State, t: Tid)
    requires Reachable(s) && s.cert.SSN? && Committed(s, t)
    ensures forall p: seq<Tid> :: BackPath(s, p) && p[0] == t ==>
      Committed(s, p[|p| - 1]) && s.txns[t].sstamp <= s.txns[p[|p| - 1]].got
    ensures exists p: seq<Tid> ::
      BackPath(s, p) && p[0] == t && Committed(s, p[|p| - 1]) && s.txns[t].sstamp == s.txns[p[|p| - 1]].got
  {
    hide Inv, Reachable, Real, BackEdge;
    ReachReal(s);
    forall p: seq<Tid> | BackPath(s, p) && p[0] == t ensures s.txns[t].sstamp <= s.txns[p[|p| - 1]].got {
      SstampCovers(s, p);
    }
    var p := SstampAttained(s, t);
  }

  lemma {:induction false} SstampCovers(s: State, p: seq<Tid>)
    requires Inv(s) && s.cert.SSN? && BackPath(s, p)
    ensures Committed(s, p[0]) && Committed(s, p[|p| - 1]) && s.txns[p[0]].sstamp <= s.txns[p[|p| - 1]].got
    decreases |p|
  {
    if |p| == 1 { SstampBound(s, p[0]); }
    else {
      var q := p[1..];
      assert forall i :: 0 <= i < |q| ==> q[i] == p[i + 1];
      assert BackEdge(s, p[0], p[1]);
      assert forall i :: 0 <= i < |q| - 1 ==> BackEdge(s, p[i + 1], p[i + 2]) ==> BackEdge(s, q[i], q[i + 1]);
      assert BackPath(s, q);
      hide Inv;
      SstampCovers(s, q);
      EdgeCovers(s, p[0], p[1]);
    }
  }

  lemma SstampBound(s: State, t: Tid)
    requires Inv(s) && s.cert.SSN? && Committed(s, t)
    ensures 0 < s.txns[t].sstamp <= s.txns[t].got && s.txns[t].pstamp < s.txns[t].sstamp
  {
    hide Shapes, Chains, BitSide, ReadSide, WriteSide, Facts, PivotSide, Roots, S2Side, Waits, ClaimSide;
    CommittedStamp(s, t);
    GetFacts(s, t);
  }

  lemma EdgeCovers(s: State, a: Tid, b: Tid)
    requires Inv(s) && s.cert.SSN? && Committed(s, a) && Committed(s, b) && BackEdge(s, a, b)
    ensures s.txns[a].sstamp <= s.txns[b].sstamp
  {
    hide Inv;
    var u: Vid :| ReadWrite(s, a, b, u);
    SsnBothWays(s, a, b, u);
  }

  lemma {:induction false} SstampAttained(s: State, t: Tid) returns (p: seq<Tid>)
    requires Inv(s) && Real(s) && s.cert.SSN? && Committed(s, t)
    ensures BackPath(s, p) && p[0] == t && Committed(s, p[|p| - 1]) && s.txns[t].sstamp == s.txns[p[|p| - 1]].got
    decreases s.txns[t].got
  {
    SstampBound(s, t);
    if s.txns[t].sstamp == s.txns[t].got { return [t]; }
    var x := SstampFrom(s, t);
    hide Inv, Real, BackEdge;
    var q := SstampAttained(s, x);
    p := [t] + q;
    assert forall i :: 1 <= i < |p| ==> p[i] == q[i - 1];
  }

  lemma SstampFrom(s: State, t: Tid) returns (x: Tid)
    requires Inv(s) && Real(s) && s.cert.SSN? && Committed(s, t) && 0 < s.txns[t].sstamp != s.txns[t].got
    ensures Committed(s, x) && BackEdge(s, t, x)
    ensures s.txns[x].sstamp == s.txns[t].sstamp && s.txns[x].got < s.txns[t].got
  {
    hide Shapes, Chains, BitSide, ReadSide, WriteSide, Facts, PivotSide, Roots, S2Side, Waits, ClaimSide;
    hide BitsReal, ScansReal, XReal;
    assert SOf(s, t);
    NotLost(s, t);
    var y: Tid, v: Vid :| SFor(s, t, y, v);
    x := y;
    OverIsEdge(s, t, x, v);
    var u: Vid :| ReadWrite(s, t, x, u);
    SsnBothWays(s, t, x, u);
    SstampBound(s, x);
    SstampBound(s, t);
  }

  // ---------------------------------------------------------------- nobody younger

  /** A committed reader has seen every overwriter with a smaller commit stamp to its end: when readers leave, and may
      wait for such an overwriter once more, its verdict has fallen. */
  lemma LeavesLast(s: State, x: Tid, v: Vid, t: Tid)
    requires Inv(s) && HasTxn(s, x) && Decided(s.txns[x]) && v in s.txns[x].seen && HasVer(s, v)
    requires x != t && HasTxn(s, t) && OverBy(s, v) == Some(t) && 0 < s.txns[t].got < s.txns[x].got
    ensures Decided(s.txns[t]) || s.txns[t].st.Abrtd?
  {
    hide Shapes, Chains, BitSide, ReadSide, WriteSide, Facts, PivotSide, Roots, S2Side, Waits, ClaimSide;
    CommittedStamp(s, x);
    GetReads(s, x);
    if v in s.txns[x].rset { assert Resolved(s, x, v); } else { assert Untracked(s, x, v); }
  }

  /** The access stamp that t finds below its own version is smaller than its commit stamp. */
  lemma XBelow(s: State, t: Tid, u: Vid)
    requires Inv(s) && Real(s) && HasTxn(s, t) && s.txns[t].pc.Writes? && u in s.txns[t].wset && HasNext(s, u)
    ensures s.vers[Prev(s, u)].xstamp < s.txns[t].got
  {
    hide Shapes, Chains, BitSide, ReadSide, WriteSide, Facts, PivotSide, Roots, S2Side, Waits, ClaimSide;
    hide BitsReal, ScansReal, StampsReal;
    var v := Prev(s, u);
    StatesAre(s, t);
    MadeHas(s, t);
    GetVer(s, u);
    GetVer(s, v);
    GetFacts(s, t);
    assert WhenFor(s, t, u);
    assert XOf(s, v);
    if s.vers[v].xstamp != 0 {
      var x: Tid :| XFor(s, v, x);
      if s.vers[v].creator != x && s.txns[t].got < s.txns[x].got { LeavesLast(s, x, v, t); }
      GetSlots(s);
    }
  }

  ghost predicate Below(s: State) {
    s.cert.SSN? ==> forall t :: 0 <= t < |s.txns| && s.txns[t].got != 0 ==> s.txns[t].pstamp < s.txns[t].got
  }

  lemma StepBelow(s: State, step: Step)
    requires Inv(s) && Real(s) && Below(s) && Enabled(s, step)
    ensures Below(Apply(s, step))
  {
    hide Shapes, Chains, BitSide, ReadSide, WriteSide, Facts, PivotSide, Roots, S2Side, Waits, ClaimSide;
    hide BitsReal, ScansReal, XReal, StampsReal;
    if !step.Begin? {
      var s' := Apply(s, step);
      StepGuar(s, step);
      XidsStep(s, step);
      if s.cert.SSN? && s'.txns[step.t].got != 0 { OwnBelow(s, step); }
      hide Apply;
    }
  }

  lemma OwnBelow(s: State, step: Step)
    requires Inv(s) && Real(s) && Below(s) && s.cert.SSN? && Enabled(s, step) && !step.Begin? && HasTxn(s, step.t)
    requires HasTxn(Apply(s, step), step.t) && Apply(s, step).txns[step.t].got != 0
    ensures Apply(s, step).txns[step.t].pstamp < Apply(s, step).txns[step.t].got
  {
    hide Shapes, Chains, BitSide, ReadSide, WriteSide, Facts, PivotSide, Roots, S2Side, Waits, ClaimSide;
    hide BitsReal, ScansReal, XReal;
    var t, pc := step.t, s.txns[step.t].pc;
    assert POf(s, t);
    hide StampsReal;
    StepGuar(s, step);
    StatesAre(s, t);
    StampBounds(s);
    PBound(s, t);
    hide POf;
    if step.Go? && pc.Writes? {
      MadeHas(s, t);
      GetWrites(s, t);
      WritesStamps(s, t, pc.todo, pc.uat, step.pick);
      if pc.uat.LastXstamp? { XBelow(s, t, pc.uat.u); }
      hide WritesTxn;
    } else if step.Go? && pc.Reads? {
      ReadsStamps(s, t, pc.todo, pc.rat, step.pick);
    } else {
      OtherStamps(s, step);
    }
  }

  /** No stamp is larger than the clock. */
  lemma PBound(s: State, t: Tid)
    requires HasTxn(s, t) && s.cert.SSN? && POf(s, t) && forall x :: 0 <= x < |s.txns| ==> s.txns[x].got <= s.clock
    ensures s.txns[t].pstamp <= s.clock
  {
  }

  lemma {:induction false} RunBelow(states: seq<State>, steps: seq<Step>, k: nat)
    requires Run(states, steps) && k <= |steps|
    ensures Below(states[k])
  {
    if k > 0 {
      RunBelow(states, steps, k - 1);
      RunInv(states, steps, k - 1);
      RunReal(states, steps, k - 1);
      assert Goes(states[k - 1], steps[k - 1], states[k]);
      hide Apply, Enabled, Below, Inv, Real;
      StepBelow(states[k - 1], steps[k - 1]);
    }
  }

  /** SSN never counts a predecessor that is younger than the transaction itself. */
  lemma NobodyYounger(s: State, t: Tid)
    requires Reachable(s) && s.cert.SSN? && HasTxn(s, t) && s.txns[t].got != 0
    ensures s.txns[t].pstamp < s.txns[t].got
  {
    var states: seq<State>, steps: seq<Step> :| Run(states, steps) && states[|steps|] == s;
    RunBelow(states, steps, |steps|);
  }

  // ---------------------------------------------------------------- why a transaction is doomed

  /** The step is a failure outside the certifier, or t finds that another updater holds the record. */
  predicate GivesUp(s: State, step: Step, t: Tid) {
    step == Fail(t) || (step.Go? && step.t == t && LosesHead(s, t))
  }

  /** The owner of the head that t would replace has not committed, or another version lies on it by now. */
  predicate LosesHead(s: State, t: Tid) {
    && HasTxn(s, t) && s.txns[t].pc.Work?
    && match s.txns[t].pc.wat
       case Claim(v) =>
         HasVer(s, v) && HasTxn(s, s.vers[v].creator) && !s.txns[s.vers[v].creator].pc.Freed?
         && !s.txns[s.vers[v].creator].st.Cmmtd?
       case Swap(v) => HasVer(s, v) && s.vers[v].over.Some?
       case _ => false
  }

  predicate Contends(pc: Pc) { pc.Work? && (pc.wat.Claim? || pc.wat.Swap?) }

  /** For every certifier, an updater that found an XID is refused exactly when it has lost the record. */
  lemma ContendExact(s: State, t: Tid, pick: nat)
    requires CanGo(s, t, pick) && Contends(s.txns[t].pc)
    ensures HasTxn(DoGo(s, t, pick), t) && (Refused(DoGo(s, t, pick).txns[t].pc) <==> LosesHead(s, t))
  {
  }

  /** The exclusion window of SSN is violated. */
  predicate Violated(T: Txn) { 0 < T.sstamp <= T.pstamp }

  predicate Refused(pc: Pc) { pc.Doomed? || (pc.Work? && (pc.wat.Undo? || pc.wat.UndoKill?)) }

  lemma WorkVerdict(s: State, t: Tid, w: WorkAt, pick: nat)
    requires HasTxn(s, t) && s.txns[t].pc == Work(w) && CanWork(s, w) && s.cert.SSN? && !w.ReadS2?
    ensures HasTxn(DoWork(s, t, w, pick), t)
    ensures var T, T' := s.txns[t], DoWork(s, t, w, pick).txns[t];
      Refused(T'.pc) ==>
        Violated(T') || Contends(T.pc) || (Refused(T.pc) && T'.sstamp == T.sstamp && T'.pstamp == T.pstamp)
  {
  }

  lemma ReadsVerdict(s: State, t: Tid, todo: set<Vid>, r: ReadAt, pick: nat)
    requires HasTxn(s, t) && s.txns[t].pc == Reads(todo, r) && CanReads(s, todo, r, pick) && s.cert.SSN? && !r.CheckS2?
    ensures Refused(ReadsTxn(s, t, todo, r, pick).pc) ==> Violated(ReadsTxn(s, t, todo, r, pick))
  {
  }

  lemma WritesVerdict(s: State, t: Tid, todo: set<Vid>, w: WriteAt, pick: nat)
    requires HasTxn(s, t) && s.txns[t].pc == Writes(todo, w) && CanWrites(s, todo, w, pick) && s.cert.SSN?
    ensures Refused(WritesTxn(s, t, todo, w, pick).pc) ==> Violated(WritesTxn(s, t, todo, w, pick))
  {
  }

  /** A step of SSN refuses a transaction only when its exclusion window is violated. */
  lemma SsnVerdict(s: State, step: Step)
    requires Shapes(s) && Chains(s) && s.cert.SSN? && Enabled(s, step) && !step.Begin? && HasTxn(s, step.t)
    ensures HasTxn(Apply(s, step), step.t)
    ensures var T, T' := s.txns[step.t], Apply(s, step).txns[step.t];
      Refused(T'.pc) ==>
        Violated(T') || GivesUp(s, step, step.t) || (Refused(T.pc) && T'.sstamp == T.sstamp && T'.pstamp == T.pstamp)
  {
    hide Shapes, Chains, DoWork, ReadsTxn, WritesTxn, DoStamps, DoLeave, DoForget, DoRevert, RecOk;
    if step.Go? {
      var t, pc := step.t, s.txns[step.t].pc;
      GetTxn(s, t);
      if pc.Work? {
        NoS2(s, t);
        WorkVerdict(s, t, pc.wat, step.pick);
        if Contends(pc) { ContendExact(s, t, step.pick); }
      } else if pc.Reads? {
        NoCheck(s, t);
        ReadsVerdict(s, t, pc.todo, pc.rat, step.pick);
      } else if pc.Writes? { WritesVerdict(s, t, pc.todo, pc.uat, step.pick); }
      else if Late(pc) { LateStep(s, t, step.pick); }
    }
  }

  lemma NoCheck(s: State, t: Tid)
    requires Shapes(s) && HasTxn(s, t) && !s.cert.SSI? && s.txns[t].pc.Reads?
    ensures !s.txns[t].pc.rat.CheckS2?
  {
    assert TxnOk(s, t);
  }

  ghost predicate GaveUp(states: seq<State>, steps: seq<Step>, k: nat, t: Tid)
    requires k <= |steps| < |states|
  {
    exists i :: 0 <= i < k && GivesUp(states[i], steps[i], t)
  }

  /** In every run of SSN a transaction is doomed only when its exclusion window is violated, unless it failed outside
      the certifier or lost a record to another updater. */
  lemma {:induction false} SsnDoomed(states: seq<State>, steps: seq<Step>, k: nat, t: Tid)
    requires Run(states, steps) && k <= |steps| && states[k].cert.SSN? && HasTxn(states[k], t)
    requires Refused(states[k].txns[t].pc)
    ensures Violated(states[k].txns[t]) || GaveUp(states, steps, k, t)
  {
    if k > 0 {
      var s, step := states[k - 1], steps[k - 1];
      assert Goes(s, step, states[k]);
      RunInv(states, steps, k - 1);
      hide Shapes, Chains, BitSide, ReadSide, WriteSide, Facts, PivotSide, Roots, S2Side, Waits, ClaimSide, GivesUp;
      if !step.Begin? {
        StepGuar(s, step);
        if step.t == t { SsnVerdict(s, step); }
        hide Apply;
      }
      if HasTxn(s, t) && Refused(s.txns[t].pc) { SsnDoomed(states, steps, k - 1, t); }
    }
  }

  /** A violated window is real: t has a committed predecessor and a committed successor whose stamps violate it. */
  lemma ViolatedReal(s: State, t: Tid)
    requires Reachable(s) && s.cert.SSN? && HasTxn(s, t) && Violated(s.txns[t])
    ensures (exists x: Tid, v: Vid :: PByRead(s, t, x, v)) || (exists x: Tid, u: Vid, v: Vid :: PByWrite(s, t, x, u, v))
    ensures exists x: Tid, v: Vid :: SFor(s, t, x, v)
  {
    hide Reachable, Inv;
    ReachReal(s);
    hide BitsReal, ScansReal, XReal;
    assert POf(s, t) && SOf(s, t);
    if s.txns[t].got != 0 { NobodyYounger(s, t); }
  }

  // ---------------------------------------------------------------- MVOCC

  /** MVOCC refuses only an updater that has lost a record, or when an overwriter of something t read holds a smaller
      commit stamp. */
  lemma MvoccVerdict(s: State, t: Tid, pick: nat)
    requires Reachable(s) && s.cert.MVOCC? && CanGo(s, t, pick) && !Refused(s.txns[t].pc)
    requires Refused(DoGo(s, t, pick).txns[t].pc)
    ensures LosesHead(s, t) || exists v: Vid, x: Tid :: BackOver(s, t, v, x)
  {
    hide Reachable, Inv;
    ReachInv(s);
    if Contends(s.txns[t].pc) { ContendExact(s, t, pick); }
    else {
      MvoccOnlyReads(s, t, pick);
      hide DoGo, CanGo;
      MvoccReads(s, t, pick);
    }
  }

  /** Outside validation nothing refuses. */
  lemma MvoccOnlyReads(s: State, t: Tid, pick: nat)
    requires Inv(s) && s.cert.MVOCC? && CanGo(s, t, pick) && !Refused(s.txns[t].pc) && !Contends(s.txns[t].pc)
    requires Refused(DoGo(s, t, pick).txns[t].pc)
    ensures s.txns[t].pc.Reads?
  {
    hide Shapes, Chains, BitSide, ReadSide, WriteSide, Facts, PivotSide, Roots, S2Side, Waits, ClaimSide;
    hide ReadsTxn, WritesTxn, DoStamps, DoLeave, DoForget, DoRevert;
    GetTxn(s, t);
    if Late(s.txns[t].pc) { LateStep(s, t, pick); }
  }

  lemma MvoccReads(s: State, t: Tid, pick: nat)
    requires Inv(s) && s.cert.MVOCC? && CanGo(s, t, pick) && s.txns[t].pc.Reads?
    requires Refused(DoGo(s, t, pick).txns[t].pc)
    ensures exists v: Vid, x: Tid :: BackOver(s, t, v, x)
  {
    hide Shapes, Chains, BitSide, ReadSide, WriteSide, Facts, PivotSide, Roots, S2Side, Waits, ClaimSide;
    var pc := s.txns[t].pc;
    GetTxn(s, t);
    StatesAre(s, t);
    GetReads(s, t);
    NoCheck(s, t);
    if pc.rat.Next? {
      SuccMeans(s, pick);
      assert BackOver(s, t, pick, OverBy(s, pick).value);
    } else {
      assert pc.rat.v in Touched(s.txns[t]);
      StatesAre(s, pc.rat.x);
      assert BackOver(s, t, pc.rat.v, pc.rat.x);
    }
  }

  /** x lies on v, which t read, and holds a smaller commit stamp. */
  predicate BackOver(s: State, t: Tid, v: Vid, x: Tid) {
    && HasTxn(s, t) && HasTxn(s, x) && HasVer(s, v) && v in s.txns[t].rset && OverBy(s, v) == Some(x) && x != t
    && 0 < s.txns[x].got < s.txns[t].got
  }

  // ---------------------------------------------------------------- SSI

  /** x committed as a possible pivot, and overwrote v, which t reads. */
  predicate UnderPivot(s: State, t: Tid, v: Vid, x: Tid) {
    HasTxn(s, t) && v in Touched(s.txns[t]) && Overwrote(s, v, x) && s.txns[x].ct3 != 0
  }

  /** t is a possible pivot, and the version below its u has a reader, or had one, that is not known to have committed
      before t's successor. */
  ghost predicate PivotRefused(s: State, t: Tid, u: Vid) {
    && HasTxn(s, t) && s.txns[t].ct3 != 0 && u in s.txns[t].wset && HasNext(s, u)
    && var v := Prev(s, u);
       || (exists x: Tid :: XFor(s, v, x) && s.txns[t].ct3 <= s.txns[x].got)
       || (exists r: Tid :: LateReader(s, t, r, v))
  }

  /** r is the one that t's scan has found in a reader's slot; it is still active, younger than t, or has committed
      between t's successor and t, in which case it did read v. */
  predicate LateReader(s: State, t: Tid, r: Tid, v: Vid) {
    && r != t && HasTxn(s, t) && HasTxn(s, r) && Peer(s.txns[t].pc) == Some(r)
    && (|| s.txns[r].got == 0 || s.txns[r].got > s.txns[t].got
        || (s.txns[r].st.Cmmtd? && s.txns[t].ct3 <= s.txns[r].got < s.txns[t].got && v in s.txns[r].seen))
  }

  /** s2 is stored by pivots that committed. */
  lemma S2Real(s: State, v: Vid)
    requires Inv(s) && s.cert.SSI? && HasVer(s, v) && s.vers[v].s2 != 0
    ensures OverBy(s, v).Some? && Overwrote(s, v, OverBy(s, v).value) && s.txns[OverBy(s, v).value].ct3 == s.vers[v].s2
  {
    hide Shapes, Chains, BitSide, ReadSide, WriteSide, Facts, PivotSide, Roots, Waits, ClaimSide;
    assert S2Of(s, v);
  }

  predicate Reading(pc: Pc) { pc.Work? && (pc.wat.ReadS2? || pc.wat.ReadSucc? || pc.wat.Enlist?) }

  /** SSI refuses a reader only below a committed pivot. */
  lemma SsiReadVerdict(s: State, t: Tid, pick: nat)
    requires Inv(s) && s.cert.SSI? && CanGo(s, t, pick)
    requires s.txns[t].pc.Reads? || Reading(s.txns[t].pc)
    requires Refused(DoGo(s, t, pick).txns[t].pc)
    ensures exists v: Vid, x: Tid :: UnderPivot(s, t, v, x)
  {
    var v := S2Seen(s, t, pick);
    S2Real(s, v);
    assert UnderPivot(s, t, v, OverBy(s, v).value);
  }

  function Checked(r: ReadAt): Vid { if r.CheckS2? then r.v else 0 }

  /** The only reason is an s2 that is not zero. */
  lemma S2Seen(s: State, t: Tid, pick: nat) returns (v: Vid)
    requires Inv(s) && s.cert.SSI? && CanGo(s, t, pick) && Refused(DoGo(s, t, pick).txns[t].pc)
    requires s.txns[t].pc.Reads? || Reading(s.txns[t].pc)
    ensures HasVer(s, v) && s.vers[v].s2 != 0 && v in Touched(s.txns[t])
  {
    hide Shapes, Chains, BitSide, ReadSide, WriteSide, Facts, PivotSide, Roots, S2Side, Waits, ClaimSide;
    GetTxn(s, t);
    var pc := s.txns[t].pc;
    v := if pc.Work? then pc.wat.v else Checked(pc.rat);
  }

  lemma XAtLeast(s: State, t: Tid, u: Vid)
    requires XReal(s) && HasTxn(s, t) && s.txns[t].ct3 != 0 && u in s.txns[t].wset && HasNext(s, u)
    requires s.txns[t].ct3 <= s.vers[Prev(s, u)].xstamp
    ensures PivotRefused(s, t, u)
  {
    assert XOf(s, Prev(s, u));
  }

  /** In the scan of readers SSI refuses only a possible pivot with such a reader. */
  lemma SsiWriteVerdict(s: State, t: Tid, pick: nat)
    requires Inv(s) && Real(s) && s.cert.SSI? && CanGo(s, t, pick) && s.txns[t].pc.Writes?
    requires Refused(DoGo(s, t, pick).txns[t].pc)
    ensures exists u: Vid :: PivotRefused(s, t, u)
  {
    hide Shapes, Chains, BitSide, ReadSide, WriteSide, Facts, PivotSide, Roots, S2Side, Waits, ClaimSide;
    hide BitsReal, XReal, StampsReal, PivotRefused;
    var pc := s.txns[t].pc;
    MadeHas(s, t);
    GetWrites(s, t);
    StatesAre(s, t);
    PivotOnly(s, t);
    assert ScanReal(s, t);
    if pc.uat.Scan? && Peer(pc).Some? { StatesAre(s, Peer(pc).value); }
    if pc.uat.LastXstamp? { XAtLeast(s, t, pc.uat.u); }
    else if s.txns[t].ct3 <= s.vers[Prev(s, pc.uat.u)].xstamp { XAtLeast(s, t, pc.uat.u); }
    else { ReaderFound(s, t, pc.todo, pc.uat, pick); }
  }

  lemma PivotOnly(s: State, t: Tid)
    requires Shapes(s) && HasTxn(s, t) && s.cert.SSI? && s.txns[t].pc.Writes?
    ensures s.txns[t].ct3 != 0 && (Peer(s.txns[t].pc).Some? ==> HasTxn(s, Peer(s.txns[t].pc).value))
  {
    assert TxnOk(s, t);
  }

  lemma ReaderFound(s: State, t: Tid, todo: set<Vid>, w: WriteAt, pick: nat)
    requires HasTxn(s, t) && s.cert.SSI? && s.txns[t].pc == Writes(todo, w) && CanWrites(s, todo, w, pick) && w.Scan?
    requires s.txns[t].ct3 != 0 && w.u in s.txns[t].wset && s.vers[Prev(s, w.u)].xstamp < s.txns[t].ct3
    requires ScanReal(s, t) && ScanOk(s, t, w) && s.txns[t].got != 0
    requires Peer(Writes(todo, w)).Some? ==>
      var R := s.txns[Peer(Writes(todo, w)).value]; (R.end == 0 || R.end == R.got) && (R.st.Cmmtd? ==> R.got != 0)
    requires WritesTxn(s, t, todo, w, pick).pc.Doomed?
    ensures PivotRefused(s, t, w.u)
  {
    var r := Peer(Writes(todo, w)).value;
    assert LateReader(s, t, r, Prev(s, w.u));
  }

  /** SSI refuses a transaction only below a committed pivot, or as a possible pivot with such a reader; an update may
      be refused early, but only that of a possible pivot. */
  lemma SsiVerdict(s: State, t: Tid, pick: nat)
    requires Reachable(s) && s.cert.SSI? && CanGo(s, t, pick) && !Refused(s.txns[t].pc)
    requires Refused(DoGo(s, t, pick).txns[t].pc)
    ensures (exists v: Vid, x: Tid :: UnderPivot(s, t, v, x)) || (exists u: Vid :: PivotRefused(s, t, u))
      || LosesHead(s, t)
      || (s.txns[t].pc.Work? && s.txns[t].pc.wat.Installed? && s.txns[t].ct3 != 0)
  {
    hide Reachable;
    ReachReal(s);
    var pc := s.txns[t].pc;
    if pc.Reads? || Reading(pc) { SsiReadVerdict(s, t, pick); }
    else if pc.Writes? { SsiWriteVerdict(s, t, pick); }
    else if Contends(pc) { ContendExact(s, t, pick); }
    else {
      hide Inv, Real, UnderPivot, PivotRefused;
      OtherVerdict(s, t, pick);
    }
  }

  lemma OtherVerdict(s: State, t: Tid, pick: nat)
    requires s.cert.SSI? && CanGo(s, t, pick) && !Refused(s.txns[t].pc) && !Contends(s.txns[t].pc)
    requires Refused(DoGo(s, t, pick).txns[t].pc) && !s.txns[t].pc.Reads? && !s.txns[t].pc.Writes?
    requires !Reading(s.txns[t].pc)
    ensures s.txns[t].pc.Work? && s.txns[t].pc.wat.Installed? && s.txns[t].ct3 != 0
  {
    hide DoStamps, DoLeave, DoForget, DoRevert;
    if Late(s.txns[t].pc) { LateStep(s, t, pick); }
  }
}
