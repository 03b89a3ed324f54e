/** Small facts about the marks on versions: each record has one root, s2 is stored at one definite moment of
    post-commit, a leaving reader waits only for an older overwriter, and a head whose owner was seen to have
    committed carries a stamp. */
module EngineMarks {
  import opened Options
  import opened Engine
  import opened EngineInv
  import opened EngineShapes
  import opened EngineGuar
  import opened EngineBits

  // ---------------------------------------------------------------- roots

  ghost predicate Roots(s: State) {
    forall v: Vid, w: Vid ::
      (HasVer(s, v) && HasVer(s, w) && s.vers[v].depth == 0 && s.vers[w].depth == 0 &&
        s.vers[v].rec == s.vers[w].rec) ==> v == w
  }

  lemma Grows(s: State, step: Step)
    requires Enabled(s, step) && !step.Begin?
    ensures !step.Update? && !step.Insert? ==> |Apply(s, step).vers| == |s.vers|
  {
    hide LookAtSucc, ProbeSucc, SuccEnd, SuccFate, InheritStamp, ScanTxn, LastX, SsnRead, SsiRead, InstalledTxn;
  }

  lemma StepRoots(s: State, step: Step)
    requires Shapes(s) && Chains(s) && Roots(s) && Enabled(s, step)
    ensures Roots(Apply(s, step))
  {
    hide Shapes, Chains;
    if !step.Begin? && !step.Update? && !step.Insert? {
      var s' := Apply(s, step);
      StepGuar(s, step);
      Grows(s, step);
      hide Apply;
      forall v: Vid, w: Vid | HasVer(s', v) && HasVer(s', w) && s'.vers[v].depth == 0 && s'.vers[w].depth == 0
        && s'.vers[v].rec == s'.vers[w].rec ensures v == w
      {
        assert VerGuar(s, s', step.t, v);
        assert VerGuar(s, s', step.t, w);
      }
    }
  }

  // ---------------------------------------------------------------- the second successor stamp

  /** Written versions whose predecessor has not received s2 yet. */
  function S2Pending(T: Txn): set<Vid> {
    match T.pc
    case Stamps(todo, a) => if a.StampSucc? || a.StampS2? then todo + {a.u} else todo
    case _ => {}
  }

  function S2Due(T: Txn, u: Vid): nat { if Decided(T) && u in T.wset && u !in S2Pending(T) then T.ct3 else 0 }

  /** s2 of v is what v's overwriter has stored there. */
  ghost predicate S2Of(s: State, v: Vid)
    requires HasVer(s, v)
  {
    match s.vers[v].over
    case None => s.vers[v].s2 == 0
    case Some(u) =>
      HasVer(s, u) && HasTxn(s, s.vers[u].creator) && s.vers[v].s2 == S2Due(s.txns[s.vers[u].creator], u)
  }

  ghost predicate S2Side(s: State) { s.cert.SSI? ==> forall v :: 0 <= v < |s.vers| ==> S2Of(s, v) }

  lemma GoDue(s: State, t: Tid, pick: nat, u: Vid)
    requires Shapes(s) && CanGo(s, t, pick) && s.cert.SSI? && HasNext(s, u)
    requires !(s.txns[t].pc.Stamps? && s.txns[t].pc.sat == StampS2(u))
    ensures HasTxn(DoGo(s, t, pick), t) && S2Due(DoGo(s, t, pick).txns[t], u) == S2Due(s.txns[t], u)
  {
    hide Shapes, DoWork, ReadsTxn, WritesTxn, DoStamps, RecOk;
    var pc := s.txns[t].pc;
    StatesAre(s, t);
    if pc.Stamps? { StampsDue(s, t, pc.todo, pc.sat, pick, u); }
    else if Late(pc) { LateStep(s, t, pick); hide DoGo; }
    else if pc.Writes? { WritesForm(s, t, pc.todo, pc.uat, pick); }
    else if pc.Reads? { ReadsDue(s, t, pc.todo, pc.rat, pick); }
    else if pc.Work? { WorkDue(s, t, pc.wat, pick); }
  }

  /** What t still owes the version below u does not change, unless this step pays it. */
  lemma DueStays(s: State, step: Step, u: Vid)
    requires Shapes(s) && Enabled(s, step) && !step.Begin? && s.cert.SSI? && HasNext(s, u)
    requires !(s.txns[step.t].pc.Stamps? && s.txns[step.t].pc.sat == StampS2(u))
    ensures HasTxn(Apply(s, step), step.t) && S2Due(Apply(s, step).txns[step.t], u) == S2Due(s.txns[step.t], u)
  {
    hide Shapes, DoGo;
    StatesAre(s, step.t);
    if step.Go? { GoDue(s, step.t, step.pick, u); }
  }

  lemma StampsDue(s: State, t: Tid, todo: set<Vid>, a: StampAt, pick: nat, u: Vid)
    requires HasTxn(s, t) && s.txns[t].pc == Stamps(todo, a) && CanStamps(s, todo, a, pick) && a != StampS2(u)
    requires HasNext(s, u) && s.cert.SSI?
    ensures HasTxn(DoStamps(s, t, todo, a, pick), t)
    ensures S2Due(DoStamps(s, t, todo, a, pick).txns[t], u) == S2Due(s.txns[t], u)
  {
  }

  lemma ReadsDue(s: State, t: Tid, todo: set<Vid>, r: ReadAt, pick: nat)
    requires HasTxn(s, t) && s.txns[t].pc == Reads(todo, r) && CanReads(s, todo, r, pick) && !s.txns[t].st.Cmmtd?
    ensures !Decided(ReadsTxn(s, t, todo, r, pick))
  {
  }

  lemma WorkDue(s: State, t: Tid, w: WorkAt, pick: nat)
    requires HasTxn(s, t) && s.txns[t].pc == Work(w) && CanWork(s, w) && !s.txns[t].st.Cmmtd?
    ensures HasTxn(DoWork(s, t, w, pick), t) && !Decided(DoWork(s, t, w, pick).txns[t])
  {
  }

  /** Only the store of s2 touches s2. */
  lemma S2Same(s: State, step: Step, v: Vid)
    requires Enabled(s, step) && !step.Begin? && HasVer(s, v)
    ensures HasVer(Apply(s, step), v)
    ensures var T := s.txns[step.t];
      Apply(s, step).vers[v].s2 == s.vers[v].s2 ||
        (step.Go? && T.pc.Stamps? && T.pc.sat.StampS2? && Prev(s, T.pc.sat.u) == v)
    ensures step.Update? || step.Insert? ==> Apply(s, step).vers[|s.vers|].s2 == 0
  {
    hide LookAtSucc, ProbeSucc, SuccEnd, SuccFate, InheritStamp, ScanTxn, LastX, SsnRead, SsiRead, InstalledTxn;
  }

  lemma S2Stored(s: State, t: Tid, todo: set<Vid>, u: Vid, pick: nat)
    requires Shapes(s) && Chains(s) && HasTxn(s, t) && s.txns[t].pc == Stamps(todo, StampS2(u)) && HasNext(s, u)
    ensures var s' := DoStamps(s, t, todo, StampS2(u), pick);
      && s.vers[Prev(s, u)].over == Some(u) && HasTxn(s', t) && HasVer(s', u) && S2Of(s', Prev(s, u))
  {
    hide Shapes, Chains;
    OwnTodo(s, t);
    TodoFree(s, t);
    StillOnTop(s, t, u);
  }

  lemma TodoFree(s: State, t: Tid)
    requires Shapes(s) && HasTxn(s, t) && s.txns[t].pc.Stamps?
    ensures StampFocus(s.txns[t].pc.sat) !! s.txns[t].pc.todo
  {
    assert TxnOk(s, t);
  }

  lemma KeepS2Of(s: State, step: Step, v: Vid)
    requires Shapes(s) && Chains(s) && Enabled(s, step) && !step.Begin? && s.cert.SSI? && HasVer(s, v) && S2Of(s, v)
    ensures HasVer(Apply(s, step), v) && S2Of(Apply(s, step), v)
  {
    hide Shapes, Chains;
    var s', t := Apply(s, step), step.t;
    StepGuar(s, step);
    S2Same(s, step, v);
    var T := s.txns[t];
    if step.Go? && T.pc.Stamps? && T.pc.sat.StampS2? && Prev(s, T.pc.sat.u) == v {
      S2Stored(s, t, T.pc.todo, T.pc.sat.u, step.pick);
    } else {
      assert VerGuar(s, s', t, v);
      if s.vers[v].over.Some? {
        var u := s.vers[v].over.value;
        LinkBack(s, v);
        assert VerGuar(s, s', t, u);
        if s.vers[u].creator == t { DueStays(s, step, u); }
      }
      hide Apply;
    }
  }

  lemma LinkBack(s: State, v: Vid)
    requires Chains(s) && HasVer(s, v) && s.vers[v].over.Some?
    ensures HasNext(s, s.vers[v].over.value) && Prev(s, s.vers[v].over.value) == v
  {
    assert LinkOk(s, v);
  }

  lemma StepS2(s: State, step: Step)
    requires Shapes(s) && Chains(s) && S2Side(s) && Enabled(s, step)
    ensures S2Side(Apply(s, step))
  {
    hide Shapes, Chains, S2Of;
    var s' := Apply(s, step);
    if step.Begin? {
      forall v | s.cert.SSI? && 0 <= v < |s.vers| ensures S2Of(s', v) { BeginS2(s, step.slot, v); }
    } else {
      StepGuar(s, step);
      forall v | s'.cert.SSI? && 0 <= v < |s'.vers| ensures S2Of(s', v) {
        if v < |s.vers| { KeepS2Of(s, step, v); } else { FreshS2(s, step); }
      }
    }
  }

  lemma BeginS2(s: State, slot: Slot, v: Vid)
    requires HasVer(s, v) && S2Of(s, v)
    ensures S2Of(DoBegin(s, slot), v)
  {
  }

  lemma FreshS2(s: State, step: Step)
    requires Enabled(s, step) && !step.Begin? && |Apply(s, step).vers| > |s.vers|
    ensures S2Of(Apply(s, step), |s.vers|)
  {
    Grows(s, step);
  }

  // ---------------------------------------------------------------- waiting on the way out

  predicate WaitOf(s: State, t: Tid)
    requires HasTxn(s, t)
  {
    var T := s.txns[t];
    T.pc.Leave? && T.pc.lat.Wait? ==> HasTxn(s, T.pc.lat.x) && 0 < s.txns[T.pc.lat.x].got < T.got
  }

  ghost predicate Waits(s: State) { forall t :: 0 <= t < |s.txns| ==> WaitOf(s, t) }

  lemma LeaveWait(s: State, t: Tid, todo: set<Vid>, l: LeaveAt, pick: nat)
    requires Shapes(s) && HasTxn(s, t) && s.txns[t].pc == Leave(todo, l) && CanLeave(s, todo, l, pick)
    ensures HasTxn(DoLeave(s, t, todo, l, pick), t) && WaitOf(DoLeave(s, t, todo, l, pick), t)
  {
    hide Shapes;
    if l.Older? { StatesAre(s, l.x); }
  }

  /** Only the leaving phase leads to a wait on the way out. */
  lemma NoWait(s: State, step: Step)
    requires Enabled(s, step) && !step.Begin? && !(step.Go? && s.txns[step.t].pc.Leave?)
    ensures HasTxn(Apply(s, step), step.t)
    ensures var pc := Apply(s, step).txns[step.t].pc; pc.Leave? ==> pc.lat.Next?
  {
    hide ReadsTxn, WritesTxn, DoStamps, DoRevert, DoWork;
    if step.Go? {
      var pc := s.txns[step.t].pc;
      if pc.Reads? { ReadsPc(s, step.t, pc.todo, pc.rat, step.pick); }
      else if pc.Writes? { WritesPhase(s, step.t, pc.todo, pc.uat, step.pick); }
      else if pc.Stamps? { StampsPc(s, step.t, pc.todo, pc.sat, step.pick); }
      else if pc.Revert? { RevertPc(s, step.t, pc.todo, pc.bat, step.pick); }
      else if pc.Work? { WorkPc(s, step.t, pc.wat, step.pick); }
    }
  }

  lemma ReadsPc(s: State, t: Tid, todo: set<Vid>, r: ReadAt, pick: nat)
    requires HasTxn(s, t) && s.txns[t].pc == Reads(todo, r) && CanReads(s, todo, r, pick)
    ensures !ReadsTxn(s, t, todo, r, pick).pc.Leave?
  {
  }

  lemma WritesPhase(s: State, t: Tid, todo: set<Vid>, w: WriteAt, pick: nat)
    requires HasTxn(s, t) && s.txns[t].pc == Writes(todo, w) && CanWrites(s, todo, w, pick)
    ensures !WritesTxn(s, t, todo, w, pick).pc.Leave?
  {
  }

  lemma WorkPc(s: State, t: Tid, w: WorkAt, pick: nat)
    requires HasTxn(s, t) && s.txns[t].pc == Work(w) && CanWork(s, w)
    ensures HasTxn(DoWork(s, t, w, pick), t) && !DoWork(s, t, w, pick).txns[t].pc.Leave?
  {
  }

  lemma StepWaits(s: State, step: Step)
    requires Shapes(s) && Chains(s) && Waits(s) && Enabled(s, step)
    ensures Waits(Apply(s, step))
  {
    hide Shapes, Chains;
    var s' := Apply(s, step);
    if step.Begin? {
      forall x | 0 <= x < |s'.txns| ensures WaitOf(s', x) { if x < |s.txns| { assert WaitOf(s, x); } }
    } else {
      var t := step.t;
      StepGuar(s, step);
      if step.Go? && s.txns[t].pc.Leave? { LeaveWait(s, t, s.txns[t].pc.todo, s.txns[t].pc.lat, step.pick); }
      else { NoWait(s, step); }
      hide Apply, VerGuar;
      forall x | 0 <= x < |s'.txns| ensures WaitOf(s', x) {
        if x != t { assert WaitOf(s, x); }
      }
    }
  }

  // ---------------------------------------------------------------- the head an updater claims

  /** The transaction can only abort. */
  predicate Lost(T: Txn) { T.pc.Doomed? || T.st.Abrtd? }

  /** A version that lost its XID without a stamp belongs to a transaction that can only abort. */
  predicate DeadOf(s: State, v: Vid)
    requires HasVer(s, v)
  {
    s.vers[v].clsn.Dead? ==> HasTxn(s, s.vers[v].creator) && Lost(s.txns[s.vers[v].creator])
  }

  /** About to swap a head whose owner was seen to have committed: it carries a stamp. */
  predicate SwapOf(s: State, t: Tid)
    requires HasTxn(s, t)
  {
    var pc := s.txns[t].pc;
    pc.Work? && pc.wat.Swap? ==> HasVer(s, pc.wat.v) && s.vers[pc.wat.v].clsn.Stamped?
  }

  ghost predicate ClaimSide(s: State) {
    (forall v :: 0 <= v < |s.vers| ==> DeadOf(s, v)) && (forall t :: 0 <= t < |s.txns| ==> SwapOf(s, t))
  }

  /** Only the creator kills a version, on its way to abort. */
  lemma DeadStep(s: State, step: Step, v: Vid)
    requires Shapes(s) && Enabled(s, step) && !step.Begin? && HasVer(s, v)
    ensures var s' := Apply(s, step);
      && HasTxn(s, step.t) && HasTxn(s', step.t) && HasVer(s', v)
      && (s'.vers[v].clsn.Dead? ==> s.vers[v].clsn.Dead? || (s.vers[v].creator == step.t && Lost(s'.txns[step.t])))
  {
    hide Shapes, ReadsTxn, WritesTxn, DoStamps, DoRevert, DoWork;
    if step.Go? {
      var t, pc := step.t, s.txns[step.t].pc;
      if pc.Stamps? { StampsDead(s, t, pc.todo, pc.sat, step.pick, v); }
      else if pc.Revert? { RevertDead(s, t, pc.todo, pc.bat, step.pick, v); }
      else if pc.Work? { WorkDead(s, t, pc.wat, step.pick, v); }
    }
  }

  lemma StampsDead(s: State, t: Tid, todo: set<Vid>, a: StampAt, pick: nat, v: Vid)
    requires HasTxn(s, t) && CanStamps(s, todo, a, pick) && HasVer(s, v)
    ensures var s' := DoStamps(s, t, todo, a, pick);
      HasTxn(s', t) && HasVer(s', v) && (s'.vers[v].clsn.Dead? ==> s.vers[v].clsn.Dead?)
  {
  }

  lemma RevertDead(s: State, t: Tid, todo: set<Vid>, a: RevertAt, pick: nat, v: Vid)
    requires Shapes(s) && HasTxn(s, t) && s.txns[t].pc == Revert(todo, a) && CanRevert(s, todo, a, pick) && HasVer(s, v)
    ensures var s' := DoRevert(s, t, todo, a, pick);
      && HasTxn(s', t) && HasVer(s', v)
      && (s'.vers[v].clsn.Dead? ==> s.vers[v].clsn.Dead? || (s.vers[v].creator == t && Lost(s'.txns[t])))
  {
    hide Shapes;
    GetTxn(s, t);
    OwnTodo(s, t);
  }

  lemma WorkDead(s: State, t: Tid, w: WorkAt, pick: nat, v: Vid)
    requires Shapes(s) && HasTxn(s, t) && s.txns[t].pc == Work(w) && CanWork(s, w) && HasVer(s, v)
    ensures var s' := DoWork(s, t, w, pick);
      && HasTxn(s', t) && HasVer(s', v)
      && (s'.vers[v].clsn.Dead? ==> s.vers[v].clsn.Dead? || (s.vers[v].creator == t && Lost(s'.txns[t])))
  {
    hide Shapes, SsnRead, SsiRead, InstalledTxn;
    GetTxn(s, t);
    OwnTodo(s, t);
  }

  /** Who can only abort does so, or stays where it is. */
  lemma LostStays(s: State, step: Step)
    requires Shapes(s) && Chains(s) && Enabled(s, step) && !step.Begin? && Lost(s.txns[step.t])
    ensures HasTxn(Apply(s, step), step.t) && Lost(Apply(s, step).txns[step.t])
  {
    hide Shapes, Chains;
    StepGuar(s, step);
    if s.txns[step.t].pc.Doomed? { assert step.Abort?; } else { hide Apply; }
  }

  /** The way to a swap is through a claim. */
  lemma SwapFrom(s: State, step: Step)
    requires Enabled(s, step) && !step.Begin?
    ensures HasTxn(s, step.t) && HasTxn(Apply(s, step), step.t)
    ensures var pc, pc' := s.txns[step.t].pc, Apply(s, step).txns[step.t].pc;
      pc'.Work? && pc'.wat.Swap? ==> step.Go? && pc == Work(WorkAt.Claim(pc'.wat.v))
  {
    hide ReadsTxn, WritesTxn, DoStamps, DoRevert, DoWork;
    if step.Go? {
      var pc := s.txns[step.t].pc;
      if pc.Reads? { ReadsNoWork(s, step.t, pc.todo, pc.rat, step.pick); }
      else if pc.Writes? { WritesNoWork(s, step.t, pc.todo, pc.uat, step.pick); }
      else if pc.Stamps? { StampsNoWork(s, step.t, pc.todo, pc.sat, step.pick); }
      else if pc.Revert? { RevertNoWork(s, step.t, pc.todo, pc.bat, step.pick); }
      else if pc.Work? { WorkSwap(s, step.t, pc.wat, step.pick); }
    }
  }

  lemma ReadsNoWork(s: State, t: Tid, todo: set<Vid>, r: ReadAt, pick: nat)
    requires HasTxn(s, t) && s.txns[t].pc == Reads(todo, r) && CanReads(s, todo, r, pick)
    ensures !ReadsTxn(s, t, todo, r, pick).pc.Work?
  {
  }

  lemma WritesNoWork(s: State, t: Tid, todo: set<Vid>, w: WriteAt, pick: nat)
    requires HasTxn(s, t) && s.txns[t].pc == Writes(todo, w) && CanWrites(s, todo, w, pick)
    ensures !WritesTxn(s, t, todo, w, pick).pc.Work?
  {
  }

  lemma StampsNoWork(s: State, t: Tid, todo: set<Vid>, a: StampAt, pick: nat)
    requires HasTxn(s, t) && CanStamps(s, todo, a, pick)
    ensures HasTxn(DoStamps(s, t, todo, a, pick), t) && !DoStamps(s, t, todo, a, pick).txns[t].pc.Work?
  {
  }

  lemma RevertNoWork(s: State, t: Tid, todo: set<Vid>, a: RevertAt, pick: nat)
    requires HasTxn(s, t) && CanRevert(s, todo, a, pick)
    ensures HasTxn(DoRevert(s, t, todo, a, pick), t) && !DoRevert(s, t, todo, a, pick).txns[t].pc.Work?
  {
  }

  lemma WorkSwap(s: State, t: Tid, w: WorkAt, pick: nat)
    requires HasTxn(s, t) && s.txns[t].pc == Work(w) && CanWork(s, w)
    ensures var s' := DoWork(s, t, w, pick);
      && HasTxn(s', t)
      && (s'.txns[t].pc.Work? && s'.txns[t].pc.wat.Swap? ==> w == WorkAt.Claim(s'.txns[t].pc.wat.v))
  {
  }

  /** The owner is seen to have committed, so it has stamped the head. */
  lemma ClaimStamped(s: State, t: Tid, v: Vid)
    requires Shapes(s) && Chains(s) && HasTxn(s, t) && HasVer(s, v) && HasTxn(s, s.vers[v].creator) && DeadOf(s, v)
    requires ClaimTxn(s.txns[t], v, s.txns[s.vers[v].creator]).pc == Work(Swap(v))
    ensures s.vers[v].clsn.Stamped?
  {
    hide Shapes, Chains, LinkOk, TopOk;
    GetVer(s, v);
    StatesAre(s, s.vers[v].creator);
  }

  lemma ClaimGoes(s: State, t: Tid, pick: nat, v: Vid)
    requires HasTxn(s, t) && s.txns[t].pc == Work(WorkAt.Claim(v)) && CanGo(s, t, pick)
    ensures HasVer(s, v) && HasTxn(s, s.vers[v].creator)
    ensures DoGo(s, t, pick) == PutTxn(s, t, ClaimTxn(s.txns[t], v, s.txns[s.vers[v].creator]))
  {
  }

  lemma SwapStep(s: State, step: Step, t: Tid)
    requires Shapes(s) && Chains(s) && ClaimSide(s) && Enabled(s, step) && !step.Begin? && HasTxn(s, t)
    ensures HasTxn(Apply(s, step), t) && SwapOf(Apply(s, step), t)
  {
    hide Shapes, Chains;
    var s' := Apply(s, step);
    StepGuar(s, step);
    SwapFrom(s, step);
    assert SwapOf(s, t);
    var pc := s'.txns[t].pc;
    if pc.Work? && pc.wat.Swap? {
      var v := pc.wat.v;
      if t == step.t {
        ClaimGoes(s, t, step.pick, v);
        assert DeadOf(s, v);
        ClaimStamped(s, t, v);
      }
      hide Apply;
      assert VerGuar(s, s', step.t, v);
    }
  }

  lemma DeadKept(s: State, step: Step, v: Vid)
    requires Shapes(s) && Chains(s) && ClaimSide(s) && Enabled(s, step) && !step.Begin? && HasVer(s, v)
    ensures HasVer(Apply(s, step), v) && DeadOf(Apply(s, step), v)
  {
    hide Shapes, Chains;
    var s' := Apply(s, step);
    StepGuar(s, step);
    DeadStep(s, step, v);
    assert DeadOf(s, v);
    if HasTxn(s, s.vers[v].creator) && s.vers[v].creator == step.t && Lost(s.txns[step.t]) { LostStays(s, step); }
    hide Apply;
    assert VerGuar(s, s', step.t, v);
  }

  lemma NewAlive(s: State, step: Step)
    requires Enabled(s, step) && !step.Begin?
    ensures var s' := Apply(s, step); |s'.vers| > |s.vers| ==> HasVer(s', |s.vers|) && s'.vers[|s.vers|].clsn.Pending?
  {
    if !step.Update? && !step.Insert? {
      Grows(s, step);
      hide Apply;
    }
  }

  lemma StepClaims(s: State, step: Step)
    requires Shapes(s) && Chains(s) && ClaimSide(s) && Enabled(s, step)
    ensures ClaimSide(Apply(s, step))
  {
    hide Shapes, Chains;
    if step.Begin? {
      BeginClaims(s, step.slot);
    } else {
      var s' := Apply(s, step);
      StepGuar(s, step);
      NewAlive(s, step);
      forall v | 0 <= v < |s'.vers| ensures DeadOf(s', v) { if v < |s.vers| { DeadKept(s, step, v); } }
      forall t | 0 <= t < |s'.txns| ensures SwapOf(s', t) { SwapStep(s, step, t); }
    }
  }

  lemma BeginClaims(s: State, slot: Slot)
    requires ClaimSide(s)
    ensures ClaimSide(DoBegin(s, slot))
  {
    var s' := DoBegin(s, slot);
    forall v | 0 <= v < |s'.vers| ensures DeadOf(s', v) { assert DeadOf(s, v); }
    forall t | 0 <= t < |s'.txns| ensures SwapOf(s', t) { if t < |s.txns| { assert SwapOf(s, t); } }
  }
}
