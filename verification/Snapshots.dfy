/** Where a begin stamp is not a snapshot: reads that miss a write with a smaller commit stamp, and updates of a
    version with a larger one.  Each is traced to the one step that lets it happen, over whole runs. */
module Snapshots {
  import opened Options
  import opened Engine
  import opened EngineInv
  import opened EngineShapes
  import opened EngineGuar
  import opened EngineBits
  import opened EngineReads
  import opened EngineWrites
  import opened EngineFacts
  import opened EngineSsi
  import opened EngineMarks
  import opened EngineRuns
  import opened Dependencies
  import opened Visibility

  // ---------------------------------------------------------------- what a step adds to a transaction

  lemma WorkOwn(s: State, t: Tid, w: WorkAt, pick: nat)
    requires HasTxn(s, t) && s.txns[t].pc == Work(w) && CanWork(s, w)
    ensures HasTxn(DoWork(s, t, w, pick), t)
    ensures var T, T' := s.txns[t], DoWork(s, t, w, pick).txns[t];
      && Touched(T') <= Touched(T) && (Touched(T) <= Touched(T') || T'.pc.Doomed?)
      && Made(T') <= Made(T) && (Made(T) <= Made(T') || T'.pc.Doomed?)
  {
  }

  lemma GoOwn(s: State, t: Tid, pick: nat)
    requires Shapes(s) && Chains(s) && CanGo(s, t, pick)
    ensures HasTxn(s, t) && HasTxn(DoGo(s, t, pick), t)
    ensures var T, T' := s.txns[t], DoGo(s, t, pick).txns[t];
      && Touched(T') <= Touched(T) && (Touched(T) <= Touched(T') || T'.pc.Doomed?)
      && Made(T') <= Made(T) && (Made(T) <= Made(T') || T'.pc.Doomed?)
  {
    hide Shapes, Chains, RecOk, TargetsFor, DoWork, ReadsTxn, WritesTxn, DoStamps, DoLeave, DoForget, DoRevert;
    var pc := s.txns[t].pc;
    if pc.Work? { WorkOwn(s, t, pc.wat, pick); }
    else if pc.Reads? { ReadsTargets(s, t, pc.todo, pc.rat, pick); }
    else if pc.Writes? { WritesForm(s, t, pc.todo, pc.uat, pick); }
    else if Late(pc) { LateStep(s, t, pick); }
  }

  /** Only a read adds to what a transaction reads, only an update or insert to what it writes; and nothing is
      forgotten except on the way to an abort. */
  lemma StepOwn(s: State, step: Step)
    requires Shapes(s) && Chains(s) && Enabled(s, step) && !step.Begin?
    ensures HasTxn(s, step.t) && HasTxn(Apply(s, step), step.t)
    ensures var T, T' := s.txns[step.t], Apply(s, step).txns[step.t];
      && (forall v :: v in Touched(T') ==> v in Touched(T) || step == Read(step.t, v))
      && (Touched(T) <= Touched(T') || T'.pc.Doomed?) && (step.Read? ==> step.v in Touched(T'))
      && (forall u :: u in Made(T') ==> u in Made(T) || (u == |s.vers| && (step.Update? || step.Insert?)))
      && (Made(T) <= Made(T') || T'.pc.Doomed?) && (step.Update? ==> |s.vers| in Made(T'))
  {
    hide Shapes, Chains, DoGo;
    if step.Go? { GoOwn(s, step.t, step.pick); }
  }

  /** Who can only abort stays so, whoever moves. */
  lemma LostKept(s: State, step: Step, t: Tid)
    requires Shapes(s) && Chains(s) && Enabled(s, step) && HasTxn(s, t) && Lost(s.txns[t])
    ensures HasTxn(Apply(s, step), t) && Lost(Apply(s, step).txns[t])
  {
    hide Shapes, Chains;
    if !step.Begin? {
      StepGuar(s, step);
      if step.t == t { LostStays(s, step); }
      hide Apply;
    }
  }

  lemma NotLost(s: State, t: Tid)
    requires Inv(s) && Committed(s, t)
    ensures !Lost(s.txns[t]) && Touched(s.txns[t]) == s.txns[t].seen && Made(s.txns[t]) == s.txns[t].wset
  {
    hide Shapes, Chains, BitSide, ReadSide, WriteSide, Facts, PivotSide, Roots, S2Side, Waits, ClaimSide;
    StatesAre(s, t);
  }

  // ---------------------------------------------------------------- stale reads

  /** a reads or has read v, on top of which lies a version of b, whose commit stamp is smaller than a's begin. */
  predicate Passed(s: State, a: Tid, b: Tid, v: Vid) {
    && HasTxn(s, a) && HasTxn(s, b) && HasVer(s, v) && OverBy(s, v) == Some(b)
    && v in Touched(s.txns[a]) && 0 < s.txns[b].got < s.txns[a].begin
  }

  /** The step is a read of v by a that skips b's version: b holds a commit stamp smaller than a's begin, and has not
      stamped the version yet. */
  predicate Skips(s: State, step: Step, a: Tid, b: Tid, v: Vid) {
    && step == Read(a, v) && HasTxn(s, a) && HasTxn(s, b) && HasVer(s, v) && OverBy(s, v) == Some(b)
    && 0 < s.txns[b].got < s.txns[a].begin && s.vers[s.vers[v].over.value].clsn.Pending?
  }

  /** A commit stamp below a's begin is older than a. */
  lemma OldStamp(s: State, s': State, m: Tid, a: Tid, b: Tid)
    requires Shapes(s) && Guar(s, s', m) && HasTxn(s, a) && HasTxn(s, b) && 0 < s'.txns[b].got < s'.txns[a].begin
    ensures s'.txns[a].begin == s.txns[a].begin && s'.txns[b].got == s.txns[b].got
  {
    hide Shapes;
    StampBounds(s);
  }

  /** What lies on top of v under b's name lay there before, once b holds a commit stamp. */
  lemma OverBefore(s: State, s': State, m: Tid, b: Tid, v: Vid)
    requires Shapes(s) && Chains(s) && Guar(s, s', m) && HasTxn(s, b) && HasVer(s, v)
    requires OverBy(s', v) == Some(b) && s'.txns[b].got != 0
    ensures OverBy(s, v) == Some(b)
  {
    hide Shapes, Chains;
    assert VerGuar(s, s', m, v);
    OverThere(s, v);
    if s.vers[v].over.Some? { assert VerGuar(s, s', m, s.vers[v].over.value); }
  }

  lemma PassedBefore(s: State, step: Step, a: Tid, b: Tid, v: Vid)
    requires Inv(s) && Enabled(s, step) && Passed(Apply(s, step), a, b, v)
    ensures Passed(s, a, b, v) || Skips(s, step, a, b, v)
  {
    hide Shapes, Chains, BitSide, ReadSide, WriteSide, Facts, PivotSide, Roots, S2Side, Waits, ClaimSide;
    var s' := Apply(s, step);
    if !step.Begin? {
      StepGuar(s, step);
      StepOwn(s, step);
      TouchedHere(s, step, a, v);
      hide Apply;
      OldStamp(s, s', step.t, a, b);
      OverBefore(s, s', step.t, b, v);
      if step == Read(a, v) { SkippedPending(s, a, b, v); }
    }
  }

  lemma TouchedHere(s: State, step: Step, a: Tid, v: Vid)
    requires Shapes(s) && Chains(s) && Enabled(s, step) && !step.Begin?
    requires HasTxn(s, a) && HasTxn(Apply(s, step), a) && v in Touched(Apply(s, step).txns[a])
    ensures HasVer(s, v)
  {
    hide Shapes, Chains;
    StepGuar(s, step);
    StepOwn(s, step);
    GetTxn(s, a);
    if step == Read(a, v) { } else { hide Apply; }
  }

  /** A version under the name of a transaction with a commit stamp is one it writes, unless it aborts. */
  lemma OverOwned(s: State, b: Tid, v: Vid)
    requires Shapes(s) && Chains(s) && HasTxn(s, b) && HasVer(s, v) && OverBy(s, v) == Some(b) && s.txns[b].got != 0
    ensures HasVer(s, s.vers[v].over.value) && s.vers[s.vers[v].over.value].next == Some(v)
    ensures s.txns[b].st.Abrtd? || s.vers[v].over.value in s.txns[b].wset
  {
    hide Shapes, Chains, TopOk, CreationOk;
    GetVer(s, v);
    StatesAre(s, b);
    OwnTodo(s, b);
  }

  /** Nobody takes b's version off again but b, when it aborts. */
  lemma OverAfter(s: State, s': State, m: Tid, b: Tid, v: Vid)
    requires Shapes(s) && Chains(s) && Guar(s, s', m) && HasTxn(s, b) && HasVer(s, v)
    requires OverBy(s, v) == Some(b) && s.txns[b].got != 0
    ensures OverBy(s', v) == Some(b) || s'.txns[b].st.Abrtd?
  {
    hide Shapes, Chains;
    OverOwned(s, b, v);
    assert VerGuar(s, s', m, v);
    assert VerGuar(s, s', m, s.vers[v].over.value);
  }

  /** Either of the two can only abort. */
  predicate OneLost(s: State, a: Tid, b: Tid) {
    HasTxn(s, a) && HasTxn(s, b) && (Lost(s.txns[a]) || Lost(s.txns[b]))
  }

  lemma PassedAfter(s: State, step: Step, a: Tid, b: Tid, v: Vid)
    requires Shapes(s) && Chains(s) && Enabled(s, step) && (Passed(s, a, b, v) || Skips(s, step, a, b, v))
    ensures Passed(Apply(s, step), a, b, v) || OneLost(Apply(s, step), a, b)
  {
    hide Shapes, Chains;
    var s' := Apply(s, step);
    if !step.Begin? {
      StepGuar(s, step);
      StepOwn(s, step);
      hide Apply;
      OverAfter(s, s', step.t, b, v);
    }
  }

  lemma OneLostKept(s: State, step: Step, a: Tid, b: Tid)
    requires Shapes(s) && Chains(s) && Enabled(s, step) && OneLost(s, a, b)
    ensures OneLost(Apply(s, step), a, b)
  {
    hide Shapes, Chains;
    if Lost(s.txns[a]) { LostKept(s, step, a); } else { LostKept(s, step, b); }
    if !step.Begin? {
      StepGuar(s, step);
      hide Apply;
    }
  }

  ghost predicate Skipped(states: seq<State>, steps: seq<Step>, k: nat, a: Tid, b: Tid, v: Vid)
    requires k <= |steps| < |states|
  {
    exists i :: 0 <= i < k && Skips(states[i], steps[i], a, b, v)
  }

  lemma {:induction false} SkippedRun(states: seq<State>, steps: seq<Step>, k: nat, a: Tid, b: Tid, v: Vid)
    requires Run(states, steps) && k <= |steps|
    ensures Passed(states[k], a, b, v) ==> Skipped(states, steps, k, a, b, v)
    ensures Skipped(states, steps, k, a, b, v) ==> Passed(states[k], a, b, v) || OneLost(states[k], a, b)
  {
    hide Shapes, Chains, BitSide, ReadSide, WriteSide, Facts, PivotSide, Roots, S2Side, Waits, ClaimSide;
    hide Apply, Enabled, Skips, Passed, OneLost;
    if k == 0 {
      NobodyYet(states[0], a, b, v);
    } else {
      var s, step := states[k - 1], steps[k - 1];
      SkippedRun(states, steps, k - 1, a, b, v);
      RunInv(states, steps, k - 1);
      assert Goes(s, step, states[k]);
      if Passed(states[k], a, b, v) { PassedBefore(s, step, a, b, v); }
      if Passed(s, a, b, v) || Skips(s, step, a, b, v) { PassedAfter(s, step, a, b, v); }
      if OneLost(s, a, b) { OneLostKept(s, step, a, b); }
    }
  }

  lemma NobodyYet(s: State, a: Tid, b: Tid, v: Vid)
    requires Init(s)
    ensures !Passed(s, a, b, v) && !LateHold(s, b, v)
  {
  }

  /** A committed transaction read what another had replaced. */
  lemma PassedIsStale(s: State, a: Tid, b: Tid, v: Vid)
    requires Inv(s) && a != b && Committed(s, a) && Committed(s, b)
    ensures Passed(s, a, b, v) <==> exists u: Vid :: StaleAt(s, a, b, u) && Prev(s, u) == v
  {
    hide Shapes, Chains, BitSide, ReadSide, WriteSide, Facts, PivotSide, Roots, S2Side, Waits, ClaimSide;
    NotLost(s, a);
    NotLost(s, b);
    CommittedStamp(s, b);
    if Passed(s, a, b, v) {
      OverOwned(s, b, v);
      assert StaleAt(s, a, b, s.vers[v].over.value);
    }
    if u: Vid :| StaleAt(s, a, b, u) && Prev(s, u) == v { Linked(s, b, u); }
  }

  /** A committed transaction has read a version that another had replaced, with a commit stamp smaller than its
      begin, exactly when a read of it skipped the other's version, which the other had not stamped yet. */
  lemma StaleExact(states: seq<State>, steps: seq<Step>, a: Tid, b: Tid, v: Vid)
    requires Run(states, steps) && a != b && Committed(states[|steps|], a) && Committed(states[|steps|], b)
    ensures (exists u: Vid :: StaleAt(states[|steps|], a, b, u) && Prev(states[|steps|], u) == v)
      <==> Skipped(states, steps, |steps|, a, b, v)
  {
    hide Inv, Skipped, Passed, StaleAt, Goes;
    var n := |steps|;
    RunInv(states, steps, n);
    SkippedRun(states, steps, n, a, b, v);
    PassedIsStale(states[n], a, b, v);
    NotLost(states[n], a);
    NotLost(states[n], b);
  }

  // ---------------------------------------------------------------- late updates

  /** b replaced a version stamped no earlier than its own begin. */
  predicate LateOver(s: State, b: Tid, u: Vid) {
    && HasTxn(s, b) && u in s.txns[b].wset && HasNext(s, u)
    && s.vers[Prev(s, u)].clsn.Stamped? && s.txns[b].begin <= s.vers[Prev(s, u)].clsn.n
  }

  /** The step is b's look at the owner of the head v, which has committed with a stamp no smaller than b's begin
      and has not yet been freed. */
  predicate LateClaim(s: State, step: Step, b: Tid, v: Vid) {
    && step.Go? && step.t == b && HasTxn(s, b) && s.txns[b].pc == Work(WorkAt.Claim(v))
    && HasVer(s, v) && HasTxn(s, s.vers[v].creator)
    && var X := s.txns[s.vers[v].creator]; !X.pc.Freed? && X.st.Cmmtd? && s.txns[b].begin <= X.got
  }

  /** b made u on top of v. */
  predicate On(s: State, b: Tid, u: Vid, v: Vid) {
    HasTxn(s, b) && u in Made(s.txns[b]) && HasVer(s, u) && s.vers[u].next == Some(v)
  }

  /** b has put a version on v, or is about to, and v is stamped no earlier than b's begin. */
  ghost predicate LateHold(s: State, b: Tid, v: Vid) {
    && HasTxn(s, b) && HasVer(s, v) && s.vers[v].clsn.Stamped? && s.txns[b].begin <= s.vers[v].clsn.n
    && (s.txns[b].pc == Work(Swap(v)) || exists u: Vid :: On(s, b, u, v))
  }

  /** The stamp of a head whose owner was seen to have committed is the owner's. */
  lemma ClaimedStamp(s: State, b: Tid, v: Vid)
    requires Shapes(s) && Chains(s) && ClaimSide(s) && HasTxn(s, b) && HasVer(s, v) && HasTxn(s, s.vers[v].creator)
    requires ClaimTxn(s.txns[b], v, s.txns[s.vers[v].creator]).pc == Work(Swap(v))
    ensures s.vers[v].clsn == Stamped(s.txns[s.vers[v].creator].got)
  {
    hide Shapes, Chains, LinkOk, TopOk;
    assert DeadOf(s, v);
    ClaimStamped(s, b, v);
    GetVer(s, v);
  }

  lemma OnBefore(s: State, step: Step, b: Tid, u: Vid, v: Vid)
    requires Shapes(s) && Chains(s) && Enabled(s, step) && !step.Begin? && HasTxn(s, b) && On(Apply(s, step), b, u, v)
    ensures On(s, b, u, v) || (step == Update(b, v) && u == |s.vers|)
  {
    hide Shapes, Chains;
    var s' := Apply(s, step);
    StepGuar(s, step);
    StepOwn(s, step);
    GetTxn(s, b);
    if u in Made(s.txns[b]) {
      hide Apply;
      assert VerGuar(s, s', step.t, u);
    }
  }

  /** What lies under a version of b was stamped, and keeps its stamp. */
  lemma OnStamped(s: State, b: Tid, u: Vid, v: Vid)
    requires Chains(s) && On(s, b, u, v)
    ensures HasVer(s, v) && s.vers[v].clsn.Stamped?
  {
    hide Chains;
    GetVer(s, u);
  }

  lemma SwapBefore(s: State, step: Step, b: Tid, v: Vid)
    requires Shapes(s) && Chains(s) && ClaimSide(s) && Enabled(s, step) && !step.Begin? && HasTxn(s, b)
    requires HasTxn(Apply(s, step), b) && Apply(s, step).txns[b].pc == Work(Swap(v))
    ensures s.txns[b].pc == Work(Swap(v)) || (step.Go? && step.t == b && s.txns[b].pc == Work(WorkAt.Claim(v)))
    ensures HasVer(s, v) && s.vers[v].clsn.Stamped?
    ensures s.txns[b].pc != Work(Swap(v)) ==>
      && HasTxn(s, s.vers[v].creator) && s.vers[v].clsn.n == s.txns[s.vers[v].creator].got
      && !s.txns[s.vers[v].creator].pc.Freed? && s.txns[s.vers[v].creator].st.Cmmtd?
  {
    hide Shapes, Chains;
    StepGuar(s, step);
    SwapFrom(s, step);
    if step.t == b {
      ClaimGoes(s, b, step.pick, v);
      ClaimedStamp(s, b, v);
    } else {
      hide Apply;
      assert SwapOf(s, b);
    }
  }

  lemma LateBefore(s: State, step: Step, b: Tid, v: Vid)
    requires Shapes(s) && Chains(s) && ClaimSide(s) && Enabled(s, step) && LateHold(Apply(s, step), b, v)
    ensures LateHold(s, b, v) || LateClaim(s, step, b, v)
  {
    hide Shapes, Chains, ClaimSide;
    var s' := Apply(s, step);
    if step.Begin? {
      LateOld(s, step.slot, b, v);
    } else {
      StepGuar(s, step);
      if s'.txns[b].pc == Work(Swap(v)) {
        SwapBefore(s, step, b, v);
        hide Apply;
        assert VerGuar(s, s', step.t, v);
      } else {
        var u: Vid :| On(s', b, u, v);
        OnBefore(s, step, b, u, v);
        if On(s, b, u, v) {
          OnStamped(s, b, u, v);
          hide Apply;
          assert VerGuar(s, s', step.t, v);
        }
      }
    }
  }

  lemma LateOld(s: State, slot: Slot, b: Tid, v: Vid)
    requires LateHold(DoBegin(s, slot), b, v)
    ensures LateHold(s, b, v)
  {
    var s' := DoBegin(s, slot);
    if u: Vid :| On(s', b, u, v) { assert On(s, b, u, v); }
  }

  lemma LateNew(s: State, slot: Slot, b: Tid, v: Vid)
    requires LateHold(s, b, v)
    ensures LateHold(DoBegin(s, slot), b, v)
  {
    if u: Vid :| On(s, b, u, v) { assert On(DoBegin(s, slot), b, u, v); }
  }

  /** From the swap on there is the update, or an abort. */
  lemma SwapAfter(s: State, step: Step, b: Tid, v: Vid)
    requires Enabled(s, step) && !step.Begin? && step.t == b && HasTxn(s, b) && s.txns[b].pc == Work(Swap(v))
    ensures HasTxn(Apply(s, step), b)
    ensures On(Apply(s, step), b, |s.vers|, v) || Lost(Apply(s, step).txns[b])
  {
  }

  lemma OnAfter(s: State, step: Step, b: Tid, u: Vid, v: Vid)
    requires Shapes(s) && Chains(s) && Enabled(s, step) && !step.Begin? && On(s, b, u, v)
    ensures HasTxn(Apply(s, step), b) && (On(Apply(s, step), b, u, v) || Lost(Apply(s, step).txns[b]))
  {
    hide Shapes, Chains;
    var s' := Apply(s, step);
    StepGuar(s, step);
    StepOwn(s, step);
    hide Apply;
    assert VerGuar(s, s', step.t, u);
  }

  lemma LateAfter(s: State, step: Step, b: Tid, v: Vid)
    requires Shapes(s) && Chains(s) && ClaimSide(s) && Enabled(s, step)
    requires LateHold(s, b, v) || LateClaim(s, step, b, v)
    ensures HasTxn(Apply(s, step), b) && (LateHold(Apply(s, step), b, v) || Lost(Apply(s, step).txns[b]))
  {
    hide Shapes, Chains, ClaimSide;
    var s' := Apply(s, step);
    if step.Begin? {
      LateNew(s, step.slot, b, v);
    } else {
      StepGuar(s, step);
      if LateHold(s, b, v) {
        if u: Vid :| On(s, b, u, v) { OnAfter(s, step, b, u, v); }
        else if step.t == b { SwapAfter(s, step, b, v); }
        hide Apply;
        assert VerGuar(s, s', step.t, v);
      } else {
        ClaimGoes(s, b, step.pick, v);
        ClaimedStamp(s, b, v);
      }
    }
  }

  ghost predicate LateClaimed(states: seq<State>, steps: seq<Step>, k: nat, b: Tid, v: Vid)
    requires k <= |steps| < |states|
  {
    exists i :: 0 <= i < k && LateClaim(states[i], steps[i], b, v)
  }

  lemma {:induction false} LateRun(states: seq<State>, steps: seq<Step>, k: nat, b: Tid, v: Vid)
    requires Run(states, steps) && k <= |steps|
    ensures LateHold(states[k], b, v) ==> LateClaimed(states, steps, k, b, v)
    ensures LateClaimed(states, steps, k, b, v) ==>
      HasTxn(states[k], b) && (LateHold(states[k], b, v) || Lost(states[k].txns[b]))
  {
    hide Shapes, Chains, BitSide, ReadSide, WriteSide, Facts, PivotSide, Roots, S2Side, Waits, ClaimSide;
    hide Apply, Enabled, LateClaim, LateHold, Lost;
    if k == 0 {
      NobodyYet(states[0], 0, b, v);
    } else {
      var s, step := states[k - 1], steps[k - 1];
      LateRun(states, steps, k - 1, b, v);
      RunInv(states, steps, k - 1);
      assert Goes(s, step, states[k]);
      if LateHold(states[k], b, v) { LateBefore(s, step, b, v); }
      if LateHold(s, b, v) || LateClaim(s, step, b, v) { LateAfter(s, step, b, v); }
      if HasTxn(s, b) && Lost(s.txns[b]) { LostKept(s, step, b); }
    }
  }

  lemma HoldIsOver(s: State, b: Tid, v: Vid)
    requires Inv(s) && Committed(s, b)
    ensures LateHold(s, b, v) <==> exists u: Vid :: LateOver(s, b, u) && Prev(s, u) == v
  {
    hide Shapes, Chains, BitSide, ReadSide, WriteSide, Facts, PivotSide, Roots, S2Side, Waits, ClaimSide;
    NotLost(s, b);
    StatesAre(s, b);
    if LateHold(s, b, v) {
      var u: Vid :| On(s, b, u, v);
      assert LateOver(s, b, u) && Prev(s, u) == v;
    }
    if u: Vid :| LateOver(s, b, u) && Prev(s, u) == v { assert On(s, b, u, v); }
  }

  /** First updater wins, exactly: a committed transaction has replaced a version stamped no earlier than its begin
      if and only if it found the owner's XID there and then saw the owner committed with such a stamp. */
  lemma LateExact(states: seq<State>, steps: seq<Step>, b: Tid, v: Vid)
    requires Run(states, steps) && Committed(states[|steps|], b)
    ensures (exists u: Vid :: LateOver(states[|steps|], b, u) && Prev(states[|steps|], u) == v)
      <==> LateClaimed(states, steps, |steps|, b, v)
  {
    hide Inv, LateClaimed, LateHold, LateOver, Goes;
    var n := |steps|;
    RunInv(states, steps, n);
    LateRun(states, steps, n, b, v);
    HoldIsOver(states[n], b, v);
    NotLost(states[n], b);
  }
}
