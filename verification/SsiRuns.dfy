/** SSI over whole runs, without the flags of the engine: which steps of a run let it commit a dangerous structure
    or a cycle, told by the state before the step. */
module SsiRuns {
  import opened Engine
  import opened EngineInv
  import opened EngineShapes
  import opened EngineGuar
  import opened EngineBits
  import opened EngineReads
  import opened EngineWrites
  import opened EngineFacts
  import opened EngineSsi
  import opened EngineMarks
  import opened EngineRuns
  import opened Dependencies
  import opened Replay
  import opened SerialOrders
  import opened Snapshots

  /** The step is a look of t that misses the s2 of an older pivot: in ssi_read, or in pre-commit. */
  ghost predicate Misses(s: State, step: Step, t: Tid) {
    && step.Go? && step.t == t && HasTxn(s, t)
    && match s.txns[t].pc
       case Work(w) => w.ReadSucc? && FinalUnderPivot(s, t, w.v)
       case Reads(todo, r) => r.CheckS2? && exists u: Vid :: StoresLater(s, t, r.v, u)
       case _ => false
  }

  // ---------------------------------------------------------------- one step

  lemma WorkTorn(s: State, t: Tid, w: WorkAt, pick: nat)
    requires HasTxn(s, t) && CanWork(s, w) && !w.ReadSucc?
    ensures HasTxn(DoWork(s, t, w, pick), t)
    ensures var T, T' := s.txns[t], DoWork(s, t, w, pick).txns[t]; T'.torn == T.torn
  {
  }

  lemma ReadTorn(s: State, t: Tid, v: Vid, pick: nat)
    requires HasTxn(s, t) && HasVer(s, v)
    ensures HasTxn(DoWork(s, t, ReadSucc(v), pick), t)
    ensures DoWork(s, t, ReadSucc(v), pick) == DoWork(s, t, ReadSucc(v), 0)
  {
  }

  lemma ReadsTorn(s: State, t: Tid, todo: set<Vid>, r: ReadAt, pick: nat)
    requires HasTxn(s, t) && CanReads(s, todo, r, pick)
    ensures var T, T' := s.txns[t], ReadsTxn(s, t, todo, r, pick);
      !r.CheckS2? ==> T'.torn == T.torn
  {
  }

  lemma WritesTorn(s: State, t: Tid, todo: set<Vid>, w: WriteAt, pick: nat)
    requires HasTxn(s, t) && CanWrites(s, todo, w, pick)
    ensures var T, T' := s.txns[t], WritesTxn(s, t, todo, w, pick); T'.torn == T.torn
  {
  }

  /** An access of t makes t torn exactly when it misses an s2. */
  lemma GoTorn(s: State, t: Tid, pick: nat)
    requires Inv(s) && s.cert.SSI? && CanGo(s, t, pick)
    ensures HasTxn(s, t) && HasTxn(DoGo(s, t, pick), t)
    ensures !s.txns[t].torn ==> (DoGo(s, t, pick).txns[t].torn <==> Misses(s, Go(t, pick), t))
  {
    hide Inv, DoWork, ReadsTxn, WritesTxn, FinalUnderPivot, StoresLater;
    var pc := s.txns[t].pc;
    if pc.Work? {
      if pc.wat.ReadSucc? {
        ReadTorn(s, t, pc.wat.v, pick);
        if !s.txns[t].torn { TornRead(s, t, pc.wat.v); }
      } else {
        WorkTorn(s, t, pc.wat, pick);
      }
    } else if pc.Reads? {
      ReadsTorn(s, t, pc.todo, pc.rat, pick);
      if pc.rat.CheckS2? && !s.txns[t].torn { TornWindow(s, t, pc.todo, pc.rat.v, pick); }
    } else if pc.Writes? {
      WritesTorn(s, t, pc.todo, pc.uat, pick);
    }
  }

  /** A step makes a transaction torn exactly when it misses an s2. */
  lemma StepTaint(s: State, step: Step, t: Tid)
    requires Inv(s) && s.cert.SSI? && Enabled(s, step) && HasTxn(s, t)
    ensures var s' := Apply(s, step);
      && s'.cert.SSI? && HasTxn(s', t)
      && (s'.txns[t].torn <==> s.txns[t].torn || Misses(s, step, t))
  {
    hide Shapes, Chains, BitSide, ReadSide, WriteSide, Facts, PivotSide, Roots, S2Side, Waits, ClaimSide;
    if step.Begin? {
    } else if step.Go? {
      StepGuar(s, step);
      if step.t == t { GoTorn(s, t, step.pick); }
      hide DoGo, Misses;
      if step.t != t { MissesOwn(s, step, t); }
    }
  }

  lemma MissesOwn(s: State, step: Step, t: Tid)
    requires step.Go? && step.t != t
    ensures !Misses(s, step, t)
  {
  }

  // ---------------------------------------------------------------- runs

  ghost predicate Missed(states: seq<State>, steps: seq<Step>, k: nat, t: Tid)
    requires k <= |steps| < |states|
  {
    exists i :: 0 <= i < k && Misses(states[i], steps[i], t)
  }

  /** The flag is what happened: torn after a miss, and not otherwise. */
  lemma {:induction false} Taints(states: seq<State>, steps: seq<Step>, k: nat, t: Tid)
    requires Run(states, steps) && states[0].cert.SSI? && k <= |steps|
    ensures states[k].cert.SSI?
    ensures (HasTxn(states[k], t) && states[k].txns[t].torn) <==> Missed(states, steps, k, t)
  {
    hide Inv, Misses, Apply, Enabled;
    if k > 0 {
      var i, s, step := k - 1, states[k - 1], steps[k - 1];
      Taints(states, steps, i, t);
      RunInv(states, steps, i);
      assert Goes(s, step, states[k]);
      if HasTxn(s, t) { StepTaint(s, step, t); } else { NewClean(s, step, t); }
    }
  }

  lemma NewClean(s: State, step: Step, t: Tid)
    requires Inv(s) && Enabled(s, step) && !HasTxn(s, t)
    ensures var s' := Apply(s, step);
      && s'.cert == s.cert && (HasTxn(s', t) ==> !s'.txns[t].torn)
      && !Misses(s, step, t)
  {
    hide Shapes, Chains, BitSide, ReadSide, WriteSide, Facts, PivotSide, Roots, S2Side, Waits, ClaimSide;
    if !step.Begin? {
      StepGuar(s, step);
      hide Apply;
    }
  }

  /** A run of SSI commits a dangerous structure exactly when a transaction that it commits missed an s2. */
  lemma SsiExactRun(states: seq<State>, steps: seq<Step>)
    requires Run(states, steps) && states[0].cert.SSI?
    ensures (exists a: Tid, b: Tid, c: Tid :: Dangerous(states[|steps|], a, b, c))
      <==> exists t: Tid :: Committed(states[|steps|], t) && Missed(states, steps, |steps|, t)
  {
    hide Dangerous, Missed, Inv, Goes;
    var n := |steps|;
    var s := states[n];
    Ends(states, steps);
    forall t: Tid
      ensures (HasTxn(s, t) && s.txns[t].torn) <==> Missed(states, steps, n, t)
    {
      Taints(states, steps, n, t);
    }
    Taints(states, steps, n, 0);
    SsiExact(s);
    if t: Tid :| Committed(s, t) && s.txns[t].torn { assert Missed(states, steps, n, t); }
    if t: Tid :| Committed(s, t) && Missed(states, steps, n, t) { assert s.txns[t].torn; }
  }

  lemma Ends(states: seq<State>, steps: seq<Step>)
    requires Run(states, steps)
    ensures Reachable(states[|steps|])
  {
  }

  /** What a run of SSI commits is serializable, unless a transaction that it commits missed an s2, or skipped the
      version of another that it commits. */
  lemma SsiSerializable(states: seq<State>, steps: seq<Step>)
    requires Run(states, steps) && states[0].cert.SSI?
    requires forall t: Tid :: Committed(states[|steps|], t) ==> !Missed(states, steps, |steps|, t)
    requires forall a: Tid, b: Tid, v: Vid ::
      a != b && Committed(states[|steps|], a) && Committed(states[|steps|], b) ==>
        !Skipped(states, steps, |steps|, a, b, v)
    ensures exists order: seq<Tid> :: Serial(states[|steps|], order) && Agrees(states[|steps|], order)
  {
    hide Missed, Skipped, Inv, Goes, Serial, Agrees, Cycle, StaleAt;
    var n := |steps|;
    var s := states[n];
    Ends(states, steps);
    Taints(states, steps, n, 0);
    forall t: Tid | Committed(s, t) ensures !s.txns[t].torn { Taints(states, steps, n, t); }
    forall a: Tid, b: Tid ensures !Stale(s, a, b) { NotStale(states, steps, a, b); }
    forall p: seq<Tid> ensures !Cycle(s, p) { SsiAcyclic(s, p); }
    SerialIffAcyclic(s);
    var order: seq<Tid> :| Serial(s, order);
    ReachInv(s);
    SerialAgrees(s, order);
  }

  lemma NotStale(states: seq<State>, steps: seq<Step>, a: Tid, b: Tid)
    requires Run(states, steps)
    requires forall v: Vid :: a != b && Committed(states[|steps|], a) && Committed(states[|steps|], b) ==>
      !Skipped(states, steps, |steps|, a, b, v)
    ensures !Stale(states[|steps|], a, b)
  {
    hide Skipped, Goes;
    var s := states[|steps|];
    if u: Vid :| StaleAt(s, a, b, u) { StaleExact(states, steps, a, b, Prev(s, u)); }
  }
}
