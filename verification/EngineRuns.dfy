/** All invariants together, over every run. */
module EngineRuns {
  import opened Engine
  import opened EngineInv
  import opened EngineShapes
  import opened EngineChains
  import opened EngineGuar
  import opened EngineBits
  import opened EngineReads
  import opened EngineWrites
  import opened EngineFacts
  import opened EngineSsi
  import opened EngineMarks

  ghost predicate Inv(s: State) {
    && Shapes(s) && Chains(s) && BitSide(s) && ReadSide(s) && WriteSide(s)
    && Facts(s) && PivotSide(s) && Roots(s) && S2Side(s) && Waits(s)
    && ClaimSide(s)
  }

  /** s is the last state of some run. */
  ghost predicate Reachable(s: State) {
    exists states: seq<State>, steps: seq<Step> :: Run(states, steps) && states[|steps|] == s
  }

  lemma InitInv(s: State)
    requires Init(s)
    ensures Inv(s)
  {
  }

  lemma StepInv(s: State, step: Step)
    requires Inv(s) && Enabled(s, step)
    ensures Inv(Apply(s, step))
  {
    hide Shapes, Chains, BitSide, ReadSide, WriteSide, Facts, PivotSide, Roots, S2Side, Waits, ClaimSide, Apply,
      Enabled;
    StepShapes(s, step);
    StepChains(s, step);
    StepBits(s, step);
    StepReads(s, step);
    StepWrites(s, step);
    StepFacts(s, step);
    StepPivot(s, step);
    StepRoots(s, step);
    StepS2(s, step);
    StepWaits(s, step);
    StepClaims(s, step);
  }

  lemma {:induction false} RunInv(states: seq<State>, steps: seq<Step>, k: nat)
    requires Run(states, steps) && k <= |steps|
    ensures Inv(states[k])
  {
    hide Inv, Apply, Enabled;
    if k == 0 {
      InitInv(states[0]);
    } else {
      RunInv(states, steps, k - 1);
      StepInv(states[k - 1], steps[k - 1]);
    }
  }

  lemma ReachInv(s: State)
    requires Reachable(s)
    ensures Inv(s)
  {
    hide Inv;
    var states: seq<State>, steps: seq<Step> :| Run(states, steps) && states[|steps|] == s;
    RunInv(states, steps, |steps|);
  }

  /** An updater at its compare-and-swap can always go on: the head it found is stamped, or has been replaced. */
  lemma SwapStamped(s: State, t: Tid, v: Vid)
    requires Reachable(s) && HasTxn(s, t) && s.txns[t].pc == Work(Swap(v))
    ensures HasVer(s, v) && s.vers[v].clsn.Stamped? && (CanUpdate(s, t, v) || CanGo(s, t, 0))
  {
    ReachInv(s);
    hide Shapes, Chains, BitSide, ReadSide, WriteSide, Facts, PivotSide, Roots, S2Side, Waits, Reachable;
    assert SwapOf(s, t);
  }
}
