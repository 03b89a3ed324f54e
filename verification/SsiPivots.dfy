/** What a possible pivot of SSI refuses: when it commits, every reader that it found on a version it overwrote has
    aborted or has committed before the pivot's successor. */
module SsiPivots {
  import opened Options
  import opened Engine
  import opened EngineInv
  import opened EngineShapes
  import opened EngineGuar
  import opened EngineBits
  import opened EngineReads
  import opened EngineWrites
  import opened EngineFacts
  import opened EngineSsi
  import opened EngineMarks
  import opened EngineRuns
  import opened Dependencies
  import opened Snapshots

  /** r has aborted, or holds a commit stamp smaller than that of t's successor. */
  predicate Fine(s: State, t: Tid, r: Tid) {
    HasTxn(s, t) && HasTxn(s, r) && (s.txns[r].st.Abrtd? || 0 < s.txns[r].got < s.txns[t].ct3)
  }

  /** The same, or r has left v with its stamp. */
  predicate Good(s: State, t: Tid, r: Tid, v: Vid) {
    Fine(s, t, r) || (HasTxn(s, r) && s.txns[r].st.Cmmtd? && v in s.txns[r].rset && v !in Held(s.txns[r]))
  }

  /** The scan of the readers below u has still to deal with r, or is doing so. */
  predicate Watching(s: State, t: Tid, u: Vid, r: Tid) {
    && HasTxn(s, t) && HasTxn(s, r) && s.txns[t].pc.Writes? && s.txns[t].pc.uat.Scan? && s.txns[t].pc.uat.u == u
    && (s.txns[r].slot in s.txns[t].pc.uat.bits || Peer(s.txns[t].pc) == Some(r))
  }

  /** t has r in view, has dealt with it, or can only abort. */
  predicate Watch(s: State, t: Tid, u: Vid, v: Vid, r: Tid) {
    && HasTxn(s, t) && HasTxn(s, r) && r != t && Over(s, t, u, v) && v in s.txns[r].rset && s.txns[t].got != 0
    && (|| Lost(s.txns[t]) || Fine(s, t, r) || Watching(s, t, u, r)
        || (s.txns[t].pc.Writes? && WriteFocus(s.txns[t].pc.uat) == {u} && Good(s, t, r, v)))
    && (Lost(s.txns[t]) || s.txns[t].pc.Writes? || s.txns[t].pc.Deciding? || Decided(s.txns[t]))
  }

  predicate Over(s: State, t: Tid, u: Vid, v: Vid) {
    HasVer(s, u) && HasVer(s, v) && s.vers[u].creator == t && s.vers[u].next == Some(v)
  }

  /** The step copies the word of the bitmap below u in which r's bit is set. */
  predicate Copies(s: State, step: Step, t: Tid, u: Vid, v: Vid, r: Tid) {
    && step.Go? && step.t == t && HasTxn(s, t) && HasTxn(s, r) && r != t && s.txns[t].pc.Writes?
    && s.txns[t].pc.uat.Scan? && s.txns[t].pc.uat.u == u && s.txns[t].pc.uat.at.Bits? && s.txns[t].pc.uat.bits == {}
    && s.txns[t].pc.uat.k < s.words && Over(s, t, u, v) && v in Held(s.txns[r]) && s.txns[r].slot in s.vers[v].readers
    && 64 * s.txns[t].pc.uat.k <= s.txns[r].slot < 64 * (s.txns[t].pc.uat.k + 1) && s.txns[r].slot != s.txns[t].slot
  }

  lemma KeepOver(s: State, s': State, m: Tid, t: Tid, u: Vid, v: Vid)
    requires Guar(s, s', m) && Over(s, t, u, v)
    ensures Over(s', t, u, v)
  {
    assert VerGuar(s, s', m, u);
  }

  /** r is done with v for good, or its slot is still its own. */
  lemma SlotOrDone(s: State, r: Tid, v: Vid)
    requires Shapes(s) && HasTxn(s, r) && v in s.txns[r].rset
    ensures (s.txns[r].slot in s.xids && s.xids[s.txns[r].slot] == r)
      || s.txns[r].st.Abrtd? || (s.txns[r].st.Cmmtd? && v !in Held(s.txns[r]))
  {
    hide Shapes;
    GetSlots(s);
    StatesAre(s, r);
  }

  /** One access of the scan loses sight of no reader. */
  lemma ScanWatch(s: State, t: Tid, u: Vid, v: Vid, r: Tid, pick: nat)
    requires Shapes(s) && s.cert.SSI? && CanGo(s, t, pick) && Watch(s, t, u, v, r) && !Lost(s.txns[t])
    requires s.txns[t].pc.Writes? && s.txns[t].pc.uat.Scan? && s.txns[t].pc.uat.u == u && HasNext(s, u)
    requires ScanOk(s, t, s.txns[t].pc.uat)
    ensures HasTxn(DoGo(s, t, pick), t) && Watch(DoGo(s, t, pick), t, u, v, r)
  {
    hide Shapes;
    SlotOrDone(s, r, v);
    StatesAre(s, r);
    StatesAre(s, t);
    ScanTxnWatch(s, t, s.txns[t].pc.todo, s.txns[t].pc.uat, v, r, pick);
    hide ScanTxn;
  }

  lemma ScanTxnWatch(s: State, t: Tid, todo: set<Vid>, w: WriteAt, v: Vid, r: Tid, pick: nat)
    requires HasTxn(s, t) && s.cert.SSI? && s.txns[t].pc == Writes(todo, w) && w.Scan? && HasNext(s, w.u)
    requires CanScan(s, w.bits, w.at, pick) && Watch(s, t, w.u, v, r) && !Lost(s.txns[t]) && ScanOk(s, t, w)
    requires (s.txns[r].slot in s.xids && s.xids[s.txns[r].slot] == r)
      || s.txns[r].st.Abrtd? || (s.txns[r].st.Cmmtd? && v !in Held(s.txns[r]))
    requires StateOk(s.txns[r]) && (s.txns[r].end == 0 || s.txns[r].end == s.txns[r].got)
    requires s.txns[r].pc.Freed? ==> v !in Held(s.txns[r])
    ensures var T' := ScanTxn(s, t, todo, w, s.vers[Prev(s, w.u)], pick); Watch(PutTxn(s, t, T'), t, w.u, v, r)
  {
  }

  /** The last look at xstamp settles the readers that have left. */
  lemma LastWatch(s: State, t: Tid, u: Vid, v: Vid, r: Tid, pick: nat)
    requires Shapes(s) && BitSide(s) && s.cert.SSI? && CanGo(s, t, pick) && Watch(s, t, u, v, r) && !Lost(s.txns[t])
    requires s.txns[t].pc.Writes? && s.txns[t].pc.uat == LastXstamp(u)
    ensures HasTxn(DoGo(s, t, pick), t) && Watch(DoGo(s, t, pick), t, u, v, r)
  {
    hide Shapes, BitSide;
    StatesAre(s, r);
    GetBits(s, r);
  }

  lemma OwnWatch(s: State, step: Step, u: Vid, v: Vid, r: Tid)
    requires Inv(s) && s.cert.SSI? && Enabled(s, step) && !step.Begin? && Watch(s, step.t, u, v, r)
    ensures HasTxn(Apply(s, step), step.t) && Watch(Apply(s, step), step.t, u, v, r)
  {
    hide Shapes, Chains, BitSide, ReadSide, WriteSide, Facts, PivotSide, Roots, S2Side, Waits, ClaimSide;
    var t, T, s' := step.t, s.txns[step.t], Apply(s, step);
    StepGuar(s, step);
    StatesAre(s, t);
    KeepOver(s, s', t, t, u, v);
    if Lost(T) { LostStays(s, step); hide Apply; }
    else if step.Go? && T.pc.Writes? && T.pc.uat == LastXstamp(u) { LastWatch(s, t, u, v, r, step.pick); }
    else if step.Go? && T.pc.Writes? && T.pc.uat.Scan? && T.pc.uat.u == u {
      GetWrites(s, t);
      ScanWatch(s, t, u, v, r, step.pick);
    } else {
      FineStays(s, step);
      hide Apply;
    }
  }

  /** Elsewhere ct3 stays, and t stays on its way. */
  lemma FineStays(s: State, step: Step)
    requires Shapes(s) && Chains(s) && Enabled(s, step) && !step.Begin? && HasTxn(s, step.t)
    requires var T := s.txns[step.t]; T.pc.Writes? || T.pc.Deciding? || Decided(T)
    ensures HasTxn(Apply(s, step), step.t)
    ensures var T, T' := s.txns[step.t], Apply(s, step).txns[step.t];
      T'.ct3 == T.ct3 && (Lost(T') || T'.pc.Writes? || T'.pc.Deciding? || Decided(T'))
  {
    hide Shapes, Chains, WritesTxn, DoStamps, DoLeave, RecOk;
    StatesAre(s, step.t);
    StepGuar(s, step);
    if step.Go? {
      var pc := s.txns[step.t].pc;
      if pc.Writes? { WritesForm(s, step.t, pc.todo, pc.uat, step.pick); }
      else if Late(pc) { LateStep(s, step.t, step.pick); }
    }
  }

  lemma OthersWatch(s: State, step: Step, t: Tid, u: Vid, v: Vid, r: Tid)
    requires Shapes(s) && Chains(s) && Enabled(s, step) && !step.Begin? && step.t != t && Watch(s, t, u, v, r)
    ensures HasTxn(Apply(s, step), t) && Watch(Apply(s, step), t, u, v, r)
  {
    hide Shapes, Chains;
    var s' := Apply(s, step);
    StepGuar(s, step);
    KeepOver(s, s', step.t, t, u, v);
    StatesAre(s, r);
    if step.t == r { HeldShrinks(s, step, v); }
    hide Apply;
  }

  /** A reader that has left a version does not come back. */
  lemma HeldShrinks(s: State, step: Step, v: Vid)
    requires Shapes(s) && Chains(s) && Enabled(s, step) && !step.Begin? && HasTxn(s, step.t) && StateOk(s.txns[step.t])
    ensures HasTxn(Apply(s, step), step.t)
    ensures var T, T' := s.txns[step.t], Apply(s, step).txns[step.t];
      T.st.Cmmtd? && v in T.rset && v !in Held(T) ==> v !in Held(T')
  {
    hide Shapes, Chains, DoWork, ReadsTxn, WritesTxn, DoStamps, DoForget, DoRevert;
    GetTxn(s, step.t);
    StepGuar(s, step);
  }

  lemma NewWatch(s: State, slot: Slot, t: Tid, u: Vid, v: Vid, r: Tid)
    requires Watch(s, t, u, v, r)
    ensures Watch(DoBegin(s, slot), t, u, v, r)
  {
  }

  lemma StepWatch(s: State, step: Step, t: Tid, u: Vid, v: Vid, r: Tid)
    requires Inv(s) && s.cert.SSI? && Enabled(s, step) && Watch(s, t, u, v, r)
    ensures Apply(s, step).cert.SSI? && Watch(Apply(s, step), t, u, v, r)
  {
    hide Shapes, Chains, BitSide, ReadSide, WriteSide, Facts, PivotSide, Roots, S2Side, Waits, ClaimSide, Watch;
    if step.Begin? { NewWatch(s, step.slot, t, u, v, r); }
    else {
      StepGuar(s, step);
      if step.t == t { OwnWatch(s, step, u, v, r); } else { OthersWatch(s, step, t, u, v, r); }
      hide Apply;
    }
  }

  /** With the copy of its word the reader comes into view. */
  lemma CopyWatch(s: State, step: Step, t: Tid, u: Vid, v: Vid, r: Tid)
    requires Inv(s) && s.cert.SSI? && Enabled(s, step) && Copies(s, step, t, u, v, r)
    ensures Apply(s, step).cert.SSI? && Watch(Apply(s, step), t, u, v, r)
  {
    hide Shapes, Chains, BitSide, ReadSide, WriteSide, Facts, PivotSide, Roots, S2Side, Waits, ClaimSide;
    StatesAre(s, t);
    GetTxn(s, r);
  }

  lemma {:induction false} RunWatch(states: seq<State>, steps: seq<Step>, i: nat, k: nat,
                                    t: Tid, u: Vid, v: Vid, r: Tid)
    requires Run(states, steps) && i < k <= |steps| && states[i].cert.SSI? && Copies(states[i], steps[i], t, u, v, r)
    ensures states[k].cert.SSI? && Watch(states[k], t, u, v, r)
  {
    RunInv(states, steps, k - 1);
    assert Goes(states[k - 1], steps[k - 1], states[k]);
    hide Inv, Apply, Enabled, Watch, Copies;
    if k == i + 1 { CopyWatch(states[i], steps[i], t, u, v, r); }
    else {
      RunWatch(states, steps, i, k - 1, t, u, v, r);
      StepWatch(states[k - 1], steps[k - 1], t, u, v, r);
    }
  }

  /** When a possible pivot has committed, every reader whose bit it copied from a version it overwrote has aborted, or
      holds a smaller commit stamp than the pivot's successor: none was left active, younger, or in between. */
  lemma PivotRefusesAll(states: seq<State>, steps: seq<Step>, i: nat, k: nat, t: Tid, u: Vid, v: Vid, r: Tid)
    requires Run(states, steps) && i < k <= |steps| && states[i].cert.SSI? && Copies(states[i], steps[i], t, u, v, r)
    requires Committed(states[k], t)
    ensures Fine(states[k], t, r)
  {
    hide Goes;
    RunWatch(states, steps, i, k, t, u, v, r);
    RunInv(states, steps, k);
    hide Inv;
    NotLost(states[k], t);
    PastWrites(states[k], t);
  }

  lemma PastWrites(s: State, t: Tid)
    requires Inv(s) && Committed(s, t)
    ensures !s.txns[t].pc.Writes?
  {
    hide Shapes, Chains, BitSide, ReadSide, WriteSide, Facts, PivotSide, Roots, S2Side, Waits, ClaimSide;
    StatesAre(s, t);
  }
}
