/** Stamps are real: every reader bit, every xstamp, every pstamp and every sstamp goes back to a transaction that
    read, wrote or overwrote the version in question. */
module EngineReal {
  import opened Options
  import opened Engine
  import opened EngineInv
  import opened EngineShapes
  import opened EngineGuar
  import opened EngineBits
  import opened EngineReads
  import opened EngineWrites
  import opened EngineFacts
  import opened EngineSsi
  import opened EngineMarks
  import opened EngineRuns

  // ---------------------------------------------------------------- bits

  /** Read versions whose bitmap may hold this transaction's bit. */
  function BitHeld(T: Txn): set<Vid> {
    match T.pc
    case Leave(todo, l) => todo + LeaveFocus(l)
    case Forget(todo) => todo
    case _ => if T.pc.Revert? || DonePc(T.pc) then {} else T.rset
  }

  /** A bit in v's bitmap belongs to a live transaction that read v. */
  ghost predicate BitOk(s: State, v: Vid, b: Slot)
    requires HasVer(s, v)
  {
    b in s.vers[v].readers ==>
      !s.cert.MVOCC? && b in s.xids && HasTxn(s, s.xids[b]) && v in BitHeld(s.txns[s.xids[b]])
  }

  ghost predicate BitsReal(s: State) { forall v: Vid, b: Slot :: HasVer(s, v) ==> BitOk(s, v, b) }

  /** Slots are given back by their owner, at the end. */
  lemma XidsStep(s: State, step: Step)
    requires Enabled(s, step) && !step.Begin?
    ensures var s' := Apply(s, step);
      s'.cert == s.cert && (s'.xids == s.xids ||
        (step.Go? && s.txns[step.t].pc.Finished? && s'.xids == s.xids - {s.txns[step.t].slot}))
  {
    hide DoWork, ReadsTxn, WritesTxn, DoStamps, DoLeave, DoForget, DoRevert;
    if step.Go? { PlainXids(s, step.t, step.pick); }
  }

  lemma PlainXids(s: State, t: Tid, pick: nat)
    requires CanGo(s, t, pick)
    ensures var s', pc := DoGo(s, t, pick), s.txns[t].pc;
      pc.Work? || pc.Stamps? || pc.Leave? || pc.Forget? || pc.Revert? ==> s'.cert == s.cert && s'.xids == s.xids
  {
    hide ReadsTxn, WritesTxn, SsnRead, SsiRead, InstalledTxn, ClaimTxn;
  }

  /** Only enlisting sets a bit. */
  lemma ReadersStep(s: State, step: Step, v: Vid)
    requires Enabled(s, step) && !step.Begin? && HasVer(s, v)
    ensures var s', T := Apply(s, step), s.txns[step.t];
      && HasVer(s', v)
      && s'.vers[v].readers <= s.vers[v].readers +
           (if step.Go? && T.pc == Work(Enlist(v)) then {T.slot} else {})
      && (step.Go? && T.pc.Leave? && T.pc.lat == ClearBit(v) ==> T.slot !in s'.vers[v].readers)
      && (step.Go? && T.pc.Forget? && T.pc.todo != {} && step.pick == v ==> T.slot !in s'.vers[v].readers)
  {
    hide ReadsTxn, WritesTxn, SsnRead, SsiRead, InstalledTxn, ClaimTxn;
  }

  /** A transaction lets go of a version only when it clears its bit. */
  lemma HeldStep(s: State, step: Step, v: Vid)
    requires Shapes(s) && Chains(s) && Enabled(s, step) && !step.Begin? && !s.cert.MVOCC?
    requires v in BitHeld(s.txns[step.t])
    requires !(step.Go? && s.txns[step.t].pc.Leave? && s.txns[step.t].pc.lat == ClearBit(v))
    requires !(step.Go? && s.txns[step.t].pc.Forget? && s.txns[step.t].pc.todo != {} && step.pick == v)
    ensures HasTxn(Apply(s, step), step.t) && v in BitHeld(Apply(s, step).txns[step.t])
  {
    hide Shapes, Chains, DoWork, ReadsTxn, WritesTxn, DoStamps, DoRevert, RecOk, TargetsFor;
    var t := step.t;
    StatesAre(s, t);
    if step.Go? {
      var pc := s.txns[t].pc;
      if pc.Leave? || pc.Forget? { LeaveHeld(s, t, step.pick, v); hide DoGo; }
      else if pc.Work? { WorkHeld(s, t, pc.wat, step.pick); }
      else if pc.Reads? { ReadsTargets(s, t, pc.todo, pc.rat, step.pick); }
      else if pc.Writes? { WritesForm(s, t, pc.todo, pc.uat, step.pick); }
      else if pc.Stamps? { StampsPc(s, t, pc.todo, pc.sat, step.pick); }
    }
  }

  lemma LeaveHeld(s: State, t: Tid, pick: nat, v: Vid)
    requires CanGo(s, t, pick) && v in BitHeld(s.txns[t])
    requires var pc := s.txns[t].pc;
      (pc.Leave? && pc.lat != ClearBit(v)) || (pc.Forget? && !(pc.todo != {} && pick == v))
    ensures HasTxn(DoGo(s, t, pick), t) && v in BitHeld(DoGo(s, t, pick).txns[t])
  {
  }

  lemma WorkHeld(s: State, t: Tid, w: WorkAt, pick: nat)
    requires HasTxn(s, t) && s.txns[t].pc == Work(w) && CanWork(s, w)
    ensures HasTxn(DoWork(s, t, w, pick), t)
    ensures var T, T' := s.txns[t], DoWork(s, t, w, pick).txns[t];
      BitHeld(T) <= BitHeld(T') && (w.Enlist? ==> w.v in BitHeld(T')) && (T'.pc.Work? || T'.pc.Doomed?)
  {
  }

  lemma StepBit(s: State, step: Step, v: Vid, b: Slot)
    requires Shapes(s) && Chains(s) && BitsReal(s) && Enabled(s, step) && !step.Begin? && HasVer(s, v)
    ensures HasVer(Apply(s, step), v) && BitOk(Apply(s, step), v, b)
  {
    hide Shapes, Chains;
    var s', t, T := Apply(s, step), step.t, s.txns[step.t];
    StepGuar(s, step);
    XidsStep(s, step);
    ReadersStep(s, step, v);
    if b in s'.vers[v].readers {
      if step.Go? && T.pc == Work(Enlist(v)) && b == T.slot {
        EnlistBit(s, t, v, step.pick);
      } else {
        assert BitOk(s, v, b);
        var r := s.xids[b];
        SlotOwner(s, b);
        if r == t { HeldStep(s, step, v); }
        hide Apply;
        if step.Go? && T.pc.Finished? { SlotOwner(s, T.slot); }
      }
    }
  }

  lemma SlotOwner(s: State, b: Slot)
    requires Shapes(s)
    ensures b in s.xids ==> HasTxn(s, s.xids[b]) && LivePc(s.txns[s.xids[b]].pc) && s.txns[s.xids[b]].slot == b
    ensures forall t: Tid :: HasTxn(s, t) && LivePc(s.txns[t].pc) && s.txns[t].slot == b ==>
      b in s.xids && s.xids[b] == t
  {
    GetSlots(s);
  }

  lemma EnlistBit(s: State, t: Tid, v: Vid, pick: nat)
    requires Shapes(s) && HasTxn(s, t) && s.txns[t].pc == Work(Enlist(v)) && CanGo(s, t, pick) && HasVer(s, v)
    ensures var s', b := DoGo(s, t, pick), s.txns[t].slot;
      HasVer(s', v) && !s.cert.MVOCC? && s'.cert == s.cert && b in s'.xids && s'.xids[b] == t && HasTxn(s', t)
      && v in BitHeld(s'.txns[t])
  {
    hide Shapes;
    GetTxn(s, t);
    SlotOwner(s, s.txns[t].slot);
    WorkHeld(s, t, Enlist(v), pick);
  }

  lemma StepBitsReal(s: State, step: Step)
    requires Shapes(s) && Chains(s) && BitsReal(s) && Enabled(s, step)
    ensures BitsReal(Apply(s, step))
  {
    hide Shapes, Chains;
    var s' := Apply(s, step);
    if step.Begin? {
      forall v: Vid, b: Slot | HasVer(s', v) ensures BitOk(s', v, b) { assert BitOk(s, v, b); }
    } else {
      forall v: Vid, b: Slot | HasVer(s', v) ensures BitOk(s', v, b) {
        if HasVer(s, v) { StepBit(s, step, v, b); } else { NewUnread(s, step, v); }
      }
    }
  }

  lemma NewUnread(s: State, step: Step, v: Vid)
    requires Enabled(s, step) && !step.Begin? && !HasVer(s, v) && HasVer(Apply(s, step), v)
    ensures Apply(s, step).vers[v].readers == {} && Apply(s, step).vers[v].xstamp == 0
  {
    if !step.Update? && !step.Insert? {
      Grows(s, step);
      hide Apply;
      assert false;
    }
  }

  // ---------------------------------------------------------------- the scan of a bitmap

  /** r holds a smaller commit stamp than t. */
  predicate Early(s: State, t: Tid, r: Tid) {
    HasTxn(s, t) && HasTxn(s, r) && 0 < s.txns[r].got < s.txns[t].got
  }

  /** Whoever the scan finds with a smaller commit stamp did read the version, even if slots change hands meanwhile;
      and SSI waits only for readers that are not older than its ct3. */
  ghost predicate ScanReal(s: State, t: Tid)
    requires HasTxn(s, t)
  {
    var T := s.txns[t];
    T.pc.Writes? && T.pc.uat.Scan? && HasNext(s, T.pc.uat.u) ==>
      var v := Prev(s, T.pc.uat.u);
      && (forall b :: b in T.pc.uat.bits && b in s.xids && Early(s, t, s.xids[b]) ==> v in s.txns[s.xids[b]].seen)
      && (Peer(T.pc).Some? && Early(s, t, Peer(T.pc).value) ==> v in s.txns[Peer(T.pc).value].seen)
      && (T.pc.uat.at.AwaitReaderFate? && s.cert.SSI? ==> T.ct3 <= T.pc.uat.at.e)
  }

  ghost predicate ScansReal(s: State) { forall t :: 0 <= t < |s.txns| ==> ScanReal(s, t) }

  /** Nobody gets a smaller stamp later. */
  lemma EarlyBefore(s: State, s': State, m: Tid, t: Tid, r: Tid)
    requires Shapes(s) && Guar(s, s', m) && HasTxn(s, t) && s.txns[t].got == s'.txns[t].got && Early(s', t, r)
    ensures Early(s, t, r) && s.txns[r].seen <= s'.txns[r].seen
  {
    hide Shapes;
    StampBounds(s);
  }

  lemma BitIsRead(s: State, v: Vid, b: Slot)
    requires Shapes(s) && BitsReal(s) && HasVer(s, v) && b in s.vers[v].readers
    ensures b in s.xids && HasTxn(s, s.xids[b]) && v in s.txns[s.xids[b]].seen
  {
    hide Shapes;
    assert BitOk(s, v, b);
    GetTxn(s, s.xids[b]);
  }

  lemma OthersScan(s: State, step: Step, t: Tid)
    requires Shapes(s) && Chains(s) && Enabled(s, step) && !step.Begin? && HasTxn(s, t) && step.t != t && ScanReal(s, t)
    ensures HasTxn(Apply(s, step), t) && ScanReal(Apply(s, step), t)
  {
    hide Shapes, Chains;
    var s', T := Apply(s, step), s.txns[t];
    StepGuar(s, step);
    XidsStep(s, step);
    hide Apply;
    if T.pc.Writes? && T.pc.uat.Scan? && HasNext(s', T.pc.uat.u) {
      GetTxn(s, t);
      MadeHas(s, t);
      SamePrev(s, s', step.t, T.pc.uat.u);
      forall r: Tid | Early(s', t, r) ensures Early(s, t, r) && s.txns[r].seen <= s'.txns[r].seen {
        EarlyBefore(s, s', step.t, t, r);
      }
    }
  }

  lemma OwnScan(s: State, t: Tid, pick: nat)
    requires Shapes(s) && BitsReal(s) && CanGo(s, t, pick) && ScanReal(s, t)
    requires s.txns[t].pc.Writes? && s.txns[t].pc.uat.Scan?
    requires ScanOk(s, t, s.txns[t].pc.uat)
    ensures HasTxn(DoGo(s, t, pick), t) && ScanReal(DoGo(s, t, pick), t)
  {
    hide Shapes, BitsReal;
    var T, w := s.txns[t], s.txns[t].pc.uat;
    var v := Prev(s, w.u);
    forall b | b in WordBits(s.vers[v], w.k)
      ensures b in s.xids && HasTxn(s, s.xids[b]) && v in s.txns[s.xids[b]].seen
    {
      BitIsRead(s, v, b);
    }
    ScanTxnReal(s, t, T.pc.todo, w, pick);
    hide ScanTxn;
  }

  lemma ScanTxnReal(s: State, t: Tid, todo: set<Vid>, w: WriteAt, pick: nat)
    requires HasTxn(s, t) && s.txns[t].pc == Writes(todo, w) && w.Scan? && HasNext(s, w.u)
    requires CanScan(s, w.bits, w.at, pick) && ScanReal(s, t)
    requires forall b :: b in WordBits(s.vers[Prev(s, w.u)], w.k) ==>
      b in s.xids && HasTxn(s, s.xids[b]) && Prev(s, w.u) in s.txns[s.xids[b]].seen
    ensures var s' := PutTxn(s, t, ScanTxn(s, t, todo, w, s.vers[Prev(s, w.u)], pick)); ScanReal(s', t)
  {
  }

  /** Any other step leads to no scan, or to the start of one. */
  lemma FreshScan(s: State, step: Step)
    requires Shapes(s) && Chains(s) && Enabled(s, step) && !step.Begin?
    requires !(step.Go? && s.txns[step.t].pc.Writes? && s.txns[step.t].pc.uat.Scan?)
    ensures HasTxn(Apply(s, step), step.t)
    ensures var pc := Apply(s, step).txns[step.t].pc;
      pc.Writes? && pc.uat.Scan? ==> pc.uat.bits == {} && pc.uat.at.Bits?
  {
    hide Shapes, Chains, DoWork, ReadsTxn, DoStamps, DoRevert, DoLeave, RecOk, TargetsFor;
    if step.Go? {
      var t, pc := step.t, s.txns[step.t].pc;
      if pc.Work? { WorkHeld(s, t, pc.wat, step.pick); }
      else if pc.Reads? { ReadsFresh(s, t, pc.todo, pc.rat, step.pick); }
      else if Late(pc) { LateStep(s, t, step.pick); }
    }
  }

  lemma ReadsFresh(s: State, t: Tid, todo: set<Vid>, r: ReadAt, pick: nat)
    requires HasTxn(s, t) && s.txns[t].pc == Reads(todo, r) && CanReads(s, todo, r, pick)
    ensures ReadsTxn(s, t, todo, r, pick).pc.Writes? ==> ReadsTxn(s, t, todo, r, pick).pc.uat.Next?
  {
  }

  lemma StepScans(s: State, step: Step)
    requires Inv(s) && BitsReal(s) && ScansReal(s) && Enabled(s, step)
    ensures ScansReal(Apply(s, step))
  {
    hide Shapes, Chains, BitSide, ReadSide, WriteSide, Facts, PivotSide, Roots, S2Side, Waits, ClaimSide, BitsReal;
    var s' := Apply(s, step);
    if step.Begin? {
      BeginScans(s, step.slot);
    } else {
      StepGuar(s, step);
      forall t | 0 <= t < |s'.txns| ensures ScanReal(s', t) {
        assert ScanReal(s, t);
        if t != step.t { OthersScan(s, step, t); }
        else if step.Go? && s.txns[t].pc.Writes? && s.txns[t].pc.uat.Scan? {
          GetWrites(s, t);
          StatesAre(s, t);
          OwnScan(s, t, step.pick);
        } else {
          FreshScan(s, step);
        }
      }
    }
  }

  lemma BeginScans(s: State, slot: Slot)
    requires Shapes(s) && ScansReal(s) && slot !in s.xids
    ensures ScansReal(DoBegin(s, slot))
  {
    var s' := DoBegin(s, slot);
    forall t | 0 <= t < |s'.txns| ensures ScanReal(s', t) {
      if t < |s.txns| {
        assert ScanReal(s, t);
        GetTxn(s, t);
        if Peer(s.txns[t].pc).Some? { assert HasTxn(s, Peer(s.txns[t].pc).value); }
        forall b | b in s'.xids && b != slot ensures HasTxn(s, s'.xids[b]) { SlotOwner(s, b); }
      }
    }
  }

  // ---------------------------------------------------------------- access stamps

  /** x committed with v's xstamp, and created or read v. */
  predicate XFor(s: State, v: Vid, x: Tid) {
    && HasVer(s, v) && HasTxn(s, x) && Decided(s.txns[x]) && s.txns[x].got == s.vers[v].xstamp
    && (s.vers[v].creator == x || v in s.txns[x].seen)
  }

  ghost predicate XOf(s: State, v: Vid)
    requires HasVer(s, v)
  {
    s.vers[v].xstamp != 0 ==> exists x: Tid :: XFor(s, v, x)
  }

  ghost predicate XReal(s: State) { forall v :: 0 <= v < |s.vers| ==> XOf(s, v) }

  lemma XStep(s: State, step: Step, v: Vid)
    requires Enabled(s, step) && !step.Begin? && HasVer(s, v)
    ensures var s', T := Apply(s, step), s.txns[step.t];
      && HasVer(s', v)
      && (s'.vers[v].xstamp == s.vers[v].xstamp
          || (s'.vers[v].xstamp == T.got && step.Go?
              && ((T.pc.Stamps? && T.pc.sat == StampX(v)) || (T.pc.Leave? && T.pc.lat == SetX(v)))))
  {
    hide ReadsTxn, WritesTxn, SsnRead, SsiRead, InstalledTxn, ClaimTxn;
  }

  lemma KeepX(s: State, s': State, m: Tid, v: Vid, x: Tid)
    requires Guar(s, s', m) && XFor(s, v, x) && s'.vers[v].xstamp == s.vers[v].xstamp
    ensures XFor(s', v, x)
  {
    assert VerGuar(s, s', m, v);
  }

  lemma StepX(s: State, step: Step)
    requires Shapes(s) && Chains(s) && XReal(s) && Enabled(s, step)
    ensures XReal(Apply(s, step))
  {
    hide Shapes, Chains;
    var s' := Apply(s, step);
    if step.Begin? {
      forall v | 0 <= v < |s'.vers| ensures XOf(s', v) {
        assert XOf(s, v);
        if s.vers[v].xstamp != 0 { var x: Tid :| XFor(s, v, x); assert XFor(s', v, x); }
      }
    } else {
      StepGuar(s, step);
      forall v | 0 <= v < |s'.vers| ensures XOf(s', v) {
        if HasVer(s, v) { OneX(s, step, v); } else { NewUnread(s, step, v); }
      }
    }
  }

  lemma OneX(s: State, step: Step, v: Vid)
    requires Shapes(s) && Chains(s) && XReal(s) && Enabled(s, step) && !step.Begin? && HasVer(s, v)
    ensures HasVer(Apply(s, step), v) && XOf(Apply(s, step), v)
  {
    hide Shapes, Chains;
    var s', t := Apply(s, step), step.t;
    StepGuar(s, step);
    XStep(s, step, v);
    hide Apply;
    assert XOf(s, v);
    if s'.vers[v].xstamp == s.vers[v].xstamp {
      if s.vers[v].xstamp != 0 { var x: Tid :| XFor(s, v, x); KeepX(s, s', t, v, x); }
    } else {
      GetTxn(s, t);
      MadeHas(s, t);
      assert VerGuar(s, s', t, v);
      assert XFor(s', v, t);
    }
  }
}
