/** What a step of one transaction may do to the rest of the engine. */
module EngineGuar {
  import opened Options
  import opened Engine
  import opened EngineInv
  import opened EngineShapes

  /** What others may rely on about the transaction that moves. */
  predicate TxnGuar(clock: nat, T: Txn, T': Txn) {
    && T'.slot == T.slot && T'.begin == T.begin
    && (T'.got == T.got || (T.got == 0 && T'.got > clock + 1))
    && T.seen <= T'.seen && T.rset <= T'.rset && T.wset <= T'.wset
    && (T'.seen != T.seen || T'.rset != T.rset || T'.wset != T.wset ==> T.st.Active? && T'.got == 0)
    && (T.st.Abrtd? ==> T'.st.Abrtd?)
    && (T.st.Cmmtd? ==> T'.st.Cmmtd?)
    && (Decided(T) ==> Decided(T') && !T'.st.Abrtd? && T'.sstamp == T.sstamp && T'.ct3 == T.ct3 && T'.torn == T.torn)
    && (T.torn ==> T'.torn)
    && (T.end != 0 ==> T'.end == T.end)
    && (T.pc.Freed? ==> T'.pc.Freed?)
    && (T'.st.Active? ==> T.st.Active? && T'.got == 0)
    && (T.st.Active? ==> T'.got == T.got)
    && (Decided(T') ==> T'.got == T.got != 0 && !T'.st.Abrtd?)
  }

  /** The program points that clear a reader bit. */
  predicate BitMove(pc: Pc) { pc.Forget? || (pc.Leave? && pc.lat.ClearBit?) }

  /** What others may rely on about any version when transaction t moves. */
  ghost predicate VerGuar(s: State, s': State, t: Tid, v: Vid)
    requires HasVer(s, v) && HasVer(s', v) && HasTxn(s, t) && HasTxn(s', t)
  {
    var V, V', T, T' := s.vers[v], s'.vers[v], s.txns[t], s'.txns[t];
    && V'.creator == V.creator && V'.rec == V.rec && V'.depth == V.depth && V'.next == V.next
    && (V.clsn.Stamped? ==> V'.clsn == V.clsn && V'.xstamp >= V.xstamp)
    && (V.readers <= V'.readers || (BitMove(T.pc) && V.readers - {T.slot} <= V'.readers))
    && (V'.over != V.over ==>
          if V.over.None? then V'.over == Some(|s.vers|) && T'.st.Active?
          else V'.over.None? && HasVer(s, V.over.value) && s.vers[V.over.value].creator == t
               && (V.over.value in T.wset ==> T'.st.Abrtd?))
    && (V'.s2 != V.s2 ==> OverBy(s, v) == Some(t) && Decided(T))
  }

  ghost predicate Guar(s: State, s': State, t: Tid) {
    && HasTxn(s, t) && |s'.txns| == |s.txns| && |s.vers| <= |s'.vers| <= |s.vers| + 1
    && s'.cert == s.cert && s'.words == s.words && s.clock <= s'.clock
    && (forall x :: 0 <= x < |s.txns| && x != t ==> s'.txns[x] == s.txns[x])
    && TxnGuar(s.clock, s.txns[t], s'.txns[t])
    && (forall v :: 0 <= v < |s.vers| ==> VerGuar(s, s', t, v))
    && (|s'.vers| > |s.vers| ==>
          s'.txns[t].st.Active? && s'.vers[|s.vers|].creator == t && s'.vers[|s.vers|].over.None?)
  }

  lemma TxnOnly(s: State, t: Tid, T': Txn)
    requires HasTxn(s, t) && TxnGuar(s.clock, s.txns[t], T')
    ensures Guar(s, PutTxn(s, t, T'), t)
  {
  }

  lemma TxnAndVer(s: State, t: Tid, T': Txn, v: Vid, V': Version)
    requires HasTxn(s, t) && TxnGuar(s.clock, s.txns[t], T') && HasVer(s, v)
    requires VerGuar(s, PutVer(PutTxn(s, t, T'), v, V'), t, v)
    ensures Guar(s, PutVer(PutTxn(s, t, T'), v, V'), t)
  {
  }

  lemma ReadsGuar(s: State, t: Tid, todo: set<Vid>, r: ReadAt, pick: nat)
    requires Shapes(s) && Chains(s) && HasTxn(s, t) && s.txns[t].pc == Reads(todo, r) && CanReads(s, todo, r, pick)
    ensures Guar(s, PutTxn(s, t, ReadsTxn(s, t, todo, r, pick)), t)
  {
    hide Shapes, Chains, TargetsFor, Guar, RecOk;
    StatesAre(s, t);
    ReadsTargets(s, t, todo, r, pick);
    TornGrows(s, t, todo, r, pick);
    hide ReadsTxn;
    TxnOnly(s, t, ReadsTxn(s, t, todo, r, pick));
  }

  lemma TornGrows(s: State, t: Tid, todo: set<Vid>, r: ReadAt, pick: nat)
    requires HasTxn(s, t) && CanReads(s, todo, r, pick)
    ensures (s.txns[t].torn ==> ReadsTxn(s, t, todo, r, pick).torn)
    ensures ReadsTxn(s, t, todo, r, pick).pstamp == s.txns[t].pstamp
  {
  }

  lemma WritesGuar(s: State, t: Tid, todo: set<Vid>, w: WriteAt, pick: nat)
    requires Shapes(s) && HasTxn(s, t) && s.txns[t].pc == Writes(todo, w) && CanWrites(s, todo, w, pick)
    ensures Guar(s, PutTxn(s, t, WritesTxn(s, t, todo, w, pick)), t)
  {
    hide Shapes, WritesTxn, Guar, RecOk;
    StatesAre(s, t);
    WritesForm(s, t, todo, w, pick);
    TxnOnly(s, t, WritesTxn(s, t, todo, w, pick));
  }

  /** A version the transaction stamps or reverts is still linked on top of its predecessor. */
  lemma StillOnTop(s: State, t: Tid, u: Vid)
    requires Shapes(s) && Chains(s) && HasTxn(s, t) && u in Made(s.txns[t]) && Holds(s.txns[t], u) && HasNext(s, u)
    ensures s.vers[Prev(s, u)].over == Some(u) && s.vers[u].creator == t
  {
    assert TxnOk(s, t);
    assert TopOk(s, u);
  }

  lemma StampsGuar(s: State, t: Tid, todo: set<Vid>, a: StampAt, pick: nat)
    requires Shapes(s) && Chains(s) && HasTxn(s, t) && s.txns[t].pc == Stamps(todo, a) && CanStamps(s, todo, a, pick)
    ensures Guar(s, DoStamps(s, t, todo, a, pick), t)
  {
    hide Shapes, Chains, Guar;
    StatesAre(s, t);
    OwnTodo(s, t);
    var T, T' := s.txns[t], DoStamps(s, t, todo, a, pick).txns[t];
    assert TxnGuar(s.clock, T, T');
    hide TxnGuar;
    match a
    case Next => TxnOnly(s, t, T');
    case StampSucc(u) =>
      TxnAndVer(s, t, T', Prev(s, u), s.vers[Prev(s, u)].(sstamp := ByLog(Legacy(s.cert, T))));
    case StampS2(u) =>
      StillOnTop(s, t, u);
      TxnAndVer(s, t, T', Prev(s, u), s.vers[Prev(s, u)].(s2 := T.ct3));
    case StampX(u) =>
      StampedOnce(s, t, u);
      TxnAndVer(s, t, T', u, s.vers[u].(xstamp := T.got));
    case StampClsn(u) =>
      StampedOnce(s, t, u);
      TxnAndVer(s, t, T', u, s.vers[u].(clsn := Stamped(T.got)));
  }

  lemma LeaveGuar(s: State, t: Tid, todo: set<Vid>, l: LeaveAt, pick: nat)
    requires Shapes(s) && HasTxn(s, t) && s.txns[t].pc == Leave(todo, l) && CanLeave(s, todo, l, pick)
    ensures Guar(s, DoLeave(s, t, todo, l, pick), t)
  {
    hide Shapes, Guar;
    StatesAre(s, t);
    var T, T' := s.txns[t], DoLeave(s, t, todo, l, pick).txns[t];
    assert TxnGuar(s.clock, T, T');
    hide TxnGuar;
    match l
    case SetX(v) => TxnAndVer(s, t, T', v, s.vers[v].(xstamp := Max(s.vers[v].xstamp, T.got)));
    case ClearBit(v) => TxnAndVer(s, t, T', v, s.vers[v].(readers := s.vers[v].readers - {T.slot}));
    case _ => TxnOnly(s, t, T');
  }

  lemma ForgetGuar(s: State, t: Tid, todo: set<Vid>, pick: nat)
    requires Shapes(s) && HasTxn(s, t) && s.txns[t].pc == Forget(todo) && CanForget(s, todo, pick)
    ensures Guar(s, DoForget(s, t, todo, pick), t)
  {
    hide Shapes, Guar;
    StatesAre(s, t);
    var T, T' := s.txns[t], DoForget(s, t, todo, pick).txns[t];
    if todo == {} { TxnOnly(s, t, T'); }
    else { TxnAndVer(s, t, T', pick, s.vers[pick].(readers := s.vers[pick].readers - {T.slot})); }
  }

  lemma RevertGuar(s: State, t: Tid, todo: set<Vid>, a: RevertAt, pick: nat)
    requires Shapes(s) && Chains(s) && HasTxn(s, t) && s.txns[t].pc == Revert(todo, a) && CanRevert(s, todo, a, pick)
    ensures Guar(s, DoRevert(s, t, todo, a, pick), t)
  {
    hide Shapes, Chains, Guar;
    StatesAre(s, t);
    OwnTodo(s, t);
    var T, T' := s.txns[t], DoRevert(s, t, todo, a, pick).txns[t];
    assert TxnGuar(s.clock, T, T');
    match a
    case Next => TxnOnly(s, t, T');
    case Unmark(u) => TxnAndVer(s, t, T', Prev(s, u), s.vers[Prev(s, u)].(sstamp := NoSucc));
    case Unlink(u) =>
      StillOnTop(s, t, u);
      TxnAndVer(s, t, T', Prev(s, u), s.vers[Prev(s, u)].(over := None));
    case Kill(u) =>
      StampedOnce(s, t, u);
      TxnAndVer(s, t, T', u, s.vers[u].(clsn := Dead));
  }

  lemma WorkGuar(s: State, t: Tid, w: WorkAt, pick: nat)
    requires Shapes(s) && Chains(s) && HasTxn(s, t) && s.txns[t].pc == Work(w) && CanWork(s, w)
    ensures Guar(s, DoWork(s, t, w, pick), t)
  {
    hide Shapes, Chains, Guar;
    StatesAre(s, t);
    OwnTodo(s, t);
    var T, T' := s.txns[t], DoWork(s, t, w, pick).txns[t];
    assert TxnGuar(s.clock, T, T');
    hide TxnGuar;
    match w
    case Enlist(v) => TxnAndVer(s, t, T', v, s.vers[v].(readers := s.vers[v].readers + {T.slot}));
    case Marking(u) => TxnAndVer(s, t, T', Prev(s, u), s.vers[Prev(s, u)].(sstamp := ByXid(t)));
    case Undo(u) =>
      StillOnTop(s, t, u);
      TxnAndVer(s, t, T', Prev(s, u), s.vers[Prev(s, u)].(over := None));
    case UndoKill(u) =>
      StampedOnce(s, t, u);
      TxnAndVer(s, t, T', u, s.vers[u].(clsn := Dead));
    case _ => TxnOnly(s, t, T');
  }

  /** Between the phases, and at the end. */
  lemma TurnGuar(s: State, t: Tid)
    requires Shapes(s) && HasTxn(s, t)
    ensures s.txns[t].pc.Obtained? ==> Guar(s, PutTxn(s, t, PublishTxn(s.cert, s.txns[t])), t)
    ensures s.txns[t].pc.Deciding? ==>
      Guar(s, PutTxn(s, t, Settle(s.cert, s.txns[t], Stamps(s.txns[t].wset, StampAt.Next))), t)
    ensures s.txns[t].pc.Announce? ==> Guar(s, PutTxn(s, t, AnnounceTxn(s.cert, s.txns[t])), t)
    ensures MayFail(s.txns[t].pc) ==> Guar(s, PutTxn(s, t, s.txns[t].(pc := Doomed)), t)
    ensures s.txns[t].pc.Retired? ==> Guar(s, PutTxn(s, t, s.txns[t].(pc := Freed)), t)
    ensures IsIdle(s, t) ==> Guar(s, PutTxn(s, t, s.txns[t].(st := Committing, pc := Entered)), t)
    ensures IsIdle(s, t) || s.txns[t].pc.Doomed? ==> Guar(s, PutTxn(s, t, AbortTxn(s.cert, s.txns[t])), t)
  {
    hide Shapes, Guar;
    StatesAre(s, t);
    var T := s.txns[t];
    if T.pc.Obtained? { TxnOnly(s, t, PublishTxn(s.cert, T)); }
    if T.pc.Deciding? { TxnOnly(s, t, Settle(s.cert, T, Stamps(T.wset, StampAt.Next))); }
    if T.pc.Announce? { TxnOnly(s, t, AnnounceTxn(s.cert, T)); }
    if MayFail(T.pc) { TxnOnly(s, t, T.(pc := Doomed)); }
    if T.pc.Retired? { TxnOnly(s, t, T.(pc := Freed)); }
    if IsIdle(s, t) { TxnOnly(s, t, T.(st := Committing, pc := Entered)); }
    if IsIdle(s, t) || T.pc.Doomed? { TxnOnly(s, t, AbortTxn(s.cert, T)); }
  }

  lemma ClientGuar(s: State, t: Tid)
    requires Shapes(s) && HasTxn(s, t)
    ensures forall v :: CanRead(s, t, v) ==> Guar(s, DoRead(s, t, v), t)
    ensures forall v :: CanClaim(s, t, v) ==> Guar(s, PutTxn(s, t, s.txns[t].(pc := Work(WorkAt.Claim(v)))), t)
    ensures forall v :: CanUpdate(s, t, v) ==> Guar(s, DoUpdate(s, t, v), t)
    ensures forall rec :: CanInsert(s, t, rec) ==> Guar(s, DoInsert(s, t, rec), t)
  {
    hide Shapes;
    StatesAre(s, t);
  }

  lemma ClockGuar(s: State, t: Tid)
    requires Shapes(s) && HasTxn(s, t)
    ensures s.txns[t].pc.Finished? ==>
      Guar(s, PutTxn(s, t, s.txns[t].(pc := Retired)).(xids := s.xids - {s.txns[t].slot}), t)
    ensures s.txns[t].pc.Entered? ==> forall d :: d >= 2 ==> Guar(s, Apply(s, Obtain(t, d)), t)
  {
    hide Shapes;
    StatesAre(s, t);
  }

  /** After pre-commit only the program counter moves. */
  lemma StampsPc(s: State, t: Tid, todo: set<Vid>, a: StampAt, pick: nat)
    requires HasTxn(s, t) && s.txns[t].pc == Stamps(todo, a) && CanStamps(s, todo, a, pick)
    ensures HasTxn(DoStamps(s, t, todo, a, pick), t)
    ensures var T, T' := s.txns[t], DoStamps(s, t, todo, a, pick).txns[t];
      T' == T.(pc := T'.pc) && (T'.pc.Stamps? || T'.pc.Announce?)
  {
  }

  lemma LeavePc(s: State, t: Tid, todo: set<Vid>, l: LeaveAt, pick: nat)
    requires HasTxn(s, t) && s.txns[t].pc == Leave(todo, l) && CanLeave(s, todo, l, pick)
    ensures HasTxn(DoLeave(s, t, todo, l, pick), t)
    ensures var T, T' := s.txns[t], DoLeave(s, t, todo, l, pick).txns[t];
      T' == T.(pc := T'.pc) && (T'.pc.Leave? || T'.pc.Finished?)
  {
  }

  lemma RevertPc(s: State, t: Tid, todo: set<Vid>, a: RevertAt, pick: nat)
    requires HasTxn(s, t) && s.txns[t].pc == Revert(todo, a) && CanRevert(s, todo, a, pick)
    ensures HasTxn(DoRevert(s, t, todo, a, pick), t)
    ensures var T, T' := s.txns[t], DoRevert(s, t, todo, a, pick).txns[t];
      T' == T.(pc := T'.pc) && (T'.pc.Revert? || T'.pc.Finished?)
  {
  }

  /** Committed or aborted for good. */
  predicate Late(pc: Pc) {
    pc.Stamps? || pc.Announce? || pc.Leave? || pc.Forget? || pc.Revert? || pc.Finished? || pc.Retired?
  }

  lemma LateStep(s: State, t: Tid, pick: nat)
    requires CanGo(s, t, pick) && Late(s.txns[t].pc)
    ensures var T, T' := s.txns[t], DoGo(s, t, pick).txns[t];
      && T' == T.(pc := T'.pc, st := T'.st) && (Late(T'.pc) || T'.pc.Freed?)
      && T'.st == (if T.pc.Announce? then Cmmtd else T.st)
      && (Decided(T) && StateOk(T) ==> T'.pc.Stamps? || T'.pc.Announce? || T'.pc.Leave? || DonePc(T'.pc))
    ensures HasTxn(DoGo(s, t, pick), t)
  {
    hide DoStamps, DoLeave, DoRevert;
    var pc := s.txns[t].pc;
    if pc.Stamps? { StampsPc(s, t, pc.todo, pc.sat, pick); }
    else if pc.Leave? { LeavePc(s, t, pc.todo, pc.lat, pick); }
    else if pc.Revert? { RevertPc(s, t, pc.todo, pc.bat, pick); }
  }

  lemma GoGuar(s: State, t: Tid, pick: nat)
    requires Shapes(s) && Chains(s) && CanGo(s, t, pick)
    ensures Guar(s, DoGo(s, t, pick), t)
  {
    hide Shapes, Chains, Guar;
    match s.txns[t].pc
    case Work(w) => WorkGuar(s, t, w, pick);
    case Reads(todo, r) => ReadsGuar(s, t, todo, r, pick);
    case Writes(todo, w) => WritesGuar(s, t, todo, w, pick);
    case Stamps(todo, a) => StampsGuar(s, t, todo, a, pick);
    case Leave(todo, l) => LeaveGuar(s, t, todo, l, pick);
    case Forget(todo) => ForgetGuar(s, t, todo, pick);
    case Revert(todo, a) => RevertGuar(s, t, todo, a, pick);
    case Finished => ClockGuar(s, t);
    case _ => TurnGuar(s, t);
  }

  /** Every step of transaction t keeps to the guarantee. */
  lemma StepGuar(s: State, step: Step)
    requires Shapes(s) && Chains(s) && Enabled(s, step) && !step.Begin?
    ensures Guar(s, Apply(s, step), step.t)
  {
    hide Shapes, Chains, Guar;
    match step
    case Read(t, v) => ClientGuar(s, t);
    case Claim(t, v) => ClientGuar(s, t);
    case Update(t, v) => ClientGuar(s, t);
    case Insert(t, rec) => ClientGuar(s, t);
    case Commit(t) => TurnGuar(s, t);
    case Abort(t) => TurnGuar(s, t);
    case Obtain(t, d) => ClockGuar(s, t);
    case Fail(t) => TurnGuar(s, t);
    case Go(t, pick) => GoGuar(s, t, pick);
  }

  /** What was overwritten stays overwritten, and was stamped. */
  lemma SamePrev(s: State, s': State, m: Tid, u: Vid)
    requires Chains(s) && Guar(s, s', m) && HasNext(s', u) && HasVer(s, u)
    ensures HasNext(s, u) && Prev(s', u) == Prev(s, u) && s.vers[Prev(s, u)].clsn.Stamped?
    ensures s'.vers[Prev(s, u)].clsn == s.vers[Prev(s, u)].clsn
  {
    hide Chains;
    GetVer(s, u);
    assert VerGuar(s, s', m, u);
    assert VerGuar(s, s', m, Prev(s, u));
  }
}
