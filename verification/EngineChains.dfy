/** Every step keeps the version chains and the successor fields consistent. */
module EngineChains {
  import opened Options
  import opened Engine
  import opened EngineInv
  import opened EngineShapes

  // ---------------------------------------------------------------- framing

  /** T and T' stand in the same relation to version u. */
  predicate SameView(T: Txn, T': Txn, u: Vid) {
    && InUpdate(T, u) == InUpdate(T', u)
    && Unlinking(T, u) == Unlinking(T', u)
    && (u in SuccPending(T) <==> u in SuccPending(T'))
    && (u in ClsnPending(T) <==> u in ClsnPending(T'))
    && (u in T.wset <==> u in T'.wset)
    && (T'.pc.Stamps? && T'.pc.sat == StampClsn(u) ==> T.pc.Stamps? && T.pc.sat == StampClsn(u))
  }

  predicate SameFate(T: Txn, T': Txn) {
    && Decided(T) == Decided(T')
    && (Decided(T) ==> T'.got == T.got && T'.sstamp == T.sstamp)
  }

  lemma TxnChains(s: State, t: Tid, T': Txn)
    requires Chains(s) && HasTxn(s, t) && SameFate(s.txns[t], T')
    requires forall u :: SameView(s.txns[t], T', u)
    ensures Chains(PutTxn(s, t, T'))
  {
    hide Chains;
    var s' := PutTxn(s, t, T');
    forall v | 0 <= v < |s.vers| ensures LinkOk(s', v) && TopOk(s', v) && CreationOk(s', v) {
      GetVer(s, v);
      assert SameView(s.txns[t], T', v);
      if s.vers[v].over.Some? { assert SameView(s.txns[t], T', s.vers[v].over.value); }
    }
    AllChains(s');
  }

  lemma AllChains(s: State)
    requires forall v :: 0 <= v < |s.vers| ==> LinkOk(s, v) && TopOk(s, v) && CreationOk(s, v)
    ensures Chains(s)
  {
  }

  /** Stamps, s2 and reader bits play no part in the chains, as long as xstamp only grows. */
  predicate SameLinks(V: Version, V': Version) {
    V' == V.(xstamp := V'.xstamp, s2 := V'.s2, readers := V'.readers) && V'.xstamp >= V.xstamp
  }

  lemma VerChains(s: State, v: Vid, V': Version)
    requires Chains(s) && HasVer(s, v) && SameLinks(s.vers[v], V')
    ensures Chains(PutVer(s, v, V'))
  {
    hide Chains;
    var s' := PutVer(s, v, V');
    forall w | 0 <= w < |s.vers| ensures LinkOk(s', w) && TopOk(s', w) && CreationOk(s', w) {
      GetVer(s, w);
    }
    AllChains(s');
  }

  /** Transaction t acts on its version u; version y (u itself or the one below) becomes Y', which agrees with
      where t then is. */
  ghost predicate Focus(s: State, t: Tid, T': Txn, u: Vid, y: Vid, Y': Version) {
    && HasTxn(s, t) && SameFate(s.txns[t], T') && (forall w :: w != u ==> SameView(s.txns[t], T', w))
    && HasVer(s, u) && HasVer(s, y) && (y == u || s.vers[u].next == Some(y))
    && FocusVer(s.vers[y], Y', y == u, u)
    && var s' := PutVer(PutTxn(s, t, T'), y, Y');
       && TopOk(s', u) && CreationOk(s', u)
       && (s.vers[u].next.Some? ==> HasVer(s, s.vers[u].next.value) && LinkOk(s', s.vers[u].next.value))
  }

  predicate FocusVer(Y: Version, Y': Version, own: bool, u: Vid) {
    && Y'.creator == Y.creator && Y'.next == Y.next && Y'.rec == Y.rec && Y'.depth == Y.depth
    && (Y.clsn.Stamped? ==> Y'.clsn == Y.clsn)
    && (!own ==> Y'.clsn == Y.clsn && Y'.xstamp >= Y.xstamp && (Y'.over != Y.over ==> Y.over == Some(u)))
    && (own ==> Y'.over == Y.over && Y'.sstamp == Y.sstamp)
  }

  lemma FocusChains(s: State, t: Tid, T': Txn, u: Vid, y: Vid, Y': Version)
    requires Chains(s) && Focus(s, t, T', u, y, Y')
    ensures Chains(PutVer(PutTxn(s, t, T'), y, Y'))
  {
    hide Chains;
    var s' := PutVer(PutTxn(s, t, T'), y, Y');
    forall w | 0 <= w < |s.vers| ensures LinkOk(s', w) && TopOk(s', w) && CreationOk(s', w) {
      FocusLink(s, t, T', u, y, Y', w);
      FocusTop(s, t, T', u, y, Y', w);
    }
    AllChains(s');
  }

  lemma FocusLink(s: State, t: Tid, T': Txn, u: Vid, y: Vid, Y': Version, w: Vid)
    requires Chains(s) && HasVer(s, w) && Focus(s, t, T', u, y, Y')
    ensures LinkOk(PutVer(PutTxn(s, t, T'), y, Y'), w)
  {
    hide Chains, TopOk, CreationOk;
    GetVer(s, w);
    GetVer(s, y);
    if s.vers[w].over.Some? && s.vers[w].over.value != u { assert SameView(s.txns[t], T', s.vers[w].over.value); }
  }

  lemma FocusTop(s: State, t: Tid, T': Txn, u: Vid, y: Vid, Y': Version, w: Vid)
    requires Chains(s) && HasVer(s, w) && Focus(s, t, T', u, y, Y')
    ensures TopOk(PutVer(PutTxn(s, t, T'), y, Y'), w) && CreationOk(PutVer(PutTxn(s, t, T'), y, Y'), w)
  {
    hide Chains, LinkOk;
    GetVer(s, w);
    GetVer(s, y);
    assert w != u ==> SameView(s.txns[t], T', w);
  }

  // ---------------------------------------------------------------- transactions moving by themselves

  /** Not stamping, reverting or in the middle of an update. */
  predicate Plain(T: Txn) {
    && !Decided(T) && !T.pc.Stamps? && !T.pc.Announce? && !T.pc.Leave? && !T.pc.Revert? && !DonePc(T.pc)
    && (T.pc.Work? ==> WorkFocus(T.pc.wat) == {})
  }

  lemma PlainChains(s: State, t: Tid, T': Txn)
    requires Chains(s) && HasTxn(s, t) && Plain(s.txns[t]) && Plain(T') && T'.wset == s.txns[t].wset
    ensures Chains(PutTxn(s, t, T'))
  {
    hide Chains;
    var T := s.txns[t];
    forall u ensures SameView(T, T', u) { }
    TxnChains(s, t, T');
  }

  lemma ReadsChains(s: State, t: Tid, todo: set<Vid>, r: ReadAt, pick: nat)
    requires Shapes(s) && Chains(s) && HasTxn(s, t) && s.txns[t].pc == Reads(todo, r) && CanReads(s, todo, r, pick)
    ensures Chains(PutTxn(s, t, ReadsTxn(s, t, todo, r, pick)))
  {
    hide Chains, Shapes, ReadsTxn, TargetsFor, RecOk, SetsOk, TargetsOk;
    StatesAre(s, t);
    ReadsTargets(s, t, todo, r, pick);
    PlainChains(s, t, ReadsTxn(s, t, todo, r, pick));
  }

  lemma WritesChains(s: State, t: Tid, todo: set<Vid>, w: WriteAt, pick: nat)
    requires Shapes(s) && Chains(s) && HasTxn(s, t) && s.txns[t].pc == Writes(todo, w) && CanWrites(s, todo, w, pick)
    ensures Chains(PutTxn(s, t, WritesTxn(s, t, todo, w, pick)))
  {
    hide Chains, Shapes, WritesTxn, RecOk;
    StatesAre(s, t);
    WritesForm(s, t, todo, w, pick);
    PlainChains(s, t, WritesTxn(s, t, todo, w, pick));
  }

  // ---------------------------------------------------------------- stamping

  /** What a transaction knows about a version it made. */
  lemma OwnVersion(s: State, t: Tid, u: Vid)
    requires Shapes(s) && Chains(s) && HasTxn(s, t) && u in Made(s.txns[t])
    ensures HasVer(s, u) && s.vers[u].creator == t && TopOk(s, u) && CreationOk(s, u)
    ensures s.vers[u].next.Some? ==> HasVer(s, s.vers[u].next.value) && LinkOk(s, s.vers[u].next.value)
  {
    assert TxnOk(s, t);
    assert TopOk(s, u) && CreationOk(s, u);
    if s.vers[u].next.Some? { assert LinkOk(s, s.vers[u].next.value); }
  }

  /** A record of t at the program counter pc, and what it knows of version u there. */
  ghost predicate At(s: State, t: Tid, pc: Pc, u: Vid) {
    && HasTxn(s, t) && s.txns[t].pc == pc && StateOk(s.txns[t]) && PcOk(s.cert, s.words, s.txns[t])
    && HasVer(s, u) && s.vers[u].creator == t && TopOk(s, u) && CreationOk(s, u)
    && (s.vers[u].next.Some? ==> HasVer(s, s.vers[u].next.value) && LinkOk(s, s.vers[u].next.value))
  }

  lemma StandAt(s: State, t: Tid, u: Vid)
    requires Shapes(s) && Chains(s) && HasTxn(s, t) && u in Made(s.txns[t])
    ensures At(s, t, s.txns[t].pc, u)
  {
    assert TxnOk(s, t);
    OwnVersion(s, t, u);
  }

  /** The program counter moved, and no version is seen differently. */
  lemma MoveChains(s: State, t: Tid, pc': Pc)
    requires Chains(s) && HasTxn(s, t)
    requires Decided(s.txns[t]) == Decided(s.txns[t].(pc := pc'))
    requires forall u :: SameView(s.txns[t], s.txns[t].(pc := pc'), u)
    ensures Chains(PutTxn(s, t, s.txns[t].(pc := pc')))
  {
    hide Chains;
    TxnChains(s, t, s.txns[t].(pc := pc'));
  }

  /** An inserted version has no predecessor to stamp or to restore. */
  lemma SkipChains(s: State, t: Tid, pc': Pc, u: Vid)
    requires Chains(s) && HasTxn(s, t) && At(s, t, s.txns[t].pc, u) && s.vers[u].next.None?
    requires Decided(s.txns[t]) == Decided(s.txns[t].(pc := pc'))
    requires forall w :: w != u ==> SameView(s.txns[t], s.txns[t].(pc := pc'), w)
    requires u in ClsnPending(s.txns[t]) && u in ClsnPending(s.txns[t].(pc := pc'))
    requires !(pc'.Stamps? && pc'.sat.StampClsn?)
    ensures Chains(PutTxn(s, t, s.txns[t].(pc := pc')))
  {
    hide Chains;
    var T' := s.txns[t].(pc := pc');
    FocusChains(s, t, T', u, u, s.vers[u]);
    assert PutVer(PutTxn(s, t, T'), u, s.vers[u]) == PutTxn(s, t, T');
  }

  lemma StampNextChains(s: State, t: Tid, todo: set<Vid>, pick: nat)
    requires Shapes(s) && Chains(s) && HasTxn(s, t) && s.txns[t].pc == Stamps(todo, StampAt.Next)
    requires CanStamps(s, todo, StampAt.Next, pick)
    ensures Chains(DoStamps(s, t, todo, StampAt.Next, pick))
  {
    hide Chains, Shapes;
    var T := s.txns[t];
    if todo == {} {
      forall u ensures SameView(T, T.(pc := Announce), u) { }
      MoveChains(s, t, Announce);
    } else {
      OwnTodo(s, t);
      StandAt(s, t, pick);
      if s.vers[pick].next.Some? {
        forall u ensures SameView(T, T.(pc := Stamps(todo - {pick}, StampSucc(pick))), u) { }
        MoveChains(s, t, Stamps(todo - {pick}, StampSucc(pick)));
      } else {
        SkipChains(s, t, Stamps(todo - {pick}, StampX(pick)), pick);
      }
    }
  }

  lemma StampSuccChains(s: State, t: Tid, todo: set<Vid>, u: Vid)
    requires Shapes(s) && Chains(s) && HasTxn(s, t) && s.txns[t].pc == Stamps(todo, StampSucc(u)) && HasNext(s, u)
    ensures Chains(DoStamps(s, t, todo, StampSucc(u), 0))
  {
    hide Chains, Shapes;
    OwnTodo(s, t);
    StandAt(s, t, u);
    var T, v := s.txns[t], Prev(s, u);
    var T' := T.(pc := Stamps(todo, if s.cert.SSI? then StampS2(u) else StampX(u)));
    FocusChains(s, t, T', u, v, s.vers[v].(sstamp := ByLog(Legacy(s.cert, T))));
  }

  lemma StampS2Chains(s: State, t: Tid, todo: set<Vid>, u: Vid)
    requires Chains(s) && HasTxn(s, t) && s.txns[t].pc == Stamps(todo, StampS2(u)) && HasNext(s, u)
    ensures Chains(DoStamps(s, t, todo, StampS2(u), 0))
  {
    hide Chains;
    var T := s.txns[t];
    var T' := T.(pc := Stamps(todo, StampX(u)));
    forall w ensures SameView(T, T', w) { }
    MoveChains(s, t, Stamps(todo, StampX(u)));
    VerChains(PutTxn(s, t, T'), Prev(s, u), s.vers[Prev(s, u)].(s2 := T.ct3));
  }

  lemma StampXChains(s: State, t: Tid, todo: set<Vid>, u: Vid)
    requires Shapes(s) && Chains(s) && HasTxn(s, t) && s.txns[t].pc == Stamps(todo, StampX(u)) && HasVer(s, u)
    ensures Chains(DoStamps(s, t, todo, StampX(u), 0))
  {
    hide Chains, Shapes;
    OwnTodo(s, t);
    StandAt(s, t, u);
    var T := s.txns[t];
    FocusChains(s, t, T.(pc := Stamps(todo, StampClsn(u))), u, u, s.vers[u].(xstamp := T.got));
  }

  lemma StampClsnChains(s: State, t: Tid, todo: set<Vid>, u: Vid)
    requires Shapes(s) && Chains(s) && HasTxn(s, t) && s.txns[t].pc == Stamps(todo, StampClsn(u)) && HasVer(s, u)
    ensures Chains(DoStamps(s, t, todo, StampClsn(u), 0))
  {
    hide Chains, Shapes;
    OwnTodo(s, t);
    StandAt(s, t, u);
    var T := s.txns[t];
    FocusChains(s, t, T.(pc := Stamps(todo, StampAt.Next)), u, u, s.vers[u].(clsn := Stamped(T.got)));
  }

  lemma StampsChains(s: State, t: Tid, todo: set<Vid>, a: StampAt, pick: nat)
    requires Shapes(s) && Chains(s) && HasTxn(s, t) && s.txns[t].pc == Stamps(todo, a) && CanStamps(s, todo, a, pick)
    ensures Chains(DoStamps(s, t, todo, a, pick))
  {
    hide Chains, Shapes;
    match a
    case Next => StampNextChains(s, t, todo, pick);
    case StampSucc(u) => StampSuccChains(s, t, todo, u);
    case StampS2(u) => StampS2Chains(s, t, todo, u);
    case StampX(u) => StampXChains(s, t, todo, u);
    case StampClsn(u) => StampClsnChains(s, t, todo, u);
  }

  // ---------------------------------------------------------------- reverting

  lemma RevertNextChains(s: State, t: Tid, todo: set<Vid>, pick: nat)
    requires Shapes(s) && Chains(s) && HasTxn(s, t) && s.txns[t].pc == Revert(todo, RevertAt.Next)
    requires CanRevert(s, todo, RevertAt.Next, pick)
    ensures Chains(DoRevert(s, t, todo, RevertAt.Next, pick))
  {
    hide Chains, Shapes;
    var T := s.txns[t];
    if todo == {} {
      forall u ensures SameView(T, T.(pc := Finished), u) { }
      MoveChains(s, t, Finished);
    } else {
      OwnTodo(s, t);
      StandAt(s, t, pick);
      if s.vers[pick].next.Some? {
        forall u ensures SameView(T, T.(pc := Revert(todo - {pick}, Unmark(pick))), u) { }
        MoveChains(s, t, Revert(todo - {pick}, Unmark(pick)));
      } else {
        SkipChains(s, t, Revert(todo - {pick}, Kill(pick)), pick);
      }
    }
  }

  lemma UnmarkChains(s: State, t: Tid, todo: set<Vid>, u: Vid)
    requires Shapes(s) && Chains(s) && HasTxn(s, t) && s.txns[t].pc == Revert(todo, Unmark(u)) && HasNext(s, u)
    ensures Chains(DoRevert(s, t, todo, Unmark(u), 0))
  {
    hide Chains, Shapes;
    OwnTodo(s, t);
    StandAt(s, t, u);
    var v := Prev(s, u);
    FocusChains(s, t, s.txns[t].(pc := Revert(todo, Unlink(u))), u, v, s.vers[v].(sstamp := NoSucc));
  }

  lemma UnlinkChains(s: State, t: Tid, todo: set<Vid>, u: Vid)
    requires Shapes(s) && Chains(s) && HasTxn(s, t) && s.txns[t].pc == Revert(todo, Unlink(u)) && HasNext(s, u)
    ensures Chains(DoRevert(s, t, todo, Unlink(u), 0))
  {
    hide Chains, Shapes;
    OwnTodo(s, t);
    StandAt(s, t, u);
    var v := Prev(s, u);
    FocusChains(s, t, s.txns[t].(pc := Revert(todo, Kill(u))), u, v, s.vers[v].(over := None));
  }

  lemma KillChains(s: State, t: Tid, todo: set<Vid>, u: Vid)
    requires Shapes(s) && Chains(s) && HasTxn(s, t) && s.txns[t].pc == Revert(todo, Kill(u)) && HasVer(s, u)
    ensures Chains(DoRevert(s, t, todo, Kill(u), 0))
  {
    hide Chains, Shapes;
    OwnTodo(s, t);
    StandAt(s, t, u);
    FocusChains(s, t, s.txns[t].(pc := Revert(todo, RevertAt.Next)), u, u, s.vers[u].(clsn := Dead));
  }

  lemma RevertChains(s: State, t: Tid, todo: set<Vid>, a: RevertAt, pick: nat)
    requires Shapes(s) && Chains(s) && HasTxn(s, t) && s.txns[t].pc == Revert(todo, a) && CanRevert(s, todo, a, pick)
    ensures Chains(DoRevert(s, t, todo, a, pick))
  {
    hide Chains, Shapes;
    match a
    case Next => RevertNextChains(s, t, todo, pick);
    case Unmark(u) => UnmarkChains(s, t, todo, u);
    case Unlink(u) => UnlinkChains(s, t, todo, u);
    case Kill(u) => KillChains(s, t, todo, u);
  }

  // ---------------------------------------------------------------- leaving

  /** The program counter and one version changed, neither in a way the chains show. */
  lemma QuietChains(s: State, t: Tid, pc': Pc, v: Vid, V': Version)
    requires Chains(s) && HasTxn(s, t) && HasVer(s, v) && SameLinks(s.vers[v], V')
    requires Decided(s.txns[t]) == Decided(s.txns[t].(pc := pc'))
    requires forall u :: SameView(s.txns[t], s.txns[t].(pc := pc'), u)
    ensures Chains(PutVer(PutTxn(s, t, s.txns[t].(pc := pc')), v, V'))
  {
    hide Chains;
    MoveChains(s, t, pc');
    VerChains(PutTxn(s, t, s.txns[t].(pc := pc')), v, V');
  }

  lemma LeaveChains(s: State, t: Tid, todo: set<Vid>, l: LeaveAt, pick: nat)
    requires Shapes(s) && Chains(s) && HasTxn(s, t) && s.txns[t].pc == Leave(todo, l) && CanLeave(s, todo, l, pick)
    ensures Chains(DoLeave(s, t, todo, l, pick))
  {
    hide Chains, Shapes;
    StatesAre(s, t);
    var T := s.txns[t];
    var s' := DoLeave(s, t, todo, l, pick);
    var pc' := s'.txns[t].pc;
    assert s'.txns[t] == T.(pc := pc') && (pc'.Leave? || pc'.Finished?);
    forall u ensures SameView(T, T.(pc := pc'), u) { }
    match l
    case SetX(v) => QuietChains(s, t, pc', v, s.vers[v].(xstamp := Max(s.vers[v].xstamp, T.got)));
    case ClearBit(v) => QuietChains(s, t, pc', v, s.vers[v].(readers := s.vers[v].readers - {T.slot}));
    case _ => MoveChains(s, t, pc');
  }

  lemma ForgetChains(s: State, t: Tid, todo: set<Vid>, pick: nat)
    requires Shapes(s) && Chains(s) && HasTxn(s, t) && s.txns[t].pc == Forget(todo) && CanForget(s, todo, pick)
    ensures Chains(DoForget(s, t, todo, pick))
  {
    hide Chains, Shapes;
    StatesAre(s, t);
    var T := s.txns[t];
    if todo == {} {
      forall u ensures SameView(T, T.(pc := Revert(T.wset, RevertAt.Next)), u) { }
      MoveChains(s, t, Revert(T.wset, RevertAt.Next));
    } else {
      forall u ensures SameView(T, T.(pc := Forget(todo - {pick})), u) { }
      QuietChains(s, t, Forget(todo - {pick}), pick, s.vers[pick].(readers := s.vers[pick].readers - {T.slot}));
    }
  }

  // ---------------------------------------------------------------- working

  lemma MarkingChains(s: State, t: Tid, u: Vid)
    requires Shapes(s) && Chains(s) && HasTxn(s, t) && s.txns[t].pc == Work(Marking(u)) && HasNext(s, u)
    ensures Chains(DoWork(s, t, Marking(u), 0))
  {
    hide Chains, Shapes;
    OwnTodo(s, t);
    StandAt(s, t, u);
    var T, v := s.txns[t], Prev(s, u);
    FocusChains(s, t, T.(wset := T.wset + {u}, pc := Work(Idle)), u, v, s.vers[v].(sstamp := ByXid(t)));
  }

  lemma UndoChains(s: State, t: Tid, u: Vid)
    requires Shapes(s) && Chains(s) && HasTxn(s, t) && s.txns[t].pc == Work(Undo(u)) && HasNext(s, u)
    ensures Chains(DoWork(s, t, Undo(u), 0))
  {
    hide Chains, Shapes;
    OwnTodo(s, t);
    StandAt(s, t, u);
    var v := Prev(s, u);
    FocusChains(s, t, s.txns[t].(pc := Work(UndoKill(u))), u, v, s.vers[v].(over := None));
  }

  lemma UndoKillChains(s: State, t: Tid, u: Vid)
    requires Shapes(s) && Chains(s) && HasTxn(s, t) && s.txns[t].pc == Work(UndoKill(u)) && HasVer(s, u)
    ensures Chains(DoWork(s, t, UndoKill(u), 0))
  {
    hide Chains, Shapes;
    OwnTodo(s, t);
    StandAt(s, t, u);
    FocusChains(s, t, s.txns[t].(pc := Doomed), u, u, s.vers[u].(clsn := Dead));
  }

  lemma InstalledChains(s: State, t: Tid, u: Vid, pick: nat)
    requires Shapes(s) && Chains(s) && HasTxn(s, t) && s.txns[t].pc == Work(Installed(u)) && HasNext(s, u)
    ensures Chains(DoWork(s, t, Installed(u), pick))
  {
    hide Chains, Shapes;
    StatesAre(s, t);
    var T, T' := s.txns[t], DoWork(s, t, Installed(u), pick).txns[t];
    forall w ensures SameView(T, T', w) { }
    TxnChains(s, t, T');
  }

  lemma TrackChains(s: State, t: Tid, w: WorkAt, pick: nat)
    requires Shapes(s) && Chains(s) && HasTxn(s, t) && s.txns[t].pc == Work(w) && CanWork(s, w)
    requires w.ReadS2? || w.ReadSucc? || w.Enlist? || w.Claim? || w.Swap?
    ensures Chains(DoWork(s, t, w, pick))
  {
    hide Chains, Shapes;
    StatesAre(s, t);
    var T, T' := s.txns[t], DoWork(s, t, w, pick).txns[t];
    PlainChains(s, t, T');
    if w.Enlist? {
      VerChains(PutTxn(s, t, T'), w.v, s.vers[w.v].(readers := s.vers[w.v].readers + {T.slot}));
    }
  }

  lemma WorkChains(s: State, t: Tid, w: WorkAt, pick: nat)
    requires Shapes(s) && Chains(s) && HasTxn(s, t) && s.txns[t].pc == Work(w) && CanWork(s, w)
    ensures Chains(DoWork(s, t, w, pick))
  {
    hide Chains, Shapes;
    match w
    case Installed(u) => InstalledChains(s, t, u, pick);
    case Marking(u) => MarkingChains(s, t, u);
    case Undo(u) => UndoChains(s, t, u);
    case UndoKill(u) => UndoKillChains(s, t, u);
    case _ => TrackChains(s, t, w, pick);
  }

  /** Between the phases of a commit. */
  lemma TurnChains(s: State, t: Tid)
    requires Shapes(s) && Chains(s) && HasTxn(s, t)
    ensures s.txns[t].pc.Obtained? ==> Chains(PutTxn(s, t, PublishTxn(s.cert, s.txns[t])))
    ensures MayFail(s.txns[t].pc) ==> Chains(PutTxn(s, t, s.txns[t].(pc := Doomed)))
    ensures IsIdle(s, t) ==> Chains(PutTxn(s, t, s.txns[t].(st := Committing, pc := Entered)))
    ensures forall k: nat :: s.txns[t].pc.Entered? ==> Chains(PutTxn(s, t, s.txns[t].(got := k, pc := Obtained)))
  {
    hide Chains, Shapes;
    StatesAre(s, t);
    var T := s.txns[t];
    if T.pc.Obtained? { PlainChains(s, t, PublishTxn(s.cert, T)); }
    if MayFail(T.pc) { PlainChains(s, t, T.(pc := Doomed)); }
    if IsIdle(s, t) { PlainChains(s, t, T.(st := Committing, pc := Entered)); }
    forall k: nat | T.pc.Entered? ensures Chains(PutTxn(s, t, T.(got := k, pc := Obtained))) {
      PlainChains(s, t, T.(got := k, pc := Obtained));
    }
  }

  lemma FateChains(s: State, t: Tid)
    requires Shapes(s) && Chains(s) && HasTxn(s, t)
    ensures IsIdle(s, t) || s.txns[t].pc.Doomed? ==> Chains(PutTxn(s, t, AbortTxn(s.cert, s.txns[t])))
    ensures s.txns[t].pc.Announce? ==> Chains(PutTxn(s, t, AnnounceTxn(s.cert, s.txns[t])))
    ensures s.txns[t].pc.Finished? ==> Chains(PutTxn(s, t, s.txns[t].(pc := Retired)))
    ensures s.txns[t].pc.Retired? ==> Chains(PutTxn(s, t, s.txns[t].(pc := Freed)))
  {
    hide Chains, Shapes;
    StatesAre(s, t);
    var T := s.txns[t];
    if IsIdle(s, t) || T.pc.Doomed? {
      forall u ensures SameView(T, AbortTxn(s.cert, T), u) { }
      TxnChains(s, t, AbortTxn(s.cert, T));
    }
    if T.pc.Announce? {
      forall u ensures SameView(T, AnnounceTxn(s.cert, T), u) { }
      TxnChains(s, t, AnnounceTxn(s.cert, T));
    }
    if T.pc.Finished? {
      forall u ensures SameView(T, T.(pc := Retired), u) { }
      TxnChains(s, t, T.(pc := Retired));
    }
    if T.pc.Retired? {
      forall u ensures SameView(T, T.(pc := Freed), u) { }
      TxnChains(s, t, T.(pc := Freed));
    }
  }

  /** The decision to commit changes nothing yet that the chains show. */
  lemma DecideChains(s: State, t: Tid)
    requires Shapes(s) && Chains(s) && HasTxn(s, t) && s.txns[t].pc.Deciding?
    ensures Chains(PutTxn(s, t, Settle(s.cert, s.txns[t], Stamps(s.txns[t].wset, StampAt.Next))))
  {
    hide Chains, Shapes;
    StatesAre(s, t);
    var T' := Settle(s.cert, s.txns[t], Stamps(s.txns[t].wset, StampAt.Next));
    var s' := PutTxn(s, t, T');
    if T'.pc.Doomed? {
      PlainChains(s, t, T');
    } else {
      forall v | 0 <= v < |s.vers| ensures LinkOk(s', v) && TopOk(s', v) && CreationOk(s', v) {
        GetVer(s, v);
      }
      AllChains(s');
    }
  }

  // ---------------------------------------------------------------- new transactions and versions

  lemma BeginChains(s: State, slot: Slot)
    requires Chains(s)
    ensures Chains(DoBegin(s, slot))
  {
    hide Chains;
    var s' := DoBegin(s, slot);
    forall v | 0 <= v < |s.vers| ensures LinkOk(s', v) && TopOk(s', v) && CreationOk(s', v) {
      GetVer(s, v);
      assert s'.txns[s.vers[v].creator] == s.txns[s.vers[v].creator];
      if s.vers[v].over.Some? { GetVer(s, s.vers[v].over.value); }
    }
    AllChains(s');
  }

  lemma UpdateChains(s: State, t: Tid, v: Vid)
    requires Shapes(s) && Chains(s) && CanUpdate(s, t, v)
    ensures Chains(DoUpdate(s, t, v))
  {
    hide Chains, Shapes;
    var s', u := DoUpdate(s, t, v), |s.vers|;
    var T, T' := s.txns[t], s'.txns[t];
    StatesAre(s, t);
    NewIsFresh(s, t);
    forall w | w != u ensures SameView(T, T', w) { }
    forall w | 0 <= w < |s'.vers| ensures LinkOk(s', w) && TopOk(s', w) && CreationOk(s', w) {
      if w < u {
        GetVer(s, w);
        assert SameView(T, T', w);
        if w != v && s.vers[w].over.Some? { assert SameView(T, T', s.vers[w].over.value); }
        if s.vers[w].next == Some(v) { GetVer(s, v); }
      }
    }
    AllChains(s');
  }

  lemma InsertChains(s: State, t: Tid, rec: nat)
    requires Shapes(s) && Chains(s) && CanInsert(s, t, rec)
    ensures Chains(DoInsert(s, t, rec))
  {
    hide Chains, Shapes;
    var s', u := DoInsert(s, t, rec), |s.vers|;
    var T, T' := s.txns[t], s'.txns[t];
    StatesAre(s, t);
    forall w | w != u ensures SameView(T, T', w) { }
    forall w | 0 <= w < |s'.vers| ensures LinkOk(s', w) && TopOk(s', w) && CreationOk(s', w) {
      if w < u {
        GetVer(s, w);
        assert SameView(T, T', w);
        if s.vers[w].over.Some? { assert SameView(T, T', s.vers[w].over.value); }
      }
    }
    AllChains(s');
  }

  lemma ClaimChains(s: State, t: Tid, v: Vid)
    requires Shapes(s) && Chains(s) && IsIdle(s, t)
    ensures Chains(PutTxn(s, t, s.txns[t].(pc := Work(WorkAt.Claim(v)))))
  {
    hide Chains, Shapes;
    StatesAre(s, t);
    PlainChains(s, t, s.txns[t].(pc := Work(WorkAt.Claim(v))));
  }

  lemma ReadChains(s: State, t: Tid, v: Vid)
    requires Shapes(s) && Chains(s) && CanRead(s, t, v)
    ensures Chains(DoRead(s, t, v))
  {
    hide Chains, Shapes;
    StatesAre(s, t);
    PlainChains(s, t, DoRead(s, t, v).txns[t]);
  }

  // ---------------------------------------------------------------- all steps

  lemma GoChains(s: State, t: Tid, pick: nat)
    requires Shapes(s) && Chains(s) && CanGo(s, t, pick)
    ensures Chains(DoGo(s, t, pick))
  {
    hide Chains, Shapes;
    match s.txns[t].pc
    case Work(w) => WorkChains(s, t, w, pick);
    case Reads(todo, r) => ReadsChains(s, t, todo, r, pick);
    case Writes(todo, w) => WritesChains(s, t, todo, w, pick);
    case Deciding => DecideChains(s, t);
    case Stamps(todo, a) => StampsChains(s, t, todo, a, pick);
    case Leave(todo, l) => LeaveChains(s, t, todo, l, pick);
    case Forget(todo) => ForgetChains(s, t, todo, pick);
    case Revert(todo, a) => RevertChains(s, t, todo, a, pick);
    case Finished =>
      FateChains(s, t);
      XidsChains(PutTxn(s, t, s.txns[t].(pc := Retired)), s.clock, s.xids - {s.txns[t].slot});
    case Obtained => TurnChains(s, t);
    case _ => FateChains(s, t);
  }

  /** The slot table and the clock play no part in the chains. */
  lemma XidsChains(s: State, clock: nat, xids: map<Slot, Tid>)
    requires Chains(s)
    ensures Chains(s.(clock := clock, xids := xids))
  {
    hide Chains;
    var s' := s.(clock := clock, xids := xids);
    forall v | 0 <= v < |s.vers| ensures LinkOk(s', v) && TopOk(s', v) && CreationOk(s', v) { GetVer(s, v); }
    AllChains(s');
  }

  lemma StepChains(s: State, step: Step)
    requires Shapes(s) && Chains(s) && Enabled(s, step)
    ensures Chains(Apply(s, step))
  {
    hide Chains, Shapes;
    match step
    case Begin(slot) => BeginChains(s, slot);
    case Read(t, v) => ReadChains(s, t, v);
    case Claim(t, v) => ClaimChains(s, t, v);
    case Update(t, v) => UpdateChains(s, t, v);
    case Insert(t, rec) => InsertChains(s, t, rec);
    case Commit(t) => TurnChains(s, t);
    case Abort(t) => FateChains(s, t);
    case Obtain(t, d) =>
      TurnChains(s, t);
      XidsChains(PutTxn(s, t, s.txns[t].(got := s.clock + d, pc := Obtained)), s.clock + d, s.xids);
    case Fail(t) => TurnChains(s, t);
    case Go(t, pick) => GoChains(s, t, pick);
  }
}
