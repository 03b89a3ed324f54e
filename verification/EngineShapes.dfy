/** Every step keeps the shape of each transaction. */
module EngineShapes {
  import opened Options
  import opened Engine
  import opened EngineInv

  // ---------------------------------------------------------------- framing

  /** Nothing that other transactions or the slot table know of t changed. */
  predicate SameFace(T: Txn, T': Txn) {
    && T'.slot == T.slot && T'.got == T.got && T'.begin == T.begin && LivePc(T'.pc) == LivePc(T.pc)
    && (T.st.Cmmtd? ==> T'.st.Cmmtd?)
    && Touched(T') <= Touched(T) && Made(T') <= Made(T)
  }

  ghost predicate TargetsFor(s: State, pc: Pc) {
    && (Peer(pc).Some? ==> HasTxn(s, Peer(pc).value))
    && (forall u :: u in Updates(pc) ==> HasVer(s, u) && s.vers[u].next.Some?)
    && (pc.Reads? && pc.rat.TakeStamp? ==> HasTxn(s, pc.rat.x) && s.txns[pc.rat.x].st.Cmmtd?)
  }

  lemma TxnShapes(s: State, t: Tid, T': Txn)
    requires Shapes(s) && HasTxn(s, t) && SameFace(s.txns[t], T')
    requires RecOk(s.cert, s.words, s.clock, T') && TargetsFor(s, T'.pc)
    ensures Shapes(PutTxn(s, t, T'))
  {
    var s' := PutTxn(s, t, T');
    forall x | 0 <= x < |s.txns| ensures TxnOk(s', x) {
      assert TxnOk(s, x);
      if x != t { assert s'.txns[x] == s.txns[x]; }
    }
  }

  /** A version changed, but not in what the shape of a transaction mentions. */
  predicate SameRoot(V: Version, V': Version) {
    (V.clsn.Stamped? ==> V'.clsn == V.clsn) && V'.creator == V.creator && V'.next == V.next
  }

  lemma VerShapes(s: State, v: Vid, V': Version)
    requires Shapes(s) && HasVer(s, v) && SameRoot(s.vers[v], V')
    ensures Shapes(PutVer(s, v, V'))
  {
    var s' := PutVer(s, v, V');
    forall x | 0 <= x < |s.txns| ensures TxnOk(s', x) {
      assert TxnOk(s, x);
    }
  }

  lemma AdvanceShapes(s: State, t: Tid, T': Txn)
    requires Shapes(s) && HasTxn(s, t) && Advances(s.txns[t], T')
    requires !s.txns[t].pc.Work? && !T'.pc.Work? && LivePc(s.txns[t].pc) && LivePc(T'.pc)
    requires RecOk(s.cert, s.words, s.clock, T') && TargetsFor(s, T'.pc)
    ensures Shapes(PutTxn(s, t, T'))
  {
    hide Shapes, RecOk, TargetsFor;
    TxnShapes(s, t, T');
  }

  // ---------------------------------------------------------------- records

  lemma SsnReadRec(c: Certifier, w: nat, k: nat, T: Txn, t: Tid, v: Vid, V: Version)
    requires c.SSN? && RecOk(c, w, k, T) && T.pc == Work(ReadSucc(v))
    requires V.sstamp.ByLog? ==> V.sstamp.stamp <= k
    ensures RecOk(c, w, k, SsnRead(T, t, v, V))
  {
  }

  lemma SsiReadRec(c: Certifier, w: nat, k: nat, T: Txn, v: Vid, V: Version, misses: bool)
    requires c.SSI? && RecOk(c, w, k, T) && T.pc == Work(ReadSucc(v))
    ensures RecOk(c, w, k, SsiRead(T, v, V, misses))
  {
  }

  lemma LookAtSuccRec(c: Certifier, w: nat, k: nat, T: Txn, t: Tid, todo: set<Vid>, v: Vid, S: Successor)
    requires RecOk(c, w, k, T) && T.pc == Reads(todo, ReadAt.Next) && v in todo
    requires S.ByLog? ==> S.stamp > 0
    ensures RecOk(c, w, k, LookAtSucc(c, T, t, todo - {v}, v, S))
  {
  }

  lemma ProbeSuccRec(c: Certifier, w: nat, k: nat, T: Txn, t: Tid, todo: set<Vid>, v: Vid, x: Tid, X: Txn)
    requires RecOk(c, w, k, T) && T.pc == Reads(todo, Probe(v, x))
    ensures RecOk(c, w, k, ProbeSucc(T, t, todo, v, x, X))
  {
  }

  lemma SuccEndRec(c: Certifier, w: nat, k: nat, T: Txn, todo: set<Vid>, v: Vid, x: Tid, X: Txn)
    requires RecOk(c, w, k, T) && T.pc == Reads(todo, AwaitEnd(v, x))
    ensures RecOk(c, w, k, SuccEnd(c, T, todo, v, x, X))
  {
  }

  lemma SuccFateRec(c: Certifier, w: nat, k: nat, T: Txn, todo: set<Vid>, v: Vid, x: Tid, e: nat, X: Txn)
    requires RecOk(c, w, k, T) && T.pc == Reads(todo, AwaitFate(v, x, e))
    ensures RecOk(c, w, k, SuccFate(c, T, todo, v, x, e, X))
  {
  }

  lemma InheritStampRec(c: Certifier, w: nat, k: nat, T: Txn, todo: set<Vid>, v: Vid, x: Tid, X: Txn)
    requires RecOk(c, w, k, T) && T.pc == Reads(todo, TakeStamp(v, x)) && X.sstamp > 0
    ensures RecOk(c, w, k, InheritStamp(T, todo, v, X))
  {
  }

  /** The reader loop moves within itself, to the last look at xstamp, or to the abort. */
  lemma ScanForm(s: State, t: Tid, todo: set<Vid>, w: WriteAt, V: Version, pick: nat)
    requires HasTxn(s, t) && w.Scan? && w.k <= s.words && CanScan(s, w.bits, w.at, pick)
    ensures var T, T' := s.txns[t], ScanTxn(s, t, todo, w, V, pick);
      && T' == T.(pstamp := T'.pstamp, pc := T'.pc) && T.pstamp <= T'.pstamp
      && (T'.pc == Doomed
          || T'.pc == Writes(todo, LastXstamp(w.u))
          || (T'.pc.Writes? && T'.pc.todo == todo && T'.pc.uat.Scan? && T'.pc.uat.u == w.u && T'.pc.uat.k <= s.words))
  {
    match w.at
    case Bits =>
    case Occupant(r) =>
    case ReaderEnd(r, rst) =>
    case AwaitReaderEnd(r) =>
    case AwaitReaderFate(r, e) =>
  }

  lemma ScanRec(s: State, t: Tid, todo: set<Vid>, w: WriteAt, V: Version, pick: nat)
    requires HasTxn(s, t) && RecOk(s.cert, s.words, s.clock, s.txns[t])
    requires s.txns[t].pc == Writes(todo, w) && w.Scan? && CanScan(s, w.bits, w.at, pick)
    ensures RecOk(s.cert, s.words, s.clock, ScanTxn(s, t, todo, w, V, pick))
  {
    ScanForm(s, t, todo, w, V, pick);
    var T' := ScanTxn(s, t, todo, w, V, pick);
  }

  lemma ReadsDoneRec(c: Certifier, w: nat, k: nat, T: Txn)
    requires RecOk(c, w, k, T) && T.pc.Reads?
    ensures RecOk(c, w, k, ReadsDone(c, T))
  {
  }

  lemma CheckS2Rec(c: Certifier, w: nat, k: nat, T: Txn, todo: set<Vid>, v: Vid, misses: bool)
    requires RecOk(c, w, k, T) && T.pc == Reads(todo, CheckS2(v))
    ensures RecOk(c, w, k, T.(pc := Doomed))
    ensures RecOk(c, w, k, T.(torn := T.torn || misses, pc := Reads(todo, ReadAt.Next)))
  {
  }

  lemma WritesRec(c: Certifier, w: nat, k: nat, T: Txn, T': Txn)
    requires RecOk(c, w, k, T) && T.pc.Writes? && T' == T.(pstamp := T'.pstamp, pc := T'.pc)
    requires T'.pc.Doomed? || T'.pc.Deciding? || (T'.pc.Writes? && PcOk(c, w, T'))
    ensures RecOk(c, w, k, T')
  {
  }

  /** The program counter moved inside post-commit or abort, and nothing else changed. */
  lemma LateRec(c: Certifier, w: nat, k: nat, T: Txn, pc: Pc)
    requires RecOk(c, w, k, T)
    requires match T.pc
      case Stamps(todo, a) => pc.Stamps? || pc.Announce?
      case Leave(todo, l) => pc.Leave? || pc.Finished?
      case Forget(todo) => pc.Forget? || pc.Revert?
      case Revert(todo, a) => pc.Revert? || pc.Finished?
      case Finished => pc.Retired?
      case Retired => pc.Freed?
      case _ => false
    requires PcOk(c, w, T.(pc := pc))
    ensures RecOk(c, w, k, T.(pc := pc))
  {
  }

  // ---------------------------------------------------------------- steps

  lemma GetTxn(s: State, t: Tid)
    requires Shapes(s) && HasTxn(s, t)
    ensures TxnOk(s, t)
  {
  }

  lemma StatesAre(s: State, t: Tid)
    requires Shapes(s) && HasTxn(s, t)
    ensures StateOk(s.txns[t]) && StampOk(s.cert, s.clock, s.txns[t])
  {
    assert TxnOk(s, t);
  }

  /** Versions still to visit are the transaction's own. */
  lemma OwnTodo(s: State, t: Tid)
    requires Shapes(s) && HasTxn(s, t)
    ensures match s.txns[t].pc
      case Stamps(todo, a) => todo + StampFocus(a) <= s.txns[t].wset
      case Revert(todo, a) => todo + RevertFocus(a) <= s.txns[t].wset
      case Work(w) => WorkFocus(w) <= Made(s.txns[t]) && WorkFocus(w) !! s.txns[t].wset
      case _ => true
    ensures s.txns[t].wset <= Made(s.txns[t])
  {
    assert TxnOk(s, t);
  }

  lemma GetVer(s: State, v: Vid)
    requires Chains(s) && HasVer(s, v)
    ensures LinkOk(s, v) && TopOk(s, v) && CreationOk(s, v)
  {
  }

  lemma OverThere(s: State, v: Vid)
    requires Chains(s) && HasVer(s, v)
    ensures s.vers[v].over.Some? ==> HasVer(s, s.vers[v].over.value)
  {
    assert LinkOk(s, v);
  }

  /** A final successor stamp was handed out. */
  lemma LogPositive(s: State, v: Vid)
    requires Shapes(s) && HasVer(s, v) && LinkOk(s, v) && s.vers[v].sstamp.ByLog?
    ensures 0 < s.vers[v].sstamp.stamp <= s.clock
  {
    var x := s.vers[s.vers[v].over.value].creator;
    assert TxnOk(s, x);
  }

  lemma PositiveStamp(s: State, x: Tid)
    requires Shapes(s) && HasTxn(s, x) && s.cert.SSN? && s.txns[x].st.Cmmtd?
    ensures s.txns[x].sstamp > 0
  {
    assert TxnOk(s, x);
  }

  lemma TakeStampPc(c: Certifier, w: nat, k: nat, T: Txn, todo: set<Vid>, v: Vid, x: Tid)
    requires RecOk(c, w, k, T) && T.pc == Reads(todo, TakeStamp(v, x))
    ensures c.SSN?
  {
  }

  /** The successor field names a transaction or a stamp that exists. */
  lemma SuccInRange(s: State, v: Vid)
    requires Chains(s) && HasVer(s, v) && s.vers[v].sstamp.ByXid?
    ensures HasTxn(s, s.vers[v].sstamp.t)
  {
    assert LinkOk(s, v);
  }

  lemma ReadsRec(s: State, t: Tid, todo: set<Vid>, r: ReadAt, pick: nat)
    requires Shapes(s) && Chains(s) && HasTxn(s, t) && s.txns[t].pc == Reads(todo, r) && CanReads(s, todo, r, pick)
    ensures RecOk(s.cert, s.words, s.clock, ReadsTxn(s, t, todo, r, pick))
  {
    hide Shapes, Chains, RecOk, SetsOk, TopOk, CreationOk;
    GetTxn(s, t);
    var c, w, k, T := s.cert, s.words, s.clock, s.txns[t];
    match r
    case Next =>
      if todo != {} {
        GetVer(s, pick);
        if s.vers[pick].sstamp.ByLog? { LogPositive(s, pick); }
        LookAtSuccRec(c, w, k, T, t, todo, pick, s.vers[pick].sstamp);
      } else {
        ReadsDoneRec(c, w, k, T);
      }
    case Probe(v, x) => ProbeSuccRec(c, w, k, T, t, todo, v, x, s.txns[x]);
    case AwaitEnd(v, x) => SuccEndRec(c, w, k, T, todo, v, x, s.txns[x]);
    case AwaitFate(v, x, e) => SuccFateRec(c, w, k, T, todo, v, x, e, s.txns[x]);
    case TakeStamp(v, x) =>
      TakeStampPc(c, w, k, T, todo, v, x);
      PositiveStamp(s, x);
      InheritStampRec(c, w, k, T, todo, v, x, s.txns[x]);
    case CheckS2(v) => CheckS2Rec(c, w, k, T, todo, v, MissesS2(s, t, v));
  }

  lemma ReadsTargets(s: State, t: Tid, todo: set<Vid>, r: ReadAt, pick: nat)
    requires Shapes(s) && Chains(s) && HasTxn(s, t) && s.txns[t].pc == Reads(todo, r) && CanReads(s, todo, r, pick)
    ensures var T' := ReadsTxn(s, t, todo, r, pick);
      && Advances(s.txns[t], T') && (T'.pc.Reads? || T'.pc.Writes? || T'.pc.Deciding? || T'.pc.Doomed?)
      && TargetsFor(s, T'.pc)
  {
    hide Shapes, Chains, RecOk, SetsOk;
    GetTxn(s, t);
    match r
    case Next => if todo != {} && s.vers[pick].sstamp.ByXid? { SuccInRange(s, pick); }
    case Probe(v, x) =>
    case AwaitEnd(v, x) =>
    case AwaitFate(v, x, e) =>
      GetTxn(s, x);
    case TakeStamp(v, x) =>
    case CheckS2(v) =>
  }

  lemma ReadsShapes(s: State, t: Tid, todo: set<Vid>, r: ReadAt, pick: nat)
    requires Shapes(s) && Chains(s) && HasTxn(s, t) && s.txns[t].pc == Reads(todo, r) && CanReads(s, todo, r, pick)
    ensures Shapes(PutTxn(s, t, ReadsTxn(s, t, todo, r, pick)))
  {
    hide Shapes, Chains, RecOk, TargetsFor, ReadsTxn;
    ReadsRec(s, t, todo, r, pick);
    ReadsTargets(s, t, todo, r, pick);
    AdvanceShapes(s, t, ReadsTxn(s, t, todo, r, pick));
  }

  lemma WritesForm(s: State, t: Tid, todo: set<Vid>, w: WriteAt, pick: nat)
    requires Shapes(s) && HasTxn(s, t) && s.txns[t].pc == Writes(todo, w) && CanWrites(s, todo, w, pick)
    ensures var T, T' := s.txns[t], WritesTxn(s, t, todo, w, pick);
      && T' == T.(pstamp := T'.pstamp, pc := T'.pc) && T.pstamp <= T'.pstamp
      && RecOk(s.cert, s.words, s.clock, T')
      && (T'.pc.Writes? || T'.pc.Deciding? || T'.pc.Doomed?)
  {
    hide Shapes, SetsOk, ScanTxn, CanScan;
    GetTxn(s, t);
    match w
    case Next => WritesRec(s.cert, s.words, s.clock, s.txns[t], WritesTxn(s, t, todo, w, pick));
    case Scan(u, k, bits, a) =>
      ScanForm(s, t, todo, w, s.vers[Prev(s, u)], pick);
      ScanRec(s, t, todo, w, s.vers[Prev(s, u)], pick);
    case LastXstamp(u) => WritesRec(s.cert, s.words, s.clock, s.txns[t], WritesTxn(s, t, todo, w, pick));
  }

  lemma ScanPeer(s: State, t: Tid, todo: set<Vid>, w: WriteAt, V: Version, pick: nat)
    requires SlotsOk(s) && HasTxn(s, t) && w.Scan? && CanScan(s, w.bits, w.at, pick)
    ensures var pc := ScanTxn(s, t, todo, w, V, pick).pc; Peer(pc).Some? ==> HasTxn(s, Peer(pc).value)
    ensures Updates(ScanTxn(s, t, todo, w, V, pick).pc) <= {w.u}
  {
    match w.at
    case Bits =>
    case Occupant(r) =>
    case ReaderEnd(r, rst) =>
    case AwaitReaderEnd(r) =>
    case AwaitReaderFate(r, e) =>
  }

  lemma WritesTargets(s: State, t: Tid, todo: set<Vid>, w: WriteAt, pick: nat)
    requires Shapes(s) && HasTxn(s, t) && s.txns[t].pc == Writes(todo, w) && CanWrites(s, todo, w, pick)
    ensures TargetsFor(s, WritesTxn(s, t, todo, w, pick).pc)
  {
    hide Shapes, SetsOk, ScanTxn, CanScan, RecOk, SlotsOk;
    GetTxn(s, t);
    WritesForm(s, t, todo, w, pick);
    match w
    case Next =>
    case Scan(u, k, bits, a) =>
      GetSlots(s);
      ScanPeer(s, t, todo, w, s.vers[Prev(s, u)], pick);
    case LastXstamp(u) =>
  }

  lemma GetSlots(s: State)
    requires Shapes(s)
    ensures SlotsOk(s) && StampsApart(s)
  {
  }

  lemma WritesShapes(s: State, t: Tid, todo: set<Vid>, w: WriteAt, pick: nat)
    requires Shapes(s) && HasTxn(s, t) && s.txns[t].pc == Writes(todo, w) && CanWrites(s, todo, w, pick)
    ensures Shapes(PutTxn(s, t, WritesTxn(s, t, todo, w, pick)))
  {
    hide Shapes, RecOk, TargetsFor, WritesTxn;
    WritesForm(s, t, todo, w, pick);
    WritesTargets(s, t, todo, w, pick);
    AdvanceShapes(s, t, WritesTxn(s, t, todo, w, pick));
  }

  predicate SamePhase(pc: Pc, pc': Pc) {
    match pc
    case Stamps(todo, a) => pc'.Stamps? || pc'.Announce?
    case Leave(todo, l) => pc'.Leave? || pc'.Finished?
    case Forget(todo) => pc'.Forget? || pc'.Revert?
    case Revert(todo, a) => pc'.Revert? || pc'.Finished?
    case _ => false
  }

  lemma LateShapes(s: State, t: Tid, pc': Pc)
    requires Shapes(s) && HasTxn(s, t) && SamePhase(s.txns[t].pc, pc')
    requires PcOk(s.cert, s.words, s.txns[t].(pc := pc')) && TargetsFor(s, pc')
    ensures Shapes(PutTxn(s, t, s.txns[t].(pc := pc')))
  {
    hide Shapes, RecOk, TargetsFor, PcOk;
    GetTxn(s, t);
    LateRec(s.cert, s.words, s.clock, s.txns[t], pc');
    AdvanceShapes(s, t, s.txns[t].(pc := pc'));
  }

  lemma LateShapesVer(s: State, t: Tid, pc': Pc, v: Vid, V': Version)
    requires Shapes(s) && HasTxn(s, t) && SamePhase(s.txns[t].pc, pc')
    requires PcOk(s.cert, s.words, s.txns[t].(pc := pc')) && TargetsFor(s, pc')
    requires HasVer(s, v) && SameRoot(s.vers[v], V')
    ensures Shapes(PutVer(PutTxn(s, t, s.txns[t].(pc := pc')), v, V'))
  {
    hide Shapes, TargetsFor, PcOk, SamePhase;
    LateShapes(s, t, pc');
    VerShapes(PutTxn(s, t, s.txns[t].(pc := pc')), v, V');
  }

  lemma StampsShapes(s: State, t: Tid, todo: set<Vid>, a: StampAt, pick: nat)
    requires Shapes(s) && Chains(s) && HasTxn(s, t) && s.txns[t].pc == Stamps(todo, a) && CanStamps(s, todo, a, pick)
    ensures Shapes(DoStamps(s, t, todo, a, pick))
  {
    hide Shapes, Chains, SetsOk, StateOk, StampOk;
    GetTxn(s, t);
    var T := s.txns[t];
    match a
    case Next => LateShapes(s, t, DoStamps(s, t, todo, a, pick).txns[t].pc);
    case StampSucc(u) =>
      LateShapesVer(s, t, Stamps(todo, if s.cert.SSI? then StampS2(u) else StampX(u)),
                    Prev(s, u), s.vers[Prev(s, u)].(sstamp := ByLog(Legacy(s.cert, T))));
    case StampS2(u) =>
      LateShapesVer(s, t, Stamps(todo, StampX(u)), Prev(s, u), s.vers[Prev(s, u)].(s2 := T.ct3));
    case StampX(u) => LateShapesVer(s, t, Stamps(todo, StampClsn(u)), u, s.vers[u].(xstamp := T.got));
    case StampClsn(u) =>
      StampedOnce(s, t, u);
      LateShapesVer(s, t, Stamps(todo, StampAt.Next), u, s.vers[u].(clsn := Stamped(T.got)));
  }

  /** A version that still carries its creator's XID is not stamped. */
  lemma StampedOnce(s: State, t: Tid, u: Vid)
    requires Shapes(s) && Chains(s) && HasTxn(s, t) && u in ClsnPending(s.txns[t]) && u in Made(s.txns[t])
    ensures HasVer(s, u) && s.vers[u].clsn.Pending?
  {
    assert TxnOk(s, t);
    assert CreationOk(s, u);
  }

  lemma LeaveShapes(s: State, t: Tid, todo: set<Vid>, l: LeaveAt, pick: nat)
    requires Shapes(s) && Chains(s) && HasTxn(s, t) && s.txns[t].pc == Leave(todo, l) && CanLeave(s, todo, l, pick)
    ensures Shapes(DoLeave(s, t, todo, l, pick))
  {
    hide Shapes, Chains, SetsOk, StateOk, StampOk;
    GetTxn(s, t);
    var T := s.txns[t];
    match l
    case SetX(v) =>
      LateShapesVer(s, t, Leave(todo, if s.cert.SSI? then Look(v) else ClearBit(v)),
                    v, s.vers[v].(xstamp := Max(s.vers[v].xstamp, T.got)));
    case ClearBit(v) =>
      LateShapesVer(s, t, Leave(todo, LeaveAt.Next), v, s.vers[v].(readers := s.vers[v].readers - {T.slot}));
    case Look(v) =>
      if s.vers[v].sstamp.ByXid? { SuccInRange(s, v); }
      LateShapes(s, t, DoLeave(s, t, todo, l, pick).txns[t].pc);
    case _ => LateShapes(s, t, DoLeave(s, t, todo, l, pick).txns[t].pc);
  }

  lemma ForgetShapes(s: State, t: Tid, todo: set<Vid>, pick: nat)
    requires Shapes(s) && HasTxn(s, t) && s.txns[t].pc == Forget(todo) && CanForget(s, todo, pick)
    ensures Shapes(DoForget(s, t, todo, pick))
  {
    hide Shapes, SetsOk, StateOk, StampOk;
    GetTxn(s, t);
    var T := s.txns[t];
    if todo == {} {
      LateShapes(s, t, Revert(T.wset, RevertAt.Next));
    } else {
      LateShapesVer(s, t, Forget(todo - {pick}), pick, s.vers[pick].(readers := s.vers[pick].readers - {T.slot}));
    }
  }

  lemma RevertShapes(s: State, t: Tid, todo: set<Vid>, a: RevertAt, pick: nat)
    requires Shapes(s) && Chains(s) && HasTxn(s, t) && s.txns[t].pc == Revert(todo, a) && CanRevert(s, todo, a, pick)
    ensures Shapes(DoRevert(s, t, todo, a, pick))
  {
    hide Shapes, Chains, SetsOk, StateOk, StampOk;
    GetTxn(s, t);
    var T := s.txns[t];
    match a
    case Next => LateShapes(s, t, DoRevert(s, t, todo, a, pick).txns[t].pc);
    case Unmark(u) =>
      LateShapesVer(s, t, Revert(todo, Unlink(u)), Prev(s, u), s.vers[Prev(s, u)].(sstamp := NoSucc));
    case Unlink(u) =>
      LateShapesVer(s, t, Revert(todo, Kill(u)), Prev(s, u), s.vers[Prev(s, u)].(over := None));
    case Kill(u) =>
      StampedOnce(s, t, u);
      LateShapesVer(s, t, Revert(todo, RevertAt.Next), u, s.vers[u].(clsn := Dead));
  }

  /** Between the phases of a commit. */
  lemma TurnShapes(s: State, t: Tid)
    requires Shapes(s) && HasTxn(s, t)
    ensures s.txns[t].pc.Obtained? ==> Shapes(PutTxn(s, t, PublishTxn(s.cert, s.txns[t])))
    ensures s.txns[t].pc.Deciding? ==>
      Shapes(PutTxn(s, t, Settle(s.cert, s.txns[t], Stamps(s.txns[t].wset, StampAt.Next))))
    ensures s.txns[t].pc.Announce? ==> Shapes(PutTxn(s, t, AnnounceTxn(s.cert, s.txns[t])))
    ensures MayFail(s.txns[t].pc) ==> Shapes(PutTxn(s, t, s.txns[t].(pc := Doomed)))
  {
    hide Shapes, SetsOk;
    GetTxn(s, t);
    var T := s.txns[t];
    if T.pc.Obtained? { TxnShapes(s, t, PublishTxn(s.cert, T)); }
    if T.pc.Deciding? { AdvanceShapes(s, t, Settle(s.cert, T, Stamps(T.wset, StampAt.Next))); }
    if T.pc.Announce? { TxnShapes(s, t, AnnounceTxn(s.cert, T)); }
    if MayFail(T.pc) { AdvanceShapes(s, t, T.(pc := Doomed)); }
  }

  /** serial_deregister_tx. */
  lemma RetireShapes(s: State, t: Tid)
    requires Shapes(s) && HasTxn(s, t) && s.txns[t].pc.Finished?
    ensures Shapes(PutTxn(s, t, s.txns[t].(pc := Retired)).(xids := s.xids - {s.txns[t].slot}))
  {
    var s' := PutTxn(s, t, s.txns[t].(pc := Retired)).(xids := s.xids - {s.txns[t].slot});
    forall x | 0 <= x < |s.txns| ensures TxnOk(s', x) {
      assert TxnOk(s, x);
      if x != t { assert s'.txns[x] == s.txns[x]; }
      assert Made(s'.txns[x]) == Made(s.txns[x]) && Touched(s'.txns[x]) == Touched(s.txns[x]);
    }
  }

  /** xid_free. */
  lemma FreeShapes(s: State, t: Tid)
    requires Shapes(s) && HasTxn(s, t) && s.txns[t].pc.Retired?
    ensures Shapes(PutTxn(s, t, s.txns[t].(pc := Freed)))
  {
    hide Shapes, SetsOk;
    GetTxn(s, t);
    TxnShapes(s, t, s.txns[t].(pc := Freed));
  }

  lemma ReadSuccShapes(s: State, t: Tid, v: Vid)
    requires Shapes(s) && Chains(s) && HasTxn(s, t) && s.txns[t].pc == Work(ReadSucc(v)) && HasVer(s, v)
    ensures Shapes(DoWork(s, t, ReadSucc(v), 0))
  {
    hide Shapes, Chains, SetsOk, StateOk, StampOk, TopOk, CreationOk;
    GetTxn(s, t);
    GetVer(s, v);
    if s.vers[v].sstamp.ByLog? { LogPositive(s, v); }
    var T, V := s.txns[t], s.vers[v];
    if s.cert.SSN? {
      SsnReadRec(s.cert, s.words, s.clock, T, t, v, V);
      TxnShapes(s, t, SsnRead(T, t, v, V));
    } else {
      SsiReadRec(s.cert, s.words, s.clock, T, v, V, MissesS2(s, t, v));
      TxnShapes(s, t, SsiRead(T, v, V, MissesS2(s, t, v)));
    }
  }

  lemma EnlistShapes(s: State, t: Tid, v: Vid)
    requires Shapes(s) && HasTxn(s, t) && s.txns[t].pc == Work(Enlist(v)) && HasVer(s, v)
    ensures Shapes(DoWork(s, t, Enlist(v), 0))
  {
    hide Shapes, SetsOk;
    GetTxn(s, t);
    var T := s.txns[t];
    TxnShapes(s, t, EnlistTxn(s.cert, T, v));
    VerShapes(PutTxn(s, t, EnlistTxn(s.cert, T, v)), v, s.vers[v].(readers := s.vers[v].readers + {T.slot}));
  }

  lemma WorkShapes(s: State, t: Tid, w: WorkAt, pick: nat)
    requires Shapes(s) && Chains(s) && HasTxn(s, t) && s.txns[t].pc == Work(w) && CanWork(s, w)
    ensures Shapes(DoWork(s, t, w, pick))
  {
    hide Shapes, Chains, SetsOk;
    GetTxn(s, t);
    var T := s.txns[t];
    match w
    case ReadS2(v) => TxnShapes(s, t, DoWork(s, t, w, pick).txns[t]);
    case ReadSucc(v) => ReadSuccShapes(s, t, v);
    case Enlist(v) => EnlistShapes(s, t, v);
    case Claim(v) => TxnShapes(s, t, DoWork(s, t, w, pick).txns[t]);
    case Swap(v) => TxnShapes(s, t, DoWork(s, t, w, pick).txns[t]);
    case Installed(u) => TxnShapes(s, t, InstalledTxn(s.cert, T, u, s.vers[Prev(s, u)], pick != 0));
    case _ => LinkShapes(s, t, w, pick);
  }

  /** The steps that mark or take back a version. */
  lemma LinkShapes(s: State, t: Tid, w: WorkAt, pick: nat)
    requires Shapes(s) && Chains(s) && HasTxn(s, t) && s.txns[t].pc == Work(w) && CanWork(s, w)
    requires w.Marking? || w.Undo? || w.UndoKill?
    ensures Shapes(DoWork(s, t, w, pick))
  {
    hide Shapes, Chains, SetsOk;
    GetTxn(s, t);
    var T, u := s.txns[t], w.u;
    if w.Marking? {
      var T' := T.(wset := T.wset + {u}, pc := Work(Idle));
      TxnShapes(s, t, T');
      VerShapes(PutTxn(s, t, T'), Prev(s, u), s.vers[Prev(s, u)].(sstamp := ByXid(t)));
    } else if w.Undo? {
      var T' := T.(pc := Work(UndoKill(u)));
      TxnShapes(s, t, T');
      VerShapes(PutTxn(s, t, T'), Prev(s, u), s.vers[Prev(s, u)].(over := None));
    } else {
      StampedOnce(s, t, u);
      TxnShapes(s, t, T.(pc := Doomed));
      VerShapes(PutTxn(s, t, T.(pc := Doomed)), u, s.vers[u].(clsn := Dead));
    }
  }

  lemma GoShapes(s: State, t: Tid, pick: nat)
    requires Shapes(s) && Chains(s) && CanGo(s, t, pick)
    ensures Shapes(DoGo(s, t, pick))
  {
    hide Shapes, Chains;
    match s.txns[t].pc
    case Work(w) => WorkShapes(s, t, w, pick);
    case Reads(todo, r) => ReadsShapes(s, t, todo, r, pick);
    case Writes(todo, w) => WritesShapes(s, t, todo, w, pick);
    case Stamps(todo, a) => StampsShapes(s, t, todo, a, pick);
    case Leave(todo, l) => LeaveShapes(s, t, todo, l, pick);
    case Forget(todo) => ForgetShapes(s, t, todo, pick);
    case Revert(todo, a) => RevertShapes(s, t, todo, a, pick);
    case Finished => RetireShapes(s, t);
    case Retired => FreeShapes(s, t);
    case _ => TurnShapes(s, t);
  }

  lemma StampBounds(s: State)
    requires Shapes(s)
    ensures forall x :: 0 <= x < |s.txns| ==> s.txns[x].got <= s.clock && 0 < s.txns[x].begin <= s.clock + 1
  {
    forall x | 0 <= x < |s.txns| ensures s.txns[x].got <= s.clock && 0 < s.txns[x].begin <= s.clock + 1 {
      assert TxnOk(s, x);
    }
  }

  lemma BeginShapes(s: State, slot: Slot)
    requires Shapes(s) && slot < 64 * s.words && slot !in s.xids
    ensures Shapes(DoBegin(s, slot))
  {
    var s' := DoBegin(s, slot);
    StampBounds(s);
    forall x | 0 <= x < |s'.txns| ensures TxnOk(s', x) {
      if x < |s.txns| {
        assert TxnOk(s, x);
        assert s'.txns[x] == s.txns[x];
      }
    }
  }

  lemma ReadRec(c: Certifier, w: nat, k: nat, T: Txn, v: Vid)
    requires RecOk(c, w, k, T) && T.pc == Work(Idle)
    ensures var T' := ReadTxn(c, T, v);
      && RecOk(c, w, k, T') && T'.pc.Work? && Peer(T'.pc).None? && Updates(T'.pc) == {}
      && Touched(T') == Touched(T) + {v} && Made(T') == Made(T) && T'.begin == T.begin && T'.got == T.got &&
        T'.slot == T.slot
      && !T'.st.Cmmtd? && !T.st.Cmmtd?
  {
  }

  lemma ReadShapes(s: State, t: Tid, v: Vid)
    requires Shapes(s) && CanRead(s, t, v)
    ensures Shapes(DoRead(s, t, v))
  {
    var T' := ReadTxn(s.cert, s.txns[t], v);
    var s' := PutTxn(s, t, T');
    GetTxn(s, t);
    ReadRec(s.cert, s.words, s.clock, s.txns[t], v);
    hide ReadTxn, RecOk, Updates, Peer;
    forall x | 0 <= x < |s.txns| ensures TxnOk(s', x) {
      assert TxnOk(s, x);
      if x != t { assert s'.txns[x] == s.txns[x]; }
    }
  }

  /** A version was added by transaction t. */
  lemma AddShapes(s: State, t: Tid, T': Txn, U: Version)
    requires Shapes(s) && HasTxn(s, t) && RecOk(s.cert, s.words, s.clock, T')
    requires T'.slot == s.txns[t].slot && T'.got == s.txns[t].got && T'.begin == s.txns[t].begin
    requires LivePc(T'.pc) && LivePc(s.txns[t].pc) && (s.txns[t].st.Cmmtd? ==> T'.st.Cmmtd?)
    requires Touched(T') <= Touched(s.txns[t]) && Made(T') <= Made(s.txns[t]) + {|s.vers|}
    requires Peer(T'.pc).None? && Updates(T'.pc) <= {|s.vers|} && (Updates(T'.pc) != {} ==> U.next.Some?)
    requires U.creator == t
    ensures Shapes(PutTxn(s, t, T').(vers := s.vers + [U]))
  {
    var s' := PutTxn(s, t, T').(vers := s.vers + [U]);
    forall x | 0 <= x < |s.txns| ensures TxnOk(s', x) {
      assert TxnOk(s, x);
      if x != t { assert s'.txns[x] == s.txns[x]; }
    }
  }

  lemma ClaimShapes(s: State, t: Tid, v: Vid)
    requires Shapes(s) && IsIdle(s, t)
    ensures Shapes(PutTxn(s, t, s.txns[t].(pc := Work(WorkAt.Claim(v)))))
  {
    hide Shapes, SetsOk;
    GetTxn(s, t);
    TxnShapes(s, t, s.txns[t].(pc := Work(WorkAt.Claim(v))));
  }

  lemma UpdateShapes(s: State, t: Tid, v: Vid)
    requires Shapes(s) && CanUpdate(s, t, v)
    ensures Shapes(DoUpdate(s, t, v))
  {
    hide Shapes, SetsOk;
    GetTxn(s, t);
    var V, u := s.vers[v], |s.vers|;
    var T := s.txns[t];
    var T' := T.(pc := Work(Installed(u)));
    NewIsFresh(s, t);
    AddShapes(s, t, T', NewVersion(V, t, v));
    var s1 := PutTxn(s, t, T').(vers := s.vers + [NewVersion(V, t, v)]);
    VerShapes(s1, v, V.(over := Some(u)));
    assert s1.vers[v := V.(over := Some(u))] == s.vers[v := V.(over := Some(u))] + [NewVersion(V, t, v)];
  }

  lemma NewIsFresh(s: State, t: Tid)
    requires Shapes(s) && HasTxn(s, t)
    ensures |s.vers| !in s.txns[t].wset
  {
    assert TxnOk(s, t);
    assert s.txns[t].wset <= Made(s.txns[t]);
  }

  lemma InsertShapes(s: State, t: Tid, rec: nat)
    requires Shapes(s) && CanInsert(s, t, rec)
    ensures Shapes(DoInsert(s, t, rec))
  {
    hide Shapes, SetsOk;
    GetTxn(s, t);
    var T := s.txns[t];
    AddShapes(s, t, T.(wset := T.wset + {|s.vers|}), Version(rec, 0, t, Pending, None, None, NoSucc, 0, 0, {}));
  }

  lemma CommitShapes(s: State, t: Tid)
    requires Shapes(s) && HasTxn(s, t)
    ensures IsIdle(s, t) ==> Shapes(PutTxn(s, t, s.txns[t].(st := Committing, pc := Entered)))
    ensures IsIdle(s, t) || s.txns[t].pc.Doomed? ==> Shapes(PutTxn(s, t, AbortTxn(s.cert, s.txns[t])))
  {
    hide Shapes, SetsOk;
    GetTxn(s, t);
    if IsIdle(s, t) { TxnShapes(s, t, s.txns[t].(st := Committing, pc := Entered)); }
    if IsIdle(s, t) || s.txns[t].pc.Doomed? { TxnShapes(s, t, AbortTxn(s.cert, s.txns[t])); }
  }

  lemma ObtainShapes(s: State, t: Tid, d: nat)
    requires Shapes(s) && HasTxn(s, t) && s.txns[t].pc.Entered? && d >= 2
    ensures Shapes(Apply(s, Obtain(t, d)))
  {
    var s' := Apply(s, Obtain(t, d));
    forall x | 0 <= x < |s.txns| ensures TxnOk(s', x) { ObtainTxn(s, t, d, x); }
    hide TxnOk;
    StampBounds(s);
  }

  lemma ObtainTxn(s: State, t: Tid, d: nat, x: Tid)
    requires Shapes(s) && HasTxn(s, t) && HasTxn(s, x) && s.txns[t].pc.Entered? && d >= 2
    ensures TxnOk(Apply(s, Obtain(t, d)), x)
  {
    var s' := Apply(s, Obtain(t, d));
    GetTxn(s, x);
    hide Shapes;
    assert Made(s'.txns[x]) == Made(s.txns[x]) && Touched(s'.txns[x]) == Touched(s.txns[x]);
  }

  /** Every step keeps the shapes. */
  lemma StepShapes(s: State, step: Step)
    requires Shapes(s) && Chains(s) && Enabled(s, step)
    ensures Shapes(Apply(s, step))
  {
    hide Shapes, Chains;
    match step
    case Begin(slot) => BeginShapes(s, slot);
    case Read(t, v) => ReadShapes(s, t, v);
    case Claim(t, v) => ClaimShapes(s, t, v);
    case Update(t, v) => UpdateShapes(s, t, v);
    case Insert(t, rec) => InsertShapes(s, t, rec);
    case Commit(t) => CommitShapes(s, t);
    case Abort(t) => CommitShapes(s, t);
    case Obtain(t, d) => ObtainShapes(s, t, d);
    case Fail(t) => TurnShapes(s, t);
    case Go(t, pick) => GoShapes(s, t, pick);
  }
}
