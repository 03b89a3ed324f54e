/** Readers stay visible: a tracked read keeps its bit until the version's xstamp covers it. */
module EngineBits {
  import opened Engine
  import opened EngineInv
  import opened EngineShapes
  import opened EngineGuar

  /** Read versions that already carry the reader's stamp although the bit is still set. */
  function Branded(c: Certifier, pc: Pc): set<Vid> {
    if pc.Leave? && (pc.lat.ClearBit? || (c.SSI? && (pc.lat.Look? || pc.lat.Older? || pc.lat.Wait?)))
    then {pc.lat.v} else {}
  }

  ghost predicate BitsOf(s: State, t: Tid)
    requires HasTxn(s, t)
  {
    var T := s.txns[t];
    !s.cert.MVOCC? && !T.st.Abrtd? ==>
      forall v :: v in T.rset && HasVer(s, v) ==>
        && (v in Held(T) ==> T.slot in s.vers[v].readers)
        && (v !in Held(T) ==> T.st.Cmmtd?)
        && (v !in Held(T) || v in Branded(s.cert, T.pc) ==> s.vers[v].xstamp >= T.got)
  }

  ghost predicate BitSide(s: State) { forall t :: 0 <= t < |s.txns| ==> BitsOf(s, t) }

  lemma GetBits(s: State, t: Tid)
    requires BitSide(s) && HasTxn(s, t)
    ensures BitsOf(s, t)
  {
  }

  lemma AllBits(s: State)
    requires forall t :: 0 <= t < |s.txns| ==> BitsOf(s, t)
    ensures BitSide(s)
  {
  }

  lemma ReadsStamped(s: State, x: Tid, v: Vid)
    requires Shapes(s) && HasTxn(s, x) && v in s.txns[x].seen
    ensures HasVer(s, v) && s.vers[v].clsn.Stamped? && s.vers[v].clsn.n <= s.txns[x].begin
    ensures v in s.txns[x].rset ==> v in s.txns[x].seen
  {
    assert TxnOk(s, x);
    assert v in Touched(s.txns[x]);
  }

  lemma CreatedByNow(s: State, v: Vid)
    requires Shapes(s) && Chains(s) && HasVer(s, v) && s.vers[v].clsn.Stamped?
    ensures s.vers[v].clsn.n <= s.clock && s.vers[v].clsn.n <= s.vers[v].xstamp
  {
    hide Shapes;
    assert CreationOk(s, v);
    StatesAre(s, s.vers[v].creator);
  }

  lemma RsetSeen(s: State, x: Tid)
    requires Shapes(s) && HasTxn(s, x)
    ensures s.txns[x].rset <= s.txns[x].seen
  {
    assert TxnOk(s, x);
  }

  /** A step of t does not disturb another reader. */
  lemma OthersBits(s: State, s': State, t: Tid, x: Tid)
    requires Shapes(s) && Guar(s, s', t) && HasTxn(s, x) && x != t && BitsOf(s, x)
    ensures BitsOf(s', x)
  {
    hide Shapes;
    RsetSeen(s, x);
    GetSlots(s);
    forall v | v in s.txns[x].rset && HasVer(s', v)
      ensures HasVer(s, v) && s.vers[v].clsn.Stamped? && VerGuar(s, s', t, v)
    {
      ReadsStamped(s, x, v);
    }
    assert Held(s.txns[x]) != {} ==> LivePc(s.txns[x].pc);
  }

  /** t keeps its read set and its bits. */
  lemma SameBits(s: State, s': State, t: Tid)
    requires Shapes(s) && Guar(s, s', t) && BitsOf(s, t)
    requires var T, T' := s.txns[t], s'.txns[t];
      && T'.rset == T.rset && Held(T') == Held(T)
      && Branded(s.cert, T'.pc) <= Branded(s.cert, T.pc)
      && !BitMove(T.pc) && (T.st.Cmmtd? ==> T'.got == T.got)
    ensures BitsOf(s', t)
  {
    hide Shapes;
    StatesAre(s, t);
    RsetSeen(s, t);
    forall v | v in s.txns[t].rset && HasVer(s', v)
      ensures HasVer(s, v) && s.vers[v].clsn.Stamped? && VerGuar(s, s', t, v)
    {
      ReadsStamped(s, t, v);
    }
  }

  /** The steps that set a bit, stamp a read version or clear a bit. */
  lemma EnlistBits(s: State, t: Tid, v: Vid)
    requires Shapes(s) && Chains(s) && HasTxn(s, t) && s.txns[t].pc == Work(Enlist(v)) && HasVer(s, v) && BitsOf(s, t)
    ensures BitsOf(DoWork(s, t, Enlist(v), 0), t)
  {
    hide Shapes, Chains;
    StatesAre(s, t);
  }

  lemma SetXBits(s: State, t: Tid, todo: set<Vid>, v: Vid)
    requires Shapes(s) && HasTxn(s, t) && s.txns[t].pc == Leave(todo, SetX(v)) && HasVer(s, v) && BitsOf(s, t)
    ensures BitsOf(DoLeave(s, t, todo, SetX(v), 0), t)
  {
    hide Shapes;
    StatesAre(s, t);
  }

  lemma LeaveTodo(s: State, t: Tid)
    requires Shapes(s) && HasTxn(s, t) && s.txns[t].pc.Leave?
    ensures LeaveFocus(s.txns[t].pc.lat) !! s.txns[t].pc.todo && !s.cert.MVOCC?
  {
    assert TxnOk(s, t);
  }

  lemma ClearBits(s: State, t: Tid, todo: set<Vid>, v: Vid)
    requires Shapes(s) && HasTxn(s, t) && s.txns[t].pc == Leave(todo, ClearBit(v)) && HasVer(s, v) && BitsOf(s, t)
    ensures BitsOf(DoLeave(s, t, todo, ClearBit(v), 0), t)
  {
    hide Shapes;
    StatesAre(s, t);
    LeaveTodo(s, t);
  }

  lemma LeaveBits(s: State, t: Tid, todo: set<Vid>, l: LeaveAt, pick: nat)
    requires Shapes(s) && Chains(s) && HasTxn(s, t) && s.txns[t].pc == Leave(todo, l) && CanLeave(s, todo, l, pick)
    requires BitsOf(s, t)
    ensures BitsOf(DoLeave(s, t, todo, l, pick), t)
  {
    hide Shapes, Chains, BitsOf;
    match l
    case SetX(v) => SetXBits(s, t, todo, v);
    case ClearBit(v) => ClearBits(s, t, todo, v);
    case _ =>
      LeaveTodo(s, t);
      LeaveGuar(s, t, todo, l, pick);
      SameBits(s, DoLeave(s, t, todo, l, pick), t);
  }

  /** Before leaving, a transaction holds a bit on everything it tracks. */
  predicate Holding(pc: Pc) { !pc.Leave? && !DonePc(pc) }

  lemma HoldingBits(s: State, s': State, t: Tid)
    requires Shapes(s) && Guar(s, s', t) && BitsOf(s, t)
    requires var T, T' := s.txns[t], s'.txns[t];
      && Holding(T.pc) && !T.pc.Forget? && T'.rset == T.rset
      && (Holding(T'.pc) || T'.pc == Leave(T'.rset, LeaveAt.Next) || T'.st.Abrtd? || s.cert.MVOCC?)
    ensures BitsOf(s', t)
  {
    hide Shapes;
    StatesAre(s, t);
    if !s'.txns[t].st.Abrtd? && !s.cert.MVOCC? {
      hide BitsOf, Guar;
      SameBits(s, s', t);
    }
  }

  /** Reads, writes and decisions leave the read set alone. */
  lemma CommitBits(s: State, t: Tid, pick: nat)
    requires Shapes(s) && Chains(s) && CanGo(s, t, pick) && BitsOf(s, t)
    requires var pc := s.txns[t].pc;
      pc.Obtained? || pc.Reads? || pc.Writes? || pc.Deciding? || pc.Stamps? || pc.Announce?
    ensures BitsOf(DoGo(s, t, pick), t)
  {
    hide Shapes, Chains, BitsOf, Guar, RecOk, TargetsFor;
    GoGuar(s, t, pick);
    var pc := s.txns[t].pc;
    if pc.Reads? { ReadsTargets(s, t, pc.todo, pc.rat, pick); }
    if pc.Writes? { WritesForm(s, t, pc.todo, pc.uat, pick); }
    HoldingBits(s, DoGo(s, t, pick), t);
  }

  lemma WorkBits(s: State, t: Tid, w: WorkAt, pick: nat)
    requires Shapes(s) && Chains(s) && HasTxn(s, t) && s.txns[t].pc == Work(w) && CanWork(s, w) && BitsOf(s, t)
    ensures BitsOf(DoWork(s, t, w, pick), t)
  {
    hide Shapes, Chains, BitsOf, Guar;
    if w.Enlist? {
      EnlistBits(s, t, w.v);
    } else {
      WorkGuar(s, t, w, pick);
      HoldingBits(s, DoWork(s, t, w, pick), t);
    }
  }

  lemma GoBits(s: State, t: Tid, pick: nat)
    requires Shapes(s) && Chains(s) && CanGo(s, t, pick) && BitsOf(s, t)
    ensures BitsOf(DoGo(s, t, pick), t)
  {
    hide Shapes, Chains, BitsOf, Guar;
    var pc := s.txns[t].pc;
    if pc.Work? { WorkBits(s, t, pc.wat, pick); }
    else if pc.Leave? { LeaveBits(s, t, pc.todo, pc.lat, pick); }
    else if pc.Finished? || pc.Retired? {
      GoGuar(s, t, pick);
      SameBits(s, DoGo(s, t, pick), t);
    }
    else if pc.Forget? || pc.Revert? { AbortedBits(s, t, pick); }
    else { CommitBits(s, t, pick); }
  }

  lemma AbortedBits(s: State, t: Tid, pick: nat)
    requires Shapes(s) && Chains(s) && CanGo(s, t, pick) && (s.txns[t].pc.Forget? || s.txns[t].pc.Revert?)
    ensures BitsOf(DoGo(s, t, pick), t)
  {
    hide Shapes, Chains;
    StatesAre(s, t);
  }

  /** Every step keeps every reader visible. */
  lemma StepBits(s: State, step: Step)
    requires Shapes(s) && Chains(s) && BitSide(s) && Enabled(s, step)
    ensures BitSide(Apply(s, step))
  {
    hide Shapes, Chains, BitSide, BitsOf, Guar;
    var s' := Apply(s, step);
    if step.Begin? {
      BeginBits(s, step.slot);
    } else {
      var t := step.t;
      StepGuar(s, step);
      GetBits(s, t);
      match step {
        case Go(_, pick) => GoBits(s, t, pick);
        case Read(_, v) => if !s.cert.MVOCC? { HoldingBits(s, s', t); } else { FreeBits(s', t); }
        case _ => HoldingBits(s, s', t);
      }
      forall x | 0 <= x < |s'.txns| ensures BitsOf(s', x) {
        if x != t {
          SameCount(s, s', t);
          GetBits(s, x);
          OthersBits(s, s', t, x);
        }
      }
      AllBits(s');
    }
  }

  lemma SameCount(s: State, s': State, t: Tid)
    requires Guar(s, s', t)
    ensures |s'.txns| == |s.txns| && s'.cert == s.cert
  {
  }

  lemma FreeBits(s: State, t: Tid)
    requires HasTxn(s, t) && s.cert.MVOCC?
    ensures BitsOf(s, t)
  {
  }

  lemma BeginBits(s: State, slot: Slot)
    requires BitSide(s)
    ensures BitSide(DoBegin(s, slot))
  {
    hide BitSide;
    var s' := DoBegin(s, slot);
    forall x | 0 <= x < |s'.txns| ensures BitsOf(s', x) {
      if x < |s.txns| { GetBits(s, x); }
    }
    AllBits(s');
  }
}
