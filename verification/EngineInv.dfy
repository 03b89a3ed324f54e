/** The invariants of the engine: what is true of transactions and versions at every step. */
module EngineInv {
  import opened Options
  import opened Engine

  // ---------------------------------------------------------------- views of a program counter

  function WorkFocus(w: WorkAt): set<Vid> {
    match w
    case Installed(u) => {u}
    case Marking(u) => {u}
    case Undo(u) => {u}
    case UndoKill(u) => {u}
    case _ => {}
  }

  function ReadFocus(r: ReadAt): set<Vid> {
    match r
    case Next => {}
    case Probe(v, x) => {v}
    case AwaitEnd(v, x) => {v}
    case AwaitFate(v, x, e) => {v}
    case TakeStamp(v, x) => {v}
    case CheckS2(v) => {v}
  }

  function WriteFocus(w: WriteAt): set<Vid> {
    match w
    case Next => {}
    case Scan(u, k, bits, a) => {u}
    case LastXstamp(u) => {u}
  }

  function StampFocus(a: StampAt): set<Vid> {
    match a
    case Next => {}
    case StampSucc(u) => {u}
    case StampS2(u) => {u}
    case StampX(u) => {u}
    case StampClsn(u) => {u}
  }

  function LeaveFocus(l: LeaveAt): set<Vid> {
    match l
    case Next => {}
    case SetX(v) => {v}
    case Look(v) => {v}
    case Older(v, x) => {v}
    case Wait(v, x) => {v}
    case ClearBit(v) => {v}
  }

  function RevertFocus(a: RevertAt): set<Vid> {
    match a
    case Next => {}
    case Unmark(u) => {u}
    case Unlink(u) => {u}
    case Kill(u) => {u}
  }

  predicate LivePc(pc: Pc) { !pc.Retired? && !pc.Freed? }

  predicate DonePc(pc: Pc) { pc.Finished? || pc.Retired? || pc.Freed? }

  /** Past publication of the stamp and before giving up. */
  predicate Certifying(pc: Pc) { pc.Reads? || pc.Writes? || pc.Deciding? || pc.Stamps? || pc.Announce? }

  /** The version is linked but its predecessor does not name the overwriter yet. */
  predicate InUpdate(T: Txn, u: Vid) {
    T.pc.Work? && (T.pc.wat.Installed? || T.pc.wat.Marking? || T.pc.wat.Undo?) && T.pc.wat.u == u
  }

  /** The predecessor no longer names the overwriter, who is about to unlink its version. */
  predicate Unlinking(T: Txn, u: Vid) { T.pc.Revert? && T.pc.bat == Unlink(u) }

  /** Written versions whose predecessor still names this transaction by XID. */
  function SuccPending(T: Txn): set<Vid> {
    match T.pc
    case Stamps(todo, a) => if a.StampSucc? then todo + {a.u} else todo
    case Revert(todo, a) => if a.Unmark? then todo + {a.u} else todo
    case _ => if T.pc.Announce? || T.pc.Leave? || DonePc(T.pc) then {} else T.wset
  }

  /** Versions that still carry this transaction's XID. */
  function ClsnPending(T: Txn): set<Vid> {
    match T.pc
    case Stamps(todo, a) => todo + StampFocus(a)
    case Revert(todo, a) => todo + RevertFocus(a)
    case Work(w) => T.wset + WorkFocus(w)
    case _ => if T.pc.Announce? || T.pc.Leave? || DonePc(T.pc) then {} else T.wset
  }

  /** Read versions whose bitmap still holds this transaction's bit. */
  function Held(T: Txn): set<Vid> {
    match T.pc
    case Leave(todo, l) => todo + LeaveFocus(l)
    case _ => if DonePc(T.pc) then {} else T.rset
  }

  // ---------------------------------------------------------------- one transaction by itself

  predicate StateOk(T: Txn) {
    match T.pc
    case Work(w) => T.st.Active?
    case Doomed => T.st.Active? || T.st.Committing?
    case Leave(todo, l) => T.st.Cmmtd?
    case Forget(todo) => T.st.Abrtd?
    case Revert(todo, a) => T.st.Abrtd?
    case Finished => T.st.Cmmtd? || T.st.Abrtd?
    case Retired => T.st.Cmmtd? || T.st.Abrtd?
    case Freed => T.st.Cmmtd? || T.st.Abrtd?
    case _ => T.st.Committing?
  }

  predicate StampOk(c: Certifier, clock: nat, T: Txn) {
    && (T.st.Active? || T.pc.Entered? ==> T.got == 0)
    && (T.end == 0 || T.end == T.got)
    && (T.pc.Obtained? ==> T.got != 0 && T.end == 0 && T.sstamp <= T.got)
    && (Certifying(T.pc) || T.st.Cmmtd? ==> T.got != 0 && T.end == T.got)
    && T.got <= clock && T.sstamp <= clock && 0 < T.begin <= clock + 1
    && (c.SSN? && (Certifying(T.pc) || T.st.Cmmtd?) ==> 0 < T.sstamp <= T.got)
  }

  /** The sets and targets at the program counter come from the read and write sets, and only
      the certifiers that use a program point reach it. */
  predicate PcOk(c: Certifier, words: nat, T: Txn) {
    match T.pc
    case Work(w) =>
      && WorkFocus(w) !! T.wset && (w.ReadS2? ==> c.SSI?) && (w.ReadSucc? || w.Enlist? ==> !c.MVOCC?)
    case Reads(todo, r) =>
      && todo + ReadFocus(r) <= T.rset && ReadFocus(r) !! todo
      && (r.CheckS2? ==> c.SSI?) && (r.TakeStamp? ==> c.SSN?) && (r.AwaitFate? ==> !c.MVOCC?)
    case Writes(todo, w) =>
      && todo + WriteFocus(w) <= T.wset && WriteFocus(w) !! todo && !c.MVOCC? && (c.SSI? ==> T.ct3 != 0)
      && (w.Scan? ==> w.k <= words)
    case Stamps(todo, a) =>
      && todo + StampFocus(a) <= T.wset && StampFocus(a) !! todo && (a.StampS2? ==> c.SSI?)
    case Leave(todo, l) => todo + LeaveFocus(l) <= T.rset && LeaveFocus(l) !! todo && !c.MVOCC?
    case Forget(todo) => todo <= T.rset && !c.MVOCC?
    case Revert(todo, a) => todo + RevertFocus(a) <= T.wset && RevertFocus(a) !! todo
    case _ => true
  }

  /** Only the stamps, the torn flag and the program counter moved. */
  predicate Advances(T: Txn, T': Txn) {
    T' == T.(pstamp := T'.pstamp, sstamp := T'.sstamp, ct3 := T'.ct3, torn := T'.torn, pc := T'.pc)
  }

  predicate RecOk(c: Certifier, words: nat, clock: nat, T: Txn) {
    && StateOk(T) && StampOk(c, clock, T) && PcOk(c, words, T)
    && T.slot < 64 * words && T.rset <= T.seen && (c.MVOCC? ==> T.rset == T.seen)
  }

  // ---------------------------------------------------------------- transactions and versions

  /** Versions a transaction is reading or has read. */
  function Touched(T: Txn): set<Vid> {
    match T.pc
    case Work(w) =>
      (match w
       case ReadS2(v) => T.seen + {v}
       case ReadSucc(v) => T.seen + {v}
       case Enlist(v) => T.seen + {v}
       case _ => T.seen)
    case _ => T.seen
  }

  /** Versions a transaction created, linked or not. */
  function Made(T: Txn): set<Vid> {
    match T.pc
    case Work(w) => T.wset + WorkFocus(w)
    case _ => T.wset
  }

  ghost predicate SetsOk(s: State, t: Tid)
    requires HasTxn(s, t)
  {
    var T := s.txns[t];
    && (forall v :: v in Touched(T) ==> HasVer(s, v) && Visible(s.vers[v], T.begin))
    && (forall u :: u in Made(T) ==> HasVer(s, u) && s.vers[u].creator == t)
  }

  /** The other transaction at the program counter. */
  function Peer(pc: Pc): Option<Tid> {
    match pc
    case Reads(todo, r) =>
      (match r
       case Probe(v, x) => Some(x)
       case AwaitEnd(v, x) => Some(x)
       case AwaitFate(v, x, e) => Some(x)
       case TakeStamp(v, x) => Some(x)
       case _ => None)
    case Writes(todo, w) =>
      (match w
       case Scan(u, k, bits, a) =>
         (match a
          case Bits => None
          case Occupant(r) => Some(r)
          case ReaderEnd(r, rst) => Some(r)
          case AwaitReaderEnd(r) => Some(r)
          case AwaitReaderFate(r, e) => Some(r))
       case _ => None)
    case Leave(todo, l) =>
      (match l
       case Older(v, x) => Some(x)
       case Wait(v, x) => Some(x)
       case _ => None)
    case _ => None
  }

  /** Versions at the program counter that overwrite something. */
  function Updates(pc: Pc): set<Vid> {
    match pc
    case Work(w) => if w.UndoKill? then {} else WorkFocus(w)
    case Writes(todo, w) => WriteFocus(w)
    case Stamps(todo, a) => if a.StampSucc? || a.StampS2? then {a.u} else {}
    case Revert(todo, a) => if a.Unmark? || a.Unlink? then {a.u} else {}
    case _ => {}
  }

  ghost predicate TargetsOk(s: State, t: Tid)
    requires HasTxn(s, t)
  {
    var pc := s.txns[t].pc;
    && (Peer(pc).Some? ==> HasTxn(s, Peer(pc).value))
    && (forall u :: u in Updates(pc) ==> HasVer(s, u) && s.vers[u].next.Some?)
    && (pc.Reads? && pc.rat.TakeStamp? ==> HasTxn(s, pc.rat.x) && s.txns[pc.rat.x].st.Cmmtd?)
  }

  ghost predicate TxnOk(s: State, t: Tid)
    requires HasTxn(s, t)
  {
    RecOk(s.cert, s.words, s.clock, s.txns[t]) && SetsOk(s, t) && TargetsOk(s, t)
  }

  /** A slot names at most one live transaction, and rlist.xids knows which. */
  ghost predicate SlotsOk(s: State) {
    && (forall t :: 0 <= t < |s.txns| && LivePc(s.txns[t].pc) ==>
          s.txns[t].slot in s.xids && s.xids[s.txns[t].slot] == t)
    && (forall b :: b in s.xids ==>
          HasTxn(s, s.xids[b]) && LivePc(s.txns[s.xids[b]].pc) && s.txns[s.xids[b]].slot == b)
  }

  /** Commit stamps are unique, and no begin stamp coincides with one. */
  ghost predicate StampsApart(s: State) {
    && (forall t, x :: 0 <= t < |s.txns| && 0 <= x < |s.txns| && t != x && s.txns[t].got != 0 ==>
          s.txns[t].got != s.txns[x].got)
    && (forall t, x :: 0 <= t < |s.txns| && 0 <= x < |s.txns| ==> s.txns[t].begin != s.txns[x].got)
  }

  ghost predicate Shapes(s: State) {
    && s.words > 0
    && (forall t :: 0 <= t < |s.txns| ==> TxnOk(s, t))
    && SlotsOk(s)
    && StampsApart(s)
  }

  // ---------------------------------------------------------------- version chains

  /** What the successor field of v says about the version on top of it. */
  ghost predicate LinkOk(s: State, v: Vid)
    requires HasVer(s, v)
  {
    var V := s.vers[v];
    match V.over
    case None => V.sstamp == NoSucc
    case Some(u) =>
      && HasVer(s, u) && s.vers[u].next == Some(v) && HasTxn(s, s.vers[u].creator)
      && var x := s.vers[u].creator;
         var X := s.txns[x];
         if InUpdate(X, u) then V.sstamp == NoSucc
         else if u in SuccPending(X) then V.sstamp == ByXid(x)
         else if Decided(X) then u in X.wset && V.sstamp == ByLog(Legacy(s.cert, X))
         else Unlinking(X, u) && V.sstamp == NoSucc
  }

  /** Transaction T keeps its version u linked on top of the chain below it. */
  predicate Holds(T: Txn, u: Vid) {
    InUpdate(T, u) || u in SuccPending(T) || (Decided(T) && u in T.wset) || Unlinking(T, u)
  }

  ghost predicate TopOk(s: State, u: Vid)
    requires HasVer(s, u)
  {
    var U := s.vers[u];
    && HasTxn(s, U.creator)
    && match U.next
       case None => U.depth == 0
       case Some(v) =>
         && v < u && s.vers[v].clsn.Stamped? && s.vers[v].rec == U.rec && s.vers[v].depth + 1 == U.depth
         && (Holds(s.txns[U.creator], u) ==> s.vers[v].over == Some(u))
  }

  ghost predicate CreationOk(s: State, u: Vid)
    requires HasVer(s, u)
  {
    var U := s.vers[u];
    && HasTxn(s, U.creator)
    && var X := s.txns[U.creator];
       && (U.clsn.Pending? <==> u in ClsnPending(X))
       && (U.clsn.Stamped? <==> Decided(X) && u in X.wset && u !in ClsnPending(X))
       && (U.clsn.Stamped? ==> U.clsn.n == X.got && U.xstamp >= X.got)
       && (X.pc.Stamps? && X.pc.sat == StampClsn(u) ==> U.xstamp >= X.got)
  }

  ghost predicate Chains(s: State) {
    forall v :: 0 <= v < |s.vers| ==> LinkOk(s, v) && TopOk(s, v) && CreationOk(s, v)
  }
}
