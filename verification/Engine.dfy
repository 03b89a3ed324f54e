/** The multi-version transaction engine of txn.cc, as a machine that takes one
    shared-memory access per step.

    The three certifiers share one machine, as they share one source file: SSN
    and SSI track readers in per-version bitmaps, MVOCC only validates its reads.
    Any number of transactions run at once; each carries a program counter that
    says which access of txn.cc it performs next.  A loop over a read set or a
    write set keeps the part still to visit in a `todo` set and visits it in any
    order.  A loop that spins is a step that is enabled only once the spin ends.

    "Copy the fields, then verify the owner" sequences are one step at the moment
    of the last field read: a failed verification has the effect of performing
    that step after the context was freed. */
module Engine {
  import opened Options

  type Tid = nat    // transactions, by order of creation (XIDs are never reused)
  type Vid = nat    // versions, by order of creation
  type Slot = nat   // one bit position per worker thread

  datatype Certifier = SSN | SSI | MVOCC

  datatype TxnState = Active | Committing | Cmmtd | Abrtd

  /** dbtuple::sstamp: nothing, the XID of an overwriter, or a final stamp. */
  datatype Successor = NoSucc | ByXid(t: Tid) | ByLog(stamp: nat)

  /** Object::_clsn: unlinked, the XID of the creator, or its commit stamp. */
  datatype Creation = Dead | Pending | Stamped(n: nat)

  /** `next` is the overwritten version; `over` is the version linked on top. */
  datatype Version = Version(
    rec: nat,
    depth: nat,
    creator: Tid,
    clsn: Creation,
    next: Option<Vid>,
    over: Option<Vid>,
    sstamp: Successor,
    xstamp: nat,
    s2: nat,
    readers: set<Slot>)

  // Program counters, phase by phase.  `Next` is the head of the phase's loop.

  datatype WorkAt =
    | Idle
    | ReadS2(v: Vid)
    | ReadSucc(v: Vid)
    | Enlist(v: Vid)
    | Claim(v: Vid)
    | Swap(v: Vid)
    | Installed(u: Vid)
    | Marking(u: Vid)
    | Undo(u: Vid)
    | UndoKill(u: Vid)

  datatype ReadAt =
    | Next
    | Probe(v: Vid, x: Tid)
    | AwaitEnd(v: Vid, x: Tid)
    | AwaitFate(v: Vid, x: Tid, e: nat)
    | TakeStamp(v: Vid, x: Tid)
    | CheckS2(v: Vid)

  datatype ScanAt =
    | Bits
    | Occupant(r: Tid)
    | ReaderEnd(r: Tid, rst: TxnState)
    | AwaitReaderEnd(r: Tid)
    | AwaitReaderFate(r: Tid, e: nat)

  /** Scanning the bitmap below u: `k` words were copied, `bits` are still to examine. */
  datatype WriteAt =
    | Next
    | Scan(u: Vid, k: nat, bits: set<Slot>, at: ScanAt)
    | LastXstamp(u: Vid)

  datatype StampAt =
    | Next
    | StampSucc(u: Vid)
    | StampS2(u: Vid)
    | StampX(u: Vid)
    | StampClsn(u: Vid)

  datatype LeaveAt =
    | Next
    | SetX(v: Vid)
    | Look(v: Vid)
    | Older(v: Vid, x: Tid)
    | Wait(v: Vid, x: Tid)
    | ClearBit(v: Vid)

  datatype RevertAt =
    | Next
    | Unmark(u: Vid)
    | Unlink(u: Vid)
    | Kill(u: Vid)

  datatype Pc =
    | Work(wat: WorkAt)                              // ACTIVE
    | Entered                                        // COMMITTING, no stamp yet
    | Obtained                                       // stamp taken, not published
    | Reads(todo: set<Vid>, rat: ReadAt)             // pre-commit: read set
    | Writes(todo: set<Vid>, uat: WriteAt)           // pre-commit: write set
    | Deciding
    | Stamps(todo: set<Vid>, sat: StampAt)           // post-commit: write set
    | Announce                                       // about to store CMMTD
    | Leave(todo: set<Vid>, lat: LeaveAt)            // post-commit: read set
    | Doomed                                         // an abort code was returned
    | Forget(todo: set<Vid>)                         // Abort: read set
    | Revert(todo: set<Vid>, bat: RevertAt)          // Abort: write set
    | Finished
    | Retired                                        // left rlist.xids
    | Freed                                          // context given back

  /** xid_context plus the read and write sets.  `got` is the commit stamp from
      the moment it is taken; `end` is the published copy.  `seen` holds every
      version the transaction read, tracked in the read set `rset` or not.  `torn`
      records what the transaction observed; no step looks at it. */
  datatype Txn = Txn(
    slot: Slot,
    st: TxnState,
    begin: nat,
    got: nat,
    end: nat,
    pstamp: nat,
    sstamp: nat,
    ct3: nat,
    seen: set<Vid>,
    rset: set<Vid>,
    wset: set<Vid>,
    torn: bool,
    pc: Pc)

  /** `words` is the number of bitmap words in use; `clock` the last stamp handed out. */
  datatype State = State(
    cert: Certifier,
    words: nat,
    clock: nat,
    txns: seq<Txn>,
    vers: seq<Version>,
    xids: map<Slot, Tid>)

  datatype Step =
    | Begin(slot: Slot)
    | Read(t: Tid, v: Vid)
    | Claim(t: Tid, v: Vid)
    | Update(t: Tid, v: Vid)
    | Insert(t: Tid, rec: nat)
    | Commit(t: Tid)
    | Abort(t: Tid)
    | Obtain(t: Tid, d: nat)
    | Fail(t: Tid)
    | Go(t: Tid, pick: nat)

  function Max(a: nat, b: nat): nat { if a < b then b else a }

  function Min(a: nat, b: nat): nat { if a < b then a else b }

  /** Smallest non-zero stamp, zero meaning "none yet". */
  function Least(a: nat, b: nat): nat { if a == 0 || b < a then b else a }

  predicate HasTxn(s: State, t: Tid) { t < |s.txns| }

  predicate HasVer(s: State, v: Vid) { v < |s.vers| }

  function PutTxn(s: State, t: Tid, T: Txn): State
    requires HasTxn(s, t)
  {
    s.(txns := s.txns[t := T])
  }

  function PutVer(s: State, v: Vid, V: Version): State
    requires HasVer(s, v)
  {
    s.(vers := s.vers[v := V])
  }

  predicate HasNext(s: State, u: Vid) {
    HasVer(s, u) && s.vers[u].next.Some? && HasVer(s, s.vers[u].next.value)
  }

  function Prev(s: State, u: Vid): Vid
    requires HasNext(s, u)
  {
    s.vers[u].next.value
  }

  /** The transaction whose version lies on top of v. */
  function OverBy(s: State, v: Vid): Option<Tid>
    requires HasVer(s, v)
  {
    match s.vers[v].over
    case None => None
    case Some(u) => if HasVer(s, u) then Some(s.vers[u].creator) else None
  }

  /** ssn_check_exclusion fails (serial.h:14-24). */
  predicate Excluded(c: Certifier, T: Txn) {
    c.SSN? && T.sstamp != 0 && T.pstamp >= T.sstamp
  }

  /** Continue at `pc`, or give up when the exclusion window is violated. */
  function Settle(c: Certifier, T: Txn, pc: Pc): Txn {
    T.(pc := if Excluded(c, T) then Doomed else pc)
  }

  /** The transaction can no longer abort. */
  predicate Decided(T: Txn) { T.st.Cmmtd? || T.pc.Stamps? || T.pc.Announce? }

  /** The successor stamp that a committed transaction leaves behind. */
  function Legacy(c: Certifier, T: Txn): nat { if c.SSN? then T.sstamp else T.got }

  /** Visibility test of the primary (sm-oid.cpp:1013-1109): stamped no later than `begin`. */
  predicate Visible(V: Version, begin: nat) { V.clsn.Stamped? && V.clsn.n <= begin }

  /** A zero s2 is taken for v although v's overwriter, committed before t, is a pivot: it read what a
      transaction that committed before it has overwritten. */
  predicate MissesS2(s: State, t: Tid, v: Vid)
    requires HasTxn(s, t) && HasVer(s, v)
  {
    match OverBy(s, v)
    case None => false
    case Some(x) =>
      && HasTxn(s, x) && x != t && Decided(s.txns[x]) && 0 < s.txns[x].ct3 < s.txns[x].got
      && (s.txns[t].got == 0 || s.txns[x].got < s.txns[t].got)
  }

  // ---------------------------------------------------------------- client operations

  function NewTxn(slot: Slot, clock: nat): Txn {
    Txn(slot, Active, clock + 1, 0, 0, 0, 0, 0, {}, {}, {}, false, Work(Idle))
  }

  /** initialize_read_write (txn.cc:30-86). */
  function DoBegin(s: State, slot: Slot): State {
    s.(txns := s.txns + [NewTxn(slot, s.clock)], xids := s.xids[slot := |s.txns|])
  }

  predicate IsIdle(s: State, t: Tid) { HasTxn(s, t) && s.txns[t].pc == Work(Idle) }

  /** The version chosen is visible, and the one on top of it is not (sm-oid.cpp:963-1011). */
  predicate CanRead(s: State, t: Tid, v: Vid) {
    && IsIdle(s, t) && HasVer(s, v)
    && Visible(s.vers[v], s.txns[t].begin)
    && match s.vers[v].over
       case None => true
       case Some(u) =>
         HasVer(s, u) && s.vers[u].creator != t && !Visible(s.vers[u], s.txns[t].begin)
  }

  function ReadTxn(c: Certifier, T: Txn, v: Vid): Txn {
    match c
    case SSN => T.(pc := Work(ReadSucc(v)))
    case SSI => T.(pc := Work(ReadS2(v)))
    case MVOCC => T.(rset := T.rset + {v}, seen := T.seen + {v})
  }

  function DoRead(s: State, t: Tid, v: Vid): State
    requires CanRead(s, t, v)
  {
    PutTxn(s, t, ReadTxn(s.cert, s.txns[t], v))
  }

  /** An updater finds the XID of another transaction in the head of the chain (sm-oid.cpp:687-727). */
  predicate CanClaim(s: State, t: Tid, v: Vid) {
    IsIdle(s, t) && HasVer(s, v) && s.vers[v].over.None? && s.vers[v].clsn.Pending? && s.vers[v].creator != t
  }

  /** Compare-and-swap on the head of the chain (sm-oid.cpp:672-789).  A head that carries a stamp must be
      older than the updater's begin: first updater wins.  An updater that found an XID has gone by the state of
      its owner instead, and that test is skipped; by then the head carries a stamp (EngineRuns.SwapStamped). */
  predicate CanUpdate(s: State, t: Tid, v: Vid) {
    && HasTxn(s, t) && HasVer(s, v) && s.vers[v].over.None? && s.vers[v].clsn.Stamped?
    && ((s.txns[t].pc == Work(Idle) && s.vers[v].clsn.n < s.txns[t].begin) || s.txns[t].pc == Work(Swap(v)))
  }

  function NewVersion(V: Version, t: Tid, v: Vid): Version {
    Version(V.rec, V.depth + 1, t, Pending, Some(v), None, NoSucc, 0, 0, {})
  }

  function DoUpdate(s: State, t: Tid, v: Vid): State
    requires CanUpdate(s, t, v)
  {
    var T, V, u := s.txns[t], s.vers[v], |s.vers|;
    s.(txns := s.txns[t := T.(pc := Work(Installed(u)))],
       vers := s.vers[v := V.(over := Some(u))] + [NewVersion(V, t, v)])
  }

  /** PrepareInsert and FinishInsert (txn.cc:1332-1437), on a fresh OID. */
  predicate CanInsert(s: State, t: Tid, rec: nat) {
    IsIdle(s, t) && forall v :: 0 <= v < |s.vers| ==> s.vers[v].rec != rec
  }

  function DoInsert(s: State, t: Tid, rec: nat): State
    requires CanInsert(s, t, rec)
  {
    var T := s.txns[t];
    s.(txns := s.txns[t := T.(wset := T.wset + {|s.vers|})],
       vers := s.vers + [Version(rec, 0, t, Pending, None, None, NoSucc, 0, 0, {})])
  }

  // ---------------------------------------------------------------- reads and updates

  /** ssn_read (txn.cc:1476-1526), up to the decision to track the read. */
  function SsnRead(T: Txn, t: Tid, v: Vid, V: Version): Txn {
    var T1 := T.(pstamp := if V.clsn.Stamped? then Max(T.pstamp, V.clsn.n) else T.pstamp);
    match V.sstamp
    case ByLog(k) => Settle(SSN, T1.(sstamp := Least(T.sstamp, k), seen := T.seen + {v}), Work(Idle))
    case ByXid(x) =>
      if x == t then T1.(seen := T.seen + {v}, pc := Work(Idle)) else T1.(pc := Work(Enlist(v)))
    case NoSucc => T1.(pc := Work(Enlist(v)))
  }

  /** ssi_read after its s2 test (txn.cc:1546-1566). */
  function SsiRead(T: Txn, v: Vid, V: Version, misses: bool): Txn {
    if V.sstamp.ByLog?
    then T.(ct3 := Least(T.ct3, V.sstamp.stamp), seen := T.seen + {v}, torn := T.torn || misses, pc := Work(Idle))
    else T.(pc := Work(Enlist(v)))
  }

  function EnlistTxn(c: Certifier, T: Txn, v: Vid): Txn {
    Settle(c, T.(rset := T.rset + {v}, seen := T.seen + {v}), Work(Idle))
  }

  /** Update: account for earlier readers, or give up early (txn.cc:1180-1253). */
  function InstalledTxn(c: Certifier, T: Txn, u: Vid, V: Version, quit: bool): Txn {
    var T1 := if c.SSN? then T.(pstamp := Max(T.pstamp, V.xstamp)) else T;
    T1.(pc := Work(if Excluded(c, T1) || (c.SSI? && T.ct3 != 0 && quit) then Undo(u) else Marking(u)))
  }

  function ClaimTxn(T: Txn, v: Vid, X: Txn): Txn {
    T.(pc := if X.pc.Freed? then Work(Idle) else if X.st.Cmmtd? then Work(Swap(v)) else Doomed)
  }

  predicate CanWork(s: State, w: WorkAt) {
    match w
    case Idle => false
    case ReadS2(v) => HasVer(s, v)
    case ReadSucc(v) => HasVer(s, v)
    case Enlist(v) => HasVer(s, v)
    case Claim(v) => HasVer(s, v) && HasTxn(s, s.vers[v].creator)
    case Swap(v) => HasVer(s, v) && s.vers[v].over.Some?
    case Installed(u) => HasNext(s, u)
    case Marking(u) => HasNext(s, u)
    case Undo(u) => HasNext(s, u)
    case UndoKill(u) => HasVer(s, u)
  }

  function DoWork(s: State, t: Tid, w: WorkAt, pick: nat): State
    requires HasTxn(s, t) && CanWork(s, w)
  {
    var T := s.txns[t];
    match w
    case ReadS2(v) =>   // txn.cc:1535-1544
      PutTxn(s, t, T.(pc := if s.vers[v].s2 != 0 then Doomed else Work(ReadSucc(v))))
    case ReadSucc(v) =>
      PutTxn(s, t, if s.cert.SSN? then SsnRead(T, t, v, s.vers[v])
                   else SsiRead(T, v, s.vers[v], MissesS2(s, t, v)))
    case Enlist(v) =>   // serial_register_reader_tx (serial.cpp:219-231)
      PutVer(PutTxn(s, t, EnlistTxn(s.cert, T, v)), v, s.vers[v].(readers := s.vers[v].readers + {T.slot}))
    case Claim(v) =>    // the state of the owner: start over, install, or give up (sm-oid.cpp:711-738)
      PutTxn(s, t, ClaimTxn(T, v, s.txns[s.vers[v].creator]))
    case Swap(v) =>     // somebody else was faster (sm-oid.cpp:784-788)
      PutTxn(s, t, T.(pc := Doomed))
    case Installed(u) => PutTxn(s, t, InstalledTxn(s.cert, T, u, s.vers[Prev(s, u)], pick != 0))
    case Marking(u) =>  // txn.cc:1273-1278
      PutVer(PutTxn(s, t, T.(wset := T.wset + {u}, pc := Work(Idle))),
             Prev(s, u), s.vers[Prev(s, u)].(sstamp := ByXid(t)))
    case Undo(u) =>
      PutVer(PutTxn(s, t, T.(pc := Work(UndoKill(u)))), Prev(s, u), s.vers[Prev(s, u)].(over := None))
    case UndoKill(u) => PutVer(PutTxn(s, t, T.(pc := Doomed)), u, s.vers[u].(clsn := Dead))
  }

  // ---------------------------------------------------------------- pre-commit: read set

  /** Store the stamp in the context (txn.cc:175, 205-219). */
  function PublishTxn(c: Certifier, T: Txn): Txn {
    T.(end := T.got, pc := Reads(T.rset, ReadAt.Next),
       sstamp := if c.SSN? && T.sstamp == 0 then T.got else T.sstamp)
  }

  /** All reads were examined; SSI looks at its writes only as a possible pivot (txn.cc:333, 792). */
  function ReadsDone(c: Certifier, T: Txn): Txn {
    T.(pc := if c.SSN? || (c.SSI? && T.ct3 != 0) then Writes(T.wset, WriteAt.Next) else Deciding)
  }

  /** One read version's successor field (txn.cc:228-242, 709-728, 1004-1026). */
  function LookAtSucc(c: Certifier, T: Txn, t: Tid, todo: set<Vid>, v: Vid, S: Successor): Txn {
    match S
    case NoSucc => T.(pc := Reads(todo, ReadAt.Next))
    case ByXid(x) => T.(pc := Reads(todo, if c.SSI? && x == t then ReadAt.Next else Probe(v, x)))
    case ByLog(k) =>
      match c
      case SSN => Settle(c, T.(sstamp := Min(T.sstamp, k)), Reads(todo, ReadAt.Next))
      case SSI => T.(ct3 := Least(T.ct3, k), pc := Reads(todo, CheckS2(v)))
      case MVOCC => T.(pc := if k < T.got then Doomed else Reads(todo, ReadAt.Next))
  }

  /** The overwriter's state, then its owner (txn.cc:247-273, 726-746, 1020-1034). */
  function ProbeSucc(T: Txn, t: Tid, todo: set<Vid>, v: Vid, x: Tid, X: Txn): Txn {
    T.(pc :=
      if X.pc.Freed? then Reads(todo + {v}, ReadAt.Next)
      else if x == t || X.st.Active? then Reads(todo, ReadAt.Next)
      else Reads(todo, AwaitEnd(v, x)))
  }

  predicate EndKnown(X: Txn) { X.pc.Freed? || X.st.Abrtd? || X.end != 0 }

  predicate FateKnown(X: Txn) { X.pc.Freed? || X.st.Abrtd? || X.st.Cmmtd? }

  /** The overwriter's stamp, once published (txn.cc:276-309, 747-774, 1037-1059). */
  function SuccEnd(c: Certifier, T: Txn, todo: set<Vid>, v: Vid, x: Tid, X: Txn): Txn {
    T.(pc :=
      if X.pc.Freed? then Reads(todo + {v}, ReadAt.Next)
      else if X.st.Abrtd? then Reads(todo, ReadAt.Next)
      else if c.MVOCC? then (if X.end < T.got then Doomed else Reads(todo, ReadAt.Next))
      else if X.end > T.got then Reads(todo, ReadAt.Next)
      else Reads(todo, AwaitFate(v, x, X.end)))
  }

  /** spin_for_cstamp on an overwriter with a smaller stamp (txn.cc:304-314, 772-781). */
  function SuccFate(c: Certifier, T: Txn, todo: set<Vid>, v: Vid, x: Tid, e: nat, X: Txn): Txn {
    if X.pc.Freed? then T.(pc := Reads(todo + {v}, ReadAt.Next))
    else if X.st.Abrtd? then T.(pc := Reads(todo, if c.SSI? then CheckS2(v) else ReadAt.Next))
    else if c.SSI? then T.(ct3 := Least(T.ct3, e), pc := Reads(todo, CheckS2(v)))
    else T.(pc := Reads(todo, TakeStamp(v, x)))
  }

  /** Inherit a committed overwriter's successor stamp (txn.cc:318-329). */
  function InheritStamp(T: Txn, todo: set<Vid>, v: Vid, X: Txn): Txn {
    if X.pc.Freed? then T.(pc := Reads(todo + {v}, ReadAt.Next))
    else Settle(SSN, T.(sstamp := Min(T.sstamp, X.sstamp)), Reads(todo, ReadAt.Next))
  }

  predicate CanReads(s: State, todo: set<Vid>, r: ReadAt, pick: nat) {
    match r
    case Next => todo == {} || (pick in todo && HasVer(s, pick))
    case Probe(v, x) => HasTxn(s, x)
    case AwaitEnd(v, x) => HasTxn(s, x) && EndKnown(s.txns[x])
    case AwaitFate(v, x, e) => HasTxn(s, x) && FateKnown(s.txns[x])
    case TakeStamp(v, x) => HasTxn(s, x)
    case CheckS2(v) => HasVer(s, v)
  }

  function ReadsTxn(s: State, t: Tid, todo: set<Vid>, r: ReadAt, pick: nat): Txn
    requires HasTxn(s, t) && CanReads(s, todo, r, pick)
  {
    var T := s.txns[t];
    match r
    case Next =>
      if todo == {} then ReadsDone(s.cert, T)
      else LookAtSucc(s.cert, T, t, todo - {pick}, pick, s.vers[pick].sstamp)
    case Probe(v, x) => ProbeSucc(T, t, todo, v, x, s.txns[x])
    case AwaitEnd(v, x) => SuccEnd(s.cert, T, todo, v, x, s.txns[x])
    case AwaitFate(v, x, e) => SuccFate(s.cert, T, todo, v, x, e, s.txns[x])
    case TakeStamp(v, x) => InheritStamp(T, todo, v, s.txns[x])
    case CheckS2(v) =>  // txn.cc:786-787
      if s.vers[v].s2 != 0 then T.(pc := Doomed)
      else T.(torn := T.torn || MissesS2(s, t, v), pc := Reads(todo, ReadAt.Next))
  }

  // ---------------------------------------------------------------- pre-commit: write set

  function WordBits(V: Version, k: nat): set<Slot> {
    set b | b in V.readers && 64 * k <= b < 64 * (k + 1)
  }

  /** The reader left: rely on the version's xstamp (txn.cc:380-419, 827-840). */
  function ContextChange(c: Certifier, T: Txn, V: Version, back: Pc): Txn {
    T.(pc := if c.SSI? && V.xstamp >= T.ct3 then Doomed else back)
  }

  /** What to do about a reader with published stamp e (txn.cc:436-508, 869-889). */
  function JudgeReader(c: Certifier, T: Txn, e: nat, back: Pc, wait: Pc): Txn {
    T.(pc :=
      if e > T.got then (if c.SSI? then Doomed else back)
      else if c.SSI? && e < T.ct3 then back
      else wait)
  }

  predicate CanScan(s: State, bits: set<Slot>, a: ScanAt, pick: nat) {
    match a
    case Bits => bits == {} || pick in bits
    case Occupant(r) => HasTxn(s, r)
    case ReaderEnd(r, rst) => HasTxn(s, r)
    case AwaitReaderEnd(r) => HasTxn(s, r) && EndKnown(s.txns[r])
    case AwaitReaderFate(r, e) => HasTxn(s, r) && FateKnown(s.txns[r])
  }

  /** The loop over the readers of the overwritten version V (txn.cc:358-527, 806-891), with
      readers_bitmap_iterator::next (serial.cpp:269-283), which skips the scanner's own bit. */
  function ScanTxn(s: State, t: Tid, todo: set<Vid>, w: WriteAt, V: Version, pick: nat): Txn
    requires HasTxn(s, t) && w.Scan? && CanScan(s, w.bits, w.at, pick)
  {
    var T := s.txns[t];
    var back := Writes(todo, w.(at := Bits));
    match w.at
    case Bits =>
      if w.bits != {} then
        var w1 := w.(bits := w.bits - {pick});
        T.(pc := Writes(todo, if pick in s.xids then w1.(at := Occupant(s.xids[pick])) else w1))
      else if w.k < s.words then
        T.(pc := Writes(todo, w.(k := w.k + 1, bits := WordBits(V, w.k) - {T.slot})))
      else T.(pc := Writes(todo, LastXstamp(w.u)))
    case Occupant(r) =>
      if s.txns[r].pc.Freed? then ContextChange(s.cert, T, V, back)
      else T.(pc := Writes(todo, w.(at := ReaderEnd(r, s.txns[r].st))))
    case ReaderEnd(r, rst) =>
      var R := s.txns[r];
      if R.pc.Freed? then ContextChange(s.cert, T, V, back)
      else if rst.Active? then T.(pc := if s.cert.SSI? then Doomed else back)
      else if R.end == 0 then T.(pc := Writes(todo, w.(at := AwaitReaderEnd(r))))
      else JudgeReader(s.cert, T, R.end, back, Writes(todo, w.(at := AwaitReaderFate(r, R.end))))
    case AwaitReaderEnd(r) =>
      var R := s.txns[r];
      if R.pc.Freed? then ContextChange(s.cert, T, V, back)
      else if R.st.Abrtd? then T.(pc := back)
      else JudgeReader(s.cert, T, R.end, back, Writes(todo, w.(at := AwaitReaderFate(r, R.end))))
    case AwaitReaderFate(r, e) =>
      var R := s.txns[r];
      if R.pc.Freed? then ContextChange(s.cert, T, V, back)
      else if R.st.Abrtd? then T.(pc := back)
      else if s.cert.SSI? then T.(pc := Doomed)
      else Settle(SSN, T.(pstamp := Max(T.pstamp, e)), back)
  }

  /** Readers that already left (txn.cc:528-532, 892-894). */
  function LastX(c: Certifier, T: Txn, todo: set<Vid>, V: Version): Txn {
    if c.SSI? then T.(pc := if V.xstamp >= T.ct3 then Doomed else Writes(todo, WriteAt.Next))
    else Settle(c, T.(pstamp := Max(T.pstamp, V.xstamp)), Writes(todo, WriteAt.Next))
  }

  predicate CanWrites(s: State, todo: set<Vid>, w: WriteAt, pick: nat) {
    match w
    case Next => todo == {} || (pick in todo && HasVer(s, pick))
    case Scan(u, k, bits, a) => HasNext(s, u) && CanScan(s, bits, a, pick)
    case LastXstamp(u) => HasNext(s, u)
  }

  function WritesTxn(s: State, t: Tid, todo: set<Vid>, w: WriteAt, pick: nat): Txn
    requires HasTxn(s, t) && CanWrites(s, todo, w, pick)
  {
    var T := s.txns[t];
    match w
    case Next =>  // inserts overwrite nothing (txn.cc:334-345, 794-798)
      if todo == {} then T.(pc := Deciding)
      else T.(pc := Writes(todo - {pick},
                           if s.vers[pick].next.None? then WriteAt.Next else Scan(pick, 0, {}, Bits)))
    case Scan(u, k, bits, a) => ScanTxn(s, t, todo, w, s.vers[Prev(s, u)], pick)
    case LastXstamp(u) => LastX(s.cert, T, todo, s.vers[Prev(s, u)])
  }

  // ---------------------------------------------------------------- post-commit

  predicate CanStamps(s: State, todo: set<Vid>, a: StampAt, pick: nat) {
    match a
    case Next => todo == {} || (pick in todo && HasVer(s, pick))
    case StampSucc(u) => HasNext(s, u)
    case StampS2(u) => HasNext(s, u)
    case StampX(u) => HasVer(s, u)
    case StampClsn(u) => HasVer(s, u)
  }

  /** Stamp the overwritten version, then the new one (txn.cc:568-587, 907-929, 1070-1093).
      MVOCC versions have no xstamp; writing the unused field changes nothing there. */
  function DoStamps(s: State, t: Tid, todo: set<Vid>, a: StampAt, pick: nat): State
    requires HasTxn(s, t) && CanStamps(s, todo, a, pick)
  {
    var T := s.txns[t];
    match a
    case Next =>
      if todo == {} then PutTxn(s, t, T.(pc := Announce))
      else PutTxn(s, t, T.(pc := Stamps(todo - {pick},
                                        if s.vers[pick].next.None? then StampX(pick) else StampSucc(pick))))
    case StampSucc(u) =>
      PutVer(PutTxn(s, t, T.(pc := Stamps(todo, if s.cert.SSI? then StampS2(u) else StampX(u)))),
             Prev(s, u), s.vers[Prev(s, u)].(sstamp := ByLog(Legacy(s.cert, T))))
    case StampS2(u) =>
      PutVer(PutTxn(s, t, T.(pc := Stamps(todo, StampX(u)))), Prev(s, u), s.vers[Prev(s, u)].(s2 := T.ct3))
    case StampX(u) =>
      PutVer(PutTxn(s, t, T.(pc := Stamps(todo, StampClsn(u)))), u, s.vers[u].(xstamp := T.got))
    case StampClsn(u) =>
      PutVer(PutTxn(s, t, T.(pc := Stamps(todo, StampAt.Next))), u, s.vers[u].(clsn := Stamped(T.got)))
  }

  function AnnounceTxn(c: Certifier, T: Txn): Txn {
    T.(st := Cmmtd, pc := if c.MVOCC? then Finished else Leave(T.rset, LeaveAt.Next))
  }

  predicate CanLeave(s: State, todo: set<Vid>, l: LeaveAt, pick: nat) {
    match l
    case Next => todo == {} || (pick in todo && HasVer(s, pick))
    case SetX(v) => HasVer(s, v)
    case Look(v) => HasVer(s, v)
    case Older(v, x) => HasTxn(s, x)
    case Wait(v, x) => HasTxn(s, x) && FateKnown(s.txns[x])
    case ClearBit(v) => HasVer(s, v)
  }

  function AfterLook(c: Certifier, v: Vid): LeaveAt { if c.SSI? then ClearBit(v) else SetX(v) }

  /** Leave the read versions: SSN waits for an older overwriter and then stamps, SSI stamps
      first (txn.cc:606-639, 943-982; set_tuple_xstamp at txn.cc:193-200;
      serial_deregister_reader_tx at serial.cpp:233-245). */
  function DoLeave(s: State, t: Tid, todo: set<Vid>, l: LeaveAt, pick: nat): State
    requires HasTxn(s, t) && CanLeave(s, todo, l, pick)
  {
    var T := s.txns[t];
    match l
    case Next =>
      if todo == {} then PutTxn(s, t, T.(pc := Finished))
      else PutTxn(s, t, T.(pc := Leave(todo - {pick}, if s.cert.SSI? then SetX(pick) else Look(pick))))
    case SetX(v) =>
      PutVer(PutTxn(s, t, T.(pc := Leave(todo, if s.cert.SSI? then Look(v) else ClearBit(v)))),
             v, s.vers[v].(xstamp := Max(s.vers[v].xstamp, T.got)))
    case Look(v) =>
      var S := s.vers[v].sstamp;
      PutTxn(s, t, T.(pc := Leave(todo, if S.ByXid? && S.t != t then Older(v, S.t) else AfterLook(s.cert, v))))
    case Older(v, x) =>
      var X := s.txns[x];
      PutTxn(s, t, T.(pc :=
        Leave(todo, if !X.pc.Freed? && 0 < X.end < T.got then Wait(v, x) else AfterLook(s.cert, v))))
    case Wait(v, x) => PutTxn(s, t, T.(pc := Leave(todo, AfterLook(s.cert, v))))
    case ClearBit(v) =>
      PutVer(PutTxn(s, t, T.(pc := Leave(todo, LeaveAt.Next))), v,
             s.vers[v].(readers := s.vers[v].readers - {T.slot}))
  }

  // ---------------------------------------------------------------- abort and destructor

  /** Abort (txn.cc:114-157): announce, leave the bitmaps, then take the versions back. */
  function AbortTxn(c: Certifier, T: Txn): Txn {
    T.(st := Abrtd, pc := if c.MVOCC? then Revert(T.wset, RevertAt.Next) else Forget(T.rset))
  }

  predicate CanForget(s: State, todo: set<Vid>, pick: nat) { todo == {} || (pick in todo && HasVer(s, pick)) }

  function DoForget(s: State, t: Tid, todo: set<Vid>, pick: nat): State
    requires HasTxn(s, t) && CanForget(s, todo, pick)
  {
    var T := s.txns[t];
    if todo == {} then PutTxn(s, t, T.(pc := Revert(T.wset, RevertAt.Next)))
    else PutVer(PutTxn(s, t, T.(pc := Forget(todo - {pick}))), pick,
                s.vers[pick].(readers := s.vers[pick].readers - {T.slot}))
  }

  predicate CanRevert(s: State, todo: set<Vid>, a: RevertAt, pick: nat) {
    match a
    case Next => todo == {} || (pick in todo && HasVer(s, pick))
    case Unmark(u) => HasNext(s, u)
    case Unlink(u) => HasNext(s, u)
    case Kill(u) => HasVer(s, u)
  }

  function DoRevert(s: State, t: Tid, todo: set<Vid>, a: RevertAt, pick: nat): State
    requires HasTxn(s, t) && CanRevert(s, todo, a, pick)
  {
    var T := s.txns[t];
    match a
    case Next =>
      if todo == {} then PutTxn(s, t, T.(pc := Finished))
      else PutTxn(s, t, T.(pc := Revert(todo - {pick}, if s.vers[pick].next.None? then Kill(pick) else Unmark(pick))))
    case Unmark(u) =>
      PutVer(PutTxn(s, t, T.(pc := Revert(todo, Unlink(u)))), Prev(s, u), s.vers[Prev(s, u)].(sstamp := NoSucc))
    case Unlink(u) =>
      PutVer(PutTxn(s, t, T.(pc := Revert(todo, Kill(u)))), Prev(s, u), s.vers[Prev(s, u)].(over := None))
    case Kill(u) => PutVer(PutTxn(s, t, T.(pc := Revert(todo, RevertAt.Next))), u, s.vers[u].(clsn := Dead))
  }

  // ---------------------------------------------------------------- the machine

  /** The access at transaction t's program counter can be performed now. */
  predicate CanGo(s: State, t: Tid, pick: nat) {
    HasTxn(s, t) &&
    match s.txns[t].pc
    case Work(w) => CanWork(s, w)
    case Entered => false
    case Obtained => true
    case Reads(todo, r) => CanReads(s, todo, r, pick)
    case Writes(todo, w) => CanWrites(s, todo, w, pick)
    case Deciding => true
    case Stamps(todo, a) => CanStamps(s, todo, a, pick)
    case Announce => true
    case Leave(todo, l) => CanLeave(s, todo, l, pick)
    case Doomed => false
    case Forget(todo) => CanForget(s, todo, pick)
    case Revert(todo, a) => CanRevert(s, todo, a, pick)
    case Finished => true
    case Retired => true
    case Freed => false
  }

  function DoGo(s: State, t: Tid, pick: nat): State
    requires CanGo(s, t, pick)
  {
    var T := s.txns[t];
    match T.pc
    case Work(w) => DoWork(s, t, w, pick)
    case Obtained => PutTxn(s, t, PublishTxn(s.cert, T))
    case Reads(todo, r) => PutTxn(s, t, ReadsTxn(s, t, todo, r, pick))
    case Writes(todo, w) => PutTxn(s, t, WritesTxn(s, t, todo, w, pick))
    case Deciding => PutTxn(s, t, Settle(s.cert, T, Stamps(T.wset, StampAt.Next)))  // txn.cc:539, 903, 1063
    case Stamps(todo, a) => DoStamps(s, t, todo, a, pick)
    case Announce => PutTxn(s, t, AnnounceTxn(s.cert, T))
    case Leave(todo, l) => DoLeave(s, t, todo, l, pick)
    case Forget(todo) => DoForget(s, t, todo, pick)
    case Revert(todo, a) => DoRevert(s, t, todo, a, pick)
    case Finished =>  // serial_deregister_tx (serial.cpp:212-217)
      PutTxn(s, t, T.(pc := Retired)).(xids := s.xids - {T.slot})
    case Retired => PutTxn(s, t, T.(pc := Freed))
  }

  /** Giving up without a certifier's verdict: no log space (txn.cc:176), a phantom
      (txn.cc:541-543, 898-900, 998-1000). */
  predicate MayFail(pc: Pc) { pc.Entered? || pc.Deciding? || (pc.Reads? && pc.rat.Next?) }

  predicate Enabled(s: State, step: Step) {
    match step
    case Begin(slot) => slot < 64 * s.words && slot !in s.xids
    case Read(t, v) => CanRead(s, t, v)
    case Claim(t, v) => CanClaim(s, t, v)
    case Update(t, v) => CanUpdate(s, t, v)
    case Insert(t, rec) => CanInsert(s, t, rec)
    case Commit(t) => IsIdle(s, t)
    case Abort(t) => IsIdle(s, t) || (HasTxn(s, t) && s.txns[t].pc.Doomed?)
    case Obtain(t, d) => HasTxn(s, t) && s.txns[t].pc.Entered? && d >= 2
    case Fail(t) => HasTxn(s, t) && MayFail(s.txns[t].pc)
    case Go(t, pick) => CanGo(s, t, pick)
  }

  function Apply(s: State, step: Step): State
    requires Enabled(s, step)
  {
    match step
    case Begin(slot) => DoBegin(s, slot)
    case Read(t, v) => DoRead(s, t, v)
    case Claim(t, v) => PutTxn(s, t, s.txns[t].(pc := Work(WorkAt.Claim(v))))
    case Update(t, v) => DoUpdate(s, t, v)
    case Insert(t, rec) => DoInsert(s, t, rec)
    case Commit(t) => PutTxn(s, t, s.txns[t].(st := Committing, pc := Entered))
    case Abort(t) => PutTxn(s, t, AbortTxn(s.cert, s.txns[t]))
    case Obtain(t, d) =>
      PutTxn(s, t, s.txns[t].(got := s.clock + d, pc := Obtained)).(clock := s.clock + d)
    case Fail(t) => PutTxn(s, t, s.txns[t].(pc := Doomed))
    case Go(t, pick) => DoGo(s, t, pick)
  }

  predicate Init(s: State) { s.txns == [] && s.vers == [] && s.xids == map[] && s.words > 0 }

  predicate Goes(s: State, step: Step, s': State) { Enabled(s, step) && s' == Apply(s, step) }

  /** A run from an empty database: each step leads from one state to the next. */
  ghost predicate Run(states: seq<State>, steps: seq<Step>) {
    && |states| == |steps| + 1 && Init(states[0])
    && forall i {:trigger steps[i]} :: 0 <= i < |steps| ==> Goes(states[i], steps[i], states[i + 1])
  }
}
