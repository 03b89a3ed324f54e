/** No committed reader is missed: once the readers of an overwritten version have been scanned
    in pre-commit, every tracked reader with a smaller stamp is accounted for. */
module EngineWrites {
  import opened Options
  import opened Engine
  import opened EngineInv
  import opened EngineShapes
  import opened EngineGuar
  import opened EngineBits

  /** Written versions whose readers are not yet accounted for. */
  function OpenWrites(T: Txn): set<Vid> {
    match T.pc
    case Writes(todo, w) => todo + WriteFocus(w)
    case _ =>
      if T.pc.Deciding? || T.pc.Stamps? || T.pc.Announce? || T.pc.Leave? || DonePc(T.pc) then {} else T.wset
  }

  /** T allows for a reader with commit stamp n: SSN has it in pstamp, and SSI's T is no pivot for it. */
  predicate Allows(c: Certifier, T: Txn, n: nat) {
    match c
    case SSN => n <= T.pstamp
    case SSI => T.ct3 == 0 || n < T.ct3
    case MVOCC => true
  }

  /** r tracked a read of v and has a smaller commit stamp than t. */
  predicate Clash(s: State, t: Tid, r: Tid, v: Vid)
    requires HasTxn(s, t)
  {
    && r != t && HasTxn(s, r)
    && v in s.txns[r].rset && 0 < s.txns[r].got < s.txns[t].got && !s.txns[r].st.Abrtd?
  }

  /** Readers that a scan has still to look at, as far as bitmap and program counter tell. */
  predicate Outstanding(w: WriteAt, r: Tid, R: Txn)
    requires w.Scan?
  {
    R.slot >= 64 * w.k || R.slot in w.bits || Peer(Writes({}, w)) == Some(r)
  }

  /** t allows for the creator of v and for every reader of v that clashes. */
  ghost predicate Covers(s: State, t: Tid, v: Vid)
    requires HasTxn(s, t) && HasVer(s, v)
  {
    && (s.vers[v].clsn.Stamped? ==> Allows(s.cert, s.txns[t], s.vers[v].clsn.n))
    && forall r: Tid :: Clash(s, t, r, v) ==> Allows(s.cert, s.txns[t], s.txns[r].got)
  }

  /** Reader r of v was allowed for, or left its stamp on v. */
  ghost predicate Noted(s: State, t: Tid, r: Tid, v: Vid)
    requires HasTxn(s, t) && HasTxn(s, r) && HasVer(s, v)
  {
    Allows(s.cert, s.txns[t], s.txns[r].got) || s.txns[r].got <= s.vers[v].xstamp
  }

  /** What is known of the reader at the program counter. */
  ghost predicate PeerOk(s: State, t: Tid, a: ScanAt)
    requires HasTxn(s, t)
  {
    match a
    case Bits => true
    case Occupant(r) => HasTxn(s, r) && r != t
    case ReaderEnd(r, rst) =>
      && HasTxn(s, r) && r != t && (rst.Active? ==> s.txns[r].got == 0 || s.txns[r].got > s.txns[t].got)
      && (s.txns[r].st.Active? ==> rst.Active?)
    case AwaitReaderEnd(r) => HasTxn(s, r) && r != t && !s.txns[r].st.Active?
    case AwaitReaderFate(r, e) => HasTxn(s, r) && r != t && 0 < e < s.txns[t].got && s.txns[r].got == e
  }

  ghost predicate ScanOk(s: State, t: Tid, w: WriteAt)
    requires HasTxn(s, t)
  {
    match w
    case Next => true
    case Scan(u, k, bits, a) =>
      && PeerOk(s, t, a) && s.txns[t].slot !in bits
      && (HasNext(s, u) ==>
            forall r: Tid :: Clash(s, t, r, Prev(s, u)) && !Outstanding(w, r, s.txns[r]) ==> Noted(s, t, r, Prev(s, u)))
    case LastXstamp(u) =>
      HasNext(s, u) ==> forall r: Tid :: Clash(s, t, r, Prev(s, u)) ==> Noted(s, t, r, Prev(s, u))
  }

  ghost predicate WriteOf(s: State, t: Tid)
    requires HasTxn(s, t)
  {
    var T := s.txns[t];
    !T.st.Abrtd? ==>
      && (forall u :: u in T.wset && u !in OpenWrites(T) && HasNext(s, u) ==> Covers(s, t, Prev(s, u)))
      && (T.pc.Writes? ==> ScanOk(s, t, T.pc.uat))
  }

  ghost predicate WriteSide(s: State) { forall t :: 0 <= t < |s.txns| ==> WriteOf(s, t) }

  lemma GetWrites(s: State, t: Tid)
    requires WriteSide(s) && HasTxn(s, t)
    ensures WriteOf(s, t)
  {
  }

  lemma AllWrites(s: State)
    requires forall t :: 0 <= t < |s.txns| ==> WriteOf(s, t)
    ensures WriteSide(s)
  {
  }

  // ---------------------------------------------------------------- stability

  /** No reader with a smaller stamp turns up later. */
  lemma KeepClash(s: State, s': State, m: Tid, t: Tid, r: Tid, v: Vid)
    requires Guar(s, s', m) && HasTxn(s, t) && s'.txns[t].got == s.txns[t].got <= s.clock && Clash(s', t, r, v)
    ensures Clash(s, t, r, v) && s'.txns[r].got == s.txns[r].got && s'.txns[r].slot == s.txns[r].slot
  {
    hide VerGuar;
  }

  predicate AllowsMore(T: Txn, T': Txn) { T.pstamp <= T'.pstamp && T'.ct3 == T.ct3 }

  lemma KeepCovers(s: State, s': State, m: Tid, t: Tid, v: Vid)
    requires Guar(s, s', m) && HasTxn(s, t) && s'.txns[t].got == s.txns[t].got <= s.clock
    requires AllowsMore(s.txns[t], s'.txns[t]) && HasVer(s, v) && s.vers[v].clsn.Stamped? && Covers(s, t, v)
    ensures HasVer(s', v) && Covers(s', t, v)
  {
    assert VerGuar(s, s', m, v);
    hide VerGuar;
    forall r: Tid | Clash(s', t, r, v) ensures Allows(s'.cert, s'.txns[t], s'.txns[r].got) {
      KeepClash(s, s', m, t, r, v);
    }
  }

  lemma KeepNoted(s: State, s': State, m: Tid, t: Tid, r: Tid, v: Vid)
    requires Guar(s, s', m) && HasTxn(s, t) && HasTxn(s, r) && HasVer(s, v) && Noted(s, t, r, v)
    requires s'.txns[r].got == s.txns[r].got && AllowsMore(s.txns[t], s'.txns[t]) && s.vers[v].clsn.Stamped?
    ensures Noted(s', t, r, v)
  {
    assert VerGuar(s, s', m, v);
  }

  lemma KeepPeer(s: State, s': State, m: Tid, t: Tid, a: ScanAt)
    requires Shapes(s) && Guar(s, s', m) && HasTxn(s, t) && m != t && PeerOk(s, t, a)
    requires 0 < s.txns[t].got <= s.clock
    ensures PeerOk(s', t, a)
  {
    hide Shapes, VerGuar;
    StatesAre(s, m);
  }

  lemma MadeHas(s: State, t: Tid)
    requires Shapes(s) && HasTxn(s, t)
    ensures forall u :: u in s.txns[t].wset ==> HasVer(s, u) && s.vers[u].creator == t
    ensures s.txns[t].pc.Writes? ==> s.txns[t].pc.todo + WriteFocus(s.txns[t].pc.uat) <= s.txns[t].wset
    ensures s.txns[t].pc.Writes? ==> s.txns[t].pc.todo !! WriteFocus(s.txns[t].pc.uat)
  {
    assert TxnOk(s, t);
    assert s.txns[t].wset <= Made(s.txns[t]);
  }

  lemma KeepScan(s: State, s': State, m: Tid, t: Tid)
    requires Shapes(s) && Chains(s) && Guar(s, s', m) && HasTxn(s, t) && m != t
    requires s.txns[t].pc.Writes? && ScanOk(s, t, s.txns[t].pc.uat)
    ensures ScanOk(s', t, s.txns[t].pc.uat)
  {
    hide Shapes, Chains, Noted, PeerOk, VerGuar;
    var w := s.txns[t].pc.uat;
    MadeHas(s, t);
    StatesAre(s, t);
    if !w.Next? && HasNext(s', w.u) {
      SamePrev(s, s', m, w.u);
      var v := Prev(s, w.u);
      forall r: Tid | Clash(s', t, r, v) && (w.Scan? ==> !Outstanding(w, r, s'.txns[r])) ensures Noted(s', t, r, v) {
        KeepClash(s, s', m, t, r, v);
        KeepNoted(s, s', m, t, r, v);
      }
    }
    if w.Scan? { KeepPeer(s, s', m, t, w.at); }
  }

  /** A step of m does not disturb what another transaction has established. */
  lemma OthersWrites(s: State, s': State, m: Tid, t: Tid)
    requires Shapes(s) && Chains(s) && Guar(s, s', m) && HasTxn(s, t) && m != t && WriteOf(s, t)
    ensures WriteOf(s', t)
  {
    hide Shapes, Chains, ScanOk, Covers, VerGuar;
    var T := s.txns[t];
    assert s'.txns[t] == T;
    MadeHas(s, t);
    StatesAre(s, t);
    if !T.st.Abrtd? {
      forall u | u in T.wset && u !in OpenWrites(T) && HasNext(s', u) ensures Covers(s', t, Prev(s', u)) {
        SamePrev(s, s', m, u);
        KeepCovers(s, s', m, t, Prev(s, u));
      }
      if T.pc.Writes? { KeepScan(s, s', m, t); }
    }
  }

  // ---------------------------------------------------------------- a transaction's own steps

  /** t moves; at most the written version z is newly covered. */
  ghost predicate Scans(s: State, s': State, t: Tid, z: Vid)
    requires HasTxn(s, t) && HasTxn(s', t)
  {
    var T, T' := s.txns[t], s'.txns[t];
    && T'.wset == T.wset && T'.got == T.got && AllowsMore(T, T')
    && OpenWrites(T) <= OpenWrites(T') + {z}
    && (z in OpenWrites(T) && z !in OpenWrites(T') && HasNext(s', z) ==> Covers(s', t, Prev(s', z)))
    && (T'.pc.Writes? ==> ScanOk(s', t, T'.pc.uat))
  }

  lemma OwnWrites(s: State, s': State, t: Tid, z: Vid)
    requires Shapes(s) && Chains(s) && Guar(s, s', t) && WriteOf(s, t) && Scans(s, s', t, z)
    ensures WriteOf(s', t)
  {
    hide Shapes, Chains, Covers, ScanOk, VerGuar;
    var T, T' := s.txns[t], s'.txns[t];
    MadeHas(s, t);
    StatesAre(s, t);
    if !T'.st.Abrtd? {
      forall u | u in T'.wset && u !in OpenWrites(T') && HasNext(s', u) ensures Covers(s', t, Prev(s', u)) {
        if !(u == z && z in OpenWrites(T)) {
          SamePrev(s, s', t, u);
          KeepCovers(s, s', t, t, Prev(s, u));
        }
      }
    }
  }

  /** A reader whose bit is gone, or whose slot has moved on, left its stamp. */
  lemma GoneReader(s: State, t: Tid, r: Tid, v: Vid)
    requires Shapes(s) && BitSide(s) && HasTxn(s, t) && HasVer(s, v) && Clash(s, t, r, v) && !s.cert.MVOCC?
    requires LivePc(s.txns[t].pc)
    ensures s.txns[r].slot !in s.vers[v].readers || !LivePc(s.txns[r].pc) ==> s.txns[r].got <= s.vers[v].xstamp
    ensures LivePc(s.txns[r].pc) ==>
      s.txns[r].slot in s.xids && s.xids[s.txns[r].slot] == r && s.txns[r].slot != s.txns[t].slot
    ensures s.txns[r].slot < 64 * s.words
  {
    hide Shapes, BitSide;
    GetBits(s, r);
    GetSlots(s);
    GetTxn(s, r);
  }

  /** The reader r of v stays outstanding, or is allowed for, or left its stamp on v. */
  ghost predicate Follows(s: State, T': Txn, r: Tid, v: Vid)
    requires HasTxn(s, r) && HasVer(s, v) && T'.pc.Writes?
  {
    || (T'.pc.uat.Scan? && Outstanding(T'.pc.uat, r, s.txns[r]))
    || Allows(s.cert, T', s.txns[r].got) || s.txns[r].got <= s.vers[v].xstamp
  }

  lemma BitsNotes(s: State, t: Tid, todo: set<Vid>, w: WriteAt, v: Vid, pick: nat, r: Tid)
    requires Shapes(s) && BitSide(s) && HasTxn(s, t) && !s.cert.MVOCC? && LivePc(s.txns[t].pc)
    requires w.Scan? && w.at.Bits? && CanScan(s, w.bits, w.at, pick) && HasVer(s, v)
    requires Clash(s, t, r, v) && (!Outstanding(w, r, s.txns[r]) ==> Noted(s, t, r, v))
    ensures var T' := ScanTxn(s, t, todo, w, s.vers[v], pick); T'.pc.Writes? ==> Follows(s, T', r, v)
  {
    hide Shapes, BitSide;
    GoneReader(s, t, r, v);
  }

  /** The four program points that look at one reader p. */
  lemma PeerNotes(s: State, t: Tid, todo: set<Vid>, w: WriteAt, v: Vid, pick: nat, r: Tid)
    requires Shapes(s) && BitSide(s) && HasTxn(s, t) && !s.cert.MVOCC? && LivePc(s.txns[t].pc)
    requires w.Scan? && !w.at.Bits? && CanScan(s, w.bits, w.at, pick) && PeerOk(s, t, w.at) && HasVer(s, v)
    requires Clash(s, t, r, v) && (!Outstanding(w, r, s.txns[r]) ==> Noted(s, t, r, v))
    ensures var T' := ScanTxn(s, t, todo, w, s.vers[v], pick); T'.pc.Writes? ==> Follows(s, T', r, v)
  {
    hide Shapes, BitSide, ScanTxn, Follows;
    GoneReader(s, t, r, v);
    StatesAre(s, r);
    if w.at.r == r { ThisPeer(s, t, todo, w, v, pick); } else { OtherPeer(s, t, todo, w, v, pick, r); }
  }

  lemma OtherPeer(s: State, t: Tid, todo: set<Vid>, w: WriteAt, v: Vid, pick: nat, r: Tid)
    requires HasTxn(s, t) && HasTxn(s, r) && w.Scan? && !w.at.Bits? && CanScan(s, w.bits, w.at, pick) && w.at.r != r
    requires HasVer(s, v) && (!Outstanding(w, r, s.txns[r]) ==> Noted(s, t, r, v))
    ensures var T' := ScanTxn(s, t, todo, w, s.vers[v], pick); T'.pc.Writes? ==> Follows(s, T', r, v)
  {
    match w.at
    case Occupant(p) =>
    case ReaderEnd(p, rst) =>
    case AwaitReaderEnd(p) =>
    case AwaitReaderFate(p, e) =>
  }

  lemma ThisPeer(s: State, t: Tid, todo: set<Vid>, w: WriteAt, v: Vid, pick: nat)
    requires HasTxn(s, t) && w.Scan? && !w.at.Bits? && CanScan(s, w.bits, w.at, pick) && HasVer(s, v)
    requires PeerOk(s, t, w.at) && !s.cert.MVOCC? && Clash(s, t, w.at.r, v)
    requires s.txns[w.at.r].pc.Freed? ==> s.txns[w.at.r].got <= s.vers[v].xstamp
    requires s.txns[w.at.r].end == 0 || s.txns[w.at.r].end == s.txns[w.at.r].got
    ensures var T' := ScanTxn(s, t, todo, w, s.vers[v], pick); T'.pc.Writes? ==> Follows(s, T', w.at.r, v)
  {
    match w.at
    case Occupant(p) =>
    case ReaderEnd(p, rst) =>
    case AwaitReaderEnd(p) =>
    case AwaitReaderFate(p, e) =>
  }

  ghost predicate PeerNext(s: State, t: Tid, pc: Pc)
    requires HasTxn(s, t)
  {
    pc.Writes? && pc.uat.Scan? ==> s.txns[t].slot !in pc.uat.bits && PeerOk(s, t, pc.uat.at)
  }

  lemma ScanPeers(s: State, t: Tid, todo: set<Vid>, w: WriteAt, v: Vid, pick: nat)
    requires SlotsOk(s) && StampsApart(s) && HasTxn(s, t) && w.Scan? && HasVer(s, v) && s.txns[t].got != 0
    requires CanScan(s, w.bits, w.at, pick) && PeerOk(s, t, w.at) && s.txns[t].slot !in w.bits
    requires !w.at.Bits? ==> var R := s.txns[w.at.r]; (R.end == 0 || R.end == R.got) && (R.st.Active? ==> R.got == 0)
    ensures PeerNext(s, t, ScanTxn(s, t, todo, w, s.vers[v], pick).pc)
  {
    assert !w.at.Bits? && w.at.r != t ==> s.txns[w.at.r].got != s.txns[t].got;
    hide StampsApart;
    match w.at
    case Bits =>
    case Occupant(p) =>
    case ReaderEnd(p, rst) =>
    case AwaitReaderEnd(p) =>
    case AwaitReaderFate(p, e) =>
  }

  lemma WritesPc(s: State, t: Tid)
    requires Shapes(s) && HasTxn(s, t) && s.txns[t].pc.Writes?
    ensures !s.cert.MVOCC? && !s.txns[t].st.Abrtd? && 0 < s.txns[t].got <= s.clock && LivePc(s.txns[t].pc)
    ensures s.txns[t].pc.uat.Scan? ==> s.txns[t].pc.uat.k <= s.words
    ensures s.cert.SSI? ==> s.txns[t].ct3 != 0
  {
    assert TxnOk(s, t);
  }

  /** Only t's stamp and program counter moved, so the same readers clash. */
  lemma SameClash(s: State, t: Tid, T': Txn, r: Tid, v: Vid)
    requires HasTxn(s, t) && T' == s.txns[t].(pstamp := T'.pstamp, pc := T'.pc) && Clash(PutTxn(s, t, T'), t, r, v)
    ensures HasTxn(s, r) && Clash(s, t, r, v) && PutTxn(s, t, T').txns[r] == s.txns[r]
  {
  }

  lemma ScanNotes(s: State, t: Tid, todo: set<Vid>, w: WriteAt, pick: nat)
    requires Shapes(s) && BitSide(s) && HasTxn(s, t) && s.txns[t].pc == Writes(todo, w) && w.Scan?
    requires HasNext(s, w.u) && CanScan(s, w.bits, w.at, pick) && ScanOk(s, t, w)
    ensures var T' := ScanTxn(s, t, todo, w, s.vers[Prev(s, w.u)], pick);
      T'.pc.Writes? ==> ScanOk(PutTxn(s, t, T'), t, T'.pc.uat)
  {
    hide Shapes, BitSide, ScanTxn, Clash, Outstanding;
    var v := Prev(s, w.u);
    var T' := ScanTxn(s, t, todo, w, s.vers[v], pick);
    var s' := PutTxn(s, t, T');
    WritesPc(s, t);
    ScanForm(s, t, todo, w, s.vers[v], pick);
    if T'.pc.Writes? {
      forall r: Tid | Clash(s', t, r, v)
        ensures HasTxn(s', r) && ((T'.pc.uat.Scan? && Outstanding(T'.pc.uat, r, s'.txns[r])) || Noted(s', t, r, v))
      {
        SameClash(s, t, T', r, v);
        if w.at.Bits? { BitsNotes(s, t, todo, w, v, pick, r); } else { PeerNotes(s, t, todo, w, v, pick, r); }
      }
      GetSlots(s);
      if !w.at.Bits? { StatesAre(s, w.at.r); }
      ScanPeers(s, t, todo, w, v, pick);
    }
  }

  lemma ScanScans(s: State, t: Tid, todo: set<Vid>, w: WriteAt, pick: nat)
    requires Shapes(s) && BitSide(s) && HasTxn(s, t) && s.txns[t].pc == Writes(todo, w) && w.Scan?
    requires HasNext(s, w.u) && CanScan(s, w.bits, w.at, pick) && ScanOk(s, t, w)
    ensures Scans(s, PutTxn(s, t, ScanTxn(s, t, todo, w, s.vers[Prev(s, w.u)], pick)), t, w.u)
  {
    hide Shapes, BitSide, ScanTxn, ScanOk, Covers;
    WritesPc(s, t);
    MadeHas(s, t);
    ScanForm(s, t, todo, w, s.vers[Prev(s, w.u)], pick);
    ScanNotes(s, t, todo, w, pick);
  }

  /** After the last look at xstamp, every reader below u is allowed for. */
  lemma LastScans(s: State, t: Tid, todo: set<Vid>, u: Vid)
    requires Shapes(s) && Chains(s) && HasTxn(s, t) && s.txns[t].pc == Writes(todo, LastXstamp(u)) && HasNext(s, u)
    requires ScanOk(s, t, LastXstamp(u))
    ensures Scans(s, PutTxn(s, t, LastX(s.cert, s.txns[t], todo, s.vers[Prev(s, u)])), t, u)
  {
    hide Shapes, Chains, Clash;
    WritesPc(s, t);
    MadeHas(s, t);
    if s.vers[Prev(s, u)].clsn.Stamped? { CreatedByNow(s, Prev(s, u)); }
    var T' := LastX(s.cert, s.txns[t], todo, s.vers[Prev(s, u)]);
    var s' := PutTxn(s, t, T');
    if T'.pc.Writes? {
      forall r: Tid | Clash(s', t, r, Prev(s, u)) ensures HasTxn(s', r) && Allows(s'.cert, T', s'.txns[r].got) {
        SameClash(s, t, T', r, Prev(s, u));
      }
    }
  }

  lemma WritesWrites(s: State, t: Tid, todo: set<Vid>, w: WriteAt, pick: nat)
    requires Shapes(s) && Chains(s) && BitSide(s) && HasTxn(s, t) && s.txns[t].pc == Writes(todo, w)
    requires CanWrites(s, todo, w, pick) && WriteOf(s, t)
    ensures WriteOf(PutTxn(s, t, WritesTxn(s, t, todo, w, pick)), t)
  {
    hide Shapes, Chains, BitSide, Guar, ScanTxn, LastX, Covers;
    var s' := PutTxn(s, t, WritesTxn(s, t, todo, w, pick));
    WritesGuar(s, t, todo, w, pick);
    WritesPc(s, t);
    match w
    case Next =>
      if todo != {} {
        BeginScan(s, t, todo, pick);
        OwnWrites(s, s', t, pick);
      } else {
        OwnWrites(s, s', t, 0);
      }
    case Scan(u, k, bits, a) => ScanScans(s, t, todo, w, pick); OwnWrites(s, s', t, u);
    case LastXstamp(u) => LastScans(s, t, todo, u); OwnWrites(s, s', t, u);
  }

  lemma BeginScan(s: State, t: Tid, todo: set<Vid>, u: Vid)
    requires Shapes(s) && HasTxn(s, t) && s.txns[t].pc == Writes(todo, WriteAt.Next) && u in todo && HasVer(s, u)
    ensures Scans(s, PutTxn(s, t, WritesTxn(s, t, todo, WriteAt.Next, u)), t, u)
  {
    hide Shapes;
    WritesPc(s, t);
    MadeHas(s, t);
    var s' := PutTxn(s, t, WritesTxn(s, t, todo, WriteAt.Next, u));
    forall r: Tid | HasNext(s, u) && Clash(s', t, r, Prev(s, u))
      ensures Outstanding(Scan(u, 0, {}, Bits), r, s'.txns[r])
    {
      assert s'.txns[r].slot >= 0;
    }
  }

  /** Before the write set is examined nothing is claimed; afterwards nothing changes. */
  lemma QuietWrites(s: State, s': State, t: Tid)
    requires Shapes(s) && Chains(s) && Guar(s, s', t) && WriteOf(s, t)
    requires var T, T' := s.txns[t], s'.txns[t];
      || (T'.wset <= OpenWrites(T') && (T'.pc.Writes? ==> T'.pc.uat.Next?))
      || (T'.wset == T.wset && T'.got == T.got && AllowsMore(T, T') && OpenWrites(T) <= OpenWrites(T') &&
        !T'.pc.Writes?)
    ensures WriteOf(s', t)
  {
    hide Shapes, Chains, Covers, VerGuar;
    var T, T' := s.txns[t], s'.txns[t];
    if T'.wset == T.wset && T'.got == T.got && AllowsMore(T, T') && OpenWrites(T) <= OpenWrites(T') && !T'.pc.Writes? {
      OwnWrites(s, s', t, 0);
    }
  }

  lemma ReadsWrites(s: State, t: Tid, todo: set<Vid>, r: ReadAt, pick: nat)
    requires Shapes(s) && Chains(s) && HasTxn(s, t) && s.txns[t].pc == Reads(todo, r) && CanReads(s, todo, r, pick)
    requires WriteOf(s, t)
    ensures WriteOf(PutTxn(s, t, ReadsTxn(s, t, todo, r, pick)), t)
  {
    hide Shapes, Chains, Guar, TargetsFor;
    var s' := PutTxn(s, t, ReadsTxn(s, t, todo, r, pick));
    ReadsGuar(s, t, todo, r, pick);
    if r.Next? && todo == {} {
    } else {
      ReadsStay(s, t, todo, r, pick);
      QuietWrites(s, s', t);
    }
  }

  lemma ReadsStay(s: State, t: Tid, todo: set<Vid>, r: ReadAt, pick: nat)
    requires HasTxn(s, t) && s.txns[t].pc == Reads(todo, r) && CanReads(s, todo, r, pick) && !(r.Next? && todo == {})
    ensures var T' := ReadsTxn(s, t, todo, r, pick); T'.pc.Reads? || T'.pc.Doomed?
  {
    match r
    case Next =>
    case Probe(v, x) =>
    case AwaitEnd(v, x) =>
    case AwaitFate(v, x, e) =>
    case TakeStamp(v, x) =>
    case CheckS2(v) =>
  }

  lemma GoWrites(s: State, t: Tid, pick: nat)
    requires Shapes(s) && Chains(s) && BitSide(s) && CanGo(s, t, pick) && WriteOf(s, t)
    ensures WriteOf(DoGo(s, t, pick), t)
  {
    hide Shapes, Chains, BitSide, WriteOf, Guar;
    var pc := s.txns[t].pc;
    if pc.Reads? { ReadsWrites(s, t, pc.todo, pc.rat, pick); }
    else if pc.Writes? { WritesWrites(s, t, pc.todo, pc.uat, pick); }
    else if pc.Work? { WorkWrites(s, t, pc.wat, pick); }
    else { LateWrites(s, t, pick); }
  }

  lemma WorkWrites(s: State, t: Tid, w: WorkAt, pick: nat)
    requires Shapes(s) && Chains(s) && HasTxn(s, t) && s.txns[t].pc == Work(w) && CanWork(s, w) && WriteOf(s, t)
    ensures WriteOf(DoWork(s, t, w, pick), t)
  {
    hide Shapes, Chains, WriteOf, Guar;
    WorkGuar(s, t, w, pick);
    QuietWrites(s, DoWork(s, t, w, pick), t);
  }

  lemma LateWrites(s: State, t: Tid, pick: nat)
    requires Shapes(s) && Chains(s) && CanGo(s, t, pick) && WriteOf(s, t)
    requires var pc := s.txns[t].pc; !pc.Work? && !pc.Reads? && !pc.Writes?
    ensures WriteOf(DoGo(s, t, pick), t)
  {
    hide Shapes, Chains, WriteOf, Guar;
    StatesAre(s, t);
    var s' := DoGo(s, t, pick);
    if s.txns[t].st.Abrtd? {
      LateSame(s, t, pick);
      AbortedWrites(s', t);
    } else {
      GoGuar(s, t, pick);
      LateSame(s, t, pick);
      hide DoGo;
      QuietWrites(s, s', t);
    }
  }

  lemma LateSame(s: State, t: Tid, pick: nat)
    requires Shapes(s) && CanGo(s, t, pick)
    requires var pc := s.txns[t].pc; !pc.Work? && !pc.Reads? && !pc.Writes?
    ensures var T, T' := s.txns[t], DoGo(s, t, pick).txns[t];
      && T'.wset == T.wset && T'.got == T.got && AllowsMore(T, T') && !T'.pc.Writes?
      && (T.st.Abrtd? ==> T'.st.Abrtd?) && (!T.st.Abrtd? ==> OpenWrites(T) <= OpenWrites(T'))
    ensures HasTxn(DoGo(s, t, pick), t)
  {
    hide Shapes;
    StatesAre(s, t);
    if Late(s.txns[t].pc) {
      LateStep(s, t, pick);
      hide DoGo;
    }
  }

  lemma AbortedWrites(s: State, t: Tid)
    requires HasTxn(s, t) && s.txns[t].st.Abrtd?
    ensures WriteOf(s, t)
  {
  }

  /** A new transaction has read nothing. */
  lemma NewNoClash(s: State, slot: Slot, t: Tid, r: Tid, v: Vid)
    requires HasTxn(s, t) && Clash(DoBegin(s, slot), t, r, v)
    ensures HasTxn(s, r) && Clash(s, t, r, v)
  {
  }

  lemma NewWrites(s: State, slot: Slot, t: Tid)
    requires HasTxn(s, t) && WriteOf(s, t)
    ensures WriteOf(DoBegin(s, slot), t)
  {
    var s' := DoBegin(s, slot);
    var T := s.txns[t];
    forall r: Tid, v: Vid | Clash(s', t, r, v)
      ensures HasTxn(s, r) && Clash(s, t, r, v)
    {
      NewNoClash(s, slot, t, r, v);
    }
    forall u | !T.st.Abrtd? && u in T.wset && u !in OpenWrites(T) && HasNext(s', u) ensures Covers(s', t, Prev(s', u)) {
      assert HasNext(s, u) && Covers(s, t, Prev(s, u));
    }
    if !T.st.Abrtd? && T.pc.Writes? {
      var w := T.pc.uat;
      if !w.Next? && HasNext(s', w.u) {
        var v := Prev(s, w.u);
        forall r: Tid | Clash(s', t, r, v) && (w.Scan? ==> !Outstanding(w, r, s'.txns[r])) ensures Noted(s', t, r, v) {
          assert Clash(s, t, r, v) && s'.txns[r] == s.txns[r];
          assert Noted(s, t, r, v);
        }
      }
    }
  }

  lemma BeginWrites(s: State, slot: Slot)
    requires WriteSide(s) && Shapes(s) && Chains(s)
    ensures WriteSide(DoBegin(s, slot))
  {
    hide WriteSide, Shapes, Chains;
    var s' := DoBegin(s, slot);
    forall x | 0 <= x < |s'.txns| ensures WriteOf(s', x) {
      if x < |s.txns| {
        GetWrites(s, x);
        NewWrites(s, slot, x);
      }
    }
    AllWrites(s');
  }

  /** Every step keeps every scanned version covered. */
  lemma StepWrites(s: State, step: Step)
    requires Shapes(s) && Chains(s) && BitSide(s) && WriteSide(s) && Enabled(s, step)
    ensures WriteSide(Apply(s, step))
  {
    hide Shapes, Chains, BitSide, WriteSide, WriteOf, Guar;
    var s' := Apply(s, step);
    if step.Begin? {
      BeginWrites(s, step.slot);
    } else {
      var t := step.t;
      StepGuar(s, step);
      GetWrites(s, t);
      if step.Go? { GoWrites(s, t, step.pick); } else { QuietWrites(s, s', t); }
      SameCount(s, s', t);
      forall x | 0 <= x < |s'.txns| ensures WriteOf(s', x) {
        if x != t {
          GetWrites(s, x);
          OthersWrites(s, s', t, x);
        }
      }
      AllWrites(s');
    }
  }
}
