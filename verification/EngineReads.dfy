/** No committed overwriter is missed: once a read has been examined in pre-commit, every
    overwriter with a smaller stamp is accounted for. */
module EngineReads {
  import opened Options
  import opened Engine
  import opened EngineInv
  import opened EngineShapes
  import opened EngineGuar
  import opened EngineBits

  /** Tracked reads not yet examined in pre-commit. */
  function OpenReads(T: Txn): set<Vid> {
    match T.pc
    case Reads(todo, r) => if r.CheckS2? then todo else todo + ReadFocus(r)
    case _ =>
      if T.pc.Writes? || T.pc.Deciding? || T.pc.Stamps? || T.pc.Announce? || T.pc.Leave? || DonePc(T.pc) then {}
      else T.rset
  }

  /** T has taken the overwriter X of one of its reads into account. */
  predicate Knows(c: Certifier, T: Txn, X: Txn) {
    match c
    case SSN => 0 < T.sstamp <= X.sstamp
    case SSI => 0 < T.ct3 <= X.got
    case MVOCC => false
  }

  predicate KnowsMore(c: Certifier, T: Txn, T': Txn) {
    && (c.SSN? && T.sstamp != 0 ==> 0 < T'.sstamp <= T.sstamp)
    && (c.SSI? && T.ct3 != 0 ==> 0 < T'.ct3 <= T.ct3)
  }

  /** The overwriter of v, if any, is t itself, younger or aborted. */
  ghost predicate Harmless(s: State, t: Tid, v: Vid)
    requires HasTxn(s, t) && HasVer(s, v)
  {
    match OverBy(s, v)
    case None => true
    case Some(x) =>
      && HasTxn(s, x)
      && var T, X := s.txns[t], s.txns[x]; x == t || X.got == 0 || X.got > T.got || X.st.Abrtd?
  }

  /** The overwriter of v, if any, is t itself, younger, aborted, or committed and known. */
  ghost predicate Resolved(s: State, t: Tid, v: Vid)
    requires HasTxn(s, t) && HasVer(s, v)
  {
    match OverBy(s, v)
    case None => true
    case Some(x) =>
      && HasTxn(s, x)
      && var T, X := s.txns[t], s.txns[x];
         x == t || X.got == 0 || X.got > T.got || X.st.Abrtd? || (Decided(X) && Knows(s.cert, T, X))
  }

  /** A read that is not in the read set was overwritten for good when it was made. */
  ghost predicate Untracked(s: State, t: Tid, v: Vid)
    requires HasTxn(s, t) && HasVer(s, v)
  {
    var T := s.txns[t];
    match s.vers[v].over
    case None => false
    case Some(u) =>
      && HasVer(s, u) && HasTxn(s, s.vers[u].creator)
      && var x := s.vers[u].creator;
         var X := s.txns[x];
         if x == t then u in T.wset
         else u in X.wset && Decided(X) && Knows(s.cert, T, X) && (T.got == 0 || X.got < T.got)
  }

  /** x marked itself as the overwriter of v, and still is, or aborted. */
  ghost predicate Aim(s: State, t: Tid, v: Vid, x: Tid)
    requires HasTxn(s, t) && HasVer(s, v)
  {
    && HasTxn(s, x)
    && ((s.txns[x].st.Abrtd? && Harmless(s, t, v))
        || match s.vers[v].over
           case None => false
           case Some(u) => HasVer(s, u) && s.vers[u].creator == x && u in s.txns[x].wset)
  }

  ghost predicate AimOk(s: State, t: Tid, r: ReadAt)
    requires HasTxn(s, t)
  {
    var T := s.txns[t];
    match r
    case Probe(v, x) => HasVer(s, v) ==> Aim(s, t, v, x)
    case AwaitEnd(v, x) => HasVer(s, v) ==> Aim(s, t, v, x) && x != t && !s.txns[x].st.Active?
    case AwaitFate(v, x, e) =>
      HasVer(s, v) ==> Aim(s, t, v, x) && x != t && 0 < e < T.got && s.txns[x].got == e
    case TakeStamp(v, x) => HasVer(s, v) ==> Aim(s, t, v, x) && x != t && s.txns[x].st.Cmmtd?
    case _ => true
  }

  ghost predicate ReadOf(s: State, t: Tid)
    requires HasTxn(s, t)
  {
    var T := s.txns[t];
    !T.st.Abrtd? ==>
      && (forall v :: v in T.rset && v !in OpenReads(T) && HasVer(s, v) ==> Resolved(s, t, v))
      && (forall v :: v in T.seen && v !in T.rset && HasVer(s, v) ==> Untracked(s, t, v))
      && (T.pc.Reads? ==> AimOk(s, t, T.pc.rat))
  }

  ghost predicate ReadSide(s: State) { forall t :: 0 <= t < |s.txns| ==> ReadOf(s, t) }

  lemma GetReads(s: State, t: Tid)
    requires ReadSide(s) && HasTxn(s, t)
    ensures ReadOf(s, t)
  {
  }

  lemma AllReads(s: State)
    requires forall t :: 0 <= t < |s.txns| ==> ReadOf(s, t)
    ensures ReadSide(s)
  {
  }

  // ---------------------------------------------------------------- stability

  /** Stamps were handed out, and only to those who can commit. */
  ghost predicate Sane(s: State) {
    forall y :: 0 <= y < |s.txns| ==>
      && s.txns[y].got <= s.clock && (Decided(s.txns[y]) ==> s.txns[y].got != 0 && !s.txns[y].st.Abrtd?)
      && (s.txns[y].st.Active? ==> s.txns[y].got == 0)
  }

  lemma GetSane(s: State)
    requires Shapes(s)
    ensures Sane(s)
  {
    hide Shapes;
    forall y | 0 <= y < |s.txns|
      ensures s.txns[y].got <= s.clock && (Decided(s.txns[y]) ==> s.txns[y].got != 0 && !s.txns[y].st.Abrtd?)
      ensures s.txns[y].st.Active? ==> s.txns[y].got == 0
    {
      StatesAre(s, y);
    }
  }

  lemma KeepResolved(s: State, s': State, t: Tid, x: Tid, v: Vid)
    requires Guar(s, s', t) && HasTxn(s, x) && HasVer(s, v) && Resolved(s, x, v)
    requires Sane(s) && s'.txns[x].got == s.txns[x].got
    requires KnowsMore(s.cert, s.txns[x], s'.txns[x])
    requires OverBy(s, v).Some? ==> s.vers[v].over.Some? && HasVer(s, s.vers[v].over.value)
    ensures Resolved(s', x, v)
  {
    assert VerGuar(s, s', t, v);
    if s.vers[v].over.Some? && HasVer(s, s.vers[v].over.value) { assert VerGuar(s, s', t, s.vers[v].over.value); }
  }

  lemma KeepUntracked(s: State, s': State, t: Tid, x: Tid, v: Vid)
    requires Guar(s, s', t) && HasTxn(s, x) && HasVer(s, v) && Untracked(s, x, v) && !s'.txns[x].st.Abrtd?
    requires KnowsMore(s.cert, s.txns[x], s'.txns[x])
    requires Sane(s)
    ensures Untracked(s', x, v)
  {
    assert VerGuar(s, s', t, v);
    assert VerGuar(s, s', t, s.vers[v].over.value);
  }

  lemma KeepAim(s: State, s': State, t: Tid, x: Tid, v: Vid, y: Tid)
    requires Guar(s, s', t) && HasTxn(s, x) && HasVer(s, v) && Aim(s, x, v, y)
    requires Sane(s) && s'.txns[x].got == s.txns[x].got
    requires KnowsMore(s.cert, s.txns[x], s'.txns[x])
    ensures Aim(s', x, v, y)
  {
    assert VerGuar(s, s', t, v);
    if s.vers[v].over.Some? && HasVer(s, s.vers[v].over.value) { assert VerGuar(s, s', t, s.vers[v].over.value); }
  }

  /** A step of t does not disturb what another transaction has established. */
  lemma OthersReads(s: State, s': State, t: Tid, x: Tid)
    requires Shapes(s) && Guar(s, s', t) && HasTxn(s, x) && x != t && ReadOf(s, x)
    ensures ReadOf(s', x)
  {
    hide Shapes, Resolved, Untracked, Aim;
    GetSane(s);
    RsetSeen(s, x);
    var X := s.txns[x];
    assert s'.txns[x] == X;
    if !X.st.Abrtd? {
      forall v | v in X.rset && v !in OpenReads(X) && HasVer(s', v) ensures Resolved(s', x, v) {
        ReadsStamped(s, x, v);
        KeepResolved(s, s', t, x, v);
      }
      forall v | v in X.seen && v !in X.rset && HasVer(s', v) ensures Untracked(s', x, v) {
        ReadsStamped(s, x, v);
        KeepUntracked(s, s', t, x, v);
      }
      if X.pc.Reads? { OthersAim(s, s', t, x); }
    }
  }

  lemma OthersAim(s: State, s': State, t: Tid, x: Tid)
    requires Shapes(s) && Guar(s, s', t) && HasTxn(s, x) && x != t && s.txns[x].pc.Reads?
    requires AimOk(s, x, s.txns[x].pc.rat)
    ensures AimOk(s', x, s'.txns[x].pc.rat)
  {
    hide Shapes, Aim;
    GetSane(s);
    var r := s.txns[x].pc.rat;
    FocusStamped(s, x);
    match r
    case Probe(v, y) => KeepAim(s, s', t, x, v, y);
    case AwaitEnd(v, y) => KeepAim(s, s', t, x, v, y);
    case AwaitFate(v, y, e) => KeepAim(s, s', t, x, v, y);
    case TakeStamp(v, y) => KeepAim(s, s', t, x, v, y);
    case _ =>
  }

  lemma FocusStamped(s: State, x: Tid)
    requires Shapes(s) && HasTxn(s, x) && s.txns[x].pc.Reads?
    ensures forall v :: v in ReadFocus(s.txns[x].pc.rat) ==> HasVer(s, v)
    ensures Peer(s.txns[x].pc).Some? ==> HasTxn(s, Peer(s.txns[x].pc).value)
    ensures forall v :: v in s.txns[x].pc.todo + ReadFocus(s.txns[x].pc.rat) ==> v in s.txns[x].rset && HasVer(s, v)
    ensures ReadFocus(s.txns[x].pc.rat) !! s.txns[x].pc.todo
  {
    assert TxnOk(s, x);
  }

  // ---------------------------------------------------------------- a transaction's own steps

  /** t moves; at most the read v is newly settled. */
  ghost predicate Settles(s: State, s': State, t: Tid, v: Vid)
    requires HasTxn(s, t) && HasTxn(s', t)
  {
    var T, T' := s.txns[t], s'.txns[t];
    && T'.seen == T.seen && T'.rset == T.rset && KnowsMore(s.cert, T, T')
    && (T'.got == T.got || T'.rset <= OpenReads(T'))
    && OpenReads(T) <= OpenReads(T') + {v}
    && (v in OpenReads(T) && v !in OpenReads(T') ==> HasVer(s', v) && Resolved(s', t, v))
    && (T'.pc.Reads? ==> AimOk(s', t, T'.pc.rat))
  }

  lemma OwnReads(s: State, s': State, t: Tid, v: Vid)
    requires Shapes(s) && Guar(s, s', t) && ReadOf(s, t) && Settles(s, s', t, v)
    ensures ReadOf(s', t)
  {
    hide Shapes, Resolved, Untracked, AimOk;
    GetSane(s);
    RsetSeen(s, t);
    var T, T' := s.txns[t], s'.txns[t];
    if !T'.st.Abrtd? {
      forall w | w in T'.rset && w !in OpenReads(T') && HasVer(s', w) ensures Resolved(s', t, w) {
        if !(w == v && v in OpenReads(T)) {
          ReadsStamped(s, t, w);
          KeepResolved(s, s', t, t, w);
        }
      }
      forall w | w in T'.seen && w !in T'.rset && HasVer(s', w) ensures Untracked(s', t, w) {
        ReadsStamped(s, t, w);
        KeepUntracked(s, s', t, t, w);
      }
    }
  }

  /** What a successor field says, in terms of who lies on top. */
  lemma SuccMeans(s: State, v: Vid)
    requires Shapes(s) && Chains(s) && HasVer(s, v)
    ensures match s.vers[v].sstamp
      case NoSucc =>
        s.vers[v].over.Some? ==>
          && OverBy(s, v).Some? && HasTxn(s, OverBy(s, v).value)
          && (s.txns[OverBy(s, v).value].st.Active? || s.txns[OverBy(s, v).value].st.Abrtd?)
      case ByXid(x) =>
        s.vers[v].over.Some? && OverBy(s, v) == Some(x) && HasTxn(s, x) && s.vers[v].over.value in s.txns[x].wset
      case ByLog(k) =>
        && s.vers[v].over.Some? && OverBy(s, v).Some? && HasTxn(s, OverBy(s, v).value)
        && var X := s.txns[OverBy(s, v).value];
           Decided(X) && s.vers[v].over.value in X.wset && k == Legacy(s.cert, X) && X.got != 0 && 0 < k <= s.clock
  {
    hide Shapes, Chains, TopOk, CreationOk;
    GetVer(s, v);
    if s.vers[v].over.Some? {
      var x := s.vers[s.vers[v].over.value].creator;
      StatesAre(s, x);
      PendingInWset(s, x);
      if s.vers[v].sstamp.ByLog? { LogPositive(s, v); }
    }
  }

  lemma PendingInWset(s: State, x: Tid)
    requires Shapes(s) && HasTxn(s, x)
    ensures SuccPending(s.txns[x]) <= s.txns[x].wset
  {
    assert TxnOk(s, x);
  }

  /** After the look at v's successor field, v is settled, or its overwriter is examined, or t gives up. */
  lemma LookSettles(s: State, t: Tid, todo: set<Vid>, v: Vid)
    requires Shapes(s) && Chains(s) && HasTxn(s, t) && s.txns[t].pc == Reads(todo, ReadAt.Next) && HasVer(s, v)
    ensures Settles(s, PutTxn(s, t, LookAtSucc(s.cert, s.txns[t], t, todo - {v}, v, s.vers[v].sstamp)), t, v)
  {
    hide Shapes, Chains;
    if s.vers[v].sstamp.ByLog? {
      LookLogSettles(s, t, todo, v);
    } else {
      FocusStamped(s, t);
      SuccMeans(s, v);
      GetSane(s);
    }
  }

  lemma LookLogSettles(s: State, t: Tid, todo: set<Vid>, v: Vid)
    requires Shapes(s) && Chains(s) && HasTxn(s, t) && s.txns[t].pc == Reads(todo, ReadAt.Next) && HasVer(s, v)
    requires s.vers[v].sstamp.ByLog?
    ensures Settles(s, PutTxn(s, t, LookAtSucc(s.cert, s.txns[t], t, todo - {v}, v, s.vers[v].sstamp)), t, v)
  {
    hide Shapes, Chains, Resolved, AimOk, KnowsMore;
    var s' := PutTxn(s, t, LookAtSucc(s.cert, s.txns[t], t, todo - {v}, v, s.vers[v].sstamp));
    FocusStamped(s, t);
    LogResolves(s, t, todo, v);
    NoAim(s', t);
    assert todo <= (todo - {v}) + {v};
  }

  /** A final successor stamp on v settles v, whichever certifier reads it. */
  lemma LogResolves(s: State, t: Tid, todo: set<Vid>, v: Vid)
    requires Shapes(s) && Chains(s) && HasTxn(s, t) && s.txns[t].pc == Reads(todo, ReadAt.Next) && HasVer(s, v)
    requires s.vers[v].sstamp.ByLog?
    ensures var T' := LookAtSucc(s.cert, s.txns[t], t, todo - {v}, v, s.vers[v].sstamp);
      KnowsMore(s.cert, s.txns[t], T') && (T'.pc.Doomed? || Resolved(PutTxn(s, t, T'), t, v))
  {
    hide Shapes, Chains;
    StatesAre(s, t);
    GetSlots(s);
    SuccMeans(s, v);
  }

  lemma NoAim(s: State, t: Tid)
    requires HasTxn(s, t)
    ensures AimOk(s, t, ReadAt.Next) && forall v :: AimOk(s, t, CheckS2(v))
  {
  }

  lemma ProbeSettles(s: State, t: Tid, todo: set<Vid>, v: Vid, x: Tid)
    requires Shapes(s) && HasTxn(s, t) && s.txns[t].pc == Reads(todo, Probe(v, x)) && HasTxn(s, x)
    requires AimOk(s, t, Probe(v, x))
    ensures Settles(s, PutTxn(s, t, ProbeSucc(s.txns[t], t, todo, v, x, s.txns[x])), t, v)
  {
    hide Shapes;
    FocusStamped(s, t);
    StatesAre(s, x);
  }

  lemma EndSettles(s: State, t: Tid, todo: set<Vid>, v: Vid, x: Tid)
    requires Shapes(s) && HasTxn(s, t) && s.txns[t].pc == Reads(todo, AwaitEnd(v, x)) && HasTxn(s, x)
    requires AimOk(s, t, AwaitEnd(v, x)) && EndKnown(s.txns[x])
    ensures Settles(s, PutTxn(s, t, SuccEnd(s.cert, s.txns[t], todo, v, x, s.txns[x])), t, v)
  {
    hide Shapes;
    GetSlots(s);
    FocusStamped(s, t);
    StatesAre(s, t);
    StatesAre(s, x);
  }

  lemma FateSettles(s: State, t: Tid, todo: set<Vid>, v: Vid, x: Tid, e: nat)
    requires Shapes(s) && HasTxn(s, t) && s.txns[t].pc == Reads(todo, AwaitFate(v, x, e)) && HasTxn(s, x)
    requires AimOk(s, t, AwaitFate(v, x, e)) && FateKnown(s.txns[x]) && !s.cert.MVOCC?
    ensures Settles(s, PutTxn(s, t, SuccFate(s.cert, s.txns[t], todo, v, x, e, s.txns[x])), t, v)
  {
    hide Shapes;
    FocusStamped(s, t);
    StatesAre(s, x);
  }

  lemma InheritSettles(s: State, t: Tid, todo: set<Vid>, v: Vid, x: Tid)
    requires Shapes(s) && HasTxn(s, t) && s.txns[t].pc == Reads(todo, TakeStamp(v, x)) && HasTxn(s, x)
    requires AimOk(s, t, TakeStamp(v, x)) && s.cert.SSN?
    ensures Settles(s, PutTxn(s, t, InheritStamp(s.txns[t], todo, v, s.txns[x])), t, v)
  {
    hide Shapes;
    FocusStamped(s, t);
    StatesAre(s, t);
    StatesAre(s, x);
  }

  lemma RestSettles(s: State, t: Tid, todo: set<Vid>)
    requires Shapes(s) && HasTxn(s, t) && s.txns[t].pc.Reads? && s.txns[t].pc.todo == todo
    ensures s.txns[t].pc.rat.Next? && todo == {} ==> Settles(s, PutTxn(s, t, ReadsDone(s.cert, s.txns[t])), t, 0)
    ensures s.txns[t].pc.rat.CheckS2? ==> forall pick :: HasVer(s, s.txns[t].pc.rat.v) ==>
      Settles(s, PutTxn(s, t, ReadsTxn(s, t, todo, s.txns[t].pc.rat, pick)), t, 0)
  {
    hide Shapes;
    FocusStamped(s, t);
  }

  lemma ReadsCerts(s: State, t: Tid)
    requires Shapes(s) && HasTxn(s, t) && s.txns[t].pc.Reads?
    ensures (s.txns[t].pc.rat.AwaitFate? ==> !s.cert.MVOCC?) && (s.txns[t].pc.rat.TakeStamp? ==> s.cert.SSN?)
    ensures s.txns[t].pc.rat.CheckS2? ==> s.cert.SSI?
  {
    assert TxnOk(s, t);
  }

  lemma AimNow(s: State, t: Tid)
    requires Shapes(s) && HasTxn(s, t) && s.txns[t].pc.Reads? && ReadOf(s, t)
    ensures AimOk(s, t, s.txns[t].pc.rat)
  {
    StatesAre(s, t);
  }

  lemma ReadsReads(s: State, t: Tid, todo: set<Vid>, r: ReadAt, pick: nat)
    requires Shapes(s) && Chains(s) && HasTxn(s, t) && s.txns[t].pc == Reads(todo, r) && CanReads(s, todo, r, pick)
    requires ReadOf(s, t)
    ensures ReadOf(PutTxn(s, t, ReadsTxn(s, t, todo, r, pick)), t)
  {
    hide Shapes, Chains, ReadOf, Guar, AimOk, Settles;
    var s' := PutTxn(s, t, ReadsTxn(s, t, todo, r, pick));
    ReadsGuar(s, t, todo, r, pick);
    AimNow(s, t);
    ReadsCerts(s, t);
    RestSettles(s, t, todo);
    match r
    case Next =>
      if todo != {} { LookSettles(s, t, todo, pick); OwnReads(s, s', t, pick); } else { OwnReads(s, s', t, 0); }
    case Probe(v, x) => ProbeSettles(s, t, todo, v, x); OwnReads(s, s', t, v);
    case AwaitEnd(v, x) => EndSettles(s, t, todo, v, x); OwnReads(s, s', t, v);
    case AwaitFate(v, x, e) => FateSettles(s, t, todo, v, x, e); OwnReads(s, s', t, v);
    case TakeStamp(v, x) => InheritSettles(s, t, todo, v, x); OwnReads(s, s', t, v);
    case CheckS2(v) => OwnReads(s, s', t, 0);
  }

  lemma LogRead(s: State, t: Tid, v: Vid, T': Txn)
    requires Shapes(s) && Chains(s) && HasTxn(s, t) && s.txns[t].pc == Work(ReadSucc(v)) && HasVer(s, v)
    requires (s.cert.SSN? && T' == SsnRead(s.txns[t], t, v, s.vers[v]))
          || (s.cert.SSI? && exists m :: T' == SsiRead(s.txns[t], v, s.vers[v], m))
    ensures KnowsMore(s.cert, s.txns[t], T') && T'.rset == s.txns[t].rset && T'.got == s.txns[t].got
    ensures OpenReads(T') == T'.rset
    ensures !T'.pc.Reads? && T'.seen <= s.txns[t].seen + {v}
    ensures v in T'.seen && v !in T'.rset && v !in s.txns[t].seen ==> Untracked(PutTxn(s, t, T'), t, v)
  {
    hide Shapes, Chains;
    SuccMeans(s, v);
    StatesAre(s, t);
  }

  /** t has not started to examine its reads. */
  lemma LooseReads(s: State, s': State, t: Tid)
    requires Shapes(s) && Guar(s, s', t) && ReadOf(s, t)
    requires var T, T' := s.txns[t], s'.txns[t];
      && !T.st.Abrtd? && KnowsMore(s.cert, T, T') && !T'.pc.Reads? && T'.rset <= OpenReads(T')
      && forall v :: v in T'.seen && v !in T'.rset && HasVer(s', v) ==>
        (v in T.seen && v !in T.rset) || Untracked(s', t, v)
    ensures ReadOf(s', t)
  {
    hide Shapes, Resolved, Untracked;
    GetSane(s);
    var T, T' := s.txns[t], s'.txns[t];
    forall v | !T'.st.Abrtd? && v in T'.seen && v !in T'.rset && HasVer(s', v) ensures Untracked(s', t, v) {
      if v in T.seen && v !in T.rset {
        ReadsStamped(s, t, v);
        KeepUntracked(s, s', t, t, v);
      }
    }
  }

  lemma ReadSuccReads(s: State, t: Tid, v: Vid)
    requires Shapes(s) && Chains(s) && HasTxn(s, t) && s.txns[t].pc == Work(ReadSucc(v)) && HasVer(s, v) && ReadOf(s, t)
    ensures ReadOf(DoWork(s, t, ReadSucc(v), 0), t)
  {
    hide Shapes, Chains, ReadOf, Untracked, Guar, KnowsMore;
    var s' := DoWork(s, t, ReadSucc(v), 0);
    WorkGuar(s, t, ReadSucc(v), 0);
    WorkCert(s, t);
    LogRead(s, t, v, s'.txns[t]);
    LooseReads(s, s', t);
  }

  lemma WorkReads(s: State, t: Tid, w: WorkAt, pick: nat)
    requires Shapes(s) && Chains(s) && HasTxn(s, t) && s.txns[t].pc == Work(w) && CanWork(s, w) && ReadOf(s, t)
    ensures ReadOf(DoWork(s, t, w, pick), t)
  {
    hide Shapes, Chains, ReadOf, Untracked, Guar;
    if w.ReadSucc? {
      ReadSuccReads(s, t, w.v);
    } else {
      WorkGuar(s, t, w, pick);
      WorkCert(s, t);
      LooseReads(s, DoWork(s, t, w, pick), t);
    }
  }

  lemma WorkCert(s: State, t: Tid)
    requires Shapes(s) && HasTxn(s, t) && s.txns[t].pc.Work?
    ensures s.txns[t].pc.wat.ReadSucc? ==> !s.cert.MVOCC?
    ensures s.txns[t].rset <= s.txns[t].seen && !s.txns[t].st.Abrtd?
  {
    assert TxnOk(s, t);
  }

  /** A transaction whose reads were all examined, or who gave up, moves on. */
  lemma QuietReads(s: State, s': State, t: Tid)
    requires Shapes(s) && Guar(s, s', t) && ReadOf(s, t)
    requires var T, T' := s.txns[t], s'.txns[t];
      && T'.seen == T.seen && T'.rset == T.rset && T'.got == T.got && T'.sstamp == T.sstamp && T'.ct3 == T.ct3
      && OpenReads(T) <= OpenReads(T') && !T'.pc.Reads?
    ensures ReadOf(s', t)
  {
    hide Shapes, ReadOf, Resolved, VerGuar;
    OwnReads(s, s', t, 0);
  }

  lemma LateReads(s: State, t: Tid, pick: nat)
    requires Shapes(s) && Chains(s) && CanGo(s, t, pick) && ReadOf(s, t)
    requires var pc := s.txns[t].pc;
      pc.Stamps? || pc.Announce? || pc.Leave? || pc.Finished? || pc.Retired? || pc.Deciding?
    ensures ReadOf(DoGo(s, t, pick), t)
  {
    hide Shapes, Chains, ReadOf, Guar;
    GoGuar(s, t, pick);
    var s' := DoGo(s, t, pick);
    if Late(s.txns[t].pc) {
      StatesAre(s, t);
      LateStep(s, t, pick);
      hide DoGo;
      if s'.txns[t].st.Abrtd? { AbortedReads(s', t); } else { QuietReads(s, s', t); }
    } else {
      QuietReads(s, s', t);
    }
  }

  lemma WritesReads(s: State, t: Tid, todo: set<Vid>, w: WriteAt, pick: nat)
    requires Shapes(s) && Chains(s) && HasTxn(s, t) && s.txns[t].pc == Writes(todo, w) && CanWrites(s, todo, w, pick)
    requires ReadOf(s, t)
    ensures ReadOf(PutTxn(s, t, WritesTxn(s, t, todo, w, pick)), t)
  {
    hide Shapes, Chains, ReadOf, Guar, WritesTxn, RecOk;
    WritesGuar(s, t, todo, w, pick);
    WritesForm(s, t, todo, w, pick);
    QuietReads(s, PutTxn(s, t, WritesTxn(s, t, todo, w, pick)), t);
  }

  lemma AbortedReads(s: State, t: Tid)
    requires HasTxn(s, t) && s.txns[t].st.Abrtd?
    ensures ReadOf(s, t)
  {
  }

  lemma PublishReads(s: State, t: Tid)
    requires Shapes(s) && HasTxn(s, t) && s.txns[t].pc.Obtained? && ReadOf(s, t)
    ensures ReadOf(PutTxn(s, t, PublishTxn(s.cert, s.txns[t])), t)
  {
    hide Shapes, ReadOf, Guar, Resolved;
    StatesAre(s, t);
    TurnGuar(s, t);
    OwnReads(s, PutTxn(s, t, PublishTxn(s.cert, s.txns[t])), t, 0);
  }

  lemma GoReads(s: State, t: Tid, pick: nat)
    requires Shapes(s) && Chains(s) && CanGo(s, t, pick) && ReadOf(s, t)
    ensures ReadOf(DoGo(s, t, pick), t)
  {
    hide Shapes, Chains, ReadOf, Guar;
    var pc := s.txns[t].pc;
    if pc.Work? { WorkReads(s, t, pc.wat, pick); }
    else if pc.Reads? { ReadsReads(s, t, pc.todo, pc.rat, pick); }
    else if pc.Writes? { WritesReads(s, t, pc.todo, pc.uat, pick); }
    else if pc.Obtained? { PublishReads(s, t); }
    else if pc.Forget? || pc.Revert? {
      StatesAre(s, t);
      AbortedReads(DoGo(s, t, pick), t);
    }
    else { LateReads(s, t, pick); }
  }

  /** The client's own operations, before anything is examined. */
  lemma ClientReads(s: State, step: Step)
    requires Shapes(s) && Chains(s) && Enabled(s, step) && !step.Begin? && !step.Go? && ReadOf(s, step.t)
    ensures ReadOf(Apply(s, step), step.t)
  {
    hide Shapes, Chains, ReadOf, Guar;
    StepGuar(s, step);
    StatesAre(s, step.t);
    if step.Abort? { AbortedReads(Apply(s, step), step.t); }
    else { LooseReads(s, Apply(s, step), step.t); }
  }

  lemma BeginReads(s: State, slot: Slot)
    requires Chains(s) && ReadSide(s)
    ensures ReadSide(DoBegin(s, slot))
  {
    hide Chains, ReadSide;
    var s' := DoBegin(s, slot);
    forall x | 0 <= x < |s'.txns| ensures ReadOf(s', x) {
      if x < |s.txns| { GetReads(s, x); }
    }
    AllReads(s');
  }

  /** Every step keeps every examined read settled. */
  lemma StepReads(s: State, step: Step)
    requires Shapes(s) && Chains(s) && ReadSide(s) && Enabled(s, step)
    ensures ReadSide(Apply(s, step))
  {
    hide Shapes, Chains, ReadSide, ReadOf, Guar;
    var s' := Apply(s, step);
    if step.Begin? {
      BeginReads(s, step.slot);
    } else {
      var t := step.t;
      StepGuar(s, step);
      GetReads(s, t);
      if step.Go? { GoReads(s, t, step.pick); } else { ClientReads(s, step); }
      SameCount(s, s', t);
      forall x | 0 <= x < |s'.txns| ensures ReadOf(s', x) {
        if x != t {
          GetReads(s, x);
          OthersReads(s, s', t, x);
        }
      }
      AllReads(s');
    }
  }
}
