/** When things happened: what a transaction read and overwrote, against its begin stamp, its commit
    stamp and (for SSN) its predecessor stamp. */
module EngineFacts {
  import opened Options
  import opened Engine
  import opened EngineInv
  import opened EngineShapes
  import opened EngineGuar
  import opened EngineBits

  /** Reads that pstamp already accounts for. */
  function Dated(T: Txn): set<Vid> {
    if T.pc.Work? && T.pc.wat.Enlist? then T.seen + {T.pc.wat.v} else T.seen
  }

  /** Own versions whose predecessor pstamp already accounts for. */
  function Settled(T: Txn): set<Vid> {
    if T.pc.Work? && T.pc.wat.Marking? then T.wset + {T.pc.wat.u} else T.wset
  }

  /** SSN: pstamp is no smaller than the stamp of anything read or overwritten. */
  ghost predicate PastOf(s: State, t: Tid)
    requires HasTxn(s, t)
  {
    var T := s.txns[t];
    s.cert.SSN? && !T.st.Abrtd? ==>
      && (forall v :: v in Dated(T) && HasVer(s, v) && s.vers[v].clsn.Stamped? ==> s.vers[v].clsn.n <= T.pstamp)
      && (forall u :: u in Settled(T) && HasNext(s, u) && s.vers[Prev(s, u)].clsn.Stamped? ==>
            s.vers[Prev(s, u)].clsn.n <= T.pstamp)
      && (Decided(T) ==> T.pstamp < T.sstamp)
  }

  ghost predicate WhenFor(s: State, t: Tid, u: Vid)
    requires HasTxn(s, t)
  {
    var T := s.txns[t];
    HasNext(s, u) && s.vers[Prev(s, u)].clsn.Stamped? ==> T.got == 0 || s.vers[Prev(s, u)].clsn.n < T.got
  }

  /** What was overwritten had been committed before. */
  ghost predicate WhenOf(s: State, t: Tid)
    requires HasTxn(s, t)
  {
    var T := s.txns[t];
    && (T.got != 0 ==> T.begin < T.got)
    && (forall u :: u in Made(T) ==> WhenFor(s, t, u))
  }

  ghost predicate FactsOf(s: State, t: Tid)
    requires HasTxn(s, t)
  {
    PastOf(s, t) && WhenOf(s, t)
  }

  ghost predicate Facts(s: State) { forall t :: 0 <= t < |s.txns| ==> FactsOf(s, t) }

  lemma GetFacts(s: State, t: Tid)
    requires Facts(s) && HasTxn(s, t)
    ensures FactsOf(s, t)
  {
  }

  lemma AllFacts(s: State)
    requires forall t :: 0 <= t < |s.txns| ==> FactsOf(s, t)
    ensures Facts(s)
  {
  }

  // ---------------------------------------------------------------- stability

  /** Everything at transaction t's hands was there before the step, unless t itself moved. */
  lemma Known(s: State, t: Tid)
    requires Shapes(s) && Chains(s) && HasTxn(s, t)
    ensures forall v :: v in Touched(s.txns[t]) ==>
      HasVer(s, v) && s.vers[v].clsn.Stamped? && s.vers[v].clsn.n <= s.txns[t].begin
    ensures forall u :: u in Made(s.txns[t]) ==> HasVer(s, u)
    ensures forall u :: u in Made(s.txns[t]) && HasNext(s, u) ==> s.vers[Prev(s, u)].clsn.Stamped?
    ensures Dated(s.txns[t]) <= Touched(s.txns[t]) && Settled(s.txns[t]) <= Made(s.txns[t])
  {
    hide Chains;
    assert TxnOk(s, t);
    forall u | u in Made(s.txns[t]) && HasNext(s, u) ensures s.vers[Prev(s, u)].clsn.Stamped? { GetVer(s, u); }
  }

  lemma KeepPast(s: State, s': State, m: Tid, t: Tid)
    requires Shapes(s) && Chains(s) && Guar(s, s', m) && HasTxn(s, t) && PastOf(s, t)
    requires var T, T' := s.txns[t], s'.txns[t];
      && (!T'.st.Abrtd? ==> !T.st.Abrtd? && T.pstamp <= T'.pstamp)
      && (forall v :: s.cert.SSN? && v in Dated(T') && v !in Dated(T) && HasVer(s', v) && s'.vers[v].clsn.Stamped? ==>
            s'.vers[v].clsn.n <= T'.pstamp)
      && (forall u :: (s.cert.SSN? && u in Settled(T') && u !in Settled(T) && HasNext(s', u)
                       && s'.vers[Prev(s', u)].clsn.Stamped?) ==>
            s'.vers[Prev(s', u)].clsn.n <= T'.pstamp)
      && (s.cert.SSN? && Decided(T') ==> T'.pstamp < T'.sstamp)
    ensures PastOf(s', t)
  {
    hide Shapes, Chains;
    Known(s, t);
    var T, T' := s.txns[t], s'.txns[t];
    if s.cert.SSN? && !T'.st.Abrtd? {
      forall v | v in Dated(T') && v in Dated(T) && HasVer(s', v)
        ensures s'.vers[v].clsn == s.vers[v].clsn
      {
        assert VerGuar(s, s', m, v);
      }
      forall u | u in Settled(T') && u in Settled(T) && HasNext(s', u)
        ensures HasNext(s, u) && Prev(s', u) == Prev(s, u) && s'.vers[Prev(s, u)].clsn == s.vers[Prev(s, u)].clsn
      {
        SamePrev(s, s', m, u);
      }
    }
  }

  lemma KeepWhen(s: State, s': State, m: Tid, t: Tid)
    requires Shapes(s) && Chains(s) && Guar(s, s', m) && HasTxn(s, t) && WhenOf(s, t)
    requires forall u :: u in Made(s'.txns[t]) && u !in Made(s.txns[t]) ==> WhenFor(s', t, u)
    ensures WhenOf(s', t)
  {
    hide Shapes, Chains;
    Known(s, t);
    StatesAre(s, t);
    var T, T' := s.txns[t], s'.txns[t];
    forall u | u in Made(T') && u in Made(T) && HasNext(s', u)
      ensures HasNext(s, u) && Prev(s', u) == Prev(s, u) && s'.vers[Prev(s, u)].clsn == s.vers[Prev(s, u)].clsn
      ensures s.vers[Prev(s, u)].clsn.Stamped? && s.vers[Prev(s, u)].clsn.n <= s.clock
    {
      SamePrev(s, s', m, u);
      CreatedByNow(s, Prev(s, u));
    }
  }

  /** A step of t that neither reads nor overwrites anything new. */
  lemma CalmFacts(s: State, s': State, m: Tid, t: Tid)
    requires Shapes(s) && Chains(s) && Guar(s, s', m) && HasTxn(s, t) && FactsOf(s, t)
    requires var T, T' := s.txns[t], s'.txns[t];
      && T.pstamp <= T'.pstamp && Dated(T') <= Dated(T) && Settled(T') <= Settled(T)
      && Made(T') <= Made(T) && Touched(T') <= Touched(T)
      && (s.cert.SSN? && Decided(T') ==> T'.pstamp < T'.sstamp)
    ensures FactsOf(s', t)
  {
    hide Shapes, Chains, PastOf, WhenOf, VerGuar;
    KeepPast(s, s', m, t);
    KeepWhen(s, s', m, t);
  }

  lemma ReadFacts(s: State, t: Tid, v: Vid)
    requires Shapes(s) && Chains(s) && CanRead(s, t, v) && FactsOf(s, t)
    ensures FactsOf(DoRead(s, t, v), t)
  {
    hide Shapes, Chains, PastOf, WhenOf;
    var s' := DoRead(s, t, v);
    ClientGuar(s, t);
    GetSlots(s);
    StatesAre(s, t);
    KeepPast(s, s', t, t);
    KeepWhen(s, s', t, t);
  }

  lemma UpdateFacts(s: State, t: Tid, v: Vid)
    requires Shapes(s) && Chains(s) && CanUpdate(s, t, v) && FactsOf(s, t)
    ensures FactsOf(DoUpdate(s, t, v), t)
  {
    hide Shapes, Chains, PastOf, WhenOf;
    var s' := DoUpdate(s, t, v);
    ClientGuar(s, t);
    StatesAre(s, t);
    KeepPast(s, s', t, t);
    KeepWhen(s, s', t, t);
  }

  lemma InsertFacts(s: State, t: Tid, rec: nat)
    requires Shapes(s) && Chains(s) && CanInsert(s, t, rec) && FactsOf(s, t)
    ensures FactsOf(DoInsert(s, t, rec), t)
  {
    hide Shapes, Chains, PastOf, WhenOf;
    var s' := DoInsert(s, t, rec);
    ClientGuar(s, t);
    KeepPast(s, s', t, t);
    KeepWhen(s, s', t, t);
  }

  lemma ReadSuccForm(s: State, t: Tid, v: Vid)
    requires HasTxn(s, t) && s.txns[t].pc == Work(ReadSucc(v)) && HasVer(s, v) && s.txns[t].st.Active?
    ensures var T, s' := s.txns[t], DoWork(s, t, ReadSucc(v), 0);
      && HasTxn(s', t) && s'.vers == s.vers
      && var T' := s'.txns[t];
         && T'.st == T.st && !Decided(T') && T.pstamp <= T'.pstamp && Made(T') == Made(T) && Settled(T') == Settled(T)
         && Dated(T') <= Dated(T) + {v} && Touched(T') <= Touched(T)
         && (s.cert.SSN? && s.vers[v].clsn.Stamped? ==> s.vers[v].clsn.n <= T'.pstamp)
  {
  }

  lemma ReadSuccFacts(s: State, t: Tid, v: Vid)
    requires Shapes(s) && Chains(s) && HasTxn(s, t) && s.txns[t].pc == Work(ReadSucc(v)) && HasVer(s, v)
    requires FactsOf(s, t)
    ensures FactsOf(DoWork(s, t, ReadSucc(v), 0), t)
  {
    hide Shapes, Chains, PastOf, WhenOf, VerGuar;
    var s' := DoWork(s, t, ReadSucc(v), 0);
    WorkGuar(s, t, ReadSucc(v), 0);
    StatesAre(s, t);
    ReadSuccForm(s, t, v);
    hide DoWork, Guar;
    KeepPast(s, s', t, t);
    KeepWhen(s, s', t, t);
  }

  lemma InstalledFacts(s: State, t: Tid, u: Vid, pick: nat)
    requires Shapes(s) && Chains(s) && HasTxn(s, t) && s.txns[t].pc == Work(Installed(u)) && HasNext(s, u)
    requires FactsOf(s, t)
    ensures FactsOf(DoWork(s, t, Installed(u), pick), t)
  {
    hide Shapes, Chains, PastOf, WhenOf, VerGuar;
    var s' := DoWork(s, t, Installed(u), pick);
    WorkGuar(s, t, Installed(u), pick);
    Known(s, t);
    StatesAre(s, t);
    CreatedByNow(s, Prev(s, u));
    KeepPast(s, s', t, t);
    KeepWhen(s, s', t, t);
  }

  lemma WorkFacts(s: State, t: Tid, w: WorkAt, pick: nat)
    requires Shapes(s) && Chains(s) && HasTxn(s, t) && s.txns[t].pc == Work(w) && CanWork(s, w) && FactsOf(s, t)
    ensures FactsOf(DoWork(s, t, w, pick), t)
  {
    hide Shapes, Chains, FactsOf, Guar;
    if w.ReadSucc? { ReadSuccFacts(s, t, w.v); }
    else if w.Installed? { InstalledFacts(s, t, w.u, pick); }
    else {
      WorkGuar(s, t, w, pick);
      StatesAre(s, t);
      CalmFacts(s, DoWork(s, t, w, pick), t, t);
    }
  }

  /** From the commit request on. */
  lemma CommitFacts(s: State, t: Tid, pick: nat)
    requires Shapes(s) && Chains(s) && CanGo(s, t, pick) && !s.txns[t].pc.Work? && FactsOf(s, t)
    ensures FactsOf(DoGo(s, t, pick), t)
  {
    hide Shapes, Chains, FactsOf, Guar, RecOk, TargetsFor;
    GoGuar(s, t, pick);
    StatesAre(s, t);
    var s' := DoGo(s, t, pick);
    var pc := s.txns[t].pc;
    if pc.Reads? {
      ReadsTargets(s, t, pc.todo, pc.rat, pick);
      TornGrows(s, t, pc.todo, pc.rat, pick);
    } else if pc.Writes? {
      WritesForm(s, t, pc.todo, pc.uat, pick);
    } else if Late(pc) {
      LateStep(s, t, pick);
      PastNow(s, t);
    }
    hide ReadsTxn, WritesTxn, DoStamps, DoLeave, DoForget, DoRevert;
    CalmFacts(s, s', t, t);
  }

  lemma PastNow(s: State, t: Tid)
    requires HasTxn(s, t) && FactsOf(s, t)
    ensures s.cert.SSN? && Decided(s.txns[t]) && !s.txns[t].st.Abrtd? ==> s.txns[t].pstamp < s.txns[t].sstamp
  {
  }

  lemma BeginFacts(s: State, slot: Slot)
    requires Shapes(s) && Chains(s) && Facts(s)
    ensures Facts(DoBegin(s, slot))
  {
    hide Facts, Shapes, Chains;
    var s' := DoBegin(s, slot);
    forall x | 0 <= x < |s'.txns| ensures FactsOf(s', x) {
      if x < |s.txns| {
        GetFacts(s, x);
        NewFacts(s, slot, x);
      }
    }
    AllFacts(s');
  }

  lemma NewFacts(s: State, slot: Slot, t: Tid)
    requires HasTxn(s, t) && FactsOf(s, t)
    ensures FactsOf(DoBegin(s, slot), t)
  {
    var s' := DoBegin(s, slot);
    forall u | u in Made(s.txns[t]) ensures WhenFor(s', t, u) { assert WhenFor(s, t, u); }
  }

  lemma ClientFacts(s: State, step: Step)
    requires Shapes(s) && Chains(s) && Enabled(s, step) && !step.Begin? && !step.Go? && FactsOf(s, step.t)
    ensures FactsOf(Apply(s, step), step.t)
  {
    hide Shapes, Chains, FactsOf, Guar;
    StatesAre(s, step.t);
    match step
    case Read(t, v) => ReadFacts(s, t, v);
    case Claim(t, v) => StepGuar(s, step); CalmFacts(s, Apply(s, step), t, t);
    case Update(t, v) => UpdateFacts(s, t, v);
    case Insert(t, rec) => InsertFacts(s, t, rec);
    case Commit(t) => StepGuar(s, step); CalmFacts(s, Apply(s, step), t, t);
    case Abort(t) => StepGuar(s, step); CalmFacts(s, Apply(s, step), t, t);
    case Obtain(t, d) => StepGuar(s, step); CalmFacts(s, Apply(s, step), t, t);
    case Fail(t) => StepGuar(s, step); CalmFacts(s, Apply(s, step), t, t);
  }

  /** Every step keeps the record of when things happened. */
  lemma StepFacts(s: State, step: Step)
    requires Shapes(s) && Chains(s) && Facts(s) && Enabled(s, step)
    ensures Facts(Apply(s, step))
  {
    hide Shapes, Chains, Facts, FactsOf, Guar;
    var s' := Apply(s, step);
    if step.Begin? {
      BeginFacts(s, step.slot);
    } else {
      var t := step.t;
      StepGuar(s, step);
      GetFacts(s, t);
      if !step.Go? { ClientFacts(s, step); }
      else if s.txns[t].pc.Work? { WorkFacts(s, t, s.txns[t].pc.wat, step.pick); }
      else { CommitFacts(s, t, step.pick); }
      SameCount(s, s', t);
      forall x | 0 <= x < |s'.txns| ensures FactsOf(s', x) {
        if x != t {
          GetFacts(s, x);
          PastNow(s, x);
          OthersFacts(s, s', t, x);
        }
      }
      AllFacts(s');
    }
  }

  lemma OthersFacts(s: State, s': State, m: Tid, t: Tid)
    requires Shapes(s) && Chains(s) && Guar(s, s', m) && HasTxn(s, t) && m != t && FactsOf(s, t)
    ensures FactsOf(s', t)
  {
    hide Shapes, Chains, FactsOf, VerGuar;
    StatesAre(s, t);
    PastNow(s, t);
    assert s'.txns[t] == s.txns[t];
    CalmFacts(s, s', m, t);
  }
}
