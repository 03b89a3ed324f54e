/** Four runs of SSI.  Two end in a committed cycle: one because a reader looks at s2 while the overwriter is
    between its two stores, one because a reader skips the version of an older transaction that has not stamped
    it yet.  In the third such a read does no harm, and in the fourth an updater overwrites a version that is
    younger than its own begin. */
module Anomalies {
  import opened Options
  import opened Engine
  import opened EngineRuns
  import opened Dependencies
  import opened Replay
  import opened SerialOrders
  import opened Snapshots

  function Db(clock: nat, txns: seq<Txn>, vers: seq<Version>, xids: map<Slot, Tid>): State {
    State(SSI, 1, clock, txns, vers, xids)
  }

  function Tx(slot: Slot, st: TxnState, begin: nat, got: nat, end: nat, ct3: nat, seen: set<Vid>, rset: set<Vid>,
             wset: set<Vid>, torn: bool, pc: Pc): Txn
  {
    Txn(slot, st, begin, got, end, 0, 0, ct3, seen, rset, wset, torn, pc)
  }

  function Ver(rec: nat, depth: nat, creator: Tid, clsn: Creation, next: Option<Vid>, over: Option<Vid>,
             sstamp: Successor, xstamp: nat, readers: set<Slot>): Version
  {
    Version(rec, depth, creator, clsn, next, over, sstamp, xstamp, 0, readers)
  }

  lemma StartReachable()
    ensures Reachable(Db(0, [], [], map[]))
  {
    assert Run([Db(0, [], [], map[])], []);
  }

  // Equality of states, set by set.

  predicate AlikePc(p: Pc, q: Pc) {
    match p
    case Reads(todo, r) => q.Reads? && todo == q.todo && r == q.rat
    case Writes(todo, w) =>
      && q.Writes? && todo == q.todo
      && (w == q.uat || (w.Scan? && q.uat.Scan? && w.u == q.uat.u && w.k == q.uat.k && w.bits == q.uat.bits &&
        w.at == q.uat.at))
    case Stamps(todo, a) => q.Stamps? && todo == q.todo && a == q.sat
    case Leave(todo, l) => q.Leave? && todo == q.todo && l == q.lat
    case _ => p == q
  }

  predicate AlikeTxn(X: Txn, Y: Txn) {
    && X.slot == Y.slot && X.st == Y.st && X.begin == Y.begin && X.got == Y.got && X.end == Y.end
    && X.pstamp == Y.pstamp && X.sstamp == Y.sstamp && X.ct3 == Y.ct3
    && X.seen == Y.seen && X.rset == Y.rset && X.wset == Y.wset
    && X.torn == Y.torn && AlikePc(X.pc, Y.pc)
  }

  predicate AlikeVer(X: Version, Y: Version) { X.readers == Y.readers && X.(readers := {}) == Y.(readers := {}) }

  lemma Alike(s: State, z: State)
    requires s.cert == z.cert && s.words == z.words && s.clock == z.clock && s.xids == z.xids
    requires |s.txns| == |z.txns| && forall i :: 0 <= i < |s.txns| ==> AlikeTxn(s.txns[i], z.txns[i])
    requires |s.vers| == |z.vers| && forall i :: 0 <= i < |s.vers| ==> AlikeVer(s.vers[i], z.vers[i])
    ensures s == z
  {
    forall i | 0 <= i < |s.txns| ensures s.txns[i] == z.txns[i] { assert AlikeTxn(s.txns[i], z.txns[i]); }
    forall i | 0 <= i < |s.vers| ensures s.vers[i] == z.vers[i] {
      assert AlikeVer(s.vers[i], z.vers[i]);
      assert s.vers[i] == s.vers[i].(readers := {}).(readers := s.vers[i].readers);
    }
    assert s.txns == z.txns && s.vers == z.vers;
  }

  lemma Take(s: State, step: Step) returns (s': State)
    requires Reachable(s) && Enabled(s, step)
    ensures s' == Apply(s, step) && Reachable(s')
  {
    hide Enabled, Apply;
    s' := Apply(s, step);
    var states: seq<State>, steps: seq<Step> :| Run(states, steps) && states[|steps|] == s;
    assert Run(states + [s'], steps + [step]);
  }

  // ---------------------------------------------------------------- a torn reader

  /** The loader has decided to commit records 0 and 1. */
  function TornLoading(): State {
    Db(2,
       [Tx(0, Committing, 1, 2, 2, 0, {}, {}, {0, 1}, false, Stamps({0, 1}, StampAt.Next))],
       [Ver(0, 0, 0, Pending, None, None, NoSucc, 0, {}),
        Ver(1, 0, 0, Pending, None, None, NoSucc, 0, {})],
       map[0 := 0])
  }

  /** Record 0 is stamped. */
  function TornHalfLoaded(): State {
    Db(2,
       [Tx(0, Committing, 1, 2, 2, 0, {}, {}, {0, 1}, false, Stamps({1}, StampAt.Next))],
       [Ver(0, 0, 0, Stamped(2), None, None, NoSucc, 2, {}),
        Ver(1, 0, 0, Pending, None, None, NoSucc, 0, {})],
       map[0 := 0])
  }

  /** Both records are stamped. */
  function TornLoaded(): State {
    Db(2,
       [Tx(0, Committing, 1, 2, 2, 0, {}, {}, {0, 1}, false, Stamps({}, StampAt.Next))],
       [Ver(0, 0, 0, Stamped(2), None, None, NoSucc, 2, {}),
        Ver(1, 0, 0, Stamped(2), None, None, NoSucc, 2, {})],
       map[0 := 0])
  }

  /** Transaction 1 has read record 0. */
  function TornRead(): State {
    Db(2,
       [Tx(0, Committing, 1, 2, 2, 0, {}, {}, {0, 1}, false, Stamps({}, StampAt.Next)),
        Tx(1, Active, 3, 0, 0, 0, {0}, {0}, {}, false, Work(Idle))],
       [Ver(0, 0, 0, Stamped(2), None, None, NoSucc, 2, {1}),
        Ver(1, 0, 0, Stamped(2), None, None, NoSucc, 2, {})],
       map[0 := 0, 1 := 1])
  }

  /** Transaction 2 has overwritten record 0. */
  function TornOverwritten(): State {
    Db(2,
       [Tx(0, Committing, 1, 2, 2, 0, {}, {}, {0, 1}, false, Stamps({}, StampAt.Next)),
        Tx(1, Active, 3, 0, 0, 0, {0}, {0}, {}, false, Work(Idle)),
        Tx(2, Active, 3, 0, 0, 0, {}, {}, {2}, false, Work(Idle))],
       [Ver(0, 0, 0, Stamped(2), None, Some(2), ByXid(2), 2, {1}),
        Ver(1, 0, 0, Stamped(2), None, None, NoSucc, 2, {}),
        Ver(0, 1, 2, Pending, Some(0), None, NoSucc, 0, {})],
       map[0 := 0, 1 := 1, 2 := 2])
  }

  /** Transaction 2 has decided to commit. */
  function TornPassed(): State {
    Db(4,
       [Tx(0, Committing, 1, 2, 2, 0, {}, {}, {0, 1}, false, Stamps({}, StampAt.Next)),
        Tx(1, Active, 3, 0, 0, 0, {0}, {0}, {}, false, Work(Idle)),
        Tx(2, Committing, 3, 4, 4, 0, {}, {}, {2}, false, Stamps({2}, StampAt.Next))],
       [Ver(0, 0, 0, Stamped(2), None, Some(2), ByXid(2), 2, {1}),
        Ver(1, 0, 0, Stamped(2), None, None, NoSucc, 2, {}),
        Ver(0, 1, 2, Pending, Some(0), None, NoSucc, 0, {})],
       map[0 := 0, 1 := 1, 2 := 2])
  }

  /** Transaction 2 has stamped its version. */
  function TornStamped(): State {
    Db(4,
       [Tx(0, Committing, 1, 2, 2, 0, {}, {}, {0, 1}, false, Stamps({}, StampAt.Next)),
        Tx(1, Active, 3, 0, 0, 0, {0}, {0}, {}, false, Work(Idle)),
        Tx(2, Committing, 3, 4, 4, 0, {}, {}, {2}, false, Stamps({}, StampAt.Next))],
       [Ver(0, 0, 0, Stamped(2), None, Some(2), ByLog(4), 2, {1}),
        Ver(1, 0, 0, Stamped(2), None, None, NoSucc, 2, {}),
        Ver(0, 1, 2, Stamped(4), Some(0), None, NoSucc, 4, {})],
       map[0 := 0, 1 := 1, 2 := 2])
  }

  /** Transaction 3 has read the new version of record 0. */
  function TornFollowed(): State {
    Db(4,
       [Tx(0, Committing, 1, 2, 2, 0, {}, {}, {0, 1}, false, Stamps({}, StampAt.Next)),
        Tx(1, Active, 3, 0, 0, 0, {0}, {0}, {}, false, Work(Idle)),
        Tx(2, Committing, 3, 4, 4, 0, {}, {}, {2}, false, Stamps({}, StampAt.Next)),
        Tx(3, Active, 5, 0, 0, 0, {2}, {2}, {}, false, Work(Idle))],
       [Ver(0, 0, 0, Stamped(2), None, Some(2), ByLog(4), 2, {1}),
        Ver(1, 0, 0, Stamped(2), None, None, NoSucc, 2, {}),
        Ver(0, 1, 2, Stamped(4), Some(0), None, NoSucc, 4, {3})],
       map[0 := 0, 1 := 1, 2 := 2, 3 := 3])
  }

  /** Transaction 1 has overwritten record 1 and has a commit stamp. */
  function TornWriting(): State {
    Db(6,
       [Tx(0, Committing, 1, 2, 2, 0, {}, {}, {0, 1}, false, Stamps({}, StampAt.Next)),
        Tx(1, Committing, 3, 6, 0, 0, {0}, {0}, {3}, false, Obtained),
        Tx(2, Committing, 3, 4, 4, 0, {}, {}, {2}, false, Stamps({}, StampAt.Next)),
        Tx(3, Active, 5, 0, 0, 0, {2}, {2}, {}, false, Work(Idle))],
       [Ver(0, 0, 0, Stamped(2), None, Some(2), ByLog(4), 2, {1}),
        Ver(1, 0, 0, Stamped(2), None, Some(3), ByXid(1), 2, {}),
        Ver(0, 1, 2, Stamped(4), Some(0), None, NoSucc, 4, {3}),
        Ver(1, 1, 1, Pending, Some(1), None, NoSucc, 0, {})],
       map[0 := 0, 1 := 1, 2 := 2, 3 := 3])
  }

  /** Transaction 1 is a possible pivot and scans the readers of record 1. */
  function TornScanning(): State {
    Db(6,
       [Tx(0, Committing, 1, 2, 2, 0, {}, {}, {0, 1}, false, Stamps({}, StampAt.Next)),
        Tx(1, Committing, 3, 6, 6, 4, {0}, {0}, {3}, false, Writes({}, Scan(3, 0, {}, Bits))),
        Tx(2, Committing, 3, 4, 4, 0, {}, {}, {2}, false, Stamps({}, StampAt.Next)),
        Tx(3, Active, 5, 0, 0, 0, {2}, {2}, {}, false, Work(Idle))],
       [Ver(0, 0, 0, Stamped(2), None, Some(2), ByLog(4), 2, {1}),
        Ver(1, 0, 0, Stamped(2), None, Some(3), ByXid(1), 2, {}),
        Ver(0, 1, 2, Stamped(4), Some(0), None, NoSucc, 4, {3}),
        Ver(1, 1, 1, Pending, Some(1), None, NoSucc, 0, {})],
       map[0 := 0, 1 := 1, 2 := 2, 3 := 3])
  }

  /** Transaction 1 has found none and decided to commit. */
  function TornDecided(): State {
    Db(6,
       [Tx(0, Committing, 1, 2, 2, 0, {}, {}, {0, 1}, false, Stamps({}, StampAt.Next)),
        Tx(1, Committing, 3, 6, 6, 4, {0}, {0}, {3}, false, Stamps({3}, StampAt.Next)),
        Tx(2, Committing, 3, 4, 4, 0, {}, {}, {2}, false, Stamps({}, StampAt.Next)),
        Tx(3, Active, 5, 0, 0, 0, {2}, {2}, {}, false, Work(Idle))],
       [Ver(0, 0, 0, Stamped(2), None, Some(2), ByLog(4), 2, {1}),
        Ver(1, 0, 0, Stamped(2), None, Some(3), ByXid(1), 2, {}),
        Ver(0, 1, 2, Stamped(4), Some(0), None, NoSucc, 4, {3}),
        Ver(1, 1, 1, Pending, Some(1), None, NoSucc, 0, {})],
       map[0 := 0, 1 := 1, 2 := 2, 3 := 3])
  }

  /** Transaction 3 read s2 of record 1 as zero, and then the final successor stamp. */
  function TornMissed(): State {
    Db(6,
       [Tx(0, Committing, 1, 2, 2, 0, {}, {}, {0, 1}, false, Stamps({}, StampAt.Next)),
        Tx(1, Committing, 3, 6, 6, 4, {0}, {0}, {3}, false, Stamps({}, StampS2(3))),
        Tx(2, Committing, 3, 4, 4, 0, {}, {}, {2}, false, Stamps({}, StampAt.Next)),
        Tx(3, Active, 5, 0, 0, 6, {1, 2}, {2}, {}, true, Work(Idle))],
       [Ver(0, 0, 0, Stamped(2), None, Some(2), ByLog(4), 2, {1}),
        Ver(1, 0, 0, Stamped(2), None, Some(3), ByLog(6), 2, {}),
        Ver(0, 1, 2, Stamped(4), Some(0), None, NoSucc, 4, {3}),
        Ver(1, 1, 1, Pending, Some(1), None, NoSucc, 0, {})],
       map[0 := 0, 1 := 1, 2 := 2, 3 := 3])
  }

  /** Transaction 3 has decided to commit. */
  function TornEnd(): State {
    Db(8,
       [Tx(0, Committing, 1, 2, 2, 0, {}, {}, {0, 1}, false, Stamps({}, StampAt.Next)),
        Tx(1, Committing, 3, 6, 6, 4, {0}, {0}, {3}, false, Stamps({}, StampS2(3))),
        Tx(2, Committing, 3, 4, 4, 0, {}, {}, {2}, false, Stamps({}, StampAt.Next)),
        Tx(3, Committing, 5, 8, 8, 6, {1, 2}, {2}, {}, true, Stamps({}, StampAt.Next))],
       [Ver(0, 0, 0, Stamped(2), None, Some(2), ByLog(4), 2, {1}),
        Ver(1, 0, 0, Stamped(2), None, Some(3), ByLog(6), 2, {}),
        Ver(0, 1, 2, Stamped(4), Some(0), None, NoSucc, 4, {3}),
        Ver(1, 1, 1, Pending, Some(1), None, NoSucc, 0, {})],
       map[0 := 0, 1 := 1, 2 := 2, 3 := 3])
  }

  lemma ToTornLoading()
    ensures Reachable(TornLoading())
  {
    StartReachable();
    hide Reachable, SsnRead, CanWork, DoWork, CanWrites, WritesTxn, ScanTxn, LastX, CanScan, CanStamps, DoStamps,
      CanLeave, DoLeave, CanForget, DoForget, CanRevert, DoRevert, AnnounceTxn, AbortTxn, CanRead, DoRead, ReadTxn;
    var s0 := Db(0, [], [], map[]);
    var s1 := Take(s0, Begin(0));
    var s2 := Take(s1, Insert(0, 0));
    var s3 := Take(s2, Insert(0, 1));
    var s4 := Take(s3, Commit(0));
    var s5 := Take(s4, Obtain(0, 2));
    var s6 := Take(s5, Go(0, 0));
    var s7 := Take(s6, Go(0, 0));
    var s8 := Take(s7, Go(0, 0));
    Alike(s8, TornLoading());
  }

  lemma ToTornHalfLoaded()
    ensures Reachable(TornHalfLoaded())
  {
    ToTornLoading();
    hide Reachable, SsnRead, CanWork, DoWork, CanReads, ReadsTxn, LookAtSucc, ProbeSucc, SuccEnd, SuccFate,
      InheritStamp, ReadsDone, CanWrites, WritesTxn, ScanTxn, LastX, CanScan, CanLeave, DoLeave, CanForget, DoForget,
      CanRevert, DoRevert, AnnounceTxn, AbortTxn, PublishTxn, CanRead, DoRead, ReadTxn, CanUpdate, DoUpdate,
      CanClaim, CanInsert, DoInsert, DoBegin, Settle;
    var s0 := TornLoading();
    var s1 := Take(s0, Go(0, 0));
    var s2 := Take(s1, Go(0, 0));
    var s3 := Take(s2, Go(0, 0));
    Alike(s3, TornHalfLoaded());
  }

  lemma ToTornLoaded()
    ensures Reachable(TornLoaded())
  {
    ToTornHalfLoaded();
    hide Reachable, SsnRead, CanWork, DoWork, CanReads, ReadsTxn, LookAtSucc, ProbeSucc, SuccEnd, SuccFate,
      InheritStamp, ReadsDone, CanWrites, WritesTxn, ScanTxn, LastX, CanScan, CanLeave, DoLeave, CanForget, DoForget,
      CanRevert, DoRevert, AnnounceTxn, AbortTxn, PublishTxn, CanRead, DoRead, ReadTxn, CanUpdate, DoUpdate,
      CanClaim, CanInsert, DoInsert, DoBegin, Settle;
    var s0 := TornHalfLoaded();
    var s1 := Take(s0, Go(0, 1));
    var s2 := Take(s1, Go(0, 0));
    var s3 := Take(s2, Go(0, 0));
    Alike(s3, TornLoaded());
  }

  lemma ToTornRead()
    ensures Reachable(TornRead())
  {
    ToTornLoaded();
    hide Reachable, SsnRead, CanReads, ReadsTxn, LookAtSucc, ProbeSucc, SuccEnd, SuccFate, InheritStamp, ReadsDone,
      CanWrites, WritesTxn, ScanTxn, LastX, CanScan, CanStamps, DoStamps, CanLeave, DoLeave, CanForget, DoForget,
      CanRevert, DoRevert, AnnounceTxn, AbortTxn, PublishTxn, CanUpdate, DoUpdate, CanClaim, ClaimTxn, CanInsert,
      DoInsert, InstalledTxn;
    var s0 := TornLoaded();
    var s1 := Take(s0, Begin(1));
    var s2 := Take(s1, Read(1, 0));
    var s3 := Take(s2, Go(1, 0));
    var s4 := Take(s3, Go(1, 0));
    var s5 := Take(s4, Go(1, 0));
    Alike(s5, TornRead());
  }

  lemma ToTornOverwritten()
    ensures Reachable(TornOverwritten())
  {
    ToTornRead();
    hide Reachable, SsnRead, CanReads, ReadsTxn, LookAtSucc, ProbeSucc, SuccEnd, SuccFate, InheritStamp, ReadsDone,
      CanWrites, WritesTxn, ScanTxn, LastX, CanScan, CanStamps, DoStamps, CanLeave, DoLeave, CanForget, DoForget,
      CanRevert, DoRevert, AnnounceTxn, AbortTxn, PublishTxn, CanRead, DoRead, ReadTxn, Settle, SsiRead, EnlistTxn,
      MissesS2, CanClaim, ClaimTxn, CanInsert, DoInsert;
    var s0 := TornRead();
    var s1 := Take(s0, Begin(2));
    var s2 := Take(s1, Update(2, 0));
    var s3 := Take(s2, Go(2, 0));
    var s4 := Take(s3, Go(2, 0));
    Alike(s4, TornOverwritten());
  }

  lemma ToTornPassed()
    ensures Reachable(TornPassed())
  {
    ToTornOverwritten();
    hide Reachable, SsnRead, CanWork, DoWork, CanWrites, WritesTxn, ScanTxn, LastX, CanScan, CanStamps, DoStamps,
      CanLeave, DoLeave, CanForget, DoForget, CanRevert, DoRevert, AnnounceTxn, AbortTxn, CanRead, DoRead, ReadTxn,
      CanUpdate, DoUpdate, CanClaim, CanInsert, DoInsert, DoBegin;
    var s0 := TornOverwritten();
    var s1 := Take(s0, Commit(2));
    var s2 := Take(s1, Obtain(2, 2));
    var s3 := Take(s2, Go(2, 0));
    var s4 := Take(s3, Go(2, 0));
    var s5 := Take(s4, Go(2, 0));
    Alike(s5, TornPassed());
  }

  lemma ToTornStamped()
    ensures Reachable(TornStamped())
  {
    ToTornPassed();
    hide Reachable, SsnRead, CanWork, DoWork, CanReads, ReadsTxn, LookAtSucc, ProbeSucc, SuccEnd, SuccFate,
      InheritStamp, ReadsDone, CanWrites, WritesTxn, ScanTxn, LastX, CanScan, CanLeave, DoLeave, CanForget, DoForget,
      CanRevert, DoRevert, AnnounceTxn, AbortTxn, PublishTxn, CanRead, DoRead, ReadTxn, CanUpdate, DoUpdate,
      CanClaim, CanInsert, DoInsert, DoBegin, Settle;
    var s0 := TornPassed();
    var s1 := Take(s0, Go(2, 2));
    var s2 := Take(s1, Go(2, 0));
    var s3 := Take(s2, Go(2, 0));
    var s4 := Take(s3, Go(2, 0));
    var s5 := Take(s4, Go(2, 0));
    Alike(s5, TornStamped());
  }

  lemma ToTornFollowed()
    ensures Reachable(TornFollowed())
  {
    ToTornStamped();
    hide Reachable, SsnRead, CanReads, ReadsTxn, LookAtSucc, ProbeSucc, SuccEnd, SuccFate, InheritStamp, ReadsDone,
      CanWrites, WritesTxn, ScanTxn, LastX, CanScan, CanStamps, DoStamps, CanLeave, DoLeave, CanForget, DoForget,
      CanRevert, DoRevert, AnnounceTxn, AbortTxn, PublishTxn;
    var s0 := TornStamped();
    var s1 := Take(s0, Begin(3));
    var s2 := Take(s1, Read(3, 2));
    var s3 := Take(s2, Go(3, 0));
    var s4 := Take(s3, Go(3, 0));
    var s5 := Take(s4, Go(3, 0));
    Alike(s5, TornFollowed());
  }

  lemma ToTornWriting()
    ensures Reachable(TornWriting())
  {
    ToTornFollowed();
    hide Reachable, SsnRead, CanReads, ReadsTxn, LookAtSucc, ProbeSucc, SuccEnd, SuccFate, InheritStamp, ReadsDone,
      CanWrites, WritesTxn, ScanTxn, LastX, CanScan, CanStamps, DoStamps, CanLeave, DoLeave, CanForget, DoForget,
      CanRevert, DoRevert, AnnounceTxn, AbortTxn, PublishTxn, CanRead, DoRead, ReadTxn, Settle;
    var s0 := TornFollowed();
    var s1 := Take(s0, Update(1, 1));
    var s2 := Take(s1, Go(1, 0));
    var s3 := Take(s2, Go(1, 0));
    var s4 := Take(s3, Commit(1));
    var s5 := Take(s4, Obtain(1, 2));
    Alike(s5, TornWriting());
  }

  lemma ToTornScanning()
    ensures Reachable(TornScanning())
  {
    ToTornWriting();
    hide Reachable, SsnRead, CanWork, DoWork, CanStamps, DoStamps, CanLeave, DoLeave, CanForget, DoForget, CanRevert,
      DoRevert, AnnounceTxn, AbortTxn, CanRead, DoRead, ReadTxn, CanUpdate, DoUpdate, CanClaim, CanInsert, DoInsert,
      DoBegin, Settle;
    var s0 := TornWriting();
    var s1 := Take(s0, Go(1, 0));
    var s2 := Take(s1, Go(1, 0));
    var s3 := Take(s2, Go(1, 0));
    var s4 := Take(s3, Go(1, 0));
    var s5 := Take(s4, Go(1, 3));
    Alike(s5, TornScanning());
  }

  lemma ToTornDecided()
    ensures Reachable(TornDecided())
  {
    ToTornScanning();
    hide Reachable, SsnRead, CanWork, DoWork, CanReads, ReadsTxn, LookAtSucc, ProbeSucc, SuccEnd, SuccFate,
      InheritStamp, ReadsDone, CanStamps, DoStamps, CanLeave, DoLeave, CanForget, DoForget, CanRevert, DoRevert,
      AnnounceTxn, AbortTxn, PublishTxn, CanRead, DoRead, ReadTxn, CanUpdate, DoUpdate, CanClaim, CanInsert,
      DoInsert, DoBegin;
    var s0 := TornScanning();
    var s1 := Take(s0, Go(1, 0));
    var s2 := Take(s1, Go(1, 0));
    var s3 := Take(s2, Go(1, 0));
    var s4 := Take(s3, Go(1, 0));
    var s5 := Take(s4, Go(1, 0));
    Alike(s5, TornDecided());
  }

  lemma ToTornMissed()
    ensures Reachable(TornMissed())
  {
    ToTornDecided();
    hide Reachable, SsnRead, CanReads, ReadsTxn, LookAtSucc, ProbeSucc, SuccEnd, SuccFate, InheritStamp, ReadsDone,
      CanWrites, WritesTxn, ScanTxn, LastX, CanScan, CanLeave, DoLeave, CanForget, DoForget, CanRevert, DoRevert,
      AnnounceTxn, AbortTxn, PublishTxn, CanUpdate, DoUpdate, CanClaim, CanInsert, DoInsert, DoBegin, Settle;
    var s0 := TornDecided();
    var s1 := Take(s0, Read(3, 1));
    var s2 := Take(s1, Go(3, 0));
    var s3 := Take(s2, Go(1, 3));
    var s4 := Take(s3, Go(1, 0));
    var s5 := Take(s4, Go(3, 0));
    Alike(s5, TornMissed());
  }

  lemma ToTornEnd()
    ensures Reachable(TornEnd())
  {
    ToTornMissed();
    hide Reachable, SsnRead, CanWork, DoWork, CanStamps, DoStamps, CanLeave, DoLeave, CanForget, DoForget, CanRevert,
      DoRevert, AnnounceTxn, AbortTxn, CanRead, DoRead, ReadTxn, CanUpdate, DoUpdate, CanClaim, CanInsert, DoInsert,
      DoBegin;
    var s0 := TornMissed();
    var s1 := Take(s0, Commit(3));
    var s2 := Take(s1, Obtain(3, 2));
    var s3 := Take(s2, Go(3, 0));
    var s4 := Take(s3, Go(3, 2));
    var s5 := Take(s4, Go(3, 0));
    var s6 := Take(s5, Go(3, 0));
    var s7 := Take(s6, Go(3, 0));
    Alike(s7, TornEnd());
  }

  /** A reachable state of SSI with a committed dangerous structure that is also a cycle, without stale reads. */
  lemma TornAnomaly()
    ensures Reachable(TornEnd()) && Dangerous(TornEnd(), 3, 1, 2) && Cycle(TornEnd(), [3, 1, 2, 3])
    ensures forall a: Tid, b: Tid :: !Stale(TornEnd(), a, b)
  {
    ToTornEnd();
    var s := TornEnd();
    hide Reachable;
    assert ReadWrite(s, 3, 1, 3);
    assert ReadWrite(s, 1, 2, 2);
    assert WriteRead(s, 2, 3, 2);
  }

  // ---------------------------------------------------------------- a stale reader

  /** Record 0 is stamped. */
  function SkewLoaded(): State {
    Db(2,
       [Tx(0, Committing, 1, 2, 2, 0, {}, {}, {0}, false, Stamps({}, StampAt.Next))],
       [Ver(0, 0, 0, Stamped(2), None, None, NoSucc, 2, {})],
       map[0 := 0])
  }

  /** Transaction 1 has overwritten record 0. */
  function SkewOverwritten(): State {
    Db(2,
       [Tx(0, Committing, 1, 2, 2, 0, {}, {}, {0}, false, Stamps({}, StampAt.Next)),
        Tx(1, Active, 3, 0, 0, 0, {}, {}, {1}, false, Work(Idle))],
       [Ver(0, 0, 0, Stamped(2), None, Some(1), ByXid(1), 2, {}),
        Ver(0, 1, 1, Pending, Some(0), None, NoSucc, 0, {})],
       map[0 := 0, 1 := 1])
  }

  /** Transaction 1 has inserted record 1 and decided to commit. */
  function SkewPassed(): State {
    Db(4,
       [Tx(0, Committing, 1, 2, 2, 0, {}, {}, {0}, false, Stamps({}, StampAt.Next)),
        Tx(1, Committing, 3, 4, 4, 0, {}, {}, {1, 2}, false, Stamps({1, 2}, StampAt.Next))],
       [Ver(0, 0, 0, Stamped(2), None, Some(1), ByXid(1), 2, {}),
        Ver(0, 1, 1, Pending, Some(0), None, NoSucc, 0, {}),
        Ver(1, 0, 1, Pending, None, None, NoSucc, 0, {})],
       map[0 := 0, 1 := 1])
  }

  /** Transaction 1 has stamped record 1 but not yet record 0. */
  function SkewHalf(): State {
    Db(4,
       [Tx(0, Committing, 1, 2, 2, 0, {}, {}, {0}, false, Stamps({}, StampAt.Next)),
        Tx(1, Committing, 3, 4, 4, 0, {}, {}, {1, 2}, false, Stamps({1}, StampAt.Next))],
       [Ver(0, 0, 0, Stamped(2), None, Some(1), ByXid(1), 2, {}),
        Ver(0, 1, 1, Pending, Some(0), None, NoSucc, 0, {}),
        Ver(1, 0, 1, Stamped(4), None, None, NoSucc, 4, {})],
       map[0 := 0, 1 := 1])
  }

  /** Transaction 2 has read record 1. */
  function SkewRead(): State {
    Db(4,
       [Tx(0, Committing, 1, 2, 2, 0, {}, {}, {0}, false, Stamps({}, StampAt.Next)),
        Tx(1, Committing, 3, 4, 4, 0, {}, {}, {1, 2}, false, Stamps({1}, StampAt.Next)),
        Tx(2, Active, 5, 0, 0, 0, {2}, {2}, {}, false, Work(Idle))],
       [Ver(0, 0, 0, Stamped(2), None, Some(1), ByXid(1), 2, {}),
        Ver(0, 1, 1, Pending, Some(0), None, NoSucc, 0, {}),
        Ver(1, 0, 1, Stamped(4), None, None, NoSucc, 4, {2})],
       map[0 := 0, 1 := 1, 2 := 2])
  }

  /** Transaction 2 has inserted record 2 and examined its read. */
  function SkewExamined(): State {
    Db(6,
       [Tx(0, Committing, 1, 2, 2, 0, {}, {}, {0}, false, Stamps({}, StampAt.Next)),
        Tx(1, Committing, 3, 4, 4, 0, {}, {}, {1, 2}, false, Stamps({1}, StampAt.Next)),
        Tx(2, Committing, 5, 6, 6, 0, {2}, {2}, {3}, false, Deciding)],
       [Ver(0, 0, 0, Stamped(2), None, Some(1), ByXid(1), 2, {}),
        Ver(0, 1, 1, Pending, Some(0), None, NoSucc, 0, {}),
        Ver(1, 0, 1, Stamped(4), None, None, NoSucc, 4, {2}),
        Ver(2, 0, 2, Pending, None, None, NoSucc, 0, {})],
       map[0 := 0, 1 := 1, 2 := 2])
  }

  /** Transaction 2 has stamped record 2. */
  function SkewSecond(): State {
    Db(6,
       [Tx(0, Committing, 1, 2, 2, 0, {}, {}, {0}, false, Stamps({}, StampAt.Next)),
        Tx(1, Committing, 3, 4, 4, 0, {}, {}, {1, 2}, false, Stamps({1}, StampAt.Next)),
        Tx(2, Committing, 5, 6, 6, 0, {2}, {2}, {3}, false, Stamps({}, StampAt.Next))],
       [Ver(0, 0, 0, Stamped(2), None, Some(1), ByXid(1), 2, {}),
        Ver(0, 1, 1, Pending, Some(0), None, NoSucc, 0, {}),
        Ver(1, 0, 1, Stamped(4), None, None, NoSucc, 4, {2}),
        Ver(2, 0, 2, Stamped(6), None, None, NoSucc, 6, {})],
       map[0 := 0, 1 := 1, 2 := 2])
  }

  /** Transaction 3 has read record 2. */
  function SkewThird(): State {
    Db(6,
       [Tx(0, Committing, 1, 2, 2, 0, {}, {}, {0}, false, Stamps({}, StampAt.Next)),
        Tx(1, Committing, 3, 4, 4, 0, {}, {}, {1, 2}, false, Stamps({1}, StampAt.Next)),
        Tx(2, Committing, 5, 6, 6, 0, {2}, {2}, {3}, false, Stamps({}, StampAt.Next)),
        Tx(3, Active, 7, 0, 0, 0, {3}, {3}, {}, false, Work(Idle))],
       [Ver(0, 0, 0, Stamped(2), None, Some(1), ByXid(1), 2, {}),
        Ver(0, 1, 1, Pending, Some(0), None, NoSucc, 0, {}),
        Ver(1, 0, 1, Stamped(4), None, None, NoSucc, 4, {2}),
        Ver(2, 0, 2, Stamped(6), None, None, NoSucc, 6, {3})],
       map[0 := 0, 1 := 1, 2 := 2, 3 := 3])
  }

  /** Transaction 3 has skipped the new version of record 0 and read the old one. */
  function SkewSkipped(): State {
    Db(6,
       [Tx(0, Committing, 1, 2, 2, 0, {}, {}, {0}, false, Stamps({}, StampAt.Next)),
        Tx(1, Committing, 3, 4, 4, 0, {}, {}, {1, 2}, false, Stamps({1}, StampAt.Next)),
        Tx(2, Committing, 5, 6, 6, 0, {2}, {2}, {3}, false, Stamps({}, StampAt.Next)),
        Tx(3, Active, 7, 0, 0, 0, {0, 3}, {0, 3}, {}, false, Work(Idle))],
       [Ver(0, 0, 0, Stamped(2), None, Some(1), ByXid(1), 2, {3}),
        Ver(0, 1, 1, Pending, Some(0), None, NoSucc, 0, {}),
        Ver(1, 0, 1, Stamped(4), None, None, NoSucc, 4, {2}),
        Ver(2, 0, 2, Stamped(6), None, None, NoSucc, 6, {3})],
       map[0 := 0, 1 := 1, 2 := 2, 3 := 3])
  }

  /** Transaction 1 has stamped record 0. */
  function SkewWhole(): State {
    Db(6,
       [Tx(0, Committing, 1, 2, 2, 0, {}, {}, {0}, false, Stamps({}, StampAt.Next)),
        Tx(1, Committing, 3, 4, 4, 0, {}, {}, {1, 2}, false, Stamps({}, StampAt.Next)),
        Tx(2, Committing, 5, 6, 6, 0, {2}, {2}, {3}, false, Stamps({}, StampAt.Next)),
        Tx(3, Active, 7, 0, 0, 0, {0, 3}, {0, 3}, {}, false, Work(Idle))],
       [Ver(0, 0, 0, Stamped(2), None, Some(1), ByLog(4), 2, {3}),
        Ver(0, 1, 1, Stamped(4), Some(0), None, NoSucc, 4, {}),
        Ver(1, 0, 1, Stamped(4), None, None, NoSucc, 4, {2}),
        Ver(2, 0, 2, Stamped(6), None, None, NoSucc, 6, {3})],
       map[0 := 0, 1 := 1, 2 := 2, 3 := 3])
  }

  /** Transaction 3 has found its overwriter. */
  function SkewChecked(): State {
    Db(8,
       [Tx(0, Committing, 1, 2, 2, 0, {}, {}, {0}, false, Stamps({}, StampAt.Next)),
        Tx(1, Committing, 3, 4, 4, 0, {}, {}, {1, 2}, false, Stamps({}, StampAt.Next)),
        Tx(2, Committing, 5, 6, 6, 0, {2}, {2}, {3}, false, Stamps({}, StampAt.Next)),
        Tx(3, Committing, 7, 8, 8, 4, {0, 3}, {0, 3}, {}, false, Reads({3}, ReadAt.Next))],
       [Ver(0, 0, 0, Stamped(2), None, Some(1), ByLog(4), 2, {3}),
        Ver(0, 1, 1, Stamped(4), Some(0), None, NoSucc, 4, {}),
        Ver(1, 0, 1, Stamped(4), None, None, NoSucc, 4, {2}),
        Ver(2, 0, 2, Stamped(6), None, None, NoSucc, 6, {3})],
       map[0 := 0, 1 := 1, 2 := 2, 3 := 3])
  }

  /** Transaction 3 has decided to commit. */
  function SkewEnd(): State {
    Db(8,
       [Tx(0, Committing, 1, 2, 2, 0, {}, {}, {0}, false, Stamps({}, StampAt.Next)),
        Tx(1, Committing, 3, 4, 4, 0, {}, {}, {1, 2}, false, Stamps({}, StampAt.Next)),
        Tx(2, Committing, 5, 6, 6, 0, {2}, {2}, {3}, false, Stamps({}, StampAt.Next)),
        Tx(3, Committing, 7, 8, 8, 4, {0, 3}, {0, 3}, {}, false, Stamps({}, StampAt.Next))],
       [Ver(0, 0, 0, Stamped(2), None, Some(1), ByLog(4), 2, {3}),
        Ver(0, 1, 1, Stamped(4), Some(0), None, NoSucc, 4, {}),
        Ver(1, 0, 1, Stamped(4), None, None, NoSucc, 4, {2}),
        Ver(2, 0, 2, Stamped(6), None, None, NoSucc, 6, {3})],
       map[0 := 0, 1 := 1, 2 := 2, 3 := 3])
  }

  lemma ToSkewLoaded()
    ensures Reachable(SkewLoaded())
  {
    StartReachable();
    hide Reachable, SsnRead, CanWork, DoWork, CanWrites, WritesTxn, ScanTxn, LastX, CanScan, CanLeave, DoLeave,
      CanForget, DoForget, CanRevert, DoRevert, AnnounceTxn, AbortTxn, CanRead, DoRead, ReadTxn, CanUpdate, DoUpdate,
      CanClaim, LookAtSucc, ProbeSucc, SuccEnd, SuccFate, InheritStamp, MissesS2;
    var s0 := Db(0, [], [], map[]);
    var s1 := Take(s0, Begin(0));
    var s2 := Take(s1, Insert(0, 0));
    var s3 := Take(s2, Commit(0));
    var s4 := Take(s3, Obtain(0, 2));
    var s5 := Take(s4, Go(0, 0));
    var s6 := Take(s5, Go(0, 0));
    var s7 := Take(s6, Go(0, 0));
    var s8 := Take(s7, Go(0, 0));
    var s9 := Take(s8, Go(0, 0));
    var s10 := Take(s9, Go(0, 0));
    Alike(s10, SkewLoaded());
  }

  lemma ToSkewOverwritten()
    ensures Reachable(SkewOverwritten())
  {
    ToSkewLoaded();
    hide Reachable, SsnRead, CanReads, ReadsTxn, LookAtSucc, ProbeSucc, SuccEnd, SuccFate, InheritStamp, ReadsDone,
      CanWrites, WritesTxn, ScanTxn, LastX, CanScan, CanStamps, DoStamps, CanLeave, DoLeave, CanForget, DoForget,
      CanRevert, DoRevert, AnnounceTxn, AbortTxn, PublishTxn, CanRead, DoRead, ReadTxn, Settle, SsiRead, EnlistTxn,
      MissesS2, CanClaim, ClaimTxn, CanInsert, DoInsert;
    var s0 := SkewLoaded();
    var s1 := Take(s0, Begin(1));
    var s2 := Take(s1, Update(1, 0));
    var s3 := Take(s2, Go(1, 0));
    var s4 := Take(s3, Go(1, 0));
    Alike(s4, SkewOverwritten());
  }

  lemma ToSkewPassed()
    ensures Reachable(SkewPassed())
  {
    ToSkewOverwritten();
    hide Reachable, SsnRead, CanWork, DoWork, CanWrites, WritesTxn, ScanTxn, LastX, CanScan, CanStamps, DoStamps,
      CanLeave, DoLeave, CanForget, DoForget, CanRevert, DoRevert, AnnounceTxn, AbortTxn, CanRead, DoRead, ReadTxn;
    var s0 := SkewOverwritten();
    var s1 := Take(s0, Insert(1, 1));
    var s2 := Take(s1, Commit(1));
    var s3 := Take(s2, Obtain(1, 2));
    var s4 := Take(s3, Go(1, 0));
    var s5 := Take(s4, Go(1, 0));
    var s6 := Take(s5, Go(1, 0));
    Alike(s6, SkewPassed());
  }

  lemma ToSkewHalf()
    ensures Reachable(SkewHalf())
  {
    ToSkewPassed();
    hide Reachable, SsnRead, CanWork, DoWork, CanReads, ReadsTxn, LookAtSucc, ProbeSucc, SuccEnd, SuccFate,
      InheritStamp, ReadsDone, CanWrites, WritesTxn, ScanTxn, LastX, CanScan, CanLeave, DoLeave, CanForget, DoForget,
      CanRevert, DoRevert, AnnounceTxn, AbortTxn, PublishTxn, CanRead, DoRead, ReadTxn, CanUpdate, DoUpdate,
      CanClaim, CanInsert, DoInsert, DoBegin, Settle;
    var s0 := SkewPassed();
    var s1 := Take(s0, Go(1, 2));
    var s2 := Take(s1, Go(1, 0));
    var s3 := Take(s2, Go(1, 0));
    Alike(s3, SkewHalf());
  }

  lemma ToSkewRead()
    ensures Reachable(SkewRead())
  {
    ToSkewHalf();
    hide Reachable, SsnRead, CanReads, ReadsTxn, LookAtSucc, ProbeSucc, SuccEnd, SuccFate, InheritStamp, ReadsDone,
      CanWrites, WritesTxn, ScanTxn, LastX, CanScan, CanStamps, DoStamps, CanLeave, DoLeave, CanForget, DoForget,
      CanRevert, DoRevert, AnnounceTxn, AbortTxn, PublishTxn, CanUpdate, DoUpdate, CanClaim, ClaimTxn, CanInsert,
      DoInsert, InstalledTxn;
    var s0 := SkewHalf();
    var s1 := Take(s0, Begin(2));
    var s2 := Take(s1, Read(2, 2));
    var s3 := Take(s2, Go(2, 0));
    var s4 := Take(s3, Go(2, 0));
    var s5 := Take(s4, Go(2, 0));
    Alike(s5, SkewRead());
  }

  lemma ToSkewExamined()
    ensures Reachable(SkewExamined())
  {
    ToSkewRead();
    hide Reachable, SsnRead, CanWork, DoWork, CanWrites, WritesTxn, ScanTxn, LastX, CanScan, CanStamps, DoStamps,
      CanLeave, DoLeave, CanForget, DoForget, CanRevert, DoRevert, AnnounceTxn, AbortTxn, CanRead, DoRead, ReadTxn,
      Settle;
    var s0 := SkewRead();
    var s1 := Take(s0, Insert(2, 2));
    var s2 := Take(s1, Commit(2));
    var s3 := Take(s2, Obtain(2, 2));
    var s4 := Take(s3, Go(2, 0));
    var s5 := Take(s4, Go(2, 2));
    var s6 := Take(s5, Go(2, 0));
    Alike(s6, SkewExamined());
  }

  lemma ToSkewSecond()
    ensures Reachable(SkewSecond())
  {
    ToSkewExamined();
    hide Reachable, SsnRead, CanWork, DoWork, CanReads, ReadsTxn, LookAtSucc, ProbeSucc, SuccEnd, SuccFate,
      InheritStamp, ReadsDone, CanWrites, WritesTxn, ScanTxn, LastX, CanScan, CanLeave, DoLeave, CanForget, DoForget,
      CanRevert, DoRevert, AnnounceTxn, AbortTxn, PublishTxn, CanRead, DoRead, ReadTxn, CanUpdate, DoUpdate,
      CanClaim, CanInsert, DoInsert, DoBegin;
    var s0 := SkewExamined();
    var s1 := Take(s0, Go(2, 0));
    var s2 := Take(s1, Go(2, 3));
    var s3 := Take(s2, Go(2, 0));
    var s4 := Take(s3, Go(2, 0));
    Alike(s4, SkewSecond());
  }

  lemma ToSkewThird()
    ensures Reachable(SkewThird())
  {
    ToSkewSecond();
    hide Reachable, SsnRead, CanReads, ReadsTxn, LookAtSucc, ProbeSucc, SuccEnd, SuccFate, InheritStamp, ReadsDone,
      CanWrites, WritesTxn, ScanTxn, LastX, CanScan, CanStamps, DoStamps, CanLeave, DoLeave, CanForget, DoForget,
      CanRevert, DoRevert, AnnounceTxn, AbortTxn, PublishTxn, CanUpdate, DoUpdate, CanClaim, ClaimTxn, CanInsert,
      DoInsert, InstalledTxn;
    var s0 := SkewSecond();
    var s1 := Take(s0, Begin(3));
    var s2 := Take(s1, Read(3, 3));
    var s3 := Take(s2, Go(3, 0));
    var s4 := Take(s3, Go(3, 0));
    var s5 := Take(s4, Go(3, 0));
    Alike(s5, SkewThird());
  }

  lemma ToSkewSkipped()
    ensures Reachable(SkewSkipped())
  {
    ToSkewThird();
    hide Reachable, SsnRead, CanReads, ReadsTxn, LookAtSucc, ProbeSucc, SuccEnd, SuccFate, InheritStamp, ReadsDone,
      CanWrites, WritesTxn, ScanTxn, LastX, CanScan, CanStamps, DoStamps, CanLeave, DoLeave, CanForget, DoForget,
      CanRevert, DoRevert, AnnounceTxn, AbortTxn, PublishTxn, CanUpdate, DoUpdate, CanClaim, CanInsert, DoInsert,
      DoBegin;
    var s0 := SkewThird();
    var s1 := Take(s0, Read(3, 0));
    var s2 := Take(s1, Go(3, 0));
    var s3 := Take(s2, Go(3, 0));
    var s4 := Take(s3, Go(3, 0));
    Alike(s4, SkewSkipped());
  }

  lemma ToSkewWhole()
    ensures Reachable(SkewWhole())
  {
    ToSkewSkipped();
    hide Reachable, SsnRead, CanWork, DoWork, CanReads, ReadsTxn, LookAtSucc, ProbeSucc, SuccEnd, SuccFate,
      InheritStamp, ReadsDone, CanWrites, WritesTxn, ScanTxn, LastX, CanScan, CanLeave, DoLeave, CanForget, DoForget,
      CanRevert, DoRevert, AnnounceTxn, AbortTxn, PublishTxn, CanRead, DoRead, ReadTxn, CanUpdate, DoUpdate,
      CanClaim, CanInsert, DoInsert, DoBegin, Settle;
    var s0 := SkewSkipped();
    var s1 := Take(s0, Go(1, 1));
    var s2 := Take(s1, Go(1, 0));
    var s3 := Take(s2, Go(1, 0));
    var s4 := Take(s3, Go(1, 0));
    var s5 := Take(s4, Go(1, 0));
    Alike(s5, SkewWhole());
  }

  lemma ToSkewChecked()
    ensures Reachable(SkewChecked())
  {
    ToSkewWhole();
    hide Reachable, SsnRead, CanWork, DoWork, CanWrites, WritesTxn, ScanTxn, LastX, CanScan, CanStamps, DoStamps,
      CanLeave, DoLeave, CanForget, DoForget, CanRevert, DoRevert, AnnounceTxn, AbortTxn, CanRead, DoRead, ReadTxn,
      CanUpdate, DoUpdate, CanClaim, CanInsert, DoInsert, DoBegin, Settle;
    var s0 := SkewWhole();
    var s1 := Take(s0, Commit(3));
    var s2 := Take(s1, Obtain(3, 2));
    var s3 := Take(s2, Go(3, 0));
    var s4 := Take(s3, Go(3, 0));
    var s5 := Take(s4, Go(3, 0));
    Alike(s5, SkewChecked());
  }

  lemma ToSkewEnd()
    ensures Reachable(SkewEnd())
  {
    ToSkewChecked();
    hide Reachable, SsnRead, CanWork, DoWork, CanStamps, DoStamps, CanLeave, DoLeave, CanForget, DoForget, CanRevert,
      DoRevert, AnnounceTxn, AbortTxn, PublishTxn, CanRead, DoRead, ReadTxn, CanUpdate, DoUpdate, CanClaim,
      CanInsert, DoInsert, DoBegin;
    var s0 := SkewChecked();
    var s1 := Take(s0, Go(3, 3));
    var s2 := Take(s1, Go(3, 0));
    var s3 := Take(s2, Go(3, 0));
    var s4 := Take(s3, Go(3, 0));
    Alike(s4, SkewEnd());
  }

  /** A reachable state of SSI with a committed cycle and no dangerous structure: transaction 3 read the version
      that transaction 1 had replaced with a commit stamp smaller than transaction 3's begin. */
  lemma SkewAnomaly()
    ensures Reachable(SkewEnd()) && Cycle(SkewEnd(), [3, 1, 2, 3]) && StaleAt(SkewEnd(), 3, 1, 1)
    ensures forall a: Tid, b: Tid, c: Tid :: !Dangerous(SkewEnd(), a, b, c)
  {
    ToSkewEnd();
    var s := SkewEnd();
    SsiExact(s);
    hide Reachable, Dangerous;
    assert forall t: Tid :: HasTxn(s, t) ==> !s.txns[t].torn;
    assert ReadWrite(s, 3, 1, 1);
    assert WriteRead(s, 1, 2, 2);
    assert WriteRead(s, 2, 3, 3);
  }

  // ---------------------------------------------------------------- a stale reader without consequences

  /** Transaction 2 has skipped the new version of record 0 and read the old one. */
  function StaleRead(): State {
    Db(4,
       [Tx(0, Committing, 1, 2, 2, 0, {}, {}, {0}, false, Stamps({}, StampAt.Next)),
        Tx(1, Committing, 3, 4, 4, 0, {}, {}, {1, 2}, false, Stamps({1}, StampAt.Next)),
        Tx(2, Active, 5, 0, 0, 0, {0}, {0}, {}, false, Work(Idle))],
       [Ver(0, 0, 0, Stamped(2), None, Some(1), ByXid(1), 2, {2}),
        Ver(0, 1, 1, Pending, Some(0), None, NoSucc, 0, {}),
        Ver(1, 0, 1, Stamped(4), None, None, NoSucc, 4, {})],
       map[0 := 0, 1 := 1, 2 := 2])
  }

  /** Transaction 1 has stamped record 0. */
  function StaleWhole(): State {
    Db(4,
       [Tx(0, Committing, 1, 2, 2, 0, {}, {}, {0}, false, Stamps({}, StampAt.Next)),
        Tx(1, Committing, 3, 4, 4, 0, {}, {}, {1, 2}, false, Stamps({}, StampAt.Next)),
        Tx(2, Active, 5, 0, 0, 0, {0}, {0}, {}, false, Work(Idle))],
       [Ver(0, 0, 0, Stamped(2), None, Some(1), ByLog(4), 2, {2}),
        Ver(0, 1, 1, Stamped(4), Some(0), None, NoSucc, 4, {}),
        Ver(1, 0, 1, Stamped(4), None, None, NoSucc, 4, {})],
       map[0 := 0, 1 := 1, 2 := 2])
  }

  /** Transaction 2 has found its overwriter. */
  function StaleChecked(): State {
    Db(6,
       [Tx(0, Committing, 1, 2, 2, 0, {}, {}, {0}, false, Stamps({}, StampAt.Next)),
        Tx(1, Committing, 3, 4, 4, 0, {}, {}, {1, 2}, false, Stamps({}, StampAt.Next)),
        Tx(2, Committing, 5, 6, 6, 4, {0}, {0}, {}, false, Reads({}, ReadAt.Next))],
       [Ver(0, 0, 0, Stamped(2), None, Some(1), ByLog(4), 2, {2}),
        Ver(0, 1, 1, Stamped(4), Some(0), None, NoSucc, 4, {}),
        Ver(1, 0, 1, Stamped(4), None, None, NoSucc, 4, {})],
       map[0 := 0, 1 := 1, 2 := 2])
  }

  /** Transaction 2 has decided to commit. */
  function StaleEnd(): State {
    Db(6,
       [Tx(0, Committing, 1, 2, 2, 0, {}, {}, {0}, false, Stamps({}, StampAt.Next)),
        Tx(1, Committing, 3, 4, 4, 0, {}, {}, {1, 2}, false, Stamps({}, StampAt.Next)),
        Tx(2, Committing, 5, 6, 6, 4, {0}, {0}, {}, false, Stamps({}, StampAt.Next))],
       [Ver(0, 0, 0, Stamped(2), None, Some(1), ByLog(4), 2, {2}),
        Ver(0, 1, 1, Stamped(4), Some(0), None, NoSucc, 4, {}),
        Ver(1, 0, 1, Stamped(4), None, None, NoSucc, 4, {})],
       map[0 := 0, 1 := 1, 2 := 2])
  }

  lemma ToStaleRead()
    ensures Reachable(StaleRead())
  {
    ToSkewHalf();
    hide Reachable, SsnRead, CanReads, ReadsTxn, LookAtSucc, ProbeSucc, SuccEnd, SuccFate, InheritStamp, ReadsDone,
      CanWrites, WritesTxn, ScanTxn, LastX, CanScan, CanStamps, DoStamps, CanLeave, DoLeave, CanForget, DoForget,
      CanRevert, DoRevert, AnnounceTxn, AbortTxn, PublishTxn, CanUpdate, DoUpdate, CanClaim, ClaimTxn, CanInsert,
      DoInsert, InstalledTxn;
    var s0 := SkewHalf();
    var s1 := Take(s0, Begin(2));
    var s2 := Take(s1, Read(2, 0));
    var s3 := Take(s2, Go(2, 0));
    var s4 := Take(s3, Go(2, 0));
    var s5 := Take(s4, Go(2, 0));
    Alike(s5, StaleRead());
  }

  lemma ToStaleWhole()
    ensures Reachable(StaleWhole())
  {
    ToStaleRead();
    hide Reachable, SsnRead, CanWork, DoWork, SsiRead, EnlistTxn, MissesS2, CanReads, ReadsTxn, LookAtSucc,
      ProbeSucc, SuccEnd, SuccFate, InheritStamp, ReadsDone, CanWrites, WritesTxn, ScanTxn, LastX, CanScan, CanLeave,
      DoLeave, CanForget, DoForget, CanRevert, DoRevert, AnnounceTxn, AbortTxn, PublishTxn, CanRead, DoRead, ReadTxn,
      CanUpdate, DoUpdate, CanClaim, ClaimTxn, DoBegin, CanInsert, DoInsert, Settle, InstalledTxn;
    var s0 := StaleRead();
    var s1 := Take(s0, Go(1, 1));
    var s2 := Take(s1, Go(1, 0));
    var s3 := Take(s2, Go(1, 0));
    var s4 := Take(s3, Go(1, 0));
    var s5 := Take(s4, Go(1, 0));
    Alike(s5, StaleWhole());
  }

  lemma ToStaleChecked()
    ensures Reachable(StaleChecked())
  {
    ToStaleWhole();
    hide Reachable, SsnRead, CanWork, DoWork, SsiRead, EnlistTxn, CanWrites, WritesTxn, ScanTxn, LastX, CanScan,
      CanStamps, DoStamps, CanLeave, DoLeave, CanForget, DoForget, CanRevert, DoRevert, AnnounceTxn, AbortTxn,
      CanRead, DoRead, ReadTxn, CanUpdate, DoUpdate, CanClaim, ClaimTxn, DoBegin, CanInsert, DoInsert, Settle,
      InstalledTxn;
    var s0 := StaleWhole();
    var s1 := Take(s0, Commit(2));
    var s2 := Take(s1, Obtain(2, 2));
    var s3 := Take(s2, Go(2, 0));
    var s4 := Take(s3, Go(2, 0));
    var s5 := Take(s4, Go(2, 0));
    Alike(s5, StaleChecked());
  }

  lemma ToStaleEnd()
    ensures Reachable(StaleEnd())
  {
    ToStaleChecked();
    hide Reachable, SsnRead, CanWork, DoWork, SsiRead, EnlistTxn, CanStamps, DoStamps, CanLeave, DoLeave, CanForget,
      DoForget, CanRevert, DoRevert, AnnounceTxn, AbortTxn, PublishTxn, CanRead, DoRead, ReadTxn, CanUpdate,
      DoUpdate, CanClaim, ClaimTxn, DoBegin, CanInsert, DoInsert, InstalledTxn;
    var s0 := StaleChecked();
    var s1 := Take(s0, Go(2, 0));
    var s2 := Take(s1, Go(2, 0));
    var s3 := Take(s2, Go(2, 0));
    Alike(s3, StaleEnd());
  }

  /** A reachable state of SSI with a stale read that is serializable all the same. */
  lemma StaleHarmless()
    ensures Reachable(StaleEnd()) && StaleAt(StaleEnd(), 2, 1, 1) && Serial(StaleEnd(), [0, 2, 1])
    ensures forall p: seq<Tid> :: !Cycle(StaleEnd(), p)
  {
    ToStaleEnd();
    hide Reachable;
    var s, order := StaleEnd(), [0, 2, 1];
    StaleEdges();
    assert order[0] == 0 && order[1] == 2 && order[2] == 1;
    forall t: Tid | Committed(s, t) ensures t in order { assert t == 0 || t == 1 || t == 2; }
    hide Depends;
    assert Serial(s, order);
    forall p: seq<Tid> ensures !Cycle(s, p) { SerialNoCycle(s, order, p); }
  }

  lemma StaleEdges()
    ensures forall t: Tid :: !Depends(StaleEnd(), t, t) && !Depends(StaleEnd(), t, 0)
    ensures !Depends(StaleEnd(), 1, 2)
  {
  }

  // ---------------------------------------------------------------- a late updater

  /** Transaction 2 has found the XID of transaction 1 at the head of record 0. */
  function LateFound(): State {
    Db(2,
       [Tx(0, Committing, 1, 2, 2, 0, {}, {}, {0}, false, Stamps({}, StampAt.Next)),
        Tx(1, Active, 3, 0, 0, 0, {}, {}, {1}, false, Work(Idle)),
        Tx(2, Active, 3, 0, 0, 0, {}, {}, {}, false, Work(WorkAt.Claim(1)))],
       [Ver(0, 0, 0, Stamped(2), None, Some(1), ByXid(1), 2, {}),
        Ver(0, 1, 1, Pending, Some(0), None, NoSucc, 0, {})],
       map[0 := 0, 1 := 1, 2 := 2])
  }

  /** Transaction 1 has decided to commit, after transaction 2 began. */
  function LatePassed(): State {
    Db(4,
       [Tx(0, Committing, 1, 2, 2, 0, {}, {}, {0}, false, Stamps({}, StampAt.Next)),
        Tx(1, Committing, 3, 4, 4, 0, {}, {}, {1}, false, Stamps({1}, StampAt.Next)),
        Tx(2, Active, 3, 0, 0, 0, {}, {}, {}, false, Work(WorkAt.Claim(1)))],
       [Ver(0, 0, 0, Stamped(2), None, Some(1), ByXid(1), 2, {}),
        Ver(0, 1, 1, Pending, Some(0), None, NoSucc, 0, {})],
       map[0 := 0, 1 := 1, 2 := 2])
  }

  /** Transaction 1 has stamped its version. */
  function LateStamped(): State {
    Db(4,
       [Tx(0, Committing, 1, 2, 2, 0, {}, {}, {0}, false, Stamps({}, StampAt.Next)),
        Tx(1, Committing, 3, 4, 4, 0, {}, {}, {1}, false, Stamps({}, StampAt.Next)),
        Tx(2, Active, 3, 0, 0, 0, {}, {}, {}, false, Work(WorkAt.Claim(1)))],
       [Ver(0, 0, 0, Stamped(2), None, Some(1), ByLog(4), 2, {}),
        Ver(0, 1, 1, Stamped(4), Some(0), None, NoSucc, 4, {})],
       map[0 := 0, 1 := 1, 2 := 2])
  }

  /** Transaction 1 has announced itself, and transaction 2 has seen it. */
  function LateSeen(): State {
    Db(4,
       [Tx(0, Committing, 1, 2, 2, 0, {}, {}, {0}, false, Stamps({}, StampAt.Next)),
        Tx(1, Cmmtd, 3, 4, 4, 0, {}, {}, {1}, false, Leave({}, LeaveAt.Next)),
        Tx(2, Active, 3, 0, 0, 0, {}, {}, {}, false, Work(Swap(1)))],
       [Ver(0, 0, 0, Stamped(2), None, Some(1), ByLog(4), 2, {}),
        Ver(0, 1, 1, Stamped(4), Some(0), None, NoSucc, 4, {})],
       map[0 := 0, 1 := 1, 2 := 2])
  }

  /** Transaction 2 has overwritten the version. */
  function LateSwapped(): State {
    Db(4,
       [Tx(0, Committing, 1, 2, 2, 0, {}, {}, {0}, false, Stamps({}, StampAt.Next)),
        Tx(1, Cmmtd, 3, 4, 4, 0, {}, {}, {1}, false, Leave({}, LeaveAt.Next)),
        Tx(2, Active, 3, 0, 0, 0, {}, {}, {2}, false, Work(Idle))],
       [Ver(0, 0, 0, Stamped(2), None, Some(1), ByLog(4), 2, {}),
        Ver(0, 1, 1, Stamped(4), Some(0), Some(2), ByXid(2), 4, {}),
        Ver(0, 2, 2, Pending, Some(1), None, NoSucc, 0, {})],
       map[0 := 0, 1 := 1, 2 := 2])
  }

  /** Transaction 2 has decided to commit. */
  function LateEnd(): State {
    Db(6,
       [Tx(0, Committing, 1, 2, 2, 0, {}, {}, {0}, false, Stamps({}, StampAt.Next)),
        Tx(1, Cmmtd, 3, 4, 4, 0, {}, {}, {1}, false, Leave({}, LeaveAt.Next)),
        Tx(2, Committing, 3, 6, 6, 0, {}, {}, {2}, false, Stamps({2}, StampAt.Next))],
       [Ver(0, 0, 0, Stamped(2), None, Some(1), ByLog(4), 2, {}),
        Ver(0, 1, 1, Stamped(4), Some(0), Some(2), ByXid(2), 4, {}),
        Ver(0, 2, 2, Pending, Some(1), None, NoSucc, 0, {})],
       map[0 := 0, 1 := 1, 2 := 2])
  }

  lemma ToLateFound()
    ensures Reachable(LateFound())
  {
    ToSkewOverwritten();
    hide Reachable, SsnRead, CanWork, DoWork, SsiRead, EnlistTxn, MissesS2, CanReads, ReadsTxn, LookAtSucc,
      ProbeSucc, SuccEnd, SuccFate, InheritStamp, ReadsDone, CanWrites, WritesTxn, ScanTxn, LastX, CanScan,
      CanStamps, DoStamps, CanLeave, DoLeave, CanForget, DoForget, CanRevert, DoRevert, AnnounceTxn, AbortTxn,
      PublishTxn, CanRead, DoRead, ReadTxn, CanUpdate, DoUpdate, ClaimTxn, CanInsert, DoInsert, Settle, InstalledTxn;
    var s0 := SkewOverwritten();
    var s1 := Take(s0, Begin(2));
    var s2 := Take(s1, Step.Claim(2, 1));
    Alike(s2, LateFound());
  }

  lemma ToLatePassed()
    ensures Reachable(LatePassed())
  {
    ToLateFound();
    hide Reachable, SsnRead, CanWork, DoWork, SsiRead, EnlistTxn, MissesS2, CanWrites, WritesTxn, ScanTxn, LastX,
      CanScan, CanStamps, DoStamps, CanLeave, DoLeave, CanForget, DoForget, CanRevert, DoRevert, AnnounceTxn,
      AbortTxn, CanRead, DoRead, ReadTxn, CanUpdate, DoUpdate, CanClaim, ClaimTxn, DoBegin, CanInsert, DoInsert,
      InstalledTxn;
    var s0 := LateFound();
    var s1 := Take(s0, Commit(1));
    var s2 := Take(s1, Obtain(1, 2));
    var s3 := Take(s2, Go(1, 0));
    var s4 := Take(s3, Go(1, 0));
    var s5 := Take(s4, Go(1, 0));
    Alike(s5, LatePassed());
  }

  lemma ToLateStamped()
    ensures Reachable(LateStamped())
  {
    ToLatePassed();
    hide Reachable, SsnRead, CanWork, DoWork, SsiRead, EnlistTxn, MissesS2, CanReads, ReadsTxn, LookAtSucc,
      ProbeSucc, SuccEnd, SuccFate, InheritStamp, ReadsDone, CanWrites, WritesTxn, ScanTxn, LastX, CanScan, CanLeave,
      DoLeave, CanForget, DoForget, CanRevert, DoRevert, AnnounceTxn, AbortTxn, PublishTxn, CanRead, DoRead, ReadTxn,
      CanUpdate, DoUpdate, CanClaim, ClaimTxn, DoBegin, CanInsert, DoInsert, Settle, InstalledTxn;
    var s0 := LatePassed();
    var s1 := Take(s0, Go(1, 1));
    var s2 := Take(s1, Go(1, 0));
    var s3 := Take(s2, Go(1, 0));
    var s4 := Take(s3, Go(1, 0));
    var s5 := Take(s4, Go(1, 0));
    Alike(s5, LateStamped());
  }

  lemma ToLateSeen()
    ensures Reachable(LateSeen())
  {
    ToLateStamped();
    hide Reachable, SsnRead, CanReads, ReadsTxn, LookAtSucc, ProbeSucc, SuccEnd, SuccFate, InheritStamp, ReadsDone,
      CanWrites, WritesTxn, ScanTxn, LastX, CanScan, CanLeave, DoLeave, CanForget, DoForget, CanRevert, DoRevert,
      PublishTxn, CanRead, DoRead, ReadTxn, CanUpdate, DoUpdate, CanClaim, DoBegin, CanInsert, DoInsert, Settle,
      InstalledTxn;
    var s0 := LateStamped();
    var s1 := Take(s0, Go(1, 0));
    var s2 := Take(s1, Go(1, 0));
    var s3 := Take(s2, Go(2, 0));
    Alike(s3, LateSeen());
  }

  lemma ToLateSwapped()
    ensures Reachable(LateSwapped())
  {
    ToLateSeen();
    hide Reachable, SsnRead, CanReads, ReadsTxn, LookAtSucc, ProbeSucc, SuccEnd, SuccFate, InheritStamp, ReadsDone,
      CanWrites, WritesTxn, ScanTxn, LastX, CanScan, CanStamps, DoStamps, CanLeave, DoLeave, CanForget, DoForget,
      CanRevert, DoRevert, AnnounceTxn, AbortTxn, PublishTxn, CanRead, DoRead, ReadTxn, CanClaim, ClaimTxn, DoBegin,
      CanInsert, DoInsert, Settle;
    var s0 := LateSeen();
    var s1 := Take(s0, Update(2, 1));
    var s2 := Take(s1, Go(2, 0));
    var s3 := Take(s2, Go(2, 0));
    Alike(s3, LateSwapped());
  }

  lemma ToLateEnd()
    ensures Reachable(LateEnd())
  {
    ToLateSwapped();
    hide Reachable, SsnRead, CanWork, DoWork, SsiRead, EnlistTxn, MissesS2, CanWrites, WritesTxn, ScanTxn, LastX,
      CanScan, CanStamps, DoStamps, CanLeave, DoLeave, CanForget, DoForget, CanRevert, DoRevert, AnnounceTxn,
      AbortTxn, CanRead, DoRead, ReadTxn, CanUpdate, DoUpdate, CanClaim, ClaimTxn, DoBegin, CanInsert, DoInsert,
      InstalledTxn;
    var s0 := LateSwapped();
    var s1 := Take(s0, Commit(2));
    var s2 := Take(s1, Obtain(2, 2));
    var s3 := Take(s2, Go(2, 0));
    var s4 := Take(s3, Go(2, 0));
    var s5 := Take(s4, Go(2, 0));
    Alike(s5, LateEnd());
  }

  /** A reachable state in which transaction 2 has committed a version on top of one that is younger than its begin:
      first updater does not win. */
  lemma LateAnomaly()
    ensures Reachable(LateEnd()) && Committed(LateEnd(), 1) && Committed(LateEnd(), 2) && LateOver(LateEnd(), 2, 2)
    ensures LateEnd().txns[2].begin < LateEnd().txns[1].got && LateEnd().vers[1].creator == 1
  {
    ToLateEnd();
  }
}
