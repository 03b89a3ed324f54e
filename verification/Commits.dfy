/** Runs in which SSN and MVOCC commit a transaction that reads a record and then overwrites it. */
module Commits {
  import opened Options
  import opened Engine
  import opened EngineRuns
  import opened Dependencies
  import opened Anomalies

  function Ver(rec: nat, depth: nat, creator: Tid, clsn: Creation, next: Option<Vid>, over: Option<Vid>,
               sstamp: Successor, xstamp: nat, readers: set<Slot>): Version
  {
    Version(rec, depth, creator, clsn, next, over, sstamp, xstamp, 0, readers)
  }

  lemma Empty(c: Certifier)
    ensures Reachable(State(c, 1, 0, [], [], map[]))
  {
    assert Run([State(c, 1, 0, [], [], map[])], []);
  }

  // ---------------------------------------------------------------- SSN

  /** Transaction 0 has inserted record 0 and has taken a commit stamp. */
  function SsnStamped(): State {
    State(SSN, 1, 2,
      [Txn(0, Committing, 1, 2, 0, 0, 0, 0, {}, {}, {0}, false, Obtained)],
      [Ver(0, 0, 0, Pending, None, None, NoSucc, 0, {})],
      map[0 := 0])
  }

  /** Transaction 0 has published its stamp. */
  function SsnWriting(): State {
    State(SSN, 1, 2,
      [Txn(0, Committing, 1, 2, 2, 0, 2, 0, {}, {}, {0}, false, Writes({0}, WriteAt.Next))],
      [Ver(0, 0, 0, Pending, None, None, NoSucc, 0, {})],
      map[0 := 0])
  }

  /** Transaction 0 has decided to commit. */
  function SsnLoading(): State {
    State(SSN, 1, 2,
      [Txn(0, Committing, 1, 2, 2, 0, 2, 0, {}, {}, {0}, false, Stamps({0}, StampAt.Next))],
      [Ver(0, 0, 0, Pending, None, None, NoSucc, 0, {})],
      map[0 := 0])
  }

  /** Record 0 is stamped. */
  function SsnLoaded(): State {
    State(SSN, 1, 2,
      [Txn(0, Committing, 1, 2, 2, 0, 2, 0, {}, {}, {0}, false, Announce)],
      [Ver(0, 0, 0, Stamped(2), None, None, NoSucc, 2, {})],
      map[0 := 0])
  }

  /** Transaction 1 has read record 0. */
  function SsnReading(): State {
    State(SSN, 1, 2,
      [Txn(0, Committing, 1, 2, 2, 0, 2, 0, {}, {}, {0}, false, Announce),
       Txn(1, Active, 3, 0, 0, 2, 0, 0, {0}, {0}, {}, false, Work(Idle))],
      [Ver(0, 0, 0, Stamped(2), None, None, NoSucc, 2, {1})],
      map[0 := 0, 1 := 1])
  }

  /** Transaction 1 has overwritten what it read. */
  function SsnUpdated(): State {
    State(SSN, 1, 2,
      [Txn(0, Committing, 1, 2, 2, 0, 2, 0, {}, {}, {0}, false, Announce),
       Txn(1, Active, 3, 0, 0, 2, 0, 0, {0}, {0}, {1}, false, Work(Idle))],
      [Ver(0, 0, 0, Stamped(2), None, Some(1), ByXid(1), 2, {1}),
       Ver(0, 1, 1, Pending, Some(0), None, NoSucc, 0, {})],
      map[0 := 0, 1 := 1])
  }

  /** Transaction 1 has examined its read. */
  function SsnExamined(): State {
    State(SSN, 1, 4,
      [Txn(0, Committing, 1, 2, 2, 0, 2, 0, {}, {}, {0}, false, Announce),
       Txn(1, Committing, 3, 4, 4, 2, 4, 0, {0}, {0}, {1}, false, Reads({}, ReadAt.Next))],
      [Ver(0, 0, 0, Stamped(2), None, Some(1), ByXid(1), 2, {1}),
       Ver(0, 1, 1, Pending, Some(0), None, NoSucc, 0, {})],
      map[0 := 0, 1 := 1])
  }

  /** Transaction 1 has scanned the readers of what it overwrote. */
  function SsnScanned(): State {
    State(SSN, 1, 4,
      [Txn(0, Committing, 1, 2, 2, 0, 2, 0, {}, {}, {0}, false, Announce),
       Txn(1, Committing, 3, 4, 4, 2, 4, 0, {0}, {0}, {1}, false, Writes({}, LastXstamp(1)))],
      [Ver(0, 0, 0, Stamped(2), None, Some(1), ByXid(1), 2, {1}),
       Ver(0, 1, 1, Pending, Some(0), None, NoSucc, 0, {})],
      map[0 := 0, 1 := 1])
  }

  /** Transaction 1 has decided to commit. */
  function SsnEnd(): State {
    State(SSN, 1, 4,
      [Txn(0, Committing, 1, 2, 2, 0, 2, 0, {}, {}, {0}, false, Announce),
       Txn(1, Committing, 3, 4, 4, 2, 4, 0, {0}, {0}, {1}, false, Stamps({1}, StampAt.Next))],
      [Ver(0, 0, 0, Stamped(2), None, Some(1), ByXid(1), 2, {1}),
       Ver(0, 1, 1, Pending, Some(0), None, NoSucc, 0, {})],
      map[0 := 0, 1 := 1])
  }

  lemma ToSsnStamped()
    ensures Reachable(SsnStamped())
  {
    Empty(SSN);
    hide Reachable, SsiRead, MissesS2, CanWork, DoWork, SsnRead, EnlistTxn, CanWrites, WritesTxn, ScanTxn, LastX,
      CanScan, CanStamps, DoStamps, CanLeave, DoLeave, CanForget, DoForget, CanRevert, DoRevert, AnnounceTxn,
      AbortTxn, CanRead, DoRead, ReadTxn, CanUpdate, DoUpdate, CanClaim, ClaimTxn, Settle, InstalledTxn, CanReads,
      ReadsTxn, PublishTxn;
    var s0 := State(SSN, 1, 0, [], [], map[]);
    var s1 := Take(s0, Begin(0));
    var s2 := Take(s1, Insert(0, 0));
    var s3 := Take(s2, Commit(0));
    var s4 := Take(s3, Obtain(0, 2));
    Alike(s4, SsnStamped());
  }

  lemma ToSsnWriting()
    ensures Reachable(SsnWriting())
  {
    ToSsnStamped();
    hide Reachable, SsiRead, MissesS2, CanWork, DoWork, SsnRead, EnlistTxn, CanWrites, WritesTxn, ScanTxn, LastX,
      CanScan, CanStamps, DoStamps, CanLeave, DoLeave, CanForget, DoForget, CanRevert, DoRevert, AnnounceTxn,
      AbortTxn, CanRead, DoRead, ReadTxn, CanUpdate, DoUpdate, CanClaim, ClaimTxn, Settle, InstalledTxn, CanInsert,
      DoInsert, DoBegin;
    var s0 := SsnStamped();
    var s1 := Take(s0, Go(0, 0));
    var s2 := Take(s1, Go(0, 0));
    Alike(s2, SsnWriting());
  }

  lemma ToSsnLoading()
    ensures Reachable(SsnLoading())
  {
    ToSsnWriting();
    hide Reachable, SsiRead, MissesS2, CanWork, DoWork, SsnRead, EnlistTxn, CanReads, ReadsTxn, LookAtSucc,
      ProbeSucc, SuccEnd, SuccFate, InheritStamp, ReadsDone, CanStamps, DoStamps, CanLeave, DoLeave, CanForget,
      DoForget, CanRevert, DoRevert, AnnounceTxn, AbortTxn, PublishTxn, CanRead, DoRead, ReadTxn, CanUpdate,
      DoUpdate, CanClaim, ClaimTxn, DoBegin, CanInsert, DoInsert, InstalledTxn;
    var s0 := SsnWriting();
    var s1 := Take(s0, Go(0, 0));
    var s2 := Take(s1, Go(0, 0));
    var s3 := Take(s2, Go(0, 0));
    Alike(s3, SsnLoading());
  }

  lemma ToSsnLoaded()
    ensures Reachable(SsnLoaded())
  {
    ToSsnLoading();
    hide Reachable, SsiRead, MissesS2, CanWork, DoWork, SsnRead, EnlistTxn, CanReads, ReadsTxn, LookAtSucc,
      ProbeSucc, SuccEnd, SuccFate, InheritStamp, ReadsDone, CanWrites, WritesTxn, ScanTxn, LastX, CanScan, CanLeave,
      DoLeave, CanForget, DoForget, CanRevert, DoRevert, AnnounceTxn, AbortTxn, PublishTxn, CanRead, DoRead, ReadTxn,
      CanUpdate, DoUpdate, CanClaim, ClaimTxn, DoBegin, CanInsert, DoInsert, Settle, InstalledTxn;
    var s0 := SsnLoading();
    var s1 := Take(s0, Go(0, 0));
    var s2 := Take(s1, Go(0, 0));
    var s3 := Take(s2, Go(0, 0));
    var s4 := Take(s3, Go(0, 0));
    Alike(s4, SsnLoaded());
  }

  lemma ToSsnReading()
    ensures Reachable(SsnReading())
  {
    ToSsnLoaded();
    hide Reachable, SsiRead, MissesS2, CanReads, ReadsTxn, LookAtSucc, ProbeSucc, SuccEnd, SuccFate, InheritStamp,
      ReadsDone, CanWrites, WritesTxn, ScanTxn, LastX, CanScan, CanStamps, DoStamps, CanLeave, DoLeave, CanForget,
      DoForget, CanRevert, DoRevert, AnnounceTxn, AbortTxn, PublishTxn, CanUpdate, DoUpdate, CanClaim, ClaimTxn,
      CanInsert, DoInsert, InstalledTxn;
    var s0 := SsnLoaded();
    var s1 := Take(s0, Begin(1));
    var s2 := Take(s1, Read(1, 0));
    var s3 := Take(s2, Go(1, 0));
    var s4 := Take(s3, Go(1, 0));
    Alike(s4, SsnReading());
  }

  lemma ToSsnUpdated()
    ensures Reachable(SsnUpdated())
  {
    ToSsnReading();
    hide Reachable, SsiRead, MissesS2, CanReads, ReadsTxn, LookAtSucc, ProbeSucc, SuccEnd, SuccFate, InheritStamp,
      ReadsDone, CanWrites, WritesTxn, ScanTxn, LastX, CanScan, CanStamps, DoStamps, CanLeave, DoLeave, CanForget,
      DoForget, CanRevert, DoRevert, AnnounceTxn, AbortTxn, PublishTxn, CanRead, DoRead, ReadTxn, CanClaim, ClaimTxn,
      DoBegin, CanInsert, DoInsert, Settle;
    var s0 := SsnReading();
    var s1 := Take(s0, Update(1, 0));
    var s2 := Take(s1, Go(1, 0));
    var s3 := Take(s2, Go(1, 0));
    Alike(s3, SsnUpdated());
  }

  lemma ToSsnExamined()
    ensures Reachable(SsnExamined())
  {
    ToSsnUpdated();
    hide Reachable, SsiRead, MissesS2, CanWork, DoWork, SsnRead, EnlistTxn, CanWrites, WritesTxn, ScanTxn, LastX,
      CanScan, CanStamps, DoStamps, CanLeave, DoLeave, CanForget, DoForget, CanRevert, DoRevert, AnnounceTxn,
      AbortTxn, CanRead, DoRead, ReadTxn, CanUpdate, DoUpdate, CanClaim, ClaimTxn, DoBegin, CanInsert, DoInsert,
      Settle, InstalledTxn;
    var s0 := SsnUpdated();
    var s1 := Take(s0, Commit(1));
    var s2 := Take(s1, Obtain(1, 2));
    var s3 := Take(s2, Go(1, 0));
    var s4 := Take(s3, Go(1, 0));
    var s5 := Take(s4, Go(1, 0));
    Alike(s5, SsnExamined());
  }

  lemma ToSsnScanned()
    ensures Reachable(SsnScanned())
  {
    ToSsnExamined();
    hide Reachable, SsiRead, MissesS2, CanWork, DoWork, SsnRead, EnlistTxn, CanStamps, DoStamps, CanLeave, DoLeave,
      CanForget, DoForget, CanRevert, DoRevert, AnnounceTxn, AbortTxn, PublishTxn, CanRead, DoRead, ReadTxn,
      CanUpdate, DoUpdate, CanClaim, ClaimTxn, DoBegin, CanInsert, DoInsert, Settle, InstalledTxn;
    var s0 := SsnExamined();
    var s1 := Take(s0, Go(1, 0));
    var s2 := Take(s1, Go(1, 1));
    var s3 := Take(s2, Go(1, 0));
    var s4 := Take(s3, Go(1, 0));
    Alike(s4, SsnScanned());
  }

  lemma ToSsnEnd()
    ensures Reachable(SsnEnd())
  {
    ToSsnScanned();
    hide Reachable, SsiRead, MissesS2, CanWork, DoWork, SsnRead, EnlistTxn, CanReads, ReadsTxn, LookAtSucc,
      ProbeSucc, SuccEnd, SuccFate, InheritStamp, ReadsDone, CanStamps, DoStamps, CanLeave, DoLeave, CanForget,
      DoForget, CanRevert, DoRevert, AnnounceTxn, AbortTxn, PublishTxn, CanRead, DoRead, ReadTxn, CanUpdate,
      DoUpdate, CanClaim, ClaimTxn, DoBegin, CanInsert, DoInsert, InstalledTxn;
    var s0 := SsnScanned();
    var s1 := Take(s0, Go(1, 0));
    var s2 := Take(s1, Go(1, 0));
    var s3 := Take(s2, Go(1, 0));
    Alike(s3, SsnEnd());
  }

  /** SSN commits a transaction that read what another committed and overwrote it. */
  lemma SsnCommits()
    ensures Reachable(SsnEnd()) && Committed(SsnEnd(), 0) && Committed(SsnEnd(), 1)
    ensures WriteRead(SsnEnd(), 0, 1, 0) && WriteWrite(SsnEnd(), 0, 1, 1)
  {
    ToSsnEnd();
  }

  // ---------------------------------------------------------------- MVOCC

  /** Transaction 0 has inserted record 0 and has taken a commit stamp. */
  function MvoccStamped(): State {
    State(MVOCC, 1, 2,
      [Txn(0, Committing, 1, 2, 0, 0, 0, 0, {}, {}, {0}, false, Obtained)],
      [Ver(0, 0, 0, Pending, None, None, NoSucc, 0, {})],
      map[0 := 0])
  }

  /** Transaction 0 has inserted record 0 and has nothing to validate. */
  function MvoccDeciding(): State {
    State(MVOCC, 1, 2,
      [Txn(0, Committing, 1, 2, 2, 0, 0, 0, {}, {}, {0}, false, Deciding)],
      [Ver(0, 0, 0, Pending, None, None, NoSucc, 0, {})],
      map[0 := 0])
  }

  /** Record 0 is stamped. */
  function MvoccLoaded(): State {
    State(MVOCC, 1, 2,
      [Txn(0, Committing, 1, 2, 2, 0, 0, 0, {}, {}, {0}, false, Stamps({}, StampAt.Next))],
      [Ver(0, 0, 0, Stamped(2), None, None, NoSucc, 2, {})],
      map[0 := 0])
  }

  /** Transaction 1 has read record 0. */
  function MvoccRead(): State {
    State(MVOCC, 1, 2,
      [Txn(0, Committing, 1, 2, 2, 0, 0, 0, {}, {}, {0}, false, Stamps({}, StampAt.Next)),
       Txn(1, Active, 3, 0, 0, 0, 0, 0, {0}, {0}, {}, false, Work(Idle))],
      [Ver(0, 0, 0, Stamped(2), None, None, NoSucc, 2, {})],
      map[0 := 0, 1 := 1])
  }

  /** Transaction 1 has overwritten what it read. */
  function MvoccUpdated(): State {
    State(MVOCC, 1, 2,
      [Txn(0, Committing, 1, 2, 2, 0, 0, 0, {}, {}, {0}, false, Stamps({}, StampAt.Next)),
       Txn(1, Active, 3, 0, 0, 0, 0, 0, {0}, {0}, {1}, false, Work(Idle))],
      [Ver(0, 0, 0, Stamped(2), None, Some(1), ByXid(1), 2, {}),
       Ver(0, 1, 1, Pending, Some(0), None, NoSucc, 0, {})],
      map[0 := 0, 1 := 1])
  }

  /** Transaction 1 has examined its read. */
  function MvoccExamined(): State {
    State(MVOCC, 1, 4,
      [Txn(0, Committing, 1, 2, 2, 0, 0, 0, {}, {}, {0}, false, Stamps({}, StampAt.Next)),
       Txn(1, Committing, 3, 4, 4, 0, 0, 0, {0}, {0}, {1}, false, Reads({}, ReadAt.Next))],
      [Ver(0, 0, 0, Stamped(2), None, Some(1), ByXid(1), 2, {}),
       Ver(0, 1, 1, Pending, Some(0), None, NoSucc, 0, {})],
      map[0 := 0, 1 := 1])
  }

  /** Transaction 1 has decided to commit. */
  function MvoccEnd(): State {
    State(MVOCC, 1, 4,
      [Txn(0, Committing, 1, 2, 2, 0, 0, 0, {}, {}, {0}, false, Stamps({}, StampAt.Next)),
       Txn(1, Committing, 3, 4, 4, 0, 0, 0, {0}, {0}, {1}, false, Stamps({1}, StampAt.Next))],
      [Ver(0, 0, 0, Stamped(2), None, Some(1), ByXid(1), 2, {}),
       Ver(0, 1, 1, Pending, Some(0), None, NoSucc, 0, {})],
      map[0 := 0, 1 := 1])
  }

  lemma ToMvoccStamped()
    ensures Reachable(MvoccStamped())
  {
    Empty(MVOCC);
    hide Reachable, SsiRead, MissesS2, CanWork, DoWork, SsnRead, EnlistTxn, CanWrites, WritesTxn, ScanTxn, LastX,
      CanScan, CanStamps, DoStamps, CanLeave, DoLeave, CanForget, DoForget, CanRevert, DoRevert, AnnounceTxn,
      AbortTxn, CanRead, DoRead, ReadTxn, CanUpdate, DoUpdate, CanClaim, ClaimTxn, Settle, InstalledTxn, CanReads,
      ReadsTxn, PublishTxn;
    var s0 := State(MVOCC, 1, 0, [], [], map[]);
    var s1 := Take(s0, Begin(0));
    var s2 := Take(s1, Insert(0, 0));
    var s3 := Take(s2, Commit(0));
    var s4 := Take(s3, Obtain(0, 2));
    Alike(s4, MvoccStamped());
  }

  lemma ToMvoccDeciding()
    ensures Reachable(MvoccDeciding())
  {
    ToMvoccStamped();
    hide Reachable, SsiRead, MissesS2, CanWork, DoWork, SsnRead, EnlistTxn, CanWrites, WritesTxn, ScanTxn, LastX,
      CanScan, CanStamps, DoStamps, CanLeave, DoLeave, CanForget, DoForget, CanRevert, DoRevert, AnnounceTxn,
      AbortTxn, CanRead, DoRead, ReadTxn, CanUpdate, DoUpdate, CanClaim, ClaimTxn, Settle, InstalledTxn, CanInsert,
      DoInsert, DoBegin;
    var s0 := MvoccStamped();
    var s1 := Take(s0, Go(0, 0));
    var s2 := Take(s1, Go(0, 0));
    Alike(s2, MvoccDeciding());
  }

  lemma ToMvoccLoaded()
    ensures Reachable(MvoccLoaded())
  {
    ToMvoccDeciding();
    hide Reachable, SsiRead, MissesS2, CanWork, DoWork, SsnRead, EnlistTxn, CanReads, ReadsTxn, LookAtSucc,
      ProbeSucc, SuccEnd, SuccFate, InheritStamp, ReadsDone, CanWrites, WritesTxn, ScanTxn, LastX, CanScan, CanLeave,
      DoLeave, CanForget, DoForget, CanRevert, DoRevert, AnnounceTxn, AbortTxn, PublishTxn, CanRead, DoRead, ReadTxn,
      CanUpdate, DoUpdate, CanClaim, ClaimTxn, DoBegin, CanInsert, DoInsert, InstalledTxn;
    var s0 := MvoccDeciding();
    var s1 := Take(s0, Go(0, 0));
    var s2 := Take(s1, Go(0, 0));
    var s3 := Take(s2, Go(0, 0));
    var s4 := Take(s3, Go(0, 0));
    Alike(s4, MvoccLoaded());
  }

  lemma ToMvoccRead()
    ensures Reachable(MvoccRead())
  {
    ToMvoccLoaded();
    hide Reachable, SsiRead, MissesS2, CanReads, ReadsTxn, LookAtSucc, ProbeSucc, SuccEnd, SuccFate, InheritStamp,
      ReadsDone, CanWrites, WritesTxn, ScanTxn, LastX, CanScan, CanStamps, DoStamps, CanLeave, DoLeave, CanForget,
      DoForget, CanRevert, DoRevert, AnnounceTxn, AbortTxn, PublishTxn, CanClaim, ClaimTxn, CanInsert, DoInsert,
      Settle, SsnRead, EnlistTxn, CanWork, DoWork, InstalledTxn, CanUpdate, DoUpdate;
    var s0 := MvoccLoaded();
    var s1 := Take(s0, Begin(1));
    var s2 := Take(s1, Read(1, 0));
    Alike(s2, MvoccRead());
  }

  lemma ToMvoccUpdated()
    ensures Reachable(MvoccUpdated())
  {
    ToMvoccRead();
    hide Reachable, SsiRead, MissesS2, CanReads, ReadsTxn, LookAtSucc, ProbeSucc, SuccEnd, SuccFate, InheritStamp,
      ReadsDone, CanWrites, WritesTxn, ScanTxn, LastX, CanScan, CanStamps, DoStamps, CanLeave, DoLeave, CanForget,
      DoForget, CanRevert, DoRevert, AnnounceTxn, AbortTxn, PublishTxn, CanClaim, ClaimTxn, CanInsert, DoInsert,
      Settle, SsnRead, EnlistTxn, CanRead, DoRead, ReadTxn, DoBegin;
    var s0 := MvoccRead();
    var s1 := Take(s0, Update(1, 0));
    var s2 := Take(s1, Go(1, 0));
    var s3 := Take(s2, Go(1, 0));
    Alike(s3, MvoccUpdated());
  }

  lemma ToMvoccExamined()
    ensures Reachable(MvoccExamined())
  {
    ToMvoccUpdated();
    hide Reachable, SsiRead, MissesS2, CanWork, DoWork, SsnRead, EnlistTxn, CanWrites, WritesTxn, ScanTxn, LastX,
      CanScan, CanStamps, DoStamps, CanLeave, DoLeave, CanForget, DoForget, CanRevert, DoRevert, AnnounceTxn,
      AbortTxn, CanRead, DoRead, ReadTxn, CanUpdate, DoUpdate, CanClaim, ClaimTxn, DoBegin, CanInsert, DoInsert,
      Settle, InstalledTxn;
    var s0 := MvoccUpdated();
    var s1 := Take(s0, Commit(1));
    var s2 := Take(s1, Obtain(1, 2));
    var s3 := Take(s2, Go(1, 0));
    var s4 := Take(s3, Go(1, 0));
    var s5 := Take(s4, Go(1, 0));
    Alike(s5, MvoccExamined());
  }

  lemma ToMvoccEnd()
    ensures Reachable(MvoccEnd())
  {
    ToMvoccExamined();
    hide Reachable, SsiRead, MissesS2, CanWork, DoWork, SsnRead, EnlistTxn, CanWrites, WritesTxn, ScanTxn, LastX,
      CanScan, CanStamps, DoStamps, CanLeave, DoLeave, CanForget, DoForget, CanRevert, DoRevert, AnnounceTxn,
      AbortTxn, PublishTxn, CanRead, DoRead, ReadTxn, CanUpdate, DoUpdate, CanClaim, ClaimTxn, DoBegin, CanInsert,
      DoInsert, InstalledTxn;
    var s0 := MvoccExamined();
    var s1 := Take(s0, Go(1, 0));
    var s2 := Take(s1, Go(1, 0));
    Alike(s2, MvoccEnd());
  }

  /** MVOCC commits a transaction that read what another committed and overwrote it. */
  lemma MvoccCommits()
    ensures Reachable(MvoccEnd()) && Committed(MvoccEnd(), 0) && Committed(MvoccEnd(), 1)
    ensures WriteRead(MvoccEnd(), 0, 1, 0) && WriteWrite(MvoccEnd(), 0, 1, 1)
  {
    ToMvoccEnd();
  }
}
