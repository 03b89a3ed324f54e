/** What every step of the epoch manager keeps, and what follows: no thread inside an epoch is ever
    overtaken by its reclamation, stragglers are counted exactly, epochs are reclaimed once and in order. */
module EpochSafety {
  import opened Options
  import opened Epoch

  /** Inside, or past the races of thread_enter. */
  predicate Live(X: Thread) { X.pc.Inside? || X.pc.Peek? || X.pc.QuietTest? }

  /** Cleared its flag and has not decremented the counter yet. */
  predicate Paying(X: Thread) { X.pc.Ended? || X.pc.QuietEnd? || X.pc.QuietRead? || X.pc.QuietBegin? }

  predicate Quiescing(X: Thread) { X.pc.Swap? || X.pc.Ready? }

  /** Threads that new_epoch has picked out and not flagged yet. */
  function Found(c: Closer): set<Tid> {
    match c
    case Scan(n, todo, found) => found
    case ScanEnd(n, todo, found, t, seen) => found
    case ShiftCold(n, found) => found
    case ShiftCooling(n, found) => found
    case Count(n, found) => found
    case Flag(n, todo) => todo
    case _ => {}
  }

  predicate Marked(s: State, t: Tid)
    requires Has(s, t)
  {
    s.threads[t].flag || t in Found(s.closer)
  }

  predicate Unscanned(s: State, t: Tid) {
    match s.closer
    case Opened(n) => true
    case Scan(n, todo, found) => t in todo
    case ScanEnd(n, todo, found, u, seen) => t in todo || (t == u && seen + 1 == n)
    case _ => false
  }

  /** The counter already includes this thread. */
  predicate Owes(s: State, t: Tid)
    requires Has(s, t)
  {
    s.threads[t].flag || Paying(s.threads[t]) || (s.closer.Flag? && t in s.closer.todo)
  }

  ghost function Owing(s: State): set<Tid> { set t: Tid | 0 <= t < |s.threads| && Owes(s, t) }

  /** The epoch change has not flagged anybody yet, or will not. */
  predicate Looking(c: Closer) {
    || c.Opened? || c.Scan? || c.ScanEnd? || c.ShiftCold? || c.ShiftCooling? || c.Count?
    || (c.Close? && c.direct) || (c.Unlock? && c.direct)
  }

  /** The closer does not touch the straggler protocol any more. */
  predicate Settled(c: Closer) {
    c.Free? || c.Locked? || (c.Flag? && c.todo == {}) || (c.Close? && !c.direct) || (c.Unlock? && !c.direct)
  }

  // ---------------------------------------------------------------- the invariant

  predicate ThreadOk(s: State, t: Tid)
    requires Has(s, t)
  {
    var X := s.threads[t];
    && X.begin <= s.begin && X.end <= s.begin
    && (Live(X) ==> X.end == 0 && X.begin >= 1)
    && (Live(X) ==> X.begin + 1 >= s.begin || (X.begin + 2 == s.begin && (Marked(s, t) || Unscanned(s, t))))
    && (match X.pc
        case ClearEnd(tmp) => X.begin <= tmp && 1 <= tmp <= s.begin && (Marked(s, t) ==> s.begin <= tmp + 2)
        case SetBegin(tmp) => X.begin <= tmp && 1 <= tmp <= s.begin && X.end == 0 &&
          (Marked(s, t) ==> s.begin <= tmp + 2)
        case Reread(tmp) => X.begin == tmp && 1 <= tmp <= s.begin && X.end == 0 && (Marked(s, t) ==> s.begin <= tmp + 2)
        case Peek(tmp, tmp2) => tmp2 <= s.begin
        case Bail(tmp2, check) => tmp2 <= s.begin && (!check ==> X.begin + 3 <= s.begin && !Marked(s, t))
        case ExitMark(tmp) => tmp <= s.begin
        case QuietClear => X.flag
        case QuietRead => X.end == 0
        case QuietBegin(tmp) => tmp == s.begin && X.end == 0
        case Clear(b) => X.flag && !b.Stay?
        case Ended(b) => b.Stay? ==> X.begin == s.begin && X.end == 0
        case Swap(b) => b.Stay? ==> X.begin == s.begin && X.end == 0
        case Ready(b) => b.Stay? ==> X.begin == s.begin && X.end == 0
        case Check(tmp, b) => !b.Stay?
        case Lock(b) => !b.Stay?
        case Test(b) => !b.Stay?
        case _ => true)
    && (Paying(X) ==> !X.flag)
    && (X.flag || Paying(X) ==> !s.ready && !Looking(s.closer) && t !in Found(s.closer))
  }

  predicate CloserOk(s: State) {
    match s.closer
    case Free => s.end == s.begin
    case Locked => s.end == s.begin
    case Opened(n) => s.begin == n + 1 >= 2 && s.end == n && s.ready
    case Scan(n, todo, found) => s.begin == n + 1 >= 2 && s.end == n && !s.ready
    case ScanEnd(n, todo, found, t, seen) =>
      s.begin == n + 1 >= 2 && s.end == n && !s.ready && Has(s, t) && seen <= s.threads[t].begin
    case ShiftCold(n, found) => s.begin == n + 1 >= 2 && s.end == n && !s.ready
    case ShiftCooling(n, found) => s.begin == n + 1 >= 2 && s.end == n && !s.ready
    case Count(n, found) => s.begin == n + 1 >= 2 && s.end == n && !s.ready && found != {}
    case Flag(n, todo) => s.begin == n + 1 >= 2 && s.end == n && (todo != {} ==> !s.ready)
    case Close(n, direct) => s.begin == n + 1 >= 2 && s.end == n && (direct ==> !s.ready)
    case Unlock(direct) => s.end == s.begin && (direct ==> !s.ready)
  }

  /** The cold epoch was handed over in this round. */
  ghost predicate Handed(s: State) {
    (s.ready && !s.closer.Opened?) || s.direct.DirectReady? || exists t: Tid :: Has(s, t) && s.threads[t].pc.Ready?
  }

  function Before(n: nat, k: nat): nat { if n < k then 0 else n - k }

  function Upto(n: nat): seq<nat> { seq(n, i => i + 1) }

  function Epoch0(n: nat): Option<nat> { if n == 0 then None else Some(n) }

  /** Which epochs are cooling, cold and reclaimed. */
  ghost predicate Cookies(s: State) {
    && s.begin >= 1
    && s.reclaimed == Upto(if Handed(s) then Before(s.begin, 2) else Before(s.begin, 3))
    && (match s.closer
        case Opened(n) => s.cooling == Epoch0(Before(n, 1)) && s.cold == None
        case Scan(n, todo, found) => s.cooling == Epoch0(Before(n, 1)) && s.cold == None
        case ScanEnd(n, todo, found, t, seen) => s.cooling == Epoch0(Before(n, 1)) && s.cold == None
        case ShiftCold(n, found) => s.cooling == Epoch0(Before(n, 1)) && s.cold == None
        case ShiftCooling(n, found) => s.cooling == s.cold == Epoch0(Before(n, 1))
        case _ =>
          && s.cooling == Epoch0(s.begin - 1)
          && s.cold == (if Handed(s) then None else Epoch0(Before(s.begin, 2))))
  }

  /** Whoever runs global_quiesce is alone, and nobody is left to wait for. */
  ghost predicate OneQuiescer(s: State) {
    && (!s.direct.NoDirect? ==> !s.ready && (s.closer.Free? || s.closer.Locked?) && Owing(s) == {})
    && (forall t: Tid :: Has(s, t) && Quiescing(s.threads[t]) ==>
          !s.ready && Settled(s.closer) && Owing(s) == {} && s.direct.NoDirect?)
    && (forall t: Tid, u: Tid :: Has(s, t) && Has(s, u) && Quiescing(s.threads[t]) && Quiescing(s.threads[u]) ==>
      t == u)
  }

  ghost predicate Threads(s: State) { forall t: Tid :: Has(s, t) ==> ThreadOk(s, t) }

  ghost predicate Inv(s: State) {
    && Threads(s)
    && Found(s.closer) <= All(s)
    && CloserOk(s)
    && Cookies(s)
    && OneQuiescer(s)
    && s.stragglers == |Owing(s)|
  }

  lemma InitInv(s: State)
    requires Init(s)
    ensures Inv(s)
  {
    assert Owing(s) == {};
  }

  // ---------------------------------------------------------------- steps of a thread

  /** t moves without entering or leaving the straggler count or global_quiesce. */
  lemma PlainMove(s: State, t: Tid, X': Thread)
    requires Inv(s) && Has(s, t) && ThreadOk(Put(s, t, X'), t)
    requires var X := s.threads[t];
      && (X'.flag || Paying(X') <==> X.flag || Paying(X)) && !Quiescing(X) && !Quiescing(X') && X.begin <= X'.begin
    ensures Inv(Put(s, t, X'))
  {
    var s' := Put(s, t, X');
    forall u: Tid | Has(s', u) && u != t ensures ThreadOk(s', u) { assert ThreadOk(s, u); }
    SameOwing(s, s');
    forall u: Tid | Has(s', u) && s'.threads[u].pc.Ready? ensures Has(s, u) && s.threads[u].pc.Ready? { }
    forall u: Tid | Has(s, u) && s.threads[u].pc.Ready? ensures Has(s', u) && s'.threads[u].pc.Ready? { assert u != t; }
    assert Handed(s') == Handed(s);
  }

  lemma SameOwing(s: State, s': State)
    requires |s'.threads| == |s.threads| && forall t: Tid :: Has(s, t) ==> (Owes(s', t) <==> Owes(s, t))
    ensures Owing(s') == Owing(s)
  {
    assert forall t: Tid :: t in Owing(s') <==> t in Owing(s);
  }

  lemma EndedThreads(s: State, t: Tid)
    requires Threads(s) && Has(s, t) && s.threads[t].pc.Ended? && s.begin >= 1
    ensures Threads(Move(s, t))
  {
    var s' := Move(s, t);
    assert ThreadOk(s, t);
    forall u: Tid | Has(s', u) ensures ThreadOk(s', u) { assert ThreadOk(s, u); }
  }

  /** Before the last decrement nobody runs global_quiesce. */
  lemma NobodyQuiesces(s: State, t: Tid)
    requires OneQuiescer(s) && Has(s, t) && Owes(s, t)
    ensures s.direct.NoDirect? && forall u: Tid :: Has(s, u) ==> !Quiescing(s.threads[u])
  {
    assert t in Owing(s);
  }

  lemma EndedMove(s: State, t: Tid)
    requires Inv(s) && Has(s, t) && s.threads[t].pc.Ended?
    ensures s.stragglers > 0 && Inv(Move(s, t))
  {
    hide Threads;
    var s' := Move(s, t);
    GetThread(s, t);
    assert t in Owing(s);
    assert Owing(s') == Owing(s) - {t};
    EndedThreads(s, t);
    NobodyQuiesces(s, t);
    if s.stragglers == 1 { NothingLeft(s, t); }
    assert Handed(s') == Handed(s);
  }

  lemma GetThread(s: State, t: Tid)
    requires Threads(s) && Has(s, t)
    ensures ThreadOk(s, t)
  {
  }

  lemma NothingLeft(s: State, t: Tid)
    requires Inv(s) && Has(s, t) && Paying(s.threads[t]) && |Owing(s)| == 1
    ensures Owing(s) == {t} && Settled(s.closer) && s.direct.NoDirect?
  {
    assert t in Owing(s);
    OnlyOne(Owing(s), t);
    assert ThreadOk(s, t);
    if s.closer.Flag? && s.closer.todo != {} {
      var u :| u in s.closer.todo;
      assert u in All(s) && u in Owing(s);
    }
  }

  lemma OnlyOne(a: set<Tid>, t: Tid)
    requires t in a && |a| == 1
    ensures a == {t}
  {
    assert |a - {t}| == 0;
  }

  lemma NobodyOwes(s: State)
    requires Owing(s) == {}
    ensures forall u: Tid :: Has(s, u) ==> !s.threads[u].flag && !Paying(s.threads[u])
    ensures s.closer.Flag? ==> forall u: Tid :: Has(s, u) ==> u !in s.closer.todo
  {
    forall u: Tid | Has(s, u) ensures !Owes(s, u) { assert u !in Owing(s); }
  }

  lemma SwapThreads(s: State, t: Tid)
    requires Threads(s) && OneQuiescer(s) && Has(s, t) && Quiescing(s.threads[t]) && s.begin >= 1
    ensures Threads(Move(s, t))
  {
    var pc := s.threads[t].pc;
    assert ThreadOk(s, t);
    var s' := Move(s, t);
    NobodyOwes(s);
    forall u: Tid | Has(s', u) ensures ThreadOk(s', u) { assert ThreadOk(s, u); }
  }

  /** The cold epoch is handed over by its last straggler. */
  lemma SwapMove(s: State, t: Tid)
    requires Inv(s) && Has(s, t) && s.threads[t].pc.Swap?
    ensures Inv(Move(s, t))
  {
    hide Threads;
    var s' := Move(s, t);
    SwapThreads(s, t);
    SameOwing(s, s');
    assert Handed(s') by { assert s'.threads[t].pc.Ready?; }
    assert !Handed(s);
  }

  lemma ReadyMove(s: State, t: Tid)
    requires Inv(s) && Has(s, t) && s.threads[t].pc.Ready?
    ensures Inv(Move(s, t))
  {
    hide Threads;
    var s' := Move(s, t);
    SwapThreads(s, t);
    SameOwing(s, s');
    assert Handed(s);
  }

  lemma Basics(s: State, t: Tid)
    requires Inv(s) && Has(s, t)
    ensures ThreadOk(s, t) && s.begin >= 1
  {
  }

  /** t's own part of a plain move. */
  ghost predicate Plain(s: State, t: Tid)
    requires CanGo(s, t)
  {
    var s' := Move(s, t);
    && Has(s', t) && s' == Put(s, t, s'.threads[t]) && ThreadOk(s', t)
    && var X, X' := s.threads[t], s'.threads[t];
       (X'.flag || Paying(X') <==> X.flag || Paying(X)) && !Quiescing(X') && X.begin <= X'.begin
  }

  predicate Entering(pc: Pc) { pc.Start? || pc.ClearEnd? || pc.SetBegin? || pc.Reread? || pc.Peek? || pc.Bail? }

  predicate Exiting(pc: Pc) { pc.ExitRead? || pc.ExitMark? || pc.ExitCheck? }

  predicate Quieting(pc: Pc) { pc.QuietTest? || pc.QuietClear? || pc.QuietEnd? || pc.QuietRead? || pc.QuietBegin? }

  lemma EnterOk(s: State, t: Tid)
    requires CanGo(s, t) && ThreadOk(s, t) && Entering(s.threads[t].pc) && s.begin >= 1
    ensures Plain(s, t)
  {
    match s.threads[t].pc
    case Start =>
    case ClearEnd(tmp) =>
    case SetBegin(tmp) =>
    case Reread(tmp) =>
    case Peek(tmp, tmp2) =>
    case Bail(tmp2, check) =>
  }

  lemma ExitOk(s: State, t: Tid)
    requires CanGo(s, t) && ThreadOk(s, t) && Exiting(s.threads[t].pc)
    ensures Plain(s, t)
  {
    match s.threads[t].pc
    case ExitRead =>
    case ExitMark(tmp) =>
    case ExitCheck =>
  }

  lemma QuietOk(s: State, t: Tid)
    requires CanGo(s, t) && ThreadOk(s, t) && Quieting(s.threads[t].pc)
    ensures Plain(s, t)
  {
    match s.threads[t].pc
    case QuietTest =>
    case QuietClear =>
    case QuietEnd =>
    case QuietRead =>
    case QuietBegin(tmp) =>
  }

  lemma CheckOk(s: State, t: Tid)
    requires CanGo(s, t) && ThreadOk(s, t)
    requires var pc := s.threads[t].pc; pc.Check? || pc.Lock? || pc.Test? || pc.Clear?
    ensures Plain(s, t)
  {
    match s.threads[t].pc
    case Check(tmp, b) =>
    case Lock(b) =>
    case Test(b) =>
    case Clear(b) =>
  }

  lemma MoveInv(s: State, t: Tid)
    requires Inv(s) && CanGo(s, t)
    ensures Inv(Move(s, t))
  {
    hide Inv, ThreadOk;
    var pc := s.threads[t].pc;
    if pc.Ended? { EndedMove(s, t); }
    else if pc.Swap? { SwapMove(s, t); }
    else if pc.Ready? { ReadyMove(s, t); }
    else {
      Basics(s, t);
      if Entering(pc) { EnterOk(s, t); }
      else if Exiting(pc) { ExitOk(s, t); }
      else if Quieting(pc) { QuietOk(s, t); }
      else { CheckOk(s, t); }
      hide Move;
      PlainMove(s, t, Move(s, t).threads[t]);
    }
  }

  // ---------------------------------------------------------------- steps of new_epoch

  /** While new_epoch is looking, nobody is flagged, counted or quiescing. */
  lemma LookingCalm(s: State)
    requires Inv(s) && Looking(s.closer)
    ensures Owing(s) == {} && s.direct.NoDirect? && forall t: Tid :: Has(s, t) ==> !Quiescing(s.threads[t])
  {
    forall t: Tid | Has(s, t) ensures !Owes(s, t) { assert ThreadOk(s, t); }
  }

  lemma ReadyCalm(s: State)
    requires Inv(s) && s.ready
    ensures s.direct.NoDirect? && forall t: Tid :: Has(s, t) ==>
      !Quiescing(s.threads[t]) && !s.threads[t].flag && !Paying(s.threads[t])
  {
    forall t: Tid | Has(s, t) ensures !s.threads[t].flag && !Paying(s.threads[t]) { assert ThreadOk(s, t); }
  }

  lemma OpenInv(s: State)
    requires Inv(s) && s.closer.Locked?
    ensures Inv(MoveCloser(s, 0))
  {
    var s' := MoveCloser(s, 0);
    if s.ready { ReadyCalm(s); }
    forall t: Tid | Has(s', t) ensures ThreadOk(s', t) { assert ThreadOk(s, t); }
    SameOwing(s, s');
    assert s.ready ==> !Handed(s');
    assert !s.ready ==> Handed(s') == Handed(s);
  }

  /** The closer moves and no thread, mark, epoch number or count changes. */
  lemma CloserThreads(s: State, pick: Tid)
    requires Inv(s) && CanClose(s, pick)
    requires var c := s.closer;
      c.Opened? || c.Scan? || c.ScanEnd? || c.ShiftCold? || c.ShiftCooling? || c.Close? || c.Unlock?
    ensures Threads(MoveCloser(s, pick))
  {
    hide Cookies, OneQuiescer;
    var s' := MoveCloser(s, pick);
    forall t: Tid | Has(s', t) ensures ThreadOk(s', t) { assert ThreadOk(s, t); }
  }

  lemma ScanInv(s: State, pick: Tid)
    requires Inv(s) && CanClose(s, pick) && (s.closer.Opened? || s.closer.Scan? || s.closer.ScanEnd?)
    ensures Inv(MoveCloser(s, pick))
  {
    hide Threads;
    var s' := MoveCloser(s, pick);
    LookingCalm(s);
    CloserThreads(s, pick);
    SameOwing(s, s');
    assert Handed(s') == Handed(s);
  }

  lemma ShiftInv(s: State, pick: Tid)
    requires Inv(s) && (s.closer.ShiftCold? || s.closer.ShiftCooling?)
    ensures Inv(MoveCloser(s, pick))
  {
    hide Threads;
    var s' := MoveCloser(s, pick);
    LookingCalm(s);
    CloserThreads(s, pick);
    SameOwing(s, s');
    assert !Handed(s') && !Handed(s);
  }

  lemma CountInv(s: State)
    requires Inv(s) && s.closer.Count?
    ensures Inv(MoveCloser(s, 0))
  {
    var s' := MoveCloser(s, 0);
    LookingCalm(s);
    NobodyOwes(s);
    forall t: Tid | Has(s', t) ensures ThreadOk(s', t) { assert ThreadOk(s, t); }
    assert Owing(s') == s.closer.found;
    assert !Handed(s') && !Handed(s);
  }

  lemma FlagThreads(s: State, pick: Tid)
    requires Inv(s) && s.closer.Flag? && CanClose(s, pick)
    ensures Threads(MoveCloser(s, pick))
  {
    hide Cookies, OneQuiescer;
    var s' := MoveCloser(s, pick);
    forall t: Tid | Has(s', t) ensures ThreadOk(s', t) { assert ThreadOk(s, t); }
  }

  lemma FlagInv(s: State, pick: Tid)
    requires Inv(s) && s.closer.Flag? && CanClose(s, pick)
    ensures Inv(MoveCloser(s, pick))
  {
    hide Threads;
    var s' := MoveCloser(s, pick);
    FlagThreads(s, pick);
    SameOwing(s, s');
    if s.closer.todo != {} { NobodyQuiesces(s, pick); }
    assert Handed(s') == Handed(s);
  }

  lemma CloseInv(s: State)
    requires Inv(s) && (s.closer.Close? || s.closer.Unlock?)
    ensures Inv(MoveCloser(s, 0))
  {
    hide Threads;
    var s' := MoveCloser(s, 0);
    CloserThreads(s, 0);
    if s.closer.direct { LookingCalm(s); }
    SameOwing(s, s');
    assert Handed(s') == Handed(s);
  }

  lemma CloserInv(s: State, pick: Tid)
    requires Inv(s) && CanClose(s, pick)
    ensures Inv(MoveCloser(s, pick))
  {
    hide Inv;
    var c := s.closer;
    if c.Locked? { OpenInv(s); }
    else if c.Opened? || c.Scan? || c.ScanEnd? { ScanInv(s, pick); }
    else if c.ShiftCold? || c.ShiftCooling? { ShiftInv(s, pick); }
    else if c.Count? { CountInv(s); }
    else if c.Flag? { FlagInv(s, pick); }
    else { CloseInv(s); }
  }

  // ---------------------------------------------------------------- every run

  lemma DirectInv(s: State)
    requires Inv(s) && !s.direct.NoDirect?
    ensures Inv(Apply(s, Directly))
  {
    var s' := Apply(s, Directly);
    NobodyOwes(s);
    forall t: Tid | Has(s, t) ensures !Quiescing(s.threads[t]) { }
    forall t: Tid | Has(s', t) ensures ThreadOk(s', t) { assert ThreadOk(s, t); }
    SameOwing(s, s');
    assert Handed(s');
    assert Handed(s) == s.direct.DirectReady?;
  }

  lemma RegisterThreads(s: State)
    requires Threads(s) && s.closer.Free?
    ensures Threads(Apply(s, Register)) && Threads(Apply(s, NewEpoch))
  {
    var r, l := Apply(s, Register), Apply(s, NewEpoch);
    forall t: Tid | Has(r, t) ensures ThreadOk(r, t) { if t < |s.threads| { assert ThreadOk(s, t); } }
    forall t: Tid | Has(l, t) ensures ThreadOk(l, t) { assert ThreadOk(s, t); }
  }

  lemma RegisterInv(s: State)
    requires Inv(s) && s.closer.Free?
    ensures Inv(Apply(s, Register))
  {
    hide Threads;
    var r := Apply(s, Register);
    RegisterThreads(s);
    assert Owing(r) == Owing(s);
    assert Handed(r) == Handed(s) by {
      if t: Tid :| Has(s, t) && s.threads[t].pc.Ready? { assert r.threads[t].pc.Ready?; }
    }
  }

  lemma NewEpochInv(s: State)
    requires Inv(s) && s.closer.Free?
    ensures Inv(Apply(s, NewEpoch))
  {
    hide Threads;
    RegisterThreads(s);
    SameOwing(s, Apply(s, NewEpoch));
    assert Handed(Apply(s, NewEpoch)) == Handed(s);
  }

  lemma CallInv(s: State, t: Tid)
    requires Inv(s) && Has(s, t)
    ensures s.threads[t].pc.Out? ==> Inv(Apply(s, Enter(t)))
    ensures s.threads[t].pc.Inside? ==> Inv(Apply(s, Exit(t))) && Inv(Apply(s, Quiesce(t)))
  {
    hide Inv;
    Basics(s, t);
    var X := s.threads[t];
    if X.pc.Out? { PlainMove(s, t, X.(pc := Start)); }
    if X.pc.Inside? {
      PlainMove(s, t, X.(pc := ExitRead));
      PlainMove(s, t, X.(pc := QuietTest));
    }
  }

  lemma StepInv(s: State, step: Step)
    requires Inv(s) && Enabled(s, step)
    ensures Inv(Apply(s, step))
  {
    hide Inv;
    match step
    case Register => RegisterInv(s);
    case NewEpoch => NewEpochInv(s);
    case Enter(t) => CallInv(s, t);
    case Exit(t) => CallInv(s, t);
    case Quiesce(t) => CallInv(s, t);
    case Go(t) => MoveInv(s, t);
    case Closing(pick) => CloserInv(s, pick);
    case Directly => DirectInv(s);
  }

  predicate Goes(s: State, step: Step, s': State) { Enabled(s, step) && s' == Apply(s, step) }

  /** A run: each step leads from one state to the next. */
  ghost predicate Run(states: seq<State>, steps: seq<Step>) {
    && |states| == |steps| + 1 && Init(states[0])
    && forall i {:trigger steps[i]} :: 0 <= i < |steps| ==> Goes(states[i], steps[i], states[i + 1])
  }

  lemma {:induction false} RunInv(states: seq<State>, steps: seq<Step>, k: nat)
    requires Run(states, steps) && k <= |steps|
    ensures Inv(states[k])
  {
    hide Inv, Apply, Enabled;
    if k == 0 {
      InitInv(states[0]);
    } else {
      RunInv(states, steps, k - 1);
      StepInv(states[k - 1], steps[k - 1]);
    }
  }

  // ---------------------------------------------------------------- what the manager promises

  /** At every moment, whoever is inside an epoch began after every reclaimed epoch. */
  lemma EpochSafe(states: seq<State>, steps: seq<Step>, k: nat, t: Tid, e: nat)
    requires Run(states, steps) && k <= |steps| && Has(states[k], t) && states[k].threads[t].pc.Inside?
    requires e in states[k].reclaimed
    ensures e < states[k].threads[t].begin
  {
    RunInv(states, steps, k);
    var s := states[k];
    assert ThreadOk(s, t);
    if Handed(s) { HandedCalm(s, t); }
  }

  /** Once the cold epoch is handed over nobody is marked. */
  lemma HandedCalm(s: State, t: Tid)
    requires Inv(s) && Handed(s) && Has(s, t)
    ensures !Marked(s, t) && !Unscanned(s, t)
  {
    assert ThreadOk(s, t);
    if !(s.ready && !s.closer.Opened?) { NobodyOwes(s); }
  }

  /** Epochs are reclaimed once each and in order, and epoch n + 2 does not open before epoch n - 1 is gone. */
  lemma ReclaimedInOrder(states: seq<State>, steps: seq<Step>, k: nat)
    requires Run(states, steps) && k <= |steps|
    ensures states[k].reclaimed == Upto(|states[k].reclaimed|)
    ensures |states[k].reclaimed| <= Before(states[k].begin, 2) <= |states[k].reclaimed| + 1
    ensures k < |steps| && states[k].begin < states[k + 1].begin ==>
      states[k + 1].begin == states[k].begin + 1 && |states[k].reclaimed| == Before(states[k].begin, 2)
  {
    RunInv(states, steps, k);
    var s := states[k];
    if k < |steps| {
      var step := steps[k];
      if step.Go? { OnlyCloserOpens(s, step.t); }
    }
  }

  lemma OnlyCloserOpens(s: State, t: Tid)
    requires CanGo(s, t)
    ensures Move(s, t).begin == s.begin
  {
  }

  /** The counter is exact: flagged threads, those about to be flagged, and those about to sign off. */
  lemma StragglersCounted(states: seq<State>, steps: seq<Step>, k: nat)
    requires Run(states, steps) && k <= |steps|
    ensures states[k].stragglers == |Owing(states[k])|
    ensures forall t: Tid :: Has(states[k], t) && states[k].threads[t].pc.Ended? ==> states[k].stragglers > 0
  {
    RunInv(states, steps, k);
    var s := states[k];
    forall t: Tid | Has(s, t) && s.threads[t].pc.Ended? ensures s.stragglers > 0 { assert t in Owing(s); }
  }

  /** A thread that retries because it was too slow is neither flagged nor about to be. */
  lemma SlowArmClean(states: seq<State>, steps: seq<Step>, k: nat, t: Tid)
    requires Run(states, steps) && k <= |steps| && Has(states[k], t)
    requires var pc := states[k].threads[t].pc; pc.Bail? && !pc.check
    ensures !Marked(states[k], t)
  {
    RunInv(states, steps, k);
    assert ThreadOk(states[k], t);
  }

  /** With the mutex in hand, new_epoch opens the next epoch exactly when it is ready to; that is, exactly when every
      epoch before the last two is reclaimed and nobody is still signing off.  Otherwise it changes nothing. */
  lemma OpensExact(states: seq<State>, steps: seq<Step>, k: nat)
    requires Run(states, steps) && k < |steps| && steps[k].Closing? && states[k].closer.Locked?
    ensures var s, s' := states[k], states[k + 1];
      && (s.ready <==> s'.begin == s.begin + 1) && (s.ready <==> s'.closer == Opened(s.begin))
      && (!s.ready ==> s' == s.(closer := Free))
      && (s.ready ==> s.reclaimed == Upto(Before(s.begin, 2)) && s.direct.NoDirect?)
      && (s.ready ==> forall t: Tid :: Has(s, t) ==> !Quiescing(s.threads[t]))
  {
    RunInv(states, steps, k);
  }

  // ---------------------------------------------------------------- nobody is forgotten

  predicate Working(s: State, t: Tid) { Has(s, t) && (Owes(s, t) || Quiescing(s.threads[t])) }

  /** Somebody still has to sign off, or to reclaim. */
  ghost predicate Someone(s: State) { !s.direct.NoDirect? || exists t: Tid :: Working(s, t) }

  ghost predicate Alive(s: State) { !s.ready && (Settled(s.closer) || s.closer.Flag?) ==> Someone(s) }

  /** The last straggler becomes the one who reclaims; before that there is another straggler. */
  lemma EndedAlive(s: State, t: Tid)
    requires Inv(s) && CanGo(s, t) && s.threads[t].pc.Ended?
    ensures Someone(Move(s, t))
  {
    var s' := Move(s, t);
    assert t in Owing(s);
    if s.stragglers == 1 { assert Working(s', t); }
    else {
      var rest := Owing(s) - {t};
      assert |rest| == s.stragglers - 1;
      var u :| u in rest;
      assert Working(s', u);
    }
  }

  lemma MoveAlive(s: State, t: Tid)
    requires Inv(s) && Alive(s) && CanGo(s, t)
    ensures Alive(Move(s, t))
  {
    var s' := Move(s, t);
    if s.threads[t].pc.Ended? { EndedAlive(s, t); }
    else if !s.ready && !s'.ready && (Settled(s.closer) || s.closer.Flag?) && s.direct.NoDirect? {
      var u: Tid :| Working(s, u);
      hide Inv;
      MoveWorking(s, t, u);
    }
  }

  lemma MoveWorking(s: State, t: Tid, u: Tid)
    requires CanGo(s, t) && !s.threads[t].pc.Ended? && !s.threads[t].pc.Ready? && Working(s, u)
    ensures Working(Move(s, t), u)
  {
  }

  lemma CloserAlive(s: State, pick: Tid)
    requires Inv(s) && Alive(s) && CanClose(s, pick)
    ensures Alive(MoveCloser(s, pick))
  {
    var s' := MoveCloser(s, pick);
    if s.closer.Count? {
      var u :| u in s.closer.found;
      assert u in All(s);
      assert Working(s', u);
    } else if !s'.ready && s'.direct.NoDirect? && (Settled(s.closer) || s.closer.Flag?) {
      var u: Tid :| Working(s, u);
      assert Working(s', u) || s'.closer.Opened?;
    }
  }

  lemma StepAlive(s: State, step: Step)
    requires Inv(s) && Alive(s) && Enabled(s, step)
    ensures Alive(Apply(s, step))
  {
    hide Inv;
    match step
    case Go(t) => MoveAlive(s, t);
    case Closing(pick) => CloserAlive(s, pick);
    case Directly =>
    case _ =>
      var s' := Apply(s, step);
      if !s'.ready && s'.direct.NoDirect? && (Settled(s'.closer) || s'.closer.Flag?) {
        var u: Tid :| Working(s, u);
        assert Working(s', u);
      }
  }

  lemma {:induction false} RunAlive(states: seq<State>, steps: seq<Step>, k: nat)
    requires Run(states, steps) && k <= |steps|
    ensures Alive(states[k])
  {
    hide Inv, Apply, Enabled;
    if k > 0 {
      RunAlive(states, steps, k - 1);
      RunInv(states, steps, k - 1);
      StepAlive(states[k - 1], steps[k - 1]);
    }
  }

  /** No epoch gets stuck: whenever the mutex is free and no epoch can be opened, a thread is flagged and has to sign
      off, or somebody is signing off or reclaiming. */
  lemma NeverStuck(states: seq<State>, steps: seq<Step>, k: nat)
    requires Run(states, steps) && k <= |steps| && states[k].closer.Free? && !states[k].ready
    ensures var s := states[k];
      || !s.direct.NoDirect?
      || exists t: Tid :: Has(s, t) && (s.threads[t].flag || Paying(s.threads[t]) || Quiescing(s.threads[t]))
  {
    RunAlive(states, steps, k);
    var s := states[k];
    if s.direct.NoDirect? { var t: Tid :| Working(s, t); }
  }
}
