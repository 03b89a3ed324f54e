/** What a thread owes when it is outside.  thread_exit can return while new_epoch has the thread on its list: the
    thread is then flagged outside, and no epoch closes until it comes back.  This module says exactly when that
    happens, and holds a run in which it does. */
module EpochExit {
  import opened Options
  import opened Epoch
  import opened EpochSafety

  // ---------------------------------------------------------------- ends and marks

  /** The end mark is written and the next transaction has not begun. */
  predicate Past(pc: Pc) {
    match pc
    case Out => true
    case Start => true
    case ClearEnd(tmp) => true
    case ExitCheck => true
    case Check(tmp, b) => true
    case Lock(b) => true
    case Test(b) => true
    case Clear(b) => true
    case Ended(b) => !b.Stay?
    case Swap(b) => !b.Stay?
    case Ready(b) => !b.Stay?
    case _ => false
  }

  /** Past the wait for an epoch change, on the way out. */
  predicate Cleared(pc: Pc) {
    match pc
    case Test(b) => b.Leave?
    case Clear(b) => b.Leave?
    case Ended(b) => b.Leave?
    case Swap(b) => b.Leave?
    case Ready(b) => b.Leave?
    case _ => false
  }

  predicate MarkOk(s: State, t: Tid)
    requires Has(s, t)
  {
    MarkRec(s.threads[t], s.end, t in Found(s.closer))
  }

  predicate MarkRec(X: Thread, end: nat, found: bool) {
    && (Past(X.pc) ==> X.begin <= X.end)
    && (match X.pc
        case ExitMark(tmp) => X.begin <= tmp
        case Bail(tmp2, check) => X.begin <= tmp2
        case Peek(tmp, tmp2) => X.begin <= tmp2
        case ExitCheck => X.end < X.begin + 2
        case Check(tmp, b) => b.Leave? ==> X.begin + 2 <= tmp
        case _ => true)
    && (found ==> end <= X.begin + 1 && !Cleared(X.pc))
  }

  ghost predicate Marks(s: State) { forall t: Tid :: Has(s, t) ==> MarkOk(s, t) }

  lemma MoveMarks(s: State, t: Tid)
    requires Inv(s) && Marks(s) && CanGo(s, t)
    ensures Marks(Move(s, t))
  {
    var s' := Move(s, t);
    assert MarkOk(s, t);
    NotFound(s, t);
    assert ThreadOk(s, t);
    hide Inv, MarkRec, ThreadOk;
    MoveMark(s, t);
    MoveFrame(s, t);
    hide Move;
    forall u: Tid | Has(s', u) ensures MarkOk(s', u) { assert MarkOk(s, u); }
  }

  lemma MoveFrame(s: State, t: Tid)
    requires CanGo(s, t)
    ensures var s' := Move(s, t);
      && s'.end == s.end && s'.closer == s.closer && |s'.threads| == |s.threads|
      && s'.threads == s.threads[t := s'.threads[t]]
  {
    hide Raced, AfterCheck;
  }

  /** A thread that waited for the epoch change, or saw it completed, is on no list. */
  lemma NotFound(s: State, t: Tid)
    requires Inv(s) && Has(s, t)
    ensures s.closer.Free? ==> t !in Found(s.closer)
    ensures s.threads[t].flag || Paying(s.threads[t]) ==> t !in Found(s.closer)
    ensures Quiescing(s.threads[t]) ==> t !in Found(s.closer)
  {
    assert ThreadOk(s, t);
  }

  lemma MoveMark(s: State, t: Tid)
    requires CanGo(s, t) && ThreadOk(s, t) && MarkOk(s, t)
    requires s.closer.Free? ==> t !in Found(s.closer)
    requires s.threads[t].flag || Paying(s.threads[t]) || Quiescing(s.threads[t]) ==> t !in Found(s.closer)
    ensures Has(Move(s, t), t) && MarkOk(Move(s, t), t)
  {
    hide ThreadOk, MarkRec, Move, MarkOk;
    var pc := s.threads[t].pc;
    if Entering(pc) { EnterMark(s, t); }
    else if Exiting(pc) { ExitMarks(s, t); }
    else { RestMark(s, t); }
  }

  lemma EnterMark(s: State, t: Tid)
    requires CanGo(s, t) && ThreadOk(s, t) && MarkOk(s, t) && Entering(s.threads[t].pc)
    ensures Has(Move(s, t), t) && MarkOk(Move(s, t), t)
  {
    hide Found;
  }

  lemma ExitMarks(s: State, t: Tid)
    requires CanGo(s, t) && ThreadOk(s, t) && MarkOk(s, t) && Exiting(s.threads[t].pc)
    ensures Has(Move(s, t), t) && MarkOk(Move(s, t), t)
  {
    hide Found;
  }

  lemma RestMark(s: State, t: Tid)
    requires CanGo(s, t) && ThreadOk(s, t) && MarkOk(s, t) && !Entering(s.threads[t].pc) && !Exiting(s.threads[t].pc)
    requires s.closer.Free? ==> t !in Found(s.closer)
    requires s.threads[t].flag || Paying(s.threads[t]) || Quiescing(s.threads[t]) ==> t !in Found(s.closer)
    ensures Has(Move(s, t), t) && MarkOk(Move(s, t), t)
  {
    hide Found;
  }

  lemma CloserMarks(s: State, pick: Tid)
    requires Inv(s) && Marks(s) && CanClose(s, pick)
    ensures Marks(MoveCloser(s, pick))
  {
    var s' := MoveCloser(s, pick);
    assert CloserOk(s);
    hide Inv;
    forall u: Tid | Has(s', u) ensures MarkOk(s', u) {
      assert MarkOk(s, u);
      CloserMark(s, pick, u);
    }
  }

  lemma CloserMark(s: State, pick: Tid, u: Tid)
    requires CloserOk(s) && CanClose(s, pick) && Has(s, u) && MarkOk(s, u)
    ensures Has(MoveCloser(s, pick), u) && MarkOk(MoveCloser(s, pick), u)
  {
    var s' := MoveCloser(s, pick);
    FoundFrom(s, pick, u);
    SameThread(s, pick, u);
    hide MoveCloser, Found;
    hide CloserOk;
  }

  lemma SameThread(s: State, pick: Tid, u: Tid)
    requires CanClose(s, pick) && Has(s, u)
    ensures Has(MoveCloser(s, pick), u)
    ensures MoveCloser(s, pick).threads[u] == s.threads[u].(flag := MoveCloser(s, pick).threads[u].flag)
  {
  }

  /** Whoever gets on the list has not written its end mark. */
  lemma FoundFrom(s: State, pick: Tid, u: Tid)
    requires CloserOk(s) && CanClose(s, pick) && Has(s, u) && MarkOk(s, u)
    ensures var s' := MoveCloser(s, pick);
      u in Found(s'.closer) ==>
        && s'.end == s.end
        && (u in Found(s.closer) || (s.end <= s.threads[u].begin + 1 && s.threads[u].begin > s.threads[u].end))
  {
  }

  lemma StepMarks(s: State, step: Step)
    requires Inv(s) && Marks(s) && Enabled(s, step)
    ensures Marks(Apply(s, step))
  {
    match step
    case Go(t) => MoveMarks(s, t);
    case Closing(pick) => CloserMarks(s, pick);
    case _ =>
      var s' := Apply(s, step);
      forall u: Tid | Has(s', u) ensures MarkOk(s', u) { CallMark(s, step, u); }
  }

  lemma CallMark(s: State, step: Step, u: Tid)
    requires Inv(s) && Marks(s) && Enabled(s, step) && !step.Go? && !step.Closing? && Has(Apply(s, step), u)
    ensures MarkOk(Apply(s, step), u)
  {
    if Has(s, u) { assert MarkOk(s, u); } else { NewListed(s, u); }
    hide Inv;
  }

  lemma NewListed(s: State, u: Tid)
    requires Inv(s) && !Has(s, u)
    ensures u !in Found(s.closer)
  {
  }

  lemma {:induction false} RunMarks(states: seq<State>, steps: seq<Step>, k: nat)
    requires Run(states, steps) && k <= |steps|
    ensures Marks(states[k])
  {
    hide Inv, Apply, Enabled;
    if k > 0 {
      RunMarks(states, steps, k - 1);
      RunInv(states, steps, k - 1);
      StepMarks(states[k - 1], steps[k - 1]);
    }
  }

  // ---------------------------------------------------------------- forgotten outside

  /** t is outside and flagged, or about to be. */
  predicate Forgotten(s: State, t: Tid) { Has(s, t) && s.threads[t].pc.Out? && Marked(s, t) }

  /** The step is the last look of thread_exit: the epoch change that has t on its list is not complete, and t's end
      mark is from before that change. */
  predicate Slips(s: State, step: Step, t: Tid) {
    && step == Go(t) && Has(s, t) && s.threads[t].pc.ExitCheck? && Marked(s, t)
    && s.end < s.threads[t].begin + 2 && s.threads[t].end < s.threads[t].begin + 2
  }

  lemma StepForgotten(s: State, step: Step, t: Tid)
    requires Inv(s) && Marks(s) && Enabled(s, step) && Has(s, t)
    ensures Has(Apply(s, step), t)
    ensures Apply(s, step).threads[t].pc.Out? ==> (Marked(Apply(s, step), t) <==> Forgotten(s, t) || Slips(s, step, t))
  {
    assert MarkOk(s, t) && CloserOk(s);
    NotFound(s, t);
    PaidUp(s, t);
    hide Inv;
    if step.Go? {
      if step.t != t { OtherMoves(s, step.t, t); } else { OwnForgets(s, t); }
      hide Move;
    } else if step.Closing? {
      CloserForgets(s, step.pick, t);
      hide MoveCloser;
    }
  }

  lemma PaidUp(s: State, t: Tid)
    requires Inv(s) && Has(s, t)
    ensures Paying(s.threads[t]) || s.threads[t].pc.Swap? || s.threads[t].pc.Ready? ==> !s.threads[t].flag
  {
    assert ThreadOk(s, t);
    if Quiescing(s.threads[t]) { NobodyOwes(s); }
  }

  /** On its way out a thread either finds itself on no list, or slips. */
  lemma OwnForgets(s: State, t: Tid)
    requires CanGo(s, t) && MarkOk(s, t)
    requires Paying(s.threads[t]) || Quiescing(s.threads[t]) ==> !s.threads[t].flag
    requires s.threads[t].flag || Paying(s.threads[t]) || Quiescing(s.threads[t]) ==> t !in Found(s.closer)
    ensures Has(Move(s, t), t)
    ensures Move(s, t).threads[t].pc.Out? ==> (Marked(Move(s, t), t) <==> Slips(s, Go(t), t)) && !s.threads[t].pc.Out?
  {
    hide Found;
  }

  lemma OtherMoves(s: State, u: Tid, t: Tid)
    requires CanGo(s, u) && Has(s, t) && u != t
    ensures Has(Move(s, u), t) && Move(s, u).threads[t] == s.threads[t] && Move(s, u).closer == s.closer
  {
  }

  lemma CloserForgets(s: State, pick: Tid, t: Tid)
    requires CanClose(s, pick) && Has(s, t) && MarkOk(s, t) && CloserOk(s)
    requires s.closer.Flag? && s.closer.todo == {} ==> t !in Found(s.closer)
    ensures Has(MoveCloser(s, pick), t) && MoveCloser(s, pick).threads[t].pc == s.threads[t].pc
    ensures s.threads[t].pc.Out? ==> (Marked(MoveCloser(s, pick), t) <==> Marked(s, t))
  {
  }

  ghost predicate OutSince(states: seq<State>, i: nat, k: nat, t: Tid)
    requires k < |states|
  {
    forall j :: i < j <= k ==> Has(states[j], t) && states[j].threads[t].pc.Out?
  }

  /** t's last thread_exit returned in the middle of an epoch change that had it on the list. */
  ghost predicate SlippedOut(states: seq<State>, steps: seq<Step>, k: nat, t: Tid)
    requires k <= |steps| < |states|
  {
    exists i :: 0 <= i < k && Slips(states[i], steps[i], t) && OutSince(states, i, k, t)
  }

  lemma SlippedNext(states: seq<State>, steps: seq<Step>, k: nat, t: Tid)
    requires 0 < k <= |steps| < |states| && Has(states[k], t) && states[k].threads[t].pc.Out?
    ensures var s := states[k - 1];
      SlippedOut(states, steps, k, t) <==>
        Slips(s, steps[k - 1], t) || (Has(s, t) && s.threads[t].pc.Out? && SlippedOut(states, steps, k - 1, t))
  {
    hide Slips;
    if i :| 0 <= i < k && Slips(states[i], steps[i], t) && OutSince(states, i, k, t) {
      if i < k - 1 { assert OutSince(states, i, k - 1, t); }
    }
    if Slips(states[k - 1], steps[k - 1], t) { assert OutSince(states, k - 1, k, t); }
    if i :| 0 <= i < k - 1 && Slips(states[i], steps[i], t) && OutSince(states, i, k - 1, t) {
      if Has(states[k - 1], t) && states[k - 1].threads[t].pc.Out? { assert OutSince(states, i, k, t); }
    }
  }

  lemma ForgottenStep(s: State, step: Step, s': State, t: Tid)
    requires Inv(s) && Marks(s) && Goes(s, step, s') && Has(s', t) && s'.threads[t].pc.Out?
    ensures Marked(s', t) <==> Slips(s, step, t) || (Has(s, t) && s.threads[t].pc.Out? && Marked(s, t))
  {
    hide Inv, Apply, Enabled, Slips, Marked, Marks;
    if Has(s, t) { StepForgotten(s, step, t); } else { NewUnmarked(s, step, t); }
  }

  /** A thread outside is flagged, or about to be, exactly when its last thread_exit returned in the middle of an epoch
      change that had it on the list. */
  lemma {:induction false} ForgottenExact(states: seq<State>, steps: seq<Step>, k: nat, t: Tid)
    requires Run(states, steps) && k <= |steps| && Has(states[k], t) && states[k].threads[t].pc.Out?
    ensures Marked(states[k], t) <==> SlippedOut(states, steps, k, t)
  {
    hide Inv, Goes, Slips, Marked, SlippedOut, Marks;
    if k > 0 {
      RunInv(states, steps, k - 1);
      RunMarks(states, steps, k - 1);
      SlippedNext(states, steps, k, t);
      ForgottenStep(states[k - 1], steps[k - 1], states[k], t);
      if Has(states[k - 1], t) && states[k - 1].threads[t].pc.Out? { ForgottenExact(states, steps, k - 1, t); }
    }
  }

  lemma NewUnmarked(s: State, step: Step, t: Tid)
    requires Inv(s) && Enabled(s, step) && !Has(s, t) && Has(Apply(s, step), t)
    ensures !Marked(Apply(s, step), t) && !Slips(s, step, t)
  {
    NewListed(s, t);
    hide Inv, Found;
    if step.Go? { MoveFrame(s, step.t); } else if step.Closing? { SameCount(s, step.pick); }
    hide Move, MoveCloser;
  }

  lemma SameCount(s: State, pick: Tid)
    requires CanClose(s, pick)
    ensures |MoveCloser(s, pick).threads| == |s.threads|
  {
  }

  // ---------------------------------------------------------------- a run that gets stuck

  /** Nobody is inside, no epoch can be opened, and the flagged threads are all outside. */
  ghost predicate Stuck(s: State) {
    && (s.closer.Free? || s.closer.Locked?) && !s.ready && s.direct.NoDirect?
    && (forall t: Tid :: Has(s, t) ==> s.threads[t].pc.Out?) && exists t: Tid :: Has(s, t) && s.threads[t].flag
  }

  /** As long as no thread enters, a stuck manager stays stuck, however often an epoch change is asked for. */
  lemma StuckStays(s: State, step: Step)
    requires Stuck(s) && Enabled(s, step) && !step.Enter?
    ensures Stuck(Apply(s, step)) && Apply(s, step).begin == s.begin && Apply(s, step).reclaimed == s.reclaimed
  {
    var t: Tid :| Has(s, t) && s.threads[t].flag;
    var s' := Apply(s, step);
    assert Has(s', t) && s'.threads[t].flag;
  }

  /** Thread 0 entered epoch 1, which has been closed since. */
  function Cooled(): State {
    State(2, 2, true, 0, Some(1), None, [Thread(1, 0, false, Inside)], Free, NoDirect, [])
  }

  /** Thread 0 is leaving and has read the epoch number, when the next epoch change puts it on its list. */
  function Listed(): State {
    State(3, 2, false, 0, Some(1), None, [Thread(1, 0, false, ExitMark(2))], Scan(2, {}, {0}), NoDirect, [])
  }

  /** Thread 0 is outside. */
  function Slipped(): State {
    State(3, 2, false, 0, Some(1), None, [Thread(1, 2, false, Out)], Scan(2, {}, {0}), NoDirect, [])
  }

  /** Thread 0 is flagged. */
  function Flagged(): State {
    State(3, 3, false, 1, Some(2), Some(1), [Thread(1, 2, true, Out)], Free, NoDirect, [])
  }

  ghost predicate Reachable(s: State) {
    exists states: seq<State>, steps: seq<Step> :: Run(states, steps) && states[|steps|] == s
  }

  lemma Take(s: State, step: Step) returns (s': State)
    requires Reachable(s) && Enabled(s, step)
    ensures s' == Apply(s, step) && Reachable(s')
  {
    hide Enabled, Apply;
    s' := Apply(s, step);
    var states: seq<State>, steps: seq<Step> :| Run(states, steps) && states[|steps|] == s;
    assert Run(states + [s'], steps + [step]);
  }

  lemma ToCooled()
    ensures Reachable(Cooled())
  {
    var s0 := State(1, 1, true, 0, None, None, [], Free, NoDirect, []);
    assert Run([s0], []);
    hide Reachable;
    var s1 := Take(s0, Register);
    var s2 := Take(s1, Enter(0));
    var s3 := Take(s2, Go(0));
    var s4 := Take(s3, Go(0));
    var s5 := Take(s4, Go(0));
    var s6 := Take(s5, Go(0));
    var s7 := Take(s6, Go(0));
    assert s7.threads == [Thread(1, 0, false, Inside)];
    assert s7 == State(1, 1, true, 0, None, None, [Thread(1, 0, false, Inside)], Free, NoDirect, []);
    Change(s7);
  }

  lemma Change(s: State)
    requires Reachable(s)
    requires s == State(1, 1, true, 0, None, None, [Thread(1, 0, false, Inside)], Free, NoDirect, [])
    ensures Reachable(Cooled())
  {
    hide Reachable;
    var s1 := Take(s, NewEpoch);
    var s2 := Take(s1, Closing(0));
    var s3 := Take(s2, Closing(0));
    assert All(s2) == {0};
    var s4 := Take(s3, Closing(0));
    var s5 := Take(s4, Closing(0));
    assert {0} - {0} == {};
    var s6 := Take(s5, Closing(0));
    var s7 := Take(s6, Closing(0));
    var s8 := Take(s7, Closing(0));
    var s9 := Take(s8, Closing(0));
    var s10 := Take(s9, Closing(0));
    var s11 := Take(s10, Directly);
    var s12 := Take(s11, Directly);
    assert s12 == Cooled();
  }

  lemma ToListed()
    ensures Reachable(Listed())
  {
    ToCooled();
    hide Reachable;
    var s1 := Take(Cooled(), Exit(0));
    var s2 := Take(s1, Go(0));
    var s3 := Take(s2, NewEpoch);
    var s4 := Take(s3, Closing(0));
    var s5 := Take(s4, Closing(0));
    assert All(s4) == {0};
    var s6 := Take(s5, Closing(0));
    var s7 := Take(s6, Closing(0));
    assert {0} - {0} == {} && {} + {0} == {0};
    assert s7.threads == Listed().threads;
    assert s7 == Listed();
  }

  lemma ToSlipped()
    ensures Reachable(Slipped())
  {
    ToListed();
    hide Reachable;
    var s1 := Take(Listed(), Go(0));
    var s2 := Take(s1, Go(0));
    assert s2.threads == Slipped().threads;
    assert s2 == Slipped();
  }

  lemma ToFlagged()
    ensures Reachable(Flagged())
  {
    ToSlipped();
    hide Reachable;
    var s1 := Take(Slipped(), Closing(0));
    var s2 := Take(s1, Closing(0));
    var s3 := Take(s2, Closing(0));
    var s4 := Take(s3, Closing(0));
    var s5 := Take(s4, Closing(0));
    assert {0} - {0} == {};
    var s6 := Take(s5, Closing(0));
    var s7 := Take(s6, Closing(0));
    var s8 := Take(s7, Closing(0));
    assert s8.threads == Flagged().threads;
    assert s8 == Flagged();
  }

  /** The manager can get stuck: a thread slips out of thread_exit, is flagged outside, and until it comes back no
      epoch closes. */
  lemma StuckRun()
    ensures Reachable(Flagged()) && Stuck(Flagged())
  {
    ToFlagged();
    hide Reachable;
    assert Has(Flagged(), 0) && Flagged().threads[0].flag;
  }

  // ---------------------------------------------------------------- one thread alone

  /** The states of t taking n steps on its own. */
  ghost predicate Alone(states: seq<State>, t: Tid) {
    && states != []
    && forall i {:trigger states[i]} :: 0 <= i < |states| - 1 ==>
         CanGo(states[i], t) && states[i + 1] == Move(states[i], t)
  }

  /** Nothing keeps a thread that owes nothing from entering the current epoch. */
  lemma EnterAlone(s: State, t: Tid) returns (states: seq<State>)
    requires Inv(s) && Has(s, t) && s.threads[t].pc.Out? && !s.threads[t].flag
    ensures Alone(states, t) && states[0] == Apply(s, Enter(t))
    ensures states[|states| - 1] == Put(s, t, Thread(s.begin, 0, false, Inside))
  {
    hide Inv;
    var s0 := Apply(s, Enter(t));
    var s1 := Move(s0, t);
    var s2 := Move(s1, t);
    var s3 := Move(s2, t);
    var s4 := Move(s3, t);
    var s5 := Move(s4, t);
    states := [s0, s1, s2, s3, s4, s5];
    assert s5.threads == s.threads[t := Thread(s.begin, 0, false, Inside)];
  }

  /** A stuck manager is freed when its last flagged thread enters again. */
  lemma ReentryFrees(s: State, t: Tid) returns (states: seq<State>)
    requires Inv(s) && Stuck(s) && s.closer.Free? && Has(s, t) && s.threads[t].flag && s.stragglers == 1
    ensures Alone(states, t) && states[0] == Apply(s, Enter(t))
    ensures states[|states| - 1].ready && Has(states[|states| - 1], t) && !states[|states| - 1].threads[t].flag
  {
    hide Inv;
    assert s.end == s.begin by { CloserNow(s); }
    var s0 := Apply(s, Enter(t));
    var s1 := Move(s0, t);
    var s2 := Move(s1, t);
    var s3 := Move(s2, t);
    var s4 := Move(s3, t);
    var s5 := Move(s4, t);
    var s6 := Move(s5, t);
    var s7 := Move(s6, t);
    var s8 := Move(s7, t);
    var s9 := Move(s8, t);
    var s10 := Move(s9, t);
    var s11 := Move(s10, t);
    var s12 := Move(s11, t);
    states := [s0, s1, s2, s3, s4, s5, s6, s7, s8, s9, s10, s11, s12];
  }

  lemma CloserNow(s: State)
    requires Inv(s)
    ensures s.closer.Free? ==> s.end == s.begin
  {
  }

  // ---------------------------------------------------------------- quiescing

  /** t is in the middle of thread_quiesce, which it called when it was flagged. */
  predicate Signing(X: Thread) {
    match X.pc
    case QuietTest => X.flag
    case QuietClear => true
    case QuietEnd => true
    case QuietRead => true
    case QuietBegin(tmp) => true
    case Ended(b) => b.Stay?
    case Swap(b) => b.Stay?
    case Ready(b) => b.Stay?
    case _ => false
  }

  lemma StepQuiet(s: State, step: Step, t: Tid)
    requires Inv(s) && Enabled(s, step) && Has(s, t) && Signing(s.threads[t])
    ensures Has(Apply(s, step), t)
    ensures Signing(Apply(s, step).threads[t]) || Renewed(Apply(s, step), t)
  {
    assert ThreadOk(s, t);
    NotFound(s, t);
    if s.threads[t].pc.Ready? { NobodyOwes(s); }
    hide Inv;
    if step.Go? && step.t != t { OtherMoves(s, step.t, t); }
  }

  /** t is inside, in the current epoch, and owes nothing. */
  predicate Renewed(s: State, t: Tid) {
    Has(s, t) && s.threads[t].pc.Inside? && s.threads[t].begin == s.begin && s.threads[t].end == 0 && !Marked(s, t)
  }

  lemma QuietGoes(s: State, step: Step, s': State, t: Tid)
    requires Inv(s) && Goes(s, step, s') && Has(s, t)
    requires Signing(s.threads[t]) || (step == Quiesce(t) && s.threads[t].flag)
    ensures Has(s', t) && (Signing(s'.threads[t]) || Renewed(s', t))
  {
    if Signing(s.threads[t]) {
      hide Inv, Apply, Enabled;
      StepQuiet(s, step, t);
    } else {
      hide Inv;
    }
  }

  /** A flagged thread that quiesces is next inside in the current epoch, and owes nothing. */
  lemma {:induction false} QuiesceRenews(states: seq<State>, steps: seq<Step>, i: nat, k: nat, t: Tid)
    requires Run(states, steps) && i < k <= |steps| && steps[i] == Quiesce(t)
    requires Has(states[i], t) && states[i].threads[t].flag
    requires forall j :: i < j < k ==> Has(states[j], t) && !states[j].threads[t].pc.Inside?
    ensures Has(states[k], t) && (Signing(states[k].threads[t]) || Renewed(states[k], t))
  {
    hide Inv, Goes, Signing;
    RunInv(states, steps, k - 1);
    if i < k - 1 { QuiesceRenews(states, steps, i, k - 1, t); }
    QuietGoes(states[k - 1], steps[k - 1], states[k], t);
  }
}
