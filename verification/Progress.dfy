/** Spinning cannot deadlock: whoever waits for an outcome waits for a smaller commit stamp. */
module Progress {
  import opened Options
  import opened Engine
  import opened EngineInv
  import opened EngineShapes
  import opened EngineGuar
  import opened EngineBits
  import opened EngineReads
  import opened EngineWrites
  import opened EngineFacts
  import opened EngineSsi
  import opened EngineMarks
  import opened EngineRuns

  /** Asked to commit or abort, and not finished with it. */
  predicate Busy(T: Txn) { !T.pc.Work? && !T.pc.Freed? }

  /** Some step of t other than giving up is enabled; a doomed transaction can only abort. */
  ghost predicate CanMove(s: State, t: Tid) {
    HasTxn(s, t) && ((exists pick: nat :: CanGo(s, t, pick)) || s.txns[t].pc.Entered? || s.txns[t].pc.Doomed?)
  }

  /** t spins until x publishes its stamp. */
  predicate SpinsForEnd(s: State, t: Tid, x: Tid) {
    && HasTxn(s, t) && HasTxn(s, x) && !EndKnown(s.txns[x])
    && match s.txns[t].pc
       case Reads(todo, r) => r.AwaitEnd? && r.x == x
       case Writes(todo, w) => w.Scan? && w.at == AwaitReaderEnd(x)
       case _ => false
  }

  /** t spins until the outcome of x is known. */
  predicate SpinsForFate(s: State, t: Tid, x: Tid) {
    && HasTxn(s, t) && HasTxn(s, x) && !FateKnown(s.txns[x])
    && match s.txns[t].pc
       case Reads(todo, r) => r.AwaitFate? && r.x == x
       case Writes(todo, w) => w.Scan? && w.at.AwaitReaderFate? && w.at.r == x
       case Leave(todo, l) => l.Wait? && l.x == x
       case _ => false
  }

  /** Whoever is waited for to publish its stamp is past ACTIVE and can move. */
  lemma EndComes(s: State, t: Tid, x: Tid)
    requires Inv(s) && SpinsForEnd(s, t, x)
    ensures Busy(s.txns[x]) && CanMove(s, x)
  {
    hide Shapes, Chains, BitSide, ReadSide, WriteSide, Facts, PivotSide, Roots, S2Side, Waits;
    StatesAre(s, t);
    StatesAre(s, x);
    if s.txns[t].pc.Reads? {
      GetReads(s, t);
      FocusStamped(s, t);
    } else {
      GetWrites(s, t);
    }
    assert s.txns[x].pc.Obtained? ==> CanGo(s, x, 0);
  }

  /** Whoever is waited for to decide has a smaller commit stamp, and is busy. */
  lemma FateOlder(s: State, t: Tid, x: Tid)
    requires Inv(s) && SpinsForFate(s, t, x)
    ensures 0 < s.txns[x].got < s.txns[t].got && Busy(s.txns[x])
  {
    hide Shapes, Chains, BitSide, ReadSide, WriteSide, Facts, PivotSide, Roots, S2Side;
    StatesAre(s, t);
    StatesAre(s, x);
    if s.txns[t].pc.Reads? {
      GetReads(s, t);
      FocusStamped(s, t);
    } else if s.txns[t].pc.Writes? {
      GetWrites(s, t);
    } else {
      assert WaitOf(s, t);
    }
  }

  // ---------------------------------------------------------------- everyone else can move

  lemma ReadsMove(s: State, t: Tid)
    requires Inv(s) && HasTxn(s, t) && s.txns[t].pc.Reads?
    requires forall x: Tid :: !SpinsForEnd(s, t, x) && !SpinsForFate(s, t, x)
    ensures CanMove(s, t)
  {
    hide Shapes, Chains, BitSide, ReadSide, WriteSide, Facts, PivotSide, Roots, S2Side, Waits;
    FocusStamped(s, t);
    var todo, r := s.txns[t].pc.todo, s.txns[t].pc.rat;
    var pick: nat := if r.Next? && todo != {} then Some1(todo) else 0;
    if Peer(s.txns[t].pc).Some? {
      assert !SpinsForEnd(s, t, Peer(s.txns[t].pc).value) && !SpinsForFate(s, t, Peer(s.txns[t].pc).value);
    }
    assert CanGo(s, t, pick);
  }

  ghost function Some1(a: set<nat>): (x: nat)
    requires a != {}
    ensures x in a
  {
    var x :| x in a; x
  }

  lemma WritesMove(s: State, t: Tid)
    requires Inv(s) && HasTxn(s, t) && s.txns[t].pc.Writes?
    requires forall x: Tid :: !SpinsForEnd(s, t, x) && !SpinsForFate(s, t, x)
    ensures CanMove(s, t)
  {
    hide Shapes, Chains, BitSide, ReadSide, WriteSide, Facts, PivotSide, Roots, S2Side, Waits;
    MadeHas(s, t);
    Targets(s, t);
    var todo, w := s.txns[t].pc.todo, s.txns[t].pc.uat;
    var pick: nat :=
      if w.Next? && todo != {} then Some1(todo)
      else if w.Scan? && w.at.Bits? && w.bits != {} then Some1(w.bits) else 0;
    if Peer(s.txns[t].pc).Some? {
      assert !SpinsForEnd(s, t, Peer(s.txns[t].pc).value) && !SpinsForFate(s, t, Peer(s.txns[t].pc).value);
    }
    assert CanGo(s, t, pick);
  }

  /** What the program counter names exists. */
  lemma Targets(s: State, t: Tid)
    requires Shapes(s) && Chains(s) && HasTxn(s, t)
    ensures forall u :: u in Updates(s.txns[t].pc) ==> HasNext(s, u)
    ensures Peer(s.txns[t].pc).Some? ==> HasTxn(s, Peer(s.txns[t].pc).value)
    ensures forall u :: u in s.txns[t].wset ==> HasVer(s, u)
    ensures forall v :: v in s.txns[t].rset ==> HasVer(s, v)
  {
    hide Chains;
    assert TxnOk(s, t);
    assert s.txns[t].wset <= Made(s.txns[t]) && s.txns[t].rset <= Touched(s.txns[t]);
    forall u | u in Updates(s.txns[t].pc) ensures HasNext(s, u) { GetVer(s, u); }
  }

  lemma TodoIn(s: State, t: Tid)
    requires Shapes(s) && HasTxn(s, t)
    ensures match s.txns[t].pc
      case Stamps(todo, a) => todo + StampFocus(a) <= s.txns[t].wset
      case Leave(todo, l) => todo + LeaveFocus(l) <= s.txns[t].rset
      case Forget(todo) => todo <= s.txns[t].rset
      case Revert(todo, a) => todo + RevertFocus(a) <= s.txns[t].wset
      case _ => true
  {
    assert TxnOk(s, t);
  }

  lemma LateMove(s: State, t: Tid)
    requires Inv(s) && HasTxn(s, t) && Late(s.txns[t].pc)
    requires forall x: Tid :: !SpinsForEnd(s, t, x) && !SpinsForFate(s, t, x)
    ensures CanMove(s, t)
  {
    hide Shapes, Chains, BitSide, ReadSide, WriteSide, Facts, PivotSide, Roots, S2Side, Waits;
    Targets(s, t);
    TodoIn(s, t);
    var pc := s.txns[t].pc;
    var todo := if pc.Stamps? || pc.Leave? || pc.Forget? || pc.Revert? then pc.todo else {};
    var pick: nat := if todo != {} then Some1(todo) else 0;
    if Peer(pc).Some? { assert !SpinsForFate(s, t, Peer(pc).value); }
    assert CanGo(s, t, pick);
  }

  /** Whoever is busy and does not spin can move. */
  lemma NoSpinMoves(s: State, t: Tid)
    requires Inv(s) && HasTxn(s, t) && Busy(s.txns[t])
    requires forall x: Tid :: !SpinsForEnd(s, t, x) && !SpinsForFate(s, t, x)
    ensures CanMove(s, t)
  {
    hide Inv;
    var pc := s.txns[t].pc;
    if pc.Reads? { ReadsMove(s, t); }
    else if pc.Writes? { WritesMove(s, t); }
    else if Late(pc) { LateMove(s, t); }
    else { assert CanGo(s, t, 0) || pc.Entered? || pc.Doomed?; }
  }

  /** Behind every busy transaction there is a busy one that can move, no younger than it. */
  lemma {:induction false} SomeoneMoves(s: State, t: Tid) returns (y: Tid)
    requires Inv(s) && HasTxn(s, t) && Busy(s.txns[t])
    ensures HasTxn(s, y) && Busy(s.txns[y]) && CanMove(s, y)
    ensures y == t || s.txns[y].end == 0 || s.txns[y].got < s.txns[t].got
    decreases s.txns[t].got
  {
    hide Inv, CanMove;
    if x: Tid :| SpinsForEnd(s, t, x) {
      EndComes(s, t, x);
      EndZero(s, t, x);
      y := x;
    } else if x: Tid :| SpinsForFate(s, t, x) {
      FateOlder(s, t, x);
      y := SomeoneMoves(s, x);
    } else {
      NoSpinMoves(s, t);
      y := t;
    }
  }

  lemma EndZero(s: State, t: Tid, x: Tid)
    requires SpinsForEnd(s, t, x)
    ensures s.txns[x].end == 0
  {
  }

  /** In every reachable state a wait for an outcome is for a strictly smaller commit stamp, and while
      some transaction is committing or aborting, some such transaction can take a step. */
  lemma NoDeadlock(s: State)
    requires Reachable(s)
    ensures forall t: Tid, x: Tid :: SpinsForFate(s, t, x) ==> 0 < s.txns[x].got < s.txns[t].got
    ensures forall t: Tid :: HasTxn(s, t) && Busy(s.txns[t]) ==>
      exists y: Tid :: HasTxn(s, y) && Busy(s.txns[y]) && CanMove(s, y)
  {
    hide Inv, CanMove;
    ReachInv(s);
    forall t: Tid, x: Tid | SpinsForFate(s, t, x) ensures 0 < s.txns[x].got < s.txns[t].got { FateOlder(s, t, x); }
    forall t: Tid | HasTxn(s, t) && Busy(s.txns[t])
      ensures exists y: Tid :: HasTxn(s, y) && Busy(s.txns[y]) && CanMove(s, y)
    {
      var y := SomeoneMoves(s, t);
    }
  }
}
