/** The MCS queue lock of dbcore/mcs_lock.h, one memory access per step, for any number of qnodes. */
module McsLock {
  import opened Options

  type Id = nat

  datatype Pc =
    | Idle
    | ClearNext(try: bool)       // acquire and attempt: me->_next = 0
    | SetWaiting(try: bool)
    | SwapTail                   // acquire
    | CasEmpty                   // attempt
    | Link(pred: Id)             // pred->_next = me
    | Spin                       // until _waiting is false
    | Holding
    | ReadNext                   // release
    | ReadTail
    | CasTail
    | SpinNext                   // until _next is set
    | Handover(next: Id)         // next->_waiting = false

  datatype Node = Node(next: Option<Id>, waiting: bool, pc: Pc)

  /** `queue` holds the nodes from their tail swap to the end of their release; `swaps` and `grants` list
      the nodes in the order of their tail swaps and of their entries.  No step looks at the three. */
  datatype State = State(tail: Option<Id>, nodes: seq<Node>, queue: seq<Id>, swaps: seq<Id>, grants: seq<Id>)

  datatype Step = New | Acquire(t: Id) | Attempt(t: Id) | Release(t: Id) | Go(t: Id)

  predicate Has(s: State, t: Id) { t < |s.nodes| }

  function Put(s: State, t: Id, X: Node): State
    requires Has(s, t)
  {
    s.(nodes := s.nodes[t := X])
  }

  predicate CanGo(s: State, t: Id) {
    && Has(s, t)
    && var X := s.nodes[t];
       match X.pc
       case Idle => false
       case Holding => false
       case Link(p) => Has(s, p)
       case Spin => !X.waiting
       case SpinNext => X.next.Some?
       case Handover(n) => Has(s, n)
       case _ => true
  }

  /** t takes the lock without waiting or joins the end of the queue. */
  function Join(s: State, t: Id): State
    requires Has(s, t)
  {
    var s1 := s.(tail := Some(t), queue := s.queue + [t], swaps := s.swaps + [t]);
    match s.tail
    case None => Put(s1, t, s.nodes[t].(pc := Holding)).(grants := s.grants + [t])
    case Some(p) => Put(s1, t, s.nodes[t].(pc := Link(p)))
  }

  function Leave(s: State, t: Id): State
    requires Has(s, t)
  {
    Put(s, t, s.nodes[t].(pc := Idle)).(queue := if s.queue == [] then [] else s.queue[1..])
  }

  function Move(s: State, t: Id): State
    requires CanGo(s, t)
  {
    var X := s.nodes[t];
    match X.pc
    case ClearNext(try) => Put(s, t, X.(next := None, pc := SetWaiting(try)))
    case SetWaiting(try) => Put(s, t, X.(waiting := true, pc := if try then CasEmpty else SwapTail))
    case SwapTail => Join(s, t)
    case CasEmpty => if s.tail.None? then Join(s, t) else Put(s, t, X.(pc := Idle))
    case Link(p) => var s1 := Put(s, p, s.nodes[p].(next := Some(t))); Put(s1, t, s1.nodes[t].(pc := Spin))
    case Spin => Put(s, t, X.(pc := Holding)).(grants := s.grants + [t])
    case ReadNext => Put(s, t, X.(pc := if X.next.Some? then Handover(X.next.value) else ReadTail))
    case ReadTail => Put(s, t, X.(pc := if s.tail == Some(t) then CasTail else SpinNext))
    case CasTail => if s.tail == Some(t) then Leave(s, t).(tail := None) else Put(s, t, X.(pc := SpinNext))
    case SpinNext => Put(s, t, X.(pc := Handover(X.next.value)))
    case Handover(n) => Leave(Put(s, n, s.nodes[n].(waiting := false)), t)
  }

  predicate Enabled(s: State, step: Step) {
    match step
    case New => true
    case Acquire(t) => Has(s, t) && s.nodes[t].pc.Idle?
    case Attempt(t) => Has(s, t) && s.nodes[t].pc.Idle?
    case Release(t) => Has(s, t) && s.nodes[t].pc.Holding?
    case Go(t) => CanGo(s, t)
  }

  function Apply(s: State, step: Step): State
    requires Enabled(s, step)
  {
    match step
    case New => s.(nodes := s.nodes + [Node(None, false, Idle)])
    case Acquire(t) => Put(s, t, s.nodes[t].(pc := ClearNext(false)))
    case Attempt(t) => Put(s, t, s.nodes[t].(pc := ClearNext(true)))
    case Release(t) => Put(s, t, s.nodes[t].(pc := ReadNext))
    case Go(t) => Move(s, t)
  }

  predicate Init(s: State) { s == State(None, [], [], [], []) }

  // ---------------------------------------------------------------- the invariant

  predicate Outside(pc: Pc) { pc.Idle? || pc.ClearNext? || pc.SetWaiting? || pc.SwapTail? || pc.CasEmpty? }

  predicate Releasing(pc: Pc) { pc.ReadNext? || pc.ReadTail? || pc.CasTail? || pc.SpinNext? || pc.Handover? }

  predicate Owner(pc: Pc) { pc.Holding? || Releasing(pc) }

  /** A node that is in nobody's way. */
  predicate OutsideOk(X: Node) {
    && (X.pc.SetWaiting? || X.pc.SwapTail? || X.pc.CasEmpty? ==> X.next.None?)
    && (X.pc.SwapTail? || X.pc.CasEmpty? ==> X.waiting)
  }

  predicate PlaceOk(s: State, i: nat)
    requires i < |s.queue|
  {
    var t := s.queue[i];
    && Has(s, t)
    && var X := s.nodes[t];
       && (if i == 0 then Owner(X.pc) || (X.pc.Spin? && !X.waiting)
           else X.waiting && (X.pc.Spin? || X.pc == Link(s.queue[i - 1])))
       && (if i + 1 < |s.queue| && Has(s, s.queue[i + 1]) && !s.nodes[s.queue[i + 1]].pc.Link?
           then X.next == Some(s.queue[i + 1]) else X.next.None?)
       && (X.pc.SpinNext? ==> |s.queue| > 1)
       && (X.pc.Handover? ==> |s.queue| > 1 && X.pc.next == s.queue[1] && X.next == Some(s.queue[1]))
  }

  ghost predicate Places(s: State) { forall i :: 0 <= i < |s.queue| ==> PlaceOk(s, i) }

  ghost predicate Members(s: State) {
    && (forall i, j :: 0 <= i < j < |s.queue| ==> s.queue[i] != s.queue[j])
    && (forall t: Id :: Has(s, t) && t !in s.queue ==> Outside(s.nodes[t].pc) && OutsideOk(s.nodes[t]))
  }

  predicate TailOk(s: State) { s.tail == if s.queue == [] then None else Some(s.queue[|s.queue| - 1]) }

  /** The queue without the owner of the lock. */
  function Waiting(s: State): seq<Id> {
    if s.queue != [] && Has(s, s.queue[0]) && Owner(s.nodes[s.queue[0]].pc) then s.queue[1..] else s.queue
  }

  /** Who entered, then who still waits, in queue order. */
  predicate OrderOk(s: State) { s.swaps == s.grants + Waiting(s) }

  ghost predicate Inv(s: State) { Members(s) && Places(s) && TailOk(s) && OrderOk(s) }

  lemma InitInv(s: State)
    requires Init(s)
    ensures Inv(s)
  {
  }

  // ---------------------------------------------------------------- steps

  lemma MemberPlace(s: State, t: Id) returns (i: nat)
    requires Inv(s) && Has(s, t) && !Outside(s.nodes[t].pc)
    ensures i < |s.queue| && s.queue[i] == t && PlaceOk(s, i)
    ensures Owner(s.nodes[t].pc) || (s.nodes[t].pc.Spin? && !s.nodes[t].waiting) <==> i == 0
  {
    i :| 0 <= i < |s.queue| && s.queue[i] == t;
  }

  /** t moves outside the queue. */
  lemma OutsideMove(s: State, t: Id, X': Node)
    requires Inv(s) && Has(s, t) && Outside(s.nodes[t].pc) && Outside(X'.pc) && OutsideOk(X')
    ensures Inv(Put(s, t, X'))
  {
    var s' := Put(s, t, X');
    NotQueued(s, t);
    forall i | 0 <= i < |s.queue| ensures PlaceOk(s', i) { OutsidePlace(s, t, X', i); }
    hide PlaceOk, OutsideOk;
    if s.queue != [] { QueuedHas(s, 0); }
  }

  lemma OutsidePlace(s: State, t: Id, X': Node, i: nat)
    requires Places(s) && Has(s, t) && t !in s.queue && i < |s.queue|
    ensures PlaceOk(Put(s, t, X'), i)
  {
    assert PlaceOk(s, i);
    if i + 1 < |s.queue| { assert PlaceOk(s, i + 1); }
  }

  lemma QueuedHas(s: State, i: nat)
    requires Places(s) && i < |s.queue|
    ensures Has(s, s.queue[i])
  {
    assert PlaceOk(s, i);
  }

  /** The head of the queue moves within its critical section or its release. */
  lemma HeadMove(s: State, t: Id, pc': Pc)
    requires Inv(s) && Has(s, t) && Owner(s.nodes[t].pc) && Owner(pc')
    requires pc'.SpinNext? ==> |s.queue| > 1
    requires pc'.Handover? ==> |s.queue| > 1 && pc'.next == s.queue[1] && s.nodes[t].next == Some(s.queue[1])
    ensures Inv(Put(s, t, s.nodes[t].(pc := pc')))
  {
    var s' := Put(s, t, s.nodes[t].(pc := pc'));
    var h := MemberPlace(s, t);
    forall i | 0 <= i < |s.queue| ensures PlaceOk(s', i) {
      assert PlaceOk(s, i);
      if i + 1 < |s.queue| { assert PlaceOk(s, i + 1); }
    }
  }

  lemma NotQueued(s: State, t: Id)
    requires Inv(s) && Has(s, t) && Outside(s.nodes[t].pc)
    ensures t !in s.queue && OutsideOk(s.nodes[t])
  {
    forall i | 0 <= i < |s.queue| ensures s.queue[i] != t { assert PlaceOk(s, i); }
  }

  lemma JoinPlaces(s: State, t: Id)
    requires Inv(s) && Has(s, t) && (s.nodes[t].pc.SwapTail? || s.nodes[t].pc.CasEmpty?)
    ensures Places(Join(s, t)) && TailOk(Join(s, t)) && Members(Join(s, t))
  {
    var s' := Join(s, t);
    var n := |s.queue|;
    NotQueued(s, t);
    forall i | 0 <= i < n + 1 ensures PlaceOk(s', i) {
      if i < n {
        assert PlaceOk(s, i);
        if i + 1 < n { assert PlaceOk(s, i + 1); }
      }
    }
  }

  lemma JoinInv(s: State, t: Id)
    requires Inv(s) && Has(s, t) && (s.nodes[t].pc.SwapTail? || s.nodes[t].pc.CasEmpty?)
    ensures Inv(Join(s, t))
  {
    JoinPlaces(s, t);
    NotQueued(s, t);
    hide Places, Members;
    if s.queue != [] { assert (s.queue + [t])[1..] == s.queue[1..] + [t]; }
  }

  lemma LinkPlaces(s: State, t: Id)
    requires Inv(s) && CanGo(s, t) && s.nodes[t].pc.Link?
    ensures Places(Move(s, t)) && Members(Move(s, t))
    ensures Has(s, s.queue[0]) && Owner(Move(s, t).nodes[s.queue[0]].pc) == Owner(s.nodes[s.queue[0]].pc)
  {
    var s' := Move(s, t);
    var k := MemberPlace(s, t);
    assert PlaceOk(s, k - 1) && PlaceOk(s, 0);
    forall i | 0 <= i < |s.queue| ensures PlaceOk(s', i) {
      assert PlaceOk(s, i);
      if i + 1 < |s.queue| { assert PlaceOk(s, i + 1); }
    }
  }

  lemma LinkInv(s: State, t: Id)
    requires Inv(s) && CanGo(s, t) && s.nodes[t].pc.Link?
    ensures Inv(Move(s, t))
  {
    LinkPlaces(s, t);
    hide Places, Members;
  }

  lemma SpinPlaces(s: State, t: Id)
    requires Inv(s) && CanGo(s, t) && s.nodes[t].pc.Spin?
    ensures Places(Move(s, t)) && Members(Move(s, t)) && s.queue != [] && s.queue[0] == t
    ensures var s' := Move(s, t);
      && s'.queue == s.queue && s'.tail == s.tail && s'.swaps == s.swaps && s'.grants == s.grants + [t]
      && Has(s', t) && s'.nodes[t].pc.Holding?
  {
    var s' := Move(s, t);
    var k := MemberPlace(s, t);
    forall i | 0 <= i < |s.queue| ensures PlaceOk(s', i) {
      assert PlaceOk(s, i);
      if i + 1 < |s.queue| { assert PlaceOk(s, i + 1); }
    }
  }

  lemma SpinInv(s: State, t: Id)
    requires Inv(s) && CanGo(s, t) && s.nodes[t].pc.Spin?
    ensures Inv(Move(s, t))
  {
    SpinPlaces(s, t);
    hide Places, Members, Move;
    assert s.queue == [t] + s.queue[1..];
  }

  lemma HandoverPlaces(s: State, t: Id)
    requires Inv(s) && CanGo(s, t) && s.nodes[t].pc.Handover?
    ensures Places(Move(s, t)) && Members(Move(s, t))
    ensures var s', n := Move(s, t), s.nodes[t].pc.next;
      && |s.queue| > 1 && s.queue[0] == t && s.queue[1] == n && s'.queue == s.queue[1..] && s'.tail == s.tail
      && Has(s', n) && s'.nodes[n].pc == s.nodes[n].pc && !Owner(s.nodes[n].pc)
      && s'.swaps == s.swaps && s'.grants == s.grants
  {
    var s' := Move(s, t);
    var k := MemberPlace(s, t);
    assert PlaceOk(s, 1);
    forall i | 0 <= i < |s'.queue| ensures PlaceOk(s', i) {
      assert PlaceOk(s, i + 1);
      if i + 2 < |s.queue| { assert PlaceOk(s, i + 2); }
    }
  }

  lemma HandoverInv(s: State, t: Id)
    requires Inv(s) && CanGo(s, t) && s.nodes[t].pc.Handover?
    ensures Inv(Move(s, t))
  {
    HandoverPlaces(s, t);
    hide Move, Places, Members, CanGo;
  }

  lemma EmptyInv(s: State, t: Id)
    requires Inv(s) && CanGo(s, t) && s.nodes[t].pc.CasTail? && s.tail == Some(t)
    ensures Inv(Move(s, t)) && Move(s, t).queue == []
  {
    var k := MemberPlace(s, t);
    assert |s.queue| == 1;
  }

  lemma MoveInv(s: State, t: Id)
    requires Inv(s) && CanGo(s, t)
    ensures Inv(Move(s, t))
  {
    hide Inv;
    var X := s.nodes[t];
    match X.pc
    case ClearNext(try) => NotQueued(s, t); OutsideMove(s, t, X.(next := None, pc := SetWaiting(try)));
    case SetWaiting(try) =>
      NotQueued(s, t);
      OutsideMove(s, t, X.(waiting := true, pc := if try then CasEmpty else SwapTail));
    case SwapTail => JoinInv(s, t);
    case CasEmpty => if s.tail.None? { JoinInv(s, t); } else { OutsideMove(s, t, X.(pc := Idle)); }
    case Link(p) => LinkInv(s, t);
    case Spin => SpinInv(s, t);
    case ReadNext => HeadNow(s, t); HeadMove(s, t, if X.next.Some? then Handover(X.next.value) else ReadTail);
    case ReadTail => HeadNow(s, t); HeadMove(s, t, if s.tail == Some(t) then CasTail else SpinNext);
    case CasTail => if s.tail == Some(t) { EmptyInv(s, t); } else { HeadNow(s, t); HeadMove(s, t, SpinNext); }
    case SpinNext => HeadNow(s, t); HeadMove(s, t, Handover(X.next.value));
    case Handover(n) => HandoverInv(s, t);
  }

  /** The owner of the lock is the head of the queue; its successor is the node behind it. */
  lemma HeadNow(s: State, t: Id)
    requires Inv(s) && Has(s, t) && Owner(s.nodes[t].pc)
    ensures s.queue != [] && s.queue[0] == t
    ensures s.nodes[t].next.Some? ==> |s.queue| > 1 && s.nodes[t].next == Some(s.queue[1])
    ensures s.tail != Some(t) ==> |s.queue| > 1
  {
    var k := MemberPlace(s, t);
  }

  lemma StepInv(s: State, step: Step)
    requires Inv(s) && Enabled(s, step)
    ensures Inv(Apply(s, step))
  {
    hide Inv;
    match step
    case New => NewInv(s);
    case Acquire(t) => NotQueued(s, t); OutsideMove(s, t, s.nodes[t].(pc := ClearNext(false)));
    case Attempt(t) => NotQueued(s, t); OutsideMove(s, t, s.nodes[t].(pc := ClearNext(true)));
    case Release(t) => HeadMove(s, t, ReadNext);
    case Go(t) => MoveInv(s, t);
  }

  lemma NewInv(s: State)
    requires Inv(s)
    ensures Inv(Apply(s, New))
  {
    var s' := Apply(s, New);
    forall i | 0 <= i < |s.queue| ensures PlaceOk(s', i) { NewPlace(s, i); }
    hide PlaceOk;
    if s.queue != [] { QueuedHas(s, 0); }
  }

  lemma NewPlace(s: State, i: nat)
    requires Places(s) && i < |s.queue|
    ensures PlaceOk(Apply(s, New), i)
  {
    assert PlaceOk(s, i);
    if i + 1 < |s.queue| { assert PlaceOk(s, i + 1); }
  }

  // ---------------------------------------------------------------- every run

  predicate Goes(s: State, step: Step, s': State) { Enabled(s, step) && s' == Apply(s, step) }

  ghost predicate Run(states: seq<State>, steps: seq<Step>) {
    && |states| == |steps| + 1 && Init(states[0])
    && forall i {:trigger steps[i]} :: 0 <= i < |steps| ==> Goes(states[i], steps[i], states[i + 1])
  }

  lemma {:induction false} RunInv(states: seq<State>, steps: seq<Step>, k: nat)
    requires Run(states, steps) && k <= |steps|
    ensures Inv(states[k])
  {
    hide Inv, Apply, Enabled;
    if k == 0 {
      InitInv(states[0]);
    } else {
      RunInv(states, steps, k - 1);
      StepInv(states[k - 1], steps[k - 1]);
    }
  }

  /** At most one node is between acquire and the end of release. */
  lemma MutualExclusion(states: seq<State>, steps: seq<Step>, k: nat, t: Id, u: Id)
    requires Run(states, steps) && k <= |steps| && Has(states[k], t) && Has(states[k], u)
    requires Owner(states[k].nodes[t].pc) && Owner(states[k].nodes[u].pc)
    ensures t == u
  {
    hide Inv;
    RunInv(states, steps, k);
    HeadNow(states[k], t);
    HeadNow(states[k], u);
  }

  /** Nodes enter in the order of their tail swaps: the swaps are the entries so far, then the queue. */
  lemma FirstComeFirstServed(states: seq<State>, steps: seq<Step>, k: nat)
    requires Run(states, steps) && k <= |steps|
    ensures states[k].swaps == states[k].grants + Waiting(states[k])
  {
    RunInv(states, steps, k);
  }

  /** A release that found a successor, or failed to empty the queue, wakes exactly the next node in the queue,
      which was waiting and is the next to enter. */
  lemma HandsToNext(states: seq<State>, steps: seq<Step>, k: nat, t: Id)
    requires Run(states, steps) && k < |steps| && steps[k] == Go(t) && Has(states[k], t)
    requires states[k].nodes[t].pc.Handover?
    ensures var s, s', n := states[k], states[k + 1], states[k].nodes[t].pc.next;
      && |s.queue| > 1 && s.queue[0] == t && s.queue[1] == n && s'.queue == s.queue[1..]
      && Has(s, n) && s.nodes[n].waiting && Has(s', n) && !s'.nodes[n].waiting
      && s.swaps == s.grants + s'.queue
      && forall u: Id :: Has(s, u) && u != t && u != n ==> Has(s', u) && s'.nodes[u] == s.nodes[u]
  {
    RunInv(states, steps, k);
    var s := states[k];
    var h := MemberPlace(s, t);
    assert PlaceOk(s, 1);
  }

  /** A release empties the lock exactly when nobody else has swapped the tail. */
  lemma EmptiesOrHands(states: seq<State>, steps: seq<Step>, k: nat, t: Id)
    requires Run(states, steps) && k < |steps| && steps[k] == Go(t) && Has(states[k], t)
    requires states[k].nodes[t].pc.CasTail?
    ensures states[k + 1].tail.None? <==> states[k].queue == [t]
    ensures states[k + 1].tail.Some? ==> Has(states[k + 1], t) && states[k + 1].nodes[t].pc.SpinNext?
  {
    RunInv(states, steps, k);
    var h := MemberPlace(states[k], t);
  }

  /** An attempt takes the lock exactly when it is free, and otherwise leaves everything as it was. */
  lemma AttemptExact(states: seq<State>, steps: seq<Step>, k: nat, t: Id)
    requires Run(states, steps) && k < |steps| && steps[k] == Go(t) && Has(states[k], t)
    requires states[k].nodes[t].pc.CasEmpty?
    ensures var s, s' := states[k], states[k + 1];
      && Has(s', t) && (s.queue == [] <==> s'.nodes[t].pc.Holding?)
      && (s.queue == [] ==> s'.queue == [t] && s'.tail == Some(t) && s'.grants == s.grants + [t])
      && (s.queue != [] ==> s' == s.(nodes := s.nodes[t := s.nodes[t].(pc := Idle)]))
  {
    RunInv(states, steps, k);
  }

  /** A tail swap enters at once exactly when the lock is free, and otherwise queues behind the last node. */
  lemma SwapExact(states: seq<State>, steps: seq<Step>, k: nat, t: Id)
    requires Run(states, steps) && k < |steps| && steps[k] == Go(t) && Has(states[k], t)
    requires states[k].nodes[t].pc.SwapTail?
    ensures var s, s' := states[k], states[k + 1];
      && Has(s', t) && s'.queue == s.queue + [t] && s'.tail == Some(t)
      && (if s.queue == [] then s'.nodes[t].pc.Holding? else s'.nodes[t].pc == Link(s.queue[|s.queue| - 1]))
  {
    RunInv(states, steps, k);
  }

  /** Nobody waits for nothing: while the lock is held or wanted, its holder is inside, or somebody can take a step
      towards handing it on: the first in the queue, or the one that the first waits for to link itself. */
  lemma SomebodyMoves(states: seq<State>, steps: seq<Step>, k: nat)
    requires Run(states, steps) && k <= |steps| && states[k].queue != []
    ensures var s := states[k];
      && Has(s, s.queue[0])
      && (|| s.nodes[s.queue[0]].pc.Holding? || CanGo(s, s.queue[0])
          || (|s.queue| > 1 && s.nodes[s.queue[0]].pc.SpinNext? && CanGo(s, s.queue[1])))
  {
    RunInv(states, steps, k);
    var s := states[k];
    assert PlaceOk(s, 0);
    if |s.queue| > 1 { assert PlaceOk(s, 1); }
  }
}
