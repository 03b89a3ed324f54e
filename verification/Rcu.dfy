/** The block lists of dbcore/rcu.cpp, with an epoch change as one step: every block is in one place, and
    leaves the lists only after the epoch in which it was freed was reclaimed. */
module Rcu {

  /** A block of memory; `freed` is the epoch of its last rcu_free. */
  datatype Block = Block(id: nat, size: nat, freed: nat)

  /** pointer_stash: up to `max` blocks of one size, ready for reuse. */
  datatype Stash = Stash(size: nat, max: nat, blocks: seq<Block>)

  /** rcu_tcb. */
  datatype Tcb = Tcb(
    free: seq<Block>,
    cur: seq<Block>,
    cooling: seq<Block>,
    cold: seq<Block>,
    reclaimed: seq<Block>,
    stashes: seq<Stash>)

  /** `made` blocks exist; `live` are in the hands of the program; `cooling` and `cold` are the lists of the
      epochs before the current one; `done` is the last reclaimed epoch. */
  datatype State = State(
    epoch: nat,
    done: nat,
    made: nat,
    live: seq<Block>,
    tcbs: seq<Tcb>,
    cooling: seq<Block>,
    cold: seq<Block>,
    deleted: seq<Block>)

  datatype Step =
    | Register
    | StartCache(t: nat, size: nat, entries: nat)
    | StopCache(t: nat, size: nat)
    | Alloc(t: nat, size: nat)
    | Free(t: nat, i: nat)
    | NewEpoch
    | Reclaim

  // ---------------------------------------------------------------- stashes

  /** The position of the stash for a size, or the number of stashes. */
  function Find(stashes: seq<Stash>, size: nat): (i: nat)
    ensures i <= |stashes| && (i < |stashes| ==> stashes[i].size == size)
  {
    if stashes == [] then 0 else if stashes[0].size == size then 0 else 1 + Find(stashes[1..], size)
  }

  function Drop(stashes: seq<Stash>, i: nat): seq<Stash>
    requires i < |stashes|
  {
    stashes[..i] + stashes[i + 1..]
  }

  /** Scatter reclaimed blocks: each goes to the stash of its size, or is deleted (rcu.cpp:440-448). */
  function Scatter(stashes: seq<Stash>, blocks: seq<Block>): (seq<Stash>, seq<Block>)
    decreases |blocks|
  {
    if blocks == [] then (stashes, [])
    else
      var b, i := blocks[0], Find(stashes, blocks[0].size);
      if i < |stashes| && |stashes[i].blocks| < stashes[i].max then
        Scatter(stashes[i := stashes[i].(blocks := [b] + stashes[i].blocks)], blocks[1..])
      else
        var r := Scatter(stashes, blocks[1..]);
        (r.0, [b] + r.1)
  }

  // ---------------------------------------------------------------- steps

  predicate Enabled(s: State, step: Step) {
    match step
    case Register => true
    case StartCache(t, size, n) => t < |s.tcbs|
    case StopCache(t, size) => t < |s.tcbs|
    case Alloc(t, size) => t < |s.tcbs|
    case Free(t, i) => t < |s.tcbs| && i < |s.live|
    case NewEpoch => s.done + 2 >= s.epoch
    case Reclaim => s.done + 2 < s.epoch
  }

  function Put(s: State, t: nat, X: Tcb): State
    requires t < |s.tcbs|
  {
    s.(tcbs := s.tcbs[t := X])
  }

  function Fresh(s: State, size: nat): State {
    s.(made := s.made + 1, live := s.live + [Block(s.made, size, 0)])
  }

  /** Take a block from stash i, or allocate one. */
  function TakeOr(s: State, t: nat, i: nat, size: nat): State
    requires t < |s.tcbs| && i < |s.tcbs[t].stashes|
  {
    var X := s.tcbs[t];
    var st := X.stashes[i];
    if st.blocks == [] then Fresh(s, size)
    else Put(s, t, X.(stashes := X.stashes[i := st.(blocks := st.blocks[1..])])).(live := s.live + [st.blocks[0]])
  }

  /** rcu_alloc (rcu.cpp:423-463). */
  function DoAlloc(s: State, t: nat, size: nat): State
    requires t < |s.tcbs|
  {
    var X := s.tcbs[t];
    var i := Find(X.stashes, size);
    if i == |X.stashes| then Fresh(s, size)
    else if X.stashes[i].blocks != [] || X.reclaimed == [] then TakeOr(s, t, i, size)
    else
      var r := Scatter(X.stashes, X.reclaimed);
      var s1 := Put(s, t, X.(stashes := r.0, reclaimed := [])).(deleted := s.deleted + r.1);
      var j := Find(r.0, size);
      if j < |r.0| then TakeOr(s1, t, j, size) else Fresh(s1, size)
  }

  /** rcu_free (rcu.cpp:465-485): to the thread's stash when the size is cached, else to its free list. */
  function DoFree(s: State, t: nat, i: nat): State
    requires t < |s.tcbs| && i < |s.live|
  {
    var X := s.tcbs[t];
    var b := s.live[i].(freed := s.epoch);
    var s1 := s.(live := s.live[..i] + s.live[i + 1..]);
    if Find(X.stashes, b.size) < |X.stashes| then Put(s1, t, X.(cur := [b] + X.cur))
    else Put(s1, t, X.(free := [b] + X.free))
  }

  /** rcu_epoch_ended_thread (rcu.cpp:219-261): the stash lists move down by one, and what falls out of the
      reclaimed stash joins the free list in the list of the ending epoch. */
  function EndThread(X: Tcb): (Tcb, seq<Block>) {
    (X.(free := [], cur := [], cooling := X.cur, cold := X.cooling, reclaimed := X.cold), X.reclaimed + X.free)
  }

  function EndThreads(tcbs: seq<Tcb>): (r: (seq<Tcb>, seq<Block>))
    ensures |r.0| == |tcbs| && forall i :: 0 <= i < |tcbs| ==> r.0[i] == EndThread(tcbs[i]).0
  {
    if tcbs == [] then ([], [])
    else
      var a, b := EndThread(tcbs[0]), EndThreads(tcbs[1..]);
      ([a.0] + b.0, b.1 + a.1)
  }

  function Apply(s: State, step: Step): State
    requires Enabled(s, step)
  {
    match step
    case Register => s.(tcbs := s.tcbs + [Tcb([], [], [], [], [], [])])
    case StartCache(t, size, n) =>
      var X := s.tcbs[t];
      var i := Find(X.stashes, size);
      Put(s, t, X.(stashes := if i < |X.stashes| then X.stashes[i := X.stashes[i].(max := X.stashes[i].max + n)]
                              else X.stashes + [Stash(size, n, [])]))
    case StopCache(t, size) =>
      var X := s.tcbs[t];
      var i := Find(X.stashes, size);
      if i == |X.stashes| then s
      else Put(s, t, X.(stashes := Drop(X.stashes, i))).(deleted := s.deleted + X.stashes[i].blocks)
    case Alloc(t, size) => DoAlloc(s, t, size)
    case Free(t, i) => DoFree(s, t, i)
    case NewEpoch =>
      var r := EndThreads(s.tcbs);
      s.(epoch := s.epoch + 1, tcbs := r.0, cold := s.cooling, cooling := r.1)
    case Reclaim => s.(done := s.epoch - 2, deleted := s.deleted + s.cold, cold := [])
  }

  predicate Init(s: State) { s == State(1, 0, 0, [], [], [], [], []) }

  // ---------------------------------------------------------------- where the blocks are

  /** How often block x is in a list, in the stashes, with a thread, with all threads. */
  function Count(bs: seq<Block>, x: nat): nat { if bs == [] then 0 else One(bs[0], x) + Count(bs[1..], x) }

  function One(b: Block, x: nat): nat { if b.id == x then 1 else 0 }

  function InStashes(st: seq<Stash>, x: nat): nat {
    if st == [] then 0 else Count(st[0].blocks, x) + InStashes(st[1..], x)
  }

  function InTcb(X: Tcb, x: nat): nat {
    Count(X.free, x) + Count(X.cur, x) + Count(X.cooling, x) + Count(X.cold, x) + Count(X.reclaimed, x) +
      InStashes(X.stashes, x)
  }

  function InTcbs(ts: seq<Tcb>, x: nat): nat { if ts == [] then 0 else InTcb(ts[0], x) + InTcbs(ts[1..], x) }

  /** How often block x is anywhere. */
  function Everywhere(s: State, x: nat): nat {
    Count(s.live, x) + InTcbs(s.tcbs, x) + Count(s.cooling, x) + Count(s.cold, x) + Count(s.deleted, x)
  }

  lemma {:induction false} CountAppend(a: seq<Block>, b: seq<Block>, x: nat)
    ensures Count(a + b, x) == Count(a, x) + Count(b, x)
  {
    if a == [] { assert a + b == b; } else {
      CountAppend(a[1..], b, x);
      assert (a + b)[1..] == a[1..] + b;
    }
  }

  lemma CountFront(b: Block, bs: seq<Block>, x: nat)
    ensures Count([b] + bs, x) == One(b, x) + Count(bs, x) && Count([b], x) == One(b, x)
  {
    assert ([b] + bs)[1..] == bs && [b][1..] == [];
  }

  lemma {:induction false} StashesPut(st: seq<Stash>, i: nat, y: Stash, x: nat)
    requires i < |st|
    ensures InStashes(st[i := y], x) + Count(st[i].blocks, x) == InStashes(st, x) + Count(y.blocks, x)
  {
    if i > 0 {
      StashesPut(st[1..], i - 1, y, x);
      assert st[i := y][1..] == st[1..][i - 1 := y];
    } else {
      assert st[0 := y][1..] == st[1..];
    }
  }

  lemma {:induction false} StashesAppend(a: seq<Stash>, b: seq<Stash>, x: nat)
    ensures InStashes(a + b, x) == InStashes(a, x) + InStashes(b, x)
  {
    if a == [] { assert a + b == b; } else {
      StashesAppend(a[1..], b, x);
      assert (a + b)[1..] == a[1..] + b;
    }
  }

  lemma {:induction false} TcbsPut(ts: seq<Tcb>, t: nat, X: Tcb, x: nat)
    requires t < |ts|
    ensures InTcbs(ts[t := X], x) + InTcb(ts[t], x) == InTcbs(ts, x) + InTcb(X, x)
  {
    hide InTcb;
    if t > 0 {
      TcbsPut(ts[1..], t - 1, X, x);
      assert ts[t := X][1..] == ts[1..][t - 1 := X];
    } else {
      assert ts[0 := X][1..] == ts[1..];
    }
  }

  lemma {:induction false} TcbsAppend(a: seq<Tcb>, b: seq<Tcb>, x: nat)
    ensures InTcbs(a + b, x) == InTcbs(a, x) + InTcbs(b, x)
  {
    hide InTcb;
    if a == [] { assert a + b == b; } else {
      TcbsAppend(a[1..], b, x);
      assert (a + b)[1..] == a[1..] + b;
    }
  }

  lemma {:induction false} ScatterKeeps(st: seq<Stash>, bs: seq<Block>, x: nat)
    ensures var r := Scatter(st, bs); InStashes(r.0, x) + Count(r.1, x) == InStashes(st, x) + Count(bs, x)
    decreases |bs|
  {
    if bs != [] {
      var b, i := bs[0], Find(st, bs[0].size);
      if i < |st| && |st[i].blocks| < st[i].max {
        var y := st[i].(blocks := [b] + st[i].blocks);
        StashesPut(st, i, y, x);
        CountFront(b, st[i].blocks, x);
        ScatterKeeps(st[i := y], bs[1..], x);
      } else {
        ScatterKeeps(st, bs[1..], x);
        CountFront(b, Scatter(st, bs[1..]).1, x);
      }
    }
  }

  lemma {:induction false} EndKeeps(ts: seq<Tcb>, x: nat)
    ensures InTcbs(EndThreads(ts).0, x) + Count(EndThreads(ts).1, x) == InTcbs(ts, x)
  {
    if ts != [] {
      var a, b := EndThread(ts[0]), EndThreads(ts[1..]);
      EndKeeps(ts[1..], x);
      CountAppend(b.1, a.1, x);
      CountAppend(ts[0].reclaimed, ts[0].free, x);
      assert ([a.0] + b.0)[1..] == b.0;
    }
  }

  lemma FreshKeeps(s: State, size: nat, x: nat)
    ensures Everywhere(Fresh(s, size), x) == Everywhere(s, x) + if x == s.made then 1 else 0
  {
    var b := Block(s.made, size, 0);
    CountAppend(s.live, [b], x);
    CountFront(b, [], x);
  }

  /** A step keeps the blocks, or adds one new one. */
  predicate Keeps(s: State, s': State, x: nat) {
    || (s'.made == s.made && Everywhere(s', x) == Everywhere(s, x))
    || (s'.made == s.made + 1 && Everywhere(s', x) == Everywhere(s, x) + if x == s.made then 1 else 0)
  }

  lemma TakeKeeps(s: State, t: nat, i: nat, size: nat, x: nat)
    requires t < |s.tcbs| && i < |s.tcbs[t].stashes|
    ensures Keeps(s, TakeOr(s, t, i, size), x)
  {
    var X := s.tcbs[t];
    var st := X.stashes[i];
    if st.blocks == [] { FreshKeeps(s, size, x); } else {
      var y := st.(blocks := st.blocks[1..]);
      StashesPut(X.stashes, i, y, x);
      TcbsPut(s.tcbs, t, X.(stashes := X.stashes[i := y]), x);
      CountAppend(s.live, [st.blocks[0]], x);
      CountFront(st.blocks[0], [], x);
    }
  }

  lemma AllocKeeps(s: State, t: nat, size: nat, x: nat)
    requires t < |s.tcbs|
    ensures Keeps(s, DoAlloc(s, t, size), x)
  {
    hide TakeOr, Fresh;
    var X := s.tcbs[t];
    var i := Find(X.stashes, size);
    if i == |X.stashes| { FreshKept(s, size, x); }
    else if X.stashes[i].blocks != [] || X.reclaimed == [] { TakeKeeps(s, t, i, size, x); }
    else {
      var r := Scatter(X.stashes, X.reclaimed);
      ScatterKeeps(X.stashes, X.reclaimed, x);
      var s1 := Put(s, t, X.(stashes := r.0, reclaimed := [])).(deleted := s.deleted + r.1);
      TcbsPut(s.tcbs, t, X.(stashes := r.0, reclaimed := []), x);
      CountAppend(s.deleted, r.1, x);
      assert Everywhere(s1, x) == Everywhere(s, x);
      var j := Find(r.0, size);
      if j < |r.0| { TakeKeeps(s1, t, j, size, x); } else { FreshKept(s1, size, x); }
    }
  }

  lemma FreshKept(s: State, size: nat, x: nat)
    ensures Keeps(s, Fresh(s, size), x)
  {
    FreshKeeps(s, size, x);
  }

  lemma FreeKeeps(s: State, t: nat, i: nat, x: nat)
    requires t < |s.tcbs| && i < |s.live|
    ensures Keeps(s, DoFree(s, t, i), x)
  {
    var X, b := s.tcbs[t], s.live[i].(freed := s.epoch);
    assert s.live == s.live[..i] + ([s.live[i]] + s.live[i + 1..]);
    CountAppend(s.live[..i], [s.live[i]] + s.live[i + 1..], x);
    CountAppend(s.live[..i], s.live[i + 1..], x);
    CountFront(s.live[i], s.live[i + 1..], x);
    CountFront(b, X.cur, x);
    CountFront(b, X.free, x);
    TcbsPut(s.tcbs, t, X.(cur := [b] + X.cur), x);
    TcbsPut(s.tcbs, t, X.(free := [b] + X.free), x);
  }

  lemma CacheKeeps(s: State, step: Step, x: nat)
    requires Enabled(s, step) && (step.StartCache? || step.StopCache?)
    ensures Keeps(s, Apply(s, step), x)
  {
    var X := s.tcbs[step.t];
    var i := Find(X.stashes, step.size);
    if step.StartCache? {
      if i < |X.stashes| { StashesPut(X.stashes, i, X.stashes[i].(max := X.stashes[i].max + step.entries), x); }
      else { NewStash(X.stashes, Stash(step.size, step.entries, []), x); }
      TcbsPut(s.tcbs, step.t, Apply(s, step).tcbs[step.t], x);
    } else if i < |X.stashes| {
      DropStash(X.stashes, i, x);
      TcbsPut(s.tcbs, step.t, X.(stashes := Drop(X.stashes, i)), x);
      CountAppend(s.deleted, X.stashes[i].blocks, x);
    }
  }

  lemma NewStash(st: seq<Stash>, y: Stash, x: nat)
    requires y.blocks == []
    ensures InStashes(st + [y], x) == InStashes(st, x)
  {
    StashesAppend(st, [y], x);
    assert [y][1..] == [];
  }

  lemma DropStash(st: seq<Stash>, i: nat, x: nat)
    requires i < |st|
    ensures InStashes(Drop(st, i), x) + Count(st[i].blocks, x) == InStashes(st, x)
  {
    assert st == st[..i] + ([st[i]] + st[i + 1..]);
    StashesAppend(st[..i], [st[i]] + st[i + 1..], x);
    StashesAppend(st[..i], st[i + 1..], x);
    assert ([st[i]] + st[i + 1..])[1..] == st[i + 1..];
  }

  lemma StepKeeps(s: State, step: Step, x: nat)
    requires Enabled(s, step) && (s.done + 2 >= s.epoch ==> s.cold == [])
    ensures Keeps(s, Apply(s, step), x)
  {
    match step
    case Register => NewTcb(s.tcbs, x);
    case StartCache(t, size, n) => CacheKeeps(s, step, x);
    case StopCache(t, size) => CacheKeeps(s, step, x);
    case Alloc(t, size) => AllocKeeps(s, t, size, x);
    case Free(t, i) => FreeKeeps(s, t, i, x);
    case NewEpoch => EndKeeps(s.tcbs, x);
    case Reclaim => CountAppend(s.deleted, s.cold, x);
  }

  lemma NewTcb(ts: seq<Tcb>, x: nat)
    ensures InTcbs(ts + [Tcb([], [], [], [], [], [])], x) == InTcbs(ts, x)
  {
    var X := Tcb([], [], [], [], [], []);
    TcbsAppend(ts, [X], x);
    assert [X][1..] == [];
  }

  // ---------------------------------------------------------------- when they get there

  predicate FreedIn(bs: seq<Block>, e: int) { forall i :: 0 <= i < |bs| ==> bs[i].freed == e }

  predicate FreedBy(bs: seq<Block>, e: int) { forall i :: 0 <= i < |bs| ==> bs[i].freed <= e }

  predicate TcbTimed(epoch: nat, done: nat, X: Tcb) {
    && FreedIn(X.free, epoch) && FreedIn(X.cur, epoch) && FreedIn(X.cooling, epoch - 1) && FreedIn(X.cold, epoch - 2)
    && FreedBy(X.reclaimed, epoch - 3)
    && forall i :: 0 <= i < |X.stashes| ==> FreedBy(X.stashes[i].blocks, done)
  }

  /** Where a block is tells when it was freed. */
  predicate Timed(s: State) {
    && s.epoch >= 1 && s.epoch - 3 <= s.done && (s.done == 0 || s.done + 2 <= s.epoch) &&
      (s.epoch == 1 ==> s.cooling == [])
    && (forall t :: 0 <= t < |s.tcbs| ==> TcbTimed(s.epoch, s.done, s.tcbs[t]))
    && FreedBy(s.cooling, s.epoch - 1) && FreedBy(s.cold, s.epoch - 2) && FreedBy(s.deleted, s.done)
    && (s.done + 2 >= s.epoch ==> s.cold == [])
  }

  lemma {:induction false} ScatterTimed(st: seq<Stash>, bs: seq<Block>, e: int)
    requires FreedBy(bs, e) && forall i :: 0 <= i < |st| ==> FreedBy(st[i].blocks, e)
    ensures var r := Scatter(st, bs); FreedBy(r.1, e) && forall i :: 0 <= i < |r.0| ==> FreedBy(r.0[i].blocks, e)
    decreases |bs|
  {
    if bs != [] {
      var b, i := bs[0], Find(st, bs[0].size);
      if i < |st| && |st[i].blocks| < st[i].max {
        ScatterTimed(st[i := st[i].(blocks := [b] + st[i].blocks)], bs[1..], e);
      } else {
        ScatterTimed(st, bs[1..], e);
      }
    }
  }

  lemma {:induction false} EndTimed(ts: seq<Tcb>, epoch: nat, done: nat)
    requires epoch >= 1 && done + 2 >= epoch && forall t :: 0 <= t < |ts| ==> TcbTimed(epoch, done, ts[t])
    ensures FreedBy(EndThreads(ts).1, epoch)
    ensures forall t :: 0 <= t < |ts| ==> TcbTimed(epoch + 1, done, EndThreads(ts).0[t])
  {
    if ts != [] { EndTimed(ts[1..], epoch, done); }
  }

  lemma PutTimed(s: State, t: nat, X: Tcb)
    requires Timed(s) && t < |s.tcbs| && TcbTimed(s.epoch, s.done, X)
    ensures Timed(Put(s, t, X))
  {
  }

  lemma TakeTimed(s: State, t: nat, i: nat, size: nat)
    requires Timed(s) && t < |s.tcbs| && i < |s.tcbs[t].stashes|
    ensures Timed(TakeOr(s, t, i, size))
  {
    var X := s.tcbs[t];
    var st := X.stashes[i];
    assert TcbTimed(s.epoch, s.done, X);
    if st.blocks != [] { PutTimed(s, t, X.(stashes := X.stashes[i := st.(blocks := st.blocks[1..])])); }
  }

  lemma AllocTimed(s: State, t: nat, size: nat)
    requires Timed(s) && t < |s.tcbs|
    ensures Timed(DoAlloc(s, t, size))
  {
    hide TakeOr;
    var X := s.tcbs[t];
    var i := Find(X.stashes, size);
    assert TcbTimed(s.epoch, s.done, X);
    if i < |X.stashes| && (X.stashes[i].blocks != [] || X.reclaimed == []) { TakeTimed(s, t, i, size); }
    else if i < |X.stashes| {
      var r := Scatter(X.stashes, X.reclaimed);
      ScatterTimed(X.stashes, X.reclaimed, s.done);
      var s1 := Put(s, t, X.(stashes := r.0, reclaimed := [])).(deleted := s.deleted + r.1);
      PutTimed(s, t, X.(stashes := r.0, reclaimed := []));
      assert Timed(s1);
      var j := Find(r.0, size);
      if j < |r.0| { TakeTimed(s1, t, j, size); }
    }
  }

  lemma FreeTimed(s: State, t: nat, i: nat)
    requires Timed(s) && t < |s.tcbs| && i < |s.live|
    ensures Timed(DoFree(s, t, i))
  {
    var X, b := s.tcbs[t], s.live[i].(freed := s.epoch);
    assert TcbTimed(s.epoch, s.done, X);
    PutTimed(s, t, X.(cur := [b] + X.cur));
    PutTimed(s, t, X.(free := [b] + X.free));
  }

  lemma CacheTimed(s: State, step: Step)
    requires Timed(s) && Enabled(s, step) && (step.StartCache? || step.StopCache?)
    ensures Timed(Apply(s, step))
  {
    var X := s.tcbs[step.t];
    assert TcbTimed(s.epoch, s.done, X);
    var i := Find(X.stashes, step.size);
    if step.StartCache? { PutTimed(s, step.t, Apply(s, step).tcbs[step.t]); }
    else if i < |X.stashes| { PutTimed(s, step.t, X.(stashes := Drop(X.stashes, i))); }
  }

  lemma StepTimed(s: State, step: Step)
    requires Timed(s) && Enabled(s, step)
    ensures Timed(Apply(s, step))
  {
    match step
    case Register =>
    case StartCache(t, size, n) => CacheTimed(s, step);
    case StopCache(t, size) => CacheTimed(s, step);
    case Alloc(t, size) => AllocTimed(s, t, size);
    case Free(t, i) => FreeTimed(s, t, i);
    case NewEpoch => EndTimed(s.tcbs, s.epoch, s.done);
    case Reclaim => LaterTimed(s);
  }

  lemma LaterTimed(s: State)
    requires Timed(s) && s.done + 2 < s.epoch
    ensures Timed(Apply(s, Reclaim))
  {
    var s' := Apply(s, Reclaim);
    forall t | 0 <= t < |s.tcbs|
      ensures TcbTimed(s'.epoch, s'.done, s'.tcbs[t])
    {
      assert TcbTimed(s.epoch, s.done, s.tcbs[t]);
    }
  }

  // ---------------------------------------------------------------- every run

  /** Every block made so far is in exactly one place. */
  ghost predicate Conserved(s: State) { forall x: nat :: Everywhere(s, x) == if x < s.made then 1 else 0 }

  predicate Goes(s: State, step: Step, s': State) { Enabled(s, step) && s' == Apply(s, step) }

  ghost predicate Run(states: seq<State>, steps: seq<Step>) {
    && |states| == |steps| + 1 && Init(states[0])
    && forall i {:trigger steps[i]} :: 0 <= i < |steps| ==> Goes(states[i], steps[i], states[i + 1])
  }

  lemma {:induction false} RunKeeps(states: seq<State>, steps: seq<Step>, k: nat)
    requires Run(states, steps) && k <= |steps|
    ensures Timed(states[k]) && Conserved(states[k])
  {
    if k > 0 {
      RunKeeps(states, steps, k - 1);
      hide Apply, Enabled;
      var s := states[k - 1];
      StepTimed(s, steps[k - 1]);
      forall x: nat
        ensures Everywhere(states[k], x) == if x < states[k].made then 1 else 0
      {
        StepKeeps(s, steps[k - 1], x);
      }
    }
  }

  /** No block is lost, duplicated, deleted twice or handed back while it is in another list. */
  lemma BlocksConserved(states: seq<State>, steps: seq<Step>, k: nat, x: nat)
    requires Run(states, steps) && k <= |steps|
    ensures Everywhere(states[k], x) == if x < states[k].made then 1 else 0
  {
    RunKeeps(states, steps, k);
  }

  /** A block freed in epoch e reaches the reclaimed stash at the end of epoch e + 2 and not before; by then, and
      whenever a block is ready for reuse or deleted, its epoch has been reclaimed. */
  lemma ReusedInTime(states: seq<State>, steps: seq<Step>, k: nat, t: nat)
    requires Run(states, steps) && k <= |steps| && t < |states[k].tcbs|
    ensures var s, X := states[k], states[k].tcbs[t];
      && (forall i :: 0 <= i < |X.reclaimed| ==> X.reclaimed[i].freed + 2 < s.epoch && X.reclaimed[i].freed <= s.done)
      && (forall i, j :: 0 <= i < |X.stashes| && 0 <= j < |X.stashes[i].blocks| ==>
        X.stashes[i].blocks[j].freed <= s.done)
      && (forall i :: 0 <= i < |s.deleted| ==> s.deleted[i].freed <= s.done)
    ensures k < |steps| && steps[k].NewEpoch? ==>
      forall i :: 0 <= i < |states[k].tcbs[t].cold| ==> states[k].tcbs[t].cold[i].freed + 2 == states[k].epoch
    ensures Enabled(states[k], NewEpoch) <==> !Enabled(states[k], Reclaim)
  {
    RunKeeps(states, steps, k);
    assert TcbTimed(states[k].epoch, states[k].done, states[k].tcbs[t]);
  }

  // ---------------------------------------------------------------- sizes

  predicate StashSized(st: Stash) { forall j :: 0 <= j < |st.blocks| ==> st.blocks[j].size == st.size }

  /** Every stash holds only blocks of its own size. */
  ghost predicate Sized(s: State) {
    forall t, i :: 0 <= t < |s.tcbs| && 0 <= i < |s.tcbs[t].stashes| ==> StashSized(s.tcbs[t].stashes[i])
  }

  predicate AllSized(stashes: seq<Stash>) { forall i :: 0 <= i < |stashes| ==> StashSized(stashes[i]) }

  lemma {:induction false} ScatterSized(stashes: seq<Stash>, blocks: seq<Block>)
    requires AllSized(stashes)
    ensures AllSized(Scatter(stashes, blocks).0)
    decreases |blocks|
  {
    if blocks != [] {
      var b, i := blocks[0], Find(stashes, blocks[0].size);
      if i < |stashes| && |stashes[i].blocks| < stashes[i].max {
        var y := stashes[i].(blocks := [b] + stashes[i].blocks);
        assert StashSized(stashes[i]) && StashSized(y);
        ScatterSized(stashes[i := y], blocks[1..]);
      } else {
        ScatterSized(stashes, blocks[1..]);
      }
    }
  }

  lemma PutSized(s: State, t: nat, X: Tcb)
    requires Sized(s) && t < |s.tcbs| && AllSized(X.stashes)
    ensures Sized(Put(s, t, X))
  {
    var s' := Put(s, t, X);
    forall x, i | 0 <= x < |s'.tcbs| && 0 <= i < |s'.tcbs[x].stashes| ensures StashSized(s'.tcbs[x].stashes[i]) {
      if x != t { assert s'.tcbs[x] == s.tcbs[x]; }
    }
  }

  /** The block handed out by an allocation: the last of the live ones. */
  lemma TakeSized(s: State, t: nat, i: nat, size: nat)
    requires Sized(s) && t < |s.tcbs| && i < |s.tcbs[t].stashes| && s.tcbs[t].stashes[i].size == size
    ensures var s' := TakeOr(s, t, i, size);
      Sized(s') && |s'.live| == |s.live| + 1 && s'.live[..|s.live|] == s.live && s'.live[|s.live|].size == size
  {
    var X := s.tcbs[t];
    var st := X.stashes[i];
    assert StashSized(st);
    if st.blocks != [] {
      var st' := st.(blocks := st.blocks[1..]);
      assert StashSized(st');
      PutSized(s, t, X.(stashes := X.stashes[i := st']));
    }
  }

  lemma AllocSized(s: State, t: nat, size: nat)
    requires Sized(s) && t < |s.tcbs|
    ensures var s' := DoAlloc(s, t, size);
      Sized(s') && |s'.live| == |s.live| + 1 && s'.live[..|s.live|] == s.live && s'.live[|s.live|].size == size
  {
    var X := s.tcbs[t];
    var i := Find(X.stashes, size);
    if i < |X.stashes| {
      if X.stashes[i].blocks != [] || X.reclaimed == [] { TakeSized(s, t, i, size); }
      else {
        var r := Scatter(X.stashes, X.reclaimed);
        ScatterSized(X.stashes, X.reclaimed);
        PutSized(s, t, X.(stashes := r.0, reclaimed := []));
        var s1 := Put(s, t, X.(stashes := r.0, reclaimed := [])).(deleted := s.deleted + r.1);
        var j := Find(r.0, size);
        if j < |r.0| { TakeSized(s1, t, j, size); }
      }
    }
  }

  lemma StepSized(s: State, step: Step)
    requires Sized(s) && Enabled(s, step)
    ensures Sized(Apply(s, step))
  {
    match step
    case Register =>
    case StartCache(t, size, n) =>
      var X := s.tcbs[t];
      var i := Find(X.stashes, size);
      if i < |X.stashes| {
        assert StashSized(X.stashes[i]);
        assert StashSized(X.stashes[i].(max := X.stashes[i].max + n));
      }
      assert StashSized(Stash(size, n, []));
      PutSized(s, t, Apply(s, step).tcbs[t]);
    case StopCache(t, size) =>
      var X := s.tcbs[t];
      var i := Find(X.stashes, size);
      if i < |X.stashes| { PutSized(s, t, X.(stashes := Drop(X.stashes, i))); }
    case Alloc(t, size) => AllocSized(s, t, size);
    case Free(t, i) => PutSized(s, t, Apply(s, step).tcbs[t]);
    case NewEpoch =>
      var s' := Apply(s, step);
      forall x, i | 0 <= x < |s'.tcbs| && 0 <= i < |s'.tcbs[x].stashes| ensures StashSized(s'.tcbs[x].stashes[i]) {
        assert s'.tcbs[x].stashes == s.tcbs[x].stashes;
      }
    case Reclaim =>
  }

  lemma {:induction false} RunSized(states: seq<State>, steps: seq<Step>, k: nat)
    requires Run(states, steps) && k <= |steps|
    ensures Sized(states[k])
  {
    if k > 0 {
      RunSized(states, steps, k - 1);
      hide Apply, Enabled;
      StepSized(states[k - 1], steps[k - 1]);
    }
  }

  /** In every run an allocation hands out one more block, of exactly the size asked for. */
  lemma AllocatesSize(states: seq<State>, steps: seq<Step>, k: nat)
    requires Run(states, steps) && k < |steps| && steps[k].Alloc?
    ensures var s, s' := states[k], states[k + 1];
      |s'.live| == |s.live| + 1 && s'.live[..|s.live|] == s.live && s'.live[|s.live|].size == steps[k].size
  {
    RunSized(states, steps, k);
    AllocSized(states[k], steps[k].t, steps[k].size);
  }

  // ---------------------------------------------------------------- capacity and reuse

  /** How many blocks of a size a thread may keep. */
  function Capacity(stashes: seq<Stash>, size: nat): nat {
    var i := Find(stashes, size); if i < |stashes| then stashes[i].max else 0
  }

  predicate Apart(stashes: seq<Stash>) { forall i, j :: 0 <= i < j < |stashes| ==> stashes[i].size != stashes[j].size }

  predicate WithinMax(st: Stash) { |st.blocks| <= st.max }

  /** A thread has one stash for a size, and none holds more than it may. */
  ghost predicate Bounded(s: State) {
    forall t :: 0 <= t < |s.tcbs| ==> StashesOk(s.tcbs[t].stashes)
  }

  predicate StashesOk(stashes: seq<Stash>) {
    Apart(stashes) && forall i :: 0 <= i < |stashes| ==> WithinMax(stashes[i])
  }

  lemma {:induction false} FindLeast(stashes: seq<Stash>, size: nat)
    ensures forall i :: 0 <= i < Find(stashes, size) ==> stashes[i].size != size
  {
    if stashes != [] && stashes[0].size != size { FindLeast(stashes[1..], size); }
  }

  lemma FindIs(stashes: seq<Stash>, size: nat, i: nat)
    requires Apart(stashes) && i < |stashes| && stashes[i].size == size
    ensures Find(stashes, size) == i
  {
    FindLeast(stashes, size);
  }

  /** What scattering blocks over a stash makes of it: it keeps its size and limit, loses nothing, and is left empty
      only when it may hold nothing or no block has its size. */
  ghost predicate Refilled(st: Stash, r: Stash, blocks: seq<Block>) {
    && r.size == st.size && r.max == st.max && |r.blocks| >= |st.blocks|
    && (r.blocks != [] <==> st.blocks != [] || (st.max > 0 && HasSize(blocks, st.size)))
  }

  ghost predicate HasSize(blocks: seq<Block>, size: nat) { exists j :: 0 <= j < |blocks| && blocks[j].size == size }

  lemma {:induction false} ScatterOk(stashes: seq<Stash>, blocks: seq<Block>)
    requires StashesOk(stashes)
    ensures var r := Scatter(stashes, blocks).0;
      StashesOk(r) && |r| == |stashes| && forall i :: 0 <= i < |r| ==> Refilled(stashes[i], r[i], blocks)
    decreases |blocks|
  {
    if blocks != [] {
      var b, k := blocks[0], Find(stashes, blocks[0].size);
      FindLeast(stashes, b.size);
      var given := k < |stashes| && |stashes[k].blocks| < stashes[k].max;
      var st := if given then stashes[k := stashes[k].(blocks := [b] + stashes[k].blocks)] else stashes;
      ScatterOk(st, blocks[1..]);
      var r := Scatter(stashes, blocks).0;
      assert r == Scatter(st, blocks[1..]).0;
      forall i | 0 <= i < |r| ensures Refilled(stashes[i], r[i], blocks) {
        assert Refilled(st[i], r[i], blocks[1..]);
        SizeSplit(blocks, stashes[i].size);
        if stashes[i].size == b.size { FindIs(stashes, b.size, i); }
      }
    }
  }

  lemma SizeSplit(blocks: seq<Block>, size: nat)
    requires blocks != []
    ensures HasSize(blocks, size) <==> blocks[0].size == size || HasSize(blocks[1..], size)
  {
    if j :| 0 <= j < |blocks| && blocks[j].size == size && j > 0 { assert blocks[1..][j - 1].size == size; }
    if j :| 0 <= j < |blocks[1..]| && blocks[1..][j].size == size { assert blocks[j + 1].size == size; }
  }

  /** An allocation needs no new memory: a block of the size is in the stash, or can be had from the reclaimed ones. */
  ghost predicate Reusable(X: Tcb, size: nat) {
    var i := Find(X.stashes, size);
    i < |X.stashes| && (X.stashes[i].blocks != [] || (X.stashes[i].max > 0 && HasSize(X.reclaimed, size)))
  }

  lemma TakeBounded(s: State, t: nat, i: nat, size: nat)
    requires t < |s.tcbs| && i < |s.tcbs[t].stashes| && StashesOk(s.tcbs[t].stashes)
    ensures var s' := TakeOr(s, t, i, size);
      && |s'.tcbs| == |s.tcbs| && (forall x :: 0 <= x < |s.tcbs| && x != t ==> s'.tcbs[x] == s.tcbs[x])
      && StashesOk(s'.tcbs[t].stashes) && SameLimits(s.tcbs[t].stashes, s'.tcbs[t].stashes)
      && s'.made == s.made + if s.tcbs[t].stashes[i].blocks == [] then 1 else 0
  {
  }

  predicate SameLimits(a: seq<Stash>, b: seq<Stash>) {
    |a| == |b| && forall i :: 0 <= i < |a| ==> a[i].size == b[i].size && a[i].max == b[i].max
  }

  lemma AllocBounded(s: State, t: nat, size: nat)
    requires t < |s.tcbs| && StashesOk(s.tcbs[t].stashes)
    ensures var s' := DoAlloc(s, t, size);
      && |s'.tcbs| == |s.tcbs| && (forall x :: 0 <= x < |s.tcbs| && x != t ==> s'.tcbs[x] == s.tcbs[x])
      && StashesOk(s'.tcbs[t].stashes) && SameLimits(s.tcbs[t].stashes, s'.tcbs[t].stashes)
      && s'.made == s.made + if Reusable(s.tcbs[t], size) then 0 else 1
  {
    var X := s.tcbs[t];
    var i := Find(X.stashes, size);
    if i < |X.stashes| {
      if X.stashes[i].blocks != [] || X.reclaimed == [] { TakeBounded(s, t, i, size); }
      else {
        var r := Scatter(X.stashes, X.reclaimed);
        ScatterOk(X.stashes, X.reclaimed);
        assert Refilled(X.stashes[i], r.0[i], X.reclaimed);
        FindIs(r.0, size, i);
        var s1 := Put(s, t, X.(stashes := r.0, reclaimed := [])).(deleted := s.deleted + r.1);
        TakeBounded(s1, t, i, size);
        forall j | 0 <= j < |X.stashes| ensures X.stashes[j].size == r.0[j].size && X.stashes[j].max == r.0[j].max {
          assert Refilled(X.stashes[j], r.0[j], X.reclaimed);
        }
      }
    }
  }

  /** The limits of thread t change only when it starts or stops a cache. */
  lemma StepBounded(s: State, step: Step, t: nat)
    requires Bounded(s) && Enabled(s, step) && t < |s.tcbs|
    ensures var s' := Apply(s, step);
      && t < |s'.tcbs| && StashesOk(s'.tcbs[t].stashes)
      && (step.StartCache? && step.t == t ==> forall size: nat ::
            Capacity(s'.tcbs[t].stashes, size)
              == Capacity(s.tcbs[t].stashes, size) + if size == step.size then step.entries else 0)
      && (step.StopCache? && step.t == t ==> forall size: nat ::
            Capacity(s'.tcbs[t].stashes, size) == if size == step.size then 0 else Capacity(s.tcbs[t].stashes, size))
      && (!(step.StartCache? && step.t == t) && !(step.StopCache? && step.t == t) ==> forall size: nat ::
            Capacity(s'.tcbs[t].stashes, size) == Capacity(s.tcbs[t].stashes, size))
  {
    var a, b := s.tcbs[t].stashes, Apply(s, step).tcbs[t].stashes;
    if step.Alloc? && step.t == t {
      AllocBounded(s, t, step.size);
      forall size: nat ensures Capacity(b, size) == Capacity(a, size) { SameCapacity(a, b, size); }
    } else if step.Alloc? {
      assert StashesOk(s.tcbs[step.t].stashes);
      AllocBounded(s, step.t, step.size);
    } else if step.StartCache? && step.t == t {
      forall size: nat
        ensures Capacity(b, size) == Capacity(a, size) + if size == step.size then step.entries else 0
      {
        StartCapacity(a, step.size, step.entries, size);
      }
      StartOk(a, step.size, step.entries);
    } else if step.StopCache? && step.t == t {
      forall size: nat ensures Capacity(b, size) == if size == step.size then 0 else Capacity(a, size) {
        StopCapacity(a, step.size, size);
      }
    }
  }

  lemma SameCapacity(a: seq<Stash>, b: seq<Stash>, size: nat)
    requires Apart(a) && Apart(b) && SameLimits(a, b)
    ensures Capacity(a, size) == Capacity(b, size)
  {
    FindLeast(a, size);
    FindLeast(b, size);
  }

  function Started(a: seq<Stash>, size: nat, n: nat): seq<Stash> {
    var i := Find(a, size);
    if i < |a| then a[i := a[i].(max := a[i].max + n)] else a + [Stash(size, n, [])]
  }

  function Stopped(a: seq<Stash>, size: nat): seq<Stash> { var i := Find(a, size); if i < |a| then Drop(a, i) else a }

  lemma StartOk(a: seq<Stash>, size: nat, n: nat)
    requires StashesOk(a)
    ensures StashesOk(Started(a, size, n))
  {
    FindLeast(a, size);
  }

  lemma StartCapacity(a: seq<Stash>, size: nat, n: nat, other: nat)
    requires Apart(a)
    ensures Capacity(Started(a, size, n), other) == Capacity(a, other) + if other == size then n else 0
  {
    var b := Started(a, size, n);
    FindLeast(a, size);
    FindLeast(a, other);
    FindLeast(b, other);
    var i := Find(a, other);
    if i < |a| { FindIs(b, other, i); } else if other == size { FindIs(b, other, |a|); }
  }

  lemma StopCapacity(a: seq<Stash>, size: nat, other: nat)
    requires Apart(a)
    ensures Capacity(Stopped(a, size), other) == if other == size then 0 else Capacity(a, other)
  {
    var b, k := Stopped(a, size), Find(a, size);
    FindLeast(a, size);
    FindLeast(a, other);
    FindLeast(b, other);
    var i := Find(a, other);
    if other != size && i < |a| { FindIs(b, other, if i < k then i else i - 1); }
  }

  lemma {:induction false} RunBounded(states: seq<State>, steps: seq<Step>, k: nat)
    requires Run(states, steps) && k <= |steps|
    ensures Bounded(states[k])
  {
    if k > 0 {
      RunBounded(states, steps, k - 1);
      var s, step := states[k - 1], steps[k - 1];
      assert Goes(s, step, states[k]);
      forall t | 0 <= t < |states[k].tcbs| ensures StashesOk(states[k].tcbs[t].stashes) {
        if t < |s.tcbs| { StepBounded(s, step, t); }
      }
    }
  }

  /** In every run an allocation takes new memory exactly when no block of the size is at hand. */
  lemma AllocExact(states: seq<State>, steps: seq<Step>, k: nat)
    requires Run(states, steps) && k < |steps| && steps[k].Alloc?
    ensures steps[k].t < |states[k].tcbs|
    ensures states[k + 1].made == states[k].made + if Reusable(states[k].tcbs[steps[k].t], steps[k].size) then 0 else 1
  {
    RunBounded(states, steps, k);
    assert StashesOk(states[k].tcbs[steps[k].t].stashes);
    AllocBounded(states[k], steps[k].t, steps[k].size);
  }

  /** In every run a freed block waits in the thread's own stash when the thread caches its size, and otherwise joins
      the blocks to be deleted; it is out of the program's hands. */
  lemma FreesWhere(states: seq<State>, steps: seq<Step>, k: nat)
    requires Run(states, steps) && k < |steps| && steps[k].Free?
    ensures var s, s', t, i := states[k], states[k + 1], steps[k].t, steps[k].i;
      && t < |s.tcbs| && t < |s'.tcbs| && i < |s.live| && s'.live == s.live[..i] + s.live[i + 1..]
      && var b, X, X' := s.live[i].(freed := s.epoch), s.tcbs[t], s'.tcbs[t];
         if exists j :: 0 <= j < |X.stashes| && X.stashes[j].size == b.size
         then X'.cur == [b] + X.cur && X'.free == X.free else X'.free == [b] + X.free && X'.cur == X.cur
  {
    var s := states[k];
    FindLeast(s.tcbs[steps[k].t].stashes, s.live[steps[k].i].size);
  }
}
