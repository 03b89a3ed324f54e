/** The epoch manager of dbcore/epoch.cpp, one volatile read or write per step.  Any number of threads
    enter, exit and quiesce while new_epoch, serialised by the mutex, closes one epoch after another. */
module Epoch {
  import opened Options

  type Tid = nat

  /** Where the straggler protocol returns to: thread_enter, thread_exit or thread_quiesce. */
  datatype Back = Retry | Leave | Stay

  datatype Pc =
    | Out
    | Start                            // thread_enter: read state->begin
    | ClearEnd(tmp: nat)
    | SetBegin(tmp: nat)
    | Reread(tmp: nat)
    | Peek(tmp: nat, tmp2: nat)        // read the straggler flag
    | Bail(tmp2: nat, check: bool)     // write end, then check or retry
    | Inside
    | ExitRead                         // thread_exit
    | ExitMark(tmp: nat)
    | ExitCheck
    | QuietTest                        // thread_quiesce
    | QuietClear
    | QuietEnd
    | QuietRead
    | QuietBegin(tmp: nat)
    | Check(tmp: nat, back: Back)      // straggler_check
    | Lock(back: Back)
    | Test(back: Back)
    | Clear(back: Back)
    | Ended(back: Back)                // straggler_ended: decrement
    | Swap(back: Back)                 // global_quiesce
    | Ready(back: Back)

  datatype Thread = Thread(begin: nat, end: nat, flag: bool, pc: Pc)

  /** new_epoch; every program point but Free holds the mutex.  n is the epoch that is closing. */
  datatype Closer =
    | Free
    | Locked
    | Opened(n: nat)
    | Scan(n: nat, todo: set<Tid>, found: set<Tid>)
    | ScanEnd(n: nat, todo: set<Tid>, found: set<Tid>, t: Tid, seen: nat)
    | ShiftCold(n: nat, found: set<Tid>)
    | ShiftCooling(n: nat, found: set<Tid>)
    | Count(n: nat, found: set<Tid>)
    | Flag(n: nat, todo: set<Tid>)
    | Close(n: nat, direct: bool)
    | Unlock(direct: bool)

  /** global_quiesce called by new_epoch itself, after it has released the mutex. */
  datatype Direct = NoDirect | DirectSwap | DirectReady

  /** `reclaimed` lists the epochs handed to epoch_reclaimed, in order. */
  datatype State = State(
    begin: nat,
    end: nat,
    ready: bool,
    stragglers: nat,
    cooling: Option<nat>,
    cold: Option<nat>,
    threads: seq<Thread>,
    closer: Closer,
    direct: Direct,
    reclaimed: seq<nat>)

  datatype Step =
    | Register
    | Enter(t: Tid)
    | Exit(t: Tid)
    | Quiesce(t: Tid)
    | Go(t: Tid)
    | NewEpoch
    | Closing(pick: Tid)
    | Directly

  predicate Has(s: State, t: Tid) { t < |s.threads| }

  function Put(s: State, t: Tid, X: Thread): State
    requires Has(s, t)
  {
    s.(threads := s.threads[t := X])
  }

  function AfterCheck(b: Back): Pc {
    match b
    case Retry => Start
    case Leave => Out
    case Stay => Inside
  }

  predicate CanGo(s: State, t: Tid) {
    Has(s, t) && var pc := s.threads[t].pc; !pc.Out? && !pc.Inside? && (pc.Lock? ==> s.closer.Free?)
  }

  /** Hand the cold epoch to epoch_reclaimed. */
  function Reclaim(s: State): State {
    s.(cold := None, reclaimed := if s.cold.Some? then s.reclaimed + [s.cold.value] else s.reclaimed)
  }

  /** thread_enter after the second read (epoch.cpp:357-394): no race or a cooling epoch, a cold epoch, too slow. */
  function Raced(tmp: nat, tmp2: nat): Pc {
    if tmp2 <= tmp + 1 then Peek(tmp, tmp2) else Bail(tmp2, tmp2 == tmp + 2)
  }

  function Move(s: State, t: Tid): State
    requires CanGo(s, t)
  {
    var X := s.threads[t];
    match X.pc
    case Start => Put(s, t, X.(pc := ClearEnd(s.begin)))
    case ClearEnd(tmp) => Put(s, t, X.(end := 0, pc := SetBegin(tmp)))
    case SetBegin(tmp) => Put(s, t, X.(begin := tmp, pc := Reread(tmp)))
    case Reread(tmp) => Put(s, t, X.(pc := Raced(tmp, s.begin)))
    case Peek(tmp, tmp2) => Put(s, t, X.(pc := if X.flag then Bail(tmp2, true) else Inside))
    case Bail(tmp2, check) => Put(s, t, X.(end := tmp2, pc := if check then Check(tmp2, Retry) else Start))
    case ExitRead => Put(s, t, X.(pc := ExitMark(s.begin)))
    case ExitMark(tmp) => Put(s, t, X.(end := tmp, pc := if tmp < X.begin + 2 then ExitCheck else Check(tmp, Leave)))
    case ExitCheck => Put(s, t, X.(pc := if s.end < X.begin + 2 then Out else Check(s.end, Leave)))
    case QuietTest => Put(s, t, X.(pc := if X.flag then QuietClear else Inside))
    case QuietClear => Put(s, t, X.(flag := false, pc := QuietEnd))
    case QuietEnd => Put(s, t, X.(end := 0, pc := QuietRead))
    case QuietRead => Put(s, t, X.(pc := QuietBegin(s.begin)))
    case QuietBegin(tmp) => Put(s, t, X.(begin := tmp, pc := Ended(Stay)))
    case Check(tmp, b) => Put(s, t, X.(pc := if s.end < tmp then Lock(b) else Test(b)))
    case Lock(b) => Put(s, t, X.(pc := Test(b)))
    case Test(b) => Put(s, t, X.(pc := if X.flag then Clear(b) else AfterCheck(b)))
    case Clear(b) => Put(s, t, X.(flag := false, pc := Ended(b)))
    case Ended(b) =>
      Put(s, t, X.(pc := if s.stragglers == 1 then Swap(b) else AfterCheck(b)))
        .(stragglers := if s.stragglers == 0 then 0 else s.stragglers - 1)
    case Swap(b) => Put(Reclaim(s), t, X.(pc := Ready(b)))
    case Ready(b) => Put(s, t, X.(pc := AfterCheck(b))).(ready := true)
  }

  predicate CanClose(s: State, pick: Tid) {
    match s.closer
    case Free => false
    case Scan(n, todo, found) => todo == {} || (pick in todo && Has(s, pick))
    case ScanEnd(n, todo, found, t, seen) => Has(s, t)
    case Flag(n, todo) => todo == {} || (pick in todo && Has(s, pick))
    case _ => true
  }

  function All(s: State): set<Tid> { set t: Tid | 0 <= t < |s.threads| && Has(s, t) }

  function MoveCloser(s: State, pick: Tid): State
    requires CanClose(s, pick)
  {
    match s.closer
    case Locked =>
      if s.ready then s.(begin := s.begin + 1, closer := Opened(s.begin)) else s.(closer := Free)
    case Opened(n) => s.(ready := false, closer := Scan(n, All(s), {}))
    case Scan(n, todo, found) =>
      if todo == {} then s.(closer := ShiftCold(n, found))
      else s.(closer := ScanEnd(n, todo - {pick}, found, pick, s.threads[pick].begin))
    case ScanEnd(n, todo, found, t, seen) =>
      s.(closer := Scan(n, todo, if seen + 1 == n && seen > s.threads[t].end then found + {t} else found))
    case ShiftCold(n, found) => s.(cold := s.cooling, closer := ShiftCooling(n, found))
    case ShiftCooling(n, found) =>
      s.(cooling := Some(n), closer := if found == {} then Close(n, true) else Count(n, found))
    case Count(n, found) => s.(stragglers := |found|, closer := Flag(n, found))
    case Flag(n, todo) =>
      if todo == {} then s.(closer := Close(n, false))
      else Put(s, pick, s.threads[pick].(flag := true)).(closer := Flag(n, todo - {pick}))
    case Close(n, direct) => s.(end := n + 1, closer := Unlock(direct))
    case Unlock(direct) => s.(closer := Free, direct := if direct then DirectSwap else s.direct)
  }

  predicate Enabled(s: State, step: Step) {
    match step
    case Register => s.closer.Free?
    case Enter(t) => Has(s, t) && s.threads[t].pc.Out?
    case Exit(t) => Has(s, t) && s.threads[t].pc.Inside?
    case Quiesce(t) => Has(s, t) && s.threads[t].pc.Inside?
    case Go(t) => CanGo(s, t)
    case NewEpoch => s.closer.Free?
    case Closing(pick) => CanClose(s, pick)
    case Directly => !s.direct.NoDirect?
  }

  function Apply(s: State, step: Step): State
    requires Enabled(s, step)
  {
    match step
    case Register => s.(threads := s.threads + [Thread(0, 0, false, Out)])
    case Enter(t) => Put(s, t, s.threads[t].(pc := Start))
    case Exit(t) => Put(s, t, s.threads[t].(pc := ExitRead))
    case Quiesce(t) => Put(s, t, s.threads[t].(pc := QuietTest))
    case Go(t) => Move(s, t)
    case NewEpoch => s.(closer := Locked)
    case Closing(pick) => MoveCloser(s, pick)
    case Directly =>
      if s.direct.DirectSwap? then Reclaim(s).(direct := DirectReady)
      else s.(ready := true, direct := NoDirect)
  }

  predicate Init(s: State) { s == State(1, 1, true, 0, None, None, [], Free, NoDirect, []) }
}
