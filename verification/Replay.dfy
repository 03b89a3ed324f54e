/** Running the committed transactions one at a time, in a serial order, gives every transaction the
    versions it read and leaves the database as it is. */
module Replay {
  import opened Options
  import opened Engine
  import opened EngineInv
  import opened EngineShapes
  import opened EngineGuar
  import opened EngineFacts
  import opened EngineMarks
  import opened EngineRuns
  import opened EngineReads
  import opened EngineWrites
  import opened EngineBits
  import opened EngineSsi
  import opened Dependencies

  /** Running t alone leaves version u as the current one of record rec. */
  predicate Puts(s: State, t: Tid, u: Vid, rec: nat) {
    HasTxn(s, t) && u in s.txns[t].wset && HasVer(s, u) && s.vers[u].rec == rec
  }

  /** The current version of a record after running the transactions of p one at a time. */
  ghost function Current(s: State, p: seq<Tid>, rec: nat): Option<Vid>
    decreases |p|
  {
    if p == [] then None
    else
      var t := p[|p| - 1];
      if u: Vid :| Puts(s, t, u, rec) then Some(u) else Current(s, p[..|p| - 1], rec)
  }

  /** order lists exactly the committed transactions, each once, along their dependencies. */
  ghost predicate Serial(s: State, order: seq<Tid>) {
    && (forall i :: 0 <= i < |order| ==> Committed(s, order[i]))
    && (forall t: Tid :: Committed(s, t) ==> t in order)
    && (forall i, j :: 0 <= i < j < |order| ==> order[i] != order[j])
    && (forall i, j :: 0 <= i < |order| && 0 <= j < |order| && Depends(s, order[i], order[j]) ==> i < j)
  }

  /** u replaced v, both by committed transactions. */
  predicate Replaces(s: State, u: Vid, v: Vid) {
    && HasNext(s, u) && Prev(s, u) == v && Committed(s, s.vers[u].creator) && u in s.txns[s.vers[u].creator].wset
  }

  /** v is the committed version that no committed transaction has replaced. */
  ghost predicate Head(s: State, v: Vid) {
    && HasVer(s, v) && Committed(s, s.vers[v].creator) && v in s.txns[s.vers[v].creator].wset
    && forall u: Vid :: !Replaces(s, u, v)
  }

  /** Each transaction of order reads what the ones before it left, and together they leave the heads. */
  ghost predicate Agrees(s: State, order: seq<Tid>) {
    && (forall k, v :: 0 <= k < |order| && HasTxn(s, order[k]) && v in s.txns[order[k]].seen && HasVer(s, v) ==>
          Current(s, order[..k], s.vers[v].rec) == Some(v))
    && (forall rec: nat, v: Vid :: Current(s, order, rec) == Some(v) <==> Head(s, v) && s.vers[v].rec == rec)
  }

  // ---------------------------------------------------------------- one version on top of another

  /** v was written by a transaction of p, and none of p replaced it. */
  ghost predicate Top(s: State, p: seq<Tid>, v: Vid) {
    && HasVer(s, v) && s.vers[v].creator in p && Committed(s, s.vers[v].creator) && v in s.txns[s.vers[v].creator].wset
    && forall u: Vid :: Replaces(s, u, v) ==> s.vers[u].creator !in p
  }

  lemma ReplacesFacts(s: State, u: Vid, v: Vid)
    requires Inv(s) && Replaces(s, u, v)
    ensures s.vers[v].over == Some(u) && s.vers[v].rec == s.vers[u].rec && s.vers[v].depth + 1 == s.vers[u].depth
    ensures Depends(s, s.vers[v].creator, s.vers[u].creator) && v in s.txns[s.vers[v].creator].wset
  {
    hide Shapes, Chains, BitSide, ReadSide, WriteSide, Facts, PivotSide, Roots, S2Side, Waits;
    var b := s.vers[u].creator;
    Linked(s, b, u);
    GetVer(s, u);
    GetFacts(s, b);
    CommittedStamp(s, b);
    assert WhenFor(s, b, u);
    assert WriteWrite(s, s.vers[v].creator, b, u);
  }

  /** A committed version either replaced one, or is the root of its record. */
  lemma RootOr(s: State, u: Vid)
    requires Inv(s) && HasVer(s, u) && Committed(s, s.vers[u].creator) && u in s.txns[s.vers[u].creator].wset
    ensures (HasNext(s, u) && Replaces(s, u, Prev(s, u))) || (s.vers[u].next.None? && s.vers[u].depth == 0)
  {
    hide Shapes, Chains, BitSide, ReadSide, WriteSide, Facts, PivotSide, Roots, S2Side, Waits;
    GetVer(s, u);
  }

  lemma OneRoot(s: State, u: Vid, w: Vid)
    requires Inv(s) && HasVer(s, u) && HasVer(s, w) && s.vers[u].depth == 0 && s.vers[w].depth == 0
    requires s.vers[u].rec == s.vers[w].rec
    ensures u == w
  {
    hide Shapes, Chains, BitSide, ReadSide, WriteSide, Facts, PivotSide, S2Side, Waits;
  }

  lemma Earlier(s: State, order: seq<Tid>, k: nat, a: Tid)
    requires Serial(s, order) && k < |order| && Depends(s, a, order[k])
    ensures a in order[..k]
  {
    assert Committed(s, a);
    var i :| 0 <= i < |order| && order[i] == a;
    assert order[..k][i] == a;
  }

  /** The root of a record was written no later than any other version of it. */
  lemma {:induction false} RootFirst(s: State, order: seq<Tid>, k: nat, u: Vid, w: Vid)
    requires Inv(s) && Serial(s, order) && k <= |order| && HasVer(s, u) && HasVer(s, w) && s.vers[u].depth == 0
    requires s.vers[u].rec == s.vers[w].rec && s.vers[w].creator in order[..k]
    requires w in s.txns[s.vers[w].creator].wset
    ensures s.vers[u].creator in order[..k]
    decreases s.vers[w].depth
  {
    hide Inv, Serial;
    var i :| 0 <= i < k && order[i] == s.vers[w].creator;
    ListedCommitted(s, order, i);
    RootOr(s, w);
    if HasNext(s, w) && Replaces(s, w, Prev(s, w)) {
      ReplacesFacts(s, w, Prev(s, w));
      Earlier(s, order, i, s.vers[Prev(s, w)].creator);
      Shorter(order, i, k, s.vers[Prev(s, w)].creator);
      RootFirst(s, order, k, u, Prev(s, w));
    } else {
      OneRoot(s, u, w);
    }
  }

  lemma ListedCommitted(s: State, order: seq<Tid>, i: nat)
    requires Serial(s, order) && i < |order|
    ensures Committed(s, order[i])
  {
  }

  lemma Shorter(order: seq<Tid>, i: nat, k: nat, a: Tid)
    requires i <= k <= |order| && a in order[..i]
    ensures a in order[..k]
  {
    var j :| 0 <= j < i && order[j] == a;
    assert order[..k][j] == a;
  }

  // ---------------------------------------------------------------- the replay

  /** After k transactions, the current versions are the tops among them. */
  ghost predicate Replayed(s: State, p: seq<Tid>) {
    && (forall v: Vid :: Top(s, p, v) ==> Current(s, p, s.vers[v].rec) == Some(v))
    && (forall rec: nat :: Current(s, p, rec).Some? ==>
          var v := Current(s, p, rec).value; Top(s, p, v) && s.vers[v].rec == rec)
  }

  lemma NotYet(s: State, order: seq<Tid>, k: nat)
    requires Serial(s, order) && k < |order|
    ensures order[k] !in order[..k] && order[..k + 1] == order[..k] + [order[k]] && Committed(s, order[k])
  {
  }

  /** What t replaces was on top before t ran. */
  lemma BelowIsTop(s: State, order: seq<Tid>, k: nat, u: Vid)
    requires Inv(s) && Serial(s, order) && k < |order|
    requires HasNext(s, u) && Replaces(s, u, Prev(s, u)) && s.vers[u].creator == order[k]
    ensures Top(s, order[..k], Prev(s, u)) && s.vers[Prev(s, u)].rec == s.vers[u].rec
  {
    hide Inv, Serial;
    var v := Prev(s, u);
    NotYet(s, order, k);
    ReplacesFacts(s, u, v);
    Earlier(s, order, k, s.vers[v].creator);
    forall w: Vid | Replaces(s, w, v) ensures s.vers[w].creator !in order[..k] { ReplacesFacts(s, w, v); }
  }

  /** t writes one version of a record. */
  lemma OnePerRecord(s: State, order: seq<Tid>, k: nat, u: Vid, w: Vid, rec: nat)
    requires Inv(s) && Serial(s, order) && k < |order| && Replayed(s, order[..k])
    requires Puts(s, order[k], u, rec) && Puts(s, order[k], w, rec)
    ensures u == w
  {
    hide Inv, Serial, Top, Current;
    NotYet(s, order, k);
    Mine(s, order[k], u);
    Mine(s, order[k], w);
    RootOr(s, u);
    RootOr(s, w);
    if HasNext(s, u) && HasNext(s, w) {
      BelowIsTop(s, order, k, u);
      BelowIsTop(s, order, k, w);
      ReplacesFacts(s, u, Prev(s, u));
      ReplacesFacts(s, w, Prev(s, w));
    } else if HasNext(s, u) {
      BelowIsTop(s, order, k, u);
      TopIn(s, order[..k], Prev(s, u));
      RootFirst(s, order, k, w, Prev(s, u));
    } else if HasNext(s, w) {
      BelowIsTop(s, order, k, w);
      TopIn(s, order[..k], Prev(s, w));
      RootFirst(s, order, k, u, Prev(s, w));
    } else {
      OneRoot(s, u, w);
    }
  }

  lemma TopIn(s: State, p: seq<Tid>, v: Vid)
    requires Top(s, p, v)
    ensures HasVer(s, v) && s.vers[v].creator in p && Committed(s, s.vers[v].creator)
    ensures v in s.txns[s.vers[v].creator].wset
  {
  }

  lemma Mine(s: State, t: Tid, u: Vid)
    requires Inv(s) && HasTxn(s, t) && u in s.txns[t].wset
    ensures HasVer(s, u) && s.vers[u].creator == t
  {
    hide Shapes, Chains, BitSide, ReadSide, WriteSide, Facts, PivotSide, Roots, S2Side, Waits;
    MadeHas(s, t);
  }

  /** A version t writes is on top when t has run. */
  lemma WrittenIsTop(s: State, order: seq<Tid>, k: nat, u: Vid, rec: nat)
    requires Inv(s) && Serial(s, order) && k < |order| && Puts(s, order[k], u, rec)
    ensures Top(s, order[..k + 1], u)
  {
    hide Inv, Serial;
    NotYet(s, order, k);
    Mine(s, order[k], u);
    forall w: Vid | Replaces(s, w, u) ensures s.vers[w].creator !in order[..k + 1] {
      ReplacesFacts(s, w, u);
      Backwards(s, order, k, s.vers[w].creator);
    }
  }

  lemma Backwards(s: State, order: seq<Tid>, k: nat, b: Tid)
    requires Serial(s, order) && k < |order| && Depends(s, order[k], b)
    ensures b !in order[..k + 1]
  {
  }

  /** A top after t that t did not write was a top before, of a record t did not write. */
  lemma OldTop(s: State, order: seq<Tid>, k: nat, w: Vid)
    requires Inv(s) && Serial(s, order) && k < |order| && Replayed(s, order[..k])
    requires Top(s, order[..k + 1], w) && s.vers[w].creator != order[k]
    ensures Top(s, order[..k], w) && forall u: Vid :: !Puts(s, order[k], u, s.vers[w].rec)
  {
    hide Inv, Serial, Current;
    NotYet(s, order, k);
    assert Top(s, order[..k], w);
    forall u: Vid ensures !Puts(s, order[k], u, s.vers[w].rec) {
      if Puts(s, order[k], u, s.vers[w].rec) {
        Mine(s, order[k], u);
        RootOr(s, u);
        if HasNext(s, u) { BelowIsTop(s, order, k, u); } else { RootFirst(s, order, k, u, w); }
      }
    }
  }

  lemma CurrentStep(s: State, p: seq<Tid>, t: Tid, rec: nat)
    ensures (forall u: Vid :: !Puts(s, t, u, rec)) ==> Current(s, p + [t], rec) == Current(s, p, rec)
    ensures (exists u: Vid :: Puts(s, t, u, rec)) ==>
      Current(s, p + [t], rec).Some? && Puts(s, t, Current(s, p + [t], rec).value, rec)
  {
    assert (p + [t])[..|p + [t]| - 1] == p;
  }

  lemma ReplayStep(s: State, order: seq<Tid>, k: nat)
    requires Inv(s) && Serial(s, order) && k < |order| && Replayed(s, order[..k])
    ensures Replayed(s, order[..k + 1])
  {
    hide Inv, Serial, Current, Puts;
    var p, p', t := order[..k], order[..k + 1], order[k];
    NotYet(s, order, k);
    forall v: Vid | Top(s, p', v) ensures Current(s, p', s.vers[v].rec) == Some(v) {
      CurrentStep(s, p, t, s.vers[v].rec);
      if s.vers[v].creator == t {
        assert Puts(s, t, v, s.vers[v].rec) by { PutsIs(s, t, v); }
        OnePerRecord(s, order, k, v, Current(s, p', s.vers[v].rec).value, s.vers[v].rec);
      } else {
        OldTop(s, order, k, v);
      }
    }
    forall rec: nat | Current(s, p', rec).Some?
      ensures var v := Current(s, p', rec).value; Top(s, p', v) && s.vers[v].rec == rec
    {
      var v := Current(s, p', rec).value;
      CurrentStep(s, p, t, rec);
      if u: Vid :| Puts(s, t, u, rec) {
        WrittenIsTop(s, order, k, v, rec);
        PutsRec(s, t, v, rec);
      } else {
        StillTop(s, order, k, v);
      }
    }
  }

  lemma PutsIs(s: State, t: Tid, v: Vid)
    requires HasVer(s, v) && HasTxn(s, t) && v in s.txns[t].wset
    ensures Puts(s, t, v, s.vers[v].rec)
  {
  }

  lemma PutsRec(s: State, t: Tid, v: Vid, rec: nat)
    requires Puts(s, t, v, rec)
    ensures HasVer(s, v) && s.vers[v].rec == rec
  {
  }

  lemma StillTop(s: State, order: seq<Tid>, k: nat, w: Vid)
    requires Inv(s) && Serial(s, order) && k < |order| && Top(s, order[..k], w)
    requires forall u: Vid :: !Puts(s, order[k], u, s.vers[w].rec)
    ensures Top(s, order[..k + 1], w)
  {
    hide Inv, Serial;
    NotYet(s, order, k);
    forall u: Vid | Replaces(s, u, w) ensures s.vers[u].creator !in order[..k + 1] {
      ReplacesFacts(s, u, w);
      assert !Puts(s, order[k], u, s.vers[w].rec);
    }
  }

  lemma {:induction false} ReplayAll(s: State, order: seq<Tid>, k: nat)
    requires Inv(s) && Serial(s, order) && k <= |order|
    ensures Replayed(s, order[..k])
  {
    hide Inv, Serial;
    if k == 0 { assert order[..0] == []; } else {
      ReplayAll(s, order, k - 1);
      ReplayStep(s, order, k - 1);
    }
  }

  lemma NotIn(order: seq<Tid>, k: nat, x: Tid)
    requires k < |order| && x !in order[..k + 1]
    ensures x !in order[..k]
  {
    assert order[..k + 1] == order[..k] + [order[k]];
  }

  /** What order[k] read was on top when it ran. */
  lemma ReadIsTop(s: State, order: seq<Tid>, k: nat, v: Vid)
    requires Inv(s) && Serial(s, order) && k < |order| && HasTxn(s, order[k]) && v in s.txns[order[k]].seen
    requires HasVer(s, v)
    ensures Top(s, order[..k], v)
  {
    hide Serial, Shapes, Chains, BitSide, ReadSide, WriteSide, Facts, PivotSide, Roots, S2Side, Waits;
    var t := order[k];
    NotYet(s, order, k);
    ReadsCommitted(s, t, v);
    CommittedStamp(s, t);
    GetFacts(s, t);
    assert WriteRead(s, s.vers[v].creator, t, v);
    assert Depends(s, s.vers[v].creator, t);
    Earlier(s, order, k, s.vers[v].creator);
    forall u: Vid | Replaces(s, u, v) ensures s.vers[u].creator !in order[..k] {
      var x := s.vers[u].creator;
      if x != t {
        assert ReadWrite(s, t, x, u);
        Backwards(s, order, k, x);
        NotIn(order, k, x);
      }
    }
  }

  /** Every serial order replays to the same reads and the same database. */
  lemma SerialAgrees(s: State, order: seq<Tid>)
    requires Inv(s) && Serial(s, order)
    ensures Agrees(s, order)
  {
    hide Inv, Serial, Current;
    forall k, v | 0 <= k < |order| && HasTxn(s, order[k]) && v in s.txns[order[k]].seen && HasVer(s, v)
      ensures Current(s, order[..k], s.vers[v].rec) == Some(v)
    {
      ReplayAll(s, order, k);
      ReadIsTop(s, order, k, v);
    }
    ReplayAll(s, order, |order|);
    assert order[..|order|] == order;
    forall v: Vid ensures Top(s, order, v) <==> Head(s, v) { TopIsHead(s, order, v); }
  }

  lemma TopIsHead(s: State, order: seq<Tid>, v: Vid)
    requires Serial(s, order)
    ensures Top(s, order, v) <==> Head(s, v)
  {
  }

  // ---------------------------------------------------------------- the serial order of a certifier

  /** SSN orders by successor stamp, MVOCC by commit stamp. */
  predicate Precedes(s: State, a: Tid, b: Tid) {
    && HasTxn(s, a) && HasTxn(s, b)
    && if s.cert.SSN? then SsnBefore(s, a, b) else s.txns[a].got < s.txns[b].got
  }

  /** The committed transactions among the first n, in the certifier's order. */
  ghost predicate Sorted(s: State, n: nat, order: seq<Tid>) {
    && (forall i :: 0 <= i < |order| ==> order[i] < n && Committed(s, order[i]))
    && (forall t: Tid :: t < n && Committed(s, t) ==> t in order)
    && (forall i, j :: 0 <= i < j < |order| ==> Precedes(s, order[i], order[j]))
  }

  lemma {:induction false} Insert(s: State, order: seq<Tid>, t: Tid) returns (r: seq<Tid>)
    requires Inv(s) && Committed(s, t) && t !in order
    requires forall i :: 0 <= i < |order| ==> Committed(s, order[i])
    requires forall i, j :: 0 <= i < j < |order| ==> Precedes(s, order[i], order[j])
    ensures forall x :: x in r <==> x in order || x == t
    ensures forall i :: 0 <= i < |r| ==> Committed(s, r[i])
    ensures forall i, j :: 0 <= i < j < |r| ==> Precedes(s, r[i], r[j])
    decreases |order|
  {
    hide Inv, SsnBefore;
    if order == [] { return [t]; }
    var n := |order| - 1;
    var z := order[n];
    Differ(s, z, t);
    if Precedes(s, z, t) {
      r := order + [t];
      forall i | 0 <= i < n ensures Precedes(s, order[i], t) { Chain(s, order[i], z, t); }
    } else {
      var q := Insert(s, order[..n], t);
      r := q + [z];
      assert order == order[..n] + [z];
      AllBefore(s, order, n, t, q);
    }
  }

  lemma Chain(s: State, a: Tid, b: Tid, c: Tid)
    requires Precedes(s, a, b) && Precedes(s, b, c)
    ensures Precedes(s, a, c)
  {
  }

  lemma AllBefore(s: State, order: seq<Tid>, n: nat, t: Tid, q: seq<Tid>)
    requires n < |order| && Precedes(s, t, order[n]) && forall i, j :: 0 <= i < j < |order| ==>
      Precedes(s, order[i], order[j])
    requires forall x :: x in q <==> x in order[..n] || x == t
    ensures forall i :: 0 <= i < |q| ==> Precedes(s, q[i], order[n])
  {
    hide Precedes;
    forall i | 0 <= i < |q| ensures Precedes(s, q[i], order[n]) {
      assert q[i] in q;
      if q[i] != t { var j :| 0 <= j < n && order[..n][j] == q[i]; }
    }
  }

  lemma Differ(s: State, a: Tid, b: Tid)
    requires Inv(s) && Committed(s, a) && Committed(s, b) && a != b
    ensures HasTxn(s, a) && HasTxn(s, b) && (Precedes(s, a, b) || Precedes(s, b, a))
  {
    hide Shapes;
    StampsDiffer(s, a, b);
  }

  lemma {:induction false} SortUpTo(s: State, n: nat) returns (order: seq<Tid>)
    requires Inv(s) && n <= |s.txns|
    ensures Sorted(s, n, order)
  {
    hide Inv;
    if n == 0 { return []; }
    order := SortUpTo(s, n - 1);
    if Committed(s, n - 1) {
      order := Insert(s, order, n - 1);
      forall i | 0 <= i < |order| ensures order[i] < n && Committed(s, order[i]) { assert order[i] in order; }
    }
  }

  lemma SortedIsSerial(s: State, order: seq<Tid>)
    requires Inv(s) && !s.cert.SSI? && Sorted(s, |s.txns|, order)
    ensures Serial(s, order)
  {
    hide Inv, Depends;
    forall i, j | 0 <= i < |order| && 0 <= j < |order| && Depends(s, order[i], order[j]) ensures i < j {
      if s.cert.SSN? { SsnEdge(s, order[i], order[j]); } else { MvoccEdge(s, order[i], order[j]); }
    }
  }

  /** SSN: the order by successor stamp, later commits first among equals, is a serial order of the run. */
  lemma SsnSerial(s: State, order: seq<Tid>)
    requires Reachable(s) && s.cert.SSN? && Sorted(s, |s.txns|, order)
    ensures Serial(s, order) && Agrees(s, order)
  {
    hide Inv, Sorted, Serial, Agrees;
    ReachInv(s);
    SortedIsSerial(s, order);
    SerialAgrees(s, order);
  }

  /** MVOCC: the order of commit stamps is a serial order of the run. */
  lemma MvoccSerial(s: State, order: seq<Tid>)
    requires Reachable(s) && s.cert.MVOCC? && Sorted(s, |s.txns|, order)
    ensures Serial(s, order) && Agrees(s, order)
  {
    hide Inv, Sorted, Serial, Agrees;
    ReachInv(s);
    SortedIsSerial(s, order);
    SerialAgrees(s, order);
  }

  /** The certifier's order exists: what SSN and MVOCC commit is serializable. */
  lemma Serializable(s: State)
    requires Reachable(s) && !s.cert.SSI?
    ensures exists order: seq<Tid> :: Sorted(s, |s.txns|, order) && Serial(s, order) && Agrees(s, order)
  {
    hide Inv, Sorted, Serial, Agrees;
    ReachInv(s);
    var order := SortUpTo(s, |s.txns|);
    SortedIsSerial(s, order);
    SerialAgrees(s, order);
  }
}
