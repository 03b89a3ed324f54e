/** gc_version_chain (dbcore/sm-alloc.cpp:88-165): cutting the old end of a version chain in place. */
module VersionGc {

  /** Object::_clsn: recycled, in flight, committed, or in a checkpoint file. */
  datatype Clsn = Null | Xid | Log(n: nat) | Chk

  class Object {
    var clsn: Clsn
    var next: Object?

    constructor (clsn: Clsn, next: Object?)
      ensures this.clsn == clsn && this.next == next
    {
      this.clsn, this.next := clsn, next;
    }
  }

  /** TlsFreeObjectPool. */
  class Pool {
    var items: seq<Object>

    constructor ()
      ensures items == []
    {
      items := [];
    }
  }

  /** chain lists the objects reached from p, each once. */
  ghost predicate IsChain(p: Object?, chain: seq<Object>)
    reads chain
  {
    && (p == if chain == [] then null else chain[0])
    && (forall i, j :: 0 <= i < j < |chain| ==> chain[i] != chain[j])
    && (forall i :: 0 <= i < |chain| ==> chain[i].next == if i + 1 < |chain| then chain[i + 1] else null)
  }

  ghost function Stamps(chain: seq<Object>): (r: seq<Clsn>)
    reads chain
    ensures |r| == |chain|
  {
    seq(|chain|, i requires 0 <= i < |chain| reads chain => chain[i].clsn)
  }

  // ---------------------------------------------------------------- on stamps

  /** Commit stamps fall along the chain; nothing lies behind a committed version but older committed ones. */
  predicate Ordered(s: seq<Clsn>) {
    forall i, j :: 0 <= i < j < |s| && s[i].Log? ==> s[j].Log? && s[j].n < s[i].n
  }

  /** The version a snapshot at time t reads: the first one stamped no later. */
  function See(s: seq<Clsn>, t: nat): (r: nat)
    ensures r <= |s| && (r < |s| ==> s[r].Log? && s[r].n <= t)
    ensures forall i :: 0 <= i < r ==> !(s[i].Log? && s[i].n <= t)
    decreases |s|
  {
    if s == [] then 0 else if s[0].Log? && s[0].n <= t then 0 else 1 + See(s[1..], t)
  }

  /** The walk from position i: the number of versions to keep. */
  function Cut(s: seq<Clsn>, g: nat, i: nat): (k: nat)
    requires i <= |s|
    ensures i <= k <= |s| || k == |s|
    ensures k < |s| ==> k > i && s[k - 1].Log? && s[k - 1].n <= g
    decreases |s| - i
  {
    if i == |s| || !s[i].Log? then |s|
    else if s[i].n <= g && i + 1 < |s| then i + 1
    else Cut(s, g, i + 1)
  }

  /** Not committed, in memory or in a checkpoint. */
  predicate InFlight(c: Clsn) { !c.Log? && !c.Chk? }

  /** What gc_version_chain keeps: it starts behind the first committed version. */
  function Kept(s: seq<Clsn>, g: nat): (k: nat)
    requires |s| >= 1 && (InFlight(s[0]) ==> |s| >= 2)
    ensures k <= |s|
  {
    if s[0].Chk? then |s| else Cut(s, g, if InFlight(s[0]) then 2 else 1)
  }

  /** The position of the first committed version, for a chain whose head is committed or in flight. */
  function FirstCommitted(s: seq<Clsn>): nat
    requires |s| >= 1
  {
    if InFlight(s[0]) then 1 else 0
  }

  /** Version j lies behind the first committed one, in an unbroken row of committed versions, and is no later than g:
      nothing behind it is needed. */
  predicate Enough(s: seq<Clsn>, g: nat, j: nat)
    requires |s| >= 1 && j < |s|
  {
    && !s[0].Chk? && FirstCommitted(s) < j && s[j].Log? && s[j].n <= g
    && forall i :: FirstCommitted(s) < i < j ==> s[i].Log?
  }

  lemma {:induction false} CutLeast(s: seq<Clsn>, g: nat, i: nat, j: nat)
    requires i <= j < |s| && s[j].Log? && s[j].n <= g && forall m :: i <= m < j ==> s[m].Log?
    ensures Cut(s, g, i) <= j + 1
    decreases j - i
  {
    if i < j { CutLeast(s, g, i + 1, j); }
  }

  lemma {:induction false} CutRow(s: seq<Clsn>, g: nat, i: nat)
    requires i <= |s|
    ensures Cut(s, g, i) < |s| ==> i < Cut(s, g, i) && forall m :: i <= m < Cut(s, g, i) ==> s[m].Log?
    decreases |s| - i
  {
    if i < |s| && s[i].Log? { CutRow(s, g, i + 1); }
  }

  /** What is kept ends with the first version that is enough, and is everything when there is none. */
  lemma KeptExact(s: seq<Clsn>, g: nat)
    requires |s| >= 1 && (InFlight(s[0]) ==> |s| >= 2)
    ensures forall j :: 0 <= j < |s| && Enough(s, g, j) ==> Kept(s, g) <= j + 1
    ensures Kept(s, g) < |s| ==> Kept(s, g) >= 1 && Enough(s, g, Kept(s, g) - 1)
  {
    if !s[0].Chk? {
      var f := FirstCommitted(s);
      CutRow(s, g, f + 1);
      forall j | 0 <= j < |s| && Enough(s, g, j) ensures Kept(s, g) <= j + 1 { CutLeast(s, g, f + 1, j); }
    }
  }

  /** Every snapshot at g or later sees the same version before and after. */
  lemma CutKeepsSnapshots(s: seq<Clsn>, g: nat, t: nat)
    requires |s| >= 1 && (InFlight(s[0]) ==> |s| >= 2) && Ordered(s) && g <= t
    ensures See(s[..Kept(s, g)], t) == See(s, t)
    ensures See(s, t) < |s| ==> See(s, t) < Kept(s, g)
  {
    var k := Kept(s, g);
    if k < |s| {
      assert See(s, t) <= k - 1;
      FirstIs(s[..k], t, See(s, t));
    } else {
      assert s[..k] == s;
    }
  }

  lemma FirstIs(s: seq<Clsn>, t: nat, r: nat)
    requires r < |s| && s[r].Log? && s[r].n <= t && forall i :: 0 <= i < r ==> !(s[i].Log? && s[i].n <= t)
    ensures See(s, t) == r
  {
  }

  /** Version i is older than version k - 1, which is itself no later than g. */
  predicate CutFor(s: seq<Clsn>, k: nat, i: nat, g: nat)
    requires i < |s| && k <= |s|
  {
    k >= 2 && s[k - 1].Log? && s[k - 1].n <= g && s[i].Log? && s[i].n < s[k - 1].n
  }

  /** A version that is cut is older than some kept version that no later snapshot can miss. */
  lemma CutIsOld(s: seq<Clsn>, g: nat, i: nat)
    requires |s| >= 1 && (InFlight(s[0]) ==> |s| >= 2) && Ordered(s) && Kept(s, g) <= i < |s|
    ensures CutFor(s, Kept(s, g), i, g)
  {
  }

  // ---------------------------------------------------------------- in place

  ghost predicate Distinct(chain: seq<Object>) { forall i, j :: 0 <= i < j < |chain| ==> chain[i] != chain[j] }

  /** From position i on each object points to the next, and is committed no later than g. */
  ghost predicate Rest(chain: seq<Object>, i: nat, g: nat)
    reads chain
  {
    forall j :: i <= j < |chain| ==> RestAt(chain, j, g)
  }

  ghost predicate RestAt(chain: seq<Object>, j: nat, g: nat)
    requires j < |chain|
    reads chain
  {
    chain[j].clsn.Log? && chain[j].clsn.n <= g && chain[j].next == if j + 1 < |chain| then chain[j + 1] else null
  }

  /** The inner loop: the whole rest is recycled, in order, into the pool. */
  method Recycle(first: Object?, g: nat, ghost rest: seq<Object>, pool: Pool)
    requires rest != [] && first == rest[0] && Distinct(rest) && Rest(rest, 0, g)
    modifies rest, pool
    ensures forall i :: 0 <= i < |rest| ==> rest[i].clsn == Null && rest[i].next == null
    ensures pool.items == old(pool.items) + rest
  {
    var ptr := first;
    ghost var i := 0;
    while ptr != null
      invariant 0 <= i <= |rest| && ptr == if i < |rest| then rest[i] else null
      invariant forall j :: 0 <= j < i ==> rest[j].clsn == Null && rest[j].next == null
      invariant Rest(rest, i, g)
      invariant pool.items == old(pool.items) + rest[..i]
      decreases |rest| - i
    {
      assert RestAt(rest, i, g);
      assert ptr.clsn.Log? && ptr.clsn.n <= g;
      var next := ptr.next;
      label Before:
      ptr.clsn := Null;
      ptr.next := null;
      pool.items := pool.items + [ptr];
      forall j | i < j < |rest| ensures RestAt(rest, j, g) {
        assert old@Before(RestAt(rest, j, g)) && rest[j] != rest[i];
      }
      ptr := next;
      i := i + 1;
    }
  }

  /** gc_version_chain on the chain that starts at entry, with gc_lsn g. */
  method Trim(entry: Object?, g: nat, pool: Pool, ghost chain: seq<Object>)
    requires IsChain(entry, chain) && Ordered(Stamps(chain))
    requires chain != [] && InFlight(chain[0].clsn) ==> |chain| >= 2
    modifies chain, pool
    ensures chain == [] ==> pool.items == old(pool.items)
    ensures chain != [] ==>
      var k := Kept(old(Stamps(chain)), g);
      && IsChain(entry, chain[..k]) && Stamps(chain[..k]) == old(Stamps(chain))[..k]
      && (forall i :: k <= i < |chain| ==> chain[i].clsn == Null && chain[i].next == null)
      && pool.items == old(pool.items) + chain[k..]
      && (forall t: nat :: g <= t ==> See(Stamps(chain[..k]), t) == See(old(Stamps(chain)), t))
      && (forall i :: k <= i < |chain| ==> CutFor(old(Stamps(chain)), k, i, g))
      && (forall j :: 0 <= j < |chain| && Enough(old(Stamps(chain)), g, j) ==> k <= j + 1)
      && (k < |chain| ==> k >= 1 && Enough(old(Stamps(chain)), g, k - 1))
  {
    if entry == null { return; }
    ghost var s := Stamps(chain);
    KeptExact(s, g);
    forall t: nat | g <= t ensures See(s[..Kept(s, g)], t) == See(s, t) { CutKeepsSnapshots(s, g, t); }
    forall i | Kept(s, g) <= i < |chain| ensures CutFor(s, Kept(s, g), i, g) { CutIsOld(s, g, i); }
    assert chain[..|chain|] == chain && chain[|chain|..] == [];
    var cur := FindCut(entry, g, chain);
    if cur != null { CutHere(cur, cur.next, g, pool, chain, Kept(Stamps(chain), g)); }
  }

  /** The walk: the version to cut behind, if there is one. */
  method FindCut(entry: Object, g: nat, ghost chain: seq<Object>) returns (r: Object?)
    requires IsChain(entry, chain) && (InFlight(chain[0].clsn) ==> |chain| >= 2)
    ensures var k := Kept(Stamps(chain), g);
      if r == null then k == |chain|
      else 1 <= k < |chain| && chain[k - 1] == r && r.next == chain[k] && r.clsn.Log? && r.clsn.n <= g
  {
    ghost var s := Stamps(chain);
    assert s[0] == entry.clsn;
    if entry.clsn.Chk? { return null; }
    var cur := entry;
    ghost var i: nat := 0;
    NextIs(entry, chain, 0);
    if InFlight(cur.clsn) {
      cur := cur.next;
      i := 1;
      NextIs(entry, chain, 1);
    }
    var ptr := cur.next;
    i := i + 1;
    while ptr != null
      invariant 1 <= i <= |chain| && ptr == (if i < |chain| then chain[i] else null) && Kept(s, g) == Cut(s, g, i)
      decreases |chain| - i
    {
      cur := ptr;
      assert s[i] == cur.clsn;
      if !cur.clsn.Log? { return null; }
      NextIs(entry, chain, i);
      ptr := cur.next;
      i := i + 1;
      if cur.clsn.n <= g && ptr != null { return cur; }
    }
    return null;
  }

  lemma NextIs(p: Object?, chain: seq<Object>, i: nat)
    requires IsChain(p, chain) && i < |chain|
    ensures chain[i].next == if i + 1 < |chain| then chain[i + 1] else null
  {
  }

  /** The cut behind cur == chain[k - 1]. */
  method CutHere(cur: Object, ptr: Object?, g: nat, pool: Pool, ghost chain: seq<Object>, ghost k: nat)
    requires 1 <= k < |chain| && chain[k - 1] == cur && ptr == chain[k] && IsChain(chain[0], chain)
    requires Ordered(Stamps(chain)) && cur.clsn.Log? && cur.clsn.n <= g
    modifies chain, pool
    ensures IsChain(chain[0], chain[..k]) && Stamps(chain[..k]) == old(Stamps(chain))[..k]
    ensures forall i :: k <= i < |chain| ==> chain[i].clsn == Null && chain[i].next == null
    ensures pool.items == old(pool.items) + chain[k..]
  {
    ghost var rest := chain[k..];
    RestIs(chain, k, g);
    cur.next := null;
    Recycle(ptr, g, rest, pool);
    assert forall i :: 0 <= i < k ==> chain[..k][i] == chain[i] && chain[i] !in rest;
    assert forall i :: k <= i < |chain| ==> chain[i] == rest[i - k];
  }

  lemma RestIs(chain: seq<Object>, k: nat, g: nat)
    requires 1 <= k < |chain| && IsChain(chain[0], chain) && Ordered(Stamps(chain))
    requires chain[k - 1].clsn.Log? && chain[k - 1].clsn.n <= g
    ensures Rest(chain[k..], 0, g) && Distinct(chain[k..]) && chain[k - 1] !in chain[k..]
  {
    var s, rest := Stamps(chain), chain[k..];
    assert s[k - 1] == chain[k - 1].clsn;
    forall j | 0 <= j < |rest|
      ensures RestAt(rest, j, g)
    {
      assert s[k + j] == rest[j].clsn;
      NextIs(chain[0], chain, k + j);
    }
  }
}
