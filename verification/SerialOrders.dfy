/** A serial order exists exactly when the dependencies among the committed transactions are acyclic. */
module SerialOrders {
  import opened Engine
  import opened Dependencies
  import opened Replay

  function Members(p: seq<Tid>): set<Tid> { set i | 0 <= i < |p| :: p[i] }

  lemma MembersCons(x: Tid, p: seq<Tid>)
    ensures Members([x] + p) == Members(p) + {x}
  {
    var q := [x] + p;
    assert q[0] == x;
    forall y | y in Members(p) ensures y in Members(q) {
      var i :| 0 <= i < |p| && p[i] == y;
      assert q[i + 1] == y;
    }
  }

  /** A walk along dependencies inside c, without repetition. */
  ghost predicate Walk(s: State, c: set<Tid>, p: seq<Tid>) {
    && p != [] && Members(p) <= c && (forall i, j :: 0 <= i < j < |p| ==> p[i] != p[j])
    && forall i :: 0 <= i < |p| - 1 ==> Depends(s, p[i], p[i + 1])
  }

  ghost predicate Acyclic(s: State) { forall p: seq<Tid> :: !Cycle(s, p) }

  /** Whom the head of a walk depends on is not on the walk. */
  lemma NotBack(s: State, c: set<Tid>, p: seq<Tid>, x: Tid)
    requires Acyclic(s) && Walk(s, c, p) && Depends(s, x, p[0])
    ensures x !in p
  {
    hide Depends;
    if j: nat :| j < |p| && p[j] == x {
      var q := [x] + p[..j + 1];
      forall i | 0 <= i < |q| - 1 ensures Depends(s, q[i], q[i + 1]) { if i > 0 { assert q[i] == p[i - 1]; } }
      assert Cycle(s, q);
    }
  }

  /** Walking backwards inside c ends at a transaction that depends on no other of c. */
  lemma {:induction false} Source(s: State, c: set<Tid>, p: seq<Tid>) returns (t: Tid)
    requires Acyclic(s) && Walk(s, c, p)
    ensures t in c && forall x: Tid :: x in c ==> !Depends(s, x, t)
    decreases c - Members(p)
  {
    hide Depends, Acyclic;
    if x: Tid :| x in c && Depends(s, x, p[0]) {
      NotBack(s, c, p, x);
      var q := [x] + p;
      MembersCons(x, p);
      forall i | 0 <= i < |q| - 1 ensures Depends(s, q[i], q[i + 1]) { if i > 0 { assert q[i] == p[i - 1]; } }
      t := Source(s, c, q);
    } else {
      t := p[0];
    }
  }

  /** The transactions of c, each once, along their dependencies. */
  ghost predicate Ordered(s: State, c: set<Tid>, order: seq<Tid>) {
    && Members(order) == c && (forall i, j :: 0 <= i < j < |order| ==> order[i] != order[j])
    && forall i, j :: 0 <= i < |order| && 0 <= j < |order| && Depends(s, order[i], order[j]) ==> i < j
  }

  lemma {:induction false} OrderOf(s: State, c: set<Tid>) returns (order: seq<Tid>)
    requires Acyclic(s)
    ensures Ordered(s, c, order)
    decreases c
  {
    if c == {} { return []; }
    hide Acyclic;
    var y :| y in c;
    var t := Source(s, c, [y]);
    var rest := OrderOf(s, c - {t});
    order := [t] + rest;
    hide Depends;
    MembersCons(t, rest);
    forall i, j | 0 <= i < |order| && 0 <= j < |order| && Depends(s, order[i], order[j]) ensures i < j {
      assert order[i] in Members(order);
      if i > 0 && j > 0 { assert order[i] == rest[i - 1] && order[j] == rest[j - 1]; }
    }
  }

  lemma OrderedIsSerial(s: State, c: set<Tid>, order: seq<Tid>)
    requires Ordered(s, c, order) && forall t: Tid :: t in c <==> Committed(s, t)
    ensures Serial(s, order)
  {
    hide Depends, Committed;
    forall i | 0 <= i < |order| ensures Committed(s, order[i]) { assert order[i] in Members(order); }
  }

  /** The position of p[k] on a walk only grows. */
  lemma {:induction false} Later(s: State, order: seq<Tid>, p: seq<Tid>, k: nat, i: nat, j: nat)
    requires Serial(s, order) && Cycle(s, p) && 1 <= k < |p|
    requires i < |order| && order[i] == p[0] && j < |order| && order[j] == p[k]
    ensures i < j
  {
    hide Depends;
    assert Depends(s, p[k - 1], p[k]);
    if k > 1 {
      DependsCommitted(s, p[k - 1], p[k]);
      var m: nat :| m < |order| && order[m] == p[k - 1];
      Later(s, order, p, k - 1, i, m);
    }
  }

  lemma SerialNoCycle(s: State, order: seq<Tid>, p: seq<Tid>)
    requires Serial(s, order)
    ensures !Cycle(s, p)
  {
    hide Depends;
    if Cycle(s, p) {
      assert Depends(s, p[0], p[1]);
      DependsCommitted(s, p[0], p[1]);
      var i: nat :| i < |order| && order[i] == p[0];
      Later(s, order, p, |p| - 1, i, i);
    }
  }

  /** What was committed can be put in a serial order exactly when it has no cycle. */
  lemma SerialIffAcyclic(s: State)
    ensures (exists order: seq<Tid> :: Serial(s, order)) <==> Acyclic(s)
  {
    hide Serial, Cycle;
    if order: seq<Tid> :| Serial(s, order) {
      forall p: seq<Tid> ensures !Cycle(s, p) { SerialNoCycle(s, order, p); }
    }
    if Acyclic(s) {
      var c := set t: Tid | 0 <= t < |s.txns| && Committed(s, t);
      var order := OrderOf(s, c);
      OrderedIsSerial(s, c, order);
    }
  }
}
