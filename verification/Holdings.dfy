/** Trade-Result frame 2 of TPC-E (benchmarks/tpce.cc:2463-2779) for one account and symbol: the summary row,
    the holding rows in key order, and the history rows. */
module Holdings {
  import opened Options

  /** A holding.  The key orders rows by date and trade; the id is the trade alone. */
  datatype Row = Row(key: nat, id: nat, qty: int)

  /** A history row, with the trade and the holding for its key. */
  datatype Entry = Entry(trade: nat, holding: int, before: int, after: int)

  /** The i-th holding to be used: from the oldest on, or from the newest. */
  function Nth(lifo: bool, rows: seq<Row>, i: nat): Row
    requires i < |rows|
  {
    if lifo then rows[|rows| - 1 - i] else rows[i]
  }

  /** Whatever was changed or removed is older than whatever was left alone; newer, for LIFO. */
  predicate TakenInOrder(lifo: bool, before: seq<Row>, after: seq<Row>) {
    forall x, y :: x in before && x !in after && y in before && y in after ==>
      if lifo then x.key > y.key else x.key < y.key
  }

  predicate Names(e: Entry, row: Row) { e.holding == Int32(row.id) && e.before == row.qty }

  /** The i-th history row of a trade is about the i-th holding to be used, which all but the last use up; a row about
      no holding comes last and is about the trade itself. */
  predicate LoggedInOrder(lifo: bool, trade: nat, before: seq<Row>, log: seq<Entry>) {
    forall i :: 0 <= i < |log| ==>
      && log[i].trade == trade && (i + 1 < |log| ==> log[i].after == 0)
      && if log[i].before == 0 then i == |log| - 1 && log[i].holding == trade
         else i < |before| && Names(log[i], Nth(lifo, before, i))
  }

  // ---------------------------------------------------------------- 32-bit columns

  predicate Fits(x: int) { -0x8000_0000 <= x <= 0x7fff_ffff }

  /** Conversion to int: hold_id is one, so a holding's trade loses its upper bits (tpce.cc:2469, 2532). */
  function Int32(x: int): (r: int)
    ensures Fits(r)
  {
    (x + 0x8000_0000) % 0x1_0000_0000 - 0x8000_0000
  }

  /** The history names the right holding exactly when its trade fits an int. */
  lemma NamesHolding(id: nat)
    ensures Int32(id) == id <==> id <= 0x7fff_ffff
  {
  }

  /** Columns of a history row. */
  predicate EntryFits(e: Entry) { Fits(e.before) && Fits(e.after) }

  // ---------------------------------------------------------------- rows

  function Sum(rows: seq<Row>): int { if rows == [] then 0 else rows[0].qty + Sum(rows[1..]) }

  function Moved(log: seq<Entry>): int { if log == [] then 0 else log[0].after - log[0].before + Moved(log[1..]) }

  function Reverse(rows: seq<Row>): (r: seq<Row>)
    ensures |r| == |rows| && forall i :: 0 <= i < |r| ==> r[i] == rows[|rows| - 1 - i]
  {
    if rows == [] then [] else Reverse(rows[1..]) + [rows[0]]
  }

  /** The order in which a scan is consumed: from the oldest, or reversed. */
  function Arrange(lifo: bool, rows: seq<Row>): (r: seq<Row>)
    ensures |r| == |rows|
  {
    if lifo then Reverse(rows) else rows
  }

  predicate Keyed(rows: seq<Row>) { forall i, j :: 0 <= i < j < |rows| ==> rows[i].key < rows[j].key }

  predicate HasKey(rows: seq<Row>, key: nat) { exists i :: 0 <= i < |rows| && rows[i].key == key }

  /** The table operations, by key. */
  function Remove(rows: seq<Row>, key: nat): seq<Row> {
    if rows == [] then [] else if rows[0].key == key then rows[1..] else [rows[0]] + Remove(rows[1..], key)
  }

  function Put(rows: seq<Row>, row: Row): seq<Row> {
    if rows == [] then [] else if rows[0].key == row.key then [row] + rows[1..] else [rows[0]] + Put(rows[1..], row)
  }

  function Insert(rows: seq<Row>, row: Row): seq<Row> {
    if rows == [] || row.key < rows[0].key then [row] + rows else [rows[0]] + Insert(rows[1..], row)
  }

  /** All holdings have the sign of the side that a trade reduces: long for a sell, short for a buy. */
  predicate Side(rows: seq<Row>, sell: bool) {
    forall i :: 0 <= i < |rows| ==> if sell then rows[i].qty > 0 else rows[i].qty < 0
  }

  // ---------------------------------------------------------------- liquidation, on values

  /** The quantity of a holding, whichever its sign. */
  function Size(q: int): nat { if q < 0 then -q else q }

  /** q reduced by n towards zero. */
  function Less(q: int, n: nat): int { if q < 0 then q + n else q - n }

  function Remain(out: seq<Row>, n: nat): seq<Row> {
    if out == [] || n == 0 then out
    else if Size(out[0].qty) > n then [out[0].(qty := Less(out[0].qty, n))] + out[1..]
    else Remain(out[1..], n - Size(out[0].qty))
  }

  function Left(out: seq<Row>, n: nat): nat {
    if out == [] || n == 0 then n
    else if Size(out[0].qty) > n then 0
    else Left(out[1..], n - Size(out[0].qty))
  }

  function Logged(trade: nat, out: seq<Row>, n: nat): seq<Entry> {
    if out == [] || n == 0 then []
    else if Size(out[0].qty) > n then [Entry(trade, Int32(out[0].id), out[0].qty, Less(out[0].qty, n))]
    else [Entry(trade, Int32(out[0].id), out[0].qty, 0)] + Logged(trade, out[1..], n - Size(out[0].qty))
  }

  /** Signed: down for a sell, up for a buy. */
  function Signed(sell: bool, n: int): int { if sell then -n else n }

  /** What leaves the holdings is what the history records, and what is left over is asked of an empty table. */
  lemma {:induction false} Conserved(trade: nat, out: seq<Row>, n: nat, sell: bool)
    requires Side(out, sell)
    ensures Side(Remain(out, n), sell) && Left(out, n) <= n
    ensures Sum(Remain(out, n)) == Sum(out) + Signed(sell, n - Left(out, n))
    ensures Moved(Logged(trade, out, n)) == Signed(sell, n - Left(out, n))
    ensures Left(out, n) > 0 ==> Remain(out, n) == []
  {
    if out != [] && n != 0 {
      var r := out[0];
      if Size(r.qty) > n {
        var out' := [r.(qty := Less(r.qty, n))] + out[1..];
        assert out'[1..] == out[1..];
      } else {
        Conserved(trade, out[1..], n - Size(r.qty), sell);
        var e, l := Entry(trade, Int32(r.id), r.qty, 0), Logged(trade, out[1..], n - Size(r.qty));
        assert ([e] + l)[1..] == l;
      }
    }
  }

  lemma {:induction false} SumAppend(a: seq<Row>, b: seq<Row>)
    ensures Sum(a + b) == Sum(a) + Sum(b)
  {
    if a == [] { assert a + b == b; } else {
      SumAppend(a[1..], b);
      assert (a + b)[1..] == a[1..] + b;
    }
  }

  lemma {:induction false} SumReverse(a: seq<Row>)
    ensures Sum(Reverse(a)) == Sum(a)
  {
    if a != [] {
      SumReverse(a[1..]);
      SumAppend(Reverse(a[1..]), [a[0]]);
      assert [a[0]][1..] == [];
    }
  }

  lemma {:induction false} MovedAppend(a: seq<Entry>, b: seq<Entry>)
    ensures Moved(a + b) == Moved(a) + Moved(b)
  {
    if a == [] { assert a + b == b; } else {
      MovedAppend(a[1..], b);
      assert (a + b)[1..] == a[1..] + b;
    }
  }

  lemma {:induction false} SumInsert(rows: seq<Row>, row: Row)
    ensures Sum(Insert(rows, row)) == Sum(rows) + row.qty
  {
    if rows == [] || row.key < rows[0].key {
      assert ([row] + rows)[1..] == rows;
    } else {
      SumInsert(rows[1..], row);
      assert ([rows[0]] + Insert(rows[1..], row))[1..] == Insert(rows[1..], row);
    }
  }

  lemma {:induction false} InsertKeyed(rows: seq<Row>, row: Row, sell: bool)
    requires Keyed(rows) && !HasKey(rows, row.key) && Side(rows, sell) && Side([row], sell)
    ensures Keyed(Insert(rows, row)) && Side(Insert(rows, row), sell)
    ensures forall x :: x in Insert(rows, row) <==> x in rows || x == row
  {
    if rows != [] && row.key > rows[0].key {
      InsertKeyed(rows[1..], row, sell);
      var r := [rows[0]] + Insert(rows[1..], row);
      forall i | 1 <= i < |r| ensures rows[0].key < r[i].key { assert r[i] in Insert(rows[1..], row); }
    }
  }

  // ---------------------------------------------------------------- consuming a scan by key

  predicate Apart(out: seq<Row>) { forall i, j :: 0 <= i < j < |out| ==> out[i].key != out[j].key }

  lemma {:induction false} RemoveAt(rows: seq<Row>, i: nat)
    requires i < |rows| && Apart(rows)
    ensures Remove(rows, rows[i].key) == rows[..i] + rows[i + 1..]
  {
    if i > 0 { RemoveAt(rows[1..], i - 1); }
  }

  lemma {:induction false} PutAt(rows: seq<Row>, i: nat, q: int)
    requires i < |rows| && Apart(rows)
    ensures Put(rows, rows[i].(qty := q)) == rows[i := rows[i].(qty := q)]
  {
    if i > 0 { PutAt(rows[1..], i - 1, q); }
  }

  /** Removing or changing the row a cursor stands on, in a table that holds what the cursor has not passed. */
  lemma RemoveFront(lifo: bool, out: seq<Row>)
    requires out != [] && Apart(out)
    ensures Remove(Arrange(lifo, out), out[0].key) == Arrange(lifo, out[1..])
  {
    var rows := Arrange(lifo, out);
    var i := if lifo then |out| - 1 else 0;
    assert Apart(rows) && rows[i] == out[0];
    RemoveAt(rows, i);
  }

  lemma PutFront(lifo: bool, out: seq<Row>, q: int)
    requires out != [] && Apart(out)
    ensures Put(Arrange(lifo, out), out[0].(qty := q)) == Arrange(lifo, [out[0].(qty := q)] + out[1..])
  {
    var rows := Arrange(lifo, out);
    var i := if lifo then |out| - 1 else 0;
    assert Apart(rows) && rows[i] == out[0];
    PutAt(rows, i, q);
  }

  // ---------------------------------------------------------------- inserting into the history

  predicate HasEntry(history: seq<Entry>, e: Entry) {
    exists i :: 0 <= i < |history| && history[i].trade == e.trade && history[i].holding == e.holding
  }

  /** The rows of log can be inserted one after the other. */
  predicate Insertable(history: seq<Entry>, log: seq<Entry>)
    decreases |log|
  {
    log == [] || (!HasEntry(history, log[0]) && Insertable(history + [log[0]], log[1..]))
  }

  lemma {:induction false} InsertableAppend(h: seq<Entry>, a: seq<Entry>, e: Entry)
    ensures Insertable(h, a + [e]) <==> Insertable(h, a) && !HasEntry(h + a, e)
    decreases |a|
  {
    hide HasEntry;
    if a == [] {
      assert a + [e] == [e] && h + a == h && [e][1..] == [];
    } else {
      InsertableAppend(h + [a[0]], a[1..], e);
      assert (a + [e])[1..] == a[1..] + [e] && h + [a[0]] + a[1..] == h + a;
    }
  }

  /** No row of log meets a key of the history, or that of another row of log. */
  predicate NewKeys(history: seq<Entry>, log: seq<Entry>) {
    && (forall i :: 0 <= i < |log| ==> !HasEntry(history, log[i]))
    && (forall i, j :: 0 <= i < j < |log| ==> log[i].trade != log[j].trade || log[i].holding != log[j].holding)
  }

  lemma HasEntryNext(h: seq<Entry>, x: Entry, e: Entry)
    ensures HasEntry(h + [x], e) <==> HasEntry(h, e) || (x.trade == e.trade && x.holding == e.holding)
  {
    var r := h + [x];
    assert r[|h|] == x;
    if HasEntry(h, e) {
      var i :| 0 <= i < |h| && h[i].trade == e.trade && h[i].holding == e.holding;
      assert r[i] == h[i];
    }
  }

  /** The history takes all rows exactly when their keys are new and differ. */
  lemma {:induction false} InsertableIs(h: seq<Entry>, log: seq<Entry>)
    ensures Insertable(h, log) <==> NewKeys(h, log)
    decreases |log|
  {
    hide HasEntry;
    if log != [] {
      var x, rest := log[0], log[1..];
      InsertableIs(h + [x], rest);
      forall i | 0 <= i < |rest|
        ensures HasEntry(h + [x], rest[i]) <==>
          HasEntry(h, log[i + 1]) || (x.trade == log[i + 1].trade && x.holding == log[i + 1].holding)
      {
        HasEntryNext(h, x, rest[i]);
      }
      if NewKeys(h, log) { assert NewKeys(h + [x], rest); }
      if NewKeys(h + [x], rest) && !HasEntry(h, x) { NewKeysCons(h, log); }
    }
  }

  lemma NewKeysCons(h: seq<Entry>, log: seq<Entry>)
    requires log != [] && !HasEntry(h, log[0]) && NewKeys(h + [log[0]], log[1..])
    ensures NewKeys(h, log)
  {
    hide HasEntry;
    var x, rest := log[0], log[1..];
    forall j | 1 <= j < |log|
      ensures !HasEntry(h, log[j]) && (x.trade != log[j].trade || x.holding != log[j].holding)
    {
      assert log[j] == rest[j - 1];
      HasEntryNext(h, x, log[j]);
    }
    forall i, j | 0 <= i < j < |log| ensures log[i].trade != log[j].trade || log[i].holding != log[j].holding {
      if i > 0 { assert log[i] == rest[i - 1] && log[j] == rest[j - 1]; }
    }
  }

  /** Two holdings whose trades differ by 2^32 cannot be used up by the same sell, even with an empty history. */
  lemma HistoryClash(trade: nat)
    ensures !Insertable([], Logged(trade, [Row(1, 1, 5), Row(2, 0x1_0000_0001, 5)], 10))
  {
    var a, b := Row(1, 1, 5), Row(2, 0x1_0000_0001, 5);
    assert [a, b][1..] == [b] && [b][1..] == [];
    assert Logged(trade, [b], 5) == [Entry(trade, 1, 5, 0)];
    var log := Logged(trade, [a, b], 10);
    assert log == [Entry(trade, 1, 5, 0), Entry(trade, 1, 5, 0)];
    InsertableIs([], log);
  }

  // ---------------------------------------------------------------- what a trade does, on values

  /** There are holdings of the kind that the trade reduces. */
  predicate Near(hs: int, sell: bool) { if sell then hs > 0 else hs < 0 }

  function Needs(hs: int, rows: seq<Row>, qty: nat, sell: bool, lifo: bool): nat {
    if Near(hs, sell) then Left(Arrange(lifo, rows), qty) else qty
  }

  function Middle(hs: int, rows: seq<Row>, qty: nat, sell: bool, lifo: bool): seq<Row> {
    if Near(hs, sell) then Arrange(lifo, Remain(Arrange(lifo, rows), qty)) else rows
  }

  function First(hs: int, trade: nat, rows: seq<Row>, qty: nat, sell: bool, lifo: bool): seq<Entry> {
    if Near(hs, sell) then Logged(trade, Arrange(lifo, rows), qty) else []
  }

  /** The history rows of a trade. */
  function Plan(hs: int, trade: nat, rows: seq<Row>, qty: nat, sell: bool, lifo: bool): seq<Entry> {
    var n := Needs(hs, rows, qty, sell, lifo);
    First(hs, trade, rows, qty, sell, lifo) + if n > 0 then [Entry(trade, trade, 0, Signed(sell, n))] else []
  }

  /** The int arithmetic on the position overflows: the new position, or the negation of the old one in a buy. */
  predicate Overflows(hs: int, qty: nat, sell: bool) {
    !Fits(hs + Signed(sell, qty)) || (!sell && hs != 0 && !Fits(-hs))
  }

  /** The tables take all new rows. */
  predicate Accepts(hs: int, history: seq<Entry>, rows: seq<Row>, trade: nat, key: nat,
                    qty: nat, sell: bool, lifo: bool)
  {
    && Insertable(history, Plan(hs, trade, rows, qty, sell, lifo))
    && (Needs(hs, rows, qty, sell, lifo) > 0 ==> !HasKey(Middle(hs, rows, qty, sell, lifo), key))
  }

  /** Done; a table refused a row, which aborts the transaction; or arithmetic that the language does not define. */
  datatype Outcome = Done | Refused | Overflow

  // ---------------------------------------------------------------- the frame

  class Account {
    var summary: Option<int>
    var rows: seq<Row>
    var history: seq<Entry>

    /** hs_qty as frame 1 reports it: a missing row means zero. */
    function Position(): int
      reads this
    {
      if summary.Some? then summary.value else 0
    }

    /** The summary is the sum of the holdings, which all lie on one side; a flat position has no summary row. */
    ghost predicate Consistent()
      reads this
    {
      && Sum(rows) == Position() && Fits(Position()) && (summary.Some? ==> summary.value != 0)
      && Keyed(rows) && (Side(rows, true) || Side(rows, false))
    }

    constructor ()
      ensures Consistent() && Position() == 0 && rows == [] && history == []
    {
      summary, rows, history := None, [], [];
    }

    /** The loop over the scanned holdings, in FIFO or LIFO order, for a sell or a buy.  It ends early when the
        history refuses a row. */
    method Liquidate(trade: nat, qty: nat, lifo: bool, sell: bool) returns (ok: bool, needed: nat)
      requires Side(rows, sell) && Keyed(rows) && Fits(qty) && Fits(Sum(rows))
      modifies this`rows, this`history
      ensures ok <==> Insertable(old(history), Logged(trade, Arrange(lifo, old(rows)), qty))
      ensures ok ==> var out := Arrange(lifo, old(rows));
        && rows == Arrange(lifo, Remain(out, qty)) && needed == Left(out, qty)
        && history == old(history) + Logged(trade, out, qty)
        && TakenInOrder(lifo, old(rows), rows) && LoggedInOrder(lifo, trade, old(rows), Logged(trade, out, qty))
    {
      hide Arrange, Remain, Left, Logged, Put, Remove, Keyed, Apart, Insertable, HasEntry, Int32, Sum;
      hide TakenInOrder, LoggedInOrder;
      InOrder(lifo, trade, rows, qty, sell);
      ghost var log := Logged(trade, Arrange(lifo, rows), qty);
      var output := Arrange(lifo, rows);
      needed := qty;
      ghost var rest, done := output, [];
      Restore(lifo, rows);
      Arranged(lifo, rows, sell);
      RowsFit(output, sell);
      var i := 0;
      while i < |output| && needed != 0
        invariant 0 <= i <= |output| && Fits(needed) && Apart(rest) && rows == Arrange(lifo, rest)
        invariant needed > 0 ==> rest == output[i..]
        invariant Remain(output, qty) == Remain(rest, needed) && Left(output, qty) == Left(rest, needed)
        invariant log == done + Logged(trade, rest, needed) && history == old(history) + done
        invariant Insertable(old(history), log) <==> Insertable(history, Logged(trade, rest, needed))
        decreases |output| - i
      {
        var row := output[i];
        assert row == rest[0];
        assert sell || Fits(row.qty + needed);
        var part := if sell then row.qty > needed else row.qty + needed < 0;
        var after := if !part then 0 else if sell then row.qty - needed else row.qty + needed;
        var e := Entry(trade, Int32(row.id), row.qty, after);
        assert Fits(after);
        if part { TakePart(trade, rest, needed); } else { TakeWhole(trade, rest, needed); }
        ghost var rest' := if part then [row.(qty := after)] + rest[1..] else rest[1..];
        ghost var left := if part then 0 else needed - Size(row.qty);
        InsertFirst(history, e, Logged(trade, rest', left));
        if HasEntry(history, e) { return false, needed; }
        history := history + [e];
        if part {
          PutFront(lifo, rest, after);
          rows := Put(rows, row.(qty := after));
          needed := 0;
        } else {
          RemoveFront(lifo, rest);
          rows := Remove(rows, row.key);
          assert Fits(-row.qty) || sell;
          needed := if sell then needed - row.qty else needed - (-row.qty);
        }
        rest, done := rest', done + [e];
        i := i + 1;
      }
      AllTaken(trade, rest, needed);
      InsertNone(history);
      ok := true;
    }

    /** A holding for what no existing holding could satisfy. */
    method Open(trade: nat, key: nat, qty: int) returns (ok: bool)
      modifies this`rows, this`history
      ensures ok <==> !HasEntry(old(history), Entry(trade, trade, 0, qty)) && !HasKey(old(rows), key)
      ensures ok ==>
        rows == Insert(old(rows), Row(key, trade, qty)) && history == old(history) + [Entry(trade, trade, 0, qty)]
    {
      var e := Entry(trade, trade, 0, qty);
      if HasEntry(history, e) { return false; }
      history := history + [e];
      ok := !HasKey(rows, key);
      if ok { rows := Insert(rows, Row(key, trade, qty)); }
    }

    /** The new summary row; false when the arithmetic overflows, before anything was written. */
    method Summarize(qty: nat, sell: bool) returns (ok: bool)
      requires 0 < qty && Fits(qty) && Fits(Position())
      modifies this`summary
      ensures ok <==> !Overflows(old(Position()), qty, sell)
      ensures !ok ==> summary == old(summary)
      ensures var hs := old(Position());
        ok ==> summary == if hs != 0 && hs + Signed(sell, qty) == 0 then old(summary) else Some(hs + Signed(sell, qty))
    {
      var hs := Position();
      if hs == 0 {
        summary := Some(Signed(sell, qty));
      } else if sell {
        if hs != qty {
          if !Fits(hs - qty) { return false; }
          summary := Some(hs - qty);
        }
      } else {
        if !Fits(-hs) { return false; }
        if -hs != qty {
          if !Fits(qty + hs) { return false; }
          summary := Some(qty + hs);
        }
      }
      ok := true;
    }

    /** DoTradeResultFrame2 (tpce.cc:2463-2779). */
    method Settle(trade: nat, key: nat, qty: nat, sell: bool, lifo: bool) returns (r: Outcome)
      requires Consistent() && 0 < qty && Fits(qty)
      modifies this
      ensures r.Overflow? <==> Overflows(old(Position()), qty, sell)
      ensures r.Done? <==> (!Overflows(old(Position()), qty, sell)
        && Accepts(old(Position()), old(history), old(rows), trade, key, qty, sell, lifo))
      ensures r.Overflow? ==> summary == old(summary) && rows == old(rows) && history == old(history)
      ensures r.Done? ==> Consistent() && Position() == old(Position()) + Signed(sell, qty)
      ensures r.Done? ==> var log := Plan(old(Position()), trade, old(rows), qty, sell, lifo);
        && history == old(history) + log && Moved(log) == Signed(sell, qty)
        && (forall i :: 0 <= i < |log| ==> EntryFits(log[i])) && LoggedInOrder(lifo, trade, old(rows), log)
      ensures r.Done? && Near(old(Position()), sell) ==> TakenInOrder(lifo, old(rows), rows)
    {
      hide Sum, Moved, Insert, Remain, Left, Logged, Arrange, Keyed, Side, HasKey, HasEntry, Insertable;
      hide TakenInOrder, LoggedInOrder;
      var hs := Position();
      ghost var h0, r0 := history, rows;
      Sides(rows, hs);
      TradeFacts(hs, trade, r0, qty, sell, lifo);
      var fine := Summarize(qty, sell);
      if !fine { return Overflow; }
      var needed := qty;
      ghost var log := First(hs, trade, r0, qty, sell, lifo);
      if (if sell then hs > 0 else hs < 0) {
        var ok;
        ok, needed := Liquidate(trade, qty, lifo, sell);
        if !ok {
          PlanRefused(h0, log, Plan(hs, trade, r0, qty, sell, lifo));
          return Refused;
        }
      } else {
        InsertNone(h0);
        assert h0 == h0 + [];
      }
      assert rows == Middle(hs, r0, qty, sell, lifo) && needed == Needs(hs, r0, qty, sell, lifo) && history == h0 + log;
      if needed > 0 {
        ghost var mid, e := rows, Entry(trade, trade, 0, Signed(sell, needed));
        InsertableAppend(h0, log, e);
        var ok := Open(trade, key, Signed(sell, needed));
        if !ok { return Refused; }
        OpenedRow(mid, Row(key, trade, Signed(sell, needed)), sell);
        if Near(hs, sell) { NewRowOnly(lifo, r0, mid, Row(key, trade, Signed(sell, needed)), sell); }
        assert history == h0 + (log + [e]);
      } else {
        assert log + [] == log;
        if (if sell then hs == qty else -hs == qty) {
          summary := None;
          EmptySum(rows, sell);
          rows := [];
          NothingLeft(lifo, r0);
        }
      }
      r := Done;
    }
  }

  /** What a trade takes from the holdings, what it leaves and what it records. */
  lemma TradeFacts(hs: int, trade: nat, rows: seq<Row>, qty: nat, sell: bool, lifo: bool)
    requires Sum(rows) == hs && Fits(hs) && 0 < qty && Fits(qty) && Keyed(rows)
    requires (Side(rows, true) || Side(rows, false))
    ensures var mid, n := Middle(hs, rows, qty, sell, lifo), Needs(hs, rows, qty, sell, lifo);
      && n <= qty && Keyed(mid) && Sum(mid) == hs + Signed(sell, qty - n)
      && (n > 0 ==> Side(mid, !sell)) && (n == 0 ==> Side(mid, sell) && Near(hs, sell))
    ensures var log := Plan(hs, trade, rows, qty, sell, lifo);
      && Moved(log) == Signed(sell, qty) && (forall i :: 0 <= i < |log| ==> EntryFits(log[i]))
      && LoggedInOrder(lifo, trade, rows, log)
    ensures Near(hs, sell) && Needs(hs, rows, qty, sell, lifo) > 0 ==> Middle(hs, rows, qty, sell, lifo) == []
  {
    hide Sum, Moved, Remain, Left, Logged, Arrange, Keyed, Side, LoggedInOrder;
    Sides(rows, hs);
    var n, log := Needs(hs, rows, qty, sell, lifo), First(hs, trade, rows, qty, sell, lifo);
    Flat(sell);
    if Near(hs, sell) {
      var out := Arrange(lifo, rows);
      Arranged(lifo, rows, sell);
      Conserved(trade, out, qty, sell);
      Rearranged(lifo, rows, qty, sell);
      LoggedFits(trade, out, qty, sell);
      InOrder(lifo, trade, rows, qty, sell);
    } else {
      NothingLogged(lifo, trade, rows);
    }
    if n > 0 {
      var e := Entry(trade, trade, 0, Signed(sell, n));
      MovedAppend(log, [e]);
      MovedOne(e);
      if Near(hs, sell) {
        AllUsed(trade, Arrange(lifo, rows), qty, sell);
        LoggedPlaces(trade, Arrange(lifo, rows), qty, sell);
      }
      OpensLast(lifo, trade, rows, log, e);
    } else {
      assert log + [] == log;
    }
  }

  lemma MovedOne(e: Entry)
    ensures Moved([e]) == e.after - e.before
  {
    assert [e][1..] == [];
  }

  /** A liquidation that the history refuses is refused as part of the whole trade. */
  lemma PlanRefused(h: seq<Entry>, log: seq<Entry>, plan: seq<Entry>)
    requires !Insertable(h, log) && (plan == log + [] || exists e :: plan == log + [e])
    ensures !Insertable(h, plan)
  {
    if e :| plan == log + [e] { InsertableAppend(h, log, e); } else { assert log + [] == log; }
  }

  lemma InsertFirst(h: seq<Entry>, e: Entry, tail: seq<Entry>)
    ensures Insertable(h, [e] + tail) <==> !HasEntry(h, e) && Insertable(h + [e], tail)
  {
    assert ([e] + tail)[1..] == tail;
  }

  lemma InsertNone(h: seq<Entry>)
    ensures Insertable(h, [])
  {
  }

  /** A holding is no larger than the position it is part of. */
  lemma {:induction false} RowsFit(out: seq<Row>, sell: bool)
    requires Side(out, sell) && Fits(Sum(out))
    ensures forall i :: 0 <= i < |out| ==> Fits(out[i].qty)
  {
    if out != [] {
      SumSign(out[1..], sell);
      RowsFit(out[1..], sell);
      forall i | 0 <= i < |out| ensures Fits(out[i].qty) { if i > 0 { assert out[i] == out[1..][i - 1]; } }
    }
  }

  lemma {:induction false} LoggedFits(trade: nat, out: seq<Row>, n: nat, sell: bool)
    requires Side(out, sell) && Fits(Sum(out))
    ensures forall i :: 0 <= i < |Logged(trade, out, n)| ==> EntryFits(Logged(trade, out, n)[i])
  {
    if out != [] && n != 0 {
      RowsFit(out, sell);
      SumSign(out[1..], sell);
      if Size(out[0].qty) <= n { LoggedFits(trade, out[1..], n - Size(out[0].qty), sell); }
    }
  }

  lemma Flat(sell: bool)
    ensures Moved([]) == 0 && Sum([]) == 0 && Keyed([]) && Side([], sell) && Side([], !sell)
  {
  }

  /** A new holding on the far side, in a table that holds nothing on the near side. */
  lemma OpenedRow(mid: seq<Row>, row: Row, sell: bool)
    requires Keyed(mid) && Side(mid, !sell) && !HasKey(mid, row.key) && (if sell then row.qty < 0 else row.qty > 0)
    ensures Keyed(Insert(mid, row)) && Side(Insert(mid, row), !sell) && Sum(Insert(mid, row)) == Sum(mid) + row.qty != 0
  {
    SumInsert(mid, row);
    SumSign(mid, !sell);
    InsertKeyed(mid, row, !sell);
  }

  /** A cursor on a holding larger than what is needed. */
  lemma TakePart(trade: nat, rest: seq<Row>, n: nat)
    requires rest != [] && Size(rest[0].qty) > n > 0 && Apart(rest)
    ensures var r := rest[0].(qty := Less(rest[0].qty, n));
      var rest' := [r] + rest[1..];
      && Remain(rest, n) == Remain(rest', 0) && Left(rest, n) == Left(rest', 0) && Apart(rest')
      && Logged(trade, rest, n) == [Entry(trade, Int32(r.id), rest[0].qty, r.qty)] + Logged(trade, rest', 0)
  {
  }

  /** A cursor on a holding that is used up. */
  lemma TakeWhole(trade: nat, rest: seq<Row>, n: nat)
    requires rest != [] && 0 < Size(rest[0].qty) <= n && Apart(rest)
    ensures var m := n - Size(rest[0].qty);
      && Remain(rest, n) == Remain(rest[1..], m) && Left(rest, n) == Left(rest[1..], m) && Apart(rest[1..])
      && Logged(trade, rest, n) == [Entry(trade, Int32(rest[0].id), rest[0].qty, 0)] + Logged(trade, rest[1..], m)
  {
  }

  lemma AllTaken(trade: nat, rest: seq<Row>, n: nat)
    requires rest == [] || n == 0
    ensures Remain(rest, n) == rest && Left(rest, n) == n && Logged(trade, rest, n) == []
  {
  }

  lemma Restore(lifo: bool, rows: seq<Row>)
    requires Keyed(rows)
    ensures Arrange(lifo, Arrange(lifo, rows)) == rows && Apart(Arrange(lifo, rows))
  {
  }

  lemma {:induction false} SumSign(rows: seq<Row>, sell: bool)
    requires Side(rows, sell)
    ensures if sell then Sum(rows) >= |rows| else Sum(rows) <= -|rows|
  {
    if rows != [] { SumSign(rows[1..], sell); }
  }

  /** The sign of the position is the side of its holdings. */
  lemma Sides(rows: seq<Row>, hs: int)
    requires Sum(rows) == hs && (Side(rows, true) || Side(rows, false))
    ensures (hs > 0 ==> Side(rows, true)) && (hs < 0 ==> Side(rows, false)) && (hs == 0 ==> rows == [])
  {
    if Side(rows, true) { SumSign(rows, true); } else { SumSign(rows, false); }
  }

  /** After an exact liquidation the cascading delete finds nothing. */
  lemma EmptySum(rows: seq<Row>, sell: bool)
    requires Side(rows, sell) && Sum(rows) == 0
    ensures rows == []
  {
    SumSign(rows, sell);
  }

  lemma Arranged(lifo: bool, rows: seq<Row>, sell: bool)
    requires Side(rows, sell)
    ensures Side(Arrange(lifo, rows), sell) && Sum(Arrange(lifo, rows)) == Sum(rows)
  {
    if lifo { SumReverse(rows); }
  }

  lemma {:induction false} RemainKeys(out: seq<Row>, n: nat)
    ensures |Remain(out, n)| <= |out|
    ensures forall i :: 0 <= i < |Remain(out, n)| ==> Remain(out, n)[i].key == out[|out| - |Remain(out, n)| + i].key
  {
    if out != [] && n != 0 && Size(out[0].qty) <= n { RemainKeys(out[1..], n - Size(out[0].qty)); }
  }

  /** The holdings that remain, back in key order. */
  lemma Rearranged(lifo: bool, rows: seq<Row>, n: nat, sell: bool)
    requires Keyed(rows) && Side(rows, sell)
    ensures var out := Arrange(lifo, rows);
      var r := Arrange(lifo, Remain(out, n));
      && Keyed(r) && Side(r, sell) && Sum(r) == Sum(rows) + Signed(sell, n - Left(out, n)) &&
        (Left(out, n) > 0 ==> r == [])
  {
    var out := Arrange(lifo, rows);
    Arranged(lifo, rows, sell);
    Conserved(0, out, n, sell);
    RemainKeys(out, n);
    Arranged(lifo, Remain(out, n), sell);
  }

  // ---------------------------------------------------------------- the order of use

  /** The history row of a holding that was used. */
  predicate EntryOf(trade: nat, row: Row, e: Entry) {
    e.trade == trade && e.holding == Int32(row.id) && e.before == row.qty != 0 && e.after != e.before
  }

  /** What a liquidation logs, place by place. */
  lemma {:induction false} LoggedPlaces(trade: nat, out: seq<Row>, n: nat, sell: bool)
    requires Side(out, sell)
    ensures var log := Logged(trade, out, n);
      && |log| <= |out|
      && forall i :: 0 <= i < |log| ==> EntryOf(trade, out[i], log[i]) && (i + 1 < |log| ==> log[i].after == 0)
  {
    if out != [] && n != 0 && Size(out[0].qty) <= n {
      LoggedPlaces(trade, out[1..], n - Size(out[0].qty), sell);
      var l := Logged(trade, out[1..], n - Size(out[0].qty));
      var log := Logged(trade, out, n);
      assert log == [Entry(trade, Int32(out[0].id), out[0].qty, 0)] + l;
      assert forall i :: 1 <= i < |log| ==> log[i] == l[i - 1] && out[i] == out[1..][i - 1];
    }
  }

  /** What is logged is used, and the rest is left alone. */
  lemma {:induction false} LeftAlone(trade: nat, out: seq<Row>, n: nat, sell: bool, j: nat)
    requires Side(out, sell) && Apart(out) && j < |out|
    ensures out[j] in Remain(out, n) <==> j >= |Logged(trade, out, n)|
  {
    if n != 0 {
      var r, tail := out[0], out[1..];
      assert forall x :: x in tail ==> x.key != r.key;
      if Size(r.qty) <= n {
        RemainKeys(tail, n - Size(r.qty));
        assert r !in Remain(tail, n - Size(r.qty));
        if j > 0 { LeftAlone(trade, tail, n - Size(r.qty), sell, j - 1); }
      } else if j > 0 {
        assert out[j] == tail[j - 1] && out[j] in tail;
      }
    }
  }

  lemma InOrder(lifo: bool, trade: nat, rows: seq<Row>, n: nat, sell: bool)
    requires Keyed(rows) && Side(rows, sell)
    ensures var out := Arrange(lifo, rows);
      TakenInOrder(lifo, rows, Arrange(lifo, Remain(out, n))) && LoggedInOrder(lifo, trade, rows, Logged(trade, out, n))
  {
    hide Arrange, Remain, Logged, Int32, Keyed, Side, TakenInOrder, LoggedInOrder;
    TakesInOrder(lifo, rows, n, sell);
    LogsInOrder(lifo, trade, rows, n, sell);
  }

  lemma LogsInOrder(lifo: bool, trade: nat, rows: seq<Row>, n: nat, sell: bool)
    requires Keyed(rows) && Side(rows, sell)
    ensures LoggedInOrder(lifo, trade, rows, Logged(trade, Arrange(lifo, rows), n))
  {
    OrderOf(lifo, rows, sell);
    hide Arrange, Logged, Int32, Keyed, Side, Apart;
    LoggedPlaces(trade, Arrange(lifo, rows), n, sell);
  }

  lemma TakesInOrder(lifo: bool, rows: seq<Row>, n: nat, sell: bool)
    requires Keyed(rows) && Side(rows, sell)
    ensures TakenInOrder(lifo, rows, Arrange(lifo, Remain(Arrange(lifo, rows), n)))
  {
    var out := Arrange(lifo, rows);
    OrderOf(lifo, rows, sell);
    SameRows(lifo, Remain(out, n));
    hide Arrange, Remain, Logged, Keyed, Side, Apart;
    var after := Arrange(lifo, Remain(out, n));
    forall x, y | x in rows && x !in after && y in rows && y in after
      ensures if lifo then x.key > y.key else x.key < y.key
    {
      var i := PlaceOf(lifo, rows, x);
      var j := PlaceOf(lifo, rows, y);
      LeftAlone(0, out, n, sell, i);
      LeftAlone(0, out, n, sell, j);
      KeyOrder(lifo, rows, i, j);
    }
  }

  lemma OrderOf(lifo: bool, rows: seq<Row>, sell: bool)
    requires Keyed(rows) && Side(rows, sell)
    ensures var out := Arrange(lifo, rows);
      |out| == |rows| && (forall i :: 0 <= i < |rows| ==> out[i] == Nth(lifo, rows, i)) && Side(out, sell) && Apart(out)
  {
  }

  lemma PlaceOf(lifo: bool, rows: seq<Row>, x: Row) returns (i: nat)
    requires x in rows
    ensures i < |rows| && Nth(lifo, rows, i) == x
  {
    var a :| 0 <= a < |rows| && rows[a] == x;
    i := if lifo then |rows| - 1 - a else a;
  }

  lemma KeyOrder(lifo: bool, rows: seq<Row>, i: nat, j: nat)
    requires Keyed(rows) && i < j < |rows|
    ensures var x, y := Nth(lifo, rows, i), Nth(lifo, rows, j); if lifo then x.key > y.key else x.key < y.key
  {
  }

  lemma SameRows(lifo: bool, rows: seq<Row>)
    ensures forall x :: x in Arrange(lifo, rows) <==> x in rows
  {
    var r := Arrange(lifo, rows);
    forall x | x in rows ensures x in r {
      var i :| 0 <= i < |rows| && rows[i] == x;
      assert r[if lifo then |rows| - 1 - i else i] == x;
    }
    forall x | x in r ensures x in rows {
      var i :| 0 <= i < |r| && r[i] == x;
      assert rows[if lifo then |rows| - 1 - i else i] == x;
    }
  }

  /** When something is left over, every holding was used up. */
  lemma {:induction false} AllUsed(trade: nat, out: seq<Row>, n: nat, sell: bool)
    requires Side(out, sell) && Left(out, n) > 0
    ensures |Logged(trade, out, n)| == |out|
    ensures forall i :: 0 <= i < |out| ==> Logged(trade, out, n)[i].after == 0
  {
    if out != [] && n != 0 && Size(out[0].qty) <= n { AllUsed(trade, out[1..], n - Size(out[0].qty), sell); }
  }

  lemma OpensLast(lifo: bool, trade: nat, rows: seq<Row>, log: seq<Entry>, e: Entry)
    requires LoggedInOrder(lifo, trade, rows, log) && e.trade == trade && e.holding == trade && e.before == 0
    requires forall i :: 0 <= i < |log| ==> log[i].after == 0 && log[i].before != 0
    ensures LoggedInOrder(lifo, trade, rows, log + [e])
  {
    var r := log + [e];
    forall i | 0 <= i < |r|
      ensures r[i].trade == trade && (i + 1 < |r| ==> r[i].after == 0)
      ensures r[i].before == 0 ==> i == |r| - 1 && r[i].holding == trade
    {
      if i < |log| { assert r[i] == log[i]; }
    }
  }

  lemma NothingLogged(lifo: bool, trade: nat, rows: seq<Row>)
    ensures LoggedInOrder(lifo, trade, rows, [])
  {
  }

  lemma NothingLeft(lifo: bool, rows: seq<Row>)
    ensures TakenInOrder(lifo, rows, [])
  {
  }

  /** The one new row is none of the old ones, which lie on the other side. */
  lemma NewRowOnly(lifo: bool, before: seq<Row>, mid: seq<Row>, row: Row, sell: bool)
    requires mid == [] && Side(before, sell) && (if sell then row.qty < 0 else row.qty > 0)
    ensures TakenInOrder(lifo, before, Insert(mid, row))
  {
  }
}
