/** The second-chance hash set of dbcore/sc-hash.h: K levels of buckets of M slots, one possible bucket per
    level for each element, and at most one eviction per insertion. */
module ScHash {
  import opened Options

  /** The template parameters.  A level has `sub` buckets, a power of two in the source, so that shifting
      and masking a hash are division and remainder. */
  datatype Shape = Shape(sub: nat, levels: nat, width: nat, useLevels: bool, secondChance: bool)

  predicate ShapeOk(c: Shape) { c.sub > 0 && c.levels > 0 && c.width > 0 && (c.secondChance ==> c.useLevels) }

  function Power(b: nat, e: nat): nat { if e == 0 then 1 else b * Power(b, e - 1) }

  lemma {:induction false} PowerPositive(b: nat, e: nat)
    requires b > 0
    ensures Power(b, e) > 0
  {
    if e > 0 { PowerPositive(b, e - 1); }
  }

  function Slots(c: Shape): nat { c.sub * c.levels * c.width }

  /** _hash_part: the i-th group of bits of the hash. */
  function Part(c: Shape, h: nat, i: nat): (r: nat)
    requires ShapeOk(c)
    ensures r < c.sub
  {
    PowerPositive(c.sub, i);
    h / Power(c.sub, i) % c.sub
  }

  /** p is the i-th digit of h in base b. */
  ghost predicate IsDigit(b: nat, h: nat, i: nat, p: nat) {
    p < b && exists q: nat, r: nat :: Splits(b, h, i, p, q, r)
  }

  predicate Splits(b: nat, h: nat, i: nat, p: nat, q: nat, r: nat) {
    r < Power(b, i) && h == Power(b, i + 1) * q + Power(b, i) * p + r
  }

  /** The i-th group of bits is the i-th digit in base `sub`, and there is only one. */
  lemma PartIsDigit(c: Shape, h: nat, i: nat, p: nat)
    requires ShapeOk(c)
    ensures IsDigit(c.sub, h, i, p) <==> p == Part(c, h, i)
  {
    PowerPositive(c.sub, i);
    var b, w := c.sub, Power(c.sub, i);
    var d := h / w;
    if p == Part(c, h, i) {
      Quotient(h, w);
      Quotient(d, b);
      Nest(b, w, d / b, p, h % w);
      assert Splits(b, h, i, p, d / b, h % w);
    }
    if IsDigit(b, h, i, p) {
      var q: nat, r: nat :| Splits(b, h, i, p, q, r);
      Nest(b, w, q, p, r);
      Divides(h, w, b * q + p, r);
      Divides(d, b, q, p);
    }
  }

  lemma Quotient(h: nat, w: nat)
    requires w > 0
    ensures h == w * (h / w) + h % w && h % w < w
  {
  }

  lemma Divides(h: nat, w: nat, q: nat, r: nat)
    requires w > 0 && r < w && h == w * q + r
    ensures h / w == q && h % w == r
  {
    Quotient(h, w);
    var d := h / w;
    if d < q { Scale(w, d + 1, q); Spread(w, d, 1); }
    if q < d { Scale(w, q + 1, d); Spread(w, q, 1); }
  }

  lemma Spread(w: nat, x: nat, y: nat)
    ensures w * (x + y) == w * x + w * y
  {
  }

  lemma Nest(b: nat, w: nat, q: nat, p: nat, r: nat)
    ensures b * w * q + w * p + r == w * (b * q + p) + r
  {
    Spread(w, b * q, p);
    assert b * w * q == w * (b * q);
  }

  /** _get_bucket: the first slot of the bucket of h at level i lies within the table. */
  function Bucket(c: Shape, h: nat, i: nat): (r: nat)
    requires ShapeOk(c) && i < c.levels
    ensures r + c.width <= Slots(c)
  {
    var idx := if c.useLevels then c.sub * i + Part(c, h, i) else Part(c, h, i);
    InTable(c, idx, i, Part(c, h, i));
    c.width * idx
  }

  /** The bucket of h at level i: the i-th digit of h counts buckets within the level, or within the table. */
  lemma BucketIs(c: Shape, h: nat, i: nat, p: nat)
    requires ShapeOk(c) && i < c.levels && IsDigit(c.sub, h, i, p)
    ensures Bucket(c, h, i) == c.width * Index(c, p, i)
  {
    hide IsDigit;
    PartIsDigit(c, h, i, p);
  }

  /** The number of a bucket in the table. */
  function Index(c: Shape, p: nat, i: nat): nat { if c.useLevels then c.sub * i + p else p }

  lemma IndexApart(c: Shape, p: nat, i: nat, p': nat, i': nat)
    requires p < c.sub && p' < c.sub
    ensures Index(c, p, i) == Index(c, p', i') <==> p == p' && (c.useLevels ==> i == i')
  {
    if c.useLevels && i < i' { Scale(c.sub, i + 1, i'); Spread(c.sub, i, 1); }
    if c.useLevels && i' < i { Scale(c.sub, i' + 1, i); Spread(c.sub, i', 1); }
  }

  lemma SlotsApart(w: nat, x: nat, y: nat)
    requires x < y
    ensures w * x + w <= w * y
  {
    Scale(w, x + 1, y);
    Spread(w, x, 1);
  }

  /** Two buckets are the same, or share no slot; with levels they are the same only at the same level, and at one
      level only for hashes with the same digit. */
  lemma BucketsApart(c: Shape, h: nat, i: nat, h': nat, i': nat)
    requires ShapeOk(c) && i < c.levels && i' < c.levels
    ensures var a, b := Bucket(c, h, i), Bucket(c, h', i');
      if Part(c, h, i) == Part(c, h', i') && (c.useLevels ==> i == i') then a == b
      else a + c.width <= b || b + c.width <= a
  {
    var p, p' := Part(c, h, i), Part(c, h', i');
    hide Part;
    var x, y := Index(c, p, i), Index(c, p', i');
    IndexApart(c, p, i, p', i');
    assert Bucket(c, h, i) == c.width * x && Bucket(c, h', i') == c.width * y;
    hide Index, Bucket;
    if x < y { SlotsApart(c.width, x, y); }
    if y < x { SlotsApart(c.width, y, x); }
  }

  /** Every bucket of a level is the bucket of some hash. */
  lemma BucketsUsed(c: Shape, i: nat, p: nat)
    requires ShapeOk(c) && i < c.levels && p < c.sub
    ensures Bucket(c, Power(c.sub, i) * p, i) == c.width * Index(c, p, i)
  {
    PowerPositive(c.sub, i);
    assert Splits(c.sub, Power(c.sub, i) * p, i, p, 0, 0);
    BucketIs(c, Power(c.sub, i) * p, i, p);
  }

  lemma InTable(c: Shape, idx: nat, i: nat, p: nat)
    requires ShapeOk(c) && i < c.levels && p < c.sub && idx <= c.sub * i + p
    ensures c.width * idx + c.width <= Slots(c)
  {
    var n := c.sub * c.levels;
    Scale(c.sub, i + 1, c.levels);
    Scale(c.width, idx + 1, n);
  }

  lemma Scale(k: nat, a: nat, b: nat)
    requires a <= b
    ensures k * a <= k * b && k * a == a * k && k * b == b * k
  {
  }

  // ---------------------------------------------------------------- contents of a table

  function Elements<T>(s: seq<Option<T>>): set<T> { set i | 0 <= i < |s| && s[i].Some? :: s[i].value }

  ghost predicate Full<T(!new)>(s: seq<Option<T>>, pos: nat, width: nat)
    requires pos + width <= |s|
  {
    forall i :: pos <= i < pos + width ==> s[i].Some?
  }

  lemma Filled<T>(s: seq<Option<T>>, i: nat, x: T)
    requires i < |s| && s[i].None?
    ensures Elements(s[i := Some(x)]) == Elements(s) + {x}
  {
    var r := s[i := Some(x)];
    forall y | y in Elements(s) + {x} ensures y in Elements(r) {
      if y in Elements(s) {
        var j :| 0 <= j < |s| && s[j].Some? && s[j].value == y;
        assert r[j] == s[j];
      } else {
        assert r[i].value == x;
      }
    }
  }

  lemma Emptied<T(!new)>(s: seq<Option<T>>, i: nat, x: T)
    requires i < |s| && s[i] == Some(x) && NoTwice(s)
    ensures Elements(s[i := None]) == Elements(s) - {x}
  {
    var r := s[i := None];
    forall y | y in Elements(s) - {x} ensures y in Elements(r) {
      var j :| 0 <= j < |s| && s[j].Some? && s[j].value == y;
      assert r[j] == s[j];
    }
  }

  ghost predicate NoTwice<T(!new)>(s: seq<Option<T>>) {
    forall i, j :: 0 <= i < j < |s| && s[i].Some? && s[j].Some? ==> s[i].value != s[j].value
  }

  /** y moves from slot j to the free slot i, and x takes its place. */
  lemma Evicted<T>(s: seq<Option<T>>, i: nat, j: nat, x: T, y: T)
    requires i < |s| && j < |s| && s[i].None? && s[j] == Some(y)
    ensures Elements(s[i := Some(y)][j := Some(x)]) == Elements(s) + {x}
  {
    var r := s[i := Some(y)][j := Some(x)];
    forall z | z in Elements(s) + {x} ensures z in Elements(r) {
      if z == x { assert r[j].value == x; }
      else if z == y { assert r[i].value == y; }
      else {
        var k :| 0 <= k < |s| && s[k].Some? && s[k].value == z;
        assert r[k] == s[k];
      }
    }
    forall z | z in Elements(r) ensures z in Elements(s) + {x} {
      var k :| 0 <= k < |r| && r[k].Some? && r[k].value == z;
      if k == i { assert s[j].value == y; }
    }
  }

  /** Slot i belongs to one of the buckets of x. */
  ghost predicate Home<T>(c: Shape, hash: T -> nat, x: T, i: nat)
    requires ShapeOk(c)
  {
    exists k :: 0 <= k < c.levels && Bucket(c, hash(x), k) <= i < Bucket(c, hash(x), k) + c.width
  }

  /** Each element sits in one of its buckets, and only once. */
  ghost predicate Sound<T(!new)>(c: Shape, hash: T -> nat, s: seq<Option<T>>) {
    && ShapeOk(c) && |s| == Slots(c) && NoTwice(s)
    && forall i :: 0 <= i < |s| && s[i].Some? ==> Home(c, hash, s[i].value, i)
  }

  /** Some occupant of x's bucket at level k - 1 could move to its own bucket at level k. */
  ghost predicate Evictable<T(!new)>(c: Shape, hash: T -> nat, s: seq<Option<T>>, x: T, k: nat)
    requires ShapeOk(c) && |s| == Slots(c) && 0 < k < c.levels
  {
    exists j :: Bucket(c, hash(x), k - 1) <= j < Bucket(c, hash(x), k - 1) + c.width
      && s[j].Some? && !Full(s, Bucket(c, hash(s[j].value), k), c.width)
  }

  /** Every bucket of x below level n is full, and nobody in the way there can be evicted. */
  ghost predicate Stuck<T(!new)>(c: Shape, hash: T -> nat, s: seq<Option<T>>, x: T, n: nat)
    requires ShapeOk(c) && |s| == Slots(c) && n <= c.levels
  {
    && (forall k :: 0 <= k < n ==> Full(s, Bucket(c, hash(x), k), c.width))
    && (c.secondChance ==> forall k :: 0 < k < n ==> !Evictable(c, hash, s, x, k))
  }

  datatype Inserted = Present | Added | NoSpace

  class HashSet<T(==,!new)> {
    const shape: Shape
    const hash: T -> nat
    const table: array<Option<T>>

    ghost predicate Valid()
      reads table
    {
      Sound(shape, hash, table[..])
    }

    ghost function Contents(): set<T>
      reads table
    {
      Elements(table[..])
    }

    constructor (shape: Shape, hash: T -> nat)
      requires ShapeOk(shape)
      ensures Valid() && Contents() == {} && fresh(table) && this.shape == shape && this.hash == hash
    {
      this.shape := shape;
      this.hash := hash;
      this.table := new Option<T>[Slots(shape)](_ => None);
    }

    /** _find: the slot of x, or the end of the table. */
    method Find(x: T) returns (r: nat)
      requires Valid()
      ensures r < table.Length ==> table[r] == Some(x)
      ensures r >= table.Length ==> r == table.Length && x !in Contents()
    {
      var k := 0;
      while k < shape.levels
        invariant 0 <= k <= shape.levels
        invariant forall m, i ::
          0 <= m < k && Bucket(shape, hash(x), m) <= i < Bucket(shape, hash(x), m) + shape.width ==>
            table[i] != Some(x)
      {
        var pos := Bucket(shape, hash(x), k);
        var i := pos;
        while i < pos + shape.width
          invariant pos <= i <= pos + shape.width
          invariant forall p :: pos <= p < i ==> table[p] != Some(x)
        {
          if table[i] == Some(x) { return i; }
          i := i + 1;
        }
        k := k + 1;
      }
      NotAnywhere(shape, hash, table[..], x);
      r := table.Length;
    }

    /** The first free slot of the bucket at pos, or its end. */
    method FreeSlot(pos: nat) returns (r: nat)
      requires pos + shape.width <= table.Length
      ensures pos <= r <= pos + shape.width
      ensures r < pos + shape.width ==> table[r].None?
      ensures r == pos + shape.width <==> Full(table[..], pos, shape.width)
    {
      r := pos;
      while r < pos + shape.width
        invariant pos <= r <= pos + shape.width && forall p :: pos <= p < r ==> table[p].Some?
      {
        if table[r].None? {
          assert table[..][r].None?;
          return;
        }
        r := r + 1;
      }
    }

    /** An occupant of x's bucket at level k - 1 and a free slot in its bucket at level k, if there is one. */
    method FindVictim(x: T, k: nat) returns (found: bool, i: nat, j: nat)
      requires Valid() && 0 < k < shape.levels && Full(table[..], Bucket(shape, hash(x), k - 1), shape.width)
      ensures found <==> Evictable(shape, hash, table[..], x, k)
      ensures found ==> i < table.Length && j < table.Length && table[i].None? && table[j].Some?
      ensures found ==> Home(shape, hash, table[j].value, i) && Home(shape, hash, x, j)
    {
      ghost var s := table[..];
      var old_pos := Bucket(shape, hash(x), k - 1);
      i, j := 0, old_pos;
      while j < old_pos + shape.width
        invariant old_pos <= j <= old_pos + shape.width
        invariant forall p :: old_pos <= p < j ==>
          s[p].Some? && Full(s, Bucket(shape, hash(s[p].value), k), shape.width)
      {
        assert s[j].Some?;
        var y := table[j].value;
        var py := Bucket(shape, hash(y), k);
        i := FreeSlot(py);
        if i < py + shape.width {
          assert Home(shape, hash, y, i) && Home(shape, hash, x, j);
          return true, i, j;
        }
        j := j + 1;
      }
      found := false;
    }

    /** find_and_emplace: refused exactly when every bucket of x is full and no single eviction helps. */
    method Insert(x: T) returns (code: Inserted, pos: nat)
      requires Valid()
      modifies table
      ensures Valid()
      ensures code.Present? <==> x in old(Contents())
      ensures code.Present? ==> table[..] == old(table[..]) && pos < table.Length && table[pos] == Some(x)
      ensures code.Added? ==> Contents() == old(Contents()) + {x} && pos < table.Length && table[pos] == Some(x)
      ensures code.NoSpace? <==> x !in old(Contents()) && Stuck(shape, hash, old(table[..]), x, shape.levels)
      ensures code.NoSpace? ==> table[..] == old(table[..]) && pos == table.Length
    {
      hide NoTwice, Home, Full, Evictable;
      ghost var was := table[..];
      pos := Find(x);
      if pos < table.Length {
        assert was[pos].Some?;
        return Present, pos;
      }
      var k := 0;
      while k < shape.levels
        invariant 0 <= k <= shape.levels && table[..] == was && Stuck(shape, hash, was, x, k)
      {
        var bucket := Bucket(shape, hash(x), k);
        var i := FreeSlot(bucket);
        if i < bucket + shape.width {
          Place(x, i, k);
          return Added, i;
        }
        if shape.secondChance && k > 0 {
          var found, free, victim := FindVictim(x, k);
          if found {
            Evict(x, free, victim);
            return Added, victim;
          }
        }
        k := k + 1;
      }
      return NoSpace, table.Length;
    }

    /** x goes to a free slot of its own. */
    method Place(x: T, i: nat, ghost k: nat)
      requires Valid() && x !in Contents() && k < shape.levels && i < table.Length && table[i].None?
      requires Bucket(shape, hash(x), k) <= i < Bucket(shape, hash(x), k) + shape.width
      modifies table
      ensures Valid() && Contents() == old(Contents()) + {x} && table[i] == Some(x)
    {
      ghost var was := table[..];
      Filled(was, i, x);
      assert forall p :: 0 <= p < |was| && was[p].Some? ==> was[p].value in Elements(was);
      table[i] := Some(x);
      assert table[..] == was[i := Some(x)];
      assert Home(shape, hash, x, i);
    }

    /** The occupant of slot j moves to the free slot i of its own, and x takes its place. */
    method Evict(x: T, i: nat, j: nat)
      requires Valid() && x !in Contents() && i < table.Length && j < table.Length && table[i].None? && table[j].Some?
      requires Home(shape, hash, table[j].value, i) && Home(shape, hash, x, j)
      modifies table
      ensures Valid() && Contents() == old(Contents()) + {x} && table[j] == Some(x)
    {
      var y := table[j].value;
      ghost var was := table[..];
      Evicted(was, i, j, x, y);
      assert forall p :: 0 <= p < |was| && was[p].Some? ==> was[p].value in Elements(was);
      table[i] := Some(y);
      table[j] := Some(x);
      assert table[..] == was[i := Some(y)][j := Some(x)];
    }

    method Erase(x: T) returns (erased: bool)
      requires Valid()
      modifies table
      ensures Valid() && Contents() == old(Contents()) - {x}
      ensures erased <==> x in old(Contents())
    {
      var r := Find(x);
      if r == table.Length { return false; }
      ghost var was := table[..];
      assert was[r].Some?;
      Emptied(was, r, x);
      table[r] := None;
      assert table[..] == was[r := None];
      erased := true;
    }

    /** size: the number of elements. */
    method Size() returns (n: nat)
      requires Valid()
      ensures n == |Contents()|
    {
      n := 0;
      var i := 0;
      while i < table.Length
        invariant 0 <= i <= table.Length && n == |Elements(table[..i])|
      {
        Grown(table[..], i);
        if table[i].Some? { n := n + 1; }
        i := i + 1;
      }
      assert table[..table.Length] == table[..];
    }
  }

  /** An element that is in none of its buckets is nowhere. */
  lemma NotAnywhere<T(!new)>(c: Shape, hash: T -> nat, s: seq<Option<T>>, x: T)
    requires Sound(c, hash, s)
    requires forall m, i :: 0 <= m < c.levels && Bucket(c, hash(x), m) <= i < Bucket(c, hash(x), m) + c.width ==>
      s[i] != Some(x)
    ensures x !in Elements(s)
  {
  }

  lemma Grown<T(!new)>(s: seq<Option<T>>, i: nat)
    requires i < |s| && NoTwice(s)
    ensures |Elements(s[..i + 1])| == |Elements(s[..i])| + if s[i].Some? then 1 else 0
  {
    var a, b := Elements(s[..i]), Elements(s[..i + 1]);
    forall x | x in b ensures x in a || (s[i] == Some(x)) {
      var j :| 0 <= j < i + 1 && s[j].Some? && s[j].value == x;
      if j < i { assert s[..i][j] == s[j]; }
    }
    forall x | x in a ensures x in b {
      var j :| 0 <= j < i && s[j].Some? && s[j].value == x;
      assert s[..i + 1][j] == s[j];
    }
    if s[i].Some? {
      assert s[..i + 1][i] == s[i];
      assert b == a + {s[i].value};
    } else {
      assert a == b;
    }
  }
}
