/** Adler-32 as in dbcore/adler.cpp: the scalar form, the SSSE3 form with its vector lanes written out, and
    the merge of two sums, against the byte-at-a-time definition of section 8.2 of RFC 1950. */
module Adler {

  newtype Byte = x: int | 0 <= x < 256

  const MOD_ADLER: nat := 65521
  const TWO_32: nat := 0x1_0000_0000
  const TWO_64: nat := 0x1_0000_0000_0000_0000

  /** Remainder modulo MOD_ADLER. */
  function Red(x: int): (r: nat)
    ensures r < MOD_ADLER
  {
    x % MOD_ADLER
  }

  /** The halves of a 32-bit checksum. */
  function Lo(x: nat): (r: nat)
    ensures r < 65536
  {
    x % 65536
  }

  function Hi(x: nat): nat { x / 65536 }

  /** Arithmetic in a uint64_t. */
  function Wrap64(x: nat): (r: nat)
    ensures r < TWO_64
  {
    x % TWO_64
  }

  // ---------------------------------------------------------------- the definition

  /** The inner loop of update_adler32 in section 8.2 of RFC 1950. */
  function Update(a: nat, b: nat, d: seq<Byte>): (nat, nat) {
    if d == [] then (a, b)
    else
      var p := Update(a, b, d[..|d| - 1]);
      var a1 := Red(p.0 + d[|d| - 1] as nat);
      (a1, Red(p.1 + a1))
  }

  function Pack(p: (nat, nat)): nat { p.1 * 65536 + p.0 }

  /** update_adler32 of section 8.2 of RFC 1950: the checksum of d, continued from `sofar`. */
  function Rfc(sofar: nat, d: seq<Byte>): nat { Pack(Update(Lo(sofar), Hi(sofar), d)) }

  /** The same, continued from the reduced halves of `sofar`.  This is what adler32 computes. */
  function Checksum(sofar: nat, d: seq<Byte>): nat {
    Pack(Update(Red(Lo(sofar)), Red(Hi(sofar)), d))
  }

  /** A running checksum that the definition could have produced. */
  predicate Reduced(sofar: nat) { Lo(sofar) < MOD_ADLER && Hi(sofar) < MOD_ADLER }

  /** When adler32 agrees with the definition: there is a byte to take in, or nothing to reduce. */
  predicate Meets(sofar: nat, d: seq<Byte>) { d != [] || Reduced(sofar) }

  /** adler32 computes the checksum of the definition exactly when it has a byte to take in or nothing to reduce. */
  lemma RfcExact(sofar: nat, d: seq<Byte>)
    requires sofar < TWO_32
    ensures Checksum(sofar, d) == Rfc(sofar, d) <==> Meets(sofar, d)
  {
    HalfBound(sofar);
    var a, b := Lo(sofar), Hi(sofar);
    if d == [] {
      hide Lo, Hi;
      Unpacked(a, b);
    } else {
      hide Lo, Hi;
      FirstByteReduces(a, b, d);
    }
  }

  /** The first byte reduces both halves. */
  lemma {:induction false} FirstByteReduces(a: nat, b: nat, d: seq<Byte>)
    requires d != []
    ensures Update(Red(a), Red(b), d) == Update(a, b, d)
  {
    hide Red;
    var d0, c := d[..|d| - 1], d[|d| - 1] as nat;
    if d0 == [] {
      UpdateStep(a, b, c);
      CongReduce(a + c);
      CongReduce(b);
      CongSum(b, b, Red(a + c), a + c);
    } else {
      FirstByteReduces(a, b, d0);
    }
  }

  lemma Unpacked(a: nat, b: nat)
    requires a < 65536 && b < 65536
    ensures Pack((Red(a), Red(b))) == Pack((a, b)) <==> a < MOD_ADLER && b < MOD_ADLER
  {
  }

  /** Continuing the all-ones word over no bytes: the definition returns it, adler32 reduces it. */
  lemma RfcMissed()
    ensures Rfc(0xffff_ffff, []) == 0xffff_ffff && Checksum(0xffff_ffff, []) == 0x000e_000e
  {
  }

  // ---------------------------------------------------------------- the definition in closed form

  /** Sum of the bytes. */
  function Sum(d: seq<Byte>): nat {
    if d == [] then 0 else Sum(d[..|d| - 1]) + d[|d| - 1] as nat
  }

  /** Sum of the running sums: the first byte counts |d| times, the last once. */
  function Weighted(d: seq<Byte>): nat {
    if d == [] then 0 else Weighted(d[..|d| - 1]) + Sum(d)
  }

  function TotalA(a: nat, d: seq<Byte>): nat { a + Sum(d) }

  function TotalB(a: nat, b: nat, d: seq<Byte>): nat { b + |d| * a + Weighted(d) }

  lemma {:induction false} Concat(x: seq<Byte>, y: seq<Byte>)
    ensures Sum(x + y) == Sum(x) + Sum(y)
    ensures Weighted(x + y) == Weighted(x) + |y| * Sum(x) + Weighted(y)
  {
    if y == [] {
      assert x + y == x;
    } else {
      var y0 := y[..|y| - 1];
      Concat(x, y0);
      assert (x + y)[..|x + y| - 1] == x + y0;
      assert |y| * Sum(x) == |y0| * Sum(x) + Sum(x);
    }
  }

  lemma {:induction false} Bounds(d: seq<Byte>)
    ensures Sum(d) <= 255 * |d| && 2 * Weighted(d) <= 255 * |d| * (|d| + 1)
  {
    if d != [] {
      Bounds(d[..|d| - 1]);
      var n := |d|;
      assert 255 * n * (n + 1) == 255 * (n - 1) * n + 510 * n;
    }
  }

  // Congruence modulo MOD_ADLER.

  predicate Cong(x: int, y: int) { Red(x) == Red(y) }

  lemma CongBy(x: int, y: int, k: int)
    requires x == y + MOD_ADLER * k
    ensures Cong(x, y)
  {
  }

  lemma CongGives(x: int, y: int) returns (k: int)
    requires Cong(x, y)
    ensures x == y + MOD_ADLER * k
  {
    k := x / MOD_ADLER - y / MOD_ADLER;
  }

  lemma CongSum(x: int, y: int, z: int, w: int)
    requires Cong(x, y) && Cong(z, w)
    ensures Cong(x + z, y + w)
  {
    hide Cong, Red;
    var p := CongGives(x, y);
    var q := CongGives(z, w);
    CongBy(x + z, y + w, p + q);
  }

  lemma CongTimes(k: int, x: int, y: int)
    requires Cong(x, y)
    ensures Cong(k * x, k * y)
  {
    hide Cong, Red;
    var p := CongGives(x, y);
    Distribute(k, y, MOD_ADLER * p);
    Factor(k, p);
    CongBy(k * x, k * y, k * p);
  }

  lemma Factor(k: int, p: int)
    ensures k * (MOD_ADLER * p) == MOD_ADLER * (k * p)
  {
  }

  lemma CongReduce(x: int)
    ensures Cong(Red(x), x) && Cong(x, x)
  {
  }

  /** Reducing at every byte or once at the end is the same. */
  lemma {:induction false} UpdateClosed(a: nat, b: nat, d: seq<Byte>)
    requires a < MOD_ADLER && b < MOD_ADLER
    ensures Update(a, b, d) == (Red(TotalA(a, d)), Red(TotalB(a, b, d)))
  {
    if d == [] {
      RedSmall(a);
      RedSmall(b);
    } else {
      var d0, c := d[..|d| - 1], d[|d| - 1] as nat;
      UpdateClosed(a, b, d0);
      TotalStep(a, b, d);
      UpdateStep(TotalA(a, d0), TotalB(a, b, d0), c);
    }
  }

  lemma RedSmall(x: nat)
    requires x < MOD_ADLER
    ensures Red(x) == x
  {
  }

  lemma TotalStep(a: nat, b: nat, d: seq<Byte>)
    requires d != []
    ensures var d0, c := d[..|d| - 1], d[|d| - 1] as nat;
      TotalA(a, d) == TotalA(a, d0) + c && TotalB(a, b, d) == TotalB(a, b, d0) + TotalA(a, d)
  {
    Distribute(a, |d| - 1, 1);
  }

  lemma UpdateStep(A: nat, B: nat, c: nat)
    ensures Red(Red(A) + c) == Red(A + c) && Red(Red(B) + Red(A + c)) == Red(B + (A + c))
  {
    hide Red;
    CongReduce(A);
    CongReduce(B);
    CongReduce(c);
    CongReduce(A + c);
    CongSum(Red(A), A, c, c);
    CongSum(Red(B), B, Red(A + c), A + c);
  }

  /** A pair of sums stands for the totals when both agree modulo MOD_ADLER. */
  predicate Stands(a: nat, b: nat, a0: nat, b0: nat, d: seq<Byte>) {
    Cong(a, TotalA(a0, d)) && Cong(b, TotalB(a0, b0, d))
  }

  lemma StandsIsChecksum(a: nat, b: nat, sofar: nat, d: seq<Byte>)
    requires Stands(a, b, Lo(sofar), Hi(sofar), d)
    ensures Pack((Red(a), Red(b))) == Checksum(sofar, d)
    ensures sofar < TWO_32 ==> (Pack((Red(a), Red(b))) == Rfc(sofar, d) <==> Meets(sofar, d))
  {
    hide Red, Lo, Hi, Sum, Weighted, Update, Rfc, Meets;
    if sofar < TWO_32 { RfcExact(sofar, d); }
    var a0, b0 := Lo(sofar), Hi(sofar);
    var a1, b1, n := Red(a0), Red(b0), |d|;
    UpdateClosed(a1, b1, d);
    CongReduce(a0);
    CongReduce(b0);
    CongReduce(Sum(d));
    CongReduce(Weighted(d));
    CongSum(a1, a0, Sum(d), Sum(d));
    CongTimes(n, a1, a0);
    CongSum(b1, b0, n * a1, n * a0);
    CongSum(b1 + n * a1, b0 + n * a0, Weighted(d), Weighted(d));
  }

  /** Taking in a block y with its own sums. */
  lemma StandsBlock(a: nat, b: nat, a0: nat, b0: nat, x: seq<Byte>, y: seq<Byte>)
    requires Stands(a, b, a0, b0, x)
    ensures Stands(a + Sum(y), b + |y| * a + Weighted(y), a0, b0, x + y)
  {
    hide Cong, TotalA, TotalB, Sum, Weighted;
    var k, w, A, B := |y|, Weighted(y), TotalA(a0, x), TotalB(a0, b0, x);
    TotalConcat(a0, b0, x, y);
    CongReduce(Sum(y));
    CongReduce(w);
    CongSum(a, A, Sum(y), Sum(y));
    CongTimes(k, a, A);
    CongSum(b, B, k * a, k * A);
    CongSum(b + k * a, B + k * A, w, w);
  }

  lemma TotalConcat(a0: nat, b0: nat, x: seq<Byte>, y: seq<Byte>)
    ensures TotalA(a0, x + y) == TotalA(a0, x) + Sum(y)
    ensures TotalB(a0, b0, x + y) == TotalB(a0, b0, x) + |y| * TotalA(a0, x) + Weighted(y)
  {
    Concat(x, y);
    hide Sum, Weighted;
    Distribute(a0, |x|, |y|);
    Distribute(|y|, a0, Sum(x));
  }

  lemma Distribute(k: int, x: int, y: int)
    ensures k * (x + y) == k * x + k * y && (x + y) * k == x * k + y * k
  {
  }

  lemma StandsReduced(a: nat, b: nat, a0: nat, b0: nat, d: seq<Byte>)
    requires Stands(a, b, a0, b0, d)
    ensures Stands(Red(a), Red(b), a0, b0, d)
  {
    hide Red, TotalA, TotalB;
    CongReduce(a);
    CongReduce(b);
  }

  // ---------------------------------------------------------------- scalar form and merge

  lemma OneByte(c: Byte)
    ensures Sum([c]) == c as nat && Weighted([c]) == c as nat
  {
    assert [c][..0] == [];
  }

  lemma Prefix(data: seq<Byte>, i: nat)
    requires i < |data|
    ensures data[..i + 1] == data[..i] + [data[i]]
  {
  }

  /** adler32_vanilla: 64-bit sums, reduced once at the end.  Exact for up to 2^28 bytes. */
  method Vanilla(data: seq<Byte>, sofar: nat) returns (r: nat)
    requires sofar < TWO_32
    ensures |data| <= 0x1000_0000 ==> r == Checksum(sofar, data) && (r == Rfc(sofar, data) <==> Meets(sofar, data))
  {
    hide Red, Lo, Hi, Wrap64, TotalA, TotalB, Checksum, Cong, Rfc, Meets;
    RfcExact(sofar, data);
    var a: nat, b: nat := Lo(sofar), Hi(sofar);
    ghost var a0, b0 := a, b;
    HalfBound(sofar);
    var i := 0;
    TotalStart(a0, b0, data);
    while i < |data|
      invariant 0 <= i <= |data|
      invariant i <= 0x1000_0000 ==> a == TotalA(a0, data[..i]) && b == TotalB(a0, b0, data[..i])
    {
      if i < 0x1000_0000 { ScalarStep(a, b, a0, b0, data, i); }
      a := Wrap64(a + data[i] as nat);
      b := Wrap64(b + a);
      i := i + 1;
    }
    assert data[..|data|] == data;
    if |data| <= 0x1000_0000 { TotalsAreChecksum(a, b, sofar, data); }
    a := Red(a);
    b := Red(b);
    r := b * 65536 + a;
  }

  lemma HalfBound(sofar: nat)
    requires sofar < TWO_32
    ensures Hi(sofar) < 65536
  {
  }

  lemma TotalStart(a0: nat, b0: nat, data: seq<Byte>)
    ensures TotalA(a0, data[..0]) == a0 && TotalB(a0, b0, data[..0]) == b0
  {
    assert data[..0] == [];
  }

  lemma TotalsAreChecksum(a: nat, b: nat, sofar: nat, d: seq<Byte>)
    requires a == TotalA(Lo(sofar), d) && b == TotalB(Lo(sofar), Hi(sofar), d)
    ensures Red(b) * 65536 + Red(a) == Checksum(sofar, d)
  {
    hide Red, Lo, Hi, TotalA, TotalB, Checksum;
    StandsIsChecksum(a, b, sofar, d);
  }

  lemma ScalarStep(a: nat, b: nat, a0: nat, b0: nat, data: seq<Byte>, i: nat)
    requires a0 < 65536 && b0 < 65536 && i < |data| && i < 0x1000_0000
    requires a == TotalA(a0, data[..i]) && b == TotalB(a0, b0, data[..i])
    ensures Wrap64(a + data[i] as nat) == a + data[i] as nat == TotalA(a0, data[..i + 1])
    ensures Wrap64(b + (a + data[i] as nat)) == b + (a + data[i] as nat) == TotalB(a0, b0, data[..i + 1])
  {
    var d := data[..i + 1];
    Prefix(data, i);
    TotalStep(a0, b0, d);
    TotalBound(a0, b0, d);
    hide TotalA, TotalB;
    Small(TotalA(a0, d));
    Small(TotalB(a0, b0, d));
  }

  /** Up to 2^28 bytes the 64-bit sums do not wrap around. */
  lemma TotalBound(a0: nat, b0: nat, d: seq<Byte>)
    requires a0 < 65536 && b0 < 65536 && |d| <= 0x1000_0000
    ensures TotalA(a0, d) < TWO_64 && TotalB(a0, b0, d) < TWO_64
  {
    hide Sum, Weighted;
    Bounds(d);
    var n := |d|;
    Times(n, 0x1000_0000, a0, 65535);
    Times(n, 0x1000_0000, n + 1, 0x1000_0001);
    var m := n * (n + 1);
    Regroup(n);
    assert 255 * n * (n + 1) == 255 * m;
  }

  lemma Regroup(n: nat)
    ensures 255 * n * (n + 1) == 255 * (n * (n + 1))
  {
  }

  lemma Times(x: nat, x': nat, y: nat, y': nat)
    requires x <= x' && y <= y'
    ensures x * y <= x' * y'
  {
    assert x * y <= x' * y;
    assert x' * y <= x' * y';
  }

  /** adler32_merge, in 64-bit arithmetic. */
  function Merged(left: nat, right: nat, size: nat): nat {
    var a := Wrap64(Lo(left) + (MOD_ADLER - 1));
    var b := Wrap64(Hi(left) + Wrap64(Wrap64(size * a) + Hi(right)));
    Red(b) * 65536 + Red(Wrap64(a + Lo(right)))
  }

  /** Two sums computed independently compose to the sum of the whole, for right parts of up to 2^46 bytes. */
  lemma MergeIsChecksum(sofar: nat, x: seq<Byte>, y: seq<Byte>)
    requires |y| <= 0x4000_0000_0000
    ensures Merged(Checksum(sofar, x), Checksum(1, y), |y|) == Checksum(sofar, x + y)
  {
    hide Update, TotalA, TotalB, Cong, Merged, Pack, Red, Lo, Hi;
    var a0, b0 := Red(Lo(sofar)), Red(Hi(sofar));
    UpdateClosed(a0, b0, x);
    UpdateClosed(1, 0, y);
    UpdateClosed(a0, b0, x + y);
    StartOne();
    MergeClosed(a0, b0, x, y);
  }

  lemma StartOne()
    ensures Red(Lo(1)) == 1 && Red(Hi(1)) == 0
  {
  }

  lemma MergeClosed(a0: nat, b0: nat, x: seq<Byte>, y: seq<Byte>)
    requires |y| <= 0x4000_0000_0000
    ensures Merged(Pack((Red(TotalA(a0, x)), Red(TotalB(a0, b0, x)))),
      Pack((Red(TotalA(1, y)), Red(TotalB(1, 0, y)))), |y|)
      == Pack((Red(TotalA(a0, x + y)), Red(TotalB(a0, b0, x + y))))
  {
    hide TotalA, TotalB, Merged, Red;
    var a, b := Red(TotalA(a0, x)), Red(TotalB(a0, b0, x));
    var d1, d2 := Red(TotalA(1, y)), Red(TotalB(1, 0, y));
    MergeNoWrap(a, b, d1, d2, |y|);
    MergeCong(a0, b0, x, y);
  }

  /** The 64-bit arithmetic of the merge does not wrap around. */
  lemma MergeNoWrap(a: nat, b: nat, d1: nat, d2: nat, n: nat)
    requires a < MOD_ADLER && b < MOD_ADLER && d1 < MOD_ADLER && d2 < MOD_ADLER && n <= 0x4000_0000_0000
    ensures Merged(Pack((a, b)), Pack((d1, d2)), n) == Pack((Red(a + 65520 + d1), Red(b + (n * (a + 65520) + d2))))
  {
    hide Red, Lo, Hi, Wrap64;
    Halving(a, b);
    Halving(d1, d2);
    Times(n, 0x4000_0000_0000, a + 65520, 131040);
    var p := n * (a + 65520);
    Small(a + 65520);
    Small(p);
    Small(p + d2);
    Small(b + (p + d2));
    Small(a + 65520 + d1);
  }

  lemma Small(x: nat)
    requires x < TWO_64
    ensures Wrap64(x) == x
  {
  }

  lemma Halving(a: nat, b: nat)
    requires a < MOD_ADLER && b < MOD_ADLER
    ensures Lo(Pack((a, b))) == a && Hi(Pack((a, b))) == b
  {
  }

  /** The right sum started from one; MOD_ADLER - 1 takes that back. */
  lemma MergeCong(a0: nat, b0: nat, x: seq<Byte>, y: seq<Byte>)
    ensures var a, b, d1, d2, n := Red(TotalA(a0, x)), Red(TotalB(a0, b0, x)), Red(TotalA(1, y)),
      Red(TotalB(1, 0, y)), |y|;
      && Cong(a + 65520 + d1, TotalA(a0, x + y))
      && Cong(b + (n * (a + 65520) + d2), TotalB(a0, b0, x + y))
  {
    hide Cong, Red, Sum, Weighted;
    var A, B, n, w := TotalA(a0, x), TotalB(a0, b0, x), |y|, Weighted(y);
    var a, b, d1, d2 := Red(A), Red(B), Red(TotalA(1, y)), Red(TotalB(1, 0, y));
    TotalConcat(a0, b0, x, y);
    CongReduce(A);
    CongReduce(B);
    CongReduce(TotalA(1, y));
    CongReduce(TotalB(1, 0, y));
    assert TotalB(1, 0, y) == n + w;
    hide TotalB;
    MergeA(a, A, d1, Sum(y));
    CongTimes(n, a, A);
    Distribute(n, a, 65520);
    MergeB(b, B, n * a, n * A, d2, n, w);
  }

  lemma MergeA(a: nat, A: nat, d1: nat, s: nat)
    requires Cong(a, A) && Cong(d1, 1 + s)
    ensures Cong(a + 65520 + d1, A + s)
  {
    hide Cong;
    var p := CongGives(a, A);
    var q := CongGives(d1, 1 + s);
    CongBy(a + 65520 + d1, A + s, p + q + 1);
  }

  lemma MergeB(b: nat, B: nat, na: nat, nA: nat, d2: nat, n: nat, w: nat)
    requires Cong(b, B) && Cong(na, nA) && Cong(d2, n + w)
    ensures Cong(b + (na + n * 65520 + d2), B + nA + w)
  {
    hide Cong;
    var p := CongGives(b, B);
    var q := CongGives(na, nA);
    var r := CongGives(d2, n + w);
    CongBy(b + (na + n * 65520 + d2), B + nA + w, p + q + r + n);
  }
}
