/** The SSSE3 form of Adler-32 (dbcore/adler.cpp:107-345): sixteen bytes at a time in 16-bit and 32-bit
    lanes, with the wrap-around of every lane written out. */
module AdlerSse {
  import opened Adler

  /** Eight signed 16-bit lanes, four signed 32-bit lanes. */
  datatype V8 = V8(x0: int, x1: int, x2: int, x3: int, x4: int, x5: int, x6: int, x7: int)
  datatype V4 = V4(x0: int, x1: int, x2: int, x3: int)

  function Wrap16(x: int): int { (x + 32768) % 65536 - 32768 }

  function Wrap32(x: int): int { (x + 0x8000_0000) % 0x1_0000_0000 - 0x8000_0000 }

  function Saturate16(x: int): int { if x > 32767 then 32767 else if x < -32768 then -32768 else x }

  // ---------------------------------------------------------------- the instructions

  /** pmaddubsw: unsigned bytes times signed weights, adjacent pairs added with saturation. */
  function Madd(b: seq<Byte>, w: seq<int>): V8
    requires |b| == 16 && |w| == 16
  {
    V8(Pair(b, w, 0), Pair(b, w, 2), Pair(b, w, 4), Pair(b, w, 6),
       Pair(b, w, 8), Pair(b, w, 10), Pair(b, w, 12), Pair(b, w, 14))
  }

  function Pair(b: seq<Byte>, w: seq<int>, i: nat): int
    requires i + 1 < |b| == |w|
  {
    Saturate16(b[i] as int * w[i] + b[i + 1] as int * w[i + 1])
  }

  const C2: seq<int> := [16, 15, 14, 13, 12, 11, 10, 9, 8, 7, 6, 5, 4, 3, 2, 1]
  const BONE: seq<int> := [1, 1, 1, 1, 1, 1, 1, 1, 1, 1, 1, 1, 1, 1, 1, 1]
  const B16: seq<int> := [16, 16, 16, 16, 16, 16, 16, 16, 16, 16, 16, 16, 16, 16, 16, 16]
  const ZERO8 := V8(0, 0, 0, 0, 0, 0, 0, 0)
  const ZERO4 := V4(0, 0, 0, 0)

  function Add8(u: V8, v: V8): V8 {
    V8(Wrap16(u.x0 + v.x0), Wrap16(u.x1 + v.x1), Wrap16(u.x2 + v.x2), Wrap16(u.x3 + v.x3),
       Wrap16(u.x4 + v.x4), Wrap16(u.x5 + v.x5), Wrap16(u.x6 + v.x6), Wrap16(u.x7 + v.x7))
  }

  /** Arithmetic shift right by four. */
  function Shift4(v: V8): V8 {
    V8(v.x0 / 16, v.x1 / 16, v.x2 / 16, v.x3 / 16, v.x4 / 16, v.x5 / 16, v.x6 / 16, v.x7 / 16)
  }

  /** pmaddwd with a vector of ones. */
  function Pairs(v: V8): V4 { V4(v.x0 + v.x1, v.x2 + v.x3, v.x4 + v.x5, v.x6 + v.x7) }

  /** punpcklwd and punpckhwd with zero: lanes read as unsigned. */
  function Low(v: V8): V4 { V4(Unsigned16(v.x0), Unsigned16(v.x1), Unsigned16(v.x2), Unsigned16(v.x3)) }

  function High(v: V8): V4 { V4(Unsigned16(v.x4), Unsigned16(v.x5), Unsigned16(v.x6), Unsigned16(v.x7)) }

  function Add4(u: V4, v: V4): V4 {
    V4(Wrap32(u.x0 + v.x0), Wrap32(u.x1 + v.x1), Wrap32(u.x2 + v.x2), Wrap32(u.x3 + v.x3))
  }

  function Times4(k: int, v: V4): V4 { V4(Wrap32(k * v.x0), Wrap32(k * v.x1), Wrap32(k * v.x2), Wrap32(k * v.x3)) }

  /** Two phaddd: the sums of all lanes of u and of v. */
  function Across(u: V4, v: V4): (int, int) {
    (Wrap32(Wrap32(u.x0 + u.x1) + Wrap32(u.x2 + u.x3)), Wrap32(Wrap32(v.x0 + v.x1) + Wrap32(v.x2 + v.x3)))
  }

  // ---------------------------------------------------------------- lanes without wrap-around

  predicate In8(v: V8, lo: int, hi: int) {
    && lo <= v.x0 <= hi && lo <= v.x1 <= hi && lo <= v.x2 <= hi && lo <= v.x3 <= hi
    && lo <= v.x4 <= hi && lo <= v.x5 <= hi && lo <= v.x6 <= hi && lo <= v.x7 <= hi
  }

  function Sum8(v: V8): int { v.x0 + v.x1 + v.x2 + v.x3 + v.x4 + v.x5 + v.x6 + v.x7 }

  function Sum4(v: V4): int { v.x0 + v.x1 + v.x2 + v.x3 }

  predicate NonNeg4(v: V4) { 0 <= v.x0 && 0 <= v.x1 && 0 <= v.x2 && 0 <= v.x3 }

  /** The lanes of v, read as unsigned. */
  function Unsigned(v: V8): V8 {
    V8(Unsigned16(v.x0), Unsigned16(v.x1), Unsigned16(v.x2), Unsigned16(v.x3),
       Unsigned16(v.x4), Unsigned16(v.x5), Unsigned16(v.x6), Unsigned16(v.x7))
  }

  lemma Fits16(x: int)
    requires -32768 <= x <= 32767
    ensures Wrap16(x) == x
  {
  }

  lemma Fits32(x: int)
    requires -0x8000_0000 <= x < 0x8000_0000
    ensures Wrap32(x) == x
  {
  }

  lemma Add8Exact(u: V8, v: V8, m: int, n: int)
    requires In8(u, 0, m) && In8(v, 0, n) && m + n <= 32767
    ensures In8(Add8(u, v), 0, m + n) && Sum8(Add8(u, v)) == Sum8(u) + Sum8(v)
    ensures Add8(u, v) == V8(u.x0 + v.x0, u.x1 + v.x1, u.x2 + v.x2, u.x3 + v.x3, u.x4 + v.x4, u.x5 + v.x5,
      u.x6 + v.x6, u.x7 + v.x7)
  {
    hide Wrap16;
    Fits16(u.x0 + v.x0);
    Fits16(u.x1 + v.x1);
    Fits16(u.x2 + v.x2);
    Fits16(u.x3 + v.x3);
    Fits16(u.x4 + v.x4);
    Fits16(u.x5 + v.x5);
    Fits16(u.x6 + v.x6);
    Fits16(u.x7 + v.x7);
  }

  /** A lane read as unsigned. */
  function Unsigned16(x: int): int { x % 65536 }

  /** A lane that uses the sign bit is still exact when read as unsigned. */
  lemma WrapUnsigned(x: int, y: int)
    requires 0 <= Unsigned16(x) + y < 65536
    ensures Unsigned16(Wrap16(x + y)) == Unsigned16(x) + y
  {
  }

  lemma Add8Unsigned(u: V8, v: V8, m: int, n: int)
    requires In8(Unsigned(u), 0, m) && In8(v, 0, n) && m + n < 65536
    ensures In8(Unsigned(Add8(u, v)), 0, m + n)
    ensures Sum8(Unsigned(Add8(u, v))) == Sum8(Unsigned(u)) + Sum8(v)
  {
    hide Wrap16, Unsigned16;
    WrapUnsigned(u.x0, v.x0);
    WrapUnsigned(u.x1, v.x1);
    WrapUnsigned(u.x2, v.x2);
    WrapUnsigned(u.x3, v.x3);
    WrapUnsigned(u.x4, v.x4);
    WrapUnsigned(u.x5, v.x5);
    WrapUnsigned(u.x6, v.x6);
    WrapUnsigned(u.x7, v.x7);
  }

  lemma Add4Exact(u: V4, v: V4)
    requires NonNeg4(u) && NonNeg4(v) && Sum4(u) + Sum4(v) < 0x8000_0000
    ensures NonNeg4(Add4(u, v)) && Sum4(Add4(u, v)) == Sum4(u) + Sum4(v)
  {
    hide Wrap32;
    Fits32(u.x0 + v.x0);
    Fits32(u.x1 + v.x1);
    Fits32(u.x2 + v.x2);
    Fits32(u.x3 + v.x3);
  }

  lemma Times4Exact(k: nat, v: V4)
    requires NonNeg4(v) && k * Sum4(v) < 0x8000_0000
    ensures NonNeg4(Times4(k, v)) && Sum4(Times4(k, v)) == k * Sum4(v)
  {
    hide Wrap32;
    assert k * Sum4(v) == k * v.x0 + k * v.x1 + k * v.x2 + k * v.x3;
    Fits32(k * v.x0);
    Fits32(k * v.x1);
    Fits32(k * v.x2);
    Fits32(k * v.x3);
  }

  lemma AcrossExact(u: V4, v: V4)
    requires NonNeg4(u) && NonNeg4(v) && Sum4(u) < 0x8000_0000 && Sum4(v) < 0x8000_0000
    ensures Across(u, v) == (Sum4(u), Sum4(v))
  {
    hide Wrap32;
    Fits32(u.x0 + u.x1);
    Fits32(u.x2 + u.x3);
    Fits32(Sum4(u));
    Fits32(v.x0 + v.x1);
    Fits32(v.x2 + v.x3);
    Fits32(Sum4(v));
  }

  // ---------------------------------------------------------------- sixteen bytes

  lemma Split(d: seq<Byte>, k: nat)
    requires k <= |d|
    ensures Sum(d) == Sum(d[..k]) + Sum(d[k..])
    ensures Weighted(d) == Weighted(d[..k]) + (|d| - k) * Sum(d[..k]) + Weighted(d[k..])
  {
    assert d == d[..k] + d[k..];
    Concat(d[..k], d[k..]);
  }

  lemma Four(d: seq<Byte>)
    requires |d| == 4
    ensures Sum(d) == d[0] as int + d[1] as int + d[2] as int + d[3] as int
    ensures Weighted(d) == 4 * d[0] as int + 3 * d[1] as int + 2 * d[2] as int + d[3] as int
  {
    assert d[..3][..2][..1][..0] == [];
    assert d[..3][..2] == d[..2] && d[..2][..1] == d[..1] && d[..1][..0] == [];
    assert Sum(d[..1]) == d[0] as int && Sum(d[..2]) == Sum(d[..1]) + d[1] as int &&
      Sum(d[..3]) == Sum(d[..2]) + d[2] as int;
    assert Weighted(d[..1]) == Sum(d[..1]) && Weighted(d[..2]) == Weighted(d[..1]) + Sum(d[..2]);
  }

  /** The weights of the sixteen bytes of a chunk, four at a time. */
  lemma Sixteen(d: seq<Byte>)
    requires |d| == 16
    ensures Sum(d) == Sum(d[..4]) + Sum(d[4..8]) + Sum(d[8..12]) + Sum(d[12..])
    ensures Weighted(d) == Weighted(d[..4]) + Weighted(d[4..8]) + Weighted(d[8..12]) + Weighted(d[12..])
      + 12 * Sum(d[..4]) + 8 * Sum(d[4..8]) + 4 * Sum(d[8..12])
  {
    hide Sum, Weighted;
    Split(d, 8);
    Split(d[..8], 4);
    Split(d[8..], 4);
    assert d[..8][..4] == d[..4] && d[..8][4..] == d[4..8] && d[8..][..4] == d[8..12] && d[8..][4..] == d[12..];
  }

  lemma SixteenWeights(d: seq<Byte>)
    requires |d| == 16
    ensures Sum(d) == Dot(d, BONE) && Weighted(d) == Dot(d, C2) && Dot(d, B16) == 16 * Sum(d)
  {
    hide Sum, Weighted, Dot;
    Sixteen(d);
    Four(d[..4]);
    Four(d[4..8]);
    Four(d[8..12]);
    Four(d[12..]);
    OnesDot(d);
    C2Dot(d);
  }

  /** The i-th byte as a number. */
  function At(d: seq<Byte>, i: nat): int
    requires i < |d|
  {
    d[i] as int
  }

  lemma OnesDot(d: seq<Byte>)
    requires |d| == 16
    ensures Dot(d, BONE) == At(d, 0) + At(d, 1) + At(d, 2) + At(d, 3) + At(d, 4) + At(d, 5) + At(d, 6) + At(d, 7)
      + At(d, 8) + At(d, 9) + At(d, 10) + At(d, 11) + At(d, 12) + At(d, 13) + At(d, 14) + At(d, 15)
    ensures Dot(d, B16) == 16 * Dot(d, BONE)
  {
  }

  lemma C2Dot(d: seq<Byte>)
    requires |d| == 16
    ensures Dot(d, C2) == 16 * At(d, 0) + 15 * At(d, 1) + 14 * At(d, 2) + 13 * At(d, 3)
      + 12 * At(d, 4) + 11 * At(d, 5) + 10 * At(d, 6) + 9 * At(d, 7)
      + 8 * At(d, 8) + 7 * At(d, 9) + 6 * At(d, 10) + 5 * At(d, 11)
      + 4 * At(d, 12) + 3 * At(d, 13) + 2 * At(d, 14) + At(d, 15)
  {
  }

  /** Sum of the bytes times their weights. */
  function Dot(d: seq<Byte>, w: seq<int>): int
    requires |d| == 16 && |w| == 16
  {
    Two(d, w, 0) + Two(d, w, 2) + Two(d, w, 4) + Two(d, w, 6)
    + Two(d, w, 8) + Two(d, w, 10) + Two(d, w, 12) + Two(d, w, 14)
  }

  function Two(d: seq<Byte>, w: seq<int>, i: nat): int
    requires i + 1 < |d| == |w|
  {
    d[i] as int * w[i] + d[i + 1] as int * w[i + 1]
  }

  lemma PairExact(d: seq<Byte>, w: seq<int>, i: nat, m: nat)
    requires i + 1 < |d| == |w| && WeightsAt(w, i, m) && m <= 128
    ensures Pair(d, w, i) == Two(d, w, i) && 0 <= Two(d, w, i) <= 255 * m
  {
    TwoBound(d[i] as int, d[i + 1] as int, w[i], w[i + 1], m);
  }

  lemma TwoBound(x: nat, y: nat, p: nat, q: nat, m: nat)
    requires x <= 255 && y <= 255 && p + q <= m
    ensures 0 <= x * p + y * q <= 255 * m
  {
    Times(x, 255, p, p);
    Times(y, 255, q, q);
  }

  predicate WeightsAt(w: seq<int>, i: nat, m: nat)
    requires i + 1 < |w|
  {
    0 <= w[i] && 0 <= w[i + 1] && w[i] + w[i + 1] <= m
  }

  lemma MaddExact(d: seq<Byte>, w: seq<int>, m: nat)
    requires |d| == 16 && |w| == 16 && m <= 128
    requires WeightsAt(w, 0, m) && WeightsAt(w, 2, m) && WeightsAt(w, 4, m) && WeightsAt(w, 6, m)
    requires WeightsAt(w, 8, m) && WeightsAt(w, 10, m) && WeightsAt(w, 12, m) && WeightsAt(w, 14, m)
    ensures In8(Madd(d, w), 0, 255 * m) && Sum8(Madd(d, w)) == Dot(d, w)
  {
    hide Pair, Two;
    PairExact(d, w, 0, m);
    PairExact(d, w, 2, m);
    PairExact(d, w, 4, m);
    PairExact(d, w, 6, m);
    PairExact(d, w, 8, m);
    PairExact(d, w, 10, m);
    PairExact(d, w, 12, m);
    PairExact(d, w, 14, m);
  }

  lemma Lanes16(d: seq<Byte>)
    requires |d| == 16
    ensures Sixteenths(Madd(d, B16))
  {
    forall i | 0 <= i < 15 ensures Pair(d, B16, i) % 16 == 0 {
      PairExact(d, B16, i, 32);
      assert Pair(d, B16, i) == 16 * (d[i] as int + d[i + 1] as int);
    }
  }

  /** The three products of a chunk: its sum, its weighted sum, and sixteen times its sum, lane by lane in range. */
  lemma ChunkSums(d: seq<Byte>)
    requires |d| == 16
    ensures In8(Madd(d, BONE), 0, 510) && Sum8(Madd(d, BONE)) == Sum(d)
    ensures In8(Madd(d, C2), 0, 7905) && Sum8(Madd(d, C2)) == Weighted(d)
    ensures In8(Madd(d, B16), 0, 8160) && Sum8(Madd(d, B16)) == 16 * Sum(d) && Sixteenths(Madd(d, B16))
  {
    hide Sum, Weighted, Dot, Madd, In8, Sum8, Sixteenths;
    SixteenWeights(d);
    MaddExact(d, BONE, 2);
    MaddExact(d, C2, 31);
    MaddExact(d, B16, 32);
    Lanes16(d);
  }

  /** All lanes are multiples of sixteen. */
  predicate Sixteenths(v: V8) {
    && Sixteenth(v.x0) && Sixteenth(v.x1) && Sixteenth(v.x2) && Sixteenth(v.x3)
    && Sixteenth(v.x4) && Sixteenth(v.x5) && Sixteenth(v.x6) && Sixteenth(v.x7)
  }

  lemma Shift4Exact(v: V8)
    requires Sixteenths(v)
    ensures 16 * Sum8(Shift4(v)) == Sum8(v)
  {
  }

  // ---------------------------------------------------------------- chunks

  lemma SixtyFour(d: seq<Byte>)
    requires |d| == 64
    ensures Sum(d) == Sum(d[..16]) + Sum(d[16..32]) + Sum(d[32..48]) + Sum(d[48..])
    ensures Weighted(d) == Weighted(d[..16]) + Weighted(d[16..32]) + Weighted(d[32..48]) + Weighted(d[48..])
      + 48 * Sum(d[..16]) + 32 * Sum(d[16..32]) + 16 * Sum(d[32..48])
  {
    hide Sum, Weighted;
    Split(d, 32);
    Split(d[..32], 16);
    Split(d[32..], 16);
    assert d[..32][..16] == d[..16] && d[..32][16..] == d[16..32] && d[32..][..16] == d[32..48] &&
      d[32..][16..] == d[48..];
  }

  /** adler32_sse_chunk4_fast: no 16-bit lane overflows on the way, and s2y only uses its sign bit as a digit. */
  method Chunk4(va: V4, vb: V4, d: seq<Byte>) returns (ra: V4, rb: V4)
    requires |d| == 64 && NonNeg4(va) && NonNeg4(vb)
    requires Sum4(va) + Sum(d) < 0x8000_0000 && Sum4(vb) + 64 * Sum4(va) + Weighted(d) < 0x8000_0000
    ensures NonNeg4(ra) && Sum4(ra) == Sum4(va) + Sum(d)
    ensures NonNeg4(rb) && Sum4(rb) == Sum4(vb) + 64 * Sum4(va) + Weighted(d)
  {
    hide Sum, Weighted, Madd, Add8, In8, Sum8, Shift4, Unsigned, Sixteenths;
    ghost var c0, c1, c2, c3 := d[..16], d[16..32], d[32..48], d[48..];
    SixtyFour(d);
    var s1, s2x, s2y;
    s2y := ZERO8;
    s1 := Madd(d[..16], B16);
    s2x := Madd(d[..16], C2);
    ChunkSums(c0);
    Zero8();

    s2y, s1, s2x := Round(s2y, s1, s2x, d[16..32], 0, 8160, 7905);
    s2y, s1, s2x := Round(s2y, s1, s2x, d[32..48], 8160, 16320, 15810);
    s2y, s1, s2x := Round(s2y, s1, s2x, d[48..], 24480, 24480, 23715);

    InWider(s1, 32640);
    InWider(s2x, 31620);
    Shift4Exact(s1);
    ShiftRange(s1);
    s1 := Shift4(s1);
    var d1 := Pairs(s1);
    PairsExact(s1);
    var d2 := Pairs(s2x);
    PairsExact(s2x);
    Halves8(s2y);
    assert Sum4(d2) + Sum4(Low(s2y)) + Sum4(High(s2y)) == Weighted(d);
    Add4Exact(d2, Low(s2y));
    d2 := Add4(d2, Low(s2y));
    Add4Exact(d2, High(s2y));
    d2 := Add4(d2, High(s2y));

    Times4Exact(64, va);
    Add4Exact(Times4(64, va), d2);
    Add4Exact(vb, Add4(Times4(64, va), d2));
    rb := Add4(vb, Add4(Times4(64, va), d2));
    Add4Exact(va, d1);
    ra := Add4(va, d1);
  }

  lemma Zero8()
    ensures In8(Unsigned(ZERO8), 0, 0) && Sum8(Unsigned(ZERO8)) == 0
  {
  }

  /** One of the three equal rounds of a four-chunk step. */
  method Round(s2y: V8, s1: V8, s2x: V8, d: seq<Byte>, ghost my: nat, ghost m1: nat, ghost mx: nat)
    returns (ry: V8, r1: V8, rx: V8)
    requires |d| == 16 && In8(Unsigned(s2y), 0, my) && In8(s1, 0, m1) && In8(s2x, 0, mx) && Sixteenths(s1)
    requires my + m1 < 65536 && m1 + 8160 <= 32767 && mx + 7905 <= 32767
    ensures In8(Unsigned(ry), 0, my + m1) && Sum8(Unsigned(ry)) == Sum8(Unsigned(s2y)) + Sum8(s1)
    ensures In8(r1, 0, m1 + 8160) && Sum8(r1) == Sum8(s1) + 16 * Sum(d) && Sixteenths(r1)
    ensures In8(rx, 0, mx + 7905) && Sum8(rx) == Sum8(s2x) + Weighted(d)
  {
    hide Sum, Weighted, Madd, Add8, In8, Sum8, Unsigned, Sixteenths;
    ChunkSums(d);
    Add8Unsigned(s2y, s1, my, m1);
    ry := Add8(s2y, s1);
    AddSixteenths(s1, Madd(d, B16), m1, 8160);
    Add8Exact(s1, Madd(d, B16), m1, 8160);
    r1 := Add8(s1, Madd(d, B16));
    Add8Exact(s2x, Madd(d, C2), mx, 7905);
    rx := Add8(s2x, Madd(d, C2));
  }

  lemma AddSixteenths(u: V8, v: V8, m: int, n: int)
    requires In8(u, 0, m) && In8(v, 0, n) && m + n <= 32767 && Sixteenths(u) && Sixteenths(v)
    ensures Sixteenths(Add8(u, v))
  {
    hide Add8, Sixteenth;
    Add8Exact(u, v, m, n);
    Multiple(u.x0, v.x0);
    Multiple(u.x1, v.x1);
    Multiple(u.x2, v.x2);
    Multiple(u.x3, v.x3);
    Multiple(u.x4, v.x4);
    Multiple(u.x5, v.x5);
    Multiple(u.x6, v.x6);
    Multiple(u.x7, v.x7);
  }

  predicate Sixteenth(x: int) { x % 16 == 0 }

  lemma Multiple(x: int, y: int)
    requires Sixteenth(x) && Sixteenth(y)
    ensures Sixteenth(x + y)
  {
  }

  lemma ShiftRange(v: V8)
    requires In8(v, 0, 32767)
    ensures In8(Shift4(v), 0, 32767)
  {
  }

  lemma PairsExact(v: V8)
    requires In8(v, 0, 32767)
    ensures NonNeg4(Pairs(v)) && Sum4(Pairs(v)) == Sum8(v)
  {
  }

  lemma Halves8(v: V8)
    ensures NonNeg4(Low(v)) && NonNeg4(High(v)) && Sum4(Low(v)) + Sum4(High(v)) == Sum8(Unsigned(v))
  {
  }

  /** adler32_sse_chunk1_fast. */
  method Chunk1(va: V4, vb: V4, d: seq<Byte>) returns (ra: V4, rb: V4)
    requires |d| == 16 && NonNeg4(va) && NonNeg4(vb)
    requires Sum4(va) + Sum(d) < 0x8000_0000 && Sum4(vb) + 16 * Sum4(va) + Weighted(d) < 0x8000_0000
    ensures NonNeg4(ra) && Sum4(ra) == Sum4(va) + Sum(d)
    ensures NonNeg4(rb) && Sum4(rb) == Sum4(vb) + 16 * Sum4(va) + Weighted(d)
  {
    hide Sum, Weighted, Madd, In8, Sum8;
    ChunkSums(d);
    var s1, s2 := Madd(d, BONE), Madd(d, C2);
    InWider(s1, 510);
    InWider(s2, 7905);
    PairsExact(s1);
    PairsExact(s2);
    var d1, d2 := Pairs(s1), Pairs(s2);
    Times4Exact(16, va);
    Add4Exact(Times4(16, va), d2);
    Add4Exact(vb, Add4(Times4(16, va), d2));
    rb := Add4(vb, Add4(Times4(16, va), d2));
    Add4Exact(va, d1);
    ra := Add4(va, d1);
  }

  lemma InWider(v: V8, m: int)
    requires In8(v, 0, m) && m <= 32767
    ensures In8(v, 0, 32767)
  {
  }

  /** adler32_sse_reduce: the sums of the lanes join the scalar sums, which are then cut to 32 bits and reduced. */
  method Reduce(a: nat, b: nat, va: V4, vb: V4, k: nat) returns (ra: nat, rb: nat)
    requires NonNeg4(va) && NonNeg4(vb) && Sum4(va) < 0x8000_0000 && Sum4(vb) < 0x8000_0000
    requires a + Sum4(va) < TWO_32 && b + k * a + Sum4(vb) < TWO_32
    ensures ra == Red(a + Sum4(va)) && rb == Red(b + k * a + Sum4(vb))
  {
    hide Across, Low32, Red;
    AcrossExact(va, vb);
    var sums := Across(va, vb);
    rb := b + k * a + sums.1;
    ra := a + sums.0;
    Cut(ra);
    Cut(rb);
    ra := Red(Low32(ra));
    rb := Red(Low32(rb));
  }

  /** The cast to uint32_t. */
  function Low32(x: nat): nat { x % TWO_32 }

  lemma Cut(x: nat)
    requires x < TWO_32
    ensures Low32(x) == x
  {
  }
}
