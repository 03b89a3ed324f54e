/** adler32_sse and adler32_memcpy_sse as a whole: bytes up to the next 16-byte boundary, blocks of 64-byte
    steps, single chunks, and the rest, each stored in the destination as it is summed. */
module AdlerCopy {
  import opened Adler
  import opened AdlerSse

  datatype Result<+T> = Ok(value: T) | IllegalArgument

  function Target(dest: array?<Byte>): set<object> { if dest == null then {} else {dest} }

  /** The first i bytes of src are in dest, the rest of dest is as it was; no destination, nothing to say. */
  ghost predicate Copied(dest: array?<Byte>, src: seq<Byte>, i: nat, was: seq<Byte>)
    reads dest
  {
    dest != null ==> i <= |src| && i <= |was| && dest[..] == src[..i] + was[i..]
  }

  /** The operation applied to each piece: nothing, or a store at the cursor. */
  method Store(dest: array?<Byte>, src: seq<Byte>, i: nat, n: nat, ghost was: seq<Byte>)
    requires i + n <= |src| && (dest != null ==> |src| <= |was|) && Copied(dest, src, i, was)
    modifies Target(dest)
    ensures Copied(dest, src, i + n, was)
  {
    if dest != null {
      var j := 0;
      while j < n
        invariant 0 <= j <= n && dest[..] == src[..i + j] + was[i + j..]
      {
        dest[i + j] := src[i + j];
        j := j + 1;
      }
    }
  }

  /** adler32_single on src[i]. */
  method Single(a: nat, b: nat, src: seq<Byte>, i: nat, ghost a0: nat, ghost b0: nat) returns (ra: nat, rb: nat)
    requires i < |src| && Stands(a, b, a0, b0, src[..i]) && a + b + 255 < TWO_32
    ensures ra == a + src[i] as nat && rb == b + ra && Stands(ra, rb, a0, b0, src[..i + 1])
  {
    hide Stands;
    ra := a + src[i] as nat;
    rb := b + ra;
    Prefix(src, i);
    OneByte(src[i]);
    StandsBlock(a, b, a0, b0, src[..i], [src[i]]);
  }

  /** A multiple of sixteen. */
  predicate Aligned(addr: nat) { addr % 16 == 0 }

  /** The distance to the next boundary. */
  ghost function Lead(addr: nat): (r: nat)
    ensures r < 16 && Aligned(addr + r)
  {
    (16 - addr % 16) % 16
  }

  /** Up to the next boundary: at most fifteen bytes. */
  method Align(src: seq<Byte>, addr: nat, a: nat, b: nat, dest: array?<Byte>, ghost was: seq<Byte>)
    returns (i: nat, ra: nat, rb: nat)
    requires |src| >= 16 && a < 65536 && b < 65536
    requires (dest != null ==> |src| <= |was|) && Copied(dest, src, 0, was)
    modifies Target(dest)
    ensures i < 16 && Aligned(addr + i) && ra <= 69360 && rb <= 1_105_935
    ensures Stands(ra, rb, a, b, src[..i]) && Copied(dest, src, i, was)
  {
    hide Stands, Aligned;
    i, ra, rb := 0, a, b;
    StandsStart(a, b, src);
    ghost var lead := Lead(addr);
    while !Aligned(addr + i)
      invariant 0 <= i <= lead < 16 && Aligned(addr + lead)
      invariant ra <= 65535 + 255 * i && rb <= 65535 + 69360 * i
      invariant Stands(ra, rb, a, b, src[..i]) && Copied(dest, src, i, was)
      decreases lead - i
    {
      ra, rb := Single(ra, rb, src, i, a, b);
      Store(dest, src, i, 1, was);
      i := i + 1;
    }
  }

  lemma StandsStart(a: nat, b: nat, src: seq<Byte>)
    ensures Stands(a, b, a, b, src[..0])
  {
    assert src[..0] == [];
  }

  /** The sums of up to 4096 bytes fit the 32-bit lanes. */
  lemma BlockBound(d: seq<Byte>)
    requires |d| <= 4096
    ensures Sum(d) <= 1_044_480 && Weighted(d) <= 2_139_617_280
  {
    hide Sum, Weighted;
    Bounds(d);
    var n := |d|;
    Times(n, 4096, n + 1, 4097);
    assert 255 * n * (n + 1) == 255 * (n * (n + 1));
  }

  /** The lanes hold the sums of d. */
  predicate Lanes(va: V4, vb: V4, d: seq<Byte>) {
    NonNeg4(va) && Sum4(va) == Sum(d) && NonNeg4(vb) && Sum4(vb) == Weighted(d)
  }

  lemma LanesFit(va: V4, vb: V4, d: seq<Byte>, c: seq<Byte>)
    requires Lanes(va, vb, d) && |d| + |c| <= 4096
    ensures NonNeg4(va) && NonNeg4(vb) && Sum4(va) + Sum(c) < 0x8000_0000
    ensures Sum4(vb) + |c| * Sum4(va) + Weighted(c) < 0x8000_0000
  {
    hide Sum, Weighted;
    Concat(d, c);
    BlockBound(d + c);
  }

  lemma LanesGrow(va: V4, vb: V4, ra: V4, rb: V4, d: seq<Byte>, c: seq<Byte>)
    requires Lanes(va, vb, d) && NonNeg4(ra) && NonNeg4(rb)
    requires Sum4(ra) == Sum4(va) + Sum(c) && Sum4(rb) == Sum4(vb) + |c| * Sum4(va) + Weighted(c)
    ensures Lanes(ra, rb, d + c)
  {
    hide Sum, Weighted;
    Concat(d, c);
  }

  /** Four chunks, or one, after the bytes d. */
  method Step64(va: V4, vb: V4, c: seq<Byte>, ghost d: seq<Byte>) returns (ra: V4, rb: V4)
    requires Lanes(va, vb, d) && |c| == 64 && |d| + 64 <= 4096
    ensures Lanes(ra, rb, d + c)
  {
    LanesFit(va, vb, d, c);
    hide Sum, Weighted;
    ra, rb := Chunk4(va, vb, c);
    LanesGrow(va, vb, ra, rb, d, c);
  }

  method Step16(va: V4, vb: V4, c: seq<Byte>, ghost d: seq<Byte>) returns (ra: V4, rb: V4)
    requires Lanes(va, vb, d) && |c| == 16 && |d| + 16 <= 4096
    ensures Lanes(ra, rb, d + c)
  {
    LanesFit(va, vb, d, c);
    hide Sum, Weighted;
    ra, rb := Chunk1(va, vb, c);
    LanesGrow(va, vb, ra, rb, d, c);
  }

  /** One block of nstep four-chunk steps. */
  method Block(src: seq<Byte>, i: nat, size: nat, dest: array?<Byte>, ghost was: seq<Byte>, ghost nstep: nat)
    returns (va: V4, vb: V4)
    requires size == 64 * nstep <= 4096 && i + size <= |src|
    requires (dest != null ==> |src| <= |was|) && Copied(dest, src, i, was)
    modifies Target(dest)
    ensures Lanes(va, vb, src[i..i + size]) && Copied(dest, src, i + size, was)
  {
    hide Lanes, Copied;
    va, vb := ZERO4, ZERO4;
    var j: nat := 0;
    ghost var k := 0;
    Empty(src, i);
    while j < size
      invariant 0 <= j <= size && j == 64 * k
      invariant Lanes(va, vb, src[i..i + j]) && Copied(dest, src, i + j, was)
    {
      assert src[i..i + j + 64] == src[i..i + j] + src[i + j..i + j + 64];
      va, vb := Step64(va, vb, src[i + j..i + j + 64], src[i..i + j]);
      Store(dest, src, i + j, 64, was);
      j, k := j + 64, k + 1;
    }
  }

  lemma Empty(src: seq<Byte>, i: nat)
    requires i <= |src|
    ensures Lanes(ZERO4, ZERO4, src[i..i])
  {
    assert src[i..i] == [];
  }

  /** Sums that may enter a block. */
  predicate Small(a: nat, b: nat) { a <= 69360 && b <= 1_105_935 }

  lemma ReduceFits(a: nat, b: nat, k: nat, s: nat, w: nat)
    requires Small(a, b) && k <= 4096 && s <= 1_044_480 && w <= 2_139_617_280
    ensures a + s < TWO_32 && b + k * a + w < TWO_32
  {
    Times(k, 4096, a, 69360);
  }

  lemma Joined(src: seq<Byte>, i: nat, n: nat, a: nat, b: nat, a0: nat, b0: nat)
    requires i + n <= |src| && Stands(a, b, a0, b0, src[..i])
    ensures var d := src[i..i + n];
      Stands(Red(a + Sum(d)), Red(b + n * a + Weighted(d)), a0, b0, src[..i + n])
  {
    hide Stands, Sum, Weighted;
    var d := src[i..i + n];
    assert src[..i + n] == src[..i] + d;
    StandsBlock(a, b, a0, b0, src[..i], d);
    StandsReduced(a + Sum(d), b + n * a + Weighted(d), a0, b0, src[..i + n]);
  }

  /** The lanes of src[i..i + n] join the sums of src[..i]. */
  method Fold(a: nat, b: nat, va: V4, vb: V4, src: seq<Byte>, ghost i: nat, n: nat, ghost a0: nat, ghost b0: nat)
    returns (ra: nat, rb: nat)
    requires Small(a, b) && i + n <= |src| && n <= 4096 && Stands(a, b, a0, b0, src[..i])
    requires Lanes(va, vb, src[i..i + n])
    ensures ra < MOD_ADLER && rb < MOD_ADLER && Stands(ra, rb, a0, b0, src[..i + n])
  {
    hide Stands, Sum, Weighted, Small;
    ghost var d := src[i..i + n];
    BlockBound(d);
    ReduceFits(a, b, n, Sum(d), Weighted(d));
    Joined(src, i, n, a, b, a0, b0);
    ra, rb := Reduce(a, b, va, vb, n);
  }

  lemma ReducedSmall(x: nat, y: nat)
    requires x < MOD_ADLER && y < MOD_ADLER
    ensures Small(x, y)
  {
  }

  method Blocks(src: seq<Byte>, start: nat, nstep: nat, a: nat, b: nat, dest: array?<Byte>,
                ghost was: seq<Byte>, ghost a0: nat, ghost b0: nat)
    returns (i: nat, ra: nat, rb: nat)
    requires 1 <= nstep <= 64 && start <= |src| && Small(a, b) && Stands(a, b, a0, b0, src[..start])
    requires (dest != null ==> |src| <= |was|) && Copied(dest, src, start, was)
    modifies Target(dest)
    ensures i <= |src| < i + 64 * nstep && Small(ra, rb) && Stands(ra, rb, a0, b0, src[..i])
    ensures Copied(dest, src, i, was)
  {
    hide Stands, Lanes, Small, Copied;
    var size := 64 * nstep;
    i, ra, rb := start, a, b;
    while i + size <= |src|
      invariant i <= |src| && Small(ra, rb) && Stands(ra, rb, a0, b0, src[..i]) && Copied(dest, src, i, was)
    {
      var va, vb := Block(src, i, size, dest, was, nstep);
      ra, rb := Fold(ra, rb, va, vb, src, i, size, a0, b0);
      ReducedSmall(ra, rb);
      i := i + size;
    }
  }

  method Singles(src: seq<Byte>, start: nat, a: nat, b: nat, dest: array?<Byte>,
                 ghost was: seq<Byte>, ghost a0: nat, ghost b0: nat)
    returns (i: nat, ra: nat, rb: nat)
    requires start <= |src| < start + 4096 && Small(a, b) && Stands(a, b, a0, b0, src[..start])
    requires (dest != null ==> |src| <= |was|) && Copied(dest, src, start, was)
    modifies Target(dest)
    ensures i <= |src| < i + 16 && ra < MOD_ADLER && rb < MOD_ADLER
    ensures Stands(ra, rb, a0, b0, src[..i]) && Copied(dest, src, i, was)
  {
    hide Stands, Lanes, Small, Copied;
    var va, vb := ZERO4, ZERO4;
    ghost var j: nat, k: nat := 0, 0;
    i := start;
    Empty(src, start);
    while i + 16 <= |src|
      invariant i == start + j <= |src| && j == 16 * k
      invariant Lanes(va, vb, src[start..start + j]) && Copied(dest, src, i, was)
    {
      assert src[start..start + j + 16] == src[start..start + j] + src[i..i + 16];
      va, vb := Step16(va, vb, src[i..i + 16], src[start..start + j]);
      Store(dest, src, i, 16, was);
      i := i + 16;
      j, k := j + 16, k + 1;
    }
    var nstep := (|src| - start) / 16;
    Quotient(|src| - start, k);
    ra, rb := Fold(a, b, va, vb, src, start, 16 * nstep, a0, b0);
  }

  lemma Quotient(n: nat, k: nat)
    requires 16 * k <= n < 16 * k + 16
    ensures n / 16 == k
  {
  }

  /** adler32_finish_sse: fewer than sixteen bytes are left. */
  method Finish(src: seq<Byte>, start: nat, a: nat, b: nat, dest: array?<Byte>, ghost was: seq<Byte>, ghost sofar: nat)
    returns (r: nat)
    requires start <= |src| < start + 16 && a < 65536 && b < 65536
    requires Stands(a, b, Lo(sofar), Hi(sofar), src[..start])
    requires (dest != null ==> |src| <= |was|) && Copied(dest, src, start, was)
    modifies Target(dest)
    ensures r == Checksum(sofar, src) && Copied(dest, src, |src|, was)
  {
    hide Stands, Checksum, Lo, Hi, Red;
    ghost var a0, b0 := Lo(sofar), Hi(sofar);
    var i: nat, ra: nat, rb: nat := start, a, b;
    while i < |src|
      invariant start <= i <= |src| && ra <= 65535 + 255 * (i - start) && rb <= 65535 + 69360 * (i - start)
      invariant Stands(ra, rb, a0, b0, src[..i]) && Copied(dest, src, i, was)
    {
      ra, rb := Single(ra, rb, src, i, a0, b0);
      Store(dest, src, i, 1, was);
      i := i + 1;
    }
    assert src[..|src|] == src;
    StandsIsChecksum(ra, rb, sofar, src);
    r := FinishPack(ra, rb);
  }

  method FinishPack(a: nat, b: nat) returns (r: nat)
    requires a < TWO_32 && b < TWO_32
    ensures r == Pack((Red(a), Red(b)))
  {
    Cut(a);
    Cut(b);
    hide Low32;
    r := Red(Low32(b)) * 65536 + Red(Low32(a));
  }

  /** adler32_sse, for any start address and any number of steps per block that the lanes allow; with a
      destination it is the body of adler32_memcpy_sse. */
  method Sse(src: seq<Byte>, addr: nat, sofar: nat, nstep: nat, dest: array?<Byte>) returns (r: nat)
    requires sofar < TWO_32 && 1 <= nstep <= 64 && (dest != null ==> |src| <= dest.Length)
    modifies Target(dest)
    ensures r == Checksum(sofar, src) && (r == Rfc(sofar, src) <==> Meets(sofar, src))
    ensures dest != null ==> dest[..] == src + old(dest[..])[|src|..]
  {
    hide Stands, Checksum, Small, Lo, Hi, Rfc, Meets;
    RfcExact(sofar, src);
    ghost var was: seq<Byte> := if dest == null then [] else dest[..];
    var a, b := Lo(sofar), Hi(sofar);
    HalfBound(sofar);
    ghost var a0, b0 := a, b;
    var i := 0;
    StandsStart(a, b, src);
    if |src| >= 16 {
      i, a, b := Align(src, addr, a, b, dest, was);
      SmallIs(a, b);
      i, a, b := Blocks(src, i, nstep, a, b, dest, was, a0, b0);
      i, a, b := Singles(src, i, a, b, dest, was, a0, b0);
    }
    r := Finish(src, i, a, b, dest, was, sofar);
    assert src[..|src|] == src;
  }

  lemma SmallIs(a: nat, b: nat)
    requires a <= 69360 && b <= 1_105_935
    ensures Small(a, b)
  {
  }

  const NSTEP: nat := 16

  /** adler32. */
  method Adler32(data: seq<Byte>, addr: nat, sofar: nat) returns (r: nat)
    requires sofar < TWO_32
    ensures r == Checksum(sofar, data) && (r == Rfc(sofar, data) <==> Meets(sofar, data))
  {
    r := Sse(data, addr, sofar, NSTEP, null);
  }

  /** adler32_memcpy: refuses buffers of different alignment, otherwise copies and sums. */
  method Memcpy(dest: array<Byte>, destAddr: nat, src: seq<Byte>, srcAddr: nat, sofar: nat) returns (r: Result<nat>)
    requires sofar < TWO_32 && |src| <= dest.Length
    modifies dest
    ensures destAddr % 16 != srcAddr % 16 ==> r.IllegalArgument? && dest[..] == old(dest[..])
    ensures destAddr % 16 == srcAddr % 16 ==>
      && r == Ok(Checksum(sofar, src)) && (r == Ok(Rfc(sofar, src)) <==> Meets(sofar, src))
      && dest[..] == src + old(dest[..])[|src|..]
  {
    if destAddr % 16 != srcAddr % 16 { return IllegalArgument; }
    var sum := Sse(src, srcAddr, sofar, NSTEP, dest);
    r := Ok(sum);
  }
}
