/** The 8-bit size codes of dbcore/size-encode.cpp: four bits of exponent and four of mantissa. */
module SizeCode {

  const INVALID_SIZE: nat := 0xffff_ffff_ffff_ffff
  const INVALID_CODE: nat := 255
  const MAX_SIZE: nat := 950272

  function Pow2(e: nat): (r: nat)
    ensures r >= 1
  {
    if e == 0 then 1 else 2 * Pow2(e - 1)
  }

  /** x >> e. */
  function Shr(x: nat, e: nat): nat { if e == 0 then x else Shr(x / 2, e - 1) }

  /** decode_table: 16 - (15 >> e). */
  function Base(e: nat): nat {
    if e == 0 then 1 else if e == 1 then 9 else if e == 2 then 13 else if e == 3 then 15 else 16
  }

  lemma BaseIsShift(e: nat)
    requires e < 16
    ensures Base(e) == 16 - Shr(15, e)
  {
    assert Shr(15, 1) == 7 && Shr(15, 2) == 3 && Shr(15, 3) == 1;
    if e >= 4 { ShrZero(e - 4); }
  }

  lemma {:induction false} ShrZero(e: nat)
    ensures Shr(0, e) == 0 && Shr(15, e + 4) == 0
  {
    if e > 0 { ShrZero(e - 1); }
    assert Shr(15, e + 4) == Shr(7, e + 3) == Shr(3, e + 2) == Shr(1, e + 1) == Shr(0, e);
  }

  /** Shifting right is rounding down to a multiple of 2^e. */
  lemma {:induction false} ShrBounds(x: nat, e: nat)
    ensures Shr(x, e) * Pow2(e) <= x < Shr(x, e) * Pow2(e) + Pow2(e)
  {
    if e > 0 {
      ShrBounds(x / 2, e - 1);
      Double(Shr(x, e), Pow2(e - 1));
    }
  }

  lemma Double(q: nat, p: nat)
    ensures q * (2 * p) == 2 * (q * p)
  {
  }

  /** decode_size_helper. */
  function Helper(c: nat): nat { (c % 16 + Base(c / 16)) * Pow2(c / 16) }

  /** _decode_size, with the 8-bit wrap of code + 0xff. */
  function Decode(code: nat): nat
    requires code < 256
  {
    if (code + 1) / 16 % 16 != 0 then Helper((code + 255) % 256)
    else if code < 128 then code else INVALID_SIZE
  }

  // ---------------------------------------------------------------- powers of two

  lemma Powers()
    ensures Pow2(0) == 1 && Pow2(1) == 2 && Pow2(2) == 4 && Pow2(3) == 8 && Pow2(4) == 16
  {
  }

  lemma {:induction false} Grows(d: nat, e: nat)
    requires d <= e
    ensures 1 <= Pow2(d) <= Pow2(e)
  {
    if e == 0 { } else if d == e { Grows(d - 1, e - 1); } else { Grows(d, e - 1); }
  }

  lemma Strict(d: nat, e: nat)
    ensures d < e ==> 2 * Pow2(d) <= Pow2(e)
  {
    if d < e { Grows(d + 1, e); }
  }

  lemma Biggest()
    ensures Pow2(15) == 32768 && Pow2(20) == 1048576
  {
    assert Pow2(5) == 32 && Pow2(10) == 1024;
    assert Pow2(15) == 32 * Pow2(10);
    assert Pow2(20) == 32 * Pow2(15);
  }

  // ---------------------------------------------------------------- decoding

  /** Every code but the last is the value of the one before, read as exponent and mantissa. */
  lemma DecodeIs(code: nat)
    requires 0 < code < 255
    ensures Decode(code) == Helper(code - 1)
  {
    if (code + 1) / 16 % 16 == 0 {
      assert code < 15;
      OwnSize(code - 1);
    } else {
      hide Helper;
      assert (code + 255) % 256 == code - 1;
    }
  }

  lemma OwnSize(c: nat)
    requires c < 14
    ensures Helper(c) == c + 1
  {
    hide Pow2;
    assert c / 16 == 0 && c % 16 == c;
    Powers();
  }

  lemma HelperOf(e: nat, m: nat)
    requires m < 16
    ensures Helper(16 * e + m) == (m + Base(e)) * Pow2(e)
  {
    hide Pow2, Base;
    assert (16 * e + m) / 16 == e && (16 * e + m) % 16 == m;
  }

  lemma HelperNext(c: nat)
    ensures Helper(c) < Helper(c + 1)
  {
    var e, m := c / 16, c % 16;
    hide Pow2, Helper;
    HelperOf(e, m);
    if m < 15 {
      HelperOf(e, m + 1);
      Spread(m + Base(e), 1, Pow2(e));
    } else {
      HelperOf(e + 1, 0);
      Carry(e);
    }
  }

  lemma Spread(a: nat, b: nat, p: nat)
    ensures (a + b) * p == a * p + b * p
  {
  }

  /** The largest value of an exponent lies below the smallest of the next. */
  lemma Carry(e: nat)
    ensures (15 + Base(e)) * Pow2(e) < Base(e + 1) * Pow2(e + 1)
  {
    Powers();
    Grows(0, e);
    var p := Pow2(e);
    if e >= 4 { assert 16 * (2 * p) == 31 * p + p; }
  }

  /** Codes compare like the sizes they stand for. */
  lemma {:induction false} Increasing(c: nat, d: nat)
    requires c < d < 256
    ensures Decode(c) < Decode(d)
    decreases d - c
  {
    if c + 1 < d { Increasing(c, d - 1); }
    hide Decode;
    NextCode(d - 1);
  }

  lemma NextCode(c: nat)
    requires c < 255
    ensures Decode(c) < Decode(c + 1)
  {
    hide Decode, Helper, Pow2;
    if c == 254 { Ends(); }
    else if c == 0 { FirstCodes(); }
    else {
      DecodeIs(c);
      DecodeIs(c + 1);
      HelperNext(c - 1);
    }
  }

  lemma FirstCodes()
    ensures Decode(0) == 0 && Decode(1) == 1
  {
    DecodeIs(1);
    HelperOf(0, 0);
  }

  lemma Largest()
    ensures Decode(254) == MAX_SIZE
  {
    DecodeIs(254);
    HelperOf(15, 13);
    Biggest();
  }

  /** c is the least code whose size covers sz. */
  predicate Least(sz: nat, c: nat)
    requires c < 256
  {
    sz <= Decode(c) && (c > 0 ==> Decode(c - 1) < sz)
  }

  /** There is only one least code, and every smaller code falls short. */
  lemma LeastUnique(sz: nat, c: nat, d: nat)
    requires c < 256 && d < 256 && Least(sz, c) && Least(sz, d)
    ensures c == d
  {
    if c < d && c < d - 1 { Increasing(c, d - 1); }
    if d < c && d < c - 1 { Increasing(d, c - 1); }
  }

  // ---------------------------------------------------------------- the branchy encoder

  /** Floor of the binary logarithm; 31 - __builtin_clz. */
  function Log2(x: nat): (r: nat)
    requires x > 0
    ensures Pow2(r) <= x < 2 * Pow2(r)
  {
    if x == 1 then 0 else 1 + Log2(x / 2)
  }

  /** Round up to exponent e. */
  function DoIt(sz: nat, e: nat): int
    requires e < 4
  {
    16 * e + Shr(sz + Pow2(e) - 1, e) - Base(e) + 1
  }

  function EncodeLarge(sz: nat): int
    requires sz > 256
  {
    LogRange(sz);
    var e := Log2(sz) - 4;
    var up := sz + Pow2(e) - 1;
    LogRange(up);
    var e2 := Log2(up) - 4;
    16 * e2 + Shr(up, e2) - 16 + 1
  }

  /** encode_size. */
  function Encode(sz: nat): int {
    if sz <= 112 then
      if sz <= 48 then
        if sz < 18 then sz else DoIt(sz, 1)
      else if sz <= 52 then 33 else DoIt(sz, 2)
    else if sz <= 240 then
      if sz <= 120 then 49 else DoIt(sz, 3)
    else if sz <= 256 then 65
    else if sz <= MAX_SIZE then EncodeLarge(sz)
    else INVALID_CODE
  }

  /** The bounds in the tests of encode_size are the first and last sizes of the small exponents. */
  lemma EncodeBounds()
    ensures Helper(16) == 18 && Helper(31) == 48 && Helper(32) == 52 && Helper(47) == 112
    ensures Helper(48) == 120 && Helper(63) == 240 && Helper(64) == 256 && Decode(0xfe) == MAX_SIZE
  {
    Powers();
    Largest();
  }

  lemma Ceiling(x: nat, e: nat)
    ensures var q := Shr(x + Pow2(e) - 1, e); x <= q * Pow2(e) < x + Pow2(e)
  {
    ShrBounds(x + Pow2(e) - 1, e);
  }

  /** A size within exponent e, rounded up to a multiple of 2^e, is the value of its code. */
  lemma LeastAt(sz: nat, e: nat, q: nat)
    requires e < 16 && Base(e) <= q <= 15 + Base(e) && 16 * e + (q - Base(e)) + 1 < 255
    requires sz <= q * Pow2(e) < sz + Pow2(e)
    requires q == Base(e) ==> e > 0 && (15 + Base(e - 1)) * Pow2(e - 1) < sz
    ensures Least(sz, 16 * e + (q - Base(e)) + 1)
  {
    hide Pow2, Decode, Helper;
    var m := q - Base(e);
    var c := 16 * e + m + 1;
    DecodeIs(c);
    HelperOf(e, m);
    if c - 1 > 0 {
      DecodeIs(c - 1);
      if m > 0 {
        HelperOf(e, m - 1);
        Spread(q - 1, 1, Pow2(e));
      } else {
        HelperOf(e - 1, 15);
      }
    }
  }

  lemma TinyLeast(sz: nat)
    requires sz < 18
    ensures Least(sz, sz)
  {
    Powers();
    TinyCode(sz);
    if sz > 0 { TinyCode(sz - 1); }
    hide Decode;
  }

  lemma TinyCode(c: nat)
    requires c < 18
    ensures Decode(c) == if c < 17 then c else 18
  {
    if c > 0 {
      DecodeIs(c);
      Powers();
      hide Decode, Helper;
      if c < 17 { HelperOf(0, c - 1); } else { HelperOf(1, 0); }
    }
  }

  /** Exponents one to three, behind their first size. */
  lemma DoItLeast(sz: nat, e: nat)
    requires 1 <= e <= 3 && sz <= (15 + Base(e)) * Pow2(e)
    requires if e == 1 then 18 <= sz else Base(e) * Pow2(e) < sz
    ensures 0 <= DoIt(sz, e) < 255 && Least(sz, DoIt(sz, e))
  {
    Powers();
    var p, q := Pow2(e), Shr(sz + Pow2(e) - 1, e);
    Ceiling(sz, e);
    hide Pow2, Shr, Least, Decode;
    Quotient(sz + p - 1, e, 16 + Base(e));
    Quotient(sz + p - 1, e, Base(e));
    LeastAt(sz, e, q);
  }

  lemma SmallLeast(sz: nat)
    requires sz <= 256
    ensures 0 <= Encode(sz) < 255 && Least(sz, Encode(sz))
  {
    Powers();
    hide Pow2, Least, Decode, DoIt, EncodeLarge;
    if sz < 18 { TinyLeast(sz); }
    else if sz <= 48 { DoItLeast(sz, 1); }
    else if sz <= 52 { LeastAt(sz, 2, 13); }
    else if sz <= 112 { DoItLeast(sz, 2); }
    else if sz <= 120 { LeastAt(sz, 3, 15); }
    else if sz <= 240 { DoItLeast(sz, 3); }
    else { LeastAt(sz, 4, 16); }
  }

  /** Rounding up stays within exponent e. */
  lemma LargePlain(sz: nat, e: nat, p: nat, up: nat)
    requires 256 < sz <= MAX_SIZE && 4 <= e <= 15 && p == Pow2(e) && 16 * p <= sz && up == sz + p - 1 < 32 * p
    ensures var c := 16 * e + Shr(up, e) - 16 + 1; 0 <= c < 255 && Least(sz, c)
    ensures Log2(up) == e + 4
  {
    hide Least, Log2, Pow2, Shr;
    Scaled(e);
    LogIs(up, e + 4);
    Ceiling(sz, e);
    var q := Shr(up, e);
    Quotient(up, e, 32);
    Quotient(up, e, 16);
    TopCode(sz, e, q);
    Scaled(e - 1);
    Times(15 + Base(e - 1), 31, Pow2(e - 1));
    LeastAt(sz, e, q);
  }

  /** Rounding up carries into the next exponent. */
  lemma LargeCarry(sz: nat, e: nat, p: nat, up: nat)
    requires 256 < sz <= MAX_SIZE && 4 <= e <= 15 && p == Pow2(e) && sz < 32 * p <= up == sz + p - 1
    ensures e < 15 && Log2(up) == e + 5 && Shr(up, e + 1) == 16 && Least(sz, 16 * (e + 1) + 1)
  {
    hide Least, Log2, Pow2, Shr;
    Scaled(e);
    LogIs(up, e + 5);
    Quotient(up, e + 1, 17);
    Quotient(up, e + 1, 16);
    TopExponent(sz, e);
    LeastAt(sz, e + 1, 16);
  }

  lemma LargeLeast(sz: nat)
    requires 256 < sz <= MAX_SIZE
    ensures 0 <= EncodeLarge(sz) < 255 && Least(sz, EncodeLarge(sz))
  {
    hide Pow2, Log2, Least, Shr, Decode;
    LogRange(sz);
    var e := Log2(sz) - 4;
    var p := Pow2(e);
    Scaled(e);
    var up := sz + p - 1;
    LogRange(up);
    if up < 32 * p { LargePlain(sz, e, p, up); } else { LargeCarry(sz, e, p, up); }
  }

  lemma Quotient(x: nat, e: nat, k: nat)
    ensures Shr(x, e) < k <==> x < k * Pow2(e)
  {
    hide Pow2, Shr;
    ShrBounds(x, e);
    var q, p := Shr(x, e), Pow2(e);
    if q < k { Times(q + 1, k, p); Spread(q, 1, p); } else { Times(k, q, p); }
  }

  lemma Scaled(e: nat)
    ensures Pow2(e + 1) == 2 * Pow2(e) && Pow2(e + 4) == 16 * Pow2(e) && Pow2(e + 5) == 32 * Pow2(e)
  {
    assert Pow2(e + 2) == 4 * Pow2(e) && Pow2(e + 3) == 8 * Pow2(e);
  }

  lemma LogRange(sz: nat)
    requires 256 < sz
    ensures 8 <= Log2(sz) && (sz <= MAX_SIZE ==> Log2(sz) <= 19)
  {
    Biggest();
    Powers();
    assert Pow2(8) == 256;
    Strict(Log2(sz), 8);
    Strict(19, Log2(sz));
    assert Pow2(20) == 2 * Pow2(19);
  }

  lemma LogIs(x: nat, r: nat)
    requires Pow2(r) <= x < 2 * Pow2(r) && x > 0
    ensures Log2(x) == r
  {
    Strict(Log2(x), r);
    Strict(r, Log2(x));
  }

  /** Exponent 15 only reaches mantissa 13. */
  lemma TopCode(sz: nat, e: nat, q: nat)
    requires sz <= MAX_SIZE && 4 <= e <= 15 && 16 <= q < 32 && q * Pow2(e) < sz + Pow2(e)
    ensures 16 * e + (q - 16) + 1 < 255
  {
    if e == 15 { Biggest(); }
  }

  lemma TopExponent(sz: nat, e: nat)
    requires sz <= MAX_SIZE && 4 <= e <= 15 && 31 * Pow2(e) < sz
    ensures e < 15
  {
    if e == 15 { Biggest(); }
  }

  /** encode_size returns the least code that covers the size, for every size. */
  lemma EncodeLeast(sz: nat)
    requires sz <= INVALID_SIZE
    ensures 0 <= Encode(sz) < 256 && Least(sz, Encode(sz)) && (Encode(sz) == INVALID_CODE <==> sz > MAX_SIZE)
  {
    if sz <= 256 { SmallLeast(sz); }
    else if sz <= MAX_SIZE { LargeLeast(sz); }
    else { Largest(); }
  }

  /** Rounding costs at most one sixteenth of the size. */
  lemma Rounding(sz: nat)
    requires sz <= MAX_SIZE
    ensures 0 <= Encode(sz) < 255 && 16 * (Decode(Encode(sz)) - sz) <= sz
  {
    EncodeLeast(sz);
    var c := Encode(sz);
    if c > 0 {
      DecodeIs(c);
      if c > 1 {
        DecodeIs(c - 1);
        Gap(c - 1);
      }
    }
  }

  /** Consecutive sizes are at most one sixteenth apart, counted from one above the smaller. */
  lemma Gap(c: nat)
    requires 0 < c < 255
    ensures 16 * (Helper(c) - Helper(c - 1) - 1) <= Helper(c - 1) + 1
  {
    var e, m := c / 16, c % 16;
    hide Pow2, Helper;
    HelperOf(e, m);
    if m > 0 {
      HelperOf(e, m - 1);
      Spread(m - 1 + Base(e), 1, Pow2(e));
      AtLeast(m - 1 + Base(e), e);
    } else {
      HelperOf(e - 1, 15);
      CarryGap(e - 1);
    }
  }

  lemma CarryGap(e: nat)
    requires e < 16
    ensures 16 * (Base(e + 1) * Pow2(e + 1) - (15 + Base(e)) * Pow2(e) - 1) <= (15 + Base(e)) * Pow2(e) + 1
  {
    Powers();
    Scaled(e);
    var p := Pow2(e);
    hide Pow2;
    if e >= 4 { assert 16 * (2 * p) == 32 * p; }
  }

  lemma AtLeast(q: nat, e: nat)
    requires Base(e) <= q && e < 16
    ensures 16 * (Pow2(e) - 1) <= q * Pow2(e) + 1
  {
    Powers();
    var p := Pow2(e);
    hide Pow2;
    Times(Base(e), q, p);
  }

  lemma Times(a: nat, b: nat, p: nat)
    requires a <= b
    ensures a * p <= b * p
  {
  }

  // ---------------------------------------------------------------- the binary search

  /** A size_t. */
  function Low64(x: nat): nat { x % (INVALID_SIZE + 1) }

  /** A value that an int can hold. */
  predicate FitsInt(x: nat) { x <= 0x7fff_ffff }

  /** The int shift 1 << k and its negation in align_up are defined exactly up to k = 30. */
  lemma ShiftFits(k: nat)
    ensures FitsInt(Pow2(k)) <==> k <= 30
  {
    PowersOfInt();
    hide Pow2;
    if k <= 30 { Grows(k, 30); } else { Grows(31, k); }
  }

  /** The first shift that overflows. */
  lemma PowersOfInt()
    ensures Pow2(30) == 0x4000_0000 && Pow2(31) == 0x8000_0000 && !FitsInt(Pow2(31))
  {
    Biggest();
    assert Pow2(25) == 32 * Pow2(20);
    assert Pow2(30) == 32 * Pow2(25);
  }

  /** The number of units of 2^k that a size takes. */
  function Units(size: nat, k: nat): nat { Shr(size + Pow2(k) - 1, k) }

  /** The largest size that can be rounded up to a multiple of 2^k in 64 bits. */
  function Ceil64(k: nat): int { INVALID_SIZE + 1 - Pow2(k) }

  /** A size code with the size it stands for, or a shift that the language does not define. */
  datatype Coded = Undefined | Coded(code: nat, size: nat)

  /** encode_size_aligned.  For a shift that fits an int and every size: the code that encode_size gives for the
      number of units, and the size it stands for; the last 2^k - 1 sizes wrap around to zero. */
  method EncodeAligned(size: nat, k: nat) returns (r: Coded)
    requires size <= INVALID_SIZE
    ensures r.Undefined? <==> k > 30
    ensures k <= 30 && size <= Ceil64(k) ==>
      && r.code < 256 && Least(Units(size, k), r.code) && r.code == Encode(Units(size, k)) && size <= r.size
      && r.size == if r.code < INVALID_CODE then Decode(r.code) * Pow2(k) else Ceil64(k)
    ensures k <= 30 && size > Ceil64(k) ==> r == Coded(0, 0)
  {
    hide Pow2, Shr, Decode, Low64, Units, Encode, Least;
    ShiftFits(k);
    if !FitsInt(Pow2(k)) { return Undefined; }
    var x := Shr(Low64(size + Pow2(k) - 1), k);
    Scaled64(size, k);
    var lo, hi := 0, 255;
    Ends();
    while lo < hi
      invariant 0 <= lo <= hi <= 255 && x <= Decode(hi) && (lo > 0 ==> Decode(lo - 1) < x)
    {
      var mid := (lo + hi) / 2;
      if x <= Decode(mid) { hi := mid; } else { lo := mid + 1; }
    }
    r := Coded(lo, Low64(Decode(lo) * Pow2(k)));
    FoundLeast(x, lo);
    Shifted(lo, k);
    if size <= Ceil64(k) { Covered(size, k, lo); } else { ZeroCode(lo, k); Fits(0); }
  }

  /** align_up in 64 bits: exact, or zero units for a size that wraps around. */
  lemma Scaled64(size: nat, k: nat)
    requires size <= INVALID_SIZE && k <= 30
    ensures var x := Shr(Low64(size + Pow2(k) - 1), k);
      x <= INVALID_SIZE && x == if size <= Ceil64(k) then Units(size, k) else 0
  {
    hide Pow2, Shr, Low64;
    var p, y := Pow2(k), size + Pow2(k) - 1;
    ShiftFits(k);
    if size <= Ceil64(k) { Fits(y); } else { WrapsOnce(y); }
    var z := Low64(y);
    ShrBounds(z, k);
    Times(1, p, Shr(z, k));
    if size > Ceil64(k) && Shr(z, k) > 0 { Times(1, Shr(z, k), p); }
  }

  lemma Fits(x: nat)
    requires x <= INVALID_SIZE
    ensures Low64(x) == x
  {
  }

  lemma WrapsOnce(x: nat)
    requires INVALID_SIZE < x <= 2 * INVALID_SIZE
    ensures Low64(x) == x - INVALID_SIZE - 1
  {
  }

  lemma Ends()
    ensures Decode(255) == INVALID_SIZE && Decode(254) == MAX_SIZE
  {
    Largest();
  }

  lemma FoundLeast(x: nat, c: nat)
    requires x <= INVALID_SIZE && c < 256 && x <= Decode(c) && (c > 0 ==> Decode(c - 1) < x)
    ensures Least(x, c) && c == Encode(x)
  {
    hide Decode, Encode;
    EncodeLeast(x);
    LeastUnique(x, c, Encode(x));
  }

  /** The size of a code, scaled back in 64 bits: exact, and for the invalid code the last multiple of 2^k. */
  lemma Shifted(c: nat, k: nat)
    requires c < 256 && k <= 30
    ensures Low64(Decode(c) * Pow2(k)) == if c < INVALID_CODE then Decode(c) * Pow2(k) else Ceil64(k)
  {
    hide Pow2, Decode, Low64;
    ShiftFits(k);
    Ends();
    if c < INVALID_CODE {
      if c < 254 { Increasing(c, 254); }
      Times(Decode(c), MAX_SIZE, Pow2(k));
      Fits(Decode(c) * Pow2(k));
    } else {
      AllOnes(Pow2(k));
    }
  }

  lemma AllOnes(p: nat)
    requires 1 <= p <= INVALID_SIZE
    ensures Low64(INVALID_SIZE * p) == INVALID_SIZE + 1 - p
  {
    var m := INVALID_SIZE + 1;
    assert INVALID_SIZE * p == m * (p - 1) + (m - p);
  }

  /** No size that fits is rounded down. */
  lemma Covered(size: nat, k: nat, c: nat)
    requires c < 256 && k <= 30 && size <= Ceil64(k) && Least(Units(size, k), c)
    ensures size <= if c < INVALID_CODE then Decode(c) * Pow2(k) else Ceil64(k)
  {
    hide Decode, Pow2, Shr;
    Ceiling(size, k);
    Times(Units(size, k), Decode(c), Pow2(k));
  }

  lemma ZeroCode(c: nat, k: nat)
    requires c < 256 && Least(0, c)
    ensures c == 0 && Decode(0) * Pow2(k) == 0
  {
    hide Decode, Pow2;
    FirstCodes();
  }
}
