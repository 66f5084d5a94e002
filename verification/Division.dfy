/** The 64-bit division runtime (librt): the branchless shift-subtract divider, its 32-bit
    instance, and the signed wrappers. */
module Division {

  import opened Bits

  // ---- the shift-subtract loop, once for every word width

  /** The registers of the loop: partial remainder, shifting dividend/quotient, carry. */
  datatype Reg = Reg(r: nat, q: nat, carry: nat)

  predicate InWord(w: nat, s: Reg) {
    0 < w && s.r < Pow2(w) && s.q < Pow2(w) && s.carry < 2
  }

  /** The branchless comparison `(signed)(d - r - 1) >> (w - 1)`. */
  function Mask(w: nat, d: nat, r: nat): nat
    requires 0 < w && d < Pow2(w) && r < Pow2(w)
  {
    assert Pow2(w) == 2 * Pow2(w - 1);
    SignMask(w, Sub(w, Sub(w, d, r), 1))
  }

  function ShiftedR(w: nat, s: Reg): nat
    requires InWord(w, s)
  {
    Or(Shl(w, s.r, 1), Shr(s.q, w - 1))
  }

  function ShiftedQ(w: nat, s: Reg): nat
    requires InWord(w, s)
  {
    Or(Shl(w, s.q, 1), s.carry)
  }

  /** Holds between iterations with `sr` bits of the dividend `n` still to bring down: the
      upper part of `q` is those bits, its lower `k` bits and `carry` are the quotient so far.
      A divisor with its top bit set leaves a single iteration, on a dividend that has
      its top bit set too; without that the comparison mask would be wrong. */
  ghost predicate LoopInv(w: nat, n: nat, d: nat, sr: nat, k: nat, s: Reg) {
    && w == sr + k && InWord(w, s)
    && n < Pow2(w) && 0 < d < Pow2(w)
    && s.r < d
    && Shr(s.q, k) == Low(n, sr)
    && Shr(n, sr) == Times(2 * Low(s.q, k) + s.carry, d) + s.r
    && (Pow2(w - 1) < d ==>
          sr <= 1 && (sr == 1 ==> s.r == Shr(n, 1) && Pow2(w - 1) <= n))
  }

  /** The mask decides `r >= d` exactly when the difference fits a signed word. */
  lemma {:induction false} MaskExact(w: nat, d: nat, r: nat)
    requires 0 < w && d < Pow2(w) && r < Pow2(w)
    ensures Mask(w, d, r) == 0 || Mask(w, d, r) == Pow2(w) - 1
    ensures (Mask(w, d, r) == Pow2(w) - 1 <==> d <= r)
       <==> -(Pow2(w - 1) as int) <= d - r - 1 < Pow2(w - 1)
  {
    assert Pow2(w) == 2 * Pow2(w - 1);
  }

  /** Without the normalisation the mask is wrong: 0 is taken to be at least 2^32 - 1. */
  lemma {:induction false} MaskNeedsNormalisation()
    ensures Pow2(32) == TWO32 && Mask(32, TWO32 - 1, 0) == TWO32 - 1
  {
    Pow32();
  }

  lemma {:induction false} TakeBit(n: nat, k: nat)
    ensures Shr(n, k) == 2 * Shr(n, k + 1) + Shr(n, k) % 2
    ensures Shr(Low(n, k + 1), k) == Shr(n, k) % 2
  {
    if k == 0 {
    } else {
      TakeBit(n / 2, k - 1);
    }
  }

  lemma {:induction false} OrBit(x: nat, b: nat)
    requires b < 2
    ensures Or(2 * x, b) == 2 * x + b
  {
    assert Pow2(1) == 2;
    OrDisjoint(2 * x, b, 1);
  }

  lemma {:induction false} AppendBit(x: nat, c: nat, k: nat)
    requires c < 2
    ensures Shr(2 * x + c, k + 1) == Shr(x, k)
    ensures Low(2 * x + c, k + 1) == 2 * Low(x, k) + c
  {
    assert (2 * x + c) / 2 == x;
  }

  lemma {:induction false} ShiftedQValue(w: nat, s: Reg)
    requires InWord(w, s)
    ensures ShiftedQ(w, s) == 2 * Low(s.q, w - 1) + s.carry < Pow2(w)
  {
    ShlOne(w, s.q);
    OrBit(Low(s.q, w - 1), s.carry);
    LowBound(s.q, w - 1);
  }

  /** The top bit of `q` is the next bit of the dividend. */
  lemma {:induction false} TopBit(n: nat, q: nat, j: nat, k: nat, m: nat)
    requires m == j + k && Shr(q, k) == Low(n, j + 1)
    ensures Shr(q, m) == Shr(n, j) % 2
  {
    SplitTwice(q, k, j);
    TakeBit(n, j);
  }

  /** Below it `q` holds the bits of the dividend still to come, then the quotient. */
  lemma {:induction false} RestBits(n: nat, q: nat, j: nat, k: nat, m: nat)
    requires m == j + k && Shr(q, k) == Low(n, j + 1)
    ensures Shr(Low(q, m), k) == Low(n, j) && Low(Low(q, m), k) == Low(q, k)
  {
    SplitTwice(q, k, j);
    SplitTwice(n, j, 1);
  }

  /** `q` gives up its top bit and takes in the carry. */
  lemma {:induction false} ShiftQ(n: nat, q: nat, c: nat, j: nat, k: nat, m: nat)
    requires m == j + k && Shr(q, k) == Low(n, j + 1) && c < 2
    ensures Shr(2 * Low(q, m) + c, k + 1) == Low(n, j)
    ensures Low(2 * Low(q, m) + c, k + 1) == 2 * Low(q, k) + c
  {
    RestBits(n, q, j, k, m);
    AppendBit(Low(q, m), c, k);
  }

  /** `r` takes in that bit without overflowing the word, and the mask is exact. */
  lemma {:induction false} ShiftR(w: nat, n: nat, d: nat, sr: nat, k: nat, s: Reg)
    requires LoopInv(w, n, d, sr, k, s) && 0 < sr
    ensures ShiftedR(w, s) == 2 * s.r + Shr(n, sr - 1) % 2 < Pow2(w)
    ensures Mask(w, d, ShiftedR(w, s)) == if d <= ShiftedR(w, s) then Pow2(w) - 1 else 0
  {
    TopBit(n, s.q, sr - 1, k, w - 1);
    if Pow2(w - 1) < d {
      Split(n, 1);
      assert Pow2(1) == 2 && Shr(n, 0) == n;
    }
    assert s.r < Pow2(w - 1);
    ShlOne(w, s.r);
    LowSmall(s.r, w - 1);
    OrBit(s.r, Shr(s.q, w - 1));
    MaskExact(w, d, 2 * s.r + Shr(n, sr - 1) % 2);
  }

  /** One iteration of the loop. */
  function Iterate(w: nat, d: nat, s: Reg): Reg
    requires InWord(w, s) && d < Pow2(w) && ShiftedR(w, s) < Pow2(w)
  {
    var r := ShiftedR(w, s);
    var m := Mask(w, d, r);
    Reg(Sub(w, r, And(d, m)), ShiftedQ(w, s), And(m, 1))
  }

  lemma {:induction false} AndOnes(w: nat, d: nat)
    requires 0 < w && d < Pow2(w)
    ensures And(d, Pow2(w) - 1) == d && And(Pow2(w) - 1, 1) == 1
  {
    AndMask(d, w);
    LowSmall(d, w);
    assert Pow2(1) == 2;
    AndMask(Pow2(w) - 1, 1);
    assert Low(Pow2(w) - 1, 1) == (Pow2(w) - 1) % 2;
  }

  /** What one iteration computes: bring down a bit, subtract the divisor if it fits. */
  ghost predicate Brought(w: nat, n: nat, d: nat, sr: nat, s: Reg, t: Reg)
    requires 0 < w && 0 < sr
  {
    var r := 2 * s.r + Shr(n, sr - 1) % 2;
    && t.q == 2 * Low(s.q, w - 1) + s.carry
    && t.carry == (if d <= r then 1 else 0)
    && t.r == (if d <= r then r - d else r)
  }

  lemma {:induction false} IterateValue(w: nat, n: nat, d: nat, sr: nat, k: nat, s: Reg)
    requires LoopInv(w, n, d, sr, k, s) && 0 < sr
    ensures ShiftedR(w, s) < Pow2(w)
    ensures Brought(w, n, d, sr, s, Iterate(w, d, s))
  {
    ShiftR(w, n, d, sr, k, s);
    ShiftedQValue(w, s);
    AndOnes(w, d);
  }

  /** Long division by hand, on the part of the dividend brought down so far. */
  lemma {:induction false} LongDivisionStep(prefix: nat, quot: nat, d: nat, r: nat, bit: nat, c: nat, r': nat)
    requires prefix == Times(quot, d) + r
    requires c == (if d <= 2 * r + bit then 1 else 0)
    requires r' == 2 * r + bit - (if c == 1 then d else 0)
    ensures 2 * prefix + bit == Times(2 * quot + c, d) + r'
  {
    TimesDouble(quot, d);
  }

  lemma {:induction false} BroughtQ(w: nat, n: nat, d: nat, sr: nat, k: nat, s: Reg, t: Reg)
    requires w == sr + k && 0 < sr && s.carry < 2 && Shr(s.q, k) == Low(n, sr)
    requires t.q == 2 * Low(s.q, w - 1) + s.carry
    ensures Shr(t.q, k + 1) == Low(n, sr - 1)
    ensures Low(t.q, k + 1) == 2 * Low(s.q, k) + s.carry
    ensures t.q < Pow2(w)
  {
    ShiftQ(n, s.q, s.carry, sr - 1, k, w - 1);
    LowBound(s.q, w - 1);
  }

  lemma {:induction false} BroughtKeeps(w: nat, n: nat, d: nat, sr: nat, k: nat, s: Reg, t: Reg)
    requires LoopInv(w, n, d, sr, k, s) && 0 < sr && Brought(w, n, d, sr, s, t)
    ensures LoopInv(w, n, d, sr - 1, k + 1, t)
  {
    var prefix, bit, quot := Shr(n, sr), Shr(n, sr - 1) % 2, 2 * Low(s.q, k) + s.carry;
    BroughtQ(w, n, d, sr, k, s, t);
    assert Shr(n, sr - 1) == 2 * prefix + bit by { TakeBit(n, sr - 1); }
    LongDivisionStep(prefix, quot, d, s.r, bit, t.carry, t.r);
    assert Shr(n, sr - 1) == Times(2 * quot + t.carry, d) + t.r;
    assert Shr(n, sr - 1) == Times(2 * Low(t.q, k + 1) + t.carry, d) + t.r;
  }

  /** Every iteration brings down one bit of the dividend and keeps the invariant. */
  lemma {:induction false} IterateKeeps(w: nat, n: nat, d: nat, sr: nat, k: nat, s: Reg)
    requires LoopInv(w, n, d, sr, k, s) && 0 < sr
    ensures ShiftedR(w, s) < Pow2(w)
    ensures LoopInv(w, n, d, sr - 1, k + 1, Iterate(w, d, s))
  {
    IterateValue(w, n, d, sr, k, s);
    BroughtKeeps(w, n, d, sr, k, s, Iterate(w, d, s));
  }

  /** When no bits are left, `q` and the carry together are the quotient. */
  lemma {:induction false} LoopExit(w: nat, n: nat, d: nat, s: Reg)
    requires LoopInv(w, n, d, 0, w, s)
    ensures Or(Shl(w, s.q, 1), s.carry) < Pow2(w)
    ensures n == Or(Shl(w, s.q, 1), s.carry) * d + s.r && s.r < d
  {
    LowSmall(s.q, w);
    var quot := 2 * s.q + s.carry;
    TimesIsProduct(quot, d);
    assert quot <= quot * d by { MulGrows(quot, d); }
    LowSmall(s.q, w - 1);
    ShiftedQValue(w, s);
  }

  lemma {:induction false} MulGrows(x: nat, d: nat)
    requires 0 < d
    ensures x <= x * d
  {
  }

  // ---- entering the loop

  /** Skipping `BitLength(n) - BitLength(d) + 1` bits leaves less than the divisor. */
  lemma {:induction false} Normalised(n: nat, d: nat, sr: nat)
    requires 0 < d && BitLength(n) + 1 <= BitLength(d) + sr
    ensures Shr(n, sr) < d
  {
    BitLengthShr(n, sr);
    ShorterIsLess(Shr(n, sr), d);
  }

  lemma {:induction false} FullLength(w: nat, d: nat)
    requires 0 < w && Pow2(w - 1) <= d < Pow2(w)
    ensures BitLength(d) == w
  {
    BitLengthBounds(d);
    PowInjective(w - 1, BitLength(d));
    PowInjective(BitLength(d) - 1, w);
  }

  /** The initial registers satisfy the invariant. */
  lemma {:induction false} LoopEntry(w: nat, n: nat, d: nat, sr: nat, q: nat)
    requires 0 < n < Pow2(w) && 0 < d < Pow2(w) && 0 < sr < w
    requires sr == BitLength(n) - BitLength(d) + 1
    requires q < Pow2(w) && Shr(q, w - sr) == Low(n, sr) && Low(q, w - sr) == 0
    ensures Shr(n, sr) < d
    ensures LoopInv(w, n, d, sr, w - sr, Reg(Shr(n, sr), q, 0))
  {
    Normalised(n, d, sr);
    if Pow2(w - 1) < d {
      FullLength(w, d);
      ClzBounds(w, n);
    }
  }

  /** The loop itself, on a single `w`-bit register pair. */
  method ShiftSubtract(w: nat, ghost n: nat, d: nat, sr0: nat, q0: nat, r0: nat)
    returns (quot: nat, rem: nat)
    requires sr0 <= w && LoopInv(w, n, d, sr0, w - sr0, Reg(r0, q0, 0))
    ensures n == quot * d + rem && rem < d && quot < Pow2(w)
  {
    var sr, q, r, carry := sr0, q0, r0, 0;
    while sr > 0
      invariant 0 <= sr <= w
      invariant LoopInv(w, n, d, sr, w - sr, Reg(r, q, carry))
    {
      ghost var before := Reg(r, q, carry);
      IterateKeeps(w, n, d, sr, w - sr, before);
      r, q := Or(Shl(w, r, 1), Shr(q, w - 1)), Or(Shl(w, q, 1), carry);
      var s := Mask(w, d, r);
      carry := And(s, 1);
      r := Sub(w, r, And(d, s));
      sr := sr - 1;
      assert Reg(r, q, carry) == Iterate(w, d, before);
    }
    LoopExit(w, n, d, Reg(r, q, carry));
    quot, rem := Or(Shl(w, q, 1), carry), r;
  }

  // ---- __udivsi3

  /** 32-bit unsigned division; a zero divisor gives 0. */
  method UDivSI3(n: nat, d: nat) returns (quot: nat)
    requires n < TWO32 && d < TWO32
    ensures d != 0 ==> quot == n / d
    ensures d == 0 ==> quot == 0
  {
    Pow32();
    if d == 0 {
      return 0;
    }
    if n == 0 {
      DivModUnique(n, d, 0, 0);
      return 0;
    }
    ClzBounds(32, d);
    ClzBounds(32, n);
    var sr := Sub(32, Clz(32, d), Clz(32, n));
    if sr > 31 {
      ShorterIsLess(n, d);
      DivModUnique(n, d, 0, n);
      return 0;
    }
    if sr == 31 {
      assert d == 1 by { assert Pow2(1) == 2; }
      return n;
    }
    sr := sr + 1;
    var q, r := Shl(32, n, 32 - sr), Shr(n, sr);
    ShlSplit(32, n, 32 - sr);
    LoopEntry(32, n, d, sr, q);
    var rem;
    quot, rem := ShiftSubtract(32, n, d, sr, q, r);
    DivModUnique(n, d, quot, rem);
  }

  // ---- __udivmoddi4

  /** A 64-bit number as two 32-bit halves. */
  datatype Words = Words(high: nat, low: nat) {
    predicate Valid() { high < TWO32 && low < TWO32 }
    function All(): nat { high * TWO32 + low }
  }

  function Halves(x: nat): (u: Words)
    requires x < TWO64
    ensures u.Valid() && u.All() == x
  {
    Words(x / TWO32, x % TWO32)
  }

  lemma {:induction false} SplitAll(u: Words)
    requires u.Valid()
    ensures Shr(u.All(), 32) == u.high && Low(u.All(), 32) == u.low && u.All() < TWO64
  {
    Pow32();
    SplitDivMod(u.All(), 32);
  }

  /** `(high << (32 - sr)) | (low >> sr)`: the bits that cross the word boundary. */
  function Funnel(u: Words, sr: nat): nat
    requires 0 < sr < 32
  {
    Or(Shl(32, u.high, 32 - sr), Shr(u.low, sr))
  }

  lemma {:induction false} FunnelSplit(u: Words, sr: nat)
    requires u.Valid() && 0 < sr < 32
    ensures Funnel(u, sr) < TWO32
    ensures Shr(Funnel(u, sr), 32 - sr) == Low(u.high, sr)
    ensures Low(Funnel(u, sr), 32 - sr) == Shr(u.low, sr)
  {
    Pow32();
    var k := 32 - sr;
    var hi, lo := Shl(32, u.high, k), Shr(u.low, sr);
    ShlSplit(32, u.high, k);
    ShrBound(u.low, sr, k);
    OrDisjoint(hi, lo, k);
    FillLow(hi, lo, k);
    FillBound(hi, lo, k, 32);
  }

  /** Filling in empty low bits leaves the high bits alone. */
  lemma {:induction false} FillLow(x: nat, y: nat, k: nat)
    requires Low(x, k) == 0 && y < Pow2(k)
    ensures Shr(x + y, k) == Shr(x, k) && Low(x + y, k) == y
  {
    if k == 0 {
    } else {
      FillLow(x / 2, y / 2, k - 1);
      assert (x + y) / 2 == x / 2 + y / 2 && (x + y) % 2 == y % 2;
    }
  }

  lemma {:induction false} FillBound(x: nat, y: nat, k: nat, w: nat)
    requires Low(x, k) == 0 && y < Pow2(k) && x < Pow2(w) && k <= w
    ensures x + y < Pow2(w)
  {
    if k == 0 {
    } else {
      FillBound(x / 2, y / 2, k - 1, w - 1);
    }
  }

  /** Shifting right across the word boundary. */
  lemma {:induction false} ShiftAcross(u: Words, sr: nat)
    requires u.Valid() && 0 < sr < 32
    ensures Words(Shr(u.high, sr), Funnel(u, sr)).Valid()
    ensures Words(Shr(u.high, sr), Funnel(u, sr)).All() == Shr(u.All(), sr)
  {
    var n, k := u.All(), 32 - sr;
    var z := Words(Shr(u.high, sr), Funnel(u, sr));
    FunnelSplit(u, sr);
    ShrLess(u.high, sr);
    SplitAll(u);
    SplitAll(z);
    SplitTwice(n, sr, k);
    SplitTwice(z.All(), k, sr);
    assert sr + k == 32 && k + sr == 32;
    SameSplit(Shr(z.All(), k), u.high, sr);
    SameSplit(z.All(), Shr(n, sr), k);
  }

  lemma {:induction false} ShrLess(x: nat, k: nat)
    ensures Shr(x, k) <= x
  {
    if k == 0 {
    } else {
      ShrLess(x / 2, k - 1);
    }
  }

  /** The initial `q` when fewer than 32 bits are left to bring down. */
  lemma {:induction false} InitialShort(u: Words, sr: nat)
    requires u.Valid() && 0 < sr < 32
    ensures var q := Words(Shl(32, u.low, 32 - sr), 0);
            q.Valid() && Shr(q.All(), 64 - sr) == Low(u.All(), sr) && Low(q.All(), 64 - sr) == 0
  {
    Pow32();
    var q, k := Words(Shl(32, u.low, 32 - sr), 0), 32 - sr;
    ShlSplit(32, u.low, k);
    SplitAll(u);
    SplitAll(q);
    SplitTwice(q.All(), 32, k);
    SplitTwice(u.All(), sr, k);
    assert 32 + k == 64 - sr && sr + k == 32;
    LowSmall(0, 32);
    SameSplit(Low(q.All(), 64 - sr), 0, 32);
  }

  /** The initial `q` when more than 32 bits are left to bring down. */
  lemma {:induction false} InitialLong(u: Words, j: nat)
    requires u.Valid() && 0 < j < 32
    ensures var q := Words(Funnel(u, j), Shl(32, u.low, 32 - j));
            q.Valid() && Shr(q.All(), 32 - j) == Low(u.All(), 32 + j) && Low(q.All(), 32 - j) == 0
    ensures Shr(u.All(), 32 + j) == Shr(u.high, j)
  {
    Pow32();
    var q, k, n := Words(Funnel(u, j), Shl(32, u.low, 32 - j)), 32 - j, u.All();
    FunnelSplit(u, j);
    ShlSplit(32, u.low, k);
    SplitAll(u);
    SplitAll(q);
    SplitTwice(q.All(), k, j);
    SplitTwice(n, 32, j);
    ShiftAcross(u, j);
    SplitAll(Words(Shr(u.high, j), Funnel(u, j)));
    LongDividend(n, j, q.high, Low(u.low, j));
    assert k + j == 32;
    SameSplit(Shr(q.All(), k), Low(n, 32 + j), j);
  }

  lemma {:induction false} LongDividend(n: nat, j: nat, h: nat, l: nat)
    requires Low(Shr(n, j), 32) == h && Low(Low(n, 32), j) == l && j < 32
    ensures Shr(Low(n, 32 + j), j) == h && Low(Low(n, 32 + j), j) == l
  {
    SplitTwice(n, j, 32);
    SplitTwice(n, j, 32 - j);
    assert j + 32 == 32 + j && j + (32 - j) == 32;
  }

  lemma {:induction false} HighBitLength(u: Words)
    requires u.Valid() && 0 < u.high
    ensures BitLength(u.All()) == 32 + BitLength(u.high)
  {
    SplitAll(u);
    BitLengthShr(u.All(), 32);
    BitLengthBounds(u.high);
  }

  /** One iteration on halves is one iteration on the whole. */
  lemma {:induction false} HalvesShift(u: Words, b: nat)
    requires u.Valid() && b < 2
    ensures Words(Or(Shl(32, u.high, 1), Shr(u.low, 31)), Or(Shl(32, u.low, 1), b)).Valid()
    ensures Words(Or(Shl(32, u.high, 1), Shr(u.low, 31)), Or(Shl(32, u.low, 1), b)).All()
         == Or(Shl(64, u.All(), 1), b)
    ensures Shr(u.low, 31) < 2 && Shr(u.high, 31) < 2 && Shr(u.high, 31) == Shr(u.All(), 63)
  {
    Pow32();
    assert Pow2(31) == 0x8000_0000 && Pow2(1) == 2;
    ShrBound(u.low, 31, 1);
    ShrBound(u.high, 31, 1);
    ShlOne(32, u.high);
    ShlOne(32, u.low);
    ShlOne(64, u.All());
    OrBit(Low(u.high, 31), Shr(u.low, 31));
    OrBit(Low(u.low, 31), b);
    OrBit(Low(u.All(), 63), b);
    LowBound(u.high, 31);
    LowBound(u.low, 31);
    Split(u.low, 31);
    LowAll(u);
  }

  lemma {:induction false} LowAll(u: Words)
    requires u.Valid()
    ensures Low(u.All(), 63) == Low(u.high, 31) * TWO32 + u.low
    ensures Shr(u.All(), 63) == Shr(u.high, 31)
  {
    SplitAll(u);
    SplitTwice(u.All(), 32, 31);
    var l := Low(u.All(), 63);
    Split(l, 32);
    Pow32();
  }

  /** The four shifts of the loop body, on halves. */
  function HalvesR(q: Words, r: Words): Words {
    Words(Or(Shl(32, r.high, 1), Shr(r.low, 31)), Or(Shl(32, r.low, 1), Shr(q.high, 31)))
  }

  function HalvesQ(q: Words, carry: nat): Words {
    Words(Or(Shl(32, q.high, 1), Shr(q.low, 31)), Or(Shl(32, q.low, 1), carry))
  }

  /** They shift the two registers as if these were single 64-bit words. */
  lemma {:induction false} HalvesShifts(q: Words, r: Words, carry: nat)
    requires q.Valid() && r.Valid() && carry < 2
    ensures InWord(64, Reg(r.All(), q.All(), carry))
    ensures HalvesR(q, r).Valid() && HalvesR(q, r).All() == ShiftedR(64, Reg(r.All(), q.All(), carry))
    ensures HalvesQ(q, carry).Valid() && HalvesQ(q, carry).All() == ShiftedQ(64, Reg(r.All(), q.All(), carry))
  {
    Pow64();
    SplitAll(q);
    SplitAll(r);
    HalvesShift(q, carry);
    HalvesShift(r, Shr(q.high, 31));
  }

  /** One iteration on halves keeps the loop invariant. */
  lemma {:induction false} HalvesKeep(n: nat, d: nat, sr: nat, q: Words, r: Words, carry: nat)
    requires q.Valid() && r.Valid() && 0 < sr <= 64
    requires LoopInv(64, n, d, sr, 64 - sr, Reg(r.All(), q.All(), carry))
    ensures Pow2(64) == TWO64 && HalvesR(q, r).Valid() && HalvesQ(q, carry).Valid() && HalvesR(q, r).All() < TWO64
    ensures var s := Mask(64, d, HalvesR(q, r).All());
            LoopInv(64, n, d, sr - 1, 65 - sr,
                    Reg(Sub(64, HalvesR(q, r).All(), And(d, s)), HalvesQ(q, carry).All(), And(s, 1)))
  {
    Pow64();
    HalvesShifts(q, r, carry);
    IterateKeeps(64, n, d, sr, 64 - sr, Reg(r.All(), q.All(), carry));
  }

  method IterateHalves(ghost n: nat, d: nat, sr: nat, q: Words, r: Words, carry: nat)
    returns (q': Words, r': Words, carry': nat)
    requires q.Valid() && r.Valid() && 0 < sr <= 64
    requires LoopInv(64, n, d, sr, 64 - sr, Reg(r.All(), q.All(), carry))
    ensures q'.Valid() && r'.Valid()
    ensures LoopInv(64, n, d, sr - 1, 65 - sr, Reg(r'.All(), q'.All(), carry'))
  {
    HalvesKeep(n, d, sr, q, r, carry);
    r', q' := HalvesR(q, r), HalvesQ(q, carry);
    var s := Mask(64, d, r'.All());
    carry' := And(s, 1);
    r' := Halves(Sub(64, r'.All(), And(d, s)));
  }

  /** The loop of `__udivmoddi4`: the same iterations, carried out on halves. */
  method ShiftSubtractHalves(ghost n: nat, d: nat, sr0: nat, q0: Words, r0: Words)
    returns (quot: nat, rem: nat)
    requires q0.Valid() && r0.Valid() && sr0 <= 64
    requires LoopInv(64, n, d, sr0, 64 - sr0, Reg(r0.All(), q0.All(), 0))
    ensures n == quot * d + rem && rem < d && quot < TWO64
  {
    var sr, q, r, carry := sr0, q0, r0, 0;
    while sr > 0
      invariant 0 <= sr <= 64 && q.Valid() && r.Valid()
      invariant LoopInv(64, n, d, sr, 64 - sr, Reg(r.All(), q.All(), carry))
    {
      q, r, carry := IterateHalves(n, d, sr, q, r, carry);
      sr := sr - 1;
    }
    Pow64();
    LoopExit(64, n, d, Reg(r.All(), q.All(), carry));
    quot, rem := Or(Shl(64, q.All(), 1), carry), r.All();
  }

  /** A divisor whose low half is zero only looks at the high half of the dividend. */
  lemma {:induction false} HighOnly(n: Words, d: Words, quot: nat, rh: nat)
    requires n.Valid() && d.Valid() && d.low == 0
    requires n.high == quot * d.high + rh && rh < d.high
    ensures n.All() == quot * d.All() + Words(rh, n.low).All()
    ensures Words(rh, n.low).All() < d.All()
  {
    assert quot * (d.high * TWO32) == quot * d.high * TWO32;
  }

  lemma {:induction false} PowerSplit(x: nat, p: nat)
    requires 0 < p && And(p, p - 1) == 0
    ensures x == Shr(x, Ctz(p)) * p + And(x, p - 1) && And(x, p - 1) < p
    ensures And(x, p - 1) == Low(x, Ctz(p))
  {
    PowerOfTwoTest(p);
    Split(x, Ctz(p));
    AndMask(x, Ctz(p));
    LowBound(x, Ctz(p));
  }

  /** Trailing zeros of a 32-bit power of two other than 1. */
  lemma {:induction false} CtzRange(p: nat)
    requires 1 < p < TWO32 && And(p, p - 1) == 0
    ensures 0 < Ctz(p) < 32
  {
    PowerOfTwoTest(p);
    Pow32();
    PowInjective(Ctz(p), 32);
  }

  /** Masking the low half is masking the whole when the mask fits the half. */
  lemma {:induction false} PowerAcross(n: Words, p: nat)
    requires n.Valid() && 1 < p < TWO32 && And(p, p - 1) == 0
    ensures 0 < Ctz(p) < 32
    ensures Words(Shr(n.high, Ctz(p)), Funnel(n, Ctz(p))).Valid()
    ensures n.All() == Words(Shr(n.high, Ctz(p)), Funnel(n, Ctz(p))).All() * p + And(n.low, p - 1)
    ensures And(n.low, p - 1) < p
  {
    CtzRange(p);
    var t := Ctz(p);
    ShiftAcross(n, t);
    PowerSplit(n.All(), p);
    PowerSplit(n.low, p);
    SplitAll(n);
    SplitTwice(n.All(), t, 32 - t);
    assert t + (32 - t) == 32;
  }

  /** Only 1 has a single bit, and 1 is a power of two. */
  lemma {:induction false} TwoBits(p: nat)
    requires 0 < p && And(p, p - 1) != 0
    ensures BitLength(p) >= 2
  {
    BitLengthBounds(p);
    assert Pow2(1) == 2;
  }

  /** What the case analysis ahead of the loop decides: an answer, or the registers the
      loop starts from. */
  datatype Start = Done(quot: nat, rem: nat) | Loop(sr: nat, q: Words, r: Words)

  /** The start is right: the answer is exact, or `q = n << (64 - sr)` and `r = n >> sr` for
      the count of bits `sr` that leaves less than the divisor in `r`. */
  ghost predicate Sound(n: Words, d: Words, s: Start) {
    match s
    case Done(quot, rem) => n.All() == quot * d.All() + rem && rem < d.All() && quot < TWO64
    case Loop(sr, q, r) =>
      && 0 < sr < 64 && q.Valid() && r.Valid()
      && sr == BitLength(n.All()) - BitLength(d.All()) + 1
      && Shr(q.All(), 64 - sr) == Low(n.All(), sr) && Low(q.All(), 64 - sr) == 0
      && r.All() == Shr(n.All(), sr)
  }

  lemma {:induction false} SoundLoop(n: Words, d: Words, sr: nat, q: Words, r: Words)
    requires n.Valid() && d.Valid() && 0 < n.All() && 0 < d.All()
    requires Sound(n, d, Loop(sr, q, r))
    ensures LoopInv(64, n.All(), d.All(), sr, 64 - sr, Reg(r.All(), q.All(), 0))
  {
    Pow64();
    SplitAll(n);
    SplitAll(d);
    SplitAll(q);
    LoopEntry(64, n.All(), d.All(), sr, q.All());
  }

  /** K X / K 0 and K X / K K share this: `sr` from the leading zeros of the high halves. */
  lemma {:induction false} SkipCount(n: Words, d: Words)
    requires n.Valid() && d.Valid() && 0 < n.high && 0 < d.high
    ensures Pow2(32) == TWO32
    ensures 0 <= Clz(32, n.high) < 32 && 0 <= Clz(32, d.high) < 32
    ensures BitLength(n.All()) - BitLength(d.All()) == Clz(32, d.high) - Clz(32, n.high)
    ensures Clz(32, d.high) < Clz(32, n.high) ==> n.All() < d.All()
  {
    Pow32();
    ClzBounds(32, n.high);
    ClzBounds(32, d.high);
    HighBitLength(n);
    HighBitLength(d);
    if Clz(32, d.high) < Clz(32, n.high) {
      ShorterIsLess(n.All(), d.All());
    }
  }

  method ShortStart(n: Words, d: Words, sr: nat) returns (s: Start)
    requires n.Valid() && d.Valid() && 0 < n.high && 0 < d.All() && 0 < sr < 32
    requires sr == BitLength(n.All()) - BitLength(d.All()) + 1
    ensures Sound(n, d, s)
  {
    var q := Words(Shl(32, n.low, 32 - sr), 0);
    var r := Words(Shr(n.high, sr), Funnel(n, sr));
    InitialShort(n, sr);
    ShiftAcross(n, sr);
    s := Loop(sr, q, r);
  }

  method LongStart(n: Words, d: Words, sr: nat) returns (s: Start)
    requires n.Valid() && d.Valid() && 32 < sr < 64
    requires sr == BitLength(n.All()) - BitLength(d.All()) + 1
    ensures Sound(n, d, s)
  {
    var q := Words(Funnel(n, sr - 32), Shl(32, n.low, 64 - sr));
    var r := Words(0, Shr(n.high, sr - 32));
    InitialLong(n, sr - 32);
    ShrLess(n.high, sr - 32);
    s := Loop(sr, q, r);
  }

  method WordStart(n: Words, d: Words) returns (s: Start)
    requires n.Valid() && d.Valid() && 0 < n.high && 0 < d.All()
    requires 32 == BitLength(n.All()) - BitLength(d.All()) + 1
    ensures Sound(n, d, s)
  {
    var q, r := Words(n.low, 0), Words(0, n.high);
    SplitAll(n);
    SplitAll(q);
    s := Loop(32, q, r);
  }

  lemma {:induction false} HighDone(n: Words, d: Words, quot: nat, rh: nat)
    requires n.Valid() && d.Valid() && d.low == 0
    requires n.high == quot * d.high + rh && rh < d.high && quot <= n.high
    ensures Sound(n, d, Done(quot, Words(rh, n.low).All()))
  {
    HighOnly(n, d, quot, rh);
  }

  lemma {:induction false} DivModFacts(x: nat, y: nat)
    requires 0 < y
    ensures x == (x / y) * y + x % y && x % y < y && x / y <= x
  {
    QuotientSmaller(x, y);
  }

  /** K 0 / K 0 */
  method ExactStart(n: Words, d: Words) returns (s: Start)
    requires n.Valid() && d.Valid() && 0 < d.high && d.low == 0 && n.low == 0
    ensures Sound(n, d, s)
  {
    DivModFacts(n.high, d.high);
    HighDone(n, d, n.high / d.high, n.high % d.high);
    s := Done(n.high / d.high, Words(n.high % d.high, 0).All());
  }

  /** K K / K 0 with a power of two */
  lemma {:induction false} HighPower(n: Words, d: Words)
    requires n.Valid() && d.Valid() && 0 < d.high && d.low == 0 && And(d.high, d.high - 1) == 0
    ensures Sound(n, d, Done(Shr(n.high, Ctz(d.high)), Words(And(n.high, d.high - 1), n.low).All()))
  {
    PowerSplit(n.high, d.high);
    ShrLess(n.high, Ctz(d.high));
    HighDone(n, d, Shr(n.high, Ctz(d.high)), And(n.high, d.high - 1));
  }

  /** K X / K 0: the low half of the divisor is zero. */
  method StartHigh(n: Words, d: Words) returns (s: Start)
    requires n.Valid() && d.Valid() && 0 < n.high && 0 < d.high && d.low == 0
    ensures Sound(n, d, s)
  {
    if n.low == 0 {
      s := ExactStart(n, d);
      return;
    }
    if And(d.high, d.high - 1) == 0 {
      HighPower(n, d);
      return Done(Shr(n.high, Ctz(d.high)), Words(And(n.high, d.high - 1), n.low).All());
    }
    SkipCount(n, d);
    TwoBits(d.high);
    var sr := Sub(32, Clz(32, d.high), Clz(32, n.high));
    if sr > 30 {
      return Done(0, n.All());
    }
    s := ShortStart(n, d, sr + 1);
  }

  /** K X / 0 K with a power of two other than 1 */
  lemma {:induction false} LowPower(n: Words, d: Words)
    requires n.Valid() && d.Valid() && d.high == 0 && 1 < d.low && And(d.low, d.low - 1) == 0
    ensures 0 < Ctz(d.low) < 32
    ensures Sound(n, d, Done(Words(Shr(n.high, Ctz(d.low)), Funnel(n, Ctz(d.low))).All(),
                             And(n.low, d.low - 1)))
  {
    PowerAcross(n, d.low);
    SplitAll(Words(Shr(n.high, Ctz(d.low)), Funnel(n, Ctz(d.low))));
  }

  /** K X / 0 K: the high half of the divisor is zero. */
  method StartLow(n: Words, d: Words) returns (s: Start)
    requires n.Valid() && d.Valid() && 0 < n.high && d.high == 0 && 0 < d.low
    ensures Sound(n, d, s)
  {
    if And(d.low, d.low - 1) == 0 {
      var rem := And(n.low, d.low - 1);
      if d.low == 1 {
        return Done(n.All(), rem);
      }
      LowPower(n, d);
      var sr := Ctz(d.low);
      var q := Words(Shr(n.high, sr), Funnel(n, sr));
      return Done(q.All(), rem);
    }
    Pow32();
    ClzBounds(32, d.low);
    ClzBounds(32, n.high);
    HighBitLength(n);
    TwoBits(d.low);
    var sr := 33 + Clz(32, d.low) - Clz(32, n.high);
    if sr == 32 {
      s := WordStart(n, d);
    } else if sr < 32 {
      s := ShortStart(n, d, sr);
    } else {
      s := LongStart(n, d, sr);
    }
  }

  /** K X / K K: neither half of the divisor is zero. */
  method StartBoth(n: Words, d: Words) returns (s: Start)
    requires n.Valid() && d.Valid() && 0 < n.high && 0 < d.high && 0 < d.low
    ensures Sound(n, d, s)
  {
    SkipCount(n, d);
    var sr := Sub(32, Clz(32, d.high), Clz(32, n.high));
    if sr > 31 {
      return Done(0, n.All());
    }
    sr := sr + 1;
    if sr == 32 {
      s := WordStart(n, d);
    } else {
      s := ShortStart(n, d, sr);
    }
  }

  /** A dividend of one half. */
  method DivideLow(n: Words, d: Words) returns (quot: nat, rem: nat)
    requires n.Valid() && d.Valid() && n.high == 0 && 0 < d.All()
    ensures n.All() == quot * d.All() + rem && rem < d.All() && quot < TWO64
  {
    if d.high == 0 {
      DivModFacts(n.low, d.low);
      return n.low / d.low, n.low % d.low;
    }
    return 0, n.low;
  }

  /** A dividend of two halves: the special cases, and the start of the loop. */
  method Begin(n: Words, d: Words) returns (start: Start)
    requires n.Valid() && d.Valid() && 0 < n.high && 0 < d.All()
    ensures Sound(n, d, start)
  {
    if d.low == 0 {
      start := StartHigh(n, d);
    } else if d.high == 0 {
      start := StartLow(n, d);
    } else {
      start := StartBoth(n, d);
    }
  }

  method Finish(n: Words, d: Words, start: Start) returns (quot: nat, rem: nat)
    requires n.Valid() && d.Valid() && 0 < n.high && 0 < d.All() && Sound(n, d, start)
    ensures n.All() == quot * d.All() + rem && rem < d.All() && quot < TWO64
  {
    match start {
      case Done(q, r) =>
        quot, rem := q, r;
      case Loop(sr, q, r) =>
        SoundLoop(n, d, sr, q, r);
        quot, rem := ShiftSubtractHalves(n.All(), d.All(), sr, q, r);
    }
  }

  /** 64-bit unsigned division with remainder. */
  method UDivModDI4(a: nat, b: nat) returns (quot: nat, rem: nat)
    requires a < TWO64 && 0 < b < TWO64
    ensures a == quot * b + rem && rem < b
    ensures quot < TWO64
  {
    var n, d := Halves(a), Halves(b);
    if n.high == 0 {
      quot, rem := DivideLow(n, d);
    } else {
      var start := Begin(n, d);
      quot, rem := Finish(n, d, start);
    }
  }

  // ---- __divdi3 and __moddi3

  const INT64_MIN: int := -0x8000_0000_0000_0000

  type Int64 = x: int | INT64_MIN <= x < -INT64_MIN witness 0

  /** The two's-complement pattern of a signed number, and back. */
  function Pattern(x: Int64): (u: nat)
    ensures u < TWO64 && Signed(u) == x
  {
    if x < 0 then x + TWO64 else x
  }

  function Signed(u: nat): Int64
    requires u < TWO64
  {
    if u < TWO64 / 2 then u else u - TWO64
  }

  function Abs(x: int): nat {
    if x < 0 then -x else x
  }

  /** Division that truncates toward zero, and the remainder that goes with it
      (section 6.5.5 of ISO/IEC 9899:1999). */
  function TruncDiv(a: int, b: int): int
    requires b != 0
  {
    if (a < 0) == (b < 0) then Abs(a) / Abs(b) else -(Abs(a) / Abs(b))
  }

  function TruncMod(a: int, b: int): int
    requires b != 0
  {
    if a < 0 then -(Abs(a) % Abs(b)) else Abs(a) % Abs(b)
  }

  /** Truncated quotient and remainder satisfy the standard's equation, and no other pair does. */
  lemma {:induction false} TruncUnique(a: int, b: int, q: int, r: int)
    requires b != 0
    ensures q == TruncDiv(a, b) && r == TruncMod(a, b)
       <==> a == q * b + r && Abs(r) < Abs(b) && (r != 0 ==> (r < 0) == (a < 0))
  {
    TruncEquation(a, b);
    if a == q * b + r && Abs(r) < Abs(b) && (r != 0 ==> (r < 0) == (a < 0)) {
      MagnitudeEquation(a, b, q, r);
      DivModUnique(Abs(a), Abs(b), Abs(q), Abs(r));
      SignOfQuotient(a, b, q, r);
    }
  }

  lemma {:induction false} TruncEquation(a: int, b: int)
    requires b != 0
    ensures a == TruncDiv(a, b) * b + TruncMod(a, b)
    ensures Abs(TruncMod(a, b)) < Abs(b)
    ensures TruncMod(a, b) != 0 ==> (TruncMod(a, b) < 0) == (a < 0)
  {
    var m, k := Abs(a) / Abs(b), Abs(a) % Abs(b);
    assert Abs(a) == m * Abs(b) + k;
    assert (-m) * b == m * (-b);
  }

  lemma {:induction false} MagnitudeEquation(a: int, b: int, q: int, r: int)
    requires b != 0 && a == q * b + r && Abs(r) < Abs(b) && (r != 0 ==> (r < 0) == (a < 0))
    ensures Abs(a) == Abs(q) * Abs(b) + Abs(r)
  {
    MulSign(q, b);
    if q != 0 {
      MulGrows(Abs(b), Abs(q));
    }
    SameSignSum(q * b, r, Abs(b));
  }

  lemma {:induction false} SameSignSum(p: int, r: int, b: nat)
    requires Abs(r) < b && (p == 0 || b <= Abs(p)) && (r != 0 ==> (r < 0) == (p + r < 0))
    ensures Abs(p + r) == Abs(p) + Abs(r)
  {
  }

  lemma {:induction false} MulSign(q: int, b: int)
    ensures Abs(q * b) == Abs(q) * Abs(b)
    ensures q != 0 && b != 0 ==> q * b != 0 && ((q * b < 0) == ((q < 0) != (b < 0)))
  {
  }

  lemma {:induction false} SignOfQuotient(a: int, b: int, q: int, r: int)
    requires b != 0 && a == q * b + r && Abs(r) < Abs(b) && (r != 0 ==> (r < 0) == (a < 0))
    ensures q != 0 ==> (q < 0) == ((a < 0) != (b < 0))
  {
    MulSign(q, b);
    if q != 0 {
      MulGrows(Abs(b), Abs(q));
    }
  }

  /** `(x ^ s) - s`: negation when `s` is all ones, identity when it is zero. */
  function NegateIf(x: nat, s: nat): nat
    requires x < TWO64 && (s == 0 || s == TWO64 - 1)
  {
    var y := Xor(x, s);
    if s <= y then y - s else y + TWO64 - s
  }

  lemma {:induction false} NegateIfValue(x: nat, s: nat)
    requires x < TWO64 && (s == 0 || s == TWO64 - 1)
    ensures NegateIf(x, s) == if s == 0 || x == 0 then x else TWO64 - x
  {
    Pow64();
    XorZero(x);
    XorOnes(64, x);
  }

  /** Arithmetic right shift by 63: all ones for a negative number, zero otherwise. */
  function SignOf(x: Int64): (s: nat)
    ensures s == if x < 0 then TWO64 - 1 else 0
  {
    Pow64();
    assert Pow2(64) == 2 * Pow2(63);
    SignMask(64, Pattern(x))
  }

  /** Signed division.  The pair (INT64_MIN, -1), whose quotient is not representable, wraps. */
  method DivDI3(a: Int64, b: Int64) returns (q: Int64)
    requires b != 0
    ensures !(a == INT64_MIN && b == -1) ==> q == TruncDiv(a, b)
    ensures a == INT64_MIN && b == -1 ==> q == INT64_MIN
  {
    var sA, sB := SignOf(a), SignOf(b);
    NegateIfValue(Pattern(a), sA);
    NegateIfValue(Pattern(b), sB);
    var quot, rem := UDivModDI4(NegateIf(Pattern(a), sA), NegateIf(Pattern(b), sB));
    DivModUnique(Abs(a), Abs(b), quot, rem);
    QuotientFits(a, b);
    XorSigns(sA, sB);
    sA := Xor(sA, sB);
    NegateIfValue(quot, sA);
    q := Signed(NegateIf(quot, sA));
  }

  lemma {:induction false} XorSigns(s: nat, t: nat)
    requires s == 0 || s == TWO64 - 1
    requires t == 0 || t == TWO64 - 1
    ensures Xor(s, t) == if s == t then 0 else TWO64 - 1
  {
    Pow64();
    XorZero(s);
    XorZero(t);
    XorOnes(64, s);
  }

  lemma {:induction false} QuotientFits(a: Int64, b: Int64)
    requires b != 0
    ensures Abs(a) / Abs(b) <= Abs(a)
    ensures Abs(a) / Abs(b) == -INT64_MIN ==> a == INT64_MIN && Abs(b) == 1
  {
    QuotientSmaller(Abs(a), Abs(b));
  }

  lemma {:induction false} QuotientSmaller(x: nat, y: nat)
    requires 0 < y
    ensures x / y <= x
    ensures 1 < y && 0 < x ==> x / y < x
  {
    var m := x / y;
    assert x == m * y + x % y;
    MulGrows(m, y);
    if 1 < y {
      MulMonotone(2, y, m);
    }
  }

  /** Signed remainder: it takes the sign of the dividend; (INT64_MIN, -1) gives 0. */
  method ModDI3(a: Int64, b: Int64) returns (r: Int64)
    requires b != 0
    ensures r == TruncMod(a, b)
  {
    var s := SignOf(b);
    NegateIfValue(Pattern(b), s);
    var ub := NegateIf(Pattern(b), s);
    s := SignOf(a);
    NegateIfValue(Pattern(a), s);
    var quot, rem := UDivModDI4(NegateIf(Pattern(a), s), ub);
    DivModUnique(Abs(a), Abs(b), quot, rem);
    NegateIfValue(rem, s);
    r := Signed(NegateIf(rem, s));
  }
}
