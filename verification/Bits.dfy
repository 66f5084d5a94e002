/** Machine words as natural numbers.

    A `w`-bit word is a natural number below `Pow2(w)`.  The bitwise operators are defined
    digit by digit, and every operation that can leave the word wraps explicitly, so no
    property below relies on Dafny's unbounded integers. */
module Bits {

  const TWO32: nat := 0x1_0000_0000
  const TWO64: nat := 0x1_0000_0000_0000_0000

  type Byte = x: nat | x < 256

  function Pow2(k: nat): (p: nat)
    ensures p > 0
  {
    if k == 0 then 1 else 2 * Pow2(k - 1)
  }

  function And(x: nat, y: nat): (z: nat)
    ensures z <= x && z <= y
  {
    if x == 0 || y == 0 then 0
    else 2 * And(x / 2, y / 2) + if x % 2 == 1 && y % 2 == 1 then 1 else 0
  }

  function Or(x: nat, y: nat): nat
    decreases x + y
  {
    if x == 0 && y == 0 then 0
    else 2 * Or(x / 2, y / 2) + if x % 2 == 1 || y % 2 == 1 then 1 else 0
  }

  function Xor(x: nat, y: nat): nat
    decreases x + y
  {
    if x == 0 && y == 0 then 0
    else 2 * Xor(x / 2, y / 2) + if x % 2 != y % 2 then 1 else 0
  }

  /** The low `k` bits of a number: what truncation to a `k`-bit word keeps. */
  function Low(x: nat, k: nat): nat {
    if k == 0 then 0 else 2 * Low(x / 2, k - 1) + x % 2
  }

  function Shr(x: nat, k: nat): nat {
    if k == 0 then x else Shr(x / 2, k - 1)
  }

  /** Reduction of a sum to a 32-bit word. */
  function Wrap(x: nat): nat {
    if x < TWO32 then x else Wrap(x - TWO32)
  }

  lemma {:induction false} WrapMod(x: nat)
    ensures Wrap(x) == x % TWO32
  {
    if x < TWO32 {
    } else {
      WrapMod(x - TWO32);
    }
  }

  function Double(x: nat, k: nat): nat {
    if k == 0 then x else 2 * Double(x, k - 1)
  }

  function Shl(w: nat, x: nat, k: nat): nat {
    Low(Double(x, k), w)
  }

  /** Unsigned subtraction of `w`-bit words, with wrap-around. */
  function Sub(w: nat, x: nat, y: nat): (z: nat)
    requires x < Pow2(w) && y < Pow2(w)
    ensures z < Pow2(w)
  {
    if y <= x then x - y else x + Pow2(w) - y
  }

  /** Sign mask of a `w`-bit word: the arithmetic right shift of its two's-complement
      reading by `w - 1` places, read back as an unsigned word. */
  function SignMask(w: nat, x: nat): nat
    requires 0 < w && x < Pow2(w)
  {
    if x < Pow2(w - 1) then 0 else Pow2(w) - 1
  }

  function BitLength(x: nat): nat {
    if x == 0 then 0 else 1 + BitLength(x / 2)
  }

  /** Count of leading zeros of a `w`-bit word; like the builtin, only for nonzero words. */
  function Clz(w: nat, x: nat): int
    requires 0 < x < Pow2(w)
  {
    w - BitLength(x)
  }

  /** Count of trailing zeros; like the builtin, only for nonzero words. */
  function Ctz(x: nat): nat
    requires 0 < x
  {
    if x % 2 == 1 then 0 else 1 + Ctz(x / 2)
  }

  // ---- powers of two

  lemma {:induction false} PowAdd(a: nat, b: nat)
    ensures Pow2(a + b) == Pow2(a) * Pow2(b)
  {
    if a == 0 {
    } else {
      PowAdd(a - 1, b);
    }
  }

  lemma {:induction false} PowMonotone(a: nat, b: nat)
    requires a <= b
    ensures Pow2(a) <= Pow2(b)
  {
    if a == b {
    } else {
      PowMonotone(a, b - 1);
    }
  }

  /** Below `Pow2(b)`, a power of two has exponent below `b`. */
  lemma {:induction false} PowInjective(a: nat, b: nat)
    requires Pow2(a) < Pow2(b)
    ensures a < b
  {
    if b <= a {
      PowMonotone(b, a);
    }
  }

  lemma {:induction false} Pow32()
    ensures Pow2(32) == TWO32
  {
    assert Pow2(8) == 256;
    PowAdd(8, 8);
    PowAdd(16, 16);
  }

  lemma {:induction false} KnownPowers()
    ensures Pow2(0) == 1 && Pow2(1) == 2 && Pow2(2) == 4 && Pow2(3) == 8 && Pow2(5) == 32
    ensures Pow2(12) == 4096 && Pow2(31) == 0x8000_0000
  {
    Pow32();
    assert Pow2(7) == 128;
    PowAdd(5, 7);
    assert Pow2(32) == 2 * Pow2(31);
  }

  lemma {:induction false} Pow64()
    ensures Pow2(64) == TWO64
    ensures Pow2(64) == Pow2(32) * Pow2(32)
  {
    Pow32();
    PowAdd(32, 32);
  }

  // ---- quotients

  /** Multiplication as repeated addition, which keeps the solver's arithmetic linear. */
  function Times(x: nat, y: nat): nat {
    if x == 0 then 0 else y + Times(x - 1, y)
  }

  lemma {:induction false} TimesIsProduct(x: nat, y: nat)
    ensures Times(x, y) == x * y
  {
    if x == 0 {
    } else {
      TimesIsProduct(x - 1, y);
    }
  }

  lemma {:induction false} TimesDouble(x: nat, y: nat)
    ensures Times(2 * x, y) == 2 * Times(x, y)
    ensures Times(2 * x + 1, y) == 2 * Times(x, y) + y
  {
    if x == 0 {
    } else {
      TimesDouble(x - 1, y);
    }
  }

  lemma {:induction false} MulMonotone(a: nat, b: nat, c: nat)
    requires a <= b
    ensures a * c <= b * c
  {
  }

  lemma {:induction false} QuotientUnique(b: nat, q: nat, r: nat, q': nat, r': nat)
    requires q * b + r == q' * b + r' && r < b && r' < b
    ensures q == q' && r == r'
  {
    if q < q' {
      MulMonotone(q + 1, q', b);
    } else if q' < q {
      MulMonotone(q' + 1, q, b);
    }
  }

  lemma {:induction false} DivModUnique(a: nat, b: nat, q: nat, r: nat)
    requires a == q * b + r && r < b
    ensures q == a / b && r == a % b
  {
    assert a == (a / b) * b + a % b;
    QuotientUnique(b, q, r, a / b, a % b);
  }

  // ---- splitting a word into high and low bits

  /** A number is its high part above its low part. */
  lemma {:induction false} Split(x: nat, k: nat)
    ensures x == Shr(x, k) * Pow2(k) + Low(x, k)
  {
    if k == 0 {
    } else {
      Split(x / 2, k - 1);
    }
  }

  /** Shifting right is division, truncation is the remainder. */
  lemma {:induction false} SplitDivMod(x: nat, k: nat)
    ensures Shr(x, k) == x / Pow2(k) && Low(x, k) == x % Pow2(k)
  {
    Split(x, k);
    LowBound(x, k);
    DivModUnique(x, Pow2(k), Shr(x, k), Low(x, k));
  }

  lemma {:induction false} LowBound(x: nat, k: nat)
    ensures Low(x, k) < Pow2(k) && Low(x, k) <= x
  {
    if k == 0 {
    } else {
      LowBound(x / 2, k - 1);
    }
  }

  lemma {:induction false} LowSmall(x: nat, k: nat)
    requires x < Pow2(k)
    ensures Low(x, k) == x && Shr(x, k) == 0
  {
    if k == 0 {
    } else {
      LowSmall(x / 2, k - 1);
    }
  }

  /** Splitting at bit `j + k` agrees with splitting at `j`, then at `k`. */
  lemma {:induction false} SplitTwice(x: nat, j: nat, k: nat)
    ensures Shr(x, j + k) == Shr(Shr(x, j), k)
    ensures Shr(Low(x, j + k), j) == Low(Shr(x, j), k)
    ensures Low(Low(x, j + k), j) == Low(x, j)
  {
    if j != 0 {
      SplitTwice(x / 2, j - 1, k);
    } else {
      LowSmall(0, k);
    }
  }

  lemma {:induction false} SameSplit(x: nat, y: nat, k: nat)
    requires Shr(x, k) == Shr(y, k) && Low(x, k) == Low(y, k)
    ensures x == y
  {
    if k == 0 {
    } else {
      SameSplit(x / 2, y / 2, k - 1);
    }
  }

  lemma {:induction false} ShrBound(x: nat, j: nat, k: nat)
    requires x < Pow2(j + k)
    ensures Shr(x, j) < Pow2(k)
  {
    if j == 0 {
    } else {
      ShrBound(x / 2, j - 1, k);
    }
  }

  lemma {:induction false} DoubleSplit(x: nat, k: nat)
    ensures Shr(Double(x, k), k) == x && Low(Double(x, k), k) == 0
  {
    if k == 0 {
    } else {
      DoubleSplit(x, k - 1);
    }
  }

  /** Shifting left keeps the low bits above zeros and drops the others. */
  lemma {:induction false} ShlSplit(w: nat, x: nat, k: nat)
    requires k <= w
    ensures Shr(Shl(w, x, k), k) == Low(x, w - k) && Low(Shl(w, x, k), k) == 0
    ensures Shl(w, x, k) < Pow2(w)
  {
    LowBound(Double(x, k), w);
    DoubleSplit(x, k);
    SplitTwice(Double(x, k), k, w - k);
  }

  lemma {:induction false} ShlOne(w: nat, x: nat)
    requires 0 < w
    ensures Shl(w, x, 1) == 2 * Low(x, w - 1)
  {
    assert Double(x, 1) == 2 * x;
  }

  // ---- bitwise operators as arithmetic

  lemma {:induction false} OrZero(x: nat)
    ensures Or(x, 0) == x && Or(0, x) == x
  {
    if x == 0 {
    } else {
      OrZero(x / 2);
    }
  }

  /** Or fills in the low bits of a word that has none. */
  lemma {:induction false} OrDisjoint(x: nat, y: nat, k: nat)
    requires Low(x, k) == 0 && y < Pow2(k)
    ensures Or(x, y) == x + y
  {
    if k == 0 {
      OrZero(x);
    } else if x + y != 0 {
      OrDisjoint(x / 2, y / 2, k - 1);
    }
  }

  /** Masking with `Pow2(k) - 1` truncates. */
  lemma {:induction false} AndMask(x: nat, k: nat)
    ensures And(x, Pow2(k) - 1) == Low(x, k)
  {
    if k == 0 {
    } else {
      AndMask(x / 2, k - 1);
      assert (Pow2(k) - 1) / 2 == Pow2(k - 1) - 1;
    }
  }

  lemma {:induction false} AndEven(x: nat, m: nat)
    ensures And(x, 2 * m) == 2 * And(x / 2, m)
  {
    assert 2 * m / 2 == m && 2 * m % 2 == 0;
  }

  /** Masking with the complement of `Pow2(k) - 1` rounds down to a multiple of `Pow2(k)`. */
  lemma {:induction false} AndAlign(w: nat, x: nat, k: nat)
    requires x < Pow2(w) && k <= w
    ensures Pow2(k) <= Pow2(w)
    ensures And(x, Pow2(w) - Pow2(k)) == x - Low(x, k)
  {
    if k == 0 {
      AndMask(x, w);
      LowSmall(x, w);
    } else {
      AndAlign(w - 1, x / 2, k - 1);
      var m := Pow2(w - 1) - Pow2(k - 1);
      calc {
        And(x, Pow2(w) - Pow2(k));
        { assert Pow2(w) - Pow2(k) == 2 * m; }
        And(x, 2 * m);
        { AndEven(x, m); }
        2 * And(x / 2, m);
        2 * (x / 2 - Low(x / 2, k - 1));
      }
    }
  }

  lemma {:induction false} XorZero(x: nat)
    ensures Xor(x, 0) == x && Xor(0, x) == x
  {
    if x == 0 {
    } else {
      XorZero(x / 2);
    }
  }

  /** Xor with all ones is the complement. */
  lemma {:induction false} XorOnes(w: nat, x: nat)
    requires x < Pow2(w)
    ensures Xor(x, Pow2(w) - 1) == Pow2(w) - 1 - x
  {
    if w == 0 {
    } else {
      XorOnes(w - 1, x / 2);
      assert (Pow2(w) - 1) / 2 == Pow2(w - 1) - 1;
    }
  }

  /** `x & (x - 1)` vanishes exactly on powers of two. */
  lemma {:induction false} PowerOfTwoTest(x: nat)
    requires 0 < x
    ensures And(x, x - 1) == 0 <==> x == Pow2(Ctz(x))
  {
    if x % 2 == 0 {
      PowerOfTwoTest(x / 2);
      assert (x - 1) / 2 == x / 2 - 1;
    } else if x > 1 {
      assert (x - 1) / 2 == x / 2;
      AndSelf(x / 2);
    }
  }

  lemma {:induction false} AndSelf(x: nat)
    ensures And(x, x) == x
  {
    if x == 0 {
    } else {
      AndSelf(x / 2);
    }
  }

  lemma {:induction false} BitLengthBounds(x: nat)
    requires 0 < x
    ensures 0 < BitLength(x)
    ensures Pow2(BitLength(x) - 1) <= x < Pow2(BitLength(x))
  {
    if x == 1 {
    } else {
      BitLengthBounds(x / 2);
    }
  }

  lemma {:induction false} BitLengthShr(x: nat, k: nat)
    ensures BitLength(Shr(x, k)) == if k <= BitLength(x) then BitLength(x) - k else 0
  {
    if k != 0 && x != 0 {
      BitLengthShr(x / 2, k - 1);
    } else if x == 0 {
      LowSmall(0, k);
    }
  }

  lemma {:induction false} ShorterIsLess(x: nat, y: nat)
    requires BitLength(x) < BitLength(y)
    ensures x < y
  {
    BitLengthBounds(y);
    if x != 0 {
      BitLengthBounds(x);
      PowMonotone(BitLength(x), BitLength(y) - 1);
    }
  }

  /** Leading zeros bound a nonzero word from both sides. */
  lemma {:induction false} ClzBounds(w: nat, x: nat)
    requires 0 < x < Pow2(w)
    ensures 0 <= Clz(w, x) < w
    ensures Pow2(w - 1 - Clz(w, x)) <= x < Pow2(w - Clz(w, x))
  {
    BitLengthBounds(x);
    PowInjective(BitLength(x) - 1, w);
  }
}
