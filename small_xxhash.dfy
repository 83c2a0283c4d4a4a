/**
  The reduced 32-bit xxHash used by the hash visualiser: a seed, a 4-byte
  lane step for `int` data, a 1-byte step, and the final avalanche. All
  arithmetic is on `uint` and wraps modulo 2^32 (module Word).

  The five constants are PRIME32_1 to PRIME32_5 of the XXH32 algorithm.
  Unlike full XXH32, the hash never adds the input length before the
  avalanche.
 */
module XXHash {
  import opened Word

  /** A C# `int`: a signed 32-bit integer. */
  newtype int32 = x: int | -0x8000_0000 <= x < 0x8000_0000

  /** A C# `byte`. */
  type byte = x: int | 0 <= x < 0x100

  const PrimeA: uint := 0x9E37_79B1
  const PrimeB: uint := 0x85EB_CA77
  const PrimeC: uint := 0xC2B2_AE3D
  const PrimeD: uint := 0x27D4_EB2F
  const PrimeE: uint := 0x1656_67B1

  /** The hash state: a single 32-bit accumulator, never updated in place. */
  datatype SmallXXHash = SmallXXHash(accumulator: uint)
  {
    /** `Eat(int data)`: the 4-byte lane step of XXH32 (primeC, rotate by 17, primeD). */
    function Eat(data: int32): SmallXXHash
    {
      SmallXXHash(Mul(RotateLeft(Add(accumulator, Mul(ToUint(data), PrimeC)), 17), PrimeD))
    }

    /** `Eat(byte data)`: multiplies by primeC (not primeE), rotates by 11, then primeA. */
    function EatByte(data: byte): SmallXXHash
    {
      SmallXXHash(Mul(RotateLeft(Add(accumulator, Mul(data, PrimeC)), 11), PrimeA))
    }

    /**
      The implicit conversion to `uint`: the XXH32 avalanche, that is
      xor-shift by 15, times primeB, xor-shift by 13, times primeC,
      xor-shift by 16.
     */
    function Avalanche(): uint
    {
      XorShift(Mul(XorShift(Mul(XorShift(accumulator, 15), PrimeB), 13), PrimeC), 16)
    }
  }

  /** `Seed(int seed)`: the starting state for a seed (plus primeE). */
  function Seed(seed: int32): SmallXXHash
  {
    SmallXXHash(Add(ToUint(seed), PrimeE))
  }

  /** The commented-out `SmallXXHash.Eat(byte)` in HashVisual.cs, which follows XXH32 and uses primeE. */
  function EatByteWithPrimeE(h: SmallXXHash, data: byte): SmallXXHash
  {
    SmallXXHash(Mul(RotateLeft(Add(h.accumulator, Mul(data, PrimeE)), 11), PrimeA))
  }

  /** The `(uint)` cast of a C# `int`: its two's-complement bit pattern. */
  function ToUint(d: int32): (r: uint)
    ensures r as int == if d < 0 then d as int + 0x1_0000_0000 else d as int
  {
    Wrap(d as int)
  }

  /** `SmallXXHash.RotateLeft` in HashVisual.cs: `(data << steps) | (data >> 32 - steps)`. */
  function RotateLeft(data: uint, steps: int): uint
  {
    BitOr(ShiftLeft(data, steps), ShiftRight(data, 32 - steps))
  }

  /** `a ^= a >> steps`, the mixing step of the avalanche. */
  function XorShift(a: uint, steps: nat): uint
  {
    BitXor(a, ShiftRight(a, steps))
  }

  // ---------------------------------------------------------------------
  // Rotation

  /** For 0 < s < 32, rotating moves the low 32 - s bits up by s places and the rest down. */
  lemma RotateLeftValue(x: uint, s: nat)
    requires 0 < s < 32
    ensures RotateLeft(x, s) == Low(x, 32 - s) * Pow2(s) + Shr(x, 32 - s)
  {
    var hi, lo := ShiftLeft(x, s), Shr(x, 32 - s);
    assert RotateLeft(x, s) == Or(hi, lo) by {
      assert (32 - s) % 32 == 32 - s;
    }
    ShiftLeftValue(x, s);
    TwoPow32();
    ShrBound(x, s, 32 - s);
    OrDisjoint(Low(x, 32 - s), lo, s);
  }

  /** A left shift by 0 < s < 32 keeps the low 32 - s bits, moved up by s places. */
  lemma ShiftLeftValue(x: uint, s: nat)
    requires 0 < s < 32
    ensures ShiftLeft(x, s) == Low(x, 32 - s) * Pow2(s)
  {
    var t := 32 - s;
    var h, l := Shr(x, t), Low(x, t);
    assert ShiftLeft(x, s) == Wrap(x * Pow2(s)) by {
      assert s % 32 == s;
    }
    var y := l * Pow2(s);
    assert x * Pow2(s) == y + 0x1_0000_0000 * h && y < 0x1_0000_0000 by {
      TwoPow32();
      Split(x, t);
      Pow2Add(t, s);
      ScaledSplit(x, h, l, Pow2(t), Pow2(s));
    }
    WrapAddMultiple(y, h);
  }

  /** If x == h * p + l with l < p and p * q == 2^32, then x * q is l * q plus h times 2^32. */
  lemma ScaledSplit(x: nat, h: nat, l: nat, p: nat, q: nat)
    requires x == h * p + l && l < p
    requires p * q == 0x1_0000_0000
    ensures x * q == l * q + 0x1_0000_0000 * h
    ensures l * q < 0x1_0000_0000
  {
    assert x * q == h * (p * q) + l * q;
    MulBelow(l, p, q);
  }

  /** From l < p follows l * q <= p * q - q. */
  lemma MulBelow(l: nat, p: nat, q: nat)
    requires l < p
    ensures l * q <= p * q - q
  {
    var d := p - l;
    assert p * q == l * q + d * q;
    assert d * q - q == (d - 1) * q;
  }

  /** Rotating left by s and then by 32 - s gives back the word, for every 0 < s < 32. */
  lemma {:induction false} RotateLeftInverse(x: uint, s: nat)
    requires 0 < s < 32
    ensures RotateLeft(RotateLeft(x, s), 32 - s) == x
  {
    var t := 32 - s;
    var h, l := Shr(x, t), Low(x, t);
    var y := RotateLeft(x, s);
    RotateLeftValue(x, s);
    TwoPow32();
    Split(x, t);
    ShrBound(x, s, t);
    SplitUnique(y, l, h, s);
    RotateLeftValue(y, t);
  }

  /** The two rotations the hash uses are undone by the complementary rotations. */
  lemma RotateLeftInverses(x: uint)
    ensures RotateLeft(RotateLeft(x, 17), 15) == x
    ensures RotateLeft(RotateLeft(x, 15), 17) == x
    ensures RotateLeft(RotateLeft(x, 11), 21) == x
    ensures RotateLeft(RotateLeft(x, 21), 11) == x
  {
    RotateLeftInverse(x, 17);
    RotateLeftInverse(x, 15);
    RotateLeftInverse(x, 11);
    RotateLeftInverse(x, 21);
  }

  // ---------------------------------------------------------------------
  // The avalanche is a bijection on 32-bit words

  /**
    The inverse of `a ^= a >> steps` for shifts of 11 bits or more, where
    three shifts already push every bit out of the word.
   */
  function UndoXorShift(b: uint, steps: nat): uint
  {
    BitXor(BitXor(b, ShiftRight(b, steps)), ShiftRight(b, 2 * steps))
  }

  /** An xor-shift by 11 to 15 bits is a bijection, undone by UndoXorShift. */
  lemma XorShiftInverse(x: uint, k: nat)
    requires 11 <= k < 16
    ensures UndoXorShift(XorShift(x, k), k) == x
    ensures XorShift(UndoXorShift(x, k), k) == x
  {
    UndoAfterXorShift(x, k);
    XorShiftAfterUndo(x, k);
  }

  /** The avalanche steps, written on naturals. */
  lemma XorShiftValue(x: uint, k: nat)
    requires k < 16
    ensures XorShift(x, k) == Xor(x, Shr(x, k))
    ensures UndoXorShift(x, k) == Xor(Xor(x, Shr(x, k)), Shr(x, 2 * k))
  {
    assert k % 32 == k && (2 * k) % 32 == 2 * k;
  }

  /** With s1, s2 the word shifted by k and 2k: ((x ^ s1) ^ (s1 ^ s2)) ^ s2 == x. */
  lemma UndoAfterXorShift(x: uint, k: nat)
    requires 11 <= k < 16
    ensures UndoXorShift(XorShift(x, k), k) == x
  {
    var s1, s2 := Shr(x, k), Shr(x, 2 * k);
    var y := XorShift(x, k);
    assert y == Xor(x, s1) by {
      XorShiftValue(x, k);
    }
    assert Shr(y, k) == Xor(s1, s2) by {
      ShrXor(x, s1, k);
      ShrShr(x, k, k);
    }
    assert Shr(y, 2 * k) == s2 by {
      ShiftedOut(x, k);
      ShrXor(x, s1, 2 * k);
      XorZero(s2);
    }
    assert UndoXorShift(y, k) == Xor(Xor(y, Xor(s1, s2)), s2) by {
      XorShiftValue(y, k);
    }
    XorCancel(x, s1, s2);
  }

  /** A word shifted right by k and then by 2k, or by 2k and then by k, has lost every bit. */
  lemma ShiftedOut(x: uint, k: nat)
    requires 11 <= k
    ensures Shr(Shr(x, k), 2 * k) == 0 && Shr(Shr(x, 2 * k), k) == 0
  {
    TwoPow32();
    Pow2Monotone(32, 3 * k);
    ShrShr(x, k, 2 * k);
    ShrShr(x, 2 * k, k);
    ShrAll(x, 3 * k);
  }

  /** With s1, s2 the word shifted by k and 2k: ((x ^ s1) ^ s2) ^ (s1 ^ s2) == x. */
  lemma XorShiftAfterUndo(x: uint, k: nat)
    requires 11 <= k < 16
    ensures XorShift(UndoXorShift(x, k), k) == x
  {
    var s1, s2 := Shr(x, k), Shr(x, 2 * k);
    var w := UndoXorShift(x, k);
    assert w == Xor(Xor(x, s1), s2) by {
      XorShiftValue(x, k);
    }
    assert Shr(Xor(x, s1), k) == Xor(s1, s2) by {
      ShrXor(x, s1, k);
      ShrShr(x, k, k);
    }
    assert Shr(s2, k) == 0 by {
      ShiftedOut(x, k);
    }
    assert Shr(w, k) == Xor(s1, s2) by {
      ShrXor(Xor(x, s1), s2, k);
      XorZero(Xor(s1, s2));
    }
    assert XorShift(w, k) == Xor(w, Xor(s1, s2)) by {
      XorShiftValue(w, k);
    }
    XorCancel(x, s1, s2);
  }

  /** An xor-shift by 16 is its own inverse. */
  lemma XorShift16Inverse(x: uint)
    ensures XorShift(XorShift(x, 16), 16) == x
  {
    TwoPow32();
    var s1 := Shr(x, 16);
    XorShiftValue(x, 0);
    assert XorShift(x, 16) == Xor(x, s1);
    assert XorShift(Xor(x, s1), 16) == Xor(Xor(x, s1), Shr(Xor(x, s1), 16));
    ShrXor(x, s1, 16);
    ShrShr(x, 16, 16);
    ShrAll(x, 32);
    XorZero(s1);
    XorAssoc(x, s1, s1);
    XorSelf(s1);
    XorZero(x);
  }

  /** Multiplication by each prime is undone by its inverse modulo 2^32. */
  lemma MulPrimeInverses(x: uint)
    ensures Mul(Mul(x, PrimeA), 0x0E8B_2F51) == x
    ensures Mul(Mul(x, PrimeB), 0xB6C9_2F47) == x && Mul(Mul(x, 0xB6C9_2F47), PrimeB) == x
    ensures Mul(Mul(x, PrimeC), 0xA89E_D915) == x && Mul(Mul(x, 0xA89E_D915), PrimeC) == x
    ensures Mul(Mul(x, PrimeD), 0xA0FE_3BCF) == x
  {
    MulInverse(x, PrimeA, 0x0E8B_2F51);
    MulInverse(x, PrimeB, 0xB6C9_2F47);
    MulInverse(x, 0xB6C9_2F47, PrimeB);
    MulInverse(x, PrimeC, 0xA89E_D915);
    MulInverse(x, 0xA89E_D915, PrimeC);
    MulInverse(x, PrimeD, 0xA0FE_3BCF);
  }

  /** Undoes the avalanche step by step, last step first. */
  function Unavalanche(r: uint): uint
  {
    UndoXorShift(Mul(UndoXorShift(Mul(XorShift(r, 16), 0xA89E_D915), 13), 0xB6C9_2F47), 15)
  }

  /** Unavalanche undoes Avalanche. */
  lemma UnavalancheAvalanche(x: uint)
    ensures Unavalanche(SmallXXHash(x).Avalanche()) == x
  {
    var a1 := XorShift(x, 15);
    var a2 := Mul(a1, PrimeB);
    var a3 := XorShift(a2, 13);
    var a4 := Mul(a3, PrimeC);
    XorShift16Inverse(a4);
    MulPrimeInverses(a3);
    XorShiftInverse(a2, 13);
    MulPrimeInverses(a1);
    XorShiftInverse(x, 15);
  }

  /** Avalanche undoes Unavalanche. */
  lemma AvalancheUnavalanche(r: uint)
    ensures SmallXXHash(Unavalanche(r)).Avalanche() == r
  {
    var b4 := XorShift(r, 16);
    var b3 := Mul(b4, 0xA89E_D915);
    var b2 := UndoXorShift(b3, 13);
    var b1 := Mul(b2, 0xB6C9_2F47);
    XorShift16Inverse(r);
    MulPrimeInverses(b4);
    XorShiftInverse(b3, 13);
    MulPrimeInverses(b2);
    XorShiftInverse(b1, 15);
  }

  /** The avalanche loses nothing: it is a bijection of 32-bit words. */
  lemma AvalancheBijective(x: uint, y: uint, r: uint)
    ensures SmallXXHash(x).Avalanche() == SmallXXHash(y).Avalanche() ==> x == y
    ensures exists w: uint :: SmallXXHash(w).Avalanche() == r
  {
    UnavalancheAvalanche(x);
    UnavalancheAvalanche(y);
    AvalancheUnavalanche(r);
  }

  // ---------------------------------------------------------------------
  // Seed and the two eating steps are injective

  lemma ToUintInjective(a: int32, b: int32)
    requires ToUint(a) == ToUint(b)
    ensures a == b
  {
  }

  /** Distinct seeds give distinct starting states. */
  lemma SeedInjective(s: int32, t: int32)
    requires Seed(s) == Seed(t)
    ensures s == t
  {
    AddInjective(PrimeE, ToUint(s), ToUint(t));
    ToUintInjective(s, t);
  }

  /** Equal results of the `int` step have equal sums before the rotation. */
  lemma EatSameSum(h: SmallXXHash, g: SmallXXHash, d: int32, e: int32)
    requires h.Eat(d) == g.Eat(e)
    ensures Add(h.accumulator, Mul(ToUint(d), PrimeC)) == Add(g.accumulator, Mul(ToUint(e), PrimeC))
  {
    var x := Add(h.accumulator, Mul(ToUint(d), PrimeC));
    var y := Add(g.accumulator, Mul(ToUint(e), PrimeC));
    MulPrimeInverses(RotateLeft(x, 17));
    MulPrimeInverses(RotateLeft(y, 17));
    RotateLeftInverses(x);
    RotateLeftInverses(y);
  }

  /**
    The `int` step, seen from both of its inputs: with one state, distinct
    data give distinct states, and with the same data, distinct states
    give distinct states.
   */
  lemma EatInjective(h: SmallXXHash, g: SmallXXHash, d: int32, e: int32)
    requires h.Eat(d) == g.Eat(e)
    ensures h == g <==> d == e
  {
    EatSameSum(h, g, d, e);
    if h == g {
      AddInjective(h.accumulator, Mul(ToUint(d), PrimeC), Mul(ToUint(e), PrimeC));
      MulPrimeInverses(ToUint(d));
      MulPrimeInverses(ToUint(e));
      ToUintInjective(d, e);
    } else if d == e {
      AddInjective(Mul(ToUint(d), PrimeC), h.accumulator, g.accumulator);
    }
  }

  /** From one state, distinct bytes lead to distinct states. */
  lemma EatByteInjective(h: SmallXXHash, b: byte, c: byte)
    requires h.EatByte(b) == h.EatByte(c)
    ensures b == c
  {
    var x := Add(h.accumulator, Mul(b, PrimeC));
    var y := Add(h.accumulator, Mul(c, PrimeC));
    MulPrimeInverses(RotateLeft(x, 11));
    MulPrimeInverses(RotateLeft(y, 11));
    RotateLeftInverses(x);
    RotateLeftInverses(y);
    AddInjective(h.accumulator, Mul(b, PrimeC), Mul(c, PrimeC));
    MulPrimeInverses(b);
    MulPrimeInverses(c);
  }

  /**
    The live byte step agrees with the XXH32 byte step (the commented-out
    variant using primeE) exactly when the byte is zero.
   */
  lemma EatByteDiffersFromXXH32(h: SmallXXHash, b: byte)
    ensures h.EatByte(b) == EatByteWithPrimeE(h, b) <==> b == 0
  {
    var x := Add(h.accumulator, Mul(b, PrimeC));
    var y := Add(h.accumulator, Mul(b, PrimeE));
    if h.EatByte(b) == EatByteWithPrimeE(h, b) {
      MulPrimeInverses(RotateLeft(x, 11));
      MulPrimeInverses(RotateLeft(y, 11));
      RotateLeftInverses(x);
      RotateLeftInverses(y);
      AddInjective(h.accumulator, Mul(b, PrimeC), Mul(b, PrimeE));
      PrimeDifferenceCancels(b);
    }
  }

  /**
    primeC - primeE is 4 times the odd number 0x2B1711A3, whose inverse
    modulo 2^30 is 0x1744AA0B; so b * primeC and b * primeE agree modulo
    2^32 only when b is a multiple of 2^30, which no nonzero byte is.
   */
  lemma PrimeDifferenceCancels(b: byte)
    requires Mul(b, PrimeC) == Mul(b, PrimeE)
    ensures b == 0
  {
    var m := 0x1_0000_0000;
    var qc, qe := (b * 0xC2B2_AE3D) / m, (b * 0x1656_67B1) / m;
    assert b * 0xC2B2_AE3D == m * qc + Mul(b, PrimeC);
    assert b * 0x1656_67B1 == m * qe + Mul(b, PrimeE);
    var j := qc - qe;
    assert b * 0x2B17_11A3 == 0x4000_0000 * j;
    assert b * 0x2B17_11A3 * 0x1744_AA0B == 0x4000_0000 * (j * 0x1744_AA0B);
    assert b * 0x2B17_11A3 * 0x1744_AA0B == b + 0x4000_0000 * (262833494 * b);
    assert b == 0x4000_0000 * (j * 0x1744_AA0B - 262833494 * b);
  }
}
