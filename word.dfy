/**
  C# `uint` values: integers in [0, 2^32) with wrapping addition and
  multiplication, shifts whose count is taken modulo 32 (as C# does for a
  32-bit left operand), and the bitwise operators `^` and `|` defined bit
  by bit, least significant bit first.
 */
module Word {

  /** A C# `uint`. */
  type uint = x: int | 0 <= x < 0x1_0000_0000

  /** 2^n. */
  function Pow2(n: nat): (r: nat)
    ensures r >= 1
  {
    if n == 0 then 1 else 2 * Pow2(n - 1)
  }

  /** Reduction modulo 2^32: the wrap-around of `uint` arithmetic. */
  function Wrap(x: int): (r: uint)
    ensures (x - r) % 0x1_0000_0000 == 0
  {
    x % 0x1_0000_0000
  }

  /** `a + b` on `uint`. */
  function Add(a: uint, b: uint): uint
  {
    Wrap(a + b)
  }

  /** `a * b` on `uint`. */
  function Mul(a: uint, b: uint): uint
  {
    Wrap(a * b)
  }

  /** Bitwise exclusive or of two naturals. */
  function Xor(a: nat, b: nat): nat
    decreases a + b
  {
    if a == 0 then b
    else if b == 0 then a
    else 2 * Xor(a / 2, b / 2) + (if a % 2 == b % 2 then 0 else 1)
  }

  /** Bitwise or of two naturals. */
  function Or(a: nat, b: nat): nat
    decreases a + b
  {
    if a == 0 then b
    else if b == 0 then a
    else 2 * Or(a / 2, b / 2) + (if a % 2 == 1 || b % 2 == 1 then 1 else 0)
  }

  /** `x` shifted right by `k` bits: `k` halvings. */
  function Shr(x: nat, k: nat): nat
  {
    if k == 0 then x else Shr(x / 2, k - 1)
  }

  /** The lowest `k` bits of `x`. */
  function Low(x: nat, k: nat): nat
  {
    if k == 0 then 0 else 2 * Low(x / 2, k - 1) + x % 2
  }

  /** `x >> count` on `uint`; only the low five bits of the count are used. */
  function ShiftRight(x: uint, count: int): uint
  {
    ShrAtMost(x, count % 32);
    Shr(x, count % 32)
  }

  /** `x << count` on `uint`; bits shifted past bit 31 are lost. */
  function ShiftLeft(x: uint, count: int): uint
  {
    Wrap(x * Pow2(count % 32))
  }

  /** `a ^ b` on `uint`. */
  function BitXor(a: uint, b: uint): uint
  {
    TwoPow32();
    XorBound(a, b, 32);
    Xor(a, b)
  }

  /** `a | b` on `uint`. */
  function BitOr(a: uint, b: uint): uint
  {
    TwoPow32();
    OrBound(a, b, 32);
    Or(a, b)
  }

  // ---------------------------------------------------------------------
  // Powers of two

  lemma TwoPow32()
    ensures Pow2(32) == 0x1_0000_0000
  {
    assert Pow2(4) == 16;
    Pow2Add(4, 4);
    Pow2Add(8, 8);
    Pow2Add(16, 16);
  }

  lemma {:induction false} Pow2Add(a: nat, b: nat)
    ensures Pow2(a + b) == Pow2(a) * Pow2(b)
    decreases a
  {
    if a > 0 {
      Pow2Add(a - 1, b);
    }
  }

  lemma {:induction false} Pow2Monotone(a: nat, b: nat)
    requires a <= b
    ensures Pow2(a) <= Pow2(b)
    decreases b
  {
    if a < b {
      Pow2Monotone(a, b - 1);
    }
  }

  // ---------------------------------------------------------------------
  // Shifts and low bits

  lemma {:induction false} ShrAtMost(x: nat, k: nat)
    ensures Shr(x, k) <= x
    decreases k
  {
    if k > 0 {
      ShrAtMost(x / 2, k - 1);
    }
  }

  /** Shifting by `a` and then by `b` is shifting by `a + b`. */
  lemma {:induction false} ShrShr(x: nat, a: nat, b: nat)
    ensures Shr(Shr(x, a), b) == Shr(x, a + b)
    decreases a
  {
    if a > 0 {
      ShrShr(x / 2, a - 1, b);
    }
  }

  /** A number below 2^(n + k) has fewer than n bits left after a shift by k. */
  lemma {:induction false} ShrBound(x: nat, n: nat, k: nat)
    requires x < Pow2(n + k)
    ensures Shr(x, k) < Pow2(n)
    decreases k
  {
    if k > 0 {
      ShrBound(x / 2, n, k - 1);
    }
  }

  /** Shifting out every bit leaves zero. */
  lemma ShrAll(x: nat, k: nat)
    requires x < Pow2(k)
    ensures Shr(x, k) == 0
  {
    ShrBound(x, 0, k);
  }

  /** `x` is its high part times 2^k plus its low `k` bits. */
  lemma {:induction false} Split(x: nat, k: nat)
    ensures x == Shr(x, k) * Pow2(k) + Low(x, k)
    ensures Low(x, k) < Pow2(k)
    decreases k
  {
    if k > 0 {
      Split(x / 2, k - 1);
      calc {
        Shr(x, k) * Pow2(k) + Low(x, k);
        Shr(x / 2, k - 1) * (2 * Pow2(k - 1)) + 2 * Low(x / 2, k - 1) + x % 2;
        2 * (Shr(x / 2, k - 1) * Pow2(k - 1) + Low(x / 2, k - 1)) + x % 2;
        x;
      }
    }
  }

  /** The high part and the low `k` bits are determined by `x`. */
  lemma {:induction false} SplitUnique(x: nat, q: nat, r: nat, k: nat)
    requires r < Pow2(k)
    requires x == q * Pow2(k) + r
    ensures Shr(x, k) == q && Low(x, k) == r
    decreases k
  {
    if k > 0 {
      assert x == 2 * (q * Pow2(k - 1) + r / 2) + r % 2;
      SplitUnique(x / 2, q, r / 2, k - 1);
    }
  }

  // ---------------------------------------------------------------------
  // Exclusive or

  lemma XorHalves(a: nat, b: nat)
    ensures Xor(a, b) / 2 == Xor(a / 2, b / 2)
    ensures Xor(a, b) % 2 == if a % 2 == b % 2 then 0 else 1
  {
  }

  lemma {:induction false} XorBound(a: nat, b: nat, n: nat)
    requires a < Pow2(n) && b < Pow2(n)
    ensures Xor(a, b) < Pow2(n)
    decreases a + b
  {
    if a != 0 && b != 0 {
      XorBound(a / 2, b / 2, n - 1);
    }
  }

  lemma XorZero(a: nat)
    ensures Xor(a, 0) == a && Xor(0, a) == a
  {
  }

  lemma {:induction false} XorSelf(a: nat)
    ensures Xor(a, a) == 0
    decreases a
  {
    if a != 0 {
      XorSelf(a / 2);
    }
  }

  lemma {:induction false} XorComm(a: nat, b: nat)
    ensures Xor(a, b) == Xor(b, a)
    decreases a + b
  {
    if a != 0 && b != 0 {
      XorComm(a / 2, b / 2);
    }
  }

  lemma {:induction false} XorAssoc(a: nat, b: nat, c: nat)
    ensures Xor(Xor(a, b), c) == Xor(a, Xor(b, c))
    decreases a + b + c
  {
    if a + b + c != 0 {
      var lhs, rhs := Xor(Xor(a, b), c), Xor(a, Xor(b, c));
      assert lhs / 2 == rhs / 2 by {
        XorHalves(Xor(a, b), c);
        XorHalves(a, b);
        XorHalves(a, Xor(b, c));
        XorHalves(b, c);
        XorAssoc(a / 2, b / 2, c / 2);
      }
      assert lhs % 2 == rhs % 2 by {
        XorHalves(Xor(a, b), c);
        XorHalves(a, b);
        XorHalves(a, Xor(b, c));
        XorHalves(b, c);
      }
      HalvesDetermine(lhs, rhs);
    }
  }

  /** A natural is determined by its half and its lowest bit. */
  lemma HalvesDetermine(x: nat, y: nat)
    requires x / 2 == y / 2 && x % 2 == y % 2
    ensures x == y
  {
  }

  /** `(a ^ b) ^ (b ^ c) ^ c == a`, rearranged as the xor-shift proofs need it. */
  lemma XorCancel(a: nat, b: nat, c: nat)
    ensures Xor(Xor(Xor(a, b), Xor(b, c)), c) == a
    ensures Xor(Xor(Xor(a, b), c), Xor(b, c)) == a
  {
    XorAssoc(a, b, Xor(b, c));
    XorAssoc(b, b, c);
    XorSelf(b);
    XorZero(c);
    XorAssoc(a, c, c);
    XorSelf(c);
    XorZero(a);
    XorAssoc(Xor(a, b), c, Xor(b, c));
    XorAssoc(c, b, c);
    XorComm(c, b);
    XorAssoc(b, c, c);
    XorZero(b);
  }

  /** A right shift distributes over exclusive or. */
  lemma {:induction false} ShrXor(a: nat, b: nat, k: nat)
    ensures Shr(Xor(a, b), k) == Xor(Shr(a, k), Shr(b, k))
    decreases k
  {
    if k > 0 {
      XorHalves(a, b);
      ShrXor(a / 2, b / 2, k - 1);
    }
  }

  // ---------------------------------------------------------------------
  // Or

  lemma {:induction false} OrBound(a: nat, b: nat, n: nat)
    requires a < Pow2(n) && b < Pow2(n)
    ensures Or(a, b) < Pow2(n)
    decreases a + b
  {
    if a != 0 && b != 0 {
      OrBound(a / 2, b / 2, n - 1);
    }
  }

  /** Or of a multiple of 2^k and a number below 2^k is their sum. */
  lemma {:induction false} OrDisjoint(a: nat, b: nat, k: nat)
    requires b < Pow2(k)
    ensures Or(a * Pow2(k), b) == a * Pow2(k) + b
    decreases k
  {
    if k > 0 {
      var p := Pow2(k - 1);
      var half := a * p;
      var hi := a * Pow2(k);
      assert hi == 2 * half;
      assert b / 2 < p;
      OrDisjoint(a, b / 2, k - 1);
      if hi != 0 && b != 0 {
        assert hi / 2 == half && hi % 2 == 0;
        assert Or(hi, b) == 2 * Or(half, b / 2) + b % 2;
      }
    }
  }

  // ---------------------------------------------------------------------
  // Wrap-around arithmetic

  lemma WrapAddMultiple(x: int, t: int)
    requires 0 <= x < 0x1_0000_0000
    ensures Wrap(x + 0x1_0000_0000 * t) == x
  {
  }

  /** Multiplying by `p` is undone by multiplying by an inverse `q` of `p` modulo 2^32. */
  lemma MulInverse(x: uint, p: uint, q: uint)
    requires (p * q) % 0x1_0000_0000 == 1
    ensures Mul(Mul(x, p), q) == x
  {
    var m := 0x1_0000_0000;
    var k := (p * q) / m;
    var d := (x * p) / m;
    assert p * q == 1 + m * k;
    assert Mul(x, p) == x * p - m * d;
    calc {
      Mul(x, p) * q;
      (x * p - m * d) * q;
      x * (p * q) - m * (d * q);
      x * (1 + m * k) - m * (d * q);
      x + m * (x * k - d * q);
    }
    WrapAddMultiple(x, x * k - d * q);
  }

  /** Adding the same word on the left is injective. */
  lemma AddInjective(a: uint, p: uint, q: uint)
    requires Add(a, p) == Add(a, q)
    ensures p == q
  {
  }
}
