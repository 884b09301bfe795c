/**
 * The epoch of a new ledger: splitmix64 of the process seed and the number of
 * ledgers created before. Every step of it is a bijection on 64-bit words, so
 * distinct ledgers get distinct epochs.
 */
module LedgerEpochs {
  import opened Bytes

  const GAMMA := 0x9E37_79B9_7F4A_7C15
  const MIX1 := 0xBF58_476D_1CE4_E5B9
  const MIX2 := 0x94D0_49BB_1331_11EB

  /** Bitwise exclusive or. */
  function Xor(a: nat, b: nat): nat {
    if a == 0 && b == 0 then 0 else (if a % 2 == b % 2 then 0 else 1) + 2 * Xor(a / 2, b / 2)
  }

  /** Logical shift right. */
  function Shr(a: nat, s: nat): nat
    decreases s
  {
    if s == 0 then a else Shr(a / 2, s - 1)
  }

  function XorShift(z: U64, s: nat): U64 {
    ShrShrinks(z, s);
    PowerOf64();
    XorFits(z, Shr(z, s), 64);
    Xor(z, Shr(z, s))
  }

  function Mul(z: U64, m: nat): U64 {
    z * m % TWO_TO_64
  }

  function LedgerEpoch(seed: U64, count: nat): U64 {
    var z0: U64 := (seed + GAMMA * count) % TWO_TO_64;
    var z1 := Mul(XorShift(z0, 30), MIX1);
    var z2 := Mul(XorShift(z1, 27), MIX2);
    XorShift(z2, 31)
  }

  function Pow2(n: nat): nat {
    if n == 0 then 1 else 2 * Pow2(n - 1)
  }

  lemma PowerOf64()
    ensures Pow2(64) == TWO_TO_64
  {
    assert Pow2(8) == 256;
    PowSum(8, 8);
    PowSum(16, 16);
    PowSum(32, 32);
  }

  lemma {:induction false} PowSum(a: nat, b: nat)
    ensures Pow2(a + b) == Pow2(a) * Pow2(b)
  {
    if a > 0 {
      PowSum(a - 1, b);
      assert Pow2(a + b) == 2 * Pow2(a - 1 + b);
    }
  }

  lemma {:induction false} XorFits(a: nat, b: nat, n: nat)
    requires a < Pow2(n) && b < Pow2(n)
    ensures Xor(a, b) < Pow2(n)
  {
    if n > 0 {
      XorFits(a / 2, b / 2, n - 1);
    }
  }

  lemma {:induction false} ShrShrinks(a: nat, s: nat)
    ensures Shr(a, s) <= a
    ensures s > 0 && a > 0 ==> Shr(a, s) < a
    decreases s
  {
    if s > 0 {
      ShrShrinks(a / 2, s - 1);
    }
  }

  lemma XorHalves(a: nat, b: nat)
    ensures Xor(a, b) / 2 == Xor(a / 2, b / 2)
  {
  }

  lemma {:induction false} ShrXor(a: nat, b: nat, s: nat)
    ensures Shr(Xor(a, b), s) == Xor(Shr(a, s), Shr(b, s))
    decreases s
  {
    if s > 0 {
      XorHalves(a, b);
      ShrXor(a / 2, b / 2, s - 1);
    }
  }

  lemma {:induction false} XorCancels(a: nat, b: nat)
    ensures Xor(Xor(a, b), b) == a
    decreases a + b
  {
    if a != 0 || b != 0 {
      XorCancels(a / 2, b / 2);
      XorHalves(a, b);
    }
  }

  /** An xor-shift loses nothing: the high bits reveal the shifted ones, and those the rest. */
  lemma {:induction false} XorShiftInjective(a: nat, b: nat, s: nat)
    requires s > 0 && Xor(a, Shr(a, s)) == Xor(b, Shr(b, s))
    ensures a == b
    decreases a + b
  {
    var p, q := Shr(a, s), Shr(b, s);
    ShrShrinks(a, s);
    ShrShrinks(b, s);
    if a + b > 0 {
      ShrXor(a, p, s);
      ShrXor(b, q, s);
      XorShiftInjective(p, q, s);
    }
    XorCancels(a, p);
    XorCancels(b, q);
  }

  /** Multiplying by a number with an inverse loses nothing. */
  lemma MulInjective(a: int, b: int, m: int, inverse: int, k: int)
    requires -TWO_TO_64 < a - b < TWO_TO_64
    requires m * inverse == 1 + k * TWO_TO_64
    requires (a * m - b * m) % TWO_TO_64 == 0
    ensures a == b
  {
    var q := (a * m - b * m) / TWO_TO_64;
    var d := a - b;
    assert d * m == q * TWO_TO_64;
    Scale(d, m, inverse, k, q);
    SmallMultiple(q * inverse - d * k, TWO_TO_64);
  }

  lemma Scale(d: int, m: int, inverse: int, k: int, q: int)
    requires d * m == q * TWO_TO_64 && m * inverse == 1 + k * TWO_TO_64
    ensures d == (q * inverse - d * k) * TWO_TO_64
  {
    assert d * m * inverse == d * (1 + k * TWO_TO_64) == d + d * k * TWO_TO_64;
    assert d * m * inverse == q * TWO_TO_64 * inverse == q * inverse * TWO_TO_64;
  }

  lemma SameResidue(x: int, y: int)
    requires x % TWO_TO_64 == y % TWO_TO_64
    ensures (x - y) % TWO_TO_64 == 0
  {
    assert x - y == (x / TWO_TO_64 - y / TWO_TO_64) * TWO_TO_64;
  }

  // Inverses of the three odd factors modulo 2^64.

  const GAMMA_INVERSE := 0xF1DE_83E1_9937_733D
  const GAMMA_K := 0x957B_BF35_006E_D677
  const MIX1_INVERSE := 0x96DE_1B17_3F11_9089
  const MIX1_K := 0x70C3_BCA7_8F27_F46C
  const MIX2_INVERSE := 0x3196_42B2_D24D_8EC3
  const MIX2_K := 0x1CD3_36ED_A85F_1453

  lemma StartsInjective(seed: U64, i: nat, j: nat)
    requires i < TWO_TO_64 && j < TWO_TO_64 && (seed + GAMMA * i) % TWO_TO_64 == (seed + GAMMA * j) % TWO_TO_64
    ensures i == j
  {
    SameResidue(seed + GAMMA * i, seed + GAMMA * j);
    assert i * GAMMA - j * GAMMA == seed + GAMMA * i - (seed + GAMMA * j);
    MulInjective(i, j, GAMMA, GAMMA_INVERSE, GAMMA_K);
  }

  lemma MixInjective(a: U64, b: U64, s: nat, m: nat, inverse: int, k: int)
    requires s > 0 && m * inverse == 1 + k * TWO_TO_64
    requires Mul(XorShift(a, s), m) == Mul(XorShift(b, s), m)
    ensures a == b
  {
    var x: int, y: int := XorShift(a, s), XorShift(b, s);
    SameResidue(x * m, y * m);
    MulInjective(x, y, m, inverse, k);
    XorShiftInjective(a, b, s);
  }

  /** Among the first 2^64 ledgers of a process no two share an epoch. */
  lemma EpochsAreDistinct(seed: U64, i: nat, j: nat)
    requires i < TWO_TO_64 && j < TWO_TO_64 && LedgerEpoch(seed, i) == LedgerEpoch(seed, j)
    ensures i == j
  {
    hide Mul, XorShift;
    var a0: U64, b0: U64 := (seed + GAMMA * i) % TWO_TO_64, (seed + GAMMA * j) % TWO_TO_64;
    var a1, b1 := Mul(XorShift(a0, 30), MIX1), Mul(XorShift(b0, 30), MIX1);
    var a2, b2 := Mul(XorShift(a1, 27), MIX2), Mul(XorShift(b1, 27), MIX2);
    LastInjective(a2, b2);
    MixInjective(a1, b1, 27, MIX2, MIX2_INVERSE, MIX2_K);
    MixInjective(a0, b0, 30, MIX1, MIX1_INVERSE, MIX1_K);
    StartsInjective(seed, i, j);
  }

  lemma LastInjective(a: U64, b: U64)
    requires XorShift(a, 31) == XorShift(b, 31)
    ensures a == b
  {
    XorShiftInjective(a, b, 31);
  }
}
