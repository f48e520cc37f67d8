/** The program that prints the CRC-32 lookup table, as polynomial arithmetic. */
module Crc32Generator {
  import opened Gf2
  import opened WordBits

  const POLY: bv32 := 0x04c11db7

  /** The full generator x^32 + POLY. */
  ghost const P: seq<bool> := [true] + Bits(POLY)

  /** One round: shift left, and subtract the polynomial if a one falls out. */
  function Step(c: bv32): bv32 {
    if c & 0x80000000 != 0 then (c << 1) ^ POLY else c << 1
  }

  function Steps(n: nat, c: bv32): bv32
    decreases n, c
  {
    if n == 0 then c else Steps(n - 1, Step(c))
  }

  /** What the generator prints for index i. */
  function Generated(i: bv32): bv32 {
    Steps(8, i << 24)
  }

  lemma PolynomialEnds()
    ensures Generator(P)
  {
    BitsOfShift(POLY);
    LastBit(POLY);
  }

  lemma StepIsStepBit(c: bv32)
    ensures Bits(Step(c)) == StepBit(Bits(c), false, P)
  {
    var s := c << 1;
    BitsOfShift(c);
    assert P[1..] == Bits(POLY);
    if c & 0x80000000 != 0 {
      BitsXor(s, POLY, Step(c), 32);
    } else {
      assert Xor(Bits(s), Zeros(32)) == Bits(s);
    }
  }

  lemma {:induction false} StepsIsFeed(n: nat, c: bv32)
    ensures Bits(Steps(n, c)) == Feed(Bits(c), Zeros(n), P)
  {
    if n > 0 {
      StepIsStepBit(c);
      StepsIsFeed(n - 1, Step(c));
      assert Zeros(n)[1..] == Zeros(n - 1);
    }
  }

  lemma {:induction false} StepLast(n: nat, c: bv32)
    ensures Steps(n, Step(c)) == Step(Steps(n, c))
  {
    if n > 0 {
      StepLast(n - 1, Step(c));
    }
  }

  /** Doubling an index takes the entry one round further. */
  lemma GeneratedEven(i: bv32)
    requires i < 128
    ensures Generated(i << 1) == Step(Generated(i))
  {
    StepOfSmall(i);
    EvenEntry(i << 24, (i << 1) << 24);
  }

  /** An odd index adds the polynomial. */
  lemma GeneratedOdd(i: bv32)
    ensures Generated((i << 1) ^ 1) == Generated(i << 1) ^ POLY
  {
    ShiftOdd(i);
    OddEntry((i << 1) << 24, ((i << 1) ^ 1) << 24);
  }

  lemma ShiftOdd(i: bv32)
    ensures ((i << 1) ^ 1) << 24 == ((i << 1) << 24) ^ 0x01000000
  {
  }

  lemma StepOfSmall(i: bv32)
    requires i < 128
    ensures Step(i << 24) == (i << 1) << 24
  {
  }

  lemma EvenEntry(c: bv32, d: bv32)
    requires d == Step(c)
    ensures Steps(8, d) == Step(Steps(8, c))
  {
    StepLast(8, c);
  }

  lemma OddEntry(d: bv32, e: bv32)
    requires e == d ^ 0x01000000
    ensures Steps(8, e) == Steps(8, d) ^ POLY
  {
    GeneratedXor(d, 0x01000000, e);
    GeneratedOne();
  }

  lemma GeneratedOne()
    ensures Steps(8, 0x01000000) == POLY
  {
  }

  lemma GeneratedXor(a: bv32, b: bv32, c: bv32)
    requires c == a ^ b
    ensures Steps(8, c) == Steps(8, a) ^ Steps(8, b)
  {
    hide Steps, Feed, StepBit, BitsFrom;
    var u, v, w := Steps(8, a), Steps(8, b), Steps(8, c);
    BitsXor(a, b, c, 32);
    StepsIsFeed(8, a);
    StepsIsFeed(8, b);
    StepsIsFeed(8, c);
    XorSelf(Zeros(8));
    FeedLinear(Bits(a), Bits(b), Zeros(8), Zeros(8), P);
    XorFromBits(u, v, w);
  }

  lemma XorFromBits(u: bv32, v: bv32, w: bv32)
    requires Bits(w) == Xor(Bits(u), Bits(v))
    ensures w == u ^ v
  {
    BitsXor(u, v, u ^ v, 32);
    BitsInjective(w, u ^ v);
  }
}
