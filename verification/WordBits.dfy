/** 32-bit words as bit sequences, most significant bit first. */
module WordBits {
  import opened Gf2

  /** The first n bits that come out of c when it is shifted left. */
  function BitsFrom(c: bv32, n: nat): (r: seq<bool>)
    ensures |r| == n
    decreases n, c
  {
    if n == 0 then [] else [c & 0x80000000 != 0] + BitsFrom(c << 1, n - 1)
  }

  function Bits(c: bv32): (r: seq<bool>)
    ensures |r| == 32
  {
    BitsFrom(c, 32)
  }

  function ByteBits(b: bv8): (r: seq<bool>)
    ensures |r| == 8
  {
    BitsFrom((b as bv32) << 24, 8)
  }

  function ShiftLeft(c: bv32, n: nat): bv32
    decreases n, c
  {
    if n == 0 then c else ShiftLeft(c << 1, n - 1)
  }

  lemma ShiftXor(a: bv32, b: bv32, c: bv32)
    requires c == a ^ b
    ensures c << 1 == (a << 1) ^ (b << 1)
    ensures (c & 0x80000000 != 0) == ((a & 0x80000000 != 0) != (b & 0x80000000 != 0))
  {
  }

  lemma {:induction false} BitsXor(a: bv32, b: bv32, c: bv32, n: nat)
    requires c == a ^ b
    ensures BitsFrom(c, n) == Xor(BitsFrom(a, n), BitsFrom(b, n))
    decreases n
  {
    if n > 0 {
      ShiftXor(a, b, c);
      BitsXor(a << 1, b << 1, c << 1, n - 1);
      BitsXorStep(a, b, c, n);
    }
  }

  lemma BitsXorStep(a: bv32, b: bv32, c: bv32, n: nat)
    requires n > 0
    requires BitsFrom(c << 1, n - 1) == Xor(BitsFrom(a << 1, n - 1), BitsFrom(b << 1, n - 1))
    requires (c & 0x80000000 != 0) == ((a & 0x80000000 != 0) != (b & 0x80000000 != 0))
    ensures BitsFrom(c, n) == Xor(BitsFrom(a, n), BitsFrom(b, n))
  {
    XorHead(a & 0x80000000 != 0, BitsFrom(a << 1, n - 1), b & 0x80000000 != 0, BitsFrom(b << 1, n - 1));
  }

  lemma XorHead(c: bool, s: seq<bool>, e: bool, t: seq<bool>)
    requires |s| == |t|
    ensures Xor([c] + s, [e] + t) == [c != e] + Xor(s, t)
  {
  }

  lemma {:induction false} BitsSplit(c: bv32, m: nat, n: nat)
    ensures BitsFrom(c, m + n) == BitsFrom(c, m) + BitsFrom(ShiftLeft(c, m), n)
    decreases m
  {
    if m > 0 {
      BitsSplit(c << 1, m - 1, n);
    }
  }

  lemma {:induction false} BitsOfZero(n: nat)
    ensures BitsFrom(0, n) == Zeros(n)
  {
    if n > 0 {
      BitsOfZero(n - 1);
      assert (0 as bv32) << 1 == 0;
    }
  }

  lemma {:induction false} ShiftTwice(c: bv32, m: nat, n: nat)
    ensures ShiftLeft(c, m + n) == ShiftLeft(ShiftLeft(c, m), n)
    decreases m
  {
    if m > 0 {
      ShiftTwice(c << 1, m - 1, n);
    }
  }

  lemma ShiftSeven(c: bv32)
    ensures ShiftLeft(c, 7) == c << 7
  {
    assert ShiftLeft(c << 1, 6) == ShiftLeft((c << 1) << 1, 5);
    assert (c << 1) << 1 == c << 2;
    assert ShiftLeft(c << 2, 5) == ShiftLeft((c << 2) << 1, 4);
    assert (c << 2) << 1 == c << 3;
    assert ShiftLeft(c << 3, 4) == ShiftLeft((c << 3) << 1, 3);
    assert (c << 3) << 1 == c << 4;
    assert ShiftLeft(c << 4, 3) == ShiftLeft((c << 4) << 1, 2);
    assert (c << 4) << 1 == c << 5;
    assert ShiftLeft(c << 5, 2) == ShiftLeft((c << 5) << 1, 1);
    assert (c << 5) << 1 == c << 6;
    assert ShiftLeft(c << 6, 1) == (c << 6) << 1;
    assert (c << 6) << 1 == c << 7;
  }

  lemma ShiftByte(c: bv32)
    ensures ShiftLeft(c, 8) == c << 8
  {
    ShiftSeven(c << 1);
    assert (c << 1) << 7 == c << 8;
  }

  lemma ShiftOut(c: bv32)
    ensures ShiftLeft(c, 32) == 0
  {
    var c1 := c << 8;
    var c2 := c1 << 8;
    var c3 := c2 << 8;
    ShiftByte(c);
    ShiftByte(c1);
    ShiftByte(c2);
    ShiftByte(c3);
    ShiftTwice(c, 8, 24);
    ShiftTwice(c1, 8, 16);
    ShiftTwice(c2, 8, 8);
    FourBytesOut(c);
  }

  lemma FourBytesOut(c: bv32)
    ensures (((c << 8) << 8) << 8) << 8 == 0
  {
  }

  lemma BitsOfShift(c: bv32)
    ensures Bits(c << 1) == Bits(c)[1..] + [false]
    ensures Bits(c)[0] == (c & 0x80000000 != 0)
  {
    BitsSplit(c, 32, 1);
    ShiftOut(c);
    BitsOfZero(1);
    hide ShiftLeft;
    var all := BitsFrom(c, 33);
    assert all == Bits(c) + [false];
    assert all == [c & 0x80000000 != 0] + Bits(c << 1);
    assert all[1..] == Bits(c << 1);
  }

  lemma BitsOfShiftByte(c: bv32)
    ensures Bits(c << 8) == Bits(c)[8..] + Zeros(8)
    ensures Bits(c)[..8] == BitsFrom(c, 8)
  {
    BitsSplit(c, 8, 32);
    BitsSplit(c, 32, 8);
    BitsSplit(c, 8, 24);
    ShiftOut(c);
    BitsOfZero(8);
    ShiftByte(c);
    SameSplit(BitsFrom(c, 8), Bits(c << 8), Bits(c), Zeros(8));
    SameSplit(BitsFrom(c, 8), BitsFrom(ShiftLeft(c, 8), 24), Bits(c), []);
  }

  lemma SameSplit(a: seq<bool>, b: seq<bool>, c: seq<bool>, d: seq<bool>)
    requires a + b == c + d && |a| <= |c|
    ensures a == c[..|a|] && b == c[|a|..] + d
  {
    assert a == (a + b)[..|a|] && b == (a + b)[|a|..];
    assert c[..|a|] == (c + d)[..|a|];
    assert (c + d)[|a|..] == c[|a|..] + d;
  }

  lemma {:induction false} AllZeroBits(d: bv32, n: nat)
    requires BitsFrom(d, n) == Zeros(n) && ShiftLeft(d, n) == 0
    ensures d == 0
    decreases n
  {
    if n > 0 {
      assert BitsFrom(d, n)[0] == (d & 0x80000000 != 0);
      assert BitsFrom(d, n)[1..] == BitsFrom(d << 1, n - 1);
      assert Zeros(n)[1..] == Zeros(n - 1);
      AllZeroBits(d << 1, n - 1);
      assert d & 0x80000000 == 0 && d << 1 == 0;
    }
  }

  lemma BitsInjective(a: bv32, b: bv32)
    ensures Bits(a) == Bits(b) <==> a == b
  {
    if Bits(a) == Bits(b) {
      var d := a ^ b;
      BitsXor(a, b, d, 32);
      assert BitsFrom(d, 32) == Zeros(32);
      ShiftOut(d);
      AllZeroBits(d, 32);
      XorZero(a, b);
    }
  }

  lemma XorZero(a: bv32, b: bv32)
    ensures a ^ b == 0 <==> a == b
  {
  }

  lemma BitsOfTopByte(x: bv32)
    ensures Bits(x << 24) == BitsFrom(x << 24, 8) + Zeros(24)
  {
    BitsSplit(x << 24, 8, 24);
    ShiftByte(x << 24);
    assert (x << 24) << 8 == 0;
    BitsOfZero(24);
  }

  lemma LastBit(c: bv32)
    ensures Bits(c)[31] == (c & 1 != 0)
  {
    var c1 := c << 8;
    var c2 := c1 << 8;
    var c3 := c2 << 8;
    ShiftByte(c);
    ShiftByte(c1);
    ShiftByte(c2);
    ShiftSeven(c3);
    ShiftTwice(c, 8, 23);
    ShiftTwice(c1, 8, 15);
    ShiftTwice(c2, 8, 7);
    BitsSplit(c, 31, 1);
    LastBitToTop(c);
  }

  lemma LastBitToTop(c: bv32)
    ensures (((((c << 8) << 8) << 8) << 7) & 0x80000000 != 0) == (c & 1 != 0)
  {
  }

  /** The first byte's bits do not depend on the other three. */
  lemma LowBitsUnseen(d: bv32)
    requires d & 0xff000000 == 0
    ensures BitsFrom(d, 8) == Zeros(8)
  {
    assert BitsFrom(d, 8) == [false] + BitsFrom(d << 1, 7);
    assert d << 1 == d << 1 && (d << 1) & 0x80000000 == 0;
    assert BitsFrom(d << 1, 7) == [false] + BitsFrom((d << 1) << 1, 6);
    assert (d << 1) << 1 == d << 2 && (d << 2) & 0x80000000 == 0;
    assert BitsFrom(d << 2, 6) == [false] + BitsFrom((d << 2) << 1, 5);
    assert (d << 2) << 1 == d << 3 && (d << 3) & 0x80000000 == 0;
    assert BitsFrom(d << 3, 5) == [false] + BitsFrom((d << 3) << 1, 4);
    assert (d << 3) << 1 == d << 4 && (d << 4) & 0x80000000 == 0;
    assert BitsFrom(d << 4, 4) == [false] + BitsFrom((d << 4) << 1, 3);
    assert (d << 4) << 1 == d << 5 && (d << 5) & 0x80000000 == 0;
    assert BitsFrom(d << 5, 3) == [false] + BitsFrom((d << 5) << 1, 2);
    assert (d << 5) << 1 == d << 6 && (d << 6) & 0x80000000 == 0;
    assert BitsFrom(d << 6, 2) == [false] + BitsFrom((d << 6) << 1, 1);
    assert (d << 6) << 1 == d << 7 && (d << 7) & 0x80000000 == 0;
    assert BitsFrom(d << 7, 1) == [false];
  }
}
