/** The table-driven CRC-32 and what it computes: the remainder of a division over GF(2). */
module Crc32 {
  import opened Gf2
  import opened WordBits
  import opened Crc32Generator
  import opened Crc32Table

  /** All the bits of a message, most significant first. */
  function MessageBits(buf: seq<bv8>): (r: seq<bool>)
    ensures |r| == 8 * |buf|
  {
    if buf == [] then [] else MessageBits(buf[..|buf| - 1]) + ByteBits(buf[|buf| - 1])
  }

  function Index(crc: bv32, b: bv8): bv32 {
    ((crc >> 24) ^ (b as bv32)) & 255
  }

  /** One pass of the loop, with the table entry as the generator prints it. */
  function ByteStep(crc: bv32, b: bv8): bv32 {
    (crc << 8) ^ Generated(Index(crc, b))
  }

  function Crc(buf: seq<bv8>, init: bv32): bv32 {
    if buf == [] then init else ByteStep(Crc(buf[..|buf| - 1], init), buf[|buf| - 1])
  }

  /** One pass of the loop, with the table entry as it is written out. */
  function TableStep(crc: bv32, b: bv8): (r: bv32)
    ensures r == ByteStep(crc, b)
  {
    IndexBound((crc >> 24) ^ (b as bv32));
    (crc << 8) ^ Lookup(Index(crc, b))
  }

  method Xcrc32(buf: array<bv8>, len: nat, init: bv32) returns (crc: bv32)
    requires len <= buf.Length
    ensures crc == Crc(buf[..len], init)
    ensures Bits(crc) == Feed(Bits(init), MessageBits(buf[..len]), P)
  {
    crc := init;
    var i := 0;
    while i < len
      invariant i <= len
      invariant crc == Crc(buf[..i], init)
    {
      CrcLast(buf[..i], buf[i], init);
      assert buf[..i + 1] == buf[..i] + [buf[i]];
      crc := TableStep(crc, buf[i]);
      i := i + 1;
    }
    CrcIsFeed(buf[..len], init);
  }

  lemma CrcLast(a: seq<bv8>, b: bv8, init: bv32)
    ensures Crc(a + [b], init) == ByteStep(Crc(a, init), b)
  {
    assert (a + [b])[..|a|] == a;
  }

  lemma IndexBound(x: bv32)
    ensures x & 255 < 256
  {
  }

  // ---------------------------------------------------------------- one byte is eight bits of division

  lemma ByteBitsWord(b: bv8)
    ensures Bits((b as bv32) << 24) == ByteBits(b) + Zeros(24)
  {
    BitsOfTopByte(b as bv32);
  }

  function Low(crc: bv32): bv32 {
    crc & 0x00ffffff
  }

  lemma PreloadByte(crc: bv32, b: bv8)
    ensures Feed(Bits(crc), ByteBits(b), P) == Feed(Xor(Bits(crc), Bits((b as bv32) << 24)), Zeros(8), P)
  {
    ByteBitsWord(b);
    FeedPreload(Bits(crc), ByteBits(b), P);
  }

  /** The register with the byte added to it splits into the table index and what is shifted up. */
  lemma SplitRegister(crc: bv32, b: bv8)
    ensures Xor(Bits(crc), Bits((b as bv32) << 24)) == Xor(Bits(Index(crc, b) << 24), Bits(Low(crc)))
  {
    SplitWord(crc, b);
    TwoSplits(crc, (b as bv32) << 24, Index(crc, b) << 24, Low(crc));
  }

  lemma SplitWord(crc: bv32, b: bv8)
    ensures crc ^ ((b as bv32) << 24) == (Index(crc, b) << 24) ^ Low(crc)
  {
  }

  lemma TwoSplits(a: bv32, b: bv32, c: bv32, d: bv32)
    requires a ^ b == c ^ d
    ensures Xor(Bits(a), Bits(b)) == Xor(Bits(c), Bits(d))
  {
    var y := a ^ b;
    BitsXor(a, b, y, 32);
    BitsXor(c, d, y, 32);
  }

  lemma ShiftedLow(crc: bv32)
    ensures Feed(Bits(Low(crc)), Zeros(8), P) == Bits(crc << 8)
  {
    LowWord(crc);
    ShiftOutZeros(Low(crc), crc << 8);
  }

  lemma LowWord(crc: bv32)
    ensures Low(crc) & 0xff000000 == 0 && Low(crc) << 8 == crc << 8
  {
  }

  lemma ShiftOutZeros(low: bv32, up: bv32)
    requires low & 0xff000000 == 0 && low << 8 == up
    ensures Feed(Bits(low), Zeros(8), P) == Bits(up)
  {
    LowBitsUnseen(low);
    BitsOfShiftByte(low);
    var t := Bits(low)[8..];
    assert Bits(low) == Bits(low)[..8] + t;
    FeedShift(8, t, P);
  }

  lemma TableWord(crc: bv32, b: bv8)
    ensures Bits(ByteStep(crc, b)) == Xor(Feed(Bits(Index(crc, b) << 24), Zeros(8), P), Bits(crc << 8))
  {
    EntryWord(crc << 8, Index(crc, b));
    ByteStepWord(crc, b);
  }

  lemma ByteStepWord(crc: bv32, b: bv8)
    ensures ByteStep(crc, b) == (crc << 8) ^ Generated(Index(crc, b))
  {
  }

  lemma EntryWord(up: bv32, i: bv32)
    ensures Bits(up ^ Generated(i)) == Xor(Feed(Bits(i << 24), Zeros(8), P), Bits(up))
  {
    StepsIsFeed(8, i << 24);
    XorWord(up, Generated(i), up ^ Generated(i));
  }

  lemma XorWord(up: bv32, entry: bv32, word: bv32)
    requires word == up ^ entry
    ensures Bits(word) == Xor(Bits(entry), Bits(up))
  {
    BitsXor(up, entry, word, 32);
  }

  lemma ByteStepIsFeed(crc: bv32, b: bv8)
    ensures Bits(ByteStep(crc, b)) == Feed(Bits(crc), ByteBits(b), P)
  {
    PreloadByte(crc, b);
    SplitRegister(crc, b);
    ShiftedLow(crc);
    TableWord(crc, b);
    assert Xor(Zeros(8), Zeros(8)) == Zeros(8);
    FeedLinear(Bits(Index(crc, b) << 24), Bits(Low(crc)), Zeros(8), Zeros(8), P);
  }

  lemma {:induction false} CrcIsFeed(buf: seq<bv8>, init: bv32)
    ensures Bits(Crc(buf, init)) == Feed(Bits(init), MessageBits(buf), P)
  {
    if buf != [] {
      var n := |buf| - 1;
      CrcIsFeed(buf[..n], init);
      ByteStepIsFeed(Crc(buf[..n], init), buf[n]);
      FeedConcat(Bits(init), MessageBits(buf[..n]), ByteBits(buf[n]), P);
    }
  }

  // ---------------------------------------------------------------- main results

  /** The CRC is the only word left of init·x^8n + M·x^32 after division by the generator. */
  lemma CrcIsRemainder(buf: seq<bv8>, init: bv32, w: bv32)
    ensures IsRemainder(Dividend(Bits(init), MessageBits(buf)), P, Bits(w)) <==> w == Crc(buf, init)
  {
    var d := Dividend(Bits(init), MessageBits(buf));
    PolynomialEnds();
    CrcIsFeed(buf, init);
    FeedIsRemainder(Bits(init), MessageBits(buf), P);
    if IsRemainder(d, P, Bits(w)) {
      RemainderUnique(d, P, Bits(w), Bits(Crc(buf, init)));
      BitsInjective(w, Crc(buf, init));
    }
  }

  /** The CRC of one buffer is the starting value for the next. */
  lemma {:induction false} CrcSplit(a: seq<bv8>, b: seq<bv8>, init: bv32)
    ensures Crc(a + b, init) == Crc(b, Crc(a, init))
  {
    if b == [] {
      assert a + b == a;
    } else {
      var n := |b| - 1;
      assert (a + b)[..|a| + n] == a + b[..n];
      CrcSplit(a, b[..n], init);
    }
  }

  function XorBytes(a: seq<bv8>, b: seq<bv8>): (r: seq<bv8>)
    requires |a| == |b|
    ensures |r| == |a|
  {
    seq(|a|, i requires 0 <= i < |a| => a[i] ^ b[i])
  }

  lemma ByteBitsXor(x: bv8, y: bv8, z: bv8)
    requires z == x ^ y
    ensures ByteBits(z) == Xor(ByteBits(x), ByteBits(y))
  {
    WidenXor(x, y, z);
    BitsXor((x as bv32) << 24, (y as bv32) << 24, (z as bv32) << 24, 8);
  }

  lemma WidenXor(x: bv8, y: bv8, z: bv8)
    requires z == x ^ y
    ensures (z as bv32) << 24 == ((x as bv32) << 24) ^ ((y as bv32) << 24)
  {
  }

  lemma {:induction false} MessageBitsXor(a: seq<bv8>, b: seq<bv8>)
    requires |a| == |b|
    ensures MessageBits(XorBytes(a, b)) == Xor(MessageBits(a), MessageBits(b))
  {
    if a != [] {
      var n := |a| - 1;
      var c := XorBytes(a, b);
      MessageBitsXor(a[..n], b[..n]);
      assert c[..n] == XorBytes(a[..n], b[..n]);
      ByteBitsXor(a[n], b[n], c[n]);
      XorConcat(MessageBits(a[..n]), ByteBits(a[n]), MessageBits(b[..n]), ByteBits(b[n]));
    } else {
      assert XorBytes(a, b) == [];
    }
  }

  lemma XorConcat(a: seq<bool>, x: seq<bool>, b: seq<bool>, y: seq<bool>)
    requires |a| == |b| && |x| == |y|
    ensures Xor(a + x, b + y) == Xor(a, b) + Xor(x, y)
  {
  }

  /** Linear in message and starting value together. */
  lemma CrcLinear(a: seq<bv8>, b: seq<bv8>, i: bv32, j: bv32)
    requires |a| == |b|
    ensures Crc(XorBytes(a, b), i ^ j) == Crc(a, i) ^ Crc(b, j)
  {
    CrcLinearWord(a, b, i, j, i ^ j);
  }

  lemma CrcLinearWord(a: seq<bv8>, b: seq<bv8>, i: bv32, j: bv32, k: bv32)
    requires |a| == |b| && k == i ^ j
    ensures Crc(XorBytes(a, b), k) == Crc(a, i) ^ Crc(b, j)
  {
    BitsXor(i, j, k, 32);
    MessageBitsXor(a, b);
    CrcIsFeed(a, i);
    CrcIsFeed(b, j);
    CrcIsFeed(XorBytes(a, b), k);
    FeedLinear(Bits(i), Bits(j), MessageBits(a), MessageBits(b), P);
    XorFromBits(Crc(a, i), Crc(b, j), Crc(XorBytes(a, b), k));
  }

  /** For a fixed message, different starting values give different results. */
  lemma CrcInjective(buf: seq<bv8>, i: bv32, j: bv32)
    ensures Crc(buf, i) == Crc(buf, j) <==> i == j
  {
    if Crc(buf, i) == Crc(buf, j) {
      PolynomialEnds();
      CrcIsFeed(buf, i);
      CrcIsFeed(buf, j);
      FeedInjective(Bits(i), Bits(j), MessageBits(buf), P);
      BitsInjective(i, j);
    }
  }

  lemma ByteBitsInjective(x: bv8, y: bv8)
    ensures ByteBits(x) == ByteBits(y) <==> x == y
  {
    if ByteBits(x) == ByteBits(y) {
      ByteBitsWord(x);
      ByteBitsWord(y);
      BitsInjective((x as bv32) << 24, (y as bv32) << 24);
      TopByteInjective(x, y);
    }
  }

  lemma TopByteInjective(x: bv8, y: bv8)
    requires (x as bv32) << 24 == (y as bv32) << 24
    ensures x == y
  {
  }

  lemma {:induction false} MessageBitsInjective(a: seq<bv8>, b: seq<bv8>)
    requires |a| == |b|
    ensures MessageBits(a) == MessageBits(b) <==> a == b
  {
    if MessageBits(a) == MessageBits(b) && a != [] {
      var n := |a| - 1;
      assert MessageBits(a)[..8 * n] == MessageBits(a[..n]) && MessageBits(a)[8 * n..] == ByteBits(a[n]);
      assert MessageBits(b)[..8 * n] == MessageBits(b[..n]) && MessageBits(b)[8 * n..] == ByteBits(b[n]);
      MessageBitsInjective(a[..n], b[..n]);
      ByteBitsInjective(a[n], b[n]);
      assert a == a[..n] + [a[n]] && b == b[..n] + [b[n]];
    }
  }

  /** Damage confined to 32 consecutive bits, at any position and any length, never goes unseen. */
  lemma BurstChangesCrc(a: seq<bv8>, b: seq<bv8>, init: bv32, lo: nat)
    requires |a| == |b|
    requires DifferOnlyIn(MessageBits(a), MessageBits(b), lo, lo + 32)
    ensures Crc(a, init) == Crc(b, init) <==> a == b
  {
    PolynomialEnds();
    CrcIsFeed(a, init);
    CrcIsFeed(b, init);
    var n := 8 * |a|;
    var from := if lo <= n then lo else n;
    var to := if lo + 32 <= n then lo + 32 else n;
    BurstDetected(Bits(init), MessageBits(a), MessageBits(b), from, to, P);
    MessageBitsInjective(a, b);
    BitsInjective(Crc(a, init), Crc(b, init));
  }
}
