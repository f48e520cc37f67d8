/** Polynomials over GF(2), as bit sequences with the highest coefficient first. */
module Gf2 {

  function Zeros(n: nat): (r: seq<bool>)
    ensures |r| == n && forall i :: 0 <= i < n ==> !r[i]
  {
    seq(n, _ => false)
  }

  function Xor(a: seq<bool>, b: seq<bool>): (r: seq<bool>)
    requires |a| == |b|
    ensures |r| == |a| && forall i :: 0 <= i < |a| ==> r[i] == (a[i] != b[i])
  {
    seq(|a|, i requires 0 <= i < |a| => a[i] != b[i])
  }

  function Scale(c: bool, p: seq<bool>): (r: seq<bool>)
    ensures |r| == |p|
  {
    if c then p else Zeros(|p|)
  }

  /** Product by Horner's rule: (a·x + c)·b == (a·b)·x + c·b. */
  function Mul(a: seq<bool>, b: seq<bool>): (r: seq<bool>)
    requires |b| > 0
    ensures |r| == |a| + |b| - 1
  {
    if a == [] then Zeros(|b| - 1)
    else
      Horner(Mul(a[..|a| - 1], b), a[|a| - 1], b)
  }

  function Horner(acc: seq<bool>, c: bool, b: seq<bool>): (r: seq<bool>)
    requires |acc| >= |b| - 1 && |b| > 0
    ensures |r| == |acc| + 1
  {
    Xor(acc + [false], Zeros(|acc| + 1 - |b|) + Scale(c, b))
  }

  /** r is what is left of d after taking away a multiple of p; r is one coefficient shorter than p. */
  ghost predicate IsRemainder(d: seq<bool>, p: seq<bool>, r: seq<bool>)
    requires |p| > 0
  {
    && |r| == |p| - 1 <= |d|
    && exists q: seq<bool> :: |q| == |d| - |r| && IsQuotient(d, p, q, r)
  }

  ghost predicate IsQuotient(d: seq<bool>, p: seq<bool>, q: seq<bool>, r: seq<bool>)
    requires |p| > 0 && |r| == |p| - 1 <= |d| && |q| == |d| - |r|
  {
    d == Xor(Mul(q, p), Zeros(|q|) + r)
  }

  lemma MulNothing(a: seq<bool>, b: seq<bool>, p: seq<bool>)
    requires a == b == [] && |p| > 0
    ensures Mul(Xor(a, b), p) == Xor(Mul(a, p), Mul(b, p))
  {
    var z := Zeros(|p| - 1);
    assert Xor(a, b) == [] && Xor(z, z) == z;
  }

  lemma MulLast(a: seq<bool>, p: seq<bool>)
    requires a != [] && |p| > 0
    ensures Mul(a, p) == Horner(Mul(a[..|a| - 1], p), a[|a| - 1], p)
  {
  }

  lemma {:induction false} MulLinear(a: seq<bool>, b: seq<bool>, p: seq<bool>)
    requires |a| == |b| && |p| > 0
    ensures Mul(Xor(a, b), p) == Xor(Mul(a, p), Mul(b, p))
  {
    hide Mul, Horner;
    if a == [] {
      MulNothing(a, b, p);
    } else {
      var n := |a| - 1;
      MulLinear(a[..n], b[..n], p);
      assert Xor(a, b)[..n] == Xor(a[..n], b[..n]);
      hide Xor;
      MulLast(a, p);
      MulLast(b, p);
      MulLast(Xor(a, b), p);
      HornerXor(Mul(a[..n], p), Mul(b[..n], p), a[n], b[n], p);
    }
  }

  lemma HornerXor(x: seq<bool>, y: seq<bool>, c: bool, e: bool, p: seq<bool>)
    requires |x| == |y| >= |p| - 1 && |p| > 0
    ensures Horner(Xor(x, y), c != e, p) == Xor(Horner(x, c, p), Horner(y, e, p))
  {
  }

  lemma {:induction false} MulZeros(n: nat, p: seq<bool>)
    requires |p| > 0
    ensures Mul(Zeros(n), p) == Zeros(n + |p| - 1)
  {
    if n > 0 {
      MulZeros(n - 1, p);
      assert Zeros(n)[..n - 1] == Zeros(n - 1);
    }
  }

  /** A multiple of p that vanishes above p's own degree is zero. */
  lemma {:induction false} MulHighZero(q: seq<bool>, p: seq<bool>)
    requires |p| > 0 && p[0]
    requires forall i :: 0 <= i < |q| ==> !Mul(q, p)[i]
    ensures q == Zeros(|q|)
  {
    hide Mul, Horner;
    if q != [] {
      var n := |q| - 1;
      MulLast(q, p);
      HornerFront(Mul(q[..n], p), q[n], p);
      MulHighZero(q[..n], p);
      MulZeros(n, p);
      assert !q[n];
      assert q == q[..n] + [q[n]];
    }
  }

  /** What a step of Horner's rule leaves alone, and the coefficient it adds to. */
  lemma HornerFront(acc: seq<bool>, c: bool, b: seq<bool>)
    requires |acc| >= |b| - 1 && |b| > 0
    ensures var n := |acc| + 1 - |b|;
      && (forall i :: 0 <= i < n ==> Horner(acc, c, b)[i] == acc[i])
      && Horner(acc, c, b)[n] == ((acc + [false])[n] != (c && b[0]))
  {
  }

  lemma RemainderUnique(d: seq<bool>, p: seq<bool>, r: seq<bool>, s: seq<bool>)
    requires |p| > 0 && p[0]
    requires IsRemainder(d, p, r) && IsRemainder(d, p, s)
    ensures r == s
  {
    var q: seq<bool> :| |q| == |d| - |r| && IsQuotient(d, p, q, r);
    var t: seq<bool> :| |t| == |d| - |s| && IsQuotient(d, p, t, s);
    QuotientUnique(d, p, q, t, r, s);
    SplitUnique(d, Mul(q, p), Zeros(|q|), r, s);
  }

  lemma SplitUnique(d: seq<bool>, m: seq<bool>, z: seq<bool>, r: seq<bool>, s: seq<bool>)
    requires |m| == |d| == |z| + |r| && |r| == |s|
    requires d == Xor(m, z + r) == Xor(m, z + s)
    ensures r == s
  {
    forall i | 0 <= i < |r|
      ensures r[i] == s[i]
    {
      var k := |z| + i;
      assert (z + r)[k] == r[i] && (z + s)[k] == s[i];
      assert d[k] == (m[k] != (z + r)[k]) && d[k] == (m[k] != (z + s)[k]);
    }
  }

  lemma QuotientUnique(d: seq<bool>, p: seq<bool>, q: seq<bool>, t: seq<bool>, r: seq<bool>, s: seq<bool>)
    requires |p| > 0 && p[0] && |r| == |s| == |p| - 1 && |d| == |q| + |r| && |t| == |q|
    requires IsQuotient(d, p, q, r) && IsQuotient(d, p, t, s)
    ensures q == t
  {
    var u := Xor(q, t);
    MulLinear(q, t, p);
    forall i | 0 <= i < |u|
      ensures !Mul(u, p)[i]
    {
      assert !(Zeros(|q|) + r)[i] && !(Zeros(|t|) + s)[i];
      assert d[i] == Mul(q, p)[i] && d[i] == Mul(t, p)[i];
    }
    MulHighZero(u, p);
    assert forall i :: 0 <= i < |q| ==> u[i] == (q[i] != t[i]) && !u[i];
  }

  // ---------------------------------------------------------------- division one bit at a time

  ghost predicate Generator(p: seq<bool>) {
    |p| >= 2 && p[0] && p[|p| - 1]
  }

  /** Shift one message bit into the register, subtracting the generator when a one falls out. */
  function StepBit(r: seq<bool>, bit: bool, p: seq<bool>): (s: seq<bool>)
    requires |r| > 0 && |p| == |r| + 1
    ensures |s| == |r|
  {
    Xor(r[1..] + [false], Scale(r[0] != bit, p[1..]))
  }

  function Feed(r: seq<bool>, m: seq<bool>, p: seq<bool>): (s: seq<bool>)
    requires |r| > 0 && |p| == |r| + 1
    ensures |s| == |r|
    decreases |m|
  {
    if m == [] then r else Feed(StepBit(r, m[0], p), m[1..], p)
  }

  lemma {:induction false} FeedConcat(r: seq<bool>, a: seq<bool>, b: seq<bool>, p: seq<bool>)
    requires |r| > 0 && |p| == |r| + 1
    ensures Feed(r, a + b, p) == Feed(Feed(r, a, p), b, p)
    decreases |a|
  {
    if a == [] {
      assert a + b == b;
    } else {
      assert (a + b)[0] == a[0] && (a + b)[1..] == a[1..] + b;
      FeedConcat(StepBit(r, a[0], p), a[1..], b, p);
    }
  }

  /** init·x^|m| + m·x^|init|. */
  function Dividend(init: seq<bool>, m: seq<bool>): (d: seq<bool>)
    ensures |d| == |init| + |m|
  {
    Xor(init + Zeros(|m|), m + Zeros(|init|))
  }

  lemma FeedIsRemainder(init: seq<bool>, m: seq<bool>, p: seq<bool>)
    requires |init| > 0 && |p| == |init| + 1 && p[0]
    ensures IsRemainder(Dividend(init, m), p, Feed(init, m, p))
  {
    var q := FeedQuotient(init, m, p);
  }

  /** The quotient the register machine subtracts grows by the bit that falls out at each step. */
  lemma {:induction false} FeedQuotient(init: seq<bool>, m: seq<bool>, p: seq<bool>) returns (q: seq<bool>)
    requires |init| > 0 && |p| == |init| + 1 && p[0]
    ensures |q| == |m| && IsQuotient(Dividend(init, m), p, q, Feed(init, m, p))
    decreases |m|
  {
    if m == [] {
      q := [];
      NothingToDivide(init, p);
    } else {
      var n := |m| - 1;
      var m0, bit := m[..n], m[n];
      assert m == m0 + [bit];
      var q0 := FeedQuotient(init, m0, p);
      var r := Feed(init, m0, p);
      FeedLast(init, m0, bit, p);
      DividendLast(init, m0, bit);
      DivideStep(Dividend(init, m0), Dividend(init, m), bit, p, q0, r);
      q := q0 + [r[0] != bit];
    }
  }

  lemma NothingToDivide(init: seq<bool>, p: seq<bool>)
    requires |p| == |init| + 1
    ensures IsQuotient(Dividend(init, []), p, [], init)
  {
    assert Mul([], p) == Zeros(|init|);
    assert Zeros(0) + init == init;
  }

  lemma FeedLast(r: seq<bool>, a: seq<bool>, bit: bool, p: seq<bool>)
    requires |r| > 0 && |p| == |r| + 1
    ensures Feed(r, a + [bit], p) == StepBit(Feed(r, a, p), bit, p)
  {
    FeedConcat(r, a, [bit], p);
    FeedOne(Feed(r, a, p), bit, p);
  }

  lemma FeedOne(r: seq<bool>, bit: bool, p: seq<bool>)
    requires |r| > 0 && |p| == |r| + 1
    ensures Feed(r, [bit], p) == StepBit(r, bit, p)
  {
    assert [bit][1..] == [];
    assert Feed(r, [bit], p) == Feed(StepBit(r, bit, p), [], p);
  }

  lemma DividendLast(init: seq<bool>, m: seq<bool>, bit: bool)
    ensures Dividend(init, m + [bit])
         == Xor(Dividend(init, m) + [false], Zeros(|m|) + [bit] + Zeros(|init|))
  {
  }

  lemma QuotientStep(q: seq<bool>, top: bool, p: seq<bool>)
    requires |p| > 0
    ensures Mul(q + [top], p) == Xor(Mul(q, p) + [false], Zeros(|q|) + Scale(top, p))
  {
    assert (q + [top])[..|q|] == q;
  }

  lemma DivideStep(d: seq<bool>, e: seq<bool>, bit: bool, p: seq<bool>, q: seq<bool>, r: seq<bool>)
    requires |r| > 0 && |p| == |r| + 1 && p[0] && |d| == |q| + |r|
    requires IsQuotient(d, p, q, r)
    requires e == Xor(d + [false], Zeros(|q|) + [bit] + Zeros(|r|))
    ensures |e| == |q| + 1 + |r| && IsQuotient(e, p, q + [r[0] != bit], StepBit(r, bit, p))
  {
    var top, s := r[0] != bit, StepBit(r, bit, p);
    QuotientStep(q, top, p);
    hide Mul, Xor, Zeros;
    var m := Mul(q, p);
    var m1 := Mul(q + [top], p);
    var f := Xor(m1, Zeros(|q| + 1) + s);
    forall i | 0 <= i < |e|
      ensures e[i] == f[i]
    {
      DividedAt(d, e, bit, p, |q|, r, m, m1, i);
    }
  }

  /** One coefficient of the identity: m is the multiple taken away before, m1 the one after. */
  lemma DividedAt(d: seq<bool>, e: seq<bool>, bit: bool, p: seq<bool>, n: nat, r: seq<bool>, m: seq<bool>, m1: seq<bool>, i: nat)
    requires |r| > 0 && |p| == |r| + 1 && p[0] && |d| == |m| == n + |r| && |m1| == |m| + 1
    requires d == Xor(m, Zeros(n) + r)
    requires e == Xor(d + [false], Zeros(n) + [bit] + Zeros(|r|))
    requires m1 == Xor(m + [false], Zeros(n) + Scale(r[0] != bit, p))
    requires i < |e|
    ensures e[i] == Xor(m1, Zeros(n + 1) + StepBit(r, bit, p))[i]
  {
    hide Xor, Zeros;
    assert i < |d| ==> d[i] == (m[i] != (Zeros(n) + r)[i]);
  }

  lemma StepBitLinear(r: seq<bool>, s: seq<bool>, c: bool, e: bool, p: seq<bool>)
    requires |r| == |s| > 0 && |p| == |r| + 1
    ensures StepBit(Xor(r, s), c != e, p) == Xor(StepBit(r, c, p), StepBit(s, e, p))
  {
  }

  lemma {:induction false} FeedLinear(r: seq<bool>, s: seq<bool>, a: seq<bool>, b: seq<bool>, p: seq<bool>)
    requires |r| == |s| > 0 && |p| == |r| + 1 && |a| == |b|
    ensures Feed(Xor(r, s), Xor(a, b), p) == Xor(Feed(r, a, p), Feed(s, b, p))
    decreases |a|
  {
    if a == [] {
      assert Xor(a, b) == [];
    } else {
      StepBitLinear(r, s, a[0], b[0], p);
      assert Xor(a, b)[0] == (a[0] != b[0]);
      assert Xor(a, b)[1..] == Xor(a[1..], b[1..]);
      FeedLinear(StepBit(r, a[0], p), StepBit(s, b[0], p), a[1..], b[1..], p);
    }
  }

  /** Running the register backwards: the generator's constant term shows which bit fell out. */
  lemma StepBitInjective(r: seq<bool>, s: seq<bool>, bit: bool, p: seq<bool>)
    requires |r| == |s| > 0 && |p| == |r| + 1 && Generator(p)
    requires StepBit(r, bit, p) == StepBit(s, bit, p)
    ensures r == s
  {
    var n := |r| - 1;
    var x, y := StepBit(r, bit, p), StepBit(s, bit, p);
    assert x[n] == (r[0] != bit) && y[n] == (s[0] != bit);
    forall i | 0 < i < |r|
      ensures r[i] == s[i]
    {
      assert x[i - 1] == (r[i] != Scale(r[0] != bit, p[1..])[i - 1]);
      assert y[i - 1] == (s[i] != Scale(s[0] != bit, p[1..])[i - 1]);
    }
  }

  lemma {:induction false} FeedInjective(r: seq<bool>, s: seq<bool>, m: seq<bool>, p: seq<bool>)
    requires |r| == |s| > 0 && |p| == |r| + 1 && Generator(p)
    requires Feed(r, m, p) == Feed(s, m, p)
    ensures r == s
    decreases |m|
  {
    if m != [] {
      FeedInjective(StepBit(r, m[0], p), StepBit(s, m[0], p), m[1..], p);
      StepBitInjective(r, s, m[0], p);
    }
  }

  lemma {:induction false} FeedZeros(w: nat, n: nat, p: seq<bool>)
    requires w > 0 && |p| == w + 1
    ensures Feed(Zeros(w), Zeros(n), p) == Zeros(w)
    decreases n
  {
    if n > 0 {
      assert StepBit(Zeros(w), false, p) == Zeros(w);
      assert Zeros(n)[1..] == Zeros(n - 1);
      FeedZeros(w, n - 1, p);
    }
  }

  /** A message no longer than the register brings it to zero only from its own bits. */
  lemma {:induction false} ShortFeedToZero(r: seq<bool>, m: seq<bool>, p: seq<bool>)
    requires |r| >= |m| && |r| > 0 && |p| == |r| + 1 && Generator(p)
    requires Feed(r, m, p) == Zeros(|r|)
    ensures r == m + Zeros(|r| - |m|)
    decreases |m|
  {
    hide *;
    FeedUnfolds(r, m, p);
    if m == [] {
      assert m + Zeros(|r| - |m|) == Zeros(|r|);
    } else {
      ShortFeedToZero(StepBit(r, m[0], p), m[1..], p);
      StepBackToMessage(r, m, p);
    }
  }

  lemma FeedUnfolds(r: seq<bool>, m: seq<bool>, p: seq<bool>)
    requires |r| > 0 && |p| == |r| + 1
    ensures Feed(r, m, p) == if m == [] then r else Feed(StepBit(r, m[0], p), m[1..], p)
  {
  }

  lemma StepBackToMessage(r: seq<bool>, m: seq<bool>, p: seq<bool>)
    requires |r| >= |m| > 0 && |p| == |r| + 1 && Generator(p)
    requires StepBit(r, m[0], p) == m[1..] + Zeros(|r| - |m| + 1)
    ensures r == m + Zeros(|r| - |m|)
  {
    var w := |r|;
    var s := StepBit(r, m[0], p);
    assert s[w - 1] == (r[0] != m[0]) && !s[w - 1];
    assert forall i :: 0 < i < w ==> s[i - 1] == r[i];
    var t := m[1..] + Zeros(w - |m| + 1);
    var u := m + Zeros(w - |m|);
    forall i | 0 < i < w
      ensures u[i] == r[i]
    {
      assert t[i - 1] == u[i];
    }
  }

  /** Bits may be added to the register beforehand instead of one at a time. */
  lemma {:induction false} FeedPreload(r: seq<bool>, m: seq<bool>, p: seq<bool>)
    requires |r| >= |m| && |r| > 0 && |p| == |r| + 1
    ensures Feed(r, m, p) == Feed(Xor(r, m + Zeros(|r| - |m|)), Zeros(|m|), p)
    decreases |m|
  {
    hide *;
    var x := Xor(r, m + Zeros(|r| - |m|));
    FeedUnfolds(r, m, p);
    FeedUnfolds(x, Zeros(|m|), p);
    if m == [] {
      assert x == r;
    } else {
      FeedPreload(StepBit(r, m[0], p), m[1..], p);
      PreloadStep(r, m, p);
      assert Zeros(|m|)[1..] == Zeros(|m| - 1);
    }
  }

  lemma PreloadStep(r: seq<bool>, m: seq<bool>, p: seq<bool>)
    requires |r| >= |m| > 0 && |p| == |r| + 1
    ensures StepBit(Xor(r, m + Zeros(|r| - |m|)), false, p)
         == Xor(StepBit(r, m[0], p), m[1..] + Zeros(|r| - |m| + 1))
  {
    var u := m + Zeros(|r| - |m|);
    var v := m[1..] + Zeros(|r| - |m| + 1);
    assert u[0] == m[0];
    assert u[1..] + [false] == v;
  }

  /** Leading zeros shift out without touching the generator. */
  lemma {:induction false} FeedShift(n: nat, t: seq<bool>, p: seq<bool>)
    requires n + |t| > 0 && |p| == n + |t| + 1
    ensures Feed(Zeros(n) + t, Zeros(n), p) == t + Zeros(n)
    decreases n
  {
    if n == 0 {
      assert Zeros(0) + t == t == t + Zeros(0);
    } else {
      var r := Zeros(n) + t;
      var t1 := t + [false];
      assert Zeros(n)[1..] == Zeros(n - 1);
      assert r[1..] + [false] == Zeros(n - 1) + t1;
      assert StepBit(r, false, p) == Zeros(n - 1) + t1;
      assert Feed(r, Zeros(n), p) == Feed(Zeros(n - 1) + t1, Zeros(n - 1), p);
      FeedShift(n - 1, t1, p);
      assert t1 + Zeros(n - 1) == t + Zeros(n);
    }
  }

  /** a and b agree outside the bits lo..hi. */
  ghost predicate DifferOnlyIn(a: seq<bool>, b: seq<bool>, lo: nat, hi: nat)
    requires |a| == |b|
  {
    forall i :: 0 <= i < |a| && (i < lo || hi <= i) ==> a[i] == b[i]
  }

  lemma BurstDetected(init: seq<bool>, a: seq<bool>, b: seq<bool>, lo: nat, hi: nat, p: seq<bool>)
    requires |init| > 0 && |p| == |init| + 1 && Generator(p)
    requires |a| == |b| && lo <= hi <= |a| && hi - lo <= |init|
    requires DifferOnlyIn(a, b, lo, hi)
    ensures Feed(init, a, p) == Feed(init, b, p) <==> a == b
  {
    hide *;
    if Feed(init, a, p) == Feed(init, b, p) {
      FeedsDifference(init, a, b, p);
      var mid := DifferenceWindow(a, b, lo, hi);
      WindowFeedsZero(|init|, lo, mid, |a| - hi, p);
      ShortFeedToZero(Zeros(|init|), mid, p);
      NoDifference(a, b, lo, mid, |init|);
    }
  }

  /** Two messages with one remainder: their difference leaves none. */
  lemma FeedsDifference(init: seq<bool>, a: seq<bool>, b: seq<bool>, p: seq<bool>)
    requires |init| > 0 && |p| == |init| + 1 && |a| == |b|
    requires Feed(init, a, p) == Feed(init, b, p)
    ensures Feed(Zeros(|init|), Xor(a, b), p) == Zeros(|init|)
  {
    hide *;
    FeedLinear(init, init, a, b, p);
    XorSelf(init);
    XorSelf(Feed(init, a, p));
  }

  lemma XorSelf(r: seq<bool>)
    ensures Xor(r, r) == Zeros(|r|)
  {
  }

  lemma DifferenceWindow(a: seq<bool>, b: seq<bool>, lo: nat, hi: nat) returns (mid: seq<bool>)
    requires |a| == |b| && lo <= hi <= |a| && DifferOnlyIn(a, b, lo, hi)
    ensures |mid| == hi - lo && Xor(a, b) == Zeros(lo) + (mid + Zeros(|a| - hi))
  {
    mid := Xor(a, b)[lo..hi];
  }

  lemma WindowFeedsZero(w: nat, lo: nat, mid: seq<bool>, after: nat, p: seq<bool>)
    requires w > 0 && |p| == w + 1 && Generator(p)
    requires Feed(Zeros(w), Zeros(lo) + (mid + Zeros(after)), p) == Zeros(w)
    ensures Feed(Zeros(w), mid, p) == Zeros(w)
  {
    hide *;
    FeedConcat(Zeros(w), Zeros(lo), mid + Zeros(after), p);
    FeedZeros(w, lo, p);
    FeedConcat(Zeros(w), mid, Zeros(after), p);
    FeedZeros(w, after, p);
    FeedInjective(Feed(Zeros(w), mid, p), Zeros(w), Zeros(after), p);
  }

  lemma NoDifference(a: seq<bool>, b: seq<bool>, lo: nat, mid: seq<bool>, w: nat)
    requires |a| == |b| && lo + |mid| <= |a| && |mid| <= w
    requires Xor(a, b) == Zeros(lo) + (mid + Zeros(|a| - lo - |mid|))
    requires Zeros(w) == mid + Zeros(w - |mid|)
    ensures a == b
  {
    var d := Xor(a, b);
    assert forall i :: 0 <= i < |mid| ==> mid[i] == Zeros(w)[i];
    assert forall i :: 0 <= i < |a| ==> !d[i];
  }
}
