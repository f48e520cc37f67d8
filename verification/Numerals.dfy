/** Numbers as text: what snprintf prints with %zd and %o, and what strtol reads back. */
module Numerals {
  predicate IsDigit(c: char, base: nat) {
    '0' as int <= c as int < '0' as int + base
  }

  function Digit(d: nat): (c: char)
    requires d < 10
    ensures IsDigit(c, 10) && c as int - '0' as int == d
  {
    ('0' as int + d) as char
  }

  function Upper(n: nat, base: nat): (q: nat)
    requires base >= 2
    ensures n >= base ==> q < n
    ensures q * base + Lower(n, base) == n
  {
    QuotientSmaller(n / base, base, n % base);
    n / base
  }

  lemma QuotientSmaller(q: nat, base: nat, r: nat)
    requires base >= 2 && r < base
    ensures q > 0 ==> q < q * base + r
  {
    assert q * base == q * (base - 2) + q + q;
  }

  function Lower(n: nat, base: nat): (r: nat)
    requires base >= 2
    ensures r < base
  {
    n % base
  }

  /** %zd is base 10, %o base 8. */
  function Text(n: nat, base: nat): (s: string)
    requires 2 <= base <= 10
    ensures |s| >= 1 && forall i :: 0 <= i < |s| ==> IsDigit(s[i], base)
    decreases n
  {
    if n < base then [Digit(n)] else Text(Upper(n, base), base) + [Digit(Lower(n, base))]
  }

  /** %d and %zd of a signed number. */
  function Signed(n: int): string {
    if n < 0 then "-" + Text(-n, 10) else Text(n, 10)
  }

  /** The digits at the front of s, read after a number that is already there, and what follows them. */
  function Scan(acc: nat, s: string, base: nat): (nat, string)
    requires base <= 10
    decreases |s|
  {
    if s != [] && IsDigit(s[0], base) then Scan(acc * base + (s[0] as int - '0' as int), s[1..], base) else (acc, s)
  }

  lemma ScanDigit(acc: nat, d: nat, t: string, base: nat)
    requires d < base <= 10
    ensures Scan(acc, [Digit(d)] + t, base) == Scan(acc * base + d, t, base)
  {
    assert ([Digit(d)] + t)[1..] == t;
  }

  lemma {:induction false} ScanText(n: nat, t: string, base: nat)
    requires 2 <= base <= 10
    ensures Scan(0, Text(n, base) + t, base) == Scan(n, t, base)
    decreases n
  {
    hide Upper, Lower, Digit, Scan;
    if n < base {
      ScanDigit(0, n, t, base);
    } else {
      var d := [Digit(Lower(n, base))];
      assert Text(n, base) + t == Text(Upper(n, base), base) + (d + t);
      ScanText(Upper(n, base), d + t, base);
      ScanDigit(Upper(n, base), Lower(n, base), t, base);
    }
  }

  /** What is printed is read back, whatever follows that is not a digit. */
  lemma TextRoundTrip(n: nat, rest: string, base: nat)
    requires 2 <= base <= 10 && (rest == [] || !IsDigit(rest[0], base))
    ensures Scan(0, Text(n, base) + rest, base) == (n, rest)
  {
    ScanText(n, rest, base);
  }

  function Power(base: nat, k: nat): nat {
    if k == 0 then 1 else base * Power(base, k - 1)
  }

  lemma Associative(a: nat, b: nat, c: nat)
    ensures a * (b * c) == a * b * c
  {
  }

  lemma {:induction false} PowerSum(base: nat, i: nat, j: nat)
    ensures Power(base, i + j) == Power(base, i) * Power(base, j)
  {
    if i > 0 {
      assert Power(base, i + j) == base * Power(base, i - 1 + j);
      assert Power(base, i) == base * Power(base, i - 1);
      hide Power;
      PowerSum(base, i - 1, j);
      Associative(base, Power(base, i - 1), Power(base, j));
    }
  }

  lemma PowersOfTen()
    ensures Power(10, 19) == 10_000_000_000_000_000_000
  {
    assert Power(10, 3) == 10 * (10 * (10 * Power(10, 0)));
    PowerSum(10, 3, 3);
    PowerSum(10, 6, 6);
    PowerSum(10, 12, 6);
    assert Power(10, 19) == 10 * Power(10, 18);
  }

  lemma UpperBelow(n: nat, base: nat, m: nat)
    requires base >= 2
    ensures n < base * m <==> Upper(n, base) < m
  {
    var q := Upper(n, base);
    if q < m {
      assert q * base <= (m - 1) * base;
    } else {
      assert q * base >= m * base;
    }
  }

  /** A number has at most k digits exactly when it is below the k-th power. */
  lemma {:induction false} DigitCount(n: nat, base: nat, k: nat)
    requires 2 <= base <= 10 && k >= 1
    ensures |Text(n, base)| <= k <==> n < Power(base, k)
    decreases n
  {
    hide Upper, Lower, Digit;
    if n < base {
      PowerAtLeast(base, k);
    } else if k == 1 {
      assert Power(base, 1) == base * Power(base, 0) == base;
    } else {
      DigitCount(Upper(n, base), base, k - 1);
      UpperBelow(n, base, Power(base, k - 1));
    }
  }

  lemma PowerAtLeast(base: nat, k: nat)
    requires base >= 1 && k >= 1
    ensures Power(base, k) >= base
  {
    PowerPositive(base, k - 1);
    assert base * Power(base, k - 1) >= base * 1;
  }

  lemma {:induction false} PowerPositive(base: nat, k: nat)
    requires base >= 1
    ensures Power(base, k) >= 1
  {
    if k > 0 {
      PowerPositive(base, k - 1);
      assert base * Power(base, k - 1) >= 1;
    }
  }

  /** Cutting digits off the end leaves the text of a smaller number. */
  lemma {:induction false} CutDigits(n: nat, base: nat, k: nat) returns (m: nat)
    requires 2 <= base <= 10 && 1 <= k < |Text(n, base)|
    ensures Text(n, base)[..k] == Text(m, base) && m < n
    decreases n
  {
    hide Upper, Lower, Digit;
    var t := Text(Upper(n, base), base);
    if k == |t| {
      m := Upper(n, base);
      assert Text(n, base)[..k] == t;
    } else {
      m := CutDigits(Upper(n, base), base, k);
      assert Text(n, base)[..k] == t[..k];
    }
  }

  lemma LongerText(a: nat, b: nat, base: nat)
    requires 2 <= base <= 10 && a <= b
    ensures |Text(a, base)| <= |Text(b, base)|
  {
    DigitCount(a, base, |Text(b, base)|);
    DigitCount(b, base, |Text(b, base)|);
  }
}
