/** The byte range of a request as text: with_range prints it, the server reads it (section 2.1 of RFC 7233). */
module Ranges {
  import opened Options
  import opened Numerals
  import opened CStrings

  const TWO_63 := 0x8000_0000_0000_0000

  /** The declared size of the text: sizeof("-") + 2 * 10. */
  const RANGE_SIZE := 22

  /** Both with %zd: size + offset - 1 wraps as a size_t, and is printed as signed. */
  function RangeText(offset: nat, size: nat): string
    requires offset < TWO_63 && offset + size <= TWO_63
  {
    Snprintf(RANGE_SIZE, Signed(offset) + "-" + Signed(size + offset - 1))
  }

  datatype Range = Range(first: nat, last: nat)

  /** A server's reading: a first and a last position, in order. The open form, without a last position, is never printed. */
  function ParseRange(text: string): Option<Range> {
    var (first, r) := Scan(0, text, 10);
    if |r| == |text| || r == [] || r[0] != '-' then None
    else
      var (last, end) := Scan(0, r[1..], 10);
      if |end| == |r| - 1 || end != [] || last < first then None else Some(Range(first, last))
  }

  /** The two numbers have together at most twenty digits. */
  predicate Fits(offset: nat, size: nat)
    requires size >= 1
  {
    |Text(offset, 10)| + |Text(offset + size - 1, 10)| <= 20
  }

  lemma Joined(first: nat, last: nat)
    ensures ParseRange(Text(first, 10) + "-" + Text(last, 10)) == if first <= last then Some(Range(first, last)) else None
  {
    var a, b := Text(first, 10), Text(last, 10);
    var text := a + "-" + b;
    assert text == a + ("-" + b);
    TextRoundTrip(first, "-" + b, 10);
    assert ("-" + b)[1..] == b;
    assert b + [] == b;
    TextRoundTrip(last, [], 10);
  }

  lemma NineteenDigits(n: nat)
    requires n < TWO_63
    ensures |Text(n, 10)| <= 19
  {
    PowersOfTen();
    DigitCount(n, 10, 19);
  }

  /** A range whose numbers fit is read as it was meant. */
  lemma RangeRoundTrip(offset: nat, size: nat)
    requires size >= 1 && offset + size <= TWO_63 && Fits(offset, size)
    ensures ParseRange(RangeText(offset, size)) == Some(Range(offset, offset + size - 1))
  {
    Joined(offset, offset + size - 1);
  }

  /** A range that does not fit loses digits of its end: it is read as a shorter range, or cannot be used. */
  lemma RangeCut(offset: nat, size: nat)
    requires size >= 1 && offset + size <= TWO_63 && !Fits(offset, size)
    ensures var r := ParseRange(RangeText(offset, size));
      r == None || (r.value.first == offset && r.value.last < offset + size - 1)
  {
    var a, b := Text(offset, 10), Text(offset + size - 1, 10);
    NineteenDigits(offset);
    var k := 20 - |a|;
    assert RangeText(offset, size) == a + "-" + b[..k];
    var m := CutDigits(offset + size - 1, 10, k);
    Joined(offset, m);
  }

  /** So the text is right exactly when it fits. */
  lemma RangeExactly(offset: nat, size: nat)
    requires size >= 1 && offset + size <= TWO_63
    ensures ParseRange(RangeText(offset, size)) == Some(Range(offset, offset + size - 1)) <==> Fits(offset, size)
  {
    if Fits(offset, size) {
      RangeRoundTrip(offset, size);
    } else {
      RangeCut(offset, size);
    }
  }

  /** An empty range ends before it begins. */
  lemma EmptyRange(offset: nat)
    requires offset < TWO_63
    ensures ParseRange(RangeText(offset, 0)) == None
  {
    if offset == 0 {
      var text := Text(0, 10) + "-" + ("-" + Text(1, 10));
      assert text == Text(0, 10) + ("-" + ("-" + Text(1, 10)));
      TextRoundTrip(0, "-" + ("-" + Text(1, 10)), 10);
      assert ("-" + ("-" + Text(1, 10)))[1..] == "-" + Text(1, 10);
    } else {
      LongerText(offset - 1, offset, 10);
      NineteenDigits(offset);
      var a, b := Text(offset, 10), Text(offset - 1, 10);
      if |a| + |b| <= 20 {
        Joined(offset, offset - 1);
      } else {
        var k := 20 - |a|;
        assert RangeText(offset, 0) == a + "-" + b[..k];
        var m := CutDigits(offset - 1, 10, k);
        Joined(offset, m);
      }
    }
  }

  /** Everything below ten digits fits. */
  lemma TenDigitsFit(offset: nat, size: nat)
    requires size >= 1 && offset + size <= 10_000_000_000
    ensures Fits(offset, size)
  {
    PowerOfTen();
    DigitCount(offset, 10, 10);
    DigitCount(offset + size - 1, 10, 10);
  }

  lemma PowerOfTen()
    ensures Power(10, 10) == 10_000_000_000
  {
    assert Power(10, 2) == 10 * (10 * Power(10, 0));
    PowerSum(10, 2, 2);
    PowerSum(10, 4, 4);
    PowerSum(10, 8, 2);
  }
}
