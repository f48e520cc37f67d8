/** Text in C buffers: snprintf, and the helpers that cut white space off in place. */
module CStrings {
  const NUL: char := 0 as char

  /** What snprintf leaves in a buffer of this size, without the terminator. */
  function Snprintf(size: nat, text: string): string
    requires size >= 1
  {
    if |text| < size then text else text[..size - 1]
  }

  /** isspace in the C locale. */
  predicate IsSpace(c: char) {
    c == ' ' || 9 <= c as int <= 13
  }

  predicate AllSpace(s: string) {
    forall i :: 0 <= i < |s| ==> IsSpace(s[i])
  }

  /** The string a pointer to the front of these characters stands for. */
  function CString(s: seq<char>): (r: string)
    ensures |r| <= |s| && r == s[..|r|] && NUL !in r
    ensures |r| < |s| ==> s[|r|] == NUL
  {
    if s == [] || s[0] == NUL then [] else [s[0]] + CString(s[1..])
  }

  lemma {:induction false} CStringIs(s: seq<char>, r: string)
    requires |r| < |s| && s[..|r|] == r && s[|r|] == NUL && NUL !in r
    ensures CString(s) == r
    decreases |r|
  {
    if r != [] {
      assert s[0] == r[0] && r[0] in r;
      assert s[1..][..|r| - 1] == r[1..];
      CStringIs(s[1..], r[1..]);
    }
  }

  function LStrip(s: string): (r: string)
    ensures |r| <= |s| && r == s[|s| - |r|..] && AllSpace(s[..|s| - |r|])
    ensures r != [] ==> !IsSpace(r[0])
  {
    if s != [] && IsSpace(s[0]) then
      var r := LStrip(s[1..]);
      assert s[..|s| - |r|] == [s[0]] + s[1..][..|s| - 1 - |r|];
      r
    else s
  }

  function RStrip(s: string): (r: string)
    ensures |r| <= |s| && r == s[..|r|] && AllSpace(s[|r|..])
    ensures r != [] ==> !IsSpace(r[|r| - 1])
  {
    if s != [] && IsSpace(s[|s| - 1]) then
      var r := RStrip(s[..|s| - 1]);
      assert s[|r|..] == s[..|s| - 1][|r|..] + [s[|s| - 1]];
      r
    else s
  }

  /** Space, tab, line feed, vertical tab, form feed and carriage return. */
  const WHITE: string := [' ', '\t', '\n', '\U{000B}', '\U{000C}', '\r']

  lemma SpaceExactly(c: char)
    ensures IsSpace(c) <==> c == ' ' || c == '\t' || c == '\n' || c == '\U{000B}' || c == '\U{000C}' || c == '\r'
    ensures IsSpace(c) <==> c in WHITE
  {
    assert '\t' as int == 9 && '\n' as int == 10 && '\r' as int == 13;
    assert forall d: char :: d in WHITE <==> exists i :: 0 <= i < 6 && WHITE[i] == d;
  }

  /** Nothing but these six characters is in s. */
  predicate Blank(s: string) {
    forall i :: 0 <= i < |s| ==> s[i] in WHITE
  }

  lemma BlankIsSpace(s: string)
    ensures AllSpace(s) <==> Blank(s)
  {
    forall i | 0 <= i < |s|
      ensures IsSpace(s[i]) <==> s[i] in WHITE
    {
      SpaceExactly(s[i]);
    }
  }

  /** r is s without the white space at its front. */
  predicate LeftCut(s: string, r: string) {
    |r| <= |s| && s[|s| - |r|..] == r && Blank(s[..|s| - |r|]) && (r != [] ==> r[0] !in WHITE)
  }

  predicate RightCut(s: string, r: string) {
    |r| <= |s| && s[..|r|] == r && Blank(s[|r|..]) && (r != [] ==> r[|r| - 1] !in WHITE)
  }

  lemma LStripExactly(s: string, r: string)
    ensures LStrip(s) == r <==> LeftCut(s, r)
  {
    hide LStrip, Blank, AllSpace, IsSpace;
    var t := LStrip(s);
    BlankIsSpace(s[..|s| - |t|]);
    if t != [] {
      SpaceExactly(t[0]);
    }
    if LeftCut(s, r) {
      var ws := s[..|s| - |r|];
      BlankIsSpace(ws);
      if r != [] {
        SpaceExactly(r[0]);
      }
      LStripSpace(ws, r);
      assert s == ws + r;
    }
  }

  lemma RStripExactly(s: string, r: string)
    ensures RStrip(s) == r <==> RightCut(s, r)
  {
    hide RStrip, Blank, AllSpace, IsSpace;
    var t := RStrip(s);
    BlankIsSpace(s[|t|..]);
    if t != [] {
      SpaceExactly(t[|t| - 1]);
    }
    if RightCut(s, r) {
      var ws := s[|r|..];
      BlankIsSpace(ws);
      if r != [] {
        SpaceExactly(r[|r| - 1]);
      }
      RStripSpace(r, ws);
      assert s == r + ws;
    }
  }

  /** A letter, a digit or a bracket is never cut off. */
  lemma PlainStays(c: char, s: string)
    requires 'a' <= c <= 'z' || 'A' <= c <= 'Z' || '0' <= c <= '9' || c == '<' || c == '>'
    ensures LStrip([c] + s) == [c] + s && RStrip(s + [c]) == s + [c]
  {
    assert !IsSpace(c);
  }

  /** White space at the front, however much, is what is cut off. */
  lemma {:induction false} LStripSpace(ws: string, s: string)
    requires AllSpace(ws) && (s != [] ==> !IsSpace(s[0]))
    ensures LStrip(ws + s) == s
    decreases |ws|
  {
    if ws == [] {
      assert ws + s == s;
    } else {
      assert (ws + s)[1..] == ws[1..] + s;
      LStripSpace(ws[1..], s);
    }
  }

  lemma {:induction false} RStripSpace(s: string, ws: string)
    requires AllSpace(ws) && (s != [] ==> !IsSpace(s[|s| - 1]))
    ensures RStrip(s + ws) == s
    decreases |ws|
  {
    if ws == [] {
      assert s + ws == s;
    } else {
      assert (s + ws)[..|s + ws| - 1] == s + ws[..|ws| - 1];
      assert (s + ws)[|s + ws| - 1] == ws[|ws| - 1];
      RStripSpace(s, ws[..|ws| - 1]);
    }
  }

  lemma {:induction false} RStripStep(s: string, k: nat)
    requires k <= |s| && AllSpace(s[k..]) && (k > 0 ==> !IsSpace(s[k - 1]))
    ensures RStrip(s) == s[..k]
  {
    assert s == s[..k] + s[k..];
    RStripSpace(s[..k], s[k..]);
  }

  lemma {:induction false} RStripKeeps(s: string, k: nat)
    requires k < |s| && !IsSpace(s[k])
    ensures |RStrip(s)| > k
    decreases |s|
  {
    if IsSpace(s[|s| - 1]) {
      RStripKeeps(s[..|s| - 1], k);
    }
  }

  lemma TrimmedBehind(front: string, value: string, after: string)
    requires AllSpace(after) && value != [] && !IsSpace(value[|value| - 1])
    ensures RStrip(front + value + after) == front + value
  {
    assert (front + value)[|front + value| - 1] == value[|value| - 1];
    RStripSpace(front + value, after);
  }

  lemma TrimmedBefore(name: string, before: string, value: string)
    requires AllSpace(before) && value != [] && !IsSpace(value[0])
    ensures LStrip((name + before + value)[|name|..]) == value
  {
    LStripSpace(before, value);
    hide LStrip, AllSpace, IsSpace;
    DropFront(name, before, value);
  }

  lemma DropFront(name: string, before: string, value: string)
    ensures (name + before + value)[|name|..] == before + value
  {
    assert name + before + value == name + (before + value);
  }

  /** strnrstrip: ends the string after the last of the n characters that is not white space. */
  method StrNRStrip(s: array<char>, n: nat)
    requires n < s.Length
    modifies s
    ensures var r := RStrip(old(s[..n])); s[..] == old(s[..])[|r| := NUL]
  {
    hide AllSpace, IsSpace, RStrip;
    var end: int := n - 1;
    ghost var t := s[..n];
    NoneLeft(t);
    while end >= 0 && IsSpace(s[end])
      invariant -1 <= end < n && AllSpace(t[end + 1..])
      modifies {}
    {
      SpaceBefore(t, end);
      end := end - 1;
    }
    RStripStep(t, end + 1);
    s[end + 1] := NUL;
  }

  lemma NoneLeft(t: string)
    ensures AllSpace(t[|t|..])
  {
  }

  lemma SpaceBefore(t: string, k: nat)
    requires k < |t| && IsSpace(t[k]) && AllSpace(t[k + 1..])
    ensures AllSpace(t[k..])
  {
    assert t[k..] == [t[k]] + t[k + 1..];
  }

  lemma SkipSpace(t: seq<char>)
    requires t != [] && IsSpace(t[0])
    ensures |CString(t)| == |CString(t[1..])| + 1 && LStrip(CString(t)) == LStrip(CString(t[1..]))
  {
    assert CString(t)[1..] == CString(t[1..]);
  }

  lemma NoSpace(t: seq<char>)
    requires t != [] && !IsSpace(t[0])
    ensures LStrip(CString(t)) == CString(t)
  {
  }

  /** strlstrip: moves the pointer from to the first character that is not white space. */
  method StrLStrip(s: array<char>, from: nat) returns (i: nat)
    requires from < s.Length && |CString(s[from..])| < s.Length - from
    ensures from <= i < s.Length && CString(s[i..]) == LStrip(CString(s[from..]))
    ensures |CString(s[i..])| < s.Length - i
  {
    hide CString, LStrip, IsSpace;
    i := from;
    ghost var t := s[..];
    assert forall k :: 0 <= k <= s.Length ==> s[k..] == t[k..];
    while IsSpace(s[i])
      invariant from <= i < |t| && |CString(t[i..])| < |t| - i
      invariant LStrip(CString(t[i..])) == LStrip(CString(t[from..]))
      decreases |t| - i
    {
      DropOne(t, i);
      SkipSpace(t[i..]);
      i := i + 1;
    }
    NoSpace(t[i..]);
  }

  lemma DropOne(t: seq<char>, i: nat)
    requires i < |t|
    ensures t[i..][1..] == t[i + 1..] && t[i..][0] == t[i]
  {
  }
}
