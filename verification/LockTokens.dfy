/** The lock token: read from the header of a LOCK response, printed into UNLOCK and If headers. */
module LockTokens {
  import opened Options
  import opened CStrings

  const NAME := "Lock-Token:"

  /** The value between its angle brackets; without them, and that is a known fault of a server, as it is. */
  function Unbracketed(value: string): string {
    if value != [] && value[0] == '<' then (if |value| == 1 then [] else value[1..|value| - 1]) else value
  }

  /** The token in a header line (section 10.5 of RFC 4918). */
  function TokenOf(line: string): Option<string> {
    if NAME <= line then
      NameStays(line);
      Some(Unbracketed(LStrip(RStrip(line)[|NAME|..])))
    else None
  }

  lemma NameStays(line: string)
    requires NAME <= line
    ensures |RStrip(line)| >= |NAME| && NAME <= RStrip(line)
  {
    RStripKeeps(line, 10);
  }

  /** Finds where the value starts in a line with this header, and ends it before trailing white space. */
  method FindValue(buffer: array<char>, nitems: nat) returns (p: nat)
    requires nitems < buffer.Length && NUL !in buffer[..nitems] && NAME <= buffer[..nitems]
    modifies buffer
    ensures |NAME| <= p < buffer.Length && |CString(buffer[p..])| < buffer.Length - p
    ensures |RStrip(old(buffer[..nitems]))| >= |NAME|
    ensures CString(buffer[p..]) == LStrip(RStrip(old(buffer[..nitems]))[|NAME|..])
  {
    ghost var line := buffer[..nitems];
    NameStays(line);
    ghost var r := RStrip(line);
    StrNRStrip(buffer, nitems);
    p := |NAME|;
    assert forall i :: p <= i < |r| ==> buffer[i] == r[i];
    assert buffer[p..][..|r| - p] == r[p..] && buffer[p..][|r| - p] == NUL;
    CStringIs(buffer[p..], r[p..]);
    p := StrLStrip(buffer, p);
  }

  /** Takes the brackets off in place. */
  method Unbracket(buffer: array<char>, from: nat) returns (p: nat)
    requires 1 <= from < buffer.Length && |CString(buffer[from..])| < buffer.Length - from
    modifies buffer
    ensures p < buffer.Length && CString(buffer[p..]) == Unbracketed(old(CString(buffer[from..])))
  {
    hide CString, Unbracketed;
    p := from;
    ghost var t := buffer[p..];
    BracketOrNot(t);
    if buffer[p] == '<' {
      p := p + 1;
      assert buffer[p..] == t[1..];
      var len := |CString(buffer[p..])|;
      buffer[p + len - 1] := NUL;
      assert buffer[p..] == t[len := NUL][1..];
      CutBracket(t, len);
    }
  }

  /** Characters with the text between the brackets, or with all of it, at their front. */
  lemma BracketOrNot(t: seq<char>)
    requires |CString(t)| < |t|
    ensures if t[0] == '<' then CString(t) == ['<'] + CString(t[1..]) else Unbracketed(CString(t)) == CString(t)
  {
  }

  lemma CutBracket(t: seq<char>, len: nat)
    requires len + 1 < |t| && CString(t) == ['<'] + CString(t[1..]) && |CString(t[1..])| == len
    ensures CString(t[len := NUL][1..]) == Unbracketed(CString(t))
  {
    var inside, cut := CString(t[1..]), t[len := NUL][1..];
    if len == 0 {
      assert cut == t[1..];
    } else {
      assert cut[..len - 1] == inside[..len - 1] && cut[len - 1] == NUL;
      CStringIs(cut, inside[..len - 1]);
      assert CString(t)[1..|CString(t)| - 1] == inside[..len - 1];
    }
  }

  /** __dav_lock_callback: called by libcurl for each header line, which is terminated and holds no NUL. */
  method LockCallback(buffer: array<char>, nitems: nat, token: Option<string>) returns (res: Option<string>)
    requires nitems < buffer.Length && buffer[nitems] == NUL && NUL !in buffer[..nitems]
    modifies buffer
    ensures res == if token.Some? then token else TokenOf(old(buffer[..nitems]))
  {
    res := token;
    if token == None {
      if nitems >= |NAME| && buffer[..|NAME|] == NAME {
        assert buffer[..nitems][..|NAME|] == NAME;
        var p := FindValue(buffer, nitems);
        p := Unbracket(buffer, p);
        res := Some(CString(buffer[p..]));
      }
    }
  }

  /** The token after the header lines of a response: that of the first line that has one. */
  function TokenAfter(lines: seq<string>, token: Option<string>): Option<string> {
    if lines == [] then token
    else TokenAfter(lines[1..], if token.Some? then token else TokenOf(lines[0]))
  }

  /** The header sent with UNLOCK: a buffer for the text around an empty token, and the token. */
  function UnlockHeader(token: string): string {
    Snprintf(|"Lock-Token: <>"| + 1 + |token|, "Lock-Token: <" + token + ">")
  }

  /** The header sent with a write to a locked file. */
  function IfHeader(token: string): string {
    Snprintf(|"If: (<>)"| + 1 + |token|, "If: (<" + token + ">)")
  }

  lemma ValueRead(before: string, value: string, after: string)
    requires AllSpace(before) && AllSpace(after)
    requires value != [] && !IsSpace(value[0]) && !IsSpace(value[|value| - 1])
    ensures TokenOf(NAME + before + value + after) == Some(Unbracketed(value))
  {
    assert NAME <= NAME + before + value + after;
    TrimmedBehind(NAME + before, value, after);
    TrimmedBefore(NAME, before, value);
    hide RStrip, LStrip, Unbracketed, IsSpace, AllSpace;
  }

  function Bracketed(token: string): (value: string)
    ensures |value| == |token| + 2 && value[0] == '<' && value[|value| - 1] == '>' && Unbracketed(value) == token
  {
    "<" + token + ">"
  }

  /** Any token, with any white space around it in the line, is read as it is. */
  lemma TokenRoundTrip(token: string, before: string, after: string)
    requires Blank(before) && Blank(after)
    ensures TokenOf("Lock-Token:" + before + "<" + token + ">" + after) == Some(token)
  {
    BlankIsSpace(before);
    BlankIsSpace(after);
    ValueRead(before, Bracketed(token), after);
    assert "Lock-Token:" + before + "<" + token + ">" + after == NAME + before + Bracketed(token) + after;
    hide *;
  }

  /** Without brackets the token is read as it is exactly when it has no bracket in front. */
  lemma BareToken(token: string, before: string, after: string)
    requires Blank(before) && Blank(after) && token != [] && token[0] !in WHITE && token[|token| - 1] !in WHITE
    ensures TokenOf("Lock-Token:" + before + token + after) == Some(token) <==> token[0] != '<'
  {
    BlankIsSpace(before);
    BlankIsSpace(after);
    SpaceExactly(token[0]);
    SpaceExactly(token[|token| - 1]);
    ValueRead(before, token, after);
    assert Unbracketed(token) == token <==> token[0] != '<';
    hide *;
  }

  /** The lines as HTTP has them: with a space in front, and ended by a carriage return and a line feed. */
  lemma HeaderLine(token: string)
    ensures TokenOf("Lock-Token: <" + token + ">\r\n") == Some(token)
  {
    SpaceAndLineEnd();
    hide *;
    TokenRoundTrip(token, " ", "\r\n");
    assert "Lock-Token: <" + token + ">\r\n" == "Lock-Token:" + " " + "<" + token + ">" + "\r\n";
  }

  lemma BareLine(token: string)
    requires token != [] && token[0] !in WHITE && token[|token| - 1] !in WHITE
    ensures TokenOf("Lock-Token: " + token + "\r\n") == Some(token) <==> token[0] != '<'
  {
    SpaceAndLineEnd();
    hide *;
    BareToken(token, " ", "\r\n");
    assert "Lock-Token: " + token + "\r\n" == "Lock-Token:" + " " + token + "\r\n";
  }

  lemma SpaceAndLineEnd()
    ensures Blank(" ") && Blank("\r\n")
  {
    assert WHITE[0] == ' ' && WHITE[5] == '\r' && WHITE[2] == '\n';
  }

  /** No character of a token is lost in the headers. */
  lemma HeadersWhole(token: string)
    ensures UnlockHeader(token) == "Lock-Token: <" + token + ">"
    ensures IfHeader(token) == "If: (<" + token + ">)"
  {
  }

  lemma {:induction false} TokenKept(lines: seq<string>, token: string)
    ensures TokenAfter(lines, Some(token)) == Some(token)
  {
    if lines != [] {
      TokenKept(lines[1..], token);
    }
  }

  lemma {:induction false} FirstTokenWins(front: seq<string>, line: string, rest: seq<string>)
    requires TokenOf(line).Some? && forall i :: 0 <= i < |front| ==> TokenOf(front[i]) == None
    ensures TokenAfter(front + [line] + rest, None) == TokenOf(line)
    decreases |front|
  {
    hide TokenOf;
    if front == [] {
      assert ([] + [line] + rest)[1..] == rest;
      TokenKept(rest, TokenOf(line).value);
    } else {
      FirstTokenWins(front[1..], line, rest);
      assert (front + [line] + rest)[1..] == front[1..] + [line] + rest;
    }
  }

  /** What UNLOCK sends back is what the first Lock-Token line of the LOCK response gave, whatever came before and after. */
  lemma TokenEchoed(front: seq<string>, token: string, before: string, after: string, rest: seq<string>)
    requires Blank(before) && Blank(after)
    requires forall i :: 0 <= i < |front| ==> !("Lock-Token:" <= front[i])
    ensures TokenAfter(front + ["Lock-Token:" + before + "<" + token + ">" + after] + rest, None) == Some(token)
    ensures UnlockHeader(token) == "Lock-Token: <" + token + ">"
  {
    TokenRoundTrip(token, before, after);
    HeadersWhole(token);
    assert forall i :: 0 <= i < |front| ==> TokenOf(front[i]) == None;
    hide TokenOf, UnlockHeader, TokenAfter;
    FirstTokenWins(front, "Lock-Token:" + before + "<" + token + ">" + after, rest);
  }
}
