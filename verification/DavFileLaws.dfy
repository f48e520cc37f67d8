/** dav_read and dav_write agree with a plain file: exactly when, and over whole histories. */
module DavFileLaws {
  import opened Options
  import opened Numerals
  import opened Buffers
  import opened Ranges
  import opened DavFile

  // ---------------------------------------------------------------- the plain file

  /** pwrite: byte by byte, with zeros between the old end and the offset. */
  function PosixWrite(file: seq<Byte>, offset: nat, body: seq<Byte>): seq<Byte> {
    var end := offset + |body|;
    if body == [] then file
    else seq(if end > |file| then end else |file|,
             i requires 0 <= i && (i < end || i < |file|) =>
               if offset <= i < end then body[i - offset] else if i < |file| then file[i] else 0)
  }

  /** pread: the bytes of the window that the file has. */
  function PosixRead(file: seq<Byte>, offset: nat, size: nat): seq<Byte> {
    if offset < |file| then file[offset..Min(offset + size, |file|)] else []
  }

  // ---------------------------------------------------------------- writing

  lemma SpliceIsWrite(file: seq<Byte>, offset: nat, body: seq<Byte>)
    requires offset <= |file| && body != []
    ensures Splice(file, offset, body) == PosixWrite(file, offset, body)
  {
    hide Splice;
    SpliceLength(file, offset, body);
    var s, w := Splice(file, offset, body), PosixWrite(file, offset, body);
    assert |s| == |w|;
    forall i | 0 <= i < |s|
      ensures s[i] == w[i]
    {
      SpliceAt(file, offset, body, i);
    }
  }

  lemma SpliceAt(s: seq<Byte>, at: nat, x: seq<Byte>, i: nat)
    requires at <= |s| && i < |Splice(s, at, x)|
    ensures at + |x| <= i ==> i < |s|
    ensures Splice(s, at, x)[i] == if i < at then s[i] else if i < at + |x| then x[i - at] else s[i]
  {
    if at + |x| <= i {
      assert After(s, at + |x|)[i - at - |x|] == s[i];
    }
  }

  lemma PadThenWrite(file: seq<Byte>, offset: nat, body: seq<Byte>)
    requires |file| < offset && body != []
    ensures Splice(file, |file|, Zeros(offset - |file|)) == file + Zeros(offset - |file|)
    ensures Splice(file + Zeros(offset - |file|), offset, body) == PosixWrite(file, offset, body)
  {
  }

  lemma PaddingFits(from: nat, offset: nat, size: nat)
    requires from < offset && size >= 1 && Fits(offset, size)
    ensures Fits(from, offset - from)
  {
    LongerText(from, offset, 10);
    LongerText(offset - 1, offset + size - 1, 10);
  }

  /** A PUT whose range fits: stored where it was meant, or 416 when that is beyond the end. */
  lemma PutFits(file: seq<Byte>, body: seq<Byte>, offset: nat, policy: Policy, link: Link)
    requires body != [] && offset + |body| <= TWO_63 && Fits(offset, |body|)
    ensures var put := PutOutcome(file, body, offset, policy, link);
      && (put.0 == Success <==> link == Up && offset <= |file|)
      && (put.0 == Http(416) <==> link == Up && offset > |file|)
      && put.1 == if offset > |file| || link == Lost then file else Splice(file, offset, body)
  {
    RangeRoundTrip(offset, |body|);
    hide RangeText, ParseRange, Splice;
  }

  /** The second half of dav_write: the file is padded up to the offset, and the PUT sent again. */
  lemma PaddingAgrees(file: seq<Byte>, body: seq<Byte>, offset: nat, policy: Policy, pad: Link, again: Link)
    requires |file| < offset && body != [] && offset + |body| <= TWO_63 && Fits(offset, |body|)
    ensures var zeros := Zeros(offset - |file|); var put := PutOutcome(file, zeros, |file|, policy, pad);
      && |zeros| == offset - |file| && (put.0 == Success <==> pad == Up)
      && put.1 == if pad == Lost then file else file + zeros
    ensures var put := PutOutcome(file + Zeros(offset - |file|), body, offset, policy, again);
      && (put.0 == Success <==> again == Up)
      && put.1 == if again == Lost then file + Zeros(offset - |file|) else PosixWrite(file, offset, body)
  {
    var zeros := Zeros(offset - |file|);
    PaddingFits(|file|, offset, |body|);
    PutFits(file, zeros, |file|, policy, pad);
    PadThenWrite(file, offset, body);
    PutFits(file + zeros, body, offset, policy, again);
    hide PutOutcome, Splice, PosixWrite, Fits;
  }

  /** The gap test of dav_write compares with the low 32 bits of the offset only. */
  predicate GapSeen(file: seq<Byte>, offset: nat) {
    offset <= |file| || |file| < offset % 0x1_0000_0000
  }

  const ALL_UP := Links(Up, Up, Up, Up)

  lemma PadFits(file: seq<Byte>, body: seq<Byte>, offset: nat, policy: Policy, pad: Link, again: Link)
    requires |file| < offset && body != [] && offset + |body| <= TWO_63 && Fits(offset, |body|)
    ensures var o := PadOutcome(file, body, offset, policy, pad, again);
      && (o.0 == Success <==> GapSeen(file, offset) && pad == Up && again == Up)
      && (o.0 == Success ==> o.1 == PosixWrite(file, offset, body))
      && (o.1 == file || o.1 == file + Zeros(offset - |file|) || o.1 == PosixWrite(file, offset, body))
  {
    hide PutOutcome, Splice, PosixWrite, Fits, Zeros;
    if GapSeen(file, offset) {
      PaddingAgrees(file, body, offset, policy, pad, again);
    } else {
      PutFits(file, body, offset, policy, again);
    }
  }

  /**
   * A dav_write that succeeds has done what pwrite does, whatever went wrong on the way. One that fails has done
   * nothing, or filled the gap with zeros, or lost only the answer to a completed write.
   */
  lemma WriteAgrees(file: seq<Byte>, body: seq<Byte>, offset: nat, policy: Policy, links: Links)
    requires body != [] && offset + |body| <= TWO_63 && Fits(offset, |body|)
    ensures var o := WriteOutcome(file, body, offset, policy, links);
      && (o.0 == Success ==> o.1 == PosixWrite(file, offset, body))
      && (o.1 == file || (offset > |file| && o.1 == file + Zeros(offset - |file|)) || o.1 == PosixWrite(file, offset, body))
      && (links == ALL_UP ==> (o.0 == Success <==> GapSeen(file, offset)))
  {
    PutFits(file, body, offset, policy, links.put);
    if offset <= |file| {
      SpliceIsWrite(file, offset, body);
    } else {
      PadFits(file, body, offset, policy, links.pad, links.again);
    }
    hide PutOutcome, PadOutcome, Splice, PosixWrite, Fits, Zeros;
  }

  lemma SmallCount(n: nat)
    ensures ToInt32(n) == n <==> n < 0x8000_0000
    ensures ToInt32(n) <= n
  {
  }

  // ---------------------------------------------------------------- exactly when a write does what pwrite does

  /** The number returned is that of the bytes, and the file is as after pwrite. */
  predicate WriteDoes(file: seq<Byte>, body: seq<Byte>, offset: nat, policy: Policy)
    requires offset < TWO_63 && offset + |body| <= TWO_63
  {
    var (reply, file') := WriteOutcome(file, body, offset, policy, ALL_UP);
    WriteResult(reply, |body|) == |body| && file' == PosixWrite(file, offset, body)
  }

  /** With digits cut off, a PUT is refused, or replaces the whole file, or is beyond the end. */
  lemma CutPut(file: seq<Byte>, body: seq<Byte>, offset: nat, policy: Policy)
    requires body != [] && offset + |body| <= TWO_63 && !Fits(offset, |body|)
    ensures var put := PutOutcome(file, body, offset, policy, Up);
      if ParseRange(RangeText(offset, |body|)) == None then put == if policy == IgnoreRange then (Success, body) else (Http(400), file)
      else put == (if offset > |file| then (Http(416), file) else (Http(400), file))
  {
    RangeCut(offset, |body|);
    hide RangeText, ParseRange, Splice;
  }

  lemma ZeroFits(size: nat)
    requires 1 <= size <= TWO_63
    ensures Fits(0, size)
  {
    NineteenDigits(size - 1);
  }

  /** Once the same PUT has been answered with 416, no padding makes it succeed. */
  lemma CutPad(file: seq<Byte>, body: seq<Byte>, offset: nat, policy: Policy)
    requires body != [] && offset + |body| <= TWO_63 && !Fits(offset, |body|)
    requires PutOutcome(file, body, offset, policy, Up).0 == Http(416)
    ensures PadOutcome(file, body, offset, policy, Up, Up).0 != Success
  {
    CutPut(file, body, offset, policy);
    if |file| < offset % 0x1_0000_0000 {
      CutPut(PutOutcome(file, Zeros(offset - |file|), |file|, policy, Up).1, body, offset, policy);
      hide PutOutcome, Fits, ParseRange, RangeText;
    }
  }

  lemma CutWrite(file: seq<Byte>, body: seq<Byte>, offset: nat, policy: Policy)
    requires body != [] && offset + |body| <= TWO_63 && !Fits(offset, |body|)
    ensures !WriteDoes(file, body, offset, policy)
  {
    assert offset > 0 by {
      if offset == 0 { ZeroFits(|body|); }
    }
    assert |PosixWrite(file, offset, body)| > |body|;
    CutPut(file, body, offset, policy);
    hide PutOutcome, PadOutcome, PosixWrite, Fits, ParseRange, RangeText;
    if PutOutcome(file, body, offset, policy, Up).0 == Http(416) {
      CutPad(file, body, offset, policy);
    }
  }

  /** dav_write without bytes: the server is sent no usable range, and an empty body. */
  lemma EmptyWrite(file: seq<Byte>, offset: nat, policy: Policy)
    requires offset < TWO_63
    ensures WriteOutcome(file, [], offset, policy, ALL_UP) == if policy == IgnoreRange then (Success, []) else (Http(400), file)
  {
    EmptyRange(offset);
    hide RangeText, ParseRange;
  }

  /**
   * For every file, offset and body, and with every request answered: dav_write does what pwrite does exactly when
   * the two ends of its range have at most twenty digits, the low 32 bits of the offset show the gap, if there is one,
   * and the size is an int; without bytes, exactly when there is nothing to lose.
   */
  lemma WriteExactly(file: seq<Byte>, body: seq<Byte>, offset: nat, policy: Policy)
    requires offset < TWO_63 && offset + |body| <= TWO_63
    ensures WriteDoes(file, body, offset, policy) <==>
      if body == [] then policy == IgnoreRange && file == []
      else Fits(offset, |body|) && GapSeen(file, offset) && |body| < 0x8000_0000
  {
    SmallCount(|body|);
    if body == [] {
      EmptyWrite(file, offset, policy);
    } else if Fits(offset, |body|) {
      WriteAgrees(file, body, offset, policy, ALL_UP);
    } else {
      CutWrite(file, body, offset, policy);
    }
    hide WriteOutcome, Fits, ToInt32;
  }

  /** One byte behind a gap of 4 GiB in an empty file: the gap is not seen, and the call fails. */
  lemma UnseenGap(policy: Policy)
    ensures !WriteDoes([], [7], 0x1_0000_0000, policy)
  {
    WriteExactly([], [7], 0x1_0000_0000, policy);
  }

  /** 2 GiB into an empty file: the file is right, and the number returned is negative. */
  lemma NegativeCount(policy: Policy)
    ensures WriteOutcome([], Zeros(0x8000_0000), 0, policy, ALL_UP) == (Success, PosixWrite([], 0, Zeros(0x8000_0000)))
    ensures WriteResult(Success, 0x8000_0000) < 0
  {
    ZeroFits(0x8000_0000);
    WriteAgrees([], Zeros(0x8000_0000), 0, policy, ALL_UP);
  }

  // ---------------------------------------------------------------- reading

  /** The count returned, and as many bytes of the caller's memory, are what pread gives. */
  predicate ReadDoes(file: seq<Byte>, data: seq<Byte>, offset: nat, policy: Policy)
    requires offset < TWO_63 && offset + |data| <= TWO_63
  {
    var (res, got) := ReadOutcome(file, data, offset, policy, Up);
    var want := PosixRead(file, offset, |data|);
    res == |want| && |want| <= |got| && got[..|want|] == want
  }

  lemma GetFits(file: seq<Byte>, offset: nat, size: nat, policy: Policy)
    requires size >= 1 && offset + size <= TWO_63 && Fits(offset, size)
    ensures ServerGet(file, RangeText(offset, size), policy)
            == if offset >= |file| then (Http(416), []) else (Success, PosixRead(file, offset, size))
  {
    RangeRoundTrip(offset, size);
  }

  lemma ReceivedFront(data: seq<Byte>, body: seq<Byte>)
    requires |body| <= |data|
    ensures Received(data, body)[..|body|] == body
  {
  }

  /** A read whose range fits is pread exactly when the bytes there are can be counted in an int. */
  lemma ReadExactly(file: seq<Byte>, data: seq<Byte>, offset: nat, policy: Policy)
    requires offset < TWO_63 && offset + |data| <= TWO_63 && (data == [] || Fits(offset, |data|))
    ensures ReadDoes(file, data, offset, policy) <==> |PosixRead(file, offset, |data|)| < 0x8000_0000
  {
    if data != [] {
      var want := PosixRead(file, offset, |data|);
      GetFits(file, offset, |data|, policy);
      assert |want| <= |data| && (offset < |file| ==> |want| >= 1);
      SmallCount(|want|);
      ReceivedFront(data, want);
      hide ServerGet, RangeText, Fits, Received, ToInt32;
    }
  }

  lemma CutGet(file: seq<Byte>, offset: nat, size: nat, policy: Policy)
    requires size >= 1 && offset + size <= TWO_63 && !Fits(offset, size) && |file| == offset + size
    ensures var got := ServerGet(file, RangeText(offset, size), policy); got.0 == Success ==> |got.1| != size
    ensures var got := ServerGet(file, RangeText(offset, size), policy); got.0 != Http(416)
  {
    RangeCut(offset, size);
    if offset == 0 { ZeroFits(size); }
    hide RangeText, ParseRange, Fits;
  }

  /** A window reads right from every file exactly when its range fits and its size is an int. */
  lemma WindowExactly(data: seq<Byte>, offset: nat, policy: Policy)
    requires offset < TWO_63 && offset + |data| <= TWO_63
    ensures (forall file: seq<Byte> :: ReadDoes(file, data, offset, policy))
            <==> data == [] || (Fits(offset, |data|) && |data| < 0x8000_0000)
  {
    var full := Zeros(offset + |data|);
    assert |PosixRead(full, offset, |data|)| == |data|;
    if data == [] || Fits(offset, |data|) {
      forall file: seq<Byte>
        ensures ReadDoes(file, data, offset, policy) <==> |PosixRead(file, offset, |data|)| < 0x8000_0000
        ensures |PosixRead(file, offset, |data|)| <= |data|
      {
        ReadExactly(file, data, offset, policy);
      }
      hide ReadDoes, Fits, PosixRead;
      assert ReadDoes(full, data, offset, policy) <==> |data| < 0x8000_0000;
    } else {
      FullWindow(full, data, offset, policy);
    }
  }

  /** A window at the end of a file is not read right when its range does not fit. */
  lemma FullWindow(file: seq<Byte>, data: seq<Byte>, offset: nat, policy: Policy)
    requires data != [] && |file| == offset + |data| <= TWO_63 && !Fits(offset, |data|)
    ensures !ReadDoes(file, data, offset, policy)
  {
    CutGet(file, offset, |data|, policy);
    SmallCount(|ServerGet(file, RangeText(offset, |data|), policy).1|);
    assert |PosixRead(file, offset, |data|)| == |data|;
    hide ServerGet, Fits, Received, ToInt32, RangeText;
  }

  /** 2 GiB read from a file that has them: EIO is returned. */
  lemma LongRead(policy: Policy)
    ensures ReadOutcome(Zeros(0x8000_0000), Zeros(0x8000_0000), 0, policy, Up).0 == -5
  {
    var file := Zeros(0x8000_0000);
    ZeroFits(0x8000_0000);
    GetFits(file, 0, 0x8000_0000, policy);
    assert PosixRead(file, 0, 0x8000_0000) == file;
    hide ServerGet, RangeText, Fits, Received;
  }

  /** One byte behind the first 10^10, written or read: its range has 22 digits. */
  lemma LostDigits(policy: Policy)
    ensures !WriteDoes(Zeros(10_000_000_000), [7], 10_000_000_000, policy)
    ensures !ReadDoes(Zeros(10_000_000_001), [0], 10_000_000_000, policy)
  {
    ElevenDigits(10_000_000_000);
    hide *;
    WriteExactly(Zeros(10_000_000_000), [7], 10_000_000_000, policy);
    FullWindow(Zeros(10_000_000_001), [0], 10_000_000_000, policy);
  }

  lemma ElevenDigits(offset: nat)
    requires offset >= 10_000_000_000
    ensures !Fits(offset, 1)
  {
    PowerOfTen();
    DigitCount(offset, 10, 10);
  }

  // ---------------------------------------------------------------- histories

  datatype Call =
    | Write(body: seq<Byte>, offset: nat, links: Links)
    | Read(data: seq<Byte>, offset: nat, link: Link)

  function Bytes(c: Call): seq<Byte> {
    if c.Write? then c.body else c.data
  }

  /** Not empty, small enough for an int, and with offsets of few enough digits. */
  predicate Ordinary(c: Call) {
    && 1 <= |Bytes(c)| < 0x8000_0000 && c.offset + |Bytes(c)| <= TWO_63
    && Fits(c.offset, |Bytes(c)|)
  }

  /** One call by the file system: what it reads, and the file; None when it returns an error. */
  function Perform(file: seq<Byte>, c: Call, policy: Policy): Option<(seq<Byte>, seq<Byte>)>
    requires c.offset < TWO_63 && c.offset + |Bytes(c)| <= TWO_63
  {
    match c
    case Write(body, offset, links) =>
      var (reply, file') := WriteOutcome(file, body, offset, policy, links);
      if WriteResult(reply, |body|) >= 0 then Some(([], file')) else None
    case Read(data, offset, link) =>
      var (res, got) := ReadOutcome(file, data, offset, policy, link);
      if 0 <= res <= |got| then Some((got[..res], file)) else None
  }

  function PosixPerform(file: seq<Byte>, c: Call): (seq<Byte>, seq<Byte>) {
    match c
    case Write(body, offset, _) => ([], PosixWrite(file, offset, body))
    case Read(data, offset, _) => (PosixRead(file, offset, |data|), file)
  }

  lemma CallAgrees(file: seq<Byte>, c: Call, policy: Policy)
    requires Ordinary(c) && Perform(file, c, policy).Some?
    ensures Perform(file, c, policy).value == PosixPerform(file, c)
  {
    match c
    case Write(body, offset, links) =>
      WriteAgrees(file, body, offset, policy, links);
      hide WriteOutcome, Fits, PosixWrite;
    case Read(data, offset, link) =>
      UnansweredRead(file, data, offset, policy, link);
      ReadExactly(file, data, offset, policy);
      hide ReadOutcome, Fits, PosixRead;
  }

  lemma UnansweredRead(file: seq<Byte>, data: seq<Byte>, offset: nat, policy: Policy, link: Link)
    requires data != [] && offset < TWO_63 && offset + |data| <= TWO_63
    ensures link != Up ==> ReadOutcome(file, data, offset, policy, link).0 < 0
  {
  }

  /** The answers of a whole history and the file it leaves; None as soon as a call returns an error. */
  function History(file: seq<Byte>, calls: seq<Call>, policy: Policy): Option<(seq<seq<Byte>>, seq<Byte>)>
    requires forall i :: 0 <= i < |calls| ==> Ordinary(calls[i])
    decreases |calls|
  {
    if calls == [] then Some(([], file))
    else
      assert Ordinary(calls[0]);
      var r := Perform(file, calls[0], policy);
      if r.None? then None
      else
        var rest := History(r.value.1, calls[1..], policy);
        if rest.None? then None else Some(([r.value.0] + rest.value.0, rest.value.1))
  }

  function PosixHistory(file: seq<Byte>, calls: seq<Call>): (seq<seq<Byte>>, seq<Byte>)
    decreases |calls|
  {
    if calls == [] then ([], file)
    else
      var (answer, file') := PosixPerform(file, calls[0]);
      var (answers, last) := PosixHistory(file', calls[1..]);
      ([answer] + answers, last)
  }

  /** Any history of successful reads and writes answers and ends as on a plain file. */
  lemma {:induction false} HistoryAgrees(file: seq<Byte>, calls: seq<Call>, policy: Policy)
    requires forall i :: 0 <= i < |calls| ==> Ordinary(calls[i])
    requires History(file, calls, policy).Some?
    ensures History(file, calls, policy).value == PosixHistory(file, calls)
    decreases |calls|
  {
    if calls != [] {
      CallAgrees(file, calls[0], policy);
      hide Perform, PosixPerform, Ordinary;
      HistoryAgrees(Perform(file, calls[0], policy).value.1, calls[1..], policy);
    }
  }

  /** The same with offsets a caller can check: all below 10^10. */
  lemma SmallHistoryAgrees(file: seq<Byte>, calls: seq<Call>, policy: Policy)
    requires forall i :: 0 <= i < |calls| ==> 1 <= |Bytes(calls[i])| < 0x8000_0000
    requires forall i :: 0 <= i < |calls| ==> calls[i].offset + |Bytes(calls[i])| <= 10_000_000_000
    ensures forall i :: 0 <= i < |calls| ==> Ordinary(calls[i])
    ensures History(file, calls, policy).Some? ==> History(file, calls, policy).value == PosixHistory(file, calls)
  {
    forall i | 0 <= i < |calls|
      ensures Ordinary(calls[i])
    {
      TenDigitsFit(calls[i].offset, |Bytes(calls[i])|);
    }
    hide Ordinary, Bytes;
    if History(file, calls, policy).Some? {
      HistoryAgrees(file, calls, policy);
    }
  }

  // ---------------------------------------------------------------- the numbers returned

  /** A size returned as an int is the one int that differs from it by a multiple of 2^32. */
  lemma Int32Exactly(n: nat, r: int)
    ensures ToInt32(n) == r <==> -0x8000_0000 <= r < 0x8000_0000 && (n - r) % 0x1_0000_0000 == 0
  {
  }

  /** ENOENT, EEXIST, EBUSY, EOPNOTSUPP and ENOSPC for five statuses, and EIO for everything else. */
  lemma ErrnoExactly(ex: Reply)
    ensures Errno(ex) == -2 <==> ex == Http(404)
    ensures Errno(ex) == -17 <==> ex == Http(412)
    ensures Errno(ex) == -16 <==> ex == Http(423)
    ensures Errno(ex) == -95 <==> ex == Http(501)
    ensures Errno(ex) == -28 <==> ex == Http(507)
    ensures Errno(ex) == -5 <==> ex !in [Http(404), Http(412), Http(423), Http(501), Http(507)]
  {
    var mapped := [Http(404), Http(412), Http(423), Http(501), Http(507)];
    assert ex in mapped <==> exists i :: 0 <= i < 5 && mapped[i] == ex;
  }

  /** A read whose request or answer is lost, or whose range is refused, returns -EIO and brings nothing. */
  lemma ReadFails(file: seq<Byte>, data: seq<Byte>, offset: nat, policy: Policy, link: Link)
    requires data != [] && offset < TWO_63 && offset + |data| <= TWO_63
    ensures link != Up ==> ReadOutcome(file, data, offset, policy, link) == (-5, data)
    ensures link == Up && policy == RefuseRange && ParseRange(RangeText(offset, |data|)) == None
            ==> ReadOutcome(file, data, offset, policy, link) == (-5, data)
  {
    hide RangeText, ParseRange, Received;
  }

  /** A write whose first request or answer is lost, or whose range is refused, returns -EIO. */
  lemma WriteFails(file: seq<Byte>, body: seq<Byte>, offset: nat, policy: Policy, links: Links)
    requires offset < TWO_63 && offset + |body| <= TWO_63
    ensures var o := WriteOutcome(file, body, offset, policy, links);
      && (links.put != Up ==> WriteResult(o.0, |body|) == -5)
      && (links.put == Lost ==> o.1 == file)
      && (links.put == Up && policy == RefuseRange && ParseRange(RangeText(offset, |body|)) == None
          ==> WriteResult(o.0, |body|) == -5 && o.1 == file)
  {
    hide RangeText, ParseRange, Splice, PadOutcome, ToInt32;
  }

  /** So does a write behind the end of the file of which any later request or answer is lost. */
  lemma PaddingFails(file: seq<Byte>, body: seq<Byte>, offset: nat, policy: Policy, links: Links)
    requires |file| < offset && body != [] && offset + |body| <= TWO_63 && Fits(offset, |body|)
    requires links.put == Up && GapSeen(file, offset) && links != ALL_UP
    ensures WriteResult(WriteOutcome(file, body, offset, policy, links).0, |body|) == -5
  {
    PutFits(file, body, offset, policy, Up);
    hide ParseRange, Splice, PosixWrite, Fits, Zeros, ToInt32, PutOutcome;
    if links.head == Up {
      PaddingAgrees(file, body, offset, policy, links.pad, links.again);
      PadFits(file, body, offset, policy, links.pad, links.again);
      PutReply(file, Zeros(offset - |file|), |file|, policy, links.pad);
      PutReply(file + Zeros(offset - |file|), body, offset, policy, links.again);
    }
  }

  lemma PutReply(file: seq<Byte>, body: seq<Byte>, offset: nat, policy: Policy, link: Link)
    requires offset < TWO_63 && offset + |body| <= TWO_63
    ensures link != Up ==> PutOutcome(file, body, offset, policy, link).0 == Failure
  {
    hide ServerPut;
  }
}
