/** dav_read and dav_write over ranged requests, against the bytes of the file on the server. */
module DavFile {
  import opened Buffers
  import opened Ranges

  /** What a request leaves in ex: nothing, an HTTP status, or some other failure. */
  datatype Reply = Success | Http(code: int) | Failure

  /** What the server does with a Range it cannot read. */
  datatype Policy = IgnoreRange | RefuseRange

  /** Whether a request gets through: not at all, or so that only its answer is lost. */
  datatype Link = Up | Lost | Unanswered

  /** The server's PUT with a range: it may start at the end of the file at most. */
  function ServerPut(file: seq<Byte>, text: string, body: seq<Byte>, policy: Policy): (Reply, seq<Byte>) {
    match ParseRange(text)
    case None => if policy == IgnoreRange then (Success, body) else (Http(400), file)
    case Some(r) =>
      if r.first > |file| then (Http(416), file)
      else if |body| != r.last - r.first + 1 then (Http(400), file)
      else (Success, Splice(file, r.first, body))
  }

  /** The server's GET with a range: it must start within the file. */
  function ServerGet(file: seq<Byte>, text: string, policy: Policy): (Reply, seq<Byte>) {
    match ParseRange(text)
    case None => if policy == IgnoreRange then (Success, file) else (Http(400), [])
    case Some(r) =>
      if r.first >= |file| then (Http(416), [])
      else (Success, file[r.first..Min(r.last + 1, |file|)])
  }

  function PutOutcome(file: seq<Byte>, body: seq<Byte>, offset: nat, policy: Policy, link: Link): (Reply, seq<Byte>)
    requires offset < TWO_63 && offset + |body| <= TWO_63
  {
    var (reply, file') := ServerPut(file, RangeText(offset, |body|), body, policy);
    match link
    case Up => (reply, file')
    case Lost => (Failure, file)
    case Unanswered => (Failure, file')
  }

  /** How the requests of one dav_write go: the first PUT, HEAD, the PUT of the padding, the last PUT. */
  datatype Links = Links(put: Link, head: Link, pad: Link, again: Link)

  function Zeros(n: nat): seq<Byte> {
    seq(n, i => 0)
  }

  /** What dav_write leaves in ex, and the file. */
  function WriteOutcome(file: seq<Byte>, body: seq<Byte>, offset: nat, policy: Policy, links: Links): (Reply, seq<Byte>)
    requires offset < TWO_63 && offset + |body| <= TWO_63
  {
    var (r1, f1) := PutOutcome(file, body, offset, policy, links.put);
    if r1 != Http(416) then (r1, f1)
    else if links.head != Up then (Failure, f1)
    else PadOutcome(f1, body, offset, policy, links.pad, links.again)
  }

  /** After a 416: the gap is filled by another PUT, and the first one sent again. */
  function PadOutcome(file: seq<Byte>, body: seq<Byte>, offset: nat, policy: Policy, pad: Link, again: Link): (Reply, seq<Byte>)
    requires offset < TWO_63 && offset + |body| <= TWO_63
  {
    if |file| < offset % 0x1_0000_0000 then
      var (r2, f2) := PutOutcome(file, Zeros(offset - |file|), |file|, policy, pad);
      if r2 != Success then (r2, f2) else PutOutcome(f2, body, offset, policy, again)
    else PutOutcome(file, body, offset, policy, again)
  }

  /** What dav_get leaves in ex and in the caller's memory, and what it returns: a byte count squeezed through an int. */
  function GetOutcome(file: seq<Byte>, data: seq<Byte>, offset: nat, policy: Policy, link: Link): (Reply, seq<Byte>, int)
    requires offset < TWO_63 && offset + |data| <= TWO_63
  {
    var (reply, body) := ServerGet(file, RangeText(offset, |data|), policy);
    if link != Up then (Failure, data, -1)
    else if reply != Success then (reply, data, -1)
    else if |body| > |data| then (Failure, Received(data, body), -1)
    else (Success, Received(data, body), ToInt32(|body|))
  }

  /** dav_exception_map. */
  function Errno(ex: Reply): (res: int)
    ensures res < 0
  {
    if ex.Http? then
      match ex.code
      case 404 => -2    // ENOENT
      case 412 => -17   // EEXIST
      case 423 => -16   // EBUSY
      case 501 => -95   // EOPNOTSUPP
      case 507 => -28   // ENOSPC
      case _ => -5      // EIO
    else -5
  }

  /** What dav_read returns, and the caller's memory. */
  function ReadOutcome(file: seq<Byte>, data: seq<Byte>, offset: nat, policy: Policy, link: Link): (int, seq<Byte>)
    requires offset < TWO_63 && offset + |data| <= TWO_63
  {
    if data == [] then (0, data)
    else
      var (reply, data', res) := GetOutcome(file, data, offset, policy, link);
      (if res >= 0 then res else if reply == Http(416) then 0 else Errno(reply), data')
  }

  /** A size_t returned as int. */
  function ToInt32(n: nat): int {
    var low := n % 0x1_0000_0000;
    if low < 0x8000_0000 then low else low - 0x1_0000_0000
  }

  /** What dav_write returns for size bytes, with this left in ex. */
  function WriteResult(reply: Reply, size: nat): int {
    if reply == Success then ToInt32(size) else Errno(reply)
  }

  /** How libcurl cuts a transfer into calls: the k-th call asks for, or brings, chunking(k) + 1 bytes. */
  type Chunking = nat -> nat

  class Server {
    var file: seq<Byte>
    const policy: Policy
    var ex: Reply

    constructor (file: seq<Byte>, policy: Policy)
      ensures this.file == file && this.policy == policy && ex == Success
    {
      this.file, this.policy, this.ex := file, policy, Success;
    }

    /** dav_put: libcurl reads the whole body through Buffer_fetch. */
    method Put(data: array<Byte>, size: nat, offset: nat, link: Link, chunking: Chunking) returns (res: bool)
      requires size <= data.Length && offset < TWO_63 && offset + size <= TWO_63 && ex == Success
      modifies this
      ensures (ex, file) == PutOutcome(old(file), data[..size], offset, policy, link) && res == (ex == Success)
    {
      var buf := new Buffer.InitExist(data, size, false);
      var body: seq<Byte> := [];
      var k := 0;
      while |body| < size
        invariant buf.Valid() && fresh(buf) && buf.data == data && buf.size == size && buf.offset == |body|
        invariant body == data[..|body|] && data[..] == old(data[..]) && file == old(file)
        decreases size - |body|
      {
        var ptr := new Byte[chunking(k) + 1];
        var n := buf.Fetch(ptr, chunking(k) + 1);
        body := body + ptr[..n];
        k := k + 1;
      }
      assert body == data[..size];
      if link == Lost {
        ex := Failure;
      } else {
        var (reply, file') := ServerPut(file, RangeText(offset, size), body, policy);
        file := file';
        ex := if link == Up then reply else Failure;
      }
      res := ex == Success;
    }

    /** dav_head. */
    method Head(link: Link) returns (res: bool, size: nat)
      requires ex == Success
      modifies this`ex
      ensures res == (ex == Success) == (link == Up) && (res ==> size == |file|) && (!res ==> ex == Failure)
    {
      ex := if link == Up then Success else Failure;
      res, size := link == Up, |file|;
    }

    /** dav_write. */
    method DavWrite(buf: array<Byte>, size: nat, offset: nat, links: Links, chunking: Chunking) returns (res: int)
      requires size <= buf.Length && offset < TWO_63 && offset + size <= TWO_63 && ex == Success
      modifies this
      ensures ex == Success
      ensures var (reply, file') := WriteOutcome(old(file), buf[..size], offset, policy, links);
        file == file' && res == WriteResult(reply, size)
    {
      hide PutOutcome;
      var done := Put(buf, size, offset, links.put, chunking);
      if !done && ex == Http(416) {
        ex := Success;
        var known, realSize := Head(links.head);
        done := known;
        if known {
          if realSize < offset % 0x1_0000_0000 {
            var padding := new Byte[offset - realSize](_ => 0);
            assert padding[..padding.Length] == Zeros(offset - realSize);
            done := Put(padding, padding.Length, realSize, links.pad, chunking);
          }
          if done {
            done := Put(buf, size, offset, links.again, chunking);
          }
        }
      }
      if !done {
        res := Errno(ex);
        ex := Success;
      } else {
        res := ToInt32(size);
      }
    }

    /** dav_get: libcurl writes the answer through Buffer_append, and gives up when not all of it is taken. */
    method Get(data: array<Byte>, size: nat, offset: nat, link: Link, chunking: Chunking) returns (res: int)
      requires size <= data.Length && size >= 1 && offset < TWO_63 && offset + size <= TWO_63 && ex == Success
      modifies this`ex, data
      ensures (ex, data[..size], res) == GetOutcome(file, old(data[..size]), offset, policy, link)
      ensures data[size..] == old(data[size..])
    {
      var (reply, body) := ServerGet(file, RangeText(offset, size), policy);
      var count, refused := 0, false;
      if link == Up && reply == Success {
        count, refused := Deliver(data, size, body, chunking);
      }
      ex := if link != Up || refused then Failure else reply;
      res := if ex == Success then ToInt32(count) else -1;
    }

    /** dav_read. */
    method DavRead(buf: array<Byte>, size: nat, offset: nat, link: Link, chunking: Chunking) returns (res: int)
      requires size <= buf.Length && offset < TWO_63 && offset + size <= TWO_63 && ex == Success
      modifies this`ex, buf
      ensures ex == Success && buf[size..] == old(buf[size..])
      ensures (res, buf[..size]) == ReadOutcome(file, old(buf[..size]), offset, policy, link)
    {
      if size == 0 {
        return 0;
      }
      res := Get(buf, size, offset, link, chunking);
      if res < 0 {
        res := if ex == Http(416) then 0 else Errno(ex);
        ex := Success;
      }
    }
  }

  /** What a fixed buffer over this memory holds after the transfer of the body. */
  function Received(data: seq<Byte>, body: seq<Byte>): (r: seq<Byte>)
    ensures |r| == |data|
  {
    if |body| > |data| then body[..|data|] else Splice(data, 0, body)
  }

  lemma ReceivedIsAppended(data: seq<Byte>, body: seq<Byte>)
    ensures Appended(View(data, 0, false), body, true) == View(Received(data, body), Min(|body|, |data|), false)
  {
    var n := Min(|body|, |data|);
    assert data[..0] + body[..n] + After(data, n) == body[..n] + After(data, n);
    if |body| <= |data| {
      assert body[..n] == body;
    }
  }

  method Piece(body: seq<Byte>, sent: nat, n: nat) returns (ptr: array<Byte>)
    requires sent + n <= |body|
    ensures fresh(ptr) && ptr[..] == body[sent..sent + n] && ptr.Length == n
  {
    ptr := new Byte[n](i requires 0 <= i < n && sent + n <= |body| => body[sent + i]);
  }

  /** libcurl's part of dav_get. */
  method Deliver(data: array<Byte>, size: nat, body: seq<Byte>, chunking: Chunking) returns (count: nat, refused: bool)
    requires size <= data.Length
    modifies data
    ensures data[..size] == Received(old(data[..size]), body) && data[size..] == old(data[size..])
    ensures refused == (|body| > size) && (!refused ==> count == |body|)
  {
    var buf := new Buffer.InitExist(data, size, false);
    ghost var v := buf.Contents();
    AppendNothing(v, true);
    hide Appended, Received;
    var sent;
    sent, refused := SendAll(buf, v, body, data[size..], chunking);
    DeliveryEnds(v, body, sent, size, buf.Contents());
    count := buf.offset;
  }

  /** The size of a call: at least one byte, and no more than is left. */
  function Bounded(wish: nat, left: nat): (n: nat)
    requires left >= 1
    ensures 1 <= n <= left
  {
    if wish < left then wish + 1 else left
  }

  /** A fixed buffer that held v at first and was sent these bytes; tail is the memory behind it. */
  ghost predicate Sending(buf: Buffer, v: View, sofar: seq<Byte>, tail: seq<Byte>)
    reads buf, buf.data
  {
    && buf.Valid() && !buf.extensible && v.offset == 0 && !v.extensible && buf.size == |v.bytes|
    && buf.Contents() == Appended(v, sofar, true) && buf.data[buf.size..] == tail
  }

  method SendAll(buf: Buffer, ghost v: View, body: seq<Byte>, ghost tail: seq<Byte>, chunking: Chunking)
    returns (sent: nat, refused: bool)
    requires Sending(buf, v, [], tail)
    modifies buf, buf.data
    ensures sent <= |body| && (sent == |body| || sent > |v.bytes|) && (refused <==> sent > |v.bytes|)
    ensures buf.data == old(buf.data) && Sending(buf, v, body[..sent], tail)
  {
    hide Sending;
    assert body[..0] == [];
    var k := 0;
    sent, refused := 0, false;
    while sent < |body| && !refused
      invariant sent <= |body| && (refused <==> sent > |v.bytes|)
      invariant buf.data == old(buf.data) && Sending(buf, v, body[..sent], tail)
      decreases |body| - sent
    {
      var n := Bounded(chunking(k), |body| - sent);
      refused := OneMore(buf, v, body, sent, n, tail);
      sent, k := sent + n, k + 1;
    }
  }

  lemma DeliveryEnds(v: View, body: seq<Byte>, sent: nat, size: nat, w: View)
    requires v.offset == 0 && |v.bytes| == size && !v.extensible && sent <= |body| && (sent == |body| || sent > size)
    requires w == Appended(v, body[..sent], true)
    ensures w.bytes == Received(v.bytes, body) && w.offset == Min(|body|, size)
  {
    Settled(v, body, sent, size);
    ReceivedIsAppended(v.bytes, body);
    hide *;
  }

  lemma Settled(v: View, body: seq<Byte>, sent: nat, size: nat)
    requires v.offset == 0 && |v.bytes| == size && !v.extensible && sent <= |body| && (sent == |body| || sent > size)
    ensures Appended(v, body[..sent], true) == Appended(v, body, true)
  {
    assert body[..sent][..Min(sent, size)] == body[..Min(|body|, size)];
  }

  lemma NextBytes(v: View, body: seq<Byte>, sent: nat, n: nat)
    requires sent + n <= |body| && sent <= |v.bytes| && v.offset == 0 && !v.extensible
    ensures Appended(v, body[..sent], true).offset == sent && !Appended(v, body[..sent + n], true).extensible
    ensures Appended(Appended(v, body[..sent], true), body[sent..sent + n], true) == Appended(v, body[..sent + n], true)
  {
    hide Appended;
    FixedOffset(v, body[..sent]);
    FixedOffset(v, body[..sent + n]);
    AppendTwice(v, body[..sent], body[sent..sent + n], true);
    assert body[..sent] + body[sent..sent + n] == body[..sent + n];
  }

  lemma FixedOffset(v: View, x: seq<Byte>)
    requires v.offset == 0 && !v.extensible
    ensures Appended(v, x, true).offset == Min(|x|, |v.bytes|) && !Appended(v, x, true).extensible
  {
    hide Splice;
  }

  method OneMore(buf: Buffer, ghost v: View, body: seq<Byte>, sent: nat, n: nat, ghost tail: seq<Byte>)
    returns (refused: bool)
    requires sent + n <= |body| && n > 0 && sent <= |v.bytes| && Sending(buf, v, body[..sent], tail)
    modifies buf, buf.data
    ensures buf.data == old(buf.data) && Sending(buf, v, body[..sent + n], tail)
    ensures refused <==> sent + n > |v.bytes|
  {
    hide Appended;
    NextBytes(v, body, sent, n);
    var ptr := Piece(body, sent, n);
    assert ptr[..n] == ptr[..];
    var taken, _ := buf.Append(ptr, n, true);
    refused := taken < n;
  }
}
