/** struct Buffer: the place libcurl's read and write callbacks copy bytes from and to. */
module Buffers {
  type Byte = x: int | 0 <= x < 256 witness 0

  /** What a Buffer holds: all its bytes, how far it has been filled or read, and whether it may grow. */
  datatype View = View(bytes: seq<Byte>, offset: nat, extensible: bool)

  function Min(a: nat, b: nat): nat {
    if a < b then a else b
  }

  /** How many of n bytes an append takes; granted says whether realloc succeeds. */
  function Taken(v: View, n: nat, granted: bool): nat
    requires v.offset <= |v.bytes|
  {
    if v.extensible && granted then n else Min(n, |v.bytes| - v.offset)
  }

  function After(s: seq<Byte>, i: nat): seq<Byte> {
    if i < |s| then s[i..] else []
  }

  /** x written over s at position at, which s reaches; s grows if x goes beyond its end. */
  function Splice(s: seq<Byte>, at: nat, x: seq<Byte>): seq<Byte>
    requires at <= |s|
  {
    s[..at] + x + After(s, at + |x|)
  }

  lemma SameAround(s: seq<Byte>, t: seq<Byte>, at: nat, x: seq<Byte>)
    requires at <= |s| && at <= |t| && s[..at] == t[..at] && After(s, at + |x|) == After(t, at + |x|)
    ensures Splice(s, at, x) == Splice(t, at, x)
  {
  }

  lemma SpliceLength(s: seq<Byte>, at: nat, x: seq<Byte>)
    requires at <= |s|
    ensures |Splice(s, at, x)| == if at + |x| > |s| then at + |x| else |s|
  {
  }

  lemma SpliceTwice(s: seq<Byte>, at: nat, x: seq<Byte>, y: seq<Byte>)
    requires at <= |s|
    ensures Splice(Splice(s, at, x), at + |x|, y) == Splice(s, at, x + y)
  {
    var u, p := Splice(s, at, x), s[..at];
    assert u[..at + |x|] == p + x;
    assert After(u, at + |x| + |y|) == After(s, at + |x| + |y|);
    assert p + x + y == p + (x + y);
  }

  function Appended(v: View, chunk: seq<Byte>, granted: bool): View
    requires v.offset <= |v.bytes|
  {
    var n := Taken(v, |chunk|, granted);
    View(Splice(v.bytes, v.offset, chunk[..n]), v.offset + n, v.extensible)
  }

  lemma AppendNothing(v: View, granted: bool)
    requires v.offset <= |v.bytes|
    ensures Appended(v, [], granted) == v
  {
    assert v.bytes[..v.offset] + [] + After(v.bytes, v.offset) == v.bytes;
  }

  lemma AppendedIs(v: View, chunk: seq<Byte>, granted: bool, w: View)
    requires v.offset <= |v.bytes| && w.extensible == v.extensible
    requires var n := Taken(v, |chunk|, granted);
      n <= |chunk| && w.offset == v.offset + n && w.bytes == Splice(v.bytes, v.offset, chunk[..n])
    ensures w == Appended(v, chunk, granted)
  {
    hide Splice, Taken;
  }

  function Fetched(v: View, n: nat): seq<Byte>
    requires v.offset <= |v.bytes|
  {
    v.bytes[v.offset..v.offset + Min(n, |v.bytes| - v.offset)]
  }

  class Buffer {
    var data: array<Byte>
    var size: nat
    var offset: nat
    var extensible: bool

    ghost predicate Valid()
      reads this
    {
      offset <= size <= data.Length
    }

    ghost function Contents(): View
      requires Valid()
      reads this, data
    {
      View(data[..size], offset, extensible)
    }

    /** Buffer_init_exist: over memory of the caller. */
    constructor InitExist(data: array<Byte>, size: nat, extensible: bool)
      requires size <= data.Length
      ensures Valid() && this.data == data && this.size == size && offset == 0 && this.extensible == extensible
    {
      this.data, this.size, this.offset, this.extensible := data, size, 0, extensible;
    }

    /** Buffer_resize; granted says whether realloc succeeds, and raised that it did not. */
    method Resize(newSize: nat, granted: bool) returns (r: nat, raised: bool)
      requires Valid() && newSize > size
      modifies this`data, this`size
      ensures Valid() && offset == old(offset) && extensible == old(extensible)
      ensures r == size == if extensible && granted then newSize else old(size)
      ensures raised <==> extensible && !granted
      ensures data[..old(size)] == old(data[..size])
      ensures data == old(data) || fresh(data)
      ensures !extensible ==> data == old(data)
    {
      raised := false;
      if extensible {
        if !granted {
          raised := true;
        } else {
          var newData := new Byte[newSize];
          forall i | 0 <= i < size {
            newData[i] := data[i];
          }
          size := newSize;
          data := newData;
        }
      }
      return size, raised;
    }

    /** memcpy to the end of what is filled. */
    method Copy(ptr: array<Byte>, n: nat)
      requires Valid() && n <= ptr.Length && ptr != data && offset + n <= size
      modifies data
      ensures data[..size] == Splice(old(data[..size]), offset, ptr[..n])
      ensures data[size..] == old(data[size..])
    {
      forall i | 0 <= i < n {
        data[offset + i] := ptr[i];
      }
      assert data[..size] == old(data[..offset]) + ptr[..n] + old(data[offset + n..size]);
      assert old(data[..size])[..offset] == old(data[..offset]);
    }

    /** How many of nmemb bytes there is room for, growing if need be. */
    method Reserve(nmemb: nat, granted: bool, ghost chunk: seq<Byte>) returns (n: nat, raised: bool)
      requires Valid() && |chunk| == nmemb
      modifies this`data, this`size
      ensures Valid() && offset == old(offset) && extensible == old(extensible) && offset + n <= size
      ensures (data == old(data) || fresh(data)) && (!extensible ==> data == old(data) && size == old(size))
      ensures n == Taken(old(Contents()), nmemb, granted) && n <= nmemb
      ensures raised <==> extensible && !granted && offset + nmemb > old(size)
      ensures Splice(data[..size], offset, chunk[..n]) == Splice(old(data[..size]), offset, chunk[..n])
    {
      n, raised := nmemb, false;
      var newSize := offset + nmemb;
      if newSize > size {
        var r;
        r, raised := Resize(newSize, granted);
        n := r - offset;
        assert data[..offset] == data[..old(size)][..offset];
        SameAround(data[..size], old(data[..size]), offset, chunk[..n]);
      }
    }

    /** Buffer_append, the write callback; raised says that a refused realloc has left an exception pending. */
    method Append(ptr: array<Byte>, nmemb: nat, granted: bool) returns (n: nat, raised: bool)
      requires Valid() && nmemb <= ptr.Length && ptr != data
      modifies this, data
      ensures Valid() && (data == old(data) || fresh(data)) && (!extensible ==> data == old(data) && size == old(size))
      ensures n == Taken(old(Contents()), nmemb, granted)
      ensures raised <==> extensible && !granted && old(offset) + nmemb > old(size)
      ensures Contents() == Appended(old(Contents()), old(ptr[..nmemb]), granted)
      ensures !extensible ==> data[size..] == old(data[size..])
    {
      n, raised := nmemb, false;
      if nmemb == 0 {
        AppendNothing(Contents(), granted);
        return;
      }
      hide Splice, Taken, Appended;
      ghost var was, chunk := Contents(), ptr[..nmemb];
      n, raised := Reserve(nmemb, granted, chunk);
      assert ptr[..n] == chunk[..n];
      Copy(ptr, n);
      offset := offset + n;
      AppendedIs(was, chunk, granted, Contents());
    }

    /** Buffer_fetch, the read callback. */
    method Fetch(ptr: array<Byte>, nitems: nat) returns (n: nat)
      requires Valid() && nitems <= ptr.Length && ptr != data
      modifies this`offset, ptr
      ensures Valid() && n == |Fetched(old(Contents()), nitems)| && offset == old(offset) + n
      ensures ptr[..n] == Fetched(old(Contents()), nitems) && ptr[n..] == old(ptr[n..])
    {
      n := nitems;
      if nitems == 0 {
        return;
      }
      if offset + nitems > size {
        n := size - offset;
      }
      forall i | 0 <= i < n {
        ptr[i] := data[offset + i];
      }
      offset := offset + n;
    }
  }

  // ---------------------------------------------------------------- any way of cutting the data into chunks

  /** One call of the write callback: its bytes, and whether a realloc it needs succeeds. */
  datatype Chunk = Chunk(bytes: seq<Byte>, granted: bool)

  function Flatten(chunks: seq<Chunk>): seq<Byte> {
    if chunks == [] then [] else chunks[0].bytes + Flatten(chunks[1..])
  }

  function AppendAll(v: View, chunks: seq<Chunk>): (w: View)
    requires v.offset <= |v.bytes|
    ensures v.offset <= w.offset <= |w.bytes| && w.extensible == v.extensible
    ensures w.bytes[..v.offset] == v.bytes[..v.offset]
    decreases |chunks|
  {
    if chunks == [] then v
    else
      var u := Appended(v, chunks[0].bytes, chunks[0].granted);
      assert u.bytes[..v.offset] == v.bytes[..v.offset];
      var w := AppendAll(u, chunks[1..]);
      assert w.bytes[..v.offset] == w.bytes[..u.offset][..v.offset];
      w
  }

  predicate AllGranted(chunks: seq<Chunk>) {
    forall i :: 0 <= i < |chunks| ==> chunks[i].granted
  }

  lemma PrefixOfConcat(a: seq<Byte>, b: seq<Byte>, n: nat, m: nat)
    requires n <= |a| && m <= |b| && (n == |a| || m == 0)
    ensures (a + b)[..n + m] == a[..n] + b[..m]
  {
  }

  lemma TakenTwice(v: View, u: View, a: nat, b: nat, granted: bool)
    requires v.offset <= |v.bytes| && u.offset == v.offset + Taken(v, a, granted) && u.extensible == v.extensible
    requires |u.bytes| == if u.offset > |v.bytes| then u.offset else |v.bytes|
    ensures Taken(v, a + b, granted) == Taken(v, a, granted) + Taken(u, b, granted)
    ensures Taken(v, a, granted) == a || (Taken(v, a, granted) < a && Taken(u, b, granted) == 0)
    ensures Taken(v, a, granted) <= a && Taken(u, b, granted) <= b
  {
  }

  lemma SplicePrefixes(s: seq<Byte>, at: nat, a: seq<Byte>, b: seq<Byte>, n: nat, m: nat)
    requires at <= |s| && n <= |a| && m <= |b| && (n == |a| || m == 0)
    ensures Splice(Splice(s, at, a[..n]), at + n, b[..m]) == Splice(s, at, (a + b)[..n + m])
  {
    PrefixOfConcat(a, b, n, m);
    SpliceTwice(s, at, a[..n], b[..m]);
  }

  lemma TakenBoth(v: View, u: View, a: seq<Byte>, b: seq<Byte>, granted: bool)
    requires v.offset <= |v.bytes| && u == Appended(v, a, granted)
    ensures Taken(v, |a| + |b|, granted) == Taken(v, |a|, granted) + Taken(u, |b|, granted)
    ensures Taken(v, |a|, granted) == |a| || Taken(u, |b|, granted) == 0
    ensures Taken(v, |a|, granted) <= |a| && Taken(u, |b|, granted) <= |b|
  {
    SpliceLength(v.bytes, v.offset, a[..Taken(v, |a|, granted)]);
    hide Splice;
    TakenTwice(v, u, |a|, |b|, granted);
  }

  lemma AppendedBoth(v: View, u: View, a: seq<Byte>, b: seq<Byte>, granted: bool, n: nat, m: nat)
    requires v.offset <= |v.bytes| && u == Appended(v, a, granted) && n <= |a| && m <= |b|
    requires n == Taken(v, |a|, granted) && m == Taken(u, |b|, granted) && Taken(v, |a| + |b|, granted) == n + m
    requires Splice(Splice(v.bytes, v.offset, a[..n]), v.offset + n, b[..m]) == Splice(v.bytes, v.offset, (a + b)[..n + m])
    ensures Appended(u, b, granted) == Appended(v, a + b, granted)
  {
    hide Splice, Taken, After;
  }

  /** Two appends are one append of both: what does not fit the first time does not fit then either. */
  lemma AppendTwice(v: View, a: seq<Byte>, b: seq<Byte>, granted: bool)
    requires v.offset <= |v.bytes|
    ensures Appended(Appended(v, a, granted), b, granted) == Appended(v, a + b, granted)
  {
    var u := Appended(v, a, granted);
    TakenBoth(v, u, a, b, granted);
    hide *;
    var n, m := Taken(v, |a|, granted), Taken(u, |b|, granted);
    SplicePrefixes(v.bytes, v.offset, a, b, n, m);
    AppendedBoth(v, u, a, b, granted, n, m);
  }

  /** However the bytes are cut into calls, the buffer ends as after one call with all of them. */
  lemma {:induction false} ChunkingIndependent(v: View, chunks: seq<Chunk>)
    requires v.offset <= |v.bytes| && (!v.extensible || AllGranted(chunks))
    ensures AppendAll(v, chunks) == Appended(v, Flatten(chunks), true)
    decreases |chunks|
  {
    if chunks == [] {
      AppendNothing(v, true);
    } else {
      var u := Appended(v, chunks[0].bytes, chunks[0].granted);
      assert u == Appended(v, chunks[0].bytes, true);
      ChunkingIndependent(u, chunks[1..]);
      AppendTwice(v, chunks[0].bytes, Flatten(chunks[1..]), true);
    }
  }

  /** A fixed buffer of the caller's memory: the first bytes that fit, in order, and the rest of it untouched. */
  lemma FixedKeepsFirst(v: View, chunks: seq<Chunk>)
    requires v.offset == 0 && !v.extensible
    ensures var w, all := AppendAll(v, chunks), Flatten(chunks);
      && w.offset == Min(|all|, |v.bytes|) && |w.bytes| == |v.bytes|
      && w.bytes[..w.offset] == all[..w.offset] && w.bytes[w.offset..] == v.bytes[w.offset..]
  {
    ChunkingIndependent(v, chunks);
  }

  /** An extensible buffer: every byte, in order, while it can grow. */
  lemma ExtensibleKeepsAll(v: View, chunks: seq<Chunk>)
    requires v.offset <= |v.bytes| && v.extensible && AllGranted(chunks)
    ensures var w := AppendAll(v, chunks); w.bytes[..w.offset] == v.bytes[..v.offset] + Flatten(chunks)
  {
    ChunkingIndependent(v, chunks);
    assert Flatten(chunks)[..|Flatten(chunks)|] == Flatten(chunks);
  }

  function Sum(sizes: seq<nat>): nat {
    if sizes == [] then 0 else sizes[0] + Sum(sizes[1..])
  }

  /** What calls of the read callback for these numbers of bytes deliver, one after the other. */
  function FetchAll(v: View, sizes: seq<nat>): seq<Byte>
    requires v.offset <= |v.bytes|
    decreases |sizes|
  {
    if sizes == [] then [] else Fetched(v, sizes[0]) + FetchAll(Advanced(v, sizes[0]), sizes[1..])
  }

  /** The buffer behind a fetch. */
  function Advanced(v: View, n: nat): (w: View)
    requires v.offset <= |v.bytes|
    ensures w.offset <= |w.bytes|
  {
    v.(offset := v.offset + |Fetched(v, n)|)
  }

  /** Fetches concatenate to what is left, up to the sum of their sizes. */
  lemma {:induction false} FetchAllIsPrefix(v: View, sizes: seq<nat>)
    requires v.offset <= |v.bytes|
    ensures FetchAll(v, sizes) == Fetched(v, Sum(sizes))
    decreases |sizes|
  {
    hide Fetched, Advanced;
    if sizes == [] {
      FetchNothing(v);
    } else {
      FetchAllIsPrefix(Advanced(v, sizes[0]), sizes[1..]);
      FetchTwice(v, sizes[0], Sum(sizes[1..]));
    }
  }

  lemma FetchNothing(v: View)
    requires v.offset <= |v.bytes|
    ensures Fetched(v, 0) == []
  {
  }

  lemma FetchTwice(v: View, n: nat, m: nat)
    requires v.offset <= |v.bytes|
    ensures Fetched(v, n) + Fetched(Advanced(v, n), m) == Fetched(v, n + m)
  {
  }
}
