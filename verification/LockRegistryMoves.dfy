/** Each kind of move of dav_lock and dav_unlock, and what it does to the accounts of entries, counts and tokens. */
module LockRegistryMoves {
  import opened Options
  import opened LockRegistry

  // ---------------------------------------------------------------- moves that change no account

  ghost predicate SameParts(s: State, s': State) {
    && s'.tree == s.tree && s'.heap == s.heap && s'.nextRef == s.nextRef
    && s'.active == s.active && s'.nextToken == s.nextToken && s'.orphans == s.orphans
    && s'.open == s.open && s'.nextTicket == s.nextTicket && s'.fault == s.fault && s'.missing == s.missing
  }

  ghost predicate OnlyMoved(s: State, s': State, t: Thread) {
    forall u: Thread :: u != t ==> At(s', u) == At(s, u)
  }

  ghost predicate SameClaims(l: Local, l': Local) {
    forall p: Path :: Claiming(l', p) == Claiming(l, p)
  }

  ghost predicate SameRole(l: Local, l': Local) {
    && SameClaims(l, l')
    && (forall p: Path :: Collecting(l', p) == Collecting(l, p))
    && Unlinked(l') == Unlinked(l) && Inserting(l') == Inserting(l)
    && (forall r: Ref :: Sent(l', r) == Sent(l, r))
  }

  lemma ClaimsFrame(s: State, s': State, t: Thread)
    requires s'.open == s.open && OnlyMoved(s, s', t) && SameClaims(At(s, t), At(s', t))
    ensures forall p: Path :: Claims(s', p) == Claims(s, p)
  {
    forall p: Path
      ensures Claims(s', p) == Claims(s, p)
    {
      forall c: Claim
        ensures Counts(s', p, c) == Counts(s, p, c)
      {
      }
    }
  }

  lemma RefsFrame(s: State, s': State, t: Thread, refs: map<Ref, RefPlace>)
    requires RefsOk(s, refs) && OnlyMoved(s, s', t) && Unlinked(At(s', t)) == Unlinked(At(s, t))
    requires s'.tree == s.tree && s'.nextRef == s.nextRef && s'.heap.Keys == s.heap.Keys
    requires forall r: Ref :: r in s.heap ==> s'.heap[r].path == s.heap[r].path
    ensures RefsOk(s', refs)
  {
    assert forall r: Ref :: r in s'.heap <==> r in s'.heap.Keys;
    assert forall r: Ref :: r in s.heap <==> r in s.heap.Keys;
  }

  lemma AnswersFrame(s: State, s': State, t: Thread)
    requires OnlyMoved(s, s', t) && s'.heap.Keys == s.heap.Keys
    requires forall r: Ref :: Sent(At(s', t), r) == Sent(At(s, t), r)
    ensures forall r: Ref :: Answers(s', r) <==> Answers(s, r)
  {
    forall r: Ref
      ensures Answers(s', r) <==> Answers(s, r)
    {
      assert r in s'.heap <==> r in s'.heap.Keys;
      assert r in s.heap <==> r in s.heap.Keys;
      forall u: Thread
        ensures Sent(At(s', u), r) == Sent(At(s, u), r)
      {
      }
    }
  }

  lemma TokensFrame(s: State, s': State, t: Thread, tokens: map<Token, TokenPlace>)
    requires TokensOk(s, tokens) && OnlyMoved(s, s', t) && s'.heap.Keys == s.heap.Keys
    requires forall r: Ref :: Sent(At(s', t), r) == Sent(At(s, t), r)
    requires Inserting(At(s', t)) == Inserting(At(s, t))
    requires s'.active == s.active && s'.nextToken == s.nextToken && s'.orphans == s.orphans
    requires forall r: Ref :: r in s.heap ==> s'.heap[r].token == s.heap[r].token && s'.heap[r].path == s.heap[r].path
    ensures TokensOk(s', tokens)
  {
    AnswersFrame(s, s', t);
    assert forall u: Thread :: Inserting(At(s', u)) == Inserting(At(s, u));
  }

  /** The part of a role that entries and tokens depend on. */
  ghost predicate SamePlace(l: Local, l': Local) {
    Unlinked(l') == Unlinked(l) && Inserting(l') == Inserting(l) && forall r: Ref :: Sent(l', r) == Sent(l, r)
  }

  /** Only counts may change in the heap. */
  ghost predicate SameEntries(s: State, s': State) {
    && s'.tree == s.tree && s'.nextRef == s.nextRef && s'.heap.Keys == s.heap.Keys
    && s'.active == s.active && s'.nextToken == s.nextToken && s'.orphans == s.orphans
    && s'.fault == s.fault && s'.missing == s.missing
    && forall r: Ref :: r in s.heap ==> s'.heap[r].token == s.heap[r].token && s'.heap[r].path == s.heap[r].path
  }

  lemma PlacesFrame(s: State, s': State, t: Thread, refs: map<Ref, RefPlace>, tokens: map<Token, TokenPlace>)
    requires PlacesOk(s, refs, tokens) && SameEntries(s, s') && OnlyMoved(s, s', t)
    requires SamePlace(At(s, t), At(s', t)) && LocksOk(s') && LocalOk(s', At(s', t))
    ensures PlacesOk(s', refs, tokens)
  {
    RefsFrame(s, s', t, refs);
    TokensFrame(s, s', t, tokens);
    LocalsFrame(s, s', t);
  }

  lemma LocalsFrame(s: State, s': State, t: Thread)
    requires (forall u: Thread :: LocalOk(s, At(s, u))) && OnlyMoved(s, s', t)
    requires s'.tree == s.tree && s'.active == s.active && LocalOk(s', At(s', t))
    ensures forall u: Thread :: LocalOk(s', At(s', u))
  {
    forall u: Thread
      ensures LocalOk(s', At(s', u))
    {
      assert LocalOk(s, At(s, u));
    }
  }

  /** Moves that leave every account as it is: only the position changes, and perhaps the reader/writer lock. */
  lemma RoleMove(s: State, s': State, t: Thread, refs: map<Ref, RefPlace>, tokens: map<Token, TokenPlace>)
    requires Inv(s, refs, tokens) && SameParts(s, s') && OnlyMoved(s, s', t)
    requires SameRole(At(s, t), At(s', t)) && LocksOk(s') && LocalOk(s', At(s', t))
    ensures Inv(s', refs, tokens)
  {
    PlacesFrame(s, s', t, refs, tokens);
    ClaimsFrame(s, s', t);
    CountsSame(s, s');
    CollectorsFrame(s, s', t);
  }

  lemma CollectorsFrame(s: State, s': State, t: Thread)
    requires CollectorsOk(s) && OnlyMoved(s, s', t) && s'.tree == s.tree && s'.heap == s.heap
    requires forall p: Path :: Collecting(At(s, t), p) ==> Collecting(At(s', t), p)
    ensures CollectorsOk(s')
  {
    forall p: Path | p in s'.tree && s'.tree[p] in s'.heap && s'.heap[s'.tree[p]].cnt <= 0
      ensures exists u: Thread :: Collecting(At(s', u), p)
    {
      var u: Thread :| Collecting(At(s, u), p);
      assert Collecting(At(s', u), p);
    }
  }

  /** The holder of the write lock is alone. */
  lemma WriterAlone(s: State, t: Thread)
    requires LocksOk(s) && InWrite(At(s, t))
    ensures s.writer == Some(t) && s.readers == {}
    ensures forall u: Thread :: u != t ==> !InRead(At(s, u)) && !InWrite(At(s, u))
  {
    assert s.writer == Some(t);
    forall u: Thread | u != t
      ensures !InRead(At(s, u)) && !InWrite(At(s, u))
    {
      assert u in s.readers <==> InRead(At(s, u));
      assert s.writer == Some(u) <==> InWrite(At(s, u));
    }
  }

  lemma EnterRead(s: State, t: Thread, l: Local)
    requires LocksOk(s) && s.writer == None && !InRead(At(s, t)) && !InWrite(At(s, t)) && InRead(l) && !InWrite(l)
    ensures LocksOk(Put(s.(readers := s.readers + {t}), t, l))
  {
    var s' := Put(s.(readers := s.readers + {t}), t, l);
    forall u: Thread
      ensures u in s'.readers <==> InRead(At(s', u))
      ensures s'.writer == Some(u) <==> InWrite(At(s', u))
    {
      assert u in s.readers <==> InRead(At(s, u));
      assert s.writer == Some(u) <==> InWrite(At(s, u));
    }
  }

  lemma LeaveRead(s: State, t: Thread, l: Local)
    requires LocksOk(s) && InRead(At(s, t)) && !InWrite(At(s, t)) && !InRead(l) && !InWrite(l)
    ensures LocksOk(Put(s.(readers := s.readers - {t}), t, l))
  {
    var s' := Put(s.(readers := s.readers - {t}), t, l);
    forall u: Thread
      ensures u in s'.readers <==> InRead(At(s', u))
      ensures s'.writer == Some(u) <==> InWrite(At(s', u))
    {
      assert u in s.readers <==> InRead(At(s, u));
      assert s.writer == Some(u) <==> InWrite(At(s, u));
    }
  }

  lemma EnterWrite(s: State, t: Thread, l: Local)
    requires LocksOk(s) && s.writer == None && s.readers == {} && !InRead(At(s, t)) && InWrite(l) && !InRead(l)
    ensures LocksOk(Put(s.(writer := Some(t)), t, l))
  {
    var s' := Put(s.(writer := Some(t)), t, l);
    forall u: Thread
      ensures u in s'.readers <==> InRead(At(s', u))
      ensures s'.writer == Some(u) <==> InWrite(At(s', u))
    {
      assert u in s.readers <==> InRead(At(s, u));
      assert s.writer == Some(u) <==> InWrite(At(s, u));
    }
  }

  lemma LeaveWrite(s: State, t: Thread, l: Local)
    requires LocksOk(s) && InWrite(At(s, t)) && !InRead(l) && !InWrite(l)
    ensures LocksOk(Put(s.(writer := None), t, l))
  {
    var s' := Put(s.(writer := None), t, l);
    WriterAlone(s, t);
    forall u: Thread
      ensures u in s'.readers <==> InRead(At(s', u))
      ensures s'.writer == Some(u) <==> InWrite(At(s', u))
    {
      assert u in s.readers <==> InRead(At(s, u));
      assert s.writer == Some(u) <==> InWrite(At(s, u));
    }
  }

  lemma StayLocked(s: State, s': State, t: Thread)
    requires LocksOk(s) && s'.readers == s.readers && s'.writer == s.writer && OnlyMoved(s, s', t)
    requires InRead(At(s', t)) == InRead(At(s, t)) && InWrite(At(s', t)) == InWrite(At(s, t))
    ensures LocksOk(s')
  {
    forall u: Thread
      ensures u in s'.readers <==> InRead(At(s', u))
      ensures s'.writer == Some(u) <==> InWrite(At(s', u))
    {
      assert u in s.readers <==> InRead(At(s, u));
      assert s.writer == Some(u) <==> InWrite(At(s, u));
    }
  }

  // ---------------------------------------------------------------- moves that change who counts

  lemma ClaimsOnlyOne(l: Local, p: Path, q: Path)
    requires Claiming(l, p)
    ensures Claiming(l, q) <==> q == p
  {
  }

  lemma AddFlyingAt(s: State, s': State, t: Thread, p: Path, q: Path)
    requires s'.open == s.open && OnlyMoved(s, s', t)
    requires !Claiming(At(s, t), q) && Claiming(At(s', t), p)
    ensures Flying(t) !in Claims(s, q)
    ensures Claims(s', q) == if q == p then Claims(s, q) + {Flying(t)} else Claims(s, q)
  {
    ClaimsOnlyOne(At(s', t), p, q);
    forall c: Claim
      ensures Counts(s', q, c) <==> Counts(s, q, c) || (c == Flying(t) && q == p)
    {
      if c.Flying? && c.t != t {
        assert At(s', c.t) == At(s, c.t);
      }
    }
    assert !Counts(s, q, Flying(t));
  }

  lemma AddFlying(s: State, s': State, t: Thread, p: Path)
    requires s'.open == s.open && OnlyMoved(s, s', t)
    requires (forall q: Path :: !Claiming(At(s, t), q)) && Claiming(At(s', t), p)
    ensures |Claims(s', p)| == |Claims(s, p)| + 1
    ensures forall q: Path :: q != p ==> Claims(s', q) == Claims(s, q)
  {
    forall q: Path
      ensures q != p ==> Claims(s', q) == Claims(s, q)
      ensures q == p ==> |Claims(s', q)| == |Claims(s, q)| + 1
    {
      AddFlyingAt(s, s', t, p, q);
    }
  }

  lemma ReturnTicketAt(s: State, s': State, t: Thread, p: Path, k: Ticket, q: Path)
    requires s'.open == s.open[k := p] && k !in s.open && OnlyMoved(s, s', t)
    requires Claiming(At(s, t), p) && !Claiming(At(s', t), q)
    ensures |Claims(s', q)| == |Claims(s, q)|
    ensures q != p ==> Claims(s', q) == Claims(s, q)
  {
    var mid := s'.(open := s.open);
    assert At(mid, t) == At(s', t);
    AddFlyingAt(mid, s, t, p, q);
    OpenOne(mid, s', p, k, q);
  }

  lemma OpenOne(s: State, s': State, p: Path, k: Ticket, q: Path)
    requires s'.open == s.open[k := p] && k !in s.open && s'.locals == s.locals
    ensures Open(k) !in Claims(s, q)
    ensures Claims(s', q) == if q == p then Claims(s, q) + {Open(k)} else Claims(s, q)
  {
    forall c: Claim
      ensures Counts(s', q, c) <==> Counts(s, q, c) || (c == Open(k) && q == p)
    {
      if c.Flying? {
        assert At(s', c.t) == At(s, c.t);
      }
    }
    assert !Counts(s, q, Open(k));
  }

  /** A call under way becomes an open file. */
  lemma ReturnTicket(s: State, s': State, t: Thread, p: Path, k: Ticket)
    requires s'.open == s.open[k := p] && k !in s.open && OnlyMoved(s, s', t)
    requires Claiming(At(s, t), p) && (forall q: Path :: !Claiming(At(s', t), q))
    ensures forall q: Path :: |Claims(s', q)| == |Claims(s, q)|
    ensures forall q: Path :: q != p ==> Claims(s', q) == Claims(s, q)
  {
    forall q: Path
      ensures |Claims(s', q)| == |Claims(s, q)|
      ensures q != p ==> Claims(s', q) == Claims(s, q)
    {
      ReturnTicketAt(s, s', t, p, k, q);
    }
  }

  lemma TakeTicket(s: State, s': State, t: Thread, p: Path, k: Ticket)
    requires k in s.open && s.open[k] == p && s'.open == s.open - {k} && OnlyMoved(s, s', t)
    requires (forall q: Path :: !Claiming(At(s, t), q)) && Claiming(At(s', t), p)
    ensures forall q: Path :: |Claims(s', q)| == |Claims(s, q)|
    ensures forall q: Path :: q != p ==> Claims(s', q) == Claims(s, q)
  {
    assert s.open == s'.open[k := p];
    ReturnTicket(s', s, t, p, k);
  }

  lemma CountsSame(s: State, s': State)
    requires CountsOk(s) && s'.tree == s.tree && s'.heap == s.heap
    requires forall q: Path :: |Claims(s', q)| == |Claims(s, q)|
    requires forall k: Ticket :: k in s'.open ==> k < s'.nextTicket
    ensures CountsOk(s')
  {
    forall p: Path | p !in s'.tree
      ensures Claims(s', p) == {}
    {
      assert |Claims(s, p)| == 0;
    }
  }

  /** dav_lock returns: the state with the lock already released is s1. */
  lemma OpenedKeeps(s: State, s1: State, t: Thread, p: Path, refs: map<Ref, RefPlace>, tokens: map<Token, TokenPlace>)
    requires Inv(s, refs, tokens) && SameParts(s, s1) && s1.locals == s.locals
    requires At(s, t) == LockRdOut(p, true) || At(s, t) == LockWrOut(p, true)
    requires LocksOk(Put(s1, t, Idle))
    ensures Inv(Opened(s1, t, p), refs, tokens)
  {
    var s' := Opened(s1, t, p);
    assert OnlyMoved(s, s', t);
    ReturnTicket(s, s', t, p, s.nextTicket);
    CountsSame(s, s');
    LocksSameLocals(Put(s1, t, Idle), s');
    PlacesFrame(s, s', t, refs, tokens);
    CollectorsFrame(s, s', t);
  }

  lemma LocksSameLocals(a: State, b: State)
    requires LocksOk(a) && b.readers == a.readers && b.writer == a.writer && b.locals == a.locals
    ensures LocksOk(b)
  {
    assert forall u: Thread :: At(b, u) == At(a, u);
  }

  lemma CallUnlockKeeps(s: State, s': State, t: Thread, k: Ticket, refs: map<Ref, RefPlace>, tokens: map<Token, TokenPlace>)
    requires Inv(s, refs, tokens) && At(s, t) == Idle && k in s.open && SameEntries(s, s') && s'.heap == s.heap
    requires s'.open == s.open - {k} && s'.nextTicket == s.nextTicket
    requires s'.readers == s.readers && s'.writer == s.writer
    requires OnlyMoved(s, s', t) && At(s', t) == UnlockRd(s.open[k])
    ensures Inv(s', refs, tokens)
  {
    TakeTicket(s, s', t, s.open[k], k);
    CountsSame(s, s');
    StayLocked(s, s', t);
    PlacesFrame(s, s', t, refs, tokens);
    CollectorsFrame(s, s', t);
  }

  /** The count of the entry for p goes up with one more call that counts. */
  lemma CountUpParts(s: State, s': State, t: Thread, p: Path, refs: map<Ref, RefPlace>)
    requires RefsOk(s, refs) && CountsOk(s) && CollectorsOk(s) && p in s.tree && SameEntries(s, s')
    requires s'.open == s.open && s'.nextTicket == s.nextTicket
    requires s'.heap == s.heap[s.tree[p] := s.heap[s.tree[p]].(cnt := s.heap[s.tree[p]].cnt + 1)]
    requires OnlyMoved(s, s', t)
    requires (forall q: Path :: !Claiming(At(s, t), q) && !Collecting(At(s, t), q)) && Claiming(At(s', t), p)
    ensures CountsOk(s') && CollectorsOk(s')
  {
    hide CollectorsOk;
    AddFlying(s, s', t, p);
    CountsMove(s, s', p, 1, refs);
    assert s.heap[s.tree[p]].cnt == |Claims(s, p)|;
    CountUpCollectors(s, s', t, p, refs);
  }

  lemma CountUpKeeps(s: State, s': State, t: Thread, p: Path, refs: map<Ref, RefPlace>, tokens: map<Token, TokenPlace>)
    requires Inv(s, refs, tokens) && p in s.tree && SameEntries(s, s')
    requires s'.open == s.open && s'.nextTicket == s.nextTicket
    requires s'.heap == s.heap[s.tree[p] := s.heap[s.tree[p]].(cnt := s.heap[s.tree[p]].cnt + 1)]
    requires OnlyMoved(s, s', t)
    requires (forall q: Path :: !Claiming(At(s, t), q) && !Collecting(At(s, t), q)) && Claiming(At(s', t), p)
    requires SamePlace(At(s, t), At(s', t)) && LocksOk(s') && LocalOk(s', At(s', t))
    ensures Inv(s', refs, tokens)
  {
    hide RefsOk, TokensOk, LocksOk, LocalOk, CountsOk, CollectorsOk;
    PlacesFrame(s, s', t, refs, tokens);
    CountUpParts(s, s', t, p, refs);
  }

  lemma CountUpCollectors(s: State, s': State, t: Thread, p: Path, refs: map<Ref, RefPlace>)
    requires CollectorsOk(s) && RefsOk(s, refs) && p in s.tree && OnlyMoved(s, s', t)
    requires s'.tree == s.tree && s'.heap.Keys == s.heap.Keys && s'.heap[s.tree[p]].cnt > 0
    requires forall r: Ref :: r in s.heap && r != s.tree[p] ==> s'.heap[r] == s.heap[r]
    requires forall q: Path :: !Collecting(At(s, t), q)
    ensures CollectorsOk(s')
  {
    forall q: Path | q in s'.tree && s'.tree[q] in s'.heap && s'.heap[s'.tree[q]].cnt <= 0
      ensures exists u: Thread :: Collecting(At(s', u), q)
    {
      assert refs[s.tree[q]] == Linked(q);
      assert refs[s.tree[p]] == Linked(p);
      var u: Thread :| Collecting(At(s, u), q);
      assert Collecting(At(s', u), q);
    }
  }

  /** The count of the entry for p and those who count for p change by the same amount. */
  lemma CountsMove(s: State, s': State, p: Path, d: int, refs: map<Ref, RefPlace>)
    requires CountsOk(s) && RefsOk(s, refs) && p in s.tree
    requires s'.tree == s.tree && s'.open == s.open && s'.nextTicket == s.nextTicket && s'.heap.Keys == s.heap.Keys
    requires forall r: Ref :: r in s.heap ==> s'.heap[r].cnt == s.heap[r].cnt + if r == s.tree[p] then d else 0
    requires |Claims(s', p)| == |Claims(s, p)| + d
    requires forall q: Path :: q != p ==> Claims(s', q) == Claims(s, q)
    ensures CountsOk(s')
  {
    forall q: Path | q in s'.tree && s'.tree[q] in s'.heap
      ensures s'.heap[s'.tree[q]].cnt == |Claims(s', q)|
    {
      assert s.tree[q] in s.heap.Keys;
      assert refs[s.tree[q]] == Linked(q);
      assert refs[s.tree[p]] == Linked(p);
    }
  }

  /** --filelock->cnt: one call less that counts; when nobody is left, this thread is the collector. */
  lemma CountDownParts(s: State, s': State, t: Thread, p: Path, refs: map<Ref, RefPlace>)
    requires RefsOk(s, refs) && CountsOk(s) && CollectorsOk(s) && p in s.tree && SameEntries(s, s')
    requires s'.open == s.open && s'.nextTicket == s.nextTicket
    requires s'.heap == s.heap[s.tree[p] := s.heap[s.tree[p]].(cnt := s.heap[s.tree[p]].cnt - 1)]
    requires OnlyMoved(s, s', t) && Claiming(At(s, t), p)
    requires forall q: Path :: !Claiming(At(s', t), q) && !Collecting(At(s, t), q)
    requires s'.heap[s.tree[p]].cnt <= 0 ==> Collecting(At(s', t), p)
    ensures CountsOk(s') && CollectorsOk(s')
  {
    hide CollectorsOk;
    AddFlying(s', s, t, p);
    CountsMove(s, s', p, -1, refs);
    CountDownCollectors(s, s', t, p, refs);
  }

  lemma CountDownKeeps(s: State, s': State, t: Thread, p: Path, refs: map<Ref, RefPlace>, tokens: map<Token, TokenPlace>)
    requires Inv(s, refs, tokens) && p in s.tree && SameEntries(s, s')
    requires s'.open == s.open && s'.nextTicket == s.nextTicket
    requires s'.heap == s.heap[s.tree[p] := s.heap[s.tree[p]].(cnt := s.heap[s.tree[p]].cnt - 1)]
    requires OnlyMoved(s, s', t) && Claiming(At(s, t), p)
    requires forall q: Path :: !Claiming(At(s', t), q) && !Collecting(At(s, t), q)
    requires s'.heap[s.tree[p]].cnt <= 0 ==> Collecting(At(s', t), p)
    requires SamePlace(At(s, t), At(s', t)) && LocksOk(s') && LocalOk(s', At(s', t))
    ensures Inv(s', refs, tokens)
  {
    hide RefsOk, TokensOk, LocksOk, LocalOk, CountsOk, CollectorsOk;
    PlacesFrame(s, s', t, refs, tokens);
    CountDownParts(s, s', t, p, refs);
  }

  lemma CountDownCollectors(s: State, s': State, t: Thread, p: Path, refs: map<Ref, RefPlace>)
    requires CollectorsOk(s) && RefsOk(s, refs) && p in s.tree && OnlyMoved(s, s', t)
    requires s'.tree == s.tree && s'.heap.Keys == s.heap.Keys
    requires s'.heap[s.tree[p]].cnt <= 0 ==> Collecting(At(s', t), p)
    requires forall r: Ref :: r in s.heap && r != s.tree[p] ==> s'.heap[r] == s.heap[r]
    requires forall q: Path :: !Collecting(At(s, t), q)
    ensures CollectorsOk(s')
  {
    forall q: Path | q in s'.tree && s'.tree[q] in s'.heap && s'.heap[s'.tree[q]].cnt <= 0
      ensures exists u: Thread :: Collecting(At(s', u), q)
    {
      assert refs[s.tree[q]] == Linked(q);
      if q == p {
        assert Collecting(At(s', t), p);
      } else {
        assert refs[s.tree[p]] == Linked(p);
        var u: Thread :| Collecting(At(s, u), q);
        assert Collecting(At(s', u), q);
      }
    }
  }

  /** Whoever counts for p has an entry to count in. */
  lemma ClaimHasEntry(s: State, t: Thread, p: Path)
    requires CountsOk(s) && Claiming(At(s, t), p)
    ensures p in s.tree
  {
    assert Counts(s, p, Flying(t));
    assert Flying(t) in Claims(s, p);
  }

  // ---------------------------------------------------------------- entries and tokens come and go

  /** LOCK is granted: the token is carried to the insertion, or orphaned with the rejected reply. */
  lemma GrantKeeps(s: State, s': State, t: Thread, p: Path, refs: map<Ref, RefPlace>, tokens: map<Token, TokenPlace>)
    requires Inv(s, refs, tokens) && At(s, t) == LockRequest(p) && OnlyMoved(s, s', t)
    requires s'.tree == s.tree && s'.heap == s.heap && s'.nextRef == s.nextRef && s'.open == s.open
    requires s'.nextTicket == s.nextTicket && s'.fault == s.fault && s'.missing == s.missing
    requires s'.readers == s.readers && s'.writer == s.writer
    requires s'.active == s.active[s.nextToken := p] && s'.nextToken == s.nextToken + 1
    requires if At(s', t) == LockInsert(p, s.nextToken) then s'.orphans == s.orphans
             else At(s', t) == LockWrOut(p, false) && s'.orphans == s.orphans + {s.nextToken}
    ensures Inv(s', refs, tokens[s.nextToken := if At(s', t).LockInsert? then Carried(t) else Orphaned])
  {
    StayLocked(s, s', t);
    RefsFrame(s, s', t, refs);
    GrantTokens(s, s', t, p, tokens);
    assert LocalOk(s, At(s, t));
    forall u: Thread
      ensures LocalOk(s', At(s', u))
    {
      assert LocalOk(s, At(s, u));
    }
    ClaimsFrame(s, s', t);
    CountsSame(s, s');
    CollectorsFrame(s, s', t);
  }

  lemma GrantTokens(s: State, s': State, t: Thread, p: Path, tokens: map<Token, TokenPlace>)
    requires TokensOk(s, tokens) && At(s, t) == LockRequest(p) && OnlyMoved(s, s', t) && s'.heap == s.heap
    requires s'.active == s.active[s.nextToken := p] && s'.nextToken == s.nextToken + 1
    requires if At(s', t) == LockInsert(p, s.nextToken) then s'.orphans == s.orphans
             else At(s', t) == LockWrOut(p, false) && s'.orphans == s.orphans + {s.nextToken}
    ensures TokensOk(s', tokens[s.nextToken := if At(s', t).LockInsert? then Carried(t) else Orphaned])
  {
    hide StoredOk;
    AnswersFrame(s, s', t);
    assert s.nextToken !in tokens;
    assert s.nextToken !in s.orphans;
    StoredFrame(s, s', tokens, tokens[s.nextToken := if At(s', t).LockInsert? then Carried(t) else Orphaned], s.nextToken);
    assert forall u: Thread :: Inserting(At(s, u)) != Some(s.nextToken);
  }

  /** The entries that answer for tokens stay, and the token that moves was and is not stored. */
  lemma AnswersInHeap(s: State)
    ensures forall r: Ref :: Answers(s, r) ==> r in s.heap
  {
  }

  lemma StoredFrame(s: State, s': State, tokens: map<Token, TokenPlace>, tokens': map<Token, TokenPlace>, tok: Token)
    requires StoredOk(s, tokens) && tokens' - {tok} == tokens - {tok}
    requires tok in tokens ==> !tokens[tok].Stored?
    requires tok in tokens' ==> !tokens'[tok].Stored?
    requires forall r: Ref :: Answers(s', r) <==> Answers(s, r)
    requires forall r: Ref :: Answers(s, r) ==> r in s'.heap && s'.heap[r] == s.heap[r]
    requires forall x :: x in s.active && x != tok ==> x in s'.active && s'.active[x] == s.active[x]
    ensures StoredOk(s', tokens')
  {
    AnswersInHeap(s);
    hide Answers;
    assert forall x :: x != tok ==> (x in tokens' <==> x in tokens' - {tok}) && (x in tokens <==> x in tokens - {tok});
    assert forall x :: x in tokens' - {tok} ==> tokens'[x] == tokens[x];
  }

  lemma InsertKeeps(s: State, s': State, t: Thread, p: Path, tok: Token, refs: map<Ref, RefPlace>, tokens: map<Token, TokenPlace>)
    requires Inv(s, refs, tokens) && At(s, t) == LockInsert(p, tok) && At(s', t) == LockWrOut(p, true) && OnlyMoved(s, s', t)
    requires s'.tree == s.tree[p := s.nextRef] && s'.heap == s.heap[s.nextRef := FileLock(p, tok, 1)]
    requires s'.nextRef == s.nextRef + 1 && s'.open == s.open && s'.nextTicket == s.nextTicket
    requires s'.active == s.active && s'.nextToken == s.nextToken && s'.orphans == s.orphans
    requires s'.fault == s.fault && s'.missing == s.missing && s'.readers == s.readers && s'.writer == s.writer
    ensures Inv(s', refs[s.nextRef := Linked(p)], tokens[tok := Stored(s.nextRef)])
  {
    assert LocalOk(s, At(s, t));
    InsertPlaces(s, s', t, p, tok, refs, tokens);
    InsertCounts(s, s', t, p, tok, refs);
    InsertCollectors(s, s', t, p, refs);
  }

  lemma InsertPlaces(s: State, s': State, t: Thread, p: Path, tok: Token, refs: map<Ref, RefPlace>, tokens: map<Token, TokenPlace>)
    requires PlacesOk(s, refs, tokens) && At(s, t) == LockInsert(p, tok) && At(s', t) == LockWrOut(p, true)
    requires OnlyMoved(s, s', t)
    requires s'.tree == s.tree[p := s.nextRef] && s'.heap == s.heap[s.nextRef := FileLock(p, tok, 1)]
    requires s'.nextRef == s.nextRef + 1
    requires s'.active == s.active && s'.nextToken == s.nextToken && s'.orphans == s.orphans
    requires s'.fault == s.fault && s'.missing == s.missing && s'.readers == s.readers && s'.writer == s.writer
    ensures PlacesOk(s', refs[s.nextRef := Linked(p)], tokens[tok := Stored(s.nextRef)])
  {
    assert LocalOk(s, At(s, t));
    StayLocked(s, s', t);
    InsertRefs(s, s', t, p, tok, refs);
    InsertTokens(s, s', t, p, tok, refs, tokens);
    InsertLocals(s, s', t, p);
  }

  lemma InsertCollectors(s: State, s': State, t: Thread, p: Path, refs: map<Ref, RefPlace>)
    requires CollectorsOk(s) && RefsOk(s, refs) && OnlyMoved(s, s', t) && s.nextRef in s'.heap
    requires s'.tree == s.tree[p := s.nextRef] && s'.heap == s.heap[s.nextRef := s'.heap[s.nextRef]]
    requires s'.heap[s.nextRef].cnt > 0 && forall q: Path :: !Collecting(At(s, t), q)
    ensures CollectorsOk(s')
  {
    forall q: Path | q in s'.tree && s'.tree[q] in s'.heap && s'.heap[s'.tree[q]].cnt <= 0
      ensures exists u: Thread :: Collecting(At(s', u), q)
    {
      assert q != p && s.tree[q] in s.heap && s.tree[q] != s.nextRef;
      var u: Thread :| Collecting(At(s, u), q);
      assert Collecting(At(s', u), q);
    }
  }

  lemma InsertRefs(s: State, s': State, t: Thread, p: Path, tok: Token, refs: map<Ref, RefPlace>)
    requires RefsOk(s, refs) && p !in s.tree && OnlyMoved(s, s', t)
    requires Unlinked(At(s, t)) == None && Unlinked(At(s', t)) == None
    requires s'.tree == s.tree[p := s.nextRef] && s'.heap == s.heap[s.nextRef := FileLock(p, tok, 1)]
    requires s'.nextRef == s.nextRef + 1
    ensures RefsOk(s', refs[s.nextRef := Linked(p)])
  {
    assert s.nextRef !in refs;
    assert forall u: Thread :: Unlinked(At(s', u)) == Unlinked(At(s, u));
    assert forall u: Thread :: Unlinked(At(s, u)) != Some(s.nextRef);
    InsertLinked(s, s', p, tok, refs);
    hide LinkedOk;
  }

  lemma InsertLinked(s: State, s': State, p: Path, tok: Token, refs: map<Ref, RefPlace>)
    requires LinkedOk(s, refs) && p !in s.tree && s.nextRef !in refs && s.nextRef !in s.heap
    requires s'.tree == s.tree[p := s.nextRef] && s'.heap == s.heap[s.nextRef := FileLock(p, tok, 1)]
    ensures LinkedOk(s', refs[s.nextRef := Linked(p)])
  {
    assert forall q: Path :: q in s.tree ==> s.tree[q] != s.nextRef;
  }

  lemma InsertTokens(s: State, s': State, t: Thread, p: Path, tok: Token, refs: map<Ref, RefPlace>, tokens: map<Token, TokenPlace>)
    requires TokensOk(s, tokens) && RefsOk(s, refs) && At(s, t) == LockInsert(p, tok) && At(s', t) == LockWrOut(p, true)
    requires OnlyMoved(s, s', t) && s.active.Keys >= {tok} && s.active[tok] == p
    requires s'.heap == s.heap[s.nextRef := FileLock(p, tok, 1)]
    requires s'.active == s.active && s'.nextToken == s.nextToken && s'.orphans == s.orphans
    ensures TokensOk(s', tokens[tok := Stored(s.nextRef)])
  {
    hide StoredOk;
    InsertStored(s, s', t, p, tok, refs, tokens);
    CarriedEnds(s, s', t, tok, tokens, Stored(s.nextRef));
  }

  /** The token a thread carried is put elsewhere. */
  lemma CarriedEnds(s: State, s': State, t: Thread, tok: Token, tokens: map<Token, TokenPlace>, place: TokenPlace)
    requires CarriedOk(s, tokens) && Inserting(At(s, t)) == Some(tok) && Inserting(At(s', t)) == None && OnlyMoved(s, s', t)
    requires !place.Carried?
    ensures tok in tokens && tokens[tok] == Carried(t)
    ensures CarriedOk(s', tokens[tok := place])
  {
    assert tok in tokens && tokens[tok] == Carried(t);
    forall u: Thread, x: Token
      ensures Inserting(At(s', u)) == Some(x) <==> Inserting(At(s, u)) == Some(x) && x != tok
    {
      assert Inserting(At(s, u)) == Some(tok) ==> tokens[tok] == Carried(u);
    }
  }

  lemma InsertStored(s: State, s': State, t: Thread, p: Path, tok: Token, refs: map<Ref, RefPlace>, tokens: map<Token, TokenPlace>)
    requires StoredOk(s, tokens) && CarriedOk(s, tokens) && RefsOk(s, refs)
    requires At(s, t) == LockInsert(p, tok) && At(s', t) == LockWrOut(p, true)
    requires OnlyMoved(s, s', t) && s.active.Keys >= {tok} && s.active[tok] == p
    requires s'.heap == s.heap[s.nextRef := FileLock(p, tok, 1)] && s'.active == s.active
    ensures StoredOk(s', tokens[tok := Stored(s.nextRef)])
  {
    assert Inserting(At(s, t)) == Some(tok);
    assert tok in tokens && tokens[tok] == Carried(t);
    assert s.nextRef !in s.heap;
    forall r: Ref
      ensures Answers(s', r) <==> Answers(s, r) || r == s.nextRef
    {
      InsertAnswers(s, s', t, r, refs);
    }
    InsertStoredLedger(s, s', p, tok, tokens);
  }

  lemma InsertStoredLedger(s: State, s': State, p: Path, tok: Token, tokens: map<Token, TokenPlace>)
    requires StoredOk(s, tokens) && tok in tokens && tokens[tok].Carried?
    requires tok in s.active && s.active[tok] == p && s.nextRef !in s.heap
    requires forall r: Ref :: Answers(s', r) <==> Answers(s, r) || r == s.nextRef
    requires s'.heap == s.heap[s.nextRef := FileLock(p, tok, 1)] && s'.active == s.active
    ensures StoredOk(s', tokens[tok := Stored(s.nextRef)])
  {
    assert Answers(s', s.nextRef);
    assert forall r: Ref :: Answers(s, r) ==> r in s.heap;
    hide Answers;
    assert forall r: Ref :: Answers(s, r) ==> s.heap[r].token != tok;
  }

  lemma InsertAnswers(s: State, s': State, t: Thread, r: Ref, refs: map<Ref, RefPlace>)
    requires RefsOk(s, refs) && OnlyMoved(s, s', t) && s'.heap.Keys == s.heap.Keys + {s.nextRef}
    requires !Sent(At(s, t), r) && !Sent(At(s', t), r)
    ensures Answers(s', r) <==> Answers(s, r) || r == s.nextRef
  {
    assert r in s'.heap <==> r in s'.heap.Keys;
    assert r in s.heap <==> r in s.heap.Keys;
    forall u: Thread
      ensures Sent(At(s', u), r) == Sent(At(s, u), r)
      ensures r == s.nextRef ==> !Sent(At(s, u), r)
    {
      if Sent(At(s, u), r) {
        assert Unlinked(At(s, u)) == Some(r);
      }
    }
  }

  lemma InsertLocals(s: State, s': State, t: Thread, p: Path)
    requires LocksOk(s) && InWrite(At(s, t)) && OnlyMoved(s, s', t) && LocalOk(s', At(s', t))
    requires forall u: Thread :: LocalOk(s, At(s, u))
    ensures forall u: Thread :: LocalOk(s', At(s', u))
  {
    WriterAlone(s, t);
    forall u: Thread
      ensures LocalOk(s', At(s', u))
    {
      if u != t {
        assert !InRead(At(s, u)) && !InWrite(At(s, u));
      }
    }
  }

  lemma InsertCounts(s: State, s': State, t: Thread, p: Path, tok: Token, refs: map<Ref, RefPlace>)
    requires CountsOk(s) && RefsOk(s, refs) && p !in s.tree && OnlyMoved(s, s', t)
    requires At(s, t) == LockInsert(p, tok) && At(s', t) == LockWrOut(p, true)
    requires s'.tree == s.tree[p := s.nextRef] && s'.heap == s.heap[s.nextRef := FileLock(p, tok, 1)]
    requires s'.open == s.open && s'.nextTicket == s.nextTicket
    ensures CountsOk(s')
  {
    AddFlying(s, s', t, p);
    assert |Claims(s, p)| == 0;
    forall q: Path | q in s'.tree && s'.tree[q] in s'.heap
      ensures s'.heap[s'.tree[q]].cnt == |Claims(s', q)|
    {
      if q != p {
        assert s.tree[q] in s.heap && s.tree[q] != s.nextRef;
      }
    }
  }

  /** The insertion fails: the lock just granted stays on the server with nobody to release it. */
  lemma InsertFailsKeeps(s: State, s': State, t: Thread, p: Path, tok: Token, refs: map<Ref, RefPlace>, tokens: map<Token, TokenPlace>)
    requires Inv(s, refs, tokens) && At(s, t) == LockInsert(p, tok) && At(s', t) == LockWrOut(p, false) && OnlyMoved(s, s', t)
    requires SameParts(s.(orphans := s.orphans + {tok}), s') && s'.readers == s.readers && s'.writer == s.writer
    ensures Inv(s', refs, tokens[tok := Orphaned])
  {
    StayLocked(s, s', t);
    RefsFrame(s, s', t, refs);
    InsertFailsTokens(s, s', t, p, tok, tokens);
    LocalsFrame(s, s', t);
    ClaimsFrame(s, s', t);
    CountsSame(s, s');
    CollectorsFrame(s, s', t);
  }

  lemma InsertFailsTokens(s: State, s': State, t: Thread, p: Path, tok: Token, tokens: map<Token, TokenPlace>)
    requires TokensOk(s, tokens) && At(s, t) == LockInsert(p, tok) && At(s', t) == LockWrOut(p, false) && OnlyMoved(s, s', t)
    requires s'.heap == s.heap && s'.active == s.active && s'.nextToken == s.nextToken && s'.orphans == s.orphans + {tok}
    ensures TokensOk(s', tokens[tok := Orphaned])
  {
    AnswersFrame(s, s', t);
    hide Answers;
    CarriedEnds(s, s', t, tok, tokens, Orphaned);
  }

  /** The entry leaves the table and belongs to this thread from now on. */
  lemma CollectKeeps(s: State, s': State, t: Thread, p: Path, refs: map<Ref, RefPlace>, tokens: map<Token, TokenPlace>)
    requires Inv(s, refs, tokens) && At(s, t).UnlockRecheck? && At(s, t).p == p && Collectable(s, p)
    requires OnlyMoved(s, s', t) && At(s', t) == UnlockWrOut(p, Some(s.tree[p]))
    requires SameParts(s.(tree := s.tree - {p}), s') && s'.readers == s.readers && s'.writer == s.writer
    ensures Inv(s', refs[s.tree[p] := Taken(t)], tokens)
  {
    StayLocked(s, s', t);
    CollectRefs(s, s', t, p, refs);
    TokensFrame(s, s', t, tokens);
    CollectLocals(s, s', t);
    ClaimsFrame(s, s', t);
    assert Claims(s, p) == {};
    CollectCounts(s, s', p);
    CollectCollectors(s, s', t, p);
  }

  lemma CollectRefs(s: State, s': State, t: Thread, p: Path, refs: map<Ref, RefPlace>)
    requires RefsOk(s, refs) && p in s.tree && OnlyMoved(s, s', t)
    requires Unlinked(At(s, t)) == None && Unlinked(At(s', t)) == Some(s.tree[p])
    requires s'.tree == s.tree - {p} && s'.heap == s.heap && s'.nextRef == s.nextRef
    ensures RefsOk(s', refs[s.tree[p] := Taken(t)])
  {
    hide Unlinked;
    var r := s.tree[p];
    assert refs[r] == Linked(p);
    assert forall q: Path :: q in s.tree && s.tree[q] == r ==> refs[r] == Linked(q);
    assert forall u: Thread :: Unlinked(At(s, u)) == Some(r) ==> refs[r] == Taken(u);
    assert forall u: Thread :: u != t ==> Unlinked(At(s', u)) == Unlinked(At(s, u));
  }

  lemma CollectLocals(s: State, s': State, t: Thread)
    requires LocksOk(s) && InWrite(At(s, t)) && OnlyMoved(s, s', t) && LocalOk(s', At(s', t))
    requires forall u: Thread :: LocalOk(s, At(s, u))
    ensures forall u: Thread :: LocalOk(s', At(s', u))
  {
    InsertLocals(s, s', t, 0);
  }

  lemma CollectCounts(s: State, s': State, p: Path)
    requires CountsOk(s) && Claims(s, p) == {} && s'.tree == s.tree - {p} && s'.heap == s.heap
    requires s'.open == s.open && s'.nextTicket == s.nextTicket
    requires forall q: Path :: Claims(s', q) == Claims(s, q)
    ensures CountsOk(s')
  {
  }

  lemma CollectCollectors(s: State, s': State, t: Thread, p: Path)
    requires CollectorsOk(s) && OnlyMoved(s, s', t) && s'.tree == s.tree - {p} && s'.heap == s.heap
    requires forall q: Path :: Collecting(At(s, t), q) ==> q == p
    ensures CollectorsOk(s')
  {
    forall q: Path | q in s'.tree && s'.tree[q] in s'.heap && s'.heap[s'.tree[q]].cnt <= 0
      ensures exists u: Thread :: Collecting(At(s', u), q)
    {
      var u: Thread :| Collecting(At(s, u), q);
      assert Collecting(At(s', u), q);
    }
  }

  /** The second look finds the entry in use again, or gone: with the variable cleared, nothing is left to do. */
  lemma LeaveAloneKeeps(s: State, s': State, t: Thread, p: Path, refs: map<Ref, RefPlace>, tokens: map<Token, TokenPlace>)
    requires Inv(s, refs, tokens) && At(s, t).UnlockRecheck? && At(s, t).p == p && !Collectable(s, p)
    requires OnlyMoved(s, s', t) && At(s', t) == UnlockWrOut(p, None)
    requires SameParts(s, s') && s'.readers == s.readers && s'.writer == s.writer
    ensures Inv(s', refs, tokens)
  {
    StayLocked(s, s', t);
    PlacesFrame(s, s', t, refs, tokens);
    ClaimsFrame(s, s', t);
    CountsSame(s, s');
    LeaveAloneCollectors(s, s', t, p);
  }

  lemma LeaveAloneCollectors(s: State, s': State, t: Thread, p: Path)
    requires CollectorsOk(s) && OnlyMoved(s, s', t) && s'.tree == s.tree && s'.heap == s.heap && !Collectable(s, p)
    requires forall q: Path :: Collecting(At(s, t), q) ==> q == p
    ensures CollectorsOk(s')
  {
    forall q: Path | q in s'.tree && s'.tree[q] in s'.heap && s'.heap[s'.tree[q]].cnt <= 0
      ensures exists u: Thread :: Collecting(At(s', u), q)
    {
      assert Collectable(s, q);
      var u: Thread :| Collecting(At(s, u), q);
      assert Collecting(At(s', u), q);
    }
  }

  /** UNLOCK is sent for the token of an entry that is out of the table. */
  lemma SendKeeps(s: State, s': State, t: Thread, p: Path, x: Ref, ok: bool, refs: map<Ref, RefPlace>, tokens: map<Token, TokenPlace>)
    requires Inv(s, refs, tokens) && At(s, t) == UnlockSend(p, x) && At(s', t) == UnlockFree(p, x) && OnlyMoved(s, s', t)
    requires x in s.heap && s'.heap == s.heap && s'.tree == s.tree && s'.nextRef == s.nextRef
    requires s'.open == s.open && s'.nextTicket == s.nextTicket && s'.nextToken == s.nextToken
    requires s'.fault == s.fault && s'.missing == s.missing && s'.readers == s.readers && s'.writer == s.writer
    requires if ok then s'.active == s.active - {s.heap[x].token} && s'.orphans == s.orphans
             else s'.active == s.active && s'.orphans == s.orphans + {s.heap[x].token}
    ensures Inv(s', refs, if ok then tokens - {s.heap[x].token} else tokens[s.heap[x].token := Orphaned])
  {
    SendAnswers(s, s', t, p, x, refs);
    assert tokens[s.heap[x].token] == Stored(x);
    hide RefsOk, TokensOk, LocksOk, CountsOk, CollectorsOk;
    StayLocked(s, s', t);
    RefsFrame(s, s', t, refs);
    SendTokens(s, s', t, p, x, ok, tokens);
    SendLocals(s, s', t, s.heap[x].token, x, tokens);
    ClaimsFrame(s, s', t);
    CountsSame(s, s');
    CollectorsFrame(s, s', t);
  }

  lemma SendLocals(s: State, s': State, t: Thread, tok: Token, x: Ref, tokens: map<Token, TokenPlace>)
    requires TokensOk(s, tokens) && tok in tokens && tokens[tok] == Stored(x) && OnlyMoved(s, s', t)
    requires s'.tree == s.tree && s'.active.Keys >= s.active.Keys - {tok} && LocalOk(s', At(s', t))
    requires forall y :: y in s'.active ==> y in s.active && s'.active[y] == s.active[y]
    requires forall u: Thread :: LocalOk(s, At(s, u))
    ensures forall u: Thread :: LocalOk(s', At(s', u))
  {
    forall u: Thread
      ensures LocalOk(s', At(s', u))
    {
      assert LocalOk(s, At(s, u));
      assert Inserting(At(s, u)) != Some(tok);
      assert At(s, u).LockInsert? ==> At(s, u).token in s.active.Keys - {tok};
    }
  }

  lemma SendAnswers(s: State, s': State, t: Thread, p: Path, x: Ref, refs: map<Ref, RefPlace>)
    requires RefsOk(s, refs) && At(s, t) == UnlockSend(p, x) && At(s', t) == UnlockFree(p, x) && OnlyMoved(s, s', t)
    requires x in s.heap && s'.heap == s.heap
    ensures Answers(s, x)
    ensures forall r: Ref :: Answers(s', r) <==> Answers(s, r) && r != x
  {
    assert Unlinked(At(s, t)) == Some(x);
    assert refs[x] == Taken(t);
    forall u: Thread
      ensures !Sent(At(s, u), x)
    {
      assert Sent(At(s, u), x) ==> Unlinked(At(s, u)) == Some(x);
      assert Unlinked(At(s, u)) == Some(x) ==> refs[x] == Taken(u);
    }
    assert Sent(At(s', t), x);
    forall r: Ref | r != x
      ensures Answers(s', r) <==> Answers(s, r)
    {
      forall u: Thread
        ensures Sent(At(s', u), r) == Sent(At(s, u), r)
      {
      }
    }
  }

  lemma SendStored(s: State, s': State, x: Ref, tokens: map<Token, TokenPlace>, tokens': map<Token, TokenPlace>)
    requires StoredOk(s, tokens) && Answers(s, x) && (forall r: Ref :: Answers(s', r) <==> Answers(s, r) && r != x)
    requires s'.heap == s.heap && tokens' - {s.heap[x].token} == tokens - {s.heap[x].token}
    requires s.heap[x].token in tokens' ==> tokens'[s.heap[x].token] == Orphaned
    requires forall tok :: tok in s.active && tok != s.heap[x].token ==> tok in s'.active && s'.active[tok] == s.active[tok]
    ensures s.heap[x].token in tokens && tokens[s.heap[x].token] == Stored(x)
    ensures StoredOk(s', tokens')
  {
    var tok := s.heap[x].token;
    assert tokens[tok] == Stored(x);
    assert forall y :: y != tok ==> (y in tokens' <==> y in tokens' - {tok}) && (y in tokens <==> y in tokens - {tok});
    assert forall y :: y in tokens' - {tok} ==> tokens'[y] == tokens[y];
    hide Answers;
    assert forall r: Ref :: Answers(s, r) && s.heap[r].token == tok ==> tokens[tok] == Stored(r);
  }

  lemma SendTokens(s: State, s': State, t: Thread, p: Path, x: Ref, ok: bool, tokens: map<Token, TokenPlace>)
    requires TokensOk(s, tokens) && At(s, t) == UnlockSend(p, x) && At(s', t) == UnlockFree(p, x) && OnlyMoved(s, s', t)
    requires Answers(s, x) && (forall r: Ref :: Answers(s', r) <==> Answers(s, r) && r != x)
    requires s'.heap == s.heap && s'.nextToken == s.nextToken
    requires if ok then s'.active == s.active - {s.heap[x].token} && s'.orphans == s.orphans
             else s'.active == s.active && s'.orphans == s.orphans + {s.heap[x].token}
    ensures TokensOk(s', if ok then tokens - {s.heap[x].token} else tokens[s.heap[x].token := Orphaned])
  {
    hide StoredOk;
    var tok := s.heap[x].token;
    var tokens' := if ok then tokens - {tok} else tokens[tok := Orphaned];
    assert tokens' - {tok} == tokens - {tok};
    SendStored(s, s', x, tokens, tokens');
    assert forall u: Thread :: Inserting(At(s', u)) == Inserting(At(s, u));
  }

  lemma FreeKeeps(s: State, s': State, t: Thread, p: Path, x: Ref, refs: map<Ref, RefPlace>, tokens: map<Token, TokenPlace>)
    requires Inv(s, refs, tokens) && At(s, t) == UnlockFree(p, x) && At(s', t) == Idle && OnlyMoved(s, s', t)
    requires SameParts(s.(heap := s.heap - {x}), s') && s'.readers == s.readers && s'.writer == s.writer
    ensures Inv(s', refs - {x}, tokens)
  {
    assert Unlinked(At(s, t)) == Some(x);
    assert x in refs && refs[x] == Taken(t);
    StayLocked(s, s', t);
    FreeRefs(s, s', t, x, refs);
    FreeTokens(s, s', t, x, refs, tokens);
    LocalsFrame(s, s', t);
    ClaimsFrame(s, s', t);
    FreeCounts(s, s', t, x, refs);
  }

  lemma FreeRefs(s: State, s': State, t: Thread, x: Ref, refs: map<Ref, RefPlace>)
    requires RefsOk(s, refs) && x in refs && refs[x] == Taken(t) && OnlyMoved(s, s', t)
    requires Unlinked(At(s, t)) == Some(x) && Unlinked(At(s', t)) == None
    requires s'.tree == s.tree && s'.heap == s.heap - {x} && s'.nextRef == s.nextRef
    ensures RefsOk(s', refs - {x})
  {
    assert forall u: Thread :: Unlinked(At(s, u)) == Some(x) ==> refs[x] == Taken(u);
    assert forall q: Path :: q in s.tree && s.tree[q] == x ==> refs[x] == Linked(q);
    assert forall u: Thread :: u != t ==> Unlinked(At(s', u)) == Unlinked(At(s, u));
  }

  lemma FreeTokens(s: State, s': State, t: Thread, x: Ref, refs: map<Ref, RefPlace>, tokens: map<Token, TokenPlace>)
    requires TokensOk(s, tokens) && RefsOk(s, refs) && x in refs && refs[x] == Taken(t) && OnlyMoved(s, s', t)
    requires Sent(At(s, t), x) && At(s', t) == Idle && s'.heap == s.heap - {x}
    requires s'.active == s.active && s'.nextToken == s.nextToken && s'.orphans == s.orphans
    ensures TokensOk(s', tokens)
  {
    hide StoredOk;
    FreeAnswers(s, s', t, x);
    assert s.nextToken !in tokens;
    StoredFrame(s, s', tokens, tokens, s.nextToken);
    assert forall u: Thread :: Inserting(At(s', u)) == Inserting(At(s, u));
  }

  lemma FreeAnswers(s: State, s': State, t: Thread, x: Ref)
    requires OnlyMoved(s, s', t) && Sent(At(s, t), x) && At(s', t) == Idle && s'.heap == s.heap - {x}
    ensures forall r: Ref :: Answers(s', r) <==> Answers(s, r)
  {
    forall r: Ref
      ensures Answers(s', r) <==> Answers(s, r)
    {
      if r != x {
        forall u: Thread
          ensures Sent(At(s', u), r) == Sent(At(s, u), r)
        {
        }
      }
    }
  }

  lemma FreeCounts(s: State, s': State, t: Thread, x: Ref, refs: map<Ref, RefPlace>)
    requires CountsOk(s) && CollectorsOk(s) && RefsOk(s, refs) && x in refs && refs[x] == Taken(t) && OnlyMoved(s, s', t)
    requires s'.tree == s.tree && s'.heap == s.heap - {x} && s'.open == s.open && s'.nextTicket == s.nextTicket
    requires (forall q: Path :: Claims(s', q) == Claims(s, q)) && forall q: Path :: !Collecting(At(s, t), q)
    ensures CountsOk(s') && CollectorsOk(s')
  {
    forall q: Path | q in s.tree
      ensures s.tree[q] != x
    {
      assert refs[s.tree[q]] == Linked(q);
    }
    FreeCollectors(s, s', t, x);
  }

  lemma FreeCollectors(s: State, s': State, t: Thread, x: Ref)
    requires CollectorsOk(s) && OnlyMoved(s, s', t) && s'.tree == s.tree && s'.heap == s.heap - {x}
    requires forall q: Path :: !Collecting(At(s, t), q)
    ensures CollectorsOk(s')
  {
    forall q: Path | q in s'.tree && s'.tree[q] in s'.heap && s'.heap[s'.tree[q]].cnt <= 0
      ensures exists u: Thread :: Collecting(At(s', u), q)
    {
      var u: Thread :| Collecting(At(s, u), q);
      assert Collecting(At(s', u), q);
    }
  }
}
