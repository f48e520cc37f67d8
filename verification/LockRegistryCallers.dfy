/** A discipline for callers under which the code of dav_unlock is right as it is written. */
module LockRegistryCallers {
  import opened Options
  import opened LockRegistry
  import opened LockRegistryMoves
  import opened LockRegistryRuns
  import opened LockRegistrySafety

  function PathOf(l: Local): Option<Path> {
    if l == Idle then None else Some(l.p)
  }

  /** The path of the call that a move belongs to. */
  function Touches(s: State, m: Move): Option<Path> {
    match m
    case CallLock(_, p) => Some(p)
    case CallUnlock(_, k) => if k in s.open then Some(s.open[k]) else None
    case Go(t, _) => PathOf(At(s, t))
  }

  /** A step of dav_lock or dav_unlock of a path that another thread has counted down and is about to look at again. */
  ghost predicate Interferes(s: State, m: Move) {
    Touches(s, m).Some? && exists u: Thread :: u != m.t && Collecting(At(s, u), Touches(s, m).value)
  }

  /** Between the two critical sections of a dav_unlock no call of its path is made or goes on. */
  ghost predicate Undisturbed(moves: seq<Move>)
    decreases |moves|
  {
    moves == [] ||
    var before := moves[..|moves| - 1];
    Undisturbed(before) &&
    (Run(INITIAL, before, false).Some? ==> !Interferes(Run(INITIAL, before, false).value, moves[|moves| - 1]))
  }

  /** Whoever is about to look again will find the entry as it left it. */
  ghost predicate Ready(s: State) {
    forall u: Thread, p: Path :: Collecting(At(s, u), p) ==> Collectable(s, p)
  }

  // ---------------------------------------------------------------- a step for one path leaves the others alone

  ghost predicate OthersSame(s: State, s': State, q: Path) {
    forall p: Path :: p != q && p in s.tree && s.tree[p] in s.heap ==>
      p in s'.tree && s'.tree[p] == s.tree[p] && s.tree[p] in s'.heap && s'.heap[s.tree[p]] == s.heap[s.tree[p]]
  }

  /** A step of t for q: other threads stay where they are, other entries as they are, and dav_lock never collects. */
  ghost predicate Beside(s: State, s': State, t: Thread, q: Path) {
    && OthersSame(s, s', q) && OnlyMoved(s, s', t)
    && (IsLock(At(s, t)) ==> At(s', t) == Idle || IsLock(At(s', t)))
  }

  lemma PutBeside(s: State, s1: State, t: Thread, l: Local, q: Path)
    requires OthersSame(s, s1, q) && s1.locals == s.locals && (IsLock(At(s, t)) ==> l == Idle || IsLock(l))
    ensures Beside(s, Put(s1, t, l), t, q)
  {
    Moved(s, s1, t, l);
  }

  lemma BumpSame(s: State, q: Path, d: int, refs: map<Ref, RefPlace>)
    requires RefsOk(s, refs) && q in s.tree
    ensures OthersSame(s, Bump(s, s.tree[q], d), q) && Bump(s, s.tree[q], d).locals == s.locals
  {
    assert refs[s.tree[q]] == Linked(q);
  }

  lemma EnterSame(s: State, t: Thread, p: Path, tok: Token, reply: Reply, refs: map<Ref, RefPlace>)
    requires RefsOk(s, refs)
    ensures Beside(s, Enter(s, t, p, tok, reply), t, p)
  {
    hide OnlyMoved;
    if reply == Good {
      var s1 := s.(tree := s.tree[p := s.nextRef], heap := s.heap[s.nextRef := FileLock(p, tok, 1)], nextRef := s.nextRef + 1);
      PutBeside(s, s1, t, LockWrOut(p, true), p);
    } else {
      SameKept(s, s.(orphans := s.orphans + {tok}), t, LockWrOut(p, false), p);
    }
  }

  lemma FreeSame(s: State, t: Thread, p: Path, x: Ref, refs: map<Ref, RefPlace>)
    requires RefsOk(s, refs) && At(s, t) == UnlockFree(p, x)
    ensures OthersSame(s, s.(heap := s.heap - {x}), p)
  {
    assert Unlinked(At(s, t)) == Some(x);
    assert refs[x] == Taken(t);
  }

  lemma LockSame(s: State, t: Thread, reply: Reply, refs: map<Ref, RefPlace>)
    requires RefsOk(s, refs) && LocalOk(s, At(s, t)) && StepLock(s, t, reply).Some? && IsLock(At(s, t))
    ensures Beside(s, StepLock(s, t, reply).value, t, At(s, t).p)
  {
    hide Put, Bump, Opened, Enter, OthersSame, Beside, RefsOk;
    var q := At(s, t).p;
    match At(s, t)
    case LockRd(p) => SameKept(s, s.(readers := s.readers + {t}), t, LockFind(p), q);
    case LockFind(p) => SameKept(s, s, t, if p in s.tree then LockInc(p, s.tree[p]) else LockRdOut(p, false), q);
    case LockInc(p, r) =>
      BumpSame(s, q, 1, refs);
      PutBeside(s, Bump(s, r, 1), t, LockRdOut(p, true), q);
    case LockRdOut(p, found) =>
      var s1 := s.(readers := s.readers - {t});
      if found {
        OpenedSame(s, s1, t, p, q);
      } else {
        SameKept(s, s1, t, LockAlloc(p), q);
      }
    case LockAlloc(p) => SameKept(s, s, t, if reply == Good then LockWr(p) else Idle, q);
    case LockWr(p) => SameKept(s, s.(writer := Some(t)), t, LockRecheck(p), q);
    case LockRecheck(p) =>
      if p in s.tree {
        BumpSame(s, q, 1, refs);
        PutBeside(s, Bump(s, s.tree[p], 1), t, LockWrOut(p, true), q);
      } else {
        SameKept(s, s, t, LockRequest(p), q);
      }
    case LockRequest(p) => AskSame(s, t, p, reply, q);
    case LockInsert(p, tok) => EnterSame(s, t, p, tok, reply, refs);
    case LockWrOut(p, ok) =>
      if ok {
        OpenedSame(s, s.(writer := None), t, p, q);
      } else {
        SameKept(s, s.(writer := None), t, Idle, q);
      }
  }

  lemma SameKept(s: State, s1: State, t: Thread, l: Local, q: Path)
    requires s1.tree == s.tree && s1.heap == s.heap && s1.locals == s.locals
    requires IsLock(At(s, t)) ==> l == Idle || IsLock(l)
    ensures Beside(s, Put(s1, t, l), t, q)
  {
    PutBeside(s, s1, t, l, q);
  }

  lemma OpenedSame(s: State, s1: State, t: Thread, p: Path, q: Path)
    requires s1.tree == s.tree && s1.heap == s.heap && s1.locals == s.locals
    ensures Beside(s, Opened(s1, t, p), t, q)
  {
    SameKept(s, s1.(open := s1.open[s1.nextTicket := p], nextTicket := s1.nextTicket + 1), t, Idle, q);
  }

  lemma AskSame(s: State, t: Thread, p: Path, reply: Reply, q: Path)
    requires Ask(s, t, p, reply).Some?
    ensures Beside(s, Ask(s, t, p, reply).value, t, q)
  {
    var s1 := s.(active := s.active[s.nextToken := p], nextToken := s.nextToken + 1);
    hide Beside, Grantable;
    if reply == Bad {
      SameKept(s, s, t, LockWrOut(p, false), q);
    } else if reply == Good {
      SameKept(s, s1, t, LockInsert(p, s.nextToken), q);
    } else {
      SameKept(s, s1.(orphans := s.orphans + {s.nextToken}), t, LockWrOut(p, false), q);
    }
  }

  lemma CountOffSame(s: State, t: Thread, p: Path, r: Ref, refs: map<Ref, RefPlace>)
    requires RefsOk(s, refs) && p in s.tree && s.tree[p] == r && r in s.heap && At(s, t) == UnlockDec(p, r)
    ensures Beside(s, CountOff(s, t, p, r), t, p)
    ensures var s' := CountOff(s, t, p, r); forall q: Path :: Collecting(At(s', t), q) ==> q == p && Collectable(s', q)
  {
    BumpSame(s, p, -1, refs);
    var s1 := Bump(s, r, -1);
    PutBeside(s, s1, t, UnlockRdOut(p, if s1.heap[r].cnt > 0 then None else Some(r)), p);
    hide RefsOk, Beside;
  }

  lemma CollectSame(s: State, t: Thread, p: Path, r: Ref)
    requires At(s, t) == UnlockRecheck(p, r)
    ensures var s' := Collect(s, t, p, r, false); Beside(s, s', t, p) && forall q: Path :: !Collecting(At(s', t), q)
  {
    if p in s.tree && s.tree[p] !in s.heap {
      PutBeside(s, s.(fault := true), t, UnlockWrOut(p, Some(r)), p);
    } else if Collectable(s, p) {
      PutBeside(s, s.(tree := s.tree - {p}), t, UnlockWrOut(p, Some(s.tree[p])), p);
    } else {
      PutBeside(s, s, t, UnlockWrOut(p, Some(r)), p);
    }
    hide Beside;
  }

  lemma SendSame(s: State, t: Thread, p: Path, x: Ref, reply: Reply)
    requires At(s, t) == UnlockSend(p, x)
    ensures Beside(s, SendUnlock(s, t, p, x, reply), t, p)
  {
    if x !in s.heap {
      SameKept(s, s.(fault := true), t, UnlockFree(p, x), p);
    } else if reply == Good {
      SameKept(s, s.(active := s.active - {s.heap[x].token}), t, UnlockFree(p, x), p);
    } else {
      SameKept(s, s.(orphans := s.orphans + {s.heap[x].token}), t, UnlockFree(p, x), p);
    }
    hide Beside;
  }

  lemma UnlockSame(s: State, t: Thread, reply: Reply, refs: map<Ref, RefPlace>)
    requires RefsOk(s, refs) && LocalOk(s, At(s, t)) && StepUnlock(s, t, reply, false).Some?
    requires At(s, t).UnlockDec? ==> At(s, t).r in s.heap
    requires At(s, t).UnlockFree? ==> At(s, t).x in s.heap
    ensures At(s, t) != Idle && !IsLock(At(s, t)) && Beside(s, StepUnlock(s, t, reply, false).value, t, At(s, t).p)
  {
    hide Put, OthersSame, Beside, RefsOk, CountOff, Collect, SendUnlock;
    match At(s, t)
    case UnlockRd(p) => SameKept(s, s.(readers := s.readers + {t}), t, UnlockFind(p), p);
    case UnlockFind(p) =>
      if p in s.tree {
        SameKept(s, s, t, UnlockDec(p, s.tree[p]), p);
      } else {
        SameKept(s, s.(missing := true), t, UnlockRdOut(p, None), p);
      }
    case UnlockDec(p, r) => CountOffSame(s, t, p, r, refs);
    case UnlockRdOut(p, last) =>
      SameKept(s, s.(readers := s.readers - {t}), t, if last.Some? then UnlockWr(p, last.value) else Idle, p);
    case UnlockWr(p, r) => SameKept(s, s.(writer := Some(t)), t, UnlockRecheck(p, r), p);
    case UnlockRecheck(p, r) => CollectSame(s, t, p, r);
    case UnlockWrOut(p, x) => SameKept(s, s.(writer := None), t, if x.Some? then UnlockSend(p, x.value) else Idle, p);
    case UnlockSend(p, x) => SendSame(s, t, p, x, reply);
    case UnlockFree(p, x) =>
      FreeSame(s, t, p, x, refs);
      PutBeside(s, s.(heap := s.heap - {x}), t, Idle, p);
  }

  // ---------------------------------------------------------------- the discipline keeps every second look in order

  lemma SameCollectable(s: State, s1: State, t: Thread, l: Local, p: Path)
    requires s1.tree == s.tree && s1.heap == s.heap && Collectable(s, p)
    ensures Collectable(Put(s1, t, l), p)
  {
  }

  /** The thread itself: it becomes a collector by counting down to nothing, and leaves table and counts alone then. */
  lemma OwnReady(s: State, t: Thread, reply: Reply, p: Path, refs: map<Ref, RefPlace>)
    requires RefsOk(s, refs) && LocalOk(s, At(s, t)) && StepUnlock(s, t, reply, false).Some?
    requires At(s, t).UnlockDec? ==> At(s, t).r in s.heap
    requires Collecting(At(s, t), p) ==> Collectable(s, p)
    ensures Collecting(At(StepUnlock(s, t, reply, false).value, t), p) ==> Collectable(StepUnlock(s, t, reply, false).value, p)
  {
    hide RefsOk, CountOff, Collect, Collectable, FindHeld, SendUnlock;
    match At(s, t)
    case UnlockFind(q) => FindHeldSame(s, t, q, p);
    case UnlockDec(q, r) => CountOffSame(s, t, q, r, refs);
    case UnlockRdOut(q, last) =>
      if Collectable(s, p) {
        SameCollectable(s, s.(readers := s.readers - {t}), t, if last.Some? then UnlockWr(q, last.value) else Idle, p);
      }
    case UnlockWr(q, r) =>
      if Collectable(s, p) {
        SameCollectable(s, s.(writer := Some(t)), t, UnlockRecheck(q, r), p);
      }
    case UnlockRecheck(q, r) => CollectSame(s, t, q, r);
    case UnlockSend(q, x) => SendUnlockSame(s, t, q, x, reply, p);
    case _ =>
  }

  lemma FindHeldSame(s: State, t: Thread, q: Path, p: Path)
    ensures !Collecting(At(FindHeld(s, t, q), t), p)
  {
  }

  lemma SendUnlockSame(s: State, t: Thread, q: Path, x: Ref, reply: Reply, p: Path)
    ensures !Collecting(At(SendUnlock(s, t, q, x, reply), t), p)
  {
  }

  lemma GoSame(s: State, t: Thread, reply: Reply, refs: map<Ref, RefPlace>, tokens: map<Token, TokenPlace>)
    requires Inv(s, refs, tokens) && Step(s, Go(t, reply), false).Some?
    ensures At(s, t) != Idle && Beside(s, Step(s, Go(t, reply), false).value, t, At(s, t).p)
    ensures LocalOk(s, At(s, t)) && RefsOk(s, refs)
    ensures At(s, t).UnlockDec? ==> At(s, t).r in s.heap
  {
    assert LocalOk(s, At(s, t)) && RefsOk(s, refs);
    if IsLock(At(s, t)) {
      LockSame(s, t, reply, refs);
    } else {
      if At(s, t).UnlockDec? {
        EntryInHeap(s, t, At(s, t).p, At(s, t).r, refs, tokens);
      }
      if At(s, t).UnlockFree? {
        HandInHeap(s, t, At(s, t).x, refs, tokens);
      }
      UnlockSame(s, t, reply, refs);
    }
    hide *;
  }

  lemma ReadyGo(s: State, t: Thread, reply: Reply, refs: map<Ref, RefPlace>, tokens: map<Token, TokenPlace>)
    requires Inv(s, refs, tokens) && Ready(s) && Step(s, Go(t, reply), false).Some? && !Interferes(s, Go(t, reply))
    ensures Ready(Step(s, Go(t, reply), false).value)
  {
    var s' := Step(s, Go(t, reply), false).value;
    GoSame(s, t, reply, refs, tokens);
    hide Inv, RefsOk, LocalOk;
    forall u: Thread, p: Path | Collecting(At(s', u), p)
      ensures Collectable(s', p)
    {
      if u != t {
        hide Step;
        assert Collecting(At(s, u), p);
        assert Touches(s, Go(t, reply)) == Some(At(s, t).p);
        assert p != At(s, t).p;
        assert Collectable(s, p);
      } else {
        assert !IsLock(At(s, t));
        assert s' == StepUnlock(s, t, reply, false).value;
        OwnReady(s, t, reply, p, refs);
      }
    }
  }

  lemma ReadyCall(s: State, m: Move)
    requires Ready(s) && Step(s, m, false).Some? && !m.Go?
    ensures Ready(Step(s, m, false).value)
  {
    var s' := Step(s, m, false).value;
    forall u: Thread, p: Path | Collecting(At(s', u), p)
      ensures Collectable(s', p)
    {
      assert Collecting(At(s, u), p);
      assert Collectable(s, p);
      assert s'.tree == s.tree && s'.heap == s.heap;
    }
  }

  lemma InitiallyReady()
    ensures Ready(INITIAL)
  {
    assert forall u: Thread :: At(INITIAL, u) == Idle;
  }

  /** Callers that keep out of the way of a release of the same path have no second look overtaken. */
  lemma {:induction false} UndisturbedIsOrderly(moves: seq<Move>)
    requires Run(INITIAL, moves, false).Some? && Undisturbed(moves)
    ensures Orderly(INITIAL, moves, false) && Ready(Run(INITIAL, moves, false).value)
    decreases |moves|
  {
    if moves == [] {
      InitiallyReady();
    } else {
      var before, m := moves[..|moves| - 1], moves[|moves| - 1];
      UndisturbedIsOrderly(before);
      RegistryConserved(before, false);
      var s := Run(INITIAL, before, false).value;
      assert !Overtaken(s, m);
      hide Inv, Ready, Step, Interferes, Overtaken;
      if m.Go? {
        ReadyGo(s, m.t, m.reply, RefsAfter(before, false), TokensAfter(before, false));
      } else {
        ReadyCall(s, m);
      }
    }
  }

  /** So under that discipline the code as written keeps its accounts and uses no freed entry. */
  lemma UndisturbedIsSafe(moves: seq<Move>)
    requires Run(INITIAL, moves, false).Some? && Undisturbed(moves)
    ensures AlwaysAccounted(moves) && !CanFault(moves)
  {
    UndisturbedIsOrderly(moves);
    AsWrittenExactly(moves);
    FaultsExactlyWhenOvertaken(moves);
  }
}
