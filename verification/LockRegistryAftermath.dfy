/** Once a second look has been overtaken, a freed entry can be used from wherever the run has come to. */
module LockRegistryAftermath {
  import opened Options
  import opened LockRegistry
  import opened LockRegistryMoves
  import opened LockRegistryRuns
  import opened LockRegistrySafety

  // ---------------------------------------------------------------- what holds in every run, overtaken or not

  /** The entries a thread's variables point to. */
  function Mentions(l: Local): set<Ref> {
    match l
    case LockInc(_, r) => {r}
    case UnlockDec(_, r) => {r}
    case UnlockRdOut(_, last) => if last.Some? then {last.value} else {}
    case UnlockWr(_, r) => {r}
    case UnlockRecheck(_, r) => {r}
    case UnlockWrOut(_, x) => if x.Some? then {x.value} else {}
    case UnlockSend(_, x) => {x}
    case UnlockFree(_, x) => {x}
    case _ => {}
  }

  predicate Placing(l: Local) {
    l.LockRequest? || l.LockInsert?
  }

  ghost predicate Known(s: State) {
    && (forall r: Ref :: r in s.heap ==> r < s.nextRef)
    && (forall p: Path :: p in s.tree ==> s.tree[p] < s.nextRef)
    && (forall t: Thread, r: Ref :: r in Mentions(At(s, t)) ==> r < s.nextRef)
  }

  ghost predicate Placeable(s: State) {
    forall t: Thread :: Placing(At(s, t)) ==> At(s, t).p !in s.tree
  }

  /** One writer and no reader beside it, no pointer to memory not yet allocated, no entry about to be overwritten. */
  ghost predicate Basic(s: State) {
    LocksOk(s) && Known(s) && Placeable(s)
  }

  /** An entry in the table has been freed. */
  ghost predicate Dangling(s: State, q: Path) {
    q in s.tree && s.tree[q] !in s.heap
  }

  ghost predicate HandWrong(s: State, t: Thread, r: Ref) {
    Unlinked(At(s, t)) == Some(r) && Misplaced(s, t, r)
  }

  /** An entry in the table has been freed, or one about to be freed is somewhere else as well. */
  ghost predicate Wrong(s: State) {
    (exists q: Path :: Dangling(s, q)) || (exists t: Thread, r: Ref :: HandWrong(s, t, r))
  }

  // ---------------------------------------------------------------- what a step can do

  /** t goes to l, and s1 is s with the read and write sections as they are then. */
  predicate Sections(s: State, s1: State, t: Thread, l: Local) {
    && s1.readers == (if InRead(l) then s.readers + {t} else s.readers - {t})
    && s1.writer == (if InWrite(l) then Some(t) else if InWrite(At(s, t)) then None else s.writer)
    && (InRead(l) && !InRead(At(s, t)) ==> s.writer == None)
    && (InWrite(l) && !InWrite(At(s, t)) ==> s.writer == None && s.readers == {})
  }

  predicate Quiet(s: State, s1: State, t: Thread, l: Local) {
    s1.tree == s.tree && s1.heap.Keys == s.heap.Keys && s1.nextRef == s.nextRef && Unlinked(l) == Unlinked(At(s, t))
  }

  predicate Entered(s: State, s1: State, t: Thread, l: Local) {
    && At(s, t).LockInsert? && Unlinked(l) == None && s1.nextRef == s.nextRef + 1
    && s1.tree == s.tree[At(s, t).p := s.nextRef] && s1.heap.Keys == s.heap.Keys + {s.nextRef}
  }

  predicate Looked(s: State, s1: State, t: Thread, l: Local) {
    && At(s, t).UnlockRecheck? && s1.heap.Keys == s.heap.Keys && s1.nextRef == s.nextRef
    && var p := At(s, t).p;
    || s1.tree == s.tree
    || (p in s.tree && s.tree[p] in s.heap && s1.tree == s.tree - {p} && Unlinked(l) == Some(s.tree[p]))
  }

  predicate Freed(s: State, s1: State, t: Thread, l: Local) {
    && At(s, t).UnlockFree? && Unlinked(l) == None && s1.nextRef == s.nextRef && s1.tree == s.tree
    && At(s, t).x in s.heap && s1.heap.Keys == s.heap.Keys - {At(s, t).x}
  }

  ghost predicate Shape(s: State, s1: State, t: Thread, l: Local) {
    && s1.locals == s.locals && Sections(s, s1, t, l)
    && (Placing(l) ==> InWrite(At(s, t)) && l.p !in s1.tree)
    && (forall r: Ref :: r in Mentions(l) ==> r in Mentions(At(s, t)) || r in s.tree.Values)
    && (Quiet(s, s1, t, l) || Entered(s, s1, t, l) || Looked(s, s1, t, l) || Freed(s, s1, t, l))
  }

  /** s' comes from s by a step of t that uses no freed entry. */
  ghost predicate Steps(s: State, s': State, t: Thread) {
    exists s1: State, l: Local :: Shape(s, s1, t, l) && s' == Put(s1, t, l)
  }

  lemma ShapeSteps(s: State, s1: State, t: Thread, l: Local)
    requires Shape(s, s1, t, l)
    ensures Steps(s, Put(s1, t, l), t)
  {
    hide Shape, Put;
  }

  lemma PutFault(s: State, t: Thread, l: Local)
    ensures Put(s, t, l).fault == s.fault
  {
  }

  /** The thread is in the sections its position says, and nobody writes beside a reader. */
  predicate Inside(s: State, t: Thread) {
    && (t in s.readers <==> InRead(At(s, t))) && (s.writer == Some(t) <==> InWrite(At(s, t)))
    && (InRead(At(s, t)) ==> s.writer == None)
  }

  lemma LockReadSteps(s: State, t: Thread, reply: Reply)
    requires StepLock(s, t, reply).Some? && !StepLock(s, t, reply).value.fault && Inside(s, t)
    requires At(s, t).LockRd? || At(s, t).LockFind? || At(s, t).LockInc? || At(s, t).LockRdOut? || At(s, t).LockAlloc?
    ensures Steps(s, StepLock(s, t, reply).value, t)
  {
    hide Steps, Put, Bump, ReturnFromRead;
    match At(s, t)
    case LockRd(p) => ShapeSteps(s, s.(readers := s.readers + {t}), t, LockFind(p));
    case LockFind(p) => ShapeSteps(s, s, t, if p in s.tree then LockInc(p, s.tree[p]) else LockRdOut(p, false));
    case LockInc(p, r) => BumpSteps(s, r, 1, t, LockRdOut(p, true));
    case LockRdOut(p, found) => ReadOutSteps(s, t, p, found);
    case LockAlloc(p) => ShapeSteps(s, s, t, if reply == Good then LockWr(p) else Idle);
  }

  lemma LockWriteSteps(s: State, t: Thread, reply: Reply)
    requires Placeable(s) && StepLock(s, t, reply).Some? && !StepLock(s, t, reply).value.fault && Inside(s, t)
    requires At(s, t).LockWr? || At(s, t).LockRecheck? || At(s, t).LockRequest? || At(s, t).LockInsert? || At(s, t).LockWrOut?
    ensures Steps(s, StepLock(s, t, reply).value, t)
  {
    hide Steps, Put, Placeable, Ask, Enter, LookAgain, ReturnFromWrite;
    match At(s, t)
    case LockWr(p) => ShapeSteps(s, s.(writer := Some(t)), t, LockRecheck(p));
    case LockRecheck(p) => LookAgainSteps(s, t, p);
    case LockRequest(p) => AskSteps(s, t, p, reply);
    case LockInsert(p, tok) => EnterSteps(s, t, p, tok, reply);
    case LockWrOut(p, ok) => WriteOutSteps(s, t, p, ok);
  }

  lemma LockSteps(s: State, t: Thread, reply: Reply)
    requires Placeable(s) && StepLock(s, t, reply).Some? && !StepLock(s, t, reply).value.fault && Inside(s, t)
    ensures Steps(s, StepLock(s, t, reply).value, t)
  {
    assert IsLock(At(s, t));
    hide Steps, Placeable, StepLock, Inside;
    if At(s, t).LockRd? || At(s, t).LockFind? || At(s, t).LockInc? || At(s, t).LockRdOut? || At(s, t).LockAlloc? {
      LockReadSteps(s, t, reply);
    } else {
      LockWriteSteps(s, t, reply);
    }
  }

  lemma LookAgainSteps(s: State, t: Thread, p: Path)
    requires At(s, t) == LockRecheck(p) && Inside(s, t) && !LookAgain(s, t, p).fault
    ensures Steps(s, LookAgain(s, t, p), t)
  {
    hide Steps, Put, Bump;
    if p in s.tree {
      BumpSteps(s, s.tree[p], 1, t, LockWrOut(p, true));
    } else {
      ShapeSteps(s, s, t, LockRequest(p));
    }
  }

  /** What the locks say about t alone. */
  lemma InSections(s: State, t: Thread)
    requires LocksOk(s)
    ensures Inside(s, t)
  {
  }

  lemma BumpSteps(s: State, r: Ref, d: int, t: Thread, l: Local)
    requires !Put(Bump(s, r, d), t, l).fault && Mentions(l) <= Mentions(At(s, t)) && !Placing(l) && Unlinked(l) == Unlinked(At(s, t))
    requires Sections(s, s, t, l)
    ensures Steps(s, Put(Bump(s, r, d), t, l), t)
  {
    hide Put, Steps, Mentions, Placing, Unlinked, InRead, InWrite, Bump;
    PutFault(Bump(s, r, d), t, l);
    BumpFields(s, r, d);
    ShapeSteps(s, Bump(s, r, d), t, l);
  }

  lemma BumpFields(s: State, r: Ref, d: int)
    requires !Bump(s, r, d).fault
    ensures var s1 := Bump(s, r, d);
      && s1.locals == s.locals && s1.readers == s.readers && s1.writer == s.writer
      && s1.tree == s.tree && s1.nextRef == s.nextRef && s1.heap.Keys == s.heap.Keys
  {
  }

  lemma ReadOutSteps(s: State, t: Thread, p: Path, found: bool)
    requires At(s, t) == LockRdOut(p, found) && Inside(s, t)
    ensures Steps(s, ReturnFromRead(s, t, p, found), t)
  {
    hide Steps;
    var s1 := s.(readers := s.readers - {t});
    if found {
      ShapeSteps(s, s1.(open := s1.open[s1.nextTicket := p], nextTicket := s1.nextTicket + 1), t, Idle);
    } else {
      ShapeSteps(s, s1, t, LockAlloc(p));
    }
  }

  lemma AskSteps(s: State, t: Thread, p: Path, reply: Reply)
    requires Placeable(s) && At(s, t) == LockRequest(p) && Ask(s, t, p, reply).Some? && Inside(s, t)
    ensures Steps(s, Ask(s, t, p, reply).value, t)
  {
    assert p !in s.tree;
    hide Steps, Put, Placeable;
    if reply == Bad {
      ShapeSteps(s, s, t, LockWrOut(p, false));
    } else {
      var s1 := s.(active := s.active[s.nextToken := p], nextToken := s.nextToken + 1);
      if reply == Good {
        ShapeSteps(s, s1, t, LockInsert(p, s.nextToken));
      } else {
        ShapeSteps(s, s1.(orphans := s.orphans + {s.nextToken}), t, LockWrOut(p, false));
      }
    }
  }

  lemma EnterSteps(s: State, t: Thread, p: Path, tok: Token, reply: Reply)
    requires At(s, t) == LockInsert(p, tok) && Inside(s, t)
    ensures Steps(s, Enter(s, t, p, tok, reply), t)
  {
    hide Steps, Put;
    if reply == Good {
      var s1 := s.(tree := s.tree[p := s.nextRef], heap := s.heap[s.nextRef := FileLock(p, tok, 1)], nextRef := s.nextRef + 1);
      assert s1.heap.Keys == s.heap.Keys + {s.nextRef};
      ShapeSteps(s, s1, t, LockWrOut(p, true));
    } else {
      ShapeSteps(s, s.(orphans := s.orphans + {tok}), t, LockWrOut(p, false));
    }
  }

  lemma WriteOutSteps(s: State, t: Thread, p: Path, ok: bool)
    requires At(s, t) == LockWrOut(p, ok) && Inside(s, t)
    ensures Steps(s, ReturnFromWrite(s, t, p, ok), t)
  {
    hide Steps;
    var s1 := s.(writer := None);
    ShapeSteps(s, if ok then s1.(open := s1.open[s1.nextTicket := p], nextTicket := s1.nextTicket + 1) else s1, t, Idle);
  }

  lemma UnlockReadSteps(s: State, t: Thread, reply: Reply)
    requires StepUnlock(s, t, reply, false).Some? && !StepUnlock(s, t, reply, false).value.fault && Inside(s, t)
    requires At(s, t).UnlockRd? || At(s, t).UnlockFind? || At(s, t).UnlockDec? || At(s, t).UnlockRdOut?
    ensures Steps(s, StepUnlock(s, t, reply, false).value, t)
  {
    hide Steps, Put, Bump;
    match At(s, t)
    case UnlockRd(p) => ShapeSteps(s, s.(readers := s.readers + {t}), t, UnlockFind(p));
    case UnlockFind(p) =>
      if p in s.tree {
        ShapeSteps(s, s, t, UnlockDec(p, s.tree[p]));
      } else {
        ShapeSteps(s, s.(missing := true), t, UnlockRdOut(p, None));
      }
    case UnlockDec(p, r) =>
      var s1 := Bump(s, r, -1);
      BumpSteps(s, r, -1, t, UnlockRdOut(p, if r in s1.heap && s1.heap[r].cnt > 0 then None else Some(r)));
    case UnlockRdOut(p, last) =>
      ShapeSteps(s, s.(readers := s.readers - {t}), t, if last.Some? then UnlockWr(p, last.value) else Idle);
  }

  lemma UnlockWriteSteps(s: State, t: Thread, reply: Reply)
    requires StepUnlock(s, t, reply, false).Some? && !StepUnlock(s, t, reply, false).value.fault && Inside(s, t)
    requires At(s, t).UnlockWr? || At(s, t).UnlockRecheck? || At(s, t).UnlockWrOut? || At(s, t).UnlockSend? || At(s, t).UnlockFree?
    ensures Steps(s, StepUnlock(s, t, reply, false).value, t)
  {
    hide Steps, Put, Collect, SendUnlock;
    match At(s, t)
    case UnlockWr(p, r) => ShapeSteps(s, s.(writer := Some(t)), t, UnlockRecheck(p, r));
    case UnlockRecheck(p, r) => CollectSteps(s, t, p, r);
    case UnlockWrOut(p, x) => ShapeSteps(s, s.(writer := None), t, if x.Some? then UnlockSend(p, x.value) else Idle);
    case UnlockSend(p, x) => SendSteps(s, t, p, x, reply);
    case UnlockFree(p, x) =>
      PutFault(s.(fault := true), t, Idle);
      ShapeSteps(s, s.(heap := s.heap - {x}), t, Idle);
  }

  lemma UnlockSteps(s: State, t: Thread, reply: Reply)
    requires StepUnlock(s, t, reply, false).Some? && !StepUnlock(s, t, reply, false).value.fault && Inside(s, t)
    ensures Steps(s, StepUnlock(s, t, reply, false).value, t)
  {
    assert At(s, t) != Idle && !IsLock(At(s, t));
    hide Steps, StepUnlock, Inside;
    if At(s, t).UnlockRd? || At(s, t).UnlockFind? || At(s, t).UnlockDec? || At(s, t).UnlockRdOut? {
      UnlockReadSteps(s, t, reply);
    } else {
      UnlockWriteSteps(s, t, reply);
    }
  }

  lemma CollectSteps(s: State, t: Thread, p: Path, r: Ref)
    requires At(s, t) == UnlockRecheck(p, r) && Inside(s, t) && !Collect(s, t, p, r, false).fault
    ensures Steps(s, Collect(s, t, p, r, false), t)
  {
    hide Steps;
    if Collectable(s, p) {
      ShapeSteps(s, s.(tree := s.tree - {p}), t, UnlockWrOut(p, Some(s.tree[p])));
    } else {
      ShapeSteps(s, s, t, UnlockWrOut(p, Some(r)));
    }
  }

  lemma SendSteps(s: State, t: Thread, p: Path, x: Ref, reply: Reply)
    requires At(s, t) == UnlockSend(p, x) && Inside(s, t) && !SendUnlock(s, t, p, x, reply).fault
    ensures Steps(s, SendUnlock(s, t, p, x, reply), t)
  {
    hide Steps;
    var tok := s.heap[x].token;
    ShapeSteps(s, if reply == Good then s.(active := s.active - {tok}) else s.(orphans := s.orphans + {tok}), t,
               UnlockFree(p, x));
  }

  /** Every step that does not use a freed entry is of one of these shapes. */
  lemma StepSteps(s: State, m: Move)
    requires Basic(s) && Step(s, m, false).Some? && !Step(s, m, false).value.fault
    ensures Steps(s, Step(s, m, false).value, m.t)
  {
    hide Steps, StepLock, StepUnlock, LocksOk, Placeable;
    InSections(s, m.t);
    match m
    case CallLock(t, p) => ShapeSteps(s, s, t, LockRd(p));
    case CallUnlock(t, k) => ShapeSteps(s, s.(open := s.open - {k}), t, UnlockRd(s.open[k]));
    case Go(t, reply) =>
      if IsLock(At(s, t)) {
        LockSteps(s, t, reply);
      } else {
        UnlockSteps(s, t, reply);
      }
  }

  // ---------------------------------------------------------------- what every step keeps

  lemma SectionsKeepLocks(s: State, s1: State, t: Thread, l: Local)
    requires LocksOk(s) && Sections(s, s1, t, l) && s1.locals == s.locals
    ensures LocksOk(Put(s1, t, l))
  {
    var s' := Put(s1, t, l);
    forall u: Thread
      ensures u in s'.readers <==> InRead(At(s', u))
      ensures s'.writer == Some(u) <==> InWrite(At(s', u))
    {
      assert u in s.readers <==> InRead(At(s, u));
      assert s.writer == Some(u) <==> InWrite(At(s, u));
    }
  }

  lemma ShapeKeepsKnown(s: State, s1: State, t: Thread, l: Local)
    requires Known(s) && Shape(s, s1, t, l)
    ensures Known(Put(s1, t, l))
  {
    hide Mentions, InRead, InWrite, Unlinked, Placing;
    var s' := Put(s1, t, l);
    Moved(s, s1, t, l);
    forall u: Thread, r: Ref | r in Mentions(At(s', u))
      ensures r < s'.nextRef
    {
      if u != t {
        assert r in Mentions(At(s, u));
      } else if r !in Mentions(At(s, t)) {
        var p :| p in s.tree && s.tree[p] == r;
      }
    }
  }

  lemma ShapeKeepsPlaceable(s: State, s1: State, t: Thread, l: Local)
    requires Placeable(s) && LocksOk(s) && Shape(s, s1, t, l)
    ensures Placeable(Put(s1, t, l))
  {
    hide Mentions, Unlinked, InRead;
    var s' := Put(s1, t, l);
    Moved(s, s1, t, l);
    forall u: Thread | Placing(At(s', u))
      ensures At(s', u).p !in s'.tree
    {
      if u != t {
        assert Placing(At(s, u)) && At(s, u).p !in s.tree;
        assert s.writer == Some(u) <==> InWrite(At(s, u));
        assert s.writer == Some(t) <==> InWrite(At(s, t));
      }
    }
  }

  lemma ShapeKeepsDangling(s: State, s1: State, t: Thread, l: Local, q: Path)
    requires Known(s) && Placeable(s) && Shape(s, s1, t, l) && Dangling(s, q)
    ensures Dangling(Put(s1, t, l), q)
  {
    hide Mentions, InRead, InWrite, Unlinked;
    assert Placing(At(s, t)) ==> At(s, t).p !in s.tree;
  }

  /** The thread with the wrong entry in its hand moves itself. */
  lemma OwnKeepsWrong(s: State, s1: State, t: Thread, l: Local, r: Ref)
    requires Known(s) && Shape(s, s1, t, l) && HandWrong(s, t, r)
    ensures Wrong(Put(s1, t, l))
  {
    hide Mentions, InRead, InWrite;
    var s' := Put(s1, t, l);
    Moved(s, s1, t, l);
    assert Unlinked(At(s, t)) == Some(r) && r in Mentions(At(s, t)) by { UnlinkedMentioned(At(s, t)); }
    if Quiet(s, s1, t, l) {
      StaysWrong(s, s', t, t, r);
    } else {
      assert Freed(s, s1, t, l) && At(s, t).x == r;
      if q: Path :| q in s.tree && s.tree[q] == r {
        assert Dangling(s', q);
      } else {
        var u: Thread :| u != t && Unlinked(At(s, u)) == Some(r);
        assert HandWrong(s', u, r);
      }
    }
  }

  lemma UnlinkedMentioned(l: Local)
    ensures Unlinked(l).Some? ==> Unlinked(l).value in Mentions(l)
  {
  }

  /** Nothing that makes the entry in v's hand wrong has changed. */
  lemma StaysWrong(s: State, s': State, t: Thread, v: Thread, r: Ref)
    requires HandWrong(s, v, r) && OnlyMoved(s, s', t) && s'.tree == s.tree && s'.heap.Keys == s.heap.Keys
    requires Unlinked(At(s', t)) == Unlinked(At(s, t))
    ensures HandWrong(s', v, r)
  {
    hide Unlinked;
  }

  /** Another thread moves. */
  lemma OtherKeepsWrong(s: State, s1: State, t: Thread, l: Local, v: Thread, r: Ref)
    requires Known(s) && Placeable(s) && Shape(s, s1, t, l) && HandWrong(s, v, r) && v != t
    ensures HandWrong(Put(s1, t, l), v, r)
  {
    UnlinkedMentioned(At(s, v));
    assert Placing(At(s, t)) ==> At(s, t).p !in s.tree;
    assert r < s.nextRef;
    hide Mentions, InRead, InWrite;
    var s' := Put(s1, t, l);
    Moved(s, s1, t, l);
    if r in s'.heap {
      assert r in s.heap;
      if q: Path :| q in s.tree && s.tree[q] == r {
        if q in s'.tree && s'.tree[q] == r {
        } else {
          assert Unlinked(At(s', t)) == Some(r);
        }
      } else {
        var u: Thread :| u != v && Unlinked(At(s, u)) == Some(r);
        assert Unlinked(At(s', u)) == Some(r);
      }
    }
  }

  lemma StepsKeepBasic(s: State, s': State, t: Thread)
    requires Basic(s) && Steps(s, s', t)
    ensures Basic(s')
  {
    var s1: State, l: Local :| Shape(s, s1, t, l) && s' == Put(s1, t, l);
    assert Sections(s, s1, t, l) && s1.locals == s.locals;
    hide LocksOk, Known, Placeable, Shape, Sections;
    SectionsKeepLocks(s, s1, t, l);
    ShapeKeepsKnown(s, s1, t, l);
    ShapeKeepsPlaceable(s, s1, t, l);
  }

  /** What has gone wrong stays wrong. */
  lemma StepsKeepWrong(s: State, s': State, t: Thread)
    requires Basic(s) && Wrong(s) && Steps(s, s', t)
    ensures Wrong(s')
  {
    var s1: State, l: Local :| Shape(s, s1, t, l) && s' == Put(s1, t, l);
    hide LocksOk, Known, Placeable, Shape, Dangling, HandWrong;
    if q: Path :| Dangling(s, q) {
      ShapeKeepsDangling(s, s1, t, l, q);
    } else {
      var v: Thread, r: Ref :| HandWrong(s, v, r);
      if v == t {
        OwnKeepsWrong(s, s1, t, l, r);
      } else {
        OtherKeepsWrong(s, s1, t, l, v, r);
      }
    }
  }

  // ---------------------------------------------------------------- whole runs

  lemma StepKeepsFault(s: State, m: Move)
    requires Step(s, m, false).Some? && s.fault
    ensures Step(s, m, false).value.fault
  {
    hide StepLock, StepUnlock;
    if m.Go? {
      if IsLock(At(s, m.t)) {
        LockKeepsFault(s, m.t, m.reply);
      } else {
        UnlockKeepsFault(s, m.t, m.reply);
      }
    }
  }

  lemma LockPartsKeepFault(s: State, t: Thread, p: Path, done: bool, tok: Token, reply: Reply)
    requires s.fault
    ensures ReturnFromRead(s, t, p, done).fault && LookAgain(s, t, p).fault && ReturnFromWrite(s, t, p, done).fault
    ensures (Ask(s, t, p, reply).Some? ==> Ask(s, t, p, reply).value.fault) && Enter(s, t, p, tok, reply).fault
  {
  }

  lemma LockKeepsFault(s: State, t: Thread, reply: Reply)
    requires StepLock(s, t, reply).Some? && s.fault
    ensures StepLock(s, t, reply).value.fault
  {
    hide LookAgain, Ask, Enter, ReturnFromRead, ReturnFromWrite;
    var l := At(s, t);
    LockPartsKeepFault(s, t, l.p, if l.LockRdOut? then l.found else l.LockWrOut? && l.ok,
                       if l.LockInsert? then l.token else 0, reply);
  }

  lemma UnlockPartsKeepFault(s: State, t: Thread, p: Path, r: Ref)
    requires s.fault
    ensures FindHeld(s, t, p).fault && Collect(s, t, p, r, false).fault
  {
  }

  lemma SendKeepsFault(s: State, t: Thread, p: Path, x: Ref, reply: Reply)
    requires s.fault
    ensures SendUnlock(s, t, p, x, reply).fault
  {
    if x in s.heap {
      var tok := s.heap[x].token;
      var s1 := if reply == Good then s.(active := s.active - {tok}) else s.(orphans := s.orphans + {tok});
      PutFault(s1, t, UnlockFree(p, x));
    } else {
      PutFault(s.(fault := true), t, UnlockFree(p, x));
    }
    hide Put;
  }

  lemma CountOffKeepsFault(s: State, t: Thread, p: Path, r: Ref)
    requires s.fault
    ensures CountOff(s, t, p, r).fault
  {
    hide Put;
    var s1 := Bump(s, r, -1);
    PutFault(s1, t, UnlockRdOut(p, if r in s1.heap && s1.heap[r].cnt > 0 then None else Some(r)));
  }

  lemma UnlockKeepsFault(s: State, t: Thread, reply: Reply)
    requires StepUnlock(s, t, reply, false).Some? && s.fault
    ensures StepUnlock(s, t, reply, false).value.fault
  {
    hide FindHeld, CountOff, Collect, SendUnlock;
    var l := At(s, t);
    if l.UnlockDec? {
      CountOffKeepsFault(s, t, l.p, l.r);
    } else if l.UnlockSend? {
      SendKeepsFault(s, t, l.p, l.x, reply);
    } else {
      UnlockPartsKeepFault(s, t, l.p, if l.UnlockRecheck? then l.r else 0);
    }
  }

  lemma InitialBasic()
    ensures Basic(INITIAL)
  {
    assert forall t: Thread :: At(INITIAL, t) == Idle;
  }

  lemma OvertakenIsWrong(s: State, m: Move, refs: map<Ref, RefPlace>, tokens: map<Token, TokenPlace>)
    requires Inv(s, refs, tokens) && Step(s, m, false).Some? && Overtaken(s, m)
    ensures Wrong(Step(s, m, false).value)
  {
    hide Inv, Step, Misplaced;
    OvertakenMisplaces(s, m, refs, tokens);
    assert HandWrong(Step(s, m, false).value, m.t, At(s, m.t).r);
  }

  /** A run in which no freed entry has been used yet, but a second look was overtaken, is in a wrong state. */
  lemma {:induction false} RunIsWrong(moves: seq<Move>)
    requires Run(INITIAL, moves, false).Some? && !Run(INITIAL, moves, false).value.fault
    ensures Basic(Run(INITIAL, moves, false).value)
    ensures !Orderly(INITIAL, moves, false) ==> Wrong(Run(INITIAL, moves, false).value)
    decreases |moves|
  {
    if moves == [] {
      InitialBasic();
    } else {
      var before, m := moves[..|moves| - 1], moves[|moves| - 1];
      var s := Run(INITIAL, before, false).value;
      hide Basic, Wrong, Step, Inv, Overtaken;
      if s.fault {
        StepKeepsFault(s, m);
      }
      RunIsWrong(before);
      StepSteps(s, m);
      StepsKeepBasic(s, Step(s, m, false).value, m.t);
      if !Orderly(INITIAL, before, false) {
        StepsKeepWrong(s, Step(s, m, false).value, m.t);
      } else if Overtaken(s, m) {
        RegistryConserved(before, false);
        OvertakenIsWrong(s, m, RefsAfter(before, false), TokensAfter(before, false));
      }
    }
  }

  // ---------------------------------------------------------------- from a wrong state to the use of a freed entry

  ghost predicate Ends(s: State, more: seq<Move>) {
    Run(s, more, false).Some? && Run(s, more, false).value.fault
  }

  lemma EndsHere(s: State)
    requires s.fault
    ensures Ends(s, [])
  {
  }

  lemma EndsNext(s: State, m: Move, more: seq<Move>)
    requires Step(s, m, false).Some? && Ends(Step(s, m, false).value, more)
    ensures Ends(s, [m] + more)
  {
    hide Step;
    assert [m][..0] == [] && [m][|[m]| - 1] == m;
    assert Run(s, [], false) == Some(s);
    RunConcat(s, [m], more, false);
  }

  lemma {:induction false} Beyond(ts: set<Thread>) returns (n: Thread)
    ensures forall t :: t in ts ==> t < n
  {
    n := 0;
    if ts != {} {
      var x :| x in ts;
      var m := Beyond(ts - {x});
      n := if x < m then m else x + 1;
      assert forall t :: t in ts ==> t == x || t in ts - {x};
    }
  }

  /** How many steps a writer is from the end of its section. */
  function StepsLeft(l: Local): nat {
    match l
    case LockRecheck(_) => 3
    case LockRequest(_) => 2
    case LockInsert(_, _) => 2
    case UnlockRecheck(_, _) => 2
    case _ => 1
  }

  /** The freed entry has been used, or the writer is out of its section, or nearer to its end. */
  ghost predicate Drains(s: State, s': State, w: Thread, q: Path) {
    || s'.fault
    || (Dangling(s', q)
        && (s'.writer == None || (s'.writer == Some(w) && StepsLeft(At(s', w)) < StepsLeft(At(s, w)))))
  }

  /** The writer goes on, with requests and insertions failing, until it is out of its section or has used the freed entry. */
  lemma WriterStep(s: State, w: Thread, q: Path)
    requires Dangling(s, q) && s.writer == Some(w) && InWrite(At(s, w))
    ensures Step(s, Go(w, Bad), false).Some?
    ensures Drains(s, Step(s, Go(w, Bad), false).value, w, q)
  {
    hide StepLock, StepUnlock, Dangling, Drains;
    if IsLock(At(s, w)) {
      LockWriterStep(s, w, q);
    } else {
      UnlockWriterStep(s, w, q);
    }
  }

  lemma LockWriterStep(s: State, w: Thread, q: Path)
    requires Dangling(s, q) && s.writer == Some(w) && InWrite(At(s, w)) && IsLock(At(s, w))
    ensures StepLock(s, w, Bad).Some?
    ensures Drains(s, StepLock(s, w, Bad).value, w, q)
  {
    hide LookAgain;
    if At(s, w).LockRecheck? {
      LookAgainDrains(s, w, At(s, w).p, q);
      hide Drains;
    }
  }

  lemma LookAgainDrains(s: State, w: Thread, p: Path, q: Path)
    requires Dangling(s, q) && s.writer == Some(w) && At(s, w) == LockRecheck(p)
    ensures Drains(s, LookAgain(s, w, p), w, q)
  {
  }

  lemma UnlockWriterStep(s: State, w: Thread, q: Path)
    requires Dangling(s, q) && s.writer == Some(w) && InWrite(At(s, w)) && !IsLock(At(s, w))
    ensures StepUnlock(s, w, Bad, false).Some?
    ensures Drains(s, StepUnlock(s, w, Bad, false).value, w, q)
  {
  }

  lemma {:induction false} DanglingEnds(s: State, q: Path) returns (more: seq<Move>)
    requires Basic(s) && Dangling(s, q)
    ensures Ends(s, more)
    decreases if s.writer == None then 0 else StepsLeft(At(s, s.writer.value))
  {
    if s.writer == None {
      var t := Beyond(s.locals.Keys);
      hide LocksOk, Known, Placeable;
      more := DanglingFaults(s, t, q);
    } else {
      var w := s.writer.value;
      assert InWrite(At(s, w));
      hide LocksOk, Known, Placeable, Step, Ends, Dangling;
      var m := Go(w, Bad);
      WriterStep(s, w, q);
      var s' := Step(s, m, false).value;
      if s'.fault {
        EndsHere(s');
        more := [];
      } else {
        StepSteps(s, m);
        StepsKeepBasic(s, s', w);
        more := DanglingEnds(s', q);
      }
      EndsNext(s, m, more);
      more := [m] + more;
    }
  }

  function HandLeft(l: Local): nat {
    if l.UnlockWrOut? then 2 else if l.UnlockSend? then 1 else 0
  }

  /** The thread frees the wrong entry, and whoever else has it uses it then. */
  lemma {:induction false} HandEnds(s: State, t: Thread, r: Ref) returns (more: seq<Move>)
    requires Basic(s) && HandWrong(s, t, r)
    ensures Ends(s, more)
    decreases if r in s.heap then 1 else 0, HandLeft(At(s, t))
  {
    hide Basic, Step, Ends;
    var p, m := At(s, t).p, Go(t, Good);
    var s' := HandMove(s, t, p, r);
    if s'.fault {
      EndsHere(s');
      more := [];
    } else {
      StepSteps(s, m);
      StepsKeepBasic(s, s', t);
      if !At(s, t).UnlockFree? {
        assert OnlyMoved(s, s', t) && HandWrong(s', t, r);
        more := HandEnds(s', t, r);
      } else if q: Path :| q in s.tree && s.tree[q] == r {
        more := DanglingEnds(s', q);
      } else {
        var u: Thread :| u != t && Unlinked(At(s, u)) == Some(r);
        more := HandEnds(s', u, r);
      }
    }
    EndsNext(s, m, more);
    more := [m] + more;
  }

  /** Whatever has happened since, from a run with an overtaken second look a freed entry can come to be used. */
  lemma OvertakenCanEnd(moves: seq<Move>)
    requires Run(INITIAL, moves, false).Some? && !Orderly(INITIAL, moves, false)
    ensures exists more: seq<Move> :: Faults(moves + more)
  {
    var s := Run(INITIAL, moves, false).value;
    var more := [];
    if s.fault {
      EndsHere(s);
    } else {
      RunIsWrong(moves);
      hide Basic, Dangling, HandWrong, Ends, Run;
      if q: Path :| Dangling(s, q) {
        more := DanglingEnds(s, q);
      } else {
        var t: Thread, r: Ref :| HandWrong(s, t, r);
        more := HandEnds(s, t, r);
      }
    }
    RunConcat(INITIAL, moves, more, false);
    assert Faults(moves + more);
  }
}
