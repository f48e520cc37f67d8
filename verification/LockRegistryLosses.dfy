/** Granted locks that nobody will release: one for each reply rejected, insertion failed or UNLOCK failed. */
module LockRegistryLosses {
  import opened Options
  import opened LockRegistry
  import opened LockRegistryMoves
  import opened LockRegistrySafety
  import opened LockRegistryFacts

  /** How many granted locks are lost in a run. */
  function Losses(moves: seq<Move>, cleared: bool): nat
    decreases |moves|
  {
    if moves == [] then 0
    else
      var before := moves[..|moves| - 1];
      var s := Run(INITIAL, before, cleared);
      Losses(before, cleared) + if s.Some? && Loses(s.value, moves[|moves| - 1]) then 1 else 0
  }

  predicate Lossless(moves: seq<Move>, cleared: bool)
    decreases |moves|
  {
    moves == [] ||
    var before := moves[..|moves| - 1];
    Lossless(before, cleared) &&
    (Run(INITIAL, before, cleared).Some? ==> !Loses(Run(INITIAL, before, cleared).value, moves[|moves| - 1]))
  }

  lemma {:induction false} LosslessMeans(moves: seq<Move>, cleared: bool)
    ensures Lossless(moves, cleared) <==> Losses(moves, cleared) == 0
    decreases |moves|
  {
    hide Loses, Run;
    if moves != [] {
      LosslessMeans(moves[..|moves| - 1], cleared);
    }
  }

  // ---------------------------------------------------------------- a step that loses none

  lemma PutOrphans(s: State, t: Thread, l: Local)
    ensures Put(s, t, l).orphans == s.orphans
  {
  }

  lemma SendOrphans(s: State, t: Thread, p: Path, x: Ref)
    ensures SendUnlock(s, t, p, x, Good).orphans == s.orphans
  {
  }

  lemma CollectOrphans(s: State, t: Thread, p: Path, r: Ref, cleared: bool)
    ensures Collect(s, t, p, r, cleared).orphans == s.orphans
  {
  }

  lemma CountOffOrphans(s: State, t: Thread, p: Path, r: Ref)
    ensures CountOff(s, t, p, r).orphans == s.orphans
  {
    var s1 := Bump(s, r, -1);
    PutOrphans(s1, t, UnlockRdOut(p, if r in s1.heap && s1.heap[r].cnt > 0 then None else Some(r)));
    hide Put;
  }

  lemma FindHeldOrphans(s: State, t: Thread, p: Path)
    ensures FindHeld(s, t, p).orphans == s.orphans
  {
  }

  lemma UnlockOrphans(s: State, t: Thread, reply: Reply, cleared: bool)
    requires StepUnlock(s, t, reply, cleared).Some? && !Loses(s, Go(t, reply))
    ensures StepUnlock(s, t, reply, cleared).value.orphans == s.orphans
  {
    hide Put, SendUnlock, Collect, CountOff, FindHeld;
    match At(s, t)
    case UnlockRd(p) => PutOrphans(s.(readers := s.readers + {t}), t, UnlockFind(p));
    case UnlockFind(p) => FindHeldOrphans(s, t, p);
    case UnlockDec(p, r) => CountOffOrphans(s, t, p, r);
    case UnlockRdOut(p, last) =>
      PutOrphans(s.(readers := s.readers - {t}), t, if last.Some? then UnlockWr(p, last.value) else Idle);
    case UnlockWr(p, r) => PutOrphans(s.(writer := Some(t)), t, UnlockRecheck(p, r));
    case UnlockRecheck(p, r) => CollectOrphans(s, t, p, r, cleared);
    case UnlockWrOut(p, x) => PutOrphans(s.(writer := None), t, if x.Some? then UnlockSend(p, x.value) else Idle);
    case UnlockSend(p, x) => SendOrphans(s, t, p, x);
    case UnlockFree(p, x) => PutOrphans(if x in s.heap then s.(heap := s.heap - {x}) else s.(fault := true), t, Idle);
    case _ =>
  }

  lemma OrphansStay(s: State, m: Move, cleared: bool)
    requires Step(s, m, cleared).Some? && !Loses(s, m)
    ensures Step(s, m, cleared).value.orphans == s.orphans
  {
    hide StepLock, StepUnlock, Loses, OnlyMoved;
    if m.Go? {
      if IsLock(At(s, m.t)) {
        LockFollows(s, m.t, m.reply);
      } else {
        UnlockOrphans(s, m.t, m.reply, cleared);
      }
    }
  }

  // ---------------------------------------------------------------- a step that loses one

  lemma AskLoses(s: State, t: Thread, p: Path, tokens: map<Token, TokenPlace>)
    requires TokenKeysOk(s, tokens) && OrphanedOk(s, tokens) && Ask(s, t, p, Garbled).Some?
    ensures |Ask(s, t, p, Garbled).value.orphans| == |s.orphans| + 1
  {
    assert s.nextToken !in s.orphans;
  }

  lemma InsertLoses(s: State, t: Thread, p: Path, tok: Token, reply: Reply, tokens: map<Token, TokenPlace>)
    requires CarriedOk(s, tokens) && OrphanedOk(s, tokens) && At(s, t) == LockInsert(p, tok) && reply != Good
    ensures |Enter(s, t, p, tok, reply).orphans| == |s.orphans| + 1
  {
    assert Inserting(At(s, t)) == Some(tok);
    assert tok !in s.orphans;
  }

  lemma SendLoses(s: State, t: Thread, p: Path, x: Ref, reply: Reply, refs: map<Ref, RefPlace>, tokens: map<Token, TokenPlace>)
    requires RefsOk(s, refs) && StoredOk(s, tokens) && OrphanedOk(s, tokens)
    requires At(s, t) == UnlockSend(p, x) && reply != Good
    ensures |SendUnlock(s, t, p, x, reply).orphans| == |s.orphans| + 1
  {
    assert x in refs && refs[x] == Taken(t);
    forall u: Thread
      ensures !Sent(At(s, u), x)
    {
      assert Unlinked(At(s, u)) == Some(x) ==> refs[x] == Taken(u);
    }
    assert Answers(s, x);
    assert s.heap[x].token !in s.orphans;
  }

  lemma LosesOne(s: State, m: Move, cleared: bool, refs: map<Ref, RefPlace>, tokens: map<Token, TokenPlace>)
    requires Inv(s, refs, tokens) && Step(s, m, cleared).Some? && Loses(s, m)
    ensures |Step(s, m, cleared).value.orphans| == |s.orphans| + 1
  {
    hide RefsOk, TokenKeysOk, StoredOk, CarriedOk, OrphanedOk, CountsOk, CollectorsOk, LocksOk, LocalOk, Ask, Enter, SendUnlock;
    match At(s, m.t)
    case LockRequest(p) => AskLoses(s, m.t, p, tokens);
    case LockInsert(p, tok) => InsertLoses(s, m.t, p, tok, m.reply, tokens);
    case UnlockSend(p, x) => SendLoses(s, m.t, p, x, m.reply, refs, tokens);
  }

  // ---------------------------------------------------------------- whole runs

  /** The orphans are the locks that were lost, no more and no fewer. */
  lemma {:induction false} LossesCounted(moves: seq<Move>, cleared: bool)
    requires Run(INITIAL, moves, cleared).Some? && (cleared || Orderly(INITIAL, moves, cleared))
    ensures |Run(INITIAL, moves, cleared).value.orphans| == Losses(moves, cleared)
    decreases |moves|
  {
    if moves != [] {
      var before, m := moves[..|moves| - 1], moves[|moves| - 1];
      LossesCounted(before, cleared);
      RegistryConserved(before, cleared);
      hide Inv, Step, Loses;
      var s := Run(INITIAL, before, cleared).value;
      if Loses(s, m) {
        LosesOne(s, m, cleared, RefsAfter(before, cleared), TokensAfter(before, cleared));
      } else {
        OrphansStay(s, m, cleared);
      }
    }
  }

  /** Once every file is released, as many locks are left on the server as were lost: none if and only if none was. */
  lemma EveryLockReleased(moves: seq<Move>, cleared: bool)
    requires Run(INITIAL, moves, cleared).Some? && (cleared || Orderly(INITIAL, moves, cleared))
    requires Run(INITIAL, moves, cleared).value.open == map[]
    requires AllIdle(Run(INITIAL, moves, cleared).value)
    ensures var s := Run(INITIAL, moves, cleared).value;
      && s.tree == map[] && |s.active| == Losses(moves, cleared)
      && (s.active == map[] <==> Lossless(moves, cleared))
  {
    var s := Run(INITIAL, moves, cleared).value;
    assert Sound(s);
    QuietMeansEmpty(s);
    LossesCounted(moves, cleared);
    LosslessMeans(moves, cleared);
    hide *;
    assert |s.active| == |s.active.Keys|;
    assert s.active == map[] <==> |s.active| == 0;
  }

  const LOST := State(map[], map[], 0, {}, None, map[0 := 0], 1, {0}, map[], 0, map[0 := Idle], false, false)

  /** It does happen: LOCK is granted, the insertion fails, the UNLOCK is not sent, and nothing can release the lock. */
  lemma LockIsLost()
    ensures exists moves: seq<Move> :: Run(INITIAL, moves, false) == Some(LOST) && !Lossless(moves, false)
    ensures AllIdle(LOST) && LOST.open == map[] && LOST.tree == map[] && LOST.active != map[]
  {
    ReachLost();
    var moves: seq<Move> :| Run(INITIAL, moves, false) == Some(LOST);
    if Lossless(moves, false) {
      LosslessNoOrphans(moves, false);
    }
    assert 0 in LOST.active;
  }

  lemma {:induction false} LosslessNoOrphans(moves: seq<Move>, cleared: bool)
    requires Run(INITIAL, moves, cleared).Some? && Lossless(moves, cleared)
    ensures Run(INITIAL, moves, cleared).value.orphans == {}
    decreases |moves|
  {
    if moves != [] {
      var before := moves[..|moves| - 1];
      LosslessNoOrphans(before, cleared);
      OrphansStay(Run(INITIAL, before, cleared).value, moves[|moves| - 1], cleared);
    }
  }

  lemma ReachLost()
    ensures Reached(LOST)
  {
    ReachGranted();
    hide Reached, Run;
    var s := OPENED.(writer := Some(0), open := map[], nextTicket := 0, tree := map[], heap := map[], nextRef := 0);
    Reach(s.(locals := map[0 := LockInsert(0, 0)]), Go(0, Bad), s.(orphans := {0}, locals := map[0 := LockWrOut(0, false)]));
    Reach(s.(orphans := {0}, locals := map[0 := LockWrOut(0, false)]), Go(0, Good), LOST);
  }
}
