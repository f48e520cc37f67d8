/** What holds of every run of dav_lock and dav_unlock, and exactly which runs of the code as written go wrong. */
module LockRegistrySafety {
  import opened Options
  import opened LockRegistry
  import opened LockRegistryMoves
  import opened LockRegistryRuns

  /** No second look of dav_unlock is overtaken along the run from s. */
  predicate Orderly(s: State, moves: seq<Move>, cleared: bool)
    decreases |moves|
  {
    moves == [] ||
    var before := moves[..|moves| - 1];
    Orderly(s, before, cleared) &&
    (Run(s, before, cleared).Some? ==> !Overtaken(Run(s, before, cleared).value, moves[|moves| - 1]))
  }

  function RefsAfter(moves: seq<Move>, cleared: bool): map<Ref, RefPlace>
    decreases |moves|
  {
    if moves == [] then map[]
    else
      var before := moves[..|moves| - 1];
      var s := Run(INITIAL, before, cleared);
      if s.None? then map[] else NextRefs(s.value, moves[|moves| - 1], RefsAfter(before, cleared))
  }

  function TokensAfter(moves: seq<Move>, cleared: bool): map<Token, TokenPlace>
    decreases |moves|
  {
    if moves == [] then map[]
    else
      var before := moves[..|moves| - 1];
      var s := Run(INITIAL, before, cleared);
      if s.None? then map[] else NextTokens(s.value, moves[|moves| - 1], TokensAfter(before, cleared))
  }

  lemma InitialInv()
    ensures Inv(INITIAL, map[], map[])
  {
    assert forall t: Thread :: At(INITIAL, t) == Idle;
    assert forall p: Path :: Claims(INITIAL, p) == {};
  }

  /**
   * Conservation over whole runs: every entry is in the table under its path or with the one thread that will free it,
   * its count is the number of those who hold the path, and every lock on the server has one place.
   */
  lemma {:induction false} RegistryConserved(moves: seq<Move>, cleared: bool)
    requires Run(INITIAL, moves, cleared).Some? && (cleared || Orderly(INITIAL, moves, cleared))
    ensures Inv(Run(INITIAL, moves, cleared).value, RefsAfter(moves, cleared), TokensAfter(moves, cleared))
    decreases |moves|
  {
    if moves == [] {
      InitialInv();
    } else {
      var before := moves[..|moves| - 1];
      RegistryConserved(before, cleared);
      hide Inv;
      StepKeepsInv(Run(INITIAL, before, cleared).value, moves[|moves| - 1], cleared,
                   RefsAfter(before, cleared), TokensAfter(before, cleared));
    }
  }

  // ---------------------------------------------------------------- the code as written

  ghost predicate Accounted(s: State) {
    exists refs: map<Ref, RefPlace>, tokens: map<Token, TokenPlace> :: Inv(s, refs, tokens)
  }

  /** The entry in a thread's hand is freed already, still in the table, or in another thread's hand as well. */
  ghost predicate Misplaced(s: State, t: Thread, r: Ref) {
    || r !in s.heap
    || (exists q: Path :: q in s.tree && s.tree[q] == r)
    || (exists u: Thread :: u != t && Unlinked(At(s, u)) == Some(r))
  }

  lemma EntriesElsewhere(s: State, t: Thread, r: Ref, refs: map<Ref, RefPlace>)
    requires RefsOk(s, refs) && Unlinked(At(s, t)) == None
    ensures Misplaced(s, t, r)
  {
    if r in s.heap {
      match refs[r]
      case Linked(q) => assert q in s.tree && s.tree[q] == r;
      case Taken(u) => assert Unlinked(At(s, u)) == Some(r);
    }
  }

  lemma MisplacedCases(s: State, t: Thread, r: Ref)
    requires Misplaced(s, t, r) && r in s.heap
    ensures (exists q: Path :: q in s.tree && s.tree[q] == r) || (exists u: Thread :: u != t && Unlinked(At(s, u)) == Some(r))
  {
  }

  lemma MisplacedMeans(s: State, t: Thread, r: Ref, refs: map<Ref, RefPlace>)
    requires Misplaced(s, t, r) && Unlinked(At(s, t)) == Some(r)
    ensures !RefsOk(s, refs)
  {
    if q: Path :| q in s.tree && s.tree[q] == r {
      assert (r in refs && refs[r] == Linked(q)) || !RefsOk(s, refs);
    } else if r in s.heap {
      var u: Thread :| u != t && Unlinked(At(s, u)) == Some(r);
      assert (r in refs && refs[r] == Taken(u)) || !RefsOk(s, refs);
    }
  }

  lemma OvertakenMisplaces(s: State, m: Move, refs: map<Ref, RefPlace>, tokens: map<Token, TokenPlace>)
    requires Inv(s, refs, tokens) && Step(s, m, false).Some? && Overtaken(s, m)
    ensures Step(s, m, false).value == Put(s, m.t, UnlockWrOut(At(s, m.t).p, Some(At(s, m.t).r)))
    ensures Misplaced(Step(s, m, false).value, m.t, At(s, m.t).r)
  {
    hide Step, Put, Misplaced, RefsOk, TokensOk, LocksOk, LocalOk, CountsOk, CollectorsOk;
    var p, r := At(s, m.t).p, At(s, m.t).r;
    if p in s.tree {
      TreeInHeap(s, p, refs, tokens);
    }
    OvertakenStep(s, m);
    EntriesElsewhere(s, m.t, r, refs);
    StaysMisplaced(s, m.t, UnlockWrOut(p, Some(r)), r);
  }

  lemma OvertakenStep(s: State, m: Move)
    requires Step(s, m, false).Some? && Overtaken(s, m)
    requires At(s, m.t).p in s.tree ==> s.tree[At(s, m.t).p] in s.heap
    ensures Step(s, m, false).value == Put(s, m.t, UnlockWrOut(At(s, m.t).p, Some(At(s, m.t).r)))
  {
    hide Put;
  }

  lemma StaysMisplaced(s: State, t: Thread, l: Local, r: Ref)
    requires Misplaced(s, t, r)
    ensures Misplaced(Put(s, t, l), t, r)
  {
    var s' := Put(s, t, l);
    assert forall u: Thread :: u != t ==> At(s', u) == At(s, u);
  }

  lemma OvertakenBreaks(s: State, m: Move, refs: map<Ref, RefPlace>, tokens: map<Token, TokenPlace>)
    requires Inv(s, refs, tokens) && Step(s, m, false).Some? && Overtaken(s, m)
    ensures !Accounted(Step(s, m, false).value)
  {
    OvertakenMisplaces(s, m, refs, tokens);
    var s', r := Step(s, m, false).value, At(s, m.t).r;
    hide RefsOk, TokensOk, LocksOk, LocalOk, CountsOk, CollectorsOk, Misplaced;
    forall refs': map<Ref, RefPlace>, tokens': map<Token, TokenPlace>
      ensures !Inv(s', refs', tokens')
    {
      MisplacedMeans(s', m.t, r, refs');
    }
  }

  ghost predicate AlwaysAccounted(moves: seq<Move>)
    decreases |moves|
  {
    && (Run(INITIAL, moves, false).Some? ==> Accounted(Run(INITIAL, moves, false).value))
    && (moves != [] ==> AlwaysAccounted(moves[..|moves| - 1]))
  }

  /** As written, the accounts hold at every point of a run exactly when no second look is overtaken in it. */
  lemma {:induction false} AsWrittenExactly(moves: seq<Move>)
    requires Run(INITIAL, moves, false).Some?
    ensures AlwaysAccounted(moves) <==> Orderly(INITIAL, moves, false)
    decreases |moves|
  {
    if moves == [] {
      InitialInv();
    } else {
      var before := moves[..|moves| - 1];
      AsWrittenExactly(before);
      if Orderly(INITIAL, before, false) {
        RegistryConserved(before, false);
        var s := Run(INITIAL, before, false).value;
        var m := moves[|moves| - 1];
        hide Inv;
        if Overtaken(s, m) {
          OvertakenBreaks(s, m, RefsAfter(before, false), TokensAfter(before, false));
        } else {
          StepKeepsInv(s, m, false, RefsAfter(before, false), TokensAfter(before, false));
        }
      }
    }
  }

  // ---------------------------------------------------------------- where an overtaken second look leads

  lemma RunSnoc(s: State, moves: seq<Move>, m: Move, cleared: bool)
    requires Run(s, moves, cleared).Some?
    ensures Run(s, moves + [m], cleared) == Step(Run(s, moves, cleared).value, m, cleared)
  {
    assert (moves + [m])[..|moves|] == moves;
  }

  lemma {:induction false} RunConcat(s: State, before: seq<Move>, more: seq<Move>, cleared: bool)
    requires Run(s, before, cleared).Some?
    ensures Run(s, before + more, cleared) == Run(Run(s, before, cleared).value, more, cleared)
    decreases |more|
  {
    if more == [] {
      assert before + more == before;
    } else {
      RunConcat(s, before, more[..|more| - 1], cleared);
      assert (before + more)[..|before + more| - 1] == before + more[..|more| - 1];
    }
  }

  lemma {:induction false} OrderlyConcat(s: State, before: seq<Move>, more: seq<Move>, cleared: bool)
    requires Run(s, before, cleared).Some?
    ensures Orderly(s, before + more, cleared)
            <==> Orderly(s, before, cleared) && Orderly(Run(s, before, cleared).value, more, cleared)
    decreases |more|
  {
    if more == [] {
      assert before + more == before;
    } else {
      var less := more[..|more| - 1];
      OrderlyConcat(s, before, less, cleared);
      RunConcat(s, before, less, cleared);
      hide Run, Overtaken;
      assert (before + more)[..|before + more| - 1] == before + less;
      assert (before + more)[|before + more| - 1] == more[|more| - 1];
    }
  }

  /** One more move that is not an overtaken second look. */
  lemma GoOn(s: State, moves: seq<Move>, m: Move)
    requires Run(s, moves, false).Some? && Orderly(s, moves, false) && !Overtaken(Run(s, moves, false).value, m)
    ensures Run(s, moves + [m], false) == Step(Run(s, moves, false).value, m, false)
    ensures Orderly(s, moves + [m], false)
  {
    hide Overtaken, Step;
    assert (moves + [m])[..|moves|] == moves;
  }

  /** The three last moves of dav_unlock, from the end of the second look. */
  ghost predicate HandMoved(s: State, s': State, t: Thread, p: Path, x: Ref) {
    && OnlyMoved(s, s', t) && s'.tree == s.tree
    && (At(s, t).UnlockWrOut? ==> At(s', t) == UnlockSend(p, x) && s'.writer == None && s'.heap == s.heap)
    && (At(s, t).UnlockSend? ==> At(s', t) == UnlockFree(p, x) && s'.writer == s.writer && s'.heap == s.heap)
    && (At(s, t).UnlockFree? ==> At(s', t) == Idle && s'.writer == s.writer && x !in s'.heap)
    && (s.fault || (x !in s.heap && !At(s, t).UnlockWrOut?) ==> s'.fault)
  }

  lemma Sends(s: State, t: Thread, p: Path, x: Ref)
    requires At(s, t) == UnlockSend(p, x)
    ensures HandMoved(s, SendUnlock(s, t, p, x, Good), t, p, x)
  {
  }

  lemma HandMove(s: State, t: Thread, p: Path, x: Ref) returns (s': State)
    requires At(s, t) == UnlockWrOut(p, Some(x)) || At(s, t) == UnlockSend(p, x) || At(s, t) == UnlockFree(p, x)
    ensures Step(s, Go(t, Good), false) == Some(s') && HandMoved(s, s', t, p, x)
  {
    s' := Step(s, Go(t, Good), false).value;
    if At(s, t).UnlockSend? {
      Sends(s, t, p, x);
      hide *;
    }
  }

  /** The moves of this thread from the end of the second look to the return. */
  lemma Released(s: State, t: Thread, p: Path, r: Ref) returns (more: seq<Move>, s': State)
    requires At(s, t) == UnlockWrOut(p, Some(r)) && s.writer == Some(t)
    ensures Run(s, more, false) == Some(s') && Orderly(s, more, false)
    ensures r !in s.heap ==> s'.fault
    ensures At(s', t) == Idle && OnlyMoved(s, s', t) && s'.writer == None && s'.tree == s.tree && r !in s'.heap
  {
    var go := Go(t, Good);
    assert Run(s, [], false) == Some(s) && Orderly(s, [], false);
    hide Run, Step, Orderly;
    GoOn(s, [], go);
    var s1 := HandMove(s, t, p, r);
    GoOn(s, [] + [go], go);
    var s2 := HandMove(s1, t, p, r);
    GoOn(s, [] + [go] + [go], go);
    s' := HandMove(s2, t, p, r);
    more := [] + [go] + [go] + [go];
  }

  /** The first steps of a dav_lock of a path that is in the table, when no one has the write lock. */
  lemma FindsEntry(s: State, t: Thread, q: Path) returns (more: seq<Move>, s': State)
    requires At(s, t) == Idle && s.writer == None && q in s.tree
    ensures Run(s, more, false) == Some(s') && Orderly(s, more, false)
    ensures At(s', t) == LockInc(q, s.tree[q]) && s'.heap == s.heap
  {
    var go := Go(t, Good);
    var s1 := Put(s, t, LockRd(q));
    var s2 := Put(s1.(readers := s.readers + {t}), t, LockFind(q));
    s' := Put(s2, t, LockInc(q, s.tree[q]));
    assert Run(s, [], false) == Some(s) && Orderly(s, [], false);
    hide Run, Orderly;
    GoOn(s, [], CallLock(t, q));
    GoOn(s, [] + [CallLock(t, q)], go);
    GoOn(s, [] + [CallLock(t, q)] + [go], go);
    more := [] + [CallLock(t, q)] + [go] + [go];
  }

  /** An entry freed while in the table: the next dav_lock of its path uses it. */
  lemma DanglingFaults(s: State, t: Thread, q: Path) returns (more: seq<Move>)
    requires At(s, t) == Idle && s.writer == None && q in s.tree && s.tree[q] !in s.heap
    ensures Run(s, more, false).Some? && Orderly(s, more, false) && Run(s, more, false).value.fault
  {
    var s1: State;
    more, s1 := FindsEntry(s, t, q);
    hide Run, Orderly;
    GoOn(s, more, Go(t, Good));
    more := more + [Go(t, Good)];
  }

  /** After an overtaken second look some continuation, with no further one in it, uses a freed entry. */
  lemma OvertakenFaults(s: State, m: Move, refs: map<Ref, RefPlace>, tokens: map<Token, TokenPlace>) returns (more: seq<Move>)
    requires Inv(s, refs, tokens) && Step(s, m, false).Some? && Overtaken(s, m)
    ensures var s' := Step(s, m, false).value;
      Run(s', more, false).Some? && Orderly(s', more, false) && Run(s', more, false).value.fault
  {
    hide Run, Step, Misplaced, Orderly, RefsOk, TokensOk, LocalOk, CountsOk, CollectorsOk;
    OvertakenMisplaces(s, m, refs, tokens);
    var t, p, r, s' := m.t, At(s, m.t).p, At(s, m.t).r, Step(s, m, false).value;
    WriterAlone(s, t);
    hide Inv;
    var s1: State;
    more, s1 := Released(s', t, p, r);
    if r in s.heap {
      MisplacedCases(s', t, r);
      if q: Path :| q in s'.tree && s'.tree[q] == r {
        var rest := DanglingFaults(s1, t, q);
        RunConcat(s', more, rest, false);
        OrderlyConcat(s', more, rest, false);
        more := more + rest;
      } else {
        var u: Thread :| u != t && Unlinked(At(s', u)) == Some(r);
        assert At(s, u) == At(s', u) == At(s1, u) && !InWrite(At(s, u));
        GoOn(s', more, Go(u, Good));
        var s2 := HandMove(s1, u, At(s, u).p, r);
        more := more + [Go(u, Good)];
      }
    }
  }

  predicate Faults(moves: seq<Move>) {
    Run(INITIAL, moves, false).Some? && Run(INITIAL, moves, false).value.fault
  }

  /** After k of these moves, freed memory can be used without another second look being overtaken. */
  ghost predicate FaultsFrom(moves: seq<Move>, k: nat, more: seq<Move>) {
    && k <= |moves| && Run(INITIAL, moves[..k], false).Some?
    && Orderly(Run(INITIAL, moves[..k], false).value, more, false) && Faults(moves[..k] + more)
  }

  ghost predicate CanFault(moves: seq<Move>) {
    exists k: nat, more: seq<Move> :: FaultsFrom(moves, k, more)
  }

  /**
   * A run of the code as written can lead to the use of a freed entry, by moves among which no second look is
   * overtaken, if and only if one was overtaken in the run.
   */
  lemma FaultsExactlyWhenOvertaken(moves: seq<Move>)
    requires Run(INITIAL, moves, false).Some?
    ensures !Orderly(INITIAL, moves, false) <==> CanFault(moves)
  {
    if Orderly(INITIAL, moves, false) {
      forall k: nat, more: seq<Move>
        ensures !FaultsFrom(moves, k, more)
      {
        if k <= |moves| && Run(INITIAL, moves[..k], false).Some? {
          OrderlyNeverFaults(moves, k, more);
        }
      }
    } else {
      var k, more := FirstOvertaken(moves);
      assert FaultsFrom(moves, k, more);
    }
  }

  lemma OrderlyNeverFaults(moves: seq<Move>, k: nat, more: seq<Move>)
    requires Orderly(INITIAL, moves, false) && k <= |moves| && Run(INITIAL, moves[..k], false).Some?
    ensures !FaultsFrom(moves, k, more)
  {
    assert moves == moves[..k] + moves[k..];
    OrderlyConcat(INITIAL, moves[..k], moves[k..], false);
    OrderlyConcat(INITIAL, moves[..k], more, false);
    if Run(INITIAL, moves[..k] + more, false).Some? && Orderly(INITIAL, moves[..k] + more, false) {
      RegistryConserved(moves[..k] + more, false);
    }
  }

  lemma {:induction false} FirstOvertaken(moves: seq<Move>) returns (k: nat, more: seq<Move>)
    requires Run(INITIAL, moves, false).Some? && !Orderly(INITIAL, moves, false)
    ensures FaultsFrom(moves, k, more)
    decreases |moves|
  {
    var before := moves[..|moves| - 1];
    if Orderly(INITIAL, before, false) {
      RegistryConserved(before, false);
      hide Inv, Step;
      var s := Run(INITIAL, before, false).value;
      more := OvertakenFaults(s, moves[|moves| - 1], RefsAfter(before, false), TokensAfter(before, false));
      RunConcat(INITIAL, moves, more, false);
      k := |moves|;
      assert moves[..k] == moves;
    } else {
      k, more := FirstOvertaken(before);
      assert moves[..k] == before[..k];
    }
  }

  // ---------------------------------------------------------------- a run that is not orderly

  /** Field by field, so that maps are compared by their entries. */
  predicate Same(a: State, b: State) {
    && a.tree == b.tree && a.heap == b.heap && a.nextRef == b.nextRef && a.readers == b.readers && a.writer == b.writer
    && a.active == b.active && a.nextToken == b.nextToken && a.orphans == b.orphans && a.open == b.open
    && a.nextTicket == b.nextTicket && a.locals == b.locals && a.fault == b.fault && a.missing == b.missing
  }

  ghost predicate Reached(s: State) {
    exists moves: seq<Move> :: Run(INITIAL, moves, false) == Some(s)
  }

  lemma Reach(s: State, m: Move, s': State)
    requires Reached(s) && Step(s, m, false).Some? && Same(Step(s, m, false).value, s')
    ensures Reached(s')
  {
    var moves: seq<Move> :| Run(INITIAL, moves, false) == Some(s);
    RunSnoc(INITIAL, moves, m, false);
    assert Step(s, m, false).value == s';
  }

  const ENTRY := FileLock(0, 0, 1)
  /** A lock has been granted on path 0 and entered by thread 0. */
  const OPENED := State(map[0 := 0], map[0 := ENTRY], 1, {}, None, map[0 := 0], 1, {}, map[0 := 0], 1,
                        map[0 := Idle], false, false)
  /** Thread 0 is releasing it and has counted down to 0. */
  const RELEASED := OPENED.(heap := map[0 := FileLock(0, 0, 0)], open := map[], locals := map[0 := UnlockWr(0, 0)])
  /** Before it looks again, thread 1 has opened the file once more. */
  const REOPENED := RELEASED.(heap := map[0 := ENTRY], open := map[1 := 0], nextTicket := 2,
                              locals := map[0 := UnlockWr(0, 0), 1 := Idle])
  const OVERTAKEN := REOPENED.(writer := Some(0), locals := map[0 := UnlockRecheck(0, 0), 1 := Idle])

  lemma ReachSearched()
    ensures Reached(INITIAL.(readers := {0}, locals := map[0 := LockRdOut(0, false)]))
  {
    var s, go := INITIAL, Go(0, Good);
    assert Run(INITIAL, [], false) == Some(INITIAL);
    hide Reached, Run;
    Reach(s, CallLock(0, 0), s.(locals := map[0 := LockRd(0)]));
    Reach(s.(locals := map[0 := LockRd(0)]), go, s.(readers := {0}, locals := map[0 := LockFind(0)]));
    Reach(s.(readers := {0}, locals := map[0 := LockFind(0)]), go, s.(readers := {0}, locals := map[0 := LockRdOut(0, false)]));
  }

  lemma ReachWaiting()
    ensures Reached(INITIAL.(locals := map[0 := LockWr(0)]))
  {
    var s, go := INITIAL, Go(0, Good);
    ReachSearched();
    hide Reached, Run;
    Reach(s.(readers := {0}, locals := map[0 := LockRdOut(0, false)]), go, s.(locals := map[0 := LockAlloc(0)]));
    Reach(s.(locals := map[0 := LockAlloc(0)]), go, s.(locals := map[0 := LockWr(0)]));
  }

  lemma ReachAsked()
    ensures Reached(INITIAL.(writer := Some(0), locals := map[0 := LockRequest(0)]))
  {
    var s, go := INITIAL, Go(0, Good);
    ReachWaiting();
    hide Reached, Run;
    Reach(s.(locals := map[0 := LockWr(0)]), go, s.(writer := Some(0), locals := map[0 := LockRecheck(0)]));
    Reach(s.(writer := Some(0), locals := map[0 := LockRecheck(0)]), go,
          s.(writer := Some(0), locals := map[0 := LockRequest(0)]));
  }

  lemma ReachGranted()
    ensures Reached(OPENED.(writer := Some(0), open := map[], nextTicket := 0, tree := map[], heap := map[], nextRef := 0,
                            locals := map[0 := LockInsert(0, 0)]))
  {
    var s := OPENED.(writer := Some(0), open := map[], nextTicket := 0);
    ReachAsked();
    hide Reached, Run;
    Reach(INITIAL.(writer := Some(0), locals := map[0 := LockRequest(0)]), Go(0, Good),
          s.(tree := map[], heap := map[], nextRef := 0, locals := map[0 := LockInsert(0, 0)]));
  }

  lemma ReachOpened()
    ensures Reached(OPENED)
  {
    var s, go := OPENED.(writer := Some(0), open := map[], nextTicket := 0), Go(0, Good);
    ReachGranted();
    hide Reached, Run;
    Reach(s.(tree := map[], heap := map[], nextRef := 0, locals := map[0 := LockInsert(0, 0)]), go,
          s.(locals := map[0 := LockWrOut(0, true)]));
    Reach(s.(locals := map[0 := LockWrOut(0, true)]), go, OPENED);
  }

  lemma ReachReleasing()
    ensures Reached(OPENED.(open := map[], readers := {0}, locals := map[0 := UnlockDec(0, 0)]))
  {
    var s, go := OPENED.(open := map[]), Go(0, Good);
    ReachOpened();
    hide Reached;
    Reach(OPENED, CallUnlock(0, 0), s.(locals := map[0 := UnlockRd(0)]));
    Reach(s.(locals := map[0 := UnlockRd(0)]), go, s.(readers := {0}, locals := map[0 := UnlockFind(0)]));
    Reach(s.(readers := {0}, locals := map[0 := UnlockFind(0)]), go, s.(readers := {0}, locals := map[0 := UnlockDec(0, 0)]));
  }

  lemma ReachReleased()
    ensures Reached(RELEASED)
  {
    var go := Go(0, Good);
    ReachReleasing();
    hide Reached;
    Reach(OPENED.(open := map[], readers := {0}, locals := map[0 := UnlockDec(0, 0)]), go,
          RELEASED.(readers := {0}, locals := map[0 := UnlockRdOut(0, Some(0))]));
    Reach(RELEASED.(readers := {0}, locals := map[0 := UnlockRdOut(0, Some(0))]), go, RELEASED);
  }

  lemma ReachFoundAgain()
    ensures Reached(RELEASED.(readers := {1}, locals := map[0 := UnlockWr(0, 0), 1 := LockInc(0, 0)]))
  {
    var s, go, wait := RELEASED, Go(1, Good), UnlockWr(0, 0);
    ReachReleased();
    hide Reached;
    Reach(s, CallLock(1, 0), s.(locals := map[0 := wait, 1 := LockRd(0)]));
    Reach(s.(locals := map[0 := wait, 1 := LockRd(0)]), go, s.(readers := {1}, locals := map[0 := wait, 1 := LockFind(0)]));
    Reach(s.(readers := {1}, locals := map[0 := wait, 1 := LockFind(0)]), go,
          s.(readers := {1}, locals := map[0 := wait, 1 := LockInc(0, 0)]));
  }

  lemma ReachReopened()
    ensures Reached(REOPENED)
  {
    var s, go, wait := RELEASED, Go(1, Good), UnlockWr(0, 0);
    ReachFoundAgain();
    hide Reached;
    Reach(s.(readers := {1}, locals := map[0 := wait, 1 := LockInc(0, 0)]), go,
          s.(readers := {1}, heap := map[0 := ENTRY], locals := map[0 := wait, 1 := LockRdOut(0, true)]));
    Reach(s.(readers := {1}, heap := map[0 := ENTRY], locals := map[0 := wait, 1 := LockRdOut(0, true)]), go, REOPENED);
  }

  lemma ReachOvertaken()
    ensures Reached(OVERTAKEN) && Overtaken(OVERTAKEN, Go(0, Good))
  {
    ReachReopened();
    hide Reached;
    Reach(REOPENED, Go(0, Good), OVERTAKEN);
  }

  /** It does happen: one release overtaken by one open of the same file, and a freed entry can be used. */
  lemma OvertakingHappens()
    ensures exists moves: seq<Move> ::
      Run(INITIAL, moves, false).Some? && !Orderly(INITIAL, moves, false) && CanFault(moves)
  {
    ReachOvertaken();
    var moves: seq<Move> :| Run(INITIAL, moves, false) == Some(OVERTAKEN);
    RunSnoc(INITIAL, moves, Go(0, Good), false);
    assert (moves + [Go(0, Good)])[..|moves|] == moves;
    FaultsExactlyWhenOvertaken(moves + [Go(0, Good)]);
  }
}
