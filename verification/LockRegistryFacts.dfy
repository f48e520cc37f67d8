/** What the accounts of dav_lock and dav_unlock mean to a caller. */
module LockRegistryFacts {
  import opened Options
  import opened LockRegistry
  import opened LockRegistryMoves
  import opened LockRegistryRuns
  import opened LockRegistrySafety

  /** The state after a run, with the second look repaired, or as written with none overtaken. */
  ghost predicate Sound(s: State) {
    exists moves: seq<Move>, cleared: bool ::
      Run(INITIAL, moves, cleared) == Some(s) && (cleared || Orderly(INITIAL, moves, cleared))
  }

  lemma SoundAccounts(s: State)
    requires Sound(s)
    ensures Accounted(s)
  {
    var moves: seq<Move>, cleared: bool :|
      Run(INITIAL, moves, cleared) == Some(s) && (cleared || Orderly(INITIAL, moves, cleared));
    RegistryConserved(moves, cleared);
  }

  lemma EntryAnswers(s: State, p: Path, refs: map<Ref, RefPlace>)
    requires RefsOk(s, refs) && p in s.tree
    ensures s.tree[p] in s.heap && Answers(s, s.tree[p]) && s.heap[s.tree[p]].path == p
  {
    var r := s.tree[p];
    assert refs[r] == Linked(p);
    assert forall t: Thread :: Unlinked(At(s, t)) != Some(r);
    assert forall t: Thread :: Sent(At(s, t), r) ==> Unlinked(At(s, t)) == Some(r);
  }

  lemma ClaimedEntry(s: State, p: Path, c: Claim)
    requires CountsOk(s) && Counts(s, p, c)
    ensures p in s.tree && (s.tree[p] in s.heap ==> s.heap[s.tree[p]].cnt >= 1)
  {
    assert c in Claims(s, p);
    assert |Claims(s, p) - {c}| == |Claims(s, p)| - 1;
  }

  /** An open file has an entry in the table, a live one, and the entry answers for the one lock on its path. */
  lemma OpenFileIsLocked(s: State, k: Ticket)
    requires Sound(s) && k in s.open
    ensures s.open[k] in s.tree && s.tree[s.open[k]] in s.heap
    ensures var e := s.heap[s.tree[s.open[k]]]; e.path == s.open[k] && e.cnt >= 1
    ensures var e := s.heap[s.tree[s.open[k]]]; e.token in s.active && s.active[e.token] == s.open[k]
  {
    hide Sound;
    SoundAccounts(s);
    var refs: map<Ref, RefPlace>, tokens: map<Token, TokenPlace> :| Inv(s, refs, tokens);
    hide CountsOk, RefsOk, LocksOk, LocalOk, CollectorsOk, CarriedOk, OrphanedOk, Answers;
    ClaimedEntry(s, s.open[k], Open(k));
    EntryAnswers(s, s.open[k], refs);
  }

  /** LOCK is asked only by the one thread in the write section, and only for a path without an entry. */
  lemma OneAsksAtATime(s: State, t: Thread, u: Thread, p: Path)
    requires Sound(s) && At(s, t) == LockRequest(p) && (At(s, u).LockRequest? || At(s, u).LockInsert?)
    ensures u == t && p !in s.tree && (forall c :: !Counts(s, p, c))
  {
    SoundAccounts(s);
    var refs: map<Ref, RefPlace>, tokens: map<Token, TokenPlace> :| Inv(s, refs, tokens);
    WriterAlone(s, t);
    assert LocalOk(s, At(s, t));
    assert forall c :: c in Claims(s, p) <==> Counts(s, p, c);
  }

  ghost predicate AllIdle(s: State) {
    forall t: Thread :: At(s, t) == Idle
  }

  lemma IdleTableEmpty(s: State)
    requires CountsOk(s) && CollectorsOk(s) && s.open == map[] && AllIdle(s)
    requires forall p: Path :: p in s.tree ==> s.tree[p] in s.heap
    ensures s.tree == map[]
  {
    forall p: Path
      ensures p !in s.tree
    {
      assert Claims(s, p) == {};
      assert forall t: Thread :: !Collecting(At(s, t), p);
    }
  }

  lemma IdleHeapEmpty(s: State, refs: map<Ref, RefPlace>)
    requires RefsOk(s, refs) && s.tree == map[] && AllIdle(s)
    ensures s.heap == map[]
  {
    forall r: Ref
      ensures r !in s.heap
    {
      assert At(s, 0) == Idle;
      EntriesElsewhere(s, 0, r, refs);
    }
  }

  /** When every call has returned and every file is released, no entry is left and every lock left is an orphan. */
  lemma QuietMeansEmpty(s: State)
    requires Sound(s) && s.open == map[] && AllIdle(s)
    ensures s.tree == map[] && s.heap == map[] && s.active.Keys == s.orphans
  {
    SoundAccounts(s);
    hide Sound;
    var refs: map<Ref, RefPlace>, tokens: map<Token, TokenPlace> :| Inv(s, refs, tokens);
    hide StoredOk, CarriedOk, LocksOk, LocalOk, CountsOk, CollectorsOk, AllIdle;
    IdleTableEmpty(s);
    IdleHeapEmpty(s, refs);
    forall tok: Token
      ensures tok in s.active <==> tok in s.orphans
    {
      if tok in s.active {
        LockPlace(s, tok, refs, tokens);
      }
    }
  }

  lemma LockPlace(s: State, tok: Token, refs: map<Ref, RefPlace>, tokens: map<Token, TokenPlace>)
    requires Inv(s, refs, tokens) && tok in s.active && s.heap == map[] && AllIdle(s)
    ensures tok in s.orphans
  {
    assert forall r: Ref :: !Answers(s, r);
    assert forall t: Thread :: Inserting(At(s, t)) != Some(tok);
    assert tok in tokens && tokens[tok] == Orphaned;
  }

  // ---------------------------------------------------------------- locks that are lost

  /** The reply to a granted LOCK is rejected, the insertion fails, or the UNLOCK fails. */
  predicate Loses(s: State, m: Move) {
    m.Go? && match At(s, m.t)
      case LockRequest(_) => m.reply == Garbled
      case LockInsert(_, _) => m.reply != Good
      case UnlockSend(_, _) => m.reply != Good
      case _ => false
  }

  // ---------------------------------------------------------------- double-checked insertion

  /** dav_lock is called any number of times, and dav_unlock not at all. */
  predicate OnlyLocks(moves: seq<Move>) {
    forall i :: 0 <= i < |moves| ==> !moves[i].CallUnlock?
  }

  /** Nobody is inside dav_unlock. */
  ghost predicate NoUnlocks(s: State) {
    forall t: Thread :: At(s, t) == Idle || IsLock(At(s, t))
  }

  /** The move by which a dav_lock of p enters p into the table. */
  predicate Inserts(s: State, m: Move, p: Path) {
    m.Go? && At(s, m.t).LockInsert? && At(s, m.t).p == p && m.reply == Good
  }

  /** The path for which dav_lock returns success next. */
  function Returning(l: Local): Option<Path> {
    match l
    case LockRdOut(p, found) => if found then Some(p) else None
    case LockWrOut(p, ok) => if ok then Some(p) else None
    case _ => None
  }

  predicate Grants(s: State, m: Move, p: Path) {
    m.Go? && Asks(s, m.t, m.reply) && At(s, m.t).p == p
  }

  predicate Returns(s: State, m: Move, p: Path) {
    m.Go? && Returning(At(s, m.t)) == Some(p)
  }

  function Insertions(moves: seq<Move>, p: Path, cleared: bool): nat
    decreases |moves|
  {
    if moves == [] then 0
    else
      var before := moves[..|moves| - 1];
      var s := Run(INITIAL, before, cleared);
      Insertions(before, p, cleared) + if s.Some? && Inserts(s.value, moves[|moves| - 1], p) then 1 else 0
  }

  /** The LOCK requests for p that the server granted. */
  function Granted(moves: seq<Move>, p: Path, cleared: bool): nat
    decreases |moves|
  {
    if moves == [] then 0
    else
      var before, m := moves[..|moves| - 1], moves[|moves| - 1];
      var s := Run(INITIAL, before, cleared);
      Granted(before, p, cleared) + if s.Some? && Grants(s.value, m, p) then 1 else 0
  }

  function Returned(moves: seq<Move>, p: Path, cleared: bool): nat
    decreases |moves|
  {
    if moves == [] then 0
    else
      var before := moves[..|moves| - 1];
      var s := Run(INITIAL, before, cleared);
      Returned(before, p, cleared) + if s.Some? && Returns(s.value, moves[|moves| - 1], p) then 1 else 0
  }

  function Tickets(s: State, p: Path): set<Ticket> {
    set k | k in s.open && s.open[k] == p
  }

  /** The calls for p under way that have counted themselves. */
  function InFlight(s: State, p: Path): set<Thread> {
    set t | t in s.locals && Claiming(s.locals[t], p)
  }

  /** The thread's LOCK is granted in this step. */
  predicate Asks(s: State, t: Thread, reply: Reply) {
    At(s, t).LockRequest? && reply != Bad
  }

  /** What a step of dav_lock does to the table, to the files that are open, and to the locks on the server. */
  ghost predicate Follows(s: State, s': State, t: Thread, reply: Reply) {
    && OnlyMoved(s, s', t) && (At(s', t) == Idle || IsLock(At(s', t)))
    && s'.tree == (if At(s, t).LockInsert? && reply == Good then s.tree[At(s, t).p := s.nextRef] else s.tree)
    && s'.open == (match Returning(At(s, t)) case Some(p) => s.open[s.nextTicket := p] case None => s.open)
    && (Loses(s, Go(t, reply)) || s'.orphans == s.orphans)
    && (if Asks(s, t, reply) then Grantable(s, At(s, t).p) && s'.active == s.active[s.nextToken := At(s, t).p]
        else s'.active == s.active)
    && (Returning(At(s', t)) == None ==> s'.tree == s.tree && s'.heap == s.heap)
  }

  lemma FollowsPut(s: State, s1: State, t: Thread, l: Local, reply: Reply)
    requires s1.locals == s.locals && (l == Idle || IsLock(l))
    requires s1.tree == (if At(s, t).LockInsert? && reply == Good then s.tree[At(s, t).p := s.nextRef] else s.tree)
    requires s1.open == (match Returning(At(s, t)) case Some(p) => s.open[s.nextTicket := p] case None => s.open)
    requires Loses(s, Go(t, reply)) || s1.orphans == s.orphans
    requires if Asks(s, t, reply) then Grantable(s, At(s, t).p) && s1.active == s.active[s.nextToken := At(s, t).p]
             else s1.active == s.active
    requires Returning(l) == None ==> s1.tree == s.tree && s1.heap == s.heap
    ensures Follows(s, Put(s1, t, l), t, reply)
  {
    Moved(s, s1, t, l);
  }

  lemma FollowsReturn(s: State, s1: State, t: Thread, p: Path, reply: Reply)
    requires At(s, t) == LockRdOut(p, true) || At(s, t) == LockWrOut(p, true)
    requires s1.locals == s.locals && s1.tree == s.tree && s1.open == s.open && s1.nextTicket == s.nextTicket
    requires s1.orphans == s.orphans && s1.active == s.active && s1.heap == s.heap
    ensures Follows(s, Opened(s1, t, p), t, reply)
  {
    var s2 := s1.(open := s.open[s.nextTicket := p], nextTicket := s.nextTicket + 1);
    FollowsPut(s, s2, t, Idle, reply);
    hide Follows;
  }

  lemma FollowsAsk(s: State, t: Thread, p: Path, reply: Reply)
    requires At(s, t) == LockRequest(p) && Ask(s, t, p, reply).Some?
    ensures Follows(s, Ask(s, t, p, reply).value, t, reply)
  {
    var s1 := s.(active := s.active[s.nextToken := p], nextToken := s.nextToken + 1);
    if reply == Bad {
      FollowsPut(s, s, t, LockWrOut(p, false), reply);
    } else if reply == Good {
      FollowsPut(s, s1, t, LockInsert(p, s.nextToken), reply);
    } else {
      FollowsPut(s, s1.(orphans := s.orphans + {s.nextToken}), t, LockWrOut(p, false), reply);
    }
  }

  lemma FollowsEnter(s: State, t: Thread, p: Path, tok: Token, reply: Reply)
    requires At(s, t) == LockInsert(p, tok)
    ensures Follows(s, Enter(s, t, p, tok, reply), t, reply)
  {
    if reply == Good {
      FollowsPut(s, s.(tree := s.tree[p := s.nextRef], heap := s.heap[s.nextRef := FileLock(p, tok, 1)], nextRef := s.nextRef + 1),
                 t, LockWrOut(p, true), reply);
    } else {
      FollowsPut(s, s.(orphans := s.orphans + {tok}), t, LockWrOut(p, false), reply);
    }
  }

  lemma FollowsBump(s: State, t: Thread, r: Ref, l: Local, reply: Reply)
    requires (At(s, t).LockInc? || At(s, t).LockRecheck?) && IsLock(l) && Returning(l).Some?
    ensures Follows(s, Put(Bump(s, r, 1), t, l), t, reply)
  {
    FollowsPut(s, Bump(s, r, 1), t, l, reply);
  }

  lemma LockReadFollows(s: State, t: Thread, reply: Reply)
    requires StepLock(s, t, reply).Some?
    requires At(s, t).LockRd? || At(s, t).LockFind? || At(s, t).LockInc? || At(s, t).LockRdOut? || At(s, t).LockAlloc?
    ensures Follows(s, StepLock(s, t, reply).value, t, reply)
  {
    hide Follows, Put, Bump, Opened, Ask, Enter, At;
    match At(s, t)
    case LockRd(p) => FollowsPut(s, s.(readers := s.readers + {t}), t, LockFind(p), reply);
    case LockFind(p) => FollowsPut(s, s, t, if p in s.tree then LockInc(p, s.tree[p]) else LockRdOut(p, false), reply);
    case LockInc(p, r) => FollowsBump(s, t, r, LockRdOut(p, true), reply);
    case LockRdOut(p, found) =>
      var s1 := s.(readers := s.readers - {t});
      if found {
        FollowsReturn(s, s1, t, p, reply);
      } else {
        FollowsPut(s, s1, t, LockAlloc(p), reply);
      }
    case LockAlloc(p) => FollowsPut(s, s, t, if reply == Good then LockWr(p) else Idle, reply);
  }

  lemma LockWriteFollows(s: State, t: Thread, reply: Reply)
    requires StepLock(s, t, reply).Some?
    requires At(s, t).LockWr? || At(s, t).LockRecheck? || At(s, t).LockRequest? || At(s, t).LockInsert? || At(s, t).LockWrOut?
    ensures Follows(s, StepLock(s, t, reply).value, t, reply)
  {
    hide Follows, Put, Bump, Opened, Ask, Enter, At;
    match At(s, t)
    case LockWr(p) => FollowsPut(s, s.(writer := Some(t)), t, LockRecheck(p), reply);
    case LockRecheck(p) =>
      if p in s.tree {
        FollowsBump(s, t, s.tree[p], LockWrOut(p, true), reply);
      } else {
        FollowsPut(s, s, t, LockRequest(p), reply);
      }
    case LockRequest(p) => FollowsAsk(s, t, p, reply);
    case LockInsert(p, tok) => FollowsEnter(s, t, p, tok, reply);
    case LockWrOut(p, ok) =>
      if ok {
        FollowsReturn(s, s.(writer := None), t, p, reply);
      } else {
        FollowsPut(s, s.(writer := None), t, Idle, reply);
      }
  }

  lemma LockFollows(s: State, t: Thread, reply: Reply)
    requires StepLock(s, t, reply).Some? && IsLock(At(s, t))
    ensures Follows(s, StepLock(s, t, reply).value, t, reply)
  {
    hide StepLock, Follows;
    if At(s, t).LockRd? || At(s, t).LockFind? || At(s, t).LockInc? || At(s, t).LockRdOut? || At(s, t).LockAlloc? {
      LockReadFollows(s, t, reply);
    } else {
      LockWriteFollows(s, t, reply);
    }
  }

  lemma TicketsAfter(s: State, s': State, t: Thread, p: Path)
    requires s'.open == (match Returning(At(s, t)) case Some(p) => s.open[s.nextTicket := p] case None => s.open)
    requires s.nextTicket !in s.open
    ensures |Tickets(s', p)| == |Tickets(s, p)| + if Returning(At(s, t)) == Some(p) then 1 else 0
  {
    hide At, Returning;
    match Returning(At(s, t))
    case None => assert Tickets(s', p) == Tickets(s, p);
    case Some(q) =>
      if q == p {
        assert Tickets(s', p) == Tickets(s, p) + {s.nextTicket};
      } else {
        assert Tickets(s', p) == Tickets(s, p);
      }
  }

  /** What only calls of dav_lock lead to: nobody unlocks, and table and tickets follow the insertions and returns. */
  ghost predicate Grown(s: State, moves: seq<Move>, p: Path, cleared: bool) {
    && NoUnlocks(s)
    && Insertions(moves, p, cleared) == (if p in s.tree then 1 else 0)
    && Returned(moves, p, cleared) == |Tickets(s, p)|
    && Granted(moves, p, cleared) == (if Grantable(s, p) then 0 else 1)
  }

  lemma LastIsLocks(moves: seq<Move>)
    requires OnlyLocks(moves) && moves != []
    ensures OnlyLocks(moves[..|moves| - 1]) && !moves[|moves| - 1].CallUnlock?
  {
  }

  lemma LocksOnly(s: State, s': State, t: Thread)
    requires NoUnlocks(s) && OnlyMoved(s, s', t) && (At(s', t) == Idle || IsLock(At(s', t)))
    ensures NoUnlocks(s')
  {
    forall u: Thread
      ensures At(s', u) == Idle || IsLock(At(s', u))
    {
      assert At(s, u) == Idle || IsLock(At(s, u));
    }
  }

  lemma TableGrows(s: State, s': State, t: Thread, reply: Reply, p: Path)
    requires Follows(s, s', t, reply) && (At(s, t).LockInsert? ==> At(s, t).p !in s.tree)
    ensures (if p in s'.tree then 1 else 0) == (if p in s.tree then 1 else 0) + if Inserts(s, Go(t, reply), p) then 1 else 0
  {
    hide OnlyMoved;
  }

  lemma TicketsGrow(s: State, s': State, t: Thread, reply: Reply, p: Path)
    requires Follows(s, s', t, reply) && s.nextTicket !in s.open
    ensures |Tickets(s', p)| == |Tickets(s, p)| + if Returns(s, Go(t, reply), p) then 1 else 0
  {
    TicketsAfter(s, s', t, p);
    hide OnlyMoved, Tickets;
  }

  lemma GrantsGrow(s: State, s': State, t: Thread, reply: Reply, p: Path)
    requires Follows(s, s', t, reply) && s.nextToken !in s.active
    ensures (if Grantable(s', p) then 0 else 1) == (if Grantable(s, p) then 0 else 1) + if Grants(s, Go(t, reply), p) then 1 else 0
  {
    hide OnlyMoved;
    if Asks(s, t, reply) {
      assert s'.active[s.nextToken] == At(s, t).p;
      assert forall tok :: tok in s.active ==> s'.active[tok] == s.active[tok];
    }
  }

  lemma GrownBy(s: State, s': State, t: Thread, reply: Reply, before: seq<Move>, p: Path, cleared: bool)
    requires Run(INITIAL, before, cleared) == Some(s) && Grown(s, before, p, cleared) && Accounted(s)
    requires Follows(s, s', t, reply)
    ensures Grown(s', before + [Go(t, reply)], p, cleared)
  {
    hide Grants, Grantable, Run, Accounted, NoUnlocks, Tickets, Inserts, Returns, OnlyMoved;
    SoundTickets(s, p, t);
    LocksOnly(s, s', t);
    TicketsGrow(s, s', t, reply, p);
    TableGrows(s, s', t, reply, p);
    GrantsGrow(s, s', t, reply, p);
    hide At, Follows;
    assert (before + [Go(t, reply)])[..|before|] == before;
  }

  lemma GrownCall(s: State, t: Thread, q: Path, before: seq<Move>, p: Path, cleared: bool)
    requires Run(INITIAL, before, cleared) == Some(s) && Grown(s, before, p, cleared)
    ensures Grown(Put(s, t, LockRd(q)), before + [CallLock(t, q)], p, cleared)
  {
    hide Run;
    assert (before + [CallLock(t, q)])[..|before|] == before;
    var s' := Put(s, t, LockRd(q));
    LocksOnly(s, s', t);
    assert Tickets(s', p) == Tickets(s, p);
  }

  lemma GrownStep(s: State, m: Move, before: seq<Move>, p: Path, cleared: bool)
    requires Run(INITIAL, before, cleared) == Some(s) && Grown(s, before, p, cleared) && Accounted(s)
    requires Step(s, m, cleared).Some? && !m.CallUnlock?
    ensures Grown(Step(s, m, cleared).value, before + [m], p, cleared) && !Overtaken(s, m)
  {
    hide Accounted, Run, Follows, StepLock, StepUnlock;
    match m
    case CallLock(t, q) => GrownCall(s, t, q, before, p, cleared);
    case Go(t, reply) =>
      assert At(s, t) == Idle || IsLock(At(s, t));
      assert IsLock(At(s, t)) by {
        if At(s, t) == Idle { IdleIsStuck(s, t, reply, cleared); }
      }
      LockFollows(s, t, reply);
      GrownBy(s, StepLock(s, t, reply).value, t, reply, before, p, cleared);
  }

  lemma IdleIsStuck(s: State, t: Thread, reply: Reply, cleared: bool)
    requires At(s, t) == Idle
    ensures StepUnlock(s, t, reply, cleared) == None
  {
  }

  lemma SoundTickets(s: State, p: Path, t: Thread)
    requires Accounted(s)
    ensures s.nextTicket !in s.open && s.nextToken !in s.active
    ensures At(s, t).LockInsert? ==> At(s, t).p !in s.tree
  {
    var refs: map<Ref, RefPlace>, tokens: map<Token, TokenPlace> :| Inv(s, refs, tokens);
    assert LocalOk(s, At(s, t));
  }

  lemma {:induction false} OnlyLocksGrow(moves: seq<Move>, p: Path, cleared: bool)
    requires Run(INITIAL, moves, cleared).Some? && OnlyLocks(moves)
    ensures Grown(Run(INITIAL, moves, cleared).value, moves, p, cleared) && Orderly(INITIAL, moves, cleared)
    decreases |moves|
  {
    hide Grown;
    if moves == [] {
      NothingGrown(p, cleared);
    } else {
      LastIsLocks(moves);
      OnlyLocksGrow(moves[..|moves| - 1], p, cleared);
      RegistryConserved(moves[..|moves| - 1], cleared);
      GrowByLast(moves, p, cleared, RefsAfter(moves[..|moves| - 1], cleared), TokensAfter(moves[..|moves| - 1], cleared));
    }
  }

  lemma GrowByLast(moves: seq<Move>, p: Path, cleared: bool, refs: map<Ref, RefPlace>, tokens: map<Token, TokenPlace>)
    requires moves != [] && Run(INITIAL, moves, cleared).Some? && !moves[|moves| - 1].CallUnlock?
    requires var before := moves[..|moves| - 1];
      && Run(INITIAL, before, cleared).Some? && Inv(Run(INITIAL, before, cleared).value, refs, tokens)
      && Grown(Run(INITIAL, before, cleared).value, before, p, cleared) && Orderly(INITIAL, before, cleared)
    ensures Grown(Run(INITIAL, moves, cleared).value, moves, p, cleared) && Orderly(INITIAL, moves, cleared)
  {
    hide Grown, Overtaken, Inv, Step;
    var before, m := moves[..|moves| - 1], moves[|moves| - 1];
    var s := Run(INITIAL, before, cleared).value;
    assert Accounted(s);
    hide Accounted;
    assert moves == before + [m];
    GrownStep(s, m, before, p, cleared);
  }

  lemma NothingGrown(p: Path, cleared: bool)
    ensures Grown(INITIAL, [], p, cleared)
  {
    assert Tickets(INITIAL, p) == {};
  }

  /**
   * Any number of dav_lock calls in any interleaving, some of whose requests fail: a path is granted one LOCK at most
   * and entered at most once, it is entered if and only if it is in the table, and its count is the calls that returned
   * success and those about to.
   */
  lemma DoubleCheckedInsertion(moves: seq<Move>, p: Path, cleared: bool)
    requires Run(INITIAL, moves, cleared).Some? && OnlyLocks(moves)
    ensures Granted(moves, p, cleared) <= 1
    ensures Insertions(moves, p, cleared) == if p in Run(INITIAL, moves, cleared).value.tree then 1 else 0
    ensures var s := Run(INITIAL, moves, cleared).value;
      if p in s.tree then s.tree[p] in s.heap && s.heap[s.tree[p]].cnt == Returned(moves, p, cleared) + |InFlight(s, p)|
      else Returned(moves, p, cleared) == 0
  {
    var s := Run(INITIAL, moves, cleared).value;
    OnlyLocksGrow(moves, p, cleared);
    assert Sound(s);
    SoundAccounts(s);
    hide Sound, Run;
    var refs: map<Ref, RefPlace>, tokens: map<Token, TokenPlace> :| Inv(s, refs, tokens);
    ClaimsCounted(s, p);
    if p in s.tree {
      TreeInHeap(s, p, refs, tokens);
    }
  }

  lemma ClaimsCounted(s: State, p: Path)
    ensures |Claims(s, p)| == |Tickets(s, p)| + |InFlight(s, p)|
  {
    var opens := set k | k in Tickets(s, p) :: Open(k);
    var flights := set t | t in InFlight(s, p) :: Flying(t);
    OpensCounted(Tickets(s, p));
    FlightsCounted(InFlight(s, p));
    ClaimsSplit(s, p, opens, flights);
    assert opens !! flights;
    hide *;
  }

  lemma ClaimsSplit(s: State, p: Path, opens: set<Claim>, flights: set<Claim>)
    requires opens == (set k | k in Tickets(s, p) :: Open(k))
    requires flights == (set t | t in InFlight(s, p) :: Flying(t))
    ensures Claims(s, p) == opens + flights
  {
    hide Claims, Claiming;
    forall c: Claim
      ensures c in Claims(s, p) <==> c in opens + flights
    {
      assert c in Claims(s, p) <==> Counts(s, p, c);
      match c
      case Open(k) =>
        assert c in opens <==> k in Tickets(s, p);
        assert c !in flights;
      case Flying(t) =>
        IdleClaims(p);
        assert c in flights <==> t in InFlight(s, p);
        assert c !in opens;
    }
  }

  lemma IdleClaims(p: Path)
    ensures !Claiming(Idle, p)
  {
  }

  lemma {:induction false} OpensCounted(ks: set<Ticket>)
    ensures |set k | k in ks :: Open(k)| == |ks|
  {
    if ks != {} {
      var x :| x in ks;
      OpensCounted(ks - {x});
      assert (set k | k in ks :: Open(k)) == (set k | k in ks - {x} :: Open(k)) + {Open(x)};
    }
  }

  lemma {:induction false} FlightsCounted(ts: set<Thread>)
    ensures |set t | t in ts :: Flying(t)| == |ts|
  {
    if ts != {} {
      var x :| x in ts;
      FlightsCounted(ts - {x});
      assert (set t | t in ts :: Flying(t)) == (set t | t in ts - {x} :: Flying(t)) + {Flying(x)};
    }
  }

  // ---------------------------------------------------------------- calls that fail

  lemma UnlockMoves(s: State, t: Thread, reply: Reply, cleared: bool)
    requires StepUnlock(s, t, reply, cleared).Some?
    ensures OnlyMoved(s, StepUnlock(s, t, reply, cleared).value, t)
  {
    hide Put, OnlyMoved, Collectable;
    match At(s, t)
    case UnlockRd(p) => Moved(s, s.(readers := s.readers + {t}), t, UnlockFind(p));
    case UnlockFind(p) =>
      Moved(s, s, t, UnlockDec(p, if p in s.tree then s.tree[p] else 0));
      Moved(s, s.(missing := true), t, UnlockRdOut(p, None));
    case UnlockDec(p, r) =>
      var s1 := Bump(s, r, -1);
      Moved(s, s1, t, UnlockRdOut(p, if r in s1.heap && s1.heap[r].cnt > 0 then None else Some(r)));
    case UnlockRdOut(p, last) =>
      Moved(s, s.(readers := s.readers - {t}), t, if last.Some? then UnlockWr(p, last.value) else Idle);
    case UnlockWr(p, r) => Moved(s, s.(writer := Some(t)), t, UnlockRecheck(p, r));
    case UnlockRecheck(p, r) => CollectMoves(s, t, p, r, cleared);
    case UnlockWrOut(p, x) => Moved(s, s.(writer := None), t, if x.Some? then UnlockSend(p, x.value) else Idle);
    case UnlockSend(p, x) => SendMoves(s, t, p, x, reply);
    case UnlockFree(p, x) => Moved(s, if x in s.heap then s.(heap := s.heap - {x}) else s.(fault := true), t, Idle);
  }

  lemma CollectMoves(s: State, t: Thread, p: Path, r: Ref, cleared: bool)
    ensures OnlyMoved(s, Collect(s, t, p, r, cleared), t)
  {
  }

  lemma SendMoves(s: State, t: Thread, p: Path, x: Ref, reply: Reply)
    ensures OnlyMoved(s, SendUnlock(s, t, p, x, reply), t)
  {
  }

  lemma OthersStay(s: State, m: Move, cleared: bool)
    requires Step(s, m, cleared).Some?
    ensures OnlyMoved(s, Step(s, m, cleared).value, m.t)
  {
    if m.Go? {
      hide StepLock, StepUnlock, Follows, OnlyMoved;
      if IsLock(At(s, m.t)) {
        LockMoves(s, m.t, m.reply);
      } else {
        UnlockMoves(s, m.t, m.reply, cleared);
      }
    }
  }

  lemma LockMoves(s: State, t: Thread, reply: Reply)
    requires StepLock(s, t, reply).Some? && IsLock(At(s, t))
    ensures OnlyMoved(s, StepLock(s, t, reply).value, t)
  {
    LockFollows(s, t, reply);
    hide StepLock, OnlyMoved;
  }

  /** Along the run t calls dav_lock only, and no call of it returns success. */
  predicate OnlyFails(s: State, moves: seq<Move>, t: Thread, cleared: bool)
    decreases |moves|
  {
    moves == [] ||
    var before, m := moves[..|moves| - 1], moves[|moves| - 1];
    OnlyFails(s, before, t, cleared) &&
    (m.t == t ==> !m.CallUnlock? && (m.Go? && Run(s, before, cleared).Some? ==>
                                       Returning(At(Run(s, before, cleared).value, t)) == None))
  }

  /** No step of t changes the table or an entry in it. */
  predicate LeavesTable(s: State, moves: seq<Move>, t: Thread, cleared: bool)
    decreases |moves|
  {
    moves == [] ||
    var before, m := moves[..|moves| - 1], moves[|moves| - 1];
    LeavesTable(s, before, t, cleared) &&
    (m.t == t && Run(s, before, cleared).Some? && Run(s, moves, cleared).Some? ==>
       Run(s, moves, cleared).value.tree == Run(s, before, cleared).value.tree &&
       Run(s, moves, cleared).value.heap == Run(s, before, cleared).value.heap)
  }

  lemma FailingStep(s: State, m: Move, t: Thread, cleared: bool)
    requires Step(s, m, cleared).Some? && (At(s, t) == Idle || IsLock(At(s, t)))
    requires m.t == t ==> !m.CallUnlock? && (m.Go? ==> Returning(At(s, t)) == None)
    ensures var s' := Step(s, m, cleared).value;
      && (At(s', t) == Idle || IsLock(At(s', t)))
      && (Returning(At(s', t)) == None ==> Returning(At(s, t)) == None)
      && (m.t == t && Returning(At(s', t)) == None ==> s'.tree == s.tree && s'.heap == s.heap)
  {
    if m.t != t {
      OthersStay(s, m, cleared);
      hide Step;
    } else if m.Go? {
      if At(s, t) == Idle {
        IdleIsStuck(s, t, m.reply, cleared);
      }
      LockFollows(s, t, m.reply);
      hide StepLock, StepUnlock, OnlyMoved;
    }
  }

  lemma {:induction false} FailingRun(s: State, moves: seq<Move>, t: Thread, cleared: bool)
    requires Run(s, moves, cleared).Some? && OnlyFails(s, moves, t, cleared) && At(s, t) == Idle
    ensures var s' := Run(s, moves, cleared).value;
      && (At(s', t) == Idle || IsLock(At(s', t)))
      && (Returning(At(s', t)) == None ==> LeavesTable(s, moves, t, cleared))
    decreases |moves|
  {
    if moves != [] {
      var before, m := moves[..|moves| - 1], moves[|moves| - 1];
      FailingRun(s, before, t, cleared);
      FailingStep(Run(s, before, cleared).value, m, t, cleared);
      hide Step, At, Returning, IsLock;
    }
  }

  /** Calls of dav_lock that return failure leave the table, its entries and their counts as they find them. */
  lemma FailedCallsLeaveTable(s: State, moves: seq<Move>, t: Thread, cleared: bool)
    requires Run(s, moves, cleared).Some? && OnlyFails(s, moves, t, cleared)
    requires At(s, t) == Idle && At(Run(s, moves, cleared).value, t) == Idle
    ensures LeavesTable(s, moves, t, cleared)
  {
    FailingRun(s, moves, t, cleared);
  }

  // ---------------------------------------------------------------- waiting and faults

  /** The entry whose memory t uses in its next step. */
  function EntryUsed(s: State, l: Local): Option<Ref> {
    match l
    case LockInc(_, r) => Some(r)
    case LockRecheck(p) => if p in s.tree then Some(s.tree[p]) else None
    case UnlockDec(_, r) => Some(r)
    case UnlockRecheck(p, _) => if p in s.tree then Some(s.tree[p]) else None
    case UnlockSend(_, x) => Some(x)
    case UnlockFree(_, x) => Some(x)
    case _ => None
  }

  /** A fault is the use of an entry that has been freed; and dav_unlock reports exactly the paths without an entry. */
  lemma FaultsExactly(s: State, t: Thread, reply: Reply, cleared: bool)
    requires !s.fault && !s.missing && Step(s, Go(t, reply), cleared).Some?
    ensures var s' := Step(s, Go(t, reply), cleared).value;
      && (s'.fault <==> EntryUsed(s, At(s, t)).Some? && EntryUsed(s, At(s, t)).value !in s.heap)
      && (s'.missing <==> At(s, t).UnlockFind? && At(s, t).p !in s.tree)
  {
    hide StepLock, StepUnlock, EntryUsed;
    if IsLock(At(s, t)) {
      LockFaults(s, t, reply);
    } else {
      UnlockFaults(s, t, reply, cleared);
    }
  }

  lemma LockFaults(s: State, t: Thread, reply: Reply)
    requires !s.fault && !s.missing && StepLock(s, t, reply).Some?
    ensures var s' := StepLock(s, t, reply).value;
      && !s'.missing
      && (s'.fault <==> EntryUsed(s, At(s, t)).Some? && EntryUsed(s, At(s, t)).value !in s.heap)
  {
    hide At, Put, Bump, LookAgain, TakeRead, TakeWrite, ReturnFromRead, ReturnFromWrite, Ask, Enter;
    match At(s, t)
    case LockFind(p) => PutFaults(s, t);
    case LockInc(p, r) =>
      BumpFaults(s, r, 1);
      PutFaults(Bump(s, r, 1), t);
    case LockAlloc(p) => PutFaults(s, t);
    case LockRecheck(p) => LookFaults(s, t, p);
    case LockRd(p) => LocksFault(s, t, LockFind(p));
    case LockWr(p) => LocksFault(s, t, LockRecheck(p));
    case LockRdOut(p, found) => ReturnsFault(s, t, p, found);
    case LockWrOut(p, ok) => ReturnsFault(s, t, p, ok);
    case LockRequest(p) => AskFaults(s, t, p, reply);
    case LockInsert(p, tok) => EnterFaults(s, t, p, tok, reply);
    case _ =>
  }

  lemma PutFaults(s: State, t: Thread)
    ensures forall l :: Put(s, t, l).fault == s.fault && Put(s, t, l).missing == s.missing
  {
  }

  lemma BumpFaults(s: State, r: Ref, d: int)
    requires !s.fault && !s.missing
    ensures !Bump(s, r, d).missing && (Bump(s, r, d).fault <==> r !in s.heap)
  {
  }

  lemma LookFaults(s: State, t: Thread, p: Path)
    requires !s.fault && !s.missing
    ensures !LookAgain(s, t, p).missing && (LookAgain(s, t, p).fault <==> p in s.tree && s.tree[p] !in s.heap)
  {
  }

  /** Neither a fault nor a missing entry has been added. */
  predicate AsBefore(s: State, s': State) {
    s'.fault == s.fault && s'.missing == s.missing
  }

  lemma LocksFault(s: State, t: Thread, l: Local)
    ensures TakeRead(s, t, l).Some? ==> AsBefore(s, TakeRead(s, t, l).value)
    ensures TakeWrite(s, t, l).Some? ==> AsBefore(s, TakeWrite(s, t, l).value)
  {
  }

  lemma ReturnsFault(s: State, t: Thread, p: Path, ok: bool)
    ensures AsBefore(s, ReturnFromRead(s, t, p, ok)) && AsBefore(s, ReturnFromWrite(s, t, p, ok))
  {
  }

  lemma AskFaults(s: State, t: Thread, p: Path, reply: Reply)
    ensures Ask(s, t, p, reply).Some? ==> AsBefore(s, Ask(s, t, p, reply).value)
  {
    hide Grantable;
  }

  lemma EnterFaults(s: State, t: Thread, p: Path, tok: Token, reply: Reply)
    ensures AsBefore(s, Enter(s, t, p, tok, reply))
  {
  }

  lemma UnlockFaults(s: State, t: Thread, reply: Reply, cleared: bool)
    requires !s.fault && !s.missing && StepUnlock(s, t, reply, cleared).Some?
    ensures var s' := StepUnlock(s, t, reply, cleared).value;
      && (s'.fault <==> EntryUsed(s, At(s, t)).Some? && EntryUsed(s, At(s, t)).value !in s.heap)
      && (s'.missing <==> At(s, t).UnlockFind? && At(s, t).p !in s.tree)
  {
    hide At, Collect, SendUnlock, CountOff;
    match At(s, t)
    case UnlockDec(p, r) => CountFaults(s, t, p, r);
    case UnlockRecheck(p, r) => CollectFaults(s, t, p, r, cleared);
    case UnlockSend(p, x) => SendFaults(s, t, p, x, reply);
    case _ =>
  }

  lemma CollectFaults(s: State, t: Thread, p: Path, r: Ref, cleared: bool)
    requires !s.fault && !s.missing
    ensures !Collect(s, t, p, r, cleared).missing
    ensures Collect(s, t, p, r, cleared).fault <==> p in s.tree && s.tree[p] !in s.heap
  {
  }

  lemma SendFaults(s: State, t: Thread, p: Path, x: Ref, reply: Reply)
    requires !s.fault && !s.missing
    ensures !SendUnlock(s, t, p, x, reply).missing && (SendUnlock(s, t, p, x, reply).fault <==> x !in s.heap)
  {
  }

  lemma CountFaults(s: State, t: Thread, p: Path, r: Ref)
    requires !s.fault && !s.missing
    ensures !CountOff(s, t, p, r).missing && (CountOff(s, t, p, r).fault <==> r !in s.heap)
  {
  }

  /** What a call can wait for: writers, readers, and the server while another lock on the path is active. */
  lemma WaitsExactly(s: State, t: Thread, reply: Reply, cleared: bool)
    ensures Step(s, Go(t, reply), cleared) == None <==>
      var l := At(s, t);
      || l == Idle
      || ((l.LockRd? || l.UnlockRd?) && s.writer.Some?)
      || ((l.LockWr? || l.UnlockWr?) && (s.writer.Some? || s.readers != {}))
      || (l.LockRequest? && reply != Bad && exists tok :: tok in s.active && s.active[tok] == l.p)
  {
  }
}
