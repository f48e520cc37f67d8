/** Whole runs of dav_lock and dav_unlock: what is conserved, and exactly when. */
module LockRegistryRuns {
  import opened Options
  import opened LockRegistry
  import opened LockRegistryMoves

  function NextRefs(s: State, m: Move, refs: map<Ref, RefPlace>): map<Ref, RefPlace> {
    if !m.Go? then refs
    else match At(s, m.t)
      case LockInsert(p, _) => if m.reply == Good then refs[s.nextRef := Linked(p)] else refs
      case UnlockRecheck(p, _) => if Collectable(s, p) then refs[s.tree[p] := Taken(m.t)] else refs
      case UnlockFree(_, x) => refs - {x}
      case _ => refs
  }

  function NextTokens(s: State, m: Move, tokens: map<Token, TokenPlace>): map<Token, TokenPlace> {
    if !m.Go? then tokens
    else match At(s, m.t)
      case LockRequest(_) =>
        if m.reply == Bad then tokens else tokens[s.nextToken := if m.reply == Good then Carried(m.t) else Orphaned]
      case LockInsert(_, tok) => tokens[tok := if m.reply == Good then Stored(s.nextRef) else Orphaned]
      case UnlockSend(_, x) =>
        if x !in s.heap then tokens
        else if m.reply == Good then tokens - {s.heap[x].token} else tokens[s.heap[x].token := Orphaned]
      case _ => tokens
  }

  /** The second look in dav_unlock finds the entry back in use or gone. */
  predicate Overtaken(s: State, m: Move) {
    m.Go? && At(s, m.t).UnlockRecheck? && !Collectable(s, At(s, m.t).p)
  }

  lemma Moved(s: State, s1: State, t: Thread, l: Local)
    requires s1.locals == s.locals
    ensures OnlyMoved(s, Put(s1, t, l), t) && At(Put(s1, t, l), t) == l
  {
  }

  /** Entering and leaving the read and the write section, and steps inside, that change no account. */
  lemma QuietMove(s: State, s': State, t: Thread, refs: map<Ref, RefPlace>, tokens: map<Token, TokenPlace>)
    requires Inv(s, refs, tokens) && SameParts(s, s') && OnlyMoved(s, s', t)
    requires s'.readers == s.readers && s'.writer == s.writer
    requires InRead(At(s', t)) == InRead(At(s, t)) && InWrite(At(s', t)) == InWrite(At(s, t))
    requires SameRole(At(s, t), At(s', t)) && LocalOk(s', At(s', t))
    ensures Inv(s', refs, tokens)
  {
    StayLocked(s, s', t);
    RoleMove(s, s', t, refs, tokens);
  }

  lemma ReadEntry(s: State, t: Thread, l: Local, refs: map<Ref, RefPlace>, tokens: map<Token, TokenPlace>)
    requires Inv(s, refs, tokens) && s.writer == None
    requires !InRead(At(s, t)) && !InWrite(At(s, t)) && InRead(l) && !InWrite(l)
    requires SameRole(At(s, t), l) && LocalOk(s, l)
    ensures Inv(Put(s.(readers := s.readers + {t}), t, l), refs, tokens)
  {
    EnterRead(s, t, l);
    Moved(s, s.(readers := s.readers + {t}), t, l);
    RoleMove(s, Put(s.(readers := s.readers + {t}), t, l), t, refs, tokens);
  }

  lemma ReadExit(s: State, t: Thread, l: Local, refs: map<Ref, RefPlace>, tokens: map<Token, TokenPlace>)
    requires Inv(s, refs, tokens) && InRead(At(s, t)) && !InWrite(At(s, t)) && !InRead(l) && !InWrite(l)
    requires SameRole(At(s, t), l) && LocalOk(s, l)
    ensures Inv(Put(s.(readers := s.readers - {t}), t, l), refs, tokens)
  {
    LeaveRead(s, t, l);
    Moved(s, s.(readers := s.readers - {t}), t, l);
    RoleMove(s, Put(s.(readers := s.readers - {t}), t, l), t, refs, tokens);
  }

  lemma WriteEntry(s: State, t: Thread, l: Local, refs: map<Ref, RefPlace>, tokens: map<Token, TokenPlace>)
    requires Inv(s, refs, tokens) && s.writer == None && s.readers == {}
    requires !InRead(At(s, t)) && !InRead(l) && InWrite(l)
    requires SameRole(At(s, t), l) && LocalOk(s, l)
    ensures Inv(Put(s.(writer := Some(t)), t, l), refs, tokens)
  {
    EnterWrite(s, t, l);
    Moved(s, s.(writer := Some(t)), t, l);
    RoleMove(s, Put(s.(writer := Some(t)), t, l), t, refs, tokens);
  }

  lemma WriteExit(s: State, t: Thread, l: Local, refs: map<Ref, RefPlace>, tokens: map<Token, TokenPlace>)
    requires Inv(s, refs, tokens) && InWrite(At(s, t)) && !InRead(l) && !InWrite(l)
    requires SameRole(At(s, t), l) && LocalOk(s, l)
    ensures Inv(Put(s.(writer := None), t, l), refs, tokens)
  {
    LeaveWrite(s, t, l);
    Moved(s, s.(writer := None), t, l);
    RoleMove(s, Put(s.(writer := None), t, l), t, refs, tokens);
  }

  lemma OpenFromRead(s: State, t: Thread, p: Path, refs: map<Ref, RefPlace>, tokens: map<Token, TokenPlace>)
    requires Inv(s, refs, tokens) && At(s, t) == LockRdOut(p, true)
    ensures Inv(Opened(s.(readers := s.readers - {t}), t, p), refs, tokens)
  {
    LeaveRead(s, t, Idle);
    OpenedKeeps(s, s.(readers := s.readers - {t}), t, p, refs, tokens);
  }

  lemma OpenFromWrite(s: State, t: Thread, p: Path, refs: map<Ref, RefPlace>, tokens: map<Token, TokenPlace>)
    requires Inv(s, refs, tokens) && At(s, t) == LockWrOut(p, true)
    ensures Inv(Opened(s.(writer := None), t, p), refs, tokens)
  {
    LeaveWrite(s, t, Idle);
    OpenedKeeps(s, s.(writer := None), t, p, refs, tokens);
  }

  lemma CountUp(s: State, t: Thread, p: Path, l: Local, refs: map<Ref, RefPlace>, tokens: map<Token, TokenPlace>)
    requires Inv(s, refs, tokens) && p in s.tree && s.tree[p] in s.heap
    requires At(s, t).LockInc? || At(s, t).LockRecheck?
    requires l == if At(s, t).LockInc? then LockRdOut(p, true) else LockWrOut(p, true)
    ensures Inv(Put(Bump(s, s.tree[p], 1), t, l), refs, tokens)
  {
    hide CountsOk, CollectorsOk, TokensOk, RefsOk;
    var s' := Put(Bump(s, s.tree[p], 1), t, l);
    Moved(s, Bump(s, s.tree[p], 1), t, l);
    StayLocked(s, s', t);
    CountUpKeeps(s, s', t, p, refs, tokens);
  }

  lemma CountDown(s: State, t: Thread, p: Path, l: Local, refs: map<Ref, RefPlace>, tokens: map<Token, TokenPlace>)
    requires Inv(s, refs, tokens) && p in s.tree && s.tree[p] in s.heap && At(s, t) == UnlockDec(p, s.tree[p])
    requires l == UnlockRdOut(p, if s.heap[s.tree[p]].cnt - 1 > 0 then None else Some(s.tree[p]))
    ensures Inv(Put(Bump(s, s.tree[p], -1), t, l), refs, tokens)
  {
    hide CountsOk, CollectorsOk, TokensOk, RefsOk;
    var s' := Put(Bump(s, s.tree[p], -1), t, l);
    Moved(s, Bump(s, s.tree[p], -1), t, l);
    StayLocked(s, s', t);
    CountDownKeeps(s, s', t, p, refs, tokens);
  }

  lemma EntryInHeap(s: State, t: Thread, p: Path, r: Ref, refs: map<Ref, RefPlace>, tokens: map<Token, TokenPlace>)
    requires Inv(s, refs, tokens) && (At(s, t) == LockInc(p, r) || At(s, t) == UnlockDec(p, r))
    ensures p in s.tree && s.tree[p] == r && r in s.heap
  {
    assert LocalOk(s, At(s, t));
  }

  lemma FindSucceeds(s: State, t: Thread, p: Path, refs: map<Ref, RefPlace>, tokens: map<Token, TokenPlace>)
    requires Inv(s, refs, tokens) && At(s, t) == UnlockFind(p)
    ensures p in s.tree
  {
    ClaimHasEntry(s, t, p);
  }

  lemma TreeInHeap(s: State, p: Path, refs: map<Ref, RefPlace>, tokens: map<Token, TokenPlace>)
    requires Inv(s, refs, tokens) && p in s.tree
    ensures s.tree[p] in s.heap
  {
  }

  lemma HandInHeap(s: State, t: Thread, x: Ref, refs: map<Ref, RefPlace>, tokens: map<Token, TokenPlace>)
    requires Inv(s, refs, tokens) && Unlinked(At(s, t)) == Some(x)
    ensures x in s.heap
  {
    assert x in refs && refs[x] == Taken(t);
  }

  // ---------------------------------------------------------------- one step of dav_lock or dav_unlock

  lemma LockReadKeeps(s: State, t: Thread, reply: Reply, refs: map<Ref, RefPlace>, tokens: map<Token, TokenPlace>)
    requires Inv(s, refs, tokens) && StepLock(s, t, reply).Some?
    requires At(s, t).LockRd? || At(s, t).LockFind? || At(s, t).LockInc? || At(s, t).LockRdOut? || At(s, t).LockAlloc?
    ensures Inv(StepLock(s, t, reply).value, refs, tokens)
  {
    hide Inv;
    match At(s, t)
    case LockRd(p) => ReadEntry(s, t, LockFind(p), refs, tokens);
    case LockFind(p) => SearchKeeps(s, t, reply, refs, tokens);
    case LockInc(p, r) =>
      EntryInHeap(s, t, p, r, refs, tokens);
      CountUp(s, t, p, LockRdOut(p, true), refs, tokens);
    case LockRdOut(p, found) =>
      if found {
        OpenFromRead(s, t, p, refs, tokens);
      } else {
        ReadExit(s, t, LockAlloc(p), refs, tokens);
      }
    case LockAlloc(p) => SearchKeeps(s, t, reply, refs, tokens);
  }

  lemma SearchKeeps(s: State, t: Thread, reply: Reply, refs: map<Ref, RefPlace>, tokens: map<Token, TokenPlace>)
    requires Inv(s, refs, tokens) && (At(s, t).LockFind? || At(s, t).LockAlloc?)
    ensures StepLock(s, t, reply).Some? && Inv(StepLock(s, t, reply).value, refs, tokens)
  {
    hide Inv;
    QuietMove(s, StepLock(s, t, reply).value, t, refs, tokens);
  }

  lemma LockWriteKeeps(s: State, t: Thread, reply: Reply, refs: map<Ref, RefPlace>, tokens: map<Token, TokenPlace>)
    requires Inv(s, refs, tokens) && StepLock(s, t, reply).Some?
    requires At(s, t).LockWr? || At(s, t).LockRecheck? || At(s, t).LockWrOut?
    ensures Inv(StepLock(s, t, reply).value, refs, tokens)
  {
    hide Inv;
    match At(s, t)
    case LockWr(p) => WriteEntry(s, t, LockRecheck(p), refs, tokens);
    case LockRecheck(p) =>
      if p in s.tree {
        TreeInHeap(s, p, refs, tokens);
        CountUp(s, t, p, LockWrOut(p, true), refs, tokens);
      } else {
        QuietMove(s, StepLock(s, t, reply).value, t, refs, tokens);
      }
    case LockWrOut(p, ok) =>
      if ok {
        OpenFromWrite(s, t, p, refs, tokens);
      } else {
        WriteExit(s, t, Idle, refs, tokens);
      }
  }

  lemma RequestStepKeeps(s: State, t: Thread, reply: Reply, refs: map<Ref, RefPlace>, tokens: map<Token, TokenPlace>)
    requires Inv(s, refs, tokens) && StepLock(s, t, reply).Some? && At(s, t).LockRequest?
    ensures Inv(StepLock(s, t, reply).value, refs, NextTokens(s, Go(t, reply), tokens))
  {
    hide Inv;
    var s' := StepLock(s, t, reply).value;
    if reply == Bad {
      QuietMove(s, s', t, refs, tokens);
    } else {
      GrantKeeps(s, s', t, At(s, t).p, refs, tokens);
    }
  }

  lemma InsertStepKeeps(s: State, t: Thread, reply: Reply, refs: map<Ref, RefPlace>, tokens: map<Token, TokenPlace>)
    requires Inv(s, refs, tokens) && At(s, t).LockInsert?
    ensures Inv(StepLock(s, t, reply).value, NextRefs(s, Go(t, reply), refs), NextTokens(s, Go(t, reply), tokens))
  {
    hide Inv;
    var s' := StepLock(s, t, reply).value;
    if reply == Good {
      InsertKeeps(s, s', t, At(s, t).p, At(s, t).token, refs, tokens);
    } else {
      InsertFailsKeeps(s, s', t, At(s, t).p, At(s, t).token, refs, tokens);
    }
  }

  lemma UnlockReadKeeps(s: State, t: Thread, reply: Reply, cleared: bool, refs: map<Ref, RefPlace>, tokens: map<Token, TokenPlace>)
    requires Inv(s, refs, tokens) && StepUnlock(s, t, reply, cleared).Some?
    requires At(s, t).UnlockRd? || At(s, t).UnlockFind? || At(s, t).UnlockDec?
    ensures Inv(StepUnlock(s, t, reply, cleared).value, refs, tokens)
  {
    hide Inv;
    var s' := StepUnlock(s, t, reply, cleared).value;
    match At(s, t)
    case UnlockRd(p) => ReadEntry(s, t, UnlockFind(p), refs, tokens);
    case UnlockFind(p) =>
      FindSucceeds(s, t, p, refs, tokens);
      QuietMove(s, s', t, refs, tokens);
    case UnlockDec(p, r) =>
      EntryInHeap(s, t, p, r, refs, tokens);
      CountDown(s, t, p, At(s', t), refs, tokens);
  }

  lemma UnlockWriteKeeps(s: State, t: Thread, reply: Reply, cleared: bool, refs: map<Ref, RefPlace>, tokens: map<Token, TokenPlace>)
    requires Inv(s, refs, tokens) && StepUnlock(s, t, reply, cleared).Some?
    requires At(s, t).UnlockRdOut? || At(s, t).UnlockWr? || At(s, t).UnlockWrOut?
    ensures Inv(StepUnlock(s, t, reply, cleared).value, refs, tokens)
  {
    hide Inv;
    match At(s, t)
    case UnlockRdOut(p, last) =>
      ReadExit(s, t, if last.Some? then UnlockWr(p, last.value) else Idle, refs, tokens);
    case UnlockWr(p, r) => WriteEntry(s, t, UnlockRecheck(p, r), refs, tokens);
    case UnlockWrOut(p, out) =>
      WriteExit(s, t, if out.Some? then UnlockSend(p, out.value) else Idle, refs, tokens);
  }

  lemma CollectFields(s: State, t: Thread, p: Path, r: Ref, cleared: bool)
    requires (cleared || Collectable(s, p)) && (p in s.tree ==> s.tree[p] in s.heap)
    ensures var s' := Collect(s, t, p, r, cleared);
      && OnlyMoved(s, s', t) && s'.readers == s.readers && s'.writer == s.writer
      && SameParts(if Collectable(s, p) then s.(tree := s.tree - {p}) else s, s')
      && At(s', t) == UnlockWrOut(p, if Collectable(s, p) then Some(s.tree[p]) else None)
  {
  }

  lemma RecheckStepKeeps(s: State, t: Thread, reply: Reply, cleared: bool, refs: map<Ref, RefPlace>, tokens: map<Token, TokenPlace>)
    requires Inv(s, refs, tokens) && At(s, t).UnlockRecheck? && (cleared || Collectable(s, At(s, t).p))
    ensures Inv(StepUnlock(s, t, reply, cleared).value, NextRefs(s, Go(t, reply), refs), tokens)
  {
    hide Inv, Collect;
    var p, r := At(s, t).p, At(s, t).r;
    if p in s.tree {
      TreeInHeap(s, p, refs, tokens);
    }
    CollectFields(s, t, p, r, cleared);
    if Collectable(s, p) {
      CollectKeeps(s, Collect(s, t, p, r, cleared), t, p, refs, tokens);
    } else {
      LeaveAloneKeeps(s, Collect(s, t, p, r, cleared), t, p, refs, tokens);
    }
  }

  lemma SendStepKeeps(s: State, t: Thread, reply: Reply, cleared: bool, refs: map<Ref, RefPlace>, tokens: map<Token, TokenPlace>)
    requires Inv(s, refs, tokens) && At(s, t).UnlockSend?
    ensures Inv(StepUnlock(s, t, reply, cleared).value, refs, NextTokens(s, Go(t, reply), tokens))
  {
    hide Inv;
    HandInHeap(s, t, At(s, t).x, refs, tokens);
    SendKeeps(s, StepUnlock(s, t, reply, cleared).value, t, At(s, t).p, At(s, t).x, reply == Good, refs, tokens);
  }

  lemma FreeStepKeeps(s: State, t: Thread, reply: Reply, cleared: bool, refs: map<Ref, RefPlace>, tokens: map<Token, TokenPlace>)
    requires Inv(s, refs, tokens) && At(s, t).UnlockFree?
    ensures Inv(StepUnlock(s, t, reply, cleared).value, NextRefs(s, Go(t, reply), refs), tokens)
  {
    hide Inv;
    HandInHeap(s, t, At(s, t).x, refs, tokens);
    FreeKeeps(s, StepUnlock(s, t, reply, cleared).value, t, At(s, t).p, At(s, t).x, refs, tokens);
  }

  lemma CallLockKeeps(s: State, t: Thread, p: Path, refs: map<Ref, RefPlace>, tokens: map<Token, TokenPlace>)
    requires Inv(s, refs, tokens) && At(s, t) == Idle
    ensures Inv(Put(s, t, LockRd(p)), refs, tokens)
  {
    Moved(s, s, t, LockRd(p));
    QuietMove(s, Put(s, t, LockRd(p)), t, refs, tokens);
  }

  lemma CallUnlockStepKeeps(s: State, t: Thread, k: Ticket, refs: map<Ref, RefPlace>, tokens: map<Token, TokenPlace>)
    requires Inv(s, refs, tokens) && At(s, t) == Idle && k in s.open
    ensures Inv(Put(s.(open := s.open - {k}), t, UnlockRd(s.open[k])), refs, tokens)
  {
    hide Inv;
    Moved(s, s.(open := s.open - {k}), t, UnlockRd(s.open[k]));
    CallUnlockKeeps(s, Put(s.(open := s.open - {k}), t, UnlockRd(s.open[k])), t, k, refs, tokens);
  }

  /** Every move keeps the accounts; as written, unless it is an overtaken second look. */
  lemma StepKeepsInv(s: State, m: Move, cleared: bool, refs: map<Ref, RefPlace>, tokens: map<Token, TokenPlace>)
    requires Inv(s, refs, tokens) && Step(s, m, cleared).Some?
    requires cleared || !Overtaken(s, m)
    ensures Inv(Step(s, m, cleared).value, NextRefs(s, m, refs), NextTokens(s, m, tokens))
  {
    hide Inv;
    match m
    case CallLock(t, p) => CallLockKeeps(s, t, p, refs, tokens);
    case CallUnlock(t, k) => CallUnlockStepKeeps(s, t, k, refs, tokens);
    case Go(t, reply) =>
      match At(s, t)
      case LockRequest(_) => RequestStepKeeps(s, t, reply, refs, tokens);
      case LockInsert(_, _) => InsertStepKeeps(s, t, reply, refs, tokens);
      case UnlockRecheck(_, _) => RecheckStepKeeps(s, t, reply, cleared, refs, tokens);
      case UnlockSend(_, _) => SendStepKeeps(s, t, reply, cleared, refs, tokens);
      case UnlockFree(_, _) => FreeStepKeeps(s, t, reply, cleared, refs, tokens);
      case _ =>
        if At(s, t).LockWr? || At(s, t).LockRecheck? || At(s, t).LockWrOut? {
          LockWriteKeeps(s, t, reply, refs, tokens);
        } else if IsLock(At(s, t)) {
          LockReadKeeps(s, t, reply, refs, tokens);
        } else if At(s, t).UnlockRd? || At(s, t).UnlockFind? || At(s, t).UnlockDec? {
          UnlockReadKeeps(s, t, reply, cleared, refs, tokens);
        } else {
          UnlockWriteKeeps(s, t, reply, cleared, refs, tokens);
        }
  }
}
