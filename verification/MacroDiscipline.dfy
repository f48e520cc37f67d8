/** What throwable buys: once an exception is pending, no ordinary work is done until it is handled. */
module MacroDiscipline {
  import opened Options
  import opened JumpCode
  import opened Macros
  import opened Simulation
  import opened Divergence

  /** No ordinary action was carried out while an exception was pending. */
  ghost predicate Untroubled(trace: seq<Event>) {
    forall i :: 0 <= i < |trace| ==> !(trace[i].Did? && trace[i].role == Body && trace[i].pending)
  }

  /** Nothing in s raises an exception. */
  predicate Calm(s: Stmt) {
    match s
    case Simple(p) => !p.Construct? && !p.MarkRaised?
    case Block(a, b) => Calm(a) && Calm(b)
    case Cond(_, a, b) => Calm(a) && Calm(b)
    case Forever(b) => Calm(b)
    case Once(b) => Calm(b)
    case Reflow(init, _, cleanup, b) => Calm(init) && Calm(cleanup) && Calm(b)
    case Try(b, h) => Calm(b) && Calm(h)
    case EnsureSynchronized(_, locked, always) => Calm(locked) && Calm(always)
    case _ => true
  }

  /** All actions of s belong to a cleanup or an error handler. */
  predicate CleanupOnly(s: Stmt) {
    match s
    case Simple(p) => !(p.Act? && p.role == Body)
    case Block(a, b) => CleanupOnly(a) && CleanupOnly(b)
    case Cond(_, a, b) => CleanupOnly(a) && CleanupOnly(b)
    case Forever(b) => CleanupOnly(b)
    case Once(b) => CleanupOnly(b)
    case Reflow(init, _, cleanup, b) => CleanupOnly(init) && CleanupOnly(cleanup) && CleanupOnly(b)
    case Try(b, h) => CleanupOnly(b) && CleanupOnly(h)
    case EnsureSynchronized(_, locked, always) => CleanupOnly(locked) && CleanupOnly(always)
    case _ => true
  }

  /** s does not continue a loop around it. */
  predicate NoContinue(s: Stmt) {
    match s
    case ContinueOn => false
    case Block(a, b) => NoContinue(a) && NoContinue(b)
    case Cond(_, a, b) => NoContinue(a) && NoContinue(b)
    case Once(b) => NoContinue(b)
    case Reflow(init, _, cleanup, _) => NoContinue(init) && NoContinue(cleanup)
    case Try(_, h) => NoContinue(h)
    case _ => true
  }

  /** A cleanup that leaves the enclosing block if an exception is pending: it ends in check or in break. */
  predicate Cuts(s: Stmt) {
    s == BreakOut || s == CHECK || (s.Block? && NoContinue(s.first) && Cuts(s.second))
  }

  /** The discipline: whatever can leave an exception behind is last in its block, or under throwable or throw. */
  predicate Quiet(s: Stmt)
    decreases s, 0
  {
    Calm(s) ||
    match s
    case Block(a, b) => (Careful(a) && Quiet(b)) || (Quiet(a) && Shielded(b))
    case Cond(_, a, b) => Quiet(a) && Quiet(b)
    case Forever(b) => Careful(b)
    case Once(b) => Quiet(b)
    case Reflow(init, t, cleanup, b) =>
      (if t == NotPending then Quiet(init) else Careful(init)) && CleanupOnly(cleanup) && Quiet(b)
    case Try(b, h) => Quiet(b) && Shielded(h)
    case EnsureSynchronized(_, locked, always) => Careful(always) && Quiet(locked)
    case _ => true
  }

  /** Besides, s never lets a pending exception fall through to the next statement. */
  predicate Careful(s: Stmt)
    decreases s, 1
  {
    Calm(s) ||
    match s
    case BreakOut => true
    case ContinueOn => true
    case Block(a, b) => Careful(a) && Careful(b)
    case Cond(_, a, b) => Careful(a) && Careful(b)
    case Reflow(init, _, cleanup, _) => Quiet(s) && Cuts(cleanup) && (Careful(init) || NoContinue(init))
    case _ => false
  }

  /** s does no ordinary work even when it starts with an exception pending. */
  predicate Shielded(s: Stmt)
    decreases s, 2
  {
    CleanupOnly(s) ||
    match s
    case Block(a, b) => Shielded(a) && Shielded(b)
    case Cond(_, a, b) => Shielded(a) && Shielded(b)
    case Forever(b) => Shielded(b)
    case Reflow(init, t, cleanup, b) =>
      && CleanupOnly(init) && CleanupOnly(cleanup)
      && (Shielded(b) || ((t == NotPending || init == Simple(MarkCaught)) && Quiet(b)))
    case _ => false
  }

  // ---------------------------------------------------------------- the pieces

  lemma UntroubledOne(trace: seq<Event>, e: Event)
    requires Untroubled(trace) && !(e.Did? && e.role == Body && e.pending)
    ensures Untroubled(trace + [e])
  {
  }

  lemma DoUntroubled(o: Oracle, p: Prim, st: State)
    requires Untroubled(st.trace) && (p.Act? && p.role == Body ==> !st.ex.Pending())
    ensures Untroubled(Do(o, p, st).trace)
  {
    match p
    case Act(role, k) => UntroubledOne(st.trace, Did(role, k, st.ex.Pending()));
    case TryLock(v) => UntroubledOne(st.trace, Tried(v, o(Attempt(v), st.trace)));
    case Unlock(v) => UntroubledOne(st.trace, Unlocked(v));
    case _ =>
  }

  lemma {:induction false} CalmStays(o: Oracle, fuel: nat, s: Stmt, st: State)
    requires Calm(s) && !st.ex.Pending() && Untroubled(st.trace) && Exec(o, fuel, s, st).Some?
    ensures
      var r := Exec(o, fuel, s, st).value;
      !r.st.ex.Pending() && Untroubled(r.st.trace)
    decreases fuel, s, 2
  {
    match s
    case Simple(p) => DoUntroubled(o, p, st);
    case Block(a, b) =>
      CalmStays(o, fuel, a, st);
      var q := Exec(o, fuel, a, st).value;
      if q.out == Normal {
        CalmStays(o, fuel, b, q.st);
      }
    case Cond(t, a, b) =>
      if Eval(o, t, st) {
        CalmStays(o, fuel, a, st);
      } else {
        CalmStays(o, fuel, b, st);
      }
    case Forever(b) =>
      CalmStays(o, fuel - 1, b, st);
      var q := Exec(o, fuel - 1, b, st).value;
      if q.out != Broke {
        CalmStays(o, fuel - 1, s, q.st);
      }
    case Once(b) => CalmStays(o, fuel, b, st);
    case Reflow(_, _, _, _) => CalmReflow(o, fuel, s, st);
    case Try(b, h) => CalmStays(o, fuel, b, st);
    case EnsureSynchronized(v, _, _) =>
      CalmAttempts(o, fuel, s, st);
      DoUntroubled(o, Unlock(v), Attempts(o, fuel, s, st).value);
    case _ =>
  }

  lemma {:induction false} CalmReflow(o: Oracle, fuel: nat, s: Stmt, st: State)
    requires s.Reflow? && Calm(s) && !st.ex.Pending() && Untroubled(st.trace) && Exec(o, fuel, s, st).Some?
    ensures
      var r := Exec(o, fuel, s, st).value;
      !r.st.ex.Pending() && Untroubled(r.st.trace)
    decreases fuel, s, 1
  {
    CalmStays(o, fuel, s.init, st);
    var q := Exec(o, fuel, s.init, st).value;
    if q.out == Normal {
      var b := q;
      if Eval(o, s.test, q.st) {
        CalmStays(o, fuel, s.body, q.st);
        b := Exec(o, fuel, s.body, q.st).value;
      }
      CalmStays(o, fuel, s.cleanup, b.st);
    }
  }

  lemma {:induction false} CalmAttempts(o: Oracle, fuel: nat, s: Stmt, st: State)
    requires s.EnsureSynchronized? && Calm(s) && !st.ex.Pending() && Untroubled(st.trace)
    requires Attempts(o, fuel, s, st).Some?
    ensures
      var end := Attempts(o, fuel, s, st).value;
      !end.ex.Pending() && Untroubled(end.trace)
    decreases fuel, s, 0
  {
    var st1 := Do(o, TryLock(s.v), st);
    DoUntroubled(o, TryLock(s.v), st);
    CalmStays(o, fuel - 1, s.always, st1);
    var r := Exec(o, fuel - 1, s.always, st1).value;
    if r.out != Broke {
      if Eval(o, Held(s.v), r.st) {
        CalmStays(o, fuel - 1, s.locked, r.st);
      } else {
        CalmAttempts(o, fuel - 1, s, r.st);
      }
    }
  }

  lemma {:induction false} CleanupUntroubled(o: Oracle, fuel: nat, s: Stmt, st: State)
    requires CleanupOnly(s) && Untroubled(st.trace) && Exec(o, fuel, s, st).Some?
    ensures Untroubled(Exec(o, fuel, s, st).value.st.trace)
    decreases fuel, s, 2
  {
    match s
    case Simple(p) => DoUntroubled(o, p, st);
    case Block(a, b) =>
      CleanupUntroubled(o, fuel, a, st);
      var q := Exec(o, fuel, a, st).value;
      if q.out == Normal {
        CleanupUntroubled(o, fuel, b, q.st);
      }
    case Cond(t, a, b) =>
      if Eval(o, t, st) {
        CleanupUntroubled(o, fuel, a, st);
      } else {
        CleanupUntroubled(o, fuel, b, st);
      }
    case Forever(b) =>
      CleanupUntroubled(o, fuel - 1, b, st);
      var q := Exec(o, fuel - 1, b, st).value;
      if q.out != Broke {
        CleanupUntroubled(o, fuel - 1, s, q.st);
      }
    case Once(b) => CleanupUntroubled(o, fuel, b, st);
    case Reflow(_, _, _, _) => CleanupReflow(o, fuel, s, st);
    case Try(b, h) =>
      CleanupUntroubled(o, fuel, b, st);
      var q := Exec(o, fuel, b, st).value;
      if q.st.ex.Pending() {
        CleanupUntroubled(o, fuel, h, q.st);
      }
    case EnsureSynchronized(v, _, _) =>
      CleanupAttempts(o, fuel, s, st);
      DoUntroubled(o, Unlock(v), Attempts(o, fuel, s, st).value);
    case _ =>
  }

  lemma {:induction false} CleanupReflow(o: Oracle, fuel: nat, s: Stmt, st: State)
    requires s.Reflow? && CleanupOnly(s) && Untroubled(st.trace) && Exec(o, fuel, s, st).Some?
    ensures Untroubled(Exec(o, fuel, s, st).value.st.trace)
    decreases fuel, s, 1
  {
    CleanupUntroubled(o, fuel, s.init, st);
    var q := Exec(o, fuel, s.init, st).value;
    if q.out == Normal {
      var b := q;
      if Eval(o, s.test, q.st) {
        CleanupUntroubled(o, fuel, s.body, q.st);
        b := Exec(o, fuel, s.body, q.st).value;
      }
      CleanupUntroubled(o, fuel, s.cleanup, b.st);
    }
  }

  lemma {:induction false} CleanupAttempts(o: Oracle, fuel: nat, s: Stmt, st: State)
    requires s.EnsureSynchronized? && CleanupOnly(s) && Untroubled(st.trace)
    requires Attempts(o, fuel, s, st).Some?
    ensures Untroubled(Attempts(o, fuel, s, st).value.trace)
    decreases fuel, s, 0
  {
    var st1 := Do(o, TryLock(s.v), st);
    DoUntroubled(o, TryLock(s.v), st);
    CleanupUntroubled(o, fuel - 1, s.always, st1);
    var r := Exec(o, fuel - 1, s.always, st1).value;
    if r.out != Broke {
      if Eval(o, Held(s.v), r.st) {
        CleanupUntroubled(o, fuel - 1, s.locked, r.st);
      } else {
        CleanupAttempts(o, fuel - 1, s, r.st);
      }
    }
  }

  lemma {:induction false} NeverContinues(o: Oracle, fuel: nat, s: Stmt, st: State)
    requires NoContinue(s) && Exec(o, fuel, s, st).Some?
    ensures Exec(o, fuel, s, st).value.out != Continued
    decreases fuel, s
  {
    match s
    case Block(a, b) =>
      NeverContinues(o, fuel, a, st);
      var q := Exec(o, fuel, a, st).value;
      if q.out == Normal {
        NeverContinues(o, fuel, b, q.st);
      }
    case Cond(t, a, b) =>
      if Eval(o, t, st) {
        NeverContinues(o, fuel, a, st);
      } else {
        NeverContinues(o, fuel, b, st);
      }
    case Forever(b) =>
      var q := Exec(o, fuel - 1, b, st).value;
      if q.out != Broke {
        NeverContinues(o, fuel - 1, s, q.st);
      }
    case Once(b) => NeverContinues(o, fuel, b, st);
    case Reflow(init, t, cleanup, b) =>
      NeverContinues(o, fuel, init, st);
      var q := Exec(o, fuel, init, st).value;
      if q.out == Normal {
        var e := if Eval(o, t, q.st) then Exec(o, fuel, b, q.st).value else q;
        NeverContinues(o, fuel, cleanup, e.st);
      }
    case Try(b, h) =>
      var q := Exec(o, fuel, b, st).value;
      if q.st.ex.Pending() {
        NeverContinues(o, fuel, h, q.st);
      }
    case _ =>
  }

  lemma {:induction false} CutsOff(o: Oracle, fuel: nat, s: Stmt, st: State)
    requires Cuts(s) && Exec(o, fuel, s, st).Some?
    ensures
      var r := Exec(o, fuel, s, st).value;
      r.out != Continued && (r.out == Normal ==> !r.st.ex.Pending())
    decreases s
  {
    if s.Block? {
      NeverContinues(o, fuel, s.first, st);
      var q := Exec(o, fuel, s.first, st).value;
      if q.out == Normal {
        CutsOff(o, fuel, s.second, q.st);
      }
    }
  }

  // ---------------------------------------------------------------- main result

  /** Started with nothing pending, a quiet statement does no ordinary work while an exception is pending. */
  lemma {:induction false} QuietRun(o: Oracle, fuel: nat, s: Stmt, st: State)
    requires Quiet(s) && !st.ex.Pending() && Untroubled(st.trace) && Exec(o, fuel, s, st).Some?
    ensures Untroubled(Exec(o, fuel, s, st).value.st.trace)
    decreases fuel, s, 6
  {
    if Calm(s) {
      CalmStays(o, fuel, s, st);
    } else {
      match s
      case Simple(p) => DoUntroubled(o, p, st);
      case Block(a, b) =>
        var q := Exec(o, fuel, a, st).value;
        if Careful(a) && Quiet(b) {
          CarefulRun(o, fuel, a, st);
          if q.out == Normal {
            QuietRun(o, fuel, b, q.st);
          }
        } else {
          QuietRun(o, fuel, a, st);
          if q.out == Normal {
            ShieldedRun(o, fuel, b, q.st);
          }
        }
      case Cond(t, a, b) =>
        if Eval(o, t, st) {
          QuietRun(o, fuel, a, st);
        } else {
          QuietRun(o, fuel, b, st);
        }
      case Forever(b) =>
        CarefulRun(o, fuel - 1, b, st);
        var q := Exec(o, fuel - 1, b, st).value;
        if q.out != Broke {
          QuietRun(o, fuel - 1, s, q.st);
        }
      case Once(b) => QuietRun(o, fuel, b, st);
      case Reflow(_, _, _, _) => QuietReflow(o, fuel, s, st);
      case Try(b, h) =>
        QuietRun(o, fuel, b, st);
        var q := Exec(o, fuel, b, st).value;
        if q.st.ex.Pending() {
          ShieldedRun(o, fuel, h, q.st);
        }
      case EnsureSynchronized(v, _, _) =>
        QuietAttempts(o, fuel, s, st);
        DoUntroubled(o, Unlock(v), Attempts(o, fuel, s, st).value);
      case _ =>
    }
  }

  /** And a careful one leaves its block whenever it leaves an exception pending. */
  lemma {:induction false} CarefulRun(o: Oracle, fuel: nat, s: Stmt, st: State)
    requires Careful(s) && !st.ex.Pending() && Untroubled(st.trace) && Exec(o, fuel, s, st).Some?
    ensures
      var r := Exec(o, fuel, s, st).value;
      Untroubled(r.st.trace) && (r.st.ex.Pending() ==> r.out == Broke)
    decreases fuel, s, 7
  {
    if Calm(s) {
      CalmStays(o, fuel, s, st);
    } else {
      match s
      case Block(a, b) =>
        CarefulRun(o, fuel, a, st);
        var q := Exec(o, fuel, a, st).value;
        if q.out == Normal {
          CarefulRun(o, fuel, b, q.st);
        }
      case Cond(t, a, b) =>
        if Eval(o, t, st) {
          CarefulRun(o, fuel, a, st);
        } else {
          CarefulRun(o, fuel, b, st);
        }
      case Reflow(_, _, _, _) => CarefulReflow(o, fuel, s, st);
      case _ =>
    }
  }

  lemma {:induction false} CarefulReflow(o: Oracle, fuel: nat, s: Stmt, st: State)
    requires s.Reflow? && Quiet(s) && Cuts(s.cleanup) && (Careful(s.init) || NoContinue(s.init))
    requires !st.ex.Pending() && Untroubled(st.trace) && Exec(o, fuel, s, st).Some?
    ensures
      var r := Exec(o, fuel, s, st).value;
      Untroubled(r.st.trace) && (r.st.ex.Pending() ==> r.out == Broke)
    decreases fuel, s, 6
  {
    QuietReflowOrCalm(o, fuel, s, st);
    var q := Exec(o, fuel, s.init, st).value;
    if q.out == Normal {
      var b := if Eval(o, s.test, q.st) then Exec(o, fuel, s.body, q.st).value else q;
      CutsOff(o, fuel, s.cleanup, b.st);
    } else if NoContinue(s.init) {
      NeverContinues(o, fuel, s.init, st);
    } else {
      CarefulRun(o, fuel, s.init, st);
    }
  }

  lemma {:induction false} QuietReflowOrCalm(o: Oracle, fuel: nat, s: Stmt, st: State)
    requires s.Reflow? && Quiet(s)
    requires !st.ex.Pending() && Untroubled(st.trace) && Exec(o, fuel, s, st).Some?
    ensures Untroubled(Exec(o, fuel, s, st).value.st.trace)
    decreases fuel, s, 5
  {
    if Calm(s) {
      CalmStays(o, fuel, s, st);
    } else {
      QuietReflow(o, fuel, s, st);
    }
  }

  lemma {:induction false} QuietReflow(o: Oracle, fuel: nat, s: Stmt, st: State)
    requires s.Reflow? && Quiet(s) && !Calm(s)
    requires !st.ex.Pending() && Untroubled(st.trace) && Exec(o, fuel, s, st).Some?
    ensures Untroubled(Exec(o, fuel, s, st).value.st.trace)
    decreases fuel, s, 4
  {
    if s.test == NotPending {
      QuietRun(o, fuel, s.init, st);
    } else {
      CarefulRun(o, fuel, s.init, st);
    }
    var q := Exec(o, fuel, s.init, st).value;
    if q.out == Normal {
      var b := q;
      if Eval(o, s.test, q.st) {
        QuietRun(o, fuel, s.body, q.st);
        b := Exec(o, fuel, s.body, q.st).value;
      }
      CleanupUntroubled(o, fuel, s.cleanup, b.st);
    }
  }

  lemma {:induction false} QuietAttempts(o: Oracle, fuel: nat, s: Stmt, st: State)
    requires s.EnsureSynchronized? && Careful(s.always) && Quiet(s.locked)
    requires !st.ex.Pending() && Untroubled(st.trace) && Attempts(o, fuel, s, st).Some?
    ensures Untroubled(Attempts(o, fuel, s, st).value.trace)
    decreases fuel, s, 0
  {
    var st1 := Do(o, TryLock(s.v), st);
    DoUntroubled(o, TryLock(s.v), st);
    CarefulRun(o, fuel - 1, s.always, st1);
    var r := Exec(o, fuel - 1, s.always, st1).value;
    if r.out != Broke {
      if Eval(o, Held(s.v), r.st) {
        QuietRun(o, fuel - 1, s.locked, r.st);
      } else {
        QuietAttempts(o, fuel - 1, s, r.st);
      }
    }
  }

  /** A shielded statement may start with an exception pending. */
  lemma {:induction false} ShieldedRun(o: Oracle, fuel: nat, s: Stmt, st: State)
    requires Shielded(s) && Untroubled(st.trace) && Exec(o, fuel, s, st).Some?
    ensures Untroubled(Exec(o, fuel, s, st).value.st.trace)
    decreases fuel, s, 8
  {
    if CleanupOnly(s) {
      CleanupUntroubled(o, fuel, s, st);
    } else {
      match s
      case Block(a, b) =>
        ShieldedRun(o, fuel, a, st);
        var q := Exec(o, fuel, a, st).value;
        if q.out == Normal {
          ShieldedRun(o, fuel, b, q.st);
        }
      case Cond(t, a, b) =>
        if Eval(o, t, st) {
          ShieldedRun(o, fuel, a, st);
        } else {
          ShieldedRun(o, fuel, b, st);
        }
      case Forever(b) =>
        ShieldedRun(o, fuel - 1, b, st);
        var q := Exec(o, fuel - 1, b, st).value;
        if q.out != Broke {
          ShieldedRun(o, fuel - 1, s, q.st);
        }
      case Reflow(_, _, _, _) => ShieldedReflow(o, fuel, s, st);
    }
  }

  lemma {:induction false} ShieldedReflow(o: Oracle, fuel: nat, s: Stmt, st: State)
    requires s.Reflow? && Shielded(s) && !CleanupOnly(s)
    requires Untroubled(st.trace) && Exec(o, fuel, s, st).Some?
    ensures Untroubled(Exec(o, fuel, s, st).value.st.trace)
    decreases fuel, s, 7
  {
    CleanupUntroubled(o, fuel, s.init, st);
    var q := Exec(o, fuel, s.init, st).value;
    if q.out == Normal {
      var b := q;
      if Eval(o, s.test, q.st) {
        if Shielded(s.body) {
          ShieldedRun(o, fuel, s.body, q.st);
        } else {
          QuietRun(o, fuel, s.body, q.st);
        }
        b := Exec(o, fuel, s.body, q.st).value;
      }
      CleanupUntroubled(o, fuel, s.cleanup, b.st);
    }
  }

  // ---------------------------------------------------------------- the macros that keep the discipline

  /** throwable makes any quiet statement careful, and throw any quiet raising expression. */
  lemma ThrowableCareful(s: Stmt)
    requires Quiet(s)
    ensures Careful(Throwable(s)) && Careful(Throw(s))
  {
    assert Careful(Nop) && CleanupOnly(Nop);
    assert CleanupOnly(CHECK) && Cuts(CHECK);
    var mark := Block(Simple(MarkRaised), BreakOut);
    assert CleanupOnly(Simple(MarkRaised)) && CleanupOnly(BreakOut) && Cuts(mark);
    assert Quiet(Throwable(s)) && Quiet(Throw(s));
  }

  /** Clauses are quiet when their catch blocks are and their onerror blocks only clean up. */
  predicate QuietClauses(h: seq<Clause>) {
    forall i :: 0 <= i < |h| ==> if h[i].Catch? then Quiet(h[i].body) else CleanupOnly(h[i].body)
  }

  lemma {:induction false} ClausesShielded(h: seq<Clause>)
    requires QuietClauses(h)
    ensures Shielded(Handler(h))
    decreases |h|
  {
    if h == [] {
      assert CleanupOnly(Nop);
    } else {
      hide Quiet, CleanupOnly, Catching, Observing;
      if h[0].Catch? {
        CatchShielded(h[0].body);
      } else {
        ObservingCleansUp(h[0].body);
      }
      ClausesShielded(h[1..]);
    }
  }

  lemma CatchShielded(b: Stmt)
    requires Quiet(b)
    ensures Shielded(Catching(b))
  {
    var cleanup := Block(DESTROY_UNLESS_RAISED, BreakOut);
    var round := Reflow(Simple(MarkCaught), Yes, cleanup, b);
    assert CleanupOnly(cleanup) by {
      assert CleanupOnly(Simple(Destroy)) && CleanupOnly(Nop) && CleanupOnly(BreakOut);
      assert CleanupOnly(DESTROY_UNLESS_RAISED);
    }
    assert Shielded(round) by {
      assert CleanupOnly(Simple(MarkCaught));
      hide Quiet;
    }
    assert Shielded(Nop) by {
      assert CleanupOnly(Nop);
    }
    hide CleanupOnly, Quiet;
    assert Shielded(Forever(round));
    assert Catching(b) == Block(Nop, Forever(round));
  }

  lemma ObservingCleansUp(b: Stmt)
    requires CleanupOnly(b)
    ensures CleanupOnly(Observing(b)) && Shielded(Observing(b))
  {
    assert CleanupOnly(Nop) && CleanupOnly(BreakOut) && CleanupOnly(Block(Nop, BreakOut));
    assert CleanupOnly(Reflow(Nop, Yes, Block(Nop, BreakOut), b));
    assert CleanupOnly(Forever(Reflow(Nop, Yes, Block(Nop, BreakOut), b)));
  }

  // ---------------------------------------------------------------- a with under a pending exception

  /** Once the declaration and the init of a with are done, an exception is pending. */
  ghost predicate LeavesPending(o: Oracle, decl: Stmt, init: Stmt, st: State) {
    forall f: nat, g: nat :: Exec(o, f, decl, st).Some? ==>
      var d := Exec(o, f, decl, st).value;
      d.out == Normal &&
      (Exec(o, g, init, d.st).Some? ==> Exec(o, g, init, d.st).value.out == Normal && Exec(o, g, init, d.st).value.st.ex.Pending())
  }

  lemma SkippedRound(o: Oracle, fuel: nat, init: Stmt, cleanup: Stmt, body: Stmt, other: Stmt, st: State)
    requires NoContinue(cleanup)
    requires var q := Exec(o, fuel, init, st); q.Some? ==> q.value.out == Normal && q.value.st.ex.Pending()
    ensures var r := Exec(o, fuel, Reflow(init, NotPending, Block(cleanup, BreakOut), body), st);
      && r == Exec(o, fuel, Reflow(init, NotPending, Block(cleanup, BreakOut), other), st)
      && (r.Some? ==> r.value.out == Broke)
  {
    var q := Exec(o, fuel, init, st);
    if q.Some? {
      EndsInBreak(o, fuel, cleanup, q.value.st);
      hide NoContinue;
    }
  }

  lemma EndsInBreak(o: Oracle, fuel: nat, cleanup: Stmt, st: State)
    requires NoContinue(cleanup)
    ensures var r := Exec(o, fuel, Block(cleanup, BreakOut), st); r.Some? ==> r.value.out == Broke
  {
    var q := Exec(o, fuel, cleanup, st);
    if q.Some? {
      NeverContinues(o, fuel, cleanup, st);
      assert Exec(o, fuel, BreakOut, q.value.st) == Some(Result(Broke, q.value.st));
    }
  }

  lemma BodyUnused(o: Oracle, fuel: nat, decl: Stmt, init: Stmt, cleanup: Stmt, body: Stmt, other: Stmt, st: State)
    requires LeavesPending(o, decl, init, st) && NoContinue(cleanup)
    ensures Exec(o, fuel, With(decl, init, cleanup, body), st) == Exec(o, fuel, With(decl, init, cleanup, other), st)
  {
    hide Exec, NoContinue;
    var round := Reflow(init, NotPending, Block(cleanup, BreakOut), body);
    var round' := Reflow(init, NotPending, Block(cleanup, BreakOut), other);
    var d := Exec(o, fuel, decl, st);
    if d.Some? {
      if fuel > 0 {
        SkippedRound(o, fuel - 1, init, cleanup, body, other, d.value.st);
      }
      OneRound(o, fuel, round, round', d.value.st);
    }
    SecondUnused(o, fuel, decl, Forever(round), Forever(round'), st);
  }

  lemma OneRound(o: Oracle, fuel: nat, s: Stmt, other: Stmt, st: State)
    requires fuel > 0 ==> var r := Exec(o, fuel - 1, s, st);
      r == Exec(o, fuel - 1, other, st) && (r.Some? ==> r.value.out == Broke)
    ensures Exec(o, fuel, Forever(s), st) == Exec(o, fuel, Forever(other), st)
  {
  }

  lemma SecondUnused(o: Oracle, fuel: nat, first: Stmt, s: Stmt, other: Stmt, st: State)
    requires var d := Exec(o, fuel, first, st);
      d.Some? ==> Exec(o, fuel, s, d.value.st) == Exec(o, fuel, other, d.value.st)
    ensures Exec(o, fuel, Block(first, s), st) == Exec(o, fuel, Block(first, other), st)
  {
  }

  /** A with that comes to its body with an exception pending skips it: with any other body it means, and does, the same. */
  lemma PendingSkipsBody(o: Oracle, decl: Stmt, init: Stmt, cleanup: Stmt, body: Stmt, other: Stmt, st: State, r: Result)
    requires LeavesPending(o, decl, init, st) && NoContinue(cleanup)
    ensures Means(o, With(decl, init, cleanup, body), st, r) <==> Means(o, With(decl, init, cleanup, other), st, r)
    ensures Halts(o, With(decl, init, cleanup, body), st, r) <==> Halts(o, With(decl, init, cleanup, other), st, r)
  {
    forall fuel: nat
      ensures Exec(o, fuel, With(decl, init, cleanup, body), st) == Exec(o, fuel, With(decl, init, cleanup, other), st)
    {
      BodyUnused(o, fuel, decl, init, cleanup, body, other, st);
    }
    hide With, LeavesPending, NoContinue, Halts;
    ExpansionPreservesMeaning(o, With(decl, init, cleanup, body), st, r);
    ExpansionPreservesMeaning(o, With(decl, init, cleanup, other), st, r);
  }

  /** A with whose declaration may raise is quiet, and under throwable careful, if its body is quiet. */
  lemma WithQuiet(decl: Stmt, init: Stmt, cleanup: Stmt, body: Stmt)
    requires Quiet(decl) && CleanupOnly(init) && CleanupOnly(cleanup) && Quiet(body)
    ensures Quiet(With(decl, init, cleanup, body)) && Careful(Throwable(With(decl, init, cleanup, body)))
  {
    assert CleanupOnly(BreakOut) && CleanupOnly(Block(cleanup, BreakOut));
    assert Shielded(Reflow(init, NotPending, Block(cleanup, BreakOut), body));
    assert Shielded(Forever(Reflow(init, NotPending, Block(cleanup, BreakOut), body)));
    ThrowableCareful(With(decl, init, cleanup, body));
  }

  /** The same for a try with its clauses. */
  lemma TryQuiet(body: Stmt, h: seq<Clause>)
    requires Quiet(body) && QuietClauses(h)
    ensures Quiet(Try(body, Handler(h))) && Careful(Throwable(Try(body, Handler(h))))
  {
    ClausesShielded(h);
    ThrowableCareful(Try(body, Handler(h)));
  }

  // ---------------------------------------------------------------- programs that do not end

  lemma {:induction false} CarefulIsQuiet(s: Stmt)
    requires Careful(s)
    ensures Quiet(s)
  {
    if !Calm(s) && s.Block? {
      CarefulIsQuiet(s.second);
    } else if !Calm(s) && s.Cond? {
      CarefulIsQuiet(s.thn);
      CarefulIsQuiet(s.els);
    }
  }

  /** Where a quiet statement runs out of fuel, it has done no ordinary work while an exception was pending either. */
  lemma {:induction false} QuietStops(o: Oracle, fuel: nat, s: Stmt, st: State)
    requires Quiet(s) && !st.ex.Pending() && Untroubled(st.trace) && Exec(o, fuel, s, st).None?
    ensures Untroubled(Stopped(o, fuel, s, st).trace)
    decreases fuel, s, 3
  {
    match s
    case Block(_, _) => QuietBlockStops(o, fuel, s, st);
    case Cond(t, a, b) => QuietStops(o, fuel, if Eval(o, t, st) then a else b, st);
    case Forever(_) => QuietForeverStops(o, fuel, s, st);
    case Once(b) => QuietStops(o, fuel, b, st);
    case Reflow(_, _, _, _) => QuietReflowStops(o, fuel, s, st);
    case Try(b, h) =>
      var q := Exec(o, fuel, b, st);
      if q.None? {
        QuietStops(o, fuel, b, st);
      } else if Calm(s) {
        CalmStays(o, fuel, b, st);
      } else {
        QuietRun(o, fuel, b, st);
        ShieldedStops(o, fuel, h, q.value.st);
      }
    case EnsureSynchronized(_, locked, always) =>
      if !Calm(s) {
        CarefulIsQuiet(always);
      }
      QuietAttemptsStop(o, fuel, s, st);
  }

  lemma {:induction false} QuietBlockStops(o: Oracle, fuel: nat, s: Stmt, st: State)
    requires s.Block? && Quiet(s) && !st.ex.Pending() && Untroubled(st.trace) && Exec(o, fuel, s, st).None?
    ensures Untroubled(Stopped(o, fuel, s, st).trace)
    decreases fuel, s, 2
  {
    var a, b := s.first, s.second;
    var q := Exec(o, fuel, a, st);
    if Calm(s) {
      if q.None? {
        QuietStops(o, fuel, a, st);
      } else {
        CalmStays(o, fuel, a, st);
        QuietStops(o, fuel, b, q.value.st);
      }
    } else if Careful(a) && Quiet(b) {
      CarefulIsQuiet(a);
      if q.None? {
        QuietStops(o, fuel, a, st);
      } else {
        CarefulRun(o, fuel, a, st);
        QuietStops(o, fuel, b, q.value.st);
      }
    } else {
      if q.None? {
        QuietStops(o, fuel, a, st);
      } else {
        QuietRun(o, fuel, a, st);
        ShieldedStops(o, fuel, b, q.value.st);
      }
    }
  }

  lemma {:induction false} QuietForeverStops(o: Oracle, fuel: nat, s: Stmt, st: State)
    requires s.Forever? && Quiet(s) && !st.ex.Pending() && Untroubled(st.trace) && Exec(o, fuel, s, st).None?
    ensures Untroubled(Stopped(o, fuel, s, st).trace)
    decreases fuel, s, 2
  {
    if fuel > 0 {
      var q := Exec(o, fuel - 1, s.body, st);
      CarefulIsQuiet(s.body);
      if q.None? {
        QuietStops(o, fuel - 1, s.body, st);
      } else {
        CarefulRun(o, fuel - 1, s.body, st);
        QuietStops(o, fuel - 1, s, q.value.st);
      }
    }
  }

  lemma {:induction false} QuietReflowStops(o: Oracle, fuel: nat, s: Stmt, st: State)
    requires s.Reflow? && Quiet(s) && !st.ex.Pending() && Untroubled(st.trace) && Exec(o, fuel, s, st).None?
    ensures Untroubled(Stopped(o, fuel, s, st).trace)
    decreases fuel, s, 2
  {
    if !Calm(s) && s.test != NotPending {
      CarefulIsQuiet(s.init);
    }
    var q := Exec(o, fuel, s.init, st);
    if q.None? {
      QuietStops(o, fuel, s.init, st);
    } else if Calm(s) {
      CalmStays(o, fuel, s.init, st);
      CalmScopeStops(o, fuel, s, q.value.st);
    } else {
      if s.test != NotPending {
        CarefulRun(o, fuel, s.init, st);
      } else {
        QuietRun(o, fuel, s.init, st);
      }
      QuietScopeStops(o, fuel, s, q.value.st);
    }
  }

  lemma {:induction false} CalmScopeStops(o: Oracle, fuel: nat, s: Stmt, st: State)
    requires s.Reflow? && Calm(s) && !st.ex.Pending() && Untroubled(st.trace) && Scope(o, fuel, s, st).None?
    ensures Untroubled(StoppedScope(o, fuel, s, st).trace)
    decreases fuel, s, 1
  {
    if Eval(o, s.test, st) {
      var q := Exec(o, fuel, s.body, st);
      if q.None? {
        QuietStops(o, fuel, s.body, st);
      } else {
        CalmStays(o, fuel, s.body, st);
        QuietStops(o, fuel, s.cleanup, q.value.st);
      }
    } else {
      QuietStops(o, fuel, s.cleanup, st);
    }
  }

  lemma {:induction false} QuietScopeStops(o: Oracle, fuel: nat, s: Stmt, st: State)
    requires s.Reflow? && CleanupOnly(s.cleanup) && Quiet(s.body) && Untroubled(st.trace)
    requires (Eval(o, s.test, st) ==> !st.ex.Pending()) && Scope(o, fuel, s, st).None?
    ensures Untroubled(StoppedScope(o, fuel, s, st).trace)
    decreases fuel, s, 1
  {
    if Eval(o, s.test, st) {
      var q := Exec(o, fuel, s.body, st);
      if q.None? {
        QuietStops(o, fuel, s.body, st);
      } else {
        QuietRun(o, fuel, s.body, st);
        ShieldedStops(o, fuel, s.cleanup, q.value.st);
      }
    } else {
      ShieldedStops(o, fuel, s.cleanup, st);
    }
  }

  lemma {:induction false} QuietAttemptsStop(o: Oracle, fuel: nat, s: Stmt, st: State)
    requires s.EnsureSynchronized? && Careful(s.always) && Quiet(s.always) && Quiet(s.locked)
    requires !st.ex.Pending() && Untroubled(st.trace) && Attempts(o, fuel, s, st).None?
    ensures Untroubled(StoppedAttempts(o, fuel, s, st).trace)
    decreases fuel, s, 1
  {
    if fuel > 0 {
      var st1 := Do(o, TryLock(s.v), st);
      DoUntroubled(o, TryLock(s.v), st);
      assert AfterTry(o, fuel - 1, s, st1).None?;
      var r := Exec(o, fuel - 1, s.always, st1);
      if r.None? {
        QuietStops(o, fuel - 1, s.always, st1);
      } else {
        CarefulRun(o, fuel - 1, s.always, st1);
        if Eval(o, Held(s.v), r.value.st) {
          QuietStops(o, fuel - 1, s.locked, r.value.st);
        } else {
          QuietAttemptsStop(o, fuel - 1, s, r.value.st);
        }
      }
    }
  }

  lemma {:induction false} ShieldedStops(o: Oracle, fuel: nat, s: Stmt, st: State)
    requires Shielded(s) && Untroubled(st.trace) && Exec(o, fuel, s, st).None?
    ensures Untroubled(Stopped(o, fuel, s, st).trace)
    decreases fuel, s, 3
  {
    match s
    case Block(a, b) =>
      var q := Exec(o, fuel, a, st);
      if q.None? {
        ShieldedStops(o, fuel, a, st);
      } else {
        ShieldedRun(o, fuel, a, st);
        ShieldedStops(o, fuel, b, q.value.st);
      }
    case Cond(t, a, b) => ShieldedStops(o, fuel, if Eval(o, t, st) then a else b, st);
    case Forever(b) =>
      if fuel > 0 {
        var q := Exec(o, fuel - 1, b, st);
        if q.None? {
          ShieldedStops(o, fuel - 1, b, st);
        } else {
          ShieldedRun(o, fuel - 1, b, st);
          ShieldedStops(o, fuel - 1, s, q.value.st);
        }
      }
    case Once(b) => ShieldedStops(o, fuel, b, st);
    case Reflow(_, _, _, _) => ShieldedReflowStops(o, fuel, s, st);
    case Try(b, h) =>
      var q := Exec(o, fuel, b, st);
      if q.None? {
        ShieldedStops(o, fuel, b, st);
      } else {
        ShieldedRun(o, fuel, b, st);
        ShieldedStops(o, fuel, h, q.value.st);
      }
    case EnsureSynchronized(_, _, _) => CleanupAttemptsStop(o, fuel, s, st);
  }

  lemma {:induction false} ShieldedReflowStops(o: Oracle, fuel: nat, s: Stmt, st: State)
    requires s.Reflow? && Shielded(s) && Untroubled(st.trace) && Exec(o, fuel, s, st).None?
    ensures Untroubled(Stopped(o, fuel, s, st).trace)
    decreases fuel, s, 2
  {
    var q := Exec(o, fuel, s.init, st);
    if q.None? {
      ShieldedStops(o, fuel, s.init, st);
    } else {
      CleanupUntroubled(o, fuel, s.init, st);
      if Shielded(s.body) {
        ShieldedScopeStops(o, fuel, s, q.value.st);
      } else {
        QuietScopeStops(o, fuel, s, q.value.st);
      }
    }
  }

  lemma {:induction false} ShieldedScopeStops(o: Oracle, fuel: nat, s: Stmt, st: State)
    requires s.Reflow? && CleanupOnly(s.cleanup) && Shielded(s.body) && Untroubled(st.trace)
    requires Scope(o, fuel, s, st).None?
    ensures Untroubled(StoppedScope(o, fuel, s, st).trace)
    decreases fuel, s, 1
  {
    if Eval(o, s.test, st) {
      var q := Exec(o, fuel, s.body, st);
      if q.None? {
        ShieldedStops(o, fuel, s.body, st);
      } else {
        ShieldedRun(o, fuel, s.body, st);
        ShieldedStops(o, fuel, s.cleanup, q.value.st);
      }
    } else {
      ShieldedStops(o, fuel, s.cleanup, st);
    }
  }

  lemma {:induction false} CleanupAttemptsStop(o: Oracle, fuel: nat, s: Stmt, st: State)
    requires s.EnsureSynchronized? && CleanupOnly(s) && Untroubled(st.trace) && Attempts(o, fuel, s, st).None?
    ensures Untroubled(StoppedAttempts(o, fuel, s, st).trace)
    decreases fuel, s, 1
  {
    if fuel > 0 {
      var st1 := Do(o, TryLock(s.v), st);
      DoUntroubled(o, TryLock(s.v), st);
      assert AfterTry(o, fuel - 1, s, st1).None?;
      var r := Exec(o, fuel - 1, s.always, st1);
      if r.None? {
        ShieldedStops(o, fuel - 1, s.always, st1);
      } else {
        CleanupUntroubled(o, fuel - 1, s.always, st1);
        if Eval(o, Held(s.v), r.value.st) {
          ShieldedStops(o, fuel - 1, s.locked, r.value.st);
        } else {
          CleanupAttemptsStop(o, fuel - 1, s, r.value.st);
        }
      }
    }
  }

  /**
   * The discipline carries over to the expansion: at every step of its jump code, whether it halts or not, no ordinary
   * work has been done while an exception was pending.
   */
  lemma QuietJumpCode(o: Oracle, s: Stmt, st: State, n: nat, c: Config)
    requires Quiet(s) && !st.ex.Pending() && Untroubled(st.trace)
    requires Run(Expand(s, 0), o, Begin(s, st), n) == Some(c)
    ensures Untroubled(c.st.trace)
  {
    StepsWithin(o, s, st, n, c);
    var r := Exec(o, n + 1, s, st);
    var end := Reached(o, n + 1, s, st);
    if r.Some? {
      QuietRun(o, n + 1, s, st);
    } else {
      QuietStops(o, n + 1, s, st);
    }
    assert forall i :: 0 <= i < |c.st.trace| ==> c.st.trace[i] == end.trace[i];
  }
}
