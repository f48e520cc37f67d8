/** ensure_synchronized: a lock is tried only while it is not held, and released once for every time it was obtained. */
module Locking {
  import opened Options
  import opened JumpCode
  import opened Macros
  import opened Simulation
  import opened Divergence
  import opened Scopes

  /** Whether lock v is held after these events; None if it was tried while held, or released while not held. */
  function LockOf(trace: seq<Event>, v: nat): Option<bool> {
    if trace == [] then Some(false)
    else
      var before := LockOf(trace[..|trace| - 1], v);
      match trace[|trace| - 1]
      case Tried(w, ok) => if w != v then before else if before == Some(false) then Some(ok) else None
      case Unlocked(w) => if w != v then before else if before == Some(true) then Some(false) else None
      case Did(_, _, _) => before
  }

  /** s uses lock v through ensure_synchronized only, and not at all where the lock may be held already. */
  predicate Locks(s: Stmt, v: nat, held: bool) {
    match s
    case Simple(p) => p != TryLock(v) && p != Unlock(v)
    case Block(a, b) => Locks(a, v, held) && Locks(b, v, held)
    case Cond(_, a, b) => Locks(a, v, held) && Locks(b, v, held)
    case Forever(b) => Locks(b, v, held)
    case Once(b) => Locks(b, v, held)
    case Reflow(init, _, cleanup, b) => Locks(init, v, held) && Locks(cleanup, v, held) && Locks(b, v, held)
    case Try(b, h) => Locks(b, v, held) && Locks(h, v, held)
    case EnsureSynchronized(w, locked, always) =>
      !(held && w == v) && Locks(locked, v, held || w == v) && Locks(always, v, held || w == v)
    case _ => true
  }

  lemma {:induction false} LocksWeaken(s: Stmt, v: nat, held: bool)
    requires Locks(s, v, true)
    ensures Locks(s, v, held) && !Sets(s, v)
  {
    match s
    case Block(a, b) => LocksWeaken(a, v, held); LocksWeaken(b, v, held);
    case Cond(_, a, b) => LocksWeaken(a, v, held); LocksWeaken(b, v, held);
    case Forever(b) => LocksWeaken(b, v, held);
    case Once(b) => LocksWeaken(b, v, held);
    case Reflow(init, _, cleanup, b) =>
      LocksWeaken(init, v, held);
      LocksWeaken(cleanup, v, held);
      LocksWeaken(b, v, held);
    case Try(b, h) => LocksWeaken(b, v, held); LocksWeaken(h, v, held);
    case EnsureSynchronized(_, locked, always) => LocksWeaken(locked, v, held); LocksWeaken(always, v, held);
    case _ =>
  }

  lemma Append(trace: seq<Event>, e: Event, v: nat)
    ensures LockOf(trace + [e], v) ==
      if e.Tried? && e.v == v then (if LockOf(trace, v) == Some(false) then Some(e.ok) else None)
      else if e.Unlocked? && e.v == v then (if LockOf(trace, v) == Some(true) then Some(false) else None)
      else LockOf(trace, v)
  {
    assert (trace + [e])[..|trace|] == trace;
  }

  lemma DoLocks(o: Oracle, p: Prim, v: nat, st: State)
    requires p != TryLock(v) && p != Unlock(v)
    ensures LockOf(Do(o, p, st).trace, v) == LockOf(st.trace, v)
  {
    forall e: Event
      ensures LockOf(st.trace + [e], v) == LockOf(st.trace, v) || (e.Tried? && e.v == v) || (e.Unlocked? && e.v == v)
    {
      Append(st.trace, e, v);
    }
    hide LockOf;
  }

  /** However a statement ends, lock v is as it was before, and at no time was it misused. */
  lemma {:induction false} LocksKept(o: Oracle, fuel: nat, s: Stmt, v: nat, held: bool, st: State)
    requires Locks(s, v, held) && LockOf(st.trace, v) == Some(held)
    ensures var r := Exec(o, fuel, s, st);
      if r.Some? then LockOf(r.value.st.trace, v) == Some(held) else LockOf(Stopped(o, fuel, s, st).trace, v).Some?
    decreases fuel, s, 3
  {
    match s
    case Simple(p) => DoLocks(o, p, v, st);
    case Block(a, b) =>
      hide LockOf;
      LocksKept(o, fuel, a, v, held, st);
      var q := Exec(o, fuel, a, st);
      if q.Some? && q.value.out == Normal {
        LocksKept(o, fuel, b, v, held, q.value.st);
      }
    case Cond(t, a, b) =>
      hide LockOf;
      LocksKept(o, fuel, if Eval(o, t, st) then a else b, v, held, st);
    case Forever(b) =>
      hide LockOf;
      if fuel > 0 {
        LocksKept(o, fuel - 1, b, v, held, st);
        var q := Exec(o, fuel - 1, b, st);
        if q.Some? && q.value.out != Broke {
          LocksKept(o, fuel - 1, s, v, held, q.value.st);
        }
      }
    case Once(b) =>
      hide LockOf;
      LocksKept(o, fuel, b, v, held, st);
    case Reflow(_, _, _, _) => ReflowLocks(o, fuel, s, v, held, st);
    case Try(b, h) =>
      hide LockOf;
      LocksKept(o, fuel, b, v, held, st);
      var q := Exec(o, fuel, b, st);
      if q.Some? && q.value.st.ex.Pending() {
        LocksKept(o, fuel, h, v, held, q.value.st);
      }
    case EnsureSynchronized(w, _, _) =>
      if w == v {
        assert !held;
        OwnAttempts(o, fuel, s, st);
        var r := Attempts(o, fuel, s, st);
        if r.Some? {
          Append(r.value.trace, Unlocked(v), v);
        }
      } else {
        OtherAttempts(o, fuel, s, v, held, st);
        var r := Attempts(o, fuel, s, st);
        if r.Some? {
          Append(r.value.trace, Unlocked(w), v);
        }
      }
      hide LockOf, Attempts, StoppedAttempts;
    case _ =>
  }

  lemma {:induction false} ReflowLocks(o: Oracle, fuel: nat, s: Stmt, v: nat, held: bool, st: State)
    requires s.Reflow? && Locks(s, v, held) && LockOf(st.trace, v) == Some(held)
    ensures var r := Exec(o, fuel, s, st);
      if r.Some? then LockOf(r.value.st.trace, v) == Some(held) else LockOf(Stopped(o, fuel, s, st).trace, v).Some?
    decreases fuel, s, 2
  {
    ReflowMeans(o, fuel, s, st);
    LocksKept(o, fuel, s.init, v, held, st);
    hide LockOf;
    var r := Exec(o, fuel, s.init, st);
    if r.Some? && r.value.out == Normal {
      ScopeLocks(o, fuel, s, v, held, r.value.st);
      hide Exec, Scope, StoppedScope;
    }
  }

  lemma {:induction false} ScopeLocks(o: Oracle, fuel: nat, s: Stmt, v: nat, held: bool, st: State)
    requires s.Reflow? && Locks(s, v, held) && LockOf(st.trace, v) == Some(held)
    ensures var r := Scope(o, fuel, s, st);
      if r.Some? then LockOf(r.value.st.trace, v) == Some(held) else LockOf(StoppedScope(o, fuel, s, st).trace, v).Some?
    decreases fuel, s, 1
  {
    hide LockOf, Exec, Stopped;
    if Eval(o, s.test, st) {
      LocksKept(o, fuel, s.body, v, held, st);
      var q := Exec(o, fuel, s.body, st);
      if q.Some? {
        LocksKept(o, fuel, s.cleanup, v, held, q.value.st);
      }
    } else {
      LocksKept(o, fuel, s.cleanup, v, held, st);
    }
  }

  /** Attempts on another lock. */
  lemma {:induction false} OtherAttempts(o: Oracle, fuel: nat, s: Stmt, v: nat, held: bool, st: State)
    requires s.EnsureSynchronized? && s.v != v && Locks(s, v, held) && LockOf(st.trace, v) == Some(held)
    ensures var r := Attempts(o, fuel, s, st);
      if r.Some? then LockOf(r.value.trace, v) == Some(held) else LockOf(StoppedAttempts(o, fuel, s, st).trace, v).Some?
    decreases fuel, s, 1
  {
    hide Exec, Stopped, LockOf;
    if fuel > 0 {
      var st1 := Do(o, TryLock(s.v), st);
      DoLocks(o, TryLock(s.v), v, st);
      LocksKept(o, fuel - 1, s.always, v, held, st1);
      assert Attempts(o, fuel, s, st) == AfterTry(o, fuel - 1, s, st1);
      var r := Exec(o, fuel - 1, s.always, st1);
      if r.Some? && r.value.out != Broke {
        if Eval(o, Held(s.v), r.value.st) {
          LocksKept(o, fuel - 1, s.locked, v, held, r.value.st);
        } else {
          OtherAttempts(o, fuel - 1, s, v, held, r.value.st);
        }
      }
    }
  }

  lemma TryLocks(o: Oracle, v: nat, st: State)
    requires LockOf(st.trace, v) == Some(false)
    ensures var st1 := Do(o, TryLock(v), st); LockOf(st1.trace, v) == Some(Eval(o, Held(v), st1))
  {
    Append(st.trace, Tried(v, o(Attempt(v), st.trace)), v);
    hide LockOf;
  }

  /** Attempts on this one end with the variable telling whether it is held. */
  lemma {:induction false} OwnAttempts(o: Oracle, fuel: nat, s: Stmt, st: State)
    requires s.EnsureSynchronized? && Locks(s.always, s.v, true) && Locks(s.locked, s.v, true)
    requires LockOf(st.trace, s.v) == Some(false)
    ensures var r := Attempts(o, fuel, s, st);
      if r.Some? then LockOf(r.value.trace, s.v) == Some(Eval(o, Held(s.v), r.value))
      else LockOf(StoppedAttempts(o, fuel, s, st).trace, s.v).Some?
    decreases fuel, s, 2
  {
    hide Exec, Stopped, LockOf, Locks, Do, Eval;
    if fuel > 0 {
      var st1 := Do(o, TryLock(s.v), st);
      TryLocks(o, s.v, st);
      SameHand(o, fuel - 1, s.always, s.v, st1);
      assert Attempts(o, fuel, s, st) == AfterTry(o, fuel - 1, s, st1);
      var r := Exec(o, fuel - 1, s.always, st1);
      if r.Some? && r.value.out != Broke {
        if Eval(o, Held(s.v), r.value.st) {
          SameHand(o, fuel - 1, s.locked, s.v, r.value.st);
        } else {
          OwnAttempts(o, fuel - 1, s, r.value.st);
        }
      }
    }
  }

  /** A statement that does not use the lock leaves it and the variable as they are. */
  lemma {:induction false} SameHand(o: Oracle, fuel: nat, s: Stmt, v: nat, st: State)
    requires Locks(s, v, true) && LockOf(st.trace, v) == Some(Eval(o, Held(v), st))
    ensures var r := Exec(o, fuel, s, st);
      if r.Some? then LockOf(r.value.st.trace, v) == Some(Eval(o, Held(v), r.value.st))
      else LockOf(Stopped(o, fuel, s, st).trace, v).Some?
    decreases fuel, s, 4
  {
    hide Exec, Stopped, LockOf, Locks, Sets, Eval;
    var held := Eval(o, Held(v), st);
    LocksWeaken(s, v, held);
    LocksKept(o, fuel, s, v, held, st);
    if Exec(o, fuel, s, st).Some? {
      HandStays(o, fuel, s, v, st);
    }
  }

  lemma {:induction false} EarlierToo(trace: seq<Event>, v: nat, k: nat)
    requires LockOf(trace, v).Some? && k <= |trace|
    ensures LockOf(trace[..k], v).Some?
    decreases |trace|
  {
    if k < |trace| {
      EarlierToo(trace[..|trace| - 1], v, k);
      assert trace[..|trace| - 1][..k] == trace[..k];
    } else {
      assert trace[..k] == trace;
    }
  }

  /**
   * At every step of the jump code of a program, whether it halts or not, a lock has been tried only while it was not
   * held and released only while it was; and when the code halts, however its blocks were left, the lock is free.
   */
  lemma LocksBalanced(o: Oracle, s: Stmt, v: nat, st: State, n: nat, c: Config)
    requires Locks(s, v, false) && LockOf(st.trace, v) == Some(false)
    requires Run(Expand(s, 0), o, Begin(s, st), n) == Some(c)
    ensures LockOf(c.st.trace, v).Some?
    ensures Step(Expand(s, 0), o, c) == None ==> LockOf(c.st.trace, v) == Some(false)
  {
    hide Exec, Stopped, LockOf, Locks, Step, Run;
    LocksKept(o, n + 1, s, v, false, st);
    StepsWithin(o, s, st, n, c);
    var end := Reached(o, n + 1, s, st);
    assert end.trace[..|c.st.trace|] == c.st.trace;
    EarlierToo(end.trace, v, |c.st.trace|);
    if Exec(o, n + 1, s, st).Some? {
      assert LockOf(end.trace, v) == Some(false);
    }
    if Step(Expand(s, 0), o, c) == None {
      HaltedIsFinal(o, s, st, n, c);
    }
  }

  // ---------------------------------------------------------------- which block runs when

  /** The first attempt succeeds: after the look, unless it breaks out, the block runs, and the lock is released. */
  lemma GrantedRuns(o: Oracle, fuel: nat, s: Stmt, st: State, st1: State, r: Result)
    requires s.EnsureSynchronized? && Locks(s, s.v, false) && LockOf(st.trace, s.v) == Some(false)
    requires o(Attempt(s.v), st.trace) && st1 == st.(held := st.held[s.v := true], trace := st.trace + [Tried(s.v, true)])
    requires Exec(o, fuel, s.always, st1) == Some(r)
    ensures var q := if r.out == Broke then Some(r) else Exec(o, fuel, s.locked, r.st);
      Exec(o, fuel + 1, s, st)
      == if q.None? then None else Some(Result(Normal, q.value.st.(trace := q.value.st.trace + [Unlocked(s.v)])))
  {
    var v := s.v;
    assert st1 == Do(o, TryLock(v), st) && Eval(o, Held(v), st1);
    LocksWeaken(s.always, v, true);
    HandStays(o, fuel, s.always, v, st1);
    assert Attempts(o, fuel + 1, s, st) == AfterTry(o, fuel, s, st1);
    if r.out != Broke && Exec(o, fuel, s.locked, r.st).Some? {
      LocksWeaken(s.locked, v, true);
      HandStays(o, fuel, s.locked, v, r.st);
    }
    hide LockOf, Locks, Sets;
  }

  /** It fails: the look comes all the same, and unless it breaks out, everything starts again. */
  lemma RefusedRepeats(o: Oracle, fuel: nat, s: Stmt, st: State, st1: State, r: Result)
    requires s.EnsureSynchronized? && Locks(s, s.v, false)
    requires !o(Attempt(s.v), st.trace) && st1 == st.(held := st.held[s.v := false], trace := st.trace + [Tried(s.v, false)])
    requires Exec(o, fuel, s.always, st1) == Some(r)
    ensures Exec(o, fuel + 1, s, st) == if r.out == Broke then Some(Result(Normal, r.st)) else Exec(o, fuel, s, r.st)
  {
    var v := s.v;
    assert st1 == Do(o, TryLock(v), st) && !Eval(o, Held(v), st1);
    LocksWeaken(s.always, v, true);
    HandStays(o, fuel, s.always, v, st1);
    assert Attempts(o, fuel + 1, s, st) == AfterTry(o, fuel, s, st1);
    hide Locks, Sets;
  }
}
