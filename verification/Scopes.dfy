/** Scopes are left once and innermost first, in programs that end and at every step of those that do not. */
module Scopes {
  import opened Options
  import opened ExceptionCell
  import opened JumpCode
  import opened Macros
  import opened Simulation
  import opened Divergence
  import opened MacroLaws
  import opened Brackets

  /** TryLock stands for the attempt to get the handle n; without it an exception is pending afterwards. */
  function Acquire(n: nat, kind: nat): Stmt {
    Block(Simple(TryLock(n)), Cond(Held(n), Simple(Enter(n)), Cond(Pending, Nop, Simple(Construct(kind)))))
  }

  /** Releasing a null handle does nothing. */
  function Release(n: nat): Stmt {
    Cond(Held(n), Simple(Leave(n)), Nop)
  }

  /** with (handle = acquire, release): Enter stands for getting the handle, Leave for giving it back. */
  function WithHandle(n: nat, kind: nat, body: Stmt): Stmt {
    With(Acquire(n, kind), Nop, Release(n), body)
  }

  datatype Handled = Handled(n: nat, kind: nat, body: Stmt)

  /** The handle and the body, if s is such a with. */
  function HandleBody(s: Stmt): (r: Option<Handled>)
    ensures r.Some? ==> s == WithHandle(r.value.n, r.value.kind, r.value.body) && r.value.body < s
  {
    match s
    case Block(Block(Simple(TryLock(n)), Cond(_, _, Cond(_, _, Simple(Construct(kind))))),
               Forever(Reflow(_, _, _, b))) => if s == WithHandle(n, kind, b) then Some(Handled(n, kind, b)) else None
    case _ => None
  }

  /** s assigns to the variable v. */
  predicate Sets(s: Stmt, v: nat) {
    match s
    case Simple(p) => p == TryLock(v)
    case Block(a, b) => Sets(a, v) || Sets(b, v)
    case Cond(_, a, b) => Sets(a, v) || Sets(b, v)
    case Forever(b) => Sets(b, v)
    case Once(b) => Sets(b, v)
    case Reflow(init, _, cleanup, b) => Sets(init, v) || Sets(cleanup, v) || Sets(b, v)
    case Try(b, h) => Sets(b, v) || Sets(h, v)
    case EnsureSynchronized(w, locked, always) => w == v || Sets(locked, v) || Sets(always, v)
    case _ => false
  }

  /** The scope around a reflow that marks itself: last in the init, first in the cleanup. */
  predicate Marked(init: Stmt, cleanup: Stmt) {
    && init.Block? && cleanup.Block? && init.second.Simple? && init.second.p.Enter?
    && cleanup.first == Simple(Leave(init.second.p.scope))
  }

  /** Marks are made by handles, whose variables their bodies leave alone, and by marked reflows only. */
  predicate Scoped(s: Stmt) {
    if HandleBody(s).Some? then Scoped(HandleBody(s).value.body) && !Sets(HandleBody(s).value.body, HandleBody(s).value.n)
    else
      match s
      case Simple(p) => !p.Enter? && !p.Leave?
      case Block(a, b) => Scoped(a) && Scoped(b)
      case Cond(_, a, b) => Scoped(a) && Scoped(b)
      case Forever(b) => Scoped(b)
      case Once(b) => Scoped(b)
      case Reflow(init, _, cleanup, b) =>
        Scoped(b) && if Marked(init, cleanup) then Scoped(init.first) && Scoped(cleanup.second)
                     else Scoped(init) && Scoped(cleanup)
      case Try(b, h) => Scoped(b) && Scoped(h)
      case EnsureSynchronized(_, locked, always) => Scoped(locked) && Scoped(always)
      case _ => true
  }

  /** What s has marked when it ends, or has marked so far when it runs out of fuel. */
  ghost predicate InOrder(o: Oracle, fuel: nat, s: Stmt, st: State) {
    var r := Exec(o, fuel, s, st);
    if r.Some? then BalancedFrom(st.brackets, r.value.st.brackets)
    else NestedFrom(st.brackets, Stopped(o, fuel, s, st).brackets)
  }

  lemma {:induction false} ScopedInOrder(o: Oracle, fuel: nat, s: Stmt, st: State)
    requires Scoped(s)
    ensures InOrder(o, fuel, s, st)
    decreases fuel, s, 3
  {
    if HandleBody(s).Some? {
      HandleInOrder(o, fuel, s, st);
    } else {
      match s
      case Block(_, _) => BlockInOrder(o, fuel, s, st);
      case Cond(t, a, b) => ScopedInOrder(o, fuel, if Eval(o, t, st) then a else b, st);
      case Forever(_) => ForeverInOrder(o, fuel, s, st);
      case Once(b) => ScopedInOrder(o, fuel, b, st);
      case Reflow(_, _, _, _) => ReflowInOrder(o, fuel, s, st);
      case Try(_, _) => TryInOrder(o, fuel, s, st);
      case EnsureSynchronized(_, _, _) => EnsureInOrder(o, fuel, s, st);
      case _ => NothingBalanced(st.brackets);
    }
  }

  /** One part has ended, and another goes on from there. */
  lemma Onward(o: Oracle, fuel: nat, s: Stmt, a: seq<Bracket>, st: State)
    requires BalancedFrom(a, st.brackets) && InOrder(o, fuel, s, st)
    ensures var r := Exec(o, fuel, s, st);
      if r.Some? then BalancedFrom(a, r.value.st.brackets) else NestedFrom(a, Stopped(o, fuel, s, st).brackets)
  {
    var r := Exec(o, fuel, s, st);
    BalancedThen(a, st.brackets, if r.Some? then r.value.st.brackets else Stopped(o, fuel, s, st).brackets);
  }

  lemma {:induction false} BlockInOrder(o: Oracle, fuel: nat, s: Stmt, st: State)
    requires s.Block? && Scoped(s) && HandleBody(s).None?
    ensures InOrder(o, fuel, s, st)
    decreases fuel, s, 2
  {
    ScopedInOrder(o, fuel, s.first, st);
    var q := Exec(o, fuel, s.first, st);
    if q.Some? && q.value.out == Normal {
      ScopedInOrder(o, fuel, s.second, q.value.st);
      Onward(o, fuel, s.second, st.brackets, q.value.st);
    }
    hide BalancedFrom, NestedFrom;
  }

  lemma {:induction false} ForeverInOrder(o: Oracle, fuel: nat, s: Stmt, st: State)
    requires s.Forever? && Scoped(s)
    ensures InOrder(o, fuel, s, st)
    decreases fuel, s, 2
  {
    hide BalancedFrom, NestedFrom;
    if fuel == 0 {
      NothingBalanced(st.brackets);
    } else {
      ScopedInOrder(o, fuel - 1, s.body, st);
      var q := Exec(o, fuel - 1, s.body, st);
      if q.Some? && q.value.out != Broke {
        ScopedInOrder(o, fuel - 1, s, q.value.st);
        Onward(o, fuel - 1, s, st.brackets, q.value.st);
      }
    }
  }

  lemma {:induction false} TryInOrder(o: Oracle, fuel: nat, s: Stmt, st: State)
    requires s.Try? && Scoped(s)
    ensures InOrder(o, fuel, s, st)
    decreases fuel, s, 2
  {
    hide BalancedFrom, NestedFrom;
    ScopedInOrder(o, fuel, s.body, st);
    var q := Exec(o, fuel, s.body, st);
    if q.Some? && q.value.st.ex.Pending() {
      ScopedInOrder(o, fuel, s.handler, q.value.st);
      Onward(o, fuel, s.handler, st.brackets, q.value.st);
    }
  }

  // ---------------------------------------------------------------- ensure_synchronized

  ghost predicate AttemptsOrdered(o: Oracle, fuel: nat, s: Stmt, a: seq<Bracket>, st: State)
    requires s.EnsureSynchronized?
  {
    var r := Attempts(o, fuel, s, st);
    if r.Some? then BalancedFrom(a, r.value.brackets) else NestedFrom(a, StoppedAttempts(o, fuel, s, st).brackets)
  }

  lemma {:induction false} EnsureInOrder(o: Oracle, fuel: nat, s: Stmt, st: State)
    requires s.EnsureSynchronized? && Scoped(s)
    ensures InOrder(o, fuel, s, st)
    decreases fuel, s, 2
  {
    NothingBalanced(st.brackets);
    hide BalancedFrom, NestedFrom;
    AttemptsInOrder(o, fuel, s, st.brackets, st);
  }

  lemma {:induction false} AttemptsInOrder(o: Oracle, fuel: nat, s: Stmt, a: seq<Bracket>, st: State)
    requires s.EnsureSynchronized? && Scoped(s) && BalancedFrom(a, st.brackets)
    ensures AttemptsOrdered(o, fuel, s, a, st)
    decreases fuel, s, 1
  {
    if fuel == 0 {
      BalancedIsNested(a, st.brackets);
    } else {
      hide BalancedFrom, NestedFrom;
      var st1 := Do(o, TryLock(s.v), st);
      assert AfterTry(o, fuel - 1, s, st1) == Attempts(o, fuel, s, st);
      ScopedInOrder(o, fuel - 1, s.always, st1);
      Onward(o, fuel - 1, s.always, a, st1);
      var r := Exec(o, fuel - 1, s.always, st1);
      if r.Some? && r.value.out != Broke {
        if Eval(o, Held(s.v), r.value.st) {
          ScopedInOrder(o, fuel - 1, s.locked, r.value.st);
          Onward(o, fuel - 1, s.locked, a, r.value.st);
        } else {
          AttemptsInOrder(o, fuel - 1, s, a, r.value.st);
        }
      }
    }
  }

  // ---------------------------------------------------------------- scopes

  ghost predicate ScopeOrdered(o: Oracle, fuel: nat, s: Stmt, a: seq<Bracket>, st: State)
    requires s.Reflow?
  {
    var r := Scope(o, fuel, s, st);
    if r.Some? then BalancedFrom(a, r.value.st.brackets) else NestedFrom(a, StoppedScope(o, fuel, s, st).brackets)
  }

  lemma {:induction false} ReflowInOrder(o: Oracle, fuel: nat, s: Stmt, st: State)
    requires s.Reflow? && Scoped(s)
    ensures InOrder(o, fuel, s, st)
    decreases fuel, s, 2
  {
    if Marked(s.init, s.cleanup) {
      MarkedInOrder(o, fuel, s, st);
    } else {
      hide BalancedFrom, NestedFrom;
      ScopedInOrder(o, fuel, s.init, st);
      var q := Exec(o, fuel, s.init, st);
      if q.Some? && q.value.out == Normal {
        PlainScopeInOrder(o, fuel, s, st.brackets, q.value.st);
        ReflowIsScope(o, fuel, s, st, q.value.st);
      }
    }
  }

  lemma ReflowIsScope(o: Oracle, fuel: nat, s: Stmt, st: State, st1: State)
    requires s.Reflow? && Exec(o, fuel, s.init, st) == Some(Result(Normal, st1))
    ensures Exec(o, fuel, s, st) == Scope(o, fuel, s, st1)
    ensures Exec(o, fuel, s, st).None? ==> Stopped(o, fuel, s, st) == StoppedScope(o, fuel, s, st1)
  {
  }

  lemma {:induction false} PlainScopeInOrder(o: Oracle, fuel: nat, s: Stmt, a: seq<Bracket>, st: State)
    requires s.Reflow? && Scoped(s.body) && Scoped(s.cleanup) && BalancedFrom(a, st.brackets)
    ensures ScopeOrdered(o, fuel, s, a, st)
    decreases fuel, s, 1
  {
    hide BalancedFrom, NestedFrom;
    if Eval(o, s.test, st) {
      ScopedInOrder(o, fuel, s.body, st);
      Onward(o, fuel, s.body, a, st);
      var q := Exec(o, fuel, s.body, st);
      if q.Some? {
        ScopedInOrder(o, fuel, s.cleanup, q.value.st);
        Onward(o, fuel, s.cleanup, a, q.value.st);
      }
    } else {
      ScopedInOrder(o, fuel, s.cleanup, st);
      Onward(o, fuel, s.cleanup, a, st);
    }
  }

  lemma {:induction false} MarkedInOrder(o: Oracle, fuel: nat, s: Stmt, st: State)
    requires s.Reflow? && Scoped(s) && Marked(s.init, s.cleanup)
    ensures InOrder(o, fuel, s, st)
    decreases fuel, s, 1
  {
    hide BalancedFrom, NestedFrom;
    var n := s.init.second.p.scope;
    assert s.init == Block(s.init.first, Simple(Enter(n)));
    EnterAfter(o, fuel, s.init.first, n, st);
    ScopedInOrder(o, fuel, s.init.first, st);
    var q := Exec(o, fuel, s.init.first, st);
    if q.None? {
      assert Stopped(o, fuel, s, st) == Stopped(o, fuel, s.init, st) == Stopped(o, fuel, s.init.first, st);
    } else if q.value.out != Normal {
      assert Exec(o, fuel, s, st) == q;
    } else {
      var st1 := Do(o, Enter(n), q.value.st);
      ReflowIsScope(o, fuel, s, st, st1);
      MarkedScopeInOrder(o, fuel, s, st.brackets, q.value.st, n);
    }
  }

  /** From behind the init: the scope is open at st1, and closes where the cleanup begins. */
  lemma {:induction false} MarkedScopeInOrder(o: Oracle, fuel: nat, s: Stmt, a: seq<Bracket>, st: State, n: nat)
    requires s.Reflow? && Scoped(s) && Marked(s.init, s.cleanup) && n == s.init.second.p.scope
    requires BalancedFrom(a, st.brackets)
    ensures ScopeOrdered(o, fuel, s, a, Do(o, Enter(n), st))
    decreases fuel, s, 0
  {
    hide BalancedFrom, NestedFrom;
    var st1 := Do(o, Enter(n), st);
    if Eval(o, s.test, st1) {
      ScopedInOrder(o, fuel, s.body, st1);
      var q := Exec(o, fuel, s.body, st1);
      if q.Some? {
        MarkedCleanupInOrder(o, fuel, s, a, st, n, q.value.st);
      } else {
        StillOpen(a, st.brackets, n, Stopped(o, fuel, s.body, st1).brackets);
      }
    } else {
      NothingBalanced(st1.brackets);
      MarkedCleanupInOrder(o, fuel, s, a, st, n, st1);
    }
  }

  lemma StillOpen(a: seq<Bracket>, b: seq<Bracket>, n: nat, c: seq<Bracket>)
    requires BalancedFrom(a, b) && NestedFrom(b + [Open(n)], c)
    ensures NestedFrom(a, c)
  {
    ScopeOpen(b, n, c);
    BalancedThen(a, b, c);
  }

  lemma NowClosed(a: seq<Bracket>, b: seq<Bracket>, n: nat, c: seq<Bracket>)
    requires BalancedFrom(a, b) && BalancedFrom(b + [Open(n)], c)
    ensures BalancedFrom(a, c + [Close(n)])
  {
    ScopeClosed(b, n, c);
    BalancedThen(a, b, c + [Close(n)]);
  }

  lemma {:induction false} MarkedCleanupInOrder(o: Oracle, fuel: nat, s: Stmt, a: seq<Bracket>, st: State, n: nat, end: State)
    requires s.Reflow? && Scoped(s) && Marked(s.init, s.cleanup) && n == s.init.second.p.scope
    requires BalancedFrom(a, st.brackets) && BalancedFrom(st.brackets + [Open(n)], end.brackets)
    ensures var r := Exec(o, fuel, s.cleanup, end);
      if r.Some? then BalancedFrom(a, r.value.st.brackets) else NestedFrom(a, Stopped(o, fuel, s.cleanup, end).brackets)
    decreases fuel, s.cleanup, 9
  {
    hide BalancedFrom, NestedFrom;
    var closed := Do(o, Leave(n), end);
    NowClosed(a, st.brackets, n, end.brackets);
    ScopedInOrder(o, fuel, s.cleanup.second, closed);
    Onward(o, fuel, s.cleanup.second, a, closed);
  }

  // ---------------------------------------------------------------- handles

  lemma {:induction false} HandleInOrder(o: Oracle, fuel: nat, s: Stmt, st: State)
    requires HandleBody(s).Some? && Scoped(s)
    ensures InOrder(o, fuel, s, st)
    decreases fuel, s, 2
  {
    var n, kind, body := HandleBody(s).value.n, HandleBody(s).value.kind, HandleBody(s).value.body;
    hide HandleBody, WithHandle, BalancedFrom, NestedFrom;
    var st1 := Do(o, TryLock(n), st);
    if Eval(o, Held(n), st1) {
      if fuel > 0 {
        ScopedInOrder(o, fuel - 1, body, Do(o, Enter(n), st1));
      }
      HeldInOrder(o, fuel, n, kind, body, st);
    } else {
      NullInOrder(o, fuel, n, kind, body, st);
    }
  }

  lemma HeldInOrder(o: Oracle, fuel: nat, n: nat, kind: nat, body: Stmt, st: State)
    requires Eval(o, Held(n), Do(o, TryLock(n), st)) && !Sets(body, n)
    requires fuel > 0 ==> InOrder(o, fuel - 1, body, Do(o, Enter(n), Do(o, TryLock(n), st)))
    ensures InOrder(o, fuel, WithHandle(n, kind, body), st)
  {
    var st1 := Do(o, Enter(n), Do(o, TryLock(n), st));
    NothingBalanced(st.brackets);
    NothingBalanced(st1.brackets);
    hide BalancedFrom, NestedFrom, WithHandle;
    HandleRun(o, fuel, n, kind, body, st);
    if fuel == 0 {
      StillOpen(st.brackets, st.brackets, n, st1.brackets);
    } else if Eval(o, NotPending, st1) {
      var q := Exec(o, fuel - 1, body, st1);
      if q.Some? {
        NowClosed(st.brackets, st.brackets, n, q.value.st.brackets);
      } else {
        StillOpen(st.brackets, st.brackets, n, Stopped(o, fuel - 1, body, st1).brackets);
      }
    } else {
      NowClosed(st.brackets, st.brackets, n, st1.brackets);
    }
  }

  lemma NullInOrder(o: Oracle, fuel: nat, n: nat, kind: nat, body: Stmt, st: State)
    requires !Eval(o, Held(n), Do(o, TryLock(n), st))
    ensures InOrder(o, fuel, WithHandle(n, kind, body), st)
  {
    NothingBalanced(st.brackets);
    BalancedIsNested(st.brackets, st.brackets);
    hide BalancedFrom, NestedFrom, WithHandle;
    NullRun(o, fuel, n, kind, body, st);
  }

  /** What is in hand stays there while nothing assigns to the variable. */
  lemma {:induction false} HandStays(o: Oracle, fuel: nat, s: Stmt, v: nat, st: State)
    requires !Sets(s, v) && Exec(o, fuel, s, st).Some?
    ensures Eval(o, Held(v), Exec(o, fuel, s, st).value.st) == Eval(o, Held(v), st)
    decreases fuel, s, 2
  {
    match s
    case Block(a, b) =>
      HandStays(o, fuel, a, v, st);
      var q := Exec(o, fuel, a, st).value;
      if q.out == Normal {
        HandStays(o, fuel, b, v, q.st);
      }
    case Cond(t, a, b) => HandStays(o, fuel, if Eval(o, t, st) then a else b, v, st);
    case Forever(b) =>
      HandStays(o, fuel - 1, b, v, st);
      var q := Exec(o, fuel - 1, b, st).value;
      if q.out != Broke {
        HandStays(o, fuel - 1, s, v, q.st);
      }
    case Once(b) => HandStays(o, fuel, b, v, st);
    case Reflow(_, _, _, _) => ReflowHandStays(o, fuel, s, v, st);
    case Try(b, h) =>
      HandStays(o, fuel, b, v, st);
      var q := Exec(o, fuel, b, st).value;
      if q.st.ex.Pending() {
        HandStays(o, fuel, h, v, q.st);
      }
    case EnsureSynchronized(_, _, _) => AttemptsHandStays(o, fuel, s, v, st);
    case _ =>
  }

  lemma {:induction false} ReflowHandStays(o: Oracle, fuel: nat, s: Stmt, v: nat, st: State)
    requires s.Reflow? && !Sets(s, v) && Exec(o, fuel, s, st).Some?
    ensures Eval(o, Held(v), Exec(o, fuel, s, st).value.st) == Eval(o, Held(v), st)
    decreases fuel, s, 1
  {
    HandStays(o, fuel, s.init, v, st);
    var r := Exec(o, fuel, s.init, st).value;
    if r.out == Normal {
      if Eval(o, s.test, r.st) {
        HandStays(o, fuel, s.body, v, r.st);
        HandStays(o, fuel, s.cleanup, v, Exec(o, fuel, s.body, r.st).value.st);
      } else {
        HandStays(o, fuel, s.cleanup, v, r.st);
      }
    }
  }

  lemma {:induction false} AttemptsHandStays(o: Oracle, fuel: nat, s: Stmt, v: nat, st: State)
    requires s.EnsureSynchronized? && !Sets(s, v) && Attempts(o, fuel, s, st).Some?
    ensures Eval(o, Held(v), Attempts(o, fuel, s, st).value) == Eval(o, Held(v), st)
    decreases fuel, s, 1
  {
    AttemptsMean(o, fuel, s, st);
    hide Exec, Attempts, AfterTry;
    var st1 := Do(o, TryLock(s.v), st);
    HandStays(o, fuel - 1, s.always, v, st1);
    var r := Exec(o, fuel - 1, s.always, st1).value;
    if r.out != Broke {
      if Eval(o, Held(s.v), r.st) {
        HandStays(o, fuel - 1, s.locked, v, r.st);
      } else {
        AttemptsHandStays(o, fuel - 1, s, v, r.st);
      }
    }
  }

  function HandleLoop(n: nat, body: Stmt): Stmt {
    Forever(Reflow(Nop, NotPending, Block(Release(n), BreakOut), body))
  }

  /** What a with does with a handle it gets. */
  lemma HandleRun(o: Oracle, fuel: nat, n: nat, kind: nat, body: Stmt, st: State)
    requires Eval(o, Held(n), Do(o, TryLock(n), st)) && !Sets(body, n)
    ensures var s, st1 := WithHandle(n, kind, body), Do(o, Enter(n), Do(o, TryLock(n), st));
      if fuel == 0 then Exec(o, fuel, s, st).None? && Stopped(o, fuel, s, st) == st1
      else if !Eval(o, NotPending, st1) then Exec(o, fuel, s, st) == Some(Result(Normal, Do(o, Leave(n), st1)))
      else
        var q := Exec(o, fuel - 1, body, st1);
        if q.Some? then Exec(o, fuel, s, st) == Some(Result(Normal, Do(o, Leave(n), q.value.st)))
        else Exec(o, fuel, s, st).None? && Stopped(o, fuel, s, st) == Stopped(o, fuel - 1, body, st1)
  {
    var st1 := Do(o, Enter(n), Do(o, TryLock(n), st));
    Acquired(o, fuel, n, kind, st);
    WithIsLoop(o, fuel, n, kind, body, st, st1);
    if fuel > 0 {
      hide WithHandle, Acquire;
      assert Eval(o, Held(n), st1);
      HandleRound(o, fuel - 1, n, body, st1);
      hide *;
    }
  }

  lemma NullRun(o: Oracle, fuel: nat, n: nat, kind: nat, body: Stmt, st: State)
    requires !Eval(o, Held(n), Do(o, TryLock(n), st))
    ensures var s := WithHandle(n, kind, body);
      if fuel == 0 then Exec(o, fuel, s, st).None? && Stopped(o, fuel, s, st).brackets == st.brackets
      else Exec(o, fuel, s, st).Some? && Exec(o, fuel, s, st).value.st.brackets == st.brackets
  {
    var st1 := NotAcquired(o, fuel, n, kind, st);
    WithIsLoop(o, fuel, n, kind, body, st, st1);
    if fuel > 0 {
      hide WithHandle, Acquire;
      NullRound(o, fuel - 1, n, body, st1);
    }
  }

  lemma Acquired(o: Oracle, fuel: nat, n: nat, kind: nat, st: State)
    requires Eval(o, Held(n), Do(o, TryLock(n), st))
    ensures Exec(o, fuel, Acquire(n, kind), st) == Some(Result(Normal, Do(o, Enter(n), Do(o, TryLock(n), st))))
  {
    var st1 := Do(o, TryLock(n), st);
    assert Exec(o, fuel, Simple(TryLock(n)), st) == Some(Result(Normal, st1));
    assert Exec(o, fuel, Simple(Enter(n)), st1) == Some(Result(Normal, Do(o, Enter(n), st1)));
    hide Do;
  }

  lemma NotAcquired(o: Oracle, fuel: nat, n: nat, kind: nat, st: State) returns (st1: State)
    requires !Eval(o, Held(n), Do(o, TryLock(n), st))
    ensures Exec(o, fuel, Acquire(n, kind), st) == Some(Result(Normal, st1))
    ensures st1.ex.Pending() && !Eval(o, Held(n), st1) && st1.brackets == st.brackets
  {
    var tried := Do(o, TryLock(n), st);
    st1 := if Eval(o, Pending, tried) then tried else Do(o, Construct(kind), tried);
    var fail := Cond(Pending, Nop, Simple(Construct(kind)));
    assert Exec(o, fuel, Simple(TryLock(n)), st) == Some(Result(Normal, tried));
    assert Exec(o, fuel, fail, tried) == Some(Result(Normal, st1));
    assert Exec(o, fuel, Cond(Held(n), Simple(Enter(n)), fail), tried) == Some(Result(Normal, st1));
  }

  /** Once the declaration is done, the rest of the with is its loop. */
  lemma WithIsLoop(o: Oracle, fuel: nat, n: nat, kind: nat, body: Stmt, st: State, st1: State)
    requires Exec(o, fuel, Acquire(n, kind), st) == Some(Result(Normal, st1))
    ensures var s, loop := WithHandle(n, kind, body), HandleLoop(n, body);
      && Exec(o, fuel, s, st) == Exec(o, fuel, loop, st1)
      && (Exec(o, fuel, s, st).None? ==> Stopped(o, fuel, s, st) == Stopped(o, fuel, loop, st1))
    ensures fuel == 0 ==> Exec(o, fuel, HandleLoop(n, body), st1).None? && Stopped(o, fuel, HandleLoop(n, body), st1) == st1
  {
    hide Acquire, Release;
    assert WithHandle(n, kind, body) == Block(Acquire(n, kind), HandleLoop(n, body));
  }

  lemma HandleRound(o: Oracle, fuel: nat, n: nat, body: Stmt, st: State)
    requires Eval(o, Held(n), st) && !Sets(body, n)
    ensures var loop := HandleLoop(n, body);
      if !Eval(o, NotPending, st) then Exec(o, fuel + 1, loop, st) == Some(Result(Normal, Do(o, Leave(n), st)))
      else
        var q := Exec(o, fuel, body, st);
        if q.Some? then Exec(o, fuel + 1, loop, st) == Some(Result(Normal, Do(o, Leave(n), q.value.st)))
        else Exec(o, fuel + 1, loop, st).None? && Stopped(o, fuel + 1, loop, st) == Stopped(o, fuel, body, st)
  {
    var round := Reflow(Nop, NotPending, Block(Release(n), BreakOut), body);
    assert Exec(o, fuel, Nop, st) == Some(Result(Normal, st));
    ReflowIsScope(o, fuel, round, st, st);
    var q := Exec(o, fuel, body, st);
    if q.Some? {
      HandStays(o, fuel, body, n, st);
    }
    var end := if Eval(o, NotPending, st) && q.Some? then q.value.st else st;
    ReleaseAndBreak(o, fuel, n, end);
    hide Release;
  }

  lemma NullRound(o: Oracle, fuel: nat, n: nat, body: Stmt, st: State)
    requires !Eval(o, Held(n), st) && st.ex.Pending()
    ensures Exec(o, fuel + 1, HandleLoop(n, body), st) == Some(Result(Normal, st))
  {
    var round := Reflow(Nop, NotPending, Block(Release(n), BreakOut), body);
    assert Exec(o, fuel, Nop, st) == Some(Result(Normal, st));
    ReflowIsScope(o, fuel, round, st, st);
    ReleaseAndBreak(o, fuel, n, st);
    hide Release;
  }

  lemma ReleaseAndBreak(o: Oracle, fuel: nat, n: nat, st: State)
    ensures Exec(o, fuel, Block(Release(n), BreakOut), st)
            == Some(Result(Broke, if Eval(o, Held(n), st) then Do(o, Leave(n), st) else st))
  {
    var st1 := if Eval(o, Held(n), st) then Do(o, Leave(n), st) else st;
    assert Exec(o, fuel, Release(n), st) == Some(Result(Normal, st1)) by {
      assert Exec(o, fuel, Simple(Leave(n)), st) == Some(Result(Normal, Do(o, Leave(n), st)));
      assert Exec(o, fuel, Nop, st) == Some(Result(Normal, st));
    }
    hide Release;
    assert Exec(o, fuel, BreakOut, st1) == Some(Result(Broke, st1));
  }

  // ---------------------------------------------------------------- what it means for the jump code

  /** When the jump code of a program halts, every scope opened has been closed once, innermost first. */
  lemma ScopedHalts(o: Oracle, s: Stmt, st: State, n: nat, c: Config)
    requires Scoped(s) && HaltsIn(Expand(s, 0), o, Begin(s, st), n, c)
    ensures BalancedFrom(st.brackets, c.st.brackets)
  {
    HaltedIsFinal(o, s, st, n, c);
    ScopedInOrder(o, n + 1, s, st);
  }

  /** And at every step of it, whether it halts or not, only the innermost open scope is ever closed. */
  lemma ScopedSteps(o: Oracle, s: Stmt, st: State, n: nat, c: Config)
    requires Scoped(s) && Run(Expand(s, 0), o, Begin(s, st), n) == Some(c)
    ensures NestedFrom(st.brackets, c.st.brackets)
  {
    StepsWithin(o, s, st, n, c);
    RunGrows(Expand(s, 0), o, Begin(s, st), n, c);
    ScopedInOrder(o, n + 1, s, st);
    var r := Exec(o, n + 1, s, st);
    var end := Reached(o, n + 1, s, st);
    if r.Some? {
      BalancedIsNested(st.brackets, end.brackets);
    }
    NestedPrefix(st.brackets, c.st.brackets, end.brackets);
  }

  /**
   * A handle got by a with is given back once however its body ends: normally, by a break or a continue, or raising; and
   * one that was not got is not given back.
   */
  lemma HandlesReturned(o: Oracle, s: Stmt, st: State, n: nat, c: Config, handle: nat)
    requires Scoped(s) && HaltsIn(Expand(s, 0), o, Begin(s, st), n, c)
    ensures st.brackets <= c.st.brackets
    ensures var marks := multiset(c.st.brackets[|st.brackets|..]); marks[Open(handle)] == marks[Close(handle)]
  {
    ScopedHalts(o, s, st, n, c);
    BalancedCounts(c.st.brackets[|st.brackets|..], handle);
  }

  /** A with whose init breaks out after it has entered: the cleanup is not armed yet, and never runs. */
  lemma InitBreaksOut(o: Oracle, body: Stmt, st: State)
    ensures var s := With(Nop, Block(Simple(Enter(0)), BreakOut), Simple(Leave(0)), body);
      var r := Result(Normal, Do(o, Enter(0), st));
      && Means(o, s, st, r) && Halts(o, s, st, r) && !BalancedFrom(st.brackets, r.st.brackets)
  {
    var init := Block(Simple(Enter(0)), BreakOut);
    var round := Reflow(init, NotPending, Block(Simple(Leave(0)), BreakOut), body);
    var s, end := With(Nop, init, Simple(Leave(0)), body), Do(o, Enter(0), st);
    assert Exec(o, 0, Simple(Enter(0)), st) == Some(Result(Normal, end));
    assert Exec(o, 0, init, st) == Some(Result(Broke, end));
    assert Exec(o, 0, round, st) == Some(Result(Broke, end));
    assert Exec(o, 1, Forever(round), st) == Some(Result(Normal, end));
    assert Exec(o, 1, Nop, st) == Some(Result(Normal, st));
    assert s == Block(Nop, Forever(round));
    assert Exec(o, 1, s, st) == Some(Result(Normal, end));
    OpenUnbalanced(st.brackets, 0);
    hide *;
    assert Means(o, s, st, Result(Normal, end));
    ExpansionPreservesMeaning(o, s, st, Result(Normal, end));
  }

  lemma OpenUnbalanced(a: seq<Bracket>, n: nat)
    ensures !BalancedFrom(a, a + [Open(n)])
  {
    var marks := (a + [Open(n)])[|a|..];
    assert marks == [Open(n)];
    if Balanced(marks) {
      BalancedCounts(marks, n);
      assert false;
    }
  }

  /** A marked program acquires no handles: what it had of its own is plain. */
  lemma NoHandle(s: Stmt, n: nat)
    requires Plain(s)
    ensures HandleBody(Annotate(s, n)).None?
  {
    if s.Block? {
      LoopIsMarked(s.second, n + Size(s.first));
      assert Annotate(s, n) == Block(Annotate(s.first, n), Annotate(s.second, n + Size(s.first)));
      hide Annotate;
    }
  }

  /** A reflow in a marked program has a block for its init, which a with has not. */
  lemma LoopIsMarked(s: Stmt, n: nat)
    ensures var t := Annotate(s, n); t.Forever? && t.body.Reflow? ==> t.body.init.Block?
  {
    if s.Forever? {
      assert Annotate(s, n).body == Annotate(s.body, n);
    }
  }

  lemma CompoundScoped(t: Test, v: nat, a: Stmt, b: Stmt)
    requires Scoped(a) && Scoped(b)
    ensures Scoped(Cond(t, a, b)) && Scoped(Try(a, b)) && Scoped(EnsureSynchronized(v, a, b))
    ensures Scoped(Forever(a)) && Scoped(Once(a))
    ensures HandleBody(Block(a, b)).None? ==> Scoped(Block(a, b))
  {
  }

  lemma ReflowScoped(init: Stmt, t: Test, cleanup: Stmt, b: Stmt)
    requires Marked(init, cleanup) && Scoped(init.first) && Scoped(cleanup.second) && Scoped(b)
    ensures Scoped(Reflow(init, t, cleanup, b))
  {
    assert HandleBody(Reflow(init, t, cleanup, b)).None?;
    hide HandleBody, Marked;
  }

  lemma LeafScoped(s: Stmt)
    requires Plain(s) && (s.Nop? || s.Simple? || s.BreakOut? || s.ContinueOn?)
    ensures Scoped(s)
  {
  }

  lemma {:induction false} AnnotateScoped(s: Stmt, n: nat)
    requires Plain(s)
    ensures Scoped(Annotate(s, n))
    decreases s, 1
  {
    hide HandleBody, Scoped, Size;
    match s
    case Block(a, b) =>
      NoHandle(s, n);
      PairScoped(s, a, n, b, n + Size(a), Yes, 0);
    case Cond(t, a, b) => PairScoped(s, a, n, b, n + Size(a), t, 0);
    case Forever(b) => PairScoped(s, b, n, b, n, Yes, 0);
    case Once(b) => PairScoped(s, b, n, b, n, Yes, 0);
    case Reflow(_, _, _, _) => AnnotateReflowScoped(s, n);
    case Try(b, h) => PairScoped(s, b, n + 1, h, n + 1 + Size(b), Yes, 0);
    case EnsureSynchronized(v, locked, always) =>
      PairScoped(s, locked, n + 3, always, n + 3 + Size(locked), Yes, v);
    case _ => LeafScoped(s);
  }

  lemma {:induction false} PairScoped(s: Stmt, a: Stmt, m: nat, b: Stmt, n: nat, t: Test, v: nat)
    requires a < s && b < s && Plain(a) && Plain(b)
    ensures var a', b' := Annotate(a, m), Annotate(b, n);
      && Scoped(Cond(t, a', b')) && Scoped(Try(a', b')) && Scoped(EnsureSynchronized(v, a', b'))
      && Scoped(Forever(a')) && Scoped(Once(a')) && (HandleBody(Block(a', b')).None? ==> Scoped(Block(a', b')))
    decreases s, 0
  {
    hide *;
    AnnotateScoped(a, m);
    AnnotateScoped(b, n);
    CompoundScoped(t, v, Annotate(a, m), Annotate(b, n));
  }

  lemma {:induction false} AnnotateReflowScoped(s: Stmt, n: nat)
    requires Plain(s) && s.Reflow?
    ensures Scoped(Annotate(s, n))
    decreases s, 0
  {
    hide HandleBody, Scoped, Size;
    var i := n + 1 + Size(s.init);
    AnnotateScoped(s.init, n + 1);
    AnnotateScoped(s.cleanup, i);
    AnnotateScoped(s.body, i + Size(s.cleanup));
    var t := Annotate(s, n);
    ReflowScoped(t.init, t.test, t.cleanup, t.body);
  }

  /** Every reflow, and so every with, of every program: its scope, once its init has run, is closed once and in order. */
  lemma ScopesBalanced(o: Oracle, s: Stmt, st: State, n: nat, c: Config)
    requires Plain(s) && HaltsIn(Expand(Annotate(s, 0), 0), o, Begin(Annotate(s, 0), st), n, c)
    ensures BalancedFrom(st.brackets, c.st.brackets)
  {
    AnnotateScoped(s, 0);
    ScopedHalts(o, Annotate(s, 0), st, n, c);
  }

  /** The same at every step of programs that may never end. */
  lemma ScopesNested(o: Oracle, s: Stmt, st: State, n: nat, c: Config)
    requires Plain(s) && Run(Expand(Annotate(s, 0), 0), o, Begin(Annotate(s, 0), st), n) == Some(c)
    ensures NestedFrom(st.brackets, c.st.brackets)
  {
    AnnotateScoped(s, 0);
    ScopedSteps(o, Annotate(s, 0), st, n, c);
  }

  /** Which marks there are: a reflow opens its scope when its init has run, and closes it before its cleanup begins. */
  lemma ScopeIsMarked(o: Oracle, fuel: nat, s: Stmt, n: nat, st: State, st1: State, q: Result)
    requires s.Reflow? && Exec(o, fuel, Annotate(s.init, n + 1), st) == Some(Result(Normal, st1))
    requires var inside := st1.(brackets := st1.brackets + [Open(n)]);
      if Eval(o, s.test, inside) then Exec(o, fuel, Annotate(s.body, n + 1 + Size(s.init) + Size(s.cleanup)), inside) == Some(q)
      else q == Result(Normal, inside)
    ensures Exec(o, fuel, Annotate(s, n), st)
            == Exec(o, fuel, Annotate(s.cleanup, n + 1 + Size(s.init)), q.st.(brackets := q.st.brackets + [Close(n)]))
  {
    var a := Annotate(s, n);
    EnterAfter(o, fuel, Annotate(s.init, n + 1), n, st);
    ReflowMeans(o, fuel, a, st);
    LeaveBefore(o, fuel, Annotate(s.cleanup, n + 1 + Size(s.init)), n, q.st);
    hide Exec, Annotate, Size;
  }

  /** A handle that is got is marked as taken before the body of the with, and as given back behind it. */
  lemma HandleIsMarked(o: Oracle, fuel: nat, n: nat, kind: nat, body: Stmt, st: State, st1: State, q: Result)
    requires o(Attempt(n), st.trace) && st.ex.mark != Raised && !Sets(body, n)
    requires st1 == st.(held := st.held[n := true], trace := st.trace + [Tried(n, true)], brackets := st.brackets + [Open(n)])
    requires Exec(o, fuel, body, st1) == Some(q)
    ensures Exec(o, fuel + 1, WithHandle(n, kind, body), st)
            == Some(Result(Normal, q.st.(brackets := q.st.brackets + [Close(n)])))
  {
    assert st1 == Do(o, Enter(n), Do(o, TryLock(n), st));
    HandleRun(o, fuel + 1, n, kind, body, st);
    hide Exec, WithHandle, Sets;
  }

  /** One that is not got leaves an exception behind, of this kind unless there was one, and no mark; the body is not run. */
  lemma MissingHandleRaises(o: Oracle, fuel: nat, n: nat, kind: nat, body: Stmt, st: State, st1: State)
    requires !o(Attempt(n), st.trace) && st.ex.mark == Clear && st.ex.cur == None
    requires st1 == st.(held := st.held[n := false], trace := st.trace + [Tried(n, false)],
                        ex := st.ex.(mark := Raised, cur := Some(Exn(st.ex.next, kind)), next := st.ex.next + 1))
    ensures Exec(o, fuel + 1, WithHandle(n, kind, body), st) == Some(Result(Normal, st1))
  {
    var tried := Do(o, TryLock(n), st);
    var fail := Cond(Pending, Nop, Simple(Construct(kind)));
    assert st1 == Do(o, Construct(kind), tried);
    assert Exec(o, fuel + 1, Simple(TryLock(n)), st) == Some(Result(Normal, tried));
    assert Exec(o, fuel + 1, fail, tried) == Some(Result(Normal, st1));
    assert Exec(o, fuel + 1, Cond(Held(n), Simple(Enter(n)), fail), tried) == Some(Result(Normal, st1));
    assert Exec(o, fuel + 1, Acquire(n, kind), st) == Some(Result(Normal, st1));
    WithIsLoop(o, fuel + 1, n, kind, body, st, st1);
    NullRound(o, fuel, n, body, st1);
    hide Exec, Acquire, WithHandle;
  }
}
