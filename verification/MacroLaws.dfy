/** What every program written with the macros may rely on. */
module MacroLaws {
  import opened Options
  import opened ExceptionCell
  import opened JumpCode
  import opened Macros
  import opened Simulation

  // ---------------------------------------------------------------- exceptions are accounted for

  lemma DoConserves(o: Oracle, p: Prim, st: State)
    requires Conserved(st.ex)
    ensures Conserved(Do(o, p, st).ex)
  {
    match p
    case Construct(kind) => InitConserves(st.ex, kind);
    case MarkCaught => MarkConserves(st.ex, Caught);
    case MarkRaised => MarkConserves(st.ex, Raised);
    case Destroy => DestroyConserves(st.ex);
    case _ =>
  }

  /** At every step of any jump code each exception raised is in the object, or was destroyed exactly once. */
  lemma {:induction false} ExceptionsConserved(root: Code, o: Oracle, a: Config, n: nat, b: Config)
    requires Conserved(a.st.ex) && Run(root, o, a, n) == Some(b)
    ensures Conserved(b.st.ex)
    decreases n
  {
    if n > 0 {
      if a.code.Prim? {
        DoConserves(o, a.code.p, a.st);
      }
      ExceptionsConserved(root, o, Step(root, o, a).value, n - 1, b);
    }
  }

  // ---------------------------------------------------------------- marks where scopes open and close

  /** s with a mark where each init has run and where each cleanup is about to. */
  function Annotate(s: Stmt, n: nat): Stmt {
    match s
    case Block(a, b) => Block(Annotate(a, n), Annotate(b, n + Size(a)))
    case Cond(t, a, b) => Cond(t, Annotate(a, n), Annotate(b, n + Size(a)))
    case Forever(b) => Forever(Annotate(b, n))
    case Once(b) => Once(Annotate(b, n))
    case Reflow(init, t, cleanup, b) =>
      Reflow(Block(Annotate(init, n + 1), Simple(Enter(n))), t,
             Block(Simple(Leave(n)), Annotate(cleanup, n + 1 + Size(init))),
             Annotate(b, n + 1 + Size(init) + Size(cleanup)))
    case Try(b, h) => Try(Annotate(b, n + 1), Annotate(h, n + 1 + Size(b)))
    case EnsureSynchronized(v, locked, always) =>
      EnsureSynchronized(v, Annotate(locked, n + 3), Annotate(always, n + 3 + Size(locked)))
    case _ => s
  }

  /** s carries no marks of its own. */
  predicate Plain(s: Stmt) {
    match s
    case Simple(p) => !p.Enter? && !p.Leave?
    case Block(a, b) => Plain(a) && Plain(b)
    case Cond(_, a, b) => Plain(a) && Plain(b)
    case Forever(b) => Plain(b)
    case Once(b) => Plain(b)
    case Reflow(init, _, cleanup, b) => Plain(init) && Plain(cleanup) && Plain(b)
    case Try(b, h) => Plain(b) && Plain(h)
    case EnsureSynchronized(_, locked, always) => Plain(locked) && Plain(always)
    case _ => true
  }

  function Unmarked(st: State): State {
    st.(brackets := [])
  }

  function UnmarkedResult(r: Option<Result>): Option<Result> {
    if r.None? then None else Some(Result(r.value.out, Unmarked(r.value.st)))
  }

  lemma DoUnmarked(o: Oracle, p: Prim, st: State)
    requires !p.Enter? && !p.Leave?
    ensures Unmarked(Do(o, p, st)) == Do(o, p, Unmarked(st))
  {
  }

  lemma EvalUnmarked(o: Oracle, t: Test, st: State)
    ensures Eval(o, t, st) == Eval(o, t, Unmarked(st))
  {
  }

  lemma EnterAfter(o: Oracle, fuel: nat, init: Stmt, n: nat, st: State)
    ensures
      var q := Exec(o, fuel, init, st);
      Exec(o, fuel, Block(init, Simple(Enter(n))), st)
      == if q.Some? && q.value.out == Normal then Some(Result(Normal, Do(o, Enter(n), q.value.st))) else q
  {
  }

  lemma LeaveBefore(o: Oracle, fuel: nat, cleanup: Stmt, n: nat, st: State)
    ensures Exec(o, fuel, Block(Simple(Leave(n)), cleanup), st) == Exec(o, fuel, cleanup, Do(o, Leave(n), st))
  {
  }

  /** The marks change nothing else: with them taken off, the two programs do the same. */
  lemma {:induction false} AnnotateKeepsMeaning(o: Oracle, fuel: nat, s: Stmt, n: nat, st: State)
    requires Plain(s)
    ensures UnmarkedResult(Exec(o, fuel, Annotate(s, n), st)) == Exec(o, fuel, s, Unmarked(st))
    decreases fuel, s, 3
  {
    match s
    case Simple(p) => DoUnmarked(o, p, st);
    case Block(_, _) => AnnotateBlock(o, fuel, s, n, st);
    case Cond(c, a, b) =>
      EvalUnmarked(o, c, st);
      AnnotateKeepsMeaning(o, fuel, a, n, st);
      AnnotateKeepsMeaning(o, fuel, b, n + Size(a), st);
    case Forever(_) => AnnotateForever(o, fuel, s, n, st);
    case Once(b) => AnnotateKeepsMeaning(o, fuel, b, n, st);
    case Reflow(_, _, _, _) => AnnotateReflow(o, fuel, s, n, st);
    case Try(_, _) => AnnotateTry(o, fuel, s, n, st);
    case EnsureSynchronized(_, _, _) => AnnotateEnsure(o, fuel, s, n, st);
    case _ =>
  }

  lemma {:induction false} AnnotateBlock(o: Oracle, fuel: nat, s: Stmt, n: nat, st: State)
    requires s.Block? && Plain(s)
    ensures UnmarkedResult(Exec(o, fuel, Annotate(s, n), st)) == Exec(o, fuel, s, Unmarked(st))
    decreases fuel, s, 2
  {
    AnnotateKeepsMeaning(o, fuel, s.first, n, st);
    var q := Exec(o, fuel, Annotate(s.first, n), st);
    if q.Some? && q.value.out == Normal {
      AnnotateKeepsMeaning(o, fuel, s.second, n + Size(s.first), q.value.st);
    }
  }

  lemma {:induction false} AnnotateForever(o: Oracle, fuel: nat, s: Stmt, n: nat, st: State)
    requires s.Forever? && Plain(s)
    ensures UnmarkedResult(Exec(o, fuel, Annotate(s, n), st)) == Exec(o, fuel, s, Unmarked(st))
    decreases fuel, s, 2
  {
    if fuel > 0 {
      AnnotateKeepsMeaning(o, fuel - 1, s.body, n, st);
      var q := Exec(o, fuel - 1, Annotate(s.body, n), st);
      if q.Some? && q.value.out != Broke {
        AnnotateKeepsMeaning(o, fuel - 1, s, n, q.value.st);
      }
    }
  }

  lemma {:induction false} AnnotateTry(o: Oracle, fuel: nat, s: Stmt, n: nat, st: State)
    requires s.Try? && Plain(s)
    ensures UnmarkedResult(Exec(o, fuel, Annotate(s, n), st)) == Exec(o, fuel, s, Unmarked(st))
    decreases fuel, s, 2
  {
    AnnotateKeepsMeaning(o, fuel, s.body, n + 1, st);
    var q := Exec(o, fuel, Annotate(s.body, n + 1), st);
    if q.Some? && q.value.st.ex.Pending() {
      AnnotateKeepsMeaning(o, fuel, s.handler, n + 1 + Size(s.body), q.value.st);
    }
  }

  lemma {:induction false} AnnotateReflow(o: Oracle, fuel: nat, s: Stmt, n: nat, st: State)
    requires s.Reflow? && Plain(s)
    ensures UnmarkedResult(Exec(o, fuel, Annotate(s, n), st)) == Exec(o, fuel, s, Unmarked(st))
    decreases fuel, s, 2
  {
    EnterAfter(o, fuel, Annotate(s.init, n + 1), n, st);
    AnnotateKeepsMeaning(o, fuel, s.init, n + 1, st);
    var q := Exec(o, fuel, Annotate(s.init, n + 1), st);
    if q.Some? && q.value.out == Normal {
      AnnotateScope(o, fuel, s, n, Do(o, Enter(n), q.value.st), Unmarked(q.value.st));
    }
  }

  /** The rest of a scope, from states that differ in their marks only. */
  lemma {:induction false} AnnotateScope(o: Oracle, fuel: nat, s: Stmt, n: nat, st: State, plain: State)
    requires s.Reflow? && Plain(s) && plain == Unmarked(st)
    ensures UnmarkedResult(Scope(o, fuel, Annotate(s, n), st)) == Scope(o, fuel, s, plain)
    decreases fuel, s, 1
  {
    var i := n + 1 + Size(s.init);
    EvalUnmarked(o, s.test, st);
    AnnotateKeepsMeaning(o, fuel, s.body, i + Size(s.cleanup), st);
    var b := if Eval(o, s.test, st) then Exec(o, fuel, Annotate(s.body, i + Size(s.cleanup)), st)
             else Some(Result(Normal, st));
    if b.Some? {
      LeaveBefore(o, fuel, Annotate(s.cleanup, i), n, b.value.st);
      AnnotateKeepsMeaning(o, fuel, s.cleanup, i, Do(o, Leave(n), b.value.st));
    }
  }

  lemma {:induction false} AnnotateEnsure(o: Oracle, fuel: nat, s: Stmt, n: nat, st: State)
    requires s.EnsureSynchronized? && Plain(s)
    ensures UnmarkedResult(Exec(o, fuel, Annotate(s, n), st)) == Exec(o, fuel, s, Unmarked(st))
    decreases fuel, s, 2
  {
    AnnotateAttempts(o, fuel, s, n, st);
    var a := Attempts(o, fuel, Annotate(s, n), st);
    if a.Some? {
      EvalUnmarked(o, Held(s.v), a.value);
      DoUnmarked(o, Unlock(s.v), a.value);
    }
  }

  function UnmarkedState(a: Option<State>): Option<State> {
    if a.None? then None else Some(Unmarked(a.value))
  }

  lemma {:induction false} AnnotateAttempts(o: Oracle, fuel: nat, s: Stmt, n: nat, st: State)
    requires s.EnsureSynchronized? && Plain(s)
    ensures UnmarkedState(Attempts(o, fuel, Annotate(s, n), st)) == Attempts(o, fuel, s, Unmarked(st))
    decreases fuel, s, 0
  {
    if fuel > 0 {
      DoUnmarked(o, TryLock(s.v), st);
      AnnotateAfterTry(o, fuel - 1, s, n, Do(o, TryLock(s.v), st));
    }
  }

  lemma {:induction false} AnnotateAfterTry(o: Oracle, fuel: nat, s: Stmt, n: nat, st: State)
    requires s.EnsureSynchronized? && Plain(s)
    ensures UnmarkedState(AfterTry(o, fuel, Annotate(s, n), st)) == AfterTry(o, fuel, s, Unmarked(st))
    decreases fuel, s, 1
  {
    AnnotateKeepsMeaning(o, fuel, s.always, n + 3 + Size(s.locked), st);
    var r := Exec(o, fuel, Annotate(s.always, n + 3 + Size(s.locked)), st);
    if r.Some? && r.value.out != Broke {
      EvalUnmarked(o, Held(s.v), r.value.st);
      AnnotateKeepsMeaning(o, fuel, s.locked, n + 3, r.value.st);
      AnnotateAttempts(o, fuel, s, n, r.value.st);
    }
  }
}
