/** The control-flow macros: what they mean to the programmer, and what they expand into. */
module Macros {
  import opened Options
  import opened JumpCode

  /** A statement as it is written with the macros. Loops and conditionals are plain C. */
  datatype Stmt =
    | Nop
    | Simple(p: Prim)
    | Block(first: Stmt, second: Stmt)
    | Cond(test: Test, thn: Stmt, els: Stmt)
    | Forever(body: Stmt)                                            // for (;;)
    | Once(body: Stmt)                                               // do_once
    | BreakOut
    | ContinueOn
    | Reflow(init: Stmt, test: Test, cleanup: Stmt, body: Stmt)      // reflow (init, test, cleanup)
    | Try(body: Stmt, handler: Stmt)                                 // try ... and the else chain after it
    | EnsureSynchronized(v: nat, locked: Stmt, always: Stmt)         // ensure_synchronized ... else ...

  // ---------------------------------------------------------------- the other macros

  function DoAfter(cleanup: Stmt, body: Stmt): Stmt {
    Reflow(Nop, Yes, cleanup, body)
  }

  /** check */
  const CHECK: Stmt := Cond(Pending, BreakOut, Nop)

  function Throwable(body: Stmt): Stmt {
    DoAfter(CHECK, body)
  }

  function Throw(body: Stmt): Stmt {
    DoAfter(Block(Simple(MarkRaised), BreakOut), body)
  }

  /** with_test: the loop is there for the declaration, and is left after the cleanup. */
  function WithTest(decl: Stmt, init: Stmt, test: Test, cleanup: Stmt, body: Stmt): Stmt {
    Block(decl, Forever(Reflow(init, test, Block(cleanup, BreakOut), body)))
  }

  /** with_seperated, with_assign and with_decl: the body is skipped under a pending exception. */
  function With(decl: Stmt, init: Stmt, cleanup: Stmt, body: Stmt): Stmt {
    WithTest(decl, init, NotPending, cleanup, body)
  }

  const DESTROY_UNLESS_RAISED: Stmt := Cond(NotPending, Simple(Destroy), Nop)

  function Catching(body: Stmt): Stmt {
    WithTest(Nop, Simple(MarkCaught), Yes, DESTROY_UNLESS_RAISED, body)
  }

  function Observing(body: Stmt): Stmt {
    WithTest(Nop, Nop, Yes, Nop, body)
  }

  /** A catch or onerror clause, of one type of exception or of any. */
  datatype Clause =
    | Catch(kind: Option<nat>, body: Stmt)
    | OnError(kind: Option<nat>, body: Stmt)

  function ClauseStmt(c: Clause): Stmt {
    if c.Catch? then Catching(c.body) else Observing(c.body)
  }

  /** The clauses that follow a try block; behind one of any type there are no more. */
  function Handler(h: seq<Clause>): Stmt {
    if h == [] then Nop
    else if h[0].kind.None? then ClauseStmt(h[0])
    else Cond(IsKind(h[0].kind.value), ClauseStmt(h[0]), Handler(h[1..]))
  }

  // ---------------------------------------------------------------- meaning

  datatype Outcome = Normal | Broke | Continued

  datatype Result = Result(out: Outcome, st: State)

  /** What s does, if that takes at most fuel rounds of any loop; None if it takes more. */
  function Exec(o: Oracle, fuel: nat, s: Stmt, st: State): Option<Result>
    decreases fuel, s, 2
  {
    match s
    case Nop => Some(Result(Normal, st))
    case Simple(p) => Some(Result(Normal, Do(o, p, st)))
    case Block(a, b) =>
      var r := Exec(o, fuel, a, st);
      if r.Some? && r.value.out == Normal then Exec(o, fuel, b, r.value.st) else r
    case Cond(t, a, b) => if Eval(o, t, st) then Exec(o, fuel, a, st) else Exec(o, fuel, b, st)
    case Forever(b) =>
      if fuel == 0 then None else
      var r := Exec(o, fuel - 1, b, st);
      if r.None? then None
      else if r.value.out == Broke then Some(Result(Normal, r.value.st))
      else Exec(o, fuel - 1, s, r.value.st)
    case Once(b) =>
      var r := Exec(o, fuel, b, st);
      if r.Some? && r.value.out == Broke then Some(Result(Normal, r.value.st)) else r
    case BreakOut => Some(Result(Broke, st))
    case ContinueOn => Some(Result(Continued, st))
    case Reflow(init, t, cleanup, b) =>
      // init may break out before the scope is entered; the cleanup runs however the body ended
      var r := Exec(o, fuel, init, st);
      if r.None? || r.value.out != Normal then r else
      var q := if Eval(o, t, r.value.st) then Exec(o, fuel, b, r.value.st) else r;
      if q.None? then None else Exec(o, fuel, cleanup, q.value.st)
    case Try(b, handler) =>
      var r := Exec(o, fuel, b, st);
      if r.None? then None
      else if r.value.st.ex.Pending() then Exec(o, fuel, handler, r.value.st)
      else Some(Result(Normal, r.value.st))
    case EnsureSynchronized(v, _, _) =>
      var r := Attempts(o, fuel, s, st);
      if r.None? then None
      else Some(Result(Normal, if Eval(o, Held(v), r.value) then Do(o, Unlock(v), r.value) else r.value))
  }

  /** Rounds of attempts on the lock, until one of the blocks leaves the loop. */
  function Attempts(o: Oracle, fuel: nat, s: Stmt, st: State): Option<State>
    requires s.EnsureSynchronized?
    decreases fuel, s, 0
  {
    if fuel == 0 then None else AfterTry(o, fuel - 1, s, Do(o, TryLock(s.v), st))
  }

  /** Look whether or not the lock was obtained; work if it was, else try again. */
  function AfterTry(o: Oracle, fuel: nat, s: Stmt, st: State): Option<State>
    requires s.EnsureSynchronized?
    decreases fuel, s, 1
  {
    var r := Exec(o, fuel, s.always, st);
    if r.None? then None
    else if r.value.out == Broke then Some(r.value.st)
    else if Eval(o, Held(s.v), r.value.st) then
      var q := Exec(o, fuel, s.locked, r.value.st);
      if q.None? then None else Some(q.value.st)
    else Attempts(o, fuel, s, r.value.st)
  }

  // ---------------------------------------------------------------- expansion

  /** The body of reflow's else branch: any way of ending the block leads to the cleanup. */
  function ReflowLoop(n: nat, body: Code): Code {
    If(Yes, Goto(Label(AtEnd, n)), Labelled(Label(AtStart, n), Switch(body)))
  }

  function ReflowTail(n: nat, test: Test, cleanup: Code): Code {
    Seq(If(test, Goto(Label(AtStart, n)), Skip), Labelled(Label(AtEnd, n), cleanup))
  }

  function ReflowCode(n: nat, init: Code, test: Test, cleanup: Code, body: Code): Code {
    If(Yes, Seq(init, ReflowTail(n, test, cleanup)), While(ReflowLoop(n, body)))
  }

  function TryEnd(n: nat, body: Code, handler: Code): Code {
    If(NotPending, Skip, If(No, While(ReflowLoop(n, body)), handler))
  }

  function TryCode(n: nat, body: Code, handler: Code): Code {
    If(Yes, Goto(Label(AtStart, n)), Labelled(Label(AtEnd, n), TryEnd(n, body, handler)))
  }

  function BreakAfterCode(n: nat, body: Code): Code {
    ReflowCode(n, Skip, Yes, Break, body)
  }

  function EnsureTry(n: nat, v: nat): Code {
    Seq(Prim(TryLock(v)), Goto(Label(AtEnsure, n)))
  }

  function EnsureTop(n: nat, v: nat): Code {
    Seq(If(Held(v), Goto(Label(AtLock, n)), Skip), Labelled(Label(AtTryLock, n), EnsureTry(n, v)))
  }

  function EnsureBranch(n: nat, locked: Code, always: Code): Code {
    If(No, Labelled(Label(AtLock, n), BreakAfterCode(n + 1, locked)), always)
  }

  function EnsureRound(n: nat, v: nat, locked: Code, always: Code): Code {
    If(Yes, EnsureTop(n, v), Labelled(Label(AtEnsure, n), EnsureBranch(n, locked, always)))
  }

  function EnsureCleanup(v: nat): Code {
    Seq(If(Held(v), Prim(Unlock(v)), Skip), Break)
  }

  /** Uses the counters n (its do_after), n + 1 (its own) and n + 2 (its break_after). */
  function EnsureBody(n: nat, v: nat, locked: Code, always: Code): Code {
    If(Yes, Goto(Label(AtTryLock, n + 1)),
       ReflowCode(n, Skip, Yes, EnsureCleanup(v), While(EnsureRound(n + 1, v, locked, always))))
  }

  /** How many counters the expansion of s uses up. */
  function Size(s: Stmt): nat {
    match s
    case Block(a, b) => Size(a) + Size(b)
    case Cond(_, a, b) => Size(a) + Size(b)
    case Forever(b) => Size(b)
    case Once(b) => Size(b)
    case Reflow(init, _, cleanup, b) => 1 + Size(init) + Size(cleanup) + Size(b)
    case Try(b, handler) => 1 + Size(b) + Size(handler)
    case EnsureSynchronized(_, locked, always) => 3 + Size(locked) + Size(always)
    case _ => 0
  }

  function Expand(s: Stmt, n: nat): Code {
    match s
    case Nop => Skip
    case Simple(p) => Prim(p)
    case Block(a, b) => Seq(Expand(a, n), Expand(b, n + Size(a)))
    case Cond(t, a, b) => If(t, Expand(a, n), Expand(b, n + Size(a)))
    case Forever(b) => While(Expand(b, n))
    case Once(b) => Switch(Expand(b, n))
    case BreakOut => Break
    case ContinueOn => Continue
    case Reflow(init, t, cleanup, b) =>
      ReflowCode(n, Expand(init, n + 1), t, Expand(cleanup, n + 1 + Size(init)),
                 Expand(b, n + 1 + Size(init) + Size(cleanup)))
    case Try(b, handler) => TryCode(n, Expand(b, n + 1), Expand(handler, n + 1 + Size(b)))
    case EnsureSynchronized(v, locked, always) =>
      While(EnsureBody(n, v, Expand(locked, n + 3), Expand(always, n + 3 + Size(locked))))
  }
}
