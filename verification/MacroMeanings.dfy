/** What the single macros and the steps under them do, in terms of the state alone. */
module MacroMeanings {
  import opened Options
  import opened ExceptionCell
  import opened JumpCode
  import opened Macros
  import opened Simulation
  import opened MacroDiscipline

  /** Which way a condition goes. */
  lemma TestsDecide(o: Oracle, fuel: nat, t: Test, a: Stmt, b: Stmt, st: State)
    ensures var yes := match t
                       case Yes => true
                       case No => false
                       case Pending => st.ex.mark == Raised
                       case NotPending => st.ex.mark != Raised
                       case IsKind(kind) => st.ex.cur.Some? && st.ex.cur.value.kind == kind
                       case Held(v) => v in st.held && st.held[v]
                       case User(k) => o(Ask(k), st.trace);
      Exec(o, fuel, Cond(t, a, b), st) == Exec(o, fuel, if yes then a else b, st)
  {
  }

  /** An action behind a statement is recorded, together with whether that statement left an exception pending. */
  lemma ActionRecorded(o: Oracle, fuel: nat, s: Stmt, role: Role, k: nat, st: State, r: Result)
    requires Exec(o, fuel, s, st) == Some(r) && r.out == Normal
    ensures Exec(o, fuel, Block(s, Simple(Act(role, k))), st)
            == Some(Result(Normal, r.st.(trace := r.st.trace + [Did(role, k, r.st.ex.mark == Raised)])))
  {
  }

  /** So ordinary work in the wake of an exception is what an untroubled record excludes. */
  lemma TroubleShows(o: Oracle, fuel: nat, s: Stmt, k: nat, st: State, r: Result)
    requires Exec(o, fuel, s, st) == Some(r) && r.out == Normal && Untroubled(r.st.trace)
    ensures var work := Exec(o, fuel, Block(s, Simple(Act(Body, k))), st);
            work.Some? && (Untroubled(work.value.st.trace) <==> r.st.ex.mark != Raised)
    ensures var work := Exec(o, fuel, Block(s, Simple(Act(Cleanup, k))), st);
            work.Some? && Untroubled(work.value.st.trace)
  {
    ActionRecorded(o, fuel, s, Body, k, st, r);
    ActionRecorded(o, fuel, s, Cleanup, k, st, r);
    hide Exec;
    var e := Did(Body, k, r.st.ex.mark == Raised);
    assert (r.st.trace + [e])[|r.st.trace|] == e;
  }

  /** do_after: the cleanup follows the body, however that ended, and ends as it ends itself. */
  lemma DoAfterRuns(o: Oracle, fuel: nat, cleanup: Stmt, body: Stmt, st: State)
    ensures var r := Exec(o, fuel, body, st);
      Exec(o, fuel, DoAfter(cleanup, body), st) == if r.None? then None else Exec(o, fuel, cleanup, r.value.st)
  {
    hide Exec;
    ReflowMeans(o, fuel, Reflow(Nop, Yes, cleanup, body), st);
    NopRuns(o, fuel, st);
  }

  lemma NopRuns(o: Oracle, fuel: nat, st: State)
    ensures Exec(o, fuel, Nop, st) == Some(Result(Normal, st))
  {
  }

  /** throwable: the surrounding block is left exactly when an exception is pending behind the statement. */
  lemma ThrowableRuns(o: Oracle, fuel: nat, body: Stmt, st: State)
    ensures var r := Exec(o, fuel, body, st);
      Exec(o, fuel, Throwable(body), st)
      == if r.None? then None else Some(Result(if r.value.st.ex.mark == Raised then Broke else Normal, r.value.st))
  {
    DoAfterRuns(o, fuel, CHECK, body, st);
    var r := Exec(o, fuel, body, st);
    if r.Some? {
      assert Exec(o, fuel, BreakOut, r.value.st) == Some(Result(Broke, r.value.st));
      assert Exec(o, fuel, Nop, r.value.st) == Some(Result(Normal, r.value.st));
    }
  }

  /** throw: the surrounding block is left with whatever the statement put in the object pending. */
  lemma ThrowRuns(o: Oracle, fuel: nat, body: Stmt, st: State)
    ensures var r := Exec(o, fuel, body, st);
      Exec(o, fuel, Throw(body), st)
      == if r.None? then None else Some(Result(Broke, r.value.st.(ex := r.value.st.ex.(mark := Raised))))
  {
    var cleanup := Block(Simple(MarkRaised), BreakOut);
    DoAfterRuns(o, fuel, cleanup, body, st);
    var r := Exec(o, fuel, body, st);
    if r.Some? {
      var marked := r.value.st.(ex := r.value.st.ex.(mark := Raised));
      assert Exec(o, fuel, Simple(MarkRaised), r.value.st) == Some(Result(Normal, marked));
      assert Exec(o, fuel, BreakOut, marked) == Some(Result(Broke, marked));
    }
  }

  /**
   * with: the declaration and the init, then the body unless an exception is pending, then the cleanup in any case. A
   * break or a continue in the body ends at the cleanup, and so does the with.
   */
  lemma WithRuns(o: Oracle, fuel: nat, decl: Stmt, init: Stmt, cleanup: Stmt, body: Stmt, st: State, st1: State, st2: State,
                 q: Result, e: Result)
    requires Exec(o, fuel + 1, decl, st) == Some(Result(Normal, st1))
    requires Exec(o, fuel, init, st1) == Some(Result(Normal, st2))
    requires if st2.ex.mark == Raised then q.st == st2 else Exec(o, fuel, body, st2) == Some(q)
    requires Exec(o, fuel, cleanup, q.st) == Some(e) && e.out == Normal
    ensures Exec(o, fuel + 1, With(decl, init, cleanup, body), st) == Some(e)
  {
    hide Exec;
    var closing := Block(cleanup, BreakOut);
    ClosingRuns(o, fuel, cleanup, q.st, e);
    ReflowMeans(o, fuel, Reflow(init, NotPending, closing, body), st1);
    LoopOnce(o, fuel, decl, Reflow(init, NotPending, closing, body), st, st1, e.st);
  }

  lemma ClosingRuns(o: Oracle, fuel: nat, cleanup: Stmt, st: State, e: Result)
    requires Exec(o, fuel, cleanup, st) == Some(e) && e.out == Normal
    ensures Exec(o, fuel, Block(cleanup, BreakOut), st) == Some(Result(Broke, e.st))
  {
    assert Exec(o, fuel, BreakOut, e.st) == Some(Result(Broke, e.st));
  }

  lemma LoopOnce(o: Oracle, fuel: nat, decl: Stmt, round: Stmt, st: State, st1: State, end: State)
    requires Exec(o, fuel + 1, decl, st) == Some(Result(Normal, st1))
    requires Exec(o, fuel, round, st1) == Some(Result(Broke, end))
    ensures Exec(o, fuel + 1, Block(decl, Forever(round)), st) == Some(Result(Normal, end))
  {
    assert Exec(o, fuel + 1, Forever(round), st1) == Some(Result(Normal, end));
  }
}
