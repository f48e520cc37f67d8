/** Which clause of a try runs, from what state, and what becomes of the exception. */
module TryClauses {
  import opened Options
  import opened ExceptionCell
  import opened JumpCode
  import opened Macros
  import opened Expansion
  import opened Simulation
  import opened Divergence
  import opened MacroLaws

  /** An exception of this kind is pending. */
  predicate RaisedOf(st: State, kind: nat) {
    st.ex.mark == Raised && st.ex.cur.Some? && st.ex.cur.value.kind == kind
  }

  predicate Takes(c: Clause, kind: nat) {
    c.kind == None || c.kind == Some(kind)
  }

  /** Clause i is the first that takes an exception of this kind. */
  predicate FirstFor(h: seq<Clause>, i: nat, kind: nat) {
    i < |h| && Takes(h[i], kind) && forall j :: 0 <= j < i ==> !Takes(h[j], kind)
  }

  /** The state in which the block of a clause begins. */
  function Entry(c: Clause, st: State): State {
    if c.Catch? then st.(ex := st.ex.(mark := Caught)) else st
  }

  /** The object with nothing in it, and with what was in it destroyed. */
  function Emptied(c: Cell): Cell {
    Cell(Clear, None, c.next, if c.cur.Some? then c.destroyed + [c.cur.value.id] else c.destroyed)
  }

  /** The state in which a clause ends, when its block has ended in st. */
  function Exit(c: Clause, st: State): State {
    if c.Catch? && st.ex.mark != Raised then st.(ex := Emptied(st.ex)) else st
  }

  // ---------------------------------------------------------------- one clause

  lemma CatchingRuns(o: Oracle, fuel: nat, b: Stmt, st: State)
    requires fuel > 0
    ensures var e := Exec(o, fuel - 1, b, st.(ex := st.ex.(mark := Caught)));
      Exec(o, fuel, Catching(b), st)
      == if e.None? then None
         else Some(Result(Normal, if e.value.st.ex.mark == Raised then e.value.st
                                  else e.value.st.(ex := Emptied(e.value.st.ex))))
  {
    var init, cleanup := Simple(MarkCaught), Block(DESTROY_UNLESS_RAISED, BreakOut);
    var entered := st.(ex := st.ex.(mark := Caught));
    var e := Exec(o, fuel - 1, b, entered);
    assert Exec(o, fuel - 1, init, st) == Some(Result(Normal, entered));
    if e.Some? {
      DestroyUnlessRaised(o, fuel - 1, e.value.st);
    }
    RoundRuns(o, fuel, init, cleanup, b, st, entered);
  }

  lemma DestroyUnlessRaised(o: Oracle, fuel: nat, st: State)
    ensures Exec(o, fuel, Block(DESTROY_UNLESS_RAISED, BreakOut), st)
            == Some(Result(Broke, if st.ex.mark == Raised then st else st.(ex := Emptied(st.ex))))
  {
    var left := if st.ex.mark == Raised then st else st.(ex := Emptied(st.ex));
    assert Exec(o, fuel, Simple(Destroy), st) == Some(Result(Normal, st.(ex := Emptied(st.ex))));
    assert Exec(o, fuel, Nop, st) == Some(Result(Normal, st));
    assert Exec(o, fuel, DESTROY_UNLESS_RAISED, st) == Some(Result(Normal, left));
    assert Exec(o, fuel, BreakOut, left) == Some(Result(Broke, left));
  }

  /** One round of the loop of a with whose test is always true and whose cleanup breaks out. */
  lemma RoundRuns(o: Oracle, fuel: nat, init: Stmt, cleanup: Stmt, b: Stmt, st: State, entered: State)
    requires fuel > 0 && Exec(o, fuel - 1, init, st) == Some(Result(Normal, entered))
    requires var e := Exec(o, fuel - 1, b, entered);
      e.Some? ==> Exec(o, fuel - 1, cleanup, e.value.st).Some? && Exec(o, fuel - 1, cleanup, e.value.st).value.out == Broke
    ensures var e := Exec(o, fuel - 1, b, entered);
      Exec(o, fuel, Block(Nop, Forever(Reflow(init, Yes, cleanup, b))), st)
      == if e.None? then None else Some(Result(Normal, Exec(o, fuel - 1, cleanup, e.value.st).value.st))
  {
    var round := Reflow(init, Yes, cleanup, b);
    ReflowMeans(o, fuel - 1, round, st);
    assert Exec(o, fuel - 1, round, st) == Scope(o, fuel - 1, round, entered);
    assert Exec(o, fuel, Nop, st) == Some(Result(Normal, st));
  }

  lemma ObservingRuns(o: Oracle, fuel: nat, b: Stmt, st: State)
    requires fuel > 0
    ensures var e := Exec(o, fuel - 1, b, st);
      Exec(o, fuel, Observing(b), st) == if e.None? then None else Some(Result(Normal, e.value.st))
  {
    var e := Exec(o, fuel - 1, b, st);
    assert Exec(o, fuel - 1, Nop, st) == Some(Result(Normal, st));
    if e.Some? {
      assert Exec(o, fuel - 1, Nop, e.value.st) == Some(Result(Normal, e.value.st));
      assert Exec(o, fuel - 1, BreakOut, e.value.st) == Some(Result(Broke, e.value.st));
    }
    RoundRuns(o, fuel, Nop, Block(Nop, BreakOut), b, st, st);
  }

  lemma ClauseRuns(o: Oracle, fuel: nat, c: Clause, st: State)
    requires fuel > 0
    ensures var e := Exec(o, fuel - 1, c.body, Entry(c, st));
      Exec(o, fuel, ClauseStmt(c), st) == if e.None? then None else Some(Result(Normal, Exit(c, e.value.st)))
  {
    if c.Catch? {
      CatchingRuns(o, fuel, c.body, st);
    } else {
      ObservingRuns(o, fuel, c.body, st);
    }
    hide Exec, Catching, Observing, Emptied;
  }

  // ---------------------------------------------------------------- the clauses of a try

  lemma {:induction false} HandlerRuns(o: Oracle, fuel: nat, h: seq<Clause>, i: nat, st: State, kind: nat)
    requires RaisedOf(st, kind) && FirstFor(h, i, kind)
    ensures Exec(o, fuel, Handler(h), st) == Exec(o, fuel, ClauseStmt(h[i]), st)
    decreases |h|
  {
    hide ClauseStmt;
    if i > 0 {
      assert !Takes(h[0], kind);
      assert FirstFor(h[1..], i - 1, kind);
      HandlerRuns(o, fuel, h[1..], i - 1, st, kind);
    } else if h[0].kind.Some? {
      assert Eval(o, IsKind(h[0].kind.value), st);
    }
  }

  lemma {:induction false} HandlerPasses(o: Oracle, fuel: nat, h: seq<Clause>, st: State, kind: nat)
    requires RaisedOf(st, kind) && forall j :: 0 <= j < |h| ==> !Takes(h[j], kind)
    ensures Exec(o, fuel, Handler(h), st) == Some(Result(Normal, st))
    decreases |h|
  {
    hide ClauseStmt;
    if h != [] {
      assert !Takes(h[0], kind);
      HandlerPasses(o, fuel, h[1..], st, kind);
    }
  }

  /**
   * The body ends with an exception of this kind pending: the block of the first clause of the kind, or of any kind, is
   * run, and no other. A catch runs it with the exception marked as caught, and empties the object behind it unless
   * something is pending then; an onerror changes nothing of its own. The try ends normally, however the block did.
   */
  lemma FirstClauseRuns(o: Oracle, fuel: nat, body: Stmt, h: seq<Clause>, i: nat, st: State, q: Result, kind: nat)
    requires fuel > 0 && Exec(o, fuel, body, st) == Some(q) && RaisedOf(q.st, kind) && FirstFor(h, i, kind)
    ensures var e := Exec(o, fuel - 1, h[i].body, Entry(h[i], q.st));
      Exec(o, fuel, Try(body, Handler(h)), st)
      == if e.None? then None else Some(Result(Normal, Exit(h[i], e.value.st)))
  {
    HandlerRuns(o, fuel, h, i, q.st, kind);
    ClauseRuns(o, fuel, h[i], q.st);
    hide Handler, ClauseStmt, Entry, Exit, FirstFor;
  }

  /** The same of the jump code: it halts where the block of that clause has ended. */
  lemma FirstClauseHalts(o: Oracle, fuel: nat, body: Stmt, h: seq<Clause>, i: nat, st: State, q: Result, e: Result, kind: nat)
    requires fuel > 0 && Exec(o, fuel, body, st) == Some(q) && RaisedOf(q.st, kind) && FirstFor(h, i, kind)
    requires Exec(o, fuel - 1, h[i].body, Entry(h[i], q.st)) == Some(e)
    ensures Halts(o, Try(body, Handler(h)), st, Result(Normal, Exit(h[i], e.st)))
  {
    FirstClauseRuns(o, fuel, body, h, i, st, q, kind);
    hide *;
    MeansHalts(o, fuel, Try(body, Handler(h)), st, Result(Normal, Exit(h[i], e.st)));
  }

  lemma MeansHalts(o: Oracle, fuel: nat, s: Stmt, st: State, r: Result)
    requires Exec(o, fuel, s, st) == Some(r)
    ensures Halts(o, s, st, r)
  {
    hide Exec, Halts;
    assert Means(o, s, st, r);
    ExpansionPreservesMeaning(o, s, st, r);
  }

  /** No clause is for it: it stays pending, and nothing else is done. */
  lemma NoClauseRuns(o: Oracle, fuel: nat, body: Stmt, h: seq<Clause>, st: State, q: Result, kind: nat)
    requires Exec(o, fuel, body, st) == Some(q) && RaisedOf(q.st, kind)
    requires forall j :: 0 <= j < |h| ==> !Takes(h[j], kind)
    ensures Exec(o, fuel, Try(body, Handler(h)), st) == Some(Result(Normal, q.st))
    ensures Halts(o, Try(body, Handler(h)), st, Result(Normal, q.st))
  {
    HandlerPasses(o, fuel, h, q.st, kind);
    hide Handler, Takes, Halts;
    MeansHalts(o, fuel, Try(body, Handler(h)), st, Result(Normal, q.st));
  }

  /** Nothing is pending behind the body: no clause runs. */
  lemma NothingRaised(o: Oracle, fuel: nat, body: Stmt, h: seq<Clause>, st: State, q: Result)
    requires Exec(o, fuel, body, st) == Some(q) && q.st.ex.mark != Raised
    ensures Exec(o, fuel, Try(body, Handler(h)), st) == Some(Result(Normal, q.st))
    ensures Halts(o, Try(body, Handler(h)), st, Result(Normal, q.st))
  {
    hide Handler, Halts;
    MeansHalts(o, fuel, Try(body, Handler(h)), st, Result(Normal, q.st));
  }

  // ---------------------------------------------------------------- what becomes of the exception

  lemma ExecConserves(o: Oracle, fuel: nat, s: Stmt, st: State)
    requires Conserved(st.ex) && Exec(o, fuel, s, st).Some?
    ensures var r := Exec(o, fuel, s, st).value; Conserved(r.st.ex) && st.ex.next <= r.st.ex.next
  {
    hide Conserved, Exec, Expand, Step, Placed;
    var r, root := Exec(o, fuel, s, st).value, Expand(s, 0);
    PlacedWhole(root);
    Simulate(root, o, fuel, s, 0, Stop, st);
    var n: nat :| Run(root, o, Begin(s, st), n) == Some(Final(r, Stop));
    hide Run;
    ExceptionsConserved(root, o, Begin(s, st), n, Final(r, Stop));
    RunGrows(root, o, Begin(s, st), n, Final(r, Stop));
  }

  /** Behind a catch whose block leaves nothing pending the object is empty, and the exception has been destroyed once. */
  lemma CaughtIsDestroyed(o: Oracle, fuel: nat, body: Stmt, h: seq<Clause>, i: nat, st: State, q: Result, kind: nat)
    requires Conserved(st.ex) && fuel > 0 && Exec(o, fuel, body, st) == Some(q)
    requires RaisedOf(q.st, kind) && FirstFor(h, i, kind) && h[i].Catch?
    requires Exec(o, fuel, Try(body, Handler(h)), st).Some?
    ensures var r := Exec(o, fuel, Try(body, Handler(h)), st).value;
      r.out == Normal && (r.st.ex.mark != Raised ==> r.st.ex.mark == Clear && r.st.ex.cur == None
                                                     && multiset(r.st.ex.destroyed)[q.st.ex.cur.value.id] == 1)
  {
    FirstClauseRuns(o, fuel, body, h, i, st, q, kind);
    ExecConserves(o, fuel, body, st);
    ExecConserves(o, fuel, Try(body, Handler(h)), st);
    var entered := Entry(h[i], q.st);
    MarkConserves(q.st.ex, Caught);
    ExecConserves(o, fuel - 1, h[i].body, entered);
    hide Exec, Handler;
  }

  /** An onerror whose block leaves the object alone leaves the same exception pending. */
  lemma ObservedStaysPending(o: Oracle, fuel: nat, body: Stmt, h: seq<Clause>, i: nat, st: State, q: Result, e: Result, kind: nat)
    requires fuel > 0 && Exec(o, fuel, body, st) == Some(q)
    requires RaisedOf(q.st, kind) && FirstFor(h, i, kind) && h[i].OnError?
    requires Exec(o, fuel - 1, h[i].body, q.st) == Some(e) && e.st.ex == q.st.ex
    ensures Exec(o, fuel, Try(body, Handler(h)), st) == Some(Result(Normal, e.st))
    ensures RaisedOf(e.st, kind)
  {
    FirstClauseRuns(o, fuel, body, h, i, st, q, kind);
    hide Exec, Handler, FirstFor;
  }

  /** What a constructor leaves: a new exception of its kind, pending; whatever was in the object has been destroyed. */
  lemma ConstructRaises(o: Oracle, fuel: nat, kind: nat, st: State)
    requires Conserved(st.ex)
    ensures Exec(o, fuel, Simple(Construct(kind)), st)
            == Some(Result(Normal, st.(ex := Cell(Raised, Some(Exn(st.ex.next, kind)), st.ex.next + 1, Emptied(st.ex).destroyed))))
  {
  }

  /** An exception raised in a try reaches the first clause of its kind, and is in that block's hands. */
  lemma RaiseReachesClause(o: Oracle, fuel: nat, kind: nat, h: seq<Clause>, i: nat, st: State)
    requires fuel > 0 && Conserved(st.ex) && FirstFor(h, i, kind)
    ensures var ex := Cell(if h[i].Catch? then Caught else Raised, Some(Exn(st.ex.next, kind)), st.ex.next + 1,
                           Emptied(st.ex).destroyed);
      var e := Exec(o, fuel - 1, h[i].body, st.(ex := ex));
      Exec(o, fuel, Try(Simple(Construct(kind)), Handler(h)), st)
      == if e.None? then None else Some(Result(Normal, Exit(h[i], e.value.st)))
  {
    ConstructRaises(o, fuel, kind, st);
    var q := Exec(o, fuel, Simple(Construct(kind)), st).value;
    FirstClauseRuns(o, fuel, Simple(Construct(kind)), h, i, st, q, kind);
    hide Exec, Handler, FirstFor, Exit;
  }

  /** throw around a constructor leaves the block, with the new exception pending and nothing else done. */
  lemma ThrowLeaves(o: Oracle, fuel: nat, kind: nat, st: State)
    requires Conserved(st.ex)
    ensures var r := Exec(o, fuel, Throw(Simple(Construct(kind))), st);
      r.Some? && r.value.out == Broke && RaisedOf(r.value.st, kind) && r.value.st.trace == st.trace
  {
    ConstructRaises(o, fuel, kind, st);
    var s := Throw(Simple(Construct(kind)));
    var q := Exec(o, fuel, Simple(Construct(kind)), st).value;
    assert Exec(o, fuel, Nop, st) == Some(Result(Normal, st));
    ReflowMeans(o, fuel, s, st);
    var cleanup := Block(Simple(MarkRaised), BreakOut);
    assert Exec(o, fuel, Simple(MarkRaised), q.st) == Some(Result(Normal, q.st.(ex := q.st.ex.(mark := Raised))));
    assert Exec(o, fuel, cleanup, q.st) == Some(Result(Broke, q.st.(ex := q.st.ex.(mark := Raised))));
  }
}
