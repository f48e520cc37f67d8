/** Running the expansion of a statement follows the statement's meaning, and goes on for ever when it does. */
module Simulation {
  import opened Options
  import opened JumpCode
  import opened Macros
  import opened Expansion

  /** The machine gets from a to b. */
  ghost predicate Leads(root: Code, o: Oracle, a: Config, b: Config) {
    exists n: nat :: Run(root, o, a, n) == Some(b)
  }

  lemma LeadsNowhere(root: Code, o: Oracle, a: Config)
    ensures Leads(root, o, a, a)
  {
    assert Run(root, o, a, 0) == Some(a);
  }

  lemma LeadsOn(root: Code, o: Oracle, a: Config, b: Config, c: Config)
    requires Leads(root, o, a, b) && Leads(root, o, b, c)
    ensures Leads(root, o, a, c)
  {
    var m: nat :| Run(root, o, a, m) == Some(b);
    var n: nat :| Run(root, o, b, n) == Some(c);
    RunOn(root, o, a, m, b, n);
  }

  lemma StepThen(root: Code, o: Oracle, a: Config, b: Config, c: Config)
    requires Step(root, o, a) == Some(b) && Leads(root, o, b, c)
    ensures Leads(root, o, a, c)
  {
    var n: nat :| Run(root, o, b, n) == Some(c);
    assert Run(root, o, a, n + 1) == Some(c);
  }

  /** The configuration in which a statement leaves what surrounds it. */
  function Final(r: Result, k: Cont): Config {
    Config(match r.out case Normal => Skip case Broke => Break case Continued => Continue, k, r.st)
  }

  // ---------------------------------------------------------------- stretches of the expansions

  lemma ReflowEnter(root: Code, o: Oracle, n: nat, init: Code, t: Test, cleanup: Code, body: Code, k: Cont, st: State)
    ensures Leads(root, o, Config(ReflowCode(n, init, t, cleanup, body), k, st),
                  Config(init, Then(ReflowTail(n, t, cleanup), k), st))
  {
    var tail := ReflowTail(n, t, cleanup);
    var c0 := Config(ReflowCode(n, init, t, cleanup, body), k, st);
    var c1 := Config(Seq(init, tail), k, st);
    var c2 := Config(init, Then(tail, k), st);
    LeadsNowhere(root, o, c2);
    StepThen(root, o, c1, c2, c2);
    StepThen(root, o, c0, c1, c2);
  }

  /** After init: the test decides whether the body is entered or the cleanup reached at once. */
  lemma ReflowTest(root: Code, o: Oracle, n: nat, t: Test, cleanup: Code, body: Code, k: Cont, st: State)
    requires Find(Label(AtStart, n), root, Stop) == Some(Place(Switch(body), InWhile(ReflowLoop(n, body), k)))
    ensures Leads(root, o, Config(Skip, Then(ReflowTail(n, t, cleanup), k), st),
                  if Eval(o, t, st) then Config(body, InSwitch(InWhile(ReflowLoop(n, body), k)), st)
                  else Config(cleanup, k, st))
  {
    var tail, end := ReflowTail(n, t, cleanup), Labelled(Label(AtEnd, n), cleanup);
    var jump := If(t, Goto(Label(AtStart, n)), Skip);
    var kw := InWhile(ReflowLoop(n, body), k);
    var c0 := Config(Skip, Then(tail, k), st);
    var c1 := Config(tail, k, st);
    var c2 := Config(jump, Then(end, k), st);
    if Eval(o, t, st) {
      var c3 := Config(Goto(Label(AtStart, n)), Then(end, k), st);
      var c4 := Config(Switch(body), kw, st);
      var c5 := Config(body, InSwitch(kw), st);
      LeadsNowhere(root, o, c5);
      StepThen(root, o, c4, c5, c5);
      StepThen(root, o, c3, c4, c5);
      StepThen(root, o, c2, c3, c5);
      StepThen(root, o, c1, c2, c5);
      StepThen(root, o, c0, c1, c5);
    } else {
      var c3 := Config(Skip, Then(end, k), st);
      var c4 := Config(end, k, st);
      var c5 := Config(cleanup, k, st);
      LeadsNowhere(root, o, c5);
      StepThen(root, o, c4, c5, c5);
      StepThen(root, o, c3, c4, c5);
      StepThen(root, o, c2, c3, c5);
      StepThen(root, o, c1, c2, c5);
      StepThen(root, o, c0, c1, c5);
    }
  }

  /** However the body ends, the loop around it jumps to the end label. */
  lemma LoopLeave(root: Code, o: Oracle, n: nat, body: Code, end: Code, k: Cont, r: Result)
    requires Find(Label(AtEnd, n), root, Stop) == Some(Place(end, k))
    ensures Leads(root, o, Final(r, InSwitch(InWhile(ReflowLoop(n, body), k))), Config(end, k, r.st))
  {
    var loop := ReflowLoop(n, body);
    var kw := InWhile(loop, k);
    var c0 := Final(r, InSwitch(kw));
    var c1 := Config(if r.out == Continued then Continue else Skip, kw, r.st);
    var c2 := Config(While(loop), k, r.st);
    var c3 := Config(loop, kw, r.st);
    var c4 := Config(Goto(Label(AtEnd, n)), kw, r.st);
    var c5 := Config(end, k, r.st);
    LeadsNowhere(root, o, c5);
    StepThen(root, o, c4, c5, c5);
    StepThen(root, o, c3, c4, c5);
    StepThen(root, o, c2, c3, c5);
    StepThen(root, o, c1, c2, c5);
    StepThen(root, o, c0, c1, c5);
  }

  lemma TryEnter(root: Code, o: Oracle, n: nat, body: Code, handler: Code, k: Cont, st: State)
    requires Find(Label(AtStart, n), root, Stop) == Some(Place(Switch(body), InWhile(ReflowLoop(n, body), k)))
    ensures Leads(root, o, Config(TryCode(n, body, handler), k, st),
                  Config(body, InSwitch(InWhile(ReflowLoop(n, body), k)), st))
  {
    var kw := InWhile(ReflowLoop(n, body), k);
    var c0 := Config(TryCode(n, body, handler), k, st);
    var c1 := Config(Goto(Label(AtStart, n)), k, st);
    var c2 := Config(Switch(body), kw, st);
    var c3 := Config(body, InSwitch(kw), st);
    LeadsNowhere(root, o, c3);
    StepThen(root, o, c2, c3, c3);
    StepThen(root, o, c1, c2, c3);
    StepThen(root, o, c0, c1, c3);
  }

  lemma TryHandle(root: Code, o: Oracle, n: nat, body: Code, handler: Code, k: Cont, st: State)
    ensures Leads(root, o, Config(TryEnd(n, body, handler), k, st),
                  Config(if st.ex.Pending() then handler else Skip, k, st))
  {
    var c0 := Config(TryEnd(n, body, handler), k, st);
    var c2 := Config(if st.ex.Pending() then handler else Skip, k, st);
    LeadsNowhere(root, o, c2);
    if st.ex.Pending() {
      var c1 := Config(If(No, While(ReflowLoop(n, body)), handler), k, st);
      StepThen(root, o, c1, c2, c2);
      StepThen(root, o, c0, c1, c2);
    } else {
      StepThen(root, o, c0, c2, c2);
    }
  }

  lemma EnsureStart(root: Code, o: Oracle, n: nat, v: nat, locked: Code, always: Code, k: Cont, kr: Cont, st: State)
    requires Find(Label(AtTryLock, n + 1), root, Stop) == Some(Place(EnsureTry(n + 1, v), kr))
    ensures Leads(root, o, Config(While(EnsureBody(n, v, locked, always)), k, st), Config(EnsureTry(n + 1, v), kr, st))
  {
    var body := EnsureBody(n, v, locked, always);
    var c0 := Config(While(body), k, st);
    var c1 := Config(body, InWhile(body, k), st);
    var c2 := Config(Goto(Label(AtTryLock, n + 1)), InWhile(body, k), st);
    var c3 := Config(EnsureTry(n + 1, v), kr, st);
    LeadsNowhere(root, o, c3);
    StepThen(root, o, c2, c3, c3);
    StepThen(root, o, c1, c2, c3);
    StepThen(root, o, c0, c1, c3);
  }

  /** The attempt, and then the look that does not depend on it. */
  lemma EnsureLook(root: Code, o: Oracle, n: nat, v: nat, locked: Code, always: Code, kr: Cont, st: State)
    requires Find(Label(AtEnsure, n), root, Stop) == Some(Place(EnsureBranch(n, locked, always), kr))
    ensures Leads(root, o, Config(EnsureTry(n, v), kr, st), Config(always, kr, Do(o, TryLock(v), st)))
  {
    var st1 := Do(o, TryLock(v), st);
    var jump := Goto(Label(AtEnsure, n));
    var c0 := Config(EnsureTry(n, v), kr, st);
    var c1 := Config(Prim(TryLock(v)), Then(jump, kr), st);
    var c2 := Config(Skip, Then(jump, kr), st1);
    var c3 := Config(jump, kr, st1);
    var c4 := Config(EnsureBranch(n, locked, always), kr, st1);
    var c5 := Config(always, kr, st1);
    LeadsNowhere(root, o, c5);
    StepThen(root, o, c4, c5, c5);
    StepThen(root, o, c3, c4, c5);
    StepThen(root, o, c2, c3, c5);
    StepThen(root, o, c1, c2, c5);
    StepThen(root, o, c0, c1, c5);
  }

  /** When the look does not leave the loop, the next round works if the lock is held and tries again if not. */
  lemma EnsureNext(root: Code, o: Oracle, n: nat, v: nat, locked: Code, always: Code, ka: Cont, r: Result)
    requires r.out != Broke
    requires
      var kr := InWhile(EnsureRound(n, v, locked, always), ka);
      Find(Label(AtLock, n), root, Stop) == Some(Place(BreakAfterCode(n + 1, locked), kr))
    ensures
      var kr := InWhile(EnsureRound(n, v, locked, always), ka);
      Leads(root, o, Final(r, kr),
            Config(if Eval(o, Held(v), r.st) then BreakAfterCode(n + 1, locked) else EnsureTry(n, v), kr, r.st))
  {
    var round := EnsureRound(n, v, locked, always);
    var kr := InWhile(round, ka);
    var jump, attempt := If(Held(v), Goto(Label(AtLock, n)), Skip), Labelled(Label(AtTryLock, n), EnsureTry(n, v));
    var held := Eval(o, Held(v), r.st);
    var c0 := Final(r, kr);
    var c1 := Config(While(round), ka, r.st);
    var c2 := Config(round, kr, r.st);
    var c3 := Config(EnsureTop(n, v), kr, r.st);
    var c4 := Config(jump, Then(attempt, kr), r.st);
    var c5 := Config(if held then Goto(Label(AtLock, n)) else Skip, Then(attempt, kr), r.st);
    var c7 := Config(if held then BreakAfterCode(n + 1, locked) else EnsureTry(n, v), kr, r.st);
    LeadsNowhere(root, o, c7);
    if held {
      StepThen(root, o, c5, c7, c7);
    } else {
      var c6 := Config(attempt, kr, r.st);
      StepThen(root, o, c6, c7, c7);
      StepThen(root, o, c5, c6, c7);
    }
    StepThen(root, o, c4, c5, c7);
    StepThen(root, o, c3, c4, c7);
    StepThen(root, o, c2, c3, c7);
    StepThen(root, o, c1, c2, c7);
    StepThen(root, o, c0, c1, c7);
  }

  /** Leaving the rounds: unlock if the lock is held, and leave the construct. */
  lemma EnsureFinish(root: Code, o: Oracle, n: nat, v: nat, locked: Code, always: Code, k: Cont, st: State)
    requires Find(Label(AtEnd, n), root, Stop)
          == Some(Place(EnsureCleanup(v), InWhile(EnsureBody(n, v, locked, always), k)))
    ensures Leads(root, o, Config(Skip, AroundRounds(n, v, locked, always, k), st),
                  Config(Skip, k, if Eval(o, Held(v), st) then Do(o, Unlock(v), st) else st))
  {
    var kb := InWhile(EnsureBody(n, v, locked, always), k);
    var held := Eval(o, Held(v), st);
    var st1 := if held then Do(o, Unlock(v), st) else st;
    var choice := If(Held(v), Prim(Unlock(v)), Skip);
    LoopLeave(root, o, n, While(EnsureRound(n + 1, v, locked, always)), EnsureCleanup(v), kb, Result(Normal, st));
    var c0 := Config(Skip, AroundRounds(n, v, locked, always, k), st);
    var c1 := Config(EnsureCleanup(v), kb, st);
    var c2 := Config(choice, Then(Break, kb), st);
    var c4 := Config(Skip, Then(Break, kb), st1);
    var c5 := Config(Break, kb, st1);
    var c6 := Config(Skip, k, st1);
    LeadsNowhere(root, o, c6);
    StepThen(root, o, c5, c6, c6);
    StepThen(root, o, c4, c5, c6);
    if held {
      var c3 := Config(Prim(Unlock(v)), Then(Break, kb), st);
      StepThen(root, o, c3, c4, c6);
      StepThen(root, o, c2, c3, c6);
    } else {
      StepThen(root, o, c2, c4, c6);
    }
    StepThen(root, o, c1, c2, c6);
    LeadsOn(root, o, c0, c1, c6);
  }

  // ---------------------------------------------------------------- a statement that ends

  /** Wherever the expansion of s stands, the machine runs through it with the outcome and state s has. */
  lemma {:induction false} Simulate(root: Code, o: Oracle, fuel: nat, s: Stmt, n: nat, k: Cont, st: State)
    requires Placed(root, Expand(s, n), k)
    requires Exec(o, fuel, s, st).Some?
    ensures Leads(root, o, Config(Expand(s, n), k, st), Final(Exec(o, fuel, s, st).value, k))
    decreases fuel, s, 3
  {
    hide HasLabel, Within, Placed, Find, Run, Leads;
    var r := Exec(o, fuel, s, st).value;
    var c0 := Config(Expand(s, n), k, st);
    match s
    case Nop => LeadsNowhere(root, o, c0);
    case BreakOut => LeadsNowhere(root, o, c0);
    case ContinueOn => LeadsNowhere(root, o, c0);
    case Simple(p) =>
      LeadsNowhere(root, o, Final(r, k));
      StepThen(root, o, c0, Final(r, k), Final(r, k));
    case Block(_, _) => SimulateBlock(root, o, fuel, s, n, k, st);
    case Cond(_, _, _) => SimulateCond(root, o, fuel, s, n, k, st);
    case Forever(_) => SimulateForever(root, o, fuel, s, n, k, st);
    case Once(_) => SimulateOnce(root, o, fuel, s, n, k, st);
    case Reflow(_, _, _, _) => SimulateReflow(root, o, fuel, s, n, k, st);
    case Try(_, _) => SimulateTry(root, o, fuel, s, n, k, st);
    case EnsureSynchronized(_, _, _) => SimulateEnsure(root, o, fuel, s, n, k, st);
  }

  lemma Siblings(a: Stmt, b: Stmt, n: nat)
    ensures forall l :: HasLabel(l, Expand(a, n)) ==> !HasLabel(l, Expand(b, n + Size(a)))
  {
    hide *;
    ExpandWithin(a, n, n, n + Size(a));
    ExpandWithin(b, n + Size(a), n + Size(a), n + Size(a) + Size(b));
    forall l
      ensures HasLabel(l, Expand(a, n)) ==> !HasLabel(l, Expand(b, n + Size(a)))
    {
      LabelWithin(l, Expand(a, n), n, n + Size(a));
      LabelWithin(l, Expand(b, n + Size(a)), n + Size(a), n + Size(a) + Size(b));
    }
  }

  lemma {:induction false} SimulateBlock(root: Code, o: Oracle, fuel: nat, s: Stmt, n: nat, k: Cont, st: State)
    requires s.Block? && Placed(root, Expand(s, n), k)
    requires Exec(o, fuel, s, st).Some?
    ensures Leads(root, o, Config(Expand(s, n), k, st), Final(Exec(o, fuel, s, st).value, k))
    decreases fuel, s, 2
  {
    hide HasLabel, Within, Placed, Find, Run, Leads, Size, Expand;
    PlainUnfolds(s, n);
    var a, b := Expand(s.first, n), Expand(s.second, n + Size(s.first));
    Siblings(s.first, s.second, n);
    PlacedSeq(root, a, b, k);
    Simulate(root, o, fuel, s.first, n, Then(b, k), st);
    var q := Exec(o, fuel, s.first, st).value;
    var c0, c1, c2 := Config(Seq(a, b), k, st), Config(a, Then(b, k), st), Final(q, Then(b, k));
    StepThen(root, o, c0, c1, c2);
    if q.out == Normal {
      Simulate(root, o, fuel, s.second, n + Size(s.first), k, q.st);
      var c4 := Final(Exec(o, fuel, s.second, q.st).value, k);
      StepThen(root, o, c2, Config(b, k, q.st), c4);
      LeadsOn(root, o, c0, c2, c4);
    } else {
      LeadsNowhere(root, o, Final(q, k));
      StepThen(root, o, c2, Final(q, k), Final(q, k));
      LeadsOn(root, o, c0, c2, Final(q, k));
    }
  }

  lemma {:induction false} SimulateCond(root: Code, o: Oracle, fuel: nat, s: Stmt, n: nat, k: Cont, st: State)
    requires s.Cond? && Placed(root, Expand(s, n), k)
    requires Exec(o, fuel, s, st).Some?
    ensures Leads(root, o, Config(Expand(s, n), k, st), Final(Exec(o, fuel, s, st).value, k))
    decreases fuel, s, 2
  {
    hide HasLabel, Within, Placed, Find, Run, Leads, Size, Expand;
    PlainUnfolds(s, n);
    var a, b := Expand(s.thn, n), Expand(s.els, n + Size(s.thn));
    Siblings(s.thn, s.els, n);
    PlacedIf(root, s.test, a, b, k);
    var c0, c2 := Config(Expand(s, n), k, st), Final(Exec(o, fuel, s, st).value, k);
    if Eval(o, s.test, st) {
      Simulate(root, o, fuel, s.thn, n, k, st);
      StepThen(root, o, c0, Config(a, k, st), c2);
    } else {
      Simulate(root, o, fuel, s.els, n + Size(s.thn), k, st);
      StepThen(root, o, c0, Config(b, k, st), c2);
    }
  }

  lemma {:induction false} SimulateForever(root: Code, o: Oracle, fuel: nat, s: Stmt, n: nat, k: Cont, st: State)
    requires s.Forever? && Placed(root, Expand(s, n), k)
    requires Exec(o, fuel, s, st).Some?
    ensures Leads(root, o, Config(Expand(s, n), k, st), Final(Exec(o, fuel, s, st).value, k))
    decreases fuel, s, 2
  {
    hide HasLabel, Within, Placed, Find, Run, Leads, Size, Expand;
    PlainUnfolds(s, n);
    var b := Expand(s.body, n);
    PlacedInside(root, b, k);
    Simulate(root, o, fuel - 1, s.body, n, InWhile(b, k), st);
    var q := Exec(o, fuel - 1, s.body, st).value;
    var c0, c1, c2 := Config(While(b), k, st), Config(b, InWhile(b, k), st), Final(q, InWhile(b, k));
    var end := Final(Exec(o, fuel, s, st).value, k);
    StepThen(root, o, c0, c1, c2);
    if q.out == Broke {
      LeadsNowhere(root, o, end);
      StepThen(root, o, c2, end, end);
    } else {
      Simulate(root, o, fuel - 1, s, n, k, q.st);
      StepThen(root, o, c2, Config(While(b), k, q.st), end);
    }
    LeadsOn(root, o, c0, c2, end);
  }

  lemma {:induction false} SimulateOnce(root: Code, o: Oracle, fuel: nat, s: Stmt, n: nat, k: Cont, st: State)
    requires s.Once? && Placed(root, Expand(s, n), k)
    requires Exec(o, fuel, s, st).Some?
    ensures Leads(root, o, Config(Expand(s, n), k, st), Final(Exec(o, fuel, s, st).value, k))
    decreases fuel, s, 2
  {
    hide HasLabel, Within, Placed, Find, Run, Leads, Size, Expand;
    PlainUnfolds(s, n);
    var b := Expand(s.body, n);
    PlacedInside(root, b, k);
    Simulate(root, o, fuel, s.body, n, InSwitch(k), st);
    var q := Exec(o, fuel, s.body, st).value;
    var c0, c1, c2 := Config(Switch(b), k, st), Config(b, InSwitch(k), st), Final(q, InSwitch(k));
    var end := Final(Exec(o, fuel, s, st).value, k);
    StepThen(root, o, c0, c1, c2);
    LeadsNowhere(root, o, end);
    StepThen(root, o, c2, end, end);
    LeadsOn(root, o, c0, c2, end);
  }

  /** The counters of a reflow's parts, and what follows from the place of the whole. */
  lemma ReflowParts(root: Code, s: Stmt, n: nat, k: Cont)
    requires s.Reflow? && Placed(root, Expand(s, n), k)
    ensures
      var i := n + 1 + Size(s.init);
      var c := i + Size(s.cleanup);
      var init, cleanup, body := Expand(s.init, n + 1), Expand(s.cleanup, i), Expand(s.body, c);
      && Expand(s, n) == ReflowCode(n, init, s.test, cleanup, body)
      && Placed(root, init, Then(ReflowTail(n, s.test, cleanup), k))
      && Placed(root, cleanup, k)
      && Placed(root, body, InSwitch(InWhile(ReflowLoop(n, body), k)))
      && Find(Label(AtEnd, n), root, Stop) == Some(Place(cleanup, k))
      && Find(Label(AtStart, n), root, Stop) == Some(Place(Switch(body), InWhile(ReflowLoop(n, body), k)))
  {
    hide *;
    var i := n + 1 + Size(s.init);
    var c := i + Size(s.cleanup);
    var b := c + Size(s.body);
    ReflowUnfolds(s, n, i, c);
    ExpandWithin(s.init, n + 1, n + 1, i);
    ExpandWithin(s.cleanup, i, i, c);
    ExpandWithin(s.body, c, c, b);
    PlacedReflow(root, n, Expand(s.init, n + 1), s.test, Expand(s.cleanup, i), Expand(s.body, c), k, i, c, b);
  }

  /** What a reflow does once its init has run. */
  function Scope(o: Oracle, fuel: nat, s: Stmt, st: State): Option<Result>
    requires s.Reflow?
  {
    var q := if Eval(o, s.test, st) then Exec(o, fuel, s.body, st) else Some(Result(Normal, st));
    if q.None? then None else Exec(o, fuel, s.cleanup, q.value.st)
  }

  lemma ReflowMeans(o: Oracle, fuel: nat, s: Stmt, st: State)
    requires s.Reflow?
    ensures
      var r := Exec(o, fuel, s.init, st);
      Exec(o, fuel, s, st) == if r.None? || r.value.out != Normal then r else Scope(o, fuel, s, r.value.st)
  {
  }

  /** A break or continue passes by what would have come next. */
  lemma PassesBy(root: Code, o: Oracle, q: Result, next: Code, k: Cont)
    requires q.out != Normal
    ensures Leads(root, o, Final(q, Then(next, k)), Final(q, k))
  {
    LeadsNowhere(root, o, Final(q, k));
    StepThen(root, o, Final(q, Then(next, k)), Final(q, k), Final(q, k));
  }

  lemma {:induction false} SimulateReflow(root: Code, o: Oracle, fuel: nat, s: Stmt, n: nat, k: Cont, st: State)
    requires s.Reflow? && Placed(root, Expand(s, n), k)
    requires Exec(o, fuel, s, st).Some?
    ensures Leads(root, o, Config(Expand(s, n), k, st), Final(Exec(o, fuel, s, st).value, k))
    decreases fuel, s, 2
  {
    hide HasLabel, Within, Placed, Find, Run, Leads, Size, Expand, Exec, Scope, Step;
    ReflowMeans(o, fuel, s, st);
    var i := n + 1 + Size(s.init);
    var c := i + Size(s.cleanup);
    var init, cleanup, body := Expand(s.init, n + 1), Expand(s.cleanup, i), Expand(s.body, c);
    var tail := ReflowTail(n, s.test, cleanup);
    var c0 := Config(ReflowCode(n, init, s.test, cleanup, body), k, st);
    ReflowParts(root, s, n, k);
    ReflowEnter(root, o, n, init, s.test, cleanup, body, k, st);
    Simulate(root, o, fuel, s.init, n + 1, Then(tail, k), st);
    var q := Exec(o, fuel, s.init, st).value;
    LeadsOn(root, o, c0, Config(init, Then(tail, k), st), Final(q, Then(tail, k)));
    if q.out == Normal {
      SimulateScope(root, o, fuel, s, n, k, q.st);
      LeadsOn(root, o, c0, Final(q, Then(tail, k)), Final(Exec(o, fuel, s, st).value, k));
    } else {
      PassesBy(root, o, q, tail, k);
      LeadsOn(root, o, c0, Final(q, Then(tail, k)), Final(q, k));
    }
  }

  lemma {:induction false} SimulateScope(root: Code, o: Oracle, fuel: nat, s: Stmt, n: nat, k: Cont, st: State)
    requires s.Reflow? && Placed(root, Expand(s, n), k)
    requires Scope(o, fuel, s, st).Some?
    ensures
      var tail := ReflowTail(n, s.test, Expand(s.cleanup, n + 1 + Size(s.init)));
      Leads(root, o, Config(Skip, Then(tail, k), st), Final(Scope(o, fuel, s, st).value, k))
    decreases fuel, s, 1
  {
    hide HasLabel, Within, Placed, Find, Run, Leads, Size, Expand, Exec, Step;
    var i := n + 1 + Size(s.init);
    var c := i + Size(s.cleanup);
    var cleanup, body := Expand(s.cleanup, i), Expand(s.body, c);
    var kb := InSwitch(InWhile(ReflowLoop(n, body), k));
    var c0 := Config(Skip, Then(ReflowTail(n, s.test, cleanup), k), st);
    var end := Final(Scope(o, fuel, s, st).value, k);
    ReflowParts(root, s, n, k);
    ReflowTest(root, o, n, s.test, cleanup, body, k, st);
    if Eval(o, s.test, st) {
      Simulate(root, o, fuel, s.body, c, kb, st);
      var q := Exec(o, fuel, s.body, st).value;
      LoopLeave(root, o, n, body, cleanup, k, q);
      Simulate(root, o, fuel, s.cleanup, i, k, q.st);
      LeadsOn(root, o, Final(q, kb), Config(cleanup, k, q.st), end);
      LeadsOn(root, o, Config(body, kb, st), Final(q, kb), end);
      LeadsOn(root, o, c0, Config(body, kb, st), end);
    } else {
      Simulate(root, o, fuel, s.cleanup, i, k, st);
      LeadsOn(root, o, c0, Config(cleanup, k, st), end);
    }
  }

  lemma TryParts(root: Code, s: Stmt, n: nat, k: Cont)
    requires s.Try? && Placed(root, Expand(s, n), k)
    ensures
      var h := n + 1 + Size(s.body);
      var body, handler := Expand(s.body, n + 1), Expand(s.handler, h);
      && Expand(s, n) == TryCode(n, body, handler)
      && Placed(root, body, InSwitch(InWhile(ReflowLoop(n, body), k)))
      && Placed(root, handler, k)
      && Find(Label(AtEnd, n), root, Stop) == Some(Place(TryEnd(n, body, handler), k))
      && Find(Label(AtStart, n), root, Stop) == Some(Place(Switch(body), InWhile(ReflowLoop(n, body), k)))
  {
    hide *;
    var h := n + 1 + Size(s.body);
    TryUnfolds(s, n, h);
    ExpandWithin(s.body, n + 1, n + 1, h);
    ExpandWithin(s.handler, h, h, h + Size(s.handler));
    PlacedTry(root, n, Expand(s.body, n + 1), Expand(s.handler, h), k, h, h + Size(s.handler));
  }

  lemma {:induction false} SimulateTry(root: Code, o: Oracle, fuel: nat, s: Stmt, n: nat, k: Cont, st: State)
    requires s.Try? && Placed(root, Expand(s, n), k)
    requires Exec(o, fuel, s, st).Some?
    ensures Leads(root, o, Config(Expand(s, n), k, st), Final(Exec(o, fuel, s, st).value, k))
    decreases fuel, s, 2
  {
    hide HasLabel, Within, Placed, Find, Run, Leads, Size, Expand, Step;
    var h := n + 1 + Size(s.body);
    var body, handler := Expand(s.body, n + 1), Expand(s.handler, h);
    var kb := InSwitch(InWhile(ReflowLoop(n, body), k));
    var c0, end := Config(TryCode(n, body, handler), k, st), Final(Exec(o, fuel, s, st).value, k);
    TryParts(root, s, n, k);
    TryEnter(root, o, n, body, handler, k, st);
    Simulate(root, o, fuel, s.body, n + 1, kb, st);
    var q := Exec(o, fuel, s.body, st).value;
    LoopLeave(root, o, n, body, TryEnd(n, body, handler), k, q);
    TryHandle(root, o, n, body, handler, k, q.st);
    if q.st.ex.Pending() {
      Simulate(root, o, fuel, s.handler, h, k, q.st);
    } else {
      LeadsNowhere(root, o, end);
    }
    LeadsOn(root, o, Config(TryEnd(n, body, handler), k, q.st),
            Config(if q.st.ex.Pending() then handler else Skip, k, q.st), end);
    LeadsOn(root, o, Final(q, kb), Config(TryEnd(n, body, handler), k, q.st), end);
    LeadsOn(root, o, Config(body, kb, st), Final(q, kb), end);
    LeadsOn(root, o, c0, Config(body, kb, st), end);
  }

  /** The parts of ensure_synchronized at counter n, followed by k. */
  ghost predicate EnsureReady(root: Code, n: nat, v: nat, locked: Code, always: Code, k: Cont) {
    var kr := InWhile(EnsureRound(n + 1, v, locked, always), AroundRounds(n, v, locked, always, k));
    && Find(Label(AtEnd, n), root, Stop)
       == Some(Place(EnsureCleanup(v), InWhile(EnsureBody(n, v, locked, always), k)))
    && Find(Label(AtTryLock, n + 1), root, Stop) == Some(Place(EnsureTry(n + 1, v), kr))
    && Find(Label(AtEnsure, n + 1), root, Stop) == Some(Place(EnsureBranch(n + 1, locked, always), kr))
    && Find(Label(AtLock, n + 1), root, Stop) == Some(Place(BreakAfterCode(n + 2, locked), kr))
    && Find(Label(AtEnd, n + 2), root, Stop) == Some(Place(Break, kr))
    && Find(Label(AtStart, n + 2), root, Stop) == Some(Place(Switch(locked), InWhile(ReflowLoop(n + 2, locked), kr)))
    && Placed(root, always, kr)
    && Placed(root, locked, InSwitch(InWhile(ReflowLoop(n + 2, locked), kr)))
  }

  lemma EnsureParts(root: Code, s: Stmt, n: nat, k: Cont)
    requires s.EnsureSynchronized? && Placed(root, Expand(s, n), k)
    ensures
      var i := n + 3 + Size(s.locked);
      var locked, always := Expand(s.locked, n + 3), Expand(s.always, i);
      && Expand(s, n) == While(EnsureBody(n, s.v, locked, always))
      && EnsureReady(root, n, s.v, locked, always, k)
  {
    hide HasLabel, Within, Placed, Find, Size, Expand;
    var i := n + 3 + Size(s.locked);
    var h := i + Size(s.always);
    var locked, always := Expand(s.locked, n + 3), Expand(s.always, i);
    var kr := InWhile(EnsureRound(n + 1, s.v, locked, always), AroundRounds(n, s.v, locked, always, k));
    EnsureUnfolds(s, n, i);
    ExpandWithin(s.locked, n + 3, n + 3, i);
    ExpandWithin(s.always, i, i, h);
    PlacedEnsure(root, n, s.v, locked, always, k, i, h);
    PlacedRound(root, n + 1, s.v, locked, always, kr, i, h);
    PlacedReflow(root, n + 2, Skip, Yes, Break, locked, kr, n + 3, n + 3, i);
  }

  lemma {:induction false} SimulateEnsure(root: Code, o: Oracle, fuel: nat, s: Stmt, n: nat, k: Cont, st: State)
    requires s.EnsureSynchronized? && Placed(root, Expand(s, n), k)
    requires Exec(o, fuel, s, st).Some?
    ensures Leads(root, o, Config(Expand(s, n), k, st), Final(Exec(o, fuel, s, st).value, k))
    decreases fuel, s, 2
  {
    hide HasLabel, Within, Placed, Find, Run, Leads, Size, Expand, Step;
    var i := n + 3 + Size(s.locked);
    var locked, always := Expand(s.locked, n + 3), Expand(s.always, i);
    var kr := InWhile(EnsureRound(n + 1, s.v, locked, always), AroundRounds(n, s.v, locked, always, k));
    var done := Attempts(o, fuel, s, st).value;
    var c0, c1 := Config(While(EnsureBody(n, s.v, locked, always)), k, st), Config(EnsureTry(n + 1, s.v), kr, st);
    var c2 := Config(Skip, AroundRounds(n, s.v, locked, always, k), done);
    EnsureParts(root, s, n, k);
    EnsureStart(root, o, n, s.v, locked, always, k, kr, st);
    SimulateAttempts(root, o, fuel, s, n, k, st);
    EnsureFinish(root, o, n, s.v, locked, always, k, done);
    LeadsOn(root, o, c1, c2, Final(Exec(o, fuel, s, st).value, k));
    LeadsOn(root, o, c0, c1, Final(Exec(o, fuel, s, st).value, k));
  }

  lemma BreaksOut(root: Code, o: Oracle, q: Result, body: Code, k: Cont)
    requires q.out == Broke
    ensures Leads(root, o, Final(q, InWhile(body, k)), Config(Skip, k, q.st))
  {
    LeadsNowhere(root, o, Config(Skip, k, q.st));
    StepThen(root, o, Final(q, InWhile(body, k)), Config(Skip, k, q.st), Config(Skip, k, q.st));
  }

  /** One round of attempts. */
  lemma AttemptsMean(o: Oracle, fuel: nat, s: Stmt, st: State)
    requires s.EnsureSynchronized? && Attempts(o, fuel, s, st).Some?
    ensures fuel > 0
    ensures
      var r := Exec(o, fuel - 1, s.always, Do(o, TryLock(s.v), st));
      && r.Some?
      && Attempts(o, fuel, s, st)
         == if r.value.out == Broke then Some(r.value.st)
            else if !Eval(o, Held(s.v), r.value.st) then Attempts(o, fuel - 1, s, r.value.st)
            else var q := Exec(o, fuel - 1, s.locked, r.value.st); if q.None? then None else Some(q.value.st)
  {
    assert Attempts(o, fuel, s, st) == AfterTry(o, fuel - 1, s, Do(o, TryLock(s.v), st));
  }

  lemma {:induction false} SimulateAttempts(root: Code, o: Oracle, fuel: nat, s: Stmt, n: nat, k: Cont, st: State)
    requires s.EnsureSynchronized?
    requires EnsureReady(root, n, s.v, Expand(s.locked, n + 3), Expand(s.always, n + 3 + Size(s.locked)), k)
    requires Attempts(o, fuel, s, st).Some?
    ensures
      var locked, always := Expand(s.locked, n + 3), Expand(s.always, n + 3 + Size(s.locked));
      var around := AroundRounds(n, s.v, locked, always, k);
      Leads(root, o, Config(EnsureTry(n + 1, s.v), InWhile(EnsureRound(n + 1, s.v, locked, always), around), st),
            Config(Skip, around, Attempts(o, fuel, s, st).value))
    decreases fuel, s, 1
  {
    hide HasLabel, Within, Placed, Find, Run, Leads, Size, Expand, Exec, Step, Attempts, AfterTry, Eval, Do;
    hide EnsureTry, EnsureBranch, EnsureRound, AroundRounds, EnsureBody, EnsureCleanup, BreakAfterCode, ReflowLoop;
    AttemptsMean(o, fuel, s, st);
    var i := n + 3 + Size(s.locked);
    var locked, always := Expand(s.locked, n + 3), Expand(s.always, i);
    var around := AroundRounds(n, s.v, locked, always, k);
    var kr := InWhile(EnsureRound(n + 1, s.v, locked, always), around);
    var st1 := Do(o, TryLock(s.v), st);
    var c0, c1 := Config(EnsureTry(n + 1, s.v), kr, st), Config(always, kr, st1);
    var end := Config(Skip, around, Attempts(o, fuel, s, st).value);
    EnsureLook(root, o, n + 1, s.v, locked, always, kr, st);
    Simulate(root, o, fuel - 1, s.always, i, kr, st1);
    var r := Exec(o, fuel - 1, s.always, st1).value;
    if r.out == Broke {
      BreaksOut(root, o, r, EnsureRound(n + 1, s.v, locked, always), around);
    } else {
      EnsureNext(root, o, n + 1, s.v, locked, always, around, r);
      if Eval(o, Held(s.v), r.st) {
        SimulateLocked(root, o, fuel - 1, s, n, k, r.st);
        LeadsOn(root, o, Final(r, kr), Config(BreakAfterCode(n + 2, locked), kr, r.st), end);
      } else {
        SimulateAttempts(root, o, fuel - 1, s, n, k, r.st);
        LeadsOn(root, o, Final(r, kr), Config(EnsureTry(n + 1, s.v), kr, r.st), end);
      }
    }
    LeadsOn(root, o, c1, Final(r, kr), end);
    LeadsOn(root, o, c0, c1, end);
  }

  /** The locked block runs under break_after, so that it is the last thing in the loop. */
  lemma {:induction false} SimulateLocked(root: Code, o: Oracle, fuel: nat, s: Stmt, n: nat, k: Cont, st: State)
    requires s.EnsureSynchronized?
    requires EnsureReady(root, n, s.v, Expand(s.locked, n + 3), Expand(s.always, n + 3 + Size(s.locked)), k)
    requires Exec(o, fuel, s.locked, st).Some?
    ensures
      var locked, always := Expand(s.locked, n + 3), Expand(s.always, n + 3 + Size(s.locked));
      var around := AroundRounds(n, s.v, locked, always, k);
      Leads(root, o, Config(BreakAfterCode(n + 2, locked), InWhile(EnsureRound(n + 1, s.v, locked, always), around), st),
            Config(Skip, around, Exec(o, fuel, s.locked, st).value.st))
    decreases fuel, s.locked, 4
  {
    hide HasLabel, Within, Placed, Find, Run, Leads, Size, Expand, Exec;
    var locked, always := Expand(s.locked, n + 3), Expand(s.always, n + 3 + Size(s.locked));
    var around := AroundRounds(n, s.v, locked, always, k);
    var kr := InWhile(EnsureRound(n + 1, s.v, locked, always), around);
    var kb := InSwitch(InWhile(ReflowLoop(n + 2, locked), kr));
    var tail := ReflowTail(n + 2, Yes, Break);
    var c0, c1 := Config(BreakAfterCode(n + 2, locked), kr, st), Config(Skip, Then(tail, kr), st);
    ReflowEnter(root, o, n + 2, Skip, Yes, Break, locked, kr, st);
    ReflowTest(root, o, n + 2, Yes, Break, locked, kr, st);
    Simulate(root, o, fuel, s.locked, n + 3, kb, st);
    var r := Exec(o, fuel, s.locked, st).value;
    LoopLeave(root, o, n + 2, locked, Break, kr, r);
    var c4, end := Config(Break, kr, r.st), Config(Skip, around, r.st);
    LeadsNowhere(root, o, end);
    StepThen(root, o, c4, end, end);
    LeadsOn(root, o, Final(r, kb), c4, end);
    LeadsOn(root, o, Config(locked, kb, st), Final(r, kb), end);
    LeadsOn(root, o, c1, Config(locked, kb, st), end);
    LeadsOn(root, o, c0, c1, end);
  }
}
