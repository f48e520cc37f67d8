/** When a statement's meaning never comes to an end, neither does its expansion, and both get through the same states. */
module Divergence {
  import opened Options
  import opened JumpCode
  import opened Macros
  import opened Expansion
  import opened Simulation

  // ---------------------------------------------------------------- how far a statement gets

  /** The state in which s runs out of fuel. */
  function Stopped(o: Oracle, fuel: nat, s: Stmt, st: State): State
    requires Exec(o, fuel, s, st).None?
    decreases fuel, s, 2
  {
    match s
    case Block(a, b) =>
      var r := Exec(o, fuel, a, st);
      if r.None? then Stopped(o, fuel, a, st) else Stopped(o, fuel, b, r.value.st)
    case Cond(t, a, b) => if Eval(o, t, st) then Stopped(o, fuel, a, st) else Stopped(o, fuel, b, st)
    case Forever(b) =>
      if fuel == 0 then st
      else
        var r := Exec(o, fuel - 1, b, st);
        if r.None? then Stopped(o, fuel - 1, b, st) else Stopped(o, fuel - 1, s, r.value.st)
    case Once(b) => Stopped(o, fuel, b, st)
    case Reflow(init, _, _, _) =>
      var r := Exec(o, fuel, init, st);
      if r.None? then Stopped(o, fuel, init, st) else StoppedScope(o, fuel, s, r.value.st)
    case Try(b, handler) =>
      var r := Exec(o, fuel, b, st);
      if r.None? then Stopped(o, fuel, b, st) else Stopped(o, fuel, handler, r.value.st)
    case EnsureSynchronized(_, _, _) => StoppedAttempts(o, fuel, s, st)
  }

  function StoppedScope(o: Oracle, fuel: nat, s: Stmt, st: State): State
    requires s.Reflow? && Scope(o, fuel, s, st).None?
    decreases fuel, s, 1
  {
    if Eval(o, s.test, st) then
      var q := Exec(o, fuel, s.body, st);
      if q.None? then Stopped(o, fuel, s.body, st) else Stopped(o, fuel, s.cleanup, q.value.st)
    else Stopped(o, fuel, s.cleanup, st)
  }

  function StoppedAttempts(o: Oracle, fuel: nat, s: Stmt, st: State): State
    requires s.EnsureSynchronized? && Attempts(o, fuel, s, st).None?
    decreases fuel, s, 0
  {
    if fuel == 0 then st
    else
      var st1 := Do(o, TryLock(s.v), st);
      assert AfterTry(o, fuel - 1, s, st1).None?;
      var r := Exec(o, fuel - 1, s.always, st1);
      if r.None? then Stopped(o, fuel - 1, s.always, st1)
      else if Eval(o, Held(s.v), r.value.st) then Stopped(o, fuel - 1, s.locked, r.value.st)
      else StoppedAttempts(o, fuel - 1, s, r.value.st)
  }

  /** The machine comes from c to the state z, and takes m steps at least on the way. */
  ghost predicate Passes(root: Code, o: Oracle, c: Config, m: nat, z: State) {
    exists n: nat, b: Config :: n >= m && Run(root, o, c, n) == Some(b) && b.st == z
  }

  lemma PassesHere(root: Code, o: Oracle, c: Config)
    ensures Passes(root, o, c, 0, c.st)
  {
    assert Run(root, o, c, 0) == Some(c);
  }

  lemma LeadsPasses(root: Code, o: Oracle, a: Config, b: Config, m: nat, z: State)
    requires Leads(root, o, a, b) && Passes(root, o, b, m, z)
    ensures Passes(root, o, a, m, z)
  {
    var n: nat :| Run(root, o, a, n) == Some(b);
    var i: nat, c: Config :| i >= m && Run(root, o, b, i) == Some(c) && c.st == z;
    RunOn(root, o, a, n, b, i);
    assert Run(root, o, a, n + i) == Some(c);
  }

  lemma StepPasses(root: Code, o: Oracle, a: Config, b: Config, m: nat, z: State)
    requires Step(root, o, a) == Some(b) && Passes(root, o, b, m, z)
    ensures Passes(root, o, a, m + 1, z) && Passes(root, o, a, m, z)
  {
    var i: nat, c: Config :| i >= m && Run(root, o, b, i) == Some(c) && c.st == z;
    assert Run(root, o, a, i + 1) == Some(c);
  }

  /** Out of fuel means that the machine gets as far, in that many steps at least. */
  lemma {:induction false} Diverge(root: Code, o: Oracle, fuel: nat, s: Stmt, n: nat, k: Cont, st: State)
    requires Placed(root, Expand(s, n), k)
    requires Exec(o, fuel, s, st).None?
    ensures Passes(root, o, Config(Expand(s, n), k, st), fuel, Stopped(o, fuel, s, st))
    decreases fuel, s, 3
  {
    hide HasLabel, Within, Placed, Find, Run, Leads, Size, Expand, Passes;
    var z := Stopped(o, fuel, s, st);
    match s
    case Block(_, _) => DivergeBlock(root, o, fuel, s, n, k, st);
    case Cond(_, _, _) => DivergeCond(root, o, fuel, s, n, k, st);
    case Forever(_) => DivergeForever(root, o, fuel, s, n, k, st);
    case Once(b) =>
      PlainUnfolds(s, n);
      PlacedInside(root, Expand(b, n), k);
      Diverge(root, o, fuel, b, n, InSwitch(k), st);
      StepPasses(root, o, Config(Expand(s, n), k, st), Config(Expand(b, n), InSwitch(k), st), fuel, z);
    case Reflow(_, _, _, _) => DivergeReflow(root, o, fuel, s, n, k, st);
    case Try(_, _) => DivergeTry(root, o, fuel, s, n, k, st);
    case EnsureSynchronized(_, _, _) => DivergeEnsure(root, o, fuel, s, n, k, st);
  }

  lemma {:induction false} DivergeBlock(root: Code, o: Oracle, fuel: nat, s: Stmt, n: nat, k: Cont, st: State)
    requires s.Block? && Placed(root, Expand(s, n), k)
    requires Exec(o, fuel, s, st).None?
    ensures Passes(root, o, Config(Expand(s, n), k, st), fuel, Stopped(o, fuel, s, st))
    decreases fuel, s, 2
  {
    hide HasLabel, Within, Placed, Find, Run, Leads, Size, Expand, Passes;
    PlainUnfolds(s, n);
    var z := Stopped(o, fuel, s, st);
    var a, b := Expand(s.first, n), Expand(s.second, n + Size(s.first));
    var c0, c1 := Config(Seq(a, b), k, st), Config(a, Then(b, k), st);
    Siblings(s.first, s.second, n);
    PlacedSeq(root, a, b, k);
    var q := Exec(o, fuel, s.first, st);
    if q.None? {
      Diverge(root, o, fuel, s.first, n, Then(b, k), st);
    } else {
      Simulate(root, o, fuel, s.first, n, Then(b, k), st);
      Diverge(root, o, fuel, s.second, n + Size(s.first), k, q.value.st);
      StepPasses(root, o, Final(q.value, Then(b, k)), Config(b, k, q.value.st), fuel, z);
      LeadsPasses(root, o, c1, Final(q.value, Then(b, k)), fuel, z);
    }
    StepPasses(root, o, c0, c1, fuel, z);
  }

  lemma {:induction false} DivergeCond(root: Code, o: Oracle, fuel: nat, s: Stmt, n: nat, k: Cont, st: State)
    requires s.Cond? && Placed(root, Expand(s, n), k)
    requires Exec(o, fuel, s, st).None?
    ensures Passes(root, o, Config(Expand(s, n), k, st), fuel, Stopped(o, fuel, s, st))
    decreases fuel, s, 2
  {
    hide HasLabel, Within, Placed, Find, Run, Leads, Size, Expand, Passes;
    PlainUnfolds(s, n);
    var z := Stopped(o, fuel, s, st);
    var a, b := Expand(s.thn, n), Expand(s.els, n + Size(s.thn));
    Siblings(s.thn, s.els, n);
    PlacedIf(root, s.test, a, b, k);
    if Eval(o, s.test, st) {
      Diverge(root, o, fuel, s.thn, n, k, st);
      StepPasses(root, o, Config(Expand(s, n), k, st), Config(a, k, st), fuel, z);
    } else {
      Diverge(root, o, fuel, s.els, n + Size(s.thn), k, st);
      StepPasses(root, o, Config(Expand(s, n), k, st), Config(b, k, st), fuel, z);
    }
  }

  lemma {:induction false} DivergeForever(root: Code, o: Oracle, fuel: nat, s: Stmt, n: nat, k: Cont, st: State)
    requires s.Forever? && Placed(root, Expand(s, n), k)
    requires Exec(o, fuel, s, st).None?
    ensures Passes(root, o, Config(Expand(s, n), k, st), fuel, Stopped(o, fuel, s, st))
    decreases fuel, s, 2
  {
    hide HasLabel, Within, Placed, Find, Run, Leads, Size, Expand, Passes;
    PlainUnfolds(s, n);
    var z := Stopped(o, fuel, s, st);
    if fuel == 0 {
      PassesHere(root, o, Config(Expand(s, n), k, st));
    } else {
      var b := Expand(s.body, n);
      var c0, c1 := Config(While(b), k, st), Config(b, InWhile(b, k), st);
      PlacedInside(root, b, k);
      var q := Exec(o, fuel - 1, s.body, st);
      if q.None? {
        Diverge(root, o, fuel - 1, s.body, n, InWhile(b, k), st);
      } else {
        Simulate(root, o, fuel - 1, s.body, n, InWhile(b, k), st);
        Diverge(root, o, fuel - 1, s, n, k, q.value.st);
        StepPasses(root, o, Final(q.value, InWhile(b, k)), Config(While(b), k, q.value.st), fuel - 1, z);
        LeadsPasses(root, o, c1, Final(q.value, InWhile(b, k)), fuel - 1, z);
      }
      StepPasses(root, o, c0, c1, fuel - 1, z);
    }
  }

  lemma {:induction false} DivergeReflow(root: Code, o: Oracle, fuel: nat, s: Stmt, n: nat, k: Cont, st: State)
    requires s.Reflow? && Placed(root, Expand(s, n), k)
    requires Exec(o, fuel, s, st).None?
    ensures Passes(root, o, Config(Expand(s, n), k, st), fuel, Stopped(o, fuel, s, st))
    decreases fuel, s, 2
  {
    hide HasLabel, Within, Placed, Find, Run, Leads, Size, Expand, Passes, Step;
    ReflowMeans(o, fuel, s, st);
    var z := Stopped(o, fuel, s, st);
    var i := n + 1 + Size(s.init);
    var init, cleanup, body := Expand(s.init, n + 1), Expand(s.cleanup, i), Expand(s.body, i + Size(s.cleanup));
    var tail := ReflowTail(n, s.test, cleanup);
    var c0, c1 := Config(ReflowCode(n, init, s.test, cleanup, body), k, st), Config(init, Then(tail, k), st);
    ReflowParts(root, s, n, k);
    ReflowEnter(root, o, n, init, s.test, cleanup, body, k, st);
    var q := Exec(o, fuel, s.init, st);
    if q.None? {
      Diverge(root, o, fuel, s.init, n + 1, Then(tail, k), st);
    } else {
      Simulate(root, o, fuel, s.init, n + 1, Then(tail, k), st);
      DivergeScope(root, o, fuel, s, n, k, q.value.st);
      LeadsPasses(root, o, c1, Final(q.value, Then(tail, k)), fuel, z);
    }
    LeadsPasses(root, o, c0, c1, fuel, z);
  }

  lemma {:induction false} DivergeScope(root: Code, o: Oracle, fuel: nat, s: Stmt, n: nat, k: Cont, st: State)
    requires s.Reflow? && Placed(root, Expand(s, n), k)
    requires Scope(o, fuel, s, st).None?
    ensures Passes(root, o, Config(Skip, Then(ReflowTail(n, s.test, Expand(s.cleanup, n + 1 + Size(s.init))), k), st), fuel, StoppedScope(o, fuel, s, st))
    decreases fuel, s, 1
  {
    hide HasLabel, Within, Placed, Find, Run, Leads, Size, Expand, Passes, Step, Exec;
    var z := StoppedScope(o, fuel, s, st);
    var i := n + 1 + Size(s.init);
    var c := i + Size(s.cleanup);
    var cleanup, body := Expand(s.cleanup, i), Expand(s.body, c);
    var kb := InSwitch(InWhile(ReflowLoop(n, body), k));
    var c0 := Config(Skip, Then(ReflowTail(n, s.test, cleanup), k), st);
    ReflowParts(root, s, n, k);
    ReflowTest(root, o, n, s.test, cleanup, body, k, st);
    if Eval(o, s.test, st) {
      var q := Exec(o, fuel, s.body, st);
      if q.None? {
        Diverge(root, o, fuel, s.body, c, kb, st);
      } else {
        Simulate(root, o, fuel, s.body, c, kb, st);
        LoopLeave(root, o, n, body, cleanup, k, q.value);
        Diverge(root, o, fuel, s.cleanup, i, k, q.value.st);
        LeadsPasses(root, o, Final(q.value, kb), Config(cleanup, k, q.value.st), fuel, z);
        LeadsPasses(root, o, Config(body, kb, st), Final(q.value, kb), fuel, z);
      }
      LeadsPasses(root, o, c0, Config(body, kb, st), fuel, z);
    } else {
      Diverge(root, o, fuel, s.cleanup, i, k, st);
      LeadsPasses(root, o, c0, Config(cleanup, k, st), fuel, z);
    }
  }

  lemma {:induction false} DivergeTry(root: Code, o: Oracle, fuel: nat, s: Stmt, n: nat, k: Cont, st: State)
    requires s.Try? && Placed(root, Expand(s, n), k)
    requires Exec(o, fuel, s, st).None?
    ensures Passes(root, o, Config(Expand(s, n), k, st), fuel, Stopped(o, fuel, s, st))
    decreases fuel, s, 2
  {
    hide HasLabel, Within, Placed, Find, Run, Leads, Size, Expand, Passes, Step;
    var z := Stopped(o, fuel, s, st);
    var h := n + 1 + Size(s.body);
    var body, handler := Expand(s.body, n + 1), Expand(s.handler, h);
    var kb := InSwitch(InWhile(ReflowLoop(n, body), k));
    var c0, c1 := Config(TryCode(n, body, handler), k, st), Config(body, kb, st);
    TryParts(root, s, n, k);
    TryEnter(root, o, n, body, handler, k, st);
    var q := Exec(o, fuel, s.body, st);
    if q.None? {
      Diverge(root, o, fuel, s.body, n + 1, kb, st);
    } else {
      var c3 := Config(TryEnd(n, body, handler), k, q.value.st);
      Simulate(root, o, fuel, s.body, n + 1, kb, st);
      LoopLeave(root, o, n, body, TryEnd(n, body, handler), k, q.value);
      TryHandle(root, o, n, body, handler, k, q.value.st);
      Diverge(root, o, fuel, s.handler, h, k, q.value.st);
      LeadsPasses(root, o, c3, Config(handler, k, q.value.st), fuel, z);
      LeadsPasses(root, o, Final(q.value, kb), c3, fuel, z);
      LeadsPasses(root, o, c1, Final(q.value, kb), fuel, z);
    }
    LeadsPasses(root, o, c0, c1, fuel, z);
  }

  lemma {:induction false} DivergeEnsure(root: Code, o: Oracle, fuel: nat, s: Stmt, n: nat, k: Cont, st: State)
    requires s.EnsureSynchronized? && Placed(root, Expand(s, n), k)
    requires Exec(o, fuel, s, st).None?
    ensures Passes(root, o, Config(Expand(s, n), k, st), fuel, Stopped(o, fuel, s, st))
    decreases fuel, s, 2
  {
    hide HasLabel, Within, Placed, Find, Run, Leads, Size, Expand, Passes, Step;
    var z := Stopped(o, fuel, s, st);
    var locked, always := Expand(s.locked, n + 3), Expand(s.always, n + 3 + Size(s.locked));
    var kr := InWhile(EnsureRound(n + 1, s.v, locked, always), AroundRounds(n, s.v, locked, always, k));
    EnsureParts(root, s, n, k);
    EnsureStart(root, o, n, s.v, locked, always, k, kr, st);
    DivergeAttempts(root, o, fuel, s, n, k, st);
    LeadsPasses(root, o, Config(Expand(s, n), k, st), Config(EnsureTry(n + 1, s.v), kr, st), fuel, z);
  }

  lemma {:induction false} DivergeAttempts(root: Code, o: Oracle, fuel: nat, s: Stmt, n: nat, k: Cont, st: State)
    requires s.EnsureSynchronized?
    requires EnsureReady(root, n, s.v, Expand(s.locked, n + 3), Expand(s.always, n + 3 + Size(s.locked)), k)
    requires Attempts(o, fuel, s, st).None?
    ensures
      var locked, always := Expand(s.locked, n + 3), Expand(s.always, n + 3 + Size(s.locked));
      var kr := InWhile(EnsureRound(n + 1, s.v, locked, always), AroundRounds(n, s.v, locked, always, k));
      Passes(root, o, Config(EnsureTry(n + 1, s.v), kr, st), fuel, StoppedAttempts(o, fuel, s, st))
    decreases fuel, s, 1
  {
    hide HasLabel, Within, Placed, Find, Run, Leads, Size, Expand, Passes, Step;
    var z := StoppedAttempts(o, fuel, s, st);
    if fuel == 0 {
      var locked, always := Expand(s.locked, n + 3), Expand(s.always, n + 3 + Size(s.locked));
      var kr := InWhile(EnsureRound(n + 1, s.v, locked, always), AroundRounds(n, s.v, locked, always, k));
      PassesHere(root, o, Config(EnsureTry(n + 1, s.v), kr, st));
    } else {
      var i := n + 3 + Size(s.locked);
      var locked, always := Expand(s.locked, n + 3), Expand(s.always, i);
      var around := AroundRounds(n, s.v, locked, always, k);
      var kr := InWhile(EnsureRound(n + 1, s.v, locked, always), around);
      var st1 := Do(o, TryLock(s.v), st);
      var r := Exec(o, fuel - 1, s.always, st1);
      if r.None? {
        Diverge(root, o, fuel - 1, s.always, i, kr, st1);
      } else {
        Simulate(root, o, fuel - 1, s.always, i, kr, st1);
        EnsureNext(root, o, n + 1, s.v, locked, always, around, r.value);
        if Eval(o, Held(s.v), r.value.st) {
          DivergeLocked(root, o, fuel - 1, s, n, k, r.value.st);
          LeadsPasses(root, o, Final(r.value, kr), Config(BreakAfterCode(n + 2, locked), kr, r.value.st), fuel - 1, z);
        } else {
          DivergeAttempts(root, o, fuel - 1, s, n, k, r.value.st);
          LeadsPasses(root, o, Final(r.value, kr), Config(EnsureTry(n + 1, s.v), kr, r.value.st), fuel - 1, z);
        }
        LeadsPasses(root, o, Config(always, kr, st1), Final(r.value, kr), fuel - 1, z);
      }
      AttemptPasses(root, o, n + 1, s.v, locked, always, kr, st, fuel - 1, z);
    }
  }

  /** An attempt takes steps of its own before the look begins. */
  lemma AttemptPasses(root: Code, o: Oracle, n: nat, v: nat, locked: Code, always: Code, kr: Cont, st: State, m: nat, z: State)
    requires Find(Label(AtEnsure, n), root, Stop) == Some(Place(EnsureBranch(n, locked, always), kr))
    requires Passes(root, o, Config(always, kr, Do(o, TryLock(v), st)), m, z)
    ensures Passes(root, o, Config(EnsureTry(n, v), kr, st), m + 1, z)
  {
    var st1 := Do(o, TryLock(v), st);
    var jump := Goto(Label(AtEnsure, n));
    var c2, c3, c4 := Config(Skip, Then(jump, kr), st1), Config(jump, kr, st1), Config(EnsureBranch(n, locked, always), kr, st1);
    StepPasses(root, o, c4, Config(always, kr, st1), m, z);
    StepPasses(root, o, c3, c4, m, z);
    StepPasses(root, o, c2, c3, m, z);
    StepPasses(root, o, Config(Prim(TryLock(v)), Then(jump, kr), st), c2, m, z);
    StepPasses(root, o, Config(EnsureTry(n, v), kr, st), Config(Prim(TryLock(v)), Then(jump, kr), st), m, z);
  }

  lemma {:induction false} DivergeLocked(root: Code, o: Oracle, fuel: nat, s: Stmt, n: nat, k: Cont, st: State)
    requires s.EnsureSynchronized?
    requires EnsureReady(root, n, s.v, Expand(s.locked, n + 3), Expand(s.always, n + 3 + Size(s.locked)), k)
    requires Exec(o, fuel, s.locked, st).None?
    ensures
      var locked, always := Expand(s.locked, n + 3), Expand(s.always, n + 3 + Size(s.locked));
      var kr := InWhile(EnsureRound(n + 1, s.v, locked, always), AroundRounds(n, s.v, locked, always, k));
      Passes(root, o, Config(BreakAfterCode(n + 2, locked), kr, st), fuel, Stopped(o, fuel, s.locked, st))
    decreases fuel, s.locked, 4
  {
    hide HasLabel, Within, Placed, Find, Run, Leads, Size, Expand, Passes, Step, Exec;
    var z := Stopped(o, fuel, s.locked, st);
    var locked, always := Expand(s.locked, n + 3), Expand(s.always, n + 3 + Size(s.locked));
    var kr := InWhile(EnsureRound(n + 1, s.v, locked, always), AroundRounds(n, s.v, locked, always, k));
    var kb := InSwitch(InWhile(ReflowLoop(n + 2, locked), kr));
    var tail := ReflowTail(n + 2, Yes, Break);
    ReflowEnter(root, o, n + 2, Skip, Yes, Break, locked, kr, st);
    ReflowTest(root, o, n + 2, Yes, Break, locked, kr, st);
    Diverge(root, o, fuel, s.locked, n + 3, kb, st);
    LeadsPasses(root, o, Config(Skip, Then(tail, kr), st), Config(locked, kb, st), fuel, z);
    LeadsPasses(root, o, Config(BreakAfterCode(n + 2, locked), kr, st), Config(Skip, Then(tail, kr), st), fuel, z);
  }

  // ---------------------------------------------------------------- main result

  lemma FinalStops(root: Code, o: Oracle, r: Result)
    ensures Step(root, o, Final(r, Stop)) == None
  {
  }

  lemma PlacedWhole(root: Code)
    ensures Placed(root, root, Stop)
  {
    hide Find, HasLabel;
  }

  /** A whole function body: its expansion, run from the beginning. */
  function Begin(s: Stmt, st: State): Config {
    Config(Expand(s, 0), Stop, st)
  }

  /** The statement ends with the result r. */
  ghost predicate Means(o: Oracle, s: Stmt, st: State, r: Result) {
    exists fuel: nat :: Exec(o, fuel, s, st) == Some(r)
  }

  /** The expanded code halts with the result r. */
  ghost predicate Halts(o: Oracle, s: Stmt, st: State, r: Result) {
    exists n: nat :: HaltsIn(Expand(s, 0), o, Begin(s, st), n, Final(r, Stop))
  }

  /** A halted run has carried out the whole meaning: jumps never get stuck half way. */
  lemma HaltedIsFinal(o: Oracle, s: Stmt, st: State, n: nat, c: Config)
    requires HaltsIn(Expand(s, 0), o, Begin(s, st), n, c)
    ensures Exec(o, n + 1, s, st).Some? && c == Final(Exec(o, n + 1, s, st).value, Stop)
  {
    hide HasLabel, Within, Placed, Find, Size, Expand, Step, Exec, Stopped;
    PlacedWhole(Expand(s, 0));
    var root := Expand(s, 0);
    var q := Exec(o, n + 1, s, st);
    if q.None? {
      Diverge(root, o, n + 1, s, 0, Stop, st);
      var m: nat, d: Config :| m >= n + 1 && Run(root, o, Begin(s, st), m) == Some(d);
      RunOn(root, o, Begin(s, st), n, c, m - n);
      assert false;
    }
    Simulate(root, o, n + 1, s, 0, Stop, st);
    var m: nat :| Run(root, o, Begin(s, st), m) == Some(Final(q.value, Stop));
    FinalStops(root, o, q.value);
    HaltUnique(root, o, Begin(s, st), n, c, m, Final(q.value, Stop));
  }

  /** The expansion of every program halts exactly when its meaning ends, with that outcome and state. */
  lemma ExpansionPreservesMeaning(o: Oracle, s: Stmt, st: State, r: Result)
    ensures Means(o, s, st, r) <==> Halts(o, s, st, r)
  {
    hide HasLabel, Within, Placed, Find, Size, Expand, Exec;
    PlacedWhole(Expand(s, 0));
    if fuel: nat :| Exec(o, fuel, s, st) == Some(r) {
      Simulate(Expand(s, 0), o, fuel, s, 0, Stop, st);
      var n: nat :| Run(Expand(s, 0), o, Begin(s, st), n) == Some(Final(r, Stop));
      assert HaltsIn(Expand(s, 0), o, Begin(s, st), n, Final(r, Stop));
    }
    if n: nat :| HaltsIn(Expand(s, 0), o, Begin(s, st), n, Final(r, Stop)) {
      HaltedIsFinal(o, s, st, n, Final(r, Stop));
      FinalInjective(r, Exec(o, n + 1, s, st).value);
    }
  }

  lemma FinalInjective(r: Result, q: Result)
    requires Final(r, Stop) == Final(q, Stop)
    ensures r == q
  {
  }

  // ---------------------------------------------------------------- what holds at every step

  /** b has gone on from a: nothing recorded is taken back. */
  predicate GrownFrom(a: State, b: State) {
    && a.trace <= b.trace && a.brackets <= b.brackets
    && a.ex.next <= b.ex.next && a.ex.destroyed <= b.ex.destroyed
  }

  lemma {:induction false} RunGrows(root: Code, o: Oracle, a: Config, n: nat, b: Config)
    requires Run(root, o, a, n) == Some(b)
    ensures GrownFrom(a.st, b.st)
    decreases n
  {
    if n > 0 {
      RunGrows(root, o, Step(root, o, a).value, n - 1, b);
    }
  }

  /** How far a statement gets with this much fuel: to its end, or to where the fuel runs out. */
  function Reached(o: Oracle, fuel: nat, s: Stmt, st: State): State {
    var r := Exec(o, fuel, s, st);
    if r.Some? then r.value.st else Stopped(o, fuel, s, st)
  }

  /** At every step of the machine nothing is recorded that the statement does not come to as well. */
  lemma StepsWithin(o: Oracle, s: Stmt, st: State, n: nat, c: Config)
    requires Run(Expand(s, 0), o, Begin(s, st), n) == Some(c)
    ensures GrownFrom(c.st, Reached(o, n + 1, s, st))
  {
    hide HasLabel, Within, Placed, Find, Size, Expand, Step, Exec, Stopped, GrownFrom;
    PlacedWhole(Expand(s, 0));
    var root := Expand(s, 0);
    var q := Exec(o, n + 1, s, st);
    if q.None? {
      Diverge(root, o, n + 1, s, 0, Stop, st);
      var m: nat, d: Config :| m >= n + 1 && Run(root, o, Begin(s, st), m) == Some(d) && d.st == Stopped(o, n + 1, s, st);
      RunOn(root, o, Begin(s, st), n, c, m - n);
      RunGrows(root, o, c, m - n, d);
    } else {
      Simulate(root, o, n + 1, s, 0, Stop, st);
      var m: nat :| Run(root, o, Begin(s, st), m) == Some(Final(q.value, Stop));
      if n <= m {
        RunOn(root, o, Begin(s, st), n, c, m - n);
        RunGrows(root, o, c, m - n, Final(q.value, Stop));
      } else {
        FinalStops(root, o, q.value);
        RunOn(root, o, Begin(s, st), m, Final(q.value, Stop), n - m);
        assert false;
      }
    }
  }
}
