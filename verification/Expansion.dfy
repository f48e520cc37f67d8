/** The expansion of the macros does what the macros mean. */
module Expansion {
  import opened Options
  import opened JumpCode
  import opened Macros

  // ---------------------------------------------------------------- where labels stand

  predicate HasLabel(l: Label, code: Code) {
    match code
    case Seq(a, b) => HasLabel(l, a) || HasLabel(l, b)
    case If(_, a, b) => HasLabel(l, a) || HasLabel(l, b)
    case While(b) => HasLabel(l, b)
    case Switch(b) => HasLabel(l, b)
    case Labelled(name, b) => name == l || HasLabel(l, b)
    case _ => false
  }

  lemma {:induction false} FindIffHasLabel(l: Label, code: Code, k: Cont)
    ensures Find(l, code, k).Some? <==> HasLabel(l, code)
  {
    match code
    case Seq(a, b) =>
      FindIffHasLabel(l, a, Then(b, k));
      FindIffHasLabel(l, b, k);
    case If(_, a, b) =>
      FindIffHasLabel(l, a, k);
      FindIffHasLabel(l, b, k);
    case While(b) => FindIffHasLabel(l, b, InWhile(b, k));
    case Switch(b) => FindIffHasLabel(l, b, InSwitch(k));
    case Labelled(name, b) => FindIffHasLabel(l, b, k);
    case _ =>
  }

  /** Every label of code has a counter from lo up to hi. */
  predicate Within(code: Code, lo: nat, hi: nat) {
    match code
    case Seq(a, b) => Within(a, lo, hi) && Within(b, lo, hi)
    case If(_, a, b) => Within(a, lo, hi) && Within(b, lo, hi)
    case While(b) => Within(b, lo, hi)
    case Switch(b) => Within(b, lo, hi)
    case Labelled(name, b) => lo <= name.counter < hi && Within(b, lo, hi)
    case _ => true
  }

  lemma {:induction false} WidenWithin(code: Code, lo: nat, hi: nat, lo': nat, hi': nat)
    requires Within(code, lo, hi) && lo' <= lo && hi <= hi'
    ensures Within(code, lo', hi')
  {
    match code
    case Seq(a, b) =>
      WidenWithin(a, lo, hi, lo', hi');
      WidenWithin(b, lo, hi, lo', hi');
    case If(_, a, b) =>
      WidenWithin(a, lo, hi, lo', hi');
      WidenWithin(b, lo, hi, lo', hi');
    case While(b) => WidenWithin(b, lo, hi, lo', hi');
    case Switch(b) => WidenWithin(b, lo, hi, lo', hi');
    case Labelled(_, b) => WidenWithin(b, lo, hi, lo', hi');
    case _ =>
  }

  lemma {:induction false} LabelWithin(l: Label, code: Code, lo: nat, hi: nat)
    requires Within(code, lo, hi)
    ensures HasLabel(l, code) ==> lo <= l.counter < hi
  {
    match code
    case Seq(a, b) =>
      LabelWithin(l, a, lo, hi);
      LabelWithin(l, b, lo, hi);
    case If(_, a, b) =>
      LabelWithin(l, a, lo, hi);
      LabelWithin(l, b, lo, hi);
    case While(b) => LabelWithin(l, b, lo, hi);
    case Switch(b) => LabelWithin(l, b, lo, hi);
    case Labelled(_, b) => LabelWithin(l, b, lo, hi);
    case _ =>
  }

  lemma NameOrInside(l: Label, name: Label, code: Code)
    ensures HasLabel(l, Labelled(name, code)) <==> l == name || HasLabel(l, code)
  {
  }

  lemma LoopWithin(n: nat, body: Code, lo: nat, hi: nat)
    requires lo <= n < hi && Within(body, lo, hi)
    ensures Within(While(ReflowLoop(n, body)), lo, hi)
  {
    assert Within(Labelled(Label(AtStart, n), Switch(body)), lo, hi);
    assert Within(ReflowLoop(n, body), lo, hi);
  }

  lemma ReflowWithin(n: nat, init: Code, t: Test, cleanup: Code, body: Code, lo: nat, hi: nat)
    requires lo <= n < hi && Within(init, lo, hi) && Within(cleanup, lo, hi) && Within(body, lo, hi)
    ensures Within(ReflowCode(n, init, t, cleanup, body), lo, hi)
  {
    LoopWithin(n, body, lo, hi);
    assert Within(Labelled(Label(AtEnd, n), cleanup), lo, hi);
    assert Within(Skip, lo, hi);
    assert Within(If(t, Goto(Label(AtStart, n)), Skip), lo, hi);
    assert Within(ReflowTail(n, t, cleanup), lo, hi);
  }

  lemma TryWithin(n: nat, body: Code, handler: Code, lo: nat, hi: nat)
    requires lo <= n < hi && Within(body, lo, hi) && Within(handler, lo, hi)
    ensures Within(TryCode(n, body, handler), lo, hi)
  {
    LoopWithin(n, body, lo, hi);
    assert Within(TryEnd(n, body, handler), lo, hi);
  }

  lemma RoundWithin(n: nat, v: nat, locked: Code, always: Code, lo: nat, hi: nat)
    requires lo <= n && n + 1 < hi && Within(locked, lo, hi) && Within(always, lo, hi)
    ensures Within(While(EnsureRound(n, v, locked, always)), lo, hi)
  {
    ReflowWithin(n + 1, Skip, Yes, Break, locked, lo, hi);
    assert Within(EnsureBranch(n, locked, always), lo, hi);
    assert Within(Goto(Label(AtEnsure, n)), lo, hi);
    assert Within(EnsureTry(n, v), lo, hi);
    assert Within(Labelled(Label(AtTryLock, n), EnsureTry(n, v)), lo, hi);
    assert Within(If(Held(v), Goto(Label(AtLock, n)), Skip), lo, hi);
    assert Within(EnsureTop(n, v), lo, hi);
    assert Within(EnsureRound(n, v, locked, always), lo, hi);
  }

  lemma EnsureWithin(n: nat, v: nat, locked: Code, always: Code, lo: nat, hi: nat)
    requires lo <= n && n + 2 < hi && Within(locked, lo, hi) && Within(always, lo, hi)
    ensures Within(While(EnsureBody(n, v, locked, always)), lo, hi)
  {
    RoundWithin(n + 1, v, locked, always, lo, hi);
    ReflowWithin(n, Skip, Yes, EnsureCleanup(v), While(EnsureRound(n + 1, v, locked, always)), lo, hi);
    assert Within(EnsureBody(n, v, locked, always), lo, hi);
  }

  /** What the scoped statements expand into, and how many counters that takes. */
  lemma ReflowUnfolds(s: Stmt, n: nat, i: nat, c: nat)
    requires s.Reflow? && i == n + 1 + Size(s.init) && c == i + Size(s.cleanup)
    ensures n + Size(s) == c + Size(s.body)
    ensures Expand(s, n)
         == ReflowCode(n, Expand(s.init, n + 1), s.test, Expand(s.cleanup, i), Expand(s.body, c))
  {
    hide ReflowCode;
  }

  lemma TryUnfolds(s: Stmt, n: nat, h: nat)
    requires s.Try? && h == n + 1 + Size(s.body)
    ensures n + Size(s) == h + Size(s.handler)
    ensures Expand(s, n) == TryCode(n, Expand(s.body, n + 1), Expand(s.handler, h))
  {
    hide TryCode;
  }

  lemma EnsureUnfolds(s: Stmt, n: nat, i: nat)
    requires s.EnsureSynchronized? && i == n + 3 + Size(s.locked)
    ensures n + Size(s) == i + Size(s.always)
    ensures Expand(s, n) == While(EnsureBody(n, s.v, Expand(s.locked, n + 3), Expand(s.always, i)))
  {
    hide EnsureBody;
  }

  lemma PlainUnfolds(s: Stmt, n: nat)
    ensures s.Block? ==>
      && Size(s) == Size(s.first) + Size(s.second)
      && Expand(s, n) == Seq(Expand(s.first, n), Expand(s.second, n + Size(s.first)))
    ensures s.Cond? ==>
      && Size(s) == Size(s.thn) + Size(s.els)
      && Expand(s, n) == If(s.test, Expand(s.thn, n), Expand(s.els, n + Size(s.thn)))
    ensures s.Forever? ==> Size(s) == Size(s.body) && Expand(s, n) == While(Expand(s.body, n))
    ensures s.Once? ==> Size(s) == Size(s.body) && Expand(s, n) == Switch(Expand(s.body, n))
  {
  }

  lemma {:induction false} ExpandWithin(s: Stmt, n: nat, lo: nat, hi: nat)
    requires lo <= n && n + Size(s) <= hi
    ensures Within(Expand(s, n), lo, hi)
    decreases s, 1
  {
    match s
    case Block(_, _) => PairCaseWithin(s, n, lo, hi);
    case Cond(_, _, _) => PairCaseWithin(s, n, lo, hi);
    case Forever(b) => ExpandWithin(b, n, lo, hi);
    case Once(b) => ExpandWithin(b, n, lo, hi);
    case Reflow(_, _, _, _) => ReflowCaseWithin(s, n, lo, hi);
    case Try(_, _) => TryCaseWithin(s, n, lo, hi);
    case EnsureSynchronized(_, _, _) => EnsureCaseWithin(s, n, lo, hi);
    case _ =>
  }

  lemma {:induction false} PairCaseWithin(s: Stmt, n: nat, lo: nat, hi: nat)
    requires (s.Block? || s.Cond?) && lo <= n && n + Size(s) <= hi
    ensures Within(Expand(s, n), lo, hi)
    decreases s, 0
  {
    hide Expand;
    hide Size;
    PlainUnfolds(s, n);
    var a, b := if s.Block? then s.first else s.thn, if s.Block? then s.second else s.els;
    ExpandWithin(a, n, lo, hi);
    ExpandWithin(b, n + Size(a), lo, hi);
  }

  lemma {:induction false} ReflowCaseWithin(s: Stmt, n: nat, lo: nat, hi: nat)
    requires s.Reflow? && lo <= n && n + Size(s) <= hi
    ensures Within(Expand(s, n), lo, hi)
    decreases s, 0
  {
    hide *;
    var i := n + 1 + Size(s.init);
    var c := i + Size(s.cleanup);
    ReflowUnfolds(s, n, i, c);
    ExpandWithin(s.init, n + 1, lo, hi);
    ExpandWithin(s.cleanup, i, lo, hi);
    ExpandWithin(s.body, c, lo, hi);
    ReflowWithin(n, Expand(s.init, n + 1), s.test, Expand(s.cleanup, i), Expand(s.body, c), lo, hi);
  }

  lemma {:induction false} TryCaseWithin(s: Stmt, n: nat, lo: nat, hi: nat)
    requires s.Try? && lo <= n && n + Size(s) <= hi
    ensures Within(Expand(s, n), lo, hi)
    decreases s, 0
  {
    hide *;
    var h := n + 1 + Size(s.body);
    TryUnfolds(s, n, h);
    ExpandWithin(s.body, n + 1, lo, hi);
    ExpandWithin(s.handler, h, lo, hi);
    TryWithin(n, Expand(s.body, n + 1), Expand(s.handler, h), lo, hi);
  }

  lemma {:induction false} EnsureCaseWithin(s: Stmt, n: nat, lo: nat, hi: nat)
    requires s.EnsureSynchronized? && lo <= n && n + Size(s) <= hi
    ensures Within(Expand(s, n), lo, hi)
    decreases s, 0
  {
    hide *;
    var i := n + 3 + Size(s.locked);
    EnsureUnfolds(s, n, i);
    ExpandWithin(s.locked, n + 3, lo, hi);
    ExpandWithin(s.always, i, lo, hi);
    EnsureWithin(n, s.v, Expand(s.locked, n + 3), Expand(s.always, i), lo, hi);
  }

  /** A goto from anywhere in root to a label of code lands where code, followed by k, has it. */
  ghost predicate Placed(root: Code, code: Code, k: Cont) {
    forall l :: HasLabel(l, code) ==> Find(l, root, Stop) == Find(l, code, k)
  }

  lemma PlacedSeq(root: Code, a: Code, b: Code, k: Cont)
    requires Placed(root, Seq(a, b), k)
    requires forall l :: HasLabel(l, a) ==> !HasLabel(l, b)
    ensures Placed(root, a, Then(b, k)) && Placed(root, b, k)
  {
    forall l | HasLabel(l, a) || HasLabel(l, b)
      ensures HasLabel(l, a) ==> Find(l, root, Stop) == Find(l, a, Then(b, k))
      ensures HasLabel(l, b) ==> Find(l, root, Stop) == Find(l, b, k)
    {
      assert HasLabel(l, Seq(a, b));
      FindIffHasLabel(l, a, Then(b, k));
    }
  }

  lemma PlacedIf(root: Code, t: Test, a: Code, b: Code, k: Cont)
    requires Placed(root, If(t, a, b), k)
    requires forall l :: HasLabel(l, a) ==> !HasLabel(l, b)
    ensures Placed(root, a, k) && Placed(root, b, k)
  {
    forall l | HasLabel(l, a) || HasLabel(l, b)
      ensures HasLabel(l, a) ==> Find(l, root, Stop) == Find(l, a, k)
      ensures HasLabel(l, b) ==> Find(l, root, Stop) == Find(l, b, k)
    {
      assert HasLabel(l, If(t, a, b));
      FindIffHasLabel(l, a, k);
    }
  }

  lemma PlacedInside(root: Code, b: Code, k: Cont)
    ensures Placed(root, While(b), k) ==> Placed(root, b, InWhile(b, k))
    ensures Placed(root, Switch(b), k) ==> Placed(root, b, InSwitch(k))
  {
    forall l | HasLabel(l, b)
      ensures HasLabel(l, While(b)) && HasLabel(l, Switch(b))
    {
    }
  }

  lemma PlacedLabel(root: Code, name: Label, b: Code, k: Cont)
    requires Placed(root, Labelled(name, b), k)
    requires !HasLabel(name, b)
    ensures Placed(root, b, k) && Find(name, root, Stop) == Some(Place(b, k))
  {
    assert HasLabel(name, Labelled(name, b));
    forall l | HasLabel(l, b)
      ensures Find(l, root, Stop) == Find(l, b, k)
    {
      assert HasLabel(l, Labelled(name, b));
    }
  }

  // ---------------------------------------------------------------- reflow

  lemma TailLabel(l: Label, n: nat, t: Test, cleanup: Code, lo: nat, hi: nat)
    requires Within(cleanup, lo, hi)
    ensures HasLabel(l, ReflowTail(n, t, cleanup)) ==> l == Label(AtEnd, n) || lo <= l.counter < hi
  {
    LabelWithin(l, cleanup, lo, hi);
    assert !HasLabel(l, If(t, Goto(Label(AtStart, n)), Skip));
    assert HasLabel(l, Labelled(Label(AtEnd, n), cleanup)) ==> l == Label(AtEnd, n) || HasLabel(l, cleanup);
  }

  lemma LoopLabel(l: Label, n: nat, body: Code, lo: nat, hi: nat)
    requires Within(body, lo, hi)
    ensures HasLabel(l, While(ReflowLoop(n, body))) ==> l == Label(AtStart, n) || lo <= l.counter < hi
  {
    LabelWithin(l, body, lo, hi);
    var start := Labelled(Label(AtStart, n), Switch(body));
    assert HasLabel(l, Switch(body)) <==> HasLabel(l, body);
    assert HasLabel(l, start) <==> l == Label(AtStart, n) || HasLabel(l, Switch(body));
    assert !HasLabel(l, Goto(Label(AtEnd, n)));
    assert HasLabel(l, If(Yes, Goto(Label(AtEnd, n)), start)) <==> HasLabel(l, start);
    assert HasLabel(l, While(ReflowLoop(n, body))) <==> HasLabel(l, ReflowLoop(n, body));
  }

  /** Where the three parts of a reflow stand, and where its two labels lead. */
  lemma PlacedReflow(root: Code, n: nat, init: Code, t: Test, cleanup: Code, body: Code, k: Cont, i: nat, c: nat, b: nat)
    requires Placed(root, ReflowCode(n, init, t, cleanup, body), k)
    requires Within(init, n + 1, i) && Within(cleanup, i, c) && Within(body, c, b) && n < i <= c <= b
    ensures Placed(root, init, Then(ReflowTail(n, t, cleanup), k))
    ensures Placed(root, cleanup, k)
    ensures Placed(root, body, InSwitch(InWhile(ReflowLoop(n, body), k)))
    ensures Find(Label(AtEnd, n), root, Stop) == Some(Place(cleanup, k))
    ensures Find(Label(AtStart, n), root, Stop) == Some(Place(Switch(body), InWhile(ReflowLoop(n, body), k)))
  {
    var tail, loop := ReflowTail(n, t, cleanup), ReflowLoop(n, body);
    var jump := If(t, Goto(Label(AtStart, n)), Skip);
    forall l
      ensures HasLabel(l, Seq(init, tail)) ==> !HasLabel(l, While(loop))
      ensures HasLabel(l, init) ==> !HasLabel(l, tail)
    {
      TailLabel(l, n, t, cleanup, i, c);
      LoopLabel(l, n, body, c, b);
      LabelWithin(l, init, n + 1, i);
    }
    LabelWithin(Label(AtEnd, n), cleanup, i, c);
    LabelWithin(Label(AtStart, n), body, c, b);
    PlacedIf(root, Yes, Seq(init, tail), While(loop), k);
    PlacedSeq(root, init, tail, k);
    PlacedSeq(root, jump, Labelled(Label(AtEnd, n), cleanup), k);
    PlacedLabel(root, Label(AtEnd, n), cleanup, k);
    PlacedLoop(root, n, body, k);
  }

  /** The loop around the body of a reflow or a try. */
  lemma PlacedLoop(root: Code, n: nat, body: Code, k: Cont)
    requires Placed(root, While(ReflowLoop(n, body)), k)
    requires !HasLabel(Label(AtStart, n), body)
    ensures Placed(root, body, InSwitch(InWhile(ReflowLoop(n, body), k)))
    ensures Find(Label(AtStart, n), root, Stop) == Some(Place(Switch(body), InWhile(ReflowLoop(n, body), k)))
  {
    var loop := ReflowLoop(n, body);
    PlacedInside(root, loop, k);
    PlacedIf(root, Yes, Goto(Label(AtEnd, n)), Labelled(Label(AtStart, n), Switch(body)), InWhile(loop, k));
    PlacedLabel(root, Label(AtStart, n), Switch(body), InWhile(loop, k));
    PlacedInside(root, body, InWhile(loop, k));
  }

  // ---------------------------------------------------------------- try and ensure_synchronized

  lemma PlacedTry(root: Code, n: nat, body: Code, handler: Code, k: Cont, b: nat, h: nat)
    requires Placed(root, TryCode(n, body, handler), k)
    requires Within(body, n + 1, b) && Within(handler, b, h) && n < b <= h
    ensures Placed(root, body, InSwitch(InWhile(ReflowLoop(n, body), k)))
    ensures Placed(root, handler, k)
    ensures Find(Label(AtEnd, n), root, Stop) == Some(Place(TryEnd(n, body, handler), k))
    ensures Find(Label(AtStart, n), root, Stop) == Some(Place(Switch(body), InWhile(ReflowLoop(n, body), k)))
  {
    var loop, end := ReflowLoop(n, body), TryEnd(n, body, handler);
    forall l
      ensures HasLabel(l, While(loop)) ==> !HasLabel(l, handler)
      ensures HasLabel(l, While(loop)) || HasLabel(l, handler) ==> l != Label(AtEnd, n)
    {
      LoopLabel(l, n, body, n + 1, b);
      LabelWithin(l, handler, b, h);
    }
    LabelWithin(Label(AtStart, n), body, n + 1, b);
    TryEndLabel(Label(AtEnd, n), n, body, handler);
    PlacedIf(root, Yes, Goto(Label(AtStart, n)), Labelled(Label(AtEnd, n), end), k);
    PlacedLabel(root, Label(AtEnd, n), end, k);
    PlacedIf(root, NotPending, Skip, If(No, While(loop), handler), k);
    PlacedIf(root, No, While(loop), handler, k);
    PlacedLoop(root, n, body, k);
  }

  lemma TryEndLabel(l: Label, n: nat, body: Code, handler: Code)
    ensures HasLabel(l, TryEnd(n, body, handler)) <==> HasLabel(l, While(ReflowLoop(n, body))) || HasLabel(l, handler)
  {
    assert HasLabel(l, If(No, While(ReflowLoop(n, body)), handler))
      <==> HasLabel(l, While(ReflowLoop(n, body))) || HasLabel(l, handler);
  }

  /** What follows the while (1) inside ensure_synchronized's do_after. */
  function AroundRounds(n: nat, v: nat, locked: Code, always: Code, k: Cont): Cont {
    var rounds := While(EnsureRound(n + 1, v, locked, always));
    InSwitch(InWhile(ReflowLoop(n, rounds), InWhile(EnsureBody(n, v, locked, always), k)))
  }

  lemma PlacedEnsure(root: Code, n: nat, v: nat, locked: Code, always: Code, k: Cont, i: nat, h: nat)
    requires Placed(root, While(EnsureBody(n, v, locked, always)), k)
    requires Within(locked, n + 3, i) && Within(always, i, h) && n + 3 <= i <= h
    ensures Find(Label(AtEnd, n), root, Stop) == Some(Place(EnsureCleanup(v), InWhile(EnsureBody(n, v, locked, always), k)))
    ensures Placed(root, EnsureRound(n + 1, v, locked, always),
                   InWhile(EnsureRound(n + 1, v, locked, always), AroundRounds(n, v, locked, always, k)))
  {
    var round := EnsureRound(n + 1, v, locked, always);
    var body := EnsureBody(n, v, locked, always);
    var reflow := ReflowCode(n, Skip, Yes, EnsureCleanup(v), While(round));
    WidenWithin(locked, n + 3, i, n + 1, h);
    WidenWithin(always, i, h, n + 1, h);
    RoundWithin(n + 1, v, locked, always, n + 1, h);
    PlacedInside(root, body, k);
    PlacedIf(root, Yes, Goto(Label(AtTryLock, n + 1)), reflow, InWhile(body, k));
    PlacedReflow(root, n, Skip, Yes, EnsureCleanup(v), While(round), InWhile(body, k), n + 1, n + 1, h);
    PlacedInside(root, round, AroundRounds(n, v, locked, always, k));
  }

  /** Inside one round: the two blocks, and the three labels that lead into it. */
  lemma PlacedRound(root: Code, n: nat, v: nat, locked: Code, always: Code, k: Cont, i: nat, h: nat)
    requires Placed(root, EnsureRound(n, v, locked, always), k)
    requires Within(locked, n + 2, i) && Within(always, i, h) && n + 2 <= i <= h
    ensures Placed(root, BreakAfterCode(n + 1, locked), k) && Placed(root, always, k)
    ensures Find(Label(AtTryLock, n), root, Stop) == Some(Place(EnsureTry(n, v), k))
    ensures Find(Label(AtEnsure, n), root, Stop) == Some(Place(EnsureBranch(n, locked, always), k))
    ensures Find(Label(AtLock, n), root, Stop) == Some(Place(BreakAfterCode(n + 1, locked), k))
  {
    hide HasLabel;
    hide Find;
    hide Placed;
    hide Within;
    var top, branch, work := EnsureTop(n, v), EnsureBranch(n, locked, always), BreakAfterCode(n + 1, locked);
    var jump, attempt := If(Held(v), Goto(Label(AtLock, n)), Skip), Labelled(Label(AtTryLock, n), EnsureTry(n, v));
    WidenWithin(locked, n + 2, i, n + 1, i);
    ReflowWithin(n + 1, Skip, Yes, Break, locked, n + 1, i);
    forall l
      ensures HasLabel(l, top) <==> l == Label(AtTryLock, n)
      ensures HasLabel(l, Labelled(Label(AtLock, n), work)) ==> !HasLabel(l, always)
      ensures HasLabel(l, branch) ==> l == Label(AtLock, n) || n < l.counter
      ensures HasLabel(l, work) ==> n < l.counter
      ensures HasLabel(l, Labelled(Label(AtEnsure, n), branch)) ==> l == Label(AtEnsure, n) || HasLabel(l, branch)
      ensures HasLabel(l, jump) ==> !HasLabel(l, attempt)
    {
      TopLabel(l, n, v);
      BranchLabel(l, n, locked, always);
      NameOrInside(l, Label(AtLock, n), work);
      NameOrInside(l, Label(AtEnsure, n), branch);
      LabelWithin(l, work, n + 1, i);
      LabelWithin(l, always, i, h);
    }
    TopLabel(Label(AtTryLock, n), n, v);
    PlacedIf(root, Yes, top, Labelled(Label(AtEnsure, n), branch), k);
    PlacedLabel(root, Label(AtEnsure, n), branch, k);
    PlacedIf(root, No, Labelled(Label(AtLock, n), work), always, k);
    PlacedLabel(root, Label(AtLock, n), work, k);
    PlacedSeq(root, jump, attempt, k);
    PlacedLabel(root, Label(AtTryLock, n), EnsureTry(n, v), k);
  }

  lemma BranchLabel(l: Label, n: nat, locked: Code, always: Code)
    ensures HasLabel(l, EnsureBranch(n, locked, always))
       <==> l == Label(AtLock, n) || HasLabel(l, BreakAfterCode(n + 1, locked)) || HasLabel(l, always)
  {
    hide ReflowCode;
    var work := Labelled(Label(AtLock, n), BreakAfterCode(n + 1, locked));
    assert HasLabel(l, work) <==> l == Label(AtLock, n) || HasLabel(l, BreakAfterCode(n + 1, locked));
    assert HasLabel(l, If(No, work, always)) <==> HasLabel(l, work) || HasLabel(l, always);
  }

  lemma TopLabel(l: Label, n: nat, v: nat)
    ensures HasLabel(l, EnsureTop(n, v)) <==> l == Label(AtTryLock, n)
    ensures !HasLabel(l, EnsureTry(n, v)) && !HasLabel(l, If(Held(v), Goto(Label(AtLock, n)), Skip))
  {
    assert !HasLabel(l, Goto(Label(AtEnsure, n)));
    assert !HasLabel(l, EnsureTry(n, v));
    assert !HasLabel(l, Skip);
    assert !HasLabel(l, If(Held(v), Goto(Label(AtLock, n)), Skip));
    assert HasLabel(l, Labelled(Label(AtTryLock, n), EnsureTry(n, v))) <==> l == Label(AtTryLock, n);
  }
}
