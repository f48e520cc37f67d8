/** What taking and returning a CURL handle comes to when nothing fails and the other threads stand still. */
module HandleUse {
  import opened Options
  import opened StackMachine
  import opened HandlePool

  function RunFrom(p: Pool, actions: seq<Action>): Option<Pool>
    decreases |actions|
  {
    if actions == [] then Some(p)
    else
      var q := Perform(p, actions[0]);
      if q.None? then None else RunFrom(q.value, actions[1..])
  }

  lemma {:induction false} RunGoesOn(before: seq<Action>, more: seq<Action>)
    requires PoolRun(before).Some?
    ensures PoolRun(before + more) == RunFrom(PoolRun(before).value, more)
    decreases |more|
  {
    if more == [] {
      assert before + more == before;
    } else {
      var next := before + [more[0]];
      assert next[..|next| - 1] == before && next[|next| - 1] == more[0];
      assert before + more == next + more[1..];
      if PoolRun(next).Some? {
        RunGoesOn(next, more[1..]);
      } else {
        NoRunGoesOn(next, more[1..]);
      }
    }
  }

  lemma {:induction false} NoRunGoesOn(before: seq<Action>, more: seq<Action>)
    requires PoolRun(before).None?
    ensures PoolRun(before + more).None?
    decreases |more|
  {
    if more == [] {
      assert before + more == before;
    } else {
      var all := before + more;
      assert all[..|all| - 1] == before + more[..|more| - 1];
      NoRunGoesOn(before, more[..|more| - 1]);
    }
  }

  /** t goes on by itself, everything it does succeeds, and a node it allocates is n. */
  predicate Alone(actions: seq<Action>, t: Thread, n: Node) {
    forall i :: 0 <= i < |actions| ==> actions[i] == StackStep(t) || actions[i] == Proceed(t, true, n)
  }

  /** At each point there is one such way to go on at most. */
  lemma OneWay(p: Pool, a: Action, b: Action, t: Thread, n: Node)
    requires Alone([a, b], t, n) && Perform(p, a).Some? && Perform(p, b).Some?
    ensures a == b && StageOf(p, t) != Outside
  {
    assert [a, b][0] == a && [a, b][1] == b;
    hide Step, Advance;
  }

  lemma {:induction false} SameEnd(p: Pool, a: seq<Action>, b: seq<Action>, t: Thread, n: Node)
    requires Alone(a, t, n) && Alone(b, t, n) && RunFrom(p, a).Some? && RunFrom(p, b).Some?
    requires StageOf(RunFrom(p, a).value, t) == Outside && StageOf(RunFrom(p, b).value, t) == Outside
    ensures RunFrom(p, a) == RunFrom(p, b)
    decreases |a|
  {
    hide Perform;
    if a != [] && b != [] {
      OneWay(p, a[0], b[0], t, n);
      SameEnd(Perform(p, a[0]).value, a[1..], b[1..], t, n);
    } else if a != [] {
      OneWay(p, a[0], a[0], t, n);
    } else if b != [] {
      OneWay(p, b[0], b[0], t, n);
    }
  }

  // ---------------------------------------------------------------- the pop

  /** The node a pop by t comes back with, if nobody else moves. */
  function Coming(l: Local, items: seq<Node>): Option<Node> {
    if NodeInHand(l).Some? then NodeInHand(l) else if items == [] then None else Some(items[0])
  }

  function Left(l: Local, items: seq<Node>): seq<Node> {
    if NodeInHand(l).Some? || items == [] then items else items[1..]
  }

  /** t has the lock, or can take it at once. */
  predicate PopReady(s: StackMachine.State, t: Thread, items: seq<Node>) {
    var l := At(s, t);
    && IsPop(l) && (Holds(l) || (l.PopTry? && s.lock == None))
    && (l.PopLeave? && l.res == None ==> items == [])
  }

  function PopLeft(l: Local): nat {
    match l
    case PopTry => 8
    case PopLook(_) => 7
    case PopTake => 6
    case PopFollow(_) => 5
    case PopHead(_, _) => 4
    case PopClear(_) => 3
    case PopCount(_) => 2
    case PopStore(_, _) => 1
    case _ => 0
  }

  /** Apart from the stack and t's stage nothing is different. */
  ghost predicate Same(p: Pool, q: Pool, t: Thread) {
    && q.value == p.value && q.created == p.created && q.destroyed == p.destroyed && q.held == p.held && q.fault == p.fault
    && forall u: Thread :: u != t ==> StageOf(q, u) == StageOf(p, u)
  }

  /** s' is one step of the pop further, towards the same result. */
  ghost predicate Nearer(s: StackMachine.State, s': StackMachine.State, t: Thread, items: seq<Node>, rest: seq<Node>) {
    && PopReady(s', t, rest) && PopLeft(At(s', t)) < PopLeft(At(s, t))
    && Coming(At(s', t), rest) == Coming(At(s, t), items) && Left(At(s', t), rest) == Left(At(s, t), items)
  }

  lemma PopAdvances(s: StackMachine.State, t: Thread, items: seq<Node>)
    requires Inv(s, items) && PopReady(s, t, items) && !At(s, t).PopLeave?
    ensures Advance(s, t).Some? && Nearer(s, Advance(s, t).value, t, items, NextItems(s, Go(t), items))
  {
    ChainHead(s, items);
    assert LocalOk(s, t, At(s, t));
    hide Inv, IsChain, Owns, Advance, Nearer, NextItems;
    if At(s, t).PopTry? || At(s, t).PopLook? || At(s, t).PopTake? || At(s, t).PopFollow? {
      PopFinds(s, t, items);
    } else {
      PopTakes(s, t, items);
    }
  }

  lemma PopFinds(s: StackMachine.State, t: Thread, items: seq<Node>)
    requires PopReady(s, t, items) && (At(s, t).PopTry? || At(s, t).PopLook? || At(s, t).PopTake? || At(s, t).PopFollow?)
    requires LocalOk(s, t, At(s, t)) && (s.head == None <==> items == [])
    ensures Advance(s, t).Some? && Nearer(s, Advance(s, t).value, t, items, NextItems(s, Go(t), items))
  {
  }

  lemma PopTakes(s: StackMachine.State, t: Thread, items: seq<Node>)
    requires PopReady(s, t, items) && (At(s, t).PopHead? || At(s, t).PopClear? || At(s, t).PopCount? || At(s, t).PopStore?)
    requires LocalOk(s, t, At(s, t)) && (s.head == if items == [] then None else Some(items[0]))
    ensures Advance(s, t).Some? && Nearer(s, Advance(s, t).value, t, items, NextItems(s, Go(t), items))
  {
  }

  lemma PopStep(p: Pool, t: Thread, items: seq<Node>)
    requires Inv(p.stack, items) && PopReady(p.stack, t, items) && !At(p.stack, t).PopLeave? && StageOf(p, t) == Popping
    ensures Perform(p, StackStep(t)).Some?
    ensures var q := Perform(p, StackStep(t)).value;
      Some(q.stack) == Advance(p.stack, t) && Same(p, q, t) && StageOf(q, t) == Popping
  {
    PopAdvances(p.stack, t, items);
    hide Inv, Advance, PopReady, Coming, Left;
    assert At(p.stack, t) != PushUnlock(0);
  }

  /** q is p with the pop done. */
  ghost predicate Popped(p: Pool, q: Pool, t: Thread, node: Option<Node>, rest: seq<Node>) {
    && Same(p, q, t) && Inv(q.stack, rest) && At(q.stack, t) == Idle && q.stack.lock == None
    && if node.Some? then StageOf(q, t) == Unwrapping(node.value) && Owns(q.stack, t, node.value)
       else StageOf(q, t) == Creating
  }

  lemma PopLeaves(p: Pool, t: Thread, items: seq<Node>)
    requires Inv(p.stack, items) && PopReady(p.stack, t, items) && At(p.stack, t).PopLeave? && StageOf(p, t) == Popping
    ensures Perform(p, StackStep(t)).Some?
    ensures Popped(p, Perform(p, StackStep(t)).value, t, Coming(At(p.stack, t), items), Left(At(p.stack, t), items))
  {
    assert LocalOk(p.stack, t, At(p.stack, t));
    StepKeepsInv(p.stack, Go(t), items);
    hide Inv;
  }

  lemma {:induction false} Pops(p: Pool, t: Thread, n: Node, items: seq<Node>)
    returns (more: seq<Action>, q: Pool)
    requires Inv(p.stack, items) && PopReady(p.stack, t, items) && StageOf(p, t) == Popping
    ensures Alone(more, t, n) && RunFrom(p, more) == Some(q)
    ensures Popped(p, q, t, Coming(At(p.stack, t), items), Left(At(p.stack, t), items))
    decreases PopLeft(At(p.stack, t))
  {
    hide Inv, Advance, PopReady, Coming, Left, Perform, PopLeft, NextItems;
    if At(p.stack, t).PopLeave? {
      PopLeaves(p, t, items);
      q := Perform(p, StackStep(t)).value;
      more := [StackStep(t)];
      assert more[1..] == [];
    } else {
      PopStep(p, t, items);
      PopAdvances(p.stack, t, items);
      StepKeepsInv(p.stack, Go(t), items);
      var next := Perform(p, StackStep(t)).value;
      var rest;
      rest, q := Pops(next, t, n, NextItems(p.stack, Go(t), items));
      more := [StackStep(t)] + rest;
      assert more[1..] == rest;
    }
  }

  // ---------------------------------------------------------------- taking a handle

  /** The others have what they had, and are where they were. */
  ghost predicate OthersAside(p: Pool, q: Pool, t: Thread) {
    forall u: Thread :: u != t ==> HeldBy(q, u) == HeldBy(p, u) && StageOf(q, u) == StageOf(p, u)
  }

  /** t has the handle of the top node, which is no longer in the pool; or a new one, if the pool was empty. */
  ghost predicate HandedOut(p: Pool, q: Pool, t: Thread, items: seq<Node>) {
    && !q.fault && StageOf(q, t) == Outside && OthersAside(p, q, t)
    && q.destroyed == p.destroyed && q.value == p.value
    && if items == []
       then HeldBy(q, t) == HeldBy(p, t) + {p.created} && q.created == p.created + 1 && Inv(q.stack, [])
       else items[0] in p.value && HeldBy(q, t) == HeldBy(p, t) + {p.value[items[0]]} && q.created == p.created
            && Inv(q.stack, items[1..])
  }

  lemma OneAction(p: Pool, a: Action)
    requires Perform(p, a).Some?
    ensures RunFrom(p, [a]) == Perform(p, a)
  {
    hide Perform;
    assert [a][1..] == [];
  }

  lemma {:induction false} RunJoins(p: Pool, a: seq<Action>, b: seq<Action>)
    requires RunFrom(p, a).Some?
    ensures RunFrom(p, a + b) == RunFrom(RunFrom(p, a).value, b)
    decreases |a|
  {
    hide Perform;
    if a == [] {
      assert a + b == b;
    } else {
      assert (a + b)[0] == a[0] && (a + b)[1..] == a[1..] + b;
      RunJoins(Perform(p, a[0]).value, a[1..], b);
    }
  }

  lemma SetUpEnds(p: Pool, t: Thread, n: Node, h: Handle)
    requires StageOf(p, t) == SettingUp(h)
    ensures Perform(p, Proceed(t, true, n)).Some?
    ensures var q := Perform(p, Proceed(t, true, n)).value;
      && q.stack == p.stack && q.value == p.value && q.created == p.created && q.destroyed == p.destroyed && q.fault == p.fault
      && StageOf(q, t) == Outside && OthersAside(p, q, t) && HeldBy(q, t) == HeldBy(p, t) + {h}
  {
  }

  lemma NewIsMade(p: Pool, t: Thread, n: Node)
    requires StageOf(p, t) == Creating
    ensures Perform(p, Proceed(t, true, n)).Some?
    ensures var q := Perform(p, Proceed(t, true, n)).value;
      && q.stack == p.stack && q.value == p.value && q.created == p.created + 1 && q.destroyed == p.destroyed
      && q.fault == p.fault && StageOf(q, t) == SettingUp(p.created) && OthersAside(p, q, t) && HeldBy(q, t) == HeldBy(p, t)
  {
  }

  lemma ValueIsRead(p: Pool, t: Thread, n: Node, node: Node)
    requires StageOf(p, t) == Unwrapping(node) && node in p.value
    ensures Perform(p, Proceed(t, true, n)).Some?
    ensures var q := Perform(p, Proceed(t, true, n)).value;
      && q.stack == p.stack && q.value == p.value && q.created == p.created && q.destroyed == p.destroyed && q.fault == p.fault
      && StageOf(q, t) == Freeing(node, p.value[node]) && OthersAside(p, q, t) && HeldBy(q, t) == HeldBy(p, t)
  {
  }

  lemma NodeIsFreed(p: Pool, t: Thread, n: Node, node: Node, h: Handle, items: seq<Node>)
    requires StageOf(p, t) == Freeing(node, h) && Inv(p.stack, items) && At(p.stack, t) == Idle && Owns(p.stack, t, node)
    ensures Perform(p, Proceed(t, true, n)).Some?
    ensures var q := Perform(p, Proceed(t, true, n)).value;
      && Inv(q.stack, items) && q.value == p.value && q.created == p.created && q.destroyed == p.destroyed && q.fault == p.fault
      && StageOf(q, t) == SettingUp(h) && OthersAside(p, q, t) && HeldBy(q, t) == HeldBy(p, t)
  {
    StepKeepsInv(p.stack, StackMachine.Free(t, node), items);
    hide Inv;
  }

  /** Behind the pop of a node. */
  lemma FoundEnds(p: Pool, t: Thread, n: Node, node: Node, items: seq<Node>) returns (more: seq<Action>, q: Pool)
    requires StageOf(p, t) == Unwrapping(node) && node in p.value && Inv(p.stack, items)
    requires At(p.stack, t) == Idle && Owns(p.stack, t, node)
    ensures Alone(more, t, n) && RunFrom(p, more) == Some(q)
    ensures Inv(q.stack, items) && q.value == p.value && q.created == p.created && q.destroyed == p.destroyed && q.fault == p.fault
    ensures StageOf(q, t) == Outside && OthersAside(p, q, t) && HeldBy(q, t) == HeldBy(p, t) + {p.value[node]}
  {
    hide Inv, Perform;
    var a, h := Proceed(t, true, n), p.value[node];
    ValueIsRead(p, t, n, node);
    var p1 := Perform(p, a).value;
    NodeIsFreed(p1, t, n, node, h, items);
    var p2 := Perform(p1, a).value;
    SetUpEnds(p2, t, n, h);
    q := Perform(p2, a).value;
    more := [a, a, a];
    assert more[1..] == [a, a] && [a, a][1..] == [a];
    OneAction(p2, a);
  }

  /** Behind a pop that found nothing. */
  lemma NewEnds(p: Pool, t: Thread, n: Node) returns (more: seq<Action>, q: Pool)
    requires StageOf(p, t) == Creating
    ensures Alone(more, t, n) && RunFrom(p, more) == Some(q)
    ensures q.stack == p.stack && q.value == p.value && q.created == p.created + 1 && q.destroyed == p.destroyed
    ensures q.fault == p.fault && StageOf(q, t) == Outside && OthersAside(p, q, t)
    ensures HeldBy(q, t) == HeldBy(p, t) + {p.created}
  {
    hide Perform;
    var a := Proceed(t, true, n);
    NewIsMade(p, t, n);
    var p1 := Perform(p, a).value;
    SetUpEnds(p1, t, n, p.created);
    q := Perform(p1, a).value;
    more := [a, a];
    assert more[1..] == [a];
    OneAction(p1, a);
  }

  lemma PopBegins(p: Pool, t: Thread, items: seq<Node>)
    requires Inv(p.stack, items) && At(p.stack, t) == Idle && StageOf(p, t) == Outside && p.stack.lock == None
    ensures Perform(p, Acquire(t)).Some?
    ensures var q := Perform(p, Acquire(t)).value;
      && Same(p, q, t) && Inv(q.stack, items) && PopReady(q.stack, t, items) && StageOf(q, t) == Popping
      && Coming(At(q.stack, t), items) == (if items == [] then None else Some(items[0]))
      && Left(At(q.stack, t), items) == if items == [] then [] else items[1..]
  {
    StepKeepsInv(p.stack, CallPop(t), items);
    hide Inv;
  }

  lemma Acquires(p: Pool, t: Thread, n: Node, items: seq<Node>) returns (more: seq<Action>, q: Pool)
    requires !p.fault && Inv(p.stack, items) && At(p.stack, t) == Idle && StageOf(p, t) == Outside && p.stack.lock == None
    requires forall m :: m in items ==> m in p.value
    ensures Alone(more, t, n) && RunFrom(p, [Acquire(t)] + more) == Some(q) && HandedOut(p, q, t, items)
  {
    hide Inv, Perform, PopReady, Coming, Left, RunFrom, Alone;
    PopBegins(p, t, items);
    var p1 := Perform(p, Acquire(t)).value;
    OneAction(p, Acquire(t));
    var pop, p2 := Pops(p1, t, n, items);
    var rest;
    if items == [] {
      rest, q := NewEnds(p2, t, n);
    } else {
      rest, q := FoundEnds(p2, t, n, items[0], items[1..]);
    }
    RunJoins(p1, pop, rest);
    more := pop + rest;
    RunJoins(p, [Acquire(t)], more);
    AloneJoins(pop, rest, t, n);
    assert HandedOut(p, q, t, items);
  }

  lemma AloneJoins(a: seq<Action>, b: seq<Action>, t: Thread, n: Node)
    requires Alone(a, t, n) && Alone(b, t, n)
    ensures Alone(a + b, t, n)
  {
  }

  // ---------------------------------------------------------------- returning a handle

  /** t has the lock for its push of n, or can take it at once. */
  predicate PushReady(s: StackMachine.State, t: Thread, n: Node) {
    IsPushOf(At(s, t), n) && (Holds(At(s, t)) || s.lock == None)
  }

  function PushLeft(l: Local): nat {
    match l
    case PushLock(_) => 6
    case PushRead(_) => 5
    case PushLink(_, _) => 4
    case PushHead(_) => 3
    case PushCount(_) => 2
    case PushStore(_, _) => 1
    case _ => 0
  }

  /** The stack when the push is done, if nobody else moves. */
  function Pushed(l: Local, n: Node, items: seq<Node>): seq<Node> {
    if NodeInHand(l) == Some(n) then [n] + items else items
  }

  lemma PushAdvances(s: StackMachine.State, t: Thread, n: Node, items: seq<Node>)
    requires PushReady(s, t, n) && !At(s, t).PushUnlock?
    ensures Advance(s, t).Some?
    ensures var s', rest := Advance(s, t).value, NextItems(s, Go(t), items);
      && PushReady(s', t, n) && PushLeft(At(s', t)) < PushLeft(At(s, t))
      && Pushed(At(s', t), n, rest) == Pushed(At(s, t), n, items)
  {
  }

  lemma PushStep(p: Pool, t: Thread, n: Node)
    requires PushReady(p.stack, t, n) && !At(p.stack, t).PushUnlock? && StageOf(p, t) == Shelving(n)
    ensures Perform(p, StackStep(t)).Some?
    ensures var q := Perform(p, StackStep(t)).value;
      Some(q.stack) == Advance(p.stack, t) && Same(p, q, t) && StageOf(q, t) == Shelving(n)
  {
    PushAdvances(p.stack, t, n, []);
    hide Advance, PushReady, Pushed;
    assert !At(p.stack, t).PopLeave? by { PushIsNoPop(p.stack, t, n); }
  }

  lemma PushIsNoPop(s: StackMachine.State, t: Thread, n: Node)
    requires PushReady(s, t, n)
    ensures !At(s, t).PopLeave?
  {
  }

  lemma PushUnlocks(p: Pool, t: Thread, n: Node, items: seq<Node>)
    requires Inv(p.stack, items) && PushReady(p.stack, t, n) && At(p.stack, t).PushUnlock? && StageOf(p, t) == Shelving(n)
    ensures Perform(p, StackStep(t)).Some?
    ensures var q := Perform(p, StackStep(t)).value; Same(p, q, t) && Inv(q.stack, items) && StageOf(q, t) == Outside
  {
    StepKeepsInv(p.stack, Go(t), items);
    hide Inv;
  }

  lemma {:induction false} Pushes(p: Pool, t: Thread, n: Node, items: seq<Node>) returns (more: seq<Action>, q: Pool)
    requires Inv(p.stack, items) && PushReady(p.stack, t, n) && StageOf(p, t) == Shelving(n)
    ensures Alone(more, t, n) && RunFrom(p, more) == Some(q)
    ensures Same(p, q, t) && Inv(q.stack, Pushed(At(p.stack, t), n, items)) && StageOf(q, t) == Outside
    decreases PushLeft(At(p.stack, t))
  {
    if At(p.stack, t).PushUnlock? {
      hide Inv, Perform;
      PushUnlocks(p, t, n, items);
      q := Perform(p, StackStep(t)).value;
      more := [StackStep(t)];
      OneAction(p, StackStep(t));
    } else {
      hide Inv, Advance, PushReady, Pushed, Perform, PushLeft, NextItems;
      PushStep(p, t, n);
      PushAdvances(p.stack, t, n, items);
      StepKeepsInv(p.stack, Go(t), items);
      var next := Perform(p, StackStep(t)).value;
      var rest;
      rest, q := Pushes(next, t, n, NextItems(p.stack, Go(t), items));
      more := [StackStep(t)] + rest;
      assert more[1..] == rest;
    }
  }

  /** The handle is on top of the pool, in the node n, and no longer t's. */
  ghost predicate TakenBack(p: Pool, q: Pool, t: Thread, h: Handle, n: Node, items: seq<Node>) {
    && !q.fault && StageOf(q, t) == Outside && OthersAside(p, q, t)
    && q.destroyed == p.destroyed && q.created == p.created && HeldBy(q, t) == HeldBy(p, t) - {h}
    && Inv(q.stack, [n] + items) && q.value == p.value[n := h]
  }

  lemma ReleaseBegins(p: Pool, t: Thread, h: Handle)
    requires StageOf(p, t) == Outside && h in HeldBy(p, t)
    ensures Perform(p, Release(t, h)).Some?
    ensures var q := Perform(p, Release(t, h)).value;
      && q.stack == p.stack && q.value == p.value && q.created == p.created && q.destroyed == p.destroyed && q.fault == p.fault
      && StageOf(q, t) == Wrapping(h) && OthersAside(p, q, t) && HeldBy(q, t) == HeldBy(p, t) - {h}
  {
  }

  lemma NodeIsMade(p: Pool, t: Thread, h: Handle, n: Node, items: seq<Node>)
    requires Inv(p.stack, items) && At(p.stack, t) == Idle && StageOf(p, t) == Wrapping(h) && n !in p.stack.next
    ensures Perform(p, Proceed(t, true, n)).Some?
    ensures var q := Perform(p, Proceed(t, true, n)).value;
      && Inv(q.stack, items) && At(q.stack, t) == Idle && Owns(q.stack, t, n) && q.stack.lock == p.stack.lock
      && q.value == p.value && q.created == p.created && q.destroyed == p.destroyed && q.fault == p.fault
      && StageOf(q, t) == Storing(n, h) && OthersAside(p, q, t) && HeldBy(q, t) == HeldBy(p, t)
  {
    StepKeepsInv(p.stack, Malloc(t, n), items);
    hide Inv;
  }

  lemma ValueIsStored(p: Pool, t: Thread, h: Handle, n: Node, items: seq<Node>)
    requires Inv(p.stack, items) && At(p.stack, t) == Idle && Owns(p.stack, t, n) && p.stack.lock == None
    requires StageOf(p, t) == Storing(n, h)
    ensures Perform(p, Proceed(t, true, n)).Some?
    ensures var q := Perform(p, Proceed(t, true, n)).value;
      && Inv(q.stack, items) && PushReady(q.stack, t, n) && Pushed(At(q.stack, t), n, items) == [n] + items
      && q.value == p.value[n := h] && q.created == p.created && q.destroyed == p.destroyed && q.fault == p.fault
      && StageOf(q, t) == Shelving(n) && OthersAside(p, q, t) && HeldBy(q, t) == HeldBy(p, t)
  {
    StepKeepsInv(p.stack, CallPush(t, n), items);
    hide Inv;
  }

  lemma Releases(p: Pool, t: Thread, h: Handle, n: Node, items: seq<Node>) returns (more: seq<Action>, q: Pool)
    requires !p.fault && Inv(p.stack, items) && At(p.stack, t) == Idle && StageOf(p, t) == Outside && p.stack.lock == None
    requires h in HeldBy(p, t) && n !in p.stack.next
    ensures Alone(more, t, n) && RunFrom(p, [Release(t, h)] + more) == Some(q) && TakenBack(p, q, t, h, n, items)
  {
    hide Inv, PushReady, Pushed, RunFrom, Alone, Perform, HeldBy;
    var a := Proceed(t, true, n);
    ReleaseBegins(p, t, h);
    OneAction(p, Release(t, h));
    var p1 := Perform(p, Release(t, h)).value;
    NodeIsMade(p1, t, h, n, items);
    OneAction(p1, a);
    var p2 := Perform(p1, a).value;
    ValueIsStored(p2, t, h, n, items);
    OneAction(p2, a);
    var p3 := Perform(p2, a).value;
    var push;
    push, q := Pushes(p3, t, n, items);
    SameHeld(p3, q, t);
    RunJoins(p2, [a], push);
    RunJoins(p1, [a], [a] + push);
    more := [a] + ([a] + push);
    RunJoins(p, [Release(t, h)], more);
    OneAlone(t, n);
    AloneJoins([a], push, t, n);
    AloneJoins([a], [a] + push, t, n);
  }

  lemma SameHeld(p: Pool, q: Pool, t: Thread)
    requires Same(p, q, t)
    ensures OthersAside(p, q, t) && HeldBy(q, t) == HeldBy(p, t)
  {
  }

  lemma OneAlone(t: Thread, n: Node)
    ensures Alone([Proceed(t, true, n)], t, n)
  {
  }

  // ---------------------------------------------------------------- what every such run comes to

  /** Behind this call t alone, with everything it does succeeding, has come back. */
  ghost predicate ComesBack(before: seq<Action>, call: Action, more: seq<Action>, n: Node) {
    && Alone(more, call.t, n) && PoolRun(before + [call] + more).Some?
    && StageOf(PoolRun(before + [call] + more).value, call.t) == Outside
  }

  lemma BackAtOnce(before: seq<Action>, call: Action, more: seq<Action>, n: Node, any: seq<Action>)
    requires PoolRun(before).Some? && ComesBack(before, call, more, n) && ComesBack(before, call, any, n)
    ensures PoolRun(before + [call] + any) == PoolRun(before + [call] + more)
  {
    hide Perform;
    if PoolRun(before + [call]).None? {
      NoRunGoesOn(before + [call], more);
      assert false;
    }
    RunGoesOn(before + [call], more);
    RunGoesOn(before + [call], any);
    hide PoolRun;
    SameEnd(PoolRun(before + [call]).value, more, any, call.t, n);
  }

  lemma CallThenMore(before: seq<Action>, call: Action, more: seq<Action>)
    requires PoolRun(before).Some?
    ensures PoolRun(before + [call] + more) == RunFrom(PoolRun(before).value, [call] + more)
  {
    hide *;
    assert before + [call] + more == before + ([call] + more);
    RunGoesOn(before, [call] + more);
  }

  /**
   * From any reachable state in which the stack's lock is free, a thread outside that calls curl_easy_init_common, with
   * nothing failing and the others standing still, comes back, and every way of coming back hands out the top handle of
   * the pool, or a new one when there is none.
   */
  lemma AcquireHandsOut(before: seq<Action>, t: Thread, n: Node)
    requires PoolRun(before).Some?
    requires StageOf(PoolRun(before).value, t) == Outside && PoolRun(before).value.stack.lock == None
    ensures exists more :: ComesBack(before, Acquire(t), more, n)
    ensures forall more :: ComesBack(before, Acquire(t), more, n) ==>
      HandedOut(PoolRun(before).value, PoolRun(before + [Acquire(t)] + more).value, t, PoolItemsAfter(before))
  {
    var p, items := PoolRun(before).value, PoolItemsAfter(before);
    HandlesConserved(before);
    OfThread(p, t, items, PlaceAfter(before));
    assert forall m :: m in items ==> m in p.value;
    hide PoolRun, PoolItemsAfter, PlaceAfter, PoolInv, Inv, HandedOut, RunFrom;
    var more, q := Acquires(p, t, n, items);
    CallThenMore(before, Acquire(t), more);
    HandedOutside(p, q, t, items);
    assert ComesBack(before, Acquire(t), more, n);
    forall any | ComesBack(before, Acquire(t), any, n)
      ensures HandedOut(p, PoolRun(before + [Acquire(t)] + any).value, t, items)
    {
      BackAtOnce(before, Acquire(t), more, n, any);
    }
  }

  lemma HandedOutside(p: Pool, q: Pool, t: Thread, items: seq<Node>)
    requires HandedOut(p, q, t, items)
    ensures StageOf(q, t) == Outside
  {
  }

  /** The same of curl_easy_cleanup_common on a handle in hand, with a node n from malloc: it is on top of the pool then. */
  lemma ReleasePutsBack(before: seq<Action>, t: Thread, h: Handle, n: Node)
    requires PoolRun(before).Some?
    requires StageOf(PoolRun(before).value, t) == Outside && PoolRun(before).value.stack.lock == None
    requires h in HeldBy(PoolRun(before).value, t) && n !in PoolRun(before).value.stack.next
    ensures exists more :: ComesBack(before, Release(t, h), more, n)
    ensures forall more :: ComesBack(before, Release(t, h), more, n) ==>
      TakenBack(PoolRun(before).value, PoolRun(before + [Release(t, h)] + more).value, t, h, n, PoolItemsAfter(before))
  {
    var p, items := PoolRun(before).value, PoolItemsAfter(before);
    HandlesConserved(before);
    OfThread(p, t, items, PlaceAfter(before));
    hide PoolRun, PoolItemsAfter, PlaceAfter, PoolInv, Inv, TakenBack, RunFrom;
    var more, q := Releases(p, t, h, n, items);
    CallThenMore(before, Release(t, h), more);
    assert StageOf(q, t) == Outside by { TakenOutside(p, q, t, h, n, items); }
    assert ComesBack(before, Release(t, h), more, n);
    forall any | ComesBack(before, Release(t, h), any, n)
      ensures TakenBack(p, PoolRun(before + [Release(t, h)] + any).value, t, h, n, items)
    {
      BackAtOnce(before, Release(t, h), more, n, any);
    }
  }

  lemma TakenOutside(p: Pool, q: Pool, t: Thread, h: Handle, n: Node, items: seq<Node>)
    requires TakenBack(p, q, t, h, n, items)
    ensures StageOf(q, t) == Outside
  {
  }

  // ---------------------------------------------------------------- which handles are destroyed

  /** Setting up has raised, or no node could be allocated for a handle that is returned. */
  predicate Refused(p: Pool, a: Action) {
    a.Proceed? && !a.ok && (StageOf(p, a.t).SettingUp? || StageOf(p, a.t).Wrapping?)
  }

  function One(b: bool): nat {
    if b then 1 else 0
  }

  function Refusals(actions: seq<Action>): nat
    decreases |actions|
  {
    if actions == [] then 0
    else
      var before := actions[..|actions| - 1];
      var p := PoolRun(before);
      Refusals(before) + One(p.Some? && Refused(p.value, actions[|actions| - 1]))
  }

  /** The threads that are about to destroy a handle. */
  function Doomed(p: Pool): set<Thread> {
    set t | t in p.stages && p.stages[t].Destroying?
  }

  lemma DoomedIs(p: Pool, t: Thread)
    ensures t in Doomed(p) <==> StageOf(p, t).Destroying?
  {
  }

  lemma GotoDoomed(p: Pool, q: Pool, t: Thread, s: Stage)
    requires q.stages == p.stages[t := s]
    ensures |Doomed(q)| == |Doomed(p)| - One(StageOf(p, t).Destroying?) + One(s.Destroying?)
  {
    hide StageOf;
    assert t in Doomed(p) <==> StageOf(p, t).Destroying? by { DoomedIs(p, t); }
    var others := Doomed(p) - {t};
    assert Doomed(q) == if s.Destroying? then others + {t} else others;
    assert Doomed(p) == if StageOf(p, t).Destroying? then others + {t} else others;
  }

  lemma StayDoomed(p: Pool, q: Pool)
    requires q.stages == p.stages
    ensures Doomed(q) == Doomed(p)
  {
  }

  lemma WorkCounts(p: Pool, t: Thread, ok: bool, n: Node)
    requires Work(p, t, ok, n).Some?
    ensures var q := Work(p, t, ok, n).value;
      |q.destroyed| + |Doomed(q)| == |p.destroyed| + |Doomed(p)| + One(Refused(p, Proceed(t, ok, n)))
  {
    hide Work, Doomed, Refused;
    WorkMoves(p, t, ok, n);
    var q := Work(p, t, ok, n).value;
    if q == p.(fault := true) {
      StayDoomed(p, q);
    } else {
      GotoDoomed(p, q, t, StageOf(q, t));
    }
  }

  /** q is p with t at its next stage, and a handle more destroyed if t was to destroy one. */
  predicate Moves(p: Pool, q: Pool, t: Thread, refused: bool) {
    if q == p.(fault := true) then !refused
    else
      && q.stages == p.stages[t := StageOf(q, t)]
      && |q.destroyed| == |p.destroyed| + One(StageOf(p, t).Destroying?)
      && StageOf(q, t).Destroying? == refused
  }

  lemma WorkMoves(p: Pool, t: Thread, ok: bool, n: Node)
    requires Work(p, t, ok, n).Some?
    ensures Moves(p, Work(p, t, ok, n).value, t, Refused(p, Proceed(t, ok, n)))
  {
    hide Step, HeldBy, Moves;
    var s := StageOf(p, t);
    if s.Unwrapping? || s.Freeing? || s.Creating? {
      TakingMoves(p, t, ok, n);
    } else {
      GivingMoves(p, t, ok, n);
    }
  }

  lemma TakingMoves(p: Pool, t: Thread, ok: bool, n: Node)
    requires Work(p, t, ok, n).Some? && (StageOf(p, t).Unwrapping? || StageOf(p, t).Freeing? || StageOf(p, t).Creating?)
    ensures Moves(p, Work(p, t, ok, n).value, t, Refused(p, Proceed(t, ok, n)))
  {
    hide Step, HeldBy;
  }

  lemma GivingMoves(p: Pool, t: Thread, ok: bool, n: Node)
    requires Work(p, t, ok, n).Some? && !StageOf(p, t).Unwrapping? && !StageOf(p, t).Freeing? && !StageOf(p, t).Creating?
    ensures Moves(p, Work(p, t, ok, n).value, t, Refused(p, Proceed(t, ok, n)))
  {
    hide Step, HeldBy;
  }

  lemma StackStepCounts(p: Pool, t: Thread)
    requires StepStack(p, t).Some?
    ensures var q := StepStack(p, t).value; |q.destroyed| + |Doomed(q)| == |p.destroyed| + |Doomed(p)|
  {
    hide Step, Doomed;
    var q := StepStack(p, t).value;
    if At(p.stack, t).PushUnlock? || At(p.stack, t).PopLeave? {
      GotoDoomed(p, q, t, StageOf(q, t));
    } else {
      StayDoomed(p, q);
    }
  }

  lemma ActionCounts(p: Pool, a: Action)
    requires Perform(p, a).Some?
    ensures var q := Perform(p, a).value;
      |q.destroyed| + |Doomed(q)| == |p.destroyed| + |Doomed(p)| + One(Refused(p, a))
  {
    hide Step, Doomed, Work, StepStack;
    match a
    case Acquire(t) => GotoDoomed(p, Perform(p, a).value, t, Popping);
    case Release(t, h) => GotoDoomed(p, Perform(p, a).value, t, Wrapping(h));
    case StackStep(t) => StackStepCounts(p, t);
    case Proceed(t, ok, n) => WorkCounts(p, t, ok, n);
  }

  /** The handles destroyed, and those about to be, are as many as the set-ups that raised and the nodes refused. */
  lemma {:induction false} RefusalsCounted(actions: seq<Action>)
    requires PoolRun(actions).Some?
    ensures |PoolRun(actions).value.destroyed| + |Doomed(PoolRun(actions).value)| == Refusals(actions)
    decreases |actions|
  {
    if actions != [] {
      var before := actions[..|actions| - 1];
      RefusalsCounted(before);
      ActionCounts(PoolRun(before).value, actions[|actions| - 1]);
    }
    hide Perform, Refused;
  }
}
