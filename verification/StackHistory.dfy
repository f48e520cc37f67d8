/** What the clients of the stack see: every run can be explained by an atomic last-in first-out stack. */
module StackHistory {
  import opened Options
  import opened StackMachine

  datatype Op = Push(node: Node) | Pop

  /** What can be seen of an operation, and the instant at which it takes effect. */
  datatype Event =
    | Called(t: Thread, op: Op)
    | Effect(t: Thread, op: Op, res: Option<Node>)
    | Returned(t: Thread, op: Op, res: Option<Node>)

  /** The calls and returns a client sees. */
  function Visible(s: State, m: Move): seq<Event> {
    match m
    case CallPush(t, n) => [Called(t, Push(n))]
    case CallPop(t) => [Called(t, Pop)]
    case Go(t) =>
      (match At(s, t)
       case PushUnlock(n) => [Returned(t, Push(n), None)]
       case PopLeave(_, res) => [Returned(t, Pop, res)]
       case _ => [])
    case _ => []
  }

  /** Where operations take effect: at the write of this->next, or at the read of it that finds it null. */
  function Effects(s: State, m: Move): seq<Event> {
    if m.Go? then
      match At(s, m.t)
      case PushHead(n) => [Effect(m.t, Push(n), None)]
      case PopHead(res, _) => [Effect(m.t, Pop, res)]
      case PopLook(_) => if s.head == None then [Effect(m.t, Pop, None)] else []
      case _ => []
    else []
  }

  /** What a client sees of a run. */
  function History(moves: seq<Move>): seq<Event>
    decreases |moves|
  {
    if moves == [] then []
    else
      var init := moves[..|moves| - 1];
      var s := Run(INITIAL, init);
      if s.None? then [] else History(init) + Visible(s.value, moves[|moves| - 1])
  }

  function FullHistory(moves: seq<Move>): seq<Event>
    decreases |moves|
  {
    if moves == [] then []
    else
      var init := moves[..|moves| - 1];
      var s := Run(INITIAL, init);
      if s.None? then []
      else FullHistory(init) + Events(s.value, moves[|moves| - 1])
  }

  function WithoutEffects(h: seq<Event>): seq<Event> {
    if h == [] then []
    else WithoutEffects(h[..|h| - 1]) + if h[|h| - 1].Effect? then [] else [h[|h| - 1]]
  }

  /** What one event does to an atomic stack; None if its result is wrong. */
  function Atomically(items: seq<Node>, e: Event): Option<seq<Node>> {
    match e
    case Effect(_, Push(n), _) => Some([n] + items)
    case Effect(_, Pop, res) =>
      if items == [] then (if res == None then Some(items) else None)
      else if res == Some(items[0]) then Some(items[1..]) else None
    case _ => Some(items)
  }

  function AtomicStack(h: seq<Event>): Option<seq<Node>> {
    if h == [] then Some([])
    else
      var items := AtomicStack(h[..|h| - 1]);
      if items.None? then None else Atomically(items.value, h[|h| - 1])
  }

  /** How far a thread is with its operation. */
  datatype Phase = Outside | Waiting(op: Op) | Done(op: Op, res: Option<Node>)

  /** Called, then one effect, then returned with the result of the effect. */
  function NextPhase(p: Phase, e: Event): Option<Phase> {
    match e
    case Called(_, op) => if p == Outside then Some(Waiting(op)) else None
    case Effect(_, op, res) => if p == Waiting(op) then Some(Done(op, res)) else None
    case Returned(_, op, res) => if p == Done(op, res) then Some(Outside) else None
  }

  /** Follow one thread's events. */
  function Follow(h: seq<Event>, t: Thread): Option<Phase> {
    if h == [] then Some(Outside)
    else
      var p := Follow(h[..|h| - 1], t);
      if p.None? || h[|h| - 1].t != t then p else NextPhase(p.value, h[|h| - 1])
  }

  /** h can be explained by an atomic stack: each operation has one effect between its call and its return. */
  ghost predicate Linearizable(h: seq<Event>) {
    exists full: seq<Event> ::
      && WithoutEffects(full) == h
      && AtomicStack(full).Some?
      && forall t: Thread :: Follow(full, t).Some?
  }

  function PhaseOf(l: Local): Phase {
    match l
    case Idle => Outside
    case PushLock(n) => Waiting(Push(n))
    case PushRead(n) => Waiting(Push(n))
    case PushLink(n, _) => Waiting(Push(n))
    case PushHead(n) => Waiting(Push(n))
    case PushCount(n) => Done(Push(n), None)
    case PushStore(n, _) => Done(Push(n), None)
    case PushUnlock(n) => Done(Push(n), None)
    case PopClear(res) => Done(Pop, res)
    case PopCount(res) => Done(Pop, res)
    case PopStore(res, _) => Done(Pop, res)
    case PopLeave(_, res) => Done(Pop, res)
    case _ => Waiting(Pop)
  }

  function Events(s: State, m: Move): seq<Event> {
    Effects(s, m) + Visible(s, m)
  }

  lemma SilentMove(s: State, m: Move, items: seq<Node>)
    requires Inv(s, items) && Step(s, m).Some? && Events(s, m) == []
    ensures NextItems(s, m, items) == items
    ensures PhaseOf(At(Step(s, m).value, m.t)) == PhaseOf(At(s, m.t))
  {
    hide Inv;
  }

  /** A move with an event: the event acts on the abstract stack, and the thread's phase goes on. */
  lemma LoudMove(s: State, m: Move, items: seq<Node>)
    requires Inv(s, items) && Step(s, m).Some? && Events(s, m) != []
    ensures OneEvent(s, m, items)
  {
    ChainHead(s, items);
    assert LocalOk(s, m.t, At(s, m.t));
    hide Inv, IsChain, Owns;
    if m.Go? {
      if Pushing(At(s, m.t)) {
        LoudPush(s, m.t, items);
      } else {
        LoudPop(s, m.t, items);
      }
    }
  }

  ghost predicate OneEvent(s: State, m: Move, items: seq<Node>)
    requires Step(s, m).Some?
  {
    && |Events(s, m)| == 1
    && var e := Events(s, m)[0];
    && e.t == m.t
    && Atomically(items, e) == Some(NextItems(s, m, items))
    && NextPhase(PhaseOf(At(s, m.t)), e) == Some(PhaseOf(At(Step(s, m).value, m.t)))
    && (e.Effect? <==> Effects(s, m) != [])
  }

  lemma LoudPush(s: State, t: Thread, items: seq<Node>)
    requires Pushing(At(s, t)) && Step(s, Go(t)).Some? && Events(s, Go(t)) != []
    ensures OneEvent(s, Go(t), items)
  {
    assert At(s, t).PushHead? || At(s, t).PushUnlock?;
  }

  lemma LoudPop(s: State, t: Thread, items: seq<Node>)
    requires !Pushing(At(s, t)) && Step(s, Go(t)).Some? && Events(s, Go(t)) != []
    requires (s.head.Some? <==> items != []) && (items != [] ==> s.head == Some(items[0]))
    requires LocalOk(s, t, At(s, t))
    ensures OneEvent(s, Go(t), items)
  {
    assert At(s, t).PopLook? || At(s, t).PopHead? || At(s, t).PopLeave?;
  }

  lemma WithoutEffectsLast(h: seq<Event>, e: Event)
    ensures WithoutEffects(h + [e]) == WithoutEffects(h) + if e.Effect? then [] else [e]
  {
    assert (h + [e])[..|h|] == h;
  }

  lemma MoveExplained(s: State, m: Move, items: seq<Node>, full: seq<Event>)
    requires Inv(s, items) && Step(s, m).Some?
    requires AtomicStack(full) == Some(items)
    requires forall t: Thread :: Follow(full, t) == Some(PhaseOf(At(s, t)))
    ensures WithoutEffects(full + Events(s, m)) == WithoutEffects(full) + Visible(s, m)
    ensures AtomicStack(full + Events(s, m)) == Some(NextItems(s, m, items))
    ensures forall t: Thread :: Follow(full + Events(s, m), t) == Some(PhaseOf(At(Step(s, m).value, t)))
  {
    if Events(s, m) == [] {
      SilentMove(s, m, items);
      assert full + Events(s, m) == full;
    } else {
      LoudMove(s, m, items);
      var e := Events(s, m)[0];
      assert Events(s, m) == [e];
      WithoutEffectsLast(full, e);
      AtomicStackLast(full, e);
    }
    forall t: Thread
      ensures Follow(full + Events(s, m), t) == Some(PhaseOf(At(Step(s, m).value, t)))
    {
      PhaseExplained(s, m, items, full, t);
    }
  }

  lemma AtomicStackLast(h: seq<Event>, e: Event)
    requires AtomicStack(h).Some?
    ensures AtomicStack(h + [e]) == Atomically(AtomicStack(h).value, e)
  {
    assert (h + [e])[..|h|] == h;
  }

  lemma FollowLast(h: seq<Event>, e: Event, t: Thread)
    requires Follow(h, t).Some?
    ensures Follow(h + [e], t) == if e.t == t then NextPhase(Follow(h, t).value, e) else Follow(h, t)
  {
    assert (h + [e])[..|h|] == h;
  }

  lemma PhaseExplained(s: State, m: Move, items: seq<Node>, full: seq<Event>, t: Thread)
    requires Inv(s, items) && Step(s, m).Some?
    requires Follow(full, t) == Some(PhaseOf(At(s, t)))
    ensures Follow(full + Events(s, m), t) == Some(PhaseOf(At(Step(s, m).value, t)))
  {
    if t != m.t {
      OthersStay(s, m, t);
    }
    if Events(s, m) == [] {
      SilentMove(s, m, items);
      assert full + Events(s, m) == full;
    } else {
      LoudMove(s, m, items);
      var e := Events(s, m)[0];
      assert Events(s, m) == [e];
      FollowLast(full, e, t);
    }
  }

  lemma {:induction false} RunExplained(moves: seq<Move>)
    requires Run(INITIAL, moves).Some?
    ensures WithoutEffects(FullHistory(moves)) == History(moves)
    ensures AtomicStack(FullHistory(moves)) == Some(ItemsAfter(moves))
    ensures forall t: Thread :: Follow(FullHistory(moves), t) == Some(PhaseOf(At(Run(INITIAL, moves).value, t)))
    decreases |moves|
  {
    if moves != [] {
      var init := moves[..|moves| - 1];
      RunExplained(init);
      RunKeepsInv(init);
      MoveExplained(Run(INITIAL, init).value, moves[|moves| - 1], ItemsAfter(init), FullHistory(init));
    }
  }

  /** Every run of any number of threads looks to its clients like a run of an atomic last-in first-out stack. */
  lemma StackLinearizable(moves: seq<Move>)
    requires Run(INITIAL, moves).Some?
    ensures Linearizable(History(moves))
  {
    RunExplained(moves);
  }
}
