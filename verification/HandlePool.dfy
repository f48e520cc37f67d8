/** curl_easy_init_common and curl_easy_cleanup_common over the shared stack: who has each CURL handle. */
module HandlePool {
  import opened Options
  import opened StackMachine

  type Handle = nat

  /** Where a thread is in the two functions. */
  datatype Stage =
    | Outside
    // curl_easy_init_common
    | Popping                            // Stack_pop is running
    | Unwrapping(node: Node)             // this = node->value
    | Freeing(node: Node, h: Handle)     // free(node)
    | Creating                           // curl_easy_init
    | SettingUp(h: Handle)               // the options are set, and any of them may raise
    | Destroying(h: Handle)              // curl_easy_cleanup
    // curl_easy_cleanup_common
    | Wrapping(h: Handle)                // malloc_t(LinkedList)
    | Storing(node: Node, h: Handle)     // node->value = this
    | Shelving(node: Node)               // Stack_push is running

  datatype Pool = Pool(
    stack: State, value: map<Node, Handle>, created: nat, destroyed: seq<Handle>,
    held: map<Thread, set<Handle>>, stages: map<Thread, Stage>, fault: bool)

  const EMPTY_POOL := Pool(INITIAL, map[], 0, [], map[], map[], false)

  function StageOf(p: Pool, t: Thread): Stage {
    if t in p.stages then p.stages[t] else Outside
  }

  function HeldBy(p: Pool, t: Thread): set<Handle> {
    if t in p.held then p.held[t] else {}
  }

  function Goto(p: Pool, t: Thread, s: Stage): Pool {
    p.(stages := p.stages[t := s])
  }

  datatype Action =
    | Acquire(t: Thread)                         // curl_easy_init_common is called
    | Release(t: Thread, h: Handle)              // curl_easy_cleanup_common is called on a handle in hand
    | StackStep(t: Thread)                       // the running stack operation takes a step
    | Proceed(t: Thread, ok: bool, node: Node)   // the next statement; ok and node are what it is given

  function Perform(p: Pool, a: Action): Option<Pool> {
    match a
    case Acquire(t) =>
      var s := Step(p.stack, CallPop(t));
      if StageOf(p, t) == Outside && s.Some? then Some(Goto(p.(stack := s.value), t, Popping)) else None
    case Release(t, h) =>
      if StageOf(p, t) == Outside && h in HeldBy(p, t)
      then Some(Goto(p.(held := p.held[t := HeldBy(p, t) - {h}]), t, Wrapping(h))) else None
    case StackStep(t) => StepStack(p, t)
    case Proceed(t, ok, n) => Work(p, t, ok, n)
  }

  function StepStack(p: Pool, t: Thread): Option<Pool> {
    var s := Step(p.stack, Go(t));
    if s.None? || !(StageOf(p, t).Popping? || StageOf(p, t).Shelving?) then None
    else
      var q := p.(stack := s.value);
      match At(p.stack, t)
      case PushUnlock(_) => Some(Goto(q, t, Outside))
      case PopLeave(_, res) => Some(Goto(q, t, if res.Some? then Unwrapping(res.value) else Creating))
      case _ => Some(q)
  }

  function Work(p: Pool, t: Thread, ok: bool, n: Node): Option<Pool> {
    match StageOf(p, t)
    case Unwrapping(node) =>
      if node in p.value then Some(Goto(p, t, Freeing(node, p.value[node]))) else Some(p.(fault := true))
    case Freeing(node, h) =>
      var s := Step(p.stack, Free(t, node));
      if s.Some? then Some(Goto(p.(stack := s.value), t, SettingUp(h))) else Some(p.(fault := true))
    case Creating =>
      if ok then Some(Goto(p.(created := p.created + 1), t, SettingUp(p.created))) else Some(Goto(p, t, Outside))
    case SettingUp(h) =>
      if ok then Some(Goto(p.(held := p.held[t := HeldBy(p, t) + {h}]), t, Outside))
      else Some(Goto(p, t, Destroying(h)))
    case Destroying(h) => Some(Goto(p.(destroyed := p.destroyed + [h]), t, Outside))
    case Wrapping(h) =>
      if !ok then Some(Goto(p, t, Destroying(h)))
      else
        var s := Step(p.stack, Malloc(t, n));
        if s.Some? then Some(Goto(p.(stack := s.value), t, Storing(n, h))) else None
    case Storing(node, h) =>
      var s := Step(p.stack, CallPush(t, node));
      if s.Some? then Some(Goto(p.(stack := s.value, value := p.value[node := h]), t, Shelving(node)))
      else Some(p.(fault := true))
    case _ => None
  }

  function PoolRun(actions: seq<Action>): Option<Pool>
    decreases |actions|
  {
    if actions == [] then Some(EMPTY_POOL)
    else
      var p := PoolRun(actions[..|actions| - 1]);
      if p.None? then None else Perform(p.value, actions[|actions| - 1])
  }

  // ---------------------------------------------------------------- where a handle is

  datatype Place = Pooled(node: Node) | With(t: Thread) | Gone

  /** A node that t's running stack operation has in hand: not yet pushed, or already popped. */
  function NodeInHand(l: Local): Option<Node> {
    match l
    case PushLock(n) => Some(n)
    case PushRead(n) => Some(n)
    case PushLink(n, _) => Some(n)
    case PushHead(n) => Some(n)
    case PopClear(res) => res
    case PopCount(res) => res
    case PopStore(res, _) => res
    case PopLeave(_, res) => res
    case _ => None
  }

  /** The handle t is working on, if any: in its own variables, or in a node it has in hand. */
  function Working(p: Pool, t: Thread): Option<Handle> {
    match StageOf(p, t)
    case Outside => None
    case Popping => InNode(p, NodeInHand(At(p.stack, t)))
    case Unwrapping(n) => InNode(p, Some(n))
    case Freeing(_, h) => Some(h)
    case Creating => None
    case SettingUp(h) => Some(h)
    case Destroying(h) => Some(h)
    case Wrapping(h) => Some(h)
    case Storing(_, h) => Some(h)
    case Shelving(n) => InNode(p, NodeInHand(At(p.stack, t)))
  }

  function InNode(p: Pool, n: Option<Node>): Option<Handle> {
    if n.Some? && n.value in p.value then Some(p.value[n.value]) else None
  }

  predicate Has(p: Pool, t: Thread, h: Handle) {
    h in HeldBy(p, t) || Working(p, t) == Some(h)
  }

  predicate IsPop(l: Local) {
    l.PopTry? || l.PopLook? || l.PopTake? || l.PopFollow? || l.PopHead? || l.PopClear? || l.PopCount? || l.PopStore?
    || l.PopLeave?
  }

  predicate IsPushOf(l: Local, n: Node) {
    match l
    case PushLock(m) => m == n
    case PushRead(m) => m == n
    case PushLink(m, _) => m == n
    case PushHead(m) => m == n
    case PushCount(m) => m == n
    case PushStore(m, _) => m == n
    case PushUnlock(m) => m == n
    case _ => false
  }

  ghost predicate StageOk(p: Pool, t: Thread) {
    match StageOf(p, t)
    case Popping => IsPop(At(p.stack, t)) && NodeKnown(p, NodeInHand(At(p.stack, t)))
    case Shelving(n) => IsPushOf(At(p.stack, t), n) && NodeKnown(p, NodeInHand(At(p.stack, t)))
    case Unwrapping(n) => At(p.stack, t) == Idle && Owns(p.stack, t, n) && n in p.value
    case Freeing(n, h) => At(p.stack, t) == Idle && Owns(p.stack, t, n)
    case Storing(n, h) => At(p.stack, t) == Idle && Owns(p.stack, t, n)
    case _ => At(p.stack, t) == Idle
  }

  predicate NodeKnown(p: Pool, n: Option<Node>) {
    n.Some? ==> n.value in p.value
  }

  /** The handle t is working on is not among those it has handed out. */
  ghost predicate Separate(p: Pool, t: Thread) {
    Working(p, t).Some? ==> Working(p, t).value !in HeldBy(p, t)
  }

  /** place says where every handle ever created is, and each is there and nowhere else. */
  ghost predicate Accounted(p: Pool, items: seq<Node>, place: map<Handle, Place>) {
    && (forall h: Handle :: h in place <==> h < p.created)
    && (forall n :: n in items ==> n in p.value)
    && (forall h: Handle, n: Node :: (h in place && place[h] == Pooled(n)) <==> (n in items && p.value[n] == h))
    && (forall h: Handle, t: Thread :: (h in place && place[h] == With(t)) <==> Has(p, t, h))
    && (forall h: Handle :: multiset(p.destroyed)[h] == if h in place && place[h] == Gone then 1 else 0)
  }

  ghost predicate PoolInv(p: Pool, items: seq<Node>, place: map<Handle, Place>) {
    && !p.fault
    && Inv(p.stack, items)
    && Accounted(p, items, place)
    && (forall t: Thread :: StageOk(p, t))
    && (forall t: Thread :: Separate(p, t))
  }

  /** What an action does to the account. */
  function NextPlace(p: Pool, a: Action, place: map<Handle, Place>): map<Handle, Place> {
    match a
    case StackStep(t) =>
      (match At(p.stack, t)
       case PushHead(n) => if n in p.value then place[p.value[n] := Pooled(n)] else place
       case PopHead(res, _) =>
         if res.Some? && res.value in p.value then place[p.value[res.value] := With(t)] else place
       case _ => place)
    case Proceed(t, ok, _) =>
      (match StageOf(p, t)
       case Creating => if ok then place[p.created := With(t)] else place
       case Destroying(h) => place[h := Gone]
       case _ => place)
    case _ => place
  }

  function PoolItems(p: Pool, a: Action, items: seq<Node>): seq<Node> {
    if a.StackStep? then NextItems(p.stack, Go(a.t), items) else items
  }

  /** Nothing that the account depends on has changed. */
  ghost predicate SameAccount(p: Pool, q: Pool, items: seq<Node>) {
    && q.created == p.created && q.destroyed == p.destroyed
    && (forall n :: n in items && n in p.value ==> n in q.value && q.value[n] == p.value[n])
    && (forall u: Thread, h: Handle :: Has(q, u, h) <==> Has(p, u, h))
  }

  lemma SameAccountKeeps(p: Pool, q: Pool, items: seq<Node>, place: map<Handle, Place>)
    requires Accounted(p, items, place) && SameAccount(p, q, items)
    ensures Accounted(q, items, place)
  {
  }

  /** u sees no difference. */
  ghost predicate SameView(p: Pool, q: Pool, u: Thread) {
    && StageOf(q, u) == StageOf(p, u) && HeldBy(q, u) == HeldBy(p, u)
    && At(q.stack, u) == At(p.stack, u)
    && (forall n: Node :: Owns(p.stack, u, n) ==> Owns(q.stack, u, n))
    && (forall n: Node :: Owns(p.stack, u, n) && n in p.value ==> n in q.value && q.value[n] == p.value[n])
  }

  /** An action of t that leaves the other threads' views alone. */
  ghost predicate OthersSame(p: Pool, q: Pool, t: Thread) {
    forall u: Thread :: u != t ==> SameView(p, q, u)
  }

  /** A stack move of t, with the values of the nodes other threads own unchanged. */
  lemma MoveOthersSame(p: Pool, q: Pool, m: Move, items: seq<Node>)
    requires Inv(p.stack, items) && Step(p.stack, m) == Some(q.stack)
    requires forall u: Thread :: u != m.t ==> StageOf(q, u) == StageOf(p, u) && HeldBy(q, u) == HeldBy(p, u)
    requires forall n: Node :: n in p.value && !Owns(p.stack, m.t, n) ==> n in q.value && q.value[n] == p.value[n]
    ensures OthersSame(p, q, m.t)
  {
    forall u: Thread | u != m.t
      ensures SameView(p, q, u)
    {
      OthersStay(p.stack, m, u);
      forall n: Node | Owns(p.stack, u, n)
        ensures Owns(q.stack, u, n) && !Owns(p.stack, m.t, n)
      {
        OwnersStay(p.stack, m, items, u, n);
      }
    }
  }

  /** The node a thread has in hand is one it owns. */
  lemma InHandOwned(p: Pool, items: seq<Node>, u: Thread)
    requires Inv(p.stack, items) && StageOk(p, u)
    ensures NodeInHand(At(p.stack, u)).Some? ==> Owns(p.stack, u, NodeInHand(At(p.stack, u)).value)
  {
    assert LocalOk(p.stack, u, At(p.stack, u));
  }

  lemma OthersKeep(p: Pool, q: Pool, t: Thread, u: Thread, items: seq<Node>)
    requires Inv(p.stack, items) && StageOk(p, u) && OthersSame(p, q, t) && u != t
    ensures StageOk(q, u) && Working(q, u) == Working(p, u) && HeldBy(q, u) == HeldBy(p, u)
  {
    InHandOwned(p, items, u);
    assert SameView(p, q, u);
  }

  /** What the invariant says about t. */
  lemma OfThread(p: Pool, t: Thread, items: seq<Node>, place: map<Handle, Place>)
    requires PoolInv(p, items, place)
    ensures !p.fault && Inv(p.stack, items) && Accounted(p, items, place) && StageOk(p, t) && Separate(p, t)
  {
    hide Inv, Accounted, StageOk, Separate;
  }

  lemma Conclude(p: Pool, q: Pool, t: Thread, before: seq<Node>, was: map<Handle, Place>,
                 items: seq<Node>, place: map<Handle, Place>)
    requires PoolInv(p, before, was) && OthersSame(p, q, t)
    requires !q.fault && Inv(q.stack, items) && StageOk(q, t) && Separate(q, t)
    requires Accounted(q, items, place)
    ensures PoolInv(q, items, place)
  {
    hide Inv, Accounted, StageOk, OthersSame;
    forall u: Thread
      ensures StageOk(q, u) && Separate(q, u)
    {
      if u != t {
        OfThread(p, u, before, was);
        OthersKeep(p, q, t, u, before);
      }
    }
  }

  /** Actions that move nothing: t has after them what it had before. */
  lemma NothingMoves(p: Pool, q: Pool, t: Thread, items: seq<Node>, place: map<Handle, Place>)
    requires PoolInv(p, items, place)
    requires OthersSame(p, q, t) && !q.fault && Inv(q.stack, items) && StageOk(q, t) && Separate(q, t)
    requires q.created == p.created && q.destroyed == p.destroyed
    requires forall n :: n in items && n in p.value ==> n in q.value && q.value[n] == p.value[n]
    requires forall h: Handle :: Has(q, t, h) <==> Has(p, t, h)
    ensures PoolInv(q, items, place)
  {
    forall u: Thread, h: Handle
      ensures Has(q, u, h) <==> Has(p, u, h)
    {
      if u != t {
        assert StageOk(p, u);
        OthersKeep(p, q, t, u, items);
      }
    }
    SameAccountKeeps(p, q, items, place);
    Conclude(p, q, t, items, place, items, place);
  }

  /** Only t lets go of a handle, and of one that nobody else has. */
  lemma LosesHandle(p: Pool, q: Pool, t: Thread, d: Handle, items: seq<Node>, place: map<Handle, Place>)
    requires PoolInv(p, items, place) && OthersSame(p, q, t) && d in place && place[d] == With(t)
    requires forall h: Handle :: Has(q, t, h) <==> Has(p, t, h) && h != d
    ensures forall u: Thread, h: Handle :: Has(q, u, h) <==> Has(p, u, h) && h != d
  {
    hide Inv, OthersSame;
    forall u: Thread, h: Handle
      ensures Has(q, u, h) <==> Has(p, u, h) && h != d
    {
      if u != t {
        assert StageOk(p, u);
        OthersKeep(p, q, t, u, items);
        assert Has(p, u, d) <==> place[d] == With(u);
      }
    }
  }

  /** Only t comes to a handle, and to one that nobody had. */
  lemma GainsHandle(p: Pool, q: Pool, t: Thread, d: Handle, items: seq<Node>, place: map<Handle, Place>)
    requires PoolInv(p, items, place) && OthersSame(p, q, t)
    requires forall h: Handle :: Has(q, t, h) <==> Has(p, t, h) || h == d
    ensures forall u: Thread, h: Handle :: Has(q, u, h) <==> Has(p, u, h) || (u == t && h == d)
  {
    hide Inv, OthersSame, Accounted;
    forall u: Thread, h: Handle
      ensures Has(q, u, h) <==> Has(p, u, h) || (u == t && h == d)
    {
      if u != t {
        assert StageOk(p, u);
        OthersKeep(p, q, t, u, items);
      }
    }
  }

  /** t's statement touches neither the stack nor the nodes. */
  lemma AloneOthersSame(p: Pool, q: Pool, t: Thread)
    requires q.stack == p.stack && q.value == p.value
    requires forall u: Thread :: u != t ==> StageOf(q, u) == StageOf(p, u) && HeldBy(q, u) == HeldBy(p, u)
    ensures OthersSame(p, q, t)
  {
  }

  // ---------------------------------------------------------------- each action keeps the account

  lemma AcquireKeeps(p: Pool, t: Thread, items: seq<Node>, place: map<Handle, Place>)
    requires PoolInv(p, items, place) && Perform(p, Acquire(t)).Some?
    ensures PoolInv(Perform(p, Acquire(t)).value, items, place)
  {
    hide Inv, Accounted, PoolInv, OthersSame;
    OfThread(p, t, items, place);
    StepKeepsInv(p.stack, CallPop(t), items);
    MoveOthersSame(p, Perform(p, Acquire(t)).value, CallPop(t), items);
    NothingMoves(p, Perform(p, Acquire(t)).value, t, items, place);
  }

  lemma ReleaseKeeps(p: Pool, t: Thread, h: Handle, items: seq<Node>, place: map<Handle, Place>)
    requires PoolInv(p, items, place) && Perform(p, Release(t, h)).Some?
    ensures PoolInv(Perform(p, Release(t, h)).value, items, place)
  {
    hide Inv, Accounted, PoolInv, OthersSame;
    OfThread(p, t, items, place);
    AloneOthersSame(p, Perform(p, Release(t, h)).value, t);
    NothingMoves(p, Perform(p, Release(t, h)).value, t, items, place);
  }

  lemma UnwrapKeeps(p: Pool, t: Thread, ok: bool, n: Node, items: seq<Node>, place: map<Handle, Place>)
    requires PoolInv(p, items, place) && StageOf(p, t).Unwrapping?
    ensures PoolInv(Work(p, t, ok, n).value, items, place)
  {
    hide Inv, Accounted, PoolInv, OthersSame;
    OfThread(p, t, items, place);
    AloneOthersSame(p, Work(p, t, ok, n).value, t);
    NothingMoves(p, Work(p, t, ok, n).value, t, items, place);
  }

  lemma FreeNodeKeeps(p: Pool, t: Thread, ok: bool, n: Node, items: seq<Node>, place: map<Handle, Place>)
    requires PoolInv(p, items, place) && StageOf(p, t).Freeing?
    ensures PoolInv(Work(p, t, ok, n).value, items, place)
  {
    hide Inv, Accounted, PoolInv, OthersSame;
    OfThread(p, t, items, place);
    StepKeepsInv(p.stack, Free(t, StageOf(p, t).node), items);
    MoveOthersSame(p, Work(p, t, ok, n).value, Free(t, StageOf(p, t).node), items);
    NothingMoves(p, Work(p, t, ok, n).value, t, items, place);
  }

  lemma SetUpKeeps(p: Pool, t: Thread, ok: bool, n: Node, items: seq<Node>, place: map<Handle, Place>)
    requires PoolInv(p, items, place) && StageOf(p, t).SettingUp?
    ensures PoolInv(Work(p, t, ok, n).value, items, place)
  {
    hide Inv, Accounted, PoolInv, OthersSame;
    OfThread(p, t, items, place);
    AloneOthersSame(p, Work(p, t, ok, n).value, t);
    NothingMoves(p, Work(p, t, ok, n).value, t, items, place);
  }

  lemma WrapKeeps(p: Pool, t: Thread, ok: bool, n: Node, items: seq<Node>, place: map<Handle, Place>)
    requires PoolInv(p, items, place) && StageOf(p, t).Wrapping? && Work(p, t, ok, n).Some?
    ensures PoolInv(Work(p, t, ok, n).value, items, place)
  {
    hide Inv, Accounted, PoolInv, OthersSame;
    OfThread(p, t, items, place);
    if ok {
      StepKeepsInv(p.stack, Malloc(t, n), items);
      MoveOthersSame(p, Work(p, t, ok, n).value, Malloc(t, n), items);
    } else {
      AloneOthersSame(p, Work(p, t, ok, n).value, t);
    }
    NothingMoves(p, Work(p, t, ok, n).value, t, items, place);
  }

  lemma StoreKeeps(p: Pool, t: Thread, ok: bool, n: Node, items: seq<Node>, place: map<Handle, Place>)
    requires PoolInv(p, items, place) && StageOf(p, t).Storing?
    ensures PoolInv(Work(p, t, ok, n).value, items, place)
  {
    hide Inv, Accounted, PoolInv, OthersSame;
    OfThread(p, t, items, place);
    var m := StageOf(p, t).node;
    OwnedIsOut(p.stack, t, m, items);
    StepKeepsInv(p.stack, CallPush(t, m), items);
    MoveOthersSame(p, Work(p, t, ok, n).value, CallPush(t, m), items);
    NothingMoves(p, Work(p, t, ok, n).value, t, items, place);
  }

  lemma OwnedIsOut(s: State, t: Thread, n: Node, items: seq<Node>)
    requires Inv(s, items) && Owns(s, t, n)
    ensures n !in items
  {
    hide IsChain, LocalOk, SizeOk;
  }

  lemma CreateKeeps(p: Pool, t: Thread, n: Node, items: seq<Node>, place: map<Handle, Place>)
    requires PoolInv(p, items, place) && StageOf(p, t).Creating?
    ensures PoolInv(Work(p, t, true, n).value, items, place[p.created := With(t)])
  {
    hide Inv, Accounted, OthersSame, PoolInv;
    var q := Work(p, t, true, n).value;
    FreshHandle(p, t, items, place);
    OfThread(p, t, items, place);
    AloneOthersSame(p, q, t);
    GainsHandle(p, q, t, p.created, items, place);
    AccountCreated(p, q, t, items, place);
    Conclude(p, q, t, items, place, items, place[p.created := With(t)]);
  }

  lemma FreshHandle(p: Pool, t: Thread, items: seq<Node>, place: map<Handle, Place>)
    requires PoolInv(p, items, place)
    ensures !Has(p, t, p.created)
  {
    hide Inv, StageOk, Separate;
    assert p.created !in place;
  }

  lemma CreateFailsKeeps(p: Pool, t: Thread, n: Node, items: seq<Node>, place: map<Handle, Place>)
    requires PoolInv(p, items, place) && StageOf(p, t).Creating?
    ensures PoolInv(Work(p, t, false, n).value, items, place)
  {
    hide Inv, Accounted, PoolInv, OthersSame;
    OfThread(p, t, items, place);
    AloneOthersSame(p, Work(p, t, false, n).value, t);
    NothingMoves(p, Work(p, t, false, n).value, t, items, place);
  }

  lemma AccountCreated(p: Pool, q: Pool, t: Thread, items: seq<Node>, place: map<Handle, Place>)
    requires Accounted(p, items, place)
    requires q.created == p.created + 1 && q.destroyed == p.destroyed && q.value == p.value
    requires forall u: Thread, h: Handle :: Has(q, u, h) <==> Has(p, u, h) || (u == t && h == p.created)
    ensures Accounted(q, items, place[p.created := With(t)])
  {
    assert p.created !in place;
  }

  lemma AccountDestroyed(p: Pool, q: Pool, t: Thread, d: Handle, items: seq<Node>, place: map<Handle, Place>)
    requires Accounted(p, items, place) && d in place && place[d] == With(t)
    requires q.created == p.created && q.destroyed == p.destroyed + [d] && q.value == p.value
    requires forall u: Thread, h: Handle :: Has(q, u, h) <==> Has(p, u, h) && h != d
    ensures Accounted(q, items, place[d := Gone])
  {
    assert multiset(q.destroyed) == multiset(p.destroyed) + multiset{d};
  }

  lemma DestroyKeeps(p: Pool, t: Thread, ok: bool, n: Node, items: seq<Node>, place: map<Handle, Place>)
    requires PoolInv(p, items, place) && StageOf(p, t).Destroying?
    ensures PoolInv(Work(p, t, ok, n).value, items, NextPlace(p, Proceed(t, ok, n), place))
  {
    hide Inv, Accounted, OthersSame, PoolInv;
    var q := Work(p, t, ok, n).value;
    var d := StageOf(p, t).h;
    OfThread(p, t, items, place);
    HasPlace(p, t, d, items, place);
    AloneOthersSame(p, q, t);
    LosesHandle(p, q, t, d, items, place);
    AccountDestroyed(p, q, t, d, items, place);
    Conclude(p, q, t, items, place, items, place[d := Gone]);
  }

  lemma HasPlace(p: Pool, t: Thread, d: Handle, items: seq<Node>, place: map<Handle, Place>)
    requires Accounted(p, items, place) && Has(p, t, d)
    ensures d in place && place[d] == With(t)
  {
    hide Has;
  }

  /** The running stack operation passes a step at which no node changes hands. */
  lemma StepStackFields(p: Pool, t: Thread)
    requires StepStack(p, t).Some?
    ensures var q := StepStack(p, t).value;
      && Step(p.stack, Go(t)) == Some(q.stack) && q.value == p.value && q.created == p.created
      && q.destroyed == p.destroyed && q.fault == p.fault && q.held == p.held
      && forall u: Thread :: u != t ==> StageOf(q, u) == StageOf(p, u)
  {
    hide Advance;
  }

  lemma StackStepKeeps(p: Pool, t: Thread, items: seq<Node>, place: map<Handle, Place>)
    requires PoolInv(p, items, place) && StepStack(p, t).Some?
    requires !At(p.stack, t).PushHead? && !At(p.stack, t).PopHead?
    ensures PoolInv(StepStack(p, t).value, items, place)
  {
    hide Inv, Accounted, StepStack, Step, StageOk, PoolInv, OthersSame;
    var q := StepStack(p, t).value;
    OfThread(p, t, items, place);
    StepStackFields(p, t);
    assert NextItems(p.stack, Go(t), items) == items;
    StepKeepsInv(p.stack, Go(t), items);
    MoveOthersSame(p, q, Go(t), items);
    StepInHand(p, t, items);
    NothingMoves(p, q, t, items, place);
  }

  lemma StepInHand(p: Pool, t: Thread, items: seq<Node>)
    requires Inv(p.stack, items) && StageOk(p, t) && StepStack(p, t).Some?
    requires !At(p.stack, t).PushHead? && !At(p.stack, t).PopHead?
    ensures
      var q := StepStack(p, t).value;
      StageOk(q, t) && Working(q, t) == Working(p, t)
  {
    assert LocalOk(p.stack, t, At(p.stack, t));
    if StageOf(p, t).Shelving? {
      PushInHand(p.stack, t, StageOf(p, t).node);
    } else {
      PopInHand(p.stack, t);
    }
  }

  /** A push keeps its node in hand up to the write of this->next. */
  lemma PushInHand(s: State, t: Thread, n: Node)
    requires IsPushOf(At(s, t), n) && !At(s, t).PushHead? && Advance(s, t).Some?
    ensures
      var l := At(Advance(s, t).value, t);
      if At(s, t).PushUnlock? then l == Idle && NodeInHand(At(s, t)) == None
      else IsPushOf(l, n) && NodeInHand(l) == NodeInHand(At(s, t))
  {
  }

  /** A pop has its node in hand from that write on. */
  lemma PopInHand(s: State, t: Thread)
    requires IsPop(At(s, t)) && !At(s, t).PopHead? && Advance(s, t).Some?
    ensures
      var l := At(Advance(s, t).value, t);
      if At(s, t).PopLeave? then
        l == Idle && (At(s, t).res.Some? ==> forall m :: Owns(s, t, m) ==> Owns(Advance(s, t).value, t, m))
      else IsPop(l) && NodeInHand(l) == NodeInHand(At(s, t))
  {
  }

  /** The write of this->next takes the node, and the handle in it, out of the thread's hands. */
  lemma PushHeadFields(p: Pool, t: Thread, n: Node)
    requires StepStack(p, t).Some? && At(p.stack, t) == PushHead(n) && StageOk(p, t) && Separate(p, t)
    ensures n in p.value && Working(p, t) == Some(p.value[n]) && Has(p, t, p.value[n])
    ensures var q := StepStack(p, t).value;
      && StageOk(q, t) && Separate(q, t) && forall h: Handle :: Has(q, t, h) <==> Has(p, t, h) && h != p.value[n]
  {
  }

  lemma PushHeadKeeps(p: Pool, t: Thread, items: seq<Node>, place: map<Handle, Place>)
    requires PoolInv(p, items, place) && StepStack(p, t).Some? && At(p.stack, t).PushHead?
    ensures PoolInv(StepStack(p, t).value, PoolItems(p, StackStep(t), items), NextPlace(p, StackStep(t), place))
  {
    hide Inv, Accounted, StepStack, Step, Advance, StageOk, StageOf, Separate, OthersSame, PoolInv, Has, Working;
    var q := StepStack(p, t).value;
    var n := At(p.stack, t).node;
    OfThread(p, t, items, place);
    PushHeadFields(p, t, n);
    StepStackFields(p, t);
    assert NextItems(p.stack, Go(t), items) == [n] + items;
    var d := p.value[n];
    HasPlace(p, t, d, items, place);
    StepKeepsInv(p.stack, Go(t), items);
    MoveOthersSame(p, q, Go(t), items);
    PushHeadEnds(p, q, t, n, items, place);
  }

  lemma PushHeadEnds(p: Pool, q: Pool, t: Thread, n: Node, items: seq<Node>, place: map<Handle, Place>)
    requires PoolInv(p, items, place) && OthersSame(p, q, t) && !q.fault && Inv(q.stack, [n] + items)
    requires n in p.value && p.value[n] in place && place[p.value[n]] == With(t)
    requires q.created == p.created && q.destroyed == p.destroyed && q.value == p.value
    requires StageOk(q, t) && Separate(q, t) && forall h: Handle :: Has(q, t, h) <==> Has(p, t, h) && h != p.value[n]
    ensures PoolInv(q, [n] + items, place[p.value[n] := Pooled(n)])
  {
    hide *;
    OfThread(p, t, items, place);
    LosesHandle(p, q, t, p.value[n], items, place);
    AccountPooled(p, q, t, n, items, place);
    Conclude(p, q, t, items, place, [n] + items, place[p.value[n] := Pooled(n)]);
  }

  lemma AccountPooled(p: Pool, q: Pool, t: Thread, n: Node, items: seq<Node>, place: map<Handle, Place>)
    requires Accounted(p, items, place) && n in p.value && p.value[n] in place && place[p.value[n]] == With(t)
    requires q.created == p.created && q.destroyed == p.destroyed && q.value == p.value
    requires forall u: Thread, h: Handle :: Has(q, u, h) <==> Has(p, u, h) && h != p.value[n]
    ensures Accounted(q, [n] + items, place[p.value[n] := Pooled(n)])
  {
  }

  /** That write of a pop puts the first node, and the handle in it, into the thread's hands. */
  lemma PopHeadFields(p: Pool, t: Thread, n: Node)
    requires StepStack(p, t).Some? && At(p.stack, t).PopHead? && At(p.stack, t).res == Some(n)
    requires StageOk(p, t) && n in p.value && !Has(p, t, p.value[n])
    ensures var q := StepStack(p, t).value;
      && StageOk(q, t) && Separate(q, t) && forall h: Handle :: Has(q, t, h) <==> Has(p, t, h) || h == p.value[n]
  {
  }

  lemma PooledHandle(p: Pool, t: Thread, items: seq<Node>, place: map<Handle, Place>)
    requires Accounted(p, items, place) && items != []
    ensures items[0] in p.value && !Has(p, t, p.value[items[0]])
  {
    hide Has;
    var d := p.value[items[0]];
    assert d in place && place[d] == Pooled(items[0]);
  }

  lemma PopHeadKeeps(p: Pool, t: Thread, items: seq<Node>, place: map<Handle, Place>)
    requires PoolInv(p, items, place) && StepStack(p, t).Some? && At(p.stack, t).PopHead?
    ensures PoolInv(StepStack(p, t).value, PoolItems(p, StackStep(t), items), NextPlace(p, StackStep(t), place))
  {
    hide Accounted, StepStack, StageOk, Separate, OthersSame, Has, Advance, Distinct, PoolInv;
    var q := StepStack(p, t).value;
    OfThread(p, t, items, place);
    PopCommit(p.stack, t, At(p.stack, t).res, At(p.stack, t).top, items);
    var n := items[0];
    PooledHandle(p, t, items, place);
    PopHeadFields(p, t, n);
    StepStackFields(p, t);
    assert Distinct(items);
    hide Inv, Step;
    assert NextItems(p.stack, Go(t), items) == items[1..];
    StepKeepsInv(p.stack, Go(t), items);
    MoveOthersSame(p, q, Go(t), items);
    GainsHandle(p, q, t, p.value[n], items, place);
    AccountTaken(p, q, t, items, place);
    Conclude(p, q, t, items, place, items[1..], place[p.value[n] := With(t)]);
  }

  lemma AccountTaken(p: Pool, q: Pool, t: Thread, items: seq<Node>, place: map<Handle, Place>)
    requires Accounted(p, items, place) && items != [] && Distinct(items)
    requires q.created == p.created && q.destroyed == p.destroyed && q.value == p.value
    requires forall u: Thread, h: Handle :: Has(q, u, h) <==> Has(p, u, h) || (u == t && h == p.value[items[0]])
    ensures Accounted(q, items[1..], place[p.value[items[0]] := With(t)])
  {
    var n := items[0];
    assert place[p.value[n]] == Pooled(n);
    forall m: Node
      ensures m in items[1..] <==> m in items && m != n
    {
    }
  }

  /** Every action keeps each handle in exactly one place: the pool, one thread, or destroyed once. */
  lemma ActionKeepsAccount(p: Pool, a: Action, items: seq<Node>, place: map<Handle, Place>)
    requires PoolInv(p, items, place) && Perform(p, a).Some?
    ensures PoolInv(Perform(p, a).value, PoolItems(p, a, items), NextPlace(p, a, place))
  {
    match a
    case Acquire(t) => AcquireKeeps(p, t, items, place);
    case Release(t, h) => ReleaseKeeps(p, t, h, items, place);
    case StackStep(t) =>
      if At(p.stack, t).PushHead? {
        PushHeadKeeps(p, t, items, place);
      } else if At(p.stack, t).PopHead? {
        PopHeadKeeps(p, t, items, place);
      } else {
        StackStepKeeps(p, t, items, place);
      }
    case Proceed(t, ok, n) => WorkKeeps(p, t, ok, n, items, place);
  }

  lemma WorkKeeps(p: Pool, t: Thread, ok: bool, n: Node, items: seq<Node>, place: map<Handle, Place>)
    requires PoolInv(p, items, place) && Work(p, t, ok, n).Some?
    ensures PoolInv(Work(p, t, ok, n).value, items, NextPlace(p, Proceed(t, ok, n), place))
  {
    hide PoolInv;
    match StageOf(p, t)
    case Unwrapping(_) => UnwrapKeeps(p, t, ok, n, items, place);
    case Freeing(_, _) => FreeNodeKeeps(p, t, ok, n, items, place);
    case Creating =>
      if ok {
        CreateKeeps(p, t, n, items, place);
      } else {
        CreateFailsKeeps(p, t, n, items, place);
      }
    case SettingUp(_) => SetUpKeeps(p, t, ok, n, items, place);
    case Destroying(_) => DestroyKeeps(p, t, ok, n, items, place);
    case Wrapping(_) => WrapKeeps(p, t, ok, n, items, place);
    case Storing(_, _) => StoreKeeps(p, t, ok, n, items, place);
    case _ =>
  }

  // ---------------------------------------------------------------- whole runs

  ghost function PoolItemsAfter(actions: seq<Action>): seq<Node>
    decreases |actions|
  {
    if actions == [] then []
    else
      var init := actions[..|actions| - 1];
      var p := PoolRun(init);
      if p.None? then [] else PoolItems(p.value, actions[|actions| - 1], PoolItemsAfter(init))
  }

  ghost function PlaceAfter(actions: seq<Action>): map<Handle, Place>
    decreases |actions|
  {
    if actions == [] then map[]
    else
      var init := actions[..|actions| - 1];
      var p := PoolRun(init);
      if p.None? then map[] else NextPlace(p.value, actions[|actions| - 1], PlaceAfter(init))
  }

  /** Over every run of any number of threads the handles are conserved. */
  lemma {:induction false} HandlesConserved(actions: seq<Action>)
    requires PoolRun(actions).Some?
    ensures PoolInv(PoolRun(actions).value, PoolItemsAfter(actions), PlaceAfter(actions))
    decreases |actions|
  {
    if actions != [] {
      var init := actions[..|actions| - 1];
      HandlesConserved(init);
      ActionKeepsAccount(PoolRun(init).value, actions[|actions| - 1], PoolItemsAfter(init), PlaceAfter(init));
    }
  }

  /** A handle in a thread's possession is nobody else's, is not in the pool, and has not been destroyed. */
  lemma HandleExclusive(actions: seq<Action>, t: Thread, h: Handle)
    requires PoolRun(actions).Some? && Has(PoolRun(actions).value, t, h)
    ensures forall u: Thread :: Has(PoolRun(actions).value, u, h) ==> u == t
    ensures h !in PoolRun(actions).value.destroyed
    ensures forall n :: n in PoolItemsAfter(actions) ==> InNode(PoolRun(actions).value, Some(n)) != Some(h)
  {
    HandlesConserved(actions);
    var p, place := PoolRun(actions).value, PlaceAfter(actions);
    hide PoolRun, PlaceAfter, Has, Inv, StageOk, Separate;
    assert place[h] == With(t);
    assert forall u: Thread :: Has(p, u, h) ==> place[h] == With(u);
    assert multiset(p.destroyed)[h] == 0;
  }

  /** The node t reads the handle of, frees, or pushes in its next statement. */
  function NodeUsed(l: Stage): Option<Node> {
    match l
    case Unwrapping(node) => Some(node)
    case Freeing(node, _) => Some(node)
    case Storing(node, _) => Some(node)
    case _ => None
  }

  /** A statement faults when its node holds no handle yet, or is not the thread's own. */
  lemma FaultsExactly(p: Pool, t: Thread, ok: bool, n: Node)
    requires !p.fault && At(p.stack, t) == Idle && Perform(p, Proceed(t, ok, n)).Some?
    ensures Perform(p, Proceed(t, ok, n)).value.fault
       <==> NodeUsed(StageOf(p, t)).Some? && var node := NodeUsed(StageOf(p, t)).value;
            if StageOf(p, t).Unwrapping? then node !in p.value else !(node in p.stack.owner && p.stack.owner[node] == t)
  {
  }
}
