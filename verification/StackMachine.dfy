/** Stack_push and Stack_pop under any interleaving, one shared read or write at a time. */
module StackMachine {
  import opened Options

  type Thread = nat
  type Node = nat

  /** Where a thread is: the next thing it does to shared memory, with its local variables. */
  datatype Local =
    | Idle
    // Stack_push: synchronized (spin, &this->lock, lock)
    | PushLock(node: Node)                          // pthread_spin_lock, until it is obtained
    | PushRead(node: Node)                          // read this->next
    | PushLink(node: Node, top: Option<Node>)       // node->next = this->next
    | PushHead(node: Node)                          // this->next = node
    | PushCount(node: Node)                         // read this->size
    | PushStore(node: Node, count: int)             // this->size = count + 1
    | PushUnlock(node: Node)
    // Stack_pop: ensure_synchronized (spin, &this->lock, lock)
    | PopTry                                        // pthread_spin_trylock
    | PopLook(held: bool)                           // read this->next, whether or not the lock is held
    | PopTake                                       // res = this->next
    | PopFollow(res: Option<Node>)                  // read res->next
    | PopHead(res: Option<Node>, top: Option<Node>) // this->next = res->next
    | PopClear(res: Option<Node>)                   // res->next = NULL
    | PopCount(res: Option<Node>)                   // read this->size
    | PopStore(res: Option<Node>, count: int)       // this->size = count - 1
    | PopLeave(held: bool, res: Option<Node>)       // unlock if the lock is held, and return

  /** Shared memory, the threads, who owns the nodes outside the stack, and whether a bad pointer was followed. */
  datatype State = State(
    head: Option<Node>, next: map<Node, Option<Node>>, size: int, lock: Option<Thread>,
    locals: map<Thread, Local>, owner: map<Node, Thread>, fault: bool)

  const INITIAL := State(None, map[], 0, None, map[], map[], false)

  function At(s: State, t: Thread): Local {
    if t in s.locals then s.locals[t] else Idle
  }

  function Put(s: State, t: Thread, l: Local): State {
    s.(locals := s.locals[t := l])
  }

  /** A thread calls, goes on by one step, or allocates or frees a node. */
  datatype Move =
    | CallPush(t: Thread, node: Node)
    | CallPop(t: Thread)
    | Go(t: Thread)
    | Malloc(t: Thread, node: Node)
    | Free(t: Thread, node: Node)

  /** A write through a pointer; a null or dangling one is a fault. */
  function Store(s: State, p: Option<Node>, v: Option<Node>): State {
    if p.Some? && p.value in s.next then s.(next := s.next[p.value := v]) else s.(fault := true)
  }

  /** What one move makes of the state; None if the move cannot be made now. */
  function Step(s: State, m: Move): Option<State> {
    match m
    case CallPush(t, n) =>
      // a node is pushed by the thread that owns it
      if At(s, t) == Idle && n in s.owner && s.owner[n] == t then Some(Put(s, t, PushLock(n))) else None
    case CallPop(t) => if At(s, t) == Idle then Some(Put(s, t, PopTry)) else None
    case Malloc(t, n) =>
      if At(s, t) == Idle && n !in s.next then Some(s.(next := s.next[n := None], owner := s.owner[n := t])) else None
    case Free(t, n) =>
      if At(s, t) == Idle && n in s.owner && s.owner[n] == t
      then Some(s.(next := s.next - {n}, owner := s.owner - {n})) else None
    case Go(t) => Advance(s, t)
  }

  function Advance(s: State, t: Thread): Option<State> {
    match At(s, t)
    case Idle => None
    case PushLock(n) => if s.lock == None then Some(Put(s.(lock := Some(t)), t, PushRead(n))) else None
    case PushRead(n) => Some(Put(s, t, PushLink(n, s.head)))
    case PushLink(n, top) => Some(Put(Store(s, Some(n), top), t, PushHead(n)))
    case PushHead(n) => Some(Put(s.(head := Some(n), owner := s.owner - {n}), t, PushCount(n)))
    case PushCount(n) => Some(Put(s, t, PushStore(n, s.size)))
    case PushStore(n, count) => Some(Put(s.(size := count + 1), t, PushUnlock(n)))
    case PushUnlock(n) => Some(Put(s.(lock := None), t, Idle))
    case PopTry =>
      if s.lock == None then Some(Put(s.(lock := Some(t)), t, PopLook(true))) else Some(Put(s, t, PopLook(false)))
    case PopLook(held) =>
      if s.head == None then Some(Put(s, t, PopLeave(held, None)))
      else Some(Put(s, t, if held then PopTake else PopTry))
    case PopTake => Some(Put(s, t, PopFollow(s.head)))
    case PopFollow(res) =>
      if res.Some? && res.value in s.next then Some(Put(s, t, PopHead(res, s.next[res.value])))
      else Some(Put(s.(fault := true), t, PopHead(res, None)))
    case PopHead(res, top) =>
      var taken := if res.Some? then s.owner[res.value := t] else s.owner;
      Some(Put(s.(head := top, owner := taken), t, PopClear(res)))
    case PopClear(res) => Some(Put(Store(s, res, None), t, PopCount(res)))
    case PopCount(res) => Some(Put(s, t, PopStore(res, s.size)))
    case PopStore(res, count) => Some(Put(s.(size := count - 1), t, PopLeave(true, res)))
    case PopLeave(held, res) => Some(Put(if held then s.(lock := None) else s, t, Idle))
  }

  function Run(s: State, moves: seq<Move>): Option<State>
    decreases |moves|
  {
    if moves == [] then Some(s)
    else
      var r := Run(s, moves[..|moves| - 1]);
      if r.None? then None else Step(r.value, moves[|moves| - 1])
  }

  // ---------------------------------------------------------------- invariant

  /** The nodes reached from h, in order, are items. */
  ghost predicate IsChain(h: Option<Node>, next: map<Node, Option<Node>>, items: seq<Node>)
    decreases |items|
  {
    if items == [] then h == None
    else h == Some(items[0]) && items[0] in next && IsChain(next[items[0]], next, items[1..])
  }

  ghost predicate Distinct(items: seq<Node>) {
    forall i, j :: 0 <= i < j < |items| ==> items[i] != items[j]
  }

  predicate Pushing(l: Local) {
    l.PushLock? || l.PushRead? || l.PushLink? || l.PushHead? || l.PushCount? || l.PushStore? || l.PushUnlock?
  }

  /** The thread is inside the critical section. */
  predicate Holds(l: Local) {
    match l
    case Idle => false
    case PushLock(_) => false
    case PopTry => false
    case PopLook(held) => held
    case PopLeave(held, _) => held
    case _ => true
  }

  /** What a thread's local variables say about shared memory. */
  ghost predicate LocalOk(s: State, t: Thread, l: Local) {
    match l
    case PushLock(n) => Owns(s, t, n)
    case PushRead(n) => Owns(s, t, n)
    case PushLink(n, top) => Owns(s, t, n) && top == s.head
    case PushHead(n) => Owns(s, t, n) && s.next[n] == s.head
    case PopTake => s.head.Some?
    case PopFollow(res) => res.Some? && res == s.head
    case PopHead(res, top) => res.Some? && res == s.head && res.value in s.next && top == s.next[res.value]
    case PopClear(res) => res.Some? && Owns(s, t, res.value)
    case PopCount(res) => res.Some? && Owns(s, t, res.value)
    case PopStore(res, _) => res.Some? && Owns(s, t, res.value)
    case PopLeave(held, res) => res.Some? ==> held && Owns(s, t, res.value)
    case _ => true
  }

  ghost predicate Owns(s: State, t: Thread, n: Node) {
    n in s.next && n in s.owner && s.owner[n] == t
  }

  /** By how much the size field still differs from the number of nodes while l is being carried out. */
  function Debt(l: Local): int {
    match l
    case PushCount(_) => 1
    case PushStore(_, _) => 1
    case PopClear(_) => -1
    case PopCount(_) => -1
    case PopStore(_, _) => -1
    case _ => 0
  }

  predicate CountOk(s: State, l: Local) {
    match l
    case PushStore(_, count) => count == s.size
    case PopStore(_, count) => count == s.size
    case _ => true
  }

  ghost predicate SizeOk(s: State, items: seq<Node>) {
    if s.lock == None then s.size == |items|
    else s.size + Debt(At(s, s.lock.value)) == |items| && CountOk(s, At(s, s.lock.value))
  }

  ghost predicate Inv(s: State, items: seq<Node>) {
    && !s.fault
    && IsChain(s.head, s.next, items)
    && Distinct(items)
    && (forall n :: n in s.owner ==> n in s.next && n !in items)
    && (forall n :: n in s.next ==> n in s.owner || n in items)
    && (forall t: Thread :: Holds(At(s, t)) <==> s.lock == Some(t))
    && (forall t: Thread :: LocalOk(s, t, At(s, t)))
    && SizeOk(s, items)
  }

  /** What a move does to the abstract stack. */
  function NextItems(s: State, m: Move, items: seq<Node>): seq<Node> {
    if m.Go? then
      match At(s, m.t)
      case PushHead(n) => [n] + items
      case PopHead(_, _) => if items == [] then items else items[1..]
      case _ => items
    else items
  }

  lemma {:induction false} ChainKept(h: Option<Node>, next: map<Node, Option<Node>>, next': map<Node, Option<Node>>, items: seq<Node>)
    requires IsChain(h, next, items)
    requires forall n :: n in items && n in next ==> n in next' && next'[n] == next[n]
    ensures IsChain(h, next', items)
    decreases |items|
  {
    if items != [] {
      ChainKept(next[items[0]], next, next', items[1..]);
    }
  }

  lemma ChainHead(s: State, items: seq<Node>)
    requires IsChain(s.head, s.next, items)
    ensures s.head.Some? <==> items != []
    ensures items != [] ==> s.head == Some(items[0]) && items[0] in s.next
    ensures items != [] ==> IsChain(s.next[items[0]], s.next, items[1..])
  {
  }

  // ---------------------------------------------------------------- each move keeps the invariant

  /** t's move leaves alone what the other threads rely on. */
  ghost predicate LeavesOthers(s: State, s': State, t: Thread) {
    && (forall u: Thread :: u != t ==> At(s', u) == At(s, u))
    && (forall u: Thread, n: Node :: u != t && Owns(s, u, n) ==> Owns(s', u, n) && s'.next[n] == s.next[n])
    && (forall u: Thread :: u != t && Holds(At(s, u)) ==>
          s'.head == s.head && (s.head.Some? && s.head.value in s.next ==>
            s.head.value in s'.next && s'.next[s.head.value] == s.next[s.head.value]))
  }

  lemma OthersOk(s: State, s': State, t: Thread)
    requires LeavesOthers(s, s', t) && (forall u: Thread :: LocalOk(s, u, At(s, u)))
    ensures forall u: Thread :: u != t ==> LocalOk(s', u, At(s', u))
  {
    forall u: Thread | u != t
      ensures LocalOk(s', u, At(s', u))
    {
      assert LocalOk(s, u, At(s, u));
    }
  }

  /** Moves that only change the thread's own position. */
  lemma PrivateMove(s: State, t: Thread, l: Local, items: seq<Node>)
    requires Inv(s, items)
    requires Holds(l) == Holds(At(s, t)) && LocalOk(s, t, l)
    requires Debt(l) == Debt(At(s, t)) && CountOk(s, l)
    ensures Inv(Put(s, t, l), items)
  {
    var s' := Put(s, t, l);
    assert LeavesOthers(s, s', t);
    OthersOk(s, s', t);
    assert LocalOk(s', t, l);
  }

  lemma TakeLock(s: State, t: Thread, l: Local, items: seq<Node>)
    requires Inv(s, items) && s.lock == None
    requires Holds(l) && LocalOk(s, t, l) && Debt(l) == 0 && CountOk(s, l)
    ensures Inv(Put(s.(lock := Some(t)), t, l), items)
  {
    var s' := Put(s.(lock := Some(t)), t, l);
    assert LeavesOthers(s, s', t);
    OthersOk(s, s', t);
    assert LocalOk(s', t, l);
    forall u: Thread
      ensures Holds(At(s', u)) <==> s'.lock == Some(u)
    {
      assert Holds(At(s, u)) <==> s.lock == Some(u);
    }
  }

  lemma DropLock(s: State, t: Thread, items: seq<Node>)
    requires Inv(s, items) && s.lock == Some(t) && Debt(At(s, t)) == 0
    ensures Inv(Put(s.(lock := None), t, Idle), items)
  {
    var s' := Put(s.(lock := None), t, Idle);
    assert LeavesOthers(s, s', t);
    OthersOk(s, s', t);
    forall u: Thread
      ensures Holds(At(s', u)) <==> s'.lock == Some(u)
    {
      assert Holds(At(s, u)) <==> s.lock == Some(u);
    }
  }

  /** A write into a node the thread owns does not touch the chain. */
  lemma OwnWrite(s: State, t: Thread, n: Node, v: Option<Node>, l: Local, items: seq<Node>)
    requires Inv(s, items) && s.lock == Some(t) && Owns(s, t, n)
    requires Holds(l) && Debt(l) == Debt(At(s, t)) && CountOk(s, l)
    requires LocalOk(s.(next := s.next[n := v]), t, l)
    ensures Inv(Put(s.(next := s.next[n := v]), t, l), items)
  {
    var s' := Put(s.(next := s.next[n := v]), t, l);
    ChainKept(s.head, s.next, s'.next, items);
    forall u: Thread | u != t
      ensures !Holds(At(s, u))
    {
      assert Holds(At(s, u)) <==> s.lock == Some(u);
    }
    assert LeavesOthers(s, s', t);
    OthersOk(s, s', t);
    assert LocalOk(s', t, l);
    forall u: Thread
      ensures Holds(At(s', u)) <==> s'.lock == Some(u)
    {
      assert Holds(At(s, u)) <==> s.lock == Some(u);
    }
  }

  lemma SizeWrite(s: State, t: Thread, size: int, l: Local, items: seq<Node>)
    requires Inv(s, items) && s.lock == Some(t)
    requires Holds(l) && LocalOk(s, t, l)
    requires size + Debt(l) == s.size + Debt(At(s, t)) && CountOk(s.(size := size), l)
    ensures Inv(Put(s.(size := size), t, l), items)
  {
    var s' := Put(s.(size := size), t, l);
    assert LeavesOthers(s, s', t);
    OthersOk(s, s', t);
    assert LocalOk(s', t, l);
    forall u: Thread
      ensures Holds(At(s', u)) <==> s'.lock == Some(u)
    {
      assert Holds(At(s, u)) <==> s.lock == Some(u);
    }
  }

  lemma PushCommit(s: State, t: Thread, n: Node, items: seq<Node>)
    requires Inv(s, items) && At(s, t) == PushHead(n)
    ensures Inv(Advance(s, t).value, [n] + items)
  {
    var s' := Advance(s, t).value;
    assert LocalOk(s, t, PushHead(n));
    assert Holds(At(s, t)) <==> s.lock == Some(t);
    var items' := [n] + items;
    assert items'[1..] == items;
    ChainKept(s.head, s.next, s'.next, items);
    assert IsChain(s'.head, s'.next, items');
    forall u: Thread
      ensures Holds(At(s', u)) <==> s'.lock == Some(u)
      ensures u != t ==> !Holds(At(s, u))
    {
      assert Holds(At(s, u)) <==> s.lock == Some(u);
    }
    assert LeavesOthers(s, s', t);
    OthersOk(s, s', t);
    assert LocalOk(s', t, PushCount(n));
  }

  lemma RestOfItems(items: seq<Node>)
    requires items != [] && Distinct(items)
    ensures Distinct(items[1..])
    ensures forall n :: n in items <==> n == items[0] || n in items[1..]
    ensures items[0] !in items[1..]
  {
  }

  lemma PopCommit(s: State, t: Thread, res: Option<Node>, top: Option<Node>, items: seq<Node>)
    requires Inv(s, items) && At(s, t) == PopHead(res, top)
    ensures items != [] && res == Some(items[0]) && Inv(Advance(s, t).value, items[1..])
  {
    hide IsChain, Distinct;
    var s' := Advance(s, t).value;
    assert LocalOk(s, t, PopHead(res, top));
    assert Holds(At(s, t)) <==> s.lock == Some(t);
    ChainHead(s, items);
    var items' := items[1..];
    assert IsChain(s'.head, s'.next, items');
    RestOfItems(items);
    forall u: Thread
      ensures Holds(At(s', u)) <==> s'.lock == Some(u)
      ensures u != t ==> !Holds(At(s, u))
    {
      assert Holds(At(s, u)) <==> s.lock == Some(u);
    }
    assert LeavesOthers(s, s', t);
    OthersOk(s, s', t);
    assert LocalOk(s', t, PopClear(res));
  }

  lemma MallocKeeps(s: State, t: Thread, n: Node, items: seq<Node>)
    requires Inv(s, items) && At(s, t) == Idle && n !in s.next
    ensures n !in items && Inv(Step(s, Malloc(t, n)).value, items)
  {
    var s' := Step(s, Malloc(t, n)).value;
    ChainNodes(s.head, s.next, items);
    ChainKept(s.head, s.next, s'.next, items);
    forall u: Thread
      ensures Holds(At(s', u)) <==> s'.lock == Some(u)
    {
      assert Holds(At(s, u)) <==> s.lock == Some(u);
    }
    assert LeavesOthers(s, s', t);
    OthersOk(s, s', t);
    assert LocalOk(s', t, Idle);
  }

  lemma FreeKeeps(s: State, t: Thread, n: Node, items: seq<Node>)
    requires Inv(s, items) && At(s, t) == Idle && n in s.owner && s.owner[n] == t
    ensures Inv(Step(s, Free(t, n)).value, items)
  {
    var s' := Step(s, Free(t, n)).value;
    ChainNodes(s.head, s.next, items);
    ChainKept(s.head, s.next, s'.next, items);
    forall u: Thread
      ensures Holds(At(s', u)) <==> s'.lock == Some(u)
    {
      assert Holds(At(s, u)) <==> s.lock == Some(u);
    }
    ChainHead(s, items);
    assert LeavesOthers(s, s', t);
    OthersOk(s, s', t);
    assert LocalOk(s', t, Idle);
  }

  lemma {:induction false} ChainNodes(h: Option<Node>, next: map<Node, Option<Node>>, items: seq<Node>)
    requires IsChain(h, next, items)
    ensures forall n :: n in items ==> n in next
    decreases |items|
  {
    if items != [] {
      ChainNodes(next[items[0]], next, items[1..]);
    }
  }

  /** Every move of every thread keeps the invariant: one holder at most, a finite chain without repeats, the size. */
  lemma StepKeepsInv(s: State, m: Move, items: seq<Node>)
    requires Inv(s, items) && Step(s, m).Some?
    ensures Inv(Step(s, m).value, NextItems(s, m, items))
  {
    match m
    case CallPush(t, n) => PrivateMove(s, t, PushLock(n), items);
    case CallPop(t) => PrivateMove(s, t, PopTry, items);
    case Malloc(t, n) => MallocKeeps(s, t, n, items);
    case Free(t, n) => FreeKeeps(s, t, n, items);
    case Go(t) =>
      assert LocalOk(s, t, At(s, t));
      assert Holds(At(s, t)) <==> s.lock == Some(t);
      ChainHead(s, items);
      if Pushing(At(s, t)) {
        PushKeepsInv(s, t, items);
      } else {
        PopKeepsInv(s, t, items);
      }
  }

  lemma PushKeepsInv(s: State, t: Thread, items: seq<Node>)
    requires Inv(s, items) && Advance(s, t).Some?
    requires LocalOk(s, t, At(s, t)) && (Holds(At(s, t)) <==> s.lock == Some(t))
    requires Holds(At(s, t)) ==> CountOk(s, At(s, t))
    requires Pushing(At(s, t))
    ensures Inv(Advance(s, t).value, NextItems(s, Go(t), items))
  {
    hide Inv;
    match At(s, t)
    case PushLock(n) => TakeLock(s, t, PushRead(n), items);
    case PushRead(n) => PrivateMove(s, t, PushLink(n, s.head), items);
    case PushLink(n, top) => OwnWrite(s, t, n, top, PushHead(n), items);
    case PushHead(n) => PushCommit(s, t, n, items);
    case PushCount(n) => PrivateMove(s, t, PushStore(n, s.size), items);
    case PushStore(n, count) => SizeWrite(s, t, count + 1, PushUnlock(n), items);
    case PushUnlock(n) => DropLock(s, t, items);
  }

  lemma PopKeepsInv(s: State, t: Thread, items: seq<Node>)
    requires Inv(s, items) && Advance(s, t).Some?
    requires LocalOk(s, t, At(s, t)) && (Holds(At(s, t)) <==> s.lock == Some(t))
    requires Holds(At(s, t)) ==> CountOk(s, At(s, t))
    requires s.head.Some? <==> items != []
    requires items != [] ==> s.head == Some(items[0]) && items[0] in s.next
    requires !Pushing(At(s, t))
    ensures Inv(Advance(s, t).value, NextItems(s, Go(t), items))
  {
    hide Inv;
    match At(s, t)
    case PopTry => TryKeepsInv(s, t, items);
    case PopLook(held) => LookKeepsInv(s, t, held, items);
    case PopTake => PrivateMove(s, t, PopFollow(s.head), items);
    case PopFollow(res) => PrivateMove(s, t, PopHead(res, s.next[res.value]), items);
    case PopHead(res, top) => PopCommit(s, t, res, top, items);
    case PopClear(res) => OwnWrite(s, t, res.value, None, PopCount(res), items);
    case _ => PopEndKeepsInv(s, t, items);
  }

  lemma TryKeepsInv(s: State, t: Thread, items: seq<Node>)
    requires Inv(s, items) && At(s, t) == PopTry
    ensures Inv(Advance(s, t).value, items)
  {
    if s.lock == None {
      TakeLock(s, t, PopLook(true), items);
    } else {
      PrivateMove(s, t, PopLook(false), items);
    }
  }

  lemma LookKeepsInv(s: State, t: Thread, held: bool, items: seq<Node>)
    requires Inv(s, items) && At(s, t) == PopLook(held)
    ensures Inv(Advance(s, t).value, items)
  {
    hide IsChain, Distinct, SizeOk;
    PrivateMove(s, t, if s.head == None then PopLeave(held, None) else if held then PopTake else PopTry, items);
  }

  lemma PopEndKeepsInv(s: State, t: Thread, items: seq<Node>)
    requires Inv(s, items) && Advance(s, t).Some?
    requires LocalOk(s, t, At(s, t)) && (Holds(At(s, t)) <==> s.lock == Some(t))
    requires Holds(At(s, t)) ==> CountOk(s, At(s, t))
    requires At(s, t).PopCount? || At(s, t).PopStore? || At(s, t).PopLeave?
    ensures Inv(Advance(s, t).value, items)
  {
    hide Inv;
    match At(s, t)
    case PopCount(res) => PrivateMove(s, t, PopStore(res, s.size), items);
    case PopStore(res, count) => SizeWrite(s, t, count - 1, PopLeave(true, res), items);
    case PopLeave(held, res) =>
      if held {
        DropLock(s, t, items);
      } else {
        PrivateMove(s, t, Idle, items);
      }
  }

  // ---------------------------------------------------------------- whole runs

  /** The abstract stack after a run. */
  function ItemsAfter(moves: seq<Move>): seq<Node>
    decreases |moves|
  {
    if moves == [] then []
    else
      var init := moves[..|moves| - 1];
      var s := Run(INITIAL, init);
      if s.None? then [] else NextItems(s.value, moves[|moves| - 1], ItemsAfter(init))
  }

  lemma {:induction false} RunKeepsInv(moves: seq<Move>)
    requires Run(INITIAL, moves).Some?
    ensures Inv(Run(INITIAL, moves).value, ItemsAfter(moves))
    decreases |moves|
  {
    if moves != [] {
      var init := moves[..|moves| - 1];
      RunKeepsInv(init);
      StepKeepsInv(Run(INITIAL, init).value, moves[|moves| - 1], ItemsAfter(init));
    }
  }

  /** In every reachable state: one thread at most is inside, no bad pointer was followed, the stack is a finite
      chain without repeats, its size is right, and a node being returned belongs to the thread it goes to. */
  lemma ReachableSafe(moves: seq<Move>, t: Thread, u: Thread)
    requires Run(INITIAL, moves).Some?
    ensures
      var s, items := Run(INITIAL, moves).value, ItemsAfter(moves);
      && (Holds(At(s, t)) && Holds(At(s, u)) ==> t == u)
      && !s.fault
      && IsChain(s.head, s.next, items) && Distinct(items)
      && (s.lock == None ==> s.size == |items|)
      && (At(s, t).PopLeave? && At(s, t).res.Some? ==>
            At(s, t).res.value !in items && At(s, t).res.value in s.owner && s.owner[At(s, t).res.value] == t)
  {
    RunKeepsInv(moves);
    var s := Run(INITIAL, moves).value;
    assert Holds(At(s, t)) <==> s.lock == Some(t);
    assert Holds(At(s, u)) <==> s.lock == Some(u);
    assert LocalOk(s, t, At(s, t));
  }

  // ---------------------------------------------------------------- what a move leaves alone

  lemma AdvanceLocal(s: State, t: Thread)
    requires Advance(s, t).Some?
    ensures Advance(s, t).value.locals == s.locals[t := At(Advance(s, t).value, t)]
  {
    var l := At(s, t);
    if l.PushLink? || l.PopClear? {
      StoreLocals(s, if l.PushLink? then Some(l.node) else l.res, if l.PushLink? then l.top else None);
    }
    hide Store;
    if Pushing(l) {
    } else if l.PopTry? || l.PopLook? || l.PopTake? || l.PopFollow? {
    } else {
    }
  }

  lemma StoreLocals(s: State, p: Option<Node>, v: Option<Node>)
    ensures Store(s, p, v).locals == s.locals
  {
  }

  lemma OthersStay(s: State, m: Move, u: Thread)
    requires Step(s, m).Some? && u != m.t
    ensures At(Step(s, m).value, u) == At(s, u)
  {
    if m.Go? {
      AdvanceLocal(s, m.t);
    }
  }

  /** A move never takes a node from another thread. */
  lemma OwnersStay(s: State, m: Move, items: seq<Node>, u: Thread, n: Node)
    requires Inv(s, items) && Step(s, m).Some? && u != m.t && Owns(s, u, n)
    ensures Owns(Step(s, m).value, u, n)
  {
    if m.Go? {
      AdvanceOwners(s, m.t, items, u, n);
    }
  }

  lemma AdvanceOwners(s: State, t: Thread, items: seq<Node>, u: Thread, n: Node)
    requires Inv(s, items) && Advance(s, t).Some? && u != t && Owns(s, u, n)
    ensures Owns(Advance(s, t).value, u, n)
  {
    assert LocalOk(s, t, At(s, t));
    ChainHead(s, items);
    if Pushing(At(s, t)) {
    } else {
    }
  }

  // ---------------------------------------------------------------- waiting and faults

  /** The pointer through which t reads or writes next, if it is about to. */
  function Using(l: Local): Option<Option<Node>> {
    match l
    case PushLink(n, _) => Some(Some(n))
    case PopFollow(res) => Some(res)
    case PopClear(res) => Some(res)
    case _ => None
  }

  /** A thread in an operation can always go on, except that a push waits for the lock; a pop never waits for anything. */
  lemma WaitsExactly(s: State, t: Thread)
    ensures Step(s, Go(t)) == None <==> At(s, t) == Idle || (At(s, t).PushLock? && s.lock.Some?)
  {
  }

  /** A fault is the use of a null pointer, or of one to a node that does not exist. */
  lemma FaultsExactly(s: State, t: Thread)
    requires !s.fault && Step(s, Go(t)).Some?
    ensures Step(s, Go(t)).value.fault
       <==> Using(At(s, t)).Some? && (Using(At(s, t)).value == None || Using(At(s, t)).value.value !in s.next)
  {
  }
}
