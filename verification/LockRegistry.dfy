/** dav_lock and dav_unlock: the table of file locks under a reader/writer lock, and the tokens on the server. */
module LockRegistry {
  import opened Options

  type Thread = nat
  type Path = nat
  type Token = nat
  type Ref = nat
  type Ticket = nat

  /** struct FileLock */
  datatype FileLock = FileLock(path: Path, token: Token, cnt: int)

  /** Where a thread is; the steps between acquiring and releasing the lock are separate. */
  datatype Local =
    | Idle
    // dav_lock
    | LockRd(p: Path)                       // pthread_rwlock_rdlock
    | LockFind(p: Path)                     // tfind
    | LockInc(p: Path, r: Ref)              // filelock->cnt++
    | LockRdOut(p: Path, found: bool)       // unlock
    | LockAlloc(p: Path)                    // malloc, strdup
    | LockWr(p: Path)                       // pthread_rwlock_wrlock
    | LockRecheck(p: Path)                  // tfind again
    | LockRequest(p: Path)                  // __dav_lock
    | LockInsert(p: Path, token: Token)     // tsearch
    | LockWrOut(p: Path, ok: bool)          // unlock
    // dav_unlock
    | UnlockRd(p: Path)
    | UnlockFind(p: Path)
    | UnlockDec(p: Path, r: Ref)            // --filelock->cnt
    | UnlockRdOut(p: Path, last: Option<Ref>)
    | UnlockWr(p: Path, r: Ref)
    | UnlockRecheck(p: Path, r: Ref)        // tfind again, tdelete
    | UnlockWrOut(p: Path, out: Option<Ref>)
    | UnlockSend(p: Path, x: Ref)           // __dav_unlock
    | UnlockFree(p: Path, x: Ref)           // delete(FileLock)

  datatype State = State(
    tree: map<Path, Ref>, heap: map<Ref, FileLock>, nextRef: nat,
    readers: set<Thread>, writer: Option<Thread>,
    active: map<Token, Path>, nextToken: nat, orphans: set<Token>,   // locks on the server; those nobody will release
    open: map<Ticket, Path>, nextTicket: nat,                        // files locked and not yet being released
    locals: map<Thread, Local>,
    fault: bool,      // a freed FileLock was used
    missing: bool)    // "release cannot find file lock"

  const INITIAL := State(map[], map[], 0, {}, None, map[], 0, {}, map[], 0, map[], false, false)

  function At(s: State, t: Thread): Local {
    if t in s.locals then s.locals[t] else Idle
  }

  function Put(s: State, t: Thread, l: Local): State {
    s.(locals := s.locals[t := l])
  }

  /** How an allocation or a request turns out; Garbled is a lock granted in a reply that is then rejected. */
  datatype Reply = Good | Bad | Garbled

  datatype Move =
    | CallLock(t: Thread, p: Path)
    | CallUnlock(t: Thread, k: Ticket)
    | Go(t: Thread, reply: Reply)

  /** An exclusive lock is granted only on a path that has none (section 9.10 of RFC 4918). */
  predicate Grantable(s: State, p: Path) {
    forall tok :: tok in s.active ==> s.active[tok] != p
  }

  function Bump(s: State, r: Ref, d: int): State {
    if r in s.heap then s.(heap := s.heap[r := s.heap[r].(cnt := s.heap[r].cnt + d)]) else s.(fault := true)
  }

  /** One move; cleared says whether the second look in dav_unlock first clears its local variable. */
  function Step(s: State, m: Move, cleared: bool): Option<State> {
    match m
    case CallLock(t, p) => if At(s, t) == Idle then Some(Put(s, t, LockRd(p))) else None
    case CallUnlock(t, k) =>
      if At(s, t) == Idle && k in s.open then Some(Put(s.(open := s.open - {k}), t, UnlockRd(s.open[k]))) else None
    case Go(t, reply) => if IsLock(At(s, t)) then StepLock(s, t, reply) else StepUnlock(s, t, reply, cleared)
  }

  predicate IsLock(l: Local) {
    l.LockRd? || l.LockFind? || l.LockInc? || l.LockRdOut? || l.LockAlloc? || l.LockWr? || l.LockRecheck?
    || l.LockRequest? || l.LockInsert? || l.LockWrOut?
  }

  /** dav_lock returns success: the file is open under a new ticket. */
  function Opened(s: State, t: Thread, p: Path): State {
    Put(s.(open := s.open[s.nextTicket := p], nextTicket := s.nextTicket + 1), t, Idle)
  }

  // ---------------------------------------------------------------- the steps of dav_lock

  function StepLock(s: State, t: Thread, reply: Reply): Option<State> {
    match At(s, t)
    case LockRd(p) => TakeRead(s, t, LockFind(p))
    case LockFind(p) => Some(Put(s, t, if p in s.tree then LockInc(p, s.tree[p]) else LockRdOut(p, false)))
    case LockInc(p, r) => Some(Put(Bump(s, r, 1), t, LockRdOut(p, true)))
    case LockRdOut(p, found) => Some(ReturnFromRead(s, t, p, found))
    case LockAlloc(p) => Some(Put(s, t, if reply == Good then LockWr(p) else Idle))
    case LockWr(p) => TakeWrite(s, t, LockRecheck(p))
    case LockRecheck(p) => Some(LookAgain(s, t, p))
    case LockRequest(p) => Ask(s, t, p, reply)
    case LockInsert(p, tok) => Some(Enter(s, t, p, tok, reply))
    case LockWrOut(p, ok) => Some(ReturnFromWrite(s, t, p, ok))
    case _ => None
  }

  function TakeRead(s: State, t: Thread, l: Local): Option<State> {
    if s.writer == None then Some(Put(s.(readers := s.readers + {t}), t, l)) else None
  }

  function TakeWrite(s: State, t: Thread, l: Local): Option<State> {
    if s.writer == None && s.readers == {} then Some(Put(s.(writer := Some(t)), t, l)) else None
  }

  function ReturnFromRead(s: State, t: Thread, p: Path, found: bool): State {
    var s1 := s.(readers := s.readers - {t});
    if found then Opened(s1, t, p) else Put(s1, t, LockAlloc(p))
  }

  function LookAgain(s: State, t: Thread, p: Path): State {
    if p in s.tree then Put(Bump(s, s.tree[p], 1), t, LockWrOut(p, true)) else Put(s, t, LockRequest(p))
  }

  function Ask(s: State, t: Thread, p: Path, reply: Reply): Option<State> {
    if reply == Bad then Some(Put(s, t, LockWrOut(p, false)))
    else if !Grantable(s, p) then None
    else
      var s1 := s.(active := s.active[s.nextToken := p], nextToken := s.nextToken + 1);
      Some(if reply == Good then Put(s1, t, LockInsert(p, s.nextToken))
           else Put(s1.(orphans := s.orphans + {s.nextToken}), t, LockWrOut(p, false)))
  }

  /** After a failed insertion the UNLOCK of the error handler is not sent: its with_curl sees the pending exception. */
  function Enter(s: State, t: Thread, p: Path, tok: Token, reply: Reply): State {
    if reply == Good
    then Put(s.(tree := s.tree[p := s.nextRef], heap := s.heap[s.nextRef := FileLock(p, tok, 1)], nextRef := s.nextRef + 1),
             t, LockWrOut(p, true))
    else Put(s.(orphans := s.orphans + {tok}), t, LockWrOut(p, false))
  }

  function ReturnFromWrite(s: State, t: Thread, p: Path, ok: bool): State {
    var s1 := s.(writer := None);
    if ok then Opened(s1, t, p) else Put(s1, t, Idle)
  }

  // ---------------------------------------------------------------- the steps of dav_unlock

  function StepUnlock(s: State, t: Thread, reply: Reply, cleared: bool): Option<State> {
    match At(s, t)
    case UnlockRd(p) => TakeRead(s, t, UnlockFind(p))
    case UnlockFind(p) => Some(FindHeld(s, t, p))
    case UnlockDec(p, r) => Some(CountOff(s, t, p, r))
    case UnlockRdOut(p, last) =>
      Some(Put(s.(readers := s.readers - {t}), t, if last.Some? then UnlockWr(p, last.value) else Idle))
    case UnlockWr(p, r) => TakeWrite(s, t, UnlockRecheck(p, r))
    case UnlockRecheck(p, r) => Some(Collect(s, t, p, r, cleared))
    case UnlockWrOut(p, x) => Some(Put(s.(writer := None), t, if x.Some? then UnlockSend(p, x.value) else Idle))
    case UnlockSend(p, x) => Some(SendUnlock(s, t, p, x, reply))
    case UnlockFree(p, x) => Some(Put(if x in s.heap then s.(heap := s.heap - {x}) else s.(fault := true), t, Idle))
    case _ => None
  }

  function FindHeld(s: State, t: Thread, p: Path): State {
    if p in s.tree then Put(s, t, UnlockDec(p, s.tree[p])) else Put(s.(missing := true), t, UnlockRdOut(p, None))
  }

  function CountOff(s: State, t: Thread, p: Path, r: Ref): State {
    var s1 := Bump(s, r, -1);
    Put(s1, t, UnlockRdOut(p, if r in s1.heap && s1.heap[r].cnt > 0 then None else Some(r)))
  }

  function Collect(s: State, t: Thread, p: Path, r: Ref, cleared: bool): State {
    if p in s.tree && s.tree[p] !in s.heap then Put(s.(fault := true), t, UnlockWrOut(p, Some(r)))
    else if Collectable(s, p) then Put(s.(tree := s.tree - {p}), t, UnlockWrOut(p, Some(s.tree[p])))
    else Put(s, t, UnlockWrOut(p, if cleared then None else Some(r)))
  }

  function SendUnlock(s: State, t: Thread, p: Path, x: Ref, reply: Reply): State {
    if x !in s.heap then Put(s.(fault := true), t, UnlockFree(p, x))
    else
      var tok := s.heap[x].token;
      Put(if reply == Good then s.(active := s.active - {tok}) else s.(orphans := s.orphans + {tok}), t, UnlockFree(p, x))
  }

  /** The entry for p is there and nobody holds it any more: what the second look asks. */
  predicate Collectable(s: State, p: Path) {
    p in s.tree && s.tree[p] in s.heap && s.heap[s.tree[p]].cnt <= 0
  }

  function Run(s: State, moves: seq<Move>, cleared: bool): Option<State>
    decreases |moves|
  {
    if moves == [] then Some(s)
    else
      var s1 := Run(s, moves[..|moves| - 1], cleared);
      if s1.None? then None else Step(s1.value, moves[|moves| - 1], cleared)
  }

  // ---------------------------------------------------------------- what a thread's position means

  predicate InRead(l: Local) {
    l.LockFind? || l.LockInc? || l.LockRdOut? || l.UnlockFind? || l.UnlockDec? || l.UnlockRdOut?
  }

  predicate InWrite(l: Local) {
    l.LockRecheck? || l.LockRequest? || l.LockInsert? || l.LockWrOut? || l.UnlockRecheck? || l.UnlockWrOut?
  }

  /** The thread stands for one unit of the count of p: it has added it, or has yet to take it away. */
  predicate Claiming(l: Local, p: Path) {
    match l
    case LockRdOut(q, found) => q == p && found
    case LockWrOut(q, ok) => q == p && ok
    case UnlockRd(q) => q == p
    case UnlockFind(q) => q == p
    case UnlockDec(q, _) => q == p
    case _ => false
  }

  /** The entry the thread has taken out of the table and will free. */
  function Unlinked(l: Local): Option<Ref> {
    match l
    case UnlockWrOut(_, x) => x
    case UnlockSend(_, x) => Some(x)
    case UnlockFree(_, x) => Some(x)
    case _ => None
  }

  function Inserting(l: Local): Option<Token> {
    match l
    case LockInsert(_, tok) => Some(tok)
    case _ => None
  }

  /** The thread will look whether the entry for p can go. */
  predicate Collecting(l: Local, p: Path) {
    match l
    case UnlockRdOut(q, last) => q == p && last.Some?
    case UnlockWr(q, _) => q == p
    case UnlockRecheck(q, _) => q == p
    case _ => false
  }

  datatype Claim = Open(k: Ticket) | Flying(t: Thread)

  predicate Counts(s: State, p: Path, c: Claim) {
    match c
    case Open(k) => k in s.open && s.open[k] == p
    case Flying(t) => Claiming(At(s, t), p)
  }

  /** Everyone who counts for p: files that are open, and calls under way. */
  function Claims(s: State, p: Path): (r: set<Claim>)
    ensures forall c :: c in r <==> Counts(s, p, c)
  {
    (set k | k in s.open && s.open[k] == p :: Open(k)) + (set t | t in s.locals && Claiming(s.locals[t], p) :: Flying(t))
  }

  // ---------------------------------------------------------------- invariant

  ghost predicate LocksOk(s: State) {
    && (forall t: Thread :: t in s.readers <==> InRead(At(s, t)))
    && (forall t: Thread :: s.writer == Some(t) <==> InWrite(At(s, t)))
    && (s.writer.Some? ==> s.readers == {})
  }

  ghost predicate LocalOk(s: State, l: Local) {
    match l
    case LockInc(p, r) => p in s.tree && s.tree[p] == r
    case UnlockDec(p, r) => p in s.tree && s.tree[p] == r
    case LockRequest(p) => p !in s.tree
    case LockInsert(p, tok) => p !in s.tree && tok in s.active && s.active[tok] == p
    case _ => true
  }

  datatype RefPlace = Linked(p: Path) | Taken(t: Thread)

  ghost predicate LinkedOk(s: State, refs: map<Ref, RefPlace>) {
    && (forall r: Ref, p: Path :: (r in refs && refs[r] == Linked(p)) <==> (p in s.tree && s.tree[p] == r))
    && (forall p: Path :: p in s.tree ==> s.tree[p] in s.heap && s.heap[s.tree[p]].path == p)
  }

  ghost predicate TakenOk(s: State, refs: map<Ref, RefPlace>) {
    forall r: Ref, t: Thread :: (r in refs && refs[r] == Taken(t)) <==> Unlinked(At(s, t)) == Some(r)
  }

  /** Each entry is in the table under its path, or with the one thread that will free it. */
  ghost predicate RefsOk(s: State, refs: map<Ref, RefPlace>) {
    && (forall r: Ref :: r in refs <==> r in s.heap)
    && (forall r: Ref :: r in s.heap ==> r < s.nextRef)
    && LinkedOk(s, refs) && TakenOk(s, refs)
  }

  /** The count of an entry is the number of those who count for its path; without an entry there is nobody. */
  ghost predicate CountsOk(s: State) {
    && (forall p: Path :: p in s.tree && s.tree[p] in s.heap ==> s.heap[s.tree[p]].cnt == |Claims(s, p)|)
    && (forall p: Path :: p !in s.tree ==> Claims(s, p) == {})
    && (forall k: Ticket :: k in s.open ==> k < s.nextTicket)
  }

  /** An entry nobody holds any more is about to be collected. */
  ghost predicate CollectorsOk(s: State) {
    forall p: Path :: p in s.tree && s.tree[p] in s.heap && s.heap[s.tree[p]].cnt <= 0 ==>
      exists t: Thread :: Collecting(At(s, t), p)
  }

  datatype TokenPlace = Stored(r: Ref) | Carried(t: Thread) | Orphaned

  predicate Sent(l: Local, r: Ref) {
    l.UnlockFree? && l.x == r
  }

  /** The entry still answers for its token: its UNLOCK has not been sent. */
  ghost predicate Answers(s: State, r: Ref) {
    r in s.heap && forall t: Thread :: !Sent(At(s, t), r)
  }

  ghost predicate TokenKeysOk(s: State, tokens: map<Token, TokenPlace>) {
    && (forall tok: Token :: tok in tokens <==> tok in s.active)
    && (forall tok: Token :: tok in s.active ==> tok < s.nextToken)
  }

  ghost predicate StoredOk(s: State, tokens: map<Token, TokenPlace>) {
    && (forall tok: Token, r: Ref ::
          (tok in tokens && tokens[tok] == Stored(r)) <==> (Answers(s, r) && s.heap[r].token == tok))
    && (forall r: Ref :: Answers(s, r) ==> s.heap[r].token in s.active && s.active[s.heap[r].token] == s.heap[r].path)
  }

  ghost predicate CarriedOk(s: State, tokens: map<Token, TokenPlace>) {
    forall tok: Token, t: Thread :: (tok in tokens && tokens[tok] == Carried(t)) <==> Inserting(At(s, t)) == Some(tok)
  }

  ghost predicate OrphanedOk(s: State, tokens: map<Token, TokenPlace>) {
    forall tok: Token :: (tok in tokens && tokens[tok] == Orphaned) <==> tok in s.orphans
  }

  /** Each lock on the server is answered for by one entry, is about to be entered, or is orphaned. */
  ghost predicate TokensOk(s: State, tokens: map<Token, TokenPlace>) {
    TokenKeysOk(s, tokens) && StoredOk(s, tokens) && CarriedOk(s, tokens) && OrphanedOk(s, tokens)
  }

  ghost predicate PlacesOk(s: State, refs: map<Ref, RefPlace>, tokens: map<Token, TokenPlace>) {
    && !s.fault && !s.missing
    && LocksOk(s)
    && (forall t: Thread :: LocalOk(s, At(s, t)))
    && RefsOk(s, refs)
    && TokensOk(s, tokens)
  }

  ghost predicate Inv(s: State, refs: map<Ref, RefPlace>, tokens: map<Token, TokenPlace>) {
    PlacesOk(s, refs, tokens) && CountsOk(s) && CollectorsOk(s)
  }
}
