/** The C statements the macros expand into, with their labels and jumps, and an abstract machine for them. */
module JumpCode {
  import opened Options
  import opened ExceptionCell

  /** Conditions: literals, tests of the exception object, of a trylock's result, or of the program's own data. */
  datatype Test = Yes | No | Pending | NotPending | IsKind(kind: nat) | Held(v: nat) | User(k: nat)

  /** Whether a program action is ordinary work or part of a cleanup or error handler. */
  datatype Role = Body | Cleanup

  datatype Prim =
    | Act(role: Role, k: nat)
    | Construct(kind: nat)          // an exception constructor
    | MarkCaught                    // e->set = EXCEPTION_CATCHED
    | MarkRaised                    // ex.set = true
    | Destroy                       // Exception_destory(&ex)
    | TryLock(v: nat)
    | Unlock(v: nat)
    | Enter(scope: nat)             // annotations: a scope's init has run, its cleanup is about to run
    | Leave(scope: nat)

  datatype Event =
    | Did(role: Role, k: nat, pending: bool)
    | Tried(v: nat, ok: bool)
    | Unlocked(v: nat)

  datatype Bracket = Open(scope: nat) | Close(scope: nat)

  datatype State = State(ex: Cell, held: map<nat, bool>, trace: seq<Event>, brackets: seq<Bracket>)

  /** What the program's own tests and the lock attempts answer, given all that was done before. */
  datatype Query = Ask(k: nat) | Attempt(v: nat)
  type Oracle = (Query, seq<Event>) -> bool

  function Eval(o: Oracle, t: Test, st: State): bool {
    match t
    case Yes => true
    case No => false
    case Pending => st.ex.Pending()
    case NotPending => !st.ex.Pending()
    case IsKind(kind) => st.ex.IsKind(kind)
    case Held(v) => v in st.held && st.held[v]
    case User(k) => o(Ask(k), st.trace)
  }

  function Do(o: Oracle, p: Prim, st: State): State {
    match p
    case Act(role, k) => st.(trace := st.trace + [Did(role, k, st.ex.Pending())])
    case Construct(kind) => st.(ex := st.ex.Init(kind))
    case MarkCaught => st.(ex := st.ex.(mark := Caught))
    case MarkRaised => st.(ex := st.ex.(mark := Raised))
    case Destroy => st.(ex := st.ex.Destroy())
    case TryLock(v) =>
      var ok := o(Attempt(v), st.trace);
      st.(held := st.held[v := ok], trace := st.trace + [Tried(v, ok)])
    case Unlock(v) => st.(trace := st.trace + [Unlocked(v)])
    case Enter(n) => st.(brackets := st.brackets + [Open(n)])
    case Leave(n) => st.(brackets := st.brackets + [Close(n)])
  }

  /** Labels are made unique by a counter; each expansion has a handful of them. */
  datatype Spot = AtStart | AtEnd | AtTryLock | AtLock | AtEnsure
  datatype Label = Label(spot: Spot, counter: nat)

  datatype Code =
    | Skip
    | Prim(p: Prim)
    | Seq(first: Code, second: Code)
    | If(test: Test, thn: Code, els: Code)
    | While(body: Code)             // while (1) S, and for (;;) S
    | Switch(body: Code)            // switch (1) case 1: S
    | Goto(target: Label)
    | Labelled(name: Label, stmt: Code)
    | Break
    | Continue

  /** What remains to be done around the current statement. */
  datatype Cont = Stop | Then(next: Code, k: Cont) | InWhile(body: Code, k: Cont) | InSwitch(k: Cont)

  datatype Place = Place(code: Code, k: Cont)

  /** Where a label stands inside code that is followed by k. */
  function Find(l: Label, code: Code, k: Cont): Option<Place> {
    match code
    case Seq(a, b) =>
      var r := Find(l, a, Then(b, k));
      if r.Some? then r else Find(l, b, k)
    case If(_, a, b) =>
      var r := Find(l, a, k);
      if r.Some? then r else Find(l, b, k)
    case While(b) => Find(l, b, InWhile(b, k))
    case Switch(b) => Find(l, b, InSwitch(k))
    case Labelled(name, b) => if name == l then Some(Place(b, k)) else Find(l, b, k)
    case _ => None
  }

  datatype Config = Config(code: Code, k: Cont, st: State)

  /** One step of the machine running root; None when there is none to take. */
  function Step(root: Code, o: Oracle, c: Config): Option<Config> {
    match c.code
    case Skip =>
      (match c.k
       case Stop => None
       case Then(s, k) => Some(Config(s, k, c.st))
       case InWhile(b, k) => Some(Config(While(b), k, c.st))
       case InSwitch(k) => Some(Config(Skip, k, c.st)))
    case Prim(p) => Some(Config(Skip, c.k, Do(o, p, c.st)))
    case Seq(a, b) => Some(Config(a, Then(b, c.k), c.st))
    case If(t, a, b) => Some(Config(if Eval(o, t, c.st) then a else b, c.k, c.st))
    case While(b) => Some(Config(b, InWhile(b, c.k), c.st))
    case Switch(b) => Some(Config(b, InSwitch(c.k), c.st))
    case Goto(l) =>
      var place := Find(l, root, Stop);
      if place.Some? then Some(Config(place.value.code, place.value.k, c.st)) else None
    case Labelled(_, s) => Some(Config(s, c.k, c.st))
    case Break =>
      (match c.k
       case Stop => None
       case Then(_, k) => Some(Config(Break, k, c.st))
       case InWhile(_, k) => Some(Config(Skip, k, c.st))
       case InSwitch(k) => Some(Config(Skip, k, c.st)))
    case Continue =>
      (match c.k
       case Stop => None
       case Then(_, k) => Some(Config(Continue, k, c.st))
       case InWhile(b, k) => Some(Config(While(b), k, c.st))
       case InSwitch(k) => Some(Config(Continue, k, c.st)))
  }

  /** The configuration n steps on, if the machine gets that far. */
  function Run(root: Code, o: Oracle, c: Config, n: nat): Option<Config>
    decreases n
  {
    if n == 0 then Some(c)
    else
      var next := Step(root, o, c);
      if next.None? then None else Run(root, o, next.value, n - 1)
  }

  lemma {:induction false} RunOn(root: Code, o: Oracle, a: Config, m: nat, b: Config, n: nat)
    requires Run(root, o, a, m) == Some(b)
    ensures Run(root, o, a, m + n) == Run(root, o, b, n)
    decreases m
  {
    if m > 0 {
      RunOn(root, o, Step(root, o, a).value, m - 1, b, n);
    }
  }

  /** The machine stops after n steps in c. */
  ghost predicate HaltsIn(root: Code, o: Oracle, a: Config, n: nat, c: Config) {
    Run(root, o, a, n) == Some(c) && Step(root, o, c) == None
  }

  lemma HaltUnique(root: Code, o: Oracle, a: Config, m: nat, b: Config, n: nat, c: Config)
    requires HaltsIn(root, o, a, m, b) && HaltsIn(root, o, a, n, c)
    ensures m == n && b == c
  {
    if m < n {
      RunOn(root, o, a, m, b, n - m);
    } else if n < m {
      RunOn(root, o, a, n, c, m - n);
    }
  }
}
