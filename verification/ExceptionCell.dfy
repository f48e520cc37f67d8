/** The thread's exception object `ex`, and the life of the exceptions that pass through it. */
module ExceptionCell {
  import opened Options

  /** The field set: false, true or EXCEPTION_CATCHED. */
  datatype Mark = Clear | Raised | Caught

  /** An exception: its number in order of raising, and the type its vtable pointer names. */
  datatype Exn = Exn(id: nat, kind: nat)

  /** The object, with a count of the exceptions raised and a log of the ones destroyed. */
  datatype Cell = Cell(mark: Mark, cur: Option<Exn>, next: nat, destroyed: seq<nat>)
  {
    /** Exception_has */
    predicate Pending() {
      mark == Raised
    }

    predicate IsKind(kind: nat) {
      cur.Some? && cur.value.kind == kind
    }

    /** Exception_destory; with no vtable pointer there is no destructor to call. */
    function Destroy(): Cell {
      this.(mark := Clear, cur := None,
            destroyed := if cur.Some? then destroyed + [cur.value.id] else destroyed)
    }

    /** An exception constructor: Exception_init, and then the vtable pointer. */
    function Init(kind: nat): Cell {
      var c := if mark != Clear then Destroy() else this;
      c.(mark := Raised, cur := Some(Exn(c.next, kind)), next := c.next + 1)
    }
  }

  const EMPTY_CELL := Cell(Clear, None, 0, [])

  /** Every exception raised so far has been destroyed exactly once, or is the one in the object. */
  ghost predicate Conserved(c: Cell) {
    && (c.mark == Clear ==> c.cur == None)
    && (c.cur.Some? ==> c.cur.value.id < c.next)
    && forall i: nat :: multiset(c.destroyed)[i] == if i < c.next && !InCell(c, i) then 1 else 0
  }

  predicate InCell(c: Cell, id: nat) {
    c.cur.Some? && c.cur.value.id == id
  }

  lemma DestroyConserves(c: Cell)
    requires Conserved(c)
    ensures Conserved(c.Destroy())
  {
    if c.cur.Some? {
      var d := c.Destroy();
      assert multiset(d.destroyed) == multiset(c.destroyed) + multiset{c.cur.value.id};
      assert InCell(c, c.cur.value.id);
    }
  }

  lemma InitConserves(c: Cell, kind: nat)
    requires Conserved(c)
    ensures Conserved(c.Init(kind))
  {
    DestroyConserves(c);
    var d := if c.mark != Clear then c.Destroy() else c;
    var e := c.Init(kind);
    forall i: nat
      ensures multiset(e.destroyed)[i] == if i < e.next && !InCell(e, i) then 1 else 0
    {
      assert multiset(d.destroyed)[i] == if i < d.next && !InCell(d, i) then 1 else 0;
    }
  }

  /** Assignments to the mark alone keep the account as long as they do not clear it. */
  lemma MarkConserves(c: Cell, m: Mark)
    requires Conserved(c) && m != Clear
    ensures Conserved(c.(mark := m))
  {
    var d := c.(mark := m);
    forall i: nat
      ensures multiset(d.destroyed)[i] == if i < d.next && !InCell(d, i) then 1 else 0
    {
      assert InCell(d, i) == InCell(c, i);
    }
  }

  /** The object as the C code updates it. */
  class ExceptionObject {
    var mark: Mark
    var vtable: Option<nat>
    ghost var id: nat
    ghost var next: nat
    ghost var destroyed: seq<nat>

    ghost function Value(): Cell
      reads this
    {
      Cell(mark, if vtable.Some? then Some(Exn(id, vtable.value)) else None, next, destroyed)
    }

    constructor ()
      ensures Value() == EMPTY_CELL
    {
      mark, vtable := Clear, None;
      next, destroyed := 0, [];
    }

    method Has() returns (r: bool)
      ensures r == Value().Pending()
    {
      r := mark == Raised;
    }

    method Destory()
      modifies this
      ensures Value() == old(Value()).Destroy()
      ensures Conserved(old(Value())) ==> Conserved(Value())
    {
      if Conserved(Value()) {
        DestroyConserves(Value());
      }
      if vtable.Some? {
        // virtual_method(Exception, e, destory) is called
        destroyed := destroyed + [id];
      }
      mark := Clear;
      vtable := None;
    }

    /** Destroys whatever the previous exception was; only the warning differs. */
    method Dirtydestory()
      modifies this
      ensures Value() == old(Value()).Destroy()
      ensures Conserved(old(Value())) ==> Conserved(Value())
    {
      Destory();
    }

    method Init(kind: nat)
      modifies this
      ensures Value() == old(Value()).Init(kind)
      ensures Conserved(old(Value())) ==> Conserved(Value())
    {
      if Conserved(Value()) {
        InitConserves(Value(), kind);
      }
      if mark != Clear {
        Dirtydestory();
      }
      mark := Raised;
      vtable := Some(kind);
      id, next := next, next + 1;
    }
  }
}
