/** Words of opening and closing marks. */
module Brackets {
  import opened Options
  import opened JumpCode

  /** Play the marks against a stack of open scopes; None if one closes that is not the innermost. */
  function Replay(marks: seq<Bracket>, open: seq<nat>): Option<seq<nat>> {
    if marks == [] then Some(open)
    else match marks[0]
      case Open(n) => Replay(marks[1..], open + [n])
      case Close(n) =>
        if open != [] && open[|open| - 1] == n then Replay(marks[1..], open[..|open| - 1]) else None
  }

  /** Every scope opened is closed once, innermost first, and nothing else is closed. */
  ghost predicate Balanced(marks: seq<Bracket>) {
    forall open :: Replay(marks, open) == Some(open)
  }

  /** So far: only scopes opened before are closed, innermost first. */
  ghost predicate Nested(marks: seq<Bracket>) {
    forall open :: Replay(marks, open).Some?
  }

  lemma {:induction false} ReplayConcat(a: seq<Bracket>, b: seq<Bracket>, open: seq<nat>)
    requires Replay(a, open).Some?
    ensures Replay(a + b, open) == Replay(b, Replay(a, open).value)
    decreases |a|
  {
    if a == [] {
      assert a + b == b;
    } else {
      assert (a + b)[0] == a[0] && (a + b)[1..] == a[1..] + b;
      match a[0]
      case Open(n) => ReplayConcat(a[1..], b, open + [n]);
      case Close(n) => ReplayConcat(a[1..], b, open[..|open| - 1]);
    }
  }

  lemma {:induction false} ReplayPrefix(a: seq<Bracket>, b: seq<Bracket>, open: seq<nat>)
    requires Replay(a + b, open).Some?
    ensures Replay(a, open).Some?
    decreases |a|
  {
    if a != [] {
      assert (a + b)[0] == a[0] && (a + b)[1..] == a[1..] + b;
      match a[0]
      case Open(n) => ReplayPrefix(a[1..], b, open + [n]);
      case Close(n) => ReplayPrefix(a[1..], b, open[..|open| - 1]);
    }
  }

  /** What has been marked between a and b. */
  ghost predicate BalancedFrom(a: seq<Bracket>, b: seq<Bracket>) {
    a <= b && Balanced(b[|a|..])
  }

  ghost predicate NestedFrom(a: seq<Bracket>, b: seq<Bracket>) {
    a <= b && Nested(b[|a|..])
  }

  lemma NothingBalanced(a: seq<Bracket>)
    ensures BalancedFrom(a, a) && NestedFrom(a, a)
  {
    assert a[|a|..] == [];
  }

  lemma BalancedIsNested(a: seq<Bracket>, b: seq<Bracket>)
    requires BalancedFrom(a, b)
    ensures NestedFrom(a, b)
  {
  }

  lemma BalancedThen(a: seq<Bracket>, b: seq<Bracket>, c: seq<Bracket>)
    requires BalancedFrom(a, b) && b <= c
    ensures BalancedFrom(b, c) ==> BalancedFrom(a, c)
    ensures NestedFrom(b, c) ==> NestedFrom(a, c)
  {
    var x, y := b[|a|..], c[|b|..];
    assert c[|a|..] == x + y;
    forall open
      ensures Replay(x + y, open) == Replay(y, open)
    {
      assert Replay(x, open) == Some(open);
      ReplayConcat(x, y, open);
    }
  }

  lemma ScopeOpen(a: seq<Bracket>, n: nat, c: seq<Bracket>)
    requires NestedFrom(a + [Open(n)], c)
    ensures NestedFrom(a, c)
  {
    var x := c[|a| + 1..];
    assert c[|a|..] == [Open(n)] + x;
    forall open
      ensures Replay([Open(n)] + x, open).Some?
    {
      assert ([Open(n)] + x)[1..] == x;
      assert Replay(x, open + [n]).Some?;
    }
  }

  /** Entering, a balanced stretch, and leaving. */
  lemma ScopeClosed(a: seq<Bracket>, n: nat, c: seq<Bracket>)
    requires BalancedFrom(a + [Open(n)], c)
    ensures BalancedFrom(a, c + [Close(n)])
  {
    var x := c[|a| + 1..];
    BalancedScope(n, x);
    hide Balanced;
    assert (c + [Close(n)])[|a|..] == [Open(n)] + x + [Close(n)];
  }

  lemma BalancedScope(n: nat, a: seq<Bracket>)
    requires Balanced(a)
    ensures Balanced([Open(n)] + a + [Close(n)])
  {
    forall open
      ensures Replay([Open(n)] + a + [Close(n)], open) == Some(open)
    {
      var inner := open + [n];
      assert Replay([Open(n)], open) == Some(inner);
      assert inner[..|inner| - 1] == open;
      assert Replay([Close(n)], inner) == Some(open);
      ReplayConcat([Open(n)], a, open);
      ReplayConcat([Open(n)] + a, [Close(n)], open);
    }
  }

  lemma NestedPrefix(a: seq<Bracket>, b: seq<Bracket>, c: seq<Bracket>)
    requires a <= b <= c && NestedFrom(a, c)
    ensures NestedFrom(a, b)
  {
    var x, y := b[|a|..], c[|b|..];
    assert c[|a|..] == x + y;
    forall open
      ensures Replay(x, open).Some?
    {
      ReplayPrefix(x, y, open);
    }
  }

  lemma {:induction false} ReplayCounts(marks: seq<Bracket>, open: seq<nat>, n: nat)
    requires Replay(marks, open).Some?
    ensures multiset(marks)[Open(n)] + multiset(open)[n]
            == multiset(marks)[Close(n)] + multiset(Replay(marks, open).value)[n]
    decreases |marks|
  {
    if marks != [] {
      assert marks == [marks[0]] + marks[1..];
      match marks[0]
      case Open(m) => ReplayCounts(marks[1..], open + [m], n);
      case Close(m) =>
        assert open == open[..|open| - 1] + [m];
        ReplayCounts(marks[1..], open[..|open| - 1], n);
    }
  }

  /** In a balanced word every scope is opened as often as it is closed. */
  lemma BalancedCounts(marks: seq<Bracket>, n: nat)
    requires Balanced(marks)
    ensures multiset(marks)[Open(n)] == multiset(marks)[Close(n)]
  {
    assert Replay(marks, []) == Some([]);
    ReplayCounts(marks, [], n);
  }
}
