/** The intrusive stack in memory: what push and pop do to the links while they hold the lock. */
module StackObject {
  class StackNode {
    var next: StackNode?
  }

  function Nth(nodes: seq<StackNode>, i: nat): StackNode? {
    if i < |nodes| then nodes[i] else null
  }

  class Stack {
    var next: StackNode?
    var size: nat
    /** The nodes on the stack, top first. */
    ghost var nodes: seq<StackNode>

    ghost predicate Valid()
      reads this, nodes
    {
      && size == |nodes|
      && (forall i, j :: 0 <= i < j < |nodes| ==> nodes[i] != nodes[j])
      && next == Nth(nodes, 0)
      && (forall i :: 0 <= i < |nodes| ==> nodes[i].next == Nth(nodes, i + 1))
    }

    constructor ()
      ensures Valid() && nodes == []
    {
      next, size, nodes := null, 0, [];
    }

    /** Stack_push: the node is on no stack. */
    method Push(node: StackNode)
      requires Valid() && node !in nodes
      modifies this, node
      ensures Valid() && nodes == [node] + old(nodes)
    {
      node.next := next;
      next := node;
      size := size + 1;
      nodes := [node] + nodes;
      assert forall i :: 0 < i < |nodes| ==> nodes[i] == old(nodes)[i - 1];
    }

    /** Stack_pop: null when the stack is empty; the nodes that stay are not touched. The node leaves without a link. */
    method Pop() returns (node: StackNode?)
      requires Valid()
      modifies this, next
      ensures Valid()
      ensures node == null <==> old(nodes) == []
      ensures node == null ==> nodes == []
      ensures node != null ==> old(nodes) == [node] + nodes && node.next == null
    {
      if next == null {
        return null;
      }
      node := next;
      next := node.next;
      node.next := null;
      size := size - 1;
      nodes := nodes[1..];
      assert forall i :: 0 <= i < |nodes| ==> nodes[i] == old(nodes)[i + 1];
    }
  }
}
