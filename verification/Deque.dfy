/** The reusable-span deque of a core (src/deque.h:15-153): a circular doubly linked list through a
    sentinel, on the heap. */
module Deques {

  import opened CoreIds
  import opened Sequences

  class DoubleListNode {
    var next: DoubleListNode?
    var prev: DoubleListNode?

    constructor ()
      ensures Unlinked()
    {
      next, prev := null, null;
    }

    ghost predicate Unlinked()
      reads this
    {
      next == null && prev == null
    }
  }

  class Deque {
    var owner: CoreId
    const sentinel: DoubleListNode
    ghost var nodes: seq<DoubleListNode>      // what is linked, from front to back

    /** Both directions of the ring spell the same sequence. */
    ghost predicate Valid()
      reads this, sentinel, nodes
    {
      var last := |nodes| - 1;
      && sentinel !in nodes
      && (forall i, j :: 0 <= i < j < |nodes| ==> nodes[i] != nodes[j])
      && sentinel.next == (if nodes == [] then sentinel else nodes[0])
      && sentinel.prev == (if nodes == [] then sentinel else nodes[last])
      && (forall i {:trigger nodes[i].next} :: 0 <= i < |nodes| ==>
            nodes[i].next == if i == last then sentinel else nodes[i + 1])
      && (forall i {:trigger nodes[i].prev} :: 0 <= i < |nodes| ==>
            nodes[i].prev == if i == 0 then sentinel else nodes[i - 1])
    }

    constructor ()
      ensures Valid() && nodes == [] && owner == Terminated && fresh(sentinel)
    {
      owner := Terminated;
      sentinel := new DoubleListNode();
      nodes := [];
      new;
      sentinel.next := sentinel;
      sentinel.prev := sentinel;
    }

    method Open(owner: CoreId)
      requires Valid()
      modifies this`owner
      ensures Valid() && this.owner == owner
    {
      this.owner := owner;
    }

    method Close()
      requires Valid()
      modifies this`owner
      ensures Valid() && owner == Terminated
    {
      owner := Terminated;
    }

    /** Whatever the words of the node held, they are overwritten. A node that is in the ring already is
        linked a second time, and the ring is no more. */
    method PushFront(owner: CoreId, node: DoubleListNode)
      requires Valid() && node != sentinel
      modifies this`nodes, sentinel, nodes, node
      ensures node !in old(nodes) || owner != this.owner ==> Valid()
      ensures nodes == if owner == this.owner then [node] + old(nodes) else old(nodes)
      ensures owner != this.owner ==> node.next == old(node.next) && node.prev == old(node.prev)
      ensures owner == this.owner ==>
        && sentinel.next == node && node.next == old(sentinel.next)
        && node.prev == if old(sentinel.next) == node then node else sentinel
    {
      if owner != this.owner { return; }
      node.prev := sentinel;
      node.next := sentinel.next;
      sentinel.next.prev := node;
      sentinel.next := node;
      nodes := [node] + nodes;
    }

    method PushBack(owner: CoreId, node: DoubleListNode)
      requires Valid() && node != sentinel
      modifies this`nodes, sentinel, nodes, node
      ensures node !in old(nodes) || owner != this.owner ==> Valid()
      ensures nodes == if owner == this.owner then old(nodes) + [node] else old(nodes)
      ensures owner != this.owner ==> node.next == old(node.next) && node.prev == old(node.prev)
      ensures owner == this.owner ==>
        && sentinel.prev == node && node.prev == old(sentinel.prev)
        && node.next == if old(sentinel.prev) == node then node else sentinel
    {
      if owner != this.owner { return; }
      node.prev := sentinel.prev;
      node.next := sentinel;
      sentinel.prev.next := node;
      sentinel.prev := node;
      nodes := nodes + [node];
    }

    method RemoveFront() returns (node: DoubleListNode?)
      requires Valid()
      modifies this`nodes, sentinel, nodes
      ensures Valid()
      ensures old(nodes) == [] ==> node == null && nodes == []
      ensures old(nodes) != [] ==> node == old(nodes)[0] && nodes == old(nodes)[1..] && node.Unlinked()
    {
      var n := sentinel.next;
      sentinel.next := n.next;
      n.next.prev := sentinel;
      if n == sentinel { return null; }
      n.prev := null;
      n.next := null;
      nodes := nodes[1..];
      return n;
    }

    method RemoveBack() returns (node: DoubleListNode?)
      requires Valid()
      modifies this`nodes, sentinel, nodes
      ensures Valid()
      ensures old(nodes) == [] ==> node == null && nodes == []
      ensures old(nodes) != [] ==>
                node == old(nodes)[|old(nodes)| - 1] && nodes == old(nodes)[..|old(nodes)| - 1] && node.Unlinked()
    {
      var n := sentinel.prev;
      sentinel.prev := n.prev;
      n.prev.next := sentinel;
      if n == sentinel { return null; }
      n.prev := null;
      n.next := null;
      nodes := nodes[..|nodes| - 1];
      return n;
    }

    /** Removing an unlinked node, or in the name of somebody who is not the owner, does nothing. */
    method Remove(owner: CoreId, node: DoubleListNode)
      requires Valid()
      requires node.Unlinked() || owner != this.owner || node in nodes
      modifies this`nodes, sentinel, nodes, node
      ensures Valid()
      ensures nodes == if old(node.Unlinked()) || owner != this.owner then old(nodes) else Without(old(nodes), node)
      ensures node in old(nodes) && owner == this.owner ==> node.Unlinked() && node !in nodes
    {
      if node.prev == null && node.next == null { return; }
      if owner != this.owner { return; }
      hide Without;
      ghost var k :| 0 <= k < |nodes| && nodes[k] == node;
      WithoutAt(nodes, k);
      Splice(node, k);
    }

    /** The pointer updates of Remove. */
    method Splice(node: DoubleListNode, ghost k: nat)
      requires Valid() && k < |nodes| && nodes[k] == node
      modifies this`nodes, sentinel, nodes
      ensures Valid() && nodes == old(nodes)[..k] + old(nodes)[k + 1..]
      ensures node.Unlinked() && node !in nodes
    {
      assert node.next == if k == |nodes| - 1 then sentinel else nodes[k + 1];
      assert node.prev == if k == 0 then sentinel else nodes[k - 1];
      if node.next != null { node.next.prev := node.prev; }
      if node.prev != null { node.prev.next := node.next; }
      node.prev := null;
      node.next := null;
      nodes := nodes[..k] + nodes[k + 1..];
    }

    /** Drains the deque; every node that was linked is unlinked. */
    method RemoveAll()
      requires Valid()
      modifies this`nodes, sentinel, nodes
      ensures Valid() && nodes == []
      ensures forall n :: n in old(nodes) ==> n.Unlinked()
    {
      ghost var all := nodes;
      ghost var k := 0;
      var node := RemoveFront();
      while node != null
        invariant Valid()
        invariant node == null ==> nodes == [] && k == |all|
        invariant node != null ==> k < |all| && nodes == all[k + 1..] && node == all[k]
        invariant node != null ==> forall i :: 0 <= i <= k ==> all[i].Unlinked()
        invariant node == null ==> forall i :: 0 <= i < k ==> all[i].Unlinked()
        decreases |all| - k
      {
        node := RemoveFront();
        k := k + 1;
      }
    }
  }
}
