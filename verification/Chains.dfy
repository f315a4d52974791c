/** Lists threaded through the memory they link: the first word of a node holds the address of the
    next node, and 0 ends the list. */
module Chains {

  type Node = nat
  type Memory = map<nat, nat>

  /** The word at address p. */
  function Load(m: Memory, p: Node): Node {
    if p in m then m[p] else 0
  }

  function Store(m: Memory, p: Node, v: Node): Memory {
    m[p := v]
  }

  /** Starting at p, the links of m run through exactly the nodes of list. */
  ghost predicate Chain(m: Memory, p: Node, list: seq<Node>)
    decreases |list|
  {
    if list == [] then p == 0
    else p == list[0] && p != 0 && Chain(m, Load(m, p), list[1..])
  }

  ghost predicate Distinct(list: seq<Node>) {
    forall i, j :: 0 <= i < j < |list| ==> list[i] != list[j]
  }

  lemma {:induction false} StoreElsewhere(m: Memory, p: Node, list: seq<Node>, q: Node, v: Node)
    requires Chain(m, p, list) && q !in list
    ensures Chain(Store(m, q, v), p, list)
    decreases |list|
  {
    if list != [] {
      StoreElsewhere(m, Load(m, p), list[1..], q, v);
    }
  }

  /** Only one list can be read from an address. */
  lemma {:induction false} ChainUnique(m: Memory, p: Node, list: seq<Node>, other: seq<Node>)
    requires Chain(m, p, list) && Chain(m, p, other)
    ensures list == other
    decreases |list|
  {
    if list != [] {
      ChainUnique(m, Load(m, p), list[1..], other[1..]);
      assert list == [list[0]] + list[1..] && other == [other[0]] + other[1..];
    }
  }
}
