/** The local free list of a span as a value (src/free_list.h:15-67 and src/span.h:295-315): a list of
    freed blocks, blocks never handed out from bump on, and the counter len_ kept apart. Blocks are
    numbered from 0 to the number of objects of the class. */
module FreeLists {

  type Block = nat

  datatype Option<T> = None | Some(value: T)

  datatype FreeList = FreeList(list: seq<Block>, bump: nat, len: nat) {

    function Push(b: Block): FreeList {
      FreeList([b] + list, bump, len + 1)
    }

    function SetList(blocks: seq<Block>, n: nat): FreeList {
      FreeList(blocks, bump, n)
    }

    function Pop(): (FreeList, Option<Block>) {
      if list != [] then (FreeList(list[1..], bump, if len > 0 then len - 1 else 0), Some(list[0]))
      else if len == 0 then (this, None)
      else (FreeList([], bump + 1, len - 1), Some(bump))
    }

    /** Pushes the blocks one by one. */
    function PushAll(blocks: seq<Block>): FreeList
      decreases |blocks|
    {
      if blocks == [] then this else Push(blocks[0]).PushAll(blocks[1..])
    }

    /** MoveRemoteToLocalObjects, given what PopAll returned. */
    function Move(remote: seq<Block>): FreeList {
      if remote == [] then this
      else if len == 0 then SetList(remote, |remote|)
      else PushAll(remote)
    }

    /** The blocks of a class with the given number of objects that the list can hand out. */
    predicate Holds(b: Block, objects: nat) {
      b in list || bump <= b < objects
    }

    ghost predicate Valid(objects: nat) {
      && bump <= objects
      && len == |list| + (objects - bump)
      && (forall i :: 0 <= i < |list| ==> list[i] < bump)
      && (forall i, j :: 0 <= i < j < |list| ==> list[i] != list[j])
    }
  }

  function New(objects: nat): FreeList {
    FreeList([], 0, objects)
  }

  /** Pop takes out exactly one block, and finds one unless nothing is left. */
  lemma PopTakesOne(f: FreeList, objects: nat)
    requires f.Valid(objects)
    ensures var (g, r) := f.Pop();
      && g.Valid(objects)
      && (r.None? <==> forall b :: !f.Holds(b, objects))
      && (r.None? ==> g == f)
      && (r.Some? ==> f.Holds(r.value, objects) && r.value < objects && g.len == f.len - 1
                      && forall b :: g.Holds(b, objects) <==> f.Holds(b, objects) && b != r.value)
  {
    if f.list != [] {
      assert f.Holds(f.list[0], objects);
      assert forall b :: b in f.list <==> b == f.list[0] || b in f.list[1..];
    } else if f.len > 0 {
      assert f.Holds(f.bump, objects);
    }
  }

  /** Push puts one block back. */
  lemma PushAddsOne(f: FreeList, objects: nat, b: Block)
    requires f.Valid(objects) && b < objects && !f.Holds(b, objects)
    ensures f.Push(b).Valid(objects)
    ensures forall c :: f.Push(b).Holds(c, objects) <==> f.Holds(c, objects) || c == b
  {
  }

  ghost predicate Fresh(f: FreeList, objects: nat, blocks: seq<Block>) {
    && (forall i :: 0 <= i < |blocks| ==> blocks[i] < objects && !f.Holds(blocks[i], objects))
    && (forall i, j :: 0 <= i < j < |blocks| ==> blocks[i] != blocks[j])
  }

  lemma {:induction false} PushAllAdds(f: FreeList, objects: nat, blocks: seq<Block>)
    requires f.Valid(objects) && Fresh(f, objects, blocks)
    ensures f.PushAll(blocks).Valid(objects)
    ensures f.PushAll(blocks).len == f.len + |blocks|
    ensures forall c :: f.PushAll(blocks).Holds(c, objects) <==> f.Holds(c, objects) || c in blocks
    decreases |blocks|
  {
    if blocks != [] {
      PushAddsOne(f, objects, blocks[0]);
      assert Fresh(f.Push(blocks[0]), objects, blocks[1..]) by {
        assert forall i :: 0 <= i < |blocks[1..]| ==> blocks[1..][i] == blocks[i + 1];
      }
      PushAllAdds(f.Push(blocks[0]), objects, blocks[1..]);
      assert forall c :: c in blocks <==> c == blocks[0] || c in blocks[1..];
    }
  }

  /** Moving the remote list keeps the set of free blocks on both of its paths: the one that replaces
      the local list, which is taken only when that list and the bump region are empty, and the one
      that pushes the blocks one at a time. */
  lemma MoveConserves(f: FreeList, objects: nat, remote: seq<Block>)
    requires f.Valid(objects) && Fresh(f, objects, remote)
    ensures f.Move(remote).Valid(objects)
    ensures f.Move(remote).len == f.len + |remote|
    ensures forall c :: f.Move(remote).Holds(c, objects) <==> f.Holds(c, objects) || c in remote
  {
    PushAllAdds(f, objects, remote);
    if f.len == 0 {
      assert f.list == [] && f.bump == objects;
    }
  }

  lemma NewHoldsAll(objects: nat)
    ensures New(objects).Valid(objects)
    ensures forall b: Block :: New(objects).Holds(b, objects) <==> b < objects
  {
  }

  // ----- the order in which blocks come back -----

  /** The block that was pushed last comes back first, and the list is as before. */
  lemma PopUndoesPush(f: FreeList, b: Block)
    ensures f.Push(b).Pop() == (f, Some(b))
  {
  }

  function PopMany(f: FreeList, n: nat): (FreeList, seq<Option<Block>>) {
    if n == 0 then (f, [])
    else var (g, rs) := PopMany(f, n - 1); var (k, r) := g.Pop(); (k, rs + [r])
  }

  /** A list without freed blocks gives the others out in the order of their addresses. */
  lemma {:induction false} NewInOrder(objects: nat, n: nat)
    requires n <= objects
    ensures var (f, rs) := PopMany(New(objects), n);
      f == FreeList([], n, objects - n) && |rs| == n && forall i :: 0 <= i < n ==> rs[i] == Some(i)
  {
    if n > 0 {
      NewInOrder(objects, n - 1);
    }
  }

  /** After a move into an empty list the block that was freed last comes first; otherwise the one that was
      freed first does, ahead of all that were local before. */
  lemma {:induction false} MoveOrders(f: FreeList, remote: seq<Block>)
    requires remote != []
    ensures var (g, r) := f.Move(remote).Pop();
      if f.len == 0 then r == Some(remote[0]) && g == FreeList(remote[1..], f.bump, |remote| - 1)
      else r == Some(remote[|remote| - 1]) && g == f.PushAll(remote[..|remote| - 1])
  {
    if f.len > 0 { PushLast(f, remote); PopUndoesPush(f.PushAll(remote[..|remote| - 1]), remote[|remote| - 1]); }
  }

  lemma {:induction false} PushLast(f: FreeList, blocks: seq<Block>)
    requires blocks != []
    ensures f.PushAll(blocks) == f.PushAll(blocks[..|blocks| - 1]).Push(blocks[|blocks| - 1])
    decreases |blocks|
  {
    if |blocks| > 1 {
      PushLast(f.Push(blocks[0]), blocks[1..]);
      assert blocks[..|blocks| - 1][1..] == blocks[1..][..|blocks| - 2];
    } else {
      assert blocks[..0] == [] && blocks[1..] == [];
    }
  }
}
