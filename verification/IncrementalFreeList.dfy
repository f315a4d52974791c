/** The local free list as the source builds it (src/free_list.h:15-67): threaded through the first words
    of the free blocks, with a bump pointer for the blocks behind them. Every operation is proved to be
    the operation of the same name on the value of FreeLists. */
module IncrementalFreeLists {
  import opened Chains
  import opened FreeLists
  import opened Layout

  /** The memory all blocks live in. */
  class BlockMemory {
    var words: Memory

    constructor ()
    {
      words := map[];
    }
  }

  class IncrementalFreeList {
    const memory: BlockMemory
    const start: nat
    const increment: nat
    var list: nat
    var bumpPointer: nat
    var len: nat
    ghost const objects: nat
    ghost var value: FreeList

    ghost function Address(b: Block): nat {
      start + Offset(b, increment)
    }

    ghost function Addresses(blocks: seq<Block>): (r: seq<nat>)
      ensures |r| == |blocks|
      ensures forall i :: 0 <= i < |r| ==> r[i] == Address(blocks[i])
    {
      if blocks == [] then [] else [Address(blocks[0])] + Addresses(blocks[1..])
    }

    /** The links and the bump pointer spell the value. */
    ghost predicate Valid()
      reads this, memory
    {
      && start > 0 && increment > 0
      && value.Valid(objects)
      && Chain(memory.words, list, Addresses(value.list))
      && bumpPointer == Address(value.bump)
      && len == value.len
    }

    constructor (memory: BlockMemory, start: nat, increment: nat, objects: nat)
      requires start > 0 && increment > 0
      ensures Valid() && value == New(objects) && this.memory == memory
      ensures this.start == start && this.increment == increment && this.objects == objects
    {
      this.memory := memory;
      this.start := start;
      this.increment := increment;
      this.objects := objects;
      list := 0;
      bumpPointer := start;
      len := objects;
      value := New(objects);
    }

    lemma AddressesDiffer(b: Block, c: Block)
      requires increment > 0 && b != c
      ensures Address(b) != Address(c)
    {
      if b < c {
        OffsetFits(b, c, increment);
      } else {
        OffsetFits(c, b, increment);
      }
    }

    lemma NotAmong(b: Block, blocks: seq<Block>)
      requires increment > 0 && b !in blocks
      ensures Address(b) !in Addresses(blocks)
    {
      forall i | 0 <= i < |blocks| ensures Addresses(blocks)[i] != Address(b) {
        AddressesDiffer(b, blocks[i]);
      }
    }

    method Push(obj: nat, ghost b: Block) returns (length: nat)
      requires Valid() && b < objects && !value.Holds(b, objects) && obj == Address(b)
      modifies this, memory
      ensures Valid() && value == old(value).Push(b) && length == value.len
      ensures memory.words == Store(old(memory.words), obj, old(list))
    {
      StoreElsewhereIn(b, list, value.list, list);
      memory.words := Store(memory.words, obj, list);
      list := obj;
      len := len + 1;
      value := value.Push(b);
      assert Addresses(value.list)[1..] == Addresses(value.list[1..]);
      return len;
    }

    /** Writing into block b leaves the links of the other blocks alone. */
    lemma StoreElsewhereIn(b: Block, p: nat, blocks: seq<Block>, v: nat)
      requires increment > 0 && b !in blocks && Chain(memory.words, p, Addresses(blocks))
      ensures Chain(Store(memory.words, Address(b), v), p, Addresses(blocks))
    {
      NotAmong(b, blocks);
      StoreElsewhere(memory.words, p, Addresses(blocks), Address(b), v);
    }

    /** Null when nothing is left. */
    method Pop() returns (result: nat)
      requires Valid()
      modifies this
      ensures Valid() && value == old(value).Pop().0
      ensures result == match old(value).Pop().1 case None => 0 case Some(b) => Address(b)
      ensures result == 0 <==> old(value).Pop().1.None?
    {
      PopTakesOne(value, objects);
      value := value.Pop().0;
      result := list;
      if result != 0 {
        list := Load(memory.words, list);
        len := len - 1;
      } else {
        if len == 0 {
          return 0;
        }
        result := bumpPointer;
        OffsetStep(old(value).bump + 1, increment);
        bumpPointer := bumpPointer + increment;
        len := len - 1;
      }
    }

    method SetList(objs: nat, n: nat, ghost blocks: seq<Block>)
      requires Valid() && len == 0 && n == |blocks| && Fresh(value, objects, blocks)
      requires Chain(memory.words, objs, Addresses(blocks))
      modifies this
      ensures Valid() && value == old(value).SetList(blocks, n)
    {
      list := objs;
      len := n;
      value := value.SetList(blocks, n);
    }

    /** src/span.h:299-312, once PopAll has returned a list of that length. */
    method MoveRemoteToLocalObjects(popped: nat, actualLen: nat, ghost remote: seq<Block>) returns (count: nat)
      requires Valid() && Fresh(value, objects, remote) && remote != []
      requires Chain(memory.words, popped, Addresses(remote)) && actualLen == |remote|
      modifies this, memory
      ensures Valid() && value == old(value).Move(remote)
      ensures old(value).len != 0 ==> count == actualLen
    {
      count := 0;
      if len == 0 {
        SetList(popped, actualLen, remote);
        return;
      }
      var p := popped;
      ghost var rest := remote;
      while p != 0
        invariant Valid() && Fresh(value, objects, rest)
        invariant Chain(memory.words, p, Addresses(rest))
        invariant count + |rest| == actualLen
        invariant value.PushAll(rest) == old(value).PushAll(remote)
        decreases |rest|
      {
        var next := Load(memory.words, p);
        assert Addresses(rest)[1..] == Addresses(rest[1..]);
        FreshTail(value, rest);
        count := count + 1;
        StoreElsewhereIn(rest[0], next, rest[1..], list);
        var _ := Push(p, rest[0]);
        p := next;
        rest := rest[1..];
      }
    }

    lemma FreshTail(f: FreeList, blocks: seq<Block>)
      requires f.Valid(objects) && Fresh(f, objects, blocks) && blocks != []
      ensures Fresh(f.Push(blocks[0]), objects, blocks[1..]) && blocks[0] !in blocks[1..]
    {
      assert forall i :: 0 <= i < |blocks[1..]| ==> blocks[1..][i] == blocks[i + 1];
    }
  }
}
