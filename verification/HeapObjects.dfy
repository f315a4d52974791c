/** The allocator with its objects, updated in place: spans, cores, the span pool and the thread-local
    buffers (src/core.h:81-215, src/span.h:147-315, src/lab.h:116-144). Every method is proved to compute
    the function of Heaps with its name, so HeapTheorems speaks about these objects. The two free lists of
    a span and the deques of a core are values here; IncrementalFreeLists, RemoteFreeList and Deques build
    them out of links. */
module HeapObjects {
  import opened CoreIds
  import opened Epochs
  import opened FreeLists
  import opened HeapInvariants
  import opened Sequences
  import opened SizeClasses
  import opened SpanPools
  import H = Heaps

  class Span {
    const index: nat                      // its address, counted in virtual spans
    var epoch: Epoch
    var owner: CoreId
    var sizeClass: nat
    var localFreeList: FreeList
    var remoteFreeList: seq<Block>

    ghost function View(): H.Span
      reads this
    {
      H.Span(epoch, owner, sizeClass, localFreeList, remoteFreeList)
    }

    /** Memory of the arena: all zero. */
    constructor (index: nat)
      ensures this.index == index && View() == H.Zero()
    {
      this.index := index;
      epoch := Epoch(0, Floating);
      owner := Terminated;
      sizeClass := 0;
      localFreeList := FreeList([], 0, 0);
      remoteFreeList := [];
    }

    /** The source's constructor. It does not reset the epoch. */
    method Construct(sizeClass: nat, owner: CoreId)
      modifies this
      ensures View() == H.Built(old(epoch), sizeClass, owner)
    {
      this.owner := owner;
      this.sizeClass := sizeClass;
      localFreeList := FreeLists.New(H.Objects(sizeClass));
      remoteFreeList := [];
      var _ := NewMarkHot(epoch);
    }

    method Swap(expected: Epoch, desired: Epoch) returns (ok: bool)
      modifies this`epoch
      ensures Cas(epoch, ok) == Epochs.Swap(old(epoch), expected, desired)
    {
      ok := epoch == expected;
      if ok { epoch := desired; }
    }

    method NewMarkHot(seen: Epoch) returns (ok: bool)
      modifies this`epoch
      ensures Cas(epoch, ok) == Epochs.NewMarkHot(old(epoch), seen)
    {
      ok := Swap(seen.KeepReuse(), Epoch(seen.count + 1, Hot));
    }

    method NewMarkFull(seen: Epoch) returns (ok: bool)
      modifies this`epoch
      ensures Cas(epoch, ok) == Epochs.NewMarkFull(old(epoch), seen)
    {
      ok := Swap(seen.KeepReuse(), Epoch(seen.count + 1, Full));
    }

    method NewMarkReuse(seen: Epoch) returns (ok: bool)
      modifies this`epoch
      ensures Cas(epoch, ok) == Epochs.NewMarkReuse(old(epoch), seen)
    {
      ok := Swap(seen.OnlyValue(), Epoch(seen.count + 1, Reusable));
    }

    method NewMarkFloating()
      modifies this`epoch
      ensures epoch == old(epoch).OnlyValue()
    {
      epoch := epoch.OnlyValue();
    }

    method TryMarkFloating(seen: Epoch) returns (ok: bool)
      modifies this`epoch
      ensures Cas(epoch, ok) == Epochs.TryMarkFloating(old(epoch), seen)
    {
      ok := Swap(seen, seen.OnlyValue());
    }

    method TryReviveNew(oldOwner: CoreId, caller: CoreId) returns (ok: bool)
      modifies this`owner
      ensures ok <==> old(owner) == oldOwner
      ensures owner == if ok then caller else old(owner)
    {
      ok := owner == oldOwner;
      if ok { owner := caller; }
    }

    method NrFreeObjects() returns (n: int)
      ensures n == View().NrFreeObjects()
    {
      n := localFreeList.len + |remoteFreeList|;
    }

    method Allocate() returns (r: Option<Block>)
      modifies this`localFreeList
      ensures (localFreeList, r) == old(localFreeList).Pop()
    {
      var (f, b) := localFreeList.Pop();
      localFreeList := f;
      return b;
    }

    method Free(b: Block, caller: CoreId) returns (n: int)
      modifies this
      ensures View() == old(View()).Free(b, caller) && n == View().NrFreeObjects()
    {
      if owner == caller {
        localFreeList := localFreeList.Push(b);
        n := localFreeList.len + |remoteFreeList|;
      } else {
        remoteFreeList := [b] + remoteFreeList;
        n := |remoteFreeList| + localFreeList.len;
      }
    }

    method MoveRemoteToLocalObjects()
      modifies this
      ensures View() == old(View()).MoveRemoteToLocalObjects()
    {
      if |remoteFreeList| != 0 {
        var objects := remoteFreeList;
        remoteFreeList := [];
        if localFreeList.len == 0 {
          localFreeList := localFreeList.SetList(objects, |objects|);
          return;
        }
        while objects != []
          invariant localFreeList.PushAll(objects) == old(localFreeList).PushAll(old(remoteFreeList))
          invariant remoteFreeList == [] && epoch == old(epoch) && owner == old(owner) && sizeClass == old(sizeClass)
          decreases |objects|
        {
          localFreeList := localFreeList.Push(objects[0]);
          objects := objects[1..];
        }
      }
    }
  }

  /** The fields of a core as a value. */
  datatype CoreView = CoreView(id: CoreId, hot: seq<Option<nat>>, rSpans: seq<H.RSpans>)

  class Core {
    const index: nat
    var id: CoreId
    var hot: seq<Option<nat>>             // the address of the hot span of each class, if any
    var rSpans: seq<H.RSpans>

    ghost function View(): CoreView
      reads this
    {
      CoreView(id, hot, rSpans)
    }

    constructor (index: nat)
      ensures this.index == index && id == Terminated
      ensures |hot| == NUM_CLASSES && |rSpans| == NUM_CLASSES
      ensures forall k :: 0 <= k < NUM_CLASSES ==> hot[k] == None && rSpans[k] == H.RSpans(Terminated, [])
    {
      this.index := index;
      id := Terminated;
      hot := seq(NUM_CLASSES, k => None);
      rSpans := seq(NUM_CLASSES, k => H.RSpans(Terminated, []));
    }

    method SetHot(sc: nat, s: Option<nat>)
      requires sc < |hot|
      modifies this`hot
      ensures hot == old(hot)[sc := s]
    {
      hot := hot[sc := s];
    }

    method Open(sc: nat, owner: CoreId)
      requires sc < |rSpans|
      modifies this`rSpans
      ensures rSpans == old(rSpans)[sc := H.RSpans(owner, old(rSpans)[sc].spans)]
    {
      rSpans := rSpans[sc := rSpans[sc].(owner := owner)];
    }

    method RemoveAll(sc: nat)
      requires sc < |rSpans|
      modifies this`rSpans
      ensures rSpans == old(rSpans)[sc := H.RSpans(old(rSpans)[sc].owner, [])]
    {
      while rSpans[sc].spans != []
        invariant |rSpans| == |old(rSpans)| && rSpans[sc].owner == old(rSpans)[sc].owner
        invariant forall k :: 0 <= k < |rSpans| && k != sc ==> rSpans[k] == old(rSpans)[k]
        decreases |rSpans[sc].spans|
      {
        rSpans := rSpans[sc := rSpans[sc].(spans := rSpans[sc].spans[1..])];
      }
    }

    method PushFront(sc: nat, owner: CoreId, i: nat)
      requires sc < |rSpans|
      modifies this`rSpans
      ensures rSpans == if old(rSpans)[sc].owner != owner then old(rSpans)
                        else old(rSpans)[sc := H.RSpans(owner, [i] + old(rSpans)[sc].spans)]
    {
      if rSpans[sc].owner != owner { return; }
      rSpans := rSpans[sc := H.RSpans(owner, [i] + rSpans[sc].spans)];
    }

    method Remove(sc: nat, owner: CoreId, i: nat)
      requires sc < |rSpans|
      modifies this`rSpans
      ensures rSpans == if old(rSpans)[sc].owner != owner then old(rSpans)
                        else old(rSpans)[sc := H.RSpans(owner, Without(old(rSpans)[sc].spans, i))]
    {
      if rSpans[sc].owner != owner { return; }
      rSpans := rSpans[sc := H.RSpans(owner, Without(rSpans[sc].spans, i))];
    }

    method RemoveBack(sc: nat) returns (r: Option<nat>)
      requires sc < |rSpans|
      modifies this`rSpans
      ensures var d := old(rSpans)[sc];
        && (d.spans == [] ==> r == None && rSpans == old(rSpans))
        && (d.spans != [] ==> r == Some(d.spans[|d.spans| - 1])
                              && rSpans == old(rSpans)[sc := H.RSpans(d.owner, d.spans[..|d.spans| - 1])])
    {
      var d := rSpans[sc];
      if d.spans == [] { return None; }
      rSpans := rSpans[sc := H.RSpans(d.owner, d.spans[..|d.spans| - 1])];
      return Some(d.spans[|d.spans| - 1]);
    }
  }
}
