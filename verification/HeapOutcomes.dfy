/** What one call does to every reachable heap, as a reader of the design would put it: when free recycles
    or adopts a span, where a freed block and a freed span come back, and where malloc takes them from. */
module HeapOutcomes {
  import opened CoreIds
  import opened Epochs
  import opened FreeLists
  import opened Heaps
  import opened HeapInvariants
  import opened HeapThreads
  import opened HeapTheorems
  import opened Sequences
  import opened SizeClasses

  // ----- free: marks and owner of the span -----

  /** The epoch that free read can still be swapped after the block was given back: the span is shared, and
      it did not lose its reuse mark to an adoption. */
  predicate Markable(h: Heap, s: Span) {
    !s.epoch.Exclusive() && !(Dead(h, s.owner) && s.epoch.IsReusable())
  }

  /** Span i of h with its last missing block back. */
  predicate Recycles(h: Heap, i: nat)
    requires i < |h.spans|
  {
    var s := h.spans[i];
    s.NrFreeObjects() + 1 == Objects(s.sc) && Markable(h, s)
  }

  /** Span i of h with one block more is above the threshold, but not whole. */
  predicate Reuses(h: Heap, i: nat)
    requires i < |h.spans|
  {
    var s := h.spans[i];
    Threshold(s.sc) < s.NrFreeObjects() + 1 < Objects(s.sc) && Markable(h, s)
  }

  /** The heap in which Settle decides: the block is back, and a dead owner is replaced. */
  function Adopted(h: Heap, c: nat, o: Obj): Heap
    requires c < |h.ids| && o.span < |h.spans|
  {
    var s := h.spans[o.span];
    if Dead(h, s.owner) then Revive(Release(h, c, o), c, o.span, s.epoch) else Release(h, c, o)
  }

  function Adopter(h: Heap, c: nat, i: nat): CoreId
    requires c < |h.ids| && i < |h.spans|
  {
    if Dead(h, h.spans[i].owner) then h.ids[c] else h.spans[i].owner
  }

  lemma AdoptedOk(h: Heap, c: nat, o: Obj)
    requires Inv(h) && Current(h, c) && o in h.live
    ensures o.span < |h.spans| && o.span !in h.pool && OwnerOk(h, h.spans[o.span])
    ensures var g := Adopted(h, c, o); var s := h.spans[o.span];
      && MidInv(g) && DequesOpen(g) && Seen(g, o.span, s.epoch, Adopter(h, c, o.span))
      && |g.spans| == |h.spans| && g.ids == h.ids && g.pool == h.pool && g.hot == h.hot && g.deques == h.deques
      && g.spans[o.span].owner == Adopter(h, c, o.span)
      && g.spans[o.span].epoch == (if Dead(h, s.owner) then s.epoch.OnlyValue() else s.epoch)
      && g.spans[o.span].sc == s.sc && g.spans[o.span].NrFreeObjects() == s.NrFreeObjects() + 1
      && (forall j :: 0 <= j < |h.spans| && j != o.span ==> g.spans[j] == h.spans[j])
      && (Dead(h, s.owner) ==> !s.epoch.Exclusive())
      && s.NrFreeObjects() < Objects(s.sc)
      && Free(h, c, o) == Settle(g, o.span, s.epoch, Adopter(h, c, o.span), s.NrFreeObjects() + 1)
  {
    FreeStarts(h, c, o);
    assert SpanOk(h, o.span, h.spans[o.span]) && Obj(o.span, o.block) == o;
    ReleaseBlocks(o.span, h.spans[o.span], h.live, o.block, h.ids[c]);
    if h.spans[o.span].NrFreeObjects() >= Objects(h.spans[o.span].sc) { AllFree(o.span, h.spans[o.span], h.live); }
    if Dead(h, h.spans[o.span].owner) {
      DeadShared(h, o.span);
      ReviveOk(Release(h, c, o), c, o.span);
      ReviveOpen(Release(h, c, o), c, o.span);
    }
    hide MidInv, DequesOpen, BlocksOk, Objects, Threshold, Settle;
  }

  /** Settle swaps the epoch exactly if it still is the shared one that was read. */
  lemma SettleMarks(h: Heap, i: nat, seen: Epoch, owner: CoreId)
    requires Seen(h, i, seen, owner) && (seen.Exclusive() ==> h.spans[i].epoch == seen)
    ensures var s := h.spans[i]; var free := s.NrFreeObjects(); var g := Settle(h, i, seen, owner, free);
      var swaps := !seen.Exclusive() && s.epoch == seen;
      && |g.spans| == |h.spans| && g.hot == h.hot
      && (forall j :: 0 <= j < |h.spans| && j != i ==> g.spans[j] == h.spans[j])
      && g.pool == (if swaps && free == Objects(s.sc) then h.pool + {i} else h.pool)
      && g.spans[i] == s.(epoch :=
           if swaps && free == Objects(s.sc) then Epoch(seen.count + 1, Full)
           else if swaps && free > Threshold(s.sc) && !seen.IsReusable() then Epoch(seen.count + 1, Reusable)
           else s.epoch)
  {
    ReclaimFrame(h, i, seen, owner);
    ReuseFrame(h, i, seen, owner);
    hide Reclaim, Reuse, Objects, Threshold;
  }

  lemma MarkableSame(h: Heap, i: nat)
    requires i < |h.spans|
    ensures var s := h.spans[i]; var e := if Dead(h, s.owner) then s.epoch.OnlyValue() else s.epoch;
      (Dead(h, s.owner) ==> !s.epoch.Exclusive()) ==> (Markable(h, s) <==> !s.epoch.Exclusive() && e == s.epoch)
  {
    hide Dead;
  }

  /** Free of o by the thread of core c, before anything is said about deques. */
  lemma FreeMarks(h: Heap, c: nat, o: Obj)
    requires Inv(h) && Current(h, c) && o in h.live
    ensures o.span < |h.spans|
    ensures var i := o.span; var s := h.spans[i]; var g := Free(h, c, o);
      && |g.spans| == |h.spans| && g.hot == h.hot
      && (forall j :: 0 <= j < |h.spans| && j != i ==> g.spans[j] == h.spans[j])
      && g.pool == (if Recycles(h, i) then h.pool + {i} else h.pool) && i !in h.pool
      && g.spans[i].sc == s.sc && g.spans[i].NrFreeObjects() == s.NrFreeObjects() + 1
      && g.spans[i].owner == Adopter(h, c, i)
      && g.spans[i].epoch ==
           if Recycles(h, i) then Epoch(s.epoch.count + 1, Full)
           else if Reuses(h, i) && !s.epoch.IsReusable() then Epoch(s.epoch.count + 1, Reusable)
           else if Dead(h, s.owner) then s.epoch.OnlyValue()
           else s.epoch
  {
    hide MidInv, DequesOpen, BlocksOk, Objects, Threshold, Settle, Adopted, Free, Inv, Dead, Markable, OwnerOk;
    AdoptedOk(h, c, o);
    var a := Adopted(h, c, o);
    SettleMarks(a, o.span, h.spans[o.span].epoch, Adopter(h, c, o.span));
    MarkableSame(h, o.span);
  }

  /** A call of free puts its span into the pool exactly if this was the last block missing and the span is
      shared, except that the reusable span of a dead owner is left floating. Short of that, it makes the span reusable
      exactly if the span is shared and now above the threshold. A span whose owner is dead gets the caller as its owner. */
  lemma FreeRecyclesIff(h: Heap, t: nat, o: Obj)
    requires Reachable(h) && Enabled(h, Dealloc(t, o))
    ensures o.span < |h.spans| && h.threads[t] < |h.ids|
    ensures var s := h.spans[o.span]; var g := Next(h, Dealloc(t, o)); var free := s.NrFreeObjects() + 1;
      var shared := !s.epoch.Exclusive() && !(Dead(h, s.owner) && s.epoch.IsReusable());
      && |g.spans| == |h.spans|
      && (o.span in g.pool <==> free == Objects(s.sc) && shared)
      && (g.spans[o.span].epoch.IsReusable() <==> Threshold(s.sc) < free < Objects(s.sc) && shared)
      && (g.spans[o.span].epoch.Exclusive() <==> s.epoch.Exclusive() || o.span in g.pool)
      && g.spans[o.span].owner == (if Dead(h, s.owner) then h.ids[h.threads[t]] else s.owner)
  {
    hide Inv, Indexed, Reachable, Dead, Objects, Threshold, BlocksOk, OwnerOk, Free;
    ReachableInv(h);
    InvIndexed(h);
    FreeMarks(h, h.threads[t], o);
    FreeReusable(h, h.threads[t], o);
  }

  lemma FreeReusable(h: Heap, c: nat, o: Obj)
    requires Inv(h) && Current(h, c) && o in h.live
    ensures o.span < |h.spans|
    ensures var s := h.spans[o.span];
      && s.NrFreeObjects() < Objects(s.sc) && (s.epoch.IsReusable() ==> s.NrFreeObjects() > Threshold(s.sc))
      && (Dead(h, s.owner) ==> !s.epoch.Exclusive())
  {
    AdoptedOk(h, c, o);
    assert SpanOk(h, o.span, h.spans[o.span]);
    hide Objects, Threshold, BlocksOk;
  }

  // ----- free: deques -----

  lemma SettleDeques(h: Heap, i: nat, seen: Epoch, owner: CoreId, slot: Slot)
    requires MidInv(h) && DequesOpen(h) && Seen(h, i, seen, owner) && (seen.Exclusive() ==> h.spans[i].epoch == seen)
    ensures var s := h.spans[i]; var free := s.NrFreeObjects(); var g := Settle(h, i, seen, owner, free);
      var swaps := !seen.Exclusive() && s.epoch == seen; var d := DequeAt(h, slot);
      DequeAt(g, slot) ==
        if slot == Home(s) && swaps && free == Objects(s.sc) && seen.IsReusable() then RSpans(d.owner, Without(d.spans, i))
        else if slot == Home(s) && swaps && Threshold(s.sc) < free != Objects(s.sc) && !seen.IsReusable() then
          RSpans(d.owner, [i] + d.spans)
        else d
  {
    var s := h.spans[i];
    assert SpanOk(h, i, s);
    hide MidInv, Objects, Threshold, BlocksOk, Without;
    HomeOpen(h, i, seen, owner);
    hide DequesOpen;
  }

  lemma FreeDeques(h: Heap, c: nat, o: Obj, slot: Slot)
    requires Inv(h) && Current(h, c) && o in h.live
    ensures o.span < |h.spans|
    ensures var i := o.span; var s := h.spans[i]; var d := DequeAt(h, slot);
      var home := slot == Slot(Adopter(h, c, i).core, s.sc);
      DequeAt(Free(h, c, o), slot) ==
        if home && Recycles(h, i) && s.epoch.IsReusable() then RSpans(d.owner, Without(d.spans, i))
        else if home && Reuses(h, i) && !s.epoch.IsReusable() then RSpans(d.owner, [i] + d.spans)
        else d
  {
    hide MidInv, DequesOpen, BlocksOk, Objects, Threshold, Settle, Adopted, Free, Inv, Dead, Markable, OwnerOk, Without;
    AdoptedOk(h, c, o);
    var a := Adopted(h, c, o);
    SettleDeques(a, o.span, h.spans[o.span].epoch, Adopter(h, c, o.span), slot);
    MarkableSame(h, o.span);
  }

  /** A span that becomes reusable goes to the front of a deque; one that free takes out of a deque leaves the others
      in their order; every other deque stays as it is. */
  lemma FreeRelinks(h: Heap, t: nat, o: Obj, slot: Slot)
    requires Reachable(h) && Enabled(h, Dealloc(t, o))
    ensures var d, e := DequeAt(h, slot), DequeAt(Next(h, Dealloc(t, o)), slot); var i := o.span;
      && e.owner == d.owner
      && (i !in d.spans && i in e.spans ==> e.spans == [i] + d.spans)
      && (i in d.spans && i !in e.spans ==>
            exists k :: 0 <= k < |d.spans| && d.spans[k] == i && e.spans == d.spans[..k] + d.spans[k + 1..])
      && ((i in d.spans <==> i in e.spans) ==> e.spans == d.spans)
  {
    hide Indexed, Reachable, Dead, Objects, Threshold, BlocksOk, OwnerOk, Free, SpansOk, HotsOk, Without, Recycles, Reuses;
    ReachableInv(h);
    InvIndexed(h);
    FreeDeques(h, h.threads[t], o, slot);
    var d, i := DequeAt(h, slot), o.span;
    assert LinkOk(h, slot, d);
    WithoutKeeps(d.spans, i);
    if i in d.spans {
      var k :| 0 <= k < |d.spans| && d.spans[k] == i;
      WithoutAt(d.spans, k);
      assert Linkable(h, slot, i);
    } else {
      WithoutMissing(d.spans, i);
    }
  }

  // ----- malloc: where the span comes from -----

  /** Span i was fetched for the slot: the last span of the core's own deque, which is the one that became reusable
      first; only when the deque is empty one of the pool, and only without one there new memory. */
  ghost predicate Fetched(h: Heap, g: Heap, slot: Slot, pick: nat, i: nat) {
    var d := DequeAt(h, slot);
    if d.spans != [] then
      && i == d.spans[|d.spans| - 1] && g.deques == h.deques[slot := RSpans(d.owner, d.spans[..|d.spans| - 1])]
      && g.pool == h.pool && |g.spans| == |h.spans|
    else if pick in h.pool then
      i == pick && g.deques == h.deques && g.pool == h.pool - {pick} && |g.spans| == |h.spans|
    else
      i == |h.spans| && g.deques == h.deques && g.pool == h.pool && |g.spans| == |h.spans| + 1
  }

  predicate Unused(h: Heap, i: nat) {
    i < |h.spans| ==> h.spans[i].epoch.IsReusable() || i in h.pool
  }

  lemma GetSpanPrefers(h: Heap, c: nat, sc: nat, pick: nat)
    requires MidInv(h) && DequesOpen(h) && Current(h, c) && 0 < sc < NUM_CLASSES
    ensures var (g, i) := GetSpan(h, c, sc, pick);
      && Fetched(h, g, Slot(c, sc), pick, i) && g.hot == h.hot && Unused(h, i)
      && |h.spans| <= |g.spans| && forall j :: 0 <= j < |h.spans| && j != i ==> g.spans[j] == h.spans[j]
  {
    var slot := Slot(c, sc);
    GetSpanOk(h, c, sc, pick);
    assert LinkOk(h, slot, DequeAt(h, slot));
    if DequeAt(h, slot).spans != [] {
      TakeFirst(h, slot);
    }
    hide SpansOk, HotsOk, LinksOk, Built, Span.MoveRemoteToLocalObjects, DequesOpen, Got, Ready;
  }

  /** The hot span of the slot serves the next request by itself. */
  ghost predicate Stays(h: Heap, slot: Slot) {
    && slot in h.hot && h.hot[slot] < |h.spans|
    && var s := h.spans[h.hot[slot]]; s.local.len > 0 || s.NrFreeObjects() > Threshold(slot.sc)
  }

  /** A request that the slot answered with a block of span i. */
  ghost predicate Supplies(h: Heap, g: Heap, slot: Slot, pick: nat, i: nat) {
    && slot in g.hot && g.hot[slot] == i
    && (Stays(h, slot) ==>
          i == h.hot[slot] && g.hot == h.hot && g.pool == h.pool && g.deques == h.deques && |g.spans| == |h.spans|)
    && (!Stays(h, slot) ==> Fetched(h, g, slot, pick, i))
    && (!Stays(h, slot) && slot in h.hot ==>
          var used := h.hot[slot];
          && used < |h.spans| && used < |g.spans| && g.spans[used].epoch == h.spans[used].epoch.OnlyValue()
          && forall other :: other in g.hot ==> g.hot[other] != used)
  }

  lemma TakePlace(h: Heap, i: nat)
    requires i < |h.spans|
    ensures var g := TakeBlock(h, i).0; var m := MoveIn(h, i);
      && g.hot == h.hot && g.pool == h.pool && g.deques == h.deques && |g.spans| == |h.spans|
      && m.hot == h.hot && m.pool == h.pool && m.deques == h.deques && |m.spans| == |h.spans|
      && forall j :: 0 <= j < |h.spans| ==> g.spans[j].epoch == h.spans[j].epoch
  {
    hide FreeList.Pop, FreeList.Move;
  }

  lemma InstallPrefers(h: Heap, c: nat, sc: nat, pick: nat)
    requires MidInv(h) && DequesOpen(h) && Current(h, c) && 0 < sc < NUM_CLASSES
    ensures var g := Install(h, c, sc, pick); var slot := Slot(c, sc);
      && slot in g.hot && Fetched(h, g, slot, pick, g.hot[slot])
      && Unused(h, g.hot[slot])
      && g.hot == h.hot[slot := g.hot[slot]]
      && |h.spans| <= |g.spans| && forall j :: 0 <= j < |h.spans| && j != g.hot[slot] ==> g.spans[j] == h.spans[j]
  {
    hide MidInv, DequesOpen, GetSpan;
    GetSpanPrefers(h, c, sc, pick);
  }

  lemma HotAlone(h: Heap, slot: Slot)
    requires MidInv(h) && slot in h.hot
    ensures h.hot[slot] < |h.spans| && h.hot[slot] !in h.pool
    ensures forall other :: other in h.hot && other != slot ==> h.hot[other] != h.hot[slot]
  {
    assert HotOk(h, slot, h.hot[slot]);
    forall other | other in h.hot && other != slot ensures h.hot[other] != h.hot[slot] {
      assert HotOk(h, other, h.hot[other]);
    }
  }

  lemma ParkedOpen(h: Heap, c: nat, slot: Slot)
    requires DequesOpen(h) && Current(h, c) && slot in h.hot && h.hot[slot] < |h.spans|
    ensures DequesOpen(Park(h, slot)) && Current(Park(h, slot), c)
    ensures var e := Park(h, slot).spans[h.hot[slot]].epoch; e == h.spans[h.hot[slot]].epoch.OnlyValue() && !e.IsReusable()
  {
    GotOpen(h, Park(h, slot));
  }

  lemma ReplacePrefers(h: Heap, c: nat, sc: nat, pick: nat)
    requires MidInv(h) && DequesOpen(h) && Current(h, c) && 0 < sc < NUM_CLASSES && Slot(c, sc) in h.hot
    ensures h.hot[Slot(c, sc)] < |h.spans|
    ensures var slot := Slot(c, sc); var used := h.hot[slot]; var g := Install(Float(h, used), c, sc, pick);
      && slot in g.hot && Fetched(h, g, slot, pick, g.hot[slot])
      && used < |g.spans| && g.spans[used].epoch == h.spans[used].epoch.OnlyValue()
      && forall other :: other in g.hot ==> g.hot[other] != used
  {
    hide MidInv, DequesOpen, Install, BlocksOk, Float, Park, HotOk, Current, OnlySpan, Fetched, Dead;
    var slot := Slot(c, sc);
    HotAlone(h, slot);
    ParkOk(h, slot);
    ParkFrame(h, slot);
    var p := Park(h, slot);
    ParkedOpen(h, c, slot);
    InstallPrefers(p, c, sc, pick);
    InstallOverwrites(h, c, sc, pick);
    FetchedSame(h, p, Install(p, c, sc, pick), slot, pick, Install(p, c, sc, pick).hot[slot]);
  }

  lemma FetchedSame(h: Heap, p: Heap, g: Heap, slot: Slot, pick: nat, i: nat)
    requires Fetched(p, g, slot, pick, i) && p.deques == h.deques && p.pool == h.pool && |p.spans| == |h.spans|
    ensures Fetched(h, g, slot, pick, i)
  {
  }

  lemma HotSource(h: Heap, c: nat, sc: nat, pick: nat)
    requires MidInv(h) && DequesOpen(h) && Current(h, c) && 0 < sc < NUM_CLASSES && Slot(c, sc) in h.hot
    ensures SlotsExist(h)
    ensures var (g, a) := AllocateHot(h, c, sc, pick); a.Block? ==> Supplies(h, g, Slot(c, sc), pick, a.obj.span)
  {
    hide MidInv, DequesOpen, TakeBlock, MoveIn, Install, AllocateHot, Fetched, Threshold;
    var slot := Slot(c, sc);
    var i := h.hot[slot];
    CoreSlots(h);
    HotGives(h, c, sc, pick);
    TakeLocal(h, i);
    if !TakeBlock(h, i).1.Null? {
      TakePlace(h, i);
    } else if h.spans[i].NrFreeObjects() > Threshold(sc) {
      TakePlace(h, i);
      TakePlace(MoveIn(h, i), i);
      TakeWhich(MoveIn(h, i), i);
    } else {
      HotReplaces(h, c, sc, pick);
      ReplacePrefers(h, c, sc, pick);
      var k := Install(Float(h, i), c, sc, pick);
      TakePlace(k, k.hot[slot]);
      TakeWhich(k, k.hot[slot]);
      FetchedOn(h, k, TakeBlock(k, k.hot[slot]).0, slot, pick, k.hot[slot]);
    }
  }

  lemma FetchedOn(h: Heap, k: Heap, g: Heap, slot: Slot, pick: nat, i: nat)
    requires Fetched(h, k, slot, pick, i) && g.deques == k.deques && g.pool == k.pool && |g.spans| == |k.spans|
    ensures Fetched(h, g, slot, pick, i)
  {
  }

  lemma TakeWhich(h: Heap, i: nat)
    requires i < |h.spans|
    ensures var a := TakeBlock(h, i).1;
      !a.Large? && (a.Block? ==> a.obj.span == i)
  {
  }

  lemma TakeLocal(h: Heap, i: nat)
    requires MidInv(h) && i < |h.spans|
    ensures var a := TakeBlock(h, i).1;
      !a.Large? && (a.Block? ==> a.obj.span == i) && (a.Null? <==> h.spans[i].local.len == 0)
  {
    assert SpanOk(h, i, h.spans[i]);
    TakeBlocks(i, h.spans[i], h.live);
    hide BlocksOk, FreeList.Pop;
  }

  lemma InstalledSource(h: Heap, c: nat, sc: nat, pick: nat)
    requires MidInv(h) && DequesOpen(h) && Current(h, c) && 0 < sc < NUM_CLASSES && Slot(c, sc) !in h.hot
    ensures var k := Install(h, c, sc, pick);
      && c < |k.ids| && SlotsExist(k) && Slot(c, sc) in k.hot
      && var (g, a) := AllocateHot(k, c, sc, pick); a.Block? ==> Supplies(h, g, Slot(c, sc), pick, a.obj.span)
  {
    hide MidInv, DequesOpen, Install, AllocateHot, Fetched, Threshold, SlotsExist, BlocksOk;
    var slot := Slot(c, sc);
    InstallPrefers(h, c, sc, pick);
    InstallOk(h, c, sc, pick);
    var k := Install(h, c, sc, pick);
    HotSource(k, c, sc, pick);
    var (g, a) := AllocateHot(k, c, sc, pick);
    assert Stays(k, slot);
    if a.Block? { FetchedOn(h, k, g, slot, pick, a.obj.span); }
  }

  /** A request of one byte to 1 MiB is served from the hot span if that has a local block, or more free blocks than the
      threshold; nothing else changes place then. Otherwise the hot span is left floating, and the request goes to a
      span fetched from the own deque, the pool or the arena, in this order. */
  lemma MallocSource(h: Heap, t: nat, size: nat, pick: nat)
    requires Reachable(h) && Enabled(h, Malloc(t, size, pick)) && 0 < size <= MAX_MEDIUM_SIZE
    ensures Indexed(h) && 0 < SizeToClass(size) < NUM_CLASSES
    ensures var (g, a) := Allocate(h, h.threads[t], size, pick);
      a.Block? && Supplies(h, g, Slot(h.threads[t], SizeToClass(size)), pick, a.obj.span)
  {
    hide SizeToClass, Inv, MidInv, DequesOpen, AllocateHot, Install, SlotsExist, Supplies, Reachable;
    ReachableInv(h);
    InvIndexed(h);
    var c := h.threads[t];
    RequestOk(h, c, size);
    AllocateOk(h, c, size, pick);
    var slot := Slot(c, SizeToClass(size));
    if slot in h.hot {
      HotSource(h, c, slot.sc, pick);
    } else {
      InstallExists(h, c, slot.sc, pick);
      InstalledSource(h, c, slot.sc, pick);
    }
  }

  // ----- where a freed block comes back -----

  /** An exclusive span is only given its block. */
  lemma ExclusiveFree(h: Heap, c: nat, o: Obj)
    requires Inv(h) && Current(h, c) && o in h.live && o.span < |h.spans| && h.spans[o.span].epoch.Exclusive()
    ensures Free(h, c, o) == Release(h, c, o) && h.spans[o.span].local.len >= |h.spans[o.span].local.list|
  {
    FreeStarts(h, c, o);
    assert SpanOk(h, o.span, h.spans[o.span]);
    if Dead(h, h.spans[o.span].owner) { DeadShared(h, o.span); }
    hide MidInv, DequesOpen, BlocksOk, Objects, Threshold;
  }

  /** What free does to the lists of the span, in every case. */
  lemma FreedLists(h: Heap, c: nat, o: Obj)
    requires Inv(h) && Current(h, c) && o in h.live
    ensures o.span < |h.spans|
    ensures var s := h.spans[o.span]; var k := Free(h, c, o).spans; var r := s.Free(o.block, h.ids[c]);
      |k| == |h.spans| && k[o.span].local == r.local && k[o.span].remote == r.remote
  {
    hide MidInv, DequesOpen, BlocksOk, Objects, Threshold, Settle, Free, Inv, Dead, OwnerOk;
    AdoptedOk(h, c, o);
    var a := Adopted(h, c, o);
    SettleMarks(a, o.span, h.spans[o.span].epoch, Adopter(h, c, o.span));
  }

  /** A core that does not own the span leaves the local list alone, an owner the remote one. */
  lemma FreeChoosesList(h: Heap, t: nat, o: Obj)
    requires Reachable(h) && Enabled(h, Dealloc(t, o))
    ensures o.span < |h.spans| && h.threads[t] < |h.ids|
    ensures var s := h.spans[o.span]; var g := Next(h, Dealloc(t, o));
      && |g.spans| == |h.spans|
      && var r := g.spans[o.span];
      && (s.owner != h.ids[h.threads[t]] ==>
            r.local == s.local && |r.remote| == |s.remote| + 1 && o.block in r.remote)
      && (s.owner == h.ids[h.threads[t]] ==>
            r.remote == s.remote && r.local.len == s.local.len + 1 && o.block in r.local.list)
  {
    hide Inv, Indexed, Reachable, Free;
    ReachableInv(h);
    InvIndexed(h);
    FreedLists(h, h.threads[t], o);
  }

  /** Slot of the owner's hot span that holds o. */
  ghost predicate InHot(h: Heap, t: nat, o: Obj) {
    && t in h.threads && o in h.live && o.span < |h.spans|
    && var slot := Slot(h.threads[t], h.spans[o.span].sc); slot in h.hot && h.hot[slot] == o.span
  }

  lemma ReleaseTake(h: Heap, c: nat, o: Obj)
    requires c < |h.ids| && o.span < |h.spans| && o in h.live && h.spans[o.span].owner == h.ids[c]
    ensures TakeBlock(Release(h, c, o), o.span) == (h, Answer.Block(o))
  {
    var g := Release(h, c, o);
    PopUndoesPush(h.spans[o.span].local, o.block);
    assert h.live - {o} + {o} == h.live;
    assert h.spans[o.span := g.spans[o.span]][o.span := h.spans[o.span]] == h.spans;
  }

  lemma HotOwner(h: Heap, t: nat, o: Obj)
    requires Inv(h) && InHot(h, t, o)
    ensures h.threads[t] < |h.ids| && h.spans[o.span].epoch.Exclusive() && h.spans[o.span].owner == h.ids[h.threads[t]]
    ensures o.span !in h.pool && !Dead(h, h.spans[o.span].owner)
  {
    assert HotOk(h, Slot(h.threads[t], h.spans[o.span].sc), o.span);
  }

  lemma HotServes(h: Heap, c: nat, size: nat, pick: nat, i: nat)
    requires c < |h.ids| && SlotsExist(h) && 0 < SizeToClass(size)
    requires Slot(c, SizeToClass(size)) in h.hot && h.hot[Slot(c, SizeToClass(size))] == i
    ensures i < |h.spans|
    ensures !TakeBlock(h, i).1.Null? ==> Allocate(h, c, size, pick) == TakeBlock(h, i)
    ensures TakeBlock(h, i).1.Null? && h.spans[i].NrFreeObjects() > Threshold(SizeToClass(size)) ==>
              Allocate(h, c, size, pick) == TakeBlock(MoveIn(h, i), i)
  {
    hide SizeToClass, AllocateHot, TakeBlock, MoveIn;
    HotGives(h, c, SizeToClass(size), pick);
  }

  /** The block of a hot span that its own thread has freed is the one its next request of that class gets, and the
      two calls together change nothing. */
  lemma OwnFreeComesBack(h: Heap, t: nat, o: Obj, size: nat, pick: nat)
    requires Reachable(h) && InHot(h, t, o) && Enabled(h, Malloc(t, size, pick))
    requires SizeToClass(size) == h.spans[o.span].sc
    ensures var g := Next(h, Dealloc(t, o));
      Indexed(g) && Enabled(g, Malloc(t, size, pick)) && Allocate(g, g.threads[t], size, pick) == (h, Answer.Block(o))
  {
    hide Inv, Indexed, Reachable, Free, Allocate, TakeBlock, SizeToClass, Dead, SlotsExist;
    ReachableInv(h);
    InvIndexed(h);
    StepInv(h, Dealloc(t, o));
    var c, g := h.threads[t], Next(h, Dealloc(t, o));
    InvIndexed(g);
    HotOwner(h, t, o);
    ExclusiveFree(h, c, o);
    ReleaseTake(h, c, o);
    ClassPositive(h, o);
    IndexedSlots(g);
    HotServes(g, c, size, pick, o.span);
  }

  lemma ClassPositive(h: Heap, o: Obj)
    requires Inv(h) && o.span < |h.spans|
    ensures 0 < h.spans[o.span].sc < NUM_CLASSES
  {
    assert SpanOk(h, o.span, h.spans[o.span]);
  }

  lemma IndexedSlots(h: Heap)
    requires Indexed(h)
    ensures SlotsExist(h)
  {
  }

  lemma OtherOwner(h: Heap, t: nat, u: nat)
    requires Inv(h) && t in h.threads && u in h.threads && t != u
    ensures h.threads[t] < |h.ids| && h.threads[u] < |h.ids| && h.ids[h.threads[t]] != h.ids[h.threads[u]]
  {
    hide MidInv, DequesOpen;
  }

  /** The local list after a foreign free, and what a move makes of the remote one. */
  lemma ReleasedForeign(h: Heap, c: nat, o: Obj)
    requires MidInv(h) && c < |h.ids| && o.span < |h.spans| && o in h.live && h.spans[o.span].owner != h.ids[c]
    ensures var g := Release(h, c, o); var s := h.spans[o.span];
      && |g.spans| == |h.spans| && g.pool == h.pool && g.hot == h.hot && g.threads == h.threads && g.ids == h.ids
      && g.spans[o.span].local == s.local && g.spans[o.span].NrFreeObjects() == s.NrFreeObjects() + 1
      && TakeBlock(g, o.span).1 == TakeBlock(h, o.span).1
      && (s.local.len > 0 ==> TakeBlock(h, o.span).1.Block? && TakeBlock(h, o.span).1 != Answer.Block(o))
      && (s.local.len == 0 ==> TakeBlock(g, o.span).1.Null? && TakeBlock(MoveIn(g, o.span), o.span).1 == Answer.Block(o))
  {
    var s := h.spans[o.span];
    assert SpanOk(h, o.span, s);
    TakeBlocks(o.span, s, h.live);
    MoveOrders(s.local, [o.block] + s.remote);
    hide BlocksOk, MidInv, FreeList.Pop, FreeList.Move;
  }

  lemma UsedUp(h: Heap, t: nat, size: nat, pick: nat)
    requires Reachable(h) && Enabled(h, Malloc(t, size, pick)) && 0 < size <= MAX_MEDIUM_SIZE
    ensures Indexed(h) && 0 < SizeToClass(size)
    ensures var slot := Slot(h.threads[t], SizeToClass(size)); var a := Allocate(h, h.threads[t], size, pick).1;
      slot in h.hot && !Stays(h, slot) ==> a.Block? && a.obj.span != h.hot[slot]
  {
    hide Reachable, Allocate, SizeToClass, Stays, Fetched;
    MallocSource(h, t, size, pick);
  }

  /** A block that another thread has freed waits in the remote list as long as the hot span has local ones, which
      come as if it had not been freed. It is the next one exactly if there are none, and with it the free ones are more
      than the threshold. */
  lemma ForeignFreeComesBack(h: Heap, t: nat, u: nat, o: Obj, size: nat, pick: nat)
    requires Reachable(h) && InHot(h, t, o) && u in h.threads && u != t && Enabled(h, Malloc(t, size, pick))
    requires SizeToClass(size) == h.spans[o.span].sc
    ensures Indexed(h)
    ensures var g := Next(h, Dealloc(u, o)); var s := h.spans[o.span];
      && Indexed(g) && Enabled(g, Malloc(t, size, pick))
      && var a := Allocate(g, g.threads[t], size, pick).1;
      && (a == Answer.Block(o) <==> s.local.len == 0 && s.NrFreeObjects() + 1 > Threshold(s.sc))
      && (s.local.len > 0 ==> a == Allocate(h, h.threads[t], size, pick).1)
  {
    hide Inv, MidInv, Indexed, Reachable, Free, Release, Allocate, TakeBlock, MoveIn, SizeToClass, Dead, SlotsExist, Current;
    hide Threshold, Span.NrFreeObjects, Supplies;
    ReachableInv(h);
    InvIndexed(h);
    ReachableNext(h, Dealloc(u, o));
    var g := Next(h, Dealloc(u, o));
    ReachableInv(g);
    InvIndexed(g);
    HotOwner(h, t, o);
    OtherOwner(h, t, u);
    ExclusiveFree(h, h.threads[u], o);
    ReleasedForeign(h, h.threads[u], o);
    ClassPositive(h, o);
    IndexedSlots(g);
    IndexedSlots(h);
    HotServes(g, g.threads[t], size, pick, o.span);
    HotServes(h, h.threads[t], size, pick, o.span);
    if h.spans[o.span].local.len == 0 && g.spans[o.span].NrFreeObjects() <= Threshold(h.spans[o.span].sc) {
      NoClass(size);
      UsedUp(g, t, size, pick);
    }
  }

  // ----- cores -----

  /** A new thread gets a core that some thread has left, if there is one, under an identity that no span has. */
  lemma StartReuses(h: Heap, t: nat)
    requires Reachable(h) && Enabled(h, Start(t))
    ensures var g := Next(h, Start(t));
      && t in g.threads && g.threads[t] < |g.ids|
      && |g.ids| == (if exists c :: 0 <= c < |h.ids| && h.ids[c].Terminated? then |h.ids| else |h.ids| + 1)
      && (g.threads[t] < |h.ids| ==> h.ids[g.threads[t]].Terminated?)
      && (forall i :: 0 <= i < |g.spans| ==> g.spans[i].owner != g.ids[g.threads[t]])
  {
    ReachableInv(h);
    InvIndexed(h);
    StartShape(h, t);
    assert forall i :: 0 <= i < |h.spans| ==> OwnerOk(h, h.spans[i]) by {
      forall i | 0 <= i < |h.spans| ensures OwnerOk(h, h.spans[i]) {
        assert SpanOk(h, i, h.spans[i]);
      }
    }
    hide MidInv, DequesOpen, StartThread;
    if h.freeCores == [] {
      assert forall c :: 0 <= c < |h.ids| ==> c !in h.freeCores;
    } else {
      assert h.freeCores[0] in h.freeCores;
    }
  }

  /** The core a thread leaves is the one the next new thread gets. */
  lemma ExitThenStart(h: Heap, t: nat, u: nat)
    requires Reachable(h) && Enabled(h, Exit(t)) && Enabled(Next(h, Exit(t)), Start(u))
    ensures var g := Next(Next(h, Exit(t)), Start(u)); u in g.threads && g.threads[u] == h.threads[t] && |g.ids| == |h.ids|
  {
    ReachableInv(h);
    InvIndexed(h);
    ExitOk(h, t);
    DestroyOk(h, h.threads[t]);
    hide MidInv, DequesOpen, Destroy, Indexed, StartThread, FindFreeCore;
    var e := Next(h, Exit(t));
    StartShape(e, u);
    InvIndexed(e);
    FoundFirst(e);
  }

  lemma FoundFirst(h: Heap)
    ensures h.freeCores != [] ==> FindFreeCore(h).1 == h.freeCores[0] && |FindFreeCore(h).0.ids| == |h.ids|
  {
  }
}
