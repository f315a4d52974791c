/** What every call of the allocator keeps. */
module HeapInvariants {
  import opened CoreIds
  import opened Epochs
  import opened FreeLists
  import opened Heaps
  import opened Sequences
  import opened SizeClasses

  /** Every block of span i is in exactly one of four places: with the program, in the local chain or
      behind the bump pointer, or in the remote chain. */
  ghost predicate BlocksOk(i: nat, s: Span, live: set<Obj>) {
    var n := Objects(s.sc);
    && s.local.Valid(n) && Fresh(s.local, n, s.remote)
    && forall b: Block :: Obj(i, b) in live <==> b < n && !s.local.Holds(b, n) && b !in s.remote
  }

  ghost predicate OwnerOk(h: Heap, s: Span) {
    && 0 < s.sc < NUM_CLASSES
    && s.owner.Id? && s.owner.core < |h.ids| && s.owner.tag <= h.threadIds
  }

  /** The slot of the owner a span belongs to. */
  function Home(s: Span): Slot {
    Slot(if s.owner.Id? then s.owner.core else 0, s.sc)
  }

  ghost predicate PlaceOk(h: Heap, i: nat, s: Span) {
    && (s.epoch.Exclusive() && i !in h.pool ==> Home(s) in h.hot && h.hot[Home(s)] == i)
    && (i in h.pool ==> s.epoch.mark.Full? && s.NrFreeObjects() == Objects(s.sc))
    && (s.epoch.IsReusable() ==> s.NrFreeObjects() > Threshold(s.sc))
  }

  ghost predicate SpansOk(h: Heap) {
    forall i :: 0 <= i < |h.spans| ==> SpanOk(h, i, h.spans[i])
  }

  ghost predicate SpanOk(h: Heap, i: nat, s: Span) {
    BlocksOk(i, s, h.live) && OwnerOk(h, s) && PlaceOk(h, i, s)
  }

  ghost predicate HotOk(h: Heap, slot: Slot, i: nat) {
    && i < |h.spans| && i !in h.pool
    && h.spans[i].epoch.Exclusive() && Home(h.spans[i]) == slot
    && !Dead(h, h.spans[i].owner)
  }

  ghost predicate HotsOk(h: Heap) {
    forall slot :: slot in h.hot ==> HotOk(h, slot, h.hot[slot])
  }

  /** A deque holds exactly the reusable spans of its owner and class. */
  ghost predicate Linkable(h: Heap, slot: Slot, i: nat) {
    && i < |h.spans| && h.spans[i].epoch.IsReusable()
    && Home(h.spans[i]) == slot && DequeAt(h, slot).owner == h.spans[i].owner
  }

  ghost predicate LinkOk(h: Heap, slot: Slot, d: RSpans) {
    && (forall i :: i in d.spans <==> Linkable(h, slot, i))
    && (forall j, k :: 0 <= j < k < |d.spans| ==> d.spans[j] != d.spans[k])
  }

  ghost predicate LinksOk(h: Heap) {
    forall slot :: LinkOk(h, slot, DequeAt(h, slot))
  }

  ghost predicate IdsOk(h: Heap) {
    && (forall c :: 0 <= c < |h.ids| && h.ids[c].Id? ==> h.ids[c].core == c && h.ids[c].tag <= h.threadIds)
    && (forall c :: 0 <= c < |h.ids| ==> (c in h.freeCores <==> h.ids[c].Terminated?))
    && (forall k :: 0 <= k < |h.freeCores| ==> h.freeCores[k] < |h.ids|)
    && (forall j, k :: 0 <= j < k < |h.freeCores| ==> h.freeCores[j] != h.freeCores[k])
  }

  ghost predicate ThreadsOk(h: Heap) {
    && (forall t :: t in h.threads ==> h.threads[t] < |h.ids| && h.ids[h.threads[t]].Id?)
    && (forall t, u :: t in h.threads && u in h.threads && h.threads[t] == h.threads[u] ==> t == u)
  }

  ghost predicate DomainsOk(h: Heap) {
    && (forall i :: i in h.pool ==> i < |h.spans|)
    && (forall o :: o in h.live ==> o.span < |h.spans|)
    && (forall slot :: slot in h.deques ==> slot.core < |h.ids|)
  }

  /** Between calls every deque has the owner of its core. */
  ghost predicate DequesOpen(h: Heap) {
    forall slot: Slot :: slot.core < |h.ids| && slot.sc < NUM_CLASSES ==> DequeAt(h, slot).owner == h.ids[slot.core]
  }

  /** Holds in the middle of Init and Destroy too. */
  ghost predicate MidInv(h: Heap) {
    SpansOk(h) && HotsOk(h) && LinksOk(h) && DomainsOk(h)
  }

  ghost predicate Inv(h: Heap) {
    MidInv(h) && IdsOk(h) && ThreadsOk(h) && DequesOpen(h)
  }

  // ----- changes of the free lists of one span -----

  ghost predicate SameMarks(s: Span, s': Span) {
    s'.epoch == s.epoch && s'.owner == s.owner && s'.sc == s.sc
  }

  lemma ListsChanged(h: Heap, i: nat, s: Span, live: set<Obj>)
    requires MidInv(h) && i < |h.spans| && SameMarks(h.spans[i], s)
    requires BlocksOk(i, s, live) && PlaceOk(h, i, s)
    requires forall o: Obj :: o.span != i ==> (o in live <==> o in h.live)
    ensures MidInv(WithSpan(h, i, s).(live := live))
  {
    hide Objects, Threshold;
    var g := WithSpan(h, i, s).(live := live);
    forall j | 0 <= j < |g.spans| ensures SpanOk(g, j, g.spans[j]) {
      assert SpanOk(h, j, h.spans[j]);
    }
    forall slot ensures LinkOk(g, slot, DequeAt(g, slot)) {
      assert LinkOk(h, slot, DequeAt(h, slot));
      assert forall j: nat :: Linkable(g, slot, j) <==> Linkable(h, slot, j);
    }
    forall o | o in g.live ensures o.span < |g.spans| {
      assert o.span == i || o in h.live;
    }
  }

  /** A span that counts all its blocks as free has none in use. */
  lemma AllFree(i: nat, s: Span, live: set<Obj>)
    requires BlocksOk(i, s, live) && s.NrFreeObjects() >= Objects(s.sc)
    ensures forall b: Block :: Obj(i, b) !in live
  {
    hide Objects;
    var free := s.local.list + s.remote;
    forall k | 0 <= k < |free| ensures free[k] < s.local.bump {
      if k >= |s.local.list| {
        assert free[k] == s.remote[k - |s.local.list|];
      }
    }
    forall j, k | 0 <= j < k < |free| ensures free[j] != free[k] {
      if j < |s.local.list| <= k {
        assert free[k] == s.remote[k - |s.local.list|];
      }
    }
    AllBelow(free, s.local.bump);
    forall b: Block ensures Obj(i, b) !in live {
      if b < s.local.bump { assert b in free; }
    }
  }

  /** Span::Free gives the block back to one of the two lists. */
  lemma ReleaseBlocks(i: nat, s: Span, live: set<Obj>, b: Block, caller: CoreId)
    requires BlocksOk(i, s, live) && Obj(i, b) in live
    ensures BlocksOk(i, s.Free(b, caller), live - {Obj(i, b)})
    ensures s.Free(b, caller).NrFreeObjects() == s.NrFreeObjects() + 1
    ensures SameMarks(s, s.Free(b, caller))
  {
    var n := Objects(s.sc);
    hide Objects;
    var r := s.Free(b, caller);
    PushAddsOne(s.local, n, b);
    assert Fresh(r.local, n, r.remote);
    forall c: Block ensures Obj(i, c) in live - {Obj(i, b)} <==> c < n && !r.local.Holds(c, n) && c !in r.remote {
      assert Obj(i, c) in live <==> c < n && !s.local.Holds(c, n) && c !in s.remote;
    }
  }

  lemma ReleaseOk(h: Heap, c: nat, o: Obj)
    requires MidInv(h) && c < |h.ids| && o in h.live
    ensures o.span < |h.spans| && MidInv(Release(h, c, o))
    ensures o.span !in h.pool
    ensures var s := h.spans[o.span]; var r := Release(h, c, o).spans[o.span];
      if s.owner == h.ids[c] then r.remote == s.remote && o.block in r.local.list
      else r.local == s.local && o.block in r.remote
  {
    var s := h.spans[o.span];
    assert SpanOk(h, o.span, s) && Obj(o.span, o.block) == o;
    if s.NrFreeObjects() >= Objects(s.sc) {
      AllFree(o.span, s, h.live);
    }
    ReleaseBlocks(o.span, s, h.live, o.block, h.ids[c]);
    hide BlocksOk, Objects, Threshold;
    ListsChanged(h, o.span, s.Free(o.block, h.ids[c]), h.live - {o});
  }

  /** Span::Allocate takes one block out of the local list. */
  lemma TakeBlocks(i: nat, s: Span, live: set<Obj>)
    requires BlocksOk(i, s, live)
    ensures var (f, r) := s.local.Pop();
      && (r.None? <==> s.local.len == 0)
      && (r.Some? ==> BlocksOk(i, s.(local := f), live + {Obj(i, r.value)}) && Obj(i, r.value) !in live)
      && (r.Some? ==> r.value < Objects(s.sc))
  {
    var n := Objects(s.sc);
    hide Objects;
    PopTakesOne(s.local, n);
    var (f, r) := s.local.Pop();
    if r.Some? {
      assert forall k :: 0 <= k < |s.remote| ==> s.remote[k] != r.value;
      forall c: Block ensures Obj(i, c) in live + {Obj(i, r.value)} <==> c < n && !f.Holds(c, n) && c !in s.remote {
        assert Obj(i, c) in live <==> c < n && !s.local.Holds(c, n) && c !in s.remote;
      }
    }
  }

  lemma TakeOk(h: Heap, i: nat)
    requires MidInv(h) && i < |h.spans| && h.spans[i].epoch.Exclusive() && i !in h.pool
    ensures var (g, a) := TakeBlock(h, i);
      && MidInv(g)
      && (a.Null? <==> h.spans[i].local.len == 0)
      && (a.Null? ==> g == h)
      && !a.Large?
      && (a.Block? ==> a.obj.span == i && a.obj.block < Objects(h.spans[i].sc) && a.obj !in h.live && g.live == h.live + {a.obj})
  {
    var s := h.spans[i];
    assert SpanOk(h, i, s);
    TakeBlocks(i, s, h.live);
    hide BlocksOk, Objects, Threshold, FreeList.Pop;
    var (f, r) := s.local.Pop();
    if r.Some? {
      ListsChanged(h, i, s.(local := f), h.live + {Obj(i, r.value)});
    }
  }

  lemma MoveBlocks(i: nat, s: Span, live: set<Obj>)
    requires BlocksOk(i, s, live)
    ensures BlocksOk(i, s.MoveRemoteToLocalObjects(), live)
    ensures s.MoveRemoteToLocalObjects().NrFreeObjects() == s.NrFreeObjects() == s.MoveRemoteToLocalObjects().local.len
  {
    var n := Objects(s.sc);
    hide Objects;
    MoveConserves(s.local, n, s.remote);
  }

  lemma MoveOk(h: Heap, i: nat)
    requires MidInv(h) && i < |h.spans|
    ensures MidInv(MoveIn(h, i))
  {
    var s := h.spans[i];
    assert SpanOk(h, i, s);
    MoveBlocks(i, s, h.live);
    hide BlocksOk, Objects, Threshold;
    ListsChanged(h, i, s.MoveRemoteToLocalObjects(), h.live);
    assert MoveIn(h, i).live == h.live;
  }

  // ----- changes of the marks and the place of one span -----

  /** g differs from h in span i at most: its fields, its place, its slot. Span i may be new. */
  ghost predicate OnlySpan(h: Heap, g: Heap, i: nat) {
    && i < |g.spans| && |h.spans| <= |g.spans| <= |h.spans| + 1 && (|g.spans| > |h.spans| ==> i == |h.spans|)
    && (forall j :: 0 <= j < |h.spans| && j != i ==> g.spans[j] == h.spans[j])
    && g.ids == h.ids && g.threadIds == h.threadIds
    && (forall j: nat :: j != i ==> (j in g.pool <==> j in h.pool))
    && (forall o: Obj :: o.span != i ==> (o in g.live <==> o in h.live))
    && (forall slot :: slot in h.hot && h.hot[slot] != i ==> slot in g.hot && g.hot[slot] == h.hot[slot])
    && (forall slot :: slot in g.hot && g.hot[slot] != i ==> slot in h.hot && h.hot[slot] == g.hot[slot])
  }

  lemma SpanChanged(h: Heap, g: Heap, i: nat)
    requires MidInv(h) && OnlySpan(h, g, i)
    requires SpanOk(g, i, g.spans[i])
    requires forall slot :: slot in g.hot && g.hot[slot] == i ==> HotOk(g, slot, i)
    requires LinksOk(g)
    requires forall slot :: slot in g.deques ==> slot.core < |g.ids|
    ensures MidInv(g)
  {
    hide Objects, Threshold, BlocksOk, LinksOk;
    forall j | 0 <= j < |g.spans| ensures SpanOk(g, j, g.spans[j]) {
      if j != i {
        assert SpanOk(h, j, h.spans[j]);
        BlocksElsewhere(j, h.spans[j], h.live, g.live);
      }
    }
    forall slot | slot in g.hot ensures HotOk(g, slot, g.hot[slot]) {
      if g.hot[slot] != i {
        assert HotOk(h, slot, h.hot[slot]);
      }
    }
  }

  lemma BlocksElsewhere(j: nat, s: Span, live: set<Obj>, live': set<Obj>)
    requires BlocksOk(j, s, live)
    requires forall o: Obj :: o.span == j ==> (o in live' <==> o in live)
    ensures BlocksOk(j, s, live')
  {
    hide Objects;
    forall b: Block ensures Obj(j, b) in live' <==> Obj(j, b) in live {
      assert Obj(j, b).span == j;
    }
  }

  /** Other spans stay linked as they are when a deque that does not hold i keeps not holding it. */
  lemma LinksKept(h: Heap, g: Heap, i: nat, slot: Slot)
    requires LinkOk(h, slot, DequeAt(h, slot)) && OnlySpan(h, g, i)
    requires DequeAt(g, slot) == DequeAt(h, slot)
    requires (i < |h.spans| && Linkable(h, slot, i)) <==> Linkable(g, slot, i)
    ensures LinkOk(g, slot, DequeAt(g, slot))
  {
    forall j: nat ensures j in DequeAt(g, slot).spans <==> Linkable(g, slot, j) {
      assert j in DequeAt(h, slot).spans <==> Linkable(h, slot, j);
    }
  }

  /** A span in shared state that is not in the pool sits in no slot. */
  lemma NotHot(h: Heap, i: nat)
    requires MidInv(h) && i < |h.spans| && !h.spans[i].epoch.Exclusive()
    ensures forall slot :: slot in h.hot ==> h.hot[slot] != i
  {
    forall slot | slot in h.hot ensures h.hot[slot] != i {
      assert HotOk(h, slot, h.hot[slot]);
    }
  }

  /** The owner of a span outside the pool that died left the span shared and unlinked. */
  lemma DeadShared(h: Heap, i: nat)
    requires MidInv(h) && DequesOpen(h) && i < |h.spans| && i !in h.pool && Dead(h, h.spans[i].owner)
    ensures !h.spans[i].epoch.Exclusive()
    ensures forall slot :: !Linkable(h, slot, i)
  {
    hide BlocksOk, LinksOk;
    var s := h.spans[i];
    assert SpanOk(h, i, s);
    assert Home(s) in h.hot ==> HotOk(h, Home(s), h.hot[Home(s)]);
    forall slot ensures !Linkable(h, slot, i) {
      if Home(s) == slot {
        assert DequeAt(h, slot).owner == h.ids[slot.core];
      }
    }
  }

  ghost predicate Current(h: Heap, c: nat) {
    c < |h.ids| && h.ids[c].Id? && h.ids[c].core == c && h.ids[c].tag <= h.threadIds
  }

  lemma ReviveOk(h: Heap, c: nat, i: nat)
    requires MidInv(h) && DequesOpen(h) && Current(h, c)
    requires i < |h.spans| && i !in h.pool && Dead(h, h.spans[i].owner)
    ensures var g := Revive(h, c, i, h.spans[i].epoch);
      MidInv(g) && g.spans[i].owner == h.ids[c] && g.spans[i].epoch == h.spans[i].epoch.OnlyValue()
  {
    var s := h.spans[i];
    var g := Revive(h, c, i, s.epoch);
    assert SpanOk(h, i, s);
    DeadShared(h, i);
    NotHot(h, i);
    hide BlocksOk, Objects, Threshold, LinkOk;
    assert SpanOk(g, i, g.spans[i]) by {
      SameBlocks(i, s, g.spans[i], h.live);
    }
    forall slot ensures LinkOk(g, slot, DequeAt(g, slot)) {
      assert LinkOk(h, slot, DequeAt(h, slot));
      LinksKept(h, g, i, slot);
    }
    SpanChanged(h, g, i);
  }

  lemma ReviveOpen(h: Heap, c: nat, i: nat)
    requires DequesOpen(h) && c < |h.ids| && i < |h.spans|
    ensures DequesOpen(Revive(h, c, i, h.spans[i].epoch))
  {
  }

  lemma SameBlocks(i: nat, s: Span, s': Span, live: set<Obj>)
    requires BlocksOk(i, s, live) && s'.local == s.local && s'.remote == s.remote && s'.sc == s.sc
    ensures BlocksOk(i, s', live) && s'.NrFreeObjects() == s.NrFreeObjects()
  {
  }

  /** What Settle is called with: the span's owner, alive, and the epoch that was read, or the step from
      it to floating. */
  ghost predicate Seen(h: Heap, i: nat, seen: Epoch, owner: CoreId) {
    && i < |h.spans| && i !in h.pool
    && h.spans[i].owner == owner && owner.Id? && !Dead(h, owner)
    && (h.spans[i].epoch == seen || h.spans[i].epoch == seen.OnlyValue())
  }

  lemma WithoutKeeps(d: seq<nat>, i: nat)
    requires forall j, k :: 0 <= j < k < |d| ==> d[j] != d[k]
    ensures var r := Without(d, i);
      && (forall j :: j in r <==> j in d && j != i)
      && (forall j, k :: 0 <= j < k < |r| ==> r[j] != r[k])
  {
    if i in d {
      var k :| 0 <= k < |d| && d[k] == i;
      WithoutAt(d, k);
    } else {
      WithoutMissing(d, i);
    }
  }

  lemma {:induction false} WithoutMissing(d: seq<nat>, i: nat)
    requires i !in d
    ensures Without(d, i) == d
  {
    if d != [] {
      WithoutMissing(d[1..], i);
    }
  }

  /** Nothing but span i, the pool and one deque's list changes. */
  ghost predicate Settled(h: Heap, g: Heap, i: nat) {
    && OnlySpan(h, g, i) && |g.spans| == |h.spans|
    && g.hot == h.hot && g.live == h.live && g.freeCores == h.freeCores && g.threads == h.threads
    && (forall slot :: DequeAt(g, slot).owner == DequeAt(h, slot).owner)
    && (g.pool == h.pool || g.pool == h.pool + {i})
  }

  lemma SettledOpen(h: Heap, g: Heap, i: nat)
    requires DequesOpen(h) && Settled(h, g, i)
    ensures DequesOpen(g)
  {
    forall slot: Slot | slot.core < |g.ids| && slot.sc < NUM_CLASSES ensures DequeAt(g, slot).owner == g.ids[slot.core] {
      assert DequeAt(h, slot).owner == h.ids[slot.core];
    }
  }

  lemma ReclaimFrame(h: Heap, i: nat, seen: Epoch, owner: CoreId)
    requires i < |h.spans| && owner.Id?
    ensures var g := Reclaim(h, i, seen, owner); var r := NewMarkFull(h.spans[i].epoch, seen);
      && Settled(h, g, i)
      && (!r.ok ==> g == h)
      && (r.ok ==> g.spans[i] == h.spans[i].(epoch := Epoch(seen.count + 1, Full)) && i in g.pool)
      && (forall slot :: slot in g.deques ==> slot in h.deques || slot.core == owner.core)
  {
    hide Without;
  }

  lemma ReuseFrame(h: Heap, i: nat, seen: Epoch, owner: CoreId)
    requires i < |h.spans| && owner.Id?
    ensures var g := Reuse(h, i, seen, owner); var r := NewMarkReuse(h.spans[i].epoch, seen);
      && Settled(h, g, i) && g.pool == h.pool
      && (!r.ok ==> g == h)
      && (r.ok ==> g.spans[i] == h.spans[i].(epoch := Epoch(seen.count + 1, Reusable)))
      && (forall slot :: slot in g.deques ==> slot in h.deques || slot.core == owner.core)
  {
  }

  /** The assertions of Span::Delete hold: at that point no deque holds the span. The span goes to the
      pool whole. */
  lemma ReclaimOk(h: Heap, i: nat, seen: Epoch, owner: CoreId)
    requires MidInv(h) && DequesOpen(h) && Seen(h, i, seen, owner) && !seen.Exclusive()
    requires h.spans[i].NrFreeObjects() == Objects(h.spans[i].sc)
    ensures var g := Reclaim(h, i, seen, owner);
      MidInv(g) && (g == h || (i in g.pool && forall slot :: i !in DequeAt(g, slot).spans))
  {
    var s := h.spans[i];
    var g := Reclaim(h, i, seen, owner);
    ReclaimFrame(h, i, seen, owner);
    if NewMarkFull(s.epoch, seen).ok {
      assert SpanOk(h, i, s);
      NotHot(h, i);
      SameBlocks(i, s, g.spans[i], h.live);
      hide BlocksOk, Objects, Threshold, LinkOk, Reclaim;
      forall slot ensures LinkOk(g, slot, DequeAt(g, slot)) && i !in DequeAt(g, slot).spans {
        assert LinkOk(h, slot, DequeAt(h, slot));
        ReclaimLinks(h, i, seen, owner, slot);
      }
      SpanChanged(h, g, i);
    }
  }

  /** A span that is marked full and removed is linked nowhere; every other span is linked where it was. */
  lemma ReclaimLinkable(h: Heap, g: Heap, i: nat, slot: Slot, j: nat)
    requires i < |h.spans| && |g.spans| == |h.spans| && !g.spans[i].epoch.IsReusable()
    requires j != i && j < |h.spans| ==> g.spans[j] == h.spans[j]
    requires DequeAt(g, slot).owner == DequeAt(h, slot).owner
    ensures Linkable(g, slot, j) <==> Linkable(h, slot, j) && j != i
  {
  }

  /** The deque after Remove, or left alone. */
  lemma ReclaimDeque(h: Heap, i: nat, seen: Epoch, owner: CoreId, slot: Slot)
    requires Seen(h, i, seen, owner) && !seen.Exclusive() && h.spans[i].epoch == seen && OwnerOk(h, h.spans[i])
    requires slot == Home(h.spans[i]) && seen.IsReusable() ==> DequeAt(h, slot).owner == owner
    ensures var d, e := DequeAt(h, slot), DequeAt(Reclaim(h, i, seen, owner), slot);
      e == if slot == Home(h.spans[i]) && seen.IsReusable() then RSpans(owner, Without(d.spans, i)) else d
  {
    hide Without, Objects, Threshold;
  }

  lemma ReclaimKept(h: Heap, i: nat, seen: Epoch, owner: CoreId)
    requires i < |h.spans| && owner.Id? && !seen.Exclusive() && h.spans[i].epoch == seen
    ensures var g := Reclaim(h, i, seen, owner);
      && |g.spans| == |h.spans| && !g.spans[i].epoch.IsReusable()
      && (forall j :: 0 <= j < |h.spans| && j != i ==> g.spans[j] == h.spans[j])
  {
    ReclaimFrame(h, i, seen, owner);
    hide Reclaim;
  }

  lemma HomeOpen(h: Heap, i: nat, seen: Epoch, owner: CoreId)
    requires DequesOpen(h) && Seen(h, i, seen, owner) && OwnerOk(h, h.spans[i])
    ensures DequeAt(h, Home(h.spans[i])).owner == owner
  {
  }

  lemma ReclaimLinks(h: Heap, i: nat, seen: Epoch, owner: CoreId, slot: Slot)
    requires DequesOpen(h) && Seen(h, i, seen, owner) && !seen.Exclusive() && h.spans[i].epoch == seen
    requires OwnerOk(h, h.spans[i]) && LinkOk(h, slot, DequeAt(h, slot))
    ensures var g := Reclaim(h, i, seen, owner);
      LinkOk(g, slot, DequeAt(g, slot)) && i !in DequeAt(g, slot).spans
  {
    var g, d := Reclaim(h, i, seen, owner), DequeAt(h, slot);
    HomeOpen(h, i, seen, owner);
    ReclaimDeque(h, i, seen, owner, slot);
    WithoutKeeps(d.spans, i);
    ReclaimKept(h, i, seen, owner);
    hide Without, DequesOpen, Reclaim, DequeAt, OwnerOk, Objects, Threshold;
    forall j: nat ensures j in DequeAt(g, slot).spans <==> Linkable(g, slot, j) {
      assert j in d.spans <==> Linkable(h, slot, j);
      ReclaimLinkable(h, g, i, slot, j);
    }
    assert !Linkable(g, slot, i);
  }

  lemma ReuseOk(h: Heap, i: nat, seen: Epoch, owner: CoreId)
    requires MidInv(h) && DequesOpen(h) && Seen(h, i, seen, owner)
    requires h.spans[i].NrFreeObjects() > Threshold(h.spans[i].sc)
    ensures MidInv(Reuse(h, i, seen, owner))
  {
    var s := h.spans[i];
    var g := Reuse(h, i, seen, owner);
    ReuseFrame(h, i, seen, owner);
    if NewMarkReuse(s.epoch, seen).ok {
      assert SpanOk(h, i, s);
      NotHot(h, i);
      SameBlocks(i, s, g.spans[i], h.live);
      hide BlocksOk, Objects, Threshold, LinkOk, Reuse;
      forall slot ensures LinkOk(g, slot, DequeAt(g, slot)) {
        assert LinkOk(h, slot, DequeAt(h, slot));
        ReuseLinks(h, i, seen, owner, slot);
      }
      SpanChanged(h, g, i);
    }
  }

  lemma ReuseLinks(h: Heap, i: nat, seen: Epoch, owner: CoreId, slot: Slot)
    requires DequesOpen(h) && Seen(h, i, seen, owner) && NewMarkReuse(h.spans[i].epoch, seen).ok
    requires OwnerOk(h, h.spans[i]) && LinkOk(h, slot, DequeAt(h, slot))
    ensures var g := Reuse(h, i, seen, owner); LinkOk(g, slot, DequeAt(g, slot))
  {
    var s := h.spans[i];
    var g := Reuse(h, i, seen, owner);
    var d := DequeAt(h, slot);
    assert !Linkable(h, slot, i) && i !in d.spans;
    if slot == Home(s) {
      assert d.owner == owner;
      assert DequeAt(g, slot) == RSpans(owner, [i] + d.spans);
    } else {
      assert DequeAt(g, slot) == d;
    }
    forall j: nat ensures j in DequeAt(g, slot).spans <==> Linkable(g, slot, j) {
      assert j in d.spans <==> Linkable(h, slot, j);
    }
  }

  lemma SettleOk(h: Heap, i: nat, seen: Epoch, owner: CoreId)
    requires MidInv(h) && DequesOpen(h) && Seen(h, i, seen, owner)
    ensures var g := Settle(h, i, seen, owner, h.spans[i].NrFreeObjects());
      && MidInv(g) && DequesOpen(g) && Settled(h, g, i)
      && (g.pool != h.pool ==> forall b: Block :: Obj(i, b) !in h.live)
  {
    var s := h.spans[i];
    assert SpanOk(h, i, s);
    ReclaimFrame(h, i, seen, owner);
    ReuseFrame(h, i, seen, owner);
    hide MidInv, DequesOpen, Objects, Threshold, Reclaim, Reuse, Settled;
    SettledOpen(h, Settle(h, i, seen, owner, s.NrFreeObjects()), i) by { SettledSelf(h, i); }
    if s.NrFreeObjects() == Objects(s.sc) && !seen.Exclusive() {
      AllFree(i, s, h.live);
      ReclaimOk(h, i, seen, owner);
    } else if s.NrFreeObjects() > Threshold(s.sc) && !seen.IsReusable() {
      ReuseOk(h, i, seen, owner);
      assert Reuse(h, i, seen, owner).pool == h.pool;
    }
  }

  lemma SettledSelf(h: Heap, i: nat)
    requires i < |h.spans|
    ensures Settled(h, h, i)
  {
  }

  /** The parts of a heap that neither Free nor Allocate touch. */
  ghost predicate SameThreads(h: Heap, g: Heap) {
    g.ids == h.ids && g.threads == h.threads && g.freeCores == h.freeCores && g.threadIds == h.threadIds
  }

  lemma SameThreadsInv(h: Heap, g: Heap)
    requires Inv(h) && SameThreads(h, g) && MidInv(g) && DequesOpen(g)
    ensures Inv(g)
  {
    hide MidInv, DequesOpen;
  }

  lemma SettleFree(h: Heap, g: Heap, i: nat, seen: Epoch, owner: CoreId)
    requires Inv(h) && SameThreads(h, g)
    requires MidInv(g) && DequesOpen(g) && Seen(g, i, seen, owner)
    ensures var k := Settle(g, i, seen, owner, g.spans[i].NrFreeObjects());
      && Inv(k) && SameThreads(h, k) && k.live == g.live
      && (k.pool == g.pool || (k.pool == g.pool + {i} && forall b: Block :: Obj(i, b) !in k.live))
  {
    var k := Settle(g, i, seen, owner, g.spans[i].NrFreeObjects());
    SettleOk(g, i, seen, owner);
    assert SameThreads(h, k);
    hide Inv, MidInv, DequesOpen, Settle, SameThreads, Seen;
    SameThreadsInv(h, k);
  }

  /** Free keeps the invariant. A span that it gives to the pool has no block in use. */
  lemma FreeStarts(h: Heap, c: nat, o: Obj)
    requires Inv(h) && Current(h, c) && o in h.live
    ensures o.span < |h.spans| && OwnerOk(h, h.spans[o.span])
    ensures var g := Release(h, c, o);
      && MidInv(g) && DequesOpen(g) && SameThreads(h, g) && g.pool == h.pool && g.live == h.live - {o}
      && |g.spans| == |h.spans| && g.spans[o.span].owner == h.spans[o.span].owner
      && g.spans[o.span].epoch == h.spans[o.span].epoch && o.span !in h.pool && g.ids == h.ids
  {
    ReleaseOk(h, c, o);
    assert SpanOk(h, o.span, h.spans[o.span]);
    hide MidInv;
  }

  lemma FreeOk(h: Heap, c: nat, o: Obj)
    requires Inv(h) && Current(h, c) && o in h.live
    ensures o.span < |h.spans|
    ensures var g := Free(h, c, o);
      && Inv(g) && SameThreads(h, g) && g.live == h.live - {o}
      && (g.pool == h.pool || (g.pool == h.pool + {o.span} && forall b: Block :: Obj(o.span, b) !in g.live))
  {
    hide MidInv, Settle, Objects, Threshold, Inv, DequesOpen, Release;
    FreeStarts(h, c, o);
    var i := o.span;
    var s, g := h.spans[i], Release(h, c, o);
    if Dead(h, s.owner) {
      ReviveOk(g, c, i);
      ReviveOpen(g, c, i);
      SettleFree(h, Revive(g, c, i, s.epoch), i, s.epoch, h.ids[c]);
    } else {
      SettleFree(h, g, i, s.epoch, s.owner);
    }
  }

  // ----- Core::GetSpan -----

  lemma BuiltBlocks(i: nat, e: Epoch, sc: nat, owner: CoreId, live: set<Obj>)
    requires forall b: Block :: Obj(i, b) !in live
    ensures BlocksOk(i, Built(e, sc, owner), live)
    ensures Built(e, sc, owner).NrFreeObjects() == Built(e, sc, owner).local.len == Objects(sc)
  {
    hide Objects;
    NewHoldsAll(Objects(sc));
  }

  /** What a core gets to allocate from: exclusive, of its class, its own, with a free block. */
  ghost predicate Ready(h: Heap, c: nat, sc: nat, i: nat) {
    && c < |h.ids| && i < |h.spans| && i !in h.pool
    && h.spans[i].epoch.Exclusive() && h.spans[i].owner == h.ids[c] && h.spans[i].sc == sc
    && h.spans[i].local.len > 0
    && BlocksOk(i, h.spans[i], h.live)
  }

  /** g is h with span i taken out of the place it had. */
  ghost predicate Got(h: Heap, g: Heap, i: nat) {
    && OnlySpan(h, g, i) && g.hot == h.hot && g.live == h.live && SameThreads(h, g)
    && (forall slot :: DequeAt(g, slot).owner == DequeAt(h, slot).owner)
    && (forall slot :: slot in g.deques ==> slot in h.deques)
  }

  /** GetSpan's loop ends after the first span it takes. */
  lemma TakeFirst(h: Heap, slot: Slot)
    requires LinkOk(h, slot, DequeAt(h, slot)) && DequeAt(h, slot).spans != []
    ensures var d := DequeAt(h, slot); var last := |d.spans| - 1; var i := d.spans[last]; var (g, r) := TakeReusable(h, slot);
      && Linkable(h, slot, i) && r == Some(i)
      && g.deques == h.deques[slot := RSpans(d.owner, d.spans[..last])]
      && g.spans == h.spans[i := h.spans[i].(epoch := Epoch(h.spans[i].epoch.count + 1, Hot)).MoveRemoteToLocalObjects()]
      && g == h.(deques := g.deques, spans := g.spans)
  {
    var d := DequeAt(h, slot);
    assert d.spans[|d.spans| - 1] in d.spans;
    hide FreeList.Move;
  }

  lemma GotUpdate(h: Heap, slot: Slot, i: nat, s: Span, rest: seq<nat>)
    requires i < |h.spans| && slot in h.deques
    ensures Got(h, h.(deques := h.deques[slot := RSpans(h.deques[slot].owner, rest)], spans := h.spans[i := s]), i)
  {
  }

  lemma TakenGot(h: Heap, slot: Slot)
    requires LinkOk(h, slot, DequeAt(h, slot)) && DequeAt(h, slot).spans != []
    ensures var (g, r) := TakeReusable(h, slot); r.Some? && Got(h, g, r.value)
  {
    TakeFirst(h, slot);
    var d := DequeAt(h, slot);
    var last := |d.spans| - 1;
    var s := h.spans[d.spans[last]];
    GotUpdate(h, slot, d.spans[last], s.(epoch := Epoch(s.epoch.count + 1, Hot)).MoveRemoteToLocalObjects(), d.spans[..last]);
    hide TakeReusable, Span.MoveRemoteToLocalObjects, LinkOk, Got;
  }

  lemma TakenReady(h: Heap, c: nat, sc: nat)
    requires MidInv(h) && DequesOpen(h) && Current(h, c) && 0 < sc < NUM_CLASSES
    requires DequeAt(h, Slot(c, sc)).spans != []
    ensures var (g, r) := TakeReusable(h, Slot(c, sc));
      && r.Some? && r.value < |h.spans| && !h.spans[r.value].epoch.Exclusive()
      && Ready(g, c, sc, r.value)
  {
    var slot := Slot(c, sc);
    assert LinkOk(h, slot, DequeAt(h, slot));
    assert DequeAt(h, slot).owner == h.ids[c];
    TakeFirst(h, slot);
    var i := TakeReusable(h, slot).1.value;
    var s := h.spans[i];
    assert SpanOk(h, i, s);
    MoveBlocks(i, s.(epoch := Epoch(s.epoch.count + 1, Hot)), h.live);
    hide BlocksOk, Objects, LinkOk, FreeList.Move, TakeReusable, Threshold, MidInv, DequesOpen;
  }

  lemma TakeReusableOk(h: Heap, c: nat, sc: nat)
    requires MidInv(h) && DequesOpen(h) && Current(h, c) && 0 < sc < NUM_CLASSES
    ensures var (g, r) := TakeReusable(h, Slot(c, sc));
      && (r.None? ==> g == h)
      && (r.Some? ==> Got(h, g, r.value) && LinksOk(g) && Ready(g, c, sc, r.value)
                      && r.value < |h.spans| && !h.spans[r.value].epoch.Exclusive())
  {
    var slot := Slot(c, sc);
    if DequeAt(h, slot).spans != [] {
      assert LinkOk(h, slot, DequeAt(h, slot));
      TakenReady(h, c, sc);
      TakenGot(h, slot);
      TakeFirst(h, slot);
      var g := TakeReusable(h, slot).0;
      hide BlocksOk, Ready, LinkOk, FreeList.Move, TakeReusable, SpansOk, HotsOk, RemoveBack, Acquire, MoveIn;
      forall t ensures LinkOk(g, t, DequeAt(g, t)) {
        assert LinkOk(h, t, DequeAt(h, t));
        TakeLast(h, g, slot, TakeReusable(h, slot).1.value, t);
      }
    }
  }

  lemma TakeLast(h: Heap, g: Heap, slot: Slot, i: nat, t: Slot)
    requires OnlySpan(h, g, i) && i < |h.spans| && g.spans[i].epoch.Exclusive()
    requires var d := DequeAt(h, slot);
      && d.spans != [] && i == d.spans[|d.spans| - 1] && Linkable(h, slot, i)
      && g.deques == h.deques[slot := RSpans(d.owner, d.spans[..|d.spans| - 1])]
    requires LinkOk(h, t, DequeAt(h, t))
    ensures LinkOk(g, t, DequeAt(g, t))
  {
    var d := DequeAt(h, t);
    forall j: nat ensures j in DequeAt(g, t).spans <==> Linkable(g, t, j) {
      assert j in d.spans <==> Linkable(h, t, j);
      if t == slot && j in d.spans && j != i {
        var k :| 0 <= k < |d.spans| && d.spans[k] == j;
        assert d.spans[..|d.spans| - 1][k] == j;
      }
    }
  }

  lemma NewFrame(h: Heap, c: nat, sc: nat, pick: nat)
    requires Current(h, c) && DomainsOk(h)
    ensures var (g, i) := NewSpan(h, sc, h.ids[c], pick);
      && Got(h, g, i) && g.deques == h.deques && i !in g.pool
      && (i < |h.spans| <==> pick in h.pool) && (i < |h.spans| ==> i == pick)
      && g.spans[i] == Built(if i < |h.spans| then h.spans[i].epoch else Epoch(0, Floating), sc, h.ids[c])
  {
    hide Built;
  }

  lemma NewReady(h: Heap, c: nat, sc: nat, pick: nat)
    requires MidInv(h) && Current(h, c) && 0 < sc < NUM_CLASSES
    ensures var (g, i) := NewSpan(h, sc, h.ids[c], pick); Ready(g, c, sc, i)
  {
    NewFrame(h, c, sc, pick);
    var (g, i) := NewSpan(h, sc, h.ids[c], pick);
    if i < |h.spans| {
      assert SpanOk(h, i, h.spans[i]);
      AllFree(i, h.spans[i], h.live);
    }
    TableSound(sc);
    BuiltBlocks(i, if i < |h.spans| then h.spans[i].epoch else Epoch(0, Floating), sc, h.ids[c], h.live);
    hide BlocksOk, NewSpan, MidInv, Got;
  }

  /** The constructor leaves a span exclusive in both cases: fresh memory becomes hot, and a recycled
      span stays marked full. */
  lemma NewOk(h: Heap, c: nat, sc: nat, pick: nat)
    requires MidInv(h) && Current(h, c) && 0 < sc < NUM_CLASSES
    ensures var (g, i) := NewSpan(h, sc, h.ids[c], pick);
      && Got(h, g, i) && LinksOk(g) && Ready(g, c, sc, i)
      && (i < |h.spans| <==> pick in h.pool)
      && (i < |h.spans| ==> i == pick && g.spans[i].epoch == h.spans[i].epoch && h.spans[i].epoch.mark.Full?)
      && (i >= |h.spans| ==> g.spans[i].epoch == Epoch(1, Hot))
  {
    NewReady(h, c, sc, pick);
    NewFrame(h, c, sc, pick);
    var (g, i) := NewSpan(h, sc, h.ids[c], pick);
    if i < |h.spans| {
      assert SpanOk(h, i, h.spans[i]);
    }
    hide BlocksOk, LinkOk, NewSpan, Ready;
    forall slot ensures LinkOk(g, slot, DequeAt(g, slot)) {
      assert LinkOk(h, slot, DequeAt(h, slot));
      LinksKept(h, g, i, slot);
    }
  }

  lemma GetSpanOk(h: Heap, c: nat, sc: nat, pick: nat)
    requires MidInv(h) && DequesOpen(h) && Current(h, c) && 0 < sc < NUM_CLASSES
    ensures var (g, i) := GetSpan(h, c, sc, pick);
      && Got(h, g, i) && LinksOk(g) && Ready(g, c, sc, i)
      && forall slot :: slot in h.hot ==> h.hot[slot] != i
  {
    TakeReusableOk(h, c, sc);
    var (g, r) := TakeReusable(h, Slot(c, sc));
    if r.Some? {
      NotHot(h, r.value);
    } else {
      NewOk(h, c, sc, pick);
      NewNotHot(h, c, sc, pick);
    }
  }

  lemma NewNotHot(h: Heap, c: nat, sc: nat, pick: nat)
    requires HotsOk(h) && Current(h, c)
    ensures var i := NewSpan(h, sc, h.ids[c], pick).1; forall slot :: slot in h.hot ==> h.hot[slot] != i
  {
    hide Built;
    forall slot | slot in h.hot ensures h.hot[slot] != NewSpan(h, sc, h.ids[c], pick).1 {
      assert HotOk(h, slot, h.hot[slot]);
    }
  }

  /** A span that came ready goes into the empty slot. */
  lemma PlacedOk(h: Heap, g: Heap, c: nat, sc: nat, i: nat)
    requires MidInv(h) && Current(h, c) && 0 < sc < NUM_CLASSES && Slot(c, sc) !in h.hot
    requires Got(h, g, i) && LinksOk(g) && Ready(g, c, sc, i)
    requires forall slot :: slot in h.hot ==> h.hot[slot] != i
    ensures MidInv(g.(hot := g.hot[Slot(c, sc) := i]))
  {
    var k := g.(hot := g.hot[Slot(c, sc) := i]);
    hide BlocksOk, Objects, Threshold;
    assert LinksOk(k) by {
      SameLinks(g, k);
    }
    hide LinkOk, LinksOk, SpansOk;
    SpanChanged(h, k, i);
  }

  lemma SameLinks(g: Heap, k: Heap)
    requires LinksOk(g) && k.spans == g.spans && k.deques == g.deques
    ensures LinksOk(k)
  {
    forall slot ensures LinkOk(k, slot, DequeAt(k, slot)) {
      assert LinkOk(g, slot, DequeAt(g, slot));
      assert forall j: nat :: Linkable(k, slot, j) <==> Linkable(g, slot, j);
    }
  }

  lemma InstallOk(h: Heap, c: nat, sc: nat, pick: nat)
    requires MidInv(h) && DequesOpen(h) && Current(h, c) && 0 < sc < NUM_CLASSES
    requires Slot(c, sc) !in h.hot
    ensures var k := Install(h, c, sc, pick);
      && MidInv(k) && DequesOpen(k) && SameThreads(h, k) && k.live == h.live
      && Slot(c, sc) in k.hot && Ready(k, c, sc, k.hot[Slot(c, sc)])
  {
    hide MidInv, BlocksOk, Objects, Threshold, LinksOk, GetSpan;
    GetSpanOk(h, c, sc, pick);
    var (g, i) := GetSpan(h, c, sc, pick);
    PlacedOk(h, g, c, sc, i);
    GotOpen(h, Install(h, c, sc, pick));
  }

  lemma GotOpen(h: Heap, g: Heap)
    requires DequesOpen(h) && g.ids == h.ids
    requires forall slot :: DequeAt(g, slot).owner == DequeAt(h, slot).owner
    ensures DequesOpen(g)
  {
    forall slot: Slot | slot.core < |g.ids| && slot.sc < NUM_CLASSES ensures DequeAt(g, slot).owner == g.ids[slot.core] {
      assert DequeAt(h, slot).owner == h.ids[slot.core];
    }
  }

  // ----- NewMarkFloating -----

  /** The hot span of a slot marked floating and the slot emptied. */
  function Park(h: Heap, slot: Slot): Heap
    requires slot in h.hot && h.hot[slot] < |h.spans|
  {
    Float(h, h.hot[slot]).(hot := h.hot - {slot})
  }

  lemma ParkFrame(h: Heap, slot: Slot)
    requires slot in h.hot && h.hot[slot] < |h.spans|
    requires forall t :: t in h.hot && t != slot ==> h.hot[t] != h.hot[slot]
    ensures var i := h.hot[slot]; var g := Park(h, slot);
      && OnlySpan(h, g, i) && SameThreads(h, g) && g.deques == h.deques && g.pool == h.pool && g.live == h.live
      && g.spans[i] == h.spans[i].(epoch := h.spans[i].epoch.OnlyValue())
      && g.hot == h.hot - {slot} && |g.spans| == |h.spans|
      && forall t :: t in g.hot ==> g.hot[t] != i
  {
  }

  lemma ParkOk(h: Heap, slot: Slot)
    requires MidInv(h) && slot in h.hot
    ensures h.hot[slot] < |h.spans| && MidInv(Park(h, slot))
  {
    var i := h.hot[slot];
    assert HotOk(h, slot, i);
    forall t | t in h.hot && t != slot ensures h.hot[t] != i {
      assert HotOk(h, t, h.hot[t]);
    }
    ParkFrame(h, slot);
    var g := Park(h, slot);
    assert SpanOk(h, i, h.spans[i]);
    SameBlocks(i, h.spans[i], g.spans[i], h.live);
    hide BlocksOk, Objects, Threshold, LinkOk, Park, HotsOk, SpansOk;
    assert LinksOk(g) by {
      forall t ensures LinkOk(g, t, DequeAt(g, t)) {
        assert LinkOk(h, t, DequeAt(h, t));
        LinksKept(h, g, i, t);
      }
    }
    hide LinksOk, OnlySpan;
    SpanChanged(h, g, i);
  }

  lemma {:induction false} TakeIgnoresHot(h: Heap, hot: map<Slot, nat>, slot: Slot)
    ensures var (g, r) := TakeReusable(h, slot); TakeReusable(h.(hot := hot), slot) == (g.(hot := hot), r)
    decreases |DequeAt(h, slot).spans|
  {
    var d := DequeAt(h, slot);
    if d.spans != [] {
      TakeIgnoresHot(h.(deques := h.deques[slot := RSpans(d.owner, d.spans[..|d.spans| - 1])]), hot, slot);
    }
  }

  /** The slot is overwritten, so it does not matter that it still named the floating span. */
  lemma InstallOverwrites(h: Heap, c: nat, sc: nat, pick: nat)
    requires c < |h.ids| && Slot(c, sc) in h.hot && h.hot[Slot(c, sc)] < |h.spans|
    ensures Install(Float(h, h.hot[Slot(c, sc)]), c, sc, pick) == Install(Park(h, Slot(c, sc)), c, sc, pick)
  {
    var slot := Slot(c, sc);
    var f, p := Float(h, h.hot[slot]), Park(h, slot);
    TakeIgnoresHot(f, p.hot, slot);
    assert p == f.(hot := p.hot);
    var (g, i) := GetSpan(f, c, sc, pick);
    hide TakeReusable, Float;
    assert GetSpan(p, c, sc, pick) == (g.(hot := p.hot), i);
    TakeExists(f, slot);
    assert g.hot == h.hot;
    assert (h.hot - {slot})[slot := i] == h.hot[slot := i];
  }

  // ----- Core::Allocate -----

  /** What a successful allocation hands out. */
  ghost predicate Given(h: Heap, g: Heap, a: Answer, sc: nat) {
    && a.Block? && a.obj !in h.live && g.live == h.live + {a.obj}
    && a.obj.span < |g.spans| && g.spans[a.obj.span].sc == sc && a.obj.block < Objects(sc)
  }

  lemma TakeReady(h: Heap, sc: nat, i: nat)
    requires MidInv(h) && DequesOpen(h) && i < |h.spans| && h.spans[i].epoch.Exclusive() && i !in h.pool
    requires h.spans[i].sc == sc && h.spans[i].local.len > 0
    ensures var (g, a) := TakeBlock(h, i); MidInv(g) && DequesOpen(g) && SameThreads(h, g) && Given(h, g, a, sc)
  {
    TakeOk(h, i);
    TakeFrame(h, i);
    hide MidInv, Objects, TakeBlock;
    GotOpen(h, TakeBlock(h, i).0);
  }

  lemma TakeFrame(h: Heap, i: nat)
    requires i < |h.spans|
    ensures var g := TakeBlock(h, i).0;
      && SameThreads(h, g) && g.deques == h.deques && |g.spans| == |h.spans| && SameMarks(h.spans[i], g.spans[i])
  {
    hide FreeList.Pop;
  }

  /** Given, with everything the caller of Allocate relies on. */
  ghost predicate Served(h: Heap, g: Heap, a: Answer, sc: nat) {
    MidInv(g) && DequesOpen(g) && SameThreads(h, g) && Given(h, g, a, sc)
  }

  lemma MoveFrame(h: Heap, i: nat)
    requires MidInv(h) && DequesOpen(h) && i < |h.spans|
    ensures var g := MoveIn(h, i);
      && MidInv(g) && DequesOpen(g) && SameThreads(h, g) && g.live == h.live && g.pool == h.pool
      && i < |g.spans| && SameMarks(h.spans[i], g.spans[i]) && g.spans[i].local.len == h.spans[i].NrFreeObjects()
  {
    assert SpanOk(h, i, h.spans[i]);
    MoveOk(h, i);
    MoveBlocks(i, h.spans[i], h.live);
    hide MidInv, BlocksOk, FreeList.Move;
  }

  /** The hot span had no local block and too few remote ones. */
  lemma ReplaceOk(h: Heap, c: nat, sc: nat, pick: nat)
    requires MidInv(h) && DequesOpen(h) && Current(h, c) && 0 < sc < NUM_CLASSES && Slot(c, sc) in h.hot
    ensures h.hot[Slot(c, sc)] < |h.spans|
    ensures var k := Install(Float(h, h.hot[Slot(c, sc)]), c, sc, pick);
      && MidInv(k) && DequesOpen(k) && SameThreads(h, k) && k.live == h.live
      && Slot(c, sc) in k.hot && Ready(k, c, sc, k.hot[Slot(c, sc)])
  {
    var slot := Slot(c, sc);
    assert HotOk(h, slot, h.hot[slot]);
    ParkOk(h, slot);
    hide MidInv, Ready, Install, BlocksOk;
    GotOpen(h, Park(h, slot));
    InstallOk(Park(h, slot), c, sc, pick);
    InstallOverwrites(h, c, sc, pick);
  }

  // The three ways through AllocateHot.

  lemma HotGives(h: Heap, c: nat, sc: nat, pick: nat)
    requires c < |h.ids| && SlotsExist(h) && Slot(c, sc) in h.hot
    ensures var i := h.hot[Slot(c, sc)];
      && (!TakeBlock(h, i).1.Null? ==> AllocateHot(h, c, sc, pick) == TakeBlock(h, i))
      && (TakeBlock(h, i).1.Null? && h.spans[i].NrFreeObjects() > Threshold(sc) ==>
            AllocateHot(h, c, sc, pick) == TakeBlock(MoveIn(h, i), i))
  {
    hide TakeBlock, MoveIn, Install, Threshold;
  }

  lemma HotReplaces(h: Heap, c: nat, sc: nat, pick: nat)
    requires c < |h.ids| && SlotsExist(h) && Slot(c, sc) in h.hot
    requires TakeBlock(h, h.hot[Slot(c, sc)]).1.Null?
    requires h.spans[h.hot[Slot(c, sc)]].NrFreeObjects() <= Threshold(sc)
    ensures var k := Install(Float(h, h.hot[Slot(c, sc)]), c, sc, pick);
      && SlotsExist(k) && Slot(c, sc) in k.hot
      && AllocateHot(h, c, sc, pick) == TakeBlock(k, k.hot[Slot(c, sc)])
  {
    InstallExists(Float(h, h.hot[Slot(c, sc)]), c, sc, pick);
    hide TakeBlock, MoveIn, Install, Threshold;
  }

  lemma TakeNone(h: Heap, i: nat)
    requires i < |h.spans|
    ensures TakeBlock(h, i).1.Null? ==> h.spans[i].local.len == 0
  {
  }

  lemma AllocateHotOk(h: Heap, c: nat, sc: nat, pick: nat)
    requires MidInv(h) && DequesOpen(h) && Current(h, c) && 0 < sc < NUM_CLASSES && Slot(c, sc) in h.hot
    ensures SlotsExist(h)
    ensures var (g, a) := AllocateHot(h, c, sc, pick); Served(h, g, a, sc)
  {
    var i := h.hot[Slot(c, sc)];
    assert forall slot :: slot in h.hot ==> HotOk(h, slot, h.hot[slot]);
    TakeOk(h, i);
    TakeNone(h, i);
    HotGives(h, c, sc, pick);
    hide MidInv, DequesOpen, Objects, Threshold, TakeBlock, Install, SlotsExist, Given, SameMarks;
    hide Float, MoveIn, AllocateHot;
    if !TakeBlock(h, i).1.Null? {
      TakeReady(h, sc, i);
    } else if h.spans[i].NrFreeObjects() > Threshold(sc) {
      MoveFrame(h, i);
      TakeReady(MoveIn(h, i), sc, i);
      GivenVia(h, MoveIn(h, i), TakeBlock(MoveIn(h, i), i).0, TakeBlock(MoveIn(h, i), i).1, sc);
    } else {
      HotReplaces(h, c, sc, pick);
      ReplaceOk(h, c, sc, pick);
      var k := Install(Float(h, i), c, sc, pick);
      var j := k.hot[Slot(c, sc)];
      TakeReady(k, sc, j);
      GivenVia(h, k, TakeBlock(k, j).0, TakeBlock(k, j).1, sc);
    }
  }

  lemma GivenVia(h: Heap, k: Heap, g: Heap, a: Answer, sc: nat)
    requires k.live == h.live && Given(k, g, a, sc)
    ensures Given(h, g, a, sc)
  {
  }

  lemma RequestOk(h: Heap, c: nat, size: nat)
    requires Inv(h)
    ensures SlotsExist(h) && MidInv(h) && DequesOpen(h)
    ensures 0 <= SizeToClass(size) < NUM_CLASSES && (SizeToClass(size) == 0 <==> size == 0 || size > MAX_MEDIUM_SIZE)
    ensures Slot(c, SizeToClass(size)) in h.hot ==> 0 < SizeToClass(size)
  {
    NoClass(size);
    if 0 < size <= MAX_MEDIUM_SIZE { SmallestFit(size, 1); }
    var slot := Slot(c, SizeToClass(size));
    assert forall t :: t in h.hot ==> HotOk(h, t, h.hot[t]);
    hide SizeToClass;
    if slot in h.hot { assert SpanOk(h, h.hot[slot], h.spans[h.hot[slot]]); }
  }

  /** A request from one byte to 1 MiB is always served, with a block nobody holds, from a span of the
      class that SizeToClass chose. */
  lemma AllocateOk(h: Heap, c: nat, size: nat, pick: nat)
    requires Inv(h) && Current(h, c)
    ensures SlotsExist(h)
    ensures var (g, a) := Allocate(h, c, size, pick);
      && Inv(g) && SameThreads(h, g)
      && (size == 0 ==> a.Null? && g == h)
      && (size > MAX_MEDIUM_SIZE ==> a.Large? && g == h)
      && (0 < size <= MAX_MEDIUM_SIZE ==> 0 < SizeToClass(size) < NUM_CLASSES && Given(h, g, a, SizeToClass(size)))
  {
    hide SizeToClass, Inv, MidInv, DequesOpen, AllocateHot, Install, SlotsExist, Given;
    RequestOk(h, c, size);
    var sc := SizeToClass(size);
    var slot := Slot(c, sc);
    if sc > 0 {
      if slot in h.hot {
        AllocateHotOk(h, c, sc, pick);
      } else {
        InstallOk(h, c, sc, pick);
        var k := Install(h, c, sc, pick);
        AllocateHotOk(k, c, sc, pick);
        GivenVia(h, k, AllocateHot(k, c, sc, pick).0, AllocateHot(k, c, sc, pick).1, sc);
      }
      SameThreadsInv(h, Allocate(h, c, size, pick).0);
    }
  }
}
