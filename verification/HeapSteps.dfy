/** What single steps of the allocator do to the value its objects stand for. */
module HeapSteps {
  import opened CoreIds
  import opened Epochs
  import opened FreeLists
  import opened HeapInvariants
  import opened HeapObjects
  import opened SizeClasses
  import opened SpanPools
  import HeapThreads
  import H = Heaps

  ghost function HotAt(h: H.Heap, slot: H.Slot): Option<nat> {
    if slot in h.hot then Some(h.hot[slot]) else None
  }

  /** The value of core c. */
  ghost predicate CoreIs(h: H.Heap, c: nat, v: CoreView) {
    && v.id == (if c < |h.ids| then h.ids[c] else Terminated)
    && |v.hot| == NUM_CLASSES && |v.rSpans| == NUM_CLASSES
    && forall k :: 0 <= k < NUM_CLASSES ==> SlotIs(h, H.Slot(c, k), v.hot[k], v.rSpans[k])
  }

  ghost predicate SlotIs(h: H.Heap, slot: H.Slot, hot: Option<nat>, d: H.RSpans) {
    hot == HotAt(h, slot) && d == H.DequeAt(h, slot)
  }

  /** Nothing but one slot and the id of its core differs. */
  ghost predicate SlotsKept(h: H.Heap, g: H.Heap, at: H.Slot) {
    && |g.ids| == |h.ids|
    && (forall c :: 0 <= c < |h.ids| && c != at.core ==> g.ids[c] == h.ids[c])
    && (forall slot :: slot != at ==> HotAt(g, slot) == HotAt(h, slot) && H.DequeAt(g, slot) == H.DequeAt(h, slot))
  }

  lemma HotDropped(h: H.Heap, slot: H.Slot)
    ensures SlotsKept(h, h.(hot := h.hot - {slot}), slot) && HotAt(h.(hot := h.hot - {slot}), slot) == None
    ensures H.DequeAt(h.(hot := h.hot - {slot}), slot) == H.DequeAt(h, slot)
  {
  }

  lemma OtherCore(h: H.Heap, g: H.Heap, at: H.Slot, c: nat, v: CoreView)
    requires SlotsKept(h, g, at) && CoreIs(h, c, v) && c != at.core
    ensures CoreIs(g, c, v)
  {
    forall k | 0 <= k < NUM_CLASSES ensures SlotIs(g, H.Slot(c, k), v.hot[k], v.rSpans[k]) {
      assert SlotIs(h, H.Slot(c, k), v.hot[k], v.rSpans[k]);
    }
  }

  /** w is the value v with slot sc changed the way g changed h. */
  ghost predicate SlotMoved(g: H.Heap, c: nat, sc: nat, v: CoreView, w: CoreView) {
    && c < |g.ids| && w.id == g.ids[c]
    && |v.hot| == |v.rSpans| == |w.hot| == |w.rSpans| == NUM_CLASSES && sc < NUM_CLASSES
    && (forall k :: 0 <= k < NUM_CLASSES && k != sc ==> w.hot[k] == v.hot[k] && w.rSpans[k] == v.rSpans[k])
    && SlotIs(g, H.Slot(c, sc), w.hot[sc], w.rSpans[sc])
  }

  lemma OwnCore(h: H.Heap, g: H.Heap, c: nat, sc: nat, v: CoreView, w: CoreView)
    requires SlotsKept(h, g, H.Slot(c, sc)) && CoreIs(h, c, v) && SlotMoved(g, c, sc, v, w)
    ensures CoreIs(g, c, w)
  {
    forall k | 0 <= k < NUM_CLASSES ensures SlotIs(g, H.Slot(c, k), w.hot[k], w.rSpans[k]) {
      assert SlotIs(h, H.Slot(c, k), v.hot[k], v.rSpans[k]);
    }
  }

  lemma SameCore(h: H.Heap, g: H.Heap, c: nat, v: CoreView)
    requires CoreIs(h, c, v) && g.ids == h.ids && g.hot == h.hot && g.deques == h.deques
    ensures CoreIs(g, c, v)
  {
    forall k | 0 <= k < NUM_CLASSES ensures SlotIs(g, H.Slot(c, k), v.hot[k], v.rSpans[k]) {
      assert SlotIs(h, H.Slot(c, k), v.hot[k], v.rSpans[k]);
    }
  }

  /** The addresses in the pool and in a deque are those of spans. */
  ghost predicate Named(h: H.Heap, slot: H.Slot) {
    && (forall p :: p in h.pool ==> p < |h.spans|)
    && (forall k :: 0 <= k < |H.DequeAt(h, slot).spans| ==> H.DequeAt(h, slot).spans[k] < |h.spans|)
  }

  /** In the loop that began with h, node was taken off the deque of g. */
  ghost predicate TakenFrom(h: H.Heap, g: H.Heap, slot: H.Slot, node: Option<nat>) {
    && Named(g, slot)
    && match node
       case None => H.TakeReusable(h, slot) == (g, None)
       case Some(i) =>
         && i < |g.spans|
         && H.TakeReusable(h, slot) == if Epochs.NewMarkHot(g.spans[i].epoch, g.spans[i].epoch).ok
                                       then (H.Acquire(g, i), node) else H.TakeReusable(g, slot)
  }

  function ClassOf(h: H.Heap, i: nat): nat {
    if i < |h.spans| then h.spans[i].sc else 0
  }

  /** The arena is asked for a span only when none is cached. */
  ghost predicate Picked(h: H.Heap, pick: nat) {
    h.pool != {} ==> pick in h.pool
  }

  /** Of the cached spans the pool gives one whose class is nearest to the requested one. */
  ghost predicate Chosen(h: H.Heap, sc: nat, pick: nat) {
    && Picked(h, pick)
    && forall x :: x in h.pool ==> Nearer(sc, ClassOf(h, pick), ClassOf(h, x))
  }

  /** A cached span, or space for one in an arena of the given size. */
  ghost predicate Memory(h: H.Heap, space: nat) {
    h.pool != {} || |h.spans| < space
  }

  /** Core::GetSpan finds a span. */
  ghost predicate Supplied(h: H.Heap, slot: H.Slot, space: nat) {
    H.TakeReusable(h, slot).1.Some? || Memory(h, space)
  }

  /** Core::Allocate has a block for the class of the slot, or finds a span. */
  ghost predicate Serves(h: H.Heap, slot: H.Slot, space: nat) {
    if slot in h.hot && h.hot[slot] < |h.spans| then
      var i := h.hot[slot];
      || h.spans[i].local.len > 0
      || h.spans[i].NrFreeObjects() > H.Threshold(slot.sc)
      || Supplied(H.Float(h, i), slot, space)
    else
      Supplied(h, slot, space)
  }

  lemma {:induction false} NearestIn(h: H.Heap, sc: nat, all: set<nat>) returns (pick: nat)
    requires all != {}
    ensures pick in all && forall x :: x in all ==> Nearer(sc, ClassOf(h, pick), ClassOf(h, x))
    decreases |all|
  {
    hide ClassOf;
    var p :| p in all;
    var rest := all - {p};
    pick := p;
    if rest != {} {
      var q := NearestIn(h, sc, rest);
      if Nearer(sc, ClassOf(h, q), ClassOf(h, p)) { pick := q; }
    }
  }

  ghost function AnyOf(h: H.Heap, sc: nat): (pick: nat)
    ensures Chosen(h, sc, pick)
  {
    SomeChosen(h, sc);
    var p :| Chosen(h, sc, p); p
  }

  lemma SomeChosen(h: H.Heap, sc: nat)
    ensures exists pick :: Chosen(h, sc, pick)
  {
    if h.pool != {} {
      var pick := NearestIn(h, sc, h.pool);
      assert Chosen(h, sc, pick);
    } else {
      assert Chosen(h, sc, 0);
    }
  }

  lemma DeleteKnown(h: H.Heap, i: nat, freedFor: map<nat, nat>)
    requires ClassesKnown(h, freedFor) && i < |h.spans|
    ensures ClassesKnown(H.DeleteSpan(h, i), freedFor[i := h.spans[i].sc])
    ensures var g := H.DeleteSpan(h, i);
      g.ids == h.ids && g.hot == h.hot && g.deques == h.deques && g.spans == h.spans && g.pool == h.pool + {i}
      && g.threads == h.threads && g.freeCores == h.freeCores && g.threadIds == h.threadIds
  {
  }

  lemma ChosenSame(h: H.Heap, g: H.Heap, sc: nat, pick: nat)
    requires Chosen(g, sc, pick) && g.pool == h.pool && |g.spans| == |h.spans|
    requires forall i :: 0 <= i < |h.spans| ==> g.spans[i].sc == h.spans[i].sc
    ensures Chosen(h, sc, pick)
  {
  }

  /** The pool knows the class of every span it holds. */
  ghost predicate ClassesKnown(h: H.Heap, freedFor: map<nat, nat>) {
    forall i :: i in freedFor ==> i < |h.spans| && h.spans[i].sc == freedFor[i]
  }

  lemma TakeBegins(h: H.Heap, slot: H.Slot)
    requires Named(h, slot)
    ensures var (g, node) := H.RemoveBack(h, slot); TakenFrom(h, g, slot, node)
  {
    hide H.Acquire;
  }

  lemma TakeEnds(h: H.Heap, g: H.Heap, slot: H.Slot, node: Option<nat>)
    requires TakenFrom(h, g, slot, node)
    ensures node.None? ==> H.TakeReusable(h, slot) == (g, None)
    ensures node.Some? ==> node.value < |g.spans|
    ensures node.Some? && Epochs.NewMarkHot(g.spans[node.value].epoch, g.spans[node.value].epoch).ok ==>
              H.TakeReusable(h, slot) == (H.Acquire(g, node.value), node)
  {
    hide H.Acquire, H.TakeReusable;
  }

  lemma TakeGoesOn(h: H.Heap, g: H.Heap, slot: H.Slot, node: Option<nat>, k: H.Heap, next: Option<nat>)
    requires TakenFrom(h, g, slot, node) && node.Some?
    requires node.value < |g.spans| && !Epochs.NewMarkHot(g.spans[node.value].epoch, g.spans[node.value].epoch).ok
    requires (k, next) == H.RemoveBack(g, slot)
    ensures TakenFrom(h, k, slot, next)
    ensures |H.DequeAt(k, slot).spans| + (if next.Some? then 1 else 0) == |H.DequeAt(g, slot).spans|
  {
    TakeBegins(g, slot);
    hide H.Acquire, H.TakeReusable;
  }

  lemma DestroyNone(h: H.Heap, c: nat)
    requires H.SlotsExist(h)
    ensures H.DestroyClasses(h, c, 0) == h
  {
  }

  lemma DestroyNext(h: H.Heap, c: nat, k: nat)
    requires H.SlotsExist(h)
    ensures H.DestroyClasses(h, c, k + 1) == H.DestroyClass(H.DestroyClasses(h, c, k), H.Slot(c, k))
  {
    hide H.DestroyClass, H.SlotsExist;
  }

  /** A class destroyed in the source's order: closed, the hot span parked, the deque drained. */
  ghost function Drained(h: H.Heap, slot: H.Slot): H.Heap {
    h.(deques := h.deques[slot := H.RSpans(H.DequeAt(h, slot).owner, [])])
  }

  lemma DestroyedParked(h: H.Heap, slot: H.Slot)
    requires H.SlotsExist(h)
    ensures var g := H.Open(h, slot, Terminated);
      && g.hot == h.hot && g.ids == h.ids && g.spans == h.spans
      && (slot !in h.hot ==> H.DestroyClass(h, slot) == Drained(g, slot))
      && (slot in h.hot ==> h.hot[slot] < |h.spans|)
      && (slot in h.hot ==>
            H.DestroyClass(h, slot) == Drained(H.Float(g, h.hot[slot]).(hot := H.Float(g, h.hot[slot]).hot - {slot}), slot))
      && (slot in h.hot ==> |H.Float(g, h.hot[slot]).ids| == |h.ids| && H.Float(g, h.hot[slot]).hot == h.hot)
  {
  }

  /** What Settle needs to follow the pointers. */
  ghost predicate Settleable(h: H.Heap, i: nat, owner: CoreId) {
    && i < |h.spans| && i !in h.pool && h.spans[i].sc < NUM_CLASSES && h.spans[i].owner.Id?
    && owner.Id? && owner.core < |h.ids|
  }

  lemma ReleaseSettles(h: H.Heap, c: nat, o: H.Obj)
    requires Inv(h) && Current(h, c) && o in h.live && o.span < |h.spans|
    ensures h.spans[o.span].owner.Id? && h.spans[o.span].owner.core < |h.ids|
    ensures H.Release(h, c, o).spans[o.span].owner == h.spans[o.span].owner
    ensures Settleable(H.Release(h, c, o), o.span, h.spans[o.span].owner)
    ensures Settleable(H.Revive(H.Release(h, c, o), c, o.span, h.spans[o.span].epoch), o.span, h.ids[c])
  {
    assert SpanOk(h, o.span, h.spans[o.span]);
    ReleaseOk(h, c, o);
  }

  lemma {:induction false} OpenAllKeeps(h: H.Heap, c: nat, id: CoreId, n: nat)
    ensures H.OpenAll(h, c, id, n).ids == h.ids && H.OpenAll(h, c, id, n).threads == h.threads
    ensures H.OpenAll(h, c, id, n) == if n == 0 then h else H.Open(H.OpenAll(h, c, id, n - 1), H.Slot(c, n - 1), id)
  {
    if n > 0 {
      OpenAllKeeps(h, c, id, n - 1);
    }
  }

  lemma StartInv(h: H.Heap, t: nat)
    requires Inv(h) && t !in h.threads
    ensures H.CoresExist(h) && Inv(H.StartThread(h, t))
  {
    HeapThreads.StartOk(h, t);
    hide Inv, H.StartThread;
  }

  lemma StartKeeps(h: H.Heap)
    requires H.CoresExist(h)
    ensures var (g, c) := H.FindFreeCore(h); var k := H.NextId(g);
      c < |g.ids| && g.ids == k.ids && H.Init(k, c, Id(c, k.threadIds)).threads == h.threads
  {
    var (g, c) := H.FindFreeCore(h);
    var k := H.NextId(g);
    OpenAllKeeps(k.(ids := k.ids[c := Id(c, k.threadIds)]), c, Id(c, k.threadIds), NUM_CLASSES);
    hide H.OpenAll;
  }

  lemma SizeHasClass(h: H.Heap, c: nat, size: nat)
    requires Inv(h) && Current(h, c)
    ensures 0 <= SizeToClass(size) < NUM_CLASSES && (SizeToClass(size) == 0 <==> size == 0 || size > MAX_MEDIUM_SIZE)
    ensures MidInv(h) && DequesOpen(h) && H.SlotsExist(h) && c < |h.ids| && h.ids[c].Id?
    ensures SizeToClass(size) == 0 ==> H.Slot(c, 0) !in h.hot
    ensures Named(h, H.Slot(c, SizeToClass(size)))
  {
    NoClass(size);
    if 0 < size <= MAX_MEDIUM_SIZE { SmallestFit(size, 1); }
    hide SizeToClass;
    assert forall t :: t in h.hot ==> HotOk(h, t, h.hot[t]) && SpanOk(h, h.hot[t], h.spans[h.hot[t]]);
    CoreNamed(h, H.Slot(c, SizeToClass(size)));
  }

  lemma AllocateIs(h: H.Heap, c: nat, size: nat, pick: nat)
    requires c < |h.ids| && H.SlotsExist(h) && 0 <= SizeToClass(size)
    ensures var slot := H.Slot(c, SizeToClass(size));
      && (slot in h.hot ==> H.Allocate(h, c, size, pick) == H.AllocateHot(h, c, slot.sc, pick))
      && (slot !in h.hot && slot.sc == 0 ==> H.Allocate(h, c, size, pick) == (h, if size == 0 then H.Null else H.Large))
      && (slot !in h.hot && slot.sc != 0 ==>
            var k := H.Install(h, c, slot.sc, pick);
            H.SlotsExist(k) && slot in k.hot && c < |k.ids| && H.Allocate(h, c, size, pick) == H.AllocateHot(k, c, slot.sc, pick))
  {
    hide SizeToClass, H.AllocateHot, H.Install;
    H.InstallExists(h, c, SizeToClass(size), pick);
  }

  lemma InstallTaken(h: H.Heap, c: nat, sc: nat, pick: nat)
    requires H.SlotsExist(h) && H.Slot(c, sc) in h.hot && Ready(h, c, sc, h.hot[H.Slot(c, sc)]) && MidInv(h)
    ensures H.AllocateHot(h, c, sc, pick) == H.TakeBlock(h, h.hot[H.Slot(c, sc)])
  {
    TakeOk(h, h.hot[H.Slot(c, sc)]);
    HotTaken(h, c, sc, pick);
    hide H.AllocateHot, H.TakeBlock;
  }

  // The three ways through AllocateHot.

  lemma HotTaken(h: H.Heap, c: nat, sc: nat, pick: nat)
    requires c < |h.ids| && H.SlotsExist(h) && H.Slot(c, sc) in h.hot
    ensures var i := h.hot[H.Slot(c, sc)];
      i < |h.spans| && (!H.TakeBlock(h, i).1.Null? ==> H.AllocateHot(h, c, sc, pick) == H.TakeBlock(h, i))
  {
    hide H.TakeBlock;
  }

  lemma HotMoved(h: H.Heap, c: nat, sc: nat, pick: nat)
    requires c < |h.ids| && H.SlotsExist(h) && H.Slot(c, sc) in h.hot && sc < NUM_CLASSES
    requires H.TakeBlock(h, h.hot[H.Slot(c, sc)]).1.Null?
    requires h.spans[h.hot[H.Slot(c, sc)]].NrFreeObjects() > ClassToReuseThreshold(sc)
    ensures var i := h.hot[H.Slot(c, sc)]; H.AllocateHot(h, c, sc, pick) == H.TakeBlock(H.MoveIn(h, i), i)
  {
    hide H.TakeBlock, H.MoveIn;
  }

  lemma HotReplaced(h: H.Heap, c: nat, sc: nat, pick: nat)
    requires c < |h.ids| && H.SlotsExist(h) && H.Slot(c, sc) in h.hot && sc < NUM_CLASSES
    requires H.TakeBlock(h, h.hot[H.Slot(c, sc)]).1.Null?
    requires h.spans[h.hot[H.Slot(c, sc)]].NrFreeObjects() <= ClassToReuseThreshold(sc)
    ensures var k := H.Install(H.Float(h, h.hot[H.Slot(c, sc)]), c, sc, pick);
      && H.Slot(c, sc) in k.hot && k.hot[H.Slot(c, sc)] < |k.spans|
      && H.AllocateHot(h, c, sc, pick) == H.TakeBlock(k, k.hot[H.Slot(c, sc)])
  {
    hide H.TakeBlock, H.MoveIn, H.Install;
    H.InstallExists(H.Float(h, h.hot[H.Slot(c, sc)]), c, sc, pick);
  }

  lemma FloatNamed(h: H.Heap, i: nat, slot: H.Slot)
    requires Named(h, slot) && i < |h.spans|
    ensures Named(H.Float(h, i), slot)
  {
    assert H.DequeAt(H.Float(h, i), slot) == H.DequeAt(h, slot);
  }

  lemma TakeNull(h: H.Heap, i: nat)
    requires i < |h.spans|
    ensures H.TakeBlock(h, i).1.Null? ==> H.TakeBlock(h, i).0 == h && h.spans[i].local.len == 0
  {
  }

  lemma CoreNamed(h: H.Heap, slot: H.Slot)
    requires MidInv(h)
    ensures Named(h, slot)
  {
    var d := H.DequeAt(h, slot);
    assert LinkOk(h, slot, d);
    forall k | 0 <= k < |d.spans| ensures d.spans[k] < |h.spans| {
      assert d.spans[k] in d.spans;
    }
  }

  lemma {:induction false} TakeKeeps(h: H.Heap, slot: H.Slot)
    ensures var (g, r) := H.TakeReusable(h, slot);
      && |g.spans| == |h.spans| && g.ids == h.ids && g.pool == h.pool && g.threads == h.threads
      && (r.Some? ==> r.value < |g.spans|)
      && forall i :: 0 <= i < |h.spans| ==> g.spans[i].sc == h.spans[i].sc
    decreases |H.DequeAt(h, slot).spans|
  {
    hide FreeList.Move;
    var (g, node) := H.RemoveBack(h, slot);
    if node.Some? {
      TakeKeeps(g, slot);
    }
  }

  // ----- what a request needs -----

  lemma InstallSize(h: H.Heap, c: nat, sc: nat, pick: nat, space: nat)
    requires c < |h.ids| && Named(h, H.Slot(c, sc)) && Picked(h, pick) && |h.spans| <= space
    ensures |H.Install(h, c, sc, pick).spans| <= space <==> Supplied(h, H.Slot(c, sc), space)
  {
    TakeKeeps(h, H.Slot(c, sc));
    hide H.TakeReusable;
  }

  lemma BlockSize(h: H.Heap, i: nat)
    requires i < |h.spans|
    ensures |H.TakeBlock(h, i).0.spans| == |h.spans| && |H.MoveIn(h, i).spans| == |h.spans|
    ensures H.TakeBlock(h, i).1.Null? <==> h.spans[i].local.Pop().1.None?
  {
    hide H.Span.MoveRemoteToLocalObjects;
  }

  lemma HotSize(h: H.Heap, c: nat, sc: nat, pick: nat, space: nat)
    requires MidInv(h) && H.SlotsExist(h) && H.Slot(c, sc) in h.hot && c < |h.ids| && sc < NUM_CLASSES
    requires Picked(h, pick) && |h.spans| <= space
    ensures |H.AllocateHot(h, c, sc, pick).0.spans| <= space <==> Serves(h, H.Slot(c, sc), space)
  {
    var slot := H.Slot(c, sc);
    var i := h.hot[slot];
    HotTaken(h, c, sc, pick);
    TakeNull(h, i);
    CoreNamed(h, slot);
    FloatNamed(h, i, slot);
    BlockSize(h, i);
    hide MidInv, H.TakeBlock, H.MoveIn, H.AllocateHot, H.Install, Supplied, Named;
    if H.TakeBlock(h, i).1.Null? {
      if h.spans[i].NrFreeObjects() > ClassToReuseThreshold(sc) {
        HotMoved(h, c, sc, pick);
        BlockSize(H.MoveIn(h, i), i);
      } else {
        HotReplaced(h, c, sc, pick);
        var g := H.Float(h, i);
        InstallSize(g, c, sc, pick, space);
        BlockSize(H.Install(g, c, sc, pick), H.Install(g, c, sc, pick).hot[slot]);
      }
    }
  }

  /** A request of one byte to 1 MiB needs no span beyond an arena of the given size exactly if a block, a
      reusable span, a cached span or space for a new span is there. */
  lemma ServesIff(h: H.Heap, c: nat, size: nat, pick: nat, space: nat)
    requires Inv(h) && Current(h, c) && Picked(h, pick) && |h.spans| <= space && 0 < size <= MAX_MEDIUM_SIZE
    ensures H.SlotsExist(h) && 0 < SizeToClass(size) < NUM_CLASSES
    ensures |H.Allocate(h, c, size, pick).0.spans| <= space <==> Serves(h, H.Slot(c, SizeToClass(size)), space)
  {
    SizeHasClass(h, c, size);
    AllocateIs(h, c, size, pick);
    var sc := SizeToClass(size);
    hide SizeToClass, Inv, MidInv, DequesOpen, H.Allocate, H.AllocateHot, H.Install, Supplied, Named, Picked, Current;
    if H.Slot(c, sc) in h.hot {
      HotSize(h, c, sc, pick, space);
    } else {
      InstallOk(h, c, sc, pick);
      H.InstallExists(h, c, sc, pick);
      InstallSize(h, c, sc, pick, space);
      var k := H.Install(h, c, sc, pick);
      InstallTaken(k, c, sc, pick);
      BlockSize(k, k.hot[H.Slot(c, sc)]);
    }
  }
}
