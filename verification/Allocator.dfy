/** The calls of the allocator on its objects (src/core.h:81-215, src/lab.h:116-144). */
module Allocators {
  import opened CoreIds
  import opened Epochs
  import opened FreeLists
  import opened HeapInvariants
  import opened HeapObjects
  import opened HeapSteps
  import opened SizeClasses
  import opened SpanPools
  import HeapTheorems
  import HeapThreads
  import H = Heaps

  class Allocator {
    const pool: SpanPool
    const cores: seq<Core>                // the arena of cores, in use up to |heap.ids|
    const spans: seq<Span>                // the arena of spans, in use up to |heap.spans|
    var spansUsed: nat
    var coresUsed: nat
    var freeAbs: seq<nat>
    var threadIds: nat
    var tls: map<nat, nat>
    ghost var heap: H.Heap                // the value the objects stand for

    ghost predicate SpansAre(h: H.Heap)
      reads spans
    {
      && |h.spans| <= |spans|
      && forall i :: 0 <= i < |spans| ==>
           spans[i].index == i && spans[i].View() == if i < |h.spans| then h.spans[i] else H.Zero()
    }

    ghost predicate CoresAre(h: H.Heap)
      reads cores
    {
      && |h.ids| <= |cores|
      && forall c :: 0 <= c < |cores| ==> cores[c].index == c && CoreIs(h, c, cores[c].View())
    }

    ghost predicate RestIs(h: H.Heap)
      reads this`spansUsed, this`coresUsed, this`freeAbs, this`threadIds, this`tls
    {
      && spansUsed == |h.spans| && coresUsed == |h.ids|
      && freeAbs == h.freeCores && threadIds == h.threadIds && tls == h.threads
    }

    ghost predicate PoolIs(h: H.Heap)
      reads pool, pool.spans
    {
      pool.Valid() && pool.at.Keys == h.pool && pool.currentThreads == |h.threads| && ClassesKnown(h, pool.freedFor)
    }

    ghost predicate Linked()
      reads this, spans, cores, pool, pool.spans
    {
      SpansAre(heap) && CoresAre(heap) && RestIs(heap) && PoolIs(heap)
    }

    ghost predicate Valid()
      reads this, spans, cores, pool, pool.spans
    {
      Linked() && Inv(heap)
    }

    lemma CoresStay(h: H.Heap, g: H.Heap)
      requires CoresAre(h) && g.ids == h.ids && g.hot == h.hot && g.deques == h.deques
      ensures CoresAre(g)
    {
      forall c | 0 <= c < |cores| ensures CoreIs(g, c, cores[c].View()) {
        SameCore(h, g, c, cores[c].View());
      }
    }

    lemma CoreHas(c: nat)
      requires CoresAre(heap) && c < |heap.ids|
      ensures c < |cores| && cores[c].index == c && CoreIs(heap, c, cores[c].View())
    {
    }

    lemma PoolStays(h: H.Heap, g: H.Heap)
      requires PoolIs(h) && g.pool == h.pool && g.threads == h.threads
      requires forall i :: i in h.pool && i < |h.spans| ==> i < |g.spans| && g.spans[i].sc == h.spans[i].sc
      ensures PoolIs(g)
    {
    }

    static method SpanSpace(n: nat) returns (s: seq<Span>)
      ensures |s| == n && forall i :: 0 <= i < n ==> fresh(s[i]) && s[i].index == i && s[i].View() == H.Zero()
    {
      s := [];
      while |s| < n
        invariant |s| <= n
        invariant forall i :: 0 <= i < |s| ==> fresh(s[i]) && s[i].index == i && s[i].View() == H.Zero()
      {
        var span := new Span(|s|);
        s := s + [span];
      }
    }

    static method CoreSpace(n: nat) returns (s: seq<HeapObjects.Core>)
      ensures |s| == n && forall c :: 0 <= c < n ==> fresh(s[c]) && s[c].index == c && CoreIs(H.Empty, c, s[c].View())
    {
      s := [];
      while |s| < n
        invariant |s| <= n
        invariant forall c :: 0 <= c < |s| ==> fresh(s[c]) && s[c].index == c && CoreIs(H.Empty, c, s[c].View())
      {
        var core := new HeapObjects.Core(|s|);
        assert CoreIs(H.Empty, |s|, core.View());
        s := s + [core];
      }
    }

    /** Init: the two arenas and the pool. */
    constructor (cpus: nat, spanSpace: nat, coreSpace: nat)
      requires cpus > 0
      ensures Valid() && Running() && heap == H.Empty && |spans| == spanSpace && |cores| == coreSpace
      ensures fresh(pool) && fresh(pool.spans)
      ensures (forall i :: 0 <= i < |spans| ==> fresh(spans[i])) && (forall c :: 0 <= c < |cores| ==> fresh(cores[c]))
    {
      var s := SpanSpace(spanSpace);
      var c := CoreSpace(coreSpace);
      spans, cores := s, c;
      pool := new SpanPool(cpus);
      spansUsed, coresUsed, freeAbs, threadIds, tls := 0, 0, [], 0, map[];
      heap := H.Empty;
      HeapTheorems.EmptyInv();
      HeapTheorems.EmptyReachable();
      hide SpanPool.Valid, CoreIs, Inv, HeapTheorems.Reachable;
    }

    // ----- one object and the value together -----

    method Construct(i: nat, sc: nat, owner: CoreId)
      requires Linked() && i < |heap.spans| && i !in heap.pool
      modifies this`heap, spans[i]
      ensures Linked() && heap == H.WithSpan(old(heap), i, H.Built(old(heap).spans[i].epoch, sc, owner))
    {
      ghost var h := heap;
      spans[i].Construct(sc, owner);
      heap := H.WithSpan(h, i, spans[i].View());
      CoresStay(h, heap);
      PoolStays(h, heap);
    }

    method MarkHot(i: nat, seen: Epoch) returns (ok: bool)
      requires Linked() && i < |heap.spans|
      modifies this`heap, spans[i]
      ensures Linked() && heap == H.WithEpoch(old(heap), i, Epochs.NewMarkHot(old(heap).spans[i].epoch, seen).word)
      ensures ok == Epochs.NewMarkHot(old(heap).spans[i].epoch, seen).ok
    {
      ghost var h := heap;
      ok := spans[i].NewMarkHot(seen);
      heap := H.WithEpoch(h, i, spans[i].epoch);
      CoresStay(h, heap);
      PoolStays(h, heap);
    }

    method MarkFull(i: nat, seen: Epoch) returns (ok: bool)
      requires Linked() && i < |heap.spans|
      modifies this`heap, spans[i]
      ensures Linked() && heap == H.WithEpoch(old(heap), i, Epochs.NewMarkFull(old(heap).spans[i].epoch, seen).word)
      ensures ok == Epochs.NewMarkFull(old(heap).spans[i].epoch, seen).ok
    {
      ghost var h := heap;
      ok := spans[i].NewMarkFull(seen);
      heap := H.WithEpoch(h, i, spans[i].epoch);
      CoresStay(h, heap);
      PoolStays(h, heap);
    }

    method MarkReuse(i: nat, seen: Epoch) returns (ok: bool)
      requires Linked() && i < |heap.spans|
      modifies this`heap, spans[i]
      ensures Linked() && heap == H.WithEpoch(old(heap), i, Epochs.NewMarkReuse(old(heap).spans[i].epoch, seen).word)
      ensures ok == Epochs.NewMarkReuse(old(heap).spans[i].epoch, seen).ok
    {
      ghost var h := heap;
      ok := spans[i].NewMarkReuse(seen);
      heap := H.WithEpoch(h, i, spans[i].epoch);
      CoresStay(h, heap);
      PoolStays(h, heap);
    }

    method Float(i: nat)
      requires Linked() && i < |heap.spans|
      modifies this`heap, spans[i]
      ensures Linked() && heap == H.Float(old(heap), i)
    {
      ghost var h := heap;
      spans[i].NewMarkFloating();
      heap := H.Float(h, i);
      CoresStay(h, heap);
      PoolStays(h, heap);
    }

    method MoveIn(i: nat)
      requires Linked() && i < |heap.spans|
      modifies this`heap, spans[i]
      ensures Linked() && heap == H.MoveIn(old(heap), i)
    {
      ghost var h := heap;
      spans[i].MoveRemoteToLocalObjects();
      heap := H.MoveIn(h, i);
      CoresStay(h, heap);
      PoolStays(h, heap);
    }

    method TakeBlock(i: nat) returns (a: H.Answer)
      requires Linked() && i < |heap.spans|
      modifies this`heap, spans[i]
      ensures Linked() && (heap, a) == H.TakeBlock(old(heap), i)
    {
      ghost var h := heap;
      var r := spans[i].Allocate();
      a := match r case None => H.Null case Some(b) => H.Block(H.Obj(i, b));
      heap := H.TakeBlock(h, i).0;
      CoresStay(h, heap);
      PoolStays(h, heap);
    }

    method Release(c: nat, o: H.Obj) returns (free: int)
      requires Linked() && c < |heap.ids| && o.span < |heap.spans|
      modifies this`heap, spans[o.span]
      ensures Linked() && heap == H.Release(old(heap), c, o) && free == heap.spans[o.span].NrFreeObjects()
    {
      ghost var h := heap;
      CoreHas(c);
      free := spans[o.span].Free(o.block, cores[c].id);
      heap := H.Release(h, c, o);
      CoresStay(h, heap);
      PoolStays(h, heap);
    }

    /** src/core.h:184-187. Nobody else is there to take the owner word first. */
    method Revive(c: nat, i: nat, oldOwner: CoreId, seen: Epoch)
      requires Linked() && c < |heap.ids| && i < |heap.spans| && heap.spans[i].owner == oldOwner
      modifies this`heap, spans[i]
      ensures Linked() && heap == H.Revive(old(heap), c, i, seen)
    {
      ghost var h := heap;
      CoreHas(c);
      var ok := spans[i].TryReviveNew(oldOwner, cores[c].id);
      if ok {
        var _ := spans[i].TryMarkFloating(seen);
      }
      heap := H.Revive(h, c, i, seen);
      CoresStay(h, heap);
      PoolStays(h, heap);
    }

    /** Slot sc of core c moved, or its id. */
    lemma SlotStep(h: H.Heap, c: nat, sc: nat, v: CoreView)
      requires c < |h.ids| <= |cores| && cores[c].index == c
      requires forall d :: 0 <= d < |cores| && d != c ==> cores[d].index == d && CoreIs(h, d, cores[d].View())
      requires CoreIs(h, c, v) && SlotsKept(h, heap, H.Slot(c, sc)) && SlotMoved(heap, c, sc, v, cores[c].View())
      ensures CoresAre(heap)
    {
      OwnCore(h, heap, c, sc, v, cores[c].View());
      forall d | 0 <= d < |cores| && d != c ensures CoreIs(heap, d, cores[d].View()) {
        OtherCore(h, heap, H.Slot(c, sc), d, cores[d].View());
      }
    }

    lemma SpansStay(h: H.Heap, g: H.Heap)
      requires SpansAre(h) && g.spans == h.spans
      ensures SpansAre(g)
    {
    }

    method SetHot(c: nat, sc: nat, i: nat)
      requires Linked() && c < |heap.ids| && sc < NUM_CLASSES
      modifies this`heap, cores[c]
      ensures Linked() && heap == old(heap).(hot := old(heap).hot[H.Slot(c, sc) := i])
    {
      CoreHas(c);
      ghost var h, v := heap, cores[c].View();
      cores[c].SetHot(sc, Some(i));
      heap := h.(hot := h.hot[H.Slot(c, sc) := i]);
      SlotStep(h, c, sc, v);
      SpansStay(h, heap);
      PoolStays(h, heap);
    }

    method RemoveBack(c: nat, sc: nat) returns (r: Option<nat>)
      requires Linked() && c < |heap.ids| && sc < NUM_CLASSES
      modifies this`heap, cores[c]
      ensures Linked() && (heap, r) == H.RemoveBack(old(heap), H.Slot(c, sc))
    {
      CoreHas(c);
      ghost var h, v := heap, cores[c].View();
      assert SlotIs(h, H.Slot(c, sc), v.hot[sc], v.rSpans[sc]);
      r := cores[c].RemoveBack(sc);
      heap := H.RemoveBack(h, H.Slot(c, sc)).0;
      SlotStep(h, c, sc, v);
      SpansStay(h, heap);
      PoolStays(h, heap);
    }

    method PushFront(c: nat, sc: nat, owner: CoreId, i: nat)
      requires Linked() && c < |heap.ids| && sc < NUM_CLASSES
      modifies this`heap, cores[c]
      ensures Linked() && heap == H.PushFront(old(heap), H.Slot(c, sc), owner, i)
    {
      CoreHas(c);
      ghost var h, v := heap, cores[c].View();
      assert SlotIs(h, H.Slot(c, sc), v.hot[sc], v.rSpans[sc]);
      cores[c].PushFront(sc, owner, i);
      heap := H.PushFront(h, H.Slot(c, sc), owner, i);
      SlotStep(h, c, sc, v);
      SpansStay(h, heap);
      PoolStays(h, heap);
    }

    method Remove(c: nat, sc: nat, owner: CoreId, i: nat)
      requires Linked() && c < |heap.ids| && sc < NUM_CLASSES
      modifies this`heap, cores[c]
      ensures Linked() && heap == H.Remove(old(heap), H.Slot(c, sc), owner, i)
    {
      CoreHas(c);
      hide Sequences.Without;
      ghost var h, v := heap, cores[c].View();
      assert SlotIs(h, H.Slot(c, sc), v.hot[sc], v.rSpans[sc]);
      cores[c].Remove(sc, owner, i);
      heap := H.Remove(h, H.Slot(c, sc), owner, i);
      SlotStep(h, c, sc, v);
      SpansStay(h, heap);
      PoolStays(h, heap);
    }

    method Open(c: nat, sc: nat, owner: CoreId)
      requires Linked() && c < |heap.ids| && sc < NUM_CLASSES
      modifies this`heap, cores[c]
      ensures Linked() && heap == H.Open(old(heap), H.Slot(c, sc), owner)
    {
      CoreHas(c);
      ghost var h, v := heap, cores[c].View();
      assert SlotIs(h, H.Slot(c, sc), v.hot[sc], v.rSpans[sc]);
      cores[c].Open(sc, owner);
      heap := H.Open(h, H.Slot(c, sc), owner);
      SlotStep(h, c, sc, v);
      SpansStay(h, heap);
      PoolStays(h, heap);
    }

    method ClearHot(c: nat, sc: nat)
      requires Linked() && c < |heap.ids| && sc < NUM_CLASSES
      modifies this`heap, cores[c]
      ensures Linked() && heap == old(heap).(hot := old(heap).hot - {H.Slot(c, sc)})
    {
      CoreHas(c);
      ghost var h, v := heap, cores[c].View();
      assert SlotIs(h, H.Slot(c, sc), v.hot[sc], v.rSpans[sc]);
      cores[c].SetHot(sc, None);
      heap := h.(hot := h.hot - {H.Slot(c, sc)});
      HotDropped(h, H.Slot(c, sc));
      hide HotAt, SlotsKept;
      SlotStep(h, c, sc, v);
      SpansStay(h, heap);
      PoolStays(h, heap);
    }

    method RemoveAll(c: nat, sc: nat)
      requires Linked() && c < |heap.ids| && sc < NUM_CLASSES
      modifies this`heap, cores[c]
      ensures Linked() && heap == Drained(old(heap), H.Slot(c, sc))
    {
      CoreHas(c);
      ghost var h, v := heap, cores[c].View();
      assert SlotIs(h, H.Slot(c, sc), v.hot[sc], v.rSpans[sc]);
      cores[c].RemoveAll(sc);
      heap := Drained(h, H.Slot(c, sc));
      SlotStep(h, c, sc, v);
      SpansStay(h, heap);
      PoolStays(h, heap);
    }

    method SetId(c: nat, id: CoreId)
      requires Linked() && c < |heap.ids|
      modifies this`heap, cores[c]
      ensures Linked() && heap == old(heap).(ids := old(heap).ids[c := id])
    {
      CoreHas(c);
      ghost var h, v := heap, cores[c].View();
      assert SlotIs(h, H.Slot(c, 0), v.hot[0], v.rSpans[0]);
      cores[c].id := id;
      heap := h.(ids := h.ids[c := id]);
      SlotStep(h, c, 0, v);
      SpansStay(h, heap);
      PoolStays(h, heap);
    }

    /** The last line of Span::Delete. */
    method PutBack(i: nat)
      requires Linked() && i < |heap.spans| && i !in heap.pool && |heap.threads| > 0
      requires heap.spans[i].sc < NUM_CLASSES && heap.spans[i].owner.Id?
      modifies pool, pool.spans
      ensures SpansAre(heap) && CoresAre(heap) && RestIs(heap) && pool.Valid()
      ensures pool.currentThreads == |heap.threads| && pool.at.Keys == heap.pool + {i}
      ensures pool.freedFor == old(pool.freedFor)[i := heap.spans[i].sc]
      ensures pool.limit > 0 && pool.at[i].backend == heap.spans[i].owner.tag % pool.limit
    {
      SpanHas(i);
      hide SpanPool.Valid, SpansAre, CoresAre, RestIs, SlotOf, ClassesKnown;
      pool.ThreadsHaveBackends();
      pool.Free(spans[i].sizeClass, i, spans[i].owner.tag);
    }

    /** Span::Delete gives the span to the pool. */
    method Delete(i: nat)
      requires Linked() && i < |heap.spans| && i !in heap.pool && |heap.threads| > 0
      requires heap.spans[i].sc < NUM_CLASSES && heap.spans[i].owner.Id?
      modifies this`heap, pool, pool.spans
      ensures Linked() && heap == H.DeleteSpan(old(heap), i)
    {
      hide SpanPool.Valid, SpansAre, CoresAre, ClassesKnown, H.DeleteSpan;
      ghost var h := heap;
      DeleteKnown(h, i, pool.freedFor);
      PutBack(i);
      heap := H.DeleteSpan(h, i);
      CoresStay(h, heap);
      SpansStay(h, heap);
    }

    /** FindFreeAB: the source stops when the arena of cores is used up. */
    method FindFreeCore() returns (c: nat)
      requires Linked() && H.CoresExist(heap) && (heap.freeCores != [] || |heap.ids| < |cores|)
      modifies this`heap, this`freeAbs, this`coresUsed
      ensures Linked() && (heap, c) == H.FindFreeCore(old(heap)) && c < |heap.ids|
    {
      ghost var h := heap;
      if freeAbs != [] {
        c := freeAbs[0];
        freeAbs := freeAbs[1..];
      } else {
        c := coresUsed;
        coresUsed := coresUsed + 1;
      }
      heap := H.FindFreeCore(h).0;
      CoresGrow(h, heap);
      SpansStay(h, heap);
      PoolStays(h, heap);
    }

    lemma CoresGrow(h: H.Heap, g: H.Heap)
      requires CoresAre(h) && g.hot == h.hot && g.deques == h.deques && |g.ids| <= |cores|
      requires g.ids == h.ids || g.ids == h.ids + [Terminated]
      ensures CoresAre(g)
    {
      forall c | 0 <= c < |cores| ensures CoreIs(g, c, cores[c].View()) {
        var v := cores[c].View();
        assert CoreIs(h, c, v);
        forall k | 0 <= k < NUM_CLASSES ensures SlotIs(g, H.Slot(c, k), v.hot[k], v.rSpans[k]) {
          assert SlotIs(h, H.Slot(c, k), v.hot[k], v.rSpans[k]);
        }
      }
    }

    /** SetTLS and AnnounceNewThread. */
    method Bind(t: nat, c: nat)
      requires Linked() && t !in heap.threads
      modifies this`heap, this`tls, pool
      ensures Linked() && heap == H.Bind(old(heap), t, c)
    {
      ghost var h := heap;
      hide SpanPool.Valid;
      tls := tls[t := c];
      pool.AnnounceNewThread();
      heap := H.Bind(h, t, c);
      CoresStay(h, heap);
      SpansStay(h, heap);
    }

    /** The end of the thread destructor. */
    method Unbind(t: nat)
      requires Linked() && t in heap.threads
      modifies this`heap, this`tls, this`freeAbs, pool
      ensures Linked()
      ensures var h := old(heap); heap == h.(freeCores := [h.threads[t]] + h.freeCores, threads := h.threads - {t})
    {
      ghost var h := heap;
      hide SpanPool.Valid;
      pool.AnnounceLeavingThread();
      freeAbs := [tls[t]] + freeAbs;
      tls := tls - {t};
      heap := h.(freeCores := [h.threads[t]] + h.freeCores, threads := h.threads - {t});
      OneLess(h.threads, t);
      CoresStay(h, heap);
      SpansStay(h, heap);
    }

    static lemma OneLess(m: map<nat, nat>, t: nat)
      requires t in m
      ensures |m - {t}| == |m| - 1
    {
      assert (m - {t}).Keys == m.Keys - {t};
    }

    // ----- Core::GetSpan -----

    /** The scan of the pool. */
    method TakeOut(sc: nat, tag: nat) returns (r: Option<nat>)
      requires Linked() && sc < NUM_CLASSES && |heap.threads| > 0
      modifies pool, pool.spans
      ensures SpansAre(heap) && CoresAre(heap) && RestIs(heap) && pool.Valid()
      ensures pool.currentThreads == |heap.threads| && ClassesKnown(heap, pool.freedFor)
      ensures r.None? ==> heap.pool == {} == pool.at.Keys
      ensures r.Some? ==> r.value in heap.pool && pool.at.Keys == heap.pool - {r.value}
      ensures r.Some? ==> Chosen(heap, sc, r.value) && old(pool.limit > 0 && pool.OwnFirst(r.value, sc, tag))
    {
      hide SpanPool.Valid, SpanPool.OwnFirst, SpansAre, CoresAre, RestIs, Nearer, SlotOf;
      pool.ThreadsHaveBackends();
      r := pool.Allocate(sc, tag);
    }

    method TakeCached(sc: nat, tag: nat) returns (r: Option<nat>)
      requires Linked() && sc < NUM_CLASSES && |heap.threads| > 0
      modifies this`heap, pool, pool.spans
      ensures Linked()
      ensures r.None? ==> heap == old(heap) && heap.pool == {}
      ensures r.Some? ==> Chosen(old(heap), sc, r.value) && old(pool.limit > 0 && pool.OwnFirst(r.value, sc, tag))
      ensures r.Some? ==> r.value in old(heap).pool && heap == old(heap).(pool := old(heap).pool - {r.value})
    {
      hide SpanPool.Valid, SpanPool.OwnFirst, SpansAre, CoresAre, Chosen;
      ghost var h := heap;
      r := TakeOut(sc, tag);
      if r.Some? {
        heap := h.(pool := h.pool - {r.value});
        CoresStay(h, heap);
        SpansStay(h, heap);
      }
    }

    method NewMemory() returns (i: nat)
      requires Linked() && |heap.spans| < |spans|
      modifies this`heap, this`spansUsed
      ensures Linked() && i == |old(heap).spans| && heap == old(heap).(spans := old(heap).spans + [H.Zero()])
    {
      ghost var h := heap;
      i := spansUsed;
      spansUsed := spansUsed + 1;
      heap := h.(spans := h.spans + [H.Zero()]);
      CoresStay(h, heap);
      PoolStays(h, heap);
    }

    /** What SpanPool::Allocate returns. The source stops when the pool is empty and the arena used up. */
    method TakeMemory(sc: nat, tag: nat) returns (i: nat, ghost pick: nat)
      requires Linked() && sc < NUM_CLASSES && |heap.threads| > 0 && Memory(heap, |spans|)
      requires forall p :: p in heap.pool ==> p < |heap.spans|
      modifies this`heap, this`spansUsed, pool, pool.spans
      ensures Linked() && (heap, i) == H.TakeMemory(old(heap), pick)
      ensures i < |heap.spans| && i !in heap.pool && Chosen(old(heap), sc, pick)
      ensures old(heap).pool != {} ==> old(pool.limit > 0 && pool.OwnFirst(i, sc, tag))
    {
      var r := TakeCached(sc, tag);
      if r.None? {
        i := NewMemory();
        pick := 0;
      } else {
        i := r.value;
        pick := i;
      }
    }

    lemma SpanHas(i: nat)
      requires Linked() && i < |heap.spans|
      ensures i < |spans| && spans[i].index == i && spans[i].View() == heap.spans[i]
    {
    }

    lemma SlotHas(c: nat, sc: nat)
      requires Linked() && c < |heap.ids| && sc < NUM_CLASSES
      ensures c < |cores| && cores[c].id == heap.ids[c] && |cores[c].hot| == |cores[c].rSpans| == NUM_CLASSES
      ensures SlotIs(heap, H.Slot(c, sc), cores[c].hot[sc], cores[c].rSpans[sc])
    {
    }

    /** Span::New. */
    method NewSpan(c: nat, sc: nat) returns (i: nat, ghost pick: nat)
      requires Linked() && c < |heap.ids| && heap.ids[c].Id? && sc < NUM_CLASSES && |heap.threads| > 0
      requires Memory(heap, |spans|)
      requires forall p :: p in heap.pool ==> p < |heap.spans|
      modifies this`heap, this`spansUsed, spans, pool, pool.spans
      ensures Linked() && (heap, i) == H.NewSpan(old(heap), sc, old(heap).ids[c], pick)
      ensures i < |heap.spans| && Chosen(old(heap), sc, pick)
      ensures old(heap).pool != {} ==> old(pool.limit > 0 && pool.OwnFirst(i, sc, heap.ids[c].tag))
    {
      SlotHas(c, 0);
      hide Linked, SlotIs, H.Built, H.TakeMemory, SpanPool.OwnFirst;
      var owner := cores[c].id;
      i, pick := TakeMemory(sc, owner.tag);
      SpanHas(i);
      assert spans[i] in spans;
      Construct(i, sc, owner);
    }

    /** A span that is shared becomes hot, and its remote blocks local. */
    method Acquire(i: nat) returns (ok: bool)
      requires Linked() && i < |heap.spans|
      modifies this`heap, spans
      ensures Linked() && ok == Epochs.NewMarkHot(old(heap).spans[i].epoch, old(heap).spans[i].epoch).ok
      ensures heap == if ok then H.Acquire(old(heap), i) else old(heap)
    {
      SpanHas(i);
      hide Linked, H.MoveIn;
      ok := MarkHot(i, spans[i].epoch);
      if ok {
        MoveIn(i);
      } else {
        assert heap.spans == old(heap).spans;
      }
    }

    /** The loop of GetSpan. */
    method TakeReusable(c: nat, sc: nat) returns (r: Option<nat>)
      requires Linked() && c < |heap.ids| && sc < NUM_CLASSES && Named(heap, H.Slot(c, sc))
      modifies this`heap, spans, cores
      ensures Linked() && (heap, r) == H.TakeReusable(old(heap), H.Slot(c, sc))
    {
      ghost var h, slot := heap, H.Slot(c, sc);
      SlotHas(c, sc);
      hide Linked, SlotIs, H.Acquire, H.RemoveBack, H.TakeReusable, Named, TakenFrom;
      TakeBegins(h, slot);
      var node := RemoveBack(c, sc);
      while node.Some?
        invariant Linked() && TakenFrom(h, heap, slot, node)
        decreases |H.DequeAt(heap, slot).spans| + if node.Some? then 1 else 0
      {
        ghost var g, last := heap, node;
        TakeEnds(h, g, slot, node);
        var ok := Acquire(node.value);
        if ok {
          return node;
        }
        node := RemoveBack(c, sc);
        TakeGoesOn(h, g, slot, last, heap, node);
      }
      TakeEnds(h, heap, slot, node);
      return None;
    }

    method GetSpan(c: nat, sc: nat) returns (i: nat, ghost pick: nat)
      requires Linked() && c < |heap.ids| && heap.ids[c].Id? && sc < NUM_CLASSES && |heap.threads| > 0
      requires Named(heap, H.Slot(c, sc)) && Supplied(heap, H.Slot(c, sc), |spans|)
      modifies this`heap, this`spansUsed, spans, cores, pool, pool.spans
      ensures Linked() && (heap, i) == H.GetSpan(old(heap), c, sc, pick)
      ensures i < |heap.spans| && Chosen(old(heap), sc, pick)
    {
      TakeKeeps(heap, H.Slot(c, sc));
      hide Linked, H.TakeReusable, H.NewSpan;
      pick := AnyOf(heap, sc);
      var r := TakeReusable(c, sc);
      if r.Some? { return r.value, pick; }
      ghost var g := heap;
      i, pick := NewSpan(c, sc);
      ChosenSame(old(heap), g, sc, pick);
    }

    // ----- Core::Allocate and Core::Free -----

    /** hot_span_[sc] = GetSpan(sc). */
    method Install(c: nat, sc: nat) returns (i: nat, ghost pick: nat)
      requires Linked() && c < |heap.ids| && heap.ids[c].Id? && sc < NUM_CLASSES && |heap.threads| > 0
      requires Named(heap, H.Slot(c, sc)) && Supplied(heap, H.Slot(c, sc), |spans|)
      modifies this`heap, this`spansUsed, spans, cores, pool, pool.spans
      ensures Linked() && heap == H.Install(old(heap), c, sc, pick)
      ensures i < |heap.spans| && H.Slot(c, sc) in heap.hot && heap.hot[H.Slot(c, sc)] == i
      ensures Chosen(old(heap), sc, pick)
    {
      SlotHas(c, sc);
      assert cores[c] in cores;
      hide Linked, H.GetSpan;
      i, pick := GetSpan(c, sc);
      SetHot(c, sc, i);
    }

    /** The hot span is used up: it floats, and another one takes its slot. */
    method Replace(c: nat, sc: nat, i: nat) returns (j: nat, ghost pick: nat)
      requires Linked() && c < |heap.ids| && heap.ids[c].Id? && sc < NUM_CLASSES && |heap.threads| > 0
      requires Named(heap, H.Slot(c, sc)) && i < |heap.spans| && Supplied(H.Float(heap, i), H.Slot(c, sc), |spans|)
      modifies this`heap, this`spansUsed, spans, cores, pool, pool.spans
      ensures Linked() && heap == H.Install(H.Float(old(heap), i), c, sc, pick)
      ensures j < |heap.spans| && H.Slot(c, sc) in heap.hot && heap.hot[H.Slot(c, sc)] == j
      ensures Chosen(old(heap), sc, pick)
    {
      SpanHas(i);
      assert spans[i] in spans;
      hide Linked, H.Install;
      FloatNamed(heap, i, H.Slot(c, sc));
      Float(i);
      j, pick := Install(c, sc);
    }

    method MoveAndTake(i: nat) returns (a: H.Answer)
      requires Linked() && i < |heap.spans|
      modifies this`heap, spans
      ensures Linked() && (heap, a) == H.TakeBlock(H.MoveIn(old(heap), i), i)
    {
      SpanHas(i);
      assert spans[i] in spans;
      hide Linked, H.TakeBlock, H.Span.MoveRemoteToLocalObjects;
      MoveIn(i);
      a := TakeBlock(i);
    }

    method AllocateHot(c: nat, sc: nat) returns (a: H.Answer, ghost pick: nat)
      requires Linked() && Named(heap, H.Slot(c, sc)) && c < |heap.ids| && heap.ids[c].Id? && sc < NUM_CLASSES
      requires H.Slot(c, sc) in heap.hot && H.SlotsExist(heap) && |heap.threads| > 0
      requires Serves(heap, H.Slot(c, sc), |spans|)
      modifies this`heap, this`spansUsed, spans, cores, pool, pool.spans
      ensures Linked() && (heap, a) == H.AllocateHot(old(heap), c, sc, pick)
      ensures Chosen(old(heap), sc, pick)
    {
      ghost var h := heap;
      SlotHas(c, sc);
      var i := cores[c].hot[sc].value;
      SpanHas(i);
      assert spans[i] in spans;
      TakeNull(h, i);
      hide Linked, SlotIs, Named, H.TakeBlock, H.MoveIn, H.Install, H.Float, H.AllocateHot, H.SlotsExist, H.Threshold;
      hide Chosen;
      pick := AnyOf(heap, sc);
      a := TakeBlock(i);
      HotTaken(h, c, sc, pick);
      if a.Null? {
        SpanHas(i);
        var n := spans[i].NrFreeObjects();
        if n > ClassToReuseThreshold(sc) {
          HotMoved(h, c, sc, pick);
          a := MoveAndTake(i);
          return;
        }
        i, pick := Replace(c, sc, i);
        HotReplaced(h, c, sc, pick);
        SpanHas(i);
        a := TakeBlock(i);
      }
    }

    /** The slot was empty. The block is there at once, so the pick of the second GetSpan does not matter. */
    method InstallAndTake(c: nat, sc: nat) returns (a: H.Answer, ghost pick: nat)
      requires Linked() && MidInv(heap) && DequesOpen(heap) && Current(heap, c)
      requires 0 < sc < NUM_CLASSES && H.Slot(c, sc) !in heap.hot && H.SlotsExist(heap)
      requires |heap.threads| > 0 && Supplied(heap, H.Slot(c, sc), |spans|)
      modifies this`heap, this`spansUsed, spans, cores, pool, pool.spans
      ensures Linked() && Chosen(old(heap), sc, pick)
      ensures var k := H.Install(old(heap), c, sc, pick);
        H.SlotsExist(k) && H.Slot(c, sc) in k.hot && c < |k.ids| && (heap, a) == H.AllocateHot(k, c, sc, pick)
    {
      ghost var h := heap;
      CoreNamed(h, H.Slot(c, sc));
      hide Linked, H.AllocateHot, H.Install, MidInv, DequesOpen, Named, Chosen;
      var i;
      i, pick := Install(c, sc);
      InstallOk(h, c, sc, pick);
      H.InstallExists(h, c, sc, pick);
      CoreNamed(heap, H.Slot(c, sc));
      ghost var k, p := heap, 0;
      a, p := AllocateHot(c, sc);
      InstallTaken(k, c, sc, pick);
      InstallTaken(k, c, sc, p);
    }

    /** Core::Allocate. */
    method Allocate(c: nat, size: nat) returns (a: H.Answer, ghost pick: nat)
      requires Valid() && Current(heap, c) && |heap.threads| > 0
      requires size == 0 || size > MAX_MEDIUM_SIZE || Serves(heap, H.Slot(c, SizeToClass(size)), |spans|)
      modifies this`heap, this`spansUsed, spans, cores, pool, pool.spans
      ensures Valid() && Chosen(old(heap), SizeToClass(size), pick)
      ensures H.SlotsExist(old(heap)) && (heap, a) == H.Allocate(old(heap), c, size, pick)
    {
      ghost var h := heap;
      var sc := SizeToClass(size);
      SizeHasClass(h, c, size);
      pick := AnyOf(h, sc);
      SlotHas(c, sc);
      hide Linked, Inv, MidInv, DequesOpen, Current, H.Allocate, H.AllocateHot, H.SlotsExist, SizeToClass, Chosen;
      if cores[c].hot[sc].None? {
        if sc == 0 {
          a := if size == 0 then H.Null else H.Large;
        } else {
          a, pick := InstallAndTake(c, sc);
        }
      } else {
        a, pick := AllocateHot(c, sc);
      }
      AllocateIs(h, c, size, pick);
      AllocateOk(h, c, size, pick);
    }

    /** src/core.h:194-201. */
    method Reclaim(i: nat, seen: Epoch, owner: CoreId)
      requires Linked() && Settleable(heap, i, owner) && |heap.threads| > 0
      modifies this`heap, spans, cores, pool, pool.spans
      ensures Linked() && heap == H.Reclaim(old(heap), i, seen, owner)
    {
      SpanHas(i);
      SlotHas(owner.core, 0);
      hide Linked, H.Remove;
      var ok := MarkFull(i, seen);
      if ok {
        if seen.IsReusable() {
          SpanHas(i);
          Remove(owner.core, spans[i].sizeClass, owner, i);
        }
        Delete(i);
      } else {
        assert heap.spans == old(heap).spans;
      }
    }

    /** src/core.h:210-213. */
    method Reuse(i: nat, seen: Epoch, owner: CoreId)
      requires Linked() && Settleable(heap, i, owner)
      modifies this`heap, spans, cores
      ensures Linked() && heap == H.Reuse(old(heap), i, seen, owner)
    {
      SpanHas(i);
      SlotHas(owner.core, 0);
      hide Linked, H.PushFront;
      var ok := MarkReuse(i, seen);
      if ok {
        SpanHas(i);
        PushFront(owner.core, spans[i].sizeClass, owner, i);
      } else {
        assert heap.spans == old(heap).spans;
      }
    }

    method Settle(i: nat, seen: Epoch, owner: CoreId, free: int)
      requires Linked() && Settleable(heap, i, owner) && |heap.threads| > 0
      modifies this`heap, spans, cores, pool, pool.spans
      ensures Linked() && heap == H.Settle(old(heap), i, seen, owner, free)
    {
      SpanHas(i);
      var sc := spans[i].sizeClass;
      hide Linked, H.Reclaim, H.Reuse;
      if free == ClassToObjects(sc) && !seen.Exclusive() {
        Reclaim(i, seen, owner);
      } else if free > ClassToReuseThreshold(sc) && !seen.IsReusable() {
        Reuse(i, seen, owner);
      }
    }

    /** Core::Free of a block the program holds. */
    method Free(c: nat, o: H.Obj)
      requires Valid() && Current(heap, c) && o in heap.live && |heap.threads| > 0
      modifies this`heap, spans, cores, pool, pool.spans
      ensures Valid() && o.span < |old(heap).spans| && heap == H.Free(old(heap), c, o)
    {
      ghost var h := heap;
      FreeOk(h, c, o);
      ReleaseSettles(h, c, o);
      var i := o.span;
      SpanHas(i);
      SlotHas(c, 0);
      var epoch, owner := spans[i].epoch, spans[i].owner;
      SlotHas(owner.core, 0);
      var dead := cores[owner.core].id.Terminated? || cores[owner.core].id != owner;
      hide Linked, Inv, H.Release, H.Revive, H.Settle, Settleable;
      var free := Release(c, o);
      if dead {
        Revive(c, i, owner, epoch);
        SlotHas(c, 0);
        Settle(i, epoch, cores[c].id, free);
      } else {
        Settle(i, epoch, owner, free);
      }
    }

    // ----- threads -----

    method Init(c: nat, id: CoreId)
      requires Linked() && c < |heap.ids|
      modifies this`heap, cores[c]
      ensures Linked() && heap == H.Init(old(heap), c, id)
    {
      SlotHas(c, 0);
      hide Linked, H.Open, H.OpenAll;
      SetId(c, id);
      ghost var h := heap;
      var k := 0;
      OpenAllKeeps(h, c, id, 0);
      while k < NUM_CLASSES
        invariant k <= NUM_CLASSES && Linked() && |heap.ids| == |h.ids| && heap == H.OpenAll(h, c, id, k)
      {
        OpenAllKeeps(h, c, id, k + 1);
        Open(c, k, id);
        k := k + 1;
      }
    }

    /** GetMeALAB: the thread gets a core that nobody has. */
    method StartThread(t: nat)
      requires Valid() && t !in tls && (heap.freeCores != [] || |heap.ids| < |cores|)
      modifies this`heap, this`freeAbs, this`coresUsed, this`threadIds, this`tls, cores, pool
      ensures Valid() && H.CoresExist(old(heap)) && heap == H.StartThread(old(heap), t)
    {
      ghost var h := heap;
      StartInv(h, t);
      StartKeeps(h);
      hide Linked, Inv, H.Init, H.FindFreeCore, H.CoresExist, H.NextId, H.Bind;
      var c := FindFreeCore();
      NextId();
      SlotHas(c, 0);
      Init(c, Id(c, threadIds));
      Bind(t, c);
    }

    method NextId()
      requires Linked()
      modifies this`heap, this`threadIds
      ensures Linked() && heap == H.NextId(old(heap)) && threadIds == heap.threadIds
    {
      ghost var h := heap;
      threadIds := threadIds + 1;
      heap := H.NextId(h);
      CoresStay(h, heap);
      SpansStay(h, heap);
      PoolStays(h, heap);
    }

    /** One round of the loop in Destroy. */
    method DestroyClass(c: nat, sc: nat)
      requires Linked() && c < |heap.ids| && sc < NUM_CLASSES && H.SlotsExist(heap)
      modifies this`heap, spans, cores[c]
      ensures Linked() && heap == H.DestroyClass(old(heap), H.Slot(c, sc))
    {
      SlotHas(c, sc);
      ghost var h, slot := heap, H.Slot(c, sc);
      DestroyedParked(h, slot);
      hide Linked, H.Float, H.DestroyClass, H.Open, H.SlotsExist;
      Open(c, sc, Terminated);
      SlotHas(c, sc);
      if cores[c].hot[sc].Some? {
        var i := cores[c].hot[sc].value;
        SpanHas(i);
        Float(i);
        ClearHot(c, sc);
      }
      RemoveAll(c, sc);
    }

    method Destroy(c: nat)
      requires Linked() && c < |heap.ids| && H.SlotsExist(heap)
      modifies this`heap, spans, cores[c]
      ensures Linked() && heap == H.Destroy(old(heap), c)
    {
      ghost var h := heap;
      SlotHas(c, 0);
      hide Linked, H.DestroyClass, H.SlotsExist, H.DestroyClasses;
      var k := 0;
      DestroyNone(h, c);
      while k < NUM_CLASSES
        invariant k <= NUM_CLASSES && Linked() && heap == H.DestroyClasses(h, c, k)
      {
        DestroyNext(h, c, k);
        DestroyClass(c, k);
        k := k + 1;
      }
      SetId(c, Terminated);
    }

    /** ThreadDestructor. */
    method ExitThread(t: nat)
      requires Valid() && t in tls
      modifies this`heap, this`freeAbs, this`tls, spans, cores, pool
      ensures Valid()
      ensures var h := old(heap);
        H.SlotsExist(h) && t in h.threads && h.threads[t] < |h.ids| && heap == H.ExitThread(h, t)
    {
      ghost var h := heap;
      HeapThreads.ExitOk(h, t);
      var c := tls[t];
      SlotHas(c, 0);
      HeapThreads.DestroyOk(h, c);
      hide Linked, Inv, H.Destroy, H.SlotsExist;
      Destroy(c);
      Unbind(t);
    }

    // ----- the calls of the program -----

    /** The objects stand for a heap that some run of calls leads to: HeapTheorems applies. */
    ghost predicate Running()
      reads this, spans, cores, pool, pool.spans
    {
      Linked() && HeapTheorems.Reachable(heap)
    }

    method ThreadStarts(t: nat)
      requires Running() && t !in tls && (freeAbs != [] || coresUsed < |cores|)
      modifies this`heap, this`freeAbs, this`coresUsed, this`threadIds, this`tls, cores, pool
      ensures Running() && heap == HeapTheorems.Next(old(heap), HeapTheorems.Start(t))
    {
      HeapTheorems.ReachableInv(heap);
      HeapTheorems.InvIndexed(heap);
      HeapTheorems.ReachableNext(heap, HeapTheorems.Start(t));
      hide Linked, Inv, HeapTheorems.Reachable, HeapTheorems.Indexed, H.StartThread;
      StartThread(t);
    }

    method ThreadEnds(t: nat)
      requires Running() && t in tls
      modifies this`heap, this`freeAbs, this`tls, spans, cores, pool
      ensures Running() && heap == HeapTheorems.Next(old(heap), HeapTheorems.Exit(t))
    {
      HeapTheorems.ReachableInv(heap);
      HeapTheorems.InvIndexed(heap);
      HeapTheorems.ReachableNext(heap, HeapTheorems.Exit(t));
      hide Linked, Inv, HeapTheorems.Reachable, HeapTheorems.Indexed, H.ExitThread;
      ExitThread(t);
    }

    /** malloc. The source stops when a request that is neither empty nor large finds no block and no span. */
    method Malloc(t: nat, size: nat) returns (a: H.Answer, ghost pick: nat)
      requires Running() && t in tls
      requires size == 0 || size > MAX_MEDIUM_SIZE || Serves(heap, H.Slot(tls[t], SizeToClass(size)), |spans|)
      modifies this`heap, this`spansUsed, spans, cores, pool, pool.spans
      ensures Running() && HeapTheorems.Enabled(old(heap), HeapTheorems.Malloc(t, size, pick))
      ensures Chosen(old(heap), SizeToClass(size), pick)
      ensures heap == HeapTheorems.Next(old(heap), HeapTheorems.Malloc(t, size, pick))
      ensures t in old(heap).threads && old(heap).threads[t] < |old(heap).ids| && H.SlotsExist(old(heap))
      ensures a == H.Allocate(old(heap), old(heap).threads[t], size, pick).1
    {
      ghost var h := heap;
      HeapTheorems.ReachableInv(h);
      HeapTheorems.InvIndexed(h);
      a, pick := Allocate(tls[t], size);
      HeapTheorems.ReachableNext(h, HeapTheorems.Malloc(t, size, pick));
      hide Linked, Inv, HeapTheorems.Reachable, HeapTheorems.Indexed, H.Allocate, Current;
    }

    /** free of a block the program holds. */
    method Dealloc(t: nat, o: H.Obj)
      requires Running() && t in tls && o in heap.live
      modifies this`heap, spans, cores, pool, pool.spans
      ensures Running() && heap == HeapTheorems.Next(old(heap), HeapTheorems.Dealloc(t, o))
    {
      ghost var h := heap;
      HeapTheorems.ReachableInv(h);
      HeapTheorems.InvIndexed(h);
      HeapTheorems.ReachableNext(h, HeapTheorems.Dealloc(t, o));
      Free(tls[t], o);
      hide Linked, Inv, HeapTheorems.Reachable, HeapTheorems.Indexed, H.Free, Current;
    }
  }
}
