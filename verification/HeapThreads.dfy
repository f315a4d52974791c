/** Threads coming and going keep the invariant of the allocator. */
module HeapThreads {
  import opened CoreIds
  import opened Epochs
  import opened FreeLists
  import opened Heaps
  import opened HeapInvariants
  import opened SizeClasses

  // ----- thread start -----

  lemma {:induction false} OpenAllShape(h: Heap, c: nat, id: CoreId, n: nat)
    ensures var g := OpenAll(h, c, id, n);
      && g == h.(deques := g.deques)
      && (forall slot :: DequeAt(g, slot) ==
            if slot.core == c && slot.sc < n then RSpans(id, DequeAt(h, slot).spans) else DequeAt(h, slot))
      && (forall slot :: slot in g.deques ==> slot in h.deques || slot.core == c)
  {
    if n > 0 {
      OpenAllShape(h, c, id, n - 1);
    }
  }

  /** A core that no thread has, taken off the free list or new. */
  ghost predicate Found(h: Heap, g: Heap, c: nat) {
    && c < |g.ids| && g.ids[c].Terminated? && |h.ids| <= |g.ids|
    && (forall k :: 0 <= k < |h.ids| ==> g.ids[k] == h.ids[k])
    && (c < |h.ids| ==> |g.ids| == |h.ids|) && (c >= |h.ids| ==> c == |h.ids| && |g.ids| == c + 1)
    && g == h.(ids := g.ids, freeCores := g.freeCores)
    && (forall k :: 0 <= k < |g.ids| ==> (k in g.freeCores <==> g.ids[k].Terminated? && k != c))
    && (forall k :: 0 <= k < |g.freeCores| ==> g.freeCores[k] < |g.ids|)
    && (forall j, k :: 0 <= j < k < |g.freeCores| ==> g.freeCores[j] != g.freeCores[k])
  }

  lemma FindFreeOk(h: Heap)
    requires IdsOk(h)
    ensures var (g, c) := FindFreeCore(h); Found(h, g, c)
  {
    var f := h.freeCores;
    if f != [] {
      assert f[0] in f;
      assert forall k :: k in f <==> k == f[0] || k in f[1..];
      assert f[0] !in f[1..];
    } else {
      assert forall k :: 0 <= k < |h.ids| ==> k !in f;
    }
  }

  /** The new incarnation owns nothing yet: its tag was never given before. */
  lemma IncarnateOk(h: Heap, g: Heap, c: nat, id: CoreId, s: Heap)
    requires Inv(h) && Found(h, g, c) && id == Id(c, h.threadIds + 1)
    requires s == g.(ids := g.ids[c := id], deques := s.deques, threadIds := h.threadIds + 1, threads := s.threads)
    requires forall slot :: DequeAt(s, slot) ==
               if slot.core == c && slot.sc < NUM_CLASSES then RSpans(id, DequeAt(g, slot).spans) else DequeAt(g, slot)
    requires forall slot :: slot in s.deques ==> slot in g.deques || slot.core == c
    ensures MidInv(s)
  {
    hide BlocksOk, Objects, Threshold;
    forall i | 0 <= i < |s.spans| ensures SpanOk(s, i, s.spans[i]) {
      assert SpanOk(h, i, h.spans[i]);
    }
    forall slot | slot in s.hot ensures HotOk(s, slot, s.hot[slot]) {
      assert HotOk(h, slot, h.hot[slot]);
    }
    assert LinksOk(s) by {
      IncarnateLinks(h, g, c, id, s);
    }
  }

  lemma IncarnateLinks(h: Heap, g: Heap, c: nat, id: CoreId, s: Heap)
    requires Inv(h) && Found(h, g, c) && id == Id(c, h.threadIds + 1)
    requires s.spans == h.spans
    requires forall slot :: DequeAt(s, slot) ==
               if slot.core == c && slot.sc < NUM_CLASSES then RSpans(id, DequeAt(g, slot).spans) else DequeAt(g, slot)
    ensures LinksOk(s)
  {
    hide BlocksOk;
    forall slot ensures LinkOk(s, slot, DequeAt(s, slot)) {
      var d := DequeAt(h, slot);
      assert LinkOk(h, slot, d) && DequeAt(g, slot) == d;
      assert c >= |h.ids| ==> slot.core == c ==> slot !in h.deques;
      forall i: nat ensures i in DequeAt(s, slot).spans <==> Linkable(s, slot, i) {
        assert i in d.spans <==> Linkable(h, slot, i);
        if i < |h.spans| { assert SpanOk(h, i, h.spans[i]); }
      }
    }
  }

  /** What StartThread adds to the heap g with the free core c. */
  ghost predicate Started(g: Heap, s: Heap, c: nat, t: nat, id: CoreId) {
    && c < |g.ids|
    && s == g.(ids := g.ids[c := id], deques := s.deques, threadIds := g.threadIds + 1, threads := g.threads[t := c])
    && (forall slot :: DequeAt(s, slot) ==
          if slot.core == c && slot.sc < NUM_CLASSES then RSpans(id, DequeAt(g, slot).spans) else DequeAt(g, slot))
    && (forall slot :: slot in s.deques ==> slot in g.deques || slot.core == c)
  }

  lemma StartShape(h: Heap, t: nat)
    requires IdsOk(h)
    ensures CoresExist(h)
    ensures var (g, c) := FindFreeCore(h);
      Found(h, g, c) && Started(g, StartThread(h, t), c, t, Id(c, h.threadIds + 1))
  {
    FindFreeOk(h);
    var (g, c) := FindFreeCore(h);
    var id := Id(c, h.threadIds + 1);
    OpenAllShape(g.(threadIds := h.threadIds + 1, ids := g.ids[c := id]), c, id, NUM_CLASSES);
    hide OpenAll, FindFreeCore;
  }

  lemma StartDeques(h: Heap, g: Heap, s: Heap, c: nat, t: nat)
    requires DequesOpen(h) && Found(h, g, c) && Started(g, s, c, t, Id(c, h.threadIds + 1))
    ensures DequesOpen(s)
  {
    forall slot: Slot | slot.core < |s.ids| && slot.sc < NUM_CLASSES ensures DequeAt(s, slot).owner == s.ids[slot.core] {
      assert DequeAt(g, slot) == DequeAt(h, slot);
    }
  }

  lemma StartIds(h: Heap, g: Heap, s: Heap, c: nat, t: nat)
    requires IdsOk(h) && ThreadsOk(h) && t !in h.threads
    requires Found(h, g, c) && Started(g, s, c, t, Id(c, h.threadIds + 1))
    ensures IdsOk(s) && ThreadsOk(s) && Current(s, c)
    ensures forall u :: u in h.threads ==> h.threads[u] != c
  {
    hide DequeAt;
  }

  /** A thread start gives the thread a core no other thread has. */
  lemma StartOk(h: Heap, t: nat)
    requires Inv(h) && t !in h.threads
    ensures CoresExist(h)
    ensures var s := StartThread(h, t); var c := FindFreeCore(h).1;
      && Inv(s) && s.live == h.live && s.pool == h.pool && s.spans == h.spans
      && s.threads == h.threads[t := c] && Current(s, c)
      && forall u :: u in h.threads ==> h.threads[u] != c
  {
    StartShape(h, t);
    var (g, c) := FindFreeCore(h);
    var s := StartThread(h, t);
    hide StartThread, FindFreeCore, MidInv;
    StartDeques(h, g, s, c, t);
    StartIds(h, g, s, c, t);
    hide DequesOpen, IdsOk, ThreadsOk, Current;
    IncarnateOk(h, g, c, Id(c, h.threadIds + 1), s);
  }

  // ----- thread exit -----

  lemma CloseOk(h: Heap, slot: Slot)
    requires MidInv(h) && slot.core < |h.ids|
    ensures MidInv(h.(deques := h.deques[slot := RSpans(Terminated, [])]))
  {
    var g := h.(deques := h.deques[slot := RSpans(Terminated, [])]);
    hide BlocksOk, Objects, Threshold;
    assert SpansOk(g) by {
      forall i | 0 <= i < |g.spans| ensures SpanOk(g, i, g.spans[i]) {
        assert SpanOk(h, i, h.spans[i]);
      }
    }
    forall s | s in g.hot ensures HotOk(g, s, g.hot[s]) {
      assert HotOk(h, s, h.hot[s]);
    }
    forall t ensures LinkOk(g, t, DequeAt(g, t)) {
      assert LinkOk(h, t, DequeAt(h, t));
      forall i: nat ensures i in DequeAt(g, t).spans <==> Linkable(g, t, i) {
        assert i in DequeAt(h, t).spans <==> Linkable(h, t, i);
        if i < |h.spans| { assert SpanOk(h, i, h.spans[i]); }
      }
    }
  }

  /** What is left of a heap once the classes below n of core c are closed. */
  ghost predicate Closing(h: Heap, g: Heap, c: nat, n: nat) {
    && SameThreads(h, g) && g.live == h.live && g.pool == h.pool && |g.spans| == |h.spans|
    && (forall slot :: slot in g.hot <==> slot in h.hot && !(slot.core == c && slot.sc < n))
    && (forall slot :: slot in g.hot ==> g.hot[slot] == h.hot[slot])
    && (forall slot :: DequeAt(g, slot) ==
          if slot.core == c && slot.sc < n then RSpans(Terminated, []) else DequeAt(h, slot))
  }

  lemma DestroyClassShape(h: Heap, g: Heap, c: nat, n: nat)
    requires Closing(h, g, c, n) && SlotsExist(g)
    ensures Closing(h, DestroyClass(g, Slot(c, n)), c, n + 1)
  {
    var k := DestroyClass(g, Slot(c, n));
    assert forall slot: Slot :: slot.core == c && slot.sc == n <==> slot == Slot(c, n);
    forall slot ensures DequeAt(k, slot) ==
        if slot.core == c && slot.sc < n + 1 then RSpans(Terminated, []) else DequeAt(h, slot) {
      assert DequeAt(g, slot) ==
        if slot.core == c && slot.sc < n then RSpans(Terminated, []) else DequeAt(h, slot);
    }
  }

  lemma CoreSlots(h: Heap)
    requires MidInv(h)
    ensures SlotsExist(h)
  {
    assert forall s :: s in h.hot ==> HotOk(h, s, h.hot[s]);
  }

  lemma DestroyClassOk(g: Heap, slot: Slot)
    requires MidInv(g) && slot.core < |g.ids|
    ensures SlotsExist(g) && MidInv(DestroyClass(g, slot))
  {
    CoreSlots(g);
    if slot in g.hot {
      ParkOk(g, slot);
      hide MidInv;
      CloseOk(Park(g, slot), slot);
    } else {
      hide MidInv;
      CloseOk(g, slot);
    }
  }

  /** One more round of the loop. */
  lemma DestroyRound(h: Heap, c: nat, n: nat)
    requires SlotsExist(h) && c < |h.ids|
    requires MidInv(DestroyClasses(h, c, n)) && Closing(h, DestroyClasses(h, c, n), c, n)
    ensures MidInv(DestroyClasses(h, c, n + 1)) && Closing(h, DestroyClasses(h, c, n + 1), c, n + 1)
  {
    var g := DestroyClasses(h, c, n);
    assert DestroyClasses(h, c, n + 1) == DestroyClass(g, Slot(c, n));
    hide MidInv, DestroyClass, SlotsExist, Closing, DestroyClasses;
    DestroyClassShape(h, g, c, n);
    DestroyClassOk(g, Slot(c, n));
  }

  lemma DestroyNone(h: Heap, c: nat)
    requires SlotsExist(h)
    ensures DestroyClasses(h, c, 0) == h && Closing(h, h, c, 0)
  {
  }

  lemma {:induction false} DestroyClassesOk(h: Heap, c: nat, n: nat)
    requires MidInv(h) && c < |h.ids|
    ensures SlotsExist(h)
    ensures var g := DestroyClasses(h, c, n); MidInv(g) && Closing(h, g, c, n)
  {
    hide MidInv, Closing, SlotsExist, DestroyClasses;
    CoreSlots(h);
    if n == 0 {
      DestroyNone(h, c);
    } else {
      DestroyClassesOk(h, c, n - 1);
      DestroyRound(h, c, n - 1);
    }
  }

  lemma TerminateOk(h: Heap, c: nat)
    requires MidInv(h) && c < |h.ids|
    requires forall slot :: slot in h.hot ==> slot.core != c || slot.sc >= NUM_CLASSES
    ensures MidInv(h.(ids := h.ids[c := Terminated]))
  {
    var g := h.(ids := h.ids[c := Terminated]);
    hide BlocksOk, Objects, Threshold, LinkOk;
    assert SpansOk(g) by {
      forall i | 0 <= i < |g.spans| ensures SpanOk(g, i, g.spans[i]) {
        assert SpanOk(h, i, h.spans[i]);
      }
    }
    forall s | s in g.hot ensures HotOk(g, s, g.hot[s]) {
      assert HotOk(h, s, h.hot[s]);
      assert SpanOk(h, h.hot[s], h.spans[h.hot[s]]);
    }
    SameLinks(h, g);
  }

  /** After Destroy nothing of the core is left in use: no hot slot, every deque closed and empty. */
  lemma DestroyOk(h: Heap, c: nat)
    requires MidInv(h) && c < |h.ids|
    ensures SlotsExist(h)
    ensures var g := Destroy(h, c);
      && MidInv(g) && g.ids == h.ids[c := Terminated] && g.live == h.live && g.pool == h.pool
      && g.threads == h.threads && g.freeCores == h.freeCores && g.threadIds == h.threadIds
      && (forall slot :: slot in g.hot ==> slot.core != c)
      && (forall slot: Slot :: slot.sc < NUM_CLASSES ==>
            DequeAt(g, slot) == if slot.core == c then RSpans(Terminated, []) else DequeAt(h, slot))
  {
    DestroyClassesOk(h, c, NUM_CLASSES);
    var g := DestroyClasses(h, c, NUM_CLASSES);
    forall slot | slot in g.hot ensures slot.core != c {
      assert HotOk(g, slot, g.hot[slot]);
      assert SpanOk(g, g.hot[slot], g.spans[g.hot[slot]]);
    }
    hide MidInv, DestroyClasses;
    TerminateOk(g, c);
  }

  lemma ExitOk(h: Heap, t: nat)
    requires Inv(h) && t in h.threads
    ensures SlotsExist(h) && h.threads[t] < |h.ids|
    ensures var g := ExitThread(h, t); Inv(g) && g.live == h.live && g.pool == h.pool && g.threads == h.threads - {t}
  {
    var c := h.threads[t];
    DestroyOk(h, c);
    var d := Destroy(h, c);
    var g := ExitThread(h, t);
    hide SlotsExist, Destroy, MidInv, DequeAt;
    SameCore(d, g);
    ExitIds(h, g, c, t);
    assert DequesOpen(g) by {
      ExitDeques(h, d, g, c);
    }
  }

  lemma ExitIds(h: Heap, g: Heap, c: nat, t: nat)
    requires IdsOk(h) && ThreadsOk(h) && t in h.threads && h.threads[t] == c
    requires g.ids == h.ids[c := Terminated] && g.threadIds == h.threadIds
    requires g.freeCores == [c] + h.freeCores && g.threads == h.threads - {t}
    ensures IdsOk(g) && ThreadsOk(g)
  {
    forall k | 0 <= k < |g.ids| ensures k in g.freeCores <==> g.ids[k].Terminated? {
      assert k in g.freeCores <==> k == c || k in h.freeCores;
    }
  }

  lemma ExitDeques(h: Heap, d: Heap, g: Heap, c: nat)
    requires DequesOpen(h) && c < |h.ids| && g.ids == h.ids[c := Terminated] && g.deques == d.deques
    requires forall slot: Slot :: slot.sc < NUM_CLASSES ==>
               DequeAt(d, slot) == if slot.core == c then RSpans(Terminated, []) else DequeAt(h, slot)
    ensures DequesOpen(g)
  {
    forall slot: Slot | slot.core < |g.ids| && slot.sc < NUM_CLASSES ensures DequeAt(g, slot).owner == g.ids[slot.core] {
      assert DequeAt(g, slot) == DequeAt(d, slot);
    }
  }

  lemma SameCore(d: Heap, g: Heap)
    requires MidInv(d) && g == d.(freeCores := g.freeCores, threads := g.threads)
    ensures MidInv(g)
  {
    hide BlocksOk, Objects, Threshold, LinkOk;
    assert SpansOk(g) by {
      forall i | 0 <= i < |g.spans| ensures SpanOk(g, i, g.spans[i]) {
        assert SpanOk(d, i, d.spans[i]);
      }
    }
    forall s | s in g.hot ensures HotOk(g, s, g.hot[s]) {
      assert HotOk(d, s, d.hot[s]);
    }
    SameLinks(d, g);
  }
}
