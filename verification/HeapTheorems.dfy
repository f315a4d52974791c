/** What holds after any sequence of calls by any number of threads, each call run to completion. */
module HeapTheorems {
  import opened CoreIds
  import opened Epochs
  import opened FreeLists
  import opened Heaps
  import opened HeapInvariants
  import opened HeapThreads
  import opened Layout
  import opened SizeClasses

  /** A thread starts or ends, allocates, or frees a block the program holds, whoever allocated it. */
  datatype Call = Start(t: nat) | Exit(t: nat) | Malloc(t: nat, size: nat, pick: nat) | Dealloc(t: nat, o: Obj)

  /** pick stands for the span the pool's scan finds (SpanPools.SpanPool.Allocate). */
  predicate Enabled(h: Heap, a: Call) {
    match a
    case Start(t) => t !in h.threads
    case Exit(t) => t in h.threads
    case Malloc(t, _, pick) => t in h.threads && (h.pool != {} ==> pick in h.pool)
    case Dealloc(t, o) => t in h.threads && o in h.live
  }

  /** The indices a call follows exist. Inv implies it. */
  predicate Indexed(h: Heap) {
    && SlotsExist(h) && CoresExist(h)
    && (forall t :: t in h.threads ==> h.threads[t] < |h.ids| && h.ids[h.threads[t]].Id?)
    && (forall o :: o in h.live ==> o.span < |h.spans|)
  }

  function Next(h: Heap, a: Call): Heap {
    if !Indexed(h) || !Enabled(h, a) then h
    else
      match a
      case Start(t) => StartThread(h, t)
      case Exit(t) => ExitThread(h, t)
      case Malloc(t, size, pick) => Allocate(h, h.threads[t], size, pick).0
      case Dealloc(t, o) => Free(h, h.threads[t], o)
  }

  ghost predicate Run(h: Heap, calls: seq<Call>)
    decreases |calls|
  {
    calls == [] || (Enabled(h, calls[0]) && Run(Next(h, calls[0]), calls[1..]))
  }

  function After(h: Heap, calls: seq<Call>): Heap
    decreases |calls|
  {
    if calls == [] then h else After(Next(h, calls[0]), calls[1..])
  }

  lemma InvIndexed(h: Heap)
    requires Inv(h)
    ensures Indexed(h)
    ensures forall t :: t in h.threads ==> Current(h, h.threads[t])
  {
    hide SpansOk, LinksOk, DequesOpen;
    assert forall slot :: slot in h.hot ==> HotOk(h, slot, h.hot[slot]);
  }

  lemma StepInv(h: Heap, a: Call)
    requires Inv(h) && Enabled(h, a)
    ensures Inv(Next(h, a))
  {
    InvIndexed(h);
    hide Inv, Current, Indexed;
    match a
    case Start(t) => StartOk(h, t);
    case Exit(t) => ExitOk(h, t);
    case Malloc(t, size, pick) => AllocateOk(h, h.threads[t], size, pick);
    case Dealloc(t, o) => FreeOk(h, h.threads[t], o);
  }

  lemma {:induction false} RunInv(h: Heap, calls: seq<Call>)
    requires Inv(h) && Run(h, calls)
    ensures Inv(After(h, calls))
    decreases |calls|
  {
    hide Inv;
    if calls != [] {
      StepInv(h, calls[0]);
      RunInv(Next(h, calls[0]), calls[1..]);
    }
  }

  lemma EmptyInv()
    ensures Inv(Empty)
  {
  }

  /** The heap after a run from the start of the process. */
  ghost predicate Reachable(h: Heap) {
    exists calls :: Run(Empty, calls) && After(Empty, calls) == h
  }

  lemma ReachableInv(h: Heap)
    requires Reachable(h)
    ensures Inv(h)
  {
    var calls :| Run(Empty, calls) && After(Empty, calls) == h;
    EmptyInv();
    RunInv(Empty, calls);
  }

  lemma {:induction false} RunAppend(h: Heap, calls: seq<Call>, a: Call)
    requires Run(h, calls) && Enabled(After(h, calls), a)
    ensures Run(h, calls + [a]) && After(h, calls + [a]) == Next(After(h, calls), a)
    decreases |calls|
  {
    hide Next, Enabled;
    if calls == [] {
      assert [] + [a] == [a] && [a][1..] == [];
    } else {
      RunAppend(Next(h, calls[0]), calls[1..], a);
      assert (calls + [a])[1..] == calls[1..] + [a];
    }
  }

  lemma ReachableNext(h: Heap, a: Call)
    requires Reachable(h) && Enabled(h, a)
    ensures Reachable(Next(h, a))
  {
    hide Next, Enabled;
    var calls :| Run(Empty, calls) && After(Empty, calls) == h;
    RunAppend(Empty, calls, a);
  }

  lemma EmptyReachable()
    ensures Reachable(Empty)
  {
    assert Run(Empty, []) && After(Empty, []) == Empty;
  }

  // ----- blocks -----

  function Count(p: bool): nat {
    if p then 1 else 0
  }

  /** Each block of each span is in exactly one of four places. */
  lemma Conservation(h: Heap, i: nat, b: Block)
    requires Reachable(h) && i < |h.spans| && b < Objects(h.spans[i].sc)
    ensures var s := h.spans[i];
      Count(Obj(i, b) in h.live) + Count(b in s.local.list) + Count(s.local.bump <= b) + Count(b in s.remote) == 1
  {
    ReachableInv(h);
    var s := h.spans[i];
    assert SpanOk(h, i, s);
    assert forall c :: c in s.remote ==> !s.local.Holds(c, Objects(s.sc));
  }

  /** The address of a block, when the arena starts at start. */
  function Address(h: Heap, start: nat, o: Obj): nat
    requires o.span < |h.spans| && h.spans[o.span].sc < NUM_CLASSES
  {
    BlockStart(SpanAddress(start, o.span), h.spans[o.span].sc, o.block)
  }

  function SpanAddress(start: nat, i: nat): nat {
    start + Offset(i, VIRTUAL_SPAN_SIZE)
  }

  lemma SpanAddresses(start: nat, i: nat, j: nat)
    requires SpanBase(start)
    ensures SpanBase(SpanAddress(start, i))
    ensures i != j ==> SpanAddress(start, i) != SpanAddress(start, j)
  {
    ModMultiple(start / VIRTUAL_SPAN_SIZE + i, VIRTUAL_SPAN_SIZE, 0);
    if i < j {
      OffsetFits(i, j, VIRTUAL_SPAN_SIZE);
    } else if j < i {
      OffsetFits(j, i, VIRTUAL_SPAN_SIZE);
    }
  }

  function BlockSize(h: Heap, o: Obj): nat
    requires o.span < |h.spans| && h.spans[o.span].sc < NUM_CLASSES
  {
    ClassToSize(h.spans[o.span].sc)
  }

  /** What the program holds are blocks of spans. */
  ghost predicate Exists(h: Heap, o: Obj) {
    o.span < |h.spans| && 0 < h.spans[o.span].sc < NUM_CLASSES && o.block < ClassToObjects(h.spans[o.span].sc)
  }

  lemma LiveExists(h: Heap, o: Obj)
    requires Inv(h) && o in h.live
    ensures Exists(h, o)
  {
    assert SpanOk(h, o.span, h.spans[o.span]);
    assert Obj(o.span, o.block) == o;
    hide ClassToObjects;
  }

  /** No two blocks in the hands of the program overlap, all are aligned, and every address in one leads
      to its span. */
  lemma LiveBlocksApart(h: Heap, start: nat, o: Obj, p: Obj)
    requires Reachable(h) && SpanBase(start) && o in h.live && p in h.live && o != p
    ensures Exists(h, o) && Exists(h, p)
    ensures Address(h, start, o) + BlockSize(h, o) <= Address(h, start, p)
            || Address(h, start, p) + BlockSize(h, p) <= Address(h, start, o)
    ensures Address(h, start, o) % MIN_ALIGNMENT == 0
    ensures FromObject(Address(h, start, o)) == SpanAddress(start, o.span)
  {
    ReachableInv(h);
    LiveExists(h, o);
    LiveExists(h, p);
    SpanAddresses(start, o.span, p.span);
    SpanAddresses(start, p.span, o.span);
    hide Inv, ClassToSize, ClassToObjects, SpanBase, SpanAddress, BlockStart, FromObject, Reachable, ClassToSpanSize;
    BlocksDisjoint(SpanAddress(start, o.span), h.spans[o.span].sc, o.block,
                   SpanAddress(start, p.span), h.spans[p.span].sc, p.block);
    TableSound(h.spans[o.span].sc);
    BlockInSpan(SpanAddress(start, o.span), h.spans[o.span].sc, o.block, Address(h, start, o));
  }

  /** A request from one byte to 1 MiB is always served, with a block nobody holds, of the smallest class
      that is large enough. Empty and larger requests leave the heap alone. */
  lemma AllocationFits(h: Heap, t: nat, size: nat, pick: nat)
    requires Reachable(h) && Enabled(h, Malloc(t, size, pick))
    ensures Indexed(h)
    ensures var (g, a) := Allocate(h, h.threads[t], size, pick);
      && g == Next(h, Malloc(t, size, pick))
      && (size == 0 ==> a.Null? && g == h)
      && (size > MAX_MEDIUM_SIZE ==> a.Large? && g == h)
      && (0 < size <= MAX_MEDIUM_SIZE ==>
            && a.Block? && a.obj !in h.live && g.live == h.live + {a.obj} && Exists(g, a.obj)
            && size <= BlockSize(g, a.obj)
            && forall c :: 0 < c < NUM_CLASSES && size <= ClassToSize(c) ==> BlockSize(g, a.obj) <= ClassToSize(c))
  {
    ReachableInv(h);
    InvIndexed(h);
    hide Inv, Current, Indexed, Reachable, Allocate;
    AllocateOk(h, h.threads[t], size, pick);
    if 0 < size <= MAX_MEDIUM_SIZE {
      var sc := SizeToClass(size);
      hide SizeToClass, ClassToSize, ClassToObjects;
      SmallestFit(size, sc);
      forall c | 0 < c < NUM_CLASSES && size <= ClassToSize(c) ensures ClassToSize(sc) <= ClassToSize(c) {
        SmallestFit(size, c);
        SizesGrow(sc, c);
      }
    }
  }

  lemma SizesGrow(c: nat, d: nat)
    requires 0 < c <= d < NUM_CLASSES
    ensures ClassToSize(c) <= ClassToSize(d)
  {
  }

  // ----- places -----

  ghost predicate IsHot(h: Heap, i: nat) {
    exists slot :: slot in h.hot && h.hot[slot] == i
  }

  ghost predicate IsLinked(h: Heap, i: nat) {
    exists slot :: i in DequeAt(h, slot).spans
  }

  /** The epoch word, the owner word and the pool tell where a span is: in the hot slot of its live owner,
      in the deque of its live owner, in the pool, or nowhere. */
  lemma Places(h: Heap, i: nat)
    requires Reachable(h) && i < |h.spans|
    ensures var s := h.spans[i];
      && (IsHot(h, i) <==> s.epoch.Exclusive() && i !in h.pool)
      && (IsHot(h, i) ==> !Dead(h, s.owner) && Home(s) in h.hot && h.hot[Home(s)] == i)
      && (IsLinked(h, i) <==> s.epoch.IsReusable() && !Dead(h, s.owner))
      && (IsLinked(h, i) ==> i in DequeAt(h, Home(s)).spans && s.NrFreeObjects() > Threshold(s.sc))
      && (i in h.pool ==> s.epoch.mark.Full? && forall b: Block :: Obj(i, b) !in h.live)
  {
    ReachableInv(h);
    var s := h.spans[i];
    assert SpanOk(h, i, s);
    if i in h.pool { AllFree(i, s, h.live); }
    hide Reachable, Objects, Threshold, BlocksOk, SpansOk;
    forall slot | slot in h.hot && h.hot[slot] == i ensures HotOk(h, slot, i) {
    }
    LinkedHome(h, i);
  }

  lemma LinkedHome(h: Heap, i: nat)
    requires Inv(h) && i < |h.spans|
    ensures var s := h.spans[i];
      && (IsLinked(h, i) <==> s.epoch.IsReusable() && !Dead(h, s.owner))
      && (IsLinked(h, i) ==> i in DequeAt(h, Home(s)).spans)
  {
    var s := h.spans[i];
    assert SpanOk(h, i, s);
    hide Objects, Threshold, BlocksOk, SpansOk, HotsOk;
    forall slot ensures i in DequeAt(h, slot).spans <==> Linkable(h, slot, i) {
      assert LinkOk(h, slot, DequeAt(h, slot));
    }
    assert DequeAt(h, Home(s)).owner == h.ids[Home(s).core];
  }

  /** A deque or a hot slot of a thread's core is reached by that thread alone. */
  lemma NoSharedCore(h: Heap, t: nat, u: nat)
    requires Reachable(h) && t in h.threads && u in h.threads && t != u
    ensures h.threads[t] != h.threads[u]
    ensures h.threads[t] < |h.ids| && h.threads[t] !in h.freeCores && h.ids[h.threads[t]].Id?
  {
    ReachableInv(h);
    hide MidInv;
  }

  /** A call of free moves at most its own span to the pool, and only when none of its blocks is left in
      the hands of the program. It changes nothing else the program holds. */
  lemma FreeReclaimsWhole(h: Heap, t: nat, o: Obj)
    requires Reachable(h) && Enabled(h, Dealloc(t, o))
    ensures var g := Next(h, Dealloc(t, o));
      && g.live == h.live - {o}
      && (g.pool == h.pool || (g.pool == h.pool + {o.span} && forall b: Block :: Obj(o.span, b) !in g.live))
  {
    ReachableInv(h);
    InvIndexed(h);
    hide Inv, Current, Indexed, Reachable;
    FreeOk(h, h.threads[t], o);
  }
}
