/** The whole allocator as a value, one call at a time (src/core.h:81-215, src/span.h:147-315,
    src/lab.h:116-144). HeapObjects shows that the classes compute these functions. */
module Heaps {
  import opened CoreIds
  import opened Epochs
  import opened FreeLists
  import opened Sequences
  import opened SizeClasses

  datatype Span = Span(epoch: Epoch, owner: CoreId, sc: nat, local: FreeList, remote: seq<Block>) {

    function NrFreeObjects(): int {
      local.len + |remote|
    }

    function MoveRemoteToLocalObjects(): Span {
      this.(local := local.Move(remote), remote := [])
    }

    function Free(b: Block, caller: CoreId): Span {
      if owner == caller then this.(local := local.Push(b)) else this.(remote := [b] + remote)
    }
  }

  /** A size class of a core: the place of a hot span and of a deque. */
  datatype Slot = Slot(core: nat, sc: nat)

  datatype RSpans = RSpans(owner: CoreId, spans: seq<nat>)

  datatype Obj = Obj(span: nat, block: Block)

  datatype Heap = Heap(
    ids: seq<CoreId>,            // of each core
    hot: map<Slot, nat>,
    deques: map<Slot, RSpans>,
    spans: seq<Span>,
    pool: set<nat>,
    freeCores: seq<nat>,         // free_abs_, the top first
    threadIds: nat,
    threads: map<nat, nat>,      // thread-local storage: thread to core
    live: set<Obj>)              // the blocks in the hands of the program

  const Empty: Heap := Heap([], map[], map[], [], {}, [], 0, map[], {})

  function DequeAt(h: Heap, slot: Slot): RSpans {
    if slot in h.deques then h.deques[slot] else RSpans(Terminated, [])
  }

  function WithSpan(h: Heap, i: nat, s: Span): Heap
    requires i < |h.spans|
  {
    h.(spans := h.spans[i := s])
  }

  function WithEpoch(h: Heap, i: nat, e: Epoch): Heap
    requires i < |h.spans|
  {
    WithSpan(h, i, h.spans[i].(epoch := e))
  }

  // ----- Span::New and Span::Delete -----

  function Objects(sc: nat): nat {
    if sc < NUM_CLASSES then ClassToObjects(sc) else 0
  }

  function Threshold(sc: nat): nat {
    if sc < NUM_CLASSES then ClassToReuseThreshold(sc) else 0
  }

  /** The constructor on memory whose epoch word is e. */
  function Built(e: Epoch, sc: nat, owner: CoreId): Span {
    Span(NewMarkHot(e, e).word, owner, sc, FreeLists.New(Objects(sc)), [])
  }

  /** Memory of the arena is all zero. */
  function Zero(): Span {
    Span(Epoch(0, Floating), Terminated, 0, FreeList([], 0, 0), [])
  }

  /** pick is the span the pool hands out; without one the arena gives new memory. */
  function TakeMemory(h: Heap, pick: nat): (Heap, nat) {
    if pick in h.pool && pick < |h.spans| then (h.(pool := h.pool - {pick}), pick)
    else (h.(spans := h.spans + [Zero()]), |h.spans|)
  }

  function NewSpan(h: Heap, sc: nat, owner: CoreId, pick: nat): (Heap, nat) {
    var (g, i) := TakeMemory(h, pick);
    (WithSpan(g, i, Built(g.spans[i].epoch, sc, owner)), i)
  }

  function DeleteSpan(h: Heap, i: nat): Heap {
    h.(pool := h.pool + {i})
  }

  // ----- deques -----

  function PushFront(h: Heap, slot: Slot, owner: CoreId, i: nat): Heap {
    var d := DequeAt(h, slot);
    if d.owner != owner then h else h.(deques := h.deques[slot := RSpans(owner, [i] + d.spans)])
  }

  function Remove(h: Heap, slot: Slot, owner: CoreId, i: nat): Heap {
    var d := DequeAt(h, slot);
    if d.owner != owner then h else h.(deques := h.deques[slot := RSpans(owner, Without(d.spans, i))])
  }

  function RemoveBack(h: Heap, slot: Slot): (Heap, Option<nat>) {
    var d := DequeAt(h, slot);
    if d.spans == [] then (h, None)
    else
      var last := |d.spans| - 1;
      (h.(deques := h.deques[slot := RSpans(d.owner, d.spans[..last])]), Some(d.spans[last]))
  }

  // ----- Core::GetSpan and Core::Allocate -----

  /** The loop of GetSpan: takes spans from the back until one can be marked hot. */
  function TakeReusable(h: Heap, slot: Slot): (Heap, Option<nat>)
    decreases |DequeAt(h, slot).spans|
  {
    var (g, node) := RemoveBack(h, slot);
    match node
    case None => (h, None)
    case Some(i) =>
      if i < |g.spans| && NewMarkHot(g.spans[i].epoch, g.spans[i].epoch).ok then
        (Acquire(g, i), Some(i))
      else
        TakeReusable(g, slot)
  }

  /** A span marked hot, with what was freed remotely made local. */
  function Acquire(h: Heap, i: nat): Heap
    requires i < |h.spans|
  {
    MoveIn(WithEpoch(h, i, NewMarkHot(h.spans[i].epoch, h.spans[i].epoch).word), i)
  }

  function MoveIn(h: Heap, i: nat): Heap
    requires i < |h.spans|
  {
    WithSpan(h, i, h.spans[i].MoveRemoteToLocalObjects())
  }

  function GetSpan(h: Heap, c: nat, sc: nat, pick: nat): (Heap, nat)
    requires c < |h.ids|
  {
    var (g, r) := TakeReusable(h, Slot(c, sc));
    match r
    case Some(i) => (g, i)
    case None => NewSpan(g, sc, h.ids[c], pick)
  }

  function Install(h: Heap, c: nat, sc: nat, pick: nat): Heap
    requires c < |h.ids|
  {
    var (g, i) := GetSpan(h, c, sc, pick);
    g.(hot := g.hot[Slot(c, sc) := i])
  }

  datatype Answer = Null | Large | Block(obj: Obj)

  /** Span::Allocate. */
  function TakeBlock(h: Heap, i: nat): (Heap, Answer)
    requires i < |h.spans|
  {
    var (f, r) := h.spans[i].local.Pop();
    match r
    case None => (h, Null)
    case Some(b) => (WithSpan(h, i, h.spans[i].(local := f)).(live := h.live + {Obj(i, b)}), Block(Obj(i, b)))
  }

  /** Span::NewMarkFloating. */
  function Float(h: Heap, i: nat): Heap
    requires i < |h.spans|
  {
    WithEpoch(h, i, h.spans[i].epoch.OnlyValue())
  }

  /** The slots name spans that exist; needed only to index. */
  predicate SlotsExist(h: Heap) {
    forall slot :: slot in h.hot ==> h.hot[slot] < |h.spans|
  }

  function AllocateHot(h: Heap, c: nat, sc: nat, pick: nat): (Heap, Answer)
    requires c < |h.ids| && SlotsExist(h) && Slot(c, sc) in h.hot
  {
    var i := h.hot[Slot(c, sc)];
    var (g, a) := TakeBlock(h, i);
    if !a.Null? then (g, a)
    else if h.spans[i].NrFreeObjects() > Threshold(sc) then TakeBlock(MoveIn(h, i), i)
    else
      var k := Install(Float(h, i), c, sc, pick);
      InstallExists(Float(h, i), c, sc, pick);
      TakeBlock(k, k.hot[Slot(c, sc)])
  }

  function Allocate(h: Heap, c: nat, size: nat, pick: nat): (Heap, Answer)
    requires c < |h.ids| && SlotsExist(h)
  {
    var sc := SizeToClass(size);
    if sc < 0 then (h, Null)
    else if Slot(c, sc) in h.hot then AllocateHot(h, c, sc, pick)
    else if sc == 0 then (h, if size == 0 then Null else Large)
    else
      InstallExists(h, c, sc, pick);
      AllocateHot(Install(h, c, sc, pick), c, sc, pick)
  }

  lemma {:induction false} TakeExists(h: Heap, slot: Slot)
    ensures var (g, r) := TakeReusable(h, slot);
      && |g.spans| == |h.spans| && g.hot == h.hot && g.ids == h.ids
      && (r.Some? ==> r.value < |h.spans|)
    decreases |DequeAt(h, slot).spans|
  {
    var d := DequeAt(h, slot);
    if d.spans != [] {
      var last := |d.spans| - 1;
      TakeExists(h.(deques := h.deques[slot := RSpans(d.owner, d.spans[..last])]), slot);
    }
  }

  lemma InstallExists(h: Heap, c: nat, sc: nat, pick: nat)
    requires c < |h.ids| && SlotsExist(h)
    ensures var k := Install(h, c, sc, pick);
      SlotsExist(k) && Slot(c, sc) in k.hot && k.ids == h.ids
  {
    TakeExists(h, Slot(c, sc));
    hide TakeReusable;
    var (g, r) := TakeReusable(h, Slot(c, sc));
    if r.None? {
      var (k, i) := NewSpan(g, sc, h.ids[c], pick);
      assert |k.spans| >= |h.spans| && i < |k.spans| && k.hot == h.hot;
    }
  }

  // ----- Core::Free -----

  predicate Dead(h: Heap, owner: CoreId) {
    owner.Terminated? || owner.core >= |h.ids| || h.ids[owner.core] != owner
  }

  /** Span::Free: the block goes to the local or to the remote list. */
  function Release(h: Heap, c: nat, o: Obj): Heap
    requires c < |h.ids| && o.span < |h.spans|
  {
    WithSpan(h, o.span, h.spans[o.span].Free(o.block, h.ids[c])).(live := h.live - {o})
  }

  /** src/core.h:184-187, where nobody else can take the owner word. */
  function Revive(h: Heap, c: nat, i: nat, seen: Epoch): Heap
    requires c < |h.ids| && i < |h.spans|
  {
    var s := h.spans[i];
    WithSpan(h, i, s.(owner := h.ids[c], epoch := TryMarkFloating(s.epoch, seen).word))
  }

  function Reclaim(h: Heap, i: nat, seen: Epoch, owner: CoreId): Heap
    requires i < |h.spans| && owner.Id?
  {
    var r := NewMarkFull(h.spans[i].epoch, seen);
    if !r.ok then h
    else
      var g := WithEpoch(h, i, r.word);
      DeleteSpan(if seen.IsReusable() then Remove(g, Slot(owner.core, g.spans[i].sc), owner, i) else g, i)
  }

  function Reuse(h: Heap, i: nat, seen: Epoch, owner: CoreId): Heap
    requires i < |h.spans| && owner.Id?
  {
    var r := NewMarkReuse(h.spans[i].epoch, seen);
    if !r.ok then h
    else
      var g := WithEpoch(h, i, r.word);
      PushFront(g, Slot(owner.core, g.spans[i].sc), owner, i)
  }

  /** src/core.h:192-214. */
  function Settle(h: Heap, i: nat, seen: Epoch, owner: CoreId, free: int): Heap
    requires i < |h.spans| && owner.Id?
  {
    var sc := h.spans[i].sc;
    if free == Objects(sc) && !seen.Exclusive() then Reclaim(h, i, seen, owner)
    else if free > Threshold(sc) && !seen.IsReusable() then Reuse(h, i, seen, owner)
    else h
  }

  function Free(h: Heap, c: nat, o: Obj): Heap
    requires c < |h.ids| && o.span < |h.spans| && h.ids[c].Id?
  {
    var s := h.spans[o.span];
    var g := Release(h, c, o);
    var free := g.spans[o.span].NrFreeObjects();
    if Dead(h, s.owner) then Settle(Revive(g, c, o.span, s.epoch), o.span, s.epoch, h.ids[c], free)
    else Settle(g, o.span, s.epoch, s.owner, free)
  }

  // ----- threads -----

  function Open(h: Heap, slot: Slot, id: CoreId): Heap {
    h.(deques := h.deques[slot := RSpans(id, DequeAt(h, slot).spans)])
  }

  /** The first n classes of core c opened. */
  function OpenAll(h: Heap, c: nat, id: CoreId, n: nat): Heap {
    if n == 0 then h else Open(OpenAll(h, c, id, n - 1), Slot(c, n - 1), id)
  }

  function Init(h: Heap, c: nat, id: CoreId): Heap
    requires c < |h.ids|
  {
    OpenAll(h.(ids := h.ids[c := id]), c, id, NUM_CLASSES)
  }

  /** FindFreeAB, with the core it found. */
  function FindFreeCore(h: Heap): (Heap, nat) {
    if h.freeCores != [] then (h.(freeCores := h.freeCores[1..]), h.freeCores[0])
    else (h.(ids := h.ids + [Terminated]), |h.ids|)
  }

  predicate CoresExist(h: Heap) {
    forall k :: 0 <= k < |h.freeCores| ==> h.freeCores[k] < |h.ids|
  }

  function NextId(h: Heap): Heap {
    h.(threadIds := h.threadIds + 1)
  }

  /** SetTLS. */
  function Bind(h: Heap, t: nat, c: nat): Heap {
    h.(threads := h.threads[t := c])
  }

  function StartThread(h: Heap, t: nat): Heap
    requires CoresExist(h)
  {
    var (g, c) := FindFreeCore(h);
    var k := NextId(g);
    Bind(Init(k, c, Id(c, k.threadIds)), t, c)
  }

  /** One round of the loop in Destroy. */
  function DestroyClass(h: Heap, slot: Slot): Heap
    requires SlotsExist(h)
  {
    var g := if slot in h.hot then Float(h, h.hot[slot]).(hot := h.hot - {slot}) else h;
    g.(deques := h.deques[slot := RSpans(Terminated, [])])
  }

  function DestroyClasses(h: Heap, c: nat, n: nat): (g: Heap)
    requires SlotsExist(h)
    ensures SlotsExist(g) && g.ids == h.ids
  {
    if n == 0 then h else DestroyClass(DestroyClasses(h, c, n - 1), Slot(c, n - 1))
  }

  function Destroy(h: Heap, c: nat): Heap
    requires SlotsExist(h) && c < |h.ids|
  {
    var g := DestroyClasses(h, c, NUM_CLASSES);
    g.(ids := g.ids[c := Terminated])
  }

  function ExitThread(h: Heap, t: nat): Heap
    requires SlotsExist(h) && t in h.threads && h.threads[t] < |h.ids|
  {
    var c := h.threads[t];
    var g := Destroy(h, c);
    g.(freeCores := [c] + g.freeCores, threads := g.threads - {t})
  }
}
