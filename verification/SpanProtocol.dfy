/** One span, any number of threads, one atomic operation per step (src/core.h:81-215,
    src/span.h:147-315, src/deque.h:68-153). A thread is a core incarnation: its id is never used again
    after it dies, and owner_ and id_ are compared by that id. */
module SpanProtocol {
  import opened Epochs

  type Tid = nat
  type Block = nat

  /** A size class: block size, ClassToObjects and ClassToReuseThreshold. */
  datatype Class = Class(size: nat, objects: nat, threshold: nat)

  /** A core has a hot span and a deque of reusable spans for each class. */
  datatype Slot = Slot(t: Tid, c: Class)

  /** Where a block of the span is. */
  datatype Place = Out | Flight(t: Tid) | Local | Remote | Moving(t: Tid)

  /** The operation a thread performs next on this span. */
  datatype Line =
    | Idle
      // Core::Free
    | LoadEpoch | LoadOwner | LoadClass | Choose | PushLocal | PushRemote | AddRemote | AddLocal
    | CheckOwner | Revive | FloatRevived | MarkFreed | PushLink | PushInsert | RemoveLink | Delete
      // Span::New, once the pool or the arena handed the span out
    | ResetLink | SetOwner | ResetLists | MarkNew
      // Core::GetSpan
    | TookLink | Acquire
      // Core::Allocate on the hot span
    | Collect | Move | MoveEach | Popping | CheckFree | LoadFloat | StoreFloating

  /** A thread's local variables: block p, old_epoch e, old_owner o, the class c it loaded or works for,
      n for free_objects or the length PopAll returned. */
  datatype Thread = Thread(line: Line, p: Block, e: Epoch, o: Tid, c: Class, n: int)

  /** Who may use the span exclusively. An auxiliary variable: no step reads it. */
  datatype Token = Shared | HotBy(t: Tid, c: Class) | DeletedBy(t: Tid) | InPool | BuiltBy(t: Tid)

  /** The first word of a span serves two kinds of list (src/span.h:109-111): the deque of a core, and the
      stack of the pool, where it is null at the bottom. */
  datatype Link = Null | PoolNext | Ring(at: Slot)

  /** The deques, as far as they concern this span, and the pool. */
  datatype Lists = Lists(
    link: Link,                 // span_link_.next_
    linked: multiset<Slot>,     // the deques the span is in
    pooled: nat,                // how many times the span is in the pool
    locked: map<Slot, Tid>,     // deques whose lock a PushFront of this span holds
    closed: set<Slot>,          // deques that Destroy has closed
    leaving: set<Tid>,          // threads in Destroy
    classes: set<Class>)        // the table of size classes

  datatype State = State(
    epoch: Epoch,
    owner: Tid,
    class_: Class,
    place: map<Block, Place>,
    len: int,                   // local_free_list_.len_
    tag: int,                   // tag of remote_free_list_
    hot: set<Slot>,             // hot_span_ slots that hold the span
    lists: Lists,
    dead: set<Tid>,
    threads: map<Tid, Thread>,
    token: Token)

  const Unstarted: Thread := Thread(Idle, 0, Epoch(0, Floating), 0, Class(0, 0, 0), 0)

  function Of(s: State, t: Tid): Thread {
    if t in s.threads then s.threads[t] else Unstarted
  }

  function At(place: map<Block, Place>, l: Place): set<Block> {
    set b | b in place && place[b] == l
  }

  function Blocks(n: nat): (r: set<Block>)
    ensures |r| == n
    ensures forall b: Block :: b in r <==> b < n
  {
    if n == 0 then {} else Blocks(n - 1) + {n - 1}
  }

  function Relocate(place: map<Block, Place>, from: Place, to: Place): map<Block, Place> {
    map b | b in place :: if place[b] == from then to else place[b]
  }

  /** The deque a thread in Core::Free names: that of old_owner for the class it loaded. */
  function Named(h: Thread): Slot {
    Slot(h.o, h.c)
  }

  /** The deque is no longer, or not yet again, open under that incarnation of its core. */
  predicate Refused(s: State, at: Slot) {
    at in s.lists.closed || at.t in s.dead
  }

  datatype Step =
    | Advance(t: Tid)                 // the operation at t's line
    | StartFree(t: Tid, p: Block)
    | PoolPush(t: Tid, bottom: bool)  // Span::Delete, onto an empty stack of the pool or not
    | TakeNew(t: Tid, c: Class)       // GetSpan gets the span from the pool
    | TakeLink(t: Tid, c: Class)      // GetSpan gets it from the deque
    | StartMalloc(t: Tid, c: Class)
    | Allocate(t: Tid, p: Block)
    | MoveOne(t: Tid, p: Block)
    | Close(t: Tid, c: Class)         // in Core::Destroy: one deque is closed,
    | Park(t: Tid, c: Class)          // the hot span of its class is given up,
    | Drain(t: Tid, c: Class)         // the deque is drained,
    | Terminate(t: Tid)               // and after all classes the id is gone

  ghost predicate Enabled(s: State, a: Step) {
    var h := Of(s, a.t);
    && a.t !in s.dead
    && match a
       case Advance(t) => CanAdvance(s, t, h)
       case StartFree(t, p) => AtRest(s, t, h) && p in s.place && s.place[p] == Out
       case PoolPush(t, _) => h.line.Delete?
       case TakeNew(t, c) => AtRest(s, t, h) && s.lists.pooled > 0 && c in s.lists.classes && Slot(t, c) !in s.hot
       case TakeLink(t, c) => AtRest(s, t, h) && Slot(t, c) !in s.hot && CanTake(s, Slot(t, c))
       case StartMalloc(t, c) => AtRest(s, t, h) && Slot(t, c) in s.hot
       case Allocate(t, p) => h.line.Popping? && p in s.place && s.place[p] == Local
       case MoveOne(t, p) => h.line.MoveEach? && p in s.place && s.place[p] == Moving(t)
       case Close(t, c) => h.line.Idle? && c in s.lists.classes && Slot(t, c) !in s.lists.closed
       case Park(t, c) => h.line.Idle? && Slot(t, c) in s.lists.closed && Slot(t, c) in s.hot
       case Drain(t, c) =>
         h.line.Idle? && Slot(t, c) in s.lists.closed && Slot(t, c) !in s.hot && CanTake(s, Slot(t, c))
       case Terminate(t) => h.line.Idle? && t in s.lists.leaving && Destroyed(s, t)
  }

  /** Between two calls of the program. */
  ghost predicate AtRest(s: State, t: Tid, h: Thread) {
    h.line.Idle? && t !in s.lists.leaving
  }

  /** RemoveFront or RemoveBack can have the lock and finds the span. */
  ghost predicate CanTake(s: State, at: Slot) {
    at in s.lists.linked && at !in s.lists.locked
  }

  ghost predicate CanAdvance(s: State, t: Tid, h: Thread) {
    && !h.line.Idle? && !h.line.Delete?
    && (h.line.MoveEach? ==> At(s.place, Moving(t)) == {})
    && (h.line.Popping? ==> At(s.place, Local) == {})
    && (h.line.PushLink? || (h.line.RemoveLink? && h.e.IsReusable()) ==> Named(h) !in s.lists.locked)
  }

  /** Every class has been closed, parked and drained. */
  ghost predicate Destroyed(s: State, t: Tid) {
    && (forall c :: c in s.lists.classes ==> Slot(t, c) in s.lists.closed)
    && (forall at :: at in s.hot || at in s.lists.linked || at in s.lists.locked ==> at.t != t)
  }

  function Go(s: State, t: Tid, h: Thread): State {
    s.(threads := s.threads[t := h])
  }

  function Free1(s: State, t: Tid, h: Thread): State {
    match h.line
    case LoadEpoch => Go(s, t, h.(line := LoadOwner, e := s.epoch))
    case LoadOwner => Go(s, t, h.(line := LoadClass, o := s.owner))
    case LoadClass => Go(s, t, h.(line := Choose, c := s.class_))
    case _ => Go(s, t, h.(line := if s.owner == t then PushLocal else PushRemote))
  }

  function Free2(s: State, t: Tid, h: Thread): State {
    match h.line
    case PushLocal =>
      Go(s.(place := s.place[h.p := Local], len := s.len + 1), t, h.(line := AddRemote, n := s.len + 1))
    case PushRemote =>
      Go(s.(place := s.place[h.p := Remote], tag := s.tag + 1), t, h.(line := AddLocal, n := s.tag + 1))
    case AddRemote => Go(s, t, h.(line := CheckOwner, n := h.n + s.tag))
    case _ => Go(s, t, h.(line := CheckOwner, n := h.n + s.len))
  }

  function Free3(s: State, t: Tid, h: Thread): State {
    match h.line
    case CheckOwner => Go(s, t, h.(line := if h.o in s.dead then Revive else MarkFreed))
    case Revive =>
      if s.owner == h.o then Go(s.(owner := t), t, h.(line := FloatRevived)) else Go(s, t, h.(line := MarkFreed))
    case _ =>
      Go(s.(epoch := TryMarkFloating(s.epoch, h.e).word), t, h.(line := MarkFreed, o := t))
  }

  function MarkFullStep(s: State, t: Tid, h: Thread): State {
    var r := NewMarkFull(s.epoch, h.e);
    if r.ok then Go(s.(epoch := r.word, token := DeletedBy(t)), t, h.(line := RemoveLink))
    else Go(s, t, h.(line := Idle))
  }

  function MarkReuseStep(s: State, t: Tid, h: Thread): State {
    var r := NewMarkReuse(s.epoch, h.e);
    if r.ok then Go(s.(epoch := r.word), t, h.(line := PushLink)) else Go(s, t, h.(line := Idle))
  }

  /** src/core.h:192-214. */
  function Free4(s: State, t: Tid, h: Thread): State {
    if h.n == h.c.objects && !h.e.Exclusive() then
      MarkFullStep(s, t, h)
    else if h.n > h.c.threshold && !h.e.IsReusable() then
      MarkReuseStep(s, t, h)
    else
      Go(s, t, h.(line := Idle))
  }

  /** Deque::PushFront once its test has passed: links the node, and lets the lock go. */
  function Insert(l: Lists, at: Slot): Lists {
    l.(linked := l.linked + multiset{at}, link := Ring(at), locked := l.locked - {at})
  }

  /** Deque::Remove once its tests have passed: the node leaves the list its words name. */
  function Unlink(l: Lists): Lists {
    if l.link.Ring? then l.(linked := l.linked - multiset{l.link.at}, link := Null) else l
  }

  /** PushFront takes the lock and tests the owner, which Close may change without the lock; then it links.
      Remove does nothing to an unlinked node and in a deque that is closed. */
  function Free5(s: State, t: Tid, h: Thread): State {
    match h.line
    case PushLink =>
      if Refused(s, Named(h)) then Go(s, t, h.(line := Idle))
      else Go(s.(lists := s.lists.(locked := s.lists.locked[Named(h) := t])), t, h.(line := PushInsert))
    case PushInsert => Go(s.(lists := Insert(s.lists, Named(h))), t, h.(line := Idle))
    case _ =>
      var removes := h.e.IsReusable() && !Refused(s, Named(h));
      Go(if removes then s.(lists := Unlink(s.lists)) else s, t, h.(line := Delete))
  }

  function Build(s: State, t: Tid, h: Thread): State {
    match h.line
    case ResetLink => Go(s.(lists := s.lists.(link := Null)), t, h.(line := SetOwner))
    case SetOwner => Go(s.(owner := t), t, h.(line := ResetLists))
    case ResetLists =>
      Go(s.(class_ := h.c, place := map b | b in Blocks(h.c.objects) :: Local, len := h.c.objects, tag := 0),
         t, h.(line := MarkNew))
    case _ => Go(s.(epoch := NewMarkHot(s.epoch, s.epoch).word, hot := s.hot + {Slot(t, h.c)}, token := HotBy(t, h.c)),
                 t, h.(line := Popping))
  }

  function GetSpan(s: State, t: Tid, h: Thread): State {
    match h.line
    case TookLink => Go(s, t, h.(line := Acquire, e := s.epoch))
    case _ =>
      var r := NewMarkHot(s.epoch, h.e);
      if r.ok then
        Go(s.(epoch := r.word, hot := s.hot + {Slot(t, h.c)}, token := HotBy(t, h.c)), t, h.(line := Collect))
      else
        Go(s, t, h.(line := Idle))
  }

  /** MoveRemoteToLocalObjects. */
  function MoveIn(s: State, t: Tid, h: Thread): State {
    match h.line
    case Collect =>
      if s.tag == 0 then
        Go(s, t, h.(line := Popping))
      else
        Go(s.(place := Relocate(s.place, Remote, Moving(t)), tag := 0), t, h.(line := Move, n := s.tag))
    case Move =>
      if s.len == 0 then
        Go(s.(place := Relocate(s.place, Moving(t), Local), len := h.n), t, h.(line := Popping))
      else
        Go(s, t, h.(line := MoveEach))
    case _ => Go(s, t, h.(line := Popping))
  }

  /** The local list is empty: the remote one is moved if there is enough in it, otherwise the span floats
      (src/core.h:149-158). */
  function GiveUp(s: State, t: Tid, h: Thread): State {
    match h.line
    case Popping => Go(s, t, h.(line := CheckFree))
    case CheckFree => Go(s, t, h.(line := if s.len + s.tag > h.c.threshold then Collect else LoadFloat))
    case LoadFloat => Go(s, t, h.(line := StoreFloating, e := s.epoch))
    case _ => Go(s.(epoch := h.e.OnlyValue(), hot := s.hot - {Slot(t, h.c)}, token := Shared), t, h.(line := Idle))
  }

  function AdvanceLine(s: State, t: Tid, h: Thread): State {
    match h.line
    case LoadEpoch | LoadOwner | LoadClass | Choose => Free1(s, t, h)
    case PushLocal | PushRemote | AddRemote | AddLocal => Free2(s, t, h)
    case CheckOwner | Revive | FloatRevived => Free3(s, t, h)
    case MarkFreed => Free4(s, t, h)
    case PushLink | PushInsert | RemoveLink => Free5(s, t, h)
    case ResetLink | SetOwner | ResetLists | MarkNew => Build(s, t, h)
    case TookLink | Acquire => GetSpan(s, t, h)
    case Collect | Move | MoveEach => MoveIn(s, t, h)
    case Popping | CheckFree | LoadFloat | StoreFloating => GiveUp(s, t, h)
    case Idle | Delete => s
  }

  function StartFreeStep(s: State, t: Tid, h: Thread, p: Block): State {
    Go(s.(place := s.place[p := Flight(t)]), t, h.(line := LoadEpoch, p := p))
  }

  /** The stack of the pool writes its old top into the first word of the span (src/stack.h:67-75). */
  function PoolPushStep(s: State, t: Tid, h: Thread, bottom: bool): State {
    var link := if bottom then Null else PoolNext;
    Go(s.(lists := s.lists.(pooled := s.lists.pooled + 1, link := link), token := InPool), t, h.(line := Idle))
  }

  function TakeNewStep(s: State, t: Tid, h: Thread, c: Class): State {
    var rest := if s.lists.pooled > 0 then s.lists.pooled - 1 else 0;
    Go(s.(lists := s.lists.(pooled := rest), token := BuiltBy(t)), t, h.(line := ResetLink, c := c))
  }

  /** RemoveFront and RemoveBack. */
  function Take(l: Lists, at: Slot): Lists {
    l.(linked := l.linked - multiset{at}, link := Null)
  }

  function TakeLinkStep(s: State, t: Tid, h: Thread, c: Class): State {
    Go(s.(lists := Take(s.lists, Slot(t, c))), t, h.(line := TookLink, c := c))
  }

  function AllocateStep(s: State, t: Tid, h: Thread, p: Block): State {
    Go(s.(place := s.place[p := Out], len := s.len - 1), t, h.(line := Idle))
  }

  function MoveOneStep(s: State, t: Tid, h: Thread, p: Block): State {
    Go(s.(place := s.place[p := Local], len := s.len + 1), t, h.(n := h.n - 1))
  }

  function CloseStep(s: State, t: Tid, h: Thread, c: Class): State {
    Go(s.(lists := s.lists.(closed := s.lists.closed + {Slot(t, c)}, leaving := s.lists.leaving + {t})), t, h)
  }

  function Next(s: State, a: Step): State {
    var h := Of(s, a.t);
    match a
    case Advance(t) => AdvanceLine(s, t, h)
    case StartFree(t, p) => StartFreeStep(s, t, h, p)
    case PoolPush(t, bottom) => PoolPushStep(s, t, h, bottom)
    case TakeNew(t, c) => TakeNewStep(s, t, h, c)
    case TakeLink(t, c) => TakeLinkStep(s, t, h, c)
    case StartMalloc(t, c) => Go(s, t, h.(line := Popping, c := c))
    case Allocate(t, p) => AllocateStep(s, t, h, p)
    case MoveOne(t, p) => MoveOneStep(s, t, h, p)
    case Close(t, c) => CloseStep(s, t, h, c)
    case Park(t, c) => Go(s, t, h.(line := LoadFloat, c := c))
    case Drain(t, c) => Go(s.(lists := Take(s.lists, Slot(t, c))), t, h)
    case Terminate(t) => Go(s.(dead := s.dead + {t}), t, h)
  }

  /** A span fresh from the arena, in the hands of the thread that asked for it. */
  ghost predicate Init(s: State) {
    && s.token.BuiltBy? && s.token.t !in s.dead
    && s.epoch == Epoch(0, Floating)
    && s.class_.objects == 0 && s.place == map[] && s.len == 0 && s.tag == 0
    && s.hot == {} && s.lists == Lists(Null, multiset{}, 0, map[], {}, {}, s.lists.classes)
    && (forall c :: c in s.lists.classes ==> c.threshold < c.objects)
    && Of(s, s.token.t).c in s.lists.classes
    && s.threads == map[s.token.t := Unstarted.(line := ResetLink, c := Of(s, s.token.t).c)]
  }

  /** The assertion of src/core.h:112, at the moment NewMarkHot succeeds. */
  ghost predicate OwnerAsserted(s: State, a: Step) {
    var h := Of(s, a.t);
    a.Advance? && h.line.Acquire? && NewMarkHot(s.epoch, h.e).ok ==> s.owner == a.t
  }

  /** Every step is enabled when it is taken and meets the assertion of src/core.h:112, which stops
      a debug build. */
  ghost predicate Run(s: State, steps: seq<Step>)
    decreases |steps|
  {
    steps == [] || (Enabled(s, steps[0]) && OwnerAsserted(s, steps[0]) && Run(Next(s, steps[0]), steps[1..]))
  }

  function After(s: State, steps: seq<Step>): State
    decreases |steps|
  {
    if steps == [] then s else After(Next(s, steps[0]), steps[1..])
  }
}
