/** What goes wrong when pool and deques are not kept in order, or a core acquires a span of another live
    core: a span is in the pool and in a deque at once, or two cores use it. */
module SpanCounterexample {
  import opened Epochs
  import opened SizeClasses
  import opened SpanProtocol
  import opened SpanSafety
  import opened SpanLinks
  import opened SpanMarks
  import opened SpanRuns
  import opened SpanTheorems

  // ----- all blocks of a span -----

  /** The first k of n blocks are in one place, the others in another. */
  function Split(n: nat, k: nat, low: Place, high: Place): map<Block, Place> {
    map b | b in Blocks(n) :: if b < k then low else high
  }

  lemma SplitNext(n: nat, k: nat, low: Place, high: Place)
    requires k < n
    ensures k in Split(n, k, low, high) && Split(n, k, low, high)[k] == high
    ensures Split(n, k, low, high)[k := low] == Split(n, k + 1, low, high)
  {
    hide Blocks;
  }

  lemma AllOfOne(n: nat)
    ensures Split(n, n, Out, Local) == Split(n, 0, Remote, Out)
    ensures Split(n, 0, Out, Local) == map b | b in Blocks(n) :: Local
    ensures At(Split(n, 0, Remote, Out), Local) == {}
  {
    hide Blocks;
  }

  // ----- a core uses up a span -----

  lemma Claimed(s0: State, s: State, t: Tid, care: Care)
    requires Leads(s0, s, care) && Of(s, t).line.ResetLink? && t !in s.dead
    ensures Leads(s0, Go(s.(lists := s.lists.(link := Null), owner := t), t, Of(s, t).(line := ResetLists)), care)
  {
    hide Leads, Free1, Free2, Free3, Free4, Free5, GetSpan, MoveIn, GiveUp, Blocks;
    var h := Of(s, t);
    Easily(s0, s, Advance(t), care);
    var m := s.(lists := s.lists.(link := Null));
    Easily(s0, Go(m, t, h.(line := SetOwner)), Advance(t), care);
    assert m.threads[t := h.(line := SetOwner)][t := h.(line := ResetLists)] == m.threads[t := h.(line := ResetLists)];
  }

  lemma Filled(s0: State, s: State, t: Tid, h: Thread, care: Care)
    requires Leads(s0, Go(s, t, h), care) && h.line.ResetLists? && t !in s.dead
    ensures Leads(s0, Go(s.(epoch := NewMarkHot(s.epoch, s.epoch).word, class_ := h.c, len := h.c.objects, tag := 0,
                            place := Split(h.c.objects, 0, Out, Local), hot := s.hot + {Slot(t, h.c)},
                            token := HotBy(t, h.c)), t, h.(line := Popping)), care)
  {
    hide Leads, Free1, Free2, Free3, Free4, Free5, GetSpan, MoveIn, GiveUp, Blocks, Split;
    var n := h.c.objects;
    AllOfOne(n);
    Easily(s0, Go(s, t, h), Advance(t), care);
    assert Next(Go(s, t, h), Advance(t)).place == Split(n, 0, Out, Local);
    var m, k := s.(class_ := h.c, place := Split(n, 0, Out, Local), len := n, tag := 0), h.(line := MarkNew);
    assert s.threads[t := h][t := k] == s.threads[t := k];
    Easily(s0, Go(m, t, k), Advance(t), care);
    assert m.threads[t := k][t := h.(line := Popping)] == m.threads[t := h.(line := Popping)];
  }

  /** The constructor of Span, up to the first Pop. */
  lemma Constructed(s0: State, s: State, t: Tid, care: Care) returns (end: State)
    requires Leads(s0, s, care) && Of(s, t).line.ResetLink? && t !in s.dead
    ensures Leads(s0, end, care)
    ensures var c := Of(s, t).c;
      && end == s.(epoch := NewMarkHot(s.epoch, s.epoch).word, owner := t, class_ := c,
                   place := Split(c.objects, 0, Out, Local), len := c.objects, tag := 0, hot := s.hot + {Slot(t, c)},
                   lists := s.lists.(link := Null), threads := end.threads, token := HotBy(t, c))
      && end.threads == s.threads[t := Of(s, t).(line := Popping)]
  {
    hide Leads, Split, NewMarkHot;
    var h, n := Of(s, t), Of(s, t).c.objects;
    Claimed(s0, s, t, care);
    var m := s.(lists := s.lists.(link := Null), owner := t);
    Filled(s0, m, t, h.(line := ResetLists), care);
    end := Go(m.(epoch := NewMarkHot(s.epoch, s.epoch).word, class_ := h.c, len := n, tag := 0,
                 place := Split(n, 0, Out, Local), hot := s.hot + {Slot(t, h.c)}, token := HotBy(t, h.c)),
              t, h.(line := Popping));
  }

  /** Thread t allocates the first k blocks, the first of them on the line of the Pop. */
  lemma {:induction false} AllocatesAll(s0: State, s: State, t: Tid, k: nat, care: Care)
    requires Leads(s0, s, care) && Of(s, t).line.Popping? && t !in s.dead && t !in s.lists.leaving
    requires var c := Of(s, t).c; Slot(t, c) in s.hot && 0 < k <= c.objects && s.place == Split(c.objects, 0, Out, Local)
    ensures var c := Of(s, t).c;
      Leads(s0, Go(s.(place := Split(c.objects, k, Out, Local), len := s.len - k), t, Of(s, t).(line := Idle)), care)
  {
    hide Leads, Split, AdvanceLine;
    var h, c := Of(s, t), Of(s, t).c;
    SplitNext(c.objects, k - 1, Out, Local);
    if k == 1 {
      Easily(s0, s, Allocate(t, 0), care);
    } else {
      AllocatesAll(s0, s, t, k - 1, care);
      var q := Go(s.(place := Split(c.objects, k - 1, Out, Local), len := s.len - (k - 1)), t, h.(line := Idle));
      Mallocs(s0, q, t, c, k - 1, care);
      assert q.threads[t := h.(line := Idle)] == q.threads;
    }
  }

  /** A span that is given up, all its blocks in use. */
  ghost predicate UsedUp(s: State, end: State, t: Tid) {
    var c := Of(s, t).c;
    && end == s.(epoch := end.epoch, owner := t, class_ := c, place := Split(c.objects, 0, Remote, Out), len := 0,
                 tag := 0, hot := s.hot - {Slot(t, c)}, lists := s.lists.(link := Null), threads := end.threads,
                 token := Shared)
    && end.epoch == NewMarkHot(s.epoch, s.epoch).word.OnlyValue()
    && end.threads == s.threads[t := Of(end, t)] && Of(end, t).line.Idle?
  }

  /** A core builds a span, allocates all its blocks, finds it empty and gives it up. */
  lemma UsesUp(s0: State, s: State, t: Tid, care: Care) returns (end: State)
    requires Leads(s0, s, care) && Of(s, t).line.ResetLink? && t !in s.dead && t !in s.lists.leaving
    requires Of(s, t).c.objects > 0
    ensures Leads(s0, end, care) && UsedUp(s, end, t)
  {
    hide Leads, Split, At, AdvanceLine, Next;
    var c := Of(s, t).c;
    var m := Constructed(s0, s, t, care);
    AllocatesAll(s0, m, t, c.objects, care);
    AllOfOne(c.objects);
    var q := Go(m.(place := Split(c.objects, 0, Remote, Out), len := 0), t, Of(s, t).(line := Idle));
    Floats(s0, q, t, c, care);
    end := Go(q.(epoch := q.epoch.OnlyValue(), hot := q.hot - {Slot(t, c)}, token := Shared), t,
              Of(q, t).(c := c, e := q.epoch));
  }

  // ----- the common beginning -----

  /** Thread 1 builds the span and uses it up. */
  lemma AllOut(c: Class, classes: set<Class>, care: Care) returns (s0: State, s: State)
    requires c in classes && forall d :: d in classes ==> d.threshold < d.objects
    ensures Init(s0) && Leads(s0, s, care)
    ensures s.owner == 1 && s.class_ == c && s.len == 0 && s.tag == 0 && s.epoch == Epoch(1, Floating)
    ensures s.place == Split(c.objects, 0, Remote, Out) && s.hot == {} && s.dead == {}
    ensures s.lists == Lists(Null, multiset{}, 0, map[], {}, {}, classes) && s.token.Shared?
    ensures forall u: Tid :: Of(s, u).line.Idle?
  {
    hide Leads, Blocks, Split;
    s0 := State(Epoch(0, Floating), 0, Class(0, 0, 0), map[], 0, 0, {}, Lists(Null, multiset{}, 0, map[], {}, {}, classes),
                {}, map[1 := Unstarted.(line := ResetLink, c := c)], BuiltBy(1));
    Stays(s0, care);
    s := UsesUp(s0, s0, 1, care);
  }

  /** Thread t frees the first k blocks, too few for any mark. */
  lemma {:induction false} FreesFirst(s0: State, s: State, t: Tid, n: nat, k: nat, care: Care) returns (r: State)
    requires Leads(s0, s, care) && AtRest(s, t, Of(s, t)) && t !in s.dead && s.owner != t && s.owner !in s.dead
    requires s.class_.objects == n && s.len == 0 && s.tag == 0
    requires k <= s.class_.threshold < n && s.place == Split(n, 0, Remote, Out)
    ensures Leads(s0, r, care) && r == s.(place := Split(n, k, Remote, Out), tag := k, threads := r.threads)
    ensures Of(r, t).line.Idle?
    ensures forall u: Tid :: u != t ==> Of(r, u) == Of(s, u)
  {
    hide Leads, Split, Free1, Free2, Free3, Free5, Build, GetSpan, MoveIn, GiveUp;
    if k == 0 {
      r := s;
    } else {
      var q := FreesFirst(s0, s, t, n, k - 1, care);
      SplitNext(n, k - 1, Remote, Out);
      RemoteFree(s0, q, t, k - 1, care);
      var h := Thread(MarkFreed, k - 1, s.epoch, s.owner, s.class_, k);
      var g := q.(place := Split(n, k, Remote, Out), tag := k);
      Go1(s0, g, t, h, h.(line := Idle), care);
      r := Go(g, t, h.(line := Idle));
    }
  }

  /** A class of which the last block but one is the first to pass the reuse threshold. */
  predicate Narrow(c: Class) {
    c.objects == c.threshold + 2
  }

  /** Thread 2 frees all blocks but one and wins the reuse mark with the last of them. */
  lemma Marked(c: Class, classes: set<Class>, care: Care) returns (s0: State, s: State)
    requires Narrow(c) && c in classes && forall d :: d in classes ==> d.threshold < d.objects
    ensures Init(s0) && Leads(s0, s, care) && s.epoch == Epoch(2, Reusable) && s.owner == 1 && s.class_ == c
    ensures s.place == Split(c.objects, c.threshold + 1, Remote, Out) && s.tag == c.threshold + 1 && s.len == 0
    ensures s.hot == {} && s.dead == {} && s.lists == Lists(Null, multiset{}, 0, map[], {}, {}, classes)
    ensures var h := Of(s, 2); h.line.PushLink? && h.o == 1 && h.c == c && h.e == Epoch(1, Floating)
    ensures s.token.Shared? && Of(s, 1).line.Idle? && Of(s, 3).line.Idle? && Of(s, 4).line.Idle?
  {
    hide Leads, Init, Split, Free1, Free2, Free3, Free5, Build, GetSpan, MoveIn, GiveUp;
    var n, k := c.objects, c.threshold;
    s0, s := AllOut(c, classes, care);
    s := FreesFirst(s0, s, 2, n, k, care);
    assert Of(s, 1).line.Idle? && Of(s, 3).line.Idle? && Of(s, 4).line.Idle?;
    SplitNext(n, k, Remote, Out);
    RemoteFree(s0, s, 2, k, care);
    s := Go(s.(place := Split(n, k + 1, Remote, Out), tag := k + 1), 2, Thread(MarkFreed, k, s.epoch, 1, c, k + 1));
    Easily(s0, s, Advance(2), care);
    s := Next(s, Advance(2));
  }

  /** Thread 3 frees the last block and wins the full mark. */
  lemma LastFreed(s0: State, s: State, care: Care) returns (r: State)
    requires Leads(s0, s, care) && s.epoch == Epoch(2, Reusable) && s.owner == 1 && s.dead == {} && Narrow(s.class_)
    requires s.tag == s.class_.threshold + 1 && s.len == 0 && AtRest(s, 3, Of(s, 3))
    requires s.place == Split(s.class_.objects, s.class_.threshold + 1, Remote, Out)
    ensures Leads(s0, r, care) && r.epoch == Epoch(3, Full) && r.token == DeletedBy(3) && r.owner == 1
    ensures r.class_ == s.class_ && r.hot == s.hot && r.lists == s.lists && r.dead == {}
    ensures var h := Of(r, 3); h.line.RemoveLink? && h.o == 1 && h.c == s.class_ && h.e == Epoch(2, Reusable)
    ensures forall u: Tid :: u != 3 ==> Of(r, u) == Of(s, u)
  {
    hide Leads, Split, Free1, Free2, Free3, Free5, Build, GetSpan, MoveIn, GiveUp;
    var n := s.class_.objects;
    SplitNext(n, n - 1, Remote, Out);
    RemoteFree(s0, s, 3, n - 1, care);
    r := Go(s.(place := Split(n, n, Remote, Out), tag := n), 3, Thread(MarkFreed, n - 1, s.epoch, 1, s.class_, n));
    Easily(s0, r, Advance(3), care);
    r := Next(r, Advance(3));
  }

  /** Its Remove finds the span unlinked. */
  lemma NotRemoved(s0: State, s: State, care: Care) returns (r: State)
    requires Leads(s0, s, care) && s.lists.linked == multiset{} && s.lists.link.Null? && s.lists.locked == map[]
    requires Of(s, 3).line.RemoveLink? && 3 !in s.dead
    ensures Leads(s0, r, care) && r == s.(threads := s.threads[3 := Of(s, 3).(line := Delete)])
  {
    hide Leads, Free1, Free2, Free3, Free4, Build, GetSpan, MoveIn, GiveUp;
    Do(s0, s, Advance(3), care);
    r := Next(s, Advance(3));
  }

  /** It hands an unlinked span to the pool. */
  lemma Pooled(s0: State, s: State, bottom: bool, care: Care) returns (r: State)
    requires Leads(s0, s, care) && s.lists.link.Null? && 3 !in s.dead && Of(s, 3).line.Delete?
    ensures Leads(s0, r, care) && r == PoolPushStep(s, 3, Of(s, 3), bottom)
  {
    hide Leads, AdvanceLine;
    Do(s0, s, PoolPush(3, bottom), care);
    r := Next(s, PoolPush(3, bottom));
  }

  /** Thread t takes the span out of the pool again, builds it anew and uses it up. */
  lemma Recycled(s0: State, s: State, t: Tid, c: Class, care: Care) returns (r: State)
    requires Leads(s0, s, care) && s.lists.pooled == 1 && s.hot == {} && AtRest(s, t, Of(s, t)) && t !in s.dead
    requires c in s.lists.classes && c.objects > 0 && s.epoch == Epoch(3, Full)
    ensures Leads(s0, r, care) && r.epoch == Epoch(3, Floating) && r.owner == t && r.class_ == c
    ensures r.hot == {} && r.lists == s.lists.(link := Null, pooled := 0) && r.dead == s.dead && r.token.Shared?
    ensures r.place == Split(c.objects, 0, Remote, Out) && r.len == 0 && r.tag == 0 && Of(r, t).line.Idle?
    ensures forall u: Tid :: u != t ==> Of(r, u) == Of(s, u)
  {
    hide Leads, AdvanceLine, Split;
    Easily(s0, s, TakeNew(t, c), care);
    r := UsesUp(s0, Next(s, TakeNew(t, c)), t, care);
  }

  // ----- in the pool and in a deque at once -----

  /** Thread 2 passes the test of PushFront before thread 3 deletes the span. */
  lemma BeforeDelete(c: Class, care: Care) returns (s0: State, s: State)
    requires Narrow(c)
    ensures Init(s0) && Leads(s0, s, care) && Of(s, 2).line.PushInsert? && Named(Of(s, 2)) == Slot(1, c)
    ensures s.lists.link.Null? && s.lists.linked == multiset{} && s.lists.pooled == 0 && s.dead == {}
    ensures s.epoch == Epoch(3, Full) && s.token == DeletedBy(3) && Of(s, 3).line.Delete? && s.class_ == c
  {
    hide Leads, Init, Free1, Free2, Free3, Free4, Build, GetSpan, MoveIn, GiveUp, Split;
    s0, s := Marked(c, {c}, care);
    s := LastFreed(s0, s, care);
    s := NotRemoved(s0, s, care);
    Easily(s0, s, Advance(2), care);
    s := Next(s, Advance(2));
  }

  /** For every such class, at the bottom of a stack: every list has found the word null, and so does the
      PushFront of src/core.h:211, but afterwards the span is in the pool and in the deque of a live core. */
  lemma PooledAndLinked(c: Class) returns (s0: State, s: State)
    requires Narrow(c)
    ensures Init(s0) && Leads(s0, s, Tested) && Meets(s, Advance(2), Asserted)
    ensures NullSeen(s, Advance(2)) && !Guarded(s, Advance(2)) && s.class_ == c
    ensures var l := Next(s, Advance(2)).lists; l.pooled == 1 && l.linked == multiset{Slot(1, c)} && 1 !in s.dead
  {
    hide Leads, Init, Free1, Free2, Free3, Free4, Build, GetSpan, MoveIn, GiveUp;
    s0, s := BeforeDelete(c, Tested);
    s := Pooled(s0, s, true, Tested);
  }

  /** No test of the words of the span can tell: there are two states in which a PushFront is about to link,
      with the same words, and in one of them the span is in no list, in the other in the pool. */
  lemma WordsDoNotTell(c: Class) returns (s0: State, s1: State, s2: State)
    requires Narrow(c)
    ensures Init(s0) && Leads(s0, s1, Tested) && Leads(s0, s2, Tested)
    ensures Inserts(s1, Advance(2)) && Inserts(s2, Advance(2))
    ensures s1.epoch == s2.epoch && s1.owner == s2.owner && s1.class_ == s2.class_ && s1.place == s2.place
    ensures s1.len == s2.len && s1.tag == s2.tag && s1.lists.link == s2.lists.link && Of(s1, 2) == Of(s2, 2)
    ensures LinkFree(s1, Advance(2)) && !LinkFree(s2, Advance(2))
  {
    hide Leads, Init, AdvanceLine;
    s0, s1 := BeforeDelete(c, Tested);
    s2 := Pooled(s0, s1, true, Tested);
  }

  /** A Remove comes too late: the deque has been closed but not drained, so a span that every PushFront has
      linked in time goes to the pool with its links. */
  lemma RefusedRemove(c: Class) returns (s0: State, s: State)
    requires Narrow(c)
    ensures Init(s0) && Leads(s0, s, Strict) && Of(s, 3).line.RemoveLink? && Meets(s, Advance(3), Tested)
    ensures !RemoveServed(s, Advance(3)) && s.class_ == c
    ensures var r := Next(s, Advance(3));
      && Enabled(r, PoolPush(3, true)) && !Guarded(r, PoolPush(3, true))
      && Next(r, PoolPush(3, true)).lists.pooled == 1
      && Next(r, PoolPush(3, true)).lists.linked == multiset{Slot(1, c)} && r.dead == {}
  {
    hide Leads, Init, Free1, Free2, Free3, Free4, Build, GetSpan, MoveIn, GiveUp, Split;
    s0, s := Marked(c, {c}, Strict);
    Easily(s0, s, Advance(2), Strict);
    s := Next(s, Advance(2));
    Do(s0, s, Advance(2), Strict);
    s := Next(s, Advance(2));
    s := LastFreed(s0, s, Strict);
    Easily(s0, s, Close(1, c), Strict);
    s := Next(s, Close(1, c));
  }

  // ----- two cores using one span -----

  /** Core 1 is about to mark hot a span that thread 3 owns, while thread 3 lives and is at rest. */
  ghost predicate Wrong(s: State, c: Class) {
    && s.epoch == Epoch(3, Floating) && s.owner == 3 && s.class_ == c && s.dead == {} && s.hot == {}
    && s.lists == Lists(Null, multiset{}, 0, map[], {}, {}, {c})
    && s.place == Split(c.objects, 0, Remote, Out) && s.tag == 0 && s.len == 0
    && Of(s, 1).line.Acquire? && Of(s, 1).e == s.epoch && Of(s, 1).c == c
    && Of(s, 3).line.Idle? && Of(s, 4).line.Idle?
  }

  lemma WrongFails(s: State, c: Class)
    requires Wrong(s, c)
    ensures Enabled(s, Advance(1)) && !OwnerAsserted(s, Advance(1)) && s.owner !in s.dead
  {
  }

  /** Thread 2 stalls between its mark and its PushFront until the span has been deleted and thread t has
      built it again. Its PushFront then passes its test, although its mark stands no more: what
      StandingMarksSuffice asks for is more than is needed. */
  lemma LatePush(c: Class, d: Class, t: Tid) returns (s0: State, s: State)
    requires Narrow(c) && d.threshold < d.objects && (t == 1 || t == 3)
    ensures Init(s0) && Leads(s0, s, Tested) && Meets(s, Advance(2), Tested) && !MarkStands(s, Advance(2))
    ensures s.epoch == Epoch(3, Floating) && s.owner == t && s.class_ == d && s.hot == {} && s.dead == {}
    ensures s.lists == Lists(Null, multiset{}, 0, map[Slot(1, c) := 2], {}, {}, {c, d})
    ensures s.place == Split(d.objects, 0, Remote, Out) && s.tag == 0 && s.len == 0
    ensures Of(s, 2).line.PushInsert? && Named(Of(s, 2)) == Slot(1, c)
    ensures Of(s, 1).line.Idle? && Of(s, 3).line.Idle? && Of(s, 4).line.Idle?
  {
    hide Leads, Init, Free1, Free2, Free3, Free4, Build, GetSpan, MoveIn, GiveUp, Split;
    s0, s := Marked(c, {c, d}, Tested);
    s := LastFreed(s0, s, Tested);
    s := NotRemoved(s0, s, Tested);
    s := Pooled(s0, s, true, Tested);
    assert Of(s, 1).line.Idle? && Of(s, 3).line.Idle? && Of(s, 4).line.Idle?;
    s := Recycled(s0, s, t, d, Tested);
    assert Of(s, 1).line.Idle? && Of(s, 3).line.Idle? && Of(s, 4).line.Idle?;
    Easily(s0, s, Advance(2), Tested);
    s := Next(s, Advance(2));
  }

  /** Core 1 finds the span in its deque and loads its epoch. */
  lemma LateTaken(s0: State, s: State, c: Class) returns (r: State)
    requires Leads(s0, s, Tested) && Meets(s, Advance(2), Tested) && s.dead == {} && s.hot == {}
    requires Of(s, 2).line.PushInsert? && Named(Of(s, 2)) == Slot(1, c) && AtRest(s, 1, Of(s, 1))
    requires s.lists == Lists(Null, multiset{}, 0, map[Slot(1, c) := 2], {}, {}, s.lists.classes)
    ensures Leads(s0, r, Tested)
    ensures r == s.(lists := s.lists.(locked := map[]), threads := r.threads)
    ensures Of(r, 1) == Of(s, 1).(line := Acquire, c := c, e := s.epoch)
    ensures forall u: Tid :: u != 1 && u != 2 ==> Of(r, u) == Of(s, u)
  {
    hide Leads, Free1, Free2, Free3, Free4, Build, MoveIn, GiveUp;
    Do(s0, s, Advance(2), Tested);
    r := Next(s, Advance(2));
    assert r.lists.locked == map[];
    Easily(s0, r, TakeLink(1, c), Tested);
    r := Next(r, TakeLink(1, c));
    Easily(s0, r, Advance(1), Tested);
    r := Next(r, Advance(1));
  }

  /** First cause: after the late PushFront, core 1 takes the span of thread 3 from its deque. */
  lemma StalePush(c: Class) returns (s0: State, s: State)
    requires Narrow(c)
    ensures Init(s0) && Leads(s0, s, Tested) && Wrong(s, c)
  {
    hide Leads, Init, Next, Split;
    s0, s := LatePush(c, c, 3);
    s := LateTaken(s0, s, c);
  }

  /** A late PushFront puts a span of the core's own into the deque of the class it had before: NewMarkHot
      succeeds for the owner, and core 1 allocates from it for another size class. */
  lemma WrongClass(c: Class, d: Class) returns (s0: State, s: State)
    requires Narrow(c) && d.threshold < d.objects && c != d
    ensures Init(s0) && Leads(s0, s, Tested) && Meets(s, Advance(1), Tested)
    ensures Next(s, Advance(1)).hot == {Slot(1, c)} && Next(s, Advance(1)).class_ == d && s.owner == 1 && s.dead == {}
  {
    hide Leads, Init, Free1, Free2, Free3, Free4, Free5, Build, MoveIn, GiveUp, Split;
    s0, s := LatePush(c, d, 1);
    s := LateTaken(s0, s, c);
  }

  /** Second cause, with every step in time: thread 1 stalls between RemoveBack and the load of the epoch in
      GetSpan until the span has been deleted and built again. */
  lemma StaleTake(c: Class) returns (s0: State, s: State)
    requires Narrow(c)
    ensures Init(s0) && Leads(s0, s, Strict) && Wrong(s, c)
  {
    hide Leads, Init, Free1, Free2, Free3, Free4, Free5, Build, MoveIn, GiveUp, Split;
    s0, s := Taken(c);
    s := LastFreed(s0, s, Strict);
    s := NotRemoved(s0, s, Strict);
    s := Pooled(s0, s, true, Strict);
    assert Of(s, 1).line.TookLink? && Of(s, 3).line.Idle? && Of(s, 4).line.Idle?;
    s := Recycled(s0, s, 3, c, Strict);
    assert Of(s, 1).line.TookLink? && Of(s, 1).c == c && Of(s, 4).line.Idle?;
    Easily(s0, s, Advance(1), Strict);
    s := Next(s, Advance(1));
  }

  lemma Taken(c: Class) returns (s0: State, s: State)
    requires Narrow(c)
    ensures Init(s0) && Leads(s0, s, Strict) && s.epoch == Epoch(2, Reusable) && s.owner == 1 && s.class_ == c
    ensures s.place == Split(c.objects, c.threshold + 1, Remote, Out) && s.tag == c.threshold + 1 && s.len == 0
    ensures s.hot == {} && s.dead == {} && s.lists == Lists(Null, multiset{}, 0, map[], {}, {}, {c})
    ensures Of(s, 1).line.TookLink? && Of(s, 1).c == c && Of(s, 3).line.Idle? && Of(s, 4).line.Idle?
  {
    hide Leads, Init, Free1, Free2, Free3, Free4, Build, MoveIn, GiveUp, Split;
    s0, s := Marked(c, {c}, Strict);
    Easily(s0, s, Advance(2), Strict);
    s := Next(s, Advance(2));
    Do(s0, s, Advance(2), Strict);
    s := Next(s, Advance(2));
    assert s.lists.locked == map[];
    Easily(s0, s, TakeLink(1, c), Strict);
    s := Next(s, TakeLink(1, c));
  }

  /** Once the mark has succeeded, thread 3 frees a block: it and core 1 may both write the local list. */
  lemma TwoWriters(s: State, c: Class) returns (end: State)
    requires Wrong(s, c) && c.objects > 0
    ensures Leads(Next(s, Advance(1)), end, Strict)
    ensures WritesLocalList(end, 1) && WritesLocalList(end, 3) && end.dead == {}
  {
    hide Leads, Free1, Free2, Free3, Free4, Free5, Build, MoveIn, GiveUp;
    var q := Next(s, Advance(1));
    Stays(q, Strict);
    LocalFree(q, q, 3, 0, Strict);
    end := Go(q.(place := q.place[0 := Flight(3)]), 3, Thread(PushLocal, 0, q.epoch, q.owner, q.class_, Of(q, 3).n));
    assert Slot(1, c) in end.hot;
  }

  /** Or thread 4 frees as many blocks as it may without a mark, thread 3 ends, thread 4 frees one more, and
      adopts, marks, links and acquires the span: cores 1 and 4 both allocate from it. */
  lemma TwoUsers(s: State, c: Class) returns (end: State)
    requires Wrong(s, c) && c.threshold < c.objects
    ensures Leads(Next(s, Advance(1)), end, Strict)
    ensures end.hot == {Slot(1, c), Slot(4, c)} && 1 !in end.dead && 4 !in end.dead
  {
    hide Leads, Free1, Free2, Free3, Free4, Free5, Build, MoveIn, GiveUp, Split;
    var q := Next(s, Advance(1));
    Stays(q, Strict);
    var r := FreesFirst(q, q, 4, c.objects, c.threshold, Strict);
    r := Ended(q, r, c);
    SplitNext(c.objects, c.threshold, Remote, Out);
    end := Adopted(q, r, c);
  }

  lemma Ended(q: State, s: State, c: Class) returns (r: State)
    requires Leads(q, s, Strict) && s.lists == Lists(Null, multiset{}, 0, map[], {}, {}, {c}) && s.dead == {}
    requires s.hot == {Slot(1, c)} && Of(s, 3).line.Idle?
    ensures Leads(q, r, Strict) && r == s.(lists := r.lists, dead := {3}, threads := r.threads)
    ensures r.lists == s.lists.(closed := {Slot(3, c)}, leaving := {3})
    ensures forall u: Tid :: Of(r, u) == Of(s, u)
  {
    hide Leads, AdvanceLine;
    Easily(q, s, Close(3, c), Strict);
    r := Next(s, Close(3, c));
    Easily(q, r, Terminate(3), Strict);
    r := Next(r, Terminate(3));
  }

  lemma Adopted(q: State, s: State, c: Class) returns (end: State)
    requires Leads(q, s, Strict) && s.hot == {Slot(1, c)} && s.owner == 3 && s.dead == {3} && s.class_ == c
    requires s.lists == Lists(Null, multiset{}, 0, map[], {Slot(3, c)}, {3}, {c}) && s.epoch == Epoch(4, Hot)
    requires c.threshold in s.place && s.place[c.threshold] == Out && s.len == 0 && s.tag == c.threshold
    requires Of(s, 4).line.Idle? && s.token.HotBy?
    ensures Leads(q, end, Strict) && end.hot == {Slot(1, c), Slot(4, c)} && end.dead == {3}
  {
    hide Leads, Free1, Free2, Free3, Free5, Build, GetSpan, MoveIn, GiveUp;
    var p := c.threshold;
    Revives(q, s, 4, p, Strict);
    var r := Go(s.(place := s.place[p := Remote], tag := p + 1, owner := 4, epoch := Epoch(4, Floating)), 4,
                Thread(MarkFreed, p, s.epoch, 4, c, p + 1));
    Easily(q, r, Advance(4), Strict);
    r := Next(r, Advance(4));
    end := Relinked(q, r, c);
  }

  /** Thread 4 links the span it has marked in its own deque, and takes it from there. */
  lemma Relinked(q: State, s: State, c: Class) returns (end: State)
    requires Leads(q, s, Strict) && s.hot == {Slot(1, c)} && s.owner == 4 && s.dead == {3}
    requires s.lists == Lists(Null, multiset{}, 0, map[], {Slot(3, c)}, {3}, {c}) && s.epoch == Epoch(5, Reusable)
    requires Of(s, 4).line.PushLink? && Named(Of(s, 4)) == Slot(4, c) && Of(s, 4).e.count == 4
    requires s.token.HotBy?
    ensures Leads(q, end, Strict) && end.hot == {Slot(1, c), Slot(4, c)} && end.dead == {3}
  {
    hide Leads, Free1, Free2, Free3, Free4, Build, GetSpan, MoveIn, GiveUp;
    var h := Of(s, 4);
    var r1 := Go(s.(lists := s.lists.(locked := map[Slot(4, c) := 4])), 4, h.(line := PushInsert));
    assert Next(s, Advance(4)) == r1;
    Easily(q, s, Advance(4), Strict);
    var r2 := Next(r1, Advance(4));
    assert r2.lists == Lists(Ring(Slot(4, c)), multiset{Slot(4, c)}, 0, map[], {Slot(3, c)}, {3}, {c});
    assert Meets(r1, Advance(4), Strict);
    hide Meets;
    Do(q, r1, Advance(4), Strict);
    end := Retaken(q, r2, c);
  }

  lemma Retaken(q: State, s: State, c: Class) returns (end: State)
    requires Leads(q, s, Strict) && s.hot == {Slot(1, c)} && s.owner == 4 && s.dead == {3}
    requires s.lists == Lists(Ring(Slot(4, c)), multiset{Slot(4, c)}, 0, map[], {Slot(3, c)}, {3}, {c})
    requires s.epoch == Epoch(5, Reusable) && Of(s, 4).line.Idle?
    ensures Leads(q, end, Strict) && end.hot == {Slot(1, c), Slot(4, c)} && end.dead == {3}
  {
    hide Leads, Free1, Free2, Free3, Free4, Free5, Build, MoveIn, GiveUp;
    var r1 := Next(s, TakeLink(4, c));
    var r2 := Next(r1, Advance(4));
    assert Of(r1, 4).line.TookLink? && Of(r2, 4) == Of(s, 4).(line := Acquire, c := c, e := s.epoch);
    end := Next(r2, Advance(4));
    assert Meets(r2, Advance(4), Strict) && Enabled(r1, Advance(4));
    hide Next, Meets;
    Easily(q, s, TakeLink(4, c), Strict);
    Easily(q, r1, Advance(4), Strict);
    Do(q, r2, Advance(4), Strict);
  }

  /** There is such a class in the table, at the default threshold: 128 KiB blocks. */
  lemma DefaultClass()
    ensures ClassToSize(25) == 0x2_0000
    ensures Narrow(Class(ClassToSize(25), ClassToObjects(25), ClassToReuseThreshold(25)))
  {
  }
}
