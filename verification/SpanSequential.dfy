/** The calls of one thread that nobody disturbs, in the step machine: they do to the span what Heaps says
    a call does. */
module SpanSequential {
  import opened Epochs
  import opened SpanProtocol
  import opened SpanSafety
  import opened CoreIds
  import HI = HeapInvariants
  import HO = HeapOutcomes
  import H = Heaps

  /** n operations of t, while the others do nothing, lead to e. */
  ghost predicate Goes(s: State, t: Tid, n: nat, e: State)
    decreases n
  {
    if n == 0 then s == e else Enabled(s, Advance(t)) && Goes(Next(s, Advance(t)), t, n - 1, e)
  }

  lemma {:induction false} GoesOn(s: State, t: Tid, n: nat, m: State)
    requires Goes(s, t, n, m) && Enabled(m, Advance(t))
    ensures Goes(s, t, n + 1, Next(m, Advance(t)))
    decreases n
  {
    hide Enabled, Next;
    if n == 0 {
      assert Goes(Next(s, Advance(t)), t, 0, Next(m, Advance(t)));
    } else {
      GoesOn(Next(s, Advance(t)), t, n - 1, m);
    }
  }

  // ----- Core::Free -----

  /** The epoch read at the start can still be swapped after the owner was looked at. */
  predicate Markable(s: State) {
    !s.epoch.Exclusive() && !(s.owner in s.dead && s.epoch.IsReusable())
  }

  predicate Recycles(s: State) {
    s.len + s.tag + 1 == s.class_.objects && Markable(s)
  }

  predicate Reuses(s: State) {
    s.class_.threshold < s.len + s.tag + 1 != s.class_.objects && Markable(s)
  }

  function Adopter(s: State, t: Tid): Tid {
    if s.owner in s.dead then t else s.owner
  }

  /** The deque that free names. */
  function Home(s: State, t: Tid): Slot {
    Slot(Adopter(s, t), s.class_)
  }

  function EpochAfter(s: State): Epoch {
    if Recycles(s) then Epoch(s.epoch.count + 1, Full)
    else if Reuses(s) && !s.epoch.IsReusable() then Epoch(s.epoch.count + 1, Reusable)
    else if s.owner in s.dead then s.epoch.OnlyValue()
    else s.epoch
  }

  /** After the adoption, if there was one: all but marks and deques. */
  function Returned(s: State, t: Tid, p: Block): State {
    s.(place := s.place[p := if s.owner == t then Local else Remote],
       len := if s.owner == t then s.len + 1 else s.len, tag := if s.owner == t then s.tag else s.tag + 1,
       owner := Adopter(s, t), epoch := if s.owner in s.dead then s.epoch.OnlyValue() else s.epoch)
  }

  /** Two states that differ in the thread t at most. */
  ghost predicate Like(s: State, e: State, t: Tid) {
    e == s.(threads := s.threads[t := Of(e, t)])
  }

  lemma Loads(s: State, t: Tid, p: Block) returns (e: State)
    requires Enabled(s, StartFree(t, p))
    ensures Goes(Next(s, StartFree(t, p)), t, 4, e) && Like(s.(place := s.place[p := Flight(t)]), e, t)
    ensures var h := Of(e, t);
      h.p == p && h.e == s.epoch && h.o == s.owner && h.c == s.class_
      && (if s.owner == t then h.line.PushLocal? else h.line.PushRemote?)
  {
    hide Free2, Free3, Free4, Free5, Build, GetSpan, MoveIn, GiveUp;
    var s1 := Next(s, StartFree(t, p));
    var s2 := Next(s1, Advance(t));
    var s3 := Next(s2, Advance(t));
    var s4 := Next(s3, Advance(t));
    e := Next(s4, Advance(t));
    assert Goes(s4, t, 1, e) by { assert Goes(e, t, 0, e); }
    assert Goes(s3, t, 2, e);
    assert Goes(s2, t, 3, e);
  }

  /** The block is back and counted. */
  function Counted(s: State, t: Tid, p: Block): State {
    if s.owner == t then s.(place := s.place[p := Local], len := s.len + 1)
    else s.(place := s.place[p := Remote], tag := s.tag + 1)
  }

  lemma Counts(s: State, t: Tid, p: Block, b: State, n: nat, m: State) returns (e: State)
    requires t !in s.dead && Goes(b, t, n, m) && Like(s.(place := s.place[p := Flight(t)]), m, t)
    requires var h := Of(m, t);
      h.p == p && h.e == s.epoch && h.o == s.owner && h.c == s.class_
      && (if s.owner == t then h.line.PushLocal? else h.line.PushRemote?)
    ensures Goes(b, t, n + 2, e) && Like(Counted(s, t, p), e, t)
    ensures var h := Of(e, t);
      h.line.CheckOwner? && h.e == s.epoch && h.o == s.owner && h.c == s.class_ && h.n == s.len + s.tag + 1
  {
    hide Goes, Free1, Free3, Free4, Free5, Build, GetSpan, MoveIn, GiveUp;
    var m1 := Next(m, Advance(t));
    GoesOn(b, t, n, m);
    e := Next(m1, Advance(t));
    GoesOn(b, t, n + 1, m1);
    assert m.place[p := Local] == s.place[p := Local];
    assert m.place[p := Remote] == s.place[p := Remote];
  }

  lemma Adopts(s: State, t: Tid, p: Block, b: State, n: nat, m: State) returns (e: State, k: nat)
    requires t !in s.dead && Goes(b, t, n, m) && Like(Counted(s, t, p), m, t)
    requires var h := Of(m, t);
      h.line.CheckOwner? && h.e == s.epoch && h.o == s.owner && h.c == s.class_ && h.n == s.len + s.tag + 1
    ensures Goes(b, t, k, e) && Like(Returned(s, t, p), e, t)
    ensures var h := Of(e, t);
      h.line.MarkFreed? && h.e == s.epoch && h.o == Adopter(s, t) && h.c == s.class_ && h.n == s.len + s.tag + 1
  {
    hide Goes, Free1, Free2, Free4, Free5, Build, GetSpan, MoveIn, GiveUp;
    var m1 := Next(m, Advance(t));
    GoesOn(b, t, n, m);
    if s.owner in s.dead {
      var m2 := Next(m1, Advance(t));
      GoesOn(b, t, n + 1, m1);
      e, k := Next(m2, Advance(t)), n + 3;
      GoesOn(b, t, n + 2, m2);
    } else {
      e, k := m1, n + 1;
    }
  }

  function ListsAfter(s: State, t: Tid): Lists {
    if Refused(s, Home(s, t)) then s.lists
    else if Recycles(s) && s.epoch.IsReusable() then Unlink(s.lists)
    else if Pushes(s) then Insert(s.lists, Home(s, t))
    else s.lists
  }

  /** What the whole call does to the span; a recycled span is in the hands of t, which goes on to give it to the
      pool. */
  function Freed(s: State, t: Tid, p: Block): State {
    Returned(s, t, p).(epoch := EpochAfter(s), lists := ListsAfter(s, t),
                       token := if Recycles(s) then DeletedBy(t) else s.token)
  }

  /** After the last mark, before the deques. */
  function Marked(s: State, t: Tid, p: Block): State {
    Returned(s, t, p).(epoch := EpochAfter(s), token := if Recycles(s) then DeletedBy(t) else s.token)
  }

  predicate Pushes(s: State) {
    !Recycles(s) && Reuses(s) && !s.epoch.IsReusable()
  }

  lemma Marks(s: State, t: Tid, p: Block, m: State)
    requires t !in s.dead && Like(Returned(s, t, p), m, t)
    requires var h := Of(m, t);
      h.line.MarkFreed? && h.e == s.epoch && h.o == Adopter(s, t) && h.c == s.class_ && h.n == s.len + s.tag + 1
    requires s.owner in s.dead ==> !s.epoch.Exclusive()
    ensures var e := Next(m, Advance(t)); var h := Of(e, t);
      && Enabled(m, Advance(t)) && Like(Marked(s, t, p), e, t)
      && h.line == (if Recycles(s) then RemoveLink else if Pushes(s) then PushLink else Idle)
      && h.e == s.epoch && Named(h) == Home(s, t)
  {
    hide Free1, Free2, Free3, Free5, Build, GetSpan, MoveIn, GiveUp;
  }

  lemma Links(s: State, t: Tid, p: Block, b: State, n: nat, m: State) returns (e: State, k: nat)
    requires t !in s.dead && Goes(b, t, n, m) && Like(Marked(s, t, p), m, t) && s.lists.locked == map[]
    requires var h := Of(m, t);
      && h.line == (if Recycles(s) then RemoveLink else if Pushes(s) then PushLink else Idle)
      && h.e == s.epoch && Named(h) == Home(s, t)
    ensures Goes(b, t, k, e) && Like(Freed(s, t, p), e, t)
    ensures if Recycles(s) then Of(e, t).line.Delete? else Of(e, t).line.Idle?
  {
    hide Goes, Free1, Free2, Free3, Free4, Build, GetSpan, MoveIn, GiveUp, Recycles, Reuses, Home, EpochAfter, Adopter;
    if Of(m, t).line.Idle? {
      e, k := m, n;
    } else {
      e, k := Next(m, Advance(t)), n + 1;
      GoesOn(b, t, n, m);
      if Pushes(s) && !Refused(s, Home(s, t)) {
        var m2 := e;
        e, k := Next(m2, Advance(t)), n + 2;
        GoesOn(b, t, n + 1, m2);
      }
    }
  }

  /** The owner of an exclusive span lives as long as the program holds a block of it. */
  lemma HeldShared(s: State, p: Block)
    requires Inv(s) && p in s.place && s.place[p] == Out
    ensures s.owner in s.dead ==> !s.epoch.Exclusive()
  {
  }

  /** A call of free that nobody disturbs, while no deque is locked. */
  lemma FreeAlone(s: State, t: Tid, p: Block) returns (e: State, n: nat)
    requires Inv(s) && Enabled(s, StartFree(t, p)) && s.lists.locked == map[]
    ensures Goes(Next(s, StartFree(t, p)), t, n, e) && Like(Freed(s, t, p), e, t)
    ensures if Recycles(s) then Of(e, t).line.Delete? else Of(e, t).line.Idle?
  {
    HeldShared(s, p);
    hide Next, Goes, Freed, Returned, Counted, Marked, Recycles, Pushes, Home, Inv;
    var b := Next(s, StartFree(t, p));
    e := Loads(s, t, p);
    e := Counts(s, t, p, b, 4, e);
    e, n := Adopts(s, t, p, b, 6, e);
    Marks(s, t, p, e);
    GoesOn(b, t, n, e);
    e, n := Links(s, t, p, b, n + 1, Next(e, Advance(t)));
  }

  // ----- Core::Allocate -----

  lemma Checks(s: State, t: Tid, c: Class)
    requires Enabled(s, StartMalloc(t, c)) && At(s.place, Local) == {}
    ensures var s1 := Next(s, StartMalloc(t, c)); var s2 := Next(s1, Advance(t)); var e := Next(s2, Advance(t));
      && Enabled(s1, Advance(t)) && Enabled(s2, Advance(t)) && Enabled(e, Advance(t)) && Like(s, e, t)
      && Of(e, t).c == c && Of(e, t).line == if s.len + s.tag > c.threshold then Collect else LoadFloat
  {
    hide Free1, Free2, Free3, Free4, Free5, Build, GetSpan, MoveIn;
  }

  /** The remote list taken over as it is. */
  function Gathered(s: State, t: Tid): State {
    s.(place := Relocate(Relocate(s.place, Remote, Moving(t)), Moving(t), Local), len := s.tag, tag := 0)
  }

  lemma Moves(s: State, t: Tid, m: State)
    requires t !in s.dead && Like(s, m, t) && Of(m, t).line.Collect? && s.tag != 0 && s.len == 0
    ensures var s1 := Next(m, Advance(t)); var e := Next(s1, Advance(t));
      && Enabled(s1, Advance(t)) && Of(e, t).line.Popping?
      && Like(Gathered(s, t), e, t)
  {
    hide Free1, Free2, Free3, Free4, Free5, Build, GetSpan, GiveUp, Relocate;
  }

  lemma Floats(s: State, t: Tid, c: Class, m: State)
    requires t !in s.dead && Like(s, m, t) && Of(m, t).line.LoadFloat? && Of(m, t).c == c
    ensures var s1 := Next(m, Advance(t)); var e := Next(s1, Advance(t));
      && Enabled(s1, Advance(t)) && Of(e, t).line.Idle?
      && Like(s.(epoch := s.epoch.OnlyValue(), hot := s.hot - {Slot(t, c)}, token := Shared), e, t)
  {
    hide Free1, Free2, Free3, Free4, Free5, Build, GetSpan, MoveIn;
  }

  /** A request on the hot span that finds no local block and nobody disturbs: if the free ones exceed the threshold,
      the remote ones become local; otherwise the span floats and leaves its slot. */
  lemma MallocAlone(s: State, t: Tid, c: Class) returns (e: State)
    requires Inv(s) && Enabled(s, StartMalloc(t, c)) && At(s.place, Local) == {}
    ensures Goes(Next(s, StartMalloc(t, c)), t, 4, e)
    ensures if s.len + s.tag > c.threshold then
              && Like(Gathered(s, t), e, t)
              && Of(e, t).line.Popping?
            else
              && Like(s.(epoch := s.epoch.OnlyValue(), hot := s.hot - {Slot(t, c)}, token := Shared), e, t)
              && Of(e, t).line.Idle?
  {
    assert s.len == 0 && t !in s.dead;
    hide Next, Inv, Relocate, Goes;
    Checks(s, t, c);
    var s1 := Next(s, StartMalloc(t, c));
    var m := Next(Next(s1, Advance(t)), Advance(t));
    if s.len + s.tag > c.threshold {
      Moves(s, t, m);
    } else {
      Floats(s, t, c, m);
    }
    e := Next(Next(m, Advance(t)), Advance(t));
    FourSteps(s1, t);
  }

  lemma FourSteps(s: State, t: Tid)
    requires Enabled(s, Advance(t))
    requires var s2 := Next(s, Advance(t)); var s3 := Next(s2, Advance(t)); var s4 := Next(s3, Advance(t));
      Enabled(s2, Advance(t)) && Enabled(s3, Advance(t)) && Enabled(s4, Advance(t))
    ensures Goes(s, t, 4, Next(Next(Next(Next(s, Advance(t)), Advance(t)), Advance(t)), Advance(t)))
  {
    hide Enabled, Next;
    var s2 := Next(s, Advance(t));
    var s3 := Next(s2, Advance(t));
    var s4 := Next(s3, Advance(t));
    var e := Next(s4, Advance(t));
    assert Goes(e, t, 0, e);
    assert Goes(s4, t, 1, e);
    assert Goes(s3, t, 2, e);
    assert Goes(s2, t, 3, e);
  }

  /** A local block is handed out at once. */
  lemma LocalFirst(s: State, t: Tid, c: Class, p: Block)
    requires Enabled(s, StartMalloc(t, c)) && p in s.place && s.place[p] == Local
    ensures var m := Next(s, StartMalloc(t, c));
      && Enabled(m, Allocate(t, p)) && !Enabled(m, Advance(t))
      && Like(s.(place := s.place[p := Out], len := s.len - 1), Next(m, Allocate(t, p)), t)
      && Of(Next(m, Allocate(t, p)), t).line.Idle?
  {
    assert p in At(s.place, Local);
  }

  /** A span taken from the deque becomes hot exactly if it is shared; otherwise GetSpan goes on without it. */
  lemma TakeAlone(s: State, t: Tid, c: Class) returns (e: State)
    requires Enabled(s, TakeLink(t, c))
    ensures Goes(Next(s, TakeLink(t, c)), t, 2, e)
    ensures var l := s.(lists := Take(s.lists, Slot(t, c)));
      if s.epoch.Exclusive() then Like(l, e, t) && Of(e, t).line.Idle?
      else
        && Like(l.(epoch := Epoch(s.epoch.count + 1, Hot), hot := s.hot + {Slot(t, c)}, token := HotBy(t, c)), e, t)
        && Of(e, t).line.Collect?
  {
    hide Free1, Free2, Free3, Free4, Free5, Build, MoveIn, GiveUp;
    var s1 := Next(s, TakeLink(t, c));
    var s2 := Next(s1, Advance(t));
    e := Next(s2, Advance(t));
    assert Goes(e, t, 0, e);
    assert Goes(s2, t, 1, e);
  }

  /** The words of a span that t has rebuilt for class c. */
  ghost predicate Built(s: State, e: State, t: Tid, c: Class) {
    && e.owner == t && e.class_ == c && e.len == c.objects && e.tag == 0
    && e.place == (map b | b in Blocks(c.objects) :: Local)
    && e.lists == s.lists.(pooled := e.lists.pooled, link := Null) && e.lists.pooled + 1 == s.lists.pooled
    && e.epoch == NewMarkHot(s.epoch, s.epoch).word && e.hot == s.hot + {Slot(t, c)}
  }

  lemma Claims(s: State, t: Tid, c: Class)
    requires Enabled(s, TakeNew(t, c))
    ensures var s1 := Next(s, TakeNew(t, c)); var s2 := Next(s1, Advance(t)); var e := Next(s2, Advance(t));
      && Enabled(s1, Advance(t)) && Enabled(s2, Advance(t)) && Enabled(e, Advance(t))
      && Of(e, t).line.ResetLists? && Of(e, t).c == c && e.owner == t && e.epoch == s.epoch && e.hot == s.hot
      && e.lists == s.lists.(pooled := e.lists.pooled, link := Null) && e.lists.pooled + 1 == s.lists.pooled
      && e.dead == s.dead
  {
    hide Free1, Free2, Free3, Free4, Free5, MoveIn, GiveUp, GetSpan;
  }

  /** A span from the pool is rebuilt for the caller and the class, with all its blocks local, whatever its words
      were. */
  lemma BuildAlone(s: State, t: Tid, c: Class) returns (e: State)
    requires Enabled(s, TakeNew(t, c))
    ensures Goes(Next(s, TakeNew(t, c)), t, 4, e) && Of(e, t).line.Popping? && Built(s, e, t, c)
  {
    hide Next, Goes, Blocks;
    Claims(s, t, c);
    var s1 := Next(s, TakeNew(t, c));
    var m := Next(Next(s1, Advance(t)), Advance(t));
    e := Finishes(m, t, c);
    FourSteps(s1, t);
  }

  lemma Finishes(m: State, t: Tid, c: Class) returns (e: State)
    requires Of(m, t).line.ResetLists? && Of(m, t).c == c && t !in m.dead
    ensures var m1 := Next(m, Advance(t)); Enabled(m1, Advance(t)) && e == Next(m1, Advance(t))
    ensures Of(e, t).line.Popping? && e.owner == m.owner && e.class_ == c && e.len == c.objects && e.tag == 0
    ensures e.place == (map b | b in Blocks(c.objects) :: Local) && e.lists == m.lists
    ensures e.epoch == NewMarkHot(m.epoch, m.epoch).word && e.hot == m.hot + {Slot(t, c)}
  {
    hide Free1, Free2, Free3, Free4, Free5, MoveIn, GiveUp, GetSpan, Blocks;
    e := Next(Next(m, Advance(t)), Advance(t));
  }

  // ----- what Heaps says of the same call -----

  /** The span i of the heap h is in state s. ids names the threads. */
  ghost predicate Shows(h: H.Heap, i: nat, s: State, ids: map<Tid, CoreId>) {
    && i < |h.spans| && s.owner in ids && ids[s.owner] == h.spans[i].owner
    && (forall u :: u in ids ==> (u in s.dead <==> H.Dead(h, ids[u])))
    && (forall u, v :: u in ids && v in ids && ids[u] == ids[v] ==> u == v)
    && var f := h.spans[i];
    && s.epoch == f.epoch && s.class_.objects == H.Objects(f.sc) && s.class_.threshold == H.Threshold(f.sc)
    && s.len == f.local.len && s.tag == |f.remote|
    && (s.lists.pooled > 0 || s.token.DeletedBy? <==> i in h.pool)
    && (forall b :: b in s.place <==> b < s.class_.objects)
    && (forall b :: b in s.place ==>
          && (s.place[b] == Out <==> H.Obj(i, b) in h.live) && (s.place[b] == Remote <==> b in f.remote)
          && (s.place[b] == Local <==> s.place[b] != Out && s.place[b] != Remote))
  }

  /** The call of free in Heaps does to the span what its operations do one at a time. */
  lemma FreeRefines(h: H.Heap, c: nat, o: H.Obj, s: State, t: Tid, ids: map<Tid, CoreId>)
    requires HI.Inv(h) && HI.Current(h, c) && o in h.live && o.span !in h.pool
    requires Shows(h, o.span, s, ids) && t in ids && ids[t] == h.ids[c] && t !in s.dead
    ensures Shows(H.Free(h, c, o), o.span, Freed(s, t, o.block), ids)
  {
    hide H.Free, H.Dead, H.Objects, H.Threshold, HI.Inv;
    HO.FreeMarks(h, c, o);
    HO.FreedLists(h, c, o);
    HI.FreeOk(h, c, o);
    LiveHere(h, o);
    DeadSame(h, H.Free(h, c, o));
    var g, e, i := H.Free(h, c, o), Freed(s, t, o.block), o.span;
    assert Recycles(s) <==> HO.Recycles(h, i);
    assert Reuses(s) <==> HO.Reuses(h, i);
    forall b | b in e.place
      ensures (e.place[b] == Out <==> H.Obj(i, b) in g.live) && (e.place[b] == Remote <==> b in g.spans[i].remote) {
    }
  }

  lemma DeadSame(h: H.Heap, g: H.Heap)
    requires g.ids == h.ids
    ensures forall owner :: H.Dead(g, owner) <==> H.Dead(h, owner)
  {
  }

  lemma LiveHere(h: H.Heap, o: H.Obj)
    requires HI.Inv(h) && o in h.live
    ensures o.span < |h.spans| && o.block < H.Objects(h.spans[o.span].sc) && H.Obj(o.span, o.block) == o
    ensures o.block !in h.spans[o.span].remote
    ensures h.spans[o.span].NrFreeObjects() < H.Objects(h.spans[o.span].sc)
  {
    var f := h.spans[o.span];
    assert HI.SpanOk(h, o.span, f) && H.Obj(o.span, o.block) == o;
    if f.NrFreeObjects() >= H.Objects(f.sc) { HI.AllFree(o.span, f, h.live); }
  }
}
