/** When the links of a span stay in order: a PushFront that links while its mark still stands, or while the
    winner of the next full mark has yet to unlink the span, always finds the span in no list, and so does
    every Delete, if no winner is refused a span that is still linked. */
module SpanMarks {
  import opened Epochs
  import opened SpanProtocol
  import opened SpanSafety
  import opened SpanLinks

  /** Some thread has won the full mark and is about to call Deque::Remove. */
  ghost predicate Removing(s: State) {
    s.token.DeletedBy? && Of(s, s.token.t).line.RemoveLink?
  }

  /** A PushFront that links in step a still answers the last mark but at most the full mark whose winner
      has yet to remove the span. */
  ghost predicate MarkStands(s: State, a: Step) {
    var h := Of(s, a.t);
    Inserts(s, a) ==>
      || s.epoch == Epoch(h.e.count + 1, Reusable)
      || (s.epoch == Epoch(h.e.count + 2, Full) && Removing(s))
  }

  /** Deque::Remove does not turn away a span that is still linked, as src/deque.h:138 does once Destroy has
      closed the deque. */
  ghost predicate RemoveServed(s: State, a: Step) {
    var h := Of(s, a.t);
    a.Advance? && h.line.RemoveLink? && h.e.IsReusable() ==> s.lists.link.Null? || !Refused(s, Named(h))
  }

  ghost predicate InTime(s: State, a: Step) {
    MarkStands(s, a) && RemoveServed(s, a)
  }

  // ----- the invariant -----

  /** Thread t is in PushFront, and its deque takes the span or has already passed the test. */
  ghost predicate Accepted(s: State, t: Tid) {
    var h := Of(s, t);
    h.line.PushInsert? || (h.line.PushLink? && !Refused(s, Named(h)))
  }

  /** Thread t has marked the span, nobody has marked it since, and t has not linked it. */
  ghost predicate Pending(s: State, t: Tid) {
    Accepted(s, t) && s.epoch.count == Of(s, t).e.count + 1
  }

  /** The same, but another thread has won the full mark and is about to remove the span. */
  ghost predicate Awaited(s: State, t: Tid) {
    Accepted(s, t) && s.epoch == Epoch(Of(s, t).e.count + 2, Full) && Removing(s)
  }

  /** The deque the span belongs in. */
  ghost function Home(s: State): Slot {
    Slot(s.owner, s.class_)
  }

  ghost predicate LinkedOk(s: State) {
    s.lists.linked != multiset{} ==>
      && s.lists.linked == multiset{Home(s)} && s.owner !in s.dead
      && (s.epoch.IsReusable()
          || (Removing(s) && Of(s, s.token.t).e.IsReusable() && Named(Of(s, s.token.t)) == Home(s)))
  }

  ghost predicate PushOk(s: State, t: Tid) {
    var h := Of(s, t);
    && (h.line.PushLink? || h.line.PushInsert? ==> h.e.count + 1 <= s.epoch.count)
    && (h.line.PushInsert? ==> Named(h) in s.lists.locked && s.lists.locked[Named(h)] == t && h.o !in s.dead)
    && (Pending(s, t) ==> s.epoch.IsReusable() && s.lists.linked == multiset{} && Named(h) == Home(s))
    && (Awaited(s, t) ==>
          && s.lists.linked == multiset{} && Named(h) == Home(s)
          && Of(s, s.token.t).e == Epoch(h.e.count + 1, Reusable) && Named(Of(s, s.token.t)) == Home(s))
  }

  ghost predicate SeenOk(s: State, t: Tid) {
    var h := Of(s, t);
    && (Owned(h.line) && h.e.count == s.epoch.count && h.o !in s.dead ==> h.o == s.owner)
    && (h.line.FloatRevived? && h.e.count == s.epoch.count ==> s.owner == t)
    && (Owned(h.line) && h.e == s.epoch && s.epoch.IsReusable() && s.lists.linked != multiset{} ==> h.o == s.owner)
  }

  ghost predicate TookOk(s: State, t: Tid) {
    var h := Of(s, t);
    (h.line.TookLink? || h.line.Acquire?) && s.owner == t && !Idling(s) ==>
      s.epoch.IsReusable() && s.lists.linked == multiset{} && h.c == s.class_
  }

  /** A pending push and another thread. */
  ghost predicate PairOk(s: State, t: Tid, u: Tid) {
    var k := Of(s, u);
    && (Awaited(s, t) && Awaited(s, u) ==> t == u)
    && (Pending(s, t) ==>
      && (Pending(s, u) ==> t == u)
      && (Owned(k.line) && k.e == s.epoch ==> k.o == s.owner)
      && (k.line.TookLink? || k.line.Acquire? ==> s.owner != u))
  }

  ghost predicate MarksOk(s: State) {
    && LinkedOk(s)
    && (forall t: Tid :: PushOk(s, t) && SeenOk(s, t) && TookOk(s, t))
    && (forall t: Tid, u: Tid :: PairOk(s, t, u))
  }

  lemma StepFree(s: State, a: Step)
    requires Inv(s) && ListsOk(s) && WordOk(s) && MarksOk(s) && Enabled(s, a) && MarkStands(s, a)
    ensures LinkFree(s, a)
  {
    var h := Of(s, a.t);
    assert ThreadOk(s, a.t);
    if Inserts(s, a) {
      assert PushOk(s, a.t);
    }
  }

  // ----- steps that change the thread's own record only -----

  ghost predicate Quiet(s: State, s': State, t: Tid) {
    && s'.threads == s.threads[t := Of(s', t)]
    && s'.epoch == s.epoch && s'.owner == s.owner && s'.class_ == s.class_
    && s'.lists == s.lists && s'.dead == s.dead
    && s'.token == s.token && s.token != DeletedBy(t)
  }

  /** What the thread itself and the pending pushes say about the thread's new record. */
  ghost predicate OwnOk(s: State, s': State, t: Tid) {
    && !Of(s', t).line.PushLink? && !Of(s', t).line.PushInsert? && SeenOk(s', t) && TookOk(s', t)
    && (forall u: Tid :: u != t && Pending(s, u) ==> PairOk(s', u, t))
  }

  lemma QuietMarks(s: State, s': State, t: Tid)
    requires MarksOk(s) && Quiet(s, s', t) && OwnOk(s, s', t)
    ensures MarksOk(s')
  {
    assert Removing(s') <==> Removing(s);
    forall u: Tid ensures PushOk(s', u) && SeenOk(s', u) && TookOk(s', u) {
      assert PushOk(s, u) && SeenOk(s, u) && TookOk(s, u);
    }
    forall u: Tid, v: Tid ensures PairOk(s', u, v) {
      assert PairOk(s, u, v);
      assert u != t ==> (Pending(s', u) <==> Pending(s, u));
      if u != t && v == t && Pending(s, u) {
        assert PairOk(s', u, t);
      }
    }
  }

  /** What a step needs of the invariant of SpanSafety. */
  ghost predicate Basis(s: State, t: Tid) {
    && TokenOk(s) && StageOk(s, t) && EpochOk(s, t) && WindowOk(s, t)
    && (forall u: Tid :: u in s.dead ==> Of(s, u).line.Idle?)
  }

  lemma LoadsMarks(s: State, t: Tid, h: Thread)
    requires Basis(s, t) && MarksOk(s) && h == Of(s, t)
    requires h.line.LoadEpoch? || h.line.LoadOwner? || h.line.LoadClass? || h.line.Choose?
    ensures MarksOk(Free1(s, t, h))
  {
    var s' := Free1(s, t, h);
    assert SeenOk(s, t);
    forall u: Tid | u != t && Pending(s, u) ensures PairOk(s', u, t) {
      assert PairOk(s, u, t);
    }
    QuietMarks(s, s', t);
  }

  lemma SumsMarks(s: State, t: Tid, h: Thread)
    requires Basis(s, t) && MarksOk(s) && h == Of(s, t)
    requires h.line.PushLocal? || h.line.PushRemote? || h.line.AddRemote? || h.line.AddLocal?
    ensures MarksOk(Free2(s, t, h))
  {
    var s' := Free2(s, t, h);
    assert SeenOk(s, t);
    forall u: Tid | u != t && Pending(s, u) ensures PairOk(s', u, t) {
      assert PairOk(s, u, t);
    }
    QuietMarks(s, s', t);
  }

  lemma CheckMarks(s: State, t: Tid, h: Thread)
    requires Basis(s, t) && MarksOk(s) && h == Of(s, t) && h.line.CheckOwner?
    ensures MarksOk(Free3(s, t, h))
  {
    var s' := Free3(s, t, h);
    assert SeenOk(s, t);
    forall u: Tid | u != t && Pending(s, u) ensures PairOk(s', u, t) {
      assert PairOk(s, u, t);
    }
    QuietMarks(s, s', t);
  }

  lemma ReviveMarks(s: State, t: Tid, h: Thread)
    requires Basis(s, t) && MarksOk(s) && h == Of(s, t) && h.line.Revive?
    ensures MarksOk(Free3(s, t, h))
  {
    if s.owner == h.o {
      AdoptMarks(s, t, h);
    } else {
      assert SeenOk(s, t);
      forall u: Tid | u != t && Pending(s, u) ensures PairOk(Free3(s, t, h), u, t) {
        assert PairOk(s, u, t);
      }
      QuietMarks(s, Free3(s, t, h), t);
    }
  }

  lemma AdoptMarks(s: State, t: Tid, h: Thread)
    requires Basis(s, t) && MarksOk(s) && h == Of(s, t) && h.line.Revive? && s.owner == h.o
    ensures MarksOk(Free3(s, t, h))
  {
    var s' := Free3(s, t, h);
    assert s.owner in s.dead && s.lists.linked == multiset{};
    hide TokenOk, StageOk, EpochOk, WindowOk;
    forall u: Tid ensures PushOk(s', u) && SeenOk(s', u) && TookOk(s', u) {
      assert PushOk(s, u) && SeenOk(s, u) && TookOk(s, u);
    }
    forall u: Tid, v: Tid ensures PairOk(s', u, v) {
      assert PairOk(s, u, v) && PushOk(s, u);
    }
  }

  lemma FloatMarks(s: State, t: Tid, h: Thread)
    requires Basis(s, t) && MarksOk(s) && h == Of(s, t) && h.line.FloatRevived?
    ensures MarksOk(Free3(s, t, h))
  {
    var s' := Free3(s, t, h);
    assert SeenOk(s, t);
    if s.epoch == h.e {
      FloatedMarks(s, s', t, h);
    } else {
      forall u: Tid | u != t && Pending(s, u) ensures PairOk(s', u, t) {
        assert PairOk(s, u, t);
      }
      QuietMarks(s, s', t);
    }
  }

  /** The span was adopted, so no deque of a live core holds it and no push of one is pending. */
  lemma FloatedMarks(s: State, s': State, t: Tid, h: Thread)
    requires MarksOk(s) && h == Of(s, t) && h.line.FloatRevived? && h.o in s.dead && h.e == s.epoch && s.owner == t
    requires t !in s.dead && !Idling(s)
    requires s' == s.(epoch := s.epoch.OnlyValue(), threads := s.threads[t := h.(line := MarkFreed, o := t)])
    ensures MarksOk(s')
  {
    assert SeenOk(s, t);
    assert Removing(s') <==> Removing(s);
    forall u: Tid ensures PushOk(s', u) && SeenOk(s', u) && TookOk(s', u) {
      assert PushOk(s, u) && SeenOk(s, u) && TookOk(s, u) && PairOk(s, u, t);
    }
    forall u: Tid, v: Tid ensures PairOk(s', u, v) {
      assert PairOk(s, u, v) && PairOk(s, u, t) && PushOk(s, u);
    }
  }

  /** The record k of thread t names nothing the marks depend on. */
  lemma PassiveMarks(s: State, s': State, t: Tid, k: Thread)
    requires MarksOk(s) && Quiet(s, s', t) && Of(s', t) == k
    requires !Owned(k.line) && !k.line.PushLink? && !k.line.PushInsert? && !k.line.TookLink? && !k.line.Acquire?
    ensures MarksOk(s')
  {
    QuietMarks(s, s', t);
  }

  lemma FullMarks(s: State, t: Tid, h: Thread)
    requires Basis(s, t) && MarksOk(s) && h == Of(s, t) && h.line.MarkFreed? && !h.e.Exclusive()
    requires NewMarkFull(s.epoch, h.e).ok
    requires forall u: Tid :: EpochOk(s, u)
    ensures MarksOk(MarkFullStep(s, t, h))
  {
    var s' := MarkFullStep(s, t, h);
    assert SeenOk(s, t);
    assert s.epoch == h.e;
    forall u: Tid ensures PushOk(s', u) && SeenOk(s', u) && TookOk(s', u) {
      assert PushOk(s, u) && SeenOk(s, u) && TookOk(s, u) && PairOk(s, u, t) && EpochOk(s, u);
    }
    forall u: Tid, v: Tid ensures PairOk(s', u, v) {
      assert PushOk(s, u) && PushOk(s', u) && PushOk(s', v) && PairOk(s, u, v);
    }
  }

  lemma ReuseMarks(s: State, t: Tid, h: Thread)
    requires Basis(s, t) && MarksOk(s) && h == Of(s, t) && h.line.MarkFreed?
    requires NewMarkReuse(s.epoch, h.e).ok
    requires forall u: Tid :: EpochOk(s, u)
    ensures MarksOk(MarkReuseStep(s, t, h))
  {
    var s' := MarkReuseStep(s, t, h);
    assert SeenOk(s, t);
    assert s.lists.linked == multiset{};
    forall u: Tid ensures PushOk(s', u) && SeenOk(s', u) && TookOk(s', u) {
      assert PushOk(s, u) && SeenOk(s, u) && TookOk(s, u) && EpochOk(s, u);
    }
    forall u: Tid, v: Tid ensures PairOk(s', u, v) {
      assert PushOk(s, u) && EpochOk(s, v) && PushOk(s', u) && TookOk(s, v);
    }
  }

  /** PushFront passes its test: nobody but t changes, and t only from one line to the next. */
  lemma LockSame(s: State, s': State, t: Tid, h: Thread, u: Tid)
    requires MarksOk(s) && h == Of(s, t) && h.line.PushLink? && !Refused(s, Named(h)) && Named(h) !in s.lists.locked
    requires s' == s.(lists := s.lists.(locked := s.lists.locked[Named(h) := t]),
                      threads := s.threads[t := h.(line := PushInsert)])
    requires Removing(s') <==> Removing(s)
    ensures PushOk(s', u) && SeenOk(s', u) && TookOk(s', u)
    ensures Pending(s', u) <==> Pending(s, u)
    ensures Awaited(s', u) <==> Awaited(s, u)
  {
    assert PushOk(s, u) && SeenOk(s, u) && TookOk(s, u);
    hide MarksOk, Removing, LinkedOk;
  }

  lemma LockMarks(s: State, t: Tid, h: Thread)
    requires Basis(s, t) && MarksOk(s) && h == Of(s, t) && h.line.PushLink? && !Refused(s, Named(h))
    requires Named(h) !in s.lists.locked
    ensures MarksOk(Free5(s, t, h))
  {
    var s' := Free5(s, t, h);
    assert Removing(s') <==> Removing(s);
    hide Basis, Pending, Awaited, PushOk, SeenOk, TookOk;
    forall u: Tid ensures PushOk(s', u) && SeenOk(s', u) && TookOk(s', u) {
      LockSame(s, s', t, h, u);
    }
    forall u: Tid, v: Tid ensures PairOk(s', u, v) {
      LockSame(s, s', t, h, u);
      LockSame(s, s', t, h, v);
      assert PairOk(s, u, v);
    }
  }

  lemma InsertMarks(s: State, t: Tid, h: Thread)
    requires Basis(s, t) && MarksOk(s) && h == Of(s, t) && h.line.PushInsert?
    requires Pending(s, t) || Awaited(s, t)
    ensures MarksOk(Free5(s, t, h))
  {
    var s' := Free5(s, t, h);
    assert PushOk(s, t);
    assert Removing(s') <==> Removing(s);
    assert s'.lists.linked == multiset{Home(s)};
    hide TokenOk, StageOk, EpochOk, WindowOk;
    forall u: Tid ensures PushOk(s', u) && SeenOk(s', u) && TookOk(s', u) {
      assert PushOk(s, u) && SeenOk(s, u) && TookOk(s, u) && PairOk(s, t, u);
    }
    forall u: Tid, v: Tid ensures PairOk(s', u, v) {
      assert PairOk(s, u, v) && PairOk(s, t, u);
    }
  }

  lemma RemoveEmpties(s: State, t: Tid, h: Thread)
    requires TokenOk(s) && StageOk(s, t) && LinkedOk(s) && ListsOk(s) && h == Of(s, t) && h.line.RemoveLink?
    requires RemoveServed(s, Advance(t))
    ensures var s' := Free5(s, t, h);
      && Removing(s) && !Removing(s') && s'.lists.linked == multiset{}
      && s' == s.(lists := s.lists.(linked := s'.lists.linked, link := s'.lists.link),
                  threads := s.threads[t := h.(line := Delete)])
      && s.epoch.mark.Full?
  {
    UnlinkKeeps(s.lists);
    if s.lists.linked != multiset{} {
      assert Home(s) in s.lists.linked;
      assert s.lists.link == Ring(Home(s));
    }
  }

  lemma RemoveMarks(s: State, t: Tid, h: Thread)
    requires Basis(s, t) && MarksOk(s) && ListsOk(s) && h == Of(s, t) && h.line.RemoveLink?
    requires RemoveServed(s, Advance(t))
    ensures MarksOk(Free5(s, t, h))
  {
    var s' := Free5(s, t, h);
    RemoveEmpties(s, t, h);
    hide Basis, Free5, LinkedOk, ListsOk, Removing;
    assert LinkedOk(s') by {
      NoLinks(s');
    }
    forall u: Tid ensures PushOk(s', u) && SeenOk(s', u) && TookOk(s', u) {
      assert PushOk(s, u) && SeenOk(s, u) && TookOk(s, u);
    }
    forall u: Tid, v: Tid ensures PairOk(s', u, v) {
      assert PushOk(s, u) && PairOk(s, u, v);
    }
  }

  lemma NoLinks(s: State)
    requires s.lists.linked == multiset{}
    ensures LinkedOk(s)
  {
  }

  /** A span that is being deleted or built is in no deque and has no push that still counts. */
  lemma UnownedMarks(s: State, s': State, t: Tid)
    requires Basis(s, t) && MarksOk(s) && Idling(s) && !Removing(s) && !Removing(s')
    requires s'.threads == s.threads[t := Of(s', t)] && !Owned(Of(s', t).line)
    requires var l := Of(s', t).line; !l.PushLink? && !l.PushInsert? && !l.TookLink? && !l.Acquire?
    requires s'.lists == s.lists.(link := s'.lists.link, pooled := s'.lists.pooled)
    requires s'.dead == s.dead && s'.epoch == s.epoch && (s'.owner == s.owner || s'.owner == t)
    requires forall u: Tid :: EpochOk(s, u)
    requires s.epoch.mark.Full? || s.epoch == Epoch(0, Floating)
    requires Idling(s')
    ensures MarksOk(s')
  {
    assert s.lists.linked == multiset{};
    forall u: Tid ensures PushOk(s', u) && SeenOk(s', u) && TookOk(s', u) {
      assert PushOk(s, u) && SeenOk(s, u) && TookOk(s, u) && EpochOk(s, u);
    }
    forall u: Tid, v: Tid ensures PairOk(s', u, v) {
      assert PushOk(s, u) && PushOk(s', u);
    }
  }

  lemma PoolPushMarks(s: State, t: Tid, h: Thread, bottom: bool)
    requires Basis(s, t) && MarksOk(s) && h == Of(s, t) && h.line.Delete?
    requires forall u: Tid :: EpochOk(s, u)
    ensures MarksOk(PoolPushStep(s, t, h, bottom))
  {
    UnownedMarks(s, PoolPushStep(s, t, h, bottom), t);
  }

  lemma BuildMarks(s: State, t: Tid, h: Thread)
    requires Basis(s, t) && MarksOk(s) && h == Of(s, t) && (h.line.ResetLink? || h.line.SetOwner? || h.line.ResetLists?)
    requires forall u: Tid :: EpochOk(s, u)
    ensures MarksOk(Build(s, t, h))
  {
    UnownedMarks(s, Build(s, t, h), t);
  }

  lemma TakeNewMarks(s: State, t: Tid, h: Thread, c: Class)
    requires Basis(s, t) && MarksOk(s) && h == Of(s, t) && h.line.Idle? && s.lists.pooled > 0
    requires forall u: Tid :: EpochOk(s, u)
    ensures MarksOk(TakeNewStep(s, t, h, c))
  {
    UnownedMarks(s, TakeNewStep(s, t, h, c), t);
  }

  lemma MarkNewMarks(s: State, t: Tid, h: Thread)
    requires Basis(s, t) && MarksOk(s) && h == Of(s, t) && h.line.MarkNew?
    requires forall u: Tid :: EpochOk(s, u) && StageOk(s, u)
    ensures MarksOk(Build(s, t, h))
  {
    var s' := Build(s, t, h);
    assert s.lists.linked == multiset{};
    forall u: Tid ensures PushOk(s', u) && SeenOk(s', u) && TookOk(s', u) {
      assert PushOk(s, u) && SeenOk(s, u) && EpochOk(s, u) && StageOk(s, u);
    }
    forall u: Tid, v: Tid ensures PairOk(s', u, v) {
      assert PushOk(s, u) && PushOk(s', u);
    }
  }

  lemma TookMarks(s: State, t: Tid, h: Thread)
    requires Basis(s, t) && MarksOk(s) && h == Of(s, t) && h.line.TookLink?
    ensures MarksOk(GetSpan(s, t, h))
  {
    var s' := GetSpan(s, t, h);
    assert TookOk(s, t);
    forall u: Tid | u != t && Pending(s, u) ensures PairOk(s', u, t) {
      assert PairOk(s, u, t);
    }
    QuietMarks(s, s', t);
  }

  lemma AcquireMarks(s: State, t: Tid, h: Thread)
    requires Basis(s, t) && MarksOk(s) && h == Of(s, t) && h.line.Acquire?
    requires NewMarkHot(s.epoch, h.e).ok && s.owner == t
    requires forall u: Tid :: EpochOk(s, u)
    ensures MarksOk(GetSpan(s, t, h))
  {
    var s' := GetSpan(s, t, h);
    assert TookOk(s, t);
    forall u: Tid ensures PushOk(s', u) && SeenOk(s', u) && TookOk(s', u) {
      assert PushOk(s, u) && SeenOk(s, u) && EpochOk(s, u) && PairOk(s, u, t);
    }
    forall u: Tid, v: Tid ensures PairOk(s', u, v) {
      assert PushOk(s, u) && PushOk(s', u);
    }
  }

  lemma StoreMarks(s: State, t: Tid, h: Thread)
    requires Basis(s, t) && MarksOk(s) && h == Of(s, t) && h.line.StoreFloating?
    requires forall u: Tid :: EpochOk(s, u)
    ensures MarksOk(GiveUp(s, t, h))
  {
    var s' := GiveUp(s, t, h);
    assert s.lists.linked == multiset{} && s.owner == t;
    forall u: Tid ensures PushOk(s', u) && SeenOk(s', u) && TookOk(s', u) {
      assert PushOk(s, u) && SeenOk(s, u) && TookOk(s, u);
    }
    forall u: Tid, v: Tid ensures PairOk(s', u, v) {
      assert PushOk(s, u) && PushOk(s', u);
    }
  }

  lemma ChoiceMarks(s: State, a: Step, h: Thread)
    requires Basis(s, a.t) && MarksOk(s) && h == Of(s, a.t) && Enabled(s, a)
    requires a.StartFree? || a.StartMalloc? || a.Allocate? || a.MoveOne? || a.Park?
    ensures MarksOk(Next(s, a))
  {
    assert s.token != DeletedBy(a.t);
    assert h.line.Idle? || h.line.Popping? || h.line.MoveEach?;
    hide Basis, MarksOk, Enabled, AdvanceLine, AtRest;
    if a.StartMalloc? || a.Park? {
      var k := Of(Next(s, a), a.t);
      PassiveMarks(s, Go(s, a.t, k), a.t, k);
    } else {
      BlockMarks(s, a, h);
    }
  }

  lemma BlockMarks(s: State, a: Step, h: Thread)
    requires MarksOk(s) && h == Of(s, a.t) && s.token != DeletedBy(a.t)
    requires h.line.Idle? || h.line.Popping? || h.line.MoveEach?
    requires a.StartFree? || a.Allocate? || a.MoveOne?
    ensures MarksOk(Next(s, a))
  {
    hide MarksOk, AdvanceLine;
    PassiveMarks(s, Next(s, a), a.t, Of(Next(s, a), a.t));
  }

  lemma MoveInMarks(s: State, t: Tid, h: Thread)
    requires MarksOk(s) && h == Of(s, t) && (h.line.Collect? || h.line.Move? || h.line.MoveEach?) && s.token != DeletedBy(t)
    ensures MarksOk(MoveIn(s, t, h))
  {
    hide MarksOk, Relocate;
    var s' := MoveIn(s, t, h);
    PassiveMarks(s, s', t, Of(s', t));
  }

  lemma GiveUpMarks(s: State, t: Tid, h: Thread)
    requires MarksOk(s) && h == Of(s, t) && s.token != DeletedBy(t)
    requires h.line.Popping? || h.line.CheckFree? || h.line.LoadFloat?
    ensures MarksOk(GiveUp(s, t, h))
  {
    hide MarksOk;
    var s' := GiveUp(s, t, h);
    PassiveMarks(s, s', t, Of(s', t));
  }

  lemma HotMarks(s: State, t: Tid, h: Thread)
    requires Basis(s, t) && MarksOk(s) && h == Of(s, t) && OnHot(h.line) && !h.line.StoreFloating?
    ensures MarksOk(AdvanceLine(s, t, h))
  {
    assert s.token != DeletedBy(t);
    hide Basis, MarksOk, MoveIn, GiveUp;
    if Shifting(h.line) || h.line.Collect? {
      MoveInMarks(s, t, h);
    } else {
      GiveUpMarks(s, t, h);
    }
  }

  lemma RestMarks(s: State, t: Tid, h: Thread)
    requires Basis(s, t) && MarksOk(s) && h == Of(s, t) && (h.line.MarkFreed? || h.line.Acquire? || h.line.PushLink?)
    ensures MarksOk(Go(s, t, h.(line := Idle)))
  {
    QuietMarks(s, Go(s, t, h.(line := Idle)), t);
  }

  /** The owner takes the span out of its deque. */
  lemma TakenMarks(s: State, s': State, t: Tid, c: Class, k: Thread)
    requires MarksOk(s) && !Removing(s') && Of(s, t).line.Idle? && Slot(t, c) in s.lists.linked
    requires s' == s.(lists := Take(s.lists, Slot(t, c)), threads := s.threads[t := k])
    requires (k.line.TookLink? && k.c == c) || k.line.Idle?
    requires s.epoch.IsReusable()
    ensures MarksOk(s')
  {
    assert Slot(t, c) == Home(s) && s'.lists.linked == multiset{};
    forall u: Tid ensures PushOk(s', u) && SeenOk(s', u) && TookOk(s', u) {
      assert PushOk(s, u) && SeenOk(s, u) && TookOk(s, u);
    }
    hide Removing;
    forall u: Tid, v: Tid ensures PairOk(s', u, v) {
      assert PairOk(s, u, v) && PushOk(s, u);
    }
  }

  /** The owner, or the winner of the full mark just before its Remove, finds the span gone. */
  lemma TakenRemoving(s: State, s': State, t: Tid, c: Class, k: Thread)
    requires MarksOk(s) && Removing(s') && Removing(s) && Of(s, t).line.Idle? && Slot(t, c) in s.lists.linked
    requires s' == s.(lists := Take(s.lists, Slot(t, c)), threads := s.threads[t := k])
    requires k.line.TookLink? || k.line.Idle?
    requires s.epoch.mark.Full?
    ensures MarksOk(s')
  {
    assert Slot(t, c) == Home(s) && s'.lists.linked == multiset{};
    forall u: Tid ensures PushOk(s', u) && SeenOk(s', u) && TookOk(s', u) {
      assert PushOk(s, u) && SeenOk(s, u) && TookOk(s, u);
    }
    forall u: Tid, v: Tid ensures PairOk(s', u, v) {
      assert PairOk(s, u, v) && PushOk(s, u);
    }
  }

  lemma TakeMarks(s: State, s': State, t: Tid, c: Class, k: Thread)
    requires Basis(s, t) && MarksOk(s) && Of(s, t).line.Idle? && Slot(t, c) in s.lists.linked
    requires s' == s.(lists := Take(s.lists, Slot(t, c)), threads := s.threads[t := k])
    requires (k.line.TookLink? && k.c == c) || k.line.Idle?
    ensures MarksOk(s')
  {
    assert Removing(s') <==> Removing(s);
    if Removing(s) {
      TakenRemoving(s, s', t, c, k);
    } else {
      TakenMarks(s, s', t, c, k);
    }
  }

  /** Destroy closes a deque, or ends: fewer PushFronts are accepted. */
  ghost predicate Leaves(s: State, s': State, t: Tid) {
    && s' == s.(lists := s'.lists, dead := s'.dead, threads := s.threads[t := Of(s, t)])
    && s'.lists == s.lists.(closed := s'.lists.closed, leaving := s'.lists.leaving)
    && s.lists.closed <= s'.lists.closed && s.dead <= s'.dead <= s.dead + {t}
    && (s'.dead != s.dead ==> forall at :: at in s.lists.linked || at in s.lists.locked ==> at.t != t)
  }

  lemma LeaveSame(s: State, s': State, t: Tid, u: Tid)
    requires MarksOk(s) && Of(s, t).line.Idle? && Leaves(s, s', t) && (Removing(s') <==> Removing(s))
    ensures PushOk(s', u) && SeenOk(s', u) && TookOk(s', u)
    ensures Pending(s', u) ==> Pending(s, u)
    ensures Awaited(s', u) ==> Awaited(s, u)
  {
    assert PushOk(s, u) && SeenOk(s, u) && TookOk(s, u);
    hide MarksOk, Removing, LinkedOk;
  }

  lemma LeaveMarks(s: State, s': State, t: Tid)
    requires MarksOk(s) && Of(s, t).line.Idle? && Leaves(s, s', t)
    ensures MarksOk(s')
  {
    assert Removing(s') <==> Removing(s);
    if s.lists.linked != multiset{} {
      assert Home(s) in s.lists.linked;
    }
    assert LinkedOk(s');
    hide Pending, Awaited, PushOk, SeenOk, TookOk, LinkedOk;
    forall u: Tid ensures PushOk(s', u) && SeenOk(s', u) && TookOk(s', u) {
      LeaveSame(s, s', t, u);
    }
    forall u: Tid, v: Tid ensures PairOk(s', u, v) {
      LeaveSame(s, s', t, u);
      LeaveSame(s, s', t, v);
      assert PairOk(s, u, v);
    }
  }

  // ----- every step, every run -----

  lemma InvBasis(s: State, t: Tid)
    requires Inv(s)
    ensures Basis(s, t) && forall u: Tid :: EpochOk(s, u) && StageOk(s, u)
  {
    assert ThreadOk(s, t);
    hide TokenOk, PlacesOk, BlocksOk, EpochOk, WindowOk;
    forall u: Tid ensures EpochOk(s, u) && StageOk(s, u) && (u in s.dead ==> Of(s, u).line.Idle?) {
      assert ThreadOk(s, u);
    }
  }

  lemma FreeMarks(s: State, t: Tid, h: Thread)
    requires Basis(s, t) && MarksOk(s) && h == Of(s, t)
    requires Carrying(h.line) || h.line.AddRemote? || h.line.AddLocal? || Summed(h.line)
    requires forall u: Tid :: EpochOk(s, u) && StageOk(s, u)
    ensures MarksOk(AdvanceLine(s, t, h))
  {
    hide Basis, MarksOk, Free1, Free2, Free3;
    match h.line {
      case LoadEpoch | LoadOwner | LoadClass | Choose => LoadsMarks(s, t, h);
      case PushLocal | PushRemote | AddRemote | AddLocal => SumsMarks(s, t, h);
      case CheckOwner => CheckMarks(s, t, h);
      case Revive => ReviveMarks(s, t, h);
      case FloatRevived => FloatMarks(s, t, h);
      case MarkFreed =>
        RestMarks(s, t, h);
        if h.n == h.c.objects && !h.e.Exclusive() {
          if NewMarkFull(s.epoch, h.e).ok { FullMarks(s, t, h); }
        } else if h.n > h.c.threshold && !h.e.IsReusable() {
          if NewMarkReuse(s.epoch, h.e).ok { ReuseMarks(s, t, h); }
        }
    }
  }

  lemma SpanSteps(s: State, t: Tid, h: Thread)
    requires Basis(s, t) && MarksOk(s) && ListsOk(s) && h == Of(s, t)
    requires !Carrying(h.line) && !h.line.AddRemote? && !h.line.AddLocal? && !Summed(h.line)
    requires CanAdvance(s, t, h) && OwnerAsserted(s, Advance(t)) && InTime(s, Advance(t))
    requires forall u: Tid :: EpochOk(s, u) && StageOk(s, u)
    ensures MarksOk(AdvanceLine(s, t, h))
  {
    hide Basis, MarksOk, ListsOk, MoveIn, GiveUp, Build;
    if OnHot(h.line) && !h.line.StoreFloating? {
      HotMarks(s, t, h);
    } else if h.line.StoreFloating? {
      StoreMarks(s, t, h);
    } else if h.line.MarkNew? {
      MarkNewMarks(s, t, h);
    } else if Building(h.line) {
      BuildMarks(s, t, h);
    } else {
      ListSteps(s, t, h);
    }
  }

  lemma ListSteps(s: State, t: Tid, h: Thread)
    requires Basis(s, t) && MarksOk(s) && ListsOk(s) && h == Of(s, t)
    requires h.line.PushLink? || h.line.PushInsert? || h.line.RemoveLink? || h.line.TookLink? || h.line.Acquire?
    requires CanAdvance(s, t, h) && OwnerAsserted(s, Advance(t)) && InTime(s, Advance(t))
    requires forall u: Tid :: EpochOk(s, u)
    ensures MarksOk(AdvanceLine(s, t, h))
  {
    hide Basis, MarksOk, ListsOk, Refused;
    match h.line {
      case PushLink => if Refused(s, Named(h)) { RestMarks(s, t, h); } else { LockMarks(s, t, h); }
      case PushInsert => InsertMarks(s, t, h);
      case RemoveLink => RemoveMarks(s, t, h);
      case TookLink => TookMarks(s, t, h);
      case Acquire => if NewMarkHot(s.epoch, h.e).ok { AcquireMarks(s, t, h); } else { RestMarks(s, t, h); }
    }
  }

  lemma CloseMarks(s: State, t: Tid, c: Class)
    requires MarksOk(s) && Of(s, t).line.Idle?
    ensures MarksOk(Next(s, Close(t, c)))
  {
    hide MarksOk, AdvanceLine;
    LeaveMarks(s, Next(s, Close(t, c)), t);
  }

  lemma TerminateMarks(s: State, t: Tid)
    requires MarksOk(s) && Of(s, t).line.Idle? && Destroyed(s, t)
    ensures MarksOk(Next(s, Terminate(t)))
  {
    hide MarksOk, AdvanceLine;
    LeaveMarks(s, Next(s, Terminate(t)), t);
  }

  lemma AdvanceMarks(s: State, t: Tid, h: Thread)
    requires Inv(s) && ListsOk(s) && MarksOk(s) && h == Of(s, t)
    requires CanAdvance(s, t, h) && OwnerAsserted(s, Advance(t)) && InTime(s, Advance(t))
    ensures MarksOk(AdvanceLine(s, t, h))
  {
    InvBasis(s, t);
    hide Inv, ListsOk, MarksOk, Basis, AdvanceLine, OwnerAsserted, InTime, CanAdvance;
    if Carrying(h.line) || h.line.AddRemote? || h.line.AddLocal? || Summed(h.line) {
      FreeMarks(s, t, h);
    } else {
      SpanSteps(s, t, h);
    }
  }

  lemma StepMarks(s: State, a: Step)
    requires Inv(s) && ListsOk(s) && MarksOk(s) && Enabled(s, a) && OwnerAsserted(s, a) && InTime(s, a)
    ensures MarksOk(Next(s, a))
  {
    hide Inv, ListsOk, MarksOk, Basis, AdvanceLine, OwnerAsserted, InTime, CanAdvance, Destroyed;
    var h := Of(s, a.t);
    InvBasis(s, a.t);
    match a {
      case Advance(t) => AdvanceMarks(s, t, h);
      case PoolPush(t, bottom) => PoolPushMarks(s, t, h, bottom);
      case Drain(t, c) => TakeMarks(s, Next(s, a), t, c, h);
      case Close(t, c) => CloseMarks(s, t, c);
      case Terminate(t) => TerminateMarks(s, t);
      case TakeNew(t, c) => TakeNewMarks(s, t, h, c);
      case TakeLink(t, c) => TakeMarks(s, Next(s, a), t, c, h.(line := TookLink, c := c));
      case _ => ChoiceMarks(s, a, h);
    }
  }

  /** Every step of the run is in time. */
  ghost predicate AlwaysInTime(s: State, steps: seq<Step>)
    decreases |steps|
  {
    steps == [] || (InTime(s, steps[0]) && AlwaysInTime(Next(s, steps[0]), steps[1..]))
  }

  lemma {:induction false} RunMarks(s: State, steps: seq<Step>)
    requires Inv(s) && ListsOk(s) && WordOk(s) && MarksOk(s) && Run(s, steps) && AlwaysInTime(s, steps)
    ensures AlwaysListed(s, steps) && AlwaysNull(s, steps) && MarksOk(After(s, steps))
    decreases |steps|
  {
    hide Inv, ListsOk, WordOk, MarksOk, Next, Enabled, OwnerAsserted, MarkStands, RemoveServed;
    if steps != [] {
      StepInv(s, steps[0]);
      StepFree(s, steps[0]);
      StepLists(s, steps[0]);
      StepMarks(s, steps[0]);
      RunMarks(Next(s, steps[0]), steps[1..]);
    }
  }

  /** If every PushFront links while its mark stands, and no winner of the full mark is turned away with the
      span still linked, then the assertions of Span::Delete hold, every PushFront gets an unlinked span,
      and the pool and the deques never disturb each other. */
  lemma StandingMarksSuffice(s: State, steps: seq<Step>)
    requires Init(s) && Run(s, steps) && AlwaysInTime(s, steps)
    ensures AlwaysNull(s, steps) && AlwaysListed(s, steps)
  {
    InitInv(s);
    InitLists(s);
    InitMarks(s);
    hide Init, Inv, ListsOk, WordOk, MarksOk, Run, AlwaysListed, AlwaysNull, AlwaysInTime;
    RunMarks(s, steps);
  }

  lemma InitMarks(s: State)
    requires Init(s)
    ensures MarksOk(s)
  {
  }
}
