/** What every run keeps of the size classes, of the threads that are ending and of the locks of deques. */
module SpanHousing {
  import opened Epochs
  import opened SpanProtocol
  import opened SpanSafety

  ghost predicate ThreadHoused(s: State, t: Tid) {
    var h := Of(s, t);
    && (Building(h.line) ==> h.c in s.lists.classes)
    && (t in s.lists.leaving ==> t in s.threads && (h.line.Idle? || h.line.LoadFloat? || h.line.StoreFloating?))
    && (h.line.PushInsert? ==> Named(h) in s.lists.locked && s.lists.locked[Named(h)] == t)
  }

  /** Only before the first constructor has set the class does the span have none of the table. */
  ghost predicate Sized(s: State) {
    && (forall c :: c in s.lists.classes ==> c.threshold < c.objects)
    && (s.class_ in s.lists.classes
        || (s.token.BuiltBy? && s.epoch == Epoch(0, Floating) && s.place == map[] && !Of(s, s.token.t).line.MarkNew?))
  }

  ghost predicate Housed(s: State) {
    Sized(s) && forall t: Tid :: ThreadHoused(s, t)
  }

  /** Until then only the first constructor is under way. */
  lemma OnlyBuilding(s: State, t: Tid)
    requires TokenOk(s) && StageOk(s, t) && EpochOk(s, t) && Sized(s) && s.class_ !in s.lists.classes
    ensures var l := Of(s, t).line;
      l.Idle? || ((l.ResetLink? || l.SetOwner? || l.ResetLists?) && s.token == BuiltBy(t))
    ensures s.lists.pooled == 0 && s.hot == {} && s.lists.linked == multiset{}
  {
  }

  lemma BuildSized(s: State, t: Tid, h: Thread)
    requires Sized(s) && s.token == BuiltBy(t) && h == Of(s, t)
    requires h.line.ResetLink? || h.line.SetOwner? || (h.line.ResetLists? && h.c in s.lists.classes)
    ensures Sized(Build(s, t, h))
  {
  }

  lemma ChoiceSized(s: State, a: Step)
    requires Sized(s) && s.class_ !in s.lists.classes && s.place == map[] && Enabled(s, a) && !a.Advance?
    requires s.lists.pooled == 0 && s.hot == {} && s.lists.linked == multiset{}
    requires var l := Of(s, a.t).line;
      l.Idle? || ((l.ResetLink? || l.SetOwner? || l.ResetLists?) && s.token == BuiltBy(a.t))
    ensures Sized(Next(s, a))
  {
    hide AdvanceLine;
  }

  lemma ClassStays(s: State, a: Step)
    requires Sized(s) && s.class_ in s.lists.classes && ThreadHoused(s, a.t)
    ensures Sized(Next(s, a))
  {
  }

  lemma StepSized(s: State, a: Step)
    requires Inv(s) && Housed(s) && Enabled(s, a)
    ensures Sized(Next(s, a))
  {
    assert ThreadHoused(s, a.t);
    if s.class_ in s.lists.classes {
      hide Inv, Sized, AdvanceLine, ThreadHoused, Enabled;
      ClassStays(s, a);
    } else {
      assert ThreadOk(s, a.t);
      OnlyBuilding(s, a.t);
      hide Sized, TokenOk, PlacesOk, StageOk, BlocksOk, EpochOk, WindowOk, Build;
      if a.Advance? {
        BuildSized(s, a.t, Of(s, a.t));
      } else {
        SizedEmpty(s);
        ChoiceSized(s, a);
      }
    }
  }

  lemma SizedEmpty(s: State)
    requires Sized(s) && s.class_ !in s.lists.classes
    ensures s.place == map[]
  {
  }

  /** What a step of t leaves to the others. */
  ghost predicate Apart(s: State, s': State, t: Tid) {
    && s'.threads == s.threads[t := Of(s', t)] && s'.lists.classes == s.lists.classes
    && s'.lists.leaving <= s.lists.leaving + {t}
    && (forall at :: at in s.lists.locked && s.lists.locked[at] != t ==>
          at in s'.lists.locked && s'.lists.locked[at] == s.lists.locked[at])
  }

  /** A step that changes no deque, nor a builder's class. */
  lemma RecordHoused(s: State, s': State, t: Tid)
    requires ThreadHoused(s, t) && s'.threads == s.threads[t := Of(s', t)] && s'.lists == s.lists
    requires var h, h' := Of(s, t), Of(s', t);
      && !h'.line.PushInsert? && (Building(h'.line) ==> Building(h.line) && h'.c == h.c)
      && (h.line.Idle? || h.line.LoadFloat? || h.line.StoreFloating? ==>
            h'.line.Idle? || h'.line.LoadFloat? || h'.line.StoreFloating?)
    ensures Apart(s, s', t) && ThreadHoused(s', t)
  {
  }

  lemma FreeHoused(s: State, t: Tid, h: Thread)
    requires h == Of(s, t) && ThreadHoused(s, t)
    requires Carrying(h.line) || h.line.AddRemote? || h.line.AddLocal? || Summed(h.line)
    ensures Apart(s, AdvanceLine(s, t, h), t) && ThreadHoused(AdvanceLine(s, t, h), t)
  {
    hide ThreadHoused, Apart, Free5, Build, GetSpan, MoveIn, GiveUp;
    RecordHoused(s, AdvanceLine(s, t, h), t);
  }

  lemma LockHoused(s: State, t: Tid, h: Thread)
    requires h == Of(s, t) && ThreadHoused(s, t) && h.line.PushLink? && Named(h) !in s.lists.locked
    ensures Apart(s, Free5(s, t, h), t) && ThreadHoused(Free5(s, t, h), t)
  {
  }

  lemma InsertHoused(s: State, t: Tid, h: Thread)
    requires h == Of(s, t) && ThreadHoused(s, t) && h.line.PushInsert?
    ensures Apart(s, Free5(s, t, h), t) && ThreadHoused(Free5(s, t, h), t)
  {
  }

  lemma RemoveHoused(s: State, t: Tid, h: Thread)
    requires h == Of(s, t) && ThreadHoused(s, t) && h.line.RemoveLink?
    ensures Apart(s, Free5(s, t, h), t) && ThreadHoused(Free5(s, t, h), t)
  {
    UnlinkKeeps(s.lists);
    hide Unlink;
  }

  lemma ListHoused(s: State, t: Tid, h: Thread)
    requires h == Of(s, t) && ThreadHoused(s, t) && CanAdvance(s, t, h)
    requires h.line.PushLink? || h.line.PushInsert? || h.line.RemoveLink?
    ensures Apart(s, AdvanceLine(s, t, h), t) && ThreadHoused(AdvanceLine(s, t, h), t)
  {
    hide ThreadHoused, Apart, Free5, At;
    if h.line.PushLink? {
      LockHoused(s, t, h);
    } else if h.line.PushInsert? {
      InsertHoused(s, t, h);
    } else {
      RemoveHoused(s, t, h);
    }
  }

  lemma BuildHoused(s: State, t: Tid, h: Thread)
    requires h == Of(s, t) && ThreadHoused(s, t) && Building(h.line)
    ensures Apart(s, Build(s, t, h), t) && ThreadHoused(Build(s, t, h), t)
  {
  }

  lemma GetSpanHoused(s: State, t: Tid, h: Thread)
    requires h == Of(s, t) && ThreadHoused(s, t) && (h.line.TookLink? || h.line.Acquire?)
    ensures Apart(s, GetSpan(s, t, h), t) && ThreadHoused(GetSpan(s, t, h), t)
  {
    hide ThreadHoused, Apart;
    RecordHoused(s, GetSpan(s, t, h), t);
  }

  lemma HotHoused(s: State, t: Tid, h: Thread)
    requires h == Of(s, t) && ThreadHoused(s, t) && OnHot(h.line)
    ensures Apart(s, AdvanceLine(s, t, h), t) && ThreadHoused(AdvanceLine(s, t, h), t)
  {
    if h.line.Collect? || Shifting(h.line) {
      hide ThreadHoused, Apart, Relocate;
      RecordHoused(s, MoveIn(s, t, h), t);
    } else {
      hide ThreadHoused, Apart;
      RecordHoused(s, GiveUp(s, t, h), t);
    }
  }

  lemma ChoiceHoused(s: State, a: Step)
    requires ThreadHoused(s, a.t) && Enabled(s, a) && !a.Advance?
    ensures Apart(s, Next(s, a), a.t) && ThreadHoused(Next(s, a), a.t)
  {
    hide AdvanceLine, Destroyed, At;
    if a.StartFree? || a.Allocate? || a.MoveOne? {
      assert a.StartFree? ==> a.t !in s.lists.leaving;
      BlockHoused(s, a);
    }
  }

  lemma BlockHoused(s: State, a: Step)
    requires ThreadHoused(s, a.t) && (a.StartFree? || a.Allocate? || a.MoveOne?)
    requires a.StartFree? ==> a.t !in s.lists.leaving
    requires !a.StartFree? ==> OnHot(Of(s, a.t).line)
    ensures Apart(s, Next(s, a), a.t) && ThreadHoused(Next(s, a), a.t)
  {
    hide AdvanceLine;
  }

  lemma SpanHoused(s: State, t: Tid, h: Thread)
    requires h == Of(s, t) && ThreadHoused(s, t) && (Building(h.line) || h.line.TookLink? || h.line.Acquire?)
    ensures Apart(s, AdvanceLine(s, t, h), t) && ThreadHoused(AdvanceLine(s, t, h), t)
  {
    hide ThreadHoused, Apart, Build, GetSpan;
    if Building(h.line) {
      BuildHoused(s, t, h);
    } else {
      GetSpanHoused(s, t, h);
    }
  }

  lemma OwnHoused(s: State, a: Step)
    requires ThreadHoused(s, a.t) && Enabled(s, a)
    ensures Apart(s, Next(s, a), a.t) && ThreadHoused(Next(s, a), a.t)
  {
    var h := Of(s, a.t);
    hide AdvanceLine, ThreadHoused, Apart;
    if !a.Advance? {
      ChoiceHoused(s, a);
    } else if Carrying(h.line) || h.line.AddRemote? || h.line.AddLocal? || Summed(h.line) {
      FreeHoused(s, a.t, h);
    } else if OnHot(h.line) {
      HotHoused(s, a.t, h);
    } else if Building(h.line) || h.line.TookLink? || h.line.Acquire? {
      SpanHoused(s, a.t, h);
    } else {
      ListHoused(s, a.t, h);
    }
  }

  lemma OthersHoused(s: State, s': State, t: Tid, u: Tid)
    requires ThreadHoused(s, u) && u != t && Apart(s, s', t)
    ensures ThreadHoused(s', u)
  {
  }

  lemma StepHoused(s: State, a: Step)
    requires Inv(s) && Housed(s) && Enabled(s, a)
    ensures Housed(Next(s, a))
  {
    StepSized(s, a);
    hide Inv, Sized, Next, Enabled, ThreadHoused, Apart;
    assert ThreadHoused(s, a.t);
    OwnHoused(s, a);
    forall u: Tid ensures ThreadHoused(Next(s, a), u) {
      assert ThreadHoused(s, u);
      if u != a.t {
        OthersHoused(s, Next(s, a), a.t, u);
      }
    }
  }

  lemma {:induction false} RunHoused(s: State, steps: seq<Step>)
    requires Inv(s) && Housed(s) && Run(s, steps)
    ensures Housed(After(s, steps))
    decreases |steps|
  {
    hide Inv, Housed, Next, Enabled, OwnerAsserted;
    if steps != [] {
      StepInv(s, steps[0]);
      StepHoused(s, steps[0]);
      RunHoused(Next(s, steps[0]), steps[1..]);
    }
  }

  lemma InitHoused(s: State)
    requires Init(s)
    ensures Housed(s)
  {
  }
}
