/** The first word of a span links it into a deque or into the pool (src/span.h:105-111,
    src/stack.h:67-75, src/deque.h:85-146). This module says when the two uses stay apart, and which tests
    of the span's words tell so. */
module SpanLinks {
  import opened Epochs
  import opened SpanProtocol
  import opened SpanSafety

  /** The span is the pool's: on one of its stacks, or just off it, with the word yet to be cleared. */
  ghost predicate Kept(s: State) {
    s.lists.pooled > 0 || (s.token.BuiltBy? && Of(s, s.token.t).line.ResetLink?)
  }

  /** The span is in at most one list, once, and a deque that holds it has its word. */
  ghost predicate ListsOk(s: State) {
    && (Kept(s) ==> s.lists.linked == multiset{})
    && (forall at: Slot :: at in s.lists.linked ==> s.lists.link == Ring(at) && s.lists.linked[at] == 1)
  }

  /** What the word says about the lists, as long as they are in order. */
  ghost predicate WordOk(s: State) {
    && (s.lists.link.PoolNext? ==> Kept(s))
    && (s.lists.link.Ring? ==> s.lists.link.at in s.lists.linked)
  }

  /** A list that takes the span in finds it in no other one. */
  ghost predicate LinkFree(s: State, a: Step) {
    && (Inserts(s, a) ==> s.lists.link.Null? && !Kept(s))
    && (a.PoolPush? ==> s.lists.link.Null?)
  }

  /** PushFront is about to write the links. */
  ghost predicate Inserts(s: State, a: Step) {
    a.Advance? && Of(s, a.t).line.PushInsert?
  }

  // ----- one step -----

  lemma InsertLists(s: State, t: Tid, h: Thread)
    requires ListsOk(s) && WordOk(s) && h == Of(s, t) && h.line.PushInsert?
    ensures var s' := Free5(s, t, h);
      && (ListsOk(s') <==> s.lists.link.Null? && !Kept(s))
      && (ListsOk(s') ==> WordOk(s'))
  {
    var s', at := Free5(s, t, h), Named(h);
    assert Kept(s') <==> Kept(s);
    assert at in s'.lists.linked && s'.lists.linked[at] == s.lists.linked[at] + 1;
    if s.lists.link.Ring? {
      assert s.lists.link.at in s'.lists.linked;
    }
    forall u: Slot | u in s'.lists.linked ensures u == at || u in s.lists.linked {
    }
  }

  lemma RemoveLists(s: State, t: Tid, h: Thread)
    requires ListsOk(s) && WordOk(s) && h == Of(s, t) && h.line.RemoveLink?
    ensures ListsOk(Free5(s, t, h)) && WordOk(Free5(s, t, h))
  {
    assert Kept(Free5(s, t, h)) <==> Kept(s);
  }

  lemma PoolPushLists(s: State, t: Tid, h: Thread, bottom: bool)
    requires ListsOk(s) && WordOk(s) && h == Of(s, t) && h.line.Delete? && s.token == DeletedBy(t) && s.lists.pooled == 0
    ensures var s' := PoolPushStep(s, t, h, bottom);
      && (ListsOk(s') <==> s.lists.link.Null?)
      && (ListsOk(s') ==> WordOk(s'))
  {
    assert !Kept(s) && Kept(PoolPushStep(s, t, h, bottom));
    if s.lists.linked != multiset{} {
      var at :| at in s.lists.linked;
    }
  }

  lemma BuildLists(s: State, t: Tid, h: Thread)
    requires ListsOk(s) && WordOk(s) && h == Of(s, t) && (h.line.ResetLink? || h.line.SetOwner?)
    requires s.token == BuiltBy(t) && s.lists.pooled == 0
    ensures ListsOk(Build(s, t, h)) && WordOk(Build(s, t, h))
  {
  }

  lemma TakeLists(s: State, s': State, t: Tid, at: Slot)
    requires ListsOk(s) && WordOk(s) && at in s.lists.linked
    requires s'.lists == Take(s.lists, at) && (Kept(s') <==> Kept(s))
    ensures ListsOk(s') && WordOk(s')
  {
    forall u: Slot ensures u !in s'.lists.linked {
      assert u in s.lists.linked ==> u == at;
    }
  }

  lemma TakeNewLists(s: State, t: Tid, h: Thread, c: Class)
    requires ListsOk(s) && WordOk(s) && h == Of(s, t) && s.lists.pooled == 1
    ensures ListsOk(TakeNewStep(s, t, h, c)) && WordOk(TakeNewStep(s, t, h, c))
  {
  }

  /** Steps that leave the lists alone. */
  ghost predicate Plain(s: State, s': State) {
    s'.lists.link == s.lists.link && s'.lists.linked == s.lists.linked && (Kept(s') <==> Kept(s))
  }

  lemma PlainLists(s: State, s': State)
    requires ListsOk(s) && WordOk(s) && Plain(s, s')
    ensures ListsOk(s') && WordOk(s')
  {
  }

  lemma PlainFree(s: State, t: Tid, h: Thread)
    requires TokenOk(s) && StageOk(s, t) && EpochOk(s, t) && h == Of(s, t)
    requires Carrying(h.line) || h.line.AddRemote? || h.line.AddLocal? || Summed(h.line)
    ensures Plain(s, AdvanceLine(s, t, h))
  {
    if s.token.BuiltBy? { assert s.token.t != t; }
  }

  lemma PlainUse(s: State, t: Tid, h: Thread)
    requires TokenOk(s) && StageOk(s, t) && h == Of(s, t) && (OnHot(h.line) || h.line.TookLink? || h.line.PushLink?)
    ensures Plain(s, AdvanceLine(s, t, h))
  {
    if s.token.BuiltBy? { assert s.token.t != t; }
  }

  lemma PlainMark(s: State, t: Tid, h: Thread)
    requires TokenOk(s) && StageOk(s, t) && EpochOk(s, t) && h == Of(s, t)
    requires h.line.Acquire? || h.line.ResetLists? || h.line.MarkNew?
    ensures Plain(s, AdvanceLine(s, t, h))
  {
    if s.token.BuiltBy? && !Building(h.line) { assert s.token.t != t; }
  }

  lemma PlainChoice(s: State, a: Step, h: Thread)
    requires TokenOk(s) && StageOk(s, a.t) && h == Of(s, a.t) && Enabled(s, a)
    requires !a.Advance? && !a.PoolPush? && !a.TakeNew? && !a.TakeLink? && !a.Drain?
    ensures Plain(s, Next(s, a))
  {
    if s.token.BuiltBy? { assert s.token.t != a.t; }
  }

  lemma AdvanceLists(s: State, t: Tid, h: Thread)
    requires Inv(s) && ListsOk(s) && WordOk(s) && h == Of(s, t) && CanAdvance(s, t, h)
    ensures ListsOk(AdvanceLine(s, t, h)) <==> LinkFree(s, Advance(t))
    ensures ListsOk(AdvanceLine(s, t, h)) ==> WordOk(AdvanceLine(s, t, h))
  {
    assert ThreadOk(s, t);
    hide ListsOk, WordOk, Plain, PlacesOk, BlocksOk, EpochOk, WindowOk;
    hide Free1, Free2, Free3, Free4, Free5, Build, GetSpan, MoveIn, GiveUp;
    if h.line.PushInsert? {
      InsertLists(s, t, h);
    } else if h.line.RemoveLink? {
      RemoveLists(s, t, h);
    } else if h.line.ResetLink? || h.line.SetOwner? {
      BuildLists(s, t, h);
    } else {
      hide TokenOk, StageOk, AdvanceLine;
      if OnHot(h.line) || h.line.TookLink? || h.line.PushLink? {
        PlainUse(s, t, h);
      } else if h.line.Acquire? || h.line.ResetLists? || h.line.MarkNew? {
        PlainMark(s, t, h);
      } else {
        PlainFree(s, t, h);
      }
      PlainLists(s, AdvanceLine(s, t, h));
    }
  }

  lemma TakenKept(s: State, t: Tid, c: Class)
    requires StageOk(s, t) && Of(s, t).line.Idle?
    ensures Kept(TakeLinkStep(s, t, Of(s, t), c)) <==> Kept(s)
    ensures Kept(Next(s, Drain(t, c))) <==> Kept(s)
  {
    if s.token.BuiltBy? { assert s.token.t != t; }
  }

  /** One step: the lists stay in order if and only if the list that takes the span in, if there is one,
      finds its word null, and the pool does not keep it. */
  lemma StepLists(s: State, a: Step)
    requires Inv(s) && ListsOk(s) && WordOk(s) && Enabled(s, a)
    ensures ListsOk(Next(s, a)) <==> LinkFree(s, a)
    ensures ListsOk(Next(s, a)) ==> WordOk(Next(s, a))
  {
    var h := Of(s, a.t);
    assert ThreadOk(s, a.t);
    hide AdvanceLine, PlacesOk, BlocksOk, EpochOk, WindowOk, ListsOk, WordOk, Kept, Plain;
    match a {
      case Advance(t) => AdvanceLists(s, t, h);
      case PoolPush(t, bottom) => PoolPushLists(s, t, h, bottom);
      case TakeLink(t, c) =>
        TakenKept(s, t, c);
        TakeLists(s, Next(s, a), t, Slot(t, c));
      case Drain(t, c) =>
        TakenKept(s, t, c);
        TakeLists(s, Next(s, a), t, Slot(t, c));
      case TakeNew(t, c) => TakeNewLists(s, t, h, c);
      case _ =>
        PlainChoice(s, a, h);
        PlainLists(s, Next(s, a));
    }
  }

  // ----- what the code can test -----

  /** PushFront finds the word null and the span not marked full, and Span::Delete finds the word null, as
      src/span.h:154-155 assert. */
  ghost predicate Guarded(s: State, a: Step) {
    && (Inserts(s, a) ==> s.lists.link.Null? && !s.epoch.mark.Full?)
    && (a.PoolPush? ==> s.lists.link.Null?)
  }

  /** The word is null whenever a list takes the span in. */
  ghost predicate NullSeen(s: State, a: Step) {
    Inserts(s, a) || a.PoolPush? ==> s.lists.link.Null?
  }

  lemma GuardSuffices(s: State, a: Step)
    requires Inv(s) && Guarded(s, a)
    ensures LinkFree(s, a)
  {
    assert ThreadOk(s, a.t);
  }

  // ----- runs -----

  /** The lists are in order in every state of the run. */
  ghost predicate AlwaysListed(s: State, steps: seq<Step>)
    decreases |steps|
  {
    ListsOk(s) && (steps == [] || AlwaysListed(Next(s, steps[0]), steps[1..]))
  }

  ghost predicate AlwaysGuarded(s: State, steps: seq<Step>)
    decreases |steps|
  {
    steps == [] || (Guarded(s, steps[0]) && AlwaysGuarded(Next(s, steps[0]), steps[1..]))
  }

  ghost predicate AlwaysNull(s: State, steps: seq<Step>)
    decreases |steps|
  {
    steps == [] || (NullSeen(s, steps[0]) && AlwaysNull(Next(s, steps[0]), steps[1..]))
  }

  lemma {:induction false} RunTests(s: State, steps: seq<Step>)
    requires Inv(s) && ListsOk(s) && WordOk(s) && Run(s, steps)
    ensures AlwaysGuarded(s, steps) ==> AlwaysListed(s, steps)
    ensures AlwaysListed(s, steps) ==> AlwaysNull(s, steps)
    decreases |steps|
  {
    hide Inv, ListsOk, WordOk, Next, Enabled, OwnerAsserted, Guarded;
    if steps != [] {
      StepInv(s, steps[0]);
      StepLists(s, steps[0]);
      if Guarded(s, steps[0]) { GuardSuffices(s, steps[0]); }
      if LinkFree(s, steps[0]) {
        RunTests(Next(s, steps[0]), steps[1..]);
      } else if AlwaysListed(Next(s, steps[0]), steps[1..]) {
        assert false;
      }
    }
  }

  lemma InitLists(s: State)
    requires Init(s)
    ensures ListsOk(s) && WordOk(s)
  {
  }

  /** In a run that meets the assertion of src/core.h:112: if every PushFront and every Delete passes its
      test, the pool and the deques never disturb each other; and as long as they do not, the word is null
      whenever a list takes the span in. */
  lemma WordTests(s: State, steps: seq<Step>)
    requires Init(s) && Run(s, steps)
    ensures AlwaysGuarded(s, steps) ==> AlwaysListed(s, steps)
    ensures AlwaysListed(s, steps) ==> AlwaysNull(s, steps)
  {
    InitInv(s);
    InitLists(s);
    RunTests(s, steps);
  }

  lemma {:induction false} RunListed(s: State, steps: seq<Step>)
    requires Inv(s) && ListsOk(s) && WordOk(s) && Run(s, steps) && AlwaysListed(s, steps)
    ensures ListsOk(After(s, steps)) && WordOk(After(s, steps))
    decreases |steps|
  {
    hide Inv, WordOk, Next, Enabled, OwnerAsserted;
    if steps != [] {
      StepInv(s, steps[0]);
      StepLists(s, steps[0]);
      RunListed(Next(s, steps[0]), steps[1..]);
    }
  }

  /** The span is never in the pool and in a deque at once, nor in two deques, nor twice in one, if every
      PushFront and every Delete passes its test; and a deque that holds it has its word. */
  lemma OneList(s0: State, steps: seq<Step>)
    requires Init(s0) && Run(s0, steps) && AlwaysGuarded(s0, steps)
    ensures var l := After(s0, steps).lists;
      && l.pooled + |l.linked| <= 1
      && (forall at: Slot :: at in l.linked <==> l.link == Ring(at))
  {
    InitInv(s0);
    InitLists(s0);
    RunTests(s0, steps);
    RunInv(s0, steps);
    RunListed(s0, steps);
    hide Init, Run, After, AlwaysListed, AlwaysGuarded;
    OneOfAll(After(s0, steps));
  }

  lemma OneOfAll(s: State)
    requires TokenOk(s) && ListsOk(s) && WordOk(s)
    ensures s.lists.pooled + |s.lists.linked| <= 1
    ensures forall at: Slot :: at in s.lists.linked <==> s.lists.link == Ring(at)
  {
    if at :| at in s.lists.linked {
      assert forall u: Slot :: u in s.lists.linked ==> u == at;
      assert s.lists.linked == multiset{at};
    } else {
      assert s.lists.linked == multiset{};
    }
  }
}
