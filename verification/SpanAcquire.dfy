/** What the assertion of src/core.h:112 is worth: when NewMarkHot has succeeded in GetSpan, the span can
    still come to two writers of its local list exactly if the owner is not the core that took it. */
module SpanAcquire {
  import opened Epochs
  import opened SpanProtocol
  import opened SpanSafety
  import opened SpanHousing
  import opened SpanLinks
  import opened SpanReach
  import opened SpanRuns
  import opened SpanTheorems

  lemma InvNotBroken(s: State)
    requires Inv(s)
    ensures !Broken(s)
  {
    forall t: Tid, u: Tid | WritesLocalList(s, t) && WritesLocalList(s, u) ensures t == u {
      InvOneWriter(s, t, u);
    }
  }

  /** The success of NewMarkHot is about to hand the span to t. */
  ghost predicate Acquires(s: State, t: Tid) {
    Enabled(s, Advance(t)) && Of(s, t).line.Acquire? && NewMarkHot(s.epoch, Of(s, t).e).ok
  }

  lemma AcquireNext(s: State, t: Tid)
    requires Acquires(s, t)
    ensures var q := Next(s, Advance(t));
      && q.place == s.place && q.len == s.len && q.tag == s.tag && q.owner == s.owner && q.dead == s.dead
      && q.class_ == s.class_ && q.lists == s.lists && q.token.HotBy? && q.hot == s.hot + {Slot(t, Of(s, t).c)}
      && Of(q, t) == Of(s, t).(line := Collect) && (forall u: Tid :: u != t ==> Of(q, u) == Of(s, u))
      && q.threads.Keys == s.threads.Keys + {t}
      && q.epoch.mark.Hot? && s.epoch.Rank() < q.epoch.Rank() && !s.epoch.Exclusive()
  {
  }

  /** At rest the span belongs to nobody, and no block is on its way to the local list. */
  lemma AcquiredBlock(s: State, t: Tid, b: Block)
    requires Acquires(s, t) && s.token.Shared? && b in s.place
    requires forall u: Tid :: StageOk(s, u) && BlocksOk(s, u) && (Of(s, u).line.PushLocal? ==> s.owner == u)
    ensures b in Next(s, Advance(t)).place && BlockOk(Next(s, Advance(t)), t, b)
  {
    AcquireNext(s, t);
    hide Next;
    if s.place[b].Flight? || s.place[b].Moving? {
      assert StageOk(s, s.place[b].t) && BlocksOk(s, s.place[b].t);
      assert b in At(s.place, s.place[b]);
    }
  }

  lemma AcquiredReady(s: State, t: Tid)
    requires Inv(s) && Housed(s) && Acquires(s, t) && s.owner != t
    ensures Ready(Next(s, Advance(t)), t, Of(s, t).c)
    ensures s.place.Keys == Blocks(s.class_.objects) && s.class_.threshold < s.class_.objects && s.hot == {}
  {
    AcquireNext(s, t);
    assert ThreadOk(s, t) && ThreadHoused(s, t);
    assert s.token.Shared? && s.class_ in s.lists.classes;
    assert 0 in s.place && t !in s.dead;
    forall u: Tid ensures StageOk(s, u) && BlocksOk(s, u) && (Of(s, u).line.PushLocal? ==> s.owner == u) {
      assert ThreadOk(s, u);
    }
    hide Next, StageOk, BlocksOk, Acquires, BlockOk, Housed;
    forall b | b in s.place ensures BlockOk(Next(s, Advance(t)), t, b) {
      AcquiredBlock(s, t, b);
    }
  }

  /** The word of the span is null, and no PushFront of it is under way. */
  ghost predicate Unlinked(s: State) {
    s.lists.link.Null? && s.lists.locked == map[]
  }

  lemma AcquiredCalm(s: State, t: Tid)
    requires Inv(s) && ListsOk(s) && Acquires(s, t) && Unlinked(s)
    ensures Calm(Next(s, Advance(t)))
  {
    AcquireNext(s, t);
    assert ThreadOk(s, t);
    assert s.token.Shared?;
    forall at: Slot ensures at !in s.lists.linked {
    }
    assert s.lists.linked == multiset{};
    hide Next;
  }

  lemma LateOwner(s: State, q: State, x: Tid)
    requires StageOk(s, x) && EpochOk(s, x) && s.token.Shared? && Of(q, x) == Of(s, x) && !Of(s, x).line.PushInsert?
    requires q.place == s.place && q.dead == s.dead && s.epoch.Rank() < q.epoch.Rank()
    requires Of(s, x).line.PushRemote? ==> Of(s, x).p in s.place && s.place[Of(s, x).p] == Flight(x)
    ensures Late(q, x) || (Carrying(Of(q, x).line) && !Of(q, x).line.PushRemote?)
  {
  }

  lemma AcquiredOwner(s: State, t: Tid)
    requires Inv(s) && Housed(s) && Acquires(s, t) && Unlinked(s) && s.owner != t && s.owner !in s.dead
    ensures var q, x := Next(s, Advance(t)), s.owner;
      Late(q, x) || (Carrying(Of(q, x).line) && !Of(q, x).line.PushRemote?)
    ensures s.owner in s.lists.leaving ==> Of(s, s.owner).line.Idle? && s.owner in s.threads
  {
    var x := s.owner;
    AcquireNext(s, t);
    assert ThreadOk(s, t) && ThreadOk(s, x) && ThreadHoused(s, x);
    assert s.token.Shared?;
    hide Inv, TokenOk, PlacesOk, StageOk, EpochOk, WindowOk, Late, Acquires, Next;
    if Of(s, x).line.PushRemote? {
      Held(s, x, Of(s, x));
    }
    LateOwner(s, Next(s, Advance(t)), x);
    assert x in s.lists.leaving ==> Of(s, x).line.Idle? by {
      NotFloating(s, x);
    }
  }

  lemma NotFloating(s: State, x: Tid)
    requires StageOk(s, x) && s.token.Shared?
    ensures !Of(s, x).line.LoadFloat? && !Of(s, x).line.StoreFloating?
  {
  }

  /** If another core owns the span, two local writers are within reach, without disorder in the lists. */
  lemma Reaches(s: State, t: Tid) returns (end: State)
    requires Inv(s) && Housed(s) && ListsOk(s) && Acquires(s, t) && Unlinked(s) && s.owner != t
    ensures Leads(Next(s, Advance(t)), end, Tested) && Broken(end)
  {
    var q, x, c := Next(s, Advance(t)), s.owner, Of(s, t).c;
    AcquiredReady(s, t);
    AcquiredCalm(s, t);
    AcquireNext(s, t);
    Stays(q, Tested);
    if x in s.dead {
      hide Leads, Ready, Calm, Acquires, Next, Inv, Housed, Broken;
      end := DeadOwner(q, q, t, c);
    } else {
      AcquiredOwner(s, t);
      hide Leads, Ready, Calm, Acquires, Next, Inv, Housed, Late;
      if !Late(q, x) {
        end := ToPush(q, q, t, c, x);
        TwoWrite(end, t, c, x);
      } else if x in s.lists.leaving {
        end := Ends(q, q, t, c, x);
        end := DeadOwner(q, end, t, c);
      } else {
        end := ToRest(q, q, t, c, x);
        end := LiveOwner(q, end, t, c);
      }
    }
  }

  lemma {:induction false} Laxer(s: State, end: State)
    requires Leads(s, end, Tested)
    ensures Leads(s, end, Orderly)
  {
    var steps: seq<Step>, trace: seq<State> :| Trace(s, steps, trace, end, Tested);
    hide Next, Enabled, OwnerAsserted, LinkFree, Guarded;
    forall i: nat | i < |steps| ensures Moves(trace, steps, i, Orderly) {
      assert Moves(trace, steps, i, Tested);
    }
    assert Trace(s, steps, trace, end, Orderly);
  }

  /** If the core that takes the span owns it, there is never more than one writer of the local list
      afterwards, however the run goes on within the assertion and with the lists in order. */
  lemma AcquireSound(s0: State, s: State, t: Tid, end: State)
    requires Init(s0) && Leads(s0, s, Orderly) && Acquires(s, t) && s.owner == t
    requires Leads(Next(s, Advance(t)), end, Orderly)
    ensures !Broken(end)
  {
    assert Enabled(s, Advance(t)) && OwnerAsserted(s, Advance(t));
    InitInv(s0);
    InitLists(s0);
    hide Init, Inv, ListsOk, WordOk, Leads, Next, Broken, Acquires, Enabled, OwnerAsserted;
    LeadsInv(s0, s, Orderly);
    StepInv(s, Advance(t));
    StepLists(s, Advance(t));
    QuietAcquire(s, t);
    LeadsInv(Next(s, Advance(t)), end, Orderly);
    InvNotBroken(end);
  }

  lemma QuietAcquire(s: State, t: Tid)
    requires Acquires(s, t)
    ensures LinkFree(s, Advance(t))
  {
  }

  /** After any run that meets the assertion of src/core.h:112 and keeps the lists in order: when NewMarkHot
      succeeds for t, with the word of the span null as RemoveBack left it and no PushFront under way, then
      however such a run goes on there is never more than one writer of the local list, if and only if t
      owns the span. */
  lemma AcquireSoundIff(s0: State, s: State, t: Tid)
    requires Init(s0) && Leads(s0, s, Orderly) && Acquires(s, t) && Unlinked(s)
    ensures (forall end: State :: Leads(Next(s, Advance(t)), end, Orderly) ==> !Broken(end)) <==> s.owner == t
  {
    hide Init, Inv, Housed, Trace, After, Broken, Next, Acquires, ListsOk, WordOk, Unlinked;
    var steps: seq<Step>, trace: seq<State> :| Trace(s0, steps, trace, s, Orderly);
    TraceRuns(s0, steps, trace, s, Orderly);
    InitInv(s0);
    InitHoused(s0);
    InitLists(s0);
    TraceListed(s0, steps, trace, s, Orderly);
    RunHoused(s0, steps);
    if s.owner == t {
      forall end | Leads(Next(s, Advance(t)), end, Orderly) ensures !Broken(end) {
        AcquireSound(s0, s, t, end);
      }
    } else {
      var end := Reaches(s, t);
      Laxer(Next(s, Advance(t)), end);
    }
  }
}
