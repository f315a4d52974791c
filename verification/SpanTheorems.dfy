/** What holds in every run of one span that meets the assertion of src/core.h:112 and in which pool and
    deques stay in order. SpanLinks and SpanMarks say when they do; SpanCounterexample and SpanAcquire show
    what goes wrong otherwise. */
module SpanTheorems {
  import opened Epochs
  import opened SpanProtocol
  import opened SpanSafety
  import opened SpanLinks
  import opened SpanMarks

  ghost predicate OrderlyRun(s: State, steps: seq<Step>) {
    Run(s, steps) && AlwaysListed(s, steps)
  }

  ghost predicate Reachable(s: State) {
    exists s0: State, steps: seq<Step> :: Init(s0) && OrderlyRun(s0, steps) && After(s0, steps) == s
  }

  lemma ReachableInv(s: State)
    requires Reachable(s)
    ensures Inv(s)
  {
    var s0: State, steps: seq<Step> :| Init(s0) && OrderlyRun(s0, steps) && After(s0, steps) == s;
    InitInv(s0);
    RunInv(s0, steps);
  }

  ghost predicate ReachableInTime(s: State) {
    exists s0: State, steps: seq<Step> :: Init(s0) && Run(s0, steps) && AlwaysInTime(s0, steps) && After(s0, steps) == s
  }

  lemma ReachableMarks(s: State)
    requires ReachableInTime(s)
    ensures Inv(s) && MarksOk(s)
  {
    hide Init, Run, AlwaysInTime, After, AlwaysListed, AlwaysNull, Inv, ListsOk, WordOk, MarksOk;
    var s0: State, steps: seq<Step> :| Init(s0) && Run(s0, steps) && AlwaysInTime(s0, steps) && After(s0, steps) == s;
    InitInv(s0);
    InitLists(s0);
    InitMarks(s0);
    RunMarks(s0, steps);
    RunInv(s0, steps);
  }

  /** If every step is in time, a deque that holds the span is the one of its live owner and its class, and
      the span is reusable or on its way out. */
  lemma LinkedIsReusable(s: State, at: Slot)
    requires ReachableInTime(s) && at in s.lists.linked
    ensures at == Slot(s.owner, s.class_) && s.owner !in s.dead && (s.epoch.IsReusable() || Removing(s))
  {
    ReachableMarks(s);
    hide ReachableInTime;
  }

  /** If every step is in time, and the owner asserted, the span that NewMarkHot wins in GetSpan has the size
      class of the slot it goes to, and is in no deque. */
  lemma AcquireFits(s: State, t: Tid)
    requires ReachableInTime(s)
    requires Of(s, t).line.Acquire? && NewMarkHot(s.epoch, Of(s, t).e).ok && s.owner == t
    ensures Next(s, Advance(t)).hot == {Slot(t, s.class_)} && s.lists.linked == multiset{}
  {
    hide ReachableInTime, Next, Inv, MarksOk;
    ReachableMarks(s);
    WinnerFits(s, t);
  }

  lemma WinnerFits(s: State, t: Tid)
    requires Inv(s) && MarksOk(s) && Of(s, t).line.Acquire? && NewMarkHot(s.epoch, Of(s, t).e).ok && s.owner == t
    ensures Next(s, Advance(t)).hot == {Slot(t, s.class_)} && s.lists.linked == multiset{}
  {
    assert ThreadOk(s, t);
    assert TookOk(s, t);
    assert s.token.Shared?;
  }

  /** The compare-and-swap of src/core.h:194 is next and will succeed. */
  ghost predicate WillReclaim(s: State, t: Tid) {
    var h := Of(s, t);
    && h.line.MarkFreed? && h.n == h.c.objects && !h.e.Exclusive()
    && NewMarkFull(s.epoch, h.e).ok
  }

  /** Safe reclamation: when the last free wins the full mark, every block is in one of the two free
      lists, although the count it acted on is the sum of two reads made at different times. */
  lemma SafeReclamation(s: State, t: Tid)
    requires Reachable(s) && WillReclaim(s, t)
    ensures AllFree(s.place) && s.place.Keys == Blocks(s.class_.objects)
    ensures s.hot == {} && s.lists.pooled == 0
    ensures forall u: Tid :: !Carrying(Of(s, u).line) && !OnHot(Of(s, u).line)
  {
    ReachableInv(s);
    hide Reachable;
    assert ThreadOk(s, t);
    CountedAll(s);
    assert s.token.Shared?;
    forall u: Tid ensures !Carrying(Of(s, u).line) && !OnHot(Of(s, u).line) {
      assert ThreadOk(s, u);
      hide WindowOk, EpochOk, TokenOk, OnHot, Carrying, WillReclaim;
      if Carrying(Of(s, u).line) {
        Held(s, u, Of(s, u));
      }
    }
  }

  /** At most one thread uses a span; while it does, no step of another thread changes the epoch, so
      the store in NewMarkFloating overwrites the very word it loaded. */
  lemma OneAllocator(s: State, at: Slot, a: Step)
    requires Reachable(s) && at in s.hot
    requires Enabled(s, a) && OwnerAsserted(s, a) && LinkFree(s, a)
    ensures s.hot == {at} && s.owner == at.t && at.t !in s.dead && s.epoch.Exclusive() && s.lists.pooled == 0
    ensures a.t != at.t ==> Next(s, a).epoch == s.epoch && Next(s, a).hot == {at}
    ensures Of(s, at.t).line.StoreFloating? ==> Of(s, at.t).e == s.epoch
  {
    ReachableInv(s);
    assert ThreadOk(s, at.t);
    hide AdvanceLine, PlacesOk, BlocksOk, WindowOk, Control, Moved;
    StepInv(s, a);
  }

  lemma StepRank(s: State, a: Step)
    requires Inv(s) && Enabled(s, a) && OwnerAsserted(s, a)
    ensures Next(s, a).epoch == s.epoch || s.epoch.Rank() < Next(s, a).epoch.Rank()
  {
    hide Next, Enabled, OwnerAsserted, TokenOk, PlacesOk, Control, Moved;
    StepInv(s, a);
  }

  lemma ReclaimCounts(s: State, t: Tid)
    requires WillReclaim(s, t)
    ensures Next(s, Advance(t)).epoch == Epoch(s.epoch.count + 1, Full)
    ensures Next(s, Advance(t)).token == DeletedBy(t)
  {
  }

  lemma {:induction false} RunRank(s: State, steps: seq<Step>)
    requires Inv(s) && Run(s, steps)
    ensures Inv(After(s, steps))
    ensures After(s, steps).epoch == s.epoch || s.epoch.Rank() < After(s, steps).epoch.Rank()
    decreases |steps|
  {
    hide Inv, Next, Enabled, OwnerAsserted, Epoch.Rank;
    if steps != [] {
      StepInv(s, steps[0]);
      StepRank(s, steps[0]);
      RunRank(Next(s, steps[0]), steps[1..]);
    }
  }

  /** The epoch word never recurs once it has changed, through any number of trips through the pool. */
  lemma RankGrows(s: State, steps: seq<Step>)
    requires Reachable(s) && OrderlyRun(s, steps)
    ensures After(s, steps).epoch == s.epoch || s.epoch.Rank() < After(s, steps).epoch.Rank()
  {
    ReachableInv(s);
    RunRank(s, steps);
  }

  /** Some thread won the full mark during the run. */
  ghost predicate Deleted(s: State, steps: seq<Step>)
    decreases |steps|
  {
    steps != [] && ((steps[0].Advance? && WillReclaim(s, steps[0].t)) || Deleted(Next(s, steps[0]), steps[1..]))
  }

  lemma {:induction false} RunDeleted(s: State, steps: seq<Step>)
    requires Inv(s) && Run(s, steps) && Deleted(s, steps)
    ensures s.epoch.count < After(s, steps).epoch.count
    decreases |steps|
  {
    var s' := Next(s, steps[0]);
    StepInv(s, steps[0]);
    StepRank(s, steps[0]);
    if Deleted(s', steps[1..]) {
      RunDeleted(s', steps[1..]);
    } else {
      ReclaimCounts(s, steps[0].t);
      RunRank(s', steps[1..]);
    }
  }

  /** A mark with an epoch loaded before the span was deleted fails ever after. */
  lemma StaleEpochsDie(s: State, steps: seq<Step>, e: Epoch)
    requires Reachable(s) && OrderlyRun(s, steps) && Deleted(s, steps) && e.count <= s.epoch.count
    ensures var now := After(s, steps).epoch;
      && e.count < now.count
      && !NewMarkFull(now, e).ok && !NewMarkReuse(now, e).ok && !NewMarkHot(now, e).ok && !TryMarkFloating(now, e).ok
  {
    ReachableInv(s);
    RunDeleted(s, steps);
  }

  // ----- ownership -----

  /** While its owner lives, only a thread that rebuilds the span gives it another one. */
  lemma OwnerStays(s: State, a: Step)
    requires Reachable(s) && Enabled(s, a) && OwnerAsserted(s, a) && LinkFree(s, a) && s.owner !in s.dead
    ensures Next(s, a).owner == s.owner || s.token == BuiltBy(a.t)
  {
    ReachableInv(s);
    StepInv(s, a);
  }

  lemma {:induction false} RunOwner(s: State, steps: seq<Step>, o: Tid)
    requires Inv(s) && Run(s, steps) && o in s.dead && s.owner != o
    ensures After(s, steps).owner != o
    decreases |steps|
  {
    hide Inv, Next, Enabled, OwnerAsserted;
    if steps != [] {
      StepInv(s, steps[0]);
      NewOwner(s, steps[0]);
      RunOwner(Next(s, steps[0]), steps[1..], o);
    }
  }

  /** Adoption has one winner: once a dead owner is replaced it never owns the span again, so every
      later TryReviveNew with it fails. */
  lemma OneReviver(s: State, steps: seq<Step>, o: Tid)
    requires Reachable(s) && OrderlyRun(s, steps) && o in s.dead && s.owner != o
    ensures After(s, steps).owner != o
  {
    ReachableInv(s);
    RunOwner(s, steps, o);
  }

  lemma NewOwner(s: State, a: Step)
    requires Enabled(s, a)
    ensures Next(s, a).owner == s.owner || (Next(s, a).owner == a.t && a.t !in s.dead)
    ensures s.dead <= Next(s, a).dead
  {
  }

  /** The core of thread t has the span in a hot slot. */
  ghost predicate Uses(s: State, t: Tid) {
    exists at: Slot :: at in s.hot && at.t == t
  }

  /** Threads that write list_ and len_ of the local free list. */
  ghost predicate WritesLocalList(s: State, t: Tid) {
    Uses(s, t) || Of(s, t).line.PushLocal? || s.token == BuiltBy(t)
  }

  lemma InvOneWriter(s: State, t: Tid, u: Tid)
    requires Inv(s) && WritesLocalList(s, t) && WritesLocalList(s, u)
    ensures t == u
  {
    assert ThreadOk(s, t) && ThreadOk(s, u);
  }

  /** Nobody writes the local list while somebody else may. */
  lemma OneLocalWriter(s: State, t: Tid, u: Tid)
    requires Reachable(s) && WritesLocalList(s, t) && WritesLocalList(s, u)
    ensures t == u
  {
    ReachableInv(s);
    InvOneWriter(s, t, u);
  }
}
