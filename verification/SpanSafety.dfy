/** What every run of SpanProtocol keeps, and what follows: one exclusive user at a time, safe
    reclamation, death of stale epochs, one winner per adoption. */
module SpanSafety {
  import opened Epochs
  import opened SpanProtocol

  // ----- the parts of a thread -----

  /** Lines of Core::Free that hold the block. */
  predicate Carrying(l: Line) {
    l.LoadEpoch? || l.LoadOwner? || l.LoadClass? || l.Choose? || l.PushLocal? || l.PushRemote?
  }

  /** Lines of Core::Free between the load of owner_ and the last mark. */
  predicate Owned(l: Line) {
    Classed(l) || l.LoadClass?
  }

  predicate Classed(l: Line) {
    Summed(l) || l.Choose? || l.PushLocal? || l.PushRemote? || l.AddRemote? || l.AddLocal?
  }

  predicate Summed(l: Line) {
    l.CheckOwner? || l.Revive? || l.FloatRevived? || l.MarkFreed?
  }

  /** Lines of Core::Allocate on the hot span. */
  predicate OnHot(l: Line) {
    Shifting(l) || l.Collect? || l.Popping? || l.CheckFree? || l.LoadFloat? || l.StoreFloating?
  }

  /** Lines between PopAll and the last block moved. */
  predicate Shifting(l: Line) {
    l.Move? || l.MoveEach?
  }

  /** Lines of the constructor. */
  predicate Building(l: Line) {
    l.ResetLink? || l.SetOwner? || l.ResetLists? || l.MarkNew?
  }

  /** Lines that carry an epoch to a later compare-and-swap. */
  predicate Timed(l: Line) {
    Owned(l) || l.LoadOwner? || l.Acquire?
  }

  // ----- the invariant -----

  ghost predicate TokenOk(s: State) {
    && (s.token.Shared? ==> !s.epoch.Exclusive())
    && (s.token.HotBy? ==> s.epoch.Exclusive() && s.owner == s.token.t && s.owner !in s.dead)
    && (s.token.DeletedBy? || s.token.InPool? ==> s.epoch.mark.Full?)
    && (s.token.BuiltBy? ==> s.epoch.mark.Full? || s.epoch == Epoch(0, Floating))
    && s.hot == (if s.token.HotBy? then {Slot(s.token.t, s.token.c)} else {})
    && s.lists.pooled == (if s.token.InPool? then 1 else 0)
    && (s.lists.linked != multiset{} ==> s.epoch.count > 0)
  }

  ghost predicate Idling(s: State) {
    s.token.DeletedBy? || s.token.InPool? || s.token.BuiltBy?
  }

  ghost predicate PlacesOk(s: State) {
    && s.place.Keys == Blocks(s.class_.objects)
    && s.len == |At(s.place, Local)|
    && s.tag == |At(s.place, Remote)|
    && (Idling(s) ==> AllFree(s.place))
  }

  ghost predicate StageOk(s: State, t: Tid) {
    var h := Of(s, t);
    && (!h.line.Idle? ==> t !in s.dead)
    && (h.line.RemoveLink? || h.line.Delete? <==> s.token == DeletedBy(t))
    && (Building(h.line) <==> s.token == BuiltBy(t))
    && (h.line.ResetLists? || h.line.MarkNew? ==> s.owner == t)
    && (OnHot(h.line) ==> s.token == HotBy(t, h.c))
    && (h.line.StoreFloating? ==> h.e == s.epoch)
    && (Carrying(h.line) ==> !Idling(s))
    && (h.line.TookLink? || h.line.PushLink? || h.line.PushInsert? ==> s.epoch.count > 0)
  }

  ghost predicate BlocksOk(s: State, t: Tid) {
    var h := Of(s, t);
    && At(s.place, Flight(t)) == (if Carrying(h.line) then {h.p} else {})
    && |At(s.place, Moving(t))| == (if Shifting(h.line) then h.n else 0)
  }

  ghost predicate EpochOk(s: State, t: Tid) {
    var h := Of(s, t);
    && (Timed(h.line) ==> h.e == s.epoch || h.e.Rank() < s.epoch.Rank())
    && (h.line.Acquire? ==> s.epoch.count > 0)
    && (Timed(h.line) && !h.line.Acquire? && Idling(s) ==> h.e.count < s.epoch.count)
    && (Owned(h.line) && h.e == s.epoch && h.e.Exclusive() ==> s.token.HotBy? && h.o == s.owner)
    && (h.line.Revive? || h.line.FloatRevived? ==> h.o in s.dead)
    && (h.line.PushLocal? ==> s.owner == t)
  }

  ghost predicate WindowOk(s: State, t: Tid) {
    var h := Of(s, t);
    && (Classed(h.line) && h.e.count == s.epoch.count ==> h.c == s.class_)
    && (h.e == s.epoch && !h.e.Exclusive() ==>
          && (h.line.AddRemote? ==> h.n <= s.len)
          && (h.line.AddLocal? ==> h.n <= s.tag)
          && (Summed(h.line) ==> h.n <= s.len + s.tag))
  }

  ghost predicate ThreadOk(s: State, t: Tid) {
    StageOk(s, t) && BlocksOk(s, t) && EpochOk(s, t) && WindowOk(s, t)
  }

  ghost predicate AllFree(place: map<Block, Place>) {
    forall b :: b in place ==> place[b] == Local || place[b] == Remote
  }

  ghost predicate Inv(s: State) {
    TokenOk(s) && PlacesOk(s) && forall t: Tid :: ThreadOk(s, t)
  }

  lemma InitInv(s: State)
    requires Init(s)
    ensures Inv(s)
  {
    assert Blocks(0) == {};
    hide Blocks, AllFree;
    forall t: Tid ensures ThreadOk(s, t) {
      assert At(s.place, Flight(t)) == {} && At(s.place, Moving(t)) == {};
    }
    assert At(s.place, Local) == {} && At(s.place, Remote) == {};
  }

  // ----- counting -----

  lemma Elsewhere(place: map<Block, Place>, p: Block, to: Place, l: Place)
    requires p in place && l != place[p] && l != to
    ensures At(place[p := to], l) == At(place, l)
  {
    assert forall b :: b in At(place[p := to], l) <==> b in At(place, l);
  }

  lemma Arrived(place: map<Block, Place>, p: Block, to: Place)
    requires p in place && place[p] != to
    ensures At(place[p := to], to) == At(place, to) + {p}
    ensures |At(place[p := to], to)| == |At(place, to)| + 1
    ensures At(place[p := to], place[p]) == At(place, place[p]) - {p}
    ensures |At(place[p := to], place[p])| == |At(place, place[p])| - 1
  {
    assert p !in At(place, to) && p in At(place, place[p]);
  }

  /** A block goes from one place to another: what the four counted places hold afterwards. */
  lemma Placed(place: map<Block, Place>, p: Block, to: Place, t: Tid)
    requires p in place && place[p] != to && NotOthers(place[p], t) && NotOthers(to, t)
    ensures var place' := place[p := to];
      && RelyPlaces(place, place', t) && place'.Keys == place.Keys
      && |At(place', Local)| == |At(place, Local)| + Change(place[p], to, Local)
      && |At(place', Remote)| == |At(place, Remote)| + Change(place[p], to, Remote)
      && |At(place', Moving(t))| == |At(place, Moving(t))| + Change(place[p], to, Moving(t))
      && (place[p].Flight? && At(place, Flight(t)) == {p} ==> At(place', Flight(t)) == {})
      && (to.Flight? && At(place, Flight(t)) == {} ==> At(place', Flight(t)) == {p})
      && (!place[p].Flight? && !to.Flight? ==> At(place', Flight(t)) == At(place, Flight(t)))
  {
    Arrived(place, p, to);
    forall l | l != place[p] && l != to ensures At(place[p := to], l) == At(place, l) {
      Elsewhere(place, p, to, l);
    }
  }

  function Change(from: Place, to: Place, l: Place): int {
    if from == l then -1 else if to == l then 1 else 0
  }

  predicate NotOthers(l: Place, t: Tid) {
    (l.Flight? ==> l.t == t) && (l.Moving? ==> l.t == t)
  }

  /** All blocks of one place go to another. */
  lemma Relocated(place: map<Block, Place>, from: Place, to: Place, t: Tid)
    requires from != to && NotOthers(from, t) && NotOthers(to, t)
    ensures var place' := Relocate(place, from, to);
      && RelyPlaces(place, place', t) && place'.Keys == place.Keys
      && |At(place', to)| == |At(place, to)| + |At(place, from)|
      && At(place', from) == {}
      && forall l :: l != from && l != to ==> At(place', l) == At(place, l)
  {
    RelocatedAll(place, from, to);
    forall l | l != from && l != to ensures At(Relocate(place, from, to), l) == At(place, l) {
      Unrelocated(place, from, to, l);
    }
  }

  lemma RelocatedAll(place: map<Block, Place>, from: Place, to: Place)
    requires from != to
    ensures var place' := Relocate(place, from, to);
      |At(place', to)| == |At(place, to)| + |At(place, from)| && At(place', from) == {}
  {
    assert At(Relocate(place, from, to), to) == At(place, to) + At(place, from);
    assert At(place, to) !! At(place, from);
  }

  lemma Unrelocated(place: map<Block, Place>, from: Place, to: Place, l: Place)
    requires l != from && l != to
    ensures At(Relocate(place, from, to), l) == At(place, l)
  {
    assert forall b :: b in At(Relocate(place, from, to), l) <==> b in At(place, l);
  }

  // ----- what a step of t may do to the other threads -----

  /** The part of a step of thread t that every other thread relies on. */
  ghost predicate Rely(s: State, s': State, t: Tid) {
    && s'.threads == s.threads[t := Of(s', t)]
    && (s'.dead == s.dead || s'.dead == s.dead + {t})
    && (s'.token == s.token || (Mine(s.token, t) && Mine(s'.token, t)))
    && (s'.epoch == s.epoch || s.epoch.Rank() < s'.epoch.Rank())
    && (s'.epoch == s.epoch && s.token.HotBy? ==> s'.token == s.token)
    && (s'.epoch != s.epoch ==> s.token.HotBy? ==> s.token.t == t)
    && (s'.owner == s.owner || s.owner in s.dead || s.token == BuiltBy(t))
    && (Idling(s') && !Idling(s) ==> s.epoch.count < s'.epoch.count && AllFree(s.place))
    && (s'.class_ == s.class_ || Idling(s))
    && (s'.epoch == s.epoch && !s.epoch.Exclusive() && !Idling(s) ==> s.len <= s'.len && s.tag <= s'.tag)
  }

  predicate Mine(token: Token, t: Tid) {
    token.Shared? || token.InPool? || token.t == t
  }

  ghost predicate RelyPlaces(place: map<Block, Place>, place': map<Block, Place>, t: Tid) {
    forall u :: u != t ==>
      At(place', Flight(u)) == At(place, Flight(u)) && At(place', Moving(u)) == At(place, Moving(u))
  }

  /** What a thread's own lines need, apart from the blocks. */
  ghost predicate Control(s: State, t: Tid) {
    TokenOk(s) && StageOk(s, t) && EpochOk(s, t) && WindowOk(s, t)
  }

  lemma OtherStage(s: State, s': State, t: Tid, u: Tid)
    requires Control(s, u) && BlocksOk(s, u) && Rely(s, s', t) && u != t
    ensures StageOk(s', u)
  {
    if Carrying(Of(s, u).line) {
      assert Of(s, u).p in At(s.place, Flight(u));
    }
  }

  lemma OtherEpoch(s: State, s': State, t: Tid, u: Tid)
    requires Control(s, u) && Rely(s, s', t) && u != t
    ensures EpochOk(s', u) && WindowOk(s', u)
  {
  }

  lemma Keep(s: State, s': State, t: Tid)
    requires Inv(s) && Rely(s, s', t) && Control(s', t) && Moved(s, s', t)
    ensures Inv(s')
  {
    forall u: Tid ensures ThreadOk(s', u) {
      assert ThreadOk(s, u);
      if u != t {
        OtherStage(s, s', t, u);
        OtherEpoch(s, s', t, u);
      }
    }
  }

  // ----- steps on the blocks -----

  function MovingCount(h: Thread): int {
    if Shifting(h.line) then h.n else 0
  }

  /** A step that moves no block. */
  ghost predicate Still(s: State, s': State, t: Tid) {
    var h := Of(s, t);
    var h' := Of(s', t);
    && s'.place == s.place && s'.class_ == s.class_ && s'.len == s.len && s'.tag == s.tag
    && (Carrying(h.line) <==> Carrying(h'.line)) && (Carrying(h.line) ==> h.p == h'.p)
    && MovingCount(h) == MovingCount(h')
  }

  /** A step that moves blocks of t and keeps the counts right. */
  ghost predicate Moved(s: State, s': State, t: Tid) {
    PlacesOk(s') && BlocksOk(s', t) && RelyPlaces(s.place, s'.place, t)
  }

  lemma StillMoved(s: State, s': State, t: Tid)
    requires PlacesOk(s) && BlocksOk(s, t) && Rely(s, s', t) && Still(s, s', t)
    ensures Moved(s, s', t)
  {
  }

  lemma StartFreeBlocks(s: State, t: Tid, h: Thread, p: Block)
    requires PlacesOk(s) && BlocksOk(s, t) && !Idling(s) && h == Of(s, t) && h.line.Idle? && p in s.place && s.place[p] == Out
    ensures Moved(s, StartFreeStep(s, t, h, p), t)
  {
    hide At, AllFree, RelyPlaces, Blocks, Relocate, NotOthers;
    Placed(s.place, p, Flight(t), t);
  }

  lemma Held(s: State, t: Tid, h: Thread)
    requires BlocksOk(s, t) && h == Of(s, t) && Carrying(h.line)
    ensures h.p in s.place && s.place[h.p] == Flight(t)
  {
    assert h.p in At(s.place, Flight(t));
  }

  lemma PushLocalBlocks(s: State, t: Tid, h: Thread)
    requires PlacesOk(s) && BlocksOk(s, t) && !Idling(s) && h == Of(s, t) && h.line.PushLocal?
    ensures Moved(s, Free2(s, t, h), t)
  {
    hide At, AllFree, RelyPlaces, Blocks, Relocate, NotOthers;
    Held(s, t, h);
    Placed(s.place, h.p, Local, t);
  }

  lemma PushRemoteBlocks(s: State, t: Tid, h: Thread)
    requires PlacesOk(s) && BlocksOk(s, t) && !Idling(s) && h == Of(s, t) && h.line.PushRemote?
    ensures Moved(s, Free2(s, t, h), t)
  {
    hide At, AllFree, RelyPlaces, Blocks, Relocate, NotOthers;
    Held(s, t, h);
    Placed(s.place, h.p, Remote, t);
  }

  lemma AllocateBlocks(s: State, t: Tid, h: Thread, p: Block)
    requires PlacesOk(s) && BlocksOk(s, t) && !Idling(s) && h == Of(s, t) && h.line.Popping?
    requires p in s.place && s.place[p] == Local
    ensures Moved(s, AllocateStep(s, t, h, p), t)
  {
    hide At, AllFree, RelyPlaces, Blocks, Relocate, NotOthers;
    Placed(s.place, p, Out, t);
  }

  lemma MoveOneBlocks(s: State, t: Tid, h: Thread, p: Block)
    requires PlacesOk(s) && BlocksOk(s, t) && !Idling(s) && h == Of(s, t) && h.line.MoveEach?
    requires p in s.place && s.place[p] == Moving(t)
    ensures Moved(s, MoveOneStep(s, t, h, p), t)
  {
    hide At, AllFree, RelyPlaces, Blocks, Relocate, NotOthers;
    Placed(s.place, p, Local, t);
  }

  lemma CollectBlocks(s: State, t: Tid, h: Thread)
    requires PlacesOk(s) && BlocksOk(s, t) && !Idling(s) && h == Of(s, t) && h.line.Collect? && s.tag != 0
    ensures Moved(s, MoveIn(s, t, h), t)
  {
    hide At, AllFree, RelyPlaces, Blocks, Relocate, NotOthers;
    Relocated(s.place, Remote, Moving(t), t);
  }

  lemma MoveBlocks(s: State, t: Tid, h: Thread)
    requires PlacesOk(s) && BlocksOk(s, t) && !Idling(s) && h == Of(s, t) && h.line.Move? && s.len == 0
    ensures Moved(s, MoveIn(s, t, h), t)
  {
    hide At, AllFree, RelyPlaces, Blocks, Relocate, NotOthers;
    Relocated(s.place, Moving(t), Local, t);
  }

  lemma FreshPlaces(place: map<Block, Place>, n: nat, t: Tid)
    requires AllFree(place)
    ensures var place' := map b | b in Blocks(n) :: Local;
      RelyPlaces(place, place', t) && place'.Keys == Blocks(n)
      && |At(place', Local)| == n && |At(place', Remote)| == 0
      && At(place', Flight(t)) == {} && |At(place', Moving(t))| == 0
  {
    var place': map<Block, Place> := map b | b in Blocks(n) :: Local;
    assert At(place', Local) == Blocks(n);
    forall l: Place | !l.Local? && !l.Remote? ensures At(place, l) == {} == At(place', l) {
    }
  }

  lemma ResetListsBlocks(s: State, t: Tid, h: Thread)
    requires PlacesOk(s) && s.token == BuiltBy(t) && h == Of(s, t) && h.line.ResetLists?
    ensures Moved(s, Build(s, t, h), t)
  {
    hide At, RelyPlaces, Blocks;
    FreshPlaces(s.place, h.c.objects, t);
  }

  /** When the two lists count as many blocks as the class has, they hold them all. */
  lemma CountedAll(s: State)
    requires PlacesOk(s) && s.class_.objects <= s.len + s.tag
    ensures AllFree(s.place)
  {
    var free := At(s.place, Local) + At(s.place, Remote);
    assert At(s.place, Local) !! At(s.place, Remote);
    assert free + (s.place.Keys - free) == s.place.Keys;
    assert |s.place.Keys - free| == 0;
    forall b | b in s.place ensures s.place[b] == Local || s.place[b] == Remote {
      assert b !in s.place.Keys - free;
    }
  }

  // ----- every step, as its thread sees it -----

  lemma LoadEpochOk(s: State, t: Tid, h: Thread)
    requires Control(s, t) && h == Of(s, t) && h.line.LoadEpoch?
    ensures Rely(s, Free1(s, t, h), t) && Control(Free1(s, t, h), t) && Still(s, Free1(s, t, h), t)
  {
  }

  lemma LoadOwnerOk(s: State, t: Tid, h: Thread)
    requires Control(s, t) && h == Of(s, t) && h.line.LoadOwner?
    ensures Rely(s, Free1(s, t, h), t) && Control(Free1(s, t, h), t) && Still(s, Free1(s, t, h), t)
  {
  }

  lemma LoadClassOk(s: State, t: Tid, h: Thread)
    requires Control(s, t) && h == Of(s, t) && h.line.LoadClass?
    ensures Rely(s, Free1(s, t, h), t) && Control(Free1(s, t, h), t) && Still(s, Free1(s, t, h), t)
  {
  }

  lemma ChooseOk(s: State, t: Tid, h: Thread)
    requires Control(s, t) && h == Of(s, t) && h.line.Choose?
    ensures Rely(s, Free1(s, t, h), t) && Control(Free1(s, t, h), t) && Still(s, Free1(s, t, h), t)
  {
  }

  lemma PushLocalOk(s: State, t: Tid, h: Thread)
    requires Control(s, t) && h == Of(s, t) && h.line.PushLocal?
    ensures Rely(s, Free2(s, t, h), t) && Control(Free2(s, t, h), t)
  {
  }

  lemma PushRemoteOk(s: State, t: Tid, h: Thread)
    requires Control(s, t) && h == Of(s, t) && h.line.PushRemote?
    ensures Rely(s, Free2(s, t, h), t) && Control(Free2(s, t, h), t)
  {
  }

  lemma AddRemoteOk(s: State, t: Tid, h: Thread)
    requires Control(s, t) && h == Of(s, t) && h.line.AddRemote?
    ensures Rely(s, Free2(s, t, h), t) && Control(Free2(s, t, h), t) && Still(s, Free2(s, t, h), t)
  {
  }

  lemma AddLocalOk(s: State, t: Tid, h: Thread)
    requires Control(s, t) && h == Of(s, t) && h.line.AddLocal?
    ensures Rely(s, Free2(s, t, h), t) && Control(Free2(s, t, h), t) && Still(s, Free2(s, t, h), t)
  {
  }

  lemma CheckOwnerOk(s: State, t: Tid, h: Thread)
    requires Control(s, t) && h == Of(s, t) && h.line.CheckOwner?
    ensures Rely(s, Free3(s, t, h), t) && Control(Free3(s, t, h), t) && Still(s, Free3(s, t, h), t)
  {
  }

  lemma ReviveOk(s: State, t: Tid, h: Thread)
    requires Control(s, t) && h == Of(s, t) && h.line.Revive?
    ensures Rely(s, Free3(s, t, h), t) && Control(Free3(s, t, h), t) && Still(s, Free3(s, t, h), t)
  {
  }

  lemma FloatRevivedOk(s: State, t: Tid, h: Thread)
    requires Control(s, t) && h == Of(s, t) && h.line.FloatRevived?
    ensures Rely(s, Free3(s, t, h), t) && Control(Free3(s, t, h), t) && Still(s, Free3(s, t, h), t)
  {
  }

  lemma MarkFullOk(s: State, t: Tid, h: Thread)
    requires Control(s, t) && h == Of(s, t) && h.line.MarkFreed?
    requires h.n == h.c.objects && !h.e.Exclusive()
    requires s.class_.objects <= s.len + s.tag ==> AllFree(s.place)
    ensures Rely(s, MarkFullStep(s, t, h), t) && Control(MarkFullStep(s, t, h), t) && Still(s, MarkFullStep(s, t, h), t)
  {
  }

  lemma MarkReuseOk(s: State, t: Tid, h: Thread)
    requires Control(s, t) && h == Of(s, t) && h.line.MarkFreed?
    ensures Rely(s, MarkReuseStep(s, t, h), t) && Control(MarkReuseStep(s, t, h), t) && Still(s, MarkReuseStep(s, t, h), t)
  {
  }

  lemma PushLinkOk(s: State, t: Tid, h: Thread)
    requires Control(s, t) && h == Of(s, t) && h.line.PushLink? && !Refused(s, Named(h))
    ensures Rely(s, Free5(s, t, h), t) && Control(Free5(s, t, h), t) && Still(s, Free5(s, t, h), t)
  {
  }

  /** A thread comes to the end of its call without having changed anything. */
  lemma RestOk(s: State, t: Tid, h: Thread)
    requires Control(s, t) && h == Of(s, t) && (h.line.MarkFreed? || h.line.PushLink? || h.line.Acquire?)
    ensures var s' := Go(s, t, h.(line := Idle)); Rely(s, s', t) && Control(s', t) && Still(s, s', t)
  {
  }

  lemma PushInsertOk(s: State, t: Tid, h: Thread)
    requires Control(s, t) && h == Of(s, t) && h.line.PushInsert?
    ensures Rely(s, Free5(s, t, h), t) && Control(Free5(s, t, h), t) && Still(s, Free5(s, t, h), t)
  {
  }

  lemma UnlinkKeeps(l: Lists)
    ensures Unlink(l) == l.(linked := Unlink(l).linked, link := Unlink(l).link)
    ensures l.linked == multiset{} ==> Unlink(l).linked == multiset{}
  {
  }

  lemma RemoveLinkOk(s: State, t: Tid, h: Thread)
    requires Control(s, t) && h == Of(s, t) && h.line.RemoveLink?
    ensures Rely(s, Free5(s, t, h), t) && Control(Free5(s, t, h), t) && Still(s, Free5(s, t, h), t)
  {
    UnlinkKeeps(s.lists);
    hide Unlink;
  }

  lemma PoolPushOk(s: State, t: Tid, h: Thread, bottom: bool)
    requires Control(s, t) && h == Of(s, t) && h.line.Delete?
    ensures Rely(s, PoolPushStep(s, t, h, bottom), t) && Control(PoolPushStep(s, t, h, bottom), t)
    ensures Still(s, PoolPushStep(s, t, h, bottom), t)
  {
  }

  lemma ResetLinkOk(s: State, t: Tid, h: Thread)
    requires Control(s, t) && h == Of(s, t) && h.line.ResetLink?
    ensures Rely(s, Build(s, t, h), t) && Control(Build(s, t, h), t) && Still(s, Build(s, t, h), t)
  {
  }

  lemma SetOwnerOk(s: State, t: Tid, h: Thread)
    requires Control(s, t) && h == Of(s, t) && h.line.SetOwner?
    ensures Rely(s, Build(s, t, h), t) && Control(Build(s, t, h), t) && Still(s, Build(s, t, h), t)
  {
  }

  lemma ResetListsOk(s: State, t: Tid, h: Thread)
    requires Control(s, t) && h == Of(s, t) && h.line.ResetLists?
    ensures Rely(s, Build(s, t, h), t) && Control(Build(s, t, h), t)
  {
  }

  lemma MarkNewOk(s: State, t: Tid, h: Thread)
    requires Control(s, t) && h == Of(s, t) && h.line.MarkNew?
    ensures Rely(s, Build(s, t, h), t) && Control(Build(s, t, h), t) && Still(s, Build(s, t, h), t)
  {
  }

  lemma TookLinkOk(s: State, t: Tid, h: Thread)
    requires Control(s, t) && h == Of(s, t) && h.line.TookLink?
    ensures Rely(s, GetSpan(s, t, h), t) && Control(GetSpan(s, t, h), t) && Still(s, GetSpan(s, t, h), t)
  {
  }

  lemma AcquireOk(s: State, t: Tid, h: Thread)
    requires Control(s, t) && h == Of(s, t) && h.line.Acquire? && NewMarkHot(s.epoch, h.e).ok && s.owner == t
    ensures Rely(s, GetSpan(s, t, h), t) && Control(GetSpan(s, t, h), t) && Still(s, GetSpan(s, t, h), t)
  {
    assert s.token.Shared?;
  }

  lemma CollectOk(s: State, t: Tid, h: Thread)
    requires Control(s, t) && h == Of(s, t) && h.line.Collect? && s.tag != 0
    ensures Rely(s, MoveIn(s, t, h), t) && Control(MoveIn(s, t, h), t)
  {
  }

  lemma CollectNoneOk(s: State, t: Tid, h: Thread)
    requires Control(s, t) && h == Of(s, t) && h.line.Collect? && s.tag == 0
    ensures Rely(s, MoveIn(s, t, h), t) && Control(MoveIn(s, t, h), t) && Still(s, MoveIn(s, t, h), t)
  {
  }

  lemma MoveOk(s: State, t: Tid, h: Thread)
    requires Control(s, t) && h == Of(s, t) && h.line.Move? && s.len == 0
    ensures Rely(s, MoveIn(s, t, h), t) && Control(MoveIn(s, t, h), t)
  {
  }

  lemma MoveLoopOk(s: State, t: Tid, h: Thread)
    requires Control(s, t) && h == Of(s, t) && h.line.Move? && s.len != 0
    ensures Rely(s, MoveIn(s, t, h), t) && Control(MoveIn(s, t, h), t) && Still(s, MoveIn(s, t, h), t)
  {
  }

  lemma MoveEachOk(s: State, t: Tid, h: Thread)
    requires Control(s, t) && h == Of(s, t) && h.line.MoveEach? && h.n == 0
    ensures Rely(s, MoveIn(s, t, h), t) && Control(MoveIn(s, t, h), t) && Still(s, MoveIn(s, t, h), t)
  {
  }

  lemma PoppingOk(s: State, t: Tid, h: Thread)
    requires Control(s, t) && h == Of(s, t) && h.line.Popping?
    ensures Rely(s, GiveUp(s, t, h), t) && Control(GiveUp(s, t, h), t) && Still(s, GiveUp(s, t, h), t)
  {
  }

  lemma CheckFreeOk(s: State, t: Tid, h: Thread)
    requires Control(s, t) && h == Of(s, t) && h.line.CheckFree?
    ensures Rely(s, GiveUp(s, t, h), t) && Control(GiveUp(s, t, h), t) && Still(s, GiveUp(s, t, h), t)
  {
  }

  lemma LoadFloatOk(s: State, t: Tid, h: Thread)
    requires Control(s, t) && h == Of(s, t) && h.line.LoadFloat?
    ensures Rely(s, GiveUp(s, t, h), t) && Control(GiveUp(s, t, h), t) && Still(s, GiveUp(s, t, h), t)
  {
  }

  lemma StoreFloatingOk(s: State, t: Tid, h: Thread)
    requires Control(s, t) && h == Of(s, t) && h.line.StoreFloating?
    ensures Rely(s, GiveUp(s, t, h), t) && Control(GiveUp(s, t, h), t) && Still(s, GiveUp(s, t, h), t)
  {
  }

  lemma StartFreeOk(s: State, t: Tid, h: Thread, p: Block)
    requires Control(s, t) && h == Of(s, t) && h.line.Idle? && t !in s.dead && !Idling(s)
    ensures Rely(s, StartFreeStep(s, t, h, p), t) && Control(StartFreeStep(s, t, h, p), t)
  {
  }

  lemma TakeNewOk(s: State, t: Tid, h: Thread, c: Class)
    requires Control(s, t) && h == Of(s, t) && h.line.Idle? && t !in s.dead && s.lists.pooled > 0
    ensures Rely(s, TakeNewStep(s, t, h, c), t) && Control(TakeNewStep(s, t, h, c), t)
    ensures Still(s, TakeNewStep(s, t, h, c), t)
  {
  }

  lemma TakeLinkOk(s: State, t: Tid, h: Thread, c: Class)
    requires Control(s, t) && h == Of(s, t) && h.line.Idle? && t !in s.dead && Slot(t, c) in s.lists.linked
    ensures Rely(s, TakeLinkStep(s, t, h, c), t) && Control(TakeLinkStep(s, t, h, c), t)
    ensures Still(s, TakeLinkStep(s, t, h, c), t)
  {
  }

  lemma StartMallocOk(s: State, t: Tid, h: Thread, c: Class)
    requires Control(s, t) && h == Of(s, t) && h.line.Idle? && t !in s.dead && Slot(t, c) in s.hot
    ensures Rely(s, Go(s, t, h.(line := Popping, c := c)), t) && Control(Go(s, t, h.(line := Popping, c := c)), t)
    ensures Still(s, Go(s, t, h.(line := Popping, c := c)), t)
  {
  }

  lemma ParkOk(s: State, t: Tid, h: Thread, c: Class)
    requires Control(s, t) && h == Of(s, t) && h.line.Idle? && t !in s.dead && Slot(t, c) in s.hot
    ensures Rely(s, Go(s, t, h.(line := LoadFloat, c := c)), t) && Control(Go(s, t, h.(line := LoadFloat, c := c)), t)
    ensures Still(s, Go(s, t, h.(line := LoadFloat, c := c)), t)
  {
  }

  lemma AllocateOk(s: State, t: Tid, h: Thread, p: Block)
    requires Control(s, t) && h == Of(s, t) && h.line.Popping?
    ensures Rely(s, AllocateStep(s, t, h, p), t) && Control(AllocateStep(s, t, h, p), t)
  {
  }

  lemma MoveOneOk(s: State, t: Tid, h: Thread, p: Block)
    requires Control(s, t) && h == Of(s, t) && h.line.MoveEach?
    ensures Rely(s, MoveOneStep(s, t, h, p), t) && Control(MoveOneStep(s, t, h, p), t)
  {
  }

  lemma CloseOk(s: State, t: Tid, h: Thread, c: Class)
    requires Control(s, t) && h == Of(s, t) && h.line.Idle?
    ensures Rely(s, CloseStep(s, t, h, c), t) && Control(CloseStep(s, t, h, c), t)
    ensures Still(s, CloseStep(s, t, h, c), t)
  {
  }

  lemma DrainOk(s: State, t: Tid, h: Thread, c: Class)
    requires Control(s, t) && h == Of(s, t) && h.line.Idle? && Slot(t, c) in s.lists.linked
    ensures Rely(s, Go(s.(lists := Take(s.lists, Slot(t, c))), t, h), t)
    ensures Control(Go(s.(lists := Take(s.lists, Slot(t, c))), t, h), t)
    ensures Still(s, Go(s.(lists := Take(s.lists, Slot(t, c))), t, h), t)
  {
  }

  lemma TerminateOk(s: State, t: Tid, h: Thread)
    requires Control(s, t) && h == Of(s, t) && h.line.Idle? && forall at :: at in s.hot ==> at.t != t
    ensures Rely(s, Go(s.(dead := s.dead + {t}), t, h), t) && Control(Go(s.(dead := s.dead + {t}), t, h), t)
    ensures Still(s, Go(s.(dead := s.dead + {t}), t, h), t)
  {
  }

  // ----- every step keeps the invariant -----

  /** What StepOk shows of a step: enough for Keep. */
  ghost predicate Good(s: State, s': State, t: Tid) {
    Rely(s, s', t) && Control(s', t) && Moved(s, s', t)
  }

  lemma Settle(s: State, s': State, t: Tid)
    requires Inv(s) && Rely(s, s', t) && Control(s', t) && Still(s, s', t)
    ensures Good(s, s', t)
  {
    assert ThreadOk(s, t);
    hide Control;
    hide Rely;
    StillMoved(s, s', t);
  }

  lemma MarkFreedOk(s: State, t: Tid, h: Thread)
    requires PlacesOk(s) && Control(s, t) && h == Of(s, t) && h.line.MarkFreed?
    ensures Rely(s, Free4(s, t, h), t) && Control(Free4(s, t, h), t) && Still(s, Free4(s, t, h), t)
  {
    hide Control, Rely, Still, Of, MarkFullStep, MarkReuseStep;
    if s.class_.objects <= s.len + s.tag {
      CountedAll(s);
    }
    hide PlacesOk, AllFree;
    if h.n == h.c.objects && !h.e.Exclusive() {
      MarkFullOk(s, t, h);
    } else if h.n > h.c.threshold && !h.e.IsReusable() {
      MarkReuseOk(s, t, h);
    } else {
      RestOk(s, t, h);
    }
  }

  lemma FreeOk(s: State, t: Tid, h: Thread)
    requires Inv(s) && h == Of(s, t)
    requires Carrying(h.line) || h.line.AddRemote? || h.line.AddLocal? || Summed(h.line)
    ensures Good(s, AdvanceLine(s, t, h), t)
  {
    assert ThreadOk(s, t);
    hide Control, TokenOk, StageOk, EpochOk, WindowOk, PlacesOk, BlocksOk, Rely, Moved, Still, Of;
    hide Free1, Free2, Free3, Free4;
    match h.line {
      case LoadEpoch => LoadEpochOk(s, t, h);
      case LoadOwner => LoadOwnerOk(s, t, h);
      case LoadClass => LoadClassOk(s, t, h);
      case Choose => ChooseOk(s, t, h);
      case PushLocal => PushLocalOk(s, t, h); PushLocalBlocks(s, t, h);
      case PushRemote => PushRemoteOk(s, t, h); PushRemoteBlocks(s, t, h);
      case AddRemote => AddRemoteOk(s, t, h);
      case AddLocal => AddLocalOk(s, t, h);
      case CheckOwner => CheckOwnerOk(s, t, h);
      case Revive => ReviveOk(s, t, h);
      case FloatRevived => FloatRevivedOk(s, t, h);
      case MarkFreed => MarkFreedOk(s, t, h);
    }
    if !h.line.PushLocal? && !h.line.PushRemote? {
      Settle(s, AdvanceLine(s, t, h), t);
    }
  }

  lemma ListingOk(s: State, t: Tid, h: Thread)
    requires Inv(s) && h == Of(s, t) && (h.line.PushLink? || h.line.PushInsert? || h.line.RemoveLink?)
    ensures Good(s, Free5(s, t, h), t)
  {
    assert ThreadOk(s, t);
    assert h.line.PushLink? && Refused(s, Named(h)) ==> Free5(s, t, h) == Go(s, t, h.(line := Idle));
    hide Control, TokenOk, StageOk, EpochOk, WindowOk, PlacesOk, BlocksOk, Rely, Moved, Still, Of, Free5, Go, Refused;
    match h.line {
      case PushLink => if Refused(s, Named(h)) { RestOk(s, t, h); } else { PushLinkOk(s, t, h); }
      case PushInsert => PushInsertOk(s, t, h);
      case RemoveLink => RemoveLinkOk(s, t, h);
    }
    Settle(s, Free5(s, t, h), t);
  }

  lemma GetSpanOk(s: State, t: Tid, h: Thread)
    requires Inv(s) && h == Of(s, t) && (h.line.TookLink? || h.line.Acquire?)
    requires h.line.Acquire? && NewMarkHot(s.epoch, h.e).ok ==> s.owner == t
    ensures Good(s, GetSpan(s, t, h), t)
  {
    assert ThreadOk(s, t);
    assert h.line.Acquire? && !NewMarkHot(s.epoch, h.e).ok ==> GetSpan(s, t, h) == Go(s, t, h.(line := Idle));
    hide Control, TokenOk, StageOk, EpochOk, WindowOk, PlacesOk, BlocksOk, Rely, Moved, Still, Of, GetSpan, Go;
    if h.line.TookLink? {
      TookLinkOk(s, t, h);
    } else if NewMarkHot(s.epoch, h.e).ok {
      AcquireOk(s, t, h);
    } else {
      RestOk(s, t, h);
    }
    Settle(s, GetSpan(s, t, h), t);
  }

  lemma BuildOk(s: State, t: Tid, h: Thread)
    requires Inv(s) && h == Of(s, t) && Building(h.line)
    ensures Good(s, AdvanceLine(s, t, h), t)
  {
    assert ThreadOk(s, t);
    hide Control, TokenOk, EpochOk, WindowOk, PlacesOk, BlocksOk, Rely, Moved, Still, Of, Idling, Build;
    match h.line {
      case ResetLink => ResetLinkOk(s, t, h);
      case SetOwner => SetOwnerOk(s, t, h);
      case ResetLists => ResetListsOk(s, t, h); ResetListsBlocks(s, t, h);
      case MarkNew => MarkNewOk(s, t, h);
    }
    if !h.line.ResetLists? {
      Settle(s, AdvanceLine(s, t, h), t);
    }
  }

  lemma MoveInOk(s: State, t: Tid, h: Thread)
    requires Inv(s) && h == Of(s, t) && (h.line.Collect? || h.line.Move? || h.line.MoveEach?)
    requires h.line.MoveEach? ==> At(s.place, Moving(t)) == {}
    ensures Good(s, MoveIn(s, t, h), t)
  {
    assert ThreadOk(s, t);
    assert h.line.MoveEach? ==> h.n == 0;
    assert !Idling(s);
    hide Control, TokenOk, StageOk, EpochOk, WindowOk, PlacesOk, BlocksOk, Rely, Moved, Still, Of, Idling, MoveIn;
    if h.line.Collect? && s.tag != 0 {
      CollectOk(s, t, h);
      CollectBlocks(s, t, h);
    } else if h.line.Move? && s.len == 0 {
      MoveOk(s, t, h);
      MoveBlocks(s, t, h);
    } else {
      if h.line.Collect? {
        CollectNoneOk(s, t, h);
      } else if h.line.Move? {
        MoveLoopOk(s, t, h);
      } else {
        MoveEachOk(s, t, h);
      }
      Settle(s, MoveIn(s, t, h), t);
    }
  }

  lemma GiveUpOk(s: State, t: Tid, h: Thread)
    requires Inv(s) && h == Of(s, t) && (h.line.Popping? || h.line.CheckFree? || h.line.LoadFloat? || h.line.StoreFloating?)
    ensures Good(s, GiveUp(s, t, h), t)
  {
    assert ThreadOk(s, t);
    hide Control, TokenOk, StageOk, EpochOk, WindowOk, PlacesOk, BlocksOk, Rely, Moved, Still, Of, Idling, GiveUp;
    match h.line {
      case Popping => PoppingOk(s, t, h);
      case CheckFree => CheckFreeOk(s, t, h);
      case LoadFloat => LoadFloatOk(s, t, h);
      case StoreFloating => StoreFloatingOk(s, t, h);
    }
    Settle(s, GiveUp(s, t, h), t);
  }

  lemma BlockChoiceOk(s: State, a: Step, t: Tid, h: Thread)
    requires Inv(s) && Enabled(s, a) && a.t == t && h == Of(s, t) && (a.StartFree? || a.Allocate? || a.MoveOne?)
    ensures Good(s, Next(s, a), t)
  {
    assert ThreadOk(s, t);
    assert !Idling(s);
    hide Control, TokenOk, StageOk, EpochOk, WindowOk, PlacesOk, BlocksOk, Rely, Moved, Still, Of, Idling;
    hide StartFreeStep, AllocateStep, MoveOneStep;
    match a {
      case StartFree(_, p) => StartFreeOk(s, t, h, p); StartFreeBlocks(s, t, h, p);
      case Allocate(_, p) => AllocateOk(s, t, h, p); AllocateBlocks(s, t, h, p);
      case MoveOne(_, p) => MoveOneOk(s, t, h, p); MoveOneBlocks(s, t, h, p);
    }
  }

  lemma ListChoiceOk(s: State, a: Step, t: Tid, h: Thread)
    requires Inv(s) && Enabled(s, a) && a.t == t && h == Of(s, t) && !a.Advance?
    requires !a.StartFree? && !a.Allocate? && !a.MoveOne?
    ensures Good(s, Next(s, a), t)
  {
    assert ThreadOk(s, t);
    hide Control, TokenOk, StageOk, EpochOk, WindowOk, PlacesOk, BlocksOk, Rely, Moved, Still, Of, Idling;
    hide TakeNewStep, TakeLinkStep, PoolPushStep, CloseStep, Go, Take;
    match a {
      case PoolPush(_, bottom) => PoolPushOk(s, t, h, bottom);
      case TakeNew(_, c) => TakeNewOk(s, t, h, c);
      case TakeLink(_, c) => TakeLinkOk(s, t, h, c);
      case StartMalloc(_, c) => StartMallocOk(s, t, h, c);
      case Close(_, c) => CloseOk(s, t, h, c);
      case Park(_, c) => ParkOk(s, t, h, c);
      case Drain(_, c) => DrainOk(s, t, h, c);
      case Terminate(_) => TerminateOk(s, t, h);
    }
    Settle(s, Next(s, a), t);
  }

  lemma AdvanceOk(s: State, t: Tid, h: Thread)
    requires Inv(s) && h == Of(s, t) && CanAdvance(s, t, h) && OwnerAsserted(s, Advance(t))
    requires !Carrying(h.line) && !h.line.AddRemote? && !h.line.AddLocal? && !Summed(h.line) && !Building(h.line)
    ensures Good(s, AdvanceLine(s, t, h), t)
  {
    hide Inv, Good, Free5, GetSpan, MoveIn, GiveUp;
    if h.line.Collect? || h.line.Move? || h.line.MoveEach? {
      MoveInOk(s, t, h);
    } else if OnHot(h.line) {
      GiveUpOk(s, t, h);
    } else if h.line.TookLink? || h.line.Acquire? {
      GetSpanOk(s, t, h);
    } else {
      ListingOk(s, t, h);
    }
  }

  lemma StepInv(s: State, a: Step)
    requires Inv(s) && Enabled(s, a) && OwnerAsserted(s, a)
    ensures Good(s, Next(s, a), a.t) && Inv(Next(s, a))
  {
    var h := Of(s, a.t);
    hide AdvanceLine, TokenOk, PlacesOk;
    if a.StartFree? || a.Allocate? || a.MoveOne? {
      BlockChoiceOk(s, a, a.t, h);
    } else if !a.Advance? {
      ListChoiceOk(s, a, a.t, h);
    } else if Carrying(h.line) || h.line.AddRemote? || h.line.AddLocal? || Summed(h.line) {
      FreeOk(s, a.t, h);
    } else if Building(h.line) {
      BuildOk(s, a.t, h);
    } else {
      AdvanceOk(s, a.t, h);
    }
    hide Rely, Control, Moved;
    Keep(s, Next(s, a), a.t);
  }

  lemma {:induction false} RunInv(s: State, steps: seq<Step>)
    requires Inv(s) && Run(s, steps)
    ensures Inv(After(s, steps)) && s.dead <= After(s, steps).dead
    decreases |steps|
  {
    hide Inv, Enabled, OwnerAsserted, Next, Control, Moved;
    if steps != [] {
      StepInv(s, steps[0]);
      RunInv(Next(s, steps[0]), steps[1..]);
    }
  }
}
