/** Runs that lead to two writers of the local list, once a core has acquired a span that it does not own. */
module SpanReach {
  import opened Epochs
  import opened SpanProtocol
  import opened SpanSafety
  import opened SpanLinks
  import opened SpanRuns
  import opened SpanTheorems

  /** Two threads that may write list_ and len_ of the local free list, in particular two that have the span
      in a hot slot. */
  ghost predicate Broken(s: State) {
    exists t: Tid, u: Tid :: t != u && WritesLocalList(s, t) && WritesLocalList(s, u)
  }

  // ----- where the blocks are -----

  /** Where a block can be while t, which is not the owner, has the span, and all others are at rest or in
      Core::Free. */
  ghost predicate BlockOk(q: State, t: Tid, b: Block)
    requires b in q.place
  {
    match q.place[b]
    case Out | Local | Remote => true
    case Moving(_) => false
    case Flight(u) =>
      var h := Of(q, u);
      u != t && u !in q.dead && Carrying(h.line) && h.p == b && (h.line.PushLocal? ==> q.owner == u)
  }

  ghost predicate Ready(q: State, t: Tid, c: Class) {
    && Slot(t, c) in q.hot && t !in q.dead && t !in q.lists.leaving && q.owner != t
    && q.place != map[] && q.len == |At(q.place, Local)| && q.tag == |At(q.place, Remote)|
    && (forall b :: b in q.place ==> BlockOk(q, t, b))
  }

  /** Only blocks have moved, and the threads other than t that were at rest still are. */
  ghost predicate Alike(q: State, r: State, t: Tid) {
    && r == q.(place := r.place, len := r.len, tag := r.tag, threads := r.threads) && r.place.Keys == q.place.Keys
    && (forall u: Tid :: u != t && Of(q, u).line.Idle? ==> Of(r, u).line.Idle?)
    && q.threads.Keys <= r.threads.Keys
  }

  /** The owner is the same, or a dead one has been replaced, or has died while at rest. */
  ghost predicate OwnerKept(q: State, r: State, t: Tid) {
    r.dead == q.dead && r.owner != t && (r.owner == q.owner || q.owner in q.dead)
  }

  /** One block has moved, and only thread u has taken steps. */
  lemma ReadyKept(q: State, r: State, t: Tid, c: Class, u: Tid, b: Block, to: Place)
    requires Ready(q, t, c) && b in q.place && q.place[b] != to && !q.place[b].Moving? && !to.Flight? && !to.Moving?
    requires q.place[b].Flight? ==> q.place[b].t == u
    requires r.place == q.place[b := to] && r.hot == q.hot && OwnerKept(q, r, t) && t !in r.lists.leaving
    requires r.len == q.len + Change(q.place[b], to, Local) && r.tag == q.tag + Change(q.place[b], to, Remote)
    requires r.threads == q.threads[u := Of(r, u)]
    requires u != t && !q.place[b].Flight? ==> !Carrying(Of(q, u).line)
    ensures Ready(r, t, c)
  {
    hide At, Change, Carrying;
    Placed(q.place, b, to, u);
    forall d | d in r.place ensures BlockOk(r, t, d) {
      assert BlockOk(q, t, d) && BlockOk(q, t, b);
    }
  }

  /** No block has moved, and only thread u has taken steps. */
  lemma ReadyStill(q: State, r: State, t: Tid, c: Class, u: Tid)
    requires Ready(q, t, c)
    requires r.place == q.place && r.len == q.len && r.tag == q.tag && r.hot == q.hot && OwnerKept(q, r, t)
    requires r.threads == q.threads[u := Of(r, u)] && t !in r.lists.leaving
    requires var h, h' := Of(q, u), Of(r, u);
      u != t && Carrying(h.line) ==> Carrying(h'.line) && h'.p == h.p && (h'.line.PushLocal? ==> r.owner == u)
    ensures Ready(r, t, c)
  {
    hide At, Carrying;
    forall d | d in r.place ensures BlockOk(r, t, d) {
      assert BlockOk(q, t, d);
    }
  }

  // ----- other threads push what they carry -----

  /** Thread u goes on to the push of the block it frees. */
  lemma {:induction false} ToPush(s0: State, q: State, t: Tid, c: Class, u: Tid) returns (r: State)
    requires Leads(s0, q, Tested) && Ready(q, t, c) && u != t && u !in q.dead && Carrying(Of(q, u).line)
    requires Of(q, u).line.PushLocal? ==> q.owner == u
    ensures Leads(s0, r, Tested) && Ready(r, t, c)
    ensures r == q.(threads := q.threads[u := Of(r, u)]) && Of(r, u).p == Of(q, u).p
    ensures var l := Of(r, u).line;
      if Of(q, u).line.PushRemote? then l.PushRemote? else if q.owner == u then l.PushLocal? else l.PushRemote?
    decreases FreeSteps(Of(q, u).line)
  {
    var h := Of(q, u);
    if h.line.PushLocal? || h.line.PushRemote? {
      assert u in q.threads;
      r := q;
    } else {
      assert q.owner != t && t !in q.lists.leaving;
      hide Leads, Ready, At;
      var m := Next(q, Advance(u));
      assert Enabled(q, Advance(u)) && Careless(q, Advance(u));
      Easily(s0, q, Advance(u), Tested);
      ReadyStill(q, m, t, c, u);
      r := ToPush(s0, m, t, c, u);
    }
  }

  /** How many operations a thread is away from Idle, at most. */
  function FreeSteps(l: Line): nat {
    match l
    case LoadEpoch => 13
    case LoadOwner => 12
    case LoadClass => 11
    case Choose => 10
    case PushLocal | PushRemote => 9
    case AddRemote | AddLocal => 8
    case CheckOwner => 7
    case Revive => 6
    case FloatRevived => 5
    case MarkFreed => 4
    case TookLink => 2
    case PushLink | Acquire => 1
    case _ => 0
  }

  lemma PushedRemote(s0: State, q: State, t: Tid, c: Class, u: Tid) returns (r: State)
    requires Leads(s0, q, Tested) && Ready(q, t, c) && u != t && u !in q.dead && Of(q, u).line.PushRemote?
    requires Of(q, u).p in q.place && q.place[Of(q, u).p] == Flight(u)
    ensures Leads(s0, r, Tested) && Ready(r, t, c)
    ensures r == q.(place := q.place[Of(q, u).p := Remote], tag := q.tag + 1, threads := q.threads[u := Of(r, u)])
    ensures Of(r, u) == Of(q, u).(line := AddLocal, n := q.tag + 1)
  {
    assert q.owner != t && t !in q.lists.leaving;
    hide Leads, Ready, At;
    r := Next(q, Advance(u));
    assert Enabled(q, Advance(u)) && Careless(q, Advance(u));
    Easily(s0, q, Advance(u), Tested);
    ReadyKept(q, r, t, c, u, Of(q, u).p, Remote);
  }

  /** Whoever carries block b pushes it, which makes two writers if it is the owner. */
  lemma Lands(s0: State, q: State, t: Tid, c: Class, b: Block) returns (r: State)
    requires Leads(s0, q, Tested) && Ready(q, t, c) && b in q.place
    ensures Leads(s0, r, Tested)
    ensures Broken(r) ||
      (&& Ready(r, t, c) && Alike(q, r, t) && Of(r, t) == Of(q, t) && !r.place[b].Flight?
       && forall d :: d in q.place && !q.place[d].Flight? ==> r.place[d] == q.place[d])
  {
    assert BlockOk(q, t, b);
    r := q;
    if q.place[b].Flight? {
      var u := q.place[b].t;
      r := ToPush(s0, q, t, c, u);
      if Of(r, u).line.PushLocal? {
        TwoWrite(r, t, c, u);
        return;
      }
      hide Leads, Ready, BlockOk, Broken;
      r := PushedRemote(s0, r, t, c, u);
    }
  }

  lemma TwoWrite(r: State, t: Tid, c: Class, u: Tid)
    requires Slot(t, c) in r.hot && u != t && (Of(r, u).line.PushLocal? || Uses(r, u))
    ensures Broken(r)
  {
    assert Uses(r, t);
    assert WritesLocalList(r, t) && WritesLocalList(r, u);
  }

  // ----- t moves the remote blocks to its local list -----

  lemma RelocateNone(place: map<Block, Place>, from: Place, to: Place)
    requires At(place, from) == {}
    ensures Relocate(place, from, to) == place
  {
    forall b | b in place ensures place[b] != from {
      assert b !in At(place, from);
    }
  }

  lemma RelocateTwice(place: map<Block, Place>, t: Tid)
    requires At(place, Moving(t)) == {}
    ensures Relocate(Relocate(place, Remote, Moving(t)), Moving(t), Local) == Relocate(place, Remote, Local)
    ensures |At(Relocate(place, Remote, Moving(t)), Moving(t))| == |At(place, Remote)|
  {
    Relocated(place, Remote, Moving(t), t);
    forall b | b in place ensures place[b] != Moving(t) {
      assert b !in At(place, Moving(t));
    }
  }

  lemma RelocateOne(place: map<Block, Place>, t: Tid, b: Block)
    requires b in At(place, Moving(t))
    ensures b in place && place[b] == Moving(t)
    ensures Relocate(place[b := Local], Moving(t), Local) == Relocate(place, Moving(t), Local)
    ensures |At(place[b := Local], Moving(t))| == |At(place, Moving(t))| - 1
  {
    Arrived(place, b, Local);
  }

  /** The end of MoveRemoteToLocalObjects: n blocks moved one by one. */
  function MovedIn(q: State, t: Tid, h: Thread, n: nat): State {
    Go(q.(place := Relocate(q.place, Moving(t), Local), len := q.len + n), t, h.(line := Popping, n := h.n - n))
  }

  /** The loop of MoveRemoteToLocalObjects. */
  lemma {:induction false} MovesAll(s0: State, q: State, t: Tid, h: Thread)
    requires Leads(s0, Go(q, t, h), Tested) && h.line.MoveEach? && t !in q.dead
    ensures Leads(s0, MovedIn(q, t, h, |At(q.place, Moving(t))|), Tested)
    decreases |At(q.place, Moving(t))|
  {
    hide Leads, Free1, Free2, Free3, Free4, Free5, Build, GetSpan, GiveUp, Relocate;
    if b :| b in At(q.place, Moving(t)) {
      RelocateOne(q.place, t, b);
      hide At;
      MovesNext(s0, q, t, h, b);
      MovesAll(s0, q.(place := q.place[b := Local], len := q.len + 1), t, h.(n := h.n - 1));
    } else {
      RelocateNone(q.place, Moving(t), Local);
      Easily(s0, Go(q, t, h), Advance(t), Tested);
      assert q.threads[t := h][t := h.(line := Popping)] == q.threads[t := h.(line := Popping)];
    }
  }

  lemma MovesNext(s0: State, q: State, t: Tid, h: Thread, b: Block)
    requires Leads(s0, Go(q, t, h), Tested) && h.line.MoveEach? && t !in q.dead && b in q.place && q.place[b] == Moving(t)
    ensures Leads(s0, Go(q.(place := q.place[b := Local], len := q.len + 1), t, h.(n := h.n - 1)), Tested)
  {
    hide Leads, AdvanceLine;
    Easily(s0, Go(q, t, h), MoveOne(t, b), Tested);
    assert q.threads[t := h][t := h.(n := h.n - 1)] == q.threads[t := h.(n := h.n - 1)];
  }

  /** The state after PopAll and the move, with some length in t's local variable. */
  function Collected(q: State, t: Tid, n: int): State {
    Go(q.(place := Relocate(q.place, Remote, Local), len := q.len + q.tag, tag := 0), t, Of(q, t).(line := Popping, n := n))
  }

  lemma PopsAll(s0: State, q: State, t: Tid)
    requires Leads(s0, q, Tested) && Of(q, t).line.Collect? && t !in q.dead && q.tag != 0
    ensures Leads(s0, Go(q.(place := Relocate(q.place, Remote, Moving(t)), tag := 0), t,
                         Of(q, t).(line := Move, n := q.tag)), Tested)
  {
    hide Leads, Free1, Free2, Free3, Free4, Free5, Build, GetSpan, GiveUp, Relocate;
    Easily(s0, q, Advance(t), Tested);
  }

  lemma MovesOver(s0: State, g: State, t: Tid, h: Thread) returns (n: int)
    requires Leads(s0, Go(g, t, h), Tested) && h.line.Move? && t !in g.dead && h.n == |At(g.place, Moving(t))|
    ensures Leads(s0, Go(g.(place := Relocate(g.place, Moving(t), Local), len := g.len + h.n), t,
                         h.(line := Popping, n := n)), Tested)
  {
    hide Leads, Free1, Free2, Free3, Free4, Free5, Build, GetSpan, GiveUp, Relocate, At;
    var k := h.(line := MoveEach);
    Easily(s0, Go(g, t, h), Advance(t), Tested);
    if g.len == 0 {
      assert g.threads[t := h][t := h.(line := Popping)] == g.threads[t := h.(line := Popping)];
      n := h.n;
    } else {
      assert g.threads[t := h][t := k] == g.threads[t := k];
      MovesAll(s0, g, t, k);
      n := 0;
    }
  }

  /** PopAll, and the move. */
  lemma MovesIn(s0: State, q: State, t: Tid) returns (n: int)
    requires Leads(s0, q, Tested) && Of(q, t).line.Collect? && t !in q.dead && q.tag == |At(q.place, Remote)|
    requires At(q.place, Moving(t)) == {}
    ensures Leads(s0, Collected(q, t, n), Tested)
  {
    var h := Of(q, t);
    if q.tag == 0 {
      RelocateNone(q.place, Remote, Local);
      n := h.n;
      hide Leads, Free1, Free2, Free3, Free4, Free5, Build, GetSpan, GiveUp, Relocate, At;
      Easily(s0, q, Advance(t), Tested);
    } else {
      RelocateTwice(q.place, t);
      hide Leads, At, Relocate;
      PopsAll(s0, q, t);
      n := MovesOver(s0, q.(place := Relocate(q.place, Remote, Moving(t)), tag := 0), t, h.(line := Move, n := q.tag));
    }
  }

  lemma CollectedReady(q: State, t: Tid, c: Class, n: int)
    requires Ready(q, t, c)
    ensures Ready(Collected(q, t, n), t, c) && At(q.place, Moving(t)) == {}
  {
    forall b | b in q.place ensures q.place[b] != Moving(t) && BlockOk(q, t, b) {
      assert BlockOk(q, t, b);
    }
    Relocated(q.place, Remote, Local, t);
    var r := Collected(q, t, n);
    hide At;
    forall b | b in r.place ensures BlockOk(r, t, b) {
      assert BlockOk(q, t, b);
    }
  }

  /** Thread t has come to its Pop: what was remote is local. */
  lemma Collects(s0: State, q: State, t: Tid, c: Class) returns (r: State)
    requires Leads(s0, q, Tested) && Ready(q, t, c) && Of(q, t).line.Collect? && Of(q, t).c == c
    ensures Leads(s0, r, Tested) && Ready(r, t, c) && Alike(q, r, t) && AtPop(r, t, c)
    ensures forall b :: b in q.place && !q.place[b].Flight? ==> r.place[b] == if q.place[b].Out? then Out else Local
  {
    CollectedReady(q, t, c, 0);
    assert Ready(q, t, c) && (forall b :: b in q.place ==> BlockOk(q, t, b));
    var n := MovesIn(s0, q, t);
    CollectedReady(q, t, c, n);
    r := Collected(q, t, n);
    hide Leads, Ready, At;
  }

  /** On the line of Pop, or after it. */
  ghost predicate AtPop(q: State, t: Tid, c: Class) {
    var h := Of(q, t);
    h.line.Idle? || (h.line.Popping? && h.c == c)
  }

  /** Thread t allocates block b, unless it is in use. */
  lemma PopsOut(s0: State, q: State, t: Tid, c: Class, b: Block) returns (r: State)
    requires Leads(s0, q, Tested) && Ready(q, t, c) && AtPop(q, t, c)
    requires b in q.place && (q.place[b].Local? || q.place[b].Out?)
    ensures Leads(s0, r, Tested) && Ready(r, t, c) && Alike(q, r, t) && AtPop(r, t, c)
    ensures r.place == q.place[b := Out]
  {
    if q.place[b].Out? {
      assert q.place[b := Out] == q.place;
      r := q;
    } else {
      var h := Of(q, t).(line := Idle, c := c);
      r := Go(q.(place := q.place[b := Out], len := q.len - 1), t, h);
      assert q.owner != t && t !in q.dead && t !in q.lists.leaving && Slot(t, c) in q.hot;
      hide Ready, At, Leads;
      if Of(q, t).line.Idle? {
        Mallocs(s0, q, t, c, b, Tested);
      } else {
        hide AdvanceLine;
        Easily(s0, q, Allocate(t, b), Tested);
      }
      ReadyKept(q, r, t, c, t, b, Out);
    }
  }

  /** Two blocks, or one, come into use, unless there are two writers already. */
  lemma BothOut(s0: State, q: State, t: Tid, c: Class, a: Block, b: Block) returns (r: State)
    requires Leads(s0, q, Tested) && Ready(q, t, c) && Of(q, t).line.Collect? && Of(q, t).c == c
    requires a in q.place && b in q.place
    ensures Leads(s0, r, Tested)
    ensures Broken(r) || (Ready(r, t, c) && Alike(q, r, t) && AtPop(r, t, c) && r.place[a].Out? && r.place[b].Out?)
  {
    hide Leads, Ready, Broken, At;
    r := Lands(s0, q, t, c, a);
    if Broken(r) { return; }
    r := Lands(s0, r, t, c, b);
    if Broken(r) { return; }
    r := Collects(s0, r, t, c);
    r := PopsOut(s0, r, t, c, a);
    r := PopsOut(s0, r, t, c, b);
  }

  /** A live owner at rest frees a block while t has the span. */
  lemma OwnerFrees(s0: State, q: State, t: Tid, c: Class, b: Block) returns (r: State)
    requires Leads(s0, q, Tested) && Slot(t, c) in q.hot && q.owner != t
    requires q.owner !in q.dead && AtRest(q, q.owner, Of(q, q.owner)) && b in q.place && q.place[b] == Out
    ensures Leads(s0, r, Tested) && Broken(r)
  {
    hide Leads, Broken;
    var x := q.owner;
    LocalFree(s0, q, x, b, Tested);
    r := Go(q.(place := q.place[b := Flight(x)]), x, Thread(PushLocal, b, q.epoch, x, q.class_, Of(q, x).n));
    TwoWrite(r, t, c, x);
  }

  // ----- the owner lives -----

  /** No list has the span, no PushFront is under way, and it is hot. */
  ghost predicate Calm(q: State) {
    && q.lists.link.Null? && q.lists.linked == multiset{} && q.lists.locked == map[] && q.lists.pooled == 0
    && q.token.HotBy? && q.epoch.mark.Hot?
  }

  /** The owner x is past its loads in Core::Free, or elsewhere on its way to rest, and no mark of it will
      succeed. */
  ghost predicate Late(q: State, x: Tid) {
    var h := Of(q, x);
    && (h.line.Idle? || h.line.PushRemote? || h.line.AddRemote? || h.line.AddLocal? || Summed(h.line)
        || h.line.PushLink? || h.line.TookLink? || h.line.Acquire?)
    && (h.line.PushRemote? ==> h.p in q.place && q.place[h.p] == Flight(x))
    && (h.line.PushRemote? || h.line.AddRemote? || h.line.AddLocal? || Summed(h.line) ==> h.e != q.epoch)
    && (h.line.Revive? ==> h.o in q.dead)
  }

  /** One such step. */
  ghost predicate Nearer(q: State, m: State, x: Tid) {
    && m == q.(threads := q.threads[x := Of(m, x)])
    && Late(m, x) && FreeSteps(Of(m, x).line) < FreeSteps(Of(q, x).line) && !Carrying(Of(q, x).line)
  }

  lemma NearerSum(q: State, x: Tid, h: Thread)
    requires Late(q, x) && h == Of(q, x) && x !in q.dead
    requires h.line.AddRemote? || h.line.AddLocal? || h.line.CheckOwner?
    ensures Nearer(q, AdvanceLine(q, x, h), x)
  {
    hide Free1, Free4, Free5, Build, GetSpan, MoveIn, GiveUp;
  }

  lemma NearerMark(q: State, x: Tid, h: Thread)
    requires Late(q, x) && h == Of(q, x) && x !in q.dead && q.owner == x && q.epoch.Exclusive()
    requires h.line.Revive? || h.line.FloatRevived? || h.line.MarkFreed?
    ensures Nearer(q, AdvanceLine(q, x, h), x)
  {
    hide Free1, Free2, Free5, Build, GetSpan, MoveIn, GiveUp;
  }

  lemma NearerSpan(q: State, x: Tid, h: Thread)
    requires Late(q, x) && h == Of(q, x) && q.epoch.Exclusive() && (h.line.TookLink? || h.line.Acquire?)
    ensures Nearer(q, AdvanceLine(q, x, h), x) && (x !in q.dead ==> Meets(q, Advance(x), Tested))
  {
    hide Free1, Free2, Free3, Free4, Free5, Build, MoveIn, GiveUp;
  }

  /** The owner's own late PushFront runs to its end. */
  lemma Inserts1(s0: State, q: State, t: Tid, c: Class, x: Tid) returns (r: State)
    requires Leads(s0, q, Tested) && Ready(q, t, c) && Calm(q) && x != t && x !in q.dead && Of(q, x).line.PushLink?
    ensures Leads(s0, r, Tested) && Ready(r, t, c) && r == q.(lists := r.lists, threads := q.threads[x := Of(r, x)])
    ensures Of(r, x).line.Idle? && r.lists.leaving == q.lists.leaving
  {
    assert q.owner != t && t !in q.lists.leaving;
    hide Leads, Ready, At, Free1, Free2, Free3, Free4, Build, GetSpan, MoveIn, GiveUp;
    var m := Next(q, Advance(x));
    assert m.lists.leaving == q.lists.leaving;
    Easily(s0, q, Advance(x), Tested);
    ReadyStill(q, m, t, c, x);
    if Of(m, x).line.Idle? {
      r := m;
    } else {
      assert Of(m, x).line.PushInsert? && m.lists == q.lists.(locked := m.lists.locked);
      r := Insert1(s0, m, t, c, x);
    }
  }

  lemma Insert1(s0: State, q: State, t: Tid, c: Class, x: Tid) returns (r: State)
    requires Leads(s0, q, Tested) && Ready(q, t, c) && x != t && x !in q.dead && Of(q, x).line.PushInsert?
    requires q.lists.link.Null? && q.lists.pooled == 0 && q.token.HotBy? && q.epoch.mark.Hot?
    ensures Leads(s0, r, Tested) && Ready(r, t, c) && r == q.(lists := r.lists, threads := q.threads[x := Of(r, x)])
    ensures Of(r, x).line.Idle? && r.lists.leaving == q.lists.leaving
  {
    assert q.owner != t && t !in q.lists.leaving;
    hide Leads, Ready, At, Free1, Free2, Free3, Free4, Build, GetSpan, MoveIn, GiveUp;
    r := Next(q, Advance(x));
    Do(s0, q, Advance(x), Tested);
    ReadyStill(q, r, t, c, x);
  }

  lemma StepNearer(s0: State, q: State, t: Tid, c: Class, x: Tid) returns (m: State)
    requires Leads(s0, q, Tested) && Ready(q, t, c) && Late(q, x) && Calm(q) && q.owner == x && x !in q.dead
    requires !Of(q, x).line.Idle? && !Of(q, x).line.PushRemote? && !Of(q, x).line.PushLink?
    ensures Leads(s0, m, Tested) && Ready(m, t, c) && Nearer(q, m, x)
  {
    assert q.owner != t && t !in q.lists.leaving;
    hide Leads, Ready, Late, At, AdvanceLine, Carrying, Calm;
    var h := Of(q, x);
    m := Next(q, Advance(x));
    if h.line.TookLink? || h.line.Acquire? {
      CalmHot(q);
      NearerSpan(q, x, h);
      Do(s0, q, Advance(x), Tested);
    } else {
      CalmHot(q);
      LateLine(q, x);
      if h.line.AddRemote? || h.line.AddLocal? || h.line.CheckOwner? {
        NearerSum(q, x, h);
      } else {
        NearerMark(q, x, h);
      }
      Easily(s0, q, Advance(x), Tested);
    }
    ReadyStill(q, m, t, c, x);
  }

  lemma CalmHot(q: State)
    requires Calm(q)
    ensures q.epoch.Exclusive()
  {
  }

  lemma LateLine(q: State, x: Tid)
    requires Late(q, x)
    ensures var h := Of(q, x);
      h.line.Idle? || h.line.PushRemote? || h.line.AddRemote? || h.line.AddLocal? || Summed(h.line)
      || h.line.PushLink? || h.line.TookLink? || h.line.Acquire?
  {
  }

  lemma {:induction false} ToRest(s0: State, q: State, t: Tid, c: Class, x: Tid) returns (r: State)
    requires Leads(s0, q, Tested) && Ready(q, t, c) && Late(q, x) && Calm(q) && q.owner == x && x !in q.dead
    ensures Leads(s0, r, Tested) && Ready(r, t, c) && r.owner == x && x !in r.dead && Of(r, x).line.Idle?
    ensures r.lists.leaving == q.lists.leaving && Of(r, t) == Of(q, t)
    decreases FreeSteps(Of(q, x).line)
  {
    assert q.owner != t;
    if Of(q, x).line.Idle? {
      r := q;
    } else if Of(q, x).line.PushRemote? {
      hide Leads, Ready, At;
      r := PushedRemote(s0, q, t, c, x);
      r := ToRest(s0, r, t, c, x);
    } else if Of(q, x).line.PushLink? {
      hide Leads, Ready, Late;
      r := Inserts1(s0, q, t, c, x);
    } else {
      hide Leads, Ready, Late;
      var m := StepNearer(s0, q, t, c, x);
      r := ToRest(s0, m, t, c, x);
    }
  }

  /** A live owner comes to rest and frees a block. */
  lemma LiveOwner(s0: State, q: State, t: Tid, c: Class) returns (r: State)
    requires Leads(s0, q, Tested) && Ready(q, t, c) && Of(q, t).line.Collect? && Of(q, t).c == c
    requires q.owner !in q.dead && AtRest(q, q.owner, Of(q, q.owner))
    ensures Leads(s0, r, Tested) && Broken(r)
  {
    var b :| b in q.place;
    r := BothOut(s0, q, t, c, b, b);
    if !Broken(r) {
      assert Slot(t, c) in r.hot && r.owner != t;
      hide Leads, Ready, Broken;
      r := OwnerFrees(s0, r, t, c, b);
    }
  }

  // ----- the owner is ending -----

  lemma {:induction false} ClosesAll(s0: State, q: State, x: Tid, rest: set<Class>) returns (r: State)
    requires Leads(s0, q, Tested) && Of(q, x).line.Idle? && x !in q.dead && x in q.lists.leaving && x in q.threads
    requires forall d :: d in q.lists.classes ==> d in rest || Slot(x, d) in q.lists.closed
    ensures Leads(s0, r, Tested) && r == q.(lists := q.lists.(closed := r.lists.closed))
    ensures forall d :: d in q.lists.classes ==> Slot(x, d) in r.lists.closed
    ensures forall at: Slot :: at in r.lists.closed ==> at in q.lists.closed || at.t == x
    decreases |rest|
  {
    r := q;
    if d :| d in rest {
      if d in q.lists.classes && Slot(x, d) !in q.lists.closed {
        r := Next(q, Close(x, d));
        assert r.threads == q.threads && r.lists.leaving == q.lists.leaving;
        hide Leads, Next;
        Easily(s0, q, Close(x, d), Tested);
      }
      hide Leads;
      r := ClosesAll(s0, r, x, rest - {d});
    }
  }

  /** An owner in Destroy closes its deques, none of which holds the span, and ends. */
  lemma Ends(s0: State, q: State, t: Tid, c: Class, x: Tid) returns (r: State)
    requires Leads(s0, q, Tested) && Ready(q, t, c) && Calm(q) && q.owner == x && x !in q.dead && x in q.threads
    requires x in q.lists.leaving && Of(q, x).line.Idle? && q.hot == {Slot(t, c)}
    ensures Leads(s0, r, Tested) && Ready(r, t, c) && Calm(r) && r.owner in r.dead
    ensures r == q.(lists := q.lists.(closed := r.lists.closed), dead := q.dead + {x})
  {
    assert q.owner != t;
    var m := ClosesAll(s0, q, x, q.lists.classes);
    r := m.(dead := q.dead + {x});
    assert m.threads[x := Of(m, x)] == m.threads;
    assert Enabled(m, Terminate(x)) && Next(m, Terminate(x)) == r;
    EndReady(q, r, t, c, x);
    hide Leads, Ready, Next;
    Easily(s0, m, Terminate(x), Tested);
  }

  lemma EndReady(q: State, r: State, t: Tid, c: Class, x: Tid)
    requires Ready(q, t, c) && Of(q, x).line.Idle? && x != t
    requires r == q.(lists := q.lists.(closed := r.lists.closed), dead := q.dead + {x})
    ensures Ready(r, t, c)
  {
    hide At;
    forall d | d in r.place ensures BlockOk(r, t, d) {
      assert BlockOk(q, t, d);
    }
  }

  // ----- the owner is dead -----

  lemma {:induction false} Fresh(ids: set<Tid>) returns (f: Tid)
    ensures forall u: Tid :: u in ids ==> u < f
    decreases |ids|
  {
    f := 0;
    if u :| u in ids {
      var g := Fresh(ids - {u});
      f := if u < g then g else u + 1;
      forall v | v in ids ensures v < f {
        assert v == u || v in ids - {u};
      }
    }
  }

  /** A thread that has not begun. */
  ghost predicate Newcomer(q: State, f: Tid) {
    && f !in q.threads && f !in q.dead && f !in q.lists.leaving
    && forall at: Slot :: at in q.lists.closed ==> at.t != f
  }

  lemma NewThread(q: State) returns (f: Tid)
    ensures Newcomer(q, f)
  {
    var cores := set at: Slot | at in q.lists.closed :: at.t;
    f := Fresh(q.threads.Keys + q.dead + q.lists.leaving + cores);
    forall at: Slot | at in q.lists.closed ensures at.t != f {
      assert at.t in cores;
    }
  }

  /** After its adoption the marks of a newcomer find a floating epoch. It comes to rest, with the span in
      its own deque if enough blocks are free. */
  ghost predicate Adopted(q: State, r: State, f: Tid) {
    && r.place == q.place && r.len == q.len && r.tag == q.tag && r.hot == q.hot && r.owner == q.owner && r.dead == q.dead
    && r.class_ == q.class_ && r.threads == q.threads[f := Of(r, f)] && AtRest(r, f, Of(r, f))
    && (Of(q, f).n > Of(q, f).c.threshold ==>
          r.lists.linked == multiset{Named(Of(q, f))} && r.lists.locked == map[] && r.epoch.IsReusable())
  }

  lemma Relinks(s0: State, q: State, f: Tid) returns (r: State)
    requires Leads(s0, q, Tested) && f !in q.dead && f !in q.lists.leaving
    requires var h := Of(q, f); h.line.MarkFreed? && h.o == f && h.e.mark.Hot? && q.epoch == h.e.OnlyValue()
    requires q.lists.link.Null? && q.lists.linked == multiset{} && q.lists.locked == map[] && q.lists.pooled == 0
    requires q.token.HotBy? && Named(Of(q, f)) !in q.lists.closed
    ensures Leads(s0, r, Tested) && Adopted(q, r, f)
  {
    hide Leads, Free1, Free2, Free3, Build, GetSpan, MoveIn, GiveUp;
    var h := Of(q, f);
    Easily(s0, q, Advance(f), Tested);
    if h.n > h.c.threshold {
      var r1 := Go(q.(epoch := Epoch(q.epoch.count + 1, Reusable)), f, h.(line := PushLink));
      assert Next(q, Advance(f)) == r1;
      r := Linked(s0, r1, f);
      assert q.threads[f := h.(line := PushLink)][f := Of(r, f)] == q.threads[f := Of(r, f)];
    } else {
      r := Next(q, Advance(f));
    }
  }

  lemma Linked(s0: State, q: State, f: Tid) returns (r: State)
    requires Leads(s0, q, Tested) && f !in q.dead && Of(q, f).line.PushLink?
    requires q.lists.link.Null? && q.lists.linked == multiset{} && q.lists.locked == map[] && q.lists.pooled == 0
    requires q.token.HotBy? && !q.epoch.mark.Full? && !Refused(q, Named(Of(q, f)))
    ensures Leads(s0, r, Tested) && r == q.(lists := r.lists, threads := q.threads[f := Of(q, f).(line := Idle)])
    ensures r.lists.linked == multiset{Named(Of(q, f))} && r.lists.locked == map[] && r.lists.leaving == q.lists.leaving
  {
    hide Leads, Free1, Free2, Free3, Free4, Build, GetSpan, MoveIn, GiveUp;
    var h, at := Of(q, f), Named(Of(q, f));
    var m := Go(q.(lists := q.lists.(locked := map[at := f])), f, h.(line := PushInsert));
    assert Next(q, Advance(f)) == m;
    r := Next(m, Advance(f));
    assert r.lists.locked == map[];
    assert q.threads[f := h.(line := PushInsert)][f := h.(line := Idle)] == q.threads[f := h.(line := Idle)];
    Easily(s0, q, Advance(f), Tested);
    Do(s0, m, Advance(f), Tested);
  }

  /** A newcomer frees block b and adopts the span. */
  lemma Adopts(s0: State, q: State, f: Tid, b: Block) returns (r: State)
    requires Leads(s0, q, Tested) && Calm(q) && q.owner in q.dead && Newcomer(q, f) && b in q.place && q.place[b] == Out
    ensures Leads(s0, r, Tested) && r.place == q.place[b := Remote] && r.hot == q.hot && r.owner == f && r.dead == q.dead
    ensures r.class_ == q.class_ && AtRest(r, f, Of(r, f))
    ensures q.tag + 1 + q.len > q.class_.threshold ==>
      r.lists.linked == multiset{Slot(f, q.class_)} && r.lists.locked == map[] && r.epoch.IsReusable()
  {
    hide Leads;
    assert Of(q, f) == Unstarted;
    Revives(s0, q, f, b, Tested);
    var h := Thread(MarkFreed, b, q.epoch, f, q.class_, q.tag + 1 + q.len);
    var m := Go(q.(place := q.place[b := Remote], tag := q.tag + 1, owner := f, epoch := q.epoch.OnlyValue()), f, h);
    assert Of(m, f) == h && Named(h) == Slot(f, q.class_);
    r := Relinks(s0, m, f);
  }

  /** The newcomer takes the span it has adopted from its own deque, and uses it beside t. */
  lemma TakesBack(s0: State, q: State, t: Tid, c: Class, f: Tid) returns (r: State)
    requires Leads(s0, q, Tested) && q.hot == {Slot(t, c)} && f != t && q.owner == f && f !in q.dead
    requires AtRest(q, f, Of(q, f)) && q.lists.linked == multiset{Slot(f, q.class_)} && q.lists.locked == map[]
    requires q.epoch.IsReusable()
    ensures Leads(s0, r, Tested) && Broken(r)
  {
    hide Leads, Free1, Free2, Free3, Free4, Free5, Build, MoveIn, GiveUp, Broken;
    var d := q.class_;
    var r1 := Next(q, TakeLink(f, d));
    var r2 := Next(r1, Advance(f));
    assert Of(r1, f).line.TookLink? && Of(r2, f) == Of(q, f).(line := Acquire, c := d, e := q.epoch);
    r := Next(r2, Advance(f));
    assert Meets(r2, Advance(f), Tested) && Enabled(r1, Advance(f));
    assert Slot(f, d) in r.hot && Slot(t, c) in r.hot;
    hide Next, Meets;
    Easily(s0, q, TakeLink(f, d), Tested);
    Easily(s0, r1, Advance(f), Tested);
    Do(s0, r2, Advance(f), Tested);
    TwoWrite(r, t, c, f);
  }

  /** What moving blocks does not change. */
  lemma AlikeCalm(q: State, r: State, t: Tid, c: Class)
    requires Alike(q, r, t) && Calm(q) && Ready(r, t, c)
    ensures Calm(r) && r.owner == q.owner && r.dead == q.dead && r.hot == q.hot && r.class_ == q.class_
    ensures r.place.Keys == q.place.Keys && r.len >= 0 && r.tag >= 0
  {
  }

  /** A newcomer frees block a and adopts the span, and frees block b as its owner, or takes the span back
      if there is no other block. */
  lemma AdoptsAndFrees(s0: State, q: State, t: Tid, c: Class, a: Block, b: Block) returns (r: State)
    requires Leads(s0, q, Tested) && Calm(q) && q.owner in q.dead && q.hot == {Slot(t, c)} && t in q.threads
    requires a in q.place && b in q.place && q.place[a] == Out && q.place[b] == Out
    requires a == b ==> q.tag + 1 + q.len > q.class_.threshold
    ensures Leads(s0, r, Tested) && Broken(r)
  {
    var f := NewThread(q);
    hide Leads, Calm, Broken;
    r := Adopts(s0, q, f, a);
    if a != b {
      r := OwnerFrees(s0, r, t, c, b);
    } else {
      r := TakesBack(s0, r, t, c, f);
    }
  }

  lemma DeadOwner(s0: State, q: State, t: Tid, c: Class) returns (r: State)
    requires Leads(s0, q, Tested) && Ready(q, t, c) && Calm(q) && Of(q, t).line.Collect? && Of(q, t).c == c
    requires q.owner in q.dead && q.hot == {Slot(t, c)} && t in q.threads
    requires q.place.Keys == Blocks(q.class_.objects) && q.class_.threshold < q.class_.objects
    ensures Leads(s0, r, Tested) && Broken(r)
  {
    var n := q.class_.objects;
    var b := if n > 1 then 1 else 0;
    assert 0 in q.place && b in q.place;
    hide Leads, Ready, Calm, Broken, AtPop, Blocks;
    r := BothOut(s0, q, t, c, 0, b);
    if !Broken(r) {
      AlikeCalm(q, r, t, c);
      r := AdoptsAndFrees(s0, r, t, c, 0, b);
    }
  }
}
