/** The remote free list of a span: src/stack.h:56-64 (PushReturnTag) and 104-126 (PopAll, Length) on
    one tagged word, with the walk over the popped list in src/span.h:295-315. The tag has the 16 bits
    of src/atomic_value.h:24-30 and goes back to 0 at every PopAll, so a top can recur; the list stays
    right all the same. Any number of threads, one atomic operation per step. */
module RemoteFreeList {
  import opened Chains
  import opened Sequences

  type Tid = nat

  const TAGS: nat := 0x1_0000

  datatype Top = Top(ptr: Node, tag: nat)

  datatype Line = Idle | PushLoad | PushLink | PushSwap | PopLoad | PopSwap | Walk | Take

  /** Local variables: p is the block pushed, top_old as in the source; after PopAll, p is the block
      the walk has reached, next the word read from it, count and len as in the source. */
  datatype Thread = Thread(line: Line, p: Node, top_old: Top, next: Node, count: nat, len: nat)

  datatype Place = Free | Pushing(t: Tid) | Listed | Taken(t: Tid)

  datatype State = State(
    top: Top,
    memory: Memory,
    threads: map<Tid, Thread>,
    blocks: set<Node>,                // the blocks of the span
    place: map<Node, Place>,          // auxiliary: who owns a block
    contents: seq<Node>,              // auxiliary: what the links from top spell
    taken: map<Tid, seq<Node>>)       // auxiliary: what is left of a popped list

  function Of(s: State, t: Tid): Thread {
    if t in s.threads then s.threads[t] else Thread(Idle, 0, Top(0, 0), 0, 0, 0)
  }

  function TakenBy(s: State, t: Tid): seq<Node> {
    if t in s.taken then s.taken[t] else []
  }

  function PlaceOf(s: State, p: Node): Place {
    if p in s.place then s.place[p] else Free
  }

  function Go(s: State, t: Tid, h: Thread): State {
    s.(threads := s.threads[t := h])
  }

  datatype Step =
    | StartPush(t: Tid, p: Node)
    | StartPopAll(t: Tid)
    | Advance(t: Tid)
    | Write(t: Tid, p: Node, v: Node)     // the owner of a block uses its memory

  ghost predicate Enabled(s: State, a: Step) {
    match a
    case StartPush(t, p) => Of(s, t).line.Idle? && p in s.blocks && PlaceOf(s, p).Free?
    case StartPopAll(t) => Of(s, t).line.Idle?
    case Advance(t) => !Of(s, t).line.Idle?
    case Write(t, p, v) => PlaceOf(s, p).Free?
  }

  function AdvancePush(s: State, t: Tid, h: Thread): State {
    match h.line
    case PushLoad => Go(s, t, h.(line := PushLink, top_old := s.top))
    case PushLink => Go(s.(memory := Store(s.memory, h.p, h.top_old.ptr)), t, h.(line := PushSwap))
    case _ =>
      if s.top == h.top_old then
        Go(s.(top := Top(h.p, (h.top_old.tag + 1) % TAGS),
              place := s.place[h.p := Listed], contents := [h.p] + s.contents), t, h.(line := Idle))
      else Go(s, t, h.(line := PushLoad))
  }

  function MarkTaken(s: State, t: Tid): map<Node, Place> {
    map p | p in s.place :: if s.place[p].Listed? then Taken(t) else s.place[p]
  }

  function AdvancePop(s: State, t: Tid, h: Thread): State {
    match h.line
    case PopLoad =>
      if s.top.ptr == 0 then Go(s, t, h.(line := Walk, top_old := s.top, p := 0, count := 0, len := s.top.tag))
      else Go(s, t, h.(line := PopSwap, top_old := s.top))
    case _ =>
      if s.top == h.top_old then
        Go(s.(top := Top(0, 0), place := MarkTaken(s, t), contents := [], taken := s.taken[t := s.contents]),
           t, h.(line := Walk, p := h.top_old.ptr, count := 0, len := h.top_old.tag))
      else Go(s, t, h.(line := PopLoad))
  }

  /** One turn of the loop that moves a popped list: read the next word, then give the block away. */
  function AdvanceWalk(s: State, t: Tid, h: Thread): State {
    match h.line
    case Walk =>
      if h.p == 0 then Go(s, t, h.(line := Idle))
      else Go(s, t, h.(line := Take, next := Load(s.memory, h.p)))
    case _ =>
      Go(s.(place := s.place[h.p := Free], taken := s.taken[t := if TakenBy(s, t) == [] then [] else TakenBy(s, t)[1..]]),
         t, h.(line := Walk, p := h.next, count := h.count + 1))
  }

  function Next(s: State, a: Step): State {
    match a
    case StartPush(t, p) => Go(s.(place := s.place[p := Pushing(t)]), t, Of(s, t).(line := PushLoad, p := p))
    case StartPopAll(t) => Go(s, t, Of(s, t).(line := PopLoad))
    case Advance(t) =>
      var h := Of(s, t);
      if h.line.PushLoad? || h.line.PushLink? || h.line.PushSwap? then AdvancePush(s, t, h)
      else if h.line.PopLoad? || h.line.PopSwap? then AdvancePop(s, t, h)
      else AdvanceWalk(s, t, h)
    case Write(t, p, v) => s.(memory := Store(s.memory, p, v))
  }

  /** The list of a new span, whose blocks fit the tag. */
  ghost predicate Init(s: State) {
    && s.top == Top(0, 0) && s.threads == map[] && s.place == map[] && s.contents == [] && s.taken == map[]
    && 0 !in s.blocks && |s.blocks| < TAGS
  }

  // ----- the invariant -----

  ghost predicate ThreadOk(s: State, t: Tid) {
    var h := Of(s, t);
    && (h.line.PushLoad? || h.line.PushLink? || h.line.PushSwap? ==> h.p in s.blocks && PlaceOf(s, h.p) == Pushing(t))
    && (h.line.PushSwap? ==> Load(s.memory, h.p) == h.top_old.ptr)
    && (h.line.PopSwap? ==> h.top_old.ptr != 0)
    && (h.line.Walk? || h.line.Take? ==> h.count + |TakenBy(s, t)| == h.len && Chain(s.memory, h.p, TakenBy(s, t)))
    && (h.line.Take? ==> TakenBy(s, t) != [] && h.next == Load(s.memory, h.p))
    && (!h.line.Walk? && !h.line.Take? ==> TakenBy(s, t) == [])
    && Distinct(TakenBy(s, t))
    && (forall i :: 0 <= i < |TakenBy(s, t)| ==> PlaceOf(s, TakenBy(s, t)[i]) == Taken(t))
  }

  ghost predicate ListOk(s: State) {
    && Chain(s.memory, s.top.ptr, s.contents)
    && s.top.tag == |s.contents|
    && Distinct(s.contents)
    && (forall i :: 0 <= i < |s.contents| ==> s.contents[i] in s.blocks && PlaceOf(s, s.contents[i]).Listed?)
    && 0 !in s.blocks && |s.blocks| < TAGS
  }

  ghost predicate Inv(s: State) {
    ListOk(s) && forall t: Tid :: ThreadOk(s, t)
  }

  lemma InitInv(s: State)
    requires Init(s)
    ensures Inv(s)
  {
  }

  /** Every other thread keeps its claim when t changes blocks that are not its own. */
  ghost predicate Rely(s: State, s': State, t: Tid) {
    && (forall u: Tid :: u != t ==> Of(s', u) == Of(s, u) && TakenBy(s', u) == TakenBy(s, u))
    && s'.blocks == s.blocks
    && (forall p: Node, u: Tid :: u != t && (PlaceOf(s, p) == Pushing(u) || PlaceOf(s, p) == Taken(u)) ==>
          PlaceOf(s', p) == PlaceOf(s, p) && Load(s'.memory, p) == Load(s.memory, p))
  }

  lemma {:induction false} SameChain(m: Memory, m': Memory, p: Node, list: seq<Node>)
    requires Chain(m, p, list)
    requires forall i :: 0 <= i < |list| ==> Load(m', list[i]) == Load(m, list[i])
    ensures Chain(m', p, list)
    decreases |list|
  {
    if list != [] {
      forall i | 0 <= i < |list[1..]| ensures Load(m', list[1..][i]) == Load(m, list[1..][i]) {
        assert list[1..][i] == list[i + 1];
      }
      SameChain(m, m', Load(m, p), list[1..]);
    }
  }

  lemma OthersOk(s: State, s': State, t: Tid)
    requires Inv(s) && Rely(s, s', t) && ListOk(s') && ThreadOk(s', t)
    ensures Inv(s')
  {
    forall u: Tid ensures ThreadOk(s', u) {
      assert ThreadOk(s, u);
      if u != t && (Of(s, u).line.Walk? || Of(s, u).line.Take?) {
        SameChain(s.memory, s'.memory, Of(s, u).p, TakenBy(s, u));
        assert TakenBy(s, u) != [] ==> Of(s, u).p == TakenBy(s, u)[0];
      }
    }
  }

  lemma PushOk(s: State, t: Tid, h: Thread)
    requires Inv(s) && h == Of(s, t) && (h.line.PushLoad? || h.line.PushLink?)
    ensures Inv(AdvancePush(s, t, h))
  {
    assert ThreadOk(s, t);
    var s' := AdvancePush(s, t, h);
    if h.line.PushLink? {
      StoreElsewhere(s.memory, s.top.ptr, s.contents, h.p, h.top_old.ptr);
    }
    OthersOk(s, s', t);
  }

  lemma PushedOk(s: State, t: Tid, h: Thread)
    requires Inv(s) && h == Of(s, t) && h.line.PushSwap? && s.top == h.top_old
    ensures Inv(AdvancePush(s, t, h))
  {
    assert ThreadOk(s, t);
    var s' := AdvancePush(s, t, h);
    assert s'.contents[1..] == s.contents;
    DistinctFits(s'.contents, s.blocks);
    OthersOk(s, s', t);
  }

  lemma PushSwapOk(s: State, t: Tid, h: Thread)
    requires Inv(s) && h == Of(s, t) && h.line.PushSwap?
    ensures Inv(AdvancePush(s, t, h))
  {
    if s.top == h.top_old {
      PushedOk(s, t, h);
    } else {
      assert ThreadOk(s, t);
      OthersOk(s, AdvancePush(s, t, h), t);
    }
  }

  lemma PopOk(s: State, t: Tid, h: Thread)
    requires Inv(s) && h == Of(s, t) && (h.line.PopLoad? || h.line.PopSwap?)
    ensures Inv(AdvancePop(s, t, h))
  {
    assert ThreadOk(s, t);
    hide Chain;
    OthersOk(s, AdvancePop(s, t, h), t);
  }

  lemma WalkOk(s: State, t: Tid, h: Thread)
    requires Inv(s) && h == Of(s, t) && (h.line.Walk? || h.line.Take?)
    ensures Inv(AdvanceWalk(s, t, h))
  {
    assert ThreadOk(s, t);
    var s' := AdvanceWalk(s, t, h);
    if h.line.Take? {
      var list := TakenBy(s, t);
      assert forall i :: 0 <= i < |list[1..]| ==> list[1..][i] == list[i + 1];
    }
    OthersOk(s, s', t);
  }

  lemma StartOk(s: State, a: Step)
    requires Inv(s) && Enabled(s, a) && (a.StartPush? || a.StartPopAll?)
    ensures Inv(Next(s, a))
  {
    assert ThreadOk(s, a.t);
    hide AdvancePush, AdvancePop, AdvanceWalk, Chain;
    OthersOk(s, Next(s, a), a.t);
  }

  lemma WriteOk(s: State, t: Tid, p: Node, v: Node)
    requires Inv(s) && PlaceOf(s, p).Free?
    ensures Inv(s.(memory := Store(s.memory, p, v)))
  {
    var s' := s.(memory := Store(s.memory, p, v));
    var h := Of(s, t);
    assert ThreadOk(s, t);
    StoreElsewhere(s.memory, s.top.ptr, s.contents, p, v);
    if h.line.Walk? || h.line.Take? {
      StoreElsewhere(s.memory, h.p, TakenBy(s, t), p, v);
    }
    OthersOk(s, s', t);
  }

  lemma StepInv(s: State, a: Step)
    requires Inv(s) && Enabled(s, a)
    ensures Inv(Next(s, a))
  {
    hide Inv, AdvancePush, AdvancePop, AdvanceWalk;
    match a {
      case StartPush(t, p) => StartOk(s, a);
      case StartPopAll(t) => StartOk(s, a);
      case Write(t, p, v) => WriteOk(s, t, p, v);
      case Advance(t) =>
        var h := Of(s, t);
        if h.line.PushLoad? || h.line.PushLink? {
          PushOk(s, t, h);
        } else if h.line.PushSwap? {
          PushSwapOk(s, t, h);
        } else if h.line.PopLoad? || h.line.PopSwap? {
          PopOk(s, t, h);
        } else {
          WalkOk(s, t, h);
        }
    }
  }

  ghost predicate Run(s: State, steps: seq<Step>)
    decreases |steps|
  {
    steps == [] || (Enabled(s, steps[0]) && Run(Next(s, steps[0]), steps[1..]))
  }

  function After(s: State, steps: seq<Step>): State
    decreases |steps|
  {
    if steps == [] then s else After(Next(s, steps[0]), steps[1..])
  }

  // ----- what pushers and poppers are told -----

  /** PushReturnTag returns length; PopAll returns a list at ptr and length. */
  datatype Event = Pushed(t: Tid, p: Node, length: nat) | TookAll(t: Tid, ptr: Node, length: nat)

  function Emitted(s: State, a: Step): seq<Event> {
    var h := Of(s, a.t);
    if !a.Advance? then []
    else if h.line.PushSwap? && s.top == h.top_old then [Pushed(a.t, h.p, h.top_old.tag + 1)]
    else if h.line.PopLoad? && s.top.ptr == 0 then [TookAll(a.t, 0, s.top.tag)]
    else if h.line.PopSwap? && s.top == h.top_old then [TookAll(a.t, h.top_old.ptr, h.top_old.tag)]
    else []
  }

  function Events(s: State, steps: seq<Step>): seq<Event>
    decreases |steps|
  {
    if steps == [] then [] else Emitted(s, steps[0]) + Events(Next(s, steps[0]), steps[1..])
  }

  datatype Outcome = Fits(list: seq<Node>) | Misfit

  /** The sequential list: it refuses a length that is not exact. */
  function Sequential(list: seq<Node>, events: seq<Event>): Outcome
    decreases |events|
  {
    if events == [] then Fits(list)
    else match events[0]
      case Pushed(t, p, length) =>
        if length == |list| + 1 then Sequential([p] + list, events[1..]) else Misfit
      case TookAll(t, ptr, length) =>
        if length == |list| && ptr == (if list == [] then 0 else list[0]) then Sequential([], events[1..]) else Misfit
  }

  lemma StepFits(s: State, a: Step)
    requires Inv(s) && Enabled(s, a)
    ensures Sequential(s.contents, Emitted(s, a)) == Fits(Next(s, a).contents)
    ensures |Emitted(s, a)| <= 1
  {
    assert ThreadOk(s, a.t);
  }

  lemma EventsFit(s: State, a: Step, rest: seq<Event>)
    requires Inv(s) && Enabled(s, a)
    ensures Sequential(s.contents, Emitted(s, a) + rest) == Sequential(Next(s, a).contents, rest)
  {
    StepFits(s, a);
    var first := Emitted(s, a);
    hide Emitted, Next, Inv, Enabled;
    if first != [] {
      assert first == [first[0]] && (first + rest)[1..] == rest;
    } else {
      assert first + rest == rest;
    }
  }

  lemma {:induction false} RunLengths(s: State, steps: seq<Step>)
    requires Inv(s) && Run(s, steps)
    ensures Inv(After(s, steps))
    ensures Sequential(s.contents, Events(s, steps)) == Fits(After(s, steps).contents)
    decreases |steps|
  {
    hide Inv, Next, Emitted;
    if steps != [] {
      var s' := Next(s, steps[0]);
      StepInv(s, steps[0]);
      RunLengths(s', steps[1..]);
      EventsFit(s, steps[0], Events(s', steps[1..]));
    }
  }

  /** In every run the tag is the exact length of the list, below the 16-bit bound, and every pusher
      and popper is told the exact length at its effect, although tops recur. */
  lemma LengthsExact(s: State, steps: seq<Step>)
    requires Init(s) && Run(s, steps)
    ensures var end := After(s, steps);
      && Sequential([], Events(s, steps)) == Fits(end.contents)
      && end.top.tag == |end.contents| <= |end.blocks| < TAGS
      && Chain(end.memory, end.top.ptr, end.contents)
  {
    InitInv(s);
    RunLengths(s, steps);
    var end := After(s, steps);
    hide After, Events, Chain;
    DistinctFits(end.contents, end.blocks);
  }

  /** The swap of PopAll hands its thread the whole list; nobody can cut it while the thread walks,
      and the walk ends after exactly the returned number of blocks. */
  lemma WalkCountsLength(s0: State, steps: seq<Step>, t: Tid)
    requires Init(s0) && Run(s0, steps)
    ensures var s := After(s0, steps); var h := Of(s, t);
      h.line.Walk? ==>
        && Chain(s.memory, h.p, TakenBy(s, t))
        && h.count + |TakenBy(s, t)| == h.len
        && (h.p == 0 <==> h.count == h.len)
  {
    InitInv(s0);
    RunLengths(s0, steps);
    var s := After(s0, steps);
    hide After, Run, Events;
    assert ThreadOk(s, t);
  }

  // ----- lock freedom -----

  lemma {:induction false} TopMoved(s: State, steps: seq<Step>)
    requires Inv(s) && Run(s, steps) && After(s, steps).top != s.top
    ensures Events(s, steps) != []
    decreases |steps|
  {
    hide Inv;
    StepInv(s, steps[0]);
    if Next(s, steps[0]).top == s.top {
      TopMoved(Next(s, steps[0]), steps[1..]);
    } else {
      assert Emitted(s, steps[0]) != [];
    }
  }

  /** The swap of a thread that loaded top in s fails only if since then some operation took effect. */
  lemma FailureIsProgress(s: State, steps: seq<Step>, t: Tid)
    requires Inv(s) && Run(s, steps) && Enabled(After(s, steps), Advance(t))
    requires var e := After(s, steps); var h := Of(e, t);
      (h.line.PushSwap? || h.line.PopSwap?) && h.top_old == s.top && Emitted(e, Advance(t)) == []
    ensures Events(s, steps) != []
  {
    TopMoved(s, steps);
  }

  lemma Unroll(s: State, a: Step, rest: seq<Step>)
    ensures Run(s, [a] + rest) <==> Enabled(s, a) && Run(Next(s, a), rest)
    ensures After(s, [a] + rest) == After(Next(s, a), rest)
    ensures Events(s, [a] + rest) == Emitted(s, a) + Events(Next(s, a), rest)
  {
    assert ([a] + rest)[1..] == rest;
  }

  lemma UnrollThree(s: State, a: Step, b: Step, c: Step, d: Step)
    ensures var s1 := Next(s, a); var s2 := Next(s1, b); var s3 := Next(s2, c); var run := [a, b, c, d];
      && (Enabled(s, a) && Enabled(s1, b) && Enabled(s2, c) && Enabled(s3, d) ==> Run(s, run))
      && After(s, run) == Next(s3, d)
      && Events(s, run) == Emitted(s, a) + Emitted(s1, b) + Emitted(s2, c) + Emitted(s3, d)
  {
    hide Next, Enabled, Emitted;
    var s1 := Next(s, a);
    var s2 := Next(s1, b);
    var s3 := Next(s2, c);
    assert [a, b, c, d] == [a] + ([b] + ([c] + ([d] + [])));
    Unroll(s, a, [b] + ([c] + ([d] + [])));
    Unroll(s1, b, [c] + ([d] + []));
    Unroll(s2, c, [d] + []);
    Unroll(s3, d, []);
  }

  /** A push that nobody disturbs ends after three operations and is told the length with its block. */
  lemma PushAlone(s: State, t: Tid, p: Node)
    requires Inv(s) && Enabled(s, StartPush(t, p))
    ensures var run := [StartPush(t, p), Advance(t), Advance(t), Advance(t)]; var e := After(s, run);
      && Run(s, run) && Of(e, t).line.Idle?
      && Events(s, run) == [Pushed(t, p, |s.contents| + 1)] && e.contents == [p] + s.contents
  {
    UnrollThree(s, StartPush(t, p), Advance(t), Advance(t), Advance(t));
    assert s.top.tag == |s.contents|;
    hide Inv, Run, After, Events;
  }

  /** A PopAll that nobody disturbs is told the whole list and its length, and walks it. */
  lemma PopAllAlone(s: State, t: Tid)
    requires Inv(s) && Enabled(s, StartPopAll(t)) && s.contents != []
    ensures var run := [StartPopAll(t), Advance(t), Advance(t), Advance(t)]; var e := After(s, run);
      && Run(s, run) && Events(s, run) == [TookAll(t, s.contents[0], |s.contents|)] && e.contents == []
      && TakenBy(e, t) == s.contents && Of(e, t).line.Take? && Of(e, t).p == s.contents[0]
  {
    UnrollThree(s, StartPopAll(t), Advance(t), Advance(t), Advance(t));
    assert s.top.tag == |s.contents| && s.top.ptr == s.contents[0];
    hide Inv, Run, After, Events, MarkTaken, Load;
  }

  /** The operations of a walk over n blocks. */
  function Turns(t: Tid, n: nat): seq<Step> {
    if n == 0 then [Advance(t)] else [Advance(t)] + ([Advance(t)] + Turns(t, n - 1))
  }

  lemma WalkTurn(s: State, t: Tid)
    requires Inv(s) && Of(s, t).line.Walk?
    ensures var list := TakenBy(s, t); var s1 := Next(s, Advance(t)); var s2 := Next(s1, Advance(t));
      && Emitted(s, Advance(t)) == Emitted(s1, Advance(t)) == []
      && (list == [] ==> s1 == Go(s, t, Of(s1, t)) && Of(s1, t).line.Idle?)
      && (list != [] ==>
            && Inv(s2) && Enabled(s1, Advance(t)) && Of(s2, t).line.Walk? && TakenBy(s2, t) == list[1..]
            && s2.contents == s.contents && s2.place == s.place[list[0] := Place.Free])
  {
    assert ThreadOk(s, t);
    var s1 := Next(s, Advance(t));
    StepInv(s, Advance(t));
    if TakenBy(s, t) != [] {
      StepInv(s1, Advance(t));
    }
    hide Inv, ListOk;
  }

  /** A walk that nobody disturbs gives every block it has taken away, and changes nothing else. */
  lemma {:induction false} WalkAlone(s: State, t: Tid)
    requires Inv(s) && Of(s, t).line.Walk?
    ensures var run := Turns(t, |TakenBy(s, t)|); var e := After(s, run);
      && Run(s, run) && Events(s, run) == [] && e.contents == s.contents && Of(e, t).line.Idle?
      && (forall p :: PlaceOf(e, p) == if p in TakenBy(s, t) then Place.Free else PlaceOf(s, p))
    decreases |TakenBy(s, t)|
  {
    var list, a := TakenBy(s, t), Advance(t);
    WalkTurn(s, t);
    hide Inv, Next, Emitted, TakenBy;
    var s1 := Next(s, a);
    if list == [] {
      Unroll(s, a, []);
      assert [a] + [] == [a];
    } else {
      var s2 := Next(s1, a);
      var rest := Turns(t, |list| - 1);
      WalkAlone(s2, t);
      Unroll(s1, a, rest);
      Unroll(s, a, [a] + rest);
      assert forall p :: p in list <==> p == list[0] || p in list[1..];
    }
  }
}
