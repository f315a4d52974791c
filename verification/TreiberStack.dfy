/** The lock-free stack of src/stack.h:67-101 with Push and Pop, as the span pool and the list of free
    cores use it: any number of threads, one atomic operation per step. The tag is unbounded here;
    SameWord says when the 16-bit tag of src/atomic_value.h is as good. */
module TreiberStack {
  import opened Chains

  type Tid = nat

  datatype Top = Top(ptr: Node, tag: nat)

  datatype Line = Idle | PushLoad | PushLink | PushSwap | PopLoad | PopRead | PopSwap

  /** A thread's local variables: p is the node it pushes, top_old, and the next word Pop has read. */
  datatype Thread = Thread(line: Line, p: Node, top_old: Top, next: Node)

  datatype State = State(
    top: Top,
    memory: Memory,
    threads: map<Tid, Thread>,
    pushing: map<Node, Tid>,    // nodes handed to a Push that has not taken effect
    contents: seq<Node>)        // auxiliary: what the links from top spell

  function Of(s: State, t: Tid): Thread {
    if t in s.threads then s.threads[t] else Thread(Idle, 0, Top(0, 0), 0)
  }

  function Go(s: State, t: Tid, h: Thread): State {
    s.(threads := s.threads[t := h])
  }

  datatype Step =
    | StartPush(t: Tid, p: Node)
    | StartPop(t: Tid)
    | Advance(t: Tid)
    | Write(t: Tid, p: Node, v: Node)     // the program uses the memory of a node it owns

  ghost predicate Enabled(s: State, a: Step) {
    match a
    case StartPush(t, p) => Of(s, t).line.Idle? && p != 0 && p !in s.contents && p !in s.pushing
    case StartPop(t) => Of(s, t).line.Idle?
    case Advance(t) => !Of(s, t).line.Idle?
    case Write(t, p, v) => p !in s.contents && p !in s.pushing
  }

  function AdvancePush(s: State, t: Tid, h: Thread): State {
    match h.line
    case PushLoad => Go(s, t, h.(line := PushLink, top_old := s.top))
    case PushLink => Go(s.(memory := Store(s.memory, h.p, h.top_old.ptr)), t, h.(line := PushSwap))
    case _ =>
      if s.top == h.top_old then
        Go(s.(top := Top(h.p, h.top_old.tag + 1), pushing := s.pushing - {h.p}, contents := [h.p] + s.contents),
           t, h.(line := Idle))
      else Go(s, t, h.(line := PushLoad))
  }

  function AdvancePop(s: State, t: Tid, h: Thread): State {
    match h.line
    case PopLoad => Go(s, t, h.(line := if s.top.ptr == 0 then Idle else PopRead, top_old := s.top))
    case PopRead => Go(s, t, h.(line := PopSwap, next := Load(s.memory, h.top_old.ptr)))
    case _ =>
      if s.top == h.top_old then
        Go(s.(top := Top(h.next, h.top_old.tag + 1), contents := if s.contents == [] then [] else s.contents[1..]),
           t, h.(line := Idle))
      else Go(s, t, h.(line := PopLoad))
  }

  function Next(s: State, a: Step): State {
    match a
    case StartPush(t, p) => Go(s.(pushing := s.pushing[p := t]), t, Of(s, t).(line := PushLoad, p := p))
    case StartPop(t) => Go(s, t, Of(s, t).(line := PopLoad))
    case Advance(t) =>
      var h := Of(s, t);
      if h.line.PushLoad? || h.line.PushLink? || h.line.PushSwap? then AdvancePush(s, t, h) else AdvancePop(s, t, h)
    case Write(t, p, v) => s.(memory := Store(s.memory, p, v))
  }

  ghost predicate Init(s: State) {
    s.top == Top(0, 0) && s.threads == map[] && s.pushing == map[] && s.contents == []
  }

  // ----- the invariant -----

  ghost predicate ThreadOk(s: State, t: Tid) {
    var h := Of(s, t);
    && (h.line.PushLoad? || h.line.PushLink? || h.line.PushSwap? ==>
          h.p != 0 && h.p in s.pushing && s.pushing[h.p] == t)
    && (h.line.PushLink? || h.line.PushSwap? || h.line.PopRead? || h.line.PopSwap? ==>
          h.top_old == s.top || h.top_old.tag < s.top.tag)
    && (h.line.PushSwap? ==> Load(s.memory, h.p) == h.top_old.ptr)
    && (h.line.PopRead? || h.line.PopSwap? ==> h.top_old.ptr != 0)
    && (h.line.PopSwap? && h.top_old == s.top ==> h.next == Load(s.memory, h.top_old.ptr))
  }

  ghost predicate Inv(s: State) {
    && Chain(s.memory, s.top.ptr, s.contents)
    && Distinct(s.contents)
    && (forall p :: p in s.pushing ==> p !in s.contents)
    && (forall t: Tid :: ThreadOk(s, t))
  }

  lemma PushSwapInv(s: State, t: Tid)
    requires Inv(s) && Of(s, t).line.PushSwap?
    ensures Inv(Next(s, Advance(t)))
  {
    var h := Of(s, t);
    var s' := Next(s, Advance(t));
    assert ThreadOk(s, t);
    if s.top == h.top_old {
      assert s'.contents[1..] == s.contents;
    }
    forall u: Tid ensures ThreadOk(s', u) {
      assert ThreadOk(s, u);
    }
  }

  lemma PopSwapInv(s: State, t: Tid)
    requires Inv(s) && Of(s, t).line.PopSwap?
    ensures Inv(Next(s, Advance(t)))
  {
    var s' := Next(s, Advance(t));
    assert ThreadOk(s, t);
    forall u: Tid ensures ThreadOk(s', u) {
      assert ThreadOk(s, u);
    }
  }

  lemma WriteInv(s: State, s': State, p: Node, v: Node, t: Tid)
    requires Inv(s) && p !in s.contents && s'.memory == Store(s.memory, p, v)
    requires s'.top == s.top && s'.contents == s.contents && s'.pushing == s.pushing
    requires p in s.pushing ==> s.pushing[p] == t
    requires forall u: Tid :: u != t ==> Of(s', u) == Of(s, u)
    requires (Of(s', t) == Of(s, t) && p !in s.pushing) || ThreadOk(s', t)
    ensures Inv(s')
  {
    StoreElsewhere(s.memory, s.top.ptr, s.contents, p, v);
    forall u: Tid ensures ThreadOk(s', u) {
      assert ThreadOk(s, u);
      assert s.top.ptr == 0 || s.top.ptr in s.contents;
    }
  }

  lemma QuietInv(s: State, t: Tid, h: Thread)
    requires Inv(s) && ThreadOk(Go(s, t, h), t)
    ensures Inv(Go(s, t, h))
  {
    forall u: Tid ensures ThreadOk(Go(s, t, h), u) {
      assert ThreadOk(s, u);
    }
  }

  lemma StartPushInv(s: State, t: Tid, p: Node)
    requires Inv(s) && Enabled(s, StartPush(t, p))
    ensures Inv(Next(s, StartPush(t, p)))
  {
    var s' := Next(s, StartPush(t, p));
    forall u: Tid ensures ThreadOk(s', u) {
      assert ThreadOk(s, u);
    }
  }

  lemma AdvanceInv(s: State, t: Tid)
    requires Inv(s) && Enabled(s, Advance(t))
    ensures Inv(Next(s, Advance(t)))
  {
    var s', h := Next(s, Advance(t)), Of(s, t);
    assert ThreadOk(s, t);
    hide Inv;
    match h.line {
      case PushLoad => QuietInv(s, t, h.(line := PushLink, top_old := s.top));
      case PushLink => WriteInv(s, s', h.p, h.top_old.ptr, t);
      case PushSwap => PushSwapInv(s, t);
      case PopLoad => QuietInv(s, t, Of(s', t));
      case PopRead => QuietInv(s, t, Of(s', t));
      case PopSwap => PopSwapInv(s, t);
    }
  }

  lemma StepInv(s: State, a: Step)
    requires Inv(s) && Enabled(s, a)
    ensures Inv(Next(s, a))
  {
    assert ThreadOk(s, a.t);
    match a {
      case StartPush(t, p) => StartPushInv(s, t, p);
      case StartPop(t) => QuietInv(s, t, Of(s, t).(line := PopLoad));
      case Write(t, p, v) => WriteInv(s, Next(s, a), p, v, t);
      case Advance(t) => AdvanceInv(s, t);
    }
  }

  ghost predicate Run(s: State, steps: seq<Step>)
    decreases |steps|
  {
    steps == [] || (Enabled(s, steps[0]) && Run(Next(s, steps[0]), steps[1..]))
  }

  function After(s: State, steps: seq<Step>): State
    decreases |steps|
  {
    if steps == [] then s else After(Next(s, steps[0]), steps[1..])
  }

  // ----- linearizability -----

  /** What an operation reports, at the step that makes it take effect. */
  datatype Event = Pushed(t: Tid, p: Node) | Popped(t: Tid, p: Node) | SawEmpty(t: Tid)

  function Emitted(s: State, a: Step): seq<Event> {
    var h := Of(s, a.t);
    if !a.Advance? then []
    else if h.line.PushSwap? && s.top == h.top_old then [Pushed(a.t, h.p)]
    else if h.line.PopSwap? && s.top == h.top_old then [Popped(a.t, h.top_old.ptr)]
    else if h.line.PopLoad? && s.top.ptr == 0 then [SawEmpty(a.t)]
    else []
  }

  function Events(s: State, steps: seq<Step>): seq<Event>
    decreases |steps|
  {
    if steps == [] then [] else Emitted(s, steps[0]) + Events(Next(s, steps[0]), steps[1..])
  }

  datatype Outcome = Fits(list: seq<Node>) | Misfit

  /** The sequential stack: it refuses a report that it would not have made itself. */
  function Sequential(list: seq<Node>, events: seq<Event>): Outcome
    decreases |events|
  {
    if events == [] then Fits(list)
    else match events[0]
      case Pushed(t, p) => Sequential([p] + list, events[1..])
      case Popped(t, p) => if list != [] && list[0] == p then Sequential(list[1..], events[1..]) else Misfit
      case SawEmpty(t) => if list == [] then Sequential(list, events[1..]) else Misfit
  }

  lemma StepFits(s: State, a: Step)
    requires Inv(s) && Enabled(s, a)
    ensures Sequential(s.contents, Emitted(s, a)) == Fits(Next(s, a).contents)
    ensures |Emitted(s, a)| <= 1
  {
    assert ThreadOk(s, a.t);
  }

  lemma EventsFit(s: State, a: Step, rest: seq<Event>)
    requires Inv(s) && Enabled(s, a)
    ensures Sequential(s.contents, Emitted(s, a) + rest) == Sequential(Next(s, a).contents, rest)
  {
    StepFits(s, a);
    var first := Emitted(s, a);
    hide Emitted, Next, Inv, Enabled;
    if first != [] {
      assert first == [first[0]] && (first + rest)[1..] == rest;
    } else {
      assert first + rest == rest;
    }
  }

  lemma {:induction false} RunFits(s: State, steps: seq<Step>)
    requires Inv(s) && Run(s, steps)
    ensures Inv(After(s, steps))
    ensures Sequential(s.contents, Events(s, steps)) == Fits(After(s, steps).contents)
    decreases |steps|
  {
    hide Inv, Next, Emitted;
    if steps != [] {
      var s' := Next(s, steps[0]);
      StepInv(s, steps[0]);
      RunFits(s', steps[1..]);
      EventsFit(s, steps[0], Events(s', steps[1..]));
    }
  }

  lemma InitInv(s: State)
    requires Init(s)
    ensures Inv(s)
  {
  }

  /** Every run, whatever the interleaving, reports what one thread at a time would have reported, in
      the order of the effects, and leaves in memory the stack that sequence leaves. */
  lemma Linearizable(s: State, steps: seq<Step>)
    requires Init(s) && Run(s, steps)
    ensures var end := After(s, steps);
      && Sequential(s.contents, Events(s, steps)) == Fits(end.contents)
      && Chain(end.memory, end.top.ptr, end.contents)
      && Distinct(end.contents)
  {
    InitInv(s);
    RunFits(s, steps);
    hide After, Events, Chain;
  }

  /** Pop may read the first word of a node that has been popped and overwritten since; when its swap
      succeeds nevertheless, the word it read is the true second node. */
  lemma PopReadsSuccessor(s0: State, steps: seq<Step>, t: Tid)
    requires Init(s0) && Run(s0, steps)
    ensures var s := After(s0, steps); var h := Of(s, t);
      h.line.PopSwap? && s.top == h.top_old ==>
        && s.contents != [] && h.top_old.ptr == s.contents[0]
        && h.next == if |s.contents| == 1 then 0 else s.contents[1]
  {
    InitInv(s0);
    RunFits(s0, steps);
    var s := After(s0, steps);
    hide After, Run, Events;
    assert ThreadOk(s, t);
    if s.contents != [] {
      assert Chain(s.memory, Load(s.memory, s.contents[0]), s.contents[1..]);
    }
  }

  // ----- lock freedom -----

  lemma {:induction false} TopMoved(s: State, steps: seq<Step>)
    requires Run(s, steps) && After(s, steps).top != s.top
    ensures exists k :: 0 <= k < |Events(s, steps)| && !Events(s, steps)[k].SawEmpty?
    decreases |steps|
  {
    var first, rest := Emitted(s, steps[0]), Events(Next(s, steps[0]), steps[1..]);
    if Next(s, steps[0]).top == s.top {
      TopMoved(Next(s, steps[0]), steps[1..]);
      var k :| 0 <= k < |rest| && !rest[k].SawEmpty?;
      assert Events(s, steps)[|first| + k] == rest[k];
    } else {
      assert Events(s, steps)[0] == first[0] && !first[0].SawEmpty?;
    }
  }

  /** The swap of a thread that loaded top in s fails only if since then some operation took effect. */
  lemma FailureIsProgress(s: State, steps: seq<Step>, t: Tid)
    requires Run(s, steps) && Enabled(After(s, steps), Advance(t))
    requires var e := After(s, steps); var h := Of(e, t);
      (h.line.PushSwap? || h.line.PopSwap?) && h.top_old == s.top && Emitted(e, Advance(t)) == []
    ensures exists k :: 0 <= k < |Events(s, steps)| && !Events(s, steps)[k].SawEmpty?
  {
    TopMoved(s, steps);
  }

  lemma Unroll(s: State, a: Step, rest: seq<Step>)
    ensures Run(s, [a] + rest) <==> Enabled(s, a) && Run(Next(s, a), rest)
    ensures After(s, [a] + rest) == After(Next(s, a), rest)
    ensures Events(s, [a] + rest) == Emitted(s, a) + Events(Next(s, a), rest)
  {
    assert ([a] + rest)[1..] == rest;
  }

  lemma UnrollThree(s: State, a: Step, b: Step, c: Step, d: Step)
    ensures var s1 := Next(s, a); var s2 := Next(s1, b); var s3 := Next(s2, c); var run := [a, b, c, d];
      && (Enabled(s, a) && Enabled(s1, b) && Enabled(s2, c) && Enabled(s3, d) ==> Run(s, run))
      && After(s, run) == Next(s3, d)
      && Events(s, run) == Emitted(s, a) + Emitted(s1, b) + Emitted(s2, c) + Emitted(s3, d)
  {
    hide Next, Enabled, Emitted;
    var s1 := Next(s, a);
    var s2 := Next(s1, b);
    var s3 := Next(s2, c);
    assert [a, b, c, d] == [a] + ([b] + ([c] + ([d] + [])));
    Unroll(s, a, [b] + ([c] + ([d] + [])));
    Unroll(s1, b, [c] + ([d] + []));
    Unroll(s2, c, [d] + []);
    Unroll(s3, d, []);
  }

  /** A Push that nobody disturbs ends after three operations with its node on the stack. */
  lemma PushAlone(s: State, t: Tid, p: Node)
    requires Inv(s) && Enabled(s, StartPush(t, p))
    ensures var run := [StartPush(t, p), Advance(t), Advance(t), Advance(t)]; var e := After(s, run);
      Run(s, run) && Events(s, run) == [Pushed(t, p)] && e.contents == [p] + s.contents && Of(e, t).line.Idle?
  {
    UnrollThree(s, StartPush(t, p), Advance(t), Advance(t), Advance(t));
    hide Inv, Run, After, Events;
  }

  /** So does a Pop, with the first node, or after one operation if there is none. */
  lemma PopAlone(s: State, t: Tid)
    requires Inv(s) && Enabled(s, StartPop(t))
    ensures var run := if s.contents == [] then [StartPop(t), Advance(t)]
                       else [StartPop(t), Advance(t), Advance(t), Advance(t)];
      var e := After(s, run);
      && Run(s, run) && Of(e, t).line.Idle?
      && Events(s, run) == [if s.contents == [] then SawEmpty(t) else Popped(t, s.contents[0])]
      && e.contents == if s.contents == [] then [] else s.contents[1..]
  {
    UnrollThree(s, StartPop(t), Advance(t), Advance(t), Advance(t));
    var b := Next(s, StartPop(t));
    assert [StartPop(t), Advance(t)] == [StartPop(t)] + ([Advance(t)] + []);
    Unroll(s, StartPop(t), [Advance(t)] + []);
    Unroll(b, Advance(t), []);
    hide Run, After, Events;
  }

  /** A 16-bit tag tells two tops apart as long as fewer than 2^16 operations lie between them. */
  lemma SameWord(now: Top, seen: Top)
    requires seen.tag <= now.tag < seen.tag + 0x1_0000
    ensures now == seen <==> now.ptr == seen.ptr && now.tag % 0x1_0000 == seen.tag % 0x1_0000
  {
  }
}
