/** The number of backends the span pool uses, while any number of threads announce themselves at once
    (src/span_pool.h:87-106), one atomic operation per step. */
module PoolLimits {
  import opened SpanPools

  type Tid = nat

  datatype Line = Load | Swap | Returned

  /** new_limit and old_limit of a thread inside AnnounceNewThread or past it. */
  datatype Thread = Thread(line: Line, newLimit: int, oldLimit: int)

  datatype State = State(cpus: nat, current: int, limit: nat, threads: map<Tid, Thread>, peak: int)

  /** A compare-and-swap may fail without reason. */
  datatype Step = Announce(t: Tid) | ReadLimit(t: Tid) | TrySwap(t: Tid, fails: bool) | Leave(t: Tid)

  function Cap(s: State): nat {
    Min(s.cpus, HARD_LIMIT)
  }

  predicate Enabled(s: State, a: Step) {
    match a
    case Announce(t) => t !in s.threads
    case ReadLimit(t) => t in s.threads && s.threads[t].line.Load?
    case TrySwap(t, _) => t in s.threads && s.threads[t].line.Swap?
    case Leave(t) => t in s.threads && s.threads[t].line.Returned?
  }

  function Next(s: State, a: Step): State
    requires Enabled(s, a)
  {
    match a
    case Announce(t) =>
      var n := s.current + 1;
      var line := if n > s.cpus || n > HARD_LIMIT then Returned else Load;
      s.(current := n, peak := if n > s.peak then n else s.peak, threads := s.threads[t := Thread(line, n, 0)])
    case ReadLimit(t) =>
      var h := s.threads[t];
      var line := if h.newLimit <= s.limit then Returned else Swap;
      s.(threads := s.threads[t := h.(line := line, oldLimit := s.limit)])
    case TrySwap(t, fails) =>
      var h := s.threads[t];
      if s.limit == h.oldLimit && !fails then
        s.(limit := s.limit + 1, threads := s.threads[t := h.(line := Returned)])
      else
        s.(threads := s.threads[t := h.(line := Load)])
    case Leave(t) =>
      s.(current := s.current - 1, threads := s.threads - {t})
  }

  ghost predicate Init(s: State) {
    s.current == 0 && s.limit == 0 && s.threads == map[] && s.peak == 0
  }

  predicate Run(s: State, steps: seq<Step>)
    decreases |steps|
  {
    steps == [] || (Enabled(s, steps[0]) && Run(Next(s, steps[0]), steps[1..]))
  }

  function After(s: State, steps: seq<Step>): State
    requires Run(s, steps)
    decreases |steps|
  {
    if steps == [] then s else After(Next(s, steps[0]), steps[1..])
  }

  ghost predicate Inv(s: State) {
    && s.current == |s.threads|
    && s.current <= s.peak
    && s.limit <= Cap(s) && s.limit <= s.peak
    && (forall t :: t in s.threads ==> ThreadInv(s, s.threads[t]))
  }

  ghost predicate ThreadInv(s: State, h: Thread) {
    && 1 <= h.newLimit <= s.peak
    && (!h.line.Returned? ==> h.newLimit <= Cap(s))
    && (h.line.Swap? ==> h.oldLimit < h.newLimit)
    && (h.line.Returned? && s.limit == 0 ==> h.newLimit > Cap(s))
  }

  lemma StepInv(s: State, a: Step)
    requires Inv(s) && Enabled(s, a)
    ensures Inv(Next(s, a)) && Next(s, a).limit >= s.limit && Next(s, a).cpus == s.cpus
  {
    if a.Leave? {
      assert (s.threads - {a.t}).Keys == s.threads.Keys - {a.t};
      assert |s.threads - {a.t}| == |(s.threads - {a.t}).Keys|;
    }
  }

  lemma {:induction false} RunInv(s: State, steps: seq<Step>)
    requires Inv(s) && Run(s, steps)
    ensures var e := After(s, steps); Inv(e) && e.limit >= s.limit && e.cpus == s.cpus
    decreases |steps|
  {
    if steps != [] {
      StepInv(s, steps[0]);
      RunInv(Next(s, steps[0]), steps[1..]);
    }
  }

  /** Whatever the schedule, the limit only grows, is never above the number of processors, the hard
      limit or the largest number of threads, and a thread that announced itself finds it positive
      unless more threads than that were announced before it. */
  lemma LimitBounds(s: State, steps: seq<Step>, more: seq<Step>, t: Tid)
    requires Init(s) && Run(s, steps) && Run(After(s, steps), more)
    ensures var m := After(s, steps); var e := After(m, more);
      && m.limit <= e.limit <= Cap(s) && e.limit <= e.peak
      && (t in e.threads && e.threads[t].line.Returned? && e.limit == 0 ==> e.threads[t].newLimit > Cap(s))
  {
    RunInv(s, steps);
    RunInv(After(s, steps), more);
  }

  /** One thread that announces itself alone, from start to end. */
  function Alone(t: Tid): seq<Step> {
    [Announce(t), ReadLimit(t), TrySwap(t, false)]
  }

  lemma AloneRaises(s: State, t: Tid)
    requires Init(s) && s.cpus > 0
    ensures Run(s, Alone(t)) && After(s, Alone(t)).limit == 1
  {
    var a, b, c := Announce(t), ReadLimit(t), TrySwap(t, false);
    assert Alone(t)[1..] == [b, c] && [b, c][1..] == [c];
    assert Run(Next(Next(s, a), b), [c]);
    assert Run(Next(s, a), [b, c]);
    assert After(Next(s, a), [b, c]) == After(Next(Next(s, a), b), [c]);
  }

  /** The start-up code announces the main thread alone; from then on the modulus is never zero. */
  lemma LimitPositive(s: State, t: Tid, more: seq<Step>)
    requires Init(s) && s.cpus > 0
    requires Run(s, Alone(t)) ==> Run(After(s, Alone(t)), more)
    ensures Run(s, Alone(t)) && After(After(s, Alone(t)), more).limit > 0
  {
    AloneRaises(s, t);
    RunInv(s, Alone(t));
    RunInv(After(s, Alone(t)), more);
  }

  /** Without that it can be: on one processor the second thread returns while the first has not yet
      raised the limit. */
  lemma LimitZeroSeen(s: State)
    requires Init(s) && s.cpus == 1
    ensures Run(s, [Announce(0), Announce(1)])
    ensures var e := After(s, [Announce(0), Announce(1)]); e.threads[1].line.Returned? && e.limit == 0
  {
    assert [Announce(0), Announce(1)][1..] == [Announce(1)];
    assert After(s, [Announce(0), Announce(1)]) == Next(Next(s, Announce(0)), Announce(1));
  }

  // ----- how far the limit grows -----

  predicate Loops(a: Step, t: Tid) {
    a == ReadLimit(t) || (a.TrySwap? && a.t == t)
  }

  lemma {:induction false} LoopRaises(s: State, steps: seq<Step>, t: Tid)
    requires t in s.threads && Run(s, steps) && forall k :: 0 <= k < |steps| ==> Loops(steps[k], t)
    requires s.threads[t].line.Swap? ==> s.threads[t].oldLimit == s.limit < s.threads[t].newLimit
    requires t in After(s, steps).threads && After(s, steps).threads[t].line.Returned?
    ensures var h := s.threads[t];
      After(s, steps).limit == if !h.line.Returned? && s.limit < h.newLimit then s.limit + 1 else s.limit
    decreases |steps|
  {
    if steps != [] {
      assert Loops(steps[0], t);
      LoopRaises(Next(s, steps[0]), steps[1..], t);
    }
  }

  /** A thread that announces itself while the others do nothing raises the limit by one exactly if it is beyond the
      limit and within both bounds, however often its swap fails without reason. */
  lemma UndisturbedRaises(s: State, t: Tid, steps: seq<Step>)
    requires Inv(s) && Enabled(s, Announce(t)) && Run(Next(s, Announce(t)), steps)
    requires forall k :: 0 <= k < |steps| ==> Loops(steps[k], t)
    requires var e := After(Next(s, Announce(t)), steps); t in e.threads && e.threads[t].line.Returned?
    ensures After(Next(s, Announce(t)), steps).limit ==
              if s.limit <= s.current < Cap(s) then s.limit + 1 else s.limit
  {
    LoopRaises(Next(s, Announce(t)), steps, t);
  }

  /** Such a thread can always get to its end. */
  lemma UndisturbedReturns(s: State, t: Tid) returns (steps: seq<Step>)
    requires t in s.threads && (s.threads[t].line.Swap? ==> s.threads[t].oldLimit == s.limit)
    ensures Run(s, steps) && forall k :: 0 <= k < |steps| ==> Loops(steps[k], t)
    ensures var e := After(s, steps); t in e.threads && e.threads[t].line.Returned?
    decreases if s.threads[t].line.Load? then 2 else if s.threads[t].line.Swap? then 1 else 0
  {
    if s.threads[t].line.Returned? {
      steps := [];
    } else {
      var a := if s.threads[t].line.Load? then ReadLimit(t) else TrySwap(t, false);
      var rest := UndisturbedReturns(Next(s, a), t);
      steps := [a] + rest;
    }
  }

  /** The numbers beyond the limit that threads inside AnnounceNewThread have. */
  ghost function Waiting(s: State): set<int> {
    set t | t in s.threads && !s.threads[t].line.Returned? && s.threads[t].newLimit > s.limit :: s.threads[t].newLimit
  }

  /** The first thread to reach a peak has raised the limit, has seen it at its number, or is still waiting. */
  ghost predicate Keeps(s: State) {
    Inv(s) && Min(s.peak, Cap(s)) <= 2 * s.limit + |Waiting(s)|
  }

  lemma Fits(a: set<int>, b: set<int>)
    requires a <= b
    ensures |a| <= |b|
  {
    assert b == a + (b - a);
  }

  /** A step leaves every number waiting but the two that a swap settles: its own and the next limit. */
  lemma WaitingStep(s: State, a: Step)
    requires Inv(s) && Enabled(s, a)
    ensures Next(s, a).limit > s.limit ==> a.t in s.threads
    ensures var settled := if Next(s, a).limit > s.limit then {s.threads[a.t].newLimit, s.limit + 1} else {};
      Waiting(s) - settled <= Waiting(Next(s, a))
  {
    var s' := Next(s, a);
    var settled := if s'.limit > s.limit then {s.threads[a.t].newLimit, s.limit + 1} else {};
    forall m | m in Waiting(s) - settled ensures m in Waiting(s') {
      var t :| t in s.threads && !s.threads[t].line.Returned? && s.threads[t].newLimit == m && m > s.limit;
      assert t in s'.threads && s'.threads[t].newLimit == m && !s'.threads[t].line.Returned?;
    }
  }

  lemma StepCounts(s: State, a: Step)
    requires Inv(s) && Enabled(s, a)
    ensures var s' := Next(s, a);
      && s'.cpus == s.cpus && s.limit <= s'.limit <= s.limit + 1
      && (s'.limit > s.limit ==> s'.peak == s.peak)
      && (s'.peak == s.peak || (s'.peak == s.peak + 1 && (s'.peak <= Cap(s) ==> s'.peak in Waiting(s') - Waiting(s))))
  {
    var s' := Next(s, a);
    if s'.peak > s.peak && s'.peak <= Cap(s) {
      assert s'.threads[a.t].newLimit == s'.peak && !s'.threads[a.t].line.Returned?;
    }
  }

  lemma StepKeeps(s: State, a: Step)
    requires Keeps(s) && Enabled(s, a)
    ensures Keeps(Next(s, a)) && Next(s, a).cpus == s.cpus
  {
    hide Inv, Next, Enabled, Waiting, Run, After;
    StepInv(s, a);
    WaitingStep(s, a);
    StepCounts(s, a);
    var s' := Next(s, a);
    if s'.limit > s.limit {
      var settled := {s.threads[a.t].newLimit, s.limit + 1};
      assert Waiting(s) <= Waiting(s') + settled;
      Fits(Waiting(s), Waiting(s') + settled);
    } else if s'.peak > s.peak && s'.peak <= Cap(s) {
      Fits(Waiting(s) + {s'.peak}, Waiting(s'));
    } else {
      Fits(Waiting(s), Waiting(s'));
    }
  }

  lemma {:induction false} RunKeeps(s: State, steps: seq<Step>)
    requires Keeps(s) && Run(s, steps)
    ensures Keeps(After(s, steps)) && After(s, steps).cpus == s.cpus
    decreases |steps|
  {
    hide Keeps, Next, Enabled;
    if steps != [] {
      StepKeeps(s, steps[0]);
      RunKeeps(Next(s, steps[0]), steps[1..]);
    }
  }

  /** Whatever the schedule, the threads inside AnnounceNewThread and twice the limit together are at least the
      largest number of threads there ever were, as far as the bounds allow. When none is inside, the limit is
      at least half of that. */
  lemma LimitFollowsPeak(s: State, steps: seq<Step>)
    requires Init(s) && Run(s, steps)
    ensures var e := After(s, steps);
      && Min(e.peak, Cap(s)) <= 2 * e.limit + |Waiting(e)|
      && ((forall t :: t in e.threads ==> e.threads[t].line.Returned?) ==> Min(e.peak, Cap(s)) <= 2 * e.limit)
  {
    assert Waiting(s) == {};
    RunKeeps(s, steps);
    var e := After(s, steps);
    if forall t :: t in e.threads ==> e.threads[t].line.Returned? {
      assert Waiting(e) == {};
    }
  }

  /** n threads have announced themselves; of those beyond k, the first j have raised the limit; of the others,
      the first r have seen it at their number or above. */
  ghost predicate Stage(s: State, n: nat, k: nat, j: nat, r: nat) {
    && s.current == s.peak == n && s.limit == j
    && (forall t: Tid :: t in s.threads <==> t < n)
    && forall t :: 0 <= t < n ==>
         && s.threads[t].newLimit == t + 1
         && if k <= t < k + j || t < r then s.threads[t].line.Returned? else s.threads[t].line.Load?
  }

  lemma HalfFrom(s: State, n: nat, k: nat, j: nat, r: nat) returns (steps: seq<Step>)
    requires Stage(s, n, k, j, r) && 2 * k <= Cap(s) && n <= 2 * k && j <= k && r <= k
    requires (j > 0 ==> n == 2 * k) && (r > 0 ==> j == k)
    ensures Run(s, steps) && Stage(After(s, steps), 2 * k, k, k, k)
    decreases 2 * k - n, k - j, k - r
  {
    if n < 2 * k {
      var rest := HalfFrom(Next(s, Announce(n)), n + 1, k, j, r);
      steps := [Announce(n)] + rest;
    } else if j < k {
      var a, b := ReadLimit(k + j), TrySwap(k + j, false);
      var m := Next(s, a);
      var rest := HalfFrom(Next(m, b), n, k, j + 1, r);
      assert Run(m, [b] + rest) && After(m, [b] + rest) == After(Next(m, b), rest);
      steps := [a] + ([b] + rest);
    } else if r < k {
      var rest := HalfFrom(Next(s, ReadLimit(r)), n, k, j, r + 1);
      steps := [ReadLimit(r)] + rest;
    } else {
      steps := [];
    }
  }

  /** One half is exact: for every k a schedule ends with no thread inside, 2k threads and limit k. */
  lemma LimitCanBeHalf(s: State, k: nat) returns (steps: seq<Step>)
    requires Init(s) && 2 * k <= Cap(s)
    ensures Run(s, steps)
    ensures var e := After(s, steps);
      e.peak == 2 * k && e.limit == k && forall t :: t in e.threads ==> e.threads[t].line.Returned?
  {
    steps := HalfFrom(s, 0, k, 0, 0);
  }
}
