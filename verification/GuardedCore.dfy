/** One GuardedCore shared by any number of threads that join at any time (src/core.h:218-285,
    src/lab.h:183-195, src/lock.h:23-30): announce, wait while in use, then use the core without the
    lock as long as only one thread has announced itself. One atomic operation per step. */
module GuardedCore {

  type Tid = nat

  datatype Line =
    | Absent                  // has not called GetAB
    | Waiting                 // announced, spins on InUse()
    | Ready                   // outside Allocate and Free
    | Acquired                // in_use_ stored, num_threads_ not yet loaded
    | Fast                    // inside the core without the lock
    | WantLock | Locked       // spins on the lock; inside the core with it
    | Releasing               // about to clear in_use_

  datatype State = State(numThreads: nat, inUse: bool, lock: bool, lines: map<Tid, Line>)

  function Of(s: State, t: Tid): Line {
    if t in s.lines then s.lines[t] else Absent
  }

  function Go(s: State, t: Tid, l: Line): State {
    s.(lines := s.lines[t := l])
  }

  predicate Inside(s: State, t: Tid) {
    Of(s, t).Fast? || Of(s, t).Locked?
  }

  /** The next operation of thread t. A spinning thread looks again and stays where it is. */
  function Next(s: State, t: Tid): State {
    match Of(s, t)
    case Absent => Go(s.(numThreads := s.numThreads + 1), t, Waiting)
    case Waiting => Go(s, t, if s.inUse then Waiting else Ready)
    case Ready => Go(s.(inUse := true), t, Acquired)
    case Acquired => Go(s, t, if s.numThreads == 1 then Fast else WantLock)
    case Fast => Go(s, t, Releasing)
    case WantLock => Go(s.(lock := true), t, if s.lock then WantLock else Locked)
    case Locked => Go(s.(lock := false), t, Releasing)
    case Releasing => Go(s.(inUse := false), t, Ready)
  }

  function After(s: State, schedule: seq<Tid>): State
    decreases |schedule|
  {
    if schedule == [] then s else After(Next(s, schedule[0]), schedule[1..])
  }

  const Start: State := State(0, false, false, map[])

  // ----- the invariant -----

  predicate Early(l: Line) {
    l.Absent? || l.Waiting?
  }

  /** No other thread has got past its first wait. */
  ghost predicate Solo(s: State, t: Tid) {
    forall u: Tid :: u != t ==> Early(Of(s, u))
  }

  ghost predicate CountOk(s: State) {
    && s.numThreads == |s.lines.Keys|
    && (forall t: Tid :: t in s.lines <==> !Of(s, t).Absent?)
  }

  ghost predicate UseOk(s: State, t: Tid) {
    && (Of(s, t).Fast? ==> Solo(s, t))
    && (Solo(s, t) && (Of(s, t).Acquired? || Of(s, t).Fast?) ==> s.inUse)
  }

  ghost predicate LockOk(s: State) {
    && (forall t: Tid :: Of(s, t).Locked? ==> s.lock)
    && (forall t: Tid, u: Tid :: Of(s, t).Locked? && Of(s, u).Locked? ==> t == u)
    && (s.lock ==> exists t: Tid :: Of(s, t).Locked?)
  }

  ghost predicate Inv(s: State) {
    CountOk(s) && LockOk(s) && forall t: Tid :: UseOk(s, t)
  }

  /** Only the stepping thread's line changes. */
  lemma OneLine(s: State, t: Tid, u: Tid)
    ensures u != t ==> Of(Next(s, t), u) == Of(s, u)
    ensures Early(Of(Next(s, t), u)) ==> Early(Of(s, u))
    ensures Next(s, t).lines.Keys == s.lines.Keys + {t}
  {
  }

  lemma OnlyOne(s: State, t: Tid)
    requires CountOk(s) && s.numThreads == 1 && t in s.lines
    ensures Solo(s, t)
  {
    assert |s.lines.Keys - {t}| == 0;
    forall u: Tid | u != t ensures Of(s, u).Absent? {
      assert u !in s.lines.Keys - {t};
    }
  }

  lemma CountStep(s: State, t: Tid)
    requires CountOk(s)
    ensures CountOk(Next(s, t))
  {
    OneLine(s, t, t);
    forall u: Tid ensures u in Next(s, t).lines <==> !Of(Next(s, t), u).Absent? {
      OneLine(s, t, u);
    }
  }

  lemma LockStep(s: State, t: Tid)
    requires LockOk(s)
    ensures LockOk(Next(s, t))
  {
    forall u: Tid ensures u != t ==> Of(Next(s, t), u) == Of(s, u) {
      OneLine(s, t, u);
    }
    if s.lock {
      var u :| Of(s, u).Locked?;
      assert u != t ==> Of(Next(s, t), u).Locked?;
    } else if Next(s, t).lock {
      assert Of(Next(s, t), t).Locked?;
    }
  }

  /** The lock-free path of another thread u outlives a step of t: t cannot get past its wait. */
  lemma UseStep(s: State, t: Tid, u: Tid)
    requires UseOk(s, u) && u != t
    ensures UseOk(Next(s, t), u)
  {
    var s' := Next(s, t);
    hide Solo;
    OneLine(s, t, u);
    if Solo(s', u) {
      SoloBefore(s, t, u);
    }
    if Of(s, u).Fast? {
      SoloAfter(s, t, u);
    }
  }

  lemma SoloBefore(s: State, t: Tid, u: Tid)
    requires Solo(Next(s, t), u)
    ensures Solo(s, u) && (u != t ==> Early(Of(s, t)))
  {
    forall v: Tid | v != u ensures Early(Of(s, v)) {
      OneLine(s, t, v);
    }
  }

  lemma SoloAfter(s: State, t: Tid, u: Tid)
    requires Solo(s, u) && u != t && s.inUse
    ensures Solo(Next(s, t), u) && Next(s, t).inUse && Early(Of(s, t))
  {
    forall v: Tid | v != u ensures Early(Of(Next(s, t), v)) {
      OneLine(s, t, v);
    }
  }

  lemma OwnUseStep(s: State, t: Tid)
    requires CountOk(s) && UseOk(s, t)
    ensures UseOk(Next(s, t), t)
  {
    var s' := Next(s, t);
    if Of(s', t).Fast? {
      OnlyOne(s, t);
      forall v: Tid | v != t ensures Early(Of(s', v)) {
        OneLine(s, t, v);
      }
    }
  }

  lemma StepInv(s: State, t: Tid)
    requires Inv(s)
    ensures Inv(Next(s, t))
  {
    hide CountOk, LockOk, UseOk, Next;
    CountStep(s, t);
    LockStep(s, t);
    forall u: Tid ensures UseOk(Next(s, t), u) {
      assert UseOk(s, u);
      if u == t {
        OwnUseStep(s, t);
      } else {
        UseStep(s, t, u);
      }
    }
  }

  lemma {:induction false} RunInv(s: State, schedule: seq<Tid>)
    requires Inv(s)
    ensures Inv(After(s, schedule))
    decreases |schedule|
  {
    if schedule != [] {
      StepInv(s, schedule[0]);
      RunInv(Next(s, schedule[0]), schedule[1..]);
    }
  }

  /** Under every schedule at most one thread is inside the core, whichever of the two paths it took. */
  lemma MutualExclusion(schedule: seq<Tid>, t: Tid, u: Tid)
    requires var s := After(Start, schedule); Inside(s, t) && Inside(s, u)
    ensures t == u
  {
    RunInv(Start, schedule);
    var s := After(Start, schedule);
    assert UseOk(s, t) && UseOk(s, u);
  }

  // ----- no thread waits for nothing -----

  /** n steps of t, while the others do nothing. */
  function Alone(s: State, t: Tid, n: nat): State
    decreases n
  {
    if n == 0 then s else Alone(Next(s, t), t, n - 1)
  }

  /** In every reachable state in which nobody is inside, a thread gets inside within four steps of its own, unless it
      is still waiting for the first time and the core is marked as in use. It takes the path without the lock exactly
      if it is the only thread that has announced itself. */
  lemma Enters(schedule: seq<Tid>, t: Tid) returns (n: nat)
    requires t in After(Start, schedule).lines
    requires Of(After(Start, schedule), t).Waiting? ==> !After(Start, schedule).inUse
    requires forall u: Tid :: !Inside(After(Start, schedule), u)
    ensures var s := After(Start, schedule); var e := Alone(s, t, n);
      n <= 4 && Inside(e, t) && (!Of(s, t).WantLock? ==> (Of(e, t).Fast? <==> s.numThreads == 1))
  {
    RunInv(Start, schedule);
    var s := After(Start, schedule);
    assert forall u: Tid :: Of(s, u).Locked? ==> Inside(s, u);
    n := EntersFrom(s, t);
  }

  lemma EntersFrom(s: State, t: Tid) returns (n: nat)
    requires t in s.lines && !Of(s, t).Absent? && !s.lock && !Inside(s, t) && (Of(s, t).Waiting? ==> !s.inUse)
    ensures var e := Alone(s, t, n);
      n <= Away(Of(s, t)) && Inside(e, t) && (!Of(s, t).WantLock? ==> (Of(e, t).Fast? <==> s.numThreads == 1))
    decreases Away(Of(s, t))
  {
    var s' := Next(s, t);
    if Inside(s', t) {
      n := 1;
      assert Alone(s', t, 0) == s';
    } else {
      n := EntersFrom(s', t);
      n := n + 1;
    }
  }

  /** Steps of its own that a thread is away from the inside. */
  function Away(l: Line): nat {
    match l
    case Waiting => 4
    case Releasing => 4
    case Ready => 3
    case Acquired => 2
    case WantLock => 1
    case _ => 0
  }

  /** A thread that is inside leaves within two steps, and gives the lock back if it has it. */
  lemma Leaves(s: State, t: Tid)
    requires Inv(s) && Inside(s, t)
    ensures var e := Alone(s, t, 2);
      Of(e, t).Ready? && !e.inUse && (Of(s, t).Locked? ==> !e.lock) && forall u: Tid :: u != t ==> Of(e, u) == Of(s, u)
  {
    var m := Next(s, t);
    assert Alone(s, t, 2) == Alone(m, t, 1) == Next(m, t);
    OneLine(s, t, t);
  }
}
