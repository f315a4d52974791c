/** Closing and draining a deque while other threads push to it (src/deque.h:68-94, 135-153,
    src/core.h:81-102): the lock, the owner test and the insertion are separate steps, and Open and
    Close write the owner without the lock. */
module DequeDrain {

  type Tid = nat
  type Incarnation = nat
  type Node = nat

  /** A linked node and the incarnation its PushFront named. */
  datatype Item = Item(node: Node, under: Incarnation)

  datatype Owner = Terminated | Named(id: Incarnation)

  /** A thread in PushFront or in one of the removals, with the owner it names. */
  datatype Line = Idle | PushWant | PushHeld | PushPassed | RemoveWant | RemoveHeld | Unlock

  datatype Thread = Thread(line: Line, item: Item)

  /** The thread that owns the deque: open for use; closed by Destroy; draining it with RemoveAll, one
      locked RemoveFront at a time; and gone. */
  datatype Life = Live | DrainWant | DrainHeld | DrainMore | DrainLast | Gone

  datatype State = State(
    owner: Owner,
    lock: bool,
    contents: seq<Item>,
    life: Life,
    current: Incarnation,       // the incarnation that opened the deque last
    threads: map<Tid, Thread>)

  function Of(s: State, t: Tid): Thread {
    if t in s.threads then s.threads[t] else Thread(Idle, Item(0, 0))
  }

  function Go(s: State, t: Tid, h: Thread): State {
    s.(threads := s.threads[t := h])
  }

  datatype Step =
    | StartPush(t: Tid, item: Item)      // a push that names any incarnation so far, however stale
    | StartRemove(t: Tid)
    | Advance(t: Tid)
    | RemoveAt(t: Tid, i: nat)           // Remove, RemoveBack or RemoveFront by a thread with the lock
    | Owned                              // the next operation of the owning thread
    | Open(id: Incarnation)

  ghost predicate Enabled(s: State, a: Step) {
    match a
    case StartPush(t, item) => Of(s, t).line.Idle? && item.under <= s.current
    case StartRemove(t) => Of(s, t).line.Idle?
    case Advance(t) => !Of(s, t).line.Idle?
    case RemoveAt(t, i) => Of(s, t).line.RemoveHeld? && i < |s.contents|
    case Owned => !s.life.Gone?
    case Open(id) => s.life.Gone? && id > s.current
  }

  function TryLock(s: State, t: Tid, h: Thread, got: Line): State {
    if s.lock then s else Go(s.(lock := true), t, h.(line := got))
  }

  function AdvanceThread(s: State, t: Tid, h: Thread): State {
    match h.line
    case PushWant => TryLock(s, t, h, PushHeld)
    case PushHeld => Go(s, t, h.(line := if s.owner == Named(h.item.under) then PushPassed else Unlock))
    case PushPassed => Go(s.(contents := [h.item] + s.contents), t, h.(line := Unlock))
    case RemoveWant => TryLock(s, t, h, RemoveHeld)
    case RemoveHeld => Go(s, t, h.(line := Unlock))
    case Unlock => Go(s.(lock := false), t, h.(line := Idle))
    case Idle => s
  }

  function AdvanceOwner(s: State): State {
    match s.life
    case Live => s.(owner := Terminated, life := DrainWant)
    case DrainWant => if s.lock then s else s.(lock := true, life := DrainHeld)
    case DrainHeld =>
      if s.contents == [] then s.(life := DrainLast) else s.(contents := s.contents[1..], life := DrainMore)
    case DrainMore => s.(lock := false, life := DrainWant)
    case DrainLast => s.(lock := false, life := Gone)
    case Gone => s
  }

  function Next(s: State, a: Step): State {
    match a
    case StartPush(t, item) => Go(s, t, Thread(PushWant, item))
    case StartRemove(t) => Go(s, t, Of(s, t).(line := RemoveWant))
    case Advance(t) => AdvanceThread(s, t, Of(s, t))
    case RemoveAt(t, i) =>
      Go(s.(contents := if i < |s.contents| then s.contents[..i] + s.contents[i + 1..] else s.contents),
         t, Of(s, t).(line := Unlock))
    case Owned => AdvanceOwner(s)
    case Open(id) => s.(owner := Named(id), current := id, life := Live)
  }

  ghost predicate Init(s: State) {
    s.owner == Named(s.current) && !s.lock && s.contents == [] && s.life.Live? && s.threads == map[]
  }

  // ----- the invariant -----

  predicate HoldsLock(l: Line) {
    l.PushHeld? || l.PushPassed? || l.RemoveHeld? || l.Unlock?
  }

  predicate OwnerHolds(l: Life) {
    l.DrainHeld? || l.DrainMore? || l.DrainLast?
  }

  /** RemoveAll has seen the deque empty. */
  predicate Drained(l: Life) {
    l.DrainLast? || l.Gone?
  }

  ghost predicate LockOk(s: State) {
    && (OwnerHolds(s.life) ==> s.lock)
    && (s.lock && !OwnerHolds(s.life) ==> exists t: Tid :: HoldsLock(Of(s, t).line))
    && (forall t: Tid :: HoldsLock(Of(s, t).line) ==> s.lock && !OwnerHolds(s.life))
    && (forall t: Tid, u: Tid :: HoldsLock(Of(s, t).line) && HoldsLock(Of(s, u).line) ==> t == u)
  }

  ghost predicate OwnerOk(s: State) {
    && s.owner == (if s.life.Live? then Named(s.current) else Terminated)
    && (Drained(s.life) ==> s.contents == [])
    && (forall i :: 0 <= i < |s.contents| ==> s.contents[i].under == s.current)
    && (forall t: Tid :: Of(s, t).line.PushPassed? ==> Of(s, t).item.under == s.current && !Drained(s.life))
  }

  ghost predicate Inv(s: State) {
    LockOk(s) && OwnerOk(s)
  }

  lemma ThreadInv(s: State, t: Tid)
    requires Inv(s)
    ensures Inv(AdvanceThread(s, t, Of(s, t)))
  {
    var s' := AdvanceThread(s, t, Of(s, t));
    forall u: Tid ensures u != t ==> Of(s', u) == Of(s, u) {
    }
    if s'.lock && !OwnerHolds(s.life) {
      if s.lock {
        var u :| HoldsLock(Of(s, u).line);
        assert HoldsLock(Of(s', u).line);
      } else {
        assert HoldsLock(Of(s', t).line);
      }
    }
  }

  lemma OwnedInv(s: State)
    requires Inv(s)
    ensures Inv(AdvanceOwner(s))
  {
    forall u: Tid ensures Of(AdvanceOwner(s), u) == Of(s, u) {
    }
  }

  lemma StepInv(s: State, a: Step)
    requires Inv(s) && Enabled(s, a)
    ensures Inv(Next(s, a))
  {
    if s.lock && !OwnerHolds(s.life) && !a.Advance? && !a.Owned? {
      var u :| HoldsLock(Of(s, u).line);
      assert HoldsLock(Of(Next(s, a), u).line);
    }
    match a {
      case Advance(t) => ThreadInv(s, t);
      case Owned => OwnedInv(s);
      case Open(id) =>
        forall u: Tid ensures Of(Next(s, a), u) == Of(s, u) {
        }
      case _ =>
        forall u: Tid ensures u != a.t ==> Of(Next(s, a), u) == Of(s, u) {
        }
    }
  }

  ghost predicate Run(s: State, steps: seq<Step>)
    decreases |steps|
  {
    steps == [] || (Enabled(s, steps[0]) && Run(Next(s, steps[0]), steps[1..]))
  }

  function After(s: State, steps: seq<Step>): State
    decreases |steps|
  {
    if steps == [] then s else After(Next(s, steps[0]), steps[1..])
  }

  lemma {:induction false} RunInv(s: State, steps: seq<Step>)
    requires Inv(s) && Run(s, steps)
    ensures Inv(After(s, steps))
    decreases |steps|
  {
    if steps != [] {
      StepInv(s, steps[0]);
      RunInv(Next(s, steps[0]), steps[1..]);
    }
  }

  /** In every run, every linked node was pushed under the incarnation that opened the deque last, and
      once Destroy has finished the deque is empty until the next Open, whatever pushes are in flight. */
  lemma DrainedStaysEmpty(s: State, steps: seq<Step>)
    requires Init(s) && Run(s, steps)
    ensures var end := After(s, steps);
      && (end.life.Gone? ==> end.contents == [])
      && (forall i :: 0 <= i < |end.contents| ==> end.contents[i].under == end.current)
  {
    RunInv(s, steps);
  }

  // ----- what a thread achieves by itself -----

  /** n operations of t, while the others do nothing. */
  function Alone(s: State, t: Tid, n: nat): State
    decreases n
  {
    if n == 0 then s else Alone(Next(s, Advance(t)), t, n - 1)
  }

  /** A push that finds the lock free links its node at the front if the deque is open under the incarnation it
      names, and otherwise changes nothing; it gives the lock back. */
  lemma PushAlone(s: State, t: Tid, item: Item)
    requires Inv(s) && !s.lock && Enabled(s, StartPush(t, item))
    ensures var fits := s.life.Live? && item.under == s.current;
      var e := Alone(Next(s, StartPush(t, item)), t, if fits then 4 else 3);
      && Of(e, t).line.Idle? && !e.lock && e.owner == s.owner && e.life == s.life
      && e.contents == if fits then [item] + s.contents else s.contents
  {
    var s1 := Next(s, StartPush(t, item));
    var s2 := Next(s1, Advance(t));
    var s3 := Next(s2, Advance(t));
    var s4 := Next(s3, Advance(t));
    var s5 := Next(s4, Advance(t));
    assert Alone(s1, t, 3) == Alone(s2, t, 2) == Alone(s3, t, 1) == s4;
    assert Alone(s1, t, 4) == Alone(s2, t, 3) == Alone(s3, t, 2) == Alone(s4, t, 1) == s5;
    hide Alone, LockOk;
  }

  /** n operations of the owning thread, while the others do nothing. */
  function OwnerAlone(s: State, n: nat): State
    decreases n
  {
    if n == 0 then s else OwnerAlone(AdvanceOwner(s), n - 1)
  }

  /** Once the lock is free, a closed deque is drained and given back three operations a node. */
  lemma {:induction false} DrainAlone(s: State)
    requires Inv(s) && s.life.DrainWant? && !s.lock
    ensures var e := OwnerAlone(s, 3 * |s.contents| + 3);
      e.life.Gone? && e.contents == [] && !e.lock && e.owner.Terminated? && e.threads == s.threads
    decreases |s.contents|
  {
    OwnedInv(s);
    var s1 := AdvanceOwner(s);
    OwnedInv(s1);
    var s2 := AdvanceOwner(s1);
    OwnedInv(s2);
    var s3 := AdvanceOwner(s2);
    hide Inv;
    OwnerThree(s, 3 * |s.contents|);
    if s.contents != [] {
      DrainAlone(s3);
    }
  }

  lemma OwnerThree(s: State, n: nat)
    ensures OwnerAlone(s, n + 3) == OwnerAlone(AdvanceOwner(AdvanceOwner(AdvanceOwner(s))), n)
  {
    hide AdvanceOwner;
    var s1 := AdvanceOwner(s);
    var s2 := AdvanceOwner(s1);
    assert OwnerAlone(s, n + 3) == OwnerAlone(s1, n + 2) == OwnerAlone(s2, n + 1);
  }

  function LinesToUnlock(l: Line): nat {
    match l
    case PushHeld => 3
    case PushPassed => 2
    case RemoveHeld => 2
    case _ => 1
  }

  lemma Unlocks(s: State, t: Tid) returns (n: nat)
    requires Inv(s) && HoldsLock(Of(s, t).line)
    ensures n <= LinesToUnlock(Of(s, t).line) && !Alone(s, t, n).lock
    decreases LinesToUnlock(Of(s, t).line)
  {
    var s' := Next(s, Advance(t));
    if Of(s, t).line.Unlock? {
      n := 1;
      assert Alone(s', t, 0) == s';
    } else {
      ThreadInv(s, t);
      n := Unlocks(s', t);
      n := n + 1;
    }
  }

  /** In every reachable state, a lock that is taken is held by the draining owner, or by a thread that gives it back
      within three operations of its own. */
  lemma LockIsHeld(s: State, steps: seq<Step>) returns (t: Tid, n: nat)
    requires Init(s) && Run(s, steps) && After(s, steps).lock && !OwnerHolds(After(s, steps).life)
    ensures var e := After(s, steps); HoldsLock(Of(e, t).line) && n <= 3 && !Alone(e, t, n).lock
  {
    RunInv(s, steps);
    var e := After(s, steps);
    t :| HoldsLock(Of(e, t).line);
    n := Unlocks(e, t);
  }
}
