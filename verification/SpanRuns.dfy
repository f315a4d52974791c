/** Building blocks for concrete runs of SpanProtocol. */
module SpanRuns {
  import opened Epochs
  import opened SpanProtocol
  import opened SpanSafety
  import opened SpanLinks
  import opened SpanMarks

  /** How much a run respects: the assertion of src/core.h:112; also that the lists stay in order; also that
      every PushFront and every Delete passes its test; also that every step is in time. */
  datatype Care = Asserted | Orderly | Tested | Strict

  ghost predicate Meets(s: State, a: Step, care: Care) {
    && Enabled(s, a) && OwnerAsserted(s, a)
    && (!care.Asserted? ==> LinkFree(s, a))
    && (care.Tested? || care.Strict? ==> Guarded(s, a))
    && (care.Strict? ==> InTime(s, a))
  }

  /** Step i of a run leads from the i-th state of its trace to the next. */
  ghost predicate Moves(trace: seq<State>, steps: seq<Step>, i: nat, care: Care) {
    && i < |steps| && i + 1 < |trace|
    && Meets(trace[i], steps[i], care) && trace[i + 1] == Next(trace[i], steps[i])
  }

  ghost predicate Trace(s: State, steps: seq<Step>, trace: seq<State>, end: State, care: Care) {
    && |trace| == |steps| + 1 && trace[0] == s && trace[|steps|] == end
    && forall i: nat {:trigger Moves(trace, steps, i, care)} :: i < |steps| ==> Moves(trace, steps, i, care)
  }

  ghost predicate Leads(s: State, end: State, care: Care) {
    exists steps: seq<Step>, trace: seq<State> :: Trace(s, steps, trace, end, care)
  }

  lemma Stays(s: State, care: Care)
    ensures Leads(s, s, care)
  {
    assert Trace(s, [], [s], s, care);
  }

  lemma Then(s: State, mid: State, end: State, care: Care)
    requires Leads(s, mid, care) && Leads(mid, end, care)
    ensures Leads(s, end, care)
  {
    hide Next, Meets;
    var steps: seq<Step>, trace: seq<State> :| Trace(s, steps, trace, mid, care);
    var more: seq<Step>, tail: seq<State> :| Trace(mid, more, tail, end, care);
    var all := trace + tail[1..];
    forall i: nat | i < |steps + more| ensures Moves(all, steps + more, i, care) {
      if i < |steps| {
        assert Moves(trace, steps, i, care);
      } else {
        assert Moves(tail, more, i - |steps|, care);
      }
    }
    assert Trace(s, steps + more, all, end, care);
  }

  lemma One(s: State, a: Step, care: Care)
    requires Meets(s, a, care)
    ensures Leads(s, Next(s, a), care)
  {
    hide Next, Meets;
    assert Trace(s, [a], [s, Next(s, a)], Next(s, a), care);
  }

  lemma Do(s0: State, s: State, a: Step, care: Care)
    requires Leads(s0, s, care) && Meets(s, a, care)
    ensures Leads(s0, Next(s, a), care)
  {
    hide Next, Meets, Leads;
    One(s, a, care);
    Then(s0, s, Next(s, a), care);
  }

  /** The steps of a trace are a run; those of the stricter kinds have the properties of SpanLinks and
      SpanMarks. */
  lemma {:induction false} TraceRuns(s: State, steps: seq<Step>, trace: seq<State>, end: State, care: Care)
    requires Trace(s, steps, trace, end, care)
    ensures Run(s, steps) && After(s, steps) == end
    ensures care.Tested? || care.Strict? ==> AlwaysGuarded(s, steps)
    ensures care.Strict? ==> AlwaysInTime(s, steps)
    decreases |steps|
  {
    hide Next, Enabled, OwnerAsserted, LinkFree, Guarded, InTime;
    if steps != [] {
      assert Moves(trace, steps, 0, care);
      TraceTail(s, steps, trace, end, care);
      TraceRuns(trace[1], steps[1..], trace[1..], end, care);
    }
  }

  lemma TraceTail(s: State, steps: seq<Step>, trace: seq<State>, end: State, care: Care)
    requires Trace(s, steps, trace, end, care) && steps != []
    ensures Trace(trace[1], steps[1..], trace[1..], end, care)
  {
    hide Meets, Next;
    forall i: nat | i < |steps| - 1 ensures Moves(trace[1..], steps[1..], i, care) {
      assert Moves(trace, steps, i + 1, care);
    }
  }

  /** From an orderly state, all but the first kind keep the lists in order. */
  lemma {:induction false} TraceListed(s: State, steps: seq<Step>, trace: seq<State>, end: State, care: Care)
    requires Trace(s, steps, trace, end, care) && !care.Asserted? && Inv(s) && ListsOk(s) && WordOk(s)
    ensures AlwaysListed(s, steps) && Inv(end) && ListsOk(end) && WordOk(end)
    decreases |steps|
  {
    hide Next, Enabled, OwnerAsserted, LinkFree, Guarded, InTime, Inv, ListsOk, WordOk;
    if steps != [] {
      assert Moves(trace, steps, 0, care);
      StepInv(s, steps[0]);
      StepLists(s, steps[0]);
      TraceTail(s, steps, trace, end, care);
      TraceListed(trace[1], steps[1..], trace[1..], end, care);
    }
  }

  /** Whatever a fresh span leads to in an orderly way is orderly. */
  lemma LeadsInv(s: State, end: State, care: Care)
    requires Inv(s) && ListsOk(s) && WordOk(s) && Leads(s, end, care) && !care.Asserted?
    ensures Inv(end) && ListsOk(end) && WordOk(end)
  {
    hide Inv, ListsOk, WordOk, Trace;
    var steps: seq<Step>, trace: seq<State> :| Trace(s, steps, trace, end, care);
    TraceListed(s, steps, trace, end, care);
  }

  /** Steps that meet every care: all but PushFront, Remove, Delete and the mark of GetSpan. */
  predicate Careless(s: State, a: Step) {
    var l := Of(s, a.t).line;
    !a.PoolPush? && (a.Advance? ==> !l.PushInsert? && !l.RemoveLink? && !l.Acquire?)
  }

  lemma Easily(s0: State, s: State, a: Step, care: Care)
    requires Leads(s0, s, care) && Enabled(s, a) && Careless(s, a)
    ensures Leads(s0, Next(s, a), care)
  {
    hide Leads, Next, Enabled;
    Do(s0, s, a, care);
  }

  /** Operations that are always enabled. */
  predicate Harmless(l: Line) {
    && !l.Idle? && !l.Delete? && !l.PushLink? && !l.PushInsert? && !l.RemoveLink? && !l.Acquire?
    && !l.MoveEach? && !l.Popping?
  }

  /** Thread t takes one more step of its program. */
  lemma Go1(s0: State, s: State, t: Tid, h: Thread, h': Thread, care: Care)
    requires Leads(s0, Go(s, t, h), care) && t !in s.dead && Harmless(h.line)
    requires AdvanceLine(Go(s, t, h), t, h) == Go(Go(s, t, h), t, h')
    ensures Leads(s0, Go(s, t, h'), care)
  {
    hide AdvanceLine, Leads;
    Easily(s0, Go(s, t, h), Advance(t), care);
    assert s.threads[t := h][t := h'] == s.threads[t := h'];
  }

  /** The loads at the start of Core::Free, up to the test in Span::Free. */
  lemma Loads(s0: State, f: State, t: Tid, h: Thread, care: Care)
    requires Leads(s0, Go(f, t, h), care) && h.line.LoadEpoch? && t !in f.dead
    ensures var line := if f.owner == t then PushLocal else PushRemote;
      Leads(s0, Go(f, t, Thread(line, h.p, f.epoch, f.owner, f.class_, h.n)), care)
  {
    hide Leads, Free2, Free3, Free4, Free5, Build, GetSpan, MoveIn, GiveUp;
    var h1 := h.(line := LoadOwner, e := f.epoch);
    var h2 := h1.(line := LoadClass, o := f.owner);
    var h3 := h2.(line := Choose, c := f.class_);
    var h4 := h3.(line := if f.owner == t then PushLocal else PushRemote);
    Go1(s0, f, t, h, h1, care);
    Go1(s0, f, t, h1, h2, care);
    Go1(s0, f, t, h2, h3, care);
    Go1(s0, f, t, h3, h4, care);
  }

  /** The remote push, and the sum, up to the test of the owner. */
  lemma Pushes(s0: State, f: State, t: Tid, h: Thread, care: Care)
    requires Leads(s0, Go(f, t, h), care) && h.line.PushRemote? && t !in f.dead
    ensures Leads(s0, Go(f.(place := f.place[h.p := Remote], tag := f.tag + 1), t,
                         h.(line := if h.o in f.dead then Revive else MarkFreed, n := f.tag + 1 + f.len)), care)
  {
    hide Leads, Free1, Free4, Free5, Build, GetSpan, MoveIn, GiveUp;
    Easily(s0, Go(f, t, h), Advance(t), care);
    var g := f.(place := f.place[h.p := Remote], tag := f.tag + 1);
    var h1 := h.(line := AddLocal, n := f.tag + 1);
    var h2 := h1.(line := CheckOwner, n := f.tag + 1 + f.len);
    assert f.threads[t := h][t := h1] == f.threads[t := h1];
    Go1(s0, g, t, h1, h2, care);
    Go1(s0, g, t, h2, h2.(line := if h.o in f.dead then Revive else MarkFreed), care);
  }

  /** A thread frees a block of a span of another thread, up to the marks or up to the adoption. */
  lemma RemoteFree(s0: State, s: State, t: Tid, p: Block, care: Care)
    requires Leads(s0, s, care) && AtRest(s, t, Of(s, t)) && t !in s.dead && p in s.place && s.place[p] == Out
    requires s.owner != t
    ensures var s' := s.(place := s.place[p := Remote], tag := s.tag + 1);
      var line := if s.owner in s.dead then Revive else MarkFreed;
      Leads(s0, Go(s', t, Thread(line, p, s.epoch, s.owner, s.class_, s.tag + 1 + s.len)), care)
  {
    hide Leads, AdvanceLine;
    var f := s.(place := s.place[p := Flight(t)]);
    var h := Of(s, t).(line := LoadEpoch, p := p);
    Easily(s0, s, StartFree(t, p), care);
    Loads(s0, f, t, h, care);
    Pushes(s0, f, t, Thread(PushRemote, p, f.epoch, f.owner, f.class_, h.n), care);
    assert f.place[p := Remote] == s.place[p := Remote];
  }

  /** A thread frees a block of its own span, up to the local push. */
  lemma LocalFree(s0: State, s: State, t: Tid, p: Block, care: Care)
    requires Leads(s0, s, care) && AtRest(s, t, Of(s, t)) && t !in s.dead && p in s.place && s.place[p] == Out
    requires s.owner == t
    ensures var s' := s.(place := s.place[p := Flight(t)]);
      Leads(s0, Go(s', t, Thread(PushLocal, p, s.epoch, s.owner, s.class_, Of(s, t).n)), care)
  {
    hide Leads, AdvanceLine;
    var f := s.(place := s.place[p := Flight(t)]);
    Easily(s0, s, StartFree(t, p), care);
    Loads(s0, f, t, Of(s, t).(line := LoadEpoch, p := p), care);
  }

  /** A thread allocates a block of its hot span. */
  lemma Mallocs(s0: State, s: State, t: Tid, c: Class, p: Block, care: Care)
    requires Leads(s0, s, care) && AtRest(s, t, Of(s, t)) && t !in s.dead && Slot(t, c) in s.hot
    requires p in s.place && s.place[p] == Local
    ensures Leads(s0, Go(s.(place := s.place[p := Out], len := s.len - 1), t, Of(s, t).(c := c)), care)
  {
    hide Leads, AdvanceLine;
    var h := Of(s, t).(line := Popping, c := c);
    Easily(s0, s, StartMalloc(t, c), care);
    Easily(s0, Go(s, t, h), Allocate(t, p), care);
    assert s.threads[t := h][t := h.(line := Idle)] == s.threads[t := h.(line := Idle)];
  }

  lemma PopsNull(s0: State, s: State, t: Tid, c: Class, care: Care)
    requires Leads(s0, s, care) && AtRest(s, t, Of(s, t)) && t !in s.dead && Slot(t, c) in s.hot
    requires At(s.place, Local) == {}
    ensures Leads(s0, Go(s, t, Of(s, t).(line := CheckFree, c := c)), care)
  {
    hide Leads, Free1, Free2, Free3, Free4, Free5, Build, GetSpan, MoveIn, At;
    var h := Of(s, t).(line := Popping, c := c);
    Easily(s0, s, StartMalloc(t, c), care);
    var m := Go(s, t, h);
    assert Of(m, t) == h && Enabled(m, Advance(t)) && Next(m, Advance(t)) == Go(m, t, h.(line := CheckFree));
    hide Next, Enabled;
    Easily(s0, m, Advance(t), care);
    assert s.threads[t := h][t := h.(line := CheckFree)] == s.threads[t := h.(line := CheckFree)];
  }

  /** A thread finds its hot span used up. */
  lemma FindsEmpty(s0: State, s: State, t: Tid, c: Class, care: Care)
    requires Leads(s0, s, care) && AtRest(s, t, Of(s, t)) && t !in s.dead && Slot(t, c) in s.hot
    requires At(s.place, Local) == {} && s.len + s.tag <= c.threshold
    ensures Leads(s0, Go(s, t, Of(s, t).(line := StoreFloating, c := c, e := s.epoch)), care)
  {
    hide Leads, Free1, Free2, Free3, Free4, Free5, Build, GetSpan, MoveIn, At;
    PopsNull(s0, s, t, c, care);
    var h := Of(s, t).(line := CheckFree, c := c);
    Go1(s0, s, t, h, h.(line := LoadFloat), care);
    Go1(s0, s, t, h.(line := LoadFloat), h.(line := StoreFloating, e := s.epoch), care);
  }

  /** And it gives the span up. */
  lemma Floats(s0: State, s: State, t: Tid, c: Class, care: Care)
    requires Leads(s0, s, care) && AtRest(s, t, Of(s, t)) && t !in s.dead && Slot(t, c) in s.hot
    requires At(s.place, Local) == {} && s.len + s.tag <= c.threshold
    ensures Leads(s0, Go(s.(epoch := s.epoch.OnlyValue(), hot := s.hot - {Slot(t, c)}, token := Shared), t,
                         Of(s, t).(c := c, e := s.epoch)), care)
  {
    hide Leads, Free1, Free2, Free3, Free4, Free5, Build, GetSpan, MoveIn, At;
    FindsEmpty(s0, s, t, c, care);
    var h := Of(s, t).(line := StoreFloating, c := c, e := s.epoch);
    Easily(s0, Go(s, t, h), Advance(t), care);
    assert s.threads[t := h][t := h.(line := Idle)] == s.threads[t := h.(line := Idle)];
  }

  /** A thread frees a block of a span whose owner is dead, and adopts the span. */
  lemma Revives(s0: State, q: State, f: Tid, b: Block, care: Care)
    requires Leads(s0, q, care) && q.owner in q.dead && q.owner != f
    requires b in q.place && q.place[b] == Out && f !in q.dead && AtRest(q, f, Of(q, f))
    ensures var g := q.(place := q.place[b := Remote], tag := q.tag + 1, owner := f);
      Leads(s0, Go(g.(epoch := q.epoch.OnlyValue()), f,
                   Thread(MarkFreed, b, q.epoch, f, q.class_, q.tag + 1 + q.len)), care)
  {
    hide Leads, Free1, Free2, Free4, Free5, Build, GetSpan, MoveIn, GiveUp;
    RemoteFree(s0, q, f, b, care);
    var h := Thread(Revive, b, q.epoch, q.owner, q.class_, q.tag + 1 + q.len);
    var g := q.(place := q.place[b := Remote], tag := q.tag + 1);
    Easily(s0, Go(g, f, h), Advance(f), care);
    var h', g' := h.(line := FloatRevived), g.(owner := f);
    assert q.threads[f := h][f := h'] == q.threads[f := h'];
    Easily(s0, Go(g', f, h'), Advance(f), care);
    assert q.threads[f := h'][f := h'.(line := MarkFreed, o := f)] == q.threads[f := h'.(line := MarkFreed, o := f)];
  }
}
