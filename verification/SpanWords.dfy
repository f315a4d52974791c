/** SpanProtocol with the 32-bit epoch words of the source in place of unbounded epochs, and the proof that
    the two take the same steps while no epoch is used 2^28 marks after it was loaded. */
module SpanWords {
  import opened EpochWord
  import opened SpanProtocol
  import opened SpanSafety
  import opened SpanLinks
  import E = Epochs

  /** The epoch word and each thread's old_epoch as machine words; rest is everything else. */
  datatype WordState = WordState(rest: State, word: Word, seen: map<Tid, Word>)

  const NONE: E.Epoch := E.Epoch(0, E.Floating)

  function Seen(w: WordState, t: Tid): Word {
    if t in w.seen then w.seen[t] else LowBits(0)
  }

  /** A state without its epochs. */
  function Erase(s: State): State {
    s.(epoch := NONE, threads := map t | t in s.threads :: s.threads[t].(e := NONE))
  }

  // ----- the steps that load, test or swap the word -----

  function LoadWord(w: WordState, t: Tid, line: Line): WordState {
    w.(rest := Go(w.rest, t, Of(w.rest, t).(line := line)), seen := w.seen[t := w.word])
  }

  /** TryMarkFloating after an adoption. */
  function FloatWord(w: WordState, t: Tid): WordState {
    var h := Of(w.rest, t).(line := MarkFreed, o := t);
    w.(rest := Go(w.rest, t, h), word := TryMarkFloating(w.word, Seen(w, t)).word)
  }

  function FullWord(w: WordState, t: Tid): WordState {
    var r, h := NewMarkFull(w.word, Seen(w, t)), Of(w.rest, t);
    if r.ok then w.(rest := Go(w.rest.(token := DeletedBy(t)), t, h.(line := RemoveLink)), word := r.word)
    else w.(rest := Go(w.rest, t, h.(line := Idle)))
  }

  function ReuseWord(w: WordState, t: Tid): WordState {
    var r, h := NewMarkReuse(w.word, Seen(w, t)), Of(w.rest, t);
    if r.ok then w.(rest := Go(w.rest, t, h.(line := PushLink)), word := r.word)
    else w.(rest := Go(w.rest, t, h.(line := Idle)))
  }

  /** src/core.h:192-214, with IsFloatingOrReusable and IsReusable of src/span.h:34-40. */
  function MarkWord(w: WordState, t: Tid): WordState {
    var h, seen := Of(w.rest, t), Seen(w, t);
    if h.n == h.c.objects && !IsHot(seen) && !IsFull(seen) then FullWord(w, t)
    else if h.n > h.c.threshold && !IsReusable(seen) then ReuseWord(w, t)
    else w.(rest := Go(w.rest, t, h.(line := Idle)))
  }

  function RemoveWord(w: WordState, t: Tid): WordState {
    var h := Of(w.rest, t);
    var removes := IsReusable(Seen(w, t)) && !Refused(w.rest, Named(h));
    w.(rest := Go(if removes then w.rest.(lists := Unlink(w.rest.lists)) else w.rest, t, h.(line := Delete)))
  }

  /** The mark of the constructor. */
  function NewWord(w: WordState, t: Tid): WordState {
    var h := Of(w.rest, t).(line := Popping);
    w.(rest := Go(w.rest.(hot := w.rest.hot + {Slot(t, h.c)}, token := HotBy(t, h.c)), t, h),
       word := NewMarkHot(w.word, w.word).word)
  }

  /** The mark of GetSpan. */
  function AcquireWord(w: WordState, t: Tid): WordState {
    var r, h := NewMarkHot(w.word, Seen(w, t)), Of(w.rest, t);
    if r.ok then
      w.(rest := Go(w.rest.(hot := w.rest.hot + {Slot(t, h.c)}, token := HotBy(t, h.c)), t, h.(line := Collect)),
         word := r.word)
    else
      w.(rest := Go(w.rest, t, h.(line := Idle)))
  }

  function StoreWord(w: WordState, t: Tid): WordState {
    var h := Of(w.rest, t).(line := Idle);
    w.(rest := Go(w.rest.(hot := w.rest.hot - {Slot(t, h.c)}, token := Shared), t, h),
       word := NewMarkFloating(Seen(w, t)))
  }

  /** Lines whose operation deals with the word. */
  predicate Wordy(l: Line) {
    l.LoadEpoch? || l.FloatRevived? || l.MarkFreed? || l.RemoveLink? || l.MarkNew? || l.TookLink? || l.Acquire?
    || l.LoadFloat? || l.StoreFloating?
  }

  function WordLine(w: WordState, t: Tid): WordState {
    match Of(w.rest, t).line
    case LoadEpoch => LoadWord(w, t, LoadOwner)
    case TookLink => LoadWord(w, t, Acquire)
    case FloatRevived => FloatWord(w, t)
    case MarkFreed => MarkWord(w, t)
    case RemoveLink => RemoveWord(w, t)
    case MarkNew => NewWord(w, t)
    case Acquire => AcquireWord(w, t)
    case LoadFloat => LoadWord(w, t, StoreFloating)
    case StoreFloating => StoreWord(w, t)
    case _ => w
  }

  function WordNext(w: WordState, a: Step): WordState {
    if a.Advance? && Wordy(Of(w.rest, a.t).line) then WordLine(w, a.t) else w.(rest := Next(w.rest, a))
  }

  // ----- simulation -----

  ghost predicate Matches(s: State, w: WordState) {
    && w.rest == Erase(s) && Represents(w.word, s.epoch)
    && forall t: Tid :: Represents(Seen(w, t), Of(s, t).e)
  }

  lemma MatchedRest(s: State, w: WordState)
    requires Matches(s, w)
    ensures w.rest == Erase(s) && Represents(w.word, s.epoch)
  {
  }

  /** The step does not use an epoch that is 2^28 marks old, nor one that is yet to come. */
  ghost predicate Young(s: State, a: Step) {
    var h := Of(s, a.t);
    a.Advance? && (h.line.FloatRevived? || h.line.MarkFreed? || h.line.Acquire?) ==>
      h.e.count <= s.epoch.count < h.e.count + WRAP
  }

  lemma ErasedThread(s: State, t: Tid)
    ensures Of(Erase(s), t) == Of(s, t).(e := NONE)
  {
  }

  lemma ErasedGo(s: State, t: Tid, h: Thread)
    ensures Erase(Go(s, t, h)) == Go(Erase(s), t, h.(e := NONE))
  {
  }

  /** One thread has taken a step: what remains to be said of the words. */
  lemma Matched(s: State, w: WordState, s': State, w': WordState, t: Tid)
    requires Matches(s, w) && s'.threads == s.threads[t := Of(s', t)]
    requires w'.rest == Erase(s') && Represents(w'.word, s'.epoch)
    requires w'.seen == w.seen || w'.seen == w.seen[t := Seen(w', t)]
    requires Represents(Seen(w', t), Of(s', t).e)
    ensures Matches(s', w')
  {
    hide Represents, Erase;
    forall u: Tid ensures Represents(Seen(w', u), Of(s', u).e) {
      assert Represents(Seen(w, u), Of(s, u).e);
    }
  }

  lemma LoadSame(s: State, w: WordState, t: Tid, line: Line)
    requires Matches(s, w)
    ensures Matches(Go(s, t, Of(s, t).(line := line, e := s.epoch)), LoadWord(w, t, line))
  {
    ErasedThread(s, t);
    ErasedGo(s, t, Of(s, t).(line := line, e := s.epoch));
    hide Represents, Erase;
    Matched(s, w, Go(s, t, Of(s, t).(line := line, e := s.epoch)), LoadWord(w, t, line), t);
  }

  /** The other steps do the same with and without the epochs. */
  ghost predicate Alike(s: State, s': State, r: State, t: Tid) {
    && r == Erase(s') && s'.epoch == s.epoch && Of(s', t).e == Of(s, t).e
    && s'.threads == s.threads[t := Of(s', t)]
  }

  /** Such a step changes fields that hold no epoch, from s to g, and then the record of t. */
  lemma GoAlike(s: State, g: State, r: State, t: Tid, h: Thread)
    requires g.threads == s.threads && g.epoch == s.epoch && h.e == Of(s, t).e
    requires r == Go(Erase(g), t, h.(e := NONE))
    ensures Alike(s, Go(g, t, h), r, t)
  {
    ErasedGo(g, t, h);
  }

  lemma LoadAlike(s: State, t: Tid, h: Thread)
    requires h == Of(s, t) && (h.line.LoadOwner? || h.line.LoadClass? || h.line.Choose? || h.line.CheckOwner?
                               || h.line.Revive?)
    ensures Alike(s, AdvanceLine(s, t, h), AdvanceLine(Erase(s), t, h.(e := NONE)), t)
  {
    hide Alike, Free2, Free4, Free5, Build, GetSpan, MoveIn, GiveUp;
    var s' := AdvanceLine(s, t, h);
    GoAlike(s, s'.(threads := s.threads), AdvanceLine(Erase(s), t, h.(e := NONE)), t, Of(s', t));
  }

  lemma PushAlike(s: State, t: Tid, h: Thread)
    requires h == Of(s, t) && (h.line.PushLocal? || h.line.PushRemote? || h.line.AddRemote? || h.line.AddLocal?)
    ensures Alike(s, AdvanceLine(s, t, h), AdvanceLine(Erase(s), t, h.(e := NONE)), t)
  {
    hide Alike, Free1, Free3, Free4, Free5, Build, GetSpan, MoveIn, GiveUp;
    var s' := AdvanceLine(s, t, h);
    GoAlike(s, s'.(threads := s.threads), AdvanceLine(Erase(s), t, h.(e := NONE)), t, Of(s', t));
  }

  lemma ListAlike(s: State, t: Tid, h: Thread)
    requires h == Of(s, t) && (h.line.PushLink? || h.line.PushInsert?)
    ensures Alike(s, AdvanceLine(s, t, h), AdvanceLine(Erase(s), t, h.(e := NONE)), t)
  {
    hide Alike, Free1, Free2, Free3, Free4, Build, GetSpan, MoveIn, GiveUp;
    var s' := AdvanceLine(s, t, h);
    GoAlike(s, s'.(threads := s.threads), AdvanceLine(Erase(s), t, h.(e := NONE)), t, Of(s', t));
  }

  lemma BuildAlike(s: State, t: Tid, h: Thread)
    requires h == Of(s, t) && (h.line.ResetLink? || h.line.SetOwner? || h.line.ResetLists?)
    ensures Alike(s, AdvanceLine(s, t, h), AdvanceLine(Erase(s), t, h.(e := NONE)), t)
  {
    hide Alike, Free1, Free2, Free3, Free4, Free5, GetSpan, MoveIn, GiveUp, Blocks;
    var s' := AdvanceLine(s, t, h);
    GoAlike(s, s'.(threads := s.threads), AdvanceLine(Erase(s), t, h.(e := NONE)), t, Of(s', t));
  }

  lemma MoveAlike(s: State, t: Tid, h: Thread)
    requires h == Of(s, t) && (h.line.Collect? || h.line.Move? || h.line.MoveEach?)
    ensures Alike(s, AdvanceLine(s, t, h), AdvanceLine(Erase(s), t, h.(e := NONE)), t)
  {
    hide Alike, Free1, Free2, Free3, Free4, Free5, Build, GetSpan, GiveUp, Relocate;
    var s' := AdvanceLine(s, t, h);
    GoAlike(s, s'.(threads := s.threads), AdvanceLine(Erase(s), t, h.(e := NONE)), t, Of(s', t));
  }

  lemma PopAlike(s: State, t: Tid, h: Thread)
    requires h == Of(s, t) && (h.line.Popping? || h.line.CheckFree?)
    ensures Alike(s, AdvanceLine(s, t, h), AdvanceLine(Erase(s), t, h.(e := NONE)), t)
  {
    hide Alike, Free1, Free2, Free3, Free4, Free5, Build, GetSpan, MoveIn;
    var s' := AdvanceLine(s, t, h);
    GoAlike(s, s'.(threads := s.threads), AdvanceLine(Erase(s), t, h.(e := NONE)), t, Of(s', t));
  }

  lemma ListChoiceAlike(s: State, a: Step)
    requires a.PoolPush? || a.TakeNew? || a.TakeLink? || a.Close? || a.Drain? || a.Terminate?
    ensures Alike(s, Next(s, a), Next(Erase(s), a), a.t)
  {
    ErasedThread(s, a.t);
    hide Alike, AdvanceLine;
    var s' := Next(s, a);
    GoAlike(s, s'.(threads := s.threads), Next(Erase(s), a), a.t, Of(s', a.t));
  }

  lemma BlockChoiceAlike(s: State, a: Step)
    requires a.StartFree? || a.StartMalloc? || a.Allocate? || a.MoveOne? || a.Park?
    ensures Alike(s, Next(s, a), Next(Erase(s), a), a.t)
  {
    ErasedThread(s, a.t);
    hide Alike, AdvanceLine;
    var s' := Next(s, a);
    GoAlike(s, s'.(threads := s.threads), Next(Erase(s), a), a.t, Of(s', a.t));
  }

  lemma AdvanceAlike(s: State, t: Tid, h: Thread)
    requires h == Of(s, t) && !Wordy(h.line) && !h.line.Idle? && !h.line.Delete?
    ensures Alike(s, AdvanceLine(s, t, h), AdvanceLine(Erase(s), t, h.(e := NONE)), t)
  {
    hide Alike, AdvanceLine, Erase;
    if h.line.PushLocal? || h.line.PushRemote? || h.line.AddRemote? || h.line.AddLocal? {
      PushAlike(s, t, h);
    } else if Carrying(h.line) || Summed(h.line) {
      LoadAlike(s, t, h);
    } else if h.line.PushLink? || h.line.PushInsert? {
      ListAlike(s, t, h);
    } else if Building(h.line) {
      BuildAlike(s, t, h);
    } else if h.line.Collect? || Shifting(h.line) {
      MoveAlike(s, t, h);
    } else {
      PopAlike(s, t, h);
    }
  }

  lemma PlainSame(s: State, w: WordState, a: Step)
    requires Matches(s, w) && Enabled(s, a) && (a.Advance? ==> !Wordy(Of(s, a.t).line))
    ensures Matches(Next(s, a), w.(rest := Next(w.rest, a)))
  {
    var h := Of(s, a.t);
    ErasedThread(s, a.t);
    assert Represents(Seen(w, a.t), h.e);
    hide Represents, Erase, AdvanceLine;
    if a.Advance? {
      AdvanceAlike(s, a.t, h);
    } else if a.StartFree? || a.StartMalloc? || a.Allocate? || a.MoveOne? || a.Park? {
      BlockChoiceAlike(s, a);
    } else {
      ListChoiceAlike(s, a);
    }
    hide Next;
    Matched(s, w, Next(s, a), w.(rest := Next(w.rest, a)), a.t);
  }

  // ----- the steps with words -----

  /** Thread t ends such a step at h, with the other fields as in g. */
  lemma WordsMatched(s: State, w: WordState, g: State, w': WordState, t: Tid, h: Thread)
    requires Matches(s, w) && g.threads == s.threads && h.e == Of(s, t).e
    requires w'.rest == Go(Erase(g), t, h.(e := NONE)) && w'.seen == w.seen && Represents(w'.word, g.epoch)
    ensures Matches(Go(g, t, h), w')
  {
    ErasedGo(g, t, h);
    assert Represents(Seen(w, t), Of(s, t).e);
    hide Represents, Erase;
    Matched(s, w, Go(g, t, h), w', t);
  }

  lemma FullSame(s: State, w: WordState, t: Tid, h: Thread)
    requires Matches(s, w) && h == Of(s, t) && h.e.count <= s.epoch.count < h.e.count + WRAP
    ensures Matches(MarkFullStep(s, t, h), FullWord(w, t))
  {
    ErasedThread(s, t);
    assert Represents(Seen(w, t), h.e);
    MarksRefine(w.word, Seen(w, t), s.epoch, h.e);
    hide Represents, NewMarkFull, E.NewMarkFull, Matches;
    var s' := MarkFullStep(s, t, h);
    WordsMatched(s, w, s'.(threads := s.threads), FullWord(w, t), t, Of(s', t));
  }

  lemma ReuseSame(s: State, w: WordState, t: Tid, h: Thread)
    requires Matches(s, w) && h == Of(s, t) && h.e.count <= s.epoch.count < h.e.count + WRAP
    ensures Matches(MarkReuseStep(s, t, h), ReuseWord(w, t))
  {
    ErasedThread(s, t);
    assert Represents(Seen(w, t), h.e);
    MarksRefine(w.word, Seen(w, t), s.epoch, h.e);
    hide Represents, NewMarkReuse, E.NewMarkReuse, Matches;
    var s' := MarkReuseStep(s, t, h);
    WordsMatched(s, w, s'.(threads := s.threads), ReuseWord(w, t), t, Of(s', t));
  }

  lemma MarkSame(s: State, w: WordState, t: Tid, h: Thread)
    requires Matches(s, w) && h == Of(s, t) && h.e.count <= s.epoch.count < h.e.count + WRAP
    ensures Matches(Free4(s, t, h), MarkWord(w, t))
  {
    ErasedThread(s, t);
    assert Represents(Seen(w, t), h.e);
    TestsRefine(Seen(w, t), h.e);
    FullSame(s, w, t, h);
    ReuseSame(s, w, t, h);
    hide Represents, IsHot, IsFull, IsReusable, Matches, MarkFullStep, MarkReuseStep, FullWord, ReuseWord;
    var idle := h.(line := Idle);
    MatchedRest(s, w);
    WordsMatched(s, w, s, w.(rest := Go(w.rest, t, idle.(e := NONE))), t, idle);
  }

  lemma FloatSame(s: State, w: WordState, t: Tid, h: Thread)
    requires Matches(s, w) && h == Of(s, t) && h.line.FloatRevived?
    requires h.e.count <= s.epoch.count < h.e.count + WRAP
    ensures Matches(Free3(s, t, h), FloatWord(w, t))
  {
    ErasedThread(s, t);
    assert Represents(Seen(w, t), h.e);
    MarksRefine(w.word, Seen(w, t), s.epoch, h.e);
    hide Represents, TryMarkFloating, E.TryMarkFloating, Matches;
    var s' := Free3(s, t, h);
    WordsMatched(s, w, s'.(threads := s.threads), FloatWord(w, t), t, Of(s', t));
  }

  lemma RemoveSame(s: State, w: WordState, t: Tid, h: Thread)
    requires Matches(s, w) && h == Of(s, t) && h.line.RemoveLink?
    ensures Matches(Free5(s, t, h), RemoveWord(w, t))
  {
    ErasedThread(s, t);
    assert Represents(Seen(w, t), h.e);
    TestsRefine(Seen(w, t), h.e);
    hide Represents, IsReusable, Matches;
    var s' := Free5(s, t, h);
    WordsMatched(s, w, s'.(threads := s.threads), RemoveWord(w, t), t, Of(s', t));
  }

  lemma NewSame(s: State, w: WordState, t: Tid, h: Thread)
    requires Matches(s, w) && h == Of(s, t) && h.line.MarkNew?
    ensures Matches(Build(s, t, h), NewWord(w, t))
  {
    ErasedThread(s, t);
    MarksRefine(w.word, w.word, s.epoch, s.epoch);
    hide Represents, NewMarkHot, E.NewMarkHot, Matches;
    var s' := Build(s, t, h);
    WordsMatched(s, w, s'.(threads := s.threads), NewWord(w, t), t, Of(s', t));
  }

  lemma AcquireSame(s: State, w: WordState, t: Tid, h: Thread)
    requires Matches(s, w) && h == Of(s, t) && h.line.Acquire?
    requires h.e.count <= s.epoch.count < h.e.count + WRAP
    ensures Matches(GetSpan(s, t, h), AcquireWord(w, t))
    ensures NewMarkHot(w.word, Seen(w, t)).ok == E.NewMarkHot(s.epoch, h.e).ok
  {
    ErasedThread(s, t);
    assert Represents(Seen(w, t), h.e);
    MarksRefine(w.word, Seen(w, t), s.epoch, h.e);
    hide Represents, NewMarkHot, E.NewMarkHot, Matches;
    var s' := GetSpan(s, t, h);
    WordsMatched(s, w, s'.(threads := s.threads), AcquireWord(w, t), t, Of(s', t));
  }

  lemma StoreSame(s: State, w: WordState, t: Tid, h: Thread)
    requires Matches(s, w) && h == Of(s, t) && h.line.StoreFloating?
    ensures Matches(GiveUp(s, t, h), StoreWord(w, t))
  {
    ErasedThread(s, t);
    assert Represents(Seen(w, t), h.e);
    Masked(Seen(w, t), h.e);
    hide Represents, And, Matches;
    var s' := GiveUp(s, t, h);
    WordsMatched(s, w, s'.(threads := s.threads), StoreWord(w, t), t, Of(s', t));
  }

  /** One step with words is the same step with unbounded epochs. */
  lemma StepSame(s: State, w: WordState, a: Step)
    requires Matches(s, w) && Enabled(s, a) && Young(s, a)
    ensures Matches(Next(s, a), WordNext(w, a))
  {
    var h := Of(s, a.t);
    ErasedThread(s, a.t);
    MatchedRest(s, w);
    hide Matches, Represents, Erase, WordLine;
    hide Free1, Free2, Free3, Free4, Free5, Build, GetSpan, MoveIn, GiveUp;
    if a.Advance? && Wordy(h.line) {
      LineSame(s, w, a.t, h);
    } else {
      PlainSame(s, w, a);
    }
  }

  lemma LoadLine(s: State, w: WordState, t: Tid, h: Thread, line: Line)
    requires h == Of(s, t) && Of(w.rest, t).line == h.line
    requires (h.line.LoadEpoch? && line.LoadOwner?) || (h.line.TookLink? && line.Acquire?)
             || (h.line.LoadFloat? && line.StoreFloating?)
    ensures AdvanceLine(s, t, h) == Go(s, t, h.(line := line, e := s.epoch)) && WordLine(w, t) == LoadWord(w, t, line)
  {
  }

  lemma LoadLineSame(s: State, w: WordState, t: Tid, h: Thread)
    requires Matches(s, w) && h == Of(s, t) && (h.line.LoadEpoch? || h.line.TookLink? || h.line.LoadFloat?)
    ensures Matches(AdvanceLine(s, t, h), WordLine(w, t))
  {
    hide Matches, AdvanceLine, WordLine, Erase, Of;
    ErasedThread(s, t);
    MatchedRest(s, w);
    var line := if h.line.LoadEpoch? then LoadOwner else if h.line.TookLink? then Acquire else StoreFloating;
    LoadLine(s, w, t, h, line);
    LoadSame(s, w, t, line);
  }

  lemma CasSame(s: State, w: WordState, t: Tid, h: Thread)
    requires Matches(s, w) && h == Of(s, t) && (h.line.FloatRevived? || h.line.MarkFreed? || h.line.Acquire?)
    requires h.e.count <= s.epoch.count < h.e.count + WRAP
    ensures Matches(AdvanceLine(s, t, h), WordLine(w, t))
  {
    hide Matches, Represents, Erase, Of, Free1, Free2, Free3, Free4, Free5, Build, GetSpan, MoveIn, GiveUp;
    hide LoadWord, FloatWord, MarkWord, RemoveWord, NewWord, AcquireWord, StoreWord;
    ErasedThread(s, t);
    MatchedRest(s, w);
    if h.line.FloatRevived? {
      FloatSame(s, w, t, h);
    } else if h.line.MarkFreed? {
      MarkSame(s, w, t, h);
    } else {
      AcquireSame(s, w, t, h);
    }
  }

  lemma LineSame(s: State, w: WordState, t: Tid, h: Thread)
    requires Matches(s, w) && h == Of(s, t) && Wordy(h.line)
    requires h.line.FloatRevived? || h.line.MarkFreed? || h.line.Acquire? ==> h.e.count <= s.epoch.count < h.e.count + WRAP
    ensures Matches(AdvanceLine(s, t, h), WordLine(w, t))
  {
    hide Matches, Represents, Erase, Of, Free1, Free2, Free3, Free4, Free5, Build, GetSpan, MoveIn, GiveUp;
    hide LoadWord, FloatWord, MarkWord, RemoveWord, NewWord, AcquireWord, StoreWord;
    ErasedThread(s, t);
    MatchedRest(s, w);
    if h.line.LoadEpoch? || h.line.TookLink? || h.line.LoadFloat? {
      LoadLineSame(s, w, t, h);
    } else if h.line.RemoveLink? {
      RemoveSame(s, w, t, h);
    } else if h.line.MarkNew? {
      NewSame(s, w, t, h);
    } else if h.line.StoreFloating? {
      StoreSame(s, w, t, h);
    } else {
      CasSame(s, w, t, h);
    }
  }

  // ----- runs -----

  /** What a thread waits for, with the word for its epoch. */
  ghost predicate WordEnabled(w: WordState, a: Step) {
    var h := Of(w.rest, a.t);
    && Enabled(w.rest, a)
    && (a.Advance? && h.line.RemoveLink? && IsReusable(Seen(w, a.t)) ==> Named(h) !in w.rest.lists.locked)
  }

  /** The assertion of src/core.h:112. */
  ghost predicate WordAsserted(w: WordState, a: Step) {
    a.Advance? && Of(w.rest, a.t).line.Acquire? && NewMarkHot(w.word, Seen(w, a.t)).ok ==> w.rest.owner == a.t
  }

  /** Steps that can be taken one after the other, whether the assertion holds or not. */
  ghost predicate Taken(s: State, steps: seq<Step>)
    decreases |steps|
  {
    steps == [] || (Enabled(s, steps[0]) && Taken(Next(s, steps[0]), steps[1..]))
  }

  ghost predicate WordTaken(w: WordState, steps: seq<Step>)
    decreases |steps|
  {
    steps == [] || (WordEnabled(w, steps[0]) && WordTaken(WordNext(w, steps[0]), steps[1..]))
  }

  ghost predicate WordRun(w: WordState, steps: seq<Step>)
    decreases |steps|
  {
    steps == []
    || (WordEnabled(w, steps[0]) && WordAsserted(w, steps[0]) && WordRun(WordNext(w, steps[0]), steps[1..]))
  }

  function WordAfter(w: WordState, steps: seq<Step>): WordState
    decreases |steps|
  {
    if steps == [] then w else WordAfter(WordNext(w, steps[0]), steps[1..])
  }

  ghost predicate AlwaysYoung(s: State, steps: seq<Step>)
    decreases |steps|
  {
    steps == [] || (Young(s, steps[0]) && AlwaysYoung(Next(s, steps[0]), steps[1..]))
  }

  lemma ErasedEnabled(s: State, a: Step)
    ensures var h := Of(s, a.t);
      Enabled(s, a) <==>
        && Enabled(Erase(s), a)
        && (a.Advance? && h.line.RemoveLink? && h.e.IsReusable() ==> Named(h) !in s.lists.locked)
  {
    ErasedThread(s, a.t);
    hide At;
  }

  lemma GuardsSame(s: State, w: WordState, a: Step)
    requires Matches(s, w) && Young(s, a)
    ensures WordEnabled(w, a) <==> Enabled(s, a)
    ensures WordAsserted(w, a) <==> OwnerAsserted(s, a)
  {
    var h := Of(s, a.t);
    ErasedThread(s, a.t);
    assert Represents(Seen(w, a.t), h.e);
    TestsRefine(Seen(w, a.t), h.e);
    if a.Advance? && h.line.Acquire? {
      AcquireSame(s, w, a.t, h);
    }
    ErasedEnabled(s, a);
    hide Represents, NewMarkHot, E.NewMarkHot, IsReusable, Enabled;
  }

  /** The words can take exactly the steps that the epochs can take, meet the assertion of src/core.h:112 in
      the same runs, and agree with the epochs in every state, while no epoch is used 2^28 marks after its
      load. */
  lemma {:induction false} WordsFollow(s: State, w: WordState, steps: seq<Step>)
    requires Matches(s, w) && AlwaysYoung(s, steps)
    ensures WordTaken(w, steps) <==> Taken(s, steps)
    ensures WordRun(w, steps) <==> Run(s, steps)
    ensures Taken(s, steps) ==> Matches(After(s, steps), WordAfter(w, steps))
    decreases |steps|
  {
    hide Matches, Next, WordNext, Enabled, WordEnabled, OwnerAsserted, WordAsserted, Young;
    if steps != [] {
      GuardsSame(s, w, steps[0]);
      if Enabled(s, steps[0]) {
        StepSame(s, w, steps[0]);
        WordsFollow(Next(s, steps[0]), WordNext(w, steps[0]), steps[1..]);
      }
    }
  }

  lemma {:induction false} RunTaken(s: State, steps: seq<Step>)
    requires Run(s, steps)
    ensures Taken(s, steps)
    decreases |steps|
  {
    hide Next, Enabled, OwnerAsserted;
    if steps != [] {
      RunTaken(Next(s, steps[0]), steps[1..]);
    }
  }

  /** In runs that meet the assertion no epoch is used that is yet to come: only the age matters. */
  lemma YoungByAge(s: State, a: Step)
    requires Inv(s) && Of(s, a.t).e.count + WRAP > s.epoch.count
    ensures Young(s, a)
  {
    assert ThreadOk(s, a.t);
  }

  lemma {:induction false} ZeroVal(n: nat)
    ensures Val(seq(n, i => false)) == 0
  {
    if n > 0 {
      ZeroVal(n - 1);
      assert seq(n, i => false)[1..] == seq(n - 1, i => false);
    }
  }

  /** Memory of the arena, all zero. */
  function Fresh(s: State): WordState {
    WordState(Erase(s), LowBits(0), map[])
  }

  lemma InitMatches(s: State)
    requires Init(s)
    ensures Matches(s, Fresh(s))
  {
    ZeroVal(VALUE_BITS);
    assert LowBits(0)[..VALUE_BITS] == seq(VALUE_BITS, i => false);
    assert Represents(LowBits(0), NONE);
    hide Represents;
  }

  /** The compare-and-swap of src/core.h:194 is next and will succeed on the words. */
  ghost predicate WordReclaims(w: WordState, t: Tid) {
    var h := Of(w.rest, t);
    && h.line.MarkFreed? && h.n == h.c.objects && !IsHot(Seen(w, t)) && !IsFull(Seen(w, t))
    && NewMarkFull(w.word, Seen(w, t)).ok
  }

  /** Safe reclamation with 32-bit epochs, in runs that meet the assertion and keep the lists in order: the
      thread that wins the full mark gets a span all of whose blocks are free and that nobody uses. */
  lemma WordReclamation(s: State, steps: seq<Step>, t: Tid)
    requires Init(s) && WordRun(Fresh(s), steps) && WordReclaims(WordAfter(Fresh(s), steps), t)
    requires AlwaysYoung(s, steps) && Young(After(s, steps), Advance(t)) && AlwaysListed(s, steps)
    ensures var end := WordAfter(Fresh(s), steps).rest;
      && AllFree(end.place) && end.place.Keys == Blocks(end.class_.objects)
      && end.hot == {} && end.lists.pooled == 0 && |end.lists.linked| <= 1
  {
    InitInv(s);
    InitMatches(s);
    WordsFollow(s, Fresh(s), steps);
    RunTaken(s, steps);
    RunInv(s, steps);
    InitLists(s);
    RunListed(s, steps);
    hide Init, Run, WordRun, AlwaysYoung, AlwaysListed;
    OneOfAll(After(s, steps));
    WordReclaimed(After(s, steps), WordAfter(Fresh(s), steps), t);
  }

  lemma WordReclaimed(s: State, w: WordState, t: Tid)
    requires Inv(s) && Matches(s, w) && Young(s, Advance(t)) && WordReclaims(w, t)
    ensures AllFree(w.rest.place) && w.rest.place.Keys == Blocks(w.rest.class_.objects)
    ensures w.rest.hot == {} && w.rest.lists.pooled == 0 && w.rest.lists == s.lists
  {
    var h := Of(s, t);
    ErasedThread(s, t);
    assert Represents(Seen(w, t), h.e);
    assert ThreadOk(s, t);
    MarksRefine(w.word, Seen(w, t), s.epoch, h.e);
    TestsRefine(Seen(w, t), h.e);
    hide Represents, NewMarkFull, NewMarkHot, NewMarkReuse, IsHot, IsFull;
    CountedAll(s);
  }
}
