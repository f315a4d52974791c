/** The 32-bit epoch words of src/span.h:79-95 and 217-251, bit by bit, and the proof that they
    implement the unbounded epochs of Epochs while fewer than 2^28 marks separate the load of an
    epoch from the compare-and-swap that uses it. */
module EpochWord {
  import opened Epochs

  /** Bit i of the machine word is element i. */
  type Word = seq<bool>

  const VALUE_BITS: nat := 28
  const WRAP: nat := 0x1000_0000

  function Bit(k: nat): Word {
    seq(32, i => i == k)
  }

  function LowBits(n: nat): Word {
    seq(32, i => i < n)
  }

  function And(a: Word, b: Word): Word {
    seq(32, i requires 0 <= i < 32 => i < |a| && a[i] && i < |b| && b[i])
  }

  function Or(a: Word, b: Word): Word {
    seq(32, i requires 0 <= i < 32 => (i < |a| && a[i]) || (i < |b| && b[i]))
  }

  /** Addition of one, with the carry running to the left and out of the word. */
  function PlusOne(b: seq<bool>): (r: seq<bool>)
    ensures |r| == |b|
  {
    if b == [] then [] else if b[0] then [false] + PlusOne(b[1..]) else [true] + b[1..]
  }

  const HOT: Word := Bit(31)
  const FULL: Word := Bit(30)
  const REUSE: Word := Bit(29)
  const VALUES_MASK: Word := LowBits(VALUE_BITS)
  const HOT_MASK: Word := Or(VALUES_MASK, HOT)
  const FULL_MASK: Word := Or(VALUES_MASK, FULL)
  const REUSE_MASK: Word := Or(VALUES_MASK, REUSE)

  datatype WordCas = WordCas(word: Word, ok: bool)

  function Swap(now: Word, expected: Word, desired: Word): WordCas {
    if now == expected then WordCas(desired, true) else WordCas(now, false)
  }

  function NewMarkHot(now: Word, seen: Word): WordCas {
    var expected := And(seen, REUSE_MASK);
    Swap(now, expected, And(Or(PlusOne(expected), HOT), HOT_MASK))
  }

  function NewMarkFull(now: Word, seen: Word): WordCas {
    var expected := And(seen, REUSE_MASK);
    Swap(now, expected, And(Or(PlusOne(expected), FULL), FULL_MASK))
  }

  function NewMarkReuse(now: Word, seen: Word): WordCas {
    var expected := And(seen, VALUES_MASK);
    Swap(now, expected, And(Or(PlusOne(expected), REUSE), REUSE_MASK))
  }

  function NewMarkFloating(now: Word): Word {
    And(now, VALUES_MASK)
  }

  function TryMarkFloating(now: Word, seen: Word): WordCas {
    Swap(now, seen, And(seen, VALUES_MASK))
  }

  function IsReusable(w: Word): bool {
    And(w, REUSE) != LowBits(0)
  }

  function IsHot(w: Word): bool {
    And(w, HOT) != LowBits(0)
  }

  function IsFull(w: Word): bool {
    And(w, FULL) != LowBits(0)
  }

  // ----- the number a bit sequence stands for -----

  function Val(b: seq<bool>): nat {
    if b == [] then 0 else (if b[0] then 1 else 0) + 2 * Val(b[1..])
  }

  function Pow2(n: nat): nat {
    if n == 0 then 1 else 2 * Pow2(n - 1)
  }

  lemma {:induction false} ValInjective(a: seq<bool>, b: seq<bool>)
    requires |a| == |b| && Val(a) == Val(b)
    ensures a == b
  {
    if a != [] {
      ValInjective(a[1..], b[1..]);
      assert a == [a[0]] + a[1..] && b == [b[0]] + b[1..];
    }
  }

  lemma {:induction false} PlusOneVal(b: seq<bool>)
    ensures Val(b) < Pow2(|b|)
    ensures Val(PlusOne(b)) == if Val(b) + 1 == Pow2(|b|) then 0 else Val(b) + 1
  {
    if b != [] {
      PlusOneVal(b[1..]);
      assert ([false] + PlusOne(b[1..]))[1..] == PlusOne(b[1..]);
      assert ([true] + b[1..])[1..] == b[1..];
    }
  }

  /** The low bits of a sum depend on the low bits alone. */
  lemma {:induction false} PlusOneLow(b: seq<bool>, k: nat)
    requires k <= |b|
    ensures PlusOne(b)[..k] == PlusOne(b[..k])
  {
    if b != [] && k > 0 {
      PlusOneLow(b[1..], k - 1);
      assert b[..k][1..] == b[1..][..k - 1];
      assert ([false] + PlusOne(b[1..]))[..k] == [false] + PlusOne(b[1..])[..k - 1];
    }
  }

  lemma Wrap()
    ensures Pow2(VALUE_BITS) == WRAP
  {
    assert Pow2(7) == 128;
    assert Pow2(14) == 0x4000;
    assert Pow2(21) == 0x20_0000;
  }

  // ----- refinement -----

  ghost predicate Represents(w: Word, e: Epoch) {
    && |w| == 32
    && Val(w[..VALUE_BITS]) == e.count % WRAP
    && !w[28]
    && w[29] == e.mark.Reusable?
    && w[30] == e.mark.Full?
    && w[31] == e.mark.Hot?
  }

  /** Equal words are equal epochs when the counters are less than a wrap apart. */
  lemma RepresentsOnce(v: Word, w: Word, e: Epoch, f: Epoch)
    requires Represents(v, e) && Represents(w, f) && f.count <= e.count < f.count + WRAP
    ensures v == w <==> e == f
  {
    if e == f {
      ValInjective(v[..VALUE_BITS], w[..VALUE_BITS]);
      assert forall i :: 0 <= i < 28 ==> v[i] == v[..VALUE_BITS][i] && w[i] == w[..VALUE_BITS][i];
      assert v == w;
    }
  }

  /** Masking keeps the counter and drops the bits outside the mask. */
  lemma Masked(w: Word, e: Epoch)
    requires Represents(w, e)
    ensures Represents(And(w, REUSE_MASK), e.KeepReuse())
    ensures Represents(And(w, VALUES_MASK), e.OnlyValue())
  {
    assert And(w, REUSE_MASK)[..VALUE_BITS] == w[..VALUE_BITS];
    assert And(w, VALUES_MASK)[..VALUE_BITS] == w[..VALUE_BITS];
  }

  /** One mark: add one, set the mark's bit, drop the others; a carry out of bit 27 is dropped too. */
  lemma Marked(w: Word, e: Epoch, bit: nat, mark: Mark)
    requires Represents(w, e)
    requires (bit == 31 && mark.Hot?) || (bit == 30 && mark.Full?) || (bit == 29 && mark.Reusable?)
    ensures Represents(And(Or(PlusOne(w), Bit(bit)), Or(VALUES_MASK, Bit(bit))), Epoch(e.count + 1, mark))
  {
    var r := And(Or(PlusOne(w), Bit(bit)), Or(VALUES_MASK, Bit(bit)));
    assert r[..VALUE_BITS] == PlusOne(w)[..VALUE_BITS];
    LowPlusOne(w, e);
    hide Val, PlusOne;
  }

  lemma LowPlusOne(w: Word, e: Epoch)
    requires |w| == 32 && Val(w[..VALUE_BITS]) == e.count % WRAP
    ensures Val(PlusOne(w)[..VALUE_BITS]) == (e.count + 1) % WRAP
  {
    PlusOneLow(w, VALUE_BITS);
    PlusOneVal(w[..VALUE_BITS]);
    Wrap();
  }

  /** The words and the epochs agree on every mark: on whether it succeeds and on the result. */
  lemma MarksRefine(now: Word, seen: Word, n: Epoch, s: Epoch)
    requires Represents(now, n) && Represents(seen, s) && s.count <= n.count < s.count + WRAP
    ensures NewMarkHot(now, seen).ok == Epochs.NewMarkHot(n, s).ok
    ensures NewMarkFull(now, seen).ok == Epochs.NewMarkFull(n, s).ok
    ensures NewMarkReuse(now, seen).ok == Epochs.NewMarkReuse(n, s).ok
    ensures TryMarkFloating(now, seen).ok == Epochs.TryMarkFloating(n, s).ok
    ensures Represents(NewMarkHot(now, seen).word, Epochs.NewMarkHot(n, s).word)
    ensures Represents(NewMarkFull(now, seen).word, Epochs.NewMarkFull(n, s).word)
    ensures Represents(NewMarkReuse(now, seen).word, Epochs.NewMarkReuse(n, s).word)
    ensures Represents(TryMarkFloating(now, seen).word, Epochs.TryMarkFloating(n, s).word)
    ensures Represents(NewMarkFloating(now), n.OnlyValue())
  {
    hide Represents, And, Or, PlusOne, Bit, LowBits;
    var kept := And(seen, REUSE_MASK);
    var value := And(seen, VALUES_MASK);
    Masked(seen, s);
    Masked(now, n);
    RepresentsOnce(now, kept, n, s.KeepReuse());
    RepresentsOnce(now, value, n, s.OnlyValue());
    RepresentsOnce(now, seen, n, s);
    Marked(kept, s.KeepReuse(), 31, Hot);
    Marked(kept, s.KeepReuse(), 30, Full);
    Marked(value, s.OnlyValue(), 29, Reusable);
  }

  /** The three state tests read the mark. */
  lemma TestsRefine(w: Word, e: Epoch)
    requires Represents(w, e)
    ensures IsReusable(w) == e.IsReusable()
    ensures IsHot(w) == e.mark.Hot? && IsFull(w) == e.mark.Full?
  {
    var zero := LowBits(0);
    assert And(w, REUSE)[29] == w[29] && And(w, HOT)[31] == w[31] && And(w, FULL)[30] == w[30];
    assert !w[29] ==> And(w, REUSE) == zero;
    assert !w[30] ==> And(w, FULL) == zero;
    assert !w[31] ==> And(w, HOT) == zero;
  }

  /** The window is needed: exactly 2^28 marks later the same word stands for another epoch. */
  lemma WordsRecurAfterWrap(w: Word, e: Epoch)
    requires Represents(w, e)
    ensures Represents(w, Epoch(e.count + WRAP, e.mark))
  {
  }
}
