/** The epoch word of a span (src/span.h:34-48, 79-95, 217-251), with the counter unbounded.
    At most one of the three state bits is ever set, so a word is a counter and a mark.
    EpochWord shows that the 32-bit words implement these functions. */
module Epochs {

  datatype Mark = Floating | Reusable | Hot | Full

  datatype Epoch = Epoch(count: nat, mark: Mark) {

    predicate Exclusive() {
      mark.Hot? || mark.Full?
    }

    predicate IsReusable() {
      mark.Reusable?
    }

    /** kEpochOnlyValuesMask: no state bit survives. */
    function OnlyValue(): Epoch {
      Epoch(count, Floating)
    }

    /** kEpochReuseMask: the reuse bit survives, hot and full do not. */
    function KeepReuse(): Epoch {
      if mark.Reusable? then this else OnlyValue()
    }

    /** Every change of the word raises this number. */
    function Rank(): nat {
      2 * count + if mark.Floating? then 1 else 0
    }
  }

  /** The word after a compare-and-swap, and whether it took place. */
  datatype Cas = Cas(word: Epoch, ok: bool)

  function Swap(now: Epoch, expected: Epoch, desired: Epoch): Cas {
    if now == expected then Cas(desired, true) else Cas(now, false)
  }

  function NewMarkHot(now: Epoch, seen: Epoch): Cas {
    Swap(now, seen.KeepReuse(), Epoch(seen.count + 1, Hot))
  }

  function NewMarkFull(now: Epoch, seen: Epoch): Cas {
    Swap(now, seen.KeepReuse(), Epoch(seen.count + 1, Full))
  }

  function NewMarkReuse(now: Epoch, seen: Epoch): Cas {
    Swap(now, seen.OnlyValue(), Epoch(seen.count + 1, Reusable))
  }

  function TryMarkFloating(now: Epoch, seen: Epoch): Cas {
    Swap(now, seen, seen.OnlyValue())
  }

  /** The three counting marks never succeed on an exclusive word, whatever epoch they are given,
      and a success raises the rank. NewMarkReuse succeeds only on the word it was given or on that
      word's own step to floating. */
  lemma MarksNeedSharedWord(now: Epoch, seen: Epoch)
    ensures now.Exclusive() ==>
              !NewMarkHot(now, seen).ok && !NewMarkFull(now, seen).ok && !NewMarkReuse(now, seen).ok
    ensures NewMarkHot(now, seen).ok ==> NewMarkHot(now, seen).word.Rank() > now.Rank()
    ensures NewMarkFull(now, seen).ok ==> NewMarkFull(now, seen).word.Rank() > now.Rank()
    ensures NewMarkReuse(now, seen).ok ==> NewMarkReuse(now, seen).word.Rank() > now.Rank()
    ensures NewMarkReuse(now, seen).ok <==> now == seen.OnlyValue()
    ensures TryMarkFloating(now, seen).word != now ==> TryMarkFloating(now, seen).word.Rank() > now.Rank()
    ensures now.OnlyValue() != now ==> now.OnlyValue().Rank() > now.Rank()
  {
  }
}
