/** posix_memalign and the pointer correction in free (src/glue.h:102-133, src/core.h:171-175,
    src/span.h:160-172). Memory is seen in the four-byte words the tag is written in; free is taken to
    read the same width. */
module Memaligns {
  import opened Layout
  import opened SizeClasses

  const ALIGN_TAG: nat := 0xAAAA_AAAA

  type Words = map<nat, nat>

  predicate Tagged(words: Words, p: nat) {
    p >= 4 && p - 4 in words && words[p - 4] == ALIGN_TAG
  }

  /** The block that free gives back for pointer p into a span at base. */
  function Freed(words: Words, seen: bool, p: nat, base: nat, sc: nat): int
    requires 0 < sc < NUM_CLASSES && p >= HeaderEnd(base)
  {
    if seen && Tagged(words, p) then AlignToBlockStart(p, base, sc) else p
  }

  class Memalign {
    var seen: bool
    var words: Words

    constructor ()
      ensures !seen && words == map[]
    {
      seen, words := false, map[];
    }

    /** start is what malloc returned for align + size bytes, 0 if nothing. */
    method PosixMemalign(align: nat, size: nat, start: nat) returns (ok: bool, ptr: nat)
      requires align > 0 && (start == 0 || start >= 4)
      modifies this
      ensures seen
      ensures size == 0 ==> ok && ptr == 0 && words == old(words)
      ensures size > 0 && start == 0 ==> !ok && words == old(words)
      ensures size > 0 && start > 0 ==>
                ok && ptr == AlignedStart(start, align) && words == old(words)[ptr - 4 := ALIGN_TAG] && Tagged(words, ptr)
    {
      ok, ptr := true, 0;
      if !seen { seen := true; }
      if size == 0 { return; }
      if start == 0 { return false, 0; }
      var newStart := start + align - start % align;
      if newStart != start {
        words := words[newStart - 4 := ALIGN_TAG];
      }
      ptr := newStart;
    }

    method BlockOf(p: nat, base: nat, sc: nat) returns (q: int)
      requires 0 < sc < NUM_CLASSES && p >= HeaderEnd(base)
      ensures q == Freed(words, seen, p, base, sc)
    {
      q := p;
      if seen {
        if Tagged(words, p) {
          TableSound(sc);
          var d := (p - HeaderEnd(base)) % ClassToSize(sc);
          q := p - d;
        }
      }
    }
  }

  /** A pointer from malloc is freed as what it is, whatever lies before it in memory. A pointer from
      posix_memalign leads back to its block exactly as long as its tag is in place. */
  lemma FreeFindsBlock(words: Words, seen: bool, base: nat, i: nat, align: nat, size: nat)
    requires SpanBase(base) && align > 0 && size > 0 && align + size <= MAX_MEDIUM_SIZE
    requires 0 < SizeToClass(align + size) < NUM_CLASSES && i < ClassToObjects(SizeToClass(align + size))
    ensures var sc := SizeToClass(align + size);
      var start := BlockStart(base, sc, i);
      var p := AlignedStart(start, align);
      && Freed(words, seen, start, base, sc) == start
      && p >= HeaderEnd(base)
      && (Freed(words, seen, p, base, sc) == start <==> seen && Tagged(words, p))
  {
    var sc := SizeToClass(align + size);
    hide SizeToClass, ClassToObjects, Tagged;
    AlignedPayload(base, i, align, size);
    TableSound(sc);
    StartRecovered(base, sc, i, 0);
    hide AlignToBlockStart, AlignedStart, BlockStart, FromObject, SpanBase, ClassToSize, ClassToSpanSize;
    BlockBehindHeader(base, sc, i);
  }

  lemma BlockBehindHeader(base: nat, sc: nat, i: nat)
    requires sc < NUM_CLASSES
    ensures BlockStart(base, sc, i) >= HeaderEnd(base)
  {
  }
}
