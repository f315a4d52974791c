/** The arena of virtual spans (src/arena.h:49-74, 83-112): a bump pointer that only ever moves up. */
module Arenas {
  import opened SizeClasses
  import opened Layout

  class Arena {
    const start: nat
    const end: nat
    var current: nat
    ghost var given: seq<(nat, nat)>      // address and length of what was handed out, oldest first

    ghost predicate Valid()
      reads this
    {
      && start <= current
      && (forall k :: 0 <= k < |given| ==> start <= given[k].0 && given[k].0 + given[k].1 <= current)
      && (forall j, k :: 0 <= j < k < |given| ==> given[j].0 + given[j].1 <= given[k].0)
    }

    /** mapped is the address mmap gave for size + alignment bytes, or the address that was asked for. */
    constructor (mapped: nat, size: nat, alignment: nat, needsAligning: bool)
      requires alignment > 0 && (!needsAligning ==> mapped % alignment == 0)
      ensures Valid() && given == [] && current == start && end == start + size
      ensures start % alignment == 0 && mapped <= start <= mapped + alignment
    {
      var s := mapped;
      if needsAligning {
        s := s + alignment - s % alignment;
        NextMultiple(mapped, alignment);
      }
      start := s;
      end := s + size;
      current := s;
      given := [];
    }

    /** The source stops the program when the arena is exhausted; here ok is false then. */
    method Allocate(size: nat) returns (obj: nat, ok: bool)
      requires Valid()
      modifies this
      ensures Valid() && obj == old(current) && current == old(current) + size
      ensures ok <==> obj + size < end
      ensures given == old(given) + [(obj, size)]
      ensures forall k :: 0 <= k < |old(given)| ==> old(given)[k].0 + old(given)[k].1 <= obj
    {
      obj := current;
      current := current + size;
      ok := !(obj + size >= end);
      given := given + [(obj, size)];
    }

    /** As long as the arena hands out nothing but virtual spans, they are aligned and the k-th one lies
        k span sizes above the start. */
    method AllocateVirtualSpan() returns (obj: nat, ok: bool)
      requires Valid() && start % VIRTUAL_SPAN_SIZE == 0
      requires current == start + |given| * VIRTUAL_SPAN_SIZE
      modifies this
      ensures Valid() && current == start + |given| * VIRTUAL_SPAN_SIZE
      ensures obj == start + |old(given)| * VIRTUAL_SPAN_SIZE && SpanBase(obj)
      ensures given == old(given) + [(obj, VIRTUAL_SPAN_SIZE)]
      ensures ok <==> obj + VIRTUAL_SPAN_SIZE < end
      ensures forall k :: 0 <= k < |old(given)| ==> old(given)[k].0 + old(given)[k].1 <= obj
    {
      obj := current;
      current := current + VIRTUAL_SPAN_SIZE;
      ok := !(obj + VIRTUAL_SPAN_SIZE >= end);
      given := given + [(obj, VIRTUAL_SPAN_SIZE)];
    }
  }
}
