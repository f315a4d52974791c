/** Where the blocks of a span lie (src/span.h:136-139, 160-172, 206-208, src/arena.h:49-112,
    src/glue.h:102-133). A span header is SPAN_HEADER_SIZE bytes. */
module Layout {
  import opened SizeClasses

  /** A virtual span starts at a multiple of its size. */
  predicate SpanBase(base: nat) {
    base % VIRTUAL_SPAN_SIZE == 0
  }

  function HeaderEnd(base: nat): nat {
    base + SPAN_HEADER_SIZE
  }

  function Offset(i: nat, size: nat): nat {
    i * size
  }

  function BlockStart(base: nat, sc: nat, i: nat): nat
    requires sc < NUM_CLASSES
  {
    HeaderEnd(base) + Offset(i, ClassToSize(sc))
  }

  /** p & kVirtualSpanMask; MaskIsModulo shows that the mask clears the remainder. */
  function FromObject(p: nat): nat {
    p - p % VIRTUAL_SPAN_SIZE
  }

  lemma MaskIsModulo(p: bv64)
    ensures p & !(0x20_0000 - 1) == p - p % 0x20_0000
  {
  }

  lemma MulMonotone(a: nat, b: nat, k: nat)
    requires a <= b
    ensures a * k <= b * k
  {
  }

  lemma {:induction false} ModMultiple(i: nat, m: nat, off: nat)
    requires off < m
    ensures (i * m + off) % m == off
  {
    if i > 0 {
      ModMultiple(i - 1, m, off);
      assert i * m + off == ((i - 1) * m + off) + m;
      ModPlus((i - 1) * m + off, m);
    }
  }

  lemma ModPlus(a: nat, m: nat)
    requires m > 0
    ensures (a + m) % m == a % m
  {
    var q, r := a / m, a % m;
    assert a + m == (q + 1) * m + r;
    assert (a + m) / m == q + 1 by {
      if (a + m) / m > q + 1 {
        MulMonotone(q + 2, (a + m) / m, m);
      } else if (a + m) / m < q + 1 {
        MulMonotone((a + m) / m + 1, q + 1, m);
      }
    }
  }

  lemma OffsetStep(i: nat, size: nat)
    ensures Offset(i, size) == if i == 0 then 0 else Offset(i - 1, size) + size
  {
    assert i > 0 ==> i * size == (i - 1) * size + size;
  }

  lemma {:induction false} OffsetAligned(i: nat, size: nat)
    requires size % MIN_ALIGNMENT == 0
    ensures Offset(i, size) % MIN_ALIGNMENT == 0
  {
    hide Offset;
    OffsetStep(i, size);
    if i > 0 {
      OffsetAligned(i - 1, size);
    }
  }

  lemma OffsetFits(i: nat, n: nat, size: nat)
    requires i < n
    ensures Offset(i, size) + size <= Offset(n, size)
  {
    MulMonotone(i + 1, n, size);
    assert (i + 1) * size == i * size + size;
  }

  lemma StartAligned(base: nat, sc: nat, i: nat)
    requires SpanBase(base) && 0 < sc < NUM_CLASSES
    ensures BlockStart(base, sc, i) % MIN_ALIGNMENT == 0
  {
    hide ClassToSize, Offset;
    TableSound(sc);
    OffsetAligned(i, ClassToSize(sc));
  }

  /** The last block ends inside the span. */
  lemma BlocksFit(sc: nat)
    requires 0 < sc < NUM_CLASSES
    ensures SPAN_HEADER_SIZE + Offset(ClassToObjects(sc), ClassToSize(sc)) <= ClassToSpanSize(sc) <= VIRTUAL_SPAN_SIZE
    ensures ClassToSize(sc) > 0
  {
    hide ClassToSize, ClassToObjects, ClassToSpanSize;
    TableSound(sc);
  }

  lemma SpanFound(base: nat, p: nat)
    requires SpanBase(base) && base <= p < base + VIRTUAL_SPAN_SIZE
    ensures FromObject(p) == base
  {
  }

  /** Every block lies after the header and inside the span; any address in it leads back to the span. */
  lemma BlockInSpan(base: nat, sc: nat, i: nat, p: nat)
    requires SpanBase(base) && 0 < sc < NUM_CLASSES && i < ClassToObjects(sc)
    requires BlockStart(base, sc, i) <= p < BlockStart(base, sc, i) + ClassToSize(sc)
    ensures HeaderEnd(base) <= p < base + ClassToSpanSize(sc)
    ensures FromObject(p) == base
    ensures BlockStart(base, sc, i) % MIN_ALIGNMENT == 0
  {
    hide ClassToSize, ClassToObjects, ClassToSpanSize, FromObject, SpanBase, Offset;
    BlocksFit(sc);
    OffsetFits(i, ClassToObjects(sc), ClassToSize(sc));
    StartAligned(base, sc, i);
    SpanFound(base, p);
  }

  lemma SpansApart(base: nat, base': nat)
    requires SpanBase(base) && SpanBase(base') && base != base'
    ensures base + VIRTUAL_SPAN_SIZE <= base' || base' + VIRTUAL_SPAN_SIZE <= base
  {
  }

  /** Blocks of different spans or with different numbers do not overlap. */
  lemma BlocksDisjoint(base: nat, sc: nat, i: nat, base': nat, sc': nat, i': nat)
    requires SpanBase(base) && 0 < sc < NUM_CLASSES && i < ClassToObjects(sc)
    requires SpanBase(base') && 0 < sc' < NUM_CLASSES && i' < ClassToObjects(sc')
    requires base != base' || (sc == sc' && i != i')
    ensures BlockStart(base, sc, i) + ClassToSize(sc) <= BlockStart(base', sc', i')
            || BlockStart(base', sc', i') + ClassToSize(sc') <= BlockStart(base, sc, i)
  {
    hide ClassToSize, ClassToObjects, ClassToSpanSize, SpanBase, Offset;
    if base != base' {
      BlocksFit(sc);
      BlocksFit(sc');
      OffsetFits(i, ClassToObjects(sc), ClassToSize(sc));
      OffsetFits(i', ClassToObjects(sc'), ClassToSize(sc'));
      SpansApart(base, base');
    } else if i < i' {
      OffsetFits(i, i', ClassToSize(sc));
    } else {
      OffsetFits(i', i, ClassToSize(sc));
    }
  }

  // ----- posix_memalign -----

  /** The pointer posix_memalign returns for a block it got at start. */
  function AlignedStart(start: nat, align: nat): nat
    requires align > 0
  {
    start + align - start % align
  }

  /** What free turns a tagged pointer into. */
  function AlignToBlockStart(p: nat, base: nat, sc: nat): int
    requires 0 < sc < NUM_CLASSES && p >= HeaderEnd(base)
  {
    TableSound(sc);
    p - (p - HeaderEnd(base)) % ClassToSize(sc)
  }

  /** The modulo step maps every address inside a block to its start, in particular a block start that
      only looks tagged. */
  lemma StartRecovered(base: nat, sc: nat, i: nat, off: nat)
    requires 0 < sc < NUM_CLASSES && off < ClassToSize(sc)
    ensures AlignToBlockStart(BlockStart(base, sc, i) + off, base, sc) == BlockStart(base, sc, i)
  {
    ModMultiple(i, ClassToSize(sc), off);
  }

  /** For a request whose padded size stays within a class, the pointer is aligned, the payload ends
      inside the block and free finds the block start. The source asks for a power of two; any positive
      alignment will do here. */
  lemma AlignedPayload(base: nat, i: nat, align: nat, size: nat)
    requires SpanBase(base) && align > 0 && size > 0 && align + size <= MAX_MEDIUM_SIZE
    requires 0 < SizeToClass(align + size) < NUM_CLASSES && i < ClassToObjects(SizeToClass(align + size))
    ensures var sc := SizeToClass(align + size);
      var start := BlockStart(base, sc, i);
      var p := AlignedStart(start, align);
      && p % align == 0
      && start < p && p + size <= start + ClassToSize(sc)
      && FromObject(p) == base
      && AlignToBlockStart(p, base, sc) == start
  {
    var sc := SizeToClass(align + size);
    var start := BlockStart(base, sc, i);
    hide SizeToClass, ClassToSize, ClassToObjects, ClassToSpanSize, FromObject, AlignToBlockStart, BlockStart;
    SmallestFit(align + size, sc);
    StartRecovered(base, sc, i, align - start % align);
    BlockInSpan(base, sc, i, AlignedStart(start, align));
    NextMultiple(start, align);
  }

  lemma NextMultiple(start: nat, align: nat)
    requires align > 0
    ensures AlignedStart(start, align) % align == 0
  {
    ModMultiple(start / align + 1, align, 0);
    assert (start / align + 1) * align == start - start % align + align;
  }

  /** posix_memalign writes a four-byte tag right below the pointer it returns. For a power of two the
      tag stays inside the block exactly if the alignment is at least four; for one and two it lands
      before the block. */
  lemma TagInsideBlock(base: nat, sc: nat, i: nat, k: nat)
    requires SpanBase(base) && 0 < sc < NUM_CLASSES && i < ClassToObjects(sc)
    ensures var start := BlockStart(base, sc, i);
      AlignedStart(start, Pow2(k)) - 4 >= start <==> Pow2(k) >= 4
  {
    StartAligned(base, sc, i);
    hide BlockStart, Pow2;
    TagRoom(BlockStart(base, sc, i), k);
  }

  lemma TagRoom(start: nat, k: nat)
    requires start % 16 == 0
    ensures AlignedStart(start, Pow2(k)) - 4 >= start <==> Pow2(k) >= 4
  {
    if k >= 4 {
      hide Pow2, AlignedStart;
      SixteenMore(k - 4);
      LargeRoom(start, Pow2(k - 4));
    } else {
      SmallPowers();
      hide Pow2, AlignedStart;
      SmallRoom(start, Pow2(k));
    }
  }

  lemma LargeRoom(start: nat, m: nat)
    requires start % 16 == 0 && m > 0
    ensures AlignedStart(start, 16 * m) - 4 >= start
  {
    RemainderOfSixteens(start, m);
  }

  lemma SmallRoom(start: nat, a: nat)
    requires start % 16 == 0 && (a == 1 || a == 2 || a == 4 || a == 8)
    ensures AlignedStart(start, a) - 4 >= start <==> a >= 4
  {
    SmallDivides(start, a);
  }

  lemma SmallDivides(start: nat, a: nat)
    requires start % 16 == 0 && (a == 1 || a == 2 || a == 4 || a == 8)
    ensures start % a == 0
  {
    var k := start / 16;
    if a == 8 {
      assert start == 8 * (2 * k);
    } else if a == 4 {
      assert start == 4 * (4 * k);
    } else if a == 2 {
      assert start == 2 * (8 * k);
    }
  }

  lemma RemainderOfSixteens(start: nat, m: nat)
    requires start % 16 == 0 && m > 0
    ensures (start % (16 * m)) % 16 == 0
  {
    var q := start / (16 * m);
    var k := start / 16;
    assert start % (16 * m) == start - q * (16 * m);
    Factor(q, m);
    Sixteens(start % (16 * m), k - q * m);
  }

  lemma Factor(q: nat, m: nat)
    ensures q * (16 * m) == 16 * (q * m)
  {
  }

  lemma Sixteens(r: nat, k: int)
    requires r == 16 * k
    ensures r % 16 == 0
  {
  }

  lemma SixteenMore(r: nat)
    ensures Pow2(r + 4) == 16 * Pow2(r)
  {
    assert Pow2(r + 2) == 4 * Pow2(r);
    assert Pow2(r + 4) == 4 * Pow2(r + 2);
  }
}
