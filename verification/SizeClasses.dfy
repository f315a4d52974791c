/** Size classes (src/size_classes.h:27-47, src/size_classes_raw.h:15-46, src/globals.h:25-36) and the
    table-driven logarithm they rest on (src/utils.h:64-81). */
module SizeClasses {

  const MIN_ALIGNMENT: nat := 16
  const MAX_SMALL_SHIFT: nat := 8
  const MAX_SMALL_SIZE: nat := 256
  const MAX_MEDIUM_SIZE: nat := 0x10_0000
  const FINE_CLASSES: nat := MAX_SMALL_SIZE / MIN_ALIGNMENT + 1
  const COARSE_CLASSES: nat := 12
  const NUM_CLASSES: nat := FINE_CLASSES + COARSE_CLASSES
  const PAGE_SIZE: nat := 4096
  const SPAN_HEADER_SIZE: nat := 128
  const VIRTUAL_SPAN_SIZE: nat := 0x20_0000
  const REUSE_THRESHOLD: nat := 80

  function ClassToSize(sc: nat): nat
    requires sc < NUM_CLASSES
  {
    if sc < FINE_CLASSES then 16 * sc
    else [512, 1024, 2048, 4096, 8192, 16384, 32768, 65536, 131072, 262144, 524288, 1048576][sc - FINE_CLASSES]
  }

  function ClassToObjects(sc: nat): nat
    requires sc < NUM_CLASSES
  {
    if sc == 0 then 0
    else if sc < FINE_CLASSES then (32768 - SPAN_HEADER_SIZE) / ClassToSize(sc)
    else [64, 64, 64, 32, 32, 16, 16, 16, 8, 4, 2, 1][sc - FINE_CLASSES]
  }

  function ClassToSpanSize(sc: nat): nat
    requires sc < NUM_CLASSES
  {
    if sc == 0 then 0
    else if sc < FINE_CLASSES then 32768
    else ((ClassToObjects(sc) * ClassToSize(sc) + SPAN_HEADER_SIZE) / PAGE_SIZE + 1) * PAGE_SIZE
  }

  function ClassToReuseThreshold(sc: nat): nat
    requires sc < NUM_CLASSES
  {
    ClassToObjects(sc) * REUSE_THRESHOLD / 100
  }

  // ----- the logarithm -----

  /** log_table: sixteen entries spelled out, then runs of sixteen equal ones. */
  function LogTable(i: nat): int
    requires i < 256
  {
    if i < 16 then [-1, 0, 1, 1, 2, 2, 2, 2, 3, 3, 3, 3, 3, 3, 3, 3][i]
    else [4, 5, 5, 6, 6, 6, 6, 7, 7, 7, 7, 7, 7, 7, 7][i / 16 - 1]
  }

  function Log2(v: nat): int
    requires v < 0x1_0000_0000
  {
    var tt := v / 0x1_0000;
    if tt != 0 then
      var t := tt / 0x100;
      if t != 0 then 24 + LogTable(t) else 16 + LogTable(tt)
    else
      var t := v / 0x100;
      if t != 0 then 8 + LogTable(t) else LogTable(v)
  }

  function SizeToClass(size: nat): int {
    if size <= MAX_SMALL_SIZE then (size + MIN_ALIGNMENT - 1) / MIN_ALIGNMENT
    else if size <= MAX_MEDIUM_SIZE then Log2(size - 1) - MAX_SMALL_SHIFT + FINE_CLASSES
    else 0
  }

  function Pow2(n: nat): (r: nat)
    ensures r >= 1
  {
    if n == 0 then 1 else 2 * Pow2(n - 1)
  }

  /** The block size SizeToBlockSize computes; the source stops for larger requests. */
  function SizeToBlockSize(size: nat): nat
    requires size <= MAX_MEDIUM_SIZE
  {
    if size <= MAX_SMALL_SIZE then (size + MIN_ALIGNMENT - 1) / MIN_ALIGNMENT * MIN_ALIGNMENT
    else Log2Exact(size - 1); Pow2(Log2(size - 1) + 1)
  }

  ghost predicate IsLog(v: nat, r: int) {
    0 <= r && Pow2(r) <= v < 2 * Pow2(r)
  }

  lemma SmallPowers()
    ensures Pow2(0) == 1 && Pow2(1) == 2 && Pow2(2) == 4 && Pow2(3) == 8
    ensures Pow2(4) == 16 && Pow2(5) == 32 && Pow2(6) == 64 && Pow2(7) == 128
  {
  }

  lemma TableExact(i: nat)
    requires 0 < i < 256
    ensures IsLog(i, LogTable(i))
  {
    SmallPowers();
  }

  lemma EightMore(r: nat)
    ensures Pow2(r + 8) == 256 * Pow2(r)
  {
    assert Pow2(r + 2) == 4 * Pow2(r);
    assert Pow2(r + 4) == 4 * Pow2(r + 2);
    assert Pow2(r + 6) == 4 * Pow2(r + 4);
    assert Pow2(r + 8) == 4 * Pow2(r + 6);
  }

  lemma ShiftLog(v: nat, r: int)
    requires IsLog(v / 0x100, r)
    ensures IsLog(v, r + 8)
  {
    EightMore(r);
  }

  /** Log2 is exact for every 32-bit number but 0. */
  lemma Log2Exact(v: nat)
    requires 0 < v < 0x1_0000_0000
    ensures IsLog(v, Log2(v))
  {
    var v1 := v / 0x100;
    var v2 := v1 / 0x100;
    var v3 := v2 / 0x100;
    assert v2 == v / 0x1_0000 && v3 < 256;
    hide IsLog;
    if v3 != 0 {
      TableExact(v3);
      ShiftLog(v2, LogTable(v3));
      ShiftLog(v1, LogTable(v3) + 8);
      ShiftLog(v, LogTable(v3) + 16);
    } else if v2 != 0 {
      TableExact(v2);
      ShiftLog(v1, LogTable(v2));
      ShiftLog(v, LogTable(v2) + 8);
    } else if v1 != 0 {
      TableExact(v1);
      ShiftLog(v, LogTable(v1));
    } else {
      TableExact(v);
    }
  }

  // ----- classes -----

  lemma CoarsePowers(sc: nat)
    requires FINE_CLASSES <= sc < NUM_CLASSES
    ensures ClassToSize(sc) == Pow2(sc - FINE_CLASSES + 9)
  {
    EightMore(1);
    EightMore(2);
    EightMore(3);
    EightMore(4);
    EightMore(5);
    EightMore(6);
    EightMore(7);
    EightMore(8);
    EightMore(9);
    EightMore(10);
    EightMore(11);
    EightMore(12);
  }

  lemma {:induction false} PowGrows(a: nat, b: nat)
    requires a <= b
    ensures Pow2(a) <= Pow2(b)
  {
    if a < b {
      PowGrows(a, b - 1);
    }
  }

  /** Requests from one byte to 1 MiB get the smallest class that holds them. */
  lemma SmallestFit(size: nat, c: nat)
    requires 0 < size <= MAX_MEDIUM_SIZE && 0 < c < NUM_CLASSES
    ensures 0 < SizeToClass(size) < NUM_CLASSES
    ensures ClassToSize(c) >= size <==> c >= SizeToClass(size)
  {
    if size > MAX_SMALL_SIZE {
      MediumFit(size, c);
    } else if c >= FINE_CLASSES {
      CoarsePowers(c);
      SmallPowers();
      PowGrows(8, c - FINE_CLASSES + 9);
      EightMore(0);
    }
  }

  lemma FineSize(c: nat)
    requires c < NUM_CLASSES
    ensures c < FINE_CLASSES ==> ClassToSize(c) == 16 * c <= MAX_SMALL_SIZE
  {
  }

  lemma MediumFit(size: nat, c: nat)
    requires MAX_SMALL_SIZE < size <= MAX_MEDIUM_SIZE && 0 < c < NUM_CLASSES
    ensures FINE_CLASSES <= SizeToClass(size) < NUM_CLASSES
    ensures ClassToSize(c) >= size <==> c >= SizeToClass(size)
  {
    MediumClass(size);
    FineSize(c);
    hide Log2, ClassToSize, IsLog;
    if c >= FINE_CLASSES {
      CoarseFit(size, c, Log2(size - 1));
    }
  }

  lemma CoarseFit(size: nat, c: nat, r: nat)
    requires size > 0 && IsLog(size - 1, r) && FINE_CLASSES <= c < NUM_CLASSES
    ensures ClassToSize(c) >= size <==> c - FINE_CLASSES + 9 > r
  {
    CoarsePowers(c);
    hide ClassToSize;
    var e := c - FINE_CLASSES + 9;
    if e > r {
      PowGrows(r + 1, e);
    } else {
      PowGrows(e, r);
    }
  }

  lemma TwentyBits()
    ensures Pow2(8) == 256 && Pow2(20) == 0x10_0000
  {
    SmallPowers();
    hide Pow2;
    EightMore(0);
    EightMore(4);
    EightMore(12);
  }

  /** The logarithm of a number of nine to twenty bits. */
  lemma LogBetween(v: nat, r: int)
    requires 256 <= v < 0x10_0000 && IsLog(v, r)
    ensures 8 <= r < 20
  {
    TwentyBits();
    if r < 8 {
      PowGrows(r + 1, 8);
    }
    if r >= 20 {
      PowGrows(20, r);
    }
  }

  lemma MediumClass(size: nat)
    requires MAX_SMALL_SIZE < size <= MAX_MEDIUM_SIZE
    ensures IsLog(size - 1, Log2(size - 1)) && 8 <= Log2(size - 1) < 20
  {
    hide Log2, IsLog;
    Log2Exact(size - 1);
    LogBetween(size - 1, Log2(size - 1));
  }

  /** Class 0 is left for empty and for large requests. */
  lemma NoClass(size: nat)
    ensures SizeToClass(size) == 0 <==> size == 0 || size > MAX_MEDIUM_SIZE
  {
    if MAX_SMALL_SIZE < size <= MAX_MEDIUM_SIZE {
      MediumClass(size);
    }
  }

  /** The two size functions agree. */
  lemma BlockSizeIsClassSize(size: nat)
    requires 0 < size <= MAX_MEDIUM_SIZE
    ensures 0 < SizeToClass(size) < NUM_CLASSES && SizeToBlockSize(size) == ClassToSize(SizeToClass(size))
  {
    if size > MAX_SMALL_SIZE {
      MediumClass(size);
      CoarsePowers(SizeToClass(size));
    }
  }

  /** The rows of the table: blocks and header fit the span, the span fits its 2 MiB, the tag of the
      remote free list can count the blocks, and a span above the reuse threshold has a free block. */
  lemma TableSound(sc: nat)
    requires 0 < sc < NUM_CLASSES
    ensures 0 < ClassToObjects(sc) < 0x1_0000
    ensures ClassToSize(sc) >= MIN_ALIGNMENT && ClassToSize(sc) % MIN_ALIGNMENT == 0
    ensures SPAN_HEADER_SIZE + ClassToObjects(sc) * ClassToSize(sc) <= ClassToSpanSize(sc) <= VIRTUAL_SPAN_SIZE
    ensures ClassToReuseThreshold(sc) < ClassToObjects(sc)
  {
    if sc < FINE_CLASSES {
      FineRow(sc);
    } else {
      CoarseRow(sc);
    }
  }

  lemma FineRow(sc: nat)
    requires 0 < sc < FINE_CLASSES
    ensures 0 < ClassToObjects(sc) <= 2040
    ensures ClassToObjects(sc) * ClassToSize(sc) <= 32768 - SPAN_HEADER_SIZE
  {
  }

  lemma CoarseRow(sc: nat)
    requires FINE_CLASSES <= sc < NUM_CLASSES
    ensures 0 < ClassToObjects(sc) <= 64 && ClassToSize(sc) % MIN_ALIGNMENT == 0
    ensures ClassToObjects(sc) * ClassToSize(sc) <= 0x10_0000
  {
  }
}
