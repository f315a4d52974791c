/** The global pool of full spans (src/span_pool.h:20-196): one row of stacks for all fine size classes
    and one for each coarse class, one stack for each backend in a row. */
module SpanPools {
  import opened FreeLists
  import opened SizeClasses

  const SIZE_CLASS_SLOTS: nat := COARSE_CLASSES + 1
  const HARD_LIMIT: nat := 16384

  /** Where a span is cached: row, backend, and height in the stack. */
  datatype Cell = Cell(slot: nat, backend: nat, height: nat)

  function SlotOf(sizeClass: nat): (slot: nat)
    requires sizeClass < NUM_CLASSES
    ensures slot < SIZE_CLASS_SLOTS
  {
    if sizeClass <= FINE_CLASSES then 0 else sizeClass - FINE_CLASSES
  }

  /** When a scan that starts at slot looks at row i. */
  function Turn(slot: nat, i: nat): (k: nat)
    requires slot < SIZE_CLASS_SLOTS && i < SIZE_CLASS_SLOTS
    ensures k < SIZE_CLASS_SLOTS
  {
    if i <= slot then slot - i else slot + SIZE_CLASS_SLOTS - i
  }

  /** A span freed for one class is cached in the row of the other: they are the same, or both fine. */
  predicate Shares(a: nat, b: nat) {
    a == b || (a <= FINE_CLASSES && b <= FINE_CLASSES)
  }

  /** The rows keep the classes apart that do not share, and in their order. */
  lemma RowsAreClasses(a: nat, b: nat)
    requires a < NUM_CLASSES && b < NUM_CLASSES
    ensures SlotOf(a) == SlotOf(b) <==> Shares(a, b)
    ensures a <= b ==> SlotOf(a) <= SlotOf(b)
  {
  }

  /** A request of class want takes a span that was freed for class x rather than one freed for y, or either: its own
      row first, then smaller classes before larger ones, and on both sides the largest first. */
  predicate Nearer(want: nat, x: nat, y: nat) {
    || Shares(want, x)
    || (!Shares(want, y) && if (x < want) == (y < want) then y <= x || Shares(x, y) else x < want)
  }

  lemma ScanIsNearest(want: nat, x: nat, y: nat)
    requires want < NUM_CLASSES && x < NUM_CLASSES && y < NUM_CLASSES
    ensures Turn(SlotOf(want), SlotOf(x)) <= Turn(SlotOf(want), SlotOf(y)) <==> Nearer(want, x, y)
  {
    RowsAreClasses(want, x);
    RowsAreClasses(x, want);
    RowsAreClasses(want, y);
    RowsAreClasses(y, want);
    RowsAreClasses(x, y);
    RowsAreClasses(y, x);
    hide SlotOf;
  }

  /** How many steps from start the scan of a row needs to backend b. */
  function Distance(start: nat, b: nat, limit: nat): nat
    requires start < limit
  {
    if start <= b then b - start else b + limit - start
  }

  /** The scan of a row visits every backend below the limit once: its j-th step looks at the one at
      distance j. */
  lemma RowVisits(start: nat, limit: nat, j: nat, b: nat)
    requires start < limit && j < limit && b < limit
    ensures (start + j) % limit == b <==> Distance(start, b, limit) == j
    ensures Distance(start, b, limit) < limit
  {
    if start + j < limit {
      assert (start + j) % limit == start + j;
    } else {
      assert (start + j) % limit == start + j - limit;
    }
  }

  /** Every cached span is in the row of the class it was freed for. */
  ghost predicate InRows(at: map<nat, Cell>, freedFor: map<nat, nat>) {
    && freedFor.Keys == at.Keys
    && (forall s :: s in at ==> freedFor[s] < NUM_CLASSES && at[s].slot == SlotOf(freedFor[s]))
  }

  lemma RowsUpdate(at: map<nat, Cell>, freedFor: map<nat, nat>, s: nat, cell: Cell, sizeClass: nat)
    requires InRows(at, freedFor)
    ensures InRows(at - {s}, freedFor - {s})
    ensures sizeClass < NUM_CLASSES && cell.slot == SlotOf(sizeClass) ==> InRows(at[s := cell], freedFor[s := sizeClass])
  {
    hide SlotOf;
  }

  class SpanPool {
    const cpus: nat
    var currentThreads: int
    var limit: nat
    const spans: array2<seq<nat>>           // stacks, the top last
    ghost var at: map<nat, Cell>            // where each cached span is
    ghost var freedFor: map<nat, nat>       // the size class it was freed for
    ghost var peak: nat                     // the most threads there ever were

    ghost predicate Stacks()
      reads this, spans
    {
      && spans.Length0 == SIZE_CLASS_SLOTS && spans.Length1 == cpus
      && (forall s :: s in at ==> Inside(at[s]) && spans[at[s].slot, at[s].backend][at[s].height] == s)
      && (forall c: Cell :: Inside(c) ==>
            var s := spans[c.slot, c.backend][c.height]; s in at && at[s] == c)
    }

    ghost predicate Inside(c: Cell)
      reads this, spans
    {
      c.slot < spans.Length0 && c.backend < spans.Length1 && c.height < |spans[c.slot, c.backend]|
    }

    ghost predicate Limits()
      reads this, spans
    {
      && cpus > 0
      && currentThreads <= peak
      && limit == Min(peak, Min(cpus, HARD_LIMIT))
      && (forall s :: s in at ==> at[s].backend < limit)
    }

    ghost predicate Valid()
      reads this, spans
    {
      Stacks() && Limits() && InRows(at, freedFor)
    }

    /** While a thread is announced, the modulus of the backends is not zero. */
    lemma ThreadsHaveBackends()
      requires Valid() && currentThreads > 0
      ensures limit > 0 && freedFor.Keys == at.Keys
    {
    }

    /** Init: cpus is what CpusOnline says. */
    constructor (cpus: nat)
      requires cpus > 0
      ensures Valid() && at == map[] && freedFor == map[] && limit == 0 && currentThreads == 0 && this.cpus == cpus
      ensures fresh(spans)
    {
      this.cpus := cpus;
      currentThreads := 0;
      limit := 0;
      at := map[];
      freedFor := map[];
      peak := 0;
      spans := new seq<nat>[SIZE_CLASS_SLOTS, cpus]((i, j) => []);
    }

    /** The limit follows the largest number of threads there ever was, up to both bounds; it never sinks. */
    method AnnounceNewThread()
      requires Valid()
      modifies this`currentThreads, this`limit, this`peak
      ensures Valid() && currentThreads == old(currentThreads) + 1 && limit >= old(limit)
      ensures currentThreads > 0 ==> limit > 0
    {
      var newLimit := currentThreads + 1;
      currentThreads := newLimit;
      if newLimit > peak { peak := newLimit; }
      if newLimit > cpus || newLimit > HARD_LIMIT { return; }
      var oldLimit := limit;
      if newLimit <= oldLimit { return; }
      limit := oldLimit + 1;
    }

    method AnnounceLeavingThread()
      requires Valid()
      modifies this`currentThreads
      ensures Valid() && currentThreads == old(currentThreads) - 1
    {
      currentThreads := currentThreads - 1;
    }

    method Push(i: nat, j: nat, p: nat, ghost sizeClass: nat)
      requires Valid() && sizeClass < NUM_CLASSES && i == SlotOf(sizeClass) && j < limit && p !in at
      modifies this`at, this`freedFor, spans
      ensures Valid() && freedFor == old(freedFor)[p := sizeClass]
      ensures at == old(at)[p := Cell(i, j, old(|spans[i, j]|))]
    {
      hide InRows;
      RowsUpdate(at, freedFor, p, Cell(i, j, |spans[i, j]|), sizeClass);
      at := at[p := Cell(i, j, |spans[i, j]|)];
      freedFor := freedFor[p := sizeClass];
      spans[i, j] := spans[i, j] + [p];
    }

    method Pop(i: nat, j: nat) returns (s: Option<nat>)
      requires Valid() && i < SIZE_CLASS_SLOTS && j < limit
      modifies this`at, this`freedFor, spans
      ensures Valid() && freedFor == (if s.Some? then old(freedFor) - {s.value} else old(freedFor))
      ensures s.None? ==> at == old(at) && forall x :: x in at ==> at[x].slot != i || at[x].backend != j
      ensures s.Some? ==> s.value in old(at) && at == old(at) - {s.value}
      ensures s.Some? ==> old(at)[s.value].slot == i && old(at)[s.value].backend == j
    {
      hide InRows;
      var n := |spans[i, j]|;
      if n == 0 { return None; }
      var top := spans[i, j][n - 1];
      assert Inside(Cell(i, j, n - 1));
      RowsUpdate(at, freedFor, top, at[top], 0);
      at := at - {top};
      freedFor := freedFor - {top};
      spans[i, j] := spans[i, j][..n - 1];
      return Some(top);
    }

    method Free(sizeClass: nat, p: nat, id: nat)
      requires Valid() && limit > 0 && sizeClass < NUM_CLASSES && p !in at
      modifies this`at, this`freedFor, spans
      ensures Valid() && freedFor == old(freedFor)[p := sizeClass]
      ensures at.Keys == old(at.Keys) + {p} && at[p].backend == id % limit
      ensures forall s :: s in old(at) ==> at[s] == old(at)[s]
    {
      Push(SlotOf(sizeClass), id % limit, p, sizeClass);
    }

    /** No span is cached in row i. */
    ghost predicate Empty(i: nat)
      reads this
    {
      forall s :: s in at ==> at[s].slot != i
    }

    /** Cached where a request of this class by this thread looks first. */
    ghost predicate Own(x: nat, sizeClass: nat, id: nat)
      requires limit > 0 && x in at && x in freedFor
      reads this`limit, this`at, this`freedFor
    {
      at[x].backend == id % limit && Shares(sizeClass, freedFor[x])
    }

    /** Span s is cached there, if any span is. */
    ghost predicate OwnFirst(s: nat, sizeClass: nat, id: nat)
      requires limit > 0
      reads this`limit, this`at, this`freedFor
    {
      && s in at && s in freedFor
      && ((exists x :: x in at && x in freedFor && Own(x, sizeClass, id)) ==> Own(s, sizeClass, id))
    }

    /** The own backend first, then all rows and all backends below the limit, from any random start.
        None, which makes the source ask the arena, means that no span at all is cached. A span freed for this class,
        or for another fine class if it is fine, is preferred to every other one. */
    method Allocate(sizeClass: nat, id: nat) returns (s: Option<nat>)
      requires Valid() && limit > 0 && sizeClass < NUM_CLASSES
      modifies this`at, this`freedFor, spans
      ensures Valid()
      ensures s.None? <==> old(at) == map[]
      ensures s.None? ==> at == map[] && freedFor == map[]
      ensures s.Some? ==> s.value in old(at) && at == old(at) - {s.value} && freedFor == old(freedFor) - {s.value}
      ensures s.Some? ==> old(OwnFirst(s.value, sizeClass, id))
      ensures s.Some? ==> forall x :: x in old(at) ==> Nearer(sizeClass, old(freedFor)[s.value], old(freedFor)[x])
    {
      var slot := SlotOf(sizeClass);
      OwnIsRow(sizeClass, id);
      hide InRows, Shares, Nearer, SlotOf;
      s := Pop(slot, id % limit);
      var k := 0;
      while s.None? && k < SIZE_CLASS_SLOTS
        invariant Valid() && k <= SIZE_CLASS_SLOTS
        invariant s.None? ==> at == old(at) && freedFor == old(freedFor)
        invariant s.None? ==> forall x :: x in at ==> Turn(slot, at[x].slot) >= k
        invariant s.Some? ==> s.value in old(at) && at == old(at) - {s.value} && freedFor == old(freedFor) - {s.value}
        invariant s.Some? ==> forall x :: x in old(at) ==> Turn(slot, old(at)[s.value].slot) <= Turn(slot, old(at)[x].slot)
        invariant s.Some? && !old(Own(s.value, sizeClass, id)) ==> forall x :: x in old(at) ==> !old(Own(x, sizeClass, id))
        invariant s.None? ==> forall x :: x in old(at) ==> !old(Own(x, sizeClass, id))
        decreases SIZE_CLASS_SLOTS - k
      {
        var i := slot - k;
        if i < 0 { i := i + SIZE_CLASS_SLOTS; }
        s := ScanRow(i);
        k := k + 1;
      }
      if s.Some? {
        forall x | x in old(at) ensures Nearer(sizeClass, old(freedFor)[s.value], old(freedFor)[x]) {
          ScanIsNearest(sizeClass, old(freedFor)[s.value], old(freedFor)[x]);
        }
      }
    }

    lemma OwnIsRow(sizeClass: nat, id: nat)
      requires Valid() && limit > 0 && sizeClass < NUM_CLASSES
      ensures forall x :: x in at ==>
                (Own(x, sizeClass, id) <==> at[x].slot == SlotOf(sizeClass) && at[x].backend == id % limit)
    {
      forall x | x in at ensures Own(x, sizeClass, id) <==> at[x].slot == SlotOf(sizeClass) && at[x].backend == id % limit {
        RowsAreClasses(sizeClass, freedFor[x]);
      }
    }

    /** The inner loop. */
    method ScanRow(i: nat) returns (s: Option<nat>)
      requires Valid() && limit > 0 && i < SIZE_CLASS_SLOTS
      modifies this`at, this`freedFor, spans
      ensures Valid() && freedFor == (if s.Some? then old(freedFor) - {s.value} else old(freedFor))
      ensures s.None? <==> old(Empty(i))
      ensures s.None? ==> at == old(at)
      ensures s.Some? ==> s.value in old(at) && at == old(at) - {s.value} && old(at)[s.value].slot == i
    {
      var random: nat := *;
      var start := random % limit;
      s := None;
      var j := 0;
      while j < limit && s.None?
        invariant Valid() && j <= limit && freedFor == (if s.Some? then old(freedFor) - {s.value} else old(freedFor))
        invariant s.None? ==> at == old(at)
        invariant s.None? ==> forall x :: x in at && at[x].slot == i ==> Distance(start, at[x].backend, limit) >= j
        invariant s.Some? ==> s.value in old(at) && at == old(at) - {s.value} && old(at)[s.value].slot == i
        decreases limit - j
      {
        forall x | x in at ensures Distance(start, at[x].backend, limit) == j <==> at[x].backend == (start + j) % limit {
          RowVisits(start, limit, j, at[x].backend);
        }
        s := Pop(i, (start + j) % limit);
        j := j + 1;
      }
      forall x | x in at ensures Distance(start, at[x].backend, limit) < limit {
        RowVisits(start, limit, 0, at[x].backend);
      }
    }
  }

  // ----- a limit that grows during the scan -----

  /** One run of the inner loop, with limit() read anew in every test and in every modulus: first is what
      the choice of start saw, tests and moduli what the loop saw. */
  ghost predicate Scan(start: nat, first: nat, tests: seq<nat>, moduli: seq<nat>) {
    && start < first && |tests| == |moduli| + 1 && first <= tests[0]
    && (forall j :: 0 <= j < |moduli| ==> j < tests[j] <= moduli[j] <= tests[j + 1])
    && tests[|moduli|] <= |moduli|
  }

  lemma {:induction false} ModuliGrow(start: nat, first: nat, tests: seq<nat>, moduli: seq<nat>, j: nat)
    requires Scan(start, first, tests, moduli) && j < |moduli|
    ensures first <= tests[j] <= moduli[j] <= tests[|moduli|]
  {
    if j > 0 { ModuliGrowFrom(start, first, tests, moduli, 0, j); }
    ModuliGrowFrom(start, first, tests, moduli, j, |moduli|);
  }

  lemma {:induction false} ModuliGrowFrom(start: nat, first: nat, tests: seq<nat>, moduli: seq<nat>, i: nat, j: nat)
    requires Scan(start, first, tests, moduli) && i < j <= |moduli|
    ensures moduli[i] <= tests[j]
  {
    if i < j - 1 { ModuliGrowFrom(start, first, tests, moduli, i, j - 1); }
  }

  /** start + j - moduli[j] grows by at most one a step, so it does not miss b. */
  lemma {:induction false} WrapsAt(start: nat, moduli: seq<nat>, b: nat, k: nat) returns (j: nat)
    requires k < |moduli| && start < moduli[0] && forall i :: 0 <= i < |moduli| - 1 ==> moduli[i] <= moduli[i + 1]
    requires start + k >= moduli[k] + b
    ensures j <= k && start + j == moduli[j] + b
  {
    if start + k == moduli[k] + b {
      j := k;
    } else {
      assert k > 0;
      assert moduli[k - 1] <= moduli[k];
      j := WrapsAt(start, moduli, b, k - 1);
    }
  }

  /** The step at which the scan comes to b, before its index wraps or after. */
  lemma ScanMeets(start: nat, first: nat, tests: seq<nat>, moduli: seq<nat>, b: nat) returns (j: nat)
    requires Scan(start, first, tests, moduli) && b < first
    ensures j < |moduli| && b < moduli[j] && (start + j == b || start + j == moduli[j] + b)
  {
    var n := |moduli|;
    if b >= start {
      j := b - start;
      if j >= n {
        if n > 0 { ModuliGrow(start, first, tests, moduli, n - 1); }
        assert false;
      }
    } else {
      ModuliGrow(start, first, tests, moduli, 0);
      ModuliGrow(start, first, tests, moduli, n - 1);
      j := WrapsAt(start, moduli, b, n - 1);
    }
    ModuliGrow(start, first, tests, moduli, j);
  }

  lemma WrapOnce(x: nat, m: nat, b: nat)
    requires b < m && (x == b || x == m + b)
    ensures x % m == b
  {
  }

  /** Wherever the scan starts and however the limit grows meanwhile, it visits every backend that was below
      the limit when it began. */
  lemma GrowingRowVisits(start: nat, first: nat, tests: seq<nat>, moduli: seq<nat>, b: nat)
    requires Scan(start, first, tests, moduli) && b < first
    ensures exists j :: 0 <= j < |moduli| && moduli[j] > 0 && (start + j) % moduli[j] == b
  {
    var j := ScanMeets(start, first, tests, moduli, b);
    WrapOnce(start + j, moduli[j], b);
  }

  function Min(a: int, b: int): int {
    if a < b then a else b
  }
}
