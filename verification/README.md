# A model of the scalloc allocator

scalloc is a concurrent memory allocator written in C++. Its unit is the span: 2 MiB of aligned address
space cut into blocks of one size. A span moves between four states. It is hot while one core allocates
from it, floating when nobody does, reusable when it is linked in a deque of its owner, and full when it
waits in the global pool. Any thread may free a block of it at any time. What keeps this together is one
epoch word (three state bits and a counter), one owner word, a list of locally freed blocks and a tagged
stack of remotely freed ones.

This project states that design in Dafny and proves it, in three layers.

**Steps.** Here any number of threads take one atomic operation at a time, in any order, under sequential
consistency.

- `SpanProtocol` follows one span through `Core::Free`, `Core::Allocate`, `GetSpan`, `Core::Destroy`, the
  marks, the move of the remote list, the deques, the pool and its reconstruction. `SpanSafety` holds the
  invariant of blocks, epochs and owner, `SpanLinks` and `SpanMarks` that of the link word, `SpanHousing`
  that of locks, classes and ending threads, and `SpanTheorems` what follows for every run.
- `SpanRuns` has the pieces that runs are built from, `SpanCounterexample` and `SpanReach` build them, and
  `SpanAcquire` says exactly when acquiring a span is sound.
- `SpanWords` is the same protocol on 32-bit epoch words, and takes the same steps.
- `SpanSequential` says what a call does in these steps when nobody disturbs it, and that a free then does to
  the span what the layer of calls says.
- `TreiberStack` and `RemoteFreeList` are the two uses of the tagged stack, `DequeDrain` is the closing of
  a deque, `GuardedCore` the handshake of the round-robin mode, `PoolLimits` the growth of the pool's
  backend limit.

**Calls.** Here every malloc, free, thread start and thread exit runs to its end, for any number of cores,
spans and threads.

- `Heaps` gives the value of the whole allocator after each call, in functions that follow the branches of
  the source. `HeapInvariants` and `HeapThreads` prove what every call keeps. `HeapTheorems` states what
  holds after every sequence of calls, `HeapOutcomes` what a single call does to any reachable heap: when free
  recycles a span, and where malloc takes spans and blocks from.
- `HeapObjects` and `Allocators` are the same operations on objects that are updated in place. Each method
  is proved to compute the function of `Heaps` with its name, so the theorems hold for the objects.
  `HeapSteps` says what single updates do to the value.
- `SpanPools` is the pool with its scan, on arrays of stacks.

**Memory.** Here are the pointers, words and numbers underneath.

- `Deques` is the circular list through a sentinel. `IncrementalFreeLists` is the list threaded through the
  free blocks plus the bump pointer; it refines `FreeLists`. `Chains` and `Sequences` hold what both
  kinds of list share.
- `EpochWord` has the 32-bit epoch words bit by bit; it refines `Epochs`. `TaggedValues` packs a pointer
  and a tag into a word.
- `SizeClasses`, `Layout`, `Arenas` and `Memaligns` are the size classes, the addresses of blocks, the bump
  arena and the address arithmetic of `posix_memalign`.

Three facts shape the proofs.

- The constructor of a span never resets the epoch, and on a recycled span its own `NewMarkHot` fails
  (src/span.h:175-186, 217-222). The span is then used while it is still marked full. So "exclusive" means
  hot or full throughout.
- Moving to floating does not count (src/span.h:241-251). Twice the counter, plus one for floating, does
  grow with every change.
- `free_objects` in `Core::Free` adds two numbers read at different times (src/span.h:286, 291). The sum can
  be too large while another thread moves the remote list. `SafeReclamation` shows that it cannot be too
  large when the full mark succeeds.

Three promises turned out to need a condition.

- Whether the lists stay in order. The first word of a span links it into a deque of its owner or into the
  pool (src/span.h:109-111); at the bottom of a stack of the pool it is null. Between the reuse mark
  (src/core.h:210) and its PushFront (src/core.h:211) a thread can stall while the span is deleted. The
  PushFront then links a span that is in the pool: `PooledAndLinked` is such a run, in which every list
  finds the word null and no assertion of the source fails. A step keeps the lists in order if and only if
  the list that takes the span in finds its word null and the pool does not keep it (`StepLists`). Of what
  the code can test, a null word and an epoch not marked full are enough, and a null word is needed
  (`WordTests`). In between no test of the span's words is exact: `WordsDoNotTell` has two reachable states
  with the same words, in one of which PushFront does no harm. A test on the marks is enough too
  (`StandingMarksSuffice`), and more than is needed (`LatePush`). It has a second half, because
  `Core::Destroy` closes a deque before it drains it, and Remove then turns away a span that is still linked
  (src/deque.h:138): in `RefusedRemove` every PushFront is in time and the span goes to the pool linked.
- Whether one core at a time uses a span. If the core for which `NewMarkHot` succeeds in `GetSpan` owns the
  span, that is so in every continuation that meets the assertion of src/core.h:112 and keeps the lists in
  order (`AcquireSound`). Otherwise there always is such a continuation with two writers of the local free
  list, provided the word of the span is still null and no PushFront of it is under way
  (`AcquireSoundIff`). That assertion is compiled into debug builds only. Two runs end in a state in which
  another live thread owns the span: `StalePush`, where a late PushFront passes its test, and `StaleTake`,
  where everything is in time but a thread stalls between taking the span from its deque and loading its
  epoch (src/core.h:108-110). `TwoWriters` and `TwoUsers` continue both. In `WrongClass` the assertion holds
  and the core installs a span of another size class, which cannot be if all steps are in time
  (`AcquireFits`). These runs exist for every class in which the last free but one is the first to pass the
  reuse threshold; `DefaultClass` names one in the table, at the default threshold.
- `posix_memalign` puts its tag inside the block exactly for alignments of at least four
  (`TagInsideBlock`), and free finds the block exactly as long as the tag is in place (`FreeFindsBlock`).

`SpanTheorems` is about the runs that meet the assertion of src/core.h:112 and keep the lists in order.

## Model

| member | source | states |
|---|---|---|
| Epochs.MarksNeedSharedWord | src/span.h:217-251 | no counting mark succeeds on an exclusive word, whatever epoch it is given; every change raises the rank; NewMarkReuse succeeds only on the word seen or its own step to floating |
| EpochWord.MarksRefine | src/span.h:217-251 | with fewer than 2^28 marks between load and swap, the masked 32-bit operations succeed exactly when the abstract ones do and give the word of the same epoch |
| EpochWord.TestsRefine | src/span.h:34-48 | the three bit tests read the abstract state |
| EpochWord.RepresentsOnce | src/span.h:79-95 | within one wrap, words are equal exactly if the epochs are |
| EpochWord.Marked | src/span.h:217-238 | adding one, setting a state bit and masking is one step of the counter modulo 2^28, carry out of bit 27 included |
| EpochWord.WordsRecurAfterWrap | src/span.h:79-95 | the window is exact: 2^28 marks later the word is the same again |
| SpanSafety.InitInv | src/span.h:175-191 | a span fresh from the arena satisfies the invariant |
| SpanSafety.StepInv | src/core.h:105-215 | every atomic step of every thread keeps the invariant: token, block places and counts, each thread's stage, epoch and window |
| SpanSafety.RunInv | src/core.h:89-215 | so does every run, in which a terminated incarnation never comes back |
| SpanSafety.CountedAll | src/span.h:281-293 | when the two lists count as many blocks as the class has, no block is anywhere else |
| SpanTheorems.SafeReclamation | src/core.h:192-200 | in every reachable state in which the full mark is about to succeed, every block is in the local or the remote list, no core uses the span, nobody is carrying a block of it or allocating from it |
| SpanTheorems.OneAllocator | src/span.h:241-245 | at most one thread has the span in a hot slot; meanwhile no step of another thread changes the epoch, so the plain load and store of NewMarkFloating loses nothing |
| SpanTheorems.RankGrows | src/span.h:115-117 | along every run the epoch word never comes back to an earlier value, through any number of recyclings |
| SpanTheorems.StaleEpochsDie | src/core.h:192-214 | once the span was deleted, no mark with an epoch from before succeeds again |
| SpanTheorems.OwnerStays | src/core.h:182-188 | while its owner lives, only a thread that rebuilds the span changes the owner |
| SpanTheorems.OneReviver | src/span.h:199-203 | after a dead owner has been replaced, every later TryReviveNew naming it fails |
| SpanTheorems.OneLocalWriter | src/span.h:281-292 | at any time at most one thread is in a position to write the local free list |
| SpanTheorems.LinkedIsReusable | src/core.h:192-214 | if all steps are in time, the deque that holds a span is that of its live owner and its size class, and the span is reusable or about to be removed by the winner of the full mark |
| SpanTheorems.AcquireFits | src/core.h:108-117 | if all steps are in time, the span that a core acquires as its owner has the size class of the slot it goes to, and is in no deque |
| SpanLinks.StepLists | src/deque.h:85-146 | one step keeps pool and deques in order if and only if the list that takes the span in it, if any, finds its word null and the pool does not keep it |
| SpanLinks.WordTests | src/span.h:152-157 | along every run that meets src/core.h:112: if PushFront always finds the word null and the span not marked full, and Delete finds the word null, the lists stay in order; and while they do, the word is null whenever a list takes the span in |
| SpanLinks.OneList | src/span.h:109-111 | in such a run the span is never in the pool and a deque, nor in two deques, nor twice in one, and its word names the deque exactly when it is in one |
| SpanMarks.StepMarks | src/core.h:81-102 | while PushFronts and removals come in time, every step, those of Destroy included, keeps marks, owners, classes and deques in agreement |
| SpanMarks.StandingMarksSuffice | src/core.h:192-213 | if every PushFront links while its mark stands, or before the winner of the next full mark has removed the span, and no Remove is turned away with the span still linked, the lists stay in order |
| SpanCounterexample.PooledAndLinked | src/core.h:210-211 | for every class of threshold + 2 blocks, a run in which every list finds the word null, and after which the span is in the pool and in a live core's deque |
| SpanCounterexample.WordsDoNotTell | src/stack.h:67-75 | two reachable states in which a PushFront is about to link, with the same words of the span and the same local variables, in one in order and in the other not |
| SpanCounterexample.RefusedRemove | src/deque.h:135-146 | a run with every step in time up to a Remove that a closed deque turns away, after which the span goes to the pool while still linked |
| SpanCounterexample.LatePush | src/core.h:210-211 | a later PushFront passes its test although its mark no longer stands |
| SpanCounterexample.StalePush | src/core.h:205-214 | a run with the lists in order to a state where a core is about to acquire a span that another live thread owns |
| SpanCounterexample.StaleTake | src/core.h:108-112 | another such run, in which all steps are in time |
| SpanCounterexample.WrongFails | src/core.h:111-112 | in that state the mark succeeds and the assertion of the owner fails |
| SpanCounterexample.TwoWriters | src/span.h:281-284 | from there a run within all conditions leads to two live threads that may both write the local free list |
| SpanCounterexample.TwoUsers | src/core.h:182-213 | and another to two live cores that both have the span in a hot slot |
| SpanCounterexample.WrongClass | src/core.h:105-118 | a run with the lists in order and the owner asserted, after which a core has a span of another size class in a hot slot |
| SpanCounterexample.DefaultClass | src/size_classes_raw.h:43 | the class of 128 KiB blocks is such a class at the default threshold |
| SpanAcquire.AcquireSound | src/core.h:108-115 | when the hot mark of GetSpan succeeds for the owner, no continuation within the assertion and with the lists in order ever has two threads that may write the local list |
| SpanAcquire.AcquireSoundIff | src/core.h:108-115 | when the hot mark succeeds with the word of the span null and no PushFront of it under way, that holds if and only if the core owns the span |
| SpanWords.StepSame | src/span.h:217-251 | one step on 32-bit epoch words is the step on unbounded epochs, if it does not use an epoch 2^28 marks old |
| SpanWords.WordsFollow | src/core.h:81-215 | along all sequences of steps the words can take exactly those the epochs can, meet the assertion in the same ones, and agree with the epochs in every state |
| SpanWords.WordReclamation | src/core.h:192-200 | safe reclamation on the words, in runs that meet the assertion and keep the lists in order: when the 32-bit swap of the full mark is about to succeed, every block is free and no core uses the span |
| SpanSequential.FreeAlone | src/core.h:170-215 | an undisturbed free, while no deque is locked, ends with the block in the list of its caller, the owner adopted if dead, and the span full, reusable, floating or unchanged in exactly the cases of FreeRecyclesIff, in or out of its deque accordingly |
| SpanSequential.FreeRefines | src/core.h:170-215 | these operations and the one call of free in Heaps lead to the same epoch, owner, counts, pool membership and places of all blocks |
| SpanSequential.MallocAlone | src/core.h:149-158 | an undisturbed request on a hot span without local blocks moves the remote ones in if the free ones exceed the threshold, and otherwise floats the span and empties the slot |
| SpanSequential.LocalFirst | src/core.h:149-150 | while there is a local block, the request takes one and nothing else |
| SpanSequential.TakeAlone | src/core.h:108-117 | a span taken from the deque becomes hot if and only if it is shared |
| SpanSequential.BuildAlone | src/span.h:175-191 | a span from the pool is rebuilt with all blocks local and its epoch kept, or made hot if it was floating |
| TreiberStack.StepInv | src/stack.h:67-101 | every step of any thread keeps the links, the tags and each thread's claim |
| TreiberStack.Linearizable | src/stack.h:67-101 | every interleaving reports what some order of whole operations would report, and leaves that stack in memory |
| TreiberStack.PopReadsSuccessor | src/stack.h:88-101 | in every reachable state, a Pop whose swap succeeds has read the true second node, although the node may have been popped and overwritten in between |
| TreiberStack.SameWord | src/atomic_value.h:67-73 | a 16-bit tag tells two tops apart when fewer than 2^16 operations lie between them |
| TreiberStack.FailureIsProgress | src/stack.h:67-101 | a swap fails only if some operation took effect since the thread loaded the top |
| TreiberStack.PushAlone | src/stack.h:67-75 | a Push nobody disturbs ends after three operations with its node first |
| TreiberStack.PopAlone | src/stack.h:88-101 | so does a Pop, with the node that was first, or at once if there is none |
| RemoteFreeList.StepInv | src/stack.h:56-125 | every step keeps chain, tag and claims, even though tops recur |
| RemoteFreeList.LengthsExact | src/stack.h:56-125 | in every run the tag is the length of the list and below 2^16, and every pusher and popper is told the exact length |
| RemoteFreeList.WalkCountsLength | src/span.h:295-312 | a thread walking a popped list owns it, and the walk takes exactly as many turns as PopAll returned |
| RemoteFreeList.FailureIsProgress | src/stack.h:56-125 | a swap fails only if some push or PopAll took effect since the thread loaded the top |
| RemoteFreeList.PushAlone | src/stack.h:56-64 | a push nobody disturbs ends after three operations with its block first, and is told the length |
| RemoteFreeList.PopAllAlone | src/stack.h:104-125 | a PopAll nobody disturbs gets the whole list and its length, and starts to walk it |
| RemoteFreeList.WalkAlone | src/span.h:295-312 | a walk nobody disturbs gives away exactly the blocks it has taken |
| GuardedCore.StepInv | src/core.h:252-285 | every step keeps the count, the lock and the privilege of the lock-free path |
| GuardedCore.MutualExclusion | src/core.h:252-285 | under every schedule, with threads joining at any time, no two threads are inside the core, whichever path they took |
| GuardedCore.Enters | src/core.h:252-285 | in every reachable state with nobody inside, a thread gets inside in at most four steps of its own, unless it still waits in GetAB for a use to end; on the lock-free path exactly if it alone has announced itself |
| GuardedCore.Leaves | src/core.h:252-285 | a thread that is inside leaves within two steps and gives back lock and use mark |
| DequeDrain.StepInv | src/deque.h:85-153 | every step of owners and pushers, with unlocked Open and Close, keeps lock and ownership facts |
| DequeDrain.DrainedStaysEmpty | src/core.h:81-102 | every linked node was pushed under the incarnation that opened the deque last; after Destroy the deque is empty until the next Open, whatever pushes are in flight |
| DequeDrain.PushAlone | src/deque.h:85-94 | a push that finds the lock free links its node in front exactly if the deque is open under the incarnation it names; otherwise it changes nothing |
| DequeDrain.DrainAlone | src/deque.h:149-153 | a closed deque is drained and given up in three operations a node and three more |
| DequeDrain.LockIsHeld | src/deque.h:85-146 | in every reachable state a taken lock is held by the draining owner, or by a thread that gives it back within three operations |
| PoolLimits.StepInv | src/span_pool.h:87-106 | every step of concurrent announcements keeps the bounds |
| PoolLimits.LimitBounds | src/span_pool.h:87-106 | the limit never sinks and never exceeds the processors, the hard limit or the peak number of threads; a thread returns to a zero limit only if its number exceeds the bound |
| PoolLimits.LimitPositive | src/glue.cc:72-82 | after the start-up code announced the main thread alone, the limit is positive for good |
| PoolLimits.LimitZeroSeen | src/span_pool.h:87-101 | without that, on one processor the second thread can return while the limit is still zero |
| PoolLimits.UndisturbedRaises | src/span_pool.h:87-101 | a thread that announces itself undisturbed raises the limit by one if and only if its number is beyond the limit and within both bounds, however often its swap fails without reason |
| PoolLimits.UndisturbedReturns | src/span_pool.h:95-100 | such a thread can always come to its end |
| PoolLimits.StepKeeps | src/span_pool.h:87-106 | every step keeps: the peak within the bounds is at most twice the limit plus the numbers that threads inside the loop still carry beyond it |
| PoolLimits.LimitFollowsPeak | src/span_pool.h:87-101 | under every schedule, when no thread is inside AnnounceNewThread, the limit is at least half of the peak number of threads within the bounds |
| PoolLimits.LimitCanBeHalf | src/span_pool.h:95-100 | one half is exact: for every k some schedule ends with nobody inside, peak 2k and limit k |
| HeapInvariants.AllFree | src/core.h:192-193 | a span that counts all its blocks as free has none in use |
| HeapInvariants.ReleaseOk | src/span.h:281-293 | a freed block goes to the local list if the caller owns the span and to the remote list otherwise, the other list stays, its span is not in the pool, everything else stays sound |
| HeapInvariants.ReviveOk | src/core.h:182-188 | adopting a span of a dead core makes it floating and owned by the caller |
| HeapInvariants.ReclaimOk | src/core.h:194-200 | the full mark and the removal keep the heap sound, and the assertions of Span::Delete hold: no deque holds the span |
| HeapInvariants.ReuseOk | src/core.h:205-213 | the reuse mark and PushFront keep deques and epochs in agreement |
| HeapInvariants.FreeOk | src/core.h:170-215 | free keeps the whole invariant; a span it gives to the pool has no block in use |
| HeapInvariants.TakeReusableOk | src/core.h:108-117 | a span GetSpan takes from its deque was shared, becomes exclusive, belongs to the core and has a free local block |
| HeapInvariants.NewOk | src/span.h:147-191 | a span from the constructor is exclusive in both cases, hot on fresh memory and still full on recycled memory, with all blocks free |
| HeapInvariants.InstallOk | src/core.h:105-134 | after GetSpan the slot holds a span of the core and class with a block to hand out |
| HeapInvariants.ParkOk | src/core.h:93-96 | giving up the hot span keeps the invariant |
| HeapInvariants.AllocateOk | src/core.h:137-167 | a request from one byte to 1 MiB always gets a block nobody holds, of the class SizeToClass chose; other requests change nothing |
| HeapThreads.StartOk | src/lab.h:116-144 | a thread start gives a core no other thread has and keeps the invariant |
| HeapThreads.DestroyOk | src/core.h:89-102 | after Destroy no slot of the core is in use and its deques are closed and empty |
| HeapThreads.ExitOk | src/lab.h:125-130 | a thread exit keeps the invariant and everything the program holds |
| HeapTheorems.StepInv | src/core.h:81-215 | every call keeps the invariant |
| HeapTheorems.RunInv | src/core.h:81-215 | so does every sequence of calls |
| HeapTheorems.Conservation | src/free_list.h:31-67 | after every sequence of calls each block of each span is in exactly one of four places: handed out, local chain, behind the bump pointer, remote chain |
| HeapTheorems.LiveBlocksApart | src/span.h:136-139 | no two blocks the program holds overlap in memory, all are 16-byte aligned, and FromObject leads from each to its span |
| HeapTheorems.AllocationFits | src/core.h:137-167 | in every reachable state a request is served with a new block of the smallest size class that is large enough |
| HeapTheorems.Places | src/core.h:89-134 | epoch, owner and pool tell where a span is: in its live owner's hot slot if and only if exclusive and not pooled, in its live owner's deque if and only if reusable; a pooled span is full and has no block in use |
| HeapTheorems.NoSharedCore | src/lab.h:116-144 | two live threads never have the same core, nor one from the free list |
| HeapTheorems.FreeReclaimsWhole | src/core.h:192-200 | free moves at most its own span to the pool, and only with none of its blocks in the program's hands |
| HeapTheorems.ReachableNext | src/core.h:81-215 | a call leads from a reachable heap to a reachable heap |
| HeapOutcomes.FreeRecyclesIff | src/core.h:170-215 | for every free in a reachable heap: the span is pooled if and only if this was its last missing block and it is shared, the reusable span of a dead owner excepted; it is reusable if and only if it is so shared and above the threshold, but not whole; a dead owner is replaced by the caller |
| HeapOutcomes.FreeRelinks | src/core.h:194-213 | a span that becomes reusable goes to the front of its deque, one that is recycled leaves the others in their order, every other deque stays |
| HeapOutcomes.FreeChoosesList | src/span.h:281-293 | a core that does not own the span leaves its local list alone, the owner its remote list |
| HeapOutcomes.OwnFreeComesBack | src/free_list.h:39-67 | a block of its hot span that a thread frees is what its next request of that class gets, and the two calls together leave the whole heap as it was |
| HeapOutcomes.ForeignFreeComesBack | src/core.h:150-156 | a block of the hot span that another thread frees is next if and only if there is no local one and the free ones now exceed the threshold; while there are local ones, requests are answered as if it had not been freed |
| HeapOutcomes.GetSpanPrefers | src/core.h:105-134 | the last span of the core's own deque comes first, then one of the pool, then new memory; nothing else is taken out |
| HeapOutcomes.MallocSource | src/core.h:137-167 | every request of one byte to 1 MiB is served from the hot span if that has a local block or free ones beyond the threshold, with nothing moved; otherwise the hot span is left floating and the block comes from a span that GetSpan fetched in that order |
| HeapOutcomes.StartReuses | src/lab.h:116-144 | a new thread gets a core that was left if there is one, under an identity no span has as owner |
| HeapOutcomes.ExitThenStart | src/lab.h:116-144 | the core a thread leaves is the one the next new thread gets |
| HeapSteps.ServesIff | src/core.h:105-167 | a request of one byte to 1 MiB stays within an arena of a given size if and only if the hot span has a block or enough free ones, the deque gives a span, the pool has one, or space is left |
| HeapObjects.Span.Construct | src/span.h:175-191 | resets everything but the epoch, then tries to mark it hot |
| HeapObjects.Span.NewMarkHot | src/span.h:217-222 | swaps the epoch as the abstract mark does and says whether it did |
| HeapObjects.Span.NewMarkFull | src/span.h:225-230 | the same for the full mark |
| HeapObjects.Span.NewMarkReuse | src/span.h:233-238 | the same for the reuse mark |
| HeapObjects.Span.TryMarkFloating | src/span.h:248-251 | the state bits go if the word is the one seen |
| HeapObjects.Span.TryReviveNew | src/span.h:199-203 | the owner changes exactly if it is the one named |
| HeapObjects.Span.Free | src/span.h:281-293 | the owner frees locally, everyone else remotely; returns the number of free blocks |
| HeapObjects.Span.MoveRemoteToLocalObjects | src/span.h:295-315 | both paths give the local list of the value model, and the remote list is empty |
| HeapObjects.Core.RemoveAll | src/deque.h:149-153 | drains one deque and leaves the others and its owner alone |
| Allocators.Allocator.constructor | src/glue.cc:73-75 | the two arenas and the pool start out as the empty heap |
| Allocators.Allocator.TakeMemory | src/span_pool.h:109-160 | a cached span if there is one, of the nearest class and from the own backend first, otherwise new memory, which only then has to be left |
| Allocators.Allocator.TakeReusable | src/core.h:108-117 | the loop of GetSpan over the deque computes the value model's recursion |
| Allocators.Allocator.GetSpan | src/core.h:105-134 | the objects do what GetSpan does to the value |
| Allocators.Allocator.Allocate | src/core.h:137-167 | the objects do what Allocate does to the value, and keep its invariant |
| Allocators.Allocator.Free | src/core.h:170-215 | the objects do what Free does to the value, and keep its invariant |
| Allocators.Allocator.Init | src/core.h:81-86 | the loop opens every deque for the new incarnation |
| Allocators.Allocator.Destroy | src/core.h:89-102 | the loop closes, parks and drains every class |
| Allocators.Allocator.StartThread | src/lab.h:133-144 | a new thread gets a core from the free list or a new one |
| Allocators.Allocator.ExitThread | src/lab.h:125-130 | the core is destroyed and given back |
| Allocators.Allocator.Malloc | src/glue.h:31-38 | from a reachable heap to the next one, with the answer of the value model: all theorems about reachable heaps hold for the objects; a span taken from the pool has the nearest class of all that are in it |
| Allocators.Allocator.Dealloc | src/glue.h:41-54 | the same for free |
| Allocators.Allocator.ThreadStarts | src/lab.h:133-144 | the same for a thread start |
| Allocators.Allocator.ThreadEnds | src/lab.h:125-130 | the same for a thread exit |
| SpanPools.SpanPool.constructor | src/span_pool.h:72-84 | no span cached, limit zero |
| SpanPools.SpanPool.AnnounceNewThread | src/span_pool.h:87-101 | one at a time, the limit is the peak number of threads cut off at both bounds |
| SpanPools.SpanPool.AnnounceLeavingThread | src/span_pool.h:104-106 | one thread less; the limit stays |
| SpanPools.SpanPool.ScanRow | src/span_pool.h:128-132 | from any random start the wrap-around loop finds a span of the row if there is one |
| SpanPools.SpanPool.Allocate | src/span_pool.h:109-160 | nothing is found if and only if nothing at all is cached; a span freed for the class, or for another fine one if it is fine, is preferred to every other, in the own backend first; then smaller classes come before larger ones and the largest of each first; exactly that span leaves the pool |
| SpanPools.SpanPool.Free | src/span_pool.h:164-196 | the span is cached under its class and in the row of that class, in the caller's backend; the others stay where they are |
| SpanPools.RowsAreClasses | src/span_pool.h:116-124 | two classes have the same row if and only if they are the same or both at most kFineClasses, and rows grow with the classes |
| SpanPools.ScanIsNearest | src/span_pool.h:125-128 | the order in which the scan reaches rows, said in classes: the own row, then smaller classes, then larger ones, the largest of each first |
| SpanPools.RowVisits | src/span_pool.h:128-132 | the scan of a row meets each backend below the limit at exactly one step |
| SpanPools.GrowingRowVisits | src/span_pool.h:128-132 | with the limit read anew in every test and every modulus and growing meanwhile, the scan still visits every backend that was below the limit when it chose its start |
| Deques.Deque.constructor | src/deque.h:78-82 | an empty ring |
| Deques.Deque.Open | src/deque.h:68-70 | names the owner and leaves the ring alone |
| Deques.Deque.Close | src/deque.h:73-75 | nobody owns the deque afterwards; the ring stays |
| Deques.Deque.PushFront | src/deque.h:85-94 | if the named owner is the owner, the words of node and sentinel are written as the source writes them, and a node that was not in the ring is then its first, both directions inverse; otherwise ring and node stay |
| Deques.Deque.PushBack | src/deque.h:97-106 | the same at the back |
| Deques.Deque.RemoveFront | src/deque.h:109-119 | the first node leaves with null links, or nothing happens |
| Deques.Deque.RemoveBack | src/deque.h:122-132 | the last node leaves with null links, or nothing happens |
| Deques.Deque.Remove | src/deque.h:135-146 | the node leaves from wherever it is; an unlinked node or a stranger's call changes nothing |
| Deques.Deque.RemoveAll | src/deque.h:149-153 | the ring is empty and every node that was linked has null links |
| FreeLists.PopTakesOne | src/free_list.h:53-67 | Pop takes exactly one block out of the set of free ones, and fails only when the set is empty; the count stays exact |
| FreeLists.PushAddsOne | src/free_list.h:39-44 | Push adds exactly one |
| FreeLists.MoveConserves | src/span.h:295-315 | moving the remote list keeps the set of free blocks on both paths; SetList is reached only when chain and bump region are empty |
| FreeLists.NewHoldsAll | src/free_list.h:31-36 | a new list holds every block |
| FreeLists.PopUndoesPush | src/free_list.h:39-67 | the block pushed last comes back first, and the list is as before |
| FreeLists.NewInOrder | src/free_list.h:53-67 | a list without freed blocks gives the blocks out in the order of their addresses |
| FreeLists.MoveOrders | src/span.h:295-315 | after a move into an empty list the block freed last comes first, otherwise the one freed first |
| IncrementalFreeLists.IncrementalFreeList.constructor | src/free_list.h:31-36 | memory and fields spell the new list |
| IncrementalFreeLists.IncrementalFreeList.Push | src/free_list.h:39-44 | the links in memory spell the list with the block in front; returns its length |
| IncrementalFreeLists.IncrementalFreeList.Pop | src/free_list.h:53-67 | returns the address of the block the value model gives, null exactly when nothing is left |
| IncrementalFreeLists.IncrementalFreeList.SetList | src/free_list.h:47-50 | on an empty list, the given chain becomes the list |
| IncrementalFreeLists.IncrementalFreeList.MoveRemoteToLocalObjects | src/span.h:295-315 | the loop over the popped chain computes the move of the value model and counts exactly the popped length |
| TaggedValues.PackRoundTrip | src/atomic_value.h:40-69 | a packed pointer is unpacked unchanged if and only if it is sign-extended from 48 bits; the tag always is |
| TaggedValues.UnpackRoundTrip | src/atomic_value.h:61-69 | every word is the packing of its own value and tag |
| TaggedValues.WordsCompareBoth | src/atomic_value.h:71-73 | words are equal exactly if value and tag are |
| TaggedValues.AtomicTaggedValue.Swap | src/atomic_value.h:116-120 | succeeds exactly if value and tag are the expected ones, and changes the word only then |
| SizeClasses.Log2Exact | src/utils.h:64-81 | the table-driven logarithm is exact for all 32-bit numbers but 0 |
| SizeClasses.SmallestFit | src/size_classes.h:27-36 | a class holds a request of one byte to 1 MiB if and only if it is not below the one SizeToClass chooses |
| SizeClasses.NoClass | src/size_classes.h:27-36 | class 0 means size 0 or more than 1 MiB |
| SizeClasses.BlockSizeIsClassSize | src/size_classes.h:39-47 | the two size functions agree |
| SizeClasses.TableSound | src/size_classes_raw.h:15-46 | every row: blocks and header fit the span, the span fits 2 MiB, the 16-bit tag can count the blocks, the reuse threshold is below the number of blocks |
| Layout.MaskIsModulo | src/span.h:136-139 | masking a 64-bit address is taking off its remainder |
| Layout.BlockInSpan | src/span.h:206-208 | every block lies behind the header and inside its span, and any address in it leads back to the span |
| Layout.BlocksDisjoint | src/size_classes_raw.h:15-46 | blocks of different spans or numbers do not overlap |
| Layout.StartRecovered | src/span.h:160-172 | the modulo step maps every address in a block to its start |
| Layout.AlignedPayload | src/glue.h:102-133 | the aligned pointer is aligned, its payload ends inside the block, and free finds the block from it |
| Layout.TagInsideBlock | src/glue.h:124-130 | the tag lies inside the block if and only if the alignment is at least four |
| Memaligns.Memalign.PosixMemalign | src/glue.h:102-133 | the three outcomes, with the tag written right below the returned pointer |
| Memaligns.Memalign.BlockOf | src/core.h:171-175 | the pointer free goes on with |
| Memaligns.FreeFindsBlock | src/span.h:160-172 | a malloc pointer is freed as it is, whatever lies before it; a memalign pointer leads to its block if and only if its tag is in place |
| Arenas.Arena.constructor | src/arena.h:49-74 | the arena starts aligned, not more than one alignment above the mapping |
| Arenas.Arena.Allocate | src/arena.h:83-98 | what is handed out lies above everything handed out before |
| Arenas.Arena.AllocateVirtualSpan | src/arena.h:100-112 | the k-th span lies k span sizes above the start and is aligned |

## Left out

- Weak memory: all step machines are sequentially consistent; `in_use_` is only `volatile` in the source, and `len_`, `id_` and the deque's `owner_` are plain fields.
- Machine widths of counters: epochs, stack tags and thread ids are unbounded in the machines; EpochWord and TreiberStack.SameWord say for how many operations the words can stand for them (2^28 and 2^16), and thread ids are assumed not to wrap their 16 bits.
- SpanSafety.StepInv: for steps that meet the assertion of src/core.h:112, because without it the promise is false (AcquireSoundIff); it counts links and leaves the link word to SpanLinks.StepLists.
- SpanSafety.RunInv: the same for every step of the run.
- SpanTheorems.SafeReclamation: for runs that meet the assertion of src/core.h:112 and keep the lists in order, as are all theorems of that module, because late PushFronts, refused removals and stale takes break the rest.
- SpanTheorems.OneAllocator: the same.
- SpanTheorems.RankGrows: the same.
- SpanTheorems.StaleEpochsDie: the same.
- SpanTheorems.OwnerStays: the same.
- SpanTheorems.OneReviver: the same.
- SpanTheorems.OneLocalWriter: the same.
- SpanAcquire.AcquireSoundIff: says nothing of a span that a PushFront has linked again, or is about to, when the mark succeeds for a core that does not own it; SpanAcquire.AcquireSound needs neither.
- SpanWords.WordReclamation: for runs that meet the assertion of src/core.h:112 and keep the lists in order.
- SpanProtocol: one span; local Push and Pop are single steps, which SpanTheorems.OneLocalWriter justifies; Remove, RemoveFront and RemoveBack are single steps under the lock of the deque, which PushFront holds from its test to its links; the push onto the pool is one step, which TreiberStack justifies.
- SpanProtocol after the lists have disturbed each other: what the pool hands out once a PushFront has overwritten its link, and what Deque::Remove does to a word the pool has written, is not followed.
- SpanProtocol.Allocate: which of the local blocks Pop gives is left open.
- HeapTheorems.Places: for calls that run to completion; between atomic operations a span can be in a deque and in the pool at once (PooledAndLinked, RefusedRemove).
- Liveness of reclamation between atomic operations: a span whose blocks are all free can stay floating (src/core.h:186, 194), so only safety is stated there; for whole calls HeapOutcomes.FreeRecyclesIff says when a span is recycled.
- Allocators.Allocator.Malloc: requires that the request finds a block or a span (HeapSteps.ServesIff), where the source stops the program; Allocators.Allocator.ThreadStarts likewise requires space for a core if none is free.
- Allocators.Allocator.constructor: does not start the main thread, which src/glue.cc:76-82 does next; that is a call of ThreadStarts.
- HeapObjects.Core.RemoveAll: the deque is a sequence here; its links are those of Deques.Deque.RemoveAll, its lock is that of DequeDrain.
- HeapObjects: the deques and free lists of its objects are values; their links are the subject of Deques, IncrementalFreeLists and RemoteFreeList and are not composed into Allocators.
- Deques.Deque.Remove: for a node of this ring or with null words, or in the name of a stranger; a node whose words another list uses is not covered.
- SpanPools.SpanPool.ScanRow: no other thread acts during the scan, so the limit is fixed; SpanPools.GrowingRowVisits is about a limit that grows.
- SpanPools.SpanPool.Allocate: the same for the whole scan.
- Arena::Contains: taken as given that a freed pointer belongs to the arena; the test of src/arena.h:77-80 needs a length that is a power of two, and 35 TiB is not one.
- Memaligns.Memalign.BlockOf: reads the tag in the four bytes it was written in; the source reads a word that is wider on some platforms (src/span.h:162-163).
- The stacks inside SpanPools.SpanPool are sequences; TreiberStack shows that the linked ones behave like them.
- Random starts of the pool scan are arbitrary numbers; the reuse threshold is the default of 80 percent in Heaps and arbitrary in SpanProtocol.
- The build variants SCALLOC_NO_CLEANUP_IN_FREE, strict memory protection and non-eager madvise, and the unused PushRange and SetTop.
- mmap, madvise, mprotect, logging, profiling, thread interception, padding and alignment checks.
- calloc, realloc and large objects: short wrappers; a large request is answered with `Large` and leaves the heap alone.
