# The runtime's memory manager and scheduler, modelled and proved

This project models the memory manager and the scheduler under the language runtime: the moving
collector with its ephemerons, the concurrent protocols around it, the tables and trees it keeps, the
block allocator, the pool that runs parallel loops, the query that tells whether a value is referred to
once, and the text codec. What each of them promises is proved for all heaps, any number of threads, all
interleavings and all inputs it is made for; where the code demands something of its callers (whole
characters, memory that a scan may read), so does the model.

`dafny verify dfyconfig.toml` checks everything.

## How the files fit together

**Semispace collection.** `ObjectModel.dfy` gives the type table and, twice, object sizes and reference
slots: as the tracer computes them, and as the layout of each kind of object says where references are,
which is what the theorems are about; `SemispaceInvariant.dfy` says what a collection keeps true at every
step; `SemispaceSteps.dfy` proves it of each primitive step (copy, mark, update of a slot, each transition
of an ephemeron); `SemispaceTrace.dfy` and `SemispaceFacts.dfy` say how the bookkeeping grows over a call;
`Semispace.dfy` is the collector itself, a class whose methods are the functions of the source; and
`SemispaceResult.dfy` turns the invariant at the end into the theorem: exactly the least live set
survives, and the heap seen from the roots is the one that was there before.

**Protocols.** `ChaseLev.dfy` (the work-stealing deque), `EphemeronRace.dfy` (workers that mark keys
against workers that publish ephemerons, on the intrusive lists), `StopTheWorld.dfy` (the mutator
handshake), `Evacuation.dfy` (claim, copy, commit or abort of an object, and the block lists copies come
from) and `TraceTermination.dfy` (the end of a parallel trace) are state machines: each shared access is
one step, memory is sequentially consistent, a weak compare-and-swap may fail for no reason. Each has an
inductive invariant over all program counters and theorems about every state of every run: what a call has
done when it returns, and that whatever has begun can come to its end. `Runs.dfy` says what it means to get
from one state to another; `EphemeronRest.dfy` and `TraceEnds.dfy` hold the proofs of the second kind that
would not fit beside the first, and `TraceMarks.dfy` shows what a parallel trace has marked.

**Scheduler.** `PhasedDispatch.dfy` is the scheduler's state and its three operations; `PhasedRun.dfy`
lets any number of workers run it; `PoolDispatch.dfy` is the pool below, and `PhasedPool.dfy` puts the two
together. `PoolEnds.dfy`, `PhasedEnds.dfy` and `PhasedPoolEnds.dfy` show of each that a dispatch with room
can always come to its end.

**Indexes.** `Ring.dfy`, `RobinHood.dfy` and `AddressMap.dfy` (hash map in two arrays, address map on
top), `AddressHash.dfy` (the bit mixers and their inverses), `SplayTree.dfy` (top-down splay with the
pointers rewritten in place), `Histogram.dfy`, `LargeIndexes.dfy` (address map and splay tree side by
side) and `LargeObjects.dfy` (the large-object space on top of both).

**Allocator.** `Swar.dfy` (scans of eight bytes at a time, with the 64-bit arithmetic written out over
numbers), `HoleSet.dfy` (the free holes, with the links and sizes that are kept in the holes themselves)
and `Sweeper.dfy`, over one memory of granules.

**Queries and text.** `SeenSet.dfy` and `UniquenessQuery.dfy`; `TextCodec.dfy`. `Basics.dfy` holds the few facts
about numbers and sets that several modules need.

## What turned out false, and exactly when it holds

- A request for a hole that fails does not always mean that no hole is big enough. It does if and only if
  it asks for up to 50 granules or for 512 (`HoleSet.MissesNothing`, `HoleSet.NoneBigEnough`); for every
  size between, a set whose one hole has just that size gives nothing (`HoleSet.OneHoleMissed`), so 51
  granules asked of a set that holds a hole of 51 are not found (`HoleSet.HoleMissed`).
- The free memory of a swept block is not always zero. Without `collect` it is
  (`Sweeper.Sweeper.FinishSweeping`); with it a hole holds a link to the next of its list and, over 50
  granules, its size, and nothing else (`HoleSet.HeadersOnly`, `HoleSet.ValidHeaders`). The memory of a set
  of holes is all zero if and only if none is over 50 granules and no two are of the same size
  (`HoleSet.AllZero`); one hole of 51 granules is not (`HoleSet.HoleNotZero`). What is handed out is all
  zero again, always (`HoleSet.Local.TryPop`, `HoleSet.SecondChance`).
- A scan for a byte does not always give the smaller of its limit and the first hit. It does if and only if
  the first hit is not past the limit in the word where the limit is (`Swar.ScanFor`), so always for an
  aligned end (`Swar.AlignedEnd`); of eight bytes with a hit at the sixth a scan with limit 4 gives 5
  (`Swar.ScanPastLimit`).
- The decoder's first pass can count more units than the second writes, never fewer: the counts agree if
  and only if no four-byte character stands for a code point below 0x10000 (`TextCodec.CountedEnough`).
  The bytes f0 80 80 80 are counted as two units and decoded to one (`TextCodec.LongFormCounted`).
- Removing a key that no span holds from the splay tree removes a span all the same: the one that the
  spans below the key and the spans above it leave between them. The removed span holds the key if and
  only if some span does (`SplayTree.SplitHolds`); a tree of one span that misses the key is left empty
  (`SplayTree.RemoveMisses`).
- A thief can come away from a deque that still holds one reference. One whose `top` is current does so if
  and only if the deque is empty or holds one reference that the owner is popping; one whose `top` is old
  does so only from an empty deque (`ChaseLev.StealFindsNothing`). `ChaseLev.StealMissesOne` is a run in
  which the only reference is missed.
- A dispatch of the pool does not always run every index once, because the cursor has 32 bits. It does if
  and only if the range rounded up to whole chunks, and one chunk more for every thread but one, stay below
  2^31, for which a range and one chunk for every thread making at most 2^31 are enough
  (`PoolDispatch.DispatchIsOver`, `PoolDispatch.EnoughRoom`); otherwise the kernel is called below the
  range. One index in chunks of 2^31 - 1 on three threads is run twice (`PoolDispatch.HugeChunkRunsTwice`).
- A phased dispatch that has finished has called the kernel for every phase of every index exactly once, and
  for nothing else, if and only if no count of chunks and no end of a chunk wraps at 32 bits
  (`PhasedRun.FinishedFits`; from the pool's caller, `PhasedPool.PhasedIsOver`); a range and a chunk making at most 2^31 are enough
  (`PhasedRun.EnoughRoom`). If a count wraps, the dispatch never finishes (`PhasedRun.NeverFinishes`):
  eight indices in chunks of 2^31 - 1 come to a point where nothing is in flight and nothing can be grabbed
  (`PhasedRun.HugeChunkHangs`). If an end wraps, the kernel is called with a range that ends below its start:
  2^31 - 1 indices in two groups and chunks of 2^30 (`PhasedRun.LastChunkWraps`).
- The least value of a histogram bucket is the least value only for the buckets that 64-bit values reach,
  since it is cut to 64 bits (`Histogram.BucketAtLeast`, an if-and-only-if). With 63 bits and a precision of
  2 the last bucket, 252, is not reached and its least value is given as 0 (`Histogram.LastMinIsZero`).

## Model

| member | source | states |
|---|---|---|
| ObjectModel.RefSlotsInside | runtime/fpprt-embedder.h:94-166 | for every kind of object the slots the tracer visits are distinct words inside the object, none of them the tag |
| ObjectModel.RefSlotsAre | runtime/fpprt-embedder.h:94-166 | the slots the tracer visits are exactly the words where the layout of the kind puts a reference: each offset of a struct, each element of a reference array, each offset in each element of an array of flat structs, every word of a tagged object from its first payload on, none of a scalar array or an ephemeron |
| ObjectModel.SizeIs | runtime/fpprt-embedder.h:94-166 | the size the tracer computes is that of the words the object has |
| ObjectModel.PodSlotsInside | runtime/fpprt-embedder.h:145-158 | the slots of an array of flat structs are distinct and inside it, whatever the element layout |
| SemispaceSteps.CopyFits | runtime/gc/src/semi.c:182-194 | a copy always fits: the allocation pointer plus what is still to be copied never passes the end of a to-space as large as from-space |
| SemispaceSteps.CopyStep | runtime/gc/src/semi.c:182-205 | copying an object and leaving its new address behind keeps the whole invariant of a collection |
| SemispaceSteps.MarkStep | runtime/gc/src/semi.c:212-221 | marking a large object keeps the invariant |
| SemispaceSteps.SlotStep | runtime/gc/src/semi.c:201-257 | overwriting one traced word with where its target is now keeps the invariant |
| SemispaceSteps.ClaimStep | runtime/gc/src/gc-ephemeron.c:464-487 | TRACED to CLAIMED, with the new epoch and the chain moved past dead successors, keeps the invariant |
| SemispaceSteps.PublishStep | runtime/gc/src/gc-ephemeron.c:427-433 | CLAIMED to PENDING, published in the bucket of its key, keeps the invariant |
| SemispaceSteps.ResolveStep | runtime/gc/src/gc-ephemeron.c:435-443 | PENDING to RESOLVED, with the key relocated and the ephemeron on the resolved list, keeps the invariant |
| SemispaceSteps.FinishStep | runtime/gc/src/gc-ephemeron.c:491-505 | CLAIMED to TRACED keeps the invariant |
| Semispace.Heap.VisitKey | runtime/gc/src/semi.c:264-281 | a key counts as live exactly if it has been found, and is then relocated in place |
| Semispace.Heap.MaybeResolve | runtime/gc/src/gc-ephemeron.c:435-443 | a pending ephemeron is resolved exactly if its key has been found |
| Semispace.Heap.ResolvePending | runtime/gc/src/gc-ephemeron.c:445-457 | after it no pending ephemeron still waits for the object just found |
| Semispace.Heap.Copy | runtime/gc/src/semi.c:182-194 | returns where the object is now and keeps the invariant, resolving ephemerons that waited for it |
| Semispace.Heap.Visit | runtime/gc/src/semi.c:246-257 | whatever the edge held, it comes to hold the image of that, and the object is found |
| Semispace.Heap.FollowChain | runtime/gc/src/gc-ephemeron.c:202-226 | the chain is followed to its first ephemeron that is not dead |
| Semispace.Heap.TraceEphemeron | runtime/gc/src/gc-ephemeron.c:459-524 | the whole state machine of one ephemeron; tracing it again in the same collection changes nothing |
| Semispace.Heap.Scan | runtime/gc/src/semi.c:196-199 | every slot of the grey object is updated and the grey pointer moves to the next object |
| Semispace.Heap.TraceClosure | runtime/gc/src/semi.c:356-361 | the Cheney loop ends, with every copy scanned |
| Semispace.Heap.TraceResolved | runtime/gc/src/gc-ephemeron.c:551-562 | the values of resolved ephemerons are traced, and some ephemeron is finished that was not |
| Semispace.Heap.ResolveEphemerons | runtime/gc/src/semi.c:363-371 | the fixpoint loop ends with nothing resolved left to trace and every copy scanned |
| Semispace.Heap.ScanPending | runtime/gc/src/gc-ephemeron.c:527-542 | afterwards no pending ephemeron has a live key |
| Semispace.Heap.SweepPending | runtime/gc/src/gc-ephemeron.c:565-581 | every ephemeron still pending ends TRACED with a null key, and the table is empty |
| Semispace.Heap.TraceRoots | runtime/gc/src/semi.c:411-419 | every root word is visited once and updated |
| Semispace.Heap.Flip | runtime/gc/src/semi.c:169-180 | the spaces trade places and the invariant of a collection starts to hold |
| Semispace.Heap.Collect | runtime/gc/src/semi.c:387-439 | from any valid heap: exactly the least live set survives, the new heap is the old one moved along an injective map, every object and root is the image of the old one, dead ephemerons have a null key, all end TRACED, large objects are kept iff live, and the heap is valid again |
| SemispaceResult.FoundIsLive | runtime/gc/src/gc-ephemeron.c:443-581 | what a finished trace has found is the least set that holds the roots and is closed under strong edges and under ephemerons with a live key |
| SemispaceResult.WalksPreserved | runtime/gc/src/semi.c:387-439 | every walk along reference slots from a live word leads to the image of where it led before |
| SemispaceResult.RootWalks | runtime/gc/src/semi.c:387-439 | seen from the roots the heap before and after is the same graph |
| SemispaceResult.NewHeap | runtime/gc/src/semi.c:387-439 | the heap left behind is one a collection can start from, within the active size |
| SemispaceResult.FinallyMoved | runtime/fpprt-embedder.h:94-166 | each surviving object has its old words, with every traced word replaced by the image of its target |
| SemispaceResult.TilesDisjoint | runtime/gc/src/semi.c:182-194 | objects laid end to end do not overlap |
| SemispaceResult.SkipRank | runtime/gc/src/gc-ephemeron.c:202-226 | following a chain past dead ephemerons ends |
| ChaseLev.NothingLostNothingTwice | runtime/gc/src/shared-worklist.h:149-237 | at every point of every run the references pushed are those returned and those in the slots from top up to bottom (one further while the owner is popping), so none is lost or returned twice |
| ChaseLev.StepRefinesDeque | runtime/gc/src/shared-worklist.h:161-237 | every step is one operation of a plain deque or none, and a thief's step takes the oldest or nothing |
| ChaseLev.StealFindsNothing | runtime/gc/src/shared-worklist.h:219-237 | exactly when a thief turns away: with a current top, from an empty deque or one whose last reference the owner is popping; with an old one, only from an empty deque during a pop |
| ChaseLev.StealMissesOne | runtime/gc/src/shared-worklist.h:193-237 | a run from an empty deque in which the owner pushes one reference and begins to pop it, and a thief turns away while the deque still holds it |
| ChaseLev.PopFindsNothing | runtime/gc/src/shared-worklist.h:193-217 | wherever a pop of the owner comes back without a reference, there was none |
| ChaseLev.PushReturns | runtime/gc/src/shared-worklist.h:161-174 | a push that has returned has added its reference and nothing else, whatever the thieves did |
| ChaseLev.PopReturns | runtime/gc/src/shared-worklist.h:193-217 | a pop that has returned has taken just the reference it gives back; if it gives back none, the deque was empty at some point of the call |
| ChaseLev.StealReturns | runtime/gc/src/shared-worklist.h:219-237 | a steal that has returned has taken just the reference it gives back; if it gives back none, at some point of the call there was nothing to steal |
| ChaseLev.CrashesFull | runtime/gc/src/shared-worklist.h:149-174 | the owner crashes only in a push that found the largest buffer full |
| ChaseLev.BuffersDouble | runtime/gc/src/shared-worklist.h:30-75 | there are never more buffers than there is room for, each twice the one before |
| ChaseLev.CanGrow | runtime/gc/src/shared-worklist.h:149-168 | a push that finds its buffer full can go on to the next unless it is the last |
| ChaseLev.OwnerEnds | runtime/gc/src/shared-worklist.h:149-217 | every step of the owner brings its call nearer to its return |
| ChaseLev.ThiefEnds | runtime/gc/src/shared-worklist.h:219-237 | every step of a thief brings its call nearer to its return, or it starts over because somebody has taken a reference since |
| ChaseLev.NeverStuck | runtime/gc/src/shared-worklist.h:149-237 | every thief can always move, and the owner unless it has crashed; between calls it can push any reference, and pop |
| ChaseLev.NextKeepsInv | runtime/gc/src/shared-worklist.h:90-237 | every step of the owner and of any thief, growth and stale reads of the buffer index included, keeps the invariant |
| ChaseLev.RunKeepsInv | runtime/gc/src/shared-worklist.h:90-237 | so every state of every run satisfies it |
| ChaseLev.SlotsDiffer | runtime/gc/src/shared-worklist.h:78-97 | indexes less than a buffer apart use different slots |
| EphemeronRace.StepKeepsInv | runtime/gc/src/gc-ephemeron.c:165-226 | every step of every worker keeps the invariant of the lists and the ephemeron states |
| EphemeronRace.RunKeepsInv | runtime/gc/src/gc-ephemeron.c:418-524 | so every state of every run satisfies it |
| EphemeronRace.ResolvedAtMostOnce | runtime/gc/src/gc-ephemeron.c:427-457 | an ephemeron goes from PENDING to RESOLVED at most once, only with its key marked, and joins the resolved list at most that often; nothing on that list is lost |
| EphemeronRace.NoneLost | runtime/gc/src/gc-ephemeron.c:501-524 | at rest the value of every ephemeron that any worker ever claimed has been traced exactly once if its key is marked and never otherwise, and then the ephemeron is still PENDING |
| EphemeronRace.GivenUpVisited | runtime/gc/src/gc-ephemeron.c:459-524 | a worker gives up a claimed ephemeron only when it has been visited in this collection |
| EphemeronRace.ClaimedVisited | runtime/gc/src/gc-ephemeron.c:459-524 | so at rest whatever was ever claimed has been visited |
| EphemeronRace.DeadUntraced | runtime/gc/src/gc-ephemeron.c:492-496 | an ephemeron that was dead already is never published nor its value traced |
| EphemeronRace.CutsOut | runtime/gc/src/gc-ephemeron.c:202-226 | a walk that has come past dead nodes leaves the link it came by at the first that is not, unless it was changed meanwhile |
| EphemeronRest.CanRest | runtime/gc/src/gc-ephemeron.c:418-524 | from every state of every run the workers can come to rest, with nothing resolved left to trace |
| EphemeronRest.WorkerCan | runtime/gc/src/gc-ephemeron.c:418-524 | a worker inside a call can always take a step, and one that brings it nearer to the end of the call |
| EphemeronRest.IdleCan | runtime/gc/src/gc-ephemeron.c:459-487 | a worker between calls can claim any ephemeron in state TRACED and mark any key |
| EphemeronRace.PendingReachable | runtime/gc/src/gc-ephemeron.c:202-226 | however pushes and cuts interleave, every published pending ephemeron can be found from its bucket |
| EphemeronRace.LinkReaches | runtime/gc/src/gc-ephemeron.c:202-226 | a link that skips only dead ephemerons leads to every pending one published before it |
| EphemeronRace.PublishKeepsLists | runtime/gc/src/gc-ephemeron.c:170-187 | publishing at the head keeps the bucket lists in order |
| EphemeronRace.CutKeepsLists | runtime/gc/src/gc-ephemeron.c:202-226 | cutting out dead nodes keeps them in order |
| EphemeronRace.MissedMoved | runtime/gc/src/gc-ephemeron.c:435-443 | the comparison of keys misses a pending ephemeron with that key only if another worker has rewritten the key already |
| StopTheWorld.TracingAlone | runtime/gc/src/mmc.c:491-550 | while anyone traces it is the only collector, and every other mutator is paused or inactive |
| StopTheWorld.FrozenWhileTracing | runtime/gc/src/mmc.c:975-998 | until the collector finishes other threads can do no more than wake up |
| StopTheWorld.CountersExact | runtime/gc/src/mmc.c:230-284 | the counters are the true numbers at every point, sleepers of the last pause included, and there is at most one collector |
| StopTheWorld.AssertionsHold | runtime/gc/src/mmc.c:491-550 | what the code asserts of the counters holds in every run |
| StopTheWorld.SleepersHaveCause | runtime/gc/src/mmc.c:522-550 | no wake-up is lost: a sleeping collector waits for a running mutator, a sleeping mutator for a collector |
| StopTheWorld.StoppedAreMembers | runtime/gc/src/mmc.c:230-235 | the sums agree exactly if every mutator is paused or inactive |
| StopTheWorld.RunsAfterCollection | runtime/gc/src/mmc.c:491-550 | a mutator that has stopped for a collection runs again only after a collection has ended |
| StopTheWorld.RequestCanBeMet | runtime/gc/src/mmc.c:975-998 | from every state in which a collection is wanted somebody can come to trace |
| StopTheWorld.EverybodyCanGoOn | runtime/gc/src/mmc.c:522-550 | from every state of every run the collection can end and every mutator run again |
| StopTheWorld.MutatorCan | runtime/gc/src/mmc.c:230-284 | while no collection is wanted a mutator can request one, leave, park, come back and join, and one that has woken can go on, or to the collection it was on its way to |
| StopTheWorld.WhoAsks | runtime/gc/src/mmc.c:975-1027 | a stop is asked for only by a mutator that runs or that was on its way to a collection of its own, never at a safepoint |
| StopTheWorld.StepKeepsInv | runtime/gc/src/mmc.c:1425-1448 | joining, leaving, parking, coming back, pausing, requesting and resuming all keep the invariant |
| StopTheWorld.RunKeepsInv | runtime/gc/src/mmc.c:1016-1027 | so every state of every run satisfies it |
| Evacuation.EvacuatedOnce | runtime/gc/src/copy-space.h:609-657 | an object is evacuated at most once; then its tag word is the address of a whole copy with the original tag; otherwise it carries that tag unless it is being copied, whatever was aborted |
| Evacuation.EdgesAgree | runtime/gc/src/copy-space.h:609-682 | all forwarded edges to an object hold the same new address |
| Evacuation.LeavesForwarded | runtime/gc/src/copy-space.h:609-682 | a worker that is done with an edge leaves it with the new address of its object, or its object where it was because it gave up the copy or was only to follow one that was made |
| Evacuation.CallReturns | runtime/gc/src/copy-space.h:609-682 | what a call reports is so: that this worker has moved the object; that the edge holds its new address; that there was no room, neither a partly full nor an empty block being left at points of the call; or that an object only to be followed had not moved at some point of the call |
| Evacuation.OneEvacuates | runtime/gc/src/copy-space.h:609-657 | of all calls for an object at most one reports that it has moved it |
| Evacuation.CanAllEnd | runtime/gc/src/copy-space.h:609-682 | from every state of every run all calls can come to their end |
| Evacuation.CallCanBegin | runtime/gc/src/copy-space.h:609-682 | an idle worker can begin a call for any edge not yet updated |
| Evacuation.CanRelease | runtime/gc/src/copy-space.h:469-488 | an idle worker can give its block back, to the partly full ones as far as it is used, or to the full ones |
| Evacuation.RoundedIs | runtime/gc/src/copy-space.h:490-520 | a copy is given the whole granules it needs and no more |
| Evacuation.CopiesApart | runtime/gc/src/copy-space.h:490-520 | different objects end in disjoint memory |
| Evacuation.MovedStays | runtime/fpprt-embedder.h:325-337 | once an object has moved its address never changes again |
| Evacuation.StepKeepsMoved | runtime/fpprt-embedder.h:325-337 | no step changes the address of a moved object |
| Evacuation.ClaimFailsOk | runtime/fpprt-embedder.h:299-311 | a claim fails only because the object is being copied or has moved |
| Evacuation.BumpOk | runtime/gc/src/copy-space.h:490-520 | bump allocation carves a new piece out of the block and keeps every allocator apart from the others |
| Evacuation.ReleasePartlyOk | runtime/gc/src/copy-space.h:469-488 | giving a partly full block back keeps the lists and what is left in it |
| Evacuation.AcquirePartlyOk | runtime/gc/src/copy-space.h:442-455 | taking one continues where it was left |
| Evacuation.AcquireEmptyOk | runtime/gc/src/copy-space.h:421-440 | taking an empty block gives a whole region |
| Evacuation.StepKeepsInv | runtime/gc/src/copy-space.h:609-682 | every step of every worker keeps the invariant |
| Evacuation.RunKeepsInv | runtime/gc/src/copy-space.h:609-682 | so every state of every run satisfies it |
| TraceTermination.TraceIsOver | runtime/gc/src/parallel-tracer.h:351-369 | when worker 0 leaves a trace it holds every helper lock, every helper waits, every root is traced, and after a full trace so is every object marked, so all deques are empty |
| TraceMarks.MarkedExactly | runtime/gc/src/parallel-tracer.h:275-336 | when worker 0 leaves a full trace, an object is marked if and only if it can be reached from the roots of this collection |
| TraceMarks.RootsHeld | runtime/gc/src/parallel-tracer.h:287-312 | when it leaves any trace, of the roots alone or full, all that the roots hold is marked |
| TraceMarks.StepKeepsMarks | runtime/gc/src/parallel-tracer.h:275-336 | at every step whatever is done has all its references marked, whoever is visiting has those before its place marked, and only reachable objects are marked |
| TraceEnds.CanEnd | runtime/gc/src/parallel-tracer.h:221-336 | from every state of every run the trace worker 0 is in can come to its end |
| TraceEnds.CanBegin | runtime/gc/src/parallel-tracer.h:147-150 | between traces any root can be added, and a trace of either kind begun |
| TraceEnds.AllCalled | runtime/gc/src/parallel-tracer.h:152-161 | beginning a trace wakes every helper, and none has seen its epoch yet |
| TraceEnds.CanCall | runtime/gc/src/parallel-tracer.h:162-167 | and it can call them again while it traces, when not all are active |
| TraceEnds.CanJoin | runtime/gc/src/parallel-tracer.h:81-97 | a helper that was waiting then can join the trace |
| TraceTermination.BetweenTraces | runtime/gc/src/parallel-tracer.h:81-97 | between traces nobody is active or can become so |
| TraceTermination.ItemsMoveOn | runtime/gc/src/parallel-tracer.h:275-336 | a marked object is in one place only, and a step moves at most one of them one place on: marked, pushed, taken, done |
| TraceTermination.RootsMoveOn | runtime/gc/src/parallel-tracer.h:287-298 | so it is with the roots: popped by one worker and done by that worker |
| TraceTermination.ScanCovers | runtime/gc/src/parallel-tracer.h:204-219 | a scan that starts anywhere and goes round has seen every deque empty |
| TraceTermination.StepKeepsInv | runtime/gc/src/parallel-tracer.h:221-260 | every step of worker 0 and of any helper keeps the invariant |
| TraceTermination.RunKeepsInv | runtime/gc/src/parallel-tracer.h:221-336 | so every state of every run satisfies it |
| PhasedDispatch.Scheduler.GrabChunk | runtime/fpprt.c:531-546 | grabs a chunk of the first runnable group from the home group round the ring and moves its cursor, the end of the chunk wrapping at 32 bits |
| PhasedDispatch.Scheduler.RetireChunk | runtime/fpprt.c:548-559 | retires a chunk of the group that holds its start; the last of a phase opens the next phase, with the count of chunks as 32 bits give it, or finishes the group |
| PhasedDispatch.Scheduler.Setup | runtime/fpprt.c:595-623 | splits the range into groups that differ by at most one, each at the start of phase 0 with the count of chunks as 32 bits give it; with no chunk asked for, the least one of which eight for each group are more than the range |
| PhasedDispatch.SlicedIsFresh | runtime/fpprt.c:610-621 | those slices tile the range |
| PhasedRun.AtMostOnce | runtime/fpprt.c:561-588 | with room for every chunk no phase of any index is ever run twice, nor anything outside the range |
| PhasedRun.FinishedIsDone | runtime/fpprt.c:561-588 | with room for every chunk: once any worker is told the dispatch is finished, every phase of every index has run exactly once and come back |
| PhasedRun.FinishedFits | runtime/fpprt.c:523-588 | once any worker is told the dispatch is finished, every phase of every index has been run once and nothing else has, if and only if there was room for every chunk; so it is with the ranges being proper |
| PhasedRun.RunUntilSpoilt | runtime/fpprt.c:523-588 | if no count wraps, a run keeps the invariant until some phase of some index is passed over for good, or the kernel is called below the range |
| PhasedRun.SpoiltNotExact | runtime/fpprt.c:523-588 | and then it has not been run once for everything and for nothing else |
| PhasedPool.PhasedIsOver | runtime/fpprt.c:561-627 | when the caller of a phased dispatch is back from the pool, every phase of every index has been run exactly once and nothing else, if and only if there was room for every chunk; no count has wrapped and every worker has finished |
| PhasedPool.AllLeft | runtime/fpprt.c:561-627 | when the caller is back every worker has been told that all is finished |
| PhasedRun.NeverFinishes | runtime/fpprt.c:523-559 | if the count of a group's chunks wraps at 32 bits, no worker is ever told that the dispatch is finished |
| PhasedRun.RunUntilBackward | runtime/fpprt.c:523-588 | if no count wraps, a run keeps the invariant until the kernel is given a range that ends below its start |
| PhasedRun.EnoughRoom | runtime/fpprt.c:523-545 | a range and a chunk that make at most 2^31 leave room for every chunk |
| PhasedRun.HugeChunkHangs | runtime/fpprt.c:523-588 | eight indices in chunks of 2^31 - 1: a run to a state with nothing in flight in which every grab finds nothing |
| PhasedRun.LastChunkWraps | runtime/fpprt.c:531-546 | 2^31 - 1 indices, two groups, chunks of 2^30: a run in which the kernel is given an end of -2^31 |
| PhasedRun.GroupBarrier | runtime/fpprt.c:548-559 | a chunk of phase p runs only when every earlier phase of its whole group has come back, and all in flight of a group are of one phase |
| PhasedEnds.CanFinish | runtime/fpprt.c:561-588 | with room for every chunk every worker of a run can come to be told that all is finished |
| PhasedPoolEnds.CanReturn | runtime/fpprt.c:561-627 | with room for every chunk the caller of a phased dispatch can always come back |
| PhasedRun.GrabsNearest | runtime/fpprt.c:531-546 | the chunk grabbed is of the first group from home round the ring that has one, in its current phase, from its cursor on |
| PhasedRun.NothingOnlyWhileBusy | runtime/fpprt.c:531-588 | with room for every chunk, "nothing runnable" is the answer only while some chunk is in flight |
| PhasedRun.NothingIsNone | runtime/fpprt.c:531-546 | the ring search misses no runnable group |
| PhasedRun.StepKeepsInv | runtime/fpprt.c:523-588 | every step of every worker keeps the invariant, or gives the kernel a range that ends below its start; with room for every chunk it keeps the invariant |
| PhasedRun.RunKeepsInv | runtime/fpprt.c:523-588 | so with room for every chunk every state of every run satisfies it, and no range ends below its start |
| PoolDispatch.DispatchIsOver | runtime/fpprt.c:468-495 | when the caller is back all calls have returned and every pool thread is parked for good; every index was in exactly one kernel call, and nothing else in any, if and only if the cursor had room in 32 bits for all threads |
| PoolEnds.CanReturn | runtime/fpprt.c:425-495 | with room for the cursor the caller of a dispatch can always come back |
| PoolDispatch.JoinHasCause | runtime/fpprt.c:468-495 | a caller asleep in the join waits for a thread that has yet to leave |
| PoolDispatch.EnoughRoom | runtime/fpprt.c:425-438 | a range and one chunk for every thread that make at most 2^31 are enough |
| PoolDispatch.HugeChunkRunsTwice | runtime/fpprt.c:425-438 | a run of one index with the largest chunk and three threads in which index 0 is run twice |
| PoolDispatch.StepKeepsInv | runtime/fpprt.c:425-458 | every step of the caller and of any pool thread keeps the invariant, the cursor wrapping at 32 bits |
| PoolDispatch.RunKeepsInv | runtime/fpprt.c:425-495 | so every state of every run satisfies it |
| SplayTree.SplayFrom | runtime/gc/src/splay-tree.h:100-166 | the descent with a dummy node permutes nothing and leaves a root with everything before the key on its left and after it on its right |
| SplayTree.Tree.Splay | runtime/gc/src/splay-tree.h:100-166 | the spans and their order stay, and the span with the key is at the root if there is one |
| SplayTree.OnlyRootHolds | runtime/gc/src/splay-tree.h:177-183 | after the splay only the root can hold the key |
| SplayTree.Tree.Lookup | runtime/gc/src/splay-tree.h:177-183 | finds the span that holds the key if and only if there is one |
| SplayTree.Tree.Previous | runtime/gc/src/splay-tree.h:168-175 | the span next before the root in order |
| SplayTree.Tree.Insert | runtime/gc/src/splay-tree.h:190-221 | adds exactly one span in its place, or gives the value to the node that has that span |
| SplayTree.Tree.Shrink | runtime/gc/src/large-object-space.h:500-504 | a span cut short where it stands stays in its place in order, and the tree stays a tree of disjoint spans |
| SplayTree.Tree.Remove | runtime/gc/src/splay-tree.h:223-240 | removes exactly one span: the holder of the key if there is one, and otherwise the one between the spans below the key and those above it |
| SplayTree.SplitHolds | runtime/gc/src/splay-tree.h:223-240 | the span removed holds the key if and only if some span does |
| SplayTree.RemoveMisses | runtime/gc/src/splay-tree.h:223-240 | a key that misses the only span of a tree: the span goes all the same |
| SplayTree.NothingAbove | runtime/gc/src/splay-tree.h:223-240 | the second splay brings up a root without a right child |
| SplayTree.Tree.JoinSides | runtime/gc/src/splay-tree.h:223-240 | so hanging the right subtree there loses nothing |
| AddressHash.UnhashHash64 | runtime/gc/src/address-hash.h:8-43 | the 64-bit mixer and its inverse undo each other on every word |
| AddressHash.UnhashHash32 | runtime/gc/src/address-hash.h:8-43 | so do the 32-bit ones |
| AddressHash.FoldInverse | runtime/gc/src/address-hash.h:26-43 | a shift-and-xor by at least a third of the width is undone by doing it twice over, both ways |
| AddressHash.FoldTwiceOver | runtime/gc/src/address-hash.h:8-16 | one by at least half the width undoes itself |
| AddressHash.TimesInverse | runtime/gc/src/address-hash.h:8-43 | multiplication by an odd constant is undone by its inverse |
| RobinHood.Path | runtime/gc/src/address-map.h:63-95 | every slot from an entry's home up to it is full and at least as far from home as its offset |
| RobinHood.NotThere | runtime/gc/src/address-map.h:138-155 | a search that meets an empty slot, or an entry closer to home than the search, has missed nothing |
| RobinHood.StopsInTime | runtime/gc/src/address-map.h:73-80 | with one empty slot every probe ends before it has gone round |
| RobinHood.InsertedOrdered | runtime/gc/src/address-map.h:84-95 | moving the run up and putting the entry in its place keeps displacements rising by at most one |
| RobinHood.InsertedUnique | runtime/gc/src/address-map.h:73-95 | and every key once |
| RobinHood.InsertedRepresents | runtime/gc/src/address-map.h:73-95 | and the map gains the pair |
| RobinHood.RemovedOrdered | runtime/gc/src/address-map.h:123-137 | the backward shift keeps displacements rising by at most one |
| RobinHood.RemovedUnique | runtime/gc/src/address-map.h:123-137 | and every key once |
| RobinHood.RemovedRepresents | runtime/gc/src/address-map.h:123-137 | and the map loses the key |
| RobinHood.Overwritten | runtime/gc/src/address-map.h:78-83 | overwriting the value of a key that is there keeps all of it |
| Ring.SlotAfter | runtime/gc/src/address-map.h:42-48 | the slot of an index past the end is found by going round |
| Ring.DistanceIs | runtime/gc/src/address-map.h:63-65 | the masked difference, wrap-around included, is the distance round the ring |
| AddressMap.HashTable.DoInsert | runtime/gc/src/address-map.h:73-95 | the table in its arrays refines the map with the pair added or overwritten, and counts its items |
| AddressMap.HashTable.Insert | runtime/gc/src/address-map.h:118-122 | the same through growth at seven eighths full |
| AddressMap.HashTable.Remove | runtime/gc/src/address-map.h:123-137 | the same for removal and shrinking; a key that is not there is the trap |
| AddressMap.HashTable.Populate | runtime/gc/src/address-map.h:97-117 | rehashing into a table of another size keeps the map |
| AddressMap.HashTable.Find | runtime/gc/src/address-map.h:138-155 | early-exit search is exact: found if and only if in the map, and then its value |
| AddressMap.HashTable.Each | runtime/gc/src/address-map.h:156-165 | a walk over the slots hands out every pair once, as many as items are counted |
| AddressMap.Map.Insert | runtime/gc/src/address-map.h:184-186 | an address is in the map after it is added, and no other changes |
| AddressMap.Map.Remove | runtime/gc/src/address-map.h:187-189 | and gone after it is removed |
| AddressMap.Map.Lookup | runtime/gc/src/address-map.h:193-196 | its value or the default |
| AddressMap.Map.Each | runtime/gc/src/address-map.h:202-214 | the addresses themselves are handed out, each once with its value |
| AddressMap.EachUnhashed | runtime/gc/src/address-map.h:202-214 | undoing the hash of each key of a listing lists the addresses |
| SeenSet.Set.Insert | runtime/fpprt.c:647-667 | the growing open-addressing set tells exactly whether a value is new, and then holds it |
| SeenSet.Set.Grow | runtime/fpprt.c:648-659 | doubling keeps the set |
| SeenSet.NotThere | runtime/fpprt.c:660-664 | a probe that meets an empty slot has missed nothing |
| SeenSet.Placed | runtime/fpprt.c:660-667 | a value put in the first empty slot from its home keeps every chain unbroken |
| UniquenessQuery.Query | runtime/fpprt.c:669-725 | the result is the smaller of two and the number of static slots that hold the target and of words that do so among those where the layout of a struct or a reference array puts a reference, over the objects reachable without passing through the target; each object is scanned at most once, below two exactly once |
| UniquenessQuery.FieldsOf | runtime/fpprt.c:700-712 | the words scanned are those of the layout, each once |
| UniquenessQuery.SeedStatics | runtime/fpprt.c:676-686 | every static slot that holds the target counts, and all others are seen |
| UniquenessQuery.SeedFrames | runtime/fpprt.c:687-699 | frame slots start the marking but never count |
| UniquenessQuery.ScanObject | runtime/fpprt.c:700-722 | each field adds one if it holds the target, until two are counted |
| UniquenessQuery.Drain | runtime/fpprt.c:700-725 | the work list ends, and with a count under two everything reachable has been scanned |
| UniquenessQuery.AllReached | runtime/fpprt.c:700-722 | with an empty work list the scanned objects are exactly the reachable ones |
| UniquenessQuery.PathSeen | runtime/fpprt.c:700-722 | whatever a path from a seed leads to has been seen |
| Swar.MatchIs | runtime/gc/src/swar.h:39-162 | the match of a whole word marks exactly the bytes the test hits, for each of the three tests |
| Swar.WordAddEach | runtime/gc/src/swar.h:91-109 | when no byte overflows the addition in the word is the eight additions in the bytes: nothing is carried across |
| Swar.TagSumIs | runtime/gc/src/swar.h:91-109 | which is so for the tag test, whatever the bytes |
| Swar.CountZeroBytesIs | runtime/gc/src/swar.h:6-9 | counting trailing zeros gives the first byte marked |
| Swar.LenIs | runtime/gc/src/swar.h:66-89 | counting leading zeros gives the last |
| Swar.LateStart | runtime/gc/src/swar.h:44-64 | bytes before an unaligned start do not matter |
| Swar.EarlyEnd | runtime/gc/src/swar.h:66-89 | nor do bytes from an unaligned end on |
| Swar.ScanFor | runtime/gc/src/swar.h:44-64 | the forward scan returns the index of the first byte the test hits if that is in a word it looks at, and else the limit, for every alignment, limit and content; exactly when that is the smaller of the two |
| Swar.AlignedEnd | runtime/gc/src/swar.h:44-64 | with an aligned end it always is |
| Swar.ScanPastLimit | runtime/gc/src/swar.h:44-64 | limit 4 and the first hit at byte 5 of a word: the result is 5 |
| Swar.ScanBackwardsFor | runtime/gc/src/swar.h:66-89 | the backward scan returns the last place before the pointer that has any of the bits, or nothing |
| HoleSet.BigEnough | runtime/gc/src/nofl-holeset.h:51-69 | a hole from the list a request looks at, or a later one, is big enough |
| HoleSet.MissesNothing | runtime/gc/src/nofl-holeset.h:51-69 | lists before the request's hold only smaller holes if and only if it asks for up to 50 granules or for 512 |
| HoleSet.OneHoleMissed | runtime/gc/src/nofl-holeset.h:51-69 | a set whose one hole is of just the size asked for is said to have none exactly for sizes over 50 and under 512 |
| HoleSet.HoleMissed | runtime/gc/src/nofl-holeset.h:71-130 | a hole of 51 granules put in an empty set is not found when 51 granules are asked for |
| HoleSet.NoneBigEnough | runtime/gc/src/nofl-holeset.h:97-104 | so for those sizes failure means that no hole is big enough |
| HoleSet.Local.Push | runtime/gc/src/nofl-holeset.h:71-89 | a hole of zeros joins the set; its link and, over 50 granules, its size are written in it and nothing else is; bitmap, heads and links still lead to just the holes of the set |
| HoleSet.Local.Pop | runtime/gc/src/nofl-holeset.h:37-45 | the first hole of the first list that holds any is unlinked and its words are cleared: it is all zero |
| HoleSet.Local.TryPop | runtime/gc/src/nofl-holeset.h:97-130 | takes a hole at least as big as asked from the first list that holds one and puts its tail back; what is taken is all zero and nothing outside the hole is written; takes nothing if and only if no hole is on the lists it looks at |
| HoleSet.ValidHeaders | runtime/gc/src/nofl-holeset.h:14-22 | the holes of a set hold links to holes of the same list, the sizes of the larger ones, and zeros |
| HoleSet.AllZero | runtime/gc/src/nofl-holeset.h:71-89 | and are all zero if and only if none is over 50 granules and no two are of the same size |
| HoleSet.HoleNotZero | runtime/gc/src/nofl-holeset.h:71-89 | a hole of 51 granules put in an empty set: its second granule holds the size |
| HoleSet.AfterPopCovers | runtime/gc/src/nofl-holeset.h:97-130 | taking granules from a hole gives just those granules up |
| HoleSet.AfterPopApart | runtime/gc/src/nofl-holeset.h:91-130 | and the holes left do not overlap |
| HoleSet.Release | runtime/gc/src/nofl-holeset.h:132-153 | all holes go to the shared set, none lost, each list linked by its first hole to the chain it joins, and nothing outside the holes is written |
| HoleSet.Acquire | runtime/gc/src/nofl-holeset.h:155-184 | a whole list comes back, only from places that suit the request, and is cut off from its chain; none is lost |
| HoleSet.SecondChance | runtime/gc/src/nofl-space.h:961-971 | a hole from the own or the shared set, never failing after a list was taken; together the two sets lose just the granules handed out, and these are all zero |
| Sweeper.Sweeper.NextHole | runtime/gc/src/nofl-space.h:769-819 | skips survivors without touching them, clears the next hole and nothing else, and counts it |
| Sweeper.Sweeper.FinishHole | runtime/gc/src/nofl-space.h:744-754 | what is left of a hole is counted as fragmentation; if collected it joins the hole set, which writes in it, and otherwise no memory is written |
| Sweeper.Sweeper.Bump | runtime/gc/src/nofl-space.h:952-959 | allocation takes zeroed granules from the hole at hand and writes only their metadata, from which the object is read back as young, of the trace kind and of the size asked for |
| Sweeper.Sweeper.FinishSweeping | runtime/gc/src/nofl-space.h:821-828 | survivors keep metadata and contents; without collecting the free granules are all zero; with it just they join the hole set, as holes that end at a survivor or the end of the block, and are zero but for headers; hole granules are what no survivor takes, fragmentation is what of them was not handed out |
| Sweeper.EndHits | runtime/gc/src/nofl-space.h:265-270 | the test that ends an object is for the sixth bit of its byte |
| Sweeper.CountsAdd | runtime/gc/src/nofl-space.h:821-828 | hole granules and live granules add up to the block |
| Sweeper.HoleIs | runtime/gc/src/nofl-space.h:799-812 | the scan for the mark ends a hole at the next survivor or the end of the block |
| Sweeper.PastSurvivor | runtime/gc/src/nofl-space.h:783-792 | a survivor is skipped by its end bit, and stays inside the block |
| Histogram.BucketAtLeast | runtime/gc/api/gc-histogram.h:8-31 | for every 64-bit value, its bucket is at or past one exactly when the value reaches what the code gives as the bucket's least value, if and only if the bucket is one that 64-bit values reach |
| Histogram.MinFits | runtime/gc/api/gc-histogram.h:23-31 | the least value of a bucket fits in 64 bits exactly for those buckets |
| Histogram.AllReached | runtime/gc/api/gc-histogram.h:33-41 | every bucket is one when the bits of the values and the precision make at most 64 |
| Histogram.LastMinIsZero | runtime/gc/api/gc-histogram.h:23-41 | 63 bits and precision 2: the least value of the last bucket, 252, is given as 0, and no value has that bucket |
| Histogram.BucketMonotone | runtime/gc/api/gc-histogram.h:8-22 | buckets keep the order of values |
| LargeIndexes.Indexes.Add | runtime/gc/src/large-object-space.h:500-511 | a node joins the splay tree by its span and the hash map by its address, and nothing else changes |
| LargeIndexes.Indexes.Shorten | runtime/gc/src/large-object-space.h:500-504 | a node's span is cut short in the tree where it stands, and nothing else changes |
| LargeIndexes.Indexes.Drop | runtime/gc/src/large-object-space.h:366-369 | removing by address takes just that node from the map and from the tree |
| LargeIndexes.Indexes.Around | runtime/gc/src/large-object-space.h:438-443 | the tree finds the node whose span holds an address if and only if there is one |
| LargeIndexes.ChangedEntry | runtime/gc/src/large-object-space.h:500-504 | a span replaced in the order of the tree changes just its own entry |
| LargeObjects.Space.Alloc | runtime/gc/src/large-object-space.h:475-548 | the first hole big enough, from the list of the request's class up and in the order of the lists, is reused, its tail made a dead node of its own, if and only if some dead node is big enough; only otherwise is fresh memory used; the hash map, the splay tree and the lists still agree |
| LargeObjects.Space.Resolve | runtime/gc/src/large-object-space.h:396-444 | an address is resolved to the node that starts there or, if it may be an interior one, to the node whose span holds it; to none if and only if there is none |
| LargeObjects.Space.FindHole | runtime/gc/src/large-object-space.h:481-490 | finds the first hole big enough on the first list from the request's class up that has one; none only if no dead node is big enough |
| LargeObjects.FirstHoleIsLeast | runtime/gc/src/large-object-space.h:481-490 | no hole big enough is of a smaller class than the one found |
| LargeObjects.NoneFound | runtime/gc/src/large-object-space.h:481-490 | lists before the request's class hold only smaller holes |
| LargeObjects.Space.AddToFreelist | runtime/gc/src/large-object-space.h:310-324 | a dead node joins the list of its class with every link right |
| LargeObjects.Space.RemoveFromFreelist | runtime/gc/src/large-object-space.h:326-337 | a node taken off leaves every link right, wherever in its list it was |
| LargeObjects.PushedKeeps | runtime/gc/src/large-object-space.h:310-324 | after a push every dead node is on the list of its class |
| LargeObjects.UnlinkedKeeps | runtime/gc/src/large-object-space.h:326-337 | after an unlink the node is on no list and all others are where they were |
| LargeObjects.TrimKeeps | runtime/gc/src/large-object-space.h:500-515 | the rest of a span cut short is clear of every other, and with a node for it map, tree and nodes agree again |
| LargeObjects.DropKeeps | runtime/gc/src/large-object-space.h:366-369 | without a node and its entries map, tree and nodes agree |
| LargeObjects.Space.Mark | runtime/gc/src/large-object-space.h:235-253 | marks the live object at an address and nothing else, and tells whether it was not yet marked |
| LargeObjects.Space.FinishGc | runtime/gc/src/large-object-space.h:339-394 | a walk over the hash map: exactly the live nodes without the mark die and join the quarantine |
| LargeObjects.Space.ProcessQuarantine | runtime/gc/src/large-object-space.h:352-374 | dead nodes in their second round leave every index, the others age by one, live ones stay |
| TextCodec.DecodeEncode | runtime/fpprt-lang.c:62-100 | decoding the encoder's bytes gives back any 16-bit units, lone surrogates included, and the first pass counts them |
| TextCodec.EncodeDecode | runtime/fpprt-lang.c:134-159 | encoding the decoder's units gives back any UTF-8 that is well formed by section 4 of RFC 3629, and the first pass counts exactly the units written |
| TextCodec.CountedEnough | runtime/fpprt-lang.c:62-72 | the first pass never counts too few units, and exactly enough if and only if no four-byte character stands for a code point below 0x10000 |
| TextCodec.LongFormCounted | runtime/fpprt-lang.c:62-98 | the bytes f0 80 80 80 are counted as two units and decoded to one |
| TextCodec.PayloadIs | runtime/fpprt-lang.c:76-88 | whatever the bytes, the code point has as its digits to the base 64 the low six bits of the bytes after the first, and above them the low bits of the first |
| TextCodec.PointBack | runtime/fpprt-lang.c:76-98 | the decoder reads the code point that was encoded |
| TextCodec.CharBack | runtime/fpprt-lang.c:141-158 | the encoder writes the proper character that was decoded |
| TextCodec.StrUtf8 | runtime/fpprt-lang.c:62-100 | the two loops write the units decoded, in an array of the length counted, zeros after them |
| TextCodec.Prints | runtime/fpprt-lang.c:134-159 | the printing loop sends the bytes encoded |

## Left out

- Memory below the object: a heap is a map from addresses to objects (sequences of words); that objects tile their region is proved, bytes are not modelled. The state byte and the epoch of an ephemeron have a word each, its link words none.
- In the semispace model the pending buckets and the resolved list are sequences; the pointer-level lists and their races are in `EphemeronRace.dfy`.
- The per-kind tracing loops are one loop over the slots of the kind.
- Finalizers (this runtime registers none), the external space, resizing of the semispaces and pages taken from them for large objects; both regions have the same active size throughout.
- The mark of a large object in the semispace model is membership in a set; the byte and its toggle are in `LargeObjects.dfy`.
- Allocation between two collections: a collection starts from any well-formed heap.
- Weak memory orderings, signals, spinning, yielding and fairness: sequentially consistent steps; a blocked thread is one that cannot step. That something can come to its end says that some run gets there from every state, not that a scheduler lets it.
- Skipping a collection by comparing kinds in `mmc.c`, and the linked list of mutators there.
- `shared_worklist_push_many` and `address_set_union`.
- `address-set.h`: the same table without values.
- Generational mode, conservative roots, field logging, pinning.
- Heap sizers, paging and page counters, yield thresholds.
- `PhasedRun.NeverFinishes`: does not model the count of chunks falling below -2^31, which takes 2^31 chunks of one group retired after it wrapped; a sum that overflows 32 bits is taken to wrap.
- The number of calls and the generation of a dispatch are unbounded.
- The deques in `TraceTermination.dfy` are bags of references, and a thief may always turn away; `ChaseLev.dfy` is the deque. Objects stay marked over the traces of one collection; the references of objects and roots do not change during it.
- Remembered edges, extents, clearing of memory, page counts and the nursery map of the large-object space. Its nodes are records in a map by number, the number being the pointer; the splay tree's own nodes hold the spans.
- `LargeObjects.Space.Resolve`: outside a collection, when the extents are empty, and with the displacement of an address that cannot be an interior one already taken off.
- `Histogram.BucketAtLeast`: for precisions below 31; from there on the source shifts an `int` out of its width.
- The other functions of the histogram (record, maximum, count, percentile): sums over its array.
- The bucket share of a hole is computed in exact integers; the quotient of doubles in the source rounds to the same integer for all sizes below a block.
- The bitmap of a hole set is a sequence of bits; the pointer to a hole is the number of its granule in memory. `nofl_holeset_clear`, which forgets all holes.
- Allocation of a block's list structure in `nofl-space.h`: a sweep is of one block.
- `TextCodec.StrUtf8`: does not model reading past the end of input that stops inside a character; the source demands whole characters.
- `UniquenessQuery.Query`: does not follow tagged objects, arrays of flat structs or ephemerons, as the source does not; a comment there says that arrays of flat structs carry no references (`runtime/fpprt.c:720`), but the tracer visits theirs (`runtime/fpprt-embedder.h:145-158`).
- Index arithmetic is over unbounded integers except where the width matters: hashes, words of eight bytes, code units, the least values of histogram buckets, and the cursors, chunk ends and chunk counts of dispatches wrap as in the source.
- Mixed-type comparison, text concatenation and hashing of values.
