# Verified models of the preemption runtime, its allocator and its Cholesky driver

The repository holds a user-level threading runtime (Argobots) extended with preemption by kernel-thread
switching, a two-level pool allocator patched into MKL, and a tiled Cholesky factorisation that runs on top.
This project models the parts whose correctness depends on an interleaving, on pointer or array surgery, or on
a dependence graph, and proves what they are for. `dafny verify dfyconfig.toml` checks all of it.

| file | subject |
|---|---|
| `TileDataflow`, `TaskGraph`, `FactorLaws`, `TiledMatrix` | the tiled Cholesky task graph and its in-place matrix |
| `TileCopy` | copying ragged tiles out of and into a column-major array |
| `PoolAllocator` (modules `PoolSpec`, `PoolAllocator`), `PoolProtocol` | the pool allocator, in place and under any interleaving |
| `MutexProtocol`, `MutexOrder`, `WaiterTable` | the 0/1/2 mutex with direct handover, who gets it and when, and its table of waiters |
| `KltSwitching`, `KltResume`, `PreemptionChain` | the hand-off of an execution stream (ES) between kernel threads, who goes on where, and the chain of signals |
| `UltBlocking`, `JoinWaits`, `StopTest` | blocking, waking and joining, and what they promise; the test by which an ES ends |
| `StencilProgram`, `StencilRuns`, `FibonacciTasks` | two parallel example programs and their sequential meaning |
| `UnitList`, `Rendezvous`, `KeyTable` (modules `KeyTable`, `KeyReferences`) | the intrusive list, barriers, eventuals, futures, keys |
| `Basics` | an option type and a counting function that several of them share |

## How it is modelled

Code that one thread runs is written as classes with the source's fields, methods with loops, and a
specification function or a ghost field that each method is proved against. Protocols are step relations on
values: a `State`, an `Action`, `Enabled` and `Do`, and `Run`, which executes a sequence of actions if each is
enabled in its turn. A theorem about `Run` from a start state is a theorem about every interleaving of any
length, over any number of threads. Steps are sequentially consistent. The steps are taken from these places:

* `TaskGraph`: a task is one `omp task` of `potrf` with its tokens; two tasks whose tokens meet, one of them in
  an `inout`, run in creation order, and a task's own kernels have ended when it ends (`taskwait`). Inside a
  task only the order diagonal kernel, then solves is kept, and only in the panel task
  (chol/Slate_Matrix.hh:283-338). A kernel reads and overwrites tiles as in chol/Slate_Tile.hh:82-128 and is
  otherwise an uninterpreted function, so floating point is covered.
* `PoolProtocol`: a critical section of `pool_alloc` or `pool_free` is one step; every carved element and every
  new page is a step of its own (chol/mkl_patch/pool.h:550-789). `AllocRun` shows that what the method
  `PoolAllocator.Alloc` does is such a run. A block array is flattened: element i of block b is slot 64 b + i.
* `MutexProtocol`: every atomic access of `val`, `p_handover` and `p_giver` is a step
  (argobots/src/include/abti_mutex.h:76-168, argobots/src/mutex.c:185-266, 478-570, 669-836); the locked
  region of a wait is two, and `switch_low` is one (argobots/src/thread_htable.c:221-255). The row of an
  `unlock_se` is that of the ES it runs on (argobots/src/mutex.c:506-510). An ES runs one ULT at a time, and
  inside the call a ULT neither yields nor is preempted (argobots/src/preemption_timer.c:242): so a ULT may
  start one on a row only while no other is between its decrement and the end of the handover or of the reset
  there. In `WakeOne` the
  model may wake from any non-empty row and unlink any empty rows, of which the code does one particular choice.
* `KltSwitching`: picking, yielding, stopping and readying a ULT, the preemption handler before and during the
  sleep of its kernel thread, the base thread, `exit_main`, `back_to_main`, and allocation of a new sub-ES
  (argobots/src/sub_stream.c:38-204, 336-412, 498-655; argobots/src/preemption_timer.c:46-154;
  argobots/src/stream.c:1580-1708). The callback that runs between going to sleep and waking the next thread
  is part of the step, and popping the global list is atomic.
* `UltBlocking`: the writes of `state`, `request`, `num_blocked`, the pool and the join link are steps
  (argobots/src/thread.c:393-515, 2094-2175; argobots/src/stream.c:1658-1708;
  argobots/src/arch/abtd_thread.c:100-186; argobots/src/include/abti_pool.h:45-57, 124-141). A test that decides
  how to act is one step with the write it decides, and what is written right before a context switch is one
  step with the switch: READY in a yield (argobots/src/include/abti_thread.h:386-402), RUNNING of a ULT that is
  started, the link and the two states of a direct join. A private pool has one consumer, and only that ES
  pops from it. A join through the JOIN request is allowed between any two ULTs, also where the code falls back
  on yielding. An ES may end whenever its scheduler has nothing in hand.
* `StopTest` puts around this the test by which an ES ends: each pool's size and each `num_blocked` are read in
  steps of their own, in the order of the pools, with steps of everybody else in between
  (argobots/src/sched/sched.c:699-736). The same sum is evaluated by `has_to_stop`, once and again on a FINISH
  request, and by the ES itself after `run` has returned (argobots/src/sched/sched.c:492-535,
  argobots/src/stream.c:1486-1520); `run` may also return without asking, on an exit request
  (argobots/src/sched/sched.c:498-503) or because a user wrote it so. The fields `clean` and `seen` only record
  the past.
* `StencilRuns`: computing one cell, raising one flag (with its mutex and condition variable) and
  waking who sleeps for it, testing one flag and sleeping if it is down, going on after being woken without a
  second look at the flag, and writing one cell are steps (argobots/examples/stencil_thread_cond.c:49-170).
* `FibonacciTasks`: an expand task is a step; an aggregate task is two, the locked addition and what follows it
  (argobots/examples/fibonacci_task.c:50-128). Using a freed node sets `fault`.

Four results mark boundaries. `StopTest.TornReading` is a run in which an ES ends although a ULT of its private
pool is unfinished, because the size was read before and `num_blocked` after the ULT was readied: one evaluation
of the effective size on its own is not enough. `StopTest.SafeIffAskedTwice` gives the exact condition: an earlier
evaluation by the same ES has read 0 too, and it has run no ULT since. That is so whenever `has_to_stop` has
agreed on a FINISH request; it need not be so after an exit request or a `run` that returns by itself.
`MutexProtocol.StrandedWithoutWakeups` gives a run after which a waiter sleeps for
good on a free mutex if `max_wakeups` is 0; with `max_wakeups` at least 1 `NoStrandedWaiter` excludes it.
`PoolSpec.RefillEnds` shows that filling an empty local pool ends if and only if the rounded element size is at
most 32 MiB - 128. `KltSwitching.ForeignMain` is a reachable state that one might not expect: an ES may run on
another ES's main sub-ES.

## Model

| member | source | states |
|---|---|---|
| `TaskGraph.SubmitTasks` | chol/Slate_Matrix.hh:283-337 | the master loop creates exactly the panel, lookahead and trailing tasks of every step, each once, in creation order |
| `TaskGraph.OverwritesOrdered` | chol/Slate_Matrix.hh:285-337 | consecutive overwrites of one tile are ordered by tokens, although a trailing task names only its first and its last column |
| `TaskGraph.SourcesOrdered` | chol/Slate_Matrix.hh:285-337 | the last overwrite of a tile is ordered before every kernel that reads it |
| `TaskGraph.ConflictsOrdered` | chol/Slate_Matrix.hh:273-342 | no race: any two kernels that touch one tile, one of them writing, are joined by a chain of tokens, for every tile count and lookahead |
| `TaskGraph.SameStepOrder` | chol/Slate_Matrix.hh:285-337 | the converse: two kernels of one step are ordered by a chain of tokens if and only if one is the diagonal tile or a solve and the other comes after it, so no look-ahead task of a step waits for another or for the trailing task |
| `TaskGraph.LookaheadOverlaps` | chol/Slate_Matrix.hh:307-337 | the trailing update of a step is unordered with every later kernel on the columns within the look-ahead, later panels included |
| `TaskGraph.SerialSchedule` | chol/Slate_Matrix.hh:273-342 | the sequential right-looking order is one of the schedules the tokens allow |
| `TaskGraph.NextIsReady` | chol/Slate_Matrix.hh:283-338 | in every schedule, a kernel finds its target at the right step and its sources final |
| `TaskGraph.ScheduleIndependence` | chol/Slate_Matrix.hh:273-342 | every allowed execution order leaves the same tiles, whatever the kernels compute and whatever the lookahead |
| `TileDataflow.OpIsOpAt` | chol/Slate_Matrix.hh:285-338 | each kernel call is the k-th overwrite of exactly one lower tile and reads only tiles of column k |
| `TileDataflow.ReadyStep` | chol/Slate_Tile.hh:82-128 | executing a kernel whose sources are final moves its target from one stage to the next and changes nothing else |
| `TileDataflow.NextRow` | chol/Slate_Matrix.hh:283-337 | in the sequential order the next kernel is always ready |
| `FactorLaws.FactorIsCholesky` | chol/Slate_Matrix.hh:285-338 | given the exact laws of the kernels, A(m,n) is the sum over k <= n of L(m,k) times the transpose of L(n,k) |
| `FactorLaws.ScheduleFactorises` | chol/Slate_Matrix.hh:273-342 | the same equation for the tiles that any schedule leaves, for every lookahead |
| `TiledMatrix.TileStore.Call` | chol/Slate_Tile.hh:82-128 | one kernel call on the shared tiles, in place, equals one step of the dataflow |
| `TiledMatrix.Matrix.View` | chol/Slate_Matrix.hh:56-72 | a view shares the tiles of its matrix and adds its offsets, also for a view of a view |
| `TiledMatrix.Matrix.UpdateColumn` | chol/Slate_Matrix.hh:318-331 | a lookahead task updates one whole block column with column k |
| `TiledMatrix.Matrix.SyrkTask` | chol/Slate_Matrix.hh:116-138 | the trailing update, column by column, finishes step k of every tile of the view |
| `TiledMatrix.Matrix.SyrkNest` | chol/Slate_Matrix.hh:142-165 | the trailing update with all diagonals first finishes the same kernels |
| `TiledMatrix.Matrix.FactorPanel` | chol/Slate_Matrix.hh:285-306 | the panel task makes column k final |
| `TiledMatrix.Matrix.UpdateTrailing` | chol/Slate_Matrix.hh:307-337 | lookahead columns and trailing view together finish step k, for any lookahead |
| `TiledMatrix.Matrix.Potrf` | chol/Slate_Matrix.hh:273-342 | run in place by one thread it leaves exactly the tiles all schedules leave, for every lookahead and either trailing update |
| `TileCopy.Tile.constructor` | chol/Slate_Tile.hh:69-76 | a tile owns fresh storage of mb times nb elements |
| `TileCopy.Tile.CopyTo` | chol/Slate_Tile.hh:42-46 | the tile receives exactly its block of the column-major array, for any leading dimension |
| `TileCopy.Tile.CopyFrom` | chol/Slate_Tile.hh:47-51 | the block receives the tile and every other element of the array is unchanged |
| `TileCopy.TileRows` | chol/Slate_Matrix.hh:46-55 | the tile count of the constructor is the number of tiles that start inside the matrix, the ragged one included |
| `TileCopy.Matrix.CopyTo` | chol/Slate_Matrix.hh:92-101 | every element of a tile with j <= i is held by the tile that covers it |
| `TileCopy.Matrix.CopyFrom` | chol/Slate_Matrix.hh:105-112 | exactly the elements of tiles with j <= i are overwritten, each from its tile |
| `TileCopy.Matrix.RoundTrip` | chol/Slate_Matrix.hh:92-112 | copying in from one array and out to another, or to the same, restores exactly those elements and changes no other, with different leading dimensions and ragged edges |
| `PoolSpec.EnoughPages` | chol/mkl_patch/pool.h:587-645 | 128 pages always suffice to fill a local pool if an element fits in a page |
| `PoolSpec.TakesAllItCan` | chol/mkl_patch/pool.h:558-587 | what is taken is a stretch right below the partial last block, of whole blocks, two of them unless fewer than 64 elements stay behind |
| `PoolSpec.GivenThenTaken` | chol/mkl_patch/pool.h:558-748 | two blocks given back are the two that the next refill takes, and the global pool is as before |
| `PoolSpec.PageElements` | chol/mkl_patch/pool.h:617-652 | a page gives elements side by side from its start, as many as are needed or fit, and the rest is kept if another one fits |
| `PoolSpec.TooLarge` | chol/mkl_patch/pool.h:587-645 | an element larger than a page minus its header is never carved, however many pages are added |
| `PoolSpec.RefillEnds` | chol/mkl_patch/pool.h:587-645 | filling an empty local pool ends if and only if the rounded element size is at most 32 MiB - 128 |
| `PoolSpec.LockPotential` | chol/mkl_patch/pool.h:553-766 | 128 per lock taken, plus the distance of the local count from empty or full, is paid for by the operations, from any count |
| `PoolSpec.LockBound` | chol/mkl_patch/pool.h:553-766 | N operations of a thread take the global lock at most 1 + N/128 times |
| `PoolSpec.LockGap` | chol/mkl_patch/pool.h:553-766 | between two operations that take the lock there are at least 127 that do not |
| `PoolSpec.LockAttained` | chol/mkl_patch/pool.h:553-573 | allocating only, every 128th operation takes the lock, so the bound is reached |
| `PoolAllocator.Memory.Malloc` | chol/mkl_patch/pool.h:610-616 | a new page is 128-byte aligned and overlaps no page handed out before |
| `PoolAllocator.GlobalPool.RemoveBlocks` | chol/mkl_patch/pool.h:569-578 | whole blocks leave from below the partial last block, which slides down |
| `PoolAllocator.GlobalPool.TakeBlocks` | chol/mkl_patch/pool.h:558-587 | moves full blocks and keeps the rest, a partial last block included, for any element count: two, or all but fewer than 64 elements |
| `PoolAllocator.GlobalPool.AddPage` | chol/mkl_patch/pool.h:457-464 | a page enters the bulk list in front of all others |
| `PoolAllocator.GlobalPool.Extend` | chol/mkl_patch/pool.h:725-737 | growing the block array keeps the contents and makes room |
| `PoolAllocator.GlobalPool.InsertBlocks` | chol/mkl_patch/pool.h:739-747 | the top two local blocks are inserted below the partial last block |
| `PoolAllocator.GlobalPool.GiveBlocks` | chol/mkl_patch/pool.h:723-748 | giving back two blocks, extending if need be, for any element count |
| `PoolAllocator.CarvePage` | chol/mkl_patch/pool.h:617-652 | carves elements from one page until the pool is filled or the page has no room, and drops a rest that is too small |
| `PoolAllocator.RefillBlocks` | chol/mkl_patch/pool.h:587-660 | the loop ends, with 128 elements and the page rest the specification gives; each fresh page is taken only when what was there before it does not fill the pool |
| `PoolAllocator.Alloc` | chol/mkl_patch/pool.h:550-717 | returns the top of the local stack; an empty one is refilled from the global pool first and from pages only as far as that does not suffice, so with 128 global elements nothing is carved, no page is taken and the page rest is unchanged; takes the lock exactly when it was empty |
| `PoolAllocator.Free` | chol/mkl_patch/pool.h:719-789 | pushes the element; a full stack gives its top two blocks to the global pool first; takes the lock exactly then |
| `PoolProtocol.TakeConserves` | chol/mkl_patch/pool.h:558-587 | taking blocks neither loses nor duplicates an element |
| `PoolProtocol.GiveConserves` | chol/mkl_patch/pool.h:738-748 | giving blocks neither loses nor duplicates an element |
| `PoolProtocol.RunKeeps` | chol/mkl_patch/pool.h:550-789 | after any interleaving every carved element has its one place and the page layout is sound |
| `PoolProtocol.Conservation` | chol/mkl_patch/pool.h:550-789 | every carved element is in exactly one place: outstanding, in one local stack, in one pool being refilled, or global; and nothing else is anywhere |
| `PoolProtocol.HandedOutIsSound` | chol/mkl_patch/pool.h:587-660 | an outstanding element is 128-byte aligned, inside a page past its header, and overlaps no other carved element |
| `PoolProtocol.RefillRun` | chol/mkl_patch/pool.h:587-660 | the refill specification, met by the loop, is a run of single carving steps |
| `PoolProtocol.AllocRun` | chol/mkl_patch/pool.h:550-717 | the effect of Alloc on an empty local pool is a run of the protocol, so its theorems apply to the method |
| `PoolProtocol.PopRun` | chol/mkl_patch/pool.h:700-716 | on a local pool that is not empty, Alloc is a run too |
| `PoolProtocol.FreeRun` | chol/mkl_patch/pool.h:719-789 | the effect of Free, on a full local pool or another, is a run of the protocol |
| `MutexProtocol.Preserve` | argobots/src/mutex.c:185-836 | every step keeps the mutex invariant: one owner, rows that match the blocked ULTs, a giver that is owed its push |
| `MutexProtocol.RunKeeps` | argobots/src/mutex.c:185-836 | the invariant, and with max_wakeups >= 1 the cover of every waiter, hold after every run |
| `MutexProtocol.MutualExclusion` | argobots/src/mutex.c:185-570 | at most one ULT owns the mutex, val is 0 exactly if none does, num_handovers stays within max_handovers, and a giver waits for a receiver that exists |
| `MutexProtocol.HandoverBound` | argobots/src/mutex.c:504-566 | between two full releases by unlock_se on a row, at most max_handovers receivers are taken from that row, counted along the run and not by num_handovers |
| `MutexProtocol.CountStep` | argobots/src/mutex.c:512-556 | every step keeps one unlock_se at work per row, num_handovers at or above the handovers made, and none made between a full release and its reset |
| `MutexOrder.NumHandoversIs` | argobots/src/mutex.c:512-556 | num_handovers of a row is exactly the number of its handovers since an unlock_se there last released the mutex at the maximum, but for the time until that one resets it |
| `MutexOrder.HandsToOldest` | argobots/src/mutex.c:504-566 | from every reachable state, an undisturbed unlock_se below the maximum gives the mutex to the oldest high waiter of a row with more than one, or, if no high row is linked, to the oldest low one of a row with more than one; the mutex is not free in between and the giver goes on |
| `MutexOrder.ReleasesToAll` | argobots/src/mutex.c:512-551 | in every other case it frees the mutex, takes nobody out of a row, and resets num_handovers afterwards exactly if it stood at the maximum |
| `MutexOrder.LowOnlyWithoutHigh` | argobots/src/mutex.c:523-551 | in every run, unlock_se decides for a low-priority receiver, and an unlock wakes a low-priority waiter, only if no high-priority waiter is queued in any row |
| `MutexOrder.OldestLeaves` | argobots/src/thread_htable.c:55-255 | in reachable states nobody but the oldest waiter of a row leaves it, and only by a handover, a wake-up or switch_low |
| `MutexOrder.RowsAreQueues` | argobots/src/thread_htable.c:55-255 | in every run, those who have left a row followed by those still in it are those who came to it, in the order they came |
| `MutexOrder.WakesAllItMay` | argobots/src/mutex.c:775-836 | in every run, an unlock that ends has woken max_wakeups waiters, or has found all rows empty |
| `MutexOrder.FreeMutexIsTaken` | argobots/src/include/abti_mutex.h:76-168 | in every run, lock and trylock take a mutex nobody has at the first try, and trylock on another changes nothing |
| `MutexOrder.GetsOrWaits` | argobots/src/mutex.c:205-266 | from every reachable state, a ULT in the loop of lock that is left alone gets the mutex if it is free, and otherwise waits at the end of its row with val 2, within five steps |
| `MutexOrder.WhoCanStep` | argobots/src/mutex.c:185-836 | in every run, only a ULT blocked in a row and a giver cannot step by themselves, and one about to wait needs the table lock, whose holder can step |
| `MutexProtocol.PreserveCovered` | argobots/src/mutex.c:478-836 | no step uncovers a waiter: val stays 2, or a releaser, a receiver or a woken contender is under way |
| `MutexProtocol.NoStrandedWaiter` | argobots/src/mutex.c:669-836 | while a ULT is queued the mutex is held with value 2, or somebody is about to release, to receive or to contend |
| `MutexProtocol.WaiterHasHelp` | argobots/src/mutex.c:185-836 | while a ULT is queued and nobody is inside the critical section, some ULT on the way to helping it can step |
| `MutexProtocol.StrandedWithoutWakeups` | argobots/src/mutex.c:775-836 | with max_wakeups = 0 there is a run after which a waiter sleeps on a free mutex and everybody else is idle |
| `WaiterTable.Waiters.PushHigh` | argobots/src/thread_htable.c:55-85 | the new contents are one step of the history that ArrivalOrder and PlaceKept are about; the waiter is last in its row, and the row is linked |
| `WaiterTable.Waiters.PushLow` | argobots/src/thread_htable.c:114-144 | the same for the low queue |
| `WaiterTable.Waiters.HandOver` | argobots/src/thread_htable.c:173-195 | takes the head of a row and leaves the list of rows as it is, so an empty row may stay linked |
| `WaiterTable.Waiters.HandOverLow` | argobots/src/thread_htable.c:197-219 | the same for the low queue |
| `WaiterTable.Waiters.TakeHigh` | argobots/src/mutex.c:783-809 | skips and unlinks empty rows, wakes the head of the first other row and moves that row to the back |
| `WaiterTable.Waiters.TakeLow` | argobots/src/mutex.c:811-832 | the same for the low queues |
| `WaiterTable.Waiters.WakeOne` | argobots/src/mutex.c:779-835 | one round of the wake-up: high first, then low |
| `WaiterTable.Waiters.WakeDe` | argobots/src/mutex.c:775-836 | the wake-up loop equals the specification whose properties the next rows give |
| `WaiterTable.NextKeeps` | argobots/src/mutex.c:783-809 | one look keeps every non-empty row linked, finds a waiter if and only if there is one, and takes exactly that one |
| `WaiterTable.WakeCount` | argobots/src/mutex.c:775-836 | exactly min(max_wakeups, queued) waiters are woken and the invariant is kept |
| `WaiterTable.HighBeforeLow` | argobots/src/mutex.c:775-836 | all wake-ups from high queues come before any from low queues, and the low ones are what the high ones leave room for |
| `WaiterTable.FirstInFirstOut` | argobots/src/mutex.c:775-836 | each row's woken waiters followed by those that remain are its queue, in order |
| `WaiterTable.RoundRobin` | argobots/src/mutex.c:783-809 | a non-empty row at position i of the list is served within the first i + 1 wake-ups |
| `WaiterTable.CallTakes` | argobots/src/thread_htable.c:55-219 | what one call does to a row: it takes from the front and adds at the back |
| `WaiterTable.ArrivalOrder` | argobots/src/thread_htable.c:55-219 | over any pushes, handovers and wake-ups, those taken from a row followed by those still queued are those pushed to it, in push order |
| `WaiterTable.PlaceKept` | argobots/src/include/abti_thread_htable.h:99-150 | a linked row keeps its place in the list through pushes and handovers, so nobody overtakes it |
| `KltSwitching.StepKeeps` | argobots/src/sub_stream.c:38-204 | every step keeps each sub-ES and each ULT in its one place and each base thread with a target |
| `KltSwitching.RunKeeps` | argobots/src/sub_stream.c:38-204 | the invariant after every run |
| `KltSwitching.EveryEsIsHeld` | argobots/src/sub_stream.c:38-157 | in every reachable state each ES has a sub-ES holding it, and two ESs never the same |
| `KltSwitching.EverySubInOnePlace` | argobots/src/sub_stream.c:336-655 | every sub-ES is in exactly one place: current, claimed, pinned to a preempted ULT, in one local list, global, or a parked or called main; mains are never in a list |
| `KltSwitching.EveryUltInOnePlace` | argobots/src/preemption_timer.c:46-154 | a ULT is never both on an ES and in a pool, nor on two ESs, nor twice in a pool, preempted or not |
| `KltSwitching.SomebodyToWake` | argobots/src/sub_stream.c:38-56 | a base thread that goes to sleep always has another sub-ES to wake, in the place the invariant says |
| `KltSwitching.BaseOnlyToWake` | argobots/src/sub_stream.c:58-204 | a base context runs exactly while p_wakeup_thread is set, the woken thread holds no ES, and a thread woken for the scheduler never finds it set |
| `KltResume.BackOnMain` | argobots/src/sub_stream.c:370-412 | in every run, after back_to_main by a ULT or the scheduler of an ES and the next sleep of its base thread, the same one executes on the ES's own main, whatever other ESs do in between |
| `KltResume.ExitsMain` | argobots/src/sub_stream.c:336-368 | after exit_main the ES goes on with its scheduler on the free sub-ES it took, with the ULT that called it, if one did, to be pushed to its pool |
| `KltResume.PushesNext` | argobots/src/sub_stream.c:58-157 | an ES that has a ULT to push can do nothing else first; the ULT is then in a pool and the scheduler runs |
| `KltResume.HandsOver` | argobots/src/preemption_timer.c:46-154 | a preempted ULT stays on its kernel thread, and its ES goes on with the scheduler on the free one the handler took |
| `KltResume.PinsAreThere` | argobots/src/preemption_timer.c:46-154 | in every run, a preempted ULT is pinned to the kernel thread on which it was preempted last |
| `KltResume.RunsOrResumes` | argobots/src/stream.c:1580-1657 | in every run, a ULT that the scheduler picks executes: at once, or, if it was preempted, on the very kernel thread on which it was preempted last |
| `KltResume.KeepsRunning` | argobots/src/preemption_timer.c:46-154 | a ULT keeps its ES and its kernel thread unless it leaves of its own accord or is preempted, and that needs a free kernel thread |
| `KltResume.YieldedIsPooled` | argobots/src/stream.c:1658-1708 | a ULT that has yielded is in its pool until somebody picks it |
| `KltResume.StoppedIsOff` | argobots/src/stream.c:1658-1708 | a ULT that has blocked is neither in a pool nor executed or resumed by any ES until it is readied |
| `KltResume.SleepThenTake` | argobots/src/sub_stream.c:498-655 | the lists are stacks, the local one bounded and before the global one: the sub-ES that goes to sleep is the next to be taken, and taking it undoes the sleep |
| `KltResume.EveryEsCanStep` | argobots/src/sub_stream.c:38-204 | in every run, whatever an ES is executing can go on: the scheduler and the ULTs with all their choices, a base thread by going to sleep |
| `KltSwitching.ForeignMain` | argobots/src/sub_stream.c:159-204 | a reachable run after which an ES is held by the main sub-ES of another |
| `UltBlocking.StepKeeps` | argobots/src/thread.c:393-515 | every step keeps the invariant: places, flags by program point, joiner and target agree, num_blocked equals its ledger |
| `UltBlocking.RunKeeps` | argobots/src/thread.c:2094-2175 | the invariant after every run |
| `UltBlocking.EveryUltInOnePlace` | argobots/src/thread.c:2094-2175 | every ULT is in exactly one place at every step: on one ES, once in one pool, off (blocked or being readied), or done |
| `UltBlocking.NeverUndercounted` | argobots/src/thread.c:432-500 | queued plus num_blocked is at least the number of the pool's unfinished ULTs that no ES holds, at every step of block, ready and join |
| `JoinWaits.JoinWaitsForEnd` | argobots/src/thread.c:393-500 | in every run, a ULT that has begun to join, directly or through the JOIN request, is still inside the join, or its target has terminated or got past waking it |
| `JoinWaits.LeavesWhenGone` | argobots/src/thread.c:466-500 | in every run, a step that takes a ULT out of a join, its return from waiting included, finds the target terminated or past the wake-up |
| `JoinWaits.EndWaitHasHelp` | argobots/src/arch/abtd_thread.c:148-160 | a target that has found JOIN set and waits for its link is not let down: the ULT that set JOIN runs on an ES, between the request and the link, and its next step is enabled and leads towards the link or sets it |
| `JoinWaits.JoinerGoesOn` | argobots/src/arch/abtd_thread.c:100-130 | a ULT whose joiner last ran on its ES ends by going on as the joiner, which was blocked and in no pool; two steps later that runs user code, counted as blocked once less |
| `JoinWaits.SleepsUntilWoken` | argobots/src/thread.c:2094-2140 | in every run, a ULT that has begun to block for something else is on its way to sleep or asleep until it is woken, and runs no user code before |
| `JoinWaits.WakesIntoPool` | argobots/src/thread.c:2141-2170 | three steps of set_ready bring a sleeping ULT into its pool, and a fourth corrects the count |
| `JoinWaits.RunSpins` | argobots/src/thread.c:425-446 | in every run, the target that a direct join waits to find in the pool is there, or somebody can push it |
| `JoinWaits.NobodyIsStuck` | argobots/src/thread.c:393-515 | in every run, whatever an ES is executing can go on, with all the choices user code has; only the waits for a link and for a pushed target can hold it up |
| `StopTest.StepKeeps` | argobots/src/sched/sched.c:699-736 | every step, of the one who reads or of anybody else, keeps what the readings so far tell about the pools |
| `StopTest.RunKeeps` | argobots/src/stream.c:1486-1520 | the same after every run |
| `StopTest.BlockedMeans` | argobots/src/sched/sched.c:711-727 | num_blocked is never negative, and 0 in an idle ES's private pool means that each of its unfinished ULTs is queued |
| `StopTest.AgreesWhenDrained` | argobots/src/sched/sched.c:492-535 | when has_to_stop agrees, the ULTs of the private pools that existed when the second evaluation read the size have terminated, and the others are queued |
| `StopTest.StopLeavesNone` | argobots/src/sched/sched.c:493-535 | once an ES has ended, by any path, an unfinished ULT of its private pools is READY in its pool; if has_to_stop agreed, or an earlier evaluation had read 0 with no ULT run since, the unfinished ones are exactly those created after their pool's size was read |
| `StopTest.TornReading` | argobots/src/sched/sched.c:498-503 | one evaluation is not enough: a run that ends with a ULT left that existed when the size was read |
| `StopTest.SafeIffAskedTwice` | argobots/src/stream.c:1512-1520 | ending on 0 guarantees that none is left if and only if an earlier evaluation had read 0 too, with no ULT run since |
| `UltBlocking.JoinerIsOwed` | argobots/src/arch/abtd_thread.c:100-186 | a sleeping joiner that nobody is waking is linked from a target that has not terminated, and a target that waits for a link finds its joiner still blocked |
| `UltBlocking.DispatchTimes` | argobots/src/stream.c:1658-1708 | the dispatch makes a ULT done, off, or keeps it with the ES until it is pushed back, exactly one of these, and moves no other ULT |
| `PreemptionChain.Group.PreemptAnother` | argobots/src/preemption_timer.c:163-208 | the handler's loop and updates equal the specification: a stale signal resets the group, otherwise the next preemptive ES before the end is signalled |
| `PreemptionChain.Group.PreemptFirst` | argobots/src/preemption_timer.c:211-227 | the timer starts a chain at the first preemptive ES unless one is under way |
| `PreemptionChain.CascadeIsAhead` | argobots/src/preemption_timer.c:163-208 | an undisturbed cascade signals exactly the preemptive ESs ahead in cyclic order and ends idle |
| `PreemptionChain.TickVisitsAll` | argobots/src/preemption_timer.c:163-208 | from idle, a tick at ES i signals every other preemptive ES exactly once, i and the others never, and the group is idle again |
| `PreemptionChain.TimerStarts` | argobots/src/preemption_timer.c:211-227 | from idle, the timer signals the lowest preemptive ES, or nobody if there is none |
| `PreemptionChain.TimerVisitsAll` | argobots/src/preemption_timer.c:163-227 | the chain the timer starts reaches every preemptive ES exactly once |
| `PreemptionChain.TimerLeavesChain` | argobots/src/preemption_timer.c:211-227 | a timer tick while a chain is under way signals nobody, and the chain still reaches exactly the preemptive ESs ahead |
| `PreemptionChain.StrayEndsChain` | argobots/src/preemption_timer.c:163-186 | a signal that arrives out of turn ends the chain without signalling anybody, and the next tick at any ES makes a full round |
| `PreemptionChain.TicksKeep` | argobots/src/preemption_timer.c:211-245 | stray ticks and timer firings keep the group well formed |
| `PreemptionChain.HandleDecreases` | argobots/src/preemption_timer.c:163-208 | every handled signal decreases the measure, stray signals pending and flags changing or not |
| `PreemptionChain.CascadeDiesOut` | argobots/src/preemption_timer.c:163-208 | once the timers stop, the number of further handlers is bounded by the measure, in any order of delivery |
| `StencilProgram.InProgram` | argobots/examples/stencil_thread_cond.c:49-170 | which cells a ULT computes and writes and which flags it raises and waits for |
| `StencilProgram.ProgramOrdered` | argobots/examples/stencil_thread_cond.c:49-170 | a ULT computes all its cells before it raises a flag, raises all before it waits, and waits for all before it writes |
| `StencilProgram.EdgeMeaning` | argobots/examples/stencil_thread_cond.c:69-146 | an edge is exactly the cells of the block with a neighbour cell in another block, so the corner cases of the loop bounds agree |
| `StencilProgram.WhoSignals` | argobots/examples/stencil_thread_cond.c:69-146 | every flag that is waited for is raised by some block |
| `StencilProgram.ReadOver` | argobots/examples/stencil_thread_cond.c:69-146 | a block that reads a cell of another block is the only one to raise the flag that block waits for before writing it |
| `StencilProgram.IndexInjective` | argobots/examples/stencil_thread_cond.c:30-48 | distinct flags have distinct slots of the ready array |
| `StencilRuns.NotOverwritten` | argobots/examples/stencil_thread_cond.c:49-170 | whenever a cell is computed, each neighbour cell still has its old value |
| `StencilRuns.StepKeeps` | argobots/examples/stencil_thread_cond.c:49-170 | every step of every ULT keeps the invariant of the iteration |
| `StencilRuns.IterationIsJacobi` | argobots/examples/stencil_thread_cond.c:49-170 | after any complete interleaving every interior cell is the average of its old neighbours and every other cell is unchanged |
| `StencilRuns.NeverStuck` | argobots/examples/stencil_thread_cond.c:94-146 | as long as some ULT has not finished, some ULT can step |
| `StencilRuns.RunIsSequential` | argobots/examples/stencil_thread_cond.c:172-209 | any number of iterations, each under its own interleaving, give the iterated sequential stencil, for any block size and count |
| `FibonacciTasks.StepKeeps` | argobots/examples/fibonacci_task.c:50-128 | every task keeps the invariant that ties nodes, pending tasks and partial results to the call tree |
| `FibonacciTasks.EventualIsFib` | argobots/examples/fibonacci_task.c:50-157 | in every order no freed node is used, the eventual is set at most once and only to Fib(n), and when no task is left it is set and every node is freed |
| `FibonacciTasks.TwoResultsEach` | argobots/examples/fibonacci_task.c:96-128 | no node receives more than two results; the one that finishes a node has seen exactly two, is the only one, and finds Fib of its argument |
| `FibonacciTasks.FreedOnce` | argobots/examples/fibonacci_task.c:50-128 | at any time a record has been freed exactly if it was created and is gone, exactly once, and after exactly two results if it was an inner node, none if a leaf |
| `FibonacciTasks.SomeTask` | argobots/examples/fibonacci_task.c:50-128 | while a node exists a task is pending, so nothing is stuck |
| `FibonacciTasks.MeasureStep` | argobots/examples/fibonacci_task.c:50-128 | every task decreases the measure |
| `FibonacciTasks.RunsEnd` | argobots/examples/fibonacci_task.c:130-157 | a run has at most Weight(n) steps, in any order |
| `FibonacciTasks.Verify` | argobots/examples/fibonacci_task.c:160-173 | the loop over two cells computes Fib(n), also for n <= 2 and negative n |
| `UnitList.WithoutNeighbours` | argobots/examples/sched_and_pool_user.c:506-517 | after a removal each remaining unit's cyclic neighbours are its old ones, except that the two beside the gap meet |
| `UnitList.Chain.Append` | argobots/examples/sched_and_pool_user.c:377-404 | linking at the tail appends to the sequence of units |
| `UnitList.Chain.Bypass` | argobots/examples/sched_and_pool_user.c:510-517 | the pointer updates of a removal, with head and tail in all cases |
| `UnitList.Chain.Unlink` | argobots/examples/sched_and_pool_user.c:506-526 | removing anywhere keeps the order of the rest; the unit's own links are null |
| `UnitList.FifoPool.Size` | argobots/examples/sched_and_pool_user.c:369-375 | the counter is the number of linked units |
| `UnitList.FifoPool.Push` | argobots/examples/sched_and_pool_user.c:405-431 | push appends and marks the unit as in this pool |
| `UnitList.FifoPool.Pop` | argobots/examples/sched_and_pool_user.c:433-490 | pop returns the oldest unit, unmarked, or none from an empty pool |
| `UnitList.FifoPool.Remove` | argobots/examples/sched_and_pool_user.c:530-563 | the two error codes arise exactly as tested and change nothing; success removes exactly that unit |
| `UnitList.FifoPool.IsInPool` | argobots/examples/sched_and_pool_user.c:599-603 | a unit reports to be in the pool if and only if it is linked |
| `UnitList.CondWaiters.Enqueue` | argobots/src/include/abti_cond.h:66-152 | a waiter is appended, or refused exactly if the others wait with another mutex, and then nothing changes |
| `UnitList.CondWaiters.Signal` | argobots/src/cond.c:291-339 | the oldest waiter leaves; the last one to leave frees the mutex |
| `UnitList.CondWaiters.RemoveUnit` | argobots/src/cond.c:146-177 | a timed-out waiter leaves wherever it stands, and one already signalled is left alone |
| `Rendezvous.Barrier.Wait` | argobots/src/barrier.c:152-232 | an arrival waits, or as the last of the round readies all the others in order and resets the count |
| `Rendezvous.Barrier.Reinit` | argobots/src/barrier.c:63-95 | a new size, with or without a new array, on an empty barrier |
| `Rendezvous.RoundSoFar` | argobots/src/barrier.c:152-232 | after any number of rounds the waiters are the arrivals since the last full round |
| `Rendezvous.ReadiedByLast` | argobots/src/barrier.c:152-232 | the last arrival of a round readies exactly the n - 1 before it, any other arrival nobody |
| `Rendezvous.LastOfRoundIs` | argobots/src/barrier.c:152-232 | the last of arrival i's round is arrival (i / n + 1) n - 1 |
| `Rendezvous.ReleasedOnce` | argobots/src/barrier.c:152-232 | each arrival that blocks is readied by exactly one other, the last of its own round |
| `Rendezvous.Eventual.Wait` | argobots/src/eventual.c:109-176 | blocks if and only if nothing was set |
| `Rendezvous.Eventual.Set` | argobots/src/eventual.c:237-293 | stores the value and readies every waiter once, in order |
| `Rendezvous.EventualConserves` | argobots/src/eventual.c:109-293 | over any calls, those readied and those waiting are those that blocked, in order; nobody waits once it is set; the value is that of the last set |
| `Rendezvous.Future.Wait` | argobots/src/futures.c:134-200 | blocks if and only if the future is not ready |
| `Rendezvous.Future.Set` | argobots/src/futures.c:249-311 | stores in the next compartment; the last one makes it ready, calls back with all values, then readies every waiter |
| `Rendezvous.FutureRun` | argobots/src/futures.c:249-311 | over any calls the callback runs exactly once, with the values in set order, before any waiter is readied, and each blocked caller is readied exactly once |
| `KeyTable.FreeKey` | argobots/src/key.c:78-104 | the user's reference goes; the key object is freed if it was the last |
| `KeyTable.Table.constructor` | argobots/src/key.c:223-233 | a new table is the empty map |
| `KeyTable.Table.Get` | argobots/src/key.c:298-313 | looks up the finite map, null if absent |
| `KeyTable.Table.Set` | argobots/src/key.c:270-296 | updates the finite map; a new entry, and only a new one, takes a reference; num is the size |
| `KeyTable.Inserted` | argobots/src/key.c:286-295 | a new head element keeps its chain in agreement with the updated map |
| `KeyTable.Table.FreeElem` | argobots/src/key.c:243-256 | one element: its destructor if there is one and the value is not null, one reference less, the key freed if it was the last and the user has let go |
| `KeyTable.Table.Free` | argobots/src/key.c:235-263 | each destructor of a non-null value runs exactly once with that value, and each key held loses exactly one reference |
| `KeyReferences.RunKeeps` | argobots/src/key.c:78-296 | the reference-count invariant over any number of tables and keys and any order of steps |
| `KeyReferences.CountIsHolders` | argobots/src/key.c:78-296 | refcount is the number of tables that hold the key, plus one until the user has released it |
| `KeyReferences.FreedOnce` | argobots/src/key.c:78-263 | a key is freed at most once, and has been freed exactly if the user has released it and no table holds it; never while a table does |

## Left out

- `syrk_batch`: its index is never initialised (chol/Slate_Matrix.hh:218).
- `syrk_task` and `syrk_nest` with more than one block column of `a`, and `Matrix::trsm`: `potrf` calls none of these.
- The packing calls after a solve (chol/Slate_Matrix.hh:299-303): a packed copy is taken to be the tile itself.
- The numerical kernels: MKL is not part of this model; they are uninterpreted, or satisfy stated exact laws.
- TileCopy.Matrix.CopyTo: the row and column counts are positive, and an array that is too short is excluded, as the source demands of its caller.
- PoolAllocator.Alloc: an element size of 0 fails the source's assertion and is excluded; a rounded size above 32 MiB - 128 never returns, by RefillEnds.
- PoolAllocator.Memory.Malloc: addresses are unbounded integers and memory is never exhausted.
- Of the allocator: thread exit and `pool_destroy` (they drop local stacks), the extensible arrays and the entry table, and the list-based and page-less configurations.
- The protocols (`MutexProtocol`, `KltSwitching`, `UltBlocking`, `PoolProtocol`, `StencilRuns`, `FibonacciTasks`, `KeyReferences`) are step relations on values, because other threads interleave within a call: records are found by identifier, and pointers to them, stacks and register contexts are not captured. The loops of the stencil's `compute` are given as the sequence of operations they perform.
- Weak memory orderings, and failures of allocation or of the operating system.
- WaiterTable.Waiters.WakeDe: queues and lists of rows are sequences, so the next and previous pointers of argobots/src/include/abti_thread_htable.h:99-173 are not captured; UnitList shows such pointers for the pool.
- MutexProtocol.NoStrandedWaiter: max_wakeups is at least 1; StrandedWithoutWakeups shows why. Fairness is not modelled, so it is safety, and WaiterHasHelp says that help can step.
- `ABT_mutex_spinlock` on external threads and tasklets, and `ABT_CONFIG_USE_SIMPLE_MUTEX`.
- KltSwitching.EverySubInOnePlace: a hand-off and a pop of the global list are single steps; the CAS loops of the lists under reuse of nodes are not modelled. Freeing sub-ESs at shutdown is not modelled.
- UltBlocking.EveryUltInOnePlace: each blocked ULT is readied by one call of set_ready at a time and each ULT is joined by at most one other, which is what the callers have to see to. Migration (with `num_migrations` in the effective size), cancellation, stacked schedulers, orphan and no-push requests, tasklets and external threads are not modelled.
- StopTest.StopLeavesNone: an EXIT or CANCEL request to the ES itself ends it without a test (argobots/src/stream.c:1505-1508). A ULT that somebody creates in the pool after its size was read stays there, as the contract says; that nobody does is up to the callers.
- `ABT_thread_yield_to`, joining by yielding, and joining from an external thread: they only poll the state.
- JoinWaits.NobodyIsStuck: it says who can step, not that a scheduler lets everybody step; fairness is not modelled.
- PreemptionChain.Group.PreemptAnother: handlers are atomic and the timer is on; with the timer off a handler does not pass the signal on.
- StencilRuns.IterationIsJacobi: a cell's value is uninterpreted, so is the average of four. Creating and joining the ULTs between iterations is one boundary.
- FibonacciTasks.EventualIsFib: results are unbounded, so the overflow of `int` above n = 46 is not modelled.
- UnitList.FifoPool.Push: the unit is in no pool, which the source's caller has to see to. The shared versions take a lock, and `pool_remove_shared` tests the counter and the unit's pool before it does (argobots/examples/sched_and_pool_user.c:500-507); only calls without interference are modelled.
- UnitList.CondWaiters.Signal: a signal is atomic, and a waiter's node outlives it. `ABT_cond_broadcast` is one wake-up per waiter.
- Rendezvous.Barrier.Wait: a barrier has at least one waiter, and Reinit is called on an empty one, as the source asserts.
- Rendezvous.Future.Set: a set beyond the compartments, which the source reports as an error after it has written past the array, is excluded. The callback is taken to be there.
- `ABT_eventual_reset`, `ABT_future_reset` (it keeps the counter) and waiting on external threads.
- KeyReferences.FreedOnce: no value is set under a key the user has released; `ABTI_ktable_delete`, which does not give its reference back, is not modelled.
- KeyTable.Table.Set: chains are sequences, so their next pointers are not captured.
- Events, info, attributes, tracing, PETSc, HPGMG, LAMMPS, BOLT and the benchmark drivers.
