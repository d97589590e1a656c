# Verified models of nuclei

nuclei is an async runtime. Its hardest code keeps a shared structure exact while many threads act
on it: the IO buffer pool, the queue of woken tasks, `JoinSet`, the cooperative budget. This project
models that code, and the smaller exact parts beside it (the key of a shard-local static, the
attribute macros' parser and printer, the ring sizing rule), and proves what the runtime promises of
it over every input and every interleaving.

`dafny verify dfyconfig.toml` checks everything.

## How it is laid out

| files | what they hold |
|---|---|
| `Prelude`, `SizeClasses` | machine-word limits; size classes, layouts, and the bytes of a set of allocations |
| `SharedPool`, `SharedPoolProofs`, `SharedPoolRuns`, `SharedPoolTally`, `SharedPoolFence`, `SharedPoolRefusal` | the pool and its shared home as a machine of atomic steps: one owner, any number of threads giving buffers back, the drop of each |
| `Pool` | the pool as its own thread calls it: a class with the ledger, the free lists and the allocator |
| `PoolBuf` | a pool's buffer as a bounded byte queue over an array |
| `Inbox`, `InboxProofs`, `InboxLooks` | the intrusive queue of woken items, pointer by pointer |
| `AtomicWaker` | the one-slot cell an awaiting task's waker is registered in |
| `JoinSet`, `JoinSetProofs`, `JoinSetRuns`, `JoinSetFairness` | `JoinSet` and the wakes that reach it from other threads |
| `JoinSetCalls` | `JoinSet`'s own calls as a class, each a run of the machine |
| `Coop` | the cooperative budget over every tree of nested polls |
| `ShardKey` | the race for a shard-local static's key |
| `MacroTokens`, `MacroFn`, `MacroOptions`, `MacroExpand` | the attribute macros: both parsers, and the expansions |
| `RingConfig` | the io_uring sizing rule and the profiles |

The concurrent parts are machines: a `State`, an `Action` for each atomic step, `Enabled` and `Apply`.
A thread's place in its call is its program counter. Fields the comments call history are written by
steps and read by none. A step that would misuse memory sets a `fault` flag rather than being ruled
out, and the theorem is that no run sets it. `Reachable` says some finite run from the start leads to
a state; every main result is about all reachable states or all runs. Steps are sequentially
consistent, with one exception: the store of the pool's `waiting` flag sits in a store buffer that
only a fence, a swap or the hardware drains. `SharedPoolFence` shows the same machine losing a wake
when that fence drains nothing.

Widths are explicit: `usize` and `u64` are 64 bits, sums that saturate or wrap in the source do so
here. `Alloc` of the pool's heap may fail at any call.

Some promises turned out not to hold for all inputs. Each has a failing input and its exact condition:

- `Pool::reserve` promises to keep a smallest buffer's room beside the reservation. Its check saturates,
  so under a cap of `usize::MAX` a reservation of everything passes the check and its charge
  (`Pools.LeavesNoRoom`). A call keeps the promise exactly when the cap is lower or the reservation so
  far, the bytes asked for and 512 add up within 64 bits (`Pools.LeavesRoomExactly`).
- `make_room` promises to keep the ledger within the cap. Its check saturates as well, so under the same
  cap it never refuses, and the second smallest buffer after `reserve(usize::MAX - 512)` makes the
  ledger come round (`Pools.LedgerComesRound`). The charge stays within the cap exactly when the cap is
  lower or the sum is within 64 bits (`Pools.FitsExactly`, and for the machine's books
  `SharedPoolRuns.GuardExact`). Runs of the pool's machine take any cap, with these two guards
  (`Guarded`) on the steps that reserve and charge; below `usize::MAX` every step meets them.
- `could_hold_whole` rounds to pages on 64 bits. For the longest length it looks at no bytes
  (`Pools.LooksAtNothing`), and it is right exactly up to 2^64 - 4096 (`Pools.LookedAtExactly`).
- Shard-local keys come from a counter that wraps. Keys are coherent in every run that takes fewer than
  2^64 numbers, and no larger bound would do (`ShardKey.OneKeyEachExactly`).
- `PoolBuf::set_filled_at` adds its offset and length on 64 bits. Its bounds stay in order exactly when
  that sum does not wrap (`PoolBufs.FilledBoundsExactly`, with an input in
  `PoolBufs.FilledBoundsCross`); `fill_at` never makes it wrap.
- The inbox's `is_empty`, as the comments of `src/rt/inbox.rs` say too, may answer true with items in
  the queue (`InboxLooks.LooksEmpty`). It is right exactly when it answers false or the taker's end is
  the stub (`InboxLooks.LooksExactly`).

## Model

| member | source | states |
|---|---|---|
| SharedPoolProofs.StepKeeps | src/buf/mod.rs:131-216 | every step of every thread keeps the whole invariant: each allocation in one place, chains linked, references counted, ledger exact, wakes on their way |
| SharedPoolRuns.NoLostWake | src/buf/mod.rs:467-496 | with no thread inside a call and a waker still queued: the pool is not dropped, the flag is up, the return list and the free lists are empty, and every allocation is out, one at least |
| SharedPoolRuns.WokenOnce | src/buf/mod.rs:170-176 | pop and call being two steps that the loops of several threads interleave: wakers leave the queue in the order they came; those ever queued are, each counted once, those called, those in the hand of a thread about to call them, and those still queued; with no thread inside a call no hand holds one |
| SharedPoolRuns.DropWakesAll | src/buf/mod.rs:508-510 | with the pool dropped and no thread inside a call, no waker is queued and each was called as often as it was queued |
| SharedPoolRuns.LedgerExact | src/buf/mod.rs:425-464 | in every reachable state until the pool's drop begins the ledger is the reservation plus the bytes of every live allocation plus a charge whose memory has not come, within 64 bits; the reservation leaves a smallest buffer; under a cap never lowered it never passes the cap |
| SharedPoolRuns.GuardExact | src/buf/mod.rs:425-458 | from any reachable state a step of `make_room` leaves the ledger exact if and only if it is guarded: the cap is below the largest `usize`, or the charge's sum is within 64 bits |
| SharedPoolRuns.NeverFaults | src/buf/mod.rs:179-216 | no run frees twice, frees with another layout, touches freed memory or a dropped home, or takes the ledger or the reference count below zero, in whatever order pool, buffers, list and home go |
| SharedPoolRuns.NothingLeaks | src/buf/mod.rs:499-512 | once the home is gone nothing is allocated and nobody holds it |
| SharedPoolTally.TakenExactlyOnce | src/buf/mod.rs:131-208 | over every run, for every buffer: pushes on the return list equal visits of a taken list, plus one if it is still to be visited; a head taken, reused and pushed again changes nothing |
| SharedPoolTally.ListAcyclic | src/buf/mod.rs:109-153 | in every reachable state the links from the head end, pass no buffer twice, and pass exactly the buffers given back and not taken |
| SharedPoolTally.NeverStuck | src/buf/mod.rs:131-177 | in every reachable state every call in progress, the owner's, a giver's or the home's drop, has a step to take |
| SharedPoolTally.RaisesUnderCap | src/buf/mod.rs:425-458 | any guarded step of any run that raises the ledger ends at or under the cap |
| SharedPoolRefusal.ExactRefusal | src/buf/mod.rs:318-376 | a request run to its end, through the return list, `make_room`'s frees and the grant, with no giver on, a cap never lowered and an allocator that does not fail, gets a buffer that was not out if and only if its bytes fit beside the reservation and the bytes out |
| SharedPoolFence.FenceNeeded | src/buf/mod.rs:154-156 | without the fence's drain some run ends with nobody in a call, a waker queued, and the only buffer lying on the return list |
| SizeClasses.TopFor | src/buf/mod.rs:66-68 | the largest class within the room, none exactly when the room holds no smallest buffer |
| SizeClasses.ClassFor | src/buf/mod.rs:72-77 | the smallest class that holds the request, or the largest class |
| SizeClasses.NextPage | src/buf/mod.rs:337 | the least multiple of 4096 not below the request |
| SizeClasses.TotalRemove | src/buf/mod.rs:433-435 | the bytes of a set of allocations less one are the bytes less that one's, whichever it is |
| Pools.Heap.Alloc | src/buf/mod.rs:415-419 | memory not in use with the layout asked for, or a counted failure |
| Pools.Heap.Dealloc | src/buf/mod.rs:449 | asks for memory that is live, with the layout it was made with |
| Pools.Pool.constructor | src/buf/mod.rs:245-260 | an empty pool whose cap, any `usize`, holds at least one smallest buffer |
| Pools.Pool.MakeRoom | src/buf/mod.rs:439-458 | where the sum stays within 64 bits, succeeds exactly when the bytes fit beside the reservation and the buffers not idle; it frees the largest classes first and no buffer more than needed; failing, it leaves no idle buffer; nothing busy is touched |
| Pools.Pool.FreeOne | src/buf/mod.rs:446-450 | the last idle buffer of a class goes to the allocator and its bytes off the ledger, nothing else |
| Pools.Pool.TakeReturned | src/buf/mod.rs:391-403 | the return list is emptied; at most one buffer, of the class asked for and not out before, is handed out |
| Pools.Pool.Allocate | src/buf/mod.rs:406-431 | new memory exactly when it fits beside the busy buffers, unless the allocator fails, when the ledger is as before; the pool is sound after it if and only if it gave nothing or the charge's sum was guarded |
| Pools.Pool.GetClass | src/buf/mod.rs:322-329 | a buffer of the class that was not out; with the ledger under the cap, guarded sums and no allocator failure, refused exactly when bytes out, reservation and class pass the cap, leaving nothing idle; an idle buffer of the class is given before any other |
| Pools.Pool.Get | src/buf/mod.rs:318-320 | the same for the smallest class that holds the request, lowered to the largest the room allows |
| Pools.Pool.GetWhole | src/buf/mod.rs:359-376 | a buffer of at least the length asked for; refused exactly when its size passes 32 bits or the cap; with nothing out, given exactly when `CouldHoldWhole` says so |
| Pools.WholeBytes | src/buf/mod.rs:359-363 | the size a whole request gets holds the length: the smallest class that does, or else the fewest whole pages |
| Pools.LookedAtExactly | src/buf/mod.rs:333-340 | against any room, the size `could_hold_whole` looks at, rounded on 64 bits, decides as the true size does if and only if the length is at most 2^64 - 4096 |
| Pools.LooksAtNothing | src/buf/mod.rs:337 | the longest length looks as if it took no bytes |
| Pools.Pool.Reserve | src/buf/mod.rs:276-284 | where its sums are guarded, accepted exactly when a smallest buffer still fits beside the reservation and the bytes fit beside the busy buffers; refused, it changes no reservation; the pool is sound after it if and only if it was refused or its sums were guarded |
| Pools.Pool.Unreserve | src/buf/mod.rs:287-292 | takes back at most what is reserved, from the reservation and the ledger alike |
| Pools.Pool.HoldTo | src/buf/mod.rs:350-355 | the new cap, any `usize`, holds the reservation and a smallest buffer; the ledger ends under it or nothing idle is left |
| Pools.Pool.WakeWaiters | src/buf/mod.rs:170-176 | with the flag up every queued waker is woken, in order; with it down none is |
| Pools.Pool.TakeBack | src/buf/mod.rs:467-477 | the buffer is no longer out: on its class's free list, or freed and off the ledger when whole; with the flag up the waiters are woken in order and none stays queued, with it down none is woken |
| Pools.Pool.GiveBack | src/buf/mod.rs:131-160 | as one step: the buffer is no longer out and last among the returned ones; with the flag up the waiters are woken in order and none stays queued, with it down none is woken |
| Pools.Pool.WaitForReturn | src/buf/mod.rs:483-496 | the waker is left queued exactly when memory is held and all of it is out, with the flag up; otherwise it is woken |
| Pools.Pool.Drop | src/buf/mod.rs:500-511 | every idle buffer is freed and nothing else; with the flag up the waiters are woken in order and none stays queued |
| Pools.Pool.DropHome | src/buf/mod.rs:180-186 | with nothing out, what came back is freed and nothing stays allocated |
| Pools.LeavesNoRoom | src/buf/mod.rs:276-283 | under a cap of `usize::MAX` a reservation of everything passes its check and its charge, and leaves no class |
| Pools.LeavesRoomExactly | src/buf/mod.rs:276-280 | the check of a reservation implies room for a smallest buffer if and only if the cap is below the largest `usize` or the exact sum is within 64 bits |
| Pools.LedgerComesRound | src/buf/mod.rs:425-443 | under a cap of `usize::MAX`, after a reservation of all but one smallest buffer and that buffer, another smallest buffer passes `fits` and the ledger ends below one buffer |
| Pools.FitsExactly | src/buf/mod.rs:439-443 | `fits` implies a ledger within the cap if and only if the cap is below the largest `usize` or the exact sum is within 64 bits |
| PoolBufs.FirstInFirstOut | src/buf/mod.rs:664-691 | over every run of appends, reads and consumes the bytes accepted are those consumed followed by those unread |
| PoolBufs.AppendsJoin | src/buf/mod.rs:710-720 | two appends, full buffer or not, are one append of both |
| PoolBufs.CopyVectored | src/buf/mod.rs:560-572 | fills the slices as one copy into their concatenation, the rest of each slice as it was |
| PoolBufs.CopyFront | src/buf/mod.rs:724-729 | the front of the target is the source's, as much as both have, the rest as it was |
| PoolBufs.PoolBuf.constructor | src/buf/mod.rs:378-387 | an empty queue over the memory given |
| PoolBufs.PoolBuf.IsEmpty | src/buf/mod.rs:616-618 | true exactly when no byte is unread |
| PoolBufs.PoolBuf.Spare | src/buf/mod.rs:622-628 | what was unread is gone |
| PoolBufs.PoolBuf.SetFilled | src/buf/mod.rs:631-635 | the unread bytes are the first ones of the memory, at most all of it |
| PoolBufs.PoolBuf.SetFilledAt | src/buf/mod.rs:638-642 | the bounds stay in order exactly when the sum of offset and length does not wrap, and then the unread bytes are those from the offset |
| PoolBufs.FilledBoundsExactly | src/buf/mod.rs:638-642 | the bounds are in order if and only if offset and length add up within 64 bits, and then the end is that sum or the capacity |
| PoolBufs.FilledBoundsCross | src/buf/mod.rs:638-642 | an offset of one and the longest length end before they start |
| PoolBufs.PoolBuf.FillAt | src/buf/mod.rs:646-653 | the unread bytes are the front of the bytes given, as much as fits after the offset; no other byte of the memory changes |
| PoolBufs.PoolBuf.FillFrom | src/buf/mod.rs:657-662 | the unread bytes are the front of the bytes given, as much as fits |
| PoolBufs.PoolBuf.Compact | src/buf/mod.rs:669-677 | moving the unread bytes over themselves to the front loses none |
| PoolBufs.PoolBuf.Append | src/buf/mod.rs:666-685 | takes exactly the smaller of the bytes given and the capacity not unread, whether or not it compacts, behind the unread ones |
| PoolBufs.PoolBuf.Consume | src/buf/mod.rs:688-691 | drops that many unread bytes from the front, at most all |
| PoolBufs.PoolBuf.PeekInto | src/buf/mod.rs:724-729 | copies the front of the unread bytes and consumes none |
| PoolBufs.PoolBuf.ReadInto | src/buf/mod.rs:694-698 | copies the front of the unread bytes and consumes what it copied |
| PoolBufs.PoolBuf.ReadIntoVectored | src/buf/mod.rs:702-706 | as one read into the slices' concatenation |
| PoolBufs.PoolBuf.AppendVectored | src/buf/mod.rs:710-720 | as one append of the slices' concatenation, though it stops at the first slice not taken whole |
| InboxProofs.StepKeeps | src/rt/inbox.rs:152-234 | every step of every pusher and of the taker keeps the queue's invariant, the stub's turns and unlinked pushes included |
| InboxProofs.Fifo | src/rt/inbox.rs:152-234 | in every reachable state the items pushed, in the order of their swaps, are those taken, in order, followed by those in the queue; no store goes through a node the queue gave away |
| InboxProofs.PopAnswers | src/rt/inbox.rs:197-234 | the step that ends a pop tells the truth: an item is the first, Empty means empty then, Busy means some push had swapped and not linked during the pop |
| InboxProofs.DrainedExactly | src/rt/inbox.rs:186-190 | in every reachable state, within a pop or between two, the taker's look says drained exactly when the queue is empty |
| InboxLooks.LooksEmpty | src/rt/inbox.rs:175-177 | a reachable state with two items queued that looks empty to every thread but the taker |
| InboxLooks.LooksExactly | src/rt/inbox.rs:175-177 | in every reachable state the look any thread may take is right if and only if it answers false or the taker's end is the stub |
| AtomicWaker.StepKeeps | src/sync/atomic_waker.rs:120-196 | every step of every registration and wake keeps the word telling who holds the slot, and every waker a wake met with someone who will call it |
| AtomicWaker.NoLostWake | src/sync/atomic_waker.rs:120-196 | with no call in progress, every waker that was registered, or being registered, when some wake came has been called since, and the cell is at rest |
| AtomicWaker.Exclusive | src/sync/atomic_waker.rs:55-57 | in every reachable state at most one thread, a registration or a wake, is where it may touch the slot |
| AtomicWaker.KeptOrCalled | src/sync/atomic_waker.rs:145-179 | a registration that ends undisturbed leaves its own waker in the slot, and one that met a wake takes its own waker out to call it |
| AtomicWaker.WaitFree | src/sync/atomic_waker.rs:10-17 | in every run, whatever the other threads begin and do, a registration takes at most seven steps and a wake at most four |
| JoinSetProofs.StepKeeps | src/join_set.rs:49-328 | every step of the set and of every wake keeps the invariant of slots, flags, queue, tasks and the awaiter |
| JoinSetRuns.NoLostCompletion | src/join_set.rs:243-286 | after a poll answered Pending, with no wake in flight and the awaiter not woken, no member that poll found and that is still in the set has finished, whatever was inserted or woken since, stale wakes included |
| JoinSetRuns.QueuedOnce | src/join_set.rs:49-56 | queue entries, wakes between flag and push, and entries popped but not cleared add up to the flag for a live slot's waker, and to at most one for a stale one |
| JoinSetRuns.Conserved | src/join_set.rs:147-180 | `len` counts the members, the free list holds each empty slot once, and the tasks inserted are those in the set, those joined (once each, with their own id and outcome) and those detached |
| JoinSetRuns.NeverStuck | src/join_set.rs:243-328 | in every reachable state the set's call and every wake in progress has a step to take |
| JoinSetFairness.BoundedBypass | src/join_set.rs:251-286 | a finished member with n entries ahead of its own is joined within n + 1 polls that meet no push under way, however many polls meet one, however others wake themselves or find the budget spent, and whatever is inserted, as long as its own look does not find the budget spent |
| JoinSetFairness.LooksBounded | src/join_set.rs:253-281 | between one start of a poll and the next the set makes at most as many looks as it had members |
| JoinSetCalls.Set.constructor | src/join_set.rs:124-134 | an empty set, the machine's start |
| JoinSetCalls.Set.TakeSlot | src/join_set.rs:153-170 | the last free slot, or a new one with a new waker |
| JoinSetCalls.Set.Enqueue | src/join_set.rs:176-178 | the waker is queued once |
| JoinSetCalls.Set.Seat | src/join_set.rs:171-178 | the slot holds the task and is in the queue |
| JoinSetCalls.Set.Insert | src/join_set.rs:147-180 | one insert step of the machine |
| JoinSetCalls.InsertTakes | src/join_set.rs:147-180 | the inserted task is a member whose slot's flag is up, and every other task is as it was |
| JoinSetCalls.Set.WakeByRef | src/join_set.rs:49-56 | the five steps of a waker's call, run to the end |
| JoinSetCalls.Set.Finish | src/join_set.rs:273-274 | a task's end, and the call of the waker its join was given |
| JoinSetCalls.Set.PopReady | src/join_set.rs:255-260 | the first waker out of the queue, its flag down |
| JoinSetCalls.Set.Look | src/join_set.rs:261-280 | a finished member is taken out with its own id and outcome, unless its join finds the budget spent, when its waker is called and it stays; otherwise slots and members are as they were |
| JoinSetCalls.Set.PollJoinNext | src/join_set.rs:243-286 | Ready of nothing exactly on an empty set; a member answered had finished with that outcome and is joined once; Pending without a wake of the awaiter means no member has finished, joins that found the budget spent included; no more pops than members |
| JoinSetCalls.Set.DetachAll | src/join_set.rs:318-328 | the set is empty and its queue drained, and exactly its members are detached |
| Coop.RunCounts | src/coop.rs:52-205 | for every tree of polls, the counter is at every point the limit less the operations completed in its scope and those still open around it, the current task is the innermost polled, and every operation is ruled on as the count says |
| Coop.OverflowingSub | src/coop.rs:112 | the wrapping decrement, by cases |
| Coop.WithinLimit | src/coop.rs:209-223 | a scope that asks for no more operations than its limit has none refused, so an `unconstrained` one has none refused within 2^64 - 1 |
| Coop.AlwaysReady | src/coop.rs:1-11 | of operations that are always ready exactly those within the limit run and every later one is refused |
| Coop.Thread.Poll | src/coop.rs:191-205 | the thread's cells, saved and restored around each nested poll, do what the state-passing run does, decision by decision |
| Coop.Thread.PollOne | src/coop.rs:232-262 | the same for one act: an operation, a firm operation, a task's poll, a `block_on` poll, an `unconstrained` poll |
| Coop.Thread.EnterTask | src/coop.rs:53-59 | a fresh budget and the task, and what they replaced |
| Coop.Thread.LeaveTask | src/coop.rs:63-67 | what was replaced is back |
| Coop.Thread.Enter | src/coop.rs:77-96 | a scope's budget, and the one before it |
| Coop.Thread.Leave | src/coop.rs:83-85 | the budget before is back |
| Coop.Thread.TakeOne | src/coop.rs:109-124 | the wrap and repair is a counter that never goes below zero |
| Coop.Thread.GiveOne | src/coop.rs:181-184 | one operation given back, never past the largest word |
| ShardKey.StepKeeps | src/shard_local.rs:88-101 | while the counter has not come round, every step keeps each key with the static its number was taken for |
| ShardKey.OneKeyEach | src/shard_local.rs:88-101 | in every run that takes fewer than 2^64 numbers, two calls answer the same key exactly when they were on the same static |
| ShardKey.ComesRound | src/shard_local.rs:93-99 | a run of 2^64 numbers in which two calls on one static answer two keys |
| ShardKey.OneKeyEachExactly | src/shard_local.rs:88-101 | a bound on the numbers taken makes every run coherent exactly when it is below 2^64 |
| MacroFn.ParseFnItem | nuclei-macros/src/parse.rs:317-451 | accepts only the print of a well-formed function and answers that function; refuses everything else, standing at the first token no function has there |
| MacroFn.ParseAttrs | nuclei-macros/src/parse.rs:328-348 | the longest run of outer attributes, or the token after a `#` that is no attribute |
| MacroFn.ParseHead | nuclei-macros/src/parse.rs:350-360 | the longest attributes and visibility |
| MacroFn.ParseWords | nuclei-macros/src/parse.rs:362-415 | `async fn name ()`, or the first token that is not it |
| MacroFn.PrintOnce | nuclei-macros/src/parse.rs:139-155 | a token list is the print of at most one function |
| MacroOptions.ParseOptions | nuclei-macros/src/parse.rs:160-234 | the loop answers the meaning of its arguments, and refuses those that have none |
| MacroOptions.MeaningExact | nuclei-macros/src/parse.rs:157-234 | what is accepted is exactly a comma-separated list of distinct, well-spelled options, with an optional last comma, or one empty parenthesis group, and means those options |
| MacroOptions.OptionsRoundTrip | nuclei-macros/src/parse.rs:160-234 | any options, printed in any order, with or without a last comma, parse back to themselves |
| MacroOptions.CollectAnyOrder | nuclei-macros/src/parse.rs:214-225 | distinct settings make the same options in any order |
| MacroOptions.StringPathExact | nuclei-macros/src/parse.rs:275-299 | a literal is read as a path exactly when it is that path in quotes, with or without a leading `::` |
| MacroOptions.SplitJoin | nuclei-macros/src/parse.rs:287 | splitting the join of segments without colons gives the segments |
| MacroOptions.JoinSplit | nuclei-macros/src/parse.rs:287 | joining the split of any text gives the text |
| MacroOptions.Numeral | nuclei-macros/src/expand.rs:147 | the decimal text of a number reads as that number |
| MacroOptions.ReadExact | nuclei-macros/src/parse.rs:181-225 | a key and a value make a setting exactly when the key is its name and the value spells it |
| MacroExpand.WrapperReads | nuclei-macros/src/expand.rs:86-96 | with `async` put back and its parameters taken out, the wrapper is the print of the user's function: attributes behind the leading one, visibility, name, return type, in order |
| MacroExpand.WrapperOnce | nuclei-macros/src/expand.rs:86-96 | a wrapper comes from one function's parts and one entering body |
| MacroExpand.ExpandOnce | nuclei-macros/src/expand.rs:15-73 | each of the three expansions, under the same options, comes from one function only, body included |
| MacroExpand.BuilderMeans | nuclei-macros/src/expand.rs:126-165 | read back from its tokens, the builder chain asks for the workers `threads` gives, for none without it, or leaves them to the user's builder, and for a paused clock exactly when asked |
| MacroExpand.EnterMeans | nuclei-macros/src/expand.rs:109-118 | the entering body ends in `block_on` of the user's body as an async block, and asks for workers and a paused clock exactly as the options say, for neither without them |
| MacroExpand.ExpandReads | nuclei-macros/src/expand.rs:15-105 | read back with `async` in its place, each expansion is the user's function behind the harness attribute of its macro, and behind nothing for `main` |
| MacroExpand.NucleiPathNames | nuclei-macros/src/expand.rs:184-194 | the path names the root's segments and then the rest, with a leading `::` exactly when the root is not `crate`, `self` or `super` |
| MacroExpand.WriteSegments | nuclei-macros/src/expand.rs:197-207 | the loop writes the segments with `::` between them |
| MacroExpand.SegmentsName | nuclei-macros/src/expand.rs:197-207 | the identifiers of a written path are its segments |
| MacroExpand.StrLitReadsBack | nuclei-macros/src/parse.rs:55-61 | the literal of any text reads back as that text |
| MacroExpand.PassesEscape | nuclei-macros/src/parse.rs:56-59 | the three replacements over the whole text escape each character as if alone |
| RingConfig.VerdictExactly | src/config.rs:180-209 | a configuration is accepted exactly when its queue reaches the floor and its receive group, if any, is a power of two, sized within range, and at most half the completion queue the kernel makes; each refusal names the first setting at fault |
| RingConfig.HalfTheCompletions | src/config.rs:101-108 | for a power of two, below twice the entries (doubled with saturation) is the same as at most half of twice the entries rounded up and clamped |
| RingConfig.NextPowerOfTwo | src/config.rs:163-170 | a power of two from the number up, below twice it |
| RingConfig.NextIsLeast | src/config.rs:163-170 | no smaller power of two reaches the number |
| RingConfig.DefaultGroup | src/config.rs:161-170 | 256 buffers, or the entries rounded up when that is fewer |
| RingConfig.ProfilesAccepted | src/config.rs:213-260 | the four profiles are accepted for every queue length from 64 up and refused below for that setting; the default is accepted |

## Left out

- Home, Inbox, AtomicWaker and ShardLocal as classes: their calls interleave, so they are step machines on values, and aliasing appears as node and pointer numbers.
- JoinSetFairness.BoundedBypass: is about runs without `detach_all`, after which the member is not joined, and in which the look at the member itself does not find the budget spent, because such a look answers Pending and sends it to the back of the line.
- JoinSetRuns.NoLostCompletion: is about the members the last poll found, because an insert does not wake the awaiter.
- Weak memory beyond the owner's store buffer: the other steps are sequentially consistent.
- A task's `join` is taken by contract: polled while the task runs it keeps the waker it was given, and the task's end calls it.
- A waker's clone or call that panics inside the awaiter's cell, and its displacing registrations.
- JoinSetCalls.Set.PollJoinNext: runs with no wake in flight, because a call that wakes interleave with is a run of the machine's steps, where `JoinSetRuns.NoLostCompletion` covers it.
- SharedPoolRefusal.ExactRefusal: has no giver in the middle of the request, because what a giver holds is neither out nor on the return list.
- The drop of a `JoinSet`, `try_join_next`'s waker that does nothing, and `abort_all`, which only forwards.
- The taker role of the inbox (`try_take`, `release`) and its drop.
- Spans and the wording of the macros' errors; `ParseFnItem` says at which token it stood instead, and `ParseOptions` says only that it refused.
- `with` and `try_with` of a shard-local, which reach the value through the shard.
- Waker and user-code panics, `Debug` and `Display`, counters of statistics.
- The buffers of `src/buf/owned.rs`, `aligned.rs`, `spare.rs` and `vectored.rs`: case analysis and forwarding.
- The reactor, the scheduler, timers, files and sockets: they meet the operating system.
