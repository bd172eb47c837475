# A small preemptive kernel, modelled and proved

The repository is a preemptive real-time kernel in C for a Cortex-M3: a binary buddy allocator, mailboxes
with blocking senders, intrusive task queues, a five-level scheduler with periodic real-time tasks, a timer
interrupt that makes an earliest-deadline-first decision, and a small number printer and parser. This project
states what those pieces do and proves it for all inputs, all runs and every pool depth and ring capacity.

`dafny verify dfyconfig.toml` checks everything.

## How the model is laid out

| files | what they hold |
|---|---|
| `Powers`, `BitArray` | the helpers of the allocator: powers of two, the packed bit array |
| `BuddyTree`, `BuddyLaws`, `BuddyTheorems`, `BuddyRuns` | the buddy pool as a tree of nodes with free lists, its invariant, and what follows for single calls and for whole runs |
| `BuddyRaw`, `BuddyRefinement`, `BuddyPool` | the same allocator on addresses, the proof that it refines the tree, and a class with the bit array and the lists changed in place |
| `Ring` | messages, and a class for the ring buffer on a byte array |
| `Deadlines`, `TaskQueue` | deadline order; the doubly linked queue with its links, and the timer's loop that unlinks from the list it walks |
| `Kernel`, `Syscalls` | the kernel's global state and every system call and interrupt as a step on it |
| `KernelInv`, `KernelSteps`, `KernelMessages`, `KernelReceives`, `KernelRealTime`, `KernelTheorems` | the invariant, exactly which steps keep it, and whole runs |
| `KernelFrames`, `KernelOrder`, `KernelDelivery`, `KernelPeriods` | what steps leave alone; who runs next and in what order the others wait; message conservation; deadline grids |
| `KernelFields`, `KernelReplies` | which fields each step sets; what each call answers and under which condition; the state after boot |
| `KernelLinks` | how a stale link comes about, a run from boot that ends in one, and the repaired kernel, which has none |
| `KernelObject`, `KernelCalls` | the kernel as the source has it: TCB objects on linked queues, rings of bytes and global variables, changed in place; each system call and interrupt is proved to make its step on them |
| `Printf` | digits, the printer and the parser |

A context switch is a change of the current task. A call that blocks in the middle of `k_recv_msg` is two
steps, split where the source switches stacks. `fault` records that the C code would have used a null pointer,
left an array, divided by zero, or linked a task into a queue with a stale link. A task's `stale` field says
that it is on no queue and its `next` link still leads somewhere.

The steps are functions on sequences of tasks and messages. `KernelObject.System` holds the same state in objects:
an array of `Tcb`, `TaskQueue.Queue` for every ready, suspended and waiting list, `Ring.Buffer` for every
mailbox. Its `Valid` says that the links spell out the sequences, that `stale` means what it says, and that the
rings' bytes hold the messages; where the model puts a stale link into a queue, the linked queue is not sound.
The two RAM regions run the same code with other constants; one class with its depth and base address as
parameters stands for both.

## Where the code falls short of its purpose

Where a property fails, the exact condition under which the code has it is proved, for all inputs. At three
places a second reading, `Repaired`, stands beside the code `AsWritten`, so that both can be stated:
`pop_block` searches the whole list, the timer interrupt guards its two accesses, and `pop_task` clears the links
of a task that it takes from the middle. Everything else is the code's own in both readings.

- `pop_block` never removes the last entry of a list unless it is also the first (k_mem.c:266). A release is
  right exactly when no merging step needs that, and a run keeps the pool consistent exactly when all its
  releases are; a short run from a new pool reaches a case where it is needed (`BuddyTheorems.ReleaseAsWritten`,
  `BuddyRuns.SafeRunAsWritten`, `BuddyRuns.UnsafePoolIsReached`).
- `k_mpool_dealloc` does not notice a pointer that starts no live block: it releases a split ancestor or files
  an address off its block. The exact demand on the caller is `BuddyRefinement.DeallocKeepsIff`.
- A merge that reaches the whole region leaves the root bit set (k_mem.c:518-536, `BuddyTheorems.RootBitStays`).
  The invariant allows that bit either value while the level-0 block is free, which is harmless, and
  `AllocThenRelease` speaks of the bits below the root.
- A real-time task is never switched away from by `k_tsk_run_new` (k_task.c:683). If its send has to wait, or
  its receive succeeds or blocks, it is queued or marked blocked and goes on running. The wall clock task is
  real-time and receives that way (src/RTX-App/src/tasks/wall_clock_task.c:141 and 159).
- The second `pop_buffer` of a blocking receive is not checked (k_msg.c:344): with a buffer that is too small
  the call returns success without a message, and the message stays first in the ring.
- A send whose header names the UART handler as sender does not give way (k_msg.c:304), so a woken task may
  outrank the running one until the next call that gives way.
- `k_tsk_create` accepts the real-time and the null priority (k_task.c:782-783), which breaks the invariant, and
  `k_rt_tsk_set` any period (k_task.c:1051), 0 ticks included: the first suspension after a missed deadline
  then divides by zero (k_task.c:1091).
- Raising one's own priority does nothing (k_task.c:925-948).
- The timer interrupt goes through the head of an empty suspended list (timer.c:147), and pushes the null task
  to a queue that does not exist when only a real-time task is there to run (timer.c:217).
- A task taken from the middle of a queue keeps its links, and `push_head` on an empty queue does not clear
  them (priority_queue.c:72-79, 94-96). Raising a ready task that is neither first nor last in its queue makes
  such a task the running one. If it then goes to the front of its own queue while that is empty, because it
  creates, raises or wakes a more urgent task, completes a receive, or is preempted by the timer, that queue
  goes on with the task's old successor, wherever that is now. A run of four priority changes from boot
  gets there (`KernelLinks.StaleLinkIsReached`). The condition on the state before each step is
  `KernelTheorems.LinksAllow`; with `pop_task` repaired it always holds (`KernelLinks.RepairedFromBoot`).
- `a2i` takes a digit that equals the base (printf.c:114).

A step that avoids the kernel's share of this is called harmless (`KernelTheorems.Harmless`), a condition on the
state before the step in three parts: what the caller asks for, the links, and, for the timer interrupt, that
something is there to release or run. `KernelTheorems.StepKeepsIff` shows that it is exact, for both readings.

## Model

| member | source | states |
|---|---|---|
| BitArray.SetBit | src/RTX-App/src/kernel/k_mem.c:141-147 | sets exactly the bit of that index in the packed array; every other bit keeps its value |
| BitArray.ClearBit | src/RTX-App/src/kernel/k_mem.c:150-157 | clears exactly the bit of that index; every other bit keeps its value |
| BitArray.CheckBit | src/RTX-App/src/kernel/k_mem.c:160-171 | returns 1 if and only if the bit of that index is set |
| Powers.Log2 | src/RTX-App/src/kernel/k_mem.c:174-183 | the least exponent, not below that of the smallest block, whose power of two reaches the value |
| Powers.Power2 | src/RTX-App/src/kernel/k_mem.c:186-193 | the loop computes the power of two |
| BuddyRaw.AddrFamily | src/RTX-App/src/kernel/k_mem.c:196-245 | the two address helpers agree with the tree: the computed buddy address is the buddy's start, the computed parent address is the parent's start |
| BuddyRefinement.LiftPop | src/RTX-App/src/kernel/k_mem.c:247-282 | taking an address off a list of addresses is taking the block off the list of blocks, also with the loop that stops early |
| BuddyPool.Region.PopBlock | src/RTX-App/src/kernel/k_mem.c:247-282 | the loop removes the named block from the list, except when it is the last entry and not the first, and then changes nothing |
| BuddyPool.Region.Create | src/RTX-App/src/kernel/k_mem.c:285-348 | the region becomes one free block with no bit set, or is unchanged and the error is reported |
| BuddyTree.CreateInv | src/RTX-App/src/kernel/k_mem.c:285-348 | a new pool is consistent |
| BuddyPool.Region.FindFree | src/RTX-App/src/kernel/k_mem.c:368-374 | walks up to the first level, from the wanted one, whose list is not empty, or reports that there is none |
| BuddyPool.Region.SplitHead | src/RTX-App/src/kernel/k_mem.c:376-400 | one splitting round: the head of the list is marked and its two halves become the whole next list |
| BuddyPool.Region.AllocAt | src/RTX-App/src/kernel/k_mem.c:368-412 | the search, the splitting loop and the final take together do what the address-level allocation says, and a consistent pool stays consistent |
| BuddyPool.Region.Alloc | src/RTX-App/src/kernel/k_mem.c:350-413 | all outcomes: size 0, too large, nothing free, or the block of the level for the size; the pool stays consistent |
| BuddyRefinement.AllocRefines | src/RTX-App/src/kernel/k_mem.c:368-412 | the splitting loop, which overwrites the next level's list, loses no free block: it ends in the allocation on the tree (the question left open at line 394) |
| BuddyLaws.AllocKeeps | src/RTX-App/src/kernel/k_mem.c:350-413 | a consistent pool stays consistent, and exactly the block handed out becomes live |
| BuddyTheorems.AllocFailsIff | src/RTX-App/src/kernel/k_mem.c:368-374 | allocation fails if and only if every free block is smaller than the wanted level |
| BuddyTheorems.AllocFromSmallest | src/RTX-App/src/kernel/k_mem.c:365-406 | the block is cut from a smallest free block that is large enough |
| BuddyPool.RoundedSize | src/RTX-App/src/kernel/k_mem.c:365 | the block has the least power of two that is at least the size and at least 32 |
| BuddyTheorems.SearchFindsBlock | src/RTX-App/src/kernel/k_mem.c:502-512 | from the bits alone, the upward search that starts at the first leaf of a live block stops at that block |
| BuddyPool.Region.Search | src/RTX-App/src/kernel/k_mem.c:495-512 | the loop stops at the first set bit on the path from the leaf to the root, and reports whether there is one |
| BuddyPool.Region.MergeUp | src/RTX-App/src/kernel/k_mem.c:514-547 | the loop of merging rounds and the final push do what the address-level merge says |
| BuddyPool.Region.Dealloc | src/RTX-App/src/kernel/k_mem.c:485-658 | all outcomes: null, outside the region, no live block found, the root, or the merge |
| BuddyRefinement.DeallocReply | src/RTX-App/src/kernel/k_mem.c:495-567 | a pointer into the region is refused if and only if no marked block holds that address, and then nothing changes |
| BuddyRefinement.DeallocRefines | src/RTX-App/src/kernel/k_mem.c:492-567 | given the start of a live block, the code finds exactly that block and releases it |
| BuddyLaws.ReleaseKeeps | src/RTX-App/src/kernel/k_mem.c:514-561 | with the whole list searched, a release keeps the pool consistent, and exactly the released block stops being live |
| BuddyTheorems.ReleaseAsWritten | src/RTX-App/src/kernel/k_mem.c:247-282 | with the search that stops early, a release keeps the pool consistent, and is the intended one, if and only if no merging step meets a buddy that is last but not first on its list |
| BuddyTheorems.LastEntryStays | src/RTX-App/src/kernel/k_mem.c:266 | a concrete pool and release after which a block is on a list although it lies inside a larger free block |
| BuddyRuns.UnsafePoolIsReached | src/RTX-App/src/kernel/k_mem.c:266 | that pool is reached from a new one by four requests and two returns |
| BuddyRefinement.DeallocKeepsIff | src/RTX-App/src/kernel/k_mem.c:485-567 | for any pointer into the region: the result is a consistent pool if and only if the pool is not split now (no bit below the root is set), or the pointer starts a live block whose release is safe |
| BuddyTheorems.ExactPartition | src/RTX-App/src/kernel/k_mem.c:285-658 | every smallest unit of a consistent pool lies in exactly one block that is free or live |
| BuddyRefinement.BytePartition | src/RTX-App/src/kernel/k_mem.c:285-658 | every byte of the region lies in exactly one block that is free or live |
| BuddyRuns.LiveBlocksDisjoint | src/RTX-App/src/kernel/k_mem.c:350-413 | two live blocks share no byte |
| BuddyTheorems.NoFreeBuddies | src/RTX-App/src/kernel/k_mem.c:514-561 | two buddies are never both free |
| BuddyTheorems.SplitHoldsLive | src/RTX-App/src/kernel/k_mem.c:514-561 | every split block contains a live one, so merging is maximal |
| BuddyTheorems.NothingLive | src/RTX-App/src/kernel/k_mem.c:514-561 | a consistent pool with no live block has the lists of a new one |
| BuddyTheorems.AnyOrderEmpties | src/RTX-App/src/kernel/k_mem.c:485-561 | releasing all live blocks in any order ends in one free block |
| BuddyTheorems.RootBitStays | src/RTX-App/src/kernel/k_mem.c:514-561 | a release clears the bit of the root if and only if the root itself is released |
| BuddyTheorems.AllocThenRelease | src/RTX-App/src/kernel/k_mem.c:350-561 | an allocation and the release of its result restore every list, order included, and every bit below the root, under the code as written |
| BuddyRuns.RunKeeps | src/RTX-App/src/kernel/k_mem.c:350-658 | after any run of requests and proper returns the pool is consistent and its live blocks are exactly those handed out and not returned |
| BuddyRuns.RunReturnsAll | src/RTX-App/src/kernel/k_mem.c:350-658 | a run that has returned everything ends in the lists of a new pool |
| BuddyRuns.SafeRunAsWritten | src/RTX-App/src/kernel/k_mem.c:247-561 | under the code as written a run keeps the pool consistent after every step if and only if every return in it is safe; it is then the run under the intended removal |
| Messages.HeaderFields | src/include/common.h:251-255 | the length and the sender that are read from a header are those it was laid out with: four bytes of length, the lowest first, then sender and type |
| Messages.FlattenInjective | src/RTX-App/src/kernel/k_msg.c:92-95 | the bytes in a ring determine the messages: length prefixes make them uniquely readable |
| Ring.MemCpy | src/RTX-App/src/kernel/k_msg.c:44-48 | the loop copies exactly those bytes and nothing else |
| Ring.WriteBehind | src/RTX-App/src/kernel/k_msg.c:60-72 | writing behind the used bytes, around the end if need be, appends to what is read from the head |
| Ring.Buffer.PushBuffer | src/RTX-App/src/kernel/k_msg.c:51-73 | succeeds if and only if the message fits, and then appends it whole; otherwise nothing changes |
| Ring.Buffer.PopBuffer | src/RTX-App/src/kernel/k_msg.c:78-119 | takes the oldest message out whole, byte for byte, or reports that there is none or that it is too large and leaves the ring as it was; headers and bodies may wrap |
| Ring.Buffer.constructor | src/RTX-App/src/kernel/k_msg.c:154-163 | a new ring is empty, whatever the memory holds |
| TaskQueue.Queue.PopHead | src/RTX-App/src/kernel/priority_queue.c:11-34 | takes the first task, clears its links and sets its state |
| TaskQueue.Queue.PopTail | src/RTX-App/src/kernel/priority_queue.c:36-54 | takes the last task; the queue is sound afterwards if and only if it held more or fewer than one task, or that one carried no stale previous link |
| TaskQueue.Queue.PopTask | src/RTX-App/src/kernel/priority_queue.c:57-87 | removes exactly the given task from head, middle or tail; taken from the middle it keeps its links |
| TaskQueue.Queue.PushHead | src/RTX-App/src/kernel/priority_queue.c:90-110 | prepends the task; the queue is sound afterwards if and only if it was not empty or the task carried no stale link |
| TaskQueue.Queue.PushTail | src/RTX-App/src/kernel/priority_queue.c:114-166 | appends an ordinary task, inserts a real-time one before the first deadline that is not earlier, or refuses; links, count and states are as they should be |
| TaskQueue.TakeThenPush | src/RTX-App/src/kernel/priority_queue.c:72-107 | a task taken from one queue and pushed to the head of another leaves it sound if and only if the other was not empty or the task did not stand in the middle |
| TaskQueue.ReleaseDue | src/RTX-App/src/bsp/LPC1768/timer.c:145-168 | the loop that unlinks from the list it walks moves exactly the due tasks, in order, and ends |
| TaskQueue.DuePartition | src/RTX-App/src/bsp/LPC1768/timer.c:160-168 | due and not due tasks together are the suspended ones, none lost or doubled; a task is due if and only if its deadline less its period has come |
| TaskQueue.StaysSorted | src/RTX-App/src/bsp/LPC1768/timer.c:160-168 | the ready queue stays in deadline order through the loop and gains exactly the due tasks |
| Deadlines.InsertAscending | src/RTX-App/src/kernel/priority_queue.c:122-150 | inserting where the walk stops keeps an ascending queue ascending |
| KernelObject.System.constructor | src/RTX-App/src/kernel/k_task.c:351-362 | new TCBs, empty linked queues and the UART ring stand for the state before any task exists |
| KernelObject.System.PushHead | src/RTX-App/src/kernel/priority_queue.c:90-110 | on the linked queue, what the step does to the sequences and stale flags; the model is at fault exactly where the linked queue is not sound afterwards |
| KernelObject.System.PushTail | src/RTX-App/src/kernel/priority_queue.c:114-166 | on the linked queue, what the step does to the sequences, states and stale flags |
| KernelObject.System.PopHead | src/RTX-App/src/kernel/priority_queue.c:11-34 | likewise; it returns the first task, which is then on no queue |
| KernelObject.System.PopTask | src/RTX-App/src/kernel/priority_queue.c:57-87 | likewise; a task from the middle leaves with a stale link |
| KernelObject.System.PushRing | src/RTX-App/src/kernel/k_msg.c:51-73 | the message in the buffer joins the mailbox as bytes of its ring |
| KernelObject.System.PopRing | src/RTX-App/src/kernel/k_msg.c:78-119 | the oldest message leaves the ring for the buffer, byte for byte, or the code says why not |
| KernelObject.System.NewRing | src/RTX-App/src/kernel/k_msg.c:154-163 | the mailbox gets an empty ring of its own |
| KernelCalls.Scheduler | src/RTX-App/src/kernel/k_task.c:303-313 | the loop over the five linked queues unlinks the first task that the model chooses, or names the null task |
| KernelCalls.RunNew | src/RTX-App/src/kernel/k_task.c:675-703 | on the objects, the switch to the next task; a real-time task is not switched from |
| KernelCalls.Yield | src/RTX-App/src/kernel/k_task.c:715-733 | on the objects, the step of the call and its reply |
| KernelCalls.FindSlot | src/RTX-App/src/kernel/k_task.c:763-770 | the loop finds the slot that the step takes, the first dormant one |
| KernelCalls.Create | src/RTX-App/src/kernel/k_task.c:752-819 | on the objects, the step of the call, with its errors and its preemption, and its reply |
| KernelCalls.SetPrio | src/RTX-App/src/kernel/k_task.c:869-959 | on the objects, the step of the call through all its checks: unlinking, requeueing and handing over where the model does, and its reply |
| KernelCalls.Highest | src/RTX-App/src/kernel/k_task.c:928-935 | the loop looks up, without unlinking it, the first task of the first queue that is not empty |
| KernelCalls.MbxCreate | src/RTX-App/src/kernel/k_msg.c:133-169 | on the objects, the step of the call, a ring made and the waiting list reset, and its reply |
| KernelCalls.Send | src/RTX-App/src/kernel/k_msg.c:171-240 | on linked queues and bytes, the step of the call: errors, delivery with or without preemption, or blocking |
| KernelCalls.SendNb | src/RTX-App/src/kernel/k_msg.c:242-312 | likewise for the call that does not block |
| KernelCalls.Drain | src/RTX-App/src/kernel/k_msg.c:347-359 | the loop over the linked waiting list lets in the senders that the model lets in, as bytes |
| KernelCalls.Recv | src/RTX-App/src/kernel/k_msg.c:314-364 | the step up to the switch point, or to the end; a message received is byte for byte in the caller's buffer |
| KernelCalls.Resume | src/RTX-App/src/kernel/k_msg.c:344-364 | the step from the switch point on, whose second read is not checked; likewise for the buffer |
| KernelCalls.RecvNb | src/RTX-App/src/kernel/k_msg.c:366-417 | the step for a task or in the UART handler; likewise for the buffer |
| KernelCalls.RtSet | src/RTX-App/src/kernel/k_task.c:1040-1071 | on the objects, the step of the call and its reply |
| KernelCalls.RtSusp | src/RTX-App/src/kernel/k_task.c:1073-1107 | on the objects, the step of the call, with the deadline arithmetic, and its reply |
| KernelCalls.Release | src/RTX-App/src/bsp/LPC1768/timer.c:145-168 | the loop walks the linked list that it unlinks from and releases the tasks that the model releases |
| KernelCalls.Decide | src/RTX-App/src/bsp/LPC1768/timer.c:169-239 | on the objects, the decision at the end of the interrupt |
| KernelCalls.Tick | src/RTX-App/src/bsp/LPC1768/timer.c:132-240 | on the objects, the whole timer interrupt |
| KernelCalls.Boot | src/RTX-App/src/kernel/k_task.c:351-477 | the objects after boot stand for the booted state, and the invariant holds |
| KernelCalls.Handle | src/RTX-App/src/kernel/k_task.c:142-219 | every harmless system call and interrupt, made on TCBs, linked queues and rings, is its step of the model: the links stay sound, the invariant is kept, and a message received is in the caller's buffer |
| KernelSteps.YieldKeeps | src/RTX-App/src/kernel/k_task.c:715-733 | keeps the invariant; unless the caller is real-time, nothing ready outranks what runs next |
| KernelSteps.CreateKeeps | src/RTX-App/src/kernel/k_task.c:752-819 | at an ordinary priority, keeps the invariant and both orders of urgency, unless the creator has to give way and cannot lead its queue |
| KernelSteps.SetPrioKeeps | src/RTX-App/src/kernel/k_task.c:869-959 | every branch keeps the invariant and both orders of urgency, unless a task is raised above a caller that cannot lead its queue |
| KernelSteps.RaiseFaults | src/RTX-App/src/kernel/k_task.c:915-923 | then the caller's stale link gets into its queue |
| KernelTheorems.CreateFaults | src/RTX-App/src/kernel/k_task.c:803-815 | a creator that has to give way and cannot lead its queue leaves a stale link in it |
| KernelTheorems.SendFaults | src/RTX-App/src/kernel/k_msg.c:219-231 | so does a sender |
| KernelReplies.CreateReply | src/RTX-App/src/kernel/k_task.c:763-805 | the new task gets the least dormant slot; EAGAIN if and only if none of the slots 1 to 13 is dormant, then EINVAL if and only if the priority is none of the kernel's, then ENOMEM if and only if there is no memory; an error changes nothing |
| KernelReplies.SetPrioReply | src/RTX-App/src/kernel/k_task.c:876-904 | EINVAL and EPERM each exactly under their conditions on task id, both priorities, privilege, state and kind; an error changes nothing |
| KernelReplies.SetPrioBlocked | src/RTX-App/src/kernel/k_task.c:906-908 | a blocked task gets the new priority where it waits, and nothing else changes |
| KernelReplies.SetPrioSame | src/RTX-App/src/kernel/k_task.c:906-957 | giving a task the priority it has, the only one a real-time task can be given, changes nothing |
| KernelReplies.MbxOutcome | src/RTX-App/src/kernel/k_msg.c:133-169 | the mailbox has the size asked for and is empty, and nothing else changes; EEXIST, EINVAL and ENOMEM each exactly under its condition |
| KernelReplies.NewMailboxTakes | src/RTX-App/src/kernel/k_msg.c:159-213 | exactly the messages from a header's size to the size asked for can then be sent to it, and go in at once |
| KernelReplies.SendReply | src/RTX-App/src/kernel/k_msg.c:171-239 | EINVAL, ENOENT and EMSGSIZE each exactly under its condition on receiver, mailbox and length; success otherwise, with a wait if and only if there is no room or somebody waits |
| KernelReplies.SendNbReply | src/RTX-App/src/kernel/k_msg.c:242-312 | the same conditions, and ENOSPC exactly where the other send would wait |
| KernelReplies.HandlerSendOutcome | src/RTX-App/src/kernel/k_msg.c:304 | a send in the handler's name puts the message into the ring and wakes the receiver, and whoever runs goes on |
| KernelReplies.RecvReply | src/RTX-App/src/kernel/k_msg.c:314-343 | ENOENT, ENOSPC, blocking, and the oldest message, each exactly under its condition |
| KernelReplies.RecvNbReply | src/RTX-App/src/kernel/k_msg.c:366-396 | the same with ENOMSG for blocking, for a task and in the handler |
| KernelReplies.BlockOutcome | src/RTX-App/src/kernel/k_msg.c:341-343 | a receive without a message stops the task, and the first ready one runs |
| KernelReplies.ResumeOutcome | src/RTX-App/src/kernel/k_msg.c:344-364 | a woken receiver that can lead its queue runs on exactly if no sender let in outranks it, and otherwise keeps its turn; with a buffer that is too small nobody is let in and no queue changes |
| KernelReplies.HandlerRecvOutcome | src/RTX-App/src/kernel/k_msg.c:396-417 | in the handler the senders that fit are let in, and whoever runs goes on |
| KernelReplies.RtReply | src/RTX-App/src/kernel/k_task.c:1047-1086 | EPERM if and only if the caller is real-time already, or, for a suspension, is not; success otherwise |
| KernelReplies.YieldReply | src/RTX-App/src/kernel/k_task.c:715-733 | yielding succeeds; a real-time task goes on, and the null task makes way for the first ready one |
| KernelReplies.TickReleases | src/RTX-App/src/bsp/LPC1768/timer.c:160-168 | after the interrupt exactly those are still suspended whose deadline less their period is to come; the others are ready as real-time jobs, or one of them runs |
| KernelReplies.BootOutcome | src/RTX-App/src/kernel/k_task.c:351-477 | after boot the console runs; the two other system tasks and then the boot-time tasks are ready at their priorities, in order, with the privilege asked for; only the UART has a mailbox |
| KernelFields.OnlyAsked | src/RTX-App/src/kernel/k_task.c:142-219 | each step sets the fields it is asked to set, and changes no other field of any task, no mailbox's size, and the clock only if it is the timer interrupt |
| KernelFields.StateTold | src/RTX-App/src/kernel/priority_queue.c:11-166 | a task's state can be told from the queue it is on, from who runs and from whether it is inside a receive |
| KernelTheorems.OwnRaiseIgnored | src/RTX-App/src/kernel/k_task.c:925-948 | raising one's own priority is accepted and changes nothing |
| KernelSteps.MbxCreateKeeps | src/RTX-App/src/kernel/k_msg.c:133-169 | keeps the invariant and both orders of urgency |
| KernelMessages.SendKeeps | src/RTX-App/src/kernel/k_msg.c:171-240 | keeps the invariant and both orders of urgency, unless a real-time task has to wait, or the sender gives way and cannot lead its queue |
| KernelMessages.SendNbKeeps | src/RTX-App/src/kernel/k_msg.c:242-312 | keeps the invariant, unless the sender gives way and cannot lead its queue; keeps the priority order unless the header names the UART handler as sender |
| KernelMessages.DeliverSafe | src/RTX-App/src/kernel/k_msg.c:304 | delivering without giving way keeps the priority order if and only if it wakes no task that outranks the running one |
| KernelMessages.DrainKeeps | src/RTX-App/src/kernel/k_msg.c:347-359 | letting senders in keeps every part of the invariant and ends with a first waiter that does not fit |
| KernelReceives.RecvKeeps | src/RTX-App/src/kernel/k_msg.c:314-364 | keeps the invariant and both orders of urgency for an ordinary task, also when it frees more urgent senders, unless it takes a message and then cannot lead its queue |
| KernelReceives.TakenKeeps | src/RTX-App/src/kernel/k_msg.c:345-364 | after a message is taken the invariant holds if and only if the receiver can lead its queue, counting the senders it has let in |
| KernelReceives.ReceiveFaults | src/RTX-App/src/kernel/k_msg.c:361-362 | otherwise its stale link gets into its queue, in both receives |
| KernelReceives.ResumeKeeps | src/RTX-App/src/kernel/k_msg.c:344-364 | the second half of a blocking receive keeps the invariant and the priority order if and only if the receiver can lead its queue |
| KernelReceives.RecvNbKeeps | src/RTX-App/src/kernel/k_msg.c:366-417 | the non-blocking receive is as the blocking one |
| KernelReceives.UartRecvKeeps | src/RTX-App/src/kernel/k_msg.c:366-417 | in the UART handler it keeps the invariant and the deadline order |
| KernelRealTime.RtSetKeeps | src/RTX-App/src/kernel/k_task.c:1040-1071 | with a period of at least one tick, keeps the invariant, and the earliest deadline runs |
| KernelRealTime.RtSuspKeeps | src/RTX-App/src/kernel/k_task.c:1073-1107 | keeps the invariant, and the earliest ready deadline runs |
| KernelRealTime.ReleaseAllKeeps | src/RTX-App/src/bsp/LPC1768/timer.c:145-168 | the release loop moves exactly the due tasks to the sorted real-time queue and changes nothing else |
| KernelRealTime.DecideKeeps | src/RTX-App/src/bsp/LPC1768/timer.c:169-239 | after the decision no queued real-time job is more urgent than what runs; it goes wrong where it stops a task that cannot lead its queue, and, as written, where a real-time task runs and no task is ready |
| KernelRealTime.TickKeeps | src/RTX-App/src/bsp/LPC1768/timer.c:132-240 | with its two accesses guarded the interrupt keeps the invariant and the priority order and establishes the deadline order, unless it stops a task that cannot lead its queue, which is a fault |
| KernelRealTime.TickAsWritten | src/RTX-App/src/bsp/LPC1768/timer.c:146-217 | as written it goes wrong if and only if no task is suspended, or a real-time task runs with none due and none ready, or it stops a task that cannot lead its queue; otherwise it is the guarded one |
| KernelTheorems.HarmlessKeeps | src/RTX-App/src/kernel/k_task.c:142-219 | every harmless step keeps the invariant, the deadline order, and, made by a task, the priority order |
| KernelTheorems.StepKeepsIff | src/RTX-App/src/kernel/k_task.c:142-219 | a step keeps the invariant if and only if it is harmless, which can be read off the state before it |
| KernelTheorems.RealTimeSendBreaks | src/RTX-App/src/kernel/k_task.c:683-685 | a real-time task that has to wait in a send is queued as blocked and keeps running |
| KernelTheorems.RealTimeReceiveBreaks | src/RTX-App/src/kernel/k_task.c:683-685 | a real-time task whose receive succeeds, or blocks, is queued or marked blocked and keeps running |
| KernelTheorems.OddPriorityBreaks | src/RTX-App/src/kernel/k_task.c:782-788 | a task created at the real-time or the null priority breaks the invariant |
| KernelTheorems.NoPeriodBreaks | src/RTX-App/src/kernel/k_task.c:1050-1097 | a period below one tick is accepted and breaks the invariant; the task's suspension then divides by zero if and only if it comes after its deadline, one tick later |
| KernelTheorems.BootKeeps | src/RTX-App/src/kernel/k_task.c:351-477 | after boot the invariant and both orders of urgency hold |
| KernelTheorems.RunKeeps | src/RTX-App/src/kernel/k_task.c:142-219 | they hold after every run of harmless steps |
| KernelTheorems.FromBoot | src/RTX-App/src/kernel/k_task.c:351-477 | so they hold from boot on |
| KernelLinks.RaisedIsStale | src/RTX-App/src/kernel/priority_queue.c:72-79 | a ready task raised above the caller runs; as written it can lead its new queue if and only if it did not stand in the middle of its old one, and with the repair it always can |
| KernelLinks.StaleLinkIsReached | src/RTX-App/src/kernel/priority_queue.c:72-96 | a run of four harmless steps from boot ends in a state in which an ordinary creation of a task puts a stale link into a ready queue |
| KernelLinks.FreshAllows | src/RTX-App/src/kernel/priority_queue.c:90-107 | where no link is stale the links allow every step |
| KernelLinks.StaysFresh | src/RTX-App/src/kernel/priority_queue.c:72-79 | with `pop_task` repaired no step makes a link stale |
| KernelLinks.HandledIsHarmless | src/RTX-App/src/kernel/priority_queue.c:57-110 | so from there on a run is harmless if and only if each step asks for nothing that the caller must not do |
| KernelLinks.RepairedFromBoot | src/RTX-App/src/kernel/k_task.c:351-477 | from boot on, with the repairs, every such run keeps the invariant and both orders of urgency |
| KernelTheorems.OnePlace | src/RTX-App/src/kernel/priority_queue.c:90-166 | every task but the null task is in exactly one place, the one its state names |
| KernelTheorems.NoStuckMailbox | src/RTX-App/src/kernel/k_msg.c:213-239 | if senders wait the first does not fit; a task blocked on receiving has an empty ring and nobody waiting; a woken receiver has a message |
| KernelTheorems.SendToReceiverFits | src/RTX-App/src/kernel/k_msg.c:213-234 | a send to a task that is blocked on receiving never waits |
| KernelTheorems.ResumeReceives | src/RTX-App/src/kernel/k_msg.c:340-345 | a woken receive returns a message, or, if the buffer is too small, success without one, and the message stays |
| KernelDelivery.StepConserves | src/RTX-App/src/kernel/k_msg.c:171-417 | every harmless step conserves each mailbox's messages in order: accepted ones join at the end, delivered ones leave at the front |
| KernelDelivery.DrainSamePending | src/RTX-App/src/kernel/k_msg.c:347-359 | letting blocked senders in moves no message past another |
| KernelDelivery.RunDelivers | src/RTX-App/src/kernel/k_msg.c:171-417 | over any run, what was there and was accepted since equals what was delivered, then the ring, then the blocked senders: exactly once and in order |
| KernelPeriods.NextOnGrid | src/RTX-App/src/kernel/k_task.c:1088-1097 | the new deadline is a later grid point: after a miss the first strictly after now, otherwise the next |
| KernelPeriods.OnwardOnGrid | src/RTX-App/src/kernel/k_task.c:1088-1097 | after any suspensions the deadline is on the first one's grid, at least one period further for each |
| KernelPeriods.OnwardGrows | src/RTX-App/src/kernel/k_task.c:1088-1097 | each further suspension moves the deadline on by at least a period |
| KernelFrames.RtSetFrame | src/RTX-App/src/kernel/k_task.c:1054-1059 | the first deadline is one period after the next tick; nobody else's clock changes |
| KernelPeriods.StepTimes | src/RTX-App/src/kernel/k_task.c:1040-1107 | a real-time task keeps its kind and period, and only its own suspension moves its deadline |
| KernelPeriods.RunStaysOnGrid | src/RTX-App/src/kernel/k_task.c:1088-1097 | over any run the deadline is the one its suspensions give, and on the grid |
| KernelOrder.YieldRotates | src/RTX-App/src/kernel/k_task.c:715-733 | a yielding task goes to the end of its queue and the first of that queue runs; nobody else is affected, so tasks of one priority take turns |
| KernelOrder.GivesWay | src/RTX-App/src/kernel/k_task.c:675-703 | a task that gives way, and can lead its queue, waits at its front behind the first more urgent ready task; without one nothing changes |
| KernelOrder.CreateOutcome | src/RTX-App/src/kernel/k_task.c:803-818 | a new task waits at the end of its queue, or, outranking its creator, runs at once while the creator keeps its turn, or is a fault if it cannot lead its queue |
| KernelOrder.RaiseOutcome | src/RTX-App/src/kernel/k_task.c:915-923 | a ready task raised above the caller leaves its queue and runs, as written with a stale link if it stood in the middle; the caller keeps its turn, or it is a fault if the caller cannot lead its queue |
| KernelOrder.MoveOutcome | src/RTX-App/src/kernel/k_task.c:949-953 | a ready task not raised above the caller moves to the end of its new queue and has no stale link |
| KernelOrder.LowerOutcome | src/RTX-App/src/kernel/k_task.c:925-945 | a task lowering itself makes way exactly if a ready task is then at least as urgent, and goes to the end of its new queue |
| KernelOrder.DeliveryOutcome | src/RTX-App/src/kernel/k_msg.c:213-234 | the message joins the ring; a woken receiver waits at the end of its queue, or, outranking the sender, runs at once while the sender keeps its turn, or it is a fault if the sender cannot lead its queue |
| KernelOrder.WaitOutcome | src/RTX-App/src/kernel/k_msg.c:234-239 | a sender that has to wait goes, with its message, to the end of the waiting list, and the first ready task runs |
| KernelOrder.NbSendAgrees | src/RTX-App/src/kernel/k_msg.c:292-310 | the non-blocking send fails exactly where the blocking one would wait; otherwise the two do the same |
| KernelReceives.AdmittedFits | src/RTX-App/src/kernel/k_msg.c:347-353 | the messages let in fit together, and with the next they would not |
| KernelReceives.DrainLetsIn | src/RTX-App/src/kernel/k_msg.c:347-359 | exactly the first waiters up to the first that does not fit are let in, their messages in order, and each is ready at the end of its queue |
| KernelOrder.ReceiverOutcome | src/RTX-App/src/kernel/k_msg.c:314-364 | the oldest message is handed out; a receiver that can lead its queue runs on exactly if no sender let in outranks it, and otherwise keeps its turn; one that cannot is a fault; both receives agree |
| KernelOrder.RtSetOutcome | src/RTX-App/src/kernel/k_task.c:1054-1067 | a task that becomes real-time takes its place by deadline and the first job runs |
| KernelOrder.RtSuspOutcome | src/RTX-App/src/kernel/k_task.c:1086-1104 | a suspended task takes its place by its next deadline and the first ready task runs |
| KernelOrder.TickOutcome | src/RTX-App/src/bsp/LPC1768/timer.c:169-239 | in both readings, a more urgent job takes over and what ran keeps its turn, and otherwise the interrupt changes nothing beyond its releases; it goes wrong exactly where it stops a task that cannot lead its queue and, as written, where nothing is there |
| KernelOrder.ErrorChangesNothing | src/RTX-App/src/kernel/k_task.c:142-219 | a call that reports an error has changed nothing, unless it is at fault |
| Numerals.DigitsCanonical | src/RTX-App/src/libu/printf.c:70-86 | the digits are below the base, have no leading zero, and stand for the number |
| Numerals.CanonicalUnique | src/RTX-App/src/libu/printf.c:70-86 | no other digits do |
| Printf.Divisor | src/RTX-App/src/libu/printf.c:74-75 | the first loop ends with the largest power of the base that is not above the number, or 1 for 0 |
| Printf.Ui2a | src/RTX-App/src/libu/printf.c:70-86 | the canonical digits and a NUL go into the buffer and nothing else changes |
| Printf.I2a | src/RTX-App/src/libu/printf.c:88-95 | a sign if the number is negative, then the digits of its magnitude, then a NUL |
| Printf.SignedText | src/RTX-App/src/libu/printf.c:88-95 | a signed number starts with a sign if and only if it is negative, and what follows is decimal digits without a leading zero that stand for its magnitude |
| Printf.SignedDistinct | src/RTX-App/src/libu/printf.c:88-95 | different numbers are printed differently |
| Printf.BufferSuffices | src/RTX-App/src/libu/printf.c:138 | every printed number, with sign and NUL, fits the buffer of twelve characters |
| Printf.A2d | src/RTX-App/src/libu/printf.c:97-106 | the result is -1 or a digit below 16 |
| Printf.DigitRoundTrip | src/RTX-App/src/libu/printf.c:97-106 | a digit is printed as 0 to 9 and then A to F or a to f as asked, and reading gives it back |
| Printf.OnlyDigits | src/RTX-App/src/libu/printf.c:97-106 | no other character reads as a digit |
| Printf.A2i | src/RTX-App/src/libu/printf.c:108-121 | reads exactly the longest run of accepted characters, returns its value, the character behind it and where to go on |
| Printf.RoundTrip | src/RTX-App/src/libu/printf.c:108-121 | reading stops behind a printed number if and only if the next character is no digit or a digit above the base, and then gives the number |
| Printf.NeverAbove | src/RTX-App/src/libu/printf.c:113-117 | while a number's digits are read the value never exceeds the number |
| Printf.BaseItselfIsRead | src/RTX-App/src/libu/printf.c:114 | in base ten "12a" reads as 130 |
| Printf.Putchw | src/RTX-App/src/libu/printf.c:123-134 | the text is right-justified in the field behind zeros or blanks as asked, and never cut off |

## Left out

- BuddyPool.Region.PopBlock: free lists are sequences of addresses in an array. Their tail pointers, which no code reads, and previous links are not modelled; k_mem.c:270 reads the previous link of a block to unlink it, where the model drops that entry of the sequence.
- Powers.Log2: does not model sizes above 2^31, where the 32-bit loop would not end; a size above the region's is refused before the call.
- BuddyPool.Region.Alloc: the pool is named by the object; a pool id that is neither region's, with its EINVAL, is not modelled.
- KernelObject.System.PushTail: requires a task that the queue does not refuse, and KernelObject.System.PopTask a task that is on the queue, as the calls that use them have it; TaskQueue.Queue.PushTail states the refusal, and TaskQueue.Queue.PopTask the missing task.
- TaskQueue.Queue.PopTask: requires that the queue does not consist of one other task, where the walk of the source reads through a null pointer; the model of the step records a fault there.
- KernelCalls.Send: a blocked sender keeps the message itself; the source keeps a pointer to the caller's buffer, which the caller may overwrite.
- KernelCalls.Handle: requires the step to be harmless; of a step that is not, the model says exactly when it is at fault, but not what the objects hold afterwards.
- KernelCalls.Create: whether a stack can be allocated, and KernelCalls.MbxCreate: whether a ring can, are inputs; the fabricated stack frames are left out.
- KernelCalls.RtSet: the period comes as one number of microseconds; its 32-bit wrap beyond 4294 seconds is not modelled, and neither are 32-bit tick counts that wrap.
- Printf.I2a: negating the smallest integer is taken as two's complement has it.
- Null buffers (EFAULT) in receives, and user buffers shorter than their length field, are not modelled.
- Receiver ids above 15 other than the UART's index past the arrays in the source; the model records a fault.
- `k_tsk_exit`, whose live branch neither marks the task dormant nor frees anything.
- `k_rt_tsk_get`, and the calls that only report: `k_tsk_get`, `k_tsk_ls`, `k_mbx_ls`, `k_mbx_get`, `k_mpool_dump`; the job counter of real-time tasks.
- Booting with thirteen tasks, which would take the slot of the wall clock task; errors of `k_tsk_init`.
- The format loop `tfp_format` and the long variants of the printer; the printer's output is a sequence of characters.
- Assembly, stack switching, SVC register decoding, timer and UART registers, the console, key decoder and wall clock tasks.
