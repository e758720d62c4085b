# A verified model of the thread library and its C runtime

This project models the parts of the repository in which most can go wrong, and proves what they are for. Each
file stands for one or two source files; code that works by changing arrays, fields or variables is a method with
loops and invariants, proved against a specification, and code that runs concurrently is a step machine.

- **LongDivision.dfy** (`Digits`, `LongDivision`): 64-bit division on 16-bit digits, Knuth's Algorithm D (TAOCP
  volume 2, section 4.3.1) as `__qdivrem` runs it, with every product and sum taken modulo 2^32.
- **HeapLayout.dfy**, **Malloc.dfy** (`HeapLayout`, `Malloc`): the boundary-tag allocator over a byte memory. `Heap`
  holds the memory and the four globals; the ghost list of blocks is what the headers and footers describe.
- **Qsort.dfy** (`Qsort`): Bentley and McIlroy's quicksort in place on an array, for any total preorder.
- **Sync.dfy** (`Sync`): mutexes, condition variables and the locking around the allocator
  (user/libthread/malloc.c:36-69) as one machine. A step is one shared access of one thread, and a thread's position
  is the rest of its operation. `deschedule(&f)` tests and blocks in one step, `make_runnable` wakes only a blocked
  thread, thread ids are unique.
- **Semaphore.dfy**, **Threads.dfy**, **ThreadGroup.dfy**: semaphores, thr_create/thr_join/thr_exit, and thread
  groups, each a machine on top of the one below it. Their states contain the lower machine's state, and each of
  their steps is at most one step of it, so that every run of theirs is a run of the one below (`Projects` in each of
  the three), and what holds in every run of that one holds in theirs. **SecondJoin.dfy** (`SecondJoin`) builds a
  run in which thr_join admits two callers for one thread, up to the use of the freed record.
  Code between two library calls that only touches data guarded by a mutex the thread holds is one step.
- **BootMemory.dfy** (`BootMemory`): the search for free memory at boot. **MersenneTwister.dfy**
  (`MersenneTwister`): MT19937 against its recurrence.
- **NumberText.dfy** (`NumberText`): number conversions of `_doprnt`, `strtol` and `strtoul`. **Tokens.dfy**
  (`Tokens`): `strtok` and the boot command line. **CStrings.dfy** (`CStrings`): NUL-terminated strings for both.
- **LinkedList.dfy** (`LinkedList`): the doubly linked list of waiters and thread records. **MachineWord.dfy**
  (`MachineWord`): 32-bit words for all that need them.

The state machines keep auxiliary variables beside the program's: the operation a thread is in, the mutexes it
holds, how far a waiter's record has come, logs of arrivals and departures. No step depends on them.

Where the code and its comments differ, the model follows the code:

- `list_find` is said to return NULL for an unknown number (user/libthread/linked_list.c:103); its assertion fails
  instead (line 113), so the test for NULL in `thr_join` (user/libthread/thread.c:275-279) is dead.
- In C99, section 7.19.6.1, the flag `-` overrides `0`. `_doprnt` pads with zeros in front
  (410user/libstdio/doprnt.c:612-616), and accepts one `0` only behind all other flags.
- `strtol` looks at a `+` and does not step over it (410user/libstdlib/strtol.c:35-36), unlike C99, section 7.20.1.4.
- `_calloc` divides by `nmemb` before anything else (410user/libmalloc/malloc.c:326), so a count of 0 traps.
- The smallest block is said to have 32 bytes (410user/libmalloc/malloc.c:23); a request above 0xfffffff0 bytes makes
  one of 16 (`MallocShort`).
- A hole whose end wraps around 2^32 protects nothing (410kern/boot/util_lmm.c:71-73, 103-146): `WrappedHole`.

## Model

| member | source | states |
|---|---|---|
| LongDivision.QDivRem | 410user/libx86/gccisms.c:89-283 | for all 64-bit u and v, q = u / v and r = u mod v on every path (v = 0, u < v, one digit, Program D); with v = 0 the trap, and the remainder is not written |
| LongDivision.UDivDI3 | 410user/libx86/gccisms.c:317-322 | the quotient alone |
| LongDivision.UModDI3 | 410user/libx86/gccisms.c:305-312 | the remainder alone |
| LongDivision.TrialDigit | 410user/libx86/gccisms.c:205-231 | the digit that D3 ends with is the largest one whose product with the divisor's first two digits fits under the dividend's first three, or B-1 |
| LongDivision.TrialTest | 410user/libx86/gccisms.c:226 | neither side of D3's test overflows 32 bits, and it compares qhat * (v1, v2) with (u0, u1, u2) exactly |
| LongDivision.TrialDigitBound | 410user/libx86/gccisms.c:205-231 | such a digit is the true quotient digit or one above it, for divisors of any length |
| LongDivision.TrialCorrect | 410user/libx86/gccisms.c:205-261 | in digits of any number: u - qhat * v lies in [-v, v), and qhat = 0 is never too large |
| LongDivision.BorrowStep | 410user/libx86/gccisms.c:238-244 | the borrow taken from the upper half of a wrapped 32-bit difference is the mathematical one, and the half is nonzero exactly for a negative difference |
| LongDivision.MultiplySubtract | 410user/libx86/gccisms.c:232-251 | D4 subtracts qhat * v from the window and sees a borrow exactly if the product is the larger |
| LongDivision.AddBack | 410user/libx86/gccisms.c:251-259 | D6 adds v and drops the carry |
| LongDivision.QuotientDigit | 410user/libx86/gccisms.c:203-260 | D3 to D6 find the true digit and leave a window below v, whether or not D6 is needed |
| LongDivision.DivStep | 410user/libx86/gccisms.c:203-261 | one more digit keeps u = (digits so far) * v + rest, and frees the window's first cell |
| LongDivision.ProgramD | 410user/libx86/gccisms.c:190-261 | for every m and n >= 2: the digit loop divides the normalised number, with the remainder in the last n cells and nothing outside touched |
| LongDivision.Shl | 410user/libx86/gccisms.c:290-299 | the digits times 2^sh, less what falls out at the left |
| LongDivision.Normalise | 410user/libx86/gccisms.c:190-196 | both numbers are scaled by the same power of 2, and the divisor's first digit is at least B/2 |
| LongDivision.Unshift | 410user/libx86/gccisms.c:269-275 | the digits divided by 2^d |
| LongDivision.Unscale | 410user/libx86/gccisms.c:263-278 | dividing scaled numbers gives the same quotient, and the remainder scaled |
| LongDivision.DivideByDigit | 410user/libx86/gccisms.c:144-171 | division by a one-digit divisor |
| LongDivision.ShlDigit | 410user/libx86/gccisms.c:297-298 | a digit shifted left keeps exactly what does not fall out, and with the next digit's top bits it is a digit again |
| Digits.OrIsSum | 410user/libx86/gccisms.c:297-298 | words without a common bit: `or` is the sum |
| Digits.ValConcat | 410user/libx86/gccisms.c:120-143 | what digit strings mean when they are joined, for strings of any length |
| Malloc.Heap.MemSbrk | 410user/libmalloc/memlib.c:46-71 | the old break, or 0 and nothing changed; the new bytes are mapped exactly if the sum does not wrap |
| Malloc.AdjustedSizeFits | 410user/libmalloc/malloc.c:221-222 | the rounded block size has room for the request and both tags exactly up to 0xffffffe0 bytes |
| Malloc.WrappedSize | 410user/libmalloc/malloc.c:221-222 | for the sizes above that the rounding yields 0 up to 0xfffffff0 bytes, and 16 from there on |
| Malloc.CallocCheck | 410user/libmalloc/malloc.c:323-329 | the division detects an overflow of the product exactly |
| Malloc.Heap.MmInit | 410user/libmalloc/malloc.c:165-188 | the prologue and the epilogue form a valid heap with nothing allocated; if the kernel grants a page more there is one free block of 4096 bytes, and otherwise none |
| Malloc.Heap.Malloc | 410user/libmalloc/malloc.c:201-244 | 16-byte aligned, room for the request, apart from all live payloads; first fit; no live payload changes; a failed request changes nothing. For every size: arithmetic wraps exactly if the size is above 0xffffffe0, or nothing fits and the growth would take the break to 2^32 |
| Malloc.Heap.MallocShort | 410user/libmalloc/malloc.c:201-244 | what malloc hands out for every size above 0xffffffe0. From 0xfffffff1 on a live block smaller than the request, of 0 bytes or, if the block found has 32 bytes, of 16 (on a fresh heap 0 bytes, for instance for 0xffffffff); only the second leaves all blocks with at least 32 bytes. Up to 0xfffffff0 a pointer into a block that stays free, with the footer in front of it overwritten; the heap stays valid if and only if that is the prologue's, and the check at the end fails if and only if it is the first block's. Live payloads never change |
| Malloc.Heap.Free | 410user/libmalloc/malloc.c:250-265 | exactly the payload given goes; no other changes |
| Malloc.Heap.Realloc | 410user/libmalloc/malloc.c:275-314 | keeps the first min(old payload, new size) bytes, all other payloads, and the old block if the request fails; wraps exactly as malloc does |
| Malloc.Heap.Calloc | 410user/libmalloc/malloc.c:321-339 | traps exactly for a count of 0, refuses a product of 2^32 or more, and otherwise returns zeroed memory as malloc does, wrapping exactly as malloc does |
| Malloc.Heap.ExtendHeap | 410user/libmalloc/malloc.c:349-370 | a free block of at least the size, joined with a free last block, and the heap stays valid; wraps exactly if the break would |
| Malloc.Heap.Coalesce | 410user/libmalloc/malloc.c:377-415 | all four cases: no two neighbouring free blocks remain, and no payload changes |
| Malloc.Heap.Place | 410user/libmalloc/malloc.c:424-444 | splits exactly if 32 bytes or more are left, and the payload handed out overlaps no other |
| Malloc.Heap.PlaceShort | 410user/libmalloc/malloc.c:424-444 | place with a size of 0 or 16: the exact blocks, tags and payloads that it leaves, and exactly when they form a valid heap |
| Malloc.Heap.FindFit | 410user/libmalloc/malloc.c:450-464 | the first free block that is large enough, or none |
| Malloc.Heap.CheckHeap | 410user/libmalloc/malloc.c:618-637 | reports exactly whether the prologue and the first block's two tags are sound, and in every valid heap no assertion of the checker fails |
| Malloc.Heap.LiveSafe | 410user/libmalloc/malloc.c:201-244 | live payloads are aligned, mapped and pairwise disjoint |
| Malloc.Heap.WriteTags | 410user/libmalloc/malloc.c:543-558 | header and footer agree, and nothing outside the block changes |
| Malloc.Heap.PayloadSize | 410user/libmalloc/malloc.c:515-519 | the size in the header is the live payload's |
| HeapLayout.FirstFit | 410user/libmalloc/malloc.c:450-464 | the specification of the search: the block found is free and fits, and none before it does |
| HeapLayout.Neighbours | 410user/libmalloc/malloc.c:565-593 | the words before and after a block are its neighbours' footer and header, or the prologue and the epilogue |
| HeapLayout.TilesNext | 410user/libmalloc/malloc.c:565-572 | stepping by block sizes goes from each block to the next and from the last to the epilogue |
| HeapLayout.MergeFree | 410user/libmalloc/malloc.c:377-415 | joining free neighbours keeps the layout and all live payloads, and leaves no two free neighbours |
| HeapLayout.PlaceBlocks | 410user/libmalloc/malloc.c:424-444 | replacing a free block by an allocated one and a free rest keeps the layout and adds one payload |
| HeapLayout.ReleaseBlock | 410user/libmalloc/malloc.c:250-265 | clearing the allocation bit takes out one payload, and free neighbours can then be only beside that block |
| HeapLayout.PayloadWrite | 410user/libmalloc/malloc.c:302-336 | a client that writes inside its payload damages neither the tags nor other payloads |
| HeapLayout.LiveSeparate | 410user/libmalloc/malloc.c:23-39 | payloads of different blocks of a heap do not overlap |
| HeapLayout.PackRoundTrip | 410user/libmalloc/malloc.c:487-528 | size and allocation bit are read back from a header as they were packed |
| HeapLayout.WordRoundTrip | 410user/libmalloc/malloc.c:543-558 | an 8-byte word is read back from the bytes as it was written |
| Qsort.QSort | 410user/libstdlib/qsort.c:90-170 | for every total preorder: terminates, sorted, a permutation, nothing outside the range touched |
| Qsort.Pass | 410user/libstdlib/qsort.c:100-162 | one pass ends with the range sorted by insertion, or with smaller, equal and larger elements in three pieces of which the outer two are shorter |
| Qsort.Partition | 410user/libstdlib/qsort.c:120-147 | the invariant `= < ? > =` ends with nothing unknown; if no swap was counted the range is as it was |
| Qsort.GatherEqual | 410user/libstdlib/qsort.c:156-160 | the two vector swaps bring the equal elements to the middle |
| Qsort.VecSwap | 410user/libstdlib/qsort.c:78-78 | two stretches are exchanged element by element, nothing else |
| Qsort.InsertionSort | 410user/libstdlib/qsort.c:102-105 | sorts, by rearrangement within the range |
| Qsort.Med3IsMedian | 410user/libstdlib/qsort.c:80-88 | the element picked lies between the other two |
| Qsort.PivotCentral | 410user/libstdlib/qsort.c:108-119 | the median of three medians has at least three other elements of the range not above it and three not below it; the median of three, used for 8 to 40 elements, has one on either side |
| Qsort.ChoosePivot | 410user/libstdlib/qsort.c:108-119 | finds that element, in range, and so central in this sense |
| Sync.StepKeeps | user/libthread/cond.c:91-248 | every step of any thread, at any point of lock, unlock, wait, signal, broadcast, destroy, malloc or fork, keeps the invariant |
| Sync.RunInv | user/libthread/cond.c:91-248 | the invariant holds in every reachable state |
| Sync.MutualExclusion | user/libthread/mutex.c:84-115 | a mutex is locked exactly while one thread is between its lock and its unlock, and then no other is |
| Sync.NoSpinCycle | user/libthread/mutex.c:84-97 | no ring of threads spins each on a mutex that the next one holds, under the order client, condition variable, allocator |
| Sync.NothingFails | user/libthread/cond.c:122-248 | no assertion on a mutex or condition variable fails, and no freed waiter record is touched |
| Sync.NoLostWakeup | user/libthread/cond.c:146-213 | a thread asleep in cond_wait is queued with its flag down, or a signaller that holds that condition variable's mutex has dequeued the thread's own record and has yet to mark it, or has marked it and has yet to wake the thread |
| Sync.NoSpuriousReturn | user/libthread/cond.c:173-181 | cond_wait leaves its loop only if the record it inserted was dequeued by a signal or broadcast later, and was the thread's all the time |
| Sync.FirstComeFirstServed | user/libthread/cond.c:200-211 | arrivals are those served followed by those queued, in order: the oldest waiter is served first |
| Sync.ServesThoseQueued | user/libthread/cond.c:219-248 | a broadcast serves exactly the waiters queued when it got the mutex, a signal exactly the oldest, whatever other threads do meanwhile |
| Sync.QueueGuarded | user/libthread/cond.c:149-169 | only the holder of a condition variable's mutex changes its queue |
| Sync.RecStep | user/libthread/cond.c:152-211 | a waiter's record only moves forward: inserted by its owner, dequeued by a signaller, marked; nobody touches it after the mark that lets the waiter free it |
| Sync.StaysUndisturbed | user/libthread/cond.c:146-181 | a waiter stays waiting through every step that does not dequeue it |
| Semaphore.SemStepKeeps | user/libthread/sem.c:38-124 | every step of any thread keeps the balance of value, queue and accounts, also in the middle of a call |
| Semaphore.SemRunInv | user/libthread/sem.c:38-124 | the balance holds in every reachable state |
| Semaphore.Conservation | user/libthread/sem.c:85-124 | with the mutex free, queued waiters = max(0, -value), and granted waits = initial count + signals - max(0, value) |
| Semaphore.NoOvertaking | user/libthread/sem.c:90-97 | sem_wait goes straight through only if nobody is queued |
| Semaphore.NegativeCount | user/libthread/sem.c:38-56 | after sem_init the law of waiters holds if and only if the count is not negative |
| Semaphore.CallsAllowed | user/libthread/sem.c:85-124 | each library call in sem_wait and sem_signal meets what the callee demands |
| Semaphore.Projects | user/libthread/sem.c:85-124 | every run with semaphores is a run of the machine below |
| Threads.ThrStepKeeps | user/libthread/thread.c:177-355 | every step of thr_create, thr_join and thr_exit, at any point and with any answer of the kernel, keeps the invariant |
| Threads.ThrRunInv | user/libthread/thread.c:105-355 | the invariant holds in every reachable state |
| Threads.NothingBreaks | user/libthread/linked_list.c:104-116 | no lookup in the thread list fails, also not for a child that calls thr_exit before its creator has listed it, and no freed record is used |
| Threads.JoinAfterExit | user/libthread/thread.c:292-310 | thr_join goes on only after the thread's thr_exit, with one `if` around cond_wait, and finds the status passed to it |
| Threads.DeliversStatus | user/libthread/thread.c:304-308 | the status delivered is the one passed to thr_exit, then and in every later state |
| Threads.JoinFreesOnce | user/libthread/thread.c:282-331 | the one joiner is not turned away, and the record it removes is listed, allocated and no one else's |
| Threads.SecondJoiner | user/libthread/thread.c:282-296 | a second thr_join, made while the first waits or has not yet locked the list again, is turned away if and only if the thread has not called thr_exit; otherwise both callers go on to collect and free one record |
| Threads.LateJoiner | user/libthread/thread.c:304-326 | when one of two such callers has removed the record, the other's next access fails |
| SecondJoin.Counterexample | user/libthread/thread.c:269-355 | from the start state: two threads are created, one of them waits in thr_join for the root thread, that one calls thr_exit, and before the joiner has locked the list again the other may call thr_join for the root thread too, in a state where SecondJoiner says it gets through |
| SecondJoin.Exits | user/libthread/thread.c:335-355 | the steps of a thr_exit that finds one joiner waiting lead to: status kept, joinedFlag cleared, the joiner's record dequeued and marked, the list unlocked |
| SecondJoin.SecondJoinBreaks | user/libthread/thread.c:269-333 | the run goes on: the second caller collects, destroys, removes and frees the record and unlocks the list; then the first caller locks it, and its next access is to the freed record |
| Threads.OneInside | user/libthread/thread.c:177-355 | the list is worked on by one thread at a time |
| Threads.CallsAllowed | user/libthread/thread.c:177-355 | each call of the library below meets what the callee demands |
| Threads.Projects | user/libthread/thread.c:177-355 | every run of the thread library is a run of the machine below |
| ThreadGroup.GrpStepKeeps | 410user/libthrgrp/thrgrp.c:81-195 | every step of thrgrp_create, thrgrp_bottom and thrgrp_join keeps the invariant of the group and of everything below |
| ThreadGroup.GrpRunInv | 410user/libthrgrp/thrgrp.c:81-195 | the invariant holds in every reachable state |
| ThreadGroup.Accounts | 410user/libthrgrp/thrgrp.c:81-195 | created = running + zombies + joined in every reachable state, and each thread is one of these |
| ThreadGroup.TakenOnce | 410user/libthrgrp/thrgrp.c:166-195 | threads leave the queue in the order in which they entered it, each at most once |
| ThreadGroup.QueueIsChain | 410user/libthrgrp/thrgrp.c:81-111 | zombie_in and zombie_out are both null or delimit a chain of distinct allocated elements |
| ThreadGroup.OneJoiner | 410user/libthrgrp/thrgrp.c:166-195 | thrgrp_join calls thr_join only for a thread that nobody has called it for, so group-only clients meet the thread library's demand |
| ThreadGroup.Projects | 410user/libthrgrp/thrgrp.c:81-195 | every run with a group is a run of the thread library that continues the one in which the group was set up |
| ThreadGroup.HandsOnStatus | 410user/libthrgrp/thrgrp.c:81-111 | the status that thrgrp_join hands on is the one its thread passed to thr_exit, and that is what the thread's function returned |
| ThreadGroup.ThrJoins | 410user/libthrgrp/thrgrp.c:190-194 | that call is an allowed step of the thread library and keeps its invariant |
| ThreadGroup.NothingBreaks | 410user/libthrgrp/thrgrp.c:81-195 | no queue element is touched after it was freed |
| BootMemory.Skip | 410kern/boot/util_lmm.c:56-61 | the block is cut before the hole, or everything up to the new minimum lies in it |
| BootMemory.SkipModules | 410kern/boot/util_lmm.c:124-133 | the same for all modules and their strings |
| BootMemory.Pass | 410kern/boot/util_lmm.c:96-147 | one pass finds a block clear of all holes, or raises the minimum over bytes that are all taken |
| BootMemory.UtilLmm | 410kern/boot/util_lmm.c:63-149 | terminates; the freed blocks are nonempty, ascending and disjoint, and together exactly [0x500, 0xffffffff) minus all holes, overlapping, nested or empty |
| BootMemory.WrappedHole | 410kern/boot/util_lmm.c:71-73 | a hole computed from a start and a length covers its bytes if and only if its end does not wrap; otherwise it covers nothing |
| BootMemory.WrappedModule | 410kern/boot/util_lmm.c:124-133 | a module whose string's end wraps, or whose data end where they start or before, is treated as if it had no string or no data: every byte of it that nothing else covers is freed |
| MersenneTwister.Generator.Sgenrand | 410user/libRNG/mt19937int.c:51-61 | the table holds the first 624 words of the seed's sequence |
| MersenneTwister.Generator.Step | 410user/libRNG/mt19937int.c:77-88 | one cell of the in-place refill: the old and new cells it reads are the right ones, also across the end of the table |
| MersenneTwister.Generator.Refill | 410user/libRNG/mt19937int.c:69-90 | the three loops move the table 624 words on in the infinite sequence |
| MersenneTwister.Generator.Genrand | 410user/libRNG/mt19937int.c:64-97 | the next output is the tempering of the next word of the recurrence, with the default seed if none was set |
| MersenneTwister.Draw | 410user/libRNG/mt19937int.c:51-97 | for every seed and k, the k-th output is the tempering of x[624+k] |
| MersenneTwister.UndoU | 410user/libRNG/mt19937int.c:92-92 | the first tempering step has a two-sided inverse |
| MersenneTwister.UndoS | 410user/libRNG/mt19937int.c:93-93 | so has the second |
| MersenneTwister.TemperBijective | 410user/libRNG/mt19937int.c:91-95 | tempering is a bijection on 32-bit words, with its inverse given |
| MersenneTwister.Predictable | 410user/libRNG/mt19937int.c:64-97 | two generators that agree on 624 outputs in a row agree on all later words |
| NumberText.PrintNum | 410user/libstdio/doprnt.c:575-625 | the buffer of 32 characters suffices; the output is padding, sign, prefix and digits in the order of the flags, with zeros winning over left adjustment |
| NumberText.NumText | 410user/libstdio/doprnt.c:575-625 | what is printed is max(width, sign + prefix + digits) characters long |
| NumberText.Convert | 410user/libstdio/doprnt.c:501-573 | sign and base of each conversion; %p prints a 0x of its own and eight digits |
| NumberText.PrintConversion | 410user/libstdio/doprnt.c:215-634 | one conversion from behind its % to behind its letter: scanned, printed as the flags say, or its letter itself |
| NumberText.DigitTextMeans | 410user/libstdio/doprnt.c:591-594 | the digits mean the number, are lower-case, and do not start with a 0 unless the number is 0 |
| NumberText.ScanConversion | 410user/libstdio/doprnt.c:217-282 | flags by membership in any order with + over space, one 0, a width or a star, a precision, the l's, each part as long as it can be |
| NumberText.WrittenScans | 410user/libstdio/doprnt.c:226-282 | every conversion written with any flags, 0, width and l's is scanned as meant, and in no other way, inside any format |
| NumberText.Strtol | 410user/libstdlib/strtol.c:26-67 | the number that stands behind the spaces and the '-', wrapped to 32 bits, and where it ends, for every string and base |
| NumberText.Strtoul | 410user/libstdlib/strtoul.c:26-61 | the same without a sign |
| NumberText.SignedReadsBack | 410user/libstdlib/strtol.c:26-67 | strtol recovers every 32-bit n from %d (and %z in base 16) with any width and flags if and only if no '+' was asked for or n <= 0, and stops behind the last digit |
| NumberText.PrintedReadsBack | 410user/libstdio/doprnt.c:226-625 | whatever flags, width and l's a format asks %d for, and inside any format, strtol recovers the 32-bit number if and only if no '+' is among the flags or it is not positive |
| NumberText.UnsignedReadsBack | 410user/libstdlib/strtoul.c:26-61 | strtoul recovers every 32-bit u from %u, %x and %o in their bases, and from %#x and %#o in base 0 |
| NumberText.PointerReadsBack | 410user/libstdio/doprnt.c:519-533 | %p reads back if and only if # was not given or the pointer is null |
| LinkedList.List.constructor | user/libthread/linked_list.c:71-78 | the empty list |
| LinkedList.List.Insert | user/libthread/linked_list.c:119-161 | one new node in front, all others in their places; without memory nothing changes |
| LinkedList.List.Dequeue | user/libthread/linked_list.c:162-196 | the last element leaves and its data is returned; the empty list stays |
| LinkedList.List.Remove | user/libthread/linked_list.c:199-227 | exactly the node given goes, wherever it stands |
| LinkedList.List.Find | user/libthread/linked_list.c:104-116 | the first node with the number; the assertion fails exactly if there is none |
| LinkedList.WalksMirror | user/libthread/linked_list.c:71-227 | in every valid list the walk by next from the head and the walk by prev from the tail are each other's reverse, end, and are count long |
| LinkedList.OrderMoves | user/libthread/linked_list.c:119-227 | in the order of insertion, a dequeue only moves the line between gone and present, and a removal takes out just one; Perform carries it to the list |
| LinkedList.Fifo | user/libthread/linked_list.c:119-227 | over every mix of operations, what was dequeued and then what is left, oldest first, is what was inserted, in order, less as many as were removed; Perform carries it to the list |
| LinkedList.Perform | user/libthread/linked_list.c:119-227 | any sequence of insertions, refused insertions, dequeues and removals on a list leaves in it, and has handed out, exactly what the operations on sequences say |
| Tokens.Tokenizer.Strtok | 410user/libstring/strtok.c:37-86 | one call cuts out the next run and remembers where to go on, or finds none; one byte at most is written |
| Tokens.OneMore | 410user/libstring/strtok.c:37-86 | each call finds the next token of the string as it was before the first call, although NULs have been written into it |
| Tokens.PiecesAreRuns | 410user/libstring/strtok.c:37-86 | the tokens are the maximal runs of non-delimiters, all of them, in ascending order |
| Tokens.NextToken | 410user/libstring/strtok.c:48-49 | repeated calls go through the tokens in order, and then return NULL for good |
| Tokens.SortTokens | 410kern/boot/util_cmdline.c:46-60 | tokens without and with a '=' go to targ and tvar in their order, within 1+cllen and cllen entries |
| Tokens.Cmdline | 410kern/boot/util_cmdline.c:41-81 | argv and envp, each with a null pointer behind it, in one block; without a command line the kernel's name alone |
| Tokens.CmdlineWords | 410kern/boot/util_cmdline.c:52-72 | argv and envp together are all maximal runs of non-blanks of the command line, each in the one that its '=' tells, in ascending order |

## Left out

- user/libthread/rwlock.c: every function is an empty stub.
- The assembly stubs and the kernel: `xchg`, `deschedule`, `make_runnable`, `thread_fork`, `new_pages` and `vanish` are
  steps or answers with the meaning given above. `thread_fork` gives a new id that is not negative.
- Mutex fairness, the end of spin loops and other liveness that depends on the scheduler.
- Threads.JoinAfterExit: for one caller of thr_join per thread. `thr_exit` clears joinedFlag
  (user/libthread/thread.c:349), so a second joiner may pass the test at line 282 while the first has not yet relocked;
  SecondJoiner says when, SecondJoin.Counterexample reaches it, SecondJoinBreaks shows what follows, and all other
  results are for runs that do not go there.
- Threads.ThrStepKeeps: nothing is said about a thread's stack, which can be in use after thr_exit has unlocked the list.
- Threads.ThrRunInv: thr_init is the start state, with the root thread in the list. Failure of malloc inside
  list_insert after the fork is not modelled; neither is thr_create's alignment of the new stack.
- Threads.JoinFreesOnce: remove_pages may fail, and the record then stays in the list; nothing is claimed of a later join.
- Sync.NothingFails: clients take their own mutexes in the order of their numbers, call cond_wait with the one taken
  last, release what they hold, and destroy a condition variable only when nobody is in it. `cond_wait` has memory for
  its record and node; malloc hands out an address only when no thread is still on the way out of a call on a
  condition variable that stood there.
- Sync.MutualExclusion: clients' mutexes are initialised once and not destroyed; only those inside condition variables
  are initialised and destroyed in the model.
- Semaphore.Conservation: for counts that are not negative (NegativeCount says why); sem_destroy is left out.
- ThreadGroup.GrpStepKeeps: one group, initialised at any time in a run; its threads end by returning and are joined
  through it. thrgrp_destroy_group is left out, and so is the copy of the status that thr_join returns.
- Malloc.Heap.Malloc: where 32-bit arithmetic wraps the method stops and says so. MallocShort follows a wrapped size to
  the end of that call; calls on the heap it leaves are followed only if that is valid. A break that wraps (MemSbrk), and
  what realloc and calloc write into a block that is too small, are not followed further.
- Malloc.Heap.Place: for the sizes malloc asks for without a wrap; PlaceShort takes the other two.
  mem_init's probing for the first free page is a parameter, heapBase. Pointers given to free and realloc are live.
- Malloc.Heap.MmInit: the first page is always granted.
- Qsort.QSort: elements are cells of an array; the choice between copying longs and chars is not modelled, nor the
  comparator's calls through pointers.
- LongDivision.QDivRem: an `or` of parts that share no bit is written as their sum (OrIsSum, ShlDigit).
- BootMemory.UtilLmm: the regions of the memory manager and its free list; a block freed is a block reported.
- NumberText.Convert: the conversions %b, %c, %s, %t, %r and %n, the loop over the literal text between conversions, and
  the taking of arguments. A width beyond 2^31 is not cut off. Nothing in the repository sets _doprnt_truncates.
- NumberText.SignedReadsBack: signed overflow is taken to wrap, which only matters for -2^31.
- list_destroy (user/libthread/linked_list.c:81-100): it reads a node after freeing it; its only use is on an empty list.
- LinkedList.List.Dequeue: the node taken out is unlinked; that free may reuse its memory is not modelled.
- Tokens.Tokenizer.Strtok: one string at a time; delimiters may change from call to call.
- Test programs, the console, the one-loop string functions and the rest of libc: they would only add easy members.
