# FogOS in Dafny

FogOS is a teaching kernel in the xv6 family. This project models the parts of it whose
correctness depends on many steps taken together, and proves what those parts are for:

- the write-ahead log (`LogReservation`, `WriteAheadLog`, `LogRefinement`, `LogDriver`): every
  run, with crashes at any point, is a run of a store whose transactions are atomic; and the log
  is never too small, under an exact condition; what a release without log_write does to it
  (`UnloggedRelease`);
- the buffer cache (`BufferCache`): a ring of linked buffers in order of last release; and how
  many buffers the log and its users need, exactly (`BufferBound`);
- files (`BlockFormat`, `FileLayer`, `FileContents`, `FileBudget`, `FileLog`, `FileTight`,
  `FileSystem`): the free map, the block maps and the contents, as values and as code that
  changes a disk; what one write logs, exactly; and, with the log, what a crash leaves of the
  files (`SharedReservation`, `FileReservation`, `FilePanic`, `FileCrash`);
- memory (`PageTable`, `AddressSpace`, `UserCopy`, `VmDriver`): three-level page tables as a
  finite map, the page allocator, and the life of an address space;
- processes (`ProcProtocol`, `ProcInvariant`, `ProcSteps`, `ProcPreserve`, `ProcTheorems`,
  `ProcHistory`, `ProcKill`): the
  scheduler, sleep and wakeup, sleep-locks, fork, exit, wait and kill, and the log's
  `begin_op` and `end_op`, as one state machine over any number of CPUs and processes;
- pipes (`PipeRing`, `PipeRuns`) and the disk driver's descriptor rings (`IndexRing`,
  `VirtqueueRuns`, `VirtqueueDriver`, `VirtqueueData`), both with indices that wrap;
- user programs: the allocator (`FreeBlocks`, `Umalloc`), grep (`Patterns`, `Grep`, `GrepOutput`)
  and the shell's parser (`ShellSyntax`, `ShellPlain`, `ShellParser`).

Code that updates a structure in place is a class or a method on an array. Its contracts tie each
call to a state machine or to a function on values, kept in a ghost history that no caller sees.
The theorems are about all histories. A run is a `Trace`: the events in the order they happened.

The log's parameters and the disk's layout are variables of the theorems. The shipped constants
are one instance: MAXOPBLOCKS 10, LOGSIZE 30, NBUF 30, 2000 blocks, one bitmap block.

## Model

| member | source | states |
|---|---|---|
| `LogReservation.ReservationExact` | kernel/log.c:127-235 | over every interleaving of operations that are each first to log at most d blocks, "too big a transaction" is unreachable if and only if 2(MAXOPBLOCKS - d) is at least 1 and at least LOGSIZE - size + 2 |
| `LogReservation.ReservationShipped` | kernel/param.h:9-10 | with the shipped constants the panic is unreachable if and only if d is at most 9 |
| `LogReservation.LengthBound` | kernel/log.c:127-235 | in every run the header holds at most LOGSIZE - 2(MAXOPBLOCKS - d) blocks, also during a commit |
| `WriteAheadLog.HeaderRoundTrip` | kernel/log.c:87-114 | what write_head stores read_head returns, and the block stored is a well-formed header |
| `LogRefinement.RunRefines` | kernel/log.c:69-235 | forward simulation: any run of operations, buffer traffic, commit steps, crashes and recoveries keeps the log's invariant and is a run of a store with atomic commits |
| `LogRefinement.CrashAtomicity` | kernel/log.c:69-203 | at every point of every run, what recovery would give is exactly what the system held just before the last header write, when no operation was in progress; with no such write, what it started with |
| `LogRefinement.BeforeOrAfter` | kernel/log.c:194-203 | no step but the header write changes the recoverable contents, so a commit cut short gives the contents before it or after it |
| `LogRefinement.RecoveryIdempotent` | kernel/log.c:69-123 | recovery interrupted by any number of crashes ends with an empty log and, in every home block, what was durable at the first crash |
| `LogRefinement.LoggedStaysCached` | kernel/bio.c:139-151 | from log_write until its block has been installed, a logged block's buffer is cached and cannot be recycled |
| `LogRefinement.CommitSeesCompleted` | kernel/log.c:147-175 | at the commit point no operation is in progress, none can begin, and what becomes durable is what the completed operations wrote |
| `LogRefinement.LogWriteNeverPanics` | kernel/log.c:215-235 | every full run of d-bounded operations projects to a run of the reservation protocol, so under the exact condition log_write never finds the header too long |
| `UnloggedRelease.UnloggedExact` | kernel/fs.c:522-524 | after a changed buffer is released without log_write, every later run is still a run of the atomic store if and only if the block is in the log already or the buffer holds what the disk does |
| `UnloggedRelease.UpdateLost` | kernel/fs.c:522-524 | a run that reaches the other case: readers see the change, and then, once the buffer is recycled, the old contents |
| `LogRefinement.ReferencedAre` | kernel/bio.c:59-89 | the referenced buffers are the pinned ones and those in use by threads, two disjoint sets, so their number is the sum |
| `BufferBound.BuffersExact` | kernel/bio.c:59-89 | over every run of d-bounded operations while threads, commit and recovery use at most k buffers beside the pinned ones, some buffer is always unreferenced, and "no buffers" does not happen, if and only if NBUF exceeds LOGSIZE - 2(MAXOPBLOCKS - d) + k |
| `LogDriver.Log.SpecIsAbs` | kernel/log.c:69-235 | after every sequence of the methods below the log's invariant holds, and the current and the durable contents that they speak of are those of the disk and the cache |
| `LogDriver.Log.Commit` | kernel/log.c:179-203 | write_log, write_head, install_trans and the final write_head make durable exactly what was current, through steps each of which is a step of the machine, while other threads may hold any block that is not logged |
| `LogDriver.Log.InstallTrans` | kernel/log.c:69-83 | copying every logged block home, in commit or at boot, changes neither the current nor the recoverable contents |
| `LogDriver.Log.RecoverFromLog` | kernel/log.c:117-123 | after boot the log is empty and every block outside it holds what was durable before |
| `LogDriver.Log.TryBeginOp` | kernel/log.c:127-142 | one turn of begin_op's loop admits the operation exactly when no commit runs and a full reservation fits; refused, it changes nothing |
| `LogDriver.Log.LogWriteBuf` | kernel/log.c:215-235 | each of the two panics under exactly its condition; otherwise the block is in the header once, a new one is pinned once, and the contents are unchanged |
| `LogDriver.Log.EndOpAndCommit` | kernel/log.c:147-175 | the last operation to end makes everything current durable and empties the log; any other end changes neither |
| `BufferCache.BCache.constructor` | kernel/bio.c:37-53 | the linked buffers form one ring of NBUF unreferenced buffers |
| `BufferCache.BCache.Bget` | kernel/bio.c:59-89 | the block's buffer, of which there is never a second, gains a reference; else the unreferenced buffer released longest ago is rebound; null exactly when the block is not cached and all are referenced; every other buffer is untouched |
| `BufferCache.BCache.Brelse` | kernel/bio.c:117-137 | the ring stays a ring; a last reference moves the buffer to the front, all others keeping their order |
| `BufferCache.BCache.Bunpin` | kernel/bio.c:146-151 | the reference goes and the recency order stays, also at zero |
| `BlockFormat.BlockBitAfterPut` | kernel/fs.c:66-105 | setting one bit of a bitmap block changes that bit and no other |
| `FileLayer.LoadAfterStore` | kernel/fs.c:226-241 | an inode written is the inode read back, and the other inodes of its block are as they were |
| `FileLayer.AllocKeeps` | kernel/fs.c:66-88 | taking a free block keeps ownership, marks just that block, and no block map anywhere changes |
| `FileLayer.GrewKeeps` | kernel/fs.c:383-421 | however bmap grows a file, each block has one owner, the free map agrees, and whatever was mapped or in another file is unchanged |
| `FileContents.WroteKeeps` | kernel/fs.c:506-539 | after any prefix of writei's rounds the file holds what it held with the data so far spliced in |
| `FileContents.WriteWhole` | kernel/fs.c:506-539 | closing such a run gives a consistent file system whose files are the old ones with one splice in one of them |
| `FileContents.SmearedWhole` | kernel/fs.c:520-527 | closing a run that a fault ended: the bytes of whole rounds are spliced in, and those of the broken round show as far as the file reaches, without making it longer |
| `FileContents.TruncWhole` | kernel/fs.c:426-453 | closing a truncation gives a consistent file system in which only that file changed, to empty |
| `FileContents.SpliceTwice` | kernel/file.c:155-174 | two consecutive chunks are one write of their concatenation |
| `FileBudget.ChunkFits` | kernel/file.c:149-155 | a chunk costs at most ten blocks, nine if it starts a block, seven on a disk with one bitmap block |
| `FileLog.RunCost` | kernel/fs.c:506-539 | the set of blocks a write logs, also one that a fault stops, inode block included, is no larger than its cost |
| `FileLog.FinishedUnique` | kernel/fs.c:506-539 | a run of writei that writes everything is the only run there is from that state, block for block |
| `FileLog.RunCovered` | kernel/fs.c:506-539 | every block that differs after the whole rounds of a write is among those it logged |
| `FileTight.ChunkLogsTen` | kernel/file.c:149-155 | a consistent file system on which writing one chunk logs exactly MAXOPBLOCKS blocks: the bound is tight |
| `FileTight.HoleLogsEleven` | kernel/file.c:149-155 | where the file has a hole at the start of the write it logs eleven, so the bound rests on there being no holes |
| `SharedReservation.SharedExact` | kernel/log.c:127-235 | operations that share the disk's bitmap blocks, with e blocks of their own, the last log_write among these, and r bitmap blocks each: the panic is unreachable if and only if LOGSIZE - 2(MAXOPBLOCKS - e) - 1 and the smaller of the bitmap blocks and 2r together leave room |
| `FileReservation.ChunkShape` | kernel/file.c:149-155 | every chunk, also one cut short by a fault or a full disk, logs at most five blocks and four bitmap blocks before its inode's block, which is no bitmap block |
| `FileReservation.ChunkFillsShape` | kernel/file.c:149-155 | a chunk that logs ten blocks fills that shape: five, four and its inode's |
| `FileReservation.ChunkReservation` | kernel/log.c:127-235 | in any interleaving, operations of the shape of filewrite's chunks never meet "too big a transaction" if and only if the disk has at most seven bitmap blocks |
| `FilePanic.FilewritePanics` | kernel/file.c:149-174 | with eight the chunks themselves do: a consistent file system, four files of it, a chunk that filewrite writes to each, and a run of the log in which, with exactly the blocks these log in its header, the fourth comes to log its inode and finds the header too long |
| `FileCrash.CrashLeavesOperations` | kernel/log.c:69-235 | operations run in groups, from one moment with none in progress to the next, and may overlap: at every point of every run a crash and recovery leave what the last of the groups complete at the last commit point left, and each group ran on what the one before it left, groups taken back by earlier crashes not counted |
| `FileCrash.KeptIsInitial` | kernel/log.c:69-235 | the groups a crash leaves are all those up to some point, none missing in between |
| `FileCrash.CrashLeavesFiles` | kernel/log.c:69-235 | whatever writes and truncations each group stands for, what a crash leaves is a consistent file system whose files are those at the start after exactly the acts of these groups, in order |
| `FileCrash.WholeFiles` | kernel/fs.c:226-241 | the file system read back from the home blocks, inodes and all, is the one in memory, file for file |
| `FileCrash.WriteIsAct` | kernel/fs.c:506-539 | a write of the file layer does, from the home blocks it found to those it left, the act of splicing its data into its file, and no other |
| `FileCrash.TruncIsAct` | kernel/fs.c:426-453 | a truncation does the act of emptying its file |
| `FileSystem.FileSystem.FirstFree` | kernel/fs.c:66-88 | the scan over bitmap blocks and bits finds the lowest free block, or that there is none |
| `FileSystem.FileSystem.Balloc` | kernel/fs.c:66-88 | the lowest free block is marked and zeroed, two blocks are logged, and nothing else changes; 0 exactly when the disk is full |
| `FileSystem.FileSystem.Bmap` | kernel/fs.c:383-421 | direct, indirect and newly indirect: the address returned is the one the map then holds, what was mapped stays, and just the changed blocks are logged |
| `FileSystem.FileSystem.Readi` | kernel/fs.c:472-496 | exactly the file's bytes from off to the end of the request or of the file; -1, with those before the fault delivered, if one of them cannot be; it allocates nothing; nothing for an offset past the end or a sum that wraps |
| `FileSystem.FileSystem.WriteWithin` | kernel/fs.c:516-539 | one splice of the rounds that were whole; short only for a full disk or a fault in the very next round; and as logged set exactly that of the run, plus the inode's block, so that what a fault leaves of its round is not logged |
| `FileSystem.FileSystem.Writei` | kernel/fs.c:506-539 | -1 and no change for a refused range; otherwise one splice, and a smear after a fault, in one file, every other file byte for byte unchanged, within the cost |
| `FileSystem.FileSystem.Itrunc` | kernel/fs.c:426-453 | the file is empty; the blocks that were its own, and no others, are free; exactly their bitmap blocks and the inode's block are added to what is logged, and every block that differs is logged |
| `FileSystem.FileSystem.Filewrite` | kernel/file.c:135-181 | over all chunks: the bytes up to the new offset are spliced in; n or -1; failing only for a full disk, a refused range or a byte that cannot be read; no operation logs more than MAXOPBLOCKS |
| `AddressSpace.PageHasOneUse` | kernel/kalloc.c:47-82 | in every run each page of the machine is free, in use at one place of one page table, or held, and exactly one of these; the free list repeats nothing |
| `AddressSpace.LookupIsMap` | kernel/vm.c:86-103 | the three-level walk gives exactly the entry of a finite map, and an invalid entry exactly off its domain |
| `AddressSpace.PagesNotShared` | kernel/vm.c:306-333 | no physical page backs two user pages, in one address space or two |
| `AddressSpace.UserPagesFit` | kernel/vm.c:226-249 | an address space with n user pages uses fewer pages than the machine has, so growth stays below the trapframe |
| `UserCopy.CopyRoundTrip` | kernel/vm.c:352-396 | what copyout put in user pages copyin returns, across page boundaries |
| `UserCopy.CopyFrame` | kernel/vm.c:352-371 | every byte outside the range, and every byte of other address spaces, is unchanged |
| `VmDriver.Vm.constructor` | kernel/kalloc.c:27-40 | freerange puts every page of the range on the list once |
| `VmDriver.Vm.Kalloc` | kernel/kalloc.c:69-82 | the head of the list, until then free and not held; failure exactly when the list is empty |
| `VmDriver.Vm.Kfree` | kernel/kalloc.c:47-63 | a page held goes back once, to the head of the list |
| `VmDriver.PagesIn` | kernel/riscv.h:338 | the least number of pages that hold that many bytes |
| `VmDriver.Vm.Walk` | kernel/vm.c:86-103 | the last-level table for the address, made on the way if asked for; no translation of any address space changes |
| `VmDriver.Vm.MapOwn` | kernel/vm.c:143-165 | one translation added to the map, whose page the table now owns; on failure no translation changed and memory is exhausted |
| `VmDriver.Vm.Uvmunmap` | kernel/vm.c:171-192 | exactly the n translations go, and their pages if asked; no page gets a new place, and the tables and pages of other address spaces stay where they are with what they say |
| `VmDriver.Vm.Uvmalloc` | kernel/vm.c:226-249 | every address from the old size, rounded up, to the new one is the user's, holds zero and has the permissions given; those below are as they were, and no other page is added; out of memory, every translation is as before |
| `VmDriver.Vm.Uvmdealloc` | kernel/vm.c:256-267 | exactly the pages wholly above the new size go: every address below it keeps its byte and permissions |
| `VmDriver.Vm.Uvmcopy` | kernel/vm.c:306-333 | every address below the size has, in the child, the parent's byte and permissions, on pages of the child's own; on failure all copies made are undone |
| `VmDriver.Vm.FreeWalk` | kernel/vm.c:272-287 | with no leaves left, the table and all below it are freed, whatever their shape; the tables above, and all of other address spaces, are as they were |
| `VmDriver.Vm.Uvmfree` | kernel/vm.c:292-297 | the user pages and every table of the address space are freed |
| `VmDriver.Vm.ProcPagetable` | kernel/proc.c:177-206 | trampoline and trapframe in an otherwise empty new space, in which no address is the user's; on either failure everything is undone |
| `VmDriver.Vm.ProcFreepagetable` | kernel/proc.c:211-216 | every page at any place of the address space is on the free list afterwards, and every other address space keeps its tables, entries and pages: no leak, no double free |
| `VmDriver.Vm.Walkaddr` | kernel/vm.c:109-126 | succeeds exactly for addresses the user may access, with the page the map gives |
| `VmDriver.Vm.Copyout` | kernel/vm.c:352-371 | all bytes, exactly when every page of the range is the user's; else just those before the first page that is not |
| `VmDriver.Vm.Copyin` | kernel/vm.c:377-396 | the range's bytes, exactly when every page of it is the user's, and memory is unchanged |
| `VmDriver.Vm.Growproc` | kernel/proc.c:260-275 | size and pages move together for any 32-bit n: addresses below both sizes keep their bytes, new pages are zero and writable, none is left above; shrinking below zero wraps, and then nothing happens and the call succeeds |
| `ProcTheorems.RunInv` | kernel/proc.c:110-611 | the invariant over locks, states, channels, wakers, parents, CPUs and the log's counters holds in every reachable state, with preemption wherever no spinlock is held |
| `ProcTheorems.SleepLockNotLost` | kernel/sleeplock.c:22-41 | a process asleep on a sleep-lock whose guard is free implies a live holder, which will wake it: no lost wakeup |
| `ProcHistory.SleepLockExcludes` | kernel/sleeplock.c:22-41 | in every run, of the processes that are back from acquiresleep and have not released since, there is at most one, the one the lock records |
| `ProcHistory.SleepLockStep` | kernel/sleeplock.c:22-41 | no step takes a sleep-lock from its holder: it becomes free only in the holder's own releasesleep, and is taken only when it is free |
| `ProcHistory.OpsStep` | kernel/log.c:127-175 | over all steps: begin_op admits exactly when no commit runs and the log has room for all blocks of every operation; an operation is over exactly by its own end_op, of which the last starts the commit |
| `ProcHistory.CommitStep` | kernel/log.c:127-175 | while a commit runs no operation is in progress and none begins, and it passes from stage to stage by its own process alone; the log's length changes only in an operation or by a commit |
| `ProcTheorems.BeginOpNotLost` | kernel/log.c:127-175 | a process asleep in begin_op implies a live process that is committing or in an operation and not itself waiting there |
| `ProcTheorems.WaitNotLost` | kernel/proc.c:331-435 | a process asleep in wait has no exited child, counting those handed over by reparent |
| `ProcTheorems.SleepsOnOwnChannel` | kernel/proc.c:391-435 | a process asleep on a child channel is the process the channel belongs to |
| `ProcTheorems.CpuExclusive` | kernel/proc.c:445-506 | with its lock free a process is RUNNING if and only if some CPU runs it, and never two do |
| `ProcTheorems.LockHandedOver` | kernel/proc.c:445-538 | across swtch, in both directions, p->lock is held by the CPU that goes on, alone |
| `ProcTheorems.SchedHoldsOneLock` | kernel/proc.c:489-506 | sched is entered holding p->lock and no other lock, so its first two panics do not fire |
| `ProcTheorems.BackIsNotRunning` | kernel/proc.c:489-506 | a process that has switched away is not RUNNING, so the third panic does not fire |
| `ProcTheorems.ReapedIsOffCpu` | kernel/proc.c:347-435 | the child that wait frees is its own, and no CPU runs it or is still on its stack |
| `ProcTheorems.ParentsLive` | kernel/proc.c:280-386 | at no time has a process a parent that has exited or an unused slot as parent |
| `ProcHistory.ParentStep` | kernel/proc.c:280-435 | over all steps a process gets a parent only from fork, the forker, another only when that one exits, init, and loses it only by being freed, exited, in its wait |
| `ProcHistory.ParentsAreTree` | kernel/proc.c:280-435 | in every reachable state the parents form a tree: no process is its own ancestor, and init has no parent |
| `ProcHistory.ForksOwnChild` | kernel/proc.c:280-326 | the process that the end of fork makes runnable is a child of the forker |
| `ProcHistory.WaitReaps` | kernel/proc.c:391-435 | wait frees exactly an exited child of its own, and returns; any other child it leaves |
| `ProcHistory.WaitGivesUp` | kernel/proc.c:426-433 | after a scan that met no exited child wait returns if and only if the process has no child at all or has been killed, and otherwise sleeps |
| `ProcHistory.KilledStep` | kernel/proc.c:589-611 | only kill marks a process killed, it leaves it not asleep, and the mark stays until the process is freed |
| `ProcHistory.KillReaches` | kernel/proc.c:426-433 | a step leaves a killed process asleep in wait, or about to sleep there, if and only if it is a kill that comes after wait's look at the mark and before sleep has taken the process's lock |
| `ProcKill.KillLost` | kernel/proc.c:426-433 | a run that ends with a killed process asleep in wait and no lock held |
| `ProcTheorems.EndOpDoesNotPanic` | kernel/log.c:147-175 | end_op never finds a commit in progress |
| `ProcTheorems.SpinningEnds` | kernel/spinlock.c:22-72 | no CPU spins for a lock it holds, and chains of spinning CPUs end within two links: no spin deadlock |
| `PipeRing.Pipe.WriteStretch` | kernel/pipe.c:77-103 | the bytes stored until it sleeps or returns, in order and none overwritten, for every fault and kill point, with counters that wrap; it stops short of the end only at a byte that cannot be read, refused, or asleep beside a full pipe |
| `PipeRing.Pipe.ReadStretch` | kernel/pipe.c:106-130 | the bytes delivered are the oldest unread, as many as asked for unless the pipe is empty or a byte cannot be delivered, which is consumed and lost; none are delivered to a reader that could take one only from an empty pipe closed for writing |
| `PipeRing.Pipe.Close` | kernel/pipe.c:59-74 | one end closes, and the pipe is freed exactly when both have |
| `PipeRuns.PipeFifo` | kernel/pipe.c:59-130 | over all interleavings the bytes read are a prefix of the bytes written; no writer sleeps while there is room; and no reader beside a byte, if no writer was killed in mid-write |
| `PipeRuns.ReadProgress` | kernel/pipe.c:106-130 | in every state of every interleaving a read takes what it asked for, all there is, or up to a fault; it sleeps exactly on an empty pipe that is open, unless killed; taking nothing means the end of the file |
| `PipeRuns.WriteProgress` | kernel/pipe.c:77-103 | a write goes on where it was, and is over with all its bytes stored, at a fault, or refused; it is left asleep only beside a full pipe |
| `PipeRuns.ReadersStep` | kernel/pipe.c:84-87 | a step leaves no reader asleep beside a byte if and only if it is not the return of a killed writer that had stored bytes while a reader slept |
| `PipeRuns.ReaderWakeupLost` | kernel/pipe.c:84-87 | a run in which a reader is left asleep beside a byte |
| `IndexRing.Ring.Push` | kernel/virtio_disk.c:216-292 | an entry joins the queue and no waiting entry is overwritten, though the index wraps |
| `VirtqueueRuns.RunInv` | kernel/virtio_disk.c:157-327 | the invariant tying descriptors, chains, both rings and buffers holds in every run, requests completing in any order |
| `VirtqueueRuns.DescriptorInUse` | kernel/virtio_disk.c:157-197 | a descriptor is marked in use if and only if some request in flight has it |
| `VirtqueueRuns.ChainsDisjoint` | kernel/virtio_disk.c:202-213 | every request in flight has its three descriptors linked in order, and two requests share none |
| `VirtqueueRuns.CompletesItsOwn` | kernel/virtio_disk.c:295-327 | handling a used entry completes its own buffer and no other request's |
| `VirtqueueRuns.UsedIsDone` | kernel/virtio_disk.c:295-327 | each used entry names one request in flight, still waited for, and none twice, and its status is the one the device has written where the chain's last descriptor says |
| `VirtqueueRuns.RingsHaveRoom` | kernel/virtio_disk.c:216-292 | a descriptor not yet in a ring always finds a slot in it |
| `VirtqueueData.RequestDone` | kernel/virtio_disk.c:216-327 | in every run, when its thread finds a request completed, its buffer and its block are the same, and hold what the buffer held when a write was submitted, or what the block held when a read was |
| `VirtqueueData.OnlyAsked` | kernel/virtio_disk.c:216-327 | in every run no step of a thread, and none of the device for another request, changes the buffer or the block of a request in flight; the device's completion of it makes exactly the transfer its caller asked for |
| `VirtqueueDriver.Disk.Alloc3` | kernel/virtio_disk.c:202-213 | three distinct descriptors that were free, or a free set as before: a partial allocation is given back |
| `VirtqueueDriver.Disk.FreeChain` | kernel/virtio_disk.c:186-197 | following the links frees the three descriptors and no other |
| `VirtqueueDriver.Disk.Submit` | kernel/virtio_disk.c:216-281 | a step of the machine: chain formatted, recorded and made available; without three descriptors nothing is submitted |
| `VirtqueueDriver.Disk.Intr` | kernel/virtio_disk.c:295-327 | every waiting used entry is handled once, in order |
| `VirtqueueDriver.Disk.Finish` | kernel/virtio_disk.c:282-292 | once its buffer is done, the request's own descriptors are freed, as a step of the machine |
| `FreeBlocks.RunSound` | user/umalloc.c:25-90 | in every run the free list is a ring in address order, and free blocks and blocks handed out tile exactly the memory obtained |
| `FreeBlocks.BlocksApart` | user/umalloc.c:64-90 | no two blocks overlap, free or handed out |
| `FreeBlocks.UnitHasBlock` | user/umalloc.c:25-44 | every unit obtained from sbrk is in some block: none is lost |
| `FreeBlocks.FreeSteps` | user/umalloc.c:25-44 | free, merging up, down, both or neither, leaves no two neighbouring free blocks unmerged |
| `Umalloc.SbrkArgumentExact` | user/umalloc.c:54 | the argument passed to sbrk is the number of bytes wanted if and only if fewer than 2^27 units are asked for; otherwise it is smaller |
| `Umalloc.Allocator.Find` | user/umalloc.c:25-44 | free's search ends at the one place in the ring where the block goes, also across the wrap |
| `Umalloc.Allocator.Free` | user/umalloc.c:25-44 | the block's memory is free again in a piece at least its size; other blocks keep theirs |
| `Umalloc.Allocator.Morecore` | user/umalloc.c:47-61 | more memory with a free piece of at least the size asked for, or no change; from 2^27 units on, no change or a header that runs past the memory obtained |
| `Umalloc.Allocator.Malloc` | user/umalloc.c:64-90 | a new block of exactly the units needed, apart from all others; sbrk is used only if no free block fits, and only then can it fail; the header overruns the memory if and only if 2^27 units or more are wanted, no free block fits, and sbrk succeeds |
| `Patterns.BeginsStarred` | user/grep.c:98-105 | a starred item matches a run of any length and then the rest |
| `Patterns.ParseWritten` | user/grep.c:84-95 | every pattern of items, with or without a final `$`, that can be written is what its text is read as |
| `Patterns.WriteParsed` | user/grep.c:84-95 | every text is the text of the pattern it is read as, so the reading is one to one |
| `Grep.MatchHere` | user/grep.c:84-95 | the recursive matcher decides exactly whether the text can be split as the pattern describes |
| `Grep.MatchStar` | user/grep.c:98-105 | its loop finds a split for `c*` exactly when there is one |
| `Grep.Match` | user/grep.c:72-81 | true exactly when the pattern matches somewhere, or at the start after `^` |
| `Grep.Grep` | user/grep.c:11-34 | the output is a function of the whole input: it does not depend on where reads split it |
| `GrepOutput.PrintsMatching` | user/grep.c:11-34 | of an input of lines that fit the buffer, just those that match are printed, whole and in order |
| `ShellSyntax.RoundTrip` | user/sh.c:338-456 | every tree can be printed as a line that parses to that tree |
| `ShellSyntax.PrintedForm` | user/sh.c:338-456 | every accepted line has a printed form with the same tree |
| `ShellPlain.PlainRoundTrip` | user/sh.c:355-456 | every tree, written with parentheses only where the binding of the symbols asks for them, is read back: redirections bind to the command, then pipes, then &, then semicolons, pipes and semicolons grouping to the right |
| `ShellPlain.PlainForm` | user/sh.c:355-456 | every accepted line has such a form with the same tree |
| `ShellPlain.SimpleCommand` | user/sh.c:426-456 | redirections may stand anywhere among the arguments: these keep their order, and the redirections go around them in theirs |
| `ShellSyntax.WordsConserved` | user/sh.c:338-456 | the words of an accepted line are those of its tree, each as often |
| `ShellParser.Parser.GetToken` | user/sh.c:276-318 | one token of the line's lexical form, and, for a word, its place |
| `ShellParser.Parser.ParseExec` | user/sh.c:426-456 | agrees with the grammar on every token list: tree, rest and error |
| `ShellParser.Parser.ParseLine` | user/sh.c:355-369 | agrees with the grammar, the mutual recursion through blocks included |
| `ShellParser.WordsEnded` | user/sh.c:460-503 | once a NUL ends each word, the C string at each place is the word: no NUL falls inside another |
| `ShellParser.ParseCmd` | user/sh.c:338-352 | the tree whose C strings are the line's words, or the panic of the first syntax error |

## Findings

- kernel/pipe.c:84-87: a writer that is killed after storing some of its bytes returns without waking
  readers. A reader asleep at that time stays asleep beside bytes it could read
  (`PipeRuns.ReaderWakeupLost`). This is the only step that does so (`PipeRuns.ReadersStep`).
- user/umalloc.c:54: the product passed to sbrk is a 32-bit int, so requests of 2^27 units or more ask for
  too little memory (`Umalloc.SbrkArgumentExact`; `Umalloc.LargestRequest` is one), while the header records the
  full size (`Umalloc.Allocator.Malloc`).
- kernel/log.c:127-142: reserving MAXOPBLOCKS per operation is not enough if an operation is first to log
  that many blocks. The header may hold one block fewer than LOGSIZE, so with d = 10 the panic of log_write
  is reachable (`LogReservation.ReservationShipped`). A chunk of filewrite can log ten blocks, but four of them are
  bitmap blocks, which chunks share: on disks with up to seven bitmap blocks no interleaving of chunks meets the
  panic, and with eight or more, operations of their shape do (`FileReservation.ChunkReservation`); with eight, four
  chunks written to four files do (`FilePanic.FilewritePanics`). The shipped disk has one.
- kernel/param.h:10-11: NBUF equals LOGSIZE. With operations that log nine blocks, the pins leave room for one
  more buffer in use, and with seven for five, counting the one that commit itself holds; one more than that and
  bget's panic is reachable (`BufferBound.BuffersExact`).
- kernel/file.c:149-155: the comment counts two blocks for an unaligned write and one for each allocation.
  The exact cost follows the bitmap blocks, and the chunk size leaves no slack at ten (`FileTight.ChunkLogsTen`).
- kernel/proc.c:426-433: wait looks whether the process has been killed, and sleeps in a later step. A kill in between
  marks a process that is not asleep yet, so does not wake it, and it sleeps until a child exits
  or it is killed again (`ProcKill.KillLost`). There is no other way for a killed process to be asleep there (`ProcHistory.KillReaches`).
- kernel/fs.c:522-524: after a failed copyin writei releases a buffer it may have changed without log_write.
  Readers may then see bytes that are gone once the buffer is recycled (`UnloggedRelease.UpdateLost`), exactly when
  the block was not in the log and the bytes differ (`UnloggedRelease.UnloggedExact`).

## Left out

- LogRefinement.RunRefines: the runs have log_write before brelse of any changed buffer, which is not so after
  a failed copyin in writei; `UnloggedRelease.UnloggedExact` says what such a release does.
- BufferBound.BuffersExact: the log's machine itself has no bound on the cache; the number of referenced buffers
  is bounded beside it. The disk is taken to have enough blocks after the log, and d to be safe for the log.
- LogReservation.ReservationExact: for LOGSIZE of at least 2 MAXOPBLOCKS and 1 <= d <= MAXOPBLOCKS.
- FilePanic.FilewritePanics: the file layer writes the four chunks one after the other, and the log's run, in which two
  operations overlap, is tied to them by the blocks each logs; on disks with more than eight bitmap blocks the panic is
  shown for operations of the chunks' shape only.
- FileCrash.CrashLeavesFiles: that the operations of a group, which may overlap, leave what its acts would one after the
  other is asked of the run; inode locks, under which the kernel runs them, are not in the log's machine. Writes cut
  short by a fault are not among the acts.
- LogDriver.Log.Commit: as in the other methods of the class no thread holds a logged block; commit would wait for it.
- Umalloc.Allocator.Malloc: after a header has overrun the memory nothing is promised.
- VmDriver.Vm.Uvmalloc, Uvmcopy and Growproc: the machine has fewer pages than fit below the trapframe, as with
  the shipped 128 MB.
- VirtqueueRuns.UsedIsDone: the status that the device writes is taken to be good, so the status panic is outside
  the model.
- ProcHistory.KilledStep: usertrap's setkilled, by which a process marks itself, is not among the steps.
- VmDriver.Vm.Uvmunmap: the page is freed after the entry is cleared, where the source frees it first; no step
  comes between.
- copyinstr; mappages over several pages (kvmmap).
- Several file operations in progress at once on one inode: the file layer runs one at a time, under its lock.
- Inode types, link counts, directories, paths and file descriptors; device files; the console.
- A disk write is atomic for a block; memory is sequentially consistent, and fences are not modelled.
- push_off and pop_off and the interrupt flag, and with them the other panics of sched and acquire.
- Sleeping for the disk is not told from other preemption in the process model, and the lock of the disk driver
  is not in it; fairness and eventual progress are not stated, nor pid and tick overflow.
- virtio device discovery and initialisation; exec and program loading; the shell's execution of its trees.
