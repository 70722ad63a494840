# A verified model of the operating-system simulator

The repository simulates an operating system with four programs that talk over sockets: consoles that send programs, a
kernel that schedules them, a CPU that executes them, and a memory server that pages them. This project models the
kernel's scheduler, the memory server, the CPU's accesses to memory and the wire format, and proves what they are for.

- **Scheduler** (`Kernel*.dfy`). The threads and message handlers of `kernel.c`, the CPU's loop and the memory's
  answers are one transition system; a step is one semaphore operation, one queue operation or one critical section of
  one thread. Every step has a shape - the counter it waits on, the one it posts, the place a PCB leaves and the place
  it enters - and fifteen counting laws are kept because what a step takes and what it adds cancel (`KernelLaws`).
  From them: no worker ever blocks on an empty queue, credits are conserved, the CPU always belongs to exactly one
  (`KernelSafety`); every process is in exactly one place (`KernelConservation`); programs run in order and bursts are
  measured right over any preemptions, once their dispatch is timed (`KernelHistory`); the I/O a process waits for is
  what it asked for, since it asked, and decides its suspension (`KernelIo`); what its console gave stays with it
  (`KernelOrigin`); queues serve in order, suspended processes before new ones (`KernelQueues`); under SRT the CPU
  gets a least remaining burst and has one (`KernelOrder`); memory never gets a request it cannot serve
  (`KernelAdmission`), each of its replies finds its process (`KernelReplies`), and the indexes it gave come back to
  it (`KernelHandles`). Four defects of the scheduler are kept and their exact conditions proved
  (`KernelConservation`, `KernelPreemption`, `KernelDeadlock`, `KernelTiming`); the runs that show them are built step
  by step in `KernelReach`.
- **Memory** (`Clock.dfy`, `Paging*.dfy`, `Tables.dfy`, `MemoryStore.dfy`, `MemoryServer.dfy`). `Paging` says what
  each operation does to a process; `PagingRuns` proves that, over every run, a process reads what it wrote last, and
  `PagingBits` that the bits the replacement goes by say what was accessed and written. `Clock` specifies the
  replacement policies. `MemoryServer.Server` is the program: two-level tables, frame lists, bitmap, byte array and
  swap files changed in place, the loops of `page_table.c` included, each method proved to do what `Paging` says.
  `Mmu` executes READ, WRITE and COPY through it.
- **All together** (`Machine.dfy`, `MachineServer.dfy`). The scheduler, the memory and the CPU's accesses, interleaved
  in any way; and the program of the memory server in the place of the memory, asked with the indexes the PCBs carry.
- **Wire format** (`Wire.dfy`, `StreamBuffers.dfy`, `Framing.dfy`). Printer and parser as functions and their round
  trip, the growing buffer with its writers and readers, and packets over a stream that moves any number of bytes at a
  time. The network is a function that says what each call of `send` and `recv` comes to.
- **As written** (`AsWritten.dfy`). Where the model repairs the code, what the code does and exactly when that is
  right.

## Repairs

The model follows the code except where the code cannot do what it is for. Each repair is named here.

- The clock hand wraps at the frames of the process (`AsWritten.HandStaysInside`), a slot is free when its `page_data`
  is NULL (`AsWritten.FreeFramesAreNotFound`), and the frames are looked up in `processes_frames`.
- Pages are numbered throughout a process (`AsWritten.SlotsCollide`), swap is written in place
  (`AsWritten.AppendedPageIsLost`), page copies move the bytes, and a fault into a free slot loads from swap too.
- A read marks its page used, a write also modified (`AsWritten.ClockIsFirstInFirstOut`, `PagingBits.UsedExactly`).
- A suspension releases the frames once, after the loops. A resumption asks memory for frames and waits for them as a
  creation does, where `kernel.c:380` only has a comment.
- The physical address is `frame * pageSize + offset` (`AsWritten.PhysicalAddressIsRight`), address 0 is served
  (`AsWritten.OneAddressIsRefused`), the second request of the MMU goes into its own packet, and COPY translates each
  address just before it uses it (`AsWritten.SecondTranslationMayEvict`).
- `exit_process_success` takes the PCB out of `memory_exit_q`. Sending a request to memory and queueing the PCB that
  waits for the reply are one step.
- A level-1 table holds the numbers of its level-2 tables: `page_table.c:43` stores each number itself in the list,
  and `page_table.c:116` and `memory.c:182` dereference it as a pointer.
- The CPU and the memory talk on after the handshake: `cpu_handshake_listener` (`memory.c:87-100`) hands the
  connection to nobody, the handlers of `memory.c:275-382` return false, which ends the loop of whoever called them,
  and the CPU starts no thread that reads `memory_server_socket` (`cpu.c:43-59`).

Four defects are kept, each with its exact condition:

- With an interruption pending, an I/O call or an exit sends its PCB twice (`cpu.c:217-225`). Runs without that are
  `Guarded`. All runs are if and only if the algorithm is FIFO or the level has room for one process
  (`KernelPreemption.GuardedExactly`).
- `receive_process` increments the global `pid` and then reads it back (`kernel.c:251-252`), with a handler thread for
  every console and no lock: a load, a store and a load; the exact condition is for runs whose handlers are all done.
  There the pids are distinct if and only if no handler stored between another one's first load and its last, the run
  being `InTurn` (`KernelConservation.PidsAreDistinctExactly`). While a handler is under way one direction alone is
  stated: in turn, they are distinct (`KernelConservation.InTurnIsDistinct`).
- `put_to_ready` can wait for ever, with `execution_mutex`, for an idle CPU to answer its interruption
  (`kernel.c:412-421`), so that nothing is executed any more: if and only if the algorithm is SRT and the level has
  room for a process (`KernelDeadlock.DeadlocksExactly`). It begins when the interruption is sent to a CPU that has
  let its process go but whose `cpu_free` is not posted yet, as `io_op` and `exit_op` post it after they have passed
  the process on, or is posted and taken by `to_exec`; or when an I/O call or an exit executes before the interruption
  arrives (`KernelDeadlock.StuckBegins`). With `to_exec` at the mutex, holding the token of the CPU
  (`kernel.c:308-311`), it takes room for two (`KernelDeadlock.CrossesExactly`).
- `to_exec` reads the clock after it has sent the process (`kernel.c:319-325`), and `io_op` takes no mutex. An I/O
  call handled in between is measured from the dispatch before: in a run without the first two defects, with a clock
  that goes on, a burst is measured right if and only if its `io_op` does not come there
  (`KernelHistory.IoMeasuresExactly`). That can happen if and only if the level has room for a process
  (`KernelTiming.MisreadsExactly`).

## Model

| member | source | states |
|---|---|---|
| KernelLaws.BalanceAfter | kernel/src/kernel.c:118-622 | a step of any thread changes the balance of any counting law by what its shape takes and adds |
| KernelLaws.CpuCancels | kernel/src/kernel.c:308-319 | no step changes cpu_free plus the PCBs dispatched and not returned |
| KernelLaws.CreditCancels | kernel/src/kernel.c:430-448 | no step but a fruitless look of to_ready changes sem_multiprogram plus the processes admitted |
| KernelLaws.AnyCancels | kernel/src/kernel.c:264 | no other step changes any_for_ready against what new_q and suspended_ready_q hold |
| KernelLaws.InterruptCancels | kernel/src/kernel.c:412-422 | an interruption under way keeps its put_to_ready waiting until handle_interruption is done |
| KernelSafety.CpuIsExclusive | kernel/src/kernel.c:308-319 | cpu_free, a dispatch under way, the PCBs with the CPU and a return being handled are always exactly one together |
| KernelSafety.SafeKept | kernel/src/kernel.c:118-622 | every step keeps all counting laws, the checked queues and the CPU's messages right |
| KernelSafety.SafeAlways | kernel/src/kernel.c:118-622 | so does every guarded run |
| KernelSafety.NeverPreemptsIsGuarded | kernel/src/kernel.c:393-398 | under FIFO, or with room for one process, no interruption meets an I/O call or an exit |
| KernelSafety.NoCreditIsBurnt | kernel/src/kernel.c:435-444 | to_ready never takes a credit to find both queues empty |
| KernelSafety.CreditsAreConserved | kernel/src/kernel.c:207-209 | the semaphore, the credits in a thread's hands and the admitted processes add up to the multiprogramming level |
| KernelSafety.TokensNeverExceedQueues | kernel/src/kernel.c:20-29 | any_for_ready, process_for_IO, ready_for_exec and to_exit never exceed the queues they count |
| KernelSafety.TakesNeverBlock | shared/src/queue.c:43-50 | a worker that has come to a pQueue_take finds an element |
| KernelSafety.InterruptsHoldTheMutex | kernel/src/kernel.c:387-428 | from its sending to the end of its handling an interruption holds execution_mutex, and there is at most one |
| KernelConservation.CopiesAfter | kernel/src/kernel.c:118-622 | a step changes the number of PCBs of a pid only when a handler gives a new one the pid it reads, or by the CPU's second send |
| KernelConservation.ConservedExactly | kernel/src/kernel.c:252 | a step keeps one PCB for each pid given out if and only if it neither sends a PCB twice nor gives out a pid again |
| KernelConservation.RunsConserveExactly | cpu/src/cpu.c:207-228 | a run keeps that all along if and only if it has no such step |
| KernelConservation.NumberingKept | kernel/src/kernel.c:251-252 | in turn, the handlers have given out the pids up to the global, but for the one that is still to be read back |
| KernelConservation.PidsAreDistinctExactly | kernel/src/kernel.c:251-252 | once every handler is done, no pid was given out twice if and only if no handler stored it between another one's load and its reading back |
| KernelConservation.FinishedRunsConserveExactly | kernel/src/kernel.c:251-252 | then the processes were conserved if and only if that holds and no PCB was sent twice |
| KernelConservation.TwoHandlersShareAPid | kernel/src/kernel.c:251-258 | two handlers that both increment before either reads leave two processes with pid 2 and none with pid 1 |
| KernelPreemption.SrtDuplicatesAProcess | cpu/src/cpu.c:217-225 | under SRT with room for two processes a run guarded so far comes to an I/O call that leaves process 1 in two places |
| KernelPreemption.GuardedExactly | cpu/src/cpu.c:217-225 | no run sends a PCB twice if and only if the algorithm is FIFO or the level is at most one |
| KernelPreemption.ConservesExactly | kernel/src/kernel.c:393-422 | those are the configurations under which all runs with their handlers in turn conserve the processes |
| KernelDeadlock.StuckForEver | kernel/src/kernel.c:412-421 | once put_to_ready waits for an idle CPU to answer its interruption, no step of anybody ends it and no instruction is executed |
| KernelDeadlock.StuckBegins | kernel/src/kernel.c:387-423 | it begins exactly where put_to_ready interrupts an idle CPU whose token is not there, or an I/O call or an exit executes with the interruption still on the wire |
| KernelDeadlock.DeadlocksExactly | kernel/src/kernel.c:610-621 | a run can come to that if and only if the algorithm is SRT and the level has room for a process |
| KernelDeadlock.CrossesExactly | kernel/src/kernel.c:308-311 | with to_exec waiting for execution_mutex, the token of the CPU in its hands, if and only if SRT and room for two |
| KernelConservation.EveryProcessIsInOnePlace | kernel/src/kernel.c:118-622 | after any run that is guarded and in turn each pid given out is in exactly one place |
| KernelConservation.EveryFifoProcessIsInOnePlace | kernel/src/kernel.c:393-398 | after any run under FIFO with its handlers in turn too |
| KernelConservation.OccurrencesOfSort | shared/src/queue.c:67-72 | sorting a queue loses and duplicates no process |
| KernelHistory.TracedKept | cpu/src/cpu.c:235-243 | what was executed for a pid stays a prefix of its program, and every PCB points just behind it |
| KernelHistory.ProgramsRunInOrder | cpu/src/cpu.c:207-258 | over any run without the first two defects the instructions executed for a process are a prefix of its program |
| KernelHistory.RealBurstIsTheBurst | kernel/src/kernel.c:587 | real is the CPU time of the burst while that is below 2^31, though the remainder wraps below zero in its unsigned field |
| KernelHistory.MeasuredKept | kernel/src/kernel.c:545-552 | the estimate less the remainder stays the CPU time used in the burst |
| KernelHistory.IoMeasuresTheBurst | kernel/src/kernel.c:584-591 | once to_exec has read the clock, an I/O call measures the burst over any number of preemptions |
| KernelHistory.IoMeasuresExactly | kernel/src/kernel.c:319-325 | where the clock goes on, it measures the burst right if and only if it does not come between to_exec's send and its reading of the clock |
| KernelTiming.MisreadsExactly | kernel/src/kernel.c:574-591 | a run without the other defects can come to a burst measured wrong if and only if the level has room for a process |
| KernelHistory.EstimateIsBetween | kernel/src/kernel.c:588 | with alpha in [0, 1] the new estimate is between the burst and the old one |
| KernelHistory.EstimateAtTheEnds | kernel/src/kernel.c:588 | with alpha 1 the new estimate is the burst, with alpha 0 the old estimate |
| KernelHistory.EstimateMovesByAlpha | kernel/src/kernel.c:588 | the new estimate is the old one moved by alpha of the way to the burst, rounded down |
| KernelHistory.EstimateIsTheWeightedMean | kernel/src/kernel.c:588 | with alpha p/q it is the mean of burst and old estimate weighted p to q - p, in whole numbers |
| KernelHistory.IoReestimates | kernel/src/kernel.c:584-598 | an I/O call leaves that estimate, of the burst the process has had over all preemptions, in the PCB and its remainder, at the end of blocked_q |
| KernelHistory.EstimatesStayWithin | kernel/src/kernel.c:255-256 | estimates never leave an interval that holds the initial estimate and all bursts |
| KernelIo.PlacedKept | kernel/src/kernel.c:118-622 | each step keeps every process that waits for I/O, exit or admission where the last instruction of its program has put it |
| KernelIo.IoIsWhatWasAsked | cpu/src/cpu.c:270-280 | the I/O a process comes back with and waits for is the parameter of its last instruction, less what io_listener slept before a suspension |
| KernelIo.SuspensionSplitsTheIo | kernel/src/kernel.c:140-178 | io_listener suspends a process exactly when the I/O it asked for would end later than the maximum after its call was handled; what it sleeps and what is left are that I/O |
| KernelIo.ExitIsForWhoExits | kernel/src/kernel.c:607-622 | a process waits for its exit or has had it exactly when its last instruction is EXIT, so it executes nothing after it |
| KernelIo.LeavesTheCpuExactly | cpu/src/cpu.c:213-240 | the CPU gives a process back exactly after an I/O call, an EXIT, or the first instruction with an interruption noticed |
| KernelOrigin.OriginsStay | kernel/src/kernel.c:241-256 | size and socket are those the console gave wherever the PCB is, and memory is asked for that size |
| KernelQueues.QueuesServeInOrder | shared/src/queue.c:36-51 | over runs, what leaves a queue and what it holds are what it held and what came to it, in that order |
| KernelQueues.FifoDispatchesInOrder | kernel/src/kernel.c:303-318 | under FIFO processes are dispatched in the order in which they have become ready |
| KernelQueues.MessagesKeepTheirOrder | memory/src/memory.c:136-272 | requests are served in the order they were sent, replies handled in the order they were given |
| KernelQueues.ServesExactly | kernel/src/kernel.c:430-448 | once to_ready has looked, the next process to leave its queues is the head suspended_ready_q had, and the head of new_q if and only if that was empty; io_listener likewise with blocked_q and suspended_block_q |
| KernelQueues.FirstQueueGoesFirst | kernel/src/kernel.c:127-210 | while to_ready or io_listener is about to look, the head of suspended_ready_q, or of blocked_q, is the next to leave, whatever happens |
| KernelOrder.EveryQueueCanBeSorted | kernel/src/utils.c:32-37 | SJF_sort orders every queue of processes |
| KernelOrder.OrderedKept | kernel/src/kernel.c:387-428 | whenever execution_mutex is free ready_q is in order, after each step |
| KernelOrder.DispatchTakesALeastBurst | kernel/src/utils.c:32-37 | under SRT the process dispatched has a least remaining burst, read as a signed value |
| KernelOrder.PreemptiveKept | kernel/src/kernel.c:387-428 | each step keeps that, and that the CPU has nobody while put_to_ready sorts |
| KernelOrder.TheCpuHasALeastBurst | kernel/src/kernel.c:399-423 | under SRT, outside put_to_ready's critical section, no process is ready with a shorter remaining burst than the one on the CPU came there with |
| KernelAdmission.OneMoreRequest | kernel/src/kernel.c:352-358 | a request that will find what it relies on can be sent behind those under way |
| KernelAdmission.AskedIsWelcome | kernel/src/kernel.c:181-209 | each request the kernel sends is one of those: a process to admit holds no frames yet and is not one too many |
| KernelAdmission.NoMorePidsThanPcbs | kernel/src/kernel.c:430-448 | the processes that hold frames are no more than their PCBs |
| KernelAdmission.RequestsAreWelcome | memory/src/memory.c:136-163 | when memory serves a creation or resumption fewer processes than the level hold frames, though waiting_for_suspension starts at 1 |
| KernelReplies.AccountedKept | kernel/src/kernel.c:450-512 | who waits in memory_init_q or memory_exit_q is in exactly one request or reply |
| KernelReplies.OneAwaitsTables | kernel/src/kernel.c:461-468 | at most one process waits in memory_init_q, so the head that is taken is the one found |
| KernelReplies.EveryReplyFindsItsProcess | kernel/src/kernel.c:473-485 | the kernel never terminates itself because a reply names nobody |
| KernelHandles.NewcomerIsUnknown | kernel/src/kernel.c:349-358 | a process memory is asked to create has no indexes there |
| KernelHandles.HandledKept | kernel/src/kernel.c:461-466 | every PCB that has been told its indexes, every request and every reply agree with what memory has given, after each step |
| KernelHandles.HandlesComeBack | kernel/src/kernel.c:182-186 | the next request names the page_table and process_frames_index memory gave its process, and so does the PCB on the CPU |
| Machine.RunningIsResident | cpu/src/cpu.c:439-475 | the process on the CPU holds its frames |
| Machine.MemoryNeverLacksFrames | memory/src/page_table.c:49-81 | with framesInMemory at least level times framesPerProcess, whatever the kernel or the CPU asks next can be served |
| Machine.ServedIsARun | memory/src/memory.c:77-100 | what the memory serves in the whole machine is a run of the paged memory |
| Machine.ProcessesReadWhatTheyWrote | memory/src/memory.c:355-382 | in the whole machine a read answers with the bytes last written at the logical address |
| MachineServer.HandleRequest | memory/src/memory.c:136-272 | the handlers of the kernel's requests do to the memory what Paging says, and give and take the indexes |
| MachineServer.Start | memory/src/memory.c:384-406 | the server begins as the machine's memory |
| MachineServer.Serve | memory/src/memory.c:136-272 | in the whole machine the server serves the next request, finds all it relies on, and stays the machine's memory |
| MachineServer.Translate | cpu/src/cpu.c:439-475 | the MMU, with the indexes of the PCB on the CPU, gets the physical address the machine's memory has |
| MachineServer.Load | memory/src/memory.c:355-382 | memory_read answers what the machine's memory answers |
| MachineServer.Store | memory/src/memory.c:325-353 | memory_write does what the machine's memory does |
| MachineServer.OthersLeaveTheServer | kernel/src/kernel.c:118-622 | no other step of the machine concerns the server |
| MachineServer.AnswersAreLastWritten | memory/src/memory.c:355-382 | the bytes so read are those the process wrote last |
| Clock.LeastIsLeast | memory/src/page_table.c:251-318 | the specified victim is least in rank, the nearest to the hand among those |
| Clock.ClockTakesTheFirstUnused | memory/src/page_table.c:297-314 | CLOCK takes the first unused frame, or the one at the hand when all are used |
| Clock.ClockMTakesTheLeast | memory/src/page_table.c:263-296 | CLOCK-M takes a frame least in (used, modified) |
| Clock.SecondCallFinds | memory/src/page_table.c:239-246 | CLOCK-M's second call finds the victim of the specification at the same distance, clears nothing more, and both look at 3n+1 frames at most |
| Clock.ClockProbes | memory/src/page_table.c:251-318 | one call of CLOCK always finds a victim and looks at n+1 frames at most |
| Clock.ClearedAt | memory/src/page_table.c:291 | exactly the used bits of the frames passed are cleared |
| Clock.ReplacementClearsExactly | memory/src/page_table.c:251-318 | a replacement clears a used bit exactly when all frames from the hand to it are used and CLOCK-M has no unused, unmodified one |
| Clock.VictimIsLeastAndNearest | memory/src/page_table.c:251-318 | the victim is least by (used, modified) or by used, the nearest to the hand among equals, and the hand stops behind it |
| PagingFrames.AssignGrants | memory/src/page_table.c:49-81 | an allocation gives distinct free frames, as many as asked or as there are, and marks exactly those |
| PagingFrames.AssignTakesTheLowest | memory/src/utils.c:87-97 | each frame given is the lowest that was free |
| PagingFrames.ReleaseClears | memory/src/page_table.c:84-97 | a release clears exactly the bits of the process's frames |
| PagingFrames.ReleaseUndoesAssign | memory/src/page_table.c:49-97 | releasing what was allocated gives the bitmap back |
| PagingProcess.TranslatedOk | memory/src/page_table.c:130-249 | a translation leaves the page present and the process consistent, changes the contents of no page and no frame of others |
| PagingProcess.WrittenOk | memory/src/memory.c:325-353 | a write changes its page and no other |
| PagingProcess.SuspendedOk | memory/src/memory.c:165-222 | a suspension keeps the contents of every page, in swap |
| PagingProcess.EvictedOk | memory/src/page_table.c:213-222 | an eviction keeps the contents of every page |
| PagingProcess.SecondCall | memory/src/page_table.c:238-249 | the two calls of CLOCK-M replace the page the specification says |
| PagingRuns.Refines | memory/src/memory.c:136-382 | each request keeps the memory consistent and acts on the flat memories as specified |
| PagingRuns.BytesAreAsLastWritten | memory/src/page_table.c:130-249 | over every run each byte of a process is the one last written there, zero before |
| PagingRuns.ReadsReturnTheLastWrite | memory/src/memory.c:355-382 | so is every byte a read answers with, for any interleaving with other processes' requests |
| PagingRuns.PresentPagesHaveOneSlot | memory/src/page_table.c:130-236 | a page is present exactly when one slot points at it, with the same frame |
| PagingRuns.PresentPagesFitTheFrames | memory/src/page_table.c:130-236 | a process never has more pages present than framesPerProcess, and none while it is suspended |
| PagingRuns.NoTwoPagesShareAFrame | memory/src/page_table.c:130-236 | present pages have different frames |
| PagingRuns.FramesHaveOneOwner | memory/src/utils.c:99-109 | a bit is set exactly when one process owns the frame; free and owned frames are all there are |
| PagingRuns.RoomForOneMore | memory/src/page_table.c:49-81 | with fewer resident processes than the level there are frames for one more |
| PagingBits.UsedExactly | memory/src/page_table.c:141-142 | over every run a page is used exactly when it was read or written since the last scan that passed it |
| PagingBits.ModifiedExactly | memory/src/page_table.c:141-142 | a present page is modified exactly when it was written since it came in |
| PagingBits.AccessesMark | memory/src/memory.c:355-382 | a read leaves its page used, a write also modified |
| PagingBits.EvictionsGoByThePolicy | memory/src/page_table.c:130-249 | over every run a fault fills the lowest free slot; without one it takes the slot that goes first by CLOCK or CLOCK-M on those bits, and moves the hand behind it |
| PagingBits.OnlyFaultsMoveTheHand | memory/src/page_table.c:251-318 | no other request moves the hand |
| PagingBits.ProcessesHaveTheirSize | memory/src/page_table.c:4-46 | a process has as many whole pages as fit the size it was created with, for its whole life |
| Tables.Splits | cpu/src/cpu.c:440-443 | a quotient and a remainder are found back from the number they make |
| Tables.SetChangesThePage | memory/src/page_table.c:158-159 | changing an entry of a level-2 table changes that page of its process and no other |
| Tables.WriteChunk | memory/src/utils.c:59-62 | writing a frame of the byte array replaces that frame and no other |
| Tables.WriteWord | memory/src/memory.c:340 | writing a word inside a frame overwrites those bytes of it and leaves the other frames |
| MemoryStore.FreshIsRooted | memory/src/page_table.c:18-44 | the tables of a new process number its pages in order, all absent |
| MemoryStore.OthersKept | memory/src/page_table.c:130-249 | changes to the tables and frames of one process are invisible to the others |
| MemoryServer.Server.constructor | memory/src/memory.c:384-406 | an empty memory: no process, no frame assigned, zeros |
| MemoryServer.Server.PageTableInit | memory/src/page_table.c:4-46 | one level-1 table and whole level-2 tables for the pages of the process are added to the lists |
| MemoryServer.Server.FindFirstUnassignedFrame | memory/src/utils.c:87-97 | the lowest free frame, or -1 |
| MemoryServer.Server.AssignProcessFrames | memory/src/page_table.c:49-81 | the allocation of Paging, listed with the hand at 0 |
| MemoryServer.Server.UnassignProcessFrames | memory/src/page_table.c:84-97 | the release of Paging; the slots hold nothing any more |
| MemoryServer.Server.HasFreeFrame | memory/src/utils.c:65-74 | whether a slot holds no page |
| MemoryServer.Server.FindFirstFreeFrame | memory/src/utils.c:76-85 | the first such slot |
| MemoryServer.Server.SaveSwap | memory/src/swap.c:22-33 | the frame replaces its page in the swap file and nothing else |
| MemoryServer.Server.GetSwap | memory/src/swap.c:35-49 | the page of the swap file replaces the frame and nothing else |
| MemoryServer.Server.IncrementClockHand | memory/src/utils.c:111-118 | the hand moves on and wraps at the frames of the process |
| MemoryServer.Server.Replace | memory/src/page_table.c:213-236 | _replace: the page in the slot goes, the new one comes |
| MemoryServer.Server.TwoClockTurns | memory/src/page_table.c:251-318 | -1 exactly when CLOCK-M finds every frame used, and then all used bits are cleared; otherwise the specified victim, bits, hand and number of probes |
| MemoryServer.Server.ReplaceAlgorithm | memory/src/page_table.c:211-249 | the specified replacement, within n+1 probes under CLOCK and 3n+1 under CLOCK-M |
| MemoryServer.Server.GetFrameNumber | memory/src/page_table.c:130-175 | the translation of Paging, and the frame |
| MemoryServer.Server.AccessLvl2Table | memory/src/memory.c:294-323 | the translation as a step of the whole memory |
| MemoryServer.Server.ProcessNew | memory/src/memory.c:136-163 | the creation of Paging; other processes are untouched |
| MemoryServer.Server.ProcessSuspend | memory/src/memory.c:165-222 | the suspension of Paging; other processes are untouched |
| MemoryServer.Server.ProcessResume | kernel/src/kernel.c:380 | the resumption of Paging; other processes are untouched |
| MemoryServer.Server.ProcessExit | memory/src/memory.c:224-272 | the termination of Paging; other processes are untouched |
| MemoryServer.Server.MemoryRead | memory/src/memory.c:355-382 | the word at the physical address; its page is marked used |
| MemoryServer.Server.MemoryWrite | memory/src/memory.c:325-353 | the word is stored there; its page is marked used and modified |
| Mmu.AddressesSplit | cpu/src/cpu.c:439-446 | below the whole pages of a process both indexes are in range of its tables, and page and offset recompose to the address |
| Mmu.WalksAreDistinct | memory/src/page_table.c:109-127 | different pages, of one process or two, reach different entries |
| Mmu.Translate | cpu/src/cpu.c:439-475 | frame * pageSize + offset, after the translation of Paging |
| Mmu.ReadWord | cpu/src/cpu.c:315-328 | a word is read as the flat memory of the process has it, and no flat memory changes |
| Mmu.WriteWord | cpu/src/cpu.c:330-341 | the flat memory of the process changes in those four bytes, all else stays |
| Mmu.CopyWord | cpu/src/cpu.c:297-310 | the word at one address comes to the other, all else stays |
| Mmu.ExecuteRead | cpu/src/cpu.c:282-295 | READ a gets the word at a |
| Mmu.ExecuteWrite | cpu/src/cpu.c:362-373 | WRITE a v puts the word v at a, all else stays |
| Mmu.ExecuteCopy | cpu/src/cpu.c:297-310 | COPY a b puts the word at b to a, all else stays |
| Wire.WordRoundTrip | shared/src/serialization.c:36-42 | a word is read back from its four bytes |
| Wire.ParsesString | shared/src/serialization.c:44-52 | a NUL-free string is read back, whatever is around it |
| Wire.ParsesWords | shared/src/serialization.c:54-64 | so is a list of words |
| Wire.ParsesInstruction | shared/src/process_utils.c:117-136 | so is an instruction with any parameters |
| Wire.PcbRoundTrip | shared/src/pcb_utils.c:31-80 | an encoded PCB is read back equal and exactly its bytes are consumed |
| Wire.ProgramRoundTrip | shared/src/process_utils.c:100-115 | so is a process as the console sends it |
| Wire.PcbsAreUniquelyDecodable | shared/src/pcb_utils.c:31-80 | no encoding of a PCB begins another one |
| Wire.PcbLayout | shared/src/pcb_utils.c:67-80 | where each field of a PCB lies in its encoding, least significant byte first |
| Wire.ProgramLayout | shared/src/process_utils.c:100-105 | so for a process as the console sends it |
| Wire.InstructionLayout | shared/src/process_utils.c:131-136 | so for an instruction: length, name, NUL, count, parameters |
| StreamBuffers.StreamBuffer.Add | shared/src/serialization.c:26-34 | the bytes are appended, earlier contents kept; growth stops within one step of what is needed |
| StreamBuffers.StreamBuffer.AddPcb | shared/src/pcb_utils.c:67-80 | the encoding of the PCB is appended |
| StreamBuffers.StreamBuffer.AddProgram | shared/src/process_utils.c:100-105 | the encoding of the process is appended |
| StreamBuffers.StreamBuffer.TakeString | shared/src/serialization.c:84-93 | the parsed string, and its bytes are consumed |
| StreamBuffers.StreamBuffer.TakeWords | shared/src/serialization.c:95-113 | the parsed list, and its bytes are consumed |
| StreamBuffers.StreamBuffer.TakePcb | shared/src/pcb_utils.c:31-65 | the parsed PCB, and its bytes are consumed |
| StreamBuffers.StreamBuffer.TakeProgram | shared/src/process_utils.c:107-115 | the parsed process, and its bytes are consumed |
| StreamBuffers.PayloadOf | shared/src/pcb_utils.c:67-80 | the payload a PCB is sent in is its encoding, whatever the buffer's first size |
| StreamBuffers.TakenFrom | shared/src/pcb_utils.c:31-65 | from the bytes alone the receiver takes the PCB that was sent |
| Framing.SameFrame | shared/src/networking.c:240-246 | frames that begin the same bytes are frames of the same packet |
| Framing.FramesArePrefixes | shared/src/networking.c:178-196 | packets whose bytes begin the bytes sent are the first packets sent |
| Framing.FrameLayout | shared/src/networking.c:240-246 | a packet is a header of one byte, its size in four, and its payload |
| Framing.Connection.SendWrapper | shared/src/networking.c:214-227 | 1 if and only if no call of send fails, and then all bytes have gone; always the first so many of them; as many calls as the network makes it take |
| Framing.Connection.ReceiveWrapper | shared/src/networking.c:144-157 | 1 if and only if no call of recv fails and there are enough bytes, and then they have come, in order; so many calls too |
| Framing.Connection.SendPacket | shared/src/networking.c:240-246 | the frame of the packet goes; the connection breaks if and only if a call fails |
| Framing.Connection.ReceivePacket | shared/src/networking.c:178-196 | the packet whose frame is next comes; while packets are still to come the connection breaks if and only if a call fails |
| Framing.Connection.PacketsArriveInOrder | shared/src/networking.c:178-246 | while no packet is cut those received are the first of those sent, and all of them once the wire is empty |
| Framing.Connection.SendAll | shared/src/networking.c:240-246 | any packets go one after the other, in the calls they take; the connection breaks if and only if one of these fails |
| Framing.Connection.ReceiveAll | shared/src/networking.c:178-196 | a receiver that knows only how many gets the next packets sent, in order, if and only if none of the calls they take fails |
| Framing.Converse | shared/src/networking.c:144-246 | the two in turn: any sequence of packets is received as it was sent, over any network, if and only if none of the calls this takes fails |
| AsWritten.HandStaysInside | memory/src/utils.c:111-118 | the hand stays inside the frames of a process exactly when the memory has no more frames than one process |
| AsWritten.FreeFramesAreNotFound | memory/src/utils.c:65-85 | a process with its frames is never found to have a free one, which is right exactly when it has none |
| AsWritten.SlotsCollide | memory/src/page_table.c:33 | the pages of a process have swap slots of their own exactly when they fit one table |
| AsWritten.AppendedPageIsLost | memory/src/swap.c:26-29 | a page written by appending reads back as it was before |
| AsWritten.PhysicalAddressIsRight | cpu/src/cpu.c:470 | frame + offset is the address exactly in frame 0 or with pages of one byte |
| AsWritten.OneAddressIsRefused | memory/src/memory.c:330-359 | exactly the first address is refused |
| AsWritten.ClockIsFirstInFirstOut | memory/src/memory.c:342-371 | as no page is ever marked, both policies take the frame at the hand |
| AsWritten.SecondTranslationMayEvict | cpu/src/cpu.c:306-309 | exactly when COPY's second translation leaves the first page in place |
| AsWritten.OneFrameCannotCopy | cpu/src/cpu.c:297-310 | with one frame for each process COPY between two pages always reads from the frame it is about to write |

## Left out

- Sockets, accepting and connecting, retries, sleeps, logging, configuration files, shutdown: input and output.
- The console's file reading and instruction parsing: they rest on library string functions.
- Clock readings are inputs of the steps that take them; only `KernelHistory.IoMeasuresExactly` and `KernelTiming`
  take the clock to go on.
- Liveness: that a thread which can go on does, and that every process ends; `KernelDeadlock` has when `put_to_ready`
  cannot.
- The TLB: the MMU never asks it.
- `queue.c` as a class: queues are the sequences a `Kernel.State` keeps in its places; their own semaphore equals
  their length.
- A program whose counter runs past its end, an unknown operation, and I/O without a parameter: the CPU stays with the
  process, or reads out of bounds; no step stands for these.
- CPU instructions are atomic, and so are the handlers' updates of one PCB.
- Which accesses an instruction makes: `Mmu` has them one by one; in `Machine` the process on the CPU may make any.
- Framing.Connection.Recv: an empty wire means that the other end has closed; waiting for it to send more is left out.
- A client socket numbered 0: `exit_process_success` takes it for a PCB that was not found and terminates the kernel.
- I/O time: how long the kernel sleeps, and the negative sleep when a process has waited longer than the maximum.
- Addresses at or above the whole pages of a process, and words across a page boundary: the source checks neither.
- Machine.MemoryNeverLacksFrames: the CPU is taken to use addresses inside its process, as `Possible` says for a
  translation.
- MemoryServer.Server.ProcessNew: where frames run out the source lists fewer and goes on; the method does the same,
  but nothing is claimed of such a process, and `Machine` shows that it does not arise.
- StreamBuffers.StreamBuffer.Take: the source takes whatever lies behind the offset; here the bytes must be there. The
  32-bit offset is unbounded.
- Wire.WordRoundTrip: host byte order is taken to be little-endian at both ends.
- Page data pointers are a table and a position; two pointers to one entry are equal positions, and entries are never
  freed.
- Rounding of the doubles in the burst estimate: `alpha` is a real.
