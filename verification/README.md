# A model of LXAPI32's stateful parts

LXAPI32.SYS gives other OS/2 drivers a small Linux API; LXAPID.EXE is its helper in user mode. This project
models the parts of the two that carry state and proves what they keep, for all inputs and all interleavings:

- the command protocol between driver and daemon (`CommandQueue`, `DaemonSystem`, `DaemonInvariant`,
  `DaemonTheorems`, `DaemonTraces`, `DaemonHandles`, `DaemonWakeups`, `DaemonProgress`, `DaemonLife`), and the
  daemon's own buffer and log files (`DaemonProcess`);
- page locks with reference-counted records (`PageLocks`, `LockSystem`);
- the registry of memory objects, a cache of address translations (`MemoryObjects`);
- the selector pool and the segment builder (`Segments`);
- the big kernel lock (`KernelLock`) and waiting across the boot migration (`WaitLists`);
- link repair below a renamed directory (`LinkRepair`, `LinkTrees`);
- the command-line scanner (`Parameters`).

`Machine` holds the 32-bit arithmetic and a few sequence notions.

How it is built. A lock-protected block is a function on values, and beside it stands the class method that does
the same in place, proved to compute that function. Where several threads take part, the functions are the steps
of a system in which every thread has a program counter; a run is any list of enabled steps, and the theorems are
about every state that a run reaches. Fields that only the proofs need (`ticket`, `hist`, `nest`, `owner`,
`locked`, `unlocked`) are history: no guard reads them. Calls into the OS are parameters: which call fails, what
memory holds, what a command returns, when a timed wait ends. Where a theorem says that what went in at one step
comes out at another (`DaemonTraces`), both are noted from the arguments of the run's steps.

Several promises hold only under a condition. The code is modelled as it is, and for each of these a member says
exactly when the promise holds:

- the daemon looks at its list without the lock and sleeps, untimed, some statements later. It sleeps on waiting
  commands if and only if a submission's wake-up came in between (`SleepsOnWork`; `WakeupCanBeLost` is such a run);
  only the next submission, a close or a broken sleep ends that (`StrandedStays`, `NextSubmissionServes`);
- two commands share a handle when a multiple of 2^32 - 1 submissions lies between them (`HandlesCollide`), and a
  caller overtaken that far can collect another's result (`OvertakenScanTakesTheOther`); the protocol's theorems are
  about runs in which no waiting command is overtaken that far;
- a shutdown with a block id would be answered twice (`BlockingShutdownPostsTwice`), and a blocking null buffer with
  a length would be read past its entry (`FetchStaysInside`); the callers in the driver do neither;
- a command of more than 0xFFFFF000 bytes never fits the daemon's buffer (`NeverFits`), so the theorems about
  growth and service are about runs without one; a failed allocation leaves the announced length ahead of the
  buffer (`IncreaseDataPacketLength`);
- the page rounding of a lock is right exactly when the rounded length fits in 32 bits (`RoundingExact`), and a
  second lock of an address with another size locks only the pages of the first (`SecondSizeNotLocked`);
- freeing a block leaves the translation cache right exactly when no other cached record lies in the block
  (`FreeAgreesExactly`, with a failing run in `FreeCanLeaveStale`);
- a waiter flagged for the move to the queue before it is asleep sleeps in block mode once more (`FlaggedConverts`,
  with such a run in `FlagCanComeEarly`);
- after a rename a link attribute is the right path exactly when its target lies below the renamed directory just
  in case its text starts with the old name of the node's own directory (`RepairIsRightExactly`; `RepairGoesWrong`
  has both ways to fail: a sibling directory with a longer name, and a link across subdirectories);
- log rotation keeps its promise exactly when the log's name does not end in a digit (`RotationExact`).

## Model

| member | source | states |
|---|---|---|
| CommandQueue.HandleCounts | Dev32/lxdaemon.c:232-236 | the increment that skips zero follows the closed form of the handle counter |
| CommandQueue.HandlesCollide | Dev32/lxdaemon.c:231-236 | two submissions share a handle if and only if their distance is a multiple of 2^32 - 1 |
| CommandQueue.HandlesDistinct | Dev32/lxdaemon.c:231-236 | any 2^32 - 1 consecutive submissions have different handles, none of them zero |
| CommandQueue.SplitConserves | Dev32/lxdaemon.c:279-287 | the entries a close keeps and those it frees are together the waiting list, each once |
| CommandQueue.SplitKeepsOrder | Dev32/lxdaemon.c:279-287 | the kept entries are exactly the blocking ones, in the order of the list |
| CommandQueue.Queues.AddCommand | Dev32/lxdaemon.c:231-239 | the locked block of a submission: next handle, entry at the tail |
| CommandQueue.Queues.TakeNext | Dev32/lxdaemon.c:87-98 | the head of a non-empty waiting list is taken, an empty one is left |
| CommandQueue.Queues.Fetch | Dev32/lxdaemon.c:109-154 | the whole fetch: a head that does not fit stays the head and the daemon is asked to grow, one that fits arrives with its bytes and is freed |
| CommandQueue.Queues.AddDone | Dev32/lxdaemon.c:73-78 | a result goes to the tail of the done list |
| CommandQueue.Queues.TakeResult | Dev32/lxdaemon.c:184-199 | the first result with the handle is removed, returned and freed; without one nothing changes |
| CommandQueue.Queues.DaemonClosed | Dev32/lxdaemon.c:269-296 | both loops end; the waiting list is empty, its blocking entries follow the old results in order, all results say ERROR_NO_CHILDREN, each other entry is freed once |
| DaemonInvariant.OnePlace | Dev32/lxdaemon.c:60-246 | the places of a command add up to one |
| DaemonInvariant.FetchedAreSent | Dev32/lxdaemon.c:141-144 | the bytes copied for a command in line are the bytes submitted, and lie inside their allocation |
| DaemonInvariant.LiveHandlesDiffer | Dev32/lxdaemon.c:185-197 | a live blocking command with a caller's handle is that caller's own |
| DaemonInvariant.ScanFindsOwn | Dev32/lxdaemon.c:176-199 | the entry a caller's scan finds is the one for its own command |
| DaemonInvariant.SettledKept | Dev32/lxdaemon.c:60-80 | a result, once there, stays until it is collected |
| DaemonInvariant.StepKeeps | Dev32/lxdaemon.c:60-296 | every step of every thread keeps the protocol's invariant |
| DaemonTheorems.ReachableGood | Daemon/lxapid.c:233-275 | the invariant holds in every state that an interleaving of callers, daemon and closes reaches |
| DaemonTheorems.ExactlyOnePlace | Dev32/lxdaemon.c:60-246 | each accepted command is exactly once in line, with the daemon, done, finished, lost with a dying daemon or dropped by a close; only blocking ones get onto the done list, only others are dropped |
| DaemonTheorems.CallersGetTheirOwn | Dev32/lxdaemon.c:176-202 | a caller that returned did so once, with the packet posted for its own handle or with its command failed by a close, and its buffer holds the reply bytes in front and is otherwise as submitted; what those are, `DaemonTraces.ReturnedAsRun` says |
| DaemonTheorems.DeliveredInOrder | Dev32/lxdaemon.c:83-146 | deliveries never overtake, through any number of push-backs; until a close they are the first submissions, all of them |
| DaemonTheorems.DeliveredBytes | Dev32/lxdaemon.c:137-145 | the daemon gets the bytes of the entry as listed, or the waiting caller's bytes; `DaemonTraces.DeliveredAsAsked` ties them to the call |
| DaemonTraces.DeliveredAsAsked | Dev32/lxdaemon.c:213-230 | in every run the bytes the daemon receives are those the submitter's buffer held at the moment of the call |
| DaemonTraces.ExecutedAsAsked | Daemon/lxapid.c:240-255 | when the daemon runs a command, its packet has the command, length and block id asked for and return code zero, and its buffer starts with the bytes asked for |
| DaemonTraces.ReturnedAsRun | Daemon/lxapid.c:206-271 | a caller that no close failed gets the return code its own command set and, in front of its buffer, as many of the bytes the command left as it asked for; a restart gives zero and leaves the buffer alone |
| DaemonTraces.ReturnedAsDrained | Dev32/lxdaemon.c:288-293 | a caller that a close failed is told so, and its buffer is as it was at the call if its command never ran |
| DaemonTheorems.CopiesStayInside | Dev32/lxdaemon.c:49-80 | wherever a thread is due to copy, source and target have room; announced, remembered and real buffer length agree |
| DaemonTheorems.AnsweredReturns | Dev32/lxdaemon.c:181-200 | a caller past its wake-up call whose command was answered or drained returns on its next scan, failed if drained |
| DaemonTheorems.CloseReaches | Dev32/lxdaemon.c:269-296 | a close drains exactly the blocked commands that the daemon does not hold or has not taken with it |
| DaemonLife.CloseStops | Dev32/lxdaemon.c:275-276 | after a close no submission is accepted in any run until a daemon fetches again |
| DaemonLife.AcceptsExactly | Dev32/lxdaemon.c:210 | submissions are refused exactly while no daemon is known |
| DaemonLife.PhaseExact | Dev32/lxdaemon.c:118-124 | in every run the state reads as running from the first fetch to the first close, and as going away ever after |
| DaemonLife.LeavesExactly | Daemon/lxapid.c:237-266 | having run a command the daemon leaves its loop, and does not come back to its top, if and only if it was a shutdown or a restart |
| DaemonLife.StaysInLoop | Daemon/lxapid.c:237-266 | with neither submitted, a daemon in its loop stays in it however its own steps go, and so ends asleep |
| DaemonTheorems.DeliveredAfterRounds | Dev32/lxdaemon.c:126-134 | a command is delivered after exactly ceil((L - M) / 4096) grow replies |
| DaemonHandles.ScanTakesFirstOfClass | Dev32/lxdaemon.c:185-197 | with no bound on a command's life, a scan takes the first result whose submission lies a multiple of 2^32 - 1 from the caller's own |
| DaemonHandles.OvertakenScanTakesTheOther | Dev32/lxdaemon.c:185-197 | at a state of the system where the invariant holds and only freshness does not, the first caller collects the result of a command 2^32 - 1 submissions later |
| DaemonWakeups.SleepsOnWork | Dev32/lxdaemon.c:86-89 | with no wake-up under way, the daemon sleeps on waiting commands if and only if a submission since its test woke it before it was asleep and no close took that command |
| DaemonWakeups.WakeupCanBeLost | Dev32/lxdaemon.c:86-98 | a run that ends with the daemon asleep, a command of a blocked caller waiting and no wake-up to come |
| DaemonWakeups.StrandedStays | Dev32/lxdaemon.c:86-98 | no run without a further submission, a close or a broken sleep gets a stranded daemon going |
| DaemonWakeups.NextSubmissionWakes | Dev32/lxdaemon.c:231-241 | the next submission does, with everything that waits |
| DaemonProgress.NeverStuck | Daemon/lxapid.c:240-267 | wherever the daemon is neither asleep nor gone it has a step to take |
| DaemonProgress.DaemonMoves | Daemon/lxapid.c:240-267 | each daemon step lowers a rank made of the commands in line, the growth still possible and the place in the loop, also the step that puts a command back |
| DaemonProgress.DaemonRunsEnd | Dev32/lxdaemon.c:126-146 | no run of daemon steps is longer than that rank, so growing the buffer ends, whatever commands return |
| DaemonProgress.DaemonComesToRest | Daemon/lxapid.c:233-275 | from every state such a run leads to the daemon asleep or out of its loop |
| DaemonProgress.RestServesAll | Dev32/lxdaemon.c:83-100 | once the daemon sleeps with nothing waiting every blocked caller past its wake-up call returns on its next scan, unless its command was lost with an earlier daemon |
| DaemonProgress.RestDeliversAll | Dev32/lxdaemon.c:83-146 | once the daemon sleeps with nothing waiting, and without a close, every submission has been delivered, in order |
| DaemonProgress.WaitingIsUnanswered | Dev32/lxdaemon.c:181-200 | a caller whose command is still waiting scans in vain |
| DaemonProgress.DaemonServes | Dev32/lxdaemon.c:83-246 | a daemon run that ends asleep has emptied the list if and only if it did not start past the look at a list that was not empty; then the callers blocked at its start return on their next scan, and without a close all submissions are delivered in order |
| DaemonProgress.NextSubmissionServes | Dev32/lxdaemon.c:83-241 | after the submission that wakes a stranded daemon, every daemon run that ends asleep has emptied the list |
| DaemonTheorems.NeverFits | Daemon/lxapid.c:70-87 | some number of growth steps makes room for a need if and only if it is at most 0xFFFFF000 |
| DaemonTheorems.BlockingShutdownPostsTwice | Daemon/lxapid.c:240-273 | serving a shutdown and leaving the loop adds two results for its one handle if it has a block id and none if it has not |
| DaemonTheorems.FetchStaysInside | Dev32/lxdaemon.c:137-145 | the copies at submission and at the fetch both stay inside exactly when a null buffer has length zero |
| DaemonProcess.Process.IncreaseDataPacketLength | Daemon/lxapid.c:70-87 | a successful call is the growth step of the system; the three lengths agree afterwards exactly when the allocation succeeded |
| DaemonProcess.LogFiles.SetLogFile | Daemon/lxapid.c:90-110 | the countdown loop performs the rotation |
| DaemonProcess.ShiftedGeneration | Daemon/lxapid.c:99-104 | what the countdown leaves under each generation |
| DaemonProcess.GenerationNamed | Daemon/lxapid.c:98-105 | generation k is the log's name with its last character replaced by the digit k |
| DaemonProcess.RotationMoves | Daemon/lxapid.c:90-110 | generations move up by one where they exist, the log becomes generation 0 and is gone, no other file changes |
| DaemonProcess.RotationExact | Daemon/lxapid.c:90-110 | rotation keeps that promise for all files if and only if the name does not end in a digit |
| PageLocks.RoundingExact | Dev32/lxmemlock.c:31-40 | the rounded length covers the smallest page range if and only if it fits in 32 bits |
| PageLocks.HandlesFit | Dev32/lxmemlock.c:116 | the handle buffer has a slot for every chunk of every range |
| PageLocks.RangeTiles | Dev32/lxmemlock.c:41-57 | the chunks are page-aligned, at most 15 pages, contiguous, and tile the smallest page range around the bytes |
| PageLocks.RollbackRestores | Dev32/lxmemlock.c:135-142 | releasing the locks taken so far leaves the lock set of the OS as it was |
| PageLocks.UnlockAllLive | Dev32/lxmemlock.c:62-71 | distinct live handles are released once each and nothing else is |
| PageLocks.Manager.GetLockStruct | Dev32/lxmemlock.c:88-99 | the first record for the address |
| PageLocks.Manager.LockChunks | Dev32/lxmemlock.c:41-57 | the loop takes the chunks in order up to the first refusal and records their handles in the buffer |
| PageLocks.Manager.LockRange | Dev32/lxmemlock.c:23-59 | rounding and loop together, inside the buffer |
| PageLocks.Manager.UnlockRange | Dev32/lxmemlock.c:62-71 | the handles are released in order |
| PageLocks.Manager.TryShare | Dev32/lxmemlock.c:107-115 | a record found gets one use more |
| PageLocks.Manager.Insert | Dev32/lxmemlock.c:116-144 | without a refusal a record with its locks heads the list, otherwise the locks are rolled back |
| PageLocks.Manager.UnlockMem | Dev32/lxmemlock.c:148-172 | one use less; with the last one the locks and the record go |
| LockSystem.StepKeeps | Dev32/lxmemlock.c:102-172 | every step of interleaved calls keeps handles owned once and counts exact |
| LockSystem.UsesAreExact | Dev32/lxmemlock.c:102-172 | summed use counts of an address are successful locks less successful unlocks, also with several records |
| LockSystem.HandlesConserved | Dev32/lxmemlock.c:132-166 | no handle is released twice or leaked |
| LockSystem.PagesStayLocked | Dev32/lxmemlock.c:102-172 | while locks outnumber unlocks every byte of the range is in a live OS lock |
| LockSystem.BalancedRunsEnd | Dev32/lxmemlock.c:147-172 | with every lock undone the registry is empty and the OS holds nothing |
| LockSystem.SecondSizeNotLocked | Dev32/lxmemlock.c:108-114 | a second size has its pages locked if and only if they are pages of the first |
| MemoryObjects.Memory.FindMemobj | Dev32/lxmemory.c:120-143 | the first record with the virtual or physical address |
| MemoryObjects.Memory.Malloc | Dev32/lxmemory.c:170-197 | a mapped block gets a record without translation; a refusal gives the record back |
| MemoryObjects.Memory.Free | Dev32/lxmemory.c:146-167 | a malloc'd or mapped record goes with its block and its own memory, any other address is passed to the OS |
| MemoryObjects.Memory.PhysAddr | Dev32/lxmemory.c:230-270 | the lookup, fill-in and new-record branches of LX__pa |
| MemoryObjects.Memory.VirtAddr | Dev32/lxmemory.c:273-310 | the lookup and mapping branches of LX__va |
| MemoryObjects.Memory.InitComplete | Dev32/lxmemory.c:439-463 | every record moves to a new node with its fields, the list is reversed, each old node is freed once |
| MemoryObjects.RelocationKeepsLookups | Dev32/lxmemory.c:439-463 | with unique virtual addresses each lookup gives the same fields before and after |
| MemoryObjects.CacheAgrees | Dev32/lxmemory.c:120-310 | in every run, across the relocation too, virtual addresses are unique and every cached translation is the one in force |
| MemoryObjects.PaIsTranslation | Dev32/lxmemory.c:237-267 | LX__pa gives the same answer with a record, cached or not, and without one |
| MemoryObjects.PaOfVa | Dev32/lxmemory.c:229-310 | LX__pa(LX__va(p)) == p for every non-zero p that maps |
| MemoryObjects.VaMaps | Dev32/lxmemory.c:273-310 | where a record exists or the OS grants a page, LX__va answers a mapped address that translates to p, and a second call gives the same and changes nothing |
| MemoryObjects.PaIsKept | Dev32/lxmemory.c:237-267 | a translation found is stored: the next call gives it without the OS, and the lookup by physical address finds it |
| MemoryObjects.MallocFree | Dev32/lxmemory.c:146-197 | a block allocated and freed again leaves registry, mappings and blocks as they were |
| MemoryObjects.FreeForgets | Dev32/lxmemory.c:146-167 | a free of a malloc'd or mapped address forgets its record and no other |
| MemoryObjects.FreeOfForeign | Dev32/lxmemory.c:146-167 | a free of any other address leaves every record in place |
| MemoryObjects.FreeCanLeaveStale | Dev32/lxmemory.c:146-167 | a run after which a free leaves a stale translation |
| MemoryObjects.FreeAgreesExactly | Dev32/lxmemory.c:146-167 | after a free the cache agrees if and only if no other cached record lay in the block |
| Segments.Pool.AllocSelector | Dev32/lxmemory.c:49-62 | a free selector is taken, or none is free |
| Segments.Pool.FreeSelector | Dev32/lxmemory.c:65-78 | the selector's slot and no other becomes free |
| Segments.Pool.FreeAll | Dev32/lxsegments.c:86-95 | the slots of a segment's selectors and no others become free |
| Segments.Pool.AllocSegment | Dev32/lxsegments.c:49-83 | success takes size / 65535 + 1 different free selectors mapping the range piece by piece; a failure at any step restores the pool, and without a refusal happens only when too few are free |
| Segments.PiecesTile | Dev32/lxsegments.c:54-68 | the pieces cover the range exactly, without overlap, at most 65535 bytes each |
| Segments.NumSelsLeast | Dev32/lxsegments.c:49 | the number of selectors is the least n with n * 65535 > size |
| Segments.SelectorsConserved | Dev32/lxsegments.c:22-101 | over any run taken slots equal the selectors of live segments, and no two places hold the same one |
| KernelLock.LockKernel | Dev32/lxszopt.c:54-60 | uninterrupted lock_kernel |
| KernelLock.UnlockKernel | Dev32/lxszopt.c:64-69 | uninterrupted unlock_kernel |
| KernelLock.ReleaseKernelLock | Dev32/lxszopt.c:38-42 | the lock is dropped exactly when the task holds it |
| KernelLock.ReacquireKernelLock | Dev32/lxszopt.c:46-50 | and taken back exactly then |
| KernelLock.OneOwner | Dev32/lxszopt.c:38-69 | at most one owner in every interleaving of single statements, the flag set exactly while there is one, and outside the functions ownership is depth >= 0 |
| KernelLock.NestedNeverSpins | Dev32/lxszopt.c:54-60 | a task that holds the lock never waits in lock_kernel |
| KernelLock.BalancedIsFree | Dev32/lxszopt.c:54-69 | balanced nesting ends at depth -1 with the lock free |
| KernelLock.UninterruptedCalls | Dev32/lxszopt.c:54-69 | the single statements in a row compute the uninterrupted functions |
| KernelLock.UninterruptedSchedule | Dev32/lxszopt.c:38-50 | release and reacquire in a row give the lock up and take it back at the same depth |
| KernelLock.NobodyStuck | Dev32/lxszopt.c:38-69 | a task in one of the functions has a statement to take unless another task owns the lock, and that one is outside or has one |
| WaitLists.ListIsTheWaiters | Dev32/lxwaiton.c:50-85 | the list is exactly the threads between insert and delete, each once |
| WaitLists.RunOnReaches | Dev32/lxwaiton.c:90-108 | LX_RunOn wakes exactly the threads asleep on its id; one that is not yet asleep is left as it is |
| WaitLists.NewWaitersQueue | Dev32/lxwaiton.c:33-48 | a thread that starts to wait once current is available is in queue mode in every later state of every run, so it never sleeps in block mode |
| WaitLists.FlaggedConverts | Dev32/lxwaiton.c:53-82 | whatever the others do meanwhile, a flagged waiter next goes to sleep in queue mode if and only if the flag found it asleep or just woken |
| WaitLists.FlagCanComeEarly | Dev32/lxwaiton.c:53-82 | a run that flags a waiter which then sleeps in block mode |
| WaitLists.UnflaggedReturns | Dev32/lxwaiton.c:54-86 | whatever the others do, a waiter whose sleep ends is off the list after at most four of its own statements unless a pass flags it |
| WaitLists.QueueSleepersReturn | Dev32/lxwaiton.c:54-86 | a sleeper in queue mode is off the list after at most three of its own statements, whatever passes there are |
| WaitLists.ReturnsAlone | Dev32/lxwaiton.c:54-86 | and left alone, after exactly the statements left |
| WaitLists.PassFlags | Dev32/lxwaiton.c:118-129 | a pass leaves every listed block-mode waiter flagged and awake and changes nothing else |
| WaitLists.SliceLowers | Dev32/lxwaiton.c:131-136 | when the others get to run, every waiter comes a step closer to the queue |
| WaitLists.Waits.RunOn | Dev32/lxwaiton.c:90-108 | the wake-up loop over the list |
| WaitLists.Waits.FlagBlocked | Dev32/lxwaiton.c:115-129 | the flagging loop, and that its count is non-zero exactly when it found a waiter in block mode |
| WaitLists.Waits.ReschedWaitOn | Dev32/lxwaiton.c:111-138 | the recursion ends after at most as many passes as the highest rank; then every listed waiter is in queue mode |
| WaitLists.RankBound | Dev32/lxwaiton.c:53-86 | that rank is at most five |
| LinkRepair.SimpleDSprintf | Daemon/lxapid_cmd.c:25-52 | the buffer holds the rendered format and a terminating null, inside its bounds |
| LinkRepair.DecimalInjective | Daemon/lxapid_cmd.c:29 | different numbers render differently |
| LinkRepair.AtoiOfDecimal | Daemon/lxapid_cmd.c:94 | atoi reads back every number written in decimal |
| LinkRepair.LinkNamesDiffer | Daemon/lxapid_cmd.c:97-113 | the names of different links differ from each other and from the other attributes used |
| LinkRepair.CorrectedAt | Daemon/lxapid_cmd.c:80-127 | every path attribute is rewritten once from the value it had, no other attribute changes |
| LinkRepair.CountedLinksCorrected | Daemon/lxapid_cmd.c:91-125 | a file whose LX_LC says n has exactly LX_LT and LX_LB_1 to LX_LB_n rewritten, each from the value it had |
| LinkRepair.UncountedLinksStay | Daemon/lxapid_cmd.c:91-125 | without LX_LC only LX_LT is rewritten |
| LinkRepair.Volume.RewriteIfBelow | Daemon/lxapid_cmd.c:99-109 | one attribute that starts with the old directory gets the new one in front |
| LinkRepair.Volume.CorrectLinkInfo | Daemon/lxapid_cmd.c:80-127 | the countdown over the links and the link target correct one file |
| LinkRepair.Volume.CorrectBelow | Daemon/lxapid_cmd.c:130-171 | the recursive walk corrects its files one after the other |
| LinkTrees.NodesAreVisited | Daemon/lxapid_cmd.c:147-166 | every node below the root is visited, for the new and old name of its directory |
| LinkTrees.VisitsAreNodes | Daemon/lxapid_cmd.c:147-166 | nothing else is visited |
| LinkTrees.VisitedOnce | Daemon/lxapid_cmd.c:130-171 | no path is visited twice |
| LinkTrees.WholeTreeRepaired | Daemon/lxapid_cmd.c:80-171 | at every node of every tree the prefix olddir(d) becomes newdir(d) in the path attributes and the others keep their values |
| LinkTrees.WholeTreeByName | Daemon/lxapid_cmd.c:80-171 | the same with the attributes named: LX_LT and LX_LB_1 to LX_LB_n at a node that counts n links |
| LinkTrees.OthersUntouched | Daemon/lxapid_cmd.c:130-171 | files outside the tree keep their attributes |
| LinkTrees.RepairIsRightExactly | Daemon/lxapid_cmd.c:97-125 | at every node, the repaired attribute is the target's path after the rename if and only if the target lies below the renamed directory exactly when its text starts with the old name of the node's directory |
| LinkTrees.RepairIsRightNearby | Daemon/lxapid_cmd.c:97-125 | so it is right for every target in the node's own directory and for every one whose text does not start with the old name |
| LinkTrees.RepairGoesWrong | Daemon/lxapid_cmd.c:102 | a sibling directory with a longer name is rewritten, a link across subdirectories is not |
| Parameters.Scanner.ParseArg | Dev32/lxparam.c:58-90 | the first matching parameter sets its flags, an unknown one is reported |
| Parameters.Scanner.StorePath | Dev32/lxparam.c:110-120 | the home path is the device path up to its last backslash |
| Parameters.Scanner.CopyToken | Dev32/lxparam.c:126-131 | the token buffer is filled up to a blank, the end or 255 characters, and no further |
| Parameters.Scanner.ParseTokens | Dev32/lxparam.c:122-146 | the loop ends and dispatches the pieces up to the first unknown one, and writes the full buffers and the unknown token |
| Parameters.Scanner.ParseArgs | Dev32/lxparam.c:93-152 | home path, dispatched tokens, written texts and flags of a whole command line |
| Parameters.PiecesAreRuns | Dev32/lxparam.c:122-131 | with short runs the non-empty pieces are exactly the maximal non-blank runs, in order |
| Parameters.RunsAreDispatched | Dev32/lxparam.c:121-146 | the tokens dispatched are the maximal runs after the device path up to and including the first unknown one |
| Parameters.LongRunIsCut | Dev32/lxparam.c:125-138 | of a run of 255 characters or more the first 255 are written and not dispatched, and scanning goes on behind them |
| Parameters.ShortRunsWriteUnknown | Dev32/lxparam.c:82-88 | with short runs nothing is written but the unknown token at which the scan stops |
| Parameters.KnownExact | Dev32/lxparam.c:61-66 | the known tokens are those that start with /3, /V or /NOSTARTCHECK |
| Parameters.FlagsExact | Dev32/lxparam.c:61-80 | module listing is set exactly by a token starting with /VM, verbose by /V, the start check cleared by /NOSTARTCHECK, and the debugger entered once for each /3 |

## Left out

- Command wrappers: the LX_DOS and LX_EA calls and their CMD_ counterparts pack a structure for one OS call; the
  protocol models one generic command that returns any result and any bytes.
- Failing ioctls and a failing entry allocation: the protocol's runs assume that both succeed; a daemon loop that
  goes on after a failed fetch would answer with the packet of the command before.
- A failed growth of the daemon's buffer is modelled by `IncreaseDataPacketLength` alone, not as a step of the runs.
- Time: a timed wait may end at any moment, so how long anything takes is not modelled; LX_wait_for_daemon and the
  waiting loops of LX_daemon_shutdown only poll. The daemon's wait is untimed; a signal may break it.
- Overlap of callers' buffers: a block id stands for one buffer, and a waiting caller's buffer belongs to it alone.
- LockSystem.Lookup: a record shared 2^32 times would wrap its use count; runs stop short of that. LX_lock_mem with
  a failing kernel allocation is left out as well.
- Freeing a record made by LX__va: the source hands its physical address to DevVMFree; runs free malloc'd blocks only.
- MemoryObjects.Memory.PhysAddr: the failing translation of an unknown address calls LX_free under the spin lock
  that LX_free takes; the model gives the record back and does not show that the processor then spins for good.
- MemoryObjects.CacheAgrees: runs free only blocks in which no other record lies; `FreeAgreesExactly` says what
  happens to the cache otherwise.
- DaemonProcess.LogFiles.SetLogFile: for an empty name the source writes in front of its buffers, and it copies a
  name without looking at their 300 characters; the model asks for a name that is not empty and has no length limit.
- Alignment of allocations, memory statistics and the pid and tid of records.
- LX_alloc_segment: the memory of a failed or freed segment, the lookup of its physical address, and the linear
  address it stores are inputs or left out; the pool and the descriptors are modelled.
- Semaphore and rwlock slow paths, spinning order and fairness of the kernel lock.
- LinkRepair.Atoi: signs and leading blanks of a link count; the driver writes plain decimal numbers.
- LinkRepair.Volume.RewriteIfBelow: strings have their full length, so what happens to a path that does not fit in
  260 characters is not modelled; attribute reads and writes succeed.
- Parameters.Scanner.StorePath: the source copies the device path without looking at the size of its buffer; the
  model asks for a path shorter than 260 characters.
- Parameters.Scanner.ParseArgs: asks for the same, since it stores the device path.
- Resource manager thunks, dispatch tables, boot messages, inline assembly and the vendored Linux and IBM headers.
