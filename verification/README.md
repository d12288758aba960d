# A verified model of darlingserver's concurrency cores

darlingserver is the user-space server that stands in for the XNU kernel when macOS
programs run on Linux.  This project models the parts of it whose correctness is
spread over several functions and depends on how threads interleave, and proves what
those parts are relied on for.

| files | what they model |
|---|---|
| `SeqNum` | the 24-bit wrapping sequence numbers of the psynch lock words |
| `Ksyn` | a psynch wait queue: two ordered lists with cached minima, maxima and lengths |
| `CondVar`, `CondVarWakeups`, `CondVarChoice`, `CondVarBanked`, `CondVarReports`, `CondVarLedger`, `CondVarQueue` | pthread condition variables in the kernel: waits, signals, broadcasts, banked wake-ups, the L/U/S words |
| `RwLock`, `RwLockWords`, `RwLockLedger`, `RwLockQueue` | pthread read-write locks: grant rounds, unlocks that wait for threads still on their way, failed wake-ups |
| `FirstFitMutex` | first-fit pthread mutexes: drops, banked unlocks, the redrive loop |
| `Interrupts`, `InterruptPasses`, `InterruptThread` | calls, replies and nested signal interrupts between a client thread and its server thread |
| `MicroLocks`, `MicroLocksProgress` | microthread mutexes and condition variables on top of suspend and resume, with the dyld-info readers and setters as their users |
| `Executor` | who may run a microthread: workers and impersonators |
| `KqchanGate`, `Kqchan`, `KqchanProgress`, `MessageQueues` | kqueue channels of processes: events, notifications, reads, and the outgoing message queue |
| `KernelAsync`, `KernelAsyncProgress`, `WorkQueues`, `WorkQueueProgress` | the two worker pools |
| `Options`, `Counting`, `SleeperSets` | an optional value; counting in sequences; the threads blocked in a list |

Each core comes in two layers.  A functional layer gives the state as a value, every
critical section as a function from state to state, and a run as a sequence of events
in any order; the main theorems are about all runs.  Where the source works by
updating fields in place, a class with those fields and the source's loops is proved,
method by method, against the functions; where the invariant of the runs is an
invariant of the object, `Valid()` is that invariant, every entry point keeps it, and
the contract says what the caller gains from it.  `asleep`, `how` and `results` parameters
stand for what the environment decides: which threads can still be woken, whether a
call replies or suspends, what a system call returns.

Six properties hold only under a condition, which is given exactly; for each there is
also a run from the initial state in which the property fails:

- a read-write lock's reported reader count is the number of threads let go if and
  only if no queued reader has the number of the lowest writer (`RwLock.GrantRound`,
  `RwLock.CountCanBeOff`);
- none of a read-write lock's failed grants is lost if and only if no round with
  failures and no re-initialisation finds one still banked, and none is taken from a
  bank of several whose word is zero (which takes 2^24 readers in one round)
  (`RwLockLedger.GrantsAccountedFor`, `RwLockLedger.FailedReaderIsForgotten`);
- a microthread stays deferred while it is impersonated if and only if no impersonator
  gives up while another one waits (`Executor.DeferredIffNoOverlap`,
  `Executor.OverlapHappens`); otherwise run requests are dropped
  (`Executor.OverlapLosesRequests`);
- when messages arrive between the replies of a server pass and its end, no check
  throws and no reply is misplaced if and only if no reply is pushed back before its
  interrupt is pending and no pass ends with an interrupt behind a later call
  (`InterruptPasses.NothingGoesWrongIff`, `InterruptPasses.PushedBackTooEarly`,
  `InterruptPasses.NextCallTooEarly`);
- no notification of a kqueue channel is lost if and only if none is raised while the
  deferred slot is full, notifications are deferred and may be sent
  (`KqchanGate.LostIffOverwrite`, `KqchanGate.OverlappingReadsFillSlot`);
- the work queue's count of available workers is exact if and only if no temporary
  worker has timed out in vain (`WorkQueues.AvailableIffNoTimeout`,
  `WorkQueues.LeakHappens`).

Two assumptions run through the psynch files.  The sequence numbers that are live at
one time lie in one window of 2^23 consecutive counts; the window may move from step
to step, so runs may wrap any number of times.  Each entry point is one step, except
that `cvsignal`, `cvbroad` and the first-fit drop, which give up the lock half-way,
are split there.

## Model

| member | source | states |
|---|---|---|
| `SeqNum.WordOrderIsCountOrder` | duct-tape/pthread/synch_internal.h:96-138 | the word comparisons look at the 24-bit counts only, and `is_seqhigher`, written out separately, is the mirror image of `is_seqlower` |
| `SeqNum.Trichotomy` | duct-tape/pthread/synch_internal.h:96-138 | of any two words exactly one of lower, same count, higher holds, also for two that are half the circle apart |
| `SeqNum.WindowOrder` | duct-tape/pthread/synch_internal.h:96-116 | on 2^23 consecutive counts, across the wrap or not, lower is the order of the positions, hence a strict total order |
| `SeqNum.WindowIsMaximal` | duct-tape/pthread/synch_internal.h:96-106 | one count more and the order of the positions is lost, for exactly the pairs with the wrap in between |
| `SeqNum.FindDiffIsCircularDistance` | duct-tape/pthread/synch_internal.h:154-171 | `find_diff` is the circular distance of the counts: symmetric, at most 2^23, zero only for equal counts, whichever branch is taken |
| `SeqNum.DiffIsForwardDistance` | duct-tape/pthread/synch_internal.h:140-152 | `diff_genseq` is the distance counted upward from its second argument to its first |
| `Ksyn.InsertedSorted` | duct-tape/pthread/kern_synch.c:2315-2344 | inserting keeps a sequence-ordered list sorted |
| `Ksyn.ExtremesBound` | duct-tape/pthread/kern_synch.c:2551-2589 | what the two searches for the next lowest and highest number look for is the minimum and the maximum over both queues, and is attained |
| `Ksyn.ExtremesAfterRemove` | duct-tape/pthread/kern_synch.c:2383-2394 | removing an element with another number than the lowest (highest) leaves that one alone, which is why the cache is refreshed only otherwise |
| `Ksyn.KsynWaitQueue.Insert` | duct-tape/pthread/kern_synch.c:2289-2353 | keeps the lists sorted and all cached numbers exact; refuses exactly when the number sits at an end already, and never fails to find a place in the middle |
| `Ksyn.KsynWaitQueue.Place` | duct-tape/pthread/kern_synch.c:2301-2344 | the five branches of the insertion amount to putting the element behind everything not above it |
| `Ksyn.KsynWaitQueue.InsertFirstFit` | duct-tape/pthread/kern_synch.c:2301-2314 | first-fit insertion appends; the cached first, last, lowest and highest number go on bounding everything queued, and each is an old one or the new number |
| `Ksyn.KsynWaitQueue.RemoveItem` | duct-tape/pthread/kern_synch.c:2355-2395 | takes out one element and nothing else; list ends, lowest, highest and length stay exact |
| `Ksyn.KsynWaitQueue.RefreshLowHigh` | duct-tape/pthread/kern_synch.c:2383-2394 | lowest and highest number after a removal |
| `Ksyn.KsynWaitQueue.FindNextLowSeq` | duct-tape/pthread/kern_synch.c:2551-2569 | the loop finds the lowest number over both queues |
| `Ksyn.KsynWaitQueue.FindNextHighSeq` | duct-tape/pthread/kern_synch.c:2571-2589 | the loop finds the highest number over both queues |
| `CondVar.EveryRunKeepsQueue` | duct-tape/pthread/kern_synch.c:933-1262 | in every run, even with other calls between the critical sections of one: numbers strictly increase, banked elements come before all blocked threads, `kw_fakecount` is their exact number, no insertion is refused, and turning a banked signal into a broadcast inside cvwait wakes nobody |
| `CondVar.EveryRunKeepsWords` | duct-tape/pthread/kern_synch.c:2718-2737 | with each entry point atomic: nothing is queued beyond L, nothing at all while the words are zeroed out, and a condition variable whose L and S become equal ends up empty (the check behind the clean-up cannot fire) |
| `CondVar.StepInv` | duct-tape/pthread/kern_synch.c:933-1366 | the same for a single step of any kind |
| `CondVar.ConvertWakesNobody` | duct-tape/pthread/kern_synch.c:1201-1212 | the broadcast up to a banked element finds banked elements only |
| `CondVar.BroadcastedShape` | duct-tape/pthread/kern_synch.c:2645-2716 | on unbalanced words a broadcast replaces everything up to its number by one banked element, and everything left is above it |
| `CondVar.FindSignalSpec` | duct-tape/pthread/kern_synch.c:2436-2485 | what the search for an element to signal returns: an eligible thread, a banked element to merge into, or the assurance that the new element may be inserted |
| `CondVar.WaiterFindsPlace` | duct-tape/pthread/kern_synch.c:1231-1249 | a thread that finds no banked element has a free place in the queue |
| `CondVar.UpdateInv` | duct-tape/pthread/kern_synch.c:305-332 | merging the words keeps L at or above everything queued |
| `CondVar.WordsMerge` | duct-tape/pthread/kern_synch.c:305-332 | merging makes L and U the later of the two, and S too if the caller vouches for its own; after a clean-up the caller's words are taken as they are |
| `CondVar.FixupInv` | duct-tape/pthread/kern_synch.c:2718-2737 | the clean-up of a balanced condition variable leaves nothing queued |
| `CondVar.CvTimeoutInv` | duct-tape/pthread/kern_synch.c:1265-1308 | a wait that gives up keeps the queue and the words in order |
| `CondVarWakeups.BroadcastReachesAll` | duct-tape/pthread/kern_synch.c:1022-1262 | after an accepted broadcast on unbalanced words, and any run that does not clear, balance or drop it, however many waits it has let through: a thread that comes to wait at or below its number returns at once |
| `CondVarWakeups.NoLostWakeup` | duct-tape/pthread/kern_synch.c:933-1262 | a signal that woke nobody adds one to the n banked at its number; after any such run in which at most n waits at that number returned at once, a thread that comes to wait at or below it returns at once |
| `CondVarWakeups.EarlySignalIsFound` | duct-tape/pthread/kern_synch.c:933-1262 | the plainest case, for all words: a signal that comes before any waiter is found by the thread it was meant for |
| `CondVarWakeups.NobodySleepsBelowBanked` | duct-tape/pthread/kern_synch.c:933-1262 | no thread is blocked at or below a banked signal |
| `CondVarWakeups.WaitOutcome` | duct-tape/pthread/kern_synch.c:1139-1262 | exactly when cvwait blocks, when it fails with EBUSY, and when it returns at once |
| `CondVarWakeups.SignalNotLost` | duct-tape/pthread/kern_synch.c:1022-1097 | an accepted signal on unbalanced words wakes a thread, adds one to what is banked at its number, or balances the words; a broadcast is banked for any number of waits and leaves nobody asleep in its range |
| `CondVarWakeups.SignalOneNotLost` | duct-tape/pthread/kern_synch.c:933-1020 | a single signal wakes somebody, asks for a broadcast or adds one to what is banked at its number |
| `CondVarWakeups.CoverPersists` | duct-tape/pthread/kern_synch.c:933-1366 | through any step that does not clear, balance or drop it, consuming waits and the halves of split calls included: a banked broadcast stays for good, and n signals banked at a number stay, less one if the step is a wait at that number that returned at once |
| `CondVarWakeups.ServedAfterConsume` | duct-tape/pthread/kern_synch.c:1192-1222 | what a wait does to banked wake-ups meant for another number: it takes none of them, and turning a banked signal into a broadcast keeps them served |
| `CondVarWakeups.PrepostFound` | duct-tape/pthread/kern_synch.c:2413-2434 | the search of cvwait finds a banked element exactly when one is at or above the number, and a thread exactly when one waits at it |
| `CondVarChoice.SignalWakesFirst` | duct-tape/pthread/kern_synch.c:933-1020 | a signal wakes one thread, the first blocked one at or above its lower number, if that is in range, takes it and nothing else out of the queue, and moves S by one |
| `CondVarChoice.SignalAsksForBroadcast` | duct-tape/pthread/kern_synch.c:979-994 | it turns into a broadcast exactly when somebody is blocked in range and nobody in range is at or above the lower number |
| `CondVarChoice.SignalIsMerged` | duct-tape/pthread/kern_synch.c:995-1002 | with nobody in range it merges into a broadcast that covers it, or adds one to the signals banked at its number |
| `CondVarChoice.SignalIsInserted` | duct-tape/pthread/kern_synch.c:1011-1017 | or it is banked as one, in its place |
| `CondVarChoice.NamedSignal` | duct-tape/pthread/kern_synch.c:944-994 | a signal to a thread by name wakes it alone if it is in range and not below the lower number, and asks for a broadcast otherwise |
| `CondVarChoice.NamedButGone` | duct-tape/pthread/kern_synch.c:944-956 | one to a thread that is no longer there asks for a broadcast |
| `CondVarChoice.CallWakesOne` | duct-tape/pthread/kern_synch.c:1022-1097 | the whole call: on unbalanced words it wakes that thread and no other, unless the words come to balance |
| `CondVarBanked.BankedSignalsServeOnce` | duct-tape/pthread/kern_synch.c:1139-1262 | a banked signal is used once: over any run of waits at or above a number, time-outs and deaths, at most as many waits there return at once as signals were banked, and exactly the others are left |
| `CondVarBanked.WaitAt` | duct-tape/pthread/kern_synch.c:1192-1222 | a wait at a number with exactly n signals banked there, and nothing else that covers it, returns at once if and only if n is not zero, and leaves n - 1 |
| `CondVarBanked.WaitAbove` | duct-tape/pthread/kern_synch.c:1139-1262 | a wait above that number blocks or fails, and takes none of them |
| `CondVarBanked.SignalAt` | duct-tape/pthread/kern_synch.c:977-1014 | a signal at that number wakes a thread and leaves what is banked alone, asks for a broadcast, or makes it exactly n + 1 |
| `CondVarReports.BadWords` | duct-tape/pthread/kern_synch.c:1031-1038 | exactly which words a wait and a signal refuse, and that a refused call has no effect |
| `CondVarReports.SignalReports` | duct-tape/pthread/kern_synch.c:2718-2737 | the C bit is reported exactly if the words have balanced and the structure is cleaned up, the P bit exactly if nothing but banked elements is left |
| `CondVarReports.WaitReports` | duct-tape/pthread/kern_synch.c:1139-1262 | the same for a wait that returns at once; one that blocks or fails reports neither |
| `CondVarReports.WaitRefusal` | duct-tape/pthread/kern_synch.c:1231-1249 | a wait that finds no banked element blocks, or, exactly if its number sits at an end of the queue, fails with EBUSY and changes the words only |
| `CondVarReports.TimeoutReports` | duct-tape/pthread/kern_synch.c:1265-1308 | a wait that gives up leaves the queue and moves S by one; the words balance exactly if S comes to L, and then nothing stays queued; one that was granted meanwhile changes and reports nothing |
| `CondVarReports.ClearsUpTo` | duct-tape/pthread/kern_synch.c:1331-1366 | clearing takes out exactly what is at or below the number and reports the threads among it |
| `CondVarReports.SignalRefusal` | duct-tape/pthread/kern_synch.c:920-931 | the model's refusal flag is set exactly if an element was counted and not queued |
| `CondVarReports.BroadcastRefusal` | duct-tape/pthread/kern_synch.c:2695-2711 | the same for a broadcast |
| `CondVarReports.ConversionFlags` | duct-tape/pthread/kern_synch.c:1201-1212 | the conversion flag is set exactly if turning a banked signal into a broadcast woke somebody |
| `CondVarReports.LeftoverFlag` | duct-tape/pthread/kern_synch.c:2718-2737 | the leftover flag is set exactly if something stays queued after a clean-up |
| `CondVarReports.SplitSignal` | duct-tape/pthread/kern_synch.c:958-975 | a signal that gives up the lock to allocate comes to the whole call if nothing happens in between |
| `CondVarReports.SplitBroadcast` | duct-tape/pthread/kern_synch.c:2645-2716 | so does a broadcast, with the threads of both scans |
| `CondVarLedger.EveryThreadAccountedFor` | duct-tape/pthread/kern_synch.c:933-1366 | over every run and every interleaving of the critical sections: the threads blocked at the end are those blocked before and those that blocked since, less those reported as woken and those that gave up, each as often as it blocked |
| `CondVarLedger.NobodyVanishes` | duct-tape/pthread/kern_synch.c:933-1366 | the same for one step |
| `CondVarLedger.SwordCountsDepartures` | duct-tape/pthread/kern_synch.c:1022-1308 | while L and S differ, every accepted call, and the second half of a split one, moves S by the number of threads it woke, turned back, or saw give up; that of a broadcast also by those that the first half woke |
| `CondVarQueue.CondVarKwq.UpdateWords` | duct-tape/pthread/kern_synch.c:305-332 | merges in the caller's words: L is never lowered, ends up at or above the caller's, and stays at or above everything queued |
| `CondVarQueue.CondVarKwq.FindCvPrepost` | duct-tape/pthread/kern_synch.c:2413-2434 | the loop finds the element cvwait has to look at |
| `CondVarQueue.CondVarKwq.FindSignalSeq` | duct-tape/pthread/kern_synch.c:2436-2485 | the loop finds the element a signal acts on |
| `CondVarQueue.CondVarKwq.PrepostAt` | duct-tape/pthread/kern_synch.c:920-931 | banks an element and counts it |
| `CondVarQueue.CondVarKwq.TakeFront` | duct-tape/pthread/kern_synch.c:2487-2531 | takes elements from the front up to a number (or all), reporting the threads among them and keeping `kw_fakecount` exact |
| `CondVarQueue.CondVarKwq.HandleBroad` | duct-tape/pthread/kern_synch.c:2645-2716 | the scan with its allocate-and-rescan loop ends, and amounts to one broadcast |
| `CondVarQueue.CondVarKwq.CvUpdateFixup` | duct-tape/pthread/kern_synch.c:2718-2737 | the clean-up when L and S meet |
| `CondVarQueue.CondVarKwq.CvSignalOne` | duct-tape/pthread/kern_synch.c:933-1020 | one signal on queues with cached numbers does what the specification says, which wakes one thread, the first in range |
| `CondVarQueue.CondVarKwq.PsynchCvSignal` | duct-tape/pthread/kern_synch.c:1022-1097 | cvsignal and cvbroad on queues with cached numbers do what the specification says, keep the queue invariant and have no insertion refused |
| `CondVarQueue.CondVarKwq.PsynchCvWait` | duct-tape/pthread/kern_synch.c:1139-1262 | cvwait up to the point where the thread blocks, likewise |
| `CondVarQueue.CondVarKwq.ConsumeBanked` | duct-tape/pthread/kern_synch.c:1192-1222 | what cvwait does to the banked element it found |
| `CondVarQueue.CondVarKwq.PsynchCvContinue` | duct-tape/pthread/kern_synch.c:1265-1308 | a wait that timed out or was interrupted |
| `CondVarQueue.CondVarKwq.PsynchCvClrPrepost` | duct-tape/pthread/kern_synch.c:1331-1366 | the condition variable half of cvclrprepost |
| `RwLock.EveryRun` | duct-tape/pthread/kern_synch.c:1374-1548 | in every run of lock calls, unlocks and interrupted waits, whichever wake-ups fail: the queues stay sorted and hold blocked threads only, and every grant round is proper |
| `RwLock.GrantRound` | duct-tape/pthread/kern_synch.c:2125-2277 | a grant round lets go exactly the readers below the lowest writer, or exactly one writer, the lowest, never both; the reported count is the number let go if and only if no reader shares the lowest writer's number |
| `RwLock.RoundIsNotEmpty` | duct-tape/pthread/kern_synch.c:2125-2277 | unless a reader shares the lowest writer's number, a round lets somebody go |
| `RwLock.CountCanBeOff` | duct-tape/pthread/kern_synch.c:2125-2277 | the count does go wrong: from a fresh lock, a reader and a writer with the same number and an unlock that expects nobody give a round that reports one and lets nobody go |
| `RwLockWords.ReadWord` | duct-tape/pthread/kern_synch.c:2164-2226 | the word of a round of readers carries the reported count, and the W and K bits exactly if there is a writer; failed wake-ups are banked with it |
| `RwLockWords.WriteWord` | duct-tape/pthread/kern_synch.c:2229-2264 | the word of a writer's round carries a count of one, K and E, and W exactly if a writer is left |
| `RwLockWords.RoundLeaves` | duct-tape/pthread/kern_synch.c:2149-2203 | a round records the word it began at and the one expected next, and raises the overlap guard exactly after readers with no writer in sight |
| `RwLockWords.UnlockReturns` | duct-tape/pthread/kern_synch.c:1501-1530 | an unlock returns the word of its round, leaves no unlock waiting, and keeps a re-initialisation marked as done only while grants are banked |
| `RwLockWords.LockReturns` | duct-tape/pthread/kern_synch.c:1374-1420 | exactly when a lock call returns at once, with which word, when it blocks and when it fails |
| `RwLockWords.StartsOverOnce` | duct-tape/pthread/kern_synch.c:654-666 | the first call with the I bit starts the structure over, the blocked threads stay, and no further call does it again |
| `RwLockWords.OnlyReadersJoin` | duct-tape/pthread/kern_synch.c:469-495 | after any run, a lock call that returns without a round and without a banked grant is a reader's, the last round let readers go and saw no writer, and its words announce none |
| `RwLockWords.GuardIsLastRound` | duct-tape/pthread/kern_synch.c:2191-2194 | over every run the overlap guard is up exactly if the last round, with no re-initialisation since, was of readers with no writer in sight |
| `RwLockWords.JoinsIff` | duct-tape/pthread/kern_synch.c:469-495 | exactly when a reader may join: guard, bits, and an S word not beyond the one expected next or the last |
| `RwLockWords.JoinIsCounted` | duct-tape/pthread/kern_synch.c:469-495 | a reader that joins is counted in the word expected next and changes nothing else |
| `RwLockWords.NextCountsJoins` | duct-tape/pthread/kern_synch.c:469-495 | from one round to the next that word counts the readers let go and, one by one, those that joined |
| `RwLockWords.OverlapWord` | duct-tape/pthread/kern_synch.c:486-489 | the word of a reader that joins: a count of one, the low byte expected next, and the M bit |
| `RwLockLedger.GrantsAccountedFor` | duct-tape/pthread/kern_synch.c:352-368 | over every run, for readers' and writers' grants apart: those that failed are those taken by a later lock call, those still banked and those lost; none is lost if and only if no failing round and no re-initialisation finds any banked (and none is taken from several whose word is zero); writers' grants are never taken |
| `RwLockLedger.GrantBalances` | duct-tape/pthread/kern_synch.c:352-368 | the same for one step |
| `RwLockLedger.FailedAreAbsent` | duct-tape/pthread/kern_synch.c:2093-2122 | the failures of a round are exactly the threads it took off that were no longer asleep |
| `RwLockLedger.FailedReaderIsForgotten` | duct-tape/pthread/kern_synch.c:361-368 | a losing run from a fresh lock: a reader's wake-up fails, then a writer's, before the reader comes back |
| `RwLockLedger.BankedGrantsHandedOut` | duct-tape/pthread/kern_synch.c:508-522 | in any run without a further failure, at every step: a reader takes a banked grant if and only if they are meant for it and fewer such readers than grants came before; it returns with the banked word and the queues stay |
| `RwLockLedger.EveryThreadAccountedFor` | duct-tape/pthread/kern_synch.c:1374-1548 | over every run: the lock calls that blocked are exactly those released by a round, those aborted and those still queued |
| `RwLockLedger.NobodyVanishes` | duct-tape/pthread/kern_synch.c:1374-1548 | the same for one step |
| `RwLock.UnlockNoPanic` | duct-tape/pthread/kern_synch.c:1468-1548 | whatever the words, an unlock that reaches a grant round has a queued thread and does not reach a panic |
| `RwLock.LockNoPanic` | duct-tape/pthread/kern_synch.c:433-467 | neither does a lock call |
| `RwLock.WriteBitSet` | duct-tape/pthread/kern_synch.c:2222-2263 | every round that leaves a writer queued sets the W bit, and a writer's round sets K and E |
| `RwLock.UnlockOutcome` | duct-tape/pthread/kern_synch.c:1487-1547 | an unlock is ignored if stale, grants if and only if as many threads as it expects are queued, and otherwise waits for exactly the missing number |
| `RwLock.WaitingUnlockFiresAtLast` | duct-tape/pthread/kern_synch.c:433-467 | in any run without a later unlock, with aborts, redeeming and overlapping readers, other lock calls and stale unlocks in between: an unlock waiting for n threads takes its round exactly in the nth lock call it counts |
| `RwLock.SeenIsCounted` | duct-tape/pthread/kern_synch.c:2619-2642 | `ksyn_queue_count_tolowest` counts the elements below the number and one that has it |
| `RwLock.LowestOfBound` | duct-tape/pthread/kern_synch.c:2023-2090 | the lowest reader and writer found are below everything queued and the arriving thread, and are one of them |
| `RwLockQueue.RwLockKwq.CountTo` | duct-tape/pthread/kern_synch.c:2619-2642 | the counting loop |
| `RwLockQueue.RwLockKwq.SeqTill` | duct-tape/pthread/kern_synch.c:2591-2616 | the loop over both queues: whether enough threads are in place and how many it saw |
| `RwLockQueue.RwLockKwq.WakeupReaders` | duct-tape/pthread/kern_synch.c:2093-2122 | dequeues exactly the readers below the limit (or all) and counts those that did not wake |
| `RwLockQueue.RwLockKwq.LowestIn` | duct-tape/pthread/kern_synch.c:2023-2090 | the lowest number of a queue with the arriving thread |
| `RwLockQueue.RwLockKwq.KwqHandleUnlock` | duct-tape/pthread/kern_synch.c:2125-2277 | the grant round on queues with cached numbers |
| `RwLockQueue.RwLockKwq.ReadersGo` | duct-tape/pthread/kern_synch.c:2166-2226 | its reader case, with the word that carries the reported count |
| `RwLockQueue.RwLockKwq.WriterGoes` | duct-tape/pthread/kern_synch.c:2229-2264 | its writer case |
| `RwLockQueue.RwLockKwq.KsynCheckInit` | duct-tape/pthread/kern_synch.c:654-666 | after a call with the I bit nothing older is pending or banked, no further call clears again, and the blocked threads stay; without the bit, or a second time, nothing changes |
| `RwLockQueue.RwLockKwq.PsynchRwUnlock` | duct-tape/pthread/kern_synch.c:1468-1548 | the whole unlock |
| `RwLockQueue.RwLockKwq.HandlePreposted` | duct-tape/pthread/kern_synch.c:433-467 | the lock call that an earlier unlock waited for |
| `RwLockQueue.RwLockKwq.PsynchRwLock` | duct-tape/pthread/kern_synch.c:1374-1420 | the lock call up to the point where the thread blocks |
| `RwLockQueue.RwLockKwq.PsynchRwContinue` | duct-tape/pthread/kern_synch.c:833-856 | an interrupted wait |
| `FirstFitMutex.EveryDropIsOneGrant` | duct-tape/pthread/kern_synch.c:549-596 | over every run, with other calls between the attempts of a drop: drops equal successful wakes plus consumed, banked and cleared unlocks plus drops still between attempts |
| `FirstFitMutex.EveryRetryShortensQueue` | duct-tape/pthread/kern_synch.c:567-596 | every further attempt has used up a queued thread, so however calls interleave there are never more retries than threads that blocked; and every thread that blocked leaves the queue once |
| `FirstFitMutex.NeverBothInRun` | duct-tape/pthread/kern_synch.c:549-799 | a banked unlock and a blocked thread never coexist |
| `FirstFitMutex.NoUnlockWithheld` | duct-tape/pthread/kern_synch.c:549-799 | with somebody blocked and no drop under way, every unlock went to a thread of its own |
| `FirstFitMutex.RedriveEnds` | duct-tape/pthread/kern_synch.c:563-596 | a drop left alone wakes the first thread that can be woken, or is banked |
| `FirstFitMutex.FirstComeFirstServed` | duct-tape/pthread/kern_synch.c:549-831 | over any run in which nobody gives up, drops take threads off in the order in which they blocked |
| `FirstFitMutex.ClearUpTo` | duct-tape/pthread/kern_synch.c:1350-1360 | clearing takes all unlocks banked up to a number and leaves one banked above it |
| `FirstFitMutex.FirstFitKwq.PsynchMutexDrop` | duct-tape/pthread/kern_synch.c:549-596 | the redrive loop ends, never signals an empty queue and comes to that result |
| `FirstFitMutex.FirstFitKwq.PsynchMutexWait` | duct-tape/pthread/kern_synch.c:672-799 | takes a banked unlock or queues; the returned word carries the caller's own number |
| `FirstFitMutex.FirstFitKwq.PsynchMtxContinue` | duct-tape/pthread/kern_synch.c:801-831 | an interrupted wait |
| `FirstFitMutex.FirstFitKwq.PsynchMutexClrPrepost` | duct-tape/pthread/kern_synch.c:1350-1360 | no unlock banked at or below the number is left, all of them go at once, one banked above stays, and only when nobody is blocked does any go |
| `Interrupts.NothingGoesWrong` | src/thread.cpp:462-572 | however calls, nested signals, handlers and passes of the server interleave, interrupts that arrive while a call is only pending included, with a pass as one step: no check on the server throws and the client never receives a reply it does not expect |
| `InterruptPasses.NothingGoesWrongIff` | src/thread.cpp:549-577 | with messages arriving between the replies of a pass and its end: nothing goes wrong (no throw, no unexpected reply, no reply saved under another level) if and only if no reply is pushed back while its interrupt still waits behind the call, and no pass ends with an interrupt waiting behind a later call |
| `InterruptPasses.PushedBackTooEarly` | src/call.cpp:171-186 | the first of these occurs: a run from the start in which the server throws on a pushed reply |
| `InterruptPasses.NextCallTooEarly` | src/thread.cpp:566-569 | and the second: a run in which the end of a pass finds a pending call and throws |
| `InterruptPasses.PassesAreOneStep` | src/thread.cpp:549-577 | without a clash the run is, up to the end of the last pass, one with passes as one step, so no call is lost or answered twice |
| `InterruptPasses.ClashIsUnsound` | src/call.cpp:171-186 | from every reachable state a clash does harm: the server throws, or files the reply under a level whose frame does not wait for it |
| `InterruptPasses.ActMerges` | src/thread.cpp:549-577 | each half of a pass, and each event in between, is one event or none of the run with passes as one step |
| `InterruptPasses.OnePassAtATime` | src/thread.cpp:409-431 | no pass begins while one is under way, and one may begin once it has ended |
| `Interrupts.ExactlyOnce` | src/thread.cpp:1361-1379 | every call is answered to its frame at most once, and until then it exists in exactly one place, as request, call, saved, pushed or sent reply: no answer is lost or doubled |
| `Interrupts.AnswerRightAfterExit` | src/call.cpp:751-771 | when the reply to interrupt_exit is on the wire, the answer for the frame below is directly behind it, and nothing else is |
| `Interrupts.TopFrameRuns` | src/thread.cpp:395-588 | from every reachable state, in every order of the server's and the socket's work, without a further call or signal and with calls that no longer suspend: the number of events with an effect is bounded, and when none has one left the top frame runs again with its answer |
| `Interrupts.EffectIsProgress` | src/thread.cpp:395-588 | every such event that changes anything lowers the bound |
| `Interrupts.SettledIsRunning` | src/thread.cpp:395-588 | no such event changes anything if and only if the top frame runs |
| `Interrupts.OneCopy` | src/call.cpp:146-196 | a call that a frame waits for is in exactly one place, whether the server saved the reply or the client pushed it back; any other in none |
| `Interrupts.StepKeepsInv` | src/thread.cpp:395-588 | each step keeps the description of all reachable states |
| `Interrupts.WorkOnEnterSuspended` | src/thread.cpp:1522-1581 | interrupt_enter over a suspended call lets it run on and saves what it replies |
| `Interrupts.DeliverySucceeds` | src/thread.cpp:267-281 | a message that reaches the server in any reachable state is not refused: a request becomes the pending call or waits as the only one behind it, a reply that was pushed back is kept |
| `Interrupts.WorkOnQueued` | src/thread.cpp:564-576 | an interrupt_enter that waited behind a call is pending at the end of the pass that answers or suspends the call |
| `Interrupts.InterruptsWaitInLine` | src/thread.cpp:267-281 | interrupts behind a pending call wait in line; the end of a pass lets the first go, and throws exactly if a call is in its place |
| `Interrupts.OverrideHoldsBack` | src/thread.cpp:477-500 | a call resumed inside interrupt_enter goes before a pending one |
| `Interrupts.ConfusedIff` | scripts/generate-rpc-wrappers.py:1458-1488 | a frame is confused exactly by a reply that is not its own; interrupt_enter pushes such a reply back |
| `Interrupts.ClientMayAct` | scripts/generate-rpc-wrappers.py:1458-1488 | a frame that runs may call, one that runs or waits may get a signal, a handler that runs may return, each with its request to the server |
| `Interrupts.AnswerReplacesCall` | src/thread.cpp:1361-1379 | when a call is answered, whether the reply is sent or saved, the reply takes the call's place: the server holds as many copies of each call as before |
| `Interrupts.ExitMovesAnswer` | src/call.cpp:751-771 | interrupt_exit moves a saved answer to the wire and neither drops nor doubles one |
| `Interrupts.ReceiveOverWaiting` | scripts/generate-rpc-wrappers.py:1458-1488 | in interrupt_enter the client pushes back an answer that was already on the wire |
| `InterruptThread.ServerThread.SetPendingCall` | src/thread.cpp:267-281 | accepts the request that has arrived: it becomes the pending call, or waits as the only interrupt behind it; nothing throws, and client and server stay in a reachable state together |
| `InterruptThread.ServerThread.ReceivePushedReply` | src/call.cpp:146-196 | keeps a reply that was pushed back, for the pending interrupt_enter or in the top context, without a throw |
| `InterruptThread.ServerThread.DoWorkPass` | src/thread.cpp:395-588 | one pass of doWork from any reachable state: nothing throws, and afterwards every call that a frame waits for is in exactly one place, any other in none |
| `InterruptThread.ServerThread.ReplyTo` | src/thread.cpp:1361-1379 | a reply is saved while its call is interrupted and sent otherwise; no answer is lost or doubled on the server |
| `MicroLocks.NothingLost` | duct-tape/src/locks.c:54-159 | in every interleaving: a free mutex with waiters has a woken waiter on its way, a reader that waits although the info is there has a signal coming, and no wake-up was ever dropped |
| `MicroLocks.EveryRun` | duct-tape/src/locks.c:54-159 | the same from any state that satisfies the invariants |
| `MicroLocks.Exclusion` | duct-tape/src/locks.c:54-94 | two microthreads never own the mutex together, and none does while a native thread holds the queue lock |
| `MicroLocks.WokenWaiterGetsIt` | duct-tape/src/locks.c:74-94 | the waiter on its way gets the free mutex when it retries, if nobody barges in |
| `MicroLocks.PoppedIsParked` | src/thread.cpp:400-431 | a waiter dequeued under the queue lock is suspended and not running, so neither resume nor doWork drops its wake-up |
| `MicroLocks.OneQueue` | duct-tape/src/condvar.c:29-49 | a microthread's one link is in at most one queue, once |
| `MicroLocks.SignalFindsAll` | duct-tape/src/condvar.c:12-27 | a setter's signal leaves no reader waiting that saw the old info, not even one that was only about to wait |
| `MicroLocks.ReadersAreAwake` | duct-tape/src/task.c:198-205 | once the info is set and every setter has signalled, no reader is asleep |
| `MicroLocks.ReleaseKeepsInv` | duct-tape/src/locks.c:126-159 | unlocking keeps the invariant |
| `MicroLocks.ResumeAllSchedules` | src/thread.cpp:641-651 | wake-ups of suspended microthreads all take effect |
| `MicroLocksProgress.NobodyIsStuck` | duct-tape/src/locks.c:54-159 | no deadlock, after every run: when nobody can take a step any more, the mutex is free with nobody queued, and every microthread is done or parked for info that is not there |
| `MicroLocksProgress.QueuesInTurn` | duct-tape/src/condvar.c:12-49 | both queues are first come, first served: one joins at the end, one leaves from the front at an unlock, all at a setter's signal |
| `MicroLocksProgress.ResumeOutcome` | src/thread.cpp:641-651 | resume schedules exactly a suspended microthread; any other wake-up counts as dropped |
| `MicroLocksProgress.WorkOutcome` | src/thread.cpp:400-431 | a scheduled microthread goes on where it parked; a request for any other counts as dropped |
| `MicroLocksProgress.OnlySettersStore` | duct-tape/src/task.c:198-205 | the info is what the last setter that owned the mutex stored |
| `MicroLocksProgress.NativeLocks` | duct-tape/src/locks.c:54-72 | a native thread gets the queue lock exactly if that and the mutex are free, and only it gives the lock back |
| `MicroLocks.MutexAndCondvar.LockTurn` | duct-tape/src/locks.c:76-93 | one turn of the lock loop: afterwards somebody owns the mutex, and a caller that does not is last in the queue and holds the queue lock; all invariants stay |
| `MicroLocks.MutexAndCondvar.MutexUnlock` | duct-tape/src/locks.c:126-159 | gives the mutex up and wakes the oldest waiter |
| `MicroLocks.MutexAndCondvar.UnlockByOwner` | duct-tape/src/locks.c:126-159 | the owner's unlock drops no wake-up: the mutex is free and the oldest waiter has left the queue and is on its way |
| `MicroLocks.MutexAndCondvar.SignalReaders` | duct-tape/src/condvar.c:12-27 | a setter's signal drops no wake-up and leaves no reader waiting for the info |
| `MicroLocks.MutexAndCondvar.CondvarSignal` | duct-tape/src/condvar.c:12-27 | the loop wakes the oldest `count` waiters, or all there are |
| `MicroLocks.MutexAndCondvar.CondvarEnqueue` | duct-tape/src/condvar.c:40-45 | a waiter is last in the queue and still holds the queue lock; all invariants stay |
| `MicroLocks.MutexAndCondvar.BeginSuspend` | src/thread.cpp:599-601 | a microthread marked suspended is still queued: no wake-up came in between |
| `MicroLocks.MutexAndCondvar.EndSuspend` | src/thread.cpp:607-638 | the microthread leaves its worker, still suspended and queued: it was not resumed while it held the queue lock |
| `MicroLocks.MutexAndCondvar.DropQueueLock` | src/thread.cpp:579-582 | when the queue lock is dropped the microthread is suspended, off its worker and still queued |
| `MicroLocks.MutexAndCondvar.RunScheduled` | src/thread.cpp:400-431 | a scheduled microthread does run on, where it waited: the request is not dropped |
| `Executor.AlwaysSingle` | src/thread.cpp:400-431 | in every interleaving of any number of workers and impersonators, `_running` says exactly whether somebody executes the microthread, at most one does, and every run request is accounted for |
| `Executor.AtMostOneExecutor` | src/thread.cpp:400-431 | the same as a number |
| `Executor.RequestIsServed` | src/thread.cpp:400-431 | a request taken while deferred is remembered, with nobody executing it runs, and it is dropped only if somebody else executes |
| `Executor.ImpersonatorIsServed` | src/thread.cpp:701-730 | an impersonator whose turn it is gets the microthread alone, and gives it back |
| `Executor.AlwaysApart` | src/thread.cpp:701-730 | in every run nobody waits for the microthread and executes it at the same time |
| `Executor.SettledMeansIdle` | src/thread.cpp:400-431 | when nobody can take a step any more, nobody executes or waits and no request is left |
| `Executor.RequestsCollapse` | src/thread.cpp:1320-1346 | all run requests taken while the only impersonator is deferred come back as exactly one at its undefer, and none is dropped |
| `Executor.DeferredIffNoOverlap` | src/thread.cpp:701-730 | over a run, the microthread stays deferred as long as it is impersonated if and only if no impersonator gives up while another waits |
| `Executor.ImpersonatorDropsNothing` | src/thread.cpp:402-407 | without such an overlap a request that meets an impersonator is never dropped |
| `Executor.OverlapLosesRequests` | src/thread.cpp:409-414 | with one, the next request after the other impersonator takes over is dropped |
| `Executor.OverlapHappens` | src/thread.cpp:701-730 | such an overlap is reached: two impersonators, the first of which gives up while the second waits |
| `Executor.Microthread.EnterDoWork` | src/thread.cpp:400-431 | a worker that gets in is the only executor, one that does not leaves the others alone; while the microthread is impersonated and deferred the request stays pending and none is dropped |
| `Executor.Microthread.LeaveDoWork` | src/thread.cpp:541-547 | leaves nobody executing and the bookkeeping balanced |
| `Executor.Microthread.DeferLocked` | src/thread.cpp:1320-1330 | from here on no run request lets a worker in |
| `Executor.Microthread.StartImpersonating` | src/thread.cpp:708-713 | the impersonator is the only executor |
| `Executor.Microthread.StopImpersonating` | src/thread.cpp:722-729 | nobody executes, and the requests taken meanwhile come back as exactly one; if no other waits, the deferral discipline holds again |
| `KqchanGate.DisciplinedRun` | src/kqchan.cpp:147-191 | for a client that reads only after a notification and awaits each reply: the deferred slot is never overwritten, and notifications and read replies alternate, with modify replies anywhere in between, so every reply is queued before any notification raised after its read began |
| `KqchanGate.OneNotificationPerRead` | src/kqchan.cpp:147-177 | between two reads of whatever client at most one notification is raised |
| `KqchanGate.NotificationsAccountedFor` | src/kqchan.cpp:147-191 | for any client and any run: the notifications raised are exactly those pushed, in a thread's hand, in the slot and overwritten there, and none is in two places |
| `KqchanGate.LostIsRaisedAndGone` | src/kqchan.cpp:147-191 | from the start, therefore, a notification counts as lost exactly if it was raised and is nowhere to be found |
| `KqchanGate.LostIffOverwrite` | src/kqchan.cpp:147-191 | for any client and any run: no notification is lost if and only if none is raised while the slot is full and notifications are deferred and may be sent |
| `KqchanGate.EmptySlotLosesNothing` | src/kqchan.cpp:345-371 | in particular, as long as every read begins with the slot empty nothing is lost |
| `KqchanGate.FullSlotLoses` | src/kqchan.cpp:345-371 | a read that begins with the slot full loses the next notification, whatever comes before it that neither ends a deferral nor raises one |
| `KqchanGate.FinishSaves` | src/kqchan.cpp:179-191 | a read that ends first empties the slot, and the next notification is not lost |
| `KqchanGate.OverlappingReadsFillSlot` | src/kqchan.cpp:345-371 | a client that reads again before its reply gets there, and loses a notification |
| `KqchanGate.ReadFindsRest` | src/kqchan.cpp:147-191 | a client that has got its notification finds the channel at rest |
| `Kqchan.EveryRun` | src/kqchan.cpp:545-719 | in every run: queued events of a channel with a socket are attended to (an unacknowledged notification, a read under way, a queued reply that re-checks, a re-check, or setup), events leave the queue in order, successful reads return exactly those whose flags matched when popped, in order, and every read is answered once, in order |
| `Kqchan.WantedIsCommon` | src/kqchan.cpp:599-605 | the flags returned for an event are the largest set of bits that the event has and the client asked for |
| `Kqchan.AnswersAreAskedFor` | src/kqchan.cpp:576-643 | in every run the answers are, in order, those to the popped events that have a bit the client asked for when they were popped, each with exactly those bits; no other event is ever answered |
| `Kqchan.NotifiedIn` | src/kqchan.cpp:645-695 | the events queued over a run are those that came, in order |
| `KqchanProgress.ClientIsTold` | src/kqchan.cpp:545-719 | from every reachable state, in every order of the steps under way: only so many have an effect, and when none has one left a live client with a queued event has been sent a notification it has not acknowledged |
| `KqchanProgress.EffectIsProgress` | src/kqchan.cpp:545-719 | every step under way that changes anything lowers the bound |
| `KqchanProgress.SettledMeansDone` | src/kqchan.cpp:545-719 | nothing is left to do exactly when everything raised and answered has been sent, nobody checks and no request is handled |
| `KqchanProgress.SetupOnlyAdvances` | src/kqchan.cpp:461-490 | a channel gets its socket once and is set up once |
| `KqchanProgress.FlagsAreLastModified` | src/kqchan.cpp:527-543 | over every run the flags in force are those of the last modify request taken up |
| `KqchanProgress.EveryModifyIsAnswered` | src/kqchan.cpp:527-543 | and every modify request taken up is answered, but for the one being handled |
| `KqchanProgress.DisciplinedClientIsTold` | src/kqchan.cpp:147-191 | a client that keeps the rules and is owed a notification has got it when nothing is left to do on the channel |
| `KqchanProgress.ChannelProgress` | src/kqchan.cpp:147-191 | every step under way on a channel with overlapping reads that changes anything lowers a bound |
| `KqchanProgress.EveryReplyIsLogged` | src/kqchan.cpp:345-371 | over every run there is one reply for each read answered and one for each modify request |
| `Kqchan.StepForgetsNothing` | src/kqchan.cpp:545-719 | each step keeps a non-empty event queue attended to |
| `Kqchan.StepKeepsGate` | src/kqchan.cpp:147-191 | while notifications are held back the client has an unacknowledged one, in the slot, in a thread's hand, in the outbox or sent |
| `Kqchan.StepKeepsOrder` | src/kqchan.cpp:576-643 | each step keeps the order of events and replies |
| `Kqchan.SearchEnds` | src/kqchan.cpp:576-638 | the loop of a read ends after one turn for each event it discards and one more |
| `Kqchan.SearchFinds` | src/kqchan.cpp:576-638 | a read left alone answers with the first event the client wants, and with none when there is none |
| `Kqchan.NotificationGate.SendNotification` | src/kqchan.cpp:147-177 | afterwards notifications are held back and the client has one that it has not acknowledged, in the slot, in hand, queued or sent |
| `Kqchan.NotificationGate.SendDeferredNotification` | src/kqchan.cpp:179-191 | ends the deferral; a notification not yet acknowledged stays one |
| `Kqchan.ProcessChannel.NotifyEvent` | src/kqchan.cpp:689-695 | queues the event; on a channel with a socket the client then has an unacknowledged notification, and all invariants stay |
| `Kqchan.ProcessChannel.EndSetup` | src/kqchan.cpp:478-487 | events that came before the socket have a notification by the end of setup |
| `Kqchan.ProcessChannel.CheckForEvents` | src/kqchan.cpp:689-719 | a re-check leaves no queued event without a notification |
| `Kqchan.ProcessChannel.ReadEvent` | src/kqchan.cpp:545-644 | the whole read: one reply is queued, with the first event the client wants, if any; that one and those before it leave the queue; notifications are no longer deferred; all invariants stay |
| `Kqchan.ProcessChannel.SearchForEvent` | src/kqchan.cpp:576-638 | its loop ends and does what the specification says |
| `Kqchan.ProcessChannel.ModifyFlags` | src/kqchan.cpp:527-543 | new flags, no event lost, and a reply in the queue that re-checks |
| `MessageQueues.SendManyKeepsOrder` | src/message.cpp:499-561 | no message is skipped, doubled or moved by sendMany, whatever the system calls return |
| `MessageQueues.SendManyStops` | src/message.cpp:499-561 | a message is dropped only when the peer is gone, and messages stay behind only when the socket would block or an error was thrown |
| `MessageQueues.LeftIsWhatCallsTook` | src/message.cpp:499-561 | the messages that leave the queue are, in order, exactly as many as each call took, and one for each call that found its peer gone |
| `MessageQueues.NoMoreSentThanTaken` | src/message.cpp:551-557 | whatever the calls say, no more messages count as sent than they took in all |
| `MessageQueues.SendManyReports` | src/message.cpp:531-561 | the socket counts as full exactly if messages are left and no error was thrown, and one is thrown only if a call had one |
| `MessageQueues.CallbacksAreOfSent` | src/message.cpp:551-557 | a callback runs exactly for the messages sent that have one, as often as they were sent |
| `MessageQueues.MessageQueue.Push` | src/message.cpp:475-486 | with every message ever pushed equal to those gone and those queued, in order: one more at the end |
| `MessageQueues.MessageQueue.Pop` | src/message.cpp:488-497 | the oldest message that is not gone, and none only when all are |
| `MessageQueues.MessageQueue.SendAll` | src/message.cpp:499-561 | the batch loop does what the specification says; what has left so far and what is queued stay the messages pushed, in order; the callbacks that run are those of the messages sent |
| `MessageQueues.MessageQueue.TakeOff` | src/message.cpp:551-557 | the messages taken leave the queue and their callbacks run |
| `KernelAsync.EveryJobOnce` | src/thread.cpp:797-872 | in every run: each job starts once and in order, no runner finds the queue empty, the count of available runners is never negative, a runner blocks only when every queued job is granted or still to be signalled, and a permanent runner exists from the first push on |
| `KernelAsyncProgress.EveryJobIsRun` | src/thread.cpp:797-872 | from every reachable state, in every order of the runners' and the semaphore's steps: there are only so many, and when none is left every job pushed has been started, in order |
| `KernelAsync.IdleCountsEmptyLooks` | src/thread.cpp:817-838 | a runner that finds no job is counted, gives its availability up all the same, and ends unless it is permanent |
| `KernelAsync.StepKeepsInv` | src/thread.cpp:797-872 | each step keeps: queue length is semaphore count plus granted runners plus pushes not yet signalled |
| `KernelAsync.TakeKeepsInv` | src/thread.cpp:817-838 | a runner past the semaphore finds a job |
| `KernelAsync.RunnerPool.PushJob` | src/thread.cpp:855-868 | a queued job has an available runner or one that is starting, and from now on a permanent runner exists; all invariants stay |
| `KernelAsync.RunnerPool.TakeJob` | src/thread.cpp:817-838 | a runner past the semaphore gets the oldest job: it never finds the queue empty |
| `KernelAsync.RunnerPool.BecomeAvailable` | src/thread.cpp:799-802 | the runner is counted: the count is positive and exact |
| `KernelAsync.RunnerPool.StopWaiting` | src/thread.cpp:804-815 | an interrupted runner takes its availability and no job with it, the count stays exact and not negative, a permanent runner waits again |
| `WorkQueues.EveryItemOnce` | internal-include/darlingserver/workers.hpp:69-178 | in every run: items are taken once and in order, `_threadsAvailable` is never below the number asleep, and while a worker sleeps each queued item has a wake-up or a worker of its own on the way |
| `WorkQueues.NobodySleepsOnWork` | internal-include/darlingserver/workers.hpp:69-178 | a queued item never waits on sleepers alone |
| `WorkQueueProgress.EveryItemIsTaken` | internal-include/darlingserver/workers.hpp:69-178 | from every reachable state of a pool with a permanent worker, in every order of the steps: there are only so many, and when none is left every item pushed has been taken, in order |
| `WorkQueues.NeverTooManyWorkers` | internal-include/darlingserver/workers.hpp:161-178 | in every run there are never more workers than the maximum (or than the permanent ones, if those are more) |
| `WorkQueues.PushStartsWorker` | internal-include/darlingserver/workers.hpp:161-178 | a push starts a worker exactly if none counts as available and there is room for one, and owes a wake-up otherwise |
| `WorkQueues.EveryPushIsOneWakeup` | internal-include/darlingserver/workers.hpp:161-178 | over every run the items pushed are as many as the workers started, the wake-ups given and those still owed |
| `WorkQueues.AvailableIffNoTimeout` | internal-include/darlingserver/workers.hpp:77-120 | over every run from the start: `_threadsAvailable` exceeds the number of waiting workers by the number of temporary workers that timed out and found the queue empty at their last look, so it is exact if and only if there was none |
| `WorkQueues.LeakIsForever` | internal-include/darlingserver/workers.hpp:77-120 | after one such time-out, and any further run, no push starts another worker |
| `WorkQueues.LeakHappens` | internal-include/darlingserver/workers.hpp:77-120 | one permanent worker, room for two, and a temporary worker that finds its item taken |
| `WorkQueues.StepKeepsInv` | internal-include/darlingserver/workers.hpp:69-178 | each step keeps these |
| `WorkQueues.Workers.constructor` | internal-include/darlingserver/workers.hpp:132-142 | starts the permanent workers; every item will have a worker |
| `WorkQueues.Workers.PushItem` | internal-include/darlingserver/workers.hpp:161-178 | starts a worker exactly if none counts as available and there is room for one, and owes a wake-up otherwise; never more workers than the maximum; all invariants stay |
| `WorkQueues.Workers.StartWaiting` | internal-include/darlingserver/workers.hpp:75-98 | a worker sleeps only if the queue is empty, and otherwise takes the oldest item |
| `WorkQueues.Workers.LookAgain` | internal-include/darlingserver/workers.hpp:81-98 | a woken worker likewise |
| `WorkQueues.Workers.TimedWaitEnds` | internal-include/darlingserver/workers.hpp:104-120 | the last look of a temporary worker: an item is taken, or the worker ends with the queue empty and its availability still counted |

## Left out

- CondVar.EveryRunKeepsWords: with atomic entry points only; between the two halves of a signal that has to allocate, another call may change L.
- Ksyn.KsynWaitQueue.InsertFirstFit: the cached numbers are bounds only, because the list is in arrival order; a removal from it does not keep even that in the code, so nothing about first-fit mutexes relies on them.
- FirstFitMutex.FirstFitKwq.PsynchMutexDrop: does not model the word handed to the woken thread, which is taken from those caches, nor the owner bookkeeping; no other call comes between its attempts, which `EveryDropIsOneGrant` and `EveryRetryShortensQueue` allow.
- CondVarQueue.CondVarKwq.HandleBroad: no other call acts while the lock is given up to allocate; the steps `BroadScan` and `BroadRescan` of `CondVar` cover what comes between.
- CondVarQueue.CondVarKwq.CvSignalOne: likewise; see `SignalScan` and `SignalRescan`.
- RwLockLedger.BankedGrantsHandedOut: readers only; a banked writer grant is never taken, because the lock path compares 0x04 with 0x2 (kern_synch.c:144, 197, 1401).
- Kqchan.ProcessChannel.ReadEvent: does not model NOTE_TRACK, the channels set up for child processes and the error flag that goes with them.
- Interrupts.NothingGoesWrong: a pass of doWork is one step; `InterruptPasses` takes its end apart. Server-to-client calls are not among the events.
- InterruptPasses.NothingGoesWrongIff: the part of a pass up to its last reply, or to where it suspends, is one step.
- MicroLocks.NothingLost: assumes that only lock and condition variable code resumes a waiter, and that no waiter is interrupted or dies.
- WorkQueues.EveryItemOnce: the destructor and its dying flag are not modelled.
- The branch of the insertion for cancelled threads: `uthread_is_cancelled` is constantly 0 here (duct-tape/src/psynch.c:630-633).
- 32-bit wrap-around of counters other than sequence words (prepost counts, availability counts).
- `dtape_mutex_try_lock`, whose microthread path releases the queue lock without having taken it.
- Fair-share psynch mutexes, turnstiles, thread ownership hints and QoS.
- Hash lookup, sharing and delayed freeing of wait queues; user-space generation of the L, U and S words; `kw_cvkernelseq`, which is never read.
- Context switching on real stacks, address sanitizer hooks, sockets, epoll, timers, procfs and ptrace.
- `Kqchan::MachPort` beyond the notification gate it shares, XNU wait queues and Mach IPC; semaphores are counting semaphores.
- Message control buffers and descriptors, registries, logging, the launcher and the debug client: plumbing that would only add easy members.
