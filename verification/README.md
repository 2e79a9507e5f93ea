# A verified model of the Freeze evictor and its neighbours

Freeze keeps Ice objects in a Berkeley DB database and their servants in memory. Its evictor is a
write-behind cache: clients add, remove, keep, release and call objects while a background thread
streams changed objects, commits them in batches and lets idle ones go. This project models that
evictor, with every critical section of the source as one atomic step, and proves that clients cannot
tell it from one plain map. It also models the parts of Ice 3.1 that the evictor leans on or that share
its data: the load latch of `IceUtil::Cache`, deactivation, the batch iterator, index queries, the
iterators of a Freeze map, the FreezeScript codec with nested encapsulations, and the object printer.

`dafny verify dfyconfig.toml` checks everything.

## How it is laid out

* `EvictorTypes`, `PlainMap`: shared values, and the specification: a map from identity to state, with
  keep counts, and the events clients can see.
* `EvictorSections`: what each critical section does to the guarded state, as functions. `EvictorClass` is the
  same as a class that updates its fields in place, each method proved to do what its section says.
  `EvictorStructure` says what list, counter, cache map and elements owe each other.
* `EvictorMachine`: all threads, the saving thread, the database and deactivation as one transition system.
  `EvictorInvariant` states its invariant as facts about one element at a time; `EvictorPreservation` shows that
  each of the 29 steps keeps it; `EvictorRefinement` shows that each is a step of the plain map; `EvictorRuns` and
  `EvictorBarrier` draw the conclusions about whole runs; `EvictorProgress` says how a thread in saveNow comes to be woken,
  `EvictorMissed` exactly when its call misses an object, and `EvictorWindow` is a run in which it does. `EvictorCalls`
  follows each call to its answer, and `EvictorLoads` each placeholder to its loader and each transaction to its size.
* `EvictionOrder`, `EvictorRecency`, `EvictorEviction`: which elements evict() takes, that the list is in the order of
  last use over any run, and that eviction happens when it has to.
* `EvictorBatches`, `EvictorStreaming`, `EvictorGuards`: the loops of the saving thread, and the facts that make every
  guard and assertion of the source hold. `EvictorMutexes` adds the servants' mutexes to the machine.
* `LoadLatch`, `LoadLatchClass`; `Deactivation`; `BatchIterator`, `IdentityKeys`; `IndexQuery`; `MapIterators`.
* `ByteStrings`, `Wire`, `Codec`, `CodecOrder`, `CodecRoundTrip`, `CodecLayout`, `BasicStream`, `DataStream`, `Encapsulation`.
* `Printer`, `PrinterOutput`, `PrintVisitor`.

The main idea of the evictor proof: let D be the database with the streamed but uncommitted records applied in
order. An element's status then says what D holds for its key (created and dead: nothing; clean, modified and
destroyed: something), and an element with an unsaved change is always in the modified queue, in the part of the
batch still to be streamed, or about to be enqueued by a finished() in progress. Everything else follows from
who owns each usage count.

Where the code differs from what is written about it, the model follows the code:

* `ObjectStore.h:109-112` says that a destroyed object can become created. The code makes it modified, which is
  right, because the database still has the object.
* `saveNow` does not cover a change whose `finished` is between its two sections: the element is modified but not
  yet on the queue. `EvictorMissed.BarrierIff` says exactly when a call can miss an object; `EvictorWindow.WindowLosesBarrier`
  is a run in which it does.
* The printer leaves out data members inherited by way of an abstract class that is not an interface, because it
  stops at `isAbstract` where `allDataMembers` stops at `isInterface`. `Printer.PrintsAllMembersIff` says exactly when it
  prints all members.
* The evictor iterator retries its first batch from 1024 zero bytes instead of from the first record.
  `BatchIterator.SkippedByRetry` says which keys that skips: only ones that no identity with a name has.
* startReadEncaps accepts a length that does not even cover its own six bytes. `Encapsulation.LeavesForwardIff` says when
  leaving moves the cursor back.
* `untypedCount` does not reset its result when it starts over after a deadlock, as `untypedFindFirst` does.
  `IndexQuery.CountIsCurrentIff` says exactly when that shows; it cannot if the store does not change (`StableCount`).

## Model

| member | source | states |
|---|---|---|
| `EvictorRefinement.StepRefines` | Ice-3.1.1/src/Freeze/EvictorI.cpp:509-1315 | Whatever the interleaving, every step of every client, of the saving thread and of deactivation is a step of one plain map from identity to state with keep counts: add succeeds iff the key is absent, create overwrites, remove and locate answer with the map's state, keep and release follow its counts, and pinning, streaming, committing, releasing and evicting do not change it |
| `EvictorRuns.RunRefines` | Ice-3.1.1/src/Freeze/EvictorI.cpp:272-1900 | Along every run the evictor is, event by event, that plain map, starting as the contents of the database |
| `EvictorPreservation.StepInv` | Ice-3.1.1/src/Freeze/EvictorI.cpp:466-1900 | Every step keeps the invariant: structure, usage ownership, the status that decides presence in the database with the pending records applied, and the saving thread's and deactivation's own facts |
| `EvictorPreservation.InitInv` | Ice-3.1.1/src/Freeze/EvictorI.cpp:272-401 | A new evictor over any database satisfies the invariant |
| `EvictorPreservation.StreamInv` | Ice-3.1.1/src/Freeze/EvictorI.cpp:1440-1581 | Streaming an element moves its change from the element to the pending records, without a gap: the database with the records applied shows it from then on |
| `EvictorPreservation.CommitShape` | Ice-3.1.1/src/Freeze/ObjectStore.cpp:215-252 | Committing a prefix of the pending records succeeds, leaves the rest saveable, and leaves the database with the rest applied as it was |
| `EvictorPreservation.PendingPinned` | Ice-3.1.1/src/Freeze/EvictorI.cpp:1250-1313 | The element of every record not yet committed is still the pinned element of its key |
| `EvictorPreservation.SectionInv` | Ice-3.1.1/src/Freeze/EvictorI.cpp:509-1256 | The locked sections of add, create, remove, keep and locate keep the invariant, for an element evicted meanwhile too |
| `EvictorPreservation.ReleasePhaseInv` | Ice-3.1.1/src/Freeze/EvictorI.cpp:1691-1737 | Giving back the batch's usage counts, evicting unused dead elements named any number of times, evicting idle ones and waking the round's saveNow threads keep the invariant |
| `EvictorRuns.RunNeverFails` | Ice-3.1.1/src/Freeze/ObjectStore.cpp:215-252 | Over any run no put-no-overwrite meets an existing key and no delete misses, so save never takes an error branch and the saving thread is never killed by one |
| `EvictorRuns.UsageConserved` | Ice-3.1.1/src/Freeze/EvictorI.cpp:1250-1313 | In every reachable state a non-negative usage count equals the element's entries in the modified queue plus those in the saving thread's batch plus its outstanding cookies; a stale element has none; an unsaved one has at least one |
| `EvictorRuns.EvictedIsSaved` | Ice-3.1.1/src/Freeze/EvictorI.cpp:1791-1886 | Whenever an object's element leaves the cache, the database already holds exactly the state clients saw, or the object's absence |
| `EvictorRuns.KeptSafe` | Ice-3.1.1/src/Freeze/EvictorI.cpp:894-986 | An object with a positive keep count exists, has a servant, is pinned and is outside the evictor list, so that it is never evicted and the assertion in removeFacet holds |
| `EvictorRuns.StaleRetries` | Ice-3.1.1/src/Freeze/EvictorI.cpp:524-533 | A thread in a locked section sees stale iff its element is no longer the pinned one, and then changes nothing and pins again |
| `EvictorRuns.FinishedAsserts` | Ice-3.1.1/src/Freeze/EvictorI.cpp:1291-1296 | The assertions in finished hold: its element is not stale and has a usage count of at least one |
| `EvictorRuns.ExitAsserts` | Ice-3.1.1/src/Freeze/EvictorI.cpp:1408-1413 | The assertions at the saving thread's exit hold: the modified queue is empty and nobody waits in saveNow |
| `EvictorRuns.EvictAsserts` | Ice-3.1.1/src/Freeze/EvictorI.cpp:1798-1822 | The assertions in evict hold: the counter equals the list's length, and a listed element is neither stale nor kept |
| `EvictorRuns.DeactivationExclusive` | Ice-3.1.1/src/Freeze/EvictorI.cpp:1317-1359 | From the moment a thread has been told to deactivate until the end no thread is inside a guarded operation |
| `EvictorBarrier.SaveNowBarrier` | Ice-3.1.1/src/Freeze/EvictorI.cpp:1386-1429 | When a saveNow returns, the database holds, for each object whose change was enqueued, in the batch, streamed or committed at the call, a state the object has had since the call, with any number of concurrent callers |
| `EvictorBarrier.RecordedWithoutDispatch` | Ice-3.1.1/src/Freeze/EvictorI.cpp:1777-1789 | The condition of the barrier holds for every object on which no mutating dispatch is in progress at the call |
| `EvictorMissed.BarrierIff` | Ice-3.1.1/src/Freeze/EvictorI.cpp:1386-1429 | The exact condition: in every reachable state, for a thread that may call saveNow, an object is recorded if and only if no continuation in which that call returns leaves the database without any state the object has had since the call |
| `EvictorMissed.UnrecordedIsMissed` | Ice-3.1.1/src/Freeze/EvictorI.cpp:1275-1305 | Every unrecorded object can be missed: from any such state, with no other client taking a step, the call is made and returns, and the database holds a state the object did not have at any moment of it |
| `EvictorWindow.WindowLosesBarrier` | Ice-3.1.1/src/Freeze/EvictorI.cpp:1275-1305 | An unrecorded object exists: the run of a finished that is between its two sections while saveNow is called and returns |
| `EvictorBarrier.ShutdownSaves` | Ice-3.1.1/src/Freeze/EvictorI.cpp:1317-1359 | Once deactivation has told the saving thread to stop, the database holds every object as the map shows it, unless a mutating dispatch on it is still outstanding |
| `EvictorProgress.SaverNearer` | Ice-3.1.1/src/Freeze/EvictorI.cpp:1375-1740 | Every step of the saving thread other than a deadlock wakes a thread waiting in saveNow or brings it nearer, in the order of rounds, stages, entries left and looks at an entry, so only finitely many of them lie before it |
| `EvictorProgress.OthersDoNotDelay` | Ice-3.1.1/src/Freeze/EvictorI.cpp:1777-1789 | No step of any other thread changes the rounds, stages or entries before a waiting thread, or takes it off the list |
| `EvictorProgress.DeadlockKeepsPlace` | Ice-3.1.1/src/Freeze/EvictorI.cpp:1661-1675 | A deadlock changes neither a waiter's place nor the list of waiters |
| `EvictorProgress.NextStepNearer` | Ice-3.1.1/src/Freeze/EvictorI.cpp:1375-1740 | While a thread waits in saveNow the saving thread has an enabled step that is neither a deadlock nor its exit, and that step brings the waiter nearer |
| `EvictorLoads.DeadlockHalves` | Ice-3.1.1/src/Freeze/EvictorI.cpp:1661-1675 | A deadlock halves the transaction that met it, rounding up, and changes nothing else |
| `EvictorLoads.TransactionBounds` | Ice-3.1.1/src/Freeze/EvictorI.cpp:1599-1659 | Over any run every commit takes at least one record and at most the configured maximum |
| `EvictorLoads.CommitTakes` | Ice-3.1.1/src/Freeze/EvictorI.cpp:1611-1659 | A commit takes as many records as the one before, or all that are left, off the front |
| `EvictorLoads.PlaceholderIffLoading` | Ice-3.1.1/include/IceUtil/Cache.h:197-252 | In every reachable state of the evictor a key has a placeholder exactly while its one loader is loading it |
| `EvictorCalls.AnsweredOnLeaving` | Ice-3.1.1/src/Freeze/EvictorI.cpp:509-1256 | An operation that was taken up ends only with an answer to it, with its key and state, unless loading threw |
| `EvictorCalls.CallIsTakenUp` | Ice-3.1.1/src/Freeze/EvictorI.cpp:466-520 | Over any run a call is taken up as it was made, or answered at once because its store does not exist |
| `EvictorCalls.ServesLastCall` | Ice-3.1.1/src/Freeze/EvictorI.cpp:509-1256 | The operation a thread is carrying out is the one it was last called with |
| `EvictorCalls.DispatchOfLocate` | Ice-3.1.1/src/Freeze/EvictorI.cpp:1188-1256 | A thread that dispatches was let in by a locate, to the servant the element had then, with that call's mutating flag |
| `EvictorCalls.LocateBegins` | Ice-3.1.1/src/Freeze/EvictorI.cpp:1188-1256 | A locate answers with an object if and only if it begins a dispatch to it |
| `EvictorBarrier.HasFacetLinearizable` | Ice-3.1.1/src/Freeze/EvictorI.cpp:1034-1065 | The answer hasFacet reads from the database without the lock is one the plain map gave at some moment during the call |
| `EvictorGuards.InvStructural` | Ice-3.1.1/src/Freeze/EvictorI.cpp:1851-1886 | List, counter, cache map and elements agree in every state with the invariant, which is what the class methods require |
| `EvictorGuards.ClientsNotStuck` | Ice-3.1.1/src/Freeze/EvictorI.cpp:509-1315 | A client thread that has pinned, dispatched or half finished always has an enabled next step |
| `EvictorGuards.SaverNotStuck` | Ice-3.1.1/src/Freeze/EvictorI.cpp:1375-1740 | The step the saving thread takes next is enabled in every phase until it has exited |
| `EvictorGuards.BatchOwnsCounts` | Ice-3.1.1/src/Freeze/EvictorI.cpp:1694-1703 | Each element of the batch is pinned and has at least as many usage counts as entries in the batch |
| `EvictionOrder.EvictsFewestFromTail` | Ice-3.1.1/src/Freeze/EvictorI.cpp:1791-1849 | evict() removes the smaller of the excess and the number of idle entries, so it ends within the size or with every entry in use; entries in use stay; no idle entry stays while a more recently used idle one goes |
| `EvictionOrder.EvictsAfterCut` | Ice-3.1.1/src/Freeze/EvictorI.cpp:1791-1849 | The survivors are the entries before one position, untouched and in order, followed by the entries in use after it, in order |
| `EvictionOrder.ScanEffect` | Ice-3.1.1/src/Freeze/EvictorI.cpp:1791-1849 | Eviction changes nothing about an element but its staleness, which it sets exactly for those it takes from the list |
| `EvictorRecency.ListedByRecency` | Ice-3.1.1/src/Freeze/EvictorI.cpp:1851-1873 | Over any run, of two elements on the evictor list the one used later stands first: used by a section of add, create, remove or locate, or by the release that ends a keep |
| `EvictorRecency.ListStep` | Ice-3.1.1/src/Freeze/EvictorI.cpp:509-986 | Whatever the step, the list keeps its order, or one element it uses goes to the front and the others keep theirs |
| `EvictorEviction.EvictsLeastRecent` | Ice-3.1.1/src/Freeze/EvictorI.cpp:1791-1849 | Over any run, an object evicted for lack of room was used before every idle object that stays on the list |
| `EvictorEviction.FinishedEvicts` | Ice-3.1.1/src/Freeze/EvictorI.cpp:1288-1314 | finished that enqueues nothing and leaves its object idle and not kept ends with the list within its limit or all in use; otherwise it leaves list and cache alone |
| `EvictorEviction.SetSizeEvicts` | Ice-3.1.1/src/Freeze/EvictorI.cpp:425-450 | A size that is not negative becomes the limit and the list fits it; a negative one changes nothing |
| `EvictorEviction.StopEvicts` | Ice-3.1.1/src/Freeze/EvictorI.cpp:1317-1359 | Deactivation sets the limit to 0 and leaves only entries in use |
| `EvictorEviction.ReleaseEvicts` | Ice-3.1.1/src/Freeze/EvictorI.cpp:1691-1737 | A saving round ends with the list fitting, and with nothing on its queue of dead elements still pinned, unused, not kept and dead |
| `EvictorEviction.RoundLeavesNoDead` | Ice-3.1.1/src/Freeze/EvictorI.cpp:1691-1737 | Over any run, no element that a saving round has saved is pinned, unused, not kept and dead when the round ends |
| `EvictorClass.EvictorElement.constructor` | Ice-3.1.1/src/Freeze/ObjectStore.cpp:373-380 | A new element has usage count -1, keep count 0 and is stale |
| `EvictorClass.Evictor.FixEvictPosition` | Ice-3.1.1/src/Freeze/EvictorI.cpp:1851-1873 | In place: a used element that is not kept stands in front, with all others in their order; a kept one and the list stay; a first use turns the count from -1 to 0 |
| `EvictorClass.Evictor.AddToModifiedQueue` | Ice-3.1.1/src/Freeze/EvictorI.cpp:1888-1899 | The element is appended to the queue, which then owns one more usage count |
| `EvictorClass.Evictor.Add` | Ice-3.1.1/src/Freeze/EvictorI.cpp:523-585 | The section in place, retried if the element is stale: an existing object is refused, a destroyed one becomes modified without a second queue entry, a dead one becomes created and is queued |
| `EvictorClass.Evictor.CreateOrUpdate` | Ice-3.1.1/src/Freeze/EvictorI.cpp:640-700 | The section in place, retried if stale: as add, but an existing object gets the new servant, and is queued only if it was clean |
| `EvictorClass.Evictor.Remove` | Ice-3.1.1/src/Freeze/EvictorI.cpp:737-805 | The section in place, retried if stale, with the servant returned iff the object existed; a kept element goes back to the list |
| `EvictorClass.Evictor.Keep` | Ice-3.1.1/src/Freeze/EvictorI.cpp:885-925 | The section in place, retried if stale: the first keep takes the element out of the list; refused iff the object does not exist |
| `EvictorClass.Evictor.Release` | Ice-3.1.1/src/Freeze/EvictorI.cpp:956-990 | The section in place: the last release puts the element back at the front; refused iff not pinned or not kept |
| `EvictorClass.Evictor.Locate` | Ice-3.1.1/src/Freeze/EvictorI.cpp:1218-1255 | The section in place, retried if stale: an existing object's servant is returned with one usage count for the cookie |
| `EvictorClass.Evictor.FinishedFirst` | Ice-3.1.1/src/Freeze/EvictorI.cpp:1275-1286 | Under the element's mutex a clean element of a mutating dispatch becomes modified, and is to be enqueued exactly then |
| `EvictorClass.Evictor.FinishedSecond` | Ice-3.1.1/src/Freeze/EvictorI.cpp:1288-1314 | The cookie's count is given back; then the element is enqueued, or, if it is idle and not kept, the list ends within its limit or with every entry in use |
| `EvictorClass.Evictor.SetSize` | Ice-3.1.1/src/Freeze/EvictorI.cpp:425-450 | A negative size is ignored; otherwise it becomes the limit, and the list ends within it or with every entry in use |
| `EvictorClass.Evictor.Evict` | Ice-3.1.1/src/Freeze/EvictorI.cpp:1791-1849 | The nested loops of the reverse scan do exactly the eviction whose order is proved in EvictionOrder |
| `EvictorClass.Evictor.EvictElement` | Ice-3.1.1/src/Freeze/EvictorI.cpp:1875-1886 | The element leaves the list and the cache map and becomes stale; the asserted facts hold |
| `EvictorClass.Evictor.ReleaseRound` | Ice-3.1.1/src/Freeze/EvictorI.cpp:1691-1737 | The release section in place: counts given back per entry, dead elements, idle elements, the first waiters woken |
| `EvictorClass.Evictor.Pinned` | Ice-3.1.1/src/Freeze/ObjectStore.cpp:364-369 | Pinning puts the element in the map and makes it not stale, and it is not yet in the list |
| `EvictorStructure.AddStructural` | Ice-3.1.1/src/Freeze/EvictorI.cpp:523-585 | add keeps: pinned iff not stale; in the list, once, iff pinned, seen and not kept; counter equals length; kept only if existing |
| `EvictorStructure.RemoveStructural` | Ice-3.1.1/src/Freeze/EvictorI.cpp:737-805 | remove keeps the same agreement, also when it takes an object out of keep |
| `EvictorStructure.EvictOneStructural` | Ice-3.1.1/src/Freeze/EvictorI.cpp:1875-1886 | evicting a listed element keeps the same agreement |
| `EvictorStreaming.SavingThread.FirstLook` | Ice-3.1.1/src/Freeze/EvictorI.cpp:1457-1511 | If the servant's mutex is taken nothing is written, the element stays as it is and its servant is remembered; otherwise a dirty element leaves its record and is no longer dirty |
| `EvictorStreaming.SavingThread.SecondLook` | Ice-3.1.1/src/Freeze/EvictorI.cpp:1513-1572 | With the servant's mutex held the element is written; if its servant was replaced nothing is written, and it is looked at again from the start |
| `EvictorStreaming.SavingThread.StreamCurrent` | Ice-3.1.1/src/Freeze/EvictorI.cpp:1457-1489 | created and modified leave a record and become clean, destroyed leaves one and becomes dead, dead is remembered, clean is skipped |
| `EvictorMutexes.NoRecordDuringDispatch` | Ice-3.1.1/src/Freeze/EvictorI.cpp:1491-1550 | With the servants' mutexes added to the machine, over any run: a record of an object that is not being destroyed holds the state of the servant it has, and is taken only while no dispatch holds that servant's mutex |
| `EvictorMutexes.WaitsForDispatch` | Ice-3.1.1/src/Freeze/EvictorI.cpp:1491-1522 | In every reachable state in which the saving thread waits for a servant it can take its mutex or go on, or a dispatch to that servant holds it and can let it go |
| `EvictorMutexes.OnlyLooksRecord` | Ice-3.1.1/src/Freeze/EvictorI.cpp:1457-1572 | Any step that adds a record is a first look that got the mutex of the servant, or a second look whose servant is still the one waited for, or records a destroyed object |
| `EvictorMutexes.FirstLookWaitsIff` | Ice-3.1.1/src/Freeze/EvictorI.cpp:1494-1511 | A first look moves on if and only if the servant's mutex was free or there is none to take; otherwise it only remembers which servant that was |
| `EvictorMutexes.SecondLookRetriesIff` | Ice-3.1.1/src/Freeze/EvictorI.cpp:1513-1541 | A second look moves on if and only if the servant was not replaced; otherwise there will be another first look |
| `EvictorBatches.StreamedQueue.WriteBatch` | Ice-3.1.1/src/Freeze/EvictorI.cpp:1617-1659 | A transaction over a prefix is applied as a whole or leaves database and queue as they were; it meets a deadlock exactly where one strikes it |
| `EvictorBatches.StreamedQueue.WriteAll` | Ice-3.1.1/src/Freeze/EvictorI.cpp:1599-1689 | For any deadlocks, finitely many, the batches end and the database is as if the queue had been written once in order; no batch is empty, over the maximum or larger than one before it, and without deadlocks all but the last are full; after an error exactly the committed batches are in the database |
| `EvictorBatches.StreamedQueue.Attempt` | Ice-3.1.1/src/Freeze/EvictorI.cpp:1611-1675 | A commit takes the batch size, or all that is left, off the queue; a deadlock leaves the queue and halves the batch, rounding up |
| `EvictorBatches.FailsForGood` | Ice-3.1.1/src/Freeze/ObjectStore.cpp:215-252 | Once a prefix of the records cannot be saved nothing longer can |
| `EvictorBatches.BatchesReachDisk` | Ice-3.1.1/src/Freeze/EvictorI.cpp:1599-1689 | In every state with the invariant the batches leave the database equal to the one the invariant speaks about |
| `Deactivation.OneDeactivator` | Ice-3.1.1/src/Freeze/EvictorI.cpp:149-192 | Over any run deactivate returns true at most once |
| `Deactivation.NoGuardsAfterGrant` | Ice-3.1.1/src/Freeze/EvictorI.cpp:109-132 | After that, for the rest of the run, the guard count is 0, no thread is in a guard and no new guard succeeds |
| `Deactivation.WaitsForSomebody` | Ice-3.1.1/src/Freeze/EvictorI.cpp:149-206 | A draining thread can go on or some thread is in a guard; while the flag is set some thread is draining or deactivating |
| `Deactivation.StepInv` | Ice-3.1.1/src/Freeze/EvictorI.cpp:109-206 | The guard count is the number of threads in guards, and at most one thread is draining or deactivating |
| `Deactivation.RefusedIffBegun` | Ice-3.1.1/src/Freeze/EvictorI.cpp:109-118 | Over any run a guard is refused if and only if some thread has called deactivate before |
| `Deactivation.NoOnlyWhenComplete` | Ice-3.1.1/src/Freeze/EvictorI.cpp:149-192 | Over any run deactivate answers no only after the deactivation is complete |
| `Deactivation.WaitingWhileDeactivating` | Ice-3.1.1/src/Freeze/EvictorI.cpp:165-176 | A thread that waits for another's deactivation can go on, or some thread is deactivating |
| `Deactivation.DeactivateController.EnterGuard` | Ice-3.1.1/src/Freeze/EvictorI.cpp:109-118 | A guard fails exactly when deactivation has begun, and then counts nothing |
| `Deactivation.DeactivateController.BeginDeactivate` | Ice-3.1.1/src/Freeze/EvictorI.cpp:149-192 | Where a caller goes: told no at once, made to wait for the other, or first, setting the flag |
| `LoadLatch.StepInv` | Ice-3.1.1/include/IceUtil/Cache.h:176-324 | Every step of pinImpl keeps: placeholder iff its one loader is running, use count equals registered waiters, a latch closed iff somebody will count it down |
| `LoadLatch.OneLoadPerKey` | Ice-3.1.1/include/IceUtil/Cache.h:197-252 | In every reachable state at most one thread is loading a key, and one is exactly while the key has an entry without an object |
| `LoadLatch.NoWaiterStranded` | Ice-3.1.1/include/IceUtil/Cache.h:218-246 | A waiter's latch is open, or a thread that itself waits for nothing is going to open it |
| `LoadLatch.OpenerNotBlocked` | Ice-3.1.1/include/IceUtil/Cache.h:248-322 | That thread has an enabled step in every state |
| `LoadLatch.OpenerProgress` | Ice-3.1.1/include/IceUtil/Cache.h:248-322 | Each of its steps brings it nearer to opening the latch, in at most three, and no step of another thread takes its place |
| `LoadLatch.LatchLife` | Ice-3.1.1/include/IceUtil/Cache.h:187-197 | A latch is counted down from one to zero by one thread, and freed only when open, by its last waiter |
| `LoadLatch.NoDanglingLatch` | Ice-3.1.1/include/IceUtil/Cache.h:187-234 | A freed latch is referred to by no entry, no waiter and no thread that would count it down |
| `LoadLatch.EnterNotBlocked` | Ice-3.1.1/include/IceUtil/Cache.h:187-234 | A woken waiter's latch hangs on no entry, so that freeing it leaves no entry with a dangling latch |
| `LoadLatch.WaitingHappens` | Ice-3.1.1/include/IceUtil/Cache.h:218-246 | Waiting happens: a run in which one thread loads a key and a second one waits on its latch |
| `LoadLatch.PinRefines` | Ice-3.1.1/include/IceUtil/Cache.h:163-324 | pin and putIfAbsent act on the map of pinned objects as specified: an object returned is the pinned one; null means that nothing was pinned, and then putIfAbsent's own object is |
| `LoadLatch.AnswersLastCall` | Ice-3.1.1/include/IceUtil/Cache.h:163-324 | Over any run the answer a thread gives is to its last call, and after a load it is what that load found |
| `LoadLatch.ReturnsItsAnswer` | Ice-3.1.1/include/IceUtil/Cache.h:163-324 | What a thread returns after counting its latch down is the answer of its last section |
| `LoadLatchClass.LoadingCache.Enter` | Ice-3.1.1/include/IceUtil/Cache.h:184-234 | The first section in place: drop the old latch, then reserve, hit or register with a new or the existing latch |
| `LoadLatchClass.LoadingCache.Install` | Ice-3.1.1/include/IceUtil/Cache.h:270-314 | The section after the load in place, with the latch handed to the caller |
| `LoadLatchClass.LoadingCache.Withdraw` | Ice-3.1.1/include/IceUtil/Cache.h:254-268 | The section after a failed load in place: no entry remains |
| `BatchIterator.EvictorIterator.TryBatch` | Ice-3.1.1/src/Freeze/EvictorIteratorI.cpp:82-190 | One attempt, against a store that changes before every read: a full batch and the next key, or the end; after a deadlock the batch can be resumed from its first key |
| `BatchIterator.EvictorIterator.NextBatch` | Ice-3.1.1/src/Freeze/EvictorIteratorI.cpp:59-222 | After any number of deadlock retries the batch continues the keys read so far in strictly increasing order, and every key always there is read or lies at or past the next key |
| `BatchIterator.EvictorIterator.Next` | Ice-3.1.1/src/Freeze/EvictorIteratorI.cpp:45-57 | next hands out the next key read; when it throws, every key that was there throughout has been handed out |
| `BatchIterator.Iterate` | Ice-3.1.1/src/Freeze/EvictorIteratorI.cpp:31-57 | A whole iteration returns strictly increasing keys, each there at some moment, and at its end every key there throughout, so exactly once |
| `BatchIterator.SkippedByRetry` | Ice-3.1.1/src/Freeze/EvictorIteratorI.cpp:19-28 | A first batch retried after a deadlock skips exactly the keys of fewer than 1024 zero bytes, such as the empty identity's, which is why names must not be empty |
| `BatchIterator.FirstAbove` | Ice-3.1.1/src/Freeze/EvictorIteratorI.cpp:120-128 | A cursor read returns the least key at its bound, and none only if there is none |
| `IdentityKeys.KeysDiffer` | Ice-3.1.1/src/Freeze/ObjectStore.cpp:254-272 | Different identities have different database keys |
| `IdentityKeys.KeyStart` | Ice-3.1.1/src/Freeze/ObjectStore.cpp:254-261 | A key starts with a byte that is not zero exactly when the name is not empty |
| `IdentityKeys.KeyIsMarshalled` | Ice-3.1.1/src/Freeze/ObjectStore.cpp:254-261 | The key is the codec's encoding of the struct Identity |
| `IdentityKeys.KeyForm` | Ice-3.1.1/src/Freeze/ObjectStore.cpp:254-261 | The length of a key from the lengths of its strings; for strings of at most 254 bytes the key is each string behind its length in one byte |
| `CodecRoundTrip.RoundTrip` | Ice-3.1.1/src/FreezeScript/Data.cpp:651-726 | For every type of booleans, integers, enums, strings, structs, sequences and dictionaries and every value of it, marshal succeeds and unmarshal of its bytes followed by any others gives the value and leaves exactly those |
| `CodecRoundTrip.ReadFits` | Ice-3.1.1/src/FreezeScript/Data.cpp:2049-2069 | Any bytes that can be read at all give a value with every integer in range and every dictionary in key order without repetition |
| `CodecRoundTrip.Rereads` | Ice-3.1.1/src/FreezeScript/Data.cpp:651-726 | Whatever was read can be written, and then reads as the same value |
| `CodecRoundTrip.Unambiguous` | Ice-3.1.1/src/FreezeScript/Data.cpp:651-726 | No encoding is the beginning of that of another value of the type, and different values have different encodings |
| `CodecRoundTrip.EnumRoundTrip` | Ice-3.1.1/src/FreezeScript/Data.cpp:1807-1841 | Round trip across the three enum widths |
| `CodecRoundTrip.EnumeratorsFit` | Ice-3.1.1/src/FreezeScript/Data.cpp:1807-1841 | Every enumerator fits the width chosen by the number of enumerators |
| `CodecRoundTrip.IntegerRoundTrip` | Ice-3.1.1/src/FreezeScript/Data.cpp:651-726 | Round trip of every integer in its type's range, signed and unsigned |
| `CodecRoundTrip.MembersRoundTrip` | Ice-3.1.1/src/FreezeScript/Data.cpp:1483-1505 | Members written in order of declaration come back each in its own place of the name-ordered map |
| `CodecRoundTrip.ElementsRoundTrip` | Ice-3.1.1/src/FreezeScript/Data.cpp:1658-1681 | Elements come back in order after those read before |
| `CodecRoundTrip.EntriesRoundTrip` | Ice-3.1.1/src/FreezeScript/Data.cpp:2038-2069 | Entries written in key order are inserted behind those read before |
| `CodecRoundTrip.EntriesFit` | Ice-3.1.1/src/FreezeScript/Data.cpp:2049-2069 | Entries read in any order, with repetitions, leave a sorted map no larger than the size read |
| `CodecLayout.WrittenIff` | Ice-3.1.1/src/FreezeScript/Data.cpp:651-689 | A value is refused if and only if some integer in it, at any depth, is out of the range its bytes can hold |
| `CodecLayout.StructLayout` | Ice-3.1.1/src/FreezeScript/Data.cpp:1483-1494 | A struct is the encodings of its members in order of declaration and nothing else |
| `CodecLayout.SequenceLayout` | Ice-3.1.1/src/FreezeScript/Data.cpp:1658-1667 | A sequence is its size and the encodings of its elements in order |
| `CodecLayout.DictionaryLayout` | Ice-3.1.1/src/FreezeScript/Data.cpp:2038-2047 | A dictionary is its size and, entry by entry, the encodings of key and value |
| `CodecLayout.NumberLayout` | Ice-3.1.1/src/FreezeScript/Data.cpp:1807-1823 | How many bytes numbers take: enums one up to 127 enumerators, two up to 32767, else four |
| `CodecLayout.CutShortIsBad` | Ice-3.1.1/src/FreezeScript/Data.cpp:690-726 | Every proper prefix of an encoding is an error to read |
| `CodecLayout.ReadsOn` | Ice-3.1.1/src/FreezeScript/Data.cpp:690-726 | What can be read reads the same whatever is put behind it |
| `CodecLayout.BoolRead` | Ice-3.1.1/src/FreezeScript/Data.cpp:529-533 | A boolean is true for every byte but zero |
| `CodecLayout.StructsDecided` | Ice-3.1.1/src/FreezeScript/Data.cpp:1432-1460 | Two structs compare as their first different members in the order of their names |
| `CodecLayout.SequencesDecided` | Ice-3.1.1/src/FreezeScript/Data.cpp:1624-1650 | Two sequences compare as their first different elements |
| `CodecLayout.PrefixBelow` | Ice-3.1.1/src/FreezeScript/Data.cpp:1624-1650 | A sequence is below every longer one that begins with it |
| `CodecLayout.BytesDecided` | Ice-3.1.1/src/FreezeScript/Data.cpp:1104-1116 | Two strings compare as their first different bytes |
| `CodecOrder.LessTotal` | Ice-3.1.1/src/FreezeScript/Data.cpp:1432-1460 | The order of keys, lexicographic through structs and sequences, is irreflexive and asymmetric, and only equal keys are incomparable |
| `CodecOrder.LessTransitive` | Ice-3.1.1/src/FreezeScript/Data.cpp:1432-1460 | The order of keys is transitive |
| `CodecOrder.InsertSorted` | Ice-3.1.1/src/FreezeScript/Data.cpp:2049-2069 | Inserting any key keeps a dictionary sorted |
| `CodecOrder.InsertKeepsFirst` | Ice-3.1.1/src/FreezeScript/Data.cpp:2049-2069 | Inserting keeps every entry; of two values for one key the first stays |
| `Wire.SignedRoundTrip` | Ice-3.1.1/include/Ice/BasicStream.h:401-442 | An integer that fits n bytes is read back from its little-endian bytes |
| `Wire.SignedUnique` | Ice-3.1.1/include/Ice/BasicStream.h:401-442 | Different bytes are different integers |
| `Wire.SizeRoundTrip` | Ice-3.1.1/include/Ice/BasicStream.h:273-328 | A size up to the largest Int is read back from what was written, leaving what follows |
| `Wire.SizeShortest` | Ice-3.1.1/include/Ice/BasicStream.h:273-285 | No shorter bytes read as the size |
| `Wire.SizeForm` | Ice-3.1.1/include/Ice/BasicStream.h:273-285 | A size of at most 254 is the one byte that it is; any other is 255 and four bytes |
| `Wire.SizeRefusedIff` | Ice-3.1.1/include/Ice/BasicStream.h:311-328 | The long form is read for every size, needed or not; exactly missing bytes and negative sizes are refused |
| `Wire.LittleEndian` | Ice-3.1.1/include/Ice/BasicStream.h:401-420 | Each byte of an integer of one, two, four or eight bytes: two's complement, least significant byte first |
| `Wire.ShortIsBad` | Ice-3.1.1/include/Ice/BasicStream.h:421-442 | A number is refused exactly if bytes are missing, and else reads what writing it would write |
| `Wire.StringRoundTrip` | Ice-3.1.1/include/Ice/BasicStream.h:476-520 | A string is read back, leaving what follows |
| `Wire.StringForm` | Ice-3.1.1/include/Ice/BasicStream.h:476-494 | A string ends with its own bytes, and is one byte longer than these if there are at most 254, five otherwise |
| `Wire.StringShortest` | Ice-3.1.1/include/Ice/BasicStream.h:476-494 | No shorter bytes read as the string |
| `DataStream.WriteData` | Ice-3.1.1/src/FreezeScript/Data.cpp:651-689 | The stream-appending marshal methods append exactly the specified bytes, or report the range error |
| `DataStream.ReadData` | Ice-3.1.1/src/FreezeScript/Data.cpp:690-726 | The cursor-advancing unmarshal methods return the specified value and stand at the specified rest, or report an error |
| `DataStream.WriteThenRead` | Ice-3.1.1/src/FreezeScript/Data.cpp:651-726 | Through a real stream: reading from where a value was written gives it and stops where the writer stopped |
| `BasicStream.Stream.WriteInteger` | Ice-3.1.1/include/Ice/BasicStream.h:401-420 | The byte-by-byte loop appends the little-endian bytes |
| `BasicStream.Stream.ReadSize` | Ice-3.1.1/include/Ice/BasicStream.h:311-328 | Reads either form; a negative size or a short buffer is an error |
| `BasicStream.Stream.ReadString` | Ice-3.1.1/include/Ice/BasicStream.h:495-520 | Reads a string or reports that the buffer is too short |
| `BasicStream.Stream.StartWriteEncaps` | Ice-3.1.1/include/Ice/BasicStream.h:148-165 | Opens an encapsulation: placeholder, version, start pushed |
| `BasicStream.Stream.EndWriteEncaps` | Ice-3.1.1/include/Ice/BasicStream.h:166-198 | Patches the four bytes at the innermost start, and nothing else, and pops it |
| `BasicStream.Stream.StartReadEncaps` | Ice-3.1.1/include/Ice/BasicStream.h:199-243 | Enters an encapsulation, or refuses a negative size, one past the buffer and a wrong version |
| `BasicStream.Stream.EndReadEncaps` | Ice-3.1.1/include/Ice/BasicStream.h:244-261 | Moves the cursor to the end its frame records and pops it |
| `Encapsulation.EveryRegionSized` | Ice-3.1.1/include/Ice/BasicStream.h:148-198 | For any sequence of writes, each closed encapsulation carries its own length and version, whatever was written after it, and any two are disjoint or nested |
| `Encapsulation.LengthReads` | Ice-3.1.1/include/Ice/BasicStream.h:166-198 | The patched length reads as the number of bytes exactly if an Int can hold it |
| `Encapsulation.BytesKept` | Ice-3.1.1/include/Ice/BasicStream.h:148-198 | A write appends its bytes, opening appends a zero length and the version, and closing changes at most the four length bytes |
| `Encapsulation.EntersIff` | Ice-3.1.1/include/Ice/BasicStream.h:199-243 | A reader enters if and only if six bytes are left, the length is neither negative nor beyond the buffer, and the version is 1.0 |
| `Encapsulation.LeavesForwardIff` | Ice-3.1.1/include/Ice/BasicStream.h:199-261 | A length below six is accepted; leaving does not move the cursor back exactly if the length covers its header |
| `Encapsulation.EmptyLengthEntered` | Ice-3.1.1/include/Ice/BasicStream.h:199-261 | Such a length, 0: after entering and leaving the reader is back where it began |
| `Encapsulation.FailsOnlyUnopened` | Ice-3.1.1/include/Ice/BasicStream.h:166-169 | A run of the writer fails only by closing more than it has opened |
| `Encapsulation.EntersRegion` | Ice-3.1.1/include/Ice/BasicStream.h:199-243 | A reader at the start of what a writer closed can enter it, with the writer's length |
| `Encapsulation.BalancedStack` | Ice-3.1.1/include/Ice/BasicStream.h:199-261 | Any balanced reading leaves the stack of open encapsulations as it was |
| `Encapsulation.EndsWhereWriterEnded` | Ice-3.1.1/include/Ice/BasicStream.h:199-261 | Whatever part of the body a reader consumes, leaving the encapsulation puts the cursor exactly where the writer ended it |
| `MapIterators.DroppedOK` | Ice-3.1.1/src/Freeze/MapI.cpp:650-693 | Closing an iterator keeps the accounts: each transaction counts its open iterators and ends once, at the last one, by abort iff dead |
| `MapIterators.AddedOK` | Ice-3.1.1/src/Freeze/MapI.cpp:136-215 | Opening or cloning an iterator keeps the accounts |
| `MapIterators.MapHelper.CloseAllIteratorsExcept` | Ice-3.1.1/src/Freeze/MapI.cpp:1328-1347 | The restarting loop ends, at the first closing that throws or with the transaction's own iterators in their order left, and then every other transaction has ended exactly once |
| `MapIterators.MapHelper.CloseAllIterators` | Ice-3.1.1/src/Freeze/MapI.cpp:1288-1296 | Ends at the first closing that throws, or with no iterator left and every transaction ended exactly once |
| `MapIterators.MapHelper.Close` | Ice-3.1.1/src/Freeze/MapI.cpp:650-700 | The iterator leaves the list, with its handle on the transaction, even when an exception comes out; one does exactly when its cursor could not be closed, unless by a deadlock in its own transaction, or the commit failed; closing again does nothing |
| `MapIterators.MapHelper.Write` | Ice-3.1.1/src/Freeze/MapI.cpp:508-591 | A write by an iterator with its own transaction is tried only when all iterators outside it are closed and the others kept in order, and not tried exactly if a closing threw; it may meet a deadlock, which marks exactly that transaction dead, or another error, which changes nothing |
| `MapIterators.MapHelper.Set` | Ice-3.1.1/src/Freeze/MapI.cpp:508-555 | set is refused through an index before anything is closed, and otherwise is such a write |
| `MapIterators.MapHelper.Erase` | Ice-3.1.1/src/Freeze/MapI.cpp:557-591 | erase is such a write, and may find no record at the cursor |
| `MapIterators.MapHelper.Read` | Ice-3.1.1/src/Freeze/MapI.cpp:599-648 | A read through a cursor changes nothing, except that a deadlock marks its transaction dead |
| `MapIterators.MapHelper.Open` | Ice-3.1.1/src/Freeze/MapI.cpp:136-185 | An iterator starts a transaction of its own iff it may write and the connection has none; if its cursor cannot be opened nothing is added and that transaction has ended, once, by commit |
| `MapIterators.MapHelper.Clone` | Ice-3.1.1/src/Freeze/MapI.cpp:188-215 | A clone joins the transaction of its original |
| `MapIterators.OnlyOf` | Ice-3.1.1/src/Freeze/MapI.cpp:1328-1347 | If every open iterator belongs to one transaction all others have ended |
| `IndexQuery.PutInStep` | Ice-3.1.1/src/Freeze/IndexI.cpp:307-335 | A put keeps the secondary listing exactly the records with each index key, in key order |
| `IndexQuery.DeleteInStep` | Ice-3.1.1/src/Freeze/IndexI.cpp:307-335 | So does a delete |
| `IndexQuery.Query.FindFirst` | Ice-3.1.1/src/Freeze/IndexI.cpp:36-172 | In a store that changes before every read, and after any deadlock retries: matching identities in key order, at most n; one that matches throughout is missing only if n was reached, and comes after all returned |
| `IndexQuery.StableFindFirst` | Ice-3.1.1/src/Freeze/IndexI.cpp:36-172 | If the store does not change the result is exactly the first n of the matching identities, or all for n <= 0 |
| `IndexQuery.QueryAgreesWithScan` | Ice-3.1.1/src/Freeze/IndexI.cpp:36-178 | Then it is what a scan of the primary would pick, in the order of the primary keys |
| `IndexQuery.Query.Count` | Ice-3.1.1/src/Freeze/IndexI.cpp:180-275 | The loop over attempts computes CountFrom, in which a count survives the deadlock that ends its attempt |
| `IndexQuery.StableCount` | Ice-3.1.1/src/Freeze/IndexI.cpp:180-275 | If the store does not change the count is the number of matching records, which is the length of the unlimited query, whatever deadlocks it meets |
| `IndexQuery.CountIsCurrentIff` | Ice-3.1.1/src/Freeze/IndexI.cpp:193-244 | In a changing store the result is what the successful attempt saw if and only if that attempt found a record, or the last attempt to count, which a deadlock at the closing of its cursor ended, counted none, or none counted |
| `IndexQuery.CountOfLast` | Ice-3.1.1/src/Freeze/IndexI.cpp:193-244 | The result is the count of the last of all attempts that counted |
| `IndexQuery.StaleCount` | Ice-3.1.1/src/Freeze/IndexI.cpp:193-244 | The other case happens: a count of 1 although the successful attempt found no record |
| `Printer.PrintsReachableOnce` | Ice-3.1.1/src/FreezeScript/Print.cpp:163-205 | On every object graph, cyclic or not, printing ends having begun exactly the objects reached through the values of printed members, each once, numbered 0, 1, 2 and so on |
| `Printer.VisitNumbered` | Ice-3.1.1/src/FreezeScript/Print.cpp:163-205 | Numbers are injective and the counter equals the size of the history at every point |
| `Printer.VisitCloses` | Ice-3.1.1/src/FreezeScript/Print.cpp:163-205 | Whatever an object begun during a visit refers to has been begun by its end |
| `PrinterOutput.NewObjectOutput` | Ice-3.1.1/src/FreezeScript/Print.cpp:178-205 | An object met for the first time puts out its beginning with the next number, then for each printed member in order the name and exactly the tokens of its value, then the end |
| `PrinterOutput.AggregateOutput` | Ice-3.1.1/src/FreezeScript/Print.cpp:103-161 | A struct, sequence or dictionary puts out exactly the tokens of its parts in order, then the end |
| `PrinterOutput.ShortOutput` | Ice-3.1.1/src/FreezeScript/Print.cpp:163-190 | A text is put out as it is, no object as nil, and an object met before as its number |
| `PrinterOutput.VisitAppends` | Ice-3.1.1/src/FreezeScript/Print.cpp:103-232 | A visit only appends, and what it appends depends on the numbers given so far, not on the output |
| `PrinterOutput.RefsOfParts` | Ice-3.1.1/src/FreezeScript/Print.cpp:103-161 | An aggregate refers to exactly what its parts refer to |
| `PrinterOutput.PrintedAlongLine` | Ice-3.1.1/src/FreezeScript/Print.cpp:211-232 | Printed are the members declared along the line of first bases up to the first abstract one, base class members first |
| `PrinterOutput.MembersAlongLine` | Ice-3.1.1/src/Slice/Parser.cpp:2797-2817 | An object has the members declared along the line up to the first interface |
| `PrinterOutput.AbstractIff` | Ice-3.1.1/src/Slice/Parser.cpp:2883-2912 | A class is abstract exactly if it or one along its line is an interface, has operations or has several bases |
| `Printer.PrintsAllMembersIff` | Ice-3.1.1/src/FreezeScript/Print.cpp:211-232 | All members of an object are printed if and only if its class inherits none by way of an abstract class that is not an interface |
| `Printer.AbstractBaseHidesMember` | Ice-3.1.1/src/FreezeScript/Print.cpp:211-218 | A class whose base has an operation: the inherited data member is not printed |
| `Printer.PrintedAreMembers` | Ice-3.1.1/src/Slice/Parser.cpp:2797-2817 | What is printed are data members of the class, and no more than it has |
| `PrintVisitor.PrintVisitor.VisitData` | Ice-3.1.1/src/FreezeScript/Print.cpp:126-161 | The recursive visitor that updates history, counter and output does what the specified printing does |
| `PrintVisitor.PrintVisitor.PrintObjectMembers` | Ice-3.1.1/src/FreezeScript/Print.cpp:211-232 | The members of concrete base classes first, then the class's own in order of declaration, each with its name and then its value, as NewObjectOutput says |

## Left out

- Berkeley DB, threads, locks and condition variables: the database is a map with atomic transactions that may report
  a deadlock, a lock's critical section is one step, and a wait is a step that is enabled when its condition holds.
- The timer and the size trigger that start a saving round: a round may start at any time before deactivation stops the
  saving thread. Tracing, warnings, the watch dog and the save statistics.
- Servants are an identity and a state, and a dispatch changes the state of the servant it was given only while that servant
  is the registered one. One servant registered under two identities, or changed outside a dispatch or without its mutex, is
  not modelled; nor is a servant without a mutex, which ends the saving thread.
- An element's place in the evictor list is the position of the element in the list, not an iterator that could dangle.
- hasAnotherFacet and the ping that uses it, the servant initializer, and opening, populating and closing of stores.
- A finished() after deactivation has begun gets an exception and its cookie stays outstanding, so it is not a step. A thread
  that makes evictor calls while it holds a cookie counts as another thread.
- EvictorI::saveNow without a guard is not part of the evictor's interface; the model's saveNow is that of getIterator and of
  the index queries, which hold one.
- In the combined machine the threads that wait in deactivate for another's deactivation are absent (Deactivation has them), and
  the load latch is one step (LoadLatch has it in full). In LoadLatch, an exception from `pinned` and `clear()` are absent; counting
  down a latch is atomic.
- Iterate: the client's loop around hasNext and next has a limit of its own, so that it ends if records are added forever.
- A negative batch size, on which reserve throws, and the resizing of key buffers in the iterator and the indexes.
- The upkeep of a secondary database by Berkeley DB's associate is modelled as put and delete of an entry.
- Codec: proxies, class instances, floating point numbers, string converters and the memory limit of a stream. Types are trees, so
  that a struct cannot contain itself.
- EnumData::clone and ObjectRef::clone, whose value goes to the wrong parameter.
- startReadEncaps: the stack after one of its exceptions. endWriteEncaps needs an open encapsulation, as its assertion says.
- The layout of the printer's output; a reference to no object prints as nil; a struct, sequence or dictionary is the row of texts and values the visitor puts out.
- The reference counts of SharedDb and SharedDbEnv, the catalog, the expression evaluator and the FreezeScript descriptors.
