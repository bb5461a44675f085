# Verification model of the t-base daemon's session engine

The daemon in `MobiCoreDriverLib` connects clients of trusted applications with the secure world.
This project models its concurrent core and the components around it, and proves what they promise.

* **Session engine** (`Engine*.dfy`, `SessionSpec.dfy`): one step machine for the command threads,
  the IRQ thread, the TA-exit thread and the secure world, in any interleaving. It has the session
  list and objects, the one MCP buffer, the notification stream, the semaphores, kernel lock counts
  and the deferred close of GlobalPlatform sessions. Each invariant has its own module;
  `EngineTheorems.dfy` joins them and states what follows for every reachable state.
  `EngineDeletion.dfy`, `EngineLeaks.dfy` and `EngineTokens.dfy` count over whole runs what is
  created, deleted, left locked and woken, `EngineEndless.dfy` and `EngineTaExit.dfy` are about the
  two closing loops, `EngineService.dfy` says what can start when, and `EngineExamples.dfy` and
  `EngineTours.dfy` have runs to concrete states.
* **Hand-overs in single steps** (`Handover.dfy`): for one session, the two drains that the engine
  takes as one step each, with the IRQ thread in between.
* **In place** (`TrustletSession.dfy`, `Device.dfy`): the session object and the device close as
  classes whose methods are proved against the functions of the engine.
* **Locks** (`LockOrder.dfy`, `LockRaces.dfy`): the lock operations and data accesses of every
  activity, the absence of circular waits for any number of threads, and which data they protect.
* **Socket server** (`HandOff.dfy`, `Queue.dfy`): client threads, the worker, and reaping.
* **Channels** (`Ring.dfy`, `Semaphore.dfy`, `Netlink.dfy`, `Bits.dfy`): the ring on wrapping
  counters, the counting semaphore, and the netlink byte stream.
* **Client library** (`ClientMemory.dfy`, `GpOperation.dfy`, `GpFailure.dfy`): buffer bookkeeping on
  both sides, and the parameters of section 4.5 of the GlobalPlatform TEE Client API Specification
  v1.0.
* **Registry** (`RegistryPaths.dfy`, `Registry.dfy`, `RegistryLayout.dfy`, `SecureObject.dfy`): the
  file store as a keyed map, the cascading delete, also in terms of the container structures, and the
  size arithmetic.
* **Scheduler** (`Scheduler.dfy`): N-SIQs and time-outs.

What is assumed of the secure world is the predicate `Engine.Legitimate`: it answers each command
with a matching response, starts sessions under unused ids and then reports them opened, and closes
a session whose exit it has announced. A nonzero payload announces an exit only for a GP session; a
legacy session may be refused at any time. Notifications are sent for running sessions only, which
a session is before its OPEN is answered (`Engine.CanSw`): the early queue's purity and the delivery
results rest on that. `ClientMemory.Reliable` says what the kernel and the secure world are relied
on for when mapping. Results of the kernel, of clocks, sockets and file operations are inputs.

## Where the code does less than it seems to

* openSession hands the early notifications over after the session is listed, and NQ_CONNECT writes
  the queue after giving mutex_tslist back, so the IRQ thread can overtake both: a legacy session can
  get its notifications in the wrong order, a GP session can lose one, and a session can be deleted
  while its queue is being written (`Handover.InOrderExactlyWhen`, `Handover.LegacyOutOfOrder`,
  `Handover.GpLoses`, `Handover.CollectedWhileAttaching`, `Handover.WrittenAfterDeletion`).
* No lock keeps two threads from the MCP buffer, the early notifications, or a session's connections
  or notifications at the same time (`LockRaces.ExclusiveExactlyWhen`); a token is loaded without
  mutex_mcp (`LockRaces.OnlyTokensRace`, `LockRaces.TwoAwaitingReachable`).
* The registry reports success for deleting a root or service provider whose container is shorter
  than its structure, and deletes nothing (`Registry.CascadeCompleteExactlyWhen`,
  `Registry.ShortRootSurvives`).
* The scheduler compares seconds and microseconds of a time-out each on their own, and its carry
  keeps a full second of microseconds, which no clock reading reaches
  (`Scheduler.DetectedExactlyWhen`, `Scheduler.LateButNotDetected`,
  `Scheduler.NeverForcedExactlyWhen`, `Scheduler.NeverForcedExample`).
* The timed semaphore wait does not test the count again, so a call can take a token that is owed
  to a woken thread (`Semaphore.TimedEntryIsSafeExactlyWhen`, `Semaphore.TimedTakesTwice`); with one
  waiter at a time only a spurious wake-up does harm (`Semaphore.TimedIsSafeForOneExactlyWhen`,
  `Semaphore.SpuriousTakesNothing`).
* A netlink message that arrives before the last one was read, or is empty, breaks the rule of one
  token while bytes remain (`Netlink.ArrivalIsSteadyExactlyWhen`, `Netlink.SecondArrivalOvertakes`).
* An unmap with the buffer of one map and the information of another leaves the client with a
  descriptor the daemon has forgotten (`ClientMemory.UnmapKeepsAgreementExactlyWhen`,
  `ClientMemory.MixedUnmapDisagrees`).
* The result of an unmap is thrown away when an operation is unwound, so a refused buffer stays
  mapped (`GpOperation.SetupUndoneExactlyWhen`, `GpOperation.RefusedUnmapStays`), and a setup that
  fails or is cancelled before any trusted application has answered unwinds nothing
  (`GpOperation.CancelUndoneExactlyWhen`, `GpOperation.FirstCancelStays`). One that fails later may
  unmap with the map information of an earlier operation (`GpFailure.FailureUndoneExactlyWhen`,
  `GpFailure.RejectedUnmaps`).
* Closing a device goes on for ever with the same session if the secure world keeps refusing to close
  it, which it can exactly for a legacy session (`EngineEndless.RepeatsExactlyWhen`,
  `EngineExamples.LegacyExample`).
* An error return of OPEN or MAP after the locking, and the second map of a buffer, leave a lock that
  nothing in the daemon gives back (`EngineLeaks.LocksAreGivenBackExactlyWhen`,
  `EngineExamples.ErrorLeaks`, `EngineExamples.SecondMapLeaks`).

## Model

| member | source | states |
|---|---|---|
| EngineTheorems.InvKept | MobiCoreDriverLib/Daemon/Device/Platforms/Generic/TrustZoneDevice.cpp:682-826 | every step of every thread (command threads, IRQ thread, TA-exit thread, secure world) keeps the conjunction of all engine invariants |
| EngineTheorems.InvReachable | MobiCoreDriverLib/Daemon/Device/MobiCoreDevice.cpp:406-865 | all engine invariants hold after every run from the start, whatever the interleaving |
| EngineTheorems.WakeupNeverLost | MobiCoreDriverLib/Daemon/Device/Platforms/Generic/TrustZoneDevice.cpp:682-730 | in every reachable state a listed dead session without client has a TA-exit token outstanding, or the TA-exit thread is awake, or the IRQ thread is between marking it dead and waking that thread |
| EngineTheorems.OrphanIsCollected | MobiCoreDriverLib/Daemon/Device/MobiCoreDevice.cpp:657-706 | a session that lost its client and whose TA has exited is never forgotten: a close is about to be sent, or its exit notification is on its way, or it is marked dead and its clean-up is coming |
| EngineTaExit.DeadAreCollected | MobiCoreDriverLib/Daemon/Device/Platforms/Generic/TrustZoneDevice.cpp:682-730 | from the moment the TA-exit thread has mutex_mcp until it gives it up, every session that was dead at the start is deleted, whatever all other threads do |
| EngineTaExit.FoundOnce | MobiCoreDriverLib/Daemon/Device/Platforms/Generic/TrustZoneDevice.cpp:693-724 | in that time it finds each session at most once |
| EngineTaExit.LoopEnds | MobiCoreDriverLib/Daemon/Device/Platforms/Generic/TrustZoneDevice.cpp:693-724 | and its loop goes round at most once for each session listed at the start |
| EngineTheorems.SecondCloseSucceeds | MobiCoreDriverLib/Daemon/Device/MobiCoreDevice.cpp:687-691 | the close repeated after the exit, which the code asserts to succeed, is answered with OK in every run, and so is every close by the TA-exit thread |
| EngineTheorems.NoUseAfterFree | MobiCoreDriverLib/Daemon/Device/Platforms/Generic/TrustZoneDevice.cpp:780-810 | the session the holder of mutex_mcp works on and the one the IRQ thread has found are always allocated, and everything listed is |
| EngineTheorems.DeletedOnce | MobiCoreDriverLib/Daemon/Device/MobiCoreDevice.cpp:709-727 | closeSession and handleTaExit together delete an object at most once, and unlink it at most once: in any run from any reachable state, two deletions at one address have a creation there between them |
| EngineTheorems.DeletionsMatchCreations | MobiCoreDriverLib/Daemon/Device/MobiCoreDevice.cpp:709-727 | in any such run the deletions at an address, plus one if an object is there at the end, are the creations, plus one if an object was there at the start; likewise for unlinking and the list |
| EngineTheorems.DeletedIsLive | MobiCoreDriverLib/Daemon/Device/MobiCoreDevice.cpp:709-727 | what is deleted exists, is unlinked, has no buffer left and is not held by the IRQ thread; what is unlinked is listed; what is created takes a free address |
| EngineTheorems.MappedIsLocked | MobiCoreDriverLib/Daemon/Device/MobiCoreDevice.cpp:418-537 | for every buffer the kernel lock count is at least the sum over all sessions of max(secure-world mappings, 1 if recorded), so what the secure world sees is locked |
| EngineLeaks.LocksAfterRun | MobiCoreDriverLib/Daemon/Device/MobiCoreDevice.cpp:709-720 | after every run from the start the lock count of a buffer is its number of records, plus one for an OPEN in progress, plus how often the run took one of the two branches that leave a lock behind |
| EngineLeaks.LocksAreGivenBackExactlyWhen | MobiCoreDriverLib/Daemon/MobiCoreDriverDaemon.cpp:791-857 | after every run from the start that ends with no session and no command in progress, a buffer is unlocked exactly if no step of the run was an error return of OPEN or MAP after the locking, or a map of the buffer by a session that had a record of it |
| EngineExamples.ErrorLeaks | MobiCoreDriverLib/Daemon/MobiCoreDriverDaemon.cpp:798-812 | a reachable state without sessions in which a buffer is locked, after an error return |
| EngineExamples.SecondMapLeaks | MobiCoreDriverLib/Daemon/Device/MobiCoreDevice.cpp:765-776 | another one, after a session mapped the buffer twice and was closed |
| EngineTheorems.OwnersAreAlive | MobiCoreDriverLib/Daemon/Device/MobiCoreDevice.cpp:220-264 | a session's client connection is always allocated with its device registered; a notification connection belongs to one session and to no client |
| EngineTheorems.ReapedOwnsNothing | MobiCoreDriverLib/Daemon/Server/Server.cpp:60-77 | a client the worker has marked for reaping is dead, has no device, is not being served, and no session points to its connection |
| EngineTheorems.UnknownQueueIsPure | MobiCoreDriverLib/Daemon/Device/MobiCoreDevice.cpp:472-475 | the early-notification queue only ever holds notifications of the session being opened, sent before or after its OPEN was answered, so draining it without looking at ids is right |
| EngineExamples.EarlyNotification | MobiCoreDriverLib/Daemon/Device/MobiCoreDevice.cpp:472-475 | a reachable state in which a notification of the new session was handled before its OPEN is answered |
| EngineTheorems.QueuedUntilAttached | MobiCoreDriverLib/Daemon/Device/TrustletSession.cpp:66-84 | before NQ_CONNECT nothing is written and the queue is what arrived for the session since its OPEN, for a GP session cut after the first exit, which is when it is dead |
| EngineTheorems.LegacyDelivery | MobiCoreDriverLib/Daemon/Device/TrustletSession.cpp:66-103 | for a legacy session, what was written followed by the queue is every notification of its id since its OPEN began, in order, with each hand-over as one step (Handover takes them apart) |
| EngineTheorems.GpDelivery | MobiCoreDriverLib/Daemon/Device/Platforms/Generic/TrustZoneDevice.cpp:787-808 | for a GP session after NQ_CONNECT: the part before it up to the first exit, then everything, all written and nothing queued, with each hand-over as one step |
| EngineTheorems.NeverStuck | MobiCoreDriverLib/Daemon/Device/MobiCoreDevice.cpp:390-403 | whenever mutex_mcp is held, a step of its holder, of the IRQ thread or the secure world's answer is possible |
| EngineTheorems.AnswerArrives | MobiCoreDriverLib/Daemon/Device/Platforms/Generic/TrustZoneDevice.cpp:752-772 | a sent MCP answer has reached its waiter after a bounded number of IRQ steps, however the other threads are scheduled meanwhile |
| EngineLifetime.LifetimeKept | MobiCoreDriverLib/Daemon/Device/MobiCoreDevice.cpp:709-727 | list without duplicates, listed implies allocated, allocated implies listed or just unlinked: kept by every step |
| EngineWakeup.NoLostWakeupKept | MobiCoreDriverLib/Daemon/Device/Platforms/Generic/TrustZoneDevice.cpp:682-730 | whatever step is taken, a listed dead session without client has a token, an awake TA-exit thread or an IRQ thread about to signal; EngineTokens has the exact number of tokens |
| EngineTokens.TokensAreExact | MobiCoreDriverLib/Daemon/Device/Platforms/Generic/TrustZoneDevice.cpp:787-808 | after every run from the start the tokens of the TA-exit thread and the wake-ups they led to are exactly the notifications queued for a session with neither connection nor client, less one while the IRQ thread is about to signal |
| EngineTokens.NeverWokenForClients | MobiCoreDriverLib/Daemon/Device/Platforms/Generic/TrustZoneDevice.cpp:797-800 | while every queued notification finds a client there is no token, and the TA-exit thread sleeps |
| EngineOwners.OwnersKept | MobiCoreDriverLib/Daemon/MobiCoreDriverDaemon.cpp:698-750 | ownership of client and notification connections is kept by open, close device, client death, reaping, NQ_CONNECT and deferred close |
| EngineOwners.OwnersScan | MobiCoreDriverLib/Daemon/Device/MobiCoreDevice.cpp:238-260 | the device registration is dropped only when no session belongs to the connection any more |
| EngineStream.UnknownIsOpening | MobiCoreDriverLib/Daemon/Device/Platforms/Generic/TrustZoneDevice.cpp:780-790 | a notification for an id that is not listed belongs to the session being opened |
| EngineStream.FlowKept | MobiCoreDriverLib/Daemon/Device/MobiCoreDevice.cpp:390-403 | exactly one of command pending, answer in the stream, answer token; and the daemon's list differs from the secure world's sessions only by the command in progress |
| EngineStream.AnswerMoves | MobiCoreDriverLib/Daemon/Device/Platforms/Generic/TrustZoneDevice.cpp:752-772 | the answer moves up in the notification stream one place at a time, and nothing of a closed session comes after it |
| EngineExit.AnnouncedKept | MobiCoreDriverLib/Daemon/Device/TrustletSession.cpp:66-84 | a session is marked dead only if it is GP and the secure world announced its exit |
| EngineExit.RetriesKept | MobiCoreDriverLib/Daemon/Device/MobiCoreDevice.cpp:687-695 | a close is only repeated, and the TA-exit thread only closes, for a session that is marked dead |
| EngineExit.NotStrandedKept | MobiCoreDriverLib/Daemon/Device/MobiCoreDevice.cpp:657-706 | an orphaned session whose TA exited stays dead, announced or about to be closed, over every step |
| EngineMemory.CoverKept | MobiCoreDriverLib/Daemon/MobiCoreDriverDaemon.cpp:791-857 | every step keeps the lock count above all claims, over opens, maps, unmaps, closes, deferred closes and error returns |
| EngineMemory.CoverForget | MobiCoreDriverLib/Daemon/Device/MobiCoreDevice.cpp:709-720 | a record may go with its lock only because the secure world no longer has the mapping it stood for |
| EngineLocks.AccountedKept | MobiCoreDriverLib/Daemon/Device/MobiCoreDevice.cpp:755-865 | every step changes lock count, number of records and locks left behind together |
| EngineLocks.AccountedRefused | MobiCoreDriverLib/Daemon/Device/MobiCoreDevice.cpp:485-515 | a refused OPEN gives the lock of its TCI buffer back |
| EngineDelivery.DeliveryKept | MobiCoreDriverLib/Daemon/Device/Platforms/Generic/TrustZoneDevice.cpp:752-811 | what each session was sent and still has queued is a function of the handler's log alone, kept by every step |
| EngineDelivery.ServedDelivered | MobiCoreDriverLib/Daemon/Device/Platforms/Generic/TrustZoneDevice.cpp:792-808 | handling one notification of a session extends exactly what that session is owed |
| EngineDelivery.ServedAttached | MobiCoreDriverLib/Daemon/Device/TrustletSession.cpp:88-103 | attaching a connection moves the queue to it without loss or reordering |
| EngineDelivery.ServedOpened | MobiCoreDriverLib/Daemon/Device/MobiCoreDevice.cpp:539-544 | a new session starts with exactly the early notifications of its own id |
| EngineProgress.HolderMoves | MobiCoreDriverLib/Daemon/Device/MobiCoreDevice.cpp:657-727 | from each program point under mutex_mcp some helping step is enabled |
| EngineProgress.AnswerComesCloser | MobiCoreDriverLib/Daemon/Device/Platforms/Generic/TrustZoneDevice.cpp:734-811 | each IRQ step strictly shortens the wait for the MCP answer |
| EngineProgress.AnswerNotDelayed | MobiCoreDriverLib/Daemon/Device/Platforms/Generic/TrustZoneDevice.cpp:734-811 | no step of any other thread lengthens it |
| EngineEndless.RepeatsExactlyWhen | MobiCoreDriverLib/Daemon/Device/MobiCoreDevice.cpp:238-260 | in every reachable state in which the search of the device close finds a session, the close can find it any number of times without ending exactly if it is a legacy session |
| EngineEndless.RepeatsWithNothingDone | MobiCoreDriverLib/Daemon/Device/MobiCoreDevice.cpp:238-260 | after any number of such refusals the loop is where it was, with list, ids, owners and registered connections as before |
| EngineEndless.GpFoundOnce | MobiCoreDriverLib/Daemon/Device/MobiCoreDevice.cpp:672-684 | whatever all threads do, one device close finds a GP session at most once |
| EngineExamples.LegacyExample | MobiCoreDriverLib/Daemon/Device/MobiCoreDevice.cpp:238-260 | a reachable state, one client with one legacy session closing its device, from which the close need not end |
| EngineTours.ExitBeforeConnect | MobiCoreDriverLib/Daemon/Device/Platforms/Generic/TrustZoneDevice.cpp:797-800 | a reachable state: the TA of a GP session exits before NQ_CONNECT while its client is there; the session is dead and nobody was woken |
| EngineTours.DeferredReachable | MobiCoreDriverLib/Daemon/Device/MobiCoreDevice.cpp:687-695 | another one: a close fails and the session is left to the TA-exit thread, without client and with its buffer locked |
| EngineTours.CollectedReachable | MobiCoreDriverLib/Daemon/Device/Platforms/Generic/TrustZoneDevice.cpp:682-730 | from there, once the exit is announced, the TA-exit thread closes and frees it to the last lock, finds nothing more and sleeps |
| EngineTours.ClosedAtOnce | MobiCoreDriverLib/Daemon/Device/MobiCoreDevice.cpp:687-691 | the exit comes between the failure and the look at the state: the command thread closes a second time and frees everything itself |
| EngineTours.NotifiedReachable | MobiCoreDriverLib/Daemon/Device/TrustletSession.cpp:88-103 | a notification queued before NQ_CONNECT and an exit after it are both written, in order |
| EngineTours.DeadClientIsReaped | MobiCoreDriverLib/Daemon/Server/Server.cpp:60-77 | a client dies with a device and a session: the session is closed, the device unregistered and the client reaped, and nothing is left |
| EngineService.ClientCommandsStart | MobiCoreDriverLib/Daemon/MobiCoreDriverDaemon.cpp:1203-1234 | in every reachable state with mutex_mcp free, a living client can open its device exactly if it has none, and open sessions and close the device exactly if it has one |
| EngineService.SessionCommandsStart | MobiCoreDriverLib/Daemon/Device/MobiCoreDevice.cpp:116-137 | for each session it owns it can close it, map any buffer, and unmap exactly what has a record of that length |
| EngineService.OthersAreRefused | MobiCoreDriverLib/Daemon/Device/MobiCoreDevice.cpp:124-133 | and no other connection can do that to the session |
| EngineService.NqConnectStarts | MobiCoreDriverLib/Daemon/MobiCoreDriverDaemon.cpp:698-750 | a living connection without device can become the notification connection of a session exactly if that has a client and the list is free |
| EngineService.DeadAreCleanedUp | MobiCoreDriverLib/Daemon/Server/Server.cpp:60-77 | a dead client's device can be closed as soon as mutex_mcp is free, and without a device it can be dropped and reaped, after which nothing knows it |
| EngineService.DeviceCloseEnds | MobiCoreDriverLib/Daemon/Device/MobiCoreDevice.cpp:251-260 | when the search of a device close finds nothing, the device is unregistered, and a dead client can be reaped |
| EngineService.TaExitStarts | MobiCoreDriverLib/Daemon/Device/Platforms/Generic/TrustZoneDevice.cpp:682-694 | the TA-exit thread can wake exactly while it sleeps and there is a token, and awake it can take mutex_mcp exactly when that is free |
| EngineLookups.RemoveNoDup | MobiCoreDriverLib/Daemon/Device/MobiCoreDevice.cpp:723-725 | removing a session from the list leaves a list without duplicates |
| EngineLookups.LastOwnedIsLast | MobiCoreDriverLib/Daemon/Device/MobiCoreDevice.cpp:243-249 | the reverse search finds the last listed session of the connection |
| EngineLookups.FirstDeadIsFirst | MobiCoreDriverLib/Daemon/Device/Platforms/Generic/TrustZoneDevice.cpp:699-705 | the TA-exit search finds the first listed dead session |
| SessionSpec.QueueAllCuts | MobiCoreDriverLib/Daemon/Device/TrustletSession.cpp:66-84 | handing a stream to a fresh session queues all of it (legacy) or all up to the first exit (GP), and marks dead exactly when there was an exit |
| SessionSpec.CutIsFirstExitPrefix | MobiCoreDriverLib/Daemon/Device/TrustletSession.cpp:66-84 | the cut is a prefix; without an exit it is everything, else it ends with the first exit |
| SessionSpec.QueueAllClosing | MobiCoreDriverLib/Daemon/Device/TrustletSession.cpp:66-84 | of a stream handed to a session that is being closed only the first exit of a GP session is queued, which makes it dead; a dead session takes nothing |
| Handover.InOrderExactlyWhen | MobiCoreDriverLib/Daemon/Device/MobiCoreDevice.cpp:531-544 | with openSession's and NQ_CONNECT's hand-overs taken step by step: in every run, what is written and still to be written is what the engine delivers, in order, exactly if no notification was handled while an earlier one was still being handed over |
| Handover.LegacyOutOfOrder | MobiCoreDriverLib/Daemon/Device/MobiCoreDevice.cpp:531-544 | a legacy session that gets its two notifications in the wrong order |
| Handover.GpLoses | MobiCoreDriverLib/Daemon/Device/MobiCoreDevice.cpp:539-544 | a GP session whose exit overtakes a plain notification, which is lost |
| Handover.LegacyLosesNothing | MobiCoreDriverLib/Daemon/Device/MobiCoreDevice.cpp:539-544 | a legacy session loses nothing and gets nothing twice, whatever overtakes what |
| Handover.CollectedWhileAttaching | MobiCoreDriverLib/Daemon/MobiCoreDriverDaemon.cpp:735-749 | while NQ_CONNECT writes the queue, the TA-exit thread can delete the session exactly if it is GP and its exit came before the connection was registered |
| Handover.WrittenAfterDeletion | MobiCoreDriverLib/Daemon/Device/TrustletSession.cpp:88-103 | a reachable state in which the session is deleted and its queue is still being written |
| Handover.KeptIsCut | MobiCoreDriverLib/Daemon/Device/TrustletSession.cpp:66-84 | what is kept before NQ_CONNECT is the cut of the engine's delivery results |
| Handover.QueuedIsSpec | MobiCoreDriverLib/Daemon/Device/TrustletSession.cpp:66-84 | queueing there is queueNotification of the session object while no close is under way |
| TrustletSessions.TrustletSession.QueueNotification | MobiCoreDriverLib/Daemon/Device/TrustletSession.cpp:66-84 | the method on the object does what the function on values does |
| TrustletSessions.TrustletSession.ProcessQueuedNotifications | MobiCoreDriverLib/Daemon/Device/TrustletSession.cpp:88-103 | the loop writes the whole queue in order and empties it, or does nothing without a connection |
| TrustletSessions.TrustletSession.AddBulkBuff | MobiCoreDriverLib/Daemon/Device/TrustletSession.cpp:106-116 | a record of a new handle is added; an existing one stays whatever its length |
| TrustletSessions.TrustletSession.RemoveBulkBuff | MobiCoreDriverLib/Daemon/Device/TrustletSession.cpp:119-128 | removes the record of the handle, and reports whether there was one |
| TrustletSessions.FoundExactlyWhen | MobiCoreDriverLib/Daemon/Device/TrustletSession.cpp:106-142 | after any adds and removals a buffer is found with a length exactly if it was added with that length while it had no record and has not been removed since |
| TrustletSessions.UnmapBulk | MobiCoreDriverLib/Daemon/Device/MobiCoreDevice.cpp:811-865 | the record goes exactly if handle and length were found and the secure world accepted, else nothing changes |
| TrustletSessions.TrustletSession.PopBulkBuff | MobiCoreDriverLib/Daemon/Device/TrustletSession.cpp:145-154 | removes and returns the record with the smallest handle until there is none |
| Device.MobiCoreDevice.Close | MobiCoreDriverLib/Daemon/Device/MobiCoreDevice.cpp:220-264 | ends unless the secure world never closes one of the connection's legacy sessions; afterwards the connection owns nothing and is unregistered, every other session is in place, and the sessions were first asked to close in reverse opening order |
| Device.MobiCoreDevice.CloseSession | MobiCoreDriverLib/Daemon/Device/MobiCoreDevice.cpp:657-706 | from the replies: a GP session whose first close is answered OK is closed; on a failure it is deferred if no exit came meanwhile, else the second answer decides; any other answer is reported; a legacy session is closed unless refused. Closed, it leaves the list and each of its records is unlocked once; otherwise no lock changes; unknown or foreign sessions change nothing |
| Device.MobiCoreDevice.AskToClose | MobiCoreDriverLib/Daemon/Device/MobiCoreDevice.cpp:668-695 | disconnection, one close command, a second one exactly if that failed and the exit of the GP session came meanwhile, deferral exactly if it failed and none came; the answer in terms of the replies, and which notifications were handled in between |
| Device.DeadExactlyWhen | MobiCoreDriverLib/Daemon/Device/MobiCoreDevice.cpp:687-695 | a disconnected GP session is dead after any notifications exactly if one of them announced its exit |
| Device.MobiCoreDevice.FreeSession | MobiCoreDriverLib/Daemon/Device/MobiCoreDevice.cpp:709-727 | one lock given back per record, and the session out of the list |
| Device.MobiCoreDevice.FindSession | MobiCoreDriverLib/Daemon/Device/MobiCoreDevice.cpp:116-137 | finds the session by id only if the connection owns it |
| Device.MobiCoreDevice.HandleNotification | MobiCoreDriverLib/Daemon/Device/Platforms/Generic/TrustZoneDevice.cpp:780-810 | the loop does what Handled and WakeUps say, the token for the TA-exit thread included |
| Device.HandledIsFirst | MobiCoreDriverLib/Daemon/Device/Platforms/Generic/TrustZoneDevice.cpp:780-810 | only the first listed session with the id changes, as delivery prescribes, and the TA-exit thread is woken exactly if that session has neither connection nor client |
| Device.SweptOwnsNothing | MobiCoreDriverLib/Daemon/Device/MobiCoreDevice.cpp:238-260 | what a device close leaves behind does not belong to the connection |
| Device.SweptKeepsOthers | MobiCoreDriverLib/Daemon/Device/MobiCoreDevice.cpp:238-260 | sessions of other connections are all still there, in order, changed by the IRQ thread at most |
| Device.MobiCoreDevice.LastOwned | MobiCoreDriverLib/Daemon/Device/MobiCoreDevice.cpp:241-250 | the last listed session of the connection, none only if it owns none |
| Device.MobiCoreDevice.CloseSessionInternal | MobiCoreDriverLib/Daemon/Device/MobiCoreDevice.cpp:183-214 | sends one close command for the session, uses up one reply, and handles what came before it in order |
| EngineLookups.FindIsFirst | MobiCoreDriverLib/Daemon/Device/MobiCoreDevice.cpp:76-90 | the search by id finds the first listed session with the id |
| EngineLookups.FindSessionFindsAll | MobiCoreDriverLib/Daemon/Device/MobiCoreDevice.cpp:116-137 | with distinct ids, nothing is found exactly if the connection owns no listed session of the id |
| EngineLookups.RemoveKeepsOrder | MobiCoreDriverLib/Daemon/Device/MobiCoreDevice.cpp:724-724 | unlinking takes out the one element and leaves the order of the others |
| LockOrder.ScriptOrdered | MobiCoreDriverLib/Daemon/MobiCoreDriverDaemon.cpp:1196-1307 | each activity of each thread takes its locks in the one order, accesses data under their lock where there is one, and awaits MCP answers only below mutex_tslist and under mutex_mcp or the registry lock |
| LockOrder.CloseLoopOrdered | MobiCoreDriverLib/Daemon/Device/MobiCoreDevice.cpp:227-263 | the device-close loop respects the order for any number of sessions |
| LockOrder.TaExitLoopOrdered | MobiCoreDriverLib/Daemon/Device/Platforms/Generic/TrustZoneDevice.cpp:693-724 | so does the TA-exit loop |
| LockOrder.RegistryOrdered | MobiCoreDriverLib/Daemon/Device/MobiCoreDevice.cpp:550-604 | checking a TA blob takes mutex_mcp under the registry lock, in order; loading a token does not take it |
| LockOrder.NoCircularWait | MobiCoreDriverLib/Daemon/MobiCoreDriverDaemon.cpp:1196-1307 | no reachable state of any number of threads has a circular wait, the wait for the MCP answer included |
| LockOrder.IrqNotBehindAnswer | MobiCoreDriverLib/Daemon/Device/Platforms/Generic/TrustZoneDevice.cpp:780-810 | nobody the IRQ thread waits for, directly or through others, waits for an MCP answer |
| LockOrder.SomebodyMoves | MobiCoreDriverLib/Daemon/Device/MobiCoreDevice.cpp:390-403 | every wait leads in the end to a thread that can go on, or to the idle IRQ thread |
| LockOrder.TwoAwait | MobiCoreDriverLib/Daemon/Device/MobiCoreDevice.cpp:909-947 | of two threads that await an MCP answer at the same time, one has mutex_mcp and the other loads a token under the registry lock |
| LockRaces.ExclusiveExactlyWhen | MobiCoreDriverLib/Daemon/Device/public/MobiCoreDevice.h:91-144 | by the locks, in every run of any number of threads, shared data are accessed by one thread at a time exactly if they are the session list, the rings, the client list or a session's records, and not the MCP buffer, the early notifications, or a session's connections or notifications |
| LockRaces.NotificationsRace | MobiCoreDriverLib/Daemon/Device/MobiCoreDevice.cpp:539-544 | a run to a state in which openSession and the IRQ thread are both about to queue for one session |
| LockRaces.DrainRaces | MobiCoreDriverLib/Daemon/MobiCoreDriverDaemon.cpp:735-749 | another one in which NQ_CONNECT, holding only siq_mutex, is about to write the queue of a session the IRQ thread is about to change |
| LockRaces.ConnectionsRace | MobiCoreDriverLib/Daemon/Device/MobiCoreDevice.cpp:667-679 | a run to a state in which closeSession takes a session's client away while a NOTIFY looks at it |
| LockRaces.EarlyQueueRaces | MobiCoreDriverLib/Daemon/Device/MobiCoreDevice.cpp:472-475 | a run to a state in which an OPEN clears the early notifications while the IRQ thread adds one |
| LockRaces.McpBufferRaces | MobiCoreDriverLib/Daemon/Device/MobiCoreDevice.cpp:909-922 | a run to a state in which two threads are about to write a command into the MCP buffer |
| LockRaces.OnlyTokensRace | MobiCoreDriverLib/Daemon/Device/MobiCoreDevice.cpp:909-947 | in each such race on the MCP buffer one of the two loads a token without mutex_mcp |
| LockRaces.TwoAwaitingReachable | MobiCoreDriverLib/Daemon/MobiCoreDriverDaemon.cpp:1000-1011 | a run to a state in which two threads await an answer |
| HandOff.AtMostOnce | MobiCoreDriverLib/Daemon/Server/Client.h:88-106 | a client is at most once in queue and worker together |
| HandOff.LockedIsInFlight | MobiCoreDriverLib/Daemon/Server/Client.h:97-104 | a blocked client thread is in the queue or in the worker's hands |
| HandOff.EffectsInReadOrder | MobiCoreDriverLib/Daemon/Server/Client.h:88-106 | a client's commands, NOTIFY included, take effect in the order read, each before the next is read |
| HandOff.AcceptedConnectIsLast | MobiCoreDriverLib/Daemon/Server/Client.h:88-106 | an accepted NQ_CONNECT is the last command of its client that is read and that takes effect; the reading thread can read on exactly as long as there was none, and fail at any time |
| HandOff.ServedInOrder | MobiCoreDriverLib/Daemon/Server/Queue.h:51-66 | over any run the clients are taken by the worker in the order in which they were put, none left out |
| HandOff.ClientGoesOn | MobiCoreDriverLib/Daemon/Server/Client.h:88-106 | a client's thread can take its next step unless it waits for the worker, and then the worker has or will have it; NOTIFY is carried out by itself, all else is handed over |
| HandOff.ServerGoesOn | MobiCoreDriverLib/Daemon/Server/Server.cpp:170-204 | while nobody is being joined, connections are accepted, and exactly the exiting clients can be reaped |
| HandOff.DeletedUnreferenced | MobiCoreDriverLib/Daemon/Server/Server.cpp:190-204 | a client is deleted only when its thread has ended, all its commands took effect and neither queue nor worker refers to it |
| HandOff.NoDanglingClient | MobiCoreDriverLib/Daemon/Server/Server.cpp:60-77 | queue and worker refer only to existing clients |
| HandOff.JoinNotBlocked | MobiCoreDriverLib/Daemon/Server/Server.cpp:190-204 | the reaper's join under clients_mutex_ can always take its next step, which needs no clients_mutex_ |
| HandOff.JoinNotDelayed | MobiCoreDriverLib/Daemon/Server/Server.cpp:190-204 | no other step makes that join longer |
| HandOff.WorkerNotStuck | MobiCoreDriverLib/Daemon/Server/Server.cpp:60-77 | while there is work, the worker can go on or what it waits for can, NQ_CONNECT during a join included |
| HandOff.InvKept | MobiCoreDriverLib/Daemon/Server/Server.cpp:60-77 | the hand-off invariant is kept by client threads, worker, accepting and reaping |
| BlockingQueue.Queue.Push | MobiCoreDriverLib/Daemon/Server/Queue.h:51-56 | appends; everything pushed is popped or still queued, in order |
| BlockingQueue.Queue.Pop | MobiCoreDriverLib/Daemon/Server/Queue.h:57-66 | takes the front, or leaves an empty queue alone for the caller to wait |
| NotificationRing.RingIsFifo | MobiCoreDriverLib/Daemon/Device/NotificationQueue.cpp:49-76 | for every power-of-two size up to 2^31, all counter values and every run of puts and gets, the ring behaves as a bounded FIFO, wrap-around included |
| NotificationRing.PutAppends | MobiCoreDriverLib/Daemon/Device/NotificationQueue.cpp:49-60 | a put appends to the pending sequence, or changes nothing when the ring is full; occupancy never exceeds the size |
| NotificationRing.GetTakesOldest | MobiCoreDriverLib/Daemon/Device/NotificationQueue.cpp:64-76 | a get returns the slot of the oldest pending element and removes only it |
| NotificationRing.ReturnedSlotReused | MobiCoreDriverLib/Daemon/Device/NotificationQueue.cpp:70-76 | the returned pointer's slot is overwritten by the next put exactly when that put fills the ring |
| NotificationRing.MaskIsPos | MobiCoreDriverLib/Daemon/Device/NotificationQueue.cpp:55-57 | masking a counter with size - 1 is the remainder by the size |
| NotificationRing.WrapKeepsPos | common/MobiCore/inc/Mci/mcinq.h:98-112 | wrapping a 32-bit counter does not move its slot, because the size is a power of two |
| NotificationRing.NotificationQueue.PutNotification | MobiCoreDriverLib/Daemon/Device/NotificationQueue.cpp:49-60 | the in-place put appends or does nothing, and leaves the incoming ring alone |
| NotificationRing.NotificationQueue.GetNotification | MobiCoreDriverLib/Daemon/Device/NotificationQueue.cpp:64-76 | the in-place get yields the oldest slot, uncopied |
| Semaphore.RetestIsSafe | MobiCoreDriverLib/Common/CSemaphore.cpp:56-65 | with wait() only, any number of waiters: nobody gets through without a token |
| Semaphore.TimedTakesTwice | MobiCoreDriverLib/Common/CSemaphore.cpp:68-89 | with the timed wait two threads can take one token, leaving the count at -1 |
| Semaphore.OverdrawnExactlyWhen | MobiCoreDriverLib/Common/CSemaphore.cpp:68-89 | in any state, the threads inside can take a token that is not there, with no other thread entering, exactly if more are woken than there are tokens; with spurious wake-ups, if more are inside than there are tokens |
| Semaphore.TimedEntryIsSafeExactlyWhen | MobiCoreDriverLib/Common/CSemaphore.cpp:68-89 | a call of the timed wait leaves nothing of that kind possible exactly if it finds a token that nobody inside may come for or, spurious wake-ups aside, sleeps while none is woken |
| Semaphore.TimedIsSafeForOneExactlyWhen | MobiCoreDriverLib/Common/CSemaphore.cpp:68-89 | with one waiter at a time every woken thread has a token all along exactly if no spurious wake-up comes while every token is owed |
| Semaphore.SpuriousTakesNothing | MobiCoreDriverLib/Common/CSemaphore.cpp:68-89 | one thread and one spurious wake-up leave the count at -1 |
| Semaphore.NobodyGetsLost | MobiCoreDriverLib/Common/CSemaphore.cpp:56-89 | over any run, the threads that entered are asleep, woken, through or timed out |
| Netlink.ReadsSliceTheMessage | MobiCoreDriverLib/Common/NetlinkConnection.cpp:179-225 | any reads return consecutive slices; read and unread bytes together are the message, and one token exists exactly while bytes remain |
| Netlink.ArrivalIsSteadyExactlyWhen | MobiCoreDriverLib/Common/NetlinkConnection.cpp:155-166 | a message keeps the token count right exactly when it is not empty and the last one was read |
| Netlink.SecondArrivalOvertakes | MobiCoreDriverLib/Common/NetlinkConnection.cpp:155-166 | a second message before the first is read: its bytes replace the first's, and a token is left over |
| Netlink.EnoughReadsDrain | MobiCoreDriverLib/Common/NetlinkConnection.cpp:179-225 | reads that ask for enough return everything and leave no token |
| Netlink.MessageIsReadWhole | MobiCoreDriverLib/Common/NetlinkConnection.cpp:155-225 | a non-empty message on a drained connection is read as a prefix, and whole once enough was asked for |
| Netlink.ReadIsCapped | MobiCoreDriverLib/Common/NetlinkConnection.cpp:179-225 | a read returns at most what was asked for, and less only if it is all there is; with a token and no bytes it returns nothing |
| Netlink.EmptyTokensAreUsedUp | MobiCoreDriverLib/Common/NetlinkConnection.cpp:179-225 | tokens without bytes are used up by one read each |
| Netlink.NetlinkConnection.ReadData | MobiCoreDriverLib/Common/NetlinkConnection.cpp:179-225 | the in-place read does what the stream function does |
| Netlink.NetlinkConnection.HandleMessage | MobiCoreDriverLib/Common/NetlinkConnection.cpp:155-166 | the buffer is taken over and one token added |
| Semaphore.CountingSemaphore.TryWait | MobiCoreDriverLib/Common/CSemaphore.cpp:68-89 | takes a token exactly if there is one |
| Semaphore.CountingSemaphore.Signal | MobiCoreDriverLib/Common/CSemaphore.cpp:105-112 | adds one token |
| ClientMemory.RunsKeepAgreement | MobiCoreDriverLib/ClientLib/ClientLib.cpp:1212-1393 | client descriptors, daemon records and kernel table agree after every proper run of maps and unmaps, failures included |
| ClientMemory.UnmapAlwaysFinds | MobiCoreDriverLib/Daemon/Device/TrustletSession.cpp:131-142 | for a buffer and the information of its mcMap the handle is found and the daemon's test never fails |
| ClientMemory.UnmapKeepsAgreementExactlyWhen | MobiCoreDriverLib/ClientLib/ClientLib.cpp:1309-1393 | an accepted unmap keeps the agreement exactly when buffer and information belong to the same descriptor |
| ClientMemory.MixedUnmapDisagrees | MobiCoreDriverLib/ClientLib/ClientLib.cpp:1309-1393 | two maps and an unmap of the second buffer with the first's information, after which the sides disagree |
| ClientMemory.MapKeepsAgreement | MobiCoreDriverLib/ClientLib/ClientLib.cpp:1212-1306 | mcMap keeps the agreement whatever the daemon answers |
| ClientMemory.FailedMapLeavesClient | MobiCoreDriverLib/ClientLib/ClientLib.cpp:1267-1279 | a failed map leaves the client as it was; exactly a record and a lock can stay with the daemon |
| ClientMemory.DescribedAt | MobiCoreDriverLib/ClientLib/Session.cpp:153-166 | the first descriptor with this secure address and length, none only if there is none |
| ClientMemory.IndexOf | MobiCoreDriverLib/ClientLib/Session.cpp:169-186 | the first descriptor with the virtual address |
| ClientMemory.MatchingUnmap | MobiCoreDriverLib/ClientLib/Session.cpp:169-204 | a matching unmap removes exactly one descriptor, its record, its lock and its registration |
| ClientMemory.MapReports | MobiCoreDriverLib/ClientLib/ClientLib.cpp:1212-1306 | which error mcMap reports, exactly when, and that nothing changes before the registration |
| ClientMemory.UnmapReports | MobiCoreDriverLib/ClientLib/ClientLib.cpp:1309-1393 | which error mcUnmap reports, exactly when, and that nothing changes before the secure world has accepted |
| ClientMemory.NothingStaysForgotten | MobiCoreDriverLib/ClientLib/ClientLib.cpp:1212-1393 | after any calls in any order the kernel keeps only buffers that are registered or locked |
| GpOperation.SetupUndoneExactlyWhen | MobiCoreDriverLib/ClientLib/GP/tee_client_api.cpp:104-350 | a successful setup with map information intact: if the trusted application answered, or something else answered with success, unwinding leaves exactly the buffers whose unmap is refused, so everything is as before exactly if none is; otherwise it changes nothing |
| GpOperation.RefusedUnmapStays | MobiCoreDriverLib/ClientLib/GP/tee_client_api.cpp:343-346 | one buffer whose unmap is refused, and which stays mapped unreported |
| GpOperation.CancelUndoneExactlyWhen | MobiCoreDriverLib/ClientLib/GP/tee_client_api.cpp:231-246 | a setup cancelled after mapping is undone exactly if nothing was mapped, or the TCI still holds the answer of a trusted application and every unmap is accepted |
| GpOperation.NothingUnwoundWithoutAnswer | MobiCoreDriverLib/ClientLib/GP/tee_client_api.cpp:236-246 | a setup that fails or is cancelled while the TCI holds no such answer leaves every buffer mapped before |
| GpFailure.FailureUndoneExactlyWhen | MobiCoreDriverLib/ClientLib/GP/tee_client_api.cpp:236-246 | a setup that fails after an answered operation leaves the buffers there were, and of those mapped before the failure the ones whose unmap is refused, exactly if no map information of an earlier operation hits one of them |
| GpFailure.RejectedUnmaps | MobiCoreDriverLib/ClientLib/GP/tee_client_api.cpp:201-210 | a rejected operation that unmaps a buffer it has not mapped |
| GpOperation.FirstCancelStays | MobiCoreDriverLib/ClientLib/GP/tee_client_api.cpp:231-246 | the first operation of a session, cancelled, leaves its buffer mapped |
| GpOperation.SetupAdds | MobiCoreDriverLib/ClientLib/GP/tee_client_api.cpp:124-229 | a setup that succeeds adds exactly the mapped parameters' buffers, in order |
| GpOperation.SetupLeavesInfo | MobiCoreDriverLib/ClientLib/GP/tee_client_api.cpp:150-220 | each memory reference's map information is that of its mapping, or has length 0 |
| GpOperation.SetupMapsCallersMemory | MobiCoreDriverLib/ClientLib/GP/tee_client_api.cpp:140-220 | a successful setup maps exactly the caller's memory, in order: a temporary reference's buffer and size, the whole shared memory, or the part at the offset; nothing for size 0 or a null temporary reference |
| GpOperation.SetupSendsValues | MobiCoreDriverLib/ClientLib/GP/tee_client_api.cpp:131-139 | a and b go out exactly for VALUE_INPUT and VALUE_INOUT |
| GpOperation.SetupReports | MobiCoreDriverLib/ClientLib/GP/tee_client_api.cpp:124-257 | a cancellation is reported in any case, else the first parameter that is unsound or cannot be mapped, and the operation in the TCI is zeroed unless it succeeds |
| GpOperation.CallerGetsBack | MobiCoreDriverLib/ClientLib/GP/tee_client_api.cpp:288-340 | which of the caller's fields change and to what: a and b for VALUE_OUTPUT and VALUE_INOUT, the sizes for references that may be written |
| GpOperation.UnwindLeavesRefused | MobiCoreDriverLib/ClientLib/GP/tee_client_api.cpp:288-347 | unwinding takes back one by one what is accepted and leaves the refused, from any parameter on |
| GpOperation.SentTypes | MobiCoreDriverLib/ClientLib/GP/tee_client_api.cpp:228-229 | every type nibble in the TCI is the caller's type translated, and below 8 |
| GpOperation.SentTypeIsSmall | MobiCoreDriverLib/ClientLib/GP/tee_client_api.cpp:169-202 | whole and partial references become temporary ones with the same data flow |
| GpOperation.OperationRunner.SetupOperation | MobiCoreDriverLib/ClientLib/GP/tee_client_api.cpp:104-257 | the loop over four parameters in place |
| GpOperation.OperationRunner.UnwindOperation | MobiCoreDriverLib/ClientLib/GP/tee_client_api.cpp:260-350 | the loop back, with what is copied to the caller for each type |
| GpOperation.OperationRunner.McMap | MobiCoreDriverLib/ClientLib/ClientLib.cpp:1212-1306 | mapping in place, error by error |
| GpOperation.OperationRunner.SetupOne | MobiCoreDriverLib/ClientLib/GP/tee_client_api.cpp:131-228 | one parameter in place: rejected, copied, mapped or left unmapped |
| GpOperation.OperationRunner.UnmapAll | MobiCoreDriverLib/ClientLib/GP/tee_client_api.cpp:288-347 | the unwinding loop in place |
| RegistryPaths.PathInjective | MobiCoreDriverLib/Registry/PrivateRegistry.cpp:146-168 | root, SP and trustlet containers never share a path, across and within the families |
| RegistryPaths.HexInjective | MobiCoreDriverLib/Registry/PrivateRegistry.cpp:85-93 | lower-case hexadecimal of byte strings is injective |
| RegistryPaths.ReversedInjective | MobiCoreDriverLib/Registry/PrivateRegistry.cpp:96-102 | reversed hexadecimal of 32-bit numbers is injective |
| RegistryPaths.HexDigits | MobiCoreDriverLib/Registry/PrivateRegistry.cpp:85-93 | two lower-case digits per byte, the high one first |
| RegistryPaths.SpName | MobiCoreDriverLib/Registry/PrivateRegistry.cpp:158-161 | a service provider's file name: eight upper-case digits of its id, the lowest first, and the extension |
| RegistryPaths.TlName | MobiCoreDriverLib/Registry/PrivateRegistry.cpp:164-168 | a trustlet's file name, part by part |
| RegistryPaths.BelowIsNotContainer | MobiCoreDriverLib/Registry/PrivateRegistry.cpp:1107-1118 | no file in a directory below the registry is a container |
| RegistryPaths.BinaryIsNotContainer | MobiCoreDriverLib/Registry/PrivateRegistry.cpp:1129-1142 | no trustlet or TA binary or .spid file is a container |
| Registry.RegistryIsKeyedMap | MobiCoreDriverLib/Registry/PrivateRegistry.cpp:386-559 | every run of stores, reads and deletions gets the replies of a map from container keys to contents, in which a deletion touches nothing but what it is about and, if it succeeds, takes all of it away |
| Registry.ReadBackExactlyWhen | MobiCoreDriverLib/Registry/PrivateRegistry.cpp:422-453 | a successful store is read back exactly if and only if it has at least one byte and fits the buffer |
| Registry.StoreReports | MobiCoreDriverLib/Registry/PrivateRegistry.cpp:386-418 | a store is accepted exactly with a buffer of at most 1536 bytes, a service provider that is not 0 and a file that can be written |
| Registry.StoreKeepsOthers | MobiCoreDriverLib/Registry/PrivateRegistry.cpp:457-489 | a store under one key never changes a read under another |
| Registry.TrustletCleaned | MobiCoreDriverLib/Registry/PrivateRegistry.cpp:1096-1151 | cleaning up a trustlet takes its container away if it succeeds and touches no other |
| Registry.DirectoryIsEmptied | MobiCoreDriverLib/Registry/PrivateRegistry.cpp:1107-1127 | the visible files of the directory are removed as far as possible, and it goes exactly if no file is left in it |
| Registry.TrustletLeavesNothing | MobiCoreDriverLib/Registry/PrivateRegistry.cpp:1096-1151 | a trustlet that was cleaned up has neither data directory nor binary any more, legacy or GP |
| Registry.SpCleaned | MobiCoreDriverLib/Registry/PrivateRegistry.cpp:1155-1212 | cleaning up a service provider takes its container and all it lists, and nothing else; a short container is skipped |
| Registry.CascadeCompleteExactlyWhen | MobiCoreDriverLib/Registry/PrivateRegistry.cpp:1216-1246 | a root deletion that reports OK is complete exactly when neither the root container nor a listed SP container is too short |
| Registry.CascadeKeepsOthers | MobiCoreDriverLib/Registry/PrivateRegistry.cpp:1216-1246 | whatever the outcome, no container that does not depend on the root is touched |
| Registry.ShortRootSurvives | MobiCoreDriverLib/Registry/PrivateRegistry.cpp:1223-1227 | a root container of one byte: OK is reported and nothing is deleted |
| RegistryLayout.RootReadsBack | common/MobiCore/inc/mcContainer.h:176-185 | the children read from the bytes of a root container's structure are the 16 ids it lists |
| RegistryLayout.SpReadsBack | common/MobiCore/inc/mcContainer.h:188-196 | and those read from a service provider container are its 16 UUIDs |
| RegistryLayout.CascadeOnFields | MobiCoreDriverLib/Registry/PrivateRegistry.cpp:1216-1246 | deleting the root of a registry given by such structures spares what is not below it and, on success, takes all that is |
| RegistryLayout.ProviderOnFields | MobiCoreDriverLib/Registry/PrivateRegistry.cpp:1155-1212 | the same for one service provider |
| RegistryLayout.WholeRegistryIsDeleted | MobiCoreDriverLib/Registry/PrivateRegistry.cpp:1216-1246 | if everything listed is there, once, and can be removed, deleting the root succeeds and exactly what is below it is gone |
| RegistryLayout.SmallRegistryIsDeleted | MobiCoreDriverLib/Registry/PrivateRegistry.cpp:1228-1236 | one service provider, 1, and one trustlet: the bytes 01 00 00 00 in the root lead to both |
| Registry.FreeIsComparedWhole | MobiCoreDriverLib/Registry/PrivateRegistry.cpp:1175-1177 | comparing with the free UUID as text compares all 16 bytes |
| Registry.PrivateRegistry.CleanupRootContainer | MobiCoreDriverLib/Registry/PrivateRegistry.cpp:1216-1246 | the in-place cascade, complete exactly when all containers are full, sparing all others |
| Registry.PrivateRegistry.CleanupSpContainer | MobiCoreDriverLib/Registry/PrivateRegistry.cpp:1155-1212 | the loop over 16 children in place |
| Registry.PrivateRegistry.RemoveDirectory | MobiCoreDriverLib/Registry/PrivateRegistry.cpp:1107-1127 | removes the visible entries one by one, then the directory if it is empty |
| Registry.PrivateRegistry.StoreContainer | MobiCoreDriverLib/Registry/PrivateRegistry.cpp:386-418 | the in-place store, sparing all other keys |
| Registry.PrivateRegistry.CleanupTrustletContainer | MobiCoreDriverLib/Registry/PrivateRegistry.cpp:1096-1151 | data directory, binary and container of one trustlet in place |
| Registry.PrivateRegistry.CleanupAll | MobiCoreDriverLib/Registry/PrivateRegistry.cpp:1216-1246 | the loop over the root's children in place |
| SecureObject.SizeIsExact | common/MobiCore/inc/mcSo.h:233-236 | for all 32-bit lengths the size is nonzero exactly when the true sum is at most 1000000, and then exact |
| SecureObject.GuardIsExact | common/MobiCore/inc/mcSo.h:234-234 | the two wrapped comparisons reject exactly the true sums above the maximum |
| SecureObject.OldFormFits | common/MobiCore/inc/mcSo.h:237-240 | the v2.1 form is legal for the same lengths and never larger than the v2.2 form |
| SecureObject.PaddingIsNextBlock | common/MobiCore/inc/mcSo.h:215-216 | padding goes to the next block boundary and always adds at least one byte |
| SecureObject.HashAndPadIs48 | common/MobiCore/inc/mcContainer.h:242-246 | 48 for every legal container, and for no other 32-bit sizes but the one total that wraps to it |
| Scheduler.FiveYields | MobiCoreDriverLib/Daemon/Device/Platforms/Generic/TrustZoneDevice.cpp:624-648 | at most five yields between N-SIQs; an N-SIQ that is not forced comes after exactly five |
| Scheduler.WakeTimeIsExact | MobiCoreDriverLib/Daemon/Device/Platforms/Generic/TrustZoneDevice.cpp:651-668 | the wake-up time is the time read plus the time-out exactly, with at most 1000000 microseconds |
| Scheduler.ForcedNotEarly | MobiCoreDriverLib/Daemon/Device/Platforms/Generic/TrustZoneDevice.cpp:598-616 | a forced N-SIQ never comes before the time read plus the time-out |
| Scheduler.WakeupWasComputed | MobiCoreDriverLib/Daemon/Device/Platforms/Generic/TrustZoneDevice.cpp:651-668 | a wake-up time that is set is always the last time read plus the last time-out |
| Scheduler.WakeupIsLastAskedFor | MobiCoreDriverLib/Daemon/Device/Platforms/Generic/TrustZoneDevice.cpp:618-671 | a wake-up time is set exactly if the secure world asked for one when it ran last, and it is that one |
| Scheduler.EventsMean | MobiCoreDriverLib/Daemon/Device/Platforms/Generic/TrustZoneDevice.cpp:588-648 | an idle secure world sleeps for good exactly if it has not asked to be woken, is woken exactly when the reading has reached the time in both parts, and one that is not idle runs |
| Scheduler.DetectedExactlyWhen | MobiCoreDriverLib/Daemon/Device/Platforms/Generic/TrustZoneDevice.cpp:600-603 | a time-out that is over is noticed exactly when the microseconds have caught up too |
| Scheduler.LateButNotDetected | MobiCoreDriverLib/Daemon/Device/Platforms/Generic/TrustZoneDevice.cpp:600-603 | a reading half a second late that is taken for too early |
| Scheduler.NeverForcedExactlyWhen | MobiCoreDriverLib/Daemon/Device/Platforms/Generic/TrustZoneDevice.cpp:662-668 | an idle secure world is never woken exactly when the carry left a full second in the microseconds |
| Scheduler.NeverForcedExample | MobiCoreDriverLib/Daemon/Device/Platforms/Generic/TrustZoneDevice.cpp:662-668 | 500 ms asked for at half a second past leave such a state |
| Scheduler.SchedulerThread.Once | MobiCoreDriverLib/Daemon/Device/Platforms/Generic/TrustZoneDevice.cpp:588-671 | one pass of the loop in place, with the wrapping decrement |
| Scheduler.SchedulerThread.ComputeWakeup | MobiCoreDriverLib/Daemon/Device/Platforms/Generic/TrustZoneDevice.cpp:651-668 | the loop that adds the time-out computes the wake-up time |

## Left out

- Engine.DoOpenDone: creating, listing and draining the early notifications is one step in the engine, and so is attaching and draining in Engine.Attached; Handover has them step by step, without closeSession.
- Engine: registry commands that load a token use the MCP buffer without mutex_mcp; the engine's runs are without them, LockRaces says where they meet other commands.
- registerTrustletConnection does not look at the session state; the model takes from the client library that NQ_CONNECT precedes the close, so a session without client is not attached.
- Engine.CanCommand: the unmap address is taken to belong to the handle sent, as the client library does it; the daemon does not check it.
- Device.MobiCoreDevice: sessions are values in the list, so aliasing of session objects is left to EngineLifetime; the refusal of a legacy session is one answer there, whatever its code.
- HandOff: client, worker and reaper are a step machine on values and not classes, since their methods are interrupted in the middle.
- Semaphore.CountingSemaphore.TryWait: reports that it cannot get through instead of blocking or timing out; waiters are in Semaphore.Sem.
- Semaphore.CountingSemaphore.Signal: waking a waiter is in Semaphore.Apply and not in the class.
- Netlink.NetlinkConnection.ReadData: NoData stands for the time-out and for the wait that blocks.
- BlockingQueue.Queue.Pop: an empty queue is reported instead of blocking on the condition variable.
- ClientMemory: one session at a time, and not the descriptor of a session's own TCI, whose secure address is never set.
- GpOperation.SentTypes: shared memory has the flags that registering it lets through, which the setup itself does not check.
- Registry.PrivateRegistry.RemoveDirectory: subdirectories among the entries are not modelled.
- Registry.PrivateRegistry.StoreContainer: a failure in the middle of writing the file.
- Registry: finding the .spid file of a GP trusted application, which is an input.
- GpOperation.Rejected: the sum of offset and size wraps at 32 bits, as where size_t is 32 bits wide.
- SecureObject: size_t is taken as 32 bits wide; with 64 bits the one lucky total is gone.
- Overflow of the ring to the secure world, halting of the secure world and MCP time-outs: the runs are without such faults.
- What the commands GET_VERSION, checkLoad, loadToken and installEndorsementToken do besides locking, data access and waiting.
- NetlinkServer, driver autoload, start-up and shutdown, signal handling, the file storage daemon, logging and version strings.
- Device data objects, authentication tokens and TA blobs of the registry: more of the same store and read.
- Error code translation, open counts and getters of the client library, and the message headers of content management.
