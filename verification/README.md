# Protocols of the MacFUSE kernel extension

A Dafny model of the kernel half of MacFUSE (the 10.4 tree) and proofs about it. The C code is
a set of protocols over shared state: threads that wait for a user-space daemon, a hash of
vnodes that are attached and detached concurrently, locks taken four at a time, transfers cut
into requests, and several reference counts. Each is modelled with the branches, error codes
and constants of the code, and what the code promises, in its documentation, its asserts or its
panics, is proved over all inputs, all runs or all interleavings.

`dafny verify dfyconfig.toml` checks everything.

## How the model is laid out

For each protocol there are up to four layers.

* **Memory**: the shared data as values, and one function for each critical section
  (`TicketMemory`, `HashMemory`, `DeviceMemory`).
* **Protocol**: threads as program counters; one step is one critical section, or one unlocked
  access between which other threads run. A run is any sequence of steps of any threads
  (`TicketProtocol`, `HashProtocol`, `DeviceLife`).
* **Invariant and theorems**: what holds between any two steps, and what follows for whole
  runs. For the tickets: `TicketFrame` (a step leaves every ticket alone but the one it works on),
  `TicketInvariant` and `TicketTheorems` (while the session lives), `TicketCounts`,
  `TicketReuse` and `TicketQueues` (in its life and after it), `TicketOutcome` and `TicketTrip` (what a
  requester gets, and what each part of a request's way leaves behind), `TicketShutdown`, `TicketTwice`,
  `TicketDangling`, `TicketInitWait` and `TicketClosing` (through its death), and `TicketWitness` (runs to the
  states in which a promise ends, built from the states of `TicketScenes`). For the rest:
  `HashInvariant`, `HashTheorems`, `HashLookup`, `DeviceLife`.
* **Objects**: the C structures as classes whose methods have the code's loops and updates in
  place. Every method is proved to compute its function of the memory layer (`Session`,
  `NodeHash`, `Device`). The steps of `HashProtocol` and `DeviceLife` call those very functions.
  The steps of `TicketProtocol` are smaller than the functions; `TicketRefinement` proves that
  the steps of an undisturbed fetch, wait, end of a wait, drop, write and flush add up to the methods.

The sequential parts keep function, method and theorem in one module: `LockOrder` and `Locking`,
`DirRecords` and `ReadDir`, `Strategy`, `Fiov`, `FileHandle`, `LookupCount`. `Lists` holds the
few facts about linked lists that the others share.

What comes from outside is a parameter: which thread runs next, whether a signal arrives,
whether an allocation succeeds, what the daemon answers. The daemon answers a message that it
has read at most once, and does not answer a FORGET. `data->ticketer++` is one atomic step.

A ticket has one link for each list (fuse_ipc.h:70-88), and a ticket that is put on the free list
while it is there cuts the list short or makes it loop. So the free list of the model is what a
walk along the links finds, and whether the walk ends in a loop (`TicketMemory.PushFree`,
`TicketMemory.PopFree`); `Session.FreeList` has the links themselves and is proved to agree. On the
other lists no ticket is linked twice (`TicketQueues.LinkedOnce`, `TicketCounts.TicketsAreCounted`).

A ticket run comes in two forms. `AnyRun` is every interleaving, up to the first step that uses the
memory of a ticket that `fticket_destroy` has freed (`TicketProtocol.Touched`,
`TicketProtocol.UsesFreed`): its own, that of a neighbour it links to or unlinks from, or that of a
ticket passed in a search. What such a step does is not defined, and the results below say when
there is one. `Run` is every such run in which an interrupted requester gets to the answer queue
before its ticket has been refreshed 2^32 times, since `tk_age` cannot tell uses that far apart from
each other. The results of `TicketCounts`, `TicketReuse` and `TicketInitWait`, and
`TicketWitness.PanicExactly` and `TicketWitness.MismatchExactly`, are about `AnyRun`; the other
results about whole runs of tickets are about `Run`.

## Where the code does less than it promises

* Release exactly once holds in live sessions only. When the session dies, some run leads to two
  releases of a use exactly if its requester is about to wait and the reply is with a writer or
  still owed by the daemon: requester and standard handler then both drop the ticket
  (`TicketTwice.ReleasedTwiceExactly`, `TicketWitness.TwiceInSightIsReachable`).
* After that the panic "ticket reused without being refreshed" is in reach: the ticket is put on
  the free list while it is there, links to itself, and two threads fetch it. A session with two
  threads can get there exactly if it keeps a free list, that is, if fuse_max_freetickets is not 0
  (`TicketWitness.PanicExactly`); and only a release by a thread that is not alone with the ticket
  leads there (`TicketReuse.DirtyOnlyAfterSurplusRelease`).
* So is the panic "ticket count mismatch": such a push cuts off the tickets behind the first
  occurrence, but the counter grows. A session with three threads can get there exactly if it keeps
  a free list (`TicketWitness.MismatchExactly`). In every run without such a push counter and list
  agree and both panics of the fetch are out of reach (`TicketCounts.FreeListMatchesItsCounter`), and
  only a release by a thread that is not alone with the ticket leads to such a push
  (`TicketReuse.PushedAgainOnlyAfterSurplusRelease`).
* An interrupted requester gives up `tk_aw_mtx` before it reads `tk_data` and `tk_age`
  (fuse_ipc.c:1054-1062). If the writer of its reply is faster, the ticket may have been recycled or
  freed by then (`TicketTheorems.InterruptedFindsItsTicketExactly`,
  `TicketTheorems.DestroyedTicketIsLeftToTheInterrupted`,
  `TicketWitness.FreedUnderTheInterrupted`). This is the only way in which a live session uses the
  memory of a freed ticket (`TicketTheorems.LiveStepDanglesExactly`).
* A dead session has others. The second of two releases of a use may look at a ticket that the
  first has freed (`TicketWitness.FreedUnderTheSecond`). And a requester that finds FSESS_DEAD before
  the flush has got to its ticket drops it while the answer queue still links it; the flush or a
  reply goes on to it even if it has been freed, whose `tk_aw_mtx` is NULL then
  (`TicketWitness.FlushMeetsFreed`). Nothing else leaves a released ticket on the answer queue
  (`TicketDangling.ReleasedWhileReferredTo`), and it is freed there exactly if it is marked FT_KILLL
  or the free list is full when it is dropped (`TicketDangling.FreedWhileReferredToExactly`,
  `TicketDangling.FindingDeadReleases`).
* `tk_age` has 32 bits. It tells a requester's own use of a ticket from later ones exactly if
  they are not a multiple of 2^32 refreshes apart (`TicketTheorems.AgeConfusesExactly`).
* A requester that sleeps for the FUSE_INIT handshake in a dead session stays asleep, through a
  whole flush too, unless `fdata_set_dead` killed the session and its one wake-up is still to
  come (`TicketInitWait.StrandedExactly`). A session gets there in two ways: `fuse_device_read`
  writes FSESS_DEAD itself (fuse_device.c:368), after which `fdata_set_dead` returns at once
  (`TicketWitness.StrandedByTheReader`); or the requester falls asleep after the wake-up
  (`TicketWitness.StrandedAfterTheWakeUp`).
* `fdata_set_dead` wakes one sleeping reader only (`fuse_wakeup_one`, fuse_ipc.c:488), and
  `fuse_device_read`, when it kills the session itself, none. Other readers stay asleep until a
  signal comes, or the message of a request that had passed the test for FSESS_DEAD before.
* The comment on `fusefs_lockfour` promises one lock per fusenode. That holds for all arguments
  exactly if no two fusenodes are each other's parent (`LockOrder.NoRepetitionExactly`).
  `fusefs_lockpair` looks for a parent in its first argument only, and goes by another order
  than `fusefs_lockfour` in exactly one case (`LockOrder.PairInOrderExactly`). Calls of
  `fusefs_lockfour` are free of wait cycles exactly if the order is transitive
  (`LockOrder.NoWaitCycleExactly`), which it need not be (`LockOrder.NotTransitiveInGeneral`).
  All of this code is compiled only with M_MACFUSE_ENABLE_TSLOCKING.
* On a 32-bit kernel the test `diff < 0` of the strategy write loop can never be true
  (`Strategy.DiffCheckExactly`).
* The creator's `open` takes over the handle of `create` without looking whether it is still
  open or whether the slot it goes to is in use (`FileHandle.PickUpExactly`,
  `FileHandle.AllReleasedOnceExactly`, `FileHandle.ReleasedTwice`).
* A lookup that rejects the root's node id, and mkdir, mknod or symlink that reject an entry,
  neither keep nor give back the reference that came with it
  (`LookupCount.ConservedExactly`, `LookupCount.RunLeaksExactly`).
* `fiov_adjust_canfail` never returns ENOMEM: fuse.h:26 always defines FUSE_COUNT_MEMORY, and with
  it `FUSE_OSMalloc` panics when an allocation fails (fuse.h:137-150). The parameter `memory` of
  `Fiov.FuseIov.AdjustCanFail` is true in every build that accounts memory; the ENOMEM branch is
  the code's, and is modelled as it stands.
* `fuse_internal_readdir_processdata` writes one byte behind the record in its buffer
  (fuse_internal.c:640), and `fiov_adjust` allocates no more than it is asked for from 160 bytes up.
  That byte is in the allocation for every directory exactly if fuse_iov_permanent_bufsize is at
  least the 280 bytes that the buffer is made with; its default is 2^19
  (`Fiov.RecordsHaveRoomExactly`).
* `fuse_max_freetickets` and `fuse_iov_permanent_bufsize` are unsigned, so that their tests for
  being non-negative are always true; the model has no such tests.

## Model

| member | source | states |
|---|---|---|
| TicketTheorems.ExactlyOnce | core/10.4/fusefs/fuse_ipc.c:1031-1102 | In every run of a live session each use of a ticket is released, reused or walked away from at most once in all, gets at most one reply, is over only after exactly one release or reuse, and once its reply has been taken it is settled or an awake thread is about to settle it |
| TicketOutcome.AnswerIsASuccess | core/10.4/fusefs/fuse_ipc.c:1076-1097 | In every run of a live session, a requester that has an answer has had a reply to this very use of its ticket, and that reply said no error, neither in its header nor when its body was taken in |
| TicketOutcome.ReactExactly | core/10.4/fusefs/fuse_ipc.c:1076-1102 | A requester that comes out of its wait without an error has had a reply to this use; it gets the answer if and only if that reply said no error, and otherwise releases the ticket once and returns the error of the header, or EIO if the body could not be taken in |
| TicketOutcome.ReactInterrupted | core/10.4/fusefs/fuse_ipc.c:1039-1069 | An interrupted requester returns the error of its wait; it releases the ticket if and only if the ticket has been answered meanwhile, and otherwise marks it answered and leaves it to the writer of the reply |
| TicketTrip.RequestComesBack | core/10.4/fusefs/fuse_ipc.c:1031-1102 | In every reachable state of a live session with an empty message queue, a request can go to the daemon and back, step by step: the requester gets the answer if and only if the reply says no error, and otherwise returns its error or EIO; queues, lists, counters and what the daemon owes are as before, and of the session memory only the record of the ticket has changed |
| TicketTrip.ReplyReachesTheSleeper | core/10.4/fusefs/fuse_device.c:440-468 | In every reachable state of a live session the reply that the daemon owes to a sleeping requester can be taken, recorded and reacted to, with the same outcome; the ticket leaves the answer queue, and nothing else changes |
| TicketTrip.RequestIsPosted | core/10.4/fusefs/fuse_ipc.c:646-679 | A request ends up last on the message queue, and last on the answer queue too unless it is a FORGET, with the handler of its kind; a foreground requester goes on to wait, any other is done |
| TicketTrip.MessageIsRead | core/10.4/fusefs/fuse_device.c:312-395 | The oldest message is taken; a FORGET is released by its reader, and of any other request the daemon then owes the reply |
| TicketTrip.TicketIsDropped | core/10.4/fusefs/fuse_ipc.c:600-626 | A released ticket is destroyed and counted if it is FT_KILLL or the free list is full, and otherwise becomes the last free ticket, cleared, with its handler and an age one higher |
| TicketTrip.FreeTicketIsFetched | core/10.4/fusefs/fuse_ipc.c:558-597 | The first free ticket is fetched; the request waits for FUSE_INIT, fails because of too many tickets, or goes on, as FSESS_INITED, ticketer, deadticket_counter and fuse_max_tickets say |
| TicketTrip.NewTicketIsFetched | core/10.4/fusefs/fuse_ipc.c:558-597 | Without a free ticket the next number is given to a cleared ticket, which becomes the last of alltickets; then the same |
| TicketTrip.AnswerIsFollowed | core/10.4/fusefs/fuse_ipc.c:948-971 | A caller that makes its next request with the ticket of its answer has it cleared, with its handler and an age one higher, for a new use |
| TicketTrip.SleeperIsInterrupted | core/10.4/fusefs/fuse_ipc.c:1039-1055 | A signal takes a sleeper out of its wait: it returns the error, and the ticket stays where it is, marked answered |
| TicketTrip.HandlerIsCleared | core/10.4/fusefs/fuse_ipc.c:1056-1069 | It then clears the handler if its use of the ticket is on the answer queue, changes nothing if not, and is done |
| TicketTrip.WriterDropsUnhandled | core/10.4/fusefs/fuse_device.c:455-468 | The writer of a reply releases a ticket without a handler |
| TicketTrip.HandlerDropsAnswered | core/10.4/fusefs/fuse_ipc.c:921-945 | The standard handler releases a ticket that has been answered already |
| TicketTrip.HandshakeEnds | core/10.4/fusefs/fuse_internal.c:1405-1417 | The end of the FUSE_INIT handshake lets exactly those go on who sleep for it |
| TicketTheorems.WhoReleases | core/10.4/fusefs/fuse_device.c:380-468 | In a live session only these release a ticket: its requester, with no answer outstanding; the writer that took it off the answer queue, if nobody owns it any more; for a FORGET, the reader that popped it |
| TicketTheorems.ReleasedTicketIsPrivate | core/10.4/fusefs/fuse_ipc.c:600-626 | In a live session a ticket that is being dropped is on neither message queue nor the free list, and the only other threads that may still look at it are requesters interrupted during a use that is being released or has been released |
| TicketTheorems.DestroyedTicketIsLeftToTheInterrupted | core/10.4/fusefs/fuse_ipc.c:1046-1062 | In a live session a destroyed ticket is on no list or queue, no reply to it is owed, and the only threads that still have it are requesters interrupted during a use that has been released once; those go on to read the freed ticket |
| TicketTheorems.LiveStepDanglesExactly | core/10.4/fusefs/fuse_ipc.c:1046-1069 | In a live session a step that can be taken uses the memory of a destroyed ticket if and only if it is that of an interrupted requester whose own ticket has been destroyed on its way to the answer queue |
| TicketTheorems.InterruptedFindsItsTicketExactly | core/10.4/fusefs/fuse_ipc.c:1046-1069 | On its way to the answer queue an interrupted requester finds its own use of the ticket, alive and without another owner, if and only if that use has not been released yet |
| TicketWitness.FreedUnderTheInterrupted | core/10.4/fusefs/fuse_ipc.c:1046-1062 | From every fresh session with two threads, a live run to a destroyed ticket that an interrupted requester can, and does, go on to read |
| TicketTheorems.ForgetIsReleasedByItsReader | core/10.4/fusefs/fuse_device.c:380-395 | A FORGET that its sender has posted is on the message queue or with the one reader that will drop it, never on the answer queue, and no reply to it is outstanding |
| TicketTheorems.EveryReplyIsTaken | core/10.4/fusefs/fuse_device.c:444-464 | Every reply of the daemon to a message that asked for one finds its ticket on the answer queue |
| TicketTheorems.OnlyItsOwnHandler | core/10.4/fusefs/fuse_ipc.c:1050-1069 | An interrupted requester clears the handler of its own use only, still queued, answered, without an owner and not yet dropped |
| TicketTheorems.AgeConfusesExactly | core/10.4/fusefs/fuse_ipc.c:1047-1069 | The handler is cleared if and only if the ticket is on the answer queue and the two uses are a multiple of 2^32 refreshes apart |
| TicketCounts.TicketsAreCounted | core/10.4/fusefs/fuse_ipc.c:538-578 | In every interleaving, the session live or dead: no ticket is destroyed twice; a ticket is on alltickets once if it has been listed and not been destroyed, else not at all; ticketer is deadticket_counter plus the tickets listed or being allocated |
| TicketCounts.FreeListMatchesItsCounter | core/10.4/fusefs/fuse_ipc.c:503-578 | In every interleaving, live or dead, in which no ticket is put on the free list while it is there: freeticket_counter is the length of the list, which does not loop; it is empty after a pop exactly if the counter is 0; and the panics "ticket count mismatch" and "no free ticket despite the counter's value" are unreachable |
| TicketCounts.CounterPromisesATicket | core/10.4/fusefs/fuse_ipc.c:560-578 | In every interleaving whatsoever, a positive counter means that the free list has a ticket, and a walk along the list passes no ticket twice before it ends or loops: only "ticket count mismatch" can end a fetch |
| TicketCounts.UnlistedIsBeingAllocated | core/10.4/fusefs/fuse_ipc.c:565-573 | In every interleaving a ticket is off alltickets without having been destroyed exactly while one thread, and only one, is between its allocation and fuse_push_allticks |
| TicketTheorems.TicketsAreAccountedFor | core/10.4/fusefs/fuse_ipc.c:503-597 | In a live session every number handed out by ticketer is destroyed, on alltickets, or with the one thread allocating it; no list has a ticket twice; the free list is part of alltickets and disjoint from both queues |
| TicketTheorems.NoDirtyTicketIsQueued | core/10.4/fusefs/fuse_ipc.c:660-679 | In a live session the panic "ticket reused without being refreshed" is unreachable |
| TicketReuse.DirtyOnlyAfterSurplusRelease | core/10.4/fusefs/fuse_ipc.c:600-664 | In every interleaving, the session live or dead, fuse_insert_message finds a dirty ticket only after some step has called fuse_ticket_drop for it while it was not in use, or while another thread held it |
| TicketReuse.PushedAgainOnlyAfterSurplusRelease | core/10.4/fusefs/fuse_ipc.c:503-627 | In every interleaving a ticket is put on the free list while it is there only after some step has called fuse_ticket_drop for it while it was not in use, or while another thread held it |
| TicketReuse.NeverDirtyWithoutRecycling | core/10.4/fusefs/fuse_ipc.c:605-625 | If fuse_max_freetickets is 0 then no interleaving finds a dirty ticket there, whoever releases what |
| TicketWitness.PanicExactly | core/10.4/fusefs/fuse_ipc.c:660-664 | For every fresh session with at least two threads: some interleaving leads to the panic "ticket reused without being refreshed" if and only if fuse_max_freetickets is not 0 |
| TicketWitness.MismatchExactly | core/10.4/fusefs/fuse_ipc.c:512-527 | For every fresh session with at least three threads: some interleaving leads to a fetch that panics with "ticket count mismatch" if and only if fuse_max_freetickets is not 0 |
| TicketQueues.LinkedOnce | core/10.4/fusefs/fuse_ipc.h:243-287 | In every run, the session live or dead, a ticket is linked at most once to the message queue and at most once to the answer queue, and not while a thread is about to link it there or a flush has it in hand |
| TicketTheorems.StepIsSteady | core/10.4/fusefs/fuse_ipc.c:479-499 | FSESS_DEAD is never cleared, only the end of a flush is one, and only the five releasing steps release |
| TicketTheorems.LiveRunIsGood | core/10.4/fusefs/fuse_ipc.c:438-1102 | The invariant over threads, queues, lists, counters and the daemon's tokens holds after every run that leaves the session alive |
| TicketShutdown.ShutdownStrandsNobody | core/10.4/fusefs/fuse_device.c:235-261 | Once the answer queue of a dead session has been flushed, no requester is, or ever gets, asleep on a ticket unless a writer that holds the ticket is in flight; sleepers for FUSE_INIT are another matter (TicketInitWait.StrandedExactly) |
| TicketShutdown.SleeperIsExpected | core/10.4/fusefs/fuse_ipc.c:194-215 | In every run, live or dead, the ticket that a requester sleeps on is on the answer queue, in the hand of the flusher that owns aw_mtx, or with a writer |
| TicketShutdown.WriterWakesSleeper | core/10.4/fusefs/fuse_ipc.c:921-945 | The writer in flight can always take its steps, and its last one wakes the sleeper |
| TicketShutdown.FlushWakesSleeper | core/10.4/fusefs/fuse_device.c:757-772 | A ticket that a flush has popped and that has a sleeper is not destroyed, the flush can mark it, and that wakes the sleeper with ENOTCONN |
| TicketShutdown.NoNewSleeper | core/10.4/fusefs/fuse_ipc.c:194-210 | In a dead session no step puts a thread to sleep on a ticket, and only the thread that owns aw_mtx flushes |
| TicketShutdown.RunKeepsWaiters | core/10.4/fusefs/fuse_device.c:211-290 | The invariant about sleepers holds after every run, through the death of the session |
| TicketTwice.ReleasedTwiceExactly | core/10.4/fusefs/fuse_ipc.c:194-208 | Whenever a step kills a live session with an idle thread: some run from there releases the current use of a ticket twice if and only if its requester was about to wait, no outcome was recorded, and the reply was with a writer or still owed |
| TicketTwice.DeadRunReleasesOnce | core/10.4/fusefs/fuse_ipc.c:921-945 | The invariant of a dead session under which a use is released at most once holds after every run |
| TicketDangling.ReleasedWhileReferredTo | core/10.4/fusefs/fuse_ipc.c:194-208 | In every run, live or dead: if a ticket on the answer queue or in the hand of a flush has been released, freed or put on the free list, then its requester has found the session dead while that was so |
| TicketDangling.FreedWhileReferredToExactly | core/10.4/fusefs/fuse_ipc.c:600-626 | Such a ticket is freed by a step if and only if that is the decision of fuse_ticket_drop and the ticket is FT_KILLL or the free list is full; and only after its requester has found the session dead so |
| TicketDangling.FindingDeadReleases | core/10.4/fusefs/fuse_ipc.c:194-208 | From there the requester can go on to drop the ticket, which stays on the answer queue, and it is freed there if and only if it must die at that point |
| TicketWitness.FlushMeetsFreed | core/10.4/fusefs/fuse_device.c:248-260 | From every fresh session with two threads, a run to a flush whose next step takes a freed ticket off the answer queue |
| TicketWitness.FreedUnderTheSecond | core/10.4/fusefs/fuse_ipc.c:600-626 | From every fresh session with two threads, a run to two releases of one use, of which the first has freed the ticket that the second goes on to look at |
| TicketWitness.TwiceInSightIsReachable | core/10.4/fusefs/fuse_ipc.c:1036-1037 | From every fresh session with two threads a live run leads to a state in which the death of the session lets a use be released twice |
| TicketInitWait.StrandedExactly | core/10.4/fusefs/fuse_ipc.c:479-499 | In every interleaving: a thread that sleeps for FUSE_INIT in a dead session stays asleep through everything but a signal to it or the end of the handshake if and only if it is not the case that fdata_set_dead killed the session and has its wake-up still to come |
| TicketClosing.AwMtxExcludes | core/10.4/fusefs/fuse_ipc.c:194-215 | From its checks to its sleep a requester excludes every other thread that would answer its ticket, look whether it is answered, or give it up |
| TicketClosing.PanicIsNoStep | core/10.4/fusefs/fuse_ipc.c:512-664 | A run ends where the code panics: no dirty ticket is queued, and no fetch goes on with an empty free list, or with one that a pop leaves empty, if the counter says otherwise |
| TicketClosing.DeadRequestIsRefused | core/10.4/fusefs/fuse_ipc.c:194-210 | A foreground request made in a dead session touches neither queue: its requester marks the ticket answered, releases it and returns ENOTCONN |
| TicketClosing.FlushedRequestFails | core/10.4/fusefs/fuse_device.c:248-260 | The requester whose ticket a flush has in hand wakes up, releases the ticket, and returns EIO |
| TicketClosing.NobodyElseIsAtTheQueue | core/10.4/fusefs/fuse_device.c:235-261 | While a flush owns aw_mtx, only taking tickets off its head changes the answer queue |
| TicketClosing.FailureKills | core/10.4/fusefs/fuse_ipc.c:583-594 | A request for which there are too many tickets, or whose wait for FUSE_INIT a signal has ended, kills the session, with the wake-up to come if it was alive, and goes on |
| TicketClosing.ReadFails | core/10.4/fusefs/fuse_device.c:360-395 | A read into too small a buffer kills the session without a wake-up; its message, like one that cannot be delivered or is taken in a dead session, is lost, and a FORGET released |
| TicketClosing.ReaderSleepsExactly | core/10.4/fusefs/fuse_device.c:312-343 | A reader sleeps exactly in a live session without messages, and takes none in a dead one |
| TicketClosing.ReaderWakes | core/10.4/fusefs/fuse_device.c:312-343 | A reader that has slept may leave, or take the oldest message, even of a dead session |
| TicketWitness.StrandedByTheReader | core/10.4/fusefs/fuse_device.c:366-371 | From every fresh session with three threads: a run in which a thread is asleep for FUSE_INIT, and goes on to the death of the session by fuse_device_read, after which nothing but a signal or the handshake wakes it |
| TicketWitness.StrandedAfterTheWakeUp | core/10.4/fusefs/fuse_ipc.c:583-594 | The same for a thread that falls asleep after the one wake-up of fdata_set_dead |
| TicketRefinement.DropAddsUp | core/10.4/fusefs/fuse_ipc.c:600-626 | The steps of an undisturbed fuse_ticket_drop always go through and change the session memory as DropTicket does |
| TicketRefinement.WriteAddsUp | core/10.4/fusefs/fuse_device.c:440-468 | The steps of an undisturbed fuse_device_write change the session memory as the method DeviceWrite does |
| TicketRefinement.FetchAddsUp | core/10.4/fusefs/fuse_ipc.c:558-597 | The steps of an undisturbed fuse_ticket_fetch that does not panic change the session memory as the method TicketFetch does, and lead to waiting, giving up, or going on as it tells |
| TicketRefinement.ConcludeAddsUp | core/10.4/fusefs/fuse_ipc.c:1036-1102 | The steps of an undisturbed end of fdisp_wait_answ change the session memory as the method ConcludeWait does, and leave the requester with the answer exactly if that returns 0 |
| TicketRefinement.FlushAddsUp | core/10.4/fusefs/fuse_device.c:248-260 | The steps of an undisturbed flush that finds no destroyed ticket on the queue end, use no freed memory, and change the session memory as the method FlushAnswerQueue does |
| Session.FuseData.TicketFetch | core/10.4/fusefs/fuse_ipc.c:558-597 | Takes the head of the free list, or allocates and lists a new ticket; tells whether it must wait for FUSE_INIT and whether there are too many tickets |
| Session.FuseData.TicketDrop | core/10.4/fusefs/fuse_ipc.c:600-626 | Destroys the ticket and its mutex, or refreshes and recycles it; lists, links and counters follow |
| Session.FuseData.RemoveAllTicks | core/10.4/fusefs/fuse_ipc.c:539-543 | Unlinks the ticket and counts it as dead |
| Session.FuseData.PopFreeTicks | core/10.4/fusefs/fuse_ipc.c:512-527 | Follows the link of the first free ticket and lowers the counter: computes PopFree |
| Session.FuseData.PushFreeTicks | core/10.4/fusefs/fuse_ipc.c:503-509 | Clears the link of the ticket and makes the last one link to it: computes PushFree, also for a ticket that is on the list already |
| Session.FreeList.InsertTail | core/10.4/fusefs/fuse_ipc.c:503-509 | STAILQ_INSERT_TAIL on the links: what a walk finds afterwards, and that it loops exactly if the ticket was the last one |
| Session.FuseData.InsertCallback | core/10.4/fusefs/fuse_ipc.c:646-657 | In a live session sets the handler and appends to the answer queue; in a dead one does nothing |
| Session.FuseData.InsertMessage | core/10.4/fusefs/fuse_ipc.c:660-679 | Marks the ticket dirty and, in a live session, appends it to the message queue |
| Session.FuseData.WaitAnswer | core/10.4/fusefs/fuse_ipc.c:194-210 | The checks before the sleep: answered, dead (then marked answered), or must sleep |
| Session.FuseData.ConcludeWait | core/10.4/fusefs/fuse_ipc.c:1036-1102 | The end of fdisp_wait_answ: the error of the wait, EIO, or the error of the reply; the ticket is kept with an answer, left to the writer of the reply, or dropped |
| Session.FuseData.ForgetHandler | core/10.4/fusefs/fuse_ipc.c:1056-1069 | The search of the answer queue clears the handler of an unchanged ticket and of no other |
| Session.FuseData.PopMessage | core/10.4/fusefs/fuse_device.c:312-343 | Takes the oldest message if the session is alive or the reader has slept, else nothing |
| Session.FuseData.TakeFromAnswerQueue | core/10.4/fusefs/fuse_device.c:444-454 | The search by unique number finds a ticket exactly if one is queued, and unlinks that one |
| Session.FuseData.StandardHandle | core/10.4/fusefs/fuse_ipc.c:921-945 | Records the outcome and wakes the requester, or drops the ticket if it was answered already |
| Session.FuseData.DeviceWrite | core/10.4/fusefs/fuse_device.c:440-468 | A whole reply, with no destroyed ticket on the queue: unknown numbers change nothing; otherwise handler or drop |
| Session.FuseData.FlushAnswerQueue | core/10.4/fusefs/fuse_device.c:248-260 | If no queued ticket has been destroyed: exactly the queued tickets are answered with ENOTCONN; the queue is empty; nothing else changes |
| Session.FuseData.Destroy | core/10.4/fusefs/fuse_ipc.c:459-461 | The loop ends having destroyed each listed ticket once, in list order |
| Session.FuseTicket.Refresh | core/10.4/fusefs/fuse_ipc.c:155-172 | Clears flags and results, keeps the handler, adds one to the 32-bit age |
| HashTheorems.OneHNodePerFile | core/10.4/fusefs/fuse_nodehash.c:395-665 | Whenever gHashMutex is free: at most one HNode for each (dev, ino), in the bucket of its key, linked once |
| HashTheorems.CountsAgree | core/10.4/fusefs/fuse_nodehash.c:75-109 | forkVNodesCount is filled slots plus one for an outstanding attach, positive exactly while the HNode is in the table, zero exactly while one thread scrubs it; gHashNodeCount is the number of HNodes in all buckets |
| HashTheorems.NoLostWakeup | core/10.4/fusefs/fuse_nodehash.c:504-524 | A thread asleep on an HNode: it is in the table, has waiting and attachOutstanding set, and some thread is to end the attach |
| HashTheorems.AttachEndWakesAll | core/10.4/fusefs/fuse_nodehash.c:702-717 | Either end of an attach wakes every sleeper of that HNode and clears both flags |
| HashTheorems.AttachIsExclusive | core/10.4/fusefs/fuse_nodehash.c:602-622 | From success without a vnode to the matching attach call: nobody else has an attach on the HNode, it stays in the table with its key, the index is in range and the slot is NULL |
| HashTheorems.AssertsHold | core/10.4/fusefs/fuse_nodehash.c:753-877 | The asserts of attach, detach, decrement and scrub never fire, among them assert(!waiting) |
| HashTheorems.LookupFindsTheVnode | core/10.4/fusefs/fuse_nodehash.c:622-665 | A lookup that returns a vnode returns the one attached at its index to the one HNode of its key, for as long as the reference is held |
| HashLookup.TurnExactly | core/10.4/fusefs/fuse_nodehash.c:500-650 | A turn of a lookup whose HNode is in the table: an outstanding attach is waited for and the wish recorded; an index beyond the array asks for a buffer, or grows the array by NULLs with the old vnodes in place; a NULL slot gives the attach token and counts it; a vnode is the candidate, and nothing changes |
| HashLookup.MissingTurnExactly | core/10.4/fusefs/fuse_nodehash.c:416-498 | A turn of a lookup whose HNode is not in the table asks for an HNode, or puts its own at the head of its bucket, with NULLs up to the index, and has the token |
| HashLookup.LookupOfASlotEnds | core/10.4/fusefs/fuse_nodehash.c:602-650 | An undisturbed lookup that finds its slot is asleep after one step if an attach is outstanding, has the token after one if the slot is NULL, and otherwise has the vnode after two if and only if that is not being reclaimed |
| HashLookup.LookupPastTheEndEnds | core/10.4/fusefs/fuse_nodehash.c:525-600 | An undisturbed lookup beyond the array has the token after four steps, or two if it has a buffer; a failed allocation ends it |
| HashLookup.LookupOfANewFileEnds | core/10.4/fusefs/fuse_nodehash.c:416-498 | An undisturbed lookup of a new file has the token of the HNode it inserts after three steps, or one if it has the HNode already; a failed allocation ends it |
| HashLookup.LookupEnds | core/10.4/fusefs/fuse_nodehash.c:362-665 | From every reachable state an undisturbed lookup whose allocations succeed, of a vnode that is not being reclaimed, ends within five steps: with the vnode or the token for just its key and index, or asleep |
| HashLookup.OnlySleepersWait | core/10.4/fusefs/fuse_nodehash.c:504-524 | In every reachable state a thread can take a step if and only if it is not asleep on an HNode, and the attach that a sleeper waits for can be ended |
| HashLookup.SucceedExactly | core/10.4/fusefs/fuse_nodehash.c:753-780 | The new vnode takes exactly the slot that was asked for, with a reference for its thread; both flags are cleared and exactly the sleepers of that HNode look again |
| HashLookup.FailExactly | core/10.4/fusefs/fuse_nodehash.c:783-810 | A failed attach leaves every slot as it was, takes its one count back, wakes exactly the sleepers, and unlinks the HNode exactly if that was its last count |
| HashLookup.DetachExactly | core/10.4/fusefs/fuse_nodehash.c:813-853 | Exactly the slot of the vnode is emptied and one count taken back; the HNode leaves the table exactly if that was its last |
| HashLookup.ScrubFrees | core/10.4/fusefs/fuse_nodehash.c:855-877 | The scrubbed HNode, which is in no bucket, is freed, and nothing else |
| HashTheorems.FreedHNodeIsUnused | core/10.4/fusefs/fuse_nodehash.c:855-877 | When an HNode is scrubbed only a lookup inside vnode_getwithvid can still have its address, and that call fails |
| HashTheorems.RunIsGood | core/10.4/fusefs/fuse_nodehash.c:362-877 | The invariant of table, counts, vnodes and threads holds after every run |
| HashMemory.FindsFirst | core/10.4/fusefs/fuse_nodehash.c:404-414 | The walk along a chain finds an HNode of the key, or there is none on it |
| HashInvariant.InsertKeepsTable | core/10.4/fusefs/fuse_nodehash.c:466-496 | Inserting an HNode for a key that has none keeps the table well formed, keys unique and the count right |
| HashInvariant.UnlinkKeepsTable | core/10.4/fusefs/fuse_nodehash.c:738-746 | Unlinking keeps all that and touches no other HNode |
| HashInvariant.GrowKeeps | core/10.4/fusefs/fuse_nodehash.c:525-600 | Swapping in a bigger fork array keeps every vnode at its index and every count |
| NodeHash.HNodeTable.LookupTurn | core/10.4/fusefs/fuse_nodehash.c:395-665 | One turn of the lookup loop, in place, computes the turn of HashLookup.TurnExactly and HashLookup.MissingTurnExactly |
| NodeHash.HNodeTable.FindInChain | core/10.4/fusefs/fuse_nodehash.c:404-414 | The chain walk returns the first HNode of the key |
| NodeHash.HNodeCell.SwapBuffer | core/10.4/fusefs/fuse_nodehash.c:564-586 | The new array holds the old vnodes followed by NULLs and takes the place of the old one |
| NodeHash.HNodeCell.ForkIndexOf | core/10.4/fusefs/fuse_nodehash.c:820-832 | The first index of the vnode, or the size of the array |
| NodeHash.HNodeTable.ForkVNodeDecrement | core/10.4/fusefs/fuse_nodehash.c:725-750 | Lowers the count and unlinks the HNode exactly when it reaches zero |
| NodeHash.HNodeTable.AttachVNodeSucceeded | core/10.4/fusefs/fuse_nodehash.c:753-780 | Ends the attach, stores the vnode, and tells whether to wake sleepers |
| NodeHash.HNodeTable.AttachVNodeFailed | core/10.4/fusefs/fuse_nodehash.c:783-810 | Ends the attach and gives the count back, possibly unlinking |
| NodeHash.HNodeTable.DetachVNode | core/10.4/fusefs/fuse_nodehash.c:813-853 | Clears the vnode's slot and gives the count back, possibly unlinking |
| LockOrder.OneWay | core/10.4/fusefs/fuse_locking.c:115-139 | fusefs_isordered is total, and antisymmetric exactly on pairs that are not each other's parent |
| LockOrder.ParentFirst | core/10.4/fusefs/fuse_locking.c:115-139 | A parent goes before its child, fusenodes that are not related go by address, NULL goes first and the sentinel last |
| LockOrder.EachOnce | core/10.4/fusefs/fuse_locking.c:156-189 | The list of fusefs_lockfour has every argument exactly once, though the relation is not transitive |
| LockOrder.NoRepetitionExactly | core/10.4/fusefs/fuse_locking.c:141-148 | Free of repetitions for all arguments if and only if no two fusenodes are each other's parent |
| LockOrder.Picks | core/10.4/fusefs/fuse_locking.c:176-184 | The merge stays in the bounds of its arrays and ends after four turns |
| LockOrder.ListIsIncreasing | core/10.4/fusefs/fuse_locking.c:176-189 | When the relation is transitive the list is strictly increasing |
| LockOrder.PairInOrderExactly | core/10.4/fusefs/fuse_locking.c:84-97 | fusefs_lockpair goes by the order of fusefs_isordered except exactly when its second argument is the parent of the first and has the higher address |
| LockOrder.NoWaitCycle | core/10.4/fusefs/fuse_locking.c:45-202 | Threads each inside one fusefs_lock, one fusefs_lockfour, or one fusefs_lockpair on two non-directories never wait for each other in a circle, if the relation is transitive |
| LockOrder.NoWaitCycleExactly | core/10.4/fusefs/fuse_locking.c:115-202 | Calls of fusefs_lockfour are free of wait cycles if and only if the relation is transitive on the fusenodes in play |
| LockOrder.NotTransitiveInGeneral | core/10.4/fusefs/fuse_locking.c:130-138 | Three fusenodes on which the relation is not transitive |
| Locking.Locker.Lock | core/10.4/fusefs/fuse_locking.c:45-66 | Holds the lock once more, or fails with ENOENT for a deleted fusenode and holds it as before |
| Locking.Locker.LockPair | core/10.4/fusefs/fuse_locking.c:73-110 | Both fusenodes or neither; a single one once; the locks are taken in the order of LockOrder.PairFirst |
| Locking.Locker.LockFour | core/10.4/fusefs/fuse_locking.c:151-202 | Fails exactly if some argument is deleted and the lock is not forced; failure leaves no lock held; success holds each distinct argument once more; the locks are taken in the order of the lock list, up to the first that cannot be had |
| Locking.Locker.UnlockFour | core/10.4/fusefs/fuse_locking.c:276-314 | Releases each distinct argument once: exactly what success took |
| Locking.Locker.UnlockPair | core/10.4/fusefs/fuse_locking.c:263-269 | Releases both, and a single one once |
| Locking.Locker.MergeLists | core/10.4/fusefs/fuse_locking.c:178-184 | The loop over the arrays computes the lock list within bounds |
| Locking.ListHasAll | core/10.4/fusefs/fuse_locking.c:178-184 | No argument is dropped from the list, whatever the relation |
| DirRecords.CookedFits | core/10.4/fusefs/fuse_internal.c:607-617 | A cooked record is never longer than its raw one |
| DirRecords.DecodeEncode | core/10.4/fusefs/fuse_kernel.h:423-434 | Reading a raw record back from its bytes, with anything behind it, gives the entry, its size, and what is behind it |
| DirRecords.Layout | core/10.4/fusefs/fuse_kernel.h:423-434 | Where each field of a raw record is |
| ReadDir.ProcessTakesAll | core/10.4/fusefs/fuse_internal.c:550-657 | An audited reply of whole entries and an incomplete tail is taken whole, without an error: one record for each entry, in order, with its name, the low 32 bits of its inode number and the low 8 of its type, or 0 and DT_WHT if the name is hidden, and a length padded to four bytes; resid goes down by those lengths, and the test of resid never cuts it |
| ReadDir.ProcessStops | core/10.4/fusefs/fuse_internal.c:585-620 | What comes behind whole entries ends the reply as the code says: EINVAL for an empty name, EIO for one longer than MAXNAMLEN, and a normal stop if its record does not fit in resid; the entries before it are taken |
| ReadDir.ReadMovesOn | core/10.4/fusefs/fuse_internal.c:493-547 | One call returns the records of the entries k to n, each once, in order and with the fields of its entry, ends at the position before entry n, without an error; n > k if the request can hold entry k |
| ReadDir.PagingLosesNothing | core/10.4/fusefs/fuse_internal.c:493-547 | Successive calls with buffers of any sizes return the directory up to some entry, each entry once, in order and with its fields; if each call can hold the one raw entry at its own position, each gets at least one entry further |
| ReadDir.PagingEndsWithAll | core/10.4/fusefs/fuse_internal.c:493-547 | As many such calls as there are entries return the whole directory |
| ReadDir.ErrorIsReturned | core/10.4/fusefs/fuse_internal.c:512-535 | If the daemon serves the directory until it fails with an error, the call returns that error or has ended before, having moved on by whole entries, each with its fields; if the first request fails nothing is moved |
| ReadDir.TooLongIsRefused | core/10.4/fusefs/fuse_internal.c:536-540 | A reply longer than was asked for is refused with EIO, and nothing is moved |
| ReadDir.RequestsAreBounded | core/10.4/fusefs/fuse_internal.c:517-526 | No request is for more than the smaller of iosize and resid |
| ReadDir.UserIo.ProcessData | core/10.4/fusefs/fuse_internal.c:550-657 | The record loop with its four error exits, in place |
| ReadDir.UserIo.InternalReaddir | core/10.4/fusefs/fuse_internal.c:493-547 | The request loop, in place; it ends for every daemon |
| Strategy.WriteLoop | core/10.4/fusefs/fuse_internal.c:1026-1089 | On a normal end the daemon's file is the old one with the whole buffer written at the start offset; otherwise resid says how much of it is missing; it ends for any finite number of empty writes; every request asks for the smaller of iosize and what is left, where the last one got to; an error is one the daemon sent, or EINVAL for a boast |
| Strategy.WritesJoin | core/10.4/fusefs/fuse_internal.c:1080-1083 | Two writes that meet are one write |
| Strategy.WrittenBytes | core/10.4/fusefs/fuse_internal.c:1026-1089 | What a write leaves in every byte of the file |
| Strategy.DiffCheckExactly | core/10.4/fusefs/fuse_internal.c:1073-1078 | The test for too large a write never fires on a 32-bit kernel, and on a 64-bit one exactly for a claim of more than was given |
| Strategy.Buf.Read | core/10.4/fusefs/fuse_internal.c:938-1025 | A read before the end of the file fills the whole count the buffer had on entry with the file's bytes and then zeros, and all of the file's bytes if an empty reply means its end; it ends, never overruns, and reads at or after the end touch nothing; every request asks for the smaller of iosize and what is left of the buffer, where the last one got to; an error is one the daemon sent, or EIO for a reply that is too long |
| DeviceLife.DataIffOpenOrMounted | core/10.4/fusefs/fuse_device.c:163-208 | fdev->data is set exactly while the device is open or mounted, by one session; usecount is 0 or 1, and 1 exactly while one process opens, has, or closes the device |
| DeviceLife.DestroyedExactlyOnce | core/10.4/fusefs/fuse_device.c:230-289 | Every session is installed and alive while it is open or mounted, and otherwise has been destroyed exactly once |
| DeviceLife.MountCountIsRight | core/10.4/fusefs/fuse_vfsops.c:381-383 | fuse_mount_count is the number of mounted devices |
| DeviceLife.NobodyLeaves | core/10.4/fusefs/fuse_vfsops.c:375-379 | The branch of mount for a session that is not open is never taken |
| DeviceLife.OpenExactly | core/10.4/fusefs/fuse_device.c:138-208 | In every run: an open of a device that somebody uses is refused at once; any other is let in, and ends with a new session, open and not mounted, if the device is not mounted, and refused with the device as before if it is |
| DeviceLife.CloseExactly | core/10.4/fusefs/fuse_device.c:211-290 | A close can always go on and ends with a device nobody uses; the session stays, not open, if the device is mounted, and otherwise is destroyed once and out of its slot |
| DeviceLife.MountEntersExactly | core/10.4/fusefs/fuse_vfsops.c:348-383 | A mount is let in and counted if and only if there is a random number and the device is open and not mounted; otherwise nothing changes |
| DeviceLife.MountEndsExactly | core/10.4/fusefs/fuse_vfsops.c:485-503 | A mount that fails later is uncounted, and its session destroyed exactly if it has been closed meanwhile |
| DeviceLife.UnmountExactly | core/10.4/fusefs/fuse_vfsops.c:616-633 | The same for an unmount, which can always go on |
| DeviceLife.OpenIsAlone | core/10.4/fusefs/fuse_device.c:172-208 | While an open is in progress nobody else changes its device or its session |
| Device.DeviceTable.OpenDeviceEnter | core/10.4/fusefs/fuse_device.c:163-170 | EBUSY if the device is in use, else it is counted |
| Device.DeviceTable.OpenDeviceFinish | core/10.4/fusefs/fuse_device.c:174-205 | Succeeds exactly if the slot is empty: then it has a fresh session that is open and not mounted, and the use count stays; otherwise the slot keeps its session and the use count goes down by one |
| Device.DeviceTable.CloseDevice | core/10.4/fusefs/fuse_device.c:238-273 | Clears FSESS_OPENED; the session is destroyed once and leaves its slot exactly if it is not mounted; the use count stays |
| Device.DeviceTable.CloseDeviceDone | core/10.4/fusefs/fuse_device.c:277-287 | Gives the use count back |
| Device.DeviceTable.Mount | core/10.4/fusefs/fuse_vfsops.c:348-383 | EINVAL without a random number, ENXIO without a session, EALREADY if it is mounted; otherwise an open session is mounted and counted; nothing changes unless the mount is entered |
| Device.DeviceTable.MountFailed | core/10.4/fusefs/fuse_vfsops.c:485-503 | The error path: uncounts, unmounts, and takes a session that has been closed meanwhile out of its slot and destroys it |
| Device.DeviceTable.Unmount | core/10.4/fusefs/fuse_vfsops.c:616-633 | Unmounts and uncounts; a session that has been closed leaves its slot and is destroyed once |
| FileHandle.RunIsBalanced | core/10.4/fusefs/fuse_file.c:19-163 | After any run whose pick-ups were clean, fuse_fh_current is the number of slots in use, and every handle opened at the daemon is in one slot or has been released once |
| FileHandle.AllReleasedOnceExactly | core/10.4/fusefs/fuse_vnops.c:2539-2608 | When the vnode is reclaimed every handle has been released exactly once if and only if every pick-up in the run was clean |
| FileHandle.AllReleasedOnce | core/10.4/fusefs/fuse_vnops.c:2539-2608 | After clean pick-ups, in addition, fuse_fh_current is back to 0 |
| FileHandle.PickUpExactly | core/10.4/fusefs/fuse_vnops.c:1912-1946 | The creator's open keeps the balance if and only if its handle is still in the RDWR slot and the slot it moves it to is free |
| FileHandle.NoRunPanics | core/10.4/fusefs/fuse_file.c:39-43 | Both filehandle panics are unreachable, whatever the pick-ups |
| FileHandle.ReleasedTwice | core/10.4/fusefs/fuse_vnops.c:925-956 | A run in which the created vnode goes inactive first: its handle is released twice and fuse_fh_current is one too low |
| FileHandle.OpKeeps | core/10.4/fusefs/fuse_vnops.c:304-309 | Every vnop but an unclean pick-up keeps the balance |
| FileHandle.OpenUsesItsSlot | core/10.4/fusefs/fuse_vnops.c:1904-1989 | An open that is no pick-up gives one use more to the slot of its flags (RDONLY for a directory), or puts a new handle with count 1 there if it was free and the daemon agreed; no other slot changes, and a refused open changes nothing |
| FileHandle.CloseEndsOneUse | core/10.4/fusefs/fuse_vnops.c:217-312 | A close takes one use from the slot of its flags, and releases its handle exactly with the last one; no other slot changes |
| FileHandle.OpenThenClose | core/10.4/fusefs/fuse_vnops.c:1904-1989 | An open and a close with the same flags leave the slots as they were, and release the handle exactly if the slot was free before |
| FileHandle.CreateThenOpen | core/10.4/fusefs/fuse_vnops.c:1912-1946 | After create, the creator's open has its handle in the slot of its flags, and no other slot is in use |
| FileHandle.MmapUsesItsSlot | core/10.4/fusefs/fuse_vnops.c:1683-1762 | An mmap gives one use more to the slot it asks for, or a new handle there, after a refused read-write open a read-only one |
| FileHandle.ReadDirectoryBorrows | core/10.4/fusefs/fuse_vnops.c:2383-2440 | Reading a directory without a handle opens one and releases it again; with one it uses that |
| FileHandle.StrategyUsesAnyHandle | core/10.4/fusefs/fuse_internal.c:846-893 | Strategy uses a handle that fits its direction if there is one, and otherwise gets one and leaves it |
| FileHandle.InactiveReleasesAll | core/10.4/fusefs/fuse_vnops.c:925-956 | Inactivation leaves no handle in use, and each has been released once |
| FileHandle.FuseVnode.VnopOpen | core/10.4/fusefs/fuse_vnops.c:1912-1989 | Pick-up, another use of the slot of the open flags, or a new handle there, in place |
| FileHandle.FuseVnode.VnopClose | core/10.4/fusefs/fuse_vnops.c:217-312 | One use less, and the release of the handle with the last one |
| FileHandle.FuseVnode.VnopMmap | core/10.4/fusefs/fuse_vnops.c:1683-1762 | Another use or a new handle, with the one retry read-only |
| FileHandle.FuseVnode.VnopInactive | core/10.4/fusefs/fuse_vnops.c:925-956 | The loop over the slots releases every handle in use |
| LookupCount.RunLeaksExactly | core/10.4/fusefs/fuse_internal.c:1211-1315 | Over any run of lookup, mkdir, mknod, symlink and reclaim, for every node: references granted equal nlookup plus what FORGETs have given back plus one for each leaking reply |
| LookupCount.RunConserves | core/10.4/fusefs/fuse_internal.c:1211-1315 | A run conserves the references of every node if and only if none of its replies leaks |
| LookupCount.ConservedExactly | core/10.4/fusefs/fuse_vnops.c:1393-1583 | An operation conserves the references if and only if its reply passes the entry checks (or grants nothing, or is a lookup of an untyped entry) |
| LookupCount.AllGivenBack | core/10.4/fusefs/fuse_vnops.c:2610-2615 | When a node has no vnode left, all that was granted has been given back, except for one reference for each leaking reply |
| LookupCount.NeverForgetsTooMuch | core/10.4/fusefs/fuse_internal.c:1292-1315 | No node is ever forgotten more often than it was granted, leaks or not |
| LookupCount.LookupDoes | core/10.4/fusefs/fuse_vnops.c:1393-1583 | A lookup that yields a vnode holds one more reference to its node and gives none back; with an entry and no vnode it gives back the one it was granted; one that rejects the root keeps and gives back nothing; without an entry nothing changes; no other node is touched |
| LookupCount.NewEntryDoes | core/10.4/fusefs/fuse_internal.c:1211-1246 | The same for mkdir, mknod and symlink, which neither keep nor give back an entry that they reject |
| LookupCount.ReclaimDoes | core/10.4/fusefs/fuse_vnops.c:2610-2615 | A reclaim gives back exactly nlookup, and the vnode is gone |
| LookupCount.FuseMount.VnopLookup | core/10.4/fusefs/fuse_vnops.c:1393-1583 | Which replies are kept and which are given back; which error is returned for each kind of reply, among them EJUSTRETURN for a missing last component that is about to be made, and ENOTDIR for an inner one that is no directory or link and whose reference is kept |
| LookupCount.FuseMount.InternalNewEntry | core/10.4/fusefs/fuse_internal.c:1211-1246 | The same for new entries |
| Fiov.BufferIsBigEnough | core/10.4/fusefs/fuse_ipc.c:71-123 | After any calls: len <= allocated_size, allocated_size >= 160, and the credit tells how often the buffer has been spared |
| Fiov.ResizeExactly | core/10.4/fusefs/fuse_ipc.c:71-116 | An adjustment sets len to the size asked for unless it fails; when it fails; when the buffer is replaced, how large it is then, and what happens to the credit |
| Fiov.LastCallIsMet | core/10.4/fusefs/fuse_ipc.c:71-123 | After any calls, unless the last one failed: len is what it asked for, and the allocation holds it |
| Fiov.TrimsAreFarApart | core/10.4/fusefs/fuse_ipc.c:71-89 | Before a buffer is made smaller, at least the credit's number of oversized calls since it was last replaced have left it alone |
| Fiov.RecordsHaveRoomExactly | core/10.4/fusefs/fuse_internal.c:618-640 | The byte that directory reading writes behind a record is in the allocated buffer, for every directory, if and only if fuse_iov_permanent_bufsize is at least the size the buffer is made with |
| Fiov.FuseIov.AdjustCanFail | core/10.4/fusefs/fuse_ipc.c:92-116 | The new buffer state, ENOMEM exactly if a replacement is due and the allocator returns NULL (which FUSE_OSMalloc turns into a panic when it accounts memory), and accounted memory moves with the allocation |
| Fiov.FuseIov.RefreshIt | core/10.4/fusefs/fuse_ipc.c:119-123 | An adjustment to size 0, with its spending of credit; accounted memory moves with the allocation |
| Fiov.FuseIov.Teardown | core/10.4/fusefs/fuse_ipc.c:62-68 | The allocation is given back to the account |

## Left out

- TicketTheorems.ExactlyOnce: live sessions only (for the death see TicketTwice.ReleasedTwiceExactly), and it counts a caller that walks away from its ticket (`fuse_vnop_lookup` on a reply with node id 0, `fuse_internal_forget_send` after a failed entry, which starts a second ticket) as a third way for a use to end.
- TicketOutcome.AnswerIsASuccess: live sessions only; in a dead one the flush or the test of FSESS_DEAD takes the place of the reply (TicketClosing.FlushedRequestFails, TicketClosing.DeadRequestIsRefused).
- TicketTrip.RequestComesBack: for a message queue that is empty before; messages that are ahead are read first (TicketTrip.MessageIsRead).
- HashLookup.LookupEnds: other threads can make a lookup start over, and one that finds a vnode being reclaimed does so until that is detached.
- TicketTheorems.OnlyItsOwnHandler: assumes that the interrupted requester reaches the answer queue within 2^32 refreshes of its ticket.
- TicketCounts.FreeListMatchesItsCounter: for runs without a push of a ticket that is on the free list already; with such a push the counter can be wrong (TicketWitness.MismatchExactly).
- TicketQueues.LinkedOnce: about `Run`. Outside the age window the message and answer queues of `AnyRun` are sequences in which a ticket may occur twice, whatever the links do.
- LockOrder.NoWaitCycle: nested calls, `fusefs_lock_truncate` and readers that share a lock are not in it.
- What a step does that uses the memory of a freed ticket; the runs end there.
- Which sleeping reader a message or `fuse_wakeup_one` wakes: in the model a reader may wake at any time, with a message or without.
- The timeout alert (KUNC) and the release it drives: it marks the session dead and drops a queued ticket.
- `fuse_ticket_kill` (fuse_ipc.c:629-635), which `fdisp_make_canfail` calls when the buffer of a new request cannot be had (fuse_ipc.c:996-1001): it has no step.
- Handlers other than the standard one and NULL, the callback that sends a FORGET among them; FUSE_INTERRUPT messages are FORGET-style uses.
- The memory of a destroyed ticket being handed out again as another ticket; ticket numbers do not wrap around.
- The contents of messages and the table of sizes in `fuse_body_audit`, except the bound on reads and directory replies.
- A daemon that answers a message twice, or answers a FORGET.
- The kernel's own calls: vnode life cycle, UBC, cluster layer, kauth and kqueue. A vnode is reclaimed only without references, and `vnode_getwithvid` fails once reclaiming has begun.
- HNodeLookupRealQuickIfExists, which only reads the hash and takes a vnode reference; HNodeExchangeFromFSNode; HNodePrintState; HNodeTerm; the type and generation checks after a lookup.
- Failed assertions on magic numbers, and sizes of fork arrays beyond the address space.
- Errors of uiomove and the count of entries (numdirent) in directory reading; the name cache behind ._ files is a set of hidden names.
- The order of the bytes that a reallocated iov holds; several iovs sharing one account follow from the change each call makes to it.
- What a strategy write does after the daemon has claimed more than it was given on a 32-bit kernel; the file handle it uses is in `FileHandle`.
- The direct_io write loop, procfs, sysctl and the other file systems of the repository; out-of-range device units.
- Dead or revoked vnodes in the handle and lookup counts; `fuse_vnop_create` in the lookup count; several vnops on one vnode at the same time in the handle count.
- aux_count, open flags, pid, random numbers and mount options, which decide nothing that is modelled.
