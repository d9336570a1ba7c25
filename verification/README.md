# The open-context protocol of the NDIS protocol driver

This project models the NDIS 6 protocol driver under `sys/` and proves what its code keeps. The centre is
`NDISPROT_OPEN_CONTEXT`: one structure that read and write dispatch, cancel routines, receive and send-complete
callbacks, OID requests, bind, unbind, pause and power events, cleanup and close share. It holds a hand-kept
reference count, two in-flight counters, three queues, a closing event, a bind state inside a flags word and a pause
state; all of it is correct only because increments, tests, list edits and decrements happen in a certain order
around one spin lock and one atomic exchange of cancel routines.

## How the model is built

* `Protocol` gives the context as a value and one function for every atomic action: a section under the spin lock, an
  interlocked operation, or a call into NDIS or the I/O manager. A thread is a program counter with its local
  variables. An oracle bit stands for allocation failures, NDIS results and name matches.
* `Runs` lets any number of threads take these actions in any order, with the calls that NDIS and the I/O manager
  make in between. Its guards are the environment contract: NDIS serialises the bind, unbind and plug-and-play
  handlers of a binding, completes each net buffer list it was given once, ends the close of an adapter only when no
  receive indication is running, and restarts only a paused binding; the I/O manager sends one Cleanup and then one
  Close per file object, the Close after every IRP on it has been completed, whether or not the dispatch routine has
  returned, no Cleanup while the OPEN_DEVICE of the same file object runs, and no OPEN_DEVICE after Cleanup has begun;
  `IoCancelIrp` sets `Cancel` before it exchanges the routine with NULL; an event stays signalled until it is
  initialised again. Clients are free: they may use a file object while its own OPEN_DEVICE runs. `State` is stored
  without the lock, so every comparison with it is a load of its own. A run ends where a thread is about to access a
  freed context through `FsContext`.
* `Laws` weighs every program counter and balances the sum against the context: fourteen conservation laws (the
  reference count, both in-flight counters, and for each IRP, packet, lock holder and file object the number of places
  where it is) that one action of one thread keeps. `Invariant`, `Actions` and `Preserve` add the rest of the
  inductive invariant and carry it through every step; `Theorems` states the results for all reachable states.
* `Alone` says what every routine does when no other thread moves: from any context, a thread that enters it leaves it
  with the one outcome stated, list for list and count for count. `Causes` says for every run why a thread stands where
  it stands: which earlier step sent it there and what that step found.
* `Freed` says exactly when a request that stands on nothing but the `FsContext` of its file object finds the context
  freed. `Moving` builds runs out of steps, and `Witnesses` uses it for concrete runs.
* `OpenContexts` holds the structure as the driver keeps it, a class whose fields are updated in place, with the flags
  word of `Flags`. Each method is a locked section or an interlocked operation and is proved to do to the abstract
  view what the action of `Protocol` does; the list walks are loops. `ServiceReads` and `FlushReceiveQueue` are whole
  routines, run without interference.
* `ScatterCopy`, `ReceiveChain` and `SendChain` are the loops over MDLs and linked net buffer lists, on arrays and on
  the heap. `Enumeration` is the binding query, the name lookup and the client loop that uses them. `AuditList` and
  `LockChecker` are the allocation list and the spin-lock checker of the debug build. `Lists` holds the list
  operations, `Wrappers` the two types that the modules share.

## What the code does not do

Eight claims that one might make of the driver are false. For each, `Witnesses` builds a run that ends in the bad
state, and theorems say when it happens.

* A read, write or OID request reaches the context through `FsContext` and has no reference of its own before it holds
  the lock (`sys/recv.c:56`, `sys/recv.c:86`, `sys/send.c:64`, `sys/send.c:131`, `sys/ndisbind.c:1150`). If it is
  dispatched while the OPEN_DEVICE of its file object waits for the packet filter, a failed filter takes the
  association and its reference away again (`sys/ntdisp.c:750-765`), an unbind frees the context, and the request finds
  it freed; a read that was cancelled before it was listed does so on its way into the service loop as well. This can
  happen if and only if the association was undone while the request ran, and at the dispatch the danger is there
  exactly as long as the filter request of the OPEN_DEVICE has not succeeded. Every access on another footing than
  `FsContext` finds the context allocated.
* A read that has been listed may be completed at once, by its cancel routine or by Cleanup, and then Close need not
  wait for its dispatch routine, which goes on into the service loop without a reference (`sys/recv.c:126-130`,
  `sys/recv.c:233`). It finds the context freed if and only if its read has been completed, its file object does not
  name the context any more, and nothing else holds the context.
* A packet whose indication overlaps a pause takes a reference that is never given back (`sys/recv.c:692-702`), so
  the context is never freed. It is freed at the end if and only if no packet was dropped that way, and that happens
  only to a packet that passed its first tests of `State` before a pause stored Pausing or Paused.
* The section of the queue path loads `State` twice, for `Paused` first (`sys/recv.c:696-697`), and pause stores
  `Paused` without the lock (`sys/ndisbind.c:381`). If the store comes between the two loads, the packet is queued while
  the state is Paused. A packet enters the queue in that state if and only if a thread that stood between its two loads
  at the store makes its second load in full power; there is at most one such packet.
* The cancel routine of a read is installed before the IRP names its context (`sys/recv.c:94`, `sys/recv.c:116`) and
  reads that name before it takes the lock (`sys/recv.c:174`). It finds NULL if and only if it runs while the
  dispatch routine is between the two.
* Shutdown reads `PendedSendCount` and then `ClosingEvent` without the lock (`sys/ndisbind.c:936-944`). It waits on
  NULL if and only if the last send or request finished between the two reads. A wait on the event itself is always
  woken.
* The flush in `NdisprotCleanup` is not counted by anything that shutdown waits for (`sys/ntdisp.c:453-458`), so it
  can still hold a packet when the adapter is closed. Nothing else can.
* `NdisprotCancelWrite` uses the binding handle, and reads the cancel identifier from the IRP, after it has left the
  lock (`sys/send.c:310`, `sys/send.c:331-333`). The send may have completed meanwhile, IRP included, and the handle may
  be closed. The handle is that of an open adapter if and only if shutdown has not passed `NdisCloseAdapterEx`, and
  until the write is completed shutdown has not.

The comment at `sys/ndisprot.h:95-98` says that one packet is queued; the code queues up to 4096
(`sys/ndisprot.h:272`), and the model follows the code.

## Model

| member | source | states |
|---|---|---|
| Theorems.ReferenceLedger | sys/ndisprot.h:110-117 | In every reachable state RefCount is the binding reference, plus one per file object tied to the context, listed read, queued packet and outstanding send, plus what threads hold in passing, plus one per packet dropped while pausing or paused; it is never below what a single thread holds |
| Theorems.NoUseAfterFree | sys/ntdisp.c:829-843 | A thread that is about to access the context otherwise than through the FsContext it was dispatched on finds it allocated, with a positive count (before the bind takes the first reference it is still zero) |
| Theorems.FreedExactly | sys/ntdisp.c:829-843 | The context has been freed if and only if the binding is gone, no file object is tied to it, no thread holds a reference, and none was leaked |
| Freed.FindsFreed | sys/recv.c:56-86 | Theorems.FreedExactly as seen from a file object: what stands on its FsContext finds the context freed if and only if the file object does not name it any more and nothing else holds it |
| Freed.UndoneWhileItRan | sys/ntdisp.c:750-765 | If the file object of a request whose IRP is not completed does not name the context any more, an OPEN_DEVICE on it was undone after the request was dispatched, and it was not tied to the context again since |
| Freed.SettledIsSafe | sys/ntdisp.c:708-765 | A request dispatched on a file object whose OPEN_DEVICE has returned, or at least has set the packet filter, finds the context allocated, whatever happens, until its IRP is completed |
| Freed.OpenDecides | sys/ntdisp.c:728-765 | Where a request and the OPEN_DEVICE of its file object are all that is under way, some run frees the context under the request if and only if the filter request of that OPEN_DEVICE has not succeeded yet |
| Freed.RequestFreedIff | sys/recv.c:56-86 | Where only the request is under way and no other file object is tied to the context, some run frees the context under the request if and only if its file object does not name the context any more |
| Freed.FreedIffUndone | sys/ntdisp.c:708-765 | In terms of the run, for the same states: the context can be freed under a request that was dispatched on a tied file object if and only if the association was undone, and not made again, while the request ran |
| Freed.FreedReadIsCompleted | sys/recv.c:126-130 | The dispatch routine of a listed read, on its way into the service loop, finds the context freed if and only if its read has been completed by someone else, its file object does not name the context any more, and nothing else holds it |
| Freed.ListedReadCanBeFreed | sys/recv.c:126-130 | Where only that dispatch routine is under way, its read has been completed, and some run always frees the context under it |
| Alone.OneOutcome | sys/recv.c:86-130 | A thread by itself comes to one end only, so each outcome below is the outcome |
| Alone.ReadIsListed | sys/recv.c:86-130 | Every read that comes to the lock under an ACTIVE binding and is not cancelled is listed at the tail, with one count and one reference, whatever else waits |
| Alone.ReadIsCancelled | sys/recv.c:96-108 | A read that was cancelled before it was listed is not listed and leaves nothing behind |
| Alone.ReadIsRefused | sys/recv.c:88-92 | A read that finds the binding not ACTIVE is completed by its dispatch routine, and nothing else changes |
| Alone.ReadIsCompletedLate | sys/recv.c:132-142 | A read that was cancelled before it was listed is completed by its dispatch routine after the service loop |
| Alone.CancelCompletesRead | sys/recv.c:172-200 | The cancel of a listed read unlinks it, completes it and gives back its count and reference |
| Alone.CancelOnlyMarks | sys/recv.c:96-97 | The cancel of a read whose routine has been taken changes nothing but its mark |
| Alone.CancelTakesNull | sys/recv.c:172-175 | The cancel of a read that does not name its context yet takes NULL for it |
| Alone.ServicePairs | sys/recv.c:233-369 | The service loop hands the queued packets, oldest first, to the reads that are not being cancelled, in list order, until either runs out, and leaves everything else alone |
| Alone.ReadMeetsPacket | sys/recv.c:86-369 | A read that comes when packets are queued and no read waits is completed with the oldest packet, which goes back, with both references |
| Alone.PacketMeetsRead | sys/recv.c:692-775 | A packet that comes when the queue is empty and reads wait completes the first of them that is not being cancelled |
| Alone.PurgeCancelsAll | sys/recv.c:971-1024 | CancelPendingReads completes every listed read, in list order, each with its count and reference, and changes nothing else, when no read is being cancelled |
| Alone.FlushGivesAllBack | sys/recv.c:1055-1086 | The flush gives back the whole queue, oldest first, each packet with its reference |
| Alone.PausedGivesBack | sys/recv.c:440-449 | A packet that comes in the state Pausing or Paused goes straight back; the context is not touched |
| Alone.PacketIsDropped | sys/recv.c:708-775 | A packet that meets a binding that is not ACTIVE or not in full power goes back with its reference |
| Alone.PacketIsQueued | sys/recv.c:708-763 | Any other packet stands at the tail of the queue, with its reference, and if 4096 stood there before, the oldest goes back; then the service loop runs |
| Alone.WriteIsSent | sys/send.c:131-205 | Every write that finds the binding ACTIVE, Running and in full power, and a net buffer list, is listed at the tail, counted, referenced and sent |
| Alone.WriteIsRefused | sys/send.c:131-150 | Any other write is completed by its dispatch routine, and nothing else changes |
| Alone.SendsAreCompleted | sys/send.c:380-437 | Each write of a completed chain is unlinked, freed, completed and counted down, with its reference; the last one of a closing binding signals the event |
| Alone.SendsOverSums | sys/send.c:380-437 | In all: the chain is appended to the completions, in order, and counter and RefCount fall by its length |
| Alone.CancelAsksNdis | sys/send.c:276-339 | The cancel of a write asks NDIS if and only if the write is still listed, and leaves nothing behind |
| Alone.RequestReturns | sys/ndisbind.c:1150-1211 | A request is counted while it runs, returns the answer of NDIS under an ACTIVE binding (in full power, if it belongs to an open or a cleanup) and a failure otherwise, and leaves the counter as it was |
| Alone.OpenTies | sys/ntdisp.c:686-745 | An open of a free device under an ACTIVE binding in full power ties the file object to the context with one reference |
| Alone.OpenIsRefused | sys/ntdisp.c:688-721 | An open of a device that is open, with a file object in use, or of an unknown name changes nothing |
| Alone.OpenIsUndone | sys/ntdisp.c:744-765 | An open whose filter request fails takes association and reference away again |
| Alone.CleanupEmpties | sys/ntdisp.c:411-459 | Cleanup frees the device for the next open, completes every listed read and empties the queue, whatever becomes of its OID request |
| Alone.CloseDrops | sys/ntdisp.c:340-360 | Close gives back the reference of the file object and changes nothing else |
| Alone.BindEnds | sys/ndisbind.c:451-700 | A bind in which every step succeeds ends listed, ACTIVE, Paused and in full power, with all resources and one reference |
| Alone.BindIsUndone | sys/ndisbind.c:676-700 | Whichever step fails, a bind ends unlisted and FAILED, with everything released and both references given back |
| Alone.UnbindEnds | sys/ndisbind.c:738-906 | With nothing counted an unbind completes every listed read, empties the queue, closes the adapter, releases everything and gives back the reference of the binding |
| Alone.UnbindWaits | sys/ndisbind.c:738-762 | With something counted it comes to the wait on a fresh event |
| Alone.UnbindResumes | sys/ndisbind.c:936-948 | Once the event is signalled it goes through to the same end |
| Alone.PauseEnds | sys/ndisbind.c:352-384 | A pause with nothing counted empties the queue and ends Paused |
| Alone.PauseWaits | sys/ndisbind.c:357-374 | While something is counted it waits in the state Pausing |
| Alone.PauseResumes | sys/ndisbind.c:366-384 | Once nothing is counted any more it ends in the same way |
| Alone.RestartRuns | sys/ndisbind.c:385-406 | A restart makes the state Running and changes nothing else |
| Alone.PowerIsSet | sys/ndisbind.c:307-340 | After a power-up the device is in D0 and nothing else has changed; after a power-down it is not, and the queue has been given back |
| Causes.ReadRefused | sys/recv.c:88-108 | In every run: a read is completed by its dispatch routine only if the binding was not ACTIVE when it came to the lock, or its Cancel was set before it was listed |
| Causes.WriteRefused | sys/send.c:131-170 | A write is completed by its dispatch routine only if, at its section, the binding was not ACTIVE, not Running or not in full power, or no net buffer list could be allocated |
| Causes.PacketCame | sys/recv.c:440-763 | A packet that the receive path gives back was tested while the binding was pausing or paused, met one that was not ACTIVE or not in full power, or was the oldest of a full queue; one that comes to the lock has passed both early tests |
| Causes.TurnedAwayMeetsPause | sys/recv.c:440-702 | A packet that is turned away under the lock, and leaks its reference, met a pause: between its first test of State and that moment a pause, or the end of a bind, stored Pausing or Paused |
| Causes.SteadyStateLeaksNothing | sys/recv.c:440-702 | Where State stays as it is from before the indication of a packet on, the packet is not turned away |
| Causes.OpenRefused | sys/ntdisp.c:686-765 | An OPEN_DEVICE is refused only for a device that is open or a file object in use, and undone only if its filter request failed or found the binding not ACTIVE |
| Causes.LeftFor | sys/recv.c:975-1063 | A purge leaves its loop only when no read is listed, a flush only when the queue is empty, a service thread only when there is nothing to serve, and NDIS is asked to cancel a send only for a write that is listed |
| Theorems.ListedIsHeld | sys/ndisbind.c:844-857 | A context on the global list still has its binding reference, so a lookup can take another |
| Theorems.FreedContext | sys/ntdisp.c:829-843 | The context is freed at most once, and then it is off the list, without handle, file object, reads, packets, sends or bind resources, and nothing was leaked |
| Theorems.FreedUnlessLeaked | sys/recv.c:692-702 | When the binding is gone, every thread has returned and every file object is closed, the count equals the number of leaked references, and the context has been freed if and only if that number is zero |
| Theorems.FreedUnlessTurnedAway | sys/recv.c:692-702 | In terms of the run: when everything is over, what is left of the count is the number of packets that one of the two loads of State turned away under the lock, and the context has been freed if and only if the run turned none away |
| Theorems.HistoriesOnlyGrow | sys/recv.c:714-750 | No step of a run takes anything out of the histories of completions, of the queue, of returned packets and of freed net buffer lists, so what the other rows count stays counted |
| Theorems.LockExcludes | sys/recv.c:86-126 | While one thread holds the lock between two of its actions, no other thread moves the three lists, their counters, the closing event, the bind state or the association, or looks at the lists |
| Theorems.ReadInOnePlace | sys/recv.c:115-119 | Every read IRP ever issued is in exactly one place: listed, in the hands of one thread, or completed by one of ServiceReads, CancelRead, CancelPendingReads and the dispatch routine |
| Theorems.PendingReadCompletedOnce | sys/recv.c:975-1024 | A read is completed at most once; one that returned PENDING never by its dispatch routine, one that did not only by it |
| Theorems.ListedReadClaimedOnce | sys/recv.c:172-190 | A listed read has its cancel routine if and only if no cancel routine is on its way to unlink it, and there are never two on their way |
| Theorems.FetchFindsNull | sys/recv.c:94-116 | The cancel routine finds no context in the IRP if and only if the dispatch routine holds the lock between installing the routine and listing the IRP |
| Theorems.PurgeDecides | sys/recv.c:975-1018 | A purge thread at the lock leaves if and only if no read is listed, takes the first one if and only if that has its cancel routine, and otherwise waits for a cancel routine that is on its way to unlink it |
| Theorems.ReadsInFlight | sys/recv.c:361-362 | PendedReadCount is the number of listed reads plus the reads that service and purge threads have unlinked and not counted down |
| Theorems.PacketInOnePlace | sys/recv.c:282-287 | Every packet that entered the queue path is queued, held by one thread, or given back, in exactly one of these and given back at most once |
| Theorems.QueueIsFifo | sys/recv.c:714-750 | Everything that ever entered the queue is, in order, what left it followed by what is in it; the counter is its length and at most 4096 |
| Theorems.TrimDropsOldest | sys/recv.c:739-761 | A packet is appended, and when the queue is full the oldest one is taken out for disposal |
| Theorems.WorkConservation | sys/recv.c:126-130 | If a packet is queued and a read that is not being cancelled is listed, some thread will still look at both |
| Theorems.WriteInOnePlace | sys/send.c:171-205 | Every write IRP is in exactly one place and completed at most once |
| Theorems.PendingWriteCompletedBySendComplete | sys/send.c:395-424 | A write that went pending is completed by SendComplete only, any other by its dispatch routine only |
| Theorems.SendNblFreedOnce | sys/macros.h:124-130 | The net buffer list of a write is freed at most once and before the write is completed, and no thread that still has to read it finds it freed |
| Theorems.CancelWriteFindsContext | sys/send.c:276-286 | A context named in a write IRP is held by an outstanding send, and a write with a cancel routine always names one |
| Theorems.OnlySendCompleteCompletes | sys/send.c:308-339 | No action but the one of SendComplete completes a pending write, and that one completes the head of its chain; CancelWrite completes nothing |
| Theorems.SendsInFlight | sys/send.c:426-427 | PendedSendCount is the number of outstanding writes plus the running OID requests |
| Theorems.ClosingEventExact | sys/ndisbind.c:748-757 | ClosingEvent is set if and only if the binding is CLOSING and something is counted, it is not signalled then, and it is NULL when shutdown is over |
| Theorems.LastDecrementSignals | sys/send.c:426-435 | The thread that counts down to zero while the binding is closing finds the event, signals it and takes it away |
| Theorems.NothingEntersAfterClosing | sys/ndisbind.c:752-757 | From CLOSING on no step raises a counter, fills the empty queue or makes the binding ACTIVE again |
| Theorems.WaitIsWoken | sys/ndisbind.c:936-948 | A shutdown that waits on the event is woken exactly when nothing is counted any more |
| Theorems.WaitLoadsNull | sys/ndisbind.c:936-944 | After its test shutdown loads a NULL event if and only if the count has reached zero in between |
| Theorems.DrainedBeforeClose | sys/ndisbind.c:738-820 | When shutdown reaches NdisCloseAdapterEx both counters are zero, the three lists are empty, NDIS owns no send, and no service, purge, send or request thread is inside its counted part |
| Theorems.HeldAtClose | sys/ndisbind.c:800-815 | When the adapter may be closed, a thread holds a packet if and only if it is the flush of a file object's cleanup, about to give that packet back |
| Theorems.CountedKeepsHandle | sys/ndisbind.c:936-964 | While anything is counted or queued the binding handle is open and the context listed and referenced |
| Theorems.HandleOpen | sys/ndisbind.c:820-830 | The handle is that of an open adapter exactly from the open of the adapter to NdisCloseAdapterEx, and its field is set exactly then and up to the next statement of shutdown |
| Theorems.CancelSendHandle | sys/send.c:308-333 | At the call of NDIS in CancelWrite the adapter is open if and only if shutdown has not passed NdisCloseAdapterEx; while the write is not completed it is open |
| Theorems.PauseBarrier | sys/ndisbind.c:352-384 | Once the state is Paused no write is outstanding anywhere, and the queue is empty but for at most one packet, whose thread stood between its two loads of State when Paused was stored |
| Theorems.EntersWhilePaused | sys/recv.c:696-731 | A packet enters the queue in the Paused state if and only if a thread whose first load came before the store of Paused makes its second load in full power under an ACTIVE binding; the queue is empty then |
| Theorems.PausedStays | sys/ndisbind.c:352-406 | Only the handlers of restart, of another pause and of unbind end the Paused state |
| Theorems.LowPowerQueueEmpty | sys/ndisbind.c:307-330 | After the flush of a power-down the queue stays empty until the device is in D0 |
| Theorems.BindSucceeds | sys/ndisbind.c:107-150 | A successful bind leaves the context listed, ACTIVE and Paused with its handle, held by the binding reference and the references of other users |
| Theorems.BindFails | sys/ndisbind.c:136-145 | A failed bind leaves it unlisted, FAILED, with all resources released and both bind references given back; it is freed if and only if nobody else holds it |
| Theorems.ExclusiveAssociation | sys/ntdisp.c:686-726 | At most one file object that has not been cleaned up is tied to the context, it is the one in pFileObject, and no file object is tied to two contexts |
| Laws.Conserve | sys/ndisprot.h:110-117 | One action of one thread keeps each of the fourteen balances, for every state in which the entries it unlinks are linked |
| Preserve.StepKeeps | sys/recv.c:86-130 | Every step of every run keeps the whole invariant |
| Preserve.ReachableInv | sys/ndisprot.h:110-117 | The invariant holds in every reachable state |
| Witnesses.ContextCanBeFreed | sys/ntdisp.c:829-843 | The guards leave the whole life of a context open: a run ends with the context freed |
| Witnesses.RequestDuringOpenFindsFreed | sys/ntdisp.c:708-765 | A run in which a read, a write or an OID request, dispatched during the OPEN_DEVICE of its file object, is about to take the lock of the freed context |
| Witnesses.CancelledReadFindsFreed | sys/recv.c:96-130 | The same for a read that was cancelled before it was listed, on its way into the service loop |
| Witnesses.ListedReadFindsFreed | sys/recv.c:126-130 | A run in which a listed read is cancelled and its file object closed, and its dispatch routine is about to reference the freed context |
| Witnesses.PausedQueueNotEmpty | sys/recv.c:696-697 | A run with a packet queued while the state is Paused |
| Witnesses.PausedPacketLeaksContext | sys/recv.c:692-702 | A run with one packet and one pause ends with everything over and the context not freed |
| Witnesses.CancelMayFindNullContext | sys/recv.c:172-175 | A run in which the cancel routine of a read takes NULL for its context |
| Witnesses.ShutdownMayWaitOnNull | sys/ndisbind.c:936-944 | A run in which shutdown waits on a NULL event |
| Witnesses.CleanupMayHoldPacketAtClose | sys/ntdisp.c:453-458 | A run in which the adapter is closed while a cleanup gives a packet back |
| Witnesses.CancelWriteMayOutliveHandle | sys/send.c:308-333 | A run in which CancelWrite is about to use a binding handle that is closed and an IRP that is completed |
| Flags.SetBindBits | sys/macros.h:191-195 | Setting the bind group makes the word decode to that state and leaves the open and unbind groups as they were |
| Flags.SetOpenBits | sys/ndisprot.h:174-176 | The same for the open group |
| Flags.SetUnbindBits | sys/ndisprot.h:190-191 | The same for the unbind group |
| Flags.BindTest | sys/macros.h:194-195 | Testing the bind group for a nonzero value says whether the binding is in that state |
| OpenContexts.OpenContext.RefOpen | sys/ntdisp.c:781-802 | Adds one reference and changes nothing else |
| OpenContexts.OpenContext.DerefOpen | sys/ntdisp.c:807-843 | Takes one reference and frees the context at zero |
| OpenContexts.OpenContext.ReadEnter | sys/recv.c:86-94 | Refines the first action of a read: the cancel routine is installed only under an ACTIVE binding |
| OpenContexts.OpenContext.ReadTest | sys/recv.c:96-108 | Refines the test of Cancel and the exchange: the dispatch routine keeps a cancelled read only if it got the routine back |
| OpenContexts.OpenContext.ReadList | sys/recv.c:115-126 | Refines the listing of a read with its reference and its count |
| OpenContexts.OpenContext.CancelReadUnlink | sys/recv.c:177-183 | Refines the section of the cancel routine |
| OpenContexts.OpenContext.ClaimFirst | sys/recv.c:244-274 | The walk takes the first listed read that still has its cancel routine, and nothing if there is none |
| OpenContexts.OpenContext.ServeSection | sys/recv.c:237-287 | Refines one pass of the service loop, which is left if and only if the queue is empty or every listed read has been claimed by a cancel |
| OpenContexts.OpenContext.ServeCountDown | sys/recv.c:361-364 | Refines the countdown and the pass that follows under the same lock, with the same exit condition |
| OpenContexts.OpenContext.ServiceReads | sys/recv.c:233-369 | Run alone, pairs the claimable reads in list order with the queued packets oldest first until either runs out, completes and returns exactly these, and gives back both references of each pair |
| OpenContexts.OpenContext.PurgeSection | sys/recv.c:975-1024 | Refines one look at the head of the list |
| OpenContexts.OpenContext.CancelPendingReads | sys/recv.c:971-1024 | Run alone while no read is being cancelled, completes every listed read in list order, with its count and reference, and leaves packets, sends, files and binding alone |
| OpenContexts.OpenContext.FlushSection | sys/recv.c:1059-1068 | Refines one pass of the flush |
| OpenContexts.OpenContext.FlushReceiveQueue | sys/recv.c:1055-1086 | Run alone, gives back the whole queue, oldest first, with one reference each |
| OpenContexts.OpenContext.EnqueueFirst | sys/recv.c:692-702 | Refines the first load of State under the lock |
| OpenContexts.OpenContext.EnqueueSection | sys/recv.c:697-763 | Refines the rest of the section of the queue path: the second load, then drop, queue, or queue and trim |
| OpenContexts.OpenContext.WriteEnter | sys/send.c:131-188 | Refines the section of a write |
| OpenContexts.OpenContext.ClearSent | sys/send.c:387-391 | Refines the clearing of the IRP under the cancel lock |
| OpenContexts.OpenContext.UnlinkSent | sys/send.c:393-397 | Refines the unlinking of a completed write |
| OpenContexts.OpenContext.UncountSend | sys/send.c:426-435 | Refines the countdown that sends and OID requests share |
| OpenContexts.OpenContext.CancelWriteEnter | sys/send.c:276-286 | Refines the part of the cancel routine under the cancel lock |
| OpenContexts.OpenContext.CancelWriteFind | sys/send.c:294-306 | The walk finds the write, and NDIS is asked next, if and only if it is listed |
| OpenContexts.OpenContext.RequestEnterSection | sys/ndisbind.c:1150-1169 | Refines the entry of a counted OID request |
| OpenContexts.OpenContext.AssociateFile | sys/ntdisp.c:686-726 | Refines the association of a file object with its two refusals |
| OpenContexts.OpenContext.UndoOpen | sys/ntdisp.c:750-765 | Refines the undo after a failed filter request |
| OpenContexts.OpenContext.CleanupSection | sys/ntdisp.c:444-449 | Refines the section of cleanup |
| OpenContexts.OpenContext.BindFailSection | sys/ndisbind.c:676-690 | Refines the failure of a bind before the adapter is open |
| OpenContexts.OpenContext.ShutdownSection | sys/ndisbind.c:738-762 | Refines the first section of shutdown: CLOSING, and an event if something is counted |
| OpenContexts.OpenContext.IdleSection | sys/ndisbind.c:831-837 | Refines the return of the flags to IDLE |
| OpenContexts.OpenContext.FreeBindResources | sys/ndisbind.c:863-906 | Afterwards both pools and the name are gone, whichever were there |
| OpenContexts.OpenContext.PauseSection | sys/ndisbind.c:357-366 | Refines the first section of a pause |
| OpenContexts.OpenContext.PauseStore | sys/ndisbind.c:381 | Refines the store of Paused outside the lock |
| ScatterCopy.CopyPacket | sys/recv.c:301-352 | The loop ends; the buffer holds what is to be delivered followed by what it held before, and Information is the number of bytes delivered |
| ScatterCopy.CoveredDelivery | sys/recv.c:311-321 | The read receives the smaller of its room and the data length if and only if the mapped part of the chain reaches that far, and then exactly that part of the flattened packet |
| ScatterCopy.DeliveredExactly | sys/recv.c:301-352 | In every case the read receives as many bytes as its room, the data length and the mapped part allow, and byte for byte those at the offset |
| ScatterCopy.StreamAt | sys/recv.c:301-310 | The packet is the bytes of its MDLs in order, and ends before the first one that cannot be mapped |
| ScatterCopy.CopyDeliversSame | sys/recv.c:562-612 | A private copy of one MDL delivers the same bytes as the original, for any room, offset and chain that covers the data |
| ReceiveChain.Offer | sys/recv.c:453-617 | A net buffer list is kept if and only if it passes the length tests, the miniport lets it pend and a read waits; what arrives on the queue path is then itself without the flag of a private copy, or a flagged copy if it passes the tests, one of the other two fails and the copy can be made and filled, or nothing |
| ReceiveChain.OfferCopy | sys/recv.c:562-617 | A private copy that is made is handed over, flagged, if it can be filled, and freed if it cannot |
| ReceiveChain.ReceiveNetBufferLists | sys/recv.c:431-653 | The chain that goes back is, relinked in place, what is not kept, in indication order, it is whole though other threads relink what has been handed over, and it holds no private copy; the queue path receives the kept originals and flagged copies of the others, in indication order; the copies made are, one for one, those handed over and those freed; a stopped binding returns the chain as it came, or nothing with CANNOT_PEND |
| ReceiveChain.HandedOrFreed | sys/recv.c:582-617 | From that balance: each private copy made has been handed over or freed, and not both, and nothing else has been handed over as a copy or freed |
| ReceiveChain.Fate | sys/recv.c:453-645 | For each position: the original is queued if and only if it is interesting, may pend and a read waits; a private copy if and only if it is interesting, must not pend or meets no read, and the copy can be made and filled; an original that is not queued goes back if the miniport gave it away |
| ReceiveChain.InterestingExactly | sys/recv.c:468-535 | It is interesting if and only if it is no loopback and its first buffer is mapped, not empty, and holds 14 bytes from its offset on, 18 with a tag, or the offset lies beyond the buffer and the unsigned subtraction wraps |
| ReceiveChain.NoReadKeepsNothing | sys/recv.c:560-566 | Where no read waits no original is kept, and with CAN_PEND every one goes back |
| ReceiveChain.ReadsKeepAll | sys/recv.c:560-617 | Where a read always waits, all pass the tests and may pend, every one is kept and none goes back |
| ReceiveChain.ReadsQueueAll | sys/recv.c:560-617 | In the same case every one is queued itself, in the order of the indication |
| ReceiveChain.OwnedOnce | sys/recv.c:623-645 | With CAN_PEND the kept and the returned net buffer lists together are the indication, each in exactly one of the two |
| ReceiveChain.BackInOrder | sys/recv.c:634-643 | Two members of the returned chain stand in it as they stood in the indication |
| ReceiveChain.NothingWithoutPend | sys/recv.c:623-625 | With CANNOT_PEND no original is kept or returned |
| ReceiveChain.QueuedOnce | sys/recv.c:562-617 | No indicated packet is queued twice, be it as itself or as a private copy |
| ReceiveChain.FreeReceive | sys/recv.c:898-944 | A private copy goes to its pool and an original back alone |
| SendChain.SendComplete | sys/send.c:380-437 | Completes the IRP of every net buffer list of any chain once, in chain order: with its full write length if NDIS reports success for that net buffer list, as unsuccessful if not; and frees every one without reading it afterwards |
| SendChain.SendNbl.Deref | sys/macros.h:124-130 | Frees at zero; a freed net buffer list cannot be read again |
| Enumeration.WriteString | sys/ndisbind.c:1415-1425 | Succeeds if and only if the string and its NUL fit, writes just these bytes, and otherwise writes nothing |
| Enumeration.FindActive | sys/ndisbind.c:1486-1564 | The walk with the decremented index finds the i-th ACTIVE context in list order, and none if there are not that many |
| Enumeration.ActivesAreAll | sys/ndisbind.c:1494-1500 | Every ACTIVE context has an index, and the indices follow the list |
| Enumeration.FillReply | sys/ndisbind.c:1509-1560 | Succeeds if and only if both strings fit; then they lie behind the header in two regions one after the other, each ended by a NUL, and the header gives their places; a failure says which string did not fit |
| Enumeration.QueryBinding | sys/ndisbind.c:1464-1566 | The status for every input and output length and index, the binding that is picked, the reply, and, on success and on overflow alike, the number of bytes returned and the bytes that stay as they were |
| Enumeration.LookupDevice | sys/ndisbind.c:1604-1626 | Finds the first context on the list with the name, active or not |
| Enumeration.QueryThenLookup | sys/ndisbind.c:1604-1626 | Looking up the name that a query returned gives that context if and only if none before it has the same name |
| Enumeration.EnumerateDevices | metcap/metcap.c:289-318 | The client counts the active bindings up to the first whose strings do not fit its buffer, all of them if every one fits |
| AuditList.Audit.Alloc | sys/debug.c:40-101 | The new block is the last of the live ones; the list stays doubly linked with the right count |
| AuditList.Audit.Free | sys/debug.c:106-142 | Takes out exactly the block, wherever it stands, and leaves the others in order; an unsigned block is reported and nothing changes |
| AuditList.Audit.Shutdown | sys/debug.c:146-169 | Reports the number of live blocks and ends with none, every one of them freed |
| LockChecker.ReportsExactly | sys/debug.c:308-325 | Whatever the other threads do, an acquire is reported if and only if the caller already owns the lock |
| LockChecker.NoFalseRelease | sys/debug.c:369-378 | A bracketed release is never reported |
| LockChecker.StuckForever | sys/debug.c:308-336 | What is reported is a deadlock: the thread has no next step, and the others can only queue up behind it |
| LockChecker.DebugLock.AcquireCheck | sys/debug.c:291-329 | Refines the check and the count of an acquire |
| LockChecker.DebugLock.ReleaseCheck | sys/debug.c:355-384 | Refines the check and the count of a release |

## Left out

* Preserve.StepKeeps: does not model 32-bit wrap-around of RefCount, PendedSendCount, PendedReadCount and RecvNetBufListCount, which are unbounded here; by the ledger and the two in-flight theorems a wrap would need 2^32 live holders.
* Theorems.WorkConservation: says that a thread is committed, not that it is ever scheduled; no fairness or liveness is claimed beyond WaitIsWoken, and the sleeping loops of CancelPendingReads and of pause may go round as often as the scheduler lets them.
* Theorems.ExclusiveAssociation: the other contexts of the driver appear only as the set of file objects tied elsewhere; a second full context is not modelled.
* ScatterCopy.CopyPacket: asks, as NDIS guarantees, that the offset lies in the first MDL; beyond it the unsigned subtraction of the source would wrap.
* ReceiveChain.Offer: the driver parks the original in pNetBufListOrig and reuses the variable for the copy; here the copy has a variable of its own, which comes to the same.
* ReceiveChain.ReceiveNetBufferLists: that a private copy handed over is freed once later on is stated for packets of the protocol in Theorems.PacketInOnePlace, not again on the heap.
* Theorems.PacketInOnePlace: "given back" covers the early tests of State with CANNOT_PEND too, where the driver does nothing and the packet stays with the miniport.
* Freed.FreedIffUndone: that a run exists in which the context is freed is shown from states where everything else has come to rest; threads that never return (a NULL event, a leaked reference, an open file object) can keep it from being freed. That it cannot be freed otherwise, and what has happened when it is found freed, holds in every state of every run.
* Theorems.NoUseAfterFree: what a thread does to the memory after it has found the context freed is not modelled; the run ends there.
* Enumeration.QueryBinding: the list is a value, as both walks run under the global lock; that a context changes its flags between two iterations is not modelled.
* The checks of a write before its lock (length, frame size, address comparison) and of a read before its lock: they fail the IRP without touching the shared state.
* The two OID requests of shutdown that are not counted, OID value handling, restart parameters, media and reset flags, and status indications: no effect on the fields of the protocol.
* EtherType filtering: the rejecting branches are commented out in the source, only the length checks remain.
* The status words of read IRPs: each read is in the history of the code that completed it, and each of these uses one status.
* A power event with the state Unspecified, which the driver treats as power-up without being in D0: NDIS sends D0 to D3.
* Cancel identifiers: the prefix does not survive its shift in the source.
* The check for an existing binding in the debug build of ndisprotCreateBinding, IRQL, the delays of NdisMSleep, memory ordering below the spin lock, and the internals of NDIS and of the I/O manager.
* DriverEntry, Unload and the IOCTL dispatch switch: registration and one-branch status mapping.
* `sys/excallbk.c`, `metcap/` except the enumeration loop, `kafka-test/`, `installer/`, `IniReader/`, `test/`: clients and build plumbing.
