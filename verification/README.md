# libvhost in Dafny

libvhost is a lock-free vhost-user server: one control loop per process, one loop per request queue,
memory shared with a guest that may write anything at any time. This project models its hard parts
and proves what they promise.

* **Crash recovery of requests** (`Inflight`, `VirtqInflight`, `RingIndex`, `Counting`). The inflight
  region, both rings, the driver and the device as a transition system in which every store is one
  step and the device may die between any two, those of recovery included, any number of times.
* **Life of a device and its vrings** (`Lifecycle`, `LifecycleSafety`, `LifecycleSteps`,
  `LifecycleRuns`, `Sums`, `Sequences`).
  Control loop and request queue loops with their batches of bottom halves run last in, first out;
  messages, starts, stops, drains, disconnects, the stop work, clean-up and the memory maps in use.
* **Bottom halves and wake-ups** (`BottomHalf`). Unboundedly many threads, at pointer level.
* **Request queue** (`RequestQueue`, `RequestQueueLoops`). Submission, backend, the completion stack
  any thread may push on, the completion bottom half, cancellation.
* **Memory maps** (`MemMap`, `MemMapSlots`, `MapSharing`, `MapSharingRuns`, `MapArea`). The
  translations; maps of several devices over shared regions, edited by the control loop while request
  queue threads drop the last references without a lock; the placing of a region in the address space.
* **Descriptor chains, rings, events** (`ChainWalk`, `Dequeue`, `EventIdx`). Walks over chains the
  guest controls and may rewrite during the walk, resubmission and consumption of the available ring,
  notification suppression.
* **Dirty page log** (`MemLog`, `DirtyLog`). The word-wise bitmap writer and what a push marks.

State the source changes in place is a class or an array where the code is a loop over it, with
methods proved against a specification function. Interleaved protocols are transition systems: a
`State`, labelled steps `Enabled`/`Apply`, an invariant `Inv` that `StepKeeps` shows every step keeps,
and theorems about every `Reachable` state.

Premises. Memory is sequentially consistent. Counters the source keeps in 64 bits do not overflow. The
driver does not repost a head in flight, keeps published entries stable and uses a power-of-two queue
size. The user stops a device once; the backend completes a request once. The operating system maps
regions apart from each other and below 2^63 bytes. `MapSharing` takes from `Lifecycle` that a message
begins with no superseded map left, that rings fetch under the current or the superseded map, and that
rings leave flight with no request out.

Where the code and what is expected of it part, the difference is exact and has an example:
a failed deferred reply ends in the clean-up's assertion (`AbortIff`, `AbortHappens`); a device can end
up with nothing in use and no clean-up (`StrandedIff`, `StrandingHappens`); a client that starts a ring
before sending a memory table takes the process down (`CrashIff`, `CrashHappens`); a cached region taken
on after its count went to zero is unmapped under a live map (`RunCleanIff`, `StaysMappedIff`,
`RevivalHappens`); slots may overlap in guest addresses alone (`PtrRoundTripIff`, `GpaOverlapHappens`);
an empty writable descriptor trips the log's assertion (`LoggedIff`, `EmptyWritableHappens`); a log that
is not whole words leaves the clamp undefined (`ClampWritableIff`, `WithinIff`).

## Model

| member | source | states |
|---|---|---|
| Inflight.StepKeeps | virtio/virt_queue.c:121-231 | every single store of fetch, publish and recovery, a crash between any two, and the driver's posts and reads keep the invariant tying flags, counters and indices to who owns each head |
| Inflight.ExactlyOnce | virtio/virt_queue.c:121-231 | however often the device dies, the entries marked fetched are, as a multiset, those published once plus those outstanding, and the outstanding ones keep their fetch order |
| Inflight.DriverSeesPublications | virtio/virt_queue.c:660-675 | the driver reads from the used ring exactly the published heads in publication order, across the wrap |
| Inflight.BatchOfOne | virtio/virt_queue.c:208-222 | a recovery that finds the recorded used index behind finds it behind by exactly one, with a last batch head inside the region, so the batch size assertion holds |
| Inflight.RecoveryExact | virtio/virt_queue.c:190-231 | at the end of recovery the inflight flags are exactly the heads fetched and not published, and what is replayed is exactly those in fetch order |
| Inflight.CountersFresh | virtio/virt_queue.c:121-142 | counters of outstanding heads are distinct, ascending in fetch order, positive and below the next counter |
| Inflight.ResumesAtNextEntry | virtio/virt_queue.c:505-538 | once resubmission is over the device stands at the first entry it has not marked, the backlog it computes in 16 bits is the true one and fits the ring, and the slot it reads holds that entry |
| Inflight.ResumeIff | virtio/virt_queue.c:285-329 | replaying from ring base b leads to the next unfetched entry if and only if b is the used index |
| Inflight.RecoveryCompletes | virtio/virt_queue.c:190-231 | from every reachable crash an uninterrupted recovery reaches a running device in at most three steps with the outstanding heads to replay and history unchanged |
| Inflight.SortedUnique | virtio/virt_queue.c:271-283 | sorting flagged heads with pairwise distinct counters has a single possible result |
| Inflight.BatchLinksBack | virtio/virt_queue.c:145-160 | when a head becomes the batch head its entry links to the batch head before it, whatever the driver did in between |
| VirtqInflight.StepsRecover | virtio/virt_queue.c:190-231 | the recovery steps of the transition system, run without a crash, compute the region the recovery code leaves |
| VirtqInflight.SortSorts | virtio/virt_queue.c:271-283 | the sort by counter yields a sorted permutation without repetition |
| VirtqInflight.Virtq.AvailUpdate | virtio/virt_queue.c:121-142 | from every state about to fetch the head, the region after each store is that after FetchCounter and then FetchFlag of the crash-safe transition system, so a death after either is one it recovers from |
| VirtqInflight.Virtq.UsedUpdate | virtio/virt_queue.c:145-160 | from every state pushing the head, the region after each store is that after PushNext and then PushHead |
| VirtqInflight.Virtq.UsedCommit | virtio/virt_queue.c:163-183 | from every state that has published the head, the region after each store is that after PushFlag and then PushUsedIdx |
| VirtqInflight.Virtq.ReconnectUpdate | virtio/virt_queue.c:190-231 | the scan, the walk over the lost batch and the index store compute the recovered region, the lost flag cleared before the index is stored; the next counter is one past the largest |
| VirtqInflight.Virtq.ResubmitOrder | virtio/virt_queue.c:285-329 | the replay order is exactly the flagged heads, each once, in ascending counter order |
| Lifecycle.StepKeeps | vdev.c:204-378 | every step of the control loop, the request queue loops, the client, the backend and the user keeps the invariant: per-ring conservation of owed acknowledgements, counters, messages, session flags, map references |
| LifecycleSafety.CountersCount | vdev.c:184-203 | in every reachable state num_vrings_started counts rings whose stop is not acknowledged, num_vrings_in_flight rings whose drain is not, num_vrings_handling_msg the bottom halves on the way to acknowledging the message |
| LifecycleSafety.AckedOnce | vdev.c:261-333 | per accepted SET_VRING_KICK at most one stopped and one drained acknowledgement run |
| LifecycleSafety.RunningIsStarted | vdev.c:1218-1246 | a ring started in its request queue is started in the control loop with its kick descriptor open and its virtqueue initialised |
| LifecycleSafety.DrainQueuedIff | vdev.c:327-365 | the drained acknowledgement is queued, once, exactly while the ring is stopped in the dataplane, empty, and its drain not acknowledged |
| LifecycleSafety.KickFindsRest | vdev.c:1264-1293 | an accepted SET_VRING_KICK finds the kick descriptor closed, the virtqueue released, the ring empty and no bottom half of an earlier start anywhere, despite last in, first out delivery |
| LifecycleSafety.NoAssertFires | vdev.c:220-315 | on no run does an assertion outside the clean-up fire, nor is a completion function called that is not set |
| LifecycleSafety.CrashIff | vdev.c:1267-1270 | a step dereferences a missing memory map exactly if it is a SET_VRING_KICK before the device has a map |
| LifecycleSafety.RequestsMove | vdev.c:335-365 | in every reachable state and for every step: a ring's requests wait in fetch order, the backend takes the first, a completion takes the one completed, and besides only the stop of a running ring takes waiting requests, all of them, exactly if the ring is being disconnected |
| LifecycleSafety.StopCancelsIff | vdev.c:335-356 | the stop of a running ring empties its waiting requests exactly if it is being disconnected and otherwise keeps them, never touches those the backend has, and drops exactly one map reference for each request that left |
| LifecycleSafety.NoneLost | vdev.c:335-365 | over every run in which a ring is not being disconnected, what it held and fetched is, in order, what the backend was given and what still waits |
| LifecycleSafety.ClosedAtRest | vdev.c:1808-1846 | whenever the client's socket is closed the device is disconnected, no ring is started in either plane or holds a request, no acknowledgement is queued, and old_memmap, old_memlog and keep_fd are clear |
| LifecycleSafety.AbortIff | vdev.c:1808-1816 | the clean-up's assertion that no message is left fails exactly when a deferred reply could not be sent |
| LifecycleSafety.StopIsFinal | vdev.c:2031-2038 | once the stop call has returned, no run ever fetches from a ring of the device again and no ring is started |
| LifecycleSafety.MapsLive | vdev.c:849-918 | reference counts of maps are exactly the references held; the map of every running ring and of every outstanding request is live |
| LifecycleSafety.OldMapUnused | vdev.c:849-857 | once the superseded map is dropped every running ring uses the current one |
| LifecycleSafety.SwapAtOnce | vdev.c:901-907 | a map is replaced without waiting only when no request holds any map |
| LifecycleSafety.DisconnectReachesAll | vdev.c:367-378 | however starts and the stops of a disconnect are reordered, a ring that runs or has passed its check has a stop on its way, and every other queued start will see the disconnect and fail |
| LifecycleSafety.NeverStuck | vdev.c:594-633 | whenever no bottom half and no request is pending anywhere, a connected device is reading its next message and an unconnected one is not in use |
| LifecycleSafety.StrandedIff | vdev.c:220-234 | a step leaves the device with nothing in use and the clean-up not done if and only if it is the last message acknowledgement after the client is gone and all rings are stopped and drained |
| LifecycleSteps.FlagsMove | vdev.c:204-378 | for every step of every state each flag of a ring is set and cleared exactly by the handlers that are to: started in control, started in the dataplane, kick descriptor open, virtqueue initialised, waiting to answer GET_VRING_BASE, being disconnected, and the map it uses |
| LifecycleSteps.LinkMoves | vdev.c:367-378 | the client is connected from its accept until a bad message, a deferred reply that could not be sent or the stop work; only the stop work ends listening |
| LifecycleSteps.MessageMoves | vdev.c:849-916 | what finishes a deferred message is fixed by the message and forgotten when the last ring has handled it; the map, log or descriptor it replaced is kept until exactly then, and not at all with no ring in flight; the new map and log are in force at once and until the clean-up of the session |
| LifecycleSteps.ClosedAndStopped | vdev.c:2026-2056 | whenever the socket is closed the device listens for the next client or, once stopped, is released; the stop call has returned unless a ring has still to be stopped or the loop is telling the rings |
| LifecycleRuns.AbortHappens | vdev.c:635-652 | a run from the start in which a failed start whose reply cannot be sent reaches the failed assertion |
| LifecycleRuns.CrashHappens | vdev.c:1267-1270 | a run from the start in which a first client kicks a ring before any memory table and the process dies |
| LifecycleRuns.StrandingHappens | vdev.c:220-234 | a run from the start that ends with the device stranded |
| BottomHalf.StepKeeps | event.c:86-219 | every access of every thread and of the loop keeps the invariant of lists, flags, announcements and lives |
| BottomHalf.NoLostWakeup | event.c:86-121 | while the loop waits, a bottom half whose pusher is past setting the notified flag has the eventfd readable or a thread about to write it |
| BottomHalf.LinkedOnce | event.c:102-154 | the next pointers spell two lists, a bottom half is on at most one of them, and its pending flag says exactly whether it is listed, being inserted or held by the loop |
| BottomHalf.NextStable | event.c:102-121 | no step overwrites the next pointer of a linked bottom half |
| BottomHalf.CasPushes | queue.h:16-27 | a successful compare-and-swap is an abstract push even if the head was stolen and reinserted since it was read |
| BottomHalf.TouchesLive | event.c:191-219 | no step dereferences a freed bottom half, so none is freed twice |
| BottomHalf.OneshotOnce | event.c:156-161 | a one-shot has run exactly once when it is freed, and not before it leaves |
| BottomHalf.DeletedIsFreed | event.c:175-179 | a deleted bottom half is freed or on its way to be |
| BottomHalf.ScheduleNotLost | event.c:163-167 | over any run that does not cancel or delete it, a scheduled bottom half stays owed until its callback has run |
| BottomHalf.ScheduledHasRun | event.c:86-219 | a bottom half scheduled in any reachable state and neither cancelled nor deleted since has run by the time the loop waits, the eventfd is not readable and no thread is in the middle of enqueueing |
| BottomHalf.NothingWaits | event.c:86-154 | in such a quiet state both lists are empty and no bottom half is pending or scheduled |
| BottomHalf.NoCallUnasked | event.c:191-219 | over every run a bottom half's callbacks never outnumber the schedules and one-shots that asked for them |
| BottomHalf.DeletedStaysQuiet | event.c:208-211 | once a bottom half is deleted and no older snapshot of its flags is about to be acted on, no run ever calls it again |
| BottomHalf.CancelledStaysQuiet | event.c:169-173 | after a cancel, under the same condition, no run calls it until it is scheduled again |
| BottomHalf.DeletedHasGone | event.c:175-179 | a bottom half deleted in any reachable state is freed by the time all is quiet |
| BottomHalf.OneshotHasGone | event.c:156-161 | a one-shot enqueued in any reachable state has run once and is freed by the time all is quiet |
| BottomHalf.WakeupsCoalesce | event.c:86-100 | over every run the notified flag is set and reset in turn and every eventfd write is that of a thread that set it |
| BottomHalf.SleepsAgain | event.c:93-100 | a loop that wakes with the flag set has cleared flag and eventfd when it waits again unless notified meanwhile; with the flag clear it leaves the eventfd alone |
| BottomHalf.ScheduledOnTheWay | event.c:163-167 | a scheduled bottom half is always listed, being inserted or held by the loop, and not freed |
| RequestQueue.StepKeeps | server.c:115-273 | parsing, dequeuing, cancelling, concurrent pushes, scheduling and completing keep the invariant placing every request exactly once |
| RequestQueue.NoLostCompletion | server.c:258-273 | a non-empty completion stack has its bottom half scheduled, running before its steal, or a pusher about to schedule it |
| RequestQueue.FirstBackFirstOut | server.c:123-156 | over a whole run completions happen in exactly the order the pushes took effect, across batches, and none is outstanding when the bottom half is at rest |
| RequestQueue.FirstInFirstServed | server.c:203-235 | a dequeue hands over a request parsed before every one still waiting and after every one handed over before, also across cancellations |
| RequestQueue.ServedAscends | server.c:203-235 | over a whole run requests reach the backend in the order they were parsed |
| RequestQueue.RunsWhenScheduled | server.c:258-273 | the completion bottom half runs at most once for each time it is scheduled |
| RequestQueue.Conservation | server.c:203-252 | enqueued = dequeued + cancelled + waiting, dequeued = completed + in flight |
| RequestQueue.ExactlyOnePlace | virtio/virtio_blk.c:52-75 | every parsed request is in exactly one place; its buffers are freed exactly once, when it is done; it is published at most once, and never if cancelled; its inflight mark is set exactly until it is published, so a cancelled request keeps it |
| RequestQueue.ArriveGoes | virtio/virtio_blk.c:52-75 | a parsed request is published and freed at once if it is answered at once; otherwise it waits last, marked and counted for its ring |
| RequestQueue.CompletionPublishes | virtio/virtio_blk.c:52-75 | a completion frees the oldest stolen request and publishes it, clearing its mark, exactly if the backend did not hand it back as cancelled |
| RequestQueue.PushRemembers | server.c:258-273 | a push records what the backend said of the request and owes a scheduling exactly if the stack was empty |
| RequestQueue.DrainedIff | vdev.c:322-333 | num_in_flight of a ring is zero exactly when none of its requests waits or is with the backend |
| RequestQueue.CancelLeavesNone | server.c:237-252 | a cancellation leaves none of the ring's requests waiting, publishes nothing, frees each once and takes no other ring's request |
| RequestQueue.NeverBlocked | server.c:141-152 | the completion bottom half and the backend always find the requests they take off a list |
| RequestQueueLoops.Queue.Enqueue | server.c:228-235 | the request goes behind every waiting one, all parsed before it, and is counted for its ring |
| RequestQueueLoops.Queue.Dequeue | server.c:203-226 | hands to the backend a waiting request parsed before every one still waiting, or reports that there is none |
| RequestQueueLoops.Queue.CancelQueued | server.c:237-252 | the walk over the waiting list equals the filter by ring in the cancellation step |
| RequestQueueLoops.Queue.CompleteBio | server.c:258-273 | a push, and the scheduling of the bottom half exactly if the stack was empty |
| RequestQueueLoops.Queue.TurnRound | server.c:134-142 | the stolen list reversed |
| RequestQueueLoops.Queue.CompletionBh | server.c:123-156 | the bottom half runs a steal and one completion per stolen request, oldest first, and leaves everything pushed completed |
| MapSharing.StepKeeps | memmap.c:216-292 | every access of lookup and release, every edit, commit, drop, fetch and free keeps region and map counts exact, slots ordered and free of collisions, mapped regions apart, requests on slots of their maps, and whatever has count zero unmapped or being released |
| MapSharing.LookupBacks | memmap.c:236-263 | every accepted addition goes on to share a listed region with exactly the guest address, user address, size and file asked for, or, if there is none, maps a new region of these four and puts it in the map |
| MapSharing.TakeShares | memmap.c:226-263 | the region found goes, once, into the map it was looked up for and is held once more |
| MapSharing.MapsApart | memmap.c:382-399 | on every run the slots of a map ascend in guest address and no two share both a guest byte and a user byte |
| MapSharing.DeviceMaps | vdev.c:849-918 | a device's current map changes only by a commit, to the map just built, and by the clean-up; its superseded map only by a commit, to the map current before, and by being dropped |
| MapSharing.BeginMakes | memmap.c:335-363 | a new map begins empty and a copy with the slots of the current one, held once, while the device keeps the map it has |
| MapSharing.DelTakes | memmap.c:435-460 | a deletion takes exactly the first slot with the given addresses and size, whose region is then owed one drop, and changes nothing if there is none |
| MapSharing.CleanIff | memmap.c:250-263 | from a state in which nothing held is unmapped or being released, a step leaves one exactly if it is a lookup taking a reference on the region it found when that region's count is zero |
| MapSharing.RunCleanIff | memmap.c:216-263 | a run keeps everything held mapped and out of release at every moment if and only if none of its lookups takes a region whose count is zero |
| MapSharing.StaysMappedIff | memmap.c:216-224 | what is held stays mapped however the releases under way go on if and only if none of them is of a held region; otherwise some thread's next two accesses unmap it |
| MapSharing.DoomStays | memmap.c:216-224 | no step of anyone saves a region that is being released, and a release begins only with the count going to zero |
| MapSharing.HeldMapped | virtio/virt_queue.c:57-65 | on every run without such a lookup the regions of every live map and those under the buffers of every request not yet freed are mapped and no thread is releasing them, though tables change and superseded maps are dropped meanwhile |
| MapSharing.EditedAlone | vdev.c:946-957 | on every run a map is edited only while one reference to it exists and no request uses it: maps are duplicated before they are changed, or changed in place with no ring in flight |
| MapSharing.NothingLeaks | memmap.c:265-281 | on every run a region's count is the slots of live maps plus the drops threads still owe; with no release under way a mapped region is in a live map |
| MapSharing.ReachableRoundTrip | memmap.c:295-333 | in every map of a run without such a lookup a translated guest range translates back byte by byte |
| MapSharingRuns.RevivalHappens | memmap.c:216-263 | a run from the start, a table shrunk and grown again while a request queue thread frees the last request of the first table, ends with the current map of a live device holding an unmapped region |
| MapSharingRuns.GpaOverlapHappens | memmap.c:382-391 | a run from the start builds a map of two slots at the same guest addresses, where no pointer into the later slot comes back |
| MemMap.RoundTrip | memmap.c:295-333 | for every byte of a translated guest range the pointer translates back to the guest address, which is never TRANSLATION_FAILED |
| MemMap.InsideTranslates | memmap.c:312-333 | a range inside a slot at addresses no earlier slot reaches translates to the slot's pointer plus the offset |
| MemMap.FailsIff | memmap.c:295-307 | a pointer fails to translate exactly when no region of the map holds it |
| MemMap.PtrRoundTripIff | memmap.c:312-333 | a pointer comes back from its guest address exactly if no earlier slot holds that address |
| MemMap.PositionSorts | memmap.c:393-399 | the position found keeps slots ascending in guest address |
| MemMapSlots.MemoryMap.AddSlot | memmap.c:365-432 | accepts exactly the slots that do not wrap, have room and do not collide, and inserts them in place at the sorted position |
| MemMapSlots.MemoryMap.DelSlot | memmap.c:434-460 | removes in place the first slot with the given addresses, or reports that there is none |
| MapArea.TrimsFit | memmap.c:98-148 | for every page-aligned base both trims have non-negative length and what is left is huge-page aligned, long enough and page-guarded on both sides |
| MapArea.UnmapUndoesMap | memmap.c:98-155 | unmapping a region releases exactly the pages that mapping it left mapped |
| ChainWalk.Walker.WalkChain | virtio/virt_queue.c:405-453 | ends on every descriptor graph, even if the guest rewrites it during the walk; succeeds exactly if what the reads found is a chain whose flattening is mapped, framed and within max_chain_len, and then the buffers are its translation and the result is the number of ring descriptors read; otherwise the error is the fault of the first faulty descriptor the walk came to |
| ChainWalk.Walker.WalkTable | virtio/virt_queue.c:346-397 | reads only entries inside the mapped table although its length is truncated to 16 bits; succeeds exactly if the chain the reads found fits after what is there; otherwise the error is that of the first faulty entry |
| ChainWalk.TableEntries | virtio/virt_queue.c:346-372 | entry i of an indirect table is read at the translation of the table's address plus 16 i and ends inside the mapped table |
| ChainWalk.ConsumesOnce | virtio/virt_queue.c:405-453 | the number of ring descriptors a chain takes up, which a successful walk returns, is unique |
| ChainWalk.RefusedOnce | virtio/virt_queue.c:346-453 | of all errors at most one fits a refused chain, so the error of a refused walk is determined by what it read |
| ChainWalk.RingChainFits | virtio/virt_queue.c:240-250 | while the guest leaves its descriptors alone, a chain that comes to its end takes up no more ring descriptors than the queue has, so max_chain_len has room for it |
| ChainWalk.RoomForRing | virtio/virt_queue.c:240-250 | max_chain_len is the larger of the queue size and 515 |
| ChainWalk.Walker.AddBuffer | virtio/virt_queue.c:74-106 | appends a buffer exactly if there is room and no readable buffer follows a writable one, with the error that tells the two apart |
| ChainWalk.FlatUnique | virtio/virt_queue.c:405-453 | the reads of a walk have at most one flattening |
| ChainWalk.CircularHasNone | virtio/virt_queue.c:405-453 | while the guest leaves its descriptors alone, an index whose next links lead back to it after one or more descriptors starts no chain |
| ChainWalk.CircularFails | virtio/virt_queue.c:405-453 | a walk whose links lead into such a circle anywhere is refused, whatever room there is |
| ChainWalk.WritesAreLast | virtio/virt_queue.c:41-55 | in a framed chain the writable descriptors are exactly the last ones, where the writable part of the copied buffers begins |
| Dequeue.Virtq.DequeueMany | virtio/virt_queue.c:455-579 | heads left in flight are handed over once and first, then ring entries in order, each with the translation of the chain its walk read; last_avail moves by exactly what was handed over, whatever ends the call; which outcome occurs when, and the queue breaks exactly on a bad chain or a bad head left in flight |
| Dequeue.Virtq.Resubmit | virtio/virt_queue.c:285-329 | hands over the given heads in order up to the first that is out of range or whose chain is bad |
| Dequeue.Virtq.DispatchStream | virtio/virt_queue.c:522-541 | calls that continue each other show the handler every published entry once and in order across the wrap |
| Dequeue.TakenInOrder | virtio/virt_queue.c:522-525 | consecutive ring slots from a 16-bit index hold the published entries in order |
| EventIdx.RunInterruptsIff | virtio/virt_queue.c:624-648 | fewer than 65536 pushes against a fixed used_event interrupt once if it lies in the window crossed and not at all otherwise, as the standard's batch test says |
| EventIdx.NoLostInterrupt | virtio/virt_queue.c:650-658 | a driver asleep with completions to collect has its interrupt or the device is about to raise it |
| EventIdx.NoLostKick | virtio/virt_queue.c:488-502 | a device asleep with entries to handle has its kick or the driver is about to give it, whatever was published around the exit of the avail_event loop |
| EventIdx.InterruptsMatch | virtio/virt_queue.c:624-658 | over every run the device looks at used_event once for each completion, raises an interrupt exactly when the completion just stored is the one asked for, and the driver is woken once for each |
| EventIdx.KicksMatch | virtio/virt_queue.c:488-502 | over every run the driver looks at avail_event once for each batch and the device is woken once for each kick |
| EventIdx.EntryCount | virtio/virt_queue.c:504-509 | the number of entries computed in 16 bits is the true number and at most a ring |
| MemLog.SetBits | memlog.c:46-79 | the word-wise writer sets exactly the bits start to end - 1 and changes no other, all indices inside the log and all shift counts defined |
| MemLog.AccessesCover | memlog.c:46-79 | the first partial, full and last partial word masks cover exactly the range |
| MemLog.ConcurrentWriters | memlog.c:40-79 | under every interleaving with other writers no bit is lost and the writer adds exactly its range |
| MemLog.ClampWritableIff | memlog.c:92-98 | after the clamp the writer is defined for every start exactly if the log size is a multiple of 8 |
| MemLog.WithinIff | memlog.c:83-99 | the clamped range is writable, indices inside the log and shifts defined, exactly if the log is whole words or the range ends before its last, ragged bytes |
| MemLog.MarkGpaRange | memlog.c:83-99 | stops at its assertion exactly for empty or wrapping ranges, writes outside the log exactly where WithinIff says, and otherwise dirties exactly the pages of the log the range touches, for every log size |
| DirtyLog.LogModified | virtio/virt_queue.c:581-615 | a push dirties exactly the pages of its writable descriptors at the guest addresses they name, plus used idx and element if logged; its outcome is that of the first range that is empty, wraps or runs past the log's whole words |
| DirtyLog.LoggedIff | virtio/virt_queue.c:581-590 | logging the buffers of mapped descriptors goes through exactly if none is empty and each ends within the log's whole words |
| DirtyLog.UsedLayout | virtio/virt_queue.c:602-613 | short of a wrap the logged index field is two bytes at offset 2 and the elements are eight bytes each, disjoint, one after another from offset 4 |
| DirtyLog.WritableTail | virtio/virt_queue.c:581-590 | the buffers after the readable ones are the translation of exactly the writable descriptors |
| DirtyLog.EmptyWritableHappens | virtio/virt_queue.c:74-118 | a chain with an empty writable descriptor is walked without error |

## Left out

- Block request parsing (virtio/virtio_blk.c:77-365) beyond "answered at once or submitted": range and alignment checks are single-branch facts.
- ChainWalk.Walker.WalkChain: a descriptor is read in one step; a read torn by a concurrent guest write is any descriptor.
- Dequeue.Virtq.DequeueMany: the 60-second statistics are not modelled, and avail is the index its event loop (EventIdx) settled on.
- Lifecycle.StepKeeps: synchronous replies always succeed or the message counts as bad; feature, configuration and inflight messages that touch no ring are one step without effect; the shadow copies of ring addresses, and what a refused table leaves in them, are not modelled.
- LifecycleSafety.StrandedIff: liveness of shutdown is not claimed; redundant stop bottom halves may outlive a clean-up.
- RequestQueue.StepKeeps: the compare-and-swap loop of the push is one step, as shown for the same list operation by BottomHalf.CasPushes.
- MapArea.UnmapUndoesMap: mmap failures and the partial unmap after a failed map callback are not modelled.
- MapSharing.StepKeeps: inserting into and removing from the global region list are single steps, so two threads damaging its links at once is not modelled; the translation of ring addresses that may refuse a new map is an abort at any time.
- Cached region lookup treats file identity, offset and callbacks as one key; a failing fstat is not modelled.
- Hardware memory ordering: all accesses are sequentially consistent.
- virtio_fs, registration wrappers, feature negotiation, geometry, logging, timers, sockets, and the parts of the vhost-user specification that are not implemented.
