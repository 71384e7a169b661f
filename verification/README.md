# Selium runtime: a verified model

A Dafny model of the parts of the Selium runtime whose correctness is about
whole runs: the guest task executor, host queues with waiting receives, region
ownership and quotas, delegated authority, the bootstrap of system guests, the
DNS and wire-name codecs, and the checksum and id mixers.

Four kinds of modules:

- **Transition systems.** `Executor`, `Mailbox` (ring part), `Delivery`,
  `RegionRaces` and `SpawnTree` define states, events (one per critical section of
  the source) and runs; in `Regions` an event is a whole hostcall. A property is
  proved as an invariant of every event and then stated for every run:
  `IsRun(...)` is the only hypothesis, besides the ones the source itself needs.
  Where the code does not keep a property under every interleaving, the theorem
  says exactly when it holds (`SlotsExactly`, `StrandedExactly`,
  `ReservationsExactly`, `OwnersExactly`, `KinExactly`, `TenantsExactly`) and a
  concrete run shows it broken (`DeliveryRuns`, `RegionRaceRuns`, `SpawnRuns`).
  `ExecutorOrder` and `RegionOwners` read the queues, the owners and the payers off
  the history of a run alone, and `RegionAlone` ties the interleaved sections of
  region calls back to the whole hostcalls.
- **Code.** `ExecutorCode`, `WorkerCode`, `Mailbox.GuestMailbox`, `Quota.QuotaTable`,
  `RegionCode`, `QueueCode`, `ProcessCode`, `Bootstrap`, `DnsName`,
  `DnsMessage`, `WireName`, `Frame` and `Ids` hold the imperative code as classes
  and methods with loops, proved against functions of the old state. For the
  executor, queue and process classes that function is a run of the transition
  system, so the theorems about runs apply to the code: `WorkerEnter` takes a
  reachable executor to a reachable one with every task at rest, and
  `ProcessStart` keeps the authority table reachable whatever the child starts
  and stops from its entrypoint.
- **Pure rules.** `Authority`, `Kinship`, `Endpoints` and `Tenancy` say what grants
  allow, cover and delegate, `Utf8Scalars` what a label may spell.
- **Shared lemmas.** `Sums` (sums over maps), `Text` (split and join), `Words`
  (exclusive or, shifts and wrapping multiplication on naturals), `Common`.

Conventions. 32-bit counters of the executor are kept as unbounded counts and
compared modulo 2^32; `NoWrap` says that no counter wraps inside one poll or one
wait window. Fields named `past` and `issued` are history: no
branch reads them. Clocks, futures, spawn outcomes, kernel allocation results,
fresh ids and URI matching enter as event parameters or function parameters, so
the theorems hold whatever they are.

Where the code does less than its comments or names suggest, the model follows
the code:

- a wake for a full mailbox ring is dropped (`SkipMeansFull`, `FullRingSkips`),
  although the comment in `crates/runtime/src/mailbox.rs` says that it is still
  delivered through the parking word, which the guest never reads;
- a reservation whose kernel allocation or discovery publish fails is kept, so
  usage is exact only up to these leaks (`UsageIsRecorded`, `RefusedStaysCharged`);
- a queue can be used before its tenant is recorded, and what was sent by then is
  never charged (`SlotsExactly`, `LateRecordUndercharges`);
- a free that read its region's record before a handoff moved it returns the
  reservation to the wrong tenant and leaves a record behind
  (`ReservationsExactly`, `StaleFreeLeavesCharge`), and two receivers of one
  region can both become its owner (`OwnersExactly`, `TwoReceiversShare`);
- coverage of grants is not containment for `Namespace::Root` parents
  (`ContainsExactly`, `RootCoversOutside`), nor for URI prefixes of network
  endpoints, where a grant for port 1 covers one for port 12 (`PrefixesExactly`,
  `PortsNarrow`, `EndpointsNotContained`);
- a receive whose waiting operation is inserted after a send's wake pass stays
  waiting on a non-empty queue until it is polled (`StrandedExactly`,
  `UnpolledCanBeStranded`);
- the walk behind children selectors stops at a parent that has stopped, and at a
  process whose start has not returned, since its parent is recorded only after
  its entrypoint has run (`KinExactly`, `StoppedBreaksKin`, `UnlinkedBreaksKin`);
- a start that resolves its tenant while a failing stop has its process out of the
  table gives the child no tenant (`TenantsExactly`, `LostTenant`);
- a name read from a message does not encode to the labels it was read from if a
  label holds a dot (`ReencodesExactly`, `DottedLabel`);
- a domain seeded with two trailing dots keeps one, a name projected under it
  does not survive normalisation, and it resolves by the last label instead
  (`SeededUnusable`, `UnderDomain`, `DottedDomain`).

## Model

| member | source | states |
|---|---|---|
| `ExecutorSafety.SlotsAlways` | crates/guest/src/async_runtime.rs:403-460 | the slot invariant holds in every state of every run of any number of threads: a task's state, claim count, holder and future agree with the thread that holds it |
| `ExecutorSafety.SingleFlight` | crates/guest/src/async_runtime.rs:651-786 | in every run, two threads never hold the same task, and a held task is POLLING |
| `ExecutorSafety.FuturePresence` | crates/guest/src/async_runtime.rs:651-680 | a future is missing from the table exactly while some thread is polling it, so taking it after a claim never finds it absent |
| `ExecutorSafety.NoLostWake` | crates/guest/src/async_runtime.rs:403-460 | a live task woken since its last claim is QUEUED, or POLLING with its word different from the claim's baseline: never PARKED with an undelivered wake |
| `ExecutorSafety.WakeIsDelivered` | crates/guest/src/async_runtime.rs:403-460 | whatever ran before, a wake of a live task leaves it QUEUED, or POLLING with its word different from the claim's baseline |
| `ExecutorSafety.LostWakeExactly` | crates/guest/src/async_runtime.rs:669-712 | the re-check at the end of a poll misses a wake exactly when the number of wakes during the poll is a positive multiple of 2^32 |
| `ExecutorSafety.TokensAlways` | crates/guest/src/async_runtime.rs:581-601 | a QUEUED task has a token among run-queue entries, owed enqueues and popped ids; without `pop_specific`, exactly one, and no other task has any |
| `ExecutorParking.ParkingAlways` | crates/guest/src/async_runtime.rs:927-984 | the parking invariant, for run-queue entries and for host mail, in every run |
| `ExecutorParking.NoStuckParking` | crates/guest/src/async_runtime.rs:927-984 | until stop or the end of the poll owner, waiting work implies a thread that owes a bump or notify, an awake worker that will look again, or one about to wait on a stale word |
| `ExecutorParking.SleepMeansIdle` | crates/guest/src/platform.rs:147-221 | when every thread sleeps or is outside owing nothing, the run queue is empty, signalled mail is drained and every live task is parked with no undelivered wake |
| `ExecutorStopping.EndsAlways` | crates/guest/src/async_runtime.rs:927-976 | in every run a pool worker that has returned did so at the end, and the last signal is owed only then |
| `ExecutorStopping.ReturnsOnlyAtEnd` | crates/guest/src/async_runtime.rs:927-976 | in every run a worker of the pool has returned only if a stop was requested or the poll owner is done |
| `ExecutorStopping.ReturnsNext` | crates/guest/src/async_runtime.rs:929-976 | once that is so, a worker at its loop top or about to park returns by its own next step |
| `ExecutorStopping.ReleasedAtTop` | crates/guest/src/async_runtime.rs:977-984 | a sleeper that any event releases is at its loop top and owes nothing |
| `ExecutorStopping.SleepsExactly` | crates/guest/src/async_runtime.rs:977-984 | a wait puts a worker to sleep exactly when the wake word was not bumped since it was read |
| `ExecutorStopping.NeverSleepsAgain` | crates/guest/src/async_runtime.rs:929-976 | from the end on, a thread that is not asleep or on its way to sleep never sleeps again, whatever happens, not even by entering the pool anew |
| `ExecutorStopping.LastSignalReachesAll` | crates/guest/src/async_runtime.rs:846-862 | a worker that sleeps when the finished poll owner counts the active workers cannot sleep on until all its notifies are delivered |
| `ExecutorOrder.QueueInOrder` | crates/guest/src/async_runtime.rs:581-589 | in every run of any number of threads, tasks are popped in the order they were pushed, each push once: what was pushed is what was popped followed by the run queue |
| `ExecutorOrder.MailInOrder` | crates/guest/src/platform.rs:73-125 | in every run, the entries passed to `wake_task` followed by those still to come are the host's wakes in the order it sent them, even while one thread drains and the host goes on sending |
| `ExecutorOrder.YieldsConserved` | crates/guest/src/async_runtime.rs:493-528 | in every run, every yield of every task is applied once or still to be applied, whichever worker drained it; applied to a task that is not parked it has no effect |
| `ExecutorOrder.FlagsAre` | crates/guest/src/async_runtime.rs:833-862 | in every run the poll owner is the task spawned as such, it is done exactly after it completed, and the stop is seen exactly after the host asked for it |
| `ExecutorOrder.SignalAlone` | crates/guest/src/platform.rs:147-165 | a whole signal moves the wake word by one, releases one sleeper if there is any, and changes nothing else |
| `ExecutorOrder.FindsWork` | crates/guest/src/async_runtime.rs:950-983 | each of the four looks at run queue and mailbox goes back to the loop top exactly when it finds work |
| `ExecutorOrder.ClaimsExactly` | crates/guest/src/async_runtime.rs:723-786 | a claim, of a popped id or of the poll owner, succeeds exactly on a queued task and turns it to polling for this thread |
| `ExecutorOrder.EntersExactly` | crates/guest/src/async_runtime.rs:462-476 | a thread enters at the loop top, or at the drain in the bootstrap pass, and changes no task, queue or word |
| `ExecutorOrder.FinishesExactly` | crates/guest/src/async_runtime.rs:682-690 | a finished task leaves the table, and no other task is touched |
| `ExecutorOrder.AppliesExactly` | crates/guest/src/async_runtime.rs:503-526 | an applied yield queues its task exactly if it is parked, owes its enqueue then, and leaves its parking word alone |
| `ExecutorCoop.CooperativeQuiescence` | crates/guest/src/async_runtime.rs:493-528 | when a single cooperative worker returns, the mail is what the host sent since the last check, every live task is PARKED without an undelivered wake or is a yielded one in the run queue, and every live task that yielded in the pass is queued |
| `ExecutorCode.GuestExecutor.constructor` | crates/guest/src/async_runtime.rs:603-616 | a new executor, seen from outside, is the initial state of the transition system |
| `ExecutorCode.GuestExecutor.EnqueueAndNotify` | crates/guest/src/async_runtime.rs:581-589 | appends the id, bumps the wake word, and is the push, bump and notify events |
| `ExecutorCode.GuestExecutor.WakeTask` | crates/guest/src/async_runtime.rs:403-460 | a parked task is queued and enqueued, any live task's word is bumped, id 0 and dead ids change nothing, and the whole is a run |
| `ExecutorCode.GuestExecutor.Rouse` | crates/guest/src/async_runtime.rs:403-460 | the table, run queue and wake word after a wake, for parked, queued, polled, dead and zero ids |
| `ExecutorCode.GuestExecutor.PopRunnable` | crates/guest/src/async_runtime.rs:723-752 | claims the first claimable entry with its word as baseline and drops the stale entries before it; `None` exactly when none is claimable; a run of pops and claims |
| `ExecutorCode.GuestExecutor.FinishPoll` | crates/guest/src/async_runtime.rs:669-712 | removes a finished task, or parks it and re-queues it exactly when its word moved; a run |
| `ExecutorCode.GuestExecutor.ApplyYieldQueue` | crates/guest/src/async_runtime.rs:493-528 | empties the yield queue, queues the parked ones in order and returns whether there were any; a run |
| `ExecutorCode.GuestExecutor.ApplyYields` | crates/guest/src/async_runtime.rs:503-526 | the loop over the drained entries: the parked ones are queued and enqueued in order, and the whole continues the run it is given |
| `ExecutorCode.GuestExecutor.ApplyOne` | crates/guest/src/async_runtime.rs:511-525 | one entry of the yield queue: queued and enqueued if parked, otherwise nothing |
| `ExecutorCode.GuestExecutor.NextTaskId` | crates/guest/src/async_runtime.rs:618-631 | ids count up, never 0, wrapping from the largest value to 1 |
| `ExecutorCode.GuestExecutor.SpawnTask` | crates/guest/src/async_runtime.rs:592-601 | a fresh id enters the table queued and enqueued; a run until the ids wrap |
| `WorkerCode.WakeDrained` | crates/guest/src/platform.rs:101-112 | wakes the drained entries oldest first, as events of a run |
| `WorkerCode.DrainMailbox` | crates/guest/src/platform.rs:73-125 | under the mailbox lock, wakes every entry and empties the mailbox; a run |
| `WorkerCode.DoDeed` | crates/guest/src/async_runtime.rs:358-400 | a wake, spawn, yield or host enqueue during a poll is an event of a run |
| `WorkerCode.PollTask` | crates/guest/src/async_runtime.rs:651-712 | take, poll and park or remove, whatever the future does meanwhile; a run |
| `WorkerCode.RunQueue` | crates/guest/src/async_runtime.rs:944-949 | pops and polls until the run queue is empty, ending for every script of polls; a run |
| `WorkerCode.Pass` | crates/guest/src/async_runtime.rs:936-952 | drain, run the queue and look again; mail is left only if a future's turn let the host enqueue |
| `WorkerCode.Finish` | crates/guest/src/async_runtime.rs:953-968 | applies the yields and returns the completion code; a run |
| `WorkerCode.WorkerLoop` | crates/guest/src/async_runtime.rs:927-968 | the cooperative loop ends for every script, with mailbox and yield queue empty; started in a reachable state it ends in one, with every live task parked without an undelivered wake, or yielded and queued |
| `WorkerCode.ChainRuns` | crates/guest/src/async_runtime.rs:651-712 | events of one thread with fewer than 2^32 wakes wrap no counter, so they continue any run they start from |
| `WorkerCode.LoopLeavesRest` | crates/guest/src/async_runtime.rs:927-968 | any chain of events from a reachable loop top to a return leaves everything at rest, whatever the futures do |
| `WorkerCode.FreshIsReachable` | crates/guest/src/async_runtime.rs:603-616 | a new executor is reachable |
| `WorkerCode.OutsideRuns` | crates/guest/src/async_runtime.rs:403-460 | wakes and spawns from outside keep an executor reachable |
| `WorkerCode.CanEnter` | crates/guest/src/async_runtime.rs:470-476 | from outside, a reachable executor reaches its loop top |
| `WorkerCode.CanLeave` | crates/guest/src/async_runtime.rs:470-476 | a reachable executor whose loop has returned is reachable from outside again |
| `WorkerCode.WorkerEnter` | crates/guest/src/async_runtime.rs:462-476 | every entry the host drives takes a reachable executor to a reachable one with everything at rest, so entries can follow each other |
| `Mailbox.RingAlways` | crates/guest/src/platform.rs:73-125 | the ring invariant under interleaved producer and consumer steps, across 32-bit wrap-around |
| `Mailbox.ExactlyOnceInOrder` | crates/guest/src/platform.rs:73-139 | woken ids are a prefix of the sent ids; `head != tail` exactly when undelivered entries exist, whatever the flag says; an idle consumer with equal words has delivered everything |
| `Mailbox.FlagIsLast` | crates/guest/src/platform.rs:113-125 | in every run the flag is up exactly if it was set and not cleared since |
| `Mailbox.SkipMeansFull` | crates/runtime/src/mailbox.rs:16-41 | an enqueue is skipped exactly when the ring holds 32 entries beyond the head the producer saw |
| `Mailbox.FullRingSkips` | crates/runtime/src/mailbox.rs:16-41 | any 32 enqueues without a drain fill the ring, and the next one is dropped in that run |
| `Mailbox.GuestMailbox.constructor` | crates/abi/src/lib.rs:55-90 | a fresh mailbox holds nothing |
| `Mailbox.GuestMailbox.HasPending` | crates/guest/src/platform.rs:127-139 | true exactly when entries are undrained |
| `Mailbox.GuestMailbox.Enqueue` | crates/runtime/src/mailbox.rs:16-41 | appends the id to the undrained entries, or changes nothing when 32 are outstanding |
| `Mailbox.GuestMailbox.Drain` | crates/guest/src/platform.rs:73-125 | returns the undrained ids in order, once, and leaves none |
| `Mailbox.GuestMailbox.BumpWakeWord` | crates/guest/src/platform.rs:65-71 | adds one with 32-bit wrap-around and touches no other word |
| `Quota.QuotaTable.Set` | crates/kernel/src/quota.rs:54-58 | stamps the ceiling and keeps the usage |
| `Quota.QuotaTable.Clear` | crates/kernel/src/quota.rs:62-67 | drops ceiling and usage |
| `Quota.QuotaTable.Lookup` | crates/kernel/src/quota.rs:70-76 | the ceiling exactly when an entry exists |
| `Quota.QuotaTable.TryConsume` | crates/kernel/src/quota.rs:98-115 | succeeds exactly when the rest of the ceiling admits the amount, for the platform tenant always; a denial changes no counter |
| `Quota.QuotaTable.ForceConsume` | crates/kernel/src/quota.rs:125-132 | adds, saturating, whatever the ceiling |
| `Quota.QuotaTable.Return` | crates/kernel/src/quota.rs:136-148 | subtracts, saturating at zero, and never creates an entry |
| `Quota.AdmitsExactly` | crates/kernel/src/quota.rs:98-115 | an amount is admitted exactly for the root, or if it is zero or keeps the usage within the ceiling |
| `Quota.AdmittedIsExact` | crates/kernel/src/quota.rs:98-148 | an admitted reservation neither passes the ceiling nor saturates, and releasing it restores the usage |
| `Regions.SoundAlways` | crates/runtime/src/hostcall.rs:301-467 | the ownership and quota invariant in every run of alloc, free, send, recv and quota authoring |
| `Regions.OneOwnerOneRecord` | crates/runtime/src/hostcall.rs:1833-1889 | every live region has exactly one owner p, and one whose allocation succeeded exactly one tenant record, keyed (p, region) |
| `Regions.UsageIsRecorded` | crates/runtime/src/hostcall.rs:333-372 | a non-empty tenant's usage is at most the recorded lengths plus its leaked reservations; without a clear it equals the recorded lengths exactly when nothing leaked |
| `Regions.RefusedStaysCharged` | crates/runtime/src/hostcall.rs:333-341 | a run whose allocation the kernel refuses: the bytes stay charged with no region and no record |
| `Regions.AllocTouchesOnly` | crates/runtime/src/hostcall.rs:257-285 | in every run an allocation leaves the counters and records of a tenant alone, unless it is the process's own or one it asked for as a root process or by delegation |
| `RegionOwners.QueueIsSent` | crates/kernel/src/host_queue.rs:83-126 | in every run a queue of regions holds what was sent and not yet received, in the order it was sent |
| `RegionOwners.OwnerIsHolder` | crates/runtime/src/hostcall.rs:301-467 | in every run the owner of a region is the one its history gives: the process of the last allocation that was authorised, in size and within the ceiling, until it frees the region, or the last receiver of a handoff whose sender held it |
| `RegionOwners.RecordIsPayer` | crates/runtime/src/hostcall.rs:1833-1889 | in every run the record of a region names the tenant it was allocated for, or after a handoff the tenant of the receiver |
| `RegionOwners.GrantedExactly` | crates/runtime/src/hostcall.rs:301-345 | an allocation reaches the kernel exactly if it is authorised, below 2^32 bytes and within the ceiling |
| `Tenancy.PrincipalExactly` | crates/runtime/src/hostcall.rs:257-285 | a process mints for its own tenant, or for one it asks for as a root process or by delegation, and is refused exactly when a process of a tenant asks for another without delegation |
| `RegionRaces.SaneAlways` | crates/runtime/src/hostcall.rs:301-467 | under every interleaving of lock sections, a region has at most one record, and a thread that destroyed a region leaves it destroyed |
| `RegionRaces.ReservationsExactly` | crates/runtime/src/hostcall.rs:386-467 | a tenant's usage equals its live recorded regions, calls in flight and leaks throughout an interleaved run if and only if no free destroys a region whose record is not the one it read, no record is made for a destroyed region, and no clear drops a positive count |
| `RegionRaces.OwnersExactly` | crates/runtime/src/hostcall.rs:1833-1889 | every live region has one owner throughout an interleaved run if and only if no handoff completes for a sender that has stopped being the owner, to a process that is not the owner |
| `RegionAlone.FreeAlone` | crates/runtime/src/hostcall.rs:386-467 | a free whose sections run without another thread in between does exactly what the whole hostcall does |
| `RegionAlone.HandAlone` | crates/runtime/src/hostcall.rs:1833-1889 | and so does a handoff |
| `RegionAlone.AllocAlone` | crates/runtime/src/hostcall.rs:327-384 | and so does an allocation from its reservation on, with every outcome |
| `RegionRaceRuns.StaleFreeLeavesCharge` | crates/runtime/src/hostcall.rs:395-455 | a run in which a handoff overtakes a free: the region is gone, and its record and its charge to the receiver's tenant remain |
| `RegionRaceRuns.TwoReceiversShare` | crates/runtime/src/hostcall.rs:1840-1888 | a run in which two receivers of one region both become its owner |
| `RegionCode.RegionRuntime.AllocRegion` | crates/runtime/src/hostcall.rs:301-384 | refused exactly to a process of a tenant that asks for another without delegation, then the size limit, the ceiling, the kernel and the publish, each with its error; each outcome is the model's event |
| `RegionCode.RegionRuntime.MintRegion` | crates/runtime/src/hostcall.rs:342-384 | claims and publishes a fresh region, recorded only if the publish succeeds |
| `RegionCode.RegionRuntime.FreeRegion` | crates/runtime/src/hostcall.rs:386-467 | succeeds exactly for an owner of a live region, which is gone with its record, and the record's tenant gets its length back; otherwise nothing changes |
| `RegionCode.RegionRuntime.TransferOnRecv` | crates/runtime/src/hostcall.rs:1833-1889 | ownership, record and reservation move together from the sender to the receiver, or not at all |
| `RegionCode.RegionRuntime.Recv` | crates/runtime/src/hostcall.rs:1430-1465 | pops the next item and hands its region over |
| `DeliveryItems.KernelAlways` | crates/kernel/src/host_queue.rs:83-126 | the queue invariant in every interleaved run |
| `DeliveryItems.ItemsConserved` | crates/kernel/src/host_queue.rs:83-126 | for every queue, the items recorded at each pop, in order, followed by those still queued are the items sent |
| `DeliveryItems.CallsAlways` | crates/runtime/src/hostcall.rs:176-211 | the receive-call invariant across dispatch, wake pass and poll |
| `DeliveryItems.OneReceiverPerItem` | crates/runtime/src/hostcall.rs:1608-1656 | no receive takes two items, a completed operation holds the very item its call took, a waiting or failed one took none |
| `DeliveryItems.PollDelivers` | crates/runtime/src/hostcall.rs:176-211 | in every run, a poll of a waiting receive delivers the next item of its queue if there is one, deadline or not; on an empty queue it times out exactly after the deadline |
| `DeliveryItems.TimesOutExactly` | crates/runtime/src/hostcall.rs:176-221 | in every run, a waiting receive fails exactly by a poll after its deadline on an empty queue |
| `DeliveryItems.CompletionIsFinal` | crates/runtime/src/hostcall.rs:154-175 | in every run, a completed receive keeps its completion until it is dropped |
| `DeliveryWaiters.SafeStep` | crates/runtime/src/hostcall.rs:1608-1656 | a waiting receive whose queue is empty, or which some sender will still visit, stays so under every event, polled or not |
| `DeliveryWaiters.LockAlways` | crates/runtime/src/hostcall.rs:1608-1656 | a wake pass holds the operation table, so there is at most one at a time |
| `DeliveryWaiters.InsertedExactly` | crates/runtime/src/hostcall.rs:98-107 | a receive is stranded by its insertion if and only if its queue already holds an item and no sender is between its push and its wake pass |
| `DeliveryWaiters.StrandedExactly` | crates/runtime/src/hostcall.rs:98-107 | over whole runs: a receive is never stranded while it waits if and only if its operation was not inserted too late in that sense |
| `DeliveryWaiters.PolledAlways` | crates/runtime/src/hostcall.rs:176-211 | in every run, a receive that a poll found waiting is not stranded |
| `DeliveryWaiters.NoStrandedReceiver` | crates/runtime/src/hostcall.rs:154-211 | a waiting receive that was polled at least once and whose queue is non-empty will be visited: some sender is between its push and the end of its wake pass, with the operation still to come |
| `DeliveryRuns.UnpolledCanBeStranded` | crates/runtime/src/hostcall.rs:77-107 | a run in which a receive is inserted too late and waits on a non-empty queue with every thread idle |
| `DeliverySlots.SlotsConserved` | crates/runtime/src/hostcall.rs:1698-1725 | in every run a non-empty tenant is charged for at most the pipe slots its queues use, queued or held mid-call; with no call in flight these are its undelivered items |
| `DeliverySlots.SlotsExactly` | crates/runtime/src/hostcall.rs:1116-1155 | the tenant is charged for exactly those slots throughout a run if and only if no queue's tenant is recorded while slots of the queue are in use and no clear drops a positive count |
| `DeliveryRuns.LateRecordUndercharges` | crates/runtime/src/hostcall.rs:1116-1155 | a run in which an item is sent between the publishing and the recording of a queue: it stays undelivered and uncharged with every thread idle |
| `QueueCode.HostQueueRegistry.SharedId` | crates/kernel/src/host_queue.rs:37-44 | the queue of a known handle, an error otherwise |
| `QueueCode.HostQueueRegistry.Create` | crates/kernel/src/host_queue.rs:47-63 | a new empty queue and its first handle |
| `QueueCode.HostQueueRegistry.Attach` | crates/kernel/src/host_queue.rs:65-80 | a further handle, only for a known queue |
| `QueueCode.HostQueueRegistry.Send` | crates/kernel/src/host_queue.rs:83-107 | appends at the back, or an error and no change |
| `QueueCode.HostQueueRegistry.TryRecv` | crates/kernel/src/host_queue.rs:110-126 | removes and returns the front, `None` on an empty queue, or an error and no change |
| `QueueCode.HostQueueRegistry.Pending` | crates/kernel/src/host_queue.rs:133-149 | the number of undelivered entries |
| `QueueCode.HostQueueRegistry.constructor` | crates/kernel/src/host_queue.rs:27-34 | no queues and no handles |
| `QueueCode.QueueRuntime.constructor` | crates/runtime/src/runtime.rs:190-200 | the initial state of the interleaved model |
| `QueueCode.QueueRuntime.CreateQueue` | crates/runtime/src/hostcall.rs:1116-1158 | refused exactly to a process of a tenant that asks for another without delegation; otherwise the queue and its handle are made, and its tenant is recorded exactly if the publish succeeds |
| `QueueCode.QueueRuntime.OwnerTenant` | crates/runtime/src/hostcall.rs:1698-1704 | the tenant of the queue's only record |
| `QueueCode.QueueRuntime.ChargeItem` | crates/runtime/src/hostcall.rs:1709-1714 | a queue without a record is free, and otherwise one slot is reserved exactly for the root or while the usage is below the ceiling |
| `QueueCode.QueueRuntime.ReleaseItem` | crates/runtime/src/hostcall.rs:1719-1725 | returns that slot |
| `QueueCode.QueueRuntime.NextOperationId` | crates/runtime/src/hostcall.rs:1662-1678 | a non-zero unused id; gives up only when every id from 1 to the largest is in use |
| `QueueCode.QueueRuntime.Deliver` | crates/runtime/src/hostcall.rs:1618-1645 | pops for a waiting operation of the queue and completes it, or leaves it waiting on an empty queue |
| `QueueCode.QueueRuntime.Visit` | crates/runtime/src/hostcall.rs:1612-1651 | one operation of the wake pass is the model's visit and release |
| `QueueCode.QueueRuntime.WakeWaiters` | crates/runtime/src/hostcall.rs:1608-1656 | visits every operation once, in some order, and is the model's wake pass in that order |
| `QueueCode.QueueRuntime.Push` | crates/runtime/src/hostcall.rs:1411-1419 | charge and push, or no change when the quota denies |
| `QueueCode.QueueRuntime.Send` | crates/runtime/src/hostcall.rs:1380-1421 | the errors in order; success is charge, push and wake pass |
| `QueueCode.QueueRuntime.Dispatch` | crates/runtime/src/hostcall.rs:1422-1465 | fails exactly on an unknown handle, takes the front of the queue if there is one, and otherwise waits |
| `QueueCode.QueueRuntime.Take` | crates/runtime/src/hostcall.rs:1422-1470 | fails exactly on an unknown handle, gives the front of the queue and releases its slot if there is one, or prepares a waiting operation |
| `QueueCode.QueueRuntime.Recv` | crates/runtime/src/hostcall.rs:61-107 | a receive on any handle records its operation under a fresh id, failed, pending or ready, and reports that status |
| `QueueCode.QueueRuntime.Insert` | crates/runtime/src/hostcall.rs:98-107 | records an operation under a fresh non-zero id |
| `QueueCode.QueueRuntime.PollOperation` | crates/runtime/src/hostcall.rs:154-231 | unknown and foreign operations fail and change nothing; a complete one is ready with its item, a failed one gives its error; a waiting one gives the front of its queue if there is one, else times out exactly after its deadline, else stays pending |
| `QueueCode.QueueRuntime.PollWaiting` | crates/runtime/src/hostcall.rs:176-221 | a waiting receive whose queue holds an item gets the first, deadline or not; on an empty queue it times out exactly after its deadline |
| `QueueCode.QueueRuntime.DropOperation` | crates/runtime/src/hostcall.rs:234-245 | only the holder's drop removes an operation, and nothing else |
| `QueueCode.SendRun` | crates/runtime/src/hostcall.rs:1380-1421 | a whole send is a run of the interleaved model |
| `QueueCode.RecvRun` | crates/runtime/src/hostcall.rs:1422-1470 | a whole receive is a run of the interleaved model |
| `QueueCode.MakeRun` | crates/runtime/src/hostcall.rs:1097-1158 | a whole queue creation is a run of the interleaved model |
| `QueueCode.PollRun` | crates/runtime/src/hostcall.rs:154-231 | a whole poll is a run of the interleaved model |
| `QueueCode.WokenServes` | crates/runtime/src/hostcall.rs:1608-1656 | after a wake pass the queue is empty or no operation waits on it, whatever the order |
| `Authority.CoversReflexive` | crates/runtime/src/hostcall.rs:2124-2169 | every grant covers itself |
| `Authority.CoversTransitive` | crates/runtime/src/hostcall.rs:2124-2169 | coverage composes, for all selectors |
| `Authority.CoversSound` | crates/abi/src/lib.rs:1156-1202 | what a covered child grant allows the parent grant allows, unless the parent names the root namespace that the child does not name, or URI prefixes under a matcher that is not monotone; who is whose kin matters only to a parent grant over children |
| `Authority.PrefixesExactly` | crates/runtime/src/hostcall.rs:2151-2153 | coverage means containment for all grants away from the root if and only if the URI matcher is monotone: what an extension of a prefix matches, the prefix matches |
| `Authority.PlainIsMonotone` | crates/abi/src/lib.rs:1171-1174 | matching by string prefix is monotone |
| `Authority.PrefixNarrows` | crates/runtime/src/hostcall.rs:2151-2153 | a URI prefix covers exactly its extensions |
| `Authority.LocalityOrder` | crates/runtime/src/hostcall.rs:2154-2156 | localities are ordered: anywhere above the cluster, the cluster above each host, and no more |
| `Authority.NamespaceOrder` | crates/runtime/src/hostcall.rs:2124-2149 | a namespace covers a tenant selector exactly when it covers the tenant's namespace: the root covers all, a tenant itself |
| `Authority.UnknownIsRefused` | crates/abi/src/lib.rs:1156-1202 | a context without a URI, a class, an id or a tenant meets no grant with a selector that asks for one |
| `Endpoints.ParseExactly` | crates/abi/src/lib.rs:1216-1250 | a URI of scheme, host and port parses to these if and only if the port is a list of digits or a star and the host is not empty |
| `Endpoints.HostExactly` | crates/abi/src/lib.rs:1267-1281 | a host matches the same host, or exactly the names below the domain of a wildcard |
| `Endpoints.MatchExactly` | crates/abi/src/lib.rs:1254-1289 | on one host, a grant matches exactly the ports it lists |
| `Endpoints.PortsNarrow` | crates/abi/src/lib.rs:1156-1176 | among endpoints of one host, an extended prefix matches nothing new if and only if the ports it lists were listed before |
| `Endpoints.MoreDigits` | crates/abi/src/lib.rs:1283-1289 | a port with one more digit is matched by the extended prefix and not by the prefix, for every host and port |
| `Endpoints.EndpointsNotContained` | crates/runtime/src/hostcall.rs:2151-2153 | so the matcher of network endpoints is not monotone, and coverage of grants over them is not containment |
| `Authority.ContainsExactly` | crates/runtime/src/process.rs:94-151 | among prefix-free grants, coverage means containment for holders whose kin are kin of the one above, only local ids being kin, if and only if a root-namespace parent meets a root-namespace or self-contradictory child |
| `Authority.ConsistentIsSatisfiable` | crates/abi/src/lib.rs:1156-1202 | selectors that agree pairwise are met together by some context, with a local id when they speak of children |
| `Authority.SatisfiableIsConsistent` | crates/abi/src/lib.rs:1156-1202 | a grant that allows some context, to kin only for a local id, has selectors that agree pairwise |
| `Authority.RootCoversOutside` | crates/runtime/src/hostcall.rs:2124-2153 | a root-namespace grant covers a tenant grant none of whose contexts it allows |
| `Authority.DelegationScope` | crates/runtime/src/hostcall.rs:2090-2119 | root-wide if a `DelegateGrants` grant names the root, otherwise exactly the tenants such grants name, `None` if there are none |
| `Authority.MayDelegateExactly` | crates/runtime/src/hostcall.rs:2090-2119 | an authority may delegate to a tenant exactly by a `DelegateGrants` grant that names the root or that tenant |
| `SpawnTree.TreeAlways` | crates/runtime/src/hostcall.rs:928-1003 | in every run of resolutions, validations, entries, links and stops, every child was admitted by an older parent, every record in the table or being torn down is the one born, linked or not, and a tenant is not the parent's to give exactly for a stray child |
| `SpawnTree.SpawnedNeverReserved` | crates/runtime/src/hostcall.rs:1944-1985 | no spawned process ever holds `DelegateGrants`, `MintCertificate` or `QuotaWrite` |
| `SpawnTree.WellFormedExactly` | crates/runtime/src/process.rs:429-451 | a grant is well formed exactly when one that delegates has a scope and one over URIs is over a network class |
| `SpawnTree.PrefixesStayOnNetwork` | crates/runtime/src/process.rs:429-451 | in every run, no process holds a grant over URIs that allows anything but network resources |
| `SpawnTree.InScopeExactly` | crates/runtime/src/hostcall.rs:1981-2013 | a grant is in a delegation scope exactly when it is fenced to some tenant the scope admits |
| `SpawnTree.MayHoldExactly` | crates/runtime/src/hostcall.rs:1940-2031 | a child may hold grants exactly if none is of a bootstrap-only capability and either all are fenced to tenants the parent may delegate to, or all are covered by the parent |
| `SpawnTree.UncoveredMeansFenced` | crates/runtime/src/hostcall.rs:1981-2031 | in every run, a spawned process with one grant its parent does not cover holds only grants fenced to tenants its parent may delegate to |
| `SpawnTree.DelegationFence` | crates/runtime/src/hostcall.rs:1981-2031 | below any process, every grant of every descendant is covered by one of its grants or fenced to its delegation scope, and every descendant runs under its tenant or one in scope unless a process on the way strayed |
| `SpawnTree.TenantsExactly` | crates/runtime/src/hostcall.rs:2058-2083 | every descendant of every process runs under that process's tenant or one in its scope if and only if no child was entered whose tenant was resolved while the record of its parent, a process with a tenant, was out of the table |
| `SpawnTree.FenceConfines` | crates/runtime/src/hostcall.rs:1981-2031 | below a process that may delegate to tenants `names`, a descendant's grant allows only contexts of those tenants or is covered by one of the process's own |
| `Kinship.KinExactly` | crates/runtime/src/process.rs:125-151 | along any lineage in every run, kin of the lower process are kin of the upper one if and only if every process in between is live and linked, or the lower process has no kin |
| `Kinship.AuthorityMonotone` | crates/runtime/src/process.rs:94-122 | a descendant of a live process that cannot delegate and does not name the root, nor URI prefixes under a matcher that is not monotone, is authorised for nothing the ancestor is not, unless the ancestor's grants speak of children and kin do not pass |
| `Kinship.ChildrenExactly` | crates/runtime/src/process.rs:94-151 | two live processes of a lineage that hold the same grant over children are authorised monotonically if and only if kin pass |
| `SpawnRuns.UnlinkedBreaksKin` | crates/runtime/src/hostcall.rs:971-995 | a reachable table, with nothing stopped, in which a process whose start has not returned is authorised over its child where a live ancestor with the same grant is not |
| `SpawnRuns.LostTenant` | crates/runtime/src/process.rs:53-70 | a reachable table in which the child of a process of a tenant runs under none |
| `SpawnRuns.StoppedBreaksKin` | crates/runtime/src/process.rs:125-140 | a reachable table in which a stopped process in between leaves a descendant authorised over its own child where the ancestor, with the same grant, is not |
| `SpawnRuns.MayHoldOwn` | crates/runtime/src/hostcall.rs:2014-2029 | a child may always hold its parent's own grants, but for the bootstrap-only capabilities |
| `ProcessCode.ProcessTable.constructor` | crates/runtime/src/runtime.rs:193-193 | an empty authority table |
| `ProcessCode.ProcessTable.ValidateChildGrants` | crates/runtime/src/hostcall.rs:1925-2031 | malformed grants, unknown parent, reserved capabilities, delegation and coverage, each with its error |
| `ProcessCode.ProcessTable.ResolveSpawnTenant` | crates/runtime/src/hostcall.rs:2058-2083 | inherits, or runs under a tenant exactly if it is the parent's own or a `DelegateGrants` grant of the parent names the root or that tenant, or is denied |
| `ProcessCode.ProcessTable.Bootstrap` | crates/runtime/src/bootstrap.rs:271-286 | a guest with well-formed grants gets a record under a fresh id and no parent |
| `ProcessCode.ProcessTable.StopProcess` | crates/runtime/src/process.rs:25-87 | the record goes, or is back when the teardown failed |
| `ProcessCode.ProcessTable.EnterChild` | crates/runtime/src/hostcall.rs:941-971 | the checks with their errors, then the child's record without its parent, exactly for an admissible request |
| `ProcessCode.ProcessTable.LinkChild` | crates/runtime/src/hostcall.rs:991-995 | a child still in the table gets its parent |
| `ProcessCode.ProcessTable.AbandonChild` | crates/runtime/src/process.rs:453-490 | the record of a child that did not come up goes, unless its cleanup failed |
| `ProcessCode.ProcessTable.FinishChild` | crates/runtime/src/hostcall.rs:971-995 | links a child that came up, which completes the record it was born with, and abandons one that did not |
| `ProcessCode.ProcessTable.RunEntrypoint` | crates/runtime/src/bootstrap.rs:323-361 | whatever the entrypoint starts and stops, the table stays reachable and every record ever born stays on record |
| `ProcessCode.ProcessTable.BringUp` | crates/runtime/src/hostcall.rs:971-995 | entrypoint, then link or abandon; the call is over |
| `ProcessCode.ProcessTable.ProcessStart` | crates/runtime/src/hostcall.rs:928-1003 | succeeds exactly for an admissible request whose child comes up, whatever the child starts and stops meanwhile, and the child then has the record it asked for with its parent; an inadmissible request changes nothing; the table stays reachable |
| `ProcessCode.ProcessTable.IsDescendantOf` | crates/runtime/src/process.rs:125-140 | the bounded walk answers exactly whether there is a live parent chain, since ancestors are older and chains fit in the table |
| `Bootstrap.BootstrapSystemGuests` | crates/runtime/src/bootstrap.rs:136-198 | succeeds if and only if names are distinct, dependencies configured and acyclic and all guests come up; then each guest was started once, after its dependencies, smallest ready name first; otherwise the error names a real fault; replayed as a stack, the log launches a guest only on top of its running dependencies and stops only the last one launched, and it ends with exactly the reported guests running, with none after an error |
| `Bootstrap.Verdict` | crates/runtime/src/bootstrap.rs:155-168 | an unknown dependency is really missing, and `DependencyCycle` is returned only for a real cycle |
| `Bootstrap.StuckHasCycle` | crates/runtime/src/bootstrap.rs:155-168 | when nothing pending is ready and nothing is missing, the pending guests contain a closed walk of dependencies |
| `Bootstrap.OrderedIsSound` | crates/runtime/src/bootstrap.rs:136-198 | a configuration that has a dependency order is closed and acyclic |
| `Bootstrap.BlameIsReal` | crates/runtime/src/bootstrap.rs:155-195 | every reported error is incompatible with a bootable configuration |
| `Bootstrap.Collect` | crates/runtime/src/bootstrap.rs:136-142 | all descriptors by name, or the name of a real duplicate |
| `Bootstrap.FindReady` | crates/runtime/src/bootstrap.rs:148-154 | the first pending guest in name order whose dependencies are ready |
| `Bootstrap.FindMissing` | crates/runtime/src/bootstrap.rs:156-162 | a dependency neither ready nor pending, if there is one |
| `Bootstrap.Refuse` | crates/runtime/src/bootstrap.rs:163-193 | a failure leaves its reason, and the log replayed as a stack then ends with nothing running |
| `Bootstrap.Rollback` | crates/runtime/src/bootstrap.rs:550-554 | stops the reported guests, and replayed as a stack each stop is of the last guest still running, down to none |
| `Bootstrap.LaunchAndHalt` | crates/runtime/src/bootstrap.rs:170-195 | a guest that was launched and is not ready is stopped on top of the ones running, which stay |
| `Bootstrap.BeforeMeans` | crates/runtime/src/bootstrap.rs:136-142 | names are ordered by their first difference, a proper prefix first |
| `DnsName.EncodeName` | crates/proto-dns/src/wire.rs:179-203 | appends at most 255 octets of length-prefixed labels and a zero, or the first fault of the name |
| `DnsName.ParseName` | crates/proto-dns/src/wire.rs:210-259 | the dotted labels and the position past the encoding, ending on every input |
| `DnsName.ParseLabels` | crates/proto-dns/src/wire.rs:210-259 | the loop with its jump guard computes the recursive reading, by the measure (jumps left, octets left) |
| `DnsName.NameRoundTrip` | crates/proto-dns/src/wire.rs:179-259 | every accepted name at any offset of any message is read back without its trailing dots, up to just past its encoding of at most 255 octets |
| `DnsName.ReencodesExactly` | crates/proto-dns/src/wire.rs:179-259 | a name read from any message encodes to the labels it was read from if and only if no label holds a dot and the labels take fewer than 255 octets |
| `DnsName.DottedLabel` | crates/proto-dns/src/wire.rs:243-259 | every admissible label that holds a dot is read from its own encoding, and the name it gives encodes to other labels |
| `DnsName.WireInjective` | crates/proto-dns/src/wire.rs:187-199 | labels of admissible length are told apart by their octets |
| `DnsName.CompressedName` | crates/proto-dns/src/wire.rs:229-242 | labels followed by a pointer are read as those labels followed by the name at the pointer, and the reader stops past the pointer |
| `DnsName.Utf8Cut` | crates/proto-dns/src/wire.rs:187-199 | splitting valid UTF-8 at a dot gives valid UTF-8 |
| `DnsName.DotsTrimmed` | crates/proto-dns/src/wire.rs:179-187 | all trailing dots of a name are trimmed, and nothing else |
| `DnsName.FaultExactly` | crates/proto-dns/src/wire.rs:187-194 | the first label that is empty or longer than 63 octets decides the refusal of a name |
| `DnsName.ReservedLength` | crates/proto-dns/src/wire.rs:243-245 | a length octet from 0x40 to 0xBF is malformed |
| `DnsName.SelfPointer` | crates/proto-dns/src/wire.rs:229-242 | a pointer to itself is a compression loop, at every offset |
| `DnsName.CutName` | crates/proto-dns/src/wire.rs:210-259 | a name in a message that was cut anywhere is the same name, or is found to be short |
| `Utf8Scalars.Utf8Exactly` | crates/proto-dns/src/wire.rs:243-250 | a label is accepted as UTF-8 exactly when it spells a sequence of Unicode scalar values by section 3 of RFC 3629 |
| `DnsMessage.EncodeQuery` | crates/proto-dns/src/wire.rs:83-98 | header, one question and nothing else, or the name's fault |
| `DnsMessage.ParseResponse` | crates/proto-dns/src/wire.rs:101-175 | in bounds on every input, and equal to the reading of header, questions and answers |
| `DnsMessage.ParseBound` | crates/proto-dns/src/wire.rs:101-175 | 12 + 5 questions + 11 answers + 4 addresses fit in the message |
| `DnsMessage.QueryRoundTrip` | crates/proto-dns/src/wire.rs:83-175 | parsing an encoded query gives its id, no error and no addresses |
| `DnsMessage.QueryFields` | crates/proto-dns/src/wire.rs:83-98 | where each field of an encoded query is found: id, recursion flag, counts 1, 0, 0, 0, the name, its type and the internet class |
| `DnsMessage.QueryOctets` | crates/proto-dns/src/wire.rs:83-98 | the octets of an encoded query around its name, one by one |
| `DnsMessage.ParsedOctets` | crates/proto-dns/src/wire.rs:101-125 | what a parsed message says of its id, its truncation bit and its response codes 0, 2, 3 and 5, octet by octet |
| `DnsMessage.AddressExactly` | crates/proto-dns/src/wire.rs:150-166 | type 1 with 4 octets and type 28 with 16 octets carry an address, and nothing else does |
| `DnsMessage.ResponseRoundTrip` | crates/proto-dns/src/wire.rs:101-175 | a response whose records point back at the question parses to its id, outcome and exactly the addresses its records carry |
| `DnsMessage.CutIsShort` | crates/proto-dns/src/wire.rs:101-175 | a message that was cut anywhere means the same or is found to be short: it is never misread |
| `WireName.NormalExactly` | crates/abi/src/uri.rs:119-129 | the hosts that normalisation leaves alone, exactly |
| `WireName.CaseBlind` | crates/abi/src/uri.rs:119-129 | hosts that differ in the case of ASCII letters only are normalised alike |
| `WireName.TrimExactly` | crates/abi/src/uri.rs:119-121 | exactly the white space around a host is trimmed |
| `WireName.SpaceExactly` | crates/abi/src/uri.rs:119-121 | white space is the 25 code points of the Unicode property, one by one |
| `WireName.PortExactly` | crates/abi/src/uri.rs:122-128 | what follows the last colon is taken off exactly if it is all digits and the colon is not in front |
| `WireName.SafeExactly` | crates/abi/src/uri.rs:81-89 | a safe label has 1 to 63 small letters, digits and hyphens, and no hyphen at either end |
| `WireName.UsableExactly` | crates/abi/src/uri.rs:119-129 | the usable domains are exactly those that normalisation leaves whole at the end of a name |
| `WireName.UnderDomain` | crates/abi/src/uri.rs:119-129 | a name under a registered domain survives normalisation if and only if the domain is usable |
| `WireName.LabelsFromPath` | crates/abi/src/uri.rs:102-115 | the reversed segments exactly when no segment is a class noun or unsafe |
| `WireName.SlashesTrimmed` | crates/abi/src/uri.rs:102-106 | slashes around a path do not count |
| `WireName.PathFromLabels` | crates/abi/src/uri.rs:172-184 | the reversed labels joined, exactly when all are safe |
| `WireName.PathRoundTrip` | crates/abi/src/uri.rs:102-184 | projecting a path and joining the labels again gives the path without outer slashes |
| `WireName.LongestSuffix` | crates/abi/src/uri.rs:207-216 | the longest registered suffix, or none exactly when no suffix is registered |
| `WireName.ResolveWireName` | crates/abi/src/uri.rs:200-240 | the longest registered suffix decides the tenant, otherwise the last label, otherwise the root; the rest is the reversed path if safe |
| `WireName.ResolvesCaseBlind` | crates/abi/src/uri.rs:200-240 | names that differ in case only resolve alike |
| `WireName.DomainRoundTrip` | crates/abi/src/uri.rs:200-240 | under any registered domain the projection resolves back if and only if what normalisation leaves of the domain is registered for the same tenant with no longer suffix registered, or is an unregistered single label naming the tenant; under a usable domain, if and only if no strictly longer suffix is registered |
| `WireName.SafeDomain` | crates/abi/src/uri.rs:81-89 | every domain made of DNS-safe labels is usable, so the round trip covers it |
| `WireName.SeededUnusable` | crates/abi/src/uri.rs:47-50 | for every safe label, seeding it with two dots registers it with one dot, which is not usable |
| `WireName.DottedDomain` | crates/abi/src/uri.rs:200-240 | with only such a domain registered, every name projected under it resolves to the tenant of its last label, whatever tenant the domain is registered for |
| `WireName.TenantRoundTrip` | crates/abi/src/uri.rs:200-240 | under the tenant's own label the projection resolves back if and only if no suffix is registered, or only the label itself, to the same tenant |
| `WireName.DomainTable.Seed` | crates/abi/src/uri.rs:47-50 | registers the normalised domain, which is the domain itself when plain; no key ever starts with white space |
| `Frame.Checksum` | crates/memory/src/frame.rs:72-79 | FNV-1a over the bytes with 32-bit wrap-around |
| `Frame.Encode` | crates/memory/src/frame.rs:57-66 | the fields, their checksum and zero padding in sixteen bytes, each word least significant byte first |
| `Frame.WordsBack` | crates/memory/src/frame.rs:57-66 | where each field and the checksum sit in the encoding |
| `Frame.HeaderRoundTrip` | crates/memory/src/frame.rs:57-115 | decoding inverts encoding for every header, whatever follows |
| `Frame.DecodedOctets` | crates/memory/src/frame.rs:85-115 | a decoded header is what its bytes say, least significant first |
| `Frame.LayoutExactly` | crates/memory/src/frame.rs:85-92 | a layout is invalid exactly below sixteen bytes |
| `Frame.CorruptionDetected` | crates/memory/src/frame.rs:85-98 | any one of bytes 0 to 12 replaced by a different value yields `CorruptedHeader` |
| `Frame.FnvDetects` | crates/memory/src/frame.rs:72-79 | one changed byte changes the checksum, at any length |
| `Frame.FnvClearsFirst` | crates/memory/src/frame.rs:72-79 | a byte is mixed in before the multiplication: one equal to the low byte of the hash so far leaves only the upper bytes to multiply |
| `Frame.FnvStart` | crates/memory/src/frame.rs:72-74 | the checksum of nothing is the offset basis |
| `Frame.PaddingIgnored` | crates/memory/src/frame.rs:85-115 | bytes 13 and up do not matter |
| `Ids.HashedIdInjective` | crates/kernel/src/kernel.rs:88-93 | for every seed, distinct 64-bit counters give distinct ids |
| `Ids.SeedsExactly` | crates/kernel/src/kernel.rs:88-93 | ids of any two seeds and counters are equal if and only if the sums of seed and counter agree modulo 2^64 |
| `Ids.ZeroExactly` | crates/kernel/src/kernel.rs:88-93 | the zero id comes exactly from the counter that brings the seed to zero |
| `Ids.IdRoundTrip` | crates/kernel/src/kernel.rs:88-93 | for every seed the counter comes back from the id, by the inverse shifts and multipliers |
| `Ids.OneRetry` | crates/kernel/src/memory.rs:55-73 | two counters in a row never both give zero |
| `Ids.IdCounter.NextId` | crates/kernel/src/memory.rs:55-73 | a non-zero id after at most one retry, different from all issued before until one is drawn from a counter that has wrapped, the id at the largest counter included |

## Left out

- Yield delivery with several workers: an entry for a task still being polled is dropped by `apply_yield_queue`, so the yield claim is for one worker.
- Wakes of `JoinHandle` across workers, and `spawn_poll_owner` called more than once per process.
- The pool mode of `worker_loop` and the bootstrap pass with `pop_specific` as methods: they are events of `Executor`, in the order the program counter gives.
- Weak-memory orderings, raw wakers and native wait words: steps are sequentially consistent and a wait is an atomic compare-and-sleep.
- Parking words mirrored by the host in the mailbox: the guest never reads them.
- RegionCode.RegionRuntime.FreeRegion: is tied to the whole-hostcall events of `Regions`, as are the other methods of that class; the interleaved sections are `RegionRaces`.
- In `RegionRaces` the kernel allocation and the claim of its owner are one event, and so are the two quota calls of a handoff; the item a receive pops is a parameter.
- The region length the kernel returns is taken to be the requested size.
- Region handoff and queue delivery in one system: `Delivery` items carry no region.
- Sleeping operations, and the mailbox wake sent after a wake pass.
- Ownership checks on local handles before a send or a receive.
- QueueCode.QueueRuntime.Recv: requires a free operation id, since the source panics without one.
- Kernel-originated queue items, TCP listener queues, and process teardown.
- Kinship.AuthorityMonotone: when the ancestor's grants speak of children it needs kin to pass up the lineage; `ChildrenExactly` shows that this cannot be weakened.
- ProcessCode.ProcessTable.StopProcess: the methods of this class run one after the other, so no stop is under way between them; the interleavings are those of `SpawnTree`.
- Authorisation is decided on one table, while the runtime reads the grants and then walks the parent links in a second section.
- The lower-casing of host names is a parameter of `Endpoints`, and so is the URI matcher in `Authority` and `Kinship`: what they say of prefixes holds for every matcher that is monotone.
- The signal that follows a host stop enters as a `Signal` of an outside thread, and the host is not required to send it.
- The process's tenant and whether a grant of it admits the tenant asked for are parameters of `Tenancy.Principal` in `QueueCode`; the delegation is a parameter in `Regions` too.
- The `ProcessLifecycle` check, module lookup and process quota of `ProcessStart`.
- Waiting for readiness and registration in the bootstrap: an outcome per guest stands for it, and discovery setup is not modelled.
- The textual form of IP addresses: addresses are their octets.
- Parsing of `sel://` URIs, typed URIs and wildcards: these would add only easy members.
- Flag accessors of the frame header, metering, storage, TLS, QUIC and the command line.
