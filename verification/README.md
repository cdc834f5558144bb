# Drafter live migration, modelled and proved in Dafny

Drafter moves a running virtual machine between hosts. The source announces its devices, copies them
while the guest goes on writing, and keeps sending what became dirty. When every device has become quiet
enough, it suspends the machine once, drains each device until nothing is dirty, and hands over authority
device by device. The destination counts received devices against authorities, and resumes the machine
when the two are level. This project models that protocol and the code around it, and proves what it
promises: nothing is lost, one side owns the guest at a time, the loop converges and, with nobody held
up for ever, ends. Where the code does not keep a promise, the exact condition under which it does is proved.

`dafny verify dfyconfig.toml` checks the whole project. Lemmas switch off the induction that Dafny tries by
itself (`{:induction false}`): every inductive argument is written out.

## How it is built

`Options.dfy` declares the one type for values that may be missing. The protocol, for any number of devices and
every interleaving:

- `Migration.dfy`: the step machine. One step is what another goroutine can observe: draining and reading
  `suspendedVM` are two steps, and so are adding to a shared counter and reading it. Errors are steps, too
  (`Fail`, `Eof`). `Cycles.dfy` holds the cycle counters of one device.
- `Barrier.dfy`, `Storage.dfy`, `Connection.dfy`, `Simulation.dfy`, `Layering.dfy`, `LastOne.dfy`: the parts of
  the inductive invariant, each with the lemma that every step keeps it. `Invariants.dfy` joins them.
- `Handover.dfy`, `Exactness.dfy`, `Ownership.dfy`: what arrives, and who owns the guest, in reachable states and
  over whole runs. `Trap.dfy` drives configurations into a stale handover and into a clean one, and says for which
  of them the handover is always right.
- `Termination.dfy`, `Progress.dfy`, `WholeRun.dfy`: the bounds before the marks, after the suspension and in between,
  and the whole run. `Convergence.dfy`: which drains the counters count. `Program.dfy`: runs as sequences of operations.
- `LiveMigration.dfy`: the two programs in their own form, a class with their variables and one method for
  each step, proved to be the steps of the machine.
- `Receiver.dfy`: the receiver under any sender, with and without a barrier.

Around it: `ConcurrentMap.dfy` (the fan-out), `Pipeline.dfy` (which devices reach which stage),
`Chain.dfy` (any number of migrations in a row), `BlockRange.dfy` (requests for bytes as blocks),
`Firewall.dfy` (port forwards and their cleanup), `Packager.dfy` (archives), `Runner.dfy` (resume, rescue,
suspend and the end of the process).

## What is assumed of the parts that are not modelled

- `GetLatestDirty` returns and clears, in one step, every block recorded as written since it was sent. When
  it returns nothing, it leaves the storage locked, and a locked storage is not written.
- `MigrateDirty` has put its blocks on the connection when it returns, and it reads a block before it sends it.
- A connection delivers in order, and its handlers run in delivery order.
- The waiting cache does not serve a block that `DirtyBlocks` named until it is written again.
- A guest write to a disk reaches the source's storage at once. One to the memory reaches it through the
  kernel at any time, or at the next msync; the state device is written by a snapshot only.
- Whether the dirty tracker also records a write to a block that is still due to be read is left open
  (`tracksUnread`); all results hold either way.

## What the proofs brought to light

- An empty drain and the look at `suspendedVM` are two steps. A device can drain nothing, be written to,
  and then find the flag that another device raised meanwhile; it leaves with a block unsent, and the
  destination resumes on a stale one. This can happen to every device that has a block, in every configuration
  of more than one device (`Trap.HandoverCanBeStale`). With one device it cannot, and a peer then always hands over
  what its guest saw, if its snapshot reaches the device (`Trap.FreshExactly`, for every configuration). What is
  unsent is always exactly what was written after the last empty drain (`Handover.DrainExactness`), and that is
  nothing if the drain began after suspension (`Handover.NothingUnsentAfterSuspendedDrain`). Whatever happens, the
  destination gets each device exactly as it was at its last drain (`Exactness.HandoverIsLastDrain`).
- The end of the connection counts as success and gives both signals. While the source's machine runs, the
  destination is ready exactly if the connection has closed (`Handover.SingleOwner`), and for every configuration
  this can let it resume beside the running machine without anything of it, on its own local files
  (`Ownership.EarlyCloseSplitsOwnership`).
- The registry starts the goroutine that sends a device's authority without a barrier, so its receiver can
  be ready before all devices were announced, exactly if there is more than one (`Receiver.RegistryPrematureExactly`).
- A resume that is under way is waited for only by the goroutine that passes the end of the hypervisor's context
  on to the process. The process's own context derives from the one for rescues, and `Close` asks nobody: it is
  called by the rescue of a private mapping and, for a migrated peer, as soon as its hypervisor is cancelled. The
  process can be killed under a resume exactly in these three cases, or when any other caller closes it (`Runner.KilledDuringResumeExactly`); a peer gives up
  every resume (`Runner.PeerDropsItsResumes`), and a runner that nobody closes none
  (`Runner.RunnerKeepsItsResumes`).
- One goroutine that is never scheduled keeps all others in their loops. As long as the flag is down, this is
  the only reason: some device is not marked and has had at most its bounded number of steps, or all together have
  had at most a bounded number since all are marked (`WholeRun.FlagDownIsAccounted`).
- `ConcurrentMap` counts a goroutine as done before it joins its error. Outputs and defers are complete,
  but for any failures there is a schedule that reports none (`ConcurrentMap.AllErrorsCanBeMissed`). A caller
  like `MigrateFrom` may then succeed without a device that could not be opened (`Pipeline.Partition` says when).
- A private mapping whose output path is set stores the snapshot outside the migrated device. Nothing that the
  guest ever wrote there arrives (`Exactness.UnreachedArrivesOld`), however clean the handover is
  (`Trap.ArrivesExactly`).
- The upper bound on cycles is attained exactly when a quiet cycle is possible or none is asked for
  (`Cycles.LatestIsAttained`), the lower one when a quiet cycle is possible or `MaxCycles` is not above `MinCycles`
  (`Cycles.EarliestIsAttained`), and a block count overflows exactly for devices within one block of the largest
  size (`BlockRange.WithinTotalExactly`).
- Deleting a firewall rule takes the first match, so a rule that was there before keeps its number but can
  lose its place (`Firewall.OrderRestoredExactly`).

## Model

| member | source | states |
|---|---|---|
| Cycles.AfterOk | pkg/peer/migrate_to.go:376-386 | after any sequence of drains the counters satisfy the invariant from which both bounds follow |
| Cycles.ConvergenceBound | pkg/peer/migrate_to.go:376-386 | for all limits and drains: never marked before counted cycle min(MinCycles, MaxCycles)+1, always marked from MaxCycles+MinCycles+1 on |
| Cycles.LatestIsAttained | pkg/mounter/migrate_to.go:349-359 | the upper bound is attained if and only if MaxDirtyBlocks is at least 1 or MinCycles is at most 0 |
| Cycles.EarliestIsAttained | pkg/peer/migrate_to.go:376-386 | the lower bound is attained if and only if MaxDirtyBlocks is at least 1 or MaxCycles is at most MinCycles, both clipped at zero |
| Cycles.MarkedExactly | pkg/peer/migrate_to.go:376-386 | for all limits and drains: marked if and only if some cycle is the last of more than MinCycles quiet ones in a row, or is not quiet and beyond MaxCycles |
| Cycles.CountCyclesUntilMarked | pkg/peer/migrate_to.go:285-386 | the counting loop marks if and only if there is such a cycle, and in the first one, within both bounds |
| Convergence.CountersExactly | pkg/peer/migrate_to.go:308-386 | in every run the counters of a device are those of the lengths that its drains returned, all but the last while its cycle is not counted yet |
| Convergence.RunMarksExactly | pkg/peer/migrate_to.go:308-386 | so in every run a device is marked if and only if one of its counted drains makes it ready, never before the lower bound and always from the upper one on |
| Program.ProgramOrder | pkg/peer/migrate_to.go:150-424 | in every run, whatever the others do meanwhile, the operations of one goroutine follow each other as its code has them |
| Program.ProgramStart | pkg/peer/migrate_to.go:150-156 | the first of them is the announcement of its device |
| Program.DoneHasCompleted | pkg/peer/migrate_to.go:416-424 | in every run a goroutine that has ended has sent its Completed |
| Barrier.BarrierStep | pkg/peer/migrate_to.go:90-124 | every step of every goroutine keeps the barrier invariant: counters equal the sizes of the counted and marked sets, the lock and the suspension have one holder |
| Storage.StorageStep | pkg/peer/migrate_to.go:302-347 | every step keeps: no batch is under way when a drain is due, what was read and not written since is what the storage holds, guest and storage differ only where a write is unsynced |
| Storage.LockedStorageStays | pkg/peer/migrate_to.go:308-310 | between an empty drain and the unlock no step of anybody changes the storage of the device |
| Connection.ConnectionStep | pkg/peer/migrate_from.go:273-313 | every step keeps: packets in flight are in an order that makes the two signals mean what they say |
| Connection.FenceMeansAllInfoSent | pkg/peer/migrate_to.go:162-176 | an AllDevicesSent or TransferAuthority in flight means that every DevInfo was sent |
| Simulation.SimulationStep | pkg/peer/migrate_to.go:308-347 | every step keeps: the destination, once it has got what is in flight, agrees with the source outside the dirty set and the batch |
| Layering.LayeringStep | pkg/runner/resume.go:69-158 | every step keeps: after the pause the guest stays paused, and each snapshot file that reaches its device leaves nothing unsynced there |
| Layering.NoWriterWhenSuspended | pkg/peer/migrate_to.go:291-300 | once the flag is up, no operation that writes a source device can run, because the msync tests the flag under the lock |
| Program.FlagWaitsForMsync | pkg/peer/migrate_to.go:291-319 | while a goroutine syncs the memory under the lock, nobody reads the flag and nobody raises it |
| Program.SuspensionInOrder | pkg/peer/migrate_to.go:90-124 | in every run of a peer, where the flag is up the agent was closed, the machine paused, state and memory stored, the memory synced and the flag raised, once each and in this order; at an earlier stage, what comes before it |
| Layering.DrainsStep | pkg/peer/migrate_to.go:308-319 | every step keeps: a drain that began after suspension and returned nothing leaves nothing dirty |
| Invariants.ReachableInv | pkg/peer/migrate_to.go:150-428 | every reachable state satisfies the joint invariant |
| Handover.AuthorityBarrier | pkg/peer/migrate_to.go:281-283 | the ready counter is the number of marked devices and at most N; suspension means all are marked; authority is sent only after suspension and after every DevInfo |
| Handover.SuspendsAtMostOnce | pkg/peer/migrate_to.go:388-392 | in every run suspension is entered at most once, and with the counter at N |
| Handover.ComposedReadiness | pkg/peer/migrate_from.go:285-292 | the receiver's counter is devices received minus authorities; ready if and only if the connection has closed or all N, of at least one, are authorised, and then received; without a close allReceived means that all were received |
| Handover.DataSimulation | pkg/peer/migrate_to.go:290-347 | in every reachable state: with everything in flight delivered, clean blocks equal the source's, and announced ones are not served |
| Handover.AnnouncedIsNotServed | pkg/peer/migrate_from.go:305-313 | in every run, from the delivery of a dirty list on, its blocks are not served until one is delivered again |
| Handover.WrittenIsRecorded | pkg/peer/make_migratable.go:83-95 | a step changes only the blocks that it writes, and the tracker records exactly these, or exactly what of them is not still due to be read |
| Handover.DrainExactness | pkg/peer/migrate_to.go:308-319 | in every run, what a device that left the loop has not sent is exactly what was written after its last drain, which returned nothing |
| Handover.NothingUnsentAfterSuspendedDrain | pkg/peer/migrate_to.go:388-392 | that is nothing if the drain began after suspension, as it does once the device's own call of suspendAndMsyncVM has returned |
| Program.DrainsAfterOwnCall | pkg/peer/migrate_to.go:308-392 | in every run, once an own call of suspendAndMsyncVM has returned, the flag is up for every drain that the goroutine starts |
| Handover.SuspendedIsFlushed | pkg/peer/migrate_to.go:100-119 | when the flag is up the machine is paused and every disk holds what the guest sees, the state device too if the mapping is shared or the state has no output path, and the memory device if it is shared or the memory has none |
| Handover.SuspendedStaysQuiet | pkg/peer/migrate_to.go:291-300 | in every run from then on neither storage nor the guest's view changes, with a mounter as long as its users do not write |
| Handover.PausedStaysPaused | internal/firecracker/client.go:198-224 | in every run, from the pause on the source's guest is not resumed and its content does not change |
| Handover.HandoverContent | pkg/peer/migrate_from.go:566-575 | once the authority of a device that its snapshot reaches has arrived, and whether or not the connection has closed since, the destination holds what the guest saw at the pause, if its last drain followed suspension |
| Handover.EndToEndHandover | pkg/peer/migrate_to.go:395-406 | once all authorities have arrived and if all last drains followed suspension, the destination is ready, all devices that their snapshots reach are what the guest saw, and the source's machine is paused |
| Exactness.HandoverIsLastDrain | pkg/mounter/migrate_to.go:281-292 | in every run of a peer or a mounter, whatever is written and whenever it suspends or closes: once its authority has arrived, the destination holds a device exactly as its storage was at its last drain, which returned nothing |
| Exactness.HandoverExactly | pkg/peer/migrate_to.go:308-318 | so it is what the guest saw at the pause if and only if the storage was already that at the last drain |
| Exactness.HandoverAfterFlag | pkg/mounter/migrate_to.go:281-292 | in every run of a peer or of a mounter whose users do not write from the flag on: a device whose last drain followed the flag has nothing unsent and arrives as it is, unless its snapshot does not reach it |
| Exactness.UnreachedArrivesOld | pkg/runner/resume.go:112-129 | in every run of a peer with a private mapping: the state device, if the state has an output path, and the memory device, if the memory has one, arrive as their storage was before the first step |
| Handover.SingleOwner | pkg/peer/migrate_from.go:566-575 | in every reachable state with the source's machine running, no authority has arrived, and the destination is ready, without which it neither returns nor resumes, if and only if the connection has closed |
| Handover.AuthorisedMeansPaused | pkg/peer/migrate_to.go:312-318 | an authority has arrived only from a source whose machine is paused |
| Program.NothingAfterClose | pkg/peer/migrate_from.go:322-341 | in every run, after the close nothing more is received or authorised, both signals stay given, and only the resumed guest changes what the destination holds |
| Ownership.RefinesAtomicHandover | pkg/peer/migrate_to.go:388-406 | with snapshots that reach their devices, every step between clean states is, seen from outside, a write by the one owner, nothing, or one handover of all content; clean: ready only with all authorities and all last drains after suspension |
| Ownership.CleanThroughout | pkg/peer/migrate_from.go:322-348 | a run that is clean in its last state was clean throughout: an early close is never made good, and a last drain stays the last |
| Ownership.OwnerSeesAllWrites | pkg/peer/migrate_from.go:566-575 | in every run that ends clean the owner's content is the initial one with all writes of both guests applied in order, also after the connection has ended |
| Ownership.OwnershipPassesOnce | pkg/peer/migrate_to.go:312-318 | in every run that ends clean: once the destination is ready it stays the owner, and the source's guest never writes again |
| Ownership.EarlyCloseSplitsOwnership | pkg/peer/migrate_from.go:322-341 | for every configuration: a run in which the connection closes at once resumes a destination that has nothing of the source beside a running source |
| LastOne.LastMarkerSuspends | pkg/peer/migrate_to.go:376-392 | when all are marked and suspension has not begun, some goroutine stands before the read of the counter or before the call, and, unless it has failed, its next one or two steps are enabled and begin the suspension |
| LastOne.AllDevicesSent | pkg/peer/migrate_to.go:162-176 | in every run at most N AllDevicesSent are sent, none before every DevInfo, and at least one is due or sent when all have read the counter |
| Termination.OwnStepLowers | pkg/peer/migrate_to.go:290-393 | each own step of a device that stays unmarked uses up potential |
| Termination.MarkedWithinBound | pkg/peer/migrate_to.go:376-386 | in every run an unmarked device has taken at most an explicit number of own steps, whatever the guest and the others do |
| WholeRun.MarkedRunIsBounded | pkg/peer/migrate_to.go:290-393 | in every run, from the moment all are marked until the flag is up, the own steps of all devices together use up one measure, whatever the guest, the kernel and the destination do |
| WholeRun.RunSuspends | pkg/peer/migrate_to.go:281-393 | in every run: when each device is marked or has taken more own steps than its bound, all are marked, and an explicit number of own steps later the machine is suspended |
| WholeRun.FlagDownIsAccounted | pkg/peer/migrate_to.go:290-393 | in every run, however scheduled: while the flag is down some unmarked device has taken at most its bound of own steps, or all together at most the second bound since all were marked |
| WholeRun.WholeRunEnds | pkg/peer/migrate_to.go:281-424 | the three phases together: a run without errors and early close suspends within the bounds, goes on for at most the measure from there, and where it cannot go on it has finished on both sides |
| Progress.SuspendedStepLowers | pkg/peer/migrate_to.go:290-319 | after suspension every step lowers one measure, except a write by the resumed guest; with a mounter as long as its users do not write |
| Progress.SuspendedRunIsBounded | pkg/peer/migrate_to.go:290-424 | so the rest of any run is bounded, without any fairness |
| Progress.AtMostTwoDrains | pkg/peer/migrate_to.go:302-319 | in every run a device starts at most two drains after suspension |
| Progress.NoDeadlock | pkg/peer/migrate_to.go:290-424 | in every reachable state without a failure some step of the two programs can be taken until all is finished |
| Progress.StuckMeansFinished | pkg/peer/migrate_from.go:404-412 | a run that cannot go on has delivered everything, and the destination has resumed |
| Trap.HandoverCanBeStale | pkg/peer/migrate_to.go:308-318 | for every configuration of more than one device and every device of it with a block: a reachable state in which all authorities have arrived over an open connection and the served block is not what the guest saw |
| Trap.HandoverCanBeClean | pkg/peer/migrate_to.go:308-406 | from every first state: a reachable state in which all authorities have arrived over an open connection and all last drains followed suspension, with the guest unchanged since the beginning |
| Trap.FreshExactly | pkg/peer/migrate_to.go:308-318 | for every configuration, private mappings and mounters included: the destination with all authorities always holds what the guest sees if and only if no device has a block, or it is a peer of one device that is a disk or whose file is stored in place |
| Trap.ArrivesExactly | pkg/runner/resume.go:112-129 | for every peer and device: a device whose last drain followed suspension always arrives as the guest saw it if and only if it has no block, or is a disk, or its mapping is shared or its own file has no output path |
| Receiver.CounterExactly | pkg/peer/migrate_from.go:143 | for any packets in any order: the counter is announcements minus authorities, and ready means that some authority levelled them |
| Receiver.PrematureExactly | pkg/mounter/migrate_from.go:260-267 | with each device in its own order, ready comes too early if and only if at some authority all announced devices, but not all devices, are authorised |
| Receiver.BarrierIsNeverPremature | pkg/mounter/migrate_to.go:100-108 | a barrier excludes that |
| Receiver.RegistrySendsExactly | pkg/registry/migrate_to.go:50-197 | the registry's goroutines, as a step system, can send exactly the packet sequences that keep each device's own order |
| Receiver.RegistryPrematureExactly | pkg/registry/migrate_to.go:186-197 | so it can make its receiver ready too early if and only if it has more than one device |
| LiveMigration.LiveMigration.constructor | pkg/peer/migrate_to.go:90-152 | starts in an initial state of the machine, with the given devices |
| LiveMigration.LiveMigration.SendInfo | pkg/peer/migrate_to.go:152-156 | the announcement is sent, the first of its device, and no AllDevicesSent or authority has been sent or taken yet |
| LiveMigration.LiveMigration.CountAsSent | pkg/peer/migrate_to.go:162 | after the add the counter is at N if and only if every device has been counted |
| LiveMigration.LiveMigration.ReadForSending | pkg/peer/migrate_to.go:273-275 | a block the migrator has read is one that the destination, once it has got what is in flight, will not serve: a stale copy is never exposed between read and send |
| LiveMigration.LiveMigration.SendRead | pkg/peer/migrate_to.go:330 | of what will have arrived exactly this block of this device changes, to what was read; if nothing was written to it since, it is then what the storage holds |
| LiveMigration.LiveMigration.InitialMigrationEnds | pkg/peer/migrate_to.go:277-279 | with everything in flight delivered the destination holds every block as the storage does, but for the dirty ones |
| LiveMigration.LiveMigration.MsyncUnderLock | pkg/peer/migrate_to.go:293-300 | with a shared mapping the storage of the memory is what the guest sees, and the lock is released |
| LiveMigration.LiveMigration.AwaitOngoingMigrations | pkg/peer/migrate_to.go:302 | with everything in flight delivered the destination holds every block as the storage does, but for the dirty ones |
| LiveMigration.LiveMigration.UnlockAfterEmptyDrain | pkg/peer/migrate_to.go:310 | nothing of a batch is left to send, and nothing at all if the drain began after suspension |
| LiveMigration.LiveMigration.LeaveIfSuspended | pkg/peer/migrate_to.go:312-318 | a goroutine that leaves does so with all devices marked and its batch sent, and with nothing unsent if its drain began after suspension |
| LiveMigration.LiveMigration.AnnounceDirty | pkg/peer/migrate_to.go:321-324 | of what will have arrived exactly the blocks of the batch are not served any more |
| LiveMigration.LiveMigration.SuspendIfAllReady | pkg/peer/migrate_to.go:388 | the goroutine goes on to suspend if and only if every device is marked |
| LiveMigration.LiveMigration.AwaitMigrator | pkg/peer/migrate_to.go:412-414 | everything read has been sent, and the device's authority is in flight or has arrived |
| LiveMigration.LiveMigration.SendCompletedOf | pkg/peer/migrate_to.go:416-420 | Completed is sent, and after the device's authority, which is in flight or has arrived |
| LiveMigration.LiveMigration.WriteBack | pkg/runner/resume.go:224-235 | by the kernel, for memory that was mapped shared and so at any time, but not after suspension; the block of the storage becomes what the guest sees and is due to be sent, and what will have arrived does not change |
| LiveMigration.LiveMigration.FailGoroutine | pkg/peer/migrate_to.go:294-298 | a failed goroutine leaves neither the lock nor the suspension behind: their holder is alive and at its place |
| LiveMigration.LiveMigration.PassAllReceived | pkg/peer/migrate_from.go:404-412 | passing the first wait with an open connection means that all devices were received |
| LiveMigration.LiveMigration.WriteByResumedGuest | pkg/peer/migrate_from.go:161-199 | the source's machine does not run at the same time unless the connection closed before any authority arrived |
| LiveMigration.LiveMigration.CheckAllSent | pkg/peer/migrate_to.go:162-163 | AllDevicesSent is due if and only if every device has been counted |
| LiveMigration.LiveMigration.SendAllDevicesSent | pkg/peer/migrate_to.go:164-170 | AllDevicesSent is sent, and every DevInfo has been sent before |
| LiveMigration.LiveMigration.LockUnlessSuspended | pkg/peer/migrate_to.go:291-293 | the lock is kept if and only if the device is the memory of a peer and the flag is down, and its holder is at its msync |
| LiveMigration.LiveMigration.Drain | pkg/peer/migrate_to.go:308-309 | the batch is what was dirty, its length is noted for the cycle, nothing is dirty then, and an empty drain locks; with everything in flight delivered the destination holds every block as the storage does, but for the batch |
| LiveMigration.LiveMigration.CountCycle | pkg/peer/migrate_to.go:376-386 | a quiet cycle adds to the row of quiet ones and marks beyond MinCycles, another one marks beyond MaxCycles and else resets the row; the shared counter is the number of marked devices |
| LiveMigration.LiveMigration.Suspend | pkg/peer/migrate_to.go:388-392 | only the first call suspends, and all devices are marked |
| LiveMigration.LiveMigration.SuspendOperation | pkg/peer/migrate_to.go:100-124 | where the flag is raised the machine is paused, and every device whose file is stored in place is what the guest sees |
| LiveMigration.LiveMigration.TransferAuthorityOf | pkg/peer/migrate_to.go:400-406 | authority is sent, after suspension and every DevInfo |
| LiveMigration.LiveMigration.WriteByGuest | pkg/peer/make_migratable.go:83-95 | while a peer's guest writes no authority has arrived, and the destination is ready if and only if the connection has closed |
| LiveMigration.LiveMigration.HandlePacket | pkg/peer/migrate_from.go:285-292 | afterwards the counter is devices received minus authorities, the signal means that all N are authorised, and what will have arrived is what it was |
| LiveMigration.LiveMigration.HandleEnd | pkg/peer/migrate_from.go:322-341 | the signal had been given before if and only if all N were authorised; if the source still runs, none was |
| LiveMigration.LiveMigration.PassAllReady | pkg/peer/migrate_from.go:566-575 | once all authorities have arrived and if all last drains followed suspension, the source is paused and every device that its snapshot reaches is what its guest saw |
| LiveMigration.LiveMigration.Resume | pkg/peer/resume.go:25-94 | the source does not run unless the connection closed before any authority arrived |
| ConcurrentMap.ReturnsPermutation | internal/utils/mapper.go:24-66 | under every schedule: outputs are a permutation of the inputs' outputs, one complete group of defers per input stands beside its output, in registration order |
| ConcurrentMap.ErrorsExactly | internal/utils/mapper.go:57-60 | under every schedule the errors are exactly those of the goroutines that came past the join |
| ConcurrentMap.AllErrorsCanBeMissed | internal/utils/mapper.go:36-64 | for any failures some schedule returns no error |
| ConcurrentMap.ConcurrentMap | internal/utils/mapper.go:8-67 | the goroutines under any schedule: outputs, defers and errors are what it yields, with the permutation property, and the errors are those that it joins |
| ConcurrentMap.ReturnsExactly | internal/utils/mapper.go:24-66 | the wait may return after a schedule if and only if each goroutine has had its turn for every function it defers and once more |
| Pipeline.MigratedPeer.HandleDevInfo | pkg/peer/migrate_from.go:127-213 | appends the remote entry, with the fields of the packet, if and only if the first device of that name has a base that is not blank |
| Pipeline.MigratedPeer.NotReceived | pkg/peer/migrate_from.go:414-426 | the configured devices whose name was not received, in order |
| Pipeline.MigratedPeer.OpenLocal | pkg/peer/migrate_from.go:432-564 | in any order of goroutines, one local entry, numbered by its place, for each device that is not shared and whose base can be opened, also where it fails later; an error is reported if and only if the wait sees errors and some device failed, by its base or, shared or not, afterwards |
| Pipeline.MigrateFrom | pkg/peer/migrate_from.go:127-575 | unknown names are reported exactly, and a failed setup exactly if no name is unknown, the wait sees errors and some device that was not sent failed; on success the stage-2 list up to the order of goroutines |
| Pipeline.EntryOrigin | pkg/peer/migrate_from.go:202-213 | an entry is remote if and only if the source sent its name, and then carries the sender's index, size and block size; a local one is configured and not shared, with the size of its base |
| Pipeline.Partition | pkg/peer/migrate_from.go:414-513 | with distinct names a configured device is listed exactly once if and only if it was sent, or is not shared and could be opened, and none is listed twice |
| Pipeline.FilterMigratable | pkg/peer/make_migratable.go:51-72 | the named entries, in order, each with a configuration of its name |
| Pipeline.MakeMigratable | pkg/peer/make_migratable.go:78-106 | the same entries as a multiset, under any schedule of the fan-out, with their block counts and the first configuration of their name |
| Pipeline.FilterServed | pkg/peer/migrate_to.go:126-147 | the named entries, in order |
| Pipeline.Serve | pkg/mounter/make_migratable.go:56-76 | an entry is served as often as it is listed if both filters name it, otherwise never, under any schedule; it carries its block count and the first configuration of its name in each list |
| Chain.StartsWhereLastEnded | pkg/peer/make_migratable.go:51-95 | a device served on two hops in a row is remote in between and starts with what the first hop left |
| Chain.ChainKeepsEveryWrite | pkg/peer/migrate_to.go:126-147 | over any number of hops a device that all of them serve ends with its first content and all writes in between, in order |
| BlockRange.RangeExactly | pkg/peer/migrate_to.go:179-190 | with the widths of the code, for every request inside the device: a block is in the range if and only if it holds a requested byte |
| BlockRange.WithinTotalExactly | pkg/peer/make_migratable.go:97 | all such blocks are below totalBlocks for every request if and only if the block count does not overflow |
| BlockRange.EmptyRequestExactly | pkg/registry/migrate_to.go:92-103 | a request for no bytes, not at the start, moves no block if and only if it is at the beginning of one |
| BlockRange.EmptyAtStart | pkg/registry/migrate_to.go:92-103 | at the start it moves none if and only if blocks have at most two bytes, because the subtraction wraps |
| BlockRange.NeedAt | pkg/mounter/migrate_to.go:163-174 | the loop prioritises exactly the blocks that hold a requested byte, in order, each once |
| Firewall.ChainsInOrder | pkg/forwarder/forward_ports.go:183-228 | the rules of a port by chain, in the order in which they are appended |
| Firewall.RedirectsExactly | pkg/forwarder/forward_ports.go:207-219 | for every packet: the rules redirect it, in OUTPUT as in PREROUTING, if and only if it is sent to the external address and port by the protocol, and to the internal address and port |
| Firewall.MasqueradesExactly | pkg/forwarder/forward_ports.go:221-226 | they masquerade exactly what goes to the internal address and port by the protocol |
| Firewall.AcceptsExactly | pkg/forwarder/forward_ports.go:183-198 | they accept in FORWARD exactly what comes from or goes to the internal address, and nothing where the external address is the host's own |
| Firewall.RestoresChain | pkg/forwarder/forward_ports.go:262-276 | deleting what was appended, in any order, restores the multiset, and the sequence if nothing of it was there before |
| Firewall.OrderRestoredExactly | pkg/forwarder/forward_ports.go:183-194 | one append and its delete restore the sequence if and only if the rule was absent or only at the end |
| Firewall.ForwardedPorts.Close | pkg/forwarder/forward_ports.go:262-276 | deletes in reverse order, goes on after errors, and has none if the rules are there |
| Firewall.ForwardPorts | pkg/forwarder/forward_ports.go:83-245 | for any interleaving and any failing appends: each port's deferred deletes are exactly the rules before its failing append, all of them where none fails, and those are then in their chains |
| Firewall.ForwardAndClose | pkg/forwarder/forward_ports.go:183-276 | for any ports, interleaving and failures, one close restores every chain as a multiset, and as a sequence if no rule of the ports was in it |
| Packager.ArchivePackage | pkg/packager/archive.go:45-83 | one entry per device with its name and content, in order, or the entries before the first missing file |
| Packager.GreedyIsLeast | pkg/packager/extract.go:37-89 | no placement of the requested names is ahead of the forward scan |
| Packager.ExtractPackage | pkg/packager/extract.go:37-89 | succeeds if and only if the names are a subsequence of the archive's, and writes exactly the contents of the scan, up to the first name that cannot be placed |
| Packager.ExtractedAt | pkg/packager/extract.go:37-89 | a device that was placed gets the content of its entry unless a later one has the same path, and no other file changes |
| Packager.RoundTrip | pkg/packager/extract.go:37-89 | extracting an archive to devices of the same names at distinct paths gives every content back, even with repeated names |
| Runner.ResumedRunner.CreateSnapshotOfVM | pkg/runner/resume.go:69-158 | pauses, stores, and for a private mapping closes the process, waits for its exit and copies state and memory: in this order, up to the end or the first failure |
| Runner.ResumedRunner.Resume | pkg/runner/resume.go:160-288 | starts the agent, owns its socket, loads the machine, accepts the agent and tells it, in this order, up to the end or the first failure of one of them or of a background wait; a failed one is rescued, by closing the connections and a snapshot, if and only if the machine had been loaded |
| Runner.ResumedRunner.FailInBackground | pkg/runner/resume.go:160-257 | a background wait that fails after the resume has returned triggers the rescue, again if there was one, if and only if the machine had been loaded |
| Runner.ResumedRunner.Msync | pkg/runner/msync.go:11-28 | never pauses, and does nothing with a private mapping |
| Runner.ResumedRunner.SuspendAndCloseAgentServer | pkg/runner/suspend.go:12-37 | tells the guest, closes the connection and the server, pauses and stores, in this order, and gives up exactly at the first failure |
| Runner.KilledDuringResumeExactly | pkg/runner/start.go:83-140 | in every life of the process, at every moment at which a resume is under way since before the cancel: without a further step from outside the process can be killed if and only if the context for rescues was cancelled, or the process is closed, by a caller, by a private rescue, or by a migrated peer whose hypervisor or migration has ended |
| Runner.IdleProcessEndsExactly | pkg/runner/start.go:83-140 | in every life, at every moment without a resume under way: the goroutines alone come to the kill if and only if the hypervisor or rescues were cancelled or the process is closed |
| Runner.RunnerKeepsItsResumes | pkg/runner/start.go:83-91 | so where nobody closes the process, it can be killed under such a resume if and only if the context for rescues was cancelled |
| Runner.PeerDropsItsResumes | pkg/peer/migrate_from.go:382-401 | in every life of a migrated peer that is ready, from the cancel of its hypervisor on the process can be killed, whatever resume is under way |
| Runner.PeerKilledDuringResume | pkg/peer/migrate_from.go:349-401 | every life in which a ready peer is resuming goes on with the cancel of its hypervisor, the peer's close and the kill, under the same resume, without another caller of Close and with the context for rescues as it was |
| Runner.ReadyPeerResumes | pkg/peer/migrate_from.go:390-393 | there is such a life, with a resume that began before any cancel |

## Left out

- Timeouts, contexts and the goroutine manager: they appear as steps that fail, at any place.
- The `DontNeedAt` range: it divides by the size of the device, so it names block 0 for every request inside it.
- Silo's migrator, dirty tracker, waiting cache, block orderer and wire protocol: the assumptions above stand for them.
- An announced block that the destination reads in the meantime: it waits; only serving is modelled.
- The 32-bit width of the atomic counters: N is assumed to fit, as the conversion of the device count in the code does.
- More than one connection between the same hosts, and packets that are not of these kinds (lock and unlock events).
- A goroutine of the destination that fails: the destination then takes no more steps.
- Hooks, custom payloads, file paths, NBD devices, device nodes, padding, HTTP bodies and JSON.
- The overlay and state files of a local device: only its base decides whether it opens.
- A block size of zero, for which the code divides by zero.
- The mounter's final list of device paths, which is the stage-2 list entry by entry.
- `internal/network`, `pkg/nat`, `pkg/ipc`, `internal/vsock`, `pkg/terminator`, `pkg/snapshotter` and `cmd`.
- The encoding of archives: an archive is a sequence of names and contents.
- Looking up a port's address in its network namespace: a port whose lookup fails appends no rule.
- A fair scheduler: the bounds before suspension count the own steps of the devices, and `WholeRun.FlagDownIsAccounted` says which step is missing while there is no suspension.
- Runner.ResumedRunner.Resume: does not say that an agent whose accept failed is closed, because what the failed call returns is not part of this model.
- Ownership.RefinesAtomicHandover: asks for snapshots that reach their devices (`Trap.ArrivesExactly` shows that it must), for a destination that is ready by authorities and not by an early close, and for last drains after suspension; `Ownership.EarlyCloseSplitsOwnership` and `Trap.HandoverCanBeStale` show for every configuration what happens otherwise.
- A rescue that begins while an operation of its resume is still under way: a failed background wait is taken between two operations.
- LiveMigration.LiveMigration.ThrottleCycle: says only that it is the machine's step, because throttling changes nothing but the place.
