/** The two programs as they run: the variables of `MigrateTo` and `MigrateFrom`, changed in place by one
    method for each of their steps. Every method is proved to be a step of the machine, so that what is
    proved of all runs holds here at every moment. */
module LiveMigration {
  import opened Cycles
  import opened Migration
  import opened Options
  import opened Barrier
  import opened Connection
  import opened Storage
  import opened Layering
  import opened Invariants
  import opened Handover
  import opened Simulation
  import opened Exactness
  import opened Ownership

  /** A step that flushes nothing changes one device, the shared variables and the connection. */
  lemma {:induction false} Took(cfg: Config, s: State, d: nat, op: Op)
    requires Reachable(cfg, s) && d < cfg.N() && CanRun(cfg, s, d, op) && EffectOf(s.shared, op) == NoEffect
    ensures var dv := s.devs[d];
      RunOp(cfg, s, d, op) == State(
        s.devs[d := Dev(ControlAfter(cfg, s.shared, d, dv.ctl, |dv.vol.dirty|, op), VolumeAfter(cfg, d, dv, op))],
        SharedAfter(cfg, s.shared, d, dv.ctl, op), s.queue + Sent(d, dv.vol, op), s.dst)
    ensures Reachable(cfg, RunOp(cfg, s, d, op)) && |s.devs| == |s.dst.stores| == cfg.N()
    ensures |s.devs[d].vol.guest| == |s.devs[d].vol.src| && s.queue + [] == s.queue
  {
    hide ControlAfter, VolumeAfter, SharedAfter, Sent, ControlReady, VolumeReady, CanFlush, EffectOf, Reachable;
    ReachableSized(cfg, s);
    var t, dv := RunOp(cfg, s, d, op), s.devs[d];
    var after := s.devs[d := Dev(ControlAfter(cfg, s.shared, d, dv.ctl, |dv.vol.dirty|, op), VolumeAfter(cfg, d, dv, op))];
    forall i: nat | i < cfg.N() ensures t.devs[i] == after[i] { assert t.devs[i] == DevAfter(cfg, s, d, op, i); }
    OpSized(cfg, s, d, op);
    ReachableStep(cfg, s, OnDevice(d, op), t);
  }

  lemma {:induction false} ReachableSized(cfg: Config, s: State)
    requires Reachable(cfg, s)
    ensures Sized(cfg, s)
  {
  }

  /** A flush reaches all devices. */
  lemma {:induction false} TookFlush(cfg: Config, s: State, d: nat, op: Op)
    requires Reachable(cfg, s) && d < cfg.N() && CanRun(cfg, s, d, op) && (op.MsyncAndUnlock? || op.SuspendStep?)
    ensures Sized(cfg, s)
    ensures var t, e := RunOp(cfg, s, d, op), EffectOf(s.shared, op);
      && |t.devs| == cfg.N() && t.queue == s.queue && t.dst == s.dst
      && t.shared == SharedAfter(cfg, s.shared, d, s.devs[d].ctl, op)
      && forall i :: 0 <= i < cfg.N() ==> t.devs[i] == Dev(
           if i == d then ControlAfter(cfg, s.shared, d, s.devs[d].ctl, |s.devs[d].vol.dirty|, op) else s.devs[i].ctl,
           Flushed(cfg, i, s.devs[i].vol, e))
    ensures Reachable(cfg, RunOp(cfg, s, d, op))
    ensures op.SuspendStep? ==> s.shared.suspension.InProgress? && s.shared.suspension.caller == d
  {
    hide ControlAfter, SharedAfter, VolumeReady, CanFlush, EffectOf, Reachable, Flushed;
    ReachableSized(cfg, s);
    var t := RunOp(cfg, s, d, op);
    forall i | 0 <= i < cfg.N() ensures t.devs[i] == DevAfter(cfg, s, d, op, i) {}
    assert s.queue + [] == s.queue;
    OpSized(cfg, s, d, op);
    ReachableStep(cfg, s, OnDevice(d, op), t);
  }

  lemma {:induction false} Readiness(cfg: Config, s: State)
    requires Reachable(cfg, s)
    ensures s.dst.counter == |s.dst.received| - |s.dst.authorised|
    ensures s.dst.ready <==> s.dst.eof || (cfg.N() > 0 && s.dst.authorised == Blocks(cfg.N()))
    ensures s.dst.authorised == Blocks(cfg.N()) ==> s.dst.received == Blocks(cfg.N())
  {
    ComposedReadiness(cfg, s);
  }

  lemma {:induction false} SuspendStepEffects(cfg: Config, sh: Shared, d: nat, c: Control, dirty: nat)
    requires d < cfg.N() && sh.suspension.InProgress?
    ensures ControlAfter(cfg, sh, d, c, dirty, SuspendStep) == c
    ensures var stage := sh.suspension.stage;
      && SharedAfter(cfg, sh, d, c, SuspendStep)
           == sh.(suspension := NextStage(sh.suspension.caller, stage), running := sh.running && stage != Pause)
      && EffectOf(sh, SuspendStep) == match stage
           case FlushState => StoreFile(VmState)
           case FlushMemory => StoreFile(Kind.Memory)
           case FinalMsync => MsyncMemory
           case _ => NoEffect
  {
  }

  lemma {:induction false} FailEffects(cfg: Config, sh: Shared, d: nat, dv: Dev, dirty: nat)
    requires d < cfg.N() && |dv.vol.guest| == |dv.vol.src|
    ensures ControlAfter(cfg, sh, d, dv.ctl, dirty, Fail) == dv.ctl.(failed := true) && VolumeAfter(cfg, d, dv, Fail) == dv.vol
    ensures EffectOf(sh, Fail) == NoEffect && Sent(d, dv.vol, Fail) == []
    ensures SharedAfter(cfg, sh, d, dv.ctl, Fail) == sh.(
              lockHolder := if sh.lockHolder == Some(d) then None else sh.lockHolder,
              suspension := if sh.suspension.InProgress? && sh.suspension.caller == d then SuspendFailed else sh.suspension)
  {
  }

  lemma {:induction false} Happened(cfg: Config, s: State, e: Event)
    requires Reachable(cfg, s) && CanHappen(s, e)
    ensures Reachable(cfg, Happen(s, e))
  {
    hide Reachable;
    ReachableSized(cfg, s);
    ReachableStep(cfg, s, AtDestination(e), Happen(s, e));
  }

  lemma {:induction false} EveryInfoSent(cfg: Config, s: State, d: nat)
    requires Reachable(cfg, s) && d < |s.devs| == cfg.N() && (s.devs[d].ctl.announcement == Due || s.devs[d].ctl.pc.Authority?)
    ensures forall i :: 0 <= i < cfg.N() ==> s.devs[i].ctl.pc != SendInfo
    ensures s.devs[d].ctl.pc.Authority? ==> s.shared.suspension.Suspended?
  {
    ReachableInv(cfg, s);
    AllInfoSent(cfg, s, d);
    assert ControlOk(cfg, s.shared, d, s.devs[d].ctl);
  }

  lemma {:induction false} AllMarkedAtSuspend(cfg: Config, s: State, d: nat)
    requires Reachable(cfg, s) && d < |s.devs| == cfg.N() && s.devs[d].ctl.pc.CallSuspend?
    ensures forall i :: 0 <= i < cfg.N() ==> s.devs[i].ctl.cycles.marked
  {
    ReachableInv(cfg, s);
    CountsBounded(cfg.N(), s.devs);
    assert ControlOk(cfg, s.shared, d, s.devs[d].ctl);
  }

  /** What ends up on the migrated device itself when the machine is suspended. */
  predicate StoredInPlace(cfg: Config, k: Kind) {
    || k.Disk? || !cfg.mapPrivate
    || (k.VmState? && cfg.stateOutput == "") || (k.Memory? && cfg.memoryOutput == "")
  }

  lemma {:induction false} PausedAndFlushed(cfg: Config, s: State)
    requires Reachable(cfg, s)
    ensures |s.devs| == cfg.N()
    ensures cfg.mode.Peer? && s.shared.IsSuspended() ==>
              && !s.shared.running
              && forall i :: 0 <= i < cfg.N() && StoredInPlace(cfg, cfg.devices[i].kind) ==> s.devs[i].vol.src == s.devs[i].vol.guest
  {
    hide Reachable;
    ReachableSized(cfg, s);
    if cfg.mode.Peer? && s.shared.IsSuspended() {
      if cfg.N() == 0 { NoDevicesNoSuspension(cfg, s); }
      forall i: nat | i < cfg.N() && StoredInPlace(cfg, cfg.devices[i].kind)
        ensures s.devs[i].vol.src == s.devs[i].vol.guest
      {
        SuspendedIsFlushed(cfg, s, i);
      }
      if cfg.N() > 0 { SuspendedIsFlushed(cfg, s, 0); }
    }
  }

  lemma {:induction false} NoDevicesNoSuspension(cfg: Config, s: State)
    requires Reachable(cfg, s) && cfg.N() == 0
    ensures s.shared.suspension.Idle?
  {
    ReachableInv(cfg, s);
  }

  /* What single steps mean, from the invariant. */

  /** Where nothing of the kind `Fence` is in flight, nothing can make the destination ready. */
  lemma {:induction false} BeforeFirstInfo(cfg: Config, s: State, d: nat)
    requires Reachable(cfg, s) && d < cfg.N() && s.devs[d].ctl.pc.SendInfo?
    ensures DevInfo(d) !in s.queue && d !in s.dst.received && s.dst.authorised == {}
    ensures forall m :: m in s.queue ==> !Fence(m)
  {
    ReachableInv(cfg, s);
    assert TransitOk(d, s.devs[d].ctl, s.queue, s.dst);
    forall m | m in s.queue ensures !Fence(m) {
      if Fence(m) { FenceMeansAllInfoSent(cfg, s, m); }
    }
  }

  lemma {:induction false} CountersExactly(cfg: Config, s: State)
    requires Reachable(cfg, s)
    ensures |s.devs| == cfg.N()
    ensures s.shared.sentCount <= cfg.N() && (s.shared.sentCount == cfg.N() <==> AllCounted(s.devs))
    ensures s.shared.readyCount <= cfg.N() && (s.shared.readyCount == cfg.N() <==> AllReady(s.devs))
  {
    hide Reachable, AllCounted, AllReady, CountedSet, MarkedSet;
    ReachableInv(cfg, s);
    SetsExactly(s.devs);
    hide Inv;
  }

  lemma {:induction false} ReadyIsMarked(cfg: Config, s: State)
    requires Reachable(cfg, s)
    ensures s.shared.readyCount == |MarkedSet(s.devs)|
  {
    ReachableInv(cfg, s);
  }

  lemma {:induction false} SetsExactly(devs: seq<Dev>)
    ensures |CountedSet(devs)| <= |devs| && (|CountedSet(devs)| == |devs| <==> AllCounted(devs))
    ensures |MarkedSet(devs)| <= |devs| && (|MarkedSet(devs)| == |devs| <==> AllReady(devs))
  {
    CountsBounded(|devs|, devs);
    if AllCounted(devs) { assert CountedSet(devs) == Blocks(|devs|); }
    if AllReady(devs) { assert MarkedSet(devs) == Blocks(|devs|); }
  }

  ghost predicate AllCounted(devs: seq<Dev>) { forall i :: 0 <= i < |devs| ==> Counted(devs[i].ctl.pc) }
  ghost predicate AllReady(devs: seq<Dev>) { forall i :: 0 <= i < |devs| ==> devs[i].ctl.cycles.marked }

  /** With everything in flight delivered, the destination holds the device but for the blocks `rest`. */
  ghost predicate UpToDateBut(s: State, d: nat, rest: set<nat>) {
    d < |s.devs| && d < |s.dst.stores|
    && forall b :: 0 <= b < |s.devs[d].vol.src| && b !in rest ==> b in ViewOf(s, d) && ViewOf(s, d)[b] == s.devs[d].vol.src[b]
  }

  lemma {:induction false} SimulationAt(cfg: Config, s: State, d: nat)
    requires Reachable(cfg, s) && d < cfg.N() && !s.dst.progress.Resumed?
    ensures var v := s.devs[d].vol;
      && UpToDateBut(s, d, v.dirty + v.pending + v.reading.Keys)
      && (forall b :: b in v.reading || (b in v.pending && !s.devs[d].ctl.pc.Announce?) ==> b !in ViewOf(s, d))
  {
    ReachableInv(cfg, s);
    assert ViewOk(s.devs[d].ctl.pc, s.devs[d].vol, ViewOf(s, d));
  }

  /** At rest nothing of a batch is left; after a drain that followed suspension nothing at all. */
  lemma {:induction false} AtRestSent(cfg: Config, s: State, d: nat)
    requires Reachable(cfg, s) && d < cfg.N() && AtRest(s.devs[d].ctl.pc)
    ensures BatchSent(s.devs[d].vol)
    ensures cfg.mode.Peer? && s.devs[d].ctl.drainedSuspended && PastEmptyDrain(s.devs[d].ctl.pc) ==> Unsent(s.devs[d].vol) == {}
  {
    ReachableInv(cfg, s);
    assert VolumeOk(cfg, d, s.devs[d].ctl.pc, s.devs[d].vol);
    assert DrainedOk(cfg, s.devs[d].ctl, s.devs[d].vol);
  }

  /** A packet changes what the destination will hold of its own device only. */
  lemma {:induction false} ViewOfLonger(s: State, t: State, m: Message)
    requires t.queue == s.queue + [m] && t.dst == s.dst
    ensures forall i: nat :: i < |s.dst.stores| ==> ViewOf(t, i) == Apply(i, ViewOf(s, i), m)
  {
    forall i: nat | i < |s.dst.stores| ensures ViewOf(t, i) == Apply(i, ViewOf(s, i), m) {
      ViewAppend(i, s.dst.stores[i], s.queue, m);
    }
  }

  lemma {:induction false} DeliveryKeepsViews(cfg: Config, s: State)
    requires Reachable(cfg, s) && CanHappen(s, Deliver)
    ensures |Happen(s, Deliver).dst.stores| == |s.dst.stores|
    ensures forall i: nat :: i < |s.dst.stores| ==> ViewOf(Happen(s, Deliver), i) == ViewOf(s, i)
  {
    hide Reachable, ViewOf, CanHappen, Happen;
    ReachableInv(cfg, s);
    InvConnection(cfg, s);
    ReachableSized(cfg, s);
    forall i: nat | i < |s.dst.stores| ensures |Happen(s, Deliver).dst.stores| == |s.dst.stores| && ViewOf(Happen(s, Deliver), i) == ViewOf(s, i) {
      QuietDelivery(cfg, s, i);
    }
    DeliverySized(s);
  }

  lemma {:induction false} DeliverySized(s: State)
    requires CanHappen(s, Deliver)
    ensures |Happen(s, Deliver).dst.stores| == |s.dst.stores|
  {
    ReceiveSized(s.dst, s.queue[0]);
    hide Receive;
  }

  lemma {:induction false} AuthorityUnderway(cfg: Config, s: State, d: nat)
    requires Reachable(cfg, s) && d < cfg.N() && AuthoritySent(s.devs[d].ctl.pc)
    ensures d in s.dst.authorised || TransferAuthority(d) in s.queue
  {
    ReachableInv(cfg, s);
    assert TransitOk(d, s.devs[d].ctl, s.queue, s.dst);
  }

  /** The lock and the suspension are never left with a goroutine that has failed. */
  lemma {:induction false} HoldersAlive(cfg: Config, s: State)
    requires Reachable(cfg, s)
    ensures s.shared.lockHolder.Some? ==> IsAt(s.devs, s.shared.lockHolder.value, Pc.Msync)
    ensures s.shared.suspension.InProgress? ==> IsAt(s.devs, s.shared.suspension.caller, CallSuspend)
  {
    ReachableInv(cfg, s);
  }

  lemma {:induction false} NothingToWriteBack(cfg: Config, s: State, d: nat, b: nat)
    requires Reachable(cfg, s) && d < cfg.N() && CanRun(cfg, s, d, Writeback(b))
    ensures !s.shared.IsSuspended()
  {
    ReachableInv(cfg, s);
    if s.shared.IsSuspended() { NoWriterWhenSuspended(cfg, s, d, Writeback(b)); }
  }

  lemma {:induction false} UpToDateWhenSent(cfg: Config, s: State, d: nat)
    requires Reachable(cfg, s) && d < cfg.N() && |s.devs| == cfg.N() && BatchSent(s.devs[d].vol)
    ensures !s.dst.progress.Resumed? ==> UpToDateBut(s, d, s.devs[d].vol.dirty)
  {
    hide Reachable;
    if !s.dst.progress.Resumed? {
      SimulationAt(cfg, s, d);
      assert s.devs[d].vol.dirty + s.devs[d].vol.pending + s.devs[d].vol.reading.Keys == s.devs[d].vol.dirty;
    }
  }

  lemma {:induction false} AllButBatch(cfg: Config, s: State, d: nat)
    requires Reachable(cfg, s) && d < cfg.N() && |s.devs| == cfg.N() && !s.dst.progress.Resumed?
    requires s.devs[d].vol.dirty == {} && s.devs[d].vol.reading == map[]
    ensures UpToDateBut(s, d, s.devs[d].vol.pending)
  {
    hide Reachable;
    SimulationAt(cfg, s, d);
    assert s.devs[d].vol.dirty + s.devs[d].vol.pending + s.devs[d].vol.reading.Keys == s.devs[d].vol.pending;
  }

  lemma {:induction false} NothingRead(cfg: Config, s: State, d: nat)
    requires Reachable(cfg, s) && d < |s.devs| == cfg.N() && s.devs[d].ctl.pc.Drain?
    ensures s.devs[d].vol.pending == {} && s.devs[d].vol.reading == map[] && !s.devs[d].ctl.locked
  {
    AtRestSent(cfg, s, d);
    ReachableInv(cfg, s);
    assert ControlOk(cfg, s.shared, d, s.devs[d].ctl);
  }

  /** What the migrator has read and nobody has written since is what the storage holds. */
  lemma {:induction false} ReadIsCurrent(cfg: Config, s: State, d: nat, b: nat)
    requires Reachable(cfg, s) && d < cfg.N() && |s.devs| == cfg.N() && b in s.devs[d].vol.reading
    ensures b < |s.devs[d].vol.src| && (b !in s.devs[d].vol.dirty ==> s.devs[d].vol.reading[b] == s.devs[d].vol.src[b])
  {
    ReachableInv(cfg, s);
    assert VolumeOk(cfg, d, s.devs[d].ctl.pc, s.devs[d].vol);
  }

  lemma {:induction false} LeavingMeans(cfg: Config, s: State, d: nat)
    requires Reachable(cfg, s) && d < cfg.N() && |s.devs| == cfg.N()
    ensures s.devs[d].ctl.pc.Authority? ==> AllReady(s.devs) && BatchSent(s.devs[d].vol)
    ensures s.devs[d].ctl.pc.Authority? && cfg.mode.Peer? && s.devs[d].ctl.drainedSuspended ==> Unsent(s.devs[d].vol) == {}
  {
    if s.devs[d].ctl.pc.Authority? {
      AtRestSent(cfg, s, d);
      AuthorityBarrier(cfg, s);
      ReachableInv(cfg, s);
      assert ControlOk(cfg, s.shared, d, s.devs[d].ctl);
    }
  }

  lemma {:induction false} MsyncReaches(cfg: Config, s: State)
    requires Sized(cfg, s) && !cfg.mapPrivate
    ensures forall i :: 0 <= i < cfg.N() && cfg.devices[i].kind.Memory? ==>
              Flushed(cfg, i, s.devs[i].vol, MsyncMemory).src == Flushed(cfg, i, s.devs[i].vol, MsyncMemory).guest
  {
  }

  class LiveMigration {
    const cfg: Config

    // MigrateTo
    var devs: seq<Dev>                                   // the goroutines' variables and their devices
    var devicesLeftToSend: nat
    var devicesLeftToTransferAuthorityFor: nat
    var suspendedVMLock: Option<nat>
    var suspension: Suspension                           // suspendAndMsyncVM and suspendedVM
    var running: bool                                    // the virtual machine

    var connection: seq<Message>

    // MigrateFrom
    var stores: seq<map<nat, Data>>
    var received: set<nat>
    var authorised: set<nat>
    var receivedButNotReadyRemoteDevices: int
    var allRemoteDevicesReceived: bool
    var allRemoteDevicesReady: bool
    var closed: bool
    var progress: Progress

    ghost function Abs(): State
      reads this
    {
      State(devs,
            Shared(devicesLeftToSend, devicesLeftToTransferAuthorityFor, suspendedVMLock, suspension, running),
            connection,
            Destination(stores, received, authorised, receivedButNotReadyRemoteDevices, allRemoteDevicesReceived,
                        allRemoteDevicesReady, closed, progress))
    }

    ghost predicate Valid()
      reads this
    {
      Reachable(cfg, Abs())
    }

    ghost predicate CanTake(d: nat, op: Op)
      reads this
    {
      Valid() && d < cfg.N() && CanRun(cfg, Abs(), d, op)
    }

    constructor (cfg: Config, volumes: seq<Volume>)
      requires |volumes| == cfg.N()
      requires forall d :: 0 <= d < cfg.N() ==> InitVolume(cfg.devices[d].blocks, cfg.Direct(d), volumes[d])
      ensures Valid() && this.cfg == cfg && Init(cfg, Abs())
      ensures forall d :: 0 <= d < cfg.N() ==> devs[d].vol == volumes[d]
    {
      this.cfg := cfg;
      devs := seq(cfg.N(), d requires 0 <= d < |volumes| => Dev(START, volumes[d]));
      devicesLeftToSend, devicesLeftToTransferAuthorityFor := 0, 0;
      suspendedVMLock, suspension, running := None, Idle, true;
      connection := [];
      stores := seq(cfg.N(), _ => map[]);
      received, authorised, receivedButNotReadyRemoteDevices := {}, {}, 0;
      allRemoteDevicesReceived, allRemoteDevicesReady, closed, progress := false, false, false, WaitReceived;
      new;
      InitReachable(cfg, Abs());
    }

    /* ---------------------------------------------------- before the loop */

    method SendInfo(d: nat)
      requires CanTake(d, SendDevInfo)
      modifies this
      ensures Valid() && Abs() == RunOp(cfg, old(Abs()), d, SendDevInfo)
      ensures connection == old(connection) + [DevInfo(d)]
      ensures DevInfo(d) !in old(connection) && d !in received && authorised == {} && forall m :: m in old(connection) ==> !Fence(m)
    {
      hide Reachable;
      BeforeFirstInfo(cfg, Abs(), d);
      Took(cfg, Abs(), d, SendDevInfo);
      connection := connection + [DevInfo(d)];
      devs := devs[d := devs[d].(ctl := devs[d].ctl.(pc := AddSent))];
    }

    method CountAsSent(d: nat)
      requires CanTake(d, AddSentDevice)
      modifies this
      ensures Valid() && Abs() == RunOp(cfg, old(Abs()), d, AddSentDevice)
      ensures devicesLeftToSend == cfg.N() <==> AllCounted(devs)
    {
      hide Reachable;
      Took(cfg, Abs(), d, AddSentDevice);
      devicesLeftToSend := devicesLeftToSend + 1;
      devs := devs[d := devs[d].(ctl := devs[d].ctl.(pc := LoadSent))];
      CountersExactly(cfg, Abs());
    }

    method CheckAllSent(d: nat)
      requires CanTake(d, LoadSentDevices)
      modifies this
      ensures Valid() && Abs() == RunOp(cfg, old(Abs()), d, LoadSentDevices)
      ensures devs[d].ctl.announcement.Due? <==> AllCounted(devs)
    {
      hide Reachable;
      Took(cfg, Abs(), d, LoadSentDevices);
      var c := devs[d].ctl.(pc := Initial, announcement := NotDue);
      if devicesLeftToSend >= |cfg.devices| {
        c := c.(announcement := Due);
      }
      devs := devs[d := devs[d].(ctl := c)];
      CountersExactly(cfg, Abs());
    }

    /** The goroutine that found every device sent announces it. */
    method SendAllDevicesSent(d: nat)
      requires CanTake(d, AnnounceAllSent)
      modifies this
      ensures Valid() && Abs() == RunOp(cfg, old(Abs()), d, AnnounceAllSent)
      ensures connection == old(connection) + [AllSent(d)]
      ensures forall i :: 0 <= i < cfg.N() ==> devs[i].ctl.pc != Pc.SendInfo
    {
      hide Reachable;
      Took(cfg, Abs(), d, AnnounceAllSent);
      EveryInfoSent(cfg, Abs(), d);
      connection := connection + [AllSent(d)];
      devs := devs[d := devs[d].(ctl := devs[d].ctl.(announcement := Announced))];
    }

    /* ---------------------------------------------------------- the migrator */

    method ReadForSending(d: nat, b: nat)
      requires CanTake(d, ReadBlock(b))
      modifies this
      ensures Valid() && Abs() == RunOp(cfg, old(Abs()), d, ReadBlock(b))
      ensures devs[d].vol.reading == Put(old(devs[d].vol.reading), b, devs[d].vol.src[b]) && devs[d].vol.pending == old(devs[d].vol.pending) - {b}
      ensures !progress.Resumed? ==> b !in ViewOf(Abs(), d)
    {
      hide Reachable;
      Took(cfg, Abs(), d, ReadBlock(b));
      var v := devs[d].vol;
      devs := devs[d := devs[d].(vol := v.(pending := v.pending - {b}, reading := Put(v.reading, b, v.src[b])))];
      if !progress.Resumed? { SimulationAt(cfg, Abs(), d); }
    }

    method SendRead(d: nat, b: nat)
      requires CanTake(d, SendBlock(b))
      modifies this
      ensures Valid() && Abs() == RunOp(cfg, old(Abs()), d, SendBlock(b))
      ensures connection == old(connection) + [WriteAt(d, b, old(devs[d].vol.reading[b]))] && devs[d].vol.reading == old(devs[d].vol.reading) - {b}
      ensures forall i: nat :: i < |stores| ==>
                ViewOf(Abs(), i) == if i == d then Put(old(ViewOf(Abs(), i)), b, old(devs[d].vol.reading[b])) else old(ViewOf(Abs(), i))
      ensures b < |devs[d].vol.src| && b in ViewOf(Abs(), d)
      ensures b !in devs[d].vol.dirty ==> ViewOf(Abs(), d)[b] == devs[d].vol.src[b]
    {
      hide Reachable;
      Took(cfg, Abs(), d, SendBlock(b));
      var v := devs[d].vol;
      connection := connection + [WriteAt(d, b, v.reading[b])];
      devs := devs[d := devs[d].(vol := v.(reading := v.reading - {b}))];
      ViewOfLonger(old(Abs()), Abs(), WriteAt(d, b, old(devs[d].vol.reading[b])));
      ReadIsCurrent(cfg, old(Abs()), d, b);
    }

    method InitialMigrationEnds(d: nat)
      requires CanTake(d, FinishInitial)
      modifies this
      ensures Valid() && Abs() == RunOp(cfg, old(Abs()), d, FinishInitial)
      ensures !progress.Resumed? ==> UpToDateBut(Abs(), d, devs[d].vol.dirty)
    {
      hide Reachable;
      Took(cfg, Abs(), d, FinishInitial);
      devs := devs[d := devs[d].(ctl := devs[d].ctl.(pc := LoopTop))];
      UpToDateWhenSent(cfg, Abs(), d);
    }

    /* --------------------------------------------------------------- the loop */

    /** Takes the lock to test the flag, and keeps it while the memory is synced. */
    method LockUnlessSuspended(d: nat)
      requires CanTake(d, LockForMsync)
      modifies this
      ensures Valid() && Abs() == RunOp(cfg, old(Abs()), d, LockForMsync)
      ensures suspendedVMLock.Some? <==> !suspension.Suspended? && cfg.mode.Peer? && cfg.devices[d].kind.Memory?
      ensures suspendedVMLock.Some? ==> IsAt(devs, suspendedVMLock.value, Pc.Msync)
    {
      hide Reachable;
      Took(cfg, Abs(), d, LockForMsync);
      var c := devs[d].ctl.(pc := AwaitBatch);
      if !suspension.Suspended? && cfg.mode.Peer? && cfg.devices[d].kind.Memory? {
        suspendedVMLock, c := Some(d), c.(pc := Msync);
      }
      devs := devs[d := devs[d].(ctl := c)];
      HoldersAlive(cfg, Abs());
    }

    method FlushAll(e: Effect)
      requires Sized(cfg, Abs())
      modifies this`devs
      ensures |devs| == cfg.N()
      ensures forall i :: 0 <= i < cfg.N() ==> devs[i] == old(devs[i]).(vol := Flushed(cfg, i, old(devs[i]).vol, e))
    {
      hide Flushed;
      for i := 0 to |cfg.devices|
        invariant |devs| == cfg.N()
        invariant forall k :: 0 <= k < i ==> devs[k] == old(devs[k]).(vol := Flushed(cfg, k, old(devs[k]).vol, e))
        invariant forall k :: i <= k < cfg.N() ==> devs[k] == old(devs[k])
      {
        devs := devs[i := devs[i].(vol := Flushed(cfg, i, devs[i].vol, e))];
      }
    }

    method MsyncUnderLock(d: nat)
      requires CanTake(d, MsyncAndUnlock)
      modifies this
      ensures Valid() && Abs() == RunOp(cfg, old(Abs()), d, MsyncAndUnlock)
      ensures !cfg.mapPrivate ==> forall i :: 0 <= i < cfg.N() && cfg.devices[i].kind.Memory? ==> devs[i].vol.src == devs[i].vol.guest
    {
      hide Reachable, Flushed;
      TookFlush(cfg, Abs(), d, MsyncAndUnlock);
      FlushAll(MsyncMemory);
      devs := devs[d := devs[d].(ctl := devs[d].ctl.(pc := AwaitBatch))];
      suspendedVMLock := None;
      assert Abs() == RunOp(cfg, old(Abs()), d, MsyncAndUnlock);
      if !cfg.mapPrivate { MsyncReaches(cfg, old(Abs())); }
    }

    method AwaitOngoingMigrations(d: nat)
      requires CanTake(d, WaitForBatch)
      modifies this
      ensures Valid() && Abs() == RunOp(cfg, old(Abs()), d, WaitForBatch)
      ensures !progress.Resumed? ==> UpToDateBut(Abs(), d, devs[d].vol.dirty)
    {
      hide Reachable;
      Took(cfg, Abs(), d, WaitForBatch);
      devs := devs[d := devs[d].(ctl := devs[d].ctl.(pc := Pc.Drain))];
      UpToDateWhenSent(cfg, Abs(), d);
    }

    /** An empty drain leaves the storage locked. */
    method Drain(d: nat)
      requires CanTake(d, GetLatestDirty)
      modifies this
      ensures Valid() && Abs() == RunOp(cfg, old(Abs()), d, GetLatestDirty)
      ensures devs[d].vol.pending == old(devs[d].vol.dirty) && devs[d].vol.dirty == {} && devs[d].ctl.last == |old(devs[d].vol.dirty)|
      ensures devs[d].ctl.locked <==> old(devs[d].vol.dirty) == {}
      ensures !progress.Resumed? ==> UpToDateBut(Abs(), d, devs[d].vol.pending)
    {
      hide Reachable;
      Took(cfg, Abs(), d, GetLatestDirty);
      NothingRead(cfg, Abs(), d);
      var v := devs[d].vol;
      var c := devs[d].ctl.(last := |v.dirty|, drainedSuspended := suspension.Suspended?);
      if v.dirty == {} {
        c := c.(locked := true, pc := Unlock);
      } else {
        v, c := v.(pending := v.dirty, dirty := {}), c.(pc := Announce);
      }
      devs := devs[d := Dev(c, v)];
      if !progress.Resumed? { AllButBatch(cfg, Abs(), d); }
      hide UpToDateBut, BatchSent;
    }

    method UnlockAfterEmptyDrain(d: nat)
      requires CanTake(d, UnlockStorage)
      modifies this
      ensures Valid() && Abs() == RunOp(cfg, old(Abs()), d, UnlockStorage)
      ensures BatchSent(devs[d].vol) && (cfg.mode.Peer? && devs[d].ctl.drainedSuspended ==> Unsent(devs[d].vol) == {})
    {
      hide Reachable;
      Took(cfg, Abs(), d, UnlockStorage);
      devs := devs[d := devs[d].(ctl := devs[d].ctl.(locked := false, pc := CheckFlag))];
      AtRestSent(cfg, Abs(), d);
    }

    method LeaveIfSuspended(d: nat)
      requires CanTake(d, ReadSuspended)
      modifies this
      ensures Valid() && Abs() == RunOp(cfg, old(Abs()), d, ReadSuspended)
      ensures devs[d].ctl.pc.Authority? ==> AllReady(devs) && BatchSent(devs[d].vol)
      ensures devs[d].ctl.pc.Authority? && cfg.mode.Peer? && devs[d].ctl.drainedSuspended ==> Unsent(devs[d].vol) == {}
    {
      hide Reachable;
      Took(cfg, Abs(), d, ReadSuspended);
      var next := if suspension.Suspended? then Pc.Authority else Throttle;
      devs := devs[d := devs[d].(ctl := devs[d].ctl.(pc := next))];
      LeavingMeans(cfg, Abs(), d);
    }

    method AnnounceDirty(d: nat)
      requires CanTake(d, SendDirtyList)
      modifies this
      ensures Valid() && Abs() == RunOp(cfg, old(Abs()), d, SendDirtyList)
      ensures connection == old(connection) + [DirtyList(d, devs[d].vol.pending)]
      ensures ViewOf(Abs(), d) == old(ViewOf(Abs(), d)) - devs[d].vol.pending
    {
      hide Reachable;
      Took(cfg, Abs(), d, SendDirtyList);
      connection := connection + [DirtyList(d, devs[d].vol.pending)];
      devs := devs[d := devs[d].(ctl := devs[d].ctl.(pc := Throttle))];
      ViewOfLonger(old(Abs()), Abs(), DirtyList(d, old(devs[d].vol.pending)));
    }

    method ThrottleCycle(d: nat)
      requires CanTake(d, WaitThrottle)
      modifies this
      ensures Valid() && Abs() == RunOp(cfg, old(Abs()), d, WaitThrottle)
    {
      hide Reachable;
      Took(cfg, Abs(), d, WaitThrottle);
      devs := devs[d := devs[d].(ctl := devs[d].ctl.(pc := Count))];
    }

    /** Counts the cycle and marks the device at most once. */
    method CountCycle(d: nat)
      requires CanTake(d, CountDirty)
      modifies this
      ensures Valid() && Abs() == RunOp(cfg, old(Abs()), d, CountDirty)
      ensures var l, c, before := cfg.devices[d].limits, devs[d].ctl.cycles, old(devs[d].ctl.cycles);
        && c.total == before.total + 1
        && (old(devs[d].ctl.last) < l.maxDirtyBlocks ==>
              c.below == before.below + 1 && (c.marked <==> before.marked || before.below >= l.minCycles))
        && (old(devs[d].ctl.last) >= l.maxDirtyBlocks ==>
              if before.total >= l.maxCycles then c.marked else c.below == 0 && c.marked == before.marked)
      ensures devicesLeftToTransferAuthorityFor == |MarkedSet(devs)|
    {
      hide Reachable;
      Took(cfg, Abs(), d, CountDirty);
      var input, c := cfg.devices[d].limits, devs[d].ctl;
      var totalCycles := c.cycles.total + 1;
      var cyclesBelowDirtyBlockTreshold, mark := c.cycles.below, false;
      if c.last < input.maxDirtyBlocks {
        cyclesBelowDirtyBlockTreshold := cyclesBelowDirtyBlockTreshold + 1;
        if cyclesBelowDirtyBlockTreshold > input.minCycles {
          mark := true;
        }
      } else if totalCycles > input.maxCycles {
        mark := true;
      } else {
        cyclesBelowDirtyBlockTreshold := 0;
      }
      if mark && !c.cycles.marked {
        devicesLeftToTransferAuthorityFor := devicesLeftToTransferAuthorityFor + 1;
      }
      var cycles := Counters(totalCycles, cyclesBelowDirtyBlockTreshold, c.cycles.marked || mark);
      assert cycles == Cycles.CountCycle(input, c.cycles, c.last);
      hide Cycles.CountCycle;
      devs := devs[d := devs[d].(ctl := c.(pc := Test, cycles := cycles))];
      ReadyIsMarked(cfg, Abs());
      hide MarkedSet;
    }

    method SuspendIfAllReady(d: nat)
      requires CanTake(d, LoadReady)
      modifies this
      ensures Valid() && Abs() == RunOp(cfg, old(Abs()), d, LoadReady)
      ensures devs[d].ctl.pc.CallSuspend? <==> AllReady(devs)
    {
      hide Reachable;
      Took(cfg, Abs(), d, LoadReady);
      var next := if devicesLeftToTransferAuthorityFor >= |cfg.devices| then CallSuspend else LoopTop;
      devs := devs[d := devs[d].(ctl := devs[d].ctl.(pc := next))];
      CountersExactly(cfg, Abs());
    }

    /* ------------------------------------------------------- suspendAndMsyncVM */

    /** The first caller runs it; later ones only get its result. */
    method Suspend(d: nat)
      requires CanTake(d, EnterSuspend)
      modifies this
      ensures Valid() && Abs() == RunOp(cfg, old(Abs()), d, EnterSuspend)
      ensures forall i :: 0 <= i < cfg.N() ==> devs[i].ctl.cycles.marked
    {
      hide Reachable;
      Took(cfg, Abs(), d, EnterSuspend);
      AllMarkedAtSuspend(cfg, Abs(), d);
      if suspension.Idle? {
        suspension := InProgress(d, if cfg.mode.Peer? then CloseAgent else RaiseFlag);
        assert devs[d := devs[d]] == devs;
      } else {
        devs := devs[d := devs[d].(ctl := devs[d].ctl.(pc := LoopTop, suspendReturned := true))];
      }
    }

    /** One operation of it; where it ends with the flag raised, the machine is paused and flushed. */
    method SuspendOperation(d: nat)
      requires CanTake(d, SuspendStep)
      modifies this
      ensures Valid() && Abs() == RunOp(cfg, old(Abs()), d, SuspendStep)
      ensures suspension.Suspended? && cfg.mode.Peer? ==>
                && !running
                && forall i :: 0 <= i < cfg.N() && StoredInPlace(cfg, cfg.devices[i].kind) ==> devs[i].vol.src == devs[i].vol.guest
    {
      hide Reachable, Flushed, SharedAfter, ControlAfter, EffectOf, CanRun;
      ghost var before := Abs();
      TookFlush(cfg, before, d, SuspendStep);
      SuspendStepEffects(cfg, before.shared, d, devs[d].ctl, |devs[d].vol.dirty|);
      PausedAndFlushed(cfg, RunOp(cfg, before, d, SuspendStep));
      var effect := NoEffect;
      match suspension.stage {
        case CloseAgent =>
          suspension := InProgress(d, Pause);
        case Pause =>
          running, suspension := false, InProgress(d, FlushState);
        case FlushState =>
          effect, suspension := StoreFile(VmState), InProgress(d, FlushMemory);
        case FlushMemory =>
          effect, suspension := StoreFile(Kind.Memory), InProgress(d, FinalMsync);
        case FinalMsync =>
          effect, suspension := MsyncMemory, InProgress(d, RaiseFlag);
        case RaiseFlag =>
          suspension := Suspended;
      }
      FlushAll(effect);
      assert Abs() == RunOp(cfg, before, d, SuspendStep);
    }

    /* ---------------------------------------------------------- after the loop */

    /** Authority is given away only after suspension and after every device was announced. */
    method TransferAuthorityOf(d: nat)
      requires CanTake(d, SendAuthority)
      modifies this
      ensures Valid() && Abs() == RunOp(cfg, old(Abs()), d, SendAuthority)
      ensures connection == old(connection) + [TransferAuthority(d)]
      ensures suspension.Suspended? && forall i :: 0 <= i < cfg.N() ==> devs[i].ctl.pc != Pc.SendInfo
    {
      hide Reachable;
      Took(cfg, Abs(), d, SendAuthority);
      EveryInfoSent(cfg, Abs(), d);
      connection := connection + [TransferAuthority(d)];
      devs := devs[d := devs[d].(ctl := devs[d].ctl.(pc := AwaitCompletion))];
    }

    method AwaitMigrator(d: nat)
      requires CanTake(d, WaitForCompletion)
      modifies this
      ensures Valid() && Abs() == RunOp(cfg, old(Abs()), d, WaitForCompletion)
      ensures BatchSent(devs[d].vol) && (d in authorised || TransferAuthority(d) in connection)
    {
      hide Reachable;
      Took(cfg, Abs(), d, WaitForCompletion);
      devs := devs[d := devs[d].(ctl := devs[d].ctl.(pc := Complete))];
      AtRestSent(cfg, Abs(), d);
      AuthorityUnderway(cfg, Abs(), d);
    }

    method SendCompletedOf(d: nat)
      requires CanTake(d, SendCompleted)
      modifies this
      ensures Valid() && Abs() == RunOp(cfg, old(Abs()), d, SendCompleted)
      ensures connection == old(connection) + [Completed(d)]
      ensures d in authorised || TransferAuthority(d) in old(connection)
    {
      hide Reachable;
      AuthorityUnderway(cfg, Abs(), d);
      Took(cfg, Abs(), d, SendCompleted);
      connection := connection + [Completed(d)];
      devs := devs[d := devs[d].(ctl := devs[d].ctl.(pc := Done))];
    }

    /* ---------------------------------------------------- the guest, the kernel, errors */

    /** With a peer, never once its destination may resume, unless the connection closed early. */
    method WriteByGuest(d: nat, b: nat, data: Data)
      requires CanTake(d, GuestWrite(b, data))
      modifies this
      ensures Valid() && Abs() == RunOp(cfg, old(Abs()), d, GuestWrite(b, data))
      ensures cfg.mode.Peer? ==> authorised == {} && (allRemoteDevicesReady <==> closed)
    {
      hide Reachable;
      Took(cfg, Abs(), d, GuestWrite(b, data));
      if cfg.mode.Peer? { SingleOwner(cfg, Abs()); }
      var v := devs[d].vol;
      v := v.(guest := v.guest[b := data]);
      if cfg.Direct(d) {
        v := v.(src := v.src[b := data], dirty := v.dirty + Recorded(cfg, v, {b}));
      } else {
        v := v.(unsynced := v.unsynced + {b});
      }
      devs := devs[d := devs[d].(vol := v)];
    }

    method WriteBack(d: nat, b: nat)
      requires CanTake(d, Writeback(b))
      modifies this
      ensures Valid() && Abs() == RunOp(cfg, old(Abs()), d, Writeback(b))
      ensures !suspension.Suspended? && devs[d].vol.guest == old(devs[d].vol.guest) && devs[d].vol.src[b] == devs[d].vol.guest[b]
      ensures b in devs[d].vol.dirty + devs[d].vol.pending && ViewOf(Abs(), d) == old(ViewOf(Abs(), d))
    {
      hide Reachable;
      NothingToWriteBack(cfg, Abs(), d, b);
      Took(cfg, Abs(), d, Writeback(b));
      var v := devs[d].vol;
      v := v.(src := v.src[b := v.guest[b]], unsynced := v.unsynced - {b}, dirty := v.dirty + Recorded(cfg, v, {b}));
      devs := devs[d := devs[d].(vol := v)];
    }

    method FailGoroutine(d: nat)
      requires CanTake(d, Fail)
      modifies this
      ensures Valid() && Abs() == RunOp(cfg, old(Abs()), d, Fail)
      ensures suspendedVMLock.Some? ==> IsAt(devs, suspendedVMLock.value, Pc.Msync)
      ensures suspension.InProgress? ==> IsAt(devs, suspension.caller, CallSuspend)
    {
      hide Reachable, CanRun, SharedAfter, ControlAfter, VolumeAfter, EffectOf;
      ReachableSized(cfg, Abs());
      FailEffects(cfg, Abs().shared, d, devs[d], |devs[d].vol.dirty|);
      Took(cfg, Abs(), d, Fail);
      if suspendedVMLock == Some(d) {
        suspendedVMLock := None;
      }
      if suspension.InProgress? && suspension.caller == d {
        suspension := SuspendFailed;
      }
      devs := devs[d := devs[d].(ctl := devs[d].ctl.(failed := true))];
      HoldersAlive(cfg, Abs());
    }

    /* ------------------------------------------------------------ MigrateFrom */

    /** The handlers of one packet. */
    method Handle(m: Message)
      requires m.d < |stores|
      modifies `stores, `received, `authorised, `receivedButNotReadyRemoteDevices, `allRemoteDevicesReceived, `allRemoteDevicesReady
      ensures Abs().dst == Receive(old(Abs().dst), m)
    {
      match m {
        case DevInfo(d) =>
          receivedButNotReadyRemoteDevices := receivedButNotReadyRemoteDevices + 1;
          received := received + {d};
        case AllSent(_) =>
          allRemoteDevicesReceived := true;
        case WriteAt(d, b, data) =>
          if d in received {
            stores := stores[d := Put(stores[d], b, data)];
          }
        case DirtyList(d, blocks) =>
          if d in received {
            stores := stores[d := stores[d] - blocks];
          }
        case TransferAuthority(d) =>
          authorised := authorised + {d};
          receivedButNotReadyRemoteDevices := receivedButNotReadyRemoteDevices - 1;
          if receivedButNotReadyRemoteDevices <= 0 {
            allRemoteDevicesReady := true;
          }
        case Completed(_) =>
      }
    }

    /** Takes one packet from the connection. The counter is what was received and is not authorised,
        and the signal means that all is. */
    method HandlePacket()
      requires Valid() && CanHappen(Abs(), Deliver)
      modifies this
      ensures Valid() && Abs() == Happen(old(Abs()), Deliver)
      ensures receivedButNotReadyRemoteDevices == |received| - |authorised|
      ensures allRemoteDevicesReady <==> cfg.N() > 0 && authorised == Blocks(cfg.N())
      ensures |stores| == |old(stores)| && forall i: nat :: i < |stores| ==> ViewOf(Abs(), i) == old(ViewOf(Abs(), i))
    {
      hide Reachable, Receive;
      DeliveryKeepsViews(cfg, Abs());
      Happened(cfg, Abs(), Deliver);
      var m := connection[0];
      connection := connection[1..];
      Handle(m);
      Readiness(cfg, Abs());
    }

    /** The end of the connection counts as success and gives both signals. */
    method HandleEnd()
      requires Valid() && CanHappen(Abs(), Event.Eof)
      modifies this
      ensures Valid() && Abs() == Happen(old(Abs()), Event.Eof)
      ensures cfg.mode.Peer? && running ==> authorised == {}
      ensures old(allRemoteDevicesReady) <==> cfg.N() > 0 && authorised == Blocks(cfg.N())
    {
      hide Reachable;
      Readiness(cfg, Abs());
      if cfg.mode.Peer? { SingleOwner(cfg, Abs()); }
      Happened(cfg, Abs(), Event.Eof);
      closed, allRemoteDevicesReceived, allRemoteDevicesReady := true, true, true;
    }

    method PassAllReceived()
      requires Valid() && CanHappen(Abs(), PassReceived)
      modifies this
      ensures Valid() && Abs() == Happen(old(Abs()), PassReceived)
      ensures !closed ==> received == Blocks(cfg.N())
    {
      hide Reachable;
      Happened(cfg, Abs(), PassReceived);
      ComposedReadiness(cfg, Abs());
      progress := WaitReady;
    }

    /** When the last wait is over, the source's machine is paused and every device is here what its
        guest saw, if its snapshot reaches it, every authority has arrived and every last drain followed
        suspension. */
    method PassAllReady()
      requires Valid() && CanHappen(Abs(), PassReady)
      modifies this
      ensures Valid() && Abs() == Happen(old(Abs()), PassReady)
      ensures cfg.mode.Peer? && cfg.N() > 0 && authorised == Blocks(cfg.N()) && AllDrainedSuspended(Abs()) ==>
                && !running && |stores| == |devs| == cfg.N()
                && forall d :: 0 <= d < |devs| && cfg.Reaches(cfg.devices[d].kind) ==> stores[d] == GuestContent(devs[d].vol)
    {
      hide Reachable, GuestContent;
      Happened(cfg, Abs(), PassReady);
      if cfg.mode.Peer? && cfg.N() > 0 && authorised == Blocks(cfg.N()) && AllDrainedSuspended(Abs()) {
        EndToEndHandover(cfg, Abs());
        ReachableSized(cfg, Abs());
      }
      progress := Returned;
    }

    method Resume()
      requires Valid() && CanHappen(Abs(), ResumeDestination)
      modifies this
      ensures Valid() && Abs() == Happen(old(Abs()), ResumeDestination)
      ensures cfg.mode.Peer? && running ==> closed && authorised == {}
    {
      hide Reachable;
      Happened(cfg, Abs(), ResumeDestination);
      if cfg.mode.Peer? { SingleOwner(cfg, Abs()); }
      progress := Resumed;
    }

    method WriteByResumedGuest(d: nat, b: nat, data: Data)
      requires Valid() && CanHappen(Abs(), DestinationWrite(d, b, data))
      modifies this
      ensures Valid() && Abs() == Happen(old(Abs()), DestinationWrite(d, b, data))
      ensures cfg.mode.Peer? && running ==> closed && authorised == {}
    {
      hide Reachable;
      if cfg.mode.Peer? { SingleOwner(cfg, Abs()); }
      Happened(cfg, Abs(), DestinationWrite(d, b, data));
      stores := stores[d := Put(stores[d], b, data)];
    }
  }
}
