/** The end of the run: after suspension every step uses up a measure, no state before the end is
    stuck, so what remains is the handover. */
module Progress {
  import opened Cycles
  import opened Migration
  import opened Barrier
  import opened Storage
  import opened Connection
  import opened Layering
  import opened Invariants
  import opened Handover
  import opened LastOne
  import opened Termination

  predicate IsDestinationWrite(a: Action) { a.AtDestination? && a.event.DestinationWrite? }

  lemma {:induction false} SuspendedOthersKeep(cfg: Config, s: State, d: nat, op: Op, i: nat)
    requires BarrierOk(cfg, s) && LayeringOk(cfg, s) && Undisturbed(cfg, op) && s.shared.IsSuspended()
    requires d < cfg.N() && i < cfg.N() && CanRun(cfg, s, d, op)
    ensures !op.GuestWrite? && !op.Writeback?
    ensures DevAfter(cfg, s, d, op, i) ==
      if i != d then s.devs[i]
      else Dev(ControlAfter(cfg, s.shared, d, s.devs[d].ctl, |s.devs[d].vol.dirty|, op), VolumeAfter(cfg, d, s.devs[d], op))
  {
    NoWriterWhenSuspended(cfg, s, d, op);
  }

  lemma {:induction false} AllInLoop(cfg: Config, s: State, d: nat)
    requires BarrierOk(cfg, s) && d < cfg.N() && s.shared.IsSuspended()
    ensures s.devs[d].ctl.cycles.marked && InLoopOrLater(s.devs[d].ctl.pc)
  {
    CountsBounded(cfg.N(), s.devs);
    assert ControlOk(cfg, s.shared, d, s.devs[d].ctl);
  }

  lemma {:induction false} MeasureAfter(s: State, t: State, d: nat, sent: seq<Message>)
    requires d < |s.devs| == |t.devs| && (forall i :: 0 <= i < |s.devs| && i != d ==> t.devs[i] == s.devs[i])
    requires t.queue == s.queue + sent && t.dst == s.dst
    requires DevMeasure(t.devs[d]) + |sent| < DevMeasure(s.devs[d])
    ensures Measure(t) < Measure(s)
  {
    hide DevMeasure, SumBy;
    SumAfter(DevMeasure, s.devs, t.devs, d);
  }

  lemma {:induction false} SuspendedOpLowers(cfg: Config, s: State, d: nat, op: Op)
    requires BarrierOk(cfg, s) && StorageOk(cfg, s) && LayeringOk(cfg, s) && Undisturbed(cfg, op) && s.shared.IsSuspended()
    requires d < cfg.N() && CanRun(cfg, s, d, op)
    ensures Measure(RunOp(cfg, s, d, op)) < Measure(s)
  {
    var t := RunOp(cfg, s, d, op);
    hide Measure, DevMeasure, ControlAfter, VolumeAfter, Sent, SharedAfter, Flushed, EffectOf, ControlOk, VolumeReady, CanFlush, LayeringOk;
    forall i | 0 <= i < cfg.N() && i != d ensures t.devs[i] == s.devs[i] {
      SuspendedOthersKeep(cfg, s, d, op, i);
    }
    SuspendedOthersKeep(cfg, s, d, op, d);
    AllInLoop(cfg, s, d);
    assert VolumeOk(cfg, d, s.devs[d].ctl.pc, s.devs[d].vol);
    SuspendedOp(cfg, s.shared, d, s.devs[d], op);
    MeasureAfter(s, t, d, Sent(d, s.devs[d].vol, op));
  }

  lemma {:induction false} EventLowers(s: State, e: Event)
    requires CanHappen(s, e) && !e.DestinationWrite?
    ensures Measure(Happen(s, e)) < Measure(s)
  {
    hide SumBy;
  }

  /** After suspension every step lowers the measure, except a write of the resumed guest. */
  lemma {:induction false} SuspendedStepLowers(cfg: Config, s: State, a: Action, t: State)
    requires BarrierOk(cfg, s) && StorageOk(cfg, s) && LayeringOk(cfg, s) && UndisturbedStep(cfg, a) && s.shared.IsSuspended()
    requires Next(cfg, s, a, t) && !IsDestinationWrite(a)
    ensures Measure(t) < Measure(s)
  {
    hide BarrierOk, StorageOk, LayeringOk, Measure, CanRun, CanHappen, RunOp, Happen, Sized;
    match a
    case OnDevice(d, op) => SuspendedOpLowers(cfg, s, d, op);
    case AtDestination(e) => EventLowers(s, e);
  }

  lemma {:induction false} InvLayering(cfg: Config, s: State)
    requires Inv(cfg, s)
    ensures LayeringOk(cfg, s)
  {
  }

  /** So from suspension on, a run has at most as many steps as the measure says, writes of the
      resumed guest aside. No fairness is needed. */
  lemma {:induction false} SuspendedRunIsBounded(cfg: Config, states: seq<State>, actions: seq<Action>, i: nat, j: nat)
    requires IsRun(cfg, states, actions) && i <= j <= |actions| && states[i].shared.IsSuspended()
    requires forall k :: i <= k < j ==> UndisturbedStep(cfg, actions[k]) && !IsDestinationWrite(actions[k])
    ensures states[j].shared.IsSuspended()
    ensures Measure(states[j]) + (j - i) <= Measure(states[i])
    decreases j
  {
    hide Inv, BarrierOk, StorageOk, LayeringOk, Step, Enabled, Measure, IsDestinationWrite, Init;
    if i < j {
      SuspendedRunIsBounded(cfg, states, actions, i, j - 1);
      var s := states[j - 1];
      RunInv(cfg, states, actions, j - 1);
      assert BarrierOk(cfg, s) && StorageOk(cfg, s) by { InvParts(cfg, s); }
      InvLayering(cfg, s);
      SuspendedStepLowers(cfg, s, actions[j - 1], states[j]);
      StaysSuspended(cfg, s, actions[j - 1], states[j]);
    }
  }

  lemma {:induction false} StaysSuspended(cfg: Config, s: State, a: Action, t: State)
    requires BarrierOk(cfg, s) && LayeringOk(cfg, s) && UndisturbedStep(cfg, a) && s.shared.IsSuspended() && Next(cfg, s, a, t)
    ensures t.shared.IsSuspended()
  {
    if a.OnDevice? {
      NoWriterWhenSuspended(cfg, s, a.d, a.op);
    }
  }

  /* ------------------------------------------------ drains after suspension */

  /** How many drains the device may still start. */
  function DrainsLeft(dv: Dev): nat {
    if PastEmptyDrain(dv.ctl.pc) then 0 else if dv.vol.dirty == {} then 1 else 2
  }

  predicate IsDrain(a: Action, d: nat) { a == OnDevice(d, GetLatestDirty) }

  function Drains(actions: seq<Action>, d: nat): nat {
    if actions == [] then 0 else Drains(actions[..|actions| - 1], d) + (if IsDrain(actions[|actions| - 1], d) then 1 else 0)
  }

  lemma {:induction false} OpDrainsLeft(cfg: Config, sh: Shared, d: nat, dv: Dev, op: Op)
    requires d < cfg.N() && ControlReady(sh, d, dv.ctl, op) && VolumeReady(cfg, d, dv, op) && |dv.vol.guest| == |dv.vol.src|
    requires sh.IsSuspended() && !op.GuestWrite? && !op.Writeback?
    ensures DrainsLeft(Dev(ControlAfter(cfg, sh, d, dv.ctl, |dv.vol.dirty|, op), VolumeAfter(cfg, d, dv, op)))
              + (if op.GetLatestDirty? then 1 else 0) <= DrainsLeft(dv)
  {
    assert |dv.vol.dirty| == 0 <==> dv.vol.dirty == {};
    if !op.GetLatestDirty? {
      NonWriterKeeps(cfg, d, dv, op);
      DrainedPc(cfg, sh, d, dv.ctl, |dv.vol.dirty|, op);
      hide ControlAfter, ControlReady, VolumeAfter, VolumeReady, CountCycle;
    }
  }

  lemma {:induction false} StepDrainsLeft(cfg: Config, s: State, a: Action, t: State, d: nat)
    requires BarrierOk(cfg, s) && LayeringOk(cfg, s) && UndisturbedStep(cfg, a) && s.shared.IsSuspended()
    requires Next(cfg, s, a, t) && d < cfg.N() && |t.devs| == cfg.N()
    ensures DrainsLeft(t.devs[d]) + (if IsDrain(a, d) then 1 else 0) <= DrainsLeft(s.devs[d])
  {
    if a.OnDevice? {
      SuspendedOthersKeep(cfg, s, a.d, a.op, d);
      assert t.devs[d] == DevAfter(cfg, s, a.d, a.op, d);
      if a.d == d {
        OpDrainsLeft(cfg, s.shared, d, s.devs[d], a.op);
      }
      hide BarrierOk, LayeringOk, DrainsLeft, ControlAfter, VolumeAfter, ControlReady, VolumeReady, Step, Sized;
    }
  }

  /** After suspension each device starts at most two more drains. */
  lemma {:induction false} AtMostTwoDrains(cfg: Config, states: seq<State>, actions: seq<Action>, d: nat, i: nat, j: nat)
    requires IsRun(cfg, states, actions) && i <= j <= |actions| && d < cfg.N()
    requires states[i].shared.IsSuspended() && forall k :: i <= k < j ==> UndisturbedStep(cfg, actions[k])
    ensures Drains(actions[i..j], d) + DrainsLeft(states[j].devs[d]) <= DrainsLeft(states[i].devs[d]) <= 2
    ensures states[j].shared.IsSuspended()
    decreases j
  {
    hide Inv, BarrierOk, LayeringOk, Step, Enabled, Init, StorageOk, IsDrain, PastEmptyDrain;
    if i < j {
      AtMostTwoDrains(cfg, states, actions, d, i, j - 1);
      var s := states[j - 1];
      RunInv(cfg, states, actions, j - 1);
      assert BarrierOk(cfg, s) by { InvParts(cfg, s); }
      InvLayering(cfg, s);
      StepDrainsLeft(cfg, s, actions[j - 1], states[j], d);
      StaysSuspended(cfg, s, actions[j - 1], states[j]);
      assert actions[i..j][..j - 1 - i] == actions[i..j - 1];
    }
  }

  /* ------------------------------------------------------------- no deadlock */

  /** The steps that the two programs take by themselves, without error. */
  predicate IsProgress(a: Action) {
    match a
    case OnDevice(_, op) => !op.Fail? && !op.GuestWrite? && !op.Writeback?
    case AtDestination(e) => !e.Eof? && !e.DestinationWrite?
  }

  ghost predicate NoFailure(s: State) { !s.dst.eof && forall d :: 0 <= d < |s.devs| ==> !s.devs[d].ctl.failed }

  ghost predicate Finished(s: State) {
    && (forall d :: 0 <= d < |s.devs| ==> s.devs[d].ctl.pc.Done? && !s.devs[d].ctl.announcement.Due?)
    && s.queue == [] && s.dst.ready && s.dst.progress.Resumed?
  }

  /** The operation that stands at each place of the device goroutine. */
  function OwnOp(pc: Pc): Op {
    match pc
    case SendInfo => SendDevInfo
    case AddSent => AddSentDevice
    case LoadSent => LoadSentDevices
    case Initial => FinishInitial
    case LoopTop => LockForMsync
    case Msync => MsyncAndUnlock
    case AwaitBatch => WaitForBatch
    case Drain => GetLatestDirty
    case Unlock => UnlockStorage
    case CheckFlag => ReadSuspended
    case Announce => SendDirtyList
    case Throttle => WaitThrottle
    case Count => CountDirty
    case Test => LoadReady
    case CallSuspend => EnterSuspend
    case Authority => SendAuthority
    case AwaitCompletion => WaitForCompletion
    case Complete => SendCompleted
    case Done => Fail
  }

  /** An operation of the goroutine itself or of its migrator. */
  predicate IsLoopOp(op: Op) { (Where(op).Some? && !op.SuspendStep?) || op.ReadBlock? || op.SendBlock? }

  lemma {:induction false} OwnOpReady(cfg: Config, sh: Shared, d: nat, dv: Dev)
    requires d < cfg.N() && !dv.ctl.failed && dv.ctl.pc != Done && dv.ctl.pc != Msync
    requires sh.LockFree() && (sh.suspension.Idle? || sh.suspension.Suspended?)
    requires dv.ctl.pc.Initial? || dv.ctl.pc.AwaitBatch? ==> BatchSent(dv.vol)
    ensures ControlReady(sh, d, dv.ctl, OwnOp(dv.ctl.pc)) && VolumeReady(cfg, d, dv, OwnOp(dv.ctl.pc))
    ensures EffectOf(sh, OwnOp(dv.ctl.pc)) == NoEffect && IsProgress(OnDevice(d, OwnOp(dv.ctl.pc))) && IsLoopOp(OwnOp(dv.ctl.pc))
  {
  }

  /** The operation that a device goroutine takes next where nothing else holds it up. */
  lemma {:induction false} NextOp(cfg: Config, sh: Shared, d: nat, dv: Dev) returns (op: Op)
    requires d < cfg.N() && !dv.ctl.failed && dv.ctl.pc != Done
    requires VolumeOk(cfg, d, dv.ctl.pc, dv.vol) && ControlOk(cfg, sh, d, dv.ctl)
    requires sh.LockFree() && (sh.suspension.Idle? || sh.suspension.Suspended?)
    ensures ControlReady(sh, d, dv.ctl, op) && VolumeReady(cfg, d, dv, op) && EffectOf(sh, op) == NoEffect
    ensures IsProgress(OnDevice(d, op)) && IsLoopOp(op)
  {
    hide ControlReady, VolumeReady, EffectOf, OwnOp, IsProgress, IsLoopOp, SyncOk, CountersOk;
    if (dv.ctl.pc.Initial? || dv.ctl.pc.AwaitBatch?) && !BatchSent(dv.vol) {
      op := BatchOp(cfg, sh, d, dv);
    } else {
      op := OwnOp(dv.ctl.pc);
      OwnOpReady(cfg, sh, d, dv);
    }
  }

  lemma {:induction false} BatchOp(cfg: Config, sh: Shared, d: nat, dv: Dev) returns (op: Op)
    requires d < cfg.N() && !dv.ctl.failed && (dv.ctl.pc.Initial? || dv.ctl.pc.AwaitBatch?)
    requires ReadingOk(dv.vol) && !BatchSent(dv.vol)
    ensures ControlReady(sh, d, dv.ctl, op) && VolumeReady(cfg, d, dv, op) && EffectOf(sh, op) == NoEffect
    ensures IsProgress(OnDevice(d, op)) && IsLoopOp(op)
  {
    if dv.vol.pending != {} {
      var b :| b in dv.vol.pending;
      op := ReadBlock(b);
    } else {
      assert dv.vol.reading.Keys != {};
      var b :| b in dv.vol.reading.Keys;
      op := SendBlock(b);
    }
  }

  /** A device that holds the storage lock can release it. */
  lemma {:induction false} LockedCanUnlock(cfg: Config, s: State, d: nat)
    requires BarrierOk(cfg, s) && d < cfg.N() && s.devs[d].ctl.locked && !s.devs[d].ctl.failed
    ensures CanRun(cfg, s, d, UnlockStorage)
  {
    assert ControlOk(cfg, s.shared, d, s.devs[d].ctl);
  }

  /** With no storage lock held, the holder of suspendedVMLock and the suspending goroutine go on. */
  lemma {:induction false} HolderCanGoOn(cfg: Config, s: State)
    requires BarrierOk(cfg, s) && (forall d :: 0 <= d < cfg.N() ==> !s.devs[d].ctl.locked)
    ensures s.shared.lockHolder.Some? ==> s.shared.lockHolder.value < cfg.N() && CanRun(cfg, s, s.shared.lockHolder.value, MsyncAndUnlock)
    ensures s.shared.LockFree() && s.shared.suspension.InProgress? ==>
              s.shared.suspension.caller < cfg.N() && CanRun(cfg, s, s.shared.suspension.caller, SuspendStep)
  {
    hide CountedSet, MarkedSet, ControlOk;
  }

  lemma {:induction false} SourceProgress(cfg: Config, s: State) returns (a: Action)
    requires BarrierOk(cfg, s) && StorageOk(cfg, s) && LastOk(cfg, s) && NoFailure(s)
    requires exists d :: 0 <= d < cfg.N() && s.devs[d].ctl.pc != Done
    ensures IsProgress(a) && Enabled(cfg, s, a)
  {
    hide CanRun, CountedSet, MarkedSet, VolumeOk, SentSeen, ReadySeen, SharedOk;
    if d :| 0 <= d < cfg.N() && s.devs[d].ctl.locked {
      LockedCanUnlock(cfg, s, d);
      a := OnDevice(d, UnlockStorage);
    } else {
      HolderCanGoOn(cfg, s);
      if s.shared.lockHolder.Some? {
        a := OnDevice(s.shared.lockHolder.value, MsyncAndUnlock);
      } else if s.shared.suspension.InProgress? {
        a := OnDevice(s.shared.suspension.caller, SuspendStep);
      } else {
        var d :| 0 <= d < cfg.N() && s.devs[d].ctl.pc != Done;
        a := DeviceProgress(cfg, s, d);
      }
    }
  }

  lemma {:induction false} DeviceProgress(cfg: Config, s: State, d: nat) returns (a: Action)
    requires BarrierOk(cfg, s) && StorageOk(cfg, s) && d < cfg.N() && !s.devs[d].ctl.failed && s.devs[d].ctl.pc != Done
    requires s.shared.LockFree() && (s.shared.suspension.Idle? || s.shared.suspension.Suspended?)
    ensures IsProgress(a) && Enabled(cfg, s, a)
  {
    assert ControlOk(cfg, s.shared, d, s.devs[d].ctl);
    assert VolumeOk(cfg, d, s.devs[d].ctl.pc, s.devs[d].vol);
    hide BarrierOk, StorageOk, ControlOk, VolumeOk, ControlReady, VolumeReady, EffectOf;
    var op := NextOp(cfg, s.shared, d, s.devs[d]);
    a := OnDevice(d, op);
  }

  /** When every goroutine is done, what is left is on the connection or at the destination. */
  lemma {:induction false} AllDelivered(cfg: Config, s: State)
    requires BarrierOk(cfg, s) && ConnectionOk(cfg, s) && LastOk(cfg, s) && cfg.N() > 0 && s.queue == []
    requires forall d :: 0 <= d < cfg.N() ==> s.devs[d].ctl.pc.Done? && !s.devs[d].ctl.announcement.Due?
    ensures s.dst.allReceived && s.dst.ready
  {
    hide SentSeen, ReadySeen, ControlOk, TransitOk, QueueOk, Introduced, Closed, SharedOk, MarkedSet;
    SomeAnnouncement(cfg, s);
    var d :| 0 <= d < cfg.N() && s.devs[d].ctl.announcement != NotDue;
    DeviceDelivered(cfg, s, d);
    forall i: nat | i < cfg.N() ensures i in s.dst.authorised { DeviceDelivered(cfg, s, i); }
    assert s.dst.authorised == Blocks(cfg.N());
  }

  lemma {:induction false} DeviceDelivered(cfg: Config, s: State, d: nat)
    requires ConnectionOk(cfg, s) && s.queue == [] && d < cfg.N() && s.devs[d].ctl.pc.Done?
    ensures d in s.dst.authorised && (s.devs[d].ctl.announcement == Announced ==> s.dst.allReceived)
  {
    assert TransitOk(d, s.devs[d].ctl, s.queue, s.dst);
  }

  lemma {:induction false} ReceiverProgress(cfg: Config, s: State) returns (e: Event)
    requires ConnectionOk(cfg, s) && !s.dst.eof && (s.queue == [] ==> s.dst.allReceived && s.dst.ready)
    requires s.queue != [] || !s.dst.progress.Resumed?
    ensures CanHappen(s, e) && !e.Eof? && !e.DestinationWrite?
  {
    if s.queue != [] {
      e := Deliver;
    } else {
      match s.dst.progress
      case WaitReceived => e := PassReceived;
      case WaitReady => e := PassReady;
      case Returned => e := ResumeDestination;
    }
  }

  lemma {:induction false} AnnounceEnabled(cfg: Config, s: State, d: nat)
    requires |s.devs| == cfg.N() && d < cfg.N() && s.devs[d].ctl.announcement.Due?
    ensures CanRun(cfg, s, d, AnnounceAllSent)
  {
  }

  lemma {:induction false} DestinationProgress(cfg: Config, s: State) returns (a: Action)
    requires BarrierOk(cfg, s) && ConnectionOk(cfg, s) && LastOk(cfg, s) && NoFailure(s) && cfg.N() > 0 && !Finished(s)
    requires forall d :: 0 <= d < cfg.N() ==> s.devs[d].ctl.pc.Done?
    ensures IsProgress(a) && Enabled(cfg, s, a)
  {
    if d :| 0 <= d < cfg.N() && s.devs[d].ctl.announcement.Due? {
      AnnounceEnabled(cfg, s, d);
      a := OnDevice(d, AnnounceAllSent);
    } else {
      if s.queue == [] { AllDelivered(cfg, s); }
      var e := ReceiverProgress(cfg, s);
      a := AtDestination(e);
    }
    hide BarrierOk, ConnectionOk, LastOk, CanHappen, CanRun, Finished;
  }

  /** Nothing is ever stuck: in every reachable state without a failure some step of the two programs
      can be taken, until the destination has resumed and all is done. */
  lemma {:induction false} NoDeadlock(cfg: Config, s: State) returns (a: Action)
    requires Reachable(cfg, s) && NoFailure(s) && cfg.N() > 0 && !Finished(s)
    ensures IsProgress(a) && Enabled(cfg, s, a)
  {
    hide BarrierOk, StorageOk, ConnectionOk, LastOk, Finished, Enabled, IsProgress;
    ReachableInv(cfg, s);
    ReachableLast(cfg, s);
    assert BarrierOk(cfg, s) && StorageOk(cfg, s) && ConnectionOk(cfg, s);
    if d :| 0 <= d < cfg.N() && s.devs[d].ctl.pc != Done {
      a := SourceProgress(cfg, s);
    } else {
      a := DestinationProgress(cfg, s);
    }
  }

  /** So a run without failures that cannot go on has finished: the destination has resumed, and
      everything was delivered. */
  lemma {:induction false} StuckMeansFinished(cfg: Config, s: State)
    requires Reachable(cfg, s) && NoFailure(s) && cfg.N() > 0
    requires forall a: Action :: IsProgress(a) ==> !Enabled(cfg, s, a)
    ensures Finished(s)
  {
    hide Enabled, IsProgress, Finished;
    if !Finished(s) {
      var _ := NoDeadlock(cfg, s);
    }
  }
}
