/** The gap between an empty drain and the look at the flag, for every configuration: with more than one
    device it can always be hit, with one device never. */
module Trap {
  import opened Cycles
  import opened Migration
  import opened Options
  import opened Barrier
  import opened Storage
  import opened Connection
  import opened Simulation
  import opened Layering
  import opened Invariants
  import opened Handover
  import opened Exactness
  import opened LastOne
  import opened Termination
  import opened Progress
  import opened WholeRun
  import O = Ownership

  /* ---------------------------------------------- driving one goroutine on */

  /** A goroutine that stands here holds up no other one. */
  predicate Parked(c: Control) { !c.pc.Msync? && !c.pc.Unlock? }

  /** Device `d` can be driven on: it has not failed, and the others are parked. */
  ghost predicate Drivable(cfg: Config, s: State, d: nat) {
    && Reachable(cfg, s) && d < cfg.N() && |s.devs| == cfg.N()
    && !s.devs[d].ctl.failed
    && forall i :: 0 <= i < cfg.N() && i != d ==> Parked(s.devs[i].ctl)
  }

  lemma {:induction false} NothingLocked(cfg: Config, s: State, d: nat)
    requires BarrierOk(cfg, s) && d < cfg.N() && s.devs[d].ctl.pc != Unlock
    requires forall i :: 0 <= i < cfg.N() && i != d ==> Parked(s.devs[i].ctl)
    ensures forall e: Effect :: CanFlush(cfg, s.devs, e)
    ensures s.shared.lockHolder.Some? ==> s.shared.lockHolder == Some(d) && s.devs[d].ctl.pc.Msync?
  {
    forall i | 0 <= i < cfg.N() ensures !s.devs[i].ctl.locked { assert ControlOk(cfg, s.shared, i, s.devs[i].ctl); }
  }

  /** An own operation that the device can take now. */
  lemma {:induction false} NextStep(cfg: Config, s: State, d: nat) returns (op: Op)
    requires Drivable(cfg, s, d) && s.devs[d].ctl.pc != Done
    requires s.shared.suspension.Idle? || s.shared.suspension.Suspended?
    ensures CanRun(cfg, s, d, op) && IsLoopOp(op)
  {
    hide Reachable, ControlReady, VolumeReady, CanFlush, EffectOf, IsProgress;
    ReachableInv(cfg, s);
    InvParts(cfg, s);
    assert ControlOk(cfg, s.shared, d, s.devs[d].ctl) && VolumeOk(cfg, d, s.devs[d].ctl.pc, s.devs[d].vol);
    if s.devs[d].ctl.pc.Msync? {
      op := MsyncAndUnlock;
      NothingLocked(cfg, s, d);
      MsyncReady(cfg, s, d);
    } else {
      LockIsFree(cfg, s, d);
      op := NextOp(cfg, s.shared, d, s.devs[d]);
      NoEffectCanFlush(cfg, s.devs);
    }
  }

  lemma {:induction false} MsyncReady(cfg: Config, s: State, d: nat)
    requires |s.devs| == cfg.N() && d < cfg.N() && s.devs[d].ctl.pc.Msync? && !s.devs[d].ctl.failed
    ensures ControlReady(s.shared, d, s.devs[d].ctl, MsyncAndUnlock) && VolumeReady(cfg, d, s.devs[d], MsyncAndUnlock)
  {
  }

  lemma {:induction false} LockIsFree(cfg: Config, s: State, d: nat)
    requires BarrierOk(cfg, s) && d < cfg.N() && !s.devs[d].ctl.pc.Msync?
    requires forall i :: 0 <= i < cfg.N() && i != d ==> Parked(s.devs[i].ctl)
    ensures s.shared.LockFree()
  {
  }

  lemma {:induction false} NoEffectCanFlush(cfg: Config, devs: seq<Dev>)
    requires |devs| == cfg.N()
    ensures CanFlush(cfg, devs, NoEffect)
  {
  }

  lemma {:induction false} LoopIsOwn(op: Op)
    requires IsLoopOp(op)
    ensures IsOwnOp(op) && !op.Fail?
  {
  }

  /** What the guest sees stays, and the storage that its snapshots do not reach. */
  ghost predicate Carries(cfg: Config, s: State, t: State) {
    && |t.devs| == |s.devs|
    && (forall i :: 0 <= i < |s.devs| ==> t.devs[i].vol.guest == s.devs[i].vol.guest)
    && (forall i :: 0 <= i < |s.devs| && i < cfg.N() && Unreached(cfg, i) ==> t.devs[i].vol.src == s.devs[i].vol.src)
  }

  /** What driving device `d` leaves alone: the goroutines of the others, what the guest sees and the
      destination. */
  ghost predicate Leaves(cfg: Config, s: State, t: State, d: nat) {
    && Carries(cfg, s, t) && t.dst == s.dst
    && (forall i :: 0 <= i < |s.devs| && i != d ==> t.devs[i].ctl == s.devs[i].ctl)
  }

  /** The tracker has recorded nothing, and all that the guest wrote has reached the storage. */
  predicate Untouched(v: Volume) { v.dirty == {} && v.unsynced == {} }

  ghost predicate KeepsUntouched(s: State, t: State) {
    |t.devs| == |s.devs| && forall i :: 0 <= i < |s.devs| && Untouched(s.devs[i].vol) ==> Untouched(t.devs[i].vol)
  }

  /** Nothing changes in what the destination will hold of a quiet device; `k` may be none. */
  ghost predicate KeepsView(s: State, t: State, k: nat) {
    && |s.devs| == |t.devs| && |s.devs| == |s.dst.stores| == |t.dst.stores|
    && (k < |s.devs| && Quiet(s.devs[k]) ==> Quiet(t.devs[k]) && ViewOf(t, k) == ViewOf(s, k))
  }

  lemma {:induction false} Transitive(cfg: Config, s: State, t: State, u: State, d: nat, k: nat)
    ensures Leaves(cfg, s, t, d) && Leaves(cfg, t, u, d) ==> Leaves(cfg, s, u, d)
    ensures KeepsUntouched(s, t) && KeepsUntouched(t, u) ==> KeepsUntouched(s, u)
    ensures KeepsView(s, t, k) && KeepsView(t, u, k) ==> KeepsView(s, u, k)
  {
    hide ViewOf, Quiet, Untouched, Unreached;
  }

  lemma {:induction false} ReachableSizes(cfg: Config, s: State)
    requires Reachable(cfg, s)
    ensures Sized(cfg, s)
  {
  }

  lemma {:induction false} OpLeaves(cfg: Config, s: State, d: nat, op: Op)
    requires Reachable(cfg, s) && |s.devs| == cfg.N() && d < cfg.N() && CanRun(cfg, s, d, op) && IsOwnOp(op)
    ensures Reachable(cfg, RunOp(cfg, s, d, op)) && Leaves(cfg, s, RunOp(cfg, s, d, op), d)
  {
    ReachableSizes(cfg, s);
    hide CanRun, Reachable;
    var t := RunOp(cfg, s, d, op);
    OpSized(cfg, s, d, op);
    ReachableStep(cfg, s, OnDevice(d, op), t);
    forall i: nat | i < cfg.N()
      ensures t.devs[i].vol.guest == s.devs[i].vol.guest && (i != d ==> t.devs[i].ctl == s.devs[i].ctl)
      ensures Unreached(cfg, i) ==> t.devs[i].vol.src == s.devs[i].vol.src
    {
      assert t.devs[i] == DevAfter(cfg, s, d, op, i);
      O.GuestAfter(cfg, s, d, op, i);
      if Unreached(cfg, i) { UnreachedOp(cfg, s, d, op, i); }
    }
    hide DevAfter, Unreached;
  }

  lemma {:induction false} OpKeepsView(cfg: Config, s: State, d: nat, op: Op, k: nat)
    requires Sized(cfg, s) && d < cfg.N() && CanRun(cfg, s, d, op) && !(k == d && op.GetLatestDirty?)
    ensures KeepsView(s, RunOp(cfg, s, d, op), k)
  {
    hide Quiet, ViewOf, CanRun;
    if k < cfg.N() && Quiet(s.devs[k]) {
      QuietOtherOp(cfg, s, d, op, k);
      assert RunOp(cfg, s, d, op).devs[k] == DevAfter(cfg, s, d, op, k);
    }
    hide DevAfter;
  }

  /** Before the suspension the only flush is of what is unsynced. */
  lemma {:induction false} OpKeepsUntouched(cfg: Config, s: State, d: nat, op: Op)
    requires Sized(cfg, s) && d < cfg.N() && CanRun(cfg, s, d, op) && IsOwnOp(op) && s.shared.suspension.Idle?
    ensures KeepsUntouched(s, RunOp(cfg, s, d, op))
  {
    var t, e := RunOp(cfg, s, d, op), EffectOf(s.shared, op);
    assert e == NoEffect || e == MsyncMemory;
    forall i: nat | i < cfg.N() && Untouched(s.devs[i].vol) ensures Untouched(t.devs[i].vol) {
      assert t.devs[i] == DevAfter(cfg, s, d, op, i);
      OwnKeepsUntouched(cfg, d, s.devs[d], op);
      FlushKeepsUntouched(cfg, i, if i == d then VolumeAfter(cfg, d, s.devs[d], op) else s.devs[i].vol, e);
    }
    hide CanRun, DevAfter, EffectOf, VolumeAfter, Flushed, Untouched;
  }

  lemma {:induction false} OwnKeepsUntouched(cfg: Config, d: nat, dv: Dev, op: Op)
    requires d < cfg.N() && VolumeReady(cfg, d, dv, op) && |dv.vol.guest| == |dv.vol.src| && IsOwnOp(op)
    ensures Untouched(dv.vol) ==> Untouched(VolumeAfter(cfg, d, dv, op))
  {
  }

  lemma {:induction false} FlushKeepsUntouched(cfg: Config, d: nat, v: Volume, e: Effect)
    requires d < cfg.N() && |v.guest| == |v.src| && (e == NoEffect || e == MsyncMemory)
    ensures Untouched(v) ==> Untouched(Flushed(cfg, d, v, e))
  {
  }

  /* ----------------------------------------------------- before the suspension */

  /** Before the pause no operation stops the guest. */
  lemma {:induction false} IdleOp(cfg: Config, sh: Shared, d: nat, c: Control, dirty: nat, op: Op)
    requires d < cfg.N() && ControlReady(sh, d, c, op) && sh.suspension.Idle? && sh.readyCount < cfg.N() && !op.Fail?
    requires ControlOk(cfg, sh, d, c)
    ensures var u := SharedAfter(cfg, sh, d, c, op); u.running == sh.running && u.suspension.Idle?
    ensures ControlAfter(cfg, sh, d, c, dirty, op).failed == c.failed
    ensures !c.cycles.marked && ControlAfter(cfg, sh, d, c, dirty, op).cycles.marked ==> ControlAfter(cfg, sh, d, c, dirty, op).pc.Test?
  {
    hide CountCycle;
  }

  /** One step of the drive. */
  lemma {:induction false} DriveStep(cfg: Config, s: State, d: nat, op: Op, k: nat)
    requires Drivable(cfg, s, d) && CanRun(cfg, s, d, op) && IsOwnOp(op) && !op.Fail?
    requires s.shared.suspension.Idle? && s.shared.readyCount < cfg.N()
    ensures var t := RunOp(cfg, s, d, op);
      && Drivable(cfg, t, d) && t.shared.running == s.shared.running && t.shared.suspension.Idle?
      && (!s.devs[d].ctl.cycles.marked && t.devs[d].ctl.cycles.marked ==> t.devs[d].ctl.pc.Test?)
      && Leaves(cfg, s, t, d) && KeepsUntouched(s, t) && (k != d ==> KeepsView(s, t, k))
  {
    ReachableSizes(cfg, s);
    ReachableInv(cfg, s);
    hide Reachable, ControlAfter, SharedAfter, ControlReady, CanFlush, VolumeReady, KeepsView, KeepsUntouched;
    var t, c := RunOp(cfg, s, d, op), s.devs[d].ctl;
    assert ControlOk(cfg, s.shared, d, c);
    IdleOp(cfg, s.shared, d, c, |s.devs[d].vol.dirty|, op);
    OpLeaves(cfg, s, d, op);
    OpKeepsUntouched(cfg, s, d, op);
    if k != d { OpKeepsView(cfg, s, d, op, k); }
    assert t.devs[d] == DevAfter(cfg, s, d, op, d);
    hide Inv, DevAfter;
  }

  /** Device `d` can be driven until it is marked. */
  lemma {:induction false} DriveToMark(cfg: Config, s: State, d: nat, k: nat) returns (t: State)
    requires Drivable(cfg, s, d) && !s.devs[d].ctl.cycles.marked && s.shared.running
    ensures Drivable(cfg, t, d) && Leaves(cfg, s, t, d) && KeepsUntouched(s, t) && (k != d ==> KeepsView(s, t, k))
    ensures t.devs[d].ctl.cycles.marked && t.devs[d].ctl.pc.Test? && t.shared.running && t.shared.suspension.Idle?
    decreases Potential(cfg.devices[d], s.devs[d])
  {
    ReachableSizes(cfg, s);
    hide Reachable, Leaves, KeepsView, KeepsUntouched, CanRun, RunOp, Potential, BarrierOk, StorageOk;
    ReachableInv(cfg, s);
    InvParts(cfg, s);
    SomeoneUnmarked(cfg, s, d);
    IdleNotDone(cfg, s, d);
    var op := NextStep(cfg, s, d);
    LoopIsOwn(op);
    var u := RunOp(cfg, s, d, op);
    DriveStep(cfg, s, d, op, k);
    if u.devs[d].ctl.cycles.marked {
      t := u;
    } else {
      StepUsesPotential(cfg, s, d, op);
      t := DriveToMark(cfg, u, d, k);
      Transitive(cfg, s, u, t, d, k);
    }
  }

  lemma {:induction false} IdleNotDone(cfg: Config, s: State, d: nat)
    requires BarrierOk(cfg, s) && d < cfg.N() && s.shared.suspension.Idle?
    ensures !LeftLoop(s.devs[d].ctl.pc)
  {
    assert ControlOk(cfg, s.shared, d, s.devs[d].ctl);
  }

  lemma {:induction false} StepUsesPotential(cfg: Config, s: State, d: nat, op: Op)
    requires BarrierOk(cfg, s) && StorageOk(cfg, s) && Sized(cfg, s) && d < cfg.N() && CanRun(cfg, s, d, op) && IsOwnOp(op)
    requires |RunOp(cfg, s, d, op).devs| == cfg.N() && !RunOp(cfg, s, d, op).devs[d].ctl.cycles.marked
    ensures Potential(cfg.devices[d], RunOp(cfg, s, d, op).devs[d]) < Potential(cfg.devices[d], s.devs[d])
  {
    hide Potential, CanRun, BarrierOk, StorageOk, Sized;
    UnmarkedStep(cfg, s, OnDevice(d, op), RunOp(cfg, s, d, op), d);
  }

  /** From where a marked device with nothing dirty stands to its next look at the flag. */
  function ToCheck(pc: Pc): nat {
    match pc
    case CheckFlag => 0
    case Unlock => 1
    case Drain => 2
    case AwaitBatch => 3
    case Msync => 4
    case LoopTop => 5
    case Test => 6
    case _ => 7
  }

  predicate OnWayToCheck(pc: Pc) { ToCheck(pc) < 7 }

  lemma {:induction false} CheckPlace(cfg: Config, sh: Shared, d: nat, c: Control, op: Op)
    requires d < cfg.N() && ControlReady(sh, d, c, op) && IsLoopOp(op) && sh.readyCount < cfg.N()
    requires OnWayToCheck(c.pc) && !c.pc.CheckFlag?
    ensures var after := ControlAfter(cfg, sh, d, c, 0, op);
      && OnWayToCheck(after.pc) && ToCheck(after.pc) <= ToCheck(c.pc) && after.failed == c.failed
      && (Where(op).Some? ==> ToCheck(after.pc) < ToCheck(c.pc))
      && (op.GetLatestDirty? ==> c.pc.Drain?)
  {
    hide CountCycle;
  }

  lemma {:induction false} CheckStep(cfg: Config, sh: Shared, d: nat, dv: Dev, op: Op)
    requires d < cfg.N() && ControlReady(sh, d, dv.ctl, op) && VolumeReady(cfg, d, dv, op)
    requires VolumeOk(cfg, d, dv.ctl.pc, dv.vol) && IsLoopOp(op) && dv.vol.dirty == {} && sh.readyCount < cfg.N()
    requires OnWayToCheck(dv.ctl.pc) && !dv.ctl.pc.CheckFlag?
    ensures var c, v := ControlAfter(cfg, sh, d, dv.ctl, |dv.vol.dirty|, op), VolumeAfter(cfg, d, dv, op);
      OnWayToCheck(c.pc) && c.failed == dv.ctl.failed && ToCheck(c.pc) + BatchWork(v) < ToCheck(dv.ctl.pc) + BatchWork(dv.vol)
  {
    CheckPlace(cfg, sh, d, dv.ctl, op);
    BatchWorkAfter(cfg, d, dv, op);
    hide ControlAfter, ControlReady, VolumeReady, VolumeAfter, BatchWork, ReadingOk, SyncOk, ToCheck;
  }

  /** And then to its next look at the flag, after a drain that returned nothing. */
  lemma {:induction false} DriveToCheck(cfg: Config, s: State, d: nat) returns (t: State)
    requires Drivable(cfg, s, d) && OnWayToCheck(s.devs[d].ctl.pc) && s.shared.running && s.shared.suspension.Idle?
    requires s.shared.readyCount < cfg.N() && s.devs[d].ctl.cycles.marked && Untouched(s.devs[d].vol)
    ensures Drivable(cfg, t, d) && Leaves(cfg, s, t, d) && KeepsUntouched(s, t)
    ensures t.devs[d].ctl.pc.CheckFlag? && t.devs[d].ctl.cycles.marked && t.shared.running && t.shared.suspension.Idle?
    decreases ToCheck(s.devs[d].ctl.pc) + BatchWork(s.devs[d].vol)
  {
    ReachableSizes(cfg, s);
    hide Reachable, Leaves, KeepsView, CanRun, RunOp, BarrierOk, ToCheck, BatchWork;
    ReachableInv(cfg, s);
    InvParts(cfg, s);
    if s.devs[d].ctl.pc.CheckFlag? {
      t := s;
      Same(cfg, s, d);
    } else {
      WayIsNotDone(s.devs[d].ctl.pc);
      var op := NextStep(cfg, s, d);
      LoopIsOwn(op);
      DriveStep(cfg, s, d, op, d);
      CheckStepOf(cfg, s, d, op);
      var u := RunOp(cfg, s, d, op);
      t := DriveToCheck(cfg, u, d);
      Transitive(cfg, s, u, t, d, d);
    }
  }

  lemma {:induction false} WayIsNotDone(pc: Pc)
    requires OnWayToCheck(pc)
    ensures pc != Done
  {
  }

  lemma {:induction false} Same(cfg: Config, s: State, d: nat)
    ensures Leaves(cfg, s, s, d) && KeepsUntouched(s, s)
  {
  }

  lemma {:induction false} CheckStepOf(cfg: Config, s: State, d: nat, op: Op)
    requires BarrierOk(cfg, s) && StorageOk(cfg, s) && d < cfg.N() && CanRun(cfg, s, d, op) && IsLoopOp(op) && s.shared.suspension.Idle?
    requires s.shared.readyCount < cfg.N() && s.devs[d].vol.dirty == {} && s.devs[d].ctl.cycles.marked
    requires OnWayToCheck(s.devs[d].ctl.pc) && !s.devs[d].ctl.pc.CheckFlag?
    ensures var t, dv := RunOp(cfg, s, d, op), s.devs[d];
      && |t.devs| == cfg.N() && OnWayToCheck(t.devs[d].ctl.pc) && t.devs[d].ctl.cycles.marked
      && t.shared.readyCount == s.shared.readyCount
      && ToCheck(t.devs[d].ctl.pc) + BatchWork(t.devs[d].vol) < ToCheck(dv.ctl.pc) + BatchWork(dv.vol)
  {
    var t, dv := RunOp(cfg, s, d, op), s.devs[d];
    assert VolumeOk(cfg, d, dv.ctl.pc, dv.vol);
    CheckStep(cfg, s.shared, d, dv, op);
    MarkedStays(cfg, s.shared, d, dv.ctl, |dv.vol.dirty|, op);
    assert t.devs[d] == DevAfter(cfg, s, d, op, d);
    var c, v := ControlAfter(cfg, s.shared, d, dv.ctl, |dv.vol.dirty|, op), VolumeAfter(cfg, d, dv, op);
    assert t.devs[d].vol.pending == v.pending && t.devs[d].vol.reading == v.reading;
    assert !MarksNow(cfg, d, dv.ctl, op);
    hide ToCheck, ControlAfter, VolumeAfter, CanRun, Flushed, EffectOf, OnWayToCheck, VolumeOk, BarrierOk, StorageOk, MarksNow;
  }

  /* ------------------------------------------------------------ the suspension */

  /** The suspension goes on to its end. */
  lemma {:induction false} StageRuns(cfg: Config, s: State, d: nat)
    requires BarrierOk(cfg, s) && d < cfg.N() && s.shared.suspension.InProgress? && s.shared.suspension.caller == d
    requires forall i :: 0 <= i < cfg.N() && i != d ==> Parked(s.devs[i].ctl)
    ensures CanRun(cfg, s, d, SuspendStep)
    ensures var t := RunOp(cfg, s, d, SuspendStep);
      && |t.devs| == cfg.N() && t.devs[d].ctl == s.devs[d].ctl
      && StagesLeft(t.shared.suspension) < StagesLeft(s.shared.suspension)
      && (t.shared.suspension.Suspended? || (t.shared.suspension.InProgress? && t.shared.suspension.caller == d))
    ensures s.devs[d].ctl.pc.CallSuspend?
  {
    hide CountedSet, MarkedSet, ControlOk, CanFlush, EffectOf;
    NothingLocked(cfg, s, d);
    assert RunOp(cfg, s, d, SuspendStep).devs[d] == DevAfter(cfg, s, d, SuspendStep, d);
    hide Flushed;
  }

  lemma {:induction false} DriveSuspension(cfg: Config, s: State, d: nat, k: nat) returns (t: State)
    requires Drivable(cfg, s, d) && s.shared.suspension.InProgress? && s.shared.suspension.caller == d && k != d
    ensures Drivable(cfg, t, d) && Leaves(cfg, s, t, d) && KeepsView(s, t, k) && t.shared.IsSuspended()
    ensures t.devs[d].ctl.pc.CallSuspend?
    decreases StagesLeft(s.shared.suspension)
  {
    ReachableSizes(cfg, s);
    hide Reachable, Leaves, KeepsView, CanRun, RunOp, BarrierOk, StagesLeft;
    ReachableInv(cfg, s);
    InvParts(cfg, s);
    StageRuns(cfg, s, d);
    var u := RunOp(cfg, s, d, SuspendStep);
    OpLeaves(cfg, s, d, SuspendStep);
    OpKeepsView(cfg, s, d, SuspendStep, k);
    StillDrivable(cfg, s, u, d);
    if u.shared.IsSuspended() {
      t := u;
    } else {
      t := DriveSuspension(cfg, u, d, k);
      Transitive(cfg, s, u, t, d, k);
    }
  }

  lemma {:induction false} StillDrivable(cfg: Config, s: State, t: State, d: nat)
    requires Drivable(cfg, s, d) && Reachable(cfg, t) && Leaves(cfg, s, t, d) && !t.devs[d].ctl.failed
    ensures Drivable(cfg, t, d)
  {
    hide Reachable;
  }

  /** The last one to be marked suspends the machine. */
  lemma {:induction false} DriveToSuspension(cfg: Config, s: State, d: nat, k: nat) returns (t: State)
    requires Drivable(cfg, s, d) && s.devs[d].ctl.pc.Test? && s.shared.readyCount == cfg.N() && s.shared.suspension.Idle?
    requires k != d
    ensures Drivable(cfg, t, d) && Leaves(cfg, s, t, d) && KeepsView(s, t, k) && t.shared.IsSuspended()
    ensures t.devs[d].ctl.pc.CallSuspend?
  {
    ReachableSizes(cfg, s);
    hide Reachable, Leaves, KeepsView, CanRun, RunOp;
    ReadsAll(cfg, s, d);
    var u := RunOp(cfg, s, d, LoadReady);
    OpLeaves(cfg, s, d, LoadReady);
    OpKeepsView(cfg, s, d, LoadReady, k);
    StillDrivable(cfg, s, u, d);
    CallSuspends(cfg, u, d);
    var v := RunOp(cfg, u, d, EnterSuspend);
    OpLeaves(cfg, u, d, EnterSuspend);
    OpKeepsView(cfg, u, d, EnterSuspend, k);
    EnterKeepsAlive(cfg, u, d);
    StillDrivable(cfg, u, v, d);
    t := DriveSuspension(cfg, v, d, k);
    Transitive(cfg, u, v, t, d, k);
    Transitive(cfg, s, u, t, d, k);
  }

  lemma {:induction false} EnterKeepsAlive(cfg: Config, s: State, d: nat)
    requires Sized(cfg, s) && d < cfg.N() && CanRun(cfg, s, d, EnterSuspend)
    ensures |RunOp(cfg, s, d, EnterSuspend).devs| == cfg.N() && RunOp(cfg, s, d, EnterSuspend).devs[d].ctl.failed == s.devs[d].ctl.failed
  {
    assert RunOp(cfg, s, d, EnterSuspend).devs[d] == DevAfter(cfg, s, d, EnterSuspend, d);
    hide Flushed;
  }

  /* ------------------------------------------------------ after the suspension */

  /** A device past an empty drain that followed the suspension, or not yet there. */
  predicate DrainedSince(c: Control) { PastEmptyDrain(c.pc) ==> c.drainedSuspended }

  lemma {:induction false} SuspendedLoopStep(cfg: Config, s: State, d: nat, op: Op)
    requires Inv(cfg, s) && Sized(cfg, s) && d < cfg.N() && CanRun(cfg, s, d, op) && IsLoopOp(op) && s.shared.IsSuspended()
    ensures var t := RunOp(cfg, s, d, op);
      && |t.devs| == cfg.N() && t.shared.IsSuspended() && DevMeasure(t.devs[d]) < DevMeasure(s.devs[d])
      && t.devs[d].ctl.failed == s.devs[d].ctl.failed && (DrainedSince(s.devs[d].ctl) ==> DrainedSince(t.devs[d].ctl))
  {
    hide DevMeasure, ConnectionOk, DrainsOk;
    LoopIsOwn(op);
    var t := RunOp(cfg, s, d, op);
    assert BarrierOk(cfg, s) && LayeringOk(cfg, s);
    SuspendedOthersKeep(cfg, s, d, op, d);
    AllInLoop(cfg, s, d);
    assert VolumeOk(cfg, d, s.devs[d].ctl.pc, s.devs[d].vol);
    SuspendedOp(cfg, s.shared, d, s.devs[d], op);
    NoWriterWhenSuspended(cfg, s, d, op);
    LoopKeepsAlive(cfg, s.shared, d, s.devs[d].ctl, |s.devs[d].vol.dirty|, op);
    DrainedPc(cfg, s.shared, d, s.devs[d].ctl, |s.devs[d].vol.dirty|, op);
    assert t.devs[d] == DevAfter(cfg, s, d, op, d);
    hide Inv, ControlAfter, VolumeAfter, SharedAfter, Sent, CanRun, DevAfter;
  }

  lemma {:induction false} LoopKeepsAlive(cfg: Config, sh: Shared, d: nat, c: Control, dirty: nat, op: Op)
    requires d < cfg.N() && IsLoopOp(op)
    ensures ControlAfter(cfg, sh, d, c, dirty, op).failed == c.failed
  {
    hide CountCycle;
  }

  /** A device can be driven until it has given its authority away. */
  lemma {:induction false} DriveOut(cfg: Config, s: State, d: nat, k: nat) returns (t: State)
    requires Drivable(cfg, s, d) && s.shared.IsSuspended() && k != d
    ensures Drivable(cfg, t, d) && Leaves(cfg, s, t, d) && KeepsView(s, t, k) && t.shared.IsSuspended()
    ensures AuthoritySent(t.devs[d].ctl.pc) && (DrainedSince(s.devs[d].ctl) ==> DrainedSince(t.devs[d].ctl))
    decreases DevMeasure(s.devs[d])
  {
    ReachableSizes(cfg, s);
    hide Reachable, Leaves, KeepsView, CanRun, RunOp, Inv, DevMeasure;
    ReachableInv(cfg, s);
    if AuthoritySent(s.devs[d].ctl.pc) {
      t := s;
      SameView(cfg, s, d, k);
    } else {
      var op := NextStep(cfg, s, d);
      LoopIsOwn(op);
      var u := RunOp(cfg, s, d, op);
      OpLeaves(cfg, s, d, op);
      OpKeepsView(cfg, s, d, op, k);
      SuspendedLoopStep(cfg, s, d, op);
      StillDrivable(cfg, s, u, d);
      t := DriveOut(cfg, u, d, k);
      Transitive(cfg, s, u, t, d, k);
    }
  }

  lemma {:induction false} SameView(cfg: Config, s: State, d: nat, k: nat)
    ensures Leaves(cfg, s, s, d)
    ensures |s.devs| == |s.dst.stores| ==> KeepsView(s, s, k)
  {
  }

  /* ------------------------------------------------------------- the whole run */

  /** A first state in which the guest has written nothing but zeros, all of them stored. */
  lemma {:induction false} Zeroed(cfg: Config) returns (s: State)
    ensures Init(cfg, s) && Reachable(cfg, s)
    ensures |s.devs| == cfg.N() && forall d :: 0 <= d < cfg.N() ==> s.devs[d].ctl == START && Untouched(s.devs[d].vol)
  {
    hide Reachable;
    s := State(
      seq(cfg.N(), d requires 0 <= d < cfg.N() => Dev(START, ZeroVolume(cfg.devices[d].blocks))),
      Shared(0, 0, None, Idle, true), [],
      Destination(seq(cfg.N(), _ => map[]), {}, {}, 0, false, false, false, WaitReceived));
    forall d | 0 <= d < cfg.N() ensures InitVolume(cfg.devices[d].blocks, cfg.Direct(d), s.devs[d].vol) {}
    O.InitReachable(cfg, s);
  }

  function ZeroVolume(blocks: nat): Volume {
    Volume(seq(blocks, _ => 0), seq(blocks, _ => 0), {}, {}, Blocks(blocks), map[])
  }

  /** Device `k`, if there is one, is about to look at the flag, the ones before `n` are marked, the others
      have not begun. */
  ghost predicate Marking(cfg: Config, s: State, k: nat, n: nat) {
    && Reachable(cfg, s) && |s.devs| == cfg.N() && s.shared.running && s.shared.suspension.Idle?
    && (k < cfg.N() ==> s.devs[k].ctl.pc.CheckFlag? && s.devs[k].ctl.cycles.marked && !s.devs[k].ctl.failed)
    && (forall i :: 0 <= i < cfg.N() && i != k && i < n ==>
          s.devs[i].ctl.pc.Test? && s.devs[i].ctl.cycles.marked && !s.devs[i].ctl.failed)
    && forall i :: n <= i < cfg.N() && i != k ==> s.devs[i].ctl == START
  }

  /** Nothing that concerns device `k` changes: its goroutine, what its guest sees, what will arrive. */
  ghost predicate Spares(cfg: Config, s: State, t: State, k: nat) {
    && KeepsView(s, t, k) && t.dst == s.dst && Carries(cfg, s, t)
    && (k < |s.devs| ==> t.devs[k].ctl == s.devs[k].ctl)
  }

  lemma {:induction false} SparesTransitive(cfg: Config, s: State, t: State, u: State, k: nat)
    requires Spares(cfg, s, t, k) && Spares(cfg, t, u, k)
    ensures Spares(cfg, s, u, k)
  {
    hide Quiet, ViewOf;
  }

  lemma {:induction false} SparesSame(cfg: Config, s: State, k: nat)
    requires |s.devs| == |s.dst.stores|
    ensures Spares(cfg, s, s, k)
  {
  }

  lemma {:induction false} LeavesSpares(cfg: Config, s: State, t: State, d: nat, k: nat)
    requires Leaves(cfg, s, t, d) && KeepsView(s, t, k) && k != d
    ensures Spares(cfg, s, t, k)
  {
    hide Quiet, ViewOf;
  }

  lemma {:induction false} MarkFrom(cfg: Config, s: State, k: nat, n: nat) returns (t: State)
    requires Marking(cfg, s, k, n) && n <= cfg.N()
    ensures Marking(cfg, t, k, cfg.N()) && Spares(cfg, s, t, k)
    decreases cfg.N() - n
  {
    hide Reachable, KeepsView, Leaves, KeepsUntouched, Spares;
    ReachableSizes(cfg, s);
    if n == cfg.N() {
      t := s;
      SparesSame(cfg, s, k);
    } else if n == k {
      t := MarkFrom(cfg, s, k, n + 1);
    } else {
      var u := DriveToMark(cfg, s, n, k);
      LeavesSpares(cfg, s, u, n, k);
      assert Marking(cfg, u, k, n + 1) by { OthersKept(cfg, s, u, n); }
      t := MarkFrom(cfg, u, k, n + 1);
      SparesTransitive(cfg, s, u, t, k);
    }
  }

  lemma {:induction false} OthersKept(cfg: Config, s: State, t: State, d: nat)
    requires Leaves(cfg, s, t, d)
    ensures |t.devs| == |s.devs| && forall i :: 0 <= i < |s.devs| && i != d ==> t.devs[i].ctl == s.devs[i].ctl
  {
  }

  /** Suspended, with all before `n` and device `k` past their authority, and nobody in the way. */
  ghost predicate Leaving(cfg: Config, s: State, k: nat, n: nat) {
    && Reachable(cfg, s) && |s.devs| == cfg.N() && s.shared.IsSuspended()
    && (forall i :: 0 <= i < cfg.N() ==> Parked(s.devs[i].ctl) && !s.devs[i].ctl.failed)
    && forall i :: 0 <= i < cfg.N() && (i < n || i == k) ==> AuthoritySent(s.devs[i].ctl.pc)
  }

  ghost predicate AllDrainedSince(s: State) { forall i :: 0 <= i < |s.devs| ==> DrainedSince(s.devs[i].ctl) }

  lemma {:induction false} StillDrained(cfg: Config, s: State, t: State, d: nat)
    requires Leaves(cfg, s, t, d) && d < |s.devs| && (DrainedSince(s.devs[d].ctl) ==> DrainedSince(t.devs[d].ctl))
    ensures AllDrainedSince(s) ==> AllDrainedSince(t)
  {
    hide DrainedSince;
  }

  lemma {:induction false} DriveAllOut(cfg: Config, s: State, k: nat, n: nat) returns (t: State)
    requires Leaving(cfg, s, k, n) && n <= cfg.N()
    ensures Leaving(cfg, t, k, cfg.N()) && Spares(cfg, s, t, k) && (AllDrainedSince(s) ==> AllDrainedSince(t))
    decreases cfg.N() - n
  {
    hide Reachable, KeepsView, Leaves, Spares;
    ReachableSizes(cfg, s);
    if n == cfg.N() {
      t := s;
      SparesSame(cfg, s, k);
    } else if n == k {
      t := DriveAllOut(cfg, s, k, n + 1);
    } else {
      var u := DriveOut(cfg, s, n, k);
      LeavesSpares(cfg, s, u, n, k);
      assert Leaving(cfg, u, k, n + 1) by { OthersKept(cfg, s, u, n); }
      StillDrained(cfg, s, u, n);
      t := DriveAllOut(cfg, u, k, n + 1);
      SparesTransitive(cfg, s, u, t, k);
    }
  }

  /** A device that finds the flag up leaves its loop and gives its authority away at once. */
  lemma {:induction false} LeavesOnFlag(cfg: Config, s: State, k: nat) returns (t: State)
    requires Drivable(cfg, s, k) && s.shared.IsSuspended() && s.devs[k].ctl.pc.CheckFlag?
    ensures Drivable(cfg, t, k) && Leaves(cfg, s, t, k) && KeepsView(s, t, k) && t.shared.IsSuspended()
    ensures AuthoritySent(t.devs[k].ctl.pc)
  {
    ReachableSizes(cfg, s);
    hide Reachable, Leaves, KeepsView, CanRun, RunOp;
    ReachableInv(cfg, s);
    InvParts(cfg, s);
    LockIsFree(cfg, s, k);
    ReadsFlag(cfg, s, k);
    var u := RunOp(cfg, s, k, ReadSuspended);
    OpLeaves(cfg, s, k, ReadSuspended);
    OpKeepsView(cfg, s, k, ReadSuspended, k);
    StillDrivable(cfg, s, u, k);
    ReachableSizes(cfg, u);
    GivesAway(cfg, u, k);
    t := RunOp(cfg, u, k, SendAuthority);
    OpLeaves(cfg, u, k, SendAuthority);
    OpKeepsView(cfg, u, k, SendAuthority, k);
    StillDrivable(cfg, u, t, k);
    Transitive(cfg, s, u, t, k, k);
  }

  lemma {:induction false} ReadsFlag(cfg: Config, s: State, k: nat)
    requires Sized(cfg, s) && k < cfg.N() && s.shared.LockFree() && s.shared.IsSuspended()
    requires s.devs[k].ctl.pc.CheckFlag? && !s.devs[k].ctl.failed
    ensures CanRun(cfg, s, k, ReadSuspended)
    ensures var t := RunOp(cfg, s, k, ReadSuspended);
      |t.devs| == cfg.N() && t.shared.IsSuspended() && t.devs[k].ctl.pc.Authority? && !t.devs[k].ctl.failed
  {
    assert RunOp(cfg, s, k, ReadSuspended).devs[k] == DevAfter(cfg, s, k, ReadSuspended, k);
    hide Flushed, CountCycle;
  }

  lemma {:induction false} GivesAway(cfg: Config, s: State, k: nat)
    requires Sized(cfg, s) && k < cfg.N() && s.shared.IsSuspended() && s.devs[k].ctl.pc.Authority? && !s.devs[k].ctl.failed
    ensures CanRun(cfg, s, k, SendAuthority)
    ensures var t := RunOp(cfg, s, k, SendAuthority);
      |t.devs| == cfg.N() && t.shared.IsSuspended() && t.devs[k].ctl.pc.AwaitCompletion? && !t.devs[k].ctl.failed
  {
    assert RunOp(cfg, s, k, SendAuthority).devs[k] == DevAfter(cfg, s, k, SendAuthority, k);
    hide Flushed, CountCycle;
  }

  /** All that is in flight can be delivered. */
  lemma {:induction false} DeliverAll(cfg: Config, s: State, k: nat) returns (t: State)
    requires Reachable(cfg, s) && k < cfg.N() && |s.devs| == |s.dst.stores| == cfg.N() && !s.dst.eof && !s.dst.progress.Resumed?
    ensures Reachable(cfg, t) && t.devs == s.devs && t.queue == [] && !t.dst.eof && !t.dst.progress.Resumed?
    ensures |t.dst.stores| == cfg.N() && ViewOf(t, k) == ViewOf(s, k)
    decreases |s.queue|
  {
    hide Reachable, ViewOf;
    if s.queue == [] {
      t := s;
    } else {
      ReachableSizes(cfg, s);
      ReachableInv(cfg, s);
      InvConnection(cfg, s);
      DeliverEnabled(cfg, s);
      QuietDelivery(cfg, s, k);
      var u := Happen(s, Deliver);
      ReachableStep(cfg, s, AtDestination(Deliver), u);
      DeliverOpen(s);
      t := DeliverAll(cfg, u, k);
    }
  }

  lemma {:induction false} DeliverEnabled(cfg: Config, s: State)
    requires ConnectionOk(cfg, s) && s.queue != [] && !s.dst.eof
    ensures CanHappen(s, Deliver)
  {
  }

  lemma {:induction false} DeliverOpen(s: State)
    requires CanHappen(s, Deliver)
    ensures var t := Happen(s, Deliver);
      && t.devs == s.devs && |t.queue| == |s.queue| - 1 && t.dst.eof == s.dst.eof && t.dst.progress == s.dst.progress
      && |t.dst.stores| == |s.dst.stores|
  {
  }

  /** Device `k` stands before the flag, with everything sent, and is then written to. */
  lemma {:induction false} WriteInGap(cfg: Config, s: State, k: nat) returns (t: State)
    requires Drivable(cfg, s, k) && s.devs[k].ctl.pc.CheckFlag? && s.shared.running && Untouched(s.devs[k].vol)
    requires cfg.devices[k].blocks > 0 && !s.dst.progress.Resumed?
    ensures Reachable(cfg, t) && |t.devs| == |t.dst.stores| == cfg.N() && t.dst == s.dst && t.shared == s.shared
    ensures forall i :: 0 <= i < cfg.N() ==> t.devs[i].ctl == s.devs[i].ctl
    ensures Quiet(t.devs[k]) && |t.devs[k].vol.guest| > 0
    ensures 0 in ViewOf(t, k) && ViewOf(t, k)[0] != t.devs[k].vol.guest[0]
  {
    ReachableSizes(cfg, s);
    hide Reachable, Quiet, ViewOf, Inv, CanRun;
    var data := s.devs[k].vol.guest[0] + 1;
    ReachableInv(cfg, s);
    StoodBeforeFlag(cfg, s, k);
    WriteEnabled(cfg, s, k, data);
    t := RunOp(cfg, s, k, GuestWrite(0, data));
    GuestWrites(cfg, s, k, data);
    QuietOtherOp(cfg, s, k, GuestWrite(0, data), k);
    hide DevAfter;
  }

  lemma {:induction false} GuestWrites(cfg: Config, s: State, k: nat, data: Data)
    requires Reachable(cfg, s) && Sized(cfg, s) && k < cfg.N() && CanRun(cfg, s, k, GuestWrite(0, data))
    ensures var t := RunOp(cfg, s, k, GuestWrite(0, data));
      && Reachable(cfg, t) && |t.devs| == cfg.N() && t.dst == s.dst
      && (forall i :: 0 <= i < cfg.N() ==> t.devs[i].ctl == s.devs[i].ctl)
      && t.devs[k] == DevAfter(cfg, s, k, GuestWrite(0, data), k)
      && t.devs[k].vol.guest == s.devs[k].vol.guest[0 := data]
  {
    hide Reachable;
    var t := RunOp(cfg, s, k, GuestWrite(0, data));
    OpSized(cfg, s, k, GuestWrite(0, data));
    ReachableStep(cfg, s, OnDevice(k, GuestWrite(0, data)), t);
    O.GuestAfter(cfg, s, k, GuestWrite(0, data), k);
    forall i: nat | i < cfg.N() ensures t.devs[i].ctl == s.devs[i].ctl { assert t.devs[i] == DevAfter(cfg, s, k, GuestWrite(0, data), i); }
    assert t.devs[k] == DevAfter(cfg, s, k, GuestWrite(0, data), k);
    hide CanRun;
  }

  lemma {:induction false} StoodBeforeFlag(cfg: Config, s: State, k: nat)
    requires Inv(cfg, s) && Sized(cfg, s) && k < cfg.N() && s.devs[k].ctl.pc.CheckFlag? && Untouched(s.devs[k].vol)
    requires cfg.devices[k].blocks > 0 && !s.dst.progress.Resumed?
    ensures Quiet(s.devs[k]) && !s.devs[k].ctl.locked
    ensures 0 in ViewOf(s, k) && ViewOf(s, k)[0] == s.devs[k].vol.guest[0]
  {
    hide ConnectionOk, LayeringOk, DrainsOk;
    assert ControlOk(cfg, s.shared, k, s.devs[k].ctl);
    assert VolumeOk(cfg, k, s.devs[k].ctl.pc, s.devs[k].vol);
    assert ViewOk(s.devs[k].ctl.pc, s.devs[k].vol, ViewOf(s, k));
  }

  lemma {:induction false} WriteEnabled(cfg: Config, s: State, k: nat, data: Data)
    requires Sized(cfg, s) && k < cfg.N() && !s.devs[k].ctl.locked && s.shared.running && cfg.devices[k].blocks > 0
    ensures CanRun(cfg, s, k, GuestWrite(0, data)) && |s.devs[k].vol.guest| > 0
    ensures SharedAfter(cfg, s.shared, k, s.devs[k].ctl, GuestWrite(0, data)) == s.shared
    ensures forall c: Control, dirty: nat :: ControlAfter(cfg, s.shared, k, c, dirty, GuestWrite(0, data)) == c
  {
  }

  /** Device `k` marked and before the flag, everything else untouched. */
  lemma {:induction false} ReachGap(cfg: Config, k: nat) returns (s: State)
    requires k < cfg.N() && cfg.N() > 1
    ensures Marking(cfg, s, k, 0) && Untouched(s.devs[k].vol) && Drivable(cfg, s, k)
    ensures s.dst.progress.WaitReceived? && !s.dst.eof
  {
    hide Reachable, Leaves, KeepsUntouched, KeepsView;
    var s0 := Zeroed(cfg);
    assert s0.shared.running && s0.dst.progress.WaitReceived? && !s0.dst.eof by { StartOf(cfg, s0); }
    var s1 := DriveToMark(cfg, s0, k, k);
    FewerThanAll(cfg, s0, s1, k);
    var s2 := DriveToCheck(cfg, s1, k);
    Transitive(cfg, s0, s1, s2, k, k);
    OthersKept(cfg, s0, s2, k);
    UntouchedAt(s0, s2, k);
    DstKept(cfg, s0, s2, k);
    s := s2;
  }

  lemma {:induction false} StartOf(cfg: Config, s: State)
    requires Init(cfg, s)
    ensures s.shared.running && s.shared.suspension.Idle? && s.dst.progress.WaitReceived? && !s.dst.eof
  {
  }

  lemma {:induction false} DstKept(cfg: Config, s: State, t: State, d: nat)
    requires Leaves(cfg, s, t, d)
    ensures t.dst == s.dst
  {
  }

  lemma {:induction false} UntouchedAt(s: State, t: State, d: nat)
    requires KeepsUntouched(s, t) && d < |s.devs| && Untouched(s.devs[d].vol)
    ensures |t.devs| == |s.devs| && Untouched(t.devs[d].vol)
  {
  }

  lemma {:induction false} FewerThanAll(cfg: Config, s: State, t: State, k: nat)
    requires Drivable(cfg, t, k) && Leaves(cfg, s, t, k) && KeepsUntouched(s, t) && cfg.N() > 1
    requires |s.devs| == cfg.N() && forall d :: 0 <= d < cfg.N() ==> s.devs[d].ctl == START && Untouched(s.devs[d].vol)
    ensures t.shared.readyCount < cfg.N() && Untouched(t.devs[k].vol)
  {
    hide Reachable;
    ReachableInv(cfg, t);
    InvParts(cfg, t);
    var i := if k == 0 then 1 else 0;
    assert !t.devs[i].ctl.cycles.marked;
    SomeoneUnmarked(cfg, t, i);
  }

  lemma {:induction false} AllMarkedNow(cfg: Config, s: State, k: nat)
    requires Marking(cfg, s, k, cfg.N())
    ensures s.shared.readyCount == cfg.N()
  {
    hide Reachable;
    ReachableInv(cfg, s);
    InvParts(cfg, s);
    LastOne.AllMarked(cfg, s);
  }

  lemma {:induction false} AllAuthorised(cfg: Config, s: State, k: nat)
    requires Reachable(cfg, s) && |s.devs| == cfg.N() && s.queue == []
    requires forall i :: 0 <= i < cfg.N() ==> AuthoritySent(s.devs[i].ctl.pc)
    ensures s.dst.authorised == Blocks(cfg.N())
  {
    ReachableInv(cfg, s);
    forall d: nat | d < cfg.N() ensures d in s.dst.authorised { assert TransitOk(d, s.devs[d].ctl, s.queue, s.dst); }
  }

  /** From the written device on: the others are marked, the machine is suspended, all leave, and all is
      delivered. */
  lemma {:induction false} FinishStale(cfg: Config, s: State, k: nat) returns (t: State)
    requires Marking(cfg, s, k, 0) && k < cfg.N() && cfg.N() > 1 && |s.dst.stores| == cfg.N() && Quiet(s.devs[k])
    requires !s.dst.eof && !s.dst.progress.Resumed?
    ensures Reachable(cfg, t) && |t.devs| == |t.dst.stores| == cfg.N() && !t.dst.eof && !t.dst.progress.Resumed?
    ensures t.dst.authorised == Blocks(cfg.N())
    ensures t.devs[k].vol.guest == s.devs[k].vol.guest && ViewOf(t, k) == ViewOf(s, k) && t.queue == []
  {
    hide Reachable, KeepsView, Leaves, Spares, ViewOf, Quiet;
    var j := if k == 0 then 1 else 0;
    var s1 := MarkFrom(cfg, s, k, 0);
    AllMarkedNow(cfg, s1, k);
    var s2 := DriveToSuspension(cfg, s1, j, k);
    LeavesSpares(cfg, s1, s2, j, k);
    OthersKept(cfg, s1, s2, j);
    SparesTransitive(cfg, s, s1, s2, k);
    SparedControl(cfg, s1, s2, k);
    var s3 := LeavesOnFlag(cfg, s2, k);
    OthersKept(cfg, s2, s3, k);
    var s4 := DriveAllOut(cfg, s3, k, 0);
    ReachableSizes(cfg, s4);
    LeftAlone(cfg, s, s2, s3, s4, k);
    t := DeliverAll(cfg, s4, k);
    AllAuthorised(cfg, t, k);
  }

  lemma {:induction false} SparedControl(cfg: Config, s: State, t: State, k: nat)
    requires Spares(cfg, s, t, k) && k < |s.devs|
    ensures |s.devs| == |t.devs| && t.devs[k].ctl == s.devs[k].ctl
  {
  }

  lemma {:induction false} LeftAlone(cfg: Config, s: State, s2: State, s3: State, s4: State, k: nat)
    requires Spares(cfg, s, s2, k) && Leaves(cfg, s2, s3, k) && KeepsView(s2, s3, k) && Spares(cfg, s3, s4, k)
    requires k < |s.devs| && Quiet(s.devs[k])
    ensures s4.dst == s.dst && s4.devs[k].vol.guest == s.devs[k].vol.guest && ViewOf(s4, k) == ViewOf(s, k)
  {
    hide Quiet, ViewOf;
  }

  /** With more than one device, the gap can be hit for every device that has a block: all authorities
      arrive, and the destination serves a block that is not what the guest sees at the pause. */
  lemma {:induction false} HandoverCanBeStale(cfg: Config, k: nat) returns (s: State)
    requires cfg.N() > 1 && k < cfg.N() && cfg.devices[k].blocks > 0
    ensures Reachable(cfg, s) && |s.devs| == |s.dst.stores| == cfg.N() && !s.dst.eof && !s.dst.progress.Resumed?
    ensures s.dst.authorised == Blocks(cfg.N())
    ensures |s.devs[k].vol.guest| > 0 && 0 in s.dst.stores[k] && s.dst.stores[k][0] != s.devs[k].vol.guest[0]
  {
    hide Reachable, Drivable, Quiet;
    var s1 := ReachGap(cfg, k);
    var s2 := WriteInGap(cfg, s1, k);
    s := FinishStale(cfg, s2, k);
  }

  /** And from every first state the gap need not be hit: a handover in which all last drains follow the
      suspension, and the guest is paused with the content that it had at the beginning. */
  lemma {:induction false} HandoverCanBeClean(cfg: Config, s: State) returns (t: State)
    requires Init(cfg, s) && cfg.N() > 0
    ensures Reachable(cfg, t) && |t.devs| == |t.dst.stores| == cfg.N() && !t.dst.eof && !t.dst.progress.Resumed?
    ensures t.dst.authorised == Blocks(cfg.N()) && AllDrainedSuspended(t) && Carries(cfg, s, t)
    ensures forall i :: 0 <= i < cfg.N() ==> AuthoritySent(t.devs[i].ctl.pc)
  {
    hide Init, Reachable, KeepsView, Leaves, Spares, ViewOf, Carries, DrainedSince;
    var none := cfg.N();
    StartMarking(cfg, s);
    var s1 := MarkFrom(cfg, s, none, 0);
    AllMarkedNow(cfg, s1, none);
    var s2 := DriveToSuspension(cfg, s1, 0, none);
    LeavesSpares(cfg, s1, s2, 0, none);
    OthersKept(cfg, s1, s2, 0);
    SparesTransitive(cfg, s, s1, s2, none);
    AtTheFlag(s2);
    var s3 := DriveAllOut(cfg, s2, none, 0);
    SparesTransitive(cfg, s, s2, s3, none);
    SparesDst(cfg, s, s3, none);
    StartOf(cfg, s);
    ReachableSizes(cfg, s3);
    t := DeliverAll(cfg, s3, 0);
    AllAuthorised(cfg, t, 0);
    CarriesOn(cfg, s, s3, t);
    OutAndDrained(t);
  }

  lemma {:induction false} StartMarking(cfg: Config, s: State)
    requires Init(cfg, s)
    ensures Marking(cfg, s, cfg.N(), 0)
  {
    O.InitReachable(cfg, s);
    hide Reachable;
  }

  lemma {:induction false} AtTheFlag(s: State)
    requires forall i :: 0 <= i < |s.devs| ==> s.devs[i].ctl.pc.Test? || s.devs[i].ctl.pc.CallSuspend?
    ensures AllDrainedSince(s)
  {
  }

  lemma {:induction false} OutAndDrained(s: State)
    requires AllDrainedSince(s) && forall i :: 0 <= i < |s.devs| ==> AuthoritySent(s.devs[i].ctl.pc)
    ensures AllDrainedSuspended(s)
  {
  }

  lemma {:induction false} CarriesOn(cfg: Config, s: State, t: State, u: State)
    requires Carries(cfg, s, t) && u.devs == t.devs
    ensures Carries(cfg, s, u)
  {
  }

  lemma {:induction false} SparesDst(cfg: Config, s: State, t: State, k: nat)
    requires Spares(cfg, s, t, k)
    ensures t.dst == s.dst && Carries(cfg, s, t)
  {
  }

  /* --------------------------------------------------- a device without a way to it */

  /** A first state in which the guest sees in device `k` what has not reached the storage. */
  lemma {:induction false} UnsyncedStart(cfg: Config, k: nat) returns (s: State)
    requires k < cfg.N() && Unreached(cfg, k) && cfg.devices[k].blocks > 0
    ensures Init(cfg, s)
    ensures |s.devs[k].vol.guest| == |s.devs[k].vol.src| == cfg.devices[k].blocks
    ensures s.devs[k].vol.guest[0] != s.devs[k].vol.src[0]
  {
    var blocks := cfg.devices[k].blocks;
    var z := Zeroed(cfg);
    var v := z.devs[k].vol.(guest := z.devs[k].vol.guest[0 := z.devs[k].vol.src[0] + 1], unsynced := Blocks(blocks));
    s := z.(devs := z.devs[k := Dev(START, v)]);
    assert InitVolume(blocks, cfg.Direct(k), v);
    hide InitVolume, Reachable;
  }

  /** However clean its drains are, a device that its snapshot does not reach can arrive as it never was
      to the guest since the beginning. */
  lemma {:induction false} UnreachedCanBeStale(cfg: Config, k: nat) returns (t: State)
    requires k < cfg.N() && Unreached(cfg, k) && cfg.devices[k].blocks > 0
    ensures Reachable(cfg, t) && |t.devs| == |t.dst.stores| == cfg.N() && !t.dst.eof && !t.dst.progress.Resumed?
    ensures t.dst.authorised == Blocks(cfg.N()) && AllDrainedSuspended(t)
    ensures t.dst.stores[k] != GuestContent(t.devs[k].vol)
  {
    var s := UnsyncedStart(cfg, k);
    StartSized(cfg, s);
    t := HandoverCanBeClean(cfg, s);
    assert cfg.mapPrivate && (if cfg.devices[k].kind.VmState? then cfg.stateOutput != "" else cfg.devices[k].kind.Memory? && cfg.memoryOutput != "");
    hide Init, Next, Content, GuestContent, Unreached;
    var states: seq<State>, actions: seq<Action> :| IsRun(cfg, states, actions) && states[|actions|] == t;
    assert k in t.dst.authorised;
    UnreachedArrivesOld(cfg, states, actions, k, |actions|);
    ContentIsInjective(t.devs[k].vol.src, t.devs[k].vol.guest);
    assert GuestContent(t.devs[k].vol) == Content(t.devs[k].vol.guest) by { ContentOfGuest(t.devs[k].vol); }
  }

  lemma {:induction false} StartSized(cfg: Config, s: State)
    requires Init(cfg, s)
    ensures |s.devs| == cfg.N()
  {
  }

  lemma {:induction false} ContentOfGuest(v: Volume)
    ensures GuestContent(v) == Content(v.guest)
  {
  }

  /** In a peer, a device whose last drain follows the suspension arrives as the guest saw it, always, if
      and only if it has no block, or is a disk, or is stored in place: its mapping is not private, or the
      snapshot's file of its kind has no output path. */
  lemma {:induction false} ArrivesExactly(cfg: Config, d: nat)
    requires cfg.mode.Peer? && d < cfg.N()
    ensures AlwaysArrives(cfg, d) <==> cfg.devices[d].blocks == 0 || match cfg.devices[d].kind
              case Disk => true
              case VmState => !cfg.mapPrivate || cfg.stateOutput == ""
              case Memory => !cfg.mapPrivate || cfg.memoryOutput == ""
  {
    hide Reachable, GuestContent;
    if cfg.Reaches(cfg.devices[d].kind) || cfg.devices[d].blocks == 0 {
      forall s: State | Reachable(cfg, s) && IsHandedOver(s, d) ensures Arrived(s, d) {
        ReachableSizes(cfg, s);
        ReachableInv(cfg, s);
        if cfg.devices[d].blocks == 0 { EmptyIsFresh(cfg, s, d); } else { HandoverContent(cfg, s, d); }
      }
    } else {
      var t := UnreachedCanBeStale(cfg, d);
      assert IsHandedOver(t, d) && !Arrived(t, d);
    }
  }

  ghost predicate IsHandedOver(s: State, d: nat) {
    d in s.dst.authorised && !s.dst.progress.Resumed? && d < |s.devs| && s.devs[d].ctl.drainedSuspended
  }

  ghost predicate Arrived(s: State, d: nat) {
    d < |s.dst.stores| && d < |s.devs| && s.dst.stores[d] == GuestContent(s.devs[d].vol)
  }

  ghost predicate AlwaysArrives(cfg: Config, d: nat) {
    forall s: State :: Reachable(cfg, s) && IsHandedOver(s, d) ==> Arrived(s, d)
  }

  /** A mounter's users go on writing after the handover. */
  lemma {:induction false} MounterCanBeStale(cfg: Config, k: nat) returns (t: State)
    requires cfg.mode.Mounter? && k < cfg.N() && cfg.devices[k].blocks > 0
    ensures Reachable(cfg, t) && |t.devs| == |t.dst.stores| == cfg.N() && !t.dst.progress.Resumed?
    ensures t.dst.authorised == Blocks(cfg.N()) && t.dst.stores[k] != GuestContent(t.devs[k].vol)
  {
    hide Reachable, Carries, GuestContent;
    var z := Zeroed(cfg);
    var s := HandoverCanBeClean(cfg, z);
    ReachableSizes(cfg, s);
    var data := if 0 in s.dst.stores[k] then s.dst.stores[k][0] + 1 else 0;
    StillWritable(cfg, s, k);
    WriteEnabled(cfg, s, k, data);
    t := RunOp(cfg, s, k, GuestWrite(0, data));
    GuestWrites(cfg, s, k, data);
    NotContent(t.dst.stores[k], t.devs[k].vol);
    hide CanRun, DevAfter;
  }

  lemma {:induction false} StillWritable(cfg: Config, s: State, k: nat)
    requires Reachable(cfg, s) && cfg.mode.Mounter? && k < cfg.N() && |s.devs| == cfg.N() && AuthoritySent(s.devs[k].ctl.pc)
    ensures s.shared.running && !s.devs[k].ctl.locked
  {
    NothingPauses(cfg, s);
    ReachableInv(cfg, s);
    hide Reachable, StorageOk, ConnectionOk, SimulationOk, LayeringOk, DrainsOk;
    assert ControlOk(cfg, s.shared, k, s.devs[k].ctl);
  }

  /** A mounter has no machine to pause. */
  predicate Unpaused(sh: Shared) { sh.running && (sh.suspension.InProgress? ==> sh.suspension.stage.RaiseFlag?) }

  lemma {:induction false} UnpausedOp(cfg: Config, sh: Shared, d: nat, c: Control, op: Op)
    requires cfg.mode.Mounter? && d < cfg.N() && Unpaused(sh)
    ensures Unpaused(SharedAfter(cfg, sh, d, c, op))
  {
    hide MarksNow;
  }

  lemma {:induction false} UnpausedRun(cfg: Config, states: seq<State>, actions: seq<Action>, i: nat)
    requires IsRun(cfg, states, actions) && i <= |actions| && cfg.mode.Mounter?
    ensures Unpaused(states[i].shared)
  {
    if i == 0 {
      StartOf(cfg, states[0]);
    } else {
      UnpausedRun(cfg, states, actions, i - 1);
      UnpausedStep(cfg, states[i - 1], actions[i - 1], states[i]);
    }
    hide Init, Next, Unpaused;
  }

  lemma {:induction false} UnpausedStep(cfg: Config, s: State, a: Action, t: State)
    requires Next(cfg, s, a, t) && cfg.mode.Mounter? && Unpaused(s.shared)
    ensures Unpaused(t.shared)
  {
    if a.OnDevice? { UnpausedOp(cfg, s.shared, a.d, s.devs[a.d].ctl, a.op); }
    hide SharedAfter, Unpaused;
  }

  lemma {:induction false} NothingPauses(cfg: Config, s: State)
    requires Reachable(cfg, s) && cfg.mode.Mounter?
    ensures s.shared.running
  {
    var states: seq<State>, actions: seq<Action> :| IsRun(cfg, states, actions) && states[|actions|] == s;
    UnpausedRun(cfg, states, actions, |actions|);
    hide Init, Next;
  }

  lemma {:induction false} NotContent(store: map<nat, Data>, v: Volume)
    requires |v.guest| > 0 && (0 in store ==> store[0] != v.guest[0])
    ensures store != GuestContent(v)
  {
    assert 0 in GuestContent(v) && GuestContent(v)[0] == v.guest[0];
  }

  /* --------------------------------------------------------------- one device */

  /** With one device, which raises the flag itself, a drain and the look at the flag see the same. */
  ghost predicate SeesSame(s: State) {
    |s.devs| == 1 ==> (PastEmptyDrain(s.devs[0].ctl.pc) ==> s.devs[0].ctl.drainedSuspended == s.shared.IsSuspended())
  }

  lemma {:induction false} StaysSuspended(cfg: Config, sh: Shared, d: nat, c: Control, op: Op)
    requires d < cfg.N() && !op.SuspendStep?
    ensures SharedAfter(cfg, sh, d, c, op).IsSuspended() == sh.IsSuspended()
  {
    hide MarksNow;
  }

  lemma {:induction false} SeesSameOp(cfg: Config, sh: Shared, c: Control, dirty: nat, op: Op)
    requires cfg.N() == 1 && ControlReady(sh, 0, c, op)
    requires sh.suspension.InProgress? ==> c.pc.CallSuspend?
    requires PastEmptyDrain(c.pc) ==> c.drainedSuspended == sh.IsSuspended()
    ensures var after, u := ControlAfter(cfg, sh, 0, c, dirty, op), SharedAfter(cfg, sh, 0, c, op);
      PastEmptyDrain(after.pc) ==> after.drainedSuspended == u.IsSuspended()
  {
    hide CountCycle, SharedAfter, MustMsync;
    if !op.SuspendStep? { StaysSuspended(cfg, sh, 0, c, op); }
  }

  lemma {:induction false} SeesSameStep(cfg: Config, s: State, a: Action, t: State)
    requires BarrierOk(cfg, s) && Next(cfg, s, a, t) && SeesSame(s)
    ensures SeesSame(t)
  {
    if a.OnDevice? && cfg.N() == 1 {
      SeesSameOp(cfg, s.shared, s.devs[0].ctl, |s.devs[0].vol.dirty|, a.op);
      assert t.devs[0] == DevAfter(cfg, s, 0, a.op, 0);
    }
    hide ControlAfter, SharedAfter, ControlReady, VolumeAfter, Flushed, PastEmptyDrain;
  }

  lemma {:induction false} SeesSameRun(cfg: Config, states: seq<State>, actions: seq<Action>, i: nat)
    requires IsRun(cfg, states, actions) && i <= |actions|
    ensures SeesSame(states[i])
  {
    hide Inv, BarrierOk, Step, Enabled, SeesSame;
    if i == 0 {
      StartSeesSame(cfg, states[0]);
    } else {
      SeesSameRun(cfg, states, actions, i - 1);
      RunInv(cfg, states, actions, i - 1);
      InvParts(cfg, states[i - 1]);
      SeesSameStep(cfg, states[i - 1], actions[i - 1], states[i]);
    }
  }

  lemma {:induction false} StartSeesSame(cfg: Config, s: State)
    requires Init(cfg, s)
    ensures SeesSame(s)
  {
  }

  lemma {:induction false} AloneIsFresh(cfg: Config, s: State)
    requires Reachable(cfg, s) && cfg.mode.Peer? && cfg.N() == 1 && cfg.Reaches(cfg.devices[0].kind)
    requires s.dst.authorised == Blocks(1) && !s.dst.progress.Resumed?
    ensures |s.devs| == |s.dst.stores| == 1 && s.dst.stores[0] == GuestContent(s.devs[0].vol)
  {
    hide GuestContent, Step, Enabled, Init;
    var states: seq<State>, actions: seq<Action> :| IsRun(cfg, states, actions) && states[|actions|] == s;
    SeesSameRun(cfg, states, actions, |actions|);
    ReachableInv(cfg, s);
    assert 0 in s.dst.authorised;
    LeftByAuthority(cfg, s);
    HandoverContent(cfg, s, 0);
  }

  lemma {:induction false} LeftByAuthority(cfg: Config, s: State)
    requires Inv(cfg, s) && cfg.N() == 1 && 0 in s.dst.authorised
    ensures |s.devs| == 1 && PastEmptyDrain(s.devs[0].ctl.pc) && s.shared.IsSuspended()
  {
    assert TransitOk(0, s.devs[0].ctl, s.queue, s.dst);
    assert ControlOk(cfg, s.shared, 0, s.devs[0].ctl);
  }

  lemma {:induction false} EmptyIsFresh(cfg: Config, s: State, d: nat)
    requires Reachable(cfg, s) && d < cfg.N() && cfg.devices[d].blocks == 0
    requires d in s.dst.authorised && !s.dst.progress.Resumed?
    ensures |s.devs| == |s.dst.stores| == cfg.N() && s.dst.stores[d] == GuestContent(s.devs[d].vol)
  {
    ReachableInv(cfg, s);
    ReachableSizes(cfg, s);
    ViewIsStore(cfg, s, d);
    assert s.dst.stores[d].Keys == {};
  }

  /** Whenever all authorities have arrived, the destination holds what the guest saw at the pause. */
  ghost predicate AlwaysFresh(cfg: Config) {
    forall s: State :: Reachable(cfg, s) && s.dst.authorised == Blocks(cfg.N()) && !s.dst.progress.Resumed? ==> IsFresh(s)
  }

  ghost predicate IsFresh(s: State) {
    |s.dst.stores| == |s.devs| && forall d :: 0 <= d < |s.devs| ==> s.dst.stores[d] == GuestContent(s.devs[d].vol)
  }

  /** A migration always hands over what the guest saw if and only if no device has a block, or it is a
      peer's of one device, which its snapshot reaches. */
  lemma {:induction false} FreshExactly(cfg: Config)
    ensures AlwaysFresh(cfg) <==>
              || (forall d :: 0 <= d < cfg.N() ==> cfg.devices[d].blocks == 0)
              || (cfg.mode.Peer? && cfg.N() == 1 && match cfg.devices[0].kind
                    case Disk => true
                    case VmState => !cfg.mapPrivate || cfg.stateOutput == ""
                    case Memory => !cfg.mapPrivate || cfg.memoryOutput == "")
  {
    hide Reachable, GuestContent;
    if (forall d :: 0 <= d < cfg.N() ==> cfg.devices[d].blocks == 0) || (cfg.mode.Peer? && cfg.N() == 1 && cfg.Reaches(cfg.devices[0].kind)) {
      forall s: State | Reachable(cfg, s) && s.dst.authorised == Blocks(cfg.N()) && !s.dst.progress.Resumed? ensures IsFresh(s) {
        ReachableSizes(cfg, s);
        if cfg.mode.Peer? && cfg.N() == 1 && cfg.Reaches(cfg.devices[0].kind) {
          AloneIsFresh(cfg, s);
        } else {
          forall d: nat | d < cfg.N() ensures s.dst.stores[d] == GuestContent(s.devs[d].vol) { EmptyIsFresh(cfg, s, d); }
        }
      }
    } else {
      var k: nat :| k < cfg.N() && cfg.devices[k].blocks > 0;
      var s := SomeStale(cfg, k);
      assert !IsFresh(s);
      assert !AlwaysFresh(cfg);
    }
  }

  lemma {:induction false} SomeStale(cfg: Config, k: nat) returns (s: State)
    requires k < cfg.N() && cfg.devices[k].blocks > 0
    requires !(cfg.mode.Peer? && cfg.N() == 1 && cfg.Reaches(cfg.devices[0].kind))
    ensures Reachable(cfg, s) && s.dst.authorised == Blocks(cfg.N()) && !s.dst.progress.Resumed?
    ensures |s.devs| == |s.dst.stores| == cfg.N() && s.dst.stores[k] != GuestContent(s.devs[k].vol)
  {
    hide Reachable, GuestContent;
    if cfg.N() > 1 {
      s := HandoverCanBeStale(cfg, k);
      NotContent(s.dst.stores[k], s.devs[k].vol);
    } else if cfg.mode.Peer? {
      s := UnreachedCanBeStale(cfg, k);
    } else {
      s := MounterCanBeStale(cfg, k);
    }
  }
}
