/** The whole run: once every device has taken its bounded number of steps all are marked, from then on
    a bounded number of steps leads to the suspension, and from there a bounded number to the end. */
module WholeRun {
  import opened Cycles
  import opened Migration
  import opened Barrier
  import opened Storage
  import opened Layering
  import opened Invariants
  import opened Handover
  import opened Termination
  import opened Progress
  import Ownership

  /** The steps of its own loop that a marked device has ahead of it until it calls for the suspension,
      with at most `blocks` blocks in its next batch. */
  function ToSuspend(pc: Pc, blocks: nat): nat {
    match pc
    case Test => 1
    case Count => 2
    case Throttle => 3
    case Announce => 4
    case CheckFlag => 4
    case Unlock => 5
    case Drain => 6 + 3 * blocks
    case AwaitBatch => 7 + 3 * blocks
    case Msync => 8 + 3 * blocks
    case LoopTop => 9 + 3 * blocks
    case _ => 0
  }

  function StagesLeft(x: Suspension): nat {
    match x
    case Idle => 7
    case InProgress(_, CloseAgent) => 6
    case InProgress(_, Pause) => 5
    case InProgress(_, FlushState) => 4
    case InProgress(_, FlushMemory) => 3
    case InProgress(_, FinalMsync) => 2
    case InProgress(_, RaiseFlag) => 1
    case _ => 0
  }

  function MarkedWork(dv: Dev): nat {
    ToSuspend(dv.ctl.pc, |dv.vol.src|) + BatchWork(dv.vol)
    + (if dv.ctl.announcement.Due? then 1 else 0) + (if dv.ctl.failed then 0 else 1)
  }

  /** An upper bound on the own steps of all devices from here until the flag is up. */
  function MarkedMeasure(s: State): nat { SumBy(MarkedWork, s.devs) + StagesLeft(s.shared.suspension) }

  predicate IsOwnOp(op: Op) { !op.GuestWrite? && !op.Writeback? }

  lemma {:induction false} ToSuspendAfter(cfg: Config, sh: Shared, d: nat, c: Control, dirty: nat, blocks: nat, op: Op)
    requires d < cfg.N() && ControlReady(sh, d, c, op) && Where(op).Some? && dirty <= blocks
    requires InLoopOrLater(c.pc) && !LeftLoop(c.pc) && !c.pc.CallSuspend?
    requires sh.readyCount == cfg.N() && !sh.IsSuspended()
    ensures var after := ControlAfter(cfg, sh, d, c, dirty, op);
      && ToSuspend(after.pc, blocks) + (if op.GetLatestDirty? then 3 * dirty else 0) < ToSuspend(c.pc, blocks)
      && after.announcement == c.announcement && after.failed == c.failed
      && SharedAfter(cfg, sh, d, c, op).suspension == sh.suspension
  {
    hide CountCycle;
  }

  /** The other operations of the device and its migrator. */
  lemma {:induction false} AsyncAfter(cfg: Config, sh: Shared, d: nat, c: Control, dirty: nat, op: Op)
    requires d < cfg.N() && ControlReady(sh, d, c, op) && Where(op).None? && IsOwnOp(op)
    ensures var after, u := ControlAfter(cfg, sh, d, c, dirty, op), SharedAfter(cfg, sh, d, c, op).suspension;
      && after.pc == c.pc && StagesLeft(u) <= StagesLeft(sh.suspension)
      && (op.AnnounceAllSent? ==> c.announcement.Due? && after.announcement.Announced?)
      && (!op.AnnounceAllSent? ==> after.announcement == c.announcement)
      && (op.Fail? ==> !c.failed && after.failed)
      && (!op.Fail? ==> after.failed == c.failed)
  {
  }

  lemma {:induction false} CallAfter(cfg: Config, sh: Shared, d: nat, c: Control, dirty: nat, op: Op)
    requires d < cfg.N() && ControlReady(sh, d, c, op) && Where(op).Some? && c.pc.CallSuspend? && !sh.IsSuspended()
    ensures ControlAfter(cfg, sh, d, c, dirty, op) == c && !op.GetLatestDirty?
    ensures StagesLeft(SharedAfter(cfg, sh, d, c, op).suspension) < StagesLeft(sh.suspension)
  {
  }

  lemma {:induction false} OwnOpWork(cfg: Config, sh: Shared, d: nat, dv: Dev, op: Op)
    requires d < cfg.N() && ControlReady(sh, d, dv.ctl, op) && VolumeReady(cfg, d, dv, op) && IsOwnOp(op)
    requires VolumeOk(cfg, d, dv.ctl.pc, dv.vol) && InLoopOrLater(dv.ctl.pc) && !LeftLoop(dv.ctl.pc)
    requires sh.readyCount == cfg.N() && !sh.IsSuspended()
    ensures MarkedWork(Dev(ControlAfter(cfg, sh, d, dv.ctl, |dv.vol.dirty|, op), VolumeAfter(cfg, d, dv, op)))
              + StagesLeft(SharedAfter(cfg, sh, d, dv.ctl, op).suspension)
            < MarkedWork(dv) + StagesLeft(sh.suspension)
  {
    BatchWorkAfter(cfg, d, dv, op);
    FullSet(dv.vol.dirty, |dv.vol.src|);
    if Where(op).None? {
      AsyncAfter(cfg, sh, d, dv.ctl, |dv.vol.dirty|, op);
    } else if dv.ctl.pc.CallSuspend? {
      CallAfter(cfg, sh, d, dv.ctl, |dv.vol.dirty|, op);
    } else {
      ToSuspendAfter(cfg, sh, d, dv.ctl, |dv.vol.dirty|, |dv.vol.src|, op);
    }
    hide ControlAfter, ControlReady, VolumeAfter, VolumeReady, VolumeOk, SharedAfter, ToSuspend, StagesLeft, BatchWork, InLoopOrLater, LeftLoop;
  }

  lemma {:induction false} WorkIgnoresOthers(cfg: Config, s: State, d: nat, op: Op, i: nat)
    requires Sized(cfg, s) && d < cfg.N() && i < cfg.N() && CanRun(cfg, s, d, op)
    requires i != d || !IsOwnOp(op)
    ensures MarkedWork(DevAfter(cfg, s, d, op, i)) == MarkedWork(s.devs[i])
  {
    hide ToSuspend;
    PotentialIgnoresWrites(cfg, s, d, op, i);
  }

  lemma {:induction false} WorkIgnoresFlush(cfg: Config, d: nat, c: Control, v: Volume, e: Effect)
    requires d < cfg.N() && |v.guest| == |v.src|
    ensures MarkedWork(Dev(c, Flushed(cfg, d, v, e))) == MarkedWork(Dev(c, v))
  {
    hide ToSuspend;
  }

  ghost predicate AllMarked(s: State) { forall d :: 0 <= d < |s.devs| ==> s.devs[d].ctl.cycles.marked }

  lemma {:induction false} MarkedInLoop(cfg: Config, s: State, d: nat)
    requires BarrierOk(cfg, s) && AllMarked(s) && !s.shared.IsSuspended() && d < cfg.N()
    ensures s.shared.readyCount == cfg.N() && InLoopOrLater(s.devs[d].ctl.pc) && !LeftLoop(s.devs[d].ctl.pc)
  {
    assert ControlOk(cfg, s.shared, d, s.devs[d].ctl);
    assert MarkedSet(s.devs) == Blocks(cfg.N());
  }

  lemma {:induction false} MarkedOp(cfg: Config, s: State, d: nat, op: Op)
    requires BarrierOk(cfg, s) && StorageOk(cfg, s) && AllMarked(s) && !s.shared.IsSuspended()
    requires d < cfg.N() && CanRun(cfg, s, d, op)
    ensures MarkedMeasure(RunOp(cfg, s, d, op)) + (if IsOwnOp(op) then 1 else 0) <= MarkedMeasure(s)
  {
    hide MarkedWork, ControlOk, VolumeOk, StagesLeft, SumBy, CanFlush, BarrierOk;
    var t, dv, e := RunOp(cfg, s, d, op), s.devs[d], EffectOf(s.shared, op);
    forall i: nat | i < cfg.N() && i != d ensures MarkedWork(t.devs[i]) == MarkedWork(s.devs[i]) {
      assert t.devs[i] == DevAfter(cfg, s, d, op, i);
      WorkIgnoresOthers(cfg, s, d, op, i);
    }
    SumAfter(MarkedWork, s.devs, t.devs, d);
    assert t.devs[d] == DevAfter(cfg, s, d, op, d);
    if IsOwnOp(op) {
      assert VolumeOk(cfg, d, dv.ctl.pc, dv.vol);
      MarkedInLoop(cfg, s, d);
      OwnOpWork(cfg, s.shared, d, dv, op);
      WorkIgnoresFlush(cfg, d, ControlAfter(cfg, s.shared, d, dv.ctl, |dv.vol.dirty|, op), VolumeAfter(cfg, d, dv, op), e);
    } else {
      WorkIgnoresOthers(cfg, s, d, op, d);
      WritesLeaveSuspension(cfg, s.shared, d, dv.ctl, op);
    }
  }

  lemma {:induction false} WritesLeaveSuspension(cfg: Config, sh: Shared, d: nat, c: Control, op: Op)
    requires d < cfg.N() && !IsOwnOp(op)
    ensures SharedAfter(cfg, sh, d, c, op).suspension == sh.suspension
  {
  }

  /** Once set, the flag stays; a marked device stays marked. */
  lemma {:induction false} FlagAndMarksStay(cfg: Config, s: State, a: Action, t: State)
    requires Sized(cfg, s) && Next(cfg, s, a, t)
    ensures s.shared.IsSuspended() ==> t.shared.IsSuspended()
    ensures AllMarked(s) ==> AllMarked(t)
  {
    if a.OnDevice? {
      forall i | 0 <= i < cfg.N() ensures s.devs[i].ctl.cycles.marked ==> t.devs[i].ctl.cycles.marked {
        assert t.devs[i] == DevAfter(cfg, s, a.d, a.op, i);
        if i == a.d { MarkedStays(cfg, s.shared, i, s.devs[i].ctl, |s.devs[i].vol.dirty|, a.op); }
      }
      hide DevAfter, ControlAfter, Flushed, VolumeAfter, CanRun;
    }
  }

  function AllOwnSteps(actions: seq<Action>): nat {
    if actions == [] then 0
    else
      var a := actions[|actions| - 1];
      AllOwnSteps(actions[..|actions| - 1]) + (if a.OnDevice? && IsOwnOp(a.op) then 1 else 0)
  }

  lemma {:induction false} MarkedStep(cfg: Config, s: State, a: Action, t: State)
    requires Inv(cfg, s) && Next(cfg, s, a, t) && AllMarked(s) && !s.shared.IsSuspended()
    ensures MarkedMeasure(t) + (if a.OnDevice? && IsOwnOp(a.op) then 1 else 0) <= MarkedMeasure(s)
  {
    hide Inv, BarrierOk, StorageOk, CanRun, CanHappen, MarkedMeasure, RunOp, AllMarked;
    InvParts(cfg, s);
    if a.OnDevice? {
      MarkedOp(cfg, s, a.d, a.op);
    } else {
      EventsLeaveSource(s, t);
    }
  }

  lemma {:induction false} EventsLeaveSource(s: State, t: State)
    requires t.devs == s.devs && t.shared == s.shared
    ensures MarkedMeasure(t) == MarkedMeasure(s)
  {
  }

  /** From the moment all are marked until the flag is up, the own steps of all devices together use up
      the measure, whatever the guest, the kernel and the destination do. */
  lemma {:induction false} MarkedRunIsBounded(cfg: Config, states: seq<State>, actions: seq<Action>, i: nat, j: nat)
    requires IsRun(cfg, states, actions) && i <= j <= |actions| && AllMarked(states[i]) && !states[j].shared.IsSuspended()
    ensures AllMarked(states[j])
    ensures AllOwnSteps(actions[i..j]) + MarkedMeasure(states[j]) <= MarkedMeasure(states[i])
    decreases j
  {
    hide Inv, Step, Enabled, Init, MarkedMeasure, AllMarked, IsOwnOp;
    if i < j {
      var s, a, t := states[j - 1], actions[j - 1], states[j];
      FlagAndMarksStay(cfg, s, a, t);
      MarkedRunIsBounded(cfg, states, actions, i, j - 1);
      RunInv(cfg, states, actions, j - 1);
      MarkedStep(cfg, s, a, t);
      assert actions[i..j][..j - 1 - i] == actions[i..j - 1];
    }
  }

  /* ---------------------------------------------------------- explicit bounds */

  /** The own steps within which a device is marked. */
  function MarkBound(c: DeviceConfig): nat { Latest(c.limits) * (10 + 3 * c.blocks) + 14 + 6 * c.blocks }

  /** The own steps of all devices within which, when all are marked, the machine is suspended. */
  function SuspendBound(devices: seq<DeviceConfig>): nat {
    if devices == [] then 7 else SuspendBound(devices[..|devices| - 1]) + 11 + 6 * devices[|devices| - 1].blocks
  }

  lemma {:induction false} BatchBound(v: Volume)
    requires ReadingOk(v)
    ensures BatchWork(v) <= 3 * |v.src|
  {
    FullSet(v.pending + v.reading.Keys, |v.src|);
    assert |v.pending + v.reading.Keys| == |v.pending| + |v.reading.Keys|;
    assert |v.reading| == |v.reading.Keys|;
  }

  lemma {:induction false} WorkBound(dv: Dev)
    requires ReadingOk(dv.vol)
    ensures MarkedWork(dv) <= 11 + 6 * |dv.vol.src|
  {
    BatchBound(dv.vol);
    hide ReadingOk, BatchWork;
  }

  lemma {:induction false} SumBound(devices: seq<DeviceConfig>, devs: seq<Dev>)
    requires |devices| == |devs| && forall i :: 0 <= i < |devs| ==> ReadingOk(devs[i].vol) && |devs[i].vol.src| == devices[i].blocks
    ensures SumBy(MarkedWork, devs) + 7 <= SuspendBound(devices)
  {
    hide MarkedWork, ReadingOk;
    if devs != [] {
      SumBound(devices[..|devs| - 1], devs[..|devs| - 1]);
      WorkBound(devs[|devs| - 1]);
    }
  }

  lemma {:induction false} MarkedMeasureBound(cfg: Config, s: State)
    requires StorageOk(cfg, s)
    ensures MarkedMeasure(s) <= SuspendBound(cfg.devices)
  {
    AllReadingOk(cfg, s);
    hide StorageOk, ReadingOk, MarkedWork, SumBy, SuspendBound, BatchOk, SyncOk;
    SumBound(cfg.devices, s.devs);
  }

  lemma {:induction false} AllReadingOk(cfg: Config, s: State)
    requires StorageOk(cfg, s)
    ensures |s.devs| == cfg.N()
    ensures forall i :: 0 <= i < |s.devs| ==> ReadingOk(s.devs[i].vol) && |s.devs[i].vol.src| == cfg.devices[i].blocks
  {
    hide SyncOk, BatchOk, ReadingOk;
    forall i | 0 <= i < |s.devs| ensures ReadingOk(s.devs[i].vol) { assert VolumeOk(cfg, i, s.devs[i].ctl.pc, s.devs[i].vol); }
  }

  /** Device `d` is marked, or has taken more own steps than its bound. */
  predicate HadItsSteps(cfg: Config, s: State, taken: seq<Action>, d: nat)
    requires d < cfg.N()
  {
    (d < |s.devs| && s.devs[d].ctl.cycles.marked) || OwnSteps(taken, d) > MarkBound(cfg.devices[d])
  }

  /** In every run: when each device is marked or has taken more own steps than its bound, all are marked,
      and when all together have taken more than the second bound after that, the machine is suspended. */
  lemma {:induction false} RunSuspends(cfg: Config, states: seq<State>, actions: seq<Action>, i: nat, j: nat)
    requires IsRun(cfg, states, actions) && i <= j <= |actions|
    requires forall d :: 0 <= d < cfg.N() ==> HadItsSteps(cfg, states[i], actions[..i], d)
    ensures AllMarked(states[i])
    ensures AllOwnSteps(actions[i..j]) > SuspendBound(cfg.devices) ==> states[j].shared.IsSuspended()
  {
    hide Inv, Step, Enabled, Init, MarkedMeasure, OwnSteps, AllOwnSteps, SuspendBound, StorageOk;
    forall d: nat | d < cfg.N() ensures states[i].devs[d].ctl.cycles.marked {
      assert HadItsSteps(cfg, states[i], actions[..i], d);
      if !states[i].devs[d].ctl.cycles.marked { MarkedWithinBound(cfg, states, actions, d, i); }
    }
    assert AllMarked(states[i]);
    if !states[j].shared.IsSuspended() {
      MarkedRunIsBounded(cfg, states, actions, i, j);
      RunInv(cfg, states, actions, i);
      InvParts(cfg, states[i]);
      MarkedMeasureBound(cfg, states[i]);
    }
  }

  /* ------------------------------------------------------------------ the end */

  /** Neither an error nor an early close. */
  predicate Sound(a: Action) {
    match a
    case OnDevice(_, op) => !op.Fail?
    case AtDestination(e) => !e.Eof?
  }

  lemma {:induction false} SoundStep(cfg: Config, s: State, a: Action, t: State)
    requires Next(cfg, s, a, t) && |t.devs| == cfg.N() && Sound(a) && NoFailure(s)
    ensures NoFailure(t)
  {
    if a.OnDevice? {
      forall i | 0 <= i < cfg.N() ensures !t.devs[i].ctl.failed { assert t.devs[i] == DevAfter(cfg, s, a.d, a.op, i); }
    }
  }

  lemma {:induction false} SoundRun(cfg: Config, states: seq<State>, actions: seq<Action>, j: nat)
    requires IsRun(cfg, states, actions) && j <= |actions| && forall k :: 0 <= k < j ==> Sound(actions[k])
    ensures NoFailure(states[j])
  {
    hide Step, Enabled, Sound, NoFailure;
    if j == 0 {
      StartsSound(cfg, states[0]);
    } else {
      SoundRun(cfg, states, actions, j - 1);
      SoundStep(cfg, states[j - 1], actions[j - 1], states[j]);
    }
  }

  lemma {:induction false} StartsSound(cfg: Config, s: State)
    requires Init(cfg, s)
    ensures NoFailure(s)
  {
  }

  /** The whole of it, for every run without an error: when the devices are marked or have taken their
      bounded steps, and then all together theirs, the flag is up; what can still follow is bounded by the measure, and
      a run that then stops because nothing is left to do has finished on both sides. */
  lemma {:induction false} WholeRunEnds(cfg: Config, states: seq<State>, actions: seq<Action>, i: nat, j: nat)
    requires IsRun(cfg, states, actions) && i <= j <= |actions| && cfg.N() > 0
    requires forall k :: 0 <= k < |actions| ==> Sound(actions[k])
    requires forall d :: 0 <= d < cfg.N() ==> HadItsSteps(cfg, states[i], actions[..i], d)
    requires states[j].shared.IsSuspended() || AllOwnSteps(actions[i..j]) > SuspendBound(cfg.devices)
    requires forall k :: j <= k < |actions| ==> UndisturbedStep(cfg, actions[k]) && !IsDestinationWrite(actions[k])
    ensures states[j].shared.IsSuspended()
    ensures |actions| - j + Measure(states[|actions|]) <= Measure(states[j])
    ensures Finished(states[|actions|]) || exists a :: IsProgress(a) && Enabled(cfg, states[|actions|], a)
  {
    hide Init, Next, Inv, Measure, HadItsSteps, AllOwnSteps, SuspendBound, Finished, NoFailure, IsProgress, Enabled;
    var last := states[|actions|];
    RunSuspends(cfg, states, actions, i, j);
    SuspendedRunIsBounded(cfg, states, actions, j, |actions|);
    SoundRun(cfg, states, actions, |actions|);
    Ownership.RunReachable(cfg, states, actions, |actions|);
    if !Finished(last) {
      var a := NoDeadlock(cfg, last);
    }
  }

  /** The first state in which all are marked. */
  lemma {:induction false} FirstAllMarked(states: seq<State>, j: nat) returns (i: nat)
    requires j < |states| && AllMarked(states[j])
    ensures i <= j && AllMarked(states[i]) && (i > 0 ==> !AllMarked(states[i - 1]))
  {
    hide AllMarked;
    i := j;
    while i > 0 && AllMarked(states[i - 1])
      invariant i <= j && AllMarked(states[i])
    {
      i := i - 1;
    }
  }

  /** Without any hypothesis on the scheduling: as long as the flag is down, either some device is not
      marked and has taken no more own steps than its bound, or all have become marked at some moment and
      together taken no more than the second bound since. */
  lemma {:induction false} FlagDownIsAccounted(cfg: Config, states: seq<State>, actions: seq<Action>, j: nat) returns (i: nat)
    requires IsRun(cfg, states, actions) && j <= |actions| && !states[j].shared.IsSuspended()
    ensures i <= j
    ensures if AllMarked(states[j]) then
              AllMarked(states[i]) && (i > 0 ==> !AllMarked(states[i - 1]))
              && AllOwnSteps(actions[i..j]) <= SuspendBound(cfg.devices)
            else exists d ::
              0 <= d < cfg.N() && !states[j].devs[d].ctl.cycles.marked && OwnSteps(actions[..j], d) <= MarkBound(cfg.devices[d])
  {
    hide Inv, Step, Enabled, Init, MarkedMeasure, OwnSteps, AllOwnSteps, SuspendBound, StorageOk;
    i := j;
    if AllMarked(states[j]) {
      i := FirstAllMarked(states, j);
      MarkedRunIsBounded(cfg, states, actions, i, j);
      RunInv(cfg, states, actions, i);
      InvParts(cfg, states[i]);
      MarkedMeasureBound(cfg, states[i]);
    } else {
      var d: nat :| d < |states[j].devs| && !states[j].devs[d].ctl.cycles.marked;
      MarkedWithinBound(cfg, states, actions, d, j);
    }
  }
}
