/** Why the migration ends: bounds on the work of each device before it is ready, a measure that every
    step decreases after suspension, and the absence of deadlock. */
module Termination {
  import opened Cycles
  import opened Migration
  import opened Barrier
  import opened Storage
  import opened Invariants
  import opened Handover

  /* ------------------------------------------------ before a device is ready */

  predicate IsOwn(a: Action, d: nat) { a.OnDevice? && a.d == d && !a.op.GuestWrite? && !a.op.Writeback? }

  /** How far the device is from counting its next cycle, with at most `blocks` blocks to send. */
  function Distance(pc: Pc, blocks: nat): nat {
    match pc
    case Count => 1
    case Throttle => 2
    case Announce => 3
    case CheckFlag => 3
    case Unlock => 4
    case Drain => 5 + 3 * blocks
    case AwaitBatch => 6 + 3 * blocks
    case Msync => 7 + 3 * blocks
    case LoopTop => 8 + 3 * blocks
    case Test => 9 + 3 * blocks
    case Initial => 9 + 3 * blocks
    case LoadSent => 11 + 3 * blocks
    case AddSent => 12 + 3 * blocks
    case SendInfo => 13 + 3 * blocks
    case _ => 0
  }

  function CyclesLeft(l: Limits, c: Counters): nat { if c.total < Latest(l) then Latest(l) - c.total else 0 }

  function BatchWork(v: Volume): nat { 3 * |v.pending| + 2 * |v.reading| }

  function Product(a: nat, b: nat): nat { a * b }

  /** An upper bound on the steps of its own that a device takes before it is marked. */
  function Potential(c: DeviceConfig, dv: Dev): nat {
    Product(CyclesLeft(c.limits, dv.ctl.cycles), 10 + 3 * c.blocks) + Distance(dv.ctl.pc, c.blocks) + BatchWork(dv.vol)
    + (if dv.ctl.announcement.Due? then 1 else 0) + (if dv.ctl.failed then 0 else 1)
  }

  lemma {:induction false} BatchWorkAfter(cfg: Config, d: nat, dv: Dev, op: Op)
    requires d < cfg.N() && VolumeReady(cfg, d, dv, op) && ReadingOk(dv.vol) && |dv.vol.guest| == |dv.vol.src|
    requires op.GetLatestDirty? ==> BatchSent(dv.vol)
    ensures var v, after := dv.vol, VolumeAfter(cfg, d, dv, op);
      match op
      case ReadBlock(_) => BatchWork(after) == BatchWork(v) - 1
      case SendBlock(_) => BatchWork(after) == BatchWork(v) - 2
      case GetLatestDirty => BatchWork(after) == 3 * |v.dirty| && |v.dirty| <= |v.src|
      case _ => BatchWork(after) == BatchWork(v)
  {
    match op
    case ReadBlock(b) => ReadWork(dv.vol, b);
    case SendBlock(b) => SendWork(dv.vol, b);
    case GetLatestDirty => FullSet(dv.vol.dirty, |dv.vol.src|);
    case _ => hide BatchWork;
  }

  lemma {:induction false} ReadWork(v: Volume, b: nat)
    requires ReadingOk(v) && b in v.pending
    ensures BatchWork(v.(pending := v.pending - {b}, reading := Put(v.reading, b, v.src[b]))) == BatchWork(v) - 1
  {
    var reading := Put(v.reading, b, v.src[b]);
    assert reading.Keys == v.reading.Keys + {b};
    assert |reading| == |reading.Keys| == |v.reading.Keys| + 1;
  }

  lemma {:induction false} SendWork(v: Volume, b: nat)
    requires b in v.reading
    ensures BatchWork(v.(reading := v.reading - {b})) == BatchWork(v) - 2
  {
    var reading := v.reading - {b};
    assert reading.Keys == v.reading.Keys - {b};
    assert |reading| == |reading.Keys| == |v.reading.Keys| - 1;
  }

  /** What one own operation does to the distance, for a device that stays unmarked. */
  lemma {:induction false} DistanceAfter(cfg: Config, sh: Shared, d: nat, c: Control, dirty: nat, blocks: nat, op: Op)
    requires d < cfg.N() && ControlReady(sh, d, c, op) && Where(op).Some?
    requires dirty <= blocks && !sh.IsSuspended() && sh.readyCount < cfg.N() && !c.pc.CallSuspend? && !LeftLoop(c.pc)
    ensures var after := ControlAfter(cfg, sh, d, c, dirty, op);
      && (op.CountDirty? ==> Distance(after.pc, blocks) <= Distance(c.pc, blocks) + 8 + 3 * blocks)
      && (op.GetLatestDirty? ==> Distance(after.pc, blocks) + 3 * dirty < Distance(c.pc, blocks))
      && (op.LoadSentDevices? ==> Distance(after.pc, blocks) + 1 < Distance(c.pc, blocks))
      && (!op.CountDirty? ==> Distance(after.pc, blocks) < Distance(c.pc, blocks))
  {
  }

  lemma {:induction false} CountLeavesFewer(l: Limits, c: Counters, dirty: nat)
    requires CountersOk(l, c) && !CountCycle(l, c, dirty).marked
    ensures CyclesLeft(l, CountCycle(l, c, dirty)) == CyclesLeft(l, c) - 1
  {
    CountCycleKeeps(l, c, dirty);
    if !(c.total < Latest(l)) { LatestIsMarked(l, c); }
  }

  lemma {:induction false} CountStepLowers(cfg: Config, sh: Shared, d: nat, dv: Dev, op: Op, after: Control)
    requires d < cfg.N() && ControlReady(sh, d, dv.ctl, op) && VolumeReady(cfg, d, dv, op)
    requires VolumeOk(cfg, d, dv.ctl.pc, dv.vol) && |dv.vol.src| == cfg.devices[d].blocks
    requires ControlOk(cfg, sh, d, dv.ctl) && sh.readyCount < cfg.N() && !sh.IsSuspended()
    requires op.CountDirty?
    requires after == ControlAfter(cfg, sh, d, dv.ctl, |dv.vol.dirty|, op) && !after.cycles.marked
    ensures Potential(cfg.devices[d], Dev(after, VolumeAfter(cfg, d, dv, op))) < Potential(cfg.devices[d], dv)
  {
    var c, l := dv.ctl, cfg.devices[d].limits;
    hide Potential, ControlOk, Latest, CyclesLeft;
    assert CountersOk(l, c.cycles) by { CountersOfControl(cfg, sh, d, c); }
    assert VolumeAfter(cfg, d, dv, op) == dv.vol;
    assert after == c.(pc := Test, cycles := CountCycle(l, c.cycles, c.last)) && c.pc == Count;
    CountLeavesFewer(l, c.cycles, c.last);
    CountedPotential(cfg.devices[d], c, after.cycles, dv.vol);
  }

  lemma {:induction false} CountersOfControl(cfg: Config, sh: Shared, d: nat, c: Control)
    requires d < cfg.N() && ControlOk(cfg, sh, d, c)
    ensures CountersOk(cfg.devices[d].limits, c.cycles)
  {
  }

  lemma {:induction false} CountedPotential(c: DeviceConfig, before: Control, cycles: Counters, v: Volume)
    requires before.pc == Count && CyclesLeft(c.limits, cycles) == CyclesLeft(c.limits, before.cycles) - 1
    ensures Potential(c, Dev(before.(pc := Test, cycles := cycles), v)) < Potential(c, Dev(before, v))
  {
    hide CyclesLeft, BatchWork;
    OneFewer(CyclesLeft(c.limits, before.cycles), 10 + 3 * c.blocks);
  }

  lemma {:induction false} OneFewer(n: nat, unit: nat)
    requires n > 0
    ensures Product(n - 1, unit) == Product(n, unit) - unit
  {
  }

  lemma {:induction false} LoopStepLowers(cfg: Config, sh: Shared, d: nat, dv: Dev, op: Op, after: Control)
    requires d < cfg.N() && ControlReady(sh, d, dv.ctl, op) && VolumeReady(cfg, d, dv, op)
    requires VolumeOk(cfg, d, dv.ctl.pc, dv.vol) && |dv.vol.src| == cfg.devices[d].blocks
    requires ControlOk(cfg, sh, d, dv.ctl) && sh.readyCount < cfg.N() && !sh.IsSuspended()
    requires Where(op).Some? && !op.CountDirty?
    requires after == ControlAfter(cfg, sh, d, dv.ctl, |dv.vol.dirty|, op) && !after.cycles.marked
    ensures Potential(cfg.devices[d], Dev(after, VolumeAfter(cfg, d, dv, op))) < Potential(cfg.devices[d], dv)
  {
    var v := VolumeAfter(cfg, d, dv, op);
    BatchWorkAfter(cfg, d, dv, op);
    FullSet(dv.vol.dirty, |dv.vol.src|);
    DistanceAfter(cfg, sh, d, dv.ctl, |dv.vol.dirty|, cfg.devices[d].blocks, op);
    LoopStepKeeps(cfg, sh, d, dv.ctl, |dv.vol.dirty|, op);
    assert op.GetLatestDirty? ==> BatchWork(dv.vol) == 0;
    assert !op.GetLatestDirty? ==> BatchWork(v) == BatchWork(dv.vol);
    assert after.announcement.Due? ==> dv.ctl.announcement.Due? || op.LoadSentDevices?;
    hide ControlOk, ControlAfter, ControlReady, VolumeAfter, VolumeReady, VolumeOk, Where, Distance, BatchWork, CyclesLeft, LeftLoop, Product;
  }

  lemma {:induction false} LoopStepKeeps(cfg: Config, sh: Shared, d: nat, c: Control, dirty: nat, op: Op)
    requires d < cfg.N() && ControlReady(sh, d, c, op) && Where(op).Some? && !op.CountDirty?
    ensures var after := ControlAfter(cfg, sh, d, c, dirty, op);
      after.cycles == c.cycles && after.failed == c.failed && (after.announcement == c.announcement || op.LoadSentDevices?)
  {
  }

  lemma {:induction false} AsyncStepLowers(cfg: Config, sh: Shared, d: nat, dv: Dev, op: Op, after: Control)
    requires d < cfg.N() && ControlReady(sh, d, dv.ctl, op) && VolumeReady(cfg, d, dv, op)
    requires VolumeOk(cfg, d, dv.ctl.pc, dv.vol) && |dv.vol.src| == cfg.devices[d].blocks
    requires ControlOk(cfg, sh, d, dv.ctl) && sh.readyCount < cfg.N() && !sh.IsSuspended()
    requires op.ReadBlock? || op.SendBlock? || op.AnnounceAllSent? || op.Fail?
    requires after == ControlAfter(cfg, sh, d, dv.ctl, |dv.vol.dirty|, op) && !after.cycles.marked
    ensures Potential(cfg.devices[d], Dev(after, VolumeAfter(cfg, d, dv, op))) < Potential(cfg.devices[d], dv)
  {
    BatchWorkAfter(cfg, d, dv, op);
  }

  /** Each own step of an unmarked device uses up some of its potential. */
  lemma {:induction false} OwnStepLowers(cfg: Config, sh: Shared, d: nat, dv: Dev, op: Op, after: Control)
    requires d < cfg.N() && ControlReady(sh, d, dv.ctl, op) && VolumeReady(cfg, d, dv, op)
    requires VolumeOk(cfg, d, dv.ctl.pc, dv.vol) && |dv.vol.src| == cfg.devices[d].blocks
    requires ControlOk(cfg, sh, d, dv.ctl) && sh.readyCount < cfg.N() && !sh.IsSuspended()
    requires !op.GuestWrite? && !op.Writeback?
    requires after == ControlAfter(cfg, sh, d, dv.ctl, |dv.vol.dirty|, op) && !after.cycles.marked
    ensures Potential(cfg.devices[d], Dev(after, VolumeAfter(cfg, d, dv, op))) < Potential(cfg.devices[d], dv)
  {
    if op.CountDirty? {
      CountStepLowers(cfg, sh, d, dv, op, after);
    } else if Where(op).Some? {
      LoopStepLowers(cfg, sh, d, dv, op, after);
    } else {
      AsyncStepLowers(cfg, sh, d, dv, op, after);
    }
  }

  lemma {:induction false} SomeoneUnmarked(cfg: Config, s: State, d: nat)
    requires BarrierOk(cfg, s) && d < cfg.N() && !s.devs[d].ctl.cycles.marked
    ensures s.shared.readyCount < cfg.N() && s.shared.suspension.Idle?
  {
    CountsBounded(cfg.N(), s.devs);
  }

  lemma {:induction false} MarkedStays(cfg: Config, sh: Shared, d: nat, c: Control, dirty: nat, op: Op)
    requires d < cfg.N()
    ensures c.cycles.marked ==> ControlAfter(cfg, sh, d, c, dirty, op).cycles.marked
  {
  }

  lemma {:induction false} PotentialIgnoresWrites(cfg: Config, s: State, d: nat, op: Op, i: nat)
    requires Sized(cfg, s) && d < cfg.N() && i < cfg.N() && CanRun(cfg, s, d, op)
    requires i != d || op.GuestWrite? || op.Writeback?
    ensures DevAfter(cfg, s, d, op, i).ctl == s.devs[i].ctl
    ensures BatchWork(DevAfter(cfg, s, d, op, i).vol) == BatchWork(s.devs[i].vol)
  {
  }

  lemma {:induction false} PotentialIgnoresFlush(cfg: Config, d: nat, c: Control, v: Volume, e: Effect)
    requires d < cfg.N() && |v.guest| == |v.src|
    ensures Potential(cfg.devices[d], Dev(c, Flushed(cfg, d, v, e))) == Potential(cfg.devices[d], Dev(c, v))
  {
    assert Flushed(cfg, d, v, e).pending == v.pending && Flushed(cfg, d, v, e).reading == v.reading;
    hide CyclesLeft, Distance, Flushed;
  }

  lemma {:induction false} UnmarkedStep(cfg: Config, s: State, a: Action, t: State, d: nat)
    requires BarrierOk(cfg, s) && StorageOk(cfg, s) && Next(cfg, s, a, t) && d < cfg.N() && |t.devs| == cfg.N()
    requires !t.devs[d].ctl.cycles.marked
    ensures !s.devs[d].ctl.cycles.marked
    ensures Potential(cfg.devices[d], t.devs[d]) + (if IsOwn(a, d) then 1 else 0) <= Potential(cfg.devices[d], s.devs[d])
  {
    if a.OnDevice? {
      OpUnmarked(cfg, s, a.d, a.op, d);
      assert t.devs[d] == DevAfter(cfg, s, a.d, a.op, d);
    }
  }

  lemma {:induction false} OpUnmarked(cfg: Config, s: State, k: nat, op: Op, d: nat)
    requires BarrierOk(cfg, s) && StorageOk(cfg, s) && d < cfg.N() && k < cfg.N() && CanRun(cfg, s, k, op)
    requires !DevAfter(cfg, s, k, op, d).ctl.cycles.marked
    ensures !s.devs[d].ctl.cycles.marked
    ensures Potential(cfg.devices[d], DevAfter(cfg, s, k, op, d)) + (if IsOwn(OnDevice(k, op), d) then 1 else 0)
         <= Potential(cfg.devices[d], s.devs[d])
  {
    hide ControlOk, VolumeOk, CanFlush, ControlAfter, VolumeAfter, Flushed, EffectOf, SharedOk, ControlReady, VolumeReady;
    hide CountedSet, MarkedSet, Distance, CyclesLeft, BatchWork;
    var dv := s.devs[d];
    assert ControlOk(cfg, s.shared, d, dv.ctl);
    assert VolumeOk(cfg, d, dv.ctl.pc, dv.vol);
    if d == k { MarkedStays(cfg, s.shared, d, dv.ctl, |dv.vol.dirty|, op); }
    if d == k && !op.GuestWrite? && !op.Writeback? {
      hide Potential;
      SomeoneUnmarked(cfg, s, d);
      var after := ControlAfter(cfg, s.shared, d, dv.ctl, |dv.vol.dirty|, op);
      OwnStepLowers(cfg, s.shared, d, dv, op, after);
      PotentialIgnoresFlush(cfg, d, after, VolumeAfter(cfg, d, dv, op), EffectOf(s.shared, op));
    } else {
      PotentialIgnoresWrites(cfg, s, k, op, d);
    }
  }

  function OwnSteps(actions: seq<Action>, d: nat): nat {
    if actions == [] then 0
    else OwnSteps(actions[..|actions| - 1], d) + (if IsOwn(actions[|actions| - 1], d) then 1 else 0)
  }

  lemma {:induction false} OwnStepsUsePotential(cfg: Config, states: seq<State>, actions: seq<Action>, d: nat, j: nat)
    requires IsRun(cfg, states, actions) && d < cfg.N() && j <= |actions|
    requires !states[j].devs[d].ctl.cycles.marked
    ensures OwnSteps(actions[..j], d) + Potential(cfg.devices[d], states[j].devs[d]) <= Potential(cfg.devices[d], states[0].devs[d])
  {
    hide Inv, BarrierOk, StorageOk, Step, Enabled, Potential, Init;
    if j > 0 {
      RunInv(cfg, states, actions, j - 1);
      assert BarrierOk(cfg, states[j - 1]) && StorageOk(cfg, states[j - 1]) by { InvParts(cfg, states[j - 1]); }
      UnmarkedStep(cfg, states[j - 1], actions[j - 1], states[j], d);
      OwnStepsUsePotential(cfg, states, actions, d, j - 1);
      assert actions[..j][..j - 1] == actions[..j - 1];
    }
  }

  /** In every run, whatever the guest writes and the other devices do, a device that is still not
      ready has taken at most this many steps of its own. */
  lemma {:induction false} MarkedWithinBound(cfg: Config, states: seq<State>, actions: seq<Action>, d: nat, j: nat)
    requires IsRun(cfg, states, actions) && d < cfg.N() && j <= |actions|
    requires !states[j].devs[d].ctl.cycles.marked
    ensures var c := cfg.devices[d]; OwnSteps(actions[..j], d) <= Latest(c.limits) * (10 + 3 * c.blocks) + 14 + 6 * c.blocks
  {
    hide IsOwn, Inv, Step, Enabled, OwnSteps, Potential, Latest;
    OwnStepsUsePotential(cfg, states, actions, d, j);
    assert states[0].devs[d].ctl == START;
    StartPotential(cfg.devices[d], cfg.Direct(d), states[0].devs[d].vol);
  }

  lemma {:induction false} StartPotential(c: DeviceConfig, direct: bool, v: Volume)
    requires InitVolume(c.blocks, direct, v)
    ensures Potential(c, Dev(START, v)) == Latest(c.limits) * (10 + 3 * c.blocks) + 14 + 6 * c.blocks
  {
    hide Latest, InitVolume;
    StartWork(c, direct, v);
    assert CyclesLeft(c.limits, FRESH) == Latest(c.limits) by { LatestPositive(c.limits); }
  }

  lemma {:induction false} StartWork(c: DeviceConfig, direct: bool, v: Volume)
    requires InitVolume(c.blocks, direct, v)
    ensures BatchWork(v) == 3 * c.blocks
  {
  }

  lemma {:induction false} LatestPositive(l: Limits)
    ensures Latest(l) > 0
  {
  }

  /* ------------------------------------------------------- after suspension */

  /** The steps that a device still has ahead of it once the flag is up. */
  function Remaining(pc: Pc, dirty: set<nat>): nat {
    match pc
    case Done => 0
    case Complete => 2
    case AwaitCompletion => 3
    case Authority => 5
    case CheckFlag => 6
    case Unlock => 7
    case Drain => 8 + Again(dirty)
    case AwaitBatch => 9 + Again(dirty)
    case Msync => 10 + Again(dirty)
    case LoopTop => 11 + Again(dirty)
    case CallSuspend => 12 + Again(dirty)
    case Test => 13 + Again(dirty)
    case Count => 14 + Again(dirty)
    case Throttle => 15 + Again(dirty)
    case Announce => 17 + Again(dirty)
    case _ => 0
  }

  /** One more round, if the next drain returns blocks. */
  function Again(dirty: set<nat>): nat { if dirty == {} then 0 else 10 }

  function DevMeasure(dv: Dev): nat {
    Remaining(dv.ctl.pc, dv.vol.dirty) + 3 * |dv.vol.dirty| + BatchWork(dv.vol)
    + (if dv.ctl.announcement.Due? then 2 else 0) + (if dv.ctl.failed then 0 else 1)
  }

  function SumBy(m: Dev -> nat, devs: seq<Dev>): nat {
    if devs == [] then 0 else SumBy(m, devs[..|devs| - 1]) + m(devs[|devs| - 1])
  }

  function Measure(s: State): nat {
    SumBy(DevMeasure, s.devs) + |s.queue| + (if s.dst.eof then 0 else 1)
    + (match s.dst.progress case WaitReceived => 3 case WaitReady => 2 case Returned => 1 case Resumed => 0)
  }

  lemma {:induction false} SumAfter(m: Dev -> nat, devs: seq<Dev>, after: seq<Dev>, d: nat)
    requires d < |devs| == |after|
    requires forall i :: 0 <= i < |devs| && i != d ==> m(after[i]) == m(devs[i])
    ensures SumBy(m, after) + m(devs[d]) == SumBy(m, devs) + m(after[d])
    decreases |devs|
  {
    var n := |devs| - 1;
    if d == n {
      SumSame(m, devs[..n], after[..n]);
    } else {
      SumAfter(m, devs[..n], after[..n], d);
    }
  }

  lemma {:induction false} SumSame(m: Dev -> nat, devs: seq<Dev>, after: seq<Dev>)
    requires |devs| == |after| && forall i :: 0 <= i < |devs| ==> m(after[i]) == m(devs[i])
    ensures SumBy(m, after) == SumBy(m, devs)
  {
    if devs != [] { SumSame(m, devs[..|devs| - 1], after[..|devs| - 1]); }
  }

  /** What an own operation puts on the connection is at most one packet. */
  function Packets(op: Op): nat {
    if op.SendDevInfo? || op.SendDirtyList? || op.SendAuthority? || op.SendCompleted? then 1 else 0
  }

  lemma {:induction false} SuspendedInLoop(cfg: Config, sh: Shared, d: nat, c: Control, dirty: set<nat>, op: Op)
    requires d < cfg.N() && ControlReady(sh, d, c, op) && Where(op).Some? && !op.GetLatestDirty?
    requires sh.IsSuspended() && c.cycles.marked && InLoopOrLater(c.pc) && !LeftLoop(c.pc)
    ensures Remaining(ControlAfter(cfg, sh, d, c, |dirty|, op).pc, dirty) + Packets(op) < Remaining(c.pc, dirty)
  {
    hide CountCycle, Again, NotSending, MustMsync;
  }

  lemma {:induction false} SuspendedLeft(cfg: Config, sh: Shared, d: nat, c: Control, dirty: set<nat>, op: Op)
    requires d < cfg.N() && ControlReady(sh, d, c, op) && Where(op).Some? && LeftLoop(c.pc)
    ensures Remaining(ControlAfter(cfg, sh, d, c, |dirty|, op).pc, dirty) + Packets(op) < Remaining(c.pc, dirty)
  {
    hide CountCycle, Again, NotSending, MustMsync;
  }

  lemma {:induction false} LoopKeepsNotes(cfg: Config, sh: Shared, d: nat, c: Control, dirty: nat, op: Op)
    requires d < cfg.N() && ControlReady(sh, d, c, op) && Where(op).Some? && !op.LoadSentDevices?
    ensures var after := ControlAfter(cfg, sh, d, c, dirty, op); after.announcement == c.announcement && after.failed == c.failed
  {
    hide CountCycle, NotSending, MustMsync;
  }

  lemma {:induction false} SuspendedControl(cfg: Config, sh: Shared, d: nat, c: Control, dirty: set<nat>, op: Op)
    requires d < cfg.N() && ControlReady(sh, d, c, op) && Where(op).Some? && !op.GetLatestDirty?
    requires sh.IsSuspended() && c.cycles.marked && InLoopOrLater(c.pc)
    ensures var after := ControlAfter(cfg, sh, d, c, |dirty|, op);
      && Remaining(after.pc, dirty) + Packets(op) < Remaining(c.pc, dirty)
      && after.announcement == c.announcement && after.failed == c.failed
  {
    assert !op.LoadSentDevices?;
    LoopKeepsNotes(cfg, sh, d, c, |dirty|, op);
    if LeftLoop(c.pc) {
      SuspendedLeft(cfg, sh, d, c, dirty, op);
    } else {
      SuspendedInLoop(cfg, sh, d, c, dirty, op);
    }
    hide ControlAfter, ControlReady, Remaining, Packets;
  }

  lemma {:induction false} SuspendedOp(cfg: Config, sh: Shared, d: nat, dv: Dev, op: Op)
    requires d < cfg.N() && ControlReady(sh, d, dv.ctl, op) && VolumeReady(cfg, d, dv, op)
    requires VolumeOk(cfg, d, dv.ctl.pc, dv.vol)
    requires sh.IsSuspended() && dv.ctl.cycles.marked && InLoopOrLater(dv.ctl.pc)
    requires !op.GuestWrite? && !op.Writeback?
    ensures DevMeasure(Dev(ControlAfter(cfg, sh, d, dv.ctl, |dv.vol.dirty|, op), VolumeAfter(cfg, d, dv, op)))
              + |Sent(d, dv.vol, op)| < DevMeasure(dv)
  {
    if Where(op).Some? && !op.GetLatestDirty? {
      SuspendedLoopOp(cfg, sh, d, dv, op);
    } else if op.GetLatestDirty? {
      SuspendedDrain(cfg, sh, d, dv);
    } else {
      SuspendedAsync(cfg, sh, d, dv, op);
    }
    hide ControlAfter, ControlReady, VolumeAfter, VolumeReady, VolumeOk, DevMeasure;
  }

  lemma {:induction false} SuspendedAsync(cfg: Config, sh: Shared, d: nat, dv: Dev, op: Op)
    requires d < cfg.N() && ControlReady(sh, d, dv.ctl, op) && VolumeReady(cfg, d, dv, op)
    requires VolumeOk(cfg, d, dv.ctl.pc, dv.vol) && Where(op).None? && !op.GuestWrite? && !op.Writeback?
    ensures DevMeasure(Dev(ControlAfter(cfg, sh, d, dv.ctl, |dv.vol.dirty|, op), VolumeAfter(cfg, d, dv, op)))
              + |Sent(d, dv.vol, op)| < DevMeasure(dv)
  {
    BatchWorkAfter(cfg, d, dv, op);
    hide Remaining, BatchWork, SyncOk, NotSending;
  }

  lemma {:induction false} SuspendedLoopOp(cfg: Config, sh: Shared, d: nat, dv: Dev, op: Op)
    requires d < cfg.N() && ControlReady(sh, d, dv.ctl, op) && VolumeReady(cfg, d, dv, op) && |dv.vol.guest| == |dv.vol.src|
    requires sh.IsSuspended() && dv.ctl.cycles.marked && InLoopOrLater(dv.ctl.pc)
    requires Where(op).Some? && !op.GetLatestDirty?
    ensures DevMeasure(Dev(ControlAfter(cfg, sh, d, dv.ctl, |dv.vol.dirty|, op), VolumeAfter(cfg, d, dv, op)))
              + |Sent(d, dv.vol, op)| < DevMeasure(dv)
  {
    SuspendedControl(cfg, sh, d, dv.ctl, dv.vol.dirty, op);
    assert VolumeAfter(cfg, d, dv, op) == dv.vol;
    assert |Sent(d, dv.vol, op)| == Packets(op);
    hide ControlAfter, VolumeAfter, ControlReady, VolumeReady, Sent, Packets, Remaining, BatchWork;
  }

  lemma {:induction false} SuspendedDrain(cfg: Config, sh: Shared, d: nat, dv: Dev)
    requires d < cfg.N() && dv.ctl.pc.Drain? && BatchSent(dv.vol) && |dv.vol.guest| == |dv.vol.src|
    ensures DevMeasure(Dev(ControlAfter(cfg, sh, d, dv.ctl, |dv.vol.dirty|, GetLatestDirty), VolumeAfter(cfg, d, dv, GetLatestDirty)))
              < DevMeasure(dv)
  {
    assert |dv.vol.dirty| == 0 <==> dv.vol.dirty == {};
  }
}
