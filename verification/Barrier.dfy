/** The authority barrier on the sending side: the two shared counters, the once-only suspension
    and the lock around `suspendedVM`, for any number of devices and any interleaving. */
module Barrier {
  import opened Cycles
  import opened Migration
  import opened Options

  predicate Counted(pc: Pc) { !pc.SendInfo? && !pc.AddSent? }
  predicate InLoopOrLater(pc: Pc) { !pc.SendInfo? && !pc.AddSent? && !pc.LoadSent? && !pc.Initial? }
  predicate LeftLoop(pc: Pc) { pc.Authority? || pc.AwaitCompletion? || pc.Complete? || pc.Done? }

  ghost function CountedSet(devs: seq<Dev>): set<nat> { set d: nat | d < |devs| && Counted(devs[d].ctl.pc) }
  ghost function MarkedSet(devs: seq<Dev>): set<nat> { set d: nat | d < |devs| && devs[d].ctl.cycles.marked }

  /** What one device's control state says about the shared variables. */
  ghost predicate ControlOk(cfg: Config, sh: Shared, d: nat, c: Control)
    requires d < cfg.N()
  {
    && CountersOk(cfg.devices[d].limits, c.cycles)
    && (c.cycles.marked ==> InLoopOrLater(c.pc))
    && (c.pc.CallSuspend? ==> sh.readyCount == cfg.N())
    && (LeftLoop(c.pc) ==> sh.IsSuspended())
    && (c.pc.Msync? && !c.failed ==> sh.lockHolder == Some(d))
    && (c.announcement != NotDue ==> sh.sentCount == cfg.N() && Counted(c.pc) && c.pc != LoadSent)
    && (c.suspendReturned ==> sh.IsSuspended())
    && (c.drainedSuspended ==> sh.IsSuspended())
    && (c.locked <==> c.pc.Unlock?)
  }

  predicate IsAt(devs: seq<Dev>, d: nat, pc: Pc) {
    d < |devs| && !devs[d].ctl.failed && devs[d].ctl.pc == pc
  }

  ghost predicate SharedOk(cfg: Config, devs: seq<Dev>, sh: Shared)
    requires |devs| == cfg.N()
  {
    && (sh.suspension.InProgress? ==> IsAt(devs, sh.suspension.caller, CallSuspend))
    && (!sh.suspension.Idle? ==> sh.readyCount == cfg.N() > 0)
    && (sh.lockHolder.Some? ==>
          && IsAt(devs, sh.lockHolder.value, Msync) && !sh.IsSuspended()
          && cfg.mode.Peer? && cfg.devices[sh.lockHolder.value].kind.Memory?)
  }

  ghost predicate BarrierOk(cfg: Config, s: State) {
    && Sized(cfg, s)
    && s.shared.sentCount == |CountedSet(s.devs)|
    && s.shared.readyCount == |MarkedSet(s.devs)|
    && SharedOk(cfg, s.devs, s.shared)
    && forall d :: 0 <= d < cfg.N() ==> ControlOk(cfg, s.shared, d, s.devs[d].ctl)
  }

  lemma {:induction false} FullSet(a: set<nat>, n: nat)
    requires a <= Blocks(n)
    ensures |a| <= n
    ensures |a| == n ==> a == Blocks(n)
  {
    assert Blocks(n) == a + (Blocks(n) - a);
    assert |Blocks(n)| == |a| + |Blocks(n) - a|;
  }

  /** Both counters stay within N, and reach N only when every device has counted. */
  lemma {:induction false} CountsBounded(n: nat, devs: seq<Dev>)
    requires |devs| == n
    ensures |CountedSet(devs)| <= n && |MarkedSet(devs)| <= n
    ensures |CountedSet(devs)| == n ==> forall d :: 0 <= d < n ==> Counted(devs[d].ctl.pc)
    ensures |MarkedSet(devs)| == n ==> forall d :: 0 <= d < n ==> devs[d].ctl.cycles.marked
  {
    FullSet(CountedSet(devs), n);
    FullSet(MarkedSet(devs), n);
    forall d: nat | d < n
      ensures |CountedSet(devs)| == n ==> Counted(devs[d].ctl.pc)
      ensures |MarkedSet(devs)| == n ==> devs[d].ctl.cycles.marked
    {
      assert d in Blocks(n);
    }
  }

  lemma {:induction false} SetWithout(x: set<nat>, y: set<nat>, d: nat)
    requires forall i :: i != d ==> (i in x <==> i in y)
    ensures |y| == |x| + (if d in y then 1 else 0) - (if d in x then 1 else 0)
  {
    assert x - {d} == y - {d};
    assert d in x ==> x == (x - {d}) + {d};
    assert d !in x ==> x == x - {d};
    assert d in y ==> y == (y - {d}) + {d};
    assert d !in y ==> y == y - {d};
  }

  lemma {:induction false} CountsAfter(devs: seq<Dev>, after: seq<Dev>, d: nat)
    requires d < |devs| == |after|
    requires forall i :: 0 <= i < |devs| && i != d ==> after[i].ctl == devs[i].ctl
    ensures |CountedSet(after)| == |CountedSet(devs)|
              + (if Counted(after[d].ctl.pc) then 1 else 0) - (if Counted(devs[d].ctl.pc) then 1 else 0)
    ensures |MarkedSet(after)| == |MarkedSet(devs)|
              + (if after[d].ctl.cycles.marked then 1 else 0) - (if devs[d].ctl.cycles.marked then 1 else 0)
  {
    forall i | i != d ensures i in CountedSet(devs) <==> i in CountedSet(after) {}
    forall i | i != d ensures i in MarkedSet(devs) <==> i in MarkedSet(after) {}
    SetWithout(CountedSet(devs), CountedSet(after), d);
    SetWithout(MarkedSet(devs), MarkedSet(after), d);
  }

  /** An operation that is not the goroutine's own leaves it where it is; an own one takes it from its
      place to another one, which is never the first. */
  lemma {:induction false} OwnOpsMove(cfg: Config, sh: Shared, d: nat, c: Control, dirty: nat, op: Op)
    requires d < cfg.N() && ControlReady(sh, d, c, op)
    ensures var after := ControlAfter(cfg, sh, d, c, dirty, op).pc;
      if Where(op).Some? then c.pc == Where(op).value && after != SendInfo else after == c.pc
  {
    hide CountCycle, MustMsync, NotSending;
  }

  lemma {:induction false} OpCounted(cfg: Config, sh: Shared, d: nat, c: Control, dirty: nat, op: Op)
    requires d < cfg.N() && ControlReady(sh, d, c, op)
    ensures Counted(ControlAfter(cfg, sh, d, c, dirty, op).pc) <==> Counted(c.pc) || op.AddSentDevice?
    ensures op.AddSentDevice? ==> !Counted(c.pc)
  {
    hide CountCycle, MustMsync, NotSending;
  }

  lemma {:induction false} OpMarks(cfg: Config, sh: Shared, d: nat, c: Control, dirty: nat, op: Op)
    requires d < cfg.N()
    ensures ControlAfter(cfg, sh, d, c, dirty, op).cycles.marked <==> c.cycles.marked || MarksNow(cfg, d, c, op)
  {
    if op.CountDirty? {
    } else {
      hide CountCycle, MustMsync;
    }
  }

  /** How one operation moves the two counts. */
  lemma {:induction false} OpCounts(cfg: Config, sh: Shared, d: nat, c: Control, dirty: nat, op: Op)
    requires d < cfg.N() && ControlReady(sh, d, c, op)
    ensures var after := ControlAfter(cfg, sh, d, c, dirty, op);
      && (Counted(after.pc) <==> Counted(c.pc) || op.AddSentDevice?)
      && (op.AddSentDevice? ==> !Counted(c.pc))
      && (after.cycles.marked <==> c.cycles.marked || MarksNow(cfg, d, c, op))
  {
    OpCounted(cfg, sh, d, c, dirty, op);
    OpMarks(cfg, sh, d, c, dirty, op);
    hide ControlAfter, ControlReady, MarksNow, Counted;
  }

  lemma {:induction false} CyclesAfterOk(cfg: Config, sh: Shared, d: nat, c: Control, dirty: nat, op: Op)
    requires d < cfg.N() && ControlReady(sh, d, c, op) && ControlOk(cfg, sh, d, c)
    ensures var after := ControlAfter(cfg, sh, d, c, dirty, op);
      CountersOk(cfg.devices[d].limits, after.cycles) && (after.cycles.marked ==> InLoopOrLater(after.pc))
  {
    CountCycleKeeps(cfg.devices[d].limits, c.cycles, c.last);
    hide CountersOk, CountCycle;
  }

  lemma {:induction false} PlaceAfterOk(cfg: Config, sh: Shared, d: nat, c: Control, dirty: nat, op: Op, u: Shared)
    requires d < cfg.N() && ControlReady(sh, d, c, op) && ControlOk(cfg, sh, d, c)
    requires !sh.suspension.Idle? ==> sh.readyCount == cfg.N()
    requires u == SharedAfter(cfg, sh, d, c, op) && u.readyCount <= cfg.N()
    ensures var after := ControlAfter(cfg, sh, d, c, dirty, op);
      && (after.pc.CallSuspend? ==> u.readyCount == cfg.N())
      && (LeftLoop(after.pc) ==> u.IsSuspended())
      && (after.pc.Msync? && !after.failed ==> u.lockHolder == Some(d))
      && (after.locked <==> after.pc.Unlock?)
  {
    hide CountersOk, CountCycle, MarksNow;
  }

  lemma {:induction false} NotesAfterOk(cfg: Config, sh: Shared, d: nat, c: Control, dirty: nat, op: Op, u: Shared)
    requires d < cfg.N() && ControlReady(sh, d, c, op) && ControlOk(cfg, sh, d, c)
    requires u == SharedAfter(cfg, sh, d, c, op) && u.sentCount <= cfg.N()
    ensures var after := ControlAfter(cfg, sh, d, c, dirty, op);
      && (after.announcement != NotDue ==> u.sentCount == cfg.N() && Counted(after.pc) && after.pc != LoadSent)
      && (after.suspendReturned ==> u.IsSuspended())
      && (after.drainedSuspended ==> u.IsSuspended())
  {
    hide CountersOk, CountCycle, MarksNow, MustMsync;
  }

  /** The device's own control state, with the shared variables `u` after the operation. */
  lemma {:induction false} ControlAfterOk(cfg: Config, sh: Shared, d: nat, c: Control, dirty: nat, op: Op, u: Shared)
    requires d < cfg.N() && ControlReady(sh, d, c, op) && ControlOk(cfg, sh, d, c)
    requires !sh.suspension.Idle? ==> sh.readyCount == cfg.N()
    requires u == SharedAfter(cfg, sh, d, c, op) && u.sentCount <= cfg.N() && u.readyCount <= cfg.N()
    ensures ControlOk(cfg, u, d, ControlAfter(cfg, sh, d, c, dirty, op))
  {
    CyclesAfterOk(cfg, sh, d, c, dirty, op);
    PlaceAfterOk(cfg, sh, d, c, dirty, op, u);
    NotesAfterOk(cfg, sh, d, c, dirty, op, u);
    hide ControlAfter, ControlReady, SharedAfter, CountersOk, InLoopOrLater, LeftLoop, Counted;
  }

  lemma {:induction false} OtherControlOk(cfg: Config, sh: Shared, d: nat, c: Control, op: Op, u: Shared, i: nat, ci: Control)
    requires d < cfg.N() && i < cfg.N() && i != d && ControlReady(sh, d, c, op)
    requires ControlOk(cfg, sh, d, c) && ControlOk(cfg, sh, i, ci)
    requires u == SharedAfter(cfg, sh, d, c, op) && u.sentCount <= cfg.N() && u.readyCount <= cfg.N()
    ensures ControlOk(cfg, u, i, ci)
  {
  }

  lemma {:induction false} SuspensionAfterOk(cfg: Config, devs: seq<Dev>, after: seq<Dev>, sh: Shared, d: nat, dirty: nat, op: Op, u: Shared)
    requires d < |devs| == |after| == cfg.N() && SharedOk(cfg, devs, sh)
    requires ControlReady(sh, d, devs[d].ctl, op) && ControlOk(cfg, sh, d, devs[d].ctl)
    requires forall i :: 0 <= i < |devs| && i != d ==> after[i].ctl == devs[i].ctl
    requires after[d].ctl == ControlAfter(cfg, sh, d, devs[d].ctl, dirty, op)
    requires u == SharedAfter(cfg, sh, d, devs[d].ctl, op) && u.readyCount <= cfg.N()
    ensures u.suspension.InProgress? ==> IsAt(after, u.suspension.caller, CallSuspend)
    ensures !u.suspension.Idle? ==> u.readyCount == cfg.N() > 0
  {
    hide CountersOk, CountCycle, MarksNow, MustMsync, LockAfter;
  }

  lemma {:induction false} LockAfterOk(cfg: Config, devs: seq<Dev>, after: seq<Dev>, sh: Shared, d: nat, dirty: nat, op: Op, u: Shared)
    requires d < |devs| == |after| == cfg.N() && SharedOk(cfg, devs, sh)
    requires ControlReady(sh, d, devs[d].ctl, op)
    requires forall i :: 0 <= i < |devs| && i != d ==> after[i].ctl == devs[i].ctl
    requires after[d].ctl == ControlAfter(cfg, sh, d, devs[d].ctl, dirty, op)
    requires u == SharedAfter(cfg, sh, d, devs[d].ctl, op)
    ensures u.lockHolder.Some? ==>
              && IsAt(after, u.lockHolder.value, Msync) && !u.IsSuspended()
              && cfg.mode.Peer? && cfg.devices[u.lockHolder.value].kind.Memory?
  {
    hide CountersOk, CountCycle, MarksNow;
  }

  lemma {:induction false} SharedAfterOk(cfg: Config, devs: seq<Dev>, after: seq<Dev>, sh: Shared, d: nat, dirty: nat, op: Op, u: Shared)
    requires d < |devs| == |after| == cfg.N() && SharedOk(cfg, devs, sh)
    requires ControlReady(sh, d, devs[d].ctl, op) && ControlOk(cfg, sh, d, devs[d].ctl)
    requires forall i :: 0 <= i < |devs| && i != d ==> after[i].ctl == devs[i].ctl
    requires after[d].ctl == ControlAfter(cfg, sh, d, devs[d].ctl, dirty, op)
    requires u == SharedAfter(cfg, sh, d, devs[d].ctl, op) && u.readyCount <= cfg.N()
    ensures SharedOk(cfg, after, u)
  {
    SuspensionAfterOk(cfg, devs, after, sh, d, dirty, op, u);
    LockAfterOk(cfg, devs, after, sh, d, dirty, op, u);
    hide ControlAfter, ControlReady, SharedAfter, ControlOk, IsAt;
  }

  lemma {:induction false} OpSized(cfg: Config, s: State, d: nat, op: Op)
    requires Sized(cfg, s) && d < cfg.N() && CanRun(cfg, s, d, op)
    ensures Sized(cfg, RunOp(cfg, s, d, op))
  {
    var t := RunOp(cfg, s, d, op);
    forall i | 0 <= i < cfg.N() ensures |t.devs[i].vol.guest| == |t.devs[i].vol.src| == cfg.devices[i].blocks {
      assert t.devs[i] == DevAfter(cfg, s, d, op, i);
    }
  }

  lemma {:induction false} OpBarrier(cfg: Config, s: State, d: nat, op: Op)
    requires BarrierOk(cfg, s) && d < cfg.N() && CanRun(cfg, s, d, op)
    ensures BarrierOk(cfg, RunOp(cfg, s, d, op))
  {
    var t := RunOp(cfg, s, d, op);
    var c, dirty := s.devs[d].ctl, |s.devs[d].vol.dirty|;
    OpSized(cfg, s, d, op);
    forall i | 0 <= i < cfg.N()
      ensures t.devs[i].ctl == if i == d then ControlAfter(cfg, s.shared, d, c, dirty, op) else s.devs[i].ctl
    {
      assert t.devs[i] == DevAfter(cfg, s, d, op, i);
    }
    OpCounts(cfg, s.shared, d, c, dirty, op);
    CountsAfter(s.devs, t.devs, d);
    CountsBounded(cfg.N(), t.devs);
    SharedAfterOk(cfg, s.devs, t.devs, s.shared, d, dirty, op, t.shared);
    forall i | 0 <= i < cfg.N() ensures ControlOk(cfg, t.shared, i, t.devs[i].ctl) {
      if i == d {
        ControlAfterOk(cfg, s.shared, d, c, dirty, op, t.shared);
      } else {
        OtherControlOk(cfg, s.shared, d, c, op, t.shared, i, s.devs[i].ctl);
      }
    }
  }

  lemma {:induction false} BarrierStep(cfg: Config, s: State, a: Action, t: State)
    requires BarrierOk(cfg, s) && Next(cfg, s, a, t)
    ensures BarrierOk(cfg, t)
  {
    if a.OnDevice? {
      OpBarrier(cfg, s, a.d, a.op);
    } else {
      assert t.devs == s.devs && t.shared == s.shared && |t.dst.stores| == |s.dst.stores|;
    }
  }

  lemma {:induction false} InitBarrier(cfg: Config, s: State)
    requires Init(cfg, s)
    ensures BarrierOk(cfg, s)
  {
    assert forall d :: 0 <= d < cfg.N() ==> s.devs[d].ctl == START;
    assert CountedSet(s.devs) == {} && MarkedSet(s.devs) == {};
  }
}
