/** Adding to a shared counter and reading it are separate steps, so whether anyone sees the final
    value has to be argued: the last one to add is still about to read. */
module LastOne {
  import opened Cycles
  import opened Migration
  import opened Barrier
  import opened Connection
  import opened Invariants

  predicate SeesAllSent(c: Control) { c.pc.LoadSent? || c.announcement != NotDue }
  predicate SeesAllReady(c: Control) { c.pc.Test? || c.pc.CallSuspend? }

  /** Once all devices have counted as sent, some goroutine is about to read that or has read it. */
  ghost predicate SentSeen(devs: seq<Dev>) { exists d :: 0 <= d < |devs| && SeesAllSent(devs[d].ctl) }

  /** Once all devices are marked, some goroutine is about to read that, until suspension begins. */
  ghost predicate ReadySeen(devs: seq<Dev>) { exists d :: 0 <= d < |devs| && SeesAllReady(devs[d].ctl) }

  ghost predicate LastOk(cfg: Config, s: State) {
    && |s.devs| == cfg.N()
    && (s.shared.sentCount == cfg.N() > 0 ==> SentSeen(s.devs))
    && (s.shared.readyCount == cfg.N() > 0 && s.shared.suspension.Idle? ==> ReadySeen(s.devs))
    && (s.shared.suspension.SuspendFailed? ==> exists d :: 0 <= d < |s.devs| && s.devs[d].ctl.failed)
  }

  lemma {:induction false} OpSees(cfg: Config, sh: Shared, d: nat, c: Control, dirty: nat, op: Op)
    requires d < cfg.N() && ControlReady(sh, d, c, op)
    requires sh.sentCount <= cfg.N() && sh.readyCount <= cfg.N()
    ensures var after, u := ControlAfter(cfg, sh, d, c, dirty, op), SharedAfter(cfg, sh, d, c, op);
      && (u.sentCount == cfg.N() && (SeesAllSent(c) || sh.sentCount != cfg.N()) ==> SeesAllSent(after))
      && (u.readyCount == cfg.N() && u.suspension.Idle? && (SeesAllReady(c) || sh.readyCount != cfg.N()) ==> SeesAllReady(after))
      && (u.suspension.SuspendFailed? ==> sh.suspension.SuspendFailed? || after.failed)
      && (c.failed ==> after.failed)
      && (u.suspension.Idle? ==> sh.suspension.Idle?)
  {
  }

  lemma {:induction false} LastStep(cfg: Config, s: State, a: Action, t: State)
    requires BarrierOk(cfg, s) && LastOk(cfg, s) && Next(cfg, s, a, t)
    ensures LastOk(cfg, t)
  {
    if a.OnDevice? {
      var d, op := a.d, a.op;
      CountsBounded(cfg.N(), s.devs);
      OpSees(cfg, s.shared, d, s.devs[d].ctl, |s.devs[d].vol.dirty|, op);
      LastAfter(cfg, s.devs, t.devs, s.shared, t.shared, d) by {
        forall i | 0 <= i < cfg.N() && i != d ensures t.devs[i].ctl == s.devs[i].ctl { assert t.devs[i] == DevAfter(cfg, s, d, op, i); }
        assert t.devs[d] == DevAfter(cfg, s, d, op, d);
      }
    }
  }

  lemma {:induction false} LastAfter(cfg: Config, devs: seq<Dev>, after: seq<Dev>, sh: Shared, u: Shared, d: nat)
    requires |devs| == |after| == cfg.N() && d < cfg.N()
    requires forall i :: 0 <= i < cfg.N() && i != d ==> after[i].ctl == devs[i].ctl
    requires sh.sentCount == cfg.N() > 0 ==> SentSeen(devs)
    requires sh.readyCount == cfg.N() > 0 && sh.suspension.Idle? ==> ReadySeen(devs)
    requires sh.suspension.SuspendFailed? ==> exists d :: 0 <= d < |devs| && devs[d].ctl.failed
    requires u.sentCount == cfg.N() && (SeesAllSent(devs[d].ctl) || sh.sentCount != cfg.N()) ==> SeesAllSent(after[d].ctl)
    requires u.readyCount == cfg.N() && u.suspension.Idle? && (SeesAllReady(devs[d].ctl) || sh.readyCount != cfg.N()) ==> SeesAllReady(after[d].ctl)
    requires u.suspension.SuspendFailed? ==> sh.suspension.SuspendFailed? || after[d].ctl.failed
    requires devs[d].ctl.failed ==> after[d].ctl.failed
    requires u.suspension.Idle? ==> sh.suspension.Idle?
    ensures u.sentCount == cfg.N() > 0 ==> SentSeen(after)
    ensures u.readyCount == cfg.N() > 0 && u.suspension.Idle? ==> ReadySeen(after)
    ensures u.suspension.SuspendFailed? ==> exists d :: 0 <= d < |after| && after[d].ctl.failed
  {
    if u.sentCount == cfg.N() > 0 {
      if sh.sentCount == cfg.N() {
        var i :| 0 <= i < |devs| && SeesAllSent(devs[i].ctl);
        assert SeesAllSent(after[i].ctl);
      } else {
        assert SeesAllSent(after[d].ctl);
      }
    }
    if u.readyCount == cfg.N() > 0 && u.suspension.Idle? {
      if sh.readyCount == cfg.N() {
        var i :| 0 <= i < |devs| && SeesAllReady(devs[i].ctl);
        assert SeesAllReady(after[i].ctl);
      } else {
        assert SeesAllReady(after[d].ctl);
      }
    }
    if u.suspension.SuspendFailed? && sh.suspension.SuspendFailed? {
      var i :| 0 <= i < |devs| && devs[i].ctl.failed;
      assert after[i].ctl.failed;
    }
  }

  lemma {:induction false} RunLast(cfg: Config, states: seq<State>, actions: seq<Action>, i: nat)
    requires IsRun(cfg, states, actions) && i <= |actions|
    ensures LastOk(cfg, states[i])
  {
    hide Inv, BarrierOk, LastOk, Step, Enabled;
    if i == 0 {
      InitLast(cfg, states[0]);
    } else {
      RunLast(cfg, states, actions, i - 1);
      RunInv(cfg, states, actions, i - 1);
      assert BarrierOk(cfg, states[i - 1]) by { InvBarrier(cfg, states[i - 1]); }
      LastStep(cfg, states[i - 1], actions[i - 1], states[i]);
    }
  }

  lemma {:induction false} InitLast(cfg: Config, s: State)
    requires Init(cfg, s)
    ensures LastOk(cfg, s)
  {
  }

  lemma {:induction false} InvBarrier(cfg: Config, s: State)
    requires Inv(cfg, s)
    ensures BarrierOk(cfg, s)
  {
  }

  lemma {:induction false} ReachableLast(cfg: Config, s: State)
    requires Reachable(cfg, s)
    ensures LastOk(cfg, s)
  {
    hide LastOk, Step, Enabled;
    var states: seq<State>, actions: seq<Action> :| IsRun(cfg, states, actions) && states[|actions|] == s;
    RunLast(cfg, states, actions, |actions|);
  }

  /** The goroutine's next one or two steps, both enabled, begin the suspension. */
  ghost predicate SuspendsNext(cfg: Config, s: State, d: nat)
    requires Sized(cfg, s) && d < cfg.N()
  {
    if s.devs[d].ctl.pc.Test? then
      CanRun(cfg, s, d, LoadReady) && (var t := RunOp(cfg, s, d, LoadReady);
        Sized(cfg, t) && CanRun(cfg, t, d, EnterSuspend) && RunOp(cfg, t, d, EnterSuspend).shared.suspension == InProgress(d, FirstStage(cfg)))
    else
      CanRun(cfg, s, d, EnterSuspend) && RunOp(cfg, s, d, EnterSuspend).shared.suspension == InProgress(d, FirstStage(cfg))
  }

  function FirstStage(cfg: Config): Stage { if cfg.mode.Peer? then CloseAgent else RaiseFlag }

  /** When the last device is marked and suspension has not begun, a goroutine stands right before
      reading the counter, which then lets it through, or before the call itself. */
  lemma {:induction false} LastMarkerSuspends(cfg: Config, s: State) returns (d: nat)
    requires Reachable(cfg, s) && cfg.N() > 0
    requires forall i :: 0 <= i < cfg.N() ==> s.devs[i].ctl.cycles.marked
    requires s.shared.suspension.Idle?
    ensures d < cfg.N() && (s.devs[d].ctl.pc.Test? || s.devs[d].ctl.pc.CallSuspend?)
    ensures !s.devs[d].ctl.failed ==> SuspendsNext(cfg, s, d)
  {
    hide BarrierOk, Step, CanRun, RunOp, DevAfter, SuspendsNext;
    ReachableInv(cfg, s);
    ReachableLast(cfg, s);
    AllMarked(cfg, s);
    assert ReadySeen(s.devs);
    d :| 0 <= d < |s.devs| && SeesAllReady(s.devs[d].ctl);
    if !s.devs[d].ctl.failed { GoesOnToSuspend(cfg, s, d); }
  }

  lemma {:induction false} GoesOnToSuspend(cfg: Config, s: State, d: nat)
    requires Sized(cfg, s) && d < cfg.N() && s.shared.readyCount == cfg.N() && s.shared.suspension.Idle?
    requires !s.devs[d].ctl.failed && (s.devs[d].ctl.pc.Test? || s.devs[d].ctl.pc.CallSuspend?)
    ensures SuspendsNext(cfg, s, d)
  {
    if s.devs[d].ctl.pc.Test? {
      ReadsAll(cfg, s, d);
      CallSuspends(cfg, RunOp(cfg, s, d, LoadReady), d);
    } else {
      CallSuspends(cfg, s, d);
    }
    hide CanRun, RunOp, Sized;
  }

  lemma {:induction false} ReadsAll(cfg: Config, s: State, d: nat)
    requires Sized(cfg, s) && d < cfg.N() && s.shared.readyCount == cfg.N() && !s.devs[d].ctl.failed && s.devs[d].ctl.pc.Test?
    ensures CanRun(cfg, s, d, LoadReady)
    ensures var t := RunOp(cfg, s, d, LoadReady);
      Sized(cfg, t) && t.devs[d].ctl.pc.CallSuspend? && !t.devs[d].ctl.failed && t.shared.suspension == s.shared.suspension
  {
    hide CountCycle, MarksNow;
    OpSized(cfg, s, d, LoadReady);
    assert RunOp(cfg, s, d, LoadReady).devs[d] == DevAfter(cfg, s, d, LoadReady, d);
  }

  lemma {:induction false} CallSuspends(cfg: Config, s: State, d: nat)
    requires Sized(cfg, s) && d < cfg.N() && s.shared.suspension.Idle? && !s.devs[d].ctl.failed && s.devs[d].ctl.pc.CallSuspend?
    ensures CanRun(cfg, s, d, EnterSuspend) && RunOp(cfg, s, d, EnterSuspend).shared.suspension == InProgress(d, FirstStage(cfg))
  {
    hide CountCycle, MarksNow, DevAfter;
  }

  lemma {:induction false} AllMarked(cfg: Config, s: State)
    requires BarrierOk(cfg, s)
    requires forall i :: 0 <= i < cfg.N() ==> s.devs[i].ctl.cycles.marked
    ensures s.shared.readyCount == cfg.N()
  {
    assert MarkedSet(s.devs) == Blocks(cfg.N());
  }

  /* ---------------------------------------------------- all devices sent */

  ghost function AnnouncedSet(devs: seq<Dev>): set<nat> { set d: nat | d < |devs| && devs[d].ctl.announcement == Announced }

  function Announcements(actions: seq<Action>): nat {
    if actions == [] then 0
    else Announcements(actions[..|actions| - 1]) + (if IsAnnouncement(actions[|actions| - 1]) then 1 else 0)
  }

  predicate IsAnnouncement(a: Action) { a.OnDevice? && a.op.AnnounceAllSent? }

  lemma {:induction false} AnnounceStep(cfg: Config, s: State, a: Action, t: State)
    requires BarrierOk(cfg, s) && Next(cfg, s, a, t)
    ensures |AnnouncedSet(t.devs)| == |AnnouncedSet(s.devs)| + if IsAnnouncement(a) then 1 else 0
  {
    if a.OnDevice? {
      var d, op := a.d, a.op;
      assert ControlOk(cfg, s.shared, d, s.devs[d].ctl);
      OpAnnounced(cfg, s.shared, d, s.devs[d].ctl, |s.devs[d].vol.dirty|, op);
      forall i | i != d ensures i in AnnouncedSet(s.devs) <==> i in AnnouncedSet(t.devs) {
        if 0 <= i < cfg.N() { assert t.devs[i] == DevAfter(cfg, s, d, op, i); }
      }
      assert t.devs[d] == DevAfter(cfg, s, d, op, d);
      SetWithout(AnnouncedSet(s.devs), AnnouncedSet(t.devs), d);
    }
  }

  lemma {:induction false} AnnouncementCount(cfg: Config, states: seq<State>, actions: seq<Action>, i: nat)
    requires IsRun(cfg, states, actions) && i <= |actions|
    ensures Announcements(actions[..i]) == |AnnouncedSet(states[i].devs)|
  {
    hide Inv, BarrierOk, Step, Enabled;
    if i == 0 {
      assert AnnouncedSet(states[0].devs) == {};
    } else {
      AnnouncementCount(cfg, states, actions, i - 1);
      RunInv(cfg, states, actions, i - 1);
      assert BarrierOk(cfg, states[i - 1]) by { InvBarrier(cfg, states[i - 1]); }
      AnnounceStep(cfg, states[i - 1], actions[i - 1], states[i]);
      assert actions[..i][..i - 1] == actions[..i - 1];
    }
  }

  /** At most N AllDevicesSent events are sent, none before every DevInfo, and at least one is due or
      sent once every goroutine has read the counter. */
  lemma {:induction false} AllDevicesSent(cfg: Config, states: seq<State>, actions: seq<Action>, i: nat)
    requires IsRun(cfg, states, actions) && i <= |actions|
    ensures Announcements(actions[..i]) <= cfg.N()
    ensures Announcements(actions[..i]) > 0 ==> forall d :: 0 <= d < cfg.N() ==> states[i].devs[d].ctl.pc != SendInfo
    ensures cfg.N() > 0 && (forall d :: 0 <= d < cfg.N() ==> Counted(states[i].devs[d].ctl.pc) && states[i].devs[d].ctl.pc != LoadSent) ==>
              exists d :: 0 <= d < cfg.N() && states[i].devs[d].ctl.announcement != NotDue
  {
    var s := states[i];
    AnnouncementCount(cfg, states, actions, i);
    RunInv(cfg, states, actions, i);
    RunLast(cfg, states, actions, i);
    SomeAnnouncement(cfg, s);
  }

  lemma {:induction false} SomeAnnouncement(cfg: Config, s: State)
    requires BarrierOk(cfg, s) && LastOk(cfg, s)
    ensures |AnnouncedSet(s.devs)| <= cfg.N()
    ensures |AnnouncedSet(s.devs)| > 0 ==> forall d :: 0 <= d < cfg.N() ==> s.devs[d].ctl.pc != SendInfo
    ensures cfg.N() > 0 && (forall d :: 0 <= d < cfg.N() ==> Counted(s.devs[d].ctl.pc) && s.devs[d].ctl.pc != LoadSent) ==>
              exists d :: 0 <= d < cfg.N() && s.devs[d].ctl.announcement != NotDue
  {
    FullSet(AnnouncedSet(s.devs), cfg.N());
    if AnnouncedSet(s.devs) != {} {
      var d :| d in AnnouncedSet(s.devs);
      AllInfoSent(cfg, s, d);
    }
    if cfg.N() > 0 && forall d :: 0 <= d < cfg.N() ==> Counted(s.devs[d].ctl.pc) && s.devs[d].ctl.pc != LoadSent {
      assert CountedSet(s.devs) == Blocks(cfg.N());
      var d :| 0 <= d < |s.devs| && SeesAllSent(s.devs[d].ctl);
      assert s.devs[d].ctl.announcement != NotDue;
    }
  }
}
