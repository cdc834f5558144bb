/** The cycle counters over whole runs: which drains they count, and when a device is marked by them. */
module Convergence {
  import opened Cycles
  import opened Migration
  import opened Barrier

  /** The lengths that the drains of device `d` returned, oldest first. */
  function Drained(states: seq<State>, actions: seq<Action>, d: nat, j: nat): seq<nat>
    requires j <= |actions| < |states| && forall k :: 0 <= k < |states| ==> d < |states[k].devs|
  {
    if j == 0 then []
    else
      Drained(states, actions, d, j - 1)
      + if actions[j - 1] == OnDevice(d, GetLatestDirty) then [|states[j - 1].devs[d].vol.dirty|] else []
  }

  /** The last drain has returned, and its cycle is not counted, or not yet. */
  predicate Uncounted(pc: Pc) { pc.Unlock? || pc.CheckFlag? || pc.Announce? || pc.Throttle? || pc.Count? || LeftLoop(pc) }

  /** The drains whose cycles have been counted. */
  function CountedCycles(states: seq<State>, actions: seq<Action>, d: nat, j: nat): seq<nat>
    requires j <= |actions| < |states| && forall k :: 0 <= k < |states| ==> d < |states[k].devs|
  {
    var lengths := Drained(states, actions, d, j);
    if Uncounted(states[j].devs[d].ctl.pc) && lengths != [] then lengths[..|lengths| - 1] else lengths
  }

  /** The counters are those of `lengths`, the last of which waits to be counted. */
  ghost predicate CountedSoFar(l: Limits, c: Control, lengths: seq<nat>) {
    if Uncounted(c.pc) then
      lengths != [] && c.last == lengths[|lengths| - 1] && c.cycles == After(l, lengths[..|lengths| - 1])
    else c.cycles == After(l, lengths)
  }

  /** How one operation of the goroutine moves between the two cases. */
  lemma {:induction false} OpCounts(cfg: Config, sh: Shared, d: nat, c: Control, dirty: nat, op: Op, lengths: seq<nat>)
    requires d < cfg.N() && ControlReady(sh, d, c, op) && CountedSoFar(cfg.devices[d].limits, c, lengths)
    ensures CountedSoFar(cfg.devices[d].limits, ControlAfter(cfg, sh, d, c, dirty, op), lengths + if op.GetLatestDirty? then [dirty] else [])
  {
    hide CountCycle, ControlReady;
    assert lengths + [] == lengths && (lengths + [dirty])[..|lengths|] == lengths;
    if op.GetLatestDirty? {
      DrainsOnly(sh, d, c);
    } else if op.CountDirty? {
      CountsOnly(sh, d, c);
    } else {
      OthersLeaveCycles(cfg, sh, d, c, dirty, op);
      OthersLeaveCase(cfg, sh, d, c, dirty, op);
      hide ControlAfter, Uncounted;
    }
  }

  lemma {:induction false} DrainsOnly(sh: Shared, d: nat, c: Control)
    requires ControlReady(sh, d, c, GetLatestDirty)
    ensures c.pc.Drain?
  {
  }

  lemma {:induction false} CountsOnly(sh: Shared, d: nat, c: Control)
    requires ControlReady(sh, d, c, CountDirty)
    ensures c.pc.Count?
  {
  }

  lemma {:induction false} OthersLeaveCycles(cfg: Config, sh: Shared, d: nat, c: Control, dirty: nat, op: Op)
    requires d < cfg.N() && !op.GetLatestDirty? && !op.CountDirty?
    ensures var after := ControlAfter(cfg, sh, d, c, dirty, op); after.cycles == c.cycles && after.last == c.last
  {
  }

  lemma {:induction false} OthersLeaveCase(cfg: Config, sh: Shared, d: nat, c: Control, dirty: nat, op: Op)
    requires d < cfg.N() && ControlReady(sh, d, c, op) && !op.GetLatestDirty? && !op.CountDirty?
    ensures Uncounted(ControlAfter(cfg, sh, d, c, dirty, op).pc) <==> Uncounted(c.pc)
  {
    hide CountCycle, DrainControl;
  }

  lemma {:induction false} StepCounts(cfg: Config, s: State, a: Action, t: State, d: nat, lengths: seq<nat>)
    requires Next(cfg, s, a, t) && d < cfg.N() && |t.devs| == cfg.N()
    requires CountedSoFar(cfg.devices[d].limits, s.devs[d].ctl, lengths)
    ensures CountedSoFar(cfg.devices[d].limits, t.devs[d].ctl,
              lengths + if a == OnDevice(d, GetLatestDirty) then [|s.devs[d].vol.dirty|] else [])
  {
    if a.OnDevice? {
      assert t.devs[d] == DevAfter(cfg, s, a.d, a.op, d);
      if a.d == d { OpCounts(cfg, s.shared, d, s.devs[d].ctl, |s.devs[d].vol.dirty|, a.op, lengths); }
    }
    assert lengths + [] == lengths;
    hide CountedSoFar, ControlAfter, ControlReady;
  }

  /** In every run the counters of a device are those of the lengths that its drains returned, all of them
      but the last while its cycle is not counted yet. */
  lemma {:induction false} CountersExactly(cfg: Config, states: seq<State>, actions: seq<Action>, d: nat, j: nat)
    requires IsRun(cfg, states, actions) && d < cfg.N() && j <= |actions|
    ensures CountedSoFar(cfg.devices[d].limits, states[j].devs[d].ctl, Drained(states, actions, d, j))
    ensures states[j].devs[d].ctl.cycles == After(cfg.devices[d].limits, CountedCycles(states, actions, d, j))
  {
    hide Step, Enabled, Init, After;
    if j == 0 {
      StartsUncounted(cfg, states[0], d);
    } else {
      CountersExactly(cfg, states, actions, d, j - 1);
      StepCounts(cfg, states[j - 1], actions[j - 1], states[j], d, Drained(states, actions, d, j - 1));
    }
  }

  lemma {:induction false} StartsUncounted(cfg: Config, s: State, d: nat)
    requires Init(cfg, s) && d < cfg.N()
    ensures s.devs[d].ctl.cycles == After(cfg.devices[d].limits, []) && !Uncounted(s.devs[d].ctl.pc)
  {
  }

  /** So in every run a device is marked exactly if, among the lengths that its drains returned, there is
      a last one of more than MinCycles quiet cycles in a row, or one that is not quiet beyond MaxCycles;
      and the convergence bounds hold of its counted drains. */
  lemma {:induction false} RunMarksExactly(cfg: Config, states: seq<State>, actions: seq<Action>, d: nat, j: nat)
    requires IsRun(cfg, states, actions) && d < cfg.N() && j <= |actions|
    ensures var l, counted := cfg.devices[d].limits, CountedCycles(states, actions, d, j);
      && (states[j].devs[d].ctl.cycles.marked <==> exists k: nat :: MarksAt(l, counted, k))
      && (|counted| < Earliest(l) ==> !states[j].devs[d].ctl.cycles.marked)
      && (|counted| >= Latest(l) ==> states[j].devs[d].ctl.cycles.marked)
  {
    hide Step, Enabled, Init, After, MarksAt, CountedSoFar, CountedCycles;
    CountersExactly(cfg, states, actions, d, j);
    MarkedExactly(cfg.devices[d].limits, CountedCycles(states, actions, d, j));
    ConvergenceBound(cfg.devices[d].limits, CountedCycles(states, actions, d, j));
  }
}
