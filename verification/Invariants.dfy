/** The invariant of the whole machine, and that every state of every run satisfies it. */
module Invariants {
  import opened Migration
  import opened Barrier
  import opened Storage
  import opened Connection
  import opened Simulation
  import opened Layering

  ghost predicate Inv(cfg: Config, s: State) {
    && BarrierOk(cfg, s) && StorageOk(cfg, s) && ConnectionOk(cfg, s)
    && SimulationOk(cfg, s) && LayeringOk(cfg, s) && DrainsOk(cfg, s)
  }

  lemma {:induction false} InvInit(cfg: Config, s: State)
    requires Init(cfg, s)
    ensures Inv(cfg, s)
  {
    InitBarrier(cfg, s);
    InitStorage(cfg, s);
    InitConnection(cfg, s);
    InitSimulation(cfg, s);
    InitLayering(cfg, s);
    InitDrains(cfg, s);
  }

  lemma {:induction false} InitDrains(cfg: Config, s: State)
    requires Init(cfg, s) && Sized(cfg, s)
    ensures DrainsOk(cfg, s)
  {
    forall d | 0 <= d < cfg.N() ensures DrainedOk(cfg, s.devs[d].ctl, s.devs[d].vol) {
      assert s.devs[d].ctl == START;
    }
  }

  lemma {:induction false} InvStep(cfg: Config, s: State, a: Action, t: State)
    requires Inv(cfg, s) && Next(cfg, s, a, t)
    ensures Inv(cfg, t)
  {
    BarrierStep(cfg, s, a, t);
    StorageStep(cfg, s, a, t);
    ConnectionStep(cfg, s, a, t);
    SimulationStep(cfg, s, a, t);
    LayeringStep(cfg, s, a, t);
    DrainsStep(cfg, s, a, t);
  }

  lemma {:induction false} RunInv(cfg: Config, states: seq<State>, actions: seq<Action>, i: nat)
    requires IsRun(cfg, states, actions) && i <= |actions|
    ensures Inv(cfg, states[i])
  {
    hide Inv, Step;
    if i == 0 {
      InvInit(cfg, states[0]);
    } else {
      RunInv(cfg, states, actions, i - 1);
      InvStep(cfg, states[i - 1], actions[i - 1], states[i]);
    }
  }

  lemma {:induction false} ReachableInv(cfg: Config, s: State)
    requires Reachable(cfg, s)
    ensures Inv(cfg, s)
  {
    var states: seq<State>, actions: seq<Action> :| IsRun(cfg, states, actions) && states[|actions|] == s;
    RunInv(cfg, states, actions, |actions|);
  }

  lemma {:induction false} ReachableStep(cfg: Config, s: State, a: Action, t: State)
    requires Reachable(cfg, s) && Next(cfg, s, a, t) && Sized(cfg, t)
    ensures Reachable(cfg, t)
  {
    hide Step, Enabled, Init;
    var states: seq<State>, actions: seq<Action> :| IsRun(cfg, states, actions) && states[|actions|] == s;
    var states2, actions2 := states + [t], actions + [a];
    assert forall i :: 0 <= i < |actions| ==> Next(cfg, states2[i], actions2[i], states2[i + 1]);
    assert Next(cfg, states2[|actions|], actions2[|actions|], states2[|actions| + 1]);
    assert IsRun(cfg, states2, actions2) && states2[|actions2|] == t;
  }
}
