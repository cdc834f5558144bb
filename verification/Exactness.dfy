/** What the destination gets in the end: each device as its storage was at its last drain. */
module Exactness {
  import opened Cycles
  import opened Migration
  import opened Barrier
  import opened Storage
  import opened Connection
  import opened Simulation
  import opened Layering
  import opened Invariants
  import opened Handover

  function Content(blocks: seq<Data>): map<nat, Data> { map b | b in Blocks(|blocks|) :: blocks[b] }

  /** No batch of the device is under way or about to be announced. */
  predicate Quiet(dv: Dev) { BatchSent(dv.vol) && !dv.ctl.pc.Announce? }

  ghost function ViewOf(s: State, d: nat): map<nat, Data>
    requires d < |s.dst.stores|
  {
    View(d, s.dst.stores[d], s.queue)
  }

  lemma {:induction false} QuietOp(cfg: Config, sh: Shared, d: nat, dv: Dev, op: Op, view: map<nat, Data>)
    requires d < cfg.N() && ControlReady(sh, d, dv.ctl, op) && VolumeReady(cfg, d, dv, op) && |dv.vol.guest| == |dv.vol.src|
    requires Quiet(dv) && !op.GetLatestDirty?
    ensures Quiet(Dev(ControlAfter(cfg, sh, d, dv.ctl, |dv.vol.dirty|, op), VolumeAfter(cfg, d, dv, op)))
    ensures forall m :: m in Sent(d, dv.vol, op) ==> m.d == d && Apply(d, view, m) == view
  {
    QuietPc(cfg, sh, d, dv.ctl, |dv.vol.dirty|, op);
    hide ControlReady, ControlAfter;
  }

  lemma {:induction false} QuietPc(cfg: Config, sh: Shared, d: nat, c: Control, dirty: nat, op: Op)
    requires d < cfg.N() && ControlReady(sh, d, c, op) && !c.pc.Announce? && !op.GetLatestDirty?
    ensures !ControlAfter(cfg, sh, d, c, dirty, op).pc.Announce? && !op.SendDirtyList?
  {
    hide CountCycle;
  }

  lemma {:induction false} QuietOtherOp(cfg: Config, s: State, k: nat, op: Op, d: nat)
    requires Sized(cfg, s) && k < cfg.N() && d < cfg.N() && CanRun(cfg, s, k, op)
    requires Quiet(s.devs[d]) && !(k == d && op.GetLatestDirty?)
    ensures Quiet(DevAfter(cfg, s, k, op, d))
    ensures ViewOf(RunOp(cfg, s, k, op), d) == ViewOf(s, d)
  {
    var dv, sent := s.devs[d], Sent(k, s.devs[k].vol, op);
    SentMembers(k, s.devs[k].vol, op);
    ViewAfterSend(d, s.dst.stores[d], s.queue, sent);
    if k == d { QuietOp(cfg, s.shared, d, dv, op, ViewOf(s, d)); }
    hide ControlReady, ControlAfter, VolumeReady, VolumeAfter, Sent, View, CanFlush, EffectOf, SharedAfter;
    if sent != [] { assert sent[0] in sent; }
  }

  lemma {:induction false} QuietDelivery(cfg: Config, s: State, d: nat)
    requires ConnectionOk(cfg, s) && CanHappen(s, Deliver) && d < cfg.N()
    ensures d < |Happen(s, Deliver).dst.stores| == |s.dst.stores| && ViewOf(Happen(s, Deliver), d) == ViewOf(s, d)
  {
    ReceiveSized(s.dst, s.queue[0]);
    DeliverView(cfg, s, d);
    hide ConnectionOk, Receive, View;
  }

  lemma {:induction false} QuietEvent(cfg: Config, s: State, e: Event, d: nat)
    requires ConnectionOk(cfg, s) && CanHappen(s, e) && d < cfg.N() && !e.DestinationWrite?
    ensures Happen(s, e).devs == s.devs && d < |Happen(s, e).dst.stores| && ViewOf(Happen(s, e), d) == ViewOf(s, d)
  {
    if e.Deliver? {
      QuietDelivery(cfg, s, d);
      hide ConnectionOk, DestinationAfter, ViewOf;
    } else {
      hide ConnectionOk, View;
    }
  }

  /** Between its last drain and state `j` nothing changes what the destination will hold. */
  lemma {:induction false} QuietStep(cfg: Config, s: State, a: Action, t: State, d: nat)
    requires Inv(cfg, s) && Next(cfg, s, a, t) && d < cfg.N() && |t.devs| == |t.dst.stores| == cfg.N() == |s.devs| == |s.dst.stores|
    requires Quiet(s.devs[d]) && a != OnDevice(d, GetLatestDirty) && !(a.AtDestination? && a.event.DestinationWrite?)
    ensures Quiet(t.devs[d]) && ViewOf(t, d) == ViewOf(s, d)
  {
    hide Quiet, Inv, CanRun, CanHappen, ViewOf, Happen;
    InvConnection(cfg, s);
    match a
    case OnDevice(k, op) =>
      assert t.devs[d] == DevAfter(cfg, s, k, op, d);
      QuietOtherOp(cfg, s, k, op, d);
    case AtDestination(e) => QuietEvent(cfg, s, e, d);
  }

  lemma {:induction false} InvConnection(cfg: Config, s: State)
    requires Inv(cfg, s)
    ensures ConnectionOk(cfg, s)
  {
  }

  lemma {:induction false} CleanView(pc: Pc, v: Volume, view: map<nat, Data>)
    requires ViewOk(pc, v, view) && BatchSent(v) && v.dirty == {}
    ensures view == Content(v.src)
  {
    assert view.Keys == Blocks(|v.src|);
  }

  lemma {:induction false} EmptyDrainStays(cfg: Config, s: State, t: State, d: nat)
    requires StorageOk(cfg, s) && d < cfg.N() && Next(cfg, s, OnDevice(d, GetLatestDirty), t) && s.devs[d].vol.dirty == {}
    ensures |t.devs| == cfg.N() && t.devs[d].vol == s.devs[d].vol && t.devs[d].ctl.pc.Unlock?
  {
    assert t.devs[d] == DevAfter(cfg, s, d, GetLatestDirty, d);
  }

  lemma {:induction false} AfterEmptyDrain(cfg: Config, s: State, t: State, d: nat)
    requires Inv(cfg, s) && Inv(cfg, t) && d < cfg.N() && Next(cfg, s, OnDevice(d, GetLatestDirty), t) && s.devs[d].vol.dirty == {}
    requires !t.dst.progress.Resumed?
    ensures Quiet(t.devs[d]) && ViewOf(t, d) == Content(s.devs[d].vol.src)
  {
    hide View, ViewOk, Content, Next, BarrierOk, ConnectionOk, LayeringOk, DrainsOk;
    EmptyDrainStays(cfg, s, t, d);
    var dv := t.devs[d];
    assert VolumeOk(cfg, d, dv.ctl.pc, dv.vol);
    assert ViewOk(dv.ctl.pc, dv.vol, ViewOf(t, d));
    CleanView(dv.ctl.pc, dv.vol, ViewOf(t, d));
  }

  lemma {:induction false} ResumedStays(cfg: Config, s: State, a: Action, t: State)
    requires Next(cfg, s, a, t) && !t.dst.progress.Resumed?
    ensures !s.dst.progress.Resumed? && !(a.AtDestination? && a.event.DestinationWrite?)
  {
  }

  lemma {:induction false} ViewSinceDrain(cfg: Config, states: seq<State>, actions: seq<Action>, d: nat, i: nat, j: nat)
    requires IsRun(cfg, states, actions) && d < cfg.N() && LastDrainWasEmpty(states, actions, d, i, j)
    requires !states[j].dst.progress.Resumed?
    ensures Quiet(states[j].devs[d]) && ViewOf(states[j], d) == Content(states[i].devs[d].vol.src)
    decreases j
  {
    hide Inv, Step, Enabled, Init, Quiet, Content, View;
    var s, a, t := states[j - 1], actions[j - 1], states[j];
    RunInv(cfg, states, actions, j - 1);
    RunInv(cfg, states, actions, j);
    if j - 1 == i {
      AfterEmptyDrain(cfg, s, t, d);
    } else {
      ResumedStays(cfg, s, a, t);
      ViewSinceDrain(cfg, states, actions, d, i, j - 1);
      QuietStep(cfg, s, a, t, d);
    }
  }

  /** In every run of a peer or a mounter, whatever is written and whenever it suspends: once a
      device's authority has arrived, the destination holds it exactly as its storage was at its last drain. */
  lemma {:induction false} HandoverIsLastDrain(cfg: Config, states: seq<State>, actions: seq<Action>, d: nat, j: nat) returns (i: nat)
    requires IsRun(cfg, states, actions) && d < cfg.N() && j <= |actions|
    requires d in states[j].dst.authorised && !states[j].dst.progress.Resumed?
    ensures LastDrainWasEmpty(states, actions, d, i, j)
    ensures states[j].dst.stores[d] == Content(states[i].devs[d].vol.src)
  {
    hide Step, Enabled, Init, Quiet, Content, View, BarrierOk, StorageOk, SimulationOk, LayeringOk, DrainsOk;
    var s := states[j];
    RunInv(cfg, states, actions, j);
    assert TransitOk(d, s.devs[d].ctl, s.queue, s.dst);
    i := LastDrain(cfg, states, actions, d, j);
    ViewSinceDrain(cfg, states, actions, d, i, j);
    ViewOfTrailing(d, s.dst.stores[d], s.queue);
  }

  lemma {:induction false} ContentIsInjective(a: seq<Data>, b: seq<Data>)
    ensures Content(a) == Content(b) <==> a == b
  {
    if Content(a) == Content(b) {
      assert Content(a).Keys == Blocks(|a|) && Content(b).Keys == Blocks(|b|);
      assert |Blocks(|a|)| == |a| && |Blocks(|b|)| == |b|;
      forall k: nat | k < |a| ensures a[k] == b[k] { assert Content(a)[k] == Content(b)[k]; }
    }
  }

  /** So a device arrives as the guest saw it at the pause if and only if its storage was already that
      at its last drain. */
  lemma {:induction false} HandoverExactly(cfg: Config, states: seq<State>, actions: seq<Action>, d: nat, j: nat) returns (i: nat)
    requires IsRun(cfg, states, actions) && d < cfg.N() && j <= |actions|
    requires d in states[j].dst.authorised && !states[j].dst.progress.Resumed?
    ensures LastDrainWasEmpty(states, actions, d, i, j)
    ensures states[j].dst.stores[d] == GuestContent(states[j].devs[d].vol)
       <==> states[i].devs[d].vol.src == states[j].devs[d].vol.guest
  {
    hide Init, Next;
    i := HandoverIsLastDrain(cfg, states, actions, d, j);
    ContentIsInjective(states[i].devs[d].vol.src, states[j].devs[d].vol.guest);
    assert GuestContent(states[j].devs[d].vol) == Content(states[j].devs[d].vol.guest);
  }

  /** In every run of a peer with a private mapping the state device, if the snapshot's state has an output
      path, and the memory device, if its memory has one, arrive as they were before the first step: nothing
      that their guest ever wrote arrives. */
  lemma {:induction false} UnreachedArrivesOld(cfg: Config, states: seq<State>, actions: seq<Action>, d: nat, j: nat)
    requires IsRun(cfg, states, actions) && d < cfg.N() && j <= |actions| && cfg.mode.Peer? && cfg.mapPrivate
    requires (cfg.devices[d].kind.VmState? && cfg.stateOutput != "") || (cfg.devices[d].kind.Memory? && cfg.memoryOutput != "")
    requires d in states[j].dst.authorised && !states[j].dst.progress.Resumed?
    ensures states[j].dst.stores[d] == Content(states[0].devs[d].vol.src) == Content(states[j].devs[d].vol.src)
  {
    assert Unreached(cfg, d);
    hide Init, Next, Content, Unreached;
    var i := HandoverIsLastDrain(cfg, states, actions, d, j);
    UnreachedKeepsSource(cfg, states, actions, d, 0, i);
    UnreachedKeepsSource(cfg, states, actions, d, 0, j);
  }

  /** The goroutine keeps whether its last drain followed the flag. */
  lemma {:induction false} KeepsDrainFlag(cfg: Config, s: State, a: Action, t: State, d: nat)
    requires Next(cfg, s, a, t) && d < cfg.N() && |t.devs| == cfg.N() && PastEmptyDrain(t.devs[d].ctl.pc)
    ensures if a == OnDevice(d, GetLatestDirty) then t.devs[d].ctl.drainedSuspended == s.shared.IsSuspended()
            else PastEmptyDrain(s.devs[d].ctl.pc) && t.devs[d].ctl.drainedSuspended == s.devs[d].ctl.drainedSuspended
  {
    if a.OnDevice? {
      assert t.devs[d] == DevAfter(cfg, s, a.d, a.op, d);
      if a.d == d { DrainedPc(cfg, s.shared, d, s.devs[d].ctl, |s.devs[d].vol.dirty|, a.op); }
    }
    hide ControlAfter;
  }

  lemma {:induction false} DrainFlag(cfg: Config, states: seq<State>, actions: seq<Action>, d: nat, i: nat, j: nat)
    requires IsRun(cfg, states, actions) && d < cfg.N() && LastDrainWasEmpty(states, actions, d, i, j)
    requires PastEmptyDrain(states[j].devs[d].ctl.pc)
    ensures states[j].devs[d].ctl.drainedSuspended == states[i].shared.IsSuspended()
    decreases j
  {
    hide Step, Enabled, Init, PastEmptyDrain;
    KeepsDrainFlag(cfg, states[j - 1], actions[j - 1], states[j], d);
    if i < j - 1 { DrainFlag(cfg, states, actions, d, i, j - 1); }
  }

  /** From the flag on, the users of the devices do not write; a paused guest cannot. */
  ghost predicate QuietSinceFlag(cfg: Config, states: seq<State>, actions: seq<Action>, j: nat) {
    j <= |actions| < |states| && forall k :: 0 <= k < j && states[k].shared.IsSuspended() ==> UndisturbedStep(cfg, actions[k])
  }

  lemma {:induction false} SuspendedFrom(cfg: Config, states: seq<State>, actions: seq<Action>, i: nat, k: nat)
    requires IsRun(cfg, states, actions) && i <= k <= |actions| && states[i].shared.IsSuspended()
    requires QuietSinceFlag(cfg, states, actions, k)
    ensures states[k].shared.IsSuspended() && forall m :: i <= m < k ==> UndisturbedStep(cfg, actions[m])
    decreases k
  {
    hide Step, Enabled, Init, UndisturbedStep;
    if i < k {
      SuspendedFrom(cfg, states, actions, i, k - 1);
      if cfg.N() > 0 { SuspendedStaysQuiet(cfg, states, actions, i, k, 0); } else { NoDeviceNoFlag(cfg, states, actions, k - 1); }
    }
  }

  lemma {:induction false} NoDeviceNoFlag(cfg: Config, states: seq<State>, actions: seq<Action>, k: nat)
    requires IsRun(cfg, states, actions) && k <= |actions| && cfg.N() == 0
    ensures !states[k].shared.IsSuspended()
  {
    RunInv(cfg, states, actions, k);
  }

  /** Also with a mounter, whose users may go on: a device whose last drain followed the flag arrives as it
      is, with nothing unsent, in every run in which they do not write from the flag on. */
  lemma {:induction false} HandoverAfterFlag(cfg: Config, states: seq<State>, actions: seq<Action>, d: nat, j: nat)
    requires IsRun(cfg, states, actions) && d < cfg.N() && j <= |actions| && QuietSinceFlag(cfg, states, actions, j)
    requires d in states[j].dst.authorised && !states[j].dst.progress.Resumed? && states[j].devs[d].ctl.drainedSuspended
    requires !Unreached(cfg, d)
    ensures states[j].dst.stores[d] == GuestContent(states[j].devs[d].vol)
    ensures Unsent(states[j].devs[d].vol) == {}
  {
    hide Init, Next, GuestContent, Undisturbed, UndisturbedStep, QuietSinceFlag, Unsent, Unreached;
    RunInv(cfg, states, actions, j);
    GaveAuthority(cfg, states[j], d);
    var i := HandoverExactly(cfg, states, actions, d, j);
    DrainFlag(cfg, states, actions, d, i, j);
    SuspendedFrom(cfg, states, actions, i, j);
    SuspendedStaysQuiet(cfg, states, actions, i, j, d);
    SyncedAndSent(cfg, states[j], d);
  }

  lemma {:induction false} GaveAuthority(cfg: Config, s: State, d: nat)
    requires Inv(cfg, s) && d < cfg.N() && d in s.dst.authorised
    ensures |s.devs| == cfg.N() && AuthoritySent(s.devs[d].ctl.pc)
  {
    assert TransitOk(d, s.devs[d].ctl, s.queue, s.dst);
  }

  lemma {:induction false} SyncedAndSent(cfg: Config, s: State, d: nat)
    requires Inv(cfg, s) && d < cfg.N() && !Unreached(cfg, d)
    requires s.shared.IsSuspended() && AuthoritySent(s.devs[d].ctl.pc) && s.devs[d].vol.dirty == {}
    ensures s.devs[d].vol.src == s.devs[d].vol.guest && Unsent(s.devs[d].vol) == {}
  {
    assert VolumeOk(cfg, d, s.devs[d].ctl.pc, s.devs[d].vol);
    assert cfg.mode.Peer? ==> StoredOk(cfg, s.shared.suspension, d, s.devs[d].vol);
  }
}
