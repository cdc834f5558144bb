/** The promises of the migration, for every configuration and every reachable state or run. */
module Handover {
  import opened Migration
  import opened Barrier
  import opened Storage
  import opened Connection
  import opened Simulation
  import opened Layering
  import opened Invariants

  /* ---------------------------------------------------- barrier and readiness */

  /** The ready counter is the number of marked devices; suspension starts only when it is N, and
      authority is sent only after suspension and after every DevInfo. */
  lemma {:induction false} AuthorityBarrier(cfg: Config, s: State)
    requires Reachable(cfg, s)
    ensures s.shared.readyCount == |MarkedSet(s.devs)| <= cfg.N()
    ensures s.shared.suspension != Idle ==> forall d :: 0 <= d < cfg.N() ==> s.devs[d].ctl.cycles.marked
    ensures forall d :: 0 <= d < cfg.N() && AuthoritySent(s.devs[d].ctl.pc) ==>
              s.shared.IsSuspended() && forall i :: 0 <= i < cfg.N() ==> s.devs[i].ctl.pc != SendInfo
  {
    ReachableInv(cfg, s);
    CountsBounded(cfg.N(), s.devs);
    forall d | 0 <= d < cfg.N() && AuthoritySent(s.devs[d].ctl.pc)
      ensures s.shared.IsSuspended() && forall i :: 0 <= i < cfg.N() ==> s.devs[i].ctl.pc != SendInfo
    {
      assert ControlOk(cfg, s.shared, d, s.devs[d].ctl);
      AllInfoSent(cfg, s, d);
    }
  }

  lemma {:induction false} InvParts(cfg: Config, s: State)
    requires Inv(cfg, s)
    ensures BarrierOk(cfg, s) && StorageOk(cfg, s)
  {
  }

  lemma {:induction false} OpLeavesIdle(cfg: Config, sh: Shared, d: nat, c: Control, op: Op)
    requires d < cfg.N() && ControlReady(sh, d, c, op) && ControlOk(cfg, sh, d, c)
    ensures var after := SharedAfter(cfg, sh, d, c, op).suspension;
      && (sh.suspension != Idle ==> after != Idle)
      && (sh.suspension == Idle && after != Idle ==> sh.readyCount == cfg.N())
  {
  }

  lemma {:induction false} SuspensionMoves(cfg: Config, s: State, a: Action, t: State)
    requires BarrierOk(cfg, s) && Next(cfg, s, a, t)
    ensures s.shared.suspension != Idle ==> t.shared.suspension != Idle
    ensures s.shared.suspension == Idle && t.shared.suspension != Idle ==> s.shared.readyCount == cfg.N()
  {
    if a.OnDevice? {
      OpLeavesIdle(cfg, s.shared, a.d, s.devs[a.d].ctl, a.op);
    }
  }

  /** Suspension is entered at most once in a run, and only when all devices are ready. */
  lemma {:induction false} SuspendsAtMostOnce(cfg: Config, states: seq<State>, actions: seq<Action>, i: nat, j: nat)
    requires IsRun(cfg, states, actions) && i < j <= |actions|
    requires states[i].shared.suspension == Idle && states[i + 1].shared.suspension != Idle
    ensures states[j].shared.suspension != Idle
    ensures states[i].shared.readyCount == cfg.N()
    decreases j
  {
    hide Inv, BarrierOk, Step, Enabled, Sized, Init;
    RunInv(cfg, states, actions, j - 1);
    assert BarrierOk(cfg, states[j - 1]) by { InvParts(cfg, states[j - 1]); }
    SuspensionMoves(cfg, states[j - 1], actions[j - 1], states[j]);
    if j > i + 1 {
      SuspendsAtMostOnce(cfg, states, actions, i, j - 1);
    }
  }

  /** The receiver's counter is devices received minus authorities received, and its ready signal means
      exactly that every device was received and authorised, or that the connection has closed. */
  lemma {:induction false} ComposedReadiness(cfg: Config, s: State)
    requires Reachable(cfg, s)
    ensures s.dst.counter == |s.dst.received| - |s.dst.authorised|
    ensures s.dst.ready <==> s.dst.eof || (cfg.N() > 0 && s.dst.authorised == Blocks(cfg.N()))
    ensures s.dst.authorised == Blocks(cfg.N()) ==> s.dst.received == Blocks(cfg.N())
    ensures s.dst.allReceived && !s.dst.eof ==> s.dst.received == Blocks(cfg.N())
  {
    ReachableInv(cfg, s);
  }

  /* ---------------------------------------------------------------- the data */

  function GuestContent(v: Volume): map<nat, Data> { map b | b in Blocks(|v.guest|) :: v.guest[b] }

  /** In every state, with everything on the connection delivered, the destination holds the source's
      value of every block that is neither dirty nor in the batch, and serves no announced block. */
  lemma {:induction false} DataSimulation(cfg: Config, s: State, d: nat, b: nat)
    requires Reachable(cfg, s) && d < cfg.N() && b < cfg.devices[d].blocks && !s.dst.progress.Resumed?
    ensures var v, view := s.devs[d].vol, View(d, s.dst.stores[d], s.queue);
      && (b !in v.dirty && b !in v.pending && b !in v.reading ==> b in view && view[b] == v.src[b])
      && (b in v.reading || (b in v.pending && s.devs[d].ctl.pc != Announce) ==> b !in view)
  {
    ReachableInv(cfg, s);
    assert ViewOk(s.devs[d].ctl.pc, s.devs[d].vol, View(d, s.dst.stores[d], s.queue));
  }

  /** The packet that step `i` delivers. */
  ghost predicate Delivers(states: seq<State>, actions: seq<Action>, i: nat, m: Message) {
    i < |actions| && i < |states| && actions[i] == AtDestination(Deliver) && states[i].queue != [] && states[i].queue[0] == m
  }

  lemma {:induction false} DeliveredAnnouncement(cfg: Config, s: State, t: State, d: nat, blocks: set<nat>, b: nat)
    requires Inv(cfg, s) && Next(cfg, s, AtDestination(Deliver), t) && d < cfg.N()
    requires s.queue[0] == DirtyList(d, blocks) && b in blocks
    ensures b !in t.dst.stores[d]
  {
    DeliverQueue(cfg.N(), s.queue, s.dst);
  }

  lemma {:induction false} OnlyRewriteServes(cfg: Config, s: State, a: Action, t: State, d: nat, b: nat)
    requires Next(cfg, s, a, t) && d < cfg.N() && b !in s.dst.stores[d]
    requires a == AtDestination(Deliver) && s.queue[0].WriteAt? && s.queue[0].d == d ==> s.queue[0].block != b
    ensures b !in t.dst.stores[d]
  {
  }

  /** A block that was announced dirty is not served again before it has been rewritten. */
  lemma {:induction false} AnnouncedIsNotServed(
      cfg: Config, states: seq<State>, actions: seq<Action>, i: nat, d: nat, blocks: set<nat>, b: nat, j: nat)
    requires IsRun(cfg, states, actions) && i < j <= |actions| && d < cfg.N()
    requires Delivers(states, actions, i, DirtyList(d, blocks)) && b in blocks
    requires forall k, data :: i < k < j ==> !Delivers(states, actions, k, WriteAt(d, b, data))
    ensures b !in states[j].dst.stores[d]
    decreases j
  {
    hide Inv, Step, Enabled, Init;
    var s, a := states[j - 1], actions[j - 1];
    RunInv(cfg, states, actions, j - 1);
    if j - 1 == i {
      DeliveredAnnouncement(cfg, s, states[j], d, blocks, b);
    } else {
      AnnouncedIsNotServed(cfg, states, actions, i, d, blocks, b, j - 1);
      DeliverHasPacket(cfg, s, a, states[j]);
      if a == AtDestination(Deliver) && s.queue[0].WriteAt? {
        assert !Delivers(states, actions, j - 1, WriteAt(d, b, s.queue[0].data));
      }
      OnlyRewriteServes(cfg, s, a, states[j], d, b);
    }
  }

  lemma {:induction false} DeliverHasPacket(cfg: Config, s: State, a: Action, t: State)
    requires Next(cfg, s, a, t)
    ensures a == AtDestination(Deliver) ==> s.queue != []
  {
  }

  /* ----------------------------------------------------------------- drains */

  /** What of the device has not been sent. */
  function Unsent(v: Volume): set<nat> { v.dirty + v.pending + v.reading.Keys }

  function FlushSet(cfg: Config, d: nat, v: Volume, e: Effect): set<nat>
    requires d < cfg.N()
  {
    var kind := cfg.devices[d].kind;
    match e
    case NoEffect => {}
    case MsyncMemory => if kind.Memory? && !cfg.mapPrivate then v.unsynced else {}
    case StoreFile(k) =>
      if kind != k || !cfg.Reaches(k) then {}
      else if k.VmState? || cfg.mapPrivate then Blocks(|v.guest|) else v.unsynced
  }

  /** The blocks of device `i` that a step writes to its storage. */
  function Written(cfg: Config, s: State, a: Action, i: nat): set<nat>
    requires |s.devs| == cfg.N() && i < cfg.N()
  {
    if a.AtDestination? then {}
    else
      (if a.d == i then OwnWrite(cfg, i, a.op) else {}) + FlushSet(cfg, i, s.devs[i].vol, EffectOf(s.shared, a.op))
  }

  function OwnWrite(cfg: Config, i: nat, op: Op): set<nat>
    requires i < cfg.N()
  {
    if op.GuestWrite? && cfg.Direct(i) then {op.block} else if op.Writeback? then {op.block} else {}
  }

  lemma {:induction false} OwnWritten(cfg: Config, dv: Dev, d: nat, op: Op)
    requires d < cfg.N() && SyncOk(cfg.Direct(d), dv.vol) && VolumeReady(cfg, d, dv, op)
    ensures var v, after := dv.vol, VolumeAfter(cfg, d, dv, op);
      && (forall b :: 0 <= b < |v.src| && b !in OwnWrite(cfg, d, op) ==> after.src[b] == v.src[b])
      && (!op.GetLatestDirty? ==> after.pending <= v.pending && after.dirty == v.dirty + Tracked(cfg, v, OwnWrite(cfg, d, op)))
      && (!op.GuestWrite? && !op.Writeback? ==> after.unsynced == v.unsynced && after.guest == v.guest && after.src == v.src)
  {
  }

  lemma {:induction false} FlushWritten(cfg: Config, d: nat, v: Volume, e: Effect)
    requires d < cfg.N() && SyncOk(cfg.Direct(d), v)
    ensures var after := Flushed(cfg, d, v, e);
      && (forall b :: 0 <= b < |v.src| && b !in FlushSet(cfg, d, v, e) ==> after.src[b] == v.src[b])
      && after.pending == v.pending && after.dirty == v.dirty + Tracked(cfg, v, FlushSet(cfg, d, v, e))
  {
  }

  /** What the tracker records of a write: all of it, or all but what is still due to be read. */
  function Tracked(cfg: Config, v: Volume, written: set<nat>): (r: set<nat>)
    ensures r == if cfg.tracksUnread || v.pending == {} then written else set b | b in written && b !in v.pending
  {
    if cfg.tracksUnread then written else written - v.pending
  }

  /** A step changes no other block of the storage, and the tracker records exactly what is written, or
      exactly what of it is not still due to be read. */
  lemma {:induction false} WrittenIsRecorded(cfg: Config, s: State, a: Action, t: State, i: nat)
    requires StorageOk(cfg, s) && Next(cfg, s, a, t) && i < cfg.N()
    ensures forall b :: 0 <= b < |s.devs[i].vol.src| && b !in Written(cfg, s, a, i) ==> t.devs[i].vol.src[b] == s.devs[i].vol.src[b]
    ensures a != OnDevice(i, GetLatestDirty) ==>
              && t.devs[i].vol.pending <= s.devs[i].vol.pending
              && t.devs[i].vol.dirty == s.devs[i].vol.dirty + Tracked(cfg, s.devs[i].vol, Written(cfg, s, a, i))
  {
    var dv := s.devs[i];
    assert VolumeOk(cfg, i, dv.ctl.pc, dv.vol);
    if a.OnDevice? {
      OpWritten(cfg, s, a.d, a.op, i);
      assert t.devs[i] == DevAfter(cfg, s, a.d, a.op, i);
    }
  }

  lemma {:induction false} OpWritten(cfg: Config, s: State, d: nat, op: Op, i: nat)
    requires Sized(cfg, s) && d < cfg.N() && CanRun(cfg, s, d, op) && i < cfg.N()
    requires SyncOk(cfg.Direct(i), s.devs[i].vol)
    ensures var v, after, written := s.devs[i].vol, DevAfter(cfg, s, d, op, i).vol, Written(cfg, s, OnDevice(d, op), i);
      && (forall b :: 0 <= b < |v.src| && b !in written ==> after.src[b] == v.src[b])
      && (!(i == d && op.GetLatestDirty?) ==> after.pending <= v.pending && after.dirty == v.dirty + Tracked(cfg, v, written))
  {
    hide Flushed, FlushSet, VolumeAfter, OwnWrite, EffectOf, ControlReady, ControlAfter, CanFlush, VolumeReady;
    var dv, e := s.devs[i], EffectOf(s.shared, op);
    NoEffectWritesNothing(cfg, i);
    if i != d {
      FlushWritten(cfg, i, dv.vol, e);
    } else if e == NoEffect {
      OwnWritten(cfg, dv, d, op);
    } else {
      FlushersOnlyFlush(cfg, s.shared, d, dv, op);
      FlushWritten(cfg, i, dv.vol, e);
    }
  }

  lemma {:induction false} NoEffectWritesNothing(cfg: Config, d: nat)
    requires d < cfg.N()
    ensures forall v: Volume :: |v.guest| == |v.src| ==> Flushed(cfg, d, v, NoEffect) == v && FlushSet(cfg, d, v, NoEffect) == {}
  {
  }

  lemma {:induction false} FlushersOnlyFlush(cfg: Config, sh: Shared, d: nat, dv: Dev, op: Op)
    requires d < cfg.N() && VolumeReady(cfg, d, dv, op) && |dv.vol.guest| == |dv.vol.src|
    requires EffectOf(sh, op) != NoEffect
    ensures VolumeAfter(cfg, d, dv, op) == dv.vol && OwnWrite(cfg, d, op) == {}
  {
  }

  function WrittenDuring(cfg: Config, states: seq<State>, actions: seq<Action>, d: nat, lo: nat, hi: nat): set<nat>
    requires hi <= |actions| < |states| && d < cfg.N()
    requires forall k :: 0 <= k < |states| ==> Sized(cfg, states[k])
  {
    if hi <= lo then {}
    else WrittenDuring(cfg, states, actions, d, lo, hi - 1) + Written(cfg, states[hi - 1], actions[hi - 1], d)
  }

  /** Step `i` is the device's last drain before state `j`, and it returned nothing. */
  ghost predicate LastDrainWasEmpty(states: seq<State>, actions: seq<Action>, d: nat, i: nat, j: nat) {
    && i < j <= |actions| < |states|
    && actions[i] == OnDevice(d, GetLatestDirty)
    && d < |states[i].devs| && states[i].devs[d].vol.dirty == {}
    && forall k :: i < k < j ==> actions[k] != OnDevice(d, GetLatestDirty)
  }

  lemma {:induction false} EmptyDrain(cfg: Config, s: State, t: State, d: nat)
    requires Inv(cfg, s) && d < cfg.N() && Next(cfg, s, OnDevice(d, GetLatestDirty), t) && s.devs[d].vol.dirty == {}
    ensures t.devs[d].vol.pending == {} && t.devs[d].vol.dirty == {}
  {
    assert VolumeOk(cfg, d, s.devs[d].ctl.pc, s.devs[d].vol);
    assert t.devs[d] == DevAfter(cfg, s, d, GetLatestDirty, d);
  }

  lemma {:induction false} UnsentSinceDrain(cfg: Config, states: seq<State>, actions: seq<Action>, d: nat, i: nat, j: nat)
    requires IsRun(cfg, states, actions) && d < cfg.N() && LastDrainWasEmpty(states, actions, d, i, j)
    ensures states[j].devs[d].vol.pending == {}
    ensures states[j].devs[d].vol.dirty == WrittenDuring(cfg, states, actions, d, i + 1, j)
    decreases j
  {
    hide Inv, Step, Enabled, Init, Written;
    RunInv(cfg, states, actions, j - 1);
    if j - 1 == i {
      EmptyDrain(cfg, states[i], states[j], d);
    } else {
      UnsentSinceDrain(cfg, states, actions, d, i, j - 1);
      assert StorageOk(cfg, states[j - 1]) by { InvParts(cfg, states[j - 1]); }
      WrittenIsRecorded(cfg, states[j - 1], actions[j - 1], states[j], d);
    }
  }

  predicate PastEmptyDrain(pc: Pc) { pc.Unlock? || pc.CheckFlag? || LeftLoop(pc) }

  /** A device gets past its empty drain only by one. */
  lemma {:induction false} ReachesEmptyDrain(cfg: Config, s: State, a: Action, t: State, d: nat)
    requires Next(cfg, s, a, t) && d < cfg.N() && |t.devs| == cfg.N() && PastEmptyDrain(t.devs[d].ctl.pc)
    ensures if a == OnDevice(d, GetLatestDirty) then s.devs[d].vol.dirty == {} else PastEmptyDrain(s.devs[d].ctl.pc)
  {
    if a.OnDevice? {
      assert t.devs[d] == DevAfter(cfg, s, a.d, a.op, d);
      DrainedPc(cfg, s.shared, a.d, s.devs[a.d].ctl, |s.devs[a.d].vol.dirty|, a.op);
    }
  }

  /** A device past its loop has a last drain, which returned nothing. */
  lemma {:induction false} LastDrain(cfg: Config, states: seq<State>, actions: seq<Action>, d: nat, j: nat) returns (i: nat)
    requires IsRun(cfg, states, actions) && d < cfg.N() && j <= |actions|
    requires PastEmptyDrain(states[j].devs[d].ctl.pc)
    ensures LastDrainWasEmpty(states, actions, d, i, j)
    decreases j
  {
    hide Step, Enabled;
    if j == 0 {
      assert false;
    } else {
      ReachesEmptyDrain(cfg, states[j - 1], actions[j - 1], states[j], d);
      if actions[j - 1] == OnDevice(d, GetLatestDirty) {
        i := j - 1;
      } else {
        i := LastDrain(cfg, states, actions, d, j - 1);
      }
    }
  }

  /** When a device has left its loop, what it has not sent is exactly what was written to it after
      its last drain, which returned nothing. */
  lemma {:induction false} DrainExactness(cfg: Config, states: seq<State>, actions: seq<Action>, d: nat, j: nat) returns (i: nat)
    requires IsRun(cfg, states, actions) && d < cfg.N() && j <= |actions|
    requires LeftLoop(states[j].devs[d].ctl.pc)
    ensures LastDrainWasEmpty(states, actions, d, i, j)
    ensures Unsent(states[j].devs[d].vol) == WrittenDuring(cfg, states, actions, d, i + 1, j)
  {
    i := LastDrain(cfg, states, actions, d, j);
    UnsentSinceDrain(cfg, states, actions, d, i, j);
    RunInv(cfg, states, actions, j);
    assert VolumeOk(cfg, d, states[j].devs[d].ctl.pc, states[j].devs[d].vol);
  }

  /** So nothing is unsent if that drain began after the flag was set, and it did if the device's own
      call of suspendAndMsyncVM had returned before. */
  lemma {:induction false} NothingUnsentAfterSuspendedDrain(cfg: Config, s: State, d: nat)
    requires Reachable(cfg, s) && cfg.mode.Peer? && d < cfg.N()
    ensures LeftLoop(s.devs[d].ctl.pc) && s.devs[d].ctl.drainedSuspended ==> Unsent(s.devs[d].vol) == {}
    ensures s.devs[d].ctl.suspendReturned && CanRun(cfg, s, d, GetLatestDirty) ==>
              DevAfter(cfg, s, d, GetLatestDirty, d).ctl.drainedSuspended
  {
    hide CanRun, DevAfter, Unsent, Reachable;
    ReachableInv(cfg, s);
    DrainedIsSent(cfg, s, d);
    if s.devs[d].ctl.suspendReturned && CanRun(cfg, s, d, GetLatestDirty) { OwnCallReturned(cfg, s, d); }
  }

  lemma {:induction false} DrainedIsSent(cfg: Config, s: State, d: nat)
    requires Inv(cfg, s) && cfg.mode.Peer? && d < cfg.N()
    ensures LeftLoop(s.devs[d].ctl.pc) && s.devs[d].ctl.drainedSuspended ==> Unsent(s.devs[d].vol) == {}
  {
    assert DrainedOk(cfg, s.devs[d].ctl, s.devs[d].vol);
    assert VolumeOk(cfg, d, s.devs[d].ctl.pc, s.devs[d].vol);
  }

  lemma {:induction false} OwnCallReturned(cfg: Config, s: State, d: nat)
    requires BarrierOk(cfg, s) && d < cfg.N() && s.devs[d].ctl.suspendReturned && CanRun(cfg, s, d, GetLatestDirty)
    ensures DevAfter(cfg, s, d, GetLatestDirty, d).ctl.drainedSuspended
  {
    assert ControlOk(cfg, s.shared, d, s.devs[d].ctl);
  }

  /* --------------------------------------------------------------- flushing */

  /** Once the flag is up the machine is paused, and every disk holds all that the guest sees, and so do the
      state and the memory unless a private mapping stores them elsewhere. */
  lemma {:induction false} SuspendedIsFlushed(cfg: Config, s: State, d: nat)
    requires Reachable(cfg, s) && cfg.mode.Peer? && s.shared.IsSuspended() && d < cfg.N()
    ensures !s.shared.running
    ensures (match cfg.devices[d].kind
             case Disk => true
             case VmState => !cfg.mapPrivate || cfg.stateOutput == ""
             case Memory => !cfg.mapPrivate || cfg.memoryOutput == "") ==> s.devs[d].vol.src == s.devs[d].vol.guest
  {
    ReachableInv(cfg, s);
    assert StoredOk(cfg, s.shared.suspension, d, s.devs[d].vol);
    assert VolumeOk(cfg, d, s.devs[d].ctl.pc, s.devs[d].vol);
  }

  lemma {:induction false} SuspendedStep(cfg: Config, s: State, a: Action, t: State, d: nat)
    requires Inv(cfg, s) && Next(cfg, s, a, t) && d < cfg.N() && |t.devs| == cfg.N()
    requires UndisturbedStep(cfg, a) && s.shared.IsSuspended()
    ensures t.shared.IsSuspended()
    ensures t.devs[d].vol.src == s.devs[d].vol.src && t.devs[d].vol.guest == s.devs[d].vol.guest
    ensures t.devs[d].vol.dirty <= s.devs[d].vol.dirty
  {
    if a.OnDevice? {
      NoWriterWhenSuspended(cfg, s, a.d, a.op);
      QuietWhenSuspended(cfg, s, a.d, a.op, d);
      assert t.devs[d] == DevAfter(cfg, s, a.d, a.op, d);
    }
  }

  /** And whatever happens later, the storage and what the guest sees stay as they are; with a mounter, as
      long as its users do not write. */
  lemma {:induction false} SuspendedStaysQuiet(cfg: Config, states: seq<State>, actions: seq<Action>, i: nat, j: nat, d: nat)
    requires IsRun(cfg, states, actions) && i <= j <= |actions| && d < cfg.N()
    requires forall k :: i <= k < j ==> UndisturbedStep(cfg, actions[k])
    requires states[i].shared.IsSuspended()
    ensures states[j].shared.IsSuspended()
    ensures states[j].devs[d].vol.src == states[i].devs[d].vol.src
    ensures states[j].devs[d].vol.guest == states[i].devs[d].vol.guest
    ensures states[j].devs[d].vol.dirty <= states[i].devs[d].vol.dirty
    decreases j
  {
    hide Inv, Step, Enabled, Init;
    if i < j {
      SuspendedStaysQuiet(cfg, states, actions, i, j - 1, d);
      RunInv(cfg, states, actions, j - 1);
      SuspendedStep(cfg, states[j - 1], actions[j - 1], states[j], d);
    }
  }

  lemma {:induction false} PausedStep(cfg: Config, s: State, a: Action, t: State, d: nat)
    requires Next(cfg, s, a, t) && d < cfg.N() && |t.devs| == cfg.N() && !s.shared.running
    ensures !t.shared.running && t.devs[d].vol.guest == s.devs[d].vol.guest
  {
    if a.OnDevice? {
      assert t.devs[d] == DevAfter(cfg, s, a.d, a.op, d);
      UnsyncedShrinks(cfg, s.shared, a.d, s.devs[a.d], a.op);
    }
  }

  /** From the pause on the guest's content does not change, and the machine is not resumed. */
  lemma {:induction false} PausedStaysPaused(cfg: Config, states: seq<State>, actions: seq<Action>, i: nat, j: nat, d: nat)
    requires IsRun(cfg, states, actions) && i <= j <= |actions| && d < cfg.N()
    requires !states[i].shared.running
    ensures !states[j].shared.running && states[j].devs[d].vol.guest == states[i].devs[d].vol.guest
    decreases j
  {
    hide Step, Enabled, Init;
    if i < j {
      PausedStaysPaused(cfg, states, actions, i, j - 1, d);
      PausedStep(cfg, states[j - 1], actions[j - 1], states[j], d);
    }
  }

  /** Nothing that the guest writes gets to this device: it is written by a snapshot, which is stored
      elsewhere. */
  predicate Unreached(cfg: Config, d: nat)
    requires d < cfg.N()
  {
    cfg.mode.Peer? && !cfg.Reaches(cfg.devices[d].kind)
  }

  lemma {:induction false} UnreachedOp(cfg: Config, s: State, k: nat, op: Op, d: nat)
    requires Sized(cfg, s) && k < cfg.N() && d < cfg.N() && CanRun(cfg, s, k, op) && Unreached(cfg, d)
    ensures DevAfter(cfg, s, k, op, d).vol.src == s.devs[d].vol.src
  {
  }

  lemma {:induction false} UnreachedKeepsSource(cfg: Config, states: seq<State>, actions: seq<Action>, d: nat, i: nat, j: nat)
    requires IsRun(cfg, states, actions) && d < cfg.N() && Unreached(cfg, d) && i <= j <= |actions|
    ensures states[j].devs[d].vol.src == states[i].devs[d].vol.src
    decreases j
  {
    hide Step, Enabled, Init, Unreached;
    if i < j {
      UnreachedKeepsSource(cfg, states, actions, d, i, j - 1);
      UnreachedStep(cfg, states[j - 1], actions[j - 1], states[j], d);
    }
  }

  lemma {:induction false} UnreachedStep(cfg: Config, s: State, a: Action, t: State, d: nat)
    requires Next(cfg, s, a, t) && d < cfg.N() && Unreached(cfg, d) && |t.devs| == cfg.N()
    ensures t.devs[d].vol.src == s.devs[d].vol.src
  {
    if a.OnDevice? {
      UnreachedOp(cfg, s, a.d, a.op, d);
      assert t.devs[d] == DevAfter(cfg, s, a.d, a.op, d);
    }
  }

  /* ---------------------------------------------------------------- handover */

  ghost predicate AllReached(cfg: Config) {
    forall d :: 0 <= d < cfg.N() ==> cfg.Reaches(cfg.devices[d].kind)
  }

  ghost predicate AllDrainedSuspended(s: State) {
    forall d :: 0 <= d < |s.devs| ==> s.devs[d].ctl.drainedSuspended
  }

  /** A device whose authority has arrived and that its snapshot reaches is at the destination what the
      guest saw at the pause, if its last drain followed suspension. */
  lemma {:induction false} HandoverContent(cfg: Config, s: State, d: nat)
    requires Inv(cfg, s) && cfg.mode.Peer? && d < cfg.N() && cfg.Reaches(cfg.devices[d].kind)
    requires d in s.dst.authorised && !s.dst.progress.Resumed?
    requires s.devs[d].ctl.drainedSuspended
    ensures s.dst.stores[d] == GuestContent(s.devs[d].vol)
  {
    hide View, Step, Enabled;
    var c, v := s.devs[d].ctl, s.devs[d].vol;
    assert TransitOk(d, c, s.queue, s.dst);
    assert ControlOk(cfg, s.shared, d, c);
    ViewIsStore(cfg, s, d);
    assert DrainedOk(cfg, c, v);
    assert VolumeOk(cfg, d, c.pc, v);
    assert StoredOk(cfg, s.shared.suspension, d, v);
    CleanVolumeMatches(c.pc, v, s.dst.stores[d]);
  }

  lemma {:induction false} ViewIsStore(cfg: Config, s: State, d: nat)
    requires Inv(cfg, s) && d < cfg.N() && d in s.dst.authorised && !s.dst.progress.Resumed?
    ensures ViewOk(s.devs[d].ctl.pc, s.devs[d].vol, s.dst.stores[d])
  {
    assert ViewOk(s.devs[d].ctl.pc, s.devs[d].vol, View(d, s.dst.stores[d], s.queue));
    ViewOfTrailing(d, s.dst.stores[d], s.queue);
  }

  lemma {:induction false} CleanVolumeMatches(pc: Pc, v: Volume, store: map<nat, Data>)
    requires ViewOk(pc, v, store) && SyncOk(false, v)
    requires v.dirty == {} && v.unsynced == {} && BatchSent(v)
    ensures store == GuestContent(v)
  {
    assert store.Keys == Blocks(|v.guest|);
  }

  /** Once every authority has arrived, whatever becomes of the connection. */
  lemma {:induction false} EndToEndHandover(cfg: Config, s: State)
    requires Reachable(cfg, s) && cfg.mode.Peer? && cfg.N() > 0
    requires s.dst.authorised == Blocks(cfg.N()) && !s.dst.progress.Resumed? && AllDrainedSuspended(s)
    ensures s.dst.ready && !s.shared.running
    ensures forall d :: 0 <= d < cfg.N() && cfg.Reaches(cfg.devices[d].kind) ==> s.dst.stores[d] == GuestContent(s.devs[d].vol)
  {
    hide GuestContent;
    ReachableInv(cfg, s);
    assert 0 in s.dst.authorised;
    SingleOwner(cfg, s);
    forall d: nat | d < cfg.N() && cfg.Reaches(cfg.devices[d].kind)
      ensures s.dst.stores[d] == GuestContent(s.devs[d].vol)
    {
      HandoverContent(cfg, s, d);
    }
  }

  /** An authority arrives only from a source whose machine is paused. */
  lemma {:induction false} AuthorisedMeansPaused(cfg: Config, s: State, d: nat)
    requires Inv(cfg, s) && cfg.mode.Peer? && d < cfg.N() && d in s.dst.authorised
    ensures !s.shared.running
  {
    assert TransitOk(d, s.devs[d].ctl, s.queue, s.dst);
    assert ControlOk(cfg, s.shared, d, s.devs[d].ctl);
  }

  /** While the source's machine runs, no authority has arrived, and the destination is ready, as it must
      be before it returns or resumes, exactly when the connection has closed. */
  lemma {:induction false} SingleOwner(cfg: Config, s: State)
    requires Reachable(cfg, s) && cfg.mode.Peer?
    ensures s.shared.running ==> s.dst.authorised == {} && (s.dst.ready <==> s.dst.eof)
    ensures s.dst.progress.Returned? || s.dst.progress.Resumed? ==> s.dst.ready
  {
    ReachableInv(cfg, s);
    if d :| d in s.dst.authorised { AuthorisedMeansPaused(cfg, s, d); }
  }
}
