/** What suspension leaves behind on the source: a paused machine whose content has reached the
    devices, and storage that nothing writes any more. */
module Layering {
  import opened Migration
  import opened Barrier
  import opened Storage

  predicate PausedBy(x: Suspension) {
    x.Suspended? || (x.InProgress? && x.stage != CloseAgent && x.stage != Pause)
  }

  /** The suspension has come past storing the snapshot file of this kind of device. */
  predicate StoredBy(x: Suspension, kind: Kind) {
    match kind
    case Disk => true
    case VmState => x.Suspended? || (x.InProgress? && (x.stage.FlushMemory? || x.stage.FinalMsync? || x.stage.RaiseFlag?))
    case Memory => x.Suspended? || (x.InProgress? && (x.stage.FinalMsync? || x.stage.RaiseFlag?))
  }

  /** A device that a snapshot reaches has nothing unsynced once its file has been stored. */
  ghost predicate StoredOk(cfg: Config, x: Suspension, d: nat, v: Volume)
    requires d < cfg.N()
  {
    StoredBy(x, cfg.devices[d].kind) && cfg.Reaches(cfg.devices[d].kind) ==> v.unsynced == {}
  }

  ghost predicate LayeringOk(cfg: Config, s: State) {
    && Sized(cfg, s)
    && (cfg.mode.Peer? ==>
          && (PausedBy(s.shared.suspension) ==> !s.shared.running)
          && forall d :: 0 <= d < cfg.N() ==> StoredOk(cfg, s.shared.suspension, d, s.devs[d].vol))
  }

  /** After a pause no write of the guest adds to what is unsynced, and a flush only removes. */
  lemma {:induction false} UnsyncedShrinks(cfg: Config, sh: Shared, d: nat, dv: Dev, op: Op)
    requires d < cfg.N() && ControlReady(sh, d, dv.ctl, op) && VolumeReady(cfg, d, dv, op)
    requires |dv.vol.guest| == |dv.vol.src| && !sh.running
    ensures VolumeAfter(cfg, d, dv, op).unsynced <= dv.vol.unsynced
    ensures VolumeAfter(cfg, d, dv, op).guest == dv.vol.guest
  {
  }

  lemma {:induction false} FlushShrinks(cfg: Config, d: nat, v: Volume, e: Effect)
    requires d < cfg.N() && |v.guest| == |v.src|
    ensures Flushed(cfg, d, v, e).unsynced <= v.unsynced
    ensures e == StoreFile(cfg.devices[d].kind) && cfg.Reaches(cfg.devices[d].kind) ==> Flushed(cfg, d, v, e).unsynced == {}
  {
  }

  /** How one operation moves the suspension. */
  lemma {:induction false} OpSuspension(cfg: Config, sh: Shared, d: nat, c: Control, op: Op, kind: Kind)
    requires d < cfg.N() && ControlReady(sh, d, c, op) && cfg.mode.Peer?
    requires PausedBy(sh.suspension) ==> !sh.running
    ensures var u := SharedAfter(cfg, sh, d, c, op);
      && (u.running ==> sh.running)
      && (PausedBy(u.suspension) ==> !u.running)
      && (!kind.Disk? && StoredBy(u.suspension, kind) ==>
            !sh.running && (StoredBy(sh.suspension, kind) || EffectOf(sh, op) == StoreFile(kind)))
  {
  }

  lemma {:induction false} OpStored(cfg: Config, s: State, d: nat, op: Op, i: nat)
    requires StorageOk(cfg, s) && LayeringOk(cfg, s) && cfg.mode.Peer?
    requires d < cfg.N() && i < cfg.N() && CanRun(cfg, s, d, op)
    ensures StoredOk(cfg, SharedAfter(cfg, s.shared, d, s.devs[d].ctl, op).suspension, i, DevAfter(cfg, s, d, op, i).vol)
  {
    var kind, e := cfg.devices[i].kind, EffectOf(s.shared, op);
    assert VolumeOk(cfg, i, s.devs[i].ctl.pc, s.devs[i].vol) && VolumeOk(cfg, d, s.devs[d].ctl.pc, s.devs[d].vol);
    assert StoredOk(cfg, s.shared.suspension, i, s.devs[i].vol);
    OpSuspension(cfg, s.shared, d, s.devs[d].ctl, op, kind);
    VolumeAfterOk(cfg, d, s.devs[d], op);
    if !kind.Disk? && !s.shared.running {
      UnsyncedShrinks(cfg, s.shared, d, s.devs[d], op);
    }
    FlushShrinks(cfg, i, if i == d then VolumeAfter(cfg, d, s.devs[d], op) else s.devs[i].vol, e);
  }

  lemma {:induction false} LayeringStep(cfg: Config, s: State, a: Action, t: State)
    requires StorageOk(cfg, s) && LayeringOk(cfg, s) && Next(cfg, s, a, t)
    ensures LayeringOk(cfg, t)
  {
    if a.OnDevice? {
      OpSized(cfg, s, a.d, a.op);
      if cfg.mode.Peer? {
        OpSuspension(cfg, s.shared, a.d, s.devs[a.d].ctl, a.op, Disk);
        forall i | 0 <= i < cfg.N() ensures StoredOk(cfg, t.shared.suspension, i, t.devs[i].vol) {
          assert t.devs[i] == DevAfter(cfg, s, a.d, a.op, i);
          OpStored(cfg, s, a.d, a.op, i);
        }
      }
    } else {
      assert t.devs == s.devs && t.shared == s.shared && |t.dst.stores| == |s.dst.stores|;
    }
  }

  lemma {:induction false} InitLayering(cfg: Config, s: State)
    requires Init(cfg, s)
    ensures LayeringOk(cfg, s)
  {
    forall d | 0 <= d < cfg.N() ensures |s.devs[d].vol.guest| == |s.devs[d].vol.src| == cfg.devices[d].blocks
      && StoredOk(cfg, s.shared.suspension, d, s.devs[d].vol)
    {
      assert s.devs[d].ctl == START && InitVolume(cfg.devices[d].blocks, cfg.Direct(d), s.devs[d].vol);
    }
  }

  /** A paused guest does not write; where nothing pauses it, it may still leave the devices alone. */
  predicate Undisturbed(cfg: Config, op: Op) { cfg.mode.Peer? || !op.GuestWrite? }

  predicate UndisturbedStep(cfg: Config, a: Action) { a.OnDevice? ==> Undisturbed(cfg, a.op) }

  /** Once the flag is up, the operations that write a source device can no longer run: the guest is
      paused, nothing is left to write back, and the goroutine that holds the lock to sync the memory
      tested the flag under that lock. */
  lemma {:induction false} NoWriterWhenSuspended(cfg: Config, s: State, d: nat, op: Op)
    requires BarrierOk(cfg, s) && LayeringOk(cfg, s) && Undisturbed(cfg, op) && s.shared.IsSuspended()
    requires d < cfg.N() && CanRun(cfg, s, d, op)
    ensures EffectOf(s.shared, op) == NoEffect && !op.GuestWrite? && !op.Writeback? && !op.SuspendStep?
    ensures SharedAfter(cfg, s.shared, d, s.devs[d].ctl, op).suspension == Suspended
  {
    assert ControlOk(cfg, s.shared, d, s.devs[d].ctl);
    assert cfg.mode.Peer? ==> StoredOk(cfg, s.shared.suspension, d, s.devs[d].vol);
  }

  lemma {:induction false} NonWriterKeeps(cfg: Config, d: nat, dv: Dev, op: Op)
    requires d < cfg.N() && VolumeReady(cfg, d, dv, op) && |dv.vol.guest| == |dv.vol.src|
    requires !op.GuestWrite? && !op.Writeback?
    ensures var after := VolumeAfter(cfg, d, dv, op);
      after.src == dv.vol.src && after.guest == dv.vol.guest && after.dirty <= dv.vol.dirty
  {
  }

  /** So no step changes a device's storage or what its guest sees, and the tracker records nothing. */
  lemma {:induction false} QuietWhenSuspended(cfg: Config, s: State, d: nat, op: Op, i: nat)
    requires BarrierOk(cfg, s) && LayeringOk(cfg, s) && Undisturbed(cfg, op) && s.shared.IsSuspended()
    requires d < cfg.N() && i < cfg.N() && CanRun(cfg, s, d, op)
    ensures var v, after := s.devs[i].vol, DevAfter(cfg, s, d, op, i).vol;
      after.src == v.src && after.guest == v.guest && after.dirty <= v.dirty
  {
    NoWriterWhenSuspended(cfg, s, d, op);
    NonWriterKeeps(cfg, d, s.devs[d], op);
  }

  /** A drain that began after suspension and returned nothing leaves nothing to send. */
  ghost predicate DrainedOk(cfg: Config, c: Control, v: Volume) {
    cfg.mode.Peer? && c.drainedSuspended && (c.pc.Unlock? || c.pc.CheckFlag? || LeftLoop(c.pc)) ==> v.dirty == {}
  }

  ghost predicate DrainsOk(cfg: Config, s: State) {
    Sized(cfg, s) && forall d :: 0 <= d < cfg.N() ==> DrainedOk(cfg, s.devs[d].ctl, s.devs[d].vol)
  }

  lemma {:induction false} DrainedPc(cfg: Config, sh: Shared, d: nat, c: Control, dirty: nat, op: Op)
    requires d < cfg.N() && ControlReady(sh, d, c, op)
    ensures var after := ControlAfter(cfg, sh, d, c, dirty, op);
      (after.pc.Unlock? || after.pc.CheckFlag? || LeftLoop(after.pc)) ==>
        if op.GetLatestDirty? then dirty == 0 && after.drainedSuspended == sh.IsSuspended()
        else (c.pc.Unlock? || c.pc.CheckFlag? || LeftLoop(c.pc)) && after.drainedSuspended == c.drainedSuspended
  {
  }

  lemma {:induction false} OpDrained(cfg: Config, s: State, d: nat, op: Op, i: nat)
    requires BarrierOk(cfg, s) && LayeringOk(cfg, s) && d < cfg.N() && i < cfg.N() && CanRun(cfg, s, d, op)
    requires DrainedOk(cfg, s.devs[i].ctl, s.devs[i].vol)
    ensures DrainedOk(cfg, DevAfter(cfg, s, d, op, i).ctl, DevAfter(cfg, s, d, op, i).vol)
  {
    assert ControlOk(cfg, s.shared, i, s.devs[i].ctl);
    DrainedPc(cfg, s.shared, d, s.devs[d].ctl, |s.devs[d].vol.dirty|, op);
    if cfg.mode.Peer? && s.shared.IsSuspended() {
      QuietWhenSuspended(cfg, s, d, op, i);
    }
  }

  lemma {:induction false} DrainsStep(cfg: Config, s: State, a: Action, t: State)
    requires BarrierOk(cfg, s) && LayeringOk(cfg, s) && DrainsOk(cfg, s) && Next(cfg, s, a, t)
    ensures DrainsOk(cfg, t)
  {
    if a.OnDevice? {
      OpSized(cfg, s, a.d, a.op);
      forall i | 0 <= i < cfg.N() ensures DrainedOk(cfg, t.devs[i].ctl, t.devs[i].vol) {
        assert t.devs[i] == DevAfter(cfg, s, a.d, a.op, i);
        OpDrained(cfg, s, a.d, a.op, i);
      }
    } else {
      assert t.devs == s.devs && |t.dst.stores| == |s.dst.stores|;
    }
  }
}
