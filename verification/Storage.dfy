/** What holds between the parts of one device's data on the source: its storage, the dirty tracker,
    and the batch that the migrator is sending. */
module Storage {
  import opened Cycles
  import opened Migration
  import opened Barrier

  /** From the moment a drain is due until it returns blocks there is no batch under way. */
  predicate AtRest(pc: Pc) { pc.Drain? || pc.Unlock? || pc.CheckFlag? || pc.Authority? || pc.AwaitCompletion? || pc.Complete? || pc.Done? }

  /** A block that was read and has not changed since is still what the storage holds. */
  ghost predicate ReadingOk(v: Volume) {
    && v.pending !! v.reading.Keys
    && v.pending <= Blocks(|v.src|) && v.reading.Keys <= Blocks(|v.src|) && v.dirty <= Blocks(|v.src|)
    && forall b :: b in v.reading && b !in v.dirty ==> v.reading[b] == v.src[b]
  }

  ghost predicate BatchOk(pc: Pc, v: Volume) {
    (AtRest(pc) ==> BatchSent(v)) && (NotSending(pc) ==> v.reading == map[])
  }

  /** The guest's view and the storage differ at most where a write is not yet synced. */
  ghost predicate SyncOk(direct: bool, v: Volume) {
    && |v.guest| == |v.src|
    && v.unsynced <= Blocks(|v.src|)
    && (direct ==> v.unsynced == {})
    && forall b :: 0 <= b < |v.src| && b !in v.unsynced ==> v.guest[b] == v.src[b]
  }

  ghost predicate VolumeOk(cfg: Config, d: nat, pc: Pc, v: Volume)
    requires d < cfg.N()
  {
    ReadingOk(v) && BatchOk(pc, v) && SyncOk(cfg.Direct(d), v)
  }

  lemma {:induction false} FlushOk(cfg: Config, d: nat, pc: Pc, v: Volume, e: Effect)
    requires d < cfg.N() && VolumeOk(cfg, d, pc, v)
    ensures VolumeOk(cfg, d, pc, Flushed(cfg, d, v, e))
  {
    var after := Flushed(cfg, d, v, e);
    forall b | b in after.reading && b !in after.dirty ensures after.reading[b] == after.src[b] {
      assert b in v.reading && b !in v.dirty && b !in v.pending;
    }
  }

  lemma {:induction false} VolumeAfterOk(cfg: Config, d: nat, dv: Dev, op: Op)
    requires d < cfg.N() && VolumeReady(cfg, d, dv, op)
    requires (op.GetLatestDirty? ==> dv.ctl.pc.Drain?)
    requires ReadingOk(dv.vol) && BatchOk(dv.ctl.pc, dv.vol) && SyncOk(cfg.Direct(d), dv.vol)
    ensures ReadingOk(VolumeAfter(cfg, d, dv, op)) && SyncOk(cfg.Direct(d), VolumeAfter(cfg, d, dv, op))
  {
    var v, after := dv.vol, VolumeAfter(cfg, d, dv, op);
    if op.GuestWrite? || op.Writeback? {
      forall b | b in after.reading && b !in after.dirty ensures after.reading[b] == after.src[b] {
        assert b in v.reading && b !in v.dirty && b !in v.pending;
      }
    }
  }

  /** Which operations let a batch start or require that it has ended. */
  lemma {:induction false} BatchAfterOk(cfg: Config, sh: Shared, d: nat, dv: Dev, op: Op)
    requires d < cfg.N() && ControlReady(sh, d, dv.ctl, op) && VolumeReady(cfg, d, dv, op)
    requires ReadingOk(dv.vol) && BatchOk(dv.ctl.pc, dv.vol) && |dv.vol.guest| == |dv.vol.src|
    ensures BatchOk(ControlAfter(cfg, sh, d, dv.ctl, |dv.vol.dirty|, op).pc, VolumeAfter(cfg, d, dv, op))
  {
    assert |dv.vol.dirty| == 0 <==> dv.vol.dirty == {};
    BatchPc(cfg, sh, d, dv.ctl, |dv.vol.dirty|, op);
    hide ControlAfter, ControlReady;
  }

  lemma {:induction false} BatchPc(cfg: Config, sh: Shared, d: nat, c: Control, dirty: nat, op: Op)
    requires d < cfg.N() && ControlReady(sh, d, c, op)
    ensures var after := ControlAfter(cfg, sh, d, c, dirty, op);
      && (AtRest(after.pc) ==> (AtRest(c.pc) && (op.GetLatestDirty? ==> dirty == 0)) || op.WaitForBatch?)
      && (NotSending(after.pc) ==> NotSending(c.pc) || op.GetLatestDirty?)
    ensures (op.ReadBlock? ==> !NotSending(c.pc)) && (op.GetLatestDirty? ==> c.pc.Drain?)
  {
    hide CountCycle;
  }

  ghost predicate StorageOk(cfg: Config, s: State) {
    Sized(cfg, s) && forall d :: 0 <= d < cfg.N() ==> VolumeOk(cfg, d, s.devs[d].ctl.pc, s.devs[d].vol)
  }

  lemma {:induction false} StorageStep(cfg: Config, s: State, a: Action, t: State)
    requires StorageOk(cfg, s) && Next(cfg, s, a, t)
    ensures StorageOk(cfg, t)
  {
    if a.OnDevice? {
      var d, op := a.d, a.op;
      OpSized(cfg, s, d, op);
      VolumeAfterOk(cfg, d, s.devs[d], op);
      BatchAfterOk(cfg, s.shared, d, s.devs[d], op);
      forall i | 0 <= i < cfg.N() ensures VolumeOk(cfg, i, t.devs[i].ctl.pc, t.devs[i].vol) {
        assert t.devs[i] == DevAfter(cfg, s, d, op, i);
        FlushOk(cfg, i, t.devs[i].ctl.pc, if i == d then VolumeAfter(cfg, d, s.devs[d], op) else s.devs[i].vol, EffectOf(s.shared, op));
      }
    } else {
      assert t.devs == s.devs && |t.dst.stores| == |s.dst.stores|;
    }
  }

  lemma {:induction false} InitStorage(cfg: Config, s: State)
    requires Init(cfg, s)
    ensures StorageOk(cfg, s)
  {
    forall d | 0 <= d < cfg.N() ensures VolumeOk(cfg, d, s.devs[d].ctl.pc, s.devs[d].vol) {
      assert s.devs[d].ctl == START && InitVolume(cfg.devices[d].blocks, cfg.Direct(d), s.devs[d].vol);
    }
  }

  /** Between an empty drain and the unlock no step of anybody changes the device's storage. */
  lemma {:induction false} LockedStorageStays(cfg: Config, s: State, a: Action, t: State, d: nat)
    requires BarrierOk(cfg, s) && StorageOk(cfg, s) && Next(cfg, s, a, t) && d < cfg.N() && |t.devs| == cfg.N()
    requires s.devs[d].ctl.locked
    ensures t.devs[d].vol.src == s.devs[d].vol.src && t.devs[d].vol.dirty == s.devs[d].vol.dirty
  {
    if a.OnDevice? {
      assert ControlOk(cfg, s.shared, d, s.devs[d].ctl);
      assert t.devs[d] == DevAfter(cfg, s, a.d, a.op, d);
    }
  }
}
