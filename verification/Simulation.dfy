/** The data on its way: what the destination's store becomes once everything on the connection is
    delivered, compared with the source's storage. */
module Simulation {
  import opened Migration
  import opened Barrier
  import opened Storage
  import opened Connection

  /** What one packet does to the store of device `d`. */
  function Apply(d: nat, store: map<nat, Data>, m: Message): map<nat, Data> {
    if m.d != d then store
    else match m
      case WriteAt(_, b, v) => Put(store, b, v)
      case DirtyList(_, bs) => store - bs
      case _ => store
  }

  /** The store of device `d` once the packets `q` are delivered. */
  function View(d: nat, store: map<nat, Data>, q: seq<Message>): map<nat, Data>
    decreases |q|
  {
    if q == [] then store else View(d, Apply(d, store, q[0]), q[1..])
  }

  lemma {:induction false} ViewAppend(d: nat, store: map<nat, Data>, q: seq<Message>, m: Message)
    ensures View(d, store, q + [m]) == Apply(d, View(d, store, q), m)
    decreases |q|
  {
    if q == [] {
      assert ([] + [m])[1..] == [];
    } else {
      assert (q + [m])[1..] == q[1..] + [m];
      ViewAppend(d, Apply(d, store, q[0]), q[1..], m);
    }
  }

  lemma {:induction false} ViewAfterSend(d: nat, store: map<nat, Data>, q: seq<Message>, sent: seq<Message>)
    requires |sent| <= 1
    ensures View(d, store, q + sent) == ViewWith(d, View(d, store, q), sent)
  {
    if sent == [] { assert q + sent == q; } else { assert sent == [sent[0]]; ViewAppend(d, store, q, sent[0]); }
  }

  /** A block that is neither recorded as dirty nor part of the batch is already as on the source;
      a block of an announced batch is not served. */
  ghost predicate ViewOk(pc: Pc, v: Volume, view: map<nat, Data>) {
    && view.Keys <= Blocks(|v.src|)
    && (forall b :: b in v.reading ==> b !in view)
    && (!pc.Announce? ==> forall b :: b in v.pending ==> b !in view)
    && (forall b :: 0 <= b < |v.src| && b !in v.pending && b !in v.reading && b !in v.dirty ==> b in view && view[b] == v.src[b])
  }

  lemma {:induction false} FlushView(cfg: Config, d: nat, pc: Pc, v: Volume, e: Effect, view: map<nat, Data>)
    requires d < cfg.N() && VolumeOk(cfg, d, pc, v) && ViewOk(pc, v, view)
    ensures ViewOk(pc, Flushed(cfg, d, v, e), view)
  {
  }

  lemma {:induction false} ReadView(pc: Pc, v: Volume, b: nat, view: map<nat, Data>)
    requires ReadingOk(v) && ViewOk(pc, v, view) && b in v.pending && !NotSending(pc)
    ensures ViewOk(pc, v.(pending := v.pending - {b}, reading := Put(v.reading, b, v.src[b])), view)
  {
  }

  lemma {:induction false} SendView(pc: Pc, v: Volume, b: nat, view: map<nat, Data>)
    requires ReadingOk(v) && ViewOk(pc, v, view) && b in v.reading
    ensures ViewOk(pc, v.(reading := v.reading - {b}), Put(view, b, v.reading[b]))
  {
  }

  lemma {:induction false} DrainView(v: Volume, view: map<nat, Data>)
    requires ReadingOk(v) && ViewOk(Drain, v, view) && BatchSent(v)
    ensures ViewOk(Announce, v.(pending := v.dirty, dirty := {}), view)
    ensures v.dirty == {} ==> ViewOk(Unlock, v, view)
  {
  }

  lemma {:induction false} AnnounceView(v: Volume, view: map<nat, Data>)
    requires ReadingOk(v) && ViewOk(Announce, v, view)
    ensures ViewOk(Throttle, v, view - v.pending)
  {
  }

  lemma {:induction false} WriteView(cfg: Config, pc: Pc, v: Volume, direct: bool, b: nat, data: Data, view: map<nat, Data>)
    requires |v.guest| == |v.src| && b < |v.src| && ViewOk(pc, v, view)
    ensures ViewOk(pc, WriteGuest(cfg, v, direct, b, data), view)
    ensures ViewOk(pc, WritebackBlock(cfg, v, b), view)
  {
  }

  function ViewWith(d: nat, view: map<nat, Data>, sent: seq<Message>): map<nat, Data> {
    if sent == [] then view else Apply(d, view, sent[0])
  }

  predicate TouchesView(op: Op) {
    op.ReadBlock? || op.SendBlock? || op.GetLatestDirty? || op.GuestWrite? || op.Writeback? || op.SendDirtyList?
  }

  lemma {:induction false} DataOpView(cfg: Config, sh: Shared, d: nat, dv: Dev, op: Op, view: map<nat, Data>)
    requires d < cfg.N() && ControlReady(sh, d, dv.ctl, op) && VolumeReady(cfg, d, dv, op)
    requires VolumeOk(cfg, d, dv.ctl.pc, dv.vol) && ViewOk(dv.ctl.pc, dv.vol, view)
    requires op.GetLatestDirty? || op.GuestWrite? || op.Writeback?
    ensures ViewOk(ControlAfter(cfg, sh, d, dv.ctl, |dv.vol.dirty|, op).pc, VolumeAfter(cfg, d, dv, op),
                   ViewWith(d, view, Sent(d, dv.vol, op)))
  {
    var pc, v := dv.ctl.pc, dv.vol;
    match op
    case GetLatestDirty => assert |v.dirty| == 0 <==> v.dirty == {}; DrainView(v, view);
    case GuestWrite(b, x) => WriteView(cfg, pc, v, cfg.Direct(d), b, x, view);
    case Writeback(b) => WriteView(cfg, pc, v, false, b, 0, view);
  }

  lemma {:induction false} BatchOpView(cfg: Config, sh: Shared, d: nat, dv: Dev, op: Op, view: map<nat, Data>)
    requires d < cfg.N() && ControlReady(sh, d, dv.ctl, op) && VolumeReady(cfg, d, dv, op)
    requires VolumeOk(cfg, d, dv.ctl.pc, dv.vol) && ViewOk(dv.ctl.pc, dv.vol, view)
    requires op.ReadBlock? || op.SendBlock? || op.SendDirtyList?
    ensures ViewOk(ControlAfter(cfg, sh, d, dv.ctl, |dv.vol.dirty|, op).pc, VolumeAfter(cfg, d, dv, op),
                   ViewWith(d, view, Sent(d, dv.vol, op)))
  {
    var pc, v := dv.ctl.pc, dv.vol;
    match op
    case ReadBlock(b) => ReadView(pc, v, b, view);
    case SendBlock(b) => SendView(pc, v, b, view);
    case SendDirtyList => AnnounceView(v, view);
  }

  lemma {:induction false} OtherOpView(cfg: Config, sh: Shared, d: nat, dv: Dev, op: Op, view: map<nat, Data>)
    requires d < cfg.N() && ControlReady(sh, d, dv.ctl, op) && VolumeReady(cfg, d, dv, op)
    requires VolumeOk(cfg, d, dv.ctl.pc, dv.vol) && ViewOk(dv.ctl.pc, dv.vol, view)
    requires !TouchesView(op)
    ensures ViewOk(ControlAfter(cfg, sh, d, dv.ctl, |dv.vol.dirty|, op).pc, VolumeAfter(cfg, d, dv, op),
                   ViewWith(d, view, Sent(d, dv.vol, op)))
  {
    OpLeavesAnnounce(cfg, sh, d, dv.ctl, |dv.vol.dirty|, op);
    OtherOps(cfg, d, dv, op, view);
  }

  lemma {:induction false} OpView(cfg: Config, sh: Shared, d: nat, dv: Dev, op: Op, view: map<nat, Data>)
    requires d < cfg.N() && ControlReady(sh, d, dv.ctl, op) && VolumeReady(cfg, d, dv, op)
    requires VolumeOk(cfg, d, dv.ctl.pc, dv.vol) && ViewOk(dv.ctl.pc, dv.vol, view)
    ensures ViewOk(ControlAfter(cfg, sh, d, dv.ctl, |dv.vol.dirty|, op).pc, VolumeAfter(cfg, d, dv, op),
                   ViewWith(d, view, Sent(d, dv.vol, op)))
  {
    if !TouchesView(op) {
      OtherOpView(cfg, sh, d, dv, op, view);
    } else if op.ReadBlock? || op.SendBlock? || op.SendDirtyList? {
      BatchOpView(cfg, sh, d, dv, op, view);
    } else {
      DataOpView(cfg, sh, d, dv, op, view);
    }
  }

  lemma {:induction false} OtherOps(cfg: Config, d: nat, dv: Dev, op: Op, view: map<nat, Data>)
    requires d < cfg.N() && VolumeReady(cfg, d, dv, op) && |dv.vol.guest| == |dv.vol.src|
    requires !TouchesView(op)
    ensures VolumeAfter(cfg, d, dv, op) == dv.vol
    ensures forall m :: m in Sent(d, dv.vol, op) ==> Apply(d, view, m) == view
  {
  }

  lemma {:induction false} OpLeavesAnnounce(cfg: Config, sh: Shared, d: nat, c: Control, dirty: nat, op: Op)
    requires d < cfg.N() && ControlReady(sh, d, c, op) && !op.SendDirtyList? && !op.GetLatestDirty?
    ensures c.pc.Announce? <==> ControlAfter(cfg, sh, d, c, dirty, op).pc.Announce?
  {
  }

  ghost predicate SimulationOk(cfg: Config, s: State) {
    && Sized(cfg, s)
    && (!s.dst.progress.Resumed? ==>
          forall d :: 0 <= d < cfg.N() ==> ViewOk(s.devs[d].ctl.pc, s.devs[d].vol, View(d, s.dst.stores[d], s.queue)))
  }

  lemma {:induction false} OpSimulation(cfg: Config, s: State, d: nat, op: Op)
    requires StorageOk(cfg, s) && SimulationOk(cfg, s) && d < cfg.N() && CanRun(cfg, s, d, op)
    ensures SimulationOk(cfg, RunOp(cfg, s, d, op))
  {
    var t := RunOp(cfg, s, d, op);
    var sent := Sent(d, s.devs[d].vol, op);
    OpSized(cfg, s, d, op);
    SentMembers(d, s.devs[d].vol, op);
    VolumeAfterOk(cfg, d, s.devs[d], op);
    BatchAfterOk(cfg, s.shared, d, s.devs[d], op);
    if !s.dst.progress.Resumed? {
      forall i | 0 <= i < cfg.N() ensures ViewOk(t.devs[i].ctl.pc, t.devs[i].vol, View(i, t.dst.stores[i], t.queue)) {
        var view := View(i, s.dst.stores[i], s.queue);
        assert ViewOk(s.devs[i].ctl.pc, s.devs[i].vol, view);
        ViewAfterSend(i, s.dst.stores[i], s.queue, sent);
        var after := if i == d then VolumeAfter(cfg, d, s.devs[d], op) else s.devs[i].vol;
        assert t.devs[i] == DevAfter(cfg, s, d, op, i);
        if i == d {
          OpView(cfg, s.shared, d, s.devs[d], op, view);
        } else {
          assert sent != [] ==> sent[0].d == d;
        }
        FlushView(cfg, i, t.devs[i].ctl.pc, after, EffectOf(s.shared, op), View(i, t.dst.stores[i], t.queue));
      }
    }
  }

  /** Delivering a packet changes nothing of what the destination's store becomes in the end. */
  lemma {:induction false} DeliverView(cfg: Config, s: State, d: nat)
    requires ConnectionOk(cfg, s) && CanHappen(s, Deliver) && d < cfg.N()
    ensures View(d, Receive(s.dst, s.queue[0]).stores[d], s.queue[1..]) == View(d, s.dst.stores[d], s.queue)
  {
    assert s.queue[0].d < cfg.N() && (!s.queue[0].DevInfo? ==> s.queue[0].d in s.dst.received) by {
      DeliverQueue(cfg.N(), s.queue, s.dst);
    }
    hide ConnectionOk;
    ReceiveApplies(s.dst, s.queue[0], d);
    hide Receive, Apply;
  }

  lemma {:induction false} ReceiveApplies(dst: Destination, m: Message, d: nat)
    requires m.d < |dst.stores| && d < |dst.stores| && (!m.DevInfo? ==> m.d in dst.received)
    ensures |Receive(dst, m).stores| == |dst.stores| && Receive(dst, m).stores[d] == Apply(d, dst.stores[d], m)
  {
  }

  lemma {:induction false} EventSimulation(cfg: Config, s: State, e: Event)
    requires ConnectionOk(cfg, s) && SimulationOk(cfg, s) && CanHappen(s, e)
    ensures SimulationOk(cfg, Happen(s, e))
  {
    if e.Deliver? {
      assert |Receive(s.dst, s.queue[0]).stores| == |s.dst.stores|;
      forall d | 0 <= d < cfg.N()
        ensures View(d, Receive(s.dst, s.queue[0]).stores[d], s.queue[1..]) == View(d, s.dst.stores[d], s.queue)
      {
        DeliverView(cfg, s, d);
      }
    }
  }

  lemma {:induction false} SimulationStep(cfg: Config, s: State, a: Action, t: State)
    requires StorageOk(cfg, s) && ConnectionOk(cfg, s) && SimulationOk(cfg, s) && Next(cfg, s, a, t)
    ensures SimulationOk(cfg, t)
  {
    match a
    case OnDevice(d, op) => OpSimulation(cfg, s, d, op);
    case AtDestination(e) => EventSimulation(cfg, s, e);
  }

  lemma {:induction false} InitSimulation(cfg: Config, s: State)
    requires Init(cfg, s)
    ensures SimulationOk(cfg, s)
  {
    forall d | 0 <= d < cfg.N() ensures ViewOk(s.devs[d].ctl.pc, s.devs[d].vol, View(d, s.dst.stores[d], s.queue)) {
      assert s.devs[d].ctl == START && InitVolume(cfg.devices[d].blocks, cfg.Direct(d), s.devs[d].vol);
    }
  }

  /** Once nothing but trailing packets is on its way, the store is final. */
  lemma {:induction false} ViewOfTrailing(d: nat, store: map<nat, Data>, q: seq<Message>)
    requires forall i :: 0 <= i < |q| && q[i].d == d ==> AfterAuthority(q[i])
    ensures View(d, store, q) == store
    decreases |q|
  {
    if q != [] {
      assert forall i :: 0 <= i < |q[1..]| ==> q[1..][i] == q[i + 1];
      ViewOfTrailing(d, Apply(d, store, q[0]), q[1..]);
    }
  }
}
