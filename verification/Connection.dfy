/** The connection and the receiver's counter. The connection delivers in order; what is proved here
    is that the sender's barrier makes the receiver's two signals mean what they say. */
module Connection {
  import opened Cycles
  import opened Migration
  import opened Barrier
  import opened Storage

  predicate AuthoritySent(pc: Pc) { pc.AwaitCompletion? || pc.Complete? || pc.Done? }

  /** A packet that is sent only once every device has been announced. */
  predicate Fence(m: Message) { m.AllSent? || m.TransferAuthority? }

  /** A packet that may follow a device's authority. */
  predicate AfterAuthority(m: Message) { m.Completed? || m.AllSent? }

  ghost predicate QueueOk(n: nat, q: seq<Message>) {
    && (forall i :: 0 <= i < |q| ==> q[i].d < n)
    && (forall i, j :: 0 <= i < j < |q| && (q[i].DevInfo? || q[i].TransferAuthority?) ==> q[i] != q[j])
    && (forall i, j :: 0 <= i < j < |q| && Fence(q[i]) ==> !q[j].DevInfo?)
    && (forall i, j :: 0 <= i < j < |q| && q[i].TransferAuthority? && q[j].d == q[i].d ==> AfterAuthority(q[j]))
  }

  /** Every packet but its DevInfo finds the device known to the receiver. */
  ghost predicate Introduced(q: seq<Message>, received: set<nat>) {
    forall i :: 0 <= i < |q| && !q[i].DevInfo? ==> q[i].d in received || DevInfo(q[i].d) in q[..i]
  }

  /** Where one device's packets are: not sent, on the connection, or received. */
  ghost predicate TransitOk(d: nat, c: Control, q: seq<Message>, dst: Destination) {
    && (DevInfo(d) in q ==> c.pc != SendInfo && d !in dst.received)
    && (d in dst.received ==> c.pc != SendInfo)
    && (c.pc != SendInfo ==> d in dst.received || DevInfo(d) in q)
    && (TransferAuthority(d) in q ==> AuthoritySent(c.pc) && d !in dst.authorised)
    && (d in dst.authorised ==> AuthoritySent(c.pc))
    && (AuthoritySent(c.pc) ==> d in dst.authorised || TransferAuthority(d) in q)
    && (AllSent(d) in q ==> c.announcement == Announced)
    && (c.announcement == Announced ==> AllSent(d) in q || dst.allReceived)
  }

  ghost predicate Closed(q: seq<Message>, authorised: set<nat>) {
    forall i :: 0 <= i < |q| && q[i].d in authorised ==> AfterAuthority(q[i])
  }

  ghost predicate ReceiverOk(n: nat, dst: Destination) {
    && dst.authorised <= dst.received <= Blocks(n)
    && dst.counter == |dst.received| - |dst.authorised|
    && (dst.authorised != {} || (dst.allReceived && !dst.eof) ==> dst.received == Blocks(n))
    && (dst.ready && !dst.eof ==> dst.authorised == Blocks(n) && n > 0)
    && (dst.authorised == Blocks(n) && n > 0 ==> dst.ready)
    && (dst.eof ==> dst.ready && dst.allReceived)
    && (dst.progress != WaitReceived ==> dst.allReceived)
    && (dst.progress.Returned? || dst.progress.Resumed? ==> dst.ready)
  }

  ghost predicate ConnectionOk(cfg: Config, s: State) {
    && Sized(cfg, s)
    && QueueOk(cfg.N(), s.queue)
    && Introduced(s.queue, s.dst.received)
    && Closed(s.queue, s.dst.authorised)
    && ReceiverOk(cfg.N(), s.dst)
    && forall d :: 0 <= d < cfg.N() ==> TransitOk(d, s.devs[d].ctl, s.queue, s.dst)
  }

  /** The sender's barrier: once a fence is on its way, every DevInfo has been sent. */
  lemma {:induction false} FenceMeansAllInfoSent(cfg: Config, s: State, m: Message)
    requires BarrierOk(cfg, s) && ConnectionOk(cfg, s)
    requires m in s.queue && Fence(m)
    ensures forall d :: 0 <= d < cfg.N() ==> s.devs[d].ctl.pc != SendInfo
  {
    assert m.d < cfg.N() && ControlOk(cfg, s.shared, m.d, s.devs[m.d].ctl) && TransitOk(m.d, s.devs[m.d].ctl, s.queue, s.dst);
    AllInfoSent(cfg, s, m.d);
  }

  lemma {:induction false} AllInfoSent(cfg: Config, s: State, d: nat)
    requires BarrierOk(cfg, s) && d < cfg.N()
    requires s.devs[d].ctl.announcement != NotDue || LeftLoop(s.devs[d].ctl.pc)
    ensures forall i :: 0 <= i < cfg.N() ==> s.devs[i].ctl.pc != SendInfo
  {
    CountsBounded(cfg.N(), s.devs);
    assert ControlOk(cfg, s.shared, d, s.devs[d].ctl);
    forall i | 0 <= i < cfg.N() ensures s.devs[i].ctl.pc != SendInfo {
      assert ControlOk(cfg, s.shared, i, s.devs[i].ctl);
    }
  }

  /* --------------------------------------------------------------- deliver */

  lemma {:induction false} DeliverQueue(n: nat, q: seq<Message>, dst: Destination)
    requires q != [] && QueueOk(n, q) && Introduced(q, dst.received) && Closed(q, dst.authorised) && |dst.stores| == n
    ensures QueueOk(n, q[1..])
    ensures Introduced(q[1..], Receive(dst, q[0]).received)
    ensures Closed(q[1..], Receive(dst, q[0]).authorised)
    ensures !q[0].DevInfo? ==> q[0].d in dst.received
  {
    var rest := q[1..];
    assert forall i :: 0 <= i < |rest| ==> rest[i] == q[i + 1];
    forall i | 0 <= i < |rest| && !rest[i].DevInfo?
      ensures rest[i].d in Receive(dst, q[0]).received || DevInfo(rest[i].d) in rest[..i]
    {
      assert q[..i + 1] == [q[0]] + rest[..i];
    }
  }

  lemma {:induction false} DeliverTransit(d: nat, c: Control, q: seq<Message>, dst: Destination, n: nat)
    requires q != [] && q[0].d < n == |dst.stores| && d < n
    requires QueueOk(n, q) && TransitOk(d, c, q, dst)
    ensures TransitOk(d, c, q[1..], Receive(dst, q[0]))
  {
    assert q == [q[0]] + q[1..];
  }

  /** What a packet must bring with it for the receiver's bookkeeping to stay right. */
  ghost predicate Welcome(n: nat, dst: Destination, m: Message) {
    && m.d < n == |dst.stores|
    && (m.DevInfo? ==> m.d !in dst.received && dst.authorised == {} && (dst.allReceived ==> dst.eof))
    && (m.TransferAuthority? ==> m.d !in dst.authorised)
    && (Fence(m) ==> dst.received == Blocks(n))
  }

  lemma {:induction false} WelcomeReceiver(n: nat, dst: Destination, m: Message)
    requires ReceiverOk(n, dst) && Welcome(n, dst, m) && !dst.eof
    ensures ReceiverOk(n, Receive(dst, m))
  {
    var after := Receive(dst, m);
    assert m.d in Blocks(n);
    FullSet(after.received, n);
    FullSet(after.authorised, n);
  }

  lemma {:induction false} DeliveredIsWelcome(cfg: Config, s: State)
    requires BarrierOk(cfg, s) && ConnectionOk(cfg, s) && CanHappen(s, Deliver)
    ensures Welcome(cfg.N(), s.dst, s.queue[0])
  {
    var m, dst := s.queue[0], s.dst;
    hide BarrierOk, Introduced, Closed;
    assert m in s.queue && TransitOk(m.d, s.devs[m.d].ctl, s.queue, dst);
    if m.DevInfo? {
      assert m.d in Blocks(cfg.N());
    }
    if Fence(m) {
      FenceMeansAllInfoSent(cfg, s, m);
      forall d: nat | d < cfg.N() ensures d in dst.received {
        assert TransitOk(d, s.devs[d].ctl, s.queue, dst);
      }
      assert dst.received == Blocks(cfg.N());
    }
  }

  lemma {:induction false} DeliverReceiver(cfg: Config, s: State)
    requires BarrierOk(cfg, s) && ConnectionOk(cfg, s) && CanHappen(s, Deliver)
    ensures ReceiverOk(cfg.N(), Receive(s.dst, s.queue[0]))
  {
    hide BarrierOk, QueueOk, Introduced, Closed, TransitOk, Receive, Welcome;
    DeliveredIsWelcome(cfg, s);
    WelcomeReceiver(cfg.N(), s.dst, s.queue[0]);
  }

  lemma {:induction false} ReceiveSized(dst: Destination, m: Message)
    requires m.d < |dst.stores|
    ensures |Receive(dst, m).stores| == |dst.stores|
  {
  }

  lemma {:induction false} DeliverConnection(cfg: Config, s: State)
    requires BarrierOk(cfg, s) && ConnectionOk(cfg, s) && CanHappen(s, Deliver)
    ensures ConnectionOk(cfg, Happen(s, Deliver))
  {
    hide BarrierOk, QueueOk, Introduced, Closed, ReceiverOk, TransitOk, Receive;
    DeliverQueue(cfg.N(), s.queue, s.dst);
    DeliverReceiver(cfg, s);
    ReceiveSized(s.dst, s.queue[0]);
    forall d | 0 <= d < cfg.N() ensures TransitOk(d, s.devs[d].ctl, s.queue[1..], Receive(s.dst, s.queue[0])) {
      DeliverTransit(d, s.devs[d].ctl, s.queue, s.dst, cfg.N());
    }
  }

  /** The other events of the destination neither take nor lose a packet. */
  lemma {:induction false} EventReceiver(n: nat, s: State, e: Event)
    requires ReceiverOk(n, s.dst) && CanHappen(s, e) && !e.Deliver?
    ensures var t := Happen(s, e);
      && ReceiverOk(n, t.dst) && t.queue == s.queue && t.devs == s.devs && |t.dst.stores| == |s.dst.stores|
      && t.dst.received == s.dst.received && t.dst.authorised == s.dst.authorised
      && (s.dst.allReceived ==> t.dst.allReceived)
  {
  }

  lemma {:induction false} DestinationStep(cfg: Config, s: State, e: Event)
    requires BarrierOk(cfg, s) && ConnectionOk(cfg, s) && CanHappen(s, e)
    ensures ConnectionOk(cfg, Happen(s, e))
  {
    if e.Deliver? {
      DeliverConnection(cfg, s);
    } else {
      EventReceiver(cfg.N(), s, e);
      hide BarrierOk, QueueOk, Introduced, Closed, ReceiverOk, Happen, CanHappen;
    }
  }

  /* ------------------------------------------------------------------ send */

  /** How one operation moves its own device between the stages of `TransitOk`. */
  lemma {:induction false} OpInfoSent(cfg: Config, sh: Shared, d: nat, c: Control, dirty: nat, op: Op)
    requires d < cfg.N() && ControlReady(sh, d, c, op)
    ensures ControlAfter(cfg, sh, d, c, dirty, op).pc == SendInfo <==> c.pc == SendInfo && !op.SendDevInfo?
    ensures op.SendDevInfo? ==> c.pc == SendInfo
  {
    OwnOpsMove(cfg, sh, d, c, dirty, op);
    hide ControlReady, ControlAfter;
  }

  lemma {:induction false} OpAuthoritySent(cfg: Config, sh: Shared, d: nat, c: Control, dirty: nat, op: Op)
    requires d < cfg.N() && ControlReady(sh, d, c, op)
    ensures AuthoritySent(ControlAfter(cfg, sh, d, c, dirty, op).pc) <==> AuthoritySent(c.pc) || op.SendAuthority?
    ensures op.SendAuthority? ==> !AuthoritySent(c.pc)
  {
    hide CountCycle;
  }

  lemma {:induction false} OpAnnounced(cfg: Config, sh: Shared, d: nat, c: Control, dirty: nat, op: Op)
    requires d < cfg.N() && ControlReady(sh, d, c, op) && ControlOk(cfg, sh, d, c)
    ensures ControlAfter(cfg, sh, d, c, dirty, op).announcement == Announced <==> c.announcement == Announced || op.AnnounceAllSent?
  {
  }

  /** The stages of `TransitOk` after a send, from what the three lemmas above say. */
  lemma {:induction false} TransitAfter(d: nat, c: Control, after: Control, q: seq<Message>, sent: seq<Message>, dst: Destination)
    requires TransitOk(d, c, q, dst)
    requires after.pc == SendInfo <==> c.pc == SendInfo && DevInfo(d) !in sent
    requires DevInfo(d) in sent ==> c.pc == SendInfo
    requires AuthoritySent(after.pc) <==> AuthoritySent(c.pc) || TransferAuthority(d) in sent
    requires TransferAuthority(d) in sent ==> !AuthoritySent(c.pc)
    requires after.announcement == Announced <==> c.announcement == Announced || AllSent(d) in sent
    ensures TransitOk(d, after, q + sent, dst)
  {
  }

  lemma {:induction false} SentMembers(d: nat, v: Volume, op: Op)
    ensures DevInfo(d) in Sent(d, v, op) <==> op.SendDevInfo?
    ensures TransferAuthority(d) in Sent(d, v, op) <==> op.SendAuthority?
    ensures AllSent(d) in Sent(d, v, op) <==> op.AnnounceAllSent?
    ensures forall m :: m in Sent(d, v, op) ==> m.d == d
  {
  }

  /** What a packet promises when it is put on the connection by device `d`. */
  ghost predicate MaySend(d: nat, c: Control, q: seq<Message>, dst: Destination, m: Message) {
    && m.d == d
    && (m.DevInfo? <==> c.pc == SendInfo)
    && (m.DevInfo? ==> forall i :: 0 <= i < |q| ==> !Fence(q[i]))
    && (m.TransferAuthority? ==> !AuthoritySent(c.pc))
    && (AuthoritySent(c.pc) ==> AfterAuthority(m))
  }

  lemma {:induction false} SendQueue(n: nat, d: nat, c: Control, q: seq<Message>, dst: Destination, m: Message)
    requires d < n && QueueOk(n, q) && Introduced(q, dst.received) && Closed(q, dst.authorised)
    requires TransitOk(d, c, q, dst) && MaySend(d, c, q, dst, m)
    ensures QueueOk(n, q + [m]) && Introduced(q + [m], dst.received) && Closed(q + [m], dst.authorised)
  {
    var next := q + [m];
    assert forall i :: 0 <= i < |q| ==> next[i] == q[i];
    forall i | 0 <= i < |next| && !next[i].DevInfo?
      ensures next[i].d in dst.received || DevInfo(next[i].d) in next[..i]
    {
      assert next[..i] == q[..i];
      assert q[..|q|] == q;
    }
  }

  lemma {:induction false} SentMaySend(cfg: Config, s: State, d: nat, op: Op)
    requires BarrierOk(cfg, s) && StorageOk(cfg, s) && ConnectionOk(cfg, s) && d < cfg.N() && CanRun(cfg, s, d, op)
    requires Sent(d, s.devs[d].vol, op) != []
    ensures MaySend(d, s.devs[d].ctl, s.queue, s.dst, Sent(d, s.devs[d].vol, op)[0])
  {
    var c, v := s.devs[d].ctl, s.devs[d].vol;
    assert ControlOk(cfg, s.shared, d, c) && VolumeOk(cfg, d, c.pc, v);
    SentFrom(s.shared, d, c, v, op) by { assert op.SendBlock? ==> op.block in v.reading; }
    hide BarrierOk, StorageOk, ConnectionOk, CanRun, Sent, AuthoritySent, AfterAuthority, ControlReady, VolumeOk;
    if op.SendDevInfo? { NoFenceYet(cfg, s, d); }
  }

  /** Which packets a goroutine can send from where it stands. */
  lemma {:induction false} SentFrom(sh: Shared, d: nat, c: Control, v: Volume, op: Op)
    requires ControlReady(sh, d, c, op) && BatchOk(c.pc, v) && Sent(d, v, op) != [] && (op.SendBlock? ==> op.block in v.reading)
    requires c.announcement.Due? ==> !c.pc.SendInfo?
    ensures var m := Sent(d, v, op)[0];
      && m.d == d && (m.DevInfo? <==> c.pc == SendInfo) && (m.DevInfo? <==> op.SendDevInfo?)
      && (m.TransferAuthority? ==> !AuthoritySent(c.pc)) && (AuthoritySent(c.pc) ==> AfterAuthority(m))
  {
    if op.SendBlock? { assert v.reading != map[]; }
  }

  lemma {:induction false} NoFenceYet(cfg: Config, s: State, d: nat)
    requires BarrierOk(cfg, s) && ConnectionOk(cfg, s) && d < cfg.N() && s.devs[d].ctl.pc.SendInfo?
    ensures forall i :: 0 <= i < |s.queue| ==> !Fence(s.queue[i])
  {
    hide BarrierOk, QueueOk, Introduced, Closed, ReceiverOk, TransitOk, Fence;
    forall i | 0 <= i < |s.queue| ensures !Fence(s.queue[i]) {
      if Fence(s.queue[i]) { FenceMeansAllInfoSent(cfg, s, s.queue[i]); }
    }
  }

  lemma {:induction false} OpTransit(cfg: Config, s: State, d: nat, op: Op, i: nat)
    requires BarrierOk(cfg, s) && ConnectionOk(cfg, s) && d < cfg.N() && CanRun(cfg, s, d, op) && i < cfg.N()
    ensures TransitOk(i, DevAfter(cfg, s, d, op, i).ctl, s.queue + Sent(d, s.devs[d].vol, op), s.dst)
  {
    var c, dirty := s.devs[d].ctl, |s.devs[d].vol.dirty|;
    var sent := Sent(d, s.devs[d].vol, op);
    assert ControlOk(cfg, s.shared, d, c);
    assert TransitOk(i, s.devs[i].ctl, s.queue, s.dst);
    SentMembers(d, s.devs[d].vol, op);
    if i == d {
      OpInfoSent(cfg, s.shared, d, c, dirty, op);
      OpAuthoritySent(cfg, s.shared, d, c, dirty, op);
      OpAnnounced(cfg, s.shared, d, c, dirty, op);
    }
    TransitAfter(i, s.devs[i].ctl, DevAfter(cfg, s, d, op, i).ctl, s.queue, sent, s.dst);
  }

  lemma {:induction false} OpQueue(cfg: Config, s: State, d: nat, op: Op)
    requires BarrierOk(cfg, s) && StorageOk(cfg, s) && ConnectionOk(cfg, s) && d < cfg.N() && CanRun(cfg, s, d, op)
    ensures var q := s.queue + Sent(d, s.devs[d].vol, op);
      QueueOk(cfg.N(), q) && Introduced(q, s.dst.received) && Closed(q, s.dst.authorised)
  {
    hide BarrierOk, StorageOk, CanRun, QueueOk, Introduced, Closed, TransitOk, MaySend, ReceiverOk;
    var sent := Sent(d, s.devs[d].vol, op);
    if sent == [] {
      assert s.queue + sent == s.queue;
    } else {
      SentMaySend(cfg, s, d, op);
      assert sent == [sent[0]];
      SendQueue(cfg.N(), d, s.devs[d].ctl, s.queue, s.dst, sent[0]);
    }
  }

  lemma {:induction false} OpConnection(cfg: Config, s: State, d: nat, op: Op)
    requires BarrierOk(cfg, s) && StorageOk(cfg, s) && ConnectionOk(cfg, s) && d < cfg.N() && CanRun(cfg, s, d, op)
    ensures ConnectionOk(cfg, RunOp(cfg, s, d, op))
  {
    var t := RunOp(cfg, s, d, op);
    OpSized(cfg, s, d, op);
    OpQueue(cfg, s, d, op);
    forall i | 0 <= i < cfg.N() ensures TransitOk(i, t.devs[i].ctl, t.queue, t.dst) {
      assert t.devs[i] == DevAfter(cfg, s, d, op, i);
      OpTransit(cfg, s, d, op, i);
    }
  }

  lemma {:induction false} ConnectionStep(cfg: Config, s: State, a: Action, t: State)
    requires BarrierOk(cfg, s) && StorageOk(cfg, s) && ConnectionOk(cfg, s) && Next(cfg, s, a, t)
    ensures ConnectionOk(cfg, t)
  {
    match a
    case OnDevice(d, op) => OpConnection(cfg, s, d, op);
    case AtDestination(e) => DestinationStep(cfg, s, e);
  }

  lemma {:induction false} InitConnection(cfg: Config, s: State)
    requires Init(cfg, s)
    ensures ConnectionOk(cfg, s)
  {
    assert forall d :: 0 <= d < cfg.N() ==> s.devs[d].ctl == START;
    assert cfg.N() > 0 ==> 0 in Blocks(cfg.N());
  }
}
