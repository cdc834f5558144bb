/** The whole protocol, seen from the guest: one machine whose content is written by its owner, and one
    atomic step that hands it over. */
module Ownership {
  import opened Migration
  import opened Barrier
  import opened Storage
  import opened Connection
  import opened Layering
  import opened Invariants
  import opened Handover

  datatype Owner = Source | Target

  datatype Machine = Machine(owner: Owner, content: seq<map<nat, Data>>)

  /** What the outside sees of a step: a write by one side's guest, or nothing. */
  datatype Visible = Write(side: Owner, d: nat, block: nat, data: Data) | Internal

  function VisibleOf(a: Action): Visible {
    match a
    case OnDevice(d, GuestWrite(b, v)) => Write(Source, d, b, v)
    case AtDestination(DestinationWrite(d, b, v)) => Write(Target, d, b, v)
    case _ => Internal
  }

  function WriteBlock(content: seq<map<nat, Data>>, d: nat, b: nat, v: Data): seq<map<nat, Data>> {
    if d < |content| then content[d := Put(content[d], b, v)] else content
  }

  /** The specification: only the owner writes, and ownership passes once, with all of the content. */
  predicate AtomicNext(m: Machine, x: Visible, n: Machine) {
    match x
    case Write(side, d, b, v) => m.owner == side && n == Machine(side, WriteBlock(m.content, d, b, v))
    case Internal => n == m || (m.owner.Source? && n == m.(owner := Target))
  }

  function Guests(devs: seq<Dev>): (r: seq<map<nat, Data>>)
    ensures |r| == |devs| && forall d :: 0 <= d < |devs| ==> r[d] == GuestContent(devs[d].vol)
  {
    seq(|devs|, d requires 0 <= d < |devs| => GuestContent(devs[d].vol))
  }

  function Abstract(s: State): Machine {
    if s.dst.ready then Machine(Target, s.dst.stores) else Machine(Source, Guests(s.devs))
  }

  /** The destination is ready only when every authority has arrived, not by an early close, and then
      every last drain followed suspension. */
  ghost predicate CleanState(s: State) {
    s.dst.ready ==> s.dst.authorised == Blocks(|s.devs|) && AllDrainedSuspended(s)
  }

  lemma {:induction false} GuestAfter(cfg: Config, s: State, d: nat, op: Op, i: nat)
    requires Sized(cfg, s) && d < cfg.N() && CanRun(cfg, s, d, op) && i < cfg.N()
    ensures DevAfter(cfg, s, d, op, i).vol.guest
         == if i == d && op.GuestWrite? then s.devs[i].vol.guest[op.block := op.data] else s.devs[i].vol.guest
  {
  }

  lemma {:induction false} ContentAfterWrite(v: Volume, w: Volume, b: nat, data: Data)
    requires b < |v.guest| && w.guest == v.guest[b := data]
    ensures GuestContent(w) == Put(GuestContent(v), b, data)
  {
  }

  /** A step of the source changes what its guest sees only by a write of that guest. */
  lemma {:induction false} SourceStep(cfg: Config, s: State, d: nat, op: Op)
    requires Sized(cfg, s) && d < cfg.N() && CanRun(cfg, s, d, op)
    ensures var after := Guests(RunOp(cfg, s, d, op).devs);
      if op.GuestWrite? then after == WriteBlock(Guests(s.devs), d, op.block, op.data) else after == Guests(s.devs)
  {
    var t := RunOp(cfg, s, d, op);
    hide CanRun, GuestContent, DevAfter;
    forall i: nat | i < cfg.N()
      ensures GuestContent(t.devs[i].vol)
           == if i == d && op.GuestWrite? then Put(GuestContent(s.devs[i].vol), op.block, op.data) else GuestContent(s.devs[i].vol)
    {
      assert t.devs[i] == DevAfter(cfg, s, d, op, i);
      GuestAfter(cfg, s, d, op, i);
      if i == d && op.GuestWrite? {
        WriteInRange(cfg, s, d, op);
        ContentAfterWrite(s.devs[i].vol, t.devs[i].vol, op.block, op.data);
      } else {
        SameContent(s.devs[i].vol, t.devs[i].vol);
      }
    }
  }

  lemma {:induction false} WriteInRange(cfg: Config, s: State, d: nat, op: Op)
    requires Sized(cfg, s) && d < cfg.N() && CanRun(cfg, s, d, op) && op.GuestWrite?
    ensures op.block < |s.devs[d].vol.guest| && s.shared.running
  {
  }

  lemma {:induction false} SameContent(v: Volume, w: Volume)
    requires v.guest == w.guest
    ensures GuestContent(v) == GuestContent(w)
  {
  }

  /** Once the destination is ready, what is still on its way changes no store. */
  lemma {:induction false} DeliveredWhenReady(cfg: Config, s: State)
    requires ConnectionOk(cfg, s) && CanHappen(s, Deliver) && s.dst.authorised == Blocks(cfg.N())
    ensures Receive(s.dst, s.queue[0]).stores == s.dst.stores && (s.dst.ready ==> Receive(s.dst, s.queue[0]).ready)
  {
    assert s.queue[0].d in s.dst.authorised;
    assert AfterAuthority(s.queue[0]);
  }

  /** While it is not, no guest runs there. */
  lemma {:induction false} EventBeforeReady(cfg: Config, s: State, e: Event)
    requires ConnectionOk(cfg, s) && CanHappen(s, e) && !s.dst.ready
    ensures !e.DestinationWrite? && Happen(s, e).devs == s.devs && !Happen(s, e).dst.progress.Resumed?
  {
  }

  /** A ready destination holds what the guest of the source sees, until it is resumed. */
  lemma {:induction false} ReadyContent(cfg: Config, t: State)
    requires Inv(cfg, t) && cfg.mode.Peer? && AllReached(cfg) && CleanState(t) && t.dst.ready && !t.dst.progress.Resumed?
    ensures t.dst.stores == Guests(t.devs)
  {
    hide GuestContent;
    InvSized(cfg, t);
    forall d: nat | d < cfg.N() ensures t.dst.stores[d] == GuestContent(t.devs[d].vol) {
      CleanAt(t, d);
      HandoverContent(cfg, t, d);
    }
  }

  lemma {:induction false} CleanAt(t: State, d: nat)
    requires CleanState(t) && t.dst.ready && d < |t.devs|
    ensures d in t.dst.authorised && t.devs[d].ctl.drainedSuspended
  {
  }

  lemma {:induction false} InvSized(cfg: Config, s: State)
    requires Inv(cfg, s)
    ensures Sized(cfg, s) && ConnectionOk(cfg, s)
  {
  }

  lemma {:induction false} EventRefinesReady(s: State, e: Event)
    requires CanHappen(s, e) && s.dst.ready
    requires e.Deliver? ==> Receive(s.dst, s.queue[0]).stores == s.dst.stores && Receive(s.dst, s.queue[0]).ready
    ensures AtomicNext(Abstract(s), VisibleOf(AtDestination(e)), Abstract(Happen(s, e)))
  {
    hide Receive, Guests;
  }

  lemma {:induction false} EventRefinesUnready(s: State, e: Event, t: State)
    requires !s.dst.ready && !e.DestinationWrite? && t.devs == s.devs
    requires t.dst.ready ==> t.dst.stores == Guests(t.devs)
    ensures AtomicNext(Abstract(s), VisibleOf(AtDestination(e)), Abstract(t))
  {
    hide Guests;
  }

  lemma {:induction false} EventRefines(cfg: Config, s: State, e: Event)
    requires Inv(cfg, s) && CanHappen(s, e) && Inv(cfg, Happen(s, e)) && cfg.mode.Peer? && AllReached(cfg)
    requires CleanState(s) && CleanState(Happen(s, e))
    ensures AtomicNext(Abstract(s), VisibleOf(AtDestination(e)), Abstract(Happen(s, e)))
  {
    var t := Happen(s, e);
    hide Inv, Guests, CleanState, AllReached, ConnectionOk, CanHappen, Receive, Happen, DestinationAfter, AtomicNext, Abstract, VisibleOf;
    InvSized(cfg, s);
    if s.dst.ready {
      if e.Deliver? {
        assert s.dst.authorised == Blocks(cfg.N()) by { CleanIsAuthorised(s); }
        DeliveredWhenReady(cfg, s);
      }
      EventRefinesReady(s, e);
    } else {
      EventBeforeReady(cfg, s, e);
      if t.dst.ready { ReadyContent(cfg, t); }
      EventRefinesUnready(s, e, t);
    }
  }

  lemma {:induction false} OpRefines(cfg: Config, s: State, d: nat, op: Op)
    requires Inv(cfg, s) && d < cfg.N() && Sized(cfg, s) && CanRun(cfg, s, d, op) && cfg.mode.Peer? && CleanState(s)
    requires s.dst.ready ==> !s.shared.running
    ensures AtomicNext(Abstract(s), VisibleOf(OnDevice(d, op)), Abstract(RunOp(cfg, s, d, op)))
  {
    hide Inv, Guests, CanRun;
    SourceStep(cfg, s, d, op);
    if op.GuestWrite? { WriteInRange(cfg, s, d, op); }
  }

  /** Every step of the protocol is a step of the specification: it hides everything but the guests'
      writes, which only the owner makes, and one handover that keeps all of the content. */
  lemma {:induction false} RefinesAtomicHandover(cfg: Config, s: State, a: Action, t: State)
    requires Reachable(cfg, s) && Next(cfg, s, a, t) && cfg.mode.Peer? && AllReached(cfg)
    requires CleanState(s) && CleanState(t)
    ensures AtomicNext(Abstract(s), VisibleOf(a), Abstract(t))
  {
    hide Inv, Abstract, AtomicNext, CleanState, Reachable, CanRun, CanHappen, AllReached;
    ReachableInv(cfg, s);
    InvStep(cfg, s, a, t);
    match a
    case OnDevice(d, op) =>
      InvSized(cfg, s);
      if s.dst.ready {
        CleanAt(s, d);
        AuthorisedMeansPaused(cfg, s, d);
      }
      OpRefines(cfg, s, d, op);
    case AtDestination(e) => EventRefines(cfg, s, e);
  }

  lemma {:induction false} CleanIsAuthorised(s: State)
    requires CleanState(s) && s.dst.ready
    ensures s.dst.authorised == Blocks(|s.devs|)
  {
  }

  /* ------------------------------------------------------------- whole runs */

  /** All writes of both guests, in the order of the run. */
  function Replay(content: seq<map<nat, Data>>, actions: seq<Action>): seq<map<nat, Data>> {
    if actions == [] then content
    else
      var before := Replay(content, actions[..|actions| - 1]);
      match VisibleOf(actions[|actions| - 1])
      case Write(_, d, b, v) => WriteBlock(before, d, b, v)
      case Internal => before
  }

  lemma {:induction false} RunReachable(cfg: Config, states: seq<State>, actions: seq<Action>, i: nat)
    requires IsRun(cfg, states, actions) && i <= |actions|
    ensures Reachable(cfg, states[i])
  {
    hide Init, Step, Enabled;
    assert IsRun(cfg, states[..i + 1], actions[..i]);
    assert states[..i + 1][|actions[..i]|] == states[i];
  }

  /** A clean state comes after clean states only: an early close is never made good, and the last drain
      of a device that has given its authority away stays the last one. */
  lemma {:induction false} CleanBefore(cfg: Config, s: State, a: Action, t: State)
    requires Inv(cfg, s) && Next(cfg, s, a, t) && CleanState(t)
    ensures CleanState(s)
  {
    hide BarrierOk, StorageOk, LayeringOk, DrainsOk, QueueOk, Introduced, Closed;
    if s.dst.ready {
      KeepsReady(cfg, s, a, t);
      forall d: nat | d < cfg.N() ensures s.devs[d].ctl.drainedSuspended {
        assert TransitOk(d, s.devs[d].ctl, s.queue, s.dst);
        KeepsDrained(cfg, s, a, t, d);
      }
    }
  }

  lemma {:induction false} KeepsReady(cfg: Config, s: State, a: Action, t: State)
    requires ReceiverOk(cfg.N(), s.dst) && Next(cfg, s, a, t) && s.dst.ready
    ensures t.dst.ready && |t.devs| == |s.devs| && (s.dst.authorised != Blocks(cfg.N()) ==> t.dst.authorised == s.dst.authorised)
  {
    hide CanRun;
  }

  lemma {:induction false} KeepsDrained(cfg: Config, s: State, a: Action, t: State, d: nat)
    requires Next(cfg, s, a, t) && d < cfg.N() && |t.devs| == cfg.N() && AuthoritySent(s.devs[d].ctl.pc)
    ensures t.devs[d].ctl.drainedSuspended == s.devs[d].ctl.drainedSuspended
  {
    if a.OnDevice? { assert t.devs[d] == DevAfter(cfg, s, a.d, a.op, d); }
  }

  lemma {:induction false} CleanThroughout(cfg: Config, states: seq<State>, actions: seq<Action>, i: nat, j: nat)
    requires IsRun(cfg, states, actions) && i <= j <= |actions| && CleanState(states[j])
    ensures CleanState(states[i])
    decreases j
  {
    hide Inv, Init, Step, Enabled, CleanState;
    if i < j {
      RunInv(cfg, states, actions, j - 1);
      CleanBefore(cfg, states[j - 1], actions[j - 1], states[j]);
      CleanThroughout(cfg, states, actions, i, j - 1);
    }
  }

  lemma {:induction false} RunRefines(cfg: Config, states: seq<State>, actions: seq<Action>, i: nat, j: nat)
    requires IsRun(cfg, states, actions) && i < j <= |actions| && cfg.mode.Peer? && AllReached(cfg) && CleanState(states[j])
    ensures AtomicNext(Abstract(states[i]), VisibleOf(actions[i]), Abstract(states[i + 1]))
  {
    hide Init, Step, Enabled, Reachable, CleanState, AllReached, Abstract, AtomicNext;
    RunReachable(cfg, states, actions, i);
    CleanThroughout(cfg, states, actions, i, j);
    CleanThroughout(cfg, states, actions, i + 1, j);
    RefinesAtomicHandover(cfg, states[i], actions[i], states[i + 1]);
  }

  /** In every run that is clean in the end, the owner sees exactly the initial content with all the
      guests' writes made in order, those before the handover and those after it; nothing is lost and
      nothing is invented. */
  lemma {:induction false} OwnerSeesAllWrites(cfg: Config, states: seq<State>, actions: seq<Action>, j: nat)
    requires IsRun(cfg, states, actions) && j <= |actions| && cfg.mode.Peer? && AllReached(cfg) && CleanState(states[j])
    ensures Abstract(states[j]).content == Replay(Abstract(states[0]).content, actions[..j])
  {
    hide Init, Step, Enabled, Reachable, CleanState, AllReached, Abstract;
    if j > 0 {
      CleanThroughout(cfg, states, actions, j - 1, j);
      OwnerSeesAllWrites(cfg, states, actions, j - 1);
      RunRefines(cfg, states, actions, j - 1, j);
      assert actions[..j][..j - 1] == actions[..j - 1];
    }
  }

  /** Once the destination is ready, the source's guest never writes again. */
  lemma {:induction false} OwnershipPassesOnce(cfg: Config, states: seq<State>, actions: seq<Action>, i: nat, j: nat)
    requires IsRun(cfg, states, actions) && i <= j < |actions| && cfg.mode.Peer? && AllReached(cfg)
    requires CleanState(states[j + 1]) && Abstract(states[i]).owner.Target?
    ensures Abstract(states[j]).owner.Target?
    ensures !(VisibleOf(actions[j]).Write? && VisibleOf(actions[j]).side.Source?)
    decreases j
  {
    hide Init, Step, Enabled, Reachable, CleanState, AllReached, Abstract, VisibleOf, WriteBlock;
    if i < j {
      CleanThroughout(cfg, states, actions, j, j + 1);
      OwnershipPassesOnce(cfg, states, actions, i, j - 1);
      RunRefines(cfg, states, actions, j - 1, j);
    }
    RunRefines(cfg, states, actions, j, j + 1);
  }

  /* ------------------------------------------------------------- early close */

  /** The exception in `SingleOwner` is real for every configuration: when the connection closes at
      once, both signals are forced, and the destination resumes beside a running machine without anything
      of it: `stores` holds what came from the source, and every device is opened from the destination's
      own files. */
  lemma {:induction false} EarlyCloseSplitsOwnership(cfg: Config, s: State) returns (t: State)
    requires Init(cfg, s)
    ensures Reachable(cfg, t) && t.devs == s.devs
    ensures t.shared.running && t.dst.progress.Resumed? && t.dst.eof
    ensures forall d :: 0 <= d < cfg.N() ==> t.dst.stores[d] == map[]
  {
    hide Reachable;
    InitReachable(cfg, s);
    var t1 := Happen(s, Eof);
    ReachableStep(cfg, s, AtDestination(Eof), t1);
    var t2 := Happen(t1, PassReceived);
    ReachableStep(cfg, t1, AtDestination(PassReceived), t2);
    var t3 := Happen(t2, PassReady);
    ReachableStep(cfg, t2, AtDestination(PassReady), t3);
    t := Happen(t3, ResumeDestination);
    ReachableStep(cfg, t3, AtDestination(ResumeDestination), t);
  }

  lemma {:induction false} InitReachable(cfg: Config, s: State)
    requires Init(cfg, s)
    ensures Reachable(cfg, s) && Sized(cfg, s)
  {
    InitBarrier(cfg, s);
    var none: seq<Action> := [];
    assert IsRun(cfg, [s], none) && [s][|none|] == s;
  }
}
