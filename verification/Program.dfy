/** What a run looks like from outside the step machine: the order in which one goroutine does its
    operations, and what the end of the connection leaves. */
module Program {
  import opened Migration
  import opened Options
  import opened Barrier
  import opened Invariants
  import opened WholeRun

  /** The goroutine of one device, as the graph of its operations. */
  predicate Successor(a: Op, b: Op) {
    match a
    case SendDevInfo => b.AddSentDevice?
    case AddSentDevice => b.LoadSentDevices?
    case LoadSentDevices => b.FinishInitial?
    case FinishInitial => b.LockForMsync?
    // the loop
    case LockForMsync => b.MsyncAndUnlock? || b.WaitForBatch?
    case MsyncAndUnlock => b.WaitForBatch?
    case WaitForBatch => b.GetLatestDirty?
    case GetLatestDirty => b.UnlockStorage? || b.SendDirtyList?
    case UnlockStorage => b.ReadSuspended?
    case ReadSuspended => b.SendAuthority? || b.WaitThrottle?
    case SendDirtyList => b.WaitThrottle?
    case WaitThrottle => b.CountDirty?
    case CountDirty => b.LoadReady?
    case LoadReady => b.EnterSuspend? || b.SuspendStep? || b.LockForMsync?
    case EnterSuspend => b.EnterSuspend? || b.SuspendStep? || b.LockForMsync?
    case SuspendStep => b.EnterSuspend? || b.SuspendStep?
    // after it
    case SendAuthority => b.WaitForCompletion?
    case WaitForCompletion => b.SendCompleted?
    case _ => false
  }

  lemma {:induction false} NextOperation(cfg: Config, sh: Shared, d: nat, c: Control, dirty: nat, a: Op, sh2: Shared, c2: Control, b: Op)
    requires d < cfg.N() && ControlReady(sh, d, c, a) && ControlReady(sh2, d, c2, b) && Where(a).Some? && Where(b).Some?
    requires c2.pc == ControlAfter(cfg, sh, d, c, dirty, a).pc
    ensures Successor(a, b)
  {
    hide Cycles.CountCycle;
  }

  predicate IsOperation(a: Action, d: nat) { a.OnDevice? && a.d == d && Where(a.op).Some? }

  /** Between two operations of its own code a goroutine stays where it is. */
  lemma {:induction false} StaysBetween(cfg: Config, states: seq<State>, actions: seq<Action>, d: nat, i: nat, j: nat)
    requires IsRun(cfg, states, actions) && d < cfg.N() && i <= j <= |actions|
    requires forall k :: i <= k < j ==> !IsOperation(actions[k], d)
    ensures states[j].devs[d].ctl.pc == states[i].devs[d].ctl.pc
    decreases j
  {
    hide Init, Step, Enabled, IsOperation;
    if i < j {
      StaysBetween(cfg, states, actions, d, i, j - 1);
      OthersStay(cfg, states[j - 1], actions[j - 1], states[j], d);
    }
  }

  lemma {:induction false} OthersStay(cfg: Config, s: State, a: Action, t: State, d: nat)
    requires Next(cfg, s, a, t) && d < cfg.N() && |t.devs| == cfg.N() && !IsOperation(a, d)
    ensures t.devs[d].ctl.pc == s.devs[d].ctl.pc
  {
    if a.OnDevice? { assert t.devs[d] == DevAfter(cfg, s, a.d, a.op, d); }
  }

  lemma {:induction false} OperationAt(cfg: Config, s: State, d: nat, op: Op, t: State)
    requires Next(cfg, s, OnDevice(d, op), t) && |s.devs| == |t.devs| == cfg.N()
    ensures d < cfg.N() && ControlReady(s.shared, d, s.devs[d].ctl, op)
    ensures t.devs[d].ctl == ControlAfter(cfg, s.shared, d, s.devs[d].ctl, |s.devs[d].vol.dirty|, op)
  {
    assert t.devs[d] == DevAfter(cfg, s, d, op, d);
  }

  /** In every run, whatever the others do meanwhile: the operations of one goroutine follow each other as
      its code has them, the first of all being the announcement of its device. */
  lemma {:induction false} ProgramOrder(cfg: Config, states: seq<State>, actions: seq<Action>, d: nat, i: nat, j: nat)
    requires IsRun(cfg, states, actions) && d < cfg.N() && i < j < |actions|
    requires IsOperation(actions[i], d) && IsOperation(actions[j], d) && forall k :: i < k < j ==> !IsOperation(actions[k], d)
    ensures Successor(actions[i].op, actions[j].op)
  {
    hide Init, Next, ControlReady, ControlAfter, Successor;
    StaysBetween(cfg, states, actions, d, i + 1, j);
    OperationAt(cfg, states[i], d, actions[i].op, states[i + 1]);
    OperationAt(cfg, states[j], d, actions[j].op, states[j + 1]);
    NextOperation(cfg, states[i].shared, d, states[i].devs[d].ctl, |states[i].devs[d].vol.dirty|, actions[i].op,
                  states[j].shared, states[j].devs[d].ctl, actions[j].op);
  }

  lemma {:induction false} ProgramStart(cfg: Config, states: seq<State>, actions: seq<Action>, d: nat, j: nat)
    requires IsRun(cfg, states, actions) && d < cfg.N() && j < |actions|
    requires IsOperation(actions[j], d) && forall k :: 0 <= k < j ==> !IsOperation(actions[k], d)
    ensures actions[j].op.SendDevInfo?
  {
    StaysBetween(cfg, states, actions, d, 0, j);
    OperationAt(cfg, states[j], d, actions[j].op, states[j + 1]);
    assert states[0].devs[d].ctl == START;
    hide ControlAfter;
  }

  /** A goroutine that has ended has sent its Completed. */
  lemma {:induction false} DoneHasCompleted(cfg: Config, states: seq<State>, actions: seq<Action>, d: nat, j: nat) returns (i: nat)
    requires IsRun(cfg, states, actions) && d < cfg.N() && j <= |actions| && states[j].devs[d].ctl.pc.Done?
    ensures i < j && actions[i] == OnDevice(d, SendCompleted)
    decreases j
  {
    hide Init, Step, Enabled;
    if j == 0 {
      StartsBefore(cfg, states[0], d);
      assert false;
    } else {
      DoneByCompleted(cfg, states[j - 1], actions[j - 1], states[j], d);
      if actions[j - 1] == OnDevice(d, SendCompleted) {
        i := j - 1;
      } else {
        i := DoneHasCompleted(cfg, states, actions, d, j - 1);
      }
    }
  }

  lemma {:induction false} StartsBefore(cfg: Config, s: State, d: nat)
    requires Init(cfg, s) && d < cfg.N()
    ensures !s.devs[d].ctl.pc.Done?
  {
  }

  lemma {:induction false} DoneByCompleted(cfg: Config, s: State, a: Action, t: State, d: nat)
    requires Next(cfg, s, a, t) && d < cfg.N() && |t.devs| == cfg.N() && t.devs[d].ctl.pc.Done?
    ensures a == OnDevice(d, SendCompleted) || s.devs[d].ctl.pc.Done?
  {
    if a.OnDevice? { assert t.devs[d] == DevAfter(cfg, s, a.d, a.op, d); }
  }

  /** When a goroutine's own call of suspendAndMsyncVM has returned, the flag is up for every drain that
      it starts afterwards. */
  lemma {:induction false} DrainsAfterOwnCall(cfg: Config, states: seq<State>, actions: seq<Action>, d: nat, i: nat, j: nat)
    requires IsRun(cfg, states, actions) && d < cfg.N() && i < j < |actions|
    requires actions[i] == OnDevice(d, EnterSuspend) && !states[i].shared.suspension.Idle?
    requires actions[j] == OnDevice(d, GetLatestDirty)
    ensures states[j].shared.IsSuspended() && states[j + 1].devs[d].ctl.drainedSuspended
  {
    hide Init, Step, Enabled, ControlAfter;
    CallReturned(cfg, states[i], d, states[i + 1]);
    FlagStays(cfg, states, actions, i, j);
    OperationAt(cfg, states[j], d, GetLatestDirty, states[j + 1]);
    DrainNotes(cfg, states[j].shared, d, states[j].devs[d].ctl, |states[j].devs[d].vol.dirty|);
  }

  lemma {:induction false} CallReturned(cfg: Config, s: State, d: nat, t: State)
    requires Next(cfg, s, OnDevice(d, EnterSuspend), t) && !s.shared.suspension.Idle?
    ensures s.shared.IsSuspended()
  {
  }

  lemma {:induction false} DrainNotes(cfg: Config, sh: Shared, d: nat, c: Control, dirty: nat)
    requires d < cfg.N()
    ensures ControlAfter(cfg, sh, d, c, dirty, GetLatestDirty).drainedSuspended == sh.IsSuspended()
  {
  }

  lemma {:induction false} FlagStays(cfg: Config, states: seq<State>, actions: seq<Action>, i: nat, j: nat)
    requires IsRun(cfg, states, actions) && i <= j <= |actions| && states[i].shared.IsSuspended()
    ensures states[j].shared.IsSuspended()
    decreases j
  {
    hide Init, Step, Enabled;
    if i < j {
      FlagStays(cfg, states, actions, i, j - 1);
      FlagAndMarksStay(cfg, states[j - 1], actions[j - 1], states[j]);
    }
  }

  /* ---------------------------------------------------------- suspendAndMsyncVM */

  /** What it does, in order. */
  const STAGES: seq<Stage> := [CloseAgent, Pause, FlushState, FlushMemory, FinalMsync, RaiseFlag]

  /** The stages that a suspension has behind it. */
  ghost predicate Behind(x: Suspension, n: nat) {
    n <= |STAGES|
    && match x
       case Idle => n == 0
       case InProgress(_, stage) => n < |STAGES| && stage == STAGES[n]
       case Suspended => n == |STAGES|
       case SuspendFailed => false
  }

  /** Steps `at` did the first stages, one after the other. */
  ghost predicate Did(states: seq<State>, actions: seq<Action>, at: seq<nat>, j: nat) {
    && |at| <= |STAGES| && j <= |actions| < |states|
    && (forall k :: 0 <= k < |at| ==> at[k] < j && DidStage(states[at[k]], actions[at[k]], STAGES[k]))
    && forall k, m :: 0 <= k < m < |at| ==> at[k] < at[m]
  }

  ghost predicate DidStage(s: State, a: Action, stage: Stage) {
    a.OnDevice? && a.op.SuspendStep? && s.shared.suspension == InProgress(a.d, stage)
  }

  lemma {:induction false} SuspensionMoves(cfg: Config, s: State, a: Action, t: State, n: nat)
    requires cfg.mode.Peer? && Next(cfg, s, a, t) && |s.devs| == cfg.N() && Behind(t.shared.suspension, n)
    ensures if n > 0 && !Behind(s.shared.suspension, n) then Behind(s.shared.suspension, n - 1) && DidStage(s, a, STAGES[n - 1])
            else Behind(s.shared.suspension, n) || (n == 0 && s.shared.suspension.Idle?)
  {
    if a.OnDevice? { SuspensionMovesOp(cfg, s.shared, a.d, s.devs[a.d].ctl, a.op, n); }
    hide SharedAfter, ControlReady, Behind;
  }

  lemma {:induction false} SuspensionMovesOp(cfg: Config, sh: Shared, d: nat, c: Control, op: Op, n: nat)
    requires cfg.mode.Peer? && d < cfg.N() && ControlReady(sh, d, c, op)
    requires Behind(SharedAfter(cfg, sh, d, c, op).suspension, n)
    ensures if n > 0 && !Behind(sh.suspension, n) then Behind(sh.suspension, n - 1) && op.SuspendStep? && sh.suspension == InProgress(d, STAGES[n - 1])
            else Behind(sh.suspension, n) || (n == 0 && sh.suspension.Idle?)
  {
    hide MarksNow;
    assert STAGES == [CloseAgent, Pause, FlushState, FlushMemory, FinalMsync, RaiseFlag];
  }

  /** In every run of a peer, where the suspension stands at some stage, all before it were done, once each
      and in order; where the flag is up, all six. */
  lemma {:induction false} SuspensionInOrder(cfg: Config, states: seq<State>, actions: seq<Action>, j: nat, n: nat) returns (at: seq<nat>)
    requires IsRun(cfg, states, actions) && j <= |actions| && cfg.mode.Peer? && Behind(states[j].shared.suspension, n)
    ensures |at| == n && Did(states, actions, at, j)
    decreases j
  {
    hide Init, Next, Behind;
    if n == 0 {
      at := [];
    } else if j == 0 {
      StartsIdle(cfg, states[0], n);
      at := [];
    } else {
      SuspensionMoves(cfg, states[j - 1], actions[j - 1], states[j], n);
      if Behind(states[j - 1].shared.suspension, n) {
        at := SuspensionInOrder(cfg, states, actions, j - 1, n);
      } else {
        at := SuspensionInOrder(cfg, states, actions, j - 1, n - 1);
        BehindMost(states[j].shared.suspension, n);
        at := at + [j - 1];
      }
    }
  }

  lemma {:induction false} BehindMost(x: Suspension, n: nat)
    requires Behind(x, n)
    ensures n <= |STAGES|
  {
  }

  lemma {:induction false} StartsIdle(cfg: Config, s: State, n: nat)
    requires Init(cfg, s) && Behind(s.shared.suspension, n)
    ensures n == 0
  {
  }

  /** While a goroutine syncs the memory, with suspendedVMLock held since it tested the flag, nobody reads
      the flag and nobody raises it. */
  lemma {:induction false} FlagWaitsForMsync(cfg: Config, s: State, m: nat, d: nat, op: Op)
    requires Reachable(cfg, s) && m < cfg.N() && d < cfg.N() && s.devs[m].ctl.pc.Msync? && !s.devs[m].ctl.failed
    requires op.LockForMsync? || op.ReadSuspended? || op.WaitThrottle? || AtStage(s.shared, op, RaiseFlag)
    ensures !CanRun(cfg, s, d, op)
  {
    hide CanFlush, VolumeReady, ControlReady, EffectOf;
    LockIsHeld(cfg, s, m);
    WaitsForLock(s.shared, d, s.devs[d].ctl, op);
  }

  lemma {:induction false} LockIsHeld(cfg: Config, s: State, m: nat)
    requires Reachable(cfg, s) && m < cfg.N() && |s.devs| == cfg.N() && s.devs[m].ctl.pc.Msync? && !s.devs[m].ctl.failed
    ensures s.shared.lockHolder == Some(m)
  {
    ReachableInv(cfg, s);
    assert ControlOk(cfg, s.shared, m, s.devs[m].ctl);
    hide Reachable;
  }

  lemma {:induction false} WaitsForLock(sh: Shared, d: nat, c: Control, op: Op)
    requires sh.lockHolder.Some? && (op.LockForMsync? || op.ReadSuspended? || op.WaitThrottle? || AtStage(sh, op, RaiseFlag))
    ensures !ControlReady(sh, d, c, op)
  {
  }

  /** After the connection has closed nothing more arrives: what was received and authorised stays, and what
      the destination holds is changed by its own guest only. */
  lemma {:induction false} NothingAfterClose(cfg: Config, states: seq<State>, actions: seq<Action>, i: nat, j: nat)
    requires IsRun(cfg, states, actions) && i <= j <= |actions| && states[i].dst.eof
    ensures var s, t := states[i].dst, states[j].dst;
      && t.eof && t.received == s.received && t.authorised == s.authorised && t.counter == s.counter && t.ready && t.allReceived
      && ((forall k :: i <= k < j ==> !(actions[k].AtDestination? && actions[k].event.DestinationWrite?)) ==> t.stores == s.stores)
    decreases j
  {
    hide Init, Next, Inv;
    RunInv(cfg, states, actions, i);
    ClosedNow(cfg, states[i]);
    if i < j {
      NothingAfterClose(cfg, states, actions, i, j - 1);
      ClosedStep(cfg, states[j - 1], actions[j - 1], states[j]);
    }
  }

  lemma {:induction false} ClosedNow(cfg: Config, s: State)
    requires Inv(cfg, s) && s.dst.eof
    ensures s.dst.ready && s.dst.allReceived
  {
  }

  lemma {:induction false} ClosedStep(cfg: Config, s: State, a: Action, t: State)
    requires Next(cfg, s, a, t) && s.dst.eof
    ensures t.dst.eof && t.dst.received == s.dst.received && t.dst.authorised == s.dst.authorised && t.dst.counter == s.dst.counter
    ensures (s.dst.ready ==> t.dst.ready) && (s.dst.allReceived ==> t.dst.allReceived)
    ensures !(a.AtDestination? && a.event.DestinationWrite?) ==> t.dst.stores == s.dst.stores
  {
  }
}
