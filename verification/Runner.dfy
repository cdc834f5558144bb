/** One virtual machine's process: resuming it, rescuing it when that fails, syncing and suspending it.
    Every operation on the outside may fail; what matters is which ones are tried and in which order. */
module Runner {
  datatype SnapshotType = Full | MsyncOnly | MsyncAndState

  datatype Effect =
    | StartAgent | OwnSocket | LoadAndResume | AcceptAgent | AfterResume | BeforeSuspend
    | CloseAccepting | CloseAgent
    | PauseVM | CreateSnapshot(kind: SnapshotType)
    | CloseServer | AwaitExit | CopyState | CopyMemory
    | ProcessExit | AgentExit

  datatype Event = Event(effect: Effect, ok: bool)

  type Trace = seq<Event>

  predicate Happened(t: Trace, e: Effect) { Event(e, true) in t }
  predicate Tried(t: Trace, e: Effect) { Event(e, true) in t || Event(e, false) in t }

  /** What must have come before an effect is tried. */
  predicate Allowed(mapPrivate: bool, before: Trace, e: Effect) {
    match e
    case PauseVM =>
      // the guest runs, and its connections were closed
      Happened(before, LoadAndResume) && Tried(before, CloseAgent) && (Happened(before, AcceptAgent) ==> Tried(before, CloseAccepting))
    case CreateSnapshot(MsyncOnly) => !mapPrivate
    case CreateSnapshot(kind) =>
      // right after a pause, and of the kind that fits the mapping
      before != [] && before[|before| - 1] == Event(PauseVM, true) && (kind.Full? <==> mapPrivate)
    case CloseServer => Happened(before, CreateSnapshot(Full))
    case AwaitExit => Happened(before, CloseServer)
    case CopyState => Happened(before, AwaitExit)
    case CopyMemory => Happened(before, CopyState)
    case _ => true
  }

  ghost predicate Ordered(mapPrivate: bool, t: Trace) {
    forall i :: 0 <= i < |t| ==> Allowed(mapPrivate, t[..i], t[i].effect)
  }

  lemma {:induction false} OrderedAppend(mapPrivate: bool, t: Trace, e: Event)
    requires Ordered(mapPrivate, t) && Allowed(mapPrivate, t, e.effect)
    ensures Ordered(mapPrivate, t + [e])
  {
    assert (t + [e])[..|t|] == t;
    assert forall i :: 0 <= i < |t| ==> (t + [e])[..i] == t[..i];
  }

  /* ------------------------------------------------------ a sequence of operations */

  /** The operations were done one after the other, up to the end or to the first that failed. */
  predicate Follows(script: seq<Effect>, t: Trace, ok: bool) {
    && |t| <= |script| && (forall i :: 0 <= i < |t| ==> t[i].effect == script[i])
    && (forall i :: 0 <= i < |t| - 1 ==> t[i].ok)
    && if ok then |t| == |script| && forall i :: 0 <= i < |t| ==> t[i].ok else t != [] && !t[|t| - 1].ok
  }

  /** The operations of a resume, in order. */
  const RESUME: seq<Effect> := [StartAgent, OwnSocket, LoadAndResume, AcceptAgent, AfterResume]

  /** The operations that pause the machine and store it; a private mapping is stored by copying files,
      after the process that might still write them has exited. */
  function Snapshot(mapPrivate: bool): seq<Effect> {
    if mapPrivate then [PauseVM, CreateSnapshot(Full), CloseServer, AwaitExit, CopyState, CopyMemory]
    else [PauseVM, CreateSnapshot(MsyncAndState)]
  }

  /** The process has exited with an error, or the agent that was accepted. */
  predicate IsExit(accepting: bool, e: Event) { e == Event(ProcessExit, false) || (accepting && e == Event(AgentExit, false)) }

  /** The operations were done up to some point, and then a background wait failed. */
  predicate BreaksOff(script: seq<Effect>, t: Trace) {
    && t != [] && |t| <= |script| + 1
    && (forall i :: 0 <= i < |t| - 1 ==> t[i] == Event(script[i], true))
    && IsExit(Event(AcceptAgent, true) in t, t[|t| - 1])
  }

  /** A rescue closes the connections, whatever comes of it, and takes a snapshot. */
  predicate IsRescue(mapPrivate: bool, accepting: bool, t: Trace) {
    var n := if accepting then 2 else 1;
    && |t| > n && (accepting ==> t[0].effect == CloseAccepting) && t[n - 1] == Event(CloseAgent, true)
    && exists ok :: Follows(Snapshot(mapPrivate), t[n..], ok)
  }

  lemma {:induction false} FollowsAfter(first: seq<Effect>, t: Trace, second: seq<Effect>, u: Trace, ok: bool)
    requires Follows(first, t, true) && Follows(second, u, ok)
    ensures Follows(first + second, t + u, ok)
  {
  }

  lemma {:induction false} FollowsShort(first: seq<Effect>, t: Trace, second: seq<Effect>)
    requires Follows(first, t, false)
    ensures Follows(first + second, t, false)
  {
  }

  /** What a snapshot adds does not touch what `Valid` speaks of. */
  lemma {:induction false} SnapshotAdds(mapPrivate: bool, t: Trace, u: Trace, ok: bool)
    requires Follows(Snapshot(mapPrivate), u, ok)
    ensures Happened(t + u, AcceptAgent) <==> Happened(t, AcceptAgent)
    ensures Happened(t + u, LoadAndResume) <==> Happened(t, LoadAndResume)
  {
  }

  class ResumedRunner {
    const mapPrivate: bool
    var trace: Trace
    var accepting: bool            // resumedRunner.acceptingAgent is set
    var suspendOnPanicWithError: bool

    ghost predicate Valid()
      reads this
    {
      && Ordered(mapPrivate, trace) && (accepting <==> Happened(trace, AcceptAgent))
      && (suspendOnPanicWithError <==> Happened(trace, LoadAndResume))
    }

    constructor (mapPrivate: bool)
      ensures Valid() && this.mapPrivate == mapPrivate && trace == [] && !accepting
    {
      this.mapPrivate, trace, accepting, suspendOnPanicWithError := mapPrivate, [], false, false;
    }

    /** One operation on the outside. */
    method Try(e: Effect) returns (ok: bool)
      requires Ordered(mapPrivate, trace) && Allowed(mapPrivate, trace, e)
      modifies this`trace
      ensures trace == old(trace) + [Event(e, ok)] && Ordered(mapPrivate, trace)
    {
      ok := *;
      OrderedAppend(mapPrivate, trace, Event(e, ok));
      trace := trace + [Event(e, ok)];
    }

    /** Pauses the machine and stores it. */
    method PauseAndStore(kind: SnapshotType) returns (ok: bool, ghost added: Trace)
      requires Ordered(mapPrivate, trace) && Allowed(mapPrivate, trace, PauseVM) && kind == if mapPrivate then Full else MsyncAndState
      modifies this`trace
      ensures Ordered(mapPrivate, trace) && trace == old(trace) + added
      ensures Follows([PauseVM, CreateSnapshot(kind)], added, ok)
    {
      hide Ordered;
      ok := Try(PauseVM);
      added := [Event(PauseVM, ok)];
      if !ok { return; }
      ok := Try(CreateSnapshot(kind));
      added := [Event(PauseVM, true), Event(CreateSnapshot(kind), ok)];
    }

    /** The snapshot of suspension and rescue. */
    method CreateSnapshotOfVM() returns (ok: bool, ghost added: Trace)
      requires Ordered(mapPrivate, trace) && Allowed(mapPrivate, trace, PauseVM)
      modifies this`trace
      ensures Ordered(mapPrivate, trace) && trace == old(trace) + added
      ensures Follows(Snapshot(mapPrivate), added, ok)
    {
      hide Ordered, Allowed;
      var kind := if mapPrivate then Full else MsyncAndState;
      ok, added := PauseAndStore(kind);
      if !ok {
        if mapPrivate { FollowsShort([PauseVM, CreateSnapshot(Full)], added, [CloseServer, AwaitExit, CopyState, CopyMemory]); }
        return;
      }
      if !mapPrivate { return; }
      ghost var copied: Trace, paused := [], added;
      assert added[1] == Event(CreateSnapshot(Full), true) && added[1] in trace;
      ok, copied := CopyFiles();
      FollowsAfter([PauseVM, CreateSnapshot(Full)], paused, [CloseServer, AwaitExit, CopyState, CopyMemory], copied, ok);
      added := paused + copied;
      hide Follows, Happened;
    }

    method CopyFiles() returns (ok: bool, ghost added: Trace)
      requires Ordered(mapPrivate, trace) && Happened(trace, CreateSnapshot(Full))
      modifies this`trace
      ensures Ordered(mapPrivate, trace) && trace == old(trace) + added
      ensures Follows([CloseServer, AwaitExit, CopyState, CopyMemory], added, ok)
    {
      hide Ordered;
      ok := Try(CloseServer);
      added := [Event(CloseServer, ok)];
      if !ok { return; }
      ok := Try(AwaitExit);
      added := added + [Event(AwaitExit, ok)];
      if !ok { return; }
      ok := Try(CopyState);
      added := added + [Event(CopyState, ok)];
      if !ok { return; }
      ok := Try(CopyMemory);
      added := added + [Event(CopyMemory, ok)];
    }

    /** The background waits, for the process and, once it is accepted, for the agent. */
    method Watch() returns (ok: bool, ghost exit: Event)
      requires Ordered(mapPrivate, trace)
      modifies this`trace
      ensures Ordered(mapPrivate, trace) && trace == if ok then old(trace) else old(trace) + [exit]
      ensures !ok ==> IsExit(accepting, exit)
    {
      hide Ordered;
      ok := *;
      var agent: bool := *;
      var e := Event(if accepting && agent then AgentExit else ProcessExit, false);
      exit := e;
      if !ok {
        OrderedAppend(mapPrivate, trace, e);
        trace := trace + [e];
      }
    }

    /** A look at them after `n` operations of a resume. */
    method WatchAt(ghost n: nat) returns (ok: bool)
      requires Valid() && Done(trace, n)
      modifies this`trace
      ensures Valid() && if ok then trace == old(trace) else BreaksOff(RESUME, trace)
    {
      hide Ordered, Done, BreaksOff;
      ghost var exit;
      ok, exit := Watch();
      DoneHappened(old(trace), n);
      if !ok { Broken(old(trace), n, exit); }
      hide IsExit, Happened;
    }

    /** The next operation of a resume, after a look at the background waits. */
    method TryNext(e: Effect, ghost n: nat) returns (ok: bool)
      requires Valid() && Done(trace, n) && n < |RESUME| && e == RESUME[n]
      modifies this`trace
      ensures Ordered(mapPrivate, trace)
      ensures if ok then Done(trace, n + 1) && (n + 1 == |RESUME| ==> Follows(RESUME, trace, true))
              else Valid() && (Follows(RESUME, trace, false) || BreaksOff(RESUME, trace))
    {
      DoneHappened(trace, n);
      hide Ordered, Follows, BreaksOff, Happened, Done;
      ok := WatchAt(n);
      if !ok { return; }
      Stage(trace, n, e);
      ok := Try(e);
    }

    /** The machine is loaded and goes on. */
    method LoadMachine() returns (ok: bool)
      requires trace == [] && Valid()
      modifies this`trace, this`suspendOnPanicWithError
      ensures Valid() && if ok then Done(trace, 3) else Follows(RESUME, trace, false) || BreaksOff(RESUME, trace)
    {
      assert Done(trace, 0);
      hide Ordered, Follows, BreaksOff, Happened, Done;
      ok := TryNext(StartAgent, 0);
      if !ok { return; }
      DoneHappened(trace, 1);
      ok := TryNext(OwnSocket, 1);
      if !ok { return; }
      DoneHappened(trace, 2);
      ok := TryNext(LoadAndResume, 2);
      if !ok { return; }
      suspendOnPanicWithError := true;
      DoneHappened(trace, 3);
    }

    /** Then its agent is accepted, and told. */
    method AcceptAndTell() returns (ok: bool)
      requires Valid() && Done(trace, 3)
      modifies this`trace, this`accepting
      ensures Valid() && if ok then Follows(RESUME, trace, true) else Follows(RESUME, trace, false) || BreaksOff(RESUME, trace)
    {
      DoneHappened(trace, 3);
      hide Ordered, Follows, BreaksOff, Happened, Done;
      ok := TryNext(AcceptAgent, 3);
      if !ok { return; }
      accepting := true;
      DoneHappened(trace, 4);
      ok := TryNext(AfterResume, 4);
      if !ok { return; }
      DoneHappened(trace, 5);
      ok := WatchAt(5);
    }

    /** The operations are done in order, up to the first failure of one of them or of a background wait. A
        resume that fails is rescued exactly when the machine had been resumed. */
    method Resume() returns (ok: bool, ghost main: Trace, ghost rescue: Trace)
      requires trace == [] && Valid()
      modifies this
      ensures Valid() && trace == main + rescue
      ensures if ok then Follows(RESUME, main, true) else Follows(RESUME, main, false) || BreaksOff(RESUME, main)
      ensures if !ok && Happened(main, LoadAndResume) then IsRescue(mapPrivate, Happened(main, AcceptAgent), rescue) else rescue == []
    {
      hide Ordered, Follows, BreaksOff, Happened, Done, IsRescue;
      ok := LoadMachine();
      if ok { ok := AcceptAndTell(); }
      main, rescue := trace, [];
      assert main + [] == main;
      if !ok && suspendOnPanicWithError { rescue := Rescue(); }
    }

    /** The background waits outlive the resume: when one fails later, also after a rescue or a suspension,
        the machine is rescued (again) exactly when it had been resumed. */
    method FailInBackground(e: Effect) returns (ghost rescue: Trace)
      requires Valid() && IsExit(accepting, Event(e, false))
      modifies this`trace
      ensures Valid() && trace == old(trace) + [Event(e, false)] + rescue
      ensures if Happened(old(trace), LoadAndResume) then IsRescue(mapPrivate, Happened(old(trace), AcceptAgent), rescue) else rescue == []
    {
      hide Ordered, IsRescue;
      OrderedAppend(mapPrivate, trace, Event(e, false));
      trace := trace + [Event(e, false)];
      rescue := [];
      assert trace + [] == trace;
      if suspendOnPanicWithError { rescue := Rescue(); }
    }

    /** Closes the connections, whatever comes of it. */
    method CloseConnections() returns (ghost closing: Trace)
      requires Valid() && Happened(trace, LoadAndResume)
      modifies this`trace
      ensures Valid() && Allowed(mapPrivate, trace, PauseVM) && trace == old(trace) + closing
      ensures |closing| == (if accepting then 2 else 1) && closing[|closing| - 1] == Event(CloseAgent, true)
      ensures accepting ==> closing[0].effect == CloseAccepting
    {
      hide Ordered;
      closing := [];
      if accepting {
        var ok := Try(CloseAccepting);
        closing := [Event(CloseAccepting, ok)];
      }
      CloseAgentServer();
      closing := closing + [Event(CloseAgent, true)];
    }

    /** And takes a snapshot. */
    method Rescue() returns (ghost added: Trace)
      requires Valid() && Happened(trace, LoadAndResume)
      modifies this`trace
      ensures Valid() && trace == old(trace) + added && IsRescue(mapPrivate, accepting, added)
    {
      hide Ordered, Allowed, Happened, Follows, Snapshot, IsRescue;
      ghost var closing := CloseConnections();
      ghost var taken: Trace, before := [], trace;
      var ok;
      ok, taken := CreateSnapshotOfVM();
      added := closing + taken;
      SnapshotAdds(mapPrivate, before, taken, ok);
      RescueOf(mapPrivate, accepting, closing, taken, ok);
    }

    /** Closing the agent's server cannot fail. */
    method CloseAgentServer()
      requires Ordered(mapPrivate, trace)
      modifies this`trace
      ensures trace == old(trace) + [Event(CloseAgent, true)] && Ordered(mapPrivate, trace)
    {
      OrderedAppend(mapPrivate, trace, Event(CloseAgent, true));
      trace := trace + [Event(CloseAgent, true)];
    }

    /** Flushes the shared memory mapping without pausing; with a private mapping it does nothing. */
    method Msync() returns (ok: bool, ghost added: Trace)
      requires Valid()
      modifies this`trace
      ensures Valid() && trace == old(trace) + added
      ensures added == if mapPrivate then [] else [Event(CreateSnapshot(MsyncOnly), ok)]
      ensures mapPrivate ==> ok
    {
      hide Ordered;
      ok, added := true, [];
      if !mapPrivate {
        ok := Try(CreateSnapshot(MsyncOnly));
        added := [Event(CreateSnapshot(MsyncOnly), ok)];
      }
    }

    /** The guest is told first, then its connections are closed. */
    method TellAndClose() returns (ok: bool, ghost added: Trace)
      requires Valid() && accepting && Happened(trace, LoadAndResume)
      modifies this`trace
      ensures Valid() && trace == old(trace) + added && Follows([BeforeSuspend, CloseAccepting, CloseAgent], added, ok)
      ensures ok ==> Allowed(mapPrivate, trace, PauseVM)
    {
      hide Ordered;
      ok := Try(BeforeSuspend);
      added := [Event(BeforeSuspend, ok)];
      if !ok { return; }
      ok := Try(CloseAccepting);
      added := added + [Event(CloseAccepting, ok)];
      if !ok { return; }
      CloseAgentServer();
      added := added + [Event(CloseAgent, true)];
    }

    /** Only then is it paused and stored; an error on the way ends it there. */
    method SuspendAndCloseAgentServer() returns (ok: bool, ghost added: Trace)
      requires Valid() && accepting && Happened(trace, LoadAndResume)
      modifies this`trace
      ensures Valid() && trace == old(trace) + added
      ensures Follows([BeforeSuspend, CloseAccepting, CloseAgent] + Snapshot(mapPrivate), added, ok)
    {
      hide Ordered, Allowed, Happened, Follows, Snapshot;
      ok, added := TellAndClose();
      if !ok {
        FollowsShort([BeforeSuspend, CloseAccepting, CloseAgent], added, Snapshot(mapPrivate));
        return;
      }
      ghost var stored: Trace, before, closing := [], trace, added;
      ok, stored := CreateSnapshotOfVM();
      FollowsAfter([BeforeSuspend, CloseAccepting, CloseAgent], closing, Snapshot(mapPrivate), stored, ok);
      SnapshotAdds(mapPrivate, before, stored, ok);
      added := closing + stored;
    }
  }

  lemma {:induction false} RescueOf(mapPrivate: bool, accepting: bool, closing: Trace, taken: Trace, ok: bool)
    requires Follows(Snapshot(mapPrivate), taken, ok) && |closing| == (if accepting then 2 else 1)
    requires (accepting ==> closing[0].effect == CloseAccepting) && closing[|closing| - 1] == Event(CloseAgent, true)
    ensures IsRescue(mapPrivate, accepting, closing + taken)
  {
    assert (closing + taken)[|closing|..] == taken;
    assert taken != [];
  }

  /** The first `n` operations of a resume, all of which succeeded. */
  predicate Done(t: Trace, n: nat) { n <= |RESUME| && |t| == n && forall i :: 0 <= i < n ==> t[i] == Event(RESUME[i], true) }

  lemma {:induction false} DoneHappened(t: Trace, n: nat)
    requires Done(t, n)
    ensures Happened(t, LoadAndResume) <==> n > 2
    ensures Happened(t, AcceptAgent) <==> n > 3
  {
    if n > 2 { assert t[2] in t; }
    if n > 3 { assert t[3] in t; }
  }

  /** The next operation succeeds or fails. */
  lemma {:induction false} Stage(t: Trace, n: nat, e: Effect)
    requires Done(t, n) && n < |RESUME| && e == RESUME[n]
    ensures Done(t + [Event(e, true)], n + 1) && (n + 1 == |RESUME| ==> Follows(RESUME, t + [Event(e, true)], true))
    ensures var u := t + [Event(e, false)]; Follows(RESUME, u, false) && (Happened(u, LoadAndResume) <==> n > 2) && (Happened(u, AcceptAgent) <==> n > 3)
  {
    DoneHappened(t, n);
  }

  lemma {:induction false} Broken(t: Trace, n: nat, e: Event)
    requires Done(t, n) && IsExit(n > 3, e)
    ensures BreaksOff(RESUME, t + [e])
    ensures (Happened(t + [e], LoadAndResume) <==> n > 2) && (Happened(t + [e], AcceptAgent) <==> n > 3)
  {
    DoneHappened(t, n);
    if n > 3 { assert t[3] in t + [e]; }
  }

  /* -------------------------------------------------------- the end of a process */

  /** The goroutine that turns the end of the hypervisor's context into the end of the process waits for
      the resumes that are under way. */
  datatype Killer = AwaitsCancel | AwaitsResumes | Kills | Ended

  /** The goroutine of a migrated peer that closes it, and with it the runner. */
  datatype Watcher = NoMigration | Selects | AwaitsHypervisor | Closed

  /** `begun` counts the resumes; `ongoing` holds those that are under way, by number, and `stored` those
      among them whose rescue has taken the full snapshot of a private mapping. */
  datatype Process = Process(
    cancelled: bool, rescueCancelled: bool,      // the contexts of the hypervisor and of rescues
    migrationEnded: bool, ready: bool,           // the context of a migration, and its second signal
    begun: nat, ongoing: set<nat>, stored: set<nat>,
    killer: Killer, watcher: Watcher,
    closing: bool,                               // a caller has come to the server's Close
    killed: bool)

  const LAUNCHED := Process(false, false, false, false, 0, {}, {}, AwaitsCancel, NoMigration, false, false)

  datatype Step =
    | CancelHypervisor | CancelRescue | StartMigration | EndMigration | SignalReady
    | BeginResume | EndResume(r: nat) | StoreFull(r: nat) | CallClose
    | SeeCancel | SeeNoResume | CancelFirecracker
    | SeeMigrationEnd | SeeReady | SeeHypervisorEnd | CloseByRescue(r: nat) | Kill

  /** The steps of the goroutines that are under way; the others come from callers and their contexts, or
      end a resume or fail it. */
  predicate IsOwn(s: Step) {
    s.SeeCancel? || s.SeeNoResume? || s.CancelFirecracker? || s.SeeMigrationEnd? || s.SeeReady? || s.SeeHypervisorEnd?
    || s.CloseByRescue? || s.Kill?
  }

  /** The server's Close kills without looking at the resumes. Besides its callers, the end of the context
      of the process brings it about, which derives from the one for rescues and is ended by the killer. */
  predicate Can(p: Process, s: Step) {
    match s
    case StartMigration => p.watcher.NoMigration?
    case EndResume(r) => r in p.ongoing
    case StoreFull(r) => r in p.ongoing
    case SeeCancel => p.killer.AwaitsCancel? && p.cancelled
    case SeeNoResume => p.killer.AwaitsResumes? && p.ongoing == {}
    case CancelFirecracker => p.killer.Kills?
    case SeeMigrationEnd => p.watcher.Selects? && p.migrationEnded
    case SeeReady => p.watcher.Selects? && p.ready
    case SeeHypervisorEnd => p.watcher.AwaitsHypervisor? && p.cancelled
    case CloseByRescue(r) => r in p.stored
    case Kill => !p.killed && (p.closing || p.rescueCancelled || p.killer.Ended?)
    case _ => true
  }

  function OngoingAfter(p: Process, s: Step): set<nat> {
    if s.BeginResume? then p.ongoing + {p.begun} else if s.EndResume? then p.ongoing - {s.r} else p.ongoing
  }

  function StoredFull(p: Process, s: Step): set<nat> {
    if s.StoreFull? then p.stored + {s.r} else if s.EndResume? then p.stored - {s.r} else p.stored
  }

  function KillerAfter(k: Killer, s: Step): Killer {
    if s.SeeCancel? then AwaitsResumes else if s.SeeNoResume? then Kills else if s.CancelFirecracker? then Ended else k
  }

  function WatcherAfter(w: Watcher, s: Step): Watcher {
    if s.StartMigration? then Selects
    else if s.SeeReady? then AwaitsHypervisor
    else if s.SeeMigrationEnd? || s.SeeHypervisorEnd? then Closed
    else w
  }

  predicate Closes(s: Step) { s.CallClose? || s.SeeMigrationEnd? || s.SeeHypervisorEnd? || s.CloseByRescue? }

  function Do(p: Process, s: Step): Process
    requires Can(p, s)
  {
    Process(
      p.cancelled || s.CancelHypervisor?,
      p.rescueCancelled || s.CancelRescue?,
      p.migrationEnded || s.EndMigration?,
      p.ready || s.SignalReady?,
      if s.BeginResume? then p.begun + 1 else p.begun,
      OngoingAfter(p, s),
      StoredFull(p, s),
      KillerAfter(p.killer, s),
      WatcherAfter(p.watcher, s),
      p.closing || Closes(s),
      p.killed || s.Kill?)
  }

  ghost predicate IsLife(ps: seq<Process>, steps: seq<Step>) {
    && |ps| == |steps| + 1 && ps[0] == LAUNCHED
    && forall i :: 0 <= i < |steps| ==> Can(ps[i], steps[i]) && ps[i + 1] == Do(ps[i], steps[i])
  }

  predicate Waits(k: Killer) { k.AwaitsCancel? || k.AwaitsResumes? }

  ghost predicate ProcessOk(p: Process) {
    && (!p.killer.AwaitsCancel? ==> p.cancelled)
    && (p.killed ==> p.closing || p.rescueCancelled || p.killer.Ended?)
    && (p.watcher.Closed? ==> p.closing)
    && forall r :: r in p.ongoing ==> r < p.begun
  }

  lemma {:induction false} StepKeepsOk(p: Process, s: Step)
    requires Can(p, s) && ProcessOk(p)
    ensures ProcessOk(Do(p, s))
  {
    forall r | r in Do(p, s).ongoing ensures r < Do(p, s).begun {
      StepOngoing(p, s, r);
    }
    StepBegun(p, s);
    StepKiller(p, s);
    StepWatcher(p, s);
    StepKill(p, s);
    hide Do, Can;
  }

  lemma {:induction false} StepBegun(p: Process, s: Step)
    requires Can(p, s)
    ensures p.begun <= Do(p, s).begun
  {
  }

  /** No resume begins again. */
  lemma {:induction false} StepOngoing(p: Process, s: Step, r: nat)
    requires Can(p, s) && r in Do(p, s).ongoing
    ensures r in p.ongoing || p.begun == r < Do(p, s).begun
  {
  }

  /** The killer waits for the resumes that are under way. */
  lemma {:induction false} StepKiller(p: Process, s: Step)
    requires Can(p, s)
    ensures Waits(p.killer) && p.ongoing != {} ==> Waits(Do(p, s).killer)
    ensures p.cancelled ==> Do(p, s).cancelled
    ensures !Do(p, s).killer.AwaitsCancel? ==> Do(p, s).cancelled || !p.killer.AwaitsCancel?
  {
  }

  /** A migrated peer stays watched until it is closed. */
  lemma {:induction false} StepWatcher(p: Process, s: Step)
    requires Can(p, s)
    ensures p.watcher.AwaitsHypervisor? || p.watcher.Closed? ==> Do(p, s).watcher.AwaitsHypervisor? || Do(p, s).watcher.Closed?
    ensures Do(p, s).watcher.Closed? ==> Do(p, s).closing || p.watcher.Closed?
  {
  }

  lemma {:induction false} StepKill(p: Process, s: Step)
    requires Can(p, s)
    ensures (p.closing ==> Do(p, s).closing) && (p.rescueCancelled ==> Do(p, s).rescueCancelled)
    ensures p.killer.Ended? ==> Do(p, s).killer.Ended?
    ensures Do(p, s).killed ==> p.killed || p.closing || p.rescueCancelled || p.killer.Ended?
  {
  }

  /** What holds at every moment of every life. */
  lemma {:induction false} LifeOk(ps: seq<Process>, steps: seq<Step>, i: nat)
    requires IsLife(ps, steps) && i < |ps|
    ensures ProcessOk(ps[i])
  {
    if i > 0 {
      LifeOk(ps, steps, i - 1);
      StepKeepsOk(ps[i - 1], steps[i - 1]);
    }
    hide Can, Do;
  }

  /** A resume that is under way keeps the killer from going on, if it began before the cancel, or after it
      while the killer still waited. */
  lemma {:induction false} ResumeHoldsKiller(ps: seq<Process>, steps: seq<Step>, i: nat, k: nat, r: nat)
    requires IsLife(ps, steps) && i <= k < |ps|
    requires (!ps[i].cancelled || Waits(ps[i].killer)) && r in ps[i].ongoing && r in ps[k].ongoing
    ensures ps[i].begun <= ps[k].begun && Waits(ps[k].killer)
    decreases k
  {
    hide Can, Do;
    LifeOk(ps, steps, i);
    if i < k {
      BegunGrows(ps, steps, i, k - 1);
      StepOngoing(ps[k - 1], steps[k - 1], r);
      StepBegun(ps[k - 1], steps[k - 1]);
      StepKiller(ps[k - 1], steps[k - 1]);
      ResumeHoldsKiller(ps, steps, i, k - 1, r);
    }
  }

  lemma {:induction false} BegunGrows(ps: seq<Process>, steps: seq<Step>, i: nat, k: nat)
    requires IsLife(ps, steps) && i <= k < |ps|
    ensures ps[i].begun <= ps[k].begun
    decreases k
  {
    hide Can, Do;
    if i < k {
      BegunGrows(ps, steps, i, k - 1);
      StepBegun(ps[k - 1], steps[k - 1]);
    }
  }

  /** The goroutines' own steps `own` lead to the kill. No resume ends on the way. */
  ghost predicate LeadsToKill(p: Process, own: seq<Step>)
    decreases |own|
  {
    p.killed || (own != [] && IsOwn(own[0]) && Can(p, own[0]) && LeadsToKill(Do(p, own[0]), own[1..]))
  }

  /** Nothing more has to come from outside: left to its goroutines, the process can be killed at once. */
  ghost predicate IsDoomed(p: Process) { exists own: seq<Step> :: LeadsToKill(p, own) }

  /** The goroutine of a migrated peer closes it when the hypervisor's context ends, or before readiness
      when the migration's does. */
  predicate PeerCloses(p: Process) {
    match p.watcher
    case NoMigration => false
    case Selects => p.migrationEnded || (p.ready && p.cancelled)
    case AwaitsHypervisor => p.cancelled
    case Closed => true
  }

  predicate IsClosed(p: Process) { p.closing || PeerCloses(p) || p.stored != {} }

  lemma {:induction false} ClosingIsDoomed(p: Process)
    requires p.rescueCancelled || p.closing
    ensures IsDoomed(p)
  {
    assert LeadsToKill(if p.killed then p else Do(p, Kill), []);
    assert LeadsToKill(p, [Kill]);
  }

  lemma {:induction false} DoomedBefore(p: Process, s: Step)
    requires IsOwn(s) && Can(p, s) && IsDoomed(Do(p, s))
    ensures IsDoomed(p)
  {
    var own: seq<Step> :| LeadsToKill(Do(p, s), own);
    assert ([s] + own)[1..] == own;
    assert LeadsToKill(p, [s] + own);
  }

  /** From where the process is closed, the goroutines come to the kill. */
  lemma {:induction false} ClosedIsDoomed(p: Process)
    requires ProcessOk(p) && (p.rescueCancelled || IsClosed(p))
    ensures IsDoomed(p)
  {
    hide IsDoomed;
    if p.closing || p.rescueCancelled {
      ClosingIsDoomed(p);
    } else if r :| r in p.stored {
      ClosingIsDoomed(Do(p, CloseByRescue(r)));
      DoomedBefore(p, CloseByRescue(r));
    } else if p.watcher.AwaitsHypervisor? {
      ClosingIsDoomed(Do(p, SeeHypervisorEnd));
      DoomedBefore(p, SeeHypervisorEnd);
    } else if p.migrationEnded {
      ClosingIsDoomed(Do(p, SeeMigrationEnd));
      DoomedBefore(p, SeeMigrationEnd);
    } else {
      var q := Do(p, SeeReady);
      ClosingIsDoomed(Do(q, SeeHypervisorEnd));
      DoomedBefore(q, SeeHypervisorEnd);
      DoomedBefore(p, SeeReady);
    }
  }

  /** Where it is not, they do not, as long as a resume holds the killer. */
  lemma {:induction false} OpenIsKept(p: Process, own: seq<Step>, r: nat)
    requires r in p.ongoing && Waits(p.killer) && !p.killed && !p.rescueCancelled && !IsClosed(p)
    ensures !LeadsToKill(p, own)
    decreases |own|
  {
    if own != [] && IsOwn(own[0]) && Can(p, own[0]) { OpenIsKept(Do(p, own[0]), own[1..], r); }
  }

  /** In every life, at every moment at which a resume, and with it its rescue, is under way since before
      the hypervisor was cancelled: without any further step from outside, the process can be killed
      exactly when the context for rescues was cancelled, or the process is closed, by a caller, by the
      rescue of a private mapping, or by a migrated peer because its hypervisor was cancelled. */
  lemma {:induction false} KilledDuringResumeExactly(ps: seq<Process>, steps: seq<Step>, i: nat, k: nat, r: nat)
    requires IsLife(ps, steps) && i <= k < |ps|
    requires (!ps[i].cancelled || Waits(ps[i].killer)) && r in ps[i].ongoing && r in ps[k].ongoing
    ensures IsDoomed(ps[k]) <==> ps[k].rescueCancelled || IsClosed(ps[k])
  {
    hide Can, Do;
    ResumeHoldsKiller(ps, steps, i, k, r);
    LifeOk(ps, steps, k);
    if ps[k].rescueCancelled || IsClosed(ps[k]) {
      ClosedIsDoomed(ps[k]);
    } else {
      forall own: seq<Step> ensures !LeadsToKill(ps[k], own) { OpenIsKept(ps[k], own, r); }
    }
  }

  /** Where nothing is under way, the goroutines go on to the kill exactly from the cancel on, or where the
      process is closed anyway. */
  lemma {:induction false} IdleProcessEndsExactly(ps: seq<Process>, steps: seq<Step>, k: nat)
    requires IsLife(ps, steps) && k < |ps| && ps[k].ongoing == {}
    ensures IsDoomed(ps[k]) <==> ps[k].cancelled || ps[k].rescueCancelled || IsClosed(ps[k])
  {
    hide Can, Do;
    LifeOk(ps, steps, k);
    if ps[k].rescueCancelled || IsClosed(ps[k]) {
      ClosedIsDoomed(ps[k]);
    } else if ps[k].cancelled {
      CancelledIsDoomed(ps[k]);
    } else {
      forall own: seq<Step> ensures !LeadsToKill(ps[k], own) { UncancelledIsKept(ps[k], own); }
    }
  }

  lemma {:induction false} CancelledIsDoomed(p: Process)
    requires p.cancelled && p.ongoing == {}
    ensures IsDoomed(p)
  {
    hide IsDoomed;
    match p.killer
    case AwaitsCancel =>
      WaitedIsDoomed(Do(p, SeeCancel));
      DoomedBefore(p, SeeCancel);
    case AwaitsResumes => WaitedIsDoomed(p);
    case Kills => KillsIsDoomed(p);
    case Ended => EndedIsDoomed(p);
  }

  lemma {:induction false} WaitedIsDoomed(p: Process)
    requires p.killer.AwaitsResumes? && p.ongoing == {}
    ensures IsDoomed(p)
  {
    hide IsDoomed;
    KillsIsDoomed(Do(p, SeeNoResume));
    DoomedBefore(p, SeeNoResume);
  }

  lemma {:induction false} KillsIsDoomed(p: Process)
    requires p.killer.Kills?
    ensures IsDoomed(p)
  {
    hide IsDoomed;
    EndedIsDoomed(Do(p, CancelFirecracker));
    DoomedBefore(p, CancelFirecracker);
  }

  lemma {:induction false} EndedIsDoomed(p: Process)
    requires p.killer.Ended?
    ensures IsDoomed(p)
  {
    assert LeadsToKill(if p.killed then p else Do(p, Kill), []);
    assert LeadsToKill(p, [Kill]);
  }

  lemma {:induction false} UncancelledIsKept(p: Process, own: seq<Step>)
    requires ProcessOk(p) && !p.cancelled && !p.rescueCancelled && !IsClosed(p) && !p.killed
    ensures !LeadsToKill(p, own)
    decreases |own|
  {
    if own != [] && IsOwn(own[0]) && Can(p, own[0]) {
      StepKeepsOk(p, own[0]);
      UncancelledIsKept(Do(p, own[0]), own[1..]);
    }
  }

  /** So a runner that nobody closes and that no peer has migrated keeps the promise. */
  lemma {:induction false} RunnerKeepsItsResumes(ps: seq<Process>, steps: seq<Step>, i: nat, k: nat, r: nat)
    requires IsLife(ps, steps) && i <= k < |ps|
    requires !ps[i].cancelled && r in ps[i].ongoing && r in ps[k].ongoing
    requires forall j :: 0 <= j < k ==> ClosesNothing(steps[j])
    ensures IsDoomed(ps[k]) <==> ps[k].rescueCancelled
  {
    hide IsDoomed;
    NobodyCloses(ps, steps, k);
    KilledDuringResumeExactly(ps, steps, i, k, r);
  }

  /** Neither a caller, nor a migration, nor the rescue of a private mapping. */
  predicate ClosesNothing(s: Step) { !s.CallClose? && !s.StartMigration? && !s.StoreFull? }

  lemma {:induction false} StepOpen(p: Process, s: Step)
    requires Can(p, s) && ClosesNothing(s) && p.watcher.NoMigration? && !p.closing && p.stored == {}
    ensures var q := Do(p, s); q.watcher.NoMigration? && !q.closing && q.stored == {}
  {
  }

  lemma {:induction false} NobodyCloses(ps: seq<Process>, steps: seq<Step>, k: nat)
    requires IsLife(ps, steps) && k < |ps| && forall j :: 0 <= j < k ==> ClosesNothing(steps[j])
    ensures ps[k].watcher.NoMigration? && !ps[k].closing && ps[k].stored == {}
  {
    hide Can, Do, ClosesNothing;
    if k > 0 {
      NobodyCloses(ps, steps, k - 1);
      StepOpen(ps[k - 1], steps[k - 1]);
    }
  }

  /** A migrated peer does not: from the cancel on, every resume can be killed, whenever it began. */
  lemma {:induction false} PeerDropsItsResumes(ps: seq<Process>, steps: seq<Step>, i: nat, k: nat)
    requires IsLife(ps, steps) && i <= k < |ps| && ps[i].watcher.AwaitsHypervisor? && ps[k].cancelled
    ensures IsDoomed(ps[k])
  {
    hide IsDoomed;
    StaysWatched(ps, steps, i, k);
    LifeOk(ps, steps, k);
    ClosedIsDoomed(ps[k]);
  }

  lemma {:induction false} StaysWatched(ps: seq<Process>, steps: seq<Step>, i: nat, k: nat)
    requires IsLife(ps, steps) && i <= k < |ps| && ps[i].watcher.AwaitsHypervisor?
    ensures ps[k].watcher.AwaitsHypervisor? || ps[k].watcher.Closed?
    decreases k
  {
    hide Can, Do;
    if i < k {
      StaysWatched(ps, steps, i, k - 1);
      StepWatcher(ps[k - 1], steps[k - 1]);
    }
  }

  lemma {:induction false} LiveOn(ps: seq<Process>, steps: seq<Step>, s: Step) returns (qs: seq<Process>, ss: seq<Step>)
    requires IsLife(ps, steps) && |ps| == |steps| + 1 && Can(ps[|steps|], s)
    ensures qs == ps + [Do(ps[|steps|], s)] && ss == steps + [s] && IsLife(qs, ss)
  {
    qs, ss := ps + [Do(ps[|steps|], s)], steps + [s];
    hide Can, Do;
    forall i | 0 <= i < |ss| ensures Can(qs[i], ss[i]) && qs[i + 1] == Do(qs[i], ss[i]) {}
  }

  /** Every life in which a ready peer is resuming goes on like this: its hypervisor is cancelled, and the
      process is killed under the resume, without a caller of Close, and with the context for rescues as it
      was. */
  lemma {:induction false} PeerKilledDuringResume(ps: seq<Process>, steps: seq<Step>, r: nat) returns (qs: seq<Process>, ss: seq<Step>)
    requires IsLife(ps, steps) && |ps| == |steps| + 1
    requires var p := ps[|steps|]; p.watcher.AwaitsHypervisor? && r in p.ongoing && !p.killed
    ensures IsLife(qs, ss) && ss == steps + [CancelHypervisor] + [SeeHypervisorEnd] + [Kill] && ps <= qs && |qs| == |ss| + 1
    ensures var p, q := ps[|steps|], qs[|ss|]; q.killed && r in q.ongoing && q.rescueCancelled == p.rescueCancelled
  {
    hide IsLife;
    qs, ss := LiveOn(ps, steps, CancelHypervisor);
    qs, ss := LiveOn(qs, ss, SeeHypervisorEnd);
    qs, ss := LiveOn(qs, ss, Kill);
  }

  lemma {:induction false} LifeBegins()
    ensures IsLife([LAUNCHED], [])
  {
  }

  /** And there is such a life, with a resume that began before any cancel. */
  lemma {:induction false} ReadyPeerResumes() returns (ps: seq<Process>, steps: seq<Step>)
    ensures IsLife(ps, steps) && |ps| == |steps| + 1
    ensures var p := ps[|steps|]; p.watcher.AwaitsHypervisor? && 0 in p.ongoing && !p.cancelled && !p.rescueCancelled && !p.killed
  {
    hide IsLife;
    LifeBegins();
    ps, steps := LiveOn([LAUNCHED], [], StartMigration);
    ps, steps := LiveOn(ps, steps, SignalReady);
    ps, steps := LiveOn(ps, steps, SeeReady);
    ps, steps := LiveOn(ps, steps, BeginResume);
  }
}
