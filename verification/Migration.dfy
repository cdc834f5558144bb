/** One live migration as a step machine: the guest, one goroutine per served device with the
    variables it shares with the others, the connection, and the receiver. Every step is one that
    another goroutine can observe: taking a snapshot of the dirty set and reading `suspendedVM`,
    for example, are two steps. */
module Migration {
  import opened Cycles
  import opened Options

  /** The bytes of one block, as a number. */
  type Data = int

  /** How a device is written: through its block device, through the mapped guest memory,
      or only when a snapshot stores the virtual machine's state. */
  datatype Kind = Disk | Memory | VmState

  datatype Mode = Peer | Mounter

  datatype DeviceConfig = DeviceConfig(kind: Kind, blocks: nat, limits: Limits)

  /** `tracksUnread`: whether the dirty tracker also records writes to blocks that are already
      due to be read; the claims below hold for both. */
  datatype Config = Config(mode: Mode, devices: seq<DeviceConfig>, mapPrivate: bool,
                           stateOutput: string, memoryOutput: string, tracksUnread: bool)
  {
    function N(): nat { |devices| }

    /** Guest writes reach the device at once; a mounter has only such devices. */
    predicate Direct(d: nat)
      requires d < N()
    {
      mode.Mounter? || devices[d].kind.Disk?
    }

    /** Whether the snapshot taken at suspension is written to the migrated device itself. */
    predicate Reaches(k: Kind) {
      match k
      case Disk => true
      case VmState => !mapPrivate || stateOutput == ""
      case Memory => !mapPrivate || memoryOutput == ""
    }
  }

  /** Where a device goroutine stands; each value names the operation that comes next. */
  datatype Pc =
    | SendInfo | AddSent | LoadSent | Initial
    | LoopTop | Msync | AwaitBatch | Drain | Unlock | CheckFlag | Announce | Throttle | Count | Test | CallSuspend
    | Authority | AwaitCompletion | Complete | Done

  datatype Announcement = NotDue | Due | Announced

  /** The local variables of one device goroutine. */
  datatype Control = Control(
    pc: Pc,
    failed: bool,
    locked: bool,                  // it holds the storage lock
    last: nat,                     // length of the last drain
    cycles: Counters,
    announcement: Announcement,    // the goroutine that sends AllDevicesSent
    drainedSuspended: bool,        // whether suspendedVM was set when the last drain began
    suspendReturned: bool)         // whether an own call of suspendAndMsyncVM has returned

  /** One device's data on the source. */
  datatype Volume = Volume(
    guest: seq<Data>,              // what the guest sees
    src: seq<Data>,                // what the source's storage holds
    unsynced: set<nat>,            // guest writes that have not reached the storage
    dirty: set<nat>,               // recorded by the dirty tracker since the last drain
    pending: set<nat>,             // drained, not yet read by the migrator
    reading: map<nat, Data>)       // read by the migrator, not yet on the connection

  datatype Dev = Dev(ctl: Control, vol: Volume)

  /** The operations inside suspendAndMsyncVM, in order. */
  datatype Stage = CloseAgent | Pause | FlushState | FlushMemory | FinalMsync | RaiseFlag

  datatype Suspension = Idle | InProgress(caller: nat, stage: Stage) | Suspended | SuspendFailed

  datatype Message =
    | DevInfo(d: nat)
    | AllSent(d: nat)
    | WriteAt(d: nat, block: nat, data: Data)
    | DirtyList(d: nat, blocks: set<nat>)
    | TransferAuthority(d: nat)
    | Completed(d: nat)

  datatype Progress = WaitReceived | WaitReady | Returned | Resumed

  datatype Destination = Destination(
    stores: seq<map<nat, Data>>,   // the blocks that the waiting cache would serve
    received: set<nat>,
    authorised: set<nat>,
    counter: int,                  // receivedButNotReadyRemoteDevices
    allReceived: bool,             // the two once-signals
    ready: bool,
    eof: bool,                     // the connection has closed; what is queued is lost
    progress: Progress)

  /** The variables that the goroutines of the source share, and its virtual machine. */
  datatype Shared = Shared(
    sentCount: nat,                // devicesLeftToSend
    readyCount: nat,               // devicesLeftToTransferAuthorityFor
    lockHolder: Option<nat>,       // suspendedVMLock, where a goroutine keeps it over several steps
    suspension: Suspension,
    running: bool)
  {
    predicate IsSuspended() { suspension.Suspended? }
    predicate LockFree() { lockHolder.None? }
  }

  datatype State = State(
    devs: seq<Dev>,
    shared: Shared,
    queue: seq<Message>,           // undelivered, in sending order
    dst: Destination)

  function Put(m: map<nat, Data>, b: nat, v: Data): map<nat, Data> { m[b := v] }

  function Blocks(n: nat): (r: set<nat>)
    ensures forall b: nat :: b in r <==> b < n
    ensures |r| == n
  {
    if n == 0 then {} else Blocks(n - 1) + {n - 1}
  }

  /* ---------------------------------------------------------------- storage */

  function Recorded(cfg: Config, v: Volume, written: set<nat>): set<nat> {
    if cfg.tracksUnread then written else written - v.pending
  }

  /** `written` blocks of the storage take the content that the guest sees. */
  function Flush(cfg: Config, v: Volume, written: set<nat>): Volume {
    v.(src := v.guest, unsynced := {}, dirty := v.dirty + Recorded(cfg, v, written))
  }

  /** A flush of the devices of one kind: only of what is unsynced, or of the whole device. */
  function FlushKind(cfg: Config, d: nat, v: Volume, kind: Kind, whole: bool): Volume
    requires d < cfg.N()
  {
    if cfg.devices[d].kind != kind then v
    else Flush(cfg, v, if whole then Blocks(|v.guest|) else v.unsynced)
  }

  /** What the snapshots of the virtual machine do: an `Msync` does nothing when the memory is
      mapped privately, and a full one stores each file where it was told to. */
  datatype Effect = NoEffect | MsyncMemory | StoreFile(kind: Kind)

  function Flushed(cfg: Config, d: nat, v: Volume, e: Effect): (r: Volume)
    requires d < cfg.N() && |v.guest| == |v.src|
    ensures |r.src| == |v.src| && r.guest == v.guest
    ensures (r.pending, r.reading) == (v.pending, v.reading)
  {
    match e
    case NoEffect => v
    case MsyncMemory => if cfg.mapPrivate then v else FlushKind(cfg, d, v, Memory, false)
    case StoreFile(kind) => if cfg.Reaches(kind) then FlushKind(cfg, d, v, kind, kind.VmState? || cfg.mapPrivate) else v
  }

  /** A device that would be written must not be locked. */
  predicate CanFlush(cfg: Config, devs: seq<Dev>, e: Effect)
    requires |devs| == cfg.N()
  {
    match e
    case NoEffect => true
    case MsyncMemory => cfg.mapPrivate || Unlocked(cfg, devs, Memory)
    case StoreFile(kind) => cfg.Reaches(kind) ==> Unlocked(cfg, devs, kind)
  }

  predicate Unlocked(cfg: Config, devs: seq<Dev>, kind: Kind)
    requires |devs| == cfg.N()
  {
    forall i :: 0 <= i < |devs| && cfg.devices[i].kind == kind ==> !devs[i].ctl.locked
  }

  /* ------------------------------------------------------------------- steps */

  /** The operations on one device: of its goroutines, of the guest, and of the kernel. */
  datatype Op =
    | SendDevInfo | AddSentDevice | LoadSentDevices | AnnounceAllSent
    | ReadBlock(block: nat) | SendBlock(block: nat) | FinishInitial
    | LockForMsync | MsyncAndUnlock | WaitForBatch
    | GetLatestDirty | UnlockStorage | ReadSuspended
    | SendDirtyList | WaitThrottle | CountDirty | LoadReady
    | EnterSuspend | SuspendStep
    | SendAuthority | WaitForCompletion | SendCompleted
    | Fail
    | GuestWrite(block: nat, data: Data) | Writeback(block: nat)

  datatype Event =
    | Deliver | Eof | PassReceived | PassReady | ResumeDestination
    | DestinationWrite(d: nat, block: nat, data: Data)

  datatype Action = OnDevice(d: nat, op: Op) | AtDestination(event: Event)

  /** Where the device goroutine must be for the operations that are its own code. */
  function Where(op: Op): Option<Pc> {
    match op
    case SendDevInfo => Some(SendInfo)
    case AddSentDevice => Some(AddSent)
    case LoadSentDevices => Some(LoadSent)
    case FinishInitial => Some(Initial)
    case LockForMsync => Some(LoopTop)
    case MsyncAndUnlock => Some(Msync)
    case WaitForBatch => Some(AwaitBatch)
    case GetLatestDirty => Some(Drain)
    case UnlockStorage => Some(Unlock)
    case ReadSuspended => Some(CheckFlag)
    case SendDirtyList => Some(Announce)
    case WaitThrottle => Some(Throttle)
    case CountDirty => Some(Count)
    case LoadReady => Some(Test)
    case EnterSuspend => Some(CallSuspend)
    case SuspendStep => Some(CallSuspend)
    case SendAuthority => Some(Authority)
    case WaitForCompletion => Some(AwaitCompletion)
    case SendCompleted => Some(Complete)
    case _ => None
  }

  /** The migrator is not reading blocks. */
  predicate NotSending(pc: Pc) { pc.SendInfo? || pc.AddSent? || pc.LoadSent? || pc.Announce? }

  /** The batch of the last drain has reached the connection. */
  predicate BatchSent(v: Volume) { v.pending == {} && v.reading == map[] }

  /** What the operation needs from the goroutine and the shared variables. */
  predicate ControlReady(sh: Shared, d: nat, c: Control, op: Op) {
    && (Where(op).Some? || op.ReadBlock? || op.SendBlock? || op.Fail? ==> !c.failed)
    && (Where(op).Some? ==> c.pc == Where(op).value)
    && match op
       case AnnounceAllSent => c.announcement == Due
       case ReadBlock(_) => !NotSending(c.pc)
       case LockForMsync => sh.LockFree()
       case ReadSuspended => sh.LockFree()
       case WaitThrottle => sh.LockFree()
       case EnterSuspend => sh.suspension.Idle? || sh.suspension.Suspended?
       case SuspendStep =>
         sh.suspension.InProgress? && sh.suspension.caller == d && (sh.suspension.stage.RaiseFlag? ==> sh.LockFree())
       case Fail => c.pc != Done
       case GuestWrite(_, _) => sh.running
       case _ => true
  }

  /** What it needs from the device's data. */
  predicate VolumeReady(cfg: Config, d: nat, dv: Dev, op: Op)
    requires d < cfg.N()
  {
    match op
    case ReadBlock(b) => b in dv.vol.pending && b < |dv.vol.src|
    case SendBlock(b) => b in dv.vol.reading
    case FinishInitial => BatchSent(dv.vol)
    case WaitForBatch => BatchSent(dv.vol)
    case GuestWrite(b, _) => b < |dv.vol.guest| && (cfg.Direct(d) ==> !dv.ctl.locked)
    case Writeback(b) =>
      && cfg.mode.Peer? && cfg.devices[d].kind.Memory? && !cfg.mapPrivate
      && b in dv.vol.unsynced && b < |dv.vol.guest| && !dv.ctl.locked
    case _ => true
  }

  /** The storage effect of an operation, on all devices of a kind. */
  function EffectOf(sh: Shared, op: Op): Effect {
    if op.MsyncAndUnlock? || AtStage(sh, op, FinalMsync) then MsyncMemory
    else if AtStage(sh, op, FlushState) then StoreFile(VmState)
    else if AtStage(sh, op, FlushMemory) then StoreFile(Memory)
    else NoEffect
  }

  /** Which operation of suspendAndMsyncVM is next, if the step is one. */
  predicate AtStage(sh: Shared, op: Op, stage: Stage) {
    op.SuspendStep? && sh.suspension.InProgress? && sh.suspension.stage == stage
  }

  predicate CanRun(cfg: Config, s: State, d: nat, op: Op)
    requires |s.devs| == cfg.N() && d < cfg.N()
  {
    && ControlReady(s.shared, d, s.devs[d].ctl, op)
    && VolumeReady(cfg, d, s.devs[d], op)
    && CanFlush(cfg, s.devs, EffectOf(s.shared, op))
  }

  /** Only the memory device is synced, and only while suspendedVM is not set. */
  predicate MustMsync(cfg: Config, sh: Shared, d: nat)
    requires d < cfg.N()
  {
    cfg.mode.Peer? && !sh.IsSuspended() && cfg.devices[d].kind.Memory?
  }

  function DrainControl(c: Control, dirty: nat, suspended: bool): Control {
    var next := c.(last := dirty, drainedSuspended := suspended);
    if dirty == 0 then next.(locked := true, pc := Unlock) else next.(pc := Announce)
  }

  /** What the operation does to the goroutine; `dirty` is how many blocks a drain returns. */
  function ControlAfter(cfg: Config, sh: Shared, d: nat, c: Control, dirty: nat, op: Op): Control
    requires d < cfg.N()
  {
    match op
    case SendDevInfo => c.(pc := AddSent)
    case AddSentDevice => c.(pc := LoadSent)
    case LoadSentDevices => c.(pc := Initial, announcement := if sh.sentCount >= cfg.N() then Due else NotDue)
    case AnnounceAllSent => c.(announcement := Announced)
    case FinishInitial => c.(pc := LoopTop)
    case LockForMsync => c.(pc := if MustMsync(cfg, sh, d) then Msync else AwaitBatch)
    case MsyncAndUnlock => c.(pc := AwaitBatch)
    case WaitForBatch => c.(pc := Drain)
    case GetLatestDirty => DrainControl(c, dirty, sh.IsSuspended())
    case UnlockStorage => c.(locked := false, pc := CheckFlag)
    case ReadSuspended => c.(pc := if sh.IsSuspended() then Authority else Throttle)
    case SendDirtyList => c.(pc := Throttle)
    case WaitThrottle => c.(pc := Count)
    case CountDirty => c.(pc := Test, cycles := CountCycle(cfg.devices[d].limits, c.cycles, c.last))
    case LoadReady => c.(pc := if sh.readyCount >= cfg.N() then CallSuspend else LoopTop)
    case EnterSuspend => if sh.suspension.Idle? then c else c.(pc := LoopTop, suspendReturned := true)
    case SendAuthority => c.(pc := AwaitCompletion)
    case WaitForCompletion => c.(pc := Complete)
    case SendCompleted => c.(pc := Done)
    case Fail => c.(failed := true)
    case _ => c
  }

  function WriteGuest(cfg: Config, v: Volume, direct: bool, b: nat, data: Data): Volume
    requires b < |v.guest| == |v.src|
  {
    var next := v.(guest := v.guest[b := data]);
    if direct then next.(src := v.src[b := data], dirty := v.dirty + Recorded(cfg, v, {b}))
    else next.(unsynced := v.unsynced + {b})
  }

  function WritebackBlock(cfg: Config, v: Volume, b: nat): Volume
    requires b < |v.guest| == |v.src|
  {
    v.(src := v.src[b := v.guest[b]], unsynced := v.unsynced - {b}, dirty := v.dirty + Recorded(cfg, v, {b}))
  }

  /** What the operation does to the device's data. */
  function VolumeAfter(cfg: Config, d: nat, dv: Dev, op: Op): (r: Volume)
    requires d < cfg.N() && |dv.vol.guest| == |dv.vol.src| && VolumeReady(cfg, d, dv, op)
    ensures |r.guest| == |r.src| == |dv.vol.src|
  {
    var v := dv.vol;
    match op
    case ReadBlock(b) => v.(pending := v.pending - {b}, reading := Put(v.reading, b, v.src[b]))
    case SendBlock(b) => v.(reading := v.reading - {b})
    case GetLatestDirty => if v.dirty == {} then v else v.(pending := v.dirty, dirty := {})
    case GuestWrite(b, data) => WriteGuest(cfg, v, cfg.Direct(d), b, data)
    case Writeback(b) => WritebackBlock(cfg, v, b)
    case _ => v
  }

  /** What the operation puts on the connection. */
  function Sent(d: nat, v: Volume, op: Op): seq<Message> {
    match op
    case SendDevInfo => [DevInfo(d)]
    case AnnounceAllSent => [AllSent(d)]
    case SendBlock(b) => if b in v.reading then [WriteAt(d, b, v.reading[b])] else []
    case SendDirtyList => [DirtyList(d, v.pending)]
    case SendAuthority => [TransferAuthority(d)]
    case SendCompleted => [Completed(d)]
    case _ => []
  }

  /** Whether counting this cycle makes the device ready for the first time. */
  predicate MarksNow(cfg: Config, d: nat, c: Control, op: Op)
    requires d < cfg.N()
  {
    op.CountDirty? && !c.cycles.marked && CountCycle(cfg.devices[d].limits, c.cycles, c.last).marked
  }

  function LockAfter(cfg: Config, sh: Shared, d: nat, op: Op): Option<nat>
    requires d < cfg.N()
  {
    if op.LockForMsync? && MustMsync(cfg, sh, d) then Some(d)
    else if op.MsyncAndUnlock? || (op.Fail? && sh.lockHolder == Some(d)) then None
    else sh.lockHolder
  }

  function NextStage(caller: nat, stage: Stage): Suspension {
    match stage
    case CloseAgent => InProgress(caller, Pause)
    case Pause => InProgress(caller, FlushState)
    case FlushState => InProgress(caller, FlushMemory)
    case FlushMemory => InProgress(caller, FinalMsync)
    case FinalMsync => InProgress(caller, RaiseFlag)
    case RaiseFlag => Suspended
  }

  /** The mounter has no virtual machine: its suspendAndMsyncVM only raises the flag. */
  function SuspensionAfter(cfg: Config, sh: Shared, d: nat, op: Op): Suspension {
    if op.EnterSuspend? && sh.suspension.Idle? then InProgress(d, if cfg.mode.Peer? then CloseAgent else RaiseFlag)
    else if op.SuspendStep? && sh.suspension.InProgress? then NextStage(sh.suspension.caller, sh.suspension.stage)
    else if op.Fail? && sh.suspension.InProgress? && sh.suspension.caller == d then SuspendFailed
    else sh.suspension
  }

  function SharedAfter(cfg: Config, sh: Shared, d: nat, c: Control, op: Op): Shared
    requires d < cfg.N()
  {
    Shared(
      sh.sentCount + (if op.AddSentDevice? then 1 else 0),
      sh.readyCount + (if MarksNow(cfg, d, c, op) then 1 else 0),
      LockAfter(cfg, sh, d, op),
      SuspensionAfter(cfg, sh, d, op),
      sh.running && !AtStage(sh, op, Pause))
  }

  /** All devices have as many blocks on both sides as configured. */
  predicate Sized(cfg: Config, s: State) {
    && |s.devs| == |s.dst.stores| == cfg.N()
    && forall d :: 0 <= d < cfg.N() ==> |s.devs[d].vol.guest| == |s.devs[d].vol.src| == cfg.devices[d].blocks
  }

  /** Device `i` after operation `op` on device `d`. */
  function DevAfter(cfg: Config, s: State, d: nat, op: Op, i: nat): Dev
    requires Sized(cfg, s) && d < cfg.N() && CanRun(cfg, s, d, op) && i < cfg.N()
  {
    var dv := s.devs[i];
    var e := EffectOf(s.shared, op);
    if i == d then
      Dev(ControlAfter(cfg, s.shared, d, dv.ctl, |dv.vol.dirty|, op), Flushed(cfg, i, VolumeAfter(cfg, d, dv, op), e))
    else
      Dev(dv.ctl, Flushed(cfg, i, dv.vol, e))
  }

  function RunOp(cfg: Config, s: State, d: nat, op: Op): State
    requires Sized(cfg, s) && d < cfg.N() && CanRun(cfg, s, d, op)
  {
    State(
      seq(cfg.N(), i requires 0 <= i < cfg.N() => DevAfter(cfg, s, d, op, i)),
      SharedAfter(cfg, s.shared, d, s.devs[d].ctl, op),
      s.queue + Sent(d, s.devs[d].vol, op),
      s.dst)
  }

  /* ------------------------------------------------------------- destination */

  predicate CanHappen(s: State, e: Event) {
    match e
    case Deliver => !s.dst.eof && s.queue != [] && s.queue[0].d < |s.dst.stores|
    case Eof => !s.dst.eof
    case PassReceived => s.dst.progress.WaitReceived? && s.dst.allReceived
    case PassReady => s.dst.progress.WaitReady? && s.dst.ready
    case ResumeDestination => s.dst.progress.Returned?
    case DestinationWrite(d, b, v) => s.dst.progress.Resumed? && d < |s.dst.stores| && b in s.dst.stores[d]
  }

  /** The handlers of the receiving side, for one packet. */
  function Receive(dst: Destination, m: Message): Destination
    requires m.d < |dst.stores|
  {
    match m
    case DevInfo(d) => dst.(received := dst.received + {d}, counter := dst.counter + 1)
    case AllSent(_) => dst.(allReceived := true)
    case WriteAt(d, b, v) =>
      if d in dst.received then dst.(stores := dst.stores[d := Put(dst.stores[d], b, v)]) else dst
    case DirtyList(d, bs) =>
      if d in dst.received then dst.(stores := dst.stores[d := dst.stores[d] - bs]) else dst
    case TransferAuthority(d) =>
      dst.(authorised := dst.authorised + {d}, counter := dst.counter - 1, ready := dst.ready || dst.counter - 1 <= 0)
    case Completed(_) => dst
  }

  function DestinationAfter(s: State, e: Event): Destination
    requires CanHappen(s, e)
  {
    match e
    case Deliver => Receive(s.dst, s.queue[0])
    case Eof => s.dst.(eof := true, allReceived := true, ready := true)
    case PassReceived => s.dst.(progress := WaitReady)
    case PassReady => s.dst.(progress := Returned)
    case ResumeDestination => s.dst.(progress := Resumed)
    case DestinationWrite(d, b, v) => s.dst.(stores := s.dst.stores[d := Put(s.dst.stores[d], b, v)])
  }

  function Happen(s: State, e: Event): State
    requires CanHappen(s, e)
  {
    s.(dst := DestinationAfter(s, e), queue := if e.Deliver? then s.queue[1..] else s.queue)
  }

  /* -------------------------------------------------------------------- runs */

  predicate Enabled(cfg: Config, s: State, a: Action)
    requires |s.devs| == cfg.N()
  {
    match a
    case OnDevice(d, op) => d < cfg.N() && CanRun(cfg, s, d, op)
    case AtDestination(e) => CanHappen(s, e)
  }

  function Step(cfg: Config, s: State, a: Action): State
    requires Sized(cfg, s) && Enabled(cfg, s, a)
  {
    match a
    case OnDevice(d, op) => RunOp(cfg, s, d, op)
    case AtDestination(e) => Happen(s, e)
  }

  ghost predicate InitVolume(blocks: nat, direct: bool, v: Volume) {
    && |v.guest| == |v.src| == blocks
    && v.unsynced <= Blocks(blocks) && v.dirty <= Blocks(blocks)
    && (forall b :: 0 <= b < blocks && b !in v.unsynced ==> v.guest[b] == v.src[b])
    && (direct ==> v.unsynced == {})
    && v.pending == Blocks(blocks) && v.reading == map[]
  }

  const START := Control(SendInfo, false, false, 0, FRESH, NotDue, false, false)

  ghost predicate Init(cfg: Config, s: State) {
    && |s.devs| == cfg.N()
    && (forall d :: 0 <= d < cfg.N() ==> s.devs[d].ctl == START && InitVolume(cfg.devices[d].blocks, cfg.Direct(d), s.devs[d].vol))
    && s.shared == Shared(0, 0, None, Idle, true)
    && s.queue == []
    && s.dst == Destination(seq(cfg.N(), _ => map[]), {}, {}, 0, false, false, false, WaitReceived)
  }

  ghost predicate Next(cfg: Config, s: State, a: Action, t: State) {
    Sized(cfg, s) && Enabled(cfg, s, a) && t == Step(cfg, s, a)
  }

  /** `states` is a run that takes the steps `actions`. */
  ghost predicate IsRun(cfg: Config, states: seq<State>, actions: seq<Action>) {
    && |states| == |actions| + 1
    && (forall i :: 0 <= i < |states| ==> Sized(cfg, states[i]))
    && Init(cfg, states[0])
    && forall i :: 0 <= i < |actions| ==> Next(cfg, states[i], actions[i], states[i + 1])
  }

  ghost predicate Reachable(cfg: Config, s: State) {
    Sized(cfg, s)
    && exists states: seq<State>, actions: seq<Action> :: IsRun(cfg, states, actions) && states[|actions|] == s
  }
}
