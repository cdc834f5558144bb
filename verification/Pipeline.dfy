/** The devices on their way through the stages of a peer: what is received or opened locally, what is
    made migratable, and what is served to the next host. */
module Pipeline {
  import opened Options
  import C = ConcurrentMap
  import BlockRange
  import opened Cycles

  datatype FromDevice = FromDevice(name: string, base: string, blockSize: nat, shared: bool)
  datatype Announcement = Announcement(index: nat, name: string, size: nat, blockSize: nat)

  /** migrateFromStage: `id` is the sender's index of a remote device. */
  datatype Stage2 = Stage2(name: string, size: nat, blockSize: nat, id: nat, remote: bool)

  datatype MigratableDevice = MigratableDevice(name: string, expiry: int)
  datatype Stage3 = Stage3(prev: Stage2, device: MigratableDevice)
  datatype Stage4 = Stage4(prev: Stage3, totalBlocks: int)

  datatype ServedDevice = ServedDevice(name: string, limits: Limits)
  datatype Stage5 = Stage5(prev: Stage4, device: ServedDevice)

  /* -------------------------------------------------------------- receiving */

  /** White space as the trimming of names and paths understands it. */
  predicate IsSpace(c: char) {
    c in {'\t', '\n', '\U{B}', '\U{C}', '\r', ' ', '\U{85}', '\U{A0}', '\U{1680}', '\U{2028}', '\U{2029}', '\U{202F}', '\U{205F}', '\U{3000}'}
    || '\U{2000}' <= c <= '\U{200A}'
  }

  predicate Blank(s: string) { forall i :: 0 <= i < |s| ==> IsSpace(s[i]) }

  /** The base of the first configured device with this name. */
  function BaseOf(devices: seq<FromDevice>, name: string): (base: string)
    ensures base != "" ==> exists i :: 0 <= i < |devices| && devices[i].name == name && devices[i].base == base
  {
    if devices == [] then ""
    else if devices[0].name == name then devices[0].base
    else
      var base := BaseOf(devices[1..], name);
      assert base != "" ==> exists i :: 0 <= i < |devices[1..]| && devices[1..][i].name == name && devices[1..][i].base == base;
      assert forall i :: 0 <= i < |devices[1..]| ==> devices[1..][i] == devices[i + 1];
      base
  }

  predicate Known(devices: seq<FromDevice>, name: string) { !Blank(BaseOf(devices, name)) }

  function Remote(a: Announcement): Stage2 { Stage2(a.name, a.size, a.blockSize, a.index, true) }

  function RemoteStage(announced: seq<Announcement>): (r: seq<Stage2>)
    ensures |r| == |announced| && forall k :: 0 <= k < |r| ==> r[k] == Remote(announced[k])
  {
    seq(|announced|, k requires 0 <= k < |announced| => Remote(announced[k]))
  }

  ghost predicate IsAnnounced(announced: seq<Announcement>, name: string) {
    exists k :: 0 <= k < |announced| && announced[k].name == name
  }

  /** What can become of configured device `i` here: it is opened locally if it was not sent, is not
      shared, and `sizes` knows its base file. */
  ghost predicate OpensLocally(devices: seq<FromDevice>, sizes: map<string, nat>, announced: seq<Announcement>, i: nat) {
    i < |devices| && !IsAnnounced(announced, devices[i].name) && !devices[i].shared && devices[i].base in sizes
  }

  /** The entry of configured device `i`, opened locally. */
  ghost predicate IsLocal(devices: seq<FromDevice>, sizes: map<string, nat>, i: nat, entry: Stage2) {
    && i < |devices| && devices[i].base in sizes
    && !entry.remote && entry.name == devices[i].name && entry.size == sizes[devices[i].base] && entry.blockSize == devices[i].blockSize
  }

  /** The stage-2 list: what was received, in the order of arrival, then what was opened, in any order. */
  ghost predicate IsStage2(devices: seq<FromDevice>, sizes: map<string, nat>, announced: seq<Announcement>,
                           order: seq<nat>, stage2: seq<Stage2>) {
    && |stage2| == |announced| + |order|
    && stage2[..|announced|] == RemoteStage(announced)
    && (forall i, j :: 0 <= i < j < |order| ==> order[i] != order[j])
    && (forall i: nat :: i in order <==> OpensLocally(devices, sizes, announced, i))
    && forall k :: 0 <= k < |order| ==> IsLocal(devices, sizes, order[k], stage2[|announced| + k])
  }

  /** A device that was not received fails when its base cannot be opened, which a shared one does not
      need, and also later, when it is already listed. */
  predicate Fails(d: FromDevice, sizes: map<string, nat>, exposable: set<string>) {
    (!d.shared && d.base !in sizes) || d.name !in exposable
  }

  /** An entry that is opened here is numbered by its place among those not received. */
  predicate IndexOf(stage1Inputs: seq<nat>, i: nat, id: nat) { id < |stage1Inputs| && stage1Inputs[id] == i }

  datatype Outcome = Success | UnknownDeviceName | CouldNotSetupDevices

  class MigratedPeer {
    const devices: seq<FromDevice>
    var stage2Inputs: seq<Stage2>

    constructor (devices: seq<FromDevice>)
      ensures this.devices == devices && stage2Inputs == []
    {
      this.devices, stage2Inputs := devices, [];
    }

    /** The handler of DevInfo; a device without a base is unknown. */
    method HandleDevInfo(di: Announcement) returns (ok: bool)
      modifies this`stage2Inputs
      ensures ok <==> Known(devices, di.name)
      ensures ok <==> exists i ::
                && 0 <= i < |devices| && devices[i].name == di.name && !Blank(devices[i].base)
                && forall j :: 0 <= j < i ==> devices[j].name != di.name
      ensures stage2Inputs == old(stage2Inputs) + if ok then [Stage2(di.name, di.size, di.blockSize, di.index, true)] else []
    {
      var base := "";
      for i := 0 to |devices|
        invariant base == "" && forall j :: 0 <= j < i ==> devices[j].name != di.name
        invariant BaseOf(devices, di.name) == BaseOf(devices[i..], di.name)
      {
        assert devices[i..][1..] == devices[i + 1..];
        if di.name == devices[i].name {
          base := devices[i].base;
          break;
        }
      }
      ok := !Blank(base);
      if ok {
        stage2Inputs := stage2Inputs + [Stage2(di.name, di.size, di.blockSize, di.index, true)];
      }
    }

    /** The configured devices that were not received, by index. */
    method NotReceived() returns (stage1Inputs: seq<nat>)
      ensures forall i: nat :: i in stage1Inputs <==>
                i < |devices| && forall k :: 0 <= k < |stage2Inputs| ==> stage2Inputs[k].name != devices[i].name
      ensures forall i, j :: 0 <= i < j < |stage1Inputs| ==> stage1Inputs[i] < stage1Inputs[j]
    {
      stage1Inputs := [];
      for i := 0 to |devices|
        invariant forall n: nat :: n in stage1Inputs <==>
                    n < i && forall k :: 0 <= k < |stage2Inputs| ==> stage2Inputs[k].name != devices[n].name
        invariant forall m, n :: 0 <= m < n < |stage1Inputs| ==> stage1Inputs[m] < stage1Inputs[n]
        invariant forall n :: 0 <= n < |stage1Inputs| ==> stage1Inputs[n] < i
      {
        if exists k :: 0 <= k < |stage2Inputs| && stage2Inputs[k].name == devices[i].name {
          continue;
        }
        stage1Inputs := stage1Inputs + [i];
      }
    }

    /** Opens the local devices, one goroutine each, in any order; `sizes` holds the sizes of the base
        files that can be opened, `exposable` the devices whose path and node turn out well afterwards, and
        `errorSeen` says whether the wait for the goroutines sees any of their errors. */
    method OpenLocal(stage1Inputs: seq<nat>, sizes: map<string, nat>, exposable: set<string>, errorSeen: bool)
      returns (reported: bool, ghost order: seq<nat>)
      requires forall i :: i in stage1Inputs ==> i < |devices|
      requires forall i, j :: 0 <= i < j < |stage1Inputs| ==> stage1Inputs[i] != stage1Inputs[j]
      modifies this`stage2Inputs
      ensures |stage2Inputs| == |old(stage2Inputs)| + |order| && stage2Inputs[..|old(stage2Inputs)|] == old(stage2Inputs)
      ensures forall i, j :: 0 <= i < j < |order| ==> order[i] != order[j]
      ensures forall i: nat :: i in order <==> i in stage1Inputs && !devices[i].shared && devices[i].base in sizes
      ensures forall k :: 0 <= k < |order| ==> IsLocal(devices, sizes, order[k], stage2Inputs[|old(stage2Inputs)| + k])
      ensures forall k :: 0 <= k < |order| ==> IndexOf(stage1Inputs, order[k], stage2Inputs[|old(stage2Inputs)| + k].id)
      ensures reported <==> errorSeen && exists i :: i in stage1Inputs && Fails(devices[i], sizes, exposable)
    {
      var waiting := set i | i in stage1Inputs;
      var failed := false;
      order := [];
      ghost var received := |stage2Inputs|;
      while waiting != {}
        invariant waiting <= set i | i in stage1Inputs
        invariant |stage2Inputs| == received + |order| && stage2Inputs[..received] == old(stage2Inputs)
        invariant forall i, j :: 0 <= i < j < |order| ==> order[i] != order[j]
        invariant forall i: nat :: i in order <==> i in stage1Inputs && i !in waiting && !devices[i].shared && devices[i].base in sizes
        invariant forall k :: 0 <= k < |order| ==> IsLocal(devices, sizes, order[k], stage2Inputs[received + k])
        invariant forall k :: 0 <= k < |order| ==> IndexOf(stage1Inputs, order[k], stage2Inputs[received + k].id)
        invariant failed <==> exists i :: i in stage1Inputs && i !in waiting && Fails(devices[i], sizes, exposable)
        decreases waiting
      {
        var i :| i in waiting;
        waiting := waiting - {i};
        var input := devices[i];
        if !input.shared {
          if input.base !in sizes {
            failed := true;
            continue;
          }
          var index :| 0 <= index < |stage1Inputs| && stage1Inputs[index] == i;
          stage2Inputs := stage2Inputs + [Stage2(input.name, sizes[input.base], input.blockSize, index, false)];
          order := order + [i];
        }
        if input.name !in exposable {
          failed := true;
        }
      }
      reported := errorSeen && failed;
    }
  }

  /** MigrateFrom, as far as the stage-2 list goes. `announced` are the packets that arrive before all
      devices are received; unless one is unknown or a failure is reported, the list is complete. */
  method MigrateFrom(devices: seq<FromDevice>, sizes: map<string, nat>, exposable: set<string>, announced: seq<Announcement>, errorSeen: bool)
    returns (outcome: Outcome, stage2: seq<Stage2>)
    ensures outcome == UnknownDeviceName <==> exists k :: 0 <= k < |announced| && !Known(devices, announced[k].name)
    ensures outcome == CouldNotSetupDevices <==>
              && (forall k :: 0 <= k < |announced| ==> Known(devices, announced[k].name)) && errorSeen
              && exists i :: 0 <= i < |devices| && !IsAnnounced(announced, devices[i].name) && Fails(devices[i], sizes, exposable)
    ensures outcome == Success ==> exists order: seq<nat> :: IsStage2(devices, sizes, announced, order, stage2)
  {
    var peer := new MigratedPeer(devices);
    for k := 0 to |announced|
      invariant fresh(peer) && peer.devices == devices && peer.stage2Inputs == RemoteStage(announced[..k])
      invariant forall j :: 0 <= j < k ==> Known(devices, announced[j].name)
    {
      var ok := peer.HandleDevInfo(announced[k]);
      if !ok {
        return UnknownDeviceName, peer.stage2Inputs;
      }
    }
    assert announced[..|announced|] == announced;
    var stage1Inputs := peer.NotReceived();
    forall i: nat | i < |devices| ensures i in stage1Inputs <==> !IsAnnounced(announced, devices[i].name) {
      assert forall k :: 0 <= k < |announced| ==> peer.stage2Inputs[k].name == announced[k].name;
    }
    var reported, order := peer.OpenLocal(stage1Inputs, sizes, exposable, errorSeen);
    if reported {
      return CouldNotSetupDevices, peer.stage2Inputs;
    }
    assert IsStage2(devices, sizes, announced, order, peer.stage2Inputs);
    return Success, peer.stage2Inputs;
  }

  /* -------------------------------------------------------------- partition */

  ghost predicate DistinctNames(devices: seq<FromDevice>, announced: seq<Announcement>) {
    && (forall i, j :: 0 <= i < j < |devices| ==> devices[i].name != devices[j].name)
    && (forall i, j :: 0 <= i < j < |announced| ==> announced[i].name != announced[j].name)
  }

  /** Exactly one entry has this name. */
  ghost predicate Once(stage2: seq<Stage2>, name: string) {
    exists k :: 0 <= k < |stage2| && stage2[k].name == name && forall j :: 0 <= j < |stage2| && stage2[j].name == name ==> j == k
  }

  ghost predicate Listed(stage2: seq<Stage2>, name: string) { exists k :: 0 <= k < |stage2| && stage2[k].name == name }

  /** An entry is remote exactly when the source sent its device, under the source's index; local ones
      are configured and not shared. */
  lemma {:induction false} EntryOrigin(devices: seq<FromDevice>, sizes: map<string, nat>, announced: seq<Announcement>, order: seq<nat>, stage2: seq<Stage2>, k: nat)
    requires IsStage2(devices, sizes, announced, order, stage2) && k < |stage2|
    ensures stage2[k].remote <==> IsAnnounced(announced, stage2[k].name)
    ensures stage2[k].remote ==> exists a :: a in announced && stage2[k] == Stage2(a.name, a.size, a.blockSize, a.index, true)
    ensures !stage2[k].remote ==> exists i ::
              && 0 <= i < |devices| && devices[i].name == stage2[k].name && !devices[i].shared && devices[i].base in sizes
              && stage2[k].size == sizes[devices[i].base] && stage2[k].blockSize == devices[i].blockSize
  {
    if k < |announced| {
      assert stage2[k] == stage2[..|announced|][k] == Remote(announced[k]);
    } else {
      assert order[k - |announced|] in order;
    }
  }

  lemma {:induction false} NoRepeats(devices: seq<FromDevice>, sizes: map<string, nat>, announced: seq<Announcement>, order: seq<nat>, stage2: seq<Stage2>, j: nat, k: nat)
    requires IsStage2(devices, sizes, announced, order, stage2) && DistinctNames(devices, announced)
    requires j < k < |stage2|
    ensures stage2[j].name != stage2[k].name
  {
    var n := |announced|;
    EntryOrigin(devices, sizes, announced, order, stage2, j);
    EntryOrigin(devices, sizes, announced, order, stage2, k);
    if k < n {
      assert stage2[j] == stage2[..n][j] && stage2[k] == stage2[..n][k];
    } else if j < n {
      assert stage2[j] == stage2[..n][j] == Remote(announced[j]);
      assert IsLocal(devices, sizes, order[k - n], stage2[n + (k - n)]);
    } else {
      var a, b := order[j - n], order[k - n];
      assert IsLocal(devices, sizes, a, stage2[n + (j - n)]) && IsLocal(devices, sizes, b, stage2[n + (k - n)]);
      assert a != b;
    }
  }

  /** With distinct names the list holds no name twice; it holds a configured device that is not shared
      exactly when it was sent or could be opened, and a shared one exactly when it was sent. */
  lemma {:induction false} Partition(devices: seq<FromDevice>, sizes: map<string, nat>, announced: seq<Announcement>, order: seq<nat>, stage2: seq<Stage2>, i: nat)
    requires IsStage2(devices, sizes, announced, order, stage2) && DistinctNames(devices, announced) && i < |devices|
    ensures var d := devices[i];
      Once(stage2, d.name) <==> IsAnnounced(announced, d.name) || (!d.shared && d.base in sizes)
    ensures Listed(stage2, devices[i].name) ==> Once(stage2, devices[i].name)
  {
    var d, n := devices[i], |announced|;
    if Listed(stage2, d.name) {
      var k :| 0 <= k < |stage2| && stage2[k].name == d.name;
      forall j | 0 <= j < |stage2| && stage2[j].name == d.name ensures j == k {
        if j < k { NoRepeats(devices, sizes, announced, order, stage2, j, k); }
        if k < j { NoRepeats(devices, sizes, announced, order, stage2, k, j); }
      }
      assert Once(stage2, d.name);
      if k >= n {
        assert order[k - n] in order;
        assert order[k - n] == i;
      } else {
        assert stage2[k] == stage2[..n][k] == Remote(announced[k]);
      }
    }
    if IsAnnounced(announced, d.name) {
      var k :| 0 <= k < n && announced[k].name == d.name;
      assert stage2[k] == stage2[..n][k] == Remote(announced[k]);
    } else if !d.shared && d.base in sizes {
      assert OpensLocally(devices, sizes, announced, i);
      var k :| 0 <= k < |order| && order[k] == i;
      assert stage2[n + k].name == d.name;
    }
  }

  /* ---------------------------------------------------------------- filters */

  /** The entries whose name is in `names`, in order. */
  function Select(stage2: seq<Stage2>, names: set<string>): seq<Stage2> {
    if stage2 == [] then []
    else Select(stage2[..|stage2| - 1], names) + if stage2[|stage2| - 1].name in names then [stage2[|stage2| - 1]] else []
  }

  lemma {:induction false} SelectCount(stage2: seq<Stage2>, names: set<string>, e: Stage2)
    ensures multiset(Select(stage2, names))[e] == if e.name in names then multiset(stage2)[e] else 0
  {
    if stage2 != [] {
      SelectCount(stage2[..|stage2| - 1], names, e);
      assert stage2 == stage2[..|stage2| - 1] + [stage2[|stage2| - 1]];
    }
  }

  lemma {:induction false} SelectPermutes(a: seq<Stage2>, b: seq<Stage2>, names: set<string>)
    requires multiset(a) == multiset(b)
    ensures multiset(Select(a, names)) == multiset(Select(b, names))
  {
    forall e ensures multiset(Select(a, names))[e] == multiset(Select(b, names))[e] {
      SelectCount(a, names, e);
      SelectCount(b, names, e);
    }
  }

  lemma {:induction false} SelectAppend(stage2: seq<Stage2>, names: set<string>, e: Stage2)
    ensures Select(stage2 + [e], names) == Select(stage2, names) + if e.name in names then [e] else []
  {
    assert (stage2 + [e])[..|stage2|] == stage2;
  }

  /** The configuration that counts for a name is the first one with it. */
  predicate IsFirstMigratable(devices: seq<MigratableDevice>, name: string, device: MigratableDevice) {
    exists j :: 0 <= j < |devices| && devices[j] == device && device.name == name && forall k :: 0 <= k < j ==> devices[k].name != name
  }

  predicate IsFirstServed(devices: seq<ServedDevice>, name: string, device: ServedDevice) {
    exists j :: 0 <= j < |devices| && devices[j] == device && device.name == name && forall k :: 0 <= k < j ==> devices[k].name != name
  }

  function MigratableNames(devices: seq<MigratableDevice>): set<string> { set d | d in devices :: d.name }
  function ServedNames(devices: seq<ServedDevice>): set<string> { set d | d in devices :: d.name }

  function Under3(s: seq<Stage3>): (r: seq<Stage2>)
    ensures |r| == |s| && forall k :: 0 <= k < |r| ==> r[k] == s[k].prev
  {
    seq(|s|, k requires 0 <= k < |s| => s[k].prev)
  }

  function Under4(s: seq<Stage4>): (r: seq<Stage2>)
    ensures |r| == |s| && forall k :: 0 <= k < |r| ==> r[k] == s[k].prev.prev
  {
    seq(|s|, k requires 0 <= k < |s| => s[k].prev.prev)
  }

  function Under5(s: seq<Stage5>): (r: seq<Stage2>)
    ensures |r| == |s| && forall k :: 0 <= k < |r| ==> r[k] == s[k].prev.prev.prev
  {
    seq(|s|, k requires 0 <= k < |s| => s[k].prev.prev.prev)
  }

  /** The code divides by the block size. */
  ghost predicate HaveBlockSizes(stage2: seq<Stage2>) { forall k :: 0 <= k < |stage2| ==> stage2[k].blockSize > 0 }

  /** The filter of MakeMigratable: each entry with the first of `devices` that has its name. */
  method FilterMigratable(stage2Inputs: seq<Stage2>, devices: seq<MigratableDevice>) returns (stage3Inputs: seq<Stage3>)
    ensures Under3(stage3Inputs) == Select(stage2Inputs, MigratableNames(devices))
    ensures forall k :: 0 <= k < |stage3Inputs| ==> IsFirstMigratable(devices, stage3Inputs[k].prev.name, stage3Inputs[k].device)
  {
    stage3Inputs := [];
    for i := 0 to |stage2Inputs|
      invariant Under3(stage3Inputs) == Select(stage2Inputs[..i], MigratableNames(devices))
      invariant forall k :: 0 <= k < |stage3Inputs| ==> IsFirstMigratable(devices, stage3Inputs[k].prev.name, stage3Inputs[k].device)
    {
      var input := stage2Inputs[i];
      var found: Option<MigratableDevice> := None;
      for j := 0 to |devices|
        invariant found.None? && forall k :: 0 <= k < j ==> devices[k].name != input.name
      {
        if devices[j].name == input.name {
          found := Some(devices[j]);
          break;
        }
      }
      assert stage2Inputs[..i + 1] == stage2Inputs[..i] + [input];
      SelectAppend(stage2Inputs[..i], MigratableNames(devices), input);
      if found.None? {
        continue;
      }
      stage3Inputs := stage3Inputs + [Stage3(input, found.value)];
    }
    assert stage2Inputs[..|stage2Inputs|] == stage2Inputs;
  }

  /** Each of `n` goroutines has its turn once for the function it defers and once for its output. */
  predicate Enough(schedule: seq<nat>, n: nat) {
    (forall k :: 0 <= k < |schedule| ==> schedule[k] < n) && forall i :: 0 <= i < n ==> multiset(schedule)[i] > 1
  }

  /** An entry with its configuration and its block count. */
  predicate IsMadeMigratable(devices: seq<MigratableDevice>, s: Stage4) {
    && s.prev.prev.blockSize > 0 && s.totalBlocks == BlockRange.TotalBlocks(s.prev.prev.size, s.prev.prev.blockSize)
    && IsFirstMigratable(devices, s.prev.prev.name, s.prev.device)
  }

  /** MakeMigratable: the filtered entries with their block counts, in the order in which the fan-out
      hands them in. */
  method MakeMigratable(stage2Inputs: seq<Stage2>, devices: seq<MigratableDevice>, schedule: seq<nat>) returns (stage4Inputs: seq<Stage4>)
    requires HaveBlockSizes(stage2Inputs) && Enough(schedule, |Select(stage2Inputs, MigratableNames(devices))|)
    ensures multiset(Under4(stage4Inputs)) == multiset(Select(stage2Inputs, MigratableNames(devices)))
    ensures forall s :: s in stage4Inputs ==> IsMadeMigratable(devices, s)
  {
    var stage3Inputs := FilterMigratable(stage2Inputs, devices);
    forall k | 0 <= k < |stage3Inputs| ensures stage3Inputs[k].prev.blockSize > 0 {
      SelectCount(stage2Inputs, MigratableNames(devices), stage3Inputs[k].prev);
      assert Under3(stage3Inputs)[k] in multiset(Select(stage2Inputs, MigratableNames(devices)));
      assert stage3Inputs[k].prev in multiset(stage2Inputs);
    }
    var calls: seq<C.Call<Stage4, int, int>> := seq(|stage3Inputs|, k requires 0 <= k < |stage3Inputs| =>
      var p := stage3Inputs[k];
      C.Call(Stage4(p, if p.prev.blockSize > 0 then BlockRange.TotalBlocks(p.prev.size, p.prev.blockSize) else 0), [k], None));
    var defers, errs;
    stage4Inputs, defers, errs := C.ConcurrentMap(calls, schedule);
    var straight: seq<Stage4> := C.OutputsOf(calls);
    forall s | s in stage4Inputs ensures IsMadeMigratable(devices, s) {
      assert s in multiset(straight);
    }
    Under4Permutes(stage4Inputs, straight);
    assert Under4(straight) == Under3(stage3Inputs);
  }

  lemma {:induction false} Under4Count(s: seq<Stage4>, e: Stage2)
    ensures multiset(Under4(s))[e] == |Matching(s, e)|
  {
    if s != [] {
      var n := |s| - 1;
      Under4Count(s[..n], e);
      assert Under4(s) == Under4(s[..n]) + [s[n].prev.prev];
    }
  }

  /** The entries over `e`, as a multiset. */
  function Matching(s: seq<Stage4>, e: Stage2): multiset<Stage4> {
    if s == [] then multiset{}
    else Matching(s[..|s| - 1], e) + if s[|s| - 1].prev.prev == e then multiset{s[|s| - 1]} else multiset{}
  }

  lemma {:induction false} MatchingCount(s: seq<Stage4>, e: Stage2, x: Stage4)
    ensures Matching(s, e)[x] == if x.prev.prev == e then multiset(s)[x] else 0
  {
    if s != [] {
      MatchingCount(s[..|s| - 1], e, x);
      assert s == s[..|s| - 1] + [s[|s| - 1]];
    }
  }

  lemma {:induction false} Under4Permutes(a: seq<Stage4>, b: seq<Stage4>)
    requires multiset(a) == multiset(b)
    ensures multiset(Under4(a)) == multiset(Under4(b))
  {
    forall e ensures multiset(Under4(a))[e] == multiset(Under4(b))[e] {
      Under4Count(a, e);
      Under4Count(b, e);
      forall x ensures Matching(a, e)[x] == Matching(b, e)[x] {
        MatchingCount(a, e, x);
        MatchingCount(b, e, x);
      }
      assert Matching(a, e) == Matching(b, e);
    }
  }

  /** The filter of MigrateTo: the devices that are served, and thereby their number. */
  method FilterServed(stage4Inputs: seq<Stage4>, devices: seq<ServedDevice>) returns (stage5Inputs: seq<Stage5>)
    ensures Under5(stage5Inputs) == Select(Under4(stage4Inputs), ServedNames(devices))
    ensures forall k :: 0 <= k < |stage5Inputs| ==>
              stage5Inputs[k].prev in stage4Inputs && IsFirstServed(devices, stage5Inputs[k].prev.prev.prev.name, stage5Inputs[k].device)
  {
    stage5Inputs := [];
    for i := 0 to |stage4Inputs|
      invariant Under5(stage5Inputs) == Select(Under4(stage4Inputs)[..i], ServedNames(devices))
      invariant forall k :: 0 <= k < |stage5Inputs| ==>
                  stage5Inputs[k].prev in stage4Inputs && IsFirstServed(devices, stage5Inputs[k].prev.prev.prev.name, stage5Inputs[k].device)
    {
      var input := stage4Inputs[i];
      var found: Option<ServedDevice> := None;
      for j := 0 to |devices|
        invariant found.None? && forall k :: 0 <= k < j ==> devices[k].name != input.prev.prev.name
      {
        if devices[j].name == input.prev.prev.name {
          found := Some(devices[j]);
          break;
        }
      }
      assert Under4(stage4Inputs)[..i + 1] == Under4(stage4Inputs)[..i] + [input.prev.prev];
      SelectAppend(Under4(stage4Inputs)[..i], ServedNames(devices), input.prev.prev);
      if found.None? {
        continue;
      }
      stage5Inputs := stage5Inputs + [Stage5(input, found.value)];
    }
    assert Under4(stage4Inputs)[..|stage4Inputs|] == Under4(stage4Inputs);
  }

  /** Both filters together, whatever order the fan-out returns: an entry is served, as often as it is
      in the stage-2 list, exactly when both lists name it; it carries its block count and the first
      configuration of its name in each list. */
  method Serve(stage2Inputs: seq<Stage2>, migratable: seq<MigratableDevice>, served: seq<ServedDevice>, schedule: seq<nat>)
    returns (stage5Inputs: seq<Stage5>)
    requires HaveBlockSizes(stage2Inputs) && Enough(schedule, |Select(stage2Inputs, MigratableNames(migratable))|)
    ensures forall k :: 0 <= k < |stage5Inputs| ==>
              && IsMadeMigratable(migratable, stage5Inputs[k].prev)
              && IsFirstServed(served, stage5Inputs[k].prev.prev.prev.name, stage5Inputs[k].device)
    ensures forall e :: multiset(Under5(stage5Inputs))[e]
              == if e.name in MigratableNames(migratable) && e.name in ServedNames(served) then multiset(stage2Inputs)[e] else 0
  {
    var stage4Inputs := MakeMigratable(stage2Inputs, migratable, schedule);
    stage5Inputs := FilterServed(stage4Inputs, served);
    var migratableEntries := Select(stage2Inputs, MigratableNames(migratable));
    SelectPermutes(Under4(stage4Inputs), migratableEntries, ServedNames(served));
    forall e ensures multiset(Under5(stage5Inputs))[e]
      == if e.name in MigratableNames(migratable) && e.name in ServedNames(served) then multiset(stage2Inputs)[e] else 0
    {
      SelectCount(stage2Inputs, MigratableNames(migratable), e);
      SelectCount(migratableEntries, ServedNames(served), e);
    }
  }
}
