/** Any number of migrations, one after the other: each host serves on what it received. */
module Chain {
  import opened Migration
  import opened Handover
  import opened Ownership
  import P = Pipeline

  /** One migration: its run, up to where the next one begins, and the stage-2 entries under its devices. */
  datatype Hop = Hop(cfg: Config, states: seq<State>, actions: seq<Action>, served: seq<P.Stage2>)

  /** The host between two hops: its configuration, what arrived, and the stage-2 list it made of it. */
  datatype Host = Host(devices: seq<P.FromDevice>, sizes: map<string, nat>, announced: seq<P.Announcement>,
                       order: seq<nat>, stage2: seq<P.Stage2>)

  ghost predicate HopOk(h: Hop) {
    && IsRun(h.cfg, h.states, h.actions) && h.cfg.mode.Peer? && AllReached(h.cfg)
    && |h.served| == h.cfg.N()
    && (forall i, j :: 0 <= i < j < |h.served| ==> h.served[i].name != h.served[j].name)
    && h.states[|h.actions|].dst.ready && CleanState(h.states[|h.actions|])
  }

  ghost predicate Arrives(announced: seq<P.Announcement>, d: nat) { exists a :: a in announced && a.index == d }

  /** The packets that announce the devices of the hop, in any order of arrival. */
  ghost predicate Announces(h: Hop, announced: seq<P.Announcement>) {
    && (forall a :: a in announced ==> a.index < |h.served| && a.name == h.served[a.index].name)
    && (forall d :: 0 <= d < |h.served| ==> Arrives(announced, d))
  }

  /** The next hop serves entries of the host's list, and the guest starts on the storage of the entry:
      for a remote one that is the store which the last hop filled. */
  ghost predicate Link(h: Hop, host: Host, g: Hop) {
    && HopOk(h) && HopOk(g)
    && P.IsStage2(host.devices, host.sizes, host.announced, host.order, host.stage2)
    && P.DistinctNames(host.devices, host.announced) && Announces(h, host.announced)
    && (forall e :: 0 <= e < |g.served| ==> g.served[e] in host.stage2)
    && forall e :: 0 <= e < |g.served| && g.served[e].remote && g.served[e].id < |h.served| ==>
         GuestContent(g.states[0].devs[e].vol) == h.states[|h.actions|].dst.stores[g.served[e].id]
  }

  ghost predicate IsChain(hops: seq<Hop>, hosts: seq<Host>) {
    && |hops| == |hosts| + 1 && HopOk(hops[0])
    && forall k :: 0 <= k < |hosts| ==> Link(hops[k], hosts[k], hops[k + 1])
  }

  ghost predicate Serves(h: Hop, name: string, d: nat) { d < |h.served| && h.served[d].name == name }

  /** A served device that was served on the hop before starts with what that hop left at the destination. */
  lemma {:induction false} StartsWhereLastEnded(h: Hop, host: Host, g: Hop, name: string, d: nat, e: nat)
    requires Link(h, host, g) && Serves(h, name, d) && Serves(g, name, e)
    ensures g.served[e].remote && g.served[e].id == d
    ensures GuestContent(g.states[0].devs[e].vol) == h.states[|h.actions|].dst.stores[d]
  {
    hide IsRun, CleanState, AllReached, GuestContent;
    var k :| 0 <= k < |host.stage2| && host.stage2[k] == g.served[e];
    P.EntryOrigin(host.devices, host.sizes, host.announced, host.order, host.stage2, k);
    assert Arrives(host.announced, d);
    var a :| a in host.announced && a.index == d;
    assert P.IsAnnounced(host.announced, name);
    var b :| b in host.announced && host.stage2[k] == P.Remote(b);
    assert h.served[b.index].name == h.served[d].name;
  }

  /* ------------------------------------------------------------ replayed writes */

  /** All writes to device `d` by either guest. */
  function ReplayDevice(content: map<nat, Data>, actions: seq<Action>, d: nat): map<nat, Data> {
    if actions == [] then content
    else
      var before := ReplayDevice(content, actions[..|actions| - 1], d);
      match VisibleOf(actions[|actions| - 1])
      case Write(_, i, b, v) => if i == d then Put(before, b, v) else before
      case Internal => before
  }

  lemma {:induction false} ReplayByDevice(content: seq<map<nat, Data>>, actions: seq<Action>, d: nat)
    requires d < |content|
    ensures |Replay(content, actions)| == |content|
    ensures Replay(content, actions)[d] == ReplayDevice(content[d], actions, d)
  {
    hide VisibleOf, Put;
    if actions != [] {
      ReplayByDevice(content, actions[..|actions| - 1], d);
    }
  }

  lemma {:induction false} HopContent(h: Hop, d: nat)
    requires HopOk(h) && d < h.cfg.N()
    ensures |h.states[0].devs| == |h.states[|h.actions|].dst.stores| == h.cfg.N()
    ensures h.states[|h.actions|].dst.stores[d] == ReplayDevice(GuestContent(h.states[0].devs[d].vol), h.actions, d)
  {
    hide CleanState, AllReached, GuestContent, Guests, Next;
    var s := h.states[0];
    OwnerSeesAllWrites(h.cfg, h.states, h.actions, |h.actions|);
    assert h.actions[..|h.actions|] == h.actions;
    StartsAtSource(h);
    ReplayByDevice(Guests(s.devs), h.actions, d);
    GuestsAt(s.devs, d);
  }

  lemma {:induction false} StartsAtSource(h: Hop)
    requires HopOk(h)
    ensures !h.states[0].dst.ready && |h.states[0].devs| == h.cfg.N()
  {
  }

  lemma {:induction false} GuestsAt(devs: seq<Dev>, d: nat)
    requires d < |devs|
    ensures Guests(devs)[d] == GuestContent(devs[d].vol) && |Guests(devs)| == |devs|
  {
  }

  /** The writes of all hops up to hop `k`, to the device that is number `at[j]` on hop `j`. */
  function ReplayChain(content: map<nat, Data>, hops: seq<Hop>, at: seq<nat>, k: nat): map<nat, Data>
    requires k < |hops| == |at|
  {
    ReplayDevice(if k == 0 then content else ReplayChain(content, hops, at, k - 1), hops[k].actions, at[k])
  }

  /** Over any number of hops, a device that every hop serves holds in the end exactly its first content
      with all writes of all guests in between, in order. */
  lemma {:induction false} ChainKeepsEveryWrite(hops: seq<Hop>, hosts: seq<Host>, name: string, at: seq<nat>, k: nat)
    requires IsChain(hops, hosts) && k < |hops| == |at|
    requires forall j :: 0 <= j < |hops| ==> Serves(hops[j], name, at[j])
    ensures |hops[0].states| > 0 && at[0] < |hops[0].states[0].devs|
    ensures HopOk(hops[k]) && at[k] < |hops[k].states[|hops[k].actions|].dst.stores|
    ensures hops[k].states[|hops[k].actions|].dst.stores[at[k]]
         == ReplayChain(GuestContent(hops[0].states[0].devs[at[0]].vol), hops, at, k)
  {
    hide Link, HopOk, GuestContent, ReplayDevice, IsRun;
    HopsOk(hops, hosts, 0);
    HopsOk(hops, hosts, k);
    HopContent(hops[0], at[0]);
    HopContent(hops[k], at[k]);
    if k > 0 {
      ChainKeepsEveryWrite(hops, hosts, name, at, k - 1);
      assert Link(hops[k - 1], hosts[k - 1], hops[k]);
      StartsWhereLastEnded(hops[k - 1], hosts[k - 1], hops[k], name, at[k - 1], at[k]);
    }
  }

  lemma {:induction false} HopsOk(hops: seq<Hop>, hosts: seq<Host>, k: nat)
    requires IsChain(hops, hosts) && k < |hops|
    ensures HopOk(hops[k]) && |hops[k].states| == |hops[k].actions| + 1 && |hops[k].served| == hops[k].cfg.N()
  {
    if k > 0 { assert Link(hops[k - 1], hosts[k - 1], hops[k]); }
  }
}
