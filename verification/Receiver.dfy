/** The receiver under any sender. The peer and the mounter hold authority back until every device was
    announced; the registry does not. */
module Receiver {
  import opened Migration

  function Listening(n: nat): Destination {
    Destination(seq(n, _ => map[]), {}, {}, 0, false, false, false, WaitReceived)
  }

  ghost predicate Fits(n: nat, q: seq<Message>) { forall i :: 0 <= i < |q| ==> q[i].d < n }

  /** The receiver after the packets `q`. */
  function Handle(n: nat, q: seq<Message>): (dst: Destination)
    requires Fits(n, q)
    ensures |dst.stores| == n
  {
    if q == [] then Listening(n) else Receive(Handle(n, q[..|q| - 1]), q[|q| - 1])
  }

  function Infos(q: seq<Message>): nat {
    if q == [] then 0 else Infos(q[..|q| - 1]) + if q[|q| - 1].DevInfo? then 1 else 0
  }

  function Authorities(q: seq<Message>): nat {
    if q == [] then 0 else Authorities(q[..|q| - 1]) + if q[|q| - 1].TransferAuthority? then 1 else 0
  }

  /** An authority that leaves no received device without one. */
  predicate Levels(q: seq<Message>, k: nat) {
    0 < k <= |q| && q[k - 1].TransferAuthority? && Authorities(q[..k]) >= Infos(q[..k])
  }

  ghost predicate SomeLevels(q: seq<Message>) { exists k: nat :: Levels(q, k) }

  /** Whatever is sent, in whatever order and however often: the counter is announcements minus
      authorities, and the ready signal is given exactly by an authority that levels the two. */
  lemma {:induction false} CounterExactly(n: nat, q: seq<Message>)
    requires Fits(n, q)
    ensures Handle(n, q).counter == Infos(q) - Authorities(q)
    ensures Handle(n, q).ready <==> SomeLevels(q)
  {
    if q != [] {
      var init := q[..|q| - 1];
      CounterExactly(n, init);
      assert q[..|q|] == q;
      LevelsOfLast(q);
    }
  }

  lemma {:induction false} LevelsOfLast(q: seq<Message>)
    requires q != []
    ensures SomeLevels(q) <==> Levels(q, |q|) || SomeLevels(q[..|q| - 1])
  {
    var init := q[..|q| - 1];
    forall k | 0 < k <= |init| ensures Levels(q, k) <==> Levels(init, k) {
      assert q[..k] == init[..k];
    }
    if k: nat :| Levels(init, k) { assert Levels(q, k); }
    if k: nat :| Levels(q, k) { assert k == |q| || Levels(init, k); }
  }

  /* ------------------------------------------------- senders without a barrier */

  ghost function Introduced(q: seq<Message>): set<nat> { set i | 0 <= i < |q| && q[i].DevInfo? :: q[i].d }
  ghost function Authorised(q: seq<Message>): set<nat> { set i | 0 <= i < |q| && q[i].TransferAuthority? :: q[i].d }

  /** Each device is announced once, and gives its authority at most once and only afterwards. */
  ghost predicate Ordered(q: seq<Message>) {
    && (forall i, j :: 0 <= i < j < |q| && (q[i].DevInfo? || q[i].TransferAuthority?) ==> q[i] != q[j])
    && (forall i :: 0 <= i < |q| && q[i].TransferAuthority? ==> DevInfo(q[i].d) in q[..i])
  }

  lemma {:induction false} IntroducedLast(q: seq<Message>)
    requires q != []
    ensures var last, init := q[|q| - 1], q[..|q| - 1];
      && Introduced(q) == Introduced(init) + (if last.DevInfo? then {last.d} else {})
      && Authorised(q) == Authorised(init) + (if last.TransferAuthority? then {last.d} else {})
  {
    var last, init := q[|q| - 1], q[..|q| - 1];
    assert q == init + [last];
    forall d ensures d in Introduced(q) <==> d in Introduced(init) || (last.DevInfo? && d == last.d) {
      if d in Introduced(init) { var i :| 0 <= i < |init| && init[i].DevInfo? && init[i].d == d; assert q[i] == init[i]; }
    }
    forall d ensures d in Authorised(q) <==> d in Authorised(init) || (last.TransferAuthority? && d == last.d) {
      if d in Authorised(init) { var i :| 0 <= i < |init| && init[i].TransferAuthority? && init[i].d == d; assert q[i] == init[i]; }
    }
  }

  lemma {:induction false} LastIsNew(q: seq<Message>)
    requires Ordered(q) && q != []
    ensures var last, init := q[|q| - 1], q[..|q| - 1];
      && Ordered(init)
      && (last.DevInfo? ==> last.d !in Introduced(init))
      && (last.TransferAuthority? ==> last.d !in Authorised(init) && last.d in Introduced(init))
  {
    var last, init := q[|q| - 1], q[..|q| - 1];
    assert forall i :: 0 <= i < |init| ==> init[i] == q[i] && init[..i] == q[..i];
    if last.TransferAuthority? {
      var i :| 0 <= i < |init| && init[i] == DevInfo(last.d);
      assert last.d in Introduced(init);
    }
  }

  lemma {:induction false} CountsAreSets(q: seq<Message>)
    requires Ordered(q)
    ensures Infos(q) == |Introduced(q)| && Authorities(q) == |Authorised(q)| && Authorised(q) <= Introduced(q)
  {
    if q == [] {
      assert Introduced(q) == {} && Authorised(q) == {};
    } else {
      hide Introduced, Authorised, Ordered;
      LastIsNew(q);
      CountsAreSets(q[..|q| - 1]);
      IntroducedLast(q);
    }
  }

  lemma {:induction false} HandleSets(n: nat, q: seq<Message>)
    requires Fits(n, q)
    ensures Handle(n, q).received == Introduced(q) && Handle(n, q).authorised == Authorised(q)
  {
    if q == [] {
      assert Introduced(q) == {} && Authorised(q) == {};
    } else {
      HandleSets(n, q[..|q| - 1]);
      IntroducedLast(q);
    }
  }

  /** After some prefix the receiver is ready although a device is still to come. */
  ghost predicate Premature(n: nat, q: seq<Message>)
    requires Fits(n, q)
  {
    exists k :: 0 <= k <= |q| && Handle(n, q[..k]).ready && Handle(n, q[..k]).received != Blocks(n)
  }

  /** At some authority every device announced so far has given its own, but not all are announced. */
  ghost predicate Gap(n: nat, q: seq<Message>) {
    exists k :: 0 < k <= |q| && q[k - 1].TransferAuthority?
      && Introduced(q[..k]) == Authorised(q[..k]) && Introduced(q[..k]) != Blocks(n)
  }

  lemma {:induction false} PrefixOrdered(q: seq<Message>, k: nat)
    requires Ordered(q) && k <= |q|
    ensures Ordered(q[..k])
  {
    var p := q[..k];
    assert forall i :: 0 <= i < |p| ==> p[i] == q[i] && p[..i] == q[..i];
  }

  lemma {:induction false} LevelsMeansEqual(q: seq<Message>, k: nat)
    requires Ordered(q) && 0 < k <= |q| && q[k - 1].TransferAuthority?
    ensures Levels(q, k) <==> Introduced(q[..k]) == Authorised(q[..k])
  {
    PrefixOrdered(q, k);
    CountsAreSets(q[..k]);
    var rest := Introduced(q[..k]) - Authorised(q[..k]);
    assert Introduced(q[..k]) == Authorised(q[..k]) + rest;
  }

  lemma {:induction false} IntroducedGrows(n: nat, q: seq<Message>, k: nat)
    requires k <= |q| && Fits(n, q)
    ensures Introduced(q[..k]) <= Introduced(q) <= Blocks(n)
  {
    forall d | d in Introduced(q[..k]) ensures d in Introduced(q) {
      var i :| 0 <= i < k && q[..k][i].DevInfo? && q[..k][i].d == d;
      assert q[i].DevInfo? && q[i].d == d;
    }
  }

  lemma {:induction false} PrematureLeavesGap(n: nat, q: seq<Message>, k: nat)
    requires Fits(n, q) && Ordered(q) && k <= |q|
    requires Handle(n, q[..k]).ready && Handle(n, q[..k]).received != Blocks(n)
    ensures Gap(n, q)
  {
    hide Handle, Introduced, Authorised, Ordered;
    var p := q[..k];
    CounterExactly(n, p);
    HandleSets(n, p);
    PrefixOrdered(q, k);
    var j: nat :| Levels(p, j);
    LevelsMeansEqual(p, j);
    IntroducedGrows(n, p, j);
    assert p[..j] == q[..j] && p[j - 1] == q[j - 1];
  }

  lemma {:induction false} GapMakesPremature(n: nat, q: seq<Message>, k: nat)
    requires Fits(n, q) && Ordered(q) && 0 < k <= |q| && q[k - 1].TransferAuthority?
    requires Introduced(q[..k]) == Authorised(q[..k]) && Introduced(q[..k]) != Blocks(n)
    ensures Premature(n, q)
  {
    hide Handle, Introduced, Authorised, Ordered;
    LevelsMeansEqual(q, k);
    CounterExactly(n, q[..k]);
    HandleSets(n, q[..k]);
    assert q[..k][..k] == q[..k];
    assert Levels(q[..k], k);
  }

  /** A sender that keeps each device's own order makes the receiver ready too early exactly when its
      packets leave such a gap. */
  lemma {:induction false} PrematureExactly(n: nat, q: seq<Message>)
    requires Fits(n, q) && Ordered(q)
    ensures Premature(n, q) <==> Gap(n, q)
  {
    hide Handle, Introduced, Authorised, Ordered;
    if Premature(n, q) {
      var k :| 0 <= k <= |q| && Handle(n, q[..k]).ready && Handle(n, q[..k]).received != Blocks(n);
      PrematureLeavesGap(n, q, k);
    }
    if Gap(n, q) {
      var k :| 0 < k <= |q| && q[k - 1].TransferAuthority?
        && Introduced(q[..k]) == Authorised(q[..k]) && Introduced(q[..k]) != Blocks(n);
      GapMakesPremature(n, q, k);
    }
  }

  /** A barrier, as the peer and the mounter have it, closes the gap. */
  lemma {:induction false} BarrierIsNeverPremature(n: nat, q: seq<Message>)
    requires Fits(n, q) && Ordered(q)
    requires forall k :: 0 < k <= |q| && q[k - 1].TransferAuthority? ==> Introduced(q[..k]) == Blocks(n)
    ensures !Premature(n, q)
  {
    PrematureExactly(n, q);
  }

  /* ------------------------------------------------------------ the registry */

  /** The registry's sender: one goroutine per device announces it and then starts the goroutine that
      sends its authority. */
  datatype Sender = Sender(announced: set<nat>, given: set<nat>, sent: seq<Message>)

  predicate MaySend(n: nat, s: Sender, m: Message) {
    match m
    case DevInfo(d) => d < n && d !in s.announced
    case TransferAuthority(d) => d in s.announced && d !in s.given
    case _ => false
  }

  function Send(n: nat, s: Sender, m: Message): Sender
    requires MaySend(n, s, m)
  {
    match m
    case DevInfo(d) => Sender(s.announced + {d}, s.given, s.sent + [m])
    case TransferAuthority(d) => Sender(s.announced, s.given + {d}, s.sent + [m])
  }

  /** The goroutines can send these packets, in this order. */
  ghost predicate RegistrySends(n: nat, q: seq<Message>) {
    exists states: seq<Sender> :: IsSending(n, states, q)
  }

  ghost predicate IsSending(n: nat, states: seq<Sender>, q: seq<Message>) {
    && |states| == |q| + 1 && states[0] == Sender({}, {}, [])
    && forall i :: 0 <= i < |q| ==> MaySend(n, states[i], q[i]) && states[i + 1] == Send(n, states[i], q[i])
  }

  ghost predicate OnlyThese(q: seq<Message>) { forall i :: 0 <= i < |q| ==> q[i].DevInfo? || q[i].TransferAuthority? }

  lemma {:induction false} ShorterSending(n: nat, states: seq<Sender>, q: seq<Message>)
    requires IsSending(n, states, q) && q != []
    ensures var init, last := q[..|q| - 1], q[|q| - 1];
      && |states| == |q| + 1 && IsSending(n, states[..|q|], init) && states[..|q|][|init|] == states[|init|]
      && MaySend(n, states[|init|], last) && states[|q|] == Send(n, states[|init|], last)
  {
    hide Send, MaySend;
  }

  lemma {:induction false} SendingNothing(n: nat, states: seq<Sender>)
    requires IsSending(n, states, [])
    ensures |states| == 1 && states[0] == Sender(Introduced([]), Authorised([]), []) && Ordered([])
  {
    assert Introduced([]) == {} && Authorised([]) == {};
  }

  /** Along a sending the two sets are those of the packets sent. */
  lemma {:induction false} SendingSets(n: nat, states: seq<Sender>, q: seq<Message>)
    requires IsSending(n, states, q)
    ensures |states| == |q| + 1 && states[|q|] == Sender(Introduced(q), Authorised(q), q)
    ensures Fits(n, q) && OnlyThese(q) && Ordered(q)
  {
    hide Introduced, Authorised, Ordered, IsSending;
    if q == [] {
      SendingNothing(n, states);
    } else {
      var init, last := q[..|q| - 1], q[|q| - 1];
      ShorterSending(n, states, q);
      SendingSets(n, states[..|q|], init);
      IntroducedLast(q);
      assert q == init + [last];
      OrderedLonger(n, init, last);
    }
  }

  lemma {:induction false} OrderedLonger(n: nat, q: seq<Message>, m: Message)
    requires Fits(n, q) && OnlyThese(q) && Ordered(q) && MaySend(n, Sender(Introduced(q), Authorised(q), q), m)
    ensures Fits(n, q + [m]) && OnlyThese(q + [m]) && Ordered(q + [m])
  {
    var longer := q + [m];
    assert forall i :: 0 <= i < |q| ==> longer[i] == q[i] && longer[..i] == q[..i];
    assert longer[..|q|] == q;
    forall i | 0 <= i < |q| ensures q[i] != m {
      assert q[i].DevInfo? ==> q[i].d in Introduced(q);
      assert q[i].TransferAuthority? ==> q[i].d in Authorised(q);
    }
    if m.TransferAuthority? {
      var i :| 0 <= i < |q| && q[i].DevInfo? && q[i].d == m.d;
      assert q[i] == DevInfo(m.d);
      AuthorityFits(n, q, m.d);
    }
  }

  lemma {:induction false} AuthorityFits(n: nat, q: seq<Message>, d: nat)
    requires Fits(n, q) && d in Introduced(q)
    ensures d < n
  {
  }

  lemma {:induction false} LongerSending(n: nat, states: seq<Sender>, q: seq<Message>, m: Message)
    requires IsSending(n, states, q) && MaySend(n, states[|q|], m)
    ensures IsSending(n, states + [Send(n, states[|q|], m)], q + [m])
  {
    hide Send, MaySend;
  }

  lemma {:induction false} OrderedIsSent(n: nat, q: seq<Message>) returns (states: seq<Sender>)
    requires Fits(n, q) && OnlyThese(q) && Ordered(q)
    ensures IsSending(n, states, q)
  {
    hide Introduced, Authorised, IsSending, Ordered;
    if q == [] {
      states := [Sender({}, {}, [])];
      NothingSent(n, states);
    } else {
      var init, last := q[..|q| - 1], q[|q| - 1];
      LastIsNew(q);
      var before := OrderedIsSent(n, init);
      SendingSets(n, before, init);
      states := before + [Send(n, before[|init|], last)];
      LongerSending(n, before, init, last);
      assert q == init + [last];
    }
  }

  lemma {:induction false} NothingSent(n: nat, states: seq<Sender>)
    requires states == [Sender({}, {}, [])]
    ensures IsSending(n, states, [])
  {
  }

  /** The registry can send exactly the sequences that keep each device's own order. */
  lemma {:induction false} RegistrySendsExactly(n: nat, q: seq<Message>)
    requires OnlyThese(q)
    ensures RegistrySends(n, q) <==> Fits(n, q) && Ordered(q)
  {
    hide Ordered, Fits, IsSending;
    if RegistrySends(n, q) {
      var states: seq<Sender> :| IsSending(n, states, q);
      SendingSets(n, states, q);
    }
    if Fits(n, q) && Ordered(q) {
      var states := OrderedIsSent(n, q);
    }
  }

  const UNFENCED: seq<Message> := [DevInfo(0), TransferAuthority(0), DevInfo(1), TransferAuthority(1)]

  /** So it can make its receiver ready too early if and only if it has more than one device. */
  lemma {:induction false} RegistryPrematureExactly(n: nat)
    ensures (exists q: seq<Message> :: RegistrySends(n, q) && OnlyThese(q) && Fits(n, q) && Premature(n, q)) <==> n > 1
  {
    hide Premature, Gap, Ordered, RegistrySends;
    if n > 1 {
      RegistryCanBePremature(n);
    } else {
      forall q: seq<Message> | RegistrySends(n, q) && OnlyThese(q) && Fits(n, q) ensures !Premature(n, q) {
        RegistrySendsExactly(n, q);
        PrematureExactly(n, q);
        OneDeviceHasNoGap(n, q);
      }
    }
  }

  lemma {:induction false} OneDeviceHasNoGap(n: nat, q: seq<Message>)
    requires n <= 1 && Fits(n, q) && Ordered(q)
    ensures !Gap(n, q)
  {
    forall k | 0 < k <= |q| && q[k - 1].TransferAuthority? ensures Introduced(q[..k]) == Blocks(n) {
      var p := q[..k];
      var i :| 0 <= i < k - 1 && q[..k - 1][i] == DevInfo(q[k - 1].d);
      assert p[i] == DevInfo(0);
      IntroducedGrows(n, q, k);
      assert 0 in Introduced(p) && Blocks(1) == {0} by { assert p[i].DevInfo? && p[i].d == 0; }
    }
  }

  lemma {:induction false} RegistryCanBePremature(n: nat)
    requires n > 1
    ensures RegistrySends(n, UNFENCED) && OnlyThese(UNFENCED) && Fits(n, UNFENCED) && Premature(n, UNFENCED)
  {
    hide Premature, Handle;
    var q := UNFENCED;
    UnfencedOrdered();
    RegistrySendsExactly(n, q);
    assert {0} == Introduced(q[..2]) == Authorised(q[..2]) by { UnfencedSets(); }
    assert 1 in Blocks(n);
    assert q[2 - 1].TransferAuthority?;
    GapMakesPremature(n, q, 2);
  }

  lemma {:induction false} UnfencedOrdered()
    ensures Ordered(UNFENCED)
  {
    var q := UNFENCED;
    assert q[..1] == [DevInfo(0)] && q[..3] == [DevInfo(0), TransferAuthority(0), DevInfo(1)];
    assert q[..1][0] == DevInfo(0) && q[..3][2] == DevInfo(1);
  }

  lemma {:induction false} UnfencedSets()
    ensures Introduced(UNFENCED[..2]) == Authorised(UNFENCED[..2]) == {0}
  {
    var p := UNFENCED[..2];
    assert p == [DevInfo(0), TransferAuthority(0)];
    forall d ensures d in Introduced(p) <==> d == 0 { assert p[0] == DevInfo(0); }
    forall d ensures d in Authorised(p) <==> d == 0 { assert p[1] == TransferAuthority(0); }
  }
}
