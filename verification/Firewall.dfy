/** The port forwarder's bookkeeping of firewall rules: one goroutine per port appends rules to shared
    chains and may fail anywhere, and one close deletes what was appended. */
module Firewall {
  import opened Options
  import C = ConcurrentMap

  type Spec = seq<string>

  datatype Rule = Rule(chain: string, spec: Spec)

  datatype Port = Port(loopback: bool, host: string, port: string, vethIP: string, internalPort: string, protocol: string)

  /** The rules of one port, in the order in which they are appended. */
  function RulesOf(p: Port): seq<Rule> {
    var target := p.vethIP + ":" + p.internalPort;
    (if p.loopback then []
     else [Rule("filter/FORWARD", ["-d", p.vethIP, "-j", "ACCEPT"]), Rule("filter/FORWARD", ["-s", p.vethIP, "-j", "ACCEPT"])])
    + [Rule("nat/OUTPUT", ["-p", p.protocol, "-d", p.host, "--dport", p.port, "-j", "DNAT", "--to-destination", target]),
       Rule("nat/PREROUTING", ["-p", p.protocol, "--dport", p.port, "-d", p.host, "-j", "DNAT", "--to-destination", target]),
       Rule("nat/POSTROUTING", ["-p", p.protocol, "-d", p.vethIP, "--dport", p.internalPort, "-j", "MASQUERADE"])]
  }

  /* -------------------------------------------------------- what the rules mean */

  datatype Packet = Packet(src: string, dst: string, dport: string, protocol: string)

  /** A specification is a list of flags, each with its value. */
  predicate HasPair(spec: Spec, flag: string, value: string) {
    |spec| >= 2 && ((spec[0] == flag && spec[1] == value) || HasPair(spec[2..], flag, value))
  }

  predicate Matches(spec: Spec, x: Packet) {
    |spec| < 2 || (Admits(spec[0], spec[1], x) && Matches(spec[2..], x))
  }

  predicate Admits(flag: string, value: string, x: Packet) {
    && (flag == "-p" ==> x.protocol == value)
    && (flag == "-s" ==> x.src == value)
    && (flag == "-d" ==> x.dst == value)
    && (flag == "--dport" ==> x.dport == value)
  }

  /** One of the rules in this chain matches the packet and sends it to this target. */
  ghost predicate Jumps(rules: seq<Rule>, chain: string, x: Packet, target: string) {
    exists r :: r in rules && r.chain == chain && Matches(r.spec, x) && HasPair(r.spec, "-j", target)
  }

  ghost predicate Redirects(rules: seq<Rule>, chain: string, x: Packet, to: string) {
    exists r :: r in rules && r.chain == chain && Matches(r.spec, x) && HasPair(r.spec, "-j", "DNAT") && HasPair(r.spec, "--to-destination", to)
  }

  lemma {:induction false} FlagsDiffer()
    ensures "-p" != "-s" && "-p" != "-d" && "-p" != "-j" && "-s" != "-d" && "-s" != "-j" && "-d" != "-j"
    ensures |"--dport"| == 7 && |"--to-destination"| == 16
    ensures "nat/OUTPUT" != "filter/FORWARD" && "nat/PREROUTING" != "filter/FORWARD" && "nat/POSTROUTING" != "filter/FORWARD"
    ensures "nat/OUTPUT" != "nat/PREROUTING" && "nat/OUTPUT" != "nat/POSTROUTING" && "nat/PREROUTING" != "nat/POSTROUTING"
    ensures "DNAT" != "ACCEPT" && "DNAT" != "MASQUERADE" && "ACCEPT" != "MASQUERADE"
  {
    assert "-p"[1] != "-s"[1] && "-p"[1] != "-d"[1] && "-p"[1] != "-j"[1] && "-s"[1] != "-d"[1] && "-s"[1] != "-j"[1] && "-d"[1] != "-j"[1];
    assert "nat/OUTPUT"[0] != "filter/FORWARD"[0] && "nat/PREROUTING"[0] != "filter/FORWARD"[0];
  }

  lemma {:induction false} NextPair(flag: string, value: string, rest: Spec, x: Packet)
    ensures Matches([flag, value] + rest, x) <==> Admits(flag, value, x) && Matches(rest, x)
    ensures forall f, v :: HasPair([flag, value] + rest, f, v) <==> (flag == f && value == v) || HasPair(rest, f, v)
  {
    assert ([flag, value] + rest)[2..] == rest;
  }

  lemma {:induction false} AcceptMeans(flag: string, address: string, x: Packet)
    ensures var spec := [flag, address, "-j", "ACCEPT"];
      && (Matches(spec, x) <==> Admits(flag, address, x))
      && (flag != "-j" ==> forall target :: HasPair(spec, "-j", target) <==> target == "ACCEPT")
  {
    FlagsDiffer();
    var last := ["-j", "ACCEPT"];
    assert [flag, address, "-j", "ACCEPT"] == [flag, address] + last && last == last + [];
    NextPair(flag, address, last, x);
    NextPair("-j", "ACCEPT", [], x);
  }

  lemma {:induction false} MasqueradeMeans(protocol: string, address: string, port: string, x: Packet)
    ensures var spec := ["-p", protocol, "-d", address, "--dport", port, "-j", "MASQUERADE"];
      && (Matches(spec, x) <==> x.protocol == protocol && x.dst == address && x.dport == port)
      && forall target :: HasPair(spec, "-j", target) <==> target == "MASQUERADE"
  {
    FlagsDiffer();
    var s3 := ["-j", "MASQUERADE"];
    var s2 := ["--dport", port] + s3;
    var s1 := ["-d", address] + s2;
    assert ["-p", protocol, "-d", address, "--dport", port, "-j", "MASQUERADE"] == ["-p", protocol] + s1 && s3 == s3 + [];
    NextPair("-p", protocol, s1, x);
    NextPair("-d", address, s2, x);
    NextPair("--dport", port, s3, x);
    NextPair("-j", "MASQUERADE", [], x);
  }

  lemma {:induction false} RedirectMeans(protocol: string, f1: string, v1: string, f2: string, v2: string, to: string, x: Packet)
    requires f1 != "-j" && f2 != "-j" && f1 != "--to-destination" && f2 != "--to-destination"
    ensures var spec := ["-p", protocol, f1, v1, f2, v2, "-j", "DNAT", "--to-destination", to];
      && (Matches(spec, x) <==> x.protocol == protocol && Admits(f1, v1, x) && Admits(f2, v2, x))
      && (forall target :: HasPair(spec, "-j", target) <==> target == "DNAT")
      && (forall t :: HasPair(spec, "--to-destination", t) <==> t == to)
  {
    FlagsDiffer();
    var s4 := ["--to-destination", to];
    var s3 := ["-j", "DNAT"] + s4;
    var s2 := [f2, v2] + s3;
    var s1 := [f1, v1] + s2;
    assert ["-p", protocol, f1, v1, f2, v2, "-j", "DNAT", "--to-destination", to] == ["-p", protocol] + s1 && s4 == s4 + [];
    NextPair("-p", protocol, s1, x);
    NextPair(f1, v1, s2, x);
    NextPair(f2, v2, s3, x);
    NextPair("-j", "DNAT", s4, x);
    NextPair("--to-destination", to, [], x);
  }

  /** The rules, in the order in which they are appended, by their chains. */
  lemma {:induction false} ChainsInOrder(p: Port)
    ensures |RulesOf(p)| == if p.loopback then 3 else 5
    ensures var at, rules := if p.loopback then 0 else 2, RulesOf(p);
      && rules[at].chain == "nat/OUTPUT" && rules[at + 1].chain == "nat/PREROUTING" && rules[at + 2].chain == "nat/POSTROUTING"
      && forall k :: 0 <= k < at ==> rules[k].chain == "filter/FORWARD" && HasPair(rules[k].spec, if k == 0 then "-d" else "-s", p.vethIP)
  {
    if !p.loopback {
      var x := Packet("", "", "", "");
      NextPair("-d", p.vethIP, ["-j", "ACCEPT"], x);
      NextPair("-s", p.vethIP, ["-j", "ACCEPT"], x);
      assert ["-d", p.vethIP] + ["-j", "ACCEPT"] == ["-d", p.vethIP, "-j", "ACCEPT"];
      assert ["-s", p.vethIP] + ["-j", "ACCEPT"] == ["-s", p.vethIP, "-j", "ACCEPT"];
    }
  }

  /** The one rule of a port that redirects in this chain. */
  function Redirector(p: Port, chain: string): Rule {
    var target := p.vethIP + ":" + p.internalPort;
    if chain == "nat/OUTPUT" then Rule(chain, ["-p", p.protocol, "-d", p.host, "--dport", p.port, "-j", "DNAT", "--to-destination", target])
    else Rule(chain, ["-p", p.protocol, "--dport", p.port, "-d", p.host, "-j", "DNAT", "--to-destination", target])
  }

  lemma {:induction false} OneRedirector(p: Port, chain: string)
    requires chain == "nat/OUTPUT" || chain == "nat/PREROUTING"
    ensures forall r :: r in RulesOf(p) && r.chain == chain <==> r == Redirector(p, chain)
  {
    FlagsDiffer();
    var at := if p.loopback then 0 else 2;
    assert RulesOf(p)[at] == Redirector(p, "nat/OUTPUT") && RulesOf(p)[at + 1] == Redirector(p, "nat/PREROUTING");
  }

  lemma {:induction false} RedirectorMeans(p: Port, chain: string, x: Packet)
    ensures var spec := Redirector(p, chain).spec;
      && (Matches(spec, x) <==> x.protocol == p.protocol && x.dst == p.host && x.dport == p.port)
      && HasPair(spec, "-j", "DNAT") && (forall t :: HasPair(spec, "--to-destination", t) <==> t == p.vethIP + ":" + p.internalPort)
  {
    FlagsDiffer();
    var target := p.vethIP + ":" + p.internalPort;
    RedirectMeans(p.protocol, "-d", p.host, "--dport", p.port, target, x);
    RedirectMeans(p.protocol, "--dport", p.port, "-d", p.host, target, x);
    hide Matches, HasPair;
  }

  /** The rules of one port redirect exactly what is sent to the external address, by others and by the
      host itself, and they redirect it to the internal address. */
  lemma {:induction false} RedirectsExactly(p: Port, chain: string, x: Packet, to: string)
    requires chain == "nat/OUTPUT" || chain == "nat/PREROUTING"
    ensures Redirects(RulesOf(p), chain, x, to)
       <==> x.protocol == p.protocol && x.dst == p.host && x.dport == p.port && to == p.vethIP + ":" + p.internalPort
  {
    hide Matches, HasPair, RulesOf, Redirector;
    OneRedirector(p, chain);
    RedirectorMeans(p, chain, x);
    var r := Redirector(p, chain);
    assert r in RulesOf(p) && r.chain == chain;
  }

  /** They masquerade exactly what goes to the internal address. */
  lemma {:induction false} MasqueradesExactly(p: Port, x: Packet)
    ensures Jumps(RulesOf(p), "nat/POSTROUTING", x, "MASQUERADE")
       <==> x.protocol == p.protocol && x.dst == p.vethIP && x.dport == p.internalPort
  {
    FlagsDiffer();
    ChainsInOrder(p);
    MasqueradeMeans(p.protocol, p.vethIP, p.internalPort, x);
    hide Matches, HasPair;
    assert RulesOf(p)[if p.loopback then 2 else 4] in RulesOf(p);
  }

  /** And they let exactly the virtual machine's packets pass between the networks, unless the external
      address is the host's own. */
  lemma {:induction false} AcceptsExactly(p: Port, x: Packet)
    ensures Jumps(RulesOf(p), "filter/FORWARD", x, "ACCEPT") <==> !p.loopback && (x.dst == p.vethIP || x.src == p.vethIP)
  {
    FlagsDiffer();
    ChainsInOrder(p);
    AcceptMeans("-d", p.vethIP, x);
    AcceptMeans("-s", p.vethIP, x);
    hide Matches, HasPair;
    if !p.loopback { assert RulesOf(p)[0] in RulesOf(p) && RulesOf(p)[1] in RulesOf(p); }
  }

  /* ------------------------------------------------------- one chain, as a value */

  function RemoveFirst<T(==)>(s: seq<T>, x: T): seq<T> {
    if s == [] then [] else if s[0] == x then s[1..] else [s[0]] + RemoveFirst(s[1..], x)
  }

  function RemoveAll<T(==)>(s: seq<T>, xs: seq<T>): seq<T> {
    if xs == [] then s else RemoveFirst(RemoveAll(s, xs[..|xs| - 1]), xs[|xs| - 1])
  }

  lemma {:induction false} RemoveFirstMultiset<T>(s: seq<T>, x: T)
    ensures multiset(RemoveFirst(s, x)) == multiset(s) - multiset{x}
    ensures x !in s ==> RemoveFirst(s, x) == s
  {
    if s != [] {
      assert s == [s[0]] + s[1..];
      if s[0] != x { RemoveFirstMultiset(s[1..], x); }
    }
  }

  lemma {:induction false} RemoveFirstAfter<T>(s: seq<T>, a: seq<T>, x: T)
    requires x !in s
    ensures RemoveFirst(s + a, x) == s + RemoveFirst(a, x)
  {
    if s == [] {
      assert s + a == a;
    } else {
      assert (s + a)[1..] == s[1..] + a;
      RemoveFirstAfter(s[1..], a, x);
      assert s + RemoveFirst(a, x) == [s[0]] + (s[1..] + RemoveFirst(a, x));
    }
  }

  lemma {:induction false} RemoveAllMultiset<T>(s: seq<T>, xs: seq<T>)
    ensures multiset(RemoveAll(s, xs)) == multiset(s) - multiset(xs)
  {
    if xs != [] {
      hide RemoveFirst;
      var init, last := xs[..|xs| - 1], xs[|xs| - 1];
      RemoveAllMultiset(s, init);
      RemoveFirstMultiset(RemoveAll(s, init), last);
      assert xs == init + [last];
      hide RemoveAll;
      TakeBoth(multiset(s), multiset(init), last);
    }
  }

  lemma {:induction false} TakeBoth<T>(s: multiset<T>, a: multiset<T>, x: T)
    ensures s - a - multiset{x} == s - (a + multiset{x})
  {
  }

  lemma {:induction false} RemoveAllAfter<T>(s: seq<T>, a: seq<T>, xs: seq<T>)
    requires forall x :: x in xs ==> x !in s
    ensures RemoveAll(s + a, xs) == s + RemoveAll(a, xs)
  {
    if xs != [] {
      RemoveAllAfter(s, a, xs[..|xs| - 1]);
      RemoveFirstAfter(s, RemoveAll(a, xs[..|xs| - 1]), xs[|xs| - 1]);
    }
  }

  /** Deleting what was appended, in any order, restores the chain as a multiset, and as a sequence if
      nothing of it was there before. */
  lemma {:induction false} RestoresChain<T>(s: seq<T>, appended: seq<T>, deleted: seq<T>)
    requires multiset(deleted) == multiset(appended)
    ensures multiset(RemoveAll(s + appended, deleted)) == multiset(s)
    ensures (forall x :: x in appended ==> x !in s) ==> RemoveAll(s + appended, deleted) == s
  {
    RemoveAllMultiset(s + appended, deleted);
    if forall x :: x in appended ==> x !in s {
      forall x | x in deleted ensures x !in s {
        assert x in multiset(deleted);
      }
      RemoveAllAfter(s, appended, deleted);
      RemoveAllMultiset(appended, deleted);
      assert |multiset(RemoveAll(appended, deleted))| == 0;
      assert s + [] == s;
    }
  }

  /** No occurrence of `x` is followed by anything else. */
  predicate OnlyAtEnd<T(==)>(s: seq<T>, x: T) { forall i, j :: 0 <= i < j < |s| && s[i] == x ==> s[j] == x }

  /** One appended rule: the delete, which takes the first match, restores the order exactly when the
      rule was not there before or only at the end. */
  lemma {:induction false} OrderRestoredExactly<T>(s: seq<T>, x: T)
    ensures RemoveFirst(s + [x], x) == s <==> OnlyAtEnd(s, x)
  {
    if s == [] {
      assert s + [x] == [x];
    } else {
      assert (s + [x])[1..] == s[1..] + [x];
      assert s == [s[0]] + s[1..];
      if s[0] != x {
        OrderRestoredExactly(s[1..], x);
        assert RemoveFirst(s + [x], x) == [s[0]] + RemoveFirst(s[1..] + [x], x);
        assert RemoveFirst(s + [x], x)[1..] == RemoveFirst(s[1..] + [x], x);
        OnlyAtEndTail(s, x);
      } else {
        Rotated(s, x);
      }
    }
  }

  lemma {:induction false} OnlyAtEndTail<T>(s: seq<T>, x: T)
    requires s != [] && s[0] != x
    ensures OnlyAtEnd(s, x) <==> OnlyAtEnd(s[1..], x)
  {
    if OnlyAtEnd(s[1..], x) {
      forall i, j | 0 <= i < j < |s| && s[i] == x ensures s[j] == x {
        assert s[1..][i - 1] == x && s[1..][j - 1] == s[j];
      }
    }
  }

  lemma {:induction false} Rotated<T>(s: seq<T>, x: T)
    requires s != [] && s[0] == x
    ensures s[1..] + [x] == s <==> forall j :: 0 <= j < |s| ==> s[j] == x
    ensures OnlyAtEnd(s, x) <==> forall j :: 0 <= j < |s| ==> s[j] == x
  {
    if s[1..] + [x] == s {
      var j := 0;
      while j < |s| - 1
        invariant 0 <= j < |s| && forall k :: 0 <= k <= j ==> s[k] == x
      {
        assert s[j] == (s[1..] + [x])[j];
        j := j + 1;
      }
    }
  }

  /* --------------------------------------------------------------- bookkeeping */

  /** The rules of `log` that belong to one chain. */
  function InChain(log: seq<Rule>, c: string): seq<Spec> {
    if log == [] then []
    else InChain(log[..|log| - 1], c) + if log[|log| - 1].chain == c then [log[|log| - 1].spec] else []
  }

  lemma {:induction false} InChainAppend(log: seq<Rule>, r: Rule, c: string)
    ensures InChain(log + [r], c) == InChain(log, c) + if r.chain == c then [r.spec] else []
  {
    assert (log + [r])[..|log|] == log;
  }

  lemma {:induction false} InChainCount(log: seq<Rule>, c: string, spec: Spec)
    ensures multiset(InChain(log, c))[spec] == multiset(log)[Rule(c, spec)]
  {
    if log != [] {
      InChainCount(log[..|log| - 1], c, spec);
      assert log == log[..|log| - 1] + [log[|log| - 1]];
    }
  }

  lemma {:induction false} InChainPermutes(a: seq<Rule>, b: seq<Rule>, c: string)
    requires multiset(a) == multiset(b)
    ensures multiset(InChain(a, c)) == multiset(InChain(b, c))
  {
    forall spec ensures multiset(InChain(a, c))[spec] == multiset(InChain(b, c))[spec] {
      InChainCount(a, c, spec);
      InChainCount(b, c, spec);
    }
  }

  function Flat(groups: seq<seq<Rule>>): seq<Rule> {
    if groups == [] then [] else Flat(groups[..|groups| - 1]) + groups[|groups| - 1]
  }

  lemma {:induction false} FlatAppend(groups: seq<seq<Rule>>, g: seq<Rule>)
    ensures Flat(groups + [g]) == Flat(groups) + g
  {
    assert (groups + [g])[..|groups|] == groups;
  }

  lemma {:induction false} Rearrange<T>(m0: multiset<T>, m1: multiset<T>, a: multiset<T>, b: multiset<T>, c: multiset<T>)
    requires m1 + a == m0 + b
    ensures (m1 + c) + a == (m0 + c) + b
  {
    assert (m1 + c) + a == (m1 + a) + c;
  }

  lemma {:induction false} Cancel<T>(m0: multiset<T>, m1: multiset<T>, a: multiset<T>, x: multiset<T>)
    requires m1 + a == m0 + (a + x)
    ensures m1 == m0 + x
  {
    forall t ensures m1[t] == (m0 + x)[t] { assert (m1 + a)[t] == (m0 + (a + x))[t]; }
  }

  lemma {:induction false} Regroup<T>(a: multiset<T>, b: multiset<T>, c: multiset<T>)
    ensures (a + b) + c == a + (c + b)
  {
  }

  lemma {:induction false} FlatUpdate(groups: seq<seq<Rule>>, i: nat, g: seq<Rule>)
    requires i < |groups|
    ensures multiset(Flat(groups[i := g])) + multiset(groups[i]) == multiset(Flat(groups)) + multiset(g)
  {
    var n := |groups| - 1;
    var init, after := groups[..n], groups[i := g];
    if i == n {
      assert after[..n] == init;
    } else {
      FlatUpdate(init, i, g);
      assert after[..n] == init[i := g] && after[n] == groups[n];
      Rearrange(multiset(Flat(init)), multiset(Flat(init[i := g])), multiset(groups[i]), multiset(g), multiset(groups[n]));
    }
  }

  lemma {:induction false} FlatEmpty(groups: seq<seq<Rule>>)
    requires forall i :: 0 <= i < |groups| ==> groups[i] == []
    ensures Flat(groups) == []
  {
    if groups != [] { FlatEmpty(groups[..|groups| - 1]); }
  }

  /* ---------------------------------------------------------------- the program */

  class IPTables {
    var chains: map<string, seq<Spec>>

    constructor (initial: map<string, seq<Spec>>)
      ensures chains == initial
    {
      chains := initial;
    }

    function Chain(c: string): seq<Spec>
      reads this
    {
      if c in chains then chains[c] else []
    }

    method Append(r: Rule)
      modifies this
      ensures forall c :: Chain(c) == old(Chain(c)) + if c == r.chain then [r.spec] else []
    {
      chains := chains[r.chain := Chain(r.chain) + [r.spec]];
    }

    /** Deletes the first match; an absent rule is an error. */
    method Delete(r: Rule) returns (ok: bool)
      modifies this
      ensures ok <==> r.spec in old(Chain(r.chain))
      ensures forall c :: Chain(c) == if c == r.chain then RemoveFirst(old(Chain(c)), r.spec) else old(Chain(c))
    {
      ok := r.spec in Chain(r.chain);
      RemoveFirstMultiset(Chain(r.chain), r.spec);
      if ok {
        chains := chains[r.chain := RemoveFirst(Chain(r.chain), r.spec)];
      }
    }
  }

  function Reversed(s: seq<Rule>): (r: seq<Rule>)
    ensures |r| == |s|
  {
    if s == [] then [] else [s[|s| - 1]] + Reversed(s[..|s| - 1])
  }

  lemma {:induction false} ReversedMultiset(s: seq<Rule>)
    ensures multiset(Reversed(s)) == multiset(s)
  {
    if s != [] {
      ReversedMultiset(s[..|s| - 1]);
      assert s == s[..|s| - 1] + [s[|s| - 1]];
    }
  }

  lemma {:induction false} ReversedAt(s: seq<Rule>, k: nat)
    requires k < |s|
    ensures Reversed(s)[k] == s[|s| - 1 - k]
  {
    if k > 0 { ReversedAt(s[..|s| - 1], k - 1); }
  }

  lemma {:induction false} CountBefore<T>(s: seq<T>, k: nat)
    requires k < |s|
    ensures multiset(s[..k])[s[k]] < multiset(s)[s[k]]
  {
    assert s == s[..k] + ([s[k]] + s[k + 1..]);
  }

  /** A rule that was counted is still there when its turn comes. */
  lemma {:induction false} StillThere(s: seq<Spec>, order: seq<Rule>, k: nat, r: Rule)
    requires k < |order| && order[k] == r
    ensures multiset(InChain(order, r.chain)) <= multiset(s) ==> r.spec in RemoveAll(s, InChain(order[..k], r.chain))
  {
    hide InChain, RemoveAll;
    var xs := InChain(order[..k], r.chain);
    RemoveAllMultiset(s, xs);
    InChainCount(order, r.chain, r.spec);
    InChainCount(order[..k], r.chain, r.spec);
    CountBefore(order, k);
    if multiset(InChain(order, r.chain)) <= multiset(s) {
      assert multiset(s)[r.spec] > multiset(xs)[r.spec];
      assert r.spec in multiset(RemoveAll(s, xs));
    }
  }

  lemma {:induction false} NextRemoval<T>(s: seq<T>, xs: seq<T>, x: T)
    ensures RemoveAll(s, xs + [x]) == RemoveFirst(RemoveAll(s, xs), x)
    ensures RemoveAll(s, xs + []) == RemoveAll(s, xs)
  {
    assert (xs + [x])[..|xs|] == xs && xs + [] == xs;
  }

  class ForwardedPorts {
    const iptable: IPTables
    var deferFuncs: seq<seq<Rule>>     // what each deferred function deletes

    constructor (iptable: IPTables, deferFuncs: seq<seq<Rule>>)
      ensures this.iptable == iptable && this.deferFuncs == deferFuncs
    {
      this.iptable, this.deferFuncs := iptable, deferFuncs;
    }

    /** Runs all deferred functions, the last one first, and goes on after errors. */
    method Close() returns (errors: nat)
      modifies iptable
      ensures forall c :: iptable.Chain(c) == RemoveAll(old(iptable.Chain(c)), InChain(Reversed(Flat(deferFuncs)), c))
      ensures (forall c :: multiset(InChain(Reversed(Flat(deferFuncs)), c)) <= multiset(old(iptable.Chain(c)))) ==> errors == 0
    {
      hide InChain, RemoveAll, RemoveFirst, Flat, Reversed;
      var closeFuncs := Flat(deferFuncs);
      ghost var order := Reversed(closeFuncs);
      var k: nat := |closeFuncs|;
      errors := 0;
      forall c ensures iptable.Chain(c) == RemoveAll(iptable.Chain(c), InChain(order[..0], c)) {
        RemoveNone(iptable.Chain(c), order, c);
      }
      while k > 0
        invariant k <= |closeFuncs| == |order|
        invariant forall c :: iptable.Chain(c) == RemoveAll(old(iptable.Chain(c)), InChain(order[..|order| - k], c))
        invariant (forall c :: multiset(InChain(order, c)) <= multiset(old(iptable.Chain(c)))) ==> errors == 0
      {
        k := k - 1;
        var r := closeFuncs[k];
        ReversedAt(closeFuncs, |order| - 1 - k);
        StillThere(old(iptable.Chain(r.chain)), order, |order| - 1 - k, r);
        forall c ensures RemoveAll(old(iptable.Chain(c)), InChain(order[..|order| - k], c))
          == if c == r.chain then RemoveFirst(iptable.Chain(c), r.spec) else iptable.Chain(c)
        {
          RemoveNext(old(iptable.Chain(c)), order, |order| - 1 - k, c);
        }
        var ok := iptable.Delete(r);
        if !ok { errors := errors + 1; }
      }
      assert order[..|order|] == order;
    }
  }

  lemma {:induction false} RemoveNone(s: seq<Spec>, order: seq<Rule>, c: string)
    ensures RemoveAll(s, InChain(order[..0], c)) == s
  {
  }

  lemma {:induction false} RemoveNext(s: seq<Spec>, order: seq<Rule>, k: nat, c: string)
    requires k < |order|
    ensures var before := RemoveAll(s, InChain(order[..k], c));
      RemoveAll(s, InChain(order[..k + 1], c)) == if c == order[k].chain then RemoveFirst(before, order[k].spec) else before
  {
    assert order[..k + 1] == order[..k] + [order[k]];
    InChainAppend(order[..k], order[k], c);
    NextRemoval(s, InChain(order[..k], c), order[k].spec);
  }

  /** Each port has one group, which undoes, in order, exactly the rules before the append that fails, and
      all of its rules where none fails. */
  ghost predicate Undoes(ports: seq<Port>, failures: seq<Option<nat>>, deferFuncs: seq<seq<Rule>>, order: seq<nat>) {
    && |order| == |deferFuncs| && C.Distinct(order, |ports|) && |failures| == |ports|
    && forall k :: 0 <= k < |order| ==> deferFuncs[k] == Made(ports[order[k]], failures[order[k]])
  }

  /** What a port gets to append; `failure` is the number of the append that fails, or of what comes before
      it, if one does. */
  function Made(p: Port, failure: Option<nat>): (r: seq<Rule>)
    ensures failure.None? ==> r == RulesOf(p)
    ensures failure.Some? ==> r <= RulesOf(p) && (|r| == failure.value || (r == RulesOf(p) && |r| < failure.value))
  {
    if failure.Some? && failure.value < |RulesOf(p)| then RulesOf(p)[..failure.value] else RulesOf(p)
  }

  function Sum(s: seq<nat>): nat { if s == [] then 0 else Sum(s[..|s| - 1]) + s[|s| - 1] }

  lemma {:induction false} SumUpdate(s: seq<nat>, i: nat, v: nat)
    requires i < |s|
    ensures Sum(s[i := v]) + s[i] == Sum(s) + v
  {
    var n := |s| - 1;
    if i == n {
      assert s[i := v][..n] == s[..n];
    } else {
      SumUpdate(s[..n], i, v);
      assert s[i := v][..n] == s[..n][i := v];
    }
  }

  /** The appends that were made but not handed in yet; `left` counts a port's steps to its end. */
  ghost predicate OpenOk(ports: seq<Port>, failures: seq<Option<nat>>, local: seq<seq<Rule>>, left: seq<nat>, open: seq<seq<Rule>>) {
    && |local| == |left| == |open| == |ports| == |failures|
    && forall i :: 0 <= i < |ports| ==> PortOk(Made(ports[i], failures[i]), local[i], left[i], open[i])
  }

  ghost predicate PortOk(made: seq<Rule>, local: seq<Rule>, left: nat, open: seq<Rule>) {
    && local <= made && left == (if left > 0 then |made| - |local| + 1 else 0)
    && open == if left > 0 then local else []
  }

  ghost predicate LogOf(ports: seq<Port>, log: seq<Rule>) {
    forall k :: 0 <= k < |log| ==> exists i :: 0 <= i < |ports| && log[k] in RulesOf(ports[i])
  }

  /** Between any two steps every appended rule is owed to one open or finished goroutine. */
  ghost predicate Owed(ports: seq<Port>, failures: seq<Option<nat>>, local: seq<seq<Rule>>, left: seq<nat>, open: seq<seq<Rule>>,
                       deferFuncs: seq<seq<Rule>>, order: seq<nat>, log: seq<Rule>) {
    && OpenOk(ports, failures, local, left, open)
    && Undoes(ports, failures, deferFuncs, order)
    && (forall i :: 0 <= i < |ports| ==> (i in order <==> left[i] == 0))
    && multiset(log) == multiset(Flat(deferFuncs)) + multiset(Flat(open))
    && LogOf(ports, log)
  }

  /** A goroutine ends at the failing append, or after its last rule. */
  lemma {:induction false} EndsHere(ports: seq<Port>, failures: seq<Option<nat>>, local: seq<seq<Rule>>, left: seq<nat>, open: seq<seq<Rule>>, i: nat)
    requires OpenOk(ports, failures, local, left, open) && i < |ports| && left[i] > 0
    ensures (failures[i] == Some(|local[i]|) || |local[i]| == |RulesOf(ports[i])|) <==> left[i] == 1
    ensures left[i] == 1 ==> local[i] == Made(ports[i], failures[i])
    ensures left[i] > 1 ==>
              && |local[i]| < |RulesOf(ports[i])| && |local[i]| < |Made(ports[i], failures[i])|
              && Made(ports[i], failures[i])[|local[i]|] == RulesOf(ports[i])[|local[i]|]
  {
    hide RulesOf;
    assert PortOk(Made(ports[i], failures[i]), local[i], left[i], open[i]);
  }

  lemma {:induction false} AfterAppend(ports: seq<Port>, failures: seq<Option<nat>>, local: seq<seq<Rule>>, left: seq<nat>, open: seq<seq<Rule>>,
                    deferFuncs: seq<seq<Rule>>, order: seq<nat>, log: seq<Rule>, i: nat)
    requires Owed(ports, failures, local, left, open, deferFuncs, order, log) && i < |ports| && left[i] > 1
    ensures |local[i]| < |RulesOf(ports[i])|
    ensures var r := RulesOf(ports[i])[|local[i]|];
      Owed(ports, failures, local[i := local[i] + [r]], left[i := left[i] - 1], open[i := local[i] + [r]], deferFuncs, order, log + [r])
  {
    hide RulesOf, Flat, Undoes, Made;
    assert PortOk(Made(ports[i], failures[i]), local[i], left[i], open[i]);
    EndsHere(ports, failures, local, left, open, i);
    var r := RulesOf(ports[i])[|local[i]|];
    FlatUpdate(open, i, local[i] + [r]);
    assert multiset(local[i] + [r]) == multiset(local[i]) + multiset{r};
    Cancel(multiset(Flat(open)), multiset(Flat(open[i := local[i] + [r]])), multiset(local[i]), multiset{r});
    assert multiset(log + [r]) == multiset(log) + multiset{r};
  }

  lemma {:induction false} AfterFinish(ports: seq<Port>, failures: seq<Option<nat>>, local: seq<seq<Rule>>, left: seq<nat>, open: seq<seq<Rule>>,
                    deferFuncs: seq<seq<Rule>>, order: seq<nat>, log: seq<Rule>, i: nat)
    requires Owed(ports, failures, local, left, open, deferFuncs, order, log) && i < |ports| && left[i] == 1
    ensures Owed(ports, failures, local, left[i := 0], open[i := []], deferFuncs + [local[i]], order + [i], log)
  {
    hide RulesOf, Flat, Made;
    assert PortOk(Made(ports[i], failures[i]), local[i], left[i], open[i]);
    EndsHere(ports, failures, local, left, open, i);
    FlatUpdate(open, i, []);
    FlatAppend(deferFuncs, local[i]);
    Regroup(multiset(Flat(deferFuncs)), multiset(local[i]), multiset(Flat(open[i := []])));
    var after := order + [i];
    forall k | 0 <= k < |ports| ensures k in after <==> left[i := 0][k] == 0 {
      assert k in after <==> k in order || k == i;
    }
  }

  lemma {:induction false} AllHandedIn(ports: seq<Port>, failures: seq<Option<nat>>, local: seq<seq<Rule>>, left: seq<nat>, open: seq<seq<Rule>>,
                    deferFuncs: seq<seq<Rule>>, order: seq<nat>, log: seq<Rule>)
    requires Owed(ports, failures, local, left, open, deferFuncs, order, log) && forall i :: 0 <= i < |ports| ==> left[i] == 0
    ensures multiset(Flat(deferFuncs)) == multiset(log) && |deferFuncs| == |ports|
    ensures LogOf(ports, log) && Undoes(ports, failures, deferFuncs, order) && forall i :: 0 <= i < |ports| ==> i in order
  {
    hide Flat, RulesOf, LogOf, Made;
    C.FullOrder(order, |ports|);
    forall i | 0 <= i < |open| ensures open[i] == [] { assert PortOk(Made(ports[i], failures[i]), local[i], left[i], open[i]); }
    FlatEmpty(open);
  }

  lemma {:induction false} NothingYet(ports: seq<Port>, failures: seq<Option<nat>>, local: seq<seq<Rule>>, left: seq<nat>)
    requires |local| == |left| == |ports| == |failures|
    requires forall i :: 0 <= i < |ports| ==> local[i] == [] && left[i] == |Made(ports[i], failures[i])| + 1
    ensures Owed(ports, failures, local, left, local, [], [], []) && forall c :: InChain([], c) == []
  {
    hide RulesOf, Made;
    FlatEmpty(local);
    assert Flat([]) == [];
  }

  /** What was handed in for a port is in its chains. */
  lemma {:induction false} MadeIsThere(ports: seq<Port>, failures: seq<Option<nat>>, deferFuncs: seq<seq<Rule>>, order: seq<nat>, log: seq<Rule>, i: nat, r: Rule)
    requires Undoes(ports, failures, deferFuncs, order) && multiset(Flat(deferFuncs)) == multiset(log)
    requires i in order && i < |ports| && r in Made(ports[i], failures[i])
    ensures r.spec in InChain(log, r.chain)
  {
    hide Made, InChain, Flat;
    var k :| 0 <= k < |order| && order[k] == i;
    InFlat(deferFuncs, k, r);
    assert r in multiset(log);
    InChainCount(log, r.chain, r.spec);
    assert r.spec in multiset(InChain(log, r.chain));
  }

  lemma {:induction false} InFlat(groups: seq<seq<Rule>>, k: nat, r: Rule)
    requires k < |groups| && r in groups[k]
    ensures r in Flat(groups) && r in multiset(Flat(groups))
  {
    if k < |groups| - 1 { InFlat(groups[..|groups| - 1], k, r); }
  }

  /** The goroutines of all ports, in any interleaving; `failures` says at which append each of them fails,
      if it does. `log` is what was appended, in the order in which it happened. */
  method ForwardPorts(iptable: IPTables, ports: seq<Port>, failures: seq<Option<nat>>) returns (forwarded: ForwardedPorts, ghost log: seq<Rule>)
    requires |failures| == |ports|
    modifies iptable
    ensures fresh(forwarded) && forwarded.iptable == iptable
    ensures forall c :: iptable.Chain(c) == old(iptable.Chain(c)) + InChain(log, c)
    ensures multiset(Flat(forwarded.deferFuncs)) == multiset(log) && LogOf(ports, log)
    ensures |forwarded.deferFuncs| == |ports| && exists order: seq<nat> :: Undoes(ports, failures, forwarded.deferFuncs, order)
    ensures forall i, r :: 0 <= i < |ports| && failures[i].None? && r in RulesOf(ports[i]) ==> r.spec in iptable.Chain(r.chain)
  {
    hide InChain, Flat, RulesOf, Owed, OpenOk, Undoes, LogOf, Sum, Made, IPTables.Chain;
    var local: seq<seq<Rule>> := seq(|ports|, _ => []);
    var running: seq<bool> := seq(|ports|, _ => true);
    var deferFuncs: seq<seq<Rule>> := [];
    ghost var left: seq<nat> := seq(|ports|, i requires 0 <= i < |ports| => |Made(ports[i], failures[i])| + 1);
    ghost var order: seq<nat>, open := [], local;
    log := [];
    NothingYet(ports, failures, local, left);
    while exists i: nat :: i < |running| && running[i]
      invariant |local| == |left| == |open| == |ports| == |running| && Owed(ports, failures, local, left, open, deferFuncs, order, log)
      invariant forall i :: 0 <= i < |ports| ==> (running[i] <==> left[i] > 0)
      invariant forall c :: iptable.Chain(c) == old(iptable.Chain(c)) + InChain(log, c)
      decreases Sum(left)
    {
      var i: nat :| i < |running| && running[i];
      OwedOpen(ports, failures, local, left, open, deferFuncs, order, log);
      EndsHere(ports, failures, local, left, open, i);
      if failures[i] == Some(|local[i]|) || |local[i]| == |RulesOf(ports[i])| {
        AfterFinish(ports, failures, local, left, open, deferFuncs, order, log, i);
        SumUpdate(left, i, 0);
        deferFuncs, order := deferFuncs + [local[i]], order + [i];
        running := running[i := false];
        open, left := open[i := []], left[i := 0];
      } else {
        AfterAppend(ports, failures, local, left, open, deferFuncs, order, log, i);
        var r := RulesOf(ports[i])[|local[i]|];
        iptable.Append(r);
        forall c { InChainAppend(log, r, c); }
        SumUpdate(left, i, left[i] - 1);
        log := log + [r];
        local, left := local[i := local[i] + [r]], left[i := left[i] - 1];
        open := open[i := local[i]];
      }
    }
    AllHandedIn(ports, failures, local, left, open, deferFuncs, order, log);
    forall i: nat, r | i < |ports| && failures[i].None? && r in RulesOf(ports[i]) ensures r.spec in iptable.Chain(r.chain) {
      MadeIsThere(ports, failures, deferFuncs, order, log, i, r);
    }
    forwarded := new ForwardedPorts(iptable, deferFuncs);
  }

  lemma {:induction false} OwedOpen(ports: seq<Port>, failures: seq<Option<nat>>, local: seq<seq<Rule>>, left: seq<nat>, open: seq<seq<Rule>>,
                 deferFuncs: seq<seq<Rule>>, order: seq<nat>, log: seq<Rule>)
    requires Owed(ports, failures, local, left, open, deferFuncs, order, log)
    ensures OpenOk(ports, failures, local, left, open)
  {
  }

  /** Whatever the ports, the interleaving and the failures: one close deletes exactly the appended
      rules without an error. Every chain is again the same multiset, and the same sequence if no rule
      of these ports was in it before. */
  method ForwardAndClose(iptable: IPTables, ports: seq<Port>, failures: seq<Option<nat>>) returns (errors: nat)
    requires |failures| == |ports|
    modifies iptable
    ensures errors == 0
    ensures forall c :: multiset(iptable.Chain(c)) == multiset(old(iptable.Chain(c)))
    ensures forall c :: (forall i, spec :: 0 <= i < |ports| && Rule(c, spec) in RulesOf(ports[i]) ==> spec !in old(iptable.Chain(c)))
              ==> iptable.Chain(c) == old(iptable.Chain(c))
  {
    hide InChain, Flat, RulesOf, RemoveAll, Reversed;
    var forwarded, log := ForwardPorts(iptable, ports, failures);
    ghost var order := Reversed(Flat(forwarded.deferFuncs));
    ReversedMultiset(Flat(forwarded.deferFuncs));
    forall c ensures multiset(InChain(order, c)) == multiset(InChain(log, c)) { InChainPermutes(order, log, c); }
    label Forwarded:
    errors := forwarded.Close();
    forall c
      ensures multiset(iptable.Chain(c)) == multiset(old(iptable.Chain(c)))
      ensures (forall i, spec :: 0 <= i < |ports| && Rule(c, spec) in RulesOf(ports[i]) ==> spec !in old(iptable.Chain(c)))
                ==> iptable.Chain(c) == old(iptable.Chain(c))
    {
      RestoresChain(old(iptable.Chain(c)), InChain(log, c), InChain(order, c));
      forall spec | spec in InChain(log, c) ensures exists i :: 0 <= i < |ports| && Rule(c, spec) in RulesOf(ports[i]) {
        InChainFromLog(ports, log, c, spec);
      }
    }
  }

  lemma {:induction false} InChainFromLog(ports: seq<Port>, log: seq<Rule>, c: string, spec: Spec)
    requires LogOf(ports, log) && spec in InChain(log, c)
    ensures exists i :: 0 <= i < |ports| && Rule(c, spec) in RulesOf(ports[i])
  {
    InChainCount(log, c, spec);
    assert spec in multiset(InChain(log, c));
    assert Rule(c, spec) in multiset(log);
    var k :| 0 <= k < |log| && log[k] == Rule(c, spec);
  }
}
