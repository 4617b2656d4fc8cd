/** Port redirects: what the nat hook does to a packet. */
module Redirects {
  import opened Addresses
  import opened Models
  import opened Netfilter
  import opened Matches
  import opened Compiler
  import opened Meaning

  /** The port the first redirect a packet reaches sends it to. */
  function Redirected(rules: seq<Rule>, p: Packet, env: Env): Option<nat> {
    if rules == [] then None
    else
      var to := RedirectOf(rules[0], p, env);
      if to.Some? then to else Redirected(rules[1..], p, env)
  }

  function RedirectOf(es: Rule, p: Packet, env: Env): Option<nat> {
    if es == [] || !es[|es| - 1].Redir? then None
    else
      var f := Run(es[..|es| - 1], map[], p, env);
      if f.Next? then Some(Get(f.regs, es[|es| - 1].reg)) else None
  }

  /** What an operator asks for: a packet for this host, of that protocol, to that port. */
  predicate Asks(d: Redirect, p: Packet) {
    p.daddrType == 2 && Speaks(p, d.proto) && Field(p, 2, 2) == Some(d.incoming)
  }

  /** The port of the first redirect that asks for the packet. */
  function ServedAt(ds: seq<Redirect>, p: Packet): Option<int> {
    if ds == [] then None
    else if Asks(ds[0], p) then Some(ds[0].serving)
    else ServedAt(ds[1..], p)
  }

  predicate RealPorts(ds: seq<Redirect>) {
    forall i :: 0 <= i < |ds| ==> 1 <= ds[i].incoming <= 65535 && 1 <= ds[i].serving <= 65535
  }

  // ---- one rule ----

  function AskMatch(d: Redirect): Rule {
    DaddrTypeIs(2) + L4Is(Models.Protocol(d.proto)) + Compare(Payload(Transport, 2, 2, 1), Eq, PortBytes(d.incoming))
  }

  lemma AskTests(d: Redirect, p: Packet, env: Env)
    requires 1 <= d.incoming <= 65535
    ensures Tests(AskMatch(d), p, env, Asks(d, p))
  {
    var local, proto := DaddrTypeIs(2), L4Is(Models.Protocol(d.proto));
    var port := Compare(Payload(Transport, 2, 2, 1), Eq, PortBytes(d.incoming));
    CompareTests(FibDaddrType(1), Eq, 2, p, env);
    CompareTests(Meta(L4Proto, 1), Eq, Models.Protocol(d.proto), p, env);
    CompareTests(Payload(Transport, 2, 2, 1), Eq, PortBytes(d.incoming), p, env);
    TestsBoth(local, p.daddrType == 2, proto, Speaks(p, d.proto), p, env);
    TestsBoth(local + proto, p.daddrType == 2 && Speaks(p, d.proto), port, Field(p, 2, 2) == Some(d.incoming), p, env);
  }

  lemma RuleRedirects(d: Redirect, p: Packet, env: Env)
    requires 1 <= d.incoming <= 65535 && 1 <= d.serving <= 65535
    ensures |RedirectRule()(d)| == 1
    ensures RedirectOf(RedirectRule()(d)[0], p, env) == if Asks(d, p) then Some(d.serving) else None
  {
    var es, m, store := RedirectRule()(d)[0], AskMatch(d), [Immediate(1, PortBytes(d.serving))];
    assert es == m + [Immediate(1, PortBytes(d.serving)), Redir(1)];
    assert es[|es| - 1] == Redir(1) && es[..|es| - 1] == m + store;
    AskTests(d, p, env);
    RunConcat(m, store, map[], p, env);
    assert Run(m, map[], p, env) == if Asks(d, p) then Next(Left(m, map[], p, env)) else Stop;
    SetsPort(d.serving, Left(m, map[], p, env), p, env);
  }

  lemma SetsPort(port: int, regs: Regs, p: Packet, env: Env)
    requires 1 <= port <= 65535
    ensures Run([Immediate(1, PortBytes(port))], regs, p, env) == Next(regs[1 := port])
  {
    var es := [Immediate(1, PortBytes(port))];
    assert es[1..] == [];
  }

  // ---- the list ----

  lemma {:induction false} RedirectedConcat(a: seq<Rule>, b: seq<Rule>, p: Packet, env: Env)
    ensures Redirected(a + b, p, env)
         == if Redirected(a, p, env).Some? then Redirected(a, p, env) else Redirected(b, p, env)
  {
    if a == [] {
      assert a + b == b;
    } else {
      assert (a + b)[1..] == a[1..] + b;
      RedirectedConcat(a[1..], b, p, env);
    }
  }

  lemma {:induction false} ServedConcat(a: seq<Redirect>, b: seq<Redirect>, p: Packet)
    ensures ServedAt(a + b, p) == if ServedAt(a, p).Some? then ServedAt(a, p) else ServedAt(b, p)
  {
    if a == [] {
      assert a + b == b;
    } else {
      assert (a + b)[1..] == a[1..] + b;
      ServedConcat(a[1..], b, p);
    }
  }

  lemma {:induction false} ListRedirects(ds: seq<Redirect>, p: Packet, env: Env)
    requires RealPorts(ds)
    ensures Redirected(Flat(ds, RedirectRule()), p, env) == ServedAt(ds, p)
  {
    if ds != [] {
      var front, d := ds[..|ds| - 1], ds[|ds| - 1];
      ListRedirects(front, p, env);
      assert ds == front + [d];
      ServedConcat(front, [d], p);
      RuleRedirects(d, p, env);
      var one := RedirectRule()(d);
      assert one == [one[0]] && one[1..] == [] && [d][1..] == [];
      RedirectedConcat(Flat(front, RedirectRule()), one, p, env);
    }
  }

  // ---- the chain ----

  /** No rule of this part of the table stands in the nat chain. */
  ghost predicate Apart(t: Table) { Select(t, Prerouting) == [] }

  lemma ApartIn(c: Chain, rules: seq<Rule>)
    requires c != Prerouting
    ensures Apart(In(c, rules))
  {
    SelectIn(c, rules, Prerouting);
  }

  lemma ApartBoth(a: Table, b: Table)
    requires Apart(a) && Apart(b)
    ensures Apart(a + b)
  {
    SelectConcat(a, b, Prerouting);
  }

  lemma TwoApart(c: Chain, a: seq<Rule>, d: Chain, b: seq<Rule>)
    requires c != Prerouting && d != Prerouting
    ensures Apart(In(c, a) + In(d, b))
  {
    ApartIn(c, a);
    ApartIn(d, b);
    ApartBoth(In(c, a), In(d, b));
  }

  lemma FloodsApart(o: Options, nflog: bool)
    ensures Apart(IcmpFlood(o, nflog)) && Apart(RstFlood(o, nflog)) && Apart(SynFlood(o, nflog))
  {
    TwoApart(IcmpFloodOver, OverRate(LogSpec(o.icmpLog, "easywall icmp-flood: ", nflog)),
             Input, RateLimited(Echoes, IcmpFloodMeter, IcmpFloodOver));
    TwoApart(TcpRstOver, OverRate(LogSpec(o.rstLog, "easywall tcp-rst: ", nflog)),
             Input, RateLimited(Resets, TcpRstMeter, TcpRstOver));
    TwoApart(SynFloodOver, OverRate(LogSpec(o.synLog, "easywall syn-flood: ", nflog)),
             Input, RateLimited(Syns, SynFloodMeter, SynFloodOver));
  }

  lemma FrontApart(c: Config, nflog: bool)
    ensures Apart(Front(c, nflog))
  {
    var a := In(Input, LOOPBACK + FamilyVerdict(Ipv6ModeOf(c.network)));
    var icmp, rst := IcmpFlood(c.firewall, nflog), RstFlood(c.firewall, nflog);
    var z := In(Input, ESTABLISHED + DiscoveryRules(c.network));
    ApartIn(Input, LOOPBACK + FamilyVerdict(Ipv6ModeOf(c.network)));
    ApartIn(Input, ESTABLISHED + DiscoveryRules(c.network));
    FloodsApart(c.firewall, nflog);
    ApartBoth(a, icmp);
    ApartBoth(a + icmp, rst);
    ApartBoth(a + icmp + rst, z);
  }

  lemma FirstApart(o: Options, nflog: bool)
    ensures Apart(FirstModules(o, nflog))
  {
    TwoApart(PortScan, OverRate(LogSpec(o.portScanLog, "easywall portscan: ", nflog)), Input, Flat(SCANS, ScanRule()));
    FloodsApart(o, nflog);
    ApartIn(Input, InvalidRules(o, nflog));
    ApartIn(Fragments, FragmentRules(o, nflog));
    ApartBoth(Scans(o, nflog), SynFlood(o, nflog));
    ApartBoth(Scans(o, nflog) + SynFlood(o, nflog), In(Input, InvalidRules(o, nflog)));
    ApartBoth(Scans(o, nflog) + SynFlood(o, nflog) + In(Input, InvalidRules(o, nflog)),
              In(Fragments, FragmentRules(o, nflog)));
  }

  lemma LastApart(r: Rules, o: Options, nets: seq<Entry>, nflog: bool)
    ensures Apart(LastModules(r, o, nets, nflog))
  {
    var over := OverRate(LogSpec(o.sshLog, "easywall ssh: ", nflog));
    TwoApart(Bogon, BogonChain(r, o, nets, nflog), Input, BOGON_JUMP);
    TwoApart(SshBruteOver, over, SshBrute, SSH_CHAIN);
    ApartIn(Input, Flat(MeteredPorts(r), SshRule()));
    ApartBoth(In(SshBruteOver, over) + In(SshBrute, SSH_CHAIN), In(Input, Flat(MeteredPorts(r), SshRule())));
    ApartIn(Input, PlainDrops(o));
    ApartBoth(Bogons(r, o, nets, nflog), Ssh(r, o, nflog));
    ApartBoth(Bogons(r, o, nets, nflog) + Ssh(r, o, nflog), In(Input, PlainDrops(o)));
  }

  lemma {:induction false} FeedsApart(ids: seq<FeedId>, o: Options, lists: bool, nflog: bool)
    ensures Apart(Feeds(ids, o, lists, nflog))
  {
    if ids != [] {
      var front, id := ids[..|ids| - 1], ids[|ids| - 1];
      var four, six := FeedPart(id, V4, o, lists, nflog), FeedPart(id, V6, o, lists, nflog);
      FeedsApart(front, o, lists, nflog);
      TwoApart(Input, FeedRules(id, V4, o, nflog), ForwardLists, if lists then ForwardFeedRules(id, V4) else []);
      TwoApart(Input, FeedRules(id, V6, o, nflog), ForwardLists, if lists then ForwardFeedRules(id, V6) else []);
      ApartBoth(Feeds(front, o, lists, nflog), four);
      ApartBoth(Feeds(front, o, lists, nflog) + four, six);
    }
  }

  lemma ForwardApart(r: Rules, n: NetworkSettings, nets: seq<Entry>)
    ensures Apart(ForwardPart(r, n, nets))
  {
    if ForwardRenders(n, nets) {
      var rest := ForwardPorts(r, n, nets) + Flat(MayCross(n, nets), Crossing());
      var lists := if ListsRender(r) then In(ForwardLists, ListsChain(r, nets)) + In(Forward, ListsJump(n, nets))
                   else [];
      ApartIn(Forward, ESTABLISHED);
      TwoApart(ForwardLists, ListsChain(r, nets), Forward, ListsJump(n, nets));
      ApartIn(Forward, rest);
      ApartBoth(In(Forward, ESTABLISHED), lists);
      ApartBoth(In(Forward, ESTABLISHED) + lists, In(Forward, rest));
    }
  }

  lemma PortsHoldThem(r: Rules, c: Config)
    ensures Select(Ports(r, c), Prerouting) == Flat(r.forwarding, RedirectRule())
  {
    var input := EchoRules(c.firewall, c.network) + Flat(r.tcp, HostPort(L4.Tcp)) + Flat(r.udp, HostPort(L4.Udp));
    SelectIn(Input, input, Prerouting);
    SelectIn(Prerouting, Flat(r.forwarding, RedirectRule()), Prerouting);
    SelectConcat(In(Input, input), In(Prerouting, Flat(r.forwarding, RedirectRule())), Prerouting);
  }

  lemma BeforeThePorts(r: Rules, c: Config, nets: seq<Entry>, lists: bool, nflog: bool)
    ensures Apart(Front(c, nflog) + ForwardPart(r, c.network, nets)
                  + FirstModules(c.firewall, nflog) + LastModules(r, c.firewall, nets, nflog)
                  + In(Input, ListRules(r, c.firewall, nets, nflog))
                  + Feeds(FeedRuleOrder(r.feeds), c.firewall, lists, nflog))
  {
    var o := c.firewall;
    var a, b, d := Front(c, nflog), ForwardPart(r, c.network, nets), FirstModules(o, nflog);
    var e, f, g := LastModules(r, o, nets, nflog), In(Input, ListRules(r, o, nets, nflog)),
                   Feeds(FeedRuleOrder(r.feeds), o, lists, nflog);
    FrontApart(c, nflog);
    ForwardApart(r, c.network, nets);
    FirstApart(o, nflog);
    LastApart(r, o, nets, nflog);
    ApartIn(Input, ListRules(r, o, nets, nflog));
    FeedsApart(FeedRuleOrder(r.feeds), o, lists, nflog);
    SixApart(a, b, d, e, f, g);
  }

  lemma SixApart(a: Table, b: Table, c: Table, d: Table, e: Table, f: Table)
    requires Apart(a) && Apart(b) && Apart(c) && Apart(d) && Apart(e) && Apart(f)
    ensures Apart(a + b + c + d + e + f)
  {
    ApartBoth(a, b);
    ApartBoth(a + b, c);
    ApartBoth(a + b + c, d);
    ApartBoth(a + b + c + d, e);
    ApartBoth(a + b + c + d + e, f);
  }

  lemma NatChainIs(r: Rules, c: Config, bridges: seq<Entry>, nflog: bool)
    ensures Select(Compiled(r, c, bridges, nflog), Prerouting) == Flat(r.forwarding, RedirectRule())
  {
    var nets, o := ContainerNetworks(c.network, bridges), c.firewall;
    var lists := HasLists(r, c.network, nets);
    var before := Front(c, nflog) + ForwardPart(r, c.network, nets)
                  + FirstModules(o, nflog) + LastModules(r, o, nets, nflog)
                  + In(Input, ListRules(r, o, nets, nflog)) + Feeds(FeedRuleOrder(r.feeds), o, lists, nflog);
    var last := Flat(r.custom, CustomRule()) + FinalLog(o, nflog);
    BeforeThePorts(r, c, nets, lists, nflog);
    PortsHoldThem(r, c);
    ApartIn(Input, last);
    Around(before, Ports(r, c), In(Input, last));
  }

  lemma Around(a: Table, b: Table, c: Table)
    requires Apart(a) && Apart(c)
    ensures Select(a + b + c, Prerouting) == Select(b, Prerouting)
  {
    SelectConcat(a, b, Prerouting);
    SelectConcat(a + b, c, Prerouting);
  }

  /**
   The nat hook sends a packet to the port of the first redirect that asks for it, and leaves every other packet alone:
   only packets for this host, of the redirect's protocol and to its incoming port.
   */
  lemma RedirectsMean(r: Rules, c: Config, bridges: seq<Entry>, nflog: bool, p: Packet, env: Env)
    requires RealPorts(r.forwarding)
    ensures Redirected(Select(Compiled(r, c, bridges, nflog), Prerouting), p, env) == ServedAt(r.forwarding, p)
  {
    NatChainIs(r, c, bridges, nflog);
    ListRedirects(r.forwarding, p, env);
  }
}
