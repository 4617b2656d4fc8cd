/** The compiled table taken apart: which part of it fills which chain. */
module Layout {
  import opened Addresses
  import opened Models
  import opened Netfilter
  import opened Compiler
  import opened Stages
  import opened InputProof

  // ---- where each part stays ----

  lemma FrontStays(c: Config, nflog: bool)
    ensures Stays(Front(c, nflog), {Input, IcmpFloodOver, TcpRstOver})
  {
  }

  lemma ForwardStays(r: Rules, n: NetworkSettings, nets: seq<Entry>)
    ensures Stays(ForwardPart(r, n, nets), {Forward, ForwardLists})
  {
  }

  lemma FirstStays(o: Options, nflog: bool)
    ensures Stays(FirstModules(o, nflog), {Input, PortScan, SynFloodOver, Fragments})
  {
    ScansStay(o, nflog);
    assert Stays(SynFlood(o, nflog), {Input, SynFloodOver});
    assert Stays(In(Input, InvalidRules(o, nflog)), {Input});
    assert Stays(In(Fragments, FragmentRules(o, nflog)), {Fragments});
  }

  lemma ScansStay(o: Options, nflog: bool)
    ensures Stays(Scans(o, nflog), {Input, PortScan})
  {
  }

  lemma LastStays(r: Rules, o: Options, nets: seq<Entry>, nflog: bool)
    ensures Stays(LastModules(r, o, nets, nflog), {Input, Bogon, SshBrute, SshBruteOver})
  {
    SshStays(r, o, nflog);
    assert Stays(Bogons(r, o, nets, nflog), {Input, Bogon});
  }

  lemma SshStays(r: Rules, o: Options, nflog: bool)
    ensures Stays(Ssh(r, o, nflog), {Input, SshBrute, SshBruteOver})
  {
  }

  lemma {:induction false} FeedsStay(ids: seq<FeedId>, o: Options, lists: bool, nflog: bool)
    ensures Stays(Feeds(ids, o, lists, nflog), {Input, ForwardLists})
  {
    if ids != [] {
      FeedsStay(ids[..|ids| - 1], o, lists, nflog);
    }
  }

  lemma PortsStay(r: Rules, c: Config)
    ensures Stays(Ports(r, c), {Input, Prerouting})
  {
  }

  // ---- ... and where it therefore does nothing ----

  lemma FrontAbsent(t: Table, c: Config, nflog: bool, at: Chain, d: nat, p: Packet, env: Env)
    requires at != Input && at != IcmpFloodOver && at != TcpRstOver
    ensures PartFate(t, Front(c, nflog), at, d, p, env) == Fell
  {
    FrontStays(c, nflog);
    Absent(t, Front(c, nflog), {Input, IcmpFloodOver, TcpRstOver}, at, d, p, env);
  }

  lemma ForwardAbsent(t: Table, r: Rules, n: NetworkSettings, nets: seq<Entry>, at: Chain, d: nat, p: Packet, env: Env)
    requires at != Forward && at != ForwardLists
    ensures PartFate(t, ForwardPart(r, n, nets), at, d, p, env) == Fell
  {
    ForwardStays(r, n, nets);
    Absent(t, ForwardPart(r, n, nets), {Forward, ForwardLists}, at, d, p, env);
  }

  lemma FirstAbsent(t: Table, o: Options, nflog: bool, at: Chain, d: nat, p: Packet, env: Env)
    requires at != Input && at != PortScan && at != SynFloodOver && at != Fragments
    ensures PartFate(t, FirstModules(o, nflog), at, d, p, env) == Fell
  {
    FirstStays(o, nflog);
    Absent(t, FirstModules(o, nflog), {Input, PortScan, SynFloodOver, Fragments}, at, d, p, env);
  }

  lemma LastAbsent(t: Table, r: Rules, o: Options, nets: seq<Entry>, nflog: bool, at: Chain, d: nat, p: Packet,
                   env: Env)
    requires at != Input && at != Bogon && at != SshBrute && at != SshBruteOver
    ensures PartFate(t, LastModules(r, o, nets, nflog), at, d, p, env) == Fell
  {
    LastStays(r, o, nets, nflog);
    Absent(t, LastModules(r, o, nets, nflog), {Input, Bogon, SshBrute, SshBruteOver}, at, d, p, env);
  }

  lemma FeedsAbsent(t: Table, ids: seq<FeedId>, o: Options, lists: bool, nflog: bool, at: Chain,
                    d: nat, p: Packet, env: Env)
    requires at != Input && at != ForwardLists
    ensures PartFate(t, Feeds(ids, o, lists, nflog), at, d, p, env) == Fell
  {
    FeedsStay(ids, o, lists, nflog);
    Absent(t, Feeds(ids, o, lists, nflog), {Input, ForwardLists}, at, d, p, env);
  }

  lemma PortsAbsent(t: Table, r: Rules, c: Config, at: Chain, d: nat, p: Packet, env: Env)
    requires at != Input && at != Prerouting
    ensures PartFate(t, Ports(r, c), at, d, p, env) == Fell
  {
    PortsStay(r, c);
    Absent(t, Ports(r, c), {Input, Prerouting}, at, d, p, env);
  }

  // ---- taking the table apart ----

  lemma CompiledSplits(r: Rules, c: Config, bridges: seq<Entry>, nflog: bool, at: Chain, d: nat, p: Packet, env: Env)
    ensures var t, nets, o := Compiled(r, c, bridges, nflog), ContainerNetworks(c.network, bridges), c.firewall;
            PartFate(t, t, at, d, p, env)
            == Else(PartFate(t, Front(c, nflog), at, d, p, env),
               Else(PartFate(t, ForwardPart(r, c.network, nets), at, d, p, env),
               Else(PartFate(t, FirstModules(o, nflog), at, d, p, env),
               Else(PartFate(t, LastModules(r, o, nets, nflog), at, d, p, env),
               Else(PartFate(t, In(Input, ListRules(r, o, nets, nflog)), at, d, p, env),
               Else(PartFate(t, Feeds(FeedRuleOrder(r.feeds), o, HasLists(r, c.network, nets), nflog), at, d, p, env),
               Else(PartFate(t, Ports(r, c), at, d, p, env),
                    PartFate(t, In(Input, Flat(r.custom, CustomRule()) + FinalLog(o, nflog)), at, d, p, env))))))))
  {
    var t, nets, o := Compiled(r, c, bridges, nflog), ContainerNetworks(c.network, bridges), c.firewall;
    var a, b := Front(c, nflog), ForwardPart(r, c.network, nets);
    var m, n := FirstModules(o, nflog), LastModules(r, o, nets, nflog);
    var l := In(Input, ListRules(r, o, nets, nflog));
    var f := Feeds(FeedRuleOrder(r.feeds), o, HasLists(r, c.network, nets), nflog);
    var q, z := Ports(r, c), In(Input, Flat(r.custom, CustomRule()) + FinalLog(o, nflog));
    PartConcat(t, a, b, at, d, p, env);
    PartConcat(t, a + b, m, at, d, p, env);
    PartConcat(t, a + b + m, n, at, d, p, env);
    PartConcat(t, a + b + m + n, l, at, d, p, env);
    PartConcat(t, a + b + m + n + l, f, at, d, p, env);
    PartConcat(t, a + b + m + n + l + f, q, at, d, p, env);
    PartConcat(t, a + b + m + n + l + f + q, z, at, d, p, env);
  }

  /** A module's own chain is filled by that module alone. */
  lemma ModuleChain(r: Rules, c: Config, bridges: seq<Entry>, nflog: bool, at: Chain, d: nat, p: Packet, env: Env)
    requires at != Input && at != Forward && at != ForwardLists && at != Prerouting
    ensures var t, nets, o := Compiled(r, c, bridges, nflog), ContainerNetworks(c.network, bridges), c.firewall;
            PartFate(t, t, at, d, p, env)
            == Else(PartFate(t, Front(c, nflog), at, d, p, env),
               Else(PartFate(t, FirstModules(o, nflog), at, d, p, env),
                    PartFate(t, LastModules(r, o, nets, nflog), at, d, p, env)))
  {
    var t, nets, o := Compiled(r, c, bridges, nflog), ContainerNetworks(c.network, bridges), c.firewall;
    var feeds, lists := FeedRuleOrder(r.feeds), HasLists(r, c.network, nets);
    CompiledSplits(r, c, bridges, nflog, at, d, p, env);
    ForwardAbsent(t, r, c.network, nets, at, d, p, env);
    FeedsAbsent(t, feeds, o, lists, nflog, at, d, p, env);
    PortsAbsent(t, r, c, at, d, p, env);
    PartIn(t, Input, ListRules(r, o, nets, nflog), at, d, p, env);
    PartIn(t, Input, Flat(r.custom, CustomRule()) + FinalLog(o, nflog), at, d, p, env);
  }

  lemma OwnChain(t: Table, c: Chain, chain: seq<Rule>, input: seq<Rule>, d: nat, p: Packet, env: Env)
    requires c != Input
    ensures PartFate(t, In(c, chain) + In(Input, input), c, d, p, env) == Walk(t, chain, d, p, env)
  {
    PartConcat(t, In(c, chain), In(Input, input), c, d, p, env);
    PartIn(t, c, chain, c, d, p, env);
    PartIn(t, Input, input, c, d, p, env);
  }

  lemma FrontChains(t: Table, c: Config, nflog: bool, d: nat, p: Packet, env: Env)
    ensures c.firewall.icmpFlood ==> PartFate(t, Front(c, nflog), IcmpFloodOver, d, p, env) == Dropped
    ensures c.firewall.rstFlood ==> PartFate(t, Front(c, nflog), TcpRstOver, d, p, env) == Dropped
  {
    var o := c.firewall;
    var first := In(Input, LOOPBACK + FamilyVerdict(Ipv6ModeOf(c.network)));
    var last := In(Input, ESTABLISHED + DiscoveryRules(c.network));
    var icmp, rst := IcmpFlood(o, nflog), RstFlood(o, nflog);
    var l1, l2 := LogSpec(o.icmpLog, "easywall icmp-flood: ", nflog), LogSpec(o.rstLog, "easywall tcp-rst: ", nflog);
    forall at | at == IcmpFloodOver || at == TcpRstOver
      ensures PartFate(t, Front(c, nflog), at, d, p, env)
              == Else(PartFate(t, icmp, at, d, p, env), PartFate(t, rst, at, d, p, env))
    {
      PartConcat(t, first, icmp, at, d, p, env);
      PartConcat(t, first + icmp, rst, at, d, p, env);
      PartConcat(t, first + icmp + rst, last, at, d, p, env);
      PartIn(t, Input, LOOPBACK + FamilyVerdict(Ipv6ModeOf(c.network)), at, d, p, env);
      PartIn(t, Input, ESTABLISHED + DiscoveryRules(c.network), at, d, p, env);
    }
    if o.icmpFlood {
      OwnChain(t, IcmpFloodOver, OverRate(l1), RateLimited(Echoes, IcmpFloodMeter, IcmpFloodOver), d, p, env);
      OverRateDrops(t, l1, d, p, env);
    }
    if o.rstFlood {
      OwnChain(t, TcpRstOver, OverRate(l2), RateLimited(Resets, TcpRstMeter, TcpRstOver), d, p, env);
      OverRateDrops(t, l2, d, p, env);
      assert Stays(icmp, {Input, IcmpFloodOver});
      Absent(t, icmp, {Input, IcmpFloodOver}, TcpRstOver, d, p, env);
    }
  }

  lemma FirstChains(t: Table, o: Options, nflog: bool, d: nat, p: Packet, env: Env)
    ensures o.portScan ==> PartFate(t, FirstModules(o, nflog), PortScan, d, p, env) == Dropped
    ensures o.synFlood ==> PartFate(t, FirstModules(o, nflog), SynFloodOver, d, p, env) == Dropped
    ensures PartFate(t, FirstModules(o, nflog), Fragments, d, p, env) == Walk(t, FragmentRules(o, nflog), d, p, env)
  {
    var scans, syns, inv, frag := Scans(o, nflog), SynFlood(o, nflog), InvalidRules(o, nflog), FragmentRules(o, nflog);
    var l1 := LogSpec(o.portScanLog, "easywall portscan: ", nflog);
    var l2 := LogSpec(o.synLog, "easywall syn-flood: ", nflog);
    forall at: Chain ensures PartFate(t, FirstModules(o, nflog), at, d, p, env)
      == Else(PartFate(t, scans, at, d, p, env), Else(PartFate(t, syns, at, d, p, env),
         Else(PartFate(t, In(Input, inv), at, d, p, env), PartFate(t, In(Fragments, frag), at, d, p, env))))
    {
      PartConcat(t, scans, syns, at, d, p, env);
      PartConcat(t, scans + syns, In(Input, inv), at, d, p, env);
      PartConcat(t, scans + syns + In(Input, inv), In(Fragments, frag), at, d, p, env);
    }
    assert Stays(scans, {Input, PortScan}) && Stays(syns, {Input, SynFloodOver});
    Absent(t, scans, {Input, PortScan}, SynFloodOver, d, p, env);
    Absent(t, scans, {Input, PortScan}, Fragments, d, p, env);
    Absent(t, syns, {Input, SynFloodOver}, Fragments, d, p, env);
    PartIn(t, Input, inv, Fragments, d, p, env);
    PartIn(t, Fragments, frag, Fragments, d, p, env);
    if o.portScan {
      OwnChain(t, PortScan, OverRate(l1), Flat(SCANS, ScanRule()), d, p, env);
      OverRateDrops(t, l1, d, p, env);
    }
    if o.synFlood {
      OwnChain(t, SynFloodOver, OverRate(l2), RateLimited(Syns, SynFloodMeter, SynFloodOver), d, p, env);
      OverRateDrops(t, l2, d, p, env);
    }
  }

  lemma SshAbsent(t: Table, r: Rules, o: Options, nflog: bool, at: Chain, d: nat, p: Packet, env: Env)
    requires at != Input && at != SshBrute && at != SshBruteOver
    ensures PartFate(t, Ssh(r, o, nflog), at, d, p, env) == Fell
  {
    SshStays(r, o, nflog);
    Absent(t, Ssh(r, o, nflog), {Input, SshBrute, SshBruteOver}, at, d, p, env);
  }

  lemma BogonsAbsent(t: Table, r: Rules, o: Options, nets: seq<Entry>, nflog: bool, at: Chain, d: nat, p: Packet,
                     env: Env)
    requires at != Input && at != Bogon
    ensures PartFate(t, Bogons(r, o, nets, nflog), at, d, p, env) == Fell
  {
    assert Stays(Bogons(r, o, nets, nflog), {Input, Bogon});
    Absent(t, Bogons(r, o, nets, nflog), {Input, Bogon}, at, d, p, env);
  }

  lemma LastChains(t: Table, r: Rules, o: Options, nets: seq<Entry>, nflog: bool, d: nat, p: Packet, env: Env)
    ensures o.bogons ==>
              PartFate(t, LastModules(r, o, nets, nflog), Bogon, d, p, env)
              == Walk(t, BogonChain(r, o, nets, nflog), d, p, env)
    ensures o.sshBruteForce ==>
              && PartFate(t, LastModules(r, o, nets, nflog), SshBruteOver, d, p, env) == Dropped
              && PartFate(t, LastModules(r, o, nets, nflog), SshBrute, d, p, env) == Walk(t, SSH_CHAIN, d, p, env)
  {
    var bogons, ssh, plain := Bogons(r, o, nets, nflog), Ssh(r, o, nflog), PlainDrops(o);
    forall at | at != Input ensures PartFate(t, LastModules(r, o, nets, nflog), at, d, p, env)
      == Else(PartFate(t, bogons, at, d, p, env), PartFate(t, ssh, at, d, p, env))
    {
      PartConcat(t, bogons, ssh, at, d, p, env);
      PartConcat(t, bogons + ssh, In(Input, plain), at, d, p, env);
      PartIn(t, Input, plain, at, d, p, env);
    }
    SshAbsent(t, r, o, nflog, Bogon, d, p, env);
    if o.bogons {
      OwnChain(t, Bogon, BogonChain(r, o, nets, nflog), BOGON_JUMP, d, p, env);
    }
    BogonsAbsent(t, r, o, nets, nflog, SshBrute, d, p, env);
    BogonsAbsent(t, r, o, nets, nflog, SshBruteOver, d, p, env);
    if o.sshBruteForce {
      SshOwnChains(t, r, o, nflog, d, p, env);
    }
  }

  lemma SshOwnChains(t: Table, r: Rules, o: Options, nflog: bool, d: nat, p: Packet, env: Env)
    requires o.sshBruteForce
    ensures PartFate(t, Ssh(r, o, nflog), SshBruteOver, d, p, env) == Dropped
    ensures PartFate(t, Ssh(r, o, nflog), SshBrute, d, p, env) == Walk(t, SSH_CHAIN, d, p, env)
  {
    var lg, input := LogSpec(o.sshLog, "easywall ssh: ", nflog), Flat(MeteredPorts(r), SshRule());
    forall at | at == SshBrute || at == SshBruteOver
      ensures PartFate(t, Ssh(r, o, nflog), at, d, p, env)
              == Walk(t, if at == SshBrute then SSH_CHAIN else OverRate(lg), d, p, env)
    {
      PartConcat(t, In(SshBruteOver, OverRate(lg)), In(SshBrute, SSH_CHAIN), at, d, p, env);
      PartConcat(t, In(SshBruteOver, OverRate(lg)) + In(SshBrute, SSH_CHAIN), In(Input, input), at, d, p, env);
      PartIn(t, SshBruteOver, OverRate(lg), at, d, p, env);
      PartIn(t, SshBrute, SSH_CHAIN, at, d, p, env);
      PartIn(t, Input, input, at, d, p, env);
    }
    OverRateDrops(t, lg, d, p, env);
  }

  // ---- the feeds, in both chains ----

  lemma SelectPair(c: Chain, a: seq<Rule>, d: Chain, b: seq<Rule>, at: Chain)
    requires c != d
    ensures Select(In(c, a) + In(d, b), at) == if at == c then a else if at == d then b else []
  {
    SelectConcat(In(c, a), In(d, b), at);
    SelectIn(c, a, at);
    SelectIn(d, b, at);
  }

  function FeedForward(): FeedId -> seq<Rule> {
    (id: FeedId) => ForwardFeedRules(id, V4) + ForwardFeedRules(id, V6)
  }

  lemma SelectFeedPart(id: FeedId, o: Options, lists: bool, nflog: bool, at: Chain)
    ensures Select(FeedPart(id, V4, o, lists, nflog) + FeedPart(id, V6, o, lists, nflog), at)
            == if at == Input then FeedInput(o, nflog)(id)
               else if at == ForwardLists && lists then FeedForward()(id)
               else []
  {
    var four, six := FeedPart(id, V4, o, lists, nflog), FeedPart(id, V6, o, lists, nflog);
    SelectPair(Input, FeedRules(id, V4, o, nflog), ForwardLists, if lists then ForwardFeedRules(id, V4) else [], at);
    SelectPair(Input, FeedRules(id, V6, o, nflog), ForwardLists, if lists then ForwardFeedRules(id, V6) else [], at);
    SelectConcat(four, six, at);
  }

  lemma SelectOneFeed(ids: seq<FeedId>, o: Options, lists: bool, nflog: bool, at: Chain)
    requires ids != []
    ensures var front, id := ids[..|ids| - 1], ids[|ids| - 1];
            Select(Feeds(ids, o, lists, nflog), at)
            == Select(Feeds(front, o, lists, nflog), at)
               + Select(FeedPart(id, V4, o, lists, nflog) + FeedPart(id, V6, o, lists, nflog), at)
  {
    var front, id := ids[..|ids| - 1], ids[|ids| - 1];
    var four, six := FeedPart(id, V4, o, lists, nflog), FeedPart(id, V6, o, lists, nflog);
    assert Feeds(ids, o, lists, nflog) == Feeds(front, o, lists, nflog) + (four + six);
    SelectConcat(Feeds(front, o, lists, nflog), four + six, at);
  }

  lemma {:induction false} SelectFeedsInput(ids: seq<FeedId>, o: Options, lists: bool, nflog: bool)
    ensures Select(Feeds(ids, o, lists, nflog), Input) == Flat(ids, FeedInput(o, nflog))
  {
    if ids != [] {
      SelectFeedsInput(ids[..|ids| - 1], o, lists, nflog);
      SelectOneFeed(ids, o, lists, nflog, Input);
      SelectFeedPart(ids[|ids| - 1], o, lists, nflog, Input);
    }
  }

  lemma {:induction false} SelectFeedsForward(ids: seq<FeedId>, o: Options, nflog: bool)
    ensures Select(Feeds(ids, o, true, nflog), ForwardLists) == Flat(ids, FeedForward())
  {
    if ids != [] {
      SelectFeedsForward(ids[..|ids| - 1], o, nflog);
      SelectOneFeed(ids, o, true, nflog, ForwardLists);
      SelectFeedPart(ids[|ids| - 1], o, true, nflog, ForwardLists);
    }
  }
}
