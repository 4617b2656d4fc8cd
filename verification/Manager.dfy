/** The builders as they run: rules appended to one transaction, in order. */
module NftablesManager {
  import opened Addresses
  import opened Models
  import opened Netfilter
  import opened Matches
  import opened Compiler
  import BogonRanges
  import RuleCheck
  import BuilderCheck

  /** Two stretches of one chain are one stretch. */
  lemma Append(x: Table, c: Chain, a: seq<Rule>, b: seq<Rule>)
    ensures x + In(c, a) + In(c, b) == x + In(c, a + b)
  {
  }

  lemma Assoc(x: Table, a: Table, b: Table)
    ensures x + a + b == x + (a + b)
  {
  }

  lemma FeedsStep(x: Table, ids: seq<FeedId>, i: nat, o: Options, fwdLists: bool, nflog: bool)
    requires i < |ids|
    ensures x + Feeds(ids[..i], o, fwdLists, nflog)
                  + FeedPart(ids[i], V4, o, fwdLists, nflog) + FeedPart(ids[i], V6, o, fwdLists, nflog)
         == x + Feeds(ids[..i + 1], o, fwdLists, nflog)
  {
    var before := Feeds(ids[..i], o, fwdLists, nflog);
    var four, six := FeedPart(ids[i], V4, o, fwdLists, nflog), FeedPart(ids[i], V6, o, fwdLists, nflog);
    Assoc(x, before, four);
    Assoc(x, before + four, six);
    assert ids[..i + 1][..i] == ids[..i];
  }

  /** One more item of a list, whether or not it has rules. */
  lemma FlatStep<T>(x: Table, c: Chain, items: seq<T>, i: nat, rules: T -> seq<Rule>)
    requires i < |items|
    ensures x + In(c, Flat(items[..i], rules)) + In(c, rules(items[i])) == x + In(c, Flat(items[..i + 1], rules))
    ensures rules(items[i]) == [] ==> Flat(items[..i + 1], rules) == Flat(items[..i], rules)
  {
    assert items[..i + 1][..i] == items[..i];
    Append(x, c, Flat(items[..i], rules), rules(items[i]));
  }

  lemma RateLimitedAt(w: Watch, m: Meter, target: Chain, i: nat)
    requires i < 2
    ensures var rules := RateLimited(w, m, target);
            rules[..i + 1] == rules[..i] + [RateRule(w, m, target, [V4, V6][i])]
  {
    var rules := RateLimited(w, m, target);
    assert rules[i] == RateRule(w, m, target, if i == 0 then V4 else V6);
    assert rules[..i + 1] == rules[..i] + [rules[i]];
  }

  lemma BuiltIs(r: Rules, c: Config, bridges: seq<Entry>, nflog: bool)
    ensures var nets := ContainerNetworks(c.network, bridges);
            Built(r, c, bridges, nflog)
            == Front(c, nflog) + ForwardPart(r, c.network, nets) + FirstModules(c.firewall, nflog)
               + LastModules(r, c.firewall, nets, nflog) + In(Input, ListRules(r, c.firewall, nets, nflog))
               + Feeds(FeedRuleOrder(r.feeds), c.firewall, HasLists(r, c.network, nets), nflog) + Ports(r, c)
  {
  }

  /** The core's own list of bogon ranges is what every table is built from. */
  function CoreConfig(c: Config): Config { c.(firewall := c.firewall.(bogonRanges := BogonRanges.Ranges())) }

  /** With the ranges the core filters, no configuration needs a further assumption to pass the check. */
  lemma CoreTablesAreClean(r: Rules, c: Config, bridges: seq<Entry>, nflog: bool)
    requires c.firewall.bogonRanges == BogonRanges.Ranges()
    ensures RuleCheck.Clean(Built(r, c, bridges, nflog), {})
  {
    assert Reads(V4Sources, c.firewall.bogonRanges[0]);
    BuilderCheck.BuilderPassesItsOwnCheck(r, c, bridges, nflog);
  }

  class Manager {
    var built: Table
    var fwdLists: bool
    var nflog: bool

    constructor (sink: bool)
      ensures built == [] && !fwdLists && nflog == sink
    {
      built, fwdLists, nflog := [], false, sink;
    }

    method AddRule(c: Chain, r: Rule)
      modifies this`built
      ensures built == old(built) + In(c, [r])
    {
      built := built + [Placed(c, r)];
    }

    method AddLogged(c: Chain, m: Rule, lg: LogSpec, tail: Rule)
      modifies this`built
      ensures built == old(built) + In(c, Logged(m, lg, tail))
    {
      if lg.on {
        AddRule(c, m + LogExprs(lg.prefix, lg.nflog));
      }
      AddRule(c, m + tail);
    }

    method AddOverRateChain(c: Chain, lg: LogSpec)
      modifies this`built
      ensures built == old(built) + In(c, OverRate(lg))
    {
      if lg.on {
        AddRule(c, LogExprs(lg.prefix, lg.nflog));
      }
      AddRule(c, [Verdict(Drop)]);
    }

    /** One rule per family: the address key differs. */
    method AddPerSourceRateLimit(c: Chain, w: Watch, m: Meter, target: Chain)
      modifies this`built
      ensures built == old(built) + In(c, RateLimited(w, m, target))
    {
      var families := [V4, V6];
      for i := 0 to |families|
        invariant built == old(built) + In(c, RateLimited(w, m, target)[..i])
      {
        AddRule(c, RateRule(w, m, target, families[i]));
        Append(old(built), c, RateLimited(w, m, target)[..i], [RateRule(w, m, target, families[i])]);
        RateLimitedAt(w, m, target, i);
      }
      assert RateLimited(w, m, target)[..2] == RateLimited(w, m, target);
    }

    /** The loop every address list is written with. */
    method AddEntries(c: Chain, es: seq<Entry>, r: Reader, lg: LogSpec, tail: Rule)
      modifies this`built
      ensures built == old(built) + In(c, Flat(es, PerEntry(r, lg, tail)))
    {
      for i := 0 to |es|
        invariant built == old(built) + In(c, Flat(es[..i], PerEntry(r, lg, tail)))
      {
        FlatStep(old(built), c, es, i, PerEntry(r, lg, tail));
        var m := MatchOf(r, es[i]);
        if m.Some? {
          AddLogged(c, m.value, lg, tail);
        }
      }
      assert es[..|es|] == es;
    }

    /** Several rules in one go, as portAcceptRules' and the type accepts' callers add them. */
    method AddAll(c: Chain, rules: seq<Rule>)
      modifies this`built
      ensures built == old(built) + In(c, rules)
    {
      for i := 0 to |rules|
        invariant built == old(built) + In(c, rules[..i])
      {
        AddRule(c, rules[i]);
        Append(old(built), c, rules[..i], [rules[i]]);
        assert rules[..i + 1] == rules[..i] + [rules[i]];
      }
      assert rules[..|rules|] == rules;
    }

    method AddSourceReturns(l: L4, r: PortRule)
      modifies this`built
      ensures built == old(built) + In(Bogon, Flat(r.sources, SourceReturn(l, r.port)))
    {
      for i := 0 to |r.sources|
        invariant built == old(built) + In(Bogon, Flat(r.sources[..i], SourceReturn(l, r.port)))
      {
        FlatStep(old(built), Bogon, r.sources, i, SourceReturn(l, r.port));
        var m := MatchOf(V4Sources, r.sources[i]);
        if m.Some? {
          AddRule(Bogon, m.value + L4Is(Models.Protocol(l)) + PortIs(r.port) + [Verdict(Return)]);
        }
      }
      assert r.sources[..|r.sources|] == r.sources;
    }

    method AddRuleReturns(l: L4, rules: seq<PortRule>)
      modifies this`built
      ensures built == old(built) + In(Bogon, Flat(rules, RuleReturns(l)))
    {
      for i := 0 to |rules|
        invariant built == old(built) + In(Bogon, Flat(rules[..i], RuleReturns(l)))
      {
        FlatStep(old(built), Bogon, rules, i, RuleReturns(l));
        if rules[i].FiltersHost() {
          AddSourceReturns(l, rules[i]);
        }
      }
      assert rules[..|rules|] == rules;
    }

    method AddBogonFilter(r: Rules, o: Options, nets: seq<Entry>)
      modifies this`built
      ensures built == old(built) + (In(Bogon, BogonChain(r, o, nets, nflog)) + In(Input, BOGON_JUMP))
    {
      var lg := LogSpec(o.bogonsLog, "easywall bogon: ", nflog);
      ghost var a := Flat(r.allowlist + nets, PerEntry(V4Sources, SILENT, [Verdict(Return)]));
      ghost var b, c := Flat(r.tcp, RuleReturns(L4.Tcp)), Flat(r.udp, RuleReturns(L4.Udp));
      ghost var d := Flat(o.bogonRanges, PerEntry(V4Sources, lg, [Verdict(Drop)]));
      AddEntries(Bogon, r.allowlist + nets, V4Sources, SILENT, [Verdict(Return)]);
      AddRuleReturns(L4.Tcp, r.tcp);
      AddRuleReturns(L4.Udp, r.udp);
      AddEntries(Bogon, o.bogonRanges, V4Sources, lg, [Verdict(Drop)]);
      Append(old(built), Bogon, a, b);
      Append(old(built), Bogon, a + b, c);
      Append(old(built), Bogon, a + b + c, d);
      Assoc(old(built), In(Bogon, BogonChain(r, o, nets, nflog)), In(Input, BOGON_JUMP));
      AddRule(Input, FamilyIs(V4) + Interface(Neq) + [Verdict(Jump(Bogon))]);
    }

    /** sshMeteredPorts. */
    method MeterPorts(rules: seq<PortRule>) returns (ports: seq<PortSpec>)
      ensures ports == if FlaggedPorts(rules) == [] then [Single(22)] else FlaggedPorts(rules)
    {
      ports := [];
      for i := 0 to |rules|
        invariant ports == FlaggedPorts(rules[..i])
      {
        assert rules[..i + 1][..i] == rules[..i];
        if rules[i].ssh && rules[i].FiltersHost() {
          ports := ports + [rules[i].port];
        }
      }
      assert rules[..|rules|] == rules;
      if ports == [] {
        ports := [Single(22)];
      }
    }

    method AddSshJumps(ports: seq<PortSpec>)
      modifies this`built
      ensures built == old(built) + In(Input, Flat(ports, SshRule()))
    {
      for i := 0 to |ports|
        invariant built == old(built) + In(Input, Flat(ports[..i], SshRule()))
      {
        FlatStep(old(built), Input, ports, i, SshRule());
        AddRule(Input, L4Is(TCP) + PortIs(ports[i]) + CtAny(0x08) + [Verdict(Jump(SshBrute))]);
      }
      assert ports[..|ports|] == ports;
    }

    method AddSshBruteForce(r: Rules, o: Options)
      requires o.sshBruteForce
      modifies this`built
      ensures built == old(built) + Ssh(r, o, nflog)
    {
      var ports := MeterPorts(r.tcp);
      var lg := LogSpec(o.sshLog, "easywall ssh: ", nflog);
      ghost var over := In(SshBruteOver, OverRate(lg));
      AddOverRateChain(SshBruteOver, lg);
      AddPerSourceRateLimit(SshBrute, Anything, SshBruteMeter, SshBruteOver);
      AddRule(SshBrute, [Verdict(Return)]);
      Append(old(built) + over, SshBrute, RateLimited(Anything, SshBruteMeter, SshBruteOver), [[Verdict(Return)]]);
      AddSshJumps(ports);
      Assoc(old(built), over, In(SshBrute, SSH_CHAIN));
      Assoc(old(built), over + In(SshBrute, SSH_CHAIN), In(Input, Flat(ports, SshRule())));
    }

    method AddScans()
      modifies this`built
      ensures built == old(built) + In(Input, Flat(SCANS, ScanRule()))
    {
      for i := 0 to |SCANS|
        invariant built == old(built) + In(Input, Flat(SCANS[..i], ScanRule()))
      {
        FlatStep(old(built), Input, SCANS, i, ScanRule());
        AddRule(Input, L4Is(TCP) + FlagsAre(SCANS[i].0, SCANS[i].1) + [Verdict(Jump(PortScan))]);
      }
      assert SCANS[..|SCANS|] == SCANS;
    }

    /** Everything between the established accept and the container networks. */
    method AddModules(r: Rules, o: Options, nets: seq<Entry>)
      modifies this`built
      ensures built == old(built) + FirstModules(o, nflog) + LastModules(r, o, nets, nflog)
    {
      AddFirstModules(o);
      AddLastModules(r, o, nets);
    }

    method AddFirstModules(o: Options)
      modifies this`built
      ensures built == old(built) + FirstModules(o, nflog)
    {
      ghost var a, b, c := Scans(o, nflog), SynFlood(o, nflog), In(Input, InvalidRules(o, nflog));
      if o.portScan {
        AddOverRateChain(PortScan, LogSpec(o.portScanLog, "easywall portscan: ", nflog));
        AddScans();
        Assoc(old(built), In(PortScan, OverRate(LogSpec(o.portScanLog, "easywall portscan: ", nflog))),
              In(Input, Flat(SCANS, ScanRule())));
      }
      assert built == old(built) + a;
      AddRatePart(o.synFlood, SynFloodOver, LogSpec(o.synLog, "easywall syn-flood: ", nflog), Syns, SynFloodMeter);
      Assoc(old(built), a, b);
      if o.invalid {
        AddLogged(Input, CtAny(0x01), LogSpec(o.invalidLog, "easywall invalid: ", nflog), [Verdict(Drop)]);
      }
      assert built == old(built) + (a + b) + c;
      Assoc(old(built), a + b, c);
      if o.fragments {
        AddLogged(Fragments, FragmentMatch(), LogSpec(o.fragmentsLog, "easywall fragment: ", nflog), [Verdict(Drop)]);
      }
      assert built == old(built) + (a + b + c) + In(Fragments, FragmentRules(o, nflog));
      Assoc(old(built), a + b + c, In(Fragments, FragmentRules(o, nflog)));
    }

    method AddRatePart(on: bool, c: Chain, lg: LogSpec, w: Watch, m: Meter)
      modifies this`built
      ensures built == old(built) + if on then In(c, OverRate(lg)) + In(Input, RateLimited(w, m, c)) else []
    {
      if on {
        AddOverRateChain(c, lg);
        AddPerSourceRateLimit(Input, w, m, c);
        Assoc(old(built), In(c, OverRate(lg)), In(Input, RateLimited(w, m, c)));
      }
    }

    method AddLastModules(r: Rules, o: Options, nets: seq<Entry>)
      modifies this`built
      ensures built == old(built) + LastModules(r, o, nets, nflog)
    {
      ghost var a, b := Bogons(r, o, nets, nflog), Ssh(r, o, nflog);
      if o.bogons {
        AddBogonFilter(r, o, nets);
      }
      assert built == old(built) + a;
      if o.sshBruteForce {
        AddSshBruteForce(r, o);
      }
      assert built == old(built) + a + b;
      Assoc(old(built), a, b);
      AddPlainDrops(o);
      Assoc(old(built), a + b, In(Input, PlainDrops(o)));
    }

    method AddPlainDrops(o: Options)
      modifies this`built
      ensures built == old(built) + In(Input, PlainDrops(o))
    {
      ghost var conn := if o.connectionLimit then [ConnRule(V4), ConnRule(V6)] else [];
      ghost var broad := if o.dropBroadcast then [PktTypeIs(1) + [Verdict(Drop)]] else [];
      ghost var multi := if o.dropMulticast then [PktTypeIs(2) + [Verdict(Drop)]] else [];
      if o.connectionLimit {
        AddAll(Input, [ConnRule(V4), ConnRule(V6)]);
      }
      assert built == old(built) + In(Input, conn);
      if o.dropBroadcast {
        AddRule(Input, PktTypeIs(1) + [Verdict(Drop)]);
      }
      Append(old(built), Input, conn, broad);
      assert built == old(built) + In(Input, conn + broad);
      if o.dropMulticast {
        AddRule(Input, PktTypeIs(2) + [Verdict(Drop)]);
      }
      Append(old(built), Input, conn + broad, multi);
      assert built == old(built) + In(Input, conn + broad + multi);
      if o.dropAnycast {
        AddRule(Input, DaddrTypeIs(4) + [Verdict(Drop)]);
      }
      Append(old(built), Input, conn + broad + multi, if o.dropAnycast then [DaddrTypeIs(4) + [Verdict(Drop)]] else []);
    }

    /** The input chain down to neighbour discovery. */
    method AddFront(c: Config)
      modifies this`built
      ensures built == old(built) + Front(c, nflog)
    {
      var mode, o := Ipv6ModeOf(c.network), c.firewall;
      ghost var first, last := LOOPBACK + FamilyVerdict(mode), ESTABLISHED + DiscoveryRules(c.network);
      ghost var icmp, rst := IcmpFlood(o, nflog), RstFlood(o, nflog);
      AddRule(Input, Interface(Eq) + [Verdict(Accept)]);
      AddAll(Input, FamilyVerdict(mode));
      Append(old(built), Input, LOOPBACK, FamilyVerdict(mode));
      AddRatePart(o.icmpFlood, IcmpFloodOver, LogSpec(o.icmpLog, "easywall icmp-flood: ", nflog), Echoes,
                  IcmpFloodMeter);
      Assoc(old(built), In(Input, first), icmp);
      AddRatePart(o.rstFlood, TcpRstOver, LogSpec(o.rstLog, "easywall tcp-rst: ", nflog), Resets, TcpRstMeter);
      Assoc(old(built), In(Input, first) + icmp, rst);
      ghost var before := built;
      AddRule(Input, CtAny(0x06) + [Counter, Verdict(Accept)]);
      AddAll(Input, DiscoveryRules(c.network));
      Append(before, Input, ESTABLISHED, DiscoveryRules(c.network));
      Assoc(old(built), In(Input, first) + icmp + rst, In(Input, last));
    }

    /** addForwardLists; only ever called where the forward chain renders. */
    method AddForwardLists(r: Rules, n: NetworkSettings, nets: seq<Entry>)
      requires ListsRender(r) && !fwdLists
      modifies this`built, this`fwdLists
      ensures fwdLists
      ensures built == old(built) + (In(ForwardLists, ListsChain(r, nets)) + In(Forward, ListsJump(n, nets)))
    {
      fwdLists := true;
      var from := Cidr(SrcAddr);
      ghost var a := Flat(nets, PerEntry(from, SILENT, [Verdict(Return)]));
      ghost var b := Flat(r.blocklist, PerEntry(from, SILENT, [Counter, Verdict(Drop)]));
      ghost var c := Flat(r.allowlist, PerEntry(from, SILENT, [Verdict(Return)]));
      AddEntries(ForwardLists, nets, from, SILENT, [Verdict(Return)]);
      AddEntries(ForwardLists, r.blocklist, from, SILENT, [Counter, Verdict(Drop)]);
      AddEntries(ForwardLists, r.allowlist, from, SILENT, [Verdict(Return)]);
      Append(old(built), ForwardLists, a, b);
      Append(old(built), ForwardLists, a + b, c);
      if RoutingModeOf(n).Open? {
        AddEntries(Forward, nets, Cidr(DstAddr), SILENT, [Verdict(Jump(ForwardLists))]);
      } else {
        AddRule(Forward, [Verdict(Jump(ForwardLists))]);
      }
      Assoc(old(built), In(ForwardLists, ListsChain(r, nets)), In(Forward, ListsJump(n, nets)));
    }

    method AddForwardPortList(l: L4, rules: seq<PortRule>, nets: seq<Entry>, mode: Ipv6Mode)
      modifies this`built
      ensures built == old(built) + In(Forward, Flat(rules, ForwardPort(l, nets, mode)))
    {
      for i := 0 to |rules|
        invariant built == old(built) + In(Forward, Flat(rules[..i], ForwardPort(l, nets, mode)))
      {
        FlatStep(old(built), Forward, rules, i, ForwardPort(l, nets, mode));
        if rules[i].FiltersForwarded() {
          AddAll(Forward, ForwardPort(l, nets, mode)(rules[i]));
        }
      }
      assert rules[..|rules|] == rules;
    }

    method AddDenies(nets: seq<Entry>)
      modifies this`built
      ensures built == old(built) + In(Forward, Flat(nets, Deny()))
    {
      for i := 0 to |nets|
        invariant built == old(built) + In(Forward, Flat(nets[..i], Deny()))
      {
        FlatStep(old(built), Forward, nets, i, Deny());
        if Usable(nets[i]) {
          AddRule(Forward, DenyMatch(nets[i]) + [Counter, Verdict(Drop)]);
        }
      }
      assert nets[..|nets|] == nets;
    }

    /** addForwardPortRules and addForwardExceptions. */
    method AddForwardRest(r: Rules, n: NetworkSettings, nets: seq<Entry>)
      modifies this`built
      ensures built == old(built) + In(Forward, ForwardPorts(r, n, nets) + Flat(MayCross(n, nets), Crossing()))
    {
      var mode, cross := Ipv6ModeOf(n), MayCross(n, nets);
      if ForwardPortsRender(n.docker, nets) {
        ghost var a := Flat(r.tcp, ForwardPort(L4.Tcp, nets, mode));
        ghost var b := Flat(r.udp, ForwardPort(L4.Udp, nets, mode));
        AddForwardPortList(L4.Tcp, r.tcp, nets, mode);
        AddForwardPortList(L4.Udp, r.udp, nets, mode);
        AddDenies(nets);
        Append(old(built), Forward, a, b);
        Append(old(built), Forward, a + b, Flat(nets, Deny()));
      }
      assert built == old(built) + In(Forward, ForwardPorts(r, n, nets));
      ghost var before := built;
      for i := 0 to |cross|
        invariant built == before + In(Forward, Flat(cross[..i], Crossing()))
      {
        FlatStep(before, Forward, cross, i, Crossing());
        AddAll(Forward, Crossing()(cross[i]));
      }
      assert cross[..|cross|] == cross;
      Append(old(built), Forward, ForwardPorts(r, n, nets), Flat(cross, Crossing()));
    }

    method BuildForwardChain(r: Rules, n: NetworkSettings, nets: seq<Entry>)
      modifies this`built, this`fwdLists
      ensures fwdLists == HasLists(r, n, nets)
      ensures built == old(built) + ForwardPart(r, n, nets)
    {
      fwdLists := false;
      if !ForwardRenders(n, nets) {
        return;
      }
      ghost var lists := if !ListsRender(r) then []
                         else In(ForwardLists, ListsChain(r, nets)) + In(Forward, ListsJump(n, nets));
      AddRule(Forward, CtAny(0x06) + [Counter, Verdict(Accept)]);
      if ListsRender(r) {
        AddForwardLists(r, n, nets);
      }
      assert built == old(built) + In(Forward, ESTABLISHED) + lists;
      Assoc(old(built), In(Forward, ESTABLISHED), lists);
      AddForwardRest(r, n, nets);
      Assoc(old(built), In(Forward, ESTABLISHED) + lists,
            In(Forward, ForwardPorts(r, n, nets) + Flat(MayCross(n, nets), Crossing())));
    }

    method AddLists(r: Rules, o: Options, nets: seq<Entry>)
      modifies this`built
      ensures built == old(built) + In(Input, ListRules(r, o, nets, nflog))
    {
      var lg := LogSpec(o.logBlocklist, "easywall blocklist: ", nflog);
      ghost var a := Flat(nets, PerEntry(NetworksOnly, SILENT, [Verdict(Accept)]));
      ghost var b := Flat(r.blocklist, PerEntry(ListEntry, lg, [Verdict(Drop)]));
      AddEntries(Input, nets, NetworksOnly, SILENT, [Verdict(Accept)]);
      AddEntries(Input, r.blocklist, ListEntry, lg, [Verdict(Drop)]);
      AddEntries(Input, r.allowlist, ListEntry, SILENT, [Verdict(Accept)]);
      Append(old(built), Input, a, b);
      Append(old(built), Input, a + b, Flat(r.allowlist, PerEntry(ListEntry, SILENT, [Verdict(Accept)])));
    }

    method AddFeed(id: FeedId, f: Family, o: Options)
      modifies this`built
      ensures built == old(built) + FeedPart(id, f, o, fwdLists, nflog)
    {
      AddLogged(Input, FeedMatch(id, f), FeedLog(id, o, nflog), [Counter, Verdict(Drop)]);
      if fwdLists {
        AddRule(ForwardLists, FeedMatch(id, f) + [Counter, Verdict(Drop)]);
      }
      Assoc(old(built), In(Input, FeedRules(id, f, o, nflog)),
            In(ForwardLists, if fwdLists then ForwardFeedRules(id, f) else []));
    }

    /** FeedRuleOrder: two append loops. */
    method OrderFeeds(ids: seq<FeedId>) returns (out: seq<FeedId>)
      ensures out == FeedRuleOrder(ids)
    {
      out := [];
      for i := 0 to |ids|
        invariant out == OnlyFeeds(ids[..i], false)
      {
        assert ids[..i + 1][..i] == ids[..i];
        if !ids[i].CountryFeed? {
          out := out + [ids[i]];
        }
      }
      assert ids[..|ids|] == ids;
      for i := 0 to |ids|
        invariant out == OnlyFeeds(ids, false) + OnlyFeeds(ids[..i], true)
      {
        assert ids[..i + 1][..i] == ids[..i];
        if ids[i].CountryFeed? {
          out := out + [ids[i]];
        }
      }
      assert ids[..|ids|] == ids;
    }

    method AddFeeds(enabled: seq<FeedId>, o: Options)
      modifies this`built
      ensures built == old(built) + Feeds(FeedRuleOrder(enabled), o, fwdLists, nflog)
    {
      var ids := OrderFeeds(enabled);
      for i := 0 to |ids|
        invariant built == old(built) + Feeds(ids[..i], o, fwdLists, nflog)
      {
        FeedsStep(old(built), ids, i, o, fwdLists, nflog);
        AddFeed(ids[i], V4, o);
        AddFeed(ids[i], V6, o);
      }
      assert ids[..|ids|] == ids;
    }

    method AddPortAccepts(l: L4, rules: seq<PortRule>)
      modifies this`built
      ensures built == old(built) + In(Input, Flat(rules, HostPort(l)))
    {
      for i := 0 to |rules|
        invariant built == old(built) + In(Input, Flat(rules[..i], HostPort(l)))
      {
        FlatStep(old(built), Input, rules, i, HostPort(l));
        if rules[i].FiltersHost() {
          AddAll(Input, PortAcceptRules(l, rules[i]));
        }
      }
      assert rules[..|rules|] == rules;
    }

    method AddRedirects(ds: seq<Redirect>)
      modifies this`built
      ensures built == old(built) + In(Prerouting, Flat(ds, RedirectRule()))
    {
      for i := 0 to |ds|
        invariant built == old(built) + In(Prerouting, Flat(ds[..i], RedirectRule()))
      {
        FlatStep(old(built), Prerouting, ds, i, RedirectRule());
        AddAll(Prerouting, RedirectRule()(ds[i]));
      }
      assert ds[..|ds|] == ds;
    }

    method AddPorts(r: Rules, c: Config)
      modifies this`built
      ensures built == old(built) + Ports(r, c)
    {
      ghost var echo := EchoRules(c.firewall, c.network);
      ghost var tcp, udp := Flat(r.tcp, HostPort(L4.Tcp)), Flat(r.udp, HostPort(L4.Udp));
      AddAll(Input, EchoRules(c.firewall, c.network));
      AddPortAccepts(L4.Tcp, r.tcp);
      AddPortAccepts(L4.Udp, r.udp);
      Append(old(built), Input, echo, tcp);
      Append(old(built), Input, echo + tcp, udp);
      AddRedirects(r.forwarding);
      Assoc(old(built), In(Input, echo + tcp + udp), In(Prerouting, Flat(r.forwarding, RedirectRule())));
    }

    /** cidrFamilies' companion: the container networks, with IPv6 removed under block. */
    method AssembleNetworks(n: NetworkSettings, bridges: seq<Entry>) returns (nets: seq<Entry>)
      ensures nets == ContainerNetworks(n, bridges)
    {
      var d := n.docker;
      if !d.enabled {
        return [];
      }
      var all := (if d.allowBridges then bridges else []) + d.custom;
      if !Ipv6ModeOf(n).Block? {
        return all;
      }
      nets := [];
      for i := 0 to |all|
        invariant nets == WithoutIpv6(all[..i])
      {
        assert all[..i + 1][..i] == all[..i];
        if !IsV6Network(all[i]) {
          nets := nets + [all[i]];
        }
      }
      assert all[..|all|] == all;
    }

    /**
     ApplyWithFeeds up to its first flush: a rule set that does not validate is refused with nothing built; any
     other is built exactly as compiled, over the shipped bogon ranges, and the static check finds nothing in it.
     */
    method ApplyWithFeeds(r: Rules, c: Config, bridges: seq<Entry>) returns (ok: bool)
      modifies this
      ensures nflog == old(nflog) && ok == r.Valid()
      ensures !ok ==> built == []
      ensures ok ==> built == Built(r, CoreConfig(c), bridges, nflog)
      ensures ok ==> RuleCheck.Clean(built, {})
    {
      built := [];
      ok := r.Valid();
      if ok {
        BuildTable(r, CoreConfig(c), bridges);
        CoreTablesAreClean(r, CoreConfig(c), bridges, nflog);
      }
    }

    method BuildTable(r: Rules, c: Config, bridges: seq<Entry>)
      requires built == []
      modifies this
      ensures nflog == old(nflog) && built == Built(r, c, bridges, nflog)
    {
      var nets := AssembleNetworks(c.network, bridges);
      BuildAll(r, c, nets);
      BuiltIs(r, c, bridges, nflog);
    }

    method BuildAll(r: Rules, c: Config, nets: seq<Entry>)
      requires built == []
      modifies this`built, this`fwdLists
      ensures built == Front(c, nflog) + ForwardPart(r, c.network, nets) + FirstModules(c.firewall, nflog)
                       + LastModules(r, c.firewall, nets, nflog) + In(Input, ListRules(r, c.firewall, nets, nflog))
                       + Feeds(FeedRuleOrder(r.feeds), c.firewall, HasLists(r, c.network, nets), nflog) + Ports(r, c)
    {
      AddFront(c);
      assert built == Front(c, nflog);
      BuildForwardChain(r, c.network, nets);
      AddModules(r, c.firewall, nets);
      AddLists(r, c.firewall, nets);
      AddFeeds(r.feeds, c.firewall);
      AddPorts(r, c);
    }
  }
}
