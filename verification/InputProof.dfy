/** The compiled input chain means what the stages mean. */
module InputProof {
  import opened Addresses
  import opened Models
  import opened Netfilter
  import opened Matches
  import opened Compiler
  import opened Meaning
  import opened Stages

  // ---- the front ----

  lemma LoopbackWalks(t: Table, d: nat, p: Packet, env: Env)
    ensures Walk(t, LOOPBACK, d, p, env) == Hit(OnLoopback(p), Accepted)
  {
    InterfaceTests(Eq, p, env);
    ActWalks(t, Interface(Eq), OnLoopback(p), [Verdict(Accept)], Accept, d, p, env);
  }

  lemma FamilyVerdictWalks(t: Table, mode: Ipv6Mode, d: nat, p: Packet, env: Env)
    ensures Walk(t, FamilyVerdict(mode), d, p, env)
            == Hit(p.fam.V6? && !mode.Filter?, if mode.Passthrough? then Accepted else Dropped)
  {
    FamilyTests(V6, p, env);
    match mode
    case Passthrough => ActWalks(t, FamilyIs(V6), p.fam.V6?, [Verdict(Accept)], Accept, d, p, env);
    case Block => ActWalks(t, FamilyIs(V6), p.fam.V6?, [Verdict(Drop)], Drop, d, p, env);
    case Filter =>
  }

  lemma EstablishedWalks(t: Table, d: nat, p: Packet, env: Env)
    ensures Walk(t, ESTABLISHED, d, p, env) == Hit(Established(p), Accepted)
  {
    CtTests(0x06, p, env);
    ActWalks(t, CtAny(0x06), Established(p), [Counter, Verdict(Accept)], Accept, d, p, env);
  }

  lemma TypeAcceptWalks(t: Table, proto: nat, v: nat, d: nat, p: Packet, env: Env)
    ensures Walk(t, TypeAccept(proto)(v), d, p, env) == Hit(p.l4 == proto && IsType(p, v), Accepted)
  {
    TypeTests(proto, v, p, env);
    ActWalks(t, L4Is(proto) + TypeIs(v), p.l4 == proto && IsType(p, v), [Verdict(Accept)], Accept, d, p, env);
  }

  lemma DiscoveryWalks(t: Table, n: NetworkSettings, d: nat, p: Packet, env: Env)
    ensures Walk(t, DiscoveryRules(n), d, p, env) == Hit(FiltersIpv6(n) && IsDiscovery(n.ipv6, p), Accepted)
  {
    if Ipv6ModeOf(n).Filter? {
      var types := Discovery(n.ipv6);
      var hit := (v: nat) => p.l4 == ICMPV6 && IsType(p, v);
      forall i | 0 <= i < |types|
        ensures Walk(t, TypeAccept(ICMPV6)(types[i]), d, p, env) == Hit(hit(types[i]), Accepted)
      {
        TypeAcceptWalks(t, ICMPV6, types[i], d, p, env);
      }
      FlatWalks(t, types, TypeAccept(ICMPV6), hit, Accepted, d, p, env);
      DiscoveryMeans(n.ipv6, p);
    }
  }

  lemma DiscoveryMeans(c: Ipv6Config, p: Packet)
    ensures (exists i :: 0 <= i < |Discovery(c)| && p.l4 == ICMPV6 && IsType(p, Discovery(c)[i])) == IsDiscovery(c, p)
  {
    var types := Discovery(c);
    if c.routerAdverts {
      assert types[0] == 133 && types[1] == 134;
    }
    if c.neighborAdverts {
      assert types[|types| - 2] == 135 && types[|types| - 1] == 136;
    }
  }

  /** A module that caps a rate: its own chain, and its stretch of the input chain. */
  lemma RatePart(t: Table, on: bool, part: Table, c: Chain, over: seq<Rule>, w: Watch, m: Meter, d: nat, p: Packet,
                 env: Env)
    requires c != Input && part == if on then In(c, over) + In(Input, RateLimited(w, m, c)) else []
    requires d > 0 && (on ==> PartFate(t, t, c, d - 1, p, env) == Dropped)
    ensures PartFate(t, part, Input, d, p, env) == Hit(on && Watched(w, p) && Over(env, m, p), Dropped)
  {
    if on {
      PartConcat(t, In(c, over), In(Input, RateLimited(w, m, c)), Input, d, p, env);
      PartIn(t, c, over, Input, d, p, env);
      PartIn(t, Input, RateLimited(w, m, c), Input, d, p, env);
      RateLimitWalks(t, w, m, c, d, p, env);
    }
  }

  lemma OpeningWalks(t: Table, mode: Ipv6Mode, d: nat, p: Packet, env: Env)
    ensures PartFate(t, In(Input, LOOPBACK + FamilyVerdict(mode)), Input, d, p, env)
            == if OnLoopback(p) then Accepted
               else Hit(p.fam.V6? && !mode.Filter?, if mode.Passthrough? then Accepted else Dropped)
  {
    LoopbackWalks(t, d, p, env);
    FamilyVerdictWalks(t, mode, d, p, env);
    WalkConcat(t, LOOPBACK, FamilyVerdict(mode), d, p, env);
    PartIn(t, Input, LOOPBACK + FamilyVerdict(mode), Input, d, p, env);
  }

  lemma StatefulWalks(t: Table, n: NetworkSettings, d: nat, p: Packet, env: Env)
    ensures PartFate(t, In(Input, ESTABLISHED + DiscoveryRules(n)), Input, d, p, env)
            == Hit(Established(p) || (FiltersIpv6(n) && IsDiscovery(n.ipv6, p)), Accepted)
  {
    EstablishedWalks(t, d, p, env);
    DiscoveryWalks(t, n, d, p, env);
    WalkConcat(t, ESTABLISHED, DiscoveryRules(n), d, p, env);
    PartIn(t, Input, ESTABLISHED + DiscoveryRules(n), Input, d, p, env);
  }

  lemma FrontWalks(t: Table, c: Config, nflog: bool, d: nat, p: Packet, env: Env)
    requires d > 0
    requires c.firewall.icmpFlood ==> PartFate(t, t, IcmpFloodOver, d - 1, p, env) == Dropped
    requires c.firewall.rstFlood ==> PartFate(t, t, TcpRstOver, d - 1, p, env) == Dropped
    ensures PartFate(t, Front(c, nflog), Input, d, p, env) == FrontFate(c, p, env)
  {
    var mode, o := Ipv6ModeOf(c.network), c.firewall;
    var first, last := In(Input, LOOPBACK + FamilyVerdict(mode)), In(Input, ESTABLISHED + DiscoveryRules(c.network));
    var icmp, rst := IcmpFlood(o, nflog), RstFlood(o, nflog);
    OpeningWalks(t, mode, d, p, env);
    RatePart(t, o.icmpFlood, icmp, IcmpFloodOver, OverRate(LogSpec(o.icmpLog, "easywall icmp-flood: ", nflog)),
             Echoes, IcmpFloodMeter, d, p, env);
    RatePart(t, o.rstFlood, rst, TcpRstOver, OverRate(LogSpec(o.rstLog, "easywall tcp-rst: ", nflog)),
             Resets, TcpRstMeter, d, p, env);
    StatefulWalks(t, c.network, d, p, env);
    PartConcat(t, first, icmp, Input, d, p, env);
    PartConcat(t, first + icmp, rst, Input, d, p, env);
    PartConcat(t, first + icmp + rst, last, Input, d, p, env);
  }

  // ---- the modules ----

  lemma LowMasks(f: nat)
    ensures MaskHits(f, (0x03, 0x03)) <==> HasFlag(f, SYN) && HasFlag(f, FIN)
    ensures MaskHits(f, (0x05, 0x05)) <==> HasFlag(f, RST) && HasFlag(f, FIN)
    ensures MaskHits(f, (0x06, 0x06)) <==> HasFlag(f, RST) && HasFlag(f, SYN)
  {
    var h, q := f / 2, f / 2 / 2;
    assert q == f / 4;
    AndUnfolds(f, 0x03);
    AndUnfolds(h, 0x01);
    AndUnfolds(f, 0x05);
    AndUnfolds(h, 0x02);
    AndUnfolds(q, 0x01);
    AndUnfolds(f, 0x06);
    AndUnfolds(h, 0x03);
  }

  lemma XmasMask(f: nat)
    ensures MaskHits(f, (0x29, 0x29)) <==> HasFlag(f, FIN) && HasFlag(f, PSH) && HasFlag(f, URG)
  {
    var h1 := f / 2;
    var h2 := h1 / 2;
    var h3 := h2 / 2;
    var h4 := h3 / 2;
    var h5 := h4 / 2;
    assert h3 == f / 8 && h5 == f / 32;
    AndUnfolds(f, 0x29);
    AndUnfolds(h1, 0x14);
    AndUnfolds(h2, 0x0a);
    AndUnfolds(h3, 0x05);
    AndUnfolds(h4, 0x02);
    AndUnfolds(h5, 0x01);
  }

  predicate MaskHits(f: nat, s: (nat, nat)) { And(f, s.0) == s.1 }

  lemma SevenMasks(f: nat)
    ensures (exists i :: 0 <= i < |SCANS| && MaskHits(f, SCANS[i]))
            <==> || MaskHits(f, (0xff, 0x00)) || MaskHits(f, (0xff, 0x01)) || MaskHits(f, (0x03, 0x03))
                 || MaskHits(f, (0x05, 0x05)) || MaskHits(f, (0x06, 0x06)) || MaskHits(f, (0x29, 0x29))
                 || MaskHits(f, (0xff, 0xff))
  {
    assert && SCANS[0] == (0xff, 0x00) && SCANS[1] == (0xff, 0x01) && SCANS[2] == (0x03, 0x03)
           && SCANS[3] == (0x05, 0x05) && SCANS[4] == (0x06, 0x06) && SCANS[5] == (0x29, 0x29)
           && SCANS[6] == (0xff, 0xff);
  }

  lemma WholeByte(f: nat, v: nat)
    requires f < 256
    ensures MaskHits(f, (0xff, v)) <==> f == v
  {
    assert Pow2(8) == 256;
    AndAllOnes(f, 8);
  }

  /** The seven masks together are the flags a scan sends. */
  lemma ScanMasks(f: nat)
    requires f < 256
    ensures (exists i :: 0 <= i < |SCANS| && MaskHits(f, SCANS[i])) <==> ScanFlags(f)
  {
    SevenMasks(f);
    LowMasks(f);
    XmasMask(f);
    WholeByte(f, 0x00);
    WholeByte(f, 0x01);
    WholeByte(f, 0xff);
  }

  lemma ScansMean(p: Packet)
    ensures IsScan(p) <==> p.l4 == TCP && exists i :: 0 <= i < |SCANS| && Flags(p, SCANS[i].0, SCANS[i].1)
  {
    var f := Field(p, 13, 1);
    if f.Some? {
      BigEndianBound(p.transport[13..14]);
      assert Pow2(8) == 256;
      ScanMasks(f.value);
      assert forall i :: 0 <= i < |SCANS| ==>
                           Flags(p, SCANS[i].0, SCANS[i].1) == MaskHits(f.value, SCANS[i]);
    }
  }

  lemma ScansWalk(t: Table, d: nat, p: Packet, env: Env)
    requires d > 0 && PartFate(t, t, PortScan, d - 1, p, env) == Dropped
    ensures Walk(t, Flat(SCANS, ScanRule()), d, p, env) == Hit(IsScan(p), Dropped)
  {
    var hit := (s: (nat, nat)) => p.l4 == TCP && Flags(p, s.0, s.1);
    forall i | 0 <= i < |SCANS| ensures Walk(t, ScanRule()(SCANS[i]), d, p, env) == Hit(hit(SCANS[i]), Dropped) {
      var s := SCANS[i];
      var m := L4Is(TCP) + FlagsAre(s.0, s.1);
      FlagTests(s.0, s.1, p, env);
      RuleActs(m, hit(s), [Verdict(Jump(PortScan))], Jump(PortScan), p, env);
      JumpWalks(t, m + [Verdict(Jump(PortScan))], hit(s), PortScan, d, p, env);
    }
    FlatWalks(t, SCANS, ScanRule(), hit, Dropped, d, p, env);
    ScansMean(p);
  }

  lemma InvalidWalks(t: Table, o: Options, nflog: bool, d: nat, p: Packet, env: Env)
    ensures Walk(t, InvalidRules(o, nflog), d, p, env) == Hit(o.invalid && State(p, 0x01), Dropped)
  {
    if o.invalid {
      CtTests(0x01, p, env);
      LoggedWalks(t, CtAny(0x01), State(p, 0x01), LogSpec(o.invalidLog, "easywall invalid: ", nflog),
                  [Verdict(Drop)], Drop, d, p, env);
    }
  }

  lemma PortMatchTests(l: L4, s: PortSpec, p: Packet, env: Env)
    requires s.Valid()
    ensures Tests(PortRuleMatch(l, s), p, env, p.l4 == Models.Protocol(l) && ToPort(p, s))
  {
    L4Tests(Models.Protocol(l), p, env);
    PortTests(s, p, env);
    TwoTests(L4Is(Models.Protocol(l)), p.l4 == Models.Protocol(l), PortIs(s), ToPort(p, s), p, env);
  }

  /** A source test, then protocol and port, then what to do. */
  lemma SourcedRuleWalks(t: Table, r: Reader, e: Entry, l: L4, s: PortSpec, tail: Rule, k: Kind,
                         d: nat, p: Packet, env: Env)
    requires s.Valid() && Reads(r, e) && MatchOf(r, e).Some? && (k.Accept? || k.Return?)
    requires tail == [Verdict(k)] || tail == [Counter, Verdict(k)]
    ensures Walk(t, [MatchOf(r, e).value + PortRuleMatch(l, s) + tail], d, p, env)
            == Hit(e.Covers(At(p, Where(r))) && p.l4 == Models.Protocol(l) && ToPort(p, s), FateOf(k))
  {
    var m, a := MatchOf(r, e).value, At(p, Where(r));
    var port := p.l4 == Models.Protocol(l) && ToPort(p, s);
    MatchOfTests(r, e, p, env);
    PortMatchTests(l, s, p, env);
    TwoTests(m, e.Covers(a), PortRuleMatch(l, s), port, p, env);
    ActWalks(t, m + PortRuleMatch(l, s), e.Covers(a) && port, tail, k, d, p, env);
  }

  lemma RuleReturnsWalk(t: Table, l: L4, r: PortRule, d: nat, p: Packet, env: Env)
    requires r.port.Valid() && p.fam.V4?
    ensures Walk(t, RuleReturns(l)(r), d, p, env)
            == Hit(p.l4 == Models.Protocol(l) && r.FiltersHost() && ToPort(p, r.port) && AnyCovers(r.sources, p.Src()),
                   Returned)
  {
    var hit := (e: Entry) => e.Covers(p.Src()) && p.l4 == Models.Protocol(l) && ToPort(p, r.port);
    forall i | 0 <= i < |r.sources|
      ensures Walk(t, SourceReturn(l, r.port)(r.sources[i]), d, p, env) == Hit(hit(r.sources[i]), Returned)
    {
      var e := r.sources[i];
      MatchOfTests(V4Sources, e, p, env);
      if Reads(V4Sources, e) {
        var m := MatchOf(V4Sources, e).value;
        assert m + L4Is(Models.Protocol(l)) + PortIs(r.port) + [Verdict(Return)]
            == m + PortRuleMatch(l, r.port) + [Verdict(Return)];
        SourcedRuleWalks(t, V4Sources, e, l, r.port, [Verdict(Return)], Return, d, p, env);
      }
    }
    FlatWalks(t, r.sources, SourceReturn(l, r.port), hit, Returned, d, p, env);
  }

  lemma NamedReturnsWalk(t: Table, l: L4, rules: seq<PortRule>, d: nat, p: Packet, env: Env)
    requires p.fam.V4? && forall i :: 0 <= i < |rules| ==> rules[i].port.Valid()
    ensures Walk(t, Flat(rules, RuleReturns(l)), d, p, env) == Hit(NamedBy(l, rules, p), Returned)
  {
    var hit := (r: PortRule) =>
      p.l4 == Models.Protocol(l) && r.FiltersHost() && ToPort(p, r.port) && AnyCovers(r.sources, p.Src());
    forall i | 0 <= i < |rules| ensures Walk(t, RuleReturns(l)(rules[i]), d, p, env) == Hit(hit(rules[i]), Returned) {
      RuleReturnsWalk(t, l, rules[i], d, p, env);
    }
    FlatWalks(t, rules, RuleReturns(l), hit, Returned, d, p, env);
  }

  lemma BogonChainWalks(t: Table, r: Rules, o: Options, nets: seq<Entry>, nflog: bool, d: nat, p: Packet, env: Env)
    requires r.Valid() && p.fam.V4?
    ensures Walk(t, BogonChain(r, o, nets, nflog), d, p, env)
            == if BogonExempt(r, nets, p) then Returned else Hit(AnyCovers(o.bogonRanges, p.Src()), Dropped)
  {
    var spared := Flat(r.allowlist + nets, PerEntry(V4Sources, SILENT, [Verdict(Return)]));
    var tcp, udp := Flat(r.tcp, RuleReturns(L4.Tcp)), Flat(r.udp, RuleReturns(L4.Udp));
    var lg := LogSpec(o.bogonsLog, "easywall bogon: ", nflog);
    var drops := Flat(o.bogonRanges, PerEntry(V4Sources, lg, [Verdict(Drop)]));
    ListWalks(t, V4Sources, SILENT, [Verdict(Return)], Return, r.allowlist + nets, d, p, env);
    ListedMeans(V4Sources, r.allowlist + nets, p);
    CoversBoth(r.allowlist, nets, p.Src());
    NamedReturnsWalk(t, L4.Tcp, r.tcp, d, p, env);
    NamedReturnsWalk(t, L4.Udp, r.udp, d, p, env);
    ListWalks(t, V4Sources, lg, [Verdict(Drop)], Drop, o.bogonRanges, d, p, env);
    ListedMeans(V4Sources, o.bogonRanges, p);
    WalkConcat(t, spared, tcp, d, p, env);
    WalkConcat(t, spared + tcp, udp, d, p, env);
    WalkConcat(t, spared + tcp + udp, drops, d, p, env);
  }

  /** A jump to a chain that first returns for the spared and then drops what it was made for. */
  lemma FilterJumpWalks(t: Table, m: Rule, holds: bool, c: Chain, spared: bool, hit: bool, d: nat, p: Packet, env: Env)
    requires Tests(m, p, env, holds) && d > 0
    requires holds ==> PartFate(t, t, c, d - 1, p, env) == if spared then Returned else Hit(hit, Dropped)
    ensures Walk(t, [m + [Verdict(Jump(c))]], d, p, env) == Hit(holds && hit && !spared, Dropped)
  {
    RuleActs(m, holds, [Verdict(Jump(c))], Jump(c), p, env);
    JumpWalks(t, m + [Verdict(Jump(c))], holds, c, d, p, env);
  }

  /** The bogon chain of the table spares the exempt and drops the rest of its ranges. */
  predicate BogonsSettled(t: Table, r: Rules, o: Options, nets: seq<Entry>, d: nat, p: Packet, env: Env) {
    p.fam.V4? ==>
      PartFate(t, t, Bogon, d, p, env)
      == if BogonExempt(r, nets, p) then Returned else Hit(AnyCovers(o.bogonRanges, p.Src()), Dropped)
  }

  lemma BogonsWalk(t: Table, r: Rules, o: Options, nets: seq<Entry>, d: nat, p: Packet, env: Env)
    requires d > 0 && BogonsSettled(t, r, o, nets, d - 1, p, env)
    ensures Walk(t, BOGON_JUMP, d, p, env) == Hit(IsBogon(o, p) && !BogonExempt(r, nets, p), Dropped)
  {
    FamilyTests(V4, p, env);
    InterfaceTests(Neq, p, env);
    TwoTests(FamilyIs(V4), p.fam.V4?, Interface(Neq), !OnLoopback(p), p, env);
    FilterJumpWalks(t, FamilyIs(V4) + Interface(Neq), p.fam.V4? && !OnLoopback(p), Bogon,
                    BogonExempt(r, nets, p), AnyCovers(o.bogonRanges, p.Src()), d, p, env);
  }

  lemma {:induction false} FlaggedMeans(rules: seq<PortRule>, p: Packet)
    ensures (FlaggedPorts(rules) != []) == AnyFlagged(rules)
    ensures (exists i :: 0 <= i < |FlaggedPorts(rules)| && ToPort(p, FlaggedPorts(rules)[i]))
         == (exists i :: 0 <= i < |rules| && rules[i].ssh && rules[i].FiltersHost() && ToPort(p, rules[i].port))
    ensures forall i :: 0 <= i < |FlaggedPorts(rules)| ==>
              exists k :: 0 <= k < |rules| && FlaggedPorts(rules)[i] == rules[k].port
  {
    if rules != [] {
      var front, last := rules[..|rules| - 1], rules[|rules| - 1];
      FlaggedMeans(front, p);
      var f, g := FlaggedPorts(front), FlaggedPorts(rules);
      assert forall i :: 0 <= i < |front| ==> front[i] == rules[i];
      assert forall i :: 0 <= i < |f| ==> g[i] == f[i];
      assert last.ssh && last.FiltersHost() ==> g[|f|] == last.port;
    }
  }

  lemma SshChainWalks(t: Table, d: nat, p: Packet, env: Env)
    requires d > 0 && PartFate(t, t, SshBruteOver, d - 1, p, env) == Dropped
    ensures Walk(t, SSH_CHAIN, d, p, env)
            == if Over(env, SshBruteMeter, p) then Dropped else Returned
  {
    RateLimitWalks(t, Anything, SshBruteMeter, SshBruteOver, d, p, env);
    assert Run([Verdict(Return)], map[], p, env) == Decide(Return);
    WalkOne(t, [Verdict(Return)], d, p, env);
    WalkConcat(t, RateLimited(Anything, SshBruteMeter, SshBruteOver), [[Verdict(Return)]], d, p, env);
  }

  lemma SshRuleWalks(t: Table, s: PortSpec, d: nat, p: Packet, env: Env)
    requires s.Valid() && SshChains(t, d, p, env)
    ensures Walk(t, SshRule()(s), d, p, env)
            == Hit(p.l4 == TCP && ToPort(p, s) && State(p, 0x08) && Over(env, SshBruteMeter, p), Dropped)
  {
    var m := PortRuleMatch(L4.Tcp, s) + CtAny(0x08);
    var holds := p.l4 == TCP && ToPort(p, s) && State(p, 0x08);
    PortMatchTests(L4.Tcp, s, p, env);
    CtTests(0x08, p, env);
    TwoTests(PortRuleMatch(L4.Tcp, s), p.l4 == TCP && ToPort(p, s), CtAny(0x08), State(p, 0x08), p, env);
    RuleActs(m, holds, [Verdict(Jump(SshBrute))], Jump(SshBrute), p, env);
    SshChainWalks(t, d - 1, p, env);
    JumpWalks(t, m + [Verdict(Jump(SshBrute))], holds, SshBrute, d, p, env);
  }

  /** Both of the module's chains are in the table. */
  predicate SshChains(t: Table, d: nat, p: Packet, env: Env) {
    && d > 1 && PartFate(t, t, SshBruteOver, d - 2, p, env) == Dropped
    && PartFate(t, t, SshBrute, d - 1, p, env) == SshFate(t, d - 1, p, env)
  }

  function SshFate(t: Table, d: nat, p: Packet, env: Env): Fate { Walk(t, SSH_CHAIN, d, p, env) }

  lemma SshWalks(t: Table, r: Rules, d: nat, p: Packet, env: Env)
    requires r.Valid() && SshChains(t, d, p, env)
    ensures Walk(t, Flat(MeteredPorts(r), SshRule()), d, p, env)
            == Hit(MeteredSsh(r, p) && Over(env, SshBruteMeter, p), Dropped)
  {
    var ports := MeteredPorts(r);
    FlaggedMeans(r.tcp, p);
    var hit := (s: PortSpec) => p.l4 == TCP && ToPort(p, s) && State(p, 0x08) && Over(env, SshBruteMeter, p);
    forall i | 0 <= i < |ports| ensures Walk(t, SshRule()(ports[i]), d, p, env) == Hit(hit(ports[i]), Dropped) {
      SshRuleWalks(t, ports[i], d, p, env);
    }
    FlatWalks(t, ports, SshRule(), hit, Dropped, d, p, env);
    MeteredMeans(r, p);
  }

  lemma MeteredMeans(r: Rules, p: Packet)
    ensures (exists i :: 0 <= i < |MeteredPorts(r)| && ToPort(p, MeteredPorts(r)[i])) == ToSsh(r, p)
  {
    FlaggedMeans(r.tcp, p);
    var ports := MeteredPorts(r);
    if AnyFlagged(r.tcp) {
      assert ports == FlaggedPorts(r.tcp);
    } else {
      assert ports == [Single(22)];
      assert forall i :: 0 <= i < |ports| ==> ports[i] == Single(22);
      assert ports[0] == Single(22);
    }
  }

  lemma ConnWalks(t: Table, d: nat, p: Packet, env: Env)
    ensures Walk(t, [ConnRule(V4), ConnRule(V6)], d, p, env) == Hit(Over(env, ConnLimit, p), Dropped)
  {
    FamilyTests(V4, p, env);
    FamilyTests(V6, p, env);
    MeterRuleRuns(FamilyIs(V4), true, ConnLimit, V4, Drop, p, env);
    MeterRuleRuns(FamilyIs(V6), true, ConnLimit, V6, Drop, p, env);
    WalkOne(t, ConnRule(V4), d, p, env);
    WalkOne(t, ConnRule(V6), d, p, env);
    WalkConcat(t, [ConnRule(V4)], [ConnRule(V6)], d, p, env);
  }

  lemma PlainDropsWalk(t: Table, o: Options, d: nat, p: Packet, env: Env)
    ensures Walk(t, PlainDrops(o), d, p, env)
            == Hit(|| (o.connectionLimit && Over(env, ConnLimit, p)) || (o.dropBroadcast && p.pktType == 1)
                   || (o.dropMulticast && p.pktType == 2) || (o.dropAnycast && p.daddrType == 4), Dropped)
  {
    var conn := if o.connectionLimit then [ConnRule(V4), ConnRule(V6)] else [];
    var broad := if o.dropBroadcast then [PktTypeIs(1) + [Verdict(Drop)]] else [];
    var multi := if o.dropMulticast then [PktTypeIs(2) + [Verdict(Drop)]] else [];
    var any := if o.dropAnycast then [DaddrTypeIs(4) + [Verdict(Drop)]] else [];
    ConnWalks(t, d, p, env);
    CompareTests(Meta(PktType, 1), Eq, 1, p, env);
    CompareTests(Meta(PktType, 1), Eq, 2, p, env);
    CompareTests(FibDaddrType(1), Eq, 4, p, env);
    ActWalks(t, PktTypeIs(1), p.pktType == 1, [Verdict(Drop)], Drop, d, p, env);
    ActWalks(t, PktTypeIs(2), p.pktType == 2, [Verdict(Drop)], Drop, d, p, env);
    ActWalks(t, DaddrTypeIs(4), p.daddrType == 4, [Verdict(Drop)], Drop, d, p, env);
    WalkConcat(t, conn, broad, d, p, env);
    WalkConcat(t, conn + broad, multi, d, p, env);
    WalkConcat(t, conn + broad + multi, any, d, p, env);
  }

  lemma OnePart(t: Table, on: bool, part: Table, c: Chain, chain: seq<Rule>, input: seq<Rule>, d: nat, p: Packet,
                env: Env)
    requires c != Input && part == if on then In(c, chain) + In(Input, input) else []
    ensures PartFate(t, part, Input, d, p, env) == if on then Walk(t, input, d, p, env) else Fell
  {
    if on {
      PartConcat(t, In(c, chain), In(Input, input), Input, d, p, env);
      PartIn(t, c, chain, Input, d, p, env);
      PartIn(t, Input, input, Input, d, p, env);
    }
  }

  lemma FirstModulesWalk(t: Table, o: Options, nflog: bool, d: nat, p: Packet, env: Env)
    requires d > 0 && (o.portScan ==> PartFate(t, t, PortScan, d - 1, p, env) == Dropped)
    requires o.synFlood ==> PartFate(t, t, SynFloodOver, d - 1, p, env) == Dropped
    ensures PartFate(t, FirstModules(o, nflog), Input, d, p, env)
            == Hit(RefusedFirst(o, p, env), Dropped)
  {
    var scans, syns, inv := Scans(o, nflog), SynFlood(o, nflog), InvalidRules(o, nflog);
    OnePart(t, o.portScan, scans, PortScan, OverRate(LogSpec(o.portScanLog, "easywall portscan: ", nflog)),
            Flat(SCANS, ScanRule()), d, p, env);
    if o.portScan {
      ScansWalk(t, d, p, env);
    }
    RatePart(t, o.synFlood, syns, SynFloodOver, OverRate(LogSpec(o.synLog, "easywall syn-flood: ", nflog)),
             Syns, SynFloodMeter, d, p, env);
    InvalidWalks(t, o, nflog, d, p, env);
    PartIn(t, Input, inv, Input, d, p, env);
    PartIn(t, Fragments, FragmentRules(o, nflog), Input, d, p, env);
    PartConcat(t, scans, syns, Input, d, p, env);
    PartConcat(t, scans + syns, In(Input, inv), Input, d, p, env);
    PartConcat(t, scans + syns + In(Input, inv), In(Fragments, FragmentRules(o, nflog)), Input, d, p, env);
  }

  lemma SshPart(t: Table, r: Rules, o: Options, nflog: bool, d: nat, p: Packet, env: Env)
    requires r.Valid() && (o.sshBruteForce ==> SshChains(t, d, p, env))
    ensures PartFate(t, Ssh(r, o, nflog), Input, d, p, env)
            == Hit(o.sshBruteForce && MeteredSsh(r, p) && Over(env, SshBruteMeter, p), Dropped)
  {
    if o.sshBruteForce {
      var over, input := OverRate(LogSpec(o.sshLog, "easywall ssh: ", nflog)), Flat(MeteredPorts(r), SshRule());
      SshWalks(t, r, d, p, env);
      PartIn(t, SshBruteOver, over, Input, d, p, env);
      PartIn(t, SshBrute, SSH_CHAIN, Input, d, p, env);
      PartIn(t, Input, input, Input, d, p, env);
      PartConcat(t, In(SshBruteOver, over), In(SshBrute, SSH_CHAIN), Input, d, p, env);
      PartConcat(t, In(SshBruteOver, over) + In(SshBrute, SSH_CHAIN), In(Input, input), Input, d, p, env);
    }
  }

  lemma LastModulesWalk(t: Table, r: Rules, o: Options, nets: seq<Entry>, nflog: bool, d: nat, p: Packet, env: Env)
    requires r.Valid() && d > 0 && (o.sshBruteForce ==> SshChains(t, d, p, env))
    requires o.bogons ==> BogonsSettled(t, r, o, nets, d - 1, p, env)
    ensures PartFate(t, LastModules(r, o, nets, nflog), Input, d, p, env)
            == Hit((o.bogons && IsBogon(o, p) && !BogonExempt(r, nets, p)) || RefusedLast(r, o, p, env), Dropped)
  {
    var bogons, ssh := Bogons(r, o, nets, nflog), Ssh(r, o, nflog);
    BogonsPart(t, r, o, nets, bogons, nflog, d, p, env);
    SshPart(t, r, o, nflog, d, p, env);
    PlainDropsWalk(t, o, d, p, env);
    PartIn(t, Input, PlainDrops(o), Input, d, p, env);
    PartConcat(t, bogons, ssh, Input, d, p, env);
    PartConcat(t, bogons + ssh, In(Input, PlainDrops(o)), Input, d, p, env);
  }

  lemma BogonsPart(t: Table, r: Rules, o: Options, nets: seq<Entry>, part: Table, nflog: bool, d: nat, p: Packet,
                   env: Env)
    requires r.Valid() && d > 0
    requires part == if o.bogons then In(Bogon, BogonChain(r, o, nets, nflog)) + In(Input, BOGON_JUMP) else []
    requires o.bogons ==> BogonsSettled(t, r, o, nets, d - 1, p, env)
    ensures PartFate(t, part, Input, d, p, env)
            == Hit(o.bogons && IsBogon(o, p) && !BogonExempt(r, nets, p), Dropped)
  {
    OnePart(t, o.bogons, part, Bogon, BogonChain(r, o, nets, nflog), BOGON_JUMP, d, p, env);
    if o.bogons {
      BogonsWalk(t, r, o, nets, d, p, env);
    }
  }

  // ---- lists, feeds, ports, the tail ----

  lemma ListRulesWalk(t: Table, r: Rules, o: Options, nets: seq<Entry>, nflog: bool, d: nat, p: Packet, env: Env)
    ensures Walk(t, ListRules(r, o, nets, nflog), d, p, env)
            == if AnyNetwork(nets, p.Src()) then Accepted
               else if AnyCovers(r.blocklist, p.Src()) then Dropped
               else Hit(AnyCovers(r.allowlist, p.Src()), Accepted)
  {
    var lg := LogSpec(o.logBlocklist, "easywall blocklist: ", nflog);
    var docker := Flat(nets, PerEntry(NetworksOnly, SILENT, [Verdict(Accept)]));
    var blocked := Flat(r.blocklist, PerEntry(ListEntry, lg, [Verdict(Drop)]));
    var allowed := Flat(r.allowlist, PerEntry(ListEntry, SILENT, [Verdict(Accept)]));
    ListWalks(t, NetworksOnly, SILENT, [Verdict(Accept)], Accept, nets, d, p, env);
    ListWalks(t, ListEntry, lg, [Verdict(Drop)], Drop, r.blocklist, d, p, env);
    ListWalks(t, ListEntry, SILENT, [Verdict(Accept)], Accept, r.allowlist, d, p, env);
    ListedMeans(NetworksOnly, nets, p);
    ListedMeans(ListEntry, r.blocklist, p);
    ListedMeans(ListEntry, r.allowlist, p);
    WalkConcat(t, docker, blocked, d, p, env);
    WalkConcat(t, docker + blocked, allowed, d, p, env);
  }

  lemma FeedTests(id: FeedId, f: Family, p: Packet, env: Env)
    ensures Tests(FeedMatch(id, f), p, env, p.fam == f && InFeed(env, id, p.Src()))
  {
    var look := [Load(f, SrcAddr), Lookup(1, FeedSet(id, f))];
    FamilyTests(f, p, env);
    if p.fam == f {
      LoadsTheAddress(p, SrcAddr);
      assert look[1..] == [Lookup(1, FeedSet(id, f))] && look[1..][1..] == [];
      forall regs ensures Run(look, regs, p, env)
        == if InFeed(env, id, p.Src()) then Next(Left(look, regs, p, env)) else Stop
      {
        var r: Regs := regs[1 := p.Src().val];
        assert Run(look[1..], r, p, env) == if InFeed(env, id, p.Src()) then Next(r) else Stop;
      }
    }
    TestsBoth(FamilyIs(f), p.fam == f, look, InFeed(env, id, p.Src()), p, env);
  }

  /** A feed's rules in the input chain, both families. */
  function FeedInput(o: Options, nflog: bool): FeedId -> seq<Rule> {
    (id: FeedId) => FeedRules(id, V4, o, nflog) + FeedRules(id, V6, o, nflog)
  }

  lemma FeedInputWalks(t: Table, ids: seq<FeedId>, o: Options, nflog: bool, d: nat, p: Packet, env: Env)
    ensures Walk(t, Flat(ids, FeedInput(o, nflog)), d, p, env) == Hit(InAnyFeed(env, ids, p.Src()), Dropped)
  {
    var hit := (id: FeedId) => InFeed(env, id, p.Src());
    forall i | 0 <= i < |ids| ensures Walk(t, FeedInput(o, nflog)(ids[i]), d, p, env) == Hit(hit(ids[i]), Dropped) {
      var id := ids[i];
      FeedTests(id, V4, p, env);
      FeedTests(id, V6, p, env);
      LoggedWalks(t, FeedMatch(id, V4), p.fam == V4 && InFeed(env, id, p.Src()), FeedLog(id, o, nflog),
                  [Counter, Verdict(Drop)], Drop, d, p, env);
      LoggedWalks(t, FeedMatch(id, V6), p.fam == V6 && InFeed(env, id, p.Src()), FeedLog(id, o, nflog),
                  [Counter, Verdict(Drop)], Drop, d, p, env);
      WalkConcat(t, FeedRules(id, V4, o, nflog), FeedRules(id, V6, o, nflog), d, p, env);
    }
    FlatWalks(t, ids, FeedInput(o, nflog), hit, Dropped, d, p, env);
  }

  lemma {:induction false} OnlyFeedsMembers(ids: seq<FeedId>, countries: bool)
    ensures forall x :: x in OnlyFeeds(ids, countries) <==> x in ids && x.CountryFeed? == countries
  {
    if ids != [] {
      OnlyFeedsMembers(ids[..|ids| - 1], countries);
      assert ids == ids[..|ids| - 1] + [ids[|ids| - 1]];
    }
  }

  /** The rule order changes which feed gets the credit, not what is refused. */
  lemma FeedOrderKeepsFeeds(ids: seq<FeedId>, env: Env, a: Addr)
    ensures InAnyFeed(env, FeedRuleOrder(ids), a) == InAnyFeed(env, ids, a)
  {
    OnlyFeedsMembers(ids, false);
    OnlyFeedsMembers(ids, true);
    var ordered := FeedRuleOrder(ids);
    assert forall x :: x in ordered <==> x in ids;
    if i :| 0 <= i < |ids| && InFeed(env, ids[i], a) {
      assert ids[i] in ordered;
    }
    if i :| 0 <= i < |ordered| && InFeed(env, ordered[i], a) {
      assert ordered[i] in ids;
    }
  }

  lemma PortAcceptWalks(t: Table, l: L4, r: PortRule, d: nat, p: Packet, env: Env)
    requires r.port.Valid()
    ensures Walk(t, PortAcceptRules(l, r), d, p, env) == Hit(Opens(l, r, p), Accepted)
  {
    var port := p.l4 == Models.Protocol(l) && ToPort(p, r.port);
    if r.sources == [] {
      PortMatchTests(l, r.port, p, env);
      ActWalks(t, PortRuleMatch(l, r.port), port, PORT_TAIL, Accept, d, p, env);
    } else {
      var hit := (e: Entry) => e.Covers(p.Src()) && port;
      forall i | 0 <= i < |r.sources|
        ensures Walk(t, SourceAccept(l, r.port)(r.sources[i]), d, p, env) == Hit(hit(r.sources[i]), Accepted)
      {
        SourceAcceptWalks(t, l, r.port, r.sources[i], d, p, env);
      }
      FlatWalks(t, r.sources, SourceAccept(l, r.port), hit, Accepted, d, p, env);
    }
  }

  lemma SourceAcceptWalks(t: Table, l: L4, s: PortSpec, e: Entry, d: nat, p: Packet, env: Env)
    requires s.Valid()
    ensures Walk(t, SourceAccept(l, s)(e), d, p, env)
            == Hit(e.Covers(p.Src()) && p.l4 == Models.Protocol(l) && ToPort(p, s), Accepted)
  {
    MatchOfTests(Cidr(SrcAddr), e, p, env);
    if Reads(Cidr(SrcAddr), e) {
      SourcedRuleWalks(t, Cidr(SrcAddr), e, l, s, PORT_TAIL, Accept, d, p, env);
    }
  }

  lemma HostPortsWalk(t: Table, l: L4, rules: seq<PortRule>, d: nat, p: Packet, env: Env)
    requires forall i :: 0 <= i < |rules| ==> rules[i].port.Valid()
    ensures Walk(t, Flat(rules, HostPort(l)), d, p, env) == Hit(OpenedBy(l, rules, p), Accepted)
  {
    var hit := (r: PortRule) => r.FiltersHost() && Opens(l, r, p);
    forall i | 0 <= i < |rules| ensures Walk(t, HostPort(l)(rules[i]), d, p, env) == Hit(hit(rules[i]), Accepted) {
      PortAcceptWalks(t, l, rules[i], d, p, env);
    }
    FlatWalks(t, rules, HostPort(l), hit, Accepted, d, p, env);
  }

  lemma EchoWalks(t: Table, o: Options, n: NetworkSettings, d: nat, p: Packet, env: Env)
    ensures Walk(t, EchoRules(o, n), d, p, env)
            == Hit(o.allowEcho && (IsPing(p) || (FiltersIpv6(n) && IsPing6(p))), Accepted)
  {
    TypeAcceptWalks(t, ICMP, 8, d, p, env);
    TypeAcceptWalks(t, ICMPV6, 128, d, p, env);
    WalkConcat(t, if o.allowEcho then TypeAccept(ICMP)(8) else [],
               if o.allowEcho && Ipv6ModeOf(n).Filter? then TypeAccept(ICMPV6)(128) else [], d, p, env);
  }

  lemma {:induction false} CustomWalks(t: Table, lines: seq<CustomLine>, d: nat, p: Packet, env: Env)
    ensures Walk(t, Flat(lines, CustomRule()), d, p, env) == CustomSays(lines, env)
  {
    if lines != [] {
      var front, l := lines[..|lines| - 1], lines[|lines| - 1];
      CustomWalks(t, front, d, p, env);
      WalkConcat(t, Flat(front, CustomRule()), CustomRule()(l), d, p, env);
      if l.Statement? {
        WalkOne(t, [Custom(l.text)], d, p, env);
      }
    }
  }

  lemma FinalLogWalks(t: Table, o: Options, nflog: bool, d: nat, p: Packet, env: Env)
    ensures Walk(t, FinalLog(o, nflog), d, p, env) == Fell
  {
    if o.logBlocked {
      var m: Rule := [];
      assert Tests(m, p, env, true);
      LogWalks(t, m, true, "easywall drop: ", nflog, d, p, env);
      assert m + LogExprs("easywall drop: ", nflog) == LogExprs("easywall drop: ", nflog);
    }
  }

  /** The last part: the custom lines and the log of what the policy drops. */
  lemma PortsWalk(t: Table, r: Rules, c: Config, nflog: bool, d: nat, p: Packet, env: Env)
    requires r.Valid()
    ensures Else(PartFate(t, Ports(r, c), Input, d, p, env),
                 Walk(t, Flat(r.custom, CustomRule()) + FinalLog(c.firewall, nflog), d, p, env))
            == PortsFate(r, c, p, env)
  {
    var echo := EchoRules(c.firewall, c.network);
    var tcp, udp := Flat(r.tcp, HostPort(L4.Tcp)), Flat(r.udp, HostPort(L4.Udp));
    var redirects, custom := Flat(r.forwarding, RedirectRule()), Flat(r.custom, CustomRule());
    var last := FinalLog(c.firewall, nflog);
    EchoWalks(t, c.firewall, c.network, d, p, env);
    HostPortsWalk(t, L4.Tcp, r.tcp, d, p, env);
    HostPortsWalk(t, L4.Udp, r.udp, d, p, env);
    CustomWalks(t, r.custom, d, p, env);
    FinalLogWalks(t, c.firewall, nflog, d, p, env);
    WalkConcat(t, echo, tcp, d, p, env);
    WalkConcat(t, echo + tcp, udp, d, p, env);
    WalkConcat(t, custom, last, d, p, env);
    PartIn(t, Input, echo + tcp + udp, Input, d, p, env);
    PartIn(t, Prerouting, redirects, Input, d, p, env);
    PartConcat(t, In(Input, echo + tcp + udp), In(Prerouting, redirects), Input, d, p, env);
  }
}
