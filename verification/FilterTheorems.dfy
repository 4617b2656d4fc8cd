/** What the compiled table means, and what that says about the protection modules. */
module FilterTheorems {
  import opened Addresses
  import opened Models
  import opened Netfilter
  import opened Matches
  import opened Compiler
  import opened Meaning
  import opened Stages
  import opened InputProof
  import opened Layout
  import opened ForwardProof

  // ---- the module chains of the whole table ----

  lemma FrontSides(r: Rules, c: Config, bridges: seq<Entry>, nflog: bool, d: nat, p: Packet, env: Env)
    ensures var t, o := Compiled(r, c, bridges, nflog), c.firewall;
            && (o.icmpFlood ==> PartFate(t, t, IcmpFloodOver, d, p, env) == Dropped)
            && (o.rstFlood ==> PartFate(t, t, TcpRstOver, d, p, env) == Dropped)
  {
    var t := Compiled(r, c, bridges, nflog);
    ModuleChain(r, c, bridges, nflog, IcmpFloodOver, d, p, env);
    ModuleChain(r, c, bridges, nflog, TcpRstOver, d, p, env);
    FrontChains(t, c, nflog, d, p, env);
  }

  lemma FirstSides(r: Rules, c: Config, bridges: seq<Entry>, nflog: bool, d: nat, p: Packet, env: Env)
    ensures var t, o := Compiled(r, c, bridges, nflog), c.firewall;
            && (o.portScan ==> PartFate(t, t, PortScan, d, p, env) == Dropped)
            && (o.synFlood ==> PartFate(t, t, SynFloodOver, d, p, env) == Dropped)
            && PartFate(t, t, Fragments, d, p, env) == Walk(t, FragmentRules(o, nflog), d, p, env)
  {
    var t, nets, o := Compiled(r, c, bridges, nflog), ContainerNetworks(c.network, bridges), c.firewall;
    ModuleChain(r, c, bridges, nflog, PortScan, d, p, env);
    ModuleChain(r, c, bridges, nflog, SynFloodOver, d, p, env);
    ModuleChain(r, c, bridges, nflog, Fragments, d, p, env);
    FrontAbsent(t, c, nflog, PortScan, d, p, env);
    FrontAbsent(t, c, nflog, SynFloodOver, d, p, env);
    FrontAbsent(t, c, nflog, Fragments, d, p, env);
    LastAbsent(t, r, o, nets, nflog, Fragments, d, p, env);
    FirstChains(t, o, nflog, d, p, env);
  }

  lemma LastSides(r: Rules, c: Config, bridges: seq<Entry>, nflog: bool, at: Chain, d: nat, p: Packet, env: Env)
    requires at == Bogon || at == SshBrute || at == SshBruteOver
    ensures var t, o := Compiled(r, c, bridges, nflog), c.firewall;
            PartFate(t, t, at, d, p, env)
            == PartFate(t, LastModules(r, o, ContainerNetworks(c.network, bridges), nflog), at, d, p, env)
  {
    var t, o := Compiled(r, c, bridges, nflog), c.firewall;
    ModuleChain(r, c, bridges, nflog, at, d, p, env);
    FrontAbsent(t, c, nflog, at, d, p, env);
    FirstAbsent(t, o, nflog, at, d, p, env);
  }

  lemma BogonSide(r: Rules, c: Config, bridges: seq<Entry>, nflog: bool, d: nat, p: Packet, env: Env)
    requires r.Valid() && c.firewall.bogons
    ensures BogonsSettled(Compiled(r, c, bridges, nflog), r, c.firewall, ContainerNetworks(c.network, bridges), d, p,
                          env)
  {
    var t, nets, o := Compiled(r, c, bridges, nflog), ContainerNetworks(c.network, bridges), c.firewall;
    if p.fam.V4? {
      LastSides(r, c, bridges, nflog, Bogon, d, p, env);
      LastChains(t, r, o, nets, nflog, d, p, env);
      BogonChainWalks(t, r, o, nets, nflog, d, p, env);
    }
  }

  lemma SshSides(r: Rules, c: Config, bridges: seq<Entry>, nflog: bool, d: nat, p: Packet, env: Env)
    requires d > 1 && c.firewall.sshBruteForce
    ensures SshChains(Compiled(r, c, bridges, nflog), d, p, env)
  {
    SshOverSide(r, c, bridges, nflog, d - 2, p, env);
    SshBruteSide(r, c, bridges, nflog, d - 1, p, env);
  }

  lemma SshOverSide(r: Rules, c: Config, bridges: seq<Entry>, nflog: bool, d: nat, p: Packet, env: Env)
    requires c.firewall.sshBruteForce
    ensures var t := Compiled(r, c, bridges, nflog); PartFate(t, t, SshBruteOver, d, p, env) == Dropped
  {
    LastSides(r, c, bridges, nflog, SshBruteOver, d, p, env);
    LastChains(Compiled(r, c, bridges, nflog), r, c.firewall, ContainerNetworks(c.network, bridges), nflog, d, p, env);
  }

  lemma SshBruteSide(r: Rules, c: Config, bridges: seq<Entry>, nflog: bool, d: nat, p: Packet, env: Env)
    requires c.firewall.sshBruteForce
    ensures var t := Compiled(r, c, bridges, nflog);
            PartFate(t, t, SshBrute, d, p, env) == SshFate(t, d, p, env)
  {
    LastSides(r, c, bridges, nflog, SshBrute, d, p, env);
    LastChains(Compiled(r, c, bridges, nflog), r, c.firewall, ContainerNetworks(c.network, bridges), nflog, d, p, env);
  }

  lemma ModulesWalk(r: Rules, c: Config, bridges: seq<Entry>, nflog: bool, d: nat, p: Packet, env: Env)
    requires r.Valid() && d > 1
    ensures var t, nets, o := Compiled(r, c, bridges, nflog), ContainerNetworks(c.network, bridges), c.firewall;
            Else(PartFate(t, FirstModules(o, nflog), Input, d, p, env),
                 PartFate(t, LastModules(r, o, nets, nflog), Input, d, p, env))
            == ModulesFate(r, o, nets, p, env)
  {
    var t, nets, o := Compiled(r, c, bridges, nflog), ContainerNetworks(c.network, bridges), c.firewall;
    FirstSides(r, c, bridges, nflog, d - 1, p, env);
    FirstModulesWalk(t, o, nflog, d, p, env);
    if o.bogons {
      BogonSide(r, c, bridges, nflog, d - 1, p, env);
    }
    if o.sshBruteForce {
      SshSides(r, c, bridges, nflog, d, p, env);
    }
    LastModulesWalk(t, r, o, nets, nflog, d, p, env);
  }

  lemma FrontPart(r: Rules, c: Config, bridges: seq<Entry>, nflog: bool, d: nat, p: Packet, env: Env)
    requires d > 0
    ensures PartFate(Compiled(r, c, bridges, nflog), Front(c, nflog), Input, d, p, env) == FrontFate(c, p, env)
  {
    var t := Compiled(r, c, bridges, nflog);
    FrontSides(r, c, bridges, nflog, d - 1, p, env);
    FrontWalks(t, c, nflog, d, p, env);
  }

  lemma ListsWalk(t: Table, r: Rules, o: Options, nets: seq<Entry>, lists: bool, nflog: bool, d: nat, p: Packet,
                  env: Env)
    ensures Else(PartFate(t, In(Input, ListRules(r, o, nets, nflog)), Input, d, p, env),
                 PartFate(t, Feeds(FeedRuleOrder(r.feeds), o, lists, nflog), Input, d, p, env))
            == ListsFate(r, nets, p, env)
  {
    var ids := FeedRuleOrder(r.feeds);
    ListRulesWalk(t, r, o, nets, nflog, d, p, env);
    PartIn(t, Input, ListRules(r, o, nets, nflog), Input, d, p, env);
    SelectFeedsInput(ids, o, lists, nflog);
    FeedInputWalks(t, ids, o, nflog, d, p, env);
    FeedOrderKeepsFeeds(r.feeds, env, p.Src());
  }

  /**
   The compiler preserves meaning: for every rule set, configuration, packet and kernel state the
   compiled input chain walks to exactly the fate the stages give.
   */
  lemma InputWalks(r: Rules, c: Config, bridges: seq<Entry>, nflog: bool, p: Packet, env: Env)
    requires r.Valid()
    ensures var t := Compiled(r, c, bridges, nflog);
            PartFate(t, t, Input, JUMP_STACK, p, env) == InputFate(r, c, bridges, p, env)
  {
    var t, nets, o := Compiled(r, c, bridges, nflog), ContainerNetworks(c.network, bridges), c.firewall;
    var d := JUMP_STACK;
    CompiledSplits(r, c, bridges, nflog, Input, d, p, env);
    FrontPart(r, c, bridges, nflog, d, p, env);
    ForwardAbsent(t, r, c.network, nets, Input, d, p, env);
    ModulesWalk(r, c, bridges, nflog, d, p, env);
    ListsWalk(t, r, o, nets, HasLists(r, c.network, nets), nflog, d, p, env);
    PortsWalk(t, r, c, nflog, d, p, env);
    PartIn(t, Input, Flat(r.custom, CustomRule()) + FinalLog(o, nflog), Input, d, p, env);
  }

  /** ... and the hook admits a packet exactly when some stage does: the policy drops the rest. */
  lemma InputMeans(r: Rules, c: Config, bridges: seq<Entry>, nflog: bool, p: Packet, env: Env)
    requires r.Valid()
    ensures Admitted(Compiled(r, c, bridges, nflog), Input, false, p, env)
            <==> InputFate(r, c, bridges, p, env).Accepted?
  {
    InputWalks(r, c, bridges, nflog, p, env);
  }

  // ---- the protection modules ----

  /** The same configuration, with any log switched on or off. */
  predicate SameButLogs(a: Options, b: Options) {
    b == a.(sshLog := b.sshLog, icmpLog := b.icmpLog, synLog := b.synLog, portScanLog := b.portScanLog,
            invalidLog := b.invalidLog, fragmentsLog := b.fragmentsLog, bogonsLog := b.bogonsLog, rstLog := b.rstLog,
            logBlocked := b.logBlocked, logBlocklist := b.logBlocklist, logFeed := b.logFeed)
  }

  /** `more` switches on every drop module `less` does; the two differ in nothing that admits. */
  predicate OnlyMoreModules(less: Options, more: Options) {
    && less.allowEcho == more.allowEcho && less.bogonRanges == more.bogonRanges
    && (less.icmpFlood ==> more.icmpFlood) && (less.rstFlood ==> more.rstFlood) && (less.portScan ==> more.portScan)
    && (less.synFlood ==> more.synFlood) && (less.invalid ==> more.invalid) && (less.bogons ==> more.bogons)
    && (less.sshBruteForce ==> more.sshBruteForce) && (less.connectionLimit ==> more.connectionLimit)
    && (less.dropBroadcast ==> more.dropBroadcast) && (less.dropMulticast ==> more.dropMulticast)
    && (less.dropAnycast ==> more.dropAnycast)
  }

  lemma MoreModulesMean(r: Rules, c: Config, more: Options, bridges: seq<Entry>, p: Packet, env: Env)
    requires OnlyMoreModules(c.firewall, more) && InputFate(r, c.(firewall := more), bridges, p, env).Accepted?
    ensures InputFate(r, c, bridges, p, env).Accepted?
  {
    var c', nets := c.(firewall := more), ContainerNetworks(c.network, bridges);
    assert FrontFate(c', p, env).Accepted? ==> FrontFate(c, p, env).Accepted?;
    assert FrontFate(c', p, env).Fell? ==> FrontFate(c, p, env).Fell?;
    assert ModulesFate(r, more, nets, p, env).Fell? ==> ModulesFate(r, c.firewall, nets, p, env).Fell?;
    assert PortsFate(r, c', p, env) == PortsFate(r, c, p, env);
  }

  lemma LogsMeanNothing(r: Rules, c: Config, o: Options, bridges: seq<Entry>, p: Packet, env: Env)
    requires SameButLogs(c.firewall, o)
    ensures InputFate(r, c.(firewall := o), bridges, p, env) == InputFate(r, c, bridges, p, env)
  {
    var c', nets := c.(firewall := o), ContainerNetworks(c.network, bridges);
    assert FrontFate(c', p, env) == FrontFate(c, p, env);
    assert ModulesFate(r, o, nets, p, env) == ModulesFate(r, c.firewall, nets, p, env);
    assert PortsFate(r, c', p, env) == PortsFate(r, c, p, env);
  }

  lemma SwitchKeepsTheEnds(r: Rules, c: Config, on: bool, p: Packet, env: Env)
    ensures FrontFate(c.(firewall := c.firewall.(bogons := on)), p, env) == FrontFate(c, p, env)
    ensures PortsFate(r, c.(firewall := c.firewall.(bogons := on)), p, env) == PortsFate(r, c, p, env)
  {
  }

  lemma SwitchKeepsTheModules(r: Rules, o: Options, on: bool, p: Packet, env: Env)
    ensures RefusedFirst(o.(bogons := on), p, env) == RefusedFirst(o, p, env)
    ensures RefusedLast(r, o.(bogons := on), p, env) == RefusedLast(r, o, p, env)
    ensures IsBogon(o.(bogons := on), p) == IsBogon(o, p)
  {
  }

  /** The input stages with the bogon switch set to `on` and everything else as it is. */
  lemma BogonSwitch(r: Rules, c: Config, on: bool, bridges: seq<Entry>, p: Packet, env: Env)
    ensures var o, nets := c.firewall, ContainerNetworks(c.network, bridges);
            InputFate(r, c.(firewall := o.(bogons := on)), bridges, p, env)
            == Else(FrontFate(c, p, env),
               Else(Hit(|| RefusedFirst(o, p, env) || RefusedLast(r, o, p, env)
                        || (on && IsBogon(o, p) && !BogonExempt(r, nets, p)), Dropped),
               Else(ListsFate(r, nets, p, env), PortsFate(r, c, p, env))))
  {
    var o, nets := c.firewall, ContainerNetworks(c.network, bridges);
    SwitchKeepsTheEnds(r, c, on, p, env);
    SwitchKeepsTheModules(r, o, on, p, env);
    var o' := o.(bogons := on);
    assert ModulesFate(r, o', nets, p, env)
        == Hit(|| RefusedFirst(o', p, env) || RefusedLast(r, o', p, env)
               || (on && IsBogon(o', p) && !BogonExempt(r, nets, p)), Dropped);
  }

  /** Switching protection modules on never turns a drop into an accept, whatever is logged where. */
  lemma ModulesOnlyRemove(r: Rules, c: Config, more: Options, bridges: seq<Entry>, nflog: bool, nflog': bool,
                          p: Packet, env: Env)
    requires r.Valid() && OnlyMoreModules(c.firewall, more)
    requires Admitted(Compiled(r, c.(firewall := more), bridges, nflog'), Input, false, p, env)
    ensures Admitted(Compiled(r, c, bridges, nflog), Input, false, p, env)
  {
    InputMeans(r, c, bridges, nflog, p, env);
    InputMeans(r, c.(firewall := more), bridges, nflog', p, env);
    MoreModulesMean(r, c, more, bridges, p, env);
  }

  /** No log option and no log sink changes a verdict. */
  lemma LogsDecideNothing(r: Rules, c: Config, o: Options, bridges: seq<Entry>, nflog: bool, nflog': bool,
                          p: Packet, env: Env)
    requires r.Valid() && SameButLogs(c.firewall, o)
    ensures Admitted(Compiled(r, c, bridges, nflog), Input, false, p, env)
            <==> Admitted(Compiled(r, c.(firewall := o), bridges, nflog'), Input, false, p, env)
  {
    InputMeans(r, c, bridges, nflog, p, env);
    InputMeans(r, c.(firewall := o), bridges, nflog', p, env);
    LogsMeanNothing(r, c, o, bridges, p, env);
  }

  /**
   The bogon filter takes away exactly the packets that reach it from a bogon source the operator
   has not spoken for, by the allowlist, a container network or a rule naming source and port.
   */
  lemma BogonFilterTakes(r: Rules, c: Config, bridges: seq<Entry>, nflog: bool, p: Packet, env: Env)
    requires r.Valid()
    ensures var off, on := c.(firewall := c.firewall.(bogons := false)), c.(firewall := c.firewall.(bogons := true));
            Admitted(Compiled(r, on, bridges, nflog), Input, false, p, env)
            <==> && Admitted(Compiled(r, off, bridges, nflog), Input, false, p, env)
                 && !(&& FrontFate(c, p, env).Fell? && IsBogon(c.firewall, p)
                      && !BogonExempt(r, ContainerNetworks(c.network, bridges), p))
  {
    InputMeans(r, c.(firewall := c.firewall.(bogons := false)), bridges, nflog, p, env);
    InputMeans(r, c.(firewall := c.firewall.(bogons := true)), bridges, nflog, p, env);
    BogonSwitch(r, c, false, bridges, p, env);
    BogonSwitch(r, c, true, bridges, p, env);
  }

  /** The fragment drop, in its own base chain ahead of reassembly. */
  predicate IsFragmentForUs(p: Packet) {
    && p.fam.V4? && !OnLoopback(p) && p.daddrType == 2
    && And(BigEndian(p.network[6..8]), 0x3fff) != 0
  }

  lemma FragmentsMean(r: Rules, c: Config, bridges: seq<Entry>, nflog: bool, p: Packet, env: Env)
    ensures Admitted(Compiled(r, c, bridges, nflog), Fragments, true, p, env)
            <==> !(c.firewall.fragments && IsFragmentForUs(p))
  {
    var t, o := Compiled(r, c, bridges, nflog), c.firewall;
    FirstSides(r, c, bridges, nflog, JUMP_STACK, p, env);
    if o.fragments {
      FragmentTests(p, env);
      LoggedWalks(t, FragmentMatch(), IsFragmentForUs(p), LogSpec(o.fragmentsLog, "easywall fragment: ", nflog),
                  [Verdict(Drop)], Drop, JUMP_STACK, p, env);
    }
  }

  lemma FragmentTests(p: Packet, env: Env)
    ensures Tests(FragmentMatch(), p, env, IsFragmentForUs(p))
  {
    var bits := MaskCompare(Payload(Network, 6, 2, 1), 2, 0x3fff, Neq, 0);
    var frag := And(BigEndian(p.network[6..8]), 0x3fff) != 0;
    FamilyTests(V4, p, env);
    InterfaceTests(Neq, p, env);
    MaskCompareTests(Payload(Network, 6, 2, 1), 2, 0x3fff, Neq, 0, p, env);
    CompareTests(FibDaddrType(1), Eq, 2, p, env);
    TwoTests(FamilyIs(V4), p.fam.V4?, Interface(Neq), !OnLoopback(p), p, env);
    TwoTests(FamilyIs(V4) + Interface(Neq), p.fam.V4? && !OnLoopback(p), bits, frag, p, env);
    TwoTests(FamilyIs(V4) + Interface(Neq) + bits, p.fam.V4? && !OnLoopback(p) && frag,
             DaddrTypeIs(2), p.daddrType == 2, p, env);
  }

  // ---- the forward chain ----

  /** The forward hook, whose policy is the routing mode's. */
  predicate Forwards(r: Rules, c: Config, bridges: seq<Entry>, nflog: bool, p: Packet, env: Env) {
    Admitted(Compiled(r, c, bridges, nflog), Forward, ForwardPolicy(c.network), p, env)
  }

  lemma ForwardMeans(r: Rules, c: Config, bridges: seq<Entry>, nflog: bool, p: Packet, env: Env)
    requires r.Valid()
    ensures var f := ForwardFate(r, c.network, ContainerNetworks(c.network, bridges), p, env);
            Forwards(r, c, bridges, nflog, p, env) <==> f.Accepted? || (f.Fell? && RoutesAll(c.network))
  {
    ForwardWalks(r, c, bridges, nflog, p, env);
    ForwardNeverReturns(r, c.network, ContainerNetworks(c.network, bridges), p, env);
    HookDecides(Compiled(r, c, bridges, nflog), Forward, ForwardPolicy(c.network), p, env);
  }

  lemma HookDecides(t: Table, c: Chain, policy: bool, p: Packet, env: Env)
    ensures var f := PartFate(t, t, c, JUMP_STACK, p, env);
            Admitted(t, c, policy, p, env) == (f.Accepted? || ((f.Fell? || f.Returned?) && policy))
  {
  }

  lemma ForwardNeverReturns(r: Rules, n: NetworkSettings, nets: seq<Entry>, p: Packet, env: Env)
    ensures !ForwardFate(r, n, nets, p, env).Returned?
  {
  }

  /**
   Published ports under `filtered`, in every routing mode: a new packet into a container network from
   outside it crosses exactly when no list names its source and a forwarded rule names its protocol,
   port and source.
   */
  lemma PublishedPortsNeedARule(r: Rules, c: Config, bridges: seq<Entry>, nflog: bool, i: nat, p: Packet, env: Env)
    requires r.Valid() && c.network.docker.filtersPublishedPorts && !Established(p)
    requires var nets := ContainerNetworks(c.network, bridges);
             i < |nets| && nets[i].Net? && nets[i].Covers(p.Dst()) && !nets[i].Covers(p.Src())
    ensures var nets, blocked := ContainerNetworks(c.network, bridges), BlocksIpv6(c.network);
            Forwards(r, c, bridges, nflog, p, env)
            <==> && !ListedForward(r, nets, p, env)
                 && (NamedForward(L4.Tcp, r.tcp, blocked, p) || NamedForward(L4.Udp, r.udp, blocked, p))
  {
    ForwardMeans(r, c, bridges, nflog, p, env);
    PublishedFate(r, c.network, ContainerNetworks(c.network, bridges), i, p, env);
  }

  /** Some rule for forwarded traffic names protocol, port and source, or leaves the source open. */
  predicate NamedForward(l: L4, rules: seq<PortRule>, blocked: bool, p: Packet) {
    && Speaks(p, l)
    && exists i :: 0 <= i < |rules| && ForTheForwarded(rules[i]) && ToPort(p, rules[i].port)
                   && (rules[i].sources == [] || (AnyCovers(rules[i].sources, p.Src()) && !(p.fam.V6? && blocked)))
  }

  lemma NamedIsOpened(l: L4, rules: seq<PortRule>, blocked: bool, nets: seq<Entry>, p: Packet)
    requires HasFamily(nets, p.fam)
    ensures OpenedForward(l, rules, blocked, nets, p) == NamedForward(l, rules, blocked, p)
  {
    if i :| 0 <= i < |rules| && OpensForward(l, rules[i], blocked, nets, p) {
      assert NamedForward(l, rules, blocked, p);
    }
    if NamedForward(l, rules, blocked, p) {
      var i :| && 0 <= i < |rules| && ForTheForwarded(rules[i]) && ToPort(p, rules[i].port)
               && (rules[i].sources == [] || (AnyCovers(rules[i].sources, p.Src()) && !(p.fam.V6? && blocked)));
      assert OpensForward(l, rules[i], blocked, nets, p);
    }
  }

  lemma PublishedFate(r: Rules, n: NetworkSettings, nets: seq<Entry>, i: nat, p: Packet, env: Env)
    requires n.docker.filtersPublishedPorts && !Established(p)
    requires i < |nets| && nets[i].Net? && nets[i].Covers(p.Dst()) && !nets[i].Covers(p.Src())
    ensures var f, blocked := ForwardFate(r, n, nets, p, env), BlocksIpv6(n);
            && !f.Fell?
            && (f.Accepted?
                <==> && !ListedForward(r, nets, p, env)
                     && (NamedForward(L4.Tcp, r.tcp, blocked, p) || NamedForward(L4.Udp, r.udp, blocked, p)))
  {
    assert HasFamily(nets, p.fam);
    NamedIsOpened(L4.Tcp, r.tcp, BlocksIpv6(n), nets, p);
    NamedIsOpened(L4.Udp, r.udp, BlocksIpv6(n), nets, p);
    assert AnyCovers(nets, p.Dst()) && Intrudes(nets, p);
  }

  /** The container networks the builder goes by are exactly those the settings and the detection name. */
  lemma NetworksAre(n: NetworkSettings, bridges: seq<Entry>, e: Entry)
    ensures e in ContainerNetworks(n, bridges) <==> IsContainerNetwork(n, bridges, e)
  {
    var all := (if n.docker.allowBridges then bridges else []) + n.docker.custom;
    KeptWithoutIpv6(all, e);
  }

  lemma {:induction false} KeptWithoutIpv6(es: seq<Entry>, e: Entry)
    ensures e in WithoutIpv6(es) <==> e in es && !(e.Net? && e.net.addr.fam.V6?)
  {
    if es != [] {
      KeptWithoutIpv6(es[..|es| - 1], e);
      assert es == es[..|es| - 1] + [es[|es| - 1]];
    }
  }

  lemma {:induction false} OnlyKeeps(ids: seq<FeedId>)
    ensures multiset(OnlyFeeds(ids, false)) + multiset(OnlyFeeds(ids, true)) == multiset(ids)
  {
    if ids != [] {
      var front, id := ids[..|ids| - 1], ids[|ids| - 1];
      var lists, countries := OnlyFeeds(front, false), OnlyFeeds(front, true);
      OnlyKeeps(front);
      assert ids == front + [id];
      if id.CountryFeed? {
        assert OnlyFeeds(ids, false) == lists && OnlyFeeds(ids, true) == countries + [id];
      } else {
        assert OnlyFeeds(ids, false) == lists + [id] && OnlyFeeds(ids, true) == countries;
      }
    }
  }

  lemma {:induction false} OnlyIs(ids: seq<FeedId>, countries: bool)
    ensures forall i :: 0 <= i < |OnlyFeeds(ids, countries)| ==> OnlyFeeds(ids, countries)[i].CountryFeed? == countries
  {
    if ids != [] {
      OnlyIs(ids[..|ids| - 1], countries);
    }
  }

  /** The rule order of the feeds: each one once for every time it is enabled, and no list after a country. */
  lemma FeedOrderIs(ids: seq<FeedId>)
    ensures var order := FeedRuleOrder(ids);
            && multiset(order) == multiset(ids)
            && forall i, j :: 0 <= i < j < |order| && order[j].ListFeed? ==> order[i].ListFeed?
  {
    OnlyKeeps(ids);
    OnlyIs(ids, false);
    OnlyIs(ids, true);
  }

  /**
   A routing mode that is not set, or closed: a new packet neither from nor to a container network crosses exactly
   when published ports are filtered, no list names its source and a forwarded rule names protocol, port and source.
   */
  lemma ClosedUnlessSaid(r: Rules, c: Config, bridges: seq<Entry>, nflog: bool, p: Packet, env: Env)
    requires r.Valid() && (c.network.routing.mode == None || c.network.routing.mode == Some(Closed)) && !Established(p)
    requires var nets := ContainerNetworks(c.network, bridges); !AnyCovers(nets, p.Src()) && !AnyCovers(nets, p.Dst())
    ensures var n, nets, blocked := c.network, ContainerNetworks(c.network, bridges), BlocksIpv6(c.network);
            Forwards(r, c, bridges, nflog, p, env)
            <==> && n.docker.filtersPublishedPorts && (HasFamily(nets, V4) || HasFamily(nets, V6))
                 && !ListedForward(r, nets, p, env)
                 && (OpenedForward(L4.Tcp, r.tcp, blocked, nets, p) || OpenedForward(L4.Udp, r.udp, blocked, nets, p))
  {
    ForwardMeans(r, c, bridges, nflog, p, env);
    ClosedFate(r, c.network, ContainerNetworks(c.network, bridges), p, env);
    PublishedHaveAFamily(c.network, ContainerNetworks(c.network, bridges));
  }

  lemma ClosedFate(r: Rules, n: NetworkSettings, nets: seq<Entry>, p: Packet, env: Env)
    requires !RoutesAll(n) && !RoutesNamed(n) && !Established(p)
    requires !AnyCovers(nets, p.Src()) && !AnyCovers(nets, p.Dst())
    ensures var blocked := BlocksIpv6(n);
            ForwardFate(r, n, nets, p, env).Accepted?
            <==> && FiltersPublished(n, nets) && !ListedForward(r, nets, p, env)
                 && (OpenedForward(L4.Tcp, r.tcp, blocked, nets, p) || OpenedForward(L4.Udp, r.udp, blocked, nets, p))
  {
  }

  lemma PublishedHaveAFamily(n: NetworkSettings, nets: seq<Entry>)
    ensures FiltersPublished(n, nets)
            <==> n.docker.filtersPublishedPorts && (HasFamily(nets, V4) || HasFamily(nets, V6))
  {
    if i :| 0 <= i < |nets| && nets[i].Net? {
      assert HasFamily(nets, nets[i].net.addr.fam);
    }
  }

  /** The rules that name their sources. */
  function WithSources(rules: seq<PortRule>): seq<PortRule> {
    if rules == [] then []
    else
      var last := rules[|rules| - 1];
      WithSources(rules[..|rules| - 1]) + if last.sources != [] then [last] else []
  }

  function Sourced(r: Rules): Rules { r.(tcp := WithSources(r.tcp), udp := WithSources(r.udp)) }

  lemma {:induction false} SourcedRules(rules: seq<PortRule>, r: PortRule)
    ensures r in WithSources(rules) <==> r in rules && r.sources != []
  {
    if rules != [] {
      SourcedRules(rules[..|rules| - 1], r);
      assert rules == rules[..|rules| - 1] + [rules[|rules| - 1]];
    }
  }

  lemma SourcelessOpenNothing(l: L4, rules: seq<PortRule>, blocked: bool, nets: seq<Entry>, p: Packet)
    requires !HasFamily(nets, p.fam)
    ensures OpenedForward(l, rules, blocked, nets, p) <==> OpenedForward(l, WithSources(rules), blocked, nets, p)
  {
    var sourced := WithSources(rules);
    if i :| 0 <= i < |rules| && OpensForward(l, rules[i], blocked, nets, p) {
      SourcedRules(rules, rules[i]);
      var j :| 0 <= j < |sourced| && sourced[j] == rules[i];
    }
    if j :| 0 <= j < |sourced| && OpensForward(l, sourced[j], blocked, nets, p) {
      SourcedRules(rules, sourced[j]);
      var i :| 0 <= i < |rules| && rules[i] == sourced[j];
    }
  }

  /**
   A rule without sources opens nothing in a family that has no container network: the forward hook treats every
   packet of that family as if such rules were not there.
   */
  lemma SourcelessNeedsANetwork(r: Rules, c: Config, bridges: seq<Entry>, nflog: bool, p: Packet, env: Env)
    requires r.Valid() && !HasFamily(ContainerNetworks(c.network, bridges), p.fam)
    ensures Forwards(r, c, bridges, nflog, p, env) <==> Forwards(Sourced(r), c, bridges, nflog, p, env)
  {
    var sourced := Sourced(r);
    SourcedIsValid(r);
    ForwardMeans(r, c, bridges, nflog, p, env);
    ForwardMeans(sourced, c, bridges, nflog, p, env);
    SourcedFate(r, c.network, ContainerNetworks(c.network, bridges), p, env);
  }

  lemma SourcedFate(r: Rules, n: NetworkSettings, nets: seq<Entry>, p: Packet, env: Env)
    requires !HasFamily(nets, p.fam)
    ensures ForwardFate(Sourced(r), n, nets, p, env) == ForwardFate(r, n, nets, p, env)
  {
    SourcelessOpenNothing(L4.Tcp, r.tcp, BlocksIpv6(n), nets, p);
    SourcelessOpenNothing(L4.Udp, r.udp, BlocksIpv6(n), nets, p);
  }

  lemma SourcedIsValid(r: Rules)
    requires r.Valid()
    ensures Sourced(r).Valid()
  {
    var s := Sourced(r);
    forall i | 0 <= i < |s.tcp| ensures s.tcp[i].port.Valid() {
      StillThere(r.tcp, i);
    }
    forall i | 0 <= i < |s.udp| ensures s.udp[i].port.Valid() {
      StillThere(r.udp, i);
    }
  }

  lemma StillThere(rules: seq<PortRule>, i: nat)
    requires i < |WithSources(rules)|
    ensures exists k :: 0 <= k < |rules| && rules[k] == WithSources(rules)[i]
  {
    SourcedRules(rules, WithSources(rules)[i]);
  }

  /** Replies cross before any deny; and a chain with nothing to render leaves it to the policy. */
  lemma RepliesCrossFirst(r: Rules, c: Config, bridges: seq<Entry>, nflog: bool, p: Packet, env: Env)
    requires r.Valid()
    ensures var renders := SaysAnything(c.network, ContainerNetworks(c.network, bridges));
            && (renders && Established(p) ==> Forwards(r, c, bridges, nflog, p, env))
            && (!renders ==> (Forwards(r, c, bridges, nflog, p, env) <==> RoutesAll(c.network)))
  {
    ForwardMeans(r, c, bridges, nflog, p, env);
  }
}
