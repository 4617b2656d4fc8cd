/** ApplyWithFeeds: rules, options and network settings compiled to the rules of every chain. */
module Compiler {
  import opened Addresses
  import opened Models
  import opened Netfilter
  import opened Matches

  // ---- small pieces every builder shares ----

  /** The rules of every item of a list, one item after the other. */
  function Flat<T>(items: seq<T>, f: T -> seq<Rule>): seq<Rule> {
    if items == [] then [] else Flat(items[..|items| - 1], f) + f(items[|items| - 1])
  }

  function LogExprs(prefix: string, nflog: bool): Rule { [Limit(prefix), Log(prefix, nflog)] }

  /** Where a log goes, if the switch for it is on. */
  datatype LogSpec = LogSpec(on: bool, prefix: string, nflog: bool)

  const SILENT := LogSpec(false, "", false)

  /** addLogged: a log rule that falls through, then the same match with what it does. */
  function Logged(m: Rule, lg: LogSpec, tail: Rule): seq<Rule> {
    (if lg.on then [m + LogExprs(lg.prefix, lg.nflog)] else []) + [m + tail]
  }

  /** The rules an address list becomes, entry by entry. */
  function PerEntry(r: Reader, lg: LogSpec, tail: Rule): Entry -> seq<Rule> {
    (e: Entry) => if MatchOf(r, e).Some? then Logged(MatchOf(r, e).value, lg, tail) else []
  }

  // ---- the front of the input chain ----

  function Ipv6ModeOf(n: NetworkSettings): Ipv6Mode {
    if n.ipv6.mode.Some? then n.ipv6.mode.value else Filter
  }

  function RoutingModeOf(n: NetworkSettings): RoutingMode {
    if n.routing.mode.Some? then n.routing.mode.value else Closed
  }

  /** The forward chain's policy: accept under open routing, drop otherwise. */
  predicate ForwardPolicy(n: NetworkSettings) { RoutingModeOf(n).Open? }

  const LOOPBACK: seq<Rule> := [Interface(Eq) + [Verdict(Accept)]]

  function FamilyVerdict(mode: Ipv6Mode): seq<Rule> {
    match mode
    case Passthrough => [FamilyIs(V6) + [Verdict(Accept)]]
    case Block => [FamilyIs(V6) + [Verdict(Drop)]]
    case Filter => []
  }

  /** What a rate cap looks at before it looks at the source. */
  datatype Watch = Syns | Echoes | Resets | Anything

  function WatchMatch(w: Watch, f: Family): Rule {
    match w
    case Syns => L4Is(TCP) + FlagsAre(0x17, 0x02)
    case Echoes => if f.V4? then L4Is(ICMP) + TypeIs(8) else L4Is(ICMPV6) + TypeIs(128)
    case Resets => L4Is(TCP) + FlagsAre(0x04, 0x04)
    case Anything => []
  }

  function MeterTail(m: Meter, f: Family, k: Kind): Rule {
    [Load(f, SrcAddr), Dynset(1, m, f), Verdict(k)]
  }

  /** addPerSourceRateLimit: one rule per family, since the address key differs. */
  function RateRule(w: Watch, m: Meter, target: Chain, f: Family): Rule {
    FamilyIs(f) + WatchMatch(w, f) + MeterTail(m, f, Jump(target))
  }

  function RateLimited(w: Watch, m: Meter, target: Chain): seq<Rule> {
    [RateRule(w, m, target, V4), RateRule(w, m, target, V6)]
  }

  /** addOverRateChain. */
  function OverRate(lg: LogSpec): seq<Rule> {
    (if lg.on then [LogExprs(lg.prefix, lg.nflog)] else []) + [[Verdict(Drop)]]
  }

  const ESTABLISHED: seq<Rule> := [CtAny(0x06) + [Counter, Verdict(Accept)]]

  function TypeAccept(proto: nat): nat -> seq<Rule> {
    (t: nat) => [L4Is(proto) + TypeIs(t) + [Verdict(Accept)]]
  }

  /** ICMPv6Accepted without the echo half. */
  function Discovery(c: Ipv6Config): seq<nat> {
    (if c.routerAdverts then [133, 134] else []) + (if c.neighborAdverts then [135, 136] else [])
  }

  function DiscoveryRules(n: NetworkSettings): seq<Rule> {
    if Ipv6ModeOf(n).Filter? then Flat(Discovery(n.ipv6), TypeAccept(ICMPV6)) else []
  }

  function IcmpFlood(o: Options, nflog: bool): Table {
    if !o.icmpFlood then []
    else (
      In(IcmpFloodOver, OverRate(LogSpec(o.icmpLog, "easywall icmp-flood: ", nflog)))
      + In(Input, RateLimited(Echoes, IcmpFloodMeter, IcmpFloodOver)))
  }

  function RstFlood(o: Options, nflog: bool): Table {
    if !o.rstFlood then []
    else (
      In(TcpRstOver, OverRate(LogSpec(o.rstLog, "easywall tcp-rst: ", nflog)))
      + In(Input, RateLimited(Resets, TcpRstMeter, TcpRstOver)))
  }

  function Front(c: Config, nflog: bool): Table {
    In(Input, LOOPBACK + FamilyVerdict(Ipv6ModeOf(c.network)))
    + IcmpFlood(c.firewall, nflog) + RstFlood(c.firewall, nflog)
    + In(Input, ESTABLISHED + DiscoveryRules(c.network))
  }

  // ---- the protection modules ----

  /** The flag combinations of a scan: (mask, flags). */
  const SCANS: seq<(nat, nat)> :=
    [(0xff, 0x00), (0xff, 0x01), (0x03, 0x03), (0x05, 0x05), (0x06, 0x06), (0x29, 0x29), (0xff, 0xff)]

  function ScanRule(): ((nat, nat)) -> seq<Rule> {
    (s: (nat, nat)) => [L4Is(TCP) + FlagsAre(s.0, s.1) + [Verdict(Jump(PortScan))]]
  }

  function Scans(o: Options, nflog: bool): Table {
    if !o.portScan then []
    else (
      In(PortScan, OverRate(LogSpec(o.portScanLog, "easywall portscan: ", nflog)))
      + In(Input, Flat(SCANS, ScanRule())))
  }

  function SynFlood(o: Options, nflog: bool): Table {
    if !o.synFlood then []
    else (
      In(SynFloodOver, OverRate(LogSpec(o.synLog, "easywall syn-flood: ", nflog)))
      + In(Input, RateLimited(Syns, SynFloodMeter, SynFloodOver)))
  }

  function InvalidRules(o: Options, nflog: bool): seq<Rule> {
    if o.invalid then Logged(CtAny(0x01), LogSpec(o.invalidLog, "easywall invalid: ", nflog), [Verdict(Drop)]) else []
  }

  function FragmentMatch(): Rule {
    FamilyIs(V4) + Interface(Neq) + MaskCompare(Payload(Network, 6, 2, 1), 2, 0x3fff, Neq, 0) + DaddrTypeIs(2)
  }

  function FragmentRules(o: Options, nflog: bool): seq<Rule> {
    if o.fragments then Logged(FragmentMatch(), LogSpec(o.fragmentsLog, "easywall fragment: ", nflog), [Verdict(Drop)])
    else []
  }

  /** One source of one port rule: that network, for that protocol and port only. */
  function SourceReturn(l: L4, s: PortSpec): Entry -> seq<Rule> {
    (e: Entry) =>
      if MatchOf(V4Sources, e).Some?
      then [MatchOf(V4Sources, e).value + L4Is(Models.Protocol(l)) + PortIs(s) + [Verdict(Return)]]
      else []
  }

  function RuleReturns(l: L4): PortRule -> seq<Rule> {
    (r: PortRule) => if r.FiltersHost() then Flat(r.sources, SourceReturn(l, r.port)) else []
  }

  function BogonChain(r: Rules, o: Options, nets: seq<Entry>, nflog: bool): seq<Rule> {
    Flat(r.allowlist + nets, PerEntry(V4Sources, SILENT, [Verdict(Return)]))
    + Flat(r.tcp, RuleReturns(L4.Tcp)) + Flat(r.udp, RuleReturns(L4.Udp))
    + Flat(o.bogonRanges, PerEntry(V4Sources, LogSpec(o.bogonsLog, "easywall bogon: ", nflog), [Verdict(Drop)]))
  }

  const BOGON_JUMP: seq<Rule> := [FamilyIs(V4) + Interface(Neq) + [Verdict(Jump(Bogon))]]

  function Bogons(r: Rules, o: Options, nets: seq<Entry>, nflog: bool): Table {
    if !o.bogons then [] else In(Bogon, BogonChain(r, o, nets, nflog)) + In(Input, BOGON_JUMP)
  }

  /** sshMeteredPorts: the host's own SSH rules, or port 22 when there is none. */
  function FlaggedPorts(rules: seq<PortRule>): seq<PortSpec> {
    if rules == [] then []
    else
      var r := rules[|rules| - 1];
      FlaggedPorts(rules[..|rules| - 1]) + if r.ssh && r.FiltersHost() then [r.port] else []
  }

  function MeteredPorts(r: Rules): seq<PortSpec> {
    if FlaggedPorts(r.tcp) == [] then [Single(22)] else FlaggedPorts(r.tcp)
  }

  function SshRule(): PortSpec -> seq<Rule> {
    (s: PortSpec) => [L4Is(TCP) + PortIs(s) + CtAny(0x08) + [Verdict(Jump(SshBrute))]]
  }

  const SSH_CHAIN: seq<Rule> := RateLimited(Anything, SshBruteMeter, SshBruteOver) + [[Verdict(Return)]]

  function Ssh(r: Rules, o: Options, nflog: bool): Table {
    if !o.sshBruteForce then []
    else (
      In(SshBruteOver, OverRate(LogSpec(o.sshLog, "easywall ssh: ", nflog)))
      + In(SshBrute, SSH_CHAIN)
      + In(Input, Flat(MeteredPorts(r), SshRule())))
  }

  function ConnRule(f: Family): Rule { FamilyIs(f) + MeterTail(ConnLimit, f, Drop) }

  /** Connection limit, broadcast (1), multicast (2), anycast (RTN_ANYCAST = 4). */
  function PlainDrops(o: Options): seq<Rule> {
    (if o.connectionLimit then [ConnRule(V4), ConnRule(V6)] else [])
    + (if o.dropBroadcast then [PktTypeIs(1) + [Verdict(Drop)]] else [])
    + (if o.dropMulticast then [PktTypeIs(2) + [Verdict(Drop)]] else [])
    + (if o.dropAnycast then [DaddrTypeIs(4) + [Verdict(Drop)]] else [])
  }

  function FirstModules(o: Options, nflog: bool): Table {
    Scans(o, nflog) + SynFlood(o, nflog) + In(Input, InvalidRules(o, nflog)) + In(Fragments, FragmentRules(o, nflog))
  }

  function LastModules(r: Rules, o: Options, nets: seq<Entry>, nflog: bool): Table {
    Bogons(r, o, nets, nflog) + Ssh(r, o, nflog) + In(Input, PlainDrops(o))
  }

  // ---- container networks, lists, feeds ----

  predicate IsV6Network(e: Entry) { e.Net? && e.net.addr.fam.V6? }

  function WithoutIpv6(es: seq<Entry>): seq<Entry> {
    if es == [] then []
    else
      var e := es[|es| - 1];
      WithoutIpv6(es[..|es| - 1]) + if IsV6Network(e) then [] else [e]
  }

  /** containerNetworks: detected bridges, then the configured ones; IPv6 removed under block. */
  function ContainerNetworks(n: NetworkSettings, bridges: seq<Entry>): seq<Entry> {
    var d := n.docker;
    if !d.enabled then []
    else
      var all := (if d.allowBridges then bridges else []) + d.custom;
      if Ipv6ModeOf(n).Block? then WithoutIpv6(all) else all
  }

  function ListRules(r: Rules, o: Options, nets: seq<Entry>, nflog: bool): seq<Rule> {
    Flat(nets, PerEntry(NetworksOnly, SILENT, [Verdict(Accept)]))
    + Flat(r.blocklist, PerEntry(ListEntry, LogSpec(o.logBlocklist, "easywall blocklist: ", nflog), [Verdict(Drop)]))
    + Flat(r.allowlist, PerEntry(ListEntry, SILENT, [Verdict(Accept)]))
  }

  /** FeedRuleOrder: the lists, then the countries. */
  function OnlyFeeds(ids: seq<FeedId>, countries: bool): seq<FeedId> {
    if ids == [] then []
    else
      var id := ids[|ids| - 1];
      OnlyFeeds(ids[..|ids| - 1], countries) + if id.CountryFeed? == countries then [id] else []
  }

  function FeedRuleOrder(ids: seq<FeedId>): seq<FeedId> { OnlyFeeds(ids, false) + OnlyFeeds(ids, true) }

  function FeedMatch(id: FeedId, f: Family): Rule {
    FamilyIs(f) + [Load(f, SrcAddr), Lookup(1, FeedSet(id, f))]
  }

  function FeedLog(id: FeedId, o: Options, nflog: bool): LogSpec {
    LogSpec(o.logFeed, "easywall feed " + (if id.ListFeed? then id.name else id.code) + " ", nflog)
  }

  function FeedRules(id: FeedId, f: Family, o: Options, nflog: bool): seq<Rule> {
    Logged(FeedMatch(id, f), FeedLog(id, o, nflog), [Counter, Verdict(Drop)])
  }

  function ForwardFeedRules(id: FeedId, f: Family): seq<Rule> { [FeedMatch(id, f) + [Counter, Verdict(Drop)]] }

  /** addFeeds: each feed's two sets, and its rules in the input chain and, where it exists, the forward lists. */
  function FeedPart(id: FeedId, f: Family, o: Options, lists: bool, nflog: bool): Table {
    In(Input, FeedRules(id, f, o, nflog)) + In(ForwardLists, if lists then ForwardFeedRules(id, f) else [])
  }

  function Feeds(ids: seq<FeedId>, o: Options, lists: bool, nflog: bool): Table {
    if ids == [] then []
    else
      var id := ids[|ids| - 1];
      Feeds(ids[..|ids| - 1], o, lists, nflog) + FeedPart(id, V4, o, lists, nflog) + FeedPart(id, V6, o, lists, nflog)
  }

  // ---- ports ----

  function PortRuleMatch(l: L4, s: PortSpec): Rule { L4Is(Models.Protocol(l)) + PortIs(s) }

  const PORT_TAIL: Rule := [Counter, Verdict(Accept)]

  function SourceAccept(l: L4, s: PortSpec): Entry -> seq<Rule> {
    (e: Entry) =>
      if MatchOf(Cidr(SrcAddr), e).Some?
      then [MatchOf(Cidr(SrcAddr), e).value + PortRuleMatch(l, s) + PORT_TAIL]
      else []
  }

  /** portAcceptRules: one rule per usable source, or one for everybody when none is named. */
  function PortAcceptRules(l: L4, r: PortRule): seq<Rule> {
    if r.sources == [] then [PortRuleMatch(l, r.port) + PORT_TAIL]
    else Flat(r.sources, SourceAccept(l, r.port))
  }

  function HostPort(l: L4): PortRule -> seq<Rule> {
    (r: PortRule) => if r.FiltersHost() then PortAcceptRules(l, r) else []
  }

  function EchoRules(o: Options, n: NetworkSettings): seq<Rule> {
    (if o.allowEcho then TypeAccept(ICMP)(8) else [])
    + (if o.allowEcho && Ipv6ModeOf(n).Filter? then TypeAccept(ICMPV6)(128) else [])
  }

  function RedirectRule(): Redirect -> seq<Rule> {
    (d: Redirect) =>
      [DaddrTypeIs(2) + L4Is(Models.Protocol(d.proto))
       + Compare(Payload(Transport, 2, 2, 1), Eq, PortBytes(d.incoming))
       + [Immediate(1, PortBytes(d.serving)), Redir(1)]]
  }

  function Ports(r: Rules, c: Config): Table {
    In(Input, EchoRules(c.firewall, c.network) + Flat(r.tcp, HostPort(L4.Tcp)) + Flat(r.udp, HostPort(L4.Udp)))
    + In(Prerouting, Flat(r.forwarding, RedirectRule()))
  }

  // ---- the forward chain ----

  predicate HasNetwork(es: seq<Entry>, f: Family) {
    exists i :: 0 <= i < |es| && es[i].Net? && es[i].net.addr.fam == f
  }

  predicate ForwardPortsRender(d: DockerConfig, nets: seq<Entry>) {
    d.filtersPublishedPorts && (HasNetwork(nets, V4) || HasNetwork(nets, V6))
  }

  /** Both directions of one network that may cross. */
  function Crossing(): Entry -> seq<Rule> {
    (e: Entry) => PerEntry(Cidr(SrcAddr), SILENT, [Verdict(Accept)])(e)
                + PerEntry(Cidr(DstAddr), SILENT, [Verdict(Accept)])(e)
  }

  function MayCross(n: NetworkSettings, nets: seq<Entry>): seq<Entry> {
    match RoutingModeOf(n)
    case Open => []
    case Networks => nets + n.routing.networks
    case Closed => nets
  }

  predicate Usable(e: Entry) { e.Bare? || e.Net? }

  predicate AnyUsable(es: seq<Entry>) { exists i :: 0 <= i < |es| && Usable(es[i]) }

  predicate ForwardRenders(n: NetworkSettings, nets: seq<Entry>) {
    ForwardPortsRender(n.docker, nets) || AnyUsable(MayCross(n, nets))
  }

  predicate ListsRender(r: Rules) { AnyUsable(r.blocklist) || r.feeds != [] }

  /** m.fwdLists is set: a chain of lists exists and the feeds are to join it. */
  predicate HasLists(r: Rules, n: NetworkSettings, nets: seq<Entry>) { ForwardRenders(n, nets) && ListsRender(r) }

  /** addForwardLists, the part written before the feeds. */
  function ListsChain(r: Rules, nets: seq<Entry>): seq<Rule> {
    Flat(nets, PerEntry(Cidr(SrcAddr), SILENT, [Verdict(Return)]))
    + Flat(r.blocklist, PerEntry(Cidr(SrcAddr), SILENT, [Counter, Verdict(Drop)]))
    + Flat(r.allowlist, PerEntry(Cidr(SrcAddr), SILENT, [Verdict(Return)]))
  }

  function ListsJump(n: NetworkSettings, nets: seq<Entry>): seq<Rule> {
    if RoutingModeOf(n).Open? then Flat(nets, PerEntry(Cidr(DstAddr), SILENT, [Verdict(Jump(ForwardLists))]))
    else [[Verdict(Jump(ForwardLists))]]
  }

  /** ruleFamily of a port rule's source: the family its leading test names, kept unless IPv6 is blocked. */
  function ForwardSource(l: L4, s: PortSpec, mode: Ipv6Mode): Entry -> seq<Rule> {
    (e: Entry) =>
      if Usable(e) && !(FamilyOf(e).V6? && mode.Block?) then SourceAccept(l, s)(e) else []
  }

  function PinnedAccept(l: L4, s: PortSpec, f: Family, nets: seq<Entry>): seq<Rule> {
    if HasNetwork(nets, f) then [FamilyIs(f) + PortRuleMatch(l, s) + PORT_TAIL] else []
  }

  /** A forwarded rule: its sources, or one copy per family that has a container network. */
  function ForwardPort(l: L4, nets: seq<Entry>, mode: Ipv6Mode): PortRule -> seq<Rule> {
    (r: PortRule) =>
      if !r.FiltersForwarded() then []
      else if r.sources == [] then PinnedAccept(l, r.port, V4, nets) + PinnedAccept(l, r.port, V6, nets)
      else Flat(r.sources, ForwardSource(l, r.port, mode))
  }

  /** To the network from outside it. */
  function DenyMatch(e: Entry): Rule
    requires Usable(e)
  {
    CidrMatchOp(e, DstAddr, Eq).value + WithoutFamilyTest(CidrMatchOp(e, SrcAddr, Neq).value)
  }

  function Deny(): Entry -> seq<Rule> {
    (e: Entry) => if Usable(e) then [DenyMatch(e) + [Counter, Verdict(Drop)]] else []
  }

  function ForwardPorts(r: Rules, n: NetworkSettings, nets: seq<Entry>): seq<Rule> {
    if !ForwardPortsRender(n.docker, nets) then []
    else (
      Flat(r.tcp, ForwardPort(L4.Tcp, nets, Ipv6ModeOf(n))) + Flat(r.udp, ForwardPort(L4.Udp, nets, Ipv6ModeOf(n)))
      + Flat(nets, Deny()))
  }

  /** buildForwardChain. */
  function ForwardPart(r: Rules, n: NetworkSettings, nets: seq<Entry>): Table {
    if !ForwardRenders(n, nets) then []
    else (
      In(Forward, ESTABLISHED)
      + (if ListsRender(r) then In(ForwardLists, ListsChain(r, nets)) + In(Forward, ListsJump(n, nets)) else [])
      + In(Forward, ForwardPorts(r, n, nets) + Flat(MayCross(n, nets), Crossing())))
  }

  // ---- the whole table ----

  /** Everything that goes out with the first flush, in the order it is added. */
  function Built(r: Rules, c: Config, bridges: seq<Entry>, nflog: bool): Table {
    var nets := ContainerNetworks(c.network, bridges);
    Front(c, nflog)
    + ForwardPart(r, c.network, nets)
    + FirstModules(c.firewall, nflog) + LastModules(r, c.firewall, nets, nflog)
    + In(Input, ListRules(r, c.firewall, nets, nflog))
    + Feeds(FeedRuleOrder(r.feeds), c.firewall, HasLists(r, c.network, nets), nflog)
    + Ports(r, c)
  }

  function CustomRule(): CustomLine -> seq<Rule> {
    (l: CustomLine) => if l.Statement? then [[Custom(l.text)]] else []
  }

  function FinalLog(o: Options, nflog: bool): seq<Rule> {
    if o.logBlocked then [LogExprs("easywall drop: ", nflog)] else []
  }

  /** The table in the kernel: the custom lines are appended by the nft command, the log of the policy comes last. */
  function Compiled(r: Rules, c: Config, bridges: seq<Entry>, nflog: bool): Table {
    Built(r, c, bridges, nflog) + In(Input, Flat(r.custom, CustomRule()) + FinalLog(c.firewall, nflog))
  }
}
