/** What the filter is supposed to do with a packet, stage by stage, without a rule in sight. */
module Meaning {
  import opened Addresses
  import opened Models
  import opened Netfilter
  import opened Matches
  import opened Compiler

  // ---- what the settings say ----

  /** An IPv6 mode that is not set means filter, a routing mode that is not set means closed. */
  predicate PassesIpv6(n: NetworkSettings) { n.ipv6.mode == Some(Passthrough) }

  predicate BlocksIpv6(n: NetworkSettings) { n.ipv6.mode == Some(Block) }

  predicate FiltersIpv6(n: NetworkSettings) { !PassesIpv6(n) && !BlocksIpv6(n) }

  predicate RoutesAll(n: NetworkSettings) { n.routing.mode == Some(Open) }

  predicate RoutesNamed(n: NetworkSettings) { n.routing.mode == Some(Networks) }

  /** A detected bridge, if bridges are let in, or a configured network, but no IPv6 one where IPv6 is blocked. */
  predicate IsContainerNetwork(n: NetworkSettings, bridges: seq<Entry>, e: Entry) {
    && n.docker.enabled && ((n.docker.allowBridges && e in bridges) || e in n.docker.custom)
    && !(BlocksIpv6(n) && e.Net? && e.net.addr.fam.V6?)
  }

  predicate ForTheHost(r: PortRule) { r.scope != Forwarded }

  predicate ForTheForwarded(r: PortRule) { r.scope != Host }

  // ---- what a packet is ----

  predicate Speaks(p: Packet, l: L4) { p.l4 == if l.Tcp? then 6 else 17 }

  predicate IsPing(p: Packet) { p.l4 == 1 && IsType(p, 8) }

  predicate IsPing6(p: Packet) { p.l4 == 58 && IsType(p, 128) }

  predicate OnLoopback(p: Packet) { p.iif == 0x6c6f00 }

  predicate Established(p: Packet) { State(p, 0x06) }

  predicate Watched(w: Watch, p: Packet) {
    match w
    case Syns => p.l4 == 6 && Flags(p, 0x17, 0x02)
    case Echoes => if p.fam.V4? then IsPing(p) else IsPing6(p)
    case Resets => p.l4 == 6 && Flags(p, 0x04, 0x04)
    case Anything => true
  }

  predicate Over(env: Env, m: Meter, p: Packet) { (m, p.fam) in env.over }

  predicate IsDiscovery(c: Ipv6Config, p: Packet) {
    && p.l4 == 58
    && ((c.routerAdverts && (IsType(p, 133) || IsType(p, 134)))
        || (c.neighborAdverts && (IsType(p, 135) || IsType(p, 136))))
  }

  predicate IsScan(p: Packet) {
    p.l4 == 6 && Field(p, 13, 1).Some? && ScanFlags(Field(p, 13, 1).value)
  }

  /**
   Flags no connection sends: none, FIN alone, all of them; or SYN with FIN, RST with FIN, RST with SYN, or FIN, PSH
   and URG together, whatever else is set.
   */
  predicate ScanFlags(f: nat) {
    || f == 0x00 || f == 0x01 || f == 0xff
    || (HasFlag(f, SYN) && HasFlag(f, FIN)) || (HasFlag(f, RST) && HasFlag(f, FIN))
    || (HasFlag(f, RST) && HasFlag(f, SYN)) || (HasFlag(f, FIN) && HasFlag(f, PSH) && HasFlag(f, URG))
  }

  const FIN: nat := 1
  const SYN: nat := 2
  const RST: nat := 4
  const PSH: nat := 8
  const URG: nat := 32

  predicate HasFlag(f: nat, flag: nat)
    requires flag > 0
  {
    f / flag % 2 == 1
  }

  /** Some rule of the list that filters the host names this very source and port. */
  predicate NamedBy(l: L4, rules: seq<PortRule>, p: Packet) {
    && Speaks(p, l)
    && exists i :: 0 <= i < |rules| && ForTheHost(rules[i]) && ToPort(p, rules[i].port)
                   && AnyCovers(rules[i].sources, p.Src())
  }

  predicate BogonExempt(r: Rules, nets: seq<Entry>, p: Packet) {
    || AnyCovers(r.allowlist, p.Src()) || AnyCovers(nets, p.Src())
    || NamedBy(L4.Tcp, r.tcp, p) || NamedBy(L4.Udp, r.udp, p)
  }

  predicate IsBogon(o: Options, p: Packet) { p.fam.V4? && !OnLoopback(p) && AnyCovers(o.bogonRanges, p.Src()) }

  predicate AnyFlagged(rules: seq<PortRule>) {
    exists i :: 0 <= i < |rules| && rules[i].ssh && ForTheHost(rules[i])
  }

  /** To a port some host rule flags as SSH, or to 22 when none does. */
  predicate ToSsh(r: Rules, p: Packet) {
    if AnyFlagged(r.tcp)
    then exists i :: 0 <= i < |r.tcp| && r.tcp[i].ssh && ForTheHost(r.tcp[i]) && ToPort(p, r.tcp[i].port)
    else ToPort(p, Single(22))
  }

  predicate MeteredSsh(r: Rules, p: Packet) { p.l4 == 6 && State(p, 0x08) && ToSsh(r, p) }

  /** A port rule lets the packet in: protocol, port, and a source it admits. */
  predicate Opens(l: L4, r: PortRule, p: Packet) {
    Speaks(p, l) && ToPort(p, r.port) && r.Admits(p.Src())
  }

  predicate OpenedBy(l: L4, rules: seq<PortRule>, p: Packet) {
    exists i :: 0 <= i < |rules| && ForTheHost(rules[i]) && Opens(l, rules[i], p)
  }

  predicate InFeed(env: Env, id: FeedId, a: Addr) { InSet(env, FeedSet(id, a.fam), a.val) }

  predicate InAnyFeed(env: Env, ids: seq<FeedId>, a: Addr) {
    exists i :: 0 <= i < |ids| && InFeed(env, ids[i], a)
  }

  /** The first custom line that does anything with the packet. */
  function CustomSays(lines: seq<CustomLine>, env: Env): Fate {
    if lines == [] then Fell
    else
      var l := lines[|lines| - 1];
      Else(CustomSays(lines[..|lines| - 1], env),
           if l.Statement? && l.text in env.custom then if env.custom[l.text] then Accepted else Dropped else Fell)
  }

  // ---- the input hook ----

  function FrontFate(c: Config, p: Packet, env: Env): Fate {
    var n, o := c.network, c.firewall;
    if OnLoopback(p) then Accepted
    else if p.fam.V6? && PassesIpv6(n) then Accepted
    else if p.fam.V6? && BlocksIpv6(n) then Dropped
    else if o.icmpFlood && Watched(Echoes, p) && Over(env, IcmpFloodMeter, p) then Dropped
    else if o.rstFlood && Watched(Resets, p) && Over(env, TcpRstMeter, p) then Dropped
    else if Established(p) then Accepted
    else if FiltersIpv6(n) && IsDiscovery(n.ipv6, p) then Accepted
    else Fell
  }

  /** The modules ahead of the bogon filter, and those after it; none of them can do anything but drop. */
  predicate RefusedFirst(o: Options, p: Packet, env: Env) {
    || (o.portScan && IsScan(p))
    || (o.synFlood && Watched(Syns, p) && Over(env, SynFloodMeter, p))
    || (o.invalid && State(p, 0x01))
  }

  predicate RefusedLast(r: Rules, o: Options, p: Packet, env: Env) {
    || (o.sshBruteForce && MeteredSsh(r, p) && Over(env, SshBruteMeter, p))
    || (o.connectionLimit && Over(env, ConnLimit, p))
    || (o.dropBroadcast && p.pktType == 1)
    || (o.dropMulticast && p.pktType == 2)
    || (o.dropAnycast && p.daddrType == 4)
  }

  function ModulesFate(r: Rules, o: Options, nets: seq<Entry>, p: Packet, env: Env): Fate {
    if RefusedFirst(o, p, env) then Dropped
    else if o.bogons && IsBogon(o, p) && !BogonExempt(r, nets, p) then Dropped
    else if RefusedLast(r, o, p, env) then Dropped
    else Fell
  }

  function ListsFate(r: Rules, nets: seq<Entry>, p: Packet, env: Env): Fate {
    if AnyNetwork(nets, p.Src()) then Accepted
    else if AnyCovers(r.blocklist, p.Src()) then Dropped
    else if AnyCovers(r.allowlist, p.Src()) then Accepted
    else if InAnyFeed(env, r.feeds, p.Src()) then Dropped
    else Fell
  }

  function PortsFate(r: Rules, c: Config, p: Packet, env: Env): Fate {
    if c.firewall.allowEcho && (IsPing(p) || (FiltersIpv6(c.network) && IsPing6(p))) then Accepted
    else if OpenedBy(L4.Tcp, r.tcp, p) then Accepted
    else if OpenedBy(L4.Udp, r.udp, p) then Accepted
    else CustomSays(r.custom, env)
  }

  function InputFate(r: Rules, c: Config, bridges: seq<Entry>, p: Packet, env: Env): Fate {
    var nets := ContainerNetworks(c.network, bridges);
    Else(FrontFate(c, p, env),
         Else(ModulesFate(r, c.firewall, nets, p, env),
              Else(ListsFate(r, nets, p, env), PortsFate(r, c, p, env))))
  }

  // ---- the forward hook ----

  /** The lists, for a packet being routed: the container networks and the allowlist only spare it the lists. */
  predicate ListedForward(r: Rules, nets: seq<Entry>, p: Packet, env: Env) {
    && !AnyCovers(nets, p.Src())
    && (AnyCovers(r.blocklist, p.Src()) || (!AnyCovers(r.allowlist, p.Src()) && InAnyFeed(env, r.feeds, p.Src())))
  }

  predicate HasFamily(nets: seq<Entry>, f: Family) {
    exists i :: 0 <= i < |nets| && nets[i].Net? && nets[i].net.addr.fam == f
  }

  /** A forwarded rule names protocol, port and source; without sources, in a family with a container network. */
  predicate OpensForward(l: L4, r: PortRule, blocked: bool, nets: seq<Entry>, p: Packet) {
    && ForTheForwarded(r) && Speaks(p, l) && ToPort(p, r.port)
    && if r.sources == [] then HasFamily(nets, p.fam) else AnyCovers(r.sources, p.Src()) && !(p.fam.V6? && blocked)
  }

  predicate OpenedForward(l: L4, rules: seq<PortRule>, blocked: bool, nets: seq<Entry>, p: Packet) {
    exists i :: 0 <= i < |rules| && OpensForward(l, rules[i], blocked, nets, p)
  }

  /** To a container network from outside that network. */
  predicate Intrudes(nets: seq<Entry>, p: Packet) {
    exists i :: 0 <= i < |nets| && nets[i].Covers(p.Dst()) && !nets[i].Covers(p.Src())
  }

  /** Published ports are filtered, and there is a network they could be in. */
  predicate FiltersPublished(n: NetworkSettings, nets: seq<Entry>) {
    n.docker.filtersPublishedPorts && exists i :: 0 <= i < |nets| && nets[i].Net?
  }

  /** An address that may be routed from and to although routing is not open. */
  predicate MayBeRouted(n: NetworkSettings, nets: seq<Entry>, a: Addr) {
    !RoutesAll(n) && (AnyCovers(nets, a) || (RoutesNamed(n) && AnyCovers(n.routing.networks, a)))
  }

  predicate NamesSomebody(es: seq<Entry>) { exists i :: 0 <= i < |es| && !es[i].Comment? && !es[i].Junk? }

  /** There is anything to say about routed packets; otherwise the policy alone decides. */
  predicate SaysAnything(n: NetworkSettings, nets: seq<Entry>) {
    || FiltersPublished(n, nets)
    || (!RoutesAll(n) && (NamesSomebody(nets) || (RoutesNamed(n) && NamesSomebody(n.routing.networks))))
  }

  function ForwardFate(r: Rules, n: NetworkSettings, nets: seq<Entry>, p: Packet, env: Env): Fate {
    var blocked := BlocksIpv6(n);
    if !SaysAnything(n, nets) then Fell
    else if Established(p) then Accepted
    else if (RoutesAll(n) ==> AnyCovers(nets, p.Dst())) && ListedForward(r, nets, p, env) then Dropped
    else if FiltersPublished(n, nets)
            && (OpenedForward(L4.Tcp, r.tcp, blocked, nets, p) || OpenedForward(L4.Udp, r.udp, blocked, nets, p))
    then Accepted
    else if FiltersPublished(n, nets) && Intrudes(nets, p) then Dropped
    else if MayBeRouted(n, nets, p.Src()) || MayBeRouted(n, nets, p.Dst()) then Accepted
    else Fell
  }
}
