/** The lockout check: a second, hand-written reading of the input chain. */
module Reach {
  import opened Addresses
  import opened Models
  import opened Netfilter
  import opened Matches
  import opened Compiler
  import opened Meaning
  import opened Quads
  import opened InputProof
  import opened FilterTheorems

  datatype Verdict = ReachOpen | ReachBlocked | ReachUnknown

  datatype Reason =
    | NoAddress | Proxied | Loopback | Ipv6Passthrough | Ipv6Blocked | BogonFilter | DockerNetwork | DockerBridge
    | Blocklisted | Allowlisted | FeedHit | PortOpen | PortSourceMismatch | CustomRules | NoRule

  method InAnyEntry(src: Addr, entries: seq<Entry>) returns (found: bool)
    ensures found == AnyCovers(entries, src)
  {
    for i := 0 to |entries|
      invariant forall j :: 0 <= j < i ==> !entries[j].Covers(src)
    {
      if entries[i].Covers(src) {
        return true;
      }
    }
    return false;
  }

  method InAnyCidr(src: Addr, cidrs: seq<Entry>) returns (found: bool)
    ensures found == AnyNetwork(cidrs, src)
  {
    for i := 0 to |cidrs|
      invariant forall j :: 0 <= j < i ==> !(cidrs[j].Net? && cidrs[j].Covers(src))
    {
      if cidrs[i].Net? && cidrs[i].Covers(src) {
        return true;
      }
    }
    return false;
  }

  /** Docker's default pool, 172.16.0.0/12: where an undetected bridge could be. */
  function Pool(): Network { Leading(V4, 172 * 16 + 1, 12) }

  predicate IsLoopbackAddr(a: Addr) {
    if a.fam.V4? then Leading(V4, 127, 8).Contains(a) else a.val == 1
  }

  function NamedNetworks(d: DockerConfig): seq<Entry> { if d.enabled then d.custom else [] }

  predicate HasStatement(lines: seq<CustomLine>) { exists i :: 0 <= i < |lines| && lines[i].Statement? }

  /** A host rule covers the port and admits the source ... */
  predicate PortAdmits(rules: seq<PortRule>, src: Addr, port: int) {
    exists i :: 0 <= i < |rules| && rules[i].port.Covers(port) && rules[i].FiltersHost() && rules[i].Admits(src)
  }

  /** ... or covers it for somebody. */
  predicate PortCovered(rules: seq<PortRule>, port: int) {
    exists i :: 0 <= i < |rules| && rules[i].port.Covers(port) && rules[i].FiltersHost()
  }

  predicate AnyHit(ids: seq<FeedId>, hits: seq<FeedId>) { exists i :: 0 <= i < |ids| && ids[i] in hits }

  predicate BogonUnsure(r: Rules, o: Options, d: DockerConfig, a: Addr) {
    && o.bogons && a.Is4() && AnyNetwork(o.bogonRanges, a)
    && !AnyCovers(r.allowlist, a) && !AnyNetwork(NamedNetworks(d), a)
  }

  /** The answer as one decision list. */
  function Answer(r: Rules, o: Options, n: NetworkSettings, src: Option<Addr>, port: int, proxied: bool, local: bool,
                  hits: seq<FeedId>): (Verdict, Reason)
  {
    if proxied then (ReachUnknown, Proxied)
    else if src.None? then (ReachUnknown, NoAddress)
    else
      var a := src.value;
      Ladder(r, o, n, a, port, local || IsLoopbackAddr(a), Pool().Contains(a), hits)
  }

  /** ... for a known source that is on the host itself or not, in Docker's pool or not. */
  function Ladder(r: Rules, o: Options, n: NetworkSettings, a: Addr, port: int, home: bool, pooled: bool,
                  hits: seq<FeedId>): (Verdict, Reason)
  {
    var d := n.docker;
    if home then (ReachOpen, Loopback)
    else if a.fam.V6? && n.ipv6.mode == Some(Passthrough) then (ReachOpen, Ipv6Passthrough)
    else if a.fam.V6? && n.ipv6.mode == Some(Block) then (ReachBlocked, Ipv6Blocked)
    else if BogonUnsure(r, o, d, a) then (ReachUnknown, BogonFilter)
    else if d.enabled && AnyNetwork(d.custom, a) then (ReachOpen, DockerNetwork)
    else if d.enabled && d.allowBridges && pooled then (ReachUnknown, DockerBridge)
    else if AnyCovers(r.blocklist, a) then (ReachBlocked, Blocklisted)
    else if AnyCovers(r.allowlist, a) then (ReachOpen, Allowlisted)
    else if AnyHit(r.feeds, hits) then (ReachBlocked, FeedHit)
    else if PortAdmits(r.tcp, a, port) then (ReachOpen, PortOpen)
    else if HasStatement(r.custom) then (ReachUnknown, CustomRules)
    else if PortCovered(r.tcp, port) then (ReachBlocked, PortSourceMismatch)
    else (ReachBlocked, NoRule)
  }

  /** Step 9: the port rules, with the flag for "covered, but not for you". */
  method PortStep(rules: seq<PortRule>, src: Addr, port: int) returns (open: bool, restricted: bool)
    ensures open == PortAdmits(rules, src, port)
    ensures !open ==> restricted == PortCovered(rules, port)
  {
    restricted := false;
    for i := 0 to |rules|
      invariant restricted == exists j :: 0 <= j < i && rules[j].port.Covers(port) && rules[j].FiltersHost()
      invariant forall j :: 0 <= j < i ==>
                  !(rules[j].port.Covers(port) && rules[j].FiltersHost() && rules[j].Admits(src))
    {
      var rule := rules[i];
      if rule.port.Covers(port) && rule.FiltersHost() {
        if rule.sources == [] {
          return true, restricted;
        }
        restricted := true;
        var named := InAnyEntry(src, rule.sources);
        if named {
          return true, restricted;
        }
      }
    }
    return false, restricted;
  }

  method FeedStep(ids: seq<FeedId>, hits: seq<FeedId>) returns (hit: bool)
    ensures hit == AnyHit(ids, hits)
  {
    for i := 0 to |ids|
      invariant forall j :: 0 <= j < i ==> ids[j] !in hits
    {
      if ids[i] in hits {
        return true;
      }
    }
    return false;
  }

  method CustomStep(lines: seq<CustomLine>) returns (some: bool)
    ensures some == HasStatement(lines)
  {
    for i := 0 to |lines|
      invariant forall j :: 0 <= j < i ==> !lines[j].Statement?
    {
      if lines[i].Statement? {
        return true;
      }
    }
    return false;
  }

  /** Steps 5 to 8: the bogon filter, the bridges and the lists; None when none of them decides. */
  method ListStep(r: Rules, o: Options, d: DockerConfig, a: Addr) returns (v: Option<(Verdict, Reason)>)
    ensures v == if BogonUnsure(r, o, d, a) then Some((ReachUnknown, BogonFilter))
                 else if d.enabled && AnyNetwork(d.custom, a) then Some((ReachOpen, DockerNetwork))
                 else if d.enabled && d.allowBridges && Pool().Contains(a) then Some((ReachUnknown, DockerBridge))
                 else if AnyCovers(r.blocklist, a) then Some((ReachBlocked, Blocklisted))
                 else if AnyCovers(r.allowlist, a) then Some((ReachOpen, Allowlisted))
                 else None
  {
    var dockerNets := NamedNetworks(d);
    var bogon := InAnyCidr(a, o.bogonRanges);
    var allowed := InAnyEntry(a, r.allowlist);
    var docker := InAnyCidr(a, dockerNets);
    if o.bogons && a.Is4() && bogon && !allowed && !docker {
      return Some((ReachUnknown, BogonFilter));
    }
    if d.enabled {
      if docker {
        return Some((ReachOpen, DockerNetwork));
      }
      if d.allowBridges && Pool().Contains(a) {
        return Some((ReachUnknown, DockerBridge));
      }
    }
    var blocked := InAnyEntry(a, r.blocklist);
    if blocked {
      return Some((ReachBlocked, Blocklisted));
    }
    if allowed {
      return Some((ReachOpen, Allowlisted));
    }
    return None;
  }

  /** Whether a new connection from `src` still reaches a TCP port under these rules. */
  method Reachable(r: Rules, o: Options, n: NetworkSettings, src: Option<Addr>, port: int, proxied: bool, local: bool,
                   hits: seq<FeedId>) returns (v: Verdict, why: Reason)
    ensures (v, why) == Answer(r, o, n, src, port, proxied, local, hits)
  {
    if proxied {
      return ReachUnknown, Proxied;
    }
    if src.None? {
      return ReachUnknown, NoAddress;
    }
    var a := src.value;
    if local || IsLoopbackAddr(a) {
      return ReachOpen, Loopback;
    }
    if a.fam.V6? {
      if n.ipv6.mode == Some(Passthrough) {
        return ReachOpen, Ipv6Passthrough;
      }
      if n.ipv6.mode == Some(Block) {
        return ReachBlocked, Ipv6Blocked;
      }
    }
    var early := ListStep(r, o, n.docker, a);
    if early.Some? {
      return early.value.0, early.value.1;
    }
    var fed := FeedStep(r.feeds, hits);
    if fed {
      return ReachBlocked, FeedHit;
    }
    var open, restricted := PortStep(r.tcp, a, port);
    if open {
      return ReachOpen, PortOpen;
    }
    var custom := CustomStep(r.custom);
    if custom {
      return ReachUnknown, CustomRules;
    }
    return ReachBlocked, if restricted then PortSourceMismatch else NoRule;
  }

  // ---- what the answer is about ----

  /** A new, unicast TCP SYN from `a` to `port`, under every rate and connection limit. */
  predicate NewConnection(p: Packet, env: Env, a: Addr, port: int) {
    && p.Src() == a && p.l4 == TCP && Field(p, 2, 2) == Some(port) && Flags(p, 0x17, 0x02)
    && !State(p, 0x06) && !State(p, 0x01)
    && p.pktType != 1 && p.pktType != 2 && p.daddrType != 4
    && env.over == {}
  }

  /** The kernel's sets hold `a` exactly for the feeds that were reported as hits. */
  predicate HitsAreTheFeeds(env: Env, ids: seq<FeedId>, hits: seq<FeedId>, a: Addr) {
    forall i :: 0 <= i < |ids| ==> (InFeed(env, ids[i], a) <==> ids[i] in hits)
  }

  /** Every bridge the core detected lies in Docker's default pool. */
  predicate BridgesInPool(bridges: seq<Entry>, a: Addr) {
    AnyNetwork(bridges, a) ==> Pool().Contains(a)
  }

  /** No flag combination of a scan is a plain SYN. */
  lemma SynIsNoScan(f: nat, mask: nat, v: nat)
    requires And(f, 0x17) == 0x02
    requires (mask, v) == (0xff, 0x00) || (mask, v) == (0xff, 0x01) || (mask, v) == (0x03, 0x03)
          || (mask, v) == (0x05, 0x05)
          || (mask, v) == (0x06, 0x06) || (mask, v) == (0x29, 0x29) || (mask, v) == (0xff, 0xff)
    ensures And(f, mask) != v
  {
    AndUnfolds(f, 0x17);
    AndUnfolds(f / 2, 0x0b);
    AndUnfolds(f / 2 / 2, 0x05);
    AndUnfolds(f, mask);
    AndUnfolds(f / 2, mask / 2);
    AndUnfolds(f / 2 / 2, mask / 2 / 2);
  }

  lemma NewConnectionIsNoScan(p: Packet, env: Env, a: Addr, port: int)
    requires NewConnection(p, env, a, port)
    ensures !IsScan(p)
  {
    ScansMean(p);
    forall i | 0 <= i < |SCANS| ensures !Flags(p, SCANS[i].0, SCANS[i].1) {
      var f := Field(p, 13, 1);
      SynIsNoScan(f.value, SCANS[i].0, SCANS[i].1);
    }
  }

  // ---- soundness ----

  lemma {:induction false} NoStatementSaysNothing(lines: seq<CustomLine>, env: Env)
    requires !HasStatement(lines)
    ensures CustomSays(lines, env) == Fell
  {
    if lines != [] {
      var front := lines[..|lines| - 1];
      assert forall i :: 0 <= i < |front| ==> front[i] == lines[i];
      NoStatementSaysNothing(front, env);
    }
  }

  lemma NetworksOf(n: NetworkSettings, bridges: seq<Entry>, a: Addr)
    requires !(a.fam.V6? && Ipv6ModeOf(n).Block?)
    ensures var nets, d := ContainerNetworks(n, bridges), n.docker;
            && (AnyNetwork(nets, a)
                <==> d.enabled && ((d.allowBridges && AnyNetwork(bridges, a)) || AnyNetwork(d.custom, a)))
            && (AnyNetwork(nets, a) ==> AnyCovers(nets, a))
  {
    var d := n.docker;
    if d.enabled {
      var first := if d.allowBridges then bridges else [];
      NetworkConcat(first, d.custom, a);
      if Ipv6ModeOf(n).Block? {
        KeptNetworks(first + d.custom, a);
      }
    }
    var nets := ContainerNetworks(n, bridges);
    if i :| 0 <= i < |nets| && nets[i].Net? && nets[i].Covers(a) {
      assert AnyCovers(nets, a);
    }
  }

  lemma NetworkConcat(x: seq<Entry>, y: seq<Entry>, a: Addr)
    ensures AnyNetwork(x + y, a) == (AnyNetwork(x, a) || AnyNetwork(y, a))
  {
    if i :| 0 <= i < |x| && x[i].Net? && x[i].Covers(a) {
      assert (x + y)[i].Covers(a);
    }
    if i :| 0 <= i < |y| && y[i].Net? && y[i].Covers(a) {
      assert (x + y)[|x| + i].Covers(a);
    }
  }

  /** Removing the IPv6 networks loses nothing for an IPv4 source. */
  lemma {:induction false} KeptNetworks(es: seq<Entry>, a: Addr)
    requires a.fam.V4?
    ensures AnyNetwork(WithoutIpv6(es), a) == AnyNetwork(es, a)
  {
    if es != [] {
      var front, last := es[..|es| - 1], [es[|es| - 1]];
      KeptNetworks(front, a);
      assert es == front + last;
      NetworkConcat(front, last, a);
      NetworkConcat(WithoutIpv6(front), if IsV6Network(last[0]) then [] else last, a);
    }
  }

  /** Everything ahead of the lists, for a new connection that is neither local nor decided by the IPv6 mode. */
  lemma ReachesTheLists(r: Rules, c: Config, bridges: seq<Entry>, p: Packet, env: Env, a: Addr, port: int)
    requires NewConnection(p, env, a, port) && !OnLoopback(p)
    requires !(a.fam.V6? && !Ipv6ModeOf(c.network).Filter?)
    ensures var nets := ContainerNetworks(c.network, bridges);
            && FrontFate(c, p, env) == Fell
            && ModulesFate(r, c.firewall, nets, p, env)
               == if c.firewall.bogons && IsBogon(c.firewall, p) && !BogonExempt(r, nets, p) then Dropped else Fell
  {
    NewConnectionIsNoScan(p, env, a, port);
  }

  /** The lists and the ports, as one fate. */
  function Rest(r: Rules, c: Config, nets: seq<Entry>, p: Packet, env: Env): Fate {
    Else(ListsFate(r, nets, p, env), PortsFate(r, c, p, env))
  }

  /** The bogon filter takes the packet. */
  predicate BogonTakes(r: Rules, o: Options, nets: seq<Entry>, p: Packet) {
    o.bogons && IsBogon(o, p) && !BogonExempt(r, nets, p)
  }

  lemma FromTheLists(r: Rules, c: Config, bridges: seq<Entry>, p: Packet, env: Env, a: Addr, port: int)
    requires NewConnection(p, env, a, port) && !OnLoopback(p) && (a.fam.V6? ==> FiltersIpv6(c.network))
    ensures var nets := ContainerNetworks(c.network, bridges);
            InputFate(r, c, bridges, p, env)
            == if BogonTakes(r, c.firewall, nets, p) then Dropped else Rest(r, c, nets, p, env)
  {
    ReachesTheLists(r, c, bridges, p, env, a, port);
  }

  lemma PortsMean(r: Rules, p: Packet, env: Env, a: Addr, port: int)
    requires NewConnection(p, env, a, port)
    ensures OpenedBy(L4.Tcp, r.tcp, p) == PortAdmits(r.tcp, a, port)
    ensures !OpenedBy(L4.Udp, r.udp, p)
  {
    if i :| 0 <= i < |r.tcp| && r.tcp[i].port.Covers(port) && r.tcp[i].FiltersHost() && r.tcp[i].Admits(a) {
      assert Opens(L4.Tcp, r.tcp[i], p);
    }
  }

  /** The ranges are networks, as the shipped list's are. */
  predicate RangesAreNetworks(o: Options) { forall i :: 0 <= i < |o.bogonRanges| ==> o.bogonRanges[i].Net? }

  lemma RangesMean(o: Options, a: Addr)
    requires RangesAreNetworks(o)
    ensures AnyNetwork(o.bogonRanges, a) == AnyCovers(o.bogonRanges, a)
  {
    if i :| 0 <= i < |o.bogonRanges| && o.bogonRanges[i].Covers(a) {
      assert o.bogonRanges[i].Net?;
    }
  }

  /** The connection the question is about: it arrives on lo exactly when it is local. */
  predicate About(p: Packet, env: Env, r: Rules, a: Addr, port: int, local: bool, hits: seq<FeedId>) {
    && NewConnection(p, env, a, port) && (OnLoopback(p) <==> local || IsLoopbackAddr(a))
    && HitsAreTheFeeds(env, r.feeds, hits, a)
  }

  lemma FeedsMean(env: Env, ids: seq<FeedId>, hits: seq<FeedId>, a: Addr)
    requires HitsAreTheFeeds(env, ids, hits, a)
    ensures InAnyFeed(env, ids, a) == AnyHit(ids, hits)
  {
  }

  lemma OpenMeans(r: Rules, c: Config, bridges: seq<Entry>, p: Packet, env: Env, a: Addr, port: int, local: bool,
                  hits: seq<FeedId>)
    requires RangesAreNetworks(c.firewall) && About(p, env, r, a, port, local, hits)
    requires Answer(r, c.firewall, c.network, Some(a), port, false, local, hits).0.ReachOpen?
    ensures InputFate(r, c, bridges, p, env).Accepted?
  {
    if !OnLoopback(p) && (a.fam.V6? ==> FiltersIpv6(c.network)) {
      OpenPastTheFront(r, c, bridges, p, env, a, port, local, hits);
    }
  }

  lemma OpenPastTheFront(r: Rules, c: Config, bridges: seq<Entry>, p: Packet, env: Env, a: Addr, port: int,
                         local: bool, hits: seq<FeedId>)
    requires RangesAreNetworks(c.firewall) && About(p, env, r, a, port, local, hits) && !OnLoopback(p)
    requires a.fam.V6? ==> FiltersIpv6(c.network)
    requires Answer(r, c.firewall, c.network, Some(a), port, false, local, hits).0.ReachOpen?
    ensures InputFate(r, c, bridges, p, env).Accepted?
  {
    FromTheLists(r, c, bridges, p, env, a, port);
    OpenRest(r, c, bridges, p, env, a, port, Pool().Contains(a), hits);
  }

  lemma OpenRest(r: Rules, c: Config, bridges: seq<Entry>, p: Packet, env: Env, a: Addr, port: int, pooled: bool,
                 hits: seq<FeedId>)
    requires NewConnection(p, env, a, port) && HitsAreTheFeeds(env, r.feeds, hits, a) && !OnLoopback(p)
    requires RangesAreNetworks(c.firewall)
    requires a.fam.V6? ==> FiltersIpv6(c.network)
    requires Ladder(r, c.firewall, c.network, a, port, false, pooled, hits).0.ReachOpen?
    ensures var nets := ContainerNetworks(c.network, bridges);
            !BogonTakes(r, c.firewall, nets, p) && Rest(r, c, nets, p, env).Accepted?
  {
    NetworksOf(c.network, bridges, a);
    RangesMean(c.firewall, a);
    FeedsMean(env, r.feeds, hits, a);
    PortsMean(r, p, env, a, port);
  }

  /** An auto-detected bridge the web process could not know of accepts the source. */
  predicate OnAnUnseenBridge(n: NetworkSettings, bridges: seq<Entry>, a: Addr) {
    n.docker.enabled && n.docker.allowBridges && AnyNetwork(bridges, a)
  }

  lemma BlockedMeans(r: Rules, c: Config, bridges: seq<Entry>, p: Packet, env: Env, a: Addr, port: int, local: bool,
                     hits: seq<FeedId>)
    requires About(p, env, r, a, port, local, hits)
    requires Answer(r, c.firewall, c.network, Some(a), port, false, local, hits).0.ReachBlocked?
    ensures InputFate(r, c, bridges, p, env).Accepted?
            <==> !(a.fam.V6? && c.network.ipv6.mode == Some(Block)) && OnAnUnseenBridge(c.network, bridges, a)
  {
    if !OnLoopback(p) && (a.fam.V6? ==> FiltersIpv6(c.network)) {
      FromTheLists(r, c, bridges, p, env, a, port);
      BlockedRest(r, c, bridges, p, env, a, port, Pool().Contains(a), hits);
    }
  }

  lemma BlockedRest(r: Rules, c: Config, bridges: seq<Entry>, p: Packet, env: Env, a: Addr, port: int, pooled: bool,
                    hits: seq<FeedId>)
    requires NewConnection(p, env, a, port) && HitsAreTheFeeds(env, r.feeds, hits, a) && !OnLoopback(p)
    requires a.fam.V6? ==> FiltersIpv6(c.network)
    requires Ladder(r, c.firewall, c.network, a, port, false, pooled, hits).0.ReachBlocked?
    ensures var nets, unseen := ContainerNetworks(c.network, bridges), OnAnUnseenBridge(c.network, bridges, a);
            && (Rest(r, c, nets, p, env).Accepted? <==> unseen)
            && (unseen ==> !BogonTakes(r, c.firewall, nets, p))
  {
    NetworksOf(c.network, bridges, a);
    FeedsMean(env, r.feeds, hits, a);
    PortsMean(r, p, env, a, port);
    if !HasStatement(r.custom) {
      NoStatementSaysNothing(r.custom, env);
    }
  }

  lemma PoolHidesNoBridge(r: Rules, o: Options, n: NetworkSettings, bridges: seq<Entry>, a: Addr, port: int,
                          local: bool, hits: seq<FeedId>)
    requires BridgesInPool(bridges, a)
    requires Answer(r, o, n, Some(a), port, false, local, hits).0.ReachBlocked?
    requires !(a.fam.V6? && n.ipv6.mode == Some(Block))
    ensures !OnAnUnseenBridge(n, bridges, a)
  {
  }

  /**
   Two readings of one chain: where the check says open, the compiled chain lets the connection in. Where it
   says blocked, the chain drops it exactly when no auto-detected bridge accepts the source first - which is
   always, as long as the detected bridges are in Docker's pool.
   */
  lemma ReachableIsSound(r: Rules, c: Config, bridges: seq<Entry>, nflog: bool, p: Packet, env: Env,
                         a: Addr, port: int, local: bool, hits: seq<FeedId>)
    requires r.Valid() && RangesAreNetworks(c.firewall) && About(p, env, r, a, port, local, hits)
    ensures var v := Answer(r, c.firewall, c.network, Some(a), port, false, local, hits).0;
            var admitted := Admitted(Compiled(r, c, bridges, nflog), Input, false, p, env);
            && (v.ReachOpen? ==> admitted)
            && (v.ReachBlocked? ==>
                  (admitted <==> !(a.fam.V6? && c.network.ipv6.mode == Some(Block))
                                 && OnAnUnseenBridge(c.network, bridges, a)))
            && (v.ReachBlocked? && BridgesInPool(bridges, a) ==> !admitted)
  {
    InputMeans(r, c, bridges, nflog, p, env);
    var v := Answer(r, c.firewall, c.network, Some(a), port, false, local, hits).0;
    if v.ReachOpen? {
      OpenMeans(r, c, bridges, p, env, a, port, local, hits);
    } else if v.ReachBlocked? {
      BlockedMeans(r, c, bridges, p, env, a, port, local, hits);
      if !(a.fam.V6? && c.network.ipv6.mode == Some(Block)) && BridgesInPool(bridges, a) {
        PoolHidesNoBridge(r, c.firewall, c.network, bridges, a, port, local, hits);
      }
    }
  }

  // ---- when the answer is unknown, and what it then hangs on ----

  /** Docker's pool in octets: 172.16 to 172.31. */
  lemma PoolIs(a: Addr)
    ensures Pool().Contains(a)
            <==> a.fam.V4? && a.val / 16777216 == 172 && 16 <= a.val / 65536 % 256 < 32
  {
    if a.fam.V4? {
      var v := a.val;
      SmallPowers();
      LargePowers();
      InLeading(a.fam, 172 * 16 + 1, 12, v);
      QuadOf(v);
      QuadParts(v / 16777216, v / 65536 % 256, v / 256 % 256, v % 256);
    }
  }

  /** The loopback addresses: 127 and whatever follows, or ::1. */
  lemma LoopbackIs(a: Addr)
    ensures IsLoopbackAddr(a) <==> if a.fam.V4? then a.val / 16777216 == 127 else a.val == 1
  {
    if a.fam.V4? {
      SmallPowers();
      LargePowers();
      InLeading(a.fam, 127, 8, a.val);
    }
  }

  /** Nothing ahead of the lists decides: the source is not local and IPv6 is filtered if it is an IPv6 one. */
  predicate Undecided(n: NetworkSettings, a: Addr, local: bool) {
    !local && if a.fam.V4? then a.val / 16777216 != 127 else a.val != 1 && FiltersIpv6(n)
  }

  /** A source in Docker's pool that no configured network names, while bridges are let in. */
  predicate PerhapsOnABridge(d: DockerConfig, a: Addr) {
    && d.enabled && d.allowBridges && !AnyNetwork(d.custom, a)
    && a.fam.V4? && a.val / 16777216 == 172 && 16 <= a.val / 65536 % 256 < 32
  }

  /** The bogon filter is in the way, and neither the allowlist nor a configured network lifts it. */
  predicate PerhapsABogon(r: Rules, o: Options, d: DockerConfig, a: Addr) {
    && o.bogons && a.fam.V4? && AnyNetwork(o.bogonRanges, a) && !AnyCovers(r.allowlist, a)
    && !(d.enabled && AnyNetwork(d.custom, a))
  }

  /** No list, feed or port rule speaks about the source, and there are raw lines. */
  predicate LeftToCustomLines(r: Rules, d: DockerConfig, a: Addr, port: int, hits: seq<FeedId>) {
    && HasStatement(r.custom) && !(d.enabled && AnyNetwork(d.custom, a))
    && !AnyCovers(r.blocklist, a) && !AnyCovers(r.allowlist, a) && !AnyHit(r.feeds, hits)
    && !PortAdmits(r.tcp, a, port)
  }

  /** The answer is unknown if and only if it cannot be told who asks, or one of the three applies. */
  lemma UnknownExactlyWhen(r: Rules, o: Options, n: NetworkSettings, src: Option<Addr>, port: int, proxied: bool,
                           local: bool, hits: seq<FeedId>)
    ensures Answer(r, o, n, src, port, proxied, local, hits).0.ReachUnknown?
            <==> || proxied || src.None?
                 || (&& Undecided(n, src.value, local)
                     && (|| PerhapsABogon(r, o, n.docker, src.value) || PerhapsOnABridge(n.docker, src.value)
                         || LeftToCustomLines(r, n.docker, src.value, port, hits)))
  {
    if src.Some? {
      var a := src.value;
      PoolIs(a);
      LoopbackIs(a);
      LadderUnknown(r, o, n, a, port, local || IsLoopbackAddr(a), Pool().Contains(a), hits);
    }
  }

  lemma LadderUnknown(r: Rules, o: Options, n: NetworkSettings, a: Addr, port: int, home: bool, pooled: bool,
                      hits: seq<FeedId>)
    ensures var d := n.docker;
            Ladder(r, o, n, a, port, home, pooled, hits).0.ReachUnknown?
            <==> && !home && (a.fam.V6? ==> FiltersIpv6(n))
                 && (|| PerhapsABogon(r, o, d, a)
                     || (d.enabled && d.allowBridges && !AnyNetwork(d.custom, a) && pooled)
                     || LeftToCustomLines(r, d, a, port, hits))
  {
    NamedMeans(n.docker, a);
  }

  lemma NamedMeans(d: DockerConfig, a: Addr)
    ensures AnyNetwork(NamedNetworks(d), a) <==> d.enabled && AnyNetwork(d.custom, a)
  {
  }

  lemma {:induction false} CustomLetsIn(lines: seq<CustomLine>, text: string, env: Env)
    requires Statement(text) in lines && env.custom == map[text := true]
    ensures CustomSays(lines, env) == Accepted
  {
    var front, l := lines[..|lines| - 1], lines[|lines| - 1];
    assert lines == front + [l];
    if Statement(text) in front {
      CustomLetsIn(front, text, env);
    } else {
      NoOtherSays(front, text, env);
    }
  }

  lemma {:induction false} NoOtherSays(lines: seq<CustomLine>, text: string, env: Env)
    requires Statement(text) !in lines && env.custom == map[text := true]
    ensures CustomSays(lines, env) == Fell
  {
    if lines != [] {
      var front, l := lines[..|lines| - 1], lines[|lines| - 1];
      assert lines == front + [l];
      NoOtherSays(front, text, env);
    }
  }

  lemma {:induction false} SilentCustom(lines: seq<CustomLine>, env: Env)
    requires env.custom == map[]
    ensures CustomSays(lines, env) == Fell
  {
    if lines != [] {
      SilentCustom(lines[..|lines| - 1], env);
    }
  }

  /** Unknown over raw lines: the lines alone decide, one way or the other. */
  lemma CustomLinesDecide(r: Rules, c: Config, bridges: seq<Entry>, nflog: bool, p: Packet, env: Env, a: Addr,
                          port: int, local: bool, hits: seq<FeedId>, text: string)
    requires r.Valid() && RangesAreNetworks(c.firewall) && About(p, env, r, a, port, local, hits)
    requires Answer(r, c.firewall, c.network, Some(a), port, false, local, hits) == (ReachUnknown, CustomRules)
    requires !OnAnUnseenBridge(c.network, bridges, a) && Statement(text) in r.custom
    ensures Admitted(Compiled(r, c, bridges, nflog), Input, false, p, env.(custom := map[text := true]))
    ensures !Admitted(Compiled(r, c, bridges, nflog), Input, false, p, env.(custom := map[]))
  {
    var yes, no := env.(custom := map[text := true]), env.(custom := map[]);
    CustomLetsIn(r.custom, text, yes);
    SilentCustom(r.custom, no);
    AdmittedByCustom(r, c, bridges, nflog, p, yes, a, port, local, hits);
    AdmittedByCustom(r, c, bridges, nflog, p, no, a, port, local, hits);
  }

  lemma AdmittedByCustom(r: Rules, c: Config, bridges: seq<Entry>, nflog: bool, p: Packet, env: Env, a: Addr,
                         port: int, local: bool, hits: seq<FeedId>)
    requires r.Valid() && RangesAreNetworks(c.firewall) && About(p, env, r, a, port, local, hits)
    requires Answer(r, c.firewall, c.network, Some(a), port, false, local, hits) == (ReachUnknown, CustomRules)
    requires !OnAnUnseenBridge(c.network, bridges, a)
    ensures Admitted(Compiled(r, c, bridges, nflog), Input, false, p, env) <==> CustomSays(r.custom, env).Accepted?
  {
    InputMeans(r, c, bridges, nflog, p, env);
    LeftToCustom(r, c, bridges, p, env, a, port, local, hits);
  }

  lemma LeftToCustom(r: Rules, c: Config, bridges: seq<Entry>, p: Packet, env: Env, a: Addr, port: int, local: bool,
                     hits: seq<FeedId>)
    requires RangesAreNetworks(c.firewall) && About(p, env, r, a, port, local, hits)
    requires Answer(r, c.firewall, c.network, Some(a), port, false, local, hits) == (ReachUnknown, CustomRules)
    requires !OnAnUnseenBridge(c.network, bridges, a)
    ensures InputFate(r, c, bridges, p, env) == CustomSays(r.custom, env)
  {
    FromTheLists(r, c, bridges, p, env, a, port);
    CustomRest(r, c, bridges, p, env, a, port, Pool().Contains(a), hits);
  }

  lemma CustomRest(r: Rules, c: Config, bridges: seq<Entry>, p: Packet, env: Env, a: Addr, port: int, pooled: bool,
                   hits: seq<FeedId>)
    requires RangesAreNetworks(c.firewall) && NewConnection(p, env, a, port) && HitsAreTheFeeds(env, r.feeds, hits, a)
    requires Ladder(r, c.firewall, c.network, a, port, false, pooled, hits) == (ReachUnknown, CustomRules)
    requires !OnAnUnseenBridge(c.network, bridges, a)
    ensures var nets := ContainerNetworks(c.network, bridges);
            !BogonTakes(r, c.firewall, nets, p) && Rest(r, c, nets, p, env) == CustomSays(r.custom, env)
  {
    NetworksOf(c.network, bridges, a);
    RangesMean(c.firewall, a);
    FeedsMean(env, r.feeds, hits, a);
    PortsMean(r, p, env, a, port);
  }

  /** Unknown over a bridge: a detected bridge that holds the source lets it in. */
  lemma BridgeDecides(r: Rules, c: Config, bridges: seq<Entry>, nflog: bool, p: Packet, env: Env, a: Addr, port: int,
                      local: bool, hits: seq<FeedId>)
    requires r.Valid() && RangesAreNetworks(c.firewall) && About(p, env, r, a, port, local, hits)
    requires Answer(r, c.firewall, c.network, Some(a), port, false, local, hits) == (ReachUnknown, DockerBridge)
    requires AnyNetwork(bridges, a)
    ensures Admitted(Compiled(r, c, bridges, nflog), Input, false, p, env)
  {
    InputMeans(r, c, bridges, nflog, p, env);
    BridgeFate(r, c, bridges, p, env, a, port, local, hits);
  }

  lemma BridgeFate(r: Rules, c: Config, bridges: seq<Entry>, p: Packet, env: Env, a: Addr, port: int, local: bool,
                   hits: seq<FeedId>)
    requires RangesAreNetworks(c.firewall) && About(p, env, r, a, port, local, hits)
    requires Answer(r, c.firewall, c.network, Some(a), port, false, local, hits) == (ReachUnknown, DockerBridge)
    requires AnyNetwork(bridges, a)
    ensures InputFate(r, c, bridges, p, env).Accepted?
  {
    FromTheLists(r, c, bridges, p, env, a, port);
    BridgeRest(r, c, bridges, p, env, a, port, Pool().Contains(a), hits);
  }

  lemma BridgeRest(r: Rules, c: Config, bridges: seq<Entry>, p: Packet, env: Env, a: Addr, port: int, pooled: bool,
                   hits: seq<FeedId>)
    requires RangesAreNetworks(c.firewall) && NewConnection(p, env, a, port) && HitsAreTheFeeds(env, r.feeds, hits, a)
    requires Ladder(r, c.firewall, c.network, a, port, false, pooled, hits) == (ReachUnknown, DockerBridge)
    requires AnyNetwork(bridges, a)
    ensures var nets := ContainerNetworks(c.network, bridges);
            !BogonTakes(r, c.firewall, nets, p) && Rest(r, c, nets, p, env) == Accepted
  {
    NetworksOf(c.network, bridges, a);
    RangesMean(c.firewall, a);
  }

  /** Unknown over the bogon filter: it takes the connection unless a bridge or a rule naming source and port speaks. */
  lemma BogonExceptionDecides(r: Rules, c: Config, bridges: seq<Entry>, nflog: bool, p: Packet, env: Env, a: Addr,
                              port: int, local: bool, hits: seq<FeedId>)
    requires r.Valid() && RangesAreNetworks(c.firewall) && About(p, env, r, a, port, local, hits)
    requires Answer(r, c.firewall, c.network, Some(a), port, false, local, hits) == (ReachUnknown, BogonFilter)
    requires Admitted(Compiled(r, c, bridges, nflog), Input, false, p, env)
    ensures AnyCovers(ContainerNetworks(c.network, bridges), a) || NamedBy(L4.Tcp, r.tcp, p)
  {
    InputMeans(r, c, bridges, nflog, p, env);
    BogonFate(r, c, bridges, p, env, a, port, local, hits);
  }

  lemma BogonFate(r: Rules, c: Config, bridges: seq<Entry>, p: Packet, env: Env, a: Addr, port: int, local: bool,
                  hits: seq<FeedId>)
    requires RangesAreNetworks(c.firewall) && About(p, env, r, a, port, local, hits)
    requires Answer(r, c.firewall, c.network, Some(a), port, false, local, hits) == (ReachUnknown, BogonFilter)
    requires InputFate(r, c, bridges, p, env).Accepted?
    ensures AnyCovers(ContainerNetworks(c.network, bridges), a) || NamedBy(L4.Tcp, r.tcp, p)
  {
    FromTheLists(r, c, bridges, p, env, a, port);
    BogonAsks(r, c.firewall, c.network, a, port, Pool().Contains(a), hits);
  }

  lemma BogonAsks(r: Rules, o: Options, n: NetworkSettings, a: Addr, port: int, pooled: bool, hits: seq<FeedId>)
    requires RangesAreNetworks(o) && Ladder(r, o, n, a, port, false, pooled, hits) == (ReachUnknown, BogonFilter)
    ensures o.bogons && a.fam.V4? && AnyCovers(o.bogonRanges, a) && !AnyCovers(r.allowlist, a)
  {
    RangesMean(o, a);
  }

  /**
   The inputs "blocked" is wrong about: with no rules at all, every source on a detected bridge outside Docker's
   pool. The check says no rule opens the port, and the chain lets the connection in.
   */
  lemma BlockedButAdmitted(r: Rules, c: Config, bridges: seq<Entry>, nflog: bool, p: Packet, env: Env, a: Addr,
                           port: int)
    requires r.IsEmpty() && RangesAreNetworks(c.firewall) && About(p, env, r, a, port, false, [])
    requires a.fam.V4? && !IsLoopbackAddr(a) && OnAnUnseenBridge(c.network, bridges, a) && !Pool().Contains(a)
    requires !c.firewall.bogons && c.network.docker.custom == []
    ensures Answer(r, c.firewall, c.network, Some(a), port, false, false, []) == (ReachBlocked, NoRule)
    ensures Admitted(Compiled(r, c, bridges, nflog), Input, false, p, env)
  {
    NoRuleAnswers(r, c.firewall, c.network, a, port);
    ReachableIsSound(r, c, bridges, nflog, p, env, a, port, false, []);
  }

  lemma NoRuleAnswers(r: Rules, o: Options, n: NetworkSettings, a: Addr, port: int)
    requires r.IsEmpty() && a.fam.V4? && !IsLoopbackAddr(a) && !Pool().Contains(a) && !o.bogons && n.docker.custom == []
    ensures Answer(r, o, n, Some(a), port, false, false, []) == (ReachBlocked, NoRule)
  {
  }
}
