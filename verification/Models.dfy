/** The values the core passes around: rule sets, options and network settings. */
module Models {
  import opened Addresses

  /** A parsed port field: one number or an inclusive range. */
  datatype PortSpec = Single(port: int) | Through(low: int, high: int) {
    /** validatePortRule: every number in 1..65535, a range not ending before it starts. */
    predicate Valid() {
      match this
      case Single(p) => 1 <= p <= 65535
      case Through(l, h) => 1 <= l <= h <= 65535
    }

    predicate Covers(port: int) {
      match this
      case Single(p) => p == port
      case Through(l, h) => l <= port <= h
    }
  }

  /** A valid field names some port, and only ports that exist. */
  lemma ValidNamesPorts(s: PortSpec)
    ensures s.Valid() <==> (exists p :: s.Covers(p)) && forall p :: s.Covers(p) ==> 1 <= p <= 65535
  {
    var low := if s.Single? then s.port else s.low;
    var high := if s.Single? then s.port else s.high;
    if low <= high {
      assert s.Covers(low) && s.Covers(high);
    }
  }

  datatype Scope = Host | Forwarded | Both

  datatype PortRule = PortRule(id: string, port: PortSpec, ssh: bool, scope: Scope, sources: seq<Entry>) {
    predicate FiltersHost() { scope.Host? || scope.Both? }
    predicate FiltersForwarded() { scope.Forwarded? || scope.Both? }

    /** The rule names this source: no list at all, or an entry that covers it. */
    predicate Admits(src: Addr) { sources == [] || AnyCovers(sources, src) }
  }

  predicate AnyCovers(entries: seq<Entry>, a: Addr) {
    exists i :: 0 <= i < |entries| && entries[i].Covers(a)
  }

  lemma CoversBoth(x: seq<Entry>, y: seq<Entry>, a: Addr)
    ensures AnyCovers(x + y, a) <==> AnyCovers(x, a) || AnyCovers(y, a)
  {
    if i :| 0 <= i < |x| && x[i].Covers(a) {
      assert (x + y)[i] == x[i];
    }
    if i :| 0 <= i < |y| && y[i].Covers(a) {
      assert (x + y)[|x| + i] == y[i];
    }
  }

  /** inAnyCIDR: the same question of a list where only networks count. */
  predicate AnyNetwork(entries: seq<Entry>, a: Addr) {
    exists i :: 0 <= i < |entries| && entries[i].Net? && entries[i].Covers(a)
  }

  datatype L4 = Tcp | Udp

  function Protocol(l: L4): nat { if l.Tcp? then 6 else 17 }

  datatype Redirect = Redirect(proto: L4, incoming: int, serving: int)

  /** A feed the core knows: somebody's list, or a country's networks. */
  datatype FeedId = ListFeed(name: string) | CountryFeed(code: string)

  /** One raw nft line of the custom list; a comment or blank line adds no rule. */
  datatype CustomLine = Note | Statement(text: string)

  datatype Rules = Rules(
    tcp: seq<PortRule>, udp: seq<PortRule>, blocklist: seq<Entry>, allowlist: seq<Entry>,
    forwarding: seq<Redirect>, custom: seq<CustomLine>, feeds: seq<FeedId>)
  {
    predicate IsEmpty() {
      tcp == [] && udp == [] && blocklist == [] && allowlist == [] && forwarding == [] && custom == [] && feeds == []
    }

    /** The part of ValidateRules the filter depends on. */
    predicate Valid() {
      && (forall i :: 0 <= i < |tcp| ==> tcp[i].port.Valid())
      && (forall i :: 0 <= i < |udp| ==> udp[i].port.Valid())
    }
  }

  datatype Ipv6Mode = Filter | Passthrough | Block
  datatype RoutingMode = Closed | Networks | Open

  /** An unknown or unset mode arrives as None: Apply reads it as filter, or as closed. */
  datatype Ipv6Config = Ipv6Config(mode: Option<Ipv6Mode>, routerAdverts: bool, neighborAdverts: bool)
  datatype RoutingConfig = RoutingConfig(mode: Option<RoutingMode>, networks: seq<Entry>)
  datatype DockerConfig = DockerConfig(
    enabled: bool, allowBridges: bool, custom: seq<Entry>, filtersPublishedPorts: bool)
  datatype NetworkSettings = NetworkSettings(ipv6: Ipv6Config, docker: DockerConfig, routing: RoutingConfig)

  /**
   The switches; the numeric limits live in the kernel's meters, which are an oracle here.
   `bogonRanges` is the package variable BogonRanges, which the builder and the reachability check both read.
   */
  datatype Options = Options(
    sshBruteForce: bool, sshLog: bool, allowEcho: bool,
    icmpFlood: bool, icmpLog: bool, synFlood: bool, synLog: bool, portScan: bool, portScanLog: bool,
    invalid: bool, invalidLog: bool, fragments: bool, fragmentsLog: bool, bogons: bool, bogonsLog: bool,
    connectionLimit: bool, rstFlood: bool, rstLog: bool,
    dropBroadcast: bool, dropMulticast: bool, dropAnycast: bool,
    logBlocked: bool, logBlocklist: bool, logFeed: bool,
    bogonRanges: seq<Entry>)

  /** What one kernel write is given besides the rules. */
  datatype Config = Config(firewall: Options, network: NetworkSettings)

  /** rules.json: three copies of the rule set in one file. */
  datatype RulesState = RulesState(current: Rules, staged: Rules, backup: Rules)
}
