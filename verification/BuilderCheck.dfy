/** Every table the builder writes passes the builder's own check. */
module BuilderCheck {
  import opened Addresses
  import opened Models
  import opened Netfilter
  import opened Matches
  import opened Compiler
  import opened RuleCheck
  import opened CheckTheorems

  // ---- rules without a conntrack test ----

  /** Nothing the check could object to; accepts and jumps only as allowed. */
  predicate DecentExpr(e: Expr, accept: bool, to: set<Chain>) {
    match e
    case Verdict(Accept) => accept
    case Verdict(Jump(c)) => c in to
    case Verdict(Goto(_)) => false
    case Verdict(Other(_)) => false
    case Ct(_, _) => false
    case Custom(_) => false
    case Redir(_) => accept
    case _ => true
  }

  predicate Decent(es: Rule, accept: bool, to: set<Chain>) {
    forall i :: 0 <= i < |es| ==> DecentExpr(es[i], accept, to)
  }

  predicate AllDecent(rules: seq<Rule>, accept: bool, to: set<Chain>) {
    forall i :: 0 <= i < |rules| ==> Decent(rules[i], accept, to)
  }

  /** What the check asks of one rule. */
  ghost predicate Fine(es: Rule, accept: bool, to: set<Chain>) {
    && (forall i :: 0 <= i < |es| ==> FaultAt(es, i).None?)
    && (Accepts(es) ==> accept)
    && (forall c :: JumpsTo(es, c) ==> c in to)
    && (accept || (NoRaw(es) && SendsNowhere(es)))
  }

  ghost predicate AllFine(rules: seq<Rule>, accept: bool, to: set<Chain>) {
    forall i :: 0 <= i < |rules| ==> Fine(rules[i], accept, to)
  }

  lemma {:induction false} NoStateBefore(es: Rule, i: nat, reg: nat)
    requires i <= |es| && forall j :: 0 <= j < i ==> !es[j].Ct?
    ensures !PrecededByCtState(es, i, reg)
  {
    if i > 0 {
      NoStateBefore(es, i - 1, reg);
    }
  }

  lemma DecentIsFine(es: Rule, accept: bool, to: set<Chain>)
    requires Decent(es, accept, to)
    ensures Fine(es, accept, to)
  {
    forall i | 0 <= i < |es| ensures FaultAt(es, i).None? {
      assert DecentExpr(es[i], accept, to);
      if es[i].Bitwise? {
        NoStateBefore(es, i, es[i].from);
      }
    }
  }

  lemma AllDecentIsFine(rules: seq<Rule>, accept: bool, to: set<Chain>)
    requires AllDecent(rules, accept, to)
    ensures AllFine(rules, accept, to)
  {
    forall i | 0 <= i < |rules| ensures Fine(rules[i], accept, to) {
      DecentIsFine(rules[i], accept, to);
    }
  }

  /** A conntrack test between two decent halves is fine when its mask names real states. */
  lemma StateTestIsFine(pre: Rule, mask: nat, tail: Rule, accept: bool, to: set<Chain>)
    requires Decent(pre, accept, to) && Decent(tail, accept, to) && 1 <= mask <= 0x0f
    requires forall i :: 0 <= i < |tail| ==> !tail[i].Bitwise?
    ensures Fine(pre + CtAny(mask) + tail, accept, to)
  {
    var es := pre + CtAny(mask) + tail;
    var n := |pre|;
    assert es[n] == Ct(CtState, 1) && es[n + 1] == Bitwise(1, 1, 4, mask) && es[n + 2] == Cmp(Neq, 1, 0);
    forall i | 0 <= i < |es| && i != n ensures i == n + 1 || DecentExpr(es[i], accept, to) {
      if i < n {
        assert es[i] == pre[i];
      } else if i > n + 2 {
        assert es[i] == tail[i - n - 3];
      }
    }
    forall i | 0 <= i < |es| ensures FaultAt(es, i).None? {
      if i < n && es[i].Bitwise? {
        NoStateBefore(es, i, es[i].from);
      }
      if i > n + 2 {
        assert es[i] == tail[i - n - 3];
      }
    }
  }

  lemma {:induction false} FlatDecent<T>(items: seq<T>, rules: T -> seq<Rule>, accept: bool, to: set<Chain>)
    requires forall i :: 0 <= i < |items| ==> AllDecent(rules(items[i]), accept, to)
    ensures AllDecent(Flat(items, rules), accept, to)
  {
    if items != [] {
      var front := items[..|items| - 1];
      assert forall i :: 0 <= i < |front| ==> front[i] == items[i];
      FlatDecent(front, rules, accept, to);
    }
  }

  // ---- the builders' rules ----

  lemma MatchDecent(r: Reader, e: Entry, accept: bool, to: set<Chain>)
    ensures MatchOf(r, e).Some? ==> Decent(MatchOf(r, e).value, accept, to)
  {
  }

  lemma PortsDecent(s: PortSpec, accept: bool, to: set<Chain>)
    ensures Decent(PortIs(s), accept, to)
  {
  }

  lemma LoggedDecent(m: Rule, lg: LogSpec, tail: Rule, accept: bool, to: set<Chain>)
    requires Decent(m, accept, to) && Decent(tail, accept, to)
    ensures AllDecent(Logged(m, lg, tail), accept, to)
  {
    assert Decent(m + tail, accept, to);
    assert Decent(m + LogExprs(lg.prefix, lg.nflog), accept, to);
  }

  lemma EntriesDecent(es: seq<Entry>, r: Reader, lg: LogSpec, tail: Rule, accept: bool, to: set<Chain>)
    requires Decent(tail, accept, to)
    ensures AllDecent(Flat(es, PerEntry(r, lg, tail)), accept, to)
  {
    forall i | 0 <= i < |es| ensures AllDecent(PerEntry(r, lg, tail)(es[i]), accept, to) {
      MatchDecent(r, es[i], accept, to);
      if MatchOf(r, es[i]).Some? {
        LoggedDecent(MatchOf(r, es[i]).value, lg, tail, accept, to);
      }
    }
    FlatDecent(es, PerEntry(r, lg, tail), accept, to);
  }

  lemma RateDecent(w: Watch, m: Meter, c: Chain, accept: bool, to: set<Chain>)
    requires c in to
    ensures AllDecent(RateLimited(w, m, c), accept, to)
  {
    RateRuleDecent(w, m, c, V4, accept, to);
    RateRuleDecent(w, m, c, V6, accept, to);
  }

  lemma RateRuleDecent(w: Watch, m: Meter, c: Chain, f: Family, accept: bool, to: set<Chain>)
    requires c in to
    ensures Decent(RateRule(w, m, c, f), accept, to)
  {
  }

  lemma OverDecent(lg: LogSpec, accept: bool, to: set<Chain>)
    ensures AllDecent(OverRate(lg), accept, to) && OverRate(lg) != []
  {
  }

  // ---- tables ----

  /** The chains that hang on a hook and may end a packet's way; nothing jumps to them. */
  predicate MayAccept(c: Chain) { c == Input || c == Forward || c == Prerouting }

  ghost predicate TableFine(t: Table, to: set<Chain>) {
    forall k :: 0 <= k < |t| ==> Fine(t[k].rule, MayAccept(t[k].chain), to)
  }

  lemma PlacedFine(c: Chain, rules: seq<Rule>, to: set<Chain>)
    requires AllFine(rules, MayAccept(c), to)
    ensures TableFine(In(c, rules), to)
  {
  }

  lemma PlacedDecent(c: Chain, rules: seq<Rule>, to: set<Chain>)
    requires AllDecent(rules, MayAccept(c), to)
    ensures TableFine(In(c, rules), to)
  {
    AllDecentIsFine(rules, MayAccept(c), to);
  }

  /** A table that jumps only to chains it fills, none of which accepts, is clean. */
  lemma FineIsClean(t: Table, to: set<Chain>)
    requires TableFine(t, to) && forall c :: c in to ==> Created(t, c) && !MayAccept(c)
    ensures Clean(t, {})
  {
    forall k | 0 <= k < |t| ensures !JumpsNowhere(t, t[k].rule) {
      var es := t[k].rule;
      forall i | 0 <= i < |es| && TargetOf(es[i]).Some? ensures Created(t, TargetOf(es[i]).value) {
        assert JumpsTo(es, TargetOf(es[i]).value);
      }
    }
    forall f ensures !IsFault(t, {}, f) {
    }
  }

  lemma BothFine(a: Table, b: Table, to: set<Chain>)
    requires TableFine(a, to) && TableFine(b, to)
    ensures TableFine(a + b, to)
  {
  }

  lemma CreatedBoth(a: Table, b: Table, c: Chain)
    requires Created(a, c) || Created(b, c)
    ensures Created(a + b, c)
  {
    if k :| 0 <= k < |a| && a[k].chain == c {
      assert (a + b)[k].chain == c;
    }
    if k :| 0 <= k < |b| && b[k].chain == c {
      assert (a + b)[|a| + k].chain == c;
    }
  }

  lemma CreatedIn(c: Chain, rules: seq<Rule>)
    requires rules != []
    ensures Created(In(c, rules), c)
  {
    assert In(c, rules)[0].chain == c;
  }

  // ---- the parts ----

  /** The chains the enabled modules jump to. */
  function Targets(r: Rules, c: Config, nets: seq<Entry>): set<Chain> {
    var o := c.firewall;
    (if o.icmpFlood then {IcmpFloodOver} else {}) + (if o.rstFlood then {TcpRstOver} else {})
    + (if o.portScan then {PortScan} else {}) + (if o.synFlood then {SynFloodOver} else {})
    + (if o.bogons then {Bogon} else {}) + (if o.sshBruteForce then {SshBrute, SshBruteOver} else {})
    + (if HasLists(r, c.network, nets) then {ForwardLists} else {})
  }

  lemma RatePartFine(on: bool, part: Table, c: Chain, lg: LogSpec, w: Watch, m: Meter, to: set<Chain>)
    requires part == if on then In(c, OverRate(lg)) + In(Input, RateLimited(w, m, c)) else []
    requires on ==> c in to && c != Input
    ensures TableFine(part, to) && (on ==> Created(part, c))
  {
    if on {
      OverDecent(lg, MayAccept(c), to);
      RateDecent(w, m, c, true, to);
      PlacedDecent(c, OverRate(lg), to);
      PlacedDecent(Input, RateLimited(w, m, c), to);
      BothFine(In(c, OverRate(lg)), In(Input, RateLimited(w, m, c)), to);
      CreatedIn(c, OverRate(lg));
      CreatedBoth(In(c, OverRate(lg)), In(Input, RateLimited(w, m, c)), c);
    }
  }

  lemma EstablishedFine(to: set<Chain>)
    ensures AllFine(ESTABLISHED, true, to)
  {
    var pre: Rule := [];
    StateTestIsFine(pre, 0x06, [Counter, Verdict(Accept)], true, to);
    assert pre + CtAny(0x06) + [Counter, Verdict(Accept)] == ESTABLISHED[0];
  }

  lemma OpeningDecent(n: NetworkSettings, to: set<Chain>)
    ensures AllDecent(LOOPBACK + FamilyVerdict(Ipv6ModeOf(n)), true, to)
    ensures AllDecent(DiscoveryRules(n), true, to)
  {
    assert AllDecent(LOOPBACK, true, to) && AllDecent(FamilyVerdict(Ipv6ModeOf(n)), true, to);
    var types := Discovery(n.ipv6);
    forall i | 0 <= i < |types| ensures AllDecent(TypeAccept(ICMPV6)(types[i]), true, to) {
    }
    FlatDecent(types, TypeAccept(ICMPV6), true, to);
  }

  lemma FrontFine(c: Config, nflog: bool, to: set<Chain>)
    requires (c.firewall.icmpFlood ==> IcmpFloodOver in to) && (c.firewall.rstFlood ==> TcpRstOver in to)
    ensures TableFine(Front(c, nflog), to)
    ensures c.firewall.icmpFlood ==> Created(Front(c, nflog), IcmpFloodOver)
    ensures c.firewall.rstFlood ==> Created(Front(c, nflog), TcpRstOver)
  {
    var o := c.firewall;
    var first, last := LOOPBACK + FamilyVerdict(Ipv6ModeOf(c.network)), ESTABLISHED + DiscoveryRules(c.network);
    var icmp, rst := IcmpFlood(o, nflog), RstFlood(o, nflog);
    OpeningDecent(c.network, to);
    PlacedDecent(Input, first, to);
    RatePartFine(o.icmpFlood, icmp, IcmpFloodOver, LogSpec(o.icmpLog, "easywall icmp-flood: ", nflog), Echoes,
                 IcmpFloodMeter, to);
    RatePartFine(o.rstFlood, rst, TcpRstOver, LogSpec(o.rstLog, "easywall tcp-rst: ", nflog), Resets, TcpRstMeter, to);
    EstablishedFine(to);
    AllDecentIsFine(DiscoveryRules(c.network), true, to);
    PlacedFine(Input, last, to);
    BothFine(In(Input, first), icmp, to);
    BothFine(In(Input, first) + icmp, rst, to);
    BothFine(In(Input, first) + icmp + rst, In(Input, last), to);
    FrontCreates(In(Input, first), icmp, rst, In(Input, last), IcmpFloodOver);
    FrontCreates(In(Input, first), icmp, rst, In(Input, last), TcpRstOver);
  }

  lemma FrontCreates(a: Table, b: Table, c: Table, d: Table, at: Chain)
    ensures Created(b, at) || Created(c, at) ==> Created(a + b + c + d, at)
  {
    if Created(b, at) || Created(c, at) {
      if Created(b, at) {
        CreatedBoth(a, b, at);
      }
      CreatedBoth(a + b, c, at);
      CreatedBoth(a + b + c, d, at);
    }
  }

  lemma ScansFine(o: Options, nflog: bool, to: set<Chain>)
    requires o.portScan ==> PortScan in to
    ensures TableFine(Scans(o, nflog), to) && (o.portScan ==> Created(Scans(o, nflog), PortScan))
  {
    if o.portScan {
      var lg := LogSpec(o.portScanLog, "easywall portscan: ", nflog);
      var rules := Flat(SCANS, ScanRule());
      forall i | 0 <= i < |SCANS| ensures AllDecent(ScanRule()(SCANS[i]), true, to) {
      }
      FlatDecent(SCANS, ScanRule(), true, to);
      OverDecent(lg, false, to);
      PlacedDecent(PortScan, OverRate(lg), to);
      PlacedDecent(Input, rules, to);
      BothFine(In(PortScan, OverRate(lg)), In(Input, rules), to);
      CreatedIn(PortScan, OverRate(lg));
      CreatedBoth(In(PortScan, OverRate(lg)), In(Input, rules), PortScan);
    }
  }

  lemma InvalidFine(o: Options, nflog: bool, to: set<Chain>)
    ensures AllFine(InvalidRules(o, nflog), true, to)
  {
    if o.invalid {
      var pre: Rule := [];
      var log := LogExprs("easywall invalid: ", nflog);
      StateTestIsFine(pre, 0x01, [Verdict(Drop)], true, to);
      StateTestIsFine(pre, 0x01, log, true, to);
      assert pre + CtAny(0x01) + [Verdict(Drop)] == CtAny(0x01) + [Verdict(Drop)];
      assert pre + CtAny(0x01) + log == CtAny(0x01) + log;
    }
  }

  lemma FirstFine(o: Options, nflog: bool, to: set<Chain>)
    requires (o.portScan ==> PortScan in to) && (o.synFlood ==> SynFloodOver in to)
    ensures TableFine(FirstModules(o, nflog), to)
    ensures o.portScan ==> Created(FirstModules(o, nflog), PortScan)
    ensures o.synFlood ==> Created(FirstModules(o, nflog), SynFloodOver)
  {
    var scans, syns, inv, frag := Scans(o, nflog), SynFlood(o, nflog), InvalidRules(o, nflog), FragmentRules(o, nflog);
    ScansFine(o, nflog, to);
    RatePartFine(o.synFlood, syns, SynFloodOver, LogSpec(o.synLog, "easywall syn-flood: ", nflog), Syns, SynFloodMeter,
                 to);
    InvalidFine(o, nflog, to);
    PlacedFine(Input, inv, to);
    FragmentsDecent(o, nflog, to);
    PlacedDecent(Fragments, frag, to);
    BothFine(scans, syns, to);
    BothFine(scans + syns, In(Input, inv), to);
    BothFine(scans + syns + In(Input, inv), In(Fragments, frag), to);
    FirstCreates(scans, syns, In(Input, inv), In(Fragments, frag), PortScan);
    FirstCreates(scans, syns, In(Input, inv), In(Fragments, frag), SynFloodOver);
  }

  lemma FirstCreates(a: Table, b: Table, c: Table, d: Table, at: Chain)
    ensures Created(a, at) || Created(b, at) ==> Created(a + b + c + d, at)
  {
    if Created(a, at) || Created(b, at) {
      CreatedBoth(a, b, at);
      CreatedBoth(a + b, c, at);
      CreatedBoth(a + b + c, d, at);
    }
  }

  lemma FragmentsDecent(o: Options, nflog: bool, to: set<Chain>)
    ensures AllDecent(FragmentRules(o, nflog), false, to)
  {
    if o.fragments {
      LoggedDecent(FragmentMatch(), LogSpec(o.fragmentsLog, "easywall fragment: ", nflog), [Verdict(Drop)], false, to);
    }
  }

  lemma RuleReturnsDecent(l: L4, rules: seq<PortRule>, to: set<Chain>)
    ensures AllDecent(Flat(rules, RuleReturns(l)), false, to)
  {
    forall k | 0 <= k < |rules| ensures AllDecent(RuleReturns(l)(rules[k]), false, to) {
      var r := rules[k];
      forall i | 0 <= i < |r.sources| ensures AllDecent(SourceReturn(l, r.port)(r.sources[i]), false, to) {
        MatchDecent(V4Sources, r.sources[i], false, to);
        PortsDecent(r.port, false, to);
      }
      FlatDecent(r.sources, SourceReturn(l, r.port), false, to);
    }
    FlatDecent(rules, RuleReturns(l), false, to);
  }

  /** The bogon chain has a drop in it as soon as one of its ranges is an IPv4 network. */
  predicate SomeRange(o: Options) { exists i :: 0 <= i < |o.bogonRanges| && Reads(V4Sources, o.bogonRanges[i]) }

  lemma {:induction false} EntriesRender(es: seq<Entry>, r: Reader, lg: LogSpec, tail: Rule, i: nat)
    requires i < |es| && MatchOf(r, es[i]).Some?
    ensures Flat(es, PerEntry(r, lg, tail)) != []
  {
    if i < |es| - 1 {
      EntriesRender(es[..|es| - 1], r, lg, tail, i);
    }
  }

  lemma BogonChainDecent(r: Rules, o: Options, nets: seq<Entry>, nflog: bool, to: set<Chain>)
    ensures AllDecent(BogonChain(r, o, nets, nflog), false, to)
  {
    var lg := LogSpec(o.bogonsLog, "easywall bogon: ", nflog);
    EntriesDecent(r.allowlist + nets, V4Sources, SILENT, [Verdict(Return)], false, to);
    RuleReturnsDecent(L4.Tcp, r.tcp, to);
    RuleReturnsDecent(L4.Udp, r.udp, to);
    EntriesDecent(o.bogonRanges, V4Sources, lg, [Verdict(Drop)], false, to);
  }

  lemma BogonsFine(r: Rules, o: Options, nets: seq<Entry>, nflog: bool, to: set<Chain>)
    requires o.bogons ==> Bogon in to && SomeRange(o)
    ensures TableFine(Bogons(r, o, nets, nflog), to) && (o.bogons ==> Created(Bogons(r, o, nets, nflog), Bogon))
  {
    if o.bogons {
      var chain, jump := In(Bogon, BogonChain(r, o, nets, nflog)), In(Input, BOGON_JUMP);
      BogonChainDecent(r, o, nets, nflog, to);
      PlacedDecent(Bogon, BogonChain(r, o, nets, nflog), to);
      BogonJumpFine(to);
      BothFine(chain, jump, to);
      BogonChainCreated(r, o, nets, nflog);
      CreatedBoth(chain, jump, Bogon);
    }
  }

  lemma BogonJumpFine(to: set<Chain>)
    requires Bogon in to
    ensures TableFine(In(Input, BOGON_JUMP), to)
  {
    assert AllDecent(BOGON_JUMP, true, to);
    PlacedDecent(Input, BOGON_JUMP, to);
  }

  lemma BogonChainCreated(r: Rules, o: Options, nets: seq<Entry>, nflog: bool)
    requires SomeRange(o)
    ensures Created(In(Bogon, BogonChain(r, o, nets, nflog)), Bogon)
  {
    var lg := LogSpec(o.bogonsLog, "easywall bogon: ", nflog);
    var i :| 0 <= i < |o.bogonRanges| && Reads(V4Sources, o.bogonRanges[i]);
    EntriesRender(o.bogonRanges, V4Sources, lg, [Verdict(Drop)], i);
    CreatedIn(Bogon, BogonChain(r, o, nets, nflog));
  }

  lemma {:induction false} FlatFine<T>(items: seq<T>, rules: T -> seq<Rule>, accept: bool, to: set<Chain>)
    requires forall i :: 0 <= i < |items| ==> AllFine(rules(items[i]), accept, to)
    ensures AllFine(Flat(items, rules), accept, to)
  {
    if items != [] {
      var front := items[..|items| - 1];
      assert forall i :: 0 <= i < |front| ==> front[i] == items[i];
      FlatFine(front, rules, accept, to);
    }
  }

  lemma SshFine(r: Rules, o: Options, nflog: bool, to: set<Chain>)
    requires o.sshBruteForce ==> SshBrute in to && SshBruteOver in to
    ensures TableFine(Ssh(r, o, nflog), to)
    ensures o.sshBruteForce ==> Created(Ssh(r, o, nflog), SshBrute) && Created(Ssh(r, o, nflog), SshBruteOver)
  {
    if o.sshBruteForce {
      var lg, ports := LogSpec(o.sshLog, "easywall ssh: ", nflog), MeteredPorts(r);
      var a, b, c := In(SshBruteOver, OverRate(lg)), In(SshBrute, SSH_CHAIN), In(Input, Flat(ports, SshRule()));
      OverDecent(lg, false, to);
      PlacedDecent(SshBruteOver, OverRate(lg), to);
      RateDecent(Anything, SshBruteMeter, SshBruteOver, false, to);
      PlacedDecent(SshBrute, SSH_CHAIN, to);
      SshRulesFine(ports, to);
      PlacedFine(Input, Flat(ports, SshRule()), to);
      BothFine(a, b, to);
      BothFine(a + b, c, to);
      CreatedIn(SshBruteOver, OverRate(lg));
      CreatedIn(SshBrute, SSH_CHAIN);
      CreatedBoth(a, b, SshBruteOver);
      CreatedBoth(a, b, SshBrute);
      CreatedBoth(a + b, c, SshBruteOver);
      CreatedBoth(a + b, c, SshBrute);
    }
  }

  lemma SshRulesFine(ports: seq<PortSpec>, to: set<Chain>)
    requires SshBrute in to
    ensures AllFine(Flat(ports, SshRule()), true, to)
  {
    forall i | 0 <= i < |ports| ensures AllFine(SshRule()(ports[i]), true, to) {
      PortsDecent(ports[i], true, to);
      StateTestIsFine(L4Is(TCP) + PortIs(ports[i]), 0x08, [Verdict(Jump(SshBrute))], true, to);
    }
    FlatFine(ports, SshRule(), true, to);
  }

  lemma LastFine(r: Rules, o: Options, nets: seq<Entry>, nflog: bool, to: set<Chain>)
    requires o.bogons ==> Bogon in to && SomeRange(o)
    requires o.sshBruteForce ==> SshBrute in to && SshBruteOver in to
    ensures TableFine(LastModules(r, o, nets, nflog), to)
    ensures o.bogons ==> Created(LastModules(r, o, nets, nflog), Bogon)
    ensures o.sshBruteForce ==>
              Created(LastModules(r, o, nets, nflog), SshBrute) && Created(LastModules(r, o, nets, nflog), SshBruteOver)
  {
    var bogons, ssh, plain := Bogons(r, o, nets, nflog), Ssh(r, o, nflog), PlainDrops(o);
    BogonsFine(r, o, nets, nflog, to);
    SshFine(r, o, nflog, to);
    PlainDecent(o, to);
    PlacedDecent(Input, plain, to);
    BothFine(bogons, ssh, to);
    BothFine(bogons + ssh, In(Input, plain), to);
    forall at | Created(bogons, at) || Created(ssh, at) ensures Created(LastModules(r, o, nets, nflog), at) {
      CreatedBoth(bogons, ssh, at);
      CreatedBoth(bogons + ssh, In(Input, plain), at);
    }
  }

  lemma PlainDecent(o: Options, to: set<Chain>)
    ensures AllDecent(PlainDrops(o), true, to)
  {
    assert Decent(ConnRule(V4), true, to) && Decent(ConnRule(V6), true, to);
    assert Decent(PktTypeIs(1) + [Verdict(Drop)], true, to) && Decent(PktTypeIs(2) + [Verdict(Drop)], true, to);
    assert Decent(DaddrTypeIs(4) + [Verdict(Drop)], true, to);
  }

  lemma ListRulesDecent(r: Rules, o: Options, nets: seq<Entry>, nflog: bool, to: set<Chain>)
    ensures AllDecent(ListRules(r, o, nets, nflog), true, to)
  {
    EntriesDecent(nets, NetworksOnly, SILENT, [Verdict(Accept)], true, to);
    EntriesDecent(r.blocklist, ListEntry, LogSpec(o.logBlocklist, "easywall blocklist: ", nflog), [Verdict(Drop)],
                  true, to);
    EntriesDecent(r.allowlist, ListEntry, SILENT, [Verdict(Accept)], true, to);
  }

  lemma FeedPartFine(id: FeedId, f: Family, o: Options, lists: bool, nflog: bool, to: set<Chain>)
    ensures TableFine(FeedPart(id, f, o, lists, nflog), to)
    ensures lists ==> Created(FeedPart(id, f, o, lists, nflog), ForwardLists)
  {
    var tail, fwd := [Counter, Verdict(Drop)], if lists then ForwardFeedRules(id, f) else [];
    LoggedDecent(FeedMatch(id, f), FeedLog(id, o, nflog), tail, true, to);
    PlacedDecent(Input, FeedRules(id, f, o, nflog), to);
    assert Decent(FeedMatch(id, f) + tail, false, to);
    PlacedDecent(ForwardLists, fwd, to);
    BothFine(In(Input, FeedRules(id, f, o, nflog)), In(ForwardLists, fwd), to);
    if lists {
      CreatedIn(ForwardLists, fwd);
      CreatedBoth(In(Input, FeedRules(id, f, o, nflog)), In(ForwardLists, fwd), ForwardLists);
    }
  }

  lemma {:induction false} FeedsFine(ids: seq<FeedId>, o: Options, lists: bool, nflog: bool, to: set<Chain>)
    ensures TableFine(Feeds(ids, o, lists, nflog), to)
    ensures lists && ids != [] ==> Created(Feeds(ids, o, lists, nflog), ForwardLists)
  {
    if ids != [] {
      var front, id := ids[..|ids| - 1], ids[|ids| - 1];
      var a := Feeds(front, o, lists, nflog);
      var b, c := FeedPart(id, V4, o, lists, nflog), FeedPart(id, V6, o, lists, nflog);
      FeedsFine(front, o, lists, nflog, to);
      FeedPartFine(id, V4, o, lists, nflog, to);
      FeedPartFine(id, V6, o, lists, nflog, to);
      BothFine(a, b, to);
      BothFine(a + b, c, to);
      if lists {
        CreatedBoth(a + b, c, ForwardLists);
      }
    }
  }

  lemma SourceAcceptDecent(l: L4, s: PortSpec, e: Entry, to: set<Chain>)
    ensures AllDecent(SourceAccept(l, s)(e), true, to)
  {
    MatchDecent(Cidr(SrcAddr), e, true, to);
    PortsDecent(s, true, to);
  }

  lemma PortRuleDecent(l: L4, r: PortRule, to: set<Chain>)
    ensures AllDecent(PortAcceptRules(l, r), true, to)
  {
    if r.sources == [] {
      PortsDecent(r.port, true, to);
      assert Decent(PortRuleMatch(l, r.port) + PORT_TAIL, true, to);
    } else {
      forall i | 0 <= i < |r.sources| ensures AllDecent(SourceAccept(l, r.port)(r.sources[i]), true, to) {
        SourceAcceptDecent(l, r.port, r.sources[i], to);
      }
      FlatDecent(r.sources, SourceAccept(l, r.port), true, to);
    }
  }

  lemma HostPortsDecent(l: L4, rules: seq<PortRule>, to: set<Chain>)
    ensures AllDecent(Flat(rules, HostPort(l)), true, to)
  {
    forall i | 0 <= i < |rules| ensures AllDecent(HostPort(l)(rules[i]), true, to) {
      PortRuleDecent(l, rules[i], to);
    }
    FlatDecent(rules, HostPort(l), true, to);
  }

  lemma EchoDecent(c: Config, to: set<Chain>)
    ensures AllDecent(EchoRules(c.firewall, c.network), true, to)
  {
    TypeDecent(ICMP, 8, to);
    TypeDecent(ICMPV6, 128, to);
  }

  lemma TypeDecent(proto: nat, v: nat, to: set<Chain>)
    ensures AllDecent(TypeAccept(proto)(v), true, to)
  {
    assert Decent(L4Is(proto) + TypeIs(v) + [Verdict(Accept)], true, to);
  }

  lemma RedirectsDecent(ds: seq<Redirect>, to: set<Chain>)
    ensures AllDecent(Flat(ds, RedirectRule()), true, to)
  {
    forall i | 0 <= i < |ds| ensures AllDecent(RedirectRule()(ds[i]), true, to) {
    }
    FlatDecent(ds, RedirectRule(), true, to);
  }

  lemma PortsFine(r: Rules, c: Config, to: set<Chain>)
    ensures TableFine(Ports(r, c), to)
  {
    var input := EchoRules(c.firewall, c.network) + Flat(r.tcp, HostPort(L4.Tcp)) + Flat(r.udp, HostPort(L4.Udp));
    var redirects := Flat(r.forwarding, RedirectRule());
    EchoDecent(c, to);
    HostPortsDecent(L4.Tcp, r.tcp, to);
    HostPortsDecent(L4.Udp, r.udp, to);
    PlacedDecent(Input, input, to);
    RedirectsDecent(r.forwarding, to);
    PlacedDecent(Prerouting, redirects, to);
    BothFine(In(Input, input), In(Prerouting, redirects), to);
  }

  // ---- the forward part ----

  lemma ForwardPortDecent(l: L4, nets: seq<Entry>, mode: Ipv6Mode, r: PortRule, to: set<Chain>)
    ensures AllDecent(ForwardPort(l, nets, mode)(r), true, to)
  {
    PortsDecent(r.port, true, to);
    assert Decent(FamilyIs(V4) + PortRuleMatch(l, r.port) + PORT_TAIL, true, to);
    assert Decent(FamilyIs(V6) + PortRuleMatch(l, r.port) + PORT_TAIL, true, to);
    forall i | 0 <= i < |r.sources| ensures AllDecent(ForwardSource(l, r.port, mode)(r.sources[i]), true, to) {
      SourceAcceptDecent(l, r.port, r.sources[i], to);
    }
    FlatDecent(r.sources, ForwardSource(l, r.port, mode), true, to);
  }

  lemma ForwardPortListDecent(l: L4, nets: seq<Entry>, mode: Ipv6Mode, rules: seq<PortRule>, to: set<Chain>)
    ensures AllDecent(Flat(rules, ForwardPort(l, nets, mode)), true, to)
  {
    forall i | 0 <= i < |rules| ensures AllDecent(ForwardPort(l, nets, mode)(rules[i]), true, to) {
      ForwardPortDecent(l, nets, mode, rules[i], to);
    }
    FlatDecent(rules, ForwardPort(l, nets, mode), true, to);
  }

  lemma DenyDecent(nets: seq<Entry>, to: set<Chain>)
    ensures AllDecent(Flat(nets, Deny()), true, to)
  {
    forall i | 0 <= i < |nets| ensures AllDecent(Deny()(nets[i]), true, to) {
      var e := nets[i];
      if Usable(e) {
        var a, b := CidrMatchOp(e, DstAddr, Eq).value, CidrMatchOp(e, SrcAddr, Neq).value;
        assert Decent(a, true, to) && Decent(b, true, to);
        assert Decent(WithoutFamilyTest(b), true, to);
      }
    }
    FlatDecent(nets, Deny(), true, to);
  }

  lemma OneEntryDecent(e: Entry, r: Reader, to: set<Chain>)
    ensures AllDecent(PerEntry(r, SILENT, [Verdict(Accept)])(e), true, to)
  {
    MatchDecent(r, e, true, to);
    if MatchOf(r, e).Some? {
      LoggedDecent(MatchOf(r, e).value, SILENT, [Verdict(Accept)], true, to);
    }
  }

  lemma CrossingDecent(es: seq<Entry>, to: set<Chain>)
    ensures AllDecent(Flat(es, Crossing()), true, to)
  {
    forall i | 0 <= i < |es| ensures AllDecent(Crossing()(es[i]), true, to) {
      OneEntryDecent(es[i], Cidr(SrcAddr), to);
      OneEntryDecent(es[i], Cidr(DstAddr), to);
    }
    FlatDecent(es, Crossing(), true, to);
  }

  lemma ListsPartFine(r: Rules, n: NetworkSettings, nets: seq<Entry>, lists: Table, to: set<Chain>)
    requires lists == if !ListsRender(r) then []
                      else In(ForwardLists, ListsChain(r, nets)) + In(Forward, ListsJump(n, nets))
    requires ListsRender(r) ==> ForwardLists in to
    ensures TableFine(lists, to) && (AnyUsable(r.blocklist) ==> Created(lists, ForwardLists))
  {
    if ListsRender(r) {
      var chain, jump, go := ListsChain(r, nets), ListsJump(n, nets), [Verdict(Jump(ForwardLists))];
      EntriesDecent(nets, Cidr(SrcAddr), SILENT, [Verdict(Return)], false, to);
      EntriesDecent(r.blocklist, Cidr(SrcAddr), SILENT, [Counter, Verdict(Drop)], false, to);
      EntriesDecent(r.allowlist, Cidr(SrcAddr), SILENT, [Verdict(Return)], false, to);
      PlacedDecent(ForwardLists, chain, to);
      EntriesDecent(nets, Cidr(DstAddr), SILENT, go, true, to);
      assert Decent(go, true, to);
      PlacedDecent(Forward, jump, to);
      BothFine(In(ForwardLists, chain), In(Forward, jump), to);
      if i :| 0 <= i < |r.blocklist| && Usable(r.blocklist[i]) {
        EntriesRender(r.blocklist, Cidr(SrcAddr), SILENT, [Counter, Verdict(Drop)], i);
        CreatedIn(ForwardLists, chain);
        CreatedBoth(In(ForwardLists, chain), In(Forward, jump), ForwardLists);
      }
    }
  }

  lemma ForwardFine(r: Rules, n: NetworkSettings, nets: seq<Entry>, to: set<Chain>)
    requires HasLists(r, n, nets) ==> ForwardLists in to
    ensures TableFine(ForwardPart(r, n, nets), to)
    ensures HasLists(r, n, nets) && AnyUsable(r.blocklist) ==> Created(ForwardPart(r, n, nets), ForwardLists)
  {
    if ForwardRenders(n, nets) {
      var mode, cross := Ipv6ModeOf(n), MayCross(n, nets);
      var rest := ForwardPorts(r, n, nets) + Flat(cross, Crossing());
      var lists := if !ListsRender(r) then []
                   else In(ForwardLists, ListsChain(r, nets)) + In(Forward, ListsJump(n, nets));
      EstablishedFine(to);
      PlacedFine(Forward, ESTABLISHED, to);
      ListsPartFine(r, n, nets, lists, to);
      ForwardPortListDecent(L4.Tcp, nets, mode, r.tcp, to);
      ForwardPortListDecent(L4.Udp, nets, mode, r.udp, to);
      DenyDecent(nets, to);
      CrossingDecent(cross, to);
      PlacedDecent(Forward, rest, to);
      BothFine(In(Forward, ESTABLISHED), lists, to);
      BothFine(In(Forward, ESTABLISHED) + lists, In(Forward, rest), to);
      if AnyUsable(r.blocklist) {
        CreatedBoth(In(Forward, ESTABLISHED), lists, ForwardLists);
        CreatedBoth(In(Forward, ESTABLISHED) + lists, In(Forward, rest), ForwardLists);
      }
    }
  }

  // ---- the whole table ----

  /** A chain some part fills is filled in the table. */
  lemma BuiltCreates(r: Rules, c: Config, bridges: seq<Entry>, nflog: bool, at: Chain)
    requires SomePartFills(r, c, ContainerNetworks(c.network, bridges), nflog, at)
    ensures Created(Built(r, c, bridges, nflog), at)
  {
    var nets, o := ContainerNetworks(c.network, bridges), c.firewall;
    var a, b := Front(c, nflog), ForwardPart(r, c.network, nets);
    var m, n := FirstModules(o, nflog), LastModules(r, o, nets, nflog);
    var l := In(Input, ListRules(r, o, nets, nflog));
    var f := Feeds(FeedRuleOrder(r.feeds), o, HasLists(r, c.network, nets), nflog);
    if Created(a, at) || Created(b, at) {
      CreatedBoth(a, b, at);
    }
    if Created(a + b, at) || Created(m, at) {
      CreatedBoth(a + b, m, at);
    }
    if Created(a + b + m, at) || Created(n, at) {
      CreatedBoth(a + b + m, n, at);
      CreatedBoth(a + b + m + n, l, at);
    }
    CreatedBoth(a + b + m + n + l, f, at);
    CreatedBoth(a + b + m + n + l + f, Ports(r, c), at);
  }

  lemma BuiltFine(r: Rules, c: Config, bridges: seq<Entry>, nflog: bool, to: set<Chain>)
    requires to == Targets(r, c, ContainerNetworks(c.network, bridges))
    requires c.firewall.bogons ==> SomeRange(c.firewall)
    ensures TableFine(Built(r, c, bridges, nflog), to)
  {
    var nets, o := ContainerNetworks(c.network, bridges), c.firewall;
    var a, b := Front(c, nflog), ForwardPart(r, c.network, nets);
    var m, n := FirstModules(o, nflog), LastModules(r, o, nets, nflog);
    var l, f := ListRules(r, o, nets, nflog), Feeds(FeedRuleOrder(r.feeds), o, HasLists(r, c.network, nets), nflog);
    FrontFine(c, nflog, to);
    ForwardFine(r, c.network, nets, to);
    FirstFine(o, nflog, to);
    LastFine(r, o, nets, nflog, to);
    ListRulesDecent(r, o, nets, nflog, to);
    PlacedDecent(Input, l, to);
    FeedsFine(FeedRuleOrder(r.feeds), o, HasLists(r, c.network, nets), nflog, to);
    PortsFine(r, c, to);
    BothFine(a, b, to);
    BothFine(a + b, m, to);
    BothFine(a + b + m, n, to);
    BothFine(a + b + m + n, In(Input, l), to);
    BothFine(a + b + m + n + In(Input, l), f, to);
    BothFine(a + b + m + n + In(Input, l) + f, Ports(r, c), to);
  }

  lemma {:induction false} OrderKeepsSome(ids: seq<FeedId>)
    requires ids != []
    ensures FeedRuleOrder(ids) != []
  {
    var id := ids[|ids| - 1];
    assert id in OnlyFeeds(ids, id.CountryFeed?);
  }

  predicate IsTarget(r: Rules, c: Config, nets: seq<Entry>, at: Chain) {
    match at
    case IcmpFloodOver => c.firewall.icmpFlood
    case TcpRstOver => c.firewall.rstFlood
    case PortScan => c.firewall.portScan
    case SynFloodOver => c.firewall.synFlood
    case Bogon => c.firewall.bogons
    case SshBrute => c.firewall.sshBruteForce
    case SshBruteOver => c.firewall.sshBruteForce
    case ForwardLists => HasLists(r, c.network, nets)
    case _ => false
  }

  lemma TargetCases(r: Rules, c: Config, nets: seq<Entry>, at: Chain)
    requires at in Targets(r, c, nets)
    ensures IsTarget(r, c, nets, at)
  {
  }

  /** Some part of the table fills the chain. */
  ghost predicate SomePartFills(r: Rules, c: Config, nets: seq<Entry>, nflog: bool, at: Chain) {
    var o := c.firewall;
    || Created(Front(c, nflog), at) || Created(ForwardPart(r, c.network, nets), at)
    || Created(FirstModules(o, nflog), at) || Created(LastModules(r, o, nets, nflog), at)
    || Created(Feeds(FeedRuleOrder(r.feeds), o, HasLists(r, c.network, nets), nflog), at)
  }

  lemma TargetsAreFilled(r: Rules, c: Config, nets: seq<Entry>, nflog: bool, at: Chain)
    requires IsTarget(r, c, nets, at)
    requires c.firewall.bogons ==> SomeRange(c.firewall)
    ensures SomePartFills(r, c, nets, nflog, at) && !MayAccept(at)
  {
    if at == ForwardLists {
      ListsAreBuilt(r, c, nets, nflog, {ForwardLists});
    } else {
      ModuleIsFilled(r, c, nets, nflog, at);
    }
  }

  lemma ModuleIsFilled(r: Rules, c: Config, nets: seq<Entry>, nflog: bool, at: Chain)
    requires IsTarget(r, c, nets, at) && at != ForwardLists
    requires c.firewall.bogons ==> SomeRange(c.firewall)
    ensures || Created(Front(c, nflog), at) || Created(FirstModules(c.firewall, nflog), at)
            || Created(LastModules(r, c.firewall, nets, nflog), at)
  {
    if at == IcmpFloodOver || at == TcpRstOver {
      FrontFills(c, nflog, at);
    } else if at == PortScan || at == SynFloodOver {
      FirstFills(c.firewall, nflog, at);
    } else {
      LastFills(r, c.firewall, nets, nflog, at);
    }
  }

  lemma FrontFills(c: Config, nflog: bool, at: Chain)
    requires (at == IcmpFloodOver && c.firewall.icmpFlood) || (at == TcpRstOver && c.firewall.rstFlood)
    ensures Created(Front(c, nflog), at)
  {
    FrontFine(c, nflog, {IcmpFloodOver, TcpRstOver});
  }

  lemma FirstFills(o: Options, nflog: bool, at: Chain)
    requires (at == PortScan && o.portScan) || (at == SynFloodOver && o.synFlood)
    ensures Created(FirstModules(o, nflog), at)
  {
    FirstFine(o, nflog, {PortScan, SynFloodOver});
  }

  lemma LastFills(r: Rules, o: Options, nets: seq<Entry>, nflog: bool, at: Chain)
    requires (at == Bogon && o.bogons) || ((at == SshBrute || at == SshBruteOver) && o.sshBruteForce)
    requires o.bogons ==> SomeRange(o)
    ensures Created(LastModules(r, o, nets, nflog), at)
  {
    LastFine(r, o, nets, nflog, {Bogon, SshBrute, SshBruteOver});
  }

  lemma ListsAreBuilt(r: Rules, c: Config, nets: seq<Entry>, nflog: bool, to: set<Chain>)
    requires HasLists(r, c.network, nets) && ForwardLists in to
    ensures || Created(ForwardPart(r, c.network, nets), ForwardLists)
            || Created(Feeds(FeedRuleOrder(r.feeds), c.firewall, true, nflog), ForwardLists)
  {
    ForwardFine(r, c.network, nets, to);
    if r.feeds != [] {
      OrderKeepsSome(r.feeds);
      FeedsFine(FeedRuleOrder(r.feeds), c.firewall, true, nflog, to);
    }
  }

  /**
   The builder always passes its own check, at both of the places it runs: over everything the first
   flush sends, and again with the log of the policy added.
   */
  lemma BuilderPassesItsOwnCheck(r: Rules, c: Config, bridges: seq<Entry>, nflog: bool)
    requires c.firewall.bogons ==> SomeRange(c.firewall)
    ensures Clean(Built(r, c, bridges, nflog), {})
    ensures Clean(Built(r, c, bridges, nflog) + In(Input, FinalLog(c.firewall, nflog)), {})
  {
    var t, last := Built(r, c, bridges, nflog), In(Input, FinalLog(c.firewall, nflog));
    var to := Targets(r, c, ContainerNetworks(c.network, bridges));
    BuiltFine(r, c, bridges, nflog, to);
    forall at | at in to ensures Created(t, at) && !MayAccept(at) && Created(t + last, at) {
      TargetCases(r, c, ContainerNetworks(c.network, bridges), at);
      TargetsAreFilled(r, c, ContainerNetworks(c.network, bridges), nflog, at);
      BuiltCreates(r, c, bridges, nflog, at);
      CreatedBoth(t, last, at);
    }
    FineIsClean(t, to);
    assert AllDecent(FinalLog(c.firewall, nflog), true, to);
    PlacedDecent(Input, FinalLog(c.firewall, nflog), to);
    BothFine(t, last, to);
    FineIsClean(t + last, to);
  }

  // ---- and what that is worth for the tables it writes ----

  lemma CustomIsFine(lines: seq<CustomLine>, to: set<Chain>)
    ensures TableFine(In(Input, Flat(lines, CustomRule())), to)
  {
    forall i | 0 <= i < |lines| ensures AllFine(CustomRule()(lines[i]), true, to) {
    }
    FlatFine(lines, CustomRule(), true, to);
    PlacedFine(Input, Flat(lines, CustomRule()), to);
  }

  /** The whole table is clean too, raw lines and all, and nothing raw and nothing that sends stands behind a jump. */
  lemma CompiledIsClean(r: Rules, c: Config, bridges: seq<Entry>, nflog: bool)
    requires c.firewall.bogons ==> SomeRange(c.firewall)
    ensures var t := Compiled(r, c, bridges, nflog);
            Clean(t, {}) && NoRawBehindJumps(t) && NobodySendsBehindJumps(t)
  {
    var to := Targets(r, c, ContainerNetworks(c.network, bridges));
    CompiledFine(r, c, bridges, nflog, to);
    FineIsClean(Compiled(r, c, bridges, nflog), to);
    FineIsTame(Compiled(r, c, bridges, nflog), to);
  }

  lemma CompiledFine(r: Rules, c: Config, bridges: seq<Entry>, nflog: bool, to: set<Chain>)
    requires c.firewall.bogons ==> SomeRange(c.firewall)
    requires to == Targets(r, c, ContainerNetworks(c.network, bridges))
    ensures TableFine(Compiled(r, c, bridges, nflog), to)
    ensures forall at :: at in to ==> Created(Compiled(r, c, bridges, nflog), at) && !MayAccept(at)
  {
    var t, rest := Built(r, c, bridges, nflog), Flat(r.custom, CustomRule()) + FinalLog(c.firewall, nflog);
    BuiltFine(r, c, bridges, nflog, to);
    CustomAndLogFine(r, c.firewall, nflog, to);
    BothFine(t, In(Input, rest), to);
    forall at | at in to ensures Created(t + In(Input, rest), at) && !MayAccept(at) {
      TargetCases(r, c, ContainerNetworks(c.network, bridges), at);
      TargetsAreFilled(r, c, ContainerNetworks(c.network, bridges), nflog, at);
      BuiltCreates(r, c, bridges, nflog, at);
      CreatedBoth(t, In(Input, rest), at);
    }
  }

  lemma CustomAndLogFine(r: Rules, o: Options, nflog: bool, to: set<Chain>)
    ensures TableFine(In(Input, Flat(r.custom, CustomRule()) + FinalLog(o, nflog)), to)
  {
    CustomIsFine(r.custom, to);
    assert AllDecent(FinalLog(o, nflog), true, to);
    PlacedDecent(Input, FinalLog(o, nflog), to);
    BothFine(In(Input, Flat(r.custom, CustomRule())), In(Input, FinalLog(o, nflog)), to);
    assert In(Input, Flat(r.custom, CustomRule()) + FinalLog(o, nflog))
        == In(Input, Flat(r.custom, CustomRule())) + In(Input, FinalLog(o, nflog));
  }

  lemma FineIsTame(t: Table, to: set<Chain>)
    requires TableFine(t, to) && forall c :: c in to ==> !MayAccept(c)
    ensures NoRawBehindJumps(t) && NobodySendsBehindJumps(t)
  {
    forall k | 0 <= k < |t| && Jumped(t, t[k].chain) ensures NoRaw(t[k].rule) && SendsNowhere(t[k].rule) {
      var j :| 0 <= j < |t| && JumpsTo(t[j].rule, t[k].chain);
      assert t[k].chain in to;
    }
  }

  /**
   In every table the core writes, with whatever raw lines the operator adds, every jump goes to a chain that has
   rules, and that chain drops the packet or hands it back.
   */
  lemma CoreJumpsDropOrReturn(r: Rules, c: Config, bridges: seq<Entry>, nflog: bool, at: Chain, d: nat, p: Packet,
                              env: Env)
    requires c.firewall.bogons ==> SomeRange(c.firewall)
    requires Jumped(Compiled(r, c, bridges, nflog), at)
    ensures var t := Compiled(r, c, bridges, nflog);
            && Select(t, at) != []
            && var f := Walk(t, Select(t, at), d, p, env); f.Dropped? || f.Returned? || f.Fell?
  {
    CompiledIsClean(r, c, bridges, nflog);
    CleanJumpsLand(Compiled(r, c, bridges, nflog), at);
    CleanJumpsNeverAccept(Compiled(r, c, bridges, nflog), at, d, p, env);
  }
}
