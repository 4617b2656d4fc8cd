/** The compiled forward chain means what the forward stages mean. */
module ForwardProof {
  import opened Addresses
  import opened Models
  import opened Netfilter
  import opened Matches
  import opened Compiler
  import opened Meaning
  import opened Stages
  import opened InputProof
  import opened Layout

  // ---- the lists ----

  lemma FeedForwardWalks(t: Table, ids: seq<FeedId>, d: nat, p: Packet, env: Env)
    ensures Walk(t, Flat(ids, FeedForward()), d, p, env) == Hit(InAnyFeed(env, ids, p.Src()), Dropped)
  {
    var hit := (id: FeedId) => InFeed(env, id, p.Src());
    forall i | 0 <= i < |ids| ensures Walk(t, FeedForward()(ids[i]), d, p, env) == Hit(hit(ids[i]), Dropped) {
      var id := ids[i];
      FeedTests(id, V4, p, env);
      FeedTests(id, V6, p, env);
      ActWalks(t, FeedMatch(id, V4), p.fam == V4 && InFeed(env, id, p.Src()), [Counter, Verdict(Drop)], Drop, d, p,
               env);
      ActWalks(t, FeedMatch(id, V6), p.fam == V6 && InFeed(env, id, p.Src()), [Counter, Verdict(Drop)], Drop, d, p,
               env);
      WalkConcat(t, ForwardFeedRules(id, V4), ForwardFeedRules(id, V6), d, p, env);
    }
    FlatWalks(t, ids, FeedForward(), hit, Dropped, d, p, env);
  }

  lemma ListsChainWalks(t: Table, r: Rules, nets: seq<Entry>, d: nat, p: Packet, env: Env)
    ensures Walk(t, ListsChain(r, nets), d, p, env)
            == if AnyCovers(nets, p.Src()) then Returned
               else if AnyCovers(r.blocklist, p.Src()) then Dropped
               else Hit(AnyCovers(r.allowlist, p.Src()), Returned)
  {
    var at := Cidr(SrcAddr);
    var a := Flat(nets, PerEntry(at, SILENT, [Verdict(Return)]));
    var b := Flat(r.blocklist, PerEntry(at, SILENT, [Counter, Verdict(Drop)]));
    var c := Flat(r.allowlist, PerEntry(at, SILENT, [Verdict(Return)]));
    ListWalks(t, at, SILENT, [Verdict(Return)], Return, nets, d, p, env);
    ListWalks(t, at, SILENT, [Counter, Verdict(Drop)], Drop, r.blocklist, d, p, env);
    ListWalks(t, at, SILENT, [Verdict(Return)], Return, r.allowlist, d, p, env);
    ListedMeans(at, nets, p);
    ListedMeans(at, r.blocklist, p);
    ListedMeans(at, r.allowlist, p);
    WalkConcat(t, a, b, d, p, env);
    WalkConcat(t, a + b, c, d, p, env);
  }

  /** The chain the forward lists are in drops what they list and decides nothing else. */
  predicate ListsSettled(t: Table, r: Rules, nets: seq<Entry>, d: nat, p: Packet, env: Env) {
    var f := PartFate(t, t, ForwardLists, d, p, env);
    if ListedForward(r, nets, p, env) then f == Dropped else f == Returned || f == Fell
  }

  lemma JumpToLists(t: Table, m: Rule, holds: bool, r: Rules, nets: seq<Entry>, d: nat, p: Packet, env: Env)
    requires Tests(m, p, env, holds) && d > 0 && ListsSettled(t, r, nets, d - 1, p, env)
    ensures Walk(t, [m + [Verdict(Jump(ForwardLists))]], d, p, env)
            == Hit(holds && ListedForward(r, nets, p, env), Dropped)
  {
    RuleActs(m, holds, [Verdict(Jump(ForwardLists))], Jump(ForwardLists), p, env);
    JumpWalks(t, m + [Verdict(Jump(ForwardLists))], holds, ForwardLists, d, p, env);
  }

  lemma ListsJumpWalks(t: Table, r: Rules, n: NetworkSettings, nets: seq<Entry>, d: nat, p: Packet, env: Env)
    requires d > 0 && ListsSettled(t, r, nets, d - 1, p, env)
    ensures Walk(t, ListsJump(n, nets), d, p, env)
            == Hit((RoutesAll(n) ==> AnyCovers(nets, p.Dst())) && ListedForward(r, nets, p, env), Dropped)
  {
    var jump := [Verdict(Jump(ForwardLists))];
    if RoutingModeOf(n).Open? {
      var to := PerEntry(Cidr(DstAddr), SILENT, jump);
      var hit := (e: Entry) => e.Covers(p.Dst()) && ListedForward(r, nets, p, env);
      forall i | 0 <= i < |nets| ensures Walk(t, to(nets[i]), d, p, env) == Hit(hit(nets[i]), Dropped) {
        MatchOfTests(Cidr(DstAddr), nets[i], p, env);
        if Reads(Cidr(DstAddr), nets[i]) {
          var m := MatchOf(Cidr(DstAddr), nets[i]).value;
          JumpToLists(t, m, nets[i].Covers(p.Dst()), r, nets, d, p, env);
          assert to(nets[i]) == [m + jump];
        }
      }
      FlatWalks(t, nets, to, hit, Dropped, d, p, env);
    } else {
      var m: Rule := [];
      assert Tests(m, p, env, true);
      JumpToLists(t, m, true, r, nets, d, p, env);
      assert m + jump == jump;
    }
  }

  // ---- the forwarded ports ----

  lemma PinnedWalks(t: Table, l: L4, s: PortSpec, f: Family, nets: seq<Entry>, d: nat, p: Packet, env: Env)
    requires s.Valid()
    ensures Walk(t, PinnedAccept(l, s, f, nets), d, p, env)
            == Hit(HasNetwork(nets, f) && p.fam == f && p.l4 == Models.Protocol(l) && ToPort(p, s), Accepted)
  {
    var port := p.l4 == Models.Protocol(l) && ToPort(p, s);
    FamilyTests(f, p, env);
    PortMatchTests(l, s, p, env);
    TwoTests(FamilyIs(f), p.fam == f, PortRuleMatch(l, s), port, p, env);
    ActWalks(t, FamilyIs(f) + PortRuleMatch(l, s), p.fam == f && port, PORT_TAIL, Accept, d, p, env);
  }

  lemma ForwardPortWalks(t: Table, l: L4, r: PortRule, mode: Ipv6Mode, nets: seq<Entry>, d: nat, p: Packet, env: Env)
    requires r.port.Valid()
    ensures Walk(t, ForwardPort(l, nets, mode)(r), d, p, env) == Hit(OpensForward(l, r, mode.Block?, nets, p), Accepted)
  {
    if !r.FiltersForwarded() {
    } else if r.sources == [] {
      PinnedWalks(t, l, r.port, V4, nets, d, p, env);
      PinnedWalks(t, l, r.port, V6, nets, d, p, env);
      WalkConcat(t, PinnedAccept(l, r.port, V4, nets), PinnedAccept(l, r.port, V6, nets), d, p, env);
    } else {
      ForwardSourcesWalk(t, l, r, mode, d, p, env);
    }
  }

  lemma ForwardSourcesWalk(t: Table, l: L4, r: PortRule, mode: Ipv6Mode, d: nat, p: Packet, env: Env)
    requires r.port.Valid()
    ensures Walk(t, Flat(r.sources, ForwardSource(l, r.port, mode)), d, p, env)
            == Hit(AnyCovers(r.sources, p.Src()) && !(p.fam.V6? && mode.Block?)
                   && p.l4 == Models.Protocol(l) && ToPort(p, r.port), Accepted)
  {
    var hit := (e: Entry) => e.Covers(p.Src()) && !(p.fam.V6? && mode.Block?)
                             && p.l4 == Models.Protocol(l) && ToPort(p, r.port);
    forall i | 0 <= i < |r.sources|
      ensures Walk(t, ForwardSource(l, r.port, mode)(r.sources[i]), d, p, env) == Hit(hit(r.sources[i]), Accepted)
    {
      var e := r.sources[i];
      if Usable(e) && !(FamilyOf(e).V6? && mode.Block?) {
        SourceAcceptWalks(t, l, r.port, e, d, p, env);
      }
    }
    FlatWalks(t, r.sources, ForwardSource(l, r.port, mode), hit, Accepted, d, p, env);
  }

  lemma ForwardListWalks(t: Table, l: L4, rules: seq<PortRule>, mode: Ipv6Mode, nets: seq<Entry>,
                         d: nat, p: Packet, env: Env)
    requires forall i :: 0 <= i < |rules| ==> rules[i].port.Valid()
    ensures Walk(t, Flat(rules, ForwardPort(l, nets, mode)), d, p, env)
            == Hit(OpenedForward(l, rules, mode.Block?, nets, p), Accepted)
  {
    var hit := (r: PortRule) => OpensForward(l, r, mode.Block?, nets, p);
    forall i | 0 <= i < |rules|
      ensures Walk(t, ForwardPort(l, nets, mode)(rules[i]), d, p, env) == Hit(hit(rules[i]), Accepted)
    {
      ForwardPortWalks(t, l, rules[i], mode, nets, d, p, env);
    }
    FlatWalks(t, rules, ForwardPort(l, nets, mode), hit, Accepted, d, p, env);
  }

  /** The deny tests the family once and both addresses against the same network. */
  lemma DenyTests(e: Entry, p: Packet, env: Env)
    requires Usable(e)
    ensures Tests(DenyMatch(e), p, env, e.Covers(p.Dst()) && !e.Covers(p.Src()))
  {
    CidrMatchTests(e, DstAddr, Eq, p, env);
    CidrMatchTests(e, SrcAddr, Neq, p, env);
    var dst, src := CidrMatchOp(e, DstAddr, Eq).value, WithoutFamilyTest(CidrMatchOp(e, SrcAddr, Neq).value);
    if e.Covers(p.Dst()) {
      BareTestTests(e, SrcAddr, Neq, p, env);
    }
    TestsBoth(dst, e.Covers(p.Dst()), src, !e.Covers(p.Src()), p, env);
  }

  lemma DenyWalks(t: Table, nets: seq<Entry>, d: nat, p: Packet, env: Env)
    ensures Walk(t, Flat(nets, Deny()), d, p, env) == Hit(Intrudes(nets, p), Dropped)
  {
    var hit := (e: Entry) => e.Covers(p.Dst()) && !e.Covers(p.Src());
    forall i | 0 <= i < |nets| ensures Walk(t, Deny()(nets[i]), d, p, env) == Hit(hit(nets[i]), Dropped) {
      if Usable(nets[i]) {
        DenyTests(nets[i], p, env);
        ActWalks(t, DenyMatch(nets[i]), hit(nets[i]), [Counter, Verdict(Drop)], Drop, d, p, env);
      }
    }
    FlatWalks(t, nets, Deny(), hit, Dropped, d, p, env);
  }

  lemma ForwardPortsWalk(t: Table, r: Rules, n: NetworkSettings, nets: seq<Entry>, d: nat, p: Packet, env: Env)
    requires r.Valid()
    ensures var blocked := BlocksIpv6(n);
            Walk(t, ForwardPorts(r, n, nets), d, p, env)
            == if !FiltersPublished(n, nets) then Fell
               else if OpenedForward(L4.Tcp, r.tcp, blocked, nets, p) || OpenedForward(L4.Udp, r.udp, blocked, nets, p)
               then Accepted
               else Hit(Intrudes(nets, p), Dropped)
  {
    PublishedRender(n, nets);
    if ForwardPortsRender(n.docker, nets) {
      var mode := Ipv6ModeOf(n);
      var tcp, udp := Flat(r.tcp, ForwardPort(L4.Tcp, nets, mode)), Flat(r.udp, ForwardPort(L4.Udp, nets, mode));
      ForwardListWalks(t, L4.Tcp, r.tcp, mode, nets, d, p, env);
      ForwardListWalks(t, L4.Udp, r.udp, mode, nets, d, p, env);
      DenyWalks(t, nets, d, p, env);
      WalkConcat(t, tcp, udp, d, p, env);
      WalkConcat(t, tcp + udp, Flat(nets, Deny()), d, p, env);
    }
  }

  lemma CrossingWalks(t: Table, es: seq<Entry>, d: nat, p: Packet, env: Env)
    ensures Walk(t, Flat(es, Crossing()), d, p, env) == Hit(AnyCovers(es, p.Src()) || AnyCovers(es, p.Dst()), Accepted)
  {
    var hit := (e: Entry) => e.Covers(p.Src()) || e.Covers(p.Dst());
    var from := PerEntry(Cidr(SrcAddr), SILENT, [Verdict(Accept)]);
    var to := PerEntry(Cidr(DstAddr), SILENT, [Verdict(Accept)]);
    forall i | 0 <= i < |es| ensures Walk(t, Crossing()(es[i]), d, p, env) == Hit(hit(es[i]), Accepted) {
      var e := es[i];
      MatchOfTests(Cidr(SrcAddr), e, p, env);
      MatchOfTests(Cidr(DstAddr), e, p, env);
      if Usable(e) {
        LoggedWalks(t, MatchOf(Cidr(SrcAddr), e).value, e.Covers(p.Src()), SILENT, [Verdict(Accept)], Accept, d, p,
                    env);
        LoggedWalks(t, MatchOf(Cidr(DstAddr), e).value, e.Covers(p.Dst()), SILENT, [Verdict(Accept)], Accept, d, p,
                    env);
      }
      WalkConcat(t, from(e), to(e), d, p, env);
    }
    FlatWalks(t, es, Crossing(), hit, Accepted, d, p, env);
  }

  // ---- what is rendered at all ----

  lemma PublishedRender(n: NetworkSettings, nets: seq<Entry>)
    ensures ForwardPortsRender(n.docker, nets) == FiltersPublished(n, nets)
  {
    if i :| 0 <= i < |nets| && nets[i].Net? {
      assert HasNetwork(nets, nets[i].net.addr.fam);
    }
  }

  lemma UsableConcat(x: seq<Entry>, y: seq<Entry>)
    ensures AnyUsable(x + y) == (NamesSomebody(x) || NamesSomebody(y))
  {
    if i :| 0 <= i < |x| && Usable(x[i]) {
      assert (x + y)[i] == x[i];
    }
    if i :| 0 <= i < |y| && Usable(y[i]) {
      assert (x + y)[|x| + i] == y[i];
    }
    if i :| 0 <= i < |x + y| && Usable((x + y)[i]) {
      assert if i < |x| then Usable(x[i]) else Usable(y[i - |x|]);
    }
  }

  lemma ChainRenders(n: NetworkSettings, nets: seq<Entry>)
    ensures ForwardRenders(n, nets) == SaysAnything(n, nets)
  {
    PublishedRender(n, nets);
    UsableConcat(nets, n.routing.networks);
    UsableConcat(nets, []);
    assert nets + [] == nets;
  }

  lemma MayCrossMeans(n: NetworkSettings, nets: seq<Entry>, a: Addr)
    ensures AnyCovers(MayCross(n, nets), a) == MayBeRouted(n, nets, a)
  {
    CoversBoth(nets, n.routing.networks, a);
  }

  /** Only a list that is there can name a source. */
  lemma ListedIsRendered(r: Rules, nets: seq<Entry>, p: Packet, env: Env)
    requires ListedForward(r, nets, p, env)
    ensures ListsRender(r)
  {
    if i :| 0 <= i < |r.blocklist| && r.blocklist[i].Covers(p.Src()) {
      assert Usable(r.blocklist[i]);
    }
  }

  // ---- the chain ----

  lemma ForwardPartWalks(t: Table, r: Rules, n: NetworkSettings, nets: seq<Entry>, d: nat, p: Packet, env: Env)
    requires r.Valid() && d > 0 && (HasLists(r, n, nets) ==> ListsSettled(t, r, nets, d - 1, p, env))
    ensures PartFate(t, ForwardPart(r, n, nets), Forward, d, p, env) == ForwardFate(r, n, nets, p, env)
  {
    ChainRenders(n, nets);
    if ForwardRenders(n, nets) {
      var rest := ForwardPorts(r, n, nets) + Flat(MayCross(n, nets), Crossing());
      var lists := if !ListsRender(r) then []
                   else In(ForwardLists, ListsChain(r, nets)) + In(Forward, ListsJump(n, nets));
      EstablishedWalks(t, d, p, env);
      PartIn(t, Forward, ESTABLISHED, Forward, d, p, env);
      ListsPart(t, r, n, nets, lists, d, p, env);
      ForwardPortsWalk(t, r, n, nets, d, p, env);
      CrossingWalks(t, MayCross(n, nets), d, p, env);
      MayCrossMeans(n, nets, p.Src());
      MayCrossMeans(n, nets, p.Dst());
      WalkConcat(t, ForwardPorts(r, n, nets), Flat(MayCross(n, nets), Crossing()), d, p, env);
      PartIn(t, Forward, rest, Forward, d, p, env);
      PartConcat(t, In(Forward, ESTABLISHED), lists, Forward, d, p, env);
      PartConcat(t, In(Forward, ESTABLISHED) + lists, In(Forward, rest), Forward, d, p, env);
    }
  }

  lemma ListsPart(t: Table, r: Rules, n: NetworkSettings, nets: seq<Entry>, lists: Table, d: nat, p: Packet, env: Env)
    requires d > 0 && (ListsRender(r) ==> ListsSettled(t, r, nets, d - 1, p, env))
    requires lists == if !ListsRender(r) then []
                      else In(ForwardLists, ListsChain(r, nets)) + In(Forward, ListsJump(n, nets))
    ensures PartFate(t, lists, Forward, d, p, env)
            == Hit((RoutesAll(n) ==> AnyCovers(nets, p.Dst())) && ListedForward(r, nets, p, env), Dropped)
  {
    if ListedForward(r, nets, p, env) {
      ListedIsRendered(r, nets, p, env);
    }
    if ListsRender(r) {
      ListsJumpWalks(t, r, n, nets, d, p, env);
      PartConcat(t, In(ForwardLists, ListsChain(r, nets)), In(Forward, ListsJump(n, nets)), Forward, d, p, env);
      PartIn(t, ForwardLists, ListsChain(r, nets), Forward, d, p, env);
      PartIn(t, Forward, ListsJump(n, nets), Forward, d, p, env);
    }
  }

  /** In the whole table the lists chain is the forward part's rules and then the feeds'. */
  lemma ListsSide(r: Rules, c: Config, bridges: seq<Entry>, nflog: bool, d: nat, p: Packet, env: Env)
    requires HasLists(r, c.network, ContainerNetworks(c.network, bridges))
    ensures ListsSettled(Compiled(r, c, bridges, nflog), r, ContainerNetworks(c.network, bridges), d, p, env)
  {
    var t, nets, o := Compiled(r, c, bridges, nflog), ContainerNetworks(c.network, bridges), c.firewall;
    var ids := FeedRuleOrder(r.feeds);
    CompiledSplits(r, c, bridges, nflog, ForwardLists, d, p, env);
    FrontAbsent(t, c, nflog, ForwardLists, d, p, env);
    FirstAbsent(t, o, nflog, ForwardLists, d, p, env);
    LastAbsent(t, r, o, nets, nflog, ForwardLists, d, p, env);
    PortsAbsent(t, r, c, ForwardLists, d, p, env);
    PartIn(t, Input, ListRules(r, o, nets, nflog), ForwardLists, d, p, env);
    PartIn(t, Input, Flat(r.custom, CustomRule()) + FinalLog(o, nflog), ForwardLists, d, p, env);
    ListsOwnChain(t, r, c.network, nets, d, p, env);
    ListsChainWalks(t, r, nets, d, p, env);
    SelectFeedsForward(ids, o, nflog);
    FeedForwardWalks(t, ids, d, p, env);
    FeedOrderKeepsFeeds(r.feeds, env, p.Src());
  }

  lemma ListsOwnChain(t: Table, r: Rules, n: NetworkSettings, nets: seq<Entry>, d: nat, p: Packet, env: Env)
    requires HasLists(r, n, nets)
    ensures PartFate(t, ForwardPart(r, n, nets), ForwardLists, d, p, env) == Walk(t, ListsChain(r, nets), d, p, env)
  {
    var rest := ForwardPorts(r, n, nets) + Flat(MayCross(n, nets), Crossing());
    var a, b, z := In(ForwardLists, ListsChain(r, nets)), In(Forward, ListsJump(n, nets)), In(Forward, rest);
    PartIn(t, Forward, ESTABLISHED, ForwardLists, d, p, env);
    PartIn(t, ForwardLists, ListsChain(r, nets), ForwardLists, d, p, env);
    PartIn(t, Forward, ListsJump(n, nets), ForwardLists, d, p, env);
    PartIn(t, Forward, rest, ForwardLists, d, p, env);
    PartConcat(t, a, b, ForwardLists, d, p, env);
    PartConcat(t, In(Forward, ESTABLISHED), a + b, ForwardLists, d, p, env);
    PartConcat(t, In(Forward, ESTABLISHED) + (a + b), z, ForwardLists, d, p, env);
  }

  /** The compiled forward chain walks to exactly the fate the forward stages give. */
  lemma ForwardWalks(r: Rules, c: Config, bridges: seq<Entry>, nflog: bool, p: Packet, env: Env)
    requires r.Valid()
    ensures var t := Compiled(r, c, bridges, nflog);
            PartFate(t, t, Forward, JUMP_STACK, p, env)
            == ForwardFate(r, c.network, ContainerNetworks(c.network, bridges), p, env)
  {
    var t, nets, o := Compiled(r, c, bridges, nflog), ContainerNetworks(c.network, bridges), c.firewall;
    var d := JUMP_STACK;
    CompiledSplits(r, c, bridges, nflog, Forward, d, p, env);
    FrontAbsent(t, c, nflog, Forward, d, p, env);
    FirstAbsent(t, o, nflog, Forward, d, p, env);
    LastAbsent(t, r, o, nets, nflog, Forward, d, p, env);
    FeedsAbsent(t, FeedRuleOrder(r.feeds), o, HasLists(r, c.network, nets), nflog, Forward, d, p, env);
    PortsAbsent(t, r, c, Forward, d, p, env);
    PartIn(t, Input, ListRules(r, o, nets, nflog), Forward, d, p, env);
    PartIn(t, Input, Flat(r.custom, CustomRule()) + FinalLog(o, nflog), Forward, d, p, env);
    if HasLists(r, c.network, nets) {
      ListsSide(r, c, bridges, nflog, d - 1, p, env);
    }
    ForwardPartWalks(t, r, c.network, nets, d, p, env);
  }
}
