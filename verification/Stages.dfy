/** Each builder's rules, walked: every stage does what its meaning says. */
module Stages {
  import opened Addresses
  import opened Models
  import opened Netfilter
  import opened Matches
  import opened Compiler
  import opened Meaning

  // ---- walking one rule, one item, one list ----

  function FateOf(k: Kind): Fate
    requires k.Accept? || k.Drop? || k.Return?
  {
    if k.Accept? then Accepted else if k.Drop? then Dropped else Returned
  }

  function Hit(holds: bool, f: Fate): Fate { if holds then f else Fell }

  lemma WalkOne(t: Table, r: Rule, d: nat, p: Packet, env: Env)
    ensures var f := Run(r, map[], p, env);
            && (!f.Decide? ==> Walk(t, [r], d, p, env) == Fell)
            && (f.Decide? && (f.kind.Accept? || f.kind.Drop? || f.kind.Return?) ==>
                  Walk(t, [r], d, p, env) == FateOf(f.kind))
  {
    assert [r][1..] == [];
  }

  lemma ActWalks(t: Table, m: Rule, holds: bool, tail: Rule, k: Kind, d: nat, p: Packet, env: Env)
    requires Tests(m, p, env, holds) && (k.Accept? || k.Drop? || k.Return?)
    requires tail == [Verdict(k)] || tail == [Counter, Verdict(k)]
    ensures Walk(t, [m + tail], d, p, env) == Hit(holds, FateOf(k))
  {
    RuleActs(m, holds, tail, k, p, env);
    WalkOne(t, m + tail, d, p, env);
  }

  /** A jump to a chain that always drops drops what matches. */
  lemma JumpWalks(t: Table, r: Rule, holds: bool, c: Chain, d: nat, p: Packet, env: Env)
    requires Run(r, map[], p, env) == if holds then Decide(Jump(c)) else Stop
    requires d > 0
    ensures var f := Walk(t, Select(t, c), d - 1, p, env);
            Walk(t, [r], d, p, env) == if holds && !f.Returned? then f else Fell
  {
    assert [r][1..] == [];
  }

  /** A log never decides anything. */
  lemma LogWalks(t: Table, m: Rule, holds: bool, prefix: string, nflog: bool, d: nat, p: Packet, env: Env)
    requires Tests(m, p, env, holds)
    ensures Walk(t, [m + LogExprs(prefix, nflog)], d, p, env) == Fell
  {
    var tail := LogExprs(prefix, nflog);
    RunConcat(m, tail, map[], p, env);
    assert Run(m, map[], p, env) == if holds then Next(Left(m, map[], p, env)) else Stop;
    var r := Left(m, map[], p, env);
    assert tail[1..] == [Log(prefix, nflog)];
    assert Run([Log(prefix, nflog)], r, p, env) == Next(r);
    WalkOne(t, m + tail, d, p, env);
  }

  lemma LoggedWalks(t: Table, m: Rule, holds: bool, lg: LogSpec, tail: Rule, k: Kind, d: nat, p: Packet, env: Env)
    requires Tests(m, p, env, holds) && (k.Accept? || k.Drop? || k.Return?)
    requires tail == [Verdict(k)] || tail == [Counter, Verdict(k)]
    ensures Walk(t, Logged(m, lg, tail), d, p, env) == Hit(holds, FateOf(k))
  {
    ActWalks(t, m, holds, tail, k, d, p, env);
    if lg.on {
      LogWalks(t, m, holds, lg.prefix, lg.nflog, d, p, env);
      WalkConcat(t, [m + LogExprs(lg.prefix, lg.nflog)], [m + tail], d, p, env);
    } else {
      assert [] + [m + tail] == [m + tail];
    }
  }

  /** A list whose every item either does `f` or nothing does `f` when some item does. */
  lemma {:induction false} FlatWalks<T>(t: Table, items: seq<T>, rules: T -> seq<Rule>, hit: T -> bool, f: Fate,
                                        d: nat, p: Packet, env: Env)
    requires !f.Fell?
    requires forall i :: 0 <= i < |items| ==> Walk(t, rules(items[i]), d, p, env) == Hit(hit(items[i]), f)
    ensures Walk(t, Flat(items, rules), d, p, env) == Hit(exists i :: 0 <= i < |items| && hit(items[i]), f)
  {
    if items != [] {
      var front, last := items[..|items| - 1], items[|items| - 1];
      forall i | 0 <= i < |front| ensures Walk(t, rules(front[i]), d, p, env) == Hit(hit(front[i]), f) {
        assert front[i] == items[i];
      }
      FlatWalks(t, front, rules, hit, f, d, p, env);
      WalkConcat(t, Flat(front, rules), rules(last), d, p, env);
      assert Walk(t, rules(last), d, p, env) == Hit(hit(last), f);
      if i :| 0 <= i < |front| && hit(front[i]) {
        assert items[i] == front[i];
      }
      if i :| 0 <= i < |items| && hit(items[i]) {
        assert i == |items| - 1 || front[i] == items[i];
      }
    }
  }

  // ---- parts of a table ----

  /** What the rules a part contributes to one chain do, in the table they belong to. */
  function PartFate(t: Table, part: Table, c: Chain, d: nat, p: Packet, env: Env): Fate {
    Walk(t, Select(part, c), d, p, env)
  }

  lemma PartConcat(t: Table, a: Table, b: Table, c: Chain, d: nat, p: Packet, env: Env)
    ensures PartFate(t, a + b, c, d, p, env) == Else(PartFate(t, a, c, d, p, env), PartFate(t, b, c, d, p, env))
  {
    SelectConcat(a, b, c);
    WalkConcat(t, Select(a, c), Select(b, c), d, p, env);
  }

  lemma PartIn(t: Table, c: Chain, rules: seq<Rule>, at: Chain, d: nat, p: Packet, env: Env)
    ensures PartFate(t, In(c, rules), at, d, p, env) == if c == at then Walk(t, rules, d, p, env) else Fell
  {
    SelectIn(c, rules, at);
  }

  /** Every rule of the part is in one of these chains. */
  ghost predicate Stays(part: Table, cs: set<Chain>) { forall i :: 0 <= i < |part| ==> part[i].chain in cs }

  lemma {:induction false} Absent(t: Table, part: Table, cs: set<Chain>, c: Chain, d: nat, p: Packet, env: Env)
    requires Stays(part, cs) && c !in cs
    ensures Select(part, c) == [] && PartFate(t, part, c, d, p, env) == Fell
  {
    if part != [] {
      Absent(t, part[1..], cs, c, d, p, env);
    }
  }

  // ---- address lists ----

  lemma ListWalks(t: Table, r: Reader, lg: LogSpec, tail: Rule, k: Kind, es: seq<Entry>, d: nat, p: Packet, env: Env)
    requires (tail == [Verdict(k)] || tail == [Counter, Verdict(k)]) && (k.Accept? || k.Drop? || k.Return?)
    ensures Walk(t, Flat(es, PerEntry(r, lg, tail)), d, p, env) == Hit(Listed(r, es, p), FateOf(k))
  {
    var hit := (e: Entry) => Reads(r, e) && e.Covers(At(p, Where(r)));
    forall i | 0 <= i < |es|
      ensures Walk(t, PerEntry(r, lg, tail)(es[i]), d, p, env) == Hit(hit(es[i]), FateOf(k))
    {
      MatchOfTests(r, es[i], p, env);
      if Reads(r, es[i]) {
        LoggedWalks(t, MatchOf(r, es[i]).value, es[i].Covers(At(p, Where(r))), lg, tail, k, d, p, env);
      }
    }
    FlatWalks(t, es, PerEntry(r, lg, tail), hit, FateOf(k), d, p, env);
  }

  /** What each reader's list amounts to. */
  lemma ListedMeans(r: Reader, es: seq<Entry>, p: Packet)
    ensures r.Cidr? || r.ListEntry? ==> Listed(r, es, p) == AnyCovers(es, At(p, Where(r)))
    ensures r.NetworksOnly? ==> Listed(r, es, p) == AnyNetwork(es, p.Src())
    ensures r.V4Sources? && p.fam.V4? ==> Listed(r, es, p) == AnyCovers(es, p.Src())
  {
  }

  // ---- rate limits ----

  lemma TwoTests(a: Rule, x: bool, b: Rule, y: bool, p: Packet, env: Env)
    requires Tests(a, p, env, x) && Tests(b, p, env, y)
    ensures Tests(a + b, p, env, x && y)
  {
    TestsBoth(a, x, b, y, p, env);
  }

  lemma L4Tests(n: nat, p: Packet, env: Env)
    ensures Tests(L4Is(n), p, env, p.l4 == n)
  {
    CompareTests(Meta(L4Proto, 1), Eq, n, p, env);
  }

  lemma TypeTests(proto: nat, v: nat, p: Packet, env: Env)
    ensures Tests(L4Is(proto) + TypeIs(v), p, env, p.l4 == proto && IsType(p, v))
  {
    L4Tests(proto, p, env);
    CompareTests(Payload(Transport, 0, 1, 1), Eq, v, p, env);
    TwoTests(L4Is(proto), p.l4 == proto, TypeIs(v), IsType(p, v), p, env);
  }

  lemma FlagTests(mask: nat, v: nat, p: Packet, env: Env)
    ensures Tests(L4Is(TCP) + FlagsAre(mask, v), p, env, p.l4 == TCP && Flags(p, mask, v))
  {
    L4Tests(TCP, p, env);
    MaskCompareTests(Payload(Transport, 13, 1, 1), 1, mask, Eq, v, p, env);
    TwoTests(L4Is(TCP), p.l4 == TCP, FlagsAre(mask, v), Flags(p, mask, v), p, env);
  }

  lemma CtTests(mask: nat, p: Packet, env: Env)
    ensures Tests(CtAny(mask), p, env, State(p, mask))
  {
    MaskCompareTests(Ct(CtState, 1), 4, mask, Neq, 0, p, env);
  }

  lemma InterfaceTests(op: Op, p: Packet, env: Env)
    ensures Tests(Interface(op), p, env, Compares(op, p.iif, LO))
  {
    CompareTests(Meta(IifName, 1), op, LO, p, env);
  }

  lemma WatchTests(w: Watch, f: Family, p: Packet, env: Env)
    requires p.fam == f
    ensures Tests(WatchMatch(w, f), p, env, Watched(w, p))
  {
    match w
    case Syns => FlagTests(0x17, 0x02, p, env);
    case Echoes => if f.V4? { TypeTests(ICMP, 8, p, env); } else { TypeTests(ICMPV6, 128, p, env); }
    case Resets => FlagTests(0x04, 0x04, p, env);
    case Anything =>
  }

  lemma MeterRuns(m: Meter, f: Family, k: Kind, regs: Regs, p: Packet, env: Env)
    requires p.fam == f && !k.Other?
    ensures Run(MeterTail(m, f, k), regs, p, env) == if Over(env, m, p) then Decide(k) else Stop
  {
    var tail := MeterTail(m, f, k);
    LoadsTheAddress(p, SrcAddr);
    var r: Regs := regs[1 := p.Src().val];
    assert tail[1..] == [Dynset(1, m, f), Verdict(k)] && tail[1..][1..] == [Verdict(k)];
    assert Run([Verdict(k)], r, p, env) == Decide(k);
    assert Run(tail[1..], r, p, env) == if Over(env, m, p) then Decide(k) else Stop;
  }

  lemma MeterRuleRuns(pre: Rule, holds: bool, m: Meter, f: Family, k: Kind, p: Packet, env: Env)
    requires Tests(pre, p, env, p.fam == f && holds) && !k.Other?
    ensures Run(pre + MeterTail(m, f, k), map[], p, env)
            == if p.fam == f && holds && Over(env, m, p) then Decide(k) else Stop
  {
    RunConcat(pre, MeterTail(m, f, k), map[], p, env);
    assert Run(pre, map[], p, env) == if p.fam == f && holds then Next(Left(pre, map[], p, env)) else Stop;
    if p.fam == f {
      MeterRuns(m, f, k, Left(pre, map[], p, env), p, env);
    }
  }

  lemma RateRuleRuns(w: Watch, m: Meter, c: Chain, f: Family, p: Packet, env: Env)
    ensures Run(RateRule(w, m, c, f), map[], p, env)
            == if p.fam == f && Watched(w, p) && Over(env, m, p) then Decide(Jump(c)) else Stop
  {
    FamilyTests(f, p, env);
    if p.fam == f {
      WatchTests(w, f, p, env);
    }
    TestsBoth(FamilyIs(f), p.fam == f, WatchMatch(w, f), Watched(w, p), p, env);
    MeterRuleRuns(FamilyIs(f) + WatchMatch(w, f), Watched(w, p), m, f, Jump(c), p, env);
  }

  lemma OverRateDrops(t: Table, lg: LogSpec, d: nat, p: Packet, env: Env)
    ensures Walk(t, OverRate(lg), d, p, env) == Dropped
  {
    assert Run([Verdict(Drop)], map[], p, env) == Decide(Drop);
    WalkOne(t, [Verdict(Drop)], d, p, env);
    if lg.on {
      assert Tests([], p, env, true);
      LogWalks(t, [], true, lg.prefix, lg.nflog, d, p, env);
      assert [] + LogExprs(lg.prefix, lg.nflog) == LogExprs(lg.prefix, lg.nflog);
      WalkConcat(t, [LogExprs(lg.prefix, lg.nflog)], [[Verdict(Drop)]], d, p, env);
    } else {
      assert OverRate(lg) == [[Verdict(Drop)]];
    }
  }

  /** A per-source cap drops what it watches from a source over its own rate, and nothing else. */
  lemma RateLimitWalks(t: Table, w: Watch, m: Meter, c: Chain, d: nat, p: Packet, env: Env)
    requires d > 0 && PartFate(t, t, c, d - 1, p, env) == Dropped
    ensures Walk(t, RateLimited(w, m, c), d, p, env) == Hit(Watched(w, p) && Over(env, m, p), Dropped)
  {
    RateRuleRuns(w, m, c, V4, p, env);
    RateRuleRuns(w, m, c, V6, p, env);
    var r4, r6 := RateRule(w, m, c, V4), RateRule(w, m, c, V6);
    JumpWalks(t, r4, p.fam == V4 && Watched(w, p) && Over(env, m, p), c, d, p, env);
    JumpWalks(t, r6, p.fam == V6 && Watched(w, p) && Over(env, m, p), c, d, p, env);
    WalkConcat(t, [r4], [r6], d, p, env);
  }
}
