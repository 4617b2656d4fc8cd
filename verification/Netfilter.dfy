/** The part of nf_tables the core compiles to: registers, expressions, chains, verdicts. */
module Netfilter {
  import opened Addresses
  import opened Models

  // ---- packets ----

  type Byte = b: nat | b < 256

  /** A field of a header, read as the kernel's comparisons read it: most significant byte first. */
  function BigEndian(s: seq<Byte>): nat {
    if s == [] then 0 else 256 * BigEndian(s[..|s| - 1]) + s[|s| - 1]
  }

  lemma {:induction false} BigEndianBound(s: seq<Byte>)
    ensures BigEndian(s) < Pow2(8 * |s|)
  {
    if s != [] {
      var front := s[..|s| - 1];
      BigEndianBound(front);
      Pow2Splits(8, 8 * |front|);
      assert Pow2(8) == 256;
    }
  }

  const LO: nat := 0x6c6f00  // "lo\0"

  const ICMP: nat := 1
  const TCP: nat := 6
  const ICMPV6: nat := 58

  function Nfproto(f: Family): nat { if f.V4? then 2 else 10 }

  /** What a hook hands to its chains: metadata the kernel worked out, and the raw headers. */
  datatype RawPacket = RawPacket(
    fam: Family, iif: nat, l4: nat, ct: nat, pktType: nat, daddrType: nat,
    network: seq<Byte>, transport: seq<Byte>)
  {
    /** ip_rcv and ip6_rcv let no shorter header through. */
    predicate WellFormed() { |network| >= if fam.V4? then 20 else 40 }

    function Src(): Addr
      requires WellFormed()
    {
      if fam.V4? then Addr(V4, BigEndian(network[12..16])) else Addr(V6, BigEndian(network[8..24]))
    }

    function Dst(): Addr
      requires WellFormed()
    {
      if fam.V4? then Addr(V4, BigEndian(network[16..20])) else Addr(V6, BigEndian(network[24..40]))
    }
  }

  type Packet = p: RawPacket | p.WellFormed()
    witness RawPacket(V4, 0, 0, 0, 0, 0, [0,0,0,0,0,0,0,0,0,0,0,0,0,0,0,0,0,0,0,0], [])

  lemma AddressesAreValid(p: Packet)
    ensures p.Src().Valid() && p.Dst().Valid()
  {
    if p.fam.V4? {
      BigEndianBound(p.network[12..16]);
      BigEndianBound(p.network[16..20]);
    } else {
      BigEndianBound(p.network[8..24]);
      BigEndianBound(p.network[24..40]);
    }
  }

  // ---- masks ----

  /** Bitwise and. */
  function And(a: nat, b: nat): nat {
    if a == 0 || b == 0 then 0 else 2 * And(a / 2, b / 2) + BothOdd(a, b)
  }

  function BothOdd(a: nat, b: nat): nat { if a % 2 == 1 && b % 2 == 1 then 1 else 0 }

  lemma {:induction false} AndUnfolds(a: nat, b: nat)
    ensures And(a, b) == 2 * And(a / 2, b / 2) + BothOdd(a, b)
    ensures And(a, b) % 2 == BothOdd(a, b) && And(a, b) / 2 == And(a / 2, b / 2)
  {
    if a == 0 || b == 0 {
      assert And(a / 2, b / 2) == 0;
    }
  }

  lemma {:induction false} AndAllOnes(v: nat, w: nat)
    requires v < Pow2(w)
    ensures And(v, Pow2(w) - 1) == v
  {
    if w > 0 {
      AndAllOnes(v / 2, w - 1);
      AndUnfolds(v, Pow2(w) - 1);
      assert (Pow2(w) - 1) / 2 == Pow2(w - 1) - 1 && (Pow2(w) - 1) % 2 == 1;
    }
  }

  lemma {:induction false} Pow2Grows(h: nat, w: nat)
    requires h <= w
    ensures Pow2(h) <= Pow2(w)
  {
    if h < w {
      Pow2Grows(h, w - 1);
    }
  }

  lemma HalfModulus(v: nat, m: nat)
    requires m > 0
    ensures v % (2 * m) == 2 * (v / 2 % m) + v % 2
  {
    var q, r := v / 2 / m, v / 2 % m;
    assert v / 2 == m * q + r;
    assert v == 2 * (v / 2) + v % 2;
    assert v == (2 * m) * q + (2 * r + v % 2);
    DivideUnique(v, 2 * m, q, 2 * r + v % 2);
  }

  /** The mask of a network: every bit of the family's width above the host part. */
  function NetMask(w: nat, host: nat): nat
    requires host <= w
  {
    Pow2Grows(host, w);
    Pow2(w) - Pow2(host)
  }

  /** Anding with a network's mask clears exactly the host bits. */
  lemma {:induction false} MaskClearsHostBits(v: nat, w: nat, host: nat)
    requires host <= w && v < Pow2(w)
    ensures And(v, NetMask(w, host)) == v - v % Pow2(host)
    decreases host
  {
    if host == 0 {
      AndAllOnes(v, w);
    } else {
      MaskClearsHostBits(v / 2, w - 1, host - 1);
      Pow2Grows(host, w);
      AndUnfolds(v, NetMask(w, host));
      assert NetMask(w, host) == 2 * NetMask(w - 1, host - 1);
      HalfModulus(v, Pow2(host - 1));
    }
  }

  // ---- the rule language ----

  datatype Key = NfprotoKey | IifName | L4Proto | PktType
  datatype CtKey = CtState | CtOther(code: nat)
  datatype Base = Network | Transport
  datatype Op = Eq | Neq | Gte | Lte

  /** The chains the core names; Named is any other. */
  datatype Chain =
    | Input | Forward | Fragments | Prerouting | ForwardLists | Bogon | PortScan
    | SshBrute | SshBruteOver | SynFloodOver | IcmpFloodOver | TcpRstOver | Named(name: string)

  datatype Meter = SynFloodMeter | IcmpFloodMeter | SshBruteMeter | TcpRstMeter | ConnLimit

  /** A feed's interval set in one family. */
  datatype SetName = FeedSet(id: FeedId, fam: Family)

  datatype Kind = Accept | Drop | Return | Jump(to: Chain) | Goto(to: Chain) | Other(code: int)

  datatype Expr =
    | Meta(key: Key, reg: nat)
    | Ct(ctKey: CtKey, reg: nat)
    | FibDaddrType(reg: nat)
    | Payload(base: Base, offset: nat, len: nat, reg: nat)
    | Bitwise(from: nat, into: nat, len: nat, mask: nat)
    | Cmp(op: Op, reg: nat, data: nat)
    | Lookup(reg: nat, setName: SetName)
    | Dynset(reg: nat, meter: Meter, fam: Family)  // update the source's own limit; passes once it is over
    | Limit(prefix: string)                        // a log's own rate limit; passes while under it
    | Log(prefix: string, nflog: bool)             // the kernel log, or the core's own group
    | Counter
    | Immediate(reg: nat, data: nat)
    | Redir(reg: nat)
    | Verdict(kind: Kind)
    | Custom(text: string)                         // one raw nft line, compiled by the nft command

  type Rule = seq<Expr>

  /** An inclusive span of addresses, as numbers. */
  datatype Span = Span(lo: nat, hi: nat)

  predicate InSpans(spans: seq<Span>, v: nat) {
    exists i :: 0 <= i < |spans| && spans[i].lo <= v <= spans[i].hi
  }

  /** Everything a verdict depends on besides the rules and the packet. */
  datatype Env = Env(
    over: set<(Meter, Family)>,          // the limits this packet's source is over
    under: set<string>,                  // the log limits that still pass
    sets: map<SetName, seq<Span>>,       // the interval sets in the kernel
    custom: map<string, bool>)           // raw lines that let this packet in, or keep it out

  predicate InSet(env: Env, s: SetName, v: nat) { s in env.sets && InSpans(env.sets[s], v) }

  type Regs = map<nat, nat>

  function Get(regs: Regs, r: nat): nat { if r in regs then regs[r] else 0 }

  datatype Flow = Next(regs: Regs) | Stop | Decide(kind: Kind)

  function LoadMeta(p: Packet, k: Key): nat {
    match k
    case NfprotoKey => Nfproto(p.fam)
    case IifName => p.iif
    case L4Proto => p.l4
    case PktType => p.pktType
  }

  predicate Compares(op: Op, a: nat, b: nat) {
    match op
    case Eq => a == b
    case Neq => a != b
    case Gte => a >= b
    case Lte => a <= b
  }

  function Header(p: Packet, b: Base): seq<Byte> { if b.Network? then p.network else p.transport }

  /** The two verdicts by which a rule decides nothing: go on with the rule, go on with the next one. */
  const CONTINUE := -1
  const BREAK := -2

  function Exec(e: Expr, regs: Regs, p: Packet, env: Env): Flow {
    match e
    case Meta(k, r) => Next(regs[r := LoadMeta(p, k)])
    case Ct(k, r) => Next(regs[r := if k.CtState? then p.ct else 0])
    case FibDaddrType(r) => Next(regs[r := p.daddrType])
    case Payload(b, o, n, r) =>
      if o + n <= |Header(p, b)| then Next(regs[r := BigEndian(Header(p, b)[o..o + n])]) else Stop
    case Bitwise(s, d, _, m) => Next(regs[d := And(Get(regs, s), m)])
    case Cmp(op, r, v) => if Compares(op, Get(regs, r), v) then Next(regs) else Stop
    case Lookup(r, s) => if InSet(env, s, Get(regs, r)) then Next(regs) else Stop
    case Dynset(_, m, f) => if (m, f) in env.over then Next(regs) else Stop
    case Limit(pre) => if pre in env.under then Next(regs) else Stop
    case Log(_, _) => Next(regs)
    case Counter => Next(regs)
    case Immediate(r, v) => Next(regs[r := v])
    case Redir(_) => Decide(Other(0))
    case Verdict(k) => if k == Other(CONTINUE) then Next(regs) else if k == Other(BREAK) then Stop else Decide(k)
    case Custom(t) => if t in env.custom then Decide(if env.custom[t] then Accept else Drop) else Stop
  }

  /** One rule, or one part of a rule, from left to right. */
  function Run(es: Rule, regs: Regs, p: Packet, env: Env): Flow {
    if es == [] then Next(regs)
    else match Exec(es[0], regs, p, env)
      case Next(r) => Run(es[1..], r, p, env)
      case Stop => Stop
      case Decide(k) => Decide(k)
  }

  function Then(f: Flow, es: Rule, p: Packet, env: Env): Flow {
    if f.Next? then Run(es, f.regs, p, env) else f
  }

  lemma {:induction false} RunConcat(a: Rule, b: Rule, regs: Regs, p: Packet, env: Env)
    ensures Run(a + b, regs, p, env) == Then(Run(a, regs, p, env), b, p, env)
  {
    if a == [] {
      assert a + b == b;
    } else {
      assert (a + b)[1..] == a[1..] + b;
      var f := Exec(a[0], regs, p, env);
      if f.Next? {
        RunConcat(a[1..], b, f.regs, p, env);
      }
    }
  }

  // ---- chains ----

  /** A rule and the chain it was added to; a table is one transaction's worth of them, in order. */
  datatype Placed = Placed(chain: Chain, rule: Rule)
  type Table = seq<Placed>

  function Select(t: Table, c: Chain): seq<Rule> {
    if t == [] then []
    else (if t[0].chain == c then [t[0].rule] else []) + Select(t[1..], c)
  }

  datatype Fate = Accepted | Dropped | Elsewhere | Returned | Fell

  /** NFT_JUMP_STACK_SIZE: a packet that would jump deeper is dropped. */
  const JUMP_STACK: nat := 16

  /** `rules` in order. A jump comes back here unless its chain decided; a goto never does. */
  function Walk(t: Table, rules: seq<Rule>, depth: nat, p: Packet, env: Env): Fate
    decreases depth, |rules|
  {
    if rules == [] then Fell
    else match Run(rules[0], map[], p, env)
      case Next(_) => Walk(t, rules[1..], depth, p, env)
      case Stop => Walk(t, rules[1..], depth, p, env)
      case Decide(Accept) => Accepted
      case Decide(Drop) => Dropped
      case Decide(Return) => Returned
      case Decide(Other(_)) => Elsewhere
      case Decide(Goto(c)) =>
        if depth == 0 then Dropped
        else
          var f := Walk(t, Select(t, c), depth - 1, p, env);
          if f.Fell? then Returned else f
      case Decide(Jump(c)) =>
        if depth == 0 then Dropped
        else
          var f := Walk(t, Select(t, c), depth - 1, p, env);
          if f.Fell? || f.Returned? then Walk(t, rules[1..], depth, p, env) else f
  }

  function Else(f: Fate, g: Fate): Fate { if f.Fell? then g else f }

  lemma {:induction false} WalkConcat(t: Table, a: seq<Rule>, b: seq<Rule>, depth: nat, p: Packet, env: Env)
    ensures Walk(t, a + b, depth, p, env)
            == Else(Walk(t, a, depth, p, env), Walk(t, b, depth, p, env))
    decreases |a|
  {
    if a == [] {
      assert a + b == b;
    } else {
      assert (a + b)[1..] == a[1..] + b;
      WalkConcat(t, a[1..], b, depth, p, env);
    }
  }

  /** A base chain: what no rule decides, the policy does. */
  predicate Admitted(t: Table, c: Chain, policy: bool, p: Packet, env: Env) {
    var f := Walk(t, Select(t, c), JUMP_STACK, p, env);
    f.Accepted? || ((f.Fell? || f.Returned?) && policy)
  }

  // ---- placing rules ----

  function In(c: Chain, rules: seq<Rule>): Table {
    seq(|rules|, i requires 0 <= i < |rules| => Placed(c, rules[i]))
  }

  lemma {:induction false} SelectConcat(a: Table, b: Table, c: Chain)
    ensures Select(a + b, c) == Select(a, c) + Select(b, c)
  {
    if a == [] {
      assert a + b == b;
    } else {
      assert (a + b)[1..] == a[1..] + b;
      SelectConcat(a[1..], b, c);
    }
  }

  lemma {:induction false} SelectIn(c: Chain, rules: seq<Rule>, d: Chain)
    ensures Select(In(c, rules), d) == if c == d then rules else []
  {
    if rules != [] {
      assert In(c, rules)[1..] == In(c, rules[1..]);
      SelectIn(c, rules[1..], d);
    }
  }
}
