/** The matching halves of the rules: what each run of expressions tests. */
module Matches {
  import opened Addresses
  import opened Models
  import opened Netfilter

  /** Whatever the registers hold, `m` lets the rule go on exactly when `holds`. */
  ghost predicate Tests(m: Rule, p: Packet, env: Env, holds: bool) {
    forall regs :: Run(m, regs, p, env) == if holds then Next(Left(m, regs, p, env)) else Stop
  }

  /** The registers a match that went through leaves behind. */
  ghost function Left(m: Rule, regs: Regs, p: Packet, env: Env): Regs {
    var f := Run(m, regs, p, env);
    if f.Next? then f.regs else regs
  }

  lemma TestsBoth(a: Rule, x: bool, b: Rule, y: bool, p: Packet, env: Env)
    requires Tests(a, p, env, x) && (x ==> Tests(b, p, env, y))
    ensures Tests(a + b, p, env, x && y)
  {
    forall regs ensures Run(a + b, regs, p, env) == if x && y then Next(Left(a + b, regs, p, env)) else Stop {
      RunConcat(a, b, regs, p, env);
      assert Run(a, regs, p, env) == if x then Next(Left(a, regs, p, env)) else Stop;
      if x {
        var r := Left(a, regs, p, env);
        assert Run(b, r, p, env) == if y then Next(Left(b, r, p, env)) else Stop;
      }
    }
  }

  /** A rule is its match and then what it does. */
  lemma RuleActs(m: Rule, holds: bool, tail: Rule, k: Kind, p: Packet, env: Env)
    requires Tests(m, p, env, holds) && !k.Other? && (tail == [Verdict(k)] || tail == [Counter, Verdict(k)])
    ensures Run(m + tail, map[], p, env) == if holds then Decide(k) else Stop
  {
    RunConcat(m, tail, map[], p, env);
    assert Run(m, map[], p, env) == if holds then Next(Left(m, map[], p, env)) else Stop;
    if holds {
      var r := Left(m, map[], p, env);
      if tail == [Counter, Verdict(k)] {
        assert tail[1..] == [Verdict(k)];
        assert Run([Verdict(k)], r, p, env) == Decide(k);
      }
    }
  }

  // ---- one load and one comparison ----

  /** The value an expression puts into register 1, when it can. */
  function Loads(e: Expr, p: Packet): Option<nat> {
    match e
    case Meta(k, 1) => Some(LoadMeta(p, k))
    case Ct(CtState, 1) => Some(p.ct)
    case FibDaddrType(1) => Some(p.daddrType)
    case Payload(b, o, n, 1) =>
      if o + n <= |Header(p, b)| then Some(BigEndian(Header(p, b)[o..o + n])) else None
    case _ => None
  }

  predicate IsLoad(e: Expr) {
    (e.Meta? || (e.Ct? && e.ctKey.CtState?) || e.FibDaddrType? || e.Payload?) && e.reg == 1
  }

  function Compare(e: Expr, op: Op, v: nat): Rule { [e, Cmp(op, 1, v)] }

  function MaskCompare(e: Expr, len: nat, mask: nat, op: Op, v: nat): Rule {
    [e, Bitwise(1, 1, len, mask), Cmp(op, 1, v)]
  }

  /** A comparison leaves the value it loaded in the register. */
  lemma CompareLeaves(e: Expr, op: Op, v: nat, regs: Regs, p: Packet, env: Env)
    requires IsLoad(e)
    ensures var x := Loads(e, p);
            Run(Compare(e, op, v), regs, p, env)
            == if x.Some? && Compares(op, x.value, v) then Next(regs[1 := x.value]) else Stop
  {
    var m, x := Compare(e, op, v), Loads(e, p);
    assert m[1..] == [Cmp(op, 1, v)] && m[1..][1..] == [];
    if x.Some? {
      assert Run([Cmp(op, 1, v)], regs[1 := x.value], p, env)
          == if Compares(op, x.value, v) then Next(regs[1 := x.value]) else Stop;
    }
  }

  lemma CompareTests(e: Expr, op: Op, v: nat, p: Packet, env: Env)
    requires IsLoad(e)
    ensures var x := Loads(e, p); Tests(Compare(e, op, v), p, env, x.Some? && Compares(op, x.value, v))
  {
    var m, x := Compare(e, op, v), Loads(e, p);
    forall regs ensures Run(m, regs, p, env)
      == if x.Some? && Compares(op, x.value, v) then Next(Left(m, regs, p, env)) else Stop
    {
      CompareLeaves(e, op, v, regs, p, env);
    }
  }

  lemma MaskCompareTests(e: Expr, len: nat, mask: nat, op: Op, v: nat, p: Packet, env: Env)
    requires IsLoad(e)
    ensures var x := Loads(e, p);
            Tests(MaskCompare(e, len, mask, op, v), p, env, x.Some? && Compares(op, And(x.value, mask), v))
  {
    var m, x := MaskCompare(e, len, mask, op, v), Loads(e, p);
    assert m[1..] == [Bitwise(1, 1, len, mask), Cmp(op, 1, v)] && m[1..][1..] == [Cmp(op, 1, v)];
    forall regs ensures Run(m, regs, p, env)
      == if x.Some? && Compares(op, And(x.value, mask), v) then Next(Left(m, regs, p, env)) else Stop
    {
      if x.Some? {
        var masked: Regs := regs[1 := x.value][1 := And(x.value, mask)];
        assert Run([Cmp(op, 1, v)], masked, p, env)
            == if Compares(op, And(x.value, mask), v) then Next(masked) else Stop;
      }
    }
  }

  // ---- the tests the builders write ----

  function FamilyIs(f: Family): Rule { Compare(Meta(NfprotoKey, 1), Eq, Nfproto(f)) }
  function L4Is(n: nat): Rule { Compare(Meta(L4Proto, 1), Eq, n) }
  function Interface(op: Op): Rule { Compare(Meta(IifName, 1), op, LO) }
  function PktTypeIs(n: nat): Rule { Compare(Meta(PktType, 1), Eq, n) }
  function DaddrTypeIs(n: nat): Rule { Compare(FibDaddrType(1), Eq, n) }
  function CtAny(mask: nat): Rule { MaskCompare(Ct(CtState, 1), 4, mask, Neq, 0) }
  function FlagsAre(mask: nat, v: nat): Rule { MaskCompare(Payload(Transport, 13, 1, 1), 1, mask, Eq, v) }
  function TypeIs(v: nat): Rule { Compare(Payload(Transport, 0, 1, 1), Eq, v) }

  /** A field of the transport header, if the packet carries that much of it. */
  function Field(p: Packet, offset: nat, len: nat): Option<nat> {
    Loads(Payload(Transport, offset, len, 1), p)
  }

  predicate Flags(p: Packet, mask: nat, v: nat) {
    var f := Field(p, 13, 1);
    f.Some? && And(f.value, mask) == v
  }

  predicate IsType(p: Packet, v: nat) { Field(p, 0, 1) == Some(v) }

  predicate State(p: Packet, mask: nat) { And(p.ct, mask) != 0 }

  predicate ToPort(p: Packet, s: PortSpec) {
    var f := Field(p, 2, 2);
    f.Some? && s.Covers(f.value)
  }

  lemma FamilyTests(f: Family, p: Packet, env: Env)
    ensures Tests(FamilyIs(f), p, env, p.fam == f)
  {
    CompareTests(Meta(NfprotoKey, 1), Eq, Nfproto(f), p, env);
  }

  // ---- addresses ----

  datatype Pos = SrcAddr | DstAddr

  function Offset(f: Family, pos: Pos): nat {
    match (f, pos)
    case (V4, SrcAddr) => 12
    case (V4, DstAddr) => 16
    case (V6, SrcAddr) => 8
    case (V6, DstAddr) => 24
  }

  function AddrLen(f: Family): nat { if f.V4? then 4 else 16 }

  function Load(f: Family, pos: Pos): Expr { Payload(Network, Offset(f, pos), AddrLen(f), 1) }

  function At(p: Packet, pos: Pos): Addr { if pos.SrcAddr? then p.Src() else p.Dst() }

  lemma LoadsTheAddress(p: Packet, pos: Pos)
    ensures Loads(Load(p.fam, pos), p) == Some(At(p, pos).val)
  {
  }

  /** The address comparison itself, which is only right for packets of the family. */
  function NetTest(n: Network, pos: Pos, op: Op): Rule {
    var f := n.addr.fam;
    MaskCompare(Load(f, pos), AddrLen(f), NetMask(Width(f), n.Host()), op, n.addr.val)
  }

  function AddrTest(a: Addr, pos: Pos, op: Op): Rule { Compare(Load(a.fam, pos), op, a.val) }

  /** A mask that clears nothing is left out, so that nft prints a single address as one. */
  function ShortNetTest(n: Network, pos: Pos, op: Op): Rule {
    if n.Host() == 0 then AddrTest(n.addr, pos, op) else NetTest(n, pos, op)
  }

  function CidrMatchOp(e: Entry, pos: Pos, op: Op): Option<Rule> {
    match e
    case Bare(a) => Some(FamilyIs(a.fam) + AddrTest(a, pos, op))
    case Net(n) => Some(FamilyIs(n.addr.fam) + ShortNetTest(n, pos, op))
    case Comment => None
    case Junk => None
  }

  function WithoutFamilyTest(m: Rule): Rule {
    if |m| >= 2 && m[0].Meta? && m[1].Cmp? then m[2..] else m
  }

  predicate Meets(e: Entry, op: Op, a: Addr) { if op.Eq? then e.Covers(a) else !e.Covers(a) }

  lemma NetTestTests(n: Network, pos: Pos, op: Op, p: Packet, env: Env)
    requires p.fam == n.addr.fam && (op.Eq? || op.Neq?)
    ensures Tests(NetTest(n, pos, op), p, env, Meets(Net(n), op, At(p, pos)))
  {
    var f, v := n.addr.fam, At(p, pos).val;
    LoadsTheAddress(p, pos);
    AddressesAreValid(p);
    MaskCompareTests(Load(f, pos), AddrLen(f), NetMask(Width(f), n.Host()), op, n.addr.val, p, env);
    MaskClearsHostBits(v, Width(f), n.Host());
    MaskedCompare(v, n.addr.val, Pow2(n.Host()));
  }

  lemma AddrTestTests(a: Addr, pos: Pos, op: Op, p: Packet, env: Env)
    requires p.fam == a.fam && (op.Eq? || op.Neq?)
    ensures Tests(AddrTest(a, pos, op), p, env, Meets(Bare(a), op, At(p, pos)))
  {
    LoadsTheAddress(p, pos);
    CompareTests(Load(a.fam, pos), op, a.val, p, env);
  }

  lemma FullLengthIsOneAddress(n: Network, a: Addr)
    requires n.Host() == 0
    ensures Net(n).Covers(a) <==> Bare(n.addr).Covers(a)
  {
    assert Pow2(0) == 1;
  }

  /** cidrMatchOp tests the family and then membership, or its negation, in that family. */
  lemma CidrMatchTests(e: Entry, pos: Pos, op: Op, p: Packet, env: Env)
    requires CidrMatchOp(e, pos, op).Some? && (op.Eq? || op.Neq?)
    ensures Tests(CidrMatchOp(e, pos, op).value, p, env, p.fam == FamilyOf(e) && Meets(e, op, At(p, pos)))
    ensures WithoutFamilyTest(CidrMatchOp(e, pos, op).value)
            == if e.Bare? then AddrTest(e.addr, pos, op) else ShortNetTest(e.net, pos, op)
  {
    var f := FamilyOf(e);
    FamilyTests(f, p, env);
    var rest := if e.Bare? then AddrTest(e.addr, pos, op) else ShortNetTest(e.net, pos, op);
    if p.fam == f {
      BareTestTests(e, pos, op, p, env);
    }
    TestsBoth(FamilyIs(f), p.fam == f, rest, Meets(e, op, At(p, pos)), p, env);
    assert (FamilyIs(f) + rest)[2..] == rest;
  }

  /** ... and what is left without the family test still tests membership, for a packet of that family. */
  lemma BareTestTests(e: Entry, pos: Pos, op: Op, p: Packet, env: Env)
    requires (e.Bare? || e.Net?) && p.fam == FamilyOf(e) && (op.Eq? || op.Neq?)
    ensures Tests(if e.Bare? then AddrTest(e.addr, pos, op) else ShortNetTest(e.net, pos, op),
                  p, env, Meets(e, op, At(p, pos)))
  {
    match e
    case Bare(a) => AddrTestTests(a, pos, op, p, env);
    case Net(n) =>
      if n.Host() == 0 {
        FullLengthIsOneAddress(n, At(p, pos));
        AddrTestTests(n.addr, pos, op, p, env);
      } else {
        NetTestTests(n, pos, op, p, env);
      }
  }

  function FamilyOf(e: Entry): Family
    requires e.Bare? || e.Net?
  {
    if e.Bare? then e.addr.fam else e.net.addr.fam
  }

  // ---- lists of addresses ----

  /** Which builder reads the list: it decides what counts as an entry and how it is compared. */
  datatype Reader = Cidr(pos: Pos) | ListEntry | NetworksOnly | V4Sources

  /** An entry's match, or none for a note, an unusable line, or one this builder passes over. */
  function MatchOf(r: Reader, e: Entry): Option<Rule> {
    match r
    case Cidr(pos) => CidrMatchOp(e, pos, Eq)
    case ListEntry =>
      if e.Bare? then Some(FamilyIs(e.addr.fam) + AddrTest(e.addr, SrcAddr, Eq))
      else if e.Net? then Some(FamilyIs(e.net.addr.fam) + NetTest(e.net, SrcAddr, Eq))
      else None
    case NetworksOnly =>
      if e.Net? then Some(FamilyIs(e.net.addr.fam) + NetTest(e.net, SrcAddr, Eq)) else None
    case V4Sources =>
      if e.Bare? && e.addr.Is4() then Some(FamilyIs(V4) + HostTest(e.addr))
      else if e.Net? && e.net.addr.Is4() then Some(FamilyIs(V4) + NetTest(e.net, SrcAddr, Eq))
      else None
  }

  /** ipv4SourceMatch writes the /32 mask even for a single address. */
  function HostTest(a: Addr): Rule { MaskCompare(Load(V4, SrcAddr), 4, NetMask(32, 0), Eq, a.val) }

  predicate Reads(r: Reader, e: Entry) {
    match r
    case Cidr(_) => e.Bare? || e.Net?
    case ListEntry => e.Bare? || e.Net?
    case NetworksOnly => e.Net?
    case V4Sources => (e.Bare? && e.addr.Is4()) || (e.Net? && e.net.addr.Is4())
  }

  function Where(r: Reader): Pos { if r.Cidr? then r.pos else SrcAddr }

  /** What follows the family test. */
  function AddressTest(r: Reader, e: Entry): Rule
    requires Reads(r, e)
  {
    match e
    case Bare(a) => if r.V4Sources? then HostTest(a) else AddrTest(a, Where(r), Eq)
    case Net(n) => if r.Cidr? then ShortNetTest(n, r.pos, Eq) else NetTest(n, SrcAddr, Eq)
  }

  lemma AddressTestTests(r: Reader, e: Entry, p: Packet, env: Env)
    requires Reads(r, e) && p.fam == FamilyOf(e)
    ensures Tests(AddressTest(r, e), p, env, e.Covers(At(p, Where(r))))
  {
    if r.Cidr? {
      BareTestTests(e, r.pos, Eq, p, env);
    } else if e.Net? {
      NetTestTests(e.net, SrcAddr, Eq, p, env);
    } else if r.V4Sources? {
      LoadsTheAddress(p, SrcAddr);
      AddressesAreValid(p);
      MaskCompareTests(Load(V4, SrcAddr), 4, NetMask(32, 0), Eq, e.addr.val, p, env);
      MaskClearsHostBits(p.Src().val, 32, 0);
      assert Pow2(0) == 1;
    } else {
      AddrTestTests(e.addr, SrcAddr, Eq, p, env);
    }
  }

  /** Every builder's match of an entry is membership of the address it looks at. */
  lemma MatchOfTests(r: Reader, e: Entry, p: Packet, env: Env)
    ensures MatchOf(r, e).Some? <==> Reads(r, e)
    ensures Reads(r, e) ==> Tests(MatchOf(r, e).value, p, env, e.Covers(At(p, Where(r))))
  {
    if Reads(r, e) {
      var f := FamilyOf(e);
      FamilyTests(f, p, env);
      if p.fam == f {
        AddressTestTests(r, e, p, env);
      }
      TestsBoth(FamilyIs(f), p.fam == f, AddressTest(r, e), e.Covers(At(p, Where(r))), p, env);
    }
  }

  /** Some entry this builder reads covers the address it looks at. */
  predicate Listed(r: Reader, es: seq<Entry>, p: Packet) {
    exists i :: 0 <= i < |es| && Reads(r, es[i]) && es[i].Covers(At(p, Where(r)))
  }

  // ---- ports ----

  function PortBytes(n: int): nat { if 1 <= n <= 65535 then n else 0 }

  function PortIs(s: PortSpec): Rule {
    match s
    case Single(n) => Compare(Payload(Transport, 2, 2, 1), Eq, PortBytes(n))
    case Through(l, h) =>
      if s.Valid() then [Payload(Transport, 2, 2, 1), Cmp(Gte, 1, PortBytes(l)), Cmp(Lte, 1, PortBytes(h))]
      else Compare(Payload(Transport, 2, 2, 1), Eq, 0)
  }

  lemma PortTests(s: PortSpec, p: Packet, env: Env)
    requires s.Valid()
    ensures Tests(PortIs(s), p, env, ToPort(p, s))
  {
    var load := Payload(Transport, 2, 2, 1);
    match s
    case Single(n) => CompareTests(load, Eq, n, p, env);
    case Through(l, h) =>
      var m := PortIs(s);
      assert m == Compare(load, Gte, l) + [Cmp(Lte, 1, h)];
      forall regs ensures Run(m, regs, p, env) == if ToPort(p, s) then Next(Left(m, regs, p, env)) else Stop {
        RangeLeaves(l, h, regs, p, env);
      }
  }

  lemma RangeLeaves(l: nat, h: nat, regs: Regs, p: Packet, env: Env)
    ensures var x := Field(p, 2, 2);
            Run(Compare(Payload(Transport, 2, 2, 1), Gte, l) + [Cmp(Lte, 1, h)], regs, p, env)
            == if x.Some? && l <= x.value <= h then Next(regs[1 := x.value]) else Stop
  {
    var load, upper := Payload(Transport, 2, 2, 1), [Cmp(Lte, 1, h)];
    RunConcat(Compare(load, Gte, l), upper, regs, p, env);
    CompareLeaves(load, Gte, l, regs, p, env);
    var x := Field(p, 2, 2);
    if x.Some? {
      assert Run(upper, regs[1 := x.value], p, env) == if x.value <= h then Next(regs[1 := x.value]) else Stop;
    }
  }
}
