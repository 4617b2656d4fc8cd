/** What passing the static check means: no jump of a clean table can let a packet in. */
module CheckTheorems {
  import opened Addresses
  import opened Netfilter
  import opened RuleCheck

  /** No raw nft line: those are compiled by the nft command and never reach the check. */
  predicate NoRaw(es: Rule) { forall i :: 0 <= i < |es| ==> !es[i].Custom? }

  /** Hands the packet to somebody else: a redirect, or queue, stolen, repeat and stop, which the check lets pass. */
  predicate Sends(e: Expr) {
    e.Redir? || (e.Verdict? && e.kind.Other? && e.kind.code != CONTINUE && e.kind.code != BREAK)
  }

  predicate SendsNowhere(es: Rule) { forall i :: 0 <= i < |es| ==> !Sends(es[i]) }

  /** The rule stands in some chain a rule of the table jumps to. */
  ghost predicate BehindAJump(t: Table, es: Rule) {
    exists k :: 0 <= k < |t| && t[k].rule == es && Jumped(t, t[k].chain)
  }

  ghost predicate NoRawBehindJumps(t: Table) {
    forall k :: 0 <= k < |t| && Jumped(t, t[k].chain) ==> NoRaw(t[k].rule)
  }

  ghost predicate NobodySendsBehindJumps(t: Table) {
    forall k :: 0 <= k < |t| && Jumped(t, t[k].chain) ==> SendsNowhere(t[k].rule)
  }

  lemma {:induction false} DecidesByAVerdict(es: Rule, regs: Regs, p: Packet, env: Env)
    requires NoRaw(es)
    ensures var f := Run(es, regs, p, env);
            f.Decide? ==> exists i :: 0 <= i < |es| && if f.kind.Other? then Sends(es[i]) else es[i] == Verdict(f.kind)
  {
    if es != [] {
      var f := Exec(es[0], regs, p, env);
      if f.Next? {
        assert NoRaw(es[1..]);
        DecidesByAVerdict(es[1..], f.regs, p, env);
        var g := Run(es, regs, p, env);
        if g.Decide? {
          var i :| 0 <= i < |es[1..]| && if g.kind.Other? then Sends(es[1..][i]) else es[1..][i] == Verdict(g.kind);
          assert es[i + 1] == es[1..][i];
        }
      } else if f.Decide? {
        assert if f.kind.Other? then Sends(es[0]) else es[0] == Verdict(f.kind);
      }
    }
  }

  lemma {:induction false} SelectedFrom(t: Table, c: Chain, i: nat)
    requires i < |Select(t, c)|
    ensures exists k :: 0 <= k < |t| && t[k] == Placed(c, Select(t, c)[i])
  {
    if t != [] {
      var here := if t[0].chain == c then [t[0].rule] else [];
      if i < |here| {
        assert t[0] == Placed(c, Select(t, c)[i]);
      } else {
        SelectedFrom(t[1..], c, i - |here|);
        var k :| 0 <= k < |t[1..]| && t[1..][k] == Placed(c, Select(t[1..], c)[i - |here|]);
        assert t[k + 1] == Placed(c, Select(t, c)[i]);
      }
    }
  }

  lemma {:induction false} CreatedIsNotEmpty(t: Table, c: Chain)
    ensures Created(t, c) <==> Select(t, c) != []
  {
    if t != [] {
      CreatedIsNotEmpty(t[1..], c);
      if t[0].chain != c && Created(t, c) {
        var k :| 0 <= k < |t| && t[k].chain == c;
        assert t[1..][k - 1].chain == c;
      }
      if t[0].chain != c && Created(t[1..], c) {
        var k :| 0 <= k < |t[1..]| && t[1..][k].chain == c;
        assert t[k + 1].chain == c;
      }
    }
  }

  lemma CleanFacts(t: Table, k: nat)
    requires Clean(t, {}) && k < |t|
    ensures forall c :: JumpsTo(t[k].rule, c) ==> Created(t, c) && !AcceptsIn(t, c)
  {
    forall c | JumpsTo(t[k].rule, c) ensures Created(t, c) && !AcceptsIn(t, c) {
      var i :| 0 <= i < |t[k].rule| && TargetOf(t[k].rule[i]) == Some(c);
      assert !Created(t, c) ==> JumpsNowhere(t, t[k].rule);
      assert !IsFault(t, {}, Finding(t[k].chain, Index(t, k), MissingChain));
      assert Jumped(t, c);
      assert !IsFault(t, {}, Finding(c, NO_INDEX, AcceptingChain));
    }
  }

  /** A rule behind a jump, in a clean table: it cannot accept, and it jumps only to chains like its own. */
  lemma BehindAJumpIsTame(t: Table, es: Rule, p: Packet, env: Env)
    requires Clean(t, {}) && NoRawBehindJumps(t) && BehindAJump(t, es)
    ensures var f := Run(es, map[], p, env);
            f.Decide? ==> && !f.kind.Accept? && (f.kind.Other? ==> !NobodySendsBehindJumps(t))
                          && (f.kind.Jump? || f.kind.Goto? ==> Jumped(t, f.kind.to))
  {
    var k :| 0 <= k < |t| && t[k].rule == es && Jumped(t, t[k].chain);
    DecidesByAVerdict(es, map[], p, env);
    var f := Run(es, map[], p, env);
    if f.Decide? {
      var i :| 0 <= i < |es| && if f.kind.Other? then Sends(es[i]) else es[i] == Verdict(f.kind);
      if f.kind.Other? {
        assert !SendsNowhere(t[k].rule);
      }
      if f.kind.Accept? {
        assert Accepts(es) && AcceptsIn(t, t[k].chain);
        var j :| 0 <= j < |t| && JumpsTo(t[j].rule, t[k].chain);
        CleanFacts(t, j);
      }
      if f.kind.Jump? || f.kind.Goto? {
        assert TargetOf(es[i]) == Some(f.kind.to);
        assert JumpsTo(es, f.kind.to);
      }
    }
  }

  lemma SelectedIsBehind(t: Table, c: Chain)
    requires Jumped(t, c)
    ensures forall i :: 0 <= i < |Select(t, c)| ==> BehindAJump(t, Select(t, c)[i])
  {
    forall i | 0 <= i < |Select(t, c)| ensures BehindAJump(t, Select(t, c)[i]) {
      SelectedFrom(t, c, i);
    }
  }

  lemma {:induction false} BehindJumpsNothingAccepts(t: Table, rules: seq<Rule>, d: nat, p: Packet, env: Env)
    requires Clean(t, {}) && NoRawBehindJumps(t)
    requires forall i :: 0 <= i < |rules| ==> BehindAJump(t, rules[i])
    ensures var f := Walk(t, rules, d, p, env); !f.Accepted? && (f.Elsewhere? ==> !NobodySendsBehindJumps(t))
    decreases d, |rules|
  {
    if rules != [] {
      BehindAJumpIsTame(t, rules[0], p, env);
      BehindJumpsNothingAccepts(t, rules[1..], d, p, env);
      var f := Run(rules[0], map[], p, env);
      if f.Decide? && (f.kind.Jump? || f.kind.Goto?) && d > 0 {
        SelectedIsBehind(t, f.kind.to);
        BehindJumpsNothingAccepts(t, Select(t, f.kind.to), d - 1, p, env);
      }
    }
  }

  /** What a clean report buys: every jump in the table goes to a chain that has rules. */
  lemma CleanJumpsLand(t: Table, c: Chain)
    requires Clean(t, {}) && Jumped(t, c)
    ensures Select(t, c) != []
  {
    var k :| 0 <= k < |t| && JumpsTo(t[k].rule, c);
    CleanFacts(t, k);
    CreatedIsNotEmpty(t, c);
  }

  /**
   ... and whatever the packet and however deep the jump, that chain never lets it in. Unless somebody behind a
   jump sends packets elsewhere, it drops the packet or hands it back.
   */
  lemma CleanJumpsNeverAccept(t: Table, c: Chain, d: nat, p: Packet, env: Env)
    requires Clean(t, {}) && NoRawBehindJumps(t) && Jumped(t, c)
    ensures var f := Walk(t, Select(t, c), d, p, env);
            && !f.Accepted?
            && (NobodySendsBehindJumps(t) ==> f.Dropped? || f.Returned? || f.Fell?)
  {
    SelectedIsBehind(t, c);
    BehindJumpsNothingAccepts(t, Select(t, c), d, p, env);
  }

  /** The check lets it pass all the same: a chain of one queue, stolen, repeat or stop verdict, and a jump to it. */
  function Queueing(code: int): Table {
    [Placed(Input, [Verdict(Jump(PortScan))]), Placed(PortScan, [Verdict(Other(code))])]
  }

  lemma CleanButSendsElsewhere(code: int, d: nat, p: Packet, env: Env)
    requires Defined(code) && code != CONTINUE && code != BREAK
    ensures Clean(Queueing(code), {}) && Jumped(Queueing(code), PortScan)
    ensures Walk(Queueing(code), Select(Queueing(code), PortScan), d, p, env).Elsewhere?
  {
    var t := Queueing(code);
    assert t[0].rule[0] == Verdict(Jump(PortScan)) && TargetOf(t[0].rule[0]) == Some(PortScan);
    assert JumpsTo(t[0].rule, PortScan);
    QueueingIsClean(code);
    var tail := t[1..];
    assert tail[0] == Placed(PortScan, [Verdict(Other(code))]) && tail[1..] == [];
    assert Select(tail, PortScan) == [[Verdict(Other(code))]] + Select(tail[1..], PortScan);
    assert Select(t, PortScan) == [] + Select(tail, PortScan);
    assert Run([Verdict(Other(code))], map[], p, env) == Decide(Other(code));
  }

  lemma QueueingIsClean(code: int)
    requires Defined(code)
    ensures Clean(Queueing(code), {})
  {
    var t := Queueing(code);
    assert t[1].chain == PortScan && Created(t, PortScan);
    forall k | 0 <= k < |t| ensures !JumpsNowhere(t, t[k].rule) && !Accepts(t[k].rule) {
    }
    forall f ensures !IsFault(t, {}, f) {
    }
  }

  /** The last conntrack load into the register before position `i` loads the state. */
  ghost predicate LoadsState(es: Rule, i: nat, reg: nat)
    requires i <= |es|
  {
    exists j :: && 0 <= j < i && es[j] == Ct(CtState, reg)
                && forall k :: j < k < i ==> !(es[k].Ct? && es[k].reg == reg)
  }

  lemma {:induction false} NearestLoadCounts(es: Rule, i: nat, reg: nat)
    requires i <= |es|
    ensures PrecededByCtState(es, i, reg) <==> LoadsState(es, i, reg)
  {
    if i > 0 {
      var last := es[i - 1];
      if last.Ct? && last.reg == reg {
        if last.ctKey.CtState? {
          assert es[i - 1] == Ct(CtState, reg);
        }
      } else {
        NearestLoadCounts(es, i - 1, reg);
        if LoadsState(es, i - 1, reg) {
          var j :| && 0 <= j < i - 1 && es[j] == Ct(CtState, reg)
                   && forall k :: j < k < i - 1 ==> !(es[k].Ct? && es[k].reg == reg);
          assert forall k :: j < k < i ==> !(es[k].Ct? && es[k].reg == reg);
        }
      }
    }
  }

  /** A conntrack mask is four bytes wide and names only states there are; a verdict is one the kernel defines. */
  ghost predicate SoundExpr(es: Rule, i: nat)
    requires i < |es|
  {
    match es[i]
    case Bitwise(from, _, len, mask) => LoadsState(es, i, from) ==> len == 4 && 0 < mask < 16
    case Verdict(Other(code)) => code in {-2, -1, 2, 3, 4, 5}
    case _ => true
  }

  lemma SoundMeans(es: Rule, i: nat)
    requires i < |es|
    ensures SoundExpr(es, i) <==> FaultAt(es, i).None?
  {
    if es[i].Bitwise? {
      NearestLoadCounts(es, i, es[i].from);
    }
  }

  ghost predicate SoundRule(es: Rule) { forall i :: 0 <= i < |es| ==> SoundExpr(es, i) }

  lemma SoundRuleMeans(es: Rule)
    ensures SoundRule(es) <==> forall why :: !HasFault(es, why)
  {
    forall i | 0 <= i < |es| ensures SoundExpr(es, i) <==> FaultAt(es, i).None? {
      SoundMeans(es, i);
    }
    if !SoundRule(es) {
      var i :| 0 <= i < |es| && !SoundExpr(es, i);
      assert HasFault(es, FaultAt(es, i).value);
    }
  }

  /** The two verdicts that name a chain. */
  ghost predicate Leads(es: Rule, c: Chain) { Verdict(Jump(c)) in es || Verdict(Goto(c)) in es }

  lemma LeadsMeans(es: Rule, c: Chain)
    ensures Leads(es, c) <==> JumpsTo(es, c)
  {
    if JumpsTo(es, c) {
      var i :| 0 <= i < |es| && TargetOf(es[i]) == Some(c);
      assert es[i] in es;
    }
    if Leads(es, c) {
      var i :| 0 <= i < |es| && (es[i] == Verdict(Jump(c)) || es[i] == Verdict(Goto(c)));
      assert TargetOf(es[i]) == Some(c);
    }
  }

  /** Whatever a rule of the table leads to has rules, and none of them accepts. */
  ghost predicate TargetsAreSafe(t: Table) {
    forall k, c :: 0 <= k < |t| && Leads(t[k].rule, c) ==>
      Created(t, c) && NeverAccepts(t, c)
  }

  ghost predicate NeverAccepts(t: Table, c: Chain) {
    forall j :: 0 <= j < |t| && t[j].chain == c ==> Verdict(Accept) !in t[j].rule
  }

  /** What the check is: no findings exactly when every rule is sound and every target safe. */
  lemma CleanExactlyWhen(t: Table)
    ensures Clean(t, {}) <==> (forall k :: 0 <= k < |t| ==> SoundRule(t[k].rule)) && TargetsAreSafe(t)
  {
    if Clean(t, {}) {
      CleanIsSound(t);
      CleanIsSafe(t);
    } else {
      var f :| IsFault(t, {}, f);
      FaultsShow(t, f);
    }
  }

  lemma CleanIsSound(t: Table)
    requires Clean(t, {})
    ensures forall k :: 0 <= k < |t| ==> SoundRule(t[k].rule)
  {
    forall k | 0 <= k < |t| ensures SoundRule(t[k].rule) {
      SoundRuleMeans(t[k].rule);
      forall why ensures !HasFault(t[k].rule, why) {
        var f := Finding(t[k].chain, Index(t, k), why);
        assert !IsFault(t, {}, f);
        assert !FaultOf(t, k, f);
      }
    }
  }

  lemma CleanIsSafe(t: Table)
    requires Clean(t, {})
    ensures TargetsAreSafe(t)
  {
    forall k, c | 0 <= k < |t| && Leads(t[k].rule, c)
      ensures Created(t, c) && NeverAccepts(t, c)
    {
      LeadsMeans(t[k].rule, c);
      CleanFacts(t, k);
      forall j | 0 <= j < |t| && t[j].chain == c ensures Verdict(Accept) !in t[j].rule {
        AcceptMeans(t[j].rule);
      }
    }
  }

  lemma AcceptMeans(es: Rule)
    ensures Accepts(es) <==> Verdict(Accept) in es
  {
    if Verdict(Accept) in es {
      var i :| 0 <= i < |es| && es[i] == Verdict(Accept);
    }
  }

  lemma FaultsShow(t: Table, f: Finding)
    requires IsFault(t, {}, f)
    ensures !((forall k :: 0 <= k < |t| ==> SoundRule(t[k].rule)) && TargetsAreSafe(t))
  {
    if k :| 0 <= k < |t| && FaultOf(t, k, f) {
      SoundRuleMeans(t[k].rule);
    } else if f.reason.MissingChain? {
      var k :| 0 <= k < |t| && f.chain == t[k].chain && f.index == Index(t, k) && JumpsNowhere(t, t[k].rule);
      var i :| 0 <= i < |t[k].rule| && TargetOf(t[k].rule[i]).Some? && !Created(t, TargetOf(t[k].rule[i]).value);
      var c := TargetOf(t[k].rule[i]).value;
      assert JumpsTo(t[k].rule, c);
      LeadsMeans(t[k].rule, c);
    } else {
      var k :| 0 <= k < |t| && JumpsTo(t[k].rule, f.chain);
      var j :| 0 <= j < |t| && t[j].chain == f.chain && Accepts(t[j].rule);
      LeadsMeans(t[k].rule, f.chain);
      AcceptMeans(t[j].rule);
      assert Leads(t[k].rule, f.chain) && !NeverAccepts(t, f.chain);
    }
  }

  /** ... and every conntrack mask it reads can match: some state a packet can carry has one of its bits. */
  lemma CleanMasksMatch(t: Table, k: nat, i: nat)
    requires Clean(t, {}) && k < |t| && i < |t[k].rule| && t[k].rule[i].Bitwise?
    requires PrecededByCtState(t[k].rule, i, t[k].rule[i].from)
    ensures t[k].rule[i].len == 4 && 0 < t[k].rule[i].mask < 16
    ensures exists s :: (s == 1 || s == 2 || s == 4 || s == 8) && And(s, t[k].rule[i].mask) != 0
  {
    var es := t[k].rule;
    if FaultAt(es, i).Some? {
      assert HasFault(es, FaultAt(es, i).value);
      assert FaultOf(t, k, Finding(t[k].chain, Index(t, k), FaultAt(es, i).value));
      assert IsFault(t, {}, Finding(t[k].chain, Index(t, k), FaultAt(es, i).value));
    }
    var m := es[i].mask;
    AndUnfolds(1, m);
    AndUnfolds(2, m);
    AndUnfolds(1, m / 2);
    AndUnfolds(4, m);
    AndUnfolds(2, m / 2);
    AndUnfolds(1, m / 2 / 2);
    AndUnfolds(8, m);
    AndUnfolds(4, m / 2);
    AndUnfolds(2, m / 2 / 2);
    AndUnfolds(1, m / 2 / 2 / 2);
  }
}
