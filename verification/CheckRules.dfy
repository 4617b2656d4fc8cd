/** The static check that runs over every built table, and what passing it means. */
module RuleCheck {
  import opened Addresses
  import opened Models
  import opened Netfilter

  datatype Reason = MaskWidth | MaskBits | UndefinedVerdict | MissingChain | AcceptingChain

  const NO_INDEX := -1

  datatype Finding = Finding(chain: Chain, index: int, reason: Reason)

  /** The mask at `i` works on a conntrack state: the nearest conntrack load into its register is one. */
  predicate PrecededByCtState(es: Rule, i: nat, reg: nat)
    requires i <= |es|
  {
    if i == 0 then false
    else if es[i - 1].Ct? && es[i - 1].reg == reg then es[i - 1].ctKey.CtState?
    else PrecededByCtState(es, i - 1, reg)
  }

  /** Continue, break, queue, stolen, repeat and stop; accept, drop, return, jump and goto have names here. */
  predicate Defined(code: int) { code == -1 || code == -2 || 2 <= code <= 5 }

  function FaultAt(es: Rule, i: nat): Option<Reason>
    requires i < |es|
  {
    match es[i]
    case Bitwise(from, _, len, mask) =>
      if !PrecededByCtState(es, i, from) then None
      else if len != 4 then Some(MaskWidth)
      else if mask == 0 || mask > 0x0f then Some(MaskBits)
      else None
    case Verdict(Other(code)) => if Defined(code) then None else Some(UndefinedVerdict)
    case _ => None
  }

  function TargetOf(e: Expr): Option<Chain> {
    match e
    case Verdict(Jump(c)) => Some(c)
    case Verdict(Goto(c)) => Some(c)
    case _ => None
  }

  predicate HasFault(es: Rule, why: Reason) { exists i :: 0 <= i < |es| && FaultAt(es, i) == Some(why) }
  predicate JumpsTo(es: Rule, c: Chain) { exists i :: 0 <= i < |es| && TargetOf(es[i]) == Some(c) }
  predicate Accepts(es: Rule) { exists i :: 0 <= i < |es| && es[i] == Verdict(Accept) }

  predicate Created(t: Table, c: Chain) { exists k :: 0 <= k < |t| && t[k].chain == c }
  predicate Jumped(t: Table, c: Chain) { exists k :: 0 <= k < |t| && JumpsTo(t[k].rule, c) }
  predicate AcceptsIn(t: Table, c: Chain) { exists k :: 0 <= k < |t| && t[k].chain == c && Accepts(t[k].rule) }

  /** The position of rule k within its own chain. */
  function Index(t: Table, k: nat): nat
    requires k < |t|
  {
    CountIn(t[..k], t[k].chain)
  }

  function CountIn(t: Table, c: Chain): nat {
    if t == [] then 0 else CountIn(t[..|t| - 1], c) + if t[|t| - 1].chain == c then 1 else 0
  }

  predicate FaultOf(t: Table, k: nat, f: Finding)
    requires k < |t|
  {
    f.chain == t[k].chain && f.index == Index(t, k) && HasFault(t[k].rule, f.reason)
  }

  /** Everything wrong with the table; `allowed` are the jumped-to chains that may accept. */
  ghost predicate IsFault(t: Table, allowed: set<Chain>, f: Finding) {
    || (exists k :: 0 <= k < |t| && FaultOf(t, k, f))
    || (f.reason.MissingChain? && exists k ::
          0 <= k < |t| && f.chain == t[k].chain && f.index == Index(t, k) && JumpsNowhere(t, t[k].rule))
    || (f.reason.AcceptingChain? && f.index == NO_INDEX
        && Jumped(t, f.chain) && AcceptsIn(t, f.chain) && f.chain !in allowed)
  }

  ghost predicate JumpsNowhere(t: Table, es: Rule) {
    exists i :: 0 <= i < |es| && TargetOf(es[i]).Some? && !Created(t, TargetOf(es[i]).value)
  }

  ghost predicate Clean(t: Table, allowed: set<Chain>) { forall f :: !IsFault(t, allowed, f) }

  // ---- the check itself ----

  datatype JumpSite = JumpSite(from: Chain, index: nat, to: Chain)

  /** One rule's expressions: its faults, where it jumps, whether it accepts. */
  method CheckRule(chain: Chain, index: nat, es: Rule)
    returns (findings: seq<Finding>, sites: seq<JumpSite>, accepts: bool)
    ensures forall f :: f in findings <==> f.chain == chain && f.index == index && HasFault(es, f.reason)
    ensures forall s :: s in sites <==> s.from == chain && s.index == index && JumpsTo(es, s.to)
    ensures accepts == Accepts(es)
  {
    findings, sites, accepts := [], [], false;
    for i := 0 to |es|
      invariant forall f :: f in findings <==>
                  f.chain == chain && f.index == index && exists j :: 0 <= j < i && FaultAt(es, j) == Some(f.reason)
      invariant forall s :: s in sites <==>
                  s.from == chain && s.index == index && exists j :: 0 <= j < i && TargetOf(es[j]) == Some(s.to)
      invariant accepts == exists j :: 0 <= j < i && es[j] == Verdict(Accept)
    {
      var fault, target := FaultAt(es, i), TargetOf(es[i]);
      if fault.Some? {
        findings := findings + [Finding(chain, index, fault.value)];
      }
      if target.Some? {
        sites := sites + [JumpSite(chain, index, target.value)];
      }
      if es[i] == Verdict(Accept) {
        accepts := true;
      }
    }
  }

  predicate SiteOf(t: Table, k: nat, s: JumpSite)
    requires k < |t|
  {
    s.from == t[k].chain && s.index == Index(t, k) && JumpsTo(t[k].rule, s.to)
  }

  /** The first pass: per-rule faults, and the chains created, accepting and jumped to. */
  method Collect(t: Table)
    returns (findings: seq<Finding>, created: set<Chain>, accepting: set<Chain>, sites: seq<JumpSite>)
    ensures forall c :: c in created <==> Created(t, c)
    ensures forall c :: c in accepting <==> AcceptsIn(t, c)
    ensures forall f :: f in findings <==> exists k :: 0 <= k < |t| && FaultOf(t, k, f)
    ensures forall s :: s in sites <==> exists k :: 0 <= k < |t| && SiteOf(t, k, s)
  {
    findings, created, accepting, sites := [], {}, {}, [];
    var perChain: map<Chain, nat> := map[];
    for k := 0 to |t|
      invariant forall c :: CountIn(t[..k], c) == if c in perChain then perChain[c] else 0
      invariant forall c :: c in created <==> exists j :: 0 <= j < k && t[j].chain == c
      invariant forall c :: c in accepting <==> exists j :: 0 <= j < k && t[j].chain == c && Accepts(t[j].rule)
      invariant forall f :: f in findings <==> exists j :: 0 <= j < k && FaultOf(t, j, f)
      invariant forall s :: s in sites <==> exists j :: 0 <= j < k && SiteOf(t, j, s)
    {
      var chain := t[k].chain;
      var index := if chain in perChain then perChain[chain] else 0;
      assert index == Index(t, k);
      perChain := perChain[chain := index + 1];
      assert t[..k + 1][..k] == t[..k];
      created := created + {chain};
      var more, jumps, accepts := CheckRule(chain, index, t[k].rule);
      assert forall f :: f in more <==> FaultOf(t, k, f);
      assert forall s :: s in jumps <==> SiteOf(t, k, s);
      findings, sites := findings + more, sites + jumps;
      if accepts {
        accepting := accepting + {chain};
      }
    }
  }

  /** Reports a fault exactly when there is one, each by its chain and position. */
  method CheckRules(t: Table, allowed: set<Chain>) returns (findings: seq<Finding>)
    ensures forall f :: f in findings <==> IsFault(t, allowed, f)
    ensures findings == [] <==> Clean(t, allowed)
  {
    var created, accepting, sites;
    findings, created, accepting, sites := Collect(t);
    ghost var first := findings;
    for i := 0 to |sites|
      invariant forall f :: f in findings <==> f in first || exists j :: 0 <= j < i && Reported(t, allowed, sites[j], f)
    {
      var s := sites[i];
      if s.to !in created {
        findings := findings + [Finding(s.from, s.index, MissingChain)];
      }
      var accepts := Finding(s.to, NO_INDEX, AcceptingChain);
      if s.to in accepting && s.to !in allowed && accepts !in findings {
        findings := findings + [accepts];
      }
    }
    SitesCover(t, allowed, sites);
    assert findings != [] ==> findings[0] in findings;
  }

  /** What one jump site contributes to the report. */
  ghost predicate Reported(t: Table, allowed: set<Chain>, s: JumpSite, f: Finding) {
    || (!Created(t, s.to) && f == Finding(s.from, s.index, MissingChain))
    || (AcceptsIn(t, s.to) && s.to !in allowed && f == Finding(s.to, NO_INDEX, AcceptingChain))
  }

  lemma SitesCover(t: Table, allowed: set<Chain>, sites: seq<JumpSite>)
    requires forall s :: s in sites <==> exists k :: 0 <= k < |t| && SiteOf(t, k, s)
    ensures forall f :: IsFault(t, allowed, f) <==>
              || (exists k :: 0 <= k < |t| && FaultOf(t, k, f))
              || (exists j :: 0 <= j < |sites| && Reported(t, allowed, sites[j], f))
  {
    forall f | IsFault(t, allowed, f) && !(exists k :: 0 <= k < |t| && FaultOf(t, k, f))
      ensures exists j :: 0 <= j < |sites| && Reported(t, allowed, sites[j], f)
    {
      if f.reason.MissingChain? {
        MissingIsReported(t, allowed, sites, f);
      } else {
        var k :| 0 <= k < |t| && JumpsTo(t[k].rule, f.chain);
        var s := JumpSite(t[k].chain, Index(t, k), f.chain);
        assert SiteOf(t, k, s) && s in sites;
      }
    }
    forall f, j | 0 <= j < |sites| && Reported(t, allowed, sites[j], f) ensures IsFault(t, allowed, f) {
      assert sites[j] in sites;
      var k :| 0 <= k < |t| && SiteOf(t, k, sites[j]);
      assert JumpsTo(t[k].rule, sites[j].to);
    }
  }

  lemma MissingIsReported(t: Table, allowed: set<Chain>, sites: seq<JumpSite>, f: Finding)
    requires forall s :: s in sites <==> exists k :: 0 <= k < |t| && SiteOf(t, k, s)
    requires f.reason.MissingChain?
    requires exists k :: 0 <= k < |t| && f.chain == t[k].chain && f.index == Index(t, k) && JumpsNowhere(t, t[k].rule)
    ensures exists j :: 0 <= j < |sites| && Reported(t, allowed, sites[j], f)
  {
    var k :| 0 <= k < |t| && f.chain == t[k].chain && f.index == Index(t, k) && JumpsNowhere(t, t[k].rule);
    var es := t[k].rule;
    var i :| 0 <= i < |es| && TargetOf(es[i]).Some? && !Created(t, TargetOf(es[i]).value);
    var s := JumpSite(t[k].chain, Index(t, k), TargetOf(es[i]).value);
    assert SiteOf(t, k, s) && s in sites;
  }
}
