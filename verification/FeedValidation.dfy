/** What the core lets into a feed: globally routable prefixes, none too broad. */
module FeedValidation {
  import opened Addresses
  import opened Models
  import opened Ranges

  // ---- global address space ----

  function NonGlobalV4(): (nets: seq<Network>)
    ensures forall i :: 0 <= i < |nets| ==> nets[i].addr.fam.V4?
  {
    [Leading(V4, 0, 8), Leading(V4, 10, 8), Leading(V4, 100 * 4 + 1, 10), Leading(V4, 127, 8),
     Leading(V4, 169 * 256 + 254, 16), Leading(V4, 172 * 16 + 1, 12), Leading(V4, 192 * 256 + 168, 16),
     Leading(V4, 7, 3)]
  }

  /** 2000::/3, global unicast, and 2001:db8::/32, the documentation range inside it. */
  function GlobalV6(): (net: Network)
    ensures net.addr.fam.V6? && net.bits == 3
  {
    Leading(V6, 1, 3)
  }

  function DocV6(): (net: Network)
    ensures net.addr.fam.V6? && net.bits == 32
  {
    Leading(V6, 0x20010db8, 32)
  }

  /** An address a packet from the internet can come from. */
  predicate GlobalAddr(nets: seq<Network>, a: Addr) {
    if a.fam.V4? then forall i :: 0 <= i < |nets| ==> !nets[i].Contains(a)
    else GlobalV6().Contains(a) && !DocV6().Contains(a)
  }

  /** netip.Prefix.Overlaps. */
  predicate Overlap(n: Network, p: Network) {
    n.addr.fam == p.addr.fam && if n.bits <= p.bits then n.Contains(p.addr) else p.Contains(n.addr)
  }

  lemma DivDiv(v: nat, a: nat, b: nat)
    requires a > 0 && b > 0
    ensures v / (a * b) == v / a / b
  {
    var q := v / a;
    var t, u, r := q / b, q % b, v % a;
    assert v == a * q + r;
    assert q == b * t + u;
    Regroup(a, b, t, u, r);
    MulGap(a, u, b);
    DivideUnique(v, a * b, t, a * u + r);
  }

  lemma Regroup(a: nat, b: nat, t: nat, u: nat, r: nat)
    ensures a * (b * t + u) + r == (a * b) * t + (a * u + r)
  {
  }

  /** Addresses that share a prefix share every shorter one. */
  lemma SharedPrefix(v: nat, w: nat, small: nat, big: nat)
    requires small <= big && v / Pow2(small) == w / Pow2(small)
    ensures v / Pow2(big) == w / Pow2(big)
  {
    Pow2Splits(small, big - small);
    DivDiv(v, Pow2(small), Pow2(big - small));
    DivDiv(w, Pow2(small), Pow2(big - small));
  }

  /** A narrower prefix's every address is in the broader one, or none is. */
  lemma NarrowerIsInside(n: Network, p: Network, a: Addr)
    requires n.addr.fam == p.addr.fam && n.bits <= p.bits && p.Contains(a)
    ensures n.Contains(a) <==> n.Contains(p.addr)
  {
    SharedPrefix(a.val, p.addr.val, p.Host(), n.Host());
  }

  lemma OverlapMeans(n: Network, p: Network)
    ensures Overlap(n, p) <==> exists a :: n.Contains(a) && p.Contains(a)
  {
    if Overlap(n, p) {
      assert n.Contains(n.addr) && p.Contains(p.addr);
      var a := if n.bits <= p.bits then p.addr else n.addr;
      assert n.Contains(a) && p.Contains(a);
    }
    if a :| n.Contains(a) && p.Contains(a) {
      if n.bits <= p.bits {
        NarrowerIsInside(n, p, a);
      } else {
        NarrowerIsInside(p, n, a);
      }
    }
  }

  predicate IsGlobal(nets: seq<Network>, p: Network) {
    if p.addr.fam.V6? then GlobalV6().bits <= p.bits && GlobalV6().Contains(p.addr) && !Overlap(DocV6(), p)
    else forall i :: 0 <= i < |nets| ==> !Overlap(nets[i], p)
  }

  predicate EntirelyNonGlobal(nets: seq<Network>, p: Network) {
    if p.addr.fam.V6? then !Overlap(GlobalV6(), p) || (DocV6().bits <= p.bits && DocV6().Contains(p.addr))
    else exists i :: 0 <= i < |nets| && nets[i].bits <= p.bits && nets[i].Contains(p.addr)
  }

  /** A prefix counts as global exactly when every address in it is. */
  lemma GlobalMeans(nets: seq<Network>, p: Network)
    ensures IsGlobal(nets, p) <==> forall a :: p.Contains(a) ==> GlobalAddr(nets, a)
  {
    if p.addr.fam.V4? {
      GlobalMeansV4(nets, p);
    } else {
      GlobalMeansV6(nets, p);
    }
  }

  lemma GlobalMeansV4(nets: seq<Network>, p: Network)
    requires p.addr.fam.V4?
    ensures IsGlobal(nets, p) <==> forall a :: p.Contains(a) ==> GlobalAddr(nets, a)
  {
    if IsGlobal(nets, p) {
      forall a | p.Contains(a) ensures GlobalAddr(nets, a) {
        forall i | 0 <= i < |nets| ensures !nets[i].Contains(a) {
          OverlapMeans(nets[i], p);
        }
      }
    } else {
      var i :| 0 <= i < |nets| && Overlap(nets[i], p);
      OverlapMeans(nets[i], p);
      var a :| nets[i].Contains(a) && p.Contains(a);
      assert !GlobalAddr(nets, a);
    }
  }

  lemma GlobalMeansV6(nets: seq<Network>, p: Network)
    requires p.addr.fam.V6?
    ensures IsGlobal(nets, p) <==> forall a :: p.Contains(a) ==> GlobalAddr(nets, a)
  {
    OverlapMeans(DocV6(), p);
    if IsGlobal(nets, p) {
      forall a | p.Contains(a) ensures GlobalAddr(nets, a) {
        NarrowerIsInside(GlobalV6(), p, a);
      }
    } else if Overlap(DocV6(), p) {
      var a :| DocV6().Contains(a) && p.Contains(a);
      assert !GlobalAddr(nets, a);
    } else {
      assert p.Contains(p.addr);
      if p.bits < 3 {
        TooBroadForGlobal(p);
      }
      assert !GlobalAddr(nets, p.addr);
    }
  }

  /** A masked prefix shorter than /3 starts outside 2000::/3: its third bit is zero. */
  lemma TooBroadForGlobal(p: Network)
    requires p.addr.fam.V6? && p.bits < 3
    ensures !GlobalV6().Contains(p.addr)
  {
    var h := Pow2(125);
    Pow2Splits(125, p.Host() - 125);
    Pow2Splits(1, p.Host() - 126);
    assert Pow2(1) == 2;
    assert Pow2(3) == 8;
    EvenQuotient(p.addr.val, h, Pow2(p.Host() - 126));
  }

  lemma EvenQuotient(v: nat, h: nat, m: nat)
    requires h > 0 && m > 0 && v % (h * (2 * m)) == 0
    ensures v / h % 2 == 0
  {
    var q := v / (h * (2 * m));
    assert v == h * (2 * m) * q;
    assert h * (2 * m) * q == h * (2 * (m * q));
    DivideUnique(v, h, 2 * (m * q), 0);
  }

  ghost predicate Inside(p: Network, n: Network) { forall a :: p.Contains(a) ==> n.Contains(a) }

  /** Every address of the prefix lies in one and the same non-global range; in IPv6, outside 2000::/3 counts as one. */
  ghost predicate WhollyOutside(nets: seq<Network>, p: Network) {
    if p.addr.fam.V6? then (forall a :: p.Contains(a) ==> !GlobalV6().Contains(a)) || Inside(p, DocV6())
    else exists i :: 0 <= i < |nets| && Inside(p, nets[i])
  }

  /** A prefix that reaches past the end of a narrower one holds an address outside it. */
  lemma TooBroadToFit(n: Network, p: Network)
    requires n.addr.fam == p.addr.fam && p.bits < n.bits && n.Contains(p.addr)
    ensures !Inside(p, n)
  {
    var step := Pow2(n.Host());
    var next := Addr(p.addr.fam, p.addr.val + step);
    Pow2Splits(n.Host(), p.Host() - n.Host());
    assert Pow2(p.Host() - n.Host()) >= 2;
    MulGap(step, 1, Pow2(p.Host() - n.Host()));
    NetworkIsASpan(p, next.val);
    NetworkIsASpan(n, next.val);
    NetworkIsASpan(n, p.addr.val);
    assert p.Contains(next) && !n.Contains(next);
  }

  lemma InsideMeans(n: Network, p: Network)
    ensures n.bits <= p.bits && n.Contains(p.addr) <==> Inside(p, n)
  {
    assert p.Contains(p.addr);
    if n.Contains(p.addr) {
      if n.bits <= p.bits {
        forall a | p.Contains(a) ensures n.Contains(a) {
          NarrowerIsInside(n, p, a);
        }
      } else {
        TooBroadToFit(n, p);
      }
    }
  }

  lemma EntirelyMeans(nets: seq<Network>, p: Network)
    ensures EntirelyNonGlobal(nets, p) <==> WhollyOutside(nets, p)
  {
    if p.addr.fam.V6? {
      InsideMeans(DocV6(), p);
      OverlapMeans(GlobalV6(), p);
    } else {
      forall i | 0 <= i < |nets| ensures nets[i].bits <= p.bits && nets[i].Contains(p.addr) <==> Inside(p, nets[i]) {
        InsideMeans(nets[i], p);
      }
    }
  }

  /** Dropping early drops nothing that could have been kept. */
  lemma EntirelyNonGlobalIsNotGlobal(nets: seq<Network>, p: Network)
    requires EntirelyNonGlobal(nets, p)
    ensures !IsGlobal(nets, p)
  {
    if p.addr.fam.V4? {
      var i :| 0 <= i < |nets| && nets[i].bits <= p.bits && nets[i].Contains(p.addr);
      assert Overlap(nets[i], p);
    }
  }

  // ---- one update's entries ----

  const MAX_ENTRIES: nat := 100000

  /** FeedMaxBits: the broadest prefix a feed may carry in each family. */
  function MaxBits(id: FeedId, f: Family): nat {
    if f.V6? then 16 else if id.CountryFeed? then 4 else 8
  }

  datatype Validated = Kept(kept: seq<Network>, dropped: nat) | TooMany | NotAPrefix(index: nat) | TooBroad(index: nat)

  predicate IsBroad(id: FeedId, p: Network) { p.bits < MaxBits(id, p.addr.fam) }

  /**
   An entry the whole update is refused over: no prefix, or not wholly outside global space and broader than /16 in
   IPv6, than /4 for a country, than /8 for a list.
   */
  ghost predicate Refuses(id: FeedId, nets: seq<Network>, e: Option<Network>) {
    || e.None?
    || (&& !WhollyOutside(nets, e.value)
        && e.value.bits < if e.value.addr.fam.V6? then 16 else if id.CountryFeed? then 4 else 8)
  }

  /** How many entries are not globally routable, and how many repeat an earlier one that was kept. */
  function CountDropped(nets: seq<Network>, es: seq<Option<Network>>): nat {
    if es == [] then 0
    else
      var e := es[|es| - 1];
      CountDropped(nets, es[..|es| - 1]) + if e.Some? && !IsGlobal(nets, e.value) then 1 else 0
  }

  function CountRepeats(nets: seq<Network>, es: seq<Option<Network>>): nat {
    if es == [] then 0
    else
      var e, front := es[|es| - 1], es[..|es| - 1];
      CountRepeats(nets, front) + if e.Some? && IsGlobal(nets, e.value) && e in front then 1 else 0
  }

  /** Address, then length. */
  predicate PrefixLeq(p: Network, q: Network) {
    || (p.addr.fam.V4? && q.addr.fam.V6?)
    || (p.addr.fam == q.addr.fam && (p.addr.val < q.addr.val || (p.addr.val == q.addr.val && p.bits <= q.bits)))
  }

  predicate InOrder(ps: seq<Network>) { forall i, j :: 0 <= i < j < |ps| ==> PrefixLeq(ps[i], ps[j]) }

  function InsertPrefix(ps: seq<Network>, p: Network): seq<Network> {
    if ps == [] || PrefixLeq(ps[|ps| - 1], p) then ps + [p]
    else InsertPrefix(ps[..|ps| - 1], p) + [ps[|ps| - 1]]
  }

  function SortPrefixes(ps: seq<Network>): seq<Network> {
    if ps == [] then [] else InsertPrefix(SortPrefixes(ps[..|ps| - 1]), ps[|ps| - 1])
  }

  lemma {:induction false} InsertPrefixKeeps(ps: seq<Network>, p: Network)
    ensures multiset(InsertPrefix(ps, p)) == multiset(ps) + multiset{p}
  {
    if ps == [] || PrefixLeq(ps[|ps| - 1], p) {
    } else {
      InsertPrefixKeeps(ps[..|ps| - 1], p);
      assert ps == ps[..|ps| - 1] + [ps[|ps| - 1]];
    }
  }

  lemma {:induction false} InsertPrefixSorts(ps: seq<Network>, p: Network)
    requires InOrder(ps)
    ensures InOrder(InsertPrefix(ps, p))
  {
    if ps == [] || PrefixLeq(ps[|ps| - 1], p) {
    } else {
      var front, last := ps[..|ps| - 1], ps[|ps| - 1];
      var s := InsertPrefix(front, p);
      InsertPrefixSorts(front, p);
      InsertPrefixKeeps(front, p);
      forall i | 0 <= i < |s| ensures PrefixLeq(s[i], last) {
        assert s[i] in multiset(s);
        if s[i] != p {
          assert s[i] in multiset(front);
        }
      }
    }
  }

  lemma {:induction false} SortPrefixesSorts(ps: seq<Network>)
    ensures InOrder(SortPrefixes(ps)) && multiset(SortPrefixes(ps)) == multiset(ps)
  {
    if ps != [] {
      SortPrefixesSorts(ps[..|ps| - 1]);
      InsertPrefixKeeps(SortPrefixes(ps[..|ps| - 1]), ps[|ps| - 1]);
      InsertPrefixSorts(SortPrefixes(ps[..|ps| - 1]), ps[|ps| - 1]);
      assert ps == ps[..|ps| - 1] + [ps[|ps| - 1]];
    }
  }

  lemma SortingKeepsMembers(ps: seq<Network>)
    ensures |SortPrefixes(ps)| == |ps| && forall p :: p in SortPrefixes(ps) <==> p in ps
  {
    SortPrefixesSorts(ps);
    assert |multiset(SortPrefixes(ps))| == |multiset(ps)|;
    forall p ensures p in SortPrefixes(ps) <==> p in ps {
      assert p in SortPrefixes(ps) <==> p in multiset(SortPrefixes(ps));
      assert p in ps <==> p in multiset(ps);
    }
  }

  datatype Judgement = Unparsed | Broad | Drop | Keep

  /** The order of the tests: a prefix wholly outside global space is dropped before its breadth is looked at. */
  function Judge(id: FeedId, nets: seq<Network>, e: Option<Network>): Judgement {
    if e.None? then Unparsed
    else if EntirelyNonGlobal(nets, e.value) then Drop
    else if IsBroad(id, e.value) then Broad
    else if !IsGlobal(nets, e.value) then Drop
    else Keep
  }

  lemma JudgeMeans(id: FeedId, nets: seq<Network>, e: Option<Network>)
    ensures var j := Judge(id, nets, e);
            && (j.Unparsed? <==> e.None?) && (Refuses(id, nets, e) <==> j.Unparsed? || j.Broad?)
            && (j.Keep? ==> IsGlobal(nets, e.value)) && (j.Drop? ==> !IsGlobal(nets, e.value))
  {
    if e.Some? {
      EntirelyMeans(nets, e.value);
      if EntirelyNonGlobal(nets, e.value) {
        EntirelyNonGlobalIsNotGlobal(nets, e.value);
      }
    }
  }

  // ---- the outcome of an update's entries ----

  function WithPrefix(kept: seq<Network>, p: Network): seq<Network> { if p in kept then kept else kept + [p] }

  /** One entry after those already sifted. */
  function SiftOne(v: Validated, j: Judgement, e: Option<Network>, at: nat): Validated {
    if !v.Kept? then v
    else if e.None? || j.Unparsed? then NotAPrefix(at)
    else if j.Broad? then TooBroad(at)
    else if j.Drop? then Kept(v.kept, v.dropped + 1)
    else Kept(WithPrefix(v.kept, e.value), v.dropped)
  }

  function Sifted(id: FeedId, nets: seq<Network>, es: seq<Option<Network>>): Validated {
    if es == [] then Kept([], 0)
    else
      var n, e := |es| - 1, es[|es| - 1];
      SiftOne(Sifted(id, nets, es[..n]), Judge(id, nets, e), e, n)
  }

  function Validation(id: FeedId, nets: seq<Network>, es: seq<Option<Network>>): Validated {
    if |es| > MAX_ENTRIES then TooMany
    else
      var v := Sifted(id, nets, es);
      if v.Kept? then Kept(SortPrefixes(v.kept), v.dropped) else v
  }

  /** Exactly the globally routable prefixes are kept, and every entry is kept, dropped, or a repeat. */
  ghost predicate Accounts(nets: seq<Network>, es: seq<Option<Network>>, kept: seq<Network>, dropped: nat) {
    && (forall p :: p in kept <==> Some(p) in es && IsGlobal(nets, p))
    && dropped == CountDropped(nets, es)
    && |kept| + dropped + CountRepeats(nets, es) == |es|
  }

  lemma DroppedStep(nets: seq<Network>, es: seq<Option<Network>>, kept: seq<Network>, dropped: nat, p: Network)
    requires Accounts(nets, es, kept, dropped) && !IsGlobal(nets, p)
    ensures Accounts(nets, es + [Some(p)], kept, dropped + 1)
  {
    assert (es + [Some(p)])[..|es|] == es;
  }

  lemma KeptStep(nets: seq<Network>, es: seq<Option<Network>>, kept: seq<Network>, dropped: nat, p: Network)
    requires Accounts(nets, es, kept, dropped) && IsGlobal(nets, p)
    ensures Accounts(nets, es + [Some(p)], if p in kept then kept else kept + [p], dropped)
  {
    assert (es + [Some(p)])[..|es|] == es;
  }

  lemma SortingAccounts(nets: seq<Network>, es: seq<Option<Network>>, kept: seq<Network>, dropped: nat)
    requires Accounts(nets, es, kept, dropped)
    ensures InOrder(SortPrefixes(kept)) && Accounts(nets, es, SortPrefixes(kept), dropped)
  {
    SortPrefixesSorts(kept);
    SortingKeepsMembers(kept);
  }

  /** The refusals, each over the first entry that deserves one. */
  ghost predicate RefusedAt(id: FeedId, nets: seq<Network>, es: seq<Option<Network>>, i: nat) {
    i < |es| && Refuses(id, nets, es[i]) && forall j :: 0 <= j < i ==> !Refuses(id, nets, es[j])
  }

  /** What an outcome says about the entries. */
  ghost predicate Describes(id: FeedId, nets: seq<Network>, es: seq<Option<Network>>, v: Validated) {
    match v
    case TooMany => false
    case NotAPrefix(i) => RefusedAt(id, nets, es, i) && es[i].None?
    case TooBroad(i) => RefusedAt(id, nets, es, i) && es[i].Some?
    case Kept(kept, dropped) => NoneRefused(id, nets, es) && Accounts(nets, es, kept, dropped)
  }

  ghost predicate NoneRefused(id: FeedId, nets: seq<Network>, es: seq<Option<Network>>) {
    forall j :: 0 <= j < |es| ==> !Refuses(id, nets, es[j])
  }

  lemma DescribesOne(id: FeedId, nets: seq<Network>, es: seq<Option<Network>>, v: Validated, e: Option<Network>)
    requires Describes(id, nets, es, v)
    ensures Describes(id, nets, es + [e], SiftOne(v, Judge(id, nets, e), e, |es|))
  {
    JudgeMeans(id, nets, e);
    if v.Kept? && e.Some? && Judge(id, nets, e).Drop? {
      DroppedStep(nets, es, v.kept, v.dropped, e.value);
    } else if v.Kept? && e.Some? && Judge(id, nets, e).Keep? {
      KeptStep(nets, es, v.kept, v.dropped, e.value);
    }
  }

  lemma {:induction false} SiftedMeans(id: FeedId, nets: seq<Network>, es: seq<Option<Network>>)
    ensures Describes(id, nets, es, Sifted(id, nets, es))
  {
    if es != [] {
      var n := |es| - 1;
      SiftedMeans(id, nets, es[..n]);
      DescribesOne(id, nets, es[..n], Sifted(id, nets, es[..n]), es[n]);
      assert es[..n] + [es[n]] == es;
    }
  }

  /** The first refusal is final. */
  lemma {:induction false} RefusalSticks(id: FeedId, nets: seq<Network>, es: seq<Option<Network>>, k: nat)
    requires k <= |es| && !Sifted(id, nets, es[..k]).Kept?
    ensures Sifted(id, nets, es) == Sifted(id, nets, es[..k])
    decreases |es|
  {
    if k == |es| {
      assert es[..k] == es;
    } else {
      var front := es[..|es| - 1];
      assert front[..k] == es[..k];
      RefusalSticks(id, nets, front, k);
    }
  }

  /**
   An update is refused over the first entry that is no prefix or too broad; otherwise exactly the globally
   routable prefixes are kept, once each and in order, and every entry is accounted for.
   */
  lemma ValidationMeans(id: FeedId, nets: seq<Network>, es: seq<Option<Network>>)
    ensures var v := Validation(id, nets, es);
            && (v.TooMany? <==> |es| > 100000)
            && (!v.TooMany? ==> Describes(id, nets, es, v))
            && (v.Kept? ==> InOrder(v.kept) && forall p :: p in v.kept ==> IsGlobal(nets, p))
  {
    SiftedMeans(id, nets, es);
    var v := Sifted(id, nets, es);
    if v.Kept? {
      SortingAccounts(nets, es, v.kept, v.dropped);
    }
  }

  /** The loop's body: one entry refused over, dropped, kept, or seen before. */
  method SiftEntry(id: FeedId, nets: seq<Network>, ghost seen: seq<Option<Network>>, kept: seq<Network>, dropped: nat,
                   e: Option<Network>, at: nat) returns (v: Validated)
    requires Sifted(id, nets, seen) == Kept(kept, dropped) && at == |seen|
    ensures v == Sifted(id, nets, seen + [e])
  {
    assert (seen + [e])[..at] == seen;
    if e.None? {
      return NotAPrefix(at);
    }
    var judged := Judge(id, nets, e);
    if judged.Broad? {
      return TooBroad(at);
    }
    if judged.Drop? {
      return Kept(kept, dropped + 1);
    }
    return Kept(if e.value in kept then kept else kept + [e.value], dropped);
  }

  /** validateFeedEntries. */
  method ValidateFeedEntries(id: FeedId, nets: seq<Network>, es: seq<Option<Network>>) returns (v: Validated)
    ensures v == Validation(id, nets, es)
    ensures v.TooMany? <==> |es| > 100000
    ensures !v.TooMany? ==> Describes(id, nets, es, v)
    ensures v.Kept? ==> InOrder(v.kept)
  {
    ValidationMeans(id, nets, es);
    if |es| > MAX_ENTRIES {
      return TooMany;
    }
    v := Kept([], 0);
    for i := 0 to |es|
      invariant v.Kept? && v == Sifted(id, nets, es[..i])
    {
      v := SiftEntry(id, nets, es[..i], v.kept, v.dropped, es[i], i);
      assert es[..i + 1] == es[..i] + [es[i]];
      if !v.Kept? {
        RefusalSticks(id, nets, es, i + 1);
        return;
      }
    }
    assert es[..|es|] == es;
    v := Kept(SortPrefixes(v.kept), v.dropped);
  }

  /** So no stored prefix holds an address that could not have come from the internet. */
  lemma KeptIsGlobal(nets: seq<Network>, kept: seq<Network>, a: Addr)
    requires (forall p :: p in kept ==> IsGlobal(nets, p)) && AnyContains(kept, a)
    ensures GlobalAddr(nets, a)
  {
    var i :| 0 <= i < |kept| && kept[i].Valid() && kept[i].Contains(a);
    assert kept[i] in kept;
    GlobalMeans(nets, kept[i]);
  }
}
