/** Prefixes as sorted, disjoint, non-adjacent address ranges: the canonical form of a feed. */
module Ranges {
  import opened Addresses

  /** An inclusive span of addresses of one family. */
  datatype Range = Range(fam: Family, lo: nat, hi: nat) {
    predicate Valid() { lo <= hi < Pow2(Width(fam)) }

    predicate Holds(a: Addr) { a.fam == fam && lo <= a.val <= hi }

    /** IPv4 sorts before IPv6. */
    predicate StartsBy(r: Range) { (fam.V4? && r.fam.V6?) || (fam == r.fam && lo <= r.lo) }

    /** All of this range lies before `r`, with at least one address between them or a change of family. */
    predicate Clear(r: Range) { (fam.V4? && r.fam.V6?) || (fam == r.fam && hi + 1 < r.lo) }
  }

  predicate AnyHolds(rs: seq<Range>, a: Addr) { exists i :: 0 <= i < |rs| && rs[i].Holds(a) }

  predicate AllValid(rs: seq<Range>) { forall i :: 0 <= i < |rs| ==> rs[i].Valid() }

  predicate SortedByStart(rs: seq<Range>) { forall i, j :: 0 <= i < j < |rs| ==> rs[i].StartsBy(rs[j]) }

  /** The only shape the kernel's interval set takes. */
  predicate Canonical(rs: seq<Range>) {
    AllValid(rs) && forall i, j :: 0 <= i < j < |rs| ==> rs[i].Clear(rs[j])
  }

  // ---- from prefixes ----

  function Masked(p: Prefix): Network
    requires p.Valid()
  {
    ClearLow(p.addr.val, Pow2(p.Host()));
    Prefix(Addr(p.addr.fam, p.addr.val - p.addr.val % Pow2(p.Host())), p.bits)
  }

  lemma MaskedIsNetwork(p: Prefix)
    requires p.Valid()
    ensures (p.addr.val - p.addr.val % Pow2(p.Host())) % Pow2(p.Host()) == 0
    ensures (p.addr.val - p.addr.val % Pow2(p.Host())) / Pow2(p.Host()) == p.addr.val / Pow2(p.Host())
  {
    ClearLow(p.addr.val, Pow2(p.Host()));
  }

  lemma ClearLow(v: nat, h: nat)
    requires h > 0
    ensures 0 <= v - v % h <= v && (v - v % h) % h == 0 && (v - v % h) / h == v / h
  {
    assert v == h * (v / h) + v % h;
    DivideUnique(v - v % h, h, v / h, 0);
  }

  /** The range of a prefix: its masked address to the last address in it. */
  function SpanOf(p: Prefix): Range
    requires p.Valid()
  {
    var n := Masked(p);
    Range(n.addr.fam, n.addr.val, n.addr.val + Pow2(n.Host()) - 1)
  }

  lemma SpanHolds(p: Prefix, a: Addr)
    requires p.Valid()
    ensures SpanOf(p).Holds(a) <==> p.Contains(a)
    ensures SpanOf(p).Valid()
  {
    MaskedContains(p, a);
    if a.fam == p.addr.fam {
      NetworkIsASpan(Masked(p), a.val);
    }
    SpanFits(Masked(p));
  }

  lemma MaskedContains(p: Prefix, a: Addr)
    requires p.Valid()
    ensures Masked(p).Contains(a) <==> p.Contains(a)
  {
    MaskedIsNetwork(p);
  }

  lemma SpanFits(n: Network)
    ensures n.addr.val + Pow2(n.Host()) <= Pow2(Width(n.addr.fam))
  {
    Pow2Splits(n.bits, n.Host());
    NextMultiple(n.addr.val, Pow2(n.Host()), Pow2(n.bits));
  }

  lemma NextMultiple(v: nat, h: nat, b: nat)
    requires h > 0 && v % h == 0 && v < b * h
    ensures v + h <= b * h
  {
    var q := v / h;
    assert v == h * q;
    if q < b {
      MulGap(h, q, b);
    } else if b < q {
      MulGap(h, b, q);
    }
  }

  /** Some stored prefix contains the address. */
  predicate AnyContains(ps: seq<Prefix>, a: Addr) {
    exists i :: 0 <= i < |ps| && ps[i].Valid() && ps[i].Contains(a)
  }

  /** The ranges of the valid prefixes, in order. */
  function Spans(ps: seq<Prefix>): seq<Range> {
    if ps == [] then []
    else
      var p := ps[|ps| - 1];
      Spans(ps[..|ps| - 1]) + if p.Valid() then [SpanOf(p)] else []
  }

  lemma HoldsConcat(x: seq<Range>, y: seq<Range>, a: Addr)
    ensures AnyHolds(x + y, a) == (AnyHolds(x, a) || AnyHolds(y, a))
  {
    if i :| 0 <= i < |x| && x[i].Holds(a) {
      assert (x + y)[i].Holds(a);
    }
    if i :| 0 <= i < |y| && y[i].Holds(a) {
      assert (x + y)[|x| + i].Holds(a);
    }
  }

  lemma {:induction false} SpansHold(ps: seq<Prefix>, a: Addr)
    ensures AnyHolds(Spans(ps), a) == AnyContains(ps, a)
    ensures AllValid(Spans(ps))
  {
    if ps != [] {
      var front, p := ps[..|ps| - 1], ps[|ps| - 1];
      SpansHold(front, a);
      assert AnyContains(ps, a) == (AnyContains(front, a) || (p.Valid() && p.Contains(a))) by {
        if i :| 0 <= i < |front| && front[i].Valid() && front[i].Contains(a) {
          assert ps[i] == front[i];
        }
        if i :| 0 <= i < |ps| && ps[i].Valid() && ps[i].Contains(a) {
          assert i == |ps| - 1 || front[i] == ps[i];
        }
      }
      if p.Valid() {
        SpanHolds(p, a);
        HoldsConcat(Spans(front), [SpanOf(p)], a);
        assert AnyHolds([SpanOf(p)], a) == SpanOf(p).Holds(a) by {
          assert [SpanOf(p)][0].Holds(a) == SpanOf(p).Holds(a);
        }
      } else {
        assert Spans(ps) == Spans(front);
      }
    }
  }

  // ---- sorting ----

  function Insert(rs: seq<Range>, r: Range): seq<Range> {
    if rs == [] || rs[|rs| - 1].StartsBy(r) then rs + [r]
    else Insert(rs[..|rs| - 1], r) + [rs[|rs| - 1]]
  }

  /** slices.SortFunc by the first address. */
  function Sort(rs: seq<Range>): seq<Range> {
    if rs == [] then [] else Insert(Sort(rs[..|rs| - 1]), rs[|rs| - 1])
  }

  lemma {:induction false} InsertKeeps(rs: seq<Range>, r: Range)
    ensures multiset(Insert(rs, r)) == multiset(rs) + multiset{r}
  {
    if rs == [] || rs[|rs| - 1].StartsBy(r) {
    } else {
      var front, last := rs[..|rs| - 1], rs[|rs| - 1];
      InsertKeeps(front, r);
      assert rs == front + [last];
      assert multiset(rs) == multiset(front) + multiset{last};
      assert multiset(Insert(front, r) + [last]) == multiset(Insert(front, r)) + multiset{last};
    }
  }

  lemma {:induction false} InsertSorts(rs: seq<Range>, r: Range)
    requires SortedByStart(rs)
    ensures SortedByStart(Insert(rs, r))
  {
    if rs == [] {
    } else if rs[|rs| - 1].StartsBy(r) {
      assert forall i :: 0 <= i < |rs| ==> rs[i].StartsBy(r);
    } else {
      var front, last := rs[..|rs| - 1], rs[|rs| - 1];
      var s := Insert(front, r);
      InsertSorts(front, r);
      InsertKeeps(front, r);
      forall i | 0 <= i < |s| ensures s[i].StartsBy(last) {
        assert s[i] in multiset(s);
        if s[i] != r {
          assert s[i] in multiset(front);
        }
      }
    }
  }

  lemma {:induction false} SortSorts(rs: seq<Range>)
    ensures SortedByStart(Sort(rs)) && multiset(Sort(rs)) == multiset(rs)
  {
    if rs != [] {
      SortSorts(rs[..|rs| - 1]);
      InsertKeeps(Sort(rs[..|rs| - 1]), rs[|rs| - 1]);
      InsertSorts(Sort(rs[..|rs| - 1]), rs[|rs| - 1]);
      assert rs == rs[..|rs| - 1] + [rs[|rs| - 1]];
    }
  }

  /** A rearrangement holds the same addresses. */
  lemma PermutationHolds(x: seq<Range>, y: seq<Range>, a: Addr)
    requires multiset(x) == multiset(y)
    ensures AnyHolds(x, a) == AnyHolds(y, a)
    ensures AllValid(x) ==> AllValid(y)
  {
    forall i | 0 <= i < |x| ensures x[i] in y {
      assert x[i] in multiset(x);
    }
    forall i | 0 <= i < |y| ensures y[i] in x {
      assert y[i] in multiset(y);
    }
  }

  // ---- merging ----

  /** `r` touches the last range written: it starts inside it, or at the very next address. */
  predicate Joins(last: Range, r: Range) {
    || (r.fam.V4? && last.fam.V6?)
    || (r.fam == last.fam && r.lo <= last.hi)
    || (r.fam == last.fam && r.lo == last.hi + 1 && last.hi + 1 < Pow2(Width(last.fam)))
  }

  function Widened(last: Range, r: Range): Range { if r.hi > last.hi then last.(hi := r.hi) else last }

  /** One step of the compaction. */
  function Absorb(out: seq<Range>, r: Range): seq<Range> {
    if out != [] && Joins(out[|out| - 1], r)
    then out[..|out| - 1] + [Widened(out[|out| - 1], r)]
    else out + [r]
  }

  function Merge(rs: seq<Range>): seq<Range> {
    if rs == [] then [] else Absorb(Merge(rs[..|rs| - 1]), rs[|rs| - 1])
  }

  predicate AllStartBy(rs: seq<Range>, x: Range) { forall i :: 0 <= i < |rs| ==> rs[i].StartsBy(x) }

  lemma AbsorbKeeps(out: seq<Range>, r: Range)
    requires Canonical(out) && r.Valid() && AllStartBy(out, r)
    ensures Canonical(Absorb(out, r))
    ensures forall a :: AnyHolds(Absorb(out, r), a) == (AnyHolds(out, a) || r.Holds(a))
    ensures forall x :: AllStartBy(out, x) && r.StartsBy(x) ==> AllStartBy(Absorb(out, r), x)
  {
    if out != [] && Joins(out[|out| - 1], r) {
      var front, last := out[..|out| - 1], out[|out| - 1];
      forall a ensures AnyHolds(front + [Widened(last, r)], a) == (AnyHolds(out, a) || r.Holds(a)) {
        assert out == front + [last];
        HoldsConcat(front, [last], a);
        HoldsConcat(front, [Widened(last, r)], a);
        OneHolds(last, a);
        OneHolds(Widened(last, r), a);
      }
    } else {
      forall a ensures AnyHolds(out + [r], a) == (AnyHolds(out, a) || r.Holds(a)) {
        HoldsConcat(out, [r], a);
        OneHolds(r, a);
      }
    }
  }

  lemma OneHolds(r: Range, a: Addr)
    ensures AnyHolds([r], a) == r.Holds(a)
  {
    assert [r][0] == r;
  }

  lemma {:induction false} MergeKeeps(rs: seq<Range>)
    requires AllValid(rs) && SortedByStart(rs)
    ensures Canonical(Merge(rs))
    ensures forall a :: AnyHolds(Merge(rs), a) == AnyHolds(rs, a)
    ensures forall x :: AllStartBy(rs, x) ==> AllStartBy(Merge(rs), x)
  {
    if rs != [] {
      var front, r := rs[..|rs| - 1], rs[|rs| - 1];
      MergeKeeps(front);
      assert AllStartBy(front, r);
      AbsorbKeeps(Merge(front), r);
      forall a ensures AnyHolds(Merge(rs), a) == AnyHolds(rs, a) {
        assert rs == front + [r];
        HoldsConcat(front, [r], a);
        OneHolds(r, a);
      }
      forall x | AllStartBy(rs, x) ensures AllStartBy(Merge(rs), x) {
        assert AllStartBy(front, x);
      }
    }
  }

  // ---- the canonical form ----

  /** What mergeRanges returns. */
  function Merged(ps: seq<Prefix>): seq<Range> { Merge(Sort(Spans(ps))) }

  /** Sorted, disjoint, non-adjacent, and exactly the union of the prefixes. */
  lemma MergedIsCanonical(ps: seq<Prefix>)
    ensures Canonical(Merged(ps))
    ensures forall a :: AnyHolds(Merged(ps), a) == AnyContains(ps, a)
  {
    var s := Spans(ps);
    SortSorts(s);
    forall a ensures AnyHolds(Sort(s), a) == AnyContains(ps, a) {
      SpansHold(ps, a);
      PermutationHolds(s, Sort(s), a);
    }
    SpansHold(ps, Addr(V4, 0));
    PermutationHolds(s, Sort(s), Addr(V4, 0));
    MergeKeeps(Sort(s));
  }

  /** The same addresses have only one canonical form. */
  lemma {:induction false} CanonicalIsUnique(x: seq<Range>, y: seq<Range>)
    requires Canonical(x) && Canonical(y)
    requires forall a :: AnyHolds(x, a) == AnyHolds(y, a)
    ensures x == y
    decreases |x|
  {
    if x == [] {
      NonemptyHolds(y);
    } else {
      NonemptyHolds(x);
      FirstIsTheSame(x, y);
      var xs, ys := x[1..], y[1..];
      forall a ensures AnyHolds(xs, a) == AnyHolds(ys, a) {
        TailHolds(x, a);
        TailHolds(y, a);
      }
      CanonicalIsUnique(xs, ys);
      assert x == [x[0]] + xs && y == [y[0]] + ys;
    }
  }

  lemma NonemptyHolds(x: seq<Range>)
    requires AllValid(x)
    ensures x != [] ==> AnyHolds(x, Addr(x[0].fam, x[0].lo))
  {
    if x != [] {
      assert x[0].Holds(Addr(x[0].fam, x[0].lo));
    }
  }

  /** What the rest of a canonical list holds is what the list holds outside its first range. */
  lemma TailHolds(x: seq<Range>, a: Addr)
    requires Canonical(x) && x != []
    ensures AnyHolds(x[1..], a) == (AnyHolds(x, a) && !x[0].Holds(a))
  {
    assert x == [x[0]] + x[1..];
    HoldsConcat([x[0]], x[1..], a);
    OneHolds(x[0], a);
    if i :| 0 <= i < |x[1..]| && x[1..][i].Holds(a) {
      assert x[0].Clear(x[i + 1]);
    }
  }

  lemma FirstIsTheSame(x: seq<Range>, y: seq<Range>)
    requires Canonical(x) && Canonical(y) && x != []
    requires forall a :: AnyHolds(x, a) == AnyHolds(y, a)
    ensures y != [] && x[0] == y[0]
  {
    NonemptyHolds(x);
    assert AnyHolds(y, Addr(x[0].fam, x[0].lo));
    NonemptyHolds(y);
    assert AnyHolds(x, Addr(y[0].fam, y[0].lo));
    SameStart(x, y);
    EndsNoLater(x, y);
    EndsNoLater(y, x);
  }

  /** The first range starts at the least address held, IPv4 before IPv6. */
  lemma FirstIsLeast(x: seq<Range>, a: Addr)
    requires Canonical(x) && AnyHolds(x, a)
    ensures x != [] && ((x[0].fam.V4? && a.fam.V6?) || (x[0].fam == a.fam && x[0].lo <= a.val))
  {
    var i :| 0 <= i < |x| && x[i].Holds(a);
    if i > 0 {
      assert x[0].Clear(x[i]);
    }
  }

  lemma SameStart(x: seq<Range>, y: seq<Range>)
    requires Canonical(x) && Canonical(y) && x != [] && y != []
    requires AnyHolds(y, Addr(x[0].fam, x[0].lo)) && AnyHolds(x, Addr(y[0].fam, y[0].lo))
    ensures x[0].fam == y[0].fam && x[0].lo == y[0].lo
  {
    FirstIsLeast(y, Addr(x[0].fam, x[0].lo));
    FirstIsLeast(x, Addr(y[0].fam, y[0].lo));
  }

  lemma GapAfterFirst(x: seq<Range>)
    requires Canonical(x) && x != []
    ensures !AnyHolds(x, Addr(x[0].fam, x[0].hi + 1))
  {
    forall i | 0 < i < |x| ensures !x[i].Holds(Addr(x[0].fam, x[0].hi + 1)) {
      assert x[0].Clear(x[i]);
    }
  }

  /** ... and ends where the first gap begins. */
  lemma EndsNoLater(x: seq<Range>, y: seq<Range>)
    requires Canonical(x) && Canonical(y) && x != [] && y != []
    requires x[0].fam == y[0].fam && x[0].lo == y[0].lo
    requires forall a :: AnyHolds(x, a) == AnyHolds(y, a)
    ensures y[0].hi <= x[0].hi
  {
    GapAfterFirst(x);
    var gap := Addr(x[0].fam, x[0].hi + 1);
    assert !AnyHolds(y, gap);
    assert !y[0].Holds(gap);
  }

  /** Equal sets give equal lists, however they were written down. */
  lemma EqualSetsMergeAlike(ps: seq<Prefix>, qs: seq<Prefix>)
    requires forall a :: AnyContains(ps, a) == AnyContains(qs, a)
    ensures Merged(ps) == Merged(qs)
  {
    MergedIsCanonical(ps);
    MergedIsCanonical(qs);
    CanonicalIsUnique(Merged(ps), Merged(qs));
  }

  lemma MergeOneMore(s: seq<Range>, i: nat)
    requires i < |s|
    ensures Merge(s[..i + 1]) == Absorb(Merge(s[..i]), s[i])
  {
    assert s[..i + 1][..i] == s[..i];
  }

  // ---- as the code runs: sorted, then compacted in the same array ----

  /** One range read at `i` and merged into the `n` written so far. */
  method CompactOne(rs: array<Range>, n: nat, i: nat) returns (m: nat)
    requires n <= i < rs.Length
    modifies rs
    ensures m <= i + 1 && rs[..m] == Absorb(old(rs[..n]), old(rs[i]))
    ensures rs[i + 1..] == old(rs[i + 1..])
  {
    var r := rs[i];
    if n > 0 && Joins(rs[n - 1], r) {
      rs[n - 1] := Widened(rs[n - 1], r);
      assert rs[..n - 1] == old(rs[..n])[..n - 1];
      return n;
    }
    rs[n] := r;
    assert rs[..n] == old(rs[..n]);
    return n + 1;
  }

  method Compact(rs: array<Range>) returns (n: nat)
    modifies rs
    ensures n <= rs.Length && rs[..n] == Merge(old(rs[..]))
  {
    ghost var s := rs[..];
    n := 0;
    for i := 0 to rs.Length
      invariant n <= i && rs[..n] == Merge(s[..i])
      invariant rs[i..] == s[i..]
    {
      MergeOneMore(s, i);
      assert rs[i] == rs[i..][0] == s[i];
      ghost var later := rs[i + 1..];
      assert later == rs[i..][1..];
      n := CompactOne(rs, n, i);
      assert rs[i + 1..] == later == s[i + 1..];
    }
    assert s[..rs.Length] == s;
  }
}
