/** A feed's ranges as the kernel's interval sets, and the index the core searches them with. */
module FeedSets {
  import opened Addresses
  import opened Ranges
  import opened LastAddress

  /** mergeRanges: the prefixes' spans, sorted, then compacted in place. */
  method MergeRanges(ps: seq<Prefix>) returns (out: seq<Range>)
    ensures out == Merged(ps)
    ensures Canonical(out) && forall a :: AnyHolds(out, a) == AnyContains(ps, a)
  {
    var rs: seq<Range> := [];
    for i := 0 to |ps|
      invariant rs == Spans(ps[..i])
    {
      assert ps[..i + 1][..i] == ps[..i];
      if ps[i].Valid() {
        var last := LastAddr(ps[i]);
        rs := rs + [Range(last.fam, Masked(ps[i]).addr.val, last.val)];
      }
    }
    assert ps[..|ps|] == ps;
    var sorted := Sort(rs);
    var slice := new Range[|sorted|](i requires 0 <= i < |sorted| => sorted[i]);
    assert slice[..] == sorted;
    var n := Compact(slice);
    out := slice[..n];
    MergedIsCanonical(ps);
  }

  // ---- one family at a time ----

  predicate OfFamily(rs: seq<Range>, f: Family) { forall i :: 0 <= i < |rs| ==> rs[i].fam == f }

  /** Where the IPv6 ranges begin, by binary search. */
  method SplitFamilies(rs: seq<Range>) returns (v4: seq<Range>, v6: seq<Range>)
    requires Canonical(rs)
    ensures v4 + v6 == rs && OfFamily(v4, V4) && OfFamily(v6, V6)
    ensures Canonical(v4) && Canonical(v6)
  {
    var lo, hi := 0, |rs|;
    while lo < hi
      invariant 0 <= lo <= hi <= |rs|
      invariant forall i :: 0 <= i < lo ==> rs[i].fam.V4?
      invariant forall i :: hi <= i < |rs| ==> rs[i].fam.V6?
    {
      var mid := (lo + hi) / 2;
      if rs[mid].fam.V4? {
        assert forall i :: 0 <= i < mid ==> rs[i].Clear(rs[mid]);
        lo := mid + 1;
      } else {
        assert forall i :: mid < i < |rs| ==> rs[mid].Clear(rs[i]);
        hi := mid;
      }
    }
    v4, v6 := rs[..lo], rs[lo..];
  }

  // ---- interval elements ----

  /** A key, and whether the interval ends just before it. */
  datatype Element = Element(key: nat, intervalEnd: bool)

  function ElementsOf(r: Range): seq<Element> {
    [Element(r.lo, false)] + if r.hi + 1 < Pow2(Width(r.fam)) then [Element(r.hi + 1, true)] else []
  }

  function RangeElements(rs: seq<Range>): seq<Element> {
    if rs == [] then [] else RangeElements(rs[..|rs| - 1]) + ElementsOf(rs[|rs| - 1])
  }

  /** How the kernel reads its set: a value is in it when the last element at or below it starts an interval. */
  predicate InSet(es: seq<Element>, v: nat) {
    exists i :: 0 <= i < |es| && !es[i].intervalEnd && es[i].key <= v && (i + 1 < |es| ==> v < es[i + 1].key)
  }

  /** Elements are sent in order and no key twice, which is what the kernel insists on. */
  predicate Increasing(es: seq<Element>) { forall i, j :: 0 <= i < j < |es| ==> es[i].key < es[j].key }

  /** Every key so far lies within the last range, or just after it. */
  predicate Below(es: seq<Element>, bound: nat) { forall i :: 0 <= i < |es| ==> es[i].key < bound }

  /**
   The elements of one family's ranges rise strictly and hold exactly the ranges' addresses. The last one ends an
   interval, unless that interval is open to the top of the family.
   */
  lemma {:induction false} ElementsMean(rs: seq<Range>, f: Family)
    requires Canonical(rs) && OfFamily(rs, f)
    ensures var es := RangeElements(rs);
            && Increasing(es)
            && (forall v: nat :: v < Pow2(Width(f)) ==> (InSet(es, v) <==> AnyHolds(rs, Addr(f, v))))
            && (rs == [] <==> es == [])
            && (rs != [] ==> Below(es, rs[|rs| - 1].hi + 2)
                             && (rs[|rs| - 1].hi + 1 < Pow2(Width(f)) ==>
                                   es[|es| - 1] == Element(rs[|rs| - 1].hi + 1, true)))
  {
    if rs != [] {
      var front, r := rs[..|rs| - 1], rs[|rs| - 1];
      ElementsMean(front, f);
      if front != [] {
        assert front[|front| - 1].Clear(r);
      }
      var es := RangeElements(front);
      assert Below(es, r.lo);
      OneMoreIncreases(es, r);
      forall v: nat | v < Pow2(Width(f)) ensures InSet(RangeElements(rs), v) <==> AnyHolds(rs, Addr(f, v)) {
        assert rs == front + [r];
        HoldsConcat(front, [r], Addr(f, v));
        OneHolds(r, Addr(f, v));
        OneMore(es, r, v);
      }
    }
  }

  lemma OneMoreIncreases(es: seq<Element>, r: Range)
    requires Increasing(es) && Below(es, r.lo) && r.Valid()
    ensures Increasing(es + ElementsOf(r)) && Below(es + ElementsOf(r), r.hi + 2)
  {
  }

  /** Adding one range beyond all others adds exactly its addresses. */
  lemma OneMore(es: seq<Element>, r: Range, v: nat)
    requires Below(es, r.lo) && r.Valid() && v < Pow2(Width(r.fam))
    requires es != [] ==> es[|es| - 1].intervalEnd
    ensures InSet(es + ElementsOf(r), v) <==> InSet(es, v) || r.lo <= v <= r.hi
  {
    var more := es + ElementsOf(r);
    assert more[|es|] == Element(r.lo, false);
    if i :| 0 <= i < |es| && !es[i].intervalEnd && es[i].key <= v && (i + 1 < |es| ==> v < es[i + 1].key) {
      assert more[i] == es[i] && more[i + 1] == es[i + 1];
    }
    if i :| 0 <= i < |more| && !more[i].intervalEnd && more[i].key <= v && (i + 1 < |more| ==> v < more[i + 1].key) {
      if i < |es| {
        assert more[i] == es[i] && more[i + 1] == es[i + 1];
      }
    }
    if r.lo <= v <= r.hi {
      assert |es| + 1 < |more| ==> more[|es| + 1] == Element(r.hi + 1, true);
      assert more[|es|].key <= v;
    }
  }

  // ---- chunks ----

  const MAX_LIST_BYTES: nat := 0xffff - 4
  const RANGE_BYTES_V4: nat := 40
  const RANGE_BYTES_V6: nat := 64

  function RangeBytes(f: Family): nat { if f.V4? then RANGE_BYTES_V4 else RANGE_BYTES_V6 }

  function PerChunk(f: Family): nat { MAX_LIST_BYTES / RangeBytes(f) }

  /** feedElementBytes: the send buffer is sized from this, with a margin for every call's headers. */
  function ElementBytes(v4: nat, v6: nat): nat {
    var calls := v4 / PerChunk(V4) + v6 / PerChunk(V6) + 2;
    v4 * RANGE_BYTES_V4 + v6 * RANGE_BYTES_V6 + calls * 256
  }

  /** One SetAddElements call. */
  datatype Call = Call(ranges: seq<Range>, elements: seq<Element>)

  function Sent(calls: seq<Call>): seq<Element> {
    if calls == [] then [] else Sent(calls[..|calls| - 1]) + calls[|calls| - 1].elements
  }

  predicate Fits(c: Call, f: Family) {
    c.elements == RangeElements(c.ranges) && |c.ranges| * (if f.V4? then 40 else 64) <= 65531
  }

  lemma {:induction false} ElementsSplit(rs: seq<Range>, k: nat)
    requires k <= |rs|
    ensures RangeElements(rs) == RangeElements(rs[..k]) + RangeElements(rs[k..])
    decreases |rs| - k
  {
    if k == |rs| {
      assert rs[..k] == rs && rs[k..] == [];
    } else {
      var front := rs[..|rs| - 1];
      ElementsSplit(front, k);
      assert front[..k] == rs[..k] && rs[k..][..|rs[k..]| - 1] == front[k..];
    }
  }

  lemma CallFits(c: Call, f: Family)
    requires c.elements == RangeElements(c.ranges) && |c.ranges| <= PerChunk(f)
    ensures Fits(c, f)
  {
  }

  /** How many calls n ranges take at `per` ranges a call. */
  function CallsFor(n: nat, per: nat): nat
    requires per > 0
  {
    if n == 0 then 0 else 1 + CallsFor(if per < n then n - per else 0, per)
  }

  lemma CallsForStep(n: nat, per: nat, taken: nat)
    requires per > 0 && n > 0 && taken == if per < n then per else n
    ensures CallsFor(n, per) == 1 + CallsFor(n - taken, per)
  {
  }

  lemma {:induction false} CallsForBound(n: nat, per: nat)
    requires per > 0
    ensures CallsFor(n, per) <= n / per + 1
  {
    if per < n {
      CallsForBound(n - per, per);
      assert n == per * (n / per) + n % per;
      assert n - per == per * (n / per - 1) + n % per;
      DivideUnique(n - per, per, n / per - 1, n % per);
    } else if n > 0 {
      assert CallsFor(0, per) == 0;
    }
  }

  /**
   addFeedElements: the elements in calls that each fit one netlink attribute. Together the calls carry all
   the elements in order and nothing else, and there are no more of them than feedElementBytes budgets for.
   */
  method AddFeedElements(rs: seq<Range>, f: Family) returns (calls: seq<Call>)
    ensures Sent(calls) == RangeElements(rs)
    ensures forall i :: 0 <= i < |calls| ==> Fits(calls[i], f)
    ensures |calls| <= |rs| / (if f.V4? then 1638 else 1023) + 1
  {
    var at := 0;
    calls := [];
    while at < |rs|
      invariant 0 <= at <= |rs|
      invariant Sent(calls) == RangeElements(rs[..at])
      invariant forall i :: 0 <= i < |calls| ==> Fits(calls[i], f)
      invariant |calls| + CallsLeft(|rs| - at, f) == CallsLeft(|rs|, f)
    {
      var n, call := NextChunk(rs, at, f);
      SentOneMore(calls, call);
      calls := calls + [call];
      at := at + n;
    }
    assert rs[..|rs|] == rs;
    CallsInAll(|rs|, f);
  }

  function CallsLeft(n: nat, f: Family): nat { CallsFor(n, PerChunk(f)) }

  lemma CallsInAll(n: nat, f: Family)
    ensures CallsLeft(n, f) <= n / (if f.V4? then 1638 else 1023) + 1 && CallsLeft(0, f) == 0
  {
    CallsForBound(n, PerChunk(f));
  }

  method NextChunk(rs: seq<Range>, at: nat, f: Family) returns (n: nat, call: Call)
    requires at < |rs|
    ensures 0 < n && at + n <= |rs| && Fits(call, f)
    ensures RangeElements(rs[..at + n]) == RangeElements(rs[..at]) + call.elements
    ensures CallsLeft(|rs| - at, f) == 1 + CallsLeft(|rs| - at - n, f)
  {
    var per := PerChunk(f);
    n := if per < |rs| - at then per else |rs| - at;
    call := Call(rs[at..at + n], RangeElements(rs[at..at + n]));
    ElementsUpTo(rs, at, n);
    CallFits(call, f);
    CallsForStep(|rs| - at, per, n);
  }

  lemma SentOneMore(calls: seq<Call>, call: Call)
    ensures Sent(calls + [call]) == Sent(calls) + call.elements
  {
    assert (calls + [call])[..|calls|] == calls;
  }

  lemma ElementsUpTo(rs: seq<Range>, at: nat, n: nat)
    requires at + n <= |rs|
    ensures RangeElements(rs[..at + n]) == RangeElements(rs[..at]) + RangeElements(rs[at..at + n])
  {
    ElementsSplit(rs[..at + n], at);
    assert rs[..at + n][..at] == rs[..at] && rs[..at + n][at..] == rs[at..at + n];
  }

  /** Both families' calls stay within the budget. */
  lemma BudgetCovers(v4: nat, v6: nat, calls4: nat, calls6: nat)
    requires calls4 <= v4 / 1638 + 1 && calls6 <= v6 / 1023 + 1
    ensures v4 * 40 + v6 * 64 + 256 * (calls4 + calls6) <= ElementBytes(v4, v6)
  {
  }

  // ---- the index ----

  predicate Overlaps(r: Range, q: Range) { r.fam == q.fam && r.lo <= q.hi && q.lo <= r.hi }

  /** Binary search over sorted, disjoint ranges: the first that does not end before `q` is the only candidate. */
  method OverlapsAny(rs: seq<Range>, q: Range) returns (hit: bool)
    requires Canonical(rs) && q.Valid() && OfFamily(rs, q.fam)
    ensures hit == exists i :: 0 <= i < |rs| && Overlaps(rs[i], q)
  {
    var lo, hi := 0, |rs|;
    while lo < hi
      invariant 0 <= lo <= hi <= |rs|
      invariant forall i :: 0 <= i < lo ==> rs[i].hi < q.lo
      invariant forall i :: hi <= i < |rs| ==> rs[i].hi >= q.lo
    {
      var mid := (lo + hi) / 2;
      if rs[mid].hi >= q.lo {
        assert forall i :: mid < i < |rs| ==> rs[mid].Clear(rs[i]);
        hi := mid;
      } else {
        assert forall i :: 0 <= i < mid ==> rs[i].Clear(rs[mid]);
        lo := mid + 1;
      }
    }
    hit := lo < |rs| && rs[lo].lo <= q.hi;
    if hit {
      assert Overlaps(rs[lo], q);
    } else {
      assert forall i :: lo < i < |rs| ==> rs[lo].Clear(rs[i]);
    }
  }
}
