/** The core's own copy of every feed: a file, and a parsed cache of it. */
module FeedStores {
  import opened Addresses
  import opened Models
  import opened Ranges
  import opened FeedSets

  /** One record of feeds.json. */
  datatype StoredFeed = StoredFeed(prefixes: seq<Network>, entries: nat, dropped: nat, changedAt: int, checkedAt: int)

  /** A record with its prefixes merged, so that nobody merges them twice. */
  datatype CachedFeed = CachedFeed(rec: StoredFeed, ranges4: seq<Range>, ranges6: seq<Range>)

  predicate SameButChecked(a: StoredFeed, b: StoredFeed) { a == b.(checkedAt := a.checkedAt) }

  predicate Indexed(c: CachedFeed) {
    && c.ranges4 + c.ranges6 == Merged(c.rec.prefixes)
    && OfFamily(c.ranges4, V4) && OfFamily(c.ranges6, V6) && Canonical(c.ranges4) && Canonical(c.ranges6)
  }

  method NewCachedFeed(rec: StoredFeed) returns (c: CachedFeed)
    ensures c.rec == rec && Indexed(c)
  {
    var merged := MergeRanges(rec.prefixes);
    var v4, v6 := SplitFamilies(merged);
    c := CachedFeed(rec, v4, v6);
  }

  /** Put's effect: the new copy in, every copy nobody keeps out. */
  function PutIn(m: map<FeedId, StoredFeed>, id: FeedId, f: StoredFeed, keep: seq<FeedId>): map<FeedId, StoredFeed> {
    map k | k in m.Keys + {id} && k in keep :: if k == id then f else m[k]
  }

  /** Nothing but the moment of the check would change, and no copy is to go. */
  predicate OnlyChecked(m: map<FeedId, StoredFeed>, id: FeedId, f: StoredFeed, keep: seq<FeedId>) {
    id in m && SameButChecked(f, m[id]) && forall k :: k in m ==> k in keep
  }

  function RecordsOf(feeds: map<FeedId, CachedFeed>): map<FeedId, StoredFeed> { map k | k in feeds :: feeds[k].rec }

  function Replaced(feeds: map<FeedId, CachedFeed>, id: FeedId, c: CachedFeed,
                    keep: seq<FeedId>): map<FeedId, CachedFeed> {
    map k | k in feeds.Keys + {id} && k in keep :: if k == id then c else feeds[k]
  }

  lemma ReplacedMeans(feeds: map<FeedId, CachedFeed>, id: FeedId, c: CachedFeed, keep: seq<FeedId>)
    ensures RecordsOf(Replaced(feeds, id, c, keep)) == PutIn(RecordsOf(feeds), id, c.rec, keep)
  {
  }

  lemma ReplacedIndexed(feeds: map<FeedId, CachedFeed>, id: FeedId, c: CachedFeed, keep: seq<FeedId>)
    requires Indexed(c) && forall k :: k in feeds ==> Indexed(feeds[k])
    ensures var fs := Replaced(feeds, id, c, keep);
            && fs.Keys == RecordsOf(fs).Keys
            && forall k :: k in fs ==> SameButChecked(fs[k].rec, RecordsOf(fs)[k]) && Indexed(fs[k])
  {
    var fs := Replaced(feeds, id, c, keep);
    forall k | k in fs ensures SameButChecked(fs[k].rec, RecordsOf(fs)[k]) && Indexed(fs[k]) {
      assert fs[k] == c || (k in feeds && fs[k] == feeds[k]);
    }
  }

  lemma CheckedInPlace(feeds: map<FeedId, CachedFeed>, id: FeedId, f: StoredFeed, keep: seq<FeedId>)
    requires id in feeds && id in keep && forall k :: k in feeds ==> k in keep
    ensures RecordsOf(feeds[id := feeds[id].(rec := f)]) == PutIn(RecordsOf(feeds), id, f, keep)
  {
  }

  class FeedStore {
    var file: map<FeedId, StoredFeed>
    var loaded: bool
    var feeds: map<FeedId, CachedFeed>

    /** The cache is the file, up to when each feed was last checked, merged and split. */
    ghost predicate Valid()
      reads this
    {
      loaded ==>
        && feeds.Keys == file.Keys
        && (forall id :: id in feeds ==> SameButChecked(feeds[id].rec, file[id]) && Indexed(feeds[id]))
    }

    /** The records as the store answers with them. */
    function Records(): map<FeedId, StoredFeed>
      reads this
    {
      if loaded then RecordsOf(feeds) else file
    }

    constructor (onDisk: map<FeedId, StoredFeed>)
      ensures Valid() && file == onDisk && !loaded && Records() == onDisk
    {
      file, loaded, feeds := onDisk, false, map[];
    }

    method Load()
      requires Valid()
      modifies this
      ensures Valid() && loaded && file == old(file) && Records() == old(Records())
    {
      if loaded {
        return;
      }
      feeds := map[];
      var ids := file.Keys;
      while ids != {}
        invariant ids <= file.Keys && feeds.Keys == file.Keys - ids && file == old(file) && !loaded
        invariant forall id :: id in feeds ==> feeds[id].rec == file[id] && Indexed(feeds[id])
        decreases ids
      {
        var id :| id in ids;
        var c := NewCachedFeed(file[id]);
        feeds := feeds[id := c];
        ids := ids - {id};
      }
      loaded := true;
    }

    method Get(id: FeedId) returns (rec: Option<StoredFeed>)
      requires Valid()
      modifies this
      ensures Valid() && file == old(file) && Records() == old(Records())
      ensures rec == if id in Records() then Some(Records()[id]) else None
    {
      Load();
      rec := if id in feeds then Some(feeds[id].rec) else None;
    }

    /** Atomic: the cache changes only once the file has, and a mere check does not touch the disk. */
    method Put(id: FeedId, f: StoredFeed, keep: seq<FeedId>, writes: bool) returns (ok: bool)
      requires Valid()
      modifies this
      ensures Valid()
      ensures ok == (writes || OnlyChecked(old(Records()), id, f, keep))
      ensures Records() == if ok then PutIn(old(Records()), id, f, keep) else old(Records())
      ensures OnlyChecked(old(Records()), id, f, keep) || !ok ==> file == old(file)
    {
      Load();
      var same := OnlyChecked(Records(), id, f, keep);
      if same {
        PutChecked(id, f, keep);
      } else if writes {
        PutWhole(id, f, keep);
      }
      return same || writes;
    }

    method PutChecked(id: FeedId, f: StoredFeed, keep: seq<FeedId>)
      requires Valid() && loaded && OnlyChecked(Records(), id, f, keep)
      modifies this`feeds
      ensures Valid() && Records() == PutIn(old(Records()), id, f, keep)
    {
      forall k | k in feeds ensures k in keep {
        assert k in Records();
      }
      CheckedInPlace(feeds, id, f, keep);
      feeds := feeds[id := feeds[id].(rec := f)];
    }

    method PutWhole(id: FeedId, f: StoredFeed, keep: seq<FeedId>)
      requires Valid() && loaded
      modifies this
      ensures Valid() && loaded && file == Records() == PutIn(old(Records()), id, f, keep)
    {
      var c := NewCachedFeed(f);
      ReplacedMeans(feeds, id, c, keep);
      ReplacedIndexed(feeds, id, c, keep);
      feeds := Replaced(feeds, id, c, keep);
      file := RecordsOf(feeds);
    }

    /** Contains: the search of the index answers for the prefixes themselves. */
    method Contains(id: FeedId, a: Addr) returns (hit: bool)
      requires Valid() && a.Valid()
      modifies this
      ensures Valid() && file == old(file) && Records() == old(Records())
      ensures hit == (id in Records() && AnyContains(Records()[id].prefixes, a))
    {
      Load();
      if id !in feeds {
        return false;
      }
      hit := InIndex(feeds[id], a);
    }

    /** AllowlistOverlap: how many allowlist entries the feed covers at least in part. */
    method AllowlistOverlap(id: FeedId, allowlist: seq<Entry>) returns (n: nat)
      requires Valid() && forall i :: 0 <= i < |allowlist| && allowlist[i].Bare? ==> allowlist[i].addr.Valid()
      modifies this
      ensures Valid() && file == old(file) && Records() == old(Records())
      ensures n == if id in Records() then CountTouched(Records()[id].prefixes, allowlist) else 0
    {
      Load();
      if id !in feeds {
        return 0;
      }
      n := CountOverlap(feeds[id], allowlist);
    }
  }

  method InIndex(c: CachedFeed, a: Addr) returns (hit: bool)
    requires Indexed(c) && a.Valid()
    ensures hit == AnyContains(c.rec.prefixes, a)
  {
    var q := Range(a.fam, a.val, a.val);
    hit := OverlapsAny(if a.Is4() then c.ranges4 else c.ranges6, q);
    IndexAnswers(c, q);
    OneAddress(c, a);
  }

  method CountOverlap(c: CachedFeed, allowlist: seq<Entry>) returns (n: nat)
    requires Indexed(c) && forall i :: 0 <= i < |allowlist| && allowlist[i].Bare? ==> allowlist[i].addr.Valid()
    ensures n == CountTouched(c.rec.prefixes, allowlist)
  {
    n := 0;
    for i := 0 to |allowlist|
      invariant n == CountTouched(c.rec.prefixes, allowlist[..i])
    {
      assert allowlist[..i + 1][..i] == allowlist[..i];
      var q := EntryRange(allowlist[i]);
      if q.Some? {
        EntryRangeMeans(allowlist[i]);
        var hit := OverlapsAny(if q.value.fam.V4? then c.ranges4 else c.ranges6, q.value);
        IndexAnswers(c, q.value);
        TouchesMeans(c.rec.prefixes, allowlist[i]);
        if hit {
          n := n + 1;
        }
      }
    }
    assert allowlist[..|allowlist|] == allowlist;
  }

  // ---- what the index means ----

  /** Searching the family's half of the index is searching all of it. */
  lemma IndexAnswers(c: CachedFeed, q: Range)
    requires Indexed(c) && q.Valid()
    ensures var half := if q.fam.V4? then c.ranges4 else c.ranges6;
            (exists i :: 0 <= i < |half| && Overlaps(half[i], q)) <==> Touched(c.rec.prefixes, q)
  {
    var half := if q.fam.V4? then c.ranges4 else c.ranges6;
    if i :| 0 <= i < |half| && Overlaps(half[i], q) {
      HitIsTouched(c, q, half, i);
    }
    if a :| q.Holds(a) && AnyContains(c.rec.prefixes, a) {
      TouchedIsHit(c, q, half, a);
    }
  }

  lemma HitIsTouched(c: CachedFeed, q: Range, half: seq<Range>, i: nat)
    requires Indexed(c) && q.Valid() && half == (if q.fam.V4? then c.ranges4 else c.ranges6)
    requires i < |half| && Overlaps(half[i], q)
    ensures Touched(c.rec.prefixes, q)
  {
    var a := Addr(q.fam, if half[i].lo < q.lo then q.lo else half[i].lo);
    MergedIsCanonical(c.rec.prefixes);
    assert Merged(c.rec.prefixes)[if q.fam.V4? then i else |c.ranges4| + i] == half[i];
    assert half[i].Holds(a) && q.Holds(a);
    assert AnyHolds(Merged(c.rec.prefixes), a);
  }

  lemma TouchedIsHit(c: CachedFeed, q: Range, half: seq<Range>, a: Addr)
    requires Indexed(c) && q.Valid() && half == (if q.fam.V4? then c.ranges4 else c.ranges6)
    requires q.Holds(a) && AnyContains(c.rec.prefixes, a)
    ensures exists i :: 0 <= i < |half| && Overlaps(half[i], q)
  {
    MergedIsCanonical(c.rec.prefixes);
    var all := Merged(c.rec.prefixes);
    var j :| 0 <= j < |all| && all[j].Holds(a);
    var i := if q.fam.V4? then j else j - |c.ranges4|;
    assert 0 <= i < |half| && half[i] == all[j];
  }

  /** Some address of `q` is in the feed. */
  ghost predicate Touched(ps: seq<Network>, q: Range) { exists a :: q.Holds(a) && AnyContains(ps, a) }

  lemma OneAddress(c: CachedFeed, a: Addr)
    ensures Touched(c.rec.prefixes, Range(a.fam, a.val, a.val)) <==> AnyContains(c.rec.prefixes, a)
  {
    assert Range(a.fam, a.val, a.val).Holds(a);
    if b :| Range(a.fam, a.val, a.val).Holds(b) && AnyContains(c.rec.prefixes, b) {
      assert b == a;
    }
  }

  function EntryRange(e: Entry): Option<Range> {
    match e
    case Bare(a) => Some(Range(a.fam, a.val, a.val))
    case Net(n) => Some(SpanOf(n))
    case Comment => None
    case Junk => None
  }

  lemma EntryRangeMeans(e: Entry)
    requires EntryRange(e).Some? && (e.Bare? ==> e.addr.Valid())
    ensures EntryRange(e).value.Valid()
    ensures forall a :: EntryRange(e).value.Holds(a) <==> e.Covers(a)
  {
    forall a ensures EntryRange(e).value.Holds(a) <==> e.Covers(a) {
      if e.Net? {
        SpanHolds(e.net, a);
      }
    }
    if e.Net? {
      SpanHolds(e.net, Addr(V4, 0));
    }
  }

  /** The entry and the feed share an address. */
  ghost predicate Touches(ps: seq<Network>, e: Entry) { exists a :: e.Covers(a) && AnyContains(ps, a) }

  ghost function CountTouched(ps: seq<Network>, es: seq<Entry>): nat {
    if es == [] then 0 else CountTouched(ps, es[..|es| - 1]) + if Touches(ps, es[|es| - 1]) then 1 else 0
  }

  lemma TouchesMeans(ps: seq<Network>, e: Entry)
    requires EntryRange(e).Some? && (e.Bare? ==> e.addr.Valid())
    ensures Touches(ps, e) <==> Touched(ps, EntryRange(e).value)
  {
    EntryRangeMeans(e);
    if a :| e.Covers(a) && AnyContains(ps, a) {
      assert EntryRange(e).value.Holds(a);
    }
  }
}
