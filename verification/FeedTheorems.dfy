/** Feeds over whole runs: updates, applies, teardowns and restarts in any order. */
module FeedTheorems {
  import opened Addresses
  import opened Models
  import opened Ranges
  import opened FeedSets
  import opened FeedValidation
  import opened FeedStores
  import opened FeedUpdate
  import opened GlobalSpace

  /** What an observer writes down about the shrink guard. */
  datatype Item = ShrinkRefused(id: FeedId, at: int) | Stored(id: FeedId) | Checked(id: FeedId) | Restarted

  /** `behind` are the feeds whose kernel set took a version the disk did not. */
  datatype World = World(feeds: Feeds, log: seq<Item>, behind: set<FeedId>)

  const START := World(Feeds(map[], map[], map[]), [], {})

  datatype Event =
    | EUpdate(c: Command)
    | EApply(ids: seq<FeedId>)  // a table built from the stored copies of the enabled feeds
    | ETeardown                 // panic mode, or somebody else deleting the table
    | ERestart                  // the watch is memory only

  function Noted(u: Update, a: Answer): seq<Item> {
    if a == Refused(Shrank) then [ShrinkRefused(u.id, u.now)]
    else if a.Refused? then []
    else if u.notModified then [Checked(u.id)]
    else if a.Done? then [Stored(u.id)]
    else []
  }

  function Loaded(f: Feeds, ids: seq<FeedId>): map<FeedId, seq<Range>> {
    map id | id in ids :: if id in f.stored then Merged(f.stored[id].prefixes) else []
  }

  function Behind(w: World, u: Update, a: Answer): set<FeedId> {
    if a.NotStored? && !u.notModified && Live(u) then w.behind + {u.id}
    else if a.Done? && !u.notModified then w.behind - {u.id}
    else w.behind
  }

  function UpdateStep(w: World, u: Update): World {
    var (f, a) := Updated(w.feeds, u);
    World(f, w.log + Noted(u, a), Behind(w, u, a))
  }

  function Step(nets: seq<Network>, w: World, e: Event): World {
    match e
    case EUpdate(c) => UpdateStep(w, Vetted(nets, c))
    case EApply(ids) => w.(feeds := w.feeds.(kernel := Loaded(w.feeds, ids)), behind := {})
    case ETeardown => w.(feeds := w.feeds.(kernel := map[]), behind := {})
    case ERestart => w.(feeds := w.feeds.(shrink := map[]), log := w.log + [Restarted])
  }

  ghost predicate Run(nets: seq<Network>, w: World, es: seq<Event>, w': World)
    decreases |es|
  {
    if es == [] then w == w' else Run(nets, Step(nets, w, es[0]), es[1..], w')
  }

  // ---- the shrink guard ----

  /** The refusals of this feed since it was last stored or confirmed, or the core last started. */
  function Since(log: seq<Item>, id: FeedId): seq<int> {
    if log == [] then [] else After(Since(log[..|log| - 1], id), log[|log| - 1], id)
  }

  function After(since: seq<int>, i: Item, id: FeedId): seq<int> {
    if i.Restarted? then []
    else if i.id != id then since
    else if i.ShrinkRefused? then since + [i.at]
    else []
  }

  /** The watch in memory is that history. */
  predicate WatchAgrees(w: World, id: FeedId) {
    var since := Since(w.log, id);
    if id in w.feeds.shrink
    then w.feeds.shrink[id].seen == |since| > 0 && w.feeds.shrink[id].since == since[0]
    else since == []
  }

  lemma SinceOne(log: seq<Item>, i: Item, id: FeedId)
    ensures Since(log + [i], id) == After(Since(log, id), i, id)
  {
    assert (log + [i])[..|log|] == log;
  }

  /** What an update does to the watch is what the observer notes of it. */
  lemma ShrinkEffect(s: Feeds, u: Update)
    ensures var (f, a) := Updated(s, u);
            f.shrink == if Noted(u, a) == [] then s.shrink
                        else if Noted(u, a) == [ShrinkRefused(u.id, u.now)] then s.shrink[u.id := Watched(s, u)]
                        else s.shrink - {u.id}
    ensures Noted(u, Updated(s, u).1) != [] ==> |Noted(u, Updated(s, u).1)| == 1
  {
  }

  lemma WatchStep(nets: seq<Network>, w: World, e: Event, id: FeedId)
    requires WatchAgrees(w, id)
    ensures WatchAgrees(Step(nets, w, e), id)
  {
    match e
    case EUpdate(c) => WatchUpdate(w, Vetted(nets, c), id);
    case ERestart => SinceOne(w.log, Restarted, id);
    case EApply(_) =>
    case ETeardown =>
  }

  lemma WatchUpdate(w: World, u: Update, id: FeedId)
    requires WatchAgrees(w, id)
    ensures WatchAgrees(UpdateStep(w, u), id)
  {
    var (f, a) := Updated(w.feeds, u);
    var noted := Noted(u, a);
    ShrinkEffect(w.feeds, u);
    NotedWatch(w, u, f, noted, id);
  }

  lemma NotedWatch(w: World, u: Update, f: Feeds, noted: seq<Item>, id: FeedId)
    requires WatchAgrees(w, id)
    requires noted == [] || noted == [ShrinkRefused(u.id, u.now)] || noted == [Stored(u.id)] || noted == [Checked(u.id)]
    requires f.shrink == if noted == [] then w.feeds.shrink
                         else if noted == [ShrinkRefused(u.id, u.now)] then w.feeds.shrink[u.id := Watched(w.feeds, u)]
                         else w.feeds.shrink - {u.id}
    ensures WatchAgrees(w.(feeds := f, log := w.log + noted), id)
  {
    if noted == [] {
      assert w.log + noted == w.log;
    } else {
      SinceOne(w.log, noted[0], id);
      assert noted == [noted[0]];
    }
  }

  lemma {:induction false} WatchRun(nets: seq<Network>, w: World, es: seq<Event>, w': World, id: FeedId)
    requires WatchAgrees(w, id) && Run(nets, w, es, w')
    ensures WatchAgrees(w', id)
    decreases |es|
  {
    if es != [] {
      WatchStep(nets, w, es[0], id);
      WatchRun(nets, Step(nets, w, es[0]), es[1..], w', id);
    }
  }

  /** Every record counts its own prefixes, and there is at least one. */
  predicate Counted(m: map<FeedId, StoredFeed>) {
    forall id :: id in m ==> m[id].entries == |m[id].prefixes| && m[id].prefixes != []
  }

  lemma CountedStep(nets: seq<Network>, w: World, e: Event)
    requires Counted(w.feeds.stored)
    ensures Counted(Step(nets, w, e).feeds.stored)
  {
    if e.EUpdate? {
      CountedUpdate(w.feeds, Vetted(nets, e.c));
    }
  }

  lemma CountedUpdate(s: Feeds, u: Update)
    requires Counted(s.stored)
    ensures Counted(Updated(s, u).0.stored)
  {
    var f, a := Updated(s, u).0, Updated(s, u).1;
    if a.Done? {
      if u.notModified {
        ConfirmedMeans(s, u);
      } else {
        StoredMeans(s, u);
      }
      forall id | id in f.stored
        ensures f.stored[id].entries == |f.stored[id].prefixes| && f.stored[id].prefixes != []
      {
        if id != u.id {
          OthersCame(s, u, id);
        }
      }
    }
  }

  lemma OthersCame(s: Feeds, u: Update, id: FeedId)
    requires Updated(s, u).1.Done? && id in Updated(s, u).0.stored && id != u.id
    ensures id in s.stored && Updated(s, u).0.stored[id] == s.stored[id]
  {
  }

  lemma {:induction false} CountedRun(nets: seq<Network>, w: World, es: seq<Event>, w': World)
    requires Counted(w.feeds.stored) && Run(nets, w, es, w')
    ensures Counted(w'.feeds.stored)
    decreases |es|
  {
    if es != [] {
      CountedStep(nets, w, es[0]);
      CountedRun(nets, Step(nets, w, es[0]), es[1..], w');
    }
  }

  /** In every run each stored copy counts its own prefixes and has at least one. */
  lemma RecordsCountTheirPrefixes(nets: seq<Network>, es: seq<Event>, w: World, id: FeedId)
    requires Run(nets, START, es, w) && id in w.feeds.stored
    ensures w.feeds.stored[id].entries == |w.feeds.stored[id].prefixes| > 0
  {
    CountedRun(nets, START, es, w);
  }

  /** A version with fewer than 70 % of the prefixes a live list is running with. */
  predicate Shrunken(s: Feeds, u: Update) {
    && u.id.ListFeed? && u.id in u.rules.current.feeds && u.id in s.stored && u.entries.Kept?
    && |u.entries.kept| * 100 < |s.stored[u.id].prefixes| * 70
  }

  /** This list was refused twice since it was last stored or confirmed, the first time a day or more ago. */
  predicate RefusedForADay(w: World, u: Update) {
    var since := Since(w.log, u.id);
    |since| >= 2 && u.now - since[0] >= 86400
  }

  /**
   Over whole runs, exactly when a new version is taken: nothing stands in its way, something is left of it, the
   kernel takes it where the feed is live, and a live list that shrank under 70 % was refused for a day.
   */
  lemma TakenExactlyWhen(nets: seq<Network>, es: seq<Event>, w: World, u: Update)
    requires Run(nets, START, es, w) && !u.notModified
    ensures !Updated(w.feeds, u).1.Refused?
            <==> && !u.panic && !u.busy && (u.id in u.rules.current.feeds || u.id in u.rules.staged.feeds)
                 && u.entries.Kept? && u.entries.kept != []
                 && (Shrunken(w.feeds, u) ==> RefusedForADay(w, u))
                 && (u.id in u.rules.current.feeds ==> u.kernelTakes)
  {
    WatchRun(nets, START, es, w, u.id);
    CountedRun(nets, START, es, w);
    GuardMeans(w, u);
  }

  lemma GuardMeans(w: World, u: Update)
    requires WatchAgrees(w, u.id) && Counted(w.feeds.stored)
    ensures Guarded(w.feeds, u) <==> Shrunken(w.feeds, u)
    ensures LongEnough(Watched(w.feeds, u), u.now) <==> RefusedForADay(w, u)
  {
  }

  /**
   The guard over whole runs: when a version with fewer than 70 % of its prefixes replaces a live list, this process
   had already refused that list at least twice, the first time a day or more before, and nothing was stored or
   confirmed for it in between.
   */
  lemma AShrinkTakesADay(nets: seq<Network>, es: seq<Event>, w: World, u: Update)
    requires Run(nets, START, es, w) && !u.notModified && Shrunken(w.feeds, u) && Updated(w.feeds, u).1.Done?
    ensures var since := Since(w.log, u.id); |since| >= 2 && u.now - since[0] >= 86400
  {
    TakenExactlyWhen(nets, es, w, u);
  }

  // ---- only global addresses ----

  ghost predicate StoredGlobal(nets: seq<Network>, m: map<FeedId, StoredFeed>) {
    forall id, p :: id in m && p in m[id].prefixes ==> IsGlobal(nets, p)
  }

  ghost predicate HoldsOnlyGlobal(nets: seq<Network>, rs: seq<Range>) {
    forall a :: AnyHolds(rs, a) ==> GlobalAddr(nets, a)
  }

  ghost predicate KernelGlobal(nets: seq<Network>, m: map<FeedId, seq<Range>>) {
    forall id :: id in m ==> HoldsOnlyGlobal(nets, m[id])
  }

  lemma MergedOnlyGlobal(nets: seq<Network>, kept: seq<Network>)
    requires forall p :: p in kept ==> IsGlobal(nets, p)
    ensures HoldsOnlyGlobal(nets, Merged(kept))
  {
    MergedIsCanonical(kept);
    forall a | AnyHolds(Merged(kept), a) ensures GlobalAddr(nets, a) {
      KeptIsGlobal(nets, kept, a);
    }
  }

  lemma GlobalTake(nets: seq<Network>, s: Feeds, u: Update)
    requires StoredGlobal(nets, s.stored) && KernelGlobal(nets, s.kernel)
    requires u.entries.Kept? && forall p :: p in u.entries.kept ==> IsGlobal(nets, p)
    ensures StoredGlobal(nets, Take(s, u).0.stored) && KernelGlobal(nets, Take(s, u).0.kernel)
  {
    MergedOnlyGlobal(nets, u.entries.kept);
  }

  lemma GlobalUpdate(nets: seq<Network>, s: Feeds, u: Update)
    requires StoredGlobal(nets, s.stored) && KernelGlobal(nets, s.kernel)
    requires u.entries.Kept? ==> forall p :: p in u.entries.kept ==> IsGlobal(nets, p)
    ensures StoredGlobal(nets, Updated(s, u).0.stored) && KernelGlobal(nets, Updated(s, u).0.kernel)
  {
    if u.entries.Kept? {
      GlobalTake(nets, s, u);
    }
  }

  lemma GlobalStep(nets: seq<Network>, w: World, e: Event)
    requires StoredGlobal(nets, w.feeds.stored) && KernelGlobal(nets, w.feeds.kernel)
    ensures StoredGlobal(nets, Step(nets, w, e).feeds.stored) && KernelGlobal(nets, Step(nets, w, e).feeds.kernel)
  {
    match e
    case EUpdate(c) =>
      ValidationMeans(c.id, nets, c.entries);
      GlobalUpdate(nets, w.feeds, Vetted(nets, c));
    case EApply(ids) =>
      forall id | id in Loaded(w.feeds, ids) ensures HoldsOnlyGlobal(nets, Loaded(w.feeds, ids)[id]) {
        if id in w.feeds.stored {
          MergedOnlyGlobal(nets, w.feeds.stored[id].prefixes);
        }
      }
    case ETeardown =>
    case ERestart =>
  }

  lemma {:induction false} GlobalRun(nets: seq<Network>, w: World, es: seq<Event>, w': World)
    requires StoredGlobal(nets, w.feeds.stored) && KernelGlobal(nets, w.feeds.kernel) && Run(nets, w, es, w')
    ensures StoredGlobal(nets, w'.feeds.stored) && KernelGlobal(nets, w'.feeds.kernel)
    decreases |es|
  {
    if es != [] {
      GlobalStep(nets, w, es[0]);
      GlobalRun(nets, Step(nets, w, es[0]), es[1..], w');
    }
  }

  /**
   Whatever arrives, no run ever puts an address into a kernel feed set that a packet from the internet could
   not carry: no private, shared, loopback, link-local or multicast IPv4 address, and in IPv6 only 2000::/3 without
   2001:db8::/32.
   */
  lemma KernelFeedsAreGlobal(es: seq<Event>, w: World, id: FeedId, a: Addr)
    requires Run(NonGlobalV4(), START, es, w) && id in w.feeds.kernel && AnyHolds(w.feeds.kernel[id], a)
    ensures Routable(a)
  {
    GlobalRun(NonGlobalV4(), START, es, w);
    GlobalIsRoutable(a);
  }

  // ---- a live feed's file and its kernel set ----

  /** Every feed the table in force holds is switched on in Current, whenever an update is not turned away at once. */
  predicate Coherent(w: World, e: Event) {
    e.EUpdate? && !e.c.panic && !e.c.busy ==> forall id :: id in w.feeds.kernel ==> id in e.c.rules.current.feeds
  }

  ghost predicate CoherentRun(nets: seq<Network>, w: World, es: seq<Event>, w': World)
    decreases |es|
  {
    if es == [] then w == w' else Coherent(w, es[0]) && CoherentRun(nets, Step(nets, w, es[0]), es[1..], w')
  }

  /** What a table built now would hold for the feed. */
  function OnFile(m: map<FeedId, StoredFeed>, id: FeedId): seq<Range> { if id in m then Merged(m[id].prefixes) else [] }

  predicate InStep(w: World) {
    forall id :: id in w.feeds.kernel && id !in w.behind ==> w.feeds.kernel[id] == OnFile(w.feeds.stored, id)
  }

  lemma UpdateKeepsInStep(w: World, u: Update)
    requires InStep(w) && (!u.panic && !u.busy ==> forall id :: id in w.feeds.kernel ==> id in u.rules.current.feeds)
    ensures InStep(UpdateStep(w, u))
  {
    var (f, a) := Updated(w.feeds, u);
    if !u.panic && !u.busy {
      forall id | id in f.kernel && id !in Behind(w, u, a) ensures f.kernel[id] == OnFile(f.stored, id) {
        if id != u.id {
          assert id in w.feeds.kernel && id in KeptIds(u.rules);
        }
      }
    }
  }

  /** A version taken for the file reaches the kernel's set of that feed too, or changes nothing of it. */
  predicate OwnSetFollows(w: World, u: Update) {
    u.notModified || u.id !in w.feeds.kernel || Live(u) ||
    (u.entries.Kept? && Merged(u.entries.kept) == w.feeds.kernel[u.id])
  }

  /** No feed in the kernel loses the copy its set came from. */
  predicate NoSetLosesItsFile(w: World, u: Update) {
    forall id :: id in w.feeds.kernel && id != u.id && id !in w.behind ==>
      id in KeptIds(u.rules) || w.feeds.kernel[id] == []
  }

  /** The record an update leaves when it is stored. */
  function Record(s: Feeds, u: Update): StoredFeed {
    if u.notModified && u.id in s.stored then s.stored[u.id].(checkedAt := u.now)
    else if u.entries.Kept? then NextRecord(s, u)
    else StoredFeed([], 0, 0, 0, 0)
  }

  lemma DoneEffect(s: Feeds, u: Update)
    requires Updated(s, u).1.Done?
    ensures Updated(s, u).0.stored == PutIn(s.stored, u.id, Record(s, u), KeptIds(u.rules))
    ensures Updated(s, u).0.kernel
         == if Live(u) && !u.notModified && u.entries.Kept? then s.kernel[u.id := Merged(u.entries.kept)] else s.kernel
  {
  }

  lemma OwnParted(w: World, u: Update)
    requires InStep(w) && Updated(w.feeds, u).1.Done?
    ensures var w' := UpdateStep(w, u);
            (u.id in w'.feeds.kernel && u.id !in w'.behind ==> w'.feeds.kernel[u.id] == OnFile(w'.feeds.stored, u.id))
            <==> OwnSetFollows(w, u)
  {
  }

  /** One update that was stored keeps file and kernel together exactly when both hold. */
  lemma UpdateKeepsInStepIff(w: World, u: Update)
    requires InStep(w) && Updated(w.feeds, u).1.Done?
    ensures InStep(UpdateStep(w, u)) <==> OwnSetFollows(w, u) && NoSetLosesItsFile(w, u)
  {
    OwnParted(w, u);
    DoneEffect(w.feeds, u);
    forall id | id != u.id && id in w.feeds.kernel && id !in w.behind
      ensures var w' := UpdateStep(w, u);
              && id in w'.feeds.kernel && id !in w'.behind
              && (w'.feeds.kernel[id] == OnFile(w'.feeds.stored, id)
                  <==> id in KeptIds(u.rules) || w.feeds.kernel[id] == [])
    {
    }
  }

  lemma {:induction false} InStepRun(nets: seq<Network>, w: World, es: seq<Event>, w': World)
    requires InStep(w) && CoherentRun(nets, w, es, w')
    ensures InStep(w')
    decreases |es|
  {
    if es != [] {
      if es[0].EUpdate? {
        UpdateKeepsInStep(w, Vetted(nets, es[0].c));
      }
      InStepRun(nets, Step(nets, w, es[0]), es[1..], w');
    }
  }

  /**
   Over whole runs, a live feed's kernel set is the set its file would give, unless the last version the kernel
   took is one the disk refused: the file never holds a version the kernel has refused.
   */
  lemma LiveFileFollowsTheKernel(nets: seq<Network>, es: seq<Event>, w: World, id: FeedId)
    requires CoherentRun(nets, START, es, w) && id in w.feeds.kernel && id !in w.behind
    ensures w.feeds.kernel[id] == OnFile(w.feeds.stored, id)
  {
    InStepRun(nets, START, es, w);
  }

  /** ... and a feed falls behind in one way only: an update of it that answered "not stored". */
  lemma OnlyTheDiskSeparatesThem(nets: seq<Network>, w: World, e: Event, id: FeedId)
    requires id !in w.behind && id in Step(nets, w, e).behind
    ensures e.EUpdate? && e.c.id == id && !e.c.diskTakes && Updated(w.feeds, Vetted(nets, e.c)).1.NotStored?
    ensures Step(nets, w, e).feeds.stored == w.feeds.stored
  {
  }

  // ---- and what the elements in the kernel hold ----

  lemma HalfHolds(rs: seq<Range>, v4: seq<Range>, v6: seq<Range>, a: Addr)
    requires rs == v4 + v6 && OfFamily(v4, V4) && OfFamily(v6, V6)
    ensures AnyHolds(if a.fam.V4? then v4 else v6, a) == AnyHolds(rs, a)
  {
    HoldsConcat(v4, v6, a);
  }

  /** The elements sent for one family hold exactly the addresses of the feed's prefixes in that family. */
  lemma SetsHoldThePrefixes(ps: seq<Prefix>, v4: seq<Range>, v6: seq<Range>, f: Family, v: nat)
    requires Merged(ps) == v4 + v6 && OfFamily(v4, V4) && OfFamily(v6, V6) && Canonical(v4) && Canonical(v6)
    requires v < Pow2(Width(f))
    ensures InSet(RangeElements(if f.V4? then v4 else v6), v) <==> AnyContains(ps, Addr(f, v))
  {
    MergedIsCanonical(ps);
    HalfHolds(Merged(ps), v4, v6, Addr(f, v));
    ElementsMean(if f.V4? then v4 else v6, f);
  }
}
