/** The reachability answer over the feeds as stored: the copy, the kernel's set and the index agree about a source. */
module FeedReach {
  import opened Addresses
  import opened Models
  import N = Netfilter
  import opened Ranges
  import opened FeedSets
  import opened FeedStores
  import opened FeedTheorems
  import opened Reach
  import M = Meaning
  import C = Compiler

  /** The half of a feed's ranges that goes into one family's set. */
  ghost predicate Halves(rs: seq<Range>, v4: seq<Range>, v6: seq<Range>) {
    rs == v4 + v6 && OfFamily(v4, V4) && OfFamily(v6, V6) && Canonical(v4) && Canonical(v6)
  }

  /** The kernel's sets for a feed hold what the elements sent for its stored copy denote; no copy, no elements. */
  ghost predicate Loads(env: N.Env, m: map<FeedId, StoredFeed>, id: FeedId, v4: seq<Range>, v6: seq<Range>) {
    && Halves(OnFile(m, id), v4, v6)
    && (forall v: nat :: v < Pow2(32) ==> (N.InSet(env, N.FeedSet(id, V4), v) <==> InSet(RangeElements(v4), v)))
    && (forall v: nat :: v < Pow2(128) ==> (N.InSet(env, N.FeedSet(id, V6), v) <==> InSet(RangeElements(v6), v)))
  }

  /** Some stored prefix of the feed holds the address. */
  predicate Holds(m: map<FeedId, StoredFeed>, id: FeedId, a: Addr) { id in m && AnyContains(m[id].prefixes, a) }

  /** Kernel and file answer alike about every address. */
  lemma KernelAnswersForTheFile(env: N.Env, m: map<FeedId, StoredFeed>, id: FeedId, v4: seq<Range>, v6: seq<Range>,
                                a: Addr)
    requires Loads(env, m, id, v4, v6) && a.Valid()
    ensures M.InFeed(env, id, a) <==> Holds(m, id, a)
  {
    assert Width(V4) == 32 && Width(V6) == 128;
    if id in m {
      SetsHoldThePrefixes(m[id].prefixes, v4, v6, a.fam, a.val);
    } else {
      assert v4 == [] && v6 == [];
    }
  }

  /** Feeds: for each id whether its copy holds the address. */
  method FeedHits(store: FeedStore, ids: seq<FeedId>, a: Addr) returns (hits: seq<FeedId>)
    requires store.Valid() && a.Valid()
    modifies store
    ensures store.Valid() && store.Records() == old(store.Records())
    ensures forall i :: 0 <= i < |ids| ==> (ids[i] in hits <==> Holds(store.Records(), ids[i], a))
  {
    hits := [];
    for i := 0 to |ids|
      invariant store.Valid() && store.Records() == old(store.Records())
      invariant forall id :: id in hits ==> Holds(store.Records(), id, a)
      invariant forall j :: 0 <= j < i && Holds(store.Records(), ids[j], a) ==> ids[j] in hits
    {
      var hit := store.Contains(ids[i], a);
      if hit {
        hits := hits + [ids[i]];
      }
    }
  }

  /** Every enabled feed's sets are loaded from the stored copies. */
  ghost predicate AllLoaded(env: N.Env, m: map<FeedId, StoredFeed>, ids: seq<FeedId>) {
    forall i :: 0 <= i < |ids| ==> exists v4, v6 :: Loads(env, m, ids[i], v4, v6)
  }

  lemma HitsFromTheStore(env: N.Env, m: map<FeedId, StoredFeed>, ids: seq<FeedId>, hits: seq<FeedId>, a: Addr)
    requires AllLoaded(env, m, ids) && a.Valid()
    requires forall i :: 0 <= i < |ids| ==> (ids[i] in hits <==> Holds(m, ids[i], a))
    ensures HitsAreTheFeeds(env, ids, hits, a)
  {
    forall i | 0 <= i < |ids| ensures M.InFeed(env, ids[i], a) <==> ids[i] in hits {
      var v4, v6 :| Loads(env, m, ids[i], v4, v6);
      KernelAnswersForTheFile(env, m, ids[i], v4, v6, a);
    }
  }

  /** The reachability check, fed by the store: sound for the chain over the sets loaded from that store. */
  lemma ReachableOverTheStore(r: Rules, c: Config, bridges: seq<Entry>, nflog: bool, p: N.Packet, env: N.Env,
                              a: Addr, port: int, local: bool, m: map<FeedId, StoredFeed>, hits: seq<FeedId>)
    requires r.Valid() && RangesAreNetworks(c.firewall) && a.Valid()
    requires NewConnection(p, env, a, port) && (M.OnLoopback(p) <==> local || IsLoopbackAddr(a))
    requires AllLoaded(env, m, r.feeds)
    requires forall i :: 0 <= i < |r.feeds| ==> (r.feeds[i] in hits <==> Holds(m, r.feeds[i], a))
    ensures var v := Answer(r, c.firewall, c.network, Some(a), port, false, local, hits).0;
            var admitted := N.Admitted(C.Compiled(r, c, bridges, nflog), N.Input, false, p, env);
            && (v.ReachOpen? ==> admitted)
            && (v.ReachBlocked? && BridgesInPool(bridges, a) ==> !admitted)
  {
    HitsFromTheStore(env, m, r.feeds, hits, a);
    ReachableIsSound(r, c, bridges, nflog, p, env, a, port, local, hits);
  }
}
