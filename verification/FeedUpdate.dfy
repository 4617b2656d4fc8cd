/** UPDATE_FEED: kernel first, file second, and a guard against a list that suddenly shrinks. */
module FeedUpdate {
  import opened Addresses
  import opened Models
  import opened Ranges
  import opened FeedSets
  import opened FeedValidation
  import opened FeedStores

  const DAY: int := 24 * 60 * 60
  const ENOUGH: nat := 3
  const SHRINK_PERCENT: nat := 70

  predicate Shrinks(before: nat, after: nat) { after * 100 < before * SHRINK_PERCENT }

  /** How long a live list has been refused as a shrink. Memory only. */
  datatype Watch = Watch(since: int, seen: nat)

  datatype Feeds = Feeds(stored: map<FeedId, StoredFeed>, kernel: map<FeedId, seq<Range>>, shrink: map<FeedId, Watch>)

  /** One UPDATE_FEED with the entries as they arrived, and what its surroundings were. */
  datatype Command = Command(
    id: FeedId, notModified: bool, entries: seq<Option<Network>>, now: int, rules: RulesState,
    panic: bool, busy: bool, kernelTakes: bool, diskTakes: bool)

  /** The same with its entries validated. */
  datatype Update = Update(
    id: FeedId, notModified: bool, entries: Validated, now: int, rules: RulesState,
    panic: bool, busy: bool, kernelTakes: bool, diskTakes: bool)

  function Vetted(nets: seq<Network>, c: Command): Update {
    Update(c.id, c.notModified, Validation(c.id, nets, c.entries), c.now, c.rules,
           c.panic, c.busy, c.kernelTakes, c.diskTakes)
  }

  datatype Answer = Refused(why: Refusal) | NotStored | Done(changed: bool)

  datatype Refusal =
    | PanicEngaged | ApplyRunning | NotSwitchedOn | NoCopy | Invalid | NothingLeft | Shrank | KernelRefused

  /** feedIDs: everything Current, Staged or Backup switches on. */
  function KeptIds(r: RulesState): seq<FeedId> { r.current.feeds + r.staged.feeds + r.backup.feeds }

  predicate Live(u: Update) { u.id in u.rules.current.feeds }

  /** The guard applies to the copy the kernel is running, and not to a country. */
  predicate Guarded(s: Feeds, u: Update) {
    && u.id in s.stored && Live(u) && !u.id.CountryFeed? && u.entries.Kept?
    && Shrinks(s.stored[u.id].entries, |u.entries.kept|)
  }

  /** The watch with this fetch counted in. */
  function Watched(s: Feeds, u: Update): Watch {
    if u.id in s.shrink && s.shrink[u.id].seen > 0
    then s.shrink[u.id].(seen := s.shrink[u.id].seen + 1)
    else Watch(u.now, 1)
  }

  predicate LongEnough(w: Watch, now: int) { w.seen >= ENOUGH && now - w.since >= DAY }

  function NextRecord(s: Feeds, u: Update): StoredFeed
    requires u.entries.Kept?
  {
    var kept, had := u.entries.kept, u.id in s.stored;
    var changed := !had || s.stored[u.id].prefixes != kept;
    StoredFeed(kept, |kept|, u.entries.dropped, if changed then u.now else s.stored[u.id].changedAt, u.now)
  }

  /** Stored as far as the disk goes along. */
  function StoredAs(s: Feeds, u: Update, f: StoredFeed): Option<map<FeedId, StoredFeed>> {
    if u.diskTakes || OnlyChecked(s.stored, u.id, f, KeptIds(u.rules))
    then Some(PutIn(s.stored, u.id, f, KeptIds(u.rules))) else None
  }

  /** Steps 6 to 9, once the entries are valid. */
  function Take(s: Feeds, u: Update): (Feeds, Answer)
    requires u.entries.Kept?
  {
    var f := NextRecord(s, u);
    if Live(u) && !u.kernelTakes then (s, Refused(KernelRefused))
    else
      var kernel := if Live(u) then s.kernel[u.id := Merged(u.entries.kept)] else s.kernel;
      var put := StoredAs(s, u, f);
      if put.None? then (s.(kernel := kernel), NotStored)
      else (Feeds(put.value, kernel, s.shrink - {u.id}),
            Done(u.id !in s.stored || s.stored[u.id].prefixes != f.prefixes))
  }

  function Updated(s: Feeds, u: Update): (Feeds, Answer) {
    if u.panic then (s, Refused(PanicEngaged))
    else if u.busy then (s, Refused(ApplyRunning))
    else if u.id !in u.rules.current.feeds && u.id !in u.rules.staged.feeds then (s, Refused(NotSwitchedOn))
    else if u.notModified then
      if u.id !in s.stored then (s, Refused(NoCopy))
      else
        var put := StoredAs(s, u, s.stored[u.id].(checkedAt := u.now));
        if put.Some? then (s.(stored := put.value, shrink := s.shrink - {u.id}), Done(false))
        else (s.(shrink := s.shrink - {u.id}), NotStored)
    else if !u.entries.Kept? then (s, Refused(Invalid))
    else if u.entries.kept == [] then (s, Refused(NothingLeft))
    else if Guarded(s, u) && !LongEnough(Watched(s, u), u.now) then
      (s.(shrink := s.shrink[u.id := Watched(s, u)]), Refused(Shrank))
    else Take(s, u)
  }

  // ---- as the core runs it ----

  class Desk {
    const store: FeedStore
    const nets: seq<Network>  // the IPv4 networks no packet from the internet comes from
    var shrink: map<FeedId, Watch>
    var kernel: map<FeedId, seq<Range>>

    constructor (s: FeedStore)
      ensures store == s && nets == NonGlobalV4() && shrink == map[] && kernel == map[]
    {
      store, nets, shrink, kernel := s, NonGlobalV4(), map[], map[];
    }

    function View(): Feeds
      reads this, store
    {
      Feeds(store.Records(), kernel, shrink)
    }

    /** ReplaceFeedSet: both families' sets in one transaction, or neither. */
    method ReplaceFeedSet(id: FeedId, kept: seq<Network>, takes: bool) returns (ok: bool)
      modifies this`kernel
      ensures ok == takes
      ensures kernel == if takes then old(kernel)[id := Merged(kept)] else old(kernel)
    {
      if takes {
        var merged := MergeRanges(kept);
        var v4, v6 := SplitFamilies(merged);
        kernel := kernel[id := v4 + v6];
      }
      return takes;
    }

    /** Whether the shrink guard refuses this version; a version it lets through is not counted. */
    method ShrinkGuard(u: Update) returns (refused: bool)
      requires store.Valid()
      modifies this`shrink
      ensures refused == (Guarded(View(), u) && !LongEnough(old(Watched(View(), u)), u.now))
      ensures shrink == if refused then old(shrink)[u.id := old(Watched(View(), u))] else old(shrink)
    {
      refused := false;
      if Guarded(View(), u) {
        var w := if u.id in shrink then shrink[u.id] else Watch(0, 0);
        if w.seen == 0 {
          w := w.(since := u.now);
        }
        w := w.(seen := w.seen + 1);
        if w.seen < ENOUGH || u.now - w.since < DAY {
          shrink := shrink[u.id := w];
          refused := true;
        }
      }
    }

    /** UpdateFeed: whatever the fetcher sent, the core validates it itself. */
    method UpdateFeed(c: Command) returns (a: Answer)
      requires store.Valid()
      modifies this, store
      ensures store.Valid()
      ensures (View(), a) == Updated(old(View()), Vetted(nets, c))
    {
      if c.panic {
        return Refused(PanicEngaged);
      }
      if c.busy {
        return Refused(ApplyRunning);
      }
      if c.id !in c.rules.current.feeds && c.id !in c.rules.staged.feeds {
        return Refused(NotSwitchedOn);
      }
      var stored := store.Get(c.id);
      if c.notModified {
        if stored.None? {
          return Refused(NoCopy);
        }
        shrink := shrink - {c.id};
        var ok := store.Put(c.id, stored.value.(checkedAt := c.now), KeptIds(c.rules), c.diskTakes);
        return if ok then Done(false) else NotStored;
      }
      var entries := ValidateFeedEntries(c.id, nets, c.entries);
      a := Consider(Update(c.id, false, entries, c.now, c.rules, false, false, c.kernelTakes, c.diskTakes), stored);
    }

    /** Steps 5 to 9, the entries validated. */
    method Consider(u: Update, stored: Option<StoredFeed>) returns (a: Answer)
      requires store.Valid() && !u.panic && !u.busy && !u.notModified
      requires u.id in u.rules.current.feeds || u.id in u.rules.staged.feeds
      requires stored == if u.id in store.Records() then Some(store.Records()[u.id]) else None
      modifies this, store
      ensures store.Valid()
      ensures (View(), a) == Updated(old(View()), u)
    {
      if !u.entries.Kept? {
        return Refused(Invalid);
      }
      if u.entries.kept == [] {
        return Refused(NothingLeft);
      }
      var refused := ShrinkGuard(u);
      if refused {
        return Refused(Shrank);
      }
      a := TakeIt(u, stored);
    }

    method TakeIt(u: Update, stored: Option<StoredFeed>) returns (a: Answer)
      requires store.Valid() && u.entries.Kept? && u.id in KeptIds(u.rules)
      requires stored == if u.id in store.Records() then Some(store.Records()[u.id]) else None
      modifies this, store
      ensures store.Valid()
      ensures (View(), a) == Take(old(View()), u)
    {
      var next := NextRecord(View(), u);
      var changed := stored.None? || stored.value.prefixes != next.prefixes;
      if Live(u) {
        var loaded := ReplaceFeedSet(u.id, u.entries.kept, u.kernelTakes);
        if !loaded {
          return Refused(KernelRefused);
        }
      }
      var ok := store.Put(u.id, next, KeptIds(u.rules), u.diskTakes);
      if !ok {
        return NotStored;
      }
      shrink := shrink - {u.id};
      return Done(changed);
    }
  }

  // ---- one update ----

  /** Every refusal leaves the kernel's set and the file as they were. */
  lemma RefusalChangesNothing(s: Feeds, u: Update)
    requires Updated(s, u).1.Refused?
    ensures Updated(s, u).0.stored == s.stored && Updated(s, u).0.kernel == s.kernel
  {
  }

  /** Current, Staged or Backup switches the feed on. */
  predicate SwitchedOn(r: RulesState, id: FeedId) {
    id in r.current.feeds || id in r.staged.feeds || id in r.backup.feeds
  }

  /** No update loses the copy of a feed that is still switched on somewhere, and what is stored drops the others. */
  lemma KeptCopiesStay(s: Feeds, u: Update, id: FeedId)
    requires id in s.stored
    ensures SwitchedOn(u.rules, id) ==> id in Updated(s, u).0.stored
    ensures SwitchedOn(u.rules, id) && id != u.id ==> Updated(s, u).0.stored[id] == s.stored[id]
    ensures Updated(s, u).1.Done? && !SwitchedOn(u.rules, id) ==> id !in Updated(s, u).0.stored
  {
  }

  /** What a new version leaves behind once it is stored: the record, and the kernel's set where the feed is live. */
  lemma StoredMeans(s: Feeds, u: Update)
    requires !u.notModified && Updated(s, u).1.Done?
    ensures u.entries.Kept? && u.id in Updated(s, u).0.stored
    ensures var f, rec := Updated(s, u).0, Updated(s, u).0.stored[u.id];
            && rec.prefixes == u.entries.kept && rec.entries == |u.entries.kept| && rec.dropped == u.entries.dropped
            && rec.checkedAt == u.now
            && rec.changedAt == (if u.id in s.stored && s.stored[u.id].prefixes == u.entries.kept
                                 then s.stored[u.id].changedAt else u.now)
            && f.kernel == (if u.id !in u.rules.current.feeds then s.kernel
                            else s.kernel[u.id := Merged(u.entries.kept)])
            && u.id !in f.shrink
  {
  }

  /** A 304 confirms the stored copy: its check time moves, and nothing in the kernel. */
  lemma ConfirmedMeans(s: Feeds, u: Update)
    requires u.notModified
    ensures !Updated(s, u).1.Refused?
            <==> && !u.panic && !u.busy && (u.id in u.rules.current.feeds || u.id in u.rules.staged.feeds)
                 && u.id in s.stored
    ensures Updated(s, u).0.kernel == s.kernel
    ensures Updated(s, u).1.Done? ==>
              && u.id in s.stored && u.id in Updated(s, u).0.stored && u.id !in Updated(s, u).0.shrink
              && Updated(s, u).0.stored[u.id] == s.stored[u.id].(checkedAt := u.now)
  {
  }
}
