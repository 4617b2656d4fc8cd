/** The feeds beside the apply protocol: one machine whose tables bring the feed sets into the kernel. */
module FeedProtocol {
  import opened Addresses
  import opened Models
  import opened FeedUpdate
  import F = FeedTheorems
  import P = Protocol
  import ProtocolTheorems

  datatype Joint = Joint(core: P.State, feeds: F.World)

  datatype Event = Core(e: P.Event) | Feed(c: Command)

  /** Both machines before their first step. */
  ghost predicate Init(j: Joint) { P.Init(j.core) && j.feeds == F.START }

  /**
   An update reads the rules file, the panic marker and the apply slot as they are, and a set that is in no table
   cannot be flushed.
   */
  predicate Enabled(j: Joint, e: Event) {
    match e
    case Core(e) => P.Enabled(j.core, e)
    case Feed(c) =>
      && j.core.up && c.rules == RulesState(j.core.current, j.core.staged, j.core.backup)
      && c.panic == j.core.panic && c.busy == j.core.cycle.Running?
      && (c.kernelTakes ==> c.id in j.feeds.feeds.kernel)
  }

  /** ApplyWithFeeds reached its commit, in an apply, a rollback or a restore. */
  predicate Commits(s: P.State, e: P.Event) {
    && e.Step? && s.cycle.Running? && (s.cycle.pc.AWrite? || s.cycle.pc.RWrite? || s.cycle.pc.TWrite?)
    && !e.o.write.Refused?
  }

  predicate Restarts(e: P.Event) { e.Stop? || e.Kill? || e.Reboot? }

  /** What a step of the protocol that leaves `table` in the kernel does to the feed sets. */
  function Followed(nets: seq<Network>, w: F.World, table: Option<P.Table>, commits: bool, restarts: bool): F.World {
    var w' := if table.None? then F.Step(nets, w, F.ETeardown)
              else if commits then F.Step(nets, w, F.EApply(table.value.rules.feeds))
              else w;
    if restarts then F.Step(nets, w', F.ERestart) else w'
  }

  function Step(nets: seq<Network>, j: Joint, e: Event): Joint
    requires Enabled(j, e)
  {
    match e
    case Core(e) =>
      var s := P.Do(j.core, e);
      Joint(s, Followed(nets, j.feeds, s.kernel, Commits(j.core, e), Restarts(e)))
    case Feed(c) => j.(feeds := F.Step(nets, j.feeds, F.EUpdate(c)))
  }

  /** No accident so far, and no console process still about to tear the table down. */
  predicate Undisturbed(s: P.State) { s.clean && !s.overwrote && !P.TearPending(s) }

  ghost predicate Run(nets: seq<Network>, j: Joint, es: seq<Event>, j': Joint)
    decreases |es|
  {
    if es == [] then j == j' else Enabled(j, es[0]) && Run(nets, Step(nets, j, es[0]), es[1..], j')
  }

  /** Every update of the run that is not turned away at once comes in an undisturbed moment. */
  ghost predicate Calm(nets: seq<Network>, j: Joint, es: seq<Event>, j': Joint)
    requires Run(nets, j, es, j')
    decreases |es|
  {
    es == [] ||
    (&& (es[0].Feed? && !es[0].c.panic && !es[0].c.busy ==> Undisturbed(j.core))
     && Calm(nets, Step(nets, j, es[0]), es[1..], j'))
  }

  // ---- the sets in the kernel are the table's ----

  function TableFeeds(s: P.State): seq<FeedId> { if s.kernel.None? then [] else s.kernel.value.rules.feeds }

  ghost predicate SetsAreTheTables(j: Joint) { forall id :: id in j.feeds.feeds.kernel <==> id in TableFeeds(j.core) }

  /** Nothing but a commit puts a table into the kernel. */
  predicate OnlyCommits(s: P.State, e: P.Event)
    requires P.Enabled(s, e)
  {
    P.Do(s, e).kernel.None? || P.Do(s, e).kernel == s.kernel || Commits(s, e)
  }

  lemma EnforceCommits(s: P.State, o: P.Outcome)
    requires P.CanAdvance(s, o) && P.InEnforce(s.cycle.pc)
    ensures var k := P.EnforceStep(s, o).kernel; k.None? || k == s.kernel || Commits(s, P.Step(o))
  {
    match s.cycle.pc
    case AWrite => case ARecheck => case ATear => case ARecord =>
  }

  lemma RewriteCommits(s: P.State, o: P.Outcome)
    requires P.CanAdvance(s, o) && P.InRewrite(s.cycle.pc)
    ensures var k := P.RewriteStep(s, o).kernel; k.None? || k == s.kernel || Commits(s, P.Step(o))
  {
    match s.cycle.pc
    case RWrite => case RRecheck => case RTear => case RRecord =>
  }

  lemma RestoreCommits(s: P.State, o: P.Outcome)
    requires P.CanAdvance(s, o) && P.InRestore(s.cycle.pc)
    ensures var k := P.RestoreStep(s, o).kernel; k.None? || k == s.kernel || Commits(s, P.Step(o))
  {
    match s.cycle.pc
    case TWrite => case TRecheck => case TTear => case TRecord =>
  }

  lemma PrepareLoadsNothing(s: P.State, o: P.Outcome)
    requires P.CanAdvance(s, o) && P.InPrepare(s.cycle.pc)
    ensures P.PrepareStep(s, o).kernel == s.kernel
  {
    match s.cycle.pc
    case ACheck => case ARead => case ABackup => case AConfig =>
  }

  lemma PromoteLoadsNothing(s: P.State, o: P.Outcome)
    requires P.CanAdvance(s, o) && P.InPromote(s.cycle.pc)
    ensures P.PromoteStep(s, o).kernel == s.kernel
  {
    match s.cycle.pc
    case AMark => case APromote => case AReread => case AOpen =>
  }

  lemma DecideLoadsNothing(s: P.State, o: P.Outcome)
    requires P.CanAdvance(s, o) && P.InDecide(s.cycle.pc)
    ensures P.DecideStep(s, o).kernel == s.kernel
  {
    match s.cycle.pc
    case AWait => case AConfirm => case AStamp =>
  }

  lemma RevertLoadsNothing(s: P.State, o: P.Outcome)
    requires P.CanAdvance(s, o) && P.InRevert(s.cycle.pc)
    ensures P.RevertStep(s, o).kernel == s.kernel
  {
    match s.cycle.pc
    case RRevert => case RClear => case RGate =>
  }

  lemma ReclaimLoadsNothing(s: P.State, o: P.Outcome)
    requires P.CanAdvance(s, o) && P.InReclaim(s.cycle.pc)
    ensures P.ReclaimStep(s, o).kernel == s.kernel
  {
    match s.cycle.pc
    case TGate => case TRevert => case TClear => case TRead =>
  }

  lemma SlotHolderCommits(s: P.State, o: P.Outcome)
    requires P.CanAdvance(s, o)
    ensures var k := P.Advance(s, o).kernel; k.None? || k == s.kernel || Commits(s, P.Step(o))
  {
    var pc := s.cycle.pc;
    if P.InPrepare(pc) {
      PrepareLoadsNothing(s, o);
    } else if P.InPromote(pc) {
      PromoteLoadsNothing(s, o);
    } else if P.InEnforce(pc) {
      EnforceCommits(s, o);
    } else if P.InDecide(pc) {
      DecideLoadsNothing(s, o);
    } else if P.InRevert(pc) {
      RevertLoadsNothing(s, o);
    } else if P.InRewrite(pc) {
      RewriteCommits(s, o);
    } else if P.InReclaim(pc) {
      ReclaimLoadsNothing(s, o);
    } else {
      RestoreCommits(s, o);
    }
  }

  lemma OnlyCommitsLoad(s: P.State, e: P.Event)
    requires P.Enabled(s, e)
    ensures OnlyCommits(s, e)
  {
    if e.Step? {
      SlotHolderCommits(s, e.o);
    }
  }

  lemma CoreKeepsSets(nets: seq<Network>, j: Joint, e: P.Event)
    requires SetsAreTheTables(j) && P.Enabled(j.core, e)
    ensures SetsAreTheTables(Step(nets, j, Core(e)))
  {
    OnlyCommitsLoad(j.core, e);
    FollowedSets(nets, j.feeds, P.Do(j.core, e).kernel, Commits(j.core, e), Restarts(e));
  }

  lemma FollowedSets(nets: seq<Network>, w: F.World, table: Option<P.Table>, commits: bool, restarts: bool)
    ensures var k := Followed(nets, w, table, commits, restarts).feeds.kernel;
            if table.None? then k == map[]
            else if commits then forall id :: id in k <==> id in table.value.rules.feeds
            else k == w.feeds.kernel
  {
    RestartKeepsSets(nets, Followed(nets, w, table, commits, false));
  }

  lemma RestartKeepsSets(nets: seq<Network>, w: F.World)
    ensures F.Step(nets, w, F.ERestart).feeds.kernel == w.feeds.kernel
  {
  }

  lemma FeedKeepsSets(nets: seq<Network>, j: Joint, c: Command)
    requires SetsAreTheTables(j) && Enabled(j, Feed(c))
    ensures SetsAreTheTables(Step(nets, j, Feed(c)))
  {
    NoNewSets(j.feeds.feeds, Vetted(nets, c));
  }

  lemma NoNewSets(s: Feeds, u: Update)
    requires u.kernelTakes ==> u.id in s.kernel
    ensures Updated(s, u).0.kernel.Keys == s.kernel.Keys
  {
  }

  // ---- and hold what the file holds ----

  lemma CoreKeepsInStep(nets: seq<Network>, w: F.World, table: Option<P.Table>, commits: bool, restarts: bool)
    requires F.InStep(w)
    ensures F.InStep(Followed(nets, w, table, commits, restarts))
  {
  }

  lemma FeedKeepsInStep(nets: seq<Network>, j: Joint, c: Command)
    requires F.InStep(j.feeds) && SetsAreTheTables(j) && P.Reachable(j.core) && Enabled(j, Feed(c))
    requires !c.panic && !c.busy ==> Undisturbed(j.core)
    ensures F.InStep(Step(nets, j, Feed(c)).feeds)
  {
    if !c.panic && !c.busy && j.core.kernel.Some? {
      ProtocolTheorems.QuiescentAgreement(j.core);
    }
    F.UpdateKeepsInStep(j.feeds, Vetted(nets, c));
  }

  lemma {:induction false} RunKeepsSets(nets: seq<Network>, j: Joint, es: seq<Event>, j': Joint)
    requires SetsAreTheTables(j) && Run(nets, j, es, j')
    ensures SetsAreTheTables(j')
    decreases |es|
  {
    if es != [] {
      match es[0] {
        case Core(e) => CoreKeepsSets(nets, j, e);
        case Feed(c) => FeedKeepsSets(nets, j, c);
      }
      RunKeepsSets(nets, Step(nets, j, es[0]), es[1..], j');
    }
  }

  lemma {:induction false} RunKeepsInStep(nets: seq<Network>, j: Joint, es: seq<Event>, j': Joint)
    requires SetsAreTheTables(j) && F.InStep(j.feeds) && P.Reachable(j.core)
    requires Run(nets, j, es, j') && Calm(nets, j, es, j')
    ensures F.InStep(j'.feeds)
    decreases |es|
  {
    if es != [] {
      match es[0] {
        case Core(e) =>
          CoreKeepsSets(nets, j, e);
          CoreKeepsInStep(nets, j.feeds, P.Do(j.core, e).kernel, Commits(j.core, e), Restarts(e));
          ProtocolTheorems.ReachThen(j.core, e);
        case Feed(c) =>
          FeedKeepsSets(nets, j, c);
          FeedKeepsInStep(nets, j, c);
      }
      RunKeepsInStep(nets, Step(nets, j, es[0]), es[1..], j');
    }
  }

  lemma InitIsReachable(s: P.State)
    requires P.Init(s)
    ensures P.Reachable(s)
  {
    assert P.Run(s, [], s);
  }

  /** In every run, accidents included, the kernel has feed sets for exactly the feeds of the table in force. */
  lemma SetsComeWithTheTable(nets: seq<Network>, i: Joint, es: seq<Event>, j: Joint, id: FeedId)
    requires Init(i) && Run(nets, i, es, j)
    ensures id in j.feeds.feeds.kernel <==> j.core.kernel.Some? && id in j.core.kernel.value.rules.feeds
  {
    RunKeepsSets(nets, i, es, j);
  }

  /**
   Whatever applies, rollbacks, restores, panics, edits and restarts come between the updates: as long as the
   updates themselves come in undisturbed moments, the set of every feed of the table in force is the one its
   file would give, unless the disk refused the version the kernel took.
   */
  lemma SetsFollowTheFile(nets: seq<Network>, i: Joint, es: seq<Event>, j: Joint, id: FeedId)
    requires Init(i) && Run(nets, i, es, j) && Calm(nets, i, es, j)
    requires j.core.kernel.Some? && id in j.core.kernel.value.rules.feeds && id !in j.feeds.behind
    ensures id in j.feeds.feeds.kernel && j.feeds.feeds.kernel[id] == F.OnFile(j.feeds.feeds.stored, id)
  {
    InitIsReachable(i.core);
    RunKeepsSets(nets, i, es, j);
    RunKeepsInStep(nets, i, es, j);
  }
}
