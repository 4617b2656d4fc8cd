/** What the invariants mean for an operator, and exactly where the promises stop. */
module ProtocolTheorems {
  import opened Addresses
  import W = AcceptanceWindow
  import opened Protocol
  import opened ProtocolSafety

  /**
   Crash-safe acceptance: however the core was interrupted, what a restart would enforce is the
   initial set, a set confirmed in its window, or one applied with the window off.
   */
  lemma CrashSafe(s: State)
    requires Reachable(s) && !s.overwrote
    ensures s.marker.None? ==> s.current in s.authorised
    ensures s.marker.Some? ==> s.backup in s.authorised
  {
    ReachableKeeps(s);
  }

  /** So nothing a boot, resume, Docker or rollback write puts into the kernel is unauthorised. */
  lemma WritesBackOnlyAuthorised(s: State, o: Outcome)
    requires Reachable(s) && !s.overwrote && CanAdvance(s, o) && (s.cycle.pc.RWrite? || s.cycle.pc.TWrite?)
    ensures var k := Advance(s, o).kernel; k.None? || k == s.kernel || k.value.rules in s.authorised
  {
    ReachableKeeps(s);
  }

  /**
   The one hole: BackupCurrent does not look for a left-over marker. It keeps the promise exactly
   when there is none, or the set it copies was authorised after all.
   */
  lemma BackupKeepsThePromiseIff(s: State, o: Outcome)
    requires Reachable(s) && !s.overwrote && CanAdvance(s, o) && s.cycle.pc.ABackup?
    ensures RestartSafe(Disk(Advance(s, o))) <==> s.marker.None? || s.current in s.authorised
  {
    ReachableKeeps(s);
  }

  /** What the files alone show to be enough: no marker, or a Current that is still Backup. */
  lemma BackupKeepsThePromise(s: State, o: Outcome)
    requires Reachable(s) && !s.overwrote && CanAdvance(s, o) && s.cycle.pc.ABackup?
    requires s.marker.None? || s.current == s.backup
    ensures RestartSafe(Disk(Advance(s, o)))
  {
    ReachableKeeps(s);
  }

  /** Panic wins: rules under the panic marker are about to be torn down, unless whoever owed that was killed. */
  lemma PanicWins(s: State)
    requires Reachable(s)
    ensures s.panic && s.kernel.Some? ==> Pending(s) || s.orphan
    ensures !Pending(s) ==> (s.panic && s.kernel.Some? <==> s.orphan)
  {
    ReachableKeeps(s);
  }

  /** The holder of the slot leaves Staged alone and makes no orphan. */
  predicate ChangesNeither(s: State, s': State) { s'.staged == s.staged && (s'.orphan ==> s.orphan) }

  lemma PrepareChangesNeither(s: State, o: Outcome)
    requires CanAdvance(s, o) && InPrepare(s.cycle.pc)
    ensures ChangesNeither(s, PrepareStep(s, o))
  {
    match s.cycle.pc
    case ACheck => case ARead => case ABackup => case AConfig =>
  }

  lemma PromoteChangesNeither(s: State, o: Outcome)
    requires CanAdvance(s, o) && InPromote(s.cycle.pc)
    ensures ChangesNeither(s, PromoteStep(s, o))
  {
    match s.cycle.pc
    case AMark => case APromote => case AReread => case AOpen =>
  }

  lemma EnforceChangesNeither(s: State, o: Outcome)
    requires CanAdvance(s, o) && InEnforce(s.cycle.pc)
    ensures ChangesNeither(s, EnforceStep(s, o))
  {
    match s.cycle.pc
    case AWrite => case ARecheck => case ATear => case ARecord =>
  }

  lemma DecideChangesNeither(s: State, o: Outcome)
    requires CanAdvance(s, o) && InDecide(s.cycle.pc)
    ensures ChangesNeither(s, DecideStep(s, o))
  {
    match s.cycle.pc
    case AWait => case AConfirm => case AStamp =>
  }

  lemma RevertChangesNeither(s: State, o: Outcome)
    requires CanAdvance(s, o) && InRevert(s.cycle.pc)
    ensures ChangesNeither(s, RevertStep(s, o))
  {
    match s.cycle.pc
    case RRevert => case RClear => case RGate =>
  }

  lemma RewriteChangesNeither(s: State, o: Outcome)
    requires CanAdvance(s, o) && InRewrite(s.cycle.pc)
    ensures ChangesNeither(s, RewriteStep(s, o))
  {
    match s.cycle.pc
    case RWrite => case RRecheck => case RTear => case RRecord =>
  }

  lemma ReclaimChangesNeither(s: State, o: Outcome)
    requires CanAdvance(s, o) && InReclaim(s.cycle.pc)
    ensures ChangesNeither(s, ReclaimStep(s, o))
  {
    match s.cycle.pc
    case TGate => case TRevert => case TClear => case TRead =>
  }

  lemma RestoreChangesNeither(s: State, o: Outcome)
    requires CanAdvance(s, o) && InRestore(s.cycle.pc)
    ensures ChangesNeither(s, RestoreStep(s, o))
  {
    match s.cycle.pc
    case TWrite => case TRecheck => case TTear => case TRecord =>
  }

  lemma SlotHolderChangesNeither(s: State, o: Outcome)
    requires CanAdvance(s, o)
    ensures ChangesNeither(s, Advance(s, o))
  {
    var pc := s.cycle.pc;
    if InPrepare(pc) {
      PrepareChangesNeither(s, o);
    } else if InPromote(pc) {
      PromoteChangesNeither(s, o);
    } else if InEnforce(pc) {
      EnforceChangesNeither(s, o);
    } else if InDecide(pc) {
      DecideChangesNeither(s, o);
    } else if InRevert(pc) {
      RevertChangesNeither(s, o);
    } else if InRewrite(pc) {
      RewriteChangesNeither(s, o);
    } else if InReclaim(pc) {
      ReclaimChangesNeither(s, o);
    } else {
      RestoreChangesNeither(s, o);
    }
  }

  /** ... and only a death outside a reboot makes an orphan. */
  lemma {:induction false} OrphansNeedADeath(s: State, es: seq<Event>, s': State)
    requires !s.orphan && Run(s, es, s')
    requires forall i :: 0 <= i < |es| ==> !es[i].Kill? && !es[i].ConsoleDies?
    ensures !s'.orphan
    decreases |es|
  {
    if es != [] {
      assert !es[0].Kill? && !es[0].ConsoleDies?;
      if es[0].Step? {
        SlotHolderChangesNeither(s, es[0].o);
      }
      OrphansNeedADeath(Do(s, es[0]), es[1..], s');
    }
  }

  /** Whenever nothing is running, a table in force is the one built from Current and applied-config.json. */
  lemma QuiescentAgreement(s: State)
    requires Reachable(s) && s.clean && !s.overwrote
    requires s.cycle.NoCycle? && !TearPending(s) && s.kernel.Some?
    ensures s.applied.Some? && s.kernel.value == Table(s.current, s.applied.value)
    ensures s.marker.None? && s.kernel.value.rules in s.authorised
  {
    ReachableKeeps(s);
  }

  /**
   Exact undo: an apply that ended unconfirmed with nobody engaging panic mode put Current back. The kernel is
   as it was exactly when a table was in force or nothing was ever configured. The record is as it was exactly
   when there was one and, where nothing was ever configured, it was the saved configuration `used`.
   */
  lemma ExactUndo(s: State)
    requires Reachable(s) && s.clean && !s.overwrote
    requires s.cycle.Running? && s.cycle.pc.RDone? && s.cycle.start.calm
    ensures s.current == s.cycle.start.current
    ensures s.cycle.start.kernel.Some? ==> s.applied == s.cycle.start.applied
    ensures s.kernel == s.cycle.start.kernel
            <==> s.cycle.start.kernel.Some? || !EverConfigured(s, s.cycle.start.current)
    ensures s.applied == Some(s.cycle.loc.used)
    ensures s.applied == s.cycle.start.applied
            <==> s.cycle.start.applied.Some?
                 && (EverConfigured(s, s.cycle.start.current) || s.cycle.start.applied.value == s.cycle.loc.used)
  {
    ReachableKeeps(s);
  }

  lemma OnlyEditsChangeStaged(s: State, e: Event)
    requires Enabled(s, e) && !e.SaveStaged?
    ensures Do(s, e).staged == s.staged
  {
    if e.Step? {
      SlotHolderChangesNeither(s, e.o);
    }
  }

  /** The workbench: nothing but SaveStaged and ImportRules ever changes Staged. */
  lemma {:induction false} StagedIsTheOperators(s: State, es: seq<Event>, s': State)
    requires Run(s, es, s') && forall i :: 0 <= i < |es| ==> !es[i].SaveStaged?
    ensures s'.staged == s.staged
    decreases |es|
  {
    if es != [] {
      assert !es[0].SaveStaged?;
      OnlyEditsChangeStaged(s, es[0]);
      StagedIsTheOperators(Do(s, es[0]), es[1..], s');
    }
  }

  // ---- the runs that show the edges are real ----

  lemma {:induction false} RunThen(s: State, es: seq<Event>, s': State, e: Event)
    requires Run(s, es, s') && Enabled(s', e)
    ensures Run(s, es + [e], Do(s', e))
    decreases |es|
  {
    if es == [] {
      assert [e][1..] == [];
    } else {
      RunThen(Do(s, es[0]), es[1..], s', e);
      assert (es + [e])[1..] == es[1..] + [e];
    }
  }

  lemma ReachThen(s: State, e: Event)
    requires Reachable(s) && Enabled(s, e)
    ensures Reachable(Do(s, e))
  {
    var i, es :| Init(i) && Run(i, es, s);
    RunThen(i, es, s, e);
  }

  // One step of each phase.

  lemma ReachAdvance(s: State, o: Outcome)
    requires Reachable(s) && CanAdvance(s, o)
    ensures Reachable(Advance(s, o))
  {
    ReachThen(s, Step(o));
  }

  lemma ReachPrepare(s: State, o: Outcome)
    requires Reachable(s) && CanAdvance(s, o) && InPrepare(s.cycle.pc)
    ensures Reachable(PrepareStep(s, o))
  {
    ReachAdvance(s, o);
    PrepareIsNext(s, o);
  }

  lemma PrepareIsNext(s: State, o: Outcome)
    requires CanAdvance(s, o) && InPrepare(s.cycle.pc)
    ensures Advance(s, o) == PrepareStep(s, o)
  {
  }

  lemma ReachPromote(s: State, o: Outcome)
    requires Reachable(s) && CanAdvance(s, o) && InPromote(s.cycle.pc)
    ensures Reachable(PromoteStep(s, o))
  {
    ReachAdvance(s, o);
    PromoteIsNext(s, o);
  }

  lemma PromoteIsNext(s: State, o: Outcome)
    requires CanAdvance(s, o) && InPromote(s.cycle.pc)
    ensures Advance(s, o) == PromoteStep(s, o)
  {
  }

  lemma ReachEnforce(s: State, o: Outcome)
    requires Reachable(s) && CanAdvance(s, o) && InEnforce(s.cycle.pc)
    ensures Reachable(EnforceStep(s, o))
  {
    ReachAdvance(s, o);
    EnforceIsNext(s, o);
  }

  lemma EnforceIsNext(s: State, o: Outcome)
    requires CanAdvance(s, o) && InEnforce(s.cycle.pc)
    ensures Advance(s, o) == EnforceStep(s, o)
  {
  }

  lemma ReachDecide(s: State, o: Outcome)
    requires Reachable(s) && CanAdvance(s, o) && InDecide(s.cycle.pc)
    ensures Reachable(DecideStep(s, o))
  {
    ReachAdvance(s, o);
    DecideIsNext(s, o);
  }

  lemma DecideIsNext(s: State, o: Outcome)
    requires CanAdvance(s, o) && InDecide(s.cycle.pc)
    ensures Advance(s, o) == DecideStep(s, o)
  {
  }

  lemma ReachRevert(s: State, o: Outcome)
    requires Reachable(s) && CanAdvance(s, o) && InRevert(s.cycle.pc)
    ensures Reachable(RevertStep(s, o))
  {
    ReachAdvance(s, o);
    RevertIsNext(s, o);
  }

  lemma RevertIsNext(s: State, o: Outcome)
    requires CanAdvance(s, o) && InRevert(s.cycle.pc)
    ensures Advance(s, o) == RevertStep(s, o)
  {
  }

  lemma ReachRewrite(s: State, o: Outcome)
    requires Reachable(s) && CanAdvance(s, o) && InRewrite(s.cycle.pc)
    ensures Reachable(RewriteStep(s, o))
  {
    ReachAdvance(s, o);
    RewriteIsNext(s, o);
  }

  lemma RewriteIsNext(s: State, o: Outcome)
    requires CanAdvance(s, o) && InRewrite(s.cycle.pc)
    ensures Advance(s, o) == RewriteStep(s, o)
  {
  }

  lemma ReachReclaim(s: State, o: Outcome)
    requires Reachable(s) && CanAdvance(s, o) && InReclaim(s.cycle.pc)
    ensures Reachable(ReclaimStep(s, o))
  {
    ReachAdvance(s, o);
    ReclaimIsNext(s, o);
  }

  lemma ReclaimIsNext(s: State, o: Outcome)
    requires CanAdvance(s, o) && InReclaim(s.cycle.pc)
    ensures Advance(s, o) == ReclaimStep(s, o)
  {
  }

  lemma RestoreIsNext(s: State, o: Outcome)
    requires CanAdvance(s, o) && InRestore(s.cycle.pc)
    ensures Advance(s, o) == RestoreStep(s, o)
  {
  }

  // The same set of states as a least closed set: what an object that is one state of a run keeps about itself.

  /** Holds the initial states and everything one step leads to. */
  ghost predicate Closed(p: iset<State>) {
    (forall i :: Init(i) ==> i in p) && (forall s, e :: s in p && Enabled(s, e) ==> Do(s, e) in p)
  }

  ghost predicate Reached(s: State) { forall p: iset<State> :: Closed(p) ==> s in p }

  lemma ReachedIsReachable(s: State)
    requires Reached(s)
    ensures Reachable(s)
  {
    var p := iset x: State | Reachable(x);
    forall i | Init(i) ensures i in p {
      assert Run(i, [], i);
    }
    forall x, e | x in p && Enabled(x, e) ensures Do(x, e) in p {
      ReachThen(x, e);
    }
    assert Closed(p);
  }

  lemma {:induction false} RunStaysIn(p: iset<State>, s: State, es: seq<Event>, s': State)
    requires Closed(p) && s in p && Run(s, es, s')
    ensures s' in p
    decreases |es|
  {
    if es != [] {
      RunStaysIn(p, Do(s, es[0]), es[1..], s');
    }
  }

  lemma ReachableIsReached(s: State)
    requires Reachable(s)
    ensures Reached(s)
  {
    var i, es :| Init(i) && Run(i, es, s);
    forall p: iset<State> | Closed(p) ensures s in p {
      RunStaysIn(p, i, es, s);
    }
  }

  lemma ReachedThen(s: State, e: Event)
    requires Reached(s) && Enabled(s, e)
    ensures Reached(Do(s, e))
  {
    ReachedIsReachable(s);
    ReachThen(s, e);
    ReachableIsReached(Do(s, e));
  }

  const OK := Outcome(Wrote, 0, 0, false)

  // One step of a phase, with nothing going wrong.

  lemma GoPrepare(s: State) returns (s': State)
    requires Reachable(s) && CanAdvance(s, OK) && InPrepare(s.cycle.pc)
    ensures s' == PrepareStep(s, OK) && Reachable(s')
  {
    ReachPrepare(s, OK);
    s' := PrepareStep(s, OK);
  }

  lemma GoPromote(s: State) returns (s': State)
    requires Reachable(s) && CanAdvance(s, OK) && InPromote(s.cycle.pc)
    ensures s' == PromoteStep(s, OK) && Reachable(s')
  {
    ReachPromote(s, OK);
    s' := PromoteStep(s, OK);
  }

  lemma GoEnforce(s: State) returns (s': State)
    requires Reachable(s) && CanAdvance(s, OK) && InEnforce(s.cycle.pc)
    ensures s' == EnforceStep(s, OK) && Reachable(s')
  {
    ReachEnforce(s, OK);
    s' := EnforceStep(s, OK);
  }

  lemma GoRevert(s: State) returns (s': State)
    requires Reachable(s) && CanAdvance(s, OK) && InRevert(s.cycle.pc)
    ensures s' == RevertStep(s, OK) && Reachable(s')
  {
    ReachRevert(s, OK);
    s' := RevertStep(s, OK);
  }

  lemma GoRewrite(s: State) returns (s': State)
    requires Reachable(s) && CanAdvance(s, OK) && InRewrite(s.cycle.pc)
    ensures s' == RewriteStep(s, OK) && Reachable(s')
  {
    ReachRewrite(s, OK);
    s' := RewriteStep(s, OK);
  }

  lemma GoReclaim(s: State) returns (s': State)
    requires Reachable(s) && CanAdvance(s, OK) && InReclaim(s.cycle.pc)
    ensures s' == ReclaimStep(s, OK) && Reachable(s')
  {
    ReachReclaim(s, OK);
    s' := ReclaimStep(s, OK);
  }

  lemma After(s: State, e: Event) returns (s': State)
    requires Reachable(s) && Enabled(s, e)
    ensures s' == Do(s, e) && Reachable(s')
  {
    ReachThen(s, e);
    s' := Do(s, e);
  }

  /** From any fresh start, an apply with the window on reaches its marker with the old set in Backup. */
  lemma ApplyUntilMark(i: State) returns (s: State)
    requires Init(i) && i.windowOn && !i.panic
    ensures Reachable(s) && s.up && s.cycle.Running? && s.cycle.pc.AMark?
    ensures s == i.(up := true, cycle := s.cycle, backup := i.current)
    ensures s.cycle.loc.on && s.cycle.loc.previous == i.current && s.cycle.loc.opts == i.cfg
    ensures s.cycle.loc.before == i.applied
    ensures s.cycle.start == Start(i.kernel, i.current, i.applied, true)
  {
    assert Run(i, [], i);
    s := After(i, Boot);
    s := After(s, BeginApply);
    s := GoPrepare(s);
    s := GoPrepare(s);
    s := GoPrepare(s);
    s := GoPrepare(s);
  }

  /** ... and then the promotion. */
  lemma ApplyUntilPromoted(i: State) returns (s: State)
    requires Init(i) && i.windowOn && !i.panic
    ensures Reachable(s) && s.up && s.cycle.Running? && s.cycle.pc.AReread?
    ensures s == i.(up := true, cycle := s.cycle, backup := i.current, current := i.staged, marker := Some(i.applied))
    ensures s.cycle.loc.on && s.cycle.loc.previous == i.current && s.cycle.loc.opts == i.cfg
    ensures s.cycle.loc.before == i.applied
    ensures s.cycle.start == Start(i.kernel, i.current, i.applied, true)
  {
    s := ApplyUntilMark(i);
    s := GoPromote(s);
    s := GoPromote(s);
  }

  /** The power is cut and the console panics. */
  lemma CutAndPanic(s: State) returns (t: State)
    requires Reachable(s)
    ensures Reachable(t) && t == Cut(s)
  {
    t := After(s, Reboot);
    t := After(t, ConsoleMark);
    t := After(t, ConsoleTear);
  }

  function Cut(s: State): State {
    s.(panic := true, kernel := None, up := false, cycle := NoCycle, acc := W.FRESH, console := Quiet, teardowns := 0,
       orphan := false)
  }

  /** ... and the core boots into panic mode: nothing is reverted. */
  lemma CrashUnderPanic(s: State) returns (t: State)
    requires Reachable(s)
    ensures Reachable(t) && t == Cut(s).(up := true)
  {
    t := CutAndPanic(s);
    t := After(t, Boot);
    t := After(t, BeginRestore(false));
    t := GoReclaim(t);
    t := After(t, Finish);
  }

  /** ... and an apply that wins the slot from the restore of a resume stands before its backup. */
  lemma ApplyAfterTheCut(s: State) returns (t: State)
    requires Reachable(s)
    ensures Reachable(t) && CanAdvance(t, OK) && t == AtBackup(s)
  {
    t := CrashUnderPanic(s);
    t := After(t, ResumeClear);
    t := After(t, BeginApply);
    t := GoPrepare(t);
    t := GoPrepare(t);
  }

  function AtBackup(s: State): State {
    var c := Cut(s).(up := true, panic := false, console := ResumeCleared);
    c.(cycle := Running(ABackup, Begun(c, ABackup, true, false).loc, Begun(c, ABackup, true, false).start))
  }

  /**
   Every fresh start whose staged set differs leads to this: a power cut inside the window, `panic` at
   the console, a boot that therefore reverts nothing, a resume - and an apply that wins the slot from
   its restore. Backup is then a set nobody confirmed, under the marker that makes a restart enforce it.
   */
  lemma ApplyOverAMarkerLosesTheConfirmedSet(i: State) returns (s: State)
    requires Init(i) && i.windowOn && !i.panic && i.staged != i.current
    ensures Reachable(s) && s.marker.Some? && s.backup !in s.authorised
  {
    s := ApplyUntilPromoted(i);
    s := ApplyAfterTheCut(s);
    s := GoPrepare(s);
  }

  /** The operator answers in time, and the core dies before it removes the marker. */
  lemma ConfirmedUnderItsMarker(w: State) returns (s: State)
    requires Reachable(w) && w.up && w.cycle.Running? && w.cycle.pc.AWait? && w.cycle.loc.on
    requires w.acc.status.Pending? && !w.acc.cancelled
    ensures Reachable(s) && s == w.(cycle := s.cycle, acc := s.acc, authorised := w.authorised + {w.current})
  {
    s := After(w, OperatorAccepts(w.acc.deadline - 1));
    ReachDecide(s, OK);
    s := DecideStep(s, OK);
  }

  /**
   No file tells the two apart: the same disk, kernel and program counter stand before a backup that loses the
   confirmed set and before one that copies a set confirmed a moment before the core died.
   */
  lemma NoFileTellsThemApart(i: State) returns (a: State, b: State)
    requires Init(i) && i.windowOn && !i.panic && i.staged != i.current
    ensures Reachable(a) && Reachable(b) && a.cycle.Running? && a.cycle.pc.ABackup?
    ensures a == b.(authorised := a.authorised)
    ensures a.current in a.authorised && b.current !in b.authorised
  {
    var w := ApplyUntilPromoted(i);
    w := ApplyUntilWrite(w);
    w := ApplyUntilWaiting(w);
    b := ApplyAfterTheCut(w);
    a := ConfirmedUnderItsMarker(w);
    a := ApplyAfterTheCut(a);
  }

  /** From the promote to the moment before the kernel write, the window open. */
  lemma ApplyUntilWrite(p: State) returns (s: State)
    requires Reachable(p) && p.up && p.cycle.Running? && p.cycle.pc.AReread? && p.cycle.loc.on
    ensures Reachable(s) && s.up && s.cycle.Running? && s.cycle.pc.AWrite?
    ensures s == p.(cycle := s.cycle, acc := s.acc)
    ensures s.cycle.loc == p.cycle.loc.(updated := p.current) && s.cycle.start == p.cycle.start
    ensures s.acc == W.Started(p.acc, OK.length, OK.now)
  {
    s := GoPromote(p);
    s := GoPromote(s);
  }

  /** A whole console panic lands just before the kernel write. */
  lemma PanicBeforeTheWrite(w: State) returns (s: State)
    requires Reachable(w) && w.up && w.cycle.Running? && w.cycle.pc.AWrite? && w.teardowns == 0
    ensures Reachable(s) && s == w.(panic := true, cycle := Disturbed(w.cycle), kernel := None, orphan := false)
  {
    s := After(w, ConsoleMark);
    s := After(s, ConsoleTear);
  }

  /** A core killed between a kernel write and the re-check after it leaves rules in force under the panic marker. */
  lemma KilledBeforeTheRecheck(i: State) returns (s: State)
    requires Init(i) && i.windowOn && !i.panic
    ensures Reachable(s) && s.panic && s.kernel.Some? && !Pending(s) && s.cycle.NoCycle?
  {
    s := ApplyUntilPromoted(i);
    s := ApplyUntilWrite(s);
    s := PanicBeforeTheWrite(s);
    s := GoEnforce(s);
    s := After(s, Kill);
  }

  /** The kernel takes the table and the window waits over it. */
  lemma ApplyUntilWaiting(w: State) returns (s: State)
    requires Reachable(w) && w.up && w.cycle.Running? && w.cycle.pc.AWrite? && !w.panic
    ensures Reachable(s) && s.cycle.Running? && s.cycle.pc.AWait?
    ensures s == w.(cycle := s.cycle, kernel := s.kernel, applied := Some(w.cycle.loc.opts))
    ensures s.cycle.loc == w.cycle.loc.(ok := true) && s.cycle.start == w.cycle.start
  {
    s := GoEnforce(w);
    s := GoEnforce(s);
    s := GoEnforce(s);
  }

  /** The window runs out and the files are put back. */
  lemma TimesOut(w: State) returns (s: State)
    requires Reachable(w) && w.up && w.cycle.Running? && w.cycle.pc.AWait? && w.cycle.loc.on && !w.acc.accepted
    requires !w.panic
    ensures Reachable(s) && s.cycle.Running? && s.cycle.pc.RWrite?
    ensures s == w.(cycle := s.cycle, acc := s.acc, current := w.backup, marker := None)
    ensures s.cycle.loc == w.cycle.loc && s.cycle.start == w.cycle.start
  {
    var late := Outcome(Wrote, w.acc.deadline, 0, false);
    ReachThen(w, Step(late));
    s := DecideStep(w, late);
    s := GoRevert(s);
    s := GoRevert(s);
    s := GoRevert(s);
  }

  /** The first apply ever made, timed out: the table is gone again, but a configuration is now on record. */
  lemma FirstApplyLeavesARecord(i: State) returns (s: State)
    requires Init(i) && i.windowOn && !i.panic && i.current.IsEmpty() && !i.stamped && i.applied.None?
    ensures Reachable(s) && s.cycle.Running? && s.cycle.pc.RDone? && s.clean && s.cycle.start.calm
    ensures s.kernel == s.cycle.start.kernel && s.current == s.cycle.start.current
    ensures s.cycle.start.applied.None? && s.applied == Some(i.cfg)
  {
    s := ApplyUntilPromoted(i);
    s := ApplyUntilWrite(s);
    s := ApplyUntilWaiting(s);
    s := TimesOut(s);
    s := GoRewrite(s);
    s := GoRewrite(s);
    s := GoRewrite(s);
  }
}
