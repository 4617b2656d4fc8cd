/** Nothing is confirmed by itself: every set the window authorises had somebody's answer since it opened. */
module Answers {
  import opened Protocol
  import W = AcceptanceWindow

  predicate Opens(s: State, e: Event) { e.Step? && s.cycle.Running? && s.cycle.pc.AOpen? && s.cycle.loc.on }

  /** Accepts that landed since a window was last opened. */
  function Next(s: State, n: nat, e: Event): nat {
    if Opens(s, e) then 0
    else if e.OperatorAccepts? && W.AcceptLands(s.acc, e.now) then n + 1
    else n
  }

  function Since(s: State, n: nat, es: seq<Event>): nat
    decreases |es|
  {
    if es == [] || !Enabled(s, es[0]) then n else Since(Do(s, es[0]), Next(s, n, es[0]), es[1..])
  }

  predicate InWindow(pc: Pc) { pc.AWrite? || pc.ARecheck? || pc.ATear? || pc.ARecord? || pc.AWait? }

  /** A window is open only while an apply is inside it, and is accepted only by an answer since it opened. */
  predicate Inv(s: State, n: nat) {
    && (s.acc.status.Pending? ==>
          && s.cycle.Running? && s.cycle.loc.on && InWindow(s.cycle.pc)
          && (s.cycle.pc.ARecheck? ==> s.cycle.loc.ok))
    && (s.cycle.Running? && s.cycle.loc.on && InWindow(s.cycle.pc) && s.acc.accepted ==> n > 0)
  }

  /** A step that leaves the window and the authorised sets alone, and does not enter the window. */
  predicate Quietly(s: State, s': State) {
    && (s'.acc == s.acc || s'.acc.status.RolledBack?) && s'.authorised == s.authorised
    && s'.cycle.Running? && !InWindow(s'.cycle.pc)
  }

  lemma PrepareIsQuiet(s: State, o: Outcome)
    requires CanAdvance(s, o) && InPrepare(s.cycle.pc)
    ensures Quietly(s, PrepareStep(s, o))
  {
    match s.cycle.pc
    case ACheck => case ARead => case ABackup => case AConfig =>
  }

  lemma RevertIsQuiet(s: State, o: Outcome)
    requires CanAdvance(s, o) && InRevert(s.cycle.pc)
    ensures Quietly(s, RevertStep(s, o))
  {
    match s.cycle.pc
    case RRevert => case RClear => case RGate =>
  }

  lemma RewriteIsQuiet(s: State, o: Outcome)
    requires CanAdvance(s, o) && InRewrite(s.cycle.pc)
    ensures Quietly(s, RewriteStep(s, o))
  {
    match s.cycle.pc
    case RWrite => case RRecheck => case RTear => case RRecord =>
  }

  lemma ReclaimIsQuiet(s: State, o: Outcome)
    requires CanAdvance(s, o) && InReclaim(s.cycle.pc)
    ensures Quietly(s, ReclaimStep(s, o))
  {
    match s.cycle.pc
    case TGate => case TRevert => case TClear => case TRead =>
  }

  lemma RestoreIsQuiet(s: State, o: Outcome)
    requires CanAdvance(s, o) && InRestore(s.cycle.pc)
    ensures Quietly(s, RestoreStep(s, o))
  {
    match s.cycle.pc
    case TWrite => case TRecheck => case TTear => case TRecord =>
  }

  lemma KeepPromote(s: State, n: nat, o: Outcome)
    requires Inv(s, n) && CanAdvance(s, o) && InPromote(s.cycle.pc)
    ensures Inv(PromoteStep(s, o), Next(s, n, Step(o)))
  {
    match s.cycle.pc
    case AMark => case APromote => case AReread => case AOpen =>
  }

  lemma KeepEnforce(s: State, n: nat, o: Outcome)
    requires Inv(s, n) && CanAdvance(s, o) && InEnforce(s.cycle.pc)
    ensures Inv(EnforceStep(s, o), n)
  {
    match s.cycle.pc
    case AWrite => case ARecheck => case ATear => case ARecord =>
  }

  lemma KeepDecide(s: State, n: nat, o: Outcome)
    requires Inv(s, n) && CanAdvance(s, o) && InDecide(s.cycle.pc)
    ensures Inv(DecideStep(s, o), n)
  {
    match s.cycle.pc
    case AWait => case AConfirm => case AStamp =>
  }

  predicate InQuiet(pc: Pc) { !InPromote(pc) && !InEnforce(pc) && !InDecide(pc) }

  lemma QuietStep(s: State, o: Outcome)
    requires CanAdvance(s, o) && InQuiet(s.cycle.pc)
    ensures Quietly(s, Advance(s, o))
  {
    var pc := s.cycle.pc;
    if InPrepare(pc) {
      PrepareIsQuiet(s, o);
    } else if InRevert(pc) {
      RevertIsQuiet(s, o);
    } else if InRewrite(pc) {
      RewriteIsQuiet(s, o);
    } else if InReclaim(pc) {
      ReclaimIsQuiet(s, o);
    } else {
      RestoreIsQuiet(s, o);
    }
  }

  lemma KeepStep(s: State, n: nat, o: Outcome)
    requires Inv(s, n) && CanAdvance(s, o)
    ensures Inv(Advance(s, o), Next(s, n, Step(o)))
  {
    var pc := s.cycle.pc;
    if InQuiet(pc) {
      QuietStep(s, o);
      KeepQuiet(s, Advance(s, o), n);
    } else if InPromote(pc) {
      KeepPromote(s, n, o);
    } else if InEnforce(pc) {
      KeepEnforce(s, n, o);
    } else {
      KeepDecide(s, n, o);
    }
  }

  lemma KeepQuiet(s: State, s': State, n: nat)
    requires Inv(s, n) && Quietly(s, s') && s.cycle.Running? && InQuiet(s.cycle.pc)
    ensures Inv(s', n)
  {
  }

  lemma Keep(s: State, n: nat, e: Event)
    requires Inv(s, n) && Enabled(s, e)
    ensures Inv(Do(s, e), Next(s, n, e))
  {
    if e.Step? {
      KeepStep(s, n, e.o);
    }
  }

  lemma {:induction false} KeepRun(s: State, n: nat, es: seq<Event>, s': State)
    requires Inv(s, n) && Run(s, es, s')
    ensures Inv(s', Since(s, n, es))
    decreases |es|
  {
    if es != [] {
      Keep(s, n, es[0]);
      KeepRun(Do(s, es[0]), Next(s, n, es[0]), es[1..], s');
    }
  }

  /** So no window is open while nobody holds the apply slot. */
  lemma NoWindowBetweenCycles(s: State)
    requires Reachable(s) && s.cycle.NoCycle?
    ensures !s.acc.status.Pending?
  {
    var i, es :| Init(i) && Run(i, es, s);
    KeepRun(i, 0, es, s);
  }

  /** What one step of the slot's holder may authorise. */
  predicate Authorises(s: State, s': State) {
    && s.cycle.Running?
    && (|| s'.authorised == s.authorised
        || (s.cycle.pc.APromote? && !s.cycle.loc.on && s'.authorised == s.authorised + {s.staged})
        || (s.cycle.pc.AWait? && s.cycle.loc.on && s.acc.accepted && s'.authorised == s.authorised + {s.current}))
  }

  lemma PromoteAuthorises(s: State, o: Outcome)
    requires CanAdvance(s, o) && InPromote(s.cycle.pc)
    ensures Authorises(s, PromoteStep(s, o))
  {
    match s.cycle.pc
    case AMark => case APromote => case AReread => case AOpen =>
  }

  lemma EnforceAuthorises(s: State, o: Outcome)
    requires CanAdvance(s, o) && InEnforce(s.cycle.pc)
    ensures Authorises(s, EnforceStep(s, o))
  {
    match s.cycle.pc
    case AWrite => case ARecheck => case ATear => case ARecord =>
  }

  lemma DecideAuthorises(s: State, o: Outcome)
    requires CanAdvance(s, o) && InDecide(s.cycle.pc)
    ensures Authorises(s, DecideStep(s, o))
  {
    match s.cycle.pc
    case AWait => case AConfirm => case AStamp =>
  }

  lemma OnlyTwoStepsAuthorise(s: State, o: Outcome)
    requires CanAdvance(s, o)
    ensures Authorises(s, Advance(s, o))
  {
    var pc := s.cycle.pc;
    if InQuiet(pc) {
      QuietStep(s, o);
    } else if InPromote(pc) {
      PromoteAuthorises(s, o);
    } else if InEnforce(pc) {
      EnforceAuthorises(s, o);
    } else {
      DecideAuthorises(s, o);
    }
  }

  /**
   In every run, a set becomes authorised by being promoted with the window off, or by standing as Current when
   the wait ends on at least one accept that landed since its own window opened.
   */
  lemma EveryConfirmationWasAnswered(i: State, es: seq<Event>, s: State, e: Event)
    requires Init(i) && Run(i, es, s) && Enabled(s, e) && Do(s, e).authorised != s.authorised
    ensures e.Step? && s.cycle.Running?
    ensures s.cycle.loc.on ==> (
              s.cycle.pc.AWait? && Since(i, 0, es) > 0 && Do(s, e).authorised == s.authorised + {s.current})
    ensures !s.cycle.loc.on ==> s.cycle.pc.APromote? && Do(s, e).authorised == s.authorised + {s.staged}
  {
    KeepRun(i, 0, es, s);
    if e.Step? {
      OnlyTwoStepsAuthorise(s, e.o);
    }
  }
}
