/** Kernel, rules and record agree again after any accident, with the next write that gets as far as its record. */
module Reagreement {
  import opened Addresses
  import opened Models
  import opened Protocol
  import opened ProtocolSafety

  predicate WrittenRules(s: State, t: Table) { Only(s.kernel, t) && (s.kernel.Some? ==> Configured(Disk(s), t.rules)) }

  /** What the holder of the slot wrote is what the kernel holds, or nothing is; nobody else puts a table there. */
  predicate Written(s: State) {
    s.cycle.Running? ==>
      var l := s.cycle.loc;
      match s.cycle.pc
      case ARecheck => l.ok ==> Only(s.kernel, Table(l.updated, l.opts))
      case ARecord => Only(s.kernel, Table(l.updated, l.opts))
      case AWait => Only(s.kernel, Table(l.updated, l.opts)) && s.applied == Some(l.opts)
      case AConfirm => Only(s.kernel, Table(l.updated, l.opts)) && s.applied == Some(l.opts)
      case AStamp => Only(s.kernel, Table(l.updated, l.opts)) && s.applied == Some(l.opts)
      case RRecheck => l.ok ==> WrittenRules(s, Table(l.previous, l.used))
      case RRecord => WrittenRules(s, Table(l.previous, l.used))
      case TWrite => Configured(Disk(s), l.previous)
      case TRecheck => l.ok ==> WrittenRules(s, Table(l.previous, l.used))
      case TRecord => WrittenRules(s, Table(l.previous, l.used))
      case _ => true
  }

  lemma PrepareKeeps(s: State, o: Outcome)
    requires Written(s) && CanAdvance(s, o) && InPrepare(s.cycle.pc)
    ensures Written(PrepareStep(s, o))
  {
    match s.cycle.pc
    case ACheck => case ARead => case ABackup => case AConfig =>
  }

  lemma PromoteKeeps(s: State, o: Outcome)
    requires Written(s) && CanAdvance(s, o) && InPromote(s.cycle.pc)
    ensures Written(PromoteStep(s, o))
  {
    match s.cycle.pc
    case AMark => case APromote => case AReread => case AOpen =>
  }

  lemma EnforceKeeps(s: State, o: Outcome)
    requires Written(s) && CanAdvance(s, o) && InEnforce(s.cycle.pc)
    ensures Written(EnforceStep(s, o))
  {
    match s.cycle.pc
    case AWrite => case ARecheck => case ATear => case ARecord =>
  }

  lemma DecideKeeps(s: State, o: Outcome)
    requires Written(s) && CanAdvance(s, o) && InDecide(s.cycle.pc)
    ensures Written(DecideStep(s, o))
  {
    if s.cycle.pc.AWait? {
      WaitKeeps(s, o);
    } else {
      match s.cycle.pc
      case AConfirm => case AStamp =>
    }
  }

  lemma WaitKeeps(s: State, o: Outcome)
    requires Written(s) && CanAdvance(s, o) && s.cycle.pc.AWait?
    ensures Written(DecideStep(s, o))
  {
    if !s.cycle.loc.on { } else if s.acc.accepted { } else { }
  }

  lemma RevertKeeps(s: State, o: Outcome)
    requires Written(s) && CanAdvance(s, o) && InRevert(s.cycle.pc)
    ensures Written(RevertStep(s, o))
  {
    match s.cycle.pc
    case RRevert => case RClear => case RGate =>
  }

  lemma RewriteKeeps(s: State, o: Outcome)
    requires Written(s) && CanAdvance(s, o) && InRewrite(s.cycle.pc)
    ensures Written(RewriteStep(s, o))
  {
    match s.cycle.pc
    case RWrite => case RRecheck => case RTear => case RRecord =>
  }

  lemma ReclaimKeeps(s: State, o: Outcome)
    requires Written(s) && CanAdvance(s, o) && InReclaim(s.cycle.pc)
    ensures Written(ReclaimStep(s, o))
  {
    if s.cycle.pc.TRead? {
      ReadKeeps(s, o);
    } else {
      match s.cycle.pc
      case TGate => case TRevert => case TClear =>
    }
  }

  lemma ReadKeeps(s: State, o: Outcome)
    requires Written(s) && CanAdvance(s, o) && s.cycle.pc.TRead?
    ensures Written(ReclaimStep(s, o))
  {
    if o.readFails { } else if !EverConfigured(s, s.current) { } else { }
  }

  lemma RestoreKeeps(s: State, o: Outcome)
    requires Written(s) && CanAdvance(s, o) && InRestore(s.cycle.pc)
    ensures Written(RestoreStep(s, o))
  {
    match s.cycle.pc
    case TWrite => case TRecheck => case TTear => case TRecord =>
  }

  lemma StepKeeps(s: State, o: Outcome)
    requires Written(s) && CanAdvance(s, o)
    ensures Written(Advance(s, o))
  {
    var pc := s.cycle.pc;
    if InPrepare(pc) {
      PrepareKeeps(s, o);
    } else if InPromote(pc) {
      PromoteKeeps(s, o);
    } else if InEnforce(pc) {
      EnforceKeeps(s, o);
    } else if InDecide(pc) {
      DecideKeeps(s, o);
    } else if InRevert(pc) {
      RevertKeeps(s, o);
    } else if InRewrite(pc) {
      RewriteKeeps(s, o);
    } else if InReclaim(pc) {
      ReclaimKeeps(s, o);
    } else {
      RestoreKeeps(s, o);
    }
  }

  /** Everybody else leaves the cycle's place, the record and the rules alone, and only ever empties the kernel. */
  predicate Bystands(s: State, s': State) {
    && (s'.cycle.Running? ==>
          s.cycle.Running? && s'.cycle.pc == s.cycle.pc && s'.cycle.loc == s.cycle.loc)
    && s'.applied == s.applied && s'.stamped == s.stamped && (s'.kernel.None? || s'.kernel == s.kernel)
  }

  lemma BystandersKeep(s: State, s': State)
    requires Written(s) && Bystands(s, s')
    ensures Written(s')
  {
  }

  lemma EventKeeps(s: State, e: Event)
    requires Written(s) && Enabled(s, e)
    ensures Written(Do(s, e))
  {
    if e.Step? {
      StepKeeps(s, e.o);
    } else if !e.BeginApply? && !e.BeginRestore? {
      OthersBystand(s, e);
      BystandersKeep(s, Do(s, e));
    }
  }

  lemma OthersBystand(s: State, e: Event)
    requires Enabled(s, e) && !e.Step? && !e.BeginApply? && !e.BeginRestore?
    ensures Bystands(s, Do(s, e))
  {
  }

  lemma {:induction false} RunKeeps(s: State, es: seq<Event>, s': State)
    requires Written(s) && Run(s, es, s')
    ensures Written(s')
    decreases |es|
  {
    if es != [] {
      EventKeeps(s, es[0]);
      RunKeeps(Do(s, es[0]), es[1..], s');
    }
  }

  /** The steps a cycle ends with once its table is written and on record. */
  predicate Records(pc: Pc) { pc.AStamp? || pc.RRecord? || pc.TRecord? }

  /** The slot given back right after, with the history of accidents forgotten. */
  function Afresh(s: State, o: Outcome): State
    requires CanAdvance(s, o) && Records(s.cycle.pc)
  {
    Do(Advance(s, o), Finish).(clean := true)
  }

  lemma StampSettles(s: State, o: Outcome)
    requires Inv(s) && Written(s) && !s.overwrote && !s.orphan && CanAdvance(s, o) && s.cycle.pc.AStamp?
    ensures Inv(Afresh(s, o))
  {
  }

  lemma RollbackSettles(s: State, o: Outcome)
    requires Inv(s) && Written(s) && !s.overwrote && !s.orphan && CanAdvance(s, o) && s.cycle.pc.RRecord?
    ensures Inv(Afresh(s, o))
  {
  }

  lemma RestoreSettles(s: State, o: Outcome)
    requires Inv(s) && Written(s) && !s.overwrote && !s.orphan && CanAdvance(s, o) && s.cycle.pc.TRecord?
    ensures Inv(Afresh(s, o))
  {
  }

  /**
   Whatever went wrong before - kills, failed writes, failed reads - once an apply, a rollback or a restore has
   written its table and put it on record, every later quiet moment finds the table in force to be the one built
   from Current and the record, for as long as nothing goes wrong again.
   */
  lemma AgreesAgain(s: State, o: Outcome, es: seq<Event>, t: State)
    requires Reachable(s) && !s.overwrote && !s.orphan && CanAdvance(s, o) && Records(s.cycle.pc)
    requires Run(Afresh(s, o), es, t) && t.clean && !t.overwrote
    requires t.cycle.NoCycle? && !TearPending(t) && t.kernel.Some?
    ensures t.applied.Some? && t.kernel.value == Table(t.current, t.applied.value)
    ensures t.marker.None? && t.current in t.authorised
  {
    ReachableKeeps(s);
    var i, before :| Init(i) && Run(i, before, s);
    RunKeeps(i, before, s);
    if s.cycle.pc.AStamp? {
      StampSettles(s, o);
    } else if s.cycle.pc.RRecord? {
      RollbackSettles(s, o);
    } else {
      RestoreSettles(s, o);
    }
    KeepRun(Afresh(s, o), es, t);
  }
}
