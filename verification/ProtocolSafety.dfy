/** What every run of the protocol keeps. */
module ProtocolSafety {
  import opened Addresses
  import opened Models
  import opened Protocol

  /** The part of the disk the invariants read. */
  datatype Files = Files(current: Rules, backup: Rules, marker: Option<Option<Config>>,
                         applied: Option<Config>, stamped: bool, authorised: set<Rules>)

  function Disk(s: State): Files {
    Files(s.current, s.backup, s.marker, s.applied, s.stamped, s.authorised)
  }

  // ---- the rules on disk are authorised ----

  /** What a restart would enforce is authorised: Current, or Backup while the marker stands. */
  predicate RestartSafe(d: Files) {
    (d.marker.None? ==> d.current in d.authorised) && (d.marker.Some? ==> d.backup in d.authorised)
  }

  /** The set under trial is Current; Backup holds what it replaced. */
  predicate Trial(d: Files, l: Locals) {
    d.backup == l.previous && d.backup in d.authorised && (l.on <==> d.marker.Some?)
  }

  predicate Tried(d: Files, l: Locals) { Trial(d, l) && l.updated == d.current }

  predicate Reverted(d: Files, l: Locals) {
    d.current == d.backup == l.previous && d.backup in d.authorised
  }

  predicate Unmarked(d: Files, l: Locals) { Reverted(d, l) && d.marker.None? }

  predicate Chosen(d: Files, l: Locals) { d.marker.None? && l.previous == d.current }

  predicate CycleSafe(d: Files, pc: Pc, l: Locals) {
    match pc
    case ABackup => l.previous == d.current
    case AConfig => d.marker.None? && d.backup == d.current == l.previous
    case AMark => d.marker.None? && d.backup == d.current == l.previous
    case APromote => d.current == d.backup && Trial(d, l)
    case AReread => Trial(d, l)
    case AOpen => Tried(d, l)
    case AWrite => Tried(d, l)
    case ARecheck => Tried(d, l)
    case ATear => Tried(d, l)
    case ARecord => Tried(d, l)
    case AWait => Tried(d, l)
    case AConfirm => l.updated == d.current && d.current in d.authorised
    case AStamp => l.updated == d.current && d.current in d.authorised && d.marker.None?
    case RRevert => d.backup == l.previous && d.backup in d.authorised
    case RClear => Reverted(d, l)
    case RGate => Unmarked(d, l)
    case RWrite => Unmarked(d, l)
    case RRecheck => Unmarked(d, l)
    case RTear => Unmarked(d, l)
    case RRecord => Unmarked(d, l)
    case RDone => Unmarked(d, l)
    case TRevert => d.marker.Some?
    case TClear => d.current == d.backup && d.current in d.authorised
    case TRead => d.marker.None?
    case TWrite => Chosen(d, l)
    case TRecheck => Chosen(d, l)
    case TTear => Chosen(d, l)
    case TRecord => Chosen(d, l)
    case _ => true
  }

  predicate SafeInv(s: State) {
    && (s.cycle.Running? ==> s.up)
    && (!s.overwrote ==> RestartSafe(Disk(s)) && (s.cycle.Running? ==> CycleSafe(Disk(s), s.cycle.pc, s.cycle.loc)))
  }

  // ---- panic wins ----

  /** Rules in the kernel under the panic marker are somebody's to tear down, or an orphan's. */
  predicate PanicInv(s: State) {
    && (s.panic && s.kernel.Some? ==> Pending(s) || s.orphan)
    && (s.orphan ==> s.panic && s.kernel.Some?)
    && (s.clean ==> !s.orphan)
  }

  // ---- the kernel agrees with the files ----

  predicate Configured(d: Files, r: Rules) { !r.IsEmpty() || d.stamped }

  predicate AgreesWith(d: Files, k: Option<Table>, r: Rules) {
    k.Some? ==> d.applied.Some? && k.value == Table(r, d.applied.value) && Configured(d, r)
  }

  /** Agreement, except where a teardown is already on its way. */
  predicate Settled(d: Files, k: Option<Table>, tearing: bool, r: Rules) { tearing || AgreesWith(d, k, r) }

  /** A marker nobody running owns was left by a crash, and the crash emptied the kernel. */
  predicate Stale(d: Files, k: Option<Table>) { d.marker.Some? ==> k.None? }

  predicate Only(k: Option<Table>, t: Table) { k.None? || k == Some(t) }

  predicate OnlyConfigured(d: Files, k: Option<Table>, l: Locals) {
    l.ok && Only(k, Table(d.current, l.used)) && (k.Some? ==> Configured(d, d.current))
  }

  predicate Resting(d: Files, k: Option<Table>, tearing: bool) { Settled(d, k, tearing, d.current) && Stale(d, k) }

  predicate CycleSettled(d: Files, k: Option<Table>, tearing: bool, pc: Pc, l: Locals) {
    match pc
    case ACheck => Resting(d, k, tearing)
    case ARead => Resting(d, k, tearing)
    case ABackup => Resting(d, k, tearing)
    case AConfig => Settled(d, k, tearing, d.current)
    case AMark => Settled(d, k, tearing, d.current)
    case APromote => Settled(d, k, tearing, d.current)
    case AReread => Settled(d, k, tearing, d.backup)
    case AOpen => Settled(d, k, tearing, d.backup)
    case AWrite => Settled(d, k, tearing, d.backup)
    case ARecheck => l.ok && Only(k, Table(l.updated, l.opts))
    case ATear => Only(k, Table(l.updated, l.opts))
    case ARecord => Only(k, Table(l.updated, l.opts))
    case AWait => Only(k, Table(l.updated, l.opts)) && d.applied == Some(l.opts)
    case AConfirm => Only(k, Table(l.updated, l.opts)) && d.applied == Some(l.opts)
    case AStamp => Only(k, Table(l.updated, l.opts)) && d.applied == Some(l.opts)
    case RRevert => Only(k, Table(l.updated, l.opts))
    case RClear => Only(k, Table(l.updated, l.opts))
    case RGate => Only(k, Table(l.updated, l.opts))
    case RWrite => Only(k, Table(l.updated, l.opts))
    case RRecheck => OnlyConfigured(d, k, l)
    case RTear => OnlyConfigured(d, k, l)
    case RRecord => OnlyConfigured(d, k, l)
    case RDone => Settled(d, k, tearing, d.current)
    case TGate => Resting(d, k, tearing)
    case TRevert => k.None?
    case TClear => k.None?
    case TRead => Settled(d, k, tearing, d.current)
    case TWrite => Settled(d, k, tearing, d.current) && Configured(d, d.current)
    case TRecheck => OnlyConfigured(d, k, l)
    case TTear => OnlyConfigured(d, k, l)
    case TRecord => OnlyConfigured(d, k, l)
    case Done => Resting(d, k, tearing)
  }

  predicate AgreeInv(s: State) {
    s.clean && !s.overwrote ==>
      if s.cycle.Running? then CycleSettled(Disk(s), s.kernel, TearPending(s), s.cycle.pc, s.cycle.loc)
      else Resting(Disk(s), s.kernel, TearPending(s))
  }

  // ---- an undisturbed apply is undone exactly ----

  /** The kernel at the start was the one built from the files at the start. */
  predicate Sound(d: Files, b: Start) {
    b.kernel.Some? ==>
      b.applied.Some? && b.kernel.value == Table(b.current, b.applied.value) && Configured(d, b.current)
  }

  predicate Untouched(d: Files, k: Option<Table>, b: Start) {
    k == b.kernel && d.current == b.current && d.applied == b.applied
  }

  predicate Promoted(d: Files, k: Option<Table>, l: Locals, b: Start) {
    k == b.kernel && d.backup == b.current && d.applied == b.applied == l.before
  }

  predicate Recoverable(d: Files, l: Locals, b: Start) { d.backup == b.current && l.before == b.applied }

  predicate PutBack(d: Files, k: Option<Table>, l: Locals, b: Start) {
    && d.backup == b.current
    && (b.kernel.Some? ==> k == b.kernel && b.applied == Some(l.used))
    && (Configured(d, b.current) && b.applied.Some? ==> l.used == b.applied.value)
    && (k.Some? <==> Configured(d, b.current))
  }

  predicate CycleUndo(d: Files, k: Option<Table>, pc: Pc, l: Locals, b: Start) {
    match pc
    case ACheck => Untouched(d, k, b)
    case ARead => Untouched(d, k, b)
    case ABackup => Untouched(d, k, b)
    case AConfig => Untouched(d, k, b)
    case AMark => Untouched(d, k, b) && l.before == b.applied
    case APromote => Untouched(d, k, b) && l.before == b.applied
    case AReread => Promoted(d, k, l, b)
    case AOpen => Promoted(d, k, l, b)
    case AWrite => Promoted(d, k, l, b)
    case ARecheck => Recoverable(d, l, b)
    case ATear => false
    case ARecord => Recoverable(d, l, b)
    case AWait => Recoverable(d, l, b)
    case RRevert => Recoverable(d, l, b)
    case RClear => Recoverable(d, l, b)
    case RGate => Recoverable(d, l, b)
    case RWrite => Recoverable(d, l, b)
    case RRecheck => PutBack(d, k, l, b)
    case RTear => false
    case RRecord => PutBack(d, k, l, b)
    case RDone => PutBack(d, k, l, b) && d.applied == Some(l.used)
    case _ => true
  }

  predicate UndoInv(s: State) {
    s.clean && !s.overwrote && s.cycle.Running? && s.cycle.start.calm ==>
      && !TearPending(s)
      && (!s.cycle.pc.ACheck? && !s.cycle.pc.Done? ==> !s.panic)
      && Sound(Disk(s), s.cycle.start)
      && CycleUndo(Disk(s), s.kernel, s.cycle.pc, s.cycle.loc, s.cycle.start)
  }

  predicate Inv(s: State) {
    SafeInv(s) && PanicInv(s) && AgreeInv(s) && UndoInv(s)
  }

  // apply up to its configuration snapshot

  lemma KeepACheck(s: State, o: Outcome)
    requires Inv(s) && CanAdvance(s, o) && s.cycle.pc.ACheck?
    ensures Inv(PrepareStep(s, o))
  {
    if s.panic { } else { }
  }

  lemma KeepARead(s: State, o: Outcome)
    requires Inv(s) && CanAdvance(s, o) && s.cycle.pc.ARead?
    ensures Inv(PrepareStep(s, o))
  {
    if o.readFails { } else { }
  }

  lemma KeepABackup(s: State, o: Outcome)
    requires Inv(s) && CanAdvance(s, o) && s.cycle.pc.ABackup?
    ensures Inv(PrepareStep(s, o))
  {
  }

  lemma KeepAConfig(s: State, o: Outcome)
    requires Inv(s) && CanAdvance(s, o) && s.cycle.pc.AConfig?
    ensures Inv(PrepareStep(s, o))
  {
  }

  lemma KeepPrepare(s: State, o: Outcome)
    requires Inv(s) && CanAdvance(s, o) && InPrepare(s.cycle.pc)
    ensures Inv(PrepareStep(s, o))
  {
    match s.cycle.pc
    case ACheck => KeepACheck(s, o);
    case ARead => KeepARead(s, o);
    case ABackup => KeepABackup(s, o);
    case AConfig => KeepAConfig(s, o);
  }

  // from the marker to the open window

  lemma KeepAMark(s: State, o: Outcome)
    requires Inv(s) && CanAdvance(s, o) && s.cycle.pc.AMark?
    ensures Inv(PromoteStep(s, o))
  {
    if s.cycle.loc.on { } else { }
  }

  lemma KeepAPromote(s: State, o: Outcome)
    requires Inv(s) && CanAdvance(s, o) && s.cycle.pc.APromote?
    ensures Inv(PromoteStep(s, o))
  {
    if s.cycle.loc.on { } else { }
  }

  lemma KeepAReread(s: State, o: Outcome)
    requires Inv(s) && CanAdvance(s, o) && s.cycle.pc.AReread?
    ensures Inv(PromoteStep(s, o))
  {
    if o.readFails { } else { }
  }

  lemma KeepAOpen(s: State, o: Outcome)
    requires Inv(s) && CanAdvance(s, o) && s.cycle.pc.AOpen?
    ensures Inv(PromoteStep(s, o))
  {
    if s.cycle.loc.on { } else { }
  }

  lemma KeepPromote(s: State, o: Outcome)
    requires Inv(s) && CanAdvance(s, o) && InPromote(s.cycle.pc)
    ensures Inv(PromoteStep(s, o))
  {
    match s.cycle.pc
    case AMark => KeepAMark(s, o);
    case APromote => KeepAPromote(s, o);
    case AReread => KeepAReread(s, o);
    case AOpen => KeepAOpen(s, o);
  }

  // from the kernel write to the recorded configuration

  lemma KeepAWrite(s: State, o: Outcome)
    requires Inv(s) && CanAdvance(s, o) && s.cycle.pc.AWrite?
    ensures Inv(EnforceStep(s, o))
  {
    match o.write { case Wrote => case Refused => case CommittedThenFailed => }
  }

  lemma KeepARecheck(s: State, o: Outcome)
    requires Inv(s) && CanAdvance(s, o) && s.cycle.pc.ARecheck?
    ensures Inv(EnforceStep(s, o))
  {
    if s.panic { } else if s.cycle.loc.ok { } else { }
  }

  lemma KeepATear(s: State, o: Outcome)
    requires Inv(s) && CanAdvance(s, o) && s.cycle.pc.ATear?
    ensures Inv(EnforceStep(s, o))
  {
  }

  lemma KeepARecord(s: State, o: Outcome)
    requires Inv(s) && CanAdvance(s, o) && s.cycle.pc.ARecord?
    ensures Inv(EnforceStep(s, o))
  {
  }

  lemma KeepEnforce(s: State, o: Outcome)
    requires Inv(s) && CanAdvance(s, o) && InEnforce(s.cycle.pc)
    ensures Inv(EnforceStep(s, o))
  {
    match s.cycle.pc
    case AWrite => KeepAWrite(s, o);
    case ARecheck => KeepARecheck(s, o);
    case ATear => KeepATear(s, o);
    case ARecord => KeepARecord(s, o);
  }

  // from Wait to the end

  lemma KeepNoWindow(s: State, o: Outcome)
    requires Inv(s) && CanAdvance(s, o) && s.cycle.pc.AWait? && !s.cycle.loc.on
    ensures Inv(DecideStep(s, o))
  {
  }

  lemma KeepConfirmed(s: State, o: Outcome)
    requires Inv(s) && CanAdvance(s, o) && s.cycle.pc.AWait? && s.cycle.loc.on && s.acc.accepted
    ensures Inv(DecideStep(s, o))
  {
  }

  lemma KeepUnconfirmed(s: State, o: Outcome)
    requires Inv(s) && CanAdvance(s, o) && s.cycle.pc.AWait? && s.cycle.loc.on && !s.acc.accepted
    ensures Inv(DecideStep(s, o))
  {
  }

  lemma KeepAWait(s: State, o: Outcome)
    requires Inv(s) && CanAdvance(s, o) && s.cycle.pc.AWait?
    ensures Inv(DecideStep(s, o))
  {
    if !s.cycle.loc.on {
      KeepNoWindow(s, o);
    } else if s.acc.accepted {
      KeepConfirmed(s, o);
    } else {
      KeepUnconfirmed(s, o);
    }
  }

  lemma KeepAConfirm(s: State, o: Outcome)
    requires Inv(s) && CanAdvance(s, o) && s.cycle.pc.AConfirm?
    ensures Inv(DecideStep(s, o))
  {
  }

  lemma KeepAStamp(s: State, o: Outcome)
    requires Inv(s) && CanAdvance(s, o) && s.cycle.pc.AStamp?
    ensures Inv(DecideStep(s, o))
  {
  }

  lemma KeepDecide(s: State, o: Outcome)
    requires Inv(s) && CanAdvance(s, o) && InDecide(s.cycle.pc)
    ensures Inv(DecideStep(s, o))
  {
    match s.cycle.pc
    case AWait => KeepAWait(s, o);
    case AConfirm => KeepAConfirm(s, o);
    case AStamp => KeepAStamp(s, o);
  }

  // rollback, the file half

  lemma KeepRRevert(s: State, o: Outcome)
    requires Inv(s) && CanAdvance(s, o) && s.cycle.pc.RRevert?
    ensures Inv(RevertStep(s, o))
  {
  }

  lemma KeepRClear(s: State, o: Outcome)
    requires Inv(s) && CanAdvance(s, o) && s.cycle.pc.RClear?
    ensures Inv(RevertStep(s, o))
  {
  }

  lemma KeepRGate(s: State, o: Outcome)
    requires Inv(s) && CanAdvance(s, o) && s.cycle.pc.RGate?
    ensures Inv(RevertStep(s, o))
  {
    if s.panic { } else { }
  }

  lemma KeepRevert(s: State, o: Outcome)
    requires Inv(s) && CanAdvance(s, o) && InRevert(s.cycle.pc)
    ensures Inv(RevertStep(s, o))
  {
    match s.cycle.pc
    case RRevert => KeepRRevert(s, o);
    case RClear => KeepRClear(s, o);
    case RGate => KeepRGate(s, o);
  }

  // rollback, the kernel half

  lemma KeepFirstTableDown(s: State, o: Outcome)
    requires Inv(s) && CanAdvance(s, o) && s.cycle.pc.RWrite? && !EverConfigured(s, s.cycle.loc.previous)
    ensures Inv(RewriteStep(s, o))
  {
  }

  lemma KeepWrittenBack(s: State, o: Outcome)
    requires Inv(s) && CanAdvance(s, o) && s.cycle.pc.RWrite? && EverConfigured(s, s.cycle.loc.previous)
    requires o.write.Wrote?
    ensures Inv(RewriteStep(s, o))
  {
  }

  lemma KeepNotWrittenBack(s: State, o: Outcome)
    requires Inv(s) && CanAdvance(s, o) && s.cycle.pc.RWrite? && EverConfigured(s, s.cycle.loc.previous)
    requires !o.write.Wrote?
    ensures Inv(RewriteStep(s, o))
  {
  }

  lemma KeepRWrite(s: State, o: Outcome)
    requires Inv(s) && CanAdvance(s, o) && s.cycle.pc.RWrite?
    ensures Inv(RewriteStep(s, o))
  {
    if !EverConfigured(s, s.cycle.loc.previous) {
      KeepFirstTableDown(s, o);
    } else if o.write.Wrote? {
      KeepWrittenBack(s, o);
    } else {
      KeepNotWrittenBack(s, o);
    }
  }

  lemma KeepPutBackUnderPanic(s: State, o: Outcome)
    requires Inv(s) && CanAdvance(s, o) && s.cycle.pc.RRecheck? && s.panic
    ensures Inv(RewriteStep(s, o))
  {
  }

  lemma KeepPutBack(s: State, o: Outcome)
    requires Inv(s) && CanAdvance(s, o) && s.cycle.pc.RRecheck? && !s.panic
    ensures Inv(RewriteStep(s, o))
  {
  }

  lemma KeepRRecheck(s: State, o: Outcome)
    requires Inv(s) && CanAdvance(s, o) && s.cycle.pc.RRecheck?
    ensures Inv(RewriteStep(s, o))
  {
    if s.panic {
      KeepPutBackUnderPanic(s, o);
    } else {
      KeepPutBack(s, o);
    }
  }

  lemma KeepRTear(s: State, o: Outcome)
    requires Inv(s) && CanAdvance(s, o) && s.cycle.pc.RTear?
    ensures Inv(RewriteStep(s, o))
  {
  }

  lemma KeepRRecord(s: State, o: Outcome)
    requires Inv(s) && CanAdvance(s, o) && s.cycle.pc.RRecord?
    ensures Inv(RewriteStep(s, o))
  {
  }

  lemma KeepRewrite(s: State, o: Outcome)
    requires Inv(s) && CanAdvance(s, o) && InRewrite(s.cycle.pc)
    ensures Inv(RewriteStep(s, o))
  {
    match s.cycle.pc
    case RWrite => KeepRWrite(s, o);
    case RRecheck => KeepRRecheck(s, o);
    case RTear => KeepRTear(s, o);
    case RRecord => KeepRRecord(s, o);
  }

  // the boot restore up to choosing what to write

  lemma KeepTGate(s: State, o: Outcome)
    requires Inv(s) && CanAdvance(s, o) && s.cycle.pc.TGate?
    ensures Inv(ReclaimStep(s, o))
  {
    if s.panic { } else if s.marker.Some? { } else { }
  }

  lemma KeepTRevert(s: State, o: Outcome)
    requires Inv(s) && CanAdvance(s, o) && s.cycle.pc.TRevert?
    ensures Inv(ReclaimStep(s, o))
  {
  }

  lemma KeepTClear(s: State, o: Outcome)
    requires Inv(s) && CanAdvance(s, o) && s.cycle.pc.TClear?
    ensures Inv(ReclaimStep(s, o))
  {
  }

  lemma KeepUnreadable(s: State, o: Outcome)
    requires Inv(s) && CanAdvance(s, o) && s.cycle.pc.TRead? && o.readFails
    ensures Inv(ReclaimStep(s, o))
  {
  }

  lemma KeepNeverConfigured(s: State, o: Outcome)
    requires Inv(s) && CanAdvance(s, o) && s.cycle.pc.TRead? && !o.readFails && !EverConfigured(s, s.current)
    ensures Inv(ReclaimStep(s, o))
  {
  }

  lemma KeepChosen(s: State, o: Outcome)
    requires Inv(s) && CanAdvance(s, o) && s.cycle.pc.TRead? && !o.readFails && EverConfigured(s, s.current)
    ensures Inv(ReclaimStep(s, o))
  {
  }

  lemma KeepTRead(s: State, o: Outcome)
    requires Inv(s) && CanAdvance(s, o) && s.cycle.pc.TRead?
    ensures Inv(ReclaimStep(s, o))
  {
    if o.readFails {
      KeepUnreadable(s, o);
    } else if !EverConfigured(s, s.current) {
      KeepNeverConfigured(s, o);
    } else {
      KeepChosen(s, o);
    }
  }

  lemma KeepReclaim(s: State, o: Outcome)
    requires Inv(s) && CanAdvance(s, o) && InReclaim(s.cycle.pc)
    ensures Inv(ReclaimStep(s, o))
  {
    match s.cycle.pc
    case TGate => KeepTGate(s, o);
    case TRevert => KeepTRevert(s, o);
    case TClear => KeepTClear(s, o);
    case TRead => KeepTRead(s, o);
  }

  // the boot restore, the kernel half

  lemma KeepTWrite(s: State, o: Outcome)
    requires Inv(s) && CanAdvance(s, o) && s.cycle.pc.TWrite?
    ensures Inv(RestoreStep(s, o))
  {
    match o.write { case Wrote => case Refused => case CommittedThenFailed => }
  }

  lemma KeepRestoredUnderPanic(s: State, o: Outcome)
    requires Inv(s) && CanAdvance(s, o) && s.cycle.pc.TRecheck? && s.panic
    ensures Inv(RestoreStep(s, o))
  {
  }

  lemma KeepRestored(s: State, o: Outcome)
    requires Inv(s) && CanAdvance(s, o) && s.cycle.pc.TRecheck? && !s.panic
    ensures Inv(RestoreStep(s, o))
  {
  }

  lemma KeepTRecheck(s: State, o: Outcome)
    requires Inv(s) && CanAdvance(s, o) && s.cycle.pc.TRecheck?
    ensures Inv(RestoreStep(s, o))
  {
    if s.panic {
      KeepRestoredUnderPanic(s, o);
    } else {
      KeepRestored(s, o);
    }
  }

  lemma KeepTTear(s: State, o: Outcome)
    requires Inv(s) && CanAdvance(s, o) && s.cycle.pc.TTear?
    ensures Inv(RestoreStep(s, o))
  {
  }

  lemma KeepTRecord(s: State, o: Outcome)
    requires Inv(s) && CanAdvance(s, o) && s.cycle.pc.TRecord?
    ensures Inv(RestoreStep(s, o))
  {
  }

  lemma KeepRestore(s: State, o: Outcome)
    requires Inv(s) && CanAdvance(s, o) && InRestore(s.cycle.pc)
    ensures Inv(RestoreStep(s, o))
  {
    match s.cycle.pc
    case TWrite => KeepTWrite(s, o);
    case TRecheck => KeepTRecheck(s, o);
    case TTear => KeepTTear(s, o);
    case TRecord => KeepTRecord(s, o);
  }

  lemma KeepStep(s: State, o: Outcome)
    requires Inv(s) && CanAdvance(s, o)
    ensures Inv(Advance(s, o))
  {
    var pc := s.cycle.pc;
    if InPrepare(pc) {
      KeepPrepare(s, o);
    } else if InPromote(pc) {
      KeepPromote(s, o);
    } else if InEnforce(pc) {
      KeepEnforce(s, o);
    } else if InDecide(pc) {
      KeepDecide(s, o);
    } else if InRevert(pc) {
      KeepRevert(s, o);
    } else if InRewrite(pc) {
      KeepRewrite(s, o);
    } else if InReclaim(pc) {
      KeepReclaim(s, o);
    } else {
      KeepRestore(s, o);
    }
  }

  lemma KeepBegin(s: State, e: Event)
    requires Inv(s) && Enabled(s, e) && (e.BeginApply? || e.BeginRestore?)
    ensures Inv(Do(s, e))
  {
    match e
    case BeginApply =>
    case BeginRestore(byResume) => if byResume { }
  }

  lemma KeepFinish(s: State)
    requires Inv(s) && Enabled(s, Finish)
    ensures Inv(Do(s, Finish))
  {
    if s.cycle.pc.Done? { }
  }

  lemma KeepMark(s: State, e: Event)
    requires Inv(s) && Enabled(s, e) && (e.PanicMark? || e.ConsoleMark?)
    ensures Inv(Do(s, e))
  {
    match e
    case PanicMark => if s.cycle.Running? { }
    case ConsoleMark => if s.cycle.Running? { }
  }

  lemma KeepTear(s: State, e: Event)
    requires Inv(s) && Enabled(s, e) && (e.PanicTear? || e.ConsoleTear?)
    ensures Inv(Do(s, e))
  {
    match e
    case PanicTear => if s.cycle.Running? { }
    case ConsoleTear => if s.cycle.Running? { }
  }

  lemma KeepLife(s: State, e: Event)
    requires Inv(s) && Enabled(s, e) && (e.ConsoleDies? || e.Boot? || e.Stop? || e.Kill? || e.Reboot?)
    ensures Inv(Do(s, e))
  {
    match e
    case ConsoleDies =>
    case Boot =>
    case Stop =>
    case Kill =>
    case Reboot =>
  }

  /** Nothing the invariants read moved, unless panic mode ended. */
  lemma KeepFrame(s: State, s': State)
    requires Inv(s) && Disk(s) == Disk(s') && s.kernel == s'.kernel && s.cycle == s'.cycle && s.up == s'.up
    requires s.overwrote == s'.overwrote && s.clean == s'.clean && TearPending(s) == TearPending(s')
    requires (s.panic == s'.panic && s.orphan == s'.orphan) || (!s'.panic && !s'.orphan)
    ensures Inv(s')
  {
  }

  lemma KeepEdits(s: State, e: Event)
    requires Inv(s) && Enabled(s, e)
    requires IsEdit(e)
    ensures Inv(Do(s, e))
  {
    KeepFrame(s, Do(s, e));
  }

  predicate IsEdit(e: Event) {
    e.SaveStaged? || e.SaveSettings? || e.OperatorAccepts? || e.WindowCancelled? || e.StopFlag?
    || e.PanicCancel? || e.ResumeClear? || e.ResumeGivesUp? || e.ConsoleClear?
  }

  /** Every step of every actor keeps all four. */
  lemma Keep(s: State, e: Event)
    requires Inv(s) && Enabled(s, e)
    ensures Inv(Do(s, e))
  {
    if e.Step? {
      KeepStep(s, e.o);
    } else if IsEdit(e) {
      KeepEdits(s, e);
    } else if e.BeginApply? || e.BeginRestore? {
      KeepBegin(s, e);
    } else if e.Finish? {
      KeepFinish(s);
    } else if e.PanicMark? || e.ConsoleMark? {
      KeepMark(s, e);
    } else if e.PanicTear? || e.ConsoleTear? {
      KeepTear(s, e);
    } else {
      KeepLife(s, e);
    }
  }

  lemma {:induction false} KeepRun(s: State, es: seq<Event>, s': State)
    requires Inv(s) && Run(s, es, s')
    ensures Inv(s')
    decreases |es|
  {
    if es != [] {
      Keep(s, es[0]);
      KeepRun(Do(s, es[0]), es[1..], s');
    }
  }

  lemma ReachableKeeps(s: State)
    requires Reachable(s)
    ensures Inv(s)
  {
    var i, es :| Init(i) && Run(i, es, s);
    KeepRun(i, es, s);
  }
}
