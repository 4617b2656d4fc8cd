/**
 The apply / acceptance / crash / panic protocol as a step machine.

 One step is one file rename or removal, one kernel transaction, one read of a marker or one
 critical section. Between any two steps anything else may run: the operator, the console with
 or without a daemon, the window's timer, a crash.
 */
module Protocol {
  import opened Addresses
  import opened Models
  import opened AcceptanceWindow

  /** The table in the kernel, identified by what it was built from. */
  datatype Table = Table(rules: Rules, config: Config)

  /** How ApplyWithFeeds came back: clean, refused whole, or failed after the commit. */
  datatype Write = Wrote | Refused | CommittedThenFailed

  /** Where the holder of the apply slot stands. A: apply, R: rollback, T: RestoreCurrent. */
  datatype Pc =
    | ACheck | ARead | ABackup | AConfig | AMark | APromote | AReread | AOpen | AWrite
    | ARecheck | ATear | ARecord | AWait | AConfirm | AStamp
    | RRevert | RClear | RGate | RWrite | RRecheck | RTear | RRecord | RDone
    | TGate | TRevert | TClear | TRead | TWrite | TRecheck | TTear | TRecord
    | Done

  /** Locals of the running cycle. */
  datatype Locals = Locals(
    on: bool, previous: Rules, updated: Rules, opts: Config, before: Option<Config>,
    used: Config, ok: bool, reverted: bool, resumed: bool)

  /** History: what stood when the cycle began, and whether nobody has engaged panic mode since. */
  datatype Start = Start(kernel: Option<Table>, current: Rules, applied: Option<Config>, calm: bool)

  datatype Cycle = NoCycle | Running(pc: Pc, loc: Locals, start: Start)

  /** The command holding panicMu. */
  datatype Console = Quiet | PanicMarked | PanicCancelled | ResumeCleared | ResumeRestoring

  datatype State = State(
    // disk
    current: Rules, staged: Rules, backup: Rules,
    marker: Option<Option<Config>>,  // the unconfirmed marker and the configuration it carries
    panic: bool, applied: Option<Config>, stamped: bool,
    cfg: Config, windowOn: bool,     // easywall.toml
    // kernel
    kernel: Option<Table>,
    // the daemon
    up: bool, cycle: Cycle, acc: Control, console: Console,
    // console processes that found no daemon: marker written, teardown still to come
    teardowns: nat,
    // history
    authorised: set<Rules>,  // the initial set, every confirmed set, every set applied with the window off
    overwrote: bool,         // some BackupCurrent ran with the unconfirmed marker on disk
    clean: bool,             // no kernel write or read failed, nothing was killed
    orphan: bool)            // a process died owing the teardown of what the kernel now holds

  predicate Init(s: State) {
    && s.marker.None? && s.authorised == {s.current} && s.kernel.None?
    && !s.up && s.cycle.NoCycle? && s.console.Quiet? && s.teardowns == 0
    && !s.overwrote && s.clean && !s.orphan && s.acc == FRESH.(duration := s.acc.duration)
  }

  // ---- building blocks ----

  /** EngagePanic: whoever holds the slot is no longer undisturbed. */
  function Disturbed(c: Cycle): Cycle {
    if c.Running? then Running(c.pc, c.loc, c.start.(calm := false)) else NoCycle
  }

  predicate EverConfigured(s: State, r: Rules) { !r.IsEmpty() || s.stamped }

  function ConfigToRestore(s: State, before: Option<Config>): Config {
    if before.Some? then before.value else s.cfg
  }

  /** What the kernel holds after ApplyWithFeeds was asked for `t`. */
  function Loaded(s: State, t: Table, w: Write): Option<Table> {
    if w.Refused? then s.kernel else Some(t)
  }

  predicate TearPending(s: State) {
    s.teardowns > 0 || s.console.PanicMarked? || s.console.PanicCancelled?
  }

  predicate RecheckPending(s: State) {
    s.cycle.Running? && Rechecking(s.cycle.pc)
  }

  predicate Rechecking(pc: Pc) {
    pc.ARecheck? || pc.ATear? || pc.RRecheck? || pc.RTear? || pc.TRecheck? || pc.TTear?
  }

  predicate Pending(s: State) { TearPending(s) || RecheckPending(s) }

  function At(s: State, pc: Pc): State
    requires s.cycle.Running?
  {
    s.(cycle := Running(pc, s.cycle.loc, s.cycle.start))
  }

  function With(s: State, pc: Pc, l: Locals): State
    requires s.cycle.Running?
  {
    s.(cycle := Running(pc, l, s.cycle.start))
  }

  /** What the surroundings answer one step: the kernel, the clock, the configured window, the rules file. */
  datatype Outcome = Outcome(write: Write, now: int, length: int, readFails: bool)

  predicate CanAdvance(s: State, o: Outcome) {
    s.up && s.cycle.Running? && !s.cycle.pc.Done? && !s.cycle.pc.RDone? &&
    (s.cycle.pc.AWait? && s.cycle.loc.on ==> Awake(s.acc, o.now))
  }

  predicate InPrepare(pc: Pc) { pc.ACheck? || pc.ARead? || pc.ABackup? || pc.AConfig? }

  /** Firewall.apply up to its configuration snapshot. */
  function PrepareStep(s: State, o: Outcome): State
    requires CanAdvance(s, o) && InPrepare(s.cycle.pc)
  {
    var l, b := s.cycle.loc, s.cycle.start;
    match s.cycle.pc
    case ACheck => At(s, if s.panic then Done else ARead)
    case ARead =>
      if o.readFails then s.(cycle := Running(Done, l, b), clean := false)
      else With(s, ABackup, l.(previous := s.current))
    case ABackup => s.(cycle := Running(AConfig, l, b), backup := s.current, overwrote := s.overwrote || s.marker.Some?)
    case AConfig => With(s, AMark, l.(opts := s.cfg, on := s.windowOn, before := s.applied))
  }

  predicate InPromote(pc: Pc) { pc.AMark? || pc.APromote? || pc.AReread? || pc.AOpen? }

  /** Firewall.apply from the marker to the open window. */
  function PromoteStep(s: State, o: Outcome): State
    requires CanAdvance(s, o) && InPromote(s.cycle.pc)
  {
    var l, b := s.cycle.loc, s.cycle.start;
    match s.cycle.pc
    case AMark => if l.on then s.(cycle := Running(APromote, l, b), marker := Some(l.before)) else At(s, APromote)
    case APromote =>
      s.(cycle := Running(AReread, l, b), current := s.staged,
                      authorised := if l.on then s.authorised else s.authorised + {s.staged})
    case AReread =>
      if o.readFails then s.(cycle := Running(Done, l, b), clean := false)
      else With(s, AOpen, l.(updated := s.current))
    case AOpen =>
      if !l.on then At(s, AWrite)
      else s.(cycle := Running(AWrite, l, b), acc := Started(s.acc, o.length, o.now))
  }

  predicate InEnforce(pc: Pc) { pc.AWrite? || pc.ARecheck? || pc.ATear? || pc.ARecord? }

  /** Firewall.apply from the kernel write to the recorded configuration. */
  function EnforceStep(s: State, o: Outcome): State
    requires CanAdvance(s, o) && InEnforce(s.cycle.pc)
  {
    var l, b := s.cycle.loc, s.cycle.start;
    match s.cycle.pc
    case AWrite =>
      s.(cycle := Running(ARecheck, l.(ok := o.write.Wrote?), b),
         kernel := Loaded(s, Table(l.updated, l.opts), o.write), clean := s.clean && o.write.Wrote?,
         acc := if o.write.Wrote? then s.acc else s.acc.(status := Idle))
    case ARecheck => At(s, if s.panic then ATear else if l.ok then ARecord else RRevert)
    case ATear => s.(cycle := Running(RRevert, l, b), kernel := None, orphan := false, acc := s.acc.(status := Idle))
    case ARecord => s.(cycle := Running(AWait, l, b), applied := Some(l.opts))
  }

  predicate InDecide(pc: Pc) { pc.AWait? || pc.AConfirm? || pc.AStamp? }

  /** Firewall.apply from Wait to its end. */
  function DecideStep(s: State, o: Outcome): State
    requires CanAdvance(s, o) && InDecide(s.cycle.pc)
  {
    var l, b := s.cycle.loc, s.cycle.start;
    match s.cycle.pc
    case AWait =>
      if !l.on then At(s, AStamp)
      else if s.acc.accepted then
        s.(cycle := Running(AConfirm, l, b), acc := Waited(s.acc), authorised := s.authorised + {s.current})
      else s.(cycle := Running(RRevert, l, b), acc := Waited(s.acc))
    case AConfirm => s.(cycle := Running(AStamp, l, b), marker := None)
    case AStamp => s.(cycle := Running(Done, l, b), stamped := true)
  }

  predicate InRevert(pc: Pc) { pc.RRevert? || pc.RClear? || pc.RGate? }

  /** Firewall.rollback, the file half and the marker read between the halves. */
  function RevertStep(s: State, o: Outcome): State
    requires CanAdvance(s, o) && InRevert(s.cycle.pc)
  {
    var l, b := s.cycle.loc, s.cycle.start;
    match s.cycle.pc
    case RRevert => s.(cycle := Running(RClear, l, b), current := s.backup)
    case RClear => s.(cycle := Running(RGate, l, b), marker := None)
    case RGate => At(s, if s.panic then RDone else RWrite)
  }

  predicate InRewrite(pc: Pc) { pc.RWrite? || pc.RRecheck? || pc.RTear? || pc.RRecord? }

  /** Firewall.rollback, the kernel half. */
  function RewriteStep(s: State, o: Outcome): State
    requires CanAdvance(s, o) && InRewrite(s.cycle.pc)
  {
    var l, b := s.cycle.loc, s.cycle.start;
    match s.cycle.pc
    case RWrite =>
      if !EverConfigured(s, l.previous) then
        s.(cycle := Running(RRecheck, l.(ok := true, used := s.cfg), b), kernel := None, orphan := false)
      else
        var c := ConfigToRestore(s, l.before);
        s.(cycle := Running(RRecheck, l.(ok := o.write.Wrote?, used := c), b),
           kernel := Loaded(s, Table(l.previous, c), o.write), clean := s.clean && o.write.Wrote?)
    case RRecheck => At(s, if s.panic then RTear else if l.ok then RRecord else RDone)
    case RTear => s.(cycle := Running(RDone, l, b), kernel := None, orphan := false)
    case RRecord => s.(cycle := Running(RDone, l, b), applied := Some(l.used))
  }

  predicate InReclaim(pc: Pc) { pc.TGate? || pc.TRevert? || pc.TClear? || pc.TRead? }

  /** Firewall.RestoreCurrent with the slot held, up to choosing what to write. */
  function ReclaimStep(s: State, o: Outcome): State
    requires CanAdvance(s, o) && InReclaim(s.cycle.pc)
  {
    var l, b := s.cycle.loc, s.cycle.start;
    match s.cycle.pc
    case TGate => At(s, if s.panic then Done else if s.marker.Some? then TRevert else TRead)
    case TRevert =>
      s.(cycle := Running(TClear, l.(before := if s.marker.Some? then s.marker.value else None, reverted := true), b),
         current := s.backup)
    case TClear => s.(cycle := Running(TRead, l, b), marker := None,
                      acc := s.acc.(status := RolledBack, reason := CoreStopped))
    case TRead =>
      if o.readFails then s.(cycle := Running(Done, l, b), clean := false)
      else if !EverConfigured(s, s.current) then At(s, Done)
      else With(s, TWrite,
                l.(previous := s.current,
                   used := if l.reverted then ConfigToRestore(s, l.before) else ConfigToRestore(s, s.applied)))
  }

  predicate InRestore(pc: Pc) { pc.TWrite? || pc.TRecheck? || pc.TTear? || pc.TRecord? }

  /** Firewall.RestoreCurrent, the kernel half. */
  function RestoreStep(s: State, o: Outcome): State
    requires CanAdvance(s, o) && InRestore(s.cycle.pc)
  {
    var l, b := s.cycle.loc, s.cycle.start;
    match s.cycle.pc
    case TWrite =>
      s.(cycle := Running(TRecheck, l.(ok := o.write.Wrote?), b),
         kernel := Loaded(s, Table(l.previous, l.used), o.write), clean := s.clean && o.write.Wrote?)
    case TRecheck => At(s, if s.panic then TTear else if l.ok then TRecord else Done)
    case TTear => s.(cycle := Running(Done, l, b), kernel := None, orphan := false)
    case TRecord => s.(cycle := Running(Done, l, b), applied := Some(l.used))
  }

  /** The next step of whoever holds the apply slot. */
  function Advance(s: State, o: Outcome): State
    requires CanAdvance(s, o)
  {
    var pc := s.cycle.pc;
    if InPrepare(pc) then PrepareStep(s, o)
    else if InPromote(pc) then PromoteStep(s, o)
    else if InEnforce(pc) then EnforceStep(s, o)
    else if InDecide(pc) then DecideStep(s, o)
    else if InRevert(pc) then RevertStep(s, o)
    else if InRewrite(pc) then RewriteStep(s, o)
    else if InReclaim(pc) then ReclaimStep(s, o)
    else RestoreStep(s, o)
  }

  datatype Event =
    | BeginApply | BeginRestore(byResume: bool) | Step(o: Outcome) | Finish
    | SaveStaged(rules: Rules)                        // SaveStaged and ImportRules
    | SaveSettings(cfg: Config, windowOn: bool)
    | OperatorAccepts(now: int) | WindowCancelled(why: Option<Reason>, now: int) | StopFlag
    | PanicMark | PanicCancel(now: int) | PanicTear   // Firewall.Panic
    | ResumeClear | ResumeGivesUp                     // Firewall.Resume; its restore is BeginRestore
    | ConsoleMark | ConsoleTear | ConsoleClear        // the console with no daemon answering
    | ConsoleDies | Boot | Stop | Kill | Reboot

  predicate Enabled(s: State, e: Event) {
    match e
    case BeginApply => s.up && s.cycle.NoCycle?
    case BeginRestore(byResume) => s.up && s.cycle.NoCycle? && (byResume ==> s.console.ResumeCleared?)
    case Step(o) => CanAdvance(s, o)
    case Finish => s.up && s.cycle.Running? && (s.cycle.pc.Done? || s.cycle.pc.RDone?)
    case SaveStaged(_) => s.up
    case SaveSettings(_, _) => s.up
    case OperatorAccepts(_) => s.up
    case WindowCancelled(_, _) => s.up
    case StopFlag => s.up
    case PanicMark => s.up && s.console.Quiet?
    case PanicCancel(_) => s.up && s.console.PanicMarked?
    case PanicTear => s.up && s.console.PanicCancelled?
    case ResumeClear => s.up && s.console.Quiet?
    case ResumeGivesUp => s.up && s.console.ResumeCleared?
    case ConsoleMark => true
    case ConsoleTear => s.teardowns > 0
    case ConsoleClear => true
    case ConsoleDies => s.teardowns > 0
    case Boot => !s.up
    case Stop => s.up && s.cycle.NoCycle? && s.console.Quiet?
    case Kill => s.up
    case Reboot => true
  }

  function Begun(s: State, pc: Pc, calm: bool, resumed: bool): Cycle {
    Running(pc, Locals(false, s.current, s.current, s.cfg, None, s.cfg, false, false, resumed),
            Start(s.kernel, s.current, s.applied, calm))
  }

  function Do(s: State, e: Event): State
    requires Enabled(s, e)
  {
    match e
    case BeginApply => s.(cycle := Begun(s, ACheck, !TearPending(s), false))
    case BeginRestore(byResume) =>
      s.(cycle := Begun(s, TGate, false, byResume),
         console := if byResume then ResumeRestoring else s.console)
    case Step(o) => Advance(s, o)
    case Finish =>
      s.(cycle := NoCycle,
         console := if s.cycle.loc.resumed && s.console.ResumeRestoring? then Quiet else s.console,
         acc := if s.acc.status.Pending? && s.cycle.loc.on then s.acc.(status := Idle) else s.acc)
    case SaveStaged(r) => s.(staged := r)
    case SaveSettings(c, on) => s.(cfg := c, windowOn := on)
    case OperatorAccepts(now) => s.(acc := Confirmed(s.acc, now))
    case WindowCancelled(why, now) => s.(acc := Ended(s.acc, why, now))
    case StopFlag => s.(acc := s.acc.(stopping := true))
    case PanicMark => s.(panic := true, cycle := Disturbed(s.cycle), console := PanicMarked)
    case PanicCancel(now) => s.(acc := Ended(s.acc, Some(PanicMode), now), console := PanicCancelled)
    case PanicTear => s.(kernel := None, orphan := false, console := Quiet)
    case ResumeClear => s.(panic := false, orphan := false, console := ResumeCleared)
    case ResumeGivesUp => s.(console := Quiet)
    case ConsoleMark => s.(panic := true, cycle := Disturbed(s.cycle), teardowns := s.teardowns + 1)
    case ConsoleTear => s.(kernel := None, orphan := false, teardowns := s.teardowns - 1)
    case ConsoleClear => s.(panic := false, orphan := false)
    case ConsoleDies =>
      s.(teardowns := s.teardowns - 1, clean := false, orphan := s.orphan || (s.panic && s.kernel.Some?))
    case Boot => s.(up := true)
    case Stop => s.(up := false, acc := FRESH)
    case Kill =>
      s.(up := false, cycle := NoCycle, acc := FRESH, console := Quiet, clean := false,
         orphan := s.orphan || (s.panic && s.kernel.Some? && Pending(s)))
    case Reboot =>
      s.(up := false, cycle := NoCycle, acc := FRESH, console := Quiet, kernel := None, orphan := false, teardowns := 0)
  }

  predicate Run(s: State, es: seq<Event>, s': State)
    decreases |es|
  {
    if es == [] then s == s'
    else Enabled(s, es[0]) && Run(Do(s, es[0]), es[1..], s')
  }

  /** Every state some run from some initial state reaches. */
  ghost predicate Reachable(s: State) {
    exists i, es :: Init(i) && Run(i, es, s)
  }
}
