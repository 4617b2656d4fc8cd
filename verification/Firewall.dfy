/** The rules store and the firewall as objects, step by step the protocol's machine. */
module FirewallCore {
  import opened Addresses
  import opened Models
  import opened Protocol
  import ProtocolSafety
  import opened ProtocolTheorems
  import Answers
  import W = AcceptanceWindow

  /** rules.json: every method is one locked read-modify-write. */
  class RulesStore {
    var state: RulesState

    constructor (s: RulesState)
      ensures state == s
    {
      state := s;
    }

    /** One rule type of the staged set replaced, if the result validates. */
    method SaveStaged(kind: RuleKind, from: Rules) returns (ok: bool)
      modifies this
      ensures state == old(state).(staged := state.staged)
      ensures !ok ==> state == old(state)
      ensures ok ==> Replaces(old(state).staged, kind, from, state.staged)
      ensures ok <==> exists next: Rules :: Replaces(old(state).staged, kind, from, next) && next.Valid()
    {
      var next := Edited(state.staged, kind, from);
      assert Replaces(state.staged, kind, from, next);
      ok := next.Valid();
      if ok {
        state := state.(staged := next);
      }
    }

    method ImportRules(r: Rules) returns (ok: bool)
      modifies this
      ensures ok == r.Valid() && state == if ok then old(state).(staged := r) else old(state)
    {
      ok := r.Valid();
      if ok {
        state := state.(staged := r);
      }
    }

    method BackupCurrent()
      modifies this
      ensures state == old(state).(backup := old(state).current)
    {
      state := state.(backup := state.current);
    }

    method PromoteStaged()
      modifies this
      ensures state == old(state).(current := old(state).staged)
    {
      state := state.(current := state.staged);
    }

    method Rollback()
      modifies this
      ensures state == old(state).(current := old(state).backup)
    {
      state := state.(current := state.backup);
    }
  }

  datatype RuleKind = TcpRules | UdpRules | BlockRules | AllowRules | ForwardRules | CustomRules | FeedList

  function Edited(r: Rules, kind: RuleKind, from: Rules): Rules {
    match kind
    case TcpRules => r.(tcp := from.tcp)
    case UdpRules => r.(udp := from.udp)
    case BlockRules => r.(blocklist := from.blocklist)
    case AllowRules => r.(allowlist := from.allowlist)
    case ForwardRules => r.(forwarding := from.forwarding)
    case CustomRules => r.(custom := from.custom)
    case FeedList => r.(feeds := from.feeds)
  }

  /** `s` is `r` with the one kind taken from the other set. */
  predicate Replaces(r: Rules, kind: RuleKind, from: Rules, s: Rules) {
    && s.tcp == (if kind.TcpRules? then from else r).tcp && s.udp == (if kind.UdpRules? then from else r).udp
    && s.blocklist == (if kind.BlockRules? then from else r).blocklist
    && s.allowlist == (if kind.AllowRules? then from else r).allowlist
    && s.forwarding == (if kind.ForwardRules? then from else r).forwarding
    && s.custom == (if kind.CustomRules? then from else r).custom
    && s.feeds == (if kind.FeedList? then from else r).feeds
  }

  /** What the surroundings have in store for one cycle. */
  datatype Weather = Weather(
    readFails: bool, rereadFails: bool, write: Write, panicLands: bool, length: int, start: int,
    answer: Option<int>, rewrite: Write)

  datatype Result = Busy | RefusedByPanic | Unread | Unconfirmed | Kept

  /** Every kernel write succeeds and panic mode stays off. */
  predicate Undisturbed(w: Weather) { w.write.Wrote? && w.rewrite.Wrote? && !w.panicLands }

  /** What keeping the new rules takes: written, no panic mode, and the window's answer where there is a window. */
  predicate Earned(w: Weather, panic: bool, on: bool, c: W.Control) {
    && w.write.Wrote? && !panic && !w.panicLands
    && (on ==>
          var opening := W.Started(c, w.length, w.start);
          opening.accepted || (w.answer.Some? && W.AcceptLands(opening, w.answer.value)))
  }

  /** The same in numbers, from where the apply began: an answer before the window's length is over. */
  predicate KeptInTime(w: Weather, s: State, on: bool) {
    && w.write.Wrote? && !s.panic && !w.panicLands
    && (on ==> && w.answer.Some? && !s.acc.stopping
               && w.answer.value < w.start + if w.length > 0 then w.length else s.acc.duration)
  }

  lemma EarnedInTime(s: State, w: Weather, on: bool)
    requires !s.acc.status.Pending?
    ensures Earned(w, s.panic, on, s.acc) <==> KeptInTime(w, s, on)
  {
    W.WindowLasts(s.acc, w.length, w.start, if w.answer.Some? then w.answer.value else w.start);
  }

  lemma NoWindowYet(s: State)
    requires Reached(s) && s.cycle.NoCycle?
    ensures !s.acc.status.Pending?
  {
    ReachedIsReachable(s);
    Answers.NoWindowBetweenCycles(s);
  }

  function Calm(now: int): Outcome { Outcome(Wrote, now, 0, false) }

  /** Two moments of one apply: what no part of it after the snapshot changes. */
  predicate InSameSlot(s: State, s': State) {
    && s.cycle.Running? && s'.cycle.Running?
    && s'.cycle.loc.on == s.cycle.loc.on && s'.cycle.loc.resumed == s.cycle.loc.resumed
    && s'.staged == s.staged && s'.backup == s.backup && s'.cfg == s.cfg && s'.windowOn == s.windowOn
    && s'.overwrote == s.overwrote && s'.console == s.console
  }

  /** The end of an apply that kept its rules ... */
  predicate Stands(s: State, r: Rules, opts: Config, marker: Option<Option<Config>>) {
    && s.cycle.Running? && s.cycle.pc.Done? && s.current == r && s.kernel == Some(Table(r, opts))
    && s.applied == Some(opts) && s.stamped && s.marker == marker
  }

  /** ... and of one that did not. */
  predicate Undone(s: State, r: Rules, stamped: bool) {
    s.cycle.Running? && s.cycle.pc.RDone? && s.current == r && s.marker.None? && s.stamped == stamped
  }

  /**
   The configuration a rollback goes back to: the record from before, or the saved one where there is none to go
   by.
   */
  function PutBackConfig(previous: Rules, before: Option<Config>, stamped: bool, cfg: Config): Config {
    if before.Some? && (!previous.IsEmpty() || stamped) then before.value else cfg
  }

  /** What its write leaves in the kernel: nothing after a first apply, else the previous rules. */
  function PutBackTable(k: Option<Table>, write: Write, previous: Rules, before: Option<Config>, stamped: bool,
                        cfg: Config)
    : Option<Table>
  {
    if previous.IsEmpty() && !stamped then None
    else if write.Refused? then k
    else Some(Table(previous, PutBackConfig(previous, before, stamped, cfg)))
  }

  predicate PutsBack(write: Write, previous: Rules, stamped: bool) { (previous.IsEmpty() && !stamped) || write.Wrote? }

  /** The table after an apply's own write and the re-check, and the record after them. */
  function TriedTable(k: Option<Table>, w: Weather, panic: bool, tried: Table): Option<Table> {
    if panic || w.panicLands then None else if w.write.Refused? then k else Some(tried)
  }

  function TriedRecord(a: Option<Config>, w: Weather, panic: bool, opts: Config): Option<Config> {
    if w.write.Wrote? && !panic && !w.panicLands then Some(opts) else a
  }

  /** Table and record after the rollback of an apply that tried `tried`: `s` is where its window opened. */
  predicate TakenBack(s: State, s': State, w: Weather)
    requires s.cycle.Running?
  {
    var l, tried := s.cycle.loc, Table(s.current, s.cycle.loc.opts);
    var panic := s.panic || w.panicLands;
    && s'.kernel == (if panic then None
                     else PutBackTable(TriedTable(s.kernel, w, s.panic, tried), w.rewrite, s.backup, l.before,
                                       s.stamped, s.cfg))
    && s'.applied == (if !panic && PutsBack(w.rewrite, s.backup, s.stamped)
                      then Some(PutBackConfig(s.backup, l.before, s.stamped, s.cfg))
                      else TriedRecord(s.applied, w, s.panic, l.opts))
  }

  /** apply from the open window to its end: `s` just before, `s'` just after. */
  predicate Carried(s: State, s': State, w: Weather, kept: bool) {
    && InSameSlot(s, s') && kept == Earned(w, s.panic, s.cycle.loc.on, s.acc)
    && (if kept then Stands(s', s.current, s.cycle.loc.opts, if s.cycle.loc.on then None else s.marker)
        else Undone(s', s.backup, s.stamped) && TakenBack(s, s', w))
    && s'.panic == (s.panic || w.panicLands)
    && (!w.panicLands ==> s'.cycle.start == s.cycle.start)
    && (w.write.Wrote? && w.rewrite.Wrote? ==> s'.clean == s.clean)
  }

  /** The same, from the state the apply found. */
  function FailedTable(s: State, w: Weather): Option<Table> {
    if w.panicLands || (s.current == NO_RULES && !s.stamped) then None
    else if !w.rewrite.Refused? then Some(Table(s.current, if s.applied.Some? then s.applied.value else s.cfg))
    else if w.write.Refused? then s.kernel
    else Some(Table(s.staged, s.cfg))
  }

  function FailedRecord(s: State, w: Weather): Option<Config> {
    if w.panicLands then s.applied
    else if s.current == NO_RULES && !s.stamped then Some(s.cfg)
    else if w.rewrite.Wrote? then Some(if s.applied.Some? then s.applied.value else s.cfg)
    else if w.write.Wrote? then Some(s.cfg)
    else s.applied
  }

  /** How that compares with what was there, when nothing had gone wrong before and nothing does now. */
  lemma UndoneInFull(s: State, w: Weather)
    requires Reached(s) && s.cycle.NoCycle? && s.clean && !s.overwrote && !TearPending(s) && Undisturbed(w)
    ensures var k, a := FailedTable(s, w), FailedRecord(s, w);
            && (s.kernel.Some? ==> k == s.kernel && a == s.applied)
            && (k == s.kernel <==> s.kernel.Some? || (s.current == NO_RULES && !s.stamped))
            && (a == s.applied
                <==> s.applied.Some? && (s.current != NO_RULES || s.stamped || s.applied.value == s.cfg))
  {
    ReachedIsReachable(s);
    ProtocolSafety.ReachableKeeps(s);
  }

  /** One apply that got the slot, from the state it found to the state it left. */
  predicate ComesTo(s: State, s': State, w: Weather, r: Result) {
    && !r.Busy? && s'.staged == s.staged
    && (r.RefusedByPanic? <==> s.panic) && (r.Unread? <==> !s.panic && (w.readFails || w.rereadFails))
    && (r.Kept? <==> !w.readFails && !w.rereadFails && KeptInTime(w, s, s.windowOn))
    && s'.panic == (s.panic || (r.Unconfirmed? && w.panicLands))
    && match r
       case RefusedByPanic => SameFiles(s, s') && SameKernel(s, s')
       case Unread =>
         && SameKernel(s, s')
         && if w.readFails then SameFiles(s, s')
            else && s'.current == s.staged && s'.backup == s.current && s'.stamped == s.stamped
                 && s'.marker == if s.windowOn then Some(s.applied) else s.marker
       case Kept =>
         && s'.current == s.staged && s'.backup == s.current && s'.kernel == Some(Table(s.staged, s.cfg))
         && s'.applied == Some(s.cfg) && s'.stamped && s'.marker == if s.windowOn then None else s.marker
       case Unconfirmed =>
         && s'.current == s'.backup == s.current && s'.marker.None? && s'.stamped == s.stamped
         && s'.kernel == FailedTable(s, w) && s'.applied == FailedRecord(s, w)
  }

  predicate SameFiles(s: State, s': State) {
    s'.current == s.current && s'.backup == s.backup && s'.marker == s.marker && s'.stamped == s.stamped
  }

  predicate SameKernel(s: State, s': State) { s'.kernel == s.kernel && s'.applied == s.applied }

  /** apply from its marker to its end. */
  predicate Launched(s: State, s': State, w: Weather, kept: bool) {
    && InSameSlot(s, s') && kept == Earned(w, s.panic, s.cycle.loc.on, s.acc)
    && (if kept then Stands(s', s.staged, s.cycle.loc.opts, if s.cycle.loc.on then None else s.marker)
        else Undone(s', s.backup, s.stamped) && TakenBack(s.(current := s.staged), s', w))
    && s'.panic == (s.panic || w.panicLands)
    && (!w.panicLands ==> s'.cycle.start == s.cycle.start)
    && (w.write.Wrote? && w.rewrite.Wrote? ==> s'.clean == s.clean)
  }

  /** The promoted rules could not be read back: nothing reached the kernel. */
  predicate LeftUnread(s: State, s': State) {
    && InSameSlot(s, s') && s'.cycle.pc.Done? && s'.current == s.staged && s'.stamped == s.stamped
    && s'.marker == (if s.cycle.loc.on then Some(s.cycle.loc.before) else s.marker)
    && s'.kernel == s.kernel && s'.applied == s.applied && s'.panic == s.panic
  }

  /** `s` is where the apply began, `p` where its marker was due. */
  lemma FailedBy(s: State, p: State, s': State, w: Weather)
    requires p.cycle.Running? && TakenBack(p.(current := p.staged), s', w)
    requires p.backup == s.current && p.staged == s.staged && p.kernel == s.kernel && p.applied == s.applied
    requires p.stamped == s.stamped && p.cfg == s.cfg && !p.panic
    requires p.cycle.loc.before == s.applied && p.cycle.loc.opts == s.cfg
    ensures s'.kernel == FailedTable(s, w) && s'.applied == FailedRecord(s, w)
  {
  }

  lemma KeptBy(s: State, s': State, w: Weather)
    requires s.cycle.Running? && s'.cycle.Running? && s'.cycle.pc.Done?
    requires Earned(w, s.panic, s.cycle.loc.on, s.acc) && s'.cycle.loc == s.cycle.loc.(ok := w.write.Wrote?)
    requires s' == s.(cycle := s'.cycle, acc := s'.acc, kernel := Some(Table(s.current, s.cycle.loc.opts)),
                      applied := Some(s.cycle.loc.opts), panic := s.panic || w.panicLands, teardowns := s'.teardowns,
                      clean := s.clean && w.write.Wrote?, orphan := s'.orphan, authorised := s'.authorised,
                      stamped := true, marker := if s.cycle.loc.on then None else s.marker)
    requires !w.panicLands ==> s'.cycle.start == s.cycle.start
    ensures Carried(s, s', w, true)
  {
  }

  /** The window closed, or never opened over a standing table, without a yes. */
  predicate Tried(s: State, t: State, w: Weather) {
    && s.cycle.Running? && t.cycle.Running?
    && !Earned(w, s.panic, s.cycle.loc.on, s.acc) && t.cycle.loc == s.cycle.loc.(ok := w.write.Wrote?)
    && t == s.(cycle := t.cycle, acc := t.acc, kernel := t.kernel, applied := t.applied,
               panic := s.panic || w.panicLands, teardowns := t.teardowns, clean := s.clean && w.write.Wrote?,
               orphan := t.orphan, authorised := t.authorised)
    && t.kernel == TriedTable(s.kernel, w, s.panic, Table(s.current, s.cycle.loc.opts))
    && t.applied == TriedRecord(s.applied, w, s.panic, s.cycle.loc.opts)
    && (!w.panicLands ==> t.cycle.start == s.cycle.start)
  }

  lemma UndoneBy(s: State, t: State, s': State, w: Weather)
    requires Tried(s, t, w) && s'.cycle.Running? && s'.cycle.pc.RDone?
    requires s' == t.(cycle := s'.cycle, current := t.backup, marker := None, kernel := s'.kernel,
                      applied := s'.applied, clean := s'.clean, orphan := s'.orphan)
    requires s'.cycle.start == t.cycle.start
    requires s'.cycle.loc.on == t.cycle.loc.on && s'.cycle.loc.resumed == t.cycle.loc.resumed
    requires w.rewrite.Wrote? ==> s'.clean == t.clean
    requires s'.kernel == if t.panic then t.kernel
                          else PutBackTable(t.kernel, w.rewrite, t.backup, t.cycle.loc.before, t.stamped, t.cfg)
    requires s'.applied == if PutsBack(w.rewrite, t.backup, t.stamped) && !t.panic
                           then Some(PutBackConfig(t.backup, t.cycle.loc.before, t.stamped, t.cfg)) else t.applied
    ensures Carried(s, s', w, false)
  {
  }

  lemma LaunchedBy(s: State, p: State, s': State, w: Weather, kept: bool)
    requires s.cycle.Running? && p.cycle.Running? && Carried(p, s', w, kept)
    requires p == s.(cycle := p.cycle, current := s.staged, authorised := p.authorised, marker := p.marker)
    requires p.marker == (if s.cycle.loc.on then Some(s.cycle.loc.before) else s.marker)
    requires p.cycle.loc == s.cycle.loc.(updated := p.cycle.loc.updated) && p.cycle.start == s.cycle.start
    ensures Launched(s, s', w, kept)
  {
  }

  /** What RestoreCurrent makes of the rules file: an unconfirmed set goes back first. */
  function Reclaimed(s: State): Rules {
    if !s.panic && s.marker.Some? then s.backup else s.current
  }

  /** ... and the configuration on record for it. */
  function StoredConfig(s: State): Option<Config> {
    if s.marker.Some? then s.marker.value else s.applied
  }

  const NO_RULES := Rules([], [], [], [], [], [], [])

  /** The configuration from before an unconfirmed apply, else the one on record, else the saved one. */
  function LastConfig(marker: Option<Option<Config>>, applied: Option<Config>, cfg: Config): Config {
    match marker
    case Some(Some(before)) => before
    case Some(None) => cfg
    case None => if applied.Some? then applied.value else cfg
  }

  /** What the kernel holds after RestoreCurrent wrote `r`, panic mode engaged or not by the end. */
  function Restored(s: State, write: Write, panic: bool, r: Rules): Option<Table> {
    if panic then None
    else if write.Refused? then s.kernel
    else Some(Table(r, ConfigToRestore(s, StoredConfig(s))))
  }

  class Firewall {
    const rules: RulesStore
    const acceptance: W.Acceptance
    var marker: Option<Option<Config>>
    var panic: bool
    var applied: Option<Config>
    var stamped: bool
    var cfg: Config
    var windowOn: bool
    var kernel: Option<Table>
    var applying: bool
    ghost var m: State  // the machine this object is a part of

    /** The object is where its machine is. */
    ghost predicate Coupled()
      reads this, rules, acceptance
    {
      && m.current == rules.state.current && m.staged == rules.state.staged && m.backup == rules.state.backup
      && m.marker == marker && m.panic == panic && m.applied == applied && m.stamped == stamped
      && m.cfg == cfg && m.windowOn == windowOn && m.kernel == kernel
      && m.acc == acceptance.View() && m.up && applying == m.cycle.Running?
    }

    ghost predicate Valid()
      reads this, rules, acceptance
    {
      Coupled() && Reached(m)
    }

    /** A core started over these files, with no table in the kernel and no apply ever interrupted. */
    constructor (stored: RulesState, panicMarker: bool, record: Option<Config>, stamp: bool, config: Config,
                 window: bool, length: int)
      ensures Valid() && fresh(rules) && fresh(acceptance) && rules.state == stored && !applying && kernel.None?
      ensures marker.None? && panic == panicMarker && applied == record && stamped == stamp && cfg == config
      ensures windowOn == window && m.clean && !m.overwrote
    {
      rules := new RulesStore(stored);
      acceptance := new W.Acceptance(length);
      marker, panic, applied, stamped := None, panicMarker, record, stamp;
      cfg, windowOn, kernel, applying := config, window, None, false;
      var down := State(stored.current, stored.staged, stored.backup, None, panicMarker, record, stamp, config, window,
                        None, false, NoCycle, W.FRESH.(duration := length), Quiet, 0, {stored.current}, false, true,
                        false);
      m := down.(up := true);
      new;
      assert Reached(down);
      ReachedThen(down, Boot);
    }

    // The machine's own steps, one phase at a time.

    ghost method StepPrepare(o: Outcome)
      requires Reached(m) && CanAdvance(m, o) && InPrepare(m.cycle.pc)
      modifies this`m
      ensures m == PrepareStep(old(m), o) && Reached(m)
    {
      ReachedThen(m, Step(o));
      PrepareIsNext(m, o);
      m := PrepareStep(m, o);
    }

    ghost method StepPromote(o: Outcome)
      requires Reached(m) && CanAdvance(m, o) && InPromote(m.cycle.pc)
      modifies this`m
      ensures m == PromoteStep(old(m), o) && Reached(m)
    {
      ReachedThen(m, Step(o));
      PromoteIsNext(m, o);
      m := PromoteStep(m, o);
    }

    ghost method StepEnforce(o: Outcome)
      requires Reached(m) && CanAdvance(m, o) && InEnforce(m.cycle.pc)
      modifies this`m
      ensures m == EnforceStep(old(m), o) && Reached(m)
    {
      ReachedThen(m, Step(o));
      EnforceIsNext(m, o);
      m := EnforceStep(m, o);
    }

    ghost method StepDecide(o: Outcome)
      requires Reached(m) && CanAdvance(m, o) && InDecide(m.cycle.pc)
      modifies this`m
      ensures m == DecideStep(old(m), o) && Reached(m)
    {
      ReachedThen(m, Step(o));
      DecideIsNext(m, o);
      m := DecideStep(m, o);
    }

    ghost method StepRevert(o: Outcome)
      requires Reached(m) && CanAdvance(m, o) && InRevert(m.cycle.pc)
      modifies this`m
      ensures m == RevertStep(old(m), o) && Reached(m)
    {
      ReachedThen(m, Step(o));
      RevertIsNext(m, o);
      m := RevertStep(m, o);
    }

    ghost method StepRewrite(o: Outcome)
      requires Reached(m) && CanAdvance(m, o) && InRewrite(m.cycle.pc)
      modifies this`m
      ensures m == RewriteStep(old(m), o) && Reached(m)
    {
      ReachedThen(m, Step(o));
      RewriteIsNext(m, o);
      m := RewriteStep(m, o);
    }

    ghost method StepReclaim(o: Outcome)
      requires Reached(m) && CanAdvance(m, o) && InReclaim(m.cycle.pc)
      modifies this`m
      ensures m == ReclaimStep(old(m), o) && Reached(m)
    {
      ReachedThen(m, Step(o));
      ReclaimIsNext(m, o);
      m := ReclaimStep(m, o);
    }

    ghost method StepRestore(o: Outcome)
      requires Reached(m) && CanAdvance(m, o) && InRestore(m.cycle.pc)
      modifies this`m
      ensures m == RestoreStep(old(m), o) && Reached(m)
    {
      ReachedThen(m, Step(o));
      RestoreIsNext(m, o);
      m := RestoreStep(m, o);
    }

    /** beginApply. */
    method BeginApply() returns (ok: bool)
      requires Valid()
      modifies this`applying, this`m
      ensures Valid() && ok == !old(applying)
      ensures m == if ok then old(m).(cycle := Begun(old(m), ACheck, !TearPending(old(m)), false)) else old(m)
    {
      if applying {
        return false;
      }
      ReachedThen(m, Event.BeginApply);
      m := Do(m, Event.BeginApply);
      applying := true;
      return true;
    }

    /** endApply, after apply's own deferred Reset. */
    method EndApply(on: bool)
      requires Valid() && m.cycle.Running? && (m.cycle.pc.Done? || m.cycle.pc.RDone?)
      requires on == m.cycle.loc.on && !m.cycle.loc.resumed
      modifies this`applying, this`m, acceptance
      ensures Valid() && !applying
      ensures m == old(m).(cycle := NoCycle, acc := m.acc)
    {
      ReachedThen(m, Finish);
      m := Do(m, Finish);
      if acceptance.status == W.Pending && on {
        acceptance.Reset();
      }
      applying := false;
    }

    /** apply: refused while panic mode is engaged. */
    method CheckPanic() returns (refused: bool)
      requires Valid() && m.cycle.Running? && m.cycle.pc.ACheck?
      modifies this`m
      ensures Valid() && refused == panic
      ensures m == old(m).(cycle := Running(if refused then Done else ARead, old(m).cycle.loc, old(m).cycle.start))
    {
      refused := panic;
      StepPrepare(Calm(0));
    }

    method ReadRules(fails: bool) returns (previous: Rules)
      requires Valid() && m.cycle.Running? && m.cycle.pc.ARead?
      modifies this`m
      ensures Valid() && previous == rules.state.current
      ensures m == old(m).(cycle := m.cycle, clean := old(m).clean && !fails)
      ensures m.cycle == if fails then Running(Done, old(m).cycle.loc, old(m).cycle.start)
                         else Running(ABackup, old(m).cycle.loc.(previous := previous), old(m).cycle.start)
    {
      previous := rules.state.current;
      StepPrepare(Outcome(Wrote, 0, 0, fails));
    }

    /** apply: the backup and the configuration snapshot. */
    method BackupAndSnapshot() returns (opts: Config, on: bool, before: Option<Config>)
      requires Valid() && m.cycle.Running? && m.cycle.pc.ABackup?
      modifies this`m, rules
      ensures Valid() && opts == cfg && on == windowOn && before == applied
      ensures m == old(m).(cycle := m.cycle, backup := old(m).current, overwrote := old(m).overwrote || marker.Some?)
      ensures m.cycle == Running(AMark, old(m).cycle.loc.(opts := opts, on := on, before := before), old(m).cycle.start)
    {
      rules.BackupCurrent();
      StepPrepare(Calm(0));
      opts, on, before := cfg, windowOn, applied;
      StepPrepare(Calm(0));
    }

    /** apply: the marker, where there is a window. */
    method Mark(on: bool, before: Option<Config>)
      requires Valid() && m.cycle.Running? && m.cycle.pc.AMark? && m.cycle.loc.on == on && m.cycle.loc.before == before
      modifies this`m, this`marker
      ensures Valid()
      ensures m == old(m).(cycle := Running(APromote, old(m).cycle.loc, old(m).cycle.start),
                           marker := if on then Some(before) else old(m).marker)
    {
      if on {
        marker := Some(before);
      }
      StepPromote(Calm(0));
    }

    /** apply: the promotion. */
    method PromoteRules(ghost on: bool)
      requires Valid() && m.cycle.Running? && m.cycle.pc.APromote? && m.cycle.loc.on == on
      modifies this`m, rules
      ensures Valid()
      ensures m == old(m).(cycle := Running(AReread, old(m).cycle.loc, old(m).cycle.start), current := old(m).staged,
                           authorised := if on then old(m).authorised else old(m).authorised + {old(m).staged})
    {
      rules.PromoteStaged();
      StepPromote(Calm(0));
    }

    /** apply: the rules read back from the file. */
    method Reread(fails: bool) returns (updated: Rules)
      requires Valid() && m.cycle.Running? && m.cycle.pc.AReread?
      modifies this`m
      ensures Valid() && updated == rules.state.current
      ensures m == old(m).(cycle := m.cycle, clean := old(m).clean && !fails)
      ensures m.cycle == if fails then Running(Done, old(m).cycle.loc, old(m).cycle.start)
                         else Running(AOpen, old(m).cycle.loc.(updated := updated), old(m).cycle.start)
    {
      updated := rules.state.current;
      StepPromote(Outcome(Wrote, 0, 0, fails));
    }

    method OpenWindow(w: Weather, on: bool)
      requires Valid() && m.cycle.Running? && m.cycle.pc.AOpen? && m.cycle.loc.on == on
      modifies this`m, acceptance
      ensures Valid()
      ensures m == old(m).(cycle := Running(AWrite, old(m).cycle.loc, old(m).cycle.start),
                           acc := if on then W.Started(old(m).acc, w.length, w.start) else old(m).acc)
    {
      StepPromote(Outcome(Wrote, w.start, w.length, false));
      if on {
        acceptance.Start(w.length, w.start);
      }
    }

    /** apply: ApplyWithFeeds; an error closes the window at once. */
    method WriteKernel(write: Write, updated: Rules, opts: Config)
      requires Valid() && m.cycle.Running? && m.cycle.pc.AWrite? && m.cycle.loc.updated == updated
      requires m.cycle.loc.opts == opts
      modifies this`m, this`kernel, acceptance
      ensures Valid() && kernel == if write.Refused? then old(kernel) else Some(Table(updated, opts))
      ensures m == old(m).(cycle := m.cycle, clean := old(m).clean && write.Wrote?, acc := m.acc, kernel := m.kernel)
      ensures m.cycle == Running(ARecheck, old(m).cycle.loc.(ok := write.Wrote?), old(m).cycle.start)
      ensures write.Wrote? ==> m.acc == old(m).acc
    {
      StepEnforce(Outcome(write, 0, 0, false));
      if !write.Refused? {
        kernel := Some(Table(updated, opts));
      }
      if !write.Wrote? {
        acceptance.Reset();
      }
    }

    /** Panic mode engaged from a console that found no daemon: only its marker is seen from here. */
    method ConsolePanics()
      requires Valid()
      modifies this`m, this`panic
      ensures Valid() && panic
      ensures m == old(m).(panic := true, cycle := Disturbed(old(m).cycle), teardowns := old(m).teardowns + 1)
    {
      ReachedThen(m, ConsoleMark);
      m := Do(m, ConsoleMark);
      panic := true;
    }

    /** ... under the feet of whoever holds the slot, or not. */
    method MayPanic(lands: bool)
      requires Valid() && m.cycle.Running?
      modifies this`m, this`panic
      ensures Valid() && panic == (old(panic) || lands)
      ensures m == old(m).(panic := panic, cycle := m.cycle, teardowns := m.teardowns)
      ensures m.cycle.Running? && m.cycle.pc == old(m).cycle.pc && m.cycle.loc == old(m).cycle.loc
      ensures !lands ==> m.cycle.start == old(m).cycle.start
    {
      if lands {
        ConsolePanics();
      }
    }

    /** apply: the marker looked at once more, now that rules may be in the kernel. */
    method Recheck() returns (torn: bool)
      requires Valid() && m.cycle.Running? && m.cycle.pc.ARecheck?
      modifies this`m
      ensures Valid() && torn == panic
      ensures m == old(m).(cycle := m.cycle)
      ensures m.cycle == Running(if torn then ATear else if old(m).cycle.loc.ok then ARecord else RRevert,
                                 old(m).cycle.loc, old(m).cycle.start)
    {
      torn := panic;
      StepEnforce(Calm(0));
    }

    /** panicLandedDuringWrite. */
    method TearDownAgain()
      requires Valid() && m.cycle.Running? && m.cycle.pc.ATear?
      modifies this`m, this`kernel, acceptance
      ensures Valid() && kernel.None?
      ensures m == old(m).(cycle := Running(RRevert, old(m).cycle.loc, old(m).cycle.start), kernel := None,
                           orphan := false,
                           acc := m.acc)
    {
      StepEnforce(Calm(0));
      kernel := None;
      acceptance.Reset();
    }

    /** recordAppliedConfig. */
    method RecordApplied(opts: Config)
      requires Valid() && m.cycle.Running? && m.cycle.pc.ARecord? && m.cycle.loc.opts == opts
      modifies this`m, this`applied
      ensures Valid() && applied == Some(opts)
      ensures m == old(m).(cycle := Running(AWait, old(m).cycle.loc, old(m).cycle.start), applied := Some(opts))
    {
      StepEnforce(Calm(0));
      applied := Some(opts);
    }

    /** The operator, in the middle of the window. */
    method Accept(now: int) returns (landed: bool)
      requires Valid()
      modifies this`m, acceptance
      ensures Valid() && m == old(m).(acc := W.Confirmed(old(m).acc, now)) && landed == W.AcceptLands(old(m).acc, now)
    {
      ReachedThen(m, OperatorAccepts(now));
      m := Do(m, OperatorAccepts(now));
      landed := acceptance.Accept(now);
    }

    /** apply: Wait, once one of the window's channels is ready. */
    method AwaitAnswer(on: bool, wake: int) returns (accepted: bool)
      requires Valid() && m.cycle.Running? && m.cycle.pc.AWait? && m.cycle.loc.on == on && (on ==> W.Awake(m.acc, wake))
      modifies this`m, acceptance
      ensures Valid() && accepted == (on && old(acceptance.accepted))
      ensures m == old(m).(cycle := m.cycle, acc := m.acc,
                           authorised := if accepted then old(m).authorised + {old(m).current} else old(m).authorised)
      ensures m.cycle == Running(if !on then AStamp else if accepted then AConfirm else RRevert,
                                 old(m).cycle.loc, old(m).cycle.start)
    {
      StepDecide(Calm(wake));
      accepted := false;
      if on {
        accepted := acceptance.Wait();
      }
    }

    method Confirm()
      requires Valid() && m.cycle.Running? && m.cycle.pc.AConfirm?
      modifies this`m, this`marker
      ensures Valid() && marker.None?
      ensures m == old(m).(cycle := Running(AStamp, old(m).cycle.loc, old(m).cycle.start), marker := None)
    {
      StepDecide(Calm(0));
      marker := None;
    }

    method Stamp()
      requires Valid() && m.cycle.Running? && m.cycle.pc.AStamp?
      modifies this`m, this`stamped
      ensures Valid() && stamped
      ensures m == old(m).(cycle := Running(Done, old(m).cycle.loc, old(m).cycle.start), stamped := true)
    {
      StepDecide(Calm(0));
      stamped := true;
    }

    /** rollback: the rules file, then the marker. */
    method RevertFiles()
      requires Valid() && m.cycle.Running? && m.cycle.pc.RRevert?
      modifies this`m, this`marker, rules
      ensures Valid() && marker.None?
      ensures m == old(m).(cycle := Running(RGate, old(m).cycle.loc, old(m).cycle.start), current := old(m).backup,
                           marker := None)
    {
      rules.Rollback();
      StepRevert(Calm(0));
      marker := None;
      StepRevert(Calm(0));
    }

    /** rollback: the kernel is left alone while panic mode is engaged. */
    method Gate() returns (engaged: bool)
      requires Valid() && m.cycle.Running? && m.cycle.pc.RGate?
      modifies this`m
      ensures Valid() && engaged == panic
      ensures m == old(m).(cycle := Running(if engaged then RDone else RWrite, old(m).cycle.loc, old(m).cycle.start))
    {
      engaged := panic;
      StepRevert(Calm(0));
    }

    /** rollback of a first apply: there are no rules to write back, so its table goes. */
    method TakeDownFirstTable(previous: Rules) returns (used: Config)
      requires Valid() && m.cycle.Running? && m.cycle.pc.RWrite? && m.cycle.loc.previous == previous
      requires previous.IsEmpty() && !stamped
      modifies this`m, this`kernel
      ensures Valid() && kernel.None? && used == cfg
      ensures m == old(m).(cycle := Running(RRecheck, old(m).cycle.loc.(ok := true, used := used), old(m).cycle.start),
                           kernel := None, orphan := false)
    {
      StepRewrite(Calm(0));
      used, kernel := cfg, None;
    }

    /** rollback: the previous rules written back under the configuration that stood before. */
    method WriteBack(write: Write, previous: Rules, before: Option<Config>) returns (used: Config)
      requires Valid() && m.cycle.Running? && m.cycle.pc.RWrite?
      requires m.cycle.loc.previous == previous && m.cycle.loc.before == before && (!previous.IsEmpty() || stamped)
      modifies this`m, this`kernel
      ensures Valid() && used == (if before.Some? then before.value else cfg)
      ensures kernel == if write.Refused? then old(kernel) else Some(Table(previous, used))
      ensures m == old(m).(cycle := Running(RRecheck, old(m).cycle.loc.(ok := write.Wrote?, used := used),
                                            old(m).cycle.start),
                           kernel := kernel, clean := old(m).clean && write.Wrote?)
    {
      StepRewrite(Outcome(write, 0, 0, false));
      used := if before.Some? then before.value else cfg;
      if !write.Refused? {
        kernel := Some(Table(previous, used));
      }
    }

    /** rollback: the marker looked at once more. */
    method RecheckRollback(ok: bool) returns (torn: bool)
      requires Valid() && m.cycle.Running? && m.cycle.pc.RRecheck? && m.cycle.loc.ok == ok
      modifies this`m
      ensures Valid() && torn == panic
      ensures m == old(m).(cycle := Running(if torn then RTear else if ok then RRecord else RDone,
                                            old(m).cycle.loc, old(m).cycle.start))
    {
      torn := panic;
      StepRewrite(Calm(0));
    }

    method TearDownRollback()
      requires Valid() && m.cycle.Running? && m.cycle.pc.RTear?
      modifies this`m, this`kernel
      ensures Valid() && kernel.None?
      ensures m == old(m).(cycle := Running(RDone, old(m).cycle.loc, old(m).cycle.start), kernel := None,
                           orphan := false)
    {
      StepRewrite(Calm(0));
      kernel := None;
    }

    method RecordRollback(used: Config)
      requires Valid() && m.cycle.Running? && m.cycle.pc.RRecord? && m.cycle.loc.used == used
      modifies this`m, this`applied
      ensures Valid() && applied == Some(used)
      ensures m == old(m).(cycle := Running(RDone, old(m).cycle.loc, old(m).cycle.start), applied := Some(used))
    {
      StepRewrite(Calm(0));
      applied := Some(used);
    }

    /** rollback's write, one way or the other. */
    method Rewrite(write: Write, previous: Rules, before: Option<Config>) returns (used: Config, ok: bool)
      requires Valid() && m.cycle.Running? && m.cycle.pc.RWrite?
      requires m.cycle.loc.previous == previous && m.cycle.loc.before == before
      modifies this`m, this`kernel
      ensures Valid() && (write.Wrote? ==> m.clean == old(m).clean)
      ensures ok == PutsBack(write, previous, stamped) && used == PutBackConfig(previous, before, stamped, cfg)
      ensures kernel == PutBackTable(old(kernel), write, previous, before, stamped, cfg)
      ensures m == old(m).(cycle := Running(RRecheck, old(m).cycle.loc.(ok := ok, used := used), old(m).cycle.start),
                           kernel := m.kernel, clean := m.clean, orphan := m.orphan)
    {
      if previous.IsEmpty() && !stamped {
        used := TakeDownFirstTable(previous);
        ok := true;
      } else {
        used := WriteBack(write, previous, before);
        ok := write.Wrote?;
      }
    }

    /** rollback after its write: torn down again, recorded, or left as the failed write left it. */
    method SettleRollback(used: Config, ok: bool)
      requires Valid() && m.cycle.Running? && m.cycle.pc.RRecheck? && m.cycle.loc.ok == ok && m.cycle.loc.used == used
      modifies this`m, this`kernel, this`applied
      ensures Valid() && kernel == (if panic then None else old(kernel))
      ensures applied == if ok && !panic then Some(used) else old(applied)
      ensures m == old(m).(cycle := Running(RDone, old(m).cycle.loc, old(m).cycle.start), kernel := m.kernel,
                           applied := m.applied, orphan := m.orphan)
    {
      var torn := RecheckRollback(ok);
      if torn {
        TearDownRollback();
      } else if ok {
        RecordRollback(used);
      }
    }

    /** rollback's kernel half. */
    method RollbackKernel(write: Write, previous: Rules, before: Option<Config>)
      requires Valid() && m.cycle.Running? && m.cycle.pc.RWrite?
      requires m.cycle.loc.previous == previous && m.cycle.loc.before == before
      modifies this`m, this`kernel, this`applied
      ensures Valid() && m.cycle.Running? && m.cycle.pc.RDone? && m.cycle.start == old(m).cycle.start
      ensures m == old(m).(cycle := m.cycle, kernel := m.kernel, applied := m.applied, clean := m.clean,
                           orphan := m.orphan)
      ensures m.cycle.loc.on == old(m).cycle.loc.on && m.cycle.loc.resumed == old(m).cycle.loc.resumed
      ensures write.Wrote? ==> m.clean == old(m).clean
      ensures kernel == if panic then None else PutBackTable(old(kernel), write, previous, before, stamped, cfg)
      ensures applied == if PutsBack(write, previous, stamped) && !panic
                         then Some(PutBackConfig(previous, before, stamped, cfg)) else old(applied)
    {
      var used, ok := Rewrite(write, previous, before);
      SettleRollback(used, ok);
    }

    /** rollback: the files always go back; the kernel only while panic mode is not engaged. */
    method Rollback(write: Write, previous: Rules, before: Option<Config>)
      requires Valid() && m.cycle.Running? && m.cycle.pc.RRevert?
      requires m.cycle.loc.previous == previous && m.cycle.loc.before == before
      modifies this`m, this`marker, this`kernel, this`applied, rules
      ensures Valid() && m.cycle.Running? && m.cycle.pc.RDone? && m.cycle.start == old(m).cycle.start
      ensures m == old(m).(cycle := m.cycle, current := old(m).backup, marker := None, kernel := m.kernel,
                           applied := m.applied, clean := m.clean, orphan := m.orphan)
      ensures m.cycle.loc.on == old(m).cycle.loc.on && m.cycle.loc.resumed == old(m).cycle.loc.resumed
      ensures write.Wrote? ==> m.clean == old(m).clean
      ensures kernel == if panic then old(kernel) else PutBackTable(old(kernel), write, previous, before, stamped, cfg)
      ensures applied == if PutsBack(write, previous, stamped) && !panic
                         then Some(PutBackConfig(previous, before, stamped, cfg)) else old(applied)
      ensures write.Wrote? && !m.panic ==> m.applied == Some(PutBackConfig(previous, before, m.stamped, m.cfg))
    {
      RevertFiles();
      var engaged := Gate();
      if !engaged {
        RollbackKernel(write, previous, before);
      }
    }

    /** apply, up to its configuration snapshot. */
    method Prepare(fails: bool)
        returns (go: bool, refused: bool, previous: Rules, opts: Config, on: bool, before: Option<Config>)
      requires Valid() && m.cycle.Running? && m.cycle.pc.ACheck?
      modifies this`m, rules
      ensures Valid() && m.cycle.Running? && m.cycle.start == old(m).cycle.start && refused == panic
      ensures go == (!panic && !fails)
      ensures m == old(m).(cycle := m.cycle, clean := m.clean, overwrote := m.overwrote, backup := m.backup)
      ensures if go then (
                && m.cycle.pc.AMark? && m.backup == m.current && m.clean == old(m).clean
                && m.overwrote == (old(m).overwrote || marker.Some?)
                && opts == cfg && on == windowOn && before == applied && previous == m.current
                && m.cycle.loc == old(m).cycle.loc.(previous := previous, opts := opts, on := on, before := before))
              else m.cycle.pc.Done? && m.backup == old(m).backup && m.cycle.loc == old(m).cycle.loc
    {
      go, previous, opts, on, before := false, rules.state.current, cfg, false, None;
      refused := CheckPanic();
      if !refused {
        previous := ReadRules(fails);
        if !fails {
          opts, on, before := BackupAndSnapshot();
          go := true;
        }
      }
    }

    /** apply: what follows the kernel write. */
    method Settle(ok: bool, opts: Config) returns (stands: bool)
      requires Valid() && m.cycle.Running? && m.cycle.pc.ARecheck? && m.cycle.loc.ok == ok && m.cycle.loc.opts == opts
      modifies this`m, this`kernel, this`applied, acceptance
      ensures Valid() && stands == (ok && !panic)
      ensures m == old(m).(cycle := Running(if stands then AWait else RRevert, old(m).cycle.loc, old(m).cycle.start),
                           kernel := m.kernel, applied := m.applied, orphan := m.orphan, acc := m.acc)
      ensures kernel == (if panic then None else old(kernel)) && (stands ==> m.acc == old(m).acc)
      ensures applied == if stands then Some(opts) else old(applied)
    {
      var torn := Recheck();
      stands := ok && !torn;
      if torn {
        TearDownAgain();
      } else if ok {
        RecordApplied(opts);
      }
    }

    /** apply: the window opened and the table written. */
    method OpenAndWrite(w: Weather, updated: Rules, opts: Config, on: bool)
      requires Valid() && m.cycle.Running? && m.cycle.pc.AOpen?
      requires m.cycle.loc.on == on && m.cycle.loc.updated == updated && m.cycle.loc.opts == opts
      modifies this`m, this`kernel, acceptance
      ensures Valid() && kernel == if w.write.Refused? then old(kernel) else Some(Table(updated, opts))
      ensures m == old(m).(cycle := m.cycle, clean := old(m).clean && w.write.Wrote?, acc := m.acc, kernel := m.kernel)
      ensures m.cycle == Running(ARecheck, old(m).cycle.loc.(ok := w.write.Wrote?), old(m).cycle.start)
      ensures w.write.Wrote? && on ==> m.acc == W.Started(old(m).acc, w.length, w.start)
    {
      OpenWindow(w, on);
      WriteKernel(w.write, updated, opts);
    }

    /** apply: panic mode may land under the write, too late for the check before it. */
    method WriteUnderFire(w: Weather, updated: Rules, opts: Config, on: bool)
      requires Valid() && m.cycle.Running? && m.cycle.pc.AOpen?
      requires m.cycle.loc.on == on && m.cycle.loc.updated == updated && m.cycle.loc.opts == opts
      modifies this`m, this`kernel, this`panic, acceptance
      ensures Valid() && panic == (old(panic) || w.panicLands)
      ensures kernel == if w.write.Refused? then old(kernel) else Some(Table(updated, opts))
      ensures m == old(m).(cycle := m.cycle, acc := m.acc, kernel := m.kernel, panic := m.panic,
                           teardowns := m.teardowns,
                           clean := old(m).clean && w.write.Wrote?)
      ensures m.cycle.Running? && m.cycle.pc.ARecheck? && m.cycle.loc == old(m).cycle.loc.(ok := w.write.Wrote?)
      ensures !w.panicLands ==> m.cycle.start == old(m).cycle.start
      ensures w.write.Wrote? && on ==> m.acc == W.Started(old(m).acc, w.length, w.start)
    {
      OpenAndWrite(w, updated, opts, on);
      MayPanic(w.panicLands);
    }

    /** apply, from the open window to the recorded configuration. */
    method Enforce(w: Weather, updated: Rules, opts: Config, on: bool) returns (stands: bool)
      requires Valid() && m.cycle.Running? && m.cycle.pc.AOpen?
      requires m.cycle.loc.on == on && m.cycle.loc.updated == updated && m.cycle.loc.opts == opts
      modifies this`m, this`kernel, this`applied, this`panic, acceptance
      ensures Valid() && stands == (w.write.Wrote? && !panic) && panic == (old(panic) || w.panicLands)
      ensures m == old(m).(cycle := m.cycle, acc := m.acc, kernel := m.kernel, applied := m.applied, panic := m.panic,
                           teardowns := m.teardowns, clean := old(m).clean && w.write.Wrote?, orphan := m.orphan)
      ensures m.cycle.Running? && m.cycle.loc == old(m).cycle.loc.(ok := w.write.Wrote?)
      ensures m.cycle.pc == if stands then AWait else RRevert
      ensures !w.panicLands ==> m.cycle.start == old(m).cycle.start
      ensures kernel == TriedTable(old(kernel), w, old(panic), Table(updated, opts))
      ensures applied == TriedRecord(old(applied), w, old(panic), opts)
      ensures stands && on ==> m.acc == W.Started(old(m).acc, w.length, w.start)
    {
      WriteUnderFire(w, updated, opts, on);
      stands := Settle(w.write.Wrote?, opts);
    }

    /** apply, the end of a cycle that keeps its rules. */
    method Keep(on: bool)
      requires Valid() && m.cycle.Running? && (if on then m.cycle.pc.AConfirm? else m.cycle.pc.AStamp?)
      modifies this`m, this`marker, this`stamped
      ensures Valid() && stamped && marker == (if on then None else old(marker))
      ensures m == old(m).(cycle := Running(Done, old(m).cycle.loc, old(m).cycle.start), marker := marker,
                           stamped := true)
    {
      if on {
        Confirm();
      }
      Stamp();
    }

    /** apply, the window itself: an answer may come before its deadline, and at the deadline the timer. */
    method Answered(answer: Option<int>, on: bool) returns (accepted: bool)
      requires Valid() && m.cycle.Running? && m.cycle.pc.AWait? && m.cycle.loc.on == on
      modifies this`m, acceptance
      ensures Valid()
      ensures accepted == (on && (old(m).acc.accepted || (answer.Some? && W.AcceptLands(old(m).acc, answer.value))))
      ensures m == old(m).(cycle := m.cycle, acc := m.acc, authorised := m.authorised)
      ensures m.cycle == Running(if !on then AStamp else if accepted then AConfirm else RRevert,
                                 old(m).cycle.loc, old(m).cycle.start)
    {
      if answer.Some? {
        var _ := Accept(answer.value);
      }
      accepted := AwaitAnswer(on, acceptance.deadline);
    }

    method Decide(answer: Option<int>, on: bool) returns (kept: bool)
      requires Valid() && m.cycle.Running? && m.cycle.pc.AWait? && m.cycle.loc.on == on
      modifies this`m, this`marker, this`stamped, acceptance
      ensures Valid()
      ensures kept == (!on || old(m).acc.accepted || (answer.Some? && W.AcceptLands(old(m).acc, answer.value)))
      ensures m == old(m).(cycle := Running(if kept then Done else RRevert, old(m).cycle.loc, old(m).cycle.start),
                           acc := m.acc, authorised := m.authorised, stamped := old(m).stamped || kept,
                           marker := if kept && on then None else old(m).marker)
    {
      var accepted := Answered(answer, on);
      kept := !on || accepted;
      if kept {
        Keep(on);
      }
    }

    /** apply: enforce and decide. */
    method Try(w: Weather, updated: Rules, opts: Config, on: bool) returns (kept: bool)
      requires Valid() && m.cycle.Running? && m.cycle.pc.AOpen? && m.cycle.loc.updated == updated
      requires m.cycle.loc.opts == opts && m.cycle.loc.on == on
      modifies this`m, this`marker, this`stamped, this`kernel, this`applied, this`panic, acceptance
      ensures Valid() && m.cycle.Running? && m.cycle.loc == old(m).cycle.loc.(ok := w.write.Wrote?)
      ensures kept == Earned(w, old(m).panic, on, old(m).acc) && m.cycle.pc == if kept then Done else RRevert
      ensures m == old(m).(cycle := m.cycle, acc := m.acc, kernel := m.kernel, applied := m.applied,
                           panic := old(m).panic || w.panicLands, teardowns := m.teardowns,
                           clean := old(m).clean && w.write.Wrote?, orphan := m.orphan,
                           authorised := m.authorised, stamped := old(m).stamped || kept,
                           marker := if kept && on then None else old(m).marker)
      ensures m.kernel == TriedTable(old(m).kernel, w, old(m).panic, Table(updated, opts))
      ensures m.applied == TriedRecord(old(m).applied, w, old(m).panic, opts)
      ensures !w.panicLands ==> m.cycle.start == old(m).cycle.start
    {
      kept := Enforce(w, updated, opts, on);
      if kept {
        kept := Decide(w.answer, on);
      }
    }

    /** apply: what was not kept is rolled back. */
    method TakeBack(w: Weather, previous: Rules, before: Option<Config>, ghost s: State)
      requires Valid() && m.cycle.Running? && m.cycle.pc.RRevert? && m.cycle.loc.previous == previous
      requires m.cycle.loc.before == before && Tried(s, m, w) && m.backup == previous
      modifies this`m, this`marker, this`kernel, this`applied, rules
      ensures Valid() && Carried(s, m, w, false)
    {
      Rollback(w.rewrite, previous, before);
      UndoneBy(s, old(m), m, w);
    }

    /** apply from the kernel on. */
    method Carry(w: Weather, updated: Rules, previous: Rules, opts: Config, on: bool, before: Option<Config>)
        returns (kept: bool)
      requires Valid() && m.cycle.Running? && m.cycle.pc.AOpen? && m.cycle.loc.updated == updated == m.current
      requires m.cycle.loc.previous == previous && m.cycle.loc.opts == opts && m.cycle.loc.on == on
      requires m.cycle.loc.before == before && m.backup == previous
      modifies this`m, this`marker, this`stamped, this`kernel, this`applied, this`panic, rules, acceptance
      ensures Valid() && Carried(old(m), m, w, kept)
    {
      kept := Try(w, updated, opts, on);
      if !kept {
        TakeBack(w, previous, before, old(m));
      } else {
        KeptBy(old(m), m, w);
      }
    }

    /** apply: the marker and the promotion. */
    method MarkAndPromote(on: bool, before: Option<Config>)
      requires Valid() && m.cycle.Running? && m.cycle.pc.AMark? && m.cycle.loc.on == on && m.cycle.loc.before == before
      modifies this`m, this`marker, rules
      ensures Valid()
      ensures m == old(m).(cycle := Running(AReread, old(m).cycle.loc, old(m).cycle.start), current := old(m).staged,
                           marker := if on then Some(before) else old(m).marker, authorised := m.authorised)
    {
      Mark(on, before);
      PromoteRules(on);
    }

    /** apply: the files, from the marker to the rules read back. */
    method Promote(fails: bool, on: bool, before: Option<Config>) returns (updated: Rules)
      requires Valid() && m.cycle.Running? && m.cycle.pc.AMark? && m.cycle.loc.on == on && m.cycle.loc.before == before
      modifies this`m, this`marker, rules
      ensures Valid() && updated == m.current
      ensures m == old(m).(cycle := m.cycle, current := old(m).staged, authorised := m.authorised,
                           marker := if on then Some(before) else old(m).marker, clean := old(m).clean && !fails)
      ensures m.cycle == if fails then Running(Done, old(m).cycle.loc, old(m).cycle.start)
                         else Running(AOpen, old(m).cycle.loc.(updated := updated), old(m).cycle.start)
    {
      MarkAndPromote(on, before);
      updated := Reread(fails);
    }

    /** apply once its marker is due. */
    method PromoteAndCarry(w: Weather, previous: Rules, opts: Config, on: bool, before: Option<Config>)
        returns (r: Result)
      requires Valid() && m.cycle.Running? && m.cycle.pc.AMark? && m.cycle.loc.previous == previous
      requires m.cycle.loc.opts == opts && m.cycle.loc.on == on && m.cycle.loc.before == before && m.backup == previous
      modifies this`m, this`marker, this`stamped, this`kernel, this`applied, this`panic, rules, acceptance
      ensures Valid() && r.Unread? == w.rereadFails && (r.Unread? || r.Unconfirmed? || r.Kept?)
      ensures if r.Unread? then LeftUnread(old(m), m) else Launched(old(m), m, w, r.Kept?)
    {
      var updated := Promote(w.rereadFails, on, before);
      if w.rereadFails {
        return Unread;
      }
      ghost var promoted := m;
      var kept := Carry(w, updated, previous, opts, on, before);
      LaunchedBy(old(m), promoted, m, w, kept);
      r := if kept then Kept else Unconfirmed;
    }

    /** apply with the slot held. */
    method ApplyInSlot(w: Weather) returns (r: Result, on: bool)
      requires Valid() && m.cycle.Running? && m.cycle.pc.ACheck? && !m.cycle.loc.resumed && !m.cycle.loc.on
      requires !m.acc.status.Pending?
      modifies this`m, this`marker, this`stamped, this`kernel, this`applied, this`panic, rules, acceptance
      ensures Valid() && m.cycle.Running? && !m.cycle.loc.resumed && on == m.cycle.loc.on && !r.Busy?
      ensures m.cycle.pc == if r.Unconfirmed? then RDone else Done
      ensures m.console == old(m).console && ComesTo(old(m), m, w, r)
    {
      EarnedInTime(m, w, windowOn);
      var go, refused, previous, opts, before;
      go, refused, previous, opts, on, before := Prepare(w.readFails);
      if !go {
        on := false;
        return if refused then RefusedByPanic else Unread, on;
      }
      ghost var prepared := m;
      r := PromoteAndCarry(w, previous, opts, on, before);
      if r.Unconfirmed? {
        FailedBy(old(m), prepared, m, w);
      }
    }

    /**
     One apply, whatever comes in between. Nothing but what it promises to change changes; what is not
     kept is undone, exactly so when every write succeeds and nobody engages panic mode meanwhile.
     */
    method Apply(w: Weather) returns (r: Result)
      requires Valid()
      modifies this`m, this`applying, this`marker, this`stamped, this`kernel, this`applied, this`panic
      modifies rules, acceptance
      ensures Valid() && r.Busy? == old(applying) && applying == old(applying)
      ensures rules.state.staged == old(rules.state).staged
      ensures r.RefusedByPanic? <==> !r.Busy? && old(panic)
      ensures r.Unread? <==> !r.Busy? && !old(panic) && (w.readFails || w.rereadFails)
      ensures r.Kept? <==> (
                && !r.Busy? && !w.readFails && !w.rereadFails && w.write.Wrote? && !old(panic) && !w.panicLands
                && (windowOn ==>
                      && w.answer.Some? && !old(acceptance.stopping)
                      && w.answer.value < w.start + if w.length > 0 then w.length else old(acceptance.duration)))
      ensures r.Busy? || r.RefusedByPanic? ==> (
                && rules.state == old(rules.state) && marker == old(marker) && kernel == old(kernel)
                && applied == old(applied) && stamped == old(stamped) && panic == old(panic))
      ensures r.Unread? ==> kernel == old(kernel) && applied == old(applied) && stamped == old(stamped)
      ensures r.Unread? && w.readFails ==> rules.state == old(rules.state) && marker == old(marker)
      ensures r.Unread? && !w.readFails ==> (
                && rules.state == old(rules.state).(current := old(rules.state).staged,
                                                    backup := old(rules.state).current)
                && marker == if windowOn then Some(old(applied)) else old(marker))
      ensures r.Kept? ==> (
                && rules.state == old(rules.state).(current := old(rules.state).staged,
                                                    backup := old(rules.state).current)
                && kernel == Some(Table(rules.state.current, cfg)) && applied == Some(cfg) && stamped
                && marker == if windowOn then None else old(marker))
      ensures r.Unconfirmed? ==> (
                && rules.state == old(rules.state).(backup := old(rules.state).current)
                && marker.None? && stamped == old(stamped))
      ensures r.Unconfirmed? ==> kernel == FailedTable(old(m), w) && applied == FailedRecord(old(m), w)
      ensures panic == (old(panic) || (r.Unconfirmed? && w.panicLands))
      ensures r.Unconfirmed? && Undisturbed(w) && old(m.clean && !m.overwrote && !TearPending(m)) ==> (
                && (old(kernel).Some? ==> kernel == old(kernel) && applied == old(applied))
                && (kernel == old(kernel) <==> old(kernel).Some? || (rules.state.current == NO_RULES && !stamped))
                && (applied == old(applied)
                    <==> old(applied).Some?
                         && (rules.state.current != NO_RULES || stamped || old(applied).value == cfg)))
    {
      r := ApplyOnce(w);
      if Undisturbed(w) && old(m.clean && !m.overwrote && !TearPending(m) && m.cycle.NoCycle?) {
        UndoneInFull(old(m), w);
      }
    }

    /** The slot taken, the cycle run, the slot given back. */
    method ApplyOnce(w: Weather) returns (r: Result)
      requires Valid()
      modifies this`m, this`applying, this`marker, this`stamped, this`kernel, this`applied, this`panic
      modifies rules, acceptance
      ensures Valid() && applying == old(applying) && r.Busy? == old(applying)
      ensures if r.Busy? then m == old(m) else ComesTo(old(m), m, w, r)
    {
      var ok := BeginApply();
      if !ok {
        return Busy;
      }
      NoWindowYet(old(m));
      var on;
      r, on := ApplyInSlot(w);
      EndApply(on);
    }

    // ---- RestoreCurrent, Panic and Resume ----

    /** RestoreCurrent takes the slot an apply takes. */
    method BeginRestore(ghost byResume: bool) returns (ok: bool)
      requires Valid() && (byResume ==> m.console.ResumeCleared?)
      modifies this`applying, this`m
      ensures Valid() && ok == !old(applying) && (!ok ==> m == old(m))
      ensures ok ==> m == old(m).(cycle := Begun(old(m), TGate, false, byResume),
                                  console := if byResume then ResumeRestoring else old(m).console)
    {
      if applying {
        return false;
      }
      ReachedThen(m, Event.BeginRestore(byResume));
      m := Do(m, Event.BeginRestore(byResume));
      applying := true;
      return true;
    }

    method EndRestore()
      requires Valid() && m.cycle.Running? && m.cycle.pc.Done? && !m.cycle.loc.on
      modifies this`applying, this`m
      ensures Valid() && !applying
      ensures m == old(m).(cycle := NoCycle,
                           console := if old(m).cycle.loc.resumed && old(m).console.ResumeRestoring? then Quiet
                           else old(m).console)
    {
      ReachedThen(m, Finish);
      m := Do(m, Finish);
      applying := false;
    }

    /** RestoreCurrent: refused under panic mode; a left-over marker is dealt with first. */
    method GateRestore() returns (go: bool)
      requires Valid() && m.cycle.Running? && m.cycle.pc.TGate?
      modifies this`m
      ensures Valid() && go == !panic
      ensures m == old(m).(cycle := Running(if !go then Done else if marker.Some? then TRevert else TRead,
                                            old(m).cycle.loc, old(m).cycle.start))
    {
      go := !panic;
      StepReclaim(Calm(0));
    }

    /** revertUnconfirmed: the rules, from a marker on disk. */
    method RevertToBackup() returns (before: Option<Config>)
      requires Valid() && m.cycle.Running? && m.cycle.pc.TRevert? && marker.Some?
      modifies this`m, rules
      ensures Valid() && before == marker.value
      ensures m == old(m).(cycle := Running(TClear, old(m).cycle.loc.(before := before, reverted := true),
                                            old(m).cycle.start),
                           current := old(m).backup)
    {
      before := marker.value;
      rules.Rollback();
      StepReclaim(Calm(0));
    }

    /** revertUnconfirmed: then the marker. */
    method ClearMarker()
      requires Valid() && m.cycle.Running? && m.cycle.pc.TClear?
      modifies this`m, this`marker, acceptance
      ensures Valid() && marker.None?
      ensures m == old(m).(cycle := Running(TRead, old(m).cycle.loc, old(m).cycle.start), marker := None, acc := m.acc)
    {
      marker := None;
      acceptance.RecordRolledBack(W.CoreStopped);
      StepReclaim(Calm(0));
    }

    /** RestoreCurrent: the machine's choice of what to write, if there is anything to write. */
    ghost method StepChoose(fails: bool, go: bool, used: Config)
      requires Reached(m) && m.up && m.cycle.Running? && m.cycle.pc.TRead?
      requires go == (!fails && EverConfigured(m, m.current))
      requires used == ConfigToRestore(m, if m.cycle.loc.reverted then m.cycle.loc.before else m.applied)
      modifies this`m
      ensures Reached(m) && m == old(m).(cycle := m.cycle, clean := old(m).clean && !fails)
      ensures go ==>
                m.cycle == Running(TWrite, old(m).cycle.loc.(previous := old(m).current, used := used),
                                   old(m).cycle.start)
      ensures !go ==> m.cycle == Running(Done, old(m).cycle.loc, old(m).cycle.start)
    {
      StepReclaim(Outcome(Wrote, 0, 0, fails));
    }

    /** RestoreCurrent: the stored rules and the configuration they go with. */
    method ChooseWhatToRestore(fails: bool, reverted: bool, before: Option<Config>)
        returns (go: bool, previous: Rules, used: Config)
      requires Valid() && m.cycle.Running? && m.cycle.pc.TRead? && m.cycle.loc.reverted == reverted
      requires m.cycle.loc.before == before
      modifies this`m
      ensures Valid() && previous == rules.state.current
      ensures go == (!fails && (!rules.state.current.IsEmpty() || stamped))
      ensures used == ConfigToRestore(old(m), if reverted then before else applied)
      ensures m == old(m).(cycle := m.cycle, clean := old(m).clean && !fails)
      ensures go ==>
                m.cycle == Running(TWrite, old(m).cycle.loc.(previous := previous, used := used), old(m).cycle.start)
      ensures !go ==> m.cycle == Running(Done, old(m).cycle.loc, old(m).cycle.start)
    {
      previous := rules.state.current;
      go := !fails && (!previous.IsEmpty() || stamped);
      var record := if reverted then before else applied;
      used := if record.Some? then record.value else cfg;
      StepChoose(fails, go, used);
    }

    method WriteStored(write: Write, previous: Rules, used: Config)
      requires Valid() && m.cycle.Running? && m.cycle.pc.TWrite? && m.cycle.loc.previous == previous
      requires m.cycle.loc.used == used
      modifies this`m, this`kernel
      ensures Valid() && kernel == if write.Refused? then old(kernel) else Some(Table(previous, used))
      ensures m == old(m).(cycle := Running(TRecheck, old(m).cycle.loc.(ok := write.Wrote?), old(m).cycle.start),
                           kernel := kernel, clean := old(m).clean && write.Wrote?)
    {
      StepRestore(Outcome(write, 0, 0, false));
      if !write.Refused? {
        kernel := Some(Table(previous, used));
      }
    }

    method RecheckRestore(ok: bool) returns (torn: bool)
      requires Valid() && m.cycle.Running? && m.cycle.pc.TRecheck? && m.cycle.loc.ok == ok
      modifies this`m
      ensures Valid() && torn == panic
      ensures m == old(m).(cycle := Running(if torn then TTear else if ok then TRecord else Done,
                                            old(m).cycle.loc, old(m).cycle.start))
    {
      torn := panic;
      StepRestore(Calm(0));
    }

    method TearDownRestore()
      requires Valid() && m.cycle.Running? && m.cycle.pc.TTear?
      modifies this`m, this`kernel
      ensures Valid() && kernel.None?
      ensures m == old(m).(cycle := Running(Done, old(m).cycle.loc, old(m).cycle.start), kernel := None,
                           orphan := false)
    {
      StepRestore(Calm(0));
      kernel := None;
    }

    method RecordRestore(used: Config)
      requires Valid() && m.cycle.Running? && m.cycle.pc.TRecord? && m.cycle.loc.used == used
      modifies this`m, this`applied
      ensures Valid() && applied == Some(used)
      ensures m == old(m).(cycle := Running(Done, old(m).cycle.loc, old(m).cycle.start), applied := Some(used))
    {
      StepRestore(Calm(0));
      applied := Some(used);
    }

    /** RestoreCurrent after its write. */
    method SettleRestore(ok: bool, used: Config)
      requires Valid() && m.cycle.Running? && m.cycle.pc.TRecheck? && m.cycle.loc.ok == ok && m.cycle.loc.used == used
      modifies this`m, this`kernel, this`applied
      ensures Valid() && kernel == (if panic then None else old(kernel))
      ensures applied == if ok && !panic then Some(used) else old(applied)
      ensures m == old(m).(cycle := Running(Done, old(m).cycle.loc, old(m).cycle.start), kernel := kernel,
                           applied := applied, orphan := m.orphan)
    {
      var torn := RecheckRestore(ok);
      if torn {
        TearDownRestore();
      } else if ok {
        RecordRestore(used);
      }
    }

    /** revertUnconfirmed. */
    method RevertIfMarked() returns (reverted: bool, before: Option<Config>)
      requires Valid() && m.cycle.Running? && m.cycle.loc.before.None? && !m.cycle.loc.reverted
      requires m.cycle.pc == if marker.Some? then TRevert else TRead
      modifies this`m, this`marker, rules, acceptance
      ensures Valid() && reverted == old(marker).Some? && before == (if reverted then old(marker).value else None)
      ensures marker.None?
      ensures m == old(m).(cycle := Running(TRead, old(m).cycle.loc.(before := before, reverted := reverted),
                                            old(m).cycle.start),
                           current := if reverted then old(m).backup else old(m).current, marker := None, acc := m.acc)
    {
      reverted, before := marker.Some?, None;
      if reverted {
        before := RevertToBackup();
        ClearMarker();
      }
    }

    /** RestoreCurrent's file half, past the gate. */
    method Reclaim(fails: bool) returns (go: bool, previous: Rules, used: Config)
      requires Valid() && m.cycle.Running? && m.cycle.loc.before.None? && !m.cycle.loc.reverted && !panic
      requires m.cycle.pc == if marker.Some? then TRevert else TRead
      modifies this`m, this`marker, rules, acceptance
      ensures Valid() && InSameSlot(old(m), m) && previous == m.current == Reclaimed(old(m))
      ensures used == ConfigToRestore(old(m), StoredConfig(old(m))) && marker.None?
      ensures go == (!fails && EverConfigured(m, m.current)) && m.cycle.pc == if go then TWrite else Done
      ensures go ==> m.cycle.loc.previous == previous && m.cycle.loc.used == used
    {
      var reverted, before := RevertIfMarked();
      go, previous, used := ChooseWhatToRestore(fails, reverted, before);
    }

    /** RestoreCurrent: the write, under which panic mode may land. */
    method WriteStoredUnderFire(write: Write, panicLands: bool, previous: Rules, used: Config)
      requires Valid() && m.cycle.Running? && m.cycle.pc.TWrite? && m.cycle.loc.previous == previous
      requires m.cycle.loc.used == used
      modifies this`m, this`kernel, this`panic
      ensures Valid() && InSameSlot(old(m), m) && m.cycle.pc.TRecheck? && panic == (old(panic) || panicLands)
      ensures m.cycle.loc == old(m).cycle.loc.(ok := write.Wrote?) && m.current == old(m).current
      ensures kernel == if write.Refused? then old(kernel) else Some(Table(previous, used))
    {
      WriteStored(write, previous, used);
      MayPanic(panicLands);
    }

    /** RestoreCurrent's kernel half. */
    method WriteRestored(write: Write, panicLands: bool, previous: Rules, used: Config)
      requires Valid() && m.cycle.Running? && m.cycle.pc.TWrite? && m.cycle.loc.previous == previous
      requires m.cycle.loc.used == used
      modifies this`m, this`kernel, this`applied, this`panic
      ensures Valid() && InSameSlot(old(m), m) && m.cycle.pc.Done? && panic == (old(panic) || panicLands)
      ensures m.current == old(m).current
      ensures kernel == if panic then None else if write.Refused? then old(kernel) else Some(Table(previous, used))
      ensures applied == if write.Wrote? && !panic then Some(used) else old(applied)
    {
      WriteStoredUnderFire(write, panicLands, previous, used);
      SettleRestore(write.Wrote?, used);
    }

    /** RestoreCurrent past the gate. */
    method RestorePastGate(fails: bool, write: Write, panicLands: bool) returns (writes: bool)
      requires Valid() && m.cycle.Running? && m.cycle.loc.before.None? && !m.cycle.loc.reverted && !panic
      requires m.cycle.pc == if marker.Some? then TRevert else TRead
      modifies this`m, this`marker, this`kernel, this`applied, this`panic, rules, acceptance
      ensures Valid() && InSameSlot(old(m), m) && m.cycle.pc.Done? && m.current == Reclaimed(old(m)) && marker.None?
      ensures writes == (!fails && EverConfigured(m, m.current)) && panic == (writes && panicLands)
      ensures kernel == if !writes then old(kernel) else Restored(old(m), write, panic, m.current)
      ensures applied == if writes && write.Wrote? && !panic then Some(ConfigToRestore(old(m), StoredConfig(old(m))))
                         else old(applied)
    {
      var previous, used;
      writes, previous, used := Reclaim(fails);
      if writes {
        WriteRestored(write, panicLands, previous, used);
      }
    }

    /** RestoreCurrent with the slot held. */
    method RestoreInSlot(fails: bool, write: Write, panicLands: bool) returns (writes: bool)
      requires Valid() && m.cycle.Running? && m.cycle.pc.TGate? && !m.cycle.loc.reverted && m.cycle.loc.before.None?
      modifies this`m, this`marker, this`kernel, this`applied, this`panic, rules, acceptance
      ensures Valid() && InSameSlot(old(m), m) && m.cycle.pc.Done? && m.current == Reclaimed(old(m))
      ensures marker == if old(panic) then old(marker) else None
      ensures writes == (!old(panic) && !fails && EverConfigured(m, m.current))
      ensures panic == (old(panic) || (writes && panicLands))
      ensures kernel == if !writes then old(kernel)
                        else Restored(old(m), write, panic, m.current)
      ensures applied == if writes && write.Wrote? && !panic then Some(ConfigToRestore(old(m), StoredConfig(old(m))))
                         else old(applied)
    {
      writes := GateRestore();
      if writes {
        writes := RestorePastGate(fails, write, panicLands);
      }
    }

    /** Panic: the marker, then the window, then the table. */
    method Panic(now: int)
      requires Valid() && m.console.Quiet?
      modifies this`m, this`panic, this`kernel, acceptance
      ensures Valid() && panic && kernel.None?
      ensures m == old(m).(panic := true, kernel := None, orphan := false, cycle := Disturbed(old(m).cycle),
                           acc := W.Ended(old(m).acc, Some(W.PanicMode), now))
    {
      MarkPanic();
      CancelWindow(now);
      ReachedThen(m, PanicTear);
      m := Do(m, PanicTear);
      kernel := None;
    }

    method MarkPanic()
      requires Valid() && m.console.Quiet?
      modifies this`m, this`panic
      ensures Valid() && panic
      ensures m == old(m).(panic := true, cycle := Disturbed(old(m).cycle), console := PanicMarked)
    {
      ReachedThen(m, PanicMark);
      m := Do(m, PanicMark);
      panic := true;
    }

    method CancelWindow(now: int)
      requires Valid() && m.console.PanicMarked?
      modifies this`m, acceptance
      ensures Valid()
      ensures m == old(m).(console := PanicCancelled, acc := W.Ended(old(m).acc, Some(W.PanicMode), now))
    {
      ReachedThen(m, PanicCancel(now));
      m := Do(m, PanicCancel(now));
      var _ := acceptance.Cancel(Some(W.PanicMode), now);
    }

    /** RestoreCurrent, at boot, on resume or for the Docker reconciler. */
    method RestoreCurrent(ghost byResume: bool, fails: bool, write: Write, panicLands: bool)
        returns (ok: bool, writes: bool)
      requires Valid() && (byResume ==> m.console.ResumeCleared?)
      modifies this`m, this`applying, this`marker, this`kernel, this`applied, this`panic, rules, acceptance
      ensures Valid() && ok == !old(applying) && applying == old(applying)
      ensures !ok ==> m == old(m) && !writes
      ensures m.console == if ok && byResume then Quiet else old(m).console
      ensures rules.state == if ok && !old(panic) && old(marker).Some?
                             then old(rules.state).(current := old(rules.state).backup) else old(rules.state)
      ensures marker == if ok && !old(panic) then None else old(marker)
      ensures writes <==> ok && !old(panic) && !fails && (rules.state.current != NO_RULES || stamped)
      ensures panic == (old(panic) || (writes && panicLands))
      ensures kernel == if !writes then old(kernel)
                        else if panicLands then None
                        else if write.Refused? then old(kernel)
                        else Some(Table(rules.state.current, LastConfig(old(marker), old(applied), cfg)))
      ensures applied == if writes && write.Wrote? && !panicLands
                         then Some(LastConfig(old(marker), old(applied), cfg)) else old(applied)
      ensures !m.overwrote && kernel.Some? && kernel != old(kernel) ==> kernel.value.rules in m.authorised
    {
      ok := BeginRestore(byResume);
      if !ok {
        return false, false;
      }
      writes := RestoreInSlot(fails, write, panicLands);
      EndRestore();
      if !m.overwrote {
        ReachedIsReachable(m);
        CrashSafe(m);
      }
    }

    /** Resume gives panicMu back without a restore: an apply holds the slot. */
    ghost method GiveUpResume()
      requires Valid() && m.console.ResumeCleared?
      modifies this`m
      ensures Valid() && m == old(m).(console := Quiet)
    {
      ReachedThen(m, ResumeGivesUp);
      m := Do(m, ResumeGivesUp);
    }

    /** Resume: the marker goes first, so that a failing restore is not reported as panic mode. */
    method Resume(fails: bool, write: Write, panicLands: bool) returns (wasEngaged: bool, restored: bool)
      requires Valid() && m.console.Quiet?
      modifies this`m, this`applying, this`marker, this`kernel, this`applied, this`panic, rules, acceptance
      ensures Valid() && m.console.Quiet? && applying == old(applying) && wasEngaged == old(panic)
      ensures old(applying) ==> rules.state == old(rules.state) && marker == old(marker)
      ensures !old(applying) ==> (
                && marker.None?
                && rules.state == old(rules.state).(current := if old(marker).Some? then old(rules.state).backup
                                                               else old(rules.state).current))
      ensures restored <==> !old(applying) && !fails && (rules.state.current != NO_RULES || stamped)
      ensures panic == (restored && panicLands)
      ensures kernel == if !restored then old(kernel)
                        else if panicLands then None
                        else if write.Refused? then old(kernel)
                        else Some(Table(rules.state.current, LastConfig(old(marker), old(applied), cfg)))
      ensures applied == if restored && write.Wrote? && !panicLands
                         then Some(LastConfig(old(marker), old(applied), cfg)) else old(applied)
    {
      wasEngaged := panic;
      ClearPanic();
      var ok;
      ok, restored := RestoreCurrent(true, fails, write, panicLands);
      if !ok {
        GiveUpResume();
      }
    }

    method ClearPanic()
      requires Valid() && m.console.Quiet?
      modifies this`m, this`panic
      ensures Valid() && !panic
      ensures m == old(m).(panic := false, orphan := false, console := ResumeCleared)
    {
      ReachedThen(m, ResumeClear);
      m := Do(m, ResumeClear);
      panic := false;
    }
  }
}
