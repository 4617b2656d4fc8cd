/**
 The acceptance window: the controller itself, and what every interleaving of its
 callers - the apply goroutine, the operator, panic mode, shutdown, the timer - agrees on.
 */
module AcceptanceWindow {
  import opened Addresses

  datatype Status = Idle | Pending | Accepted | RolledBack
  datatype Reason = Unset | Timeout | Operator | PanicMode | CoreStopped

  /** The controller's fields. `channels` is "Start has made the channels at least once". */
  datatype Control = Control(
    status: Status, accepted: bool, cancelled: bool, stopping: bool,
    duration: int, deadline: int, reason: Reason, channels: bool)

  const FRESH := Control(Idle, false, false, false, 0, 0, Unset, false)

  // ---- what one call does ----

  function Started(c: Control, length: int, now: int): Control {
    if c.status.Pending? then c
    else
      var d := if length > 0 then length else c.duration;
      c.(status := Pending, accepted := false, cancelled := c.stopping, duration := d, deadline := now + d,
         reason := if c.stopping then CoreStopped else Timeout, channels := true)
  }

  predicate AcceptLands(c: Control, now: int) {
    c.status.Pending? && !c.cancelled && now < c.deadline
  }

  predicate CancelLands(c: Control, now: int) {
    c.status.Pending? && !c.cancelled && !c.accepted && c.channels && now < c.deadline
  }

  function Confirmed(c: Control, now: int): Control {
    if AcceptLands(c, now) then c.(accepted := true) else c
  }

  /** cancel(reason): None is the unnamed Cancel, which leaves the recorded reason alone. */
  function Ended(c: Control, why: Option<Reason>, now: int): Control {
    if CancelLands(c, now)
    then c.(cancelled := true, reason := if why.Some? then why.value else c.reason)
    else c
  }

  /** One of Wait's three channels is ready. */
  predicate Awake(c: Control, now: int) { c.accepted || c.cancelled || now >= c.deadline }

  function Waited(c: Control): Control {
    c.(status := if c.accepted then Accepted else RolledBack)
  }

  // ---- the controller ----

  class Acceptance {
    var status: Status
    var accepted: bool
    var cancelled: bool
    var stopping: bool
    var duration: int
    var deadline: int
    var reason: Reason
    var channels: bool

    function View(): Control
      reads this
    {
      Control(status, accepted, cancelled, stopping, duration, deadline, reason, channels)
    }

    constructor (length: int)
      ensures View() == FRESH.(duration := length)
    {
      status, accepted, cancelled, stopping := Idle, false, false, false;
      duration, deadline, reason, channels := length, 0, Unset, false;
    }

    method Start(length: int, now: int)
      modifies this
      ensures View() == Started(old(View()), length, now)
    {
      if status == Pending { return; }
      if length > 0 { duration := length; }
      channels := true;
      cancelled, accepted := false, false;
      status, deadline := Pending, now + duration;
      reason := Timeout;
      if stopping {
        cancelled := true;
        reason := CoreStopped;
      }
    }

    method Accept(now: int) returns (landed: bool)
      modifies this
      ensures landed == old(AcceptLands(View(), now))
      ensures View() == Confirmed(old(View()), now)
    {
      if status != Pending || cancelled || now >= deadline { return false; }
      accepted := true;
      return true;
    }

    method Cancel(why: Option<Reason>, now: int) returns (landed: bool)
      modifies this
      ensures landed == old(CancelLands(View(), now))
      ensures View() == Ended(old(View()), why, now)
    {
      if status != Pending || cancelled || accepted || !channels || now >= deadline { return false; }
      if why.Some? { reason := why.value; }
      cancelled := true;
      return true;
    }

    /** The two halves take the lock separately; the run below interleaves them. */
    method CancelForShutdown(now: int)
      modifies this
      ensures View() == Ended(old(View()).(stopping := true), Some(CoreStopped), now)
    {
      stopping := true;
      var _ := Cancel(Some(CoreStopped), now);
    }

    /** The part of Wait under the lock, once one of its channels was ready. */
    method Wait() returns (confirmed: bool)
      modifies this
      ensures confirmed == old(accepted)
      ensures View() == Waited(old(View()))
    {
      confirmed := accepted;
      status := if confirmed then Accepted else RolledBack;
    }

    method Reset()
      modifies this
      ensures View() == old(View()).(status := Idle)
    {
      status := Idle;
    }

    method RecordRolledBack(why: Reason)
      modifies this
      ensures View() == old(View()).(status := RolledBack, reason := why)
    {
      status, reason := RolledBack, why;
    }
  }

  // ---- every interleaving ----

  /** One critical section, with what it answered. */
  datatype Event =
    | EStart(length: int, now: int)
    | EAccept(now: int, landed: bool)
    | ECancel(why: Option<Reason>, now: int, landed: bool)
    | EStopFlag                          // CancelForShutdown's first half
    | EStopCancel(now: int)              // ... and its second: the call returns
    | EWait(now: int, confirmed: bool)
    | EReset
    | ERecordRolledBack(because: Reason)

  /**
   What an observer saw of one window: when it was opened and for how long, who answered, and when and how it
   ended. Built from the calls and their answers alone.
   */
  datatype Window = Window(afterStop: bool, since: int, length: int, accepts: nat, cancels: seq<Option<Reason>>,
                           outcome: Option<bool>, ended: int, told: Reason)

  /**
   `built` is the length the controller was made with, `sealed` how many windows existed when CancelForShutdown
   returned, and whether the last was accepted.
   */
  datatype History = History(control: Control, built: int, clock: int, windows: seq<Window>,
                             sealed: Option<(nat, bool)>)

  predicate Begins(h: History) {
    h.control == FRESH.(duration := h.built) && h.windows == [] && h.sealed.None?
  }

  predicate Happens(h: History, e: Event) {
    match e
    case EStart(_, now) => h.clock <= now
    case EAccept(now, landed) => h.clock <= now && landed == AcceptLands(h.control, now)
    case ECancel(why, now, landed) => h.clock <= now && landed == CancelLands(h.control, now) && why != Some(Unset)
    case EStopFlag => true
    case EStopCancel(now) => h.clock <= now && h.control.stopping
    case EWait(now, confirmed) =>
      h.clock <= now && h.control.status.Pending? && Awake(h.control, now) && confirmed == h.control.accepted
    case EReset => true
    case ERecordRolledBack(_) => !h.control.status.Pending?   // the boot restore holds the apply slot
  }

  function OnLast(ws: seq<Window>, f: Window -> Window): seq<Window> {
    if ws == [] then ws else ws[..|ws| - 1] + [f(ws[|ws| - 1])]
  }

  /** A length of zero or less stands for the one before it. */
  function LengthMeant(h: History, length: int): int {
    if length > 0 then length else if h.windows == [] then h.built else h.windows[|h.windows| - 1].length
  }

  function Observe(h: History, e: Event): History {
    var c := h.control;
    match e
    case EStart(length, now) =>
      h.(control := Started(c, length, now), clock := now,
         windows := if c.status.Pending? then h.windows
                    else h.windows + [Window(c.stopping, now, LengthMeant(h, length), 0, [], None, 0, Unset)])
    case EAccept(now, landed) =>
      h.(control := Confirmed(c, now), clock := now,
         windows := if landed then OnLast(h.windows, (w: Window) => w.(accepts := w.accepts + 1)) else h.windows)
    case ECancel(why, now, landed) =>
      h.(control := Ended(c, why, now), clock := now,
         windows := if landed then OnLast(h.windows, (w: Window) => w.(cancels := w.cancels + [why])) else h.windows)
    case EStopFlag => h.(control := c.(stopping := true))
    case EStopCancel(now) =>
      var landed := CancelLands(c, now);
      h.(control := Ended(c, Some(CoreStopped), now), clock := now,
         windows := if landed then OnLast(h.windows, (w: Window) => w.(cancels := w.cancels + [Some(CoreStopped)]))
                    else h.windows,
         sealed := if h.sealed.Some? then h.sealed
                   else Some((|h.windows|, h.windows != [] && h.windows[|h.windows| - 1].accepts > 0)))
    case EWait(now, confirmed) =>
      h.(control := Waited(c), clock := now,
         windows := OnLast(h.windows, (w: Window) => w.(outcome := Some(confirmed), ended := now, told := c.reason)))
    case EReset => h.(control := c.(status := Idle))
    case ERecordRolledBack(why) => h.(control := c.(status := RolledBack, reason := why))
  }

  predicate Run(h: History, es: seq<Event>, h': History)
    decreases |es|
  {
    if es == [] then h == h'
    else Happens(h, es[0]) && Run(Observe(h, es[0]), es[1..], h')
  }

  /** The reason a window that ended has to carry. */
  function RightReason(w: Window): Reason {
    if w.cancels != [] && w.cancels[0].Some? then w.cancels[0].value
    else if w.afterStop then CoreStopped
    else Timeout
  }

  /** Both sides of one window agree. */
  predicate Agrees(w: Window) {
    && !(w.accepts > 0 && w.cancels != [])
    && |w.cancels| <= 1
    && (w.afterStop ==> w.accepts == 0 && w.cancels == [])
    && (w.outcome.Some? ==> w.outcome.value == (w.accepts > 0) && w.told == RightReason(w))
    && (w.outcome == Some(false) && w.cancels == [] && !w.afterStop ==> w.since + w.length <= w.ended)
  }

  predicate Tied(c: Control, w: Window) {
    && c.channels && c.duration == w.length && (c.status.Pending? ==> c.deadline == w.since + w.length)
    && (c.accepted <==> w.accepts > 0)
    && (c.cancelled <==> w.cancels != [] || w.afterStop)
    && (w.outcome.None? && c.status.Pending? ==> c.reason == RightReason(w))
    && (c.status.Pending? ==> w.outcome.None?)
  }

  ghost predicate Sealed(h: History) {
    h.sealed.Some? ==>
      && h.control.stopping
      && h.sealed.value.0 <= |h.windows|
      && (forall i :: h.sealed.value.0 <= i < |h.windows| ==> h.windows[i].afterStop)
      && (h.sealed.value.0 > 0 && !h.sealed.value.1 ==> h.windows[h.sealed.value.0 - 1].accepts == 0)
      && (h.sealed.value.0 > 0 && !h.sealed.value.1 && h.sealed.value.0 == |h.windows| ==>
            !h.control.status.Pending? || h.control.cancelled || h.clock >= h.control.deadline)
  }

  ghost predicate Inv(h: History) {
    && (forall i :: 0 <= i < |h.windows| ==> Agrees(h.windows[i]))
    && (h.windows == [] ==> !h.control.status.Pending? && h.control.duration == h.built)
    && (h.windows != [] ==> Tied(h.control, h.windows[|h.windows| - 1]))
    && Sealed(h)
  }

  /** An answer that landed changes the last window only. */
  lemma LastOnly(h: History, h': History)
    requires Inv(h) && |h'.windows| == |h.windows| > 0
    requires h'.windows[..|h.windows| - 1] == h.windows[..|h.windows| - 1]
    ensures forall i :: 0 <= i < |h.windows| - 1 ==> h'.windows[i] == h.windows[i] && Agrees(h'.windows[i])
  {
    var n := |h.windows|;
    forall i | 0 <= i < n - 1 ensures h'.windows[i] == h.windows[i] {
      assert h'.windows[..n - 1][i] == h.windows[..n - 1][i];
    }
  }

  lemma AnswerKeeps(h: History, e: Event)
    requires Inv(h) && Happens(h, e) && (e.EAccept? || e.ECancel? || e.EStopCancel?)
    ensures Inv(Observe(h, e))
  {
    if h.windows != [] {
      LastOnly(h, Observe(h, e));
    }
    match e
    case EAccept(_, landed) => if landed { }
    case ECancel(_, _, landed) => if landed { }
    case EStopCancel(now) => if CancelLands(h.control, now) { }
  }

  lemma StartKeeps(h: History, e: Event)
    requires Inv(h) && Happens(h, e) && e.EStart?
    ensures Inv(Observe(h, e))
  {
    if h.control.status.Pending? {
    } else {
      var ws := Observe(h, e).windows;
      assert forall i :: 0 <= i < |h.windows| ==> ws[i] == h.windows[i];
    }
  }

  lemma StepKeeps(h: History, e: Event)
    requires Inv(h) && Happens(h, e)
    ensures Inv(Observe(h, e))
  {
    match e
    case EStart(_, _) => StartKeeps(h, e);
    case EAccept(_, _) => AnswerKeeps(h, e);
    case ECancel(_, _, _) => AnswerKeeps(h, e);
    case EStopCancel(_) => AnswerKeeps(h, e);
    case EStopFlag =>
    case EWait(_, _) => LastOnly(h, Observe(h, e));
    case EReset =>
    case ERecordRolledBack(_) =>
  }

  lemma {:induction false} RunKeeps(h: History, es: seq<Event>, h': History)
    requires Inv(h) && Run(h, es, h')
    ensures Inv(h')
    decreases |es|
  {
    if es != [] {
      StepKeeps(h, es[0]);
      RunKeeps(Observe(h, es[0]), es[1..], h');
    }
  }

  /**
   The agreement: in every run, a window that reached Wait was confirmed exactly when some
   Accept on it answered true, never both accepted and cancelled, carries the one right reason, and did not end
   before its time with nobody having answered.
   */
  lemma WindowsAgree(begin: History, es: seq<Event>, h: History, i: nat)
    requires Begins(begin) && Run(begin, es, h) && i < |h.windows|
    ensures Agrees(h.windows[i])
  {
    RunKeeps(begin, es, h);
  }

  /**
   In every run the open window takes answers for exactly its length: an accept lands if and only if nobody
   cancelled the window and the time is not up, a cancel if and only if nobody answered it at all.
   */
  lemma AnswersLandInTime(begin: History, es: seq<Event>, h: History, t: int)
    requires Begins(begin) && Run(begin, es, h) && h.windows != []
    ensures var w, open := h.windows[|h.windows| - 1], h.control.status.Pending?;
            && (AcceptLands(h.control, t) <==> open && !w.afterStop && w.cancels == [] && t < w.since + w.length)
            && (CancelLands(h.control, t)
                <==> open && !w.afterStop && w.cancels == [] && w.accepts == 0 && t < w.since + w.length)
  {
    RunKeeps(begin, es, h);
  }

  /** One window in plain numbers: opened at `now`, it takes an accept at `t` exactly for the length asked for. */
  lemma WindowLasts(c: Control, length: int, now: int, t: int)
    requires !c.status.Pending?
    ensures var w := Started(c, length, now);
            && !w.accepted
            && (AcceptLands(w, t) <==> !c.stopping && t < now + if length > 0 then length else c.duration)
  {
  }

  /** Once CancelForShutdown returned, only a window it found already accepted can still be confirmed. */
  lemma NothingConfirmedAfterShutdown(begin: History, es: seq<Event>, h: History, i: nat)
    requires Begins(begin) && Run(begin, es, h) && h.sealed.Some? && i < |h.windows|
    requires h.windows[i].outcome == Some(true)
    ensures i < h.sealed.value.0
    ensures i == h.sealed.value.0 - 1 ==> h.sealed.value.1
  {
    RunKeeps(begin, es, h);
    assert Agrees(h.windows[i]);
  }
}
