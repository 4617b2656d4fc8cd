/** Shutdown: which WaitGroup.Add may still happen once Stop has begun, and what its return promises. */
module Shutdown {

  /** What a critical section that looks at d.quit is for: track's Add, or waitOnPeer's registration. */
  datatype Aim = Adding | Parking

  /** Who holds d.mu. Whoever looks at d.quit acts only after finding it open. */
  datatype Mutex = Free | Looking(aim: Aim) | SawOpen(aim: Aim) | Stopper | Sweeper

  /**
   The counter, and beside it the goroutines that are really there: `busy` tracked ones at work, `parked` ones
   registered as waiting on a peer, `shut` ones registered whose connection Stop has closed, and `kids`, the
   untracked goroutines those started. `closed` to `returned` count the calls of Stop at each point.
   */
  datatype State = State(
    quit: bool, mu: Mutex, wg: nat, busy: nat, parked: nat, shut: nat, kids: nat,
    closed: nat, passed: nat, swept: nat, waiting: nat, returned: nat)

  predicate Init(s: State) {
    && !s.quit && s.mu.Free? && s.wg == s.busy == s.parked == s.shut == s.kids == 0
    && s.closed == s.passed == s.swept == s.waiting == s.returned == 0
  }

  datatype Event =
    | TrackLock | ParkLock | Look | Act  // track and waitOnPeer
    | Unpark | UnparkShut                // doneWaitingOnPeer
    | NestedAdd                          // dispatch's apply goroutine and the login sweeper, from a connection at work
    | WorkDone | KidDone
    | StopClose | StopLock | StopUnlock | SweepLock | SweepUnlock | StopWait | WaitReturns

  predicate Enabled(s: State, e: Event) {
    match e
    case TrackLock => s.mu.Free?
    case ParkLock => s.mu.Free? && s.busy > 0
    case Look => s.mu.Looking?
    case Act => s.mu.SawOpen?
    case Unpark => s.mu.Free? && s.parked > 0
    case UnparkShut => s.mu.Free? && s.shut > 0
    case NestedAdd => s.busy > 0
    case WorkDone => s.busy > 0 && s.wg > 0
    case KidDone => s.kids > 0 && s.wg > 0
    case StopClose => true
    case StopLock => s.closed > 0 && s.mu.Free?
    case StopUnlock => s.mu.Stopper?
    case SweepLock => s.passed > 0 && s.mu.Free?
    case SweepUnlock => s.mu.Sweeper?
    case StopWait => s.swept > 0
    case WaitReturns => s.waiting > 0 && s.wg == 0
  }

  function Do(s: State, e: Event): State
    requires Enabled(s, e)
  {
    match e
    case TrackLock => s.(mu := Looking(Adding))
    case ParkLock => s.(mu := Looking(Parking), busy := s.busy - 1)
    case Look =>
      if !s.quit then s.(mu := SawOpen(s.mu.aim))
      else s.(mu := Free, busy := s.busy + Held(s.mu))
    case Act =>
      if s.mu.aim.Adding? then s.(mu := Free, wg := s.wg + 1, busy := s.busy + 1)
      else s.(mu := Free, parked := s.parked + 1)
    case Unpark => s.(parked := s.parked - 1, busy := s.busy + 1)
    case UnparkShut => s.(shut := s.shut - 1, busy := s.busy + 1)
    case NestedAdd => s.(wg := s.wg + 1, kids := s.kids + 1)
    case WorkDone => s.(wg := s.wg - 1, busy := s.busy - 1)
    case KidDone => s.(wg := s.wg - 1, kids := s.kids - 1)
    case StopClose => s.(quit := true, closed := s.closed + 1)
    case StopLock => s.(mu := Stopper, closed := s.closed - 1)
    case StopUnlock => s.(mu := Free, passed := s.passed + 1)
    case SweepLock => s.(mu := Sweeper, passed := s.passed - 1)
    case SweepUnlock => s.(mu := Free, swept := s.swept + 1, shut := s.shut + s.parked, parked := 0)
    case StopWait => s.(swept := s.swept - 1, waiting := s.waiting + 1)
    case WaitReturns => s.(waiting := s.waiting - 1, returned := s.returned + 1)
  }

  /** The connection that holds the mutex to register itself. */
  function Held(mu: Mutex): nat { if (mu.Looking? || mu.SawOpen?) && mu.aim.Parking? then 1 else 0 }

  /** Everything that is running. */
  function Work(s: State): nat { s.busy + s.parked + s.shut + s.kids + Held(s.mu) }

  predicate Run(s: State, es: seq<Event>, s': State)
    decreases |es|
  {
    if es == [] then s == s' else Enabled(s, es[0]) && Run(Do(s, es[0]), es[1..], s')
  }

  /** Every state some interleaving reaches. */
  ghost predicate Reachable(s: State) { exists i, es :: Init(i) && Run(i, es, s) }

  predicate Swept(s: State) { s.swept > 0 || s.waiting > 0 || s.returned > 0 }

  /** Some Stop has been through the mutex. */
  predicate Past(s: State) { s.passed > 0 || s.mu.Sweeper? || Swept(s) }

  predicate Inv(s: State) {
    && s.wg == Work(s)
    && (s.closed > 0 || s.mu.Stopper? || Past(s) ==> s.quit)
    && (Past(s) ==> !s.mu.SawOpen?)
    && (Swept(s) ==> s.parked == 0)
    && (s.returned > 0 ==> s.wg == 0)
  }

  lemma {:induction false} Keeps(s: State, es: seq<Event>, s': State)
    requires Inv(s) && Run(s, es, s')
    ensures Inv(s')
    decreases |es|
  {
    if es != [] {
      Keeps(Do(s, es[0]), es[1..], s');
    }
  }

  lemma ReachableKeeps(s: State)
    requires Reachable(s)
    ensures Inv(s)
  {
    var i, es :| Init(i) && Run(i, es, s);
    Keeps(i, es, s);
  }

  predicate IsAdd(s: State, e: Event) { e.NestedAdd? || (e.Act? && s.mu == SawOpen(Adding)) }

  /** In every interleaving, an Add comes before any Wait has begun, or finds the counter positive. */
  lemma EveryAddIsInTime(s: State, e: Event)
    requires Reachable(s) && Enabled(s, e) && IsAdd(s, e)
    ensures s.waiting + s.returned == 0 || s.wg > 0
  {
    ReachableKeeps(s);
  }

  /** The counter is the work: in every reachable state it counts exactly the goroutines that are there. */
  lemma TheCounterIsTheWork(s: State)
    requires Reachable(s)
    ensures s.wg == Work(s)
  {
    ReachableKeeps(s);
  }

  lemma {:induction false} StaysReturned(s: State, es: seq<Event>, s': State)
    requires Run(s, es, s')
    ensures s'.returned >= s.returned
    decreases |es|
  {
    if es != [] {
      StaysReturned(Do(s, es[0]), es[1..], s');
    }
  }

  /** When Stop returns nothing is running, and however the run goes on, nothing ever starts. */
  lemma NothingRunsAfterStop(s: State, more: seq<Event>, s': State)
    requires Reachable(s) && s.returned > 0 && Run(s, more, s')
    ensures Work(s) == 0 && Work(s') == 0
  {
    ReachableKeeps(s);
    Keeps(s, more, s');
    StaysReturned(s, more, s');
  }

  /** No Stop waits for a connection that is waiting for its peer: Stop has closed every one of them. */
  lemma NoPeerHoldsStopUp(s: State)
    requires Reachable(s) && s.waiting > 0
    ensures s.parked == 0 && s.mu != SawOpen(Parking)
  {
    ReachableKeeps(s);
  }

  /** A Stop that goes from closing the channel straight to its Wait. */
  function SkipTheMutex(s: State): State
    requires s.closed > 0
  {
    s.(closed := s.closed - 1, waiting := s.waiting + 1)
  }

  /** Its Wait finds nothing to wait for and comes back, and the work starts. */
  predicate StartsTooLate(t: State, s': State) {
    Enabled(t, WaitReturns) && Enabled(Do(t, WaitReturns), Act) && s' == Do(Do(t, WaitReturns), Act)
  }

  lemma LateStart(t: State) returns (s': State)
    requires t.waiting > 0 && t.wg == 0 && t.mu == SawOpen(Adding)
    ensures StartsTooLate(t, s') && s'.returned > 0 && Work(s') > 0
  {
    s' := Do(Do(t, WaitReturns), Act);
  }

  /** Which is why the order matters: without the mutex a Stop can return and work start after it. */
  lemma WaitingTooEarlyIsTooLate(i: State) returns (s: State, s': State)
    requires Init(i)
    ensures Reachable(s) && s.closed > 0 && StartsTooLate(SkipTheMutex(s), s') && s'.returned > 0 && Work(s') > 0
  {
    s := ClosedUnderATracker(i);
    s' := LateStart(SkipTheMutex(s));
  }

  lemma ClosedUnderATracker(i: State) returns (s: State)
    requires Init(i)
    ensures Reachable(s) && s == i.(mu := SawOpen(Adding), quit := true, closed := 1)
  {
    assert Run(i, [], i);
    s := After(i, TrackLock);
    s := After(s, Look);
    s := After(s, StopClose);
  }

  lemma After(s: State, e: Event) returns (s': State)
    requires Reachable(s) && Enabled(s, e)
    ensures s' == Do(s, e) && Reachable(s')
  {
    var i, es :| Init(i) && Run(i, es, s);
    RunThen(i, es, s, e);
    s' := Do(s, e);
  }

  lemma {:induction false} RunThen(s: State, es: seq<Event>, s': State, e: Event)
    requires Run(s, es, s') && Enabled(s', e)
    ensures Run(s, es + [e], Do(s', e))
    decreases |es|
  {
    if es == [] {
      assert [e][1..] == [];
    } else {
      RunThen(Do(s, es[0]), es[1..], s', e);
      assert (es + [e])[1..] == es[1..] + [e];
    }
  }

  // ---- the daemon, one critical section at a time ----

  class Daemon {
    var quit: bool
    var listening: bool
    var peerWait: set<int>  // connections registered as waiting on their peer
    var wg: nat
    ghost var m: State      // the machine this object is a part of

    ghost predicate Valid()
      reads this
    {
      && Reachable(m) && m.mu.Free?
      && m.quit == quit && m.wg == wg && m.parked + m.shut == |peerWait|
    }

    constructor ()
      ensures Valid() && !quit && !listening && peerWait == {} && wg == 0 && Init(m)
    {
      quit, listening, peerWait, wg := false, false, {}, 0;
      m := State(false, Free, 0, 0, 0, 0, 0, 0, 0, 0, 0, 0);
      new;
      assert Run(m, [], m);
    }

    ghost method Step(e: Event)
      requires Reachable(m) && Enabled(m, e)
      modifies this`m
      ensures Reachable(m) && m == Do(old(m), e)
    {
      m := After(m, e);
    }

    method Track() returns (ok: bool)
      requires Valid()
      modifies this`wg, this`m
      ensures Valid() && ok == !quit && wg == old(wg) + (if ok then 1 else 0)
      ensures m == if ok then old(m).(wg := wg, busy := old(m).busy + 1) else old(m)
    {
      Step(TrackLock);
      Step(Look);
      if quit {
        return false;
      }
      Step(Act);
      wg := wg + 1;
      return true;
    }

    /** A connection may wait on its peer only until Stop sweeps the ones that do. */
    method WaitOnPeer(conn: int) returns (ok: bool)
      requires Valid() && conn !in peerWait && m.busy > 0
      modifies this`peerWait, this`m
      ensures Valid() && ok == !quit && peerWait == old(peerWait) + (if ok then {conn} else {})
      ensures m == if ok then old(m).(busy := old(m).busy - 1, parked := old(m).parked + 1) else old(m)
    {
      Step(ParkLock);
      Step(Look);
      if quit {
        return false;
      }
      Step(Act);
      peerWait := peerWait + {conn};
      return true;
    }

    /** The apply goroutine and the login sweeper, started from a connection at work. */
    method Spawn()
      requires Valid() && m.busy > 0
      modifies this`wg, this`m
      ensures Valid() && wg == old(wg) + 1 && m == old(m).(wg := wg, kids := old(m).kids + 1)
    {
      Step(NestedAdd);
      wg := wg + 1;
    }

    /** Stop's first statements, in the order everything else rests on. */
    method CloseQuit()
      requires Valid()
      modifies this`quit, this`listening, this`m
      ensures Valid() && quit && !listening
      ensures m == old(m).(quit := true, passed := old(m).passed + 1)
    {
      quit := true;
      Step(StopClose);
      Step(StopLock);
      listening := false;
      Step(StopUnlock);
    }

    /** Stop up to its Wait: every connection that waits on its peer is closed, and none can register after it. */
    method BeginStop() returns (closed: set<int>)
      requires Valid()
      modifies this`quit, this`listening, this`m
      ensures Valid() && quit && !listening && closed == peerWait
      ensures m == old(m).(quit := true, waiting := old(m).waiting + 1, parked := 0, shut := |peerWait|)
    {
      CloseQuit();
      Step(SweepLock);
      closed := peerWait;
      Step(SweepUnlock);
      Step(StopWait);
    }

    /** Stop's Wait comes back. */
    method FinishStop()
      requires Valid() && m.waiting > 0 && wg == 0
      modifies this`m
      ensures Valid() && m == old(m).(waiting := old(m).waiting - 1, returned := old(m).returned + 1)
      ensures Work(m) == 0 && peerWait == {}
    {
      Step(WaitReturns);
      ReachableKeeps(m);
    }
  }
}
