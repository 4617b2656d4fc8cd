/** The login-event debouncer: bursts folded into two lines, and no event lost on the way. */
module LoginEventLog {
  import opened Addresses

  const WINDOW: int := 60
  const MAX_ADDRS: nat := 1024

  datatype LoginEvent = LoginFailed | TwoFactorFailed | RateLimited | Logout | Immediate(name: string)

  predicate Debounced(e: LoginEvent) { !e.Immediate? }

  /** One burst: an event from an address, or everything past the ceiling for that event. */
  datatype Slot = Key(event: LoginEvent, addr: Option<Addr>, proxied: bool) | Overflow(event: LoginEvent)

  datatype Bucket = Bucket(count: nat, since: int)

  /** `at` is when a line is written; a summary also names when its burst began. */
  datatype Line =
    | Opening(slot: Slot, at: int) | Summary(slot: Slot, more: nat, since: int, at: int) | Plain(event: LoginEvent)

  // ---- what the lines and the open buckets account for ----

  /** Events a log's lines report: one for each opening, N for each "N more". */
  function Reported(lines: seq<Line>): nat {
    if lines == [] then 0
    else
      var l := lines[|lines| - 1];
      var n := match l { case Opening(_, _) => 1 case Summary(_, n, _, _) => n case Plain(_) => 0 };
      Reported(lines[..|lines| - 1]) + n
  }

  lemma ReportedOne(lines: seq<Line>, l: Line)
    ensures Reported(lines + [l]) == Reported(lines) + match l {
                                       case Opening(_, _) => 1 case Summary(_, n, _, _) => n case Plain(_) => 0
                                     }
  {
    assert (lines + [l])[..|lines|] == lines;
  }

  /** What open buckets still hold beyond the line each opened with. */
  ghost function Held(m: map<Slot, Bucket>): nat
    decreases |m|
  {
    if m == map[] then 0
    else
      var k :| k in m;
      Extra(m[k]) + Held(m - {k})
  }

  function Extra(b: Bucket): nat { if b.count > 0 then b.count - 1 else 0 }

  /** Taking out any one bucket takes out what it holds. */
  lemma {:induction false} HeldWithout(m: map<Slot, Bucket>, k: Slot)
    requires k in m
    ensures Held(m) == Extra(m[k]) + Held(m - {k})
    decreases |m|
  {
    var p :| p in m && Held(m) == Extra(m[p]) + Held(m - {p});
    if p != k {
      HeldWithout(m - {p}, k);
      HeldWithout(m - {k}, p);
      assert m - {p} - {k} == m - {k} - {p};
    }
  }

  lemma HeldPut(m: map<Slot, Bucket>, k: Slot, b: Bucket)
    ensures Held(m[k := b]) == Extra(b) + Held(m - {k})
  {
    HeldWithout(m[k := b], k);
    assert m[k := b] - {k} == m - {k};
  }

  lemma Absent(m: map<Slot, Bucket>, k: Slot)
    requires k !in m
    ensures m - {k} == m
  {
  }

  // ---- two lines per burst ----

  function BucketOf(m: map<Slot, Bucket>, s: Slot): Option<Bucket> { if s in m then Some(m[s]) else None }

  predicate IsOpening(l: Line, s: Slot) { l.Opening? && l.slot == s }
  predicate IsSummary(l: Line, s: Slot) { l.Summary? && l.slot == s }

  /** A slot's openings are a window apart, each followed by at most one summary of its own. */
  ghost predicate Told(lines: seq<Line>, s: Slot, b: Option<Bucket>, clock: int) {
    && (forall i, j :: 0 <= i < j < |lines| && IsOpening(lines[i], s) && IsOpening(lines[j], s) ==>
          lines[i].at + WINDOW <= lines[j].at)
    && (forall i, j :: 0 <= i < j < |lines| && IsSummary(lines[i], s) && IsSummary(lines[j], s) ==>
          lines[i].since < lines[j].since)
    && (forall i :: 0 <= i < |lines| && IsSummary(lines[i], s) ==> Opened(lines[..i], s, lines[i].since))
    && (b.Some? ==>
          && b.value.count > 0 && b.value.since <= clock && Opened(lines, s, b.value.since)
          && (forall i :: 0 <= i < |lines| && IsOpening(lines[i], s) ==> lines[i].at <= b.value.since)
          && (forall i :: 0 <= i < |lines| && IsSummary(lines[i], s) ==> lines[i].since < b.value.since))
    && (b.None? ==>
          && (forall i :: 0 <= i < |lines| && IsOpening(lines[i], s) ==> lines[i].at + WINDOW <= clock)
          && (forall i :: 0 <= i < |lines| && IsSummary(lines[i], s) ==> lines[i].since + WINDOW <= clock))
  }

  predicate Opened(lines: seq<Line>, s: Slot, at: int) { exists i :: 0 <= i < |lines| && lines[i] == Opening(s, at) }

  lemma ToldLater(lines: seq<Line>, s: Slot, b: Option<Bucket>, clock: int, later: int)
    requires Told(lines, s, b, clock) && clock <= later
    ensures Told(lines, s, b, later)
  {
  }

  lemma ToldCounted(lines: seq<Line>, s: Slot, b: Bucket, clock: int)
    requires Told(lines, s, Some(b), clock)
    ensures Told(lines, s, Some(b.(count := b.count + 1)), clock)
  {
  }

  lemma OpenedStays(lines: seq<Line>, l: Line, s: Slot, at: int)
    requires Opened(lines, s, at)
    ensures Opened(lines + [l], s, at)
  {
    var i :| 0 <= i < |lines| && lines[i] == Opening(s, at);
    assert (lines + [l])[i] == Opening(s, at);
  }

  /** A line about another slot says nothing about this one. */
  lemma ToldOther(lines: seq<Line>, l: Line, s: Slot, b: Option<Bucket>, clock: int)
    requires Told(lines, s, b, clock) && !IsOpening(l, s) && !IsSummary(l, s)
    ensures Told(lines + [l], s, b, clock)
  {
    var more := lines + [l];
    assert forall i :: 0 <= i < |lines| ==> more[i] == lines[i] && more[..i] == lines[..i];
    if b.Some? {
      OpenedStays(lines, l, s, b.value.since);
    }
  }

  lemma ToldOpening(lines: seq<Line>, s: Slot, clock: int)
    requires Told(lines, s, None, clock)
    ensures Told(lines + [Opening(s, clock)], s, Some(Bucket(1, clock)), clock)
  {
    var more := lines + [Opening(s, clock)];
    assert forall i :: 0 <= i < |lines| ==> more[i] == lines[i] && more[..i] == lines[..i];
    assert more[|lines|] == Opening(s, clock);
  }

  /** Closing a window whose time is up: a summary when there is more to say, nothing otherwise. */
  lemma ToldClosing(lines: seq<Line>, s: Slot, b: Bucket, clock: int)
    requires Told(lines, s, Some(b), clock) && clock - b.since >= WINDOW
    ensures Told(Flushed(lines, s, b, clock), s, None, clock)
  {
    if b.count > 1 {
      var l := Summary(s, b.count - 1, b.since, clock);
      var more := lines + [l];
      assert forall i :: 0 <= i < |lines| ==> more[i] == lines[i] && more[..i] == lines[..i];
      assert more[..|lines|] == lines;
    }
  }

  function Flushed(lines: seq<Line>, s: Slot, b: Bucket, now: int): seq<Line> {
    if b.count <= 1 then lines else lines + [Summary(s, b.count - 1, b.since, now)]
  }

  lemma FlushedReports(lines: seq<Line>, s: Slot, b: Bucket, now: int)
    requires b.count > 0
    ensures Reported(Flushed(lines, s, b, now)) == Reported(lines) + Extra(b)
  {
    if b.count > 1 {
      ReportedOne(lines, Summary(s, b.count - 1, b.since, now));
    }
  }

  lemma FlushedOther(lines: seq<Line>, s: Slot, b: Bucket, x: Slot, xb: Option<Bucket>, clock: int)
    requires Told(lines, x, xb, clock) && x != s
    ensures Told(Flushed(lines, s, b, clock), x, xb, clock)
  {
    if b.count > 1 {
      ToldOther(lines, Summary(s, b.count - 1, b.since, clock), x, xb, clock);
    }
  }

  // ---- the state ----

  /** `clock` is the time of the last call, `events` how many debounced events were recorded. */
  datatype Log = Log(buckets: map<Slot, Bucket>, overflow: map<Slot, Bucket>, lines: seq<Line>, clock: int,
                     events: nat) {
    function Find(s: Slot): Option<Bucket> { BucketOf(if s.Key? then buckets else overflow, s) }

    /** The conservation law: every event is in an opening line, in somebody's "N more", or still held. */
    ghost predicate Conserves() { events == Reported(lines) + Held(buckets) + Held(overflow) }

    ghost predicate Sound() {
      && Conserves() && |buckets| <= MAX_ADDRS
      && (forall s :: s in buckets ==> s.Key?) && (forall s :: s in overflow ==> s.Overflow?)
      && AllTold()
    }

    ghost predicate AllTold() { forall s :: Told(lines, s, Find(s), clock) }
  }

  const EMPTY := Log(map[], map[], [], 0, 0)

  function Later(l: Log, now: int): Log { l.(clock := if now < l.clock then l.clock else now) }

  predicate Fresh(l: Log, s: Slot) { l.Find(s).Some? && l.clock - l.Find(s).value.since < WINDOW }

  function Counted(l: Log, s: Slot): Log
    requires l.Find(s).Some?
  {
    var b := l.Find(s).value;
    var b' := b.(count := b.count + 1);
    if s.Key? then l.(buckets := l.buckets[s := b'], events := l.events + 1)
    else l.(overflow := l.overflow[s := b'], events := l.events + 1)
  }

  function Closed(l: Log, s: Slot): Log
    requires l.Find(s).Some?
  {
    var lines := Flushed(l.lines, s, l.Find(s).value, l.clock);
    if s.Key? then l.(buckets := l.buckets - {s}, lines := lines) else l.(overflow := l.overflow - {s}, lines := lines)
  }

  function Begun(l: Log, s: Slot): Log {
    var lines, b := l.lines + [Opening(s, l.clock)], Bucket(1, l.clock);
    if s.Key? then l.(buckets := l.buckets[s := b], lines := lines, events := l.events + 1)
    else l.(overflow := l.overflow[s := b], lines := lines, events := l.events + 1)
  }

  lemma LaterKeeps(l: Log, now: int)
    requires l.Sound()
    ensures Later(l, now).Sound()
  {
    var l' := Later(l, now);
    forall s ensures Told(l'.lines, s, l'.Find(s), l'.clock) {
      assert l'.Find(s) == l.Find(s);
      ToldLater(l.lines, s, l.Find(s), l.clock, l'.clock);
    }
  }

  lemma CountedKeeps(l: Log, s: Slot)
    requires l.Sound() && l.Find(s).Some?
    ensures Counted(l, s).Sound()
  {
    var b := l.Find(s).value;
    var m := if s.Key? then l.buckets else l.overflow;
    CountedTold(l, s);
    HeldPut(m, s, b.(count := b.count + 1));
    HeldWithout(m, s);
    assert Told(l.lines, s, Some(b), l.clock);
    assert Extra(b.(count := b.count + 1)) == Extra(b) + 1;
  }

  lemma CountedTold(l: Log, s: Slot)
    requires l.AllTold() && l.Find(s).Some?
    ensures Counted(l, s).AllTold()
  {
    var b := l.Find(s).value;
    forall x ensures Told(l.lines, x, Counted(l, s).Find(x), l.clock) {
      assert Told(l.lines, x, l.Find(x), l.clock);
      if x == s {
        ToldCounted(l.lines, s, b, l.clock);
      } else {
        assert Counted(l, s).Find(x) == l.Find(x);
      }
    }
  }

  lemma ClosedKeeps(l: Log, s: Slot)
    requires l.Sound() && l.Find(s).Some? && !Fresh(l, s)
    ensures Closed(l, s).Sound()
  {
    ClosedTold(l, s);
    HeldWithout(if s.Key? then l.buckets else l.overflow, s);
    assert Told(l.lines, s, l.Find(s), l.clock);
    FlushedReports(l.lines, s, l.Find(s).value, l.clock);
  }

  lemma ClosedTold(l: Log, s: Slot)
    requires l.AllTold() && l.Find(s).Some? && !Fresh(l, s)
    ensures Closed(l, s).AllTold()
  {
    var b, l' := l.Find(s).value, Closed(l, s);
    assert Told(l.lines, s, Some(b), l.clock);
    forall x ensures Told(l'.lines, x, l'.Find(x), l'.clock) {
      assert Told(l.lines, x, l.Find(x), l.clock);
      if x == s {
        ToldClosing(l.lines, s, b, l.clock);
      } else {
        assert l'.Find(x) == l.Find(x);
        FlushedOther(l.lines, s, b, x, l.Find(x), l.clock);
      }
    }
  }

  lemma BegunKeeps(l: Log, s: Slot)
    requires l.Sound() && l.Find(s).None? && (s.Key? ==> |l.buckets| < MAX_ADDRS)
    ensures Begun(l, s).Sound()
  {
    BegunTold(l, s);
    var m := if s.Key? then l.buckets else l.overflow;
    HeldPut(m, s, Bucket(1, l.clock));
    Absent(m, s);
    ReportedOne(l.lines, Opening(s, l.clock));
  }

  lemma BegunTold(l: Log, s: Slot)
    requires l.AllTold() && l.Find(s).None?
    ensures Begun(l, s).AllTold()
  {
    var l' := Begun(l, s);
    forall x ensures Told(l'.lines, x, l'.Find(x), l'.clock) {
      assert Told(l.lines, x, l.Find(x), l.clock);
      if x == s {
        ToldOpening(l.lines, s, l.clock);
      } else {
        assert l'.Find(x) == l.Find(x);
        ToldOther(l.lines, Opening(s, l.clock), x, l.Find(x), l.clock);
      }
    }
  }

  // ---- one event ----

  /** A slot's stale window closed, if it has one. */
  function Reclaimed(l: Log, s: Slot): Log { if l.Find(s).Some? then Closed(l, s) else l }

  /** record, for a debounced event, at the log's own clock. */
  function Recorded(l: Log, k: Slot): Log
    requires k.Key?
  {
    if Fresh(l, k) then Counted(l, k)
    else
      var r := Reclaimed(l, k);
      if |r.buckets| < MAX_ADDRS then Begun(r, k)
      else
        var o := Overflow(k.event);
        if Fresh(r, o) then Counted(r, o) else Begun(Reclaimed(r, o), o)
  }

  lemma ReclaimedKeeps(l: Log, s: Slot)
    requires l.Sound() && !Fresh(l, s)
    ensures Reclaimed(l, s).Sound() && Reclaimed(l, s).Find(s).None? && Reclaimed(l, s).clock == l.clock
  {
    if l.Find(s).Some? {
      ClosedKeeps(l, s);
    }
  }

  /** However full the table and whatever the time, one event recorded is one event accounted for. */
  lemma RecordedKeeps(l: Log, k: Slot)
    requires l.Sound() && k.Key?
    ensures Recorded(l, k).Sound() && Recorded(l, k).events == l.events + 1
  {
    if Fresh(l, k) {
      CountedKeeps(l, k);
    } else {
      ReclaimedKeeps(l, k);
      var r := Reclaimed(l, k);
      if |r.buckets| < MAX_ADDRS {
        BegunKeeps(r, k);
      } else {
        var o := Overflow(k.event);
        if Fresh(r, o) {
          CountedKeeps(r, o);
        } else {
          ReclaimedKeeps(r, o);
          BegunKeeps(Reclaimed(r, o), o);
        }
      }
    }
  }

  // ---- every schedule ----

  /** An event, or the sweeper coming to one slot; a sweep is any number of the latter. */
  datatype Op = Event(key: Slot, now: int) | Visit(slot: Slot, now: int)

  function Do(l: Log, op: Op): Log
    requires op.Event? ==> op.key.Key?
  {
    var l' := Later(l, op.now);
    match op
    case Event(k, _) => Recorded(l', k)
    case Visit(s, _) => if l'.Find(s).Some? && !Fresh(l', s) then Closed(l', s) else l'
  }

  function DoAll(l: Log, ops: seq<Op>): Log
    requires forall i :: 0 <= i < |ops| && ops[i].Event? ==> ops[i].key.Key?
  {
    if ops == [] then l else Do(DoAll(l, ops[..|ops| - 1]), ops[|ops| - 1])
  }

  function CountEvents(ops: seq<Op>): nat {
    if ops == [] then 0 else CountEvents(ops[..|ops| - 1]) + if ops[|ops| - 1].Event? then 1 else 0
  }

  lemma DoKeeps(l: Log, op: Op)
    requires l.Sound() && (op.Event? ==> op.key.Key?)
    ensures Do(l, op).Sound() && Do(l, op).events == l.events + if op.Event? then 1 else 0
  {
    LaterKeeps(l, op.now);
    var l' := Later(l, op.now);
    match op
    case Event(k, _) => RecordedKeeps(l', k);
    case Visit(s, _) => if l'.Find(s).Some? && !Fresh(l', s) { ClosedKeeps(l', s); }
  }

  lemma {:induction false} DoAllKeeps(ops: seq<Op>)
    requires forall i :: 0 <= i < |ops| && ops[i].Event? ==> ops[i].key.Key?
    ensures DoAll(EMPTY, ops).Sound() && DoAll(EMPTY, ops).events == CountEvents(ops)
  {
    if ops == [] {
      EmptyIsSound();
    } else {
      var front, op := ops[..|ops| - 1], ops[|ops| - 1];
      DoAllKeeps(front);
      DoKeeps(DoAll(EMPTY, front), op);
    }
  }

  /** Debounce conservation, for every sequence of events and sweeps. */
  lemma EverythingIsAccountedFor(ops: seq<Op>)
    requires forall i :: 0 <= i < |ops| && ops[i].Event? ==> ops[i].key.Key?
    ensures var l := DoAll(EMPTY, ops);
            CountEvents(ops) == Reported(l.lines) + Held(l.buckets) + Held(l.overflow) && |l.buckets| <= 1024
  {
    DoAllKeeps(ops);
  }

  /** The burst a line belongs to, by when it began. */
  function BurstOf(l: Line): int
    requires !l.Plain?
  {
    if l.Opening? then l.at else l.since
  }

  lemma LinesOfABurst(l: Log, s: Slot, i: nat, j: nat)
    requires l.AllTold() && i < j < |l.lines|
    requires !l.lines[i].Plain? && !l.lines[j].Plain? && l.lines[i].slot == l.lines[j].slot == s
    ensures BurstOf(l.lines[i]) == BurstOf(l.lines[j]) ==> l.lines[i].Opening? && l.lines[j].Summary?
    ensures BurstOf(l.lines[i]) != BurstOf(l.lines[j]) && l.lines[i].Opening? && l.lines[j].Opening? ==>
              BurstOf(l.lines[i]) + WINDOW <= BurstOf(l.lines[j])
  {
    assert Told(l.lines, s, l.Find(s), l.clock);
    if l.lines[i].Summary? && l.lines[j].Opening? {
      assert Opened(l.lines[..i], s, l.lines[i].since);
      var k :| 0 <= k < i && l.lines[..i][k] == Opening(s, l.lines[i].since);
      assert l.lines[k].at + WINDOW <= l.lines[j].at;
    }
  }

  /** In every run, no burst gets a third line, and bursts of one slot are a window apart. */
  lemma TwoLinesPerBurst(ops: seq<Op>, s: Slot, i: nat, j: nat)
    requires forall k :: 0 <= k < |ops| && ops[k].Event? ==> ops[k].key.Key?
    requires i < j < |DoAll(EMPTY, ops).lines|
    requires var lines := DoAll(EMPTY, ops).lines;
             !lines[i].Plain? && !lines[j].Plain? && lines[i].slot == lines[j].slot == s
    ensures var lines := DoAll(EMPTY, ops).lines;
            if BurstOf(lines[i]) == BurstOf(lines[j]) then lines[i].Opening? && lines[j].Summary?
            else lines[i].Opening? && lines[j].Opening? ==> BurstOf(lines[i]) + 60 <= BurstOf(lines[j])
  {
    DoAllKeeps(ops);
    LinesOfABurst(DoAll(EMPTY, ops), s, i, j);
  }

  // ---- the debouncer ----

  class LoginEvents {
    var buckets: map<Slot, Bucket>
    var overflow: map<Slot, Bucket>
    var lines: seq<Line>
    ghost var clock: int
    ghost var events: nat

    ghost function View(): Log
      reads this
    {
      Log(buckets, overflow, lines, clock, events)
    }

    constructor ()
      ensures View() == EMPTY
    {
      buckets, overflow, lines, clock, events := map[], map[], [], 0, 0;
    }

    /** Times never run backwards: that is what a monotonic clock reading gives. */
    method Record(e: LoginEvent, addr: Option<Addr>, proxied: bool, now: int)
      requires View().Sound() && now >= clock
      modifies this
      ensures View().Sound()
      ensures !Debounced(e) ==> View() == old(View()).(lines := old(lines) + [Plain(e)])
      ensures Debounced(e) ==>
                View() == Recorded(Later(old(View()), now), Key(e, addr, proxied)) && events == old(events) + 1
    {
      ghost var l := View();
      if !Debounced(e) {
        lines := lines + [Plain(e)];
        PlainKeeps(l, e);
      } else {
        Fold(Key(e, addr, proxied), now);
        LaterKeeps(l, now);
        RecordedKeeps(Later(l, now), Key(e, addr, proxied));
      }
    }

    method Fold(k: Slot, now: int)
      requires k.Key? && now >= clock
      modifies this
      ensures View() == Recorded(Later(old(View()), now), k)
    {
      clock := now;
      if k in buckets && now - buckets[k].since < WINDOW {
        events := events + 1;
        buckets := buckets[k := buckets[k].(count := buckets[k].count + 1)];
        return;
      }
      FoldStale(k, now);
    }

    /** No open window for the slot: one whose time is up is summed up first. */
    method FoldStale(k: Slot, now: int)
      requires k.Key? && now == clock && !Fresh(View(), k)
      modifies this
      ensures View() == Recorded(old(View()), k)
    {
      Reclaim(k, now);
      if |buckets| >= MAX_ADDRS {
        FoldOverflow(Overflow(k.event), now);
      } else {
        events := events + 1;
        buckets := buckets[k := Bucket(1, now)];
        lines := lines + [Opening(k, now)];
      }
    }

    method Reclaim(k: Slot, now: int)
      requires k.Key? && now == clock
      modifies this`buckets, this`lines
      ensures View() == Reclaimed(old(View()), k)
    {
      if k in buckets {
        lines := Flushed(lines, k, buckets[k], now);
        buckets := buckets - {k};
      }
    }

    method FoldOverflow(o: Slot, now: int)
      requires o.Overflow? && now == clock
      modifies this`overflow, this`lines, this`events
      ensures var l := old(View());
              View() == if Fresh(l, o) then Counted(l, o) else Begun(Reclaimed(l, o), o)
    {
      events := events + 1;
      CountOverflow(o, now);
    }

    /** One slot whose time is up. */
    method Close(s: Slot, now: int)
      requires View().Sound() && now == clock && View().Find(s).Some? && !Fresh(View(), s)
      modifies this`buckets, this`overflow, this`lines
      ensures View().Sound() && View() == Closed(old(View()), s) && old(lines) <= lines
    {
      ClosedKeeps(View(), s);
      if s.Key? {
        lines := Flushed(lines, s, buckets[s], now);
        buckets := buckets - {s};
      } else {
        lines := Flushed(lines, s, overflow[s], now);
        overflow := overflow - {s};
      }
    }

    method SweepBuckets(now: int)
      requires View().Sound() && now == clock
      modifies this`buckets, this`overflow, this`lines
      ensures View().Sound() && old(lines) <= lines
      ensures buckets == StillOpen(old(buckets), {}, now) && overflow == old(overflow)
    {
      var left := buckets.Keys;
      while left != {}
        invariant View().Sound() && old(lines) <= lines
        invariant buckets == StillOpen(old(buckets), left, now) && overflow == old(overflow)
        invariant left <= old(buckets).Keys
        decreases left
      {
        var s :| s in left;
        left := left - {s};
        if now - buckets[s].since >= WINDOW {
          Close(s, now);
        }
      }
    }

    method SweepOverflow(now: int)
      requires View().Sound() && now == clock
      modifies this`buckets, this`overflow, this`lines
      ensures View().Sound() && old(lines) <= lines
      ensures overflow == StillOpen(old(overflow), {}, now) && buckets == old(buckets)
    {
      var left := overflow.Keys;
      while left != {}
        invariant View().Sound() && old(lines) <= lines
        invariant overflow == StillOpen(old(overflow), left, now) && buckets == old(buckets)
        invariant left <= old(overflow).Keys
        decreases left
      {
        var s :| s in left;
        left := left - {s};
        if now - overflow[s].since >= WINDOW {
          Close(s, now);
        }
      }
    }

    /** Exactly the windows that are over are summed up and closed. */
    method Sweep(now: int)
      requires View().Sound() && now >= clock
      modifies this
      ensures View().Sound() && events == old(events) && old(lines) <= lines
      ensures buckets == StillOpen(old(buckets), {}, now) && overflow == StillOpen(old(overflow), {}, now)
    {
      LaterKeeps(View(), now);
      clock := now;
      SweepBuckets(now);
      SweepOverflow(now);
    }

    /** The sweep on the way out, a window ahead: nothing recorded so far is left unreported. */
    method FinalSweep(now: int)
      requires View().Sound() && now >= clock
      modifies this
      ensures buckets == map[] && overflow == map[] && events == old(events) == Reported(lines)
    {
      AllOpenedBefore(View());
      Sweep(now + WINDOW);
      assert buckets == map[] && overflow == map[];
    }

    /** The table is full: one bucket for everybody else who does this. */
    method CountOverflow(o: Slot, now: int)
      modifies this`overflow, this`lines
      ensures o in old(overflow) && now - old(overflow)[o].since < WINDOW ==>
                && lines == old(lines)
                && overflow == old(overflow)[o := old(overflow)[o].(count := old(overflow)[o].count + 1)]
      ensures !(o in old(overflow) && now - old(overflow)[o].since < WINDOW) ==>
                && overflow == (old(overflow) - {o})[o := Bucket(1, now)]
                && lines == (if o in old(overflow) then Flushed(old(lines), o, old(overflow)[o], now) else old(lines))
                            + [Opening(o, now)]
    {
      if o in overflow && now - overflow[o].since < WINDOW {
        overflow := overflow[o := overflow[o].(count := overflow[o].count + 1)];
        return;
      }
      if o in overflow {
        lines := Flushed(lines, o, overflow[o], now);
      }
      assert (overflow - {o})[o := Bucket(1, now)] == overflow[o := Bucket(1, now)];
      overflow := overflow[o := Bucket(1, now)];
      lines := lines + [Opening(o, now)];
    }
  }

  /** The buckets a sweep at `now` leaves, `left` not having been looked at yet. */
  function StillOpen(m: map<Slot, Bucket>, left: set<Slot>, now: int): map<Slot, Bucket> {
    map s | s in m && (s in left || now - m[s].since < WINDOW) :: m[s]
  }

  lemma AllOpenedBefore(l: Log)
    requires l.Sound()
    ensures forall s :: s in l.buckets ==> l.buckets[s].since <= l.clock
    ensures forall s :: s in l.overflow ==> l.overflow[s].since <= l.clock
  {
    forall s | s in l.buckets || s in l.overflow ensures l.Find(s).Some? && l.Find(s).value.since <= l.clock {
      assert Told(l.lines, s, l.Find(s), l.clock);
    }
  }

  lemma EmptyIsSound()
    ensures EMPTY.Sound()
  {
    assert EMPTY.AllTold() by {
      forall s ensures Told([], s, None, 0) {
      }
    }
  }

  lemma PlainKeeps(l: Log, e: LoginEvent)
    requires l.Sound()
    ensures l.(lines := l.lines + [Plain(e)]).Sound()
  {
    PlainTold(l, e);
    ReportedOne(l.lines, Plain(e));
  }

  lemma PlainTold(l: Log, e: LoginEvent)
    requires l.AllTold()
    ensures l.(lines := l.lines + [Plain(e)]).AllTold()
  {
    var l' := l.(lines := l.lines + [Plain(e)]);
    forall s ensures Told(l'.lines, s, l'.Find(s), l'.clock) {
      assert Told(l.lines, s, l.Find(s), l.clock) && l'.Find(s) == l.Find(s);
      ToldOther(l.lines, Plain(e), s, l.Find(s), l.clock);
    }
  }
}
