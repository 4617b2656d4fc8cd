/** Usage bookkeeping: counters that restart with every table, totals that must not. */
module Usage {
  import opened Addresses

  /** A port rule's id, or one of the core's own, which no usage record keeps. */
  datatype RuleId = Port(name: string) | Reserved(name: string)

  datatype Counter = Counter(packets: nat, bytes: nat)

  /** One rule's record: the totals, when it was seen, and the kernel's figures at the last collect. */
  datatype Record = Record(total: Counter, seen: Option<(int, int)>, base: Counter)

  const NEW := Record(Counter(0, 0), None, Counter(0, 0))

  /** What arrived since the baseline; a counter below its baseline has restarted and is all new. */
  function Delta(now: nat, base: nat): nat { if now >= base then now - base else now }

  function Booked(r: Record, k: Counter, now: int): Record {
    var p, b := Delta(k.packets, r.base.packets), Delta(k.bytes, r.base.bytes);
    if p == 0 then r.(base := k)
    else Record(Counter(r.total.packets + p, r.total.bytes + b),
                Some((if r.seen.Some? then r.seen.value.0 else now, now)), k)
  }

  predicate Keeps(id: RuleId, live: set<RuleId>) { id in live && !id.Reserved? }

  function RecordOf(m: map<RuleId, Record>, id: RuleId): Record { if id in m then m[id] else NEW }

  /** Collect: every live counter booked, everything the rules no longer name forgotten. */
  function Collected(m: map<RuleId, Record>, counters: map<RuleId, Counter>, live: set<RuleId>,
                     now: int): map<RuleId, Record> {
    map id | id in m.Keys + counters.Keys && Keeps(id, live) ::
      if id in counters then Booked(RecordOf(m, id), counters[id], now) else RecordOf(m, id)
  }

  function BaselinesReset(m: map<RuleId, Record>): map<RuleId, Record> {
    map id | id in m :: m[id].(base := Counter(0, 0))
  }

  class UsageStore {
    var usage: map<RuleId, Record>

    constructor ()
      ensures usage == map[]
    {
      usage := map[];
    }

    method Collect(counters: map<RuleId, Counter>, live: set<RuleId>, now: int)
      modifies this
      ensures usage == Collected(old(usage), counters, live, now)
    {
      var left := counters.Keys;
      while left != {}
        invariant left <= counters.Keys
        invariant usage.Keys == old(usage).Keys + (counters.Keys - left) * live
        invariant forall id :: id in usage ==>
                    usage[id] == if id in counters && id !in left && id in live
                                 then Booked(RecordOf(old(usage), id), counters[id], now) else RecordOf(old(usage), id)
        decreases left
      {
        var id :| id in left;
        left := left - {id};
        if id in live {
          usage := usage[id := Booked(RecordOf(usage, id), counters[id], now)];
        }
      }
      usage := map id | id in usage && Keeps(id, live) :: usage[id];
    }

    method ResetBaselines()
      modifies this
      ensures usage == BaselinesReset(old(usage))
    {
      var left := usage.Keys;
      while left != {}
        invariant left <= usage.Keys == old(usage).Keys
        invariant forall id :: id in usage ==>
                    usage[id] == if id in left then old(usage)[id] else old(usage)[id].(base := Counter(0, 0))
        decreases left
      {
        var id :| id in left;
        left := left - {id};
        usage := usage[id := usage[id].(base := Counter(0, 0))];
      }
    }
  }

  // ---- one live rule, over any run ----

  /**
   What the kernel and the file hold for one rule, and the truth beside them. `bytes` is the byte figure of the table
   in force, `fits` says the baseline counts
   packets of the table now in force; `counted` is every packet the rule ever counted, `lost` those no collect
   can find any more, `twice` those a reset made a later collect count again.
   */
  datatype Meter = Meter(counter: Option<nat>, bytes: nat, rec: Record, fits: bool, awaiting: bool,
                         counted: nat, lost: nat, twice: nat)

  const FRESH := Meter(None, 0, NEW, true, false, 0, 0, 0)

  datatype Event =
    | Packet(size: nat)           // the rule counts one
    | Collect(now: int)
    | Rebuild                     // the core writes a new table; its baseline reset follows
    | Reset
    | Teardown                    // panic mode, or somebody flushing the ruleset
    | Foreign                     // somebody else puts the table back, its counters at zero

  function Unbooked(m: Meter): nat {
    if m.counter.None? then 0
    else if m.fits && m.rec.base.packets <= m.counter.value then m.counter.value - m.rec.base.packets
    else m.counter.value
  }

  /** A table with zeroed counters replaces whatever was there. */
  function Fresh(m: Meter): Meter {
    m.(counter := Some(0), bytes := 0, fits := m.rec.base.packets == 0, lost := m.lost + Unbooked(m))
  }

  function Step(m: Meter, e: Event): Meter {
    match e
    case Packet(size) =>
      if m.counter.None? then m
      else m.(counter := Some(m.counter.value + 1), bytes := m.bytes + size, counted := m.counted + 1)
    case Collect(now) =>
      if m.counter.None? then m
      else
        var k := m.counter.value;
        m.(rec := Booked(m.rec, Counter(k, m.bytes), now), fits := true,
           lost := m.lost + (Unbooked(m) - Delta(k, m.rec.base.packets)))
    case Rebuild => Fresh(m).(awaiting := true)
    case Reset =>
      m.(rec := m.rec.(base := Counter(0, 0)), fits := true, awaiting := false,
         twice := if m.counter.Some? && m.fits then m.twice + m.rec.base.packets else m.twice)
    case Teardown => m.(counter := None, bytes := 0, lost := m.lost + Unbooked(m))
    case Foreign => Fresh(m)
  }

  /** Nothing appears and nothing disappears: booked, still in the counter, or lost - plus what was booked twice. */
  predicate Balances(m: Meter) {
    && (m.counter.Some? && m.fits ==> m.rec.base.packets <= m.counter.value)
    && m.rec.total.packets + Unbooked(m) + m.lost == m.counted + m.twice
  }

  function Run(m: Meter, es: seq<Event>): Meter {
    if es == [] then m else Step(Run(m, es[..|es| - 1]), es[|es| - 1])
  }

  /** Every run of packets, collects, rebuilds, resets, teardowns and foreign tables balances. */
  lemma {:induction false} EveryRunBalances(es: seq<Event>)
    ensures Balances(Run(FRESH, es))
  {
    if es != [] {
      EveryRunBalances(es[..|es| - 1]);
    }
  }

  /** Each rebuild's reset comes before the next collect, and a reset only after a rebuild. */
  predicate Orderly(es: seq<Event>) {
    es == [] ||
    (var front, e := es[..|es| - 1], es[|es| - 1];
     Orderly(front) && (e.Collect? ==> !Run(FRESH, front).awaiting) && (e.Reset? ==> Run(FRESH, front).awaiting))
  }

  lemma {:induction false} OrderlyNeverTwice(es: seq<Event>)
    requires Orderly(es)
    ensures var m := Run(FRESH, es);
            m.twice == 0 && (m.awaiting && m.counter.Some? && m.fits ==> m.rec.base.packets == 0)
  {
    if es != [] {
      OrderlyNeverTwice(es[..|es| - 1]);
    }
  }

  /** Usage conservation: in order, a rule is never credited with more packets than it counted. */
  lemma NeverOverbooked(es: seq<Event>)
    requires Orderly(es)
    ensures var m := Run(FRESH, es);
            m.rec.total.packets == m.counted - m.lost - Unbooked(m) <= m.counted
  {
    EveryRunBalances(es);
    OrderlyNeverTwice(es);
  }

  predicate NoForeign(es: seq<Event>) { forall i :: 0 <= i < |es| ==> !es[i].Foreign? }

  lemma {:induction false} OwnTablesFit(es: seq<Event>)
    requires Orderly(es) && NoForeign(es)
    ensures var m := Run(FRESH, es); m.counter.Some? && !m.awaiting ==> m.fits
  {
    if es != [] {
      assert !es[|es| - 1].Foreign?;
      assert NoForeign(es[..|es| - 1]);
      OwnTablesFit(es[..|es| - 1]);
    }
  }

  // ---- the same, read off the events alone ----

  /** A table is in the kernel. */
  predicate HasTable(es: seq<Event>) {
    es != [] &&
    var front := es[..|es| - 1];
    match es[|es| - 1]
    case Rebuild => true
    case Foreign => true
    case Teardown => false
    case _ => HasTable(front)
  }

  datatype Unit = Packets | Bytes

  /** What a packet adds to the counter of a table that is there. */
  function Adds(e: Event, u: Unit): nat { if !e.Packet? then 0 else if u.Packets? then 1 else e.size }

  /** Counted since the table was created. */
  function TableCount(es: seq<Event>, u: Unit): nat {
    if es == [] then 0
    else
      var front, e := es[..|es| - 1], es[|es| - 1];
      if e.Rebuild? || e.Teardown? || e.Foreign? then 0
      else TableCount(front, u) + if HasTable(front) then Adds(e, u) else 0
  }

  /** Ever counted. */
  function Seen(es: seq<Event>, u: Unit): nat {
    if es == [] then 0
    else Seen(es[..|es| - 1], u) + if HasTable(es[..|es| - 1]) then Adds(es[|es| - 1], u) else 0
  }

  /** Counted since the last collect, or since the table was created. */
  function Pend(es: seq<Event>, u: Unit): nat {
    if es == [] then 0
    else
      var front, e := es[..|es| - 1], es[|es| - 1];
      if e.Packet? || e.Reset? then Pend(front, u) + if HasTable(front) then Adds(e, u) else 0 else 0
  }

  /** What was pending each time a table was replaced or taken down. */
  function Gaps(es: seq<Event>, u: Unit): nat {
    if es == [] then 0
    else
      var front := es[..|es| - 1];
      Gaps(front, u) + if es[|es| - 1].Rebuild? || es[|es| - 1].Teardown? then Pend(front, u) else 0
  }

  predicate Mirrors(m: Meter, es: seq<Event>) {
    && m.counter == (if HasTable(es) then Some(TableCount(es, Packets)) else None)
    && m.counted == Seen(es, Packets) && (!HasTable(es) ==> TableCount(es, Packets) == 0)
    && m.bytes == TableCount(es, Bytes) && (TableCount(es, Packets) == 0 ==> m.bytes == 0)
  }

  lemma MirrorsStep(m: Meter, es: seq<Event>)
    requires es != [] && Mirrors(m, es[..|es| - 1])
    ensures Mirrors(Step(m, es[|es| - 1]), es)
  {
    match es[|es| - 1]
    case Packet(_) => case Collect(_) => case Rebuild => case Reset => case Teardown => case Foreign =>
  }

  lemma {:induction false} TheTableIs(es: seq<Event>)
    ensures Mirrors(Run(FRESH, es), es)
  {
    if es == [] {
      assert Run(FRESH, es) == FRESH;
    } else {
      TheTableIs(es[..|es| - 1]);
      MirrorsStep(Run(FRESH, es[..|es| - 1]), es);
    }
  }

  /**
   Usage conservation over whole runs: in order and with nobody else at the table, what is booked is what was
   counted, less the packets that came between a collect and the end of their table, less what still waits for
   the next collect.
   */
  lemma {:induction false} BooksBalance(es: seq<Event>)
    requires Orderly(es) && NoForeign(es)
    ensures var m := Run(FRESH, es);
            && m.lost == Gaps(es, Packets) && Unbooked(m) == Pend(es, Packets)
            && m.rec.total.packets == Seen(es, Packets) - Gaps(es, Packets) - Pend(es, Packets)
  {
    EveryRunBalances(es);
    OrderlyNeverTwice(es);
    TheTableIs(es);
    if es != [] {
      var front := es[..|es| - 1];
      assert !es[|es| - 1].Foreign?;
      assert NoForeign(front);
      BooksBalance(front);
      OwnTablesFit(front);
      OrderlyNeverTwice(front);
      EveryRunBalances(front);
      TheTableIs(front);
    }
  }

  /** How the baseline's bytes go with its packets. */
  predicate BytesFit(m: Meter) {
    && (m.rec.base.packets == 0 ==> m.rec.base.bytes == 0)
    && (m.counter.Some? && !m.awaiting ==>
          m.rec.base.bytes <= m.bytes && (m.counter.value == m.rec.base.packets ==> m.bytes == m.rec.base.bytes))
  }

  /** The byte books, with what waits read off the meter. */
  predicate ByteBooks(m: Meter, es: seq<Event>) {
    && BytesFit(m)
    && Pend(es, Bytes) == (if m.counter.None? then 0 else if m.awaiting then m.bytes else m.bytes - m.rec.base.bytes)
    && m.rec.total.bytes + Gaps(es, Bytes) + Pend(es, Bytes) == Seen(es, Bytes)
  }

  lemma ByteStep(m: Meter, es: seq<Event>)
    requires es != [] && ByteBooks(m, es[..|es| - 1]) && Mirrors(m, es[..|es| - 1]) && Balances(m)
    requires m.counter.Some? && !m.awaiting ==> m.fits
    requires var e := es[|es| - 1]; !e.Foreign? && (e.Collect? ==> !m.awaiting) && (e.Reset? ==> m.awaiting)
    ensures ByteBooks(Step(m, es[|es| - 1]), es)
  {
    match es[|es| - 1]
    case Packet(_) => case Collect(_) => case Rebuild => case Reset => case Teardown =>
  }

  /** The same of the bytes: what is booked is what was counted, less the gaps, less what still waits. */
  lemma {:induction false} BytesBalance(es: seq<Event>)
    requires Orderly(es) && NoForeign(es)
    ensures ByteBooks(Run(FRESH, es), es)
    ensures Run(FRESH, es).rec.total.bytes == Seen(es, Bytes) - Gaps(es, Bytes) - Pend(es, Bytes)
  {
    if es != [] {
      var front := es[..|es| - 1];
      assert !es[|es| - 1].Foreign?;
      assert NoForeign(front);
      BytesBalance(front);
      OwnTablesFit(front);
      EveryRunBalances(front);
      TheTableIs(front);
      ByteStep(Run(FRESH, front), es);
    }
  }

  // ---- when a rule was seen ----

  /** The event at `i` is a collect that booked packets. */
  predicate Books(es: seq<Event>, i: nat)
    requires i < |es|
  {
    es[i].Collect? && Run(FRESH, es[..i]).rec.total.packets < Run(FRESH, es[..i + 1]).rec.total.packets
  }

  ghost predicate FirstBooking(es: seq<Event>, i: nat) {
    i < |es| && Books(es, i) && forall k :: 0 <= k < i ==> !Books(es, k)
  }

  ghost predicate LastBooking(es: seq<Event>, i: nat) {
    i < |es| && Books(es, i) && forall k :: i < k < |es| ==> !Books(es, k)
  }

  ghost predicate SeenSpans(es: seq<Event>, seen: Option<(int, int)>) {
    match seen
    case None => forall i :: 0 <= i < |es| ==> !Books(es, i)
    case Some((first, last)) =>
      exists i: nat, j: nat :: FirstBooking(es, i) && LastBooking(es, j) && first == es[i].now && last == es[j].now
  }

  lemma StepSeen(m: Meter, e: Event)
    ensures var m' := Step(m, e);
            if e.Collect? && m.rec.total.packets < m'.rec.total.packets
            then m'.rec.seen == Some((if m.rec.seen.Some? then m.rec.seen.value.0 else e.now, e.now))
            else m'.rec.seen == m.rec.seen
  {
  }

  lemma BooksInFront(es: seq<Event>, i: nat)
    requires i + 1 < |es|
    ensures Books(es[..|es| - 1], i) <==> Books(es, i)
  {
    assert es[..|es| - 1][..i] == es[..i] && es[..|es| - 1][..i + 1] == es[..i + 1];
  }

  lemma LastEventBooks(es: seq<Event>)
    requires es != []
    ensures var m, e := Run(FRESH, es[..|es| - 1]), es[|es| - 1];
            Books(es, |es| - 1) <==> e.Collect? && m.rec.total.packets < Step(m, e).rec.total.packets
  {
    assert es[..|es|] == es;
  }

  /** In every run the record's first and last sighting are the first and the last collect that booked packets. */
  lemma {:induction false} SeenMeans(es: seq<Event>)
    ensures SeenSpans(es, Run(FRESH, es).rec.seen)
  {
    if es != [] {
      var n, front := |es| - 1, es[..|es| - 1];
      SeenMeans(front);
      StepSeen(Run(FRESH, front), es[n]);
      LastEventBooks(es);
      forall i | 0 <= i < n ensures Books(front, i) <==> Books(es, i) {
        BooksInFront(es, i);
      }
      SeenStep(es, Run(FRESH, front).rec.seen);
    }
  }

  lemma SeenStep(es: seq<Event>, seen: Option<(int, int)>)
    requires es != [] && SeenSpans(es[..|es| - 1], seen)
    requires forall i :: 0 <= i < |es| - 1 ==> (Books(es[..|es| - 1], i) <==> Books(es, i))
    ensures var n := |es| - 1;
            SeenSpans(es, if !Books(es, n) then seen
                          else Some((if seen.Some? then seen.value.0 else es[n].now, es[n].now)))
  {
    var n, front := |es| - 1, es[..|es| - 1];
    if seen.Some? {
      var i: nat, j: nat :| && FirstBooking(front, i) && LastBooking(front, j)
                  && seen.value.0 == front[i].now && seen.value.1 == front[j].now;
      assert FirstBooking(es, i) && LastBooking(es, if Books(es, n) then n else j);
    } else if Books(es, n) {
      assert FirstBooking(es, n) && LastBooking(es, n);
    }
  }

  /** The figure the last collect since the table was created or reset found in the counter. */
  function LastRead(es: seq<Event>): nat {
    if es == [] then 0
    else
      var front := es[..|es| - 1];
      match es[|es| - 1]
      case Collect(_) => TableCount(front, Packets)
      case Packet(_) => LastRead(front)
      case _ => 0
  }

  /** That figure at every reset. */
  function Doubles(es: seq<Event>): nat {
    if es == [] then 0
    else Doubles(es[..|es| - 1]) + if es[|es| - 1].Reset? then LastRead(es[..|es| - 1]) else 0
  }

  lemma {:induction false} ResetsDouble(es: seq<Event>)
    ensures var m := Run(FRESH, es);
            m.twice == Doubles(es) && LastRead(es) == if m.counter.Some? && m.fits then m.rec.base.packets else 0
  {
    TheTableIs(es);
    if es != [] {
      TheTableIs(es[..|es| - 1]);
      ResetsDouble(es[..|es| - 1]);
    }
  }

  lemma {:induction false} NoDoublesIff(es: seq<Event>)
    ensures Doubles(es) == 0 <==> forall i :: 0 <= i < |es| && es[i].Reset? ==> LastRead(es[..i]) == 0
  {
    if es != [] {
      var front, n := es[..|es| - 1], |es| - 1;
      NoDoublesIff(front);
      assert forall i :: 0 <= i < n ==> front[i] == es[i] && front[..i] == es[..i];
    }
  }

  /**
   Exactly when packets are booked twice, in any run: when a reset comes after a collect that found packets
   in the table the reset is about.
   */
  lemma BookedTwiceIff(es: seq<Event>)
    ensures Run(FRESH, es).twice == 0 <==> forall i :: 0 <= i < |es| && es[i].Reset? ==> LastRead(es[..i]) == 0
  {
    ResetsDouble(es);
    NoDoublesIff(es);
  }

  /** A collect between a rebuild and its reset is booked again: two packets on record for one counted. */
  lemma CollectBeforeTheResetCountsTwice(size: nat, now: int)
    ensures var m := Run(FRESH, [Rebuild, Packet(size), Collect(now), Reset, Collect(now)]);
            m.counted == 1 && m.rec.total.packets == 2 && m.twice == 1
  {
    var a, p, b := Step(FRESH, Rebuild), Packet(size), Collect(now);
    var m := Step(Step(Step(Step(a, p), b), Reset), b);
    assert [Rebuild, p, b, Reset, b][..4] == [Rebuild, p, b, Reset];
    assert [Rebuild, p, b, Reset][..3] == [Rebuild, p, b];
    assert [Rebuild, p, b][..2] == [Rebuild, p];
    assert [Rebuild, p][..1] == [Rebuild];
    assert [Rebuild][..0] == [];
    assert Run(FRESH, [Rebuild]) == a;
    assert Run(FRESH, [Rebuild, p]) == Step(a, p);
    assert Run(FRESH, [Rebuild, p, b]) == Step(Step(a, p), b);
  }

  // ---- the meter is one rule of the store ----

  /**
   Collecting and resetting the store does to each live rule's record what the meter's steps do, and a collect keeps
   a record for exactly the live port rules it had one of or found a counter for.
   */
  lemma TheStoreIsItsMeters(usage: map<RuleId, Record>, counters: map<RuleId, Counter>, live: set<RuleId>, now: int,
                            id: RuleId, m: Meter)
    requires m.rec == RecordOf(usage, id)
    requires m.counter == if id in counters then Some(counters[id].packets) else None
    requires m.bytes == if id in counters then counters[id].bytes else 0
    ensures id in Collected(usage, counters, live, now)
            <==> id in live && id.Port? && (id in usage || id in counters)
    ensures id in live && id.Port? ==> RecordOf(Collected(usage, counters, live, now), id) == Step(m, Collect(now)).rec
    ensures RecordOf(BaselinesReset(usage), id) == Step(m, Reset).rec
  {
    if id in counters {
      assert Counter(counters[id].packets, counters[id].bytes) == counters[id];
    }
  }
}
