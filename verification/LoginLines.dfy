/** How often one address can make the debouncer write: never three lines inside one window. */
module LoginLines {
  import opened LoginEventLog
  import opened Addresses

  predicate About(l: Line, s: Slot) { !l.Plain? && l.slot == s }

  /** A slot's lines in order of time; two openings, and two summaries, at least a window apart. */
  ghost predicate Spaced(lines: seq<Line>, s: Slot, b: Option<Bucket>, clock: int) {
    && (forall i :: 0 <= i < |lines| && About(lines[i], s) ==> lines[i].at <= clock)
    && (forall i, j :: 0 <= i < j < |lines| && About(lines[i], s) && About(lines[j], s) ==>
          && lines[i].at <= lines[j].at
          && (lines[i].Opening? == lines[j].Opening? ==> lines[i].at + WINDOW <= lines[j].at))
    && (b.Some? ==> b.value.since <= clock && forall i :: 0 <= i < |lines| && About(lines[i], s) ==>
                                                 lines[i].at <= b.value.since)
    && (b.None? ==> forall i :: 0 <= i < |lines| && IsOpening(lines[i], s) ==> lines[i].at + WINDOW <= clock)
  }

  ghost predicate AllSpaced(l: Log) { forall s :: Spaced(l.lines, s, l.Find(s), l.clock) }

  lemma SpacedOther(lines: seq<Line>, l: Line, s: Slot, b: Option<Bucket>, clock: int)
    requires Spaced(lines, s, b, clock) && !About(l, s)
    ensures Spaced(lines + [l], s, b, clock)
  {
    var more := lines + [l];
    assert forall i :: 0 <= i < |lines| ==> more[i] == lines[i];
  }

  lemma SpacedOpening(lines: seq<Line>, s: Slot, clock: int)
    requires Spaced(lines, s, None, clock)
    ensures Spaced(lines + [Opening(s, clock)], s, Some(Bucket(1, clock)), clock)
  {
    var more := lines + [Opening(s, clock)];
    assert forall i :: 0 <= i < |lines| ==> more[i] == lines[i];
  }

  lemma SpacedClosing(lines: seq<Line>, s: Slot, b: Bucket, clock: int)
    requires Spaced(lines, s, Some(b), clock) && clock - b.since >= WINDOW
    ensures Spaced(Flushed(lines, s, b, clock), s, None, clock)
  {
    var more := Flushed(lines, s, b, clock);
    assert forall i :: 0 <= i < |lines| ==> more[i] == lines[i];
  }

  lemma LaterSpaced(l: Log, now: int)
    requires AllSpaced(l)
    ensures AllSpaced(Later(l, now))
  {
    var l' := Later(l, now);
    forall s ensures Spaced(l'.lines, s, l'.Find(s), l'.clock) {
      assert Spaced(l.lines, s, l.Find(s), l.clock) && l'.Find(s) == l.Find(s);
    }
  }

  lemma CountedSpaced(l: Log, s: Slot)
    requires AllSpaced(l) && l.Find(s).Some?
    ensures AllSpaced(Counted(l, s))
  {
    forall x ensures Spaced(l.lines, x, Counted(l, s).Find(x), l.clock) {
      assert Spaced(l.lines, x, l.Find(x), l.clock);
      assert x != s ==> Counted(l, s).Find(x) == l.Find(x);
    }
  }

  lemma ClosedSpaced(l: Log, s: Slot)
    requires AllSpaced(l) && l.Find(s).Some? && !Fresh(l, s)
    ensures AllSpaced(Closed(l, s))
  {
    var b, l' := l.Find(s).value, Closed(l, s);
    forall x ensures Spaced(l'.lines, x, l'.Find(x), l'.clock) {
      assert Spaced(l.lines, x, l.Find(x), l.clock);
      if x == s {
        SpacedClosing(l.lines, s, b, l.clock);
      } else {
        assert l'.Find(x) == l.Find(x);
        if b.count > 1 {
          SpacedOther(l.lines, Summary(s, b.count - 1, b.since, l.clock), x, l.Find(x), l.clock);
        }
      }
    }
  }

  lemma BegunSpaced(l: Log, s: Slot)
    requires AllSpaced(l) && l.Find(s).None?
    ensures AllSpaced(Begun(l, s))
  {
    var l' := Begun(l, s);
    forall x ensures Spaced(l'.lines, x, l'.Find(x), l'.clock) {
      assert Spaced(l.lines, x, l.Find(x), l.clock);
      if x == s {
        SpacedOpening(l.lines, s, l.clock);
      } else {
        assert l'.Find(x) == l.Find(x);
        SpacedOther(l.lines, Opening(s, l.clock), x, l.Find(x), l.clock);
      }
    }
  }

  lemma ReclaimedSpaced(l: Log, s: Slot)
    requires AllSpaced(l) && !Fresh(l, s)
    ensures AllSpaced(Reclaimed(l, s)) && Reclaimed(l, s).Find(s).None?
  {
    if l.Find(s).Some? {
      ClosedSpaced(l, s);
    }
  }

  lemma RecordedSpaced(l: Log, k: Slot)
    requires AllSpaced(l) && k.Key?
    ensures AllSpaced(Recorded(l, k))
  {
    if Fresh(l, k) {
      CountedSpaced(l, k);
    } else {
      ReclaimedSpaced(l, k);
      var r, o := Reclaimed(l, k), Overflow(k.event);
      if |r.buckets| < MAX_ADDRS {
        BegunSpaced(r, k);
      } else if Fresh(r, o) {
        CountedSpaced(r, o);
      } else {
        ReclaimedSpaced(r, o);
        BegunSpaced(Reclaimed(r, o), o);
      }
    }
  }

  lemma DoSpaced(l: Log, op: Op)
    requires AllSpaced(l) && (op.Event? ==> op.key.Key?)
    ensures AllSpaced(Do(l, op))
  {
    LaterSpaced(l, op.now);
    var l' := Later(l, op.now);
    match op
    case Event(k, _) => RecordedSpaced(l', k);
    case Visit(s, _) => if l'.Find(s).Some? && !Fresh(l', s) { ClosedSpaced(l', s); }
  }

  lemma {:induction false} DoAllSpaced(l: Log, ops: seq<Op>)
    requires AllSpaced(l) && forall i :: 0 <= i < |ops| && ops[i].Event? ==> ops[i].key.Key?
    ensures AllSpaced(DoAll(l, ops))
  {
    if ops != [] {
      DoAllSpaced(l, ops[..|ops| - 1]);
      DoSpaced(DoAll(l, ops[..|ops| - 1]), ops[|ops| - 1]);
    }
  }

  lemma EmptySpaced(l: Log)
    requires l.lines == [] && l.buckets == map[] && l.overflow == map[]
    ensures AllSpaced(l)
  {
    forall s ensures Spaced(l.lines, s, l.Find(s), l.clock) {
    }
  }

  /** In every run, of three lines about one key the first and the last are not within one half-open window. */
  lemma TwoLinesPerWindow(l: Log, ops: seq<Op>, s: Slot, i: nat, j: nat, k: nat, from: int)
    requires l.lines == [] && l.buckets == map[] && l.overflow == map[]
    requires forall n :: 0 <= n < |ops| && ops[n].Event? ==> ops[n].key.Key?
    requires i < j < k < |DoAll(l, ops).lines|
    requires var lines := DoAll(l, ops).lines; About(lines[i], s) && About(lines[j], s) && About(lines[k], s)
    ensures var lines := DoAll(l, ops).lines; !(from <= lines[i].at && lines[k].at < from + 60)
  {
    EmptySpaced(l);
    DoAllSpaced(l, ops);
    var l' := DoAll(l, ops);
    assert Spaced(l'.lines, s, l'.Find(s), l'.clock);
  }
}
