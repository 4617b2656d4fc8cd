/** The packet log: a ring that is always the end of one long log, and a file that can rebuild it. */
module PacketLogs {
  import opened Addresses

  /** A refused packet; `seqNo` numbers them across restarts. */
  datatype Entry = Entry(seqNo: nat, packet: string)

  /** The last k entries of a log, or all of them. */
  function Last(log: seq<Entry>, k: nat): seq<Entry> { if |log| <= k then log else log[|log| - k..] }

  /** The number of the last entry. */
  function Top(log: seq<Entry>): nat { if log == [] then 0 else log[|log| - 1].seqNo }

  /** Numbers start above zero and rise. */
  predicate Numbered(log: seq<Entry>) {
    log == [] || (Numbered(log[..|log| - 1]) && Top(log[..|log| - 1]) < Top(log))
  }

  lemma NumberedOn(log: seq<Entry>, e: Entry)
    requires Numbered(log) && Top(log) < e.seqNo
    ensures Numbered(log + [e]) && Top(log + [e]) == e.seqNo
  {
    assert (log + [e])[..|log|] == log;
  }

  lemma {:induction false} NumberedAt(log: seq<Entry>, i: nat)
    requires Numbered(log) && i < |log|
    ensures 0 < log[i].seqNo <= Top(log) && (i < |log| - 1 ==> log[i].seqNo < Top(log))
  {
    if i < |log| - 1 {
      NumberedAt(log[..|log| - 1], i);
    }
  }

  lemma {:induction false} NumberedUpTo(log: seq<Entry>, k: nat)
    requires Numbered(log) && k <= |log|
    ensures Numbered(log[..k])
    decreases |log|
  {
    if k < |log| {
      NumberedUpTo(log[..|log| - 1], k);
      assert log[..|log| - 1][..k] == log[..k];
    } else {
      assert log[..k] == log;
    }
  }

  lemma {:induction false} NumberedFrom(log: seq<Entry>, k: nat)
    requires Numbered(log) && k <= |log|
    ensures Numbered(log[k..])
    decreases |log|
  {
    if k < |log| {
      var front := log[..|log| - 1];
      NumberedFrom(front, k);
      assert log[k..][..|log| - k - 1] == front[k..];
      if k < |front| {
        assert front[k..][|front| - k - 1] == front[|front| - 1];
      }
    }
  }

  lemma NumberedEnd(log: seq<Entry>, k: nat)
    requires Numbered(log)
    ensures Numbered(Last(log, k))
  {
    if k < |log| {
      NumberedFrom(log, |log| - k);
    }
  }

  lemma NumberedPair(log: seq<Entry>, i: nat, j: nat)
    requires Numbered(log) && i < j < |log|
    ensures 0 < log[i].seqNo < log[j].seqNo
  {
    NumberedUpTo(log, j + 1);
    NumberedAt(log[..j + 1], i);
  }

  // ---- arithmetic of the ring ----

  lemma ModStep(t: nat, l: nat)
    requires l > 0
    ensures (t % l + 1) % l == (t + 1) % l
  {
    assert t == l * (t / l) + t % l;
    if t % l + 1 < l {
      DivideUnique(t + 1, l, t / l, t % l + 1);
    } else {
      assert t + 1 == l * (t / l + 1);
      DivideUnique(t + 1, l, t / l + 1, 0);
      DivideUnique(t % l + 1, l, 1, 0);
    }
  }

  /** Two indices less than a lap apart use different cells. */
  lemma ModDistinct(t: nat, u: nat, l: nat)
    requires l > 0 && t < u < t + l
    ensures t % l != u % l
  {
    if t % l == u % l {
      assert u - t == l * (u / l - t / l);
      if u / l <= t / l {
        MulUp(l, u / l - t / l);
      } else {
        MulGap(l, 0, u / l - t / l);
      }
    }
  }

  lemma MulUp(l: nat, d: int)
    requires d <= 0
    ensures l * d <= 0
  {
  }

  /** Go's %, which keeps the sign of its left operand. */
  function Rem(a: int, l: nat): int
    requires l > 0
  {
    if a >= 0 then a % l else -(-a % l)
  }

  /** ((next-1-i)%l+l)%l is the cell of the i-th newest entry. */
  lemma Cell(t: nat, i: nat, l: nat)
    requires l > 0 && i < t && i < l
    ensures 0 <= (Rem(t % l - 1 - i, l) + l) % l < l && (Rem(t % l - 1 - i, l) + l) % l == (t - 1 - i) % l
  {
    var q, r := t / l, t % l;
    assert t == l * q + r;
    if r >= 1 + i {
      DivideUnique(t - 1 - i, l, q, r - 1 - i);
      DivideUnique(r - 1 - i + l, l, 1, r - 1 - i);
      DivideUnique(r - 1 - i, l, 0, r - 1 - i);
    } else {
      assert 0 < 1 + i - r <= l;
      WrappedCell(t, i, l, q, r);
    }
  }

  lemma WrappedCell(t: nat, i: nat, l: nat, q: nat, r: nat)
    requires l > 0 && t == l * q + r && r < 1 + i <= l && i < t
    ensures (Rem(r - 1 - i, l) + l) % l == (t - 1 - i) % l
  {
    var back := 1 + i - r;
    assert q > 0;
    if back < l {
      DivideUnique(back, l, 0, back);
      assert l * q == l * (q - 1) + l;
      DivideUnique(t - 1 - i, l, q - 1, l - back);
      DivideUnique(l - back, l, 0, l - back);
    } else {
      DivideUnique(back, l, 1, 0);
      assert l * q == l * (q - 1) + l;
      DivideUnique(t - 1 - i, l, q - 1, 0);
      DivideUnique(l, l, 1, 0);
    }
  }

  /** Where the entry with this index in the log goes. */
  function CellOf(t: nat, l: nat): (c: nat)
    requires l > 0
    ensures c < l
  {
    t % l
  }

  function NewestCell(next: nat, i: nat, l: nat): int
    requires l > 0
  {
    (Rem(next - 1 - i, l) + l) % l
  }

  lemma NewestCellIs(t: nat, i: nat, l: nat)
    requires l > 0 && i < t && i < l
    ensures NewestCell(t % l, i, l) == CellOf(t - 1 - i, l)
  {
    Cell(t, i, l);
  }

  // ---- queries ----

  /** Newest first. */
  function Newest(s: seq<Entry>): seq<Entry> { if s == [] then [] else [s[|s| - 1]] + Newest(s[..|s| - 1]) }

  /** The filter's other fields are any test of an entry; `before` pages. */
  predicate Matches(test: Entry -> bool, before: nat, e: Entry) { test(e) && (before == 0 || e.seqNo < before) }

  function Matching(s: seq<Entry>, test: Entry -> bool, before: nat): seq<Entry> {
    if s == [] then []
    else (if Matches(test, before, s[0]) then [s[0]] else []) + Matching(s[1..], test, before)
  }

  function Take(s: seq<Entry>, k: nat): seq<Entry> { if |s| <= k then s else s[..k] }

  const DEFAULT_LIMIT: nat := 200
  const MAX_LIMIT: nat := 1000

  function EffectiveLimit(limit: int): nat {
    if limit <= 0 then DEFAULT_LIMIT else if limit < MAX_LIMIT then limit else MAX_LIMIT
  }

  // ---- the log ----

  /** PacketLog's buf, next and n. */
  class Ring {
    const buf: array<Entry>
    var next: nat
    var n: nat
    ghost var log: seq<Entry>  // everything that ever went through the ring

    /** The ring holds the end of the log, each entry in the cell its index picks. */
    ghost predicate Valid()
      reads this, buf
    {
      var l := buf.Length;
      && l > 0 && next == |log| % l && n == (if |log| < l then |log| else l)
      && (forall t {:trigger CellOf(t, l)} :: |log| - n <= t < |log| ==> buf[CellOf(t, l)] == log[t])
    }

    /** What the ring holds, oldest first. */
    ghost function Held(): seq<Entry>
      reads this
    {
      Last(log, buf.Length)
    }

    constructor (capacity: nat)
      requires capacity > 0
      ensures Valid() && log == [] && buf.Length == capacity && fresh(buf)
    {
      buf := new Entry[capacity](_ => Entry(0, ""));
      next, n, log := 0, 0, [];
    }

    method Push(e: Entry)
      requires Valid()
      modifies this, buf
      ensures Valid() && log == old(log) + [e]
    {
      ghost var t, l := |log|, buf.Length;
      forall u {:trigger CellOf(u, l)} | t - n <= u < t && u > t - l ensures CellOf(u, l) != CellOf(t, l) {
        ModDistinct(u, t, l);
      }
      ModStep(t, l);
      buf[next] := e;
      next := (next + 1) % buf.Length;
      if n < buf.Length {
        n := n + 1;
      }
      log := log + [e];
    }

    /** The i-th newest entry. */
    method At(i: nat) returns (e: Entry)
      requires Valid() && i < n
      ensures e == log[|log| - 1 - i]
    {
      NewestCellIs(|log|, i, buf.Length);
      e := buf[NewestCell(next, i, buf.Length)];
    }

    method OldestFirst() returns (out: seq<Entry>)
      requires Valid()
      ensures out == Held()
    {
      out := [];
      for i := 0 to n
        invariant out == Held()[..i]
      {
        var e := At(n - 1 - i);
        assert e == Held()[i];
        out := out + [e];
      }
    }

    /** Query: newest first, the matching ones up to the limit, and how many there are in all. */
    method Query(test: Entry -> bool, before: nat, limit: int) returns (entries: seq<Entry>, matched: nat)
      requires Valid()
      ensures matched == |Matching(Newest(Held()), test, before)|
      ensures entries == Take(Matching(Newest(Held()), test, before),
                              if limit <= 0 then 200 else if limit < 1000 then limit else 1000)
    {
      var most := EffectiveLimit(limit);
      entries, matched := [], 0;
      ghost var newest := Newest(Held());
      NewestAt(Held());
      for i := 0 to n
        invariant matched == |Matching(newest[..i], test, before)|
        invariant entries == Take(Matching(newest[..i], test, before), most)
      {
        var e := At(i);
        QueryStep(newest, i, e, test, before, most);
        if Matches(test, before, e) {
          matched := matched + 1;
          if |entries| < most {
            entries := entries + [e];
          }
        }
      }
      assert newest[..n] == newest;
    }
  }

  /** spillFile: packets.log, one entry a line. */
  class SpillFile {
    var lines: seq<Entry>

    constructor (onDisk: seq<Entry>)
      ensures lines == onDisk
    {
      lines := onDisk;
    }

    /**
     append: the line first, then, past the limit, the rewrite from the ring. A crash between the two, like a
     rewrite that fails, leaves one line more than the limit.
     */
    method Append(e: Entry, ring: Ring, limit: nat, appends: bool, rewrites: bool) returns (ok: bool)
      requires ring.Valid()
      modifies this
      ensures ok == (appends && (rewrites || |old(lines)| < limit))
      ensures lines == Appended(old(lines), e, ring.Held(), limit, appends, rewrites)
    {
      if !appends {
        return false;
      }
      lines := lines + [e];
      if |lines| > limit {
        if !rewrites {
          return false;
        }
        lines := ring.OldestFirst();
      }
      return true;
    }
  }

  function Appended(lines: seq<Entry>, e: Entry, ring: seq<Entry>, limit: nat, appends: bool,
                    rewrites: bool): seq<Entry> {
    if !appends then lines
    else if |lines| < limit || !rewrites then lines + [e]
    else ring
  }

  /** One life of the core: the file, what went through the ring since the start, the last number, and p.spill. */
  datatype Life = Life(file: seq<Entry>, log: seq<Entry>, seqNo: nat, persisting: bool)

  function Added(l: Life, capacity: nat, packet: string, appends: bool, rewrites: bool): Life {
    var e := Entry(l.seqNo + 1, packet);
    var log := l.log + [e];
    if !l.persisting then l.(log := log, seqNo := l.seqNo + 1)
    else Life(Appended(l.file, e, Last(log, capacity), 2 * capacity, appends, rewrites), log, l.seqNo + 1,
              appends && (rewrites || |l.file| < 2 * capacity))
  }

  /** The next life: the file replayed, and rewritten to what the ring then holds. */
  function Restarted(file: seq<Entry>, capacity: nat): Life { Life(Last(file, capacity), file, Top(file), true) }

  class PacketLog {
    const ring: Ring
    const spill: SpillFile
    var seqNo: nat
    var persisting: bool    // p.spill is set

    ghost predicate Valid()
      reads this, ring, ring.buf, spill
    {
      && ring.Valid() && Numbered(ring.log) && Top(ring.log) <= seqNo
      && (persisting ==> KeptUp(spill.lines, ring.log, ring.buf.Length))
    }

    ghost function View(): Life
      reads this, ring, spill
    {
      Life(spill.lines, ring.log, seqNo, persisting)
    }

    constructor (capacity: int, onDisk: seq<Entry>)
      ensures Valid() && ring.log == [] && seqNo == 0 && !persisting && spill.lines == onDisk
      ensures ring.buf.Length == (if capacity < 1 then 1 else capacity)
      ensures fresh(ring) && fresh(ring.buf) && fresh(spill)
    {
      ring := new Ring(if capacity < 1 then 1 else capacity);
      spill := new SpillFile(onDisk);
      seqNo, persisting := 0, false;
    }

    /** Add: numbered, into the ring, then to the file; after any failure the file is no longer kept up. */
    method Add(packet: string, appends: bool, rewrites: bool)
      requires Valid()
      modifies this, ring, ring.buf, spill
      ensures Valid() && View() == Added(old(View()), ring.buf.Length, packet, appends, rewrites)
      ensures old(persisting) ==> |spill.lines| <= 2 * ring.buf.Length + 1
    {
      NumberedOn(ring.log, Entry(seqNo + 1, packet));
      seqNo := seqNo + 1;
      var e := Entry(seqNo, packet);
      if persisting {
        AppendedKeepsUp(spill.lines, ring.log, e, ring.buf.Length, appends, rewrites);
      }
      ring.Push(e);
      if persisting {
        persisting := spill.Append(e, ring, 2 * ring.buf.Length, appends, rewrites);
      }
    }

    /** Persist, at start: the file is replayed into the ring, rewritten to what the ring holds, and kept up. */
    method Persist()
      requires Valid() && ring.log == [] && seqNo == 0 && !persisting && Numbered(spill.lines)
      modifies this, ring, ring.buf, spill
      ensures Valid() && View() == Restarted(old(spill.lines), ring.buf.Length)
    {
      Replay();
      spill.lines := ring.OldestFirst();
      RingKeepsUp(ring.log, ring.buf.Length);
      persisting := true;
    }

    method Replay()
      requires ring.Valid() && ring.log == [] && seqNo == 0 && Numbered(spill.lines)
      modifies this`seqNo, ring, ring.buf
      ensures ring.Valid() && ring.log == spill.lines && seqNo == Top(spill.lines)
    {
      var lines := spill.lines;
      for i := 0 to |lines|
        invariant ring.Valid() && ring.log == lines[..i] && seqNo == Top(ring.log)
      {
        var e := lines[i];
        NumberedUpTo(lines, i + 1);
        assert lines[..i + 1][..i] == lines[..i] && lines[..i + 1] == lines[..i] + [e];
        if seqNo < e.seqNo {
          seqNo := e.seqNo;
        }
        ring.Push(e);
      }
      assert lines[..|lines|] == lines;
    }

    /** Page after page, each asked for below the last number seen: together exactly the matching entries. */
    method PageThrough(test: Entry -> bool, limit: int) returns (all: seq<Entry>)
      requires Valid()
      ensures all == Matching(Newest(ring.Held()), test, 0)
    {
      ghost var newest := Newest(ring.Held());
      NumberedEnd(ring.log, ring.buf.Length);
      NewestFalls(ring.Held());
      all := [];
      var before := 0;
      var page, matched := ring.Query(test, before, limit);
      while page != []
        invariant all + Matching(newest, test, before) == Matching(newest, test, 0)
        invariant page == Take(Matching(newest, test, before), EffectiveLimit(limit))
        decreases |Matching(newest, test, before)|
      {
        PageStep(newest, test, before, page, all);
        all, before := all + page, page[|page| - 1].seqNo;
        page, matched := ring.Query(test, before, limit);
      }
    }
  }

  /** One more entry looked at. */
  lemma QueryStep(newest: seq<Entry>, i: nat, e: Entry, test: Entry -> bool, before: nat, most: nat)
    requires i < |newest| && newest[i] == e
    ensures var seen, now := Matching(newest[..i], test, before), Matching(newest[..i + 1], test, before);
            if Matches(test, before, e)
            then && |now| == |seen| + 1
                 && Take(now, most) == Take(seen, most) + if |Take(seen, most)| < most then [e] else []
            else now == seen
  {
    assert newest[..i + 1] == newest[..i] + [e];
    MatchingAppend(newest[..i], e, test, before);
    TakeStep(Matching(newest[..i], test, before), e, most);
  }

  lemma {:induction false} MatchingAppend(s: seq<Entry>, e: Entry, test: Entry -> bool, before: nat)
    ensures Matching(s + [e], test, before) == Matching(s, test, before) + if Matches(test, before, e) then [e] else []
  {
    var last := if Matches(test, before, e) then [e] else [];
    if s == [] {
      assert s + [e] == [e] && [e][1..] == [];
    } else {
      var t, first := s + [e], if Matches(test, before, s[0]) then [s[0]] else [];
      assert t[0] == s[0] && t[1..] == s[1..] + [e];
      MatchingAppend(s[1..], e, test, before);
      assert Matching(t, test, before) == first + (Matching(s[1..], test, before) + last);
    }
  }

  lemma TakeStep(found: seq<Entry>, e: Entry, most: nat)
    ensures Take(found + [e], most) == if |Take(found, most)| < most then Take(found, most) + [e] else Take(found, most)
  {
  }

  lemma {:induction false} NewestAt(s: seq<Entry>)
    ensures |Newest(s)| == |s| && forall i :: 0 <= i < |s| ==> Newest(s)[i] == s[|s| - 1 - i]
  {
    if s != [] {
      NewestAt(s[..|s| - 1]);
    }
  }

  /** The file is a stretch of the log that ends where the log ends and holds the ring. */
  predicate Rebuilds(file: seq<Entry>, log: seq<Entry>, capacity: nat) {
    |Last(log, capacity)| <= |file| <= |log| && file == log[|log| - |file|..]
  }

  /** ... and is at most twice as long. */
  predicate KeptUp(file: seq<Entry>, log: seq<Entry>, capacity: nat) {
    Rebuilds(file, log, capacity) && |file| <= 2 * capacity
  }

  lemma AppendRebuilds(file: seq<Entry>, log: seq<Entry>, e: Entry, capacity: nat)
    requires Rebuilds(file, log, capacity)
    ensures Rebuilds(file + [e], log + [e], capacity)
  {
    var k := |log| - |file|;
    assert (log + [e])[k..] == log[k..] + [e];
  }

  lemma RingKeepsUp(log: seq<Entry>, capacity: nat)
    ensures KeptUp(Last(log, capacity), log, capacity)
  {
  }

  lemma AppendedKeepsUp(file: seq<Entry>, log: seq<Entry>, e: Entry, capacity: nat, appends: bool, rewrites: bool)
    requires KeptUp(file, log, capacity)
    ensures var f := Appended(file, e, Last(log + [e], capacity), 2 * capacity, appends, rewrites);
            && |f| <= 2 * capacity + 1
            && (appends && (rewrites || |file| < 2 * capacity) ==> KeptUp(f, log + [e], capacity))
  {
    AppendRebuilds(file, log, e, capacity);
    RingKeepsUp(log + [e], capacity);
  }

  /**
   Replaying the file after a restart, or after a crash between its append and its rewrite, rebuilds the very same
   ring, and numbering goes on where it stopped.
   */
  lemma ReplayRebuildsTheRing(file: seq<Entry>, log: seq<Entry>, capacity: nat)
    requires Rebuilds(file, log, capacity) && capacity > 0
    ensures Last(file, capacity) == Last(log, capacity) && Top(file) == Top(log)
    ensures Numbered(log) ==> Numbered(file)
  {
    TopOfEnd(log, |log| - |file|);
    if Numbered(log) {
      NumberedFrom(log, |log| - |file|);
    }
  }

  /** The end of a log has the log's last entry. */
  lemma TopOfEnd(log: seq<Entry>, k: nat)
    requires k < |log| || log == []
    ensures k <= |log| ==> Top(log[k..]) == Top(log)
  {
    if k < |log| {
      assert log[k..] != [] && log[k..][|log| - k - 1] == log[|log| - 1];
    }
  }

  /** The file of a log that gave up on it: some stretch of the log, whatever came after it missing. */
  predicate PartOf(file: seq<Entry>, log: seq<Entry>) { forall e :: e in file ==> e in log }

  /** Numbers handed out after a restart are new exactly when the file had kept up to the last entry. */
  lemma NumbersGoOnIff(file: seq<Entry>, log: seq<Entry>)
    requires Numbered(log) && PartOf(file, log)
    ensures (forall e :: e in log ==> e.seqNo < Top(file) + 1) <==> Top(file) == Top(log)
  {
    if file != [] {
      var last := file[|file| - 1];
      assert last in file;
      var k :| 0 <= k < |log| && log[k] == last;
      NumberedAt(log, k);
    }
    if log != [] {
      assert log[|log| - 1] in log;
      forall e | e in log ensures e.seqNo <= Top(log) {
        var k :| 0 <= k < |log| && log[k] == e;
        NumberedAt(log, k);
      }
    }
  }

  // ---- paging ----

  predicate Falling(s: seq<Entry>) { forall i, j :: 0 <= i < j < |s| ==> s[i].seqNo > s[j].seqNo }

  lemma {:induction false} MatchingFalls(s: seq<Entry>, test: Entry -> bool, before: nat)
    requires Falling(s)
    ensures Falling(Matching(s, test, before))
    ensures forall e :: e in Matching(s, test, before) <==> e in s && Matches(test, before, e)
  {
    if s != [] {
      var t := s[1..];
      MatchingFalls(t, test, before);
      assert s == [s[0]] + t;
      var m := Matching(t, test, before);
      forall i | 0 <= i < |m| ensures m[i].seqNo < s[0].seqNo {
        assert m[i] in t;
        var k :| 0 <= k < |t| && t[k] == m[i];
        assert s[k + 1] == m[i];
      }
    }
  }

  function Any(): Entry -> bool { (e: Entry) => true }

  /** Filtering with a lower bound is filtering what the higher bound let through. */
  lemma {:induction false} FilterTwice(s: seq<Entry>, test: Entry -> bool, before: nat, cut: nat)
    requires cut > 0 && (before == 0 || cut <= before)
    ensures Matching(s, test, cut) == Matching(Matching(s, test, before), Any(), cut)
  {
    if s != [] {
      FilterTwice(s[1..], test, before, cut);
      var m := Matching(s, test, before);
      if Matches(test, before, s[0]) {
        assert m[0] == s[0] && m[1..] == Matching(s[1..], test, before);
      } else {
        assert m == Matching(s[1..], test, before);
      }
    }
  }

  /** A bound above everything in the list cuts nothing. */
  lemma {:induction false} CutNothing(s: seq<Entry>, cut: nat)
    requires forall i :: 0 <= i < |s| ==> s[i].seqNo < cut
    ensures Matching(s, Any(), cut) == s
  {
    if s != [] {
      CutNothing(s[1..], cut);
    }
  }

  /** In a falling list, what is below the k-th number is what comes after the k-th. */
  lemma {:induction false} CutFalling(m: seq<Entry>, k: nat)
    requires Falling(m) && 0 < k <= |m| && m[k - 1].seqNo > 0
    ensures Matching(m, Any(), m[k - 1].seqNo) == m[k..]
  {
    if k == 1 {
      CutNothing(m[1..], m[0].seqNo);
    } else {
      CutFalling(m[1..], k - 1);
    }
  }

  /** The matches older than the k-th are the rest of the matches. */
  lemma PageAdvances(s: seq<Entry>, test: Entry -> bool, before: nat, k: nat)
    requires Falling(s) && 0 < k <= |Matching(s, test, before)|
    ensures var m := Matching(s, test, before); m[k - 1].seqNo > 0 ==> Matching(s, test, m[k - 1].seqNo) == m[k..]
  {
    var m := Matching(s, test, before);
    if m[k - 1].seqNo > 0 {
      MatchingFalls(s, test, before);
      assert m[k - 1] in m;
      FilterTwice(s, test, before, m[k - 1].seqNo);
      CutFalling(m, k);
    }
  }

  /** What is left after a page, in a ring whose numbers start above zero. */
  lemma NextPage(s: seq<Entry>, test: Entry -> bool, before: nat, k: nat)
    requires Falling(s) && 0 < k <= |Matching(s, test, before)| && forall i :: 0 <= i < |s| ==> s[i].seqNo > 0
    ensures var m := Matching(s, test, before); m[k - 1].seqNo > 0 && Matching(s, test, m[k - 1].seqNo) == m[k..]
  {
    var m := Matching(s, test, before);
    MatchingFalls(s, test, before);
    assert m[k - 1] in m;
    assert m[k - 1] in s;
    PageAdvances(s, test, before, k);
  }

  lemma PageStep(s: seq<Entry>, test: Entry -> bool, before: nat, page: seq<Entry>, all: seq<Entry>)
    requires Falling(s) && forall i :: 0 <= i < |s| ==> s[i].seqNo > 0
    requires 0 < |page| <= |Matching(s, test, before)| && page == Matching(s, test, before)[..|page|]
    ensures var older := Matching(s, test, page[|page| - 1].seqNo);
            && |older| < |Matching(s, test, before)|
            && all + page + older == all + Matching(s, test, before)
  {
    var m := Matching(s, test, before);
    NextPage(s, test, before, |page|);
    assert page[|page| - 1] == m[|page| - 1];
    assert m == page + m[|page|..];
  }

  /** ... which a ring's numbering allows: newest first, the numbers fall. */
  lemma NewestFalls(ring: seq<Entry>)
    requires Numbered(ring)
    ensures Falling(Newest(ring)) && forall i :: 0 <= i < |Newest(ring)| ==> Newest(ring)[i].seqNo > 0
  {
    NewestAt(ring);
    var s := Newest(ring);
    forall i | 0 <= i < |s| ensures s[i].seqNo > 0 {
      NumberedAt(ring, |ring| - 1 - i);
    }
    forall i, j | 0 <= i < j < |s| ensures s[i].seqNo > s[j].seqNo {
      NumberedPair(ring, |ring| - 1 - j, |ring| - 1 - i);
    }
  }

  // ---- over any number of lives ----

  datatype Event = Packet(packet: string, appends: bool, rewrites: bool) | Restart

  /** `all` is every packet ever numbered, in all lives. */
  datatype World = World(life: Life, all: seq<Entry>)

  function Step(w: World, capacity: nat, e: Event): World {
    match e
    case Packet(p, appends, rewrites) =>
      World(Added(w.life, capacity, p, appends, rewrites), w.all + [Entry(w.life.seqNo + 1, p)])
    case Restart => w.(life := Restarted(w.life.file, capacity))
  }

  predicate Run(w: World, capacity: nat, es: seq<Event>, w': World)
    decreases |es|
  {
    if es == [] then w == w' else Run(Step(w, capacity, es[0]), capacity, es[1..], w')
  }

  /** The file still ends with the last packet there was. */
  predicate UpToDate(w: World) { Top(w.life.file) == Top(w.all) }

  /** Every restart of the run finds it so. */
  predicate NeverBehind(w: World, capacity: nat, es: seq<Event>)
    decreases |es|
  {
    es == [] || ((es[0].Restart? ==> UpToDate(w)) && NeverBehind(Step(w, capacity, es[0]), capacity, es[1..]))
  }

  predicate Inv(w: World, capacity: nat) {
    && Numbered(w.all) && w.life.seqNo == Top(w.all) && Top(w.life.file) <= Top(w.all)
    && Rebuilds(w.life.log, w.all, capacity) && |w.life.file| <= 2 * capacity + 1
    && (w.life.persisting ==> KeptUp(w.life.file, w.all, capacity))
    && (UpToDate(w) ==> Rebuilds(w.life.file, w.all, capacity))
  }

  lemma PacketKeeps(w: World, capacity: nat, p: string, appends: bool, rewrites: bool)
    requires Inv(w, capacity) && capacity > 0
    ensures Inv(Step(w, capacity, Packet(p, appends, rewrites)), capacity)
  {
    var e := Entry(w.life.seqNo + 1, p);
    NumberedOn(w.all, e);
    AppendRebuilds(w.life.log, w.all, e, capacity);
    if w.life.persisting {
      SpillKeeps(w, capacity, e, appends, rewrites);
    }
  }

  lemma SpillKeeps(w: World, capacity: nat, e: Entry, appends: bool, rewrites: bool)
    requires Inv(w, capacity) && capacity > 0 && w.life.persisting && e.seqNo == Top(w.all) + 1
    ensures var f := Appended(w.life.file, e, Last(w.life.log + [e], capacity), 2 * capacity, appends, rewrites);
            && |f| <= 2 * capacity + 1 && Top(f) <= e.seqNo
            && (Top(f) == e.seqNo ==> Rebuilds(f, w.all + [e], capacity))
            && (appends && (rewrites || |w.life.file| < 2 * capacity) ==> KeptUp(f, w.all + [e], capacity))
  {
    AppendRebuilds(w.life.log, w.all, e, capacity);
    SameEnd(w.life.log + [e], w.all + [e], capacity);
    AppendedKeepsUp(w.life.file, w.all, e, capacity, appends, rewrites);
    AppendRebuilds(w.life.file, w.all, e, capacity);
    TopOfLast(w.all + [e], capacity);
  }

  lemma SameEnd(file: seq<Entry>, log: seq<Entry>, capacity: nat)
    requires Rebuilds(file, log, capacity)
    ensures Last(file, capacity) == Last(log, capacity)
  {
  }

  lemma TopOfLast(log: seq<Entry>, capacity: nat)
    requires log != [] && capacity > 0
    ensures Top(Last(log, capacity)) == Top(log)
  {
    if capacity < |log| {
      TopOfEnd(log, |log| - capacity);
    }
  }

  lemma RestartKeeps(w: World, capacity: nat)
    requires Inv(w, capacity) && capacity > 0 && UpToDate(w)
    ensures Inv(Step(w, capacity, Restart), capacity)
  {
    SameEnd(w.life.file, w.all, capacity);
    RingKeepsUp(w.all, capacity);
    if w.all != [] {
      TopOfLast(w.all, capacity);
    }
  }

  lemma {:induction false} RunKeeps(w: World, capacity: nat, es: seq<Event>, w': World)
    requires Inv(w, capacity) && capacity > 0 && Run(w, capacity, es, w') && NeverBehind(w, capacity, es)
    ensures Inv(w', capacity)
    decreases |es|
  {
    if es != [] {
      match es[0] {
        case Packet(p, appends, rewrites) => PacketKeeps(w, capacity, p, appends, rewrites);
        case Restart => RestartKeeps(w, capacity);
      }
      RunKeeps(Step(w, capacity, es[0]), capacity, es[1..], w');
    }
  }

  predicate Fresh(w: World) { w.life == Life([], [], 0, true) && w.all == [] }

  /**
   Over every run of packets, failing appends, failing rewrites and restarts, as long as no restart finds the file
   behind: the ring is the end of everything ever logged, and the numbers rise strictly through all lives.
   */
  lemma TheRingIsTheEndOfTheLog(w: World, capacity: nat, es: seq<Event>, w': World)
    requires Fresh(w) && capacity > 0 && Run(w, capacity, es, w') && NeverBehind(w, capacity, es)
    ensures Last(w'.life.log, capacity) == Last(w'.all, capacity) && Numbered(w'.all)
    ensures |w'.life.file| <= 2 * capacity + 1
  {
    RunKeeps(w, capacity, es, w');
    SameEnd(w'.life.log, w'.all, capacity);
  }

  /** ... and a restart that does find it behind gives the next packet a number that was given before. */
  lemma ABehindFileRepeatsNumbers(w: World, capacity: nat, es: seq<Event>, w': World, p: string, appends: bool,
                                  rewrites: bool)
    requires Fresh(w) && capacity > 0 && Run(w, capacity, es, w') && NeverBehind(w, capacity, es)
    ensures Numbered(Step(Step(w', capacity, Restart), capacity, Packet(p, appends, rewrites)).all) <==> UpToDate(w')
  {
    RunKeeps(w, capacity, es, w');
    NextNumber(w', capacity, p, appends, rewrites);
    NumberedOnlyBeyond(w'.all, Entry(Top(w'.life.file) + 1, p));
  }

  lemma NextNumber(w: World, capacity: nat, p: string, appends: bool, rewrites: bool)
    ensures Step(Step(w, capacity, Restart), capacity, Packet(p, appends, rewrites)).all
         == w.all + [Entry(Top(w.life.file) + 1, p)]
  {
  }

  lemma NumberedOnlyBeyond(log: seq<Entry>, e: Entry)
    requires Numbered(log)
    ensures Numbered(log + [e]) <==> Top(log) < e.seqNo
  {
    assert (log + [e])[..|log|] == log;
  }
}
