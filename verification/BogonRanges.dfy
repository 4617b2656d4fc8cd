/** The networks no packet from the internet can come from: one list for the filter and the reachability check. */
module BogonRanges {
  import opened Addresses
  import opened Models
  import opened Quads

  function Ranges(): (ranges: seq<Entry>)
    ensures |ranges| == 11 && forall i :: 0 <= i < |ranges| ==> ranges[i].Net? && ranges[i].net.addr.fam.V4?
  {
    LowRanges() + HighRanges()
  }

  function LowRanges(): (ranges: seq<Entry>)
    ensures |ranges| == 6 && forall i :: 0 <= i < |ranges| ==> ranges[i].Net? && ranges[i].net.addr.fam.V4?
  {
    [Net(Leading(V4, 0, 8)),                              // 0.0.0.0/8
     Net(Leading(V4, 10, 8)),                             // 10.0.0.0/8
     Net(Leading(V4, 100 * 4 + 1, 10)),                   // 100.64.0.0/10
     Net(Leading(V4, 127, 8)),                            // 127.0.0.0/8
     Net(Leading(V4, 169 * 256 + 254, 16)),               // 169.254.0.0/16
     Net(Leading(V4, 172 * 16 + 1, 12))]                  // 172.16.0.0/12
  }

  function HighRanges(): (ranges: seq<Entry>)
    ensures |ranges| == 5 && forall i :: 0 <= i < |ranges| ==> ranges[i].Net? && ranges[i].net.addr.fam.V4?
  {
    [Net(Leading(V4, 192 * 65536 + 2, 24)),               // 192.0.2.0/24
     Net(Leading(V4, 192 * 256 + 168, 16)),               // 192.168.0.0/16
     Net(Leading(V4, 198 * 65536 + 51 * 256 + 100, 24)),  // 198.51.100.0/24
     Net(Leading(V4, 203 * 65536 + 113, 24)),             // 203.0.113.0/24
     Net(Leading(V4, 15, 4))]                             // 240.0.0.0/4
  }

  lemma NetInLeading(lead: nat, bits: nat, v: nat)
    requires bits <= 32 && lead < Pow2(bits)
    ensures Net(Leading(V4, lead, bits)).Covers(Addr(V4, v)) <==> v / Pow2(32 - bits) == lead
  {
    InLeading(V4, lead, bits, v);
  }

  predicate LowBogon(a: nat, b: nat) {
    a == 0 || a == 10 || (a == 100 && 64 <= b < 128) || a == 127 || (a == 169 && b == 254) || (a == 172 && 16 <= b < 32)
  }

  predicate HighBogon(a: nat, b: nat, c: nat) {
    || (a == 192 && b == 0 && c == 2) || (a == 192 && b == 168) || (a == 198 && b == 51 && c == 100)
    || (a == 203 && b == 0 && c == 113) || a >= 240
  }

  lemma LowRangesAre(a: nat, b: nat, c: nat, d: nat)
    requires Octets(a, b, c, d)
    ensures AnyCovers(LowRanges(), Addr(V4, Quad(a, b, c, d))) <==> LowBogon(a, b)
  {
    var v, rs := Quad(a, b, c, d), LowRanges();
    SmallPowers();
    LargePowers();
    QuadParts(a, b, c, d);
    NetInLeading(0, 8, v);
    NetInLeading(10, 8, v);
    NetInLeading(100 * 4 + 1, 10, v);
    NetInLeading(127, 8, v);
    NetInLeading(169 * 256 + 254, 16, v);
    NetInLeading(172 * 16 + 1, 12, v);
    assert rs[0].Covers(Addr(V4, v)) <==> a == 0;
    assert rs[1].Covers(Addr(V4, v)) <==> a == 10;
    assert rs[2].Covers(Addr(V4, v)) <==> a == 100 && 64 <= b < 128;
    assert rs[3].Covers(Addr(V4, v)) <==> a == 127;
    assert rs[4].Covers(Addr(V4, v)) <==> a == 169 && b == 254;
    assert rs[5].Covers(Addr(V4, v)) <==> a == 172 && 16 <= b < 32;
  }

  lemma HighRangesAre(a: nat, b: nat, c: nat, d: nat)
    requires Octets(a, b, c, d)
    ensures AnyCovers(HighRanges(), Addr(V4, Quad(a, b, c, d))) <==> HighBogon(a, b, c)
  {
    var v, rs := Quad(a, b, c, d), HighRanges();
    SmallPowers();
    LargePowers();
    QuadParts(a, b, c, d);
    NetInLeading(192 * 65536 + 2, 24, v);
    NetInLeading(192 * 256 + 168, 16, v);
    NetInLeading(198 * 65536 + 51 * 256 + 100, 24, v);
    NetInLeading(203 * 65536 + 113, 24, v);
    NetInLeading(15, 4, v);
    assert rs[0].Covers(Addr(V4, v)) <==> a == 192 && b == 0 && c == 2;
    assert rs[1].Covers(Addr(V4, v)) <==> a == 192 && b == 168;
    assert rs[2].Covers(Addr(V4, v)) <==> a == 198 && b == 51 && c == 100;
    assert rs[3].Covers(Addr(V4, v)) <==> a == 203 && b == 0 && c == 113;
    assert rs[4].Covers(Addr(V4, v)) <==> a >= 240;
  }

  /** The whole list, address by address: exactly these quads are bogons. */
  lemma RangesAre(a: nat, b: nat, c: nat, d: nat)
    requires Octets(a, b, c, d)
    ensures AnyCovers(Ranges(), Addr(V4, Quad(a, b, c, d))) <==> LowBogon(a, b) || HighBogon(a, b, c)
  {
    LowRangesAre(a, b, c, d);
    HighRangesAre(a, b, c, d);
    CoversBoth(LowRanges(), HighRanges(), Addr(V4, Quad(a, b, c, d)));
  }
}
