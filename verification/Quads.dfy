/** Addresses as people write them: dotted quads and the first two groups of an IPv6 address. */
module Quads {
  import opened Addresses

  /** The number of a.b.c.d. */
  function Quad(a: nat, b: nat, c: nat, d: nat): nat { ((a * 256 + b) * 256 + c) * 256 + d }

  predicate Octets(a: nat, b: nat, c: nat, d: nat) { a < 256 && b < 256 && c < 256 && d < 256 }

  lemma SmallPowers()
    ensures Pow2(3) == 8 && Pow2(4) == 16 && Pow2(8) == 256 && Pow2(10) == 1024 && Pow2(12) == 4096
    ensures Pow2(13) == 8192 && Pow2(16) == 65536
  {
    assert Pow2(2) == 4 && Pow2(4) == 16;
    Pow2Splits(4, 4);
    Pow2Splits(8, 2);
    Pow2Splits(8, 4);
    Pow2Splits(12, 1);
    Pow2Splits(8, 8);
  }

  lemma LargePowers()
    ensures Pow2(20) == 1048576 && Pow2(22) == 4194304 && Pow2(24) == 16777216 && Pow2(28) == 268435456
    ensures Pow2(29) == 536870912
  {
    SmallPowers();
    Pow2Splits(16, 4);
    Pow2Splits(12, 10);
    Pow2Splits(16, 8);
    Pow2Splits(16, 12);
    Pow2Splits(16, 13);
  }

  /** How an address falls under the prefix lengths the core's lists use. */
  lemma QuadParts(a: nat, b: nat, c: nat, d: nat)
    requires b < 256 && c < 256 && d < 256
    ensures var v := Quad(a, b, c, d);
            && v / 16777216 == a && v / 65536 == a * 256 + b && v / 256 == (a * 256 + b) * 256 + c
            && v / 4194304 == a * 4 + b / 64 && v / 1048576 == a * 16 + b / 16 && v / 268435456 == a / 16
            && v / 536870912 == a / 32
  {
    var v := Quad(a, b, c, d);
    DivideUnique(v, 16777216, a, (b * 256 + c) * 256 + d);
    DivideUnique(v, 65536, a * 256 + b, c * 256 + d);
    DivideUnique(v, 256, (a * 256 + b) * 256 + c, d);
    DivideUnique(v, 4194304, a * 4 + b / 64, ((b % 64) * 256 + c) * 256 + d);
    DivideUnique(v, 1048576, a * 16 + b / 16, ((b % 16) * 256 + c) * 256 + d);
    DivideUnique(v, 268435456, a / 16, (((a % 16) * 256 + b) * 256 + c) * 256 + d);
    DivideUnique(v, 536870912, a / 32, (((a % 32) * 256 + b) * 256 + c) * 256 + d);
  }

  /** Every number is a quad, if the first octet may be anything. */
  lemma QuadOf(v: nat)
    ensures v == Quad(v / 16777216, v / 65536 % 256, v / 256 % 256, v % 256)
  {
    assert v / 65536 == v / 256 / 256 && v / 16777216 == v / 65536 / 256;
  }

  lemma InLeading(f: Family, lead: nat, bits: nat, v: nat)
    requires bits <= Width(f) && lead < Pow2(bits)
    ensures Leading(f, lead, bits).Contains(Addr(f, v)) <==> v / Pow2(Width(f) - bits) == lead
  {
    DivideUnique(lead, Pow2(bits), 0, lead);
  }
}
