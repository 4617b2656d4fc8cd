/** Global address space in the numbers people know it by. */
module GlobalSpace {
  import opened Addresses
  import opened Models
  import opened Quads
  import opened FeedValidation

  /** First and second octet of an IPv4 address no packet from the internet comes from. */
  predicate Unrouted(a: nat, b: nat) {
    || a == 0 || a == 10 || (a == 100 && 64 <= b < 128) || a == 127 || (a == 169 && b == 254)
    || (a == 172 && 16 <= b < 32) || (a == 192 && b == 168) || 224 <= a < 256
  }

  /** First and second group of an IPv6 address one may come from: 2000::/3 without 2001:db8::/32. */
  predicate Routed6(g: int, h: int) { 0x2000 <= g < 0x4000 && !(g == 0x2001 && h == 0x0db8) }

  predicate Routable(x: Addr) {
    if x.fam.V4? then !Unrouted(x.val / 16777216, x.val / 65536 % 256)
    else Routed6(Top(x, 16), Top(x, 32) % 65536)
  }

  /** The first bits of an address, as a number. */
  function Top(x: Addr, bits: nat): int
    requires bits <= Width(x.fam)
  {
    x.val / Pow2(Width(x.fam) - bits)
  }

  lemma LowListed(v: nat)
    ensures var x := Addr(V4, v);
            && (Leading(V4, 0, 8).Contains(x) <==> v / 16777216 == 0)
            && (Leading(V4, 10, 8).Contains(x) <==> v / 16777216 == 10)
            && (Leading(V4, 100 * 4 + 1, 10).Contains(x) <==> v / 4194304 == 100 * 4 + 1)
            && (Leading(V4, 127, 8).Contains(x) <==> v / 16777216 == 127)
  {
    SmallPowers();
    LargePowers();
    InLeading(V4, 0, 8, v);
    InLeading(V4, 10, 8, v);
    InLeading(V4, 100 * 4 + 1, 10, v);
    InLeading(V4, 127, 8, v);
  }

  lemma HighListed(v: nat)
    ensures var x := Addr(V4, v);
            && (Leading(V4, 169 * 256 + 254, 16).Contains(x) <==> v / 65536 == 169 * 256 + 254)
            && (Leading(V4, 172 * 16 + 1, 12).Contains(x) <==> v / 1048576 == 172 * 16 + 1)
            && (Leading(V4, 192 * 256 + 168, 16).Contains(x) <==> v / 65536 == 192 * 256 + 168)
            && (Leading(V4, 7, 3).Contains(x) <==> v / 536870912 == 7)
  {
    SmallPowers();
    LargePowers();
    InLeading(V4, 169 * 256 + 254, 16, v);
    InLeading(V4, 172 * 16 + 1, 12, v);
    InLeading(V4, 192 * 256 + 168, 16, v);
    InLeading(V4, 7, 3, v);
  }

  lemma TheList()
    ensures var nets := NonGlobalV4();
            && |nets| == 8
            && nets[0] == Leading(V4, 0, 8) && nets[1] == Leading(V4, 10, 8)
            && nets[2] == Leading(V4, 100 * 4 + 1, 10) && nets[3] == Leading(V4, 127, 8)
            && nets[4] == Leading(V4, 169 * 256 + 254, 16) && nets[5] == Leading(V4, 172 * 16 + 1, 12)
            && nets[6] == Leading(V4, 192 * 256 + 168, 16) && nets[7] == Leading(V4, 7, 3)
  {
  }

  lemma UnroutedParts(v: nat)
    ensures Unrouted(v / 16777216, v / 65536 % 256)
            <==> || v / 16777216 == 0 || v / 16777216 == 10 || v / 4194304 == 100 * 4 + 1 || v / 16777216 == 127
                 || v / 65536 == 169 * 256 + 254 || v / 1048576 == 172 * 16 + 1 || v / 65536 == 192 * 256 + 168
                 || v / 536870912 == 7
  {
    QuadOf(v);
    QuadParts(v / 16777216, v / 65536 % 256, v / 256 % 256, v % 256);
  }

  /** The IPv4 list, address by address. */
  lemma RoutableV4(v: nat)
    ensures GlobalAddr(NonGlobalV4(), Addr(V4, v)) <==> Routable(Addr(V4, v))
  {
    UnroutedParts(v);
    TheList();
    LowListed(v);
    HighListed(v);
  }

  lemma Coarser(x: Addr, few: nat, more: nat)
    requires few <= more <= Width(x.fam)
    ensures Top(x, few) == Top(x, more) / Pow2(more - few)
  {
    var w := Width(x.fam);
    Pow2Splits(w - more, more - few);
    DivDiv(x.val, Pow2(w - more), Pow2(more - few));
  }

  lemma TwoGroups(x: Addr)
    requires x.fam.V6?
    ensures Top(x, 16) == Top(x, 32) / 65536 && Top(x, 3) == Top(x, 16) / 8192
  {
    SmallPowers();
    Coarser(x, 16, 32);
    Coarser(x, 3, 16);
  }

  lemma RoutedGroups(t: int)
    ensures Routed6(t / 65536, t % 65536) <==> t / 65536 / 8192 == 1 && t != 0x20010db8
  {
  }

  /** The IPv6 space, address by address. */
  lemma RoutableV6(nets: seq<Network>, x: Addr)
    requires x.fam.V6?
    ensures GlobalAddr(nets, x) <==> Routable(x)
  {
    TwoGroups(x);
    RoutedGroups(Top(x, 32));
    InGlobal(x);
    InDoc(x);
  }

  lemma InGlobal(x: Addr)
    requires x.fam.V6?
    ensures GlobalV6().Contains(x) <==> Top(x, 3) == 1
  {
    assert Pow2(3) == 8;
    InLeading(x.fam, 1, 3, x.val);
  }

  lemma InDoc(x: Addr)
    requires x.fam.V6?
    ensures DocV6().Contains(x) <==> Top(x, 32) == 0x20010db8
  {
    SmallPowers();
    Pow2Splits(16, 16);
    InLeading(x.fam, 0x20010db8, 32, x.val);
  }

  /** What the core takes for global is exactly this. */
  lemma GlobalIsRoutable(x: Addr)
    ensures GlobalAddr(NonGlobalV4(), x) <==> Routable(x)
  {
    if x.fam.V4? {
      RoutableV4(x.val);
    } else {
      RoutableV6(NonGlobalV4(), x);
    }
  }
}
