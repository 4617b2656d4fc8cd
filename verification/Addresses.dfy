/** IP addresses, prefixes and the inclusive ranges they span, already parsed. */
module Addresses {

  datatype Option<+T> = None | Some(value: T)

  datatype Family = V4 | V6

  function Width(f: Family): nat { if f.V4? then 32 else 128 }

  function Pow2(n: nat): (p: nat)
    ensures p > 0
  {
    if n == 0 then 1 else 2 * Pow2(n - 1)
  }

  lemma {:induction false} Pow2Splits(a: nat, b: nat)
    ensures Pow2(a + b) == Pow2(a) * Pow2(b)
  {
    if a > 0 {
      Pow2Splits(a - 1, b);
      assert Pow2(a) * Pow2(b) == 2 * (Pow2(a - 1) * Pow2(b));
    }
  }

  /** An address of one family. `val` is the address read as an unsigned number. */
  datatype Addr = Addr(fam: Family, val: nat) {
    predicate Valid() { val < Pow2(Width(fam)) }

    predicate Is4() { fam.V4? }
  }

  /** A network: every address of the family that shares the first `bits` bits. */
  datatype Prefix = Prefix(addr: Addr, bits: nat) {
    function Host(): nat
      requires bits <= Width(addr.fam)
    {
      Width(addr.fam) - bits
    }

    predicate Valid() { addr.Valid() && bits <= Width(addr.fam) }

    /** What ParseNetwork and Masked return: no bit set below the prefix length. */
    predicate Masked() { Valid() && addr.val % Pow2(Host()) == 0 }

    predicate Contains(a: Addr) {
      && a.fam == addr.fam
      && bits <= Width(addr.fam)
      && a.val / Pow2(Host()) == addr.val / Pow2(Host())
    }
  }

  /** The parser's result type: a prefix whose host bits are zero. */
  type Network = p: Prefix | p.Masked() witness Prefix(Addr(V4, 0), 0)

  lemma {:induction false} MulGap(h: nat, a: nat, b: nat)
    requires a < b
    ensures h * a + h <= h * b
  {
    if b == a + 1 {
    } else {
      MulGap(h, a, b - 1);
      assert h * b == h * (b - 1) + h;
    }
  }

  /** Quotient and remainder are the only ones of their kind. */
  lemma DivideUnique(v: nat, h: nat, q: nat, r: nat)
    requires h > 0 && r < h && v == h * q + r
    ensures v / h == q && v % h == r
  {
    var d, m := v / h, v % h;
    assert v == h * d + m;
    if q < d {
      MulGap(h, q, d);
    }
    if d < q {
      MulGap(h, d, q);
    }
  }

  /** Masking to a prefix and comparing with a masked network is testing membership. */
  lemma MaskedCompare(v: nat, n: nat, p: nat)
    requires p > 0 && n % p == 0
    ensures v - v % p == n <==> v / p == n / p
  {
    assert v == p * (v / p) + v % p;
    assert n == p * (n / p);
    if v - v % p == n {
      DivideUnique(v, p, n / p, v % p);
    }
  }

  /** A network is exactly the span from its own address to the one with every host bit set. */
  lemma NetworkIsASpan(p: Network, v: nat)
    ensures p.Contains(Addr(p.addr.fam, v))
            <==> p.addr.val <= v <= p.addr.val + Pow2(p.Host()) - 1
  {
    SpanOfQuotient(v, p.addr.val, Pow2(p.Host()));
  }

  lemma SpanOfQuotient(v: nat, n: nat, h: nat)
    requires h > 0 && n % h == 0
    ensures v / h == n / h <==> n <= v < n + h
  {
    assert n == h * (n / h);
    assert v == h * (v / h) + v % h;
    if n <= v < n + h {
      DivideUnique(v, h, n / h, v - n);
    }
  }

  /** One line of an operator's list, as the parser reads it. */
  datatype Entry = Comment | Bare(addr: Addr) | Net(net: Network) | Junk {
    predicate Covers(a: Addr) {
      match this
      case Bare(b) => a == b
      case Net(n) => n.Contains(a)
      case Comment => false
      case Junk => false
    }
  }

  /** The network whose first `bits` bits read `lead`. */
  function Leading(f: Family, lead: nat, bits: nat): (net: Network)
    requires bits <= Width(f)
    ensures net.addr.fam == f && net.bits == bits
    ensures net.addr.val / Pow2(net.Host()) == lead % Pow2(bits)
  {
    LeadingFits(lead % Pow2(bits), bits, Width(f) - bits);
    Prefix(Addr(f, lead % Pow2(bits) * Pow2(Width(f) - bits)), bits)
  }

  lemma LeadingFits(k: nat, bits: nat, host: nat)
    requires k < Pow2(bits)
    ensures k * Pow2(host) < Pow2(bits + host)
    ensures k * Pow2(host) % Pow2(host) == 0 && k * Pow2(host) / Pow2(host) == k
  {
    Pow2Splits(bits, host);
    MulGap(Pow2(host), k, Pow2(bits));
    DivideUnique(k * Pow2(host), Pow2(host), k, 0);
  }
}
