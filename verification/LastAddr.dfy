/** lastAddr: the highest address of a prefix, found byte by byte. */
module LastAddress {
  import opened Addresses
  import opened Netfilter
  import opened Ranges

  /** b |= 1<<n - 1: the low n bits of a byte set. */
  function OrLow(b: Byte, n: nat): Byte
    requires n <= 8
  {
    LowBits(b, n);
    b - b % Pow2(n) + Pow2(n) - 1
  }

  lemma ByteBits()
    ensures Pow2(8) == 256
  {
    assert Pow2(4) == 16;
    Pow2Splits(4, 4);
  }

  lemma LowBits(b: Byte, n: nat)
    requires n <= 8
    ensures 0 <= b - b % Pow2(n) + Pow2(n) - 1 < 256
  {
    ByteBits();
    Pow2Splits(8 - n, n);
    LowBitsOf(b, Pow2(n), Pow2(8 - n));
  }

  lemma LowBitsOf(b: nat, m: nat, k: nat)
    requires m > 0 && k * m == 256 && b < 256
    ensures 0 <= b - b % m + m - 1 < 256
  {
    ClearLow(b, m);
    NextMultiple(b - b % m, m, k);
  }

  lemma {:induction false} BigEndianSplit(s: seq<Byte>, k: nat)
    requires k <= |s|
    ensures BigEndian(s) == BigEndian(s[..k]) * Pow2(8 * (|s| - k)) + BigEndian(s[k..])
    decreases |s| - k
  {
    if k == |s| {
      assert s[..k] == s && s[k..] == [] && Pow2(0) == 1;
    } else {
      var front, last := s[..|s| - 1], s[|s| - 1];
      BigEndianSplit(front, k);
      assert front[..k] == s[..k] && front[k..] == s[k..][..|s[k..]| - 1];
      var m := |front| - k;
      Pow2Splits(8, 8 * m);
      ByteBits();
      ShiftStep(BigEndian(s[..k]), Pow2(8 * m), BigEndian(front[k..]), last);
    }
  }

  lemma ShiftStep(hi: nat, p: nat, lo: nat, b: nat)
    ensures 256 * (hi * p + lo) + b == hi * (256 * p) + (256 * lo + b)
  {
  }

  /** A multiple of 2^(p+h) shifted right by p is a multiple of 2^h; its last byte of every 2^n with n <= h. */
  lemma LastByteIsClear(upper: nat, x: nat, b: nat, p: nat, h: nat, n: nat, q: nat)
    requires upper == 256 * x + b && n <= h && n <= 8
    requires upper * Pow2(p) == Pow2(p + h) * q
    ensures b % Pow2(n) == 0
  {
    Pow2Splits(p, h);
    Pow2Splits(n, h - n);
    Pow2Splits(n, 8 - n);
    ByteBits();
    ClearOf(upper, x, b, Pow2(p), Pow2(h), Pow2(n), Pow2(h - n), Pow2(8 - n), q);
  }

  lemma ClearOf(upper: nat, x: nat, b: nat, p: nat, h: nat, n: nat, rest: nat, byte: nat, q: nat)
    requires upper == 256 * x + b && upper * p == p * h * q && h == n * rest && 256 == n * byte && p > 0 && n > 0
    ensures b % n == 0
  {
    assert p * h * q == p * (h * q);
    CancelFactor(p, upper, h * q);
    assert h * q == n * (rest * q);
    assert 256 * x == n * (byte * x);
    Divides(n, b, rest * q, byte * x);
  }

  lemma CancelFactor(p: nat, a: nat, b: nat)
    requires p > 0 && a * p == p * b
    ensures a == b
  {
    if a < b {
      MulGap(p, a, b);
    } else if b < a {
      MulGap(p, b, a);
    }
  }

  /** b == m*u - m*v leaves no remainder. */
  lemma Divides(m: nat, b: nat, u: nat, v: nat)
    requires m > 0 && m * u == m * v + b
    ensures b % m == 0
  {
    if u < v {
      MulGap(m, u, v);
    } else {
      assert b == m * (u - v);
      DivideUnique(b, m, u - v, 0);
    }
  }

  /** Bytes i and up are done: `left` of the `host` bits are still to be set, all of them below byte i. */
  ghost predicate Progress(s: seq<Byte>, i: nat, base: nat, host: nat, left: nat) {
    && i <= |s| && left <= host && left <= 8 * i && base % Pow2(host) == 0
    && BigEndian(s) == base + Pow2(host - left) - 1
    && (left > 0 ==>
          && host - left == 8 * (|s| - i)
          && BigEndian(s[..i]) * Pow2(host - left) == base
          && BigEndian(s[i..]) == Pow2(host - left) - 1)
  }

  /** Sets the low `host` bits of a number held as bytes. */
  method SetLow(b: array<Byte>, host: nat)
    requires host <= 8 * b.Length && BigEndian(b[..]) % Pow2(host) == 0
    modifies b
    ensures BigEndian(b[..]) == old(BigEndian(b[..])) + Pow2(host) - 1
  {
    ghost var base := BigEndian(b[..]);
    var left: nat, i: nat := host, b.Length;
    ProgressStart(b[..], host);
    while i > 0 && left > 0
      invariant i <= b.Length && Progress(b[..], i, base, host, left)
    {
      var n := if left < 8 then left else 8;
      ghost var s := b[..];
      b[i - 1] := OrLow(b[i - 1], n);
      assert b[..] == s[i - 1 := OrLow(s[i - 1], n)];
      ProgressStep(s, i, base, host, left, n);
      left, i := left - n, i - 1;
    }
  }

  lemma ProgressStart(s: seq<Byte>, host: nat)
    requires host <= 8 * |s| && BigEndian(s) % Pow2(host) == 0
    ensures Progress(s, |s|, BigEndian(s), host, host)
  {
    assert s[..|s|] == s && s[|s|..] == [] && Pow2(0) == 1;
  }

  lemma ProgressStep(s: seq<Byte>, i: nat, base: nat, host: nat, left: nat, n: nat)
    requires 0 < i && 0 < left && n == (if left < 8 then left else 8) && Progress(s, i, base, host, left)
    ensures Progress(s[i - 1 := OrLow(s[i - 1], n)], i - 1, base, host, left - n)
  {
    StepFacts(s, i, base, host, left, n);
    StepResult(s, i, base, host, left, n);
    if n < left {
      WholeByte(s, i, base, host - left);
    }
  }

  /** Before a step: the byte about to change has its low bits clear. */
  lemma StepFacts(s: seq<Byte>, i: nat, base: nat, host: nat, left: nat, n: nat)
    requires 0 < i <= |s| && 0 < left <= host && n == (if left < 8 then left else 8)
    requires host - left == 8 * (|s| - i) && base % Pow2(host) == 0
    requires BigEndian(s[..i]) * Pow2(host - left) == base
    ensures s[i - 1] % Pow2(n) == 0 && BigEndian(s[..i]) == 256 * BigEndian(s[..i - 1]) + s[i - 1]
  {
    LastByte(s, i);
    Exactly(base, Pow2(host));
    LastByteIsClear(BigEndian(s[..i]), BigEndian(s[..i - 1]), s[i - 1], host - left, left, n, base / Pow2(host));
  }

  lemma LastByte(s: seq<Byte>, i: nat)
    requires 0 < i <= |s|
    ensures BigEndian(s[..i]) == 256 * BigEndian(s[..i - 1]) + s[i - 1]
  {
    assert s[..i][..i - 1] == s[..i - 1];
  }

  lemma Exactly(v: nat, h: nat)
    requires h > 0 && v % h == 0
    ensures v == h * (v / h)
  {
  }

  /** After it: n more low bits are set ... */
  lemma StepResult(s: seq<Byte>, i: nat, base: nat, host: nat, left: nat, n: nat)
    requires 0 < i <= |s| && 0 < left <= host && n == (if left < 8 then left else 8)
    requires host - left == 8 * (|s| - i) && s[i - 1] % Pow2(n) == 0
    requires BigEndian(s[..i]) * Pow2(host - left) == base && BigEndian(s[i..]) == Pow2(host - left) - 1
    requires BigEndian(s[..i]) == 256 * BigEndian(s[..i - 1]) + s[i - 1]
    ensures BigEndian(s[i - 1 := OrLow(s[i - 1], n)]) == base + Pow2(host - left + n) - 1
  {
    var t, p := s[i - 1 := OrLow(s[i - 1], n)], host - left;
    assert t[..i][..i - 1] == s[..i - 1] && t[i..] == s[i..];
    assert BigEndian(t[..i]) == BigEndian(s[..i]) + Pow2(n) - 1;
    BigEndianSplit(t, i);
    Pow2Splits(p, n);
    Grown(BigEndian(s[..i]), Pow2(p), Pow2(n), base);
  }

  /** ... and a whole byte leaves the bytes above it as they were. */
  lemma WholeByte(s: seq<Byte>, i: nat, base: nat, p: nat)
    requires 0 < i <= |s| && p == 8 * (|s| - i) && s[i - 1] % Pow2(8) == 0
    requires BigEndian(s[..i]) * Pow2(p) == base && BigEndian(s[i..]) == Pow2(p) - 1
    requires BigEndian(s[..i]) == 256 * BigEndian(s[..i - 1]) + s[i - 1]
    ensures var t := s[i - 1 := OrLow(s[i - 1], 8)];
            BigEndian(t[..i - 1]) * Pow2(p + 8) == base && BigEndian(t[i - 1..]) == Pow2(p + 8) - 1
  {
    ByteBits();
    var t := s[i - 1 := OrLow(s[i - 1], 8)];
    assert t[..i - 1] == s[..i - 1];
    assert t[i - 1..] == [255] + s[i..];
    LeadingByte(255, s[i..]);
    Pow2Splits(8, p);
    Reassoc(BigEndian(s[..i - 1]), Pow2(p));
  }

  lemma Reassoc(x: nat, p: nat)
    ensures x * (256 * p) == (256 * x) * p
  {
  }

  lemma LeadingByte(b: Byte, rest: seq<Byte>)
    ensures BigEndian([b] + rest) == b * Pow2(8 * |rest|) + BigEndian(rest)
  {
    BigEndianSplit([b] + rest, 1);
    assert ([b] + rest)[..1] == [b] && ([b] + rest)[1..] == rest;
    OneByte(b);
  }

  lemma OneByte(b: Byte)
    ensures BigEndian([b]) == b
  {
    assert [b][..0] == [];
  }

  lemma Grown(u: nat, p: nat, m: nat, base: nat)
    requires u * p == base && m > 0
    ensures (u + m - 1) * p + p - 1 == base + p * m - 1
  {
    assert (u + m - 1) * p == u * p + (m - 1) * p;
    assert (m - 1) * p == m * p - p;
  }

  // ---- an address as sixteen bytes ----

  function Bytes(v: nat, k: nat): (s: seq<Byte>)
    ensures |s| == k
  {
    if k == 0 then [] else Bytes(v / 256, k - 1) + [v % 256]
  }

  lemma {:induction false} BytesRoundTrip(v: nat, k: nat)
    requires v < Pow2(8 * k)
    ensures BigEndian(Bytes(v, k)) == v
  {
    if k > 0 {
      Pow2Splits(8, 8 * (k - 1));
      ByteBits();
      BytesRoundTrip(v / 256, k - 1);
      assert Bytes(v, k)[..k - 1] == Bytes(v / 256, k - 1);
    }
  }

  const MAPPED: nat := 0xffff  // ::ffff:0:0/96

  /** As16: an IPv4 address in its IPv6-mapped form. */
  function As16(a: Addr): nat { if a.fam.V4? then MAPPED * Pow2(32) + a.val else a.val }

  lemma As16Fits(a: Addr)
    requires a.Valid()
    ensures As16(a) < Pow2(128)
  {
    if a.fam.V4? {
      Pow2Splits(16, 32);
      Pow2Splits(8, 8);
      ByteBits();
      Pow2Grows(48, 128);
    }
  }

  lemma MappedStaysClear(v: nat, host: nat)
    requires host <= 32 && v % Pow2(host) == 0
    ensures (MAPPED * Pow2(32) + v) % Pow2(host) == 0
  {
    Pow2Splits(32 - host, host);
    SumOfMultiples(MAPPED, Pow2(32 - host), Pow2(host), v);
  }

  lemma SumOfMultiples(k: nat, r: nat, h: nat, v: nat)
    requires h > 0 && v % h == 0
    ensures (k * (r * h) + v) % h == 0
  {
    assert v == h * (v / h);
    assert k * (r * h) == h * (k * r);
    DivideUnique(k * (r * h) + v, h, k * r + v / h, 0);
  }

  lemma NetworkAsBytes(n: Network)
    ensures BigEndian(Bytes(As16(n.addr), 16)) == As16(n.addr) && As16(n.addr) % Pow2(n.Host()) == 0 && n.Host() <= 128
  {
    As16Fits(n.addr);
    BytesRoundTrip(As16(n.addr), 16);
    As16StaysClear(n);
  }

  lemma As16StaysClear(n: Network)
    ensures As16(n.addr) % Pow2(n.Host()) == 0
  {
    if n.addr.fam.V4? {
      MappedStaysClear(n.addr.val, n.Host());
    }
  }

  /** The last address of a prefix: its network with every host bit set. */
  method LastAddr(p: Prefix) returns (last: Addr)
    requires p.Valid()
    ensures last == Addr(p.addr.fam, SpanOf(p).hi)
  {
    var n := Masked(p);
    var bytes := Bytes(As16(n.addr), 16);
    NetworkAsBytes(n);
    var b := new Byte[16](i requires 0 <= i < |bytes| => bytes[i]);
    assert b[..] == bytes;
    SetLow(b, n.Host());
    // Unmap
    last := Addr(p.addr.fam, if p.addr.fam.V4? then BigEndian(b[..]) - MAPPED * Pow2(32) else BigEndian(b[..]));
  }
}
