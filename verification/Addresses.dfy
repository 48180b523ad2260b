/**
 * The private-address check: dotted quads and masks for IPv4, zero compression and embedded quads for
 * IPv6. It is only reached with text that `net.isIP` accepts; of that, scoped text such as `fe80::1%eth0`
 * is not modelled.
 */
module Addresses {
  import opened Text

  type Octet = n: nat | n < 256

  datatype Quad = Quad(a: Octet, b: Octet, c: Octet, d: Octet)

  // ---------------------------------------------------------------- IPv4

  function Fold256(parts: seq<string>, acc: nat): nat {
    if parts == [] then acc else Fold256(parts[1..], acc * 256 + Value(parts[0], 10))
  }

  function Ipv4ToInt(ip: string): nat {
    Fold256(Split(ip, '.'), 0)
  }

  function DottedText(a: nat, b: nat, c: nat, d: nat): string {
    Join([Numeral(a, 10), Numeral(b, 10), Numeral(c, 10), Numeral(d, 10)], '.')
  }

  function QuadText(q: Quad): string {
    DottedText(q.a, q.b, q.c, q.d)
  }

  function QuadValue(q: Quad): nat {
    ((q.a * 256 + q.b) * 256 + q.c) * 256 + q.d
  }

  function Mask(bits: nat): nat
    requires bits <= 32
  {
    if bits == 0 then 0 else ShiftLeft32(0xffff_ffff, 32 - bits)
  }

  predicate InRange(ip: nat, base: nat, bits: nat)
    requires bits <= 32
  {
    BitAnd(ip, Mask(bits)) == BitAnd(base, Mask(bits))
  }

  type Prefix = n: nat | n <= 32

  datatype Block = Block(base: Quad, bits: Prefix)

  const PRIVATE_V4 := [
    Block(Quad(0, 0, 0, 0), 8), Block(Quad(10, 0, 0, 0), 8), Block(Quad(100, 64, 0, 0), 10),
    Block(Quad(127, 0, 0, 0), 8),
    Block(Quad(169, 254, 0, 0), 16), Block(Quad(172, 16, 0, 0), 12), Block(Quad(192, 0, 0, 0), 24),
    Block(Quad(192, 168, 0, 0), 16), Block(Quad(198, 18, 0, 0), 15), Block(Quad(224, 0, 0, 0), 4),
      Block(Quad(240, 0, 0, 0), 4)]

  predicate Inside(ip: nat, b: Block) {
    InRange(ip, Ipv4ToInt(QuadText(b.base)), b.bits)
  }

  predicate IsPrivateV4(ip: string) {
    exists b :: b in PRIVATE_V4 && Inside(Ipv4ToInt(ip), b)
  }

  lemma {:induction false} DecimalFree(n: nat)
    ensures Numeral(n, 10) != "" && '.' !in Numeral(n, 10) && ':' !in Numeral(n, 10) && Digits(Numeral(n, 10), 10)
    ensures Value(Numeral(n, 10), 10) == n
  {
    NumeralDigits(n, 10);
    ValueOfNumeral(n, 10);
    assert DigitValue('.') == 16 && DigitValue(':') == 16;
  }

  /** A dotted quad is read back as the number of its four octets. */
  lemma QuadRoundTrip(q: Quad)
    ensures Split(QuadText(q), '.') == [Numeral(q.a, 10), Numeral(q.b, 10), Numeral(q.c, 10), Numeral(q.d, 10)]
    ensures Ipv4ToInt(QuadText(q)) == QuadValue(q)
  {
    DecimalFree(q.a);
    DecimalFree(q.b);
    DecimalFree(q.c);
    DecimalFree(q.d);
    var parts := [Numeral(q.a, 10), Numeral(q.b, 10), Numeral(q.c, 10), Numeral(q.d, 10)];
    SplitJoin(parts, '.');
    FoldFour(parts[0], parts[1], parts[2], parts[3]);
  }

  lemma {:induction false} FoldFirst(part: string, rest: seq<string>, acc: nat)
    ensures Fold256([part] + rest, acc) == Fold256(rest, acc * 256 + Value(part, 10))
  {
    assert ([part] + rest)[1..] == rest;
  }

  lemma FoldFour(a: string, b: string, c: string, d: string)
    ensures Fold256([a, b, c, d], 0)
            == ((Value(a, 10) * 256 + Value(b, 10)) * 256 + Value(c, 10)) * 256 + Value(d, 10)
  {
    var va := Value(a, 10);
    var vb := va * 256 + Value(b, 10);
    assert [a, b, c, d] == [a] + [b, c, d] && [b, c, d] == [b] + [c, d] && [c, d] == [c] + [d];
    FoldFirst(a, [b, c, d], 0);
    FoldFirst(b, [c, d], va);
    FoldFirst(c, [d], vb);
  }

  lemma Powers()
    ensures Pow2(8) == 0x100 && Pow2(16) == 0x1_0000 && Pow2(17) == 0x2_0000 && Pow2(20) == 0x10_0000
    ensures Pow2(22) == 0x40_0000 && Pow2(24) == 0x100_0000 && Pow2(28) == 0x1000_0000 && Pow2(32) == 0x1_0000_0000
  {
    assert Pow2(8) == 0x100;
    assert Pow2(16) == 0x1_0000;
    assert Pow2(20) == 0x10_0000;
    assert Pow2(24) == 0x100_0000;
    assert Pow2(28) == 0x1000_0000;
  }

  lemma {:induction false} MaskBits(bits: nat)
    requires bits <= 32
    ensures Pow2(32 - bits) <= Pow2(32) == 0x1_0000_0000 && Mask(bits) == Pow2(32) - Pow2(32 - bits)
  {
    var size := Pow2(32 - bits);
    Powers();
    Pow2Monotone(32 - bits, 32);
    if bits > 0 {
      assert 0xffff_ffff * size == (size - 1) * 0x1_0000_0000 + (0x1_0000_0000 - size);
      DivModUnique(0xffff_ffff * size, 0x1_0000_0000, size - 1, 0x1_0000_0000 - size);
    }
  }

  /** First address of the block of this size that holds an address. */
  function BlockStart(ip: nat, size: nat): nat
    requires 1 <= size
  {
    ip - ip % size
  }

  /** Clearing the low bits of a word goes to the start of its block. */
  lemma {:induction false} HighPart(x: nat, n: nat, k: nat)
    requires k <= n && x < Pow2(n)
    ensures Pow2(k) <= Pow2(n) && BitAnd(x, Pow2(n) - Pow2(k)) == BlockStart(x, Pow2(k))
  {
    HighBits(x, n, k);
    ClearMeans(x, k);
  }

  lemma {:induction false} MaskClears(x: nat, bits: nat)
    requires bits <= 32 && x < 0x1_0000_0000
    ensures BitAnd(x, Mask(bits)) == BlockStart(x, Pow2(32 - bits))
  {
    MaskBits(bits);
    HighPart(x, 32, 32 - bits);
  }

  lemma SameStart(ip: nat, base: nat, size: nat)
    requires 1 <= size
    ensures BlockStart(ip, size) == BlockStart(base, size) <==>
            BlockStart(base, size) <= ip < BlockStart(base, size) + size
  {
    var start := BlockStart(base, size);
    assert start == (base / size) * size;
    if start <= ip < start + size {
      DivModUnique(ip, size, base / size, ip - start);
    }
  }

  /** For every prefix length, the mask test is membership in the block of addresses sharing the prefix. */
  lemma {:induction false} MaskTestIsInterval(ip: nat, base: nat, bits: nat)
    requires bits <= 32 && ip < 0x1_0000_0000 && base < 0x1_0000_0000
    ensures var size := Pow2(32 - bits);
            InRange(ip, base, bits) <==> BlockStart(base, size) <= ip < BlockStart(base, size) + size
  {
    MaskClears(ip, bits);
    MaskClears(base, bits);
    SameStart(ip, base, Pow2(32 - bits));
  }

  /** Between the first and the last address of the block. */
  predicate Within(q: Quad, b: Block) {
    var size := Pow2(32 - b.bits);
    BlockStart(QuadValue(b.base), size) <= QuadValue(q) < BlockStart(QuadValue(b.base), size) + size
  }

  lemma InsideIsWithin(q: Quad, b: Block)
    ensures Inside(QuadValue(q), b) <==> Within(q, b)
  {
    QuadRoundTrip(b.base);
    MaskTestIsInterval(QuadValue(q), QuadValue(b.base), b.bits);
  }

  /** An IPv4 address is private exactly when it lies in one of the listed blocks. */
  lemma PrivateV4IsMembership(q: Quad)
    ensures IsPrivateV4(QuadText(q)) <==> exists b :: b in PRIVATE_V4 && Within(q, b)
  {
    QuadRoundTrip(q);
    forall b: Block
      ensures Inside(QuadValue(q), b) <==> Within(q, b)
    {
      InsideIsWithin(q, b);
    }
  }

  // ---------------------------------------------------------------- the blocks by their octets

  /** What a prefix fixes: whole octets, and the leading bits of the next. */
  predicate Octets(q: Quad, b: Block) {
    if b.bits == 4 then q.a / 16 == b.base.a / 16
    else if b.bits == 8 then q.a == b.base.a
    else if b.bits == 10 then q.a == b.base.a && q.b / 64 == b.base.b / 64
    else if b.bits == 12 then q.a == b.base.a && q.b / 16 == b.base.b / 16
    else if b.bits == 15 then q.a == b.base.a && q.b / 2 == b.base.b / 2
    else if b.bits == 16 then q.a == b.base.a && q.b == b.base.b
    else q.a == b.base.a && q.b == b.base.b && q.c == b.base.c
  }

  /** The base address has no bits beyond its prefix. */
  predicate Aligned(b: Block) {
    && b.base.d == 0 && (b.bits < 24 ==> b.base.c == 0) && (b.bits < 15 ==> b.base.b % 16 == 0)
    && (b.bits < 12 ==> b.base.b % 64 == 0)
    && (b.bits < 10 ==> b.base.b == 0) && (b.bits == 15 ==> b.base.b % 2 == 0) && (b.bits == 4 ==> b.base.a % 16 == 0)
  }

  lemma Between(high: int, low: int, baseHigh: int, size: int)
    requires 0 <= low < size
    ensures baseHigh * size <= high * size + low < baseHigh * size + size <==> high == baseHigh
  {
    var d := high - baseHigh;
    assert high * size == baseHigh * size + d * size;
    SignOfProduct(d, size);
  }

  /** The block of a prefix is told by the bits above it. */
  lemma WithinByHigh(q: Quad, b: Block, size: nat, high: nat, low: nat, baseHigh: nat)
    requires size == Pow2(32 - b.bits) && low < size
    requires QuadValue(q) == high * size + low && QuadValue(b.base) == baseHigh * size
    ensures Within(q, b) <==> high == baseHigh
  {
    DivModUnique(QuadValue(b.base), size, baseHigh, 0);
    Between(high, low, baseHigh, size);
  }

  lemma Prefix4(q: Quad, b: Block)
    requires Aligned(b) && b.bits == 4
    ensures Within(q, b) <==> Octets(q, b)
  {
    Powers();
    var high, low, base := q.a / 16, q.a % 16, b.base.a / 16;
    assert q.a == high * 16 + low && 0 <= low < 16 && b.base.a == base * 16;
    WithinByHigh(q, b, 0x1000_0000, high, ((low * 256 + q.b) * 256 + q.c) * 256 + q.d, base);
  }

  lemma Prefix8(q: Quad, b: Block)
    requires Aligned(b) && b.bits == 8
    ensures Within(q, b) <==> Octets(q, b)
  {
    Powers();
    WithinByHigh(q, b, 0x100_0000, q.a, (q.b * 256 + q.c) * 256 + q.d, b.base.a);
  }

  lemma Prefix10(q: Quad, b: Block)
    requires Aligned(b) && b.bits == 10
    ensures Within(q, b) <==> Octets(q, b)
  {
    Powers();
    var high, low, base := q.b / 64, q.b % 64, b.base.b / 64;
    assert q.b == high * 64 + low && 0 <= low < 64 && b.base.b == base * 64;
    WithinByHigh(q, b, 0x40_0000, q.a * 4 + high, (low * 256 + q.c) * 256 + q.d, b.base.a * 4 + base);
  }

  lemma Prefix12(q: Quad, b: Block)
    requires Aligned(b) && b.bits == 12
    ensures Within(q, b) <==> Octets(q, b)
  {
    Powers();
    var high, low, base := q.b / 16, q.b % 16, b.base.b / 16;
    assert q.b == high * 16 + low && 0 <= low < 16 && b.base.b == base * 16;
    WithinByHigh(q, b, 0x10_0000, q.a * 16 + high, (low * 256 + q.c) * 256 + q.d, b.base.a * 16 + base);
  }

  lemma Prefix15(q: Quad, b: Block)
    requires Aligned(b) && b.bits == 15
    ensures Within(q, b) <==> Octets(q, b)
  {
    Powers();
    var high, low, base := q.b / 2, q.b % 2, b.base.b / 2;
    assert q.b == high * 2 + low && 0 <= low < 2 && b.base.b == base * 2;
    WithinByHigh(q, b, 0x2_0000, q.a * 128 + high, (low * 256 + q.c) * 256 + q.d, b.base.a * 128 + base);
  }

  lemma Prefix16(q: Quad, b: Block)
    requires Aligned(b) && b.bits == 16
    ensures Within(q, b) <==> Octets(q, b)
  {
    Powers();
    WithinByHigh(q, b, 0x1_0000, q.a * 256 + q.b, q.c * 256 + q.d, b.base.a * 256 + b.base.b);
  }

  lemma Prefix24(q: Quad, b: Block)
    requires Aligned(b) && b.bits == 24
    ensures Within(q, b) <==> Octets(q, b)
  {
    Powers();
    WithinByHigh(q, b, 0x100, (q.a * 256 + q.b) * 256 + q.c, q.d, (b.base.a * 256 + b.base.b) * 256 + b.base.c);
  }

  lemma WithinIsOctets(q: Quad, b: Block)
    requires b in PRIVATE_V4
    ensures Within(q, b) <==> Octets(q, b)
  {
    assert Aligned(b) && b.bits in {4, 8, 10, 12, 15, 16, 24};
    match b.bits
    case 4 => Prefix4(q, b);
    case 8 => Prefix8(q, b);
    case 10 => Prefix10(q, b);
    case 12 => Prefix12(q, b);
    case 15 => Prefix15(q, b);
    case 16 => Prefix16(q, b);
    case _ => Prefix24(q, b);
  }

  predicate Listed(q: Quad) {
    || q.a in {0, 10, 127}
    || (q.a == 100 && 64 <= q.b < 128)
    || (q.a == 169 && q.b == 254)
    || (q.a == 172 && 16 <= q.b < 32)
    || (q.a == 192 && q.b == 0 && q.c == 0)
    || (q.a == 192 && q.b == 168)
    || (q.a == 198 && 18 <= q.b < 20)
    || 224 <= q.a
  }

  lemma OctetsAreListed(q: Quad)
    ensures (exists b :: b in PRIVATE_V4 && Octets(q, b)) <==> Listed(q)
  {
    var hit :=
      if q.a == 0 then 0 else if q.a == 10 then 1 else if q.a == 100 then 2 else if q.a == 127 then 3
      else if q.a == 169 then 4 else if q.a == 172 then 5 else if q.a == 192 then (if q.b == 0 then 6 else 7)
      else if q.a == 198 then 8 else if q.a < 240 then 9 else 10;
    if Listed(q) {
      assert PRIVATE_V4[hit] in PRIVATE_V4 && Octets(q, PRIVATE_V4[hit]);
    }
  }

  /** The private addresses, spelled out. */
  lemma PrivateV4IsListed(q: Quad)
    ensures IsPrivateV4(QuadText(q)) <==> Listed(q)
  {
    PrivateV4IsMembership(q);
    OctetsAreListed(q);
    forall b | b in PRIVATE_V4
      ensures Within(q, b) <==> Octets(q, b)
    {
      WithinIsOctets(q, b);
    }
  }
}
