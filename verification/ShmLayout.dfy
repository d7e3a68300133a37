/**
 The byte layout of the shared-memory frame ring (xr_ai_hub/_shm.py): packed
 integers, the global header, the slot headers and where the slots lie. Native
 byte order is taken to be little endian.
 */
module ShmLayout {

  type byte = x: int | 0 <= x < 0x100

  // Ranges of a buffer.

  function Get(buf: seq<byte>, at: nat, n: nat): (r: seq<byte>)
    requires at + n <= |buf|
    ensures |r| == n
    ensures forall i :: 0 <= i < n ==> r[i] == buf[at + i]
  {
    buf[at..at + n]
  }

  function Set(buf: seq<byte>, at: nat, bytes: seq<byte>): (r: seq<byte>)
    requires at + |bytes| <= |buf|
    ensures |r| == |buf|
    ensures forall i :: 0 <= i < |buf| ==> r[i] == if at <= i < at + |bytes| then bytes[i - at] else buf[i]
  {
    buf[..at] + bytes + buf[at + |bytes|..]
  }

  lemma GetOfSet(buf: seq<byte>, at: nat, bytes: seq<byte>)
    requires at + |bytes| <= |buf|
    ensures Get(Set(buf, at, bytes), at, |bytes|) == bytes
  {
    hide Get, Set;
  }

  /** Writing one range leaves a disjoint one alone. */
  lemma GetBesideSet(buf: seq<byte>, at: nat, bytes: seq<byte>, from: nat, n: nat)
    requires at + |bytes| <= |buf| && from + n <= |buf| && (from + n <= at || at + |bytes| <= from)
    ensures Get(Set(buf, at, bytes), from, n) == Get(buf, from, n)
  {
    hide Get, Set;
  }

  /** Appending to what a range holds. */
  lemma GetExtended(buf: seq<byte>, from: nat, n: nat, bytes: seq<byte>)
    requires from + n + |bytes| <= |buf|
    ensures Get(Set(buf, from + n, bytes), from, n + |bytes|) == Get(buf, from, n) + bytes
  {
    hide Get, Set;
  }

  // Unsigned integers of a given width.

  function Packed(n: nat, width: nat): (bs: seq<byte>)
    ensures |bs| == width
  {
    if width == 0 then [] else [n % 0x100] + Packed(n / 0x100, width - 1)
  }

  function Value(bs: seq<byte>): nat {
    if bs == [] then 0 else bs[0] + 0x100 * Value(bs[1..])
  }

  predicate Fits(n: nat, width: nat) {
    if width == 0 then n == 0 else Fits(n / 0x100, width - 1)
  }

  lemma {:induction false} ValueOfPacked(n: nat, width: nat)
    requires Fits(n, width)
    ensures Value(Packed(n, width)) == n
  {
    if width > 0 {
      ValueOfPacked(n / 0x100, width - 1);
      assert Packed(n, width)[1..] == Packed(n / 0x100, width - 1);
    }
  }

  lemma FitsStep(n: nat, width: nat)
    requires width > 0 && Fits(n / 0x100, width - 1)
    ensures Fits(n, width)
  {
  }

  lemma FitsFour(n: nat)
    requires n < 0x1_0000_0000
    ensures Fits(n, 4)
  {
    hide Fits;
    var a, b, c := n / 0x100, n / 0x1_0000, n / 0x100_0000;
    assert a / 0x100 == b && b / 0x100 == c && c / 0x100 == 0;
    assert Fits(0, 0) by { FitsNone(); }
    FitsStep(c, 1);
    FitsStep(b, 2);
    FitsStep(a, 3);
    FitsStep(n, 4);
  }

  lemma FitsNone()
    ensures Fits(0, 0)
  {
  }

  lemma FitsEight(n: nat)
    requires n < 0x1_0000_0000_0000_0000
    ensures Fits(n, 8)
  {
    hide Fits;
    var a, b, c, d := n / 0x100, n / 0x1_0000, n / 0x100_0000, n / 0x1_0000_0000;
    assert a / 0x100 == b && b / 0x100 == c && c / 0x100 == d;
    FitsFour(d);
    FitsStep(c, 5);
    FitsStep(b, 6);
    FitsStep(a, 7);
    FitsStep(n, 8);
  }

  const GLOBAL_MAGIC := 0xC0FFEE01
  const SLOT_MAGIC := 0xF4A3E501
  const GLOBAL_SIZE := 24
  const HEADER_SIZE := 64
  const FREE: byte := 0
  const WRITING: byte := 1
  const READY: byte := 2

  // The global header.

  /** The size of a ring: how many slots, and how many bytes a frame may have. */
  datatype Geometry = Geometry(slots: nat, max: nat)

  function Stride(g: Geometry): nat {
    HEADER_SIZE + g.max
  }

  /** The values that the header's fields can hold. */
  predicate Representable(g: Geometry) {
    g.slots < 0x1_0000_0000 && Stride(g) < 0x1_0000_0000_0000_0000
  }

  function PackGlobal(g: Geometry): (bs: seq<byte>)
    ensures |bs| == GLOBAL_SIZE
  {
    Packed(GLOBAL_MAGIC, 4) + Packed(g.slots, 4) + Packed(g.max, 8) + Packed(Stride(g), 8)
  }

  datatype Global = Global(magic: nat, slots: nat, max: nat, stride: nat)

  function UnpackGlobal(bs: seq<byte>): Global
    requires |bs| == GLOBAL_SIZE
  {
    Global(Value(Get(bs, 0, 4)), Value(Get(bs, 4, 4)), Value(Get(bs, 8, 8)), Value(Get(bs, 16, 8)))
  }

  lemma GlobalRoundTrip(g: Geometry)
    requires Representable(g)
    ensures UnpackGlobal(PackGlobal(g)) == Global(GLOBAL_MAGIC, g.slots, g.max, Stride(g))
  {
    hide Packed, Value, Fits;
    var bs := PackGlobal(g);
    assert Get(bs, 0, 4) == Packed(GLOBAL_MAGIC, 4) && Get(bs, 4, 4) == Packed(g.slots, 4);
    assert Get(bs, 8, 8) == Packed(g.max, 8) && Get(bs, 16, 8) == Packed(Stride(g), 8);
    FitsFour(GLOBAL_MAGIC);
    FitsFour(g.slots);
    FitsEight(g.max);
    FitsEight(Stride(g));
    ValueOfPacked(GLOBAL_MAGIC, 4);
    ValueOfPacked(g.slots, 4);
    ValueOfPacked(g.max, 8);
    ValueOfPacked(Stride(g), 8);
  }

  // Slot headers.

  datatype Header = Header(state: byte, fmt: byte, sequence: nat, pts: int, width: nat, height: nat, size: nat)

  predicate InRange(h: Header) {
    && h.sequence < 0x1_0000_0000_0000_0000
    && -0x8000_0000_0000_0000 <= h.pts < 0x8000_0000_0000_0000
    && h.width < 0x1_0000_0000 && h.height < 0x1_0000_0000 && h.size < 0x1_0000_0000
  }

  /** Two's complement in 64 bits. */
  function Unsigned(n: int): nat
    requires -0x8000_0000_0000_0000 <= n < 0x8000_0000_0000_0000
  {
    if n >= 0 then n else n + 0x1_0000_0000_0000_0000
  }

  function Signed(n: nat): int {
    if n < 0x8000_0000_0000_0000 then n else n - 0x1_0000_0000_0000_0000
  }

  function PackHeader(h: Header): (bs: seq<byte>)
    requires InRange(h)
    ensures |bs| == HEADER_SIZE
  {
    Packed(SLOT_MAGIC, 4) + [h.state, h.fmt] + Packed(0, 2) + Packed(h.sequence, 8) + Packed(Unsigned(h.pts), 8)
    + Packed(h.width, 4) + Packed(h.height, 4) + Packed(h.size, 4) + Packed(0, 28)
  }

  function MagicOf(bs: seq<byte>): nat
    requires |bs| == HEADER_SIZE
  {
    Value(Get(bs, 0, 4))
  }

  function UnpackHeader(bs: seq<byte>): Header
    requires |bs| == HEADER_SIZE
  {
    Header(bs[4], bs[5], Value(Get(bs, 8, 8)), Signed(Value(Get(bs, 16, 8))), Value(Get(bs, 24, 4)),
           Value(Get(bs, 28, 4)), Value(Get(bs, 32, 4)))
  }

  lemma HeaderFields(h: Header)
    requires InRange(h)
    ensures var bs := PackHeader(h);
      && Get(bs, 0, 4) == Packed(SLOT_MAGIC, 4) && bs[4] == h.state && bs[5] == h.fmt
      && Get(bs, 8, 8) == Packed(h.sequence, 8) && Get(bs, 16, 8) == Packed(Unsigned(h.pts), 8)
      && Get(bs, 24, 4) == Packed(h.width, 4) && Get(bs, 28, 4) == Packed(h.height, 4)
      && Get(bs, 32, 4) == Packed(h.size, 4)
  {
    hide Packed;
  }

  lemma HeaderRoundTrip(h: Header)
    requires InRange(h)
    ensures MagicOf(PackHeader(h)) == SLOT_MAGIC && UnpackHeader(PackHeader(h)) == h
    ensures PackHeader(h)[4] == h.state
  {
    HeaderFields(h);
    hide Packed, Value, Fits, PackHeader, Get;
    FitsFour(SLOT_MAGIC);
    FitsEight(h.sequence);
    FitsEight(Unsigned(h.pts));
    FitsFour(h.width);
    FitsFour(h.height);
    FitsFour(h.size);
    ValueOfPacked(SLOT_MAGIC, 4);
    ValueOfPacked(h.sequence, 8);
    ValueOfPacked(Unsigned(h.pts), 8);
    ValueOfPacked(h.width, 4);
    ValueOfPacked(h.height, 4);
    ValueOfPacked(h.size, 4);
  }

  lemma ValueOfFour(bs: seq<byte>)
    requires |bs| == 4
    ensures Value(bs) < 0x1_0000_0000
  {
    assert |bs[1..][1..]| == 2 && |bs[1..][1..][1..]| == 1 && bs[1..][1..][1..][1..] == [];
    assert Value(bs[1..][1..][1..]) < 0x100;
    assert Value(bs[1..][1..]) < 0x1_0000;
    assert Value(bs[1..]) < 0x100_0000;
  }

  lemma {:induction false} ValueConcat(a: seq<byte>, b: seq<byte>)
    requires |a| == 4
    ensures Value(a + b) == Value(a) + 0x1_0000_0000 * Value(b)
  {
    var bs := a + b;
    assert bs[1..] == a[1..] + b && bs[1..][1..] == a[2..] + b;
    assert bs[1..][1..][1..] == a[3..] + b && bs[1..][1..][1..][1..] == b;
    assert a[1..][1..] == a[2..] && a[2..][1..] == a[3..] && a[3..][1..] == [];
    assert Value(a[3..] + b) == a[3] + 0x100 * Value(b);
    assert Value(a[2..] + b) == a[2] + 0x100 * Value(a[3..] + b);
    assert Value(a[1..] + b) == a[1] + 0x100 * Value(a[2..] + b);
    assert Value(a[3..]) == a[3];
    assert Value(a[2..]) == a[2] + 0x100 * Value(a[3..]);
    assert Value(a[1..]) == a[1] + 0x100 * Value(a[2..]);
  }

  lemma ValueOfEight(bs: seq<byte>)
    requires |bs| == 8
    ensures Value(bs) < 0x1_0000_0000_0000_0000
  {
    assert bs == bs[..4] + bs[4..];
    ValueConcat(bs[..4], bs[4..]);
    ValueOfFour(bs[..4]);
    ValueOfFour(bs[4..]);
  }

  /** Whatever bytes a header has, its fields are in range. */
  lemma UnpackedInRange(bs: seq<byte>)
    requires |bs| == HEADER_SIZE
    ensures InRange(UnpackHeader(bs))
  {
    hide Value, Get;
    ValueOfEight(Get(bs, 8, 8));
    ValueOfEight(Get(bs, 16, 8));
    ValueOfFour(Get(bs, 24, 4));
    ValueOfFour(Get(bs, 28, 4));
    ValueOfFour(Get(bs, 32, 4));
  }

  // Where the slots lie.

  function HeaderAt(g: Geometry, i: nat): nat {
    GLOBAL_SIZE + i * Stride(g)
  }

  function DataAt(g: Geometry, i: nat): nat {
    HeaderAt(g, i) + HEADER_SIZE
  }

  function TotalSize(g: Geometry): nat {
    GLOBAL_SIZE + g.slots * Stride(g)
  }

  /** A slot lies inside the buffer behind the global header, and different slots do not overlap. */
  lemma SlotsAreDisjoint(g: Geometry, i: nat, j: nat)
    requires i < g.slots && j < g.slots
    ensures GLOBAL_SIZE <= HeaderAt(g, i) && DataAt(g, i) + g.max <= TotalSize(g)
    ensures i < j ==> DataAt(g, i) + g.max <= HeaderAt(g, j)
    ensures j < i ==> DataAt(g, j) + g.max <= HeaderAt(g, i)
  {
    Multiples(i, g.slots, Stride(g));
    if i < j { Multiples(i, j, Stride(g)); }
    if j < i { Multiples(j, i, Stride(g)); }
  }

  lemma Multiples(i: nat, j: nat, n: nat)
    requires i < j
    ensures i * n + n <= j * n
  {
    assert (j - i - 1) * n >= 0;
    assert j * n == i * n + n + (j - i - 1) * n;
  }
}
