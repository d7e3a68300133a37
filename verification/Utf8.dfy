/**
 UTF-8 as section 3 of RFC 3629 defines it, and decoding that ignores what is
 not a character. A `string` is a sequence of Unicode scalar values.
 */
module Utf8 {

  type byte = x: int | 0 <= x < 0x100

  function EncodeChar(c: char): (bs: seq<byte>)
    ensures 1 <= |bs| <= 4
    ensures |bs| == 1 <==> c as int < 0x80
  {
    var n := c as int;
    if n < 0x80 then [n]
    else if n < 0x800 then [0xC0 + n / 0x40, 0x80 + n % 0x40]
    else if n < 0x1_0000 then [0xE0 + n / 0x1000, 0x80 + n / 0x40 % 0x40, 0x80 + n % 0x40]
    else [0xF0 + n / 0x4_0000, 0x80 + n / 0x1000 % 0x40, 0x80 + n / 0x40 % 0x40, 0x80 + n % 0x40]
  }

  function Encode(s: string): (bs: seq<byte>)
    ensures |s| <= |bs| <= 4 * |s|
  {
    if s == [] then [] else EncodeChar(s[0]) + Encode(s[1..])
  }

  function Size(s: string): (n: nat)
    ensures |s| <= n <= 4 * |s|
  {
    |Encode(s)|
  }

  predicate Tail(b: byte) { 0x80 <= b < 0xC0 }

  // The syntax of one character: section 4 of RFC 3629.

  predicate Two(bs: seq<byte>) {
    |bs| >= 2 && 0xC2 <= bs[0] <= 0xDF && Tail(bs[1])
  }

  predicate Three(bs: seq<byte>) {
    && |bs| >= 3 && Tail(bs[1]) && Tail(bs[2])
    && (|| (bs[0] == 0xE0 && 0xA0 <= bs[1])
        || 0xE1 <= bs[0] <= 0xEC
        || (bs[0] == 0xED && bs[1] <= 0x9F)
        || 0xEE <= bs[0] <= 0xEF)
  }

  predicate Four(bs: seq<byte>) {
    && |bs| >= 4 && Tail(bs[1]) && Tail(bs[2]) && Tail(bs[3])
    && (|| (bs[0] == 0xF0 && 0x90 <= bs[1])
        || 0xF1 <= bs[0] <= 0xF3
        || (bs[0] == 0xF4 && bs[1] <= 0x8F))
  }

  /** The length of the character that `bs` starts with, or 0 if it starts with none. */
  function HeadLength(bs: seq<byte>): (n: nat)
    ensures n <= |bs| && n <= 4
  {
    if bs == [] then 0
    else if bs[0] < 0x80 then 1
    else if Two(bs) then 2
    else if Three(bs) then 3
    else if Four(bs) then 4
    else 0
  }

  function HeadChar(bs: seq<byte>): char
    requires HeadLength(bs) > 0
  {
    match HeadLength(bs)
    case 1 => bs[0] as char
    case 2 => (Bits(bs[0], 0xC0) * 0x40 + Bits(bs[1], 0x80)) as char
    case 3 => (Bits(bs[0], 0xE0) * 0x1000 + Bits(bs[1], 0x80) * 0x40 + Bits(bs[2], 0x80)) as char
    case _ =>
      (Bits(bs[0], 0xF0) * 0x4_0000 + Bits(bs[1], 0x80) * 0x1000 + Bits(bs[2], 0x80) * 0x40
       + Bits(bs[3], 0x80)) as char
  }

  /** The payload bits of a byte. */
  function Bits(b: byte, marker: int): int {
    b - marker
  }

  /** Decoding with errors ignored: a byte that starts no character is skipped. */
  function DecodeIgnore(bs: seq<byte>): string
    decreases |bs|
  {
    if bs == [] then []
    else if HeadLength(bs) == 0 then DecodeIgnore(bs[1..])
    else [HeadChar(bs)] + DecodeIgnore(bs[HeadLength(bs)..])
  }

  // Encoding and decoding.

  lemma EncodedHead(c: char, rest: seq<byte>)
    ensures HeadLength(EncodeChar(c) + rest) == |EncodeChar(c)|
    ensures HeadChar(EncodeChar(c) + rest) == c
  {
    var n := c as int;
    var bs := EncodeChar(c) + rest;
    if n < 0x80 {
    } else if n < 0x800 {
      assert Two(bs);
    } else if n < 0x1_0000 {
      ThreeBytes(n);
      assert !Two(bs) && Three(bs);
    } else {
      FourBytes(n);
      assert !Two(bs) && !Three(bs) && Four(bs);
    }
  }

  lemma ThreeBytes(n: int)
    requires 0x800 <= n < 0x1_0000
    ensures n == n / 0x1000 * 0x1000 + n / 0x40 % 0x40 * 0x40 + n % 0x40
    ensures n / 0x1000 == 0 ==> n / 0x40 % 0x40 >= 0x20
    ensures n / 0x1000 == 0xD && n < 0xD800 ==> n / 0x40 % 0x40 <= 0x1F
  {
    assert n / 0x40 / 0x40 == n / 0x1000;
  }

  lemma FourBytes(n: int)
    requires 0x1_0000 <= n < 0x11_0000
    ensures n == n / 0x4_0000 * 0x4_0000 + n / 0x1000 % 0x40 * 0x1000 + n / 0x40 % 0x40 * 0x40 + n % 0x40
    ensures n / 0x4_0000 == 0 ==> n / 0x1000 % 0x40 >= 0x10
    ensures n / 0x4_0000 <= 4 && (n / 0x4_0000 == 4 ==> n / 0x1000 % 0x40 <= 0xF)
  {
    assert n / 0x1000 / 0x40 == n / 0x4_0000;
    assert n / 0x40 / 0x40 == n / 0x1000;
  }

  /** Decoding takes the encoding of one character off the front. */
  lemma DecodeOne(c: char, rest: seq<byte>)
    ensures DecodeIgnore(EncodeChar(c) + rest) == [c] + DecodeIgnore(rest)
  {
    EncodedHead(c, rest);
    hide EncodeChar, HeadLength, HeadChar;
    assert (EncodeChar(c) + rest)[|EncodeChar(c)|..] == rest;
  }

  lemma {:induction false} DecodeEncoded(s: string, rest: seq<byte>)
    ensures DecodeIgnore(Encode(s) + rest) == s + DecodeIgnore(rest)
  {
    hide EncodeChar, DecodeIgnore;
    if s == [] {
      assert Encode(s) + rest == rest;
    } else {
      var more := Encode(s[1..]) + rest;
      assert Encode(s) + rest == EncodeChar(s[0]) + more;
      DecodeOne(s[0], more);
      DecodeEncoded(s[1..], rest);
    }
  }

  /** Decoding undoes encoding. */
  lemma RoundTrip(s: string)
    ensures DecodeIgnore(Encode(s)) == s
  {
    DecodeEncoded(s, []);
    assert Encode(s) + [] == Encode(s) && DecodeIgnore([]) == [];
  }

  lemma EncodeFirst(c: char, s: string)
    ensures Encode([c] + s) == EncodeChar(c) + Encode(s)
  {
    hide EncodeChar;
    assert ([c] + s)[1..] == s;
  }

  lemma {:induction false} EncodeConcat(s: string, t: string)
    ensures Encode(s + t) == Encode(s) + Encode(t)
  {
    if s == [] {
      assert s + t == t;
    } else {
      EncodeConcat(s[1..], t);
      EncodeConcatStep(s[0], s[1..], t);
      assert s == [s[0]] + s[1..];
    }
  }

  lemma EncodeConcatStep(c: char, s: string, t: string)
    requires Encode(s + t) == Encode(s) + Encode(t)
    ensures Encode([c] + s + t) == Encode([c] + s) + Encode(t)
  {
    hide Encode, EncodeChar;
    assert [c] + s + t == [c] + (s + t);
    EncodeFirst(c, s + t);
    EncodeFirst(c, s);
    assert EncodeChar(c) + Encode(s) + Encode(t) == EncodeChar(c) + (Encode(s) + Encode(t));
  }

  // Cutting an encoding at an arbitrary byte.

  lemma TailIgnored(b: byte, rest: seq<byte>)
    requires Tail(b)
    ensures DecodeIgnore([b] + rest) == DecodeIgnore(rest)
  {
    assert ([b] + rest)[0] == b && ([b] + rest)[1..] == rest;
  }

  lemma {:induction false} TailsIgnored(q: seq<byte>, rest: seq<byte>)
    requires forall i :: 0 <= i < |q| ==> Tail(q[i])
    ensures DecodeIgnore(q + rest) == DecodeIgnore(rest)
  {
    hide DecodeIgnore;
    if q == [] {
      assert q + rest == rest;
    } else {
      assert q + rest == [q[0]] + (q[1..] + rest);
      TailIgnored(q[0], q[1..] + rest);
      TailsIgnored(q[1..], rest);
    }
  }

  lemma EncodedTails(c: char)
    ensures forall i :: 1 <= i < |EncodeChar(c)| ==> Tail(EncodeChar(c)[i])
  {
  }

  /** The first bytes of a character, followed by the end or by an ASCII byte, start no character. */
  lemma CutHeadStartsNone(c: char, k: nat, rest: seq<byte>)
    requires 0 < k < |EncodeChar(c)| && (rest == [] || rest[0] < 0x80)
    ensures HeadLength(EncodeChar(c)[..k] + rest) == 0
  {
    var bs := EncodeChar(c)[..k] + rest;
    assert bs[0] == EncodeChar(c)[0] >= 0xC0;
    LeadBytes(c);
    hide EncodeChar;
    assert k < |bs| ==> bs[k] == rest[0];
    assert !Two(bs) && !Three(bs) && !Four(bs);
  }

  /** The first bytes of a character, followed by the end or by an ASCII byte, decode to nothing. */
  lemma CutHeadIgnored(c: char, k: nat, rest: seq<byte>)
    requires k < |EncodeChar(c)| && (rest == [] || rest[0] < 0x80)
    ensures DecodeIgnore(EncodeChar(c)[..k] + rest) == DecodeIgnore(rest)
  {
    hide EncodeChar, HeadLength;
    var p := EncodeChar(c)[..k];
    var bs := p + rest;
    if k == 0 {
      assert bs == rest;
    } else {
      EncodedTails(c);
      CutHeadStartsNone(c, k, rest);
      assert bs[1..] == p[1..] + rest;
      TailsIgnored(p[1..], rest);
    }
  }

  /** The first byte of a character tells its length. */
  lemma LeadBytes(c: char)
    ensures |EncodeChar(c)| == 2 ==> EncodeChar(c)[0] <= 0xDF
    ensures |EncodeChar(c)| == 3 ==> 0xE0 <= EncodeChar(c)[0] <= 0xEF
    ensures |EncodeChar(c)| == 4 ==> 0xF0 <= EncodeChar(c)[0]
  {
  }

  /** How many whole characters the first `n` bytes hold. */
  function WholeChars(s: string, n: nat): (k: nat)
    ensures k <= |s|
    ensures Size(s[..k]) <= n
    ensures k < |s| ==> n < Size(s[..k]) + |EncodeChar(s[k])|
  {
    if s == [] || |EncodeChar(s[0])| > n then
      assert s[..0] == [];
      0
    else
      var k := WholeChars(s[1..], n - |EncodeChar(s[0])|);
      assert s[..k + 1] == [s[0]] + s[1..][..k] && s[..k + 1][1..] == s[1..][..k];
      k + 1
  }

  lemma EncodeSplit(s: string, k: nat)
    requires k <= |s|
    ensures Encode(s) == Encode(s[..k]) + Encode(s[k..])
    ensures k < |s| ==> Encode(s) == Encode(s[..k]) + EncodeChar(s[k]) + Encode(s[k + 1..])
    ensures k < |s| ==> Size(s[..k + 1]) == Size(s[..k]) + |EncodeChar(s[k])|
  {
    assert s == s[..k] + s[k..];
    EncodeConcat(s[..k], s[k..]);
    if k < |s| {
      assert s[k..][1..] == s[k + 1..];
      assert s[..k + 1] == s[..k] + [s[k]];
      EncodeConcat(s[..k], [s[k]]);
      assert Encode([s[k]]) == EncodeChar(s[k]) + Encode([]);
    }
  }

  /** Taking `n` bytes, with an ASCII byte or nothing after them, keeps the whole characters among them. */
  lemma TakeBytes(s: string, n: nat, rest: seq<byte>)
    requires n <= Size(s) && (rest == [] || rest[0] < 0x80)
    ensures DecodeIgnore(Encode(s)[..n] + rest) == s[..WholeChars(s, n)] + DecodeIgnore(rest)
  {
    hide EncodeChar, DecodeIgnore, Encode;
    var k := WholeChars(s, n);
    var front, m := Encode(s[..k]), n - Size(s[..k]);
    EncodeSplit(s, k);
    if k == |s| {
      assert s[..k] == s && Encode(s)[..n] == front;
      DecodeEncoded(s[..k], rest);
    } else {
      assert Encode(s)[..n] == front + EncodeChar(s[k])[..m];
      assert Encode(s)[..n] + rest == front + (EncodeChar(s[k])[..m] + rest);
      DecodeEncoded(s[..k], EncodeChar(s[k])[..m] + rest);
      CutHeadIgnored(s[k], m, rest);
    }
  }

  /** The first character that lies wholly after byte `n`. */
  function FirstAfter(s: string, n: nat): (k: nat)
    ensures k <= |s|
  {
    var k := WholeChars(s, n);
    if k < |s| && Size(s[..k]) < n then k + 1 else k
  }

  /** The bytes from the middle of a character on decode to the characters after it. */
  lemma DropInside(s: string, k: nat, m: nat)
    requires k < |s| && 0 < m < |EncodeChar(s[k])|
    ensures DecodeIgnore(EncodeChar(s[k])[m..] + Encode(s[k + 1..])) == s[k + 1..]
  {
    hide EncodeChar, DecodeIgnore, Encode;
    EncodedTails(s[k]);
    TailsIgnored(EncodeChar(s[k])[m..], Encode(s[k + 1..]));
    RoundTrip(s[k + 1..]);
  }

  lemma FirstAfterBounds(s: string, n: nat)
    requires n <= Size(s)
    ensures n <= Size(s[..FirstAfter(s, n)]) < n + 4
  {
    hide EncodeChar, Encode;
    var k := WholeChars(s, n);
    EncodeSplit(s, k);
    if k == |s| {
      assert s[..k] == s;
    }
  }

  /** Dropping whole characters' bytes keeps the other characters. */
  lemma DropWhole(s: string, k: nat)
    requires k <= |s|
    ensures Size(s[..k]) <= Size(s)
    ensures DecodeIgnore(Encode(s)[Size(s[..k])..]) == s[k..]
  {
    hide EncodeChar, DecodeIgnore, Encode;
    EncodeSplit(s, k);
    assert Encode(s)[|Encode(s[..k])|..] == Encode(s[k..]);
    RoundTrip(s[k..]);
  }

  /** Dropping into the middle of a character loses that character. */
  lemma DropInto(s: string, k: nat, m: nat)
    requires k < |s| && 0 < m < |EncodeChar(s[k])|
    ensures Size(s[..k]) + m <= Size(s)
    ensures DecodeIgnore(Encode(s)[Size(s[..k]) + m..]) == s[k + 1..]
  {
    hide EncodeChar, DecodeIgnore, Encode;
    EncodeSplit(s, k);
    DropPast(Encode(s[..k]), EncodeChar(s[k]), Encode(s[k + 1..]), m);
    DropInside(s, k, m);
  }

  /** Dropping `n` bytes keeps the whole characters after them. */
  lemma DropBytes(s: string, n: nat)
    requires n <= Size(s)
    ensures DecodeIgnore(Encode(s)[n..]) == s[FirstAfter(s, n)..]
  {
    hide EncodeChar, DecodeIgnore, Encode, WholeChars;
    var k := WholeChars(s, n);
    if k == |s| {
      assert s[..k] == s;
      DropWhole(s, k);
    } else if n == Size(s[..k]) {
      DropWhole(s, k);
    } else {
      DropInto(s, k, n - Size(s[..k]));
    }
  }

  lemma DropPast(a: seq<byte>, b: seq<byte>, c: seq<byte>, m: nat)
    requires m <= |b|
    ensures (a + b + c)[|a| + m..] == b[m..] + c
  {
    assert |(a + b + c)[|a| + m..]| == |b[m..] + c|;
    assert forall i :: 0 <= i < |b| - m + |c| ==> (a + b + c)[|a| + m..][i] == (b[m..] + c)[i];
  }
}
