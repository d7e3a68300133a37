/**
 Clipping text to a byte limit and bounding a summary, as
 xr_ai_conversation/_context.py does it. A `string` is a sequence of Unicode
 scalar values, and sizes are those of its UTF-8 encoding.
 */
module Clipping {
  import opened Utf8

  predicate Ascii(s: string) {
    forall i :: 0 <= i < |s| ==> s[i] as int < 0x80
  }

  lemma {:induction false} AsciiSize(s: string)
    requires Ascii(s)
    ensures Size(s) == |s|
  {
    if s != [] {
      assert Ascii(s[1..]);
      AsciiSize(s[1..]);
    }
  }

  lemma SizeConcat(s: string, t: string)
    ensures Size(s + t) == Size(s) + Size(t)
  {
    EncodeConcat(s, t);
  }

  function Decimal(n: nat): (s: string)
    ensures |s| >= 1 && Ascii(s)
  {
    if n < 10 then [Digit(n)] else Decimal(n / 10) + [Digit(n % 10)]
  }

  function Digit(d: nat): (c: char)
    requires d < 10
    ensures (c as int) < 0x80
  {
    ('0' as int + d) as char
  }

  /** The text that stands for `n` omitted bytes. */
  function Marker(n: nat): (s: string)
    ensures Ascii(s) && s != "" && s[0] == '\n'
  {
    "\n[... " + Decimal(n) + " bytes omitted ...]\n"
  }

  /** The bytes that a clipped text has for its own content. */
  function Room(text: string, limit: nat): int
    requires Size(text) > limit
  {
    limit - Size(Marker(Size(text) - limit))
  }

  /** Keep the start and end of `text` within `limit` bytes, marking the omission. */
  function Clip(text: string, limit: nat): string {
    var data := Encode(text);
    if |data| <= limit then text
    else if Room(text, limit) <= 0 then DecodeIgnore(data[..limit])
    else
      var room := Room(text, limit);
      var head := room / 2;
      DecodeIgnore(data[..head] + Encode(Marker(|data| - limit)) + data[|data| - (room - head)..])
  }

  // What is kept.

  /** The first bytes of a text decode to the whole characters among them. */
  lemma ClippedPrefix(text: string, limit: nat)
    requires Size(text) > limit && Room(text, limit) <= 0
    ensures Clip(text, limit) == text[..WholeChars(text, limit)]
  {
    hide EncodeChar, Encode;
    TakeBytes(text, limit, []);
    hide DecodeIgnore, Room;
    assert Encode(text)[..limit] + [] == Encode(text)[..limit];
    EmptyDecodes();
  }

  lemma EmptyDecodes()
    ensures DecodeIgnore([]) == ""
  {
  }

  /** The marker encodes to bytes that start with an ASCII byte. */
  lemma MarkerBytes(n: nat, rest: seq<byte>)
    ensures Encode(Marker(n)) + rest != [] && (Encode(Marker(n)) + rest)[0] < 0x80
  {
    var m := Marker(n);
    hide Marker;
    assert Encode(m) == EncodeChar(m[0]) + Encode(m[1..]);
  }

  lemma TakeMarkerDrop(text: string, head: nat, n: nat, from: nat)
    requires head <= Size(text) && from <= Size(text)
    ensures DecodeIgnore(Encode(text)[..head] + Encode(Marker(n)) + Encode(text)[from..])
         == text[..WholeChars(text, head)] + Marker(n) + text[FirstAfter(text, from)..]
  {
    hide EncodeChar, DecodeIgnore, Encode;
    var back := Encode(text)[from..];
    var middle := Encode(Marker(n)) + back;
    MarkerBytes(n, back);
    TakeBytes(text, head, middle);
    DecodeEncoded(Marker(n), back);
    DropBytes(text, from);
    assert Encode(text)[..head] + Encode(Marker(n)) + back == Encode(text)[..head] + middle;
  }

  /** Fewer bytes hold no more whole characters than there are before any later cut. */
  lemma CutsDoNotCross(text: string, head: nat, from: nat)
    requires head <= from <= Size(text)
    ensures WholeChars(text, head) <= FirstAfter(text, from)
  {
    hide EncodeChar, Encode;
    var i, j := WholeChars(text, head), FirstAfter(text, from);
    FirstAfterBounds(text, from);
    hide FirstAfter;
    if j < i {
      assert text[..i] == text[..j] + text[j..i];
      SizeConcat(text[..j], text[j..i]);
    }
  }

  lemma SplitSize(text: string, k: nat)
    requires k <= |text|
    ensures Size(text) == Size(text[..k]) + Size(text[k..])
  {
    assert text == text[..k] + text[k..];
    SizeConcat(text[..k], text[k..]);
  }

  lemma WholeCharsBounds(text: string, n: nat)
    requires n <= Size(text)
    ensures n - 4 < Size(text[..WholeChars(text, n)]) <= n
  {
    hide EncodeChar, Encode;
    var k := WholeChars(text, n);
    hide WholeChars;
    assert text[..|text|] == text;
  }

  // The two cuts of a clipped text.

  function HeadBytes(text: string, limit: nat): (n: nat)
    requires Size(text) > limit && Room(text, limit) > 0
    ensures n <= Size(text)
  {
    Room(text, limit) / 2
  }

  function TailBytes(text: string, limit: nat): (n: nat)
    requires Size(text) > limit && Room(text, limit) > 0
    ensures HeadBytes(text, limit) + n + Size(Marker(Size(text) - limit)) == limit
  {
    Room(text, limit) - Room(text, limit) / 2
  }

  function Start(text: string, limit: nat): string
    requires Size(text) > limit && Room(text, limit) > 0
  {
    text[..WholeChars(text, HeadBytes(text, limit))]
  }

  function End(text: string, limit: nat): string
    requires Size(text) > limit && Room(text, limit) > 0
  {
    text[FirstAfter(text, Size(text) - TailBytes(text, limit))..]
  }

  /** With room for the marker, a clipped text is whole characters of its start, the marker, and of its end. */
  lemma ClipShape(text: string, limit: nat)
    requires Size(text) > limit && Room(text, limit) > 0
    ensures Clip(text, limit) == Start(text, limit) + Marker(Size(text) - limit) + End(text, limit)
  {
    hide EncodeChar, Encode, DecodeIgnore, Marker;
    TakeMarkerDrop(text, HeadBytes(text, limit), Size(text) - limit, Size(text) - TailBytes(text, limit));
  }

  /** The start and the end do not overlap, and each cut loses at most the bytes of one character cut open. */
  lemma ClipLosses(text: string, limit: nat)
    requires Size(text) > limit && Room(text, limit) > 0
    ensures WholeChars(text, HeadBytes(text, limit)) <= FirstAfter(text, Size(text) - TailBytes(text, limit))
    ensures HeadBytes(text, limit) - 3 <= Size(Start(text, limit)) <= HeadBytes(text, limit)
    ensures TailBytes(text, limit) - 3 <= Size(End(text, limit)) <= TailBytes(text, limit)
  {
    hide EncodeChar, Encode, Marker, FirstAfter;
    var head, from := HeadBytes(text, limit), Size(text) - TailBytes(text, limit);
    CutsDoNotCross(text, head, from);
    WholeCharsBounds(text, head);
    FirstAfterBounds(text, from);
    SplitSize(text, FirstAfter(text, from));
  }

  lemma ClippedSize(text: string, limit: nat)
    requires Size(text) > limit && Room(text, limit) > 0
    ensures Size(Clip(text, limit)) <= limit
  {
    var m := Marker(Size(text) - limit);
    ClipShape(text, limit);
    ClipLosses(text, limit);
    hide Clip, Start, End, Marker, Encode, Room;
    SizeConcat(Start(text, limit) + m, End(text, limit));
    SizeConcat(Start(text, limit), m);
  }

  /** The result is within the limit, and clipping it again changes nothing. */
  lemma ClipFits(text: string, limit: nat)
    ensures Size(Clip(text, limit)) <= limit
    ensures Clip(Clip(text, limit), limit) == Clip(text, limit)
  {
    hide EncodeChar, Encode, DecodeIgnore, Marker;
    if Size(text) > limit {
      if Room(text, limit) <= 0 {
        ClippedPrefix(text, limit);
      } else {
        ClippedSize(text, limit);
      }
    }
  }

  /** Nothing is left exactly when there was nothing, or the first character alone exceeds the limit. */
  lemma ClipEmpty(text: string, limit: nat)
    ensures Clip(text, limit) == "" <==> text == "" || limit < |EncodeChar(text[0])|
  {
    hide EncodeChar, DecodeIgnore, Marker;
    if Size(text) > limit {
      if Room(text, limit) <= 0 {
        ClippedPrefix(text, limit);
      } else {
        ClipShape(text, limit);
        MarkerOutgrowsCharacters(Size(text) - limit);
      }
    }
  }

  lemma MarkerOutgrowsCharacters(n: nat)
    ensures Size(Marker(n)) > 4
  {
    AsciiSize(Marker(n));
  }
}
