/** The ring over a byte array that is updated in place; each method is proved to do what `ShmRing` says. */
module ShmRingBuffers {
  import opened Seqs
  import opened ShmLayout
  import opened ShmRing
  import Runs = ShmRingRuns

  /** `struct.pack_into`, and copying a payload. */
  method PutBytes(buf: array<byte>, at: nat, bytes: seq<byte>)
    requires at + |bytes| <= buf.Length
    modifies buf
    ensures buf[..] == Set(old(buf[..]), at, bytes)
  {
    hide Set;
    var i := 0;
    while i < |bytes|
      invariant 0 <= i <= |bytes|
      invariant forall k :: 0 <= k < buf.Length ==>
                  buf[k] == if at <= k < at + i then bytes[k - at] else old(buf[k])
    {
      buf[at + i] := bytes[i];
      i := i + 1;
    }
  }

  lemma ReadBytes(buf: array<byte>, at: nat, n: nat)
    requires at + n <= buf.Length
    ensures buf[at..at + n] == Get(buf[..], at, n)
  {
  }

  /** Zeroed memory. */
  function Zeros(n: nat): (z: seq<byte>)
    ensures |z| == n
  {
    seq(n, i => 0)
  }

  /** Write the global header and blank every slot. */
  method Initialize(g: Geometry, memory: array<byte>)
    requires memory.Length >= TotalSize(g)
    modifies memory
    ensures memory[..] == Created(g, old(memory[..]))
  {
    hide Set, PackGlobal, PackHeader, Get;
    PutBytes(memory, 0, PackGlobal(g));
    ghost var start := memory[..];
    var i := 0;
    while i < g.slots
      invariant 0 <= i <= g.slots && memory[..] == Blanked(g, start, i)
    {
      SlotsAreDisjoint(g, i, i);
      PutBytes(memory, HeaderAt(g, i), PackHeader(BlankHeader));
      i := i + 1;
    }
  }

  /** The three stages of a write into slot `i`. */
  method PutFrame(g: Geometry, buf: array<byte>, i: nat, f: Frame)
    requires i < g.slots && buf.Length >= TotalSize(g) && Storable(f) && |f.data| <= g.max
    modifies buf
    ensures buf[..] == FrameIn(g, old(buf[..]), i, f)
  {
    hide Set, PackHeader, HeaderAt;
    SlotsAreDisjoint(g, i, i);
    PutBytes(buf, HeaderAt(g, i), PackHeader(HeaderOf(f, WRITING, 0)));
    PutBytes(buf, DataAt(g, i), f.data);
    PutBytes(buf, HeaderAt(g, i), PackHeader(HeaderOf(f, READY, |f.data|)));
  }

  function FrameIn(g: Geometry, buf: seq<byte>, i: nat, f: Frame): (r: seq<byte>)
    requires i < g.slots && |buf| >= TotalSize(g) && Storable(f) && |f.data| <= g.max
  {
    PutHeader(g, PutData(g, PutHeader(g, buf, i, HeaderOf(f, WRITING, 0)), i, 0, f.data),
              i, HeaderOf(f, READY, |f.data|))
  }

  datatype WriteResult = Written(slot: nat) | FrameTooLarge | AllOccupied

  class ShmRingBuffer {
    const g: Geometry
    const buf: array<byte>
    var pos: nat
    ghost var headers: seq<Header>
    ghost var frames: seq<Frame>

    ghost function Contents(): State
      reads this, buf
    {
      State(buf[..], pos, None, headers, frames)
    }

    ghost predicate Valid()
      reads this, buf
    {
      Runs.Good(g, Contents())
    }

    /** Create and initialize a segment; the mapping may exceed the layout by `slack` bytes of page rounding. */
    constructor (g: Geometry, slack: nat)
      ensures Valid() && this.g == g && fresh(buf) && Contents() == Runs.Fresh(g, Zeros(TotalSize(g) + slack))
    {
      var memory := new byte[TotalSize(g) + slack](_ => 0);
      assert memory[..] == Zeros(TotalSize(g) + slack);
      Initialize(g, memory);
      Runs.FreshGood(g, Zeros(TotalSize(g) + slack));
      this.g := g;
      buf := memory;
      pos := 0;
      headers, frames := seq(g.slots, i => BlankHeader), seq(g.slots, i => NoFrame);
    }

    /** The cyclic search for a free slot. */
    method FindFree() returns (slot: Option<nat>)
      requires Valid()
      modifies this`pos
      ensures Claim(slot, pos) == ClaimSlot(g, buf[..], old(pos), g.slots)
    {
      hide Runs.SlotGood, Get, HeaderAt, TotalSize;
      var tries := g.slots;
      while tries > 0
        invariant 0 <= tries <= g.slots
        invariant ClaimSlot(g, buf[..], pos, tries) == ClaimSlot(g, buf[..], old(pos), g.slots)
      {
        slot := Some(pos % g.slots);
        SlotsAreDisjoint(g, slot.value, slot.value);
        assert buf[HeaderAt(g, slot.value) + 4] == StateByte(g, buf[..], slot.value) by {
          ReadBytes(buf, HeaderAt(g, slot.value), HEADER_SIZE);
        }
        pos := pos + 1;
        if buf[HeaderAt(g, slot.value) + 4] == FREE {
          return;
        }
        tries := tries - 1;
      }
      slot := None;
    }

    /** The three stages of a write, with nothing in between. */
    method WriteFrame(f: Frame) returns (r: WriteResult)
      requires Valid() && Storable(f)
      modifies this, buf
      ensures Valid() && Contents() == Publish(g, Copy(g, Start(g, old(Contents()), f), |f.data|))
      ensures r == FrameTooLarge <==> |f.data| > g.max
      ensures r == AllOccupied <==>
        |f.data| <= g.max && (forall i: nat :: i < g.slots ==> old(headers)[i].state != FREE)
      ensures r.Written? ==> r.slot < g.slots && ReadSlot(g, buf[..], SignalOf(r.slot, f)) == View(f.data)
    {
      hide Runs.Good, ClaimSlot, FrameIn, TotalSize, Start, Copy, Publish, ReadSlot, Storable;
      ghost var s := Contents();
      if |f.data| > g.max {
        NothingStarts(g, s, f);
        return FrameTooLarge;
      }
      GoodIsShaped(g, s);
      Runs.ClaimFailsOnlyWhenFull(g, s);
      Runs.ClaimIsNextFree(g, s.buf, s.pos, g.slots);
      var slot := FindFree();
      if slot.None? {
        NothingStarts(g, s, f);
        return AllOccupied;
      }
      StagesAre(g, s, f, slot.value);
      PutFrame(g, buf, slot.value, f);
      headers := headers[slot.value := HeaderOf(f, READY, |f.data|)];
      frames := frames[slot.value := f];
      return Written(slot.value);
    }

    method ReadHeader(slot: nat) returns (bs: seq<byte>)
      requires slot < g.slots && buf.Length >= TotalSize(g)
      ensures bs == SlotHeader(g, buf[..], slot)
    {
      SlotsAreDisjoint(g, slot, slot);
      hide Get, HeaderAt, TotalSize;
      ReadBytes(buf, HeaderAt(g, slot), HEADER_SIZE);
      bs := buf[HeaderAt(g, slot)..HeaderAt(g, slot) + HEADER_SIZE];
    }

    method ReadData(slot: nat, n: nat) returns (bs: seq<byte>)
      requires slot < g.slots && buf.Length >= TotalSize(g) && n <= g.max
      ensures bs == SlotData(g, buf[..], slot, n)
    {
      SlotsAreDisjoint(g, slot, slot);
      hide Get, TotalSize;
      ReadBytes(buf, DataAt(g, slot), n);
      bs := buf[DataAt(g, slot)..DataAt(g, slot) + n];
    }

    /** The read succeeds iff the signal names the finished frame in its slot, and returns that frame's bytes. */
    method Read(signal: Signal) returns (r: Reading)
      requires Valid()
      ensures r == ReadSlot(g, buf[..], signal)
      ensures r.View? <==> Runs.Names(g, Contents(), signal)
      ensures r.View? ==> r.data == frames[signal.slot].data
    {
      hide Runs.Good, ReadSlot, Runs.Names;
      r := CheckAndRead(signal);
      Runs.GoodReadsExactly(g, Contents(), signal);
    }

    /** The checks in the order the code makes them. */
    method CheckAndRead(signal: Signal) returns (r: Reading)
      requires Valid()
      ensures r == ReadSlot(g, buf[..], signal)
    {
      if !(0 <= signal.slot < g.slots) {
        return ReadFailed(BadSlot);
      }
      hide Runs.SlotGood, SlotHeader, SlotData, TotalSize, UnpackHeader, MagicOf;
      var bs := ReadHeader(signal.slot);
      var h := UnpackHeader(bs);
      if MagicOf(bs) != SLOT_MAGIC {
        return ReadFailed(BadHeaderMagic);
      }
      if h.state != READY {
        return ReadFailed(NotReady);
      }
      if h.size > g.max {
        return ReadFailed(BadHeaderSize);
      }
      if !(0 <= signal.size <= g.max) {
        return ReadFailed(BadSignalSize);
      }
      if signal != Signal(signal.slot, h.sequence, h.pts, h.width, h.height, h.fmt, h.size) {
        return ReadFailed(Mismatch);
      }
      var data := ReadData(signal.slot, h.size);
      return View(data);
    }

    method ReleaseSlot(slot: nat) returns (released: bool)
      requires Valid()
      modifies this`headers, buf
      ensures Valid() && Contents() == Release(g, old(Contents()), slot)
      ensures released == Releasable(g, old(buf[..]), slot)
    {
      ghost var s := Contents();
      Runs.ReleaseGood(g, s, slot);
      if slot >= g.slots {
        return false;
      }
      hide Runs.Good, Get, Set, PackHeader, HeaderAt, TotalSize, UnpackHeader, MagicOf;
      assert Shaped(g, s) by { GoodIsShaped(g, s); }
      SlotsAreDisjoint(g, slot, slot);
      var at := HeaderAt(g, slot);
      ReadBytes(buf, at, HEADER_SIZE);
      var bs := buf[at..at + HEADER_SIZE];
      if MagicOf(bs) != SLOT_MAGIC || bs[4] != READY {
        return false;
      }
      UnpackedInRange(bs);
      var h := UnpackHeader(bs).(state := FREE, size := 0);
      PutBytes(buf, at, PackHeader(h));
      headers := headers[slot := h];
      return true;
    }
  }

  lemma GoodIsShaped(g: Geometry, s: State)
    requires Runs.Good(g, s)
    ensures Shaped(g, s)
  {
  }

  /** A write that is too large, or finds no slot, leaves the bytes alone. */
  lemma NothingStarts(g: Geometry, s: State, f: Frame)
    requires Runs.Good(g, s) && s.write.None? && Storable(f)
    requires |f.data| > g.max || (Shaped(g, s) && ClaimSlot(g, s.buf, s.pos, g.slots).slot.None?)
    ensures Shaped(g, s)
    ensures var t := Publish(g, Copy(g, Start(g, s, f), |f.data|));
      && t == (if |f.data| > g.max then s else s.(pos := ClaimSlot(g, s.buf, s.pos, g.slots).pos)) && Runs.Good(g, t)
  {
    hide Runs.Good, ClaimSlot, TotalSize, PutHeader, PutData;
    GoodIsShaped(g, s);
    Runs.StartGood(g, s, f);
  }

  lemma StagesMeet(g: Geometry, s: State, f: Frame, i: nat)
    requires Shaped(g, s) && s.write.None? && Storable(f) && |f.data| <= g.max && i < g.slots
    requires ClaimSlot(g, s.buf, s.pos, g.slots).slot == Some(i)
    ensures var ready := HeaderOf(f, READY, |f.data|);
      Publish(g, Copy(g, Start(g, s, f), |f.data|))
      == State(FrameIn(g, s.buf, i, f), ClaimSlot(g, s.buf, s.pos, g.slots).pos, None,
               s.headers[i := ready], s.frames[i := f])
  {
    hide ClaimSlot, PutHeader, PutData, TotalSize, Storable, HeaderOf;
    assert Storable(f) && f.data[0..|f.data|] == f.data;
    var started := Start(g, s, f);
    assert started.write == Some(Write(i, f, 0)) && started.headers == s.headers[i := HeaderOf(f, WRITING, 0)];
    var copied := Copy(g, started, |f.data|);
    assert copied.write == Some(Write(i, f, |f.data|));
  }

  /** The state after an uninterrupted write into slot `i`. */
  lemma StagesAre(g: Geometry, s: State, f: Frame, i: nat)
    requires Runs.Good(g, s) && s.write.None? && Storable(f) && |f.data| <= g.max && i < g.slots
    requires ClaimSlot(g, s.buf, s.pos, g.slots).slot == Some(i)
    ensures Shaped(g, s)
    ensures var t := Publish(g, Copy(g, Start(g, s, f), |f.data|));
      var ready := HeaderOf(f, READY, |f.data|);
      && t == State(FrameIn(g, s.buf, i, f), ClaimSlot(g, s.buf, s.pos, g.slots).pos, None,
                    s.headers[i := ready], s.frames[i := f])
      && Runs.Good(g, t) && ReadSlot(g, t.buf, SignalOf(i, f)) == View(f.data)
  {
    hide Runs.Good, ClaimSlot, FrameIn, TotalSize, ReadSlot, Storable, Start, Copy, Publish;
    GoodIsShaped(g, s);
    StagesGood(g, s, f);
    StagesMeet(g, s, f, i);
    Runs.GoodReads(g, Publish(g, Copy(g, Start(g, s, f), |f.data|)), i);
  }

  lemma StagesGood(g: Geometry, s: State, f: Frame)
    requires Runs.Good(g, s)
    ensures Shaped(g, s) && Runs.Good(g, Publish(g, Copy(g, Start(g, s, f), |f.data|)))
  {
    hide Runs.Good, Start, Copy, Publish;
    GoodIsShaped(g, s);
    Runs.StartGood(g, s, f);
    Runs.CopyGood(g, Start(g, s, f), |f.data|);
    Runs.PublishGood(g, Copy(g, Start(g, s, f), |f.data|));
  }

  /** `_validate_layout` of an attached segment. */
  method ValidateLayout(buf: array<byte>) returns (v: Validation)
    ensures v == Validate(buf[..])
  {
    if buf.Length < GLOBAL_SIZE {
      return Invalid(TooSmall);
    }
    hide UnpackGlobal, Get, HeaderAt, MagicOf;
    ReadBytes(buf, 0, GLOBAL_SIZE);
    var header := UnpackGlobal(buf[0..GLOBAL_SIZE]);
    var g := Geometry(header.slots, header.max);
    if header.magic != GLOBAL_MAGIC {
      return Invalid(BadMagic);
    }
    if g.slots == 0 || g.max == 0 {
      return Invalid(NotPositive);
    }
    if header.stride != Stride(g) {
      return Invalid(BadStride);
    }
    if buf.Length < TotalSize(g) {
      return Invalid(Truncated);
    }
    var slot := 0;
    while slot < g.slots
      invariant 0 <= slot <= g.slots
      invariant SlotsRejection(g, buf[..], slot) == SlotsRejection(g, buf[..], 0)
    {
      SlotsAreDisjoint(g, slot, slot);
      var at := HeaderAt(g, slot);
      ReadBytes(buf, at, HEADER_SIZE);
      var bs := buf[at..at + HEADER_SIZE];
      if MagicOf(bs) != SLOT_MAGIC {
        return Invalid(BadSlotMagic(slot));
      }
      if bs[4] !in {FREE, WRITING, READY} {
        return Invalid(BadState(slot));
      }
      slot := slot + 1;
    }
    return Valid(g);
  }
}
