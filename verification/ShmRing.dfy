/**
 The shared-memory frame ring as a protocol over bytes: one producer writes a
 frame in three stages (WRITING header, pixels, READY header), a consumer reads
 and releases slots at any point in between. Copying the pixels is split at
 arbitrary bytes.

 `headers` and `frames` record, for the theorems alone, the header that each
 slot was last given and the frame that a READY slot holds.
 */
module ShmRing {
  import opened Seqs
  import opened ShmLayout

  datatype Frame = Frame(data: seq<byte>, width: nat, height: nat, fmt: byte, pts: int, sequence: nat)

  /** What the consumer is told about a written frame. */
  datatype Signal = Signal(slot: int, sequence: int, pts: int, width: int, height: int, fmt: int, size: int)

  datatype Write = Write(slot: nat, frame: Frame, copied: nat)

  datatype State = State(buf: seq<byte>, pos: nat, write: Option<Write>, headers: seq<Header>, frames: seq<Frame>)

  /** The mapping holds the layout; page rounding may have made it longer. */
  predicate Shaped(g: Geometry, s: State) {
    |s.buf| >= TotalSize(g) && |s.headers| == g.slots && |s.frames| == g.slots
  }

  function HeaderOf(f: Frame, state: byte, size: nat): Header {
    Header(state, f.fmt, f.sequence, f.pts, f.width, f.height, size)
  }

  function SignalOf(slot: nat, f: Frame): Signal {
    Signal(slot, f.sequence, f.pts, f.width, f.height, f.fmt, |f.data|)
  }

  /** The frames whose metadata the header's fields can hold. */
  predicate Storable(f: Frame) {
    InRange(HeaderOf(f, READY, |f.data|))
  }

  function SlotHeader(g: Geometry, buf: seq<byte>, i: nat): (bs: seq<byte>)
    requires i < g.slots && |buf| >= TotalSize(g)
    ensures |bs| == HEADER_SIZE
  {
    SlotsAreDisjoint(g, i, i);
    Get(buf, HeaderAt(g, i), HEADER_SIZE)
  }

  function SlotData(g: Geometry, buf: seq<byte>, i: nat, n: nat): (bs: seq<byte>)
    requires i < g.slots && |buf| >= TotalSize(g) && n <= g.max
    ensures |bs| == n
  {
    SlotsAreDisjoint(g, i, i);
    Get(buf, DataAt(g, i), n)
  }

  // Creating and validating.

  const BlankHeader := Header(FREE, 0, 0, 0, 0, 0, 0)
  const NoFrame := Frame([], 0, 0, 0, 0, 0)

  function PutHeader(g: Geometry, buf: seq<byte>, i: nat, h: Header): (r: seq<byte>)
    requires i < g.slots && |buf| >= TotalSize(g) && InRange(h)
    ensures |r| == |buf|
  {
    SlotsAreDisjoint(g, i, i);
    Set(buf, HeaderAt(g, i), PackHeader(h))
  }

  function PutData(g: Geometry, buf: seq<byte>, i: nat, at: nat, bytes: seq<byte>): (r: seq<byte>)
    requires i < g.slots && |buf| >= TotalSize(g) && at + |bytes| <= g.max
    ensures |r| == |buf|
  {
    SlotsAreDisjoint(g, i, i);
    Set(buf, DataAt(g, i) + at, bytes)
  }

  /** The first `n` slots of a new segment are blank. */
  function Blanked(g: Geometry, buf: seq<byte>, n: nat): (r: seq<byte>)
    requires n <= g.slots && |buf| >= TotalSize(g)
    ensures |r| == |buf|
  {
    if n == 0 then buf else PutHeader(g, Blanked(g, buf, n - 1), n - 1, BlankHeader)
  }

  /** A created segment: the global header and blank slots over zeroed memory. */
  function Created(g: Geometry, memory: seq<byte>): (r: seq<byte>)
    requires |memory| >= TotalSize(g)
    ensures |r| == |memory|
  {
    Blanked(g, Set(memory, 0, PackGlobal(g)), g.slots)
  }

  datatype Rejection = TooSmall | BadMagic | NotPositive | BadStride | Truncated
                     | BadSlotMagic(slot: nat) | BadState(slot: nat)

  datatype Validation = Valid(g: Geometry) | Invalid(why: Rejection)

  function SlotRejection(g: Geometry, buf: seq<byte>, i: nat): Option<Rejection>
    requires i < g.slots && |buf| >= TotalSize(g)
  {
    var bs := SlotHeader(g, buf, i);
    if MagicOf(bs) != SLOT_MAGIC then Some(BadSlotMagic(i))
    else if bs[4] !in {FREE, WRITING, READY} then Some(BadState(i))
    else None
  }

  /** The first rejection among the slots from `i` on. */
  function SlotsRejection(g: Geometry, buf: seq<byte>, i: nat): Option<Rejection>
    requires i <= g.slots && |buf| >= TotalSize(g)
    decreases g.slots - i
  {
    if i == g.slots then None
    else if SlotRejection(g, buf, i).Some? then SlotRejection(g, buf, i)
    else SlotsRejection(g, buf, i + 1)
  }

  function Validate(buf: seq<byte>): Validation {
    if |buf| < GLOBAL_SIZE then Invalid(TooSmall)
    else
      var header := UnpackGlobal(Get(buf, 0, GLOBAL_SIZE));
      var g := Geometry(header.slots, header.max);
      if header.magic != GLOBAL_MAGIC then Invalid(BadMagic)
      else if g.slots == 0 || g.max == 0 then Invalid(NotPositive)
      else if header.stride != Stride(g) then Invalid(BadStride)
      else if |buf| < TotalSize(g) then Invalid(Truncated)
      else if SlotsRejection(g, buf, 0).Some? then Invalid(SlotsRejection(g, buf, 0).value)
      else Valid(g)
  }

  // The producer.

  /** The state byte alone, as the search for a free slot reads it. */
  function StateByte(g: Geometry, buf: seq<byte>, i: nat): byte
    requires i < g.slots && |buf| >= TotalSize(g)
  {
    SlotHeader(g, buf, i)[4]
  }

  datatype Claim = Claim(slot: Option<nat>, pos: nat)

  /** Probe up to `tries` slots round the ring; every probe advances the position. */
  function ClaimSlot(g: Geometry, buf: seq<byte>, pos: nat, tries: nat): Claim
    requires |buf| >= TotalSize(g) && (tries > 0 ==> g.slots > 0)
    decreases tries
  {
    if tries == 0 then Claim(None, pos)
    else if StateByte(g, buf, pos % g.slots) == FREE then Claim(Some(pos % g.slots), pos + 1)
    else ClaimSlot(g, buf, pos + 1, tries - 1)
  }

  function Start(g: Geometry, s: State, f: Frame): State
    requires Shaped(g, s)
  {
    if s.write.Some? || |f.data| > g.max || !Storable(f) then s
    else
      var claim := ClaimSlot(g, s.buf, s.pos, g.slots);
      if claim.slot.None? || claim.slot.value >= g.slots then s.(pos := claim.pos)
      else
        var i, h := claim.slot.value, HeaderOf(f, WRITING, 0);
        s.(buf := PutHeader(g, s.buf, i, h), pos := claim.pos, write := Some(Write(i, f, 0)),
           headers := s.headers[i := h])
  }

  /** The write in progress fits this ring. */
  predicate Underway(g: Geometry, s: State) {
    && Shaped(g, s) && s.write.Some? && s.write.value.slot < g.slots
    && s.write.value.copied <= |s.write.value.frame.data| <= g.max && Storable(s.write.value.frame)
  }

  function Copy(g: Geometry, s: State, n: nat): State {
    if !Underway(g, s) || s.write.value.copied + n > |s.write.value.frame.data| then s
    else
      var w := s.write.value;
      s.(buf := PutData(g, s.buf, w.slot, w.copied, w.frame.data[w.copied..w.copied + n]),
         write := Some(w.(copied := w.copied + n)))
  }

  function Publish(g: Geometry, s: State): State {
    if !Underway(g, s) || s.write.value.copied != |s.write.value.frame.data| then s
    else
      var w := s.write.value;
      var h := HeaderOf(w.frame, READY, |w.frame.data|);
      s.(buf := PutHeader(g, s.buf, w.slot, h), write := None,
         headers := s.headers[w.slot := h], frames := s.frames[w.slot := w.frame])
  }

  // The consumer.

  datatype ReadError = BadSlot | BadHeaderMagic | NotReady | BadHeaderSize | BadSignalSize | Mismatch

  datatype Reading = View(data: seq<byte>) | ReadFailed(why: ReadError)

  function ReadSlot(g: Geometry, buf: seq<byte>, signal: Signal): Reading
    requires |buf| >= TotalSize(g)
  {
    if !(0 <= signal.slot < g.slots) then ReadFailed(BadSlot)
    else
      var bs := SlotHeader(g, buf, signal.slot);
      var h := UnpackHeader(bs);
      if MagicOf(bs) != SLOT_MAGIC then ReadFailed(BadHeaderMagic)
      else if h.state != READY then ReadFailed(NotReady)
      else if h.size > g.max then ReadFailed(BadHeaderSize)
      else if !(0 <= signal.size <= g.max) then ReadFailed(BadSignalSize)
      else if signal != Signal(signal.slot, h.sequence, h.pts, h.width, h.height, h.fmt, h.size) then
        ReadFailed(Mismatch)
      else View(SlotData(g, buf, signal.slot, h.size))
  }

  predicate Releasable(g: Geometry, buf: seq<byte>, i: nat)
    requires |buf| >= TotalSize(g)
  {
    i < g.slots && MagicOf(SlotHeader(g, buf, i)) == SLOT_MAGIC && StateByte(g, buf, i) == READY
  }

  function Release(g: Geometry, s: State, i: nat): State
    requires Shaped(g, s)
  {
    if !Releasable(g, s.buf, i) then s
    else
      UnpackedInRange(SlotHeader(g, s.buf, i));
      var h := UnpackHeader(SlotHeader(g, s.buf, i)).(state := FREE, size := 0);
      s.(buf := PutHeader(g, s.buf, i, h), headers := s.headers[i := h])
  }
}
