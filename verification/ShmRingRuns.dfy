/**
 Theorems about every interleaving of a frame's three-stage write with releases
 of any slot: reads return exactly the written bytes, views stay until their
 slot is released, buffers always validate, and stale signals are refused.
 */
module ShmRingRuns {
  import opened Seqs
  import opened ShmLayout
  import opened ShmRing

  datatype Event = Starts(frame: Frame) | Copies(n: nat) | Publishes | Releases(slot: nat)

  function Step(g: Geometry, s: State, e: Event): State {
    if !Shaped(g, s) then s
    else
      match e
      case Starts(f) => Start(g, s, f)
      case Copies(n) => Copy(g, s, n)
      case Publishes => Publish(g, s)
      case Releases(i) => Release(g, s, i)
  }

  function Run(g: Geometry, s: State, es: seq<Event>): State
    decreases |es|
  {
    if es == [] then s else Run(g, Step(g, s, es[0]), es[1..])
  }

  /** A ring as its creator leaves it. */
  function Fresh(g: Geometry, memory: seq<byte>): State
    requires |memory| >= TotalSize(g)
  {
    State(Created(g, memory), 0, None, seq(g.slots, i => BlankHeader), seq(g.slots, i => NoFrame))
  }

  // What a write to one slot leaves alone.

  lemma HeaderPut(g: Geometry, buf: seq<byte>, i: nat, h: Header, j: nat)
    requires i < g.slots && j < g.slots && |buf| >= TotalSize(g) && InRange(h)
    ensures SlotHeader(g, PutHeader(g, buf, i, h), j) == if i == j then PackHeader(h) else SlotHeader(g, buf, j)
  {
    SlotsAreDisjoint(g, i, j);
    SlotsAreDisjoint(g, j, j);
    hide HeaderAt, Get, Set, PackHeader, TotalSize;
    if i == j {
      GetOfSet(buf, HeaderAt(g, i), PackHeader(h));
    } else {
      GetBesideSet(buf, HeaderAt(g, i), PackHeader(h), HeaderAt(g, j), HEADER_SIZE);
    }
  }

  lemma DataBesideHeader(g: Geometry, buf: seq<byte>, i: nat, h: Header, j: nat, n: nat)
    requires i < g.slots && j < g.slots && |buf| >= TotalSize(g) && InRange(h) && n <= g.max
    ensures SlotData(g, PutHeader(g, buf, i, h), j, n) == SlotData(g, buf, j, n)
  {
    SlotsAreDisjoint(g, i, j);
    SlotsAreDisjoint(g, j, j);
    hide HeaderAt, Get, Set, PackHeader, TotalSize;
    GetBesideSet(buf, HeaderAt(g, i), PackHeader(h), DataAt(g, j), n);
  }

  lemma GlobalBesideHeader(g: Geometry, buf: seq<byte>, i: nat, h: Header)
    requires i < g.slots && |buf| >= TotalSize(g) && InRange(h)
    ensures Get(PutHeader(g, buf, i, h), 0, GLOBAL_SIZE) == Get(buf, 0, GLOBAL_SIZE)
  {
    SlotsAreDisjoint(g, i, i);
    hide HeaderAt, Get, Set, PackHeader;
    GetBesideSet(buf, HeaderAt(g, i), PackHeader(h), 0, GLOBAL_SIZE);
  }

  lemma HeaderBesideData(g: Geometry, buf: seq<byte>, i: nat, at: nat, bytes: seq<byte>, j: nat)
    requires i < g.slots && j < g.slots && |buf| >= TotalSize(g) && at + |bytes| <= g.max
    ensures SlotHeader(g, PutData(g, buf, i, at, bytes), j) == SlotHeader(g, buf, j)
    ensures Get(PutData(g, buf, i, at, bytes), 0, GLOBAL_SIZE) == Get(buf, 0, GLOBAL_SIZE)
  {
    SlotsAreDisjoint(g, i, j);
    SlotsAreDisjoint(g, j, j);
    hide HeaderAt, Get, Set, TotalSize;
    GetBesideSet(buf, DataAt(g, i) + at, bytes, HeaderAt(g, j), HEADER_SIZE);
    GetBesideSet(buf, DataAt(g, i) + at, bytes, 0, GLOBAL_SIZE);
  }

  lemma DataPut(g: Geometry, buf: seq<byte>, i: nat, at: nat, bytes: seq<byte>, j: nat, n: nat)
    requires i < g.slots && j < g.slots && |buf| >= TotalSize(g) && at + |bytes| <= g.max && n <= g.max
    ensures i != j ==> SlotData(g, PutData(g, buf, i, at, bytes), j, n) == SlotData(g, buf, j, n)
    ensures SlotData(g, PutData(g, buf, i, at, bytes), i, at + |bytes|) == SlotData(g, buf, i, at) + bytes
  {
    SlotsAreDisjoint(g, i, j);
    SlotsAreDisjoint(g, j, j);
    hide HeaderAt, Get, Set, TotalSize;
    if i != j {
      GetBesideSet(buf, DataAt(g, i) + at, bytes, DataAt(g, j), n);
    }
    GetExtended(buf, DataAt(g, i), at, bytes);
  }

  // The invariant.

  /** The bytes of slot `i` are its last header, and behind a READY one its frame. */
  ghost predicate SlotGood(g: Geometry, s: State, i: nat)
    requires Shaped(g, s) && i < g.slots
  {
    var h, f := s.headers[i], s.frames[i];
    && InRange(h) && h.state in {FREE, WRITING, READY} && SlotHeader(g, s.buf, i) == PackHeader(h)
    && (h.state == WRITING ==> s.write.Some? && s.write.value.slot == i)
    && (h.state == READY ==> h == HeaderOf(f, READY, |f.data|) && |f.data| <= g.max
                             && SlotData(g, s.buf, i, |f.data|) == f.data)
  }

  ghost predicate WriteGood(g: Geometry, s: State)
    requires Shaped(g, s)
  {
    s.write.Some? ==>
      && Underway(g, s) && s.headers[s.write.value.slot].state == WRITING
      && SlotData(g, s.buf, s.write.value.slot, s.write.value.copied)
         == s.write.value.frame.data[..s.write.value.copied]
  }

  ghost predicate Good(g: Geometry, s: State) {
    && Shaped(g, s) && |s.buf| >= GLOBAL_SIZE && Get(s.buf, 0, GLOBAL_SIZE) == PackGlobal(g)
    && (forall i: nat :: i < g.slots ==> SlotGood(g, s, i))
    && WriteGood(g, s)
  }

  /** The decoded header of a slot is its last header. */
  lemma DecodesAs(g: Geometry, s: State, i: nat)
    requires Good(g, s) && i < g.slots
    ensures MagicOf(SlotHeader(g, s.buf, i)) == SLOT_MAGIC && UnpackHeader(SlotHeader(g, s.buf, i)) == s.headers[i]
    ensures StateByte(g, s.buf, i) == s.headers[i].state
  {
    assert SlotGood(g, s, i);
    hide PackHeader, UnpackHeader, MagicOf, SlotHeader;
    HeaderRoundTrip(s.headers[i]);
  }

  lemma {:induction false} BlankedIs(g: Geometry, buf: seq<byte>, n: nat, j: nat)
    requires n <= g.slots && |buf| >= TotalSize(g) && j < g.slots
    ensures j < n ==> SlotHeader(g, Blanked(g, buf, n), j) == PackHeader(BlankHeader)
    ensures Get(Blanked(g, buf, n), 0, GLOBAL_SIZE) == Get(buf, 0, GLOBAL_SIZE)
  {
    hide SlotHeader, PutHeader, PackHeader, Get, TotalSize;
    if n > 0 {
      BlankedIs(g, buf, n - 1, j);
      HeaderPut(g, Blanked(g, buf, n - 1), n - 1, BlankHeader, j);
      GlobalBesideHeader(g, Blanked(g, buf, n - 1), n - 1, BlankHeader);
    }
  }

  lemma FreshGood(g: Geometry, memory: seq<byte>)
    requires |memory| >= TotalSize(g)
    ensures Good(g, Fresh(g, memory))
  {
    var buf := Set(memory, 0, PackGlobal(g));
    assert Get(buf, 0, GLOBAL_SIZE) == PackGlobal(g) by { GetOfSet(memory, 0, PackGlobal(g)); }
    var s := Fresh(g, memory);
    hide SlotHeader, PackHeader, Get, Blanked, SlotData, Set;
    if g.slots == 0 {
      NothingBlanked(g, buf);
    } else {
      BlankedIs(g, buf, g.slots, 0);
    }
    forall i: nat | i < g.slots ensures SlotGood(g, s, i) {
      BlankedIs(g, buf, g.slots, i);
    }
  }

  lemma NothingBlanked(g: Geometry, buf: seq<byte>)
    requires |buf| >= TotalSize(g)
    ensures Blanked(g, buf, 0) == buf
  {
  }

  /** A slot that is neither written to nor renamed stays good. */
  lemma OtherSlotGood(g: Geometry, s: State, t: State, j: nat)
    requires Shaped(g, s) && Shaped(g, t) && j < g.slots && SlotGood(g, s, j)
    requires t.headers[j] == s.headers[j] && t.frames[j] == s.frames[j]
    requires SlotHeader(g, t.buf, j) == SlotHeader(g, s.buf, j)
    requires s.headers[j].state == READY && |s.frames[j].data| <= g.max ==>
               SlotData(g, t.buf, j, |s.frames[j].data|) == SlotData(g, s.buf, j, |s.frames[j].data|)
    requires s.headers[j].state == WRITING ==> t.write.Some? && t.write.value.slot == j
    ensures SlotGood(g, t, j)
  {
    hide SlotHeader, SlotData, PackHeader;
  }

  lemma {:induction false} ClaimIsNextFree(g: Geometry, buf: seq<byte>, pos: nat, tries: nat)
    requires |buf| >= TotalSize(g) && (tries > 0 ==> g.slots > 0)
    ensures var c := ClaimSlot(g, buf, pos, tries);
      && pos <= c.pos <= pos + tries
      && (c.slot.None? ==> c.pos == pos + tries)
      && (c.slot.None? ==> forall k: nat :: pos <= k < pos + tries ==> StateByte(g, buf, k % g.slots) != FREE)
      && (c.slot.Some? ==> pos < c.pos && g.slots > 0 && c.slot.value == (c.pos - 1) % g.slots)
      && (c.slot.Some? ==> c.slot.value < g.slots && StateByte(g, buf, c.slot.value) == FREE)
      && (c.slot.Some? ==> forall k: nat :: pos <= k < c.pos - 1 ==> StateByte(g, buf, k % g.slots) != FREE)
    decreases tries
  {
    hide StateByte, TotalSize;
    if tries > 0 && StateByte(g, buf, pos % g.slots) != FREE {
      ClaimIsNextFree(g, buf, pos + 1, tries - 1);
    }
  }

  /** The search covers the whole ring: it fails exactly when no slot is free. */
  lemma ClaimFailsOnlyWhenFull(g: Geometry, s: State)
    requires Good(g, s)
    ensures ClaimSlot(g, s.buf, s.pos, g.slots).slot.None?
      <==> forall i: nat :: i < g.slots ==> s.headers[i].state != FREE
  {
    hide StateByte, ClaimSlot, SlotGood, SlotHeader, UnpackHeader, MagicOf;
    ClaimIsNextFree(g, s.buf, s.pos, g.slots);
    var c := ClaimSlot(g, s.buf, s.pos, g.slots);
    if c.slot.Some? {
      DecodesAs(g, s, c.slot.value);
    } else {
      forall i: nat | i < g.slots ensures s.headers[i].state != FREE {
        var k := Reaching(s.pos, i, g.slots);
        DecodesAs(g, s, i);
      }
    }
  }

  /** Among `n` successive positions each residue occurs. */
  lemma Reaching(pos: nat, i: nat, n: nat) returns (k: nat)
    requires i < n
    ensures pos <= k < pos + n && k % n == i
  {
    var r := pos % n;
    if i >= r {
      k := pos + (i - r);
      assert k == pos / n * n + i;
      ModOf(pos / n, i, n);
    } else {
      k := pos + (i - r) + n;
      assert k == (pos / n + 1) * n + i;
      ModOf(pos / n + 1, i, n);
    }
  }

  lemma ModOf(q: nat, i: nat, n: nat)
    requires i < n
    ensures (q * n + i) % n == i
  {
    var m := q * n + i;
    var a, r := m / n, m % n;
    assert m == a * n + r;
    if a < q { Multiples(a, q, n); }
    if q < a { Multiples(q, a, n); }
  }

  // Steps keep the invariant.

  /** Replacing a slot's header keeps the other slots. */
  lemma PutHeaderKeepsOthers(g: Geometry, s: State, t: State, i: nat, h: Header)
    requires Good(g, s) && Shaped(g, t) && i < g.slots && InRange(h)
    requires t.buf == PutHeader(g, s.buf, i, h) && t.headers == s.headers[i := h]
    requires forall j: nat :: j < g.slots && j != i ==> t.frames[j] == s.frames[j]
    requires t.write == s.write || (s.write.None? && t.write.Some?) || (s.write.Some? && s.write.value.slot == i)
    ensures |t.buf| >= GLOBAL_SIZE && Get(t.buf, 0, GLOBAL_SIZE) == PackGlobal(g)
    ensures SlotHeader(g, t.buf, i) == PackHeader(h)
    ensures forall j: nat :: j < g.slots && j != i ==> SlotGood(g, t, j)
  {
    hide SlotHeader, SlotData, PackHeader, PutHeader, Get, TotalSize, WriteGood, InRange;
    GlobalBesideHeader(g, s.buf, i, h);
    HeaderPut(g, s.buf, i, h, i);
    forall j: nat | j < g.slots && j != i ensures SlotGood(g, t, j) {
      assert SlotGood(g, s, j);
      HeaderPut(g, s.buf, i, h, j);
      if |s.frames[j].data| <= g.max {
        DataBesideHeader(g, s.buf, i, h, j, |s.frames[j].data|);
      }
      OtherSlotGood(g, s, t, j);
    }
  }

  lemma StartGood(g: Geometry, s: State, f: Frame)
    requires Good(g, s)
    ensures Good(g, Start(g, s, f))
  {
    var t := Start(g, s, f);
    var claim := ClaimSlot(g, s.buf, s.pos, g.slots);
    hide SlotHeader, SlotData, PackHeader, PutHeader, Get, TotalSize, ClaimSlot, InRange;
    if t.write != s.write {
      var i := claim.slot.value;
      PutHeaderKeepsOthers(g, s, t, i, HeaderOf(f, WRITING, 0));
      assert SlotGood(g, t, i);
      assert SlotData(g, t.buf, i, 0) == f.data[..0];
    } else {
      assert forall j: nat :: j < g.slots && SlotGood(g, s, j) ==> SlotGood(g, t, j);
    }
  }

  lemma CopyGood(g: Geometry, s: State, n: nat)
    requires Good(g, s)
    ensures Good(g, Copy(g, s, n))
  {
    var t := Copy(g, s, n);
    hide SlotHeader, SlotData, PackHeader, PutData, Get, TotalSize, InRange;
    if t != s {
      var w := s.write.value;
      var bytes := w.frame.data[w.copied..w.copied + n];
      HeaderBesideData(g, s.buf, w.slot, w.copied, bytes, w.slot);
      forall j: nat | j < g.slots ensures SlotGood(g, t, j) {
        assert SlotGood(g, s, j);
        HeaderBesideData(g, s.buf, w.slot, w.copied, bytes, j);
        if |s.frames[j].data| <= g.max {
          DataPut(g, s.buf, w.slot, w.copied, bytes, j, |s.frames[j].data|);
        }
        OtherSlotGood(g, s, t, j);
      }
      DataPut(g, s.buf, w.slot, w.copied, bytes, w.slot, 0);
      assert w.frame.data[..w.copied] + bytes == w.frame.data[..w.copied + n];
    }
  }

  lemma PublishGood(g: Geometry, s: State)
    requires Good(g, s)
    ensures Good(g, Publish(g, s))
  {
    var t := Publish(g, s);
    hide SlotHeader, SlotData, PackHeader, PutHeader, Get, TotalSize, InRange;
    if t != s {
      var w := s.write.value;
      var h := HeaderOf(w.frame, READY, |w.frame.data|);
      PutHeaderKeepsOthers(g, s, t, w.slot, h);
      DataBesideHeader(g, s.buf, w.slot, h, w.slot, |w.frame.data|);
      assert w.frame.data[..w.copied] == w.frame.data;
      assert SlotGood(g, t, w.slot);
    }
  }

  lemma ReleaseGood(g: Geometry, s: State, i: nat)
    requires Good(g, s)
    ensures Good(g, Release(g, s, i))
  {
    if Releasable(g, s.buf, i) {
      DecodesAs(g, s, i);
      var h := s.headers[i].(state := FREE, size := 0);
      var t := Release(g, s, i);
      assert SlotGood(g, s, i);
      hide SlotHeader, SlotData, PackHeader, PutHeader, Get, TotalSize, UnpackHeader, MagicOf, StateByte;
      PutHeaderKeepsOthers(g, s, t, i, h);
      assert SlotGood(g, t, i);
      if s.write.Some? {
        DataBesideHeader(g, s.buf, i, h, s.write.value.slot, s.write.value.copied);
      }
    }
  }

  lemma StepGood(g: Geometry, s: State, e: Event)
    requires Good(g, s)
    ensures Good(g, Step(g, s, e))
  {
    match e
    case Starts(f) => StartGood(g, s, f);
    case Copies(n) => CopyGood(g, s, n);
    case Publishes => PublishGood(g, s);
    case Releases(i) => ReleaseGood(g, s, i);
  }

  lemma {:induction false} RunGood(g: Geometry, s: State, es: seq<Event>)
    requires Good(g, s)
    ensures Good(g, Run(g, s, es))
    decreases |es|
  {
    if es != [] {
      StepGood(g, s, es[0]);
      RunGood(g, Step(g, s, es[0]), es[1..]);
    }
  }

  ghost predicate Reachable(g: Geometry, s: State) {
    exists memory: seq<byte>, es: seq<Event> :: |memory| >= TotalSize(g) && s == Run(g, Fresh(g, memory), es)
  }

  lemma ReachableGood(g: Geometry, s: State)
    requires Reachable(g, s)
    ensures Good(g, s)
  {
    var memory: seq<byte>, es: seq<Event> :| |memory| >= TotalSize(g) && s == Run(g, Fresh(g, memory), es);
    FreshGood(g, memory);
    RunGood(g, Fresh(g, memory), es);
  }

  // Theorem 1: a read returns exactly the bytes of the write it names.

  /** Slot `i` holds a finished frame. */
  predicate Holds(g: Geometry, s: State, i: int, f: Frame) {
    Shaped(g, s) && 0 <= i < g.slots && s.headers[i].state == READY && s.frames[i] == f
  }

  /** The signal names the finished frame that its slot holds. */
  predicate Names(g: Geometry, s: State, signal: Signal) {
    && Shaped(g, s) && 0 <= signal.slot < g.slots
    && Holds(g, s, signal.slot, s.frames[signal.slot]) && signal == SignalOf(signal.slot, s.frames[signal.slot])
  }

  lemma GoodReadsExactly(g: Geometry, s: State, signal: Signal)
    requires Good(g, s)
    ensures Shaped(g, s)
    ensures ReadSlot(g, s.buf, signal).View? <==> Names(g, s, signal)
    ensures ReadSlot(g, s.buf, signal).View? ==> ReadSlot(g, s.buf, signal).data == s.frames[signal.slot].data
  {
    if 0 <= signal.slot < g.slots {
      assert SlotGood(g, s, signal.slot);
      DecodesAs(g, s, signal.slot);
      hide SlotHeader, SlotData, PackHeader, Get, TotalSize, UnpackHeader, MagicOf, StateByte, InRange, Good;
    }
  }

  lemma ReadsReturnTheWrite(g: Geometry, s: State, signal: Signal)
    requires Reachable(g, s)
    ensures Shaped(g, s)
    ensures ReadSlot(g, s.buf, signal).View? <==> Names(g, s, signal)
    ensures ReadSlot(g, s.buf, signal).View? ==> ReadSlot(g, s.buf, signal).data == s.frames[signal.slot].data
  {
    hide Good, ReadSlot, Names;
    ReachableGood(g, s);
    GoodReadsExactly(g, s, signal);
  }

  /** An uninterrupted write that finds a slot is read back from it. */
  lemma WrittenIsReadable(g: Geometry, s: State, f: Frame)
    requires Reachable(g, s) && s.write.None? && Storable(f) && |f.data| <= g.max
    requires Shaped(g, s)
    ensures var t := Publish(g, Copy(g, Start(g, s, f), |f.data|));
      var claim := ClaimSlot(g, s.buf, s.pos, g.slots);
      claim.slot.Some? ==> Shaped(g, t) && ReadSlot(g, t.buf, SignalOf(claim.slot.value, f)) == View(f.data)
  {
    ReachableGood(g, s);
    var claim := ClaimSlot(g, s.buf, s.pos, g.slots);
    if claim.slot.Some? {
      ClaimIsNextFree(g, s.buf, s.pos, g.slots);
      var i := claim.slot.value;
      var started := Start(g, s, f);
      var copied := Copy(g, started, |f.data|);
      var t := Publish(g, copied);
      StartGood(g, s, f);
      CopyGood(g, started, |f.data|);
      PublishGood(g, copied);
      hide ClaimSlot, Good, PutHeader, PutData, InRange, SlotHeader;
      assert t.headers[i].state == READY && t.frames[i] == f;
      GoodReads(g, t, i);
    }
  }

  lemma GoodReads(g: Geometry, s: State, i: nat)
    requires Good(g, s) && i < g.slots && s.headers[i].state == READY
    ensures ReadSlot(g, s.buf, SignalOf(i, s.frames[i])) == View(s.frames[i].data)
  {
    assert SlotGood(g, s, i);
    DecodesAs(g, s, i);
    hide SlotHeader, SlotData, PackHeader, Get, TotalSize, UnpackHeader, MagicOf, StateByte, InRange, Good;
  }

  // Theorem 2: a view stays as it is until its slot is released.

  lemma StepKeepsHeld(g: Geometry, s: State, e: Event, i: nat, f: Frame)
    requires Good(g, s) && Holds(g, s, i, f) && e != Releases(i)
    ensures Holds(g, Step(g, s, e), i, f)
  {
    assert SlotGood(g, s, i);
    hide SlotHeader, SlotData, PackHeader, PutHeader, PutData, Get, TotalSize, UnpackHeader, MagicOf, InRange, SlotGood;
    match e
    case Starts(frame) =>
      ClaimIsNextFree(g, s.buf, s.pos, g.slots);
      var claim := ClaimSlot(g, s.buf, s.pos, g.slots);
      if claim.slot.Some? {
        DecodesAs(g, s, claim.slot.value);
      }
    case Copies(n) =>
    case Publishes =>
    case Releases(j) =>
  }

  lemma {:induction false} RunKeepsHeld(g: Geometry, s: State, es: seq<Event>, i: nat, f: Frame)
    requires Good(g, s) && Holds(g, s, i, f) && Releases(i) !in es
    ensures Holds(g, Run(g, s, es), i, f) && Good(g, Run(g, s, es))
    decreases |es|
  {
    hide Good, Holds, Step;
    if es != [] {
      StepKeepsHeld(g, s, es[0], i, f);
      StepGood(g, s, es[0]);
      RunKeepsHeld(g, Step(g, s, es[0]), es[1..], i, f);
    }
  }

  lemma ViewsStayUntilRelease(g: Geometry, s: State, es: seq<Event>, i: nat, f: Frame)
    requires Reachable(g, s) && Holds(g, s, i, f) && Releases(i) !in es
    ensures var later := Run(g, s, es);
      Shaped(g, later) && |f.data| <= g.max && SlotData(g, later.buf, i, |f.data|) == f.data
      && SlotData(g, s.buf, i, |f.data|) == f.data && ReadSlot(g, later.buf, SignalOf(i, f)) == View(f.data)
  {
    ReachableGood(g, s);
    RunKeepsHeld(g, s, es, i, f);
    var later := Run(g, s, es);
    assert SlotGood(g, s, i) && SlotGood(g, later, i);
    hide Run, SlotGood, ReadSlot, SlotData;
    GoodReads(g, later, i);
  }

  // Theorem 3: every reachable buffer validates with its creation parameters, unless one of them is zero.

  lemma {:induction false} NoSlotRejected(g: Geometry, s: State, i: nat)
    requires Good(g, s) && i <= g.slots
    ensures SlotsRejection(g, s.buf, i) == None
    decreases g.slots - i
  {
    hide SlotHeader, UnpackHeader, MagicOf, TotalSize;
    if i < g.slots {
      assert SlotGood(g, s, i);
      DecodesAs(g, s, i);
      NoSlotRejected(g, s, i + 1);
    }
  }

  lemma ReachableBuffersValidate(g: Geometry, s: State)
    requires Reachable(g, s) && Representable(g)
    ensures Validate(s.buf) == Valid(g) <==> g.slots > 0 && g.max > 0
  {
    ReachableGood(g, s);
    hide Get, SlotHeader, PackGlobal, UnpackGlobal;
    GlobalRoundTrip(g);
    NoSlotRejected(g, s, 0);
  }

  // Theorem 4: with unique sequence numbers, a released frame's signal is refused for ever.

  /** Slot `i` neither holds nor receives a frame with this sequence number. */
  ghost predicate Gone(g: Geometry, s: State, i: nat, sequence: nat) {
    && Shaped(g, s) && i < g.slots
    && (s.headers[i].state == READY ==> s.frames[i].sequence != sequence)
    && (s.write.Some? && s.write.value.slot == i ==> s.write.value.frame.sequence != sequence)
  }

  lemma StepKeepsGone(g: Geometry, s: State, e: Event, i: nat, sequence: nat)
    requires Good(g, s) && Gone(g, s, i, sequence) && (e.Starts? ==> e.frame.sequence != sequence)
    ensures Gone(g, Step(g, s, e), i, sequence)
  {
    hide SlotHeader, SlotData, PackHeader, PutHeader, PutData, Get, TotalSize, UnpackHeader, MagicOf, InRange, SlotGood;
    match e
    case Starts(frame) =>
    case Copies(n) =>
    case Publishes =>
    case Releases(j) =>
  }

  lemma {:induction false} RunKeepsGone(g: Geometry, s: State, es: seq<Event>, i: nat, sequence: nat)
    requires Good(g, s) && Gone(g, s, i, sequence)
    requires forall e :: e in es && e.Starts? ==> e.frame.sequence != sequence
    ensures Gone(g, Run(g, s, es), i, sequence) && Good(g, Run(g, s, es))
    decreases |es|
  {
    hide Good, Gone, Step;
    if es != [] {
      assert es[0] in es;
      StepKeepsGone(g, s, es[0], i, sequence);
      StepGood(g, s, es[0]);
      RunKeepsGone(g, Step(g, s, es[0]), es[1..], i, sequence);
    }
  }

  lemma ReleasedIsGone(g: Geometry, s: State, i: nat, f: Frame)
    requires Good(g, s) && Holds(g, s, i, f)
    ensures Gone(g, Release(g, s, i), i, f.sequence)
  {
    DecodesAs(g, s, i);
    hide SlotHeader, PackHeader, PutHeader, Get, TotalSize, UnpackHeader, MagicOf, StateByte, SlotData;
  }

  lemma StaleSignalsAreRefused(g: Geometry, s: State, i: nat, f: Frame, es: seq<Event>)
    requires Reachable(g, s) && Holds(g, s, i, f)
    requires forall e :: e in es && e.Starts? ==> e.frame.sequence != f.sequence
    ensures var later := Run(g, Step(g, s, Releases(i)), es);
      Shaped(g, later) && ReadSlot(g, later.buf, SignalOf(i, f)).ReadFailed?
  {
    ReachableGood(g, s);
    ReleaseGood(g, s, i);
    ReleasedIsGone(g, s, i, f);
    var t := Step(g, s, Releases(i));
    RunKeepsGone(g, t, es, i, f.sequence);
    var later := Run(g, t, es);
    hide Run, Release;
    if later.headers[i].state == READY { assert SlotGood(g, later, i); }
    DecodesAs(g, later, i);
    hide Good, SlotHeader, UnpackHeader, MagicOf, StateByte, SlotData, PackHeader;
  }
}
