/**
 The bounded log of web events (xr_ai_web_events/_store.py) and a poller that
 chains cursors over it.
 */
module EventStore {
  import opened Seqs

  datatype WebEvent = WebEvent(topic: string, title: string, participantId: string, payload: string)

  datatype Stored = Stored(sequence: nat, event: WebEvent)

  /** `cursor` is the newest sequence number, `oldest` the oldest that is still stored. */
  datatype Reply = Reply(events: seq<Stored>, cursor: nat, oldest: nat, reset: bool)

  // What the store means: a function of everything appended so far and its capacity.

  function Lost(log: seq<WebEvent>, capacity: nat): nat {
    if |log| > capacity then |log| - capacity else 0
  }

  /** The events of the log from position `from` on, with their sequence numbers. */
  function Numbered(log: seq<WebEvent>, from: nat): (r: seq<Stored>)
    requires from <= |log|
    ensures |r| == |log| - from
    ensures forall i :: 0 <= i < |r| ==> r[i] == Stored(from + i + 1, log[from + i])
  {
    seq(|log| - from, i requires 0 <= i < |log| - from => Stored(from + i + 1, log[from + i]))
  }

  /** What a caller with cursor `sequence` should see: what is new to it, or everything kept after a reset. */
  function After(log: seq<WebEvent>, capacity: nat, sequence: int): Reply {
    var lost := Lost(log, capacity);
    var reset := sequence > |log| || sequence < lost;
    Reply(Numbered(log, if reset then lost else sequence), |log|, lost + 1, reset)
  }

  class EventLog {
    const capacity: nat
    var events: seq<Stored>
    var nextSequence: nat
    ghost var log: seq<WebEvent>

    ghost predicate Valid()
      reads this
    {
      nextSequence == |log| + 1 && events == Numbered(log, Lost(log, capacity))
    }

    constructor (capacity: nat)
      ensures Valid() && this.capacity == capacity && log == []
    {
      this.capacity := capacity;
      events, nextSequence, log := [], 1, [];
    }

    /** A full deque drops its oldest element; one of capacity zero keeps nothing. */
    method Append(event: WebEvent)
      requires Valid()
      modifies this
      ensures Valid() && log == old(log) + [event]
    {
      events := events + [Stored(nextSequence, event)];
      if |events| > capacity {
        events := events[1..];
      }
      nextSequence := nextSequence + 1;
      log := log + [event];
    }

    /** The comprehension over the stored events is what `After` says. */
    method EventsAfter(sequence: int) returns (r: Reply)
      requires Valid()
      ensures r == After(log, capacity, sequence)
    {
      var latest := nextSequence - 1;
      var oldest := if events != [] then events[0].sequence else nextSequence;
      var reset := sequence > latest || sequence < oldest - 1;
      var threshold := if reset then oldest - 1 else sequence;
      NewerAreLast(log, Lost(log, capacity), threshold);
      return Reply(Filter(events, NewerThan(threshold)), latest, oldest, reset);
    }
  }

  function NewerThan(threshold: int): Stored -> bool { (s: Stored) => s.sequence > threshold }

  lemma NumberedSplit(log: seq<WebEvent>, lost: nat, threshold: nat)
    requires lost <= threshold <= |log|
    ensures var all, n := Numbered(log, lost), threshold - lost;
      all == all[..n] + all[n..] && all[n..] == Numbered(log, threshold)
  {
  }

  lemma NumberedOrder(log: seq<WebEvent>, lost: nat, threshold: nat)
    requires lost <= threshold <= |log|
    ensures forall x :: x in Numbered(log, lost)[..threshold - lost] ==> x.sequence <= threshold
    ensures forall x :: x in Numbered(log, threshold) ==> x.sequence > threshold
  {
    hide Numbered;
  }

  /** The stored events with a larger number are the end of the log. */
  lemma NewerAreLast(log: seq<WebEvent>, lost: nat, threshold: nat)
    requires lost <= threshold <= |log|
    ensures Filter(Numbered(log, lost), NewerThan(threshold)) == Numbered(log, threshold)
  {
    hide Filter, Numbered;
    var older, newer := Numbered(log, lost)[..threshold - lost], Numbered(log, threshold);
    NumberedSplit(log, lost, threshold);
    NumberedOrder(log, lost, threshold);
    FilterNone(older, NewerThan(threshold));
    FilterAll(newer, NewerThan(threshold));
    FilterConcat(older, newer, NewerThan(threshold));
  }

  /** The event with number `k` was appended and is no longer stored. */
  ghost predicate Dropped(log: seq<WebEvent>, capacity: nat, k: int) {
    1 <= k <= |log| && forall s :: s in Numbered(log, Lost(log, capacity)) ==> s.sequence != k
  }

  /** Exactly the oldest events are dropped. */
  lemma DroppedAreOldest(log: seq<WebEvent>, capacity: nat, k: int)
    ensures Dropped(log, capacity, k) <==> 1 <= k <= Lost(log, capacity)
  {
    var lost := Lost(log, capacity);
    var kept := Numbered(log, lost);
    if lost < k <= |log| {
      assert kept[k - lost - 1] in kept;
    }
  }

  /**
   A reset is reported exactly when an event after the cursor was dropped, the
   cursor is from the future, or it is negative, which no reply ever hands out.
   */
  lemma ResetMeansLoss(log: seq<WebEvent>, capacity: nat, sequence: int)
    ensures After(log, capacity, sequence).reset
      <==> sequence > |log| || sequence < 0 || exists k :: sequence < k <= |log| && Dropped(log, capacity, k)
  {
    if 0 <= sequence <= |log| {
      DroppedAreOldest(log, capacity, sequence + 1);
      forall k | sequence < k <= |log| && Dropped(log, capacity, k) ensures sequence < Lost(log, capacity) {
        DroppedAreOldest(log, capacity, k);
      }
    }
  }

  /** A negative cursor is told to reset although nothing was lost. */
  lemma NegativeCursorResets(capacity: nat)
    ensures After([], capacity, -1).reset && forall k :: !Dropped([], capacity, k)
  {
  }

  // A poller that asks for what follows the cursor of the last reply.

  datatype Step = Appends(event: WebEvent) | Polls

  datatype Poller = Poller(log: seq<WebEvent>, cursor: nat, received: seq<WebEvent>, resets: nat)

  function Events(stored: seq<Stored>): (es: seq<WebEvent>)
    ensures |es| == |stored|
    ensures forall i :: 0 <= i < |es| ==> es[i] == stored[i].event
  {
    seq(|stored|, i requires 0 <= i < |stored| => stored[i].event)
  }

  function Next(capacity: nat, p: Poller, step: Step): Poller {
    match step
    case Appends(e) => p.(log := p.log + [e])
    case Polls =>
      var r := After(p.log, capacity, p.cursor);
      Poller(p.log, r.cursor, p.received + Events(r.events), if r.reset then p.resets + 1 else p.resets)
  }

  function Run(capacity: nat, p: Poller, steps: seq<Step>): Poller
    decreases |steps|
  {
    if steps == [] then p else Run(capacity, Next(capacity, p, steps[0]), steps[1..])
  }

  /** What was received is exactly the log up to the cursor, unless a reset was reported. */
  ghost predicate Faithful(p: Poller) {
    p.cursor <= |p.log| && (p.resets == 0 ==> p.received == p.log[..p.cursor])
  }

  lemma NextIsFaithful(capacity: nat, p: Poller, step: Step)
    requires Faithful(p)
    ensures Faithful(Next(capacity, p, step)) && Next(capacity, p, step).resets >= p.resets
  {
    match step
    case Appends(e) => assert (p.log + [e])[..p.cursor] == p.log[..p.cursor];
    case Polls =>
      var r := After(p.log, capacity, p.cursor);
      if !r.reset {
        assert Events(r.events) == p.log[p.cursor..];
        assert p.log[..p.cursor] + p.log[p.cursor..] == p.log == p.log[..|p.log|];
      }
  }

  lemma {:induction false} RunIsFaithful(capacity: nat, p: Poller, steps: seq<Step>)
    requires Faithful(p)
    ensures Faithful(Run(capacity, p, steps)) && Run(capacity, p, steps).resets >= p.resets
    decreases |steps|
  {
    if steps != [] {
      NextIsFaithful(capacity, p, steps[0]);
      RunIsFaithful(capacity, Next(capacity, p, steps[0]), steps[1..]);
    }
  }

  /** A poller sees every event exactly once and in order, as long as no reset is reported. */
  lemma PollerSeesEverythingOnce(capacity: nat, steps: seq<Step>)
    ensures var p := Run(capacity, Poller([], 0, [], 0), steps);
      p.cursor <= |p.log| && (p.resets == 0 ==> p.received == p.log[..p.cursor])
  {
    RunIsFaithful(capacity, Poller([], 0, [], 0), steps);
  }

  /** A poll reports a reset exactly when more than the capacity was appended since the last one. */
  lemma PollsResetOnlyWhenOverrun(capacity: nat, steps: seq<Step>)
    ensures var p := Run(capacity, Poller([], 0, [], 0), steps);
      After(p.log, capacity, p.cursor).reset <==> |p.log| - p.cursor > capacity
  {
    RunIsFaithful(capacity, Poller([], 0, [], 0), steps);
  }
}
