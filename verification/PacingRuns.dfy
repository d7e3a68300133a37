/**
 Return audio under concurrency: every send asks for the deadline under its
 participant's lock, sleeps and sends, and stores the new deadline. Resets take
 the same lock, the final clear of an interruption takes none, and releasing a
 participant deletes its lock while others may be waiting for it.
 */
module PacingRuns {
  import opened Seqs
  import opened Pacing

  /**
   A call that captured its participant's lock and waits for it. An interruption
   of everybody captures every lock at once.
   */
  datatype Waiter = Waiter(pid: string, lock: nat)

  /** A send in progress: what it asked for, and the playout end it found. */
  datatype Sending = Sending(pid: string, asked: Send, until: real)

  /** `sending` is keyed by the lock that the send holds. */
  datatype State = State(deadlines: map<string, real>, locks: map<string, nat>, waiting: map<nat, Waiter>,
                         sending: map<nat, Sending>, next: nat)

  const Init := State(map[], map[], map[], map[], 0)

  predicate MayEnter(s: State, call: nat) {
    call in s.waiting && s.waiting[call].lock !in s.sending
  }

  function Queue(s: State, pid: string): State {
    var locks := if pid in s.locks then s.locks else s.locks[pid := s.next];
    s.(locks := locks, waiting := s.waiting[s.next + 1 := Waiter(pid, locks[pid])], next := s.next + 2)
  }

  /** Under the lock: the send reads the deadline and starts to wait. */
  function Ask(s: State, call: nat, asked: Send): State {
    if !MayEnter(s, call) then s
    else
      var w := s.waiting[call];
      s.(waiting := Without(s.waiting, call),
         sending := s.sending[w.lock := Sending(w.pid, asked, BufferedUntil(DeadlineOf(s.deadlines, w.pid), asked))])
  }

  /** The send is out: its own reading of the deadline decides the new one, whatever happened to the table since. */
  function Store(s: State, lock: nat, sent: real): State {
    if lock !in s.sending then s
    else
      var m := s.sending[lock];
      s.(deadlines := s.deadlines[m.pid := Max(m.until, sent) + m.asked.duration], sending := Without(s.sending, lock))
  }

  function Reset(s: State, call: nat): State {
    if !MayEnter(s, call) then s
    else s.(deadlines := Without(s.deadlines, s.waiting[call].pid), waiting := Without(s.waiting, call))
  }

  /** A departed participant: the deadline and, if it is still the present one, the lock are deleted. */
  function Release(s: State, call: nat): State {
    if !MayEnter(s, call) then s
    else
      var w := s.waiting[call];
      var r := Reset(s, call);
      if w.pid in s.locks && s.locks[w.pid] == w.lock then r.(locks := Without(s.locks, w.pid)) else r
  }

  datatype Event =
    | Queues(pid: string)
    | Asks(call: nat, asked: Send)
    | Stores(lock: nat, sent: real)
    | Fails(lock: nat)
    | Abandons(call: nat)
    | Resets(call: nat)
    | Clears
    | Releases(call: nat)
    | Stops

  function Step(s: State, e: Event): State {
    match e
    case Queues(pid) => Queue(s, pid)
    case Asks(call, asked) => Ask(s, call, asked)
    case Stores(lock, sent) => Store(s, lock, sent)
    case Fails(lock) => s.(sending := Without(s.sending, lock))
    case Abandons(call) => s.(waiting := Without(s.waiting, call))
    case Resets(call) => Reset(s, call)
    case Clears => s.(deadlines := map[])
    case Releases(call) => Release(s, call)
    case Stops => s.(deadlines := map[], locks := map[])
  }

  function Run(s: State, es: seq<Event>): State
    decreases |es|
  {
    if es == [] then s else Run(Step(s, es[0]), es[1..])
  }

  // Theorem 1: sends of a participant take turns, unless its lock is deleted under a waiter.

  ghost predicate Serialized(s: State) {
    forall k, l :: k in s.sending && l in s.sending && s.sending[k].pid == s.sending[l].pid ==> k == l
  }

  ghost predicate FreshLocks(s: State) {
    && (forall c :: c in s.waiting ==> c < s.next && s.waiting[c].lock < s.next)
    && (forall p :: p in s.locks ==> s.locks[p] < s.next)
    && (forall l :: l in s.sending ==> l < s.next)
  }

  predicate Present(s: State, pid: string, lock: nat) {
    pid in s.locks && s.locks[pid] == lock
  }

  /** Whoever waits or sends does so with its participant's present lock. */
  ghost predicate Linked(s: State) {
    && (forall c :: c in s.waiting ==> Present(s, s.waiting[c].pid, s.waiting[c].lock))
    && (forall l :: l in s.sending ==> Present(s, s.sending[l].pid, l))
  }

  lemma LinkedSerializes(s: State)
    requires Linked(s)
    ensures Serialized(s)
  {
  }

  /** Nobody else waits for the lock that the release deletes; nobody at all waits or sends when everything stops. */
  ghost predicate Undisturbed(s: State, e: Event) {
    match e
    case Releases(call) =>
      call in s.waiting ==> forall c :: c in s.waiting && c != call ==> s.waiting[c].pid != s.waiting[call].pid
    case Stops => s.waiting == map[] && s.sending == map[]
    case _ => true
  }

  predicate Calm(e: Event) {
    !e.Releases? && !e.Stops?
  }

  predicate CalmRun(es: seq<Event>) {
    forall e :: e in es ==> Calm(e)
  }

  /** As long as no lock is deleted, no participant has two sends in progress. */
  ghost predicate TakesTurns(s: State) {
    forall es: seq<Event> :: CalmRun(es) ==> Serialized(Run(s, es))
  }

  lemma StepFresh(s: State, e: Event)
    requires FreshLocks(s)
    ensures FreshLocks(Step(s, e))
  {
    match e
    case Queues(pid) =>
    case Asks(call, asked) =>
    case Stores(lock, sent) =>
    case Fails(lock) =>
    case Abandons(call) =>
    case Resets(call) =>
    case Clears =>
    case Releases(call) =>
    case Stops =>
  }

  lemma StepLinked(s: State, e: Event)
    requires FreshLocks(s) && Linked(s) && Undisturbed(s, e)
    ensures Linked(Step(s, e))
  {
    match e
    case Queues(pid) =>
    case Asks(call, asked) =>
    case Stores(lock, sent) =>
    case Fails(lock) =>
    case Abandons(call) =>
    case Resets(call) =>
    case Clears =>
    case Releases(call) => ReleaseLinked(s, call);
    case Stops =>
  }

  lemma ReleaseLinked(s: State, call: nat)
    requires Linked(s) && Undisturbed(s, Releases(call))
    ensures Linked(Release(s, call))
  {
  }

  lemma {:induction false} CalmRunLinked(s: State, es: seq<Event>)
    requires FreshLocks(s) && Linked(s) && CalmRun(es)
    ensures Linked(Run(s, es))
    decreases |es|
  {
    hide FreshLocks, Linked;
    if es != [] {
      assert Calm(es[0]);
      StepFresh(s, es[0]);
      StepLinked(s, es[0]);
      CalmRunLinked(Step(s, es[0]), es[1..]);
    }
  }

  const AnySend := Send(0.0, 0.0, 0.0, 0.0)

  /** A send of `pid` that queues now gets a new lock, whoever else sends. */
  lemma NewcomerEnters(s: State, pid: string)
    requires FreshLocks(s) && pid !in s.locks
    ensures var t := Run(s, [Queues(pid), Asks(s.next + 1, AnySend)]);
      && s.next in t.sending && t.sending[s.next].pid == pid
      && forall l :: l in s.sending ==> l in t.sending && t.sending[l] == s.sending[l]
  {
    var q := Queue(s, pid);
    var es := [Queues(pid), Asks(s.next + 1, AnySend)];
    assert es[1..] == [Asks(s.next + 1, AnySend)] && es[1..][1..] == [];
    assert Run(Step(q, es[1]), []) == Step(q, es[1]);
    assert Run(q, es[1..]) == Step(q, es[1]);
  }

  lemma WaiterOverlaps(s: State, c: nat)
    requires FreshLocks(s) && MayEnter(s, c) && s.waiting[c].pid !in s.locks
    ensures !TakesTurns(s)
  {
    var pid, lock := s.waiting[c].pid, s.waiting[c].lock;
    var es := [Asks(c, AnySend), Queues(pid), Asks(s.next + 1, AnySend)];
    var t := Step(s, es[0]);
    StepFresh(s, es[0]);
    assert es[1..] == [Queues(pid), Asks(t.next + 1, AnySend)];
    NewcomerEnters(t, pid);
    assert lock in t.sending && t.sending[lock].pid == pid && lock != s.next;
    var u := Run(s, es);
    assert u == Run(t, es[1..]);
    assert lock in u.sending && s.next in u.sending && u.sending[lock].pid == u.sending[s.next].pid;
    assert CalmRun(es) && !Serialized(u);
  }

  lemma SenderOverlaps(s: State, lock: nat)
    requires FreshLocks(s) && lock in s.sending && s.sending[lock].pid !in s.locks
    ensures !TakesTurns(s)
  {
    NewcomerEnters(s, s.sending[lock].pid);
    var es := [Queues(s.sending[lock].pid), Asks(s.next + 1, AnySend)];
    var u := Run(s, es);
    assert lock in u.sending && s.next in u.sending && lock != s.next;
    assert CalmRun(es) && !Serialized(u);
  }

  lemma LinkedTakesTurns(s: State)
    requires FreshLocks(s) && Linked(s)
    ensures TakesTurns(s)
  {
    hide FreshLocks, Linked, Serialized;
    forall es | CalmRun(es) ensures Serialized(Run(s, es)) {
      CalmRunLinked(s, es);
      LinkedSerializes(Run(s, es));
    }
  }

  /** After a release, sends take turns for as long as no lock is deleted again, iff nobody else waited for it. */
  lemma ReleaseKeepsTurns(s: State, call: nat)
    requires FreshLocks(s) && Linked(s) && MayEnter(s, call)
    ensures TakesTurns(Release(s, call)) <==> Undisturbed(s, Releases(call))
  {
    hide TakesTurns;
    var r := Release(s, call);
    StepFresh(s, Releases(call));
    if Undisturbed(s, Releases(call)) {
      StepLinked(s, Releases(call));
      LinkedTakesTurns(r);
    } else {
      var c :| c in s.waiting && c != call && s.waiting[c].pid == s.waiting[call].pid;
      assert Present(s, s.waiting[c].pid, s.waiting[c].lock) && Present(s, s.waiting[call].pid, s.waiting[call].lock);
      WaiterOverlaps(r, c);
    }
  }

  /** After everything stops, iff nobody waited or sent. */
  lemma StopKeepsTurns(s: State)
    requires FreshLocks(s) && Linked(s)
    ensures TakesTurns(Step(s, Stops)) <==> Undisturbed(s, Stops)
  {
    hide TakesTurns;
    var r := Step(s, Stops);
    StepFresh(s, Stops);
    if Undisturbed(s, Stops) {
      StepLinked(s, Stops);
      LinkedTakesTurns(r);
    } else if s.sending != map[] {
      var l :| l in s.sending;
      SenderOverlaps(r, l);
    } else {
      var c :| c in s.waiting;
      WaiterOverlaps(r, c);
    }
  }

  // Theorem 2: a participant's deadline depends on its own sends and resets alone.

  /** The sends stored since the last reset, and whether the table was cleared during the present one. */
  datatype History = History(sends: seq<Send>, cleared: bool)

  predicate Sends(s: State, pid: string) {
    pid in s.locks && s.locks[pid] in s.sending && s.sending[s.locks[pid]].pid == pid
  }

  /** A clear during a send counts only if that send fails; otherwise it comes too late or too early to matter. */
  function HistoryAfter(s: State, e: Event, pid: string, h: History): History {
    match e
    case Stores(lock, sent) =>
      if lock in s.sending && s.sending[lock].pid == pid
      then History(h.sends + [s.sending[lock].asked.(sent := sent)], false) else h
    case Fails(lock) =>
      if lock in s.sending && s.sending[lock].pid == pid && h.cleared then History([], false) else h
    case Resets(call) => if MayEnter(s, call) && s.waiting[call].pid == pid then History([], false) else h
    case Releases(call) => if MayEnter(s, call) && s.waiting[call].pid == pid then History([], false) else h
    case Clears => if Sends(s, pid) then h.(cleared := true) else History([], false)
    case Stops => History([], false)
    case _ => h
  }

  function HistoryOf(s: State, es: seq<Event>, pid: string, h: History): History
    decreases |es|
  {
    if es == [] then h else HistoryOf(Step(s, es[0]), es[1..], pid, HistoryAfter(s, es[0], pid, h))
  }

  /** The step disturbs nobody, and a send's sleep is not cut short. */
  ghost predicate Orderly(s: State, e: Event) {
    && Undisturbed(s, e)
    && (e.Stores? && e.lock in s.sending ==> WaitedUntil(s.sending[e.lock], e.sent))
  }

  predicate WaitedUntil(m: Sending, sent: real) {
    var delay := Max(0.0, m.until + m.asked.duration - m.asked.now - m.asked.target);
    sent >= m.asked.now && (delay > TOLERANCE ==> sent >= m.asked.now + delay)
  }

  ghost predicate OrderlyRun(s: State, es: seq<Event>)
    decreases |es|
  {
    es != [] ==> Orderly(s, es[0]) && OrderlyRun(Step(s, es[0]), es[1..])
  }

  ghost predicate Tracks(s: State, pid: string, h: History) {
    && Paced(None, h.sends)
    && DeadlineOf(s.deadlines, pid) == (if h.cleared then None else After(None, h.sends))
    && (h.cleared ==> Sends(s, pid))
    && (Sends(s, pid) ==>
          var m := s.sending[s.locks[pid]];
          m.until == BufferedUntil(After(None, h.sends), m.asked))
  }

  lemma AppendPaced(sends: seq<Send>, x: Send)
    requires Paced(None, sends) && Waited(After(None, sends), x)
    ensures Paced(None, sends + [x]) && After(None, sends + [x]) == Some(NextDeadline(After(None, sends), x))
  {
    var all := sends + [x];
    assert all[..|sends|] == sends;
    forall i | 0 <= i < |all| ensures Waited(After(None, all[..i]), all[i]) {
      if i < |sends| { assert all[..i] == sends[..i]; }
    }
  }

  lemma StoreTracks(s: State, lock: nat, sent: real, pid: string, h: History)
    requires Linked(s) && Tracks(s, pid, h) && Orderly(s, Stores(lock, sent))
    ensures Tracks(Store(s, lock, sent), pid, HistoryAfter(s, Stores(lock, sent), pid, h))
  {
    hide Paced, After;
    if lock in s.sending && s.sending[lock].pid == pid {
      assert Present(s, pid, lock);
      AppendPaced(h.sends, s.sending[lock].asked.(sent := sent));
    }
  }

  lemma AskTracks(s: State, call: nat, asked: Send, pid: string, h: History)
    requires Linked(s) && Tracks(s, pid, h)
    ensures Tracks(Ask(s, call, asked), pid, h)
  {
    hide Paced, After;
    if MayEnter(s, call) { assert Present(s, s.waiting[call].pid, s.waiting[call].lock); }
  }

  lemma NothingTracks(s: State, pid: string)
    requires pid !in s.deadlines && !Sends(s, pid)
    ensures Tracks(s, pid, History([], false))
  {
  }

  lemma ResetTracks(s: State, call: nat, pid: string, h: History)
    requires Linked(s) && Tracks(s, pid, h)
    ensures Tracks(Reset(s, call), pid, HistoryAfter(s, Resets(call), pid, h))
    ensures Tracks(Release(s, call), pid, HistoryAfter(s, Releases(call), pid, h))
  {
    hide Paced, After;
    if MayEnter(s, call) {
      assert Present(s, s.waiting[call].pid, s.waiting[call].lock);
      if s.waiting[call].pid == pid {
        NothingTracks(Reset(s, call), pid);
        NothingTracks(Release(s, call), pid);
      }
    }
  }

  lemma ClearTracks(s: State, pid: string, h: History)
    requires Tracks(s, pid, h)
    ensures Tracks(s.(deadlines := map[]), pid, HistoryAfter(s, Clears, pid, h))
  {
    if !Sends(s, pid) { NothingTracks(s.(deadlines := map[]), pid); }
    hide Paced, After;
  }

  lemma FailTracks(s: State, lock: nat, pid: string, h: History)
    requires Linked(s) && Tracks(s, pid, h)
    ensures Tracks(Step(s, Fails(lock)), pid, HistoryAfter(s, Fails(lock), pid, h))
  {
    if lock in s.sending && s.sending[lock].pid == pid {
      assert Present(s, pid, lock);
      if h.cleared { NothingTracks(Step(s, Fails(lock)), pid); }
    }
    hide Paced, After;
  }

  lemma QueueTracks(s: State, other: string, pid: string, h: History)
    requires FreshLocks(s) && Tracks(s, pid, h)
    ensures Tracks(Queue(s, other), pid, h)
  {
    hide Paced, After;
  }

  lemma StepTracks(s: State, e: Event, pid: string, h: History)
    requires FreshLocks(s) && Linked(s) && Tracks(s, pid, h) && Orderly(s, e)
    ensures Tracks(Step(s, e), pid, HistoryAfter(s, e, pid, h))
  {
    match e
    case Queues(other) => QueueTracks(s, other, pid, h);
    case Asks(call, asked) => AskTracks(s, call, asked, pid, h);
    case Stores(lock, sent) => StoreTracks(s, lock, sent, pid, h);
    case Fails(lock) => FailTracks(s, lock, pid, h);
    case Abandons(call) => hide Paced, After;
    case Resets(call) => ResetTracks(s, call, pid, h);
    case Clears => ClearTracks(s, pid, h);
    case Releases(call) => ResetTracks(s, call, pid, h);
    case Stops => NothingTracks(Step(s, Stops), pid);
  }

  lemma {:induction false} RunTracks(s: State, es: seq<Event>, pid: string, h: History)
    requires FreshLocks(s) && Linked(s) && Tracks(s, pid, h) && OrderlyRun(s, es)
    ensures Tracks(Run(s, es), pid, HistoryOf(s, es, pid, h)) && Linked(Run(s, es))
    decreases |es|
  {
    hide FreshLocks, Linked, Tracks, Undisturbed, HistoryAfter, WaitedUntil;
    if es != [] {
      StepTracks(s, es[0], pid, h);
      StepFresh(s, es[0]);
      StepLinked(s, es[0]);
      RunTracks(Step(s, es[0]), es[1..], pid, HistoryAfter(s, es[0], pid, h));
    }
  }

  /**
   In every run that deletes no lock under a waiter, a participant's deadline is
   the one its own sends since its last reset lead to, and nothing else. A clear
   that meets a send in progress hides the deadline until the send stores it.
   */
  lemma DeadlineIsOwn(es: seq<Event>, pid: string)
    requires OrderlyRun(Init, es)
    ensures var h := HistoryOf(Init, es, pid, History([], false));
      && Paced(None, h.sends) && (h.cleared ==> Sends(Run(Init, es), pid))
      && DeadlineOf(Run(Init, es).deadlines, pid) == (if h.cleared then None else After(None, h.sends))
    ensures Serialized(Run(Init, es))
  {
    RunTracks(Init, es, pid, History([], false));
    LinkedSerializes(Run(Init, es));
  }

  // A late clear.

  const First := Send(1.0, 0.0, 0.0, 0.0)

  /**
   The final clear of an interruption takes no lock. Here the participant's own
   reset is long done and a new second of audio was just sent; the clear makes the
   next send start as if nothing were queued.
   */
  lemma LateClearForgets()
    ensures var es := [Queues("p"), Resets(1), Queues("p"), Asks(3, First), Stores(0, 0.0)];
      && DeadlineOf(Run(Init, es).deadlines, "p") == Some(1.0)
      && DeadlineOf(Step(Run(Init, es), Clears).deadlines, "p") == None
      && Delay(Some(1.0), First) == 2.0 && Delay(None, First) == 1.0
  {
    var es := [Queues("p"), Resets(1), Queues("p"), Asks(3, First), Stores(0, 0.0)];
    var s1 := Step(Init, es[0]);
    var s2 := Step(s1, es[1]);
    var s3 := Step(s2, es[2]);
    var s4 := Step(s3, es[3]);
    var s5 := Step(s4, es[4]);
    assert s1.locks == map["p" := 0] && s2.locks == map["p" := 0];
    assert s3.waiting[3] == Waiter("p", 0) && s4.sending[0] == Sending("p", First, 0.0);
    assert es[1..][1..] == es[2..] && es[2..][1..] == es[3..] && es[3..][1..] == es[4..] && es[4..][1..] == [];
    assert Run(s5, []) == s5;
    assert Run(s4, es[4..]) == s5 && Run(s3, es[3..]) == s5 && Run(s2, es[2..]) == s5;
    assert Run(s1, es[1..]) == s5;
  }
}
