/**
 The file/session orderer as an object that updates its fields in place. Every
 method performs an operation of `FileOrdering`, keeps the invariant that
 `FileOrderingRuns` proves of runs, and says what its caller gets.
 */
module FileSessionOrderers {
  import opened Seqs
  import opened FileOrdering
  import opened FileOrderingRuns

  /** Taking one more element extends the filtered prefix by that element, if it is kept. */
  lemma FilterNext<T>(xs: seq<T>, i: nat, keep: T -> bool)
    requires i < |xs|
    ensures Filter(xs[..i + 1], keep) == Filter(xs[..i], keep) + (if keep(xs[i]) then [xs[i]] else [])
  {
    assert xs[..i + 1] == xs[..i] + [xs[i]];
    FilterConcat(xs[..i], [xs[i]], keep);
  }

  /** Counting leading elements one at a time reaches `Leading`. */
  lemma {:induction false} LeadingIs<T>(xs: seq<T>, gone: T -> bool, n: nat)
    requires n <= |xs| && forall i :: 0 <= i < n ==> gone(xs[i])
    requires n == |xs| || !gone(xs[n])
    ensures Leading(xs, gone) == n
  {
  }

  const NoLog := Log([], [], [], [], [], [])

  /** What every operation keeps, whatever the clock does and under a steady clock. */
  lemma StepKeepsValid(cfg: Config, s: State, clock: real, steady: bool, now: real, event: Event)
    requires Inv(cfg, s) && (steady ==> Ordered(cfg, s, clock))
    ensures var t := StepPruned(cfg, World(Prune(s, now), NoLog, now), event).state;
      Inv(cfg, t) && (steady && clock <= now ==> Ordered(cfg, t, now))
  {
    hide Inv, Ordered, StepPruned, Prune;
    var p := World(Prune(s, now), NoLog, now);
    PruneKeeps(cfg, s, now);
    StepKeepsInv(cfg, p, event);
    KeepsClock(cfg, p, event);
    if steady && clock <= now {
      PruneKeepsOrder(cfg, s, clock, now);
      StepKeepsOrder(cfg, p, event);
    }
  }

  class FileSessionOrderer {
    const cfg: Config
    var active: map<string, string>
    var pending: seq<PendingFile>
    var departed: seq<Departure>
    var expired: seq<FileMessage>
    /** The last clock reading, and whether no reading was before the one preceding it. */
    ghost var clock: real
    ghost var steady: bool

    function Contents(): State
      reads this
    {
      State(active, pending, departed, expired)
    }

    ghost predicate Valid()
      reads this
    {
      Inv(cfg, Contents()) && (steady ==> Ordered(cfg, Contents(), clock))
    }

    constructor (cfg: Config, ghost clock: real)
      ensures Valid() && Contents() == Empty && this.cfg == cfg && this.clock == clock && steady
    {
      this.cfg := cfg;
      active, pending, departed, expired := map[], [], [], [];
      this.clock, steady := clock, true;
    }

    method PruneAt(now: real)
      modifies this`pending, this`departed, this`expired
      ensures Contents() == Prune(old(Contents()), now)
    {
      ghost var n := 0;
      while pending != [] && pending[0].deadline <= now
        invariant n <= |old(pending)| && pending == old(pending)[n..]
        invariant forall i :: 0 <= i < n ==> PendingDue(now)(old(pending)[i])
        invariant expired == old(expired) + Messages(old(pending)[..n])
        invariant active == old(active) && departed == old(departed)
        decreases |pending|
      {
        expired := expired + [pending[0].message];
        pending := pending[1..];
        n := n + 1;
        assert Messages(old(pending)[..n]) == Messages(old(pending)[..n - 1]) + [old(pending)[n - 1].message];
      }
      LeadingIs(old(pending), PendingDue(now), n);
      ghost var k := 0;
      while departed != []
        invariant k <= |old(departed)| && departed == old(departed)[k..]
        invariant forall i :: 0 <= i < k ==> DepartureDue(now)(old(departed)[i])
        invariant active == old(active) && pending == old(pending)[n..]
        invariant expired == old(expired) + Messages(old(pending)[..n])
        decreases |departed|
      {
        if departed[0].deadline > now {
          break;
        }
        departed := departed[1..];
        k := k + 1;
      }
      LeadingIs(old(departed), DepartureDue(now), k);
    }

    method RecordDeparture(pid: string, sid: string, now: real)
      modifies this`departed
      ensures departed == Record(cfg, old(departed), Session(pid, sid), now)
    {
      var session := Session(pid, sid);
      departed := Filter(departed, OtherSession(session)) + [Departure(session, now + cfg.departureTtl)];
      ghost var all := departed;
      ghost var k := 0;
      while |departed| > cfg.maxDepartures
        invariant k <= |all| && departed == all[k..]
        invariant k > 0 ==> |departed| >= cfg.maxDepartures
        decreases |departed|
      {
        departed := departed[1..];
        k := k + 1;
      }
    }

    /** A file is ready iff its participant is active for it; one that must wait is last in the queue. */
    method RouteFile(message: FileMessage, now: real) returns (route: FileRoute)
      requires Valid()
      modifies this
      ensures Valid() && clock == now && steady == (old(steady) && old(clock) <= now)
      ensures (Contents(), route) == Route(cfg, old(Contents()), message, now)
      ensures route == Ready ==> Deliverable(active, message)
      ensures route == Buffered ==>
        && pending != [] && pending[|pending| - 1] == PendingFile(message, now + cfg.pendingTtl)
        && !Deliverable(active, message) && |pending| <= cfg.maxPending
    {
      hide Inv, Ordered, Prune;
      StepKeepsValid(cfg, Contents(), clock, steady, now, RouteEvent(message));
      steady, clock := steady && clock <= now, now;
      PruneAt(now);
      if message.sessionId != "" && Departed(departed, SessionOf(message)) {
        return Inactive;
      }
      if && message.participantId in active
         && (message.sessionId == "" || message.sessionId == active[message.participantId])
      {
        return Ready;
      }
      if |pending| >= cfg.maxPending {
        return Full;
      }
      pending := pending + [PendingFile(message, now + cfg.pendingTtl)];
      return Buffered;
    }

    /** The loop of `participant_joined` that takes the queue apart. */
    method ReleaseOnJoin(pid: string, sid: string) returns (ready: seq<FileMessage>, inactive: seq<FileMessage>)
      modifies this`pending
      ensures pending == Filter(old(pending), KeptByJoin(pid, sid, departed))
      ensures ready == Messages(Filter(old(pending), ReleasedBy(pid, sid)))
      ensures inactive == Messages(Filter(old(pending), RefusedBy(pid, sid, departed)))
    {
      ghost var i := 0;
      ghost var released, refused := [], [];
      var retained := [];
      ready, inactive := [], [];
      while pending != []
        invariant i <= |old(pending)| && pending == old(pending)[i..]
        invariant released == Filter(old(pending)[..i], ReleasedBy(pid, sid)) && ready == Messages(released)
        invariant refused == Filter(old(pending)[..i], RefusedBy(pid, sid, departed))
        invariant inactive == Messages(refused)
        invariant retained == Filter(old(pending)[..i], KeptByJoin(pid, sid, departed))
        decreases |pending|
      {
        var next := pending[0];
        pending := pending[1..];
        var message := next.message;
        FilterNext(old(pending), i, ReleasedBy(pid, sid));
        FilterNext(old(pending), i, RefusedBy(pid, sid, departed));
        FilterNext(old(pending), i, KeptByJoin(pid, sid, departed));
        if message.participantId != pid {
          retained := retained + [next];
        } else if message.sessionId == "" || message.sessionId == sid {
          ready := ready + [message];
          released := released + [next];
        } else if Departed(departed, Session(pid, message.sessionId)) {
          inactive := inactive + [message];
          refused := refused + [next];
        } else {
          retained := retained + [next];
        }
        i := i + 1;
      }
      assert old(pending)[..i] == old(pending);
      pending := retained;
    }

    /** The files released are deliverable now, and none is ever refused. */
    method ParticipantJoined(pid: string, sid: string, now: real)
      returns (ready: seq<FileMessage>, inactive: seq<FileMessage>)
      requires Valid()
      modifies this
      ensures Valid() && clock == now && steady == (old(steady) && old(clock) <= now)
      ensures Joined(Contents(), ready, inactive) == Join(cfg, old(Contents()), pid, sid, now)
      ensures inactive == [] && pid in active && active[pid] == sid
      ensures forall m :: m in ready ==> m.participantId == pid && Deliverable(active, m)
      ensures forall p :: p in pending ==> !Deliverable(active, p.message)
    {
      hide Inv, Ordered, Prune, Record, Filter, Messages, Departed, Deliverable;
      ghost var s := Contents();
      StepKeepsValid(cfg, s, clock, steady, now, JoinEvent(pid, sid));
      JoinRefuses(cfg, s, pid, sid, now);
      steady, clock := steady && clock <= now, now;
      PruneAt(now);
      ghost var p := Contents();
      if pid in active && active[pid] != "" && active[pid] != sid {
        RecordDeparture(pid, active[pid], now);
      }
      active := active[pid := sid];
      departed := Filter(departed, OtherSession(Session(pid, sid)));
      assert departed == JoinDepartures(cfg, p, pid, sid, now);
      ready, inactive := ReleaseOnJoin(pid, sid);
      assert Joined(Contents(), ready, inactive) == JoinPruned(cfg, p, pid, sid, now);
    }

    /** The loop of `participant_left` that takes the queue apart. */
    method DiscardOnLeave(pid: string, sid: string) returns (discarded: seq<FileMessage>)
      modifies this`pending
      ensures pending == Filter(old(pending), NotOfSession(Session(pid, sid)))
      ensures discarded == Messages(Filter(old(pending), OfSession(Session(pid, sid))))
    {
      ghost var i := 0;
      ghost var gone := [];
      var retained := [];
      discarded := [];
      while pending != []
        invariant i <= |old(pending)| && pending == old(pending)[i..]
        invariant gone == Filter(old(pending)[..i], OfSession(Session(pid, sid))) && discarded == Messages(gone)
        invariant retained == Filter(old(pending)[..i], NotOfSession(Session(pid, sid)))
        decreases |pending|
      {
        var next := pending[0];
        pending := pending[1..];
        FilterNext(old(pending), i, OfSession(Session(pid, sid)));
        FilterNext(old(pending), i, NotOfSession(Session(pid, sid)));
        if next.message.participantId == pid && next.message.sessionId == sid {
          discarded := discarded + [next.message];
          gone := gone + [next];
        } else {
          retained := retained + [next];
        }
        i := i + 1;
      }
      assert old(pending)[..i] == old(pending);
      pending := retained;
    }

    /** No file of the session waits any more, and the next one is refused. */
    method ParticipantLeft(pid: string, sid: string, now: real) returns (discarded: seq<FileMessage>)
      requires Valid()
      modifies this
      ensures Valid() && clock == now && steady == (old(steady) && old(clock) <= now)
      ensures Left(Contents(), discarded) == Leave(cfg, old(Contents()), pid, sid, now)
      ensures forall p :: p in pending ==> SessionOf(p.message) != Session(pid, sid)
      ensures forall m :: m in discarded ==> SessionOf(m) == Session(pid, sid)
      ensures sid != "" && cfg.maxDepartures > 0 ==> Departed(departed, Session(pid, sid))
    {
      hide Inv, Ordered, Prune, Record, Filter, Messages, Departed, Without;
      ghost var s := Contents();
      StepKeepsValid(cfg, s, clock, steady, now, LeaveEvent(pid, sid));
      LeaveDiscards(cfg, s, pid, sid, now);
      steady, clock := steady && clock <= now, now;
      PruneAt(now);
      ghost var p := Contents();
      if pid in active && active[pid] == sid {
        active := Without(active, pid);
      }
      if sid != "" {
        RecordDeparture(pid, sid, now);
      }
      assert active == LeaveActive(p.active, pid, sid) && departed == LeaveDepartures(cfg, p, pid, sid, now);
      discarded := DiscardOnLeave(pid, sid);
      assert Left(Contents(), discarded) == LeavePruned(cfg, p, pid, sid, now);
    }

    /** Every expired file is handed out once; under a steady clock nothing that waits is due. */
    method DrainExpired(now: real) returns (files: seq<FileMessage>)
      requires Valid()
      modifies this
      ensures Valid() && clock == now && steady == (old(steady) && old(clock) <= now)
      ensures (Contents(), files) == Expire(old(Contents()), now)
      ensures expired == [] && (steady ==> forall p :: p in pending ==> p.deadline > now)
    {
      hide Inv, Ordered, Prune;
      ghost var s := Contents();
      StepKeepsValid(cfg, s, clock, steady, now, ExpireEvent);
      if steady && clock <= now { NothingDueWaits(cfg, s, clock, now); }
      steady, clock := steady && clock <= now, now;
      PruneAt(now);
      files := expired;
      expired := [];
    }

    /** The wait before the next expiry: under a steady clock it reaches the earliest deadline and no further. */
    method SecondsUntilExpiry(now: real) returns (wait: Option<real>)
      requires Valid()
      ensures wait.None? <==> expired == [] && pending == []
      ensures expired != [] ==> wait == Some(0.0)
      ensures expired == [] && pending != [] && steady ==>
        && wait.value >= 0.0
        && (forall i :: 0 <= i < |pending| ==> wait.value == 0.0 || now + wait.value <= pending[i].deadline)
        && (exists i :: 0 <= i < |pending| && pending[i].deadline <= now + wait.value)
    {
      if expired != [] {
        return Some(0.0);
      }
      if pending == [] {
        return None;
      }
      var left := pending[0].deadline - now;
      if steady {
        HeadIsEarliest(pending);
        assert pending[0].deadline <= now + if left > 0.0 then left else 0.0;
      }
      return Some(if left > 0.0 then left else 0.0);
    }
  }

  lemma HeadIsEarliest(ps: seq<PendingFile>)
    requires SortedPending(ps) && ps != []
    ensures forall i :: 0 <= i < |ps| ==> ps[0].deadline <= ps[i].deadline
  {
    forall i | 0 < i < |ps| ensures ps[0].deadline <= ps[i].deadline {
      assert NoLater()(ps[0], ps[i]);
    }
  }

  lemma JoinRefuses(cfg: Config, s: State, pid: string, sid: string, now: real)
    requires Inv(cfg, s)
    ensures var j := Join(cfg, s, pid, sid, now);
      && j.inactive == [] && (forall p :: p in j.state.pending ==> !Deliverable(j.state.active, p.message))
      && forall m :: m in j.ready ==> m.participantId == pid && Deliverable(j.state.active, m)
  {
    var p := Prune(s, now);
    PruneKeeps(cfg, s, now);
    JoinKeeps(cfg, p, pid, sid, now);
    hide Prune, WellFormedDepartures, NoneDeparted, JoinDepartures;
    var j := Join(cfg, s, pid, sid, now);
    forall m | m in j.ready ensures m.participantId == pid && Deliverable(j.state.active, m) {
      var released := Filter(p.pending, ReleasedBy(pid, sid));
      var i :| 0 <= i < |released| && released[i].message == m;
      FilterMember(p.pending, ReleasedBy(pid, sid), released[i]);
    }
  }

  lemma LeaveDiscards(cfg: Config, s: State, pid: string, sid: string, now: real)
    ensures var l := Leave(cfg, s, pid, sid, now);
      && (forall p :: p in l.state.pending ==> SessionOf(p.message) != Session(pid, sid))
      && (forall m :: m in l.discarded ==> SessionOf(m) == Session(pid, sid))
      && (sid != "" && cfg.maxDepartures > 0 ==> Departed(l.state.departed, Session(pid, sid)))
  {
    hide Prune;
    var p, session := Prune(s, now), Session(pid, sid);
    var l := Leave(cfg, s, pid, sid, now);
    forall q | q in l.state.pending ensures SessionOf(q.message) != session {
      FilterMember(p.pending, NotOfSession(session), q);
    }
    var gone := Filter(p.pending, OfSession(session));
    forall m | m in l.discarded ensures SessionOf(m) == session {
      var i :| 0 <= i < |gone| && gone[i].message == m;
      FilterMember(p.pending, OfSession(session), gone[i]);
    }
    if sid != "" && cfg.maxDepartures > 0 {
      var recorded := Record(cfg, p.departed, session, now);
      assert recorded[|recorded| - 1] == Departure(session, now + cfg.departureTtl);
    }
  }

  lemma NothingDueWaits(cfg: Config, s: State, clock: real, now: real)
    requires Ordered(cfg, s, clock)
    ensures forall p :: p in Prune(s, now).pending ==> p.deadline > now
  {
    PrefixSplits(s.pending, PendingDue(now), PendingLive(now), NoLater());
  }
}
