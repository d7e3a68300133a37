/**
 How long a departed session is remembered, and so how long its late files are
 refused: until it rejoins, its time limit passes, or the bounded list of
 departed sessions pushes it out.
 */
module FileOrderingMemory {
  import opened Seqs
  import opened FileOrdering
  import opened FileOrderingRuns

  // Remembered at least as long as few others departed.

  /** The sessions that one step records as departed. */
  function RecordedBy(w: World, event: Event): set<Session> {
    match event
    case JoinEvent(pid, sid) =>
      if Supersedes(w.state.active, pid, sid) then {Session(pid, w.state.active[pid])} else {}
    case LeaveEvent(pid, sid) => if sid != "" then {Session(pid, sid)} else {}
    case _ => {}
  }

  function Recorded(cfg: Config, w: World, es: seq<Timed>): set<Session>
    decreases |es|
  {
    if es == [] then {}
    else RecordedBy(Pruned(w, es[0].now), es[0].event) + Recorded(cfg, Step(cfg, w, es[0]), es[1..])
  }

  /** `s` is in the list until at least `until`, and everything behind it departed `since`. */
  ghost predicate Holds(ds: seq<Departure>, s: Session, since: set<Session>, until: real) {
    exists i :: HoldsAt(ds, i, s, since, until)
  }

  ghost predicate HoldsAt(ds: seq<Departure>, i: int, s: Session, since: set<Session>, until: real) {
    && 0 <= i < |ds| && ds[i].session == s && ds[i].deadline >= until
    && forall d :: d in ds[i + 1..] ==> d.session in since
  }

  lemma {:induction false} DistinctSessionsFit(ds: seq<Departure>, sessions: set<Session>)
    requires Pairwise(ds, DifferentSession())
    requires forall d :: d in ds ==> d.session in sessions
    ensures |ds| <= |sessions|
  {
    if ds != [] {
      forall d | d in ds[1..] ensures d.session in sessions - {ds[0].session} {
        var i :| 0 <= i < |ds[1..]| && ds[1..][i] == d;
        assert DifferentSession()(ds[0], ds[i + 1]);
      }
      DistinctSessionsFit(ds[1..], sessions - {ds[0].session});
    }
  }

  lemma PruneHolds(w: World, now: real, s: Session, since: set<Session>, until: real)
    requires Holds(w.state.departed, s, since, until) && now < until
    ensures Holds(Pruned(w, now).state.departed, s, since, until)
  {
    var ds := w.state.departed;
    var i :| HoldsAt(ds, i, s, since, until);
    var k := Leading(ds, DepartureDue(now));
    assert k <= i by {
      assert !DepartureDue(now)(ds[i]);
    }
    HoldsAtDrop(ds, k, i, s, since, until);
  }

  /** Removing another session keeps `s` and what is behind it. */
  lemma FilterHolds(ds: seq<Departure>, r: Session, s: Session, since: set<Session>, until: real)
    requires Holds(ds, s, since, until) && r != s
    ensures Holds(Filter(ds, OtherSession(r)), s, since, until)
  {
    var i :| HoldsAt(ds, i, s, since, until);
    var before, after := Filter(ds[..i], OtherSession(r)), Filter(ds[i + 1..], OtherSession(r));
    assert ds == ds[..i] + ([ds[i]] + ds[i + 1..]);
    FilterConcat(ds[..i], [ds[i]] + ds[i + 1..], OtherSession(r));
    FilterConcat([ds[i]], ds[i + 1..], OtherSession(r));
    assert Filter([ds[i]], OtherSession(r)) == [ds[i]];
    var all := Filter(ds, OtherSession(r));
    assert all == before + ([ds[i]] + after);
    assert all[|before| + 1..] == after;
    forall d | d in after ensures d.session in since {
      FilterMember(ds[i + 1..], OtherSession(r), d);
    }
    assert HoldsAt(all, |before|, s, since, until);
  }

  lemma RecordHolds(cfg: Config, ds: seq<Departure>, r: Session, now: real,
                    s: Session, since: set<Session>, until: real)
    requires WellFormedDepartures(cfg, ds) && r in since
    requires Holds(ds, s, since, until) && until <= now + cfg.departureTtl
    requires |since - {s}| < cfg.maxDepartures
    ensures Holds(Record(cfg, ds, r, now), s, since, until)
  {
    hide Filter, Newest;
    if r == s {
      RecordStartsHold(cfg, ds, s, now, since, until);
    } else {
      var entry := Departure(r, now + cfg.departureTtl);
      var others := Filter(ds, OtherSession(r));
      var all := others + [entry];
      FilterHolds(ds, r, s, since, until);
      var i :| HoldsAt(others, i, s, since, until);
      assert all[i + 1..] == others[i + 1..] + [entry];
      assert HoldsAt(all, i, s, since, until);
      DistinctAll(cfg, ds, r, now);
      NewestHolds(all, i, cfg.maxDepartures, s, since, until);
    }
  }

  /** Only as many sessions as departed since can push `s` out. */
  lemma NewestHolds(all: seq<Departure>, i: int, limit: nat, s: Session, since: set<Session>, until: real)
    requires Pairwise(all, DifferentSession()) && HoldsAt(all, i, s, since, until) && |since - {s}| < limit
    ensures Holds(Newest(all, limit), s, since, until)
  {
    BehindFits(all, i, s, since, until);
    HoldsAtDrop(all, if |all| <= limit then 0 else |all| - limit, i, s, since, until);
  }

  /** What is behind `s` are sessions that departed since, each once. */
  lemma BehindFits(all: seq<Departure>, i: int, s: Session, since: set<Session>, until: real)
    requires Pairwise(all, DifferentSession()) && HoldsAt(all, i, s, since, until)
    ensures |all| - i - 1 <= |since - {s}|
  {
    var behind := all[i + 1..];
    forall d | d in behind ensures d.session in since - {s} {
      var j :| i + 1 <= j < |all| && all[j] == d;
      assert DifferentSession()(all[i], all[j]);
    }
    DistinctSessionsFit(behind, since - {s});
  }

  /** Dropping entries in front of `s` changes only its position. */
  lemma HoldsAtDrop(ds: seq<Departure>, k: nat, i: int, s: Session, since: set<Session>, until: real)
    requires HoldsAt(ds, i, s, since, until) && k <= i
    ensures Holds(ds[k..], s, since, until)
  {
    assert ds[k..][i - k + 1..] == ds[i + 1..];
    assert HoldsAt(ds[k..], i - k, s, since, until);
  }

  /** Recording a departure puts it last, where nothing is behind it. */
  lemma RecordStartsHold(cfg: Config, ds: seq<Departure>, s: Session, now: real, since: set<Session>, until: real)
    requires cfg.maxDepartures > 0 && until <= now + cfg.departureTtl
    ensures Holds(Record(cfg, ds, s, now), s, since, until)
  {
    var recorded := Record(cfg, ds, s, now);
    var last := |recorded| - 1;
    assert recorded[last] == Departure(s, now + cfg.departureTtl);
    assert recorded[last + 1..] == [];
    assert HoldsAt(recorded, last, s, since, until);
  }

  lemma DistinctAll(cfg: Config, ds: seq<Departure>, r: Session, now: real)
    requires Pairwise(ds, DifferentSession())
    ensures Pairwise(Filter(ds, OtherSession(r)) + [Departure(r, now + cfg.departureTtl)], DifferentSession())
  {
    var others := Filter(ds, OtherSession(r));
    FilterPairwise(ds, OtherSession(r), DifferentSession());
    forall i | 0 <= i < |others| ensures others[i].session != r {
      FilterMember(ds, OtherSession(r), others[i]);
    }
  }

  lemma StepHolds(cfg: Config, w: World, event: Event, s: Session, since: set<Session>, until: real)
    requires Inv(cfg, w.state) && Holds(w.state.departed, s, since, until)
    requires until <= w.clock + cfg.departureTtl
    requires RecordedBy(w, event) <= since && |since - {s}| < cfg.maxDepartures
    requires event != JoinEvent(s.participantId, s.sessionId)
    ensures Holds(StepPruned(cfg, w, event).state.departed, s, since, until)
  {
    var ds := w.state.departed;
    match event
    case RouteEvent(m) =>
    case JoinEvent(pid, sid) =>
      if Supersedes(w.state.active, pid, sid) {
        var r := Session(pid, w.state.active[pid]);
        assert r in RecordedBy(w, event);
        RecordHolds(cfg, ds, r, w.clock, s, since, until);
        FilterHolds(Record(cfg, ds, r, w.clock), Session(pid, sid), s, since, until);
      } else {
        FilterHolds(ds, Session(pid, sid), s, since, until);
      }
    case LeaveEvent(pid, sid) =>
      if sid != "" {
        assert Session(pid, sid) in RecordedBy(w, event);
        RecordHolds(cfg, ds, Session(pid, sid), w.clock, s, since, until);
      }
    case ExpireEvent =>
  }

  lemma {:induction false} RunHolds(cfg: Config, w: World, es: seq<Timed>, s: Session, since: set<Session>, until: real)
    requires Inv(cfg, w.state) && Holds(w.state.departed, s, since, until)
    requires until <= w.clock + cfg.departureTtl && Monotone(w.clock, es)
    requires forall e :: e in es ==> e.now < until && e.event != JoinEvent(s.participantId, s.sessionId)
    requires Recorded(cfg, w, es) <= since && |since - {s}| < cfg.maxDepartures
    ensures Holds(Run(cfg, w, es).state.departed, s, since, until)
    decreases |es|
  {
    if es != [] {
      var p := Pruned(w, es[0].now);
      PruneKeeps(cfg, w.state, es[0].now);
      PruneHolds(w, es[0].now, s, since, until);
      StepHolds(cfg, p, es[0].event, s, since, until);
      StepKeepsInv(cfg, p, es[0].event);
      RunHolds(cfg, Step(cfg, w, es[0]), es[1..], s, since, until);
    }
  }

  /** A leave, or a join that supersedes the session, puts it last among the departed. */
  lemma RecordingHolds(cfg: Config, p: World, e: Event, s: Session, since: set<Session>)
    requires s in RecordedBy(p, e) && cfg.maxDepartures > 0
    ensures Holds(StepPruned(cfg, p, e).state.departed, s, since, p.clock + cfg.departureTtl)
  {
    hide Holds, Record;
    var until := p.clock + cfg.departureTtl;
    RecordStartsHold(cfg, p.state.departed, s, p.clock, since, until);
    match e
    case JoinEvent(pid, sid) =>
      FilterHolds(Record(cfg, p.state.departed, s, p.clock), Session(pid, sid), s, since, until);
    case LeaveEvent(pid, sid) =>
    case RouteEvent(m) =>
    case ExpireEvent =>
  }

  /** The world right after event `e`, which records a departure. */
  function AfterDeparture(cfg: Config, u: World, e: Event, left: real): World {
    Step(cfg, u, Timed(left, e))
  }

  /**
   A session that departs at `left`, by leaving or because a join of another
   session supersedes it, is refused by every later route, as long as it has not
   rejoined, its time limit has not passed, and fewer than `maxDepartures` other
   sessions departed since.
   */
  lemma DepartedIsRefused(cfg: Config, clock: real, before: seq<Timed>, e: Event, s: Session, left: real,
                          after: seq<Timed>, m: FileMessage, now: real)
    requires s in RecordedBy(Pruned(Run(cfg, Start(clock), before), left), e) && SessionOf(m) == s
    requires Monotone(left, after) && now < left + cfg.departureTtl
    requires forall t :: t in after ==> t.now <= now && t.event != JoinEvent(s.participantId, s.sessionId)
    requires |Recorded(cfg, AfterDeparture(cfg, Run(cfg, Start(clock), before), e, left), after) - {s}|
             < cfg.maxDepartures
    ensures Route(cfg, Run(cfg, AfterDeparture(cfg, Run(cfg, Start(clock), before), e, left), after).state, m, now).1
            == Inactive
  {
    hide Prune, Recorded, RecordedBy, StepPruned, Run, Inv, Holds, Route;
    var p := Pruned(Run(cfg, Start(clock), before), left);
    var since := Recorded(cfg, StepPruned(cfg, p, e), after);
    ReachableInvariant(cfg, clock, before);
    PruneKeeps(cfg, Run(cfg, Start(clock), before).state, left);
    StepKeepsInv(cfg, p, e);
    RecordingHolds(cfg, p, e, s, since);
    assert s.sessionId != "" by { RecordedIsNamed(p, e, s); }
    KeepsClock(cfg, p, e);
    RefusedWhileHeld(cfg, StepPruned(cfg, p, e), after, s, m, now, left + cfg.departureTtl);
  }

  lemma RefusedWhileHeld(cfg: Config, w: World, after: seq<Timed>, s: Session, m: FileMessage, now: real, until: real)
    requires Inv(cfg, w.state) && Holds(w.state.departed, s, Recorded(cfg, w, after), until)
    requires SessionOf(m) == s && s.sessionId != "" && Monotone(w.clock, after)
    requires until <= w.clock + cfg.departureTtl && now < until
    requires forall t :: t in after ==> t.now <= now && t.event != JoinEvent(s.participantId, s.sessionId)
    requires |Recorded(cfg, w, after) - {s}| < cfg.maxDepartures
    ensures Route(cfg, Run(cfg, w, after).state, m, now).1 == Inactive
  {
    hide Prune, Recorded;
    RunHolds(cfg, w, after, s, Recorded(cfg, w, after), until);
    PruneHolds(Run(cfg, w, after), now, s, Recorded(cfg, w, after), until);
  }

  lemma RecordedIsNamed(p: World, e: Event, s: Session)
    requires s in RecordedBy(p, e)
    ensures s.sessionId != ""
  {
  }

  // Exactly how long.

  /**
   The sessions remembered behind `s`: those that departed after it and have not
   rejoined. A join records the session it supersedes before it forgets its own.
   */
  function Peak(p: World, event: Event, behind: set<Session>): set<Session> {
    behind + RecordedBy(p, event)
  }

  function BehindAfter(p: World, event: Event, behind: set<Session>): set<Session> {
    if event.JoinEvent? then Peak(p, event, behind) - {Session(event.pid, event.sid)} else Peak(p, event, behind)
  }

  /** At no time of the run are as many sessions behind `s` as the list may hold. */
  ghost predicate Room(cfg: Config, w: World, es: seq<Timed>, behind: set<Session>)
    decreases |es|
  {
    es != [] ==>
      var p := Pruned(w, es[0].now);
      |Peak(p, es[0].event, behind)| < cfg.maxDepartures
      && Room(cfg, Step(cfg, w, es[0]), es[1..], BehindAfter(p, es[0].event, behind))
  }

  predicate Rejoins(es: seq<Timed>, s: Session) {
    exists e :: e in es && e.event == JoinEvent(s.participantId, s.sessionId)
  }

  function Sessions(ds: seq<Departure>): set<Session> {
    set d | d in ds :: d.session
  }

  /** `s` is in the list with this deadline, and `behind` are the sessions after it. */
  ghost predicate Stands(ds: seq<Departure>, s: Session, until: real, behind: set<Session>) {
    exists i :: StandsAt(ds, i, s, until, behind)
  }

  ghost predicate StandsAt(ds: seq<Departure>, i: int, s: Session, until: real, behind: set<Session>) {
    0 <= i < |ds| && ds[i] == Departure(s, until) && Sessions(ds[i + 1..]) == behind
  }

  lemma SessionsMember(ds: seq<Departure>, s: Session)
    ensures s in Sessions(ds) <==> Departed(ds, s)
  {
    DepartedMember(ds, s);
  }

  /** Different sessions are counted once each. */
  lemma {:induction false} SessionsCount(ds: seq<Departure>)
    requires Pairwise(ds, DifferentSession())
    ensures |Sessions(ds)| == |ds|
  {
    if ds != [] {
      var rest := ds[1..];
      assert ds == [ds[0]] + rest;
      forall i, j | 0 <= i < j < |rest| ensures DifferentSession()(rest[i], rest[j]) {
        assert DifferentSession()(ds[i + 1], ds[j + 1]);
      }
      SessionsCount(rest);
      forall i | 0 <= i < |rest| ensures rest[i].session != ds[0].session {
        assert DifferentSession()(ds[0], ds[i + 1]);
      }
      assert Sessions(ds) == {ds[0].session} + Sessions(rest);
    }
  }

  /** Dropping entries from the front forgets `s` exactly when its own goes. */
  lemma DropStands(ds: seq<Departure>, k: nat, i: int, s: Session, until: real, behind: set<Session>)
    requires Pairwise(ds, DifferentSession()) && StandsAt(ds, i, s, until, behind) && k <= |ds|
    ensures if k <= i then Stands(ds[k..], s, until, behind) else !Departed(ds[k..], s)
  {
    if k <= i {
      assert ds[k..][i - k + 1..] == ds[i + 1..];
      assert StandsAt(ds[k..], i - k, s, until, behind);
    } else {
      forall j | k <= j < |ds| ensures ds[j].session != s {
        assert DifferentSession()(ds[i], ds[j]);
      }
    }
  }

  lemma SessionsOfFilter(ds: seq<Departure>, r: Session)
    ensures Sessions(Filter(ds, OtherSession(r))) == Sessions(ds) - {r}
  {
    forall d ensures d in Filter(ds, OtherSession(r)) <==> d in ds && d.session != r {
      FilterMember(ds, OtherSession(r), d);
    }
  }

  lemma FilterStands(ds: seq<Departure>, r: Session, s: Session, until: real, behind: set<Session>)
    requires Stands(ds, s, until, behind) && r != s
    ensures Stands(Filter(ds, OtherSession(r)), s, until, behind - {r})
  {
    var i :| StandsAt(ds, i, s, until, behind);
    var before, after := Filter(ds[..i], OtherSession(r)), Filter(ds[i + 1..], OtherSession(r));
    assert ds == ds[..i] + ([ds[i]] + ds[i + 1..]);
    FilterConcat(ds[..i], [ds[i]] + ds[i + 1..], OtherSession(r));
    FilterConcat([ds[i]], ds[i + 1..], OtherSession(r));
    assert Filter([ds[i]], OtherSession(r)) == [ds[i]];
    var all := Filter(ds, OtherSession(r));
    assert all == before + ([ds[i]] + after);
    assert all[|before| + 1..] == after;
    SessionsOfFilter(ds[i + 1..], r);
    assert StandsAt(all, |before|, s, until, behind - {r});
  }

  lemma SessionsNext(ds: seq<Departure>, d: Departure)
    ensures Sessions(ds + [d]) == Sessions(ds) + {d.session}
  {
    assert forall x :: x in ds + [d] <==> x in ds || x == d;
  }

  lemma AppendStands(ds: seq<Departure>, i: int, s: Session, until: real, behind: set<Session>, d: Departure)
    requires StandsAt(ds, i, s, until, behind)
    ensures StandsAt(ds + [d], i, s, until, behind + {d.session})
  {
    assert (ds + [d])[i + 1..] == ds[i + 1..] + [d];
    SessionsNext(ds[i + 1..], d);
    hide Sessions;
  }

  /** As many entries as sessions are behind `s`. */
  lemma BehindCount(ds: seq<Departure>, i: int, s: Session, until: real, behind: set<Session>)
    requires Pairwise(ds, DifferentSession()) && StandsAt(ds, i, s, until, behind)
    ensures |ds| - i - 1 == |behind|
  {
    TailDistinct(ds, i + 1);
    SessionsCount(ds[i + 1..]);
    hide Sessions;
  }

  /** Recording another session pushes `s` out exactly when the list is full behind it. */
  lemma RecordStands(cfg: Config, ds: seq<Departure>, r: Session, now: real, s: Session, until: real,
                     behind: set<Session>)
    requires WellFormedDepartures(cfg, ds) && Stands(ds, s, until, behind) && r != s
    ensures if |behind + {r}| < cfg.maxDepartures then Stands(Record(cfg, ds, r, now), s, until, behind + {r})
            else !Departed(Record(cfg, ds, r, now), s)
  {
    hide Filter, WellFormedDepartures, Sessions, Departed;
    var others, entry := Filter(ds, OtherSession(r)), Departure(r, now + cfg.departureTtl);
    var all := others + [entry];
    FilterStands(ds, r, s, until, behind);
    var i :| StandsAt(others, i, s, until, behind - {r});
    AppendStands(others, i, s, until, behind - {r}, entry);
    assert behind - {r} + {r} == behind + {r};
    assert Pairwise(ds, DifferentSession()) by { WellFormedIsDistinct(cfg, ds); }
    DistinctAll(cfg, ds, r, now);
    BehindCount(all, i, s, until, behind + {r});
    hide StandsAt;
    DropStands(all, if |all| <= cfg.maxDepartures then 0 else |all| - cfg.maxDepartures, i, s, until, behind + {r});
  }

  lemma WellFormedIsDistinct(cfg: Config, ds: seq<Departure>)
    requires WellFormedDepartures(cfg, ds)
    ensures Pairwise(ds, DifferentSession())
  {
  }

  lemma TailDistinct(ds: seq<Departure>, k: nat)
    requires Pairwise(ds, DifferentSession()) && k <= |ds|
    ensures Pairwise(ds[k..], DifferentSession())
  {
  }

  lemma FilterForgets(ds: seq<Departure>, s: Session, r: Session)
    requires !Departed(ds, s)
    ensures !Departed(Filter(ds, OtherSession(r)), s)
  {
    SessionsOfFilter(ds, r);
    SessionsMember(ds, s);
    SessionsMember(Filter(ds, OtherSession(r)), s);
  }

  lemma RecordForgets(cfg: Config, ds: seq<Departure>, s: Session, r: Session, now: real)
    requires !Departed(ds, s) && r != s
    ensures !Departed(Record(cfg, ds, r, now), s)
  {
    hide Filter;
    FilterForgets(ds, s, r);
  }

  /** A session that nobody records stays forgotten. */
  lemma StepForgets(cfg: Config, p: World, event: Event, s: Session)
    requires !Departed(p.state.departed, s) && s !in RecordedBy(p, event)
    ensures !Departed(StepPruned(cfg, p, event).state.departed, s)
  {
    hide Departed, Record, Filter;
    var ds := p.state.departed;
    match event
    case RouteEvent(m) =>
    case JoinEvent(pid, sid) =>
      if Supersedes(p.state.active, pid, sid) {
        var r := Session(pid, p.state.active[pid]);
        RecordForgets(cfg, ds, s, r, p.clock);
        FilterForgets(Record(cfg, ds, r, p.clock), s, Session(pid, sid));
      } else {
        FilterForgets(ds, s, Session(pid, sid));
      }
    case LeaveEvent(pid, sid) => if sid != "" { RecordForgets(cfg, ds, s, Session(pid, sid), p.clock); }
    case ExpireEvent =>
  }

  lemma PruneForgets(w: World, now: real, s: Session)
    requires !Departed(w.state.departed, s)
    ensures !Departed(Pruned(w, now).state.departed, s)
  {
  }

  lemma {:induction false} RunForgets(cfg: Config, w: World, es: seq<Timed>, s: Session)
    requires !Departed(w.state.departed, s) && s !in Recorded(cfg, w, es)
    ensures !Departed(Run(cfg, w, es).state.departed, s)
    decreases |es|
  {
    hide Departed, StepPruned, Prune, RecordedBy;
    if es != [] {
      PruneForgets(w, es[0].now, s);
      StepForgets(cfg, Pruned(w, es[0].now), es[0].event, s);
      RunForgets(cfg, Step(cfg, w, es[0]), es[1..], s);
    }
  }

  /** One step, for a session that it does not record: it stands on unless it rejoins or the list is full behind it. */
  lemma StepStands(cfg: Config, p: World, event: Event, s: Session, until: real, behind: set<Session>)
    requires Inv(cfg, p.state) && Stands(p.state.departed, s, until, behind) && s !in RecordedBy(p, event)
    requires |behind| < cfg.maxDepartures
    ensures var ds := StepPruned(cfg, p, event).state.departed;
      if event != JoinEvent(s.participantId, s.sessionId) && |Peak(p, event, behind)| < cfg.maxDepartures
      then Stands(ds, s, until, BehindAfter(p, event, behind)) else !Departed(ds, s)
  {
    hide Stands, Departed, Record, Filter, WellFormedDepartures;
    var ds := p.state.departed;
    match event
    case RouteEvent(m) => assert Peak(p, event, behind) == behind;
    case JoinEvent(pid, sid) => JoinStands(cfg, p, pid, sid, s, until, behind);
    case LeaveEvent(pid, sid) =>
      if sid != "" { RecordStands(cfg, ds, Session(pid, sid), p.clock, s, until, behind); }
      else { assert Peak(p, event, behind) == behind; }
    case ExpireEvent => assert Peak(p, event, behind) == behind;
  }

  lemma JoinStands(cfg: Config, p: World, pid: string, sid: string, s: Session, until: real, behind: set<Session>)
    requires WellFormedDepartures(cfg, p.state.departed) && Stands(p.state.departed, s, until, behind)
    requires s !in RecordedBy(p, JoinEvent(pid, sid)) && |behind| < cfg.maxDepartures
    ensures var event := JoinEvent(pid, sid);
      var ds := JoinDepartures(cfg, p.state, pid, sid, p.clock);
      if Session(pid, sid) != s && |Peak(p, event, behind)| < cfg.maxDepartures
      then Stands(ds, s, until, BehindAfter(p, event, behind)) else !Departed(ds, s)
  {
    hide Stands, Departed, Record, Filter, WellFormedDepartures;
    var ds, own, peak := p.state.departed, Session(pid, sid), Peak(p, JoinEvent(pid, sid), behind);
    if Supersedes(p.state.active, pid, sid) {
      var r := Session(pid, p.state.active[pid]);
      RecordStands(cfg, ds, r, p.clock, s, until, behind);
      ds := Record(cfg, ds, r, p.clock);
    } else {
      assert peak == behind;
    }
    if own == s {
      OwnIsForgotten(ds, s);
    } else if |peak| < cfg.maxDepartures {
      FilterStands(ds, own, s, until, peak);
    } else {
      FilterForgets(ds, s, own);
    }
  }

  lemma OwnIsForgotten(ds: seq<Departure>, s: Session)
    ensures !Departed(Filter(ds, OtherSession(s)), s)
  {
    SessionsOfFilter(ds, s);
    SessionsMember(Filter(ds, OtherSession(s)), s);
  }

  /** In deadline order, pruning forgets `s` exactly when its own time is up. */
  lemma PruneStands(w: World, now: real, s: Session, until: real, behind: set<Session>)
    requires SortedDepartures(w.state.departed) && Pairwise(w.state.departed, DifferentSession())
    requires Stands(w.state.departed, s, until, behind)
    ensures var ds := Pruned(w, now).state.departed;
      if now < until then Stands(ds, s, until, behind) else !Departed(ds, s)
  {
    var ds := w.state.departed;
    var i :| StandsAt(ds, i, s, until, behind);
    var k := Leading(ds, DepartureDue(now));
    if now < until {
      assert k <= i by { assert !DepartureDue(now)(ds[i]); }
    } else {
      forall j | 0 <= j <= i ensures DepartureDue(now)(ds[j]) {
        assert j < i ==> DepartsNoLater()(ds[j], ds[i]);
      }
    }
    DropStands(ds, k, i, s, until, behind);
  }

  /** What the induction carries: the invariants of the orderer, and a place in the list. */
  ghost predicate Remembering(cfg: Config, w: World, s: Session, until: real, behind: set<Session>) {
    && Inv(cfg, w.state) && Ordered(cfg, w.state, w.clock)
    && Stands(w.state.departed, s, until, behind) && |behind| < cfg.maxDepartures
  }

  lemma RememberingPrunes(cfg: Config, w: World, now: real, s: Session, until: real, behind: set<Session>)
    requires Remembering(cfg, w, s, until, behind) && w.clock <= now
    ensures if now < until then Remembering(cfg, Pruned(w, now), s, until, behind)
            else !Departed(Pruned(w, now).state.departed, s)
  {
    assert Pairwise(w.state.departed, DifferentSession());
    PruneKeeps(cfg, w.state, now);
    PruneKeepsOrder(cfg, w.state, w.clock, now);
    PruneStands(w, now, s, until, behind);
    hide Inv, Ordered, Stands, Departed, Prune;
  }

  lemma RememberingSteps(cfg: Config, p: World, event: Event, s: Session, until: real, behind: set<Session>)
    requires Remembering(cfg, p, s, until, behind) && s !in RecordedBy(p, event)
    ensures var w := StepPruned(cfg, p, event);
      if event != JoinEvent(s.participantId, s.sessionId) && |Peak(p, event, behind)| < cfg.maxDepartures
      then Remembering(cfg, w, s, until, BehindAfter(p, event, behind)) else !Departed(w.state.departed, s)
  {
    hide Inv, Ordered, Stands, Departed, StepPruned, RecordedBy, Peak;
    StepKeepsInv(cfg, p, event);
    StepKeepsOrder(cfg, p, event);
    StepStands(cfg, p, event, s, until, behind);
    assert StepPruned(cfg, p, event).clock == p.clock by { KeepsClock(cfg, p, event); }
    if |Peak(p, event, behind)| < cfg.maxDepartures { FewerBehind(p, event, behind); }
  }

  lemma FewerBehind(p: World, event: Event, behind: set<Session>)
    ensures |BehindAfter(p, event, behind)| <= |Peak(p, event, behind)|
  {
    hide Peak;
    SubsetIsSmaller(BehindAfter(p, event, behind), Peak(p, event, behind));
  }

  lemma {:induction false} SubsetIsSmaller(a: set<Session>, b: set<Session>)
    requires a <= b
    ensures |a| <= |b|
  {
    assert b == a + (b - a);
  }

  lemma {:induction false} RunRemembers(cfg: Config, w: World, es: seq<Timed>, s: Session, until: real,
                                        behind: set<Session>, now: real)
    requires Remembering(cfg, w, s, until, behind) && s !in Recorded(cfg, w, es)
    requires Monotone(w.clock, es) && Run(cfg, w, es).clock <= now
    ensures Departed(Pruned(Run(cfg, w, es), now).state.departed, s)
      <==> now < until && !Rejoins(es, s) && Room(cfg, w, es, behind)
    decreases |es|
  {
    hide Remembering, Departed, RecordedBy, StepPruned, Prune, Peak, BehindAfter;
    if es == [] {
      RememberingPrunes(cfg, w, now, s, until, behind);
      if now < until { RememberingIsDeparted(cfg, Pruned(w, now), s, until, behind); }
    } else {
      var p, event := Pruned(w, es[0].now), es[0].event;
      var next := Step(cfg, w, es[0]);
      KeepsClock(cfg, p, event);
      ClockGoesOn(cfg, next, es[1..]);
      assert es[0] in es && es == [es[0]] + es[1..];
      RememberingPrunes(cfg, w, es[0].now, s, until, behind);
      if es[0].now >= until {
        StepForgets(cfg, p, event, s);
        RunForgets(cfg, next, es[1..], s);
        PruneForgets(Run(cfg, next, es[1..]), now, s);
      } else {
        RememberingSteps(cfg, p, event, s, until, behind);
        if event != JoinEvent(s.participantId, s.sessionId) && |Peak(p, event, behind)| < cfg.maxDepartures {
          RunRemembers(cfg, next, es[1..], s, until, BehindAfter(p, event, behind), now);
        } else {
          RunForgets(cfg, next, es[1..], s);
          PruneForgets(Run(cfg, next, es[1..]), now, s);
        }
      }
    }
  }

  lemma RememberingIsDeparted(cfg: Config, w: World, s: Session, until: real, behind: set<Session>)
    requires Remembering(cfg, w, s, until, behind)
    ensures Departed(w.state.departed, s)
  {
    hide Inv, Ordered;
  }

  lemma {:induction false} ClockGoesOn(cfg: Config, w: World, es: seq<Timed>)
    requires Monotone(w.clock, es)
    ensures w.clock <= Run(cfg, w, es).clock
    decreases |es|
  {
    hide StepPruned, Prune;
    if es != [] {
      KeepsClock(cfg, Pruned(w, es[0].now), es[0].event);
      ClockGoesOn(cfg, Step(cfg, w, es[0]), es[1..]);
    }
  }

  /** Recording a departure puts it last, with nothing behind it. */
  lemma RecordingStands(cfg: Config, p: World, e: Event, s: Session)
    requires s in RecordedBy(p, e) && cfg.maxDepartures > 0
    ensures Stands(StepPruned(cfg, p, e).state.departed, s, p.clock + cfg.departureTtl, {})
  {
    hide Stands, Record;
    RecordStandsLast(cfg, p.state.departed, s, p.clock);
    match e
    case JoinEvent(pid, sid) =>
      var none: set<Session> := {};
      FilterStands(Record(cfg, p.state.departed, s, p.clock), Session(pid, sid), s, p.clock + cfg.departureTtl, none);
      assert none - {Session(pid, sid)} == none;
    case LeaveEvent(pid, sid) =>
    case RouteEvent(m) =>
    case ExpireEvent =>
  }

  lemma RecordStandsLast(cfg: Config, ds: seq<Departure>, s: Session, now: real)
    requires cfg.maxDepartures > 0
    ensures Stands(Record(cfg, ds, s, now), s, now + cfg.departureTtl, {})
  {
    var recorded := Record(cfg, ds, s, now);
    var last := |recorded| - 1;
    assert recorded[last] == Departure(s, now + cfg.departureTtl) && recorded[last + 1..] == [];
    assert StandsAt(recorded, last, s, now + cfg.departureTtl, {});
  }

  lemma EmptyIsOrdered(cfg: Config, clock: real)
    ensures Ordered(cfg, Empty, clock)
  {
  }

  /** The world in which the departure happens, and the one after it. */
  lemma DepartureRemembered(cfg: Config, clock: real, before: seq<Timed>, e: Event, s: Session, left: real)
    requires s in RecordedBy(Pruned(Run(cfg, Start(clock), before), left), e) && cfg.maxDepartures > 0
    requires Monotone(clock, before) && Run(cfg, Start(clock), before).clock <= left
    ensures Remembering(cfg, AfterDeparture(cfg, Run(cfg, Start(clock), before), e, left), s,
                        left + cfg.departureTtl, {})
    ensures AfterDeparture(cfg, Run(cfg, Start(clock), before), e, left).clock == left
  {
    hide Run, Inv, Ordered, Stands, StepPruned, RecordedBy, Prune;
    var u := Run(cfg, Start(clock), before);
    ReachableInvariant(cfg, clock, before);
    assert Ordered(cfg, Start(clock).state, clock) by { EmptyIsOrdered(cfg, clock); }
    RunKeepsOrder(cfg, Start(clock), before);
    PruneKeeps(cfg, u.state, left);
    PruneKeepsOrder(cfg, u.state, u.clock, left);
    StepKeepsInv(cfg, Pruned(u, left), e);
    StepKeepsOrder(cfg, Pruned(u, left), e);
    KeepsClock(cfg, Pruned(u, left), e);
    RecordingStands(cfg, Pruned(u, left), e, s);
  }

  /** A list without room remembers nobody. */
  lemma NothingRemembered(cfg: Config, clock: real, before: seq<Timed>, e: Event, left: real, after: seq<Timed>,
                          now: real, s: Session)
    requires cfg.maxDepartures == 0
    ensures !Departed(Pruned(Run(cfg, AfterDeparture(cfg, Run(cfg, Start(clock), before), e, left), after), now)
                        .state.departed, s)
  {
    var u := Run(cfg, Start(clock), before);
    ReachableInvariant(cfg, clock, before);
    hide Run, StepPruned, Prune;
    PruneKeeps(cfg, u.state, left);
    StepKeepsInv(cfg, Pruned(u, left), e);
    RunKeepsInv(cfg, AfterDeparture(cfg, u, e, left), after);
    PruneKeeps(cfg, Run(cfg, AfterDeparture(cfg, u, e, left), after).state, now);
  }

  /**
   The exact moment of forgetting. With a clock that does not go back, a file of
   a session that last departed at `left` is refused if and only if the session
   has not rejoined, its time limit has not passed, and at no time since were as
   many sessions remembered behind it as the list may hold. Sessions that departed
   and rejoined in turn do not add up.
   */
  lemma DepartedIsRefusedExactly(cfg: Config, clock: real, before: seq<Timed>, e: Event, s: Session, left: real,
                                 after: seq<Timed>, m: FileMessage, now: real)
    requires Monotone(clock, before) && Run(cfg, Start(clock), before).clock <= left && Monotone(left, after)
    requires s in RecordedBy(Pruned(Run(cfg, Start(clock), before), left), e) && SessionOf(m) == s
    requires var w := AfterDeparture(cfg, Run(cfg, Start(clock), before), e, left);
      s !in Recorded(cfg, w, after) && Run(cfg, w, after).clock <= now
    ensures var w := AfterDeparture(cfg, Run(cfg, Start(clock), before), e, left);
      Route(cfg, Run(cfg, w, after).state, m, now).1 == Inactive
      <==> now < left + cfg.departureTtl && !Rejoins(after, s) && cfg.maxDepartures > 0 && Room(cfg, w, after, {})
  {
    hide Run, Recorded, RecordedBy, Remembering, AfterDeparture, Room, Rejoins, Departed, Prune;
    RecordedIsNamed(Pruned(Run(cfg, Start(clock), before), left), e, s);
    var w := AfterDeparture(cfg, Run(cfg, Start(clock), before), e, left);
    if cfg.maxDepartures > 0 {
      DepartureRemembered(cfg, clock, before, e, s, left);
      RunRemembers(cfg, w, after, s, left + cfg.departureTtl, {}, now);
    } else {
      NothingRemembered(cfg, clock, before, e, left, after, now, s);
    }
  }
}
