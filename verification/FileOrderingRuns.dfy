/**
 Theorems about every run of the file/session orderer: what every operation
 keeps, that prefix pruning is filtering, that no file is lost or duplicated,
 and that files of one session leave in arrival order.
 */
module FileOrderingRuns {
  import opened Seqs
  import opened FileOrdering

  datatype Event =
    | RouteEvent(message: FileMessage)
    | JoinEvent(pid: string, sid: string)
    | LeaveEvent(pid: string, sid: string)
    | ExpireEvent

  datatype Timed = Timed(now: real, event: Event)

  /** Every file that ever arrived, and every file that left the orderer, by the way it left. */
  datatype Log = Log(
    arrived: seq<FileMessage>,
    delivered: seq<FileMessage>,
    inactive: seq<FileMessage>,
    full: seq<FileMessage>,
    discarded: seq<FileMessage>,
    drained: seq<FileMessage>)

  datatype World = World(state: State, log: Log, clock: real)

  function Start(clock: real): World {
    World(Empty, Log([], [], [], [], [], []), clock)
  }

  function LogRoute(log: Log, m: FileMessage, route: FileRoute): Log {
    var l := log.(arrived := log.arrived + [m]);
    match route
    case Ready => l.(delivered := l.delivered + [m])
    case Inactive => l.(inactive := l.inactive + [m])
    case Full => l.(full := l.full + [m])
    case Buffered => l
  }

  /** What an event does to a world whose due entries are already pruned. */
  function StepPruned(cfg: Config, w: World, event: Event): World {
    match event
    case RouteEvent(m) =>
      var (s, route) := RoutePruned(cfg, w.state, m, w.clock);
      w.(state := s, log := LogRoute(w.log, m, route))
    case JoinEvent(pid, sid) =>
      var j := JoinPruned(cfg, w.state, pid, sid, w.clock);
      w.(state := j.state,
         log := w.log.(delivered := w.log.delivered + j.ready, inactive := w.log.inactive + j.inactive))
    case LeaveEvent(pid, sid) =>
      var l := LeavePruned(cfg, w.state, pid, sid, w.clock);
      w.(state := l.state, log := w.log.(discarded := w.log.discarded + l.discarded))
    case ExpireEvent =>
      w.(state := w.state.(expired := []), log := w.log.(drained := w.log.drained + w.state.expired))
  }

  function Pruned(w: World, now: real): World {
    World(Prune(w.state, now), w.log, now)
  }

  function Step(cfg: Config, w: World, e: Timed): World {
    StepPruned(cfg, Pruned(w, e.now), e.event)
  }

  function Run(cfg: Config, w: World, es: seq<Timed>): World
    decreases |es|
  {
    if es == [] then w else Run(cfg, Step(cfg, w, es[0]), es[1..])
  }

  /** The injected clock never goes back. */
  ghost predicate Monotone(clock: real, es: seq<Timed>)
    decreases |es|
  {
    es != [] ==> clock <= es[0].now && Monotone(es[0].now, es[1..])
  }

  // The invariant.

  ghost predicate NoneDeliverable(active: map<string, string>, ps: seq<PendingFile>) {
    forall p :: p in ps ==> !Deliverable(active, p.message)
  }

  ghost predicate NoneDeparted(ds: seq<Departure>, ps: seq<PendingFile>) {
    forall p :: p in ps ==> !Departed(ds, SessionOf(p.message))
  }

  ghost predicate WellFormedDepartures(cfg: Config, ds: seq<Departure>) {
    && |ds| <= cfg.maxDepartures
    && Pairwise(ds, DifferentSession())
    && forall d :: d in ds ==> d.session.sessionId != ""
  }

  /** What holds whatever the clock does. */
  ghost predicate Inv(cfg: Config, s: State) {
    && WellFormedDepartures(cfg, s.departed)
    && (|s.pending| == 0 || |s.pending| <= cfg.maxPending)
    && NoneDeliverable(s.active, s.pending)
    && NoneDeparted(s.departed, s.pending)
  }

  /** What a nondecreasing clock adds: both queues are in deadline order. */
  ghost predicate Ordered(cfg: Config, s: State, clock: real) {
    && SortedPending(s.pending)
    && SortedDepartures(s.departed)
    && (forall p :: p in s.pending ==> p.deadline <= clock + cfg.pendingTtl)
    && (forall d :: d in s.departed ==> d.deadline <= clock + cfg.departureTtl)
  }

  // Steps keep the invariant.

  lemma DepartedMember(ds: seq<Departure>, s: Session)
    ensures Departed(ds, s) <==> exists d :: d in ds && d.session == s
  {
    if d :| d in ds && d.session == s {
      var i :| 0 <= i < |ds| && ds[i] == d;
    }
  }

  lemma PruneKeeps(cfg: Config, s: State, now: real)
    requires Inv(cfg, s)
    ensures Inv(cfg, Prune(s, now))
  {
    var p := Prune(s, now);
    forall q | q in p.pending ensures !Departed(p.departed, SessionOf(q.message)) {
      assert q in s.pending;
    }
  }

  lemma PruneKeepsOrder(cfg: Config, s: State, clock: real, now: real)
    requires Ordered(cfg, s, clock) && clock <= now
    ensures Ordered(cfg, Prune(s, now), now)
  {
  }

  lemma RecordMembers(cfg: Config, ds: seq<Departure>, s: Session, now: real, d: Departure)
    requires d in Record(cfg, ds, s, now)
    ensures d == Departure(s, now + cfg.departureTtl) || (d in ds && d.session != s)
  {
    FilterMember(ds, OtherSession(s), d);
  }

  lemma RecordKeeps(cfg: Config, ds: seq<Departure>, s: Session, now: real)
    requires WellFormedDepartures(cfg, ds) && s.sessionId != ""
    ensures WellFormedDepartures(cfg, Record(cfg, ds, s, now))
  {
    var others := Filter(ds, OtherSession(s));
    FilterPairwise(ds, OtherSession(s), DifferentSession());
    forall d | d in others ensures d in ds && d.session != s {
      FilterMember(ds, OtherSession(s), d);
    }
    assert forall i :: 0 <= i < |others| ==> others[i] in others;
    assert Pairwise(others + [Departure(s, now + cfg.departureTtl)], DifferentSession());
    forall d | d in Record(cfg, ds, s, now) ensures d.session.sessionId != "" {
      RecordMembers(cfg, ds, s, now, d);
    }
  }

  lemma RecordKeepsOrder(cfg: Config, ds: seq<Departure>, s: Session, now: real)
    requires SortedDepartures(ds)
    requires forall d :: d in ds ==> d.deadline <= now + cfg.departureTtl
    ensures SortedDepartures(Record(cfg, ds, s, now))
    ensures forall d :: d in Record(cfg, ds, s, now) ==> d.deadline <= now + cfg.departureTtl
  {
    var others := Filter(ds, OtherSession(s));
    FilterPairwise(ds, OtherSession(s), DepartsNoLater());
    forall d | d in others ensures d in ds {
      FilterMember(ds, OtherSession(s), d);
    }
    assert forall i :: 0 <= i < |others| ==> others[i] in others;
    assert Pairwise(others + [Departure(s, now + cfg.departureTtl)], DepartsNoLater());
    forall d | d in Record(cfg, ds, s, now) ensures d.deadline <= now + cfg.departureTtl {
      RecordMembers(cfg, ds, s, now, d);
    }
  }

  lemma RouteKeeps(cfg: Config, p: State, m: FileMessage, now: real)
    requires Inv(cfg, p)
    ensures Inv(cfg, RoutePruned(cfg, p, m, now).0)
  {
    if RoutePruned(cfg, p, m, now).1 == Buffered && m.sessionId == "" {
      assert !Departed(p.departed, SessionOf(m));
    }
  }

  lemma JoinKeeps(cfg: Config, p: State, pid: string, sid: string, now: real)
    requires Inv(cfg, p)
    ensures Inv(cfg, JoinPruned(cfg, p, pid, sid, now).state)
    ensures JoinPruned(cfg, p, pid, sid, now).inactive == []
  {
    var recorded := if Supersedes(p.active, pid, sid) then Record(cfg, p.departed, Session(pid, p.active[pid]), now)
                    else p.departed;
    var ds := JoinDepartures(cfg, p, pid, sid, now);
    if Supersedes(p.active, pid, sid) {
      RecordKeeps(cfg, p.departed, Session(pid, p.active[pid]), now);
    }
    FilterPairwise(recorded, OtherSession(Session(pid, sid)), DifferentSession());
    forall d | d in ds ensures d in recorded && d.session != Session(pid, sid) {
      FilterMember(recorded, OtherSession(Session(pid, sid)), d);
    }
    var kept := Filter(p.pending, KeptByJoin(pid, sid, ds));
    forall q | q in kept ensures q in p.pending && KeptByJoin(pid, sid, ds)(q) {
      FilterMember(p.pending, KeptByJoin(pid, sid, ds), q);
    }
    forall q | q in p.pending ensures !Departed(ds, SessionOf(q.message)) || ReleasedBy(pid, sid)(q) {
      if Departed(ds, SessionOf(q.message)) {
        var i :| 0 <= i < |ds| && ds[i].session == SessionOf(q.message);
        assert ds[i] in ds;
        assert !Departed(p.departed, SessionOf(q.message));
        if ds[i] !in p.departed {
          RecordMembers(cfg, p.departed, Session(pid, p.active[pid]), now, ds[i]);
        }
      }
    }
    FilterNone(p.pending, RefusedBy(pid, sid, ds));
  }

  lemma JoinKeepsOrder(cfg: Config, p: State, pid: string, sid: string, now: real)
    requires Ordered(cfg, p, now)
    ensures Ordered(cfg, JoinPruned(cfg, p, pid, sid, now).state, now)
  {
    var recorded := if Supersedes(p.active, pid, sid) then Record(cfg, p.departed, Session(pid, p.active[pid]), now)
                    else p.departed;
    var ds := JoinDepartures(cfg, p, pid, sid, now);
    if Supersedes(p.active, pid, sid) {
      RecordKeepsOrder(cfg, p.departed, Session(pid, p.active[pid]), now);
    }
    FilterPairwise(recorded, OtherSession(Session(pid, sid)), DepartsNoLater());
    forall d | d in ds ensures d in recorded {
      FilterMember(recorded, OtherSession(Session(pid, sid)), d);
    }
    FilterPairwise(p.pending, KeptByJoin(pid, sid, ds), NoLater());
    forall q | q in Filter(p.pending, KeptByJoin(pid, sid, ds)) ensures q in p.pending {
      FilterMember(p.pending, KeptByJoin(pid, sid, ds), q);
    }
  }

  lemma LeaveKeeps(cfg: Config, p: State, pid: string, sid: string, now: real)
    requires Inv(cfg, p)
    ensures Inv(cfg, LeavePruned(cfg, p, pid, sid, now).state)
  {
    var s := LeavePruned(cfg, p, pid, sid, now).state;
    if sid != "" {
      RecordKeeps(cfg, p.departed, Session(pid, sid), now);
    }
    forall q | q in s.pending
      ensures !Deliverable(s.active, q.message) && !Departed(s.departed, SessionOf(q.message))
    {
      FilterMember(p.pending, NotOfSession(Session(pid, sid)), q);
      if Departed(s.departed, SessionOf(q.message)) {
        var i :| 0 <= i < |s.departed| && s.departed[i].session == SessionOf(q.message);
        assert s.departed[i] in s.departed;
        if sid != "" {
          RecordMembers(cfg, p.departed, Session(pid, sid), now, s.departed[i]);
        }
        DepartedMember(p.departed, SessionOf(q.message));
      }
    }
  }

  lemma LeaveKeepsOrder(cfg: Config, p: State, pid: string, sid: string, now: real)
    requires Ordered(cfg, p, now)
    ensures Ordered(cfg, LeavePruned(cfg, p, pid, sid, now).state, now)
  {
    if sid != "" {
      RecordKeepsOrder(cfg, p.departed, Session(pid, sid), now);
    }
    FilterPairwise(p.pending, NotOfSession(Session(pid, sid)), NoLater());
    forall q | q in Filter(p.pending, NotOfSession(Session(pid, sid))) ensures q in p.pending {
      FilterMember(p.pending, NotOfSession(Session(pid, sid)), q);
    }
  }

  lemma StepKeepsInv(cfg: Config, w: World, event: Event)
    requires Inv(cfg, w.state)
    ensures Inv(cfg, StepPruned(cfg, w, event).state)
  {
    match event
    case RouteEvent(m) => RouteKeeps(cfg, w.state, m, w.clock);
    case JoinEvent(pid, sid) => JoinKeeps(cfg, w.state, pid, sid, w.clock);
    case LeaveEvent(pid, sid) => LeaveKeeps(cfg, w.state, pid, sid, w.clock);
    case ExpireEvent =>
  }

  lemma StepKeepsOrder(cfg: Config, w: World, event: Event)
    requires Ordered(cfg, w.state, w.clock)
    ensures Ordered(cfg, StepPruned(cfg, w, event).state, w.clock)
  {
    match event
    case RouteEvent(m) =>
    case JoinEvent(pid, sid) => JoinKeepsOrder(cfg, w.state, pid, sid, w.clock);
    case LeaveEvent(pid, sid) => LeaveKeepsOrder(cfg, w.state, pid, sid, w.clock);
    case ExpireEvent =>
  }

  lemma KeepsClock(cfg: Config, p: World, e: Event)
    ensures StepPruned(cfg, p, e).clock == p.clock
  {
  }

  lemma {:induction false} RunKeepsInv(cfg: Config, w: World, es: seq<Timed>)
    requires Inv(cfg, w.state)
    ensures Inv(cfg, Run(cfg, w, es).state)
    decreases |es|
  {
    if es != [] {
      PruneKeeps(cfg, w.state, es[0].now);
      StepKeepsInv(cfg, Pruned(w, es[0].now), es[0].event);
      RunKeepsInv(cfg, Step(cfg, w, es[0]), es[1..]);
    }
  }

  lemma {:induction false} RunKeepsOrder(cfg: Config, w: World, es: seq<Timed>)
    requires Ordered(cfg, w.state, w.clock) && Monotone(w.clock, es)
    ensures Ordered(cfg, Run(cfg, w, es).state, Run(cfg, w, es).clock)
    decreases |es|
  {
    if es != [] {
      PruneKeepsOrder(cfg, w.state, w.clock, es[0].now);
      StepKeepsOrder(cfg, Pruned(w, es[0].now), es[0].event);
      RunKeepsOrder(cfg, Step(cfg, w, es[0]), es[1..]);
    }
  }

  // Theorem 1: in every reachable state no waiting file is deliverable or departed, so a join refuses nothing.

  lemma ReachableInvariant(cfg: Config, clock: real, es: seq<Timed>)
    ensures Inv(cfg, Run(cfg, Start(clock), es).state)
  {
    RunKeepsInv(cfg, Start(clock), es);
  }

  lemma JoinRefusesNothing(cfg: Config, clock: real, es: seq<Timed>, pid: string, sid: string, now: real)
    ensures Join(cfg, Run(cfg, Start(clock), es).state, pid, sid, now).inactive == []
  {
    ReachableInvariant(cfg, clock, es);
    PruneKeeps(cfg, Run(cfg, Start(clock), es).state, now);
    JoinKeeps(cfg, Prune(Run(cfg, Start(clock), es).state, now), pid, sid, now);
  }

  // Theorem 2: under a nondecreasing clock, dropping due prefixes is the same as filtering out what is due.

  lemma {:induction false} PrefixIsFilter<T>(xs: seq<T>, due: T -> bool, live: T -> bool, rel: (T, T) -> bool)
    requires Pairwise(xs, rel)
    requires forall x: T :: x in xs ==> live(x) == !due(x)
    requires forall x: T, y: T :: x in xs && y in xs && rel(x, y) && due(y) ==> due(x)
    ensures xs[Leading(xs, due)..] == Filter(xs, live)
    ensures xs[..Leading(xs, due)] == Filter(xs, due)
  {
    hide Filter;
    var n := Leading(xs, due);
    PrefixSplits(xs, due, live, rel);
    FilterConcat(xs[..n], xs[n..], live);
    FilterConcat(xs[..n], xs[n..], due);
    FilterAll(xs[n..], live);
    FilterNone(xs[n..], due);
    FilterNone(xs[..n], live);
    FilterAll(xs[..n], due);
  }

  lemma PrefixSplits<T>(xs: seq<T>, due: T -> bool, live: T -> bool, rel: (T, T) -> bool)
    requires Pairwise(xs, rel)
    requires forall x: T :: x in xs ==> live(x) == !due(x)
    requires forall x: T, y: T :: x in xs && y in xs && rel(x, y) && due(y) ==> due(x)
    ensures var n := Leading(xs, due);
      xs == xs[..n] + xs[n..] && (forall x :: x in xs[n..] ==> live(x) && !due(x))
      && (forall x :: x in xs[..n] ==> due(x) && !live(x))
  {
    hide Leading;
    var n := Leading(xs, due);
    forall i | n <= i < |xs| ensures !due(xs[i]) {
      assert i > n ==> rel(xs[n], xs[i]) && xs[n] in xs && xs[i] in xs;
    }
    forall x | x in xs[n..] ensures live(x) && !due(x) {
      var i :| n <= i < |xs| && xs[i] == x;
    }
    forall x | x in xs[..n] ensures due(x) && !live(x) {
      var i :| 0 <= i < n && xs[i] == x;
    }
  }

  lemma PruneIsFilter(cfg: Config, clock: real, es: seq<Timed>, now: real)
    requires Monotone(clock, es)
    ensures var s := Run(cfg, Start(clock), es).state;
      && Prune(s, now).pending == Filter(s.pending, PendingLive(now))
      && Prune(s, now).expired == s.expired + Messages(Filter(s.pending, PendingDue(now)))
      && Prune(s, now).departed == Filter(s.departed, DepartureLive(now))
      && SortedPending(s.pending)
  {
    var s := Run(cfg, Start(clock), es).state;
    RunKeepsOrder(cfg, Start(clock), es);
    PrefixIsFilter(s.pending, PendingDue(now), PendingLive(now), NoLater());
    PrefixIsFilter(s.departed, DepartureDue(now), DepartureLive(now), DepartsNoLater());
  }

  // The same predicates, on messages.

  function Of(s: Session): FileMessage -> bool { (m: FileMessage) => SessionOf(m) == s }

  function Released(pid: string, sid: string): FileMessage -> bool {
    (m: FileMessage) => m.participantId == pid && (m.sessionId == "" || m.sessionId == sid)
  }

  function Not(q: FileMessage -> bool): FileMessage -> bool { (m: FileMessage) => !q(m) }

  // Theorem 3: every file that arrived is in exactly one place, counting repetitions.

  ghost function Accounted(w: World): multiset<FileMessage> {
    multiset(w.log.delivered) + multiset(w.log.inactive) + multiset(w.log.full) + multiset(w.log.discarded)
    + multiset(w.log.drained) + multiset(w.state.expired) + multiset(Messages(w.state.pending))
  }

  ghost predicate Conserved(w: World) {
    multiset(w.log.arrived) == Accounted(w)
  }

  lemma MessagesConcat(ps: seq<PendingFile>, qs: seq<PendingFile>)
    ensures Messages(ps + qs) == Messages(ps) + Messages(qs)
  {
  }

  /** Filtering waiting files by what their message says is filtering the messages. */
  lemma {:induction false} MessagesOfFilter(ps: seq<PendingFile>, p: PendingFile -> bool, q: FileMessage -> bool)
    requires forall x :: x in ps ==> p(x) == q(x.message)
    ensures Messages(Filter(ps, p)) == Filter(Messages(ps), q)
  {
    if ps != [] {
      MessagesOfFilter(ps[1..], p, q);
      assert Messages(ps)[1..] == Messages(ps[1..]);
      MessagesConcat([ps[0]], Filter(ps[1..], p));
      assert Messages([ps[0]]) == [ps[0].message];
    }
  }

  /** Splitting the waiting files by a predicate splits their messages. */
  lemma MessagesSplit(ps: seq<PendingFile>, a: PendingFile -> bool, b: PendingFile -> bool, q: FileMessage -> bool)
    requires forall p :: p in ps ==> a(p) == !b(p) && a(p) == q(p.message)
    ensures multiset(Messages(ps)) == multiset(Messages(Filter(ps, a))) + multiset(Messages(Filter(ps, b)))
  {
    MessagesOfFilter(ps, a, q);
    MessagesOfFilter(ps, b, Not(q));
    FilterSplit(Messages(ps), q, Not(q));
  }

  lemma PruneConserves(w: World, now: real)
    requires Conserved(w)
    ensures Conserved(Pruned(w, now))
  {
    var n := Leading(w.state.pending, PendingDue(now));
    assert w.state.pending == w.state.pending[..n] + w.state.pending[n..];
    MessagesConcat(w.state.pending[..n], w.state.pending[n..]);
  }

  lemma JoinConserves(cfg: Config, w: World, pid: string, sid: string)
    requires Conserved(w) && Inv(cfg, w.state)
    ensures Conserved(StepPruned(cfg, w, JoinEvent(pid, sid)))
  {
    JoinKeeps(cfg, w.state, pid, sid, w.clock);
    var ds := JoinDepartures(cfg, w.state, pid, sid, w.clock);
    forall p | p in w.state.pending ensures ReleasedBy(pid, sid)(p) == !KeptByJoin(pid, sid, ds)(p) {
      if RefusedBy(pid, sid, ds)(p) {
        FilterMember(w.state.pending, RefusedBy(pid, sid, ds), p);
      }
    }
    MessagesSplit(w.state.pending, ReleasedBy(pid, sid), KeptByJoin(pid, sid, ds), Released(pid, sid));
  }

  lemma AnsweredConserves(w: World, v: World, m: FileMessage, route: FileRoute)
    requires Conserved(w) && route != Buffered && v == w.(log := LogRoute(w.log, m, route))
    ensures Conserved(v)
  {
    assert Accounted(v) == Accounted(w) + multiset{m};
  }

  lemma BufferedConserves(w: World, v: World, file: PendingFile)
    requires Conserved(w)
    requires v == World(w.state.(pending := w.state.pending + [file]), LogRoute(w.log, file.message, Buffered), w.clock)
    ensures Conserved(v)
  {
    assert Messages(w.state.pending + [file]) == Messages(w.state.pending) + [file.message];
  }

  lemma RouteConserves(cfg: Config, w: World, v: World, m: FileMessage)
    requires Conserved(w) && v == StepPruned(cfg, w, RouteEvent(m))
    ensures Conserved(v)
  {
    var (state, route) := RoutePruned(cfg, w.state, m, w.clock);
    assert v == World(state, LogRoute(w.log, m, route), w.clock);
    if route == Buffered {
      BufferedConserves(w, v, PendingFile(m, w.clock + cfg.pendingTtl));
    } else {
      AnsweredConserves(w, v, m, route);
    }
  }

  lemma LeaveConserves(cfg: Config, w: World, pid: string, sid: string)
    requires Conserved(w)
    ensures Conserved(StepPruned(cfg, w, LeaveEvent(pid, sid)))
  {
    var s := Session(pid, sid);
    MessagesSplit(w.state.pending, OfSession(s), NotOfSession(s), Of(s));
  }

  lemma StepConserves(cfg: Config, w: World, event: Event)
    requires Conserved(w) && Inv(cfg, w.state)
    ensures Conserved(StepPruned(cfg, w, event))
  {
    match event
    case RouteEvent(m) => RouteConserves(cfg, w, StepPruned(cfg, w, event), m);
    case JoinEvent(pid, sid) => JoinConserves(cfg, w, pid, sid);
    case LeaveEvent(pid, sid) => LeaveConserves(cfg, w, pid, sid);
    case ExpireEvent =>
  }

  lemma {:induction false} RunConserves(cfg: Config, w: World, es: seq<Timed>)
    requires Conserved(w) && Inv(cfg, w.state)
    ensures Conserved(Run(cfg, w, es))
    decreases |es|
  {
    if es != [] {
      PruneConserves(w, es[0].now);
      PruneKeeps(cfg, w.state, es[0].now);
      StepConserves(cfg, Pruned(w, es[0].now), es[0].event);
      StepKeepsInv(cfg, Pruned(w, es[0].now), es[0].event);
      RunConserves(cfg, Step(cfg, w, es[0]), es[1..]);
    }
  }

  lemma FilesAreConserved(cfg: Config, clock: real, es: seq<Timed>)
    ensures var w := Run(cfg, Start(clock), es);
      && multiset(w.log.arrived) == Accounted(w)
      && (|w.state.pending| == 0 || |w.state.pending| <= cfg.maxPending)
      && |w.state.departed| <= cfg.maxDepartures
  {
    RunConserves(cfg, Start(clock), es);
    RunKeepsInv(cfg, Start(clock), es);
  }

  // Theorem 4: the files of one session leave in the order they arrived, across routes and joins.

  /** What was delivered to `s`, followed by what still waits for it. */
  function Line(w: World, s: Session): seq<FileMessage> {
    Filter(w.log.delivered, Of(s)) + Filter(Messages(w.state.pending), Of(s))
  }

  ghost predicate InOrder(w: World, s: Session) {
    Subsequence(Line(w, s), Filter(w.log.arrived, Of(s)))
  }

  lemma PruneInOrder(w: World, now: real, s: Session)
    requires InOrder(w, s)
    ensures InOrder(Pruned(w, now), s)
  {
    var n := Leading(w.state.pending, PendingDue(now));
    var gone, kept := Messages(w.state.pending[..n]), Messages(w.state.pending[n..]);
    assert Messages(w.state.pending) == gone + kept;
    FilterConcat(gone, kept, Of(s));
    SubsequenceSuffix(Filter(gone, Of(s)), Filter(kept, Of(s)));
    ShrinkWaiting(w, Pruned(w, now), s);
  }

  /** Dropping waiting files keeps the order. */
  lemma ShrinkWaiting(w: World, v: World, s: Session)
    requires InOrder(w, s) && v.log.delivered == w.log.delivered && v.log.arrived == w.log.arrived
    requires Subsequence(Filter(Messages(v.state.pending), Of(s)), Filter(Messages(w.state.pending), Of(s)))
    ensures InOrder(v, s)
  {
    SubsequenceRefl(Filter(w.log.delivered, Of(s)));
    SubsequenceConcat(Filter(w.log.delivered, Of(s)), Filter(w.log.delivered, Of(s)),
                      Filter(Messages(v.state.pending), Of(s)), Filter(Messages(w.state.pending), Of(s)));
    SubsequenceTrans(Line(v, s), Line(w, s), Filter(w.log.arrived, Of(s)));
  }

  /** One more arrival, perhaps appended to the line. */
  lemma ExtendLine(w: World, v: World, m: FileMessage, s: Session)
    requires InOrder(w, s) && v.log.arrived == w.log.arrived + [m]
    requires Line(v, s) == Line(w, s) || Line(v, s) == Line(w, s) + Filter([m], Of(s))
    ensures InOrder(v, s)
  {
    FilterConcat(w.log.arrived, [m], Of(s));
    var one := Filter([m], Of(s));
    if Line(v, s) == Line(w, s) {
      SubsequenceConcat(Line(w, s), Filter(w.log.arrived, Of(s)), [], one);
      assert Line(w, s) + [] == Line(w, s);
    } else {
      SubsequenceRefl(one);
      SubsequenceConcat(Line(w, s), Filter(w.log.arrived, Of(s)), one, one);
    }
  }

  /** While a session is active, nothing of it waits. */
  lemma ActiveHasNoLine(cfg: Config, state: State, m: FileMessage)
    requires Inv(cfg, state) && Deliverable(state.active, m)
    ensures Filter(Messages(state.pending), Of(SessionOf(m))) == []
  {
    forall x | x in Messages(state.pending) ensures !Of(SessionOf(m))(x) {
      var i :| 0 <= i < |state.pending| && state.pending[i].message == x;
      assert state.pending[i] in state.pending;
    }
    FilterNone(Messages(state.pending), Of(SessionOf(m)));
  }

  lemma ReadyInOrder(cfg: Config, w: World, m: FileMessage, s: Session)
    requires InOrder(w, s) && Inv(cfg, w.state) && Deliverable(w.state.active, m)
    ensures InOrder(w.(log := LogRoute(w.log, m, Ready)), s)
  {
    var v := w.(log := LogRoute(w.log, m, Ready));
    FilterConcat(w.log.delivered, [m], Of(s));
    if SessionOf(m) == s {
      ActiveHasNoLine(cfg, w.state, m);
    } else {
      assert Line(v, s) == Line(w, s);
    }
    ExtendLine(w, v, m, s);
  }

  lemma BufferedInOrder(w: World, file: PendingFile, s: Session)
    requires InOrder(w, s)
    ensures InOrder(w.(state := w.state.(pending := w.state.pending + [file]),
                       log := LogRoute(w.log, file.message, Buffered)), s)
  {
    var v := w.(state := w.state.(pending := w.state.pending + [file]),
                log := LogRoute(w.log, file.message, Buffered));
    assert Messages(w.state.pending + [file]) == Messages(w.state.pending) + [file.message];
    FilterConcat(Messages(w.state.pending), [file.message], Of(s));
    assert Line(v, s) == Line(w, s) + Filter([file.message], Of(s));
    ExtendLine(w, v, file.message, s);
  }

  lemma RouteInOrder(cfg: Config, w: World, m: FileMessage, s: Session)
    requires InOrder(w, s) && Inv(cfg, w.state)
    ensures InOrder(StepPruned(cfg, w, RouteEvent(m)), s)
  {
    match RoutePruned(cfg, w.state, m, w.clock).1
    case Ready => ReadyInOrder(cfg, w, m, s);
    case Buffered => BufferedInOrder(w, PendingFile(m, w.clock + cfg.pendingTtl), s);
    case Inactive => ExtendLine(w, w.(log := LogRoute(w.log, m, Inactive)), m, s);
    case Full => ExtendLine(w, w.(log := LogRoute(w.log, m, Full)), m, s);
  }

  /** A join moves the whole line of a session it releases, and leaves every other line waiting. */
  lemma JoinLine(cfg: Config, p: State, pid: string, sid: string, now: real, s: Session)
    requires Inv(cfg, p)
    ensures var j := JoinPruned(cfg, p, pid, sid, now);
      Filter(j.ready, Of(s)) + Filter(Messages(j.state.pending), Of(s)) == Filter(Messages(p.pending), Of(s))
  {
    var ds := JoinDepartures(cfg, p, pid, sid, now);
    var waiting := Messages(p.pending);
    JoinKeeps(cfg, p, pid, sid, now);
    assert Filter(p.pending, RefusedBy(pid, sid, ds)) == [];
    forall x | x in p.pending ensures !RefusedBy(pid, sid, ds)(x) {
      FilterMember(p.pending, RefusedBy(pid, sid, ds), x);
    }
    MessagesOfFilter(p.pending, ReleasedBy(pid, sid), Released(pid, sid));
    MessagesOfFilter(p.pending, KeptByJoin(pid, sid, ds), Not(Released(pid, sid)));
    if s.participantId == pid && (s.sessionId == "" || s.sessionId == sid) {
      FilterFilterSame(waiting, Released(pid, sid), Of(s));
      FilterFilterNone(waiting, Not(Released(pid, sid)), Of(s));
    } else {
      FilterFilterNone(waiting, Released(pid, sid), Of(s));
      FilterFilterSame(waiting, Not(Released(pid, sid)), Of(s));
    }
  }

  lemma JoinInOrder(cfg: Config, w: World, pid: string, sid: string, s: Session)
    requires InOrder(w, s) && Inv(cfg, w.state)
    ensures InOrder(StepPruned(cfg, w, JoinEvent(pid, sid)), s)
  {
    hide Filter, JoinPruned, Messages, Subsequence;
    var v := StepPruned(cfg, w, JoinEvent(pid, sid));
    var j := JoinPruned(cfg, w.state, pid, sid, w.clock);
    JoinLine(cfg, w.state, pid, sid, w.clock, s);
    FilterConcat(w.log.delivered, j.ready, Of(s));
    assert Line(v, s) == Line(w, s);
  }

  lemma LeaveInOrder(cfg: Config, w: World, pid: string, sid: string, s: Session)
    requires InOrder(w, s)
    ensures InOrder(StepPruned(cfg, w, LeaveEvent(pid, sid)), s)
  {
    var gone := Session(pid, sid);
    MessagesOfFilter(w.state.pending, NotOfSession(gone), Not(Of(gone)));
    SubsequenceFilter(Messages(w.state.pending), Not(Of(gone)));
    SubsequenceFiltered(Filter(Messages(w.state.pending), Not(Of(gone))), Messages(w.state.pending), Of(s));
    ShrinkWaiting(w, StepPruned(cfg, w, LeaveEvent(pid, sid)), s);
  }

  lemma StepInOrder(cfg: Config, w: World, event: Event, s: Session)
    requires InOrder(w, s) && Inv(cfg, w.state)
    ensures InOrder(StepPruned(cfg, w, event), s)
  {
    match event
    case RouteEvent(m) => RouteInOrder(cfg, w, m, s);
    case JoinEvent(pid, sid) => JoinInOrder(cfg, w, pid, sid, s);
    case LeaveEvent(pid, sid) =>
      LeaveInOrder(cfg, w, pid, sid, s);
    case ExpireEvent =>
      assert Line(StepPruned(cfg, w, event), s) == Line(w, s);
  }

  lemma {:induction false} RunInOrder(cfg: Config, w: World, es: seq<Timed>, s: Session)
    requires InOrder(w, s) && Inv(cfg, w.state)
    ensures InOrder(Run(cfg, w, es), s)
    decreases |es|
  {
    if es != [] {
      PruneInOrder(w, es[0].now, s);
      PruneKeeps(cfg, w.state, es[0].now);
      StepInOrder(cfg, Pruned(w, es[0].now), es[0].event, s);
      StepKeepsInv(cfg, Pruned(w, es[0].now), es[0].event);
      RunInOrder(cfg, Step(cfg, w, es[0]), es[1..], s);
    }
  }

  lemma DeliveredInArrivalOrder(cfg: Config, clock: real, es: seq<Timed>, s: Session)
    ensures var w := Run(cfg, Start(clock), es);
      Subsequence(Filter(w.log.delivered, Of(s)) + Filter(Messages(w.state.pending), Of(s)),
                  Filter(w.log.arrived, Of(s)))
  {
    RunInOrder(cfg, Start(clock), es, s);
  }
}
