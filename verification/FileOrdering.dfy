/**
 The file/session orderer: files and participant lifecycle events arrive on
 different sockets, and the orderer decides for each file whether it is ready,
 must wait, or is too late.

 `State` and the functions over it say what each operation computes. The
 theorems about whole runs are in `FileOrderingRuns` and `FileOrderingMemory`;
 `FileSessionOrderer` is the object itself, updating its fields in place.
 */
module FileOrdering {
  import opened Seqs

  datatype FileMessage = FileMessage(participantId: string, sessionId: string, transferId: string)
  datatype FileRoute = Ready | Buffered | Inactive | Full
  datatype PendingFile = PendingFile(message: FileMessage, deadline: real)
  datatype Session = Session(participantId: string, sessionId: string)

  /** One entry of the insertion-ordered map of departed sessions. */
  datatype Departure = Departure(session: Session, deadline: real)

  datatype Config = Config(maxPending: int, pendingTtl: real, departureTtl: real, maxDepartures: nat)

  datatype State = State(
    active: map<string, string>,
    pending: seq<PendingFile>,
    departed: seq<Departure>,
    expired: seq<FileMessage>)

  const Empty := State(map[], [], [], [])

  function SessionOf(m: FileMessage): Session {
    Session(m.participantId, m.sessionId)
  }

  function Messages(ps: seq<PendingFile>): (ms: seq<FileMessage>)
    ensures |ms| == |ps|
    ensures forall i :: 0 <= i < |ps| ==> ms[i] == ps[i].message
  {
    seq(|ps|, i requires 0 <= i < |ps| => ps[i].message)
  }

  predicate Departed(ds: seq<Departure>, s: Session) {
    exists i :: 0 <= i < |ds| && ds[i].session == s
  }

  /** The branch of `route` that delivers at once. */
  predicate Deliverable(active: map<string, string>, m: FileMessage) {
    && m.participantId in active
    && (m.sessionId == "" || m.sessionId == active[m.participantId])
  }

  // The predicates that the drain loops apply to one entry.

  function PendingDue(now: real): PendingFile -> bool { (p: PendingFile) => p.deadline <= now }

  function PendingLive(now: real): PendingFile -> bool { (p: PendingFile) => p.deadline > now }

  function DepartureDue(now: real): Departure -> bool { (d: Departure) => d.deadline <= now }

  function DepartureLive(now: real): Departure -> bool { (d: Departure) => d.deadline > now }

  function OtherSession(s: Session): Departure -> bool { (d: Departure) => d.session != s }

  /** A join of `sid` releases these pending files. */
  function ReleasedBy(pid: string, sid: string): PendingFile -> bool {
    (p: PendingFile) => p.message.participantId == pid && (p.message.sessionId == "" || p.message.sessionId == sid)
  }

  /** A join of `sid` finds these pending files to belong to a departed session. */
  function RefusedBy(pid: string, sid: string, ds: seq<Departure>): PendingFile -> bool {
    (p: PendingFile) => && p.message.participantId == pid && p.message.sessionId != "" && p.message.sessionId != sid
         && Departed(ds, SessionOf(p.message))
  }

  function KeptByJoin(pid: string, sid: string, ds: seq<Departure>): PendingFile -> bool {
    (p: PendingFile) => !ReleasedBy(pid, sid)(p) && !RefusedBy(pid, sid, ds)(p)
  }

  function OfSession(s: Session): PendingFile -> bool { (p: PendingFile) => SessionOf(p.message) == s }

  function NotOfSession(s: Session): PendingFile -> bool { (p: PendingFile) => SessionOf(p.message) != s }

  // What each operation computes.

  /** Pruning removes prefixes only: it stops at the first entry that is not due. */
  function Prune(s: State, now: real): State {
    var n := Leading(s.pending, PendingDue(now));
    var k := Leading(s.departed, DepartureDue(now));
    s.(pending := s.pending[n..], expired := s.expired + Messages(s.pending[..n]), departed := s.departed[k..])
  }

  function Newest(ds: seq<Departure>, limit: nat): (r: seq<Departure>) {
    if |ds| <= limit then ds else ds[|ds| - limit..]
  }

  function Record(cfg: Config, ds: seq<Departure>, s: Session, now: real): seq<Departure> {
    Newest(Filter(ds, OtherSession(s)) + [Departure(s, now + cfg.departureTtl)], cfg.maxDepartures)
  }

  function RoutePruned(cfg: Config, p: State, m: FileMessage, now: real): (State, FileRoute) {
    if m.sessionId != "" && Departed(p.departed, SessionOf(m)) then (p, Inactive)
    else if Deliverable(p.active, m) then (p, Ready)
    else if |p.pending| >= cfg.maxPending then (p, Full)
    else (p.(pending := p.pending + [PendingFile(m, now + cfg.pendingTtl)]), Buffered)
  }

  function Route(cfg: Config, s: State, m: FileMessage, now: real): (State, FileRoute) {
    RoutePruned(cfg, Prune(s, now), m, now)
  }

  /** A join that replaces a different, non-empty session of the same participant. */
  predicate Supersedes(active: map<string, string>, pid: string, sid: string) {
    pid in active && active[pid] != "" && active[pid] != sid
  }

  function JoinDepartures(cfg: Config, s: State, pid: string, sid: string, now: real): seq<Departure> {
    Filter(if Supersedes(s.active, pid, sid) then Record(cfg, s.departed, Session(pid, s.active[pid]), now)
           else s.departed,
           OtherSession(Session(pid, sid)))
  }

  datatype Joined = Joined(state: State, ready: seq<FileMessage>, inactive: seq<FileMessage>)

  function JoinPruned(cfg: Config, p: State, pid: string, sid: string, now: real): Joined {
    var ds := JoinDepartures(cfg, p, pid, sid, now);
    Joined(State(p.active[pid := sid], Filter(p.pending, KeptByJoin(pid, sid, ds)), ds, p.expired),
           Messages(Filter(p.pending, ReleasedBy(pid, sid))),
           Messages(Filter(p.pending, RefusedBy(pid, sid, ds))))
  }

  function Join(cfg: Config, s: State, pid: string, sid: string, now: real): Joined {
    JoinPruned(cfg, Prune(s, now), pid, sid, now)
  }

  function LeaveActive(active: map<string, string>, pid: string, sid: string): map<string, string> {
    if pid in active && active[pid] == sid then Without(active, pid) else active
  }

  function LeaveDepartures(cfg: Config, s: State, pid: string, sid: string, now: real): seq<Departure> {
    if sid != "" then Record(cfg, s.departed, Session(pid, sid), now) else s.departed
  }

  datatype Left = Left(state: State, discarded: seq<FileMessage>)

  function LeavePruned(cfg: Config, p: State, pid: string, sid: string, now: real): Left {
    Left(State(LeaveActive(p.active, pid, sid), Filter(p.pending, NotOfSession(Session(pid, sid))),
               LeaveDepartures(cfg, p, pid, sid, now), p.expired),
         Messages(Filter(p.pending, OfSession(Session(pid, sid)))))
  }

  function Leave(cfg: Config, s: State, pid: string, sid: string, now: real): Left {
    LeavePruned(cfg, Prune(s, now), pid, sid, now)
  }

  function Expire(s: State, now: real): (State, seq<FileMessage>) {
    var p := Prune(s, now);
    (p.(expired := []), p.expired)
  }

  function NoLater(): (PendingFile, PendingFile) -> bool {
    (p: PendingFile, q: PendingFile) => p.deadline <= q.deadline
  }

  function DepartsNoLater(): (Departure, Departure) -> bool {
    (d: Departure, e: Departure) => d.deadline <= e.deadline
  }

  function DifferentSession(): (Departure, Departure) -> bool {
    (d: Departure, e: Departure) => d.session != e.session
  }

  ghost predicate SortedPending(ps: seq<PendingFile>) { Pairwise(ps, NoLater()) }

  ghost predicate SortedDepartures(ds: seq<Departure>) { Pairwise(ds, DepartsNoLater()) }
}
