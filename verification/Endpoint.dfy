/**
 The participant half of the processor endpoint and its file lane: the roster
 and session map updated at dispatch, the queue of lifecycle events that carries
 them to the orderer, and the worker that runs file callbacks one file at a time.

 `World` and the functions over it say what each step computes; `EndpointRuns`
 has the theorems about runs, and the class `ProcessorEndpoint` performs the
 steps in place, owning a `FileSessionOrderer`.
 */
module Endpoint {
  import opened Seqs
  import opened FileOrdering

  /** The categories of a subscription, reduced to whether files are among them. */
  datatype Categories = Categories(files: bool, others: bool)

  datatype Lifecycle = Lifecycle(joined: bool, pid: string, sid: string)

  /** The callback worker: waiting, or partway through the callbacks of one file. */
  datatype Worker = Idle | Running(message: FileMessage, next: nat)

  /** One callback start, and whether the file was still wanted at that moment. */
  datatype CallbackStart = CallbackStart(message: FileMessage, index: nat, wanted: bool)

  datatype Settings = Settings(orderer: Config, fileHwm: nat, autoSubscribe: bool, defaults: Categories, callbacks: nat)

  datatype World = World(
    sessions: map<string, string>,
    participants: set<string>,
    subscribed: map<string, Categories>,
    lifecycle: seq<Lifecycle>,
    orderer: State,
    files: seq<FileMessage>,
    worker: Worker)

  const Start := World(map[], {}, map[], [], Empty, [], Idle)

  function Subscribe(subscribed: map<string, Categories>, pid: string, wanted: Categories): map<string, Categories> {
    if wanted.files || wanted.others then subscribed[pid := wanted] else Without(subscribed, pid)
  }

  predicate SessionActive(w: World, m: FileMessage) {
    && m.participantId in w.participants
    && (m.sessionId == "" || (m.participantId in w.sessions && w.sessions[m.participantId] == m.sessionId))
  }

  predicate Wanted(w: World, m: FileMessage) {
    SessionActive(w, m) && m.participantId in w.subscribed && w.subscribed[m.participantId].files
  }

  function SessionOr(sessions: map<string, string>, pid: string): string {
    if pid in sessions then sessions[pid] else ""
  }

  predicate DuplicateJoin(w: World, pid: string, sid: string) {
    pid in w.participants && pid in w.sessions && w.sessions[pid] == sid
  }

  predicate StaleLeave(w: World, pid: string, sid: string) {
    var active := SessionOr(w.sessions, pid);
    pid !in w.participants || (sid != "" && active != "" && sid != active)
  }

  function DispatchJoin(cfg: Settings, w: World, pid: string, sid: string): World {
    if DuplicateJoin(w, pid, sid) then w
    else w.(participants := w.participants + {pid},
            sessions := w.sessions[pid := sid],
            subscribed := if cfg.autoSubscribe then Subscribe(w.subscribed, pid, cfg.defaults) else w.subscribed,
            lifecycle := w.lifecycle + [Lifecycle(true, pid, sid)])
  }

  function DispatchLeave(cfg: Settings, w: World, pid: string, sid: string): World {
    if StaleLeave(w, pid, sid) then w
    else
      var departed := if sid != "" then sid else SessionOr(w.sessions, pid);
      w.(participants := w.participants - {pid},
         sessions := Without(w.sessions, pid),
         subscribed := if cfg.autoSubscribe then Without(w.subscribed, pid) else w.subscribed,
         lifecycle := if departed != "" then w.lifecycle + [Lifecycle(false, pid, departed)] else w.lifecycle)
  }

  function Enqueue(cfg: Settings, files: seq<FileMessage>, m: FileMessage): seq<FileMessage> {
    if |files| < cfg.fileHwm then files + [m] else files
  }

  /** Queue the released files that are still wanted, as far as there is room. */
  function EnqueueWanted(cfg: Settings, w: World, files: seq<FileMessage>, ready: seq<FileMessage>): seq<FileMessage>
    decreases |ready|
  {
    if ready == [] then files
    else EnqueueWanted(cfg, w, if Wanted(w, ready[0]) then Enqueue(cfg, files, ready[0]) else files, ready[1..])
  }

  /** Apply the oldest waiting lifecycle event to the orderer. */
  function ApplyOne(cfg: Settings, w: World, now: real): World
    requires w.lifecycle != []
  {
    var event := w.lifecycle[0];
    if event.joined then
      var j := Join(cfg.orderer, w.orderer, event.pid, event.sid, now);
      w.(lifecycle := w.lifecycle[1..], orderer := Expire(j.state, now).0,
         files := EnqueueWanted(cfg, w, w.files, j.ready))
    else
      var l := Leave(cfg.orderer, w.orderer, event.pid, event.sid, now);
      w.(lifecycle := w.lifecycle[1..], orderer := Expire(l.state, now).0)
  }

  function RouteOne(cfg: Settings, w: World, m: FileMessage, now: real): World {
    var (state, route) := Route(cfg.orderer, w.orderer, m, now);
    w.(orderer := Expire(state, now).0,
       files := if route == Ready && Wanted(w, m) then Enqueue(cfg, w.files, m) else w.files)
  }

  /** The worker takes the next file, or moves on to the next callback of the current one. */
  function Work(cfg: Settings, w: World): World {
    match w.worker
    case Idle =>
      if w.files == [] then w
      else if Wanted(w, w.files[0]) && cfg.callbacks > 0 then
        w.(files := w.files[1..], worker := Running(w.files[0], 1))
      else w.(files := w.files[1..])
    case Running(m, next) =>
      if next < cfg.callbacks then w.(worker := Running(m, next + 1)) else w.(worker := Idle)
  }

  /** The callback start that a worker step performs, if any. */
  function Starts(cfg: Settings, w: World): seq<CallbackStart> {
    match w.worker
    case Idle =>
      if w.files != [] && Wanted(w, w.files[0]) && cfg.callbacks > 0
      then [CallbackStart(w.files[0], 0, Wanted(w, w.files[0]))] else []
    case Running(m, next) =>
      if next < cfg.callbacks then [CallbackStart(m, next, Wanted(w, m))] else []
  }

  /** What is wanted depends on the roster, not on the queues. */
  lemma {:induction false} WantedIgnoresQueues(w: World, v: World, cfg: Settings, files: seq<FileMessage>,
                                               ready: seq<FileMessage>)
    requires w.participants == v.participants && w.sessions == v.sessions && w.subscribed == v.subscribed
    ensures EnqueueWanted(cfg, w, files, ready) == EnqueueWanted(cfg, v, files, ready)
    decreases |ready|
  {
    if ready != [] {
      WantedIgnoresQueues(w, v, cfg, if Wanted(w, ready[0]) then Enqueue(cfg, files, ready[0]) else files, ready[1..]);
    }
  }
}
