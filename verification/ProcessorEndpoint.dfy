/**
 The processor endpoint as an object that owns a `FileSessionOrderer` and changes
 its roster, subscriptions and queues in place. Every method performs a step of
 `Endpoint`, keeps the agreement with the orderer that `EndpointRuns` proves of
 runs, and says what its caller can rely on.
 */
module ProcessorEndpoints {
  import opened Seqs
  import opened FileOrdering
  import opened FileSessionOrderers
  import opened Endpoint
  import opened EndpointRuns
  import Runs = FileOrderingRuns

  class ProcessorEndpoint {
    const cfg: Settings
    var sessions: map<string, string>
    var participants: set<string>
    var subscribed: map<string, Categories>
    var lifecycle: seq<Lifecycle>
    const orderer: FileSessionOrderer
    var files: seq<FileMessage>
    var worker: Worker
    /** The participants whose last accepted event was a leave while their session id was empty. */
    ghost var orphans: set<string>

    ghost predicate Valid()
      reads this, orderer
    {
      orderer.Valid() && orderer.cfg == cfg.orderer && Agrees(Contents(), orphans) && PastFirst(Contents())
    }

    function Contents(): World
      reads this, orderer
    {
      World(sessions, participants, subscribed, lifecycle, orderer.Contents(), files, worker)
    }

    constructor (cfg: Settings, ghost clock: real)
      ensures Valid() && Contents() == Start && orphans == {} && this.cfg == cfg && fresh(orderer)
    {
      this.cfg := cfg;
      sessions, participants, subscribed, lifecycle := map[], {}, map[], [];
      orderer := new FileSessionOrderer(cfg.orderer, clock);
      files, worker, orphans := [], Idle, {};
      new;
      assert WithOrphans(map[], {}) == map[];
    }

    method SetFilter(pid: string, wanted: Categories)
      modifies this`subscribed
      ensures subscribed == Subscribe(old(subscribed), pid, wanted)
    {
      if wanted.files || wanted.others {
        subscribed := subscribed[pid := wanted];
      } else {
        subscribed := Without(subscribed, pid);
      }
    }

    /** From now on the participant's files are wanted iff the filter has them; nobody else's change. */
    method SubscribeTo(pid: string, wanted: Categories)
      requires Valid()
      modifies this
      ensures Valid() && Contents() == Step(cfg, old(Contents()), Event.Subscribed(pid, wanted))
      ensures orphans == old(orphans)
      ensures forall m: FileMessage :: m.participantId == pid ==>
        (Wanted(Contents(), m) <==> wanted.files && SessionActive(old(Contents()), m))
      ensures forall m: FileMessage :: m.participantId != pid ==>
        (Wanted(Contents(), m) <==> Wanted(old(Contents()), m))
    {
      hide Agrees, Runs.Inv, Runs.Ordered;
      StepAgrees(cfg, Contents(), orphans, Event.Subscribed(pid, wanted));
      SetFilter(pid, wanted);
    }

    /**
     A join puts the participant on the roster with its session, an accepted leave
     takes it off and makes all its files unwanted; a duplicate join and a stale
     leave change nothing. Everybody else stays as they are.
     */
    method Dispatch(joined: bool, pid: string, sid: string)
      requires Valid()
      modifies this
      ensures Valid() && Contents() == Step(cfg, old(Contents()), Dispatched(joined, pid, sid))
      ensures orphans == OrphansAfter(old(Contents()), old(orphans), Dispatched(joined, pid, sid))
      ensures joined ==> pid in participants && pid in sessions && sessions[pid] == sid && pid !in orphans
      ensures !joined && !StaleLeave(old(Contents()), pid, sid) ==>
        pid !in participants && forall m: FileMessage :: m.participantId == pid ==> !Wanted(Contents(), m)
      ensures (if joined then DuplicateJoin(old(Contents()), pid, sid) else StaleLeave(old(Contents()), pid, sid)) ==>
        Contents() == old(Contents())
      ensures forall q :: q != pid ==>
        && (q in participants <==> q in old(participants)) && SessionOr(sessions, q) == SessionOr(old(sessions), q)
      ensures files == old(files) && worker == old(worker) && old(lifecycle) <= lifecycle
    {
      hide Agrees, Runs.Inv, Runs.Ordered;
      ghost var w := Contents();
      StepAgrees(cfg, w, orphans, Dispatched(joined, pid, sid));
      AgreedRoster(w, orphans);
      orphans := OrphansAfter(w, orphans, Dispatched(joined, pid, sid));
      if joined {
        if !(pid in participants && pid in sessions && sessions[pid] == sid) {
          participants := participants + {pid};
          sessions := sessions[pid := sid];
          if cfg.autoSubscribe {
            SetFilter(pid, cfg.defaults);
          }
          lifecycle := lifecycle + [Lifecycle(true, pid, sid)];
        }
      } else {
        var active := if pid in sessions then sessions[pid] else "";
        if pid in participants && !(sid != "" && active != "" && sid != active) {
          var departed := if sid != "" then sid else active;
          participants := participants - {pid};
          sessions := Without(sessions, pid);
          if cfg.autoSubscribe {
            subscribed := Without(subscribed, pid);
          }
          if departed != "" {
            lifecycle := lifecycle + [Lifecycle(false, pid, departed)];
          }
        }
      }
    }

    method EnqueueFile(m: FileMessage)
      modifies this`files
      ensures files == Enqueue(cfg, old(files), m)
    {
      if |files| < cfg.fileHwm {
        files := files + [m];
      }
    }

    method EnqueueReady(ready: seq<FileMessage>)
      modifies this`files
      ensures files == EnqueueWanted(cfg, old(Contents()), old(files), ready)
    {
      ghost var w := Contents();
      var i := 0;
      while i < |ready|
        invariant 0 <= i <= |ready|
        invariant Contents() == w.(files := files)
        invariant EnqueueWanted(cfg, w, files, ready[i..]) == EnqueueWanted(cfg, w, w.files, ready)
      {
        if Wanted(Contents(), ready[i]) {
          EnqueueFile(ready[i]);
        }
        i := i + 1;
      }
    }

    /** The oldest lifecycle event reaches the orderer; with none left and no orphan, both agree on who is active. */
    method ApplyLifecycle(now: real)
      requires Valid() && lifecycle != []
      modifies this, orderer
      ensures Valid() && Contents() == ApplyOne(cfg, old(Contents()), now) && orphans == old(orphans)
      ensures lifecycle == old(lifecycle)[1..]
      ensures lifecycle == [] ==> (orderer.active == sessions <==> orphans == {})
    {
      hide Filter, Prune, JoinPruned, LeavePruned, Agrees, Runs.Inv, Runs.Ordered;
      ghost var w := Contents();
      AppliedAgrees(cfg, w, orphans, now);
      var event := lifecycle[0];
      lifecycle := lifecycle[1..];
      if event.joined {
        var ready, inactive := orderer.ParticipantJoined(event.pid, event.sid, now);
        WantedIgnoresQueues(w, Contents(), cfg, files, ready);
        EnqueueReady(ready);
      } else {
        var discarded := orderer.ParticipantLeft(event.pid, event.sid, now);
      }
      var expired := orderer.DrainExpired(now);
      if lifecycle == [] { DrainedAgrees(Contents(), orphans); }
    }

    /** A routed file is queued only if it is wanted, last and only while there is room. */
    method RouteFile(m: FileMessage, now: real)
      requires Valid()
      modifies this, orderer
      ensures Valid() && Contents() == RouteOne(cfg, old(Contents()), m, now) && orphans == old(orphans)
      ensures files == old(files) || (files == old(files) + [m] && Wanted(Contents(), m) && |files| <= cfg.fileHwm)
    {
      hide Agrees, Runs.Inv, Runs.Ordered;
      RoutedAgrees(cfg, Contents(), orphans, m, now);
      var route := orderer.RouteFile(m, now);
      if route == Ready && Wanted(Contents(), m) {
        EnqueueFile(m);
      }
      var expired := orderer.DrainExpired(now);
    }

    /**
     One step of the worker: at most one callback starts, the first one of a file
     only while the file is wanted, and files are taken from the front one at a time.
     */
    method RunWorker() returns (starts: seq<CallbackStart>)
      requires Valid()
      modifies this
      ensures Valid() && Contents() == Work(cfg, old(Contents())) && orphans == old(orphans)
      ensures starts == Starts(cfg, old(Contents())) && |starts| <= 1
      ensures forall c :: c in starts ==>
        c.index < cfg.callbacks && c.wanted == Wanted(old(Contents()), c.message) && (c.index == 0 ==> c.wanted)
      ensures files != old(files) ==> old(worker).Idle? && old(files) != [] && files == old(files)[1..]
    {
      hide Agrees, Runs.Inv, Runs.Ordered;
      ghost var w := Contents();
      StepAgrees(cfg, w, orphans, Worked);
      StepPastFirst(cfg, w, Worked);
      starts := [];
      match worker
      case Idle =>
        if files != [] {
          var m := files[0];
          if Wanted(Contents(), m) && cfg.callbacks > 0 {
            worker := Running(m, 1);
            starts := [CallbackStart(m, 0, Wanted(Contents(), m))];
          }
          files := files[1..];
        }
      case Running(m, next) =>
        if next < cfg.callbacks {
          starts := [CallbackStart(m, next, Wanted(Contents(), m))];
          worker := Running(m, next + 1);
        } else {
          worker := Idle;
        }
    }
  }

  lemma AgreedRoster(w: World, orphans: set<string>)
    requires Agrees(w, orphans)
    ensures w.sessions.Keys == w.participants
    ensures forall p :: p in w.participants ==> p in w.sessions && p !in orphans
  {
  }
}
