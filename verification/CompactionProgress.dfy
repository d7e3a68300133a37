/**
 Jobs that outlive their memory, and progress: writes and completed jobs leave
 a lane within its trigger, or with a job on the way, and a chain of jobs ends.
 */
module CompactionProgress {
  import opened Seqs
  import opened Rendering
  import opened Budgets
  import opened Summaries
  import opened Compaction
  import opened CompactionSafety
  import opened CompactionRuns

  // Who belongs to whom.

  /** A lane's job, while it exists, is a job of that lane. */
  ghost predicate JobsAtHome(lanes: map<Place, Lane>, jobs: map<nat, Job>) {
    forall place :: place in lanes && lanes[place].job.Some? && lanes[place].job.value in jobs ==>
      jobs[lanes[place].job.value].place == place
  }

  /** A job's memory belongs to its participant or to nobody, and no memory belongs to two. */
  ghost predicate Owners(participants: map<string, nat>, jobs: map<nat, Job>) {
    && (forall p, q :: p in participants && q in participants && participants[p] == participants[q] ==> p == q)
    && (forall j, p :: j in jobs && p in participants && participants[p] == jobs[j].place.memory ==>
          jobs[j].participant == p)
  }

  ghost predicate Tied(s: State) {
    Fresh(s) && JobsAtHome(s.lanes, s.jobs) && Owners(s.participants, s.jobs)
  }

  lemma EnsureTied(s: State, p: string)
    requires Tied(s)
    ensures Tied(Ensure(s, p))
  {
  }

  lemma AppendTied(s: State, p: string, key: Key, contents: seq<Content>)
    requires Tied(s) && p in s.participants
    ensures Tied(AppendTo(s, p, key, contents))
  {
    hide Numbered, Owners;
  }

  lemma ScheduleTied(s: State, p: string, key: Key, limits: Limits)
    requires Tied(s)
    ensures Tied(Schedule(s, p, key, limits))
  {
    hide Due, OldestBatch, ClipSingle, Available, PreviousInput;
  }

  lemma WriteTied(cfg: Config, s: State, p: string, key: Key, contents: seq<Content>)
    requires Tied(s)
    ensures Tied(Write(cfg, s, p, key, contents))
  {
    hide LimitsFor, Tied, Schedule, Ensure, Numbered, AddEntries;
    var limits := LimitsFor(cfg, key);
    if limits.Some? && contents == [] {
      ScheduleTied(s, p, key, limits.value);
    } else if limits.Some? {
      EnsureTied(s, p);
      OwnedAfterEnsure(s, p);
      AppendTied(Ensure(s, p), p, key, contents);
      ScheduleTied(AppendTo(Ensure(s, p), p, key, contents), p, key, limits.value);
    }
  }

  lemma OwnedAfterEnsure(s: State, p: string)
    ensures p in Ensure(s, p).participants
  {
  }

  lemma FinishTied(s: State, j: nat, first: Reply, second: Reply)
    requires Tied(s)
    ensures Tied(Finish(s, j, first, second))
  {
    hide BoundedSummary, Filter, Latest;
  }

  lemma DropTied(s: State, place: Place)
    requires Tied(s) && LaneAt(s.lanes, place).job.Some?
    ensures Tied(DropJob(s, place))
  {
  }

  lemma FewerJobsTied(s: State, j: nat)
    requires Tied(s)
    ensures Tied(s.(jobs := Without(s.jobs, j)))
  {
  }

  lemma ForgetTied(s: State, j: nat)
    requires Tied(s)
    ensures Tied(Forget(s, j))
  {
    hide Schedule, DropJob, Tied;
    if j in s.jobs && s.jobs[j].phase.Finished? {
      var job := s.jobs[j];
      var t := s.(jobs := Without(s.jobs, j));
      FewerJobsTied(s, j);
      if job.participant in s.participants {
        var place := Place(s.participants[job.participant], job.place.key);
        if LaneAt(s.lanes, place).job == Some(j) {
          DropTied(t, place);
          ScheduleTied(DropJob(t, place), job.participant, place.key, job.limits);
        }
      }
    }
  }

  lemma StepTied(cfg: Config, s: State, e: Event)
    requires Tied(s)
    ensures Tied(Step(cfg, s, e))
  {
    match e
    case Written(p, key, contents) => hide *; if Fits(key, contents) { WriteTied(cfg, s, p, key, contents); }
    case Finishes(j, first, second) => FinishTied(s, j, first, second);
    case Forgotten(j) => ForgetTied(s, j);
    case Cleared(p) =>
  }

  lemma {:induction false} RunTied(cfg: Config, s: State, es: seq<Event>)
    requires Tied(s)
    ensures Tied(Run(cfg, s, es))
    decreases |es|
  {
    if es != [] {
      StepTied(cfg, s, es[0]);
      RunTied(cfg, Step(cfg, s, es[0]), es[1..]);
    }
  }

  lemma ReachableTied(cfg: Config, s: State)
    requires Reachable(cfg, s)
    ensures Tied(s)
  {
    var es :| s == Run(cfg, Init, es);
    RunTied(cfg, Init, es);
  }

  // Theorem 5: after a clear, nothing the old memory's jobs do is seen.

  /** Nobody has this memory, and nobody ever will. */
  ghost predicate Dead(s: State, memory: nat) {
    memory in s.counters && forall p :: p in s.participants ==> s.participants[p] != memory
  }

  lemma ScheduleKeeps(s: State, p: string, key: Key, limits: Limits, place: Place)
    ensures var t := Schedule(s, p, key, limits);
      && t.participants == s.participants && t.counters == s.counters
      && (!(Owns(s.participants, p, place.memory) && key == place.key) ==>
            LaneAt(t.lanes, place) == LaneAt(s.lanes, place))
  {
    hide Due, NewJob;
  }

  lemma AppendKeeps(s: State, p: string, key: Key, contents: seq<Content>, q: string, place: Place)
    requires Fresh(s) && place.memory in s.counters
    ensures p in Ensure(s, p).participants
    ensures var t := AppendTo(Ensure(s, p), p, key, contents);
      && place.memory in t.counters
      && (Owns(t.participants, q, place.memory) <==> Owns(s.participants, q, place.memory))
      && (!(Owns(s.participants, p, place.memory) && key == place.key) ==>
            LaneAt(t.lanes, place) == LaneAt(s.lanes, place))
  {
    hide Numbered, AddEntries;
  }

  /** A write neither takes nor gives a memory that exists, and touches only the participant's own lane. */
  lemma WriteKeepsOwner(cfg: Config, s: State, p: string, key: Key, contents: seq<Content>, q: string, memory: nat)
    requires Fresh(s) && memory in s.counters
    ensures memory in Write(cfg, s, p, key, contents).counters
    ensures Owns(Write(cfg, s, p, key, contents).participants, q, memory) <==> Owns(s.participants, q, memory)
  {
    AppendKeeps(s, p, key, contents, q, Place(memory, key));
    var t := AppendTo(Ensure(s, p), p, key, contents);
    hide Schedule, AppendTo, Ensure, LimitsFor, Fresh;
    if LimitsFor(cfg, key).Some? {
      ScheduleKeeps(s, p, key, LimitsFor(cfg, key).value, Place(memory, key));
      ScheduleKeeps(t, p, key, LimitsFor(cfg, key).value, Place(memory, key));
    }
  }

  lemma ForgetKeepsOwners(s: State, j: nat)
    ensures Forget(s, j).participants == s.participants && Forget(s, j).counters == s.counters
  {
    hide Due, NewJob;
  }

  lemma StepKeepsDead(cfg: Config, s: State, e: Event, memory: nat)
    requires Fresh(s) && Dead(s, memory)
    ensures Dead(Step(cfg, s, e), memory)
  {
    hide Write, Finish, Forget, Fits;
    match e
    case Written(p, key, contents) =>
      if Fits(key, contents) {
        forall q | q in Write(cfg, s, p, key, contents).participants
          ensures Write(cfg, s, p, key, contents).participants[q] != memory
        {
          WriteKeepsOwner(cfg, s, p, key, contents, q, memory);
        }
        WriteKeepsOwner(cfg, s, p, key, contents, p, memory);
      }
    case Finishes(j, first, second) => FinishKeepsOwners(s, j, first, second);
    case Forgotten(j) => ForgetKeepsOwners(s, j);
    case Cleared(p) =>
  }

  lemma FinishKeepsOwners(s: State, j: nat, first: Reply, second: Reply)
    ensures Finish(s, j, first, second).participants == s.participants
    ensures Finish(s, j, first, second).counters == s.counters
  {
    hide BoundedSummary, Commit;
  }

  lemma {:induction false} RunKeepsDead(cfg: Config, s: State, es: seq<Event>, memory: nat)
    requires Tied(s) && Dead(s, memory)
    ensures Dead(Run(cfg, s, es), memory) && Tied(Run(cfg, s, es))
    decreases |es|
  {
    hide Tied, Dead;
    if es != [] {
      assert Fresh(s) by { TiedIsFresh(s); }
      StepTied(cfg, s, es[0]);
      StepKeepsDead(cfg, s, es[0], memory);
      RunKeepsDead(cfg, Step(cfg, s, es[0]), es[1..], memory);
    }
  }

  lemma TiedIsFresh(s: State)
    requires Tied(s)
    ensures Fresh(s)
  {
  }

  predicate SameMemories(s: State, t: State) {
    t.participants == s.participants && t.counters == s.counters && t.lanes == s.lanes
  }

  /** A job of a memory that was cleared changes no memory, however late it finishes and whatever was written since. */
  lemma OutlivingJobsChangeNothing(cfg: Config, s: State, p: string, after: seq<Event>, j: nat,
                                   first: Reply, second: Reply)
    requires Reachable(cfg, s) && p in s.participants
    requires var later := Run(cfg, Clear(s, p), after);
      j in later.jobs && later.jobs[j].place.memory == s.participants[p]
    ensures var later := Run(cfg, Clear(s, p), after);
      SameMemories(later, Finish(later, j, first, second)) && SameMemories(later, Forget(later, j))
  {
    var memory := s.participants[p];
    ReachableTied(cfg, s);
    StepTied(cfg, s, Cleared(p));
    assert Dead(Clear(s, p), memory);
    RunKeepsDead(cfg, Clear(s, p), after, memory);
    var later := Run(cfg, Clear(s, p), after);
    hide Clear, Run, Finish, Forget;
    DeadJobsChangeNothing(later, j, first, second);
  }

  lemma DeadJobsChangeNothing(s: State, j: nat, first: Reply, second: Reply)
    requires Tied(s) && j in s.jobs && Dead(s, s.jobs[j].place.memory)
    ensures SameMemories(s, Finish(s, j, first, second)) && SameMemories(s, Forget(s, j))
  {
    hide BoundedSummary, Schedule;
    var job := s.jobs[j];
    if job.participant in s.participants {
      var place := Place(s.participants[job.participant], job.place.key);
      assert LaneAt(s.lanes, place).job != Some(j);
    }
  }

  // Theorem 6: progress.

  predicate OnTheWay(jobs: map<nat, Job>, lane: Lane) {
    && lane.job.Some? && lane.job.value in jobs
    && (jobs[lane.job.value].phase == Running || jobs[lane.job.value].phase == Finished(true))
  }

  ghost predicate CalmAt(cfg: Config, s: State, place: Place) {
    LimitsFor(cfg, place.key).Some? ==>
      OnTheWay(s.jobs, LaneAt(s.lanes, place))
      || !Due(LimitsFor(cfg, place.key).value, place.key, LaneAt(s.lanes, place).live)
  }

  ghost predicate Calm(cfg: Config, s: State) {
    forall p, key :: p in s.participants ==> CalmAt(cfg, s, Place(s.participants[p], key))
  }

  /** A lane that is not due is within its trigger, or one exchange is left. */
  lemma NotDue(limits: Limits, key: Key, live: seq<Entry>)
    ensures !Due(limits, key, live) <==> Total(live) <= limits.trigger || (key.Dialogue? && |live| == 1)
  {
  }

  /** After a write, a job runs, or the lane is within its trigger, or one exchange is left. */
  lemma WritesSettle(cfg: Config, s: State, p: string, key: Key, contents: seq<Content>)
    requires LimitsFor(cfg, key).Some? && (contents != [] || p in s.participants)
    ensures var t := Write(cfg, s, p, key, contents);
      && p in t.participants
      && var lane := LaneAt(t.lanes, Place(t.participants[p], key));
         RunningJob(t.jobs, lane.job) || Total(lane.live) <= LimitsFor(cfg, key).value.trigger
         || (key.Dialogue? && |lane.live| == 1)
  {
    hide LimitsFor, Numbered, NewJob, Due, Total;
    OwnedAfterEnsure(s, p);
    var t := if contents == [] then s else AppendTo(Ensure(s, p), p, key, contents);
    ScheduleSettles(t, p, key, LimitsFor(cfg, key).value);
    NotDue(LimitsFor(cfg, key).value, key, LaneAt(t.lanes, Place(t.participants[p], key)).live);
    ScheduleGrows(t, p, key, LimitsFor(cfg, key).value, Place(t.participants[p], key));
  }

  lemma ScheduleSettles(s: State, p: string, key: Key, limits: Limits)
    requires p in s.participants
    ensures var t := Schedule(s, p, key, limits);
      var lane := LaneAt(t.lanes, Place(s.participants[p], key));
      t.participants == s.participants && (RunningJob(t.jobs, lane.job) || !Due(limits, key, lane.live))
  {
    hide Due;
  }

  lemma ScheduleCalm(cfg: Config, s: State, p: string, key: Key, place: Place)
    requires Fresh(s) && p in s.participants && LimitsFor(cfg, key).Some?
    requires place != Place(s.participants[p], key) ==> CalmAt(cfg, s, place)
    ensures CalmAt(cfg, Schedule(s, p, key, LimitsFor(cfg, key).value), place)
  {
    hide Due, LimitsFor;
  }

  lemma WriteCalm(cfg: Config, s: State, p: string, key: Key, contents: seq<Content>, q: string, other: Key)
    requires Tied(s) && Calm(cfg, s) && q in Write(cfg, s, p, key, contents).participants
    ensures var t := Write(cfg, s, p, key, contents); CalmAt(cfg, t, Place(t.participants[q], other))
  {
    var limits := LimitsFor(cfg, key);
    if limits.Some? && contents == [] {
      assert CalmAt(cfg, s, Place(s.participants[q], other)) by {
        ScheduleKeeps(s, p, key, limits.value, Place(0, key));
      }
      if p in s.participants {
        TiedIsFresh(s);
        hide LimitsFor, Due, Tied, NewJob;
        ScheduleCalm(cfg, s, p, key, Place(s.participants[q], other));
      }
    } else if limits.Some? {
      var t := AppendTo(Ensure(s, p), p, key, contents);
      EnsureTied(s, p);
      OwnedAfterEnsure(s, p);
      AppendTied(Ensure(s, p), p, key, contents);
      TiedIsFresh(t);
      hide LimitsFor, Numbered, NewJob, Due, Tied;
      ScheduleSettles(t, p, key, limits.value);
      var place := Place(t.participants[q], other);
      if place != Place(t.participants[p], key) {
        AppendCalm(cfg, s, p, key, contents, q, other);
      }
      ScheduleCalm(cfg, t, p, key, place);
    }
  }

  lemma AppendCalm(cfg: Config, s: State, p: string, key: Key, contents: seq<Content>, q: string, other: Key)
    requires Fresh(s) && Calm(cfg, s)
    requires p in Ensure(s, p).participants && q in AppendTo(Ensure(s, p), p, key, contents).participants
    ensures var t := AppendTo(Ensure(s, p), p, key, contents);
      Place(t.participants[q], other) != Place(t.participants[p], key) ==>
        CalmAt(cfg, t, Place(t.participants[q], other))
  {
    hide Numbered, LimitsFor, OnTheWay, Compactable;
  }

  lemma FinishCalm(cfg: Config, s: State, j: nat, first: Reply, second: Reply, q: string, key: Key)
    requires Good(cfg, s) && Tied(s) && Calm(cfg, s) && q in s.participants
    requires Succeeds(s, Finishes(j, first, second))
    ensures CalmAt(cfg, Finish(s, j, first, second), Place(s.participants[q], key))
  {
    var place := Place(s.participants[q], key);
    assert CalmAt(cfg, s, place);
    if j in s.jobs && s.jobs[j].phase == Running {
      assert JobGood(cfg, s.lanes, j, s.jobs[j]);
      WorkingOwns(LaneAt(s.lanes, s.jobs[j].place), j, s.jobs[j]);
      if LaneAt(s.lanes, place).job == Some(j) {
        assert s.jobs[j].place == place && s.jobs[j].participant == q;
      }
      hide Good, Tied, Calm, Filter, Latest, Due, LimitsFor, BoundedSummary;
      FinishCalmAt(cfg, s, j, first, second, place);
    }
  }

  lemma FinishCalmAt(cfg: Config, s: State, j: nat, first: Reply, second: Reply, place: Place)
    requires CalmAt(cfg, s, place) && j in s.jobs && s.jobs[j].phase == Running
    requires LaneAt(s.lanes, s.jobs[j].place).job == Some(j)
    requires LaneAt(s.lanes, place).job == Some(j) ==> Commits(s, j, first, second)
    ensures CalmAt(cfg, Finish(s, j, first, second), place)
  {
    hide BoundedSummary, Filter, Latest, LimitsFor, Due;
  }

  lemma ForgetCalm(cfg: Config, s: State, j: nat, q: string, key: Key)
    requires Good(cfg, s) && Tied(s) && Calm(cfg, s) && q in s.participants
    ensures CalmAt(cfg, Forget(s, j), Place(s.participants[q], key))
  {
    var place := Place(s.participants[q], key);
    assert CalmAt(cfg, s, place);
    if j in s.jobs && s.jobs[j].phase.Finished? {
      assert JobGood(cfg, s.lanes, j, s.jobs[j]);
      ForgetCalmAt(cfg, s, j, q, key);
    }
  }

  lemma ForgetCalmAt(cfg: Config, s: State, j: nat, q: string, key: Key)
    requires Tied(s) && q in s.participants && CalmAt(cfg, s, Place(s.participants[q], key))
    requires j in s.jobs && s.jobs[j].phase.Finished? && LimitsFor(cfg, s.jobs[j].place.key) == Some(s.jobs[j].limits)
    ensures CalmAt(cfg, Forget(s, j), Place(s.participants[q], key))
  {
    hide LimitsFor, Due, Schedule;
    var place := Place(s.participants[q], key);
    var job := s.jobs[j];
    if LaneAt(s.lanes, place).job == Some(j) {
      assert job.place == place && job.participant == q;
    }
    if job.participant in s.participants {
      var owned := Place(s.participants[job.participant], job.place.key);
      var t := DropJob(s.(jobs := Without(s.jobs, j)), owned);
      if LaneAt(s.lanes, owned).job == Some(j) && job.phase.committed {
        ScheduleCalm(cfg, t, job.participant, owned.key, place);
      }
    }
  }

  /** The step is not a failure of a job whose memory still counts. */
  predicate Succeeds(s: State, e: Event) {
    (&& e.Finishes? && e.j in s.jobs && s.jobs[e.j].phase == Running
     && Owns(s.participants, s.jobs[e.j].participant, s.jobs[e.j].place.memory))
    ==> Commits(s, e.j, e.first, e.second)
  }

  predicate RunSucceeds(cfg: Config, s: State, es: seq<Event>)
    decreases |es|
  {
    es != [] ==> Succeeds(s, es[0]) && RunSucceeds(cfg, Step(cfg, s, es[0]), es[1..])
  }

  lemma StepCalm(cfg: Config, s: State, e: Event)
    requires Good(cfg, s) && Tied(s) && Calm(cfg, s) && Succeeds(s, e)
    ensures Calm(cfg, Step(cfg, s, e))
  {
    var t := Step(cfg, s, e);
    forall q, key | q in t.participants ensures CalmAt(cfg, t, Place(t.participants[q], key)) {
      hide Good, Tied, Write, Finish, Forget, Fits, CalmAt, Succeeds;
      match e
      case Written(p, k, contents) => if Fits(k, contents) { WriteCalm(cfg, s, p, k, contents, q, key); }
      case Finishes(j, first, second) =>
        FinishKeepsOwners(s, j, first, second);
        FinishCalm(cfg, s, j, first, second, q, key);
      case Forgotten(j) =>
        ForgetKeepsOwners(s, j);
        ForgetCalm(cfg, s, j, q, key);
      case Cleared(p) => ClearCalm(cfg, s, p, q, key);
    }
  }

  lemma ClearCalm(cfg: Config, s: State, p: string, q: string, key: Key)
    requires Calm(cfg, s) && q in Clear(s, p).participants
    ensures CalmAt(cfg, Clear(s, p), Place(Clear(s, p).participants[q], key))
  {
    hide LimitsFor, Due;
    assert q in s.participants && CalmAt(cfg, s, Place(s.participants[q], key));
  }

  lemma {:induction false} RunCalm(cfg: Config, s: State, es: seq<Event>)
    requires Good(cfg, s) && Tied(s) && Calm(cfg, s) && RunSucceeds(cfg, s, es)
    ensures Calm(cfg, Run(cfg, s, es))
    decreases |es|
  {
    hide Good, Tied, Calm, Succeeds;
    if es != [] {
      StepCalm(cfg, s, es[0]);
      StepGood(cfg, s, es[0]);
      StepTied(cfg, s, es[0]);
      RunCalm(cfg, Step(cfg, s, es[0]), es[1..]);
    }
  }

  /** In a run without failed jobs, a lane with no job outstanding is within its trigger, or one exchange is left. */
  lemma QuietLanesAreWithin(cfg: Config, es: seq<Event>, p: string, key: Key)
    requires RunSucceeds(cfg, Init, es) && LimitsFor(cfg, key).Some?
    requires var s := Run(cfg, Init, es);
      p in s.participants && !OnTheWay(s.jobs, LaneAt(s.lanes, Place(s.participants[p], key)))
    ensures var s := Run(cfg, Init, es);
      var live := LaneAt(s.lanes, Place(s.participants[p], key)).live;
      Total(live) <= LimitsFor(cfg, key).value.trigger || (key.Dialogue? && |live| == 1)
  {
    RunCalm(cfg, Init, es);
    var s := Run(cfg, Init, es);
    assert CalmAt(cfg, s, Place(s.participants[p], key));
    NotDue(LimitsFor(cfg, key).value, key, LaneAt(s.lanes, Place(s.participants[p], key)).live);
  }

  // Theorem 7: a chain of jobs ends.

  predicate CommitsAt(s: State, e: Event, place: Place) {
    e.Finishes? && Commits(s, e.j, e.first, e.second) && s.jobs[e.j].place == place
  }

  function CommitCount(cfg: Config, s: State, es: seq<Event>, place: Place): nat
    decreases |es|
  {
    if es == [] then 0
    else (if CommitsAt(s, es[0], place) then 1 else 0) + CommitCount(cfg, Step(cfg, s, es[0]), es[1..], place)
  }

  /** Only `p` can have this memory. */
  ghost predicate Sole(s: State, p: string, memory: nat) {
    memory in s.counters && forall q :: Owns(s.participants, q, memory) ==> q == p
  }

  /** What one step without a write to the lane leaves live; every commit takes at least one entry. */
  lemma StepShrinks(cfg: Config, s: State, e: Event, p: string, place: Place)
    requires Good(cfg, s) && Sole(s, p, place.memory)
    requires e.Written? ==> e.p != p || e.key != place.key
    ensures var live, later := LaneAt(s.lanes, place).live, LaneAt(Step(cfg, s, e).lanes, place).live;
      && |later| + (if CommitsAt(s, e, place) then 1 else 0) <= |live|
      && (place.key.Dialogue? && live != [] ==> later != [])
    ensures Sole(Step(cfg, s, e), p, place.memory)
  {
    match e
    case Written(q, key, contents) =>
      hide Good, LimitsFor, Numbered, Due, NewJob, Fits;
      if Fits(key, contents) {
        GoodIsFresh(cfg, s);
        forall r ensures Owns(Write(cfg, s, q, key, contents).participants, r, place.memory)
                         <==> Owns(s.participants, r, place.memory) {
          WriteKeepsOwner(cfg, s, q, key, contents, r, place.memory);
        }
        WriteKeepsOwner(cfg, s, q, key, contents, p, place.memory);
        WriteElsewhere(cfg, s, q, key, contents, place);
      }
    case Finishes(j, first, second) =>
      FinishKeepsOwners(s, j, first, second);
      FinishGrows(cfg, s, j, first, second, place);
      hide Good, BoundedSummary, Commit;
      if CommitsAt(s, e, place) {
        CommitFolds(cfg, s, j, first, second);
      }
    case Forgotten(j) =>
      hide Good, Forget;
      ForgetKeepsOwners(s, j);
      ForgetLane(s, j, place);
    case Cleared(q) =>
      assert forall r :: Owns(Clear(s, q).participants, r, place.memory) ==> Owns(s.participants, r, place.memory);
  }

  lemma GoodIsFresh(cfg: Config, s: State)
    requires Good(cfg, s)
    ensures Fresh(s)
  {
  }

  lemma WriteElsewhere(cfg: Config, s: State, q: string, key: Key, contents: seq<Content>, place: Place)
    requires Fresh(s) && place.memory in s.counters
    requires !(Owns(s.participants, q, place.memory) && key == place.key)
    ensures LaneAt(Write(cfg, s, q, key, contents).lanes, place) == LaneAt(s.lanes, place)
  {
    AppendKeeps(s, q, key, contents, q, place);
    var t := AppendTo(Ensure(s, q), q, key, contents);
    hide Schedule, AppendTo, Ensure, LimitsFor, Fresh, LaneAt;
    if LimitsFor(cfg, key).Some? {
      ScheduleKeeps(s, q, key, LimitsFor(cfg, key).value, place);
      ScheduleKeeps(t, q, key, LimitsFor(cfg, key).value, place);
    }
  }

  lemma {:induction false} RunShrinks(cfg: Config, s: State, es: seq<Event>, p: string, place: Place)
    requires Good(cfg, s) && Sole(s, p, place.memory)
    requires forall e :: e in es && e.Written? ==> e.p != p || e.key != place.key
    ensures var live, later := LaneAt(s.lanes, place).live, LaneAt(Run(cfg, s, es).lanes, place).live;
      && |later| + CommitCount(cfg, s, es, place) <= |live|
      && (place.key.Dialogue? && live != [] ==> later != [])
    decreases |es|
  {
    hide Good, Sole, CommitsAt, Step;
    if es != [] {
      assert es[0] in es;
      StepShrinks(cfg, s, es[0], p, place);
      StepGood(cfg, s, es[0]);
      RunShrinks(cfg, Step(cfg, s, es[0]), es[1..], p, place);
    }
  }

  /**
   Without new exchanges, a chain of jobs over a dialogue of n exchanges commits
   at most n - 1 times; over a source of n updates, at most n times.
   */
  lemma ChainEnds(cfg: Config, s: State, es: seq<Event>, p: string, key: Key)
    requires Reachable(cfg, s) && p in s.participants
    requires forall e :: e in es && e.Written? ==> e.p != p || e.key != key
    ensures var place := Place(s.participants[p], key);
      var n := |LaneAt(s.lanes, place).live|;
      CommitCount(cfg, s, es, place) <= if key.Dialogue? && n > 0 then n - 1 else n
  {
    ReachableGood(cfg, s);
    ReachableTied(cfg, s);
    RunShrinks(cfg, s, es, p, Place(s.participants[p], key));
  }
}
