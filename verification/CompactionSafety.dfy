/** What every step of compaction keeps. */
module CompactionSafety {
  import opened Seqs
  import opened Rendering
  import opened Budgets
  import opened Summaries
  import opened Compaction

  // The invariant of one lane.

  /** Sequence numbers: dialogue entries are numbered without gaps, a source's in increasing order. */
  ghost predicate Ordered(key: Key, log: seq<Entry>, next: nat) {
    && (forall i, j :: 0 <= i < j < |log| ==> log[i].sequence < log[j].sequence)
    && (forall i :: 0 <= i < |log| ==> log[i].sequence < next)
    && (key.Dialogue? ==> |log| == next && forall i :: 0 <= i < |log| ==> log[i].sequence == i)
  }

  function ThroughOf(folded: seq<Entry>): int {
    if folded == [] then -1 else folded[|folded| - 1].sequence
  }

  /** Every entry is folded into the summary or live, never both and never neither. */
  ghost predicate Covered(lane: Lane) {
    lane.log == lane.folded + lane.live && lane.background.through == ThroughOf(lane.folded)
  }

  predicate OfKind(key: Key, c: Content) {
    if key.Dialogue? then c.Exchange? else c.Update? && c.source == key.name
  }

  ghost predicate Kind(key: Key, live: seq<Entry>) {
    forall e :: e in live ==> OfKind(key, e.content)
  }

  ghost predicate Bounded(cfg: Config, key: Key, lane: Lane) {
    lane != EmptyLane ==>
      LimitsFor(cfg, key).Some? && Utf8.Size(lane.background.text) <= LimitsFor(cfg, key).value.summary
  }

  ghost predicate LaneGood(cfg: Config, key: Key, lane: Lane, next: nat) {
    Ordered(key, lane.log, next) && Covered(lane) && Kind(key, lane.live) && Bounded(cfg, key, lane)
  }

  // The invariant of one job.

  /** A running job owns its lane; its batch is the front of what is live, and its input the present summary. */
  ghost predicate Working(lane: Lane, j: nat, job: Job) {
    && lane.job == Some(j)
    && 0 < |job.batch| <= |lane.live| && job.batch == lane.live[..|job.batch|]
    && (job.place.key.Dialogue? ==> |job.batch| < |lane.live|)
    && job.previous == PreviousInput(lane.background.text, lane.background.latest)
  }

  ghost predicate JobGood(cfg: Config, lanes: map<Place, Lane>, j: nat, job: Job) {
    && LimitsFor(cfg, job.place.key) == Some(job.limits)
    && (job.phase == Running ==> Working(LaneAt(lanes, job.place), j, job))
  }

  /** A request fits the input budget exactly when the framing of its oldest entry fits beside the earlier summary. */
  ghost predicate RequestGood(cfg: Config, job: Job) {
    Accepted(cfg) ==>
      && job.batch != [] && OfKind(job.place.key, job.batch[0].content)
      && Utf8.Size(job.previous) + 202 <= cfg.input
      && (Utf8.Size(job.previous) + Total(job.request) <= cfg.input
          <==> Utf8.Size(job.previous) + Framing(job.batch[0].content) <= cfg.input)
  }

  ghost predicate Lanes(cfg: Config, lanes: map<Place, Lane>, counters: map<nat, Counters>) {
    forall place :: place in lanes ==>
      LaneGood(cfg, place.key, lanes[place], NextSequence(CountersAt(counters, place.memory), place.key))
  }

  /** A memory without a dialogue lane has numbered no exchange. */
  ghost predicate Unnumbered(lanes: map<Place, Lane>, counters: map<nat, Counters>) {
    forall m :: Place(m, Dialogue) !in lanes ==> CountersAt(counters, m).dialogue == 0
  }

  ghost predicate Jobs(cfg: Config, lanes: map<Place, Lane>, jobs: map<nat, Job>) {
    forall j :: j in jobs ==> JobGood(cfg, lanes, j, jobs[j]) && RequestGood(cfg, jobs[j])
  }

  /** Identities are handed out once. */
  ghost predicate Fresh(s: State) {
    && (forall p :: p in s.participants ==> s.participants[p] < s.next && s.participants[p] in s.counters)
    && (forall m :: m in s.counters ==> m < s.next)
    && (forall place :: place in s.lanes ==> place.memory in s.counters)
    && (forall place :: place in s.lanes && s.lanes[place].job.Some? ==> s.lanes[place].job.value < s.next)
    && (forall j :: j in s.jobs ==> j < s.next && s.jobs[j].place.memory in s.counters)
  }

  ghost predicate Good(cfg: Config, s: State) {
    Fresh(s) && Lanes(cfg, s.lanes, s.counters) && Unnumbered(s.lanes, s.counters) && Jobs(cfg, s.lanes, s.jobs)
  }

  // Adding entries.

  lemma AddOrdered(key: Key, log: seq<Entry>, next: nat, contents: seq<Content>)
    requires Ordered(key, log, next)
    ensures Ordered(key, log + Numbered(next, contents), next + |contents|)
  {
    var es := Numbered(next, contents);
    forall i | 0 <= i < |es| ensures (log + es)[|log| + i] == es[i] {}
  }

  lemma AddGood(cfg: Config, key: Key, lane: Lane, next: nat, contents: seq<Content>)
    requires LaneGood(cfg, key, lane, next) && Fits(key, contents) && LimitsFor(cfg, key).Some?
    ensures LaneGood(cfg, key, AddEntries(lane, Numbered(next, contents)), next + |contents|)
  {
    var es := Numbered(next, contents);
    AddOrdered(key, lane.log, next, contents);
    assert lane.folded + lane.live + es == lane.folded + (lane.live + es);
  }

  lemma AddKeepsWorking(lane: Lane, j: nat, job: Job, es: seq<Entry>)
    requires Working(lane, j, job)
    ensures Working(AddEntries(lane, es), j, job)
  {
    assert (lane.live + es)[..|job.batch|] == lane.live[..|job.batch|];
  }

  lemma EmptyIsGood(cfg: Config, key: Key, next: nat)
    requires key.Source? || next == 0
    ensures LaneGood(cfg, key, EmptyLane, next)
  {
  }

  lemma LaneAtGood(cfg: Config, s: State, place: Place)
    requires Good(cfg, s)
    ensures LaneGood(cfg, place.key, LaneAt(s.lanes, place),
                     NextSequence(CountersAt(s.counters, place.memory), place.key))
  {
    if place !in s.lanes {
      EmptyIsGood(cfg, place.key, NextSequence(CountersAt(s.counters, place.memory), place.key));
    }
  }

  lemma EnsureGood(cfg: Config, s: State, p: string)
    requires Good(cfg, s)
    ensures Good(cfg, Ensure(s, p)) && p in Ensure(s, p).participants
  {
    hide LaneGood, JobGood, RequestGood;
  }

  /** Replacing one lane keeps the others; its own jobs must still work on it. */
  lemma OneLaneKeepsJobs(cfg: Config, lanes: map<Place, Lane>, jobs: map<nat, Job>, place: Place, lane: Lane)
    requires Jobs(cfg, lanes, jobs)
    requires forall j :: j in jobs && jobs[j].place == place && jobs[j].phase == Running ==> Working(lane, j, jobs[j])
    ensures Jobs(cfg, lanes[place := lane], jobs)
  {
    hide RequestGood, Working;
    forall j | j in jobs ensures JobGood(cfg, lanes[place := lane], j, jobs[j]) {
      assert JobGood(cfg, lanes, j, jobs[j]);
    }
  }

  /** A counter that moves on keeps the lanes that use it: only sources share one. */
  lemma LaterCounterKeeps(cfg: Config, key: Key, lane: Lane, next: nat, later: nat)
    requires LaneGood(cfg, key, lane, next) && next <= later && (key.Dialogue? ==> next == later)
    ensures LaneGood(cfg, key, lane, later)
  {
    hide Covered, Kind, Bounded;
  }

  lemma AppendLanes(cfg: Config, s: State, place: Place, contents: seq<Content>)
    requires Good(cfg, s) && Fits(place.key, contents) && LimitsFor(cfg, place.key).Some?
    ensures var c := CountersAt(s.counters, place.memory);
      var lane := AddEntries(LaneAt(s.lanes, place), Numbered(NextSequence(c, place.key), contents));
      Lanes(cfg, s.lanes[place := lane], s.counters[place.memory := Advance(c, place.key, |contents|)])
  {
    var c := CountersAt(s.counters, place.memory);
    var c' := Advance(c, place.key, |contents|);
    var lane := AddEntries(LaneAt(s.lanes, place), Numbered(NextSequence(c, place.key), contents));
    LaneAtGood(cfg, s, place);
    AddGood(cfg, place.key, LaneAt(s.lanes, place), NextSequence(c, place.key), contents);
    hide LaneGood, Fits, AddEntries;
    var lanes, counters := s.lanes[place := lane], s.counters[place.memory := c'];
    forall q | q in lanes
      ensures LaneGood(cfg, q.key, lanes[q], NextSequence(CountersAt(counters, q.memory), q.key))
    {
      if q != place {
        var was := NextSequence(CountersAt(s.counters, q.memory), q.key);
        assert LaneGood(cfg, q.key, s.lanes[q], was);
        LaterCounterKeeps(cfg, q.key, s.lanes[q], was, NextSequence(CountersAt(counters, q.memory), q.key));
      }
    }
  }

  lemma AppendGood(cfg: Config, s: State, p: string, key: Key, contents: seq<Content>)
    requires Good(cfg, s) && p in s.participants && Fits(key, contents) && LimitsFor(cfg, key).Some?
    ensures Good(cfg, AppendTo(s, p, key, contents))
  {
    hide LaneGood, Fits, Numbered, Working, RequestGood, LimitsFor;
    var place := Place(s.participants[p], key);
    var es := Numbered(NextSequence(CountersAt(s.counters, place.memory), key), contents);
    AppendLanes(cfg, s, place, contents);
    forall j | j in s.jobs && s.jobs[j].place == place && s.jobs[j].phase == Running
      ensures Working(AddEntries(LaneAt(s.lanes, place), es), j, s.jobs[j])
    {
      assert JobGood(cfg, s.lanes, j, s.jobs[j]);
      AddKeepsWorking(LaneAt(s.lanes, place), j, s.jobs[j], es);
    }
    OneLaneKeepsJobs(cfg, s.lanes, s.jobs, place, AddEntries(LaneAt(s.lanes, place), es));
  }

  // Scheduling.

  /** The budget a lane's limits come from belongs to the configuration. */
  lemma {:induction false} TopicBudgetIsOne(topics: seq<Topic>, name: string)
    ensures var b := TopicBudget(topics, name); b.Some? ==> exists t :: t in topics && t.budget == b.value
  {
    if topics != [] && topics[0].name != name {
      TopicBudgetIsOne(topics[1..], name);
    }
  }

  lemma LimitsAreOfSection(cfg: Config, key: Key) returns (budget: nat)
    requires LimitsFor(cfg, key).Some?
    ensures LimitsFor(cfg, key).value == LimitsOf(budget, cfg.input)
    ensures Accepted(cfg) ==> SectionBudget(cfg, budget)
  {
    match key
    case Dialogue => budget := cfg.dialogue;
    case Source(name) =>
      TopicBudgetIsOne(cfg.topics, name);
      budget := TopicBudget(cfg.topics, name).value;
  }

  lemma NewJobRequest(cfg: Config, p: string, place: Place, lane: Lane, next: nat)
    requires LimitsFor(cfg, place.key).Some? && LaneGood(cfg, place.key, lane, next)
    requires Compactable(place.key, lane.live) != []
    ensures RequestGood(cfg, NewJob(p, place, LimitsFor(cfg, place.key).value, lane))
  {
    hide PreviousInput, OldestBatch, ClipSingle, Utf8.Encode, ContentSize, Accepted, Ordered, Covered, Framing, Total;
    var es := Compactable(place.key, lane.live);
    var budget := LimitsAreOfSection(cfg, place.key);
    if Accepted(cfg) {
      assert es[0] == lane.live[0] && es[0] in lane.live;
      AvailableIsEnough(cfg, budget, lane.background.text, lane.background.latest);
      RequestFits(cfg, budget, lane.background.text, lane.background.latest, es);
      OldestBatchIs(es, Available(LimitsOf(budget, cfg.input),
                                  PreviousInput(lane.background.text, lane.background.latest)));
    }
  }

  lemma NewJobWorks(p: string, place: Place, limits: Limits, lane: Lane, j: nat)
    requires Compactable(place.key, lane.live) != []
    ensures Working(lane.(job := Some(j)), j, NewJob(p, place, limits, lane))
  {
    var es := Compactable(place.key, lane.live);
    var available := Available(limits, PreviousInput(lane.background.text, lane.background.latest));
    OldestBatchIs(es, available);
    hide OldestBatch, PreviousInput, Available, ClipSingle, Total, EntrySize, ContentSize;
    var n := |OldestBatch(es, available)|;
    assert es[..n] == lane.live[..n];
  }

  lemma WorkingOwns(lane: Lane, j: nat, job: Job)
    requires Working(lane, j, job)
    ensures lane.job == Some(j)
  {
  }

  /** While a lane has no running job, no running job is on it. */
  lemma IdleLane(cfg: Config, s: State, place: Place, j: nat)
    requires Good(cfg, s) && j in s.jobs && s.jobs[j].place == place
    requires !RunningJob(s.jobs, LaneAt(s.lanes, place).job)
    ensures s.jobs[j].phase != Running
  {
    hide Lanes, RequestGood, LimitsFor, LaneAt;
    assert JobGood(cfg, s.lanes, j, s.jobs[j]);
    if s.jobs[j].phase == Running { WorkingOwns(LaneAt(s.lanes, place), j, s.jobs[j]); }
  }

  lemma JobStays(cfg: Config, key: Key, lane: Lane, next: nat, job: Option<nat>)
    requires LaneGood(cfg, key, lane, next) && LimitsFor(cfg, key).Some?
    ensures LaneGood(cfg, key, lane.(job := job), next)
  {
  }

  /** A good lane may replace another, as long as the running jobs of the place work on it. */
  lemma ReplaceLaneGood(cfg: Config, s: State, place: Place, lane: Lane)
    requires Good(cfg, s) && place.memory in s.counters && (lane.job.Some? ==> lane.job.value < s.next)
    requires LaneGood(cfg, place.key, lane, NextSequence(CountersAt(s.counters, place.memory), place.key))
    requires forall j :: j in s.jobs && s.jobs[j].place == place && s.jobs[j].phase == Running ==>
               Working(lane, j, s.jobs[j])
    ensures Good(cfg, s.(lanes := s.lanes[place := lane]))
  {
    hide LaneGood, RequestGood, Working, LimitsFor;
    OneLaneKeepsJobs(cfg, s.lanes, s.jobs, place, lane);
  }

  lemma StartJobGood(cfg: Config, s: State, p: string, place: Place)
    requires Good(cfg, s) && p in s.participants && s.participants[p] == place.memory
    requires LimitsFor(cfg, place.key).Some? && Compactable(place.key, LaneAt(s.lanes, place).live) != []
    requires !RunningJob(s.jobs, LaneAt(s.lanes, place).job)
    ensures Good(cfg, StartJob(s, p, place, LimitsFor(cfg, place.key).value))
  {
    hide LaneGood, RequestGood, Working, Compactable, LimitsFor, OldestBatch, PreviousInput, Available, ClipSingle;
    var limits := LimitsFor(cfg, place.key).value;
    var lane := LaneAt(s.lanes, place);
    var next := NextSequence(CountersAt(s.counters, place.memory), place.key);
    LaneAtGood(cfg, s, place);
    JobStays(cfg, place.key, lane, next, Some(s.next));
    NewJobRequest(cfg, p, place, lane, next);
    NewJobWorks(p, place, limits, lane, s.next);
    assert s.next !in s.jobs && place.memory in s.counters;
    LaterGood(cfg, s);
    hide Good, LaneAt;
    forall j | j in s.jobs && s.jobs[j].place == place ensures s.jobs[j].phase != Running {
      IdleLane(cfg, s, place, j);
    }
    StartsOn(cfg, s.(next := s.next + 1), place, lane.(job := Some(s.next)), s.next, NewJob(p, place, limits, lane));
  }

  lemma LaterGood(cfg: Config, s: State)
    requires Good(cfg, s)
    ensures Good(cfg, s.(next := s.next + 1))
  {
    hide Lanes, Unnumbered, Jobs;
  }

  lemma StartsOn(cfg: Config, s: State, place: Place, lane: Lane, j: nat, job: Job)
    requires Good(cfg, s) && place.memory in s.counters && j < s.next && j !in s.jobs
    requires LaneGood(cfg, place.key, lane, NextSequence(CountersAt(s.counters, place.memory), place.key))
    requires forall i :: i in s.jobs && s.jobs[i].place == place ==> s.jobs[i].phase != Running
    requires job.place == place && LimitsFor(cfg, place.key) == Some(job.limits)
    requires Working(lane, j, job) && RequestGood(cfg, job)
    ensures Good(cfg, s.(lanes := s.lanes[place := lane], jobs := s.jobs[j := job]))
  {
    WorkingOwns(lane, j, job);
    hide LaneGood, RequestGood, Working, LimitsFor;
    ReplaceLaneGood(cfg, s, place, lane);
    var t := s.(lanes := s.lanes[place := lane]);
    assert JobGood(cfg, t.lanes, j, job);
    PutJobGood(cfg, t, j, job);
  }

  lemma PutJobGood(cfg: Config, s: State, j: nat, job: Job)
    requires Good(cfg, s) && job.place.memory in s.counters && j < s.next
    requires JobGood(cfg, s.lanes, j, job) && RequestGood(cfg, job)
    ensures Good(cfg, s.(jobs := s.jobs[j := job]))
  {
    hide JobGood, RequestGood, LaneGood;
  }

  lemma ScheduleGood(cfg: Config, s: State, p: string, key: Key)
    requires Good(cfg, s) && LimitsFor(cfg, key).Some?
    ensures Good(cfg, Schedule(s, p, key, LimitsFor(cfg, key).value))
  {
    hide Good, Compactable, LimitsFor, StartJob;
    if p in s.participants {
      var place := Place(s.participants[p], key);
      var lane := LaneAt(s.lanes, place);
      if !RunningJob(s.jobs, lane.job) && Due(LimitsFor(cfg, key).value, key, lane.live) {
        StartJobGood(cfg, s, p, place);
      }
    }
  }

  lemma WriteGood(cfg: Config, s: State, p: string, key: Key, contents: seq<Content>)
    requires Good(cfg, s) && Fits(key, contents)
    ensures Good(cfg, Write(cfg, s, p, key, contents))
  {
    hide Good, Fits, Schedule, AppendTo, Ensure, LimitsFor;
    if LimitsFor(cfg, key).Some? && contents == [] {
      ScheduleGood(cfg, s, p, key);
    } else if LimitsFor(cfg, key).Some? {
      EnsureGood(cfg, s, p);
      AppendGood(cfg, Ensure(s, p), p, key, contents);
      ScheduleGood(cfg, AppendTo(Ensure(s, p), p, key, contents), p, key);
    }
  }

  // Finishing.

  lemma OrderedAt(key: Key, log: seq<Entry>, next: nat, i: nat, j: nat)
    requires Ordered(key, log, next) && i < j < |log|
    ensures log[i].sequence < log[j].sequence
  {
  }

  /** The live entries are the end of the log. */
  lemma LiveInLog(lane: Lane, i: nat)
    requires Covered(lane) && i < |lane.live|
    ensures |lane.folded| + i < |lane.log| && lane.log[|lane.folded| + i] == lane.live[i]
  {
  }

  /** The batch is older than its last entry's number, and the rest of the lane newer. */
  lemma BatchIsOlder(lane: Lane, key: Key, next: nat, n: nat)
    requires Ordered(key, lane.log, next) && Covered(lane) && 0 < n <= |lane.live|
    ensures forall e :: e in lane.live[..n] ==> e.sequence <= lane.live[n - 1].sequence
    ensures forall e :: e in lane.live[n..] ==> e.sequence > lane.live[n - 1].sequence
  {
    hide Ordered, Covered;
    var k := |lane.folded|;
    LiveInLog(lane, n - 1);
    forall e | e in lane.live[..n] ensures e.sequence <= lane.live[n - 1].sequence {
      var i :| 0 <= i < n && lane.live[i] == e;
      LiveInLog(lane, i);
      if i < n - 1 { OrderedAt(key, lane.log, next, k + i, k + n - 1); }
    }
    forall e | e in lane.live[n..] ensures e.sequence > lane.live[n - 1].sequence {
      var i :| n <= i < |lane.live| && lane.live[i] == e;
      LiveInLog(lane, i);
      OrderedAt(key, lane.log, next, k + n - 1, k + i);
    }
  }

  /** Filtering by sequence number removes exactly the batch. */
  lemma CommitDropsBatch(lane: Lane, key: Key, next: nat, batch: seq<Entry>)
    requires Ordered(key, lane.log, next) && Covered(lane)
    requires 0 < |batch| <= |lane.live| && batch == lane.live[..|batch|]
    ensures Filter(lane.live, Newer(batch[|batch| - 1].sequence)) == lane.live[|batch|..]
  {
    BatchIsOlder(lane, key, next, |batch|);
    hide Filter, Ordered, Covered;
    var newer, rest := Newer(batch[|batch| - 1].sequence), lane.live[|batch|..];
    FilterNone(batch, newer);
    FilterAll(rest, newer);
    FilterConcat(batch, rest, newer);
    assert lane.live == batch + rest;
  }

  /** What a commit makes of its lane: the batch moves from the live entries to the folded ones. */
  lemma CommitMoves(lane: Lane, key: Key, next: nat, batch: seq<Entry>, summary: string)
    requires Ordered(key, lane.log, next) && Covered(lane)
    requires 0 < |batch| <= |lane.live| && batch == lane.live[..|batch|]
    ensures var later := Commit(lane, batch, summary);
      Covered(later) && lane.live == batch + later.live && later.folded == lane.folded + batch
  {
    CommitDropsBatch(lane, key, next, batch);
    hide Filter, Latest, Ordered;
    var rest := lane.live[|batch|..];
    assert lane.live == batch + rest;
    assert lane.folded + (batch + rest) == lane.folded + batch + rest;
    var folded := lane.folded + batch;
    assert folded[|folded| - 1] == batch[|batch| - 1];
  }

  lemma CommitGood(cfg: Config, lane: Lane, next: nat, j: nat, job: Job, summary: string)
    requires LaneGood(cfg, job.place.key, lane, next) && Working(lane, j, job)
    requires LimitsFor(cfg, job.place.key).Some? && Utf8.Size(summary) <= LimitsFor(cfg, job.place.key).value.summary
    ensures job.batch != [] && lane.job == Some(j)
    ensures LaneGood(cfg, job.place.key, Commit(lane, job.batch, summary), next)
  {
    CommitMoves(lane, job.place.key, next, job.batch, summary);
    hide Covered, Filter, Latest, LimitsFor, Utf8.Size, Ordered;
    var later := Commit(lane, job.batch, summary);
    assert forall e :: e in later.live ==> e in lane.live;
  }

  lemma CommittedGood(cfg: Config, s: State, j: nat, summary: string)
    requires Good(cfg, s) && j in s.jobs && s.jobs[j].phase == Running
    requires Utf8.Size(summary) <= s.jobs[j].limits.summary
    ensures s.jobs[j].batch != []
    ensures var job := s.jobs[j];
      Good(cfg, s.(lanes := s.lanes[job.place := Commit(LaneAt(s.lanes, job.place), job.batch, summary)],
                   jobs := s.jobs[j := job.(phase := Finished(true))]))
  {
    hide LaneGood, Working, RequestGood, LimitsFor, Filter, Latest, Utf8.Size;
    var job := s.jobs[j];
    var lane := LaneAt(s.lanes, job.place);
    assert JobGood(cfg, s.lanes, j, job);
    LaneAtGood(cfg, s, job.place);
    CommitGood(cfg, lane, NextSequence(CountersAt(s.counters, job.place.memory), job.place.key), j, job, summary);
    FinishedGood(cfg, s, j, true);
    var t := s.(jobs := s.jobs[j := job.(phase := Finished(true))]);
    forall i | i in t.jobs && t.jobs[i].place == job.place ensures t.jobs[i].phase != Running {
      if i != j && s.jobs[i].phase == Running {
        assert JobGood(cfg, s.lanes, i, s.jobs[i]);
        WorkingOwns(lane, i, s.jobs[i]);
      }
    }
    ReplaceLaneGood(cfg, t, job.place, Commit(lane, job.batch, summary));
  }

  lemma FinishedGood(cfg: Config, s: State, j: nat, ok: bool)
    requires Good(cfg, s) && j in s.jobs
    ensures Good(cfg, s.(jobs := s.jobs[j := s.jobs[j].(phase := Finished(ok))]))
  {
    hide Lanes, Unnumbered, JobGood, RequestGood;
    SettledJobGood(cfg, s.lanes, j, s.jobs[j], ok);
    PutJobGood(cfg, s, j, s.jobs[j].(phase := Finished(ok)));
  }

  lemma SettledJobGood(cfg: Config, lanes: map<Place, Lane>, j: nat, job: Job, ok: bool)
    requires JobGood(cfg, lanes, j, job) && RequestGood(cfg, job)
    ensures JobGood(cfg, lanes, j, job.(phase := Finished(ok))) && RequestGood(cfg, job.(phase := Finished(ok)))
  {
  }

  lemma FinishGood(cfg: Config, s: State, j: nat, first: Reply, second: Reply)
    requires Good(cfg, s)
    ensures Good(cfg, Finish(s, j, first, second))
  {
    if j in s.jobs && s.jobs[j].phase == Running {
      if Commits(s, j, first, second) {
        SummaryIsBounded(first, second, s.jobs[j].limits.summary);
        hide Good, BoundedSummary, Utf8.Size, Commit;
        CommittedGood(cfg, s, j, BoundedSummary(first, second, s.jobs[j].limits.summary).text);
      } else {
        hide BoundedSummary, Good;
        FinishedGood(cfg, s, j, false);
      }
    }
  }

  // Completion callbacks and clearing.

  lemma FewerJobsGood(cfg: Config, s: State, j: nat)
    requires Good(cfg, s)
    ensures Good(cfg, s.(jobs := Without(s.jobs, j)))
  {
    hide Lanes, Unnumbered, JobGood, RequestGood;
  }

  lemma DropJobGood(cfg: Config, s: State, place: Place, j: nat)
    requires Good(cfg, s) && LaneAt(s.lanes, place).job == Some(j) && j !in s.jobs
    ensures Good(cfg, DropJob(s, place))
  {
    var lane := LaneAt(s.lanes, place);
    LaneAtGood(cfg, s, place);
    JobStays(cfg, place.key, lane, NextSequence(CountersAt(s.counters, place.memory), place.key), None);
    hide LaneGood, RequestGood, JobGood, Working;
    forall i | i in s.jobs && s.jobs[i].place == place ensures s.jobs[i].phase != Running {
      IdleLane(cfg, s, place, i);
    }
    ReplaceLaneGood(cfg, s, place, lane.(job := None));
  }

  lemma ForgetGood(cfg: Config, s: State, j: nat)
    requires Good(cfg, s)
    ensures Good(cfg, Forget(s, j))
  {
    hide Lanes, Unnumbered, RequestGood, Working, Schedule, DropJob, LimitsFor;
    if j in s.jobs && s.jobs[j].phase.Finished? {
      var job := s.jobs[j];
      var t := s.(jobs := Without(s.jobs, j));
      FewerJobsGood(cfg, s, j);
      assert JobGood(cfg, s.lanes, j, job);
      if job.participant in s.participants {
        var place := Place(s.participants[job.participant], job.place.key);
        if LaneAt(s.lanes, place).job == Some(j) {
          DropJobGood(cfg, t, place, j);
          ScheduleGood(cfg, DropJob(t, place), job.participant, place.key);
        }
      }
    }
  }

  lemma CancelledJobGood(cfg: Config, lanes: map<Place, Lane>, j: nat, job: Job)
    requires JobGood(cfg, lanes, j, job) && RequestGood(cfg, job)
    ensures JobGood(cfg, lanes, j, job.(cancelled := true)) && RequestGood(cfg, job.(cancelled := true))
  {
  }

  lemma ClearGood(cfg: Config, s: State, p: string)
    requires Good(cfg, s)
    ensures Good(cfg, Clear(s, p))
  {
    hide Lanes, Unnumbered, JobGood, RequestGood;
    if p in s.participants {
      var s' := Clear(s, p);
      forall j | j in s'.jobs ensures JobGood(cfg, s'.lanes, j, s'.jobs[j]) && RequestGood(cfg, s'.jobs[j]) {
        assert JobGood(cfg, s.lanes, j, s.jobs[j]) && RequestGood(cfg, s.jobs[j]);
        CancelledJobGood(cfg, s.lanes, j, s.jobs[j]);
      }
    }
  }

  lemma StepGood(cfg: Config, s: State, e: Event)
    requires Good(cfg, s)
    ensures Good(cfg, Step(cfg, s, e))
  {
    hide Good, Write, Finish, Forget, Clear, Fits;
    match e
    case Written(p, key, contents) => if Fits(key, contents) { WriteGood(cfg, s, p, key, contents); }
    case Finishes(j, first, second) => FinishGood(cfg, s, j, first, second);
    case Forgotten(j) => ForgetGood(cfg, s, j);
    case Cleared(p) => ClearGood(cfg, s, p);
  }

  lemma {:induction false} RunGood(cfg: Config, s: State, es: seq<Event>)
    requires Good(cfg, s)
    ensures Good(cfg, Run(cfg, s, es))
    decreases |es|
  {
    if es != [] {
      StepGood(cfg, s, es[0]);
      RunGood(cfg, Step(cfg, s, es[0]), es[1..]);
    }
  }
}
