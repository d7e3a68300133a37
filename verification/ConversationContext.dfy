/**
 The stored conversations as one object, updated in place. Every method is one
 atomic stretch: it performs the step of `Compaction`, keeps the invariants of
 `CompactionSafety` and `CompactionProgress`, and keeps what was seen of each
 participant equal to the log of its dialogue.
 */
module ConversationContexts {
  import opened Seqs
  import opened Rendering
  import opened Budgets
  import opened Summaries
  import opened Compaction
  import opened CompactionSafety
  import opened CompactionRuns
  import opened CompactionProgress
  import R = Reconcile

  function ContentOf(x: R.Exchange): Content {
    Exchange(x.user, x.assistant, x.time)
  }

  function ContentsOf(xs: seq<R.Exchange>): (cs: seq<Content>)
    ensures |cs| == |xs|
    ensures forall i :: 0 <= i < |xs| ==> cs[i] == ContentOf(xs[i])
  {
    seq(|xs|, i requires 0 <= i < |xs| => ContentOf(xs[i]))
  }

  function SeenIn(seen: map<nat, seq<R.Exchange>>, memory: nat): seq<R.Exchange> {
    if memory in seen then seen[memory] else []
  }

  lemma NumberedConcat(first: nat, a: seq<Content>, b: seq<Content>)
    ensures Numbered(first, a + b) == Numbered(first, a) + Numbered(first + |a|, b)
  {
    hide Numbered;
  }

  lemma AddTwice(lane: Lane, es: seq<Entry>, fs: seq<Entry>)
    ensures AddEntries(AddEntries(lane, es), fs) == AddEntries(lane, es + fs)
  {
    assert lane.log + es + fs == lane.log + (es + fs) && lane.live + es + fs == lane.live + (es + fs);
  }

  /** Appending twice is appending both. */
  lemma AppendTwice(s: State, p: string, key: Key, a: seq<Content>, b: seq<Content>)
    requires p in s.participants
    ensures AppendTo(AppendTo(s, p, key, a), p, key, b) == AppendTo(s, p, key, a + b)
  {
    var place := Place(s.participants[p], key);
    var first := NextSequence(CountersAt(s.counters, place.memory), key);
    NumberedConcat(first, a, b);
    AddTwice(LaneAt(s.lanes, place), Numbered(first, a), Numbered(first + |a|, b));
    hide Numbered, AddEntries;
  }

  lemma OwnedByEnsure(s: State, p: string)
    ensures p in Ensure(s, p).participants && (p in s.participants ==> Ensure(s, p) == s)
  {
  }

  lemma AppendOwns(s: State, p: string, key: Key, contents: seq<Content>)
    requires p in s.participants
    ensures AppendTo(s, p, key, contents).participants == s.participants
  {
  }

  /** What was seen in each memory is what its dialogue ever held, compacted or not. */
  ghost predicate Mirrors(seen: map<nat, seq<R.Exchange>>, lanes: map<Place, Lane>) {
    forall m: nat :: ContentsOf(SeenIn(seen, m)) == ContentsIn(LaneAt(lanes, Place(m, Dialogue)).log)
  }

  ghost predicate SameLogs(lanes: map<Place, Lane>, lanes': map<Place, Lane>) {
    forall m: nat :: LaneAt(lanes', Place(m, Dialogue)).log == LaneAt(lanes, Place(m, Dialogue)).log
  }

  lemma SameLogsMirror(seen: map<nat, seq<R.Exchange>>, lanes: map<Place, Lane>, lanes': map<Place, Lane>)
    requires Mirrors(seen, lanes) && SameLogs(lanes, lanes')
    ensures Mirrors(seen, lanes')
  {
    hide ContentsOf, ContentsIn, LaneAt, SeenIn;
  }

  lemma AppendMirrors(s: State, seen: map<nat, seq<R.Exchange>>, p: string, x: R.Exchange)
    requires p in s.participants && Mirrors(seen, s.lanes)
    ensures var memory := s.participants[p];
      Mirrors(seen[memory := SeenIn(seen, memory) + [x]], AppendTo(s, p, Dialogue, [ContentOf(x)]).lanes)
  {
    var memory := s.participants[p];
    var seen' := seen[memory := SeenIn(seen, memory) + [x]];
    var lanes' := AppendTo(s, p, Dialogue, [ContentOf(x)]).lanes;
    var first := NextSequence(CountersAt(s.counters, memory), Dialogue);
    forall m: nat ensures ContentsOf(SeenIn(seen', m)) == ContentsIn(LaneAt(lanes', Place(m, Dialogue)).log) {
      assert ContentsOf(SeenIn(seen, m)) == ContentsIn(LaneAt(s.lanes, Place(m, Dialogue)).log);
      if m == memory {
        OneMoreMirrors(SeenIn(seen, m), LaneAt(s.lanes, Place(m, Dialogue)).log, x, Entry(first, ContentOf(x)));
        assert Numbered(first, [ContentOf(x)]) == [Entry(first, ContentOf(x))];
      }
    }
  }

  lemma OneMoreMirrors(xs: seq<R.Exchange>, es: seq<Entry>, x: R.Exchange, e: Entry)
    requires ContentsOf(xs) == ContentsIn(es) && e.content == ContentOf(x)
    ensures ContentsOf(xs + [x]) == ContentsIn(es + [e])
  {
    var cs, ds := ContentsOf(xs), ContentsIn(es);
    forall i | 0 <= i < |xs| ensures ContentOf(xs[i]) == es[i].content {
      assert cs[i] == ds[i];
    }
  }

  lemma ExchangeFits(x: R.Exchange)
    ensures Fits(Dialogue, [ContentOf(x)])
  {
  }

  lemma AppendSourceKeepsLogs(s: State, p: string, source: string, contents: seq<Content>)
    requires p in s.participants
    ensures SameLogs(s.lanes, AppendTo(s, p, Source(source), contents).lanes)
  {
    hide Numbered;
  }

  lemma ScheduleKeepsLogs(s: State, p: string, key: Key, limits: Limits)
    ensures SameLogs(s.lanes, Schedule(s, p, key, limits).lanes)
  {
    hide LaneAt, Schedule;
    forall m: nat
      ensures LaneAt(Schedule(s, p, key, limits).lanes, Place(m, Dialogue)).log
           == LaneAt(s.lanes, Place(m, Dialogue)).log
    {
      ScheduleGrows(s, p, key, limits, Place(m, Dialogue));
    }
  }

  lemma FinishKeepsLogs(cfg: Config, s: State, j: nat, first: Reply, second: Reply)
    requires Good(cfg, s)
    ensures SameLogs(s.lanes, Finish(s, j, first, second).lanes)
  {
    hide LaneAt, Finish, Good, Commits;
    forall m: nat
      ensures LaneAt(Finish(s, j, first, second).lanes, Place(m, Dialogue)).log
           == LaneAt(s.lanes, Place(m, Dialogue)).log
    {
      FinishGrows(cfg, s, j, first, second, Place(m, Dialogue));
      if Commits(s, j, first, second) { CommitFolds(cfg, s, j, first, second); }
    }
  }

  lemma ForgetKeepsLogs(s: State, j: nat)
    ensures SameLogs(s.lanes, Forget(s, j).lanes)
  {
    hide LaneAt, Forget;
    forall m: nat
      ensures LaneAt(Forget(s, j).lanes, Place(m, Dialogue)).log == LaneAt(s.lanes, Place(m, Dialogue)).log
    {
      ForgetLane(s, j, Place(m, Dialogue));
    }
  }

  // What the object keeps.

  ghost predicate Upheld(cfg: Config, s: State, seen: map<nat, seq<R.Exchange>>) {
    Accepted(cfg) && Good(cfg, s) && Tied(s) && Mirrors(seen, s.lanes)
  }

  lemma AppendKept(cfg: Config, s: State, seen: map<nat, seq<R.Exchange>>, p: string, x: R.Exchange)
    requires Upheld(cfg, s, seen) && p in s.participants
    ensures var memory := s.participants[p];
      Upheld(cfg, AppendTo(s, p, Dialogue, [ContentOf(x)]), seen[memory := SeenIn(seen, memory) + [x]])
  {
    AcceptedDialogue(cfg);
    hide Accepted, Good, Tied, Mirrors, AppendTo, LimitsFor;
    ExchangeFits(x);
    AppendGood(cfg, s, p, Dialogue, [ContentOf(x)]);
    AppendTied(s, p, Dialogue, [ContentOf(x)]);
    AppendMirrors(s, seen, p, x);
  }

  lemma AcceptedDialogue(cfg: Config)
    requires Accepted(cfg)
    ensures LimitsFor(cfg, Dialogue) == Some(LimitsOf(cfg.dialogue, cfg.input))
  {
  }

  lemma EnsureKept(cfg: Config, s: State, seen: map<nat, seq<R.Exchange>>, p: string)
    requires Upheld(cfg, s, seen)
    ensures Upheld(cfg, Ensure(s, p), seen) && Ensure(s, p).lanes == s.lanes
    ensures p !in s.participants ==> SeenIn(seen, s.next) == []
  {
    EnsureGood(cfg, s, p);
    EnsureTied(s, p);
    if p !in s.participants {
      assert ContentsOf(SeenIn(seen, s.next)) == ContentsIn(LaneAt(s.lanes, Place(s.next, Dialogue)).log);
      NewMemoryIsEmpty(s);
    }
    hide Good, Tied, Mirrors, Accepted;
  }

  lemma NewMemoryIsEmpty(s: State)
    requires Fresh(s)
    ensures LaneAt(s.lanes, Place(s.next, Dialogue)) == EmptyLane
  {
  }

  lemma ScheduleKept(cfg: Config, s: State, seen: map<nat, seq<R.Exchange>>, p: string, key: Key)
    requires Upheld(cfg, s, seen) && LimitsFor(cfg, key).Some?
    ensures Upheld(cfg, Schedule(s, p, key, LimitsFor(cfg, key).value), seen)
  {
    hide Accepted, Good, Tied, Mirrors, Schedule, LimitsFor, SameLogs;
    ScheduleGood(cfg, s, p, key);
    ScheduleTied(s, p, key, LimitsFor(cfg, key).value);
    ScheduleKeepsLogs(s, p, key, LimitsFor(cfg, key).value);
    SameLogsMirror(seen, s.lanes, Schedule(s, p, key, LimitsFor(cfg, key).value).lanes);
  }

  lemma AppendSourceKept(cfg: Config, s: State, seen: map<nat, seq<R.Exchange>>, p: string, source: string,
                         update: Content)
    requires Upheld(cfg, s, seen) && p in s.participants && LimitsFor(cfg, Source(source)).Some?
    requires update.Update? && update.source == source
    ensures Upheld(cfg, AppendTo(s, p, Source(source), [update]), seen)
  {
    assert Fits(Source(source), [update]);
    hide Accepted, Good, Tied, Mirrors, AppendTo, LimitsFor, SameLogs, Fits;
    AppendGood(cfg, s, p, Source(source), [update]);
    AppendTied(s, p, Source(source), [update]);
    AppendSourceKeepsLogs(s, p, source, [update]);
    SameLogsMirror(seen, s.lanes, AppendTo(s, p, Source(source), [update]).lanes);
  }

  lemma FinishKept(cfg: Config, s: State, seen: map<nat, seq<R.Exchange>>, j: nat, first: Reply, second: Reply)
    requires Upheld(cfg, s, seen)
    ensures Upheld(cfg, Finish(s, j, first, second), seen)
  {
    hide Accepted, Good, Tied, Mirrors, Finish, SameLogs;
    FinishGood(cfg, s, j, first, second);
    FinishTied(s, j, first, second);
    FinishKeepsLogs(cfg, s, j, first, second);
    SameLogsMirror(seen, s.lanes, Finish(s, j, first, second).lanes);
  }

  lemma ForgetKept(cfg: Config, s: State, seen: map<nat, seq<R.Exchange>>, j: nat)
    requires Upheld(cfg, s, seen)
    ensures Upheld(cfg, Forget(s, j), seen)
  {
    hide Accepted, Good, Tied, Mirrors, Forget, SameLogs;
    ForgetGood(cfg, s, j);
    ForgetTied(s, j);
    ForgetKeepsLogs(s, j);
    SameLogsMirror(seen, s.lanes, Forget(s, j).lanes);
  }

  lemma ClearKept(cfg: Config, s: State, seen: map<nat, seq<R.Exchange>>, p: string)
    requires Upheld(cfg, s, seen)
    ensures Upheld(cfg, Clear(s, p), seen)
  {
    hide Accepted, Good, Tied, Mirrors;
    StepGood(cfg, s, Cleared(p));
    StepTied(cfg, s, Cleared(p));
  }

  lemma InitKept(cfg: Config)
    requires Accepted(cfg)
    ensures Upheld(cfg, Init, map[])
  {
    forall m: nat ensures ContentsOf(SeenIn(map[], m)) == ContentsIn(LaneAt(map[], Place(m, Dialogue)).log) {
      assert ContentsOf([]) == ContentsIn([]);
    }
    hide ContentsOf, ContentsIn;
  }

  lemma SchedulePromises(s: State, p: string, key: Key, limits: Limits)
    ensures var t := Schedule(s, p, key, limits);
      p in t.participants ==>
        var lane := LaneAt(t.lanes, Place(t.participants[p], key));
        RunningJob(t.jobs, lane.job) || Total(lane.live) <= limits.trigger || (key.Dialogue? && |lane.live| == 1)
  {
    hide Due, Total, Schedule;
    ScheduleKeeps(s, p, key, limits, Place(0, key));
    if p in s.participants {
      ScheduleSettles(s, p, key, limits);
      NotDue(limits, key, LaneAt(Schedule(s, p, key, limits).lanes, Place(s.participants[p], key)).live);
    }
  }

  lemma KeptIsAccepted(cfg: Config, s: State, seen: map<nat, seq<R.Exchange>>)
    requires Upheld(cfg, s, seen)
    ensures Accepted(cfg) && Good(cfg, s) && Tied(s) && Mirrors(seen, s.lanes)
  {
    hide Accepted, Good, Tied, Mirrors;
  }

  // What the job's steps promise.

  /** What a commit makes of the lane of its job. */
  ghost predicate Folds(lane: Lane, later: Lane, job: Job, summary: string) {
    && later.log == lane.log && later.folded == lane.folded + job.batch && lane.live == job.batch + later.live
    && later.background.text == summary && Grows(lane, later)
  }

  /**
   A commit moves the batch of its job into the lane's summary and changes no other
   lane; without a commit, none changes.
   */
  ghost predicate FinishesRight(s: State, t: State, j: nat, first: Reply, second: Reply) {
    if !Commits(s, j, first, second) then t.lanes == s.lanes
    else
      var job := s.jobs[j];
      var summary := BoundedSummary(first, second, job.limits.summary).text;
      && Folds(LaneAt(s.lanes, job.place), LaneAt(t.lanes, job.place), job, summary)
      && Utf8.Size(summary) <= job.limits.summary
      && forall place :: place != job.place ==> LaneAt(t.lanes, place) == LaneAt(s.lanes, place)
  }

  lemma FinishPromises(cfg: Config, s: State, j: nat, first: Reply, second: Reply)
    requires Good(cfg, s)
    ensures FinishesRight(s, Finish(s, j, first, second), j, first, second)
  {
    hide Good, Commit, BoundedSummary, Grows, Utf8.Size;
    if Commits(s, j, first, second) {
      CommitFolds(cfg, s, j, first, second);
      SummaryIsBounded(first, second, s.jobs[j].limits.summary);
    }
  }

  /** Every lane holds what it held; after a commit for its present owner, a job runs or nothing is due. */
  ghost predicate ForgetsRight(s: State, t: State, j: nat) {
    && (forall place :: LaneAt(t.lanes, place).log == LaneAt(s.lanes, place).log
                        && LaneAt(t.lanes, place).live == LaneAt(s.lanes, place).live
                        && LaneAt(t.lanes, place).folded == LaneAt(s.lanes, place).folded)
    && (j in s.jobs && s.jobs[j].phase == Finished(true) && LaneAt(s.lanes, s.jobs[j].place).job == Some(j)
        && Owns(s.participants, s.jobs[j].participant, s.jobs[j].place.memory) ==>
          var job := s.jobs[j];
          RunningJob(t.jobs, LaneAt(t.lanes, job.place).job)
          || !Due(job.limits, job.place.key, LaneAt(t.lanes, job.place).live))
  }

  lemma ForgetPromises(cfg: Config, s: State, j: nat)
    requires Good(cfg, s)
    ensures ForgetsRight(s, Forget(s, j), j)
  {
    hide Schedule, Due, Good;
    forall place
      ensures LaneAt(Forget(s, j).lanes, place).log == LaneAt(s.lanes, place).log
              && LaneAt(Forget(s, j).lanes, place).live == LaneAt(s.lanes, place).live
              && LaneAt(Forget(s, j).lanes, place).folded == LaneAt(s.lanes, place).folded
    {
      ForgetLane(s, j, place);
    }
    if j in s.jobs && s.jobs[j].participant in s.participants {
      var job := s.jobs[j];
      var place := Place(s.participants[job.participant], job.place.key);
      ScheduleSettles(DropJob(s.(jobs := Without(s.jobs, j)), place), job.participant, place.key, job.limits);
    }
  }

  lemma ClearedIsDead(cfg: Config, s: State, seen: map<nat, seq<R.Exchange>>, p: string)
    requires Upheld(cfg, s, seen) && p in s.participants
    ensures Dead(Clear(s, p), s.participants[p])
  {
    hide Good, Mirrors, Accepted;
  }

  lemma JobLimits(cfg: Config, s: State, j: nat)
    requires Good(cfg, s) && j in s.jobs
    ensures LimitsFor(cfg, s.jobs[j].place.key) == Some(s.jobs[j].limits)
  {
    assert JobGood(cfg, s.lanes, j, s.jobs[j]);
    hide Working, RequestGood, LimitsFor;
  }

  /** Removing a finished job, and releasing its lane, keeps everything. */
  lemma DropKept(cfg: Config, s: State, seen: map<nat, seq<R.Exchange>>, j: nat)
    requires Upheld(cfg, s, seen) && j in s.jobs && s.jobs[j].phase.Finished?
    ensures var t := s.(jobs := Without(s.jobs, j));
      forall place :: LaneAt(s.lanes, place).job == Some(j) ==> Upheld(cfg, DropJob(t, place), seen)
  {
    hide Good, Mirrors, Accepted, SameLogs;
    var t := s.(jobs := Without(s.jobs, j));
    FewerJobsGood(cfg, s, j);
    assert Tied(t);
    forall place | LaneAt(s.lanes, place).job == Some(j) ensures Upheld(cfg, DropJob(t, place), seen) {
      DropJobGood(cfg, t, place, j);
      DropKeepsLogs(t, place);
      DropTied(t, place);
      SameLogsMirror(seen, s.lanes, DropJob(t, place).lanes);
    }
  }

  lemma DropKeepsLogs(s: State, place: Place)
    ensures SameLogs(s.lanes, DropJob(s, place).lanes)
  {
  }

  class ConversationContext {
    const cfg: Config
    var participants: map<string, nat>
    var counters: map<nat, Counters>
    var lanes: map<Place, Lane>
    var jobs: map<nat, Job>
    var next: nat
    var seen: map<nat, seq<R.Exchange>>

    function Contents(): State
      reads this
    {
      State(participants, counters, lanes, jobs, next)
    }

    ghost predicate Valid()
      reads this
    {
      Upheld(cfg, Contents(), seen)
    }

    /** Every exchange known for the participant, compacted or not. */
    function Seen(p: string): seq<R.Exchange>
      reads this
    {
      if p in participants then SeenIn(seen, participants[p]) else []
    }

    constructor (cfg: Config)
      requires Accepted(cfg)
      ensures Valid() && Contents() == Init && seen == map[] && this.cfg == cfg
    {
      this.cfg := cfg;
      participants, counters, lanes, jobs, next, seen := map[], map[], map[], map[], 0, map[];
      new;
      InitKept(cfg);
      hide Upheld;
    }

    method Memory(p: string) returns (memory: nat)
      requires Valid()
      modifies this
      ensures Valid() && Contents() == Ensure(old(Contents()), p) && seen == old(seen)
      ensures p in participants && memory == participants[p] && Seen(p) == old(Seen(p))
    {
      hide Upheld;
      EnsureKept(cfg, Contents(), seen, p);
      if p !in participants {
        participants := participants[p := next];
        counters := counters[next := Counters(0, 0)];
        next := next + 1;
      }
      memory := participants[p];
    }

    /** `append`: the entry joins the transcript, and its identity what was seen. */
    method Append(p: string, x: R.Exchange)
      requires Valid()
      modifies this
      ensures Valid() && p in Ensure(old(Contents()), p).participants
      ensures Contents() == AppendTo(Ensure(old(Contents()), p), p, Dialogue, [ContentOf(x)])
      ensures Seen(p) == old(Seen(p)) + [x]
    {
      hide Upheld;
      var memory := Memory(p);
      AppendKept(cfg, Contents(), seen, p, x);
      var place, c := Place(memory, Dialogue), CountersAt(counters, memory);
      var entry := Entry(c.dialogue, ContentOf(x));
      assert [entry] == Numbered(c.dialogue, [ContentOf(x)]);
      counters := counters[memory := c.(dialogue := c.dialogue + 1)];
      var lane := LaneAt(lanes, place);
      lanes := lanes[place := lane.(log := lane.log + [entry], live := lane.live + [entry])];
      seen := seen[memory := SeenIn(seen, memory) + [x]];
    }

    /** Start a job unless one runs, the lane is within its trigger, or nothing may be taken. */
    method ScheduleCompaction(p: string, key: Key, limits: Limits)
      requires Valid() && LimitsFor(cfg, key) == Some(limits)
      modifies this`lanes, this`jobs, this`next
      ensures Valid() && Contents() == Schedule(old(Contents()), p, key, limits)
      ensures p in participants ==>
        var lane := LaneAt(lanes, Place(participants[p], key));
        RunningJob(jobs, lane.job) || Total(lane.live) <= limits.trigger || (key.Dialogue? && |lane.live| == 1)
    {
      SchedulePromises(Contents(), p, key, limits);
      hide OldestBatch, PreviousInput, Available, ClipSingle, Total, Upheld, LimitsFor;
      ScheduleKept(cfg, Contents(), seen, p, key);
      if p !in participants {
        return;
      }
      var place := Place(participants[p], key);
      var lane := LaneAt(lanes, place);
      if RunningJob(jobs, lane.job) || Total(lane.live) <= limits.trigger {
        return;
      }
      var prefix := Compactable(key, lane.live);
      if prefix == [] {
        return;
      }
      var previous := PreviousInput(lane.background.text, lane.background.latest);
      var available := Available(limits, previous);
      var batch := TakeOldest(prefix, available);
      var job := Job(p, place, previous, batch, ClipSingle(batch, available), limits, Running, false);
      lanes := lanes[place := lane.(job := Some(next))];
      jobs := jobs[next := job];
      next := next + 1;
    }

    method RecordExchange(p: string, x: R.Exchange)
      requires Valid()
      modifies this
      ensures Valid() && Contents() == Write(cfg, old(Contents()), p, Dialogue, [ContentOf(x)])
      ensures Seen(p) == old(Seen(p)) + [x]
    {
      hide Upheld, LimitsOf;
      assert LimitsFor(cfg, Dialogue) == Some(LimitsOf(cfg.dialogue, cfg.input)) by {
        KeptIsAccepted(cfg, Contents(), seen);
        AcceptedDialogue(cfg);
      }
      Append(p, x);
      ghost var after := Contents();
      ScheduleCompaction(p, Dialogue, LimitsOf(cfg.dialogue, cfg.input));
      assert participants == after.participants;
    }

    /** Append exchanges one at a time. */
    method AppendAll(p: string, xs: seq<R.Exchange>)
      requires Valid()
      modifies this
      ensures Valid() && Seen(p) == old(Seen(p)) + xs
      ensures p in Ensure(old(Contents()), p).participants
      ensures Contents() == if xs == [] then old(Contents())
                            else AppendTo(Ensure(old(Contents()), p), p, Dialogue, ContentsOf(xs))
    {
      hide AppendTo, Ensure, Upheld;
      ghost var s := Ensure(Contents(), p);
      ghost var known := Seen(p);
      OwnedByEnsure(Contents(), p);
      var i := 0;
      while i < |xs|
        invariant 0 <= i <= |xs| && Valid()
        invariant Seen(p) == known + xs[..i]
        invariant Contents() == if i == 0 then old(Contents()) else AppendTo(s, p, Dialogue, ContentsOf(xs[..i]))
      {
        ghost var front := ContentsOf(xs[..i]);
        AppendOwns(s, p, Dialogue, front);
        OwnedByEnsure(Contents(), p);
        if i > 0 {
          AppendTwice(s, p, Dialogue, front, [ContentOf(xs[i])]);
        }
        Append(p, xs[i]);
        assert xs[..i + 1] == xs[..i] + [xs[i]];
        assert ContentsOf(xs[..i + 1]) == front + [ContentOf(xs[i])];
        assert i == 0 ==> front + [ContentOf(xs[i])] == [ContentOf(xs[i])];
        i := i + 1;
      }
      assert xs[..|xs|] == xs;
    }

    /** Append what the window adds. */
    method ReconcileTranscript(p: string, window: seq<R.Exchange>)
      requires Valid()
      modifies this
      ensures Valid() && Seen(p) == R.Merged(old(Seen(p)), window)
      ensures p in Ensure(old(Contents()), p).participants
      ensures var added := R.NewExchanges(old(Seen(p)), window);
        Contents() == if added == [] then old(Contents())
                      else AppendTo(Ensure(old(Contents()), p), p, Dialogue, ContentsOf(added))
    {
      hide Upheld;
      var added := R.FindNew(Seen(p), window);
      AppendAll(p, added);
    }

    method ReconcileHistory(p: string, window: seq<R.Exchange>)
      requires Valid()
      modifies this
      ensures Valid() && Seen(p) == R.Merged(old(Seen(p)), window)
      ensures Contents() == Write(cfg, old(Contents()), p, Dialogue, ContentsOf(R.NewExchanges(old(Seen(p)), window)))
    {
      hide Upheld, LimitsOf;
      assert LimitsFor(cfg, Dialogue) == Some(LimitsOf(cfg.dialogue, cfg.input)) by {
        KeptIsAccepted(cfg, Contents(), seen);
        AcceptedDialogue(cfg);
      }
      ReconcileTranscript(p, window);
      ScheduleCompaction(p, Dialogue, LimitsOf(cfg.dialogue, cfg.input));
    }

    /** An update of an incremental source; one that is not configured is refused. */
    method Update(p: string, source: string, text: string, time: Option<int>) returns (configured: bool)
      requires Valid()
      modifies this
      ensures Valid() && configured == LimitsFor(cfg, Source(source)).Some?
      ensures Contents() == Write(cfg, old(Contents()), p, Source(source), [Content.Update(source, text, time)])
    {
      hide Upheld, LimitsFor;
      var limits := LimitsFor(cfg, Source(source));
      if limits.None? {
        return false;
      }
      AppendUpdate(p, source, Content.Update(source, text, time));
      ScheduleCompaction(p, Source(source), limits.value);
      return true;
    }

    method AppendUpdate(p: string, source: string, update: Content)
      requires Valid() && LimitsFor(cfg, Source(source)).Some? && update.Update? && update.source == source
      modifies this
      ensures Valid() && p in Ensure(old(Contents()), p).participants
      ensures Contents() == AppendTo(Ensure(old(Contents()), p), p, Source(source), [update])
    {
      hide Upheld, LimitsFor;
      var memory := Memory(p);
      AppendSourceKept(cfg, Contents(), seen, p, source, update);
      var place, c := Place(memory, Source(source)), CountersAt(counters, memory);
      var entry := Entry(c.record, update);
      assert [entry] == Numbered(c.record, [update]);
      counters := counters[memory := c.(record := c.record + 1)];
      var lane := LaneAt(lanes, place);
      lanes := lanes[place := lane.(log := lane.log + [entry], live := lane.live + [entry])];
    }

    /**
     The last stretch of a compaction job, after its requests returned. It commits
     iff the summary is usable and the participant still has the job's memory; then
     its batch moves from the live entries into the summary, and nothing else changes.
     */
    method FinishJob(j: nat, first: Reply, second: Reply) returns (committed: bool)
      requires Valid()
      modifies this`lanes, this`jobs
      ensures Valid() && Contents() == Finish(old(Contents()), j, first, second)
      ensures committed <==> Commits(old(Contents()), j, first, second)
      ensures FinishesRight(old(Contents()), Contents(), j, first, second)
    {
      hide Upheld, Good, FinishesRight, BoundedSummary, Commit;
      ghost var s := Contents();
      FinishKept(cfg, s, seen, j, first, second);
      assert Good(cfg, s) by { KeptIsAccepted(cfg, s, seen); }
      FinishPromises(cfg, s, j, first, second);
      committed := false;
      if j in jobs && jobs[j].phase == Running {
        var job := jobs[j];
        var summary := BoundedSummary(first, second, job.limits.summary);
        committed := summary.Summary? && job.batch != [] && Owns(participants, job.participant, job.place.memory);
        if committed {
          lanes := lanes[job.place := Commit(LaneAt(lanes, job.place), job.batch, summary.text)];
        }
        jobs := jobs[j := job.(phase := Finished(committed))];
      }
    }

    /**
     The completion callback. It keeps what every lane holds; when the job
     committed for the memory that still owns it, another job runs afterwards or
     the lane is not due.
     */
    method ForgetJob(j: nat)
      requires Valid()
      modifies this`lanes, this`jobs, this`next
      ensures Valid() && Contents() == Forget(old(Contents()), j)
      ensures ForgetsRight(old(Contents()), Contents(), j)
    {
      hide Upheld, Good, Tied, ForgetsRight;
      ghost var s := Contents();
      KeptIsAccepted(cfg, s, seen);
      ForgetKept(cfg, s, seen, j);
      ForgetPromises(cfg, s, j);
      if !(j in jobs && jobs[j].phase.Finished?) {
        return;
      }
      JobLimits(cfg, s, j);
      DropKept(cfg, s, seen, j);
      var job := jobs[j];
      jobs := Without(jobs, j);
      if job.participant in participants {
        var place := Place(participants[job.participant], job.place.key);
        var lane := LaneAt(lanes, place);
        if lane.job == Some(j) {
          lanes := lanes[place := lane.(job := None)];
          if job.phase.committed {
            ScheduleCompaction(job.participant, place.key, job.limits);
          }
        }
      }
    }

    /**
     The memory is forgotten and will never be anybody's again, its running jobs
     are asked to stop, and nobody else notices.
     */
    method ClearParticipant(p: string)
      requires Valid()
      modifies this`participants, this`jobs
      ensures Valid() && Contents() == Clear(old(Contents()), p)
      ensures p !in participants && Seen(p) == []
      ensures forall q :: q != p ==> (q in participants <==> q in old(participants)) && Seen(q) == old(Seen(q))
      ensures p in old(participants) ==>
        && Dead(Contents(), old(participants)[p])
        && forall j :: j in jobs && jobs[j].place.memory == old(participants)[p] && jobs[j].phase == Running ==>
             jobs[j].cancelled
      ensures forall j | j in old(jobs)
                         && !(p in old(participants) && old(jobs)[j].place.memory == old(participants)[p]) ::
        j in jobs && jobs[j] == old(jobs)[j]
    {
      hide Upheld;
      ghost var s := Contents();
      ClearKept(cfg, s, seen, p);
      if p in participants {
        ClearedIsDead(cfg, s, seen, p);
        var memory := participants[p];
        participants := Without(participants, p);
        jobs := map j | j in jobs ::
                  if jobs[j].place.memory == memory && jobs[j].phase == Running
                  then jobs[j].(cancelled := true) else jobs[j];
      }
    }
  }
}
