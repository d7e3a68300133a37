/**
 Theorems about every run of compaction: each entry is summarized or verbatim,
 never both and never neither; coverage never goes back; a job that outlives its
 memory changes nothing; requests fit their budget; compaction makes progress.
 */
module CompactionRuns {
  import opened Seqs
  import Clipping
  import opened Rendering
  import opened Budgets
  import opened Summaries
  import opened Compaction
  import opened CompactionSafety

  ghost predicate Reachable(cfg: Config, s: State) {
    exists es :: s == Run(cfg, Init, es)
  }

  lemma ReachableGood(cfg: Config, s: State)
    requires Reachable(cfg, s)
    ensures Good(cfg, s)
  {
    var es :| s == Run(cfg, Init, es);
    RunGood(cfg, Init, es);
  }

  function DialogueOf(s: State, p: string): Lane
    requires p in s.participants
  {
    LaneAt(s.lanes, Place(s.participants[p], Dialogue))
  }

  // Theorem 1: coverage.

  /**
   The live transcript is exactly the exchanges after `through`, without gaps,
   and the summary stands for exactly those up to it.
   */
  lemma DialogueCoverage(cfg: Config, s: State, p: string)
    requires Reachable(cfg, s) && p in s.participants
    ensures var lane, next := DialogueOf(s, p), CountersAt(s.counters, s.participants[p]).dialogue;
      && lane.folded + lane.live == lane.log && |lane.log| == next
      && lane.background.through + 1 == |lane.folded| && |lane.live| == next - (lane.background.through + 1)
      && (forall i :: 0 <= i < |lane.live| ==> lane.live[i].sequence == lane.background.through + 1 + i)
      && (forall i :: 0 <= i < |lane.folded| ==> lane.folded[i].sequence == i)
  {
    var place := Place(s.participants[p], Dialogue);
    ReachableGood(cfg, s);
    LaneAtGood(cfg, s, place);
    hide Good;
    DialogueNumbers(DialogueOf(s, p), CountersAt(s.counters, place.memory).dialogue);
  }

  lemma DialogueNumbers(lane: Lane, next: nat)
    requires Ordered(Dialogue, lane.log, next) && Covered(lane)
    ensures |lane.log| == next && lane.background.through + 1 == |lane.folded|
    ensures forall i :: 0 <= i < |lane.live| ==> lane.live[i].sequence == lane.background.through + 1 + i
    ensures forall i :: 0 <= i < |lane.folded| ==> lane.folded[i].sequence == i
  {
    forall i | 0 <= i < |lane.folded| ensures lane.folded[i].sequence == i {
      hide Ordered, Covered;
      FoldedInLog(lane, i);
      NumberedAt(lane.log, next, i);
    }
    forall i | 0 <= i < |lane.live| ensures lane.live[i].sequence == |lane.folded| + i {
      hide Ordered, Covered;
      LiveInLog(lane, i);
      NumberedAt(lane.log, next, |lane.folded| + i);
    }
  }

  lemma NumberedAt(log: seq<Entry>, next: nat, i: nat)
    requires Ordered(Dialogue, log, next) && i < |log|
    ensures log[i].sequence == i
  {
  }

  /** A source's updates are numbered with those of other sources, so only their order is known. */
  lemma SourceCoverage(cfg: Config, s: State, place: Place)
    requires Reachable(cfg, s)
    ensures var lane := LaneAt(s.lanes, place);
      && lane.folded + lane.live == lane.log
      && (forall e :: e in lane.folded ==> e.sequence <= lane.background.through)
      && (forall e :: e in lane.live ==> e.sequence > lane.background.through)
  {
    ReachableGood(cfg, s);
    LaneAtGood(cfg, s, place);
    var next := NextSequence(CountersAt(s.counters, place.memory), place.key);
    hide Good, LaneAt, Ordered;
    FoldedAreOlder(LaneAt(s.lanes, place), place.key, next);
    LiveAreNewer(LaneAt(s.lanes, place), place.key, next);
  }

  lemma FoldedInLog(lane: Lane, i: nat)
    requires Covered(lane) && i < |lane.folded|
    ensures i < |lane.log| && lane.log[i] == lane.folded[i]
    ensures lane.background.through == lane.folded[|lane.folded| - 1].sequence
  {
  }

  lemma FoldedAreOlder(lane: Lane, key: Key, next: nat)
    requires Ordered(key, lane.log, next) && Covered(lane)
    ensures forall e :: e in lane.folded ==> e.sequence <= lane.background.through
  {
    hide Ordered, Covered;
    var n := |lane.folded|;
    forall e | e in lane.folded ensures e.sequence <= lane.background.through {
      var i :| 0 <= i < n && lane.folded[i] == e;
      FoldedInLog(lane, i);
      FoldedInLog(lane, n - 1);
      if i < n - 1 { OrderedAt(key, lane.log, next, i, n - 1); }
    }
  }

  lemma LiveAreNewer(lane: Lane, key: Key, next: nat)
    requires Ordered(key, lane.log, next) && Covered(lane)
    ensures forall e :: e in lane.live ==> e.sequence > lane.background.through
  {
    var n := |lane.folded|;
    if n > 0 {
      hide Ordered, Covered;
      FoldedInLog(lane, n - 1);
      forall e | e in lane.live ensures e.sequence > lane.background.through {
        var i :| 0 <= i < |lane.live| && lane.live[i] == e;
        LiveInLog(lane, i);
        OrderedAt(key, lane.log, next, n - 1, n + i);
      }
    }
  }

  // Theorem 2: coverage never goes back.

  /** What was added stays added, what was folded stays folded, and `through` does not decrease. */
  ghost predicate Grows(lane: Lane, later: Lane) {
    && lane.log <= later.log && lane.folded <= later.folded && lane.background.through <= later.background.through
    && (lane.folded == later.folded ==> lane.background == later.background)
  }

  lemma AppendGrows(lane: Lane, es: seq<Entry>, job: Option<nat>)
    ensures Grows(lane, AddEntries(lane, es)) && Grows(lane, lane.(job := job)) && Grows(lane, lane)
    ensures Grows(lane, AddEntries(lane, es).(job := job))
  {
  }

  lemma ScheduleGrows(s: State, p: string, key: Key, limits: Limits, place: Place)
    ensures Grows(LaneAt(s.lanes, place), LaneAt(Schedule(s, p, key, limits).lanes, place))
    ensures LaneAt(s.lanes, place).live == LaneAt(Schedule(s, p, key, limits).lanes, place).live
    ensures LaneAt(s.lanes, place).log == LaneAt(Schedule(s, p, key, limits).lanes, place).log
    ensures LaneAt(s.lanes, place).folded == LaneAt(Schedule(s, p, key, limits).lanes, place).folded
  {
    hide Due, NewJob;
  }

  lemma GrowsOn(a: Lane, b: Lane, c: Lane)
    requires Grows(a, b) && Grows(b, c)
    ensures Grows(a, c)
  {
  }

  lemma WriteGrows(cfg: Config, s: State, p: string, key: Key, contents: seq<Content>, place: Place)
    ensures Grows(LaneAt(s.lanes, place), LaneAt(Write(cfg, s, p, key, contents).lanes, place))
  {
    var limits := LimitsFor(cfg, key);
    AppendGrows(LaneAt(s.lanes, place), [], None);
    hide LimitsFor, Schedule, Grows, Numbered, AddEntries;
    if limits.Some? && contents == [] {
      ScheduleGrows(s, p, key, limits.value, place);
    } else if limits.Some? {
      var t := AppendTo(Ensure(s, p), p, key, contents);
      if place == Place(Ensure(s, p).participants[p], key) {
        var es := Numbered(NextSequence(CountersAt(Ensure(s, p).counters, place.memory), key), contents);
        AppendGrows(LaneAt(s.lanes, place), es, None);
        assert LaneAt(t.lanes, place) == AddEntries(LaneAt(s.lanes, place), es);
      } else {
        assert LaneAt(t.lanes, place) == LaneAt(s.lanes, place);
      }
      ScheduleGrows(t, p, key, limits.value, place);
      GrowsOn(LaneAt(s.lanes, place), LaneAt(t.lanes, place),
              LaneAt(Schedule(t, p, key, limits.value).lanes, place));
    }
  }

  lemma ThroughAdvances(lane: Lane, key: Key, next: nat, n: nat)
    requires Ordered(key, lane.log, next) && Covered(lane) && 0 < n <= |lane.live|
    ensures lane.background.through < lane.live[n - 1].sequence
  {
    var k := |lane.folded|;
    assert lane.live[n - 1] == lane.log[k + n - 1];
    if k > 0 {
      assert lane.folded[k - 1] == lane.log[k - 1];
    }
  }

  lemma RunningJobWorks(cfg: Config, s: State, j: nat)
    requires Good(cfg, s) && j in s.jobs && s.jobs[j].phase == Running
    ensures var place := s.jobs[j].place;
      && Working(LaneAt(s.lanes, place), j, s.jobs[j]) && Covered(LaneAt(s.lanes, place))
      && Ordered(place.key, LaneAt(s.lanes, place).log, NextSequence(CountersAt(s.counters, place.memory), place.key))
  {
    hide Working, Covered, Ordered, Kind, Bounded, LaneAt, LimitsFor, RequestGood;
    assert JobGood(cfg, s.lanes, j, s.jobs[j]);
    LaneAtGood(cfg, s, s.jobs[j].place);
  }

  lemma CommitIsFold(lane: Lane, key: Key, next: nat, batch: seq<Entry>, summary: string)
    requires Ordered(key, lane.log, next) && Covered(lane)
    requires 0 < |batch| <= |lane.live| && batch == lane.live[..|batch|]
    ensures var later := Commit(lane, batch, summary);
      && later.folded == lane.folded + batch && later.log == lane.log && lane.live == batch + later.live
      && later.background.through == batch[|batch| - 1].sequence && Grows(lane, later)
      && (|batch| < |lane.live| ==> later.live != [])
  {
    hide Filter, Latest, Ordered, Covered;
    CommitMoves(lane, key, next, batch, summary);
    ThroughAdvances(lane, key, next, |batch|);
  }

  /** A commit folds the batch in, and its summary was made from the summary it replaces. */
  lemma CommitFolds(cfg: Config, s: State, j: nat, first: Reply, second: Reply)
    requires Good(cfg, s) && Commits(s, j, first, second)
    ensures var job := s.jobs[j];
      var lane, later := LaneAt(s.lanes, job.place), LaneAt(Finish(s, j, first, second).lanes, job.place);
      && job.previous == PreviousInput(lane.background.text, lane.background.latest)
      && later.folded == lane.folded + job.batch && later.log == lane.log && lane.live == job.batch + later.live
      && later.background.text == BoundedSummary(first, second, job.limits.summary).text
      && later.background.through == job.batch[|job.batch| - 1].sequence
      && Grows(lane, later) && lane.job == Some(j) && later.job == Some(j)
      && (job.place.key.Dialogue? ==> later.live != [])
  {
    hide Good, Filter, Latest, BoundedSummary, PreviousInput, Ordered, Covered, Grows;
    var job := s.jobs[j];
    RunningJobWorks(cfg, s, j);
    CommitIsFold(LaneAt(s.lanes, job.place), job.place.key,
                 NextSequence(CountersAt(s.counters, job.place.memory), job.place.key), job.batch,
                 BoundedSummary(first, second, job.limits.summary).text);
  }

  lemma FinishGrows(cfg: Config, s: State, j: nat, first: Reply, second: Reply, place: Place)
    requires Good(cfg, s)
    ensures Grows(LaneAt(s.lanes, place), LaneAt(Finish(s, j, first, second).lanes, place))
    ensures LaneAt(Finish(s, j, first, second).lanes, place) == LaneAt(s.lanes, place)
      || (Commits(s, j, first, second) && s.jobs[j].place == place)
  {
    hide Good, Grows, Commit, BoundedSummary;
    AppendGrows(LaneAt(s.lanes, place), [], None);
    if Commits(s, j, first, second) && s.jobs[j].place == place {
      CommitFolds(cfg, s, j, first, second);
    }
  }

  /** The completion callback can only release the lane and start the next job. */
  lemma ForgetLane(s: State, j: nat, place: Place)
    ensures var lane, later := LaneAt(s.lanes, place), LaneAt(Forget(s, j).lanes, place);
      Grows(lane, later) && later.live == lane.live && later.log == lane.log && later.folded == lane.folded
  {
    hide Due, NewJob, Schedule, Grows;
    AppendGrows(LaneAt(s.lanes, place), [], None);
    if j in s.jobs && s.jobs[j].phase.Finished? && s.jobs[j].participant in s.participants {
      var job := s.jobs[j];
      var owned := Place(s.participants[job.participant], job.place.key);
      var t := DropJob(s.(jobs := Without(s.jobs, j)), owned);
      AppendGrows(LaneAt(s.lanes, owned), [], None);
      ScheduleGrows(t, job.participant, owned.key, job.limits, place);
      GrowsOn(LaneAt(s.lanes, place), LaneAt(t.lanes, place),
              LaneAt(Schedule(t, job.participant, owned.key, job.limits).lanes, place));
    }
  }

  /** Whatever happens, no lane loses an entry or a fold, and `through` never decreases. */
  lemma CoverageNeverGoesBack(cfg: Config, s: State, e: Event, place: Place)
    requires Reachable(cfg, s)
    ensures Grows(LaneAt(s.lanes, place), LaneAt(Step(cfg, s, e).lanes, place))
  {
    ReachableGood(cfg, s);
    AppendGrows(LaneAt(s.lanes, place), [], None);
    hide Good, Grows, Write, Finish, Forget, Fits;
    match e
    case Written(p, key, contents) => WriteGrows(cfg, s, p, key, contents, place);
    case Finishes(j, first, second) => FinishGrows(cfg, s, j, first, second, place);
    case Forgotten(j) => ForgetLane(s, j, place);
    case Cleared(p) =>
  }

  /**
   A lane's summary changes only when its own job commits, and then the new
   summary was made from the one it replaces and the oldest live entries.
   */
  lemma SummariesChain(cfg: Config, s: State, e: Event, place: Place)
    requires Reachable(cfg, s)
    requires LaneAt(Step(cfg, s, e).lanes, place).background != LaneAt(s.lanes, place).background
    ensures e.Finishes? && Commits(s, e.j, e.first, e.second) && s.jobs[e.j].place == place
    ensures var job, lane := s.jobs[e.j], LaneAt(s.lanes, place);
      job.previous == PreviousInput(lane.background.text, lane.background.latest) && job.batch <= lane.live
  {
    ReachableGood(cfg, s);
    hide Good, Write, Finish, Forget, Fits;
    match e
    case Written(p, key, contents) =>
      WriteGrows(cfg, s, p, key, contents, place);
      WriteFoldsNothing(cfg, s, p, key, contents, place);
      assert false;
    case Finishes(j, first, second) =>
      FinishGrows(cfg, s, j, first, second, place);
      CommitFolds(cfg, s, j, first, second);
    case Forgotten(j) =>
      ForgetLane(s, j, place);
      assert false;
    case Cleared(p) =>
  }

  lemma WriteFoldsNothing(cfg: Config, s: State, p: string, key: Key, contents: seq<Content>, place: Place)
    ensures LaneAt(Write(cfg, s, p, key, contents).lanes, place).folded == LaneAt(s.lanes, place).folded
  {
    var limits := LimitsFor(cfg, key);
    hide LimitsFor, Schedule, Numbered;
    if limits.Some? && contents == [] {
      ScheduleGrows(s, p, key, limits.value, place);
    } else if limits.Some? {
      ScheduleGrows(AppendTo(Ensure(s, p), p, key, contents), p, key, limits.value, place);
    }
  }

  /** The time of a summary is the newest time it covers. */
  lemma {:induction false} LatestIsNewest(previous: Option<int>, es: seq<Entry>)
    ensures var r := Latest(previous, es);
      && (r == previous || exists e :: e in es && e.content.time == r)
      && (previous.Some? ==> r.Some? && previous.value <= r.value)
      && (forall e :: e in es && e.content.time.Some? ==> r.Some? && e.content.time.value <= r.value)
  {
    if es != [] {
      LatestIsNewest(previous, es[1..]);
      assert es == [es[0]] + es[1..];
      if Latest(previous, es) != Latest(previous, es[1..]) {
        assert es[0] in es;
      }
    }
  }

  // Theorem 3: at most one job works on a lane.

  lemma OneJobPerLane(cfg: Config, s: State, i: nat, j: nat)
    requires Reachable(cfg, s) && i in s.jobs && j in s.jobs && s.jobs[i].place == s.jobs[j].place
    requires s.jobs[i].phase == Running && s.jobs[j].phase == Running
    ensures i == j
  {
    ReachableGood(cfg, s);
    assert JobGood(cfg, s.lanes, i, s.jobs[i]) && JobGood(cfg, s.lanes, j, s.jobs[j]);
  }

  // Theorem 4: what a request carries fits the configured input, unless a topic's name is too long.

  /**
   In every reachable state a request is within the configured input exactly when
   the framing of its oldest entry fits beside the earlier summary, which it does
   for the dialogue and for topic names of at most 147 bytes.
   */
  lemma RequestsFitTheInput(cfg: Config, s: State, j: nat)
    requires Reachable(cfg, s) && Accepted(cfg) && j in s.jobs
    ensures var job := s.jobs[j];
      && job.batch != [] && OfKind(job.place.key, job.batch[0].content)
      && (Utf8.Size(job.previous) + Total(job.request) <= cfg.input
          <==> Utf8.Size(job.previous) + Framing(job.batch[0].content) <= cfg.input)
      && ((job.place.key.Source? ==> Utf8.Size(job.place.key.name) <= 147) ==>
            Utf8.Size(job.previous) + Total(job.request) <= cfg.input)
  {
    ReachableGood(cfg, s);
    assert RequestGood(cfg, s.jobs[j]);
    hide Good, Reachable, Accepted, Framing, Total, ContentSize, Utf8.Encode;
    SizeOfContent(s.jobs[j].batch[0].content);
  }

  /**
   A topic whose name is as long as the configured input breaks that budget with
   the very first update, although the configuration is accepted.
   */
  lemma LongNamesOverflow(cfg: Config, p: string, name: string, text: string, time: Option<int>)
    requires Accepted(cfg) && LimitsFor(cfg, Source(name)).Some? && Utf8.Size(name) >= cfg.input
    ensures var s := Run(cfg, Init, [Written(p, Source(name), [Update(name, text, time)])]);
      1 in s.jobs && Utf8.Size(s.jobs[1].previous) + Total(s.jobs[1].request) > cfg.input
  {
    var e := Written(p, Source(name), [Update(name, text, time)]);
    var s := Step(cfg, Init, e);
    assert [e][1..] == [] && Run(cfg, s, []) == s;
    assert Run(cfg, Init, [e]) == s && Reachable(cfg, s);
    FirstUpdateStartsJob(cfg, p, name, text, time);
    RequestsFitTheInput(cfg, s, 1);
    NameIsFraming(s.jobs[1].batch[0].content);
  }

  lemma NameIsFraming(c: Content)
    requires c.Update?
    ensures Framing(c) > Utf8.Size(c.source)
  {
    hide Utf8.Encode;
    UpdateHeadSizes();
  }

  lemma LongUpdateIsDue(cfg: Config, name: string, text: string, time: Option<int>)
    requires Accepted(cfg) && LimitsFor(cfg, Source(name)).Some? && Utf8.Size(name) >= cfg.input
    ensures Due(LimitsFor(cfg, Source(name)).value, Source(name), [Entry(0, Update(name, text, time))])
  {
    hide Utf8.Encode, Framing, LimitsFor;
    var c := Update(name, text, time);
    var budget := LimitsAreOfSection(cfg, Source(name));
    LargestIsLargest(cfg.dialogue, cfg.topics);
    NameIsFraming(c);
    SizeOfContent(c);
    TotalOfOne(Entry(0, c));
    hide ContentSize, Total;
  }

  lemma FirstUpdateStartsJob(cfg: Config, p: string, name: string, text: string, time: Option<int>)
    requires Accepted(cfg) && LimitsFor(cfg, Source(name)).Some? && Utf8.Size(name) >= cfg.input
    ensures var s := Step(cfg, Init, Written(p, Source(name), [Update(name, text, time)]));
      1 in s.jobs && s.jobs[1].place == Place(0, Source(name))
  {
    hide OldestBatch, ClipSingle, PreviousInput, Available, Accepted, LimitsFor, Due;
    var c := Update(name, text, time);
    LongUpdateIsDue(cfg, name, text, time);
    assert Fits(Source(name), [c]) && Numbered(0, [c]) == [Entry(0, c)];
    hide Numbered, Fits;
    var t := AppendTo(Ensure(Init, p), p, Source(name), [c]);
    assert LaneAt(t.lanes, Place(0, Source(name))).live == [Entry(0, c)];
  }

  /** Such a configuration, with a name of 300 characters. */
  const LongName := seq(300, _ => 'n')
  const LongTopic := Config(4, [Topic(LongName, 4)], 258)

  lemma LongNameOverflows(p: string, text: string, time: Option<int>)
    ensures Accepted(LongTopic)
    ensures var s := Run(LongTopic, Init, [Written(p, Source(LongName), [Update(LongName, text, time)])]);
      1 in s.jobs && Utf8.Size(s.jobs[1].previous) + Total(s.jobs[1].request) > LongTopic.input
  {
    assert Largest(4, [Topic(LongName, 4)]) == 4 by { assert [Topic(LongName, 4)][1..] == []; }
    assert TopicBudget(LongTopic.topics, LongName) == Some(4);
    Clipping.AsciiSize(LongName);
    hide Utf8.Encode, Run;
    LongNamesOverflow(LongTopic, p, LongName, text, time);
  }

  // Theorem 5: whatever the state, a prompt section stays within its budget.

  function ContentsIn(es: seq<Entry>): (cs: seq<Content>)
    ensures |cs| == |es|
    ensures forall i :: 0 <= i < |es| ==> cs[i] == es[i].content
  {
    seq(|es|, i requires 0 <= i < |es| => es[i].content)
  }

  lemma SummaryWithin(cfg: Config, s: State, place: Place, budget: nat)
    requires Good(cfg, s) && cfg.input > 0 && LimitsFor(cfg, place.key) == Some(LimitsOf(budget, cfg.input))
    ensures Utf8.Size(LaneAt(s.lanes, place).background.text) <= LimitsOf(budget, 0).summary
    ensures Kind(place.key, LaneAt(s.lanes, place).live)
  {
    LaneAtGood(cfg, s, place);
    hide Good, LimitsFor, Ordered, Covered, LaneAt;
  }

  /**
   The dialogue section of a prompt, for every reachable state and every section
   budget that covers the headers and three quarters of itself.
   */
  lemma DialogueRenders(cfg: Config, s: State, p: string, k: nat)
    requires Reachable(cfg, s) && p in s.participants && LimitsFor(cfg, Dialogue).Some?
    requires 159 + 3 * (cfg.dialogue / 4) <= cfg.dialogue
    ensures forall c :: c in ContentsIn(DialogueOf(s, p).live) ==> c.Exchange?
    ensures var lane := DialogueOf(s, p);
      var fixed := DialogueFixed(lane.background.text, lane.background.latest);
      var raw := DialogueRaw(ContentsIn(lane.live), cfg.dialogue);
      Keeps(cfg.dialogue, fixed, raw, k) ==> TextTotal(fixed + raw[k..]) <= cfg.dialogue
  {
    ReachableGood(cfg, s);
    SummaryWithin(cfg, s, Place(s.participants[p], Dialogue), cfg.dialogue);
    hide Good, Reachable, TextTotal, DialogueFixed, DialogueRaw, Utf8.Encode;
    var lane := DialogueOf(s, p);
    var fixed := DialogueFixed(lane.background.text, lane.background.latest);
    var contents := ContentsIn(lane.live);
    if Keeps(cfg.dialogue, fixed, DialogueRaw(contents, cfg.dialogue), k) {
      DialogueSectionFits(cfg.dialogue, lane.background.text, lane.background.latest, contents, k);
    }
  }

  /** The section of an incremental source, whose budget covers its headers. */
  lemma SourceRenders(cfg: Config, s: State, p: string, source: string, budget: nat, k: nat)
    requires Reachable(cfg, s) && p in s.participants && LimitsFor(cfg, Source(source)).Some?
    requires TopicBudget(cfg.topics, source) == Some(budget)
    requires 126 + 2 * Utf8.Size(source) + budget / 4 + budget / 2 <= budget
    ensures var lane := LaneAt(s.lanes, Place(s.participants[p], Source(source)));
      forall c :: c in ContentsIn(lane.live) ==> c.Update? && c.source == source
    ensures var lane := LaneAt(s.lanes, Place(s.participants[p], Source(source)));
      var fixed := SourceFixed(source, lane.background.text, lane.background.latest);
      var raw := SourceRaw(ContentsIn(lane.live), budget);
      Keeps(budget, fixed, raw, k) ==> TextTotal(fixed + raw[k..]) <= budget
  {
    ReachableGood(cfg, s);
    SummaryWithin(cfg, s, Place(s.participants[p], Source(source)), budget);
    hide Good, Reachable, TextTotal, SourceFixed, SourceRaw, Utf8.Encode, TopicBudget;
    var lane := LaneAt(s.lanes, Place(s.participants[p], Source(source)));
    var fixed := SourceFixed(source, lane.background.text, lane.background.latest);
    var contents := ContentsIn(lane.live);
    if Keeps(budget, fixed, SourceRaw(contents, budget), k) {
      SourceSectionFits(budget, source, lane.background.text, lane.background.latest, contents, k);
    }
  }
}
