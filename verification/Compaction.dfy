/**
 Rolling compaction of one process's conversations as a state machine. Each
 asyncio stretch between two awaits is one step: a write with the scheduling it
 triggers, the last stretch of a compaction job, the job's completion callback,
 and clearing a participant. Model answers are inputs of the job's last stretch.

 A lane is one rolling section: the dialogue of a memory, or one incremental
 source. `log` and `folded` record, for the theorems alone, every entry ever
 added to the lane and every entry whose batch a summary replaced.
 */
module Compaction {
  import opened Seqs
  import opened Rendering
  import opened Budgets
  import opened Summaries

  /** A summary, the last sequence number it covers and the time of its newest content. */
  datatype Section = Section(text: string, through: int, latest: Option<int>)

  datatype Lane = Lane(log: seq<Entry>, folded: seq<Entry>, live: seq<Entry>, background: Section, job: Option<nat>)

  datatype Key = Dialogue | Source(name: string)

  /** Memories are objects compared by identity; a participant that returns gets a new one. */
  datatype Place = Place(memory: nat, key: Key)

  datatype Counters = Counters(dialogue: nat, record: nat)

  /** `Finished` tasks wait for their completion callback. */
  datatype Phase = Running | Finished(committed: bool)

  datatype Job = Job(participant: string, place: Place, previous: string, batch: seq<Entry>, request: seq<Entry>,
                     limits: Limits, phase: Phase, cancelled: bool)

  datatype State = State(participants: map<string, nat>, counters: map<nat, Counters>, lanes: map<Place, Lane>,
                         jobs: map<nat, Job>, next: nat)

  const Init := State(map[], map[], map[], map[], 0)
  const EmptyLane := Lane([], [], [], Section("", -1, None), None)

  function LaneAt(lanes: map<Place, Lane>, place: Place): Lane {
    if place in lanes then lanes[place] else EmptyLane
  }

  function CountersAt(counters: map<nat, Counters>, memory: nat): Counters {
    if memory in counters then counters[memory] else Counters(0, 0)
  }

  predicate RunningJob(jobs: map<nat, Job>, job: Option<nat>) {
    job.Some? && job.value in jobs && jobs[job.value].phase == Running
  }

  /** The memory is the one the participant has now. */
  predicate Owns(participants: map<string, nat>, p: string, memory: nat) {
    p in participants && participants[p] == memory
  }

  // Limits of a lane; a source that is not configured has none.

  function TopicBudget(topics: seq<Topic>, name: string): Option<int> {
    if topics == [] then None
    else if topics[0].name == name then Some(topics[0].budget)
    else TopicBudget(topics[1..], name)
  }

  function LimitsFor(cfg: Config, key: Key): Option<Limits> {
    match key
    case Dialogue => if cfg.dialogue > 0 && cfg.input > 0 then Some(LimitsOf(cfg.dialogue, cfg.input)) else None
    case Source(name) =>
      var budget := TopicBudget(cfg.topics, name);
      if budget.Some? && budget.value > 0 && cfg.input > 0 then Some(LimitsOf(budget.value, cfg.input)) else None
  }

  // Adding entries.

  function Numbered(first: nat, contents: seq<Content>): (es: seq<Entry>)
    ensures |es| == |contents|
    ensures forall i :: 0 <= i < |es| ==> es[i] == Entry(first + i, contents[i])
  {
    seq(|contents|, i requires 0 <= i < |contents| => Entry(first + i, contents[i]))
  }

  function NextSequence(c: Counters, key: Key): nat {
    if key.Dialogue? then c.dialogue else c.record
  }

  /** Exchanges have a counter of their own; all sources of a memory share one. */
  function Advance(c: Counters, key: Key, n: nat): Counters {
    if key.Dialogue? then c.(dialogue := c.dialogue + n) else c.(record := c.record + n)
  }

  function AddEntries(lane: Lane, es: seq<Entry>): Lane {
    lane.(log := lane.log + es, live := lane.live + es)
  }

  /** `_memory`: the participant's memory, created on first use. */
  function Ensure(s: State, p: string): State {
    if p in s.participants then s
    else s.(participants := s.participants[p := s.next], counters := s.counters[s.next := Counters(0, 0)],
            next := s.next + 1)
  }

  function AppendTo(s: State, p: string, key: Key, contents: seq<Content>): State
    requires p in s.participants
  {
    var place := Place(s.participants[p], key);
    var c := CountersAt(s.counters, place.memory);
    s.(lanes := s.lanes[place := AddEntries(LaneAt(s.lanes, place), Numbered(NextSequence(c, key), contents))],
       counters := s.counters[place.memory := Advance(c, key, |contents|)])
  }

  // Scheduling.

  /** What a compaction may take: the newest exchange of the dialogue stays, sources keep nothing back. */
  function Compactable(key: Key, live: seq<Entry>): seq<Entry> {
    if key.Dialogue? && live != [] then live[..|live| - 1] else live
  }

  predicate Due(limits: Limits, key: Key, live: seq<Entry>) {
    Total(live) > limits.trigger && Compactable(key, live) != []
  }

  function NewJob(p: string, place: Place, limits: Limits, lane: Lane): Job {
    var previous := PreviousInput(lane.background.text, lane.background.latest);
    var available := Available(limits, previous);
    var batch := OldestBatch(Compactable(place.key, lane.live), available);
    Job(p, place, previous, batch, ClipSingle(batch, available), limits, Running, false)
  }

  function StartJob(s: State, p: string, place: Place, limits: Limits): State {
    var lane := LaneAt(s.lanes, place);
    s.(lanes := s.lanes[place := lane.(job := Some(s.next))],
       jobs := s.jobs[s.next := NewJob(p, place, limits, lane)], next := s.next + 1)
  }

  function Schedule(s: State, p: string, key: Key, limits: Limits): State {
    if p !in s.participants then s
    else
      var place := Place(s.participants[p], key);
      var lane := LaneAt(s.lanes, place);
      if RunningJob(s.jobs, lane.job) || !Due(limits, key, lane.live) then s
      else StartJob(s, p, place, limits)
  }

  // The steps.

  /**
   A write of the manager: one recorded exchange, the new exchanges of a
   reconciled window (perhaps none), or one update of a configured source.
   */
  function Write(cfg: Config, s: State, p: string, key: Key, contents: seq<Content>): State {
    var limits := LimitsFor(cfg, key);
    if limits.None? then s
    else if contents == [] then Schedule(s, p, key, limits.value)
    else Schedule(AppendTo(Ensure(s, p), p, key, contents), p, key, limits.value)
  }

  function Newer(through: int): Entry -> bool { (e: Entry) => e.sequence > through }

  function Later(time: Option<int>, than: Option<int>): Option<int> {
    if time.Some? && (than.None? || time.value > than.value) then time else than
  }

  function Latest(previous: Option<int>, es: seq<Entry>): Option<int> {
    if es == [] then previous else Later(es[0].content.time, Latest(previous, es[1..]))
  }

  function Commit(lane: Lane, batch: seq<Entry>, summary: string): Lane
    requires batch != []
  {
    var through := batch[|batch| - 1].sequence;
    lane.(background := Section(summary, through, Latest(lane.background.latest, batch)),
          live := Filter(lane.live, Newer(through)), folded := lane.folded + batch)
  }

  /** The job commits its summary. */
  predicate Commits(s: State, j: nat, first: Reply, second: Reply) {
    && j in s.jobs && s.jobs[j].phase == Running && s.jobs[j].batch != []
    && BoundedSummary(first, second, s.jobs[j].limits.summary).Summary?
    && Owns(s.participants, s.jobs[j].participant, s.jobs[j].place.memory)
  }

  /** A cancelled job normally ends with an error, but a request that swallows the cancellation still returns. */
  function Finish(s: State, j: nat, first: Reply, second: Reply): State {
    if !(j in s.jobs && s.jobs[j].phase == Running) then s
    else if !Commits(s, j, first, second) then
      s.(jobs := s.jobs[j := s.jobs[j].(phase := Finished(false))])
    else
      var job := s.jobs[j];
      var summary := BoundedSummary(first, second, job.limits.summary).text;
      s.(lanes := s.lanes[job.place := Commit(LaneAt(s.lanes, job.place), job.batch, summary)],
         jobs := s.jobs[j := job.(phase := Finished(true))])
  }

  function DropJob(s: State, place: Place): State {
    s.(lanes := s.lanes[place := LaneAt(s.lanes, place).(job := None)])
  }

  /** The completion callback: it acts only on the memory that still owns the job. */
  function Forget(s: State, j: nat): State {
    if !(j in s.jobs && s.jobs[j].phase.Finished?) then s
    else
      var job := s.jobs[j];
      var t := s.(jobs := Without(s.jobs, j));
      if job.participant !in s.participants then t
      else
        var place := Place(s.participants[job.participant], job.place.key);
        if LaneAt(s.lanes, place).job != Some(j) then t
        else if job.phase.committed then Schedule(DropJob(t, place), job.participant, place.key, job.limits)
        else DropJob(t, place)
  }

  function Clear(s: State, p: string): State {
    if p !in s.participants then s
    else
      var memory := s.participants[p];
      s.(participants := Without(s.participants, p),
         jobs := map j | j in s.jobs ::
                   if s.jobs[j].place.memory == memory && s.jobs[j].phase == Running
                   then s.jobs[j].(cancelled := true) else s.jobs[j])
  }

  datatype Event =
    | Written(p: string, key: Key, contents: seq<Content>)
    | Finishes(j: nat, first: Reply, second: Reply)
    | Forgotten(j: nat)
    | Cleared(p: string)

  /** The dialogue holds exchanges, and a source its own updates. */
  predicate Fits(key: Key, contents: seq<Content>) {
    match key
    case Dialogue => forall c :: c in contents ==> c.Exchange?
    case Source(name) => forall c :: c in contents ==> c.Update? && c.source == name
  }

  function Step(cfg: Config, s: State, e: Event): State {
    match e
    case Written(p, key, contents) => if Fits(key, contents) then Write(cfg, s, p, key, contents) else s
    case Finishes(j, first, second) => Finish(s, j, first, second)
    case Forgotten(j) => Forget(s, j)
    case Cleared(p) => Clear(s, p)
  }

  function Run(cfg: Config, s: State, es: seq<Event>): State
    decreases |es|
  {
    if es == [] then s else Run(cfg, Step(cfg, s, es[0]), es[1..])
  }
}
