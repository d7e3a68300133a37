/**
 The participant lifecycle of the agent router as a state machine. Every asyncio
 stretch between two awaits is one atomic step; a step whose guard fails leaves
 the state unchanged, so every sequence of events is a run.

 Objects the code compares by identity (lifecycle, epoch and generation tokens,
 locks, tasks, calls) are numbers handed out by a counter.
 */
module RouterLifecycle {
  import opened Seqs

  type Pid = string
  type Destination = string
  type Token = nat

  /**
   The life of one turn task. `Reporting` is the await on the status callback
   after the last admission check; only a turn that `reports` goes through it,
   one that came over the runtime into a router with a status callback.
   */
  datatype TurnPhase = Created | Initializing | Reporting | Handling | Finished

  datatype Turn = Turn(pid: Pid, lifecycle: Token, epoch: Token, generation: Token, reports: bool,
                       phase: TurnPhase, cancelled: bool)

  /** A call of `_submit`: waiting for the lock it captured, or holding it while the previous turn drains. */
  datatype SubmitPhase = Waiting | Draining(targets: set<nat>)
  datatype Submit = Submit(pid: Pid, lifecycle: Token, epoch: Token, lock: Token, reports: bool, phase: SubmitPhase)

  /** A call of `_participant_joined`, before and after it captured the participant's lock. */
  datatype Join = Join(pid: Pid, lifecycle: Token, epoch: Token, lock: Option<Token>)

  /** The operation stored in `_departure_tasks`. A failed one stays there and keeps admission closed. */
  datatype Departure =
    | Opened
    | Interrupted(targets: set<nat>)
    | Locking(lock: Token)
    | Hooks(lock: Token, todo: set<Destination>, errors: bool)
    | DepartureFailed

  /** The operation stored in `_stop_task`. */
  datatype Stop =
    | StopOpened
    | StopInterrupted(targets: set<nat>)
    | Departing(todo: set<Pid>, waiting: Option<Pid>, errors: bool)
    | StopFailed

  datatype Holder = BySubmit(call: nat) | ByDeparture(pid: Pid)

  /** Everything admission looks at, and the locks. */
  datatype Gate = Gate(
    lifecycle: Token,
    epochs: map<Pid, Token>,
    stop: Option<Stop>,
    departures: map<Pid, Departure>,
    departed: set<Pid>,
    locks: map<Pid, Token>,
    holders: map<Token, Holder>)

  /** Every turn task ever created, the registered one of each participant, and the generation it owns. */
  datatype Table = Table(turns: map<nat, Turn>, tasks: map<Pid, nat>, generation: map<Pid, Token>)

  /**
   The destinations each participant used and the focused one, and for the
   departure in progress what it owed when its hooks first ran and which hooks
   succeeded since.
   */
  datatype Duty = Duty(used: map<Pid, set<Destination>>, focus: map<Pid, Destination>,
                       owed: map<Pid, set<Destination>>, released: map<Pid, seq<Destination>>)

  datatype State = State(gate: Gate, submits: map<nat, Submit>, joins: map<nat, Join>, table: Table, duty: Duty,
                         next: Token)

  const Init := State(Gate(0, map[], None, map[], {}, map[], map[]), map[], map[], Table(map[], map[], map[]),
                      Duty(map[], map[], map[], map[]), 1)

  // Vocabulary.

  /** The captured tokens are still the router's own. */
  predicate Current(g: Gate, pid: Pid, lifecycle: Token, epoch: Token) {
    lifecycle == g.lifecycle && pid in g.epochs && g.epochs[pid] == epoch
  }

  predicate Admitted(g: Gate, pid: Pid, lifecycle: Token, epoch: Token) {
    g.stop.None? && pid !in g.departures && pid !in g.departed && Current(g, pid, lifecycle, epoch)
  }

  predicate Unfinished(turns: map<nat, Turn>, task: nat) {
    task in turns && turns[task].phase != Finished
  }

  predicate AllFinished(turns: map<nat, Turn>, tasks: set<nat>) {
    forall t :: t in tasks ==> !Unfinished(turns, t)
  }

  predicate OwnsGeneration(table: Table, t: Turn) {
    t.pid in table.generation && table.generation[t.pid] == t.generation
  }

  function UsedBy(d: Duty, pid: Pid): set<Destination> {
    if pid in d.used then d.used[pid] else {}
  }

  function FocusOf(d: Duty, pid: Pid): set<Destination> {
    if pid in d.focus then {d.focus[pid]} else {}
  }

  function ReleasedFor(d: Duty, pid: Pid): seq<Destination> {
    if pid in d.released then d.released[pid] else []
  }

  /** A participant without a used destination has no entry. */
  function SetUsed(used: map<Pid, set<Destination>>, pid: Pid, ds: set<Destination>): map<Pid, set<Destination>> {
    if ds == {} then Without(used, pid) else used[pid := ds]
  }

  function TaskOf(table: Table, pid: Pid): set<nat> {
    if pid in table.tasks then {table.tasks[pid]} else {}
  }

  function SetDefault<V>(m: map<Pid, V>, pid: Pid, value: V): map<Pid, V> {
    if pid in m then m else m[pid := value]
  }

  // The turn table: what a turn task does to itself, and what interruption does to it.

  /** Cancellation only marks a task; it takes effect when that task next runs. */
  function Cancel(turns: map<nat, Turn>, targets: set<nat>): (r: map<nat, Turn>)
    ensures r.Keys == turns.Keys
    ensures forall t :: t in turns ==> r[t] == turns[t] || r[t] == turns[t].(cancelled := true)
  {
    map t | t in turns :: if t in targets && turns[t].phase != Finished then turns[t].(cancelled := true) else turns[t]
  }

  function InPhase(table: Table, task: nat, phase: TurnPhase): Table
    requires task in table.turns
  {
    table.(turns := table.turns[task := table.turns[task].(phase := phase)])
  }

  /** Drop a participant's task entry when it is one of the drained tasks. */
  function Forget(table: Table, pid: Pid, targets: set<nat>): Table {
    if pid in table.tasks && table.tasks[pid] in targets then table.(tasks := Without(table.tasks, pid)) else table
  }

  function ForgetAll(table: Table, targets: set<nat>): Table {
    table.(tasks := map p | p in table.tasks && table.tasks[p] !in targets :: table.tasks[p])
  }

  function ForgetFinished(table: Table, pid: Pid): Table {
    if pid in table.tasks && !Unfinished(table.turns, table.tasks[pid])
    then table.(tasks := Without(table.tasks, pid)) else table
  }

  function InterruptOne(table: Table, pid: Pid): Table {
    table.(generation := Without(table.generation, pid), turns := Cancel(table.turns, TaskOf(table, pid)))
  }

  function InterruptEvery(table: Table): Table {
    table.(generation := map[], turns := Cancel(table.turns, table.tasks.Values))
  }

  function TurnStart(g: Gate, table: Table, task: nat): Table {
    if !(task in table.turns && table.turns[task].phase == Created) then table
    else
      var t := table.turns[task];
      InPhase(table, task,
              if !t.cancelled && Admitted(g, t.pid, t.lifecycle, t.epoch) then Initializing else Finished)
  }

  function TurnInit(g: Gate, table: Table, task: nat): Table {
    if !(task in table.turns && table.turns[task].phase == Initializing) then table
    else
      var t := table.turns[task];
      InPhase(table, task,
              if t.cancelled || !OwnsGeneration(table, t) || !Admitted(g, t.pid, t.lifecycle, t.epoch) then Finished
              else if t.reports then Reporting else Handling)
  }

  /** No check follows the status callback, so only a delivered cancellation stops the turn here. */
  function TurnReport(table: Table, task: nat, swallowed: bool): Table {
    if !(task in table.turns && table.turns[task].phase == Reporting) then table
    else InPhase(table, task, if table.turns[task].cancelled && !swallowed then Finished else Handling)
  }

  function TurnEnd(table: Table, task: nat): Table {
    if Unfinished(table.turns, task) then InPhase(table, task, Finished) else table
  }

  function TurnDiscard(table: Table, task: nat): Table {
    if !(task in table.turns && table.turns[task].phase == Finished) then table
    else
      var pid := table.turns[task].pid;
      if pid in table.tasks && table.tasks[pid] == task
      then table.(tasks := Without(table.tasks, pid), generation := Without(table.generation, pid))
      else table
  }

  /** The caller of `handle` was cancelled. */
  function TurnAbandon(table: Table, task: nat): Table {
    if !Unfinished(table.turns, task) then table
    else
      var pid := table.turns[task].pid;
      table.(generation := if pid in table.tasks && table.tasks[pid] == task then Without(table.generation, pid)
                           else table.generation,
             turns := Cancel(table.turns, {task}))
  }

  datatype TableEvent =
    | Starts(task: nat)
    | Initialized(task: nat)
    | Reported(task: nat, swallowed: bool)
    | Ends(task: nat)
    | Discarded(task: nat)
    | Abandoned(task: nat)
    | Interrupts(pid: Pid)
    | InterruptsAll
    | ForgetsFinished(pid: Pid)

  function TableStep(g: Gate, table: Table, e: TableEvent): Table {
    match e
    case Starts(task) => TurnStart(g, table, task)
    case Initialized(task) => TurnInit(g, table, task)
    case Reported(task, swallowed) => TurnReport(table, task, swallowed)
    case Ends(task) => TurnEnd(table, task)
    case Discarded(task) => TurnDiscard(table, task)
    case Abandoned(task) => TurnAbandon(table, task)
    case Interrupts(pid) => InterruptOne(table, pid)
    case InterruptsAll => InterruptEvery(table)
    case ForgetsFinished(pid) => ForgetFinished(table, pid)
  }

  /**
   A running turn that still owns its generation marks destinations as used and
   moves the focus to one that it used; letting go of the focus checks nothing.
   */
  datatype WorkEvent = Uses(task: nat, destination: Destination) | Focuses(task: nat, destination: Destination)
                     | Unfocuses(task: nat)

  function WorkStep(table: Table, d: Duty, e: WorkEvent): Duty {
    if !(e.task in table.turns && table.turns[e.task].phase == Handling) then d
    else
      var t := table.turns[e.task];
      match e
      case Uses(_, destination) =>
        if OwnsGeneration(table, t) then d.(used := d.used[t.pid := UsedBy(d, t.pid) + {destination}]) else d
      case Focuses(_, destination) =>
        if OwnsGeneration(table, t) && destination in UsedBy(d, t.pid)
        then d.(focus := d.focus[t.pid := destination]) else d
      case Unfocuses(_) => d.(focus := Without(d.focus, t.pid))
  }

  // Submitting a turn.

  function SubmitBegin(s: State, pid: Pid, reports: bool): State {
    var g := s.gate.(epochs := SetDefault<Token>(s.gate.epochs, pid, s.next));
    if !Admitted(g, pid, g.lifecycle, g.epochs[pid]) then s.(gate := g, next := s.next + 1)
    else
      var locks := SetDefault<Token>(g.locks, pid, s.next + 1);
      var call := Submit(pid, g.lifecycle, g.epochs[pid], locks[pid], reports, Waiting);
      s.(gate := g.(locks := locks), submits := s.submits[s.next + 2 := call], next := s.next + 3)
  }

  function SubmitAcquire(s: State, call: nat): State {
    if !(call in s.submits && s.submits[call].phase == Waiting && s.submits[call].lock !in s.gate.holders) then s
    else
      var c := s.submits[call];
      if !Admitted(s.gate, c.pid, c.lifecycle, c.epoch) then s.(submits := Without(s.submits, call))
      else s.(gate := s.gate.(holders := s.gate.holders[c.lock := BySubmit(call)]),
              submits := s.submits[call := c.(phase := Draining(TaskOf(s.table, c.pid)))],
              table := InterruptOne(s.table, c.pid))
  }

  /** The drained tasks are forgotten, the lock is free and the call is over. */
  function Release(s: State, call: nat): State
    requires call in s.submits && s.submits[call].phase.Draining?
  {
    var c := s.submits[call];
    s.(gate := s.gate.(holders := Without(s.gate.holders, c.lock)), submits := Without(s.submits, call),
       table := Forget(s.table, c.pid, c.phase.targets))
  }

  predicate Drained(s: State, call: nat) {
    call in s.submits && s.submits[call].phase.Draining? && AllFinished(s.table.turns, s.submits[call].phase.targets)
  }

  /** The previous turn is gone: a new turn takes its place if admission is still open. */
  function SubmitDone(s: State, call: nat): State {
    if !Drained(s, call) then s
    else
      var c := s.submits[call];
      if !Admitted(s.gate, c.pid, c.lifecycle, c.epoch) then Release(s, call)
      else AddTurn(Release(s, call), c)
  }

  function AddTurn(s: State, c: Submit): State {
    var task, generation := s.next, s.next + 1;
    s.(table := Table(s.table.turns[task := Turn(c.pid, c.lifecycle, c.epoch, generation, c.reports, Created, false)],
                      s.table.tasks[c.pid := task], s.table.generation[c.pid := generation]),
       next := s.next + 2)
  }

  /** The caller was cancelled: at once while waiting, after the drain while holding the lock. */
  function SubmitAbandon(s: State, call: nat): State {
    if call in s.submits && s.submits[call].phase == Waiting then s.(submits := Without(s.submits, call))
    else if Drained(s, call) then Release(s, call)
    else s
  }

  datatype SubmitEvent = Begins(pid: Pid, reports: bool) | Acquires(call: nat) | DrainEnds(call: nat)
                       | CallerCancelled(call: nat)

  function SubmitStep(s: State, e: SubmitEvent): State {
    match e
    case Begins(pid, reports) => SubmitBegin(s, pid, reports)
    case Acquires(call) => SubmitAcquire(s, call)
    case DrainEnds(call) => SubmitDone(s, call)
    case CallerCancelled(call) => SubmitAbandon(s, call)
  }

  // Joining, leaving and stopping are calls that open operations.

  /** Join the departure in progress, or open one: the first, or a retry of a failed one. */
  function OpenDeparture(g: Gate, pid: Pid): Gate {
    if pid in g.departures && g.departures[pid] != DepartureFailed then g
    else g.(departures := g.departures[pid := Opened])
  }

  function JoinBegin(s: State, pid: Pid): State {
    var g := s.gate.(epochs := SetDefault<Token>(s.gate.epochs, pid, s.next));
    if g.stop.Some? then s.(gate := g, next := s.next + 1)
    else s.(gate := if pid in g.departures then OpenDeparture(g, pid) else g,
            joins := s.joins[s.next + 1 := Join(pid, g.lifecycle, g.epochs[pid], None)], next := s.next + 2)
  }

  function JoinLock(s: State, call: nat): State {
    if !(call in s.joins && s.joins[call].lock.None?) then s
    else
      var j := s.joins[call];
      var locks := SetDefault<Token>(s.gate.locks, j.pid, s.next);
      s.(gate := s.gate.(locks := locks), joins := s.joins[call := j.(lock := Some(locks[j.pid]))], next := s.next + 1)
  }

  function JoinEnd(s: State, call: nat): State {
    if !(call in s.joins && s.joins[call].lock.Some? && s.joins[call].lock.value !in s.gate.holders) then s
    else
      var j := s.joins[call];
      var stale := s.gate.stop.Some? || !Current(s.gate, j.pid, j.lifecycle, j.epoch) || j.pid in s.gate.departures;
      s.(gate := if stale then s.gate else s.gate.(departed := s.gate.departed - {j.pid}),
         joins := Without(s.joins, call))
  }

  /** `participant_left`: a fresh epoch first, then the departure, unless a stop owns the cleanup. */
  function Leave(s: State, pid: Pid, topics: bool): State {
    var g := s.gate.(departed := if topics then s.gate.departed + {pid} else s.gate.departed,
                     epochs := s.gate.epochs[pid := s.next]);
    s.(gate := if g.stop.Some? then g else OpenDeparture(g, pid), next := s.next + 1)
  }

  function StopCall(s: State): State {
    if s.gate.stop.Some? && s.gate.stop.value != StopFailed then s
    else s.(gate := s.gate.(lifecycle := s.next, stop := Some(StopOpened)), next := s.next + 1)
  }

  datatype CallEvent = JoinBegins(pid: Pid) | JoinLocks(call: nat) | JoinEnds(call: nat)
                     | Leaves(pid: Pid, topics: bool) | Stops

  function CallStep(s: State, e: CallEvent): State {
    match e
    case JoinBegins(pid) => JoinBegin(s, pid)
    case JoinLocks(call) => JoinLock(s, call)
    case JoinEnds(call) => JoinEnd(s, call)
    case Leaves(pid, topics) => Leave(s, pid, topics)
    case Stops => StopCall(s)
  }

  // The departure operation.

  function SetDeparture(g: Gate, pid: Pid, d: Departure): Gate {
    g.(departures := g.departures[pid := d])
  }

  function DepartureBegin(s: State, pid: Pid): State {
    if !(pid in s.gate.departures && s.gate.departures[pid] == Opened) then s
    else s.(gate := SetDeparture(s.gate, pid, Interrupted(TaskOf(s.table, pid))), table := InterruptOne(s.table, pid))
  }

  function DepartureDrain(s: State, pid: Pid): State {
    if && pid in s.gate.departures && s.gate.departures[pid].Interrupted?
       && AllFinished(s.table.turns, s.gate.departures[pid].targets)
    then
      var locks := SetDefault<Token>(s.gate.locks, pid, s.next);
      s.(gate := SetDeparture(s.gate.(locks := locks), pid, Locking(locks[pid])),
         table := Forget(s.table, pid, s.gate.departures[pid].targets), next := s.next + 1)
    else s
  }

  /** The used and the focused destinations are owed, unless an earlier attempt fixed what is owed. */
  function AcquireDuty(d: Duty, pid: Pid): Duty {
    var todo := UsedBy(d, pid) + FocusOf(d, pid);
    Duty(SetUsed(d.used, pid, todo), Without(d.focus, pid), SetDefault(d.owed, pid, todo),
         SetDefault(d.released, pid, []))
  }

  function DepartureAcquire(s: State, pid: Pid): State {
    if !(pid in s.gate.departures && s.gate.departures[pid].Locking?
         && s.gate.departures[pid].lock !in s.gate.holders) then s
    else
      var lock := s.gate.departures[pid].lock;
      s.(gate := SetDeparture(s.gate.(holders := s.gate.holders[lock := ByDeparture(pid)]), pid,
                              Hooks(lock, UsedBy(s.duty, pid) + FocusOf(s.duty, pid), false)),
         duty := AcquireDuty(s.duty, pid))
  }

  function HookDuty(d: Duty, pid: Pid, destination: Destination): Duty {
    d.(used := SetUsed(d.used, pid, UsedBy(d, pid) - {destination}),
       released := d.released[pid := ReleasedFor(d, pid) + [destination]])
  }

  function HookEnd(s: State, pid: Pid, d: Destination, ok: bool): State {
    if !(pid in s.gate.departures && s.gate.departures[pid].Hooks? && d in s.gate.departures[pid].todo) then s
    else
      var h := s.gate.departures[pid];
      if !ok then s.(gate := SetDeparture(s.gate, pid, h.(todo := h.todo - {d}, errors := true)))
      else s.(gate := SetDeparture(s.gate, pid, h.(todo := h.todo - {d})), duty := HookDuty(s.duty, pid, d))
  }

  predicate HooksDone(g: Gate, pid: Pid) {
    pid in g.departures && g.departures[pid].Hooks? && g.departures[pid].todo == {}
  }

  function CloseDuty(d: Duty, pid: Pid): Duty {
    d.(owed := Without(d.owed, pid), released := Without(d.released, pid))
  }

  /** After the hooks, the application's own cleanup; then the departure fails, or forgets the participant. */
  function DepartureEnd(s: State, pid: Pid, cleanupOk: bool): State {
    if !HooksDone(s.gate, pid) then s
    else
      var h := s.gate.departures[pid];
      var g := s.gate.(holders := Without(s.gate.holders, h.lock));
      if h.errors || !cleanupOk then s.(gate := SetDeparture(g, pid, DepartureFailed))
      else s.(gate := g.(departures := Without(g.departures, pid), locks := Without(g.locks, pid)),
              duty := CloseDuty(s.duty, pid))
  }

  datatype DepartureEvent = DepartureBegins | DepartureDrainEnds | DepartureAcquires
                          | HookEnds(destination: Destination, ok: bool) | DepartureEnds(cleanupOk: bool)

  function DepartureStep(s: State, pid: Pid, e: DepartureEvent): State {
    match e
    case DepartureBegins => DepartureBegin(s, pid)
    case DepartureDrainEnds => DepartureDrain(s, pid)
    case DepartureAcquires => DepartureAcquire(s, pid)
    case HookEnds(d, ok) => HookEnd(s, pid, d, ok)
    case DepartureEnds(ok) => DepartureEnd(s, pid, ok)
  }

  // The stop operation.

  function SetStop(g: Gate, stop: Stop): Gate {
    g.(stop := Some(stop))
  }

  function StopBegin(s: State): State {
    if s.gate.stop != Some(StopOpened) then s
    else s.(gate := SetStop(s.gate, StopInterrupted(s.table.tasks.Values)), table := InterruptEvery(s.table))
  }

  /** `others` are the participants that have only history or timing samples. */
  function StopDrain(s: State, others: set<Pid>): State {
    if && s.gate.stop.Some? && s.gate.stop.value.StopInterrupted?
       && AllFinished(s.table.turns, s.gate.stop.value.targets)
    then
      var all := s.duty.used.Keys + s.duty.focus.Keys + s.gate.locks.Keys + s.gate.departures.Keys + others;
      s.(gate := SetStop(s.gate, Departing(all, None, false)), table := ForgetAll(s.table, s.gate.stop.value.targets))
    else s
  }

  function StopDepart(g: Gate, pid: Pid): Gate {
    if !(g.stop.Some? && g.stop.value.Departing? && g.stop.value.waiting.None? && pid in g.stop.value.todo) then g
    else
      var d := g.stop.value;
      SetStop(OpenDeparture(g, pid), d.(todo := d.todo - {pid}, waiting := Some(pid)))
  }

  /** The departure that the stop waits for is over, one way or the other. */
  function StopNext(g: Gate): Gate {
    if !(g.stop.Some? && g.stop.value.Departing? && g.stop.value.waiting.Some?) then g
    else
      var d := g.stop.value;
      if d.waiting.value !in g.departures then SetStop(g, d.(waiting := None))
      else if g.departures[d.waiting.value] == DepartureFailed then SetStop(g, d.(waiting := None, errors := true))
      else g
  }

  function StopEnd(g: Gate): Gate {
    if !(g.stop.Some? && g.stop.value.Departing? && g.stop.value.waiting.None? && g.stop.value.todo == {}) then g
    else if g.stop.value.errors then SetStop(g, StopFailed)
    else g.(departed := {}, epochs := map[], stop := None)
  }

  datatype StopEvent = StopBegins | StopDrainEnds(others: set<Pid>) | StopDeparts(pid: Pid) | StopAdvances | StopEnds

  function StopStep(s: State, e: StopEvent): State {
    match e
    case StopBegins => StopBegin(s)
    case StopDrainEnds(others) => StopDrain(s, others)
    case StopDeparts(pid) => s.(gate := StopDepart(s.gate, pid))
    case StopAdvances => s.(gate := StopNext(s.gate))
    case StopEnds => s.(gate := StopEnd(s.gate))
  }

  // Runs.

  datatype Event =
    | OnTable(table: TableEvent)
    | OnWork(work: WorkEvent)
    | OnSubmit(submit: SubmitEvent)
    | OnCall(call: CallEvent)
    | OnDeparture(pid: Pid, departure: DepartureEvent)
    | OnStop(stop: StopEvent)

  function Step(s: State, e: Event): State {
    match e
    case OnTable(te) => s.(table := TableStep(s.gate, s.table, te))
    case OnWork(we) => s.(duty := WorkStep(s.table, s.duty, we))
    case OnSubmit(se) => SubmitStep(s, se)
    case OnCall(ce) => CallStep(s, ce)
    case OnDeparture(pid, de) => DepartureStep(s, pid, de)
    case OnStop(se) => StopStep(s, se)
  }

  function Run(s: State, es: seq<Event>): State
    decreases |es|
  {
    if es == [] then s else Run(Step(s, es[0]), es[1..])
  }
}
