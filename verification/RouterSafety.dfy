/** Safety of the router lifecycle: what every step keeps. */
module RouterSafety {
  import opened Seqs
  import opened RouterLifecycle

  // The invariant, stated over the parts it reads.

  ghost predicate FreshGate(g: Gate, next: Token) {
    g.lifecycle < next && forall p :: p in g.epochs ==> g.epochs[p] < next
  }

  ghost predicate FreshSubmits(submits: map<nat, Submit>, next: Token) {
    forall c :: c in submits ==> c < next && submits[c].lifecycle < next && submits[c].epoch < next
  }

  ghost predicate FreshTurns(turns: map<nat, Turn>, next: Token) {
    forall t :: t in turns ==> t < next && turns[t].lifecycle < next && turns[t].epoch < next
  }

  ghost predicate CurrentSubmit(g: Gate, c: Submit) {
    Current(g, c.pid, c.lifecycle, c.epoch)
  }

  /** Admission is open for the waiter and it waits for the participant's present lock. */
  ghost predicate Ticket(g: Gate, c: Submit) {
    g.stop.None? && c.pid !in g.departures && c.pid in g.locks && g.locks[c.pid] == c.lock
  }

  /**
   A waiter whose tokens are still current faces open admission and waits for
   the participant's present lock, although departure deletes locks under waiters.
   */
  ghost predicate Tickets(g: Gate, submits: map<nat, Submit>) {
    forall c :: c in submits && CurrentSubmit(g, submits[c]) ==> Ticket(g, submits[c])
  }

  ghost predicate Held(g: Gate, submits: map<nat, Submit>) {
    && (forall c :: c in submits && submits[c].phase.Draining? ==>
          submits[c].lock in g.holders && g.holders[submits[c].lock] == BySubmit(c))
    && (forall p :: p in g.departures && g.departures[p].Hooks? ==>
          g.departures[p].lock in g.holders && g.holders[g.departures[p].lock] == ByDeparture(p))
  }

  /** An unfinished turn is the one registered for its participant. */
  ghost predicate Tasked(table: Table) {
    forall t :: Unfinished(table.turns, t) ==>
      table.turns[t].pid in table.tasks && table.tasks[table.turns[t].pid] == t
  }

  /** Every unfinished turn of `pid` is among `targets`. */
  ghost predicate Within(turns: map<nat, Turn>, pid: Pid, targets: set<nat>) {
    forall t :: Unfinished(turns, t) && turns[t].pid == pid ==> t in targets
  }

  /** No turn of `pid` is unfinished. */
  ghost predicate Quiet(turns: map<nat, Turn>, pid: Pid) {
    forall t :: Unfinished(turns, t) ==> turns[t].pid != pid
  }

  ghost predicate SubmitDrains(g: Gate, turns: map<nat, Turn>, c: Submit) {
    CurrentSubmit(g, c) && c.phase.Draining? ==> Within(turns, c.pid, c.phase.targets)
  }

  ghost predicate SubmitsDrain(g: Gate, submits: map<nat, Submit>, turns: map<nat, Turn>) {
    forall c :: c in submits ==> SubmitDrains(g, turns, submits[c])
  }

  ghost predicate DepartureDrains(turns: map<nat, Turn>, pid: Pid, d: Departure) {
    match d
    case Opened => true
    case Interrupted(targets) => Within(turns, pid, targets)
    case _ => Quiet(turns, pid)
  }

  ghost predicate DeparturesDrain(turns: map<nat, Turn>, departures: map<Pid, Departure>) {
    forall p :: p in departures ==> DepartureDrains(turns, p, departures[p])
  }

  ghost predicate StopDrains(turns: map<nat, Turn>, stop: Option<Stop>) {
    match stop
    case Some(StopInterrupted(targets)) => forall t :: Unfinished(turns, t) ==> t in targets
    case Some(Departing(_, _, _)) => forall t :: !Unfinished(turns, t)
    case Some(StopFailed) => forall t :: !Unfinished(turns, t)
    case _ => true
  }

  /** Tokens and identities are handed out once; tickets and locks are in order. */
  ghost predicate Orderly(g: Gate, submits: map<nat, Submit>, next: Token) {
    FreshGate(g, next) && FreshSubmits(submits, next) && Tickets(g, submits) && Held(g, submits)
  }

  /** Whoever waits for turns to end waits for all of them. */
  ghost predicate Drains(g: Gate, submits: map<nat, Submit>, turns: map<nat, Turn>) {
    SubmitsDrain(g, submits, turns) && DeparturesDrain(turns, g.departures) && StopDrains(turns, g.stop)
  }

  ghost predicate Safe(s: State) {
    && Orderly(s.gate, s.submits, s.next)
    && FreshTurns(s.table.turns, s.next) && Tasked(s.table)
    && Drains(s.gate, s.submits, s.table.turns)
  }

  // Turn tasks.

  /** No turn is new, and none comes back to life. */
  ghost predicate Wane(was: map<nat, Turn>, are: map<nat, Turn>) {
    forall t :: t in are ==>
      && t in was && are[t].pid == was[t].pid && are[t].lifecycle == was[t].lifecycle && are[t].epoch == was[t].epoch
      && (Unfinished(are, t) ==> Unfinished(was, t))
  }

  lemma WaneDrains(g: Gate, submits: map<nat, Submit>, was: map<nat, Turn>, are: map<nat, Turn>)
    requires Drains(g, submits, was) && Wane(was, are)
    ensures Drains(g, submits, are)
  {
    forall c | c in submits ensures SubmitDrains(g, are, submits[c]) {
      assert SubmitDrains(g, was, submits[c]);
    }
    forall p | p in g.departures ensures DepartureDrains(are, p, g.departures[p]) {
      assert DepartureDrains(was, p, g.departures[p]);
    }
  }

  lemma TableStepWanes(g: Gate, table: Table, e: TableEvent)
    requires Tasked(table)
    ensures Wane(table.turns, TableStep(g, table, e).turns) && Tasked(TableStep(g, table, e))
  {
    hide Without, Cancel, InPhase, TurnAbandon, TurnDiscard, Tasked, Wane, Admitted, OwnsGeneration;
    var t := if TaskOfEvent(e).Some? then TaskOfEvent(e).value else 0;
    if t in table.turns && table.turns[t].phase != Finished {
      forall phase { InPhaseWanes(table, t, phase); }
    }
    WaneRefl(table.turns);
    match e
    case Starts(task) =>
    case Initialized(task) =>
    case Reported(task, swallowed) =>
    case Ends(task) =>
    case Discarded(task) => DiscardWanes(table, task);
    case Abandoned(task) => AbandonWanes(table, task);
    case Interrupts(pid) => CancelWanes(table, InterruptOne(table, pid), TaskOf(table, pid));
    case InterruptsAll => CancelWanes(table, InterruptEvery(table), table.tasks.Values);
    case ForgetsFinished(pid) => ForgetFinishedWanes(table, pid);
  }

  function TaskOfEvent(e: TableEvent): Option<nat> {
    match e
    case Starts(task) => Some(task)
    case Initialized(task) => Some(task)
    case Reported(task, _) => Some(task)
    case Ends(task) => Some(task)
    case _ => None
  }

  lemma WaneRefl(turns: map<nat, Turn>)
    ensures Wane(turns, turns)
  {
  }

  lemma InPhaseWanes(table: Table, task: nat, phase: TurnPhase)
    requires Tasked(table) && Unfinished(table.turns, task)
    ensures Wane(table.turns, InPhase(table, task, phase).turns) && Tasked(InPhase(table, task, phase))
  {
  }

  lemma DiscardWanes(table: Table, task: nat)
    requires Tasked(table)
    ensures Wane(table.turns, TurnDiscard(table, task).turns) && Tasked(TurnDiscard(table, task))
  {
  }

  lemma AbandonWanes(table: Table, task: nat)
    requires Tasked(table)
    ensures Wane(table.turns, TurnAbandon(table, task).turns) && Tasked(TurnAbandon(table, task))
  {
    if Unfinished(table.turns, task) {
      CancelWanes(table, TurnAbandon(table, task), {task});
    } else {
      WaneRefl(table.turns);
    }
  }

  lemma CancelWanes(table: Table, table': Table, targets: set<nat>)
    requires Tasked(table) && table'.turns == Cancel(table.turns, targets) && table'.tasks == table.tasks
    ensures Wane(table.turns, table'.turns) && Tasked(table')
  {
    hide Cancel;
  }

  lemma ForgetFinishedWanes(table: Table, pid: Pid)
    requires Tasked(table)
    ensures Wane(table.turns, ForgetFinished(table, pid).turns) && Tasked(ForgetFinished(table, pid))
  {
  }

  /** Replacing the turn table by a waned one keeps everything. */
  lemma WaneSafe(s: State, table: Table)
    requires Safe(s) && Wane(s.table.turns, table.turns) && Tasked(table)
    ensures Safe(s.(table := table))
  {
    WaneDrains(s.gate, s.submits, s.table.turns, table.turns);
  }

  // Changes to the gate that several steps share.

  /** A default epoch is fresh, so it makes no old token current. */
  lemma DefaultEpochKeeps(g: Gate, submits: map<nat, Submit>, turns: map<nat, Turn>, pid: Pid, next: Token)
    requires Orderly(g, submits, next) && Drains(g, submits, turns)
    ensures var g' := g.(epochs := SetDefault<Token>(g.epochs, pid, next));
      Orderly(g', submits, next + 1) && Drains(g', submits, turns)
  {
    var g' := g.(epochs := SetDefault<Token>(g.epochs, pid, next));
    assert forall c :: c in submits && CurrentSubmit(g', submits[c]) ==> CurrentSubmit(g, submits[c]);
    forall c | c in submits ensures SubmitDrains(g', turns, submits[c]) {
      assert SubmitDrains(g, turns, submits[c]);
    }
  }

  lemma DefaultLockKeeps(g: Gate, submits: map<nat, Submit>, turns: map<nat, Turn>, pid: Pid, lock: Token, next: Token)
    requires Orderly(g, submits, next) && Drains(g, submits, turns)
    ensures var g' := g.(locks := SetDefault<Token>(g.locks, pid, lock));
      Orderly(g', submits, next) && Drains(g', submits, turns)
  {
    var g' := g.(locks := SetDefault<Token>(g.locks, pid, lock));
    forall c | c in submits ensures SubmitDrains(g', turns, submits[c]) {
      assert SubmitDrains(g, turns, submits[c]);
    }
  }

  /** Removing calls leaves less to keep. */
  lemma FewerSubmitsKeep(g: Gate, submits: map<nat, Submit>, turns: map<nat, Turn>, call: nat, next: Token)
    requires Orderly(g, submits, next) && Drains(g, submits, turns)
    ensures Orderly(g, Without(submits, call), next) && Drains(g, Without(submits, call), turns)
  {
  }

  lemma LaterKeeps(g: Gate, submits: map<nat, Submit>, next: Token, later: Token)
    requires Orderly(g, submits, next) && next <= later
    ensures Orderly(g, submits, later)
  {
  }

  // Submitting.

  lemma AddWaiterKeeps(g: Gate, submits: map<nat, Submit>, turns: map<nat, Turn>, call: nat, c: Submit, next: Token)
    requires Orderly(g, submits, next) && Drains(g, submits, turns)
    requires c.phase == Waiting && Ticket(g, c) && c.lifecycle < next && c.epoch < next && call < next
    requires call !in submits
    ensures Orderly(g, submits[call := c], next) && Drains(g, submits[call := c], turns)
  {
  }

  lemma RegisterSafe(s: State, pid: Pid, reports: bool)
    requires Safe(s) && pid in s.gate.epochs && Admitted(s.gate, pid, s.gate.lifecycle, s.gate.epochs[pid])
    ensures var locks := SetDefault<Token>(s.gate.locks, pid, s.next);
      var call := Submit(pid, s.gate.lifecycle, s.gate.epochs[pid], locks[pid], reports, Waiting);
      Safe(s.(gate := s.gate.(locks := locks), submits := s.submits[s.next + 1 := call], next := s.next + 2))
  {
    var turns, next := s.table.turns, s.next;
    var h := s.gate.(locks := SetDefault<Token>(s.gate.locks, pid, next));
    DefaultLockKeeps(s.gate, s.submits, turns, pid, next, next);
    LaterKeeps(h, s.submits, next, next + 2);
    var call := Submit(pid, s.gate.lifecycle, s.gate.epochs[pid], h.locks[pid], reports, Waiting);
    AddWaiterKeeps(h, s.submits, turns, next + 1, call, next + 2);
  }

  lemma SubmitBeginSafe(s: State, pid: Pid, reports: bool)
    requires Safe(s)
    ensures Safe(SubmitBegin(s, pid, reports))
  {
    hide Tickets, Held, SubmitsDrain, DeparturesDrain, StopDrains, Tasked;
    var t := s.(gate := s.gate.(epochs := SetDefault<Token>(s.gate.epochs, pid, s.next)), next := s.next + 1);
    DefaultEpochKeeps(s.gate, s.submits, s.table.turns, pid, s.next);
    assert Safe(t);
    if Admitted(t.gate, pid, t.gate.lifecycle, t.gate.epochs[pid]) {
      RegisterSafe(t, pid, reports);
    } else {
      assert SubmitBegin(s, pid, reports) == t;
    }
  }

  lemma SubmitAcquireSafe(s: State, call: nat)
    requires Safe(s)
    ensures Safe(SubmitAcquire(s, call))
  {
    if call in s.submits && s.submits[call].phase == Waiting && s.submits[call].lock !in s.gate.holders {
      var c := s.submits[call];
      if Admitted(s.gate, c.pid, c.lifecycle, c.epoch) {
        var s' := SubmitAcquire(s, call);
        TableStepWanes(s.gate, s.table, Interrupts(c.pid));
        WaneDrains(s.gate, s.submits, s.table.turns, s'.table.turns);
        assert Orderly(s'.gate, s'.submits, s'.next);
        assert Within(s'.table.turns, c.pid, TaskOf(s.table, c.pid));
        forall d | d in s'.submits ensures SubmitDrains(s'.gate, s'.table.turns, s'.submits[d]) {
          if d != call {
            assert SubmitDrains(s.gate, s'.table.turns, s.submits[d]);
          }
        }
      } else {
        FewerSubmitsKeep(s.gate, s.submits, s.table.turns, call, s.next);
      }
    }
  }

  lemma ReleaseSafe(s: State, call: nat)
    requires Safe(s) && Drained(s, call)
    ensures Safe(Release(s, call))
  {
    var s' := Release(s, call);
    FewerSubmitsKeep(s.gate, s.submits, s.table.turns, call, s.next);
    forall c | c in s'.submits ensures SubmitDrains(s'.gate, s.table.turns, s'.submits[c]) {
      assert SubmitDrains(s.gate, s.table.turns, s.submits[c]);
    }
    assert Tasked(s'.table);
  }

  /** With its ticket still current, the holder of the lock finds no turn of its participant alive. */
  lemma DrainedIsQuiet(s: State, call: nat)
    requires Safe(s) && Drained(s, call) && CurrentSubmit(s.gate, s.submits[call])
    ensures Quiet(s.table.turns, s.submits[call].pid)
  {
    assert SubmitDrains(s.gate, s.table.turns, s.submits[call]);
  }

  /** While `call` holds the present lock, no other current call drains for the same participant. */
  lemma HolderIsAlone(s: State, call: nat, other: nat)
    requires Safe(s) && call in s.submits && other in s.submits && call != other
    requires s.submits[call].phase.Draining? && CurrentSubmit(s.gate, s.submits[call])
    requires s.submits[other].phase.Draining? && CurrentSubmit(s.gate, s.submits[other])
    ensures s.submits[other].pid != s.submits[call].pid
  {
    assert Ticket(s.gate, s.submits[call]) && Ticket(s.gate, s.submits[other]);
  }

  lemma AddTurnSafe(s: State, call: nat)
    requires Safe(s) && Drained(s, call)
    requires Admitted(s.gate, s.submits[call].pid, s.submits[call].lifecycle, s.submits[call].epoch)
    ensures Safe(AddTurn(Release(s, call), s.submits[call]))
  {
    var c, r := s.submits[call], Release(s, call);
    var s' := AddTurn(r, c);
    ReleaseSafe(s, call);
    DrainedIsQuiet(s, call);
    assert forall t :: Unfinished(s'.table.turns, t) && t != s.next ==>
      Unfinished(s.table.turns, t) && s'.table.turns[t] == s.table.turns[t];
    assert Tasked(s'.table);
    LaterKeeps(r.gate, r.submits, r.next, s'.next);
    forall d | d in s'.submits ensures SubmitDrains(s'.gate, s'.table.turns, s'.submits[d]) {
      assert SubmitDrains(s.gate, s.table.turns, s.submits[d]);
      if s.submits[d].phase.Draining? && CurrentSubmit(s.gate, s.submits[d]) {
        HolderIsAlone(s, call, d);
      }
    }
    forall p | p in s'.gate.departures ensures DepartureDrains(s'.table.turns, p, s'.gate.departures[p]) {
      assert DepartureDrains(s.table.turns, p, s.gate.departures[p]);
    }
  }

  lemma SubmitStepSafe(s: State, e: SubmitEvent)
    requires Safe(s)
    ensures Safe(SubmitStep(s, e))
  {
    match e
    case Begins(pid, reports) => SubmitBeginSafe(s, pid, reports);
    case Acquires(call) => SubmitAcquireSafe(s, call);
    case DrainEnds(call) =>
      if Drained(s, call) {
        var c := s.submits[call];
        if Admitted(s.gate, c.pid, c.lifecycle, c.epoch) { AddTurnSafe(s, call); } else { ReleaseSafe(s, call); }
      }
    case CallerCancelled(call) =>
      if call in s.submits && s.submits[call].phase == Waiting {
        FewerSubmitsKeep(s.gate, s.submits, s.table.turns, call, s.next);
      } else if Drained(s, call) {
        ReleaseSafe(s, call);
      }
  }

  // Joining, leaving, stopping.

  /** A departure opens only when no current call of the participant exists, or one is open already. */
  lemma OpenDepartureKeeps(g: Gate, submits: map<nat, Submit>, turns: map<nat, Turn>, pid: Pid, next: Token)
    requires Orderly(g, submits, next) && Drains(g, submits, turns)
    requires pid in g.departures || forall c :: c in submits && submits[c].pid == pid ==> !CurrentSubmit(g, submits[c])
    ensures Orderly(OpenDeparture(g, pid), submits, next) && Drains(OpenDeparture(g, pid), submits, turns)
  {
    var g' := OpenDeparture(g, pid);
    assert forall c :: c in submits ==> (CurrentSubmit(g', submits[c]) <==> CurrentSubmit(g, submits[c]));
    forall c | c in submits ensures SubmitDrains(g', turns, submits[c]) {
      assert SubmitDrains(g, turns, submits[c]);
    }
    forall p | p in g'.departures ensures DepartureDrains(turns, p, g'.departures[p]) {
      if p in g.departures { assert DepartureDrains(turns, p, g.departures[p]); }
    }
  }

  lemma JoinBeginSafe(s: State, pid: Pid)
    requires Safe(s)
    ensures Safe(JoinBegin(s, pid))
  {
    var g := s.gate.(epochs := SetDefault<Token>(s.gate.epochs, pid, s.next));
    DefaultEpochKeeps(s.gate, s.submits, s.table.turns, pid, s.next);
    if g.stop.None? {
      LaterKeeps(g, s.submits, s.next + 1, s.next + 2);
      if pid in g.departures {
        OpenDepartureKeeps(g, s.submits, s.table.turns, pid, s.next + 2);
      }
    }
  }

  lemma JoinLockSafe(s: State, call: nat)
    requires Safe(s)
    ensures Safe(JoinLock(s, call))
  {
    if call in s.joins && s.joins[call].lock.None? {
      var g := s.gate.(locks := SetDefault<Token>(s.gate.locks, s.joins[call].pid, s.next));
      DefaultLockKeeps(s.gate, s.submits, s.table.turns, s.joins[call].pid, s.next, s.next);
      LaterKeeps(g, s.submits, s.next, s.next + 1);
    }
  }

  /** Who has departed matters to admission only. */
  lemma DepartedKeeps(g: Gate, submits: map<nat, Submit>, turns: map<nat, Turn>, departed: set<Pid>, next: Token)
    requires Orderly(g, submits, next) && Drains(g, submits, turns)
    ensures Orderly(g.(departed := departed), submits, next) && Drains(g.(departed := departed), submits, turns)
  {
    forall c | c in submits ensures SubmitDrains(g.(departed := departed), turns, submits[c]) {
      assert SubmitDrains(g, turns, submits[c]);
    }
  }

  lemma JoinEndSafe(s: State, call: nat)
    requires Safe(s)
    ensures Safe(JoinEnd(s, call))
  {
    if call in s.joins {
      DepartedKeeps(s.gate, s.submits, s.table.turns, s.gate.departed - {s.joins[call].pid}, s.next);
    }
  }

  /** A fresh epoch makes every call of the participant stale. */
  lemma NewEpochKeeps(g: Gate, submits: map<nat, Submit>, turns: map<nat, Turn>, pid: Pid, next: Token)
    requires Orderly(g, submits, next) && Drains(g, submits, turns)
    ensures var g' := g.(epochs := g.epochs[pid := next]);
      && Orderly(g', submits, next + 1) && Drains(g', submits, turns)
      && forall c :: c in submits && submits[c].pid == pid ==> !CurrentSubmit(g', submits[c])
  {
    var g' := g.(epochs := g.epochs[pid := next]);
    assert forall c :: c in submits && CurrentSubmit(g', submits[c]) ==> CurrentSubmit(g, submits[c]);
    forall c | c in submits ensures SubmitDrains(g', turns, submits[c]) {
      assert SubmitDrains(g, turns, submits[c]);
    }
  }

  /** A departed participant with a fresh epoch. */
  function Left(g: Gate, pid: Pid, topics: bool, epoch: Token): Gate {
    g.(departed := if topics then g.departed + {pid} else g.departed, epochs := g.epochs[pid := epoch])
  }

  lemma LeftKeeps(g: Gate, submits: map<nat, Submit>, turns: map<nat, Turn>, pid: Pid, topics: bool, next: Token)
    requires Orderly(g, submits, next) && Drains(g, submits, turns)
    ensures var h := Left(g, pid, topics, next);
      && Orderly(h, submits, next + 1) && Drains(h, submits, turns)
      && forall c :: c in submits && submits[c].pid == pid ==> !CurrentSubmit(h, submits[c])
  {
    hide Orderly, Drains, CurrentSubmit;
    var departed := if topics then g.departed + {pid} else g.departed;
    DepartedKeeps(g, submits, turns, departed, next);
    NewEpochKeeps(g.(departed := departed), submits, turns, pid, next);
  }

  lemma LeaveSafe(s: State, pid: Pid, topics: bool)
    requires Safe(s)
    ensures Safe(Leave(s, pid, topics))
  {
    hide Orderly, Drains, Tasked, CurrentSubmit, OpenDeparture;
    var h := Left(s.gate, pid, topics, s.next);
    LeftKeeps(s.gate, s.submits, s.table.turns, pid, topics, s.next);
    assert FreshTurns(s.table.turns, s.next + 1);
    if h.stop.None? {
      OpenDepartureKeeps(h, s.submits, s.table.turns, pid, s.next + 1);
    }
    assert Leave(s, pid, topics).gate == if h.stop.Some? then h else OpenDeparture(h, pid);
  }

  lemma StopCallSafe(s: State)
    requires Safe(s)
    ensures Safe(StopCall(s))
  {
    var s' := StopCall(s);
    if s' != s {
      assert forall c :: c in s.submits ==> !CurrentSubmit(s'.gate, s.submits[c]);
    }
  }

  lemma CallStepSafe(s: State, e: CallEvent)
    requires Safe(s)
    ensures Safe(CallStep(s, e))
  {
    match e
    case JoinBegins(pid) => JoinBeginSafe(s, pid);
    case JoinLocks(call) => JoinLockSafe(s, call);
    case JoinEnds(call) => JoinEndSafe(s, call);
    case Leaves(pid, topics) => LeaveSafe(s, pid, topics);
    case Stops => StopCallSafe(s);
  }

  // The departure operation.

  /** Moving a departure on keeps everything, as long as it waits for enough and holds its lock. */
  lemma SetDepartureKeeps(g: Gate, submits: map<nat, Submit>, turns: map<nat, Turn>, pid: Pid, d: Departure,
                          next: Token)
    requires Orderly(g, submits, next) && Drains(g, submits, turns)
    requires pid in g.departures && DepartureDrains(turns, pid, d)
    requires d.Hooks? ==> d.lock in g.holders && g.holders[d.lock] == ByDeparture(pid)
    ensures Orderly(SetDeparture(g, pid, d), submits, next) && Drains(SetDeparture(g, pid, d), submits, turns)
  {
    var g' := SetDeparture(g, pid, d);
    forall c | c in submits ensures SubmitDrains(g', turns, submits[c]) {
      assert SubmitDrains(g, turns, submits[c]);
    }
    forall p | p in g'.departures ensures DepartureDrains(turns, p, g'.departures[p]) {
      if p != pid { assert DepartureDrains(turns, p, g.departures[p]); }
    }
  }

  lemma DepartureBeginSafe(s: State, pid: Pid)
    requires Safe(s)
    ensures Safe(DepartureBegin(s, pid))
  {
    if pid in s.gate.departures && s.gate.departures[pid] == Opened {
      var table := InterruptOne(s.table, pid);
      TableStepWanes(s.gate, s.table, Interrupts(pid));
      WaneSafe(s, table);
      SetDepartureKeeps(s.gate, s.submits, table.turns, pid, Interrupted(TaskOf(s.table, pid)), s.next);
    }
  }

  lemma ForgetWanes(table: Table, pid: Pid, targets: set<nat>)
    requires Tasked(table) && AllFinished(table.turns, targets)
    ensures Tasked(Forget(table, pid, targets)) && Tasked(ForgetAll(table, targets))
  {
  }

  lemma DepartureDrainSafe(s: State, pid: Pid)
    requires Safe(s)
    ensures Safe(DepartureDrain(s, pid))
  {
    if && pid in s.gate.departures && s.gate.departures[pid].Interrupted?
       && AllFinished(s.table.turns, s.gate.departures[pid].targets)
    {
      var turns := s.table.turns;
      assert DepartureDrains(turns, pid, s.gate.departures[pid]);
      ForgetWanes(s.table, pid, s.gate.departures[pid].targets);
      var g := s.gate.(locks := SetDefault<Token>(s.gate.locks, pid, s.next));
      DefaultLockKeeps(s.gate, s.submits, turns, pid, s.next, s.next);
      LaterKeeps(g, s.submits, s.next, s.next + 1);
      SetDepartureKeeps(g, s.submits, turns, pid, Locking(g.locks[pid]), s.next + 1);
    }
  }

  lemma HoldKeeps(g: Gate, submits: map<nat, Submit>, turns: map<nat, Turn>, lock: Token, holder: Holder, next: Token)
    requires Orderly(g, submits, next) && Drains(g, submits, turns) && lock !in g.holders
    ensures var g' := g.(holders := g.holders[lock := holder]);
      Orderly(g', submits, next) && Drains(g', submits, turns)
  {
    forall c | c in submits ensures SubmitDrains(g.(holders := g.holders[lock := holder]), turns, submits[c]) {
      assert SubmitDrains(g, turns, submits[c]);
    }
  }

  lemma DepartureAcquireSafe(s: State, pid: Pid)
    requires Safe(s)
    ensures Safe(DepartureAcquire(s, pid))
  {
    if && pid in s.gate.departures && s.gate.departures[pid].Locking?
       && s.gate.departures[pid].lock !in s.gate.holders
    {
      var lock, todo := s.gate.departures[pid].lock, UsedBy(s.duty, pid) + FocusOf(s.duty, pid);
      assert DepartureDrains(s.table.turns, pid, s.gate.departures[pid]);
      HoldKeeps(s.gate, s.submits, s.table.turns, lock, ByDeparture(pid), s.next);
      SetDepartureKeeps(s.gate.(holders := s.gate.holders[lock := ByDeparture(pid)]), s.submits, s.table.turns, pid,
                        Hooks(lock, todo, false), s.next);
    }
  }

  lemma HookEndSafe(s: State, pid: Pid, d: Destination, ok: bool)
    requires Safe(s)
    ensures Safe(HookEnd(s, pid, d, ok))
  {
    if pid in s.gate.departures && s.gate.departures[pid].Hooks? && d in s.gate.departures[pid].todo {
      var h := s.gate.departures[pid];
      assert DepartureDrains(s.table.turns, pid, h);
      var h' := if ok then h.(todo := h.todo - {d}) else h.(todo := h.todo - {d}, errors := true);
      SetDepartureKeeps(s.gate, s.submits, s.table.turns, pid, h', s.next);
    }
  }

  /** The lock of a failed departure is free again. */
  lemma FailDepartureSafe(s: State, pid: Pid)
    requires Safe(s) && HooksDone(s.gate, pid)
    ensures var g := s.gate.(holders := Without(s.gate.holders, s.gate.departures[pid].lock));
      Safe(s.(gate := SetDeparture(g, pid, DepartureFailed)))
  {
    var freed := s.gate.(holders := Without(s.gate.holders, s.gate.departures[pid].lock));
    var g := SetDeparture(freed, pid, DepartureFailed);
    assert DepartureDrains(s.table.turns, pid, s.gate.departures[pid]);
    forall c | c in s.submits ensures SubmitDrains(g, s.table.turns, s.submits[c]) {
      assert SubmitDrains(s.gate, s.table.turns, s.submits[c]);
    }
    forall p | p in g.departures ensures DepartureDrains(s.table.turns, p, g.departures[p]) {
      if p != pid { assert DepartureDrains(s.table.turns, p, s.gate.departures[p]); }
    }
  }

  /** Deleting the lock under waiters is safe: all of them are stale. */
  lemma CloseDepartureSafe(s: State, pid: Pid)
    requires Safe(s) && HooksDone(s.gate, pid)
    ensures var g := s.gate.(holders := Without(s.gate.holders, s.gate.departures[pid].lock));
      Safe(s.(gate := g.(departures := Without(g.departures, pid), locks := Without(g.locks, pid))))
  {
    var g := s.gate.(holders := Without(s.gate.holders, s.gate.departures[pid].lock),
                     departures := Without(s.gate.departures, pid), locks := Without(s.gate.locks, pid));
    forall c | c in s.submits && CurrentSubmit(g, s.submits[c]) ensures Ticket(g, s.submits[c]) {
      assert Ticket(s.gate, s.submits[c]);
    }
    forall c | c in s.submits ensures SubmitDrains(g, s.table.turns, s.submits[c]) {
      assert SubmitDrains(s.gate, s.table.turns, s.submits[c]);
    }
    forall p | p in g.departures ensures DepartureDrains(s.table.turns, p, g.departures[p]) {
      assert DepartureDrains(s.table.turns, p, s.gate.departures[p]);
    }
  }

  lemma DepartureStepSafe(s: State, pid: Pid, e: DepartureEvent)
    requires Safe(s)
    ensures Safe(DepartureStep(s, pid, e))
  {
    match e
    case DepartureBegins => DepartureBeginSafe(s, pid);
    case DepartureDrainEnds => DepartureDrainSafe(s, pid);
    case DepartureAcquires => DepartureAcquireSafe(s, pid);
    case HookEnds(d, ok) => HookEndSafe(s, pid, d, ok);
    case DepartureEnds(ok) =>
      if HooksDone(s.gate, pid) {
        if s.gate.departures[pid].errors || !ok { FailDepartureSafe(s, pid); } else { CloseDepartureSafe(s, pid); }
      }
  }

  // The stop operation.

  /** While a stop is in progress no call is current, so its own moves concern only what it waits for. */
  lemma SetStopKeeps(g: Gate, submits: map<nat, Submit>, turns: map<nat, Turn>, stop: Stop, next: Token)
    requires Orderly(g, submits, next) && Drains(g, submits, turns) && g.stop.Some?
    requires StopDrains(turns, Some(stop))
    ensures Orderly(SetStop(g, stop), submits, next) && Drains(SetStop(g, stop), submits, turns)
  {
    assert forall c :: c in submits ==> !CurrentSubmit(SetStop(g, stop), submits[c]) by {
      assert forall c :: c in submits && CurrentSubmit(g, submits[c]) ==> Ticket(g, submits[c]);
    }
  }

  lemma StopBeginSafe(s: State)
    requires Safe(s)
    ensures Safe(StopBegin(s))
  {
    if s.gate.stop == Some(StopOpened) {
      var table := InterruptEvery(s.table);
      TableStepWanes(s.gate, s.table, InterruptsAll);
      WaneSafe(s, table);
      forall t | Unfinished(table.turns, t) ensures t in s.table.tasks.Values {
        assert s.table.turns[t].pid in s.table.tasks;
      }
      SetStopKeeps(s.gate, s.submits, table.turns, StopInterrupted(s.table.tasks.Values), s.next);
    }
  }

  lemma StopDrainSafe(s: State, others: set<Pid>)
    requires Safe(s)
    ensures Safe(StopDrain(s, others))
  {
    if && s.gate.stop.Some? && s.gate.stop.value.StopInterrupted?
       && AllFinished(s.table.turns, s.gate.stop.value.targets)
    {
      var all := s.duty.used.Keys + s.duty.focus.Keys + s.gate.locks.Keys + s.gate.departures.Keys + others;
      ForgetWanes(s.table, "", s.gate.stop.value.targets);
      SetStopKeeps(s.gate, s.submits, s.table.turns, Departing(all, None, false), s.next);
    }
  }

  lemma StopDepartSafe(s: State, pid: Pid)
    requires Safe(s)
    ensures Safe(s.(gate := StopDepart(s.gate, pid)))
  {
    var g := s.gate;
    if g.stop.Some? && g.stop.value.Departing? && g.stop.value.waiting.None? && pid in g.stop.value.todo {
      assert forall c :: c in s.submits && CurrentSubmit(g, s.submits[c]) ==> Ticket(g, s.submits[c]);
      OpenDepartureKeeps(g, s.submits, s.table.turns, pid, s.next);
      SetStopKeeps(OpenDeparture(g, pid), s.submits, s.table.turns,
                   g.stop.value.(todo := g.stop.value.todo - {pid}, waiting := Some(pid)), s.next);
    }
  }

  lemma StopNextSafe(s: State)
    requires Safe(s)
    ensures Safe(s.(gate := StopNext(s.gate)))
  {
    var g := s.gate;
    if g.stop.Some? && g.stop.value.Departing? && g.stop.value.waiting.Some? {
      var d := g.stop.value;
      SetStopKeeps(g, s.submits, s.table.turns, d.(waiting := None), s.next);
      SetStopKeeps(g, s.submits, s.table.turns, d.(waiting := None, errors := true), s.next);
    }
  }

  lemma StopEndSafe(s: State)
    requires Safe(s)
    ensures Safe(s.(gate := StopEnd(s.gate)))
  {
    var g := s.gate;
    if g.stop.Some? && g.stop.value.Departing? && g.stop.value.waiting.None? && g.stop.value.todo == {} {
      if g.stop.value.errors {
        SetStopKeeps(g, s.submits, s.table.turns, StopFailed, s.next);
      } else {
        assert forall c :: c in s.submits ==> !CurrentSubmit(StopEnd(g), s.submits[c]);
      }
    }
  }

  lemma StopStepSafe(s: State, e: StopEvent)
    requires Safe(s)
    ensures Safe(StopStep(s, e))
  {
    match e
    case StopBegins => StopBeginSafe(s);
    case StopDrainEnds(others) => StopDrainSafe(s, others);
    case StopDeparts(pid) => StopDepartSafe(s, pid);
    case StopAdvances => StopNextSafe(s);
    case StopEnds => StopEndSafe(s);
  }

  lemma StepSafe(s: State, e: Event)
    requires Safe(s)
    ensures Safe(Step(s, e))
  {
    match e
    case OnTable(te) =>
      TableStepWanes(s.gate, s.table, te);
      WaneSafe(s, TableStep(s.gate, s.table, te));
    case OnWork(we) =>
    case OnSubmit(se) => SubmitStepSafe(s, se);
    case OnCall(ce) => CallStepSafe(s, ce);
    case OnDeparture(pid, de) => DepartureStepSafe(s, pid, de);
    case OnStop(se) => StopStepSafe(s, se);
  }

  lemma {:induction false} RunSafe(s: State, es: seq<Event>)
    requires Safe(s)
    ensures Safe(Run(s, es))
    decreases |es|
  {
    if es != [] {
      StepSafe(s, es[0]);
      RunSafe(Step(s, es[0]), es[1..]);
    }
  }
}
