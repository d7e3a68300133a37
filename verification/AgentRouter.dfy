/**
 The router's lifecycle as one object whose tables are updated in place. Every
 method is one stretch between two awaits: it performs the step of
 `RouterLifecycle`, keeps the invariant of `RouterSafety`, `RouterDuties` and
 `RouterSettling`, and promises its caller what `RouterPromises` states.
 */
module AgentRouters {
  import opened Seqs
  import opened RouterLifecycle
  import opened RouterSafety
  import opened RouterDuties
  import opened RouterSettling
  import opened RouterPromises

  class AgentRouter {
    var lifecycle: Token
    var epochs: map<Pid, Token>
    var stopTask: Option<Stop>
    var departures: map<Pid, Departure>
    var departed: set<Pid>
    var locks: map<Pid, Token>
    var holders: map<Token, Holder>
    var submits: map<nat, Submit>
    var joins: map<nat, Join>
    var turns: map<nat, Turn>
    var tasks: map<Pid, nat>
    var generation: map<Pid, Token>
    var duty: Duty
    var next: Token
    /** The destinations each participant's turns used or focused since its last completed departure. */
    ghost var touched: map<Pid, set<Destination>>

    function GateNow(): Gate
      reads this
    {
      Gate(lifecycle, epochs, stopTask, departures, departed, locks, holders)
    }

    function TableNow(): Table
      reads this
    {
      Table(turns, tasks, generation)
    }

    function Contents(): State
      reads this
    {
      State(GateNow(), submits, joins, TableNow(), duty, next)
    }

    ghost predicate Valid()
      reads this
    {
      Safe(Contents()) && Dutiful(Contents()) && Settles(GateNow(), duty) && AllAccount(duty, touched)
    }

    /** A new router is the initial state, open to everyone. */
    constructor ()
      ensures Valid() && Contents() == Init && touched == map[]
      ensures forall pid :: Open(GateNow(), pid)
    {
      lifecycle, epochs, stopTask, departures, departed := 0, map[], None, map[], {};
      locks, holders, submits, joins := map[], map[], map[], map[];
      turns, tasks, generation := map[], map[], map[];
      duty, next, touched := Duty(map[], map[], map[], map[]), 1, map[];
      new;
      InitKept();
      hide Safe, Dutiful, Settles, AllAccount;
    }

    // Interruption.

    /** Take the generation from the participant's turn and ask its task to stop. */
    method InterruptResponses(pid: Pid) returns (targets: set<nat>)
      modifies this`generation, this`turns
      ensures TableNow() == InterruptOne(old(TableNow()), pid) && targets == TaskOf(old(TableNow()), pid)
    {
      generation := Without(generation, pid);
      targets := if pid in tasks then {tasks[pid]} else {};
      turns := Cancel(turns, targets);
    }

    /** Every unfinished turn of the participant, not only the registered one, is asked to stop. */
    method Interrupt(pid: Pid)
      requires Valid()
      modifies this
      ensures Valid() && Contents() == old(Contents()).(table := InterruptOne(old(TableNow()), pid))
      ensures pid !in generation && Stopping(turns, pid)
    {
      hide Safe, Dutiful, Settles, AllAccount, InterruptOne;
      ghost var s := Contents();
      assert Tasked(s.table) by { SafeIsTasked(s); }
      var targets := InterruptResponses(pid);
      InterruptPromises(s.table, pid);
      TableKept(s, Interrupts(pid), touched);
    }

    /** Drop the task entry of a participant whose drained task it still is. */
    method ForgetTask(pid: Pid, targets: set<nat>)
      modifies this`tasks
      ensures TableNow() == Forget(old(TableNow()), pid, targets)
    {
      if pid in tasks && tasks[pid] in targets {
        tasks := Without(tasks, pid);
      }
    }

    // Submitting.

    /** A participant seen for the first time gets an epoch. */
    method DefaultEpoch(pid: Pid)
      modifies this`epochs, this`next
      ensures epochs == SetDefault<Token>(old(epochs), pid, old(next)) && pid in epochs && next == old(next) + 1
    {
      if pid !in epochs {
        epochs := epochs[pid := next];
      }
      next := next + 1;
    }

    method DefaultLock(pid: Pid)
      modifies this`locks
      ensures locks == SetDefault<Token>(old(locks), pid, next) && pid in locks
    {
      if pid !in locks {
        locks := locks[pid := next];
      }
    }

    /** A call that captured the present tokens and the present lock. */
    method WaitForLock(pid: Pid, reports: bool) returns (call: nat)
      requires pid in epochs
      modifies this`locks, this`submits, this`next
      ensures locks == SetDefault<Token>(old(locks), pid, old(next)) && pid in locks
      ensures call == old(next) + 1 && next == old(next) + 2
      ensures submits == old(submits)[call := Submit(pid, lifecycle, epochs[pid], locks[pid], reports, Waiting)]
    {
      DefaultLock(pid);
      call := next + 1;
      submits := submits[call := Submit(pid, lifecycle, epochs[pid], locks[pid], reports, Waiting)];
      next := next + 2;
    }

    /** The call is admitted iff admission is open, and then waits for the present lock with current tokens. */
    method BeginSubmit(pid: Pid, reports: bool) returns (call: Option<nat>)
      requires Valid()
      modifies this
      ensures Valid() && Contents() == SubmitBegin(old(Contents()), pid, reports) && touched == old(touched)
      ensures call.Some? <==> old(Open(GateNow(), pid))
      ensures call.Some? ==>
        && call.value !in old(submits) && call.value in submits && submits[call.value].pid == pid
        && CurrentSubmit(GateNow(), submits[call.value]) && Ticket(GateNow(), submits[call.value])
      ensures CallsStand(old(GateNow()), old(submits), GateNow(), submits)
    {
      hide Safe, Dutiful, Settles, AllAccount, CallsStand, SetDefault, CurrentSubmit, Ticket, SubmitStep;
      ghost var s := Contents();
      DefaultEpoch(pid);
      call := None;
      if !(stopTask.Some? || pid in departures || pid in departed) {
        var queued := WaitForLock(pid, reports);
        call := Some(queued);
      }
      assert Contents() == SubmitBegin(s, pid, reports);
      BeginPromises(s, pid, reports);
      BeginKept(s, pid, reports, touched);
    }

    /**
     Admission is checked again under the lock. A call that gets through has asked
     every unfinished turn of its participant to stop, and no other current call
     drains for it.
     */
    method AcquireForSubmit(call: nat)
      requires Valid()
      modifies this
      ensures Valid() && Contents() == SubmitAcquire(old(Contents()), call) && touched == old(touched)
      ensures (call in old(submits) && old(submits)[call].phase == Waiting
               && call in submits && submits[call].phase.Draining?) ==>
        && var c := submits[call];
        && c.pid !in generation && Stopping(turns, c.pid) && Within(turns, c.pid, c.phase.targets)
        && Admitted(GateNow(), c.pid, c.lifecycle, c.epoch)
        && forall d :: d in submits && d != call && submits[d].pid == c.pid && submits[d].phase.Draining? ==>
             !CurrentSubmit(GateNow(), submits[d])
    {
      hide Safe, Dutiful, Settles, AllAccount, InterruptOne, Stopping, Within, SubmitStep, TaskOf, Without;
      ghost var s := Contents();
      if call in submits && submits[call].phase == Waiting && submits[call].lock !in holders {
        var c := submits[call];
        if !Admitted(GateNow(), c.pid, c.lifecycle, c.epoch) {
          submits := Without(submits, call);
        } else {
          holders := holders[c.lock := BySubmit(call)];
          var targets := InterruptResponses(c.pid);
          submits := submits[call := c.(phase := Draining(targets))];
        }
      }
      AcquireKept(s, call, touched);
      assert Contents() == SubmitAcquire(s, call);
      if call in s.submits && s.submits[call].phase == Waiting && call in submits && submits[call].phase.Draining? {
        AcquirePromises(s, call);
      }
    }

    method ReleaseSubmit(call: nat)
      requires call in submits && submits[call].phase.Draining?
      modifies this
      ensures Contents() == Release(old(Contents()), call) && touched == old(touched)
    {
      var c := submits[call];
      holders := Without(holders, c.lock);
      submits := Without(submits, call);
      ForgetTask(c.pid, c.phase.targets);
    }

    /** A new turn task with a generation of its own. */
    method CreateTurn(c: Submit)
      modifies this
      ensures Contents() == AddTurn(old(Contents()), c) && touched == old(touched)
    {
      turns := turns[next := Turn(c.pid, c.lifecycle, c.epoch, next + 1, c.reports, Created, false)];
      tasks, generation := tasks[c.pid := next], generation[c.pid := next + 1];
      next := next + 2;
    }

    /**
     The previous turn is gone. The turn that takes its place, if admission is
     still open, is the participant's only unfinished one.
     */
    method FinishSubmit(call: nat) returns (task: Option<nat>)
      requires Valid()
      modifies this
      ensures Valid() && Contents() == SubmitDone(old(Contents()), call) && touched == old(touched)
      ensures task.Some? <==>
        && old(Drained(Contents(), call))
        && old(Admitted(GateNow(), submits[call].pid, submits[call].lifecycle, submits[call].epoch))
      ensures task.Some? ==>
        && task.value !in old(turns) && Unfinished(turns, task.value) && turns[task.value].pid == old(submits)[call].pid
        && Alone(turns, task.value) && OwnsGeneration(TableNow(), turns[task.value])
      ensures task.None? ==> turns == old(turns)
    {
      hide Admitted, Release, AddTurn, AllFinished, Safe, Dutiful, Settles, AllAccount, Alone, Unfinished,
        OwnsGeneration;
      ghost var s := Contents();
      task := None;
      SubmitKept(s, DrainEnds(call), touched);
      if Drained(Contents(), call) {
        var c := submits[call];
        ReleaseKeepsTurns(s, call);
        ReleaseSubmit(call);
        if Admitted(GateNow(), c.pid, c.lifecycle, c.epoch) {
          task := Some(next);
          CreateTurn(c);
          DonePromises(s, call);
        }
      }
    }

    /** The caller of a submit was cancelled. */
    method AbandonSubmit(call: nat)
      requires Valid()
      modifies this
      ensures Valid() && Contents() == SubmitAbandon(old(Contents()), call) && touched == old(touched)
      ensures turns == old(turns) && generation == old(generation)
    {
      hide Safe, Dutiful, Settles, AllAccount, AllFinished;
      ghost var s := Contents();
      SubmitKept(s, CallerCancelled(call), touched);
      if call in submits && submits[call].phase == Waiting {
        submits := Without(submits, call);
      } else if Drained(Contents(), call) {
        ReleaseSubmit(call);
      }
    }

    // The turn task.

    /** A turn that starts is admitted and the only unfinished one of its participant. */
    method StartTurn(task: nat) returns (started: bool)
      requires Valid()
      modifies this
      ensures Valid() && Contents() == old(Contents()).(table := TurnStart(GateNow(), old(TableNow()), task))
      ensures started ==>
        && task in turns && Alone(turns, task)
        && Admitted(GateNow(), turns[task].pid, turns[task].lifecycle, turns[task].epoch)
      ensures !started && task in old(turns) && old(turns)[task].phase == Created ==> turns[task].phase == Finished
    {
      hide Safe, Dutiful, Settles, AllAccount, Admitted, Alone;
      ghost var s := Contents();
      started := false;
      if task in turns && turns[task].phase == Created {
        var t := turns[task];
        started := !t.cancelled && Admitted(GateNow(), t.pid, t.lifecycle, t.epoch);
        turns := turns[task := t.(phase := if started then Initializing else Finished)];
      }
      TableKept(s, Starts(task), touched);
      assert Safe(Contents());
      if started { SafeIsAlone(Contents(), task); }
    }

    /** A turn that gets past initialization owns its generation, is admitted and alone. */
    method FinishInitialization(task: nat) returns (proceeds: bool)
      requires Valid()
      modifies this
      ensures Valid() && Contents() == old(Contents()).(table := TurnInit(GateNow(), old(TableNow()), task))
      ensures proceeds ==>
        && task in turns && Alone(turns, task) && OwnsGeneration(TableNow(), turns[task])
        && Admitted(GateNow(), turns[task].pid, turns[task].lifecycle, turns[task].epoch)
      ensures !proceeds && task in old(turns) && old(turns)[task].phase == Initializing ==>
        turns[task].phase == Finished
    {
      hide Safe, Dutiful, Settles, AllAccount, Admitted, Alone;
      ghost var s := Contents();
      proceeds := false;
      if task in turns && turns[task].phase == Initializing {
        var t := turns[task];
        proceeds := !t.cancelled && OwnsGeneration(TableNow(), t)
                    && Admitted(GateNow(), t.pid, t.lifecycle, t.epoch);
        turns := turns[task := t.(phase := if !proceeds then Finished else if t.reports then Reporting else Handling)];
      }
      TableKept(s, Initialized(task), touched);
      if proceeds { SafeIsAlone(Contents(), task); }
    }

    method FinishReport(task: nat, swallowed: bool)
      requires Valid()
      modifies this
      ensures Valid() && Contents() == old(Contents()).(table := TurnReport(old(TableNow()), task, swallowed))
    {
      hide Safe, Dutiful, Settles, AllAccount;
      ghost var s := Contents();
      if task in turns && turns[task].phase == Reporting {
        var t := turns[task];
        turns := turns[task := t.(phase := if t.cancelled && !swallowed then Finished else Handling)];
      }
      TableKept(s, Reported(task, swallowed), touched);
    }

    method FinishTurn(task: nat)
      requires Valid()
      modifies this
      ensures Valid() && Contents() == old(Contents()).(table := TurnEnd(old(TableNow()), task))
    {
      hide Safe, Dutiful, Settles, AllAccount;
      ghost var s := Contents();
      if task in turns && turns[task].phase != Finished {
        turns := turns[task := turns[task].(phase := Finished)];
      }
      TableKept(s, Ends(task), touched);
    }

    /** The completion callback of a turn task takes nothing from a turn that is still running. */
    method DiscardTurn(task: nat)
      requires Valid()
      modifies this
      ensures Valid() && Contents() == old(Contents()).(table := TurnDiscard(old(TableNow()), task))
      ensures forall t :: Unfinished(turns, t) ==>
        && turns[t].pid in tasks && tasks[turns[t].pid] == t
        && (OwnsGeneration(TableNow(), turns[t]) <==> OwnsGeneration(old(TableNow()), turns[t]))
    {
      hide Safe, Dutiful, Settles, AllAccount, OwnsGeneration;
      ghost var s := Contents();
      SafeIsTasked(s);
      if task in turns && turns[task].phase == Finished {
        var pid := turns[task].pid;
        if pid in tasks && tasks[pid] == task {
          tasks, generation := Without(tasks, pid), Without(generation, pid);
        }
      }
      TableKept(s, Discarded(task), touched);
      SafeIsTasked(Contents());
      forall t | Unfinished(turns, t)
        ensures OwnsGeneration(TableNow(), turns[t]) <==> OwnsGeneration(s.table, turns[t])
      {
        DiscardPromises(s.table, task, t);
      }
    }

    /** The caller of `handle` was cancelled: its turn is asked to stop. */
    method AbandonTurn(task: nat)
      requires Valid()
      modifies this
      ensures Valid() && Contents() == old(Contents()).(table := TurnAbandon(old(TableNow()), task))
      ensures task in turns && turns[task].phase != Finished ==> turns[task].cancelled
    {
      hide Safe, Dutiful, Settles, AllAccount;
      ghost var s := Contents();
      if task in turns && turns[task].phase != Finished {
        var pid := turns[task].pid;
        if pid in tasks && tasks[pid] == task {
          generation := Without(generation, pid);
        }
        turns := Cancel(turns, {task});
      }
      TableKept(s, Abandoned(task), touched);
    }

    /** A running turn uses, focuses or lets go of a destination; what it touches will be owed. */
    method Work(e: WorkEvent)
      requires Valid()
      modifies this
      ensures Valid() && Contents() == old(Contents()).(duty := WorkStep(TableNow(), old(duty), e))
      ensures touched == TouchedNext(old(Contents()), OnWork(e), old(touched))
    {
      hide Safe, Dutiful, Settles, AllAccount, OwnsGeneration;
      ghost var s := Contents();
      if e.task in turns && turns[e.task].phase == Handling {
        var t := turns[e.task];
        if e.Unfocuses? {
          duty := duty.(focus := Without(duty.focus, t.pid));
        } else if OwnsGeneration(TableNow(), t) {
          if e.Uses? {
            duty := duty.(used := duty.used[t.pid := UsedBy(duty, t.pid) + {e.destination}]);
          } else if e.destination in UsedBy(duty, t.pid) {
            duty := duty.(focus := duty.focus[t.pid := e.destination]);
          }
        }
      }
      touched := TouchedNext(s, OnWork(e), touched);
      WorkKept(s, e, old(touched));
    }

    // Joining, leaving, stopping.

    /** Join the departure in progress, or open one. */
    method OpenOrJoinDeparture(pid: Pid)
      modifies this`departures
      ensures GateNow() == OpenDeparture(old(GateNow()), pid)
    {
      if pid !in departures || departures[pid] == DepartureFailed {
        departures := departures[pid := Opened];
      }
    }

    /** A join disturbs no call; a failed departure is retried before anything reopens. */
    method BeginJoin(pid: Pid)
      requires Valid()
      modifies this
      ensures Valid() && Contents() == JoinBegin(old(Contents()), pid) && touched == old(touched)
      ensures CallsStand(old(GateNow()), old(submits), GateNow(), submits) && departed == old(departed)
      ensures departures.Keys == old(departures).Keys
      ensures stopTask.None? && pid in departures ==> departures[pid] != DepartureFailed
    {
      hide Safe, Dutiful, Settles, AllAccount, CallsStand, SetDefault, OpenDeparture, CallStep;
      ghost var s := Contents();
      DefaultEpoch(pid);
      if stopTask.None? {
        if pid in departures {
          OpenOrJoinDeparture(pid);
        }
        joins := joins[next := Join(pid, lifecycle, epochs[pid], None)];
        next := next + 1;
      }
      assert Contents() == JoinBegin(s, pid);
      JoinBeginPromises(s, pid);
      JoinBeginKept(s, pid, touched);
    }

    method LockForJoin(call: nat)
      requires Valid()
      modifies this
      ensures Valid() && Contents() == JoinLock(old(Contents()), call) && touched == old(touched)
    {
      hide Safe, Dutiful, Settles, AllAccount;
      ghost var s := Contents();
      if call in joins && joins[call].lock.None? {
        var j := joins[call];
        DefaultLock(j.pid);
        next := next + 1;
        joins := joins[call := j.(lock := Some(locks[j.pid]))];
      }
      CallKept(s, JoinLocks(call), touched);
    }

    /** Admission reopens only for a join whose tokens are still current, and is then really open. */
    method FinishJoin(call: nat)
      requires Valid()
      modifies this
      ensures Valid() && Contents() == JoinEnd(old(Contents()), call) && touched == old(touched)
      ensures forall pid :: pid in old(departed) && pid !in departed ==>
        && Open(GateNow(), pid) && call in old(joins) && old(joins)[call].pid == pid
        && Current(GateNow(), pid, old(joins)[call].lifecycle, old(joins)[call].epoch)
      ensures departed <= old(departed)
    {
      hide Safe, Dutiful, Settles, AllAccount;
      ghost var s := Contents();
      CallKept(s, JoinEnds(call), touched);
      if call in joins && joins[call].lock.Some? && joins[call].lock.value !in holders {
        var j := joins[call];
        joins := Without(joins, call);
        if !(stopTask.Some? || !Current(GateNow(), j.pid, j.lifecycle, j.epoch) || j.pid in departures) {
          departed := departed - {j.pid};
        }
      }
    }

    /** From the call on, no call and no turn the participant has passes an admission check. */
    method ParticipantLeft(pid: Pid, topics: bool)
      requires Valid()
      modifies this
      ensures Valid() && Contents() == Leave(old(Contents()), pid, topics) && touched == old(touched)
      ensures ShutOut(GateNow(), submits, pid) && TurnedAway(GateNow(), turns, pid) && !Open(GateNow(), pid)
      ensures stopTask.None? ==> pid in departures && departures[pid] != DepartureFailed
    {
      hide Safe, Dutiful, Settles, AllAccount, ShutOut, TurnedAway, OpenDeparture;
      ghost var s := Contents();
      if topics {
        departed := departed + {pid};
      }
      epochs := epochs[pid := next];
      next := next + 1;
      if stopTask.None? {
        OpenOrJoinDeparture(pid);
      }
      LeavePromises(s, pid, topics);
      CallKept(s, Leaves(pid, topics), touched);
    }

    /** From the call on, no call and no turn of anybody passes an admission check. */
    method RequestStop()
      requires Valid()
      modifies this
      ensures Valid() && Contents() == StopCall(old(Contents())) && touched == old(touched)
      ensures stopTask.Some? && stopTask != Some(StopFailed)
      ensures forall pid :: ShutOut(GateNow(), submits, pid) && TurnedAway(GateNow(), turns, pid)
    {
      hide Safe, Dutiful, Settles, AllAccount, ShutOut, TurnedAway;
      ghost var s := Contents();
      if !(stopTask.Some? && stopTask.value != StopFailed) {
        lifecycle := next;
        next := next + 1;
        stopTask := Some(StopOpened);
      }
      forall pid ensures ShutOut(GateNow(), submits, pid) && TurnedAway(GateNow(), turns, pid) {
        StopPromises(s, pid);
      }
      StopPromises(s, "");
      CallKept(s, Stops, touched);
    }

    // The departure operation.

    /** The departure waits for every unfinished turn of its participant, and has asked each to stop. */
    method StartDeparture(pid: Pid)
      requires Valid()
      modifies this
      ensures Valid() && Contents() == DepartureBegin(old(Contents()), pid) && touched == old(touched)
      ensures pid in old(departures) && old(departures)[pid] == Opened ==>
        && pid in departures && departures[pid].Interrupted?
        && Within(turns, pid, departures[pid].targets) && Stopping(turns, pid)
    {
      hide Safe, Dutiful, Settles, AllAccount, InterruptOne, Within, Stopping;
      ghost var s := Contents();
      SafeIsTasked(s);
      if pid in departures && departures[pid] == Opened {
        var targets := InterruptResponses(pid);
        departures := departures[pid := Interrupted(targets)];
        InterruptPromises(s.table, pid);
      }
      DepartureKept(s, pid, DepartureBegins, touched);
    }

    /** When the wait is over, no turn of the participant is left. */
    method LockForDeparture(pid: Pid)
      requires Valid()
      modifies this
      ensures Valid() && Contents() == DepartureDrain(old(Contents()), pid) && touched == old(touched)
      ensures pid in departures && departures[pid].Locking? ==> Quiet(turns, pid)
    {
      hide Safe, Dutiful, Settles, AllAccount, Quiet, Forget, AllFinished, SetDefault, Without, DepartureDrains;
      ghost var s := Contents();
      if pid in departures && departures[pid].Interrupted? && AllFinished(turns, departures[pid].targets) {
        ForgetTask(pid, departures[pid].targets);
        DefaultLock(pid);
        next := next + 1;
        departures := departures[pid := Locking(locks[pid])];
      }
      assert Contents() == DepartureDrain(s, pid);
      DrainPromises(s, pid, touched);
    }

    /** The hooks run beside no turn and no current call, and owe exactly what was touched. */
    method StartHooks(pid: Pid)
      requires Valid()
      modifies this
      ensures Valid() && Contents() == DepartureAcquire(old(Contents()), pid) && touched == old(touched)
      ensures pid in departures && departures[pid].Hooks? ==>
        && Quiet(turns, pid) && ShutOut(GateNow(), submits, pid)
        && pid in duty.owed && duty.owed[pid] == TouchedFor(touched, pid)
    {
      hide Safe, Dutiful, Settles, AllAccount, Quiet, ShutOut, TouchedFor, UsedBy, FocusOf, DepartureStep, SetDefault,
        Without, SetUsed;
      ghost var s := Contents();
      if pid in departures && departures[pid].Locking? && departures[pid].lock !in holders {
        var lock, todo := departures[pid].lock, UsedBy(duty, pid) + FocusOf(duty, pid);
        holders := holders[lock := ByDeparture(pid)];
        departures := departures[pid := Hooks(lock, todo, false)];
        duty := Duty(SetUsed(duty.used, pid, todo), Without(duty.focus, pid),
                     SetDefault(duty.owed, pid, todo), SetDefault(duty.released, pid, []));
      }
      assert Contents() == DepartureAcquire(s, pid);
      hide DepartureAcquire;
      HooksKept(s, pid, touched);
      if pid in departures && departures[pid].Hooks? {
        LockedIsQuiet(Contents(), pid);
        DepartingIsShutOut(Contents(), pid);
        HooksOweTouched(Contents(), pid, touched);
      }
    }

    /** A hook that succeeds is released for the first time; one that fails stays owed and the attempt with it. */
    method FinishHook(pid: Pid, d: Destination, ok: bool)
      requires Valid()
      modifies this
      ensures Valid() && Contents() == HookEnd(old(Contents()), pid, d, ok) && touched == old(touched)
      ensures pid in old(departures) && old(departures)[pid].Hooks? && d in old(departures)[pid].todo ==>
        HookPromised(old(Contents()), Contents(), touched, pid, d, ok)
    {
      hide Safe, Dutiful, Settles, AllAccount, UsedBy, HookPromised, DepartureStep;
      ghost var s := Contents();
      if pid in departures && departures[pid].Hooks? && d in departures[pid].todo {
        var h := departures[pid];
        HookPromises(s, pid, d, ok, touched);
        if ok {
          duty := duty.(used := SetUsed(duty.used, pid, UsedBy(duty, pid) - {d}),
                        released := duty.released[pid := ReleasedFor(duty, pid) + [d]]);
          departures := departures[pid := h.(todo := h.todo - {d})];
        } else {
          departures := departures[pid := h.(todo := h.todo - {d}, errors := true)];
        }
      }
      HookKept(s, pid, d, ok, touched);
    }

    /** The lock is free again; the operation is deleted, or stays as failed. */
    method CloseDeparture(pid: Pid, cleanupOk: bool) returns (completed: bool)
      modifies this`holders, this`departures, this`locks, this`duty
      ensures Contents() == DepartureEnd(old(Contents()), pid, cleanupOk)
      ensures completed <==> old(HooksDone(GateNow(), pid)) && !old(departures)[pid].errors && cleanupOk
    {
      completed := false;
      if HooksDone(GateNow(), pid) {
        var h := departures[pid];
        holders := Without(holders, h.lock);
        completed := !h.errors && cleanupOk;
        if completed {
          departures, locks := Without(departures, pid), Without(locks, pid);
          duty := duty.(owed := Without(duty.owed, pid), released := Without(duty.released, pid));
        } else {
          departures := departures[pid := DepartureFailed];
        }
      }
    }

    /**
     A departure completes only after the hook of everything touched succeeded,
     each exactly once; then nothing of the participant is left.
     */
    method FinishDeparture(pid: Pid, cleanupOk: bool) returns (completed: bool)
      requires Valid()
      modifies this
      ensures Valid() && Contents() == DepartureEnd(old(Contents()), pid, cleanupOk)
      ensures completed ==>
        && Distinct(old(ReleasedFor(duty, pid)))
        && Elements(old(ReleasedFor(duty, pid))) == TouchedFor(old(touched), pid)
        && Clean(GateNow(), duty, pid) && ShutOut(GateNow(), submits, pid) && touched == Without(old(touched), pid)
      ensures !completed ==> duty == old(duty) && touched == old(touched)
      ensures !completed && old(HooksDone(GateNow(), pid)) ==> pid in departures && departures[pid] == DepartureFailed
    {
      hide Safe, Dutiful, Settles, AllAccount, TouchedFor, Clean, ShutOut, Distinct, Elements, DepartureEnd, HooksDone,
        ReleasedFor, Without;
      ghost var s := Contents();
      completed := CloseDeparture(pid, cleanupOk);
      if completed {
        touched := Without(touched, pid);
        DepartureCompletes(s, pid, old(touched));
      } else {
        DepartureFails(s, pid, cleanupOk, touched);
      }
    }

    // The stop operation.

    /** The stop waits for every unfinished turn there is, and has asked each to stop. */
    method StartStop()
      requires Valid()
      modifies this
      ensures Valid() && Contents() == StopBegin(old(Contents())) && touched == old(touched)
      ensures old(stopTask) == Some(StopOpened) ==>
        && generation == map[] && stopTask.Some? && stopTask.value.StopInterrupted?
        && forall pid :: Within(turns, pid, stopTask.value.targets) && Stopping(turns, pid)
    {
      hide Safe, Dutiful, Settles, AllAccount, Within, Stopping;
      ghost var s := Contents();
      SafeIsTasked(s);
      if stopTask == Some(StopOpened) {
        var targets := tasks.Values;
        stopTask, generation, turns := Some(StopInterrupted(targets)), map[], Cancel(turns, targets);
        forall pid ensures Within(turns, pid, targets) && Stopping(turns, pid) {
          InterruptEveryPromises(s.table, pid);
        }
      }
      StopKept(s, StopBegins, touched);
    }

    /** Nobody's turn is left, and whoever is not on the list has nothing to clean up. */
    method CollectDepartures(others: set<Pid>)
      requires Valid()
      modifies this
      ensures Valid() && Contents() == StopDrain(old(Contents()), others) && touched == old(touched)
      ensures stopTask != old(stopTask) ==>
        && stopTask.Some? && stopTask.value.Departing? && (forall t :: !Unfinished(turns, t))
        && forall pid :: pid !in stopTask.value.todo ==> Clean(GateNow(), duty, pid)
    {
      hide Safe, Dutiful, Settles, AllAccount, Clean, Unfinished;
      ghost var s := Contents();
      StopKept(s, StopDrainEnds(others), touched);
      if && stopTask.Some? && stopTask.value.StopInterrupted? && AllFinished(turns, stopTask.value.targets) {
        var drained := stopTask.value.targets;
        var all := duty.used.Keys + duty.focus.Keys + locks.Keys + departures.Keys + others;
        stopTask := Some(Departing(all, None, false));
        tasks := map p | p in tasks && tasks[p] !in drained :: tasks[p];
        assert Contents() == StopDrain(s, others);
        SafeStopDrains(Contents());
        hide StopDrains;
        forall pid ensures pid !in stopTask.value.todo ==> Clean(GateNow(), duty, pid) {
          CollectPromises(GateNow(), turns, duty, pid);
        }
        CollectPromises(GateNow(), turns, duty, "");
      }
    }

    method DepartNext(pid: Pid)
      requires Valid()
      modifies this
      ensures Valid() && Contents() == old(Contents()).(gate := StopDepart(old(GateNow()), pid))
    {
      hide Safe, Dutiful, Settles, AllAccount;
      ghost var s := Contents();
      if && stopTask.Some? && stopTask.value.Departing? && stopTask.value.waiting.None?
         && pid in stopTask.value.todo
      {
        var d := stopTask.value;
        OpenOrJoinDeparture(pid);
        stopTask := Some(d.(todo := d.todo - {pid}, waiting := Some(pid)));
      }
      StopKept(s, StopDeparts(pid), touched);
    }

    method FinishWait()
      requires Valid()
      modifies this
      ensures Valid() && Contents() == old(Contents()).(gate := StopNext(old(GateNow())))
    {
      hide Safe, Dutiful, Settles, AllAccount;
      ghost var s := Contents();
      if stopTask.Some? && stopTask.value.Departing? && stopTask.value.waiting.Some? {
        var d := stopTask.value;
        if d.waiting.value !in departures {
          stopTask := Some(d.(waiting := None));
        } else if departures[d.waiting.value] == DepartureFailed {
          stopTask := Some(d.(waiting := None, errors := true));
        }
      }
      StopKept(s, StopAdvances, touched);
    }

    /** A stop that ends without errors leaves nobody anything to clean up and admission open to everyone. */
    method FinishStop()
      requires Valid()
      modifies this
      ensures Valid() && Contents() == old(Contents()).(gate := StopEnd(old(GateNow()))) && touched == old(touched)
      ensures old(stopTask).Some? && stopTask.None? ==>
        forall pid :: Clean(GateNow(), duty, pid) && Open(GateNow(), pid)
    {
      hide Safe, Dutiful, Settles, AllAccount, Clean;
      ghost var s := Contents();
      if && stopTask.Some? && stopTask.value.Departing? && stopTask.value.waiting.None?
         && stopTask.value.todo == {}
      {
        if stopTask.value.errors {
          stopTask := Some(StopFailed);
        } else {
          departed, epochs, stopTask := {}, map[], None;
          SettledStopIsClean(s.gate, s.duty);
        }
      }
      StopKept(s, StopEnds, touched);
    }
  }
}
