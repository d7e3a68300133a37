/**
 What each call of the router promises its caller, in every state that keeps the
 invariant: who may go on, who is alone, who is shut out.
 */
module RouterPromises {
  import opened Seqs
  import opened RouterLifecycle
  import opened RouterSafety
  import opened RouterDuties
  import opened RouterSettling

  /** A new turn of the participant would be admitted. */
  predicate Open(g: Gate, pid: Pid) {
    g.stop.None? && pid !in g.departures && pid !in g.departed
  }

  /** No call that waits or drains for `pid` holds current tokens. */
  ghost predicate ShutOut(g: Gate, submits: map<nat, Submit>, pid: Pid) {
    forall c :: c in submits && submits[c].pid == pid ==> !CurrentSubmit(g, submits[c])
  }

  /** No admission check passes any of the participant's turns. */
  ghost predicate TurnedAway(g: Gate, turns: map<nat, Turn>, pid: Pid) {
    forall t :: t in turns && turns[t].pid == pid ==> !Admitted(g, pid, turns[t].lifecycle, turns[t].epoch)
  }

  /** Every unfinished turn of `pid` is asked to stop. */
  ghost predicate Stopping(turns: map<nat, Turn>, pid: Pid) {
    forall t :: Unfinished(turns, t) && turns[t].pid == pid ==> turns[t].cancelled
  }

  /** No other turn of the participant is unfinished. */
  ghost predicate Alone(turns: map<nat, Turn>, task: nat)
    requires task in turns
  {
    forall t :: Unfinished(turns, t) && turns[t].pid == turns[task].pid ==> t == task
  }

  /** Calls keep what they have captured, and stay current or stale. */
  ghost predicate CallsStand(g: Gate, submits: map<nat, Submit>, g': Gate, submits': map<nat, Submit>) {
    forall c :: c in submits ==>
      c in submits' && submits'[c] == submits[c] && (CurrentSubmit(g', submits[c]) <==> CurrentSubmit(g, submits[c]))
  }

  lemma DefaultEpochStands(g: Gate, submits: map<nat, Submit>, pid: Pid, next: Token)
    requires FreshSubmits(submits, next)
    ensures CallsStand(g, submits, g.(epochs := SetDefault<Token>(g.epochs, pid, next)), submits)
  {
  }

  /** A call is admitted exactly when admission is open, and then it holds a current ticket. */
  lemma BeginPromises(s: State, pid: Pid, reports: bool)
    requires Safe(s)
    ensures var t := SubmitBegin(s, pid, reports);
      && CallsStand(s.gate, s.submits, t.gate, t.submits)
      && (if Open(s.gate, pid) then
            var call := s.next + 2;
            && call !in s.submits && call in t.submits && t.submits[call].pid == pid
            && t.submits[call].phase == Waiting && CurrentSubmit(t.gate, t.submits[call])
            && Ticket(t.gate, t.submits[call])
          else t.submits == s.submits)
  {
    hide Tickets, Held, Drains, Tasked, FreshTurns;
    DefaultEpochStands(s.gate, s.submits, pid, s.next);
  }

  lemma InterruptPromises(table: Table, pid: Pid)
    requires Tasked(table)
    ensures var t := InterruptOne(table, pid);
      pid !in t.generation && Stopping(t.turns, pid) && Within(t.turns, pid, TaskOf(table, pid))
  {
  }

  lemma InterruptEveryPromises(table: Table, pid: Pid)
    requires Tasked(table)
    ensures var t := InterruptEvery(table);
      t.generation == map[] && Stopping(t.turns, pid) && Within(t.turns, pid, table.tasks.Values)
  {
  }

  /** Whoever gets the lock with current tokens has asked every older turn to stop and drains alone. */
  lemma AcquirePromises(s: State, call: nat)
    requires Safe(s) && call in s.submits && s.submits[call].phase == Waiting
    requires var t := SubmitAcquire(s, call); call in t.submits && t.submits[call].phase.Draining?
    ensures var t := SubmitAcquire(s, call); var c := t.submits[call];
      && c.pid !in t.table.generation && Stopping(t.table.turns, c.pid)
      && Within(t.table.turns, c.pid, c.phase.targets) && Admitted(t.gate, c.pid, c.lifecycle, c.epoch)
      && forall d :: d in t.submits && d != call && t.submits[d].pid == c.pid && t.submits[d].phase.Draining? ==>
           !CurrentSubmit(t.gate, t.submits[d])
  {
    var t := SubmitAcquire(s, call);
    InterruptPromises(s.table, s.submits[call].pid);
    SubmitAcquireSafe(s, call);
    hide Safe, Stopping, Within, InterruptOne, TaskOf;
    forall d | d in t.submits && d != call && t.submits[d].pid == t.submits[call].pid && t.submits[d].phase.Draining?
      ensures !CurrentSubmit(t.gate, t.submits[d])
    {
      if CurrentSubmit(t.gate, t.submits[d]) { HolderIsAlone(t, call, d); }
    }
  }

  /** The turn that takes over is the participant's only unfinished one, and owns its generation. */
  lemma DonePromises(s: State, call: nat)
    requires Safe(s) && Drained(s, call)
    requires Admitted(s.gate, s.submits[call].pid, s.submits[call].lifecycle, s.submits[call].epoch)
    ensures var t := SubmitDone(s, call);
      && s.next in t.table.turns && s.next !in s.table.turns && t.table.turns[s.next].pid == s.submits[call].pid
      && Unfinished(t.table.turns, s.next) && Alone(t.table.turns, s.next)
      && OwnsGeneration(t.table, t.table.turns[s.next])
  {
    DrainedIsQuiet(s, call);
    hide Safe, Drained, Tasked;
  }

  /** An unfinished turn is alone. */
  lemma UnfinishedIsAlone(table: Table, task: nat)
    requires Tasked(table) && Unfinished(table.turns, task)
    ensures Alone(table.turns, task)
  {
  }

  /** A task that ends takes nothing from a turn that is still running. */
  lemma DiscardPromises(table: Table, task: nat, other: nat)
    requires Tasked(table) && Unfinished(table.turns, other)
    ensures var t := TurnDiscard(table, task);
      OwnsGeneration(t, table.turns[other]) <==> OwnsGeneration(table, table.turns[other])
  {
  }

  /** A join disturbs no call, and retries a failed departure. */
  lemma JoinBeginPromises(s: State, pid: Pid)
    requires Safe(s)
    ensures var t := JoinBegin(s, pid);
      && CallsStand(s.gate, s.submits, t.gate, t.submits) && t.gate.departed == s.gate.departed
      && t.gate.departures.Keys == s.gate.departures.Keys
      && (s.gate.stop.None? && pid in s.gate.departures ==> t.gate.departures[pid] != DepartureFailed)
  {
    hide Tickets, Held, Drains, Tasked, FreshTurns;
    DefaultEpochStands(s.gate, s.submits, pid, s.next);
  }

  /** Leaving shuts out every call and every turn the participant has. */
  lemma LeavePromises(s: State, pid: Pid, topics: bool)
    requires Safe(s)
    ensures var t := Leave(s, pid, topics);
      && ShutOut(t.gate, t.submits, pid) && TurnedAway(t.gate, t.table.turns, pid)
      && (s.gate.stop.None? ==> pid in t.gate.departures && t.gate.departures[pid] != DepartureFailed)
  {
    hide Tickets, Held, Drains, Tasked;
  }

  lemma StopPromises(s: State, pid: Pid)
    requires Safe(s)
    ensures var t := StopCall(s);
      && ShutOut(t.gate, t.submits, pid) && TurnedAway(t.gate, t.table.turns, pid)
      && t.gate.stop.Some? && t.gate.stop != Some(StopFailed)
  {
    StopCallSafe(s);
    hide Held, Drains, Tasked;
    assert Tickets(StopCall(s).gate, StopCall(s).submits);
  }

  /** Nobody current waits for a departing participant. */
  lemma DepartingIsShutOut(s: State, pid: Pid)
    requires Safe(s) && pid in s.gate.departures
    ensures ShutOut(s.gate, s.submits, pid)
  {
    hide Held, Drains, Tasked;
    assert forall c :: c in s.submits && CurrentSubmit(s.gate, s.submits[c]) ==> Ticket(s.gate, s.submits[c]);
  }

  /** After the drain, no turn of the participant is left. */
  lemma LockedIsQuiet(s: State, pid: Pid)
    requires Safe(s) && pid in s.gate.departures
    requires s.gate.departures[pid].Locking? || s.gate.departures[pid].Hooks?
    ensures Quiet(s.table.turns, pid)
  {
    assert DepartureDrains(s.table.turns, pid, s.gate.departures[pid]);
  }

  /** A hook that succeeds is released for the first time; what is owed, which is what was touched, stays. */
  ghost predicate HookPromised(s: State, t: State, touched: map<Pid, set<Destination>>, pid: Pid, d: Destination,
                               ok: bool)
  {
    && d in TouchedFor(touched, pid) && d !in ReleasedFor(s.duty, pid) && t.duty.owed == s.duty.owed
    && (if ok then ReleasedFor(t.duty, pid) == ReleasedFor(s.duty, pid) + [d] && d !in UsedBy(t.duty, pid)
        else t.duty == s.duty && d in UsedBy(t.duty, pid)
             && pid in t.gate.departures && t.gate.departures[pid].Hooks? && t.gate.departures[pid].errors)
  }

  lemma HookPromises(s: State, pid: Pid, d: Destination, ok: bool, touched: map<Pid, set<Destination>>)
    requires Dutiful(s) && AllAccount(s.duty, touched) && pid in s.gate.departures && s.gate.departures[pid].Hooks?
    requires d in s.gate.departures[pid].todo
    ensures HookPromised(s, HookEnd(s, pid, d, ok), touched, pid, d, ok)
  {
    assert HooksCover(s.duty, pid, s.gate.departures[pid]) && OwesRest(s.gate, s.table.turns, s.duty, pid);
    assert d !in Elements(ReleasedFor(s.duty, pid));
    HooksOweTouched(s, pid, touched);
    hide Dutiful, Quiet, AllAccount;
  }

  /** A departure completes only after the hook of everything touched succeeded, each once; then nothing is left. */
  lemma CompletionPromises(s: State, pid: Pid, touched: set<Destination>)
    requires Safe(s) && Dutiful(s) && Accounts(s.duty, pid, touched) && pid in s.gate.departures
    requires pid !in DepartureEnd(s, pid, true).gate.departures
    ensures Distinct(ReleasedFor(s.duty, pid)) && Elements(ReleasedFor(s.duty, pid)) == touched
    ensures var t := DepartureEnd(s, pid, true);
      Clean(t.gate, t.duty, pid) && pid !in t.gate.locks && ShutOut(t.gate, t.submits, pid)
  {
    CompletedIsClean(s, pid, true);
    DepartingIsShutOut(s, pid);
    assert HooksCover(s.duty, pid, s.gate.departures[pid]) && OwesRest(s.gate, s.table.turns, s.duty, pid);
    hide Safe, Dutiful, Clean;
  }

  /** A stop departs participants when no turn is left, and all but those who are clean already. */
  lemma CollectPromises(g: Gate, turns: map<nat, Turn>, d: Duty, pid: Pid)
    requires StopDrains(turns, g.stop) && Settles(g, d)
    requires g.stop.Some? && g.stop.value.Departing? && g.stop.value.waiting.None? && !g.stop.value.errors
    ensures forall t :: !Unfinished(turns, t)
    ensures pid !in g.stop.value.todo ==> Clean(g, d, pid)
  {
  }

  // Parts of the invariant.

  lemma SafeIsTasked(s: State)
    requires Safe(s)
    ensures Tasked(s.table)
  {
    hide Tasked, Orderly, Drains, FreshTurns;
  }

  lemma SafeStopDrains(s: State)
    requires Safe(s)
    ensures StopDrains(s.table.turns, s.gate.stop)
  {
    hide Tasked, Orderly, FreshTurns, SubmitsDrain, DeparturesDrain, StopDrains;
  }

  lemma SafeIsAlone(s: State, task: nat)
    requires Safe(s) && Unfinished(s.table.turns, task)
    ensures Alone(s.table.turns, task)
  {
    SafeIsTasked(s);
    hide Safe;
    UnfinishedIsAlone(s.table, task);
  }

  lemma AccountsFor(d: Duty, pid: Pid, touched: map<Pid, set<Destination>>)
    requires AllAccount(d, touched)
    ensures Accounts(d, pid, TouchedFor(touched, pid))
  {
    hide Accounts;
  }

  lemma HooksOweTouched(s: State, pid: Pid, touched: map<Pid, set<Destination>>)
    requires Dutiful(s) && AllAccount(s.duty, touched) && pid in s.gate.departures && s.gate.departures[pid].Hooks?
    ensures pid in s.duty.owed && s.duty.owed[pid] == TouchedFor(touched, pid)
  {
    AccountsFor(s.duty, pid, touched);
    assert HooksCover(s.duty, pid, s.gate.departures[pid]);
    hide Dutiful, AllAccount;
  }

  lemma ReleaseKeepsTurns(s: State, call: nat)
    requires Drained(s, call)
    ensures Release(s, call).table.turns == s.table.turns
    ensures Release(s, call).next == s.next
    ensures forall c: Submit :: Admitted(Release(s, call).gate, c.pid, c.lifecycle, c.epoch) <==>
      Admitted(s.gate, c.pid, c.lifecycle, c.epoch)
  {
  }

  lemma DepartureCompletes(s: State, pid: Pid, touched: map<Pid, set<Destination>>)
    requires Kept(s, touched) && HooksDone(s.gate, pid) && !s.gate.departures[pid].errors
    ensures Distinct(ReleasedFor(s.duty, pid)) && Elements(ReleasedFor(s.duty, pid)) == TouchedFor(touched, pid)
    ensures var t := DepartureEnd(s, pid, true);
      Clean(t.gate, t.duty, pid) && ShutOut(t.gate, t.submits, pid) && Kept(t, Without(touched, pid))
  {
    hide Safe, Dutiful, Settles, AllAccount, Accounts, Clean, ShutOut, Distinct, Elements, ReleasedFor, TouchedFor,
      CloseDuty;
    AccountsFor(s.duty, pid, touched);
    CompletionPromises(s, pid, TouchedFor(touched, pid));
    hide Kept;
    CompletionKept(s, pid, touched);
  }

  lemma DepartureFails(s: State, pid: Pid, ok: bool, touched: map<Pid, set<Destination>>)
    requires Kept(s, touched) && !(HooksDone(s.gate, pid) && !s.gate.departures[pid].errors && ok)
    ensures var t := DepartureEnd(s, pid, ok);
      && t.duty == s.duty && Kept(t, touched)
      && (HooksDone(s.gate, pid) ==> pid in t.gate.departures && t.gate.departures[pid] == DepartureFailed)
  {
    hide Kept;
    if HooksDone(s.gate, pid) { FailureKept(s, pid, ok, touched); }
  }

  lemma HookKept(s: State, pid: Pid, d: Destination, ok: bool, touched: map<Pid, set<Destination>>)
    requires Kept(s, touched)
    ensures Kept(HookEnd(s, pid, d, ok), touched)
  {
    hide Kept;
    DepartureKept(s, pid, HookEnds(d, ok), touched);
  }

  lemma DrainPromises(s: State, pid: Pid, touched: map<Pid, set<Destination>>)
    requires Kept(s, touched)
    ensures var t := DepartureDrain(s, pid);
      Kept(t, touched) && (pid in t.gate.departures && t.gate.departures[pid].Locking? ==> Quiet(t.table.turns, pid))
  {
    hide Safe, Dutiful, Settles, AllAccount, DepartureDrain, Quiet;
    DrainKept(s, pid, touched);
    var t := DepartureDrain(s, pid);
    if pid in t.gate.departures && t.gate.departures[pid].Locking? { LockedIsQuiet(t, pid); }
  }
}
