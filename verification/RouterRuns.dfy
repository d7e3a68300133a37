/**
 What every run of the router lifecycle guarantees: one turn per participant, no
 turn alive while departure hooks run, no stale turn that starts, and exactly one
 await through which an older turn still enters the routing.
 */
module RouterRuns {
  import opened Seqs
  import opened RouterLifecycle
  import opened RouterSafety

  ghost predicate Reachable(s: State) {
    exists es :: s == Run(Init, es)
  }

  lemma ReachableSafe(s: State)
    requires Reachable(s)
    ensures Safe(s)
  {
    var es :| s == Run(Init, es);
    RunSafe(Init, es);
  }

  // Theorem 1: a participant never has two unfinished turns.

  lemma OneTurnPerParticipant(s: State, t: nat, u: nat)
    requires Reachable(s) && Unfinished(s.table.turns, t) && Unfinished(s.table.turns, u)
    requires s.table.turns[t].pid == s.table.turns[u].pid
    ensures t == u && s.table.turns[t].pid in s.table.tasks && s.table.tasks[s.table.turns[t].pid] == t
  {
    ReachableSafe(s);
  }

  // Theorem 2: departure hooks run alone.

  lemma HooksRunAlone(s: State, pid: Pid)
    requires Reachable(s) && pid in s.gate.departures && s.gate.departures[pid].Hooks?
    ensures Quiet(s.table.turns, pid)
    ensures s.gate.departures[pid].lock in s.gate.holders
    ensures forall c :: c in s.submits && s.submits[c].pid == pid ==> !CurrentSubmit(s.gate, s.submits[c])
  {
    ReachableSafe(s);
    assert DepartureDrains(s.table.turns, pid, s.gate.departures[pid]);
    assert forall c :: c in s.submits && CurrentSubmit(s.gate, s.submits[c]) ==> Ticket(s.gate, s.submits[c]);
  }

  lemma StopDepartsAlone(s: State)
    requires Reachable(s) && s.gate.stop.Some? && s.gate.stop.value.Departing?
    ensures forall t :: !Unfinished(s.table.turns, t)
  {
    ReachableSafe(s);
  }

  // Theorem 3: whoever captured its tokens before a departure or a stop does not start after it.

  /** What a departure or a stop shuts out: everything older than the token it introduces. */
  datatype Bar = ByEpoch(pid: Pid, epoch: Token) | ByLifecycle(lifecycle: Token)

  predicate Barred(bar: Bar, t: Turn) {
    match bar
    case ByEpoch(pid, epoch) => t.pid == pid && t.epoch < epoch
    case ByLifecycle(lifecycle) => t.lifecycle < lifecycle
  }

  /** The bar is down: the gate carries no older token. */
  predicate Down(bar: Bar, g: Gate, next: Token) {
    match bar
    case ByEpoch(pid, epoch) => epoch < next && (pid in g.epochs ==> epoch <= g.epochs[pid])
    case ByLifecycle(lifecycle) => lifecycle <= g.lifecycle
  }

  /** The calls that lower a bar: `participant_left`, and `stop` unless one is already in progress. */
  ghost predicate Lowers(s: State, e: CallEvent, bar: Bar) {
    match e
    case Leaves(pid, _) => bar == ByEpoch(pid, s.next)
    case Stops => bar == ByLifecycle(s.next) && (s.gate.stop.None? || s.gate.stop == Some(StopFailed))
    case _ => false
  }

  predicate Begun(phase: TurnPhase) { phase == Reporting || phase == Handling }

  /** Barred turns of `are` that have begun had begun in `was` already. */
  ghost predicate NoneBegins(bar: Bar, was: map<nat, Turn>, are: map<nat, Turn>) {
    forall t :: t in are && Barred(bar, are[t]) && Begun(are[t].phase) ==>
      t in was && Barred(bar, was[t]) && Begun(was[t].phase)
  }

  lemma BarStaysOverSubmits(s: State, e: SubmitEvent, bar: Bar)
    requires Down(bar, s.gate, s.next)
    ensures Down(bar, SubmitStep(s, e).gate, SubmitStep(s, e).next)
  {
    match e
    case Begins(pid, reports) =>
    case Acquires(call) =>
    case DrainEnds(call) =>
    case CallerCancelled(call) =>
  }

  lemma BarStaysOverCalls(s: State, e: CallEvent, bar: Bar)
    requires Down(bar, s.gate, s.next) && FreshGate(s.gate, s.next)
    ensures Down(bar, CallStep(s, e).gate, CallStep(s, e).next)
  {
    match e
    case JoinBegins(pid) =>
    case JoinLocks(call) =>
    case JoinEnds(call) =>
    case Leaves(pid, topics) =>
    case Stops =>
  }

  lemma BarStaysOverDepartures(s: State, pid: Pid, e: DepartureEvent, bar: Bar)
    requires Down(bar, s.gate, s.next)
    ensures Down(bar, DepartureStep(s, pid, e).gate, DepartureStep(s, pid, e).next)
  {
    match e
    case DepartureBegins =>
    case DepartureDrainEnds =>
    case DepartureAcquires =>
    case HookEnds(d, ok) =>
    case DepartureEnds(ok) =>
  }

  lemma BarStaysOverStops(s: State, e: StopEvent, bar: Bar)
    requires Down(bar, s.gate, s.next)
    ensures Down(bar, StopStep(s, e).gate, StopStep(s, e).next)
  {
    match e
    case StopBegins =>
    case StopDrainEnds(others) =>
    case StopDeparts(pid) =>
    case StopAdvances =>
    case StopEnds =>
  }

  lemma BarStays(s: State, e: Event, bar: Bar)
    requires Down(bar, s.gate, s.next) && FreshGate(s.gate, s.next)
    ensures Down(bar, Step(s, e).gate, Step(s, e).next)
  {
    match e
    case OnTable(te) =>
    case OnWork(we) =>
    case OnSubmit(se) => BarStaysOverSubmits(s, se, bar);
    case OnCall(ce) => BarStaysOverCalls(s, ce, bar);
    case OnDeparture(pid, de) => BarStaysOverDepartures(s, pid, de, bar);
    case OnStop(se) => BarStaysOverStops(s, se, bar);
  }

  lemma TableBeginsNone(g: Gate, table: Table, e: TableEvent, next: Token, bar: Bar)
    requires Down(bar, g, next)
    ensures NoneBegins(bar, table.turns, TableStep(g, table, e).turns)
  {
    hide Without, InPhase, OwnsGeneration;
    match e
    case Starts(task) =>
      if task in table.turns {
        InPhaseBeginsNone(bar, table, task, Initializing);
        InPhaseBeginsNone(bar, table, task, Finished);
      }
    case Initialized(task) =>
      if task in table.turns && table.turns[task].phase == Initializing {
        CurrentIsNotBarred(bar, g, next, table.turns[task]);
        forall phase | !Begun(phase) || !Barred(bar, table.turns[task]) {
          InPhaseBeginsNone(bar, table, task, phase);
        }
      }
    case Reported(task, swallowed) =>
      if task in table.turns && table.turns[task].phase == Reporting {
        InPhaseBeginsNone(bar, table, task, Finished);
        InPhaseBeginsNone(bar, table, task, Handling);
      }
    case Ends(task) => if Unfinished(table.turns, task) { InPhaseBeginsNone(bar, table, task, Finished); }
    case Discarded(task) =>
    case Abandoned(task) =>
    case Interrupts(pid) =>
    case InterruptsAll =>
    case ForgetsFinished(pid) =>
  }

  lemma InPhaseBeginsNone(bar: Bar, table: Table, task: nat, phase: TurnPhase)
    requires task in table.turns
    requires Begun(phase) && Barred(bar, table.turns[task]) ==> Begun(table.turns[task].phase)
    ensures NoneBegins(bar, table.turns, InPhase(table, task, phase).turns)
  {
  }

  /** An admission check passes no barred turn. */
  lemma CurrentIsNotBarred(bar: Bar, g: Gate, next: Token, t: Turn)
    requires Down(bar, g, next)
    ensures Admitted(g, t.pid, t.lifecycle, t.epoch) ==> !Barred(bar, t)
  {
  }

  lemma CancelBeginsNone(bar: Bar, turns: map<nat, Turn>, targets: set<nat>)
    ensures NoneBegins(bar, turns, Cancel(turns, targets))
  {
  }

  lemma NewTurnBeginsNone(bar: Bar, turns: map<nat, Turn>, task: nat, t: Turn)
    requires t.phase == Created
    ensures NoneBegins(bar, turns, turns[task := t]) && NoneBegins(bar, turns, turns)
  {
  }

  lemma SubmitBeginsNone(s: State, e: SubmitEvent, bar: Bar)
    ensures NoneBegins(bar, s.table.turns, SubmitStep(s, e).table.turns)
  {
    hide Admitted, AllFinished, SetDefault, TaskOf, Drained, NoneBegins, Cancel, Forget;
    NewTurnBeginsNone(bar, s.table.turns, 0, Turn("", 0, 0, 0, false, Created, false));
    match e
    case Begins(pid, reports) =>
    case Acquires(call) =>
      if call in s.submits { CancelBeginsNone(bar, s.table.turns, TaskOf(s.table, s.submits[call].pid)); }
    case DrainEnds(call) =>
      if Drained(s, call) { DrainBeginsNone(s, call, bar); }
    case CallerCancelled(call) => AbandonKeepsTurns(s, call);
  }

  lemma AbandonKeepsTurns(s: State, call: nat)
    ensures SubmitAbandon(s, call).table.turns == s.table.turns
  {
  }

  lemma DrainBeginsNone(s: State, call: nat, bar: Bar)
    requires Drained(s, call)
    ensures NoneBegins(bar, s.table.turns, SubmitDone(s, call).table.turns)
  {
    hide Admitted, AllFinished, NoneBegins;
    var c := s.submits[call];
    var t := Turn(c.pid, c.lifecycle, c.epoch, s.next + 1, c.reports, Created, false);
    NewTurnBeginsNone(bar, s.table.turns, s.next, t);
  }

  lemma DepartureBeginsNone(s: State, pid: Pid, e: DepartureEvent, bar: Bar)
    ensures NoneBegins(bar, s.table.turns, DepartureStep(s, pid, e).table.turns)
  {
    match e
    case DepartureBegins =>
    case DepartureDrainEnds =>
    case DepartureAcquires =>
    case HookEnds(d, ok) =>
    case DepartureEnds(ok) =>
  }

  lemma StopBeginsNone(s: State, e: StopEvent, bar: Bar)
    ensures NoneBegins(bar, s.table.turns, StopStep(s, e).table.turns)
  {
    match e
    case StopBegins =>
    case StopDrainEnds(others) =>
    case StopDeparts(pid) =>
    case StopAdvances =>
    case StopEnds =>
  }

  lemma StepBeginsNone(s: State, e: Event, bar: Bar)
    requires Down(bar, s.gate, s.next)
    ensures NoneBegins(bar, s.table.turns, Step(s, e).table.turns)
  {
    match e
    case OnTable(te) => TableBeginsNone(s.gate, s.table, te, s.next, bar);
    case OnWork(we) =>
    case OnSubmit(se) => SubmitBeginsNone(s, se, bar);
    case OnCall(ce) =>
    case OnDeparture(pid, de) => DepartureBeginsNone(s, pid, de, bar);
    case OnStop(se) => StopBeginsNone(s, se, bar);
  }

  lemma {:induction false} RunBeginsNone(s: State, es: seq<Event>, bar: Bar)
    requires Down(bar, s.gate, s.next) && Safe(s)
    ensures NoneBegins(bar, s.table.turns, Run(s, es).table.turns)
    decreases |es|
  {
    if es != [] {
      var t := Step(s, es[0]);
      StepSafe(s, es[0]);
      BarStays(s, es[0], bar);
      StepBeginsNone(s, es[0], bar);
      RunBeginsNone(t, es[1..], bar);
    }
  }

  /**
   After a departure or a stop was called, a turn that captured its tokens
   before the call has passed its last admission check only if it had passed it
   before the call.
   */
  lemma StaleTurnsDoNotStart(s: State, e: CallEvent, bar: Bar, es: seq<Event>)
    requires Reachable(s) && Lowers(s, e, bar)
    ensures NoneBegins(bar, s.table.turns, Run(Step(s, OnCall(e)), es).table.turns)
  {
    ReachableSafe(s);
    StepSafe(s, OnCall(e));
    RunBeginsNone(Step(s, OnCall(e)), es, bar);
  }

  /**
   Entering the routing itself is another matter: a runtime turn awaits the
   status callback after its last check. Older turns stay out of the routing
   from the call on if and only if none of them is in that await.
   */
  lemma StatusAwaitIsTheOnlyGap(s: State, e: CallEvent, bar: Bar)
    requires Reachable(s) && Lowers(s, e, bar)
    ensures
      (forall es: seq<Event>, t: nat | t in Run(Step(s, OnCall(e)), es).table.turns ::
         var turns := Run(Step(s, OnCall(e)), es).table.turns;
         Barred(bar, turns[t]) && turns[t].phase == Handling ==>
           t in s.table.turns && s.table.turns[t].phase == Handling)
      <==> (forall t :: t in s.table.turns && Barred(bar, s.table.turns[t]) ==> s.table.turns[t].phase != Reporting)
  {
    var s' := Step(s, OnCall(e));
    ReachableSafe(s);
    forall es: seq<Event> ensures NoneBegins(bar, s.table.turns, Run(s', es).table.turns) {
      StaleTurnsDoNotStart(s, e, bar, es);
    }
    if t :| t in s.table.turns && Barred(bar, s.table.turns[t]) && s.table.turns[t].phase == Reporting {
      ReportedEnters(s', t);
      var es := [OnTable(Reported(t, true))];
      assert t in Run(s', es).table.turns;
    }
  }

  lemma ReportedEnters(s: State, t: nat)
    requires t in s.table.turns && s.table.turns[t].phase == Reporting
    ensures var turns := Run(s, [OnTable(Reported(t, true))]).table.turns;
      t in turns && turns[t] == s.table.turns[t].(phase := Handling)
  {
    var e := OnTable(Reported(t, true));
    assert [e][1..] == [] && Run(Step(s, e), []) == Step(s, e);
  }

  // A router without a status callback has no gap.

  /** No turn of the run reports: no status callback is configured, or none came over the runtime. */
  predicate Silent(e: Event) {
    e.OnSubmit? && e.submit.Begins? ==> !e.submit.reports
  }

  ghost predicate NoneReports(s: State) {
    && (forall c :: c in s.submits ==> !s.submits[c].reports)
    && (forall t :: t in s.table.turns ==> !s.table.turns[t].reports && s.table.turns[t].phase != Reporting)
  }

  ghost predicate SilentTurns(turns: map<nat, Turn>) {
    forall t :: t in turns ==> !turns[t].reports && turns[t].phase != Reporting
  }

  lemma SilentTable(g: Gate, table: Table, e: TableEvent)
    requires SilentTurns(table.turns)
    ensures SilentTurns(TableStep(g, table, e).turns)
  {
    hide Without, OwnsGeneration, Admitted;
    match e
    case Starts(task) =>
    case Initialized(task) =>
    case Reported(task, swallowed) =>
    case Ends(task) =>
    case Discarded(task) =>
    case Abandoned(task) =>
    case Interrupts(pid) =>
    case InterruptsAll =>
    case ForgetsFinished(pid) =>
  }

  lemma SilentSubmit(s: State, e: SubmitEvent)
    requires NoneReports(s) && Silent(OnSubmit(e))
    ensures NoneReports(SubmitStep(s, e))
  {
    hide Admitted, AllFinished, SetDefault;
    match e
    case Begins(pid, reports) =>
    case Acquires(call) =>
    case DrainEnds(call) =>
    case CallerCancelled(call) =>
  }

  lemma SilentDeparture(s: State, pid: Pid, e: DepartureEvent)
    requires NoneReports(s)
    ensures NoneReports(DepartureStep(s, pid, e))
  {
    hide AllFinished, SetDefault, UsedBy, FocusOf;
    match e
    case DepartureBegins =>
    case DepartureDrainEnds =>
    case DepartureAcquires =>
    case HookEnds(d, ok) =>
    case DepartureEnds(ok) =>
  }

  lemma SilentStep(s: State, e: Event)
    requires NoneReports(s) && Silent(e)
    ensures NoneReports(Step(s, e))
  {
    match e
    case OnTable(te) =>
      assert SilentTurns(s.table.turns);
      SilentTable(s.gate, s.table, te);
      hide TableStep;
    case OnWork(we) =>
    case OnSubmit(se) => SilentSubmit(s, se);
    case OnCall(ce) =>
    case OnDeparture(pid, de) => SilentDeparture(s, pid, de);
    case OnStop(se) =>
  }

  lemma {:induction false} SilentRun(s: State, es: seq<Event>)
    requires NoneReports(s) && forall e :: e in es ==> Silent(e)
    ensures NoneReports(Run(s, es))
    decreases |es|
  {
    hide NoneReports, Silent;
    if es != [] {
      SilentStep(s, es[0]);
      SilentRun(Step(s, es[0]), es[1..]);
    }
  }

  /**
   As long as no turn reports a status, which a router without the callback never
   has, an older turn enters the routing after the call in no continuation.
   */
  lemma NoCallbackNoGap(before: seq<Event>, e: CallEvent, bar: Bar, es: seq<Event>, t: nat)
    requires (forall b :: b in before ==> Silent(b)) && Lowers(Run(Init, before), e, bar)
    requires var turns := Run(Step(Run(Init, before), OnCall(e)), es).table.turns;
      t in turns && Barred(bar, turns[t]) && turns[t].phase == Handling
    ensures var turns := Run(Init, before).table.turns;
      t in turns && turns[t].phase == Handling
  {
    var s := Run(Init, before);
    assert Reachable(s);
    SilentRun(Init, before);
    StaleTurnsDoNotStart(s, e, bar, es);
    hide Run, Step, Reachable, Lowers, Silent;
  }

  /** The gap is real: a runtime turn reaches the status await in five steps. */
  const ToStatusAwait: seq<Event> := [
    OnSubmit(Begins("p", true)), OnSubmit(Acquires(3)), OnSubmit(DrainEnds(3)),
    OnTable(Starts(4)), OnTable(Initialized(4))]

  lemma {:induction false} RunConcat(s: State, es: seq<Event>, fs: seq<Event>)
    ensures Run(s, es + fs) == Run(Run(s, es), fs)
    decreases |es|
  {
    if es == [] {
      assert es + fs == fs;
    } else {
      assert (es + fs)[1..] == es[1..] + fs;
      RunConcat(Step(s, es[0]), es[1..], fs);
    }
  }

  lemma RunPrefix(es: seq<Event>, k: nat)
    requires k < |es|
    ensures Run(Init, es[..k + 1]) == Step(Run(Init, es[..k]), es[k])
  {
    assert es[..k + 1] == es[..k] + [es[k]];
    RunConcat(Init, es[..k], [es[k]]);
    var s := Run(Init, es[..k]);
    assert [es[k]][1..] == [] && Run(Step(s, es[k]), []) == Step(s, es[k]);
  }

  lemma StatusAwaitTurnExists()
    ensures var s := Run(Init, ToStatusAwait[..3]);
      && 4 in s.table.turns && s.table.turns[4] == Turn("p", 0, 1, 5, true, Created, false)
      && "p" in s.table.generation && s.table.generation["p"] == 5 && Admitted(s.gate, "p", 0, 1)
  {
    assert Run(Init, ToStatusAwait[..0]) == Init;
    hide Run;
    RunPrefix(ToStatusAwait, 0);
    var s1 := Run(Init, ToStatusAwait[..1]);
    assert s1.gate.epochs == map["p" := 1] && s1.gate.locks == map["p" := 2] && s1.next == 4;
    assert s1.submits == map[3 := Submit("p", 0, 1, 2, true, Waiting)];
    RunPrefix(ToStatusAwait, 1);
    assert Run(Init, ToStatusAwait[..2]).submits[3] == Submit("p", 0, 1, 2, true, Draining({}));
    RunPrefix(ToStatusAwait, 2);
  }

  lemma StatusAwaitIsReachable()
    ensures var s := Run(Init, ToStatusAwait);
      && 4 in s.table.turns && s.table.turns[4].phase == Reporting && s.table.turns[4].pid == "p"
      && Admitted(s.gate, "p", s.table.turns[4].lifecycle, s.table.turns[4].epoch)
  {
    StatusAwaitTurnExists();
    hide Run;
    RunPrefix(ToStatusAwait, 3);
    RunPrefix(ToStatusAwait, 4);
    assert ToStatusAwait[..5] == ToStatusAwait;
  }
}
