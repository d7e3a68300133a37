/**
 What departures owe, over whole runs: exactly the destinations that turns used
 or focused since the participant's last completed departure, and nothing any
 more once a stop reopens admission.
 */
module RouterSettling {
  import opened Seqs
  import opened RouterLifecycle
  import opened RouterSafety
  import opened RouterRuns
  import opened RouterDuties

  // The destinations that turns touched.

  /** The step has turn `task` mark or focus `destination` for `pid`. */
  predicate Touches(s: State, e: Event, pid: Pid, destination: Destination) {
    && e.OnWork? && !e.work.Unfocuses? && e.work.destination == destination
    && e.work.task in s.table.turns && s.table.turns[e.work.task].phase == Handling
    && s.table.turns[e.work.task].pid == pid && OwnsGeneration(s.table, s.table.turns[e.work.task])
    && (e.work.Focuses? ==> destination in UsedBy(s.duty, pid))
  }

  /** The step completes a departure of `pid`. */
  predicate Departs(s: State, e: Event, pid: Pid) {
    pid in s.gate.departures && pid !in Step(s, e).gate.departures
  }

  function TouchedBy(s: State, e: Event, pid: Pid, before: set<Destination>): set<Destination> {
    if Departs(s, e, pid) then {}
    else if e.OnWork? && !e.work.Unfocuses? && Touches(s, e, pid, e.work.destination) then before + {e.work.destination}
    else before
  }

  /** The destinations touched since the last completed departure, in a run that starts with `before`. */
  function Touched(s: State, es: seq<Event>, pid: Pid, before: set<Destination>): set<Destination>
    decreases |es|
  {
    if es == [] then before else Touched(Step(s, es[0]), es[1..], pid, TouchedBy(s, es[0], pid, before))
  }

  /** What a participant owes, or would owe, is what was touched. */
  ghost predicate Accounts(d: Duty, pid: Pid, touched: set<Destination>) {
    && (if pid in d.owed then d.owed[pid] == touched else UsedBy(d, pid) == touched)
    && (pid in d.focus ==> d.focus[pid] in UsedBy(d, pid))
  }

  lemma WorkAccounts(s: State, e: WorkEvent, pid: Pid, touched: set<Destination>)
    requires Dutiful(s) && Accounts(s.duty, pid, touched)
    ensures Accounts(WorkStep(s.table, s.duty, e), pid, TouchedBy(s, OnWork(e), pid, touched))
  {
    if e.task in s.table.turns && s.table.turns[e.task].phase == Handling && s.table.turns[e.task].pid == pid {
      assert Unfinished(s.table.turns, e.task);
      assert pid in s.duty.owed ==> OwesRest(s.gate, s.table.turns, s.duty, pid);
    }
  }

  lemma SameDutyAccounts(s: State, e: Event, pid: Pid, touched: set<Destination>)
    requires Accounts(s.duty, pid, touched) && Step(s, e).duty == s.duty
    requires !e.OnWork? && !Departs(s, e, pid)
    ensures Accounts(Step(s, e).duty, pid, TouchedBy(s, e, pid, touched))
  {
  }

  lemma SubmitKeepsDuty(s: State, e: SubmitEvent)
    ensures SubmitStep(s, e).duty == s.duty
  {
    hide Cancel, Admitted, Forget;
  }

  lemma CallKeepsDuty(s: State, e: CallEvent)
    ensures CallStep(s, e).duty == s.duty
  {
    hide Current;
  }

  lemma StopKeepsDuty(s: State, e: StopEvent)
    ensures StopStep(s, e).duty == s.duty
  {
    hide InterruptEvery, ForgetAll, StopDepart, StopNext, StopEnd;
  }

  /** A departure that acquires its lock owes everything touched, unless it owes that already. */
  lemma AcquireAccounts(s: State, other: Pid, pid: Pid, touched: set<Destination>)
    requires Accounts(s.duty, pid, touched)
    ensures Accounts(DepartureAcquire(s, other).duty, pid, touched)
  {
  }

  lemma HookEndAccounts(s: State, other: Pid, d: Destination, ok: bool, pid: Pid, touched: set<Destination>)
    requires Dutiful(s) && Accounts(s.duty, pid, touched)
    ensures Accounts(HookEnd(s, other, d, ok).duty, pid, touched)
  {
    if other in s.gate.departures && s.gate.departures[other].Hooks? {
      assert HooksCover(s.duty, other, s.gate.departures[other]);
      assert OwesRest(s.gate, s.table.turns, s.duty, other);
    }
    hide Dutiful, OwesRest;
  }

  lemma EndAccounts(s: State, other: Pid, ok: bool, pid: Pid, touched: set<Destination>)
    requires Dutiful(s) && Accounts(s.duty, pid, touched)
    ensures Accounts(DepartureEnd(s, other, ok).duty, pid,
                     if pid in s.gate.departures && pid !in DepartureEnd(s, other, ok).gate.departures then {}
                     else touched)
  {
    if HooksDone(s.gate, other) {
      assert HooksCover(s.duty, other, s.gate.departures[other]);
      assert OwesRest(s.gate, s.table.turns, s.duty, other);
    }
    hide Dutiful, OwesRest;
  }

  lemma DepartureAccounts(s: State, other: Pid, e: DepartureEvent, pid: Pid, touched: set<Destination>)
    requires Dutiful(s) && Accounts(s.duty, pid, touched)
    ensures Accounts(DepartureStep(s, other, e).duty, pid, TouchedBy(s, OnDeparture(other, e), pid, touched))
  {
    if Departs(s, OnDeparture(other, e), pid) { OtherDepartureKeeps(s, other, e, pid); }
    hide Dutiful, Accounts, DepartureAcquire, HookEnd, DepartureEnd, Forget, InterruptOne;
    match e
    case DepartureBegins =>
    case DepartureDrainEnds =>
    case DepartureAcquires => AcquireAccounts(s, other, pid, touched);
    case HookEnds(d, ok) => HookEndAccounts(s, other, d, ok, pid, touched);
    case DepartureEnds(ok) => EndAccounts(s, other, ok, pid, touched);
  }

  lemma StepAccounts(s: State, e: Event, pid: Pid, touched: set<Destination>)
    requires Dutiful(s) && Accounts(s.duty, pid, touched)
    ensures Accounts(Step(s, e).duty, pid, TouchedBy(s, e, pid, touched))
  {
    if !e.OnDeparture? && Departs(s, e, pid) {
      OnlyDepartureEndCloses(s, e, pid);
    }
    hide Dutiful, Accounts, SubmitStep, CallStep, StopStep, TableStep, WorkStep, DepartureStep;
    match e
    case OnTable(te) =>
    case OnWork(we) => WorkAccounts(s, we, pid, touched);
    case OnSubmit(se) => SubmitKeepsDuty(s, se); SameDutyAccounts(s, e, pid, touched);
    case OnCall(ce) => CallKeepsDuty(s, ce); SameDutyAccounts(s, e, pid, touched);
    case OnDeparture(other, de) => DepartureAccounts(s, other, de, pid, touched);
    case OnStop(se) => StopKeepsDuty(s, se); SameDutyAccounts(s, e, pid, touched);
  }

  lemma {:induction false} RunAccounts(s: State, es: seq<Event>, pid: Pid, touched: set<Destination>)
    requires Dutiful(s) && Safe(s) && Accounts(s.duty, pid, touched)
    ensures Accounts(Run(s, es).duty, pid, Touched(s, es, pid, touched))
    decreases |es|
  {
    hide Dutiful, Safe, Accounts;
    if es != [] {
      StepAccounts(s, es[0], pid, touched);
      StepDutiful(s, es[0]);
      StepSafe(s, es[0]);
      RunAccounts(Step(s, es[0]), es[1..], pid, TouchedBy(s, es[0], pid, touched));
    }
  }

  /**
   When a departure's hooks first run, it owes exactly the destinations that the
   participant's turns used or focused since its last completed departure.
   */
  lemma DepartureOwesWhatWasTouched(es: seq<Event>, pid: Pid)
    requires var s := Run(Init, es);
      pid in s.gate.departures && s.gate.departures[pid].Locking? && s.gate.departures[pid].lock !in s.gate.holders
    ensures var d := DepartureAcquire(Run(Init, es), pid).duty;
      pid in d.owed && d.owed[pid] == Touched(Init, es, pid, {})
  {
    RunAccounts(Init, es, pid, {});
    AcquireAccounts(Run(Init, es), pid, pid, Touched(Init, es, pid, {}));
  }

  /** And when it completes, the hook of each of them succeeded exactly once since. */
  lemma DepartureReleasesWhatWasTouched(es: seq<Event>, e: Event, pid: Pid)
    requires Departs(Run(Init, es), e, pid)
    ensures var s := Run(Init, es);
      Distinct(ReleasedFor(s.duty, pid)) && Elements(ReleasedFor(s.duty, pid)) == Touched(Init, es, pid, {})
  {
    var s := Run(Init, es);
    assert Reachable(s);
    RunAccounts(Init, es, pid, {});
    ReopensOnlyAfterEveryHook(s, e, pid);
  }

  // A stop.

  /** Nothing of the participant is left to clean up. */
  ghost predicate Clean(g: Gate, d: Duty, pid: Pid) {
    UsedBy(d, pid) == {} && pid !in d.focus && pid !in d.owed && pid !in g.departures
  }

  /** Whoever a stop no longer has on its list is clean, or is the one it waits for; unless something failed. */
  ghost predicate Settles(g: Gate, d: Duty) {
    g.stop.Some? && g.stop.value.Departing? && !g.stop.value.errors ==>
      forall pid :: pid !in g.stop.value.todo ==>
        Clean(g, d, pid) || (g.stop.value.waiting == Some(pid) && pid in g.departures)
  }

  lemma WorkSettles(s: State, e: WorkEvent)
    requires Safe(s) && Settles(s.gate, s.duty)
    ensures Settles(s.gate, WorkStep(s.table, s.duty, e))
  {
    if e.task in s.table.turns && s.table.turns[e.task].phase == Handling {
      assert Unfinished(s.table.turns, e.task);
      hide Clean;
      assert !(s.gate.stop.Some? && s.gate.stop.value.Departing?);
    }
  }

  lemma SubmitSettles(s: State, e: SubmitEvent)
    requires Settles(s.gate, s.duty)
    ensures Settles(SubmitStep(s, e).gate, SubmitStep(s, e).duty)
  {
    SubmitKeepsDuty(s, e);
    SubmitKeepsDepartures(s, e);
    SubmitKeepsStop(s, e);
    hide SubmitStep;
  }

  lemma SubmitKeepsStop(s: State, e: SubmitEvent)
    ensures SubmitStep(s, e).gate.stop == s.gate.stop
  {
    hide Cancel, Admitted, Forget;
  }

  lemma CallSettles(s: State, e: CallEvent)
    requires Settles(s.gate, s.duty)
    ensures Settles(CallStep(s, e).gate, CallStep(s, e).duty)
  {
    hide Clean, Current;
    var g, g' := s.gate, CallStep(s, e).gate;
    CallKeepsDuty(s, e);
    assert g.stop.Some? && g.stop.value.Departing? ==> g'.stop == g.stop && g'.departures == g.departures;
    assert g'.stop.Some? && g'.stop.value.Departing? ==> g.stop == g'.stop;
    SameDeparturesSettle(g, g', s.duty);
  }

  lemma SameDeparturesSettle(g: Gate, g': Gate, d: Duty)
    requires Settles(g, d) && (g'.stop.Some? && g'.stop.value.Departing? ==> g'.stop == g.stop)
    requires g.stop.Some? && g.stop.value.Departing? ==> g'.departures == g.departures
    ensures Settles(g', d)
  {
  }

  /** A completed departure leaves its participant clean. */
  lemma CompletedIsClean(s: State, pid: Pid, ok: bool)
    requires Dutiful(s) && pid in s.gate.departures && pid !in DepartureEnd(s, pid, ok).gate.departures
    ensures Clean(DepartureEnd(s, pid, ok).gate, DepartureEnd(s, pid, ok).duty, pid)
  {
    assert HooksCover(s.duty, pid, s.gate.departures[pid]) && OwesRest(s.gate, s.table.turns, s.duty, pid);
  }

  lemma HookEndUnconcerned(s: State, pid: Pid, d: Destination, ok: bool)
    ensures Apart(s.duty, HookEnd(s, pid, d, ok).duty, pid)
    ensures Beside(s.gate.departures, HookEnd(s, pid, d, ok).gate.departures, pid)
  {
    HookIsApart(s.duty, pid, d);
    assert Apart(s.duty, s.duty, pid);
    hide Apart, HookDuty;
  }

  lemma DepartureEndUnconcerned(s: State, pid: Pid, ok: bool)
    ensures Apart(s.duty, DepartureEnd(s, pid, ok).duty, pid)
    ensures Beside(s.gate.departures, DepartureEnd(s, pid, ok).gate.departures, pid)
  {
    CloseIsApart(s.duty, pid);
    assert Apart(s.duty, s.duty, pid);
    hide Apart, CloseDuty;
  }

  lemma AcquireUnconcerned(s: State, pid: Pid)
    ensures Apart(s.duty, DepartureAcquire(s, pid).duty, pid)
    ensures Beside(s.gate.departures, DepartureAcquire(s, pid).gate.departures, pid)
  {
    AcquireIsApart(s.duty, pid);
    assert Apart(s.duty, s.duty, pid);
    hide Apart, AcquireDuty;
  }

  /** A departure's steps concern its own participant. */
  lemma OthersUnconcerned(s: State, pid: Pid, e: DepartureEvent)
    ensures Apart(s.duty, DepartureStep(s, pid, e).duty, pid)
    ensures Beside(s.gate.departures, DepartureStep(s, pid, e).gate.departures, pid)
  {
    assert Apart(s.duty, s.duty, pid);
    hide Forget, Apart, DepartureAcquire, HookEnd, DepartureEnd, InterruptOne;
    match e
    case DepartureBegins =>
    case DepartureDrainEnds =>
    case DepartureAcquires => AcquireUnconcerned(s, pid);
    case HookEnds(d, ok) => HookEndUnconcerned(s, pid, d, ok);
    case DepartureEnds(ok) => DepartureEndUnconcerned(s, pid, ok);
  }

  lemma DepartureKeepsStop(s: State, pid: Pid, e: DepartureEvent)
    ensures DepartureStep(s, pid, e).gate.stop == s.gate.stop
    ensures pid !in s.gate.departures ==> DepartureStep(s, pid, e) == s
  {
    hide Forget, Cancel;
  }

  lemma OthersStayClean(g: Gate, d: Duty, g': Gate, d': Duty, pid: Pid)
    requires Apart(d, d', pid) && Beside(g.departures, g'.departures, pid)
    ensures forall other :: other != pid ==> (Clean(g', d', other) <==> Clean(g, d, other))
    ensures forall other :: other != pid ==> (other in g'.departures <==> other in g.departures)
  {
    hide UsedBy;
  }

  lemma DepartureSettles(s: State, pid: Pid, e: DepartureEvent)
    requires Dutiful(s) && Settles(s.gate, s.duty)
    ensures Settles(DepartureStep(s, pid, e).gate, DepartureStep(s, pid, e).duty)
  {
    hide Dutiful, DepartureStep, Apart, Beside, UsedBy, Clean;
    var t := DepartureStep(s, pid, e);
    DepartureKeepsStop(s, pid, e);
    if pid in s.gate.departures && pid !in t.gate.departures {
      OtherDepartureKeeps(s, pid, e, pid);
      CompletedIsClean(s, pid, true);
      assert Clean(t.gate, t.duty, pid) by { CompletesByItself(s, pid, e); }
    }
    OthersUnconcerned(s, pid, e);
    OthersStayClean(s.gate, s.duty, t.gate, t.duty, pid);
    CleanIsClosed(s.gate, s.duty, pid);
  }

  lemma CompletesByItself(s: State, pid: Pid, e: DepartureEvent)
    ensures e == DepartureEnds(true) ==> DepartureStep(s, pid, e) == DepartureEnd(s, pid, true)
  {
  }

  lemma CleanIsClosed(g: Gate, d: Duty, pid: Pid)
    ensures Clean(g, d, pid) ==> pid !in g.departures
  {
  }

  lemma StopSettles(s: State, e: StopEvent)
    requires Dutiful(s) && Settles(s.gate, s.duty)
    ensures Settles(StopStep(s, e).gate, StopStep(s, e).duty)
  {
    match e
    case StopBegins => hide Clean;
    case StopDrainEnds(others) => DrainSettles(s, others);
    case StopDeparts(pid) => hide Dutiful;
    case StopAdvances => hide Dutiful;
    case StopEnds => hide Dutiful, Clean;
  }

  lemma DrainSettles(s: State, others: set<Pid>)
    requires Dutiful(s) && Settles(s.gate, s.duty)
    ensures Settles(StopDrain(s, others).gate, s.duty)
  {
    var g := StopDrain(s, others).gate;
    if g != s.gate {
      forall pid | pid !in g.stop.value.todo ensures Clean(g, s.duty, pid) {
        assert pid in s.duty.owed ==> OwesRest(s.gate, s.table.turns, s.duty, pid);
      }
    }
  }

  lemma StepSettles(s: State, e: Event)
    requires Safe(s) && Dutiful(s) && Settles(s.gate, s.duty)
    ensures Settles(Step(s, e).gate, Step(s, e).duty)
  {
    hide Safe, Dutiful, Settles, SubmitStep, CallStep, StopStep, TableStep, WorkStep, DepartureStep;
    match e
    case OnTable(te) =>
    case OnWork(we) => WorkSettles(s, we);
    case OnSubmit(se) => SubmitSettles(s, se);
    case OnCall(ce) => CallSettles(s, ce);
    case OnDeparture(pid, de) => DepartureSettles(s, pid, de);
    case OnStop(se) => StopSettles(s, se);
  }

  lemma {:induction false} RunSettles(s: State, es: seq<Event>)
    requires Safe(s) && Dutiful(s) && Settles(s.gate, s.duty)
    ensures Settles(Run(s, es).gate, Run(s, es).duty)
    decreases |es|
  {
    hide Safe, Dutiful, Settles;
    if es != [] {
      StepSettles(s, es[0]);
      StepSafe(s, es[0]);
      StepDutiful(s, es[0]);
      RunSettles(Step(s, es[0]), es[1..]);
    }
  }

  lemma SettledStopIsClean(g: Gate, d: Duty)
    requires Settles(g, d) && g.stop.Some? && StopEnd(g).stop.None?
    ensures forall pid :: Clean(StopEnd(g), d, pid)
    ensures StopEnd(g).departed == {} && StopEnd(g).departures == map[]
  {
    assert forall pid :: Clean(g, d, pid) ==> Clean(StopEnd(g), d, pid);
    assert forall pid :: Clean(g, d, pid) ==> pid !in g.departures;
    hide Clean;
  }

  /**
   When a stop ends and reopens admission, nobody has a used or focused
   destination, an owed hook or an open departure, whatever failed and was
   retried before.
   */
  lemma CleanStopOwesNothing(s: State)
    requires Reachable(s) && s.gate.stop.Some? && StopEnd(s.gate).stop.None?
    ensures forall pid :: Clean(StopEnd(s.gate), s.duty, pid)
    ensures StopEnd(s.gate).departed == {} && StopEnd(s.gate).departures == map[]
  {
    var es :| s == Run(Init, es);
    RunSettles(Init, es);
    hide Run, Settles, Clean, StopEnd;
    SettledStopIsClean(s.gate, s.duty);
  }

  // Everything a router keeps, with what was touched recorded along the way.

  function TouchedFor(touched: map<Pid, set<Destination>>, pid: Pid): set<Destination> {
    if pid in touched then touched[pid] else {}
  }

  function TouchedNext(s: State, e: Event, touched: map<Pid, set<Destination>>): map<Pid, set<Destination>> {
    match e
    case OnWork(we) =>
      if we.task in s.table.turns && !we.Unfocuses? && Touches(s, e, s.table.turns[we.task].pid, we.destination)
      then
        var pid := s.table.turns[we.task].pid;
        touched[pid := TouchedFor(touched, pid) + {we.destination}]
      else touched
    case OnDeparture(pid, _) => if Departs(s, e, pid) then Without(touched, pid) else touched
    case _ => touched
  }

  ghost predicate AllAccount(d: Duty, touched: map<Pid, set<Destination>>) {
    forall pid :: Accounts(d, pid, TouchedFor(touched, pid))
  }

  ghost predicate Kept(s: State, touched: map<Pid, set<Destination>>) {
    Safe(s) && Dutiful(s) && Settles(s.gate, s.duty) && AllAccount(s.duty, touched)
  }

  lemma TouchedNextIs(s: State, e: Event, touched: map<Pid, set<Destination>>, pid: Pid)
    ensures TouchedFor(TouchedNext(s, e, touched), pid) == TouchedBy(s, e, pid, TouchedFor(touched, pid))
  {
    if Departs(s, e, pid) { OnlyDepartureEndCloses(s, e, pid); }
    hide Step, OwnsGeneration, UsedBy;
  }

  lemma StepKept(s: State, e: Event, touched: map<Pid, set<Destination>>)
    requires Kept(s, touched)
    ensures Kept(Step(s, e), TouchedNext(s, e, touched))
  {
    hide Safe, Dutiful, Settles, Accounts, Step, TouchedNext, TouchedFor, TouchedBy;
    StepSafe(s, e);
    StepDutiful(s, e);
    StepSettles(s, e);
    forall pid ensures Accounts(Step(s, e).duty, pid, TouchedFor(TouchedNext(s, e, touched), pid)) {
      StepAccounts(s, e, pid, TouchedFor(touched, pid));
      TouchedNextIs(s, e, touched, pid);
    }
  }

  lemma InitKept()
    ensures Kept(Init, map[])
  {
  }

  lemma TableKept(s: State, e: TableEvent, touched: map<Pid, set<Destination>>)
    requires Kept(s, touched)
    ensures Kept(s.(table := TableStep(s.gate, s.table, e)), touched)
  {
    hide Kept, TableStep;
    StepKept(s, OnTable(e), touched);
  }

  lemma WorkKept(s: State, e: WorkEvent, touched: map<Pid, set<Destination>>)
    requires Kept(s, touched)
    ensures Kept(s.(duty := WorkStep(s.table, s.duty, e)), TouchedNext(s, OnWork(e), touched))
  {
    hide Kept, WorkStep, TouchedNext;
    StepKept(s, OnWork(e), touched);
  }

  lemma SubmitKept(s: State, e: SubmitEvent, touched: map<Pid, set<Destination>>)
    requires Kept(s, touched)
    ensures Kept(SubmitStep(s, e), touched)
  {
    hide Kept, SubmitStep;
    StepKept(s, OnSubmit(e), touched);
  }

  lemma CallKept(s: State, e: CallEvent, touched: map<Pid, set<Destination>>)
    requires Kept(s, touched)
    ensures Kept(CallStep(s, e), touched)
  {
    hide Kept, CallStep;
    StepKept(s, OnCall(e), touched);
  }

  lemma DepartureKept(s: State, pid: Pid, e: DepartureEvent, touched: map<Pid, set<Destination>>)
    requires Kept(s, touched)
    requires pid in s.gate.departures ==> pid in DepartureStep(s, pid, e).gate.departures
    ensures Kept(DepartureStep(s, pid, e), touched)
  {
    hide Kept, DepartureStep;
    StepKept(s, OnDeparture(pid, e), touched);
  }

  lemma CompletionKept(s: State, pid: Pid, touched: map<Pid, set<Destination>>)
    requires Kept(s, touched) && pid in s.gate.departures && pid !in DepartureEnd(s, pid, true).gate.departures
    ensures Kept(DepartureEnd(s, pid, true), Without(touched, pid))
  {
    hide Kept, DepartureEnd, Without;
    StepKept(s, OnDeparture(pid, DepartureEnds(true)), touched);
  }

  lemma StopKept(s: State, e: StopEvent, touched: map<Pid, set<Destination>>)
    requires Kept(s, touched)
    ensures Kept(StopStep(s, e), touched)
  {
    hide Kept, StopStep;
    StepKept(s, OnStop(e), touched);
  }

  lemma BeginKept(s: State, pid: Pid, reports: bool, touched: map<Pid, set<Destination>>)
    requires Kept(s, touched)
    ensures Kept(SubmitBegin(s, pid, reports), touched)
  {
    hide Kept;
    SubmitKept(s, Begins(pid, reports), touched);
  }

  lemma AcquireKept(s: State, call: nat, touched: map<Pid, set<Destination>>)
    requires Kept(s, touched)
    ensures Kept(SubmitAcquire(s, call), touched)
  {
    hide Kept;
    SubmitKept(s, Acquires(call), touched);
  }

  lemma JoinBeginKept(s: State, pid: Pid, touched: map<Pid, set<Destination>>)
    requires Kept(s, touched)
    ensures Kept(JoinBegin(s, pid), touched)
  {
    hide Kept;
    CallKept(s, JoinBegins(pid), touched);
  }

  lemma DrainKept(s: State, pid: Pid, touched: map<Pid, set<Destination>>)
    requires Kept(s, touched)
    ensures Kept(DepartureDrain(s, pid), touched)
  {
    hide Kept;
    DepartureKept(s, pid, DepartureDrainEnds, touched);
  }

  lemma HooksKept(s: State, pid: Pid, touched: map<Pid, set<Destination>>)
    requires Kept(s, touched)
    ensures Kept(DepartureAcquire(s, pid), touched)
  {
    hide Kept;
    DepartureKept(s, pid, DepartureAcquires, touched);
  }

  lemma FailureKept(s: State, pid: Pid, ok: bool, touched: map<Pid, set<Destination>>)
    requires Kept(s, touched) && HooksDone(s.gate, pid) && (s.gate.departures[pid].errors || !ok)
    ensures Kept(DepartureEnd(s, pid, ok), touched)
  {
    hide Kept;
    DepartureKept(s, pid, DepartureEnds(ok), touched);
  }
}
