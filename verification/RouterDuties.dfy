/**
 Departure obligations: across failed and retried departures, the hook of every
 destination the participant used or focused succeeds exactly once before
 admission reopens.
 */
module RouterDuties {
  import opened Seqs
  import opened RouterLifecycle
  import opened RouterSafety
  import opened RouterRuns

  ghost predicate Distinct(ds: seq<Destination>) {
    forall i, j :: 0 <= i < j < |ds| ==> ds[i] != ds[j]
  }

  function Elements(ds: seq<Destination>): set<Destination> {
    set d | d in ds
  }

  /** What the departure of `pid` owes: some hooks succeeded, each once, and the rest are still to come. */
  ghost predicate OwesRest(g: Gate, turns: map<nat, Turn>, d: Duty, pid: Pid) {
    && pid in g.departures && pid in d.owed && pid in d.released && pid !in d.focus && Quiet(turns, pid)
    && Distinct(d.released[pid]) && Elements(d.released[pid]) !! UsedBy(d, pid)
    && Elements(d.released[pid]) + UsedBy(d, pid) == d.owed[pid]
  }

  ghost predicate HooksCover(d: Duty, pid: Pid, h: Departure)
    requires h.Hooks?
  {
    pid in d.owed && h.todo <= UsedBy(d, pid) && (!h.errors ==> h.todo == UsedBy(d, pid))
  }

  ghost predicate Dutiful(s: State) {
    && s.duty.owed.Keys == s.duty.released.Keys
    && (forall p :: p in s.duty.owed ==> OwesRest(s.gate, s.table.turns, s.duty, p))
    && (forall p :: p in s.gate.departures && s.gate.departures[p].Hooks? ==>
          HooksCover(s.duty, p, s.gate.departures[p]))
  }

  /** Steps that leave the duties alone and keep every departure, in its phase or before its hooks. */
  lemma SameDutyDutiful(s: State, s': State)
    requires Dutiful(s) && s'.duty == s.duty
    requires forall p :: p in s.gate.departures ==> p in s'.gate.departures
    requires forall p :: p in s'.gate.departures && s'.gate.departures[p].Hooks? ==>
      p in s.gate.departures && s'.gate.departures[p] == s.gate.departures[p]
    requires forall p :: p in s.gate.departures && Quiet(s.table.turns, p) ==> Quiet(s'.table.turns, p)
    ensures Dutiful(s')
  {
    forall p | p in s'.duty.owed ensures OwesRest(s'.gate, s'.table.turns, s'.duty, p) {
      assert OwesRest(s.gate, s.table.turns, s.duty, p);
    }
  }

  lemma WorkDutiful(s: State, e: WorkEvent)
    requires Dutiful(s)
    ensures Dutiful(s.(duty := WorkStep(s.table, s.duty, e)))
  {
    var d := WorkStep(s.table, s.duty, e);
    if e.task in s.table.turns && s.table.turns[e.task].phase == Handling {
      var pid := s.table.turns[e.task].pid;
      assert Unfinished(s.table.turns, e.task);
      forall p | p in d.owed ensures OwesRest(s.gate, s.table.turns, d, p) {
        assert OwesRest(s.gate, s.table.turns, s.duty, p);
        assert p != pid;
      }
      forall p | p in s.gate.departures && s.gate.departures[p].Hooks? ensures HooksCover(d, p, s.gate.departures[p]) {
        assert HooksCover(s.duty, p, s.gate.departures[p]) && OwesRest(s.gate, s.table.turns, s.duty, p);
      }
    }
  }

  lemma SubmitDutiful(s: State, e: SubmitEvent)
    requires Dutiful(s) && Safe(s)
    ensures Dutiful(SubmitStep(s, e))
  {
    hide Orderly, Drains, Tasked, OwesRest, HooksCover, Dutiful;
    match e
    case Begins(pid, reports) => SameDutyDutiful(s, SubmitBegin(s, pid, reports));
    case Acquires(call) => SubmitAcquireDutiful(s, call);
    case DrainEnds(call) => SubmitDoneDutiful(s, call);
    case CallerCancelled(call) => SubmitAbandonDutiful(s, call);
  }

  lemma SubmitAcquireDutiful(s: State, call: nat)
    requires Dutiful(s)
    ensures Dutiful(SubmitAcquire(s, call))
  {
    hide OwesRest, HooksCover, Dutiful;
    SameDutyDutiful(s, SubmitAcquire(s, call));
  }

  lemma ReleaseDutiful(s: State, call: nat)
    requires Dutiful(s) && Drained(s, call)
    ensures Dutiful(Release(s, call))
  {
    hide OwesRest, HooksCover, Dutiful;
    SameDutyDutiful(s, Release(s, call));
  }

  lemma AddTurnDutiful(s: State, c: Submit)
    requires Dutiful(s) && FreshTurns(s.table.turns, s.next) && c.pid !in s.gate.departures
    ensures Dutiful(AddTurn(s, c))
  {
    hide OwesRest, HooksCover, Dutiful;
    SameDutyDutiful(s, AddTurn(s, c));
  }

  lemma SubmitDoneDutiful(s: State, call: nat)
    requires Dutiful(s) && FreshTurns(s.table.turns, s.next)
    ensures Dutiful(SubmitDone(s, call))
  {
    hide OwesRest, HooksCover, Dutiful, FreshTurns;
    if Drained(s, call) {
      var c := s.submits[call];
      ReleaseDutiful(s, call);
      if Admitted(s.gate, c.pid, c.lifecycle, c.epoch) {
        AddTurnDutiful(Release(s, call), c);
      }
    }
  }

  lemma SubmitAbandonDutiful(s: State, call: nat)
    requires Dutiful(s)
    ensures Dutiful(SubmitAbandon(s, call))
  {
    hide OwesRest, HooksCover, Dutiful;
    if call in s.submits && s.submits[call].phase == Waiting {
      SameDutyDutiful(s, SubmitAbandon(s, call));
    } else if Drained(s, call) {
      ReleaseDutiful(s, call);
    }
  }

  lemma CallDutiful(s: State, e: CallEvent)
    requires Dutiful(s)
    ensures Dutiful(CallStep(s, e))
  {
    var s' := CallStep(s, e);
    match e
    case JoinBegins(pid) => SameDutyDutiful(s, s');
    case JoinLocks(call) => SameDutyDutiful(s, s');
    case JoinEnds(call) => SameDutyDutiful(s, s');
    case Leaves(pid, topics) => SameDutyDutiful(s, s');
    case Stops => SameDutyDutiful(s, s');
  }

  lemma StopDutiful(s: State, e: StopEvent)
    requires Dutiful(s)
    ensures Dutiful(StopStep(s, e))
  {
    hide OwesRest, HooksCover, UsedBy;
    var s' := StopStep(s, e);
    match e
    case StopBegins => SameDutyDutiful(s, s');
    case StopDrainEnds(others) => SameDutyDutiful(s, s');
    case StopDeparts(pid) => SameDutyDutiful(s, s');
    case StopAdvances => SameDutyDutiful(s, s');
    case StopEnds => SameDutyDutiful(s, s');
  }

  /** Apart from `pid`, the duties are the same. */
  ghost predicate Apart(d: Duty, d': Duty, pid: Pid) {
    forall p :: p != pid ==>
      && UsedBy(d', p) == UsedBy(d, p) && (p in d'.focus <==> p in d.focus)
      && (p in d'.owed <==> p in d.owed) && (p in d'.released <==> p in d.released)
      && (p in d.owed ==> d'.owed[p] == d.owed[p]) && (p in d.released ==> d'.released[p] == d.released[p])
  }

  lemma AcquireIsApart(d: Duty, pid: Pid)
    ensures Apart(d, AcquireDuty(d, pid), pid)
  {
  }

  lemma HookIsApart(d: Duty, pid: Pid, destination: Destination)
    ensures Apart(d, HookDuty(d, pid, destination), pid)
  {
  }

  lemma CloseIsApart(d: Duty, pid: Pid)
    ensures Apart(d, CloseDuty(d, pid), pid)
  {
  }

  /** Apart from `pid`, the departures are the same. */
  ghost predicate Beside(was: map<Pid, Departure>, are: map<Pid, Departure>, pid: Pid) {
    forall p :: p != pid ==> (p in are <==> p in was) && (p in was ==> are[p] == was[p])
  }

  /** A departure moves on with its duties as they are. */
  lemma MovedDutiful(s: State, s': State, pid: Pid, h: Departure)
    requires Dutiful(s) && s'.duty == s.duty && s'.table.turns == s.table.turns
    requires pid in s.gate.departures && s'.gate.departures == s.gate.departures[pid := h]
    requires h.Hooks? ==> HooksCover(s.duty, pid, h)
    ensures Dutiful(s')
  {
    hide Quiet, HooksCover, UsedBy;
    forall p | p in s'.duty.owed ensures OwesRest(s'.gate, s'.table.turns, s'.duty, p) {
      assert OwesRest(s.gate, s.table.turns, s.duty, p);
    }
  }

  /** A step on the duties of `pid` alone keeps the others'. */
  lemma OthersOwe(s: State, s': State, pid: Pid)
    requires Dutiful(s) && s'.table.turns == s.table.turns
    requires Apart(s.duty, s'.duty, pid) && Beside(s.gate.departures, s'.gate.departures, pid)
    requires pid in s'.duty.owed <==> pid in s'.duty.released
    requires pid in s'.duty.owed ==> OwesRest(s'.gate, s'.table.turns, s'.duty, pid)
    requires pid in s'.gate.departures && s'.gate.departures[pid].Hooks? ==>
      HooksCover(s'.duty, pid, s'.gate.departures[pid])
    ensures Dutiful(s')
  {
    hide UsedBy;
    forall p | p in s'.duty.owed ensures OwesRest(s'.gate, s'.table.turns, s'.duty, p) {
      if p != pid { assert OwesRest(s.gate, s.table.turns, s.duty, p); }
    }
    forall p | p in s'.gate.departures && s'.gate.departures[p].Hooks?
      ensures HooksCover(s'.duty, p, s'.gate.departures[p])
    {
      if p != pid { assert HooksCover(s.duty, p, s.gate.departures[p]); }
    }
  }

  lemma AcquireOwes(g: Gate, g': Gate, turns: map<nat, Turn>, d: Duty, pid: Pid)
    requires pid in d.owed <==> pid in d.released
    requires pid in d.owed ==> OwesRest(g, turns, d, pid)
    requires Quiet(turns, pid) && pid in g'.departures
    ensures OwesRest(g', turns, AcquireDuty(d, pid), pid)
    ensures UsedBy(AcquireDuty(d, pid), pid) == UsedBy(d, pid) + FocusOf(d, pid)
  {
    if pid !in d.owed { assert Elements([]) == {}; }
  }

  lemma AcquireDutiful(s: State, pid: Pid)
    requires Dutiful(s) && Safe(s)
    ensures Dutiful(DepartureAcquire(s, pid))
  {
    hide Orderly, Tasked, Drained, Apart, OwesRest, AcquireDuty, UsedBy, FocusOf, Quiet;
    var s' := DepartureAcquire(s, pid);
    if && pid in s.gate.departures && s.gate.departures[pid].Locking?
       && s.gate.departures[pid].lock !in s.gate.holders
    {
      assert DepartureDrains(s.table.turns, pid, s.gate.departures[pid]);
      assert pid in s.duty.owed <==> pid in s.duty.released by { assert s.duty.owed.Keys == s.duty.released.Keys; }
      AcquireOwes(s.gate, s'.gate, s.table.turns, s.duty, pid);
      AcquireIsApart(s.duty, pid);
      assert pid in s'.duty.owed && pid in s'.duty.released by { AcquireRecords(s.duty, pid); }
      OthersOwe(s, s', pid);
    }
  }

  lemma AcquireRecords(d: Duty, pid: Pid)
    ensures pid in AcquireDuty(d, pid).owed && pid in AcquireDuty(d, pid).released
  {
  }

  lemma HookOwes(g: Gate, g': Gate, turns: map<nat, Turn>, d: Duty, pid: Pid, destination: Destination)
    requires OwesRest(g, turns, d, pid) && destination in UsedBy(d, pid) && pid in g'.departures
    ensures OwesRest(g', turns, HookDuty(d, pid, destination), pid)
    ensures UsedBy(HookDuty(d, pid, destination), pid) == UsedBy(d, pid) - {destination}
    ensures HookDuty(d, pid, destination).owed == d.owed && pid in HookDuty(d, pid, destination).released
  {
    var d' := HookDuty(d, pid, destination);
    assert Elements(d'.released[pid]) == Elements(d.released[pid]) + {destination};
    assert UsedBy(d', pid) == UsedBy(d, pid) - {destination};
  }

  lemma HookEndDutiful(s: State, pid: Pid, d: Destination, ok: bool)
    requires Dutiful(s)
    ensures Dutiful(HookEnd(s, pid, d, ok))
  {
    hide Apart, OwesRest, HookDuty, UsedBy, Quiet;
    var s' := HookEnd(s, pid, d, ok);
    if pid in s.gate.departures && s.gate.departures[pid].Hooks? && d in s.gate.departures[pid].todo {
      assert HooksCover(s.duty, pid, s.gate.departures[pid]) && OwesRest(s.gate, s.table.turns, s.duty, pid);
      if ok {
        HookOwes(s.gate, s'.gate, s.table.turns, s.duty, pid, d);
        HookIsApart(s.duty, pid, d);
        OthersOwe(s, s', pid);
      } else {
        var h := s.gate.departures[pid];
        MovedDutiful(s, s', pid, h.(todo := h.todo - {d}, errors := true));
      }
    }
  }

  lemma CloseDutiful(s: State, s': State, pid: Pid)
    requires Dutiful(s) && s'.duty == CloseDuty(s.duty, pid) && s'.table.turns == s.table.turns
    requires s'.gate.departures == Without(s.gate.departures, pid)
    ensures Dutiful(s')
  {
    CloseIsApart(s.duty, pid);
    assert pid !in s'.duty.owed && pid !in s'.duty.released;
    hide Apart, OwesRest, HooksCover, CloseDuty;
    OthersOwe(s, s', pid);
  }

  lemma EndDutiful(s: State, pid: Pid, ok: bool)
    requires Dutiful(s)
    ensures Dutiful(DepartureEnd(s, pid, ok))
  {
    hide Dutiful, CloseDuty, HooksCover;
    if HooksDone(s.gate, pid) {
      if s.gate.departures[pid].errors || !ok {
        MovedDutiful(s, DepartureEnd(s, pid, ok), pid, DepartureFailed);
      } else {
        CloseDutiful(s, DepartureEnd(s, pid, ok), pid);
      }
    }
  }

  lemma DepartureDutiful(s: State, pid: Pid, e: DepartureEvent)
    requires Dutiful(s) && Safe(s)
    ensures Dutiful(DepartureStep(s, pid, e))
  {
    match e
    case DepartureBegins => SameDutyDutiful(s, DepartureBegin(s, pid));
    case DepartureDrainEnds => SameDutyDutiful(s, DepartureDrain(s, pid));
    case DepartureAcquires => AcquireDutiful(s, pid);
    case HookEnds(d, ok) => HookEndDutiful(s, pid, d, ok);
    case DepartureEnds(ok) => EndDutiful(s, pid, ok);
  }

  lemma StepDutiful(s: State, e: Event)
    requires Dutiful(s) && Safe(s)
    ensures Dutiful(Step(s, e))
  {
    match e
    case OnTable(te) =>
      TableStepWanes(s.gate, s.table, te);
      SameDutyDutiful(s, s.(table := TableStep(s.gate, s.table, te)));
    case OnWork(we) => WorkDutiful(s, we);
    case OnSubmit(se) => SubmitDutiful(s, se);
    case OnCall(ce) => CallDutiful(s, ce);
    case OnDeparture(pid, de) => DepartureDutiful(s, pid, de);
    case OnStop(se) => StopDutiful(s, se);
  }

  lemma {:induction false} RunDutiful(s: State, es: seq<Event>)
    requires Dutiful(s) && Safe(s)
    ensures Dutiful(Run(s, es))
    decreases |es|
  {
    if es != [] {
      StepDutiful(s, es[0]);
      StepSafe(s, es[0]);
      RunDutiful(Step(s, es[0]), es[1..]);
    }
  }

  /**
   The only step that reopens admission for a departing participant comes after
   every owed hook succeeded, each exactly once, whatever failed and was retried
   in between.
   */
  lemma ReopensOnlyAfterEveryHook(s: State, e: Event, pid: Pid)
    requires Reachable(s) && pid in s.gate.departures && pid !in Step(s, e).gate.departures
    ensures e == OnDeparture(pid, DepartureEnds(true))
    ensures pid in s.duty.owed && Distinct(ReleasedFor(s.duty, pid))
    ensures Elements(ReleasedFor(s.duty, pid)) == s.duty.owed[pid]
    ensures UsedBy(s.duty, pid) == {} && pid !in s.duty.focus
  {
    var es :| s == Run(Init, es);
    RunDutiful(Init, es);
    OnlyDepartureEndCloses(s, e, pid);
    assert HooksCover(s.duty, pid, s.gate.departures[pid]) && OwesRest(s.gate, s.table.turns, s.duty, pid);
  }

  lemma OnlyDepartureEndCloses(s: State, e: Event, pid: Pid)
    requires pid in s.gate.departures && pid !in Step(s, e).gate.departures
    ensures e == OnDeparture(pid, DepartureEnds(true)) && HooksDone(s.gate, pid) && !s.gate.departures[pid].errors
  {
    match e
    case OnTable(te) =>
    case OnWork(we) =>
    case OnSubmit(se) => SubmitKeepsDepartures(s, se);
    case OnCall(ce) => CallKeepsDepartures(s, ce, pid);
    case OnDeparture(other, de) => OtherDepartureKeeps(s, other, de, pid);
    case OnStop(se) => StopKeepsDepartures(s, se, pid);
  }

  lemma SubmitKeepsDepartures(s: State, e: SubmitEvent)
    ensures SubmitStep(s, e).gate.departures == s.gate.departures
  {
  }

  lemma CallKeepsDepartures(s: State, e: CallEvent, pid: Pid)
    requires pid in s.gate.departures
    ensures pid in CallStep(s, e).gate.departures
  {
  }

  lemma StopKeepsDepartures(s: State, e: StopEvent, pid: Pid)
    requires pid in s.gate.departures
    ensures pid in StopStep(s, e).gate.departures
  {
  }

  lemma OtherDepartureKeeps(s: State, other: Pid, e: DepartureEvent, pid: Pid)
    requires pid in s.gate.departures && pid !in DepartureStep(s, other, e).gate.departures
    ensures other == pid && e == DepartureEnds(true) && HooksDone(s.gate, pid) && !s.gate.departures[pid].errors
  {
    hide UsedBy, FocusOf, Cancel, Forget, SetDefault, ReleasedFor, Without, HookEnd, DepartureEnd;
    match e
    case DepartureBegins =>
    case DepartureDrainEnds =>
    case DepartureAcquires =>
    case HookEnds(d, ok) => HookEndKeeps(s, other, d, ok, pid);
    case DepartureEnds(ok) => DepartureEndCloses(s, other, ok, pid);
  }

  lemma HookEndKeeps(s: State, other: Pid, d: Destination, ok: bool, pid: Pid)
    requires pid in s.gate.departures
    ensures pid in HookEnd(s, other, d, ok).gate.departures
  {
  }

  lemma DepartureEndCloses(s: State, other: Pid, ok: bool, pid: Pid)
    requires pid in s.gate.departures && pid !in DepartureEnd(s, other, ok).gate.departures
    ensures other == pid && ok && HooksDone(s.gate, pid) && !s.gate.departures[pid].errors
  {
  }
}
