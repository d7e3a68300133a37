/**
 Theorems about every run of the endpoint: when its roster and the orderer's
 active map agree once the lifecycle queue is drained, and when file callbacks
 start only for the active session.
 */
module EndpointRuns {
  import opened Seqs
  import opened FileOrdering
  import opened Endpoint

  datatype Event =
    | Dispatched(joined: bool, pid: string, sid: string)
    | Subscribed(pid: string, wanted: Categories)
    | Applied(now: real)
    | Routed(message: FileMessage, now: real)
    | Worked

  function Step(cfg: Settings, w: World, e: Event): World {
    match e
    case Dispatched(joined, pid, sid) =>
      if joined then DispatchJoin(cfg, w, pid, sid) else DispatchLeave(cfg, w, pid, sid)
    case Subscribed(pid, wanted) => w.(subscribed := Subscribe(w.subscribed, pid, wanted))
    case Applied(now) => if w.lifecycle == [] then w else ApplyOne(cfg, w, now)
    case Routed(m, now) => RouteOne(cfg, w, m, now)
    case Worked => Work(cfg, w)
  }

  function Run(cfg: Settings, w: World, es: seq<Event>): World
    decreases |es|
  {
    if es == [] then w else Run(cfg, Step(cfg, w, es[0]), es[1..])
  }

  /** Every callback start of a run, in order. */
  function CallbackStarts(cfg: Settings, w: World, es: seq<Event>): seq<CallbackStart>
    decreases |es|
  {
    if es == [] then []
    else (if es[0] == Worked then Starts(cfg, w) else []) + CallbackStarts(cfg, Step(cfg, w, es[0]), es[1..])
  }

  // Agreement.

  /** What the orderer's active map becomes once every waiting lifecycle event is applied. */
  function Fold(active: map<string, string>, lifecycle: seq<Lifecycle>): map<string, string> {
    if lifecycle == [] then active
    else
      var e := lifecycle[|lifecycle| - 1];
      var rest := Fold(active, lifecycle[..|lifecycle| - 1]);
      if e.joined then rest[e.pid := e.sid] else LeaveActive(rest, e.pid, e.sid)
  }

  /**
   The participants whose last accepted event was a leave while their session
   id was empty, in a run that starts in `w` with `orphans` already left so.
   */
  function Orphans(cfg: Settings, w: World, orphans: set<string>, es: seq<Event>): set<string>
    decreases |es|
  {
    if es == [] then orphans
    else Orphans(cfg, Step(cfg, w, es[0]), OrphansAfter(w, orphans, es[0]), es[1..])
  }

  function OrphansAfter(w: World, orphans: set<string>, e: Event): set<string> {
    if !e.Dispatched? then orphans
    else if e.joined then orphans - {e.pid}
    else if StaleLeave(w, e.pid, e.sid) || SessionOr(w.sessions, e.pid) != "" then orphans
    else orphans + {e.pid}
  }

  function WithOrphans(sessions: map<string, string>, orphans: set<string>): map<string, string> {
    map p | p in sessions.Keys + orphans :: if p in sessions then sessions[p] else ""
  }

  ghost predicate Agrees(w: World, orphans: set<string>) {
    && w.sessions.Keys == w.participants
    && orphans !! w.participants
    && Fold(w.orderer.active, w.lifecycle) == WithOrphans(w.sessions, orphans)
  }

  lemma FoldAppend(active: map<string, string>, lifecycle: seq<Lifecycle>, e: Lifecycle)
    ensures Fold(active, lifecycle + [e]) ==
      if e.joined then Fold(active, lifecycle)[e.pid := e.sid] else LeaveActive(Fold(active, lifecycle), e.pid, e.sid)
  {
    assert (lifecycle + [e])[..|lifecycle|] == lifecycle;
  }

  /** Applying the oldest event first does not change where the queue leads. */
  lemma {:induction false} FoldHead(active: map<string, string>, lifecycle: seq<Lifecycle>)
    requires lifecycle != []
    ensures Fold(active, lifecycle) ==
      Fold(if lifecycle[0].joined then active[lifecycle[0].pid := lifecycle[0].sid]
           else LeaveActive(active, lifecycle[0].pid, lifecycle[0].sid), lifecycle[1..])
  {
    if |lifecycle| == 1 {
      assert lifecycle[..0] == [] && lifecycle[1..] == [];
    } else {
      var front := lifecycle[..|lifecycle| - 1];
      FoldHead(active, front);
      assert lifecycle[1..][..|lifecycle| - 2] == front[1..];
    }
  }

  lemma JoinAgrees(cfg: Settings, w: World, orphans: set<string>, pid: string, sid: string)
    requires Agrees(w, orphans)
    ensures Agrees(DispatchJoin(cfg, w, pid, sid), orphans - {pid})
  {
    if DuplicateJoin(w, pid, sid) {
      assert orphans - {pid} == orphans;
    } else {
      FoldAppend(w.orderer.active, w.lifecycle, Lifecycle(true, pid, sid));
    }
  }

  lemma LeaveAgrees(cfg: Settings, w: World, orphans: set<string>, pid: string, sid: string)
    requires Agrees(w, orphans)
    ensures Agrees(DispatchLeave(cfg, w, pid, sid), OrphansAfter(w, orphans, Dispatched(false, pid, sid)))
  {
    hide Fold;
    if !StaleLeave(w, pid, sid) {
      var v := DispatchLeave(cfg, w, pid, sid);
      var departed := if sid != "" then sid else SessionOr(w.sessions, pid);
      FoldAppend(w.orderer.active, w.lifecycle, Lifecycle(false, pid, departed));
      if SessionOr(w.sessions, pid) == "" {
        assert WithOrphans(v.sessions, orphans + {pid}) == WithOrphans(w.sessions, orphans);
      } else {
        assert WithOrphans(v.sessions, orphans) == Without(WithOrphans(w.sessions, orphans), pid);
      }
    }
  }

  /** Pruning and expiry leave the active map alone, so only the applied event changes it. */
  lemma AppliedActive(cfg: Settings, w: World, now: real)
    requires w.lifecycle != []
    ensures var e := w.lifecycle[0];
      ApplyOne(cfg, w, now).orderer.active ==
        if e.joined then w.orderer.active[e.pid := e.sid] else LeaveActive(w.orderer.active, e.pid, e.sid)
  {
  }

  lemma StepAgrees(cfg: Settings, w: World, orphans: set<string>, e: Event)
    requires Agrees(w, orphans)
    ensures Agrees(Step(cfg, w, e), OrphansAfter(w, orphans, e))
  {
    hide Fold, WithOrphans, DispatchJoin, DispatchLeave, ApplyOne, Subscribe;
    match e
    case Dispatched(joined, pid, sid) =>
      if joined { JoinAgrees(cfg, w, orphans, pid, sid); } else { LeaveAgrees(cfg, w, orphans, pid, sid); }
    case Applied(now) => if w.lifecycle != [] { AppliedAgrees(cfg, w, orphans, now); }
    case Routed(m, now) => RoutedAgrees(cfg, w, orphans, m, now);
    case Subscribed(pid, wanted) =>
    case Worked => SameRosterAgrees(w, Work(cfg, w), orphans);
  }

  lemma RoutedAgrees(cfg: Settings, w: World, orphans: set<string>, m: FileMessage, now: real)
    requires Agrees(w, orphans)
    ensures Agrees(RouteOne(cfg, w, m, now), orphans)
  {
    SameRosterAgrees(w, RouteOne(cfg, w, m, now), orphans);
  }

  lemma AppliedAgrees(cfg: Settings, w: World, orphans: set<string>, now: real)
    requires Agrees(w, orphans) && w.lifecycle != []
    ensures Agrees(ApplyOne(cfg, w, now), orphans)
  {
    AppliedActive(cfg, w, now);
    FoldHead(w.orderer.active, w.lifecycle);
  }

  lemma SameRosterAgrees(w: World, v: World, orphans: set<string>)
    requires Agrees(w, orphans) && v.sessions == w.sessions && v.participants == w.participants
    requires Fold(v.orderer.active, v.lifecycle) == Fold(w.orderer.active, w.lifecycle)
    ensures Agrees(v, orphans)
  {
  }

  lemma {:induction false} RunAgrees(cfg: Settings, w: World, orphans: set<string>, es: seq<Event>)
    requires Agrees(w, orphans)
    ensures Agrees(Run(cfg, w, es), Orphans(cfg, w, orphans, es))
    decreases |es|
  {
    if es != [] {
      StepAgrees(cfg, w, orphans, es[0]);
      RunAgrees(cfg, Step(cfg, w, es[0]), OrphansAfter(w, orphans, es[0]), es[1..]);
    }
  }

  lemma DrainedAgrees(w: World, orphans: set<string>)
    requires Agrees(w, orphans) && w.lifecycle == []
    ensures w.orderer.active == w.sessions <==> orphans == {}
  {
    if orphans == {} {
      assert WithOrphans(w.sessions, {}) == w.sessions;
    } else {
      var p :| p in orphans;
      assert p in WithOrphans(w.sessions, orphans) && p !in w.sessions;
    }
  }

  /**
   Once the lifecycle queue is drained, the orderer and the endpoint agree on
   who is active if and only if nobody's last event was a leave under an empty
   session id.
   */
  lemma DrainedAgreement(cfg: Settings, es: seq<Event>)
    requires Run(cfg, Start, es).lifecycle == []
    ensures var w := Run(cfg, Start, es);
      w.orderer.active == w.sessions <==> Orphans(cfg, Start, {}, es) == {}
  {
    assert Agrees(Start, {}) by { assert WithOrphans(map[], {}) == map[]; }
    RunAgrees(cfg, Start, {}, es);
    DrainedAgrees(Run(cfg, Start, es), Orphans(cfg, Start, {}, es));
  }

  ghost predicate NamedJoins(es: seq<Event>) {
    forall e :: e in es && e.Dispatched? && e.joined ==> e.sid != ""
  }

  ghost predicate Named(w: World) {
    w.sessions.Keys == w.participants && forall p :: p in w.sessions ==> w.sessions[p] != ""
  }

  lemma StepKeepsNamed(cfg: Settings, w: World, e: Event)
    requires Named(w) && (e.Dispatched? && e.joined ==> e.sid != "")
    ensures Named(Step(cfg, w, e)) && OrphansAfter(w, {}, e) == {}
  {
    match e
    case Dispatched(joined, pid, sid) =>
    case Applied(now) =>
    case Routed(m, now) =>
    case Subscribed(_, _) =>
    case Worked =>
  }

  lemma {:induction false} NamedJoinsLeaveNoOrphans(cfg: Settings, w: World, es: seq<Event>)
    requires NamedJoins(es) && Named(w)
    ensures Orphans(cfg, w, {}, es) == {}
    decreases |es|
  {
    if es != [] {
      assert es[0] in es;
      StepKeepsNamed(cfg, w, es[0]);
      NamedJoinsLeaveNoOrphans(cfg, Step(cfg, w, es[0]), es[1..]);
    }
  }

  /** Runs whose joins carry session ids agree, whatever their leaves carry. */
  lemma NamedJoinsAgree(cfg: Settings, es: seq<Event>)
    requires NamedJoins(es) && Run(cfg, Start, es).lifecycle == []
    ensures Run(cfg, Start, es).orderer.active == Run(cfg, Start, es).sessions
  {
    NamedJoinsLeaveNoOrphans(cfg, Start, es);
    DrainedAgreement(cfg, es);
  }

  /** A join and a leave that both lack a session id leave the orderer behind. */
  lemma UnnamedLeaveDisagrees(cfg: Settings)
    ensures var w := Run(cfg, Start, [Dispatched(true, "p", ""), Applied(0.0), Dispatched(false, "p", "")]);
      w.lifecycle == [] && w.sessions == map[] && w.orderer.active == map["p" := ""]
  {
    var u := Step(cfg, Start, Dispatched(true, "p", ""));
    var v := Step(cfg, u, Applied(0.0));
    var w := Step(cfg, v, Dispatched(false, "p", ""));
    var es := [Dispatched(true, "p", ""), Applied(0.0), Dispatched(false, "p", "")];
    assert es[1..] == [Applied(0.0), Dispatched(false, "p", "")];
    assert es[1..][1..] == [Dispatched(false, "p", "")];
    assert u.lifecycle == [Lifecycle(true, "p", "")] && v.lifecycle == [] && w.lifecycle == [];
    assert Run(cfg, w, []) == w;
  }

  // Callbacks.

  ghost predicate PastFirst(w: World) {
    w.worker.Running? ==> w.worker.next >= 1
  }

  lemma StepPastFirst(cfg: Settings, w: World, e: Event)
    requires PastFirst(w)
    ensures PastFirst(Step(cfg, w, e))
    ensures e == Worked ==> forall c :: c in Starts(cfg, w) ==> c.wanted || c.index >= 1
  {
    match e
    case Dispatched(joined, pid, sid) =>
    case Applied(now) =>
    case Routed(m, now) =>
    case Subscribed(_, _) =>
    case Worked =>
  }

  /**
   The first callback of a file starts only while the file is wanted: its
   session the endpoint's active one, its subscription live.
   */
  lemma {:induction false} FirstCallbackIsWanted(cfg: Settings, w: World, es: seq<Event>)
    requires PastFirst(w)
    ensures forall c :: c in CallbackStarts(cfg, w, es) ==> c.wanted || 1 <= c.index < cfg.callbacks
    decreases |es|
  {
    if es != [] {
      StepPastFirst(cfg, w, es[0]);
      FirstCallbackIsWanted(cfg, Step(cfg, w, es[0]), es[1..]);
    }
  }

  const SampleFile := FileMessage("p", "s", "t")

  /** A run whose sender leaves after the first callback of its file started. */
  const LeavingRun: seq<Event> := [
    Dispatched(true, "p", "s"), Subscribed("p", Categories(true, false)), Applied(0.0), Routed(SampleFile, 0.0),
    Worked, Dispatched(false, "p", "s")]

  lemma {:induction false} RunConcat(cfg: Settings, w: World, es: seq<Event>, fs: seq<Event>)
    ensures Run(cfg, w, es + fs) == Run(cfg, Run(cfg, w, es), fs)
    ensures CallbackStarts(cfg, w, es + fs) == CallbackStarts(cfg, w, es) + CallbackStarts(cfg, Run(cfg, w, es), fs)
    decreases |es|
  {
    if es == [] {
      assert es + fs == fs;
    } else {
      assert (es + fs)[1..] == es[1..] + fs;
      RunConcat(cfg, Step(cfg, w, es[0]), es[1..], fs);
    }
  }

  lemma RunOne(cfg: Settings, w: World, e: Event)
    ensures Run(cfg, w, [e]) == Step(cfg, w, e)
    ensures CallbackStarts(cfg, w, [e]) == if e == Worked then Starts(cfg, w) else []
  {
    assert [e][1..] == [];
    assert Run(cfg, Step(cfg, w, e), []) == Step(cfg, w, e);
  }

  /** One event more in the run is one step more. */
  lemma RunPrefix(cfg: Settings, es: seq<Event>, k: nat)
    requires k < |es|
    ensures Run(cfg, Start, es[..k + 1]) == Step(cfg, Run(cfg, Start, es[..k]), es[k])
  {
    assert es[..k + 1] == es[..k] + [es[k]];
    RunConcat(cfg, Start, es[..k], [es[k]]);
    RunOne(cfg, Run(cfg, Start, es[..k]), es[k]);
  }

  lemma JoinedRun(cfg: Settings)
    ensures var w := Run(cfg, Start, LeavingRun[..3]);
      && w.orderer.active == map["p" := "s"] && w.orderer.departed == [] && w.files == [] && w.worker == Idle
      && w.sessions == map["p" := "s"] && w.participants == {"p"}
      && "p" in w.subscribed && w.subscribed["p"].files
  {
    assert Run(cfg, Start, LeavingRun[..0]) == Start;
    hide Run, Orphans, CallbackStarts, Fold;
    RunPrefix(cfg, LeavingRun, 0);
    RunPrefix(cfg, LeavingRun, 1);
    RunPrefix(cfg, LeavingRun, 2);
  }

  /** After the first callback of the file started, the sender leaves. */
  lemma LeftRun(cfg: Settings)
    requires cfg.callbacks >= 2 && cfg.fileHwm > 0
    ensures var w := Run(cfg, Start, LeavingRun);
      w.worker == Running(SampleFile, 1) && w.participants == {}
  {
    JoinedRun(cfg);
    hide Run, Fold, Orphans, CallbackStarts;
    RunPrefix(cfg, LeavingRun, 3);
    assert Run(cfg, Start, LeavingRun[..4]).files == [SampleFile];
    RunPrefix(cfg, LeavingRun, 4);
    assert Run(cfg, Start, LeavingRun[..5]).worker == Running(SampleFile, 1);
    RunPrefix(cfg, LeavingRun, 5);
    assert LeavingRun[..6] == LeavingRun;
  }

  lemma LaterCallbackCanBeUnwanted(cfg: Settings)
    requires cfg.callbacks >= 2 && cfg.fileHwm > 0
    ensures CallbackStart(SampleFile, 1, false) in CallbackStarts(cfg, Start, LeavingRun + [Worked])
  {
    LeftRun(cfg);
    hide Run, CallbackStarts;
    var w := Run(cfg, Start, LeavingRun);
    RunConcat(cfg, Start, LeavingRun, [Worked]);
    RunOne(cfg, w, Worked);
    assert Starts(cfg, w) == [CallbackStart(SampleFile, 1, false)];
  }

  /**
   Every callback of every run starts while its file is wanted exactly when at
   most one file callback is registered: with more, the session can end between
   two callbacks of one file.
   */
  lemma CallbacksAreWanted(cfg: Settings)
    requires cfg.fileHwm > 0
    ensures (forall es, c :: c in CallbackStarts(cfg, Start, es) ==> c.wanted) <==> cfg.callbacks <= 1
  {
    if cfg.callbacks <= 1 {
      forall es, c | c in CallbackStarts(cfg, Start, es) ensures c.wanted {
        FirstCallbackIsWanted(cfg, Start, es);
      }
    } else {
      LaterCallbackCanBeUnwanted(cfg);
    }
  }
}
