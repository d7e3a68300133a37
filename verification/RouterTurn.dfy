/**
 One turn of the agent router: choosing a destination, its admission, at most
 one reroute, the fallback to the default destination, and the answer
 (`_select` and `_handle` of xr_ai_routing/_router.py). What the decision model,
 the destinations and the eligibility hooks say are inputs; so is, at every
 await, whether the turn still owns its generation.
 */
module RouterTurn {
  import opened Seqs
  import opened Summaries

  type Destination = string

  // Selection.

  /** What one routing decision sees and gets: current eligibility, the model's choice and its scores. */
  datatype Decision = Decision(eligible: Destination -> bool, choice: string, score: Destination -> real)

  /** The first of the candidates with the highest score. */
  function Best(candidates: seq<Destination>, score: Destination -> real): Destination
    requires candidates != []
  {
    if |candidates| == 1 then candidates[0]
    else
      var rest := Best(candidates[1..], score);
      if score(candidates[0]) >= score(rest) then candidates[0] else rest
  }

  function Select(d: Decision, candidates: seq<Destination>): Option<Destination> {
    if candidates == [] then None
    else if |candidates| == 1 then if d.eligible(candidates[0]) then Some(candidates[0]) else None
    else
      var current := Filter(candidates, d.eligible);
      if d.choice in current then Some(d.choice)
      else if d.choice == "clarify" && (exists c :: c in current && d.score(c) > 0.0) then Some(Best(current, d.score))
      else None
  }

  lemma {:induction false} BestIsFirstHighest(candidates: seq<Destination>, score: Destination -> real)
    requires candidates != []
    ensures var b := Best(candidates, score);
      && b in candidates && (forall c :: c in candidates ==> score(c) <= score(b))
      && exists i :: 0 <= i < |candidates| && candidates[i] == b
                     && forall j :: 0 <= j < i ==> score(candidates[j]) < score(b)
  {
    if |candidates| > 1 {
      BestIsFirstHighest(candidates[1..], score);
      var rest := Best(candidates[1..], score);
      var i :| 0 <= i < |candidates| - 1 && candidates[1..][i] == rest
               && forall j :: 0 <= j < i ==> score(candidates[1..][j]) < score(rest);
      if score(candidates[0]) >= score(rest) {
        assert candidates[0] == candidates[0];
      } else {
        assert candidates[i + 1] == rest;
        assert forall j :: 0 <= j < i + 1 ==> score(candidates[j]) < score(rest) by {
          forall j | 0 <= j < i + 1 ensures score(candidates[j]) < score(rest) {
            if j > 0 { assert candidates[j] == candidates[1..][j - 1]; }
          }
        }
      }
      assert candidates == [candidates[0]] + candidates[1..];
    }
  }

  /** A selected destination is an eligible candidate; after "clarify" no eligible candidate scores higher. */
  lemma SelectsEligibleCandidates(d: Decision, candidates: seq<Destination>)
    ensures var s := Select(d, candidates);
      s.Some? ==>
        && s.value in candidates && d.eligible(s.value)
        && (|candidates| == 1 || s.value == d.choice
            || forall c :: c in candidates && d.eligible(c) ==> d.score(c) <= d.score(s.value))
  {
    if |candidates| > 1 {
      var current := Filter(candidates, d.eligible);
      forall c ensures c in current <==> c in candidates && d.eligible(c) {
        FilterMember(candidates, d.eligible, c);
      }
      if current != [] { BestIsFirstHighest(current, d.score); }
    }
  }

  // The turn.

  datatype Admission =
    | Accept(preamble: string)
    | ReleaseIt(text: string)
    | Clarify(text: string)
    | Decline(text: string)

  datatype Disposition = Answers | Focuses | Releases | Misplaced

  datatype Answer = Answer(disposition: Disposition, text: string)

  /** The awaits after which the turn checks that it still owns its generation. */
  datatype Check = FocusDropped | Chosen(n: nat) | Asked(n: nat) | Let(n: nat) | DeclinedLet(n: nat)
                 | BeforeAnswer(n: nat) | AfterAnswer(n: nat) | AfterEffect(n: nat)

  datatype Turn = Turn(
    destinations: seq<Destination>,
    fallback: Destination,
    focusEligible: bool,
    fallbackEligible: bool,
    decide: nat -> Decision,
    admit: (nat, Destination) -> Admission,
    answer: Destination -> Answer,
    alive: Check -> bool)

  datatype Emission = Emission(source: Destination, text: string)

  /** One call of `admit`, and what it said. */
  datatype Admitted = Admitted(destination: Destination, admission: Admission)

  /** The participant's routing state, and everything the turn did, in order. */
  datatype World = World(focus: Option<Destination>, used: set<Destination>, admitted: seq<Admitted>,
                         answered: seq<Destination>, released: seq<Destination>, emitted: seq<Emission>,
                         remembered: seq<string>)

  datatype Exit = Clarified(text: string) | Answered(destination: Destination, answer: Answer) | Cancelled | Refused
                | FellThrough

  /** Where the loop stands before an attempt, or how the turn ended. */
  datatype Next =
    | Again(w: World, focused: Option<Destination>, candidates: seq<Destination>, declined: set<Destination>)
    | Ends(w: World, exit: Exit)

  const Help := "Which part would you like help with?"

  function NotThis(d: Destination): Destination -> bool { (x: Destination) => x != d }

  function Others(from: seq<Destination>, d: Destination): seq<Destination> {
    Filter(from, NotThis(d))
  }

  function Say(w: World, source: Destination, text: string): World {
    w.(emitted := w.emitted + [Emission(source, text)], remembered := w.remembered + [text])
  }

  function SayIfAny(w: World, source: Destination, text: string): World {
    if text == "" then w else Say(w, source, text)
  }

  function Let0(w: World, d: Destination): World {
    w.(released := w.released + [d])
  }

  function Unfocus(w: World, d: Destination): World {
    if w.focus == Some(d) then w.(focus := None) else w
  }

  /** Before the attempts: a focused destination that is no longer eligible is let go. */
  function Begin(t: Turn, w: World): Next {
    match w.focus
    case None => Again(w, None, t.destinations, {})
    case Some(f) =>
      if t.focusEligible then Again(w, Some(f), [f], {})
      else
        var v := Let0(w.(focus := None), f);
        if !t.alive(FocusDropped) then Ends(v, Cancelled) else Again(v, None, Others(t.destinations, f), {})
  }

  function Respond(t: Turn, w: World, n: nat, d: Destination, preamble: string): Next {
    var v := if preamble == "" then w else w.(emitted := w.emitted + [Emission(d, preamble)]);
    if !t.alive(BeforeAnswer(n)) then Ends(v, Cancelled)
    else
      var a := t.answer(d);
      var u := v.(answered := v.answered + [d]);
      if !t.alive(AfterAnswer(n)) then Ends(u, Cancelled)
      else
        match a.disposition
        case Misplaced => Ends(u, Refused)
        case Answers => Ends(Keep(u, a), Answered(d, a))
        case Focuses =>
          var f := u.(focus := Some(d));
          if u.focus.None? || u.focus == Some(d) then Ends(Keep(f, a), Answered(d, a))
          else
            var g := Let0(f, u.focus.value);
            if !t.alive(AfterEffect(n)) then Ends(g, Cancelled) else Ends(Keep(g, a), Answered(d, a))
        case Releases =>
          var g := Let0(u, d);
          if !t.alive(AfterEffect(n)) then Ends(g, Cancelled) else Ends(Keep(Unfocus(g, d), a), Answered(d, a))
  }

  function Keep(w: World, a: Answer): World {
    if Strip(a.text) == "" then w else w.(remembered := w.remembered + [a.text])
  }

  /** The destination let the participant go at admission: reroute once, or ask the participant. */
  function AfterRelease(t: Turn, w: World, n: nat, d: Destination, text: string, declined: set<Destination>): Next {
    var v := Let0(w, d);
    if !t.alive(Let(n)) then Ends(v, Cancelled)
    else
      var u := SayIfAny(Unfocus(v, d), d, text);
      var candidates := Others(t.destinations, d);
      if candidates != [] && n == 0 then Again(u, None, candidates, declined)
      else if text == "" then Ends(Say(u, t.fallback, Help), Clarified(Help))
      else Ends(u, Clarified(text))
  }

  /** A declining destination is let go, unless it holds the focus. */
  function LetDeclined(w: World, d: Destination): World {
    if w.focus == Some(d) then w else Let0(w, d)
  }

  /** Whether a check stands between the declined destination and what follows. */
  predicate StillAlive(t: Turn, n: nat, skipped: bool) {
    skipped || t.alive(DeclinedLet(n))
  }

  /** Nobody is left to ask: the default destination answers unasked, unless it declined or is not eligible. */
  function Fallback(t: Turn, w: World, n: nat, d: Destination, text: string, declined: set<Destination>): Next {
    if !t.fallbackEligible || t.fallback in declined then
      var v := LetDeclined(w, d);
      if !StillAlive(t, n, w.focus == Some(d)) then Ends(v, Cancelled)
      else
        var said := if text != "" then text else Help;
        Ends(Say(v, t.fallback, said), Clarified(said))
    else
      var v := if d != t.fallback then Let0(w, d) else w;
      if !StillAlive(t, n, d == t.fallback) then Ends(v, Cancelled)
      else Respond(t, v.(used := v.used + {t.fallback}), n, t.fallback, "")
  }

  function AfterDecline(t: Turn, w: World, n: nat, d: Destination, text: string, focused: Option<Destination>,
                        candidates: seq<Destination>, declined: set<Destination>): Next
  {
    var declined' := declined + {d};
    var focused' := if Some(d) == focused then None else focused;
    var candidates' := Others(if Some(d) == focused then t.destinations else candidates, d);
    if candidates' == [] || n == 1 then Fallback(t, w, n, d, text, declined')
    else
      var v := LetDeclined(w, d);
      if !StillAlive(t, n, w.focus == Some(d)) then Ends(v, Cancelled) else Again(v, focused', candidates', declined')
  }

  /** The part of an attempt after the destination was asked. */
  function Admitting(t: Turn, v: World, n: nat, d: Destination, focused: Option<Destination>,
                     candidates: seq<Destination>, declined: set<Destination>): Next
  {
    var admission := t.admit(n, d);
    var asked := v.(used := v.used + {d}, admitted := v.admitted + [Admitted(d, admission)]);
    if !t.alive(Asked(n)) then Ends(asked, Cancelled)
    else
      match admission
      case ReleaseIt(text) => AfterRelease(t, asked, n, d, text, declined)
      case Clarify(text) => Ends(SayIfAny(asked, d, text), Clarified(text))
      case Decline(text) => AfterDecline(t, asked, n, d, text, focused, candidates, declined)
      case Accept(preamble) => Respond(t, asked, n, d, preamble)
  }

  function Attempt(t: Turn, w: World, n: nat, focused: Option<Destination>, candidates: seq<Destination>,
                   declined: set<Destination>): Next
  {
    var choice := if focused.Some? && n == 0 && candidates != [] then Some(candidates[0])
                  else Select(t.decide(n), candidates);
    if !t.alive(Chosen(n)) then Ends(w, Cancelled)
    else if choice.None? then Ends(Say(w, t.fallback, Help), Clarified(Help))
    else Admitting(t, w, n, choice.value, focused, candidates, declined)
  }

  function TryAgain(t: Turn, n: nat, next: Next): Next {
    if next.Ends? then next else Attempt(t, next.w, n, next.focused, next.candidates, next.declined)
  }

  function Handle(t: Turn, w: World): Next {
    var last := TryAgain(t, 1, TryAgain(t, 0, Begin(t, w)));
    if last.Ends? then last else Ends(last.w, FellThrough)
  }

  /** A configured router: distinct destinations, the default among them, and a focus on one of them. */
  ghost predicate Configured(t: Turn, w: World) {
    && t.fallback in t.destinations
    && (forall i, j :: 0 <= i < j < |t.destinations| ==> t.destinations[i] != t.destinations[j])
    && (w.focus.Some? ==> w.focus.value in t.destinations)
    && w.admitted == [] && w.answered == [] && w.released == [] && w.emitted == [] && w.remembered == []
  }

  // What holds between attempts.

  /** No destination was asked twice. */
  ghost predicate AskedOnce(w: World) {
    forall i, j :: 0 <= i < j < |w.admitted| ==> w.admitted[i].destination != w.admitted[j].destination
  }

  /** Whoever was asked or answered is marked as used, and nobody else but the default destination. */
  ghost predicate UsedAll(t: Turn, w: World, v: World) {
    && w.used <= v.used
    && (forall a :: a in v.admitted ==> a.destination in v.used) && (forall d :: d in v.answered ==> d in v.used)
    && (forall d :: d in v.used ==> d in w.used || d == t.fallback || exists a :: a in v.admitted && a.destination == d)
  }

  /** Whoever had the focus still has it or was let go. */
  ghost predicate FocusKept(w: World, v: World) {
    w.focus.Some? ==> v.focus == w.focus || w.focus.value in v.released
  }

  /** Every destination asked so far was let go or holds the focus. */
  ghost predicate AllSettled(v: World) {
    forall a :: a in v.admitted ==> a.destination in v.released || v.focus == Some(a.destination)
  }

  /** The state before attempt `n`: `n` destinations were asked, none of them remains a candidate, none answered. */
  ghost predicate Between(t: Turn, w: World, v: World, n: nat, candidates: seq<Destination>,
                          declined: set<Destination>)
  {
    && |v.admitted| == n && v.answered == [] && AskedOnce(v) && UsedAll(t, w, v) && FocusKept(w, v) && AllSettled(v)
    && (forall a :: a in v.admitted ==> a.destination !in candidates)
    && (forall a :: a in v.admitted && a.admission.Decline? ==> a.destination in declined)
  }

  // What holds at the end.

  /** At most one destination answers: one that accepted, or the eligible default after a refusal. */
  ghost predicate Entitled(t: Turn, v: World) {
    && |v.answered| <= 1
    && (forall d :: d in v.answered ==>
          (exists a :: a in v.admitted && a.destination == d && a.admission.Accept?)
          || (d == t.fallback && t.fallbackEligible && exists a :: a in v.admitted && a.admission.Decline?))
    && (forall a :: a in v.admitted && a.admission.Decline? ==> a.destination !in v.answered)
  }

  /**
   When a turn is answered, its effect on the focus is done, and every other
   destination asked was let go or keeps the focus.
   */
  ghost predicate EffectsDone(v: World, exit: Exit) {
    exit.Answered? ==>
      && v.answered == [exit.destination]
      && (exit.answer.disposition == Focuses ==> v.focus == Some(exit.destination))
      && (exit.answer.disposition == Releases ==> v.focus != Some(exit.destination) && exit.destination in v.released)
      && (forall a :: a in v.admitted ==>
            a.destination == exit.destination || a.destination in v.released || v.focus == Some(a.destination))
  }

  ghost predicate Outcome(t: Turn, w: World, v: World, exit: Exit) {
    AskedOnce(v) && UsedAll(t, w, v) && FocusKept(w, v) && Entitled(t, v) && EffectsDone(v, exit) && exit != FellThrough
  }

  /** The answer of `d`, when everyone else is settled and `d` is entitled. */
  ghost predicate Ready(t: Turn, w: World, v: World, d: Destination) {
    && v.answered == [] && AskedOnce(v) && UsedAll(t, w, v) && d in v.used && FocusKept(w, v)
    && (forall a :: a in v.admitted ==>
          a.destination == d || a.destination in v.released || v.focus == Some(a.destination))
    && (forall a :: a in v.admitted && a.admission.Decline? ==> a.destination != d)
    && ((exists a :: a in v.admitted && a.destination == d && a.admission.Accept?)
        || (d == t.fallback && t.fallbackEligible && exists a :: a in v.admitted && a.admission.Decline?))
  }

  lemma OthersExclude(from: seq<Destination>, d: Destination, x: Destination)
    ensures x in Others(from, d) <==> x in from && x != d
  {
    FilterMember(from, NotThis(d), x);
  }

  /** What answering changes: nobody else is asked or marked, and whoever loses the focus is let go. */
  ghost predicate AnswerStep(v: World, u: World, d: Destination, exit: Exit) {
    && u.admitted == v.admitted && u.used == v.used && (u.answered == v.answered || u.answered == v.answered + [d])
    && (forall x :: x in v.released ==> x in u.released)
    && (v.focus.Some? ==> u.focus == v.focus || v.focus.value in u.released)
    && exit != FellThrough && (exit.Answered? ==> exit.destination == d && u.answered == v.answered + [d])
    && (exit.Answered? && exit.answer.disposition == Focuses ==> u.focus == Some(d))
    && (exit.Answered? && exit.answer.disposition == Releases ==> u.focus != Some(d) && d in u.released)
  }

  lemma RespondSteps(t: Turn, v: World, n: nat, d: Destination, preamble: string)
    ensures var next := Respond(t, v, n, d, preamble); next.Ends? && AnswerStep(v, next.w, d, next.exit)
  {
    hide Strip;
  }

  lemma AnswerStepOutcome(t: Turn, w: World, v: World, u: World, d: Destination, exit: Exit)
    requires Ready(t, w, v, d) && AnswerStep(v, u, d, exit)
    ensures Outcome(t, w, u, exit)
  {
    assert [] + [d] == [d];
  }

  lemma RespondOutcome(t: Turn, w: World, v: World, n: nat, d: Destination, preamble: string)
    requires Ready(t, w, v, d)
    ensures Respond(t, v, n, d, preamble).Ends?
    ensures Outcome(t, w, Respond(t, v, n, d, preamble).w, Respond(t, v, n, d, preamble).exit)
  {
    RespondSteps(t, v, n, d, preamble);
    hide Ready, AnswerStep, Outcome, Respond;
    var next := Respond(t, v, n, d, preamble);
    AnswerStepOutcome(t, w, v, next.w, d, next.exit);
  }

  lemma FallbackOutcome(t: Turn, w: World, v: World, n: nat, d: Destination, text: string, declined: set<Destination>)
    requires v.answered == [] && AskedOnce(v) && UsedAll(t, w, v) && FocusKept(w, v)
    requires forall a :: a in v.admitted && a.admission.Decline? ==> a.destination in declined
    requires forall a :: a in v.admitted ==>
               a.destination == d || a.destination in v.released || v.focus == Some(a.destination)
    requires exists a :: a in v.admitted && a.destination == d && a.admission.Decline?
    ensures var next := Fallback(t, v, n, d, text, declined); Outcome(t, w, next.w, next.exit)
  {
    var u := if d != t.fallback then Let0(v, d) else v;
    if t.fallbackEligible && t.fallback !in declined {
      assert Ready(t, w, u.(used := u.used + {t.fallback}), t.fallback);
      RespondOutcome(t, w, u.(used := u.used + {t.fallback}), n, t.fallback, "");
    }
    hide Respond;
  }

  /** The state right after `d` was asked. */
  ghost predicate JustAsked(t: Turn, w: World, v: World, n: nat, d: Destination, declined: set<Destination>) {
    && |v.admitted| == n + 1 && v.admitted[n].destination == d && v.answered == [] && AskedOnce(v)
    && UsedAll(t, w, v) && FocusKept(w, v)
    && (forall i :: 0 <= i < n ==>
          v.admitted[i].destination in v.released || v.focus == Some(v.admitted[i].destination))
    && (forall i :: 0 <= i < n && v.admitted[i].admission.Decline? ==> v.admitted[i].destination in declined)
  }

  /** What an attempt makes of the state between attempts: that state again, at most once, or the turn's outcome. */
  ghost predicate Carries(t: Turn, origin: World, n: nat, next: Next) {
    match next
    case Again(u, focused, candidates, declined) =>
      n == 0 && focused == None && Between(t, origin, u, 1, candidates, declined)
    case Ends(u, exit) => Outcome(t, origin, u, exit)
  }

  /** An attempt starts between attempts, on the focused destination alone if there is one. */
  ghost predicate Attempts(t: Turn, origin: World, v: World, n: nat, focused: Option<Destination>,
                           candidates: seq<Destination>, declined: set<Destination>)
  {
    && Between(t, origin, v, n, candidates, declined) && n <= 1
    && (focused.Some? ==> n == 0 && candidates == [focused.value])
  }

  lemma AfterReleaseOutcome(t: Turn, w: World, v: World, n: nat, d: Destination, text: string,
                            declined: set<Destination>)
    requires JustAsked(t, w, v, n, d, declined) && v.admitted[n].admission == ReleaseIt(text)
    ensures Carries(t, w, n, AfterRelease(t, v, n, d, text, declined))
  {
    OthersExclude(t.destinations, d, d);
    hide Others;
  }

  lemma AfterDeclineOutcome(t: Turn, w: World, v: World, n: nat, d: Destination, text: string,
                            focused: Option<Destination>, candidates: seq<Destination>, declined: set<Destination>)
    requires JustAsked(t, w, v, n, d, declined) && v.admitted[n].admission == Decline(text) && n <= 1
    requires n == 0 && focused.Some? ==> focused == Some(d)
    ensures Carries(t, w, n, AfterDecline(t, v, n, d, text, focused, candidates, declined))
  {
    var pool := if Some(d) == focused then t.destinations else candidates;
    OthersExclude(pool, d, d);
    if Others(pool, d) == [] || n == 1 {
      assert v.admitted[n] in v.admitted;
      FallbackOutcome(t, w, v, n, d, text, declined + {d});
    }
    hide Others, Fallback;
  }

  lemma BetweenEnds(t: Turn, w: World, v: World, n: nat, candidates: seq<Destination>, declined: set<Destination>)
    requires Between(t, w, v, n, candidates, declined)
    ensures Carries(t, w, n, Ends(v, Cancelled)) && Carries(t, w, n, Ends(Say(v, t.fallback, Help), Clarified(Help)))
  {
  }

  /** A turn that ends right after a destination was asked. */
  lemma AskedEnds(t: Turn, w: World, v: World, n: nat, d: Destination, declined: set<Destination>, text: string)
    requires JustAsked(t, w, v, n, d, declined)
    ensures Carries(t, w, n, Ends(v, Cancelled)) && Carries(t, w, n, Ends(SayIfAny(v, d, text), Clarified(text)))
  {
  }

  lemma AttemptOutcome(t: Turn, w: World, v: World, n: nat, focused: Option<Destination>,
                       candidates: seq<Destination>, declined: set<Destination>)
    requires Attempts(t, w, v, n, focused, candidates, declined)
    ensures Carries(t, w, n, Attempt(t, v, n, focused, candidates, declined))
  {
    var choice := if focused.Some? && n == 0 && candidates != [] then Some(candidates[0])
                  else Select(t.decide(n), candidates);
    BetweenEnds(t, w, v, n, candidates, declined);
    hide Carries, Between;
    if choice.Some? {
      SelectsEligibleCandidates(t.decide(n), candidates);
      hide Select, AfterRelease, AfterDecline, Respond, Outcome, Ready, JustAsked, SayIfAny;
      AskedCarries(t, w, v, n, choice.value, focused, candidates, declined);
    }
  }

  lemma AskedCarries(t: Turn, w: World, v: World, n: nat, d: Destination, focused: Option<Destination>,
                     candidates: seq<Destination>, declined: set<Destination>)
    requires Attempts(t, w, v, n, focused, candidates, declined) && d in candidates
    ensures Carries(t, w, n, Admitting(t, v, n, d, focused, candidates, declined))
  {
    var admission := t.admit(n, d);
    var asked := v.(used := v.used + {d}, admitted := v.admitted + [Admitted(d, admission)]);
    AskedOutcome(t, w, v, n, d, admission, candidates, declined);
    hide AfterRelease, AfterDecline, Respond, Ready, Between, JustAsked, SayIfAny, Carries;
    AskedEnds(t, w, asked, n, d, declined, if admission.Clarify? then admission.text else "");
    match admission
    case ReleaseIt(text) => AfterReleaseOutcome(t, w, asked, n, d, text, declined);
    case Clarify(text) =>
    case Decline(text) => AfterDeclineOutcome(t, w, asked, n, d, text, focused, candidates, declined);
    case Accept(preamble) => AnswerCarries(t, w, asked, n, d, preamble);
  }

  lemma AnswerCarries(t: Turn, w: World, v: World, n: nat, d: Destination, preamble: string)
    requires Ready(t, w, v, d)
    ensures Carries(t, w, n, Respond(t, v, n, d, preamble))
  {
    RespondOutcome(t, w, v, n, d, preamble);
    hide Respond, Ready, Outcome;
  }

  lemma AskedOutcome(t: Turn, w: World, v: World, n: nat, d: Destination, admission: Admission,
                     candidates: seq<Destination>, declined: set<Destination>)
    requires Between(t, w, v, n, candidates, declined) && d in candidates
    ensures var asked := v.(used := v.used + {d}, admitted := v.admitted + [Admitted(d, admission)]);
      JustAsked(t, w, asked, n, d, declined) && (admission.Accept? ==> Ready(t, w, asked, d))
  {
    var asked := v.(used := v.used + {d}, admitted := v.admitted + [Admitted(d, admission)]);
    assert asked.admitted[n] == Admitted(d, admission);
    assert forall a :: a in asked.admitted <==> a in v.admitted || a == Admitted(d, admission);
    assert forall i :: 0 <= i < n ==> v.admitted[i] in v.admitted;
    assert Admitted(d, admission) in asked.admitted;
  }

  /**
   The bounded loop never falls through: in one turn no destination is asked twice, at most one answers, none that
   declined does, everyone asked or answering is marked as used, the focus is
   never lost without its holder being let go, and an answer's effects are done.
   */
  lemma TurnOutcome(t: Turn, w: World)
    requires Configured(t, w)
    ensures Handle(t, w).Ends? && Outcome(t, w, Handle(t, w).w, Handle(t, w).exit)
    ensures Handle(t, w).exit != FellThrough
  {
    var start := Begin(t, w);
    hide Attempt, Others;
    if start.Again? {
      AttemptOutcome(t, w, start.w, 0, start.focused, start.candidates, start.declined);
      var next := TryAgain(t, 0, start);
      if next.Again? {
        AttemptOutcome(t, w, next.w, 1, next.focused, next.candidates, next.declined);
      }
    }
  }

  /** What a turn answers was said: a clarification to the participant, an answer at least to the history. */
  ghost predicate Said(v: World, exit: Exit) {
    && (exit.Clarified? && exit.text != "" ==>
          && v.emitted != [] && v.emitted[|v.emitted| - 1].text == exit.text
          && v.remembered != [] && v.remembered[|v.remembered| - 1] == exit.text)
    && (exit.Answered? && Strip(exit.answer.text) != "" ==>
          v.remembered != [] && v.remembered[|v.remembered| - 1] == exit.answer.text)
  }

  lemma RespondSays(t: Turn, w: World, n: nat, d: Destination, preamble: string)
    ensures Respond(t, w, n, d, preamble).Ends?
    ensures Said(Respond(t, w, n, d, preamble).w, Respond(t, w, n, d, preamble).exit)
  {
    hide Strip;
  }

  lemma FallbackSays(t: Turn, w: World, n: nat, d: Destination, text: string, declined: set<Destination>)
    ensures Fallback(t, w, n, d, text, declined).Ends?
    ensures Said(Fallback(t, w, n, d, text, declined).w, Fallback(t, w, n, d, text, declined).exit)
  {
    var v := if d != t.fallback then Let0(w, d) else w;
    RespondSays(t, v.(used := v.used + {t.fallback}), n, t.fallback, "");
    hide Strip, Respond;
  }

  lemma AdmittingSays(t: Turn, w: World, n: nat, d: Destination, focused: Option<Destination>,
                      candidates: seq<Destination>, declined: set<Destination>)
    ensures var next := Admitting(t, w, n, d, focused, candidates, declined); next.Ends? ==> Said(next.w, next.exit)
  {
    var admission := t.admit(n, d);
    var v := w.(used := w.used + {d}, admitted := w.admitted + [Admitted(d, admission)]);
    if admission.Accept? { RespondSays(t, v, n, d, admission.preamble); }
    if admission.Decline? { FallbackSays(t, v, n, d, admission.text, declined + {d}); }
    hide Strip, Respond, Fallback, Others;
  }

  lemma AttemptSays(t: Turn, w: World, n: nat, focused: Option<Destination>, candidates: seq<Destination>,
                    declined: set<Destination>)
    ensures var next := Attempt(t, w, n, focused, candidates, declined); next.Ends? ==> Said(next.w, next.exit)
  {
    var choice := if focused.Some? && n == 0 && candidates != [] then Some(candidates[0])
                  else Select(t.decide(n), candidates);
    hide Select, Admitting;
    if choice.Some? { AdmittingSays(t, w, n, choice.value, focused, candidates, declined); }
  }

  lemma ConclusionsAreSaid(t: Turn, w: World)
    ensures Handle(t, w).Ends? ==> Said(Handle(t, w).w, Handle(t, w).exit)
  {
    var start := Begin(t, w);
    hide Attempt, Others;
    if start.Again? {
      AttemptSays(t, start.w, 0, start.focused, start.candidates, start.declined);
      var next := TryAgain(t, 0, start);
      if next.Again? {
        AttemptSays(t, next.w, 1, next.focused, next.candidates, next.declined);
      }
    }
  }

  // The loop itself.

  /**
   The answer and its effects, in the order the code performs them. Nobody else
   is asked or marked, whoever loses the focus is let go, the effect of the
   answer is done when it counts as given, and its text is remembered.
   */
  method AnswerNow(t: Turn, start: World, n: nat, d: Destination, preamble: string) returns (w: World, exit: Exit)
    ensures Respond(t, start, n, d, preamble) == Ends(w, exit)
    ensures AnswerStep(start, w, d, exit) && Said(w, exit)
    ensures exit.Answered? ==> exit.answer == t.answer(d)
    ensures exit == Refused ==> t.answer(d).disposition == Misplaced && w.remembered == start.remembered
  {
    RespondSteps(t, start, n, d, preamble);
    RespondSays(t, start, n, d, preamble);
    hide Strip, AnswerStep, Said;
    w := start;
    if preamble != "" {
      w := w.(emitted := w.emitted + [Emission(d, preamble)]);
    }
    if !t.alive(BeforeAnswer(n)) {
      return w, Cancelled;
    }
    var a := t.answer(d);
    w := w.(answered := w.answered + [d]);
    if !t.alive(AfterAnswer(n)) {
      return w, Cancelled;
    }
    if a.disposition == Misplaced {
      return w, Refused;
    }
    if a.disposition == Focuses {
      var previous := w.focus;
      w := w.(focus := Some(d));
      if previous.Some? && previous.value != d {
        w := Let0(w, previous.value);
        if !t.alive(AfterEffect(n)) {
          return w, Cancelled;
        }
      }
    } else if a.disposition == Releases {
      w := Let0(w, d);
      if !t.alive(AfterEffect(n)) {
        return w, Cancelled;
      }
      w := Unfocus(w, d);
    }
    if Strip(a.text) != "" {
      w := w.(remembered := w.remembered + [a.text]);
    }
    return w, Answered(d, a);
  }

  /** What `Fallback` guarantees: the default answers at most, if it may, and else the participant is asked. */
  ghost predicate FallsBack(t: Turn, v: World, u: World, d: Destination, text: string, declined: set<Destination>,
                            exit: Exit)
  {
    && u.admitted == v.admitted && exit != FellThrough
    && (u.answered != v.answered ==>
          t.fallbackEligible && t.fallback !in declined && u.answered == v.answered + [t.fallback])
    && (exit.Answered? ==> exit.destination == t.fallback && u.answered != v.answered)
    && (exit.Clarified? ==>
          (!t.fallbackEligible || t.fallback in declined) && exit.text == if text != "" then text else Help)
    && (d in u.released || v.focus == Some(d) || d == t.fallback)
  }

  lemma FallbackFallsBack(t: Turn, v: World, n: nat, d: Destination, text: string, declined: set<Destination>)
    ensures var next := Fallback(t, v, n, d, text, declined);
      next.Ends? && FallsBack(t, v, next.w, d, text, declined, next.exit)
  {
    var u := if d != t.fallback then Let0(v, d) else v;
    var asked := u.(used := u.used + {t.fallback});
    RespondSteps(t, asked, n, t.fallback, "");
    RespondNeverAsks(t, asked, n, t.fallback, "");
    hide Respond;
  }

  lemma RespondNeverAsks(t: Turn, v: World, n: nat, d: Destination, preamble: string)
    ensures !Respond(t, v, n, d, preamble).exit.Clarified?
  {
    hide Strip;
  }

  /**
   What follows a refusal when nobody is left to ask: only the default
   destination may answer, only if it is eligible and did not decline, and the
   one that declined is let go unless it holds the focus.
   */
  method FallBack(t: Turn, start: World, n: nat, d: Destination, text: string, declined: set<Destination>)
    returns (w: World, exit: Exit)
    ensures Fallback(t, start, n, d, text, declined) == Ends(w, exit)
    ensures FallsBack(t, start, w, d, text, declined, exit) && Said(w, exit)
  {
    FallbackFallsBack(t, start, n, d, text, declined);
    FallbackSays(t, start, n, d, text, declined);
    hide FallsBack, Said, Respond, AnswerStep;
    w := start;
    if !t.fallbackEligible || t.fallback in declined {
      if w.focus != Some(d) {
        w := Let0(w, d);
        if !t.alive(DeclinedLet(n)) {
          return w, Cancelled;
        }
      }
      var said := if text != "" then text else Help;
      return Say(w, t.fallback, said), Clarified(said);
    }
    if d != t.fallback {
      w := Let0(w, d);
      if !t.alive(DeclinedLet(n)) {
        return w, Cancelled;
      }
    }
    w := w.(used := w.used + {t.fallback});
    w, exit := AnswerNow(t, w, n, t.fallback, "");
  }

  /**
   `_handle`: at most two attempts over the shrinking list of candidates. From a
   configured router it never falls through, asks nobody twice, gets at most one
   answer, and says what it concludes.
   */
  method HandleTurn(t: Turn, start: World) returns (w: World, exit: Exit)
    ensures Handle(t, start) == Ends(w, exit)
    ensures Configured(t, start) ==> Outcome(t, start, w, exit)
    ensures Said(w, exit)
  {
    if Configured(t, start) { TurnOutcome(t, start); }
    ConclusionsAreSaid(t, start);
    hide Select, Respond, Fallback, Others, SayIfAny, Unfocus, LetDeclined, Attempt, Between, Outcome, Said, Configured;
    w := start;
    var focused := w.focus;
    var candidates := if focused.Some? then [focused.value] else t.destinations;
    if focused.Some? && !t.focusEligible {
      w := Let0(w.(focus := None), focused.value);
      if !t.alive(FocusDropped) {
        return w, Cancelled;
      }
      candidates := Others(t.destinations, focused.value);
      focused := None;
    }
    var declined := {};
    var attempt := 0;
    while attempt < 2
      invariant 0 <= attempt <= 2
      invariant var here := Again(w, focused, candidates, declined);
        Handle(t, start) == Concluded(
          if attempt == 0 then TryAgain(t, 1, TryAgain(t, 0, here))
          else if attempt == 1 then TryAgain(t, 1, here) else here)
    {
      var next := TakeAttempt(t, w, attempt, focused, candidates, declined, start);
      match next {
        case Ends(v, e) => return v, e;
        case Again(v, f, cs, ds) => w, focused, candidates, declined := v, f, cs, ds;
      }
      attempt := attempt + 1;
    }
    return w, FellThrough;
  }

  function Concluded(last: Next): Next {
    if last.Ends? then last else Ends(last.w, FellThrough)
  }

  /** The body of the loop, in a turn that began in `origin`. */
  method TakeAttempt(t: Turn, start: World, n: nat, focused: Option<Destination>, candidates: seq<Destination>,
                     declined: set<Destination>, ghost origin: World) returns (next: Next)
    ensures next == Attempt(t, start, n, focused, candidates, declined)
    ensures Attempts(t, origin, start, n, focused, candidates, declined) ==> Carries(t, origin, n, next)
    ensures next.Ends? ==> Said(next.w, next.exit)
  {
    if Attempts(t, origin, start, n, focused, candidates, declined) {
      AttemptOutcome(t, origin, start, n, focused, candidates, declined);
    }
    AttemptSays(t, start, n, focused, candidates, declined);
    hide Select, Respond, Fallback, Others, SayIfAny, Unfocus, Attempts, Carries, Said, AnswerStep, FallsBack;
    var choice := if focused.Some? && n == 0 && candidates != [] then Some(candidates[0])
                  else Select(t.decide(n), candidates);
    if !t.alive(Chosen(n)) {
      return Ends(start, Cancelled);
    }
    if choice.None? {
      return Ends(Say(start, t.fallback, Help), Clarified(Help));
    }
    var d := choice.value;
    var admission := t.admit(n, d);
    var w := start.(used := start.used + {d}, admitted := start.admitted + [Admitted(d, admission)]);
    if !t.alive(Asked(n)) {
      return Ends(w, Cancelled);
    }
    match admission {
      case ReleaseIt(text) =>
        w := Let0(w, d);
        if !t.alive(Let(n)) {
          return Ends(w, Cancelled);
        }
        w := SayIfAny(Unfocus(w, d), d, text);
        var rest := Others(t.destinations, d);
        if rest == [] || n != 0 {
          if text == "" {
            return Ends(Say(w, t.fallback, Help), Clarified(Help));
          }
          return Ends(w, Clarified(text));
        }
        return Again(w, None, rest, declined);
      case Clarify(text) =>
        return Ends(SayIfAny(w, d, text), Clarified(text));
      case Decline(text) =>
        var refused := declined + {d};
        var rest, still := Others(candidates, d), focused;
        if Some(d) == focused {
          rest, still := Others(t.destinations, d), None;
        }
        if rest == [] || n == 1 {
          var v, e := FallBack(t, w, n, d, text, refused);
          return Ends(v, e);
        }
        if w.focus != Some(d) {
          w := Let0(w, d);
          if !t.alive(DeclinedLet(n)) {
            return Ends(w, Cancelled);
          }
        }
        return Again(w, still, rest, refused);
      case Accept(preamble) =>
        var v, e := AnswerNow(t, w, n, d, preamble);
        return Ends(v, e);
    }
  }
}
