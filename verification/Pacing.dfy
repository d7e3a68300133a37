/**
 Paced return audio (xr_ai_voice/_transport.py) over real time. Clock readings
 are inputs; a sleep lasts at least as long as asked.
 */
module Pacing {
  import opened Seqs

  const TOLERANCE := 0.000000001
  const CHUNK := 0.04
  const PREROLL_CHUNKS := 8

  /** One send: how long the audio lasts, the reserve it may build, and when it was asked for and done. */
  datatype Send = Send(duration: real, target: real, now: real, sent: real)

  function Max(a: real, b: real): real {
    if a >= b then a else b
  }

  /** The estimated end of playout when the send is asked for; an unknown deadline counts as now. */
  function BufferedUntil(deadline: Option<real>, s: Send): real {
    Max(if deadline.Some? then deadline.value else s.now, s.now)
  }

  function Delay(deadline: Option<real>, s: Send): real {
    Max(0.0, BufferedUntil(deadline, s) + s.duration - s.now - s.target)
  }

  /** Time does not go back, and a sleep is not cut short; delays within the tolerance are skipped. */
  predicate Waited(deadline: Option<real>, s: Send) {
    s.sent >= s.now && (Delay(deadline, s) > TOLERANCE ==> s.sent >= s.now + Delay(deadline, s))
  }

  function NextDeadline(deadline: Option<real>, s: Send): real {
    Max(BufferedUntil(deadline, s), s.sent) + s.duration
  }

  /** The deadline after a series of sends. */
  function After(deadline: Option<real>, sends: seq<Send>): Option<real> {
    if sends == [] then deadline
    else Some(NextDeadline(After(deadline, sends[..|sends| - 1]), sends[|sends| - 1]))
  }

  ghost predicate Paced(deadline: Option<real>, sends: seq<Send>) {
    forall i :: 0 <= i < |sends| ==> Waited(After(deadline, sends[..i]), sends[i])
  }

  // Theorem 1: the reserve right after a send is bounded.

  function Bound(s: Send): real {
    Max(s.target + TOLERANCE, s.duration)
  }

  lemma ReserveIsBounded(deadline: Option<real>, s: Send)
    requires Waited(deadline, s)
    ensures NextDeadline(deadline, s) - s.sent <= Bound(s)
    ensures Delay(deadline, s) == 0.0 || Delay(deadline, s) > TOLERANCE ==>
      NextDeadline(deadline, s) - s.sent <= Max(s.target, s.duration)
  {
  }

  // Theorem 2: the audio sent in a stretch is at most the time it took plus the bound.

  function Audio(sends: seq<Send>): real {
    if sends == [] then 0.0 else Audio(sends[..|sends| - 1]) + sends[|sends| - 1].duration
  }

  /** Every send moves the deadline on by at least its own audio. */
  lemma {:induction false} DeadlineCoversAudio(deadline: Option<real>, sends: seq<Send>, i: nat)
    requires i < |sends|
    ensures After(deadline, sends).value >= sends[i].sent + Audio(sends) - Audio(sends[..i])
  {
    var front := sends[..|sends| - 1];
    if i < |front| {
      DeadlineCoversAudio(deadline, front, i);
      assert front[..i] == sends[..i];
    }
  }

  lemma SentAudioIsBounded(deadline: Option<real>, sends: seq<Send>, i: nat, k: nat)
    requires Paced(deadline, sends) && i <= k < |sends|
    ensures Audio(sends[..k + 1]) - Audio(sends[..i]) <= sends[k].sent - sends[i].sent + Bound(sends[k])
  {
    var upto := sends[..k + 1];
    assert upto[..k] == sends[..k] && upto[..i] == sends[..i];
    DeadlineCoversAudio(deadline, upto, i);
    ReserveIsBounded(After(deadline, sends[..k]), sends[k]);
  }

  // Theorem 3: the deadline is when a queue that plays without pause runs dry.

  /** A queue that starts a chunk when it arrives or when the one before it ends. */
  function PlayoutEnds(end: Option<real>, sends: seq<Send>): Option<real> {
    if sends == [] then end
    else
      var before := PlayoutEnds(end, sends[..|sends| - 1]);
      var s := sends[|sends| - 1];
      Some((if before.Some? && before.value > s.sent then before.value else s.sent) + s.duration)
  }

  lemma {:induction false} DeadlineIsPlayoutEnd(deadline: Option<real>, sends: seq<Send>)
    requires forall s :: s in sends ==> s.sent >= s.now
    ensures After(deadline, sends) == PlayoutEnds(deadline, sends)
  {
    if sends != [] {
      var front := sends[..|sends| - 1];
      assert forall s :: s in front ==> s in sends;
      assert sends[|sends| - 1] in sends;
      DeadlineIsPlayoutEnd(deadline, front);
    }
  }

  // The table of deadlines.

  function DeadlineOf(deadlines: map<string, real>, pid: string): Option<real> {
    if pid in deadlines then Some(deadlines[pid]) else None
  }

  /** Whatever is sent next waits only for what exceeds its target. */
  ghost predicate Unpaced(deadlines: map<string, real>, pid: string) {
    forall s: Send :: Delay(DeadlineOf(deadlines, pid), s) == Max(0.0, s.duration - s.target)
  }

  lemma UnknownIsUnpaced(deadlines: map<string, real>, pid: string)
    requires pid !in deadlines
    ensures Unpaced(deadlines, pid)
  {
  }

  /** The transport's playout deadlines; `locks` are the participants with a lock. */
  class Pacer {
    var deadlines: map<string, real>
    var locks: set<string>

    constructor ()
      ensures deadlines == map[] && locks == {}
    {
      deadlines, locks := map[], {};
    }

    /** How long the caller has to sleep before sending. */
    method DelayFor(pid: string, duration: real, target: real, now: real) returns (delay: real)
      ensures delay == Delay(DeadlineOf(deadlines, pid), Send(duration, target, now, now))
    {
      var bufferedUntil := Max(if pid in deadlines then deadlines[pid] else now, now);
      delay := Max(0.0, bufferedUntil + duration - now - target);
    }

    /** One whole send: its participant's deadline moves on, by no more than the bound beyond the send. */
    method SendPaced(pid: string, s: Send)
      requires Waited(DeadlineOf(deadlines, pid), s)
      modifies this
      ensures DeadlineOf(deadlines, pid) == After(old(DeadlineOf(deadlines, pid)), [s])
      ensures forall p :: p != pid ==> DeadlineOf(deadlines, p) == old(DeadlineOf(deadlines, p))
      ensures s.sent + s.duration <= deadlines[pid] <= s.sent + Bound(s)
    {
      ReserveIsBounded(DeadlineOf(deadlines, pid), s);
      assert [s][..0] == [];
      locks := locks + {pid};
      var bufferedUntil := Max(if pid in deadlines then deadlines[pid] else s.now, s.now);
      deadlines := deadlines[pid := Max(bufferedUntil, s.sent) + s.duration];
    }

    /**
     One participant's deadline is forgotten, or everybody's: first those with a
     lock, one by one, then the rest. Their next send waits only for what exceeds
     its target.
     */
    method Interrupt(pid: string)
      modifies this
      ensures forall p :: p == pid || pid == "" ==> p !in deadlines && Unpaced(deadlines, p)
      ensures forall p :: p != pid && pid != "" ==> DeadlineOf(deadlines, p) == old(DeadlineOf(deadlines, p))
    {
      hide Unpaced;
      locks := if pid != "" then locks + {pid} else locks;
      if pid != "" {
        deadlines := Without(deadlines, pid);
        UnknownIsUnpaced(deadlines, pid);
        return;
      }
      var rest := locks;
      while rest != {}
        invariant rest <= locks && forall p :: p in locks && p !in rest ==> p !in deadlines
        decreases rest
      {
        var p :| p in rest;
        deadlines, rest := Without(deadlines, p), rest - {p};
      }
      deadlines := map[];
      forall p ensures Unpaced(deadlines, p) {
        UnknownIsUnpaced(deadlines, p);
      }
    }

    /** Chunks of silence, each paced to a reserve of one chunk; `at` reads the clock before and after each send. */
    method Preroll(pid: string, at: seq<Send>)
      requires |at| == PREROLL_CHUNKS && Paced(DeadlineOf(deadlines, pid), at)
      requires forall s :: s in at ==> s.duration == CHUNK && s.target == CHUNK
      modifies this
      ensures DeadlineOf(deadlines, pid) == After(old(DeadlineOf(deadlines, pid)), at)
      ensures forall p :: p != pid ==> DeadlineOf(deadlines, p) == old(DeadlineOf(deadlines, p))
      ensures at[|at| - 1].sent - at[0].sent >= (PREROLL_CHUNKS - 1) as real * CHUNK - TOLERANCE
    {
      ghost var before := DeadlineOf(deadlines, pid);
      var index := 0;
      while index < PREROLL_CHUNKS
        invariant 0 <= index <= PREROLL_CHUNKS
        invariant DeadlineOf(deadlines, pid) == After(before, at[..index])
        invariant forall p :: p != pid ==> DeadlineOf(deadlines, p) == old(DeadlineOf(deadlines, p))
      {
        assert at[..index + 1][..index] == at[..index];
        OneSend(DeadlineOf(deadlines, pid), at[index]);
        SendPaced(pid, at[index]);
        index := index + 1;
      }
      assert at[..PREROLL_CHUNKS] == at;
      PrerollTakesTime(before, at);
    }
  }

  lemma OneSend(deadline: Option<real>, s: Send)
    ensures After(deadline, [s]) == Some(NextDeadline(deadline, s))
  {
    assert [s][..0] == [];
  }

  lemma {:induction false} SilenceLasts(sends: seq<Send>)
    requires forall s :: s in sends ==> s.duration == CHUNK
    ensures Audio(sends) == |sends| as real * CHUNK
  {
    if sends != [] {
      var front := sends[..|sends| - 1];
      assert sends[|sends| - 1] in sends;
      assert forall s :: s in front ==> s in sends;
      SilenceLasts(front);
    }
  }

  /** The pre-roll cannot run ahead of real time by more than one chunk. */
  lemma PrerollTakesTime(deadline: Option<real>, sends: seq<Send>)
    requires |sends| > 0 && Paced(deadline, sends)
    requires forall s :: s in sends ==> s.duration == CHUNK && s.target == CHUNK
    ensures sends[|sends| - 1].sent - sends[0].sent >= (|sends| - 1) as real * CHUNK - TOLERANCE
  {
    SentAudioIsBounded(deadline, sends, 0, |sends| - 1);
    assert sends[..|sends|] == sends;
    SilenceLasts(sends);
    assert sends[|sends| - 1] in sends;
  }
}
