/**
 The bounded tool loop of one model turn (xr_ai_tools/tool_calling.py). Model
 responses and tool invocations are inputs: one response per iteration and one
 invocation per executed call.
 */
module ToolLoop {
  import opened Seqs
  import opened Summaries

  datatype Call = Call(id: string, name: string, arguments: string)

  datatype Message = Message(role: string, content: string, calls: seq<Call>, callId: string)

  datatype Response = Response(content: string, calls: seq<Call>, finish: string)

  /** What running a known tool gave: rendered content, a refusal of its arguments, or an exception of its handler. */
  datatype Invocation = Rendered(content: string) | BadArguments(detail: string) | Raises

  datatype Record = Record(call: Call, message: Message, direct: bool)

  datatype ErrorKind = Truncated | Malformed | DirectReturn | CallLimit | EmptyResponse | IterationLimit

  /** `Propagated` is an exception of a tool handler; it carries no transcript. */
  datatype Exit =
    | BadLimits
    | Finished(content: string, messages: seq<Message>, records: seq<Record>, iterations: int, direct: bool)
    | LoopError(kind: ErrorKind, messages: seq<Message>, records: seq<Record>, iterations: int)
    | Propagated

  /** One turn: the tools by name with their direct-return flag, the limits, and what the outside answers. */
  datatype Turn = Turn(tools: map<string, bool>, maxIterations: int, maxCalls: int,
                       model: nat -> Response, invoke: nat -> Invocation)

  function AssistantMessage(r: Response): Message {
    Message("assistant", r.content, r.calls, "")
  }

  function ToolMessage(c: Call, content: string): Message {
    Message("tool", content, [], c.id)
  }

  predicate DirectCall(t: Turn, c: Call) {
    c.name in t.tools && t.tools[c.name]
  }

  /** `handle_tool_call`: the record of the `n`-th executed call, unless its handler raises. */
  function Handled(t: Turn, c: Call, n: nat): Option<Record> {
    if c.name !in t.tools then Some(Record(c, ToolMessage(c, "unknown_tool " + c.name), false))
    else
      match t.invoke(n)
      case Rendered(content) => Some(Record(c, ToolMessage(c, content), t.tools[c.name]))
      case BadArguments(detail) => Some(Record(c, ToolMessage(c, detail), false))
      case Raises => None
  }

  function Ids(calls: seq<Call>): (ids: seq<string>)
    ensures |ids| == |calls|
    ensures forall i :: 0 <= i < |calls| ==> ids[i] == calls[i].id
  {
    seq(|calls|, i requires 0 <= i < |calls| => calls[i].id)
  }

  predicate Distinct(ids: seq<string>) {
    forall i, j :: 0 <= i < j < |ids| ==> ids[i] != ids[j]
  }

  /** Why a response is refused, in the order of the checks. */
  function Refusal(t: Turn, r: Response, executed: nat, seen: set<string>): Option<ErrorKind> {
    if r.finish == "length" || r.finish == "max_tokens" then Some(Truncated)
    else if r.finish == "tool_calls" && r.calls == [] then Some(Malformed)
    else if exists c :: c in r.calls && Blank(c.id) then Some(Malformed)
    else if !Distinct(Ids(r.calls)) || (exists c :: c in r.calls && c.id in seen) then Some(Malformed)
    else if (exists c :: c in r.calls && DirectCall(t, c)) && |r.calls| != 1 then Some(DirectReturn)
    else if executed + |r.calls| > t.maxCalls then Some(CallLimit)
    else if r.calls == [] && Strip(r.content) == "" then Some(EmptyResponse)
    else None
  }

  /** How a batch ended: all calls answered, a direct return, or an exception. */
  datatype BatchEnd = Answered | Returned(content: string) | Raised

  datatype Batch = Batch(messages: seq<Message>, records: seq<Record>, end: BatchEnd)

  /** Execute the calls in order, the first of them the `n`-th of the turn. */
  function Execute(t: Turn, calls: seq<Call>, n: nat): Batch
    decreases |calls|
  {
    if calls == [] then Batch([], [], Answered)
    else
      var h := Handled(t, calls[0], n);
      if h.None? then Batch([], [], Raised)
      else if h.value.direct then Batch([h.value.message], [h.value], Returned(h.value.message.content))
      else
        var rest := Execute(t, calls[1..], n + 1);
        Batch([h.value.message] + rest.messages, [h.value] + rest.records, rest.end)
  }

  function IdSet(calls: seq<Call>): set<string> {
    set c | c in calls :: c.id
  }

  /** The loop from iteration `i` on, with the transcript, the records and the ids of the batches before it. */
  function Loop(t: Turn, i: nat, transcript: seq<Message>, records: seq<Record>, seen: set<string>): Exit
    decreases t.maxIterations - i
  {
    if i > t.maxIterations then LoopError(IterationLimit, transcript, records, t.maxIterations)
    else
      var r := t.model(i);
      var refusal := Refusal(t, r, |records|, seen);
      if refusal.Some? then LoopError(refusal.value, transcript, records, i)
      else if r.calls == [] then
        Finished(Strip(r.content), transcript + [AssistantMessage(r)], records, i, false)
      else
        var b := Execute(t, r.calls, |records|);
        var transcript' := transcript + [AssistantMessage(r)] + b.messages;
        match b.end
        case Raised => Propagated
        case Returned(content) => Finished(content, transcript', records + b.records, i, true)
        case Answered => Loop(t, i + 1, transcript', records + b.records, seen + IdSet(r.calls))
  }

  function Outcome(t: Turn, messages: seq<Message>): Exit {
    if t.maxIterations < 1 || t.maxCalls < 0 then BadLimits else Loop(t, 1, messages, [], {})
  }

  // The loops.

  function Behind(messages: seq<Message>, records: seq<Record>, rest: Batch): Batch {
    Batch(messages + rest.messages, records + rest.records, rest.end)
  }

  /** One call more, behind what the batch already did. */
  lemma NextCall(t: Turn, calls: seq<Call>, k: nat, n: nat, messages: seq<Message>, records: seq<Record>)
    requires k < |calls|
    ensures var h := Handled(t, calls[k], n + k);
      var before := Behind(messages, records, Execute(t, calls[k..], n + k));
      if h.None? then before.end == Raised
      else if h.value.direct then
        before == Batch(messages + [h.value.message], records + [h.value], Returned(h.value.message.content))
      else
        before == Behind(messages + [h.value.message], records + [h.value], Execute(t, calls[k + 1..], n + k + 1))
  {
    hide Handled;
    var rest := calls[k..];
    assert rest[1..] == calls[k + 1..] && rest[0] == calls[k];
  }

  /** The loop over one batch. */
  method RunBatch(t: Turn, calls: seq<Call>, n: nat) returns (b: Batch)
    ensures b.end != Raised ==> b == Execute(t, calls, n)
    ensures b.end == Raised <==> Execute(t, calls, n).end == Raised
  {
    var messages, records := [], [];
    ghost var all := Execute(t, calls, n);
    assert calls[0..] == calls && Behind([], [], all) == all;
    NothingLeft(t, calls, n);
    hide Execute, Handled, Behind;
    var k := 0;
    while k < |calls|
      invariant 0 <= k <= |calls|
      invariant Behind(messages, records, Execute(t, calls[k..], n + k)) == all
    {
      NextCall(t, calls, k, n, messages, records);
      var h := Handled(t, calls[k], n + k);
      if h.None? {
        return Batch(messages, records, Raised);
      }
      messages := messages + [h.value.message];
      records := records + [h.value];
      if h.value.direct {
        return Batch(messages, records, Returned(h.value.message.content));
      }
      k := k + 1;
    }
    assert calls[k..] == [];
    return Batch(messages, records, Answered);
  }

  lemma NothingLeft(t: Turn, calls: seq<Call>, n: nat)
    ensures forall messages, records ::
      Behind(messages, records, Execute(t, [], n + |calls|)) == Batch(messages, records, Answered)
  {
  }

  /** `run_tool_loop`. */
  method RunToolLoop(t: Turn, messages: seq<Message>) returns (exit: Exit)
    ensures exit == Outcome(t, messages)
  {
    if t.maxIterations < 1 || t.maxCalls < 0 {
      return BadLimits;
    }
    var transcript, records, seen := messages, [], {};
    var iteration := 1;
    while iteration <= t.maxIterations
      invariant 1 <= iteration <= t.maxIterations + 1
      invariant Loop(t, iteration, transcript, records, seen) == Outcome(t, messages)
    {
      var response := t.model(iteration);
      var refusal := Refusal(t, response, |records|, seen);
      if refusal.Some? {
        return LoopError(refusal.value, transcript, records, iteration);
      }
      if response.calls == [] {
        return Finished(Strip(response.content), transcript + [AssistantMessage(response)], records, iteration, false);
      }
      var batch := RunBatch(t, response.calls, |records|);
      if batch.end == Raised {
        return Propagated;
      }
      transcript := transcript + [AssistantMessage(response)] + batch.messages;
      records := records + batch.records;
      seen := seen + IdSet(response.calls);
      if batch.end.Returned? {
        return Finished(batch.end.content, transcript, records, iteration, true);
      }
      iteration := iteration + 1;
    }
    return LoopError(IterationLimit, transcript, records, t.maxIterations);
  }

  // What every exit leaves behind.

  /** The messages start with a batch: the assistant's calls, then one answer to each, in order. */
  ghost predicate StartsWithBatch(ms: seq<Message>) {
    && ms != [] && ms[0].role == "assistant" && ms[0].calls != [] && |ms[0].calls| < |ms|
    && forall i :: 0 <= i < |ms[0].calls| ==> IsAnswer(ms[1 + i], ms[0].calls[i])
  }

  predicate IsAnswer(m: Message, c: Call) {
    m.role == "tool" && m.calls == [] && m.callId == c.id
  }

  /** The messages are answered batches, one after the other. */
  ghost predicate AnsweredBatches(ms: seq<Message>)
    decreases |ms|
  {
    ms == [] || (StartsWithBatch(ms) && AnsweredBatches(ms[1 + |ms[0].calls|..]))
  }

  function CallsIn(ms: seq<Message>): seq<Call>
    decreases |ms|
  {
    if ms == [] then [] else ms[0].calls + CallsIn(ms[1..])
  }

  ghost predicate UsableIds(calls: seq<Call>) {
    Distinct(Ids(calls)) && forall c :: c in calls ==> !Blank(c.id)
  }

  ghost predicate RecordsOf(records: seq<Record>, calls: seq<Call>) {
    |records| == |calls| && forall i :: 0 <= i < |calls| ==> records[i].call == calls[i]
  }

  /** The transcript so far: answered batches with usable ids, recorded one by one, within the call limit. */
  ghost predicate WellFormed(t: Turn, added: seq<Message>, records: seq<Record>) {
    && AnsweredBatches(added) && UsableIds(CallsIn(added)) && RecordsOf(records, CallsIn(added))
    && |records| <= t.maxCalls
  }

  lemma {:induction false} CallsConcat(a: seq<Message>, b: seq<Message>)
    ensures CallsIn(a + b) == CallsIn(a) + CallsIn(b)
    decreases |a|
  {
    if a == [] {
      assert a + b == b;
    } else {
      assert (a + b)[0] == a[0] && (a + b)[1..] == a[1..] + b;
      CallsConcat(a[1..], b);
      hide CallsIn;
      assert a[0].calls + CallsIn(a[1..]) + CallsIn(b) == a[0].calls + (CallsIn(a[1..]) + CallsIn(b));
    }
  }

  lemma {:induction false} AnswersHaveNoCalls(ms: seq<Message>)
    requires forall m :: m in ms ==> m.calls == []
    ensures CallsIn(ms) == []
    decreases |ms|
  {
    if ms != [] {
      AnswersHaveNoCalls(ms[1..]);
    }
  }

  lemma {:induction false} BatchesConcat(a: seq<Message>, b: seq<Message>)
    requires AnsweredBatches(a) && AnsweredBatches(b)
    ensures AnsweredBatches(a + b)
    decreases |a|
  {
    if a == [] {
      assert a + b == b;
    } else {
      var n := 1 + |a[0].calls|;
      assert (a + b)[n..] == a[n..] + b;
      BatchesConcat(a[n..], b);
      forall i | 0 <= i < |a[0].calls| ensures IsAnswer((a + b)[1 + i], a[0].calls[i]) {
        assert IsAnswer(a[1 + i], a[0].calls[i]);
      }
    }
  }

  /** The answers of an executed batch, in order. */
  ghost predicate Answers(b: Batch, calls: seq<Call>) {
    && |b.messages| == |calls| && RecordsOf(b.records, calls)
    && forall i :: 0 <= i < |calls| ==> IsAnswer(b.messages[i], calls[i])
  }

  lemma {:induction false} ExecutedBatch(t: Turn, calls: seq<Call>, n: nat)
    requires Execute(t, calls, n).end == Answered || (|calls| == 1 && Execute(t, calls, n).end.Returned?)
    ensures var b := Execute(t, calls, n);
      Answers(b, calls) && (b.end.Returned? ==> b.end.content == b.messages[|b.messages| - 1].content)
    decreases |calls|
  {
    if calls != [] && Execute(t, calls, n).end == Answered {
      ExecutedBatch(t, calls[1..], n + 1);
    }
  }

  /** Only a lone call can return directly: a batch with a direct tool and company was refused. */
  lemma {:induction false} OnlyDirectToolsReturn(t: Turn, calls: seq<Call>, n: nat)
    requires Execute(t, calls, n).end.Returned?
    ensures exists c :: c in calls && DirectCall(t, c)
    decreases |calls|
  {
    var h := Handled(t, calls[0], n);
    if h.value.direct {
      assert calls[0] in calls;
    } else {
      OnlyDirectToolsReturn(t, calls[1..], n + 1);
      var c :| c in calls[1..] && DirectCall(t, c);
      assert c in calls;
    }
  }

  /** The messages that a batch adds. */
  function BatchMessages(t: Turn, r: Response, n: nat): (ms: seq<Message>)
    ensures ms != []
  {
    [AssistantMessage(r)] + Execute(t, r.calls, n).messages
  }

  lemma OneBatch(t: Turn, r: Response, n: nat)
    requires r.calls != [] && Answers(Execute(t, r.calls, n), r.calls)
    ensures AnsweredBatches(BatchMessages(t, r, n)) && CallsIn(BatchMessages(t, r, n)) == r.calls
  {
    var b := Execute(t, r.calls, n);
    var ms := BatchMessages(t, r, n);
    hide Execute;
    assert ms[1..] == b.messages;
    forall m | m in b.messages ensures m.calls == [] {
      var i :| 0 <= i < |b.messages| && b.messages[i] == m;
      assert IsAnswer(b.messages[i], r.calls[i]);
    }
    AnswersHaveNoCalls(b.messages);
    assert r.calls + [] == r.calls;
    assert ms[1 + |r.calls|..] == [];
  }

  lemma IdsExtend(t: Turn, calls: seq<Call>, r: Response, executed: nat)
    requires UsableIds(calls) && Refusal(t, r, executed, IdSet(calls)) == None
    ensures UsableIds(calls + r.calls) && IdSet(calls + r.calls) == IdSet(calls) + IdSet(r.calls)
  {
    var all := calls + r.calls;
    forall i, j | 0 <= i < j < |all| ensures all[i].id != all[j].id {
      if i < |calls| <= j {
        assert all[i] in calls && all[j] in r.calls;
        assert all[i].id in IdSet(calls);
      } else if j < |calls| {
        assert Ids(calls)[i] != Ids(calls)[j];
      } else {
        assert Ids(r.calls)[i - |calls|] != Ids(r.calls)[j - |calls|];
      }
    }
  }

  lemma RecordsExtend(records: seq<Record>, calls: seq<Call>, more: seq<Record>, others: seq<Call>)
    requires RecordsOf(records, calls) && RecordsOf(more, others)
    ensures RecordsOf(records + more, calls + others)
  {
  }

  /** One accepted batch extends a well-formed transcript. */
  lemma BatchWellFormed(t: Turn, r: Response, added: seq<Message>, records: seq<Record>)
    requires WellFormed(t, added, records) && r.calls != []
    requires Refusal(t, r, |records|, IdSet(CallsIn(added))) == None && Execute(t, r.calls, |records|).end != Raised
    ensures var b, more := Execute(t, r.calls, |records|), added + BatchMessages(t, r, |records|);
      && WellFormed(t, more, records + b.records)
      && IdSet(CallsIn(more)) == IdSet(CallsIn(added)) + IdSet(r.calls)
      && (b.end.Returned? ==> b.end.content == more[|more| - 1].content)
  {
    var b := Execute(t, r.calls, |records|);
    if b.end.Returned? { OnlyDirectToolsReturn(t, r.calls, |records|); }
    IdsExtend(t, CallsIn(added), r, |records|);
    assert b.end.Returned? ==> |r.calls| == 1;
    assert |records| + |r.calls| <= t.maxCalls;
    hide Refusal, UsableIds, AnsweredBatches, IdSet, CallsIn;
    ExecutedBatch(t, r.calls, |records|);
    OneBatch(t, r, |records|);
    hide Execute;
    RecordsExtend(records, CallsIn(added), b.records, r.calls);
    hide RecordsOf;
    BatchesConcat(added, BatchMessages(t, r, |records|));
    CallsConcat(added, BatchMessages(t, r, |records|));
  }

  /** What was added between the given messages and the last `n`. */
  function Added(messages: seq<Message>, all: seq<Message>, n: nat): seq<Message>
    requires |messages| + n <= |all|
  {
    all[|messages|..|all| - n]
  }

  predicate StartsWith(all: seq<Message>, messages: seq<Message>, n: nat) {
    |messages| + n <= |all| && all[..|messages|] == messages
  }

  /** What an exit promises about the transcript it hands back. */
  ghost predicate Resumable(t: Turn, messages: seq<Message>, exit: Exit) {
    match exit
    case Finished(content, all, records, iterations, false) =>
      && StartsWith(all, messages, 1) && WellFormed(t, Added(messages, all, 1), records)
      && 1 <= iterations <= t.maxIterations
      && var last := all[|all| - 1];
         last.role == "assistant" && last.calls == [] && content == Strip(last.content) && content != ""
    case Finished(content, all, records, iterations, true) =>
      && StartsWith(all, messages, 1) && WellFormed(t, Added(messages, all, 0), records)
      && 1 <= iterations <= t.maxIterations && content == all[|all| - 1].content
    case LoopError(_, all, records, iterations) =>
      && StartsWith(all, messages, 0) && WellFormed(t, Added(messages, all, 0), records)
      && 1 <= iterations <= t.maxIterations
    case _ => true
  }

  lemma AddedIs(messages: seq<Message>, added: seq<Message>, last: seq<Message>)
    ensures StartsWith(messages + added + last, messages, |last|)
    ensures Added(messages, messages + added + last, |last|) == added
  {
  }

  lemma RefusedIsResumable(t: Turn, i: nat, messages: seq<Message>, added: seq<Message>, records: seq<Record>,
                           kind: ErrorKind)
    requires WellFormed(t, added, records) && 1 <= i <= t.maxIterations
    ensures Resumable(t, messages, LoopError(kind, messages + added, records, i))
  {
    hide WellFormed, StartsWith, Added;
    AddedIs(messages, added, []);
    assert messages + added + [] == messages + added;
  }

  lemma AnswerIsResumable(t: Turn, i: nat, messages: seq<Message>, added: seq<Message>, records: seq<Record>,
                          r: Response)
    requires WellFormed(t, added, records) && 1 <= i <= t.maxIterations && r.calls == [] && Strip(r.content) != ""
    ensures Resumable(t, messages,
                      Finished(Strip(r.content), messages + added + [AssistantMessage(r)], records, i, false))
  {
    hide WellFormed, StartsWith, Added, Strip;
    AddedIs(messages, added, [AssistantMessage(r)]);
    assert (messages + added + [AssistantMessage(r)])[|messages| + |added|] == AssistantMessage(r);
  }

  lemma DirectIsResumable(t: Turn, i: nat, messages: seq<Message>, added: seq<Message>, records: seq<Record>)
    requires WellFormed(t, added, records) && 1 <= i <= t.maxIterations && added != []
    ensures Resumable(t, messages, Finished(added[|added| - 1].content, messages + added, records, i, true))
  {
    hide WellFormed, Added;
    AddedIs(messages, added, []);
    assert messages + added + [] == messages + added;
    assert (messages + added)[|messages| + |added| - 1] == added[|added| - 1];
  }

  lemma NoTranscript(t: Turn, messages: seq<Message>)
    ensures Resumable(t, messages, Propagated) && Resumable(t, messages, BadLimits)
  {
  }

  lemma {:induction false} LoopIsResumable(t: Turn, i: nat, messages: seq<Message>, added: seq<Message>,
                                           records: seq<Record>)
    requires WellFormed(t, added, records) && i >= 1 && t.maxIterations >= 1
    ensures Resumable(t, messages, Loop(t, i, messages + added, records, IdSet(CallsIn(added))))
    decreases t.maxIterations - i
  {
    var r := t.model(i);
    NoTranscript(t, messages);
    hide WellFormed, Resumable, IdSet, Execute, CallsIn, Strip, Blank;
    if i > t.maxIterations {
      RefusedIsResumable(t, t.maxIterations, messages, added, records, IterationLimit);
    } else if Refusal(t, r, |records|, IdSet(CallsIn(added))).Some? {
      RefusedIsResumable(t, i, messages, added, records, Refusal(t, r, |records|, IdSet(CallsIn(added))).value);
    } else if r.calls == [] {
      AnswerIsResumable(t, i, messages, added, records, r);
    } else {
      hide Refusal;
      var b := Execute(t, r.calls, |records|);
      if b.end != Raised {
        var more := added + BatchMessages(t, r, |records|);
        BatchWellFormed(t, r, added, records);
        assert messages + added + [AssistantMessage(r)] + b.messages == messages + more;
        if b.end == Answered {
          LoopIsResumable(t, i + 1, messages, more, records + b.records);
        } else {
          DirectIsResumable(t, i, messages, more, records + b.records);
        }
      }
    }
  }

  /**
   Every exit by result or by loop error leaves the given messages followed by
   batches in which each call id is unique, not blank, and answered once, in
   order, right after its batch, within both limits.
   */
  lemma EveryExitIsResumable(t: Turn, messages: seq<Message>)
    ensures Resumable(t, messages, Outcome(t, messages))
  {
    NoTranscript(t, messages);
    hide Resumable, Loop;
    if !(t.maxIterations < 1 || t.maxCalls < 0) {
      assert messages + [] == messages && IdSet(CallsIn([])) == {};
      LoopIsResumable(t, 1, messages, [], []);
    }
  }
}
