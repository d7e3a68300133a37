# Verification models of the agent SDK

This project models the stateful core of a multi-agent XR runtime in Dafny and
proves what that core promises. Each component is modelled twice where the
original changes state in place: as functions over a value that say what one
step computes, and as a class (or a method with loops) that performs the step,
keeps the invariant and says what its caller can rely on. The theorems are about
every run of those steps.

| files | component |
|---|---|
| `FileOrdering`, `FileOrderingRuns`, `FileOrderingMemory`, `FileSessionOrderer` | correlation of files with join and leave events that arrive on another socket |
| `Endpoint`, `EndpointRuns`, `ProcessorEndpoint` | the processor endpoint's roster, its lifecycle queue and its file callbacks |
| `RouterLifecycle`, `RouterSafety`, `RouterRuns`, `RouterDuties`, `RouterSettling`, `RouterPromises`, `AgentRouter` | admission, supersession, departure and stop of the agent router |
| `RouterTurn`, `RouterHistory` | one turn's bounded routing loop; history trimming and the shrinking decision request |
| `Utf8`, `Clipping`, `Summaries`, `Rendering`, `Budgets` | byte budgets of the conversation context: clipping, bounded summaries, batches, prompt sections |
| `Compaction`, `CompactionSafety`, `CompactionRuns`, `CompactionProgress`, `ConversationContext`, `Reconcile` | rolling compaction with concurrent writes, failures and clears; merging front-end history windows |
| `ShmLayout`, `ShmRing`, `ShmRingRuns`, `ShmRingBuffer` | the shared-memory frame ring, byte by byte |
| `EventStore`, `ToolLoop`, `TranscriptStore`, `TranscriptFiles`, `Pacing`, `PacingRuns` | the bounded event log, the tool loop, transcript files, paced return audio |
| `Seqs` | sequence vocabulary the models share |

Concurrency is modelled as interleaving: every stretch of code between two
awaits is one atomic step, a step whose guard fails leaves the state unchanged,
and every finite sequence of steps is a run. Objects the code compares by
identity are numbers handed out by a counter. Clock readings, model answers,
admissions, hook results and sleeps are inputs. Fields and parameters that only
record history for a theorem say so in their comments.

## Where the code and its description differ

- `_router.py:1284` allows log2(n) + 1 decision calls per over-limit turn of n
  exchanges. For every n > 0 the loop can make one more, floor(log2 n) + 2; it
  does exactly when all requests but the last, empty one are rejected
  (`RouterHistory.Decide`, `RouterHistory.DescribedBound`).
- A runtime turn awaits the status callback after its last admission check, so
  it can enter the routing after a departure or a stop was called; it does so
  only from that await (`RouterRuns.StatusAwaitIsTheOnlyGap`), and never in a
  router without the callback (`RouterRuns.NoCallbackNoGap`). It never runs
  beside departure hooks (`RouterRuns.HooksRunAlone`).
- A leave under an empty session id never reaches the orderer, which then keeps
  the participant (`EndpointRuns.DrainedAgreement`).
- With several file callbacks registered, a later one can start after the
  file's session left (`EndpointRuns.CallbacksAreWanted`).
- A ring created with no slots or no room for a frame fails its own validation
  (`ShmRingRuns.ReachableBuffersValidate`).
- `_bounded_summary` is described as returning a non-empty summary; for limits
  below four bytes it can return an empty one (`Summaries.SummaryIsBounded`).
- `compaction_input_budget_bytes` is described as the budget for one compaction
  request, and any non-empty topic name is accepted. A request exceeds it exactly
  when the framing of its oldest entry, topic name included, does not fit beside
  the earlier summary (`CompactionRuns.RequestsFitTheInput`,
  `CompactionRuns.LongNamesOverflow`).
- The transcript store is described as keyed by arbitrary ids, but an identity is
  read in text mode: with a carriage return in it, each append of a source opens
  another file, no query finds any, and another id can write to the same file.
  Without one, all is as promised (`TranscriptStore.FaithfulIffPlain`,
  `TranscriptStore.ReturnsAreLost`, `TranscriptStore.ReturnsShareFiles`).
- An interruption of everybody ends with a clear outside the return-audio locks,
  which forgets audio sent since (`PacingRuns.LateClearForgets`); releasing a
  participant deletes its lock, which is safe iff nobody waits for it
  (`PacingRuns.ReleaseKeepsTurns`).
- A poll with a negative cursor reports a reset although nothing was lost
  (`EventStore.ResetMeansLoss`).

## Model

| member | source | states |
|---|---|---|
| FileSessionOrderers.FileSessionOrderer.PruneAt | agent-sdk/xr-ai-hub/xr_ai_hub/_file_ordering.py:168-175 | the drain loops remove exactly the leading entries that are due, appending expired files in order |
| FileSessionOrderers.FileSessionOrderer.RecordDeparture | agent-sdk/xr-ai-hub/xr_ai_hub/_file_ordering.py:156-166 | a session is remembered once, last, and only the newest `max_departures` sessions stay |
| FileSessionOrderers.FileSessionOrderer.RouteFile | agent-sdk/xr-ai-hub/xr_ai_hub/_file_ordering.py:63-80 | the state and answer of the routing function, inactive before ready before full before buffered; a ready file's participant is active for it, a buffered one is last and cannot be delivered yet |
| FileSessionOrderers.FileSessionOrderer.ReleaseOnJoin | agent-sdk/xr-ai-hub/xr_ai_hub/_file_ordering.py:99-115 | the loop splits the queue into released, refused and kept files, each in arrival order |
| FileSessionOrderers.FileSessionOrderer.ParticipantJoined | agent-sdk/xr-ai-hub/xr_ai_hub/_file_ordering.py:82-115 | the state and lists of the join function; released files are deliverable now, nothing deliverable keeps waiting, and no file is ever refused |
| FileSessionOrderers.FileSessionOrderer.DiscardOnLeave | agent-sdk/xr-ai-hub/xr_ai_hub/_file_ordering.py:129-141 | the loop discards exactly the files of the leaving session and keeps the others in order |
| FileSessionOrderers.FileSessionOrderer.ParticipantLeft | agent-sdk/xr-ai-hub/xr_ai_hub/_file_ordering.py:117-141 | the state and list of the leave function; no file of the session waits any more and the session is remembered as departed |
| FileSessionOrderers.FileSessionOrderer.DrainExpired | agent-sdk/xr-ai-hub/xr_ai_hub/_file_ordering.py:143-147 | expired files are handed out once; under a clock that does not go back nothing that still waits is due |
| FileSessionOrderers.FileSessionOrderer.SecondsUntilExpiry | agent-sdk/xr-ai-hub/xr_ai_hub/_file_ordering.py:149-154 | nothing waits iff there is no deadline; under a clock that does not go back the wait reaches the earliest pending deadline and no further |
| FileOrderingRuns.ReachableInvariant | agent-sdk/xr-ai-hub/xr_ai_hub/_file_ordering.py:63-175 | in every reachable state no pending file is deliverable, none belongs to a remembered departed session, and both bounds hold |
| FileOrderingRuns.JoinRefusesNothing | agent-sdk/xr-ai-hub/xr_ai_hub/_file_ordering.py:82-115 | the `inactive` list of a join is empty in every reachable state |
| FileOrderingRuns.PruneIsFilter | agent-sdk/xr-ai-hub/xr_ai_hub/_file_ordering.py:168-175 | with a nondecreasing clock, prefix pruning equals filtering out everything due |
| FileOrderingRuns.FilesAreConserved | agent-sdk/xr-ai-hub/xr_ai_hub/_file_ordering.py:63-175 | over any run each routed file is in exactly one of delivered, inactive, full, discarded, drained, expired, pending |
| FileOrderingRuns.DeliveredInArrivalOrder | agent-sdk/xr-ai-hub/xr_ai_hub/_file_ordering.py:63-141 | files of one participant and session are delivered in arrival order across routes and joins |
| FileOrderingMemory.DepartedIsRefused | agent-sdk/xr-ai-hub/xr_ai_hub/_file_ordering.py:82-175 | a session that left, or that a join of another session superseded, is refused until it rejoins, its time limit passes, or `max_departures` other sessions departed since |
| FileOrderingMemory.DepartedIsRefusedExactly | agent-sdk/xr-ai-hub/xr_ai_hub/_file_ordering.py:63-175 | with a clock that does not go back, a session that last departed at a given time is refused iff it has not rejoined, its time limit has not passed, and never as many sessions were remembered behind it as the list may hold |
| ProcessorEndpoints.ProcessorEndpoint.SubscribeTo | agent-sdk/xr-ai-hub/xr_ai_hub/_processor.py:337-381 | from the call on the participant's files are wanted iff the filter has files and the session is active; nobody else's files change |
| ProcessorEndpoints.ProcessorEndpoint.Dispatch | agent-sdk/xr-ai-hub/xr_ai_hub/_processor.py:1046-1095 | a join puts the participant on the roster with its session, an accepted leave makes all its files unwanted, duplicates and stale leaves change nothing, others are untouched, and the agreement with the orderer is kept |
| ProcessorEndpoints.ProcessorEndpoint.EnqueueReady | agent-sdk/xr-ai-hub/xr_ai_hub/_processor.py:845-853 | released files that are still wanted are queued in order as far as there is room |
| ProcessorEndpoints.ProcessorEndpoint.ApplyLifecycle | agent-sdk/xr-ai-hub/xr_ai_hub/_processor.py:887-921 | the oldest lifecycle event is applied to the orderer and its released files are queued; once the queue is empty both agree on who is active iff there is no orphan |
| ProcessorEndpoints.ProcessorEndpoint.RouteFile | agent-sdk/xr-ai-hub/xr_ai_hub/_processor.py:855-885 | a ready file is queued last, only when wanted and while there is room; the orderer expires afterwards |
| ProcessorEndpoints.ProcessorEndpoint.RunWorker | agent-sdk/xr-ai-hub/xr_ai_hub/_processor.py:940-962 | at most one callback starts per step, the first of a file only while it is wanted; files leave the queue from the front, one at a time |
| EndpointRuns.DrainedAgreement | agent-sdk/xr-ai-hub/xr_ai_hub/_processor.py:1046-1095 | once the lifecycle queue is drained, orderer and endpoint agree iff no participant's last event was a leave under an empty session id |
| EndpointRuns.NamedJoinsAgree | agent-sdk/xr-ai-hub/xr_ai_hub/_processor.py:1046-1095 | runs whose joins carry session ids always agree, duplicates and stale leaves included |
| EndpointRuns.UnnamedLeaveDisagrees | agent-sdk/xr-ai-hub/xr_ai_hub/_processor.py:1070-1095 | a concrete run in which an unnamed leave never reaches the orderer |
| EndpointRuns.FirstCallbackIsWanted | agent-sdk/xr-ai-hub/xr_ai_hub/_processor.py:923-962 | the first callback of a file starts only while its session is the endpoint's active one and subscribed |
| EndpointRuns.LaterCallbackCanBeUnwanted | agent-sdk/xr-ai-hub/xr_ai_hub/_processor.py:940-962 | a concrete run in which the second callback starts after the session left |
| EndpointRuns.CallbacksAreWanted | agent-sdk/xr-ai-hub/xr_ai_hub/_processor.py:923-962 | every callback of every run starts wanted iff at most one file callback is registered |
| RouterSafety.StepSafe | agent-sdk/xr-ai-routing/xr_ai_routing/_router.py:304-419 | every step keeps fresh tokens, tickets of current waiters, held locks, one registered unfinished turn, and complete drains |
| RouterSafety.RunSafe | agent-sdk/xr-ai-routing/xr_ai_routing/_router.py:304-419 | the invariant holds after every interleaving of submit, interrupt, join, leave and stop |
| RouterSafety.CloseDepartureSafe | agent-sdk/xr-ai-routing/xr_ai_routing/_router.py:656-660 | deleting the lock under waiters is safe because all of them are stale |
| RouterRuns.OneTurnPerParticipant | agent-sdk/xr-ai-routing/xr_ai_routing/_router.py:304-419 | a participant never has two unfinished turn tasks, and the one it has is the registered one |
| RouterRuns.HooksRunAlone | agent-sdk/xr-ai-routing/xr_ai_routing/_router.py:625-660 | while departure hooks run no turn of the participant is unfinished and no submit call is current |
| RouterRuns.StopDepartsAlone | agent-sdk/xr-ai-routing/xr_ai_routing/_router.py:662-685 | while a stop departs participants no turn at all is unfinished |
| RouterRuns.StaleTurnsDoNotStart | agent-sdk/xr-ai-routing/xr_ai_routing/_router.py:429-438 | after a departure or a stop was called, no turn that captured its tokens before passes its last admission check |
| RouterRuns.StatusAwaitIsTheOnlyGap | agent-sdk/xr-ai-routing/xr_ai_routing/_router.py:368-391 | older turns stay out of the routing from the call on iff none of them awaits the status callback |
| RouterRuns.StatusAwaitIsReachable | agent-sdk/xr-ai-routing/xr_ai_routing/_router.py:304-391 | a concrete run that reaches that await with admission open |
| RouterRuns.NoCallbackNoGap | agent-sdk/xr-ai-routing/xr_ai_routing/_router.py:386-388 | in a run whose turns report no status, as in a router without the callback, no older turn enters the routing after the call |
| RouterSettling.DepartureOwesWhatWasTouched | agent-sdk/xr-ai-routing/xr_ai_routing/_router.py:625-636 | when a departure's hooks first run it owes exactly the destinations that the run's turns used or focused since the participant's last completed departure |
| RouterSettling.DepartureReleasesWhatWasTouched | agent-sdk/xr-ai-routing/xr_ai_routing/_router.py:625-660 | when a departure completes, the hook of each of those destinations succeeded exactly once |
| RouterSettling.CleanStopOwesNothing | agent-sdk/xr-ai-routing/xr_ai_routing/_router.py:662-685 | when a stop reopens admission nobody has a used or focused destination, an owed hook, an open departure or a departed mark |
| RouterSettling.StepKept | agent-sdk/xr-ai-routing/xr_ai_routing/_router.py:304-685 | every step keeps safety, duties, what stops settle and what was touched together |
| RouterDuties.ReopensOnlyAfterEveryHook | agent-sdk/xr-ai-routing/xr_ai_routing/_router.py:625-660 | admission reopens only after every owed hook succeeded exactly once, across failures and retries |
| AgentRouters.AgentRouter.constructor | agent-sdk/xr-ai-routing/xr_ai_routing/_router.py:155-243 | a new router is the initial state, keeps the invariant and is open to everyone |
| AgentRouters.AgentRouter.Interrupt | agent-sdk/xr-ai-routing/xr_ai_routing/_router.py:514-542 | afterwards every unfinished turn of the participant, not only the registered one, is asked to stop, and none owns the generation |
| AgentRouters.AgentRouter.BeginSubmit | agent-sdk/xr-ai-routing/xr_ai_routing/_router.py:311-329 | the call is admitted iff admission is open; it then waits for the present lock with current tokens, and no other call's standing changes |
| AgentRouters.AgentRouter.AcquireForSubmit | agent-sdk/xr-ai-routing/xr_ai_routing/_router.py:329-332 | a call that gets through is admitted, waits for every unfinished turn of its participant, each asked to stop, and is the only current call draining for it |
| AgentRouters.AgentRouter.FinishSubmit | agent-sdk/xr-ai-routing/xr_ai_routing/_router.py:332-419 | a new turn starts iff the drain is over and admission still open; it is the participant's only unfinished turn and owns the generation |
| AgentRouters.AgentRouter.StartTurn | agent-sdk/xr-ai-routing/xr_ai_routing/_router.py:368-378 | a turn that starts is admitted and alone; any other ends before it initializes |
| AgentRouters.AgentRouter.FinishInitialization | agent-sdk/xr-ai-routing/xr_ai_routing/_router.py:380-384 | a turn that proceeds owns its generation, is admitted and alone; any other ends |
| AgentRouters.AgentRouter.DiscardTurn | agent-sdk/xr-ai-routing/xr_ai_routing/_router.py:421-424 | the completion callback takes neither the registration nor the generation of a turn that is still running |
| AgentRouters.AgentRouter.BeginJoin | agent-sdk/xr-ai-routing/xr_ai_routing/_router.py:454-463 | a join changes no call's standing and no departed mark, and turns a failed departure into a retry |
| AgentRouters.AgentRouter.FinishJoin | agent-sdk/xr-ai-routing/xr_ai_routing/_router.py:465-473 | a mark is removed only for a join whose tokens are still current, and then admission is really open |
| AgentRouters.AgentRouter.ParticipantLeft | agent-sdk/xr-ai-routing/xr_ai_routing/_router.py:544-573 | from the call on no waiting call and no turn of the participant passes an admission check, and a departure is under way unless a stop owns it |
| AgentRouters.AgentRouter.RequestStop | agent-sdk/xr-ai-routing/xr_ai_routing/_router.py:589-600 | from the call on nobody's waiting call and nobody's turn passes an admission check |
| AgentRouters.AgentRouter.StartDeparture | agent-sdk/xr-ai-routing/xr_ai_routing/_router.py:613-626 | the departure waits for every unfinished turn of its participant and has asked each to stop |
| AgentRouters.AgentRouter.LockForDeparture | agent-sdk/xr-ai-routing/xr_ai_routing/_router.py:626-628 | when the wait is over no turn of the participant is left |
| AgentRouters.AgentRouter.StartHooks | agent-sdk/xr-ai-routing/xr_ai_routing/_router.py:628-637 | hooks run beside no unfinished turn and no current call, and what is owed is what the participant's turns touched |
| AgentRouters.AgentRouter.FinishHook | agent-sdk/xr-ai-routing/xr_ai_routing/_router.py:639-649 | a successful hook is released for the first time, a failed one stays owed and fails the attempt; what is owed stays |
| AgentRouters.AgentRouter.FinishDeparture | agent-sdk/xr-ai-routing/xr_ai_routing/_router.py:650-660 | a departure completes only when everything touched was released exactly once; nothing of the participant is left and all its waiters are stale; otherwise it stays failed |
| AgentRouters.AgentRouter.StartStop | agent-sdk/xr-ai-routing/xr_ai_routing/_router.py:662-663 | the stop waits for every unfinished turn there is and has asked each to stop |
| AgentRouters.AgentRouter.CollectDepartures | agent-sdk/xr-ai-routing/xr_ai_routing/_router.py:662-671 | no turn is left unfinished, and whoever is not on the list of departures has nothing to clean up |
| AgentRouters.AgentRouter.FinishStop | agent-sdk/xr-ai-routing/xr_ai_routing/_router.py:681-685 | a stop that ends without errors leaves nobody anything to clean up and admission open to everyone |
| RouterTurn.SelectsEligibleCandidates | agent-sdk/xr-ai-routing/xr_ai_routing/_router.py:1163-1265 | the selection is an eligible candidate, the model's choice or the best scored after clarify |
| RouterTurn.BestIsFirstHighest | agent-sdk/xr-ai-routing/xr_ai_routing/_router.py:1235-1242 | equal scores keep registration order |
| RouterTurn.TurnOutcome | agent-sdk/xr-ai-routing/xr_ai_routing/_router.py:687-915 | the loop never falls through; no destination is asked twice, at most one answers and none that declined; focus is never lost without release |
| RouterTurn.ConclusionsAreSaid | agent-sdk/xr-ai-routing/xr_ai_routing/_router.py:687-915 | a clarification is emitted and remembered last, an answer with text is remembered last |
| RouterTurn.HandleTurn | agent-sdk/xr-ai-routing/xr_ai_routing/_router.py:687-915 | the two-attempt loop computes the specified turn; from a configured router it never falls through, asks nobody twice, gets at most one entitled answer and says what it concludes |
| RouterTurn.TakeAttempt | agent-sdk/xr-ai-routing/xr_ai_routing/_router.py:708-787 | from the state between attempts the body leads to that state again, at most once, or to the turn's outcome, and an end is said |
| RouterTurn.AnswerNow | agent-sdk/xr-ai-routing/xr_ai_routing/_router.py:789-914 | answering asks and marks nobody else, lets go of whoever loses the focus, has done the answer's effect on the focus when it counts, and remembers its text |
| RouterTurn.FallBack | agent-sdk/xr-ai-routing/xr_ai_routing/_router.py:752-778 | only the default answers, only if eligible and not declined; otherwise the participant is asked; the declining destination is let go unless it holds the focus |
| RouterHistory.Bounded | agent-sdk/xr-ai-routing/xr_ai_routing/_router.py:1411-1457 | the loop keeps exactly the longest suffix within the budget, of all three lists alike |
| RouterHistory.LongestIsLongest | agent-sdk/xr-ai-routing/xr_ai_routing/_router.py:1411-1457 | no longer suffix fits |
| RouterHistory.TrimmingIsIdempotent | agent-sdk/xr-ai-routing/xr_ai_routing/_router.py:952-962 | trimming a trimmed history keeps all of it |
| RouterHistory.Histories.Adopt | agent-sdk/xr-ai-routing/xr_ai_routing/_router.py:334-341 | the first turn's own history is taken over and trimmed, a known one is left alone |
| RouterHistory.Histories.Remember | agent-sdk/xr-ai-routing/xr_ai_routing/_router.py:938-950 | one exchange is appended to all three lists, which stay aligned, and the longest fitting suffix kept |
| RouterHistory.Histories.Trim | agent-sdk/xr-ai-routing/xr_ai_routing/_router.py:952-962 | the lists of one participant are replaced by their longest fitting suffix, others untouched |
| RouterHistory.Histories.Forget | agent-sdk/xr-ai-routing/xr_ai_routing/_router.py:635-637 | a departure removes all three lists together |
| RouterHistory.Decide | agent-sdk/xr-ai-routing/xr_ai_routing/_router.py:1267-1309 | each request is the newest half of the one before; the largest number of calls is made iff all but the last are rejected, and only then the described bound is exceeded |
| RouterHistory.DescribedBound | agent-sdk/xr-ai-routing/xr_ai_routing/_router.py:1284-1284 | for every n, a count the loop can reach keeps to log2(n) + 1 iff it is not the largest one, floor(log2 n) + 2 |
| Utf8.RoundTrip | agent-sdk/xr-ai-conversation/xr_ai_conversation/_context.py:562-570 | decoding undoes encoding (section 3 of RFC 3629) |
| Utf8.TakeBytes | agent-sdk/xr-ai-conversation/xr_ai_conversation/_context.py:562-570 | the bytes before a cut decode to the whole characters among them |
| Utf8.DropBytes | agent-sdk/xr-ai-conversation/xr_ai_conversation/_context.py:562-570 | the bytes after a cut decode to the whole characters among them |
| Clipping.ClipShape | agent-sdk/xr-ai-conversation/xr_ai_conversation/_context.py:559-570 | with room for the marker: a whole-character prefix, the marker, a whole-character suffix |
| Clipping.ClipLosses | agent-sdk/xr-ai-conversation/xr_ai_conversation/_context.py:559-570 | the parts do not overlap and each cut loses at most three bytes |
| Clipping.ClipFits | agent-sdk/xr-ai-conversation/xr_ai_conversation/_context.py:559-570 | the result is within the limit for every text and limit, and clipping again changes nothing |
| Clipping.ClippedPrefix | agent-sdk/xr-ai-conversation/xr_ai_conversation/_context.py:566-568 | without room for the marker: the longest whole-character prefix |
| Clipping.ClipEmpty | agent-sdk/xr-ai-conversation/xr_ai_conversation/_context.py:559-570 | nothing is left iff there was nothing or the first character exceeds the limit |
| Summaries.StripTrims | agent-sdk/xr-ai-conversation/xr_ai_conversation/_context.py:587-588 | exactly the surrounding white space is removed |
| Summaries.SummaryIsBounded | agent-sdk/xr-ai-conversation/xr_ai_conversation/_context.py:573-605 | when a summary is refused, that a kept one fits, and exactly when it is empty |
| Summaries.SummaryIsNotEmpty | agent-sdk/xr-ai-conversation/xr_ai_conversation/_context.py:573-605 | non-empty for every limit of at least four bytes |
| Summaries.CondenseRequestFits | agent-sdk/xr-ai-conversation/xr_ai_conversation/_context.py:600-601 | the request to condense an oversized summary fits the payload budget |
| Summaries.TinyLimitEmpties | agent-sdk/xr-ai-conversation/xr_ai_conversation/_context.py:580-580 | below four bytes a kept summary can be empty |
| Rendering.SizeOfContent | agent-sdk/xr-ai-conversation/xr_ai_conversation/_context.py:625-634 | an entry's rendered size is its framing plus its own text; the framing is at most 72 bytes, or 55 and the source name |
| Rendering.PreviousInputSize | agent-sdk/xr-ai-conversation/xr_ai_conversation/_context.py:615-618 | the earlier summary takes at most 53 bytes besides its text |
| Budgets.OldestBatchIs | agent-sdk/xr-ai-conversation/xr_ai_conversation/_context.py:529-541 | the batch is the longest prefix that fits, or the oldest entry alone |
| Budgets.TakeOldest | agent-sdk/xr-ai-conversation/xr_ai_conversation/_context.py:529-541 | the loop computes that batch |
| Budgets.ClippedContentSize | agent-sdk/xr-ai-conversation/xr_ai_conversation/_context.py:544-556 | a clipped entry fits iff its framing does |
| Budgets.BatchFits | agent-sdk/xr-ai-conversation/xr_ai_conversation/_context.py:529-556 | a batch fits what is available iff the framing of its oldest entry does |
| Budgets.AvailableIsEnough | agent-sdk/xr-ai-conversation/xr_ai_conversation/_manager.py:148-154 | an accepted configuration always leaves 202 bytes for new entries beside a bounded summary |
| Budgets.RequestFits | agent-sdk/xr-ai-conversation/xr_ai_conversation/_manager.py:148-154 | a request stays within the input budget iff the oldest entry's framing fits beside the summary |
| Budgets.RequestsFit | agent-sdk/xr-ai-conversation/xr_ai_conversation/_context.py:246-253 | dialogue requests always fit; source requests for names of at most 147 bytes |
| Budgets.FitSection | agent-sdk/xr-ai-conversation/xr_ai_conversation/_manager.py:414-438 | the loop keeps the longest suffix that fits, or else the newest entry |
| Budgets.DialogueSectionFits | agent-sdk/xr-ai-conversation/xr_ai_conversation/_manager.py:295-302 | the section is within budget when the budget covers the headers and three quarters of itself |
| Budgets.SourceSectionFits | agent-sdk/xr-ai-conversation/xr_ai_conversation/_manager.py:266-277 | the same for an incremental source |
| Budgets.StoredStateFits | agent-sdk/xr-ai-conversation/xr_ai_conversation/_manager.py:201-217 | a stored state renders within its topic budget, and when it is dropped |
| CompactionSafety.StepGood | agent-sdk/xr-ai-conversation/xr_ai_conversation/_context.py:148-162 | every step keeps coverage, job ownership, batch and request invariants |
| CompactionSafety.CommitDropsBatch | agent-sdk/xr-ai-conversation/xr_ai_conversation/_context.py:300-301 | filtering by sequence removes exactly the batch |
| CompactionSafety.NewJobWorks | agent-sdk/xr-ai-conversation/xr_ai_conversation/_context.py:246-253 | a new job's batch is a front of what is live, leaving the newest exchange |
| CompactionRuns.DialogueCoverage | agent-sdk/xr-ai-conversation/xr_ai_conversation/_context.py:276-302 | live sequences are exactly `through + 1 .. next - 1`; folded and live together are the log |
| CompactionRuns.SourceCoverage | agent-sdk/xr-ai-conversation/xr_ai_conversation/_context.py:414-446 | a source's folded updates are those up to `through`, its live ones those after |
| CompactionRuns.CoverageNeverGoesBack | agent-sdk/xr-ai-conversation/xr_ai_conversation/_context.py:276-302 | no step loses an entry, a fold, or decreases `through` |
| CompactionRuns.SummariesChain | agent-sdk/xr-ai-conversation/xr_ai_conversation/_context.py:276-302 | a summary changes only by its own job's commit, made from the summary it replaces and the oldest live entries |
| CompactionRuns.LatestIsNewest | agent-sdk/xr-ai-conversation/xr_ai_conversation/_context.py:608-612 | a summary's time is the newest time it covers |
| CompactionRuns.OneJobPerLane | agent-sdk/xr-ai-conversation/xr_ai_conversation/_context.py:235-237 | at most one unfinished job per section |
| CompactionRuns.RequestsFitTheInput | agent-sdk/xr-ai-conversation/xr_ai_conversation/_manager.py:148-154 | in every reachable state a request is within the configured input iff the framing of its oldest entry fits beside the summary; so for the dialogue and for topic names of at most 147 bytes |
| CompactionRuns.LongNamesOverflow | agent-sdk/xr-ai-conversation/xr_ai_conversation/_manager.py:134-155 | under every accepted configuration, a topic name as long as the input makes the first update's request exceed it |
| CompactionRuns.LongNameOverflows | agent-sdk/xr-ai-conversation/xr_ai_conversation/_manager.py:134-155 | one accepted configuration whose request exceeds its input |
| CompactionRuns.DialogueRenders | agent-sdk/xr-ai-conversation/xr_ai_conversation/_manager.py:295-302 | in every reachable state the dialogue section of a prompt is within its budget, for budgets that cover the headers and three quarters of themselves |
| CompactionRuns.SourceRenders | agent-sdk/xr-ai-conversation/xr_ai_conversation/_manager.py:260-277 | so is the section of every incremental source |
| CompactionProgress.OutlivingJobsChangeNothing | agent-sdk/xr-ai-conversation/xr_ai_conversation/_context.py:294-296 | a job that outlives `clear` changes no memory, whatever was written since |
| CompactionProgress.WritesSettle | agent-sdk/xr-ai-conversation/xr_ai_conversation/_manager.py:218-253 | after every write a job runs, or the section is within its trigger, or one exchange is left |
| CompactionProgress.QuietLanesAreWithin | agent-sdk/xr-ai-conversation/xr_ai_conversation/_context.py:465-490 | in a run without failed jobs, a section with no job outstanding is within its trigger or down to one exchange |
| CompactionProgress.ChainEnds | agent-sdk/xr-ai-conversation/xr_ai_conversation/_context.py:235-262 | without new exchanges a chain over n exchanges commits at most n - 1 times |
| Reconcile.FindNew | agent-sdk/xr-ai-conversation/xr_ai_conversation/_context.py:187-199 | the search computes the new exchanges: those after the longest overlap |
| Reconcile.MergingTwiceAddsNothing | agent-sdk/xr-ai-conversation/xr_ai_conversation/_context.py:110-126 | merging the same window twice adds nothing, for any identities |
| Reconcile.WindowsMergeExactly | agent-sdk/xr-ai-conversation/xr_ai_conversation/_context.py:164-200 | with unique exchanges the merge gives the longer prefix iff the window adjoins what is known |
| Reconcile.HistoriesAreKept | agent-sdk/xr-ai-conversation/xr_ai_conversation/_context.py:164-200 | any series of adjoining windows leaves exactly the history, nothing lost or twice |
| ConversationContexts.ConversationContext.Memory | agent-sdk/xr-ai-conversation/xr_ai_conversation/_context.py:145-146 | a participant's memory is created on first use only |
| ConversationContexts.ConversationContext.Append | agent-sdk/xr-ai-conversation/xr_ai_conversation/_context.py:148-162 | the entry gets the next sequence number and its identity is remembered; what was seen stays equal to the dialogue's log |
| ConversationContexts.ConversationContext.ScheduleCompaction | agent-sdk/xr-ai-conversation/xr_ai_conversation/_context.py:216-274 | a job starts iff none runs, the section is over its trigger and something may be taken; afterwards a job runs, or the section is within its trigger or down to one exchange |
| ConversationContexts.ConversationContext.RecordExchange | agent-sdk/xr-ai-conversation/xr_ai_conversation/_manager.py:239-253 | recording appends one exchange and schedules |
| ConversationContexts.ConversationContext.ReconcileTranscript | agent-sdk/xr-ai-conversation/xr_ai_conversation/_context.py:164-200 | exactly the new exchanges are appended, and what is seen is the merge |
| ConversationContexts.ConversationContext.ReconcileHistory | agent-sdk/xr-ai-conversation/xr_ai_conversation/_manager.py:225-237 | reconciling is one write of the new exchanges |
| ConversationContexts.ConversationContext.Update | agent-sdk/xr-ai-conversation/xr_ai_conversation/_manager.py:178-223 | an update of an unconfigured source is refused, any other appended and scheduled |
| ConversationContexts.ConversationContext.FinishJob | agent-sdk/xr-ai-conversation/xr_ai_conversation/_context.py:287-302 | a job commits iff its summary is usable and its participant still has its memory; the batch moves from the live entries into the bounded summary and no other section changes |
| ConversationContexts.ConversationContext.ForgetJob | agent-sdk/xr-ai-conversation/xr_ai_conversation/_context.py:465-490 | every section keeps what it holds; after a commit for the present owner a job runs or nothing is due |
| ConversationContexts.ConversationContext.ClearParticipant | agent-sdk/xr-ai-conversation/xr_ai_conversation/_context.py:448-460 | the memory is nobody's and never will be again, its running jobs are asked to stop, and neither other participants nor other jobs change |
| ShmLayout.GlobalRoundTrip | agent-sdk/xr-ai-hub/xr_ai_hub/_shm.py:36-36 | unpacking the packed global header gives its fields |
| ShmLayout.HeaderRoundTrip | agent-sdk/xr-ai-hub/xr_ai_hub/_shm.py:37-37 | unpacking a packed slot header gives its fields, negative times included |
| ShmLayout.SlotsAreDisjoint | agent-sdk/xr-ai-hub/xr_ai_hub/_shm.py:126-137 | slots lie inside the segment behind the global header and do not overlap |
| ShmRingRuns.ClaimIsNextFree | agent-sdk/xr-ai-hub/xr_ai_hub/_shm.py:371-380 | the search takes the next free slot round the ring and counts its probes |
| ShmRingRuns.ClaimFailsOnlyWhenFull | agent-sdk/xr-ai-hub/xr_ai_hub/_shm.py:371-380 | the search fails iff no slot is free |
| ShmRingRuns.StepGood | agent-sdk/xr-ai-hub/xr_ai_hub/_shm.py:197-367 | every step of writer and consumer keeps the byte invariant of every slot |
| ShmRingRuns.ReadsReturnTheWrite | agent-sdk/xr-ai-hub/xr_ai_hub/_shm.py:245-345 | a read succeeds iff the signal names the finished frame in the slot, and returns exactly its bytes |
| ShmRingRuns.WrittenIsReadable | agent-sdk/xr-ai-hub/xr_ai_hub/_shm.py:197-241 | an uninterrupted write is read back from its slot |
| ShmRingRuns.ViewsStayUntilRelease | agent-sdk/xr-ai-hub/xr_ai_hub/_shm.py:341-345 | a view's bytes do not change until its slot is released |
| ShmRingRuns.ReachableBuffersValidate | agent-sdk/xr-ai-hub/xr_ai_hub/_shm.py:154-193 | every reachable buffer, page-rounded or not, validates with its creation parameters iff both are positive |
| ShmRingRuns.StaleSignalsAreRefused | agent-sdk/xr-ai-hub/xr_ai_hub/_shm.py:313-339 | with unique sequence numbers a released frame's signal is refused for ever |
| ShmRingBuffers.ShmRingBuffer.constructor | agent-sdk/xr-ai-hub/xr_ai_hub/_shm.py:119-137 | a created segment has its global header and blank slots, in a mapping that may exceed the layout |
| ShmRingBuffers.ShmRingBuffer.FindFree | agent-sdk/xr-ai-hub/xr_ai_hub/_shm.py:371-380 | the loop computes the claim |
| ShmRingBuffers.ShmRingBuffer.WriteFrame | agent-sdk/xr-ai-hub/xr_ai_hub/_shm.py:197-241 | too large, all occupied exactly when no slot is free, or written and readable; the bytes are those of the three stages |
| ShmRingBuffers.ShmRingBuffer.Read | agent-sdk/xr-ai-hub/xr_ai_hub/_shm.py:245-345 | the checks in the code's order; the read succeeds iff the signal names the finished frame in its slot, and returns exactly that frame's bytes |
| ShmRingBuffers.ShmRingBuffer.ReleaseSlot | agent-sdk/xr-ai-hub/xr_ai_hub/_shm.py:347-367 | a READY slot becomes FREE with its metadata kept, anything else is refused |
| ShmRingBuffers.ValidateLayout | agent-sdk/xr-ai-hub/xr_ai_hub/_shm.py:154-193 | the loop computes the validation |
| EventStore.EventLog.Append | agent-sdk/xr-ai-web-events/xr_ai_web_events/_store.py:45-54 | the store holds the newest events of everything appended |
| EventStore.EventLog.EventsAfter | agent-sdk/xr-ai-web-events/xr_ai_web_events/_store.py:56-68 | the reply is what the log and the capacity determine |
| EventStore.ResetMeansLoss | agent-sdk/xr-ai-web-events/xr_ai_web_events/_store.py:60-61 | a reset is reported iff an event after the cursor was dropped, or the cursor is from the future or negative |
| EventStore.NegativeCursorResets | agent-sdk/xr-ai-web-events/xr_ai_web_events/_store.py:60-61 | a negative cursor resets although nothing was lost |
| EventStore.PollerSeesEverythingOnce | agent-sdk/xr-ai-web-events/xr_ai_web_events/_store.py:56-68 | a chained poller sees every event once and in order as long as no reset is reported |
| EventStore.PollsResetOnlyWhenOverrun | agent-sdk/xr-ai-web-events/xr_ai_web_events/_store.py:56-68 | a chained poll resets iff more than the capacity was appended since the last one |
| ToolLoop.RunToolLoop | agent-sdk/xr-ai-tools/xr_ai_tools/tool_calling.py:154-295 | the nested loops compute the specified exit |
| ToolLoop.RunBatch | agent-sdk/xr-ai-tools/xr_ai_tools/tool_calling.py:269-288 | the inner loop executes the batch in order up to a direct return |
| ToolLoop.OnlyDirectToolsReturn | agent-sdk/xr-ai-tools/xr_ai_tools/tool_calling.py:227-241 | a direct return comes from a direct tool, so from a batch of one |
| ToolLoop.EveryExitIsResumable | agent-sdk/xr-ai-tools/xr_ai_tools/tool_calling.py:174-295 | every exit leaves batches with unique, non-blank ids, each answered once, in order, right after its batch, within both limits |
| TranscriptStore.CandidatesDiffer | agent-sdk/xr-ai-tools/xr_ai_tools/text_memory.py:192-195 | the names tried for a source are pairwise different |
| TranscriptStore.AheadShrinks | agent-sdk/xr-ai-tools/xr_ai_tools/text_memory.py:192-207 | each name passed leaves fewer occupied ones, so the search ends |
| TranscriptStore.FaithfulIffPlain | agent-sdk/xr-ai-tools/xr_ai_tools/text_memory.py:152-240 | every source keeps one file, no two share one and queries find exactly what was appended, all of it iff no appended source has a carriage return |
| TranscriptStore.FilesAreStable | agent-sdk/xr-ai-tools/xr_ai_tools/text_memory.py:192-214 | for every log: each source's next append goes to the file of its earlier ones iff no source has a carriage return |
| TranscriptStore.FilesAreUnshared | agent-sdk/xr-ai-tools/xr_ai_tools/text_memory.py:192-214 | without carriage returns two appends write to one file iff they are of one source |
| TranscriptStore.ReturnsAreLost | agent-sdk/xr-ai-tools/xr_ai_tools/text_memory.py:174-207 | a source with a carriage return that appends twice gets two files, and a query finds neither |
| TranscriptStore.ReturnsShareFiles | agent-sdk/xr-ai-tools/xr_ai_tools/text_memory.py:197-207 | a source and its reading with a line feed write to one file |
| TranscriptStore.QueriesFindWhatWasAppended | agent-sdk/xr-ai-tools/xr_ai_tools/text_memory.py:174-240 | for every log: a query for any source finds what it appended behind its legacy lines, iff no appended source has a carriage return |
| TranscriptStore.SortIsStable | agent-sdk/xr-ai-tools/xr_ai_tools/text_memory.py:233-240 | results are ordered by time and equal times keep their order |
| TranscriptStore.ListedAreAppendedOrLegacy | agent-sdk/xr-ai-tools/xr_ai_tools/text_memory.py:242-255 | for every log: the listed sources are the original files and what the appended ids read back as |
| TranscriptFiles.Store.Claim | agent-sdk/xr-ai-tools/xr_ai_tools/text_memory.py:192-207 | the suffix search terminates and claims the specified name, writing an identity only once |
| TranscriptFiles.Store.AppendLine | agent-sdk/xr-ai-tools/xr_ai_tools/text_memory.py:209-214 | one line is added to the source's file and to no other, and no identity changes |
| TranscriptFiles.Store.Find | agent-sdk/xr-ai-tools/xr_ai_tools/text_memory.py:174-190 | the search without creating finds the canonical file or the first identity file, in the order of names, that reads as the source |
| TranscriptFiles.Store.QueryWindow | agent-sdk/xr-ai-tools/xr_ai_tools/text_memory.py:216-240 | the result is the stable time order of the lines found in the window; without carriage returns these are what the source appended |
| TranscriptFiles.Store.ListSources | agent-sdk/xr-ai-tools/xr_ai_tools/text_memory.py:242-255 | exactly the original files and what the appended ids read back as |
| Pacing.ReserveIsBounded | agent-sdk/xr-ai-voice/xr_ai_voice/_transport.py:390-406 | right after a send the reserve is at most the target (plus the tolerance) or the chunk |
| Pacing.SentAudioIsBounded | agent-sdk/xr-ai-voice/xr_ai_voice/_transport.py:383-406 | the audio of sends i to k is at most the elapsed time plus that bound |
| Pacing.DeadlineIsPlayoutEnd | agent-sdk/xr-ai-voice/xr_ai_voice/_transport.py:404-406 | the stored deadline is the finish time of a queue that plays without pause |
| PacingRuns.ReleaseKeepsTurns | agent-sdk/xr-ai-voice/xr_ai_voice/_transport.py:457-473 | after a participant is released its sends still take turns iff nobody else waited for the lock that is deleted |
| PacingRuns.StopKeepsTurns | agent-sdk/xr-ai-voice/xr_ai_voice/_transport.py:477-488 | after everything stops, iff nobody waited or sent |
| PacingRuns.DeadlineIsOwn | agent-sdk/xr-ai-voice/xr_ai_voice/_transport.py:383-406 | in every run that deletes no lock under a waiter the deadline is what the participant's own sends since its last reset lead to; a clear during a send hides it until the send stores it |
| PacingRuns.LateClearForgets | agent-sdk/xr-ai-voice/xr_ai_voice/_transport.py:525-528 | the clear outside the locks forgets audio sent after the participant's own reset |
| Pacing.Pacer.SendPaced | agent-sdk/xr-ai-voice/xr_ai_voice/_transport.py:383-406 | the participant's deadline moves on by at least the send and at most the bound; nobody else's changes |
| Pacing.Pacer.Interrupt | agent-sdk/xr-ai-voice/xr_ai_voice/_transport.py:512-530 | the next send of the participant, or of everybody, is paced as if nothing were queued; nobody else's changes |
| Pacing.Pacer.Preroll | agent-sdk/xr-ai-voice/xr_ai_voice/_transport.py:295-323 | the counted loop paces its eight chunks and cannot run ahead of real time by more than one |

## Left out

- ZMQ, msgpack, HTTP, WebSocket, gRPC and LiveKit transports: sockets appear as queues or not at all.
- asyncio itself: tasks are pending, running or done; a cancellation is a flag that takes effect at the next step of that task.
- Contents of model answers: only their sizes, choices and failures matter.
- Tracing, logging, metrics and pydantic validation, which change no modelled state.
- Pipecat processors and media senders; of the transport only the pacing of return audio and its locks are modelled, over reals instead of floats.
- Which sends a released participant's media sender cancels: any waiting call may be abandoned at any time.
- The acknowledgment task, spoken failure messages and first-answer timing of the router, which do not decide routing.
- Initialization of a participant in the router is one await without an outcome of its own, and the join task's work is not modelled beyond reopening admission.
- Routing aids whose name differs from their destination, and hooks that raise inside a turn: both end the turn with an exception.
- A focus on a destination that is not registered, which the code cannot create.
- `ContextManager.close`, source order and the rendered order of blocks; summary topics appear only as the text that is stored for them.
- Text digests and object identities are compared as if they never collided; lone surrogates have no encoding here.
- Calendar dates: the label's length is what the size theorems use; that the date is the right one is not stated.
- JSON layout of transcript lines, corrupt lines, the empty source id, case folding and permissions: a directory is two maps from names to contents.
- The header of a ring slot is written in one step; a torn header write is not modelled, and neither is the producer's probing while slots are released under it.
- Ring frames whose metadata a header field cannot hold, for which the original raises while packing.
- ShmRingBuffers.ShmRingBuffer.Read: returns a copy of the bytes; that the original's view aliases the segment is what `ShmRingRuns.ViewsStayUntilRelease` covers.
- FileSessionOrderers.FileSessionOrderer.RecordDeparture: does not model a negative `max_departures`, with which the original would pop from an empty map.
- ToolLoop.RunToolLoop: an exception of a tool handler ends the turn without a transcript, and tool messages carry an outline of the original's JSON text.
- TranscriptFiles.Store.Find: keeps the earliest matching identity file instead of sorting them first.
- Platforms whose line ending is not a line feed: identities are written as they are.
