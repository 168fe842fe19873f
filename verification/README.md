# Digital twin: verified models of turns, streams, retrieval and ledgers

This project models the parts of the digital-twin server whose correctness depends on order, retries and
exact text, and proves what they keep. It is grouped as the program is.

**Turns.** Clients race through Begin, Complete, Fail, Cancel and Release on one conversation store.
`TurnRecords` holds the stored conversation and the decisions taken on one loaded copy, `TurnProtocol` the
interleaved steps of any number of clients over gate, store and sessions, `TurnTheorems` what every run keeps.
`Coordinators` and `Orchestrators` are the running objects, updated in place; `Orchestrator.Stream` is proved to
be a run of the state machine. `ContextWindows` is the history a turn is answered from, and `TurnHistories` that a
committed answer stays in it.

**Guarded text.** `Normalization`, `StreamGuards` and `PersonaStreams` model the filter that cuts model output
at sentence boundaries and releases only checked text, for every chunking. `StreamLeaks` says exactly which
forbidden claims get past it all the same, and `AnswerStreams` what the events of a run with that filter add up to.

**The event wire.** `Splitting` and `Sse` model the writer of server-sent events and the buffered parser in the
browser (sections 9.2.5 and 9.2.6 of the WHATWG HTML Living Standard).

**Metrics.** `Sorting` and `MetricKeys` model the printed key of a series and the maps kept under such keys.

**Knowledge.** `Chunking`, `Retrieval` and `Pipelines` model how a document is cut, scored and searched, and
that the map-based pipeline answers as the plain retriever does.

**Repair ledgers.** `Recurrences`, `RecurrenceProjections`, `Verification`, `Promotions` and `PromotionServices` model the ledgers of
repaired knowledge gaps; `Checkpoints` and `Trends` the quality reviews.

Nondeterminism is explicit: which client steps next, failures of stores, windows and sinks, and what an agent
answers are parameters of a step; the range over a Go map picks any key. Runs are folds over lists of steps, so
a statement about a run is about every interleaving.

## What the code does that a caller may not expect

- A streamed replay never releases the gate of its conversation: afterwards every other client is refused as busy
  (`TurnTheorems.ReplayLocksConversation`; `Orchestrators.ReplayHappens` is a run that gets there, and
  `Orchestrators.Orchestrator.Stream` says when a run is a replay).
- A completed turn is not replayed but refused as a mismatch when its message id had been used before for another
  content (`TurnTheorems.ReplayExactly`, `TurnTheorems.SharedMessageIdLosesReplay`).
- Retrying an older turn after a newer one was completed can leave the message being answered out of the window
  (`ContextWindows.RetryMayDropItsMessage`); `ContextWindows.WindowHolds` says exactly when it is in.
- A forbidden claim with white space or the end of a sentence inside can be streamed piece by piece
  (`StreamLeaks.ShownExactly`, `StreamLeaks.SafeExactlyWhenTame`). One in which a sentence ends and the next character
  follows without white space can even be in the accepted answer, and no other claim can
  (`StreamLeaks.AnsweredExactly`, `StreamLeaks.AnswerMayHoldClaim`).
- An event name with a line feed is not read back (`Sse.RoundTripExactly`).
- Confirm and Dismiss read and save in two steps: an occurrence in between is lost from the count, and a later
  verdict overwrites an earlier one (`Recurrences.LostOccurrence`, `Recurrences.LateDismissal`, with runs in
  `Recurrences.OccurrenceIsLost` and `Recurrences.VerdictIsOverwritten`). Counts stay exact and verdicts final in
  exactly the runs of `Recurrences.CountsExactly` and `Recurrences.TerminalForever`.
- A suspected recurrence is not shown once a hundred records of its gap are newer (`RecurrenceProjections.ProjectionMeans`).
- A create without gap ids and one with an empty list conflict under one key (`Checkpoints.NoGapsIsNotEmptyGaps`,
  `Checkpoints.SameFingerprint`).

## Model

| member | source | states |
|---|---|---|
| TurnRecords.GateKeyInjective | internal/conversation/coordinator.go:354-356 | two valid tenant, user and conversation triples share a gate key only if they are equal |
| TurnRecords.RequestsExactly | pkg/types/contracts.go:205-226 | a request is let in exactly when its six ids are usable, its message is a user's and not all white space |
| TurnRecords.BeginOnStoredTurn | internal/conversation/coordinator.go:102-133 | for a stored turn of every status: a session is planned exactly when the first message with the turn's user message id has the request's content and no attempt has the request's attempt id; it is a replay, of the stored result, exactly when the turn is completed and has one; a missing message, another content and a used attempt (on a completed turn too) each give their own refusal; otherwise the turn is open again with one more generating attempt and nothing else changed |
| TurnRecords.BeginOnNewTurn | internal/conversation/coordinator.go:135-151 | a turn that is not stored is always opened: its message and one open turn with one generating attempt are appended, the rest stays |
| TurnRecords.BeginExactly | internal/conversation/coordinator.go:102-151 | both cases as one law: granted exactly when the request is acceptable, replayed exactly when its turn is already answered |
| TurnRecords.BeginKeeps | internal/conversation/coordinator.go:102-151 | the conversation Begin saves keeps every earlier message and turn, conserves messages and leaves the request's attempt generating on an open turn |
| TurnRecords.FinishExactly | internal/conversation/coordinator.go:166-235 | there is an end to save exactly when turn and attempt are there, and it changes that turn and that attempt only: Complete stores status, result and the answer's message id and appends the answer, Fail the failed status and the error code, Cancel the canceled status |
| TurnRecords.FinishKeeps | internal/conversation/coordinator.go:166-190 | ending a live attempt always finds its turn and attempt, changes nothing else, and only Complete commits an answer, the one it was given |
| TurnProtocol.StepEffectOk | internal/conversation/coordinator.go:74-235 | whatever step a client takes, what it does to the gate, the store and itself keeps the conversation in order and the client truthful about the store |
| TurnProtocol.SavedAgainOk | internal/conversation/coordinator.go:166-235 | when a session saves its end, its turn and attempt are there: the "turn missing" and "attempt missing" errors do not occur |
| TurnProtocol.ApplyKeeps | internal/conversation/coordinator.go:74-235 | one step of any client keeps the invariant over gate, store and all clients |
| TurnProtocol.EnsureIdentityIdentifies | internal/runtime/orchestrator.go:381-394 | an answer with an id keeps its whole message; one without gets the id made of "assistant", the turn and the request, and the assistant role if it has none; agent name and content stay, and the id is never blank |
| TurnTheorems.Exclusivity | internal/conversation/lock.go:16-28 | in every reachable world two unreleased sessions are of different conversations, and the gate holds exactly the keys of the unreleased sessions |
| TurnTheorems.BusyExactlyWhenHeld | internal/conversation/coordinator.go:82-86 | Begin is refused as busy exactly when another session of the same conversation is unreleased |
| TurnTheorems.RunningTurnIsOpen | internal/conversation/coordinator.go:128-147 | the turn of a running session is stored open, with that session's attempt generating |
| TurnTheorems.ReleaseTwice | internal/conversation/coordinator.go:200-209 | releasing a session again changes nothing, so it never frees a newer holder |
| TurnTheorems.RunGrows | internal/conversation/coordinator.go:126-190 | over every run a stored conversation only grows: messages at the end, turns and attempts appended, completed turns untouched |
| TurnTheorems.ConversationsConserved | internal/conversation/coordinator.go:126-190 | in every reachable world turn ids are distinct, every turn's user message is present, messages were never rewritten, and there are as many as turns plus completed turns |
| TurnTheorems.CompletedTurnIsFrozen | internal/conversation/coordinator.go:166-190 | no later step of any client changes a completed turn: status, result, answer id and attempts stay |
| TurnTheorems.CompletedTurnHasOneAnswer | internal/conversation/coordinator.go:128-189 | a turn has a result exactly when it is completed, exactly then one attempt is completed, and never two; attempt ids are distinct |
| TurnTheorems.ReplayExactly | internal/conversation/coordinator.go:105-126 | a request for a completed turn with the original content and a fresh attempt is answered by the stored result exactly when its message id was free or first used for the same content; otherwise it is refused as a mismatch |
| TurnTheorems.SharedMessageIdLosesReplay | internal/conversation/coordinator.go:300-310 | the condition is needed: two turns that share a message id, the second is completed and can never be replayed |
| TurnTheorems.ReplayInEveryRun | internal/conversation/coordinator.go:102-126 | the same in every run: client b gets the answer of the turn client a opened, and nothing is saved |
| TurnTheorems.BeginInEveryRun | internal/conversation/coordinator.go:102-151 | the case law in every run and for a turn of every status: once client a has opened a turn, what any client b gets for that turn is decided by the content a gave and the attempts used, and a failed or canceled turn is never reopened for another content |
| TurnTheorems.StreamEventsInOrder | internal/runtime/orchestrator.go:134-226 | events of a run are numbered 1 to n without gaps, at most one done is sent and it is last, done{completed} only right after message_completed |
| TurnTheorems.CommittedBeforeAcknowledged | internal/runtime/orchestrator.go:212-226 | from the moment message_completed is sent, and whatever other clients do later, the store holds that turn completed with that content |
| TurnTheorems.GateFreedUnlessReplay | internal/runtime/orchestrator.go:138-227 | a run that passed Begin ends with its gate still held exactly when it was a replay; Orchestrator.Stream says from its inputs when it is one |
| TurnTheorems.ReplayLocksConversation | internal/runtime/orchestrator.go:142-156 | after one streamed replay every other client of the conversation is refused as busy in every continuation of the run |
| Coordinators.ActiveConversationGate.TryAcquire | internal/conversation/lock.go:16-28 | takes the key exactly when it was free and touches no other key |
| Coordinators.GateRelease.Run | internal/conversation/lock.go:23-27 | the release closure frees exactly its own key |
| Coordinators.TurnSession.Release | internal/conversation/coordinator.go:200-209 | the first call frees the key of the session, later calls nothing |
| Coordinators.FindTurnIndex | internal/conversation/coordinator.go:316-323 | the first turn with the id, or -1 |
| Coordinators.FindAttempt | internal/conversation/coordinator.go:312-314 | the first attempt with the id, or -1 |
| Coordinators.EnsureTurnContentMatches | internal/conversation/coordinator.go:300-310 | the first message with the turn's user message id decides between match, mismatch and missing |
| Coordinators.Coordinator.Begin | internal/conversation/coordinator.go:74-164 | a session is granted exactly when the request is acceptable (new turn, or same content and unused attempt) and every load, save and window succeeded; it is a replay of the stored result exactly when the turn is already answered; the store gets exactly the opened turn; otherwise the gate is as before and the refusal is the one of the case |
| Coordinators.PlanTurn | internal/conversation/coordinator.go:102-151 | the branches of Begin on the loaded conversation compute the plan |
| Coordinators.Coordinator.Complete | internal/conversation/coordinator.go:166-190 | answer, completed turn with result and answer id, and completed attempt are saved together, nothing else changes, and the session is always released |
| Coordinators.Coordinator.FinishWithoutAssistant | internal/conversation/coordinator.go:192-236 | Fail and Cancel mark turn and attempt as failed with its code or canceled, add no message, change nothing else and always release |
| Orchestrators.StreamEmitter.EmitEvent | internal/runtime/orchestrator.go:297-306 | the n-th event sent carries sequence number n, whether or not the sink takes it |
| Orchestrators.BeginRefines | internal/conversation/coordinator.go:74-164 | one call of Begin is a sequence of steps of the state machine |
| Orchestrators.FinishRefines | internal/conversation/coordinator.go:166-235 | one call of Complete, Fail or Cancel is a sequence of steps of the state machine |
| Orchestrators.Orchestrator.Stream | internal/runtime/orchestrator.go:108-227 | a run of Stream is a run of one client of the state machine from any world that keeps the invariant; it is a replay exactly when the sink takes the first event, Begin grants and the turn is already answered, and only then the gate is not left as it was; otherwise the returned answer is the agent's with its identity made sure, never with a blank message id, is stored under that id in the completed turn, and the events are exactly start, route, agent, the deltas, the message and done; without an answer they are a front of those and the failing or canceled end |
| Orchestrators.ReplayHappens | internal/runtime/orchestrator.go:142-156 | a streamed replay is reached from the empty world for any turn: a client streams it to its answer, a second one asks for it again and holds the key |
| AnswerStreams.StreamPersona | internal/runtime/orchestrator.go:158-226 | with the persona agent, a message that is announced and returned is committed under an id that is not blank and, when it was generated, is exactly the concatenation of the deltas sent before it and holds no one-word claim without an inner sentence end; when it is a fallback no delta was sent |
| Orchestrators.Orchestrator.Answer | internal/runtime/orchestrator.go:158-226 | after Begin: the exact events of route, agent, deltas and end, the identified answer committed, or the turn stored failed or canceled; a sink that refuses an event ends the turn failed as sink_failed; the gate is freed on every path |
| Orchestrators.Orchestrator.GiveUp | internal/runtime/orchestrator.go:164-210 | a failed or canceled run frees the gate and never returns an answer |
| ContextWindows.ProjectConversation | internal/conversation/coordinator.go:270-298 | exactly the system messages and the messages of completed turns and of the active open turn, in stored order, said by fields and not by the set the code builds |
| ContextWindows.ProjectedExactly | internal/conversation/coordinator.go:270-298 | the projection is the part of the stored messages, in order and with repetitions, of exactly those that are system messages, or whose id is the user message id or the answer id (not empty) of a completed turn, or the user message id of the active open turn |
| TurnHistories.CommittedAnswerIsShown | internal/conversation/coordinator.go:166-190 | from the moment an answer with an id is committed it is in the projection of every later turn, in every continuation of the run |
| ContextWindows.EstimateMeans | internal/memory/short.go:40-52 | a content costs the number of its words; no words, or one solid word with a character outside ASCII, cost its length |
| ContextWindows.SelectRecentTurns | internal/memory/short.go:74-107 | the loop keeps a final user message and the longest run of pairs before it that fit what it leaves of the budget |
| ContextWindows.SelectedKeepsBest | internal/memory/short.go:74-107 | what is kept is a suffix; the pairs in it fit the budget less the final user message, and one pair more, where there is one, would not |
| ContextWindows.ShortTermMemory.BuildWindow | internal/memory/short.go:23-38 | the system messages, in order, followed by the best fitting suffix of the others |
| ContextWindows.WindowExactly | internal/memory/short.go:23-38 | the same law for the specified window |
| ContextWindows.FittingPairsLongest | internal/memory/short.go:89-104 | the pairs kept are a run of user and assistant messages within the budget, and every longer such run costs more |
| ContextWindows.WindowShape | internal/memory/short.go:31-37 | the window is the system messages, then a contiguous suffix of the rest made of the longest fitting run of pairs and a final user message |
| ContextWindows.WindowEndsWith | internal/conversation/coordinator.go:262-268 | with distinct message ids the window ends with the active user message exactly when nothing of a completed turn is stored after it |
| ContextWindows.NewTurnWindow | internal/conversation/coordinator.go:135-164 | the window of a new turn ends with its user message and shows otherwise only system messages and messages of completed turns |
| ContextWindows.WindowHolds | internal/memory/short.go:74-107 | with distinct message ids the active user message is in the window exactly when nothing of a completed turn is stored after it, or it opens one of the pairs that, counted back from the end, fit the budget together |
| ContextWindows.RetryMayDropItsMessage | internal/conversation/coordinator.go:262-298 | a run of five calls for any two requests: the first turn fails, the second is completed, the first is tried again, and then its user message is not in the window, whatever the budget |
| Normalization.SquashCons | internal/persona/persona.go:105-107 | what one more character in front does to a text whose white space runs are squashed |
| Text.CharacterCodes | internal/persona/persona.go:105-107 | white space and the change to lower case by character codes |
| Normalization.NormalizeFixed | internal/persona/persona.go:105-107 | normalising is idempotent, and a normalised text neither starts nor ends with white space |
| Normalization.NormalizePart | internal/persona/persona.go:105-107 | what occurs in the normal form of a part of a text occurs in that of the whole |
| Normalization.NormalContains | internal/persona/persona.go:105-107 | one word occurs in the normal form exactly when it occurs in the lower-cased text |
| StreamGuards.CheckMeans | internal/persona/guard.go:19-49 | a text is allowed exactly when no non-empty claim occurs and, at low confidence, a marker of uncertainty does; a rejection names the first claim that occurs |
| StreamGuards.UncertaintyMeans | internal/persona/guard.go:38-49 | the seven markers of uncertainty, one by one |
| StreamGuards.CleanPart | internal/persona/guard.go:20-26 | a part of a text that is free of claims is free of claims |
| StreamGuards.LastSentenceBoundary | internal/persona/stream_guard.go:99-107 | the position after the last sentence boundary, or zero when there is none |
| StreamGuards.AddConserves | internal/persona/stream_guard.go:33-77 | released segment and pending text together are the pending text and the chunk; a rejected chunk or a buffering guard releases nothing |
| StreamGuards.AddShows | internal/persona/stream_guard.go:54-76 | a released segment ends a sentence and is free of claims; what stays pending has no sentence boundary unless the guard buffers |
| StreamGuards.AddAllows | internal/persona/stream_guard.go:54-56 | a text free of claims and within the size limit is never rejected on the way |
| StreamGuards.FinalizeKeeps | internal/persona/stream_guard.go:79-93 | finalising decides as the guard on the whole text does, and releases all pending text exactly when that allows |
| StreamGuards.StreamGuard.Add | internal/persona/stream_guard.go:33-77 | the fields after Add and its answer are those of the specification |
| StreamGuards.StreamGuard.Finalize | internal/persona/stream_guard.go:79-93 | the fields after Finalize and its answer are those of the specification |
| PersonaStreams.ReceivedKeeps | internal/agents/experts.go:168-184 | throughout a run nothing of the text is lost, and exactly the released segments that are not blank were handed to the sink, in order |
| PersonaStreams.ReceivedText | internal/persona/stream_guard.go:38-39 | a run that still goes on has exactly the text of the chunks received so far |
| PersonaStreams.ReceivedFits | internal/persona/stream_guard.go:40-44 | a run that was not rejected holds at most 262144 characters, and what it has released never exceeds that |
| PersonaStreams.AgreesWithWholeGuard | internal/agents/experts.go:168-217 | with a sink that takes everything, whatever the chunks, the text becomes the answer exactly when it is within the size limit, the guard allows it as a whole and it is not blank |
| PersonaStreams.AllOrNothing | internal/agents/experts.go:141-217 | a generated answer is exactly the text that was shown, was allowed as a whole and differs from it only in white space; a fallback answer comes only when nothing was shown |
| PersonaStreams.EndsExactly | internal/agents/experts.go:186-217 | for every chunking, sink and ending: when a run generates, falls back as empty, as rejected or for the provider, and so when it fails; fallbacks come exactly when nothing but white space went out, the provider's never after a cancellation or under a closed policy |
| PersonaStreams.RefusalEnds | internal/agents/experts.go:467-478 | every delta before the last was taken; a refused delta is the last one and ends the run as refused or canceled |
| PersonaStreams.LowConfidenceShowsCheckedText | internal/persona/stream_guard.go:25-31 | below a confidence of 0.5 at most one delta is sent, the whole text, and only after the whole text was allowed |
| PersonaStreams.PersonaAgent.EmitDelta | internal/agents/experts.go:467-478 | blank segments are dropped; others go to the sink and are kept exactly when it takes them |
| PersonaStreams.PersonaAgent.Stream | internal/agents/experts.go:168-217 | the deltas sent and the result are those of the specified run |
| StreamLeaks.ShownExactly | internal/persona/stream_guard.go:33-93 | for every claim, of any length: some run with the claim forbidden shows it in full if and only if an answer can hold it, or it splits into a front that falls into releasable pieces and a rest that fits one more segment, within the size limit |
| StreamLeaks.AnsweredExactly | internal/agents/experts.go:168-217 | for every claim, of any length: some run with the claim forbidden ends with an answer that holds it if and only if a sentence ends inside the claim with no white space after it, the part up to there falls into releasable pieces, and the claim is shorter than the size limit |
| StreamLeaks.ShortClaims | internal/persona/stream_guard.go:54-76 | for claims of up to 4096 characters those conditions are: not one word without an inner sentence end, and a sentence end directly followed by a character that is not white space |
| StreamLeaks.NeverShown | internal/agents/experts.go:168-206 | whatever the chunks, the confidence, the sink and the way the run ends, a claim that is one word without an inner sentence end never occurs in the text the client was handed |
| StreamLeaks.SafeExactlyWhenTame | internal/persona/stream_guard.go:33-93 | no run of any configuration shows a claim of up to 4096 characters if and only if it is one word without an inner sentence end |
| StreamLeaks.AnswerMayHoldClaim | internal/agents/experts.go:192-217 | a claim of up to 4096 characters can be in a returned answer, although the final guard allowed the text, if and only if a sentence ends inside it and the next character is not white space |
| Splitting.SplitAppend | web/app.js:592-593 | splitting a text piecewise, carrying the last part over, is splitting the whole |
| Splitting.JoinSplit | internal/server/server.go:2011-2012 | joining undoes splitting, for every separator |
| Splitting.PartsHaveNoSeparator | internal/admin/knowledge.go:453-453 | no part of a split text contains the separator |
| Sse.ResponseWriter.WriteSse | internal/server/server.go:2009-2016 | what is written is the event line, then the data with "data: " in front of each of its lines, then an empty line |
| Sse.FrameTextIs | internal/server/server.go:2009-2016 | the text of an event in one formula of its name and data |
| Sse.ParseSseFrames | web/app.js:590-604 | the nested loops compute the specified frames and remainder |
| Sse.OneMoreLine | web/app.js:594-601 | what one more line does to a frame: an event line names it, a data line adds a line, any other does nothing |
| Sse.FrameMeans | web/app.js:595-602 | the last event line names a frame, one without is a "message", and one without data lines has empty data |
| Sse.ParseInTwo | web/app.js:580-584 | parsing a text in two pieces, the first remainder put before the second piece, gives the frames of the whole and its remainder |
| Sse.FedIsParse | web/app.js:574-588 | for arbitrary text in arbitrary pieces the buffer loop renders what parsing the whole gives |
| Sse.PresentationReader.Read | web/app.js:578-587 | after every read the events rendered and the buffer are those of parsing everything received so far |
| Sse.WireReadBack | internal/server/server.go:2009-2016 | written events are parsed back as they were, CRLF in data turned to LF, with an empty remainder |
| Sse.RoundTripExactly | internal/server/server.go:2009-2016 | a list of written events is parsed back exactly if and only if no event name contains a line feed; any data does |
| Sse.AnyPieces | web/app.js:574-604 | whatever pieces the wire is cut into, the browser renders the written events |
| Sorting.AscendingUnique | internal/observability/metric_key.go:17-17 | sorting by a strict total order gives one result whatever the algorithm and the order of the input |
| Sorting.StringsTotal | internal/observability/metric_key.go:17-17 | the order of strings is strict and total |
| Sorting.StringLessMeans | internal/observability/metric_key.go:17-17 | the order is that of the first differing byte, a proper prefix coming first |
| MetricKeys.LabelNames | internal/observability/metric_key.go:13-17 | the sorted label names do not depend on the order in which the map is ranged over |
| MetricKeys.MetricKey | internal/observability/metric_key.go:8-34 | the printed key of a name and its labels |
| MetricKeys.KeyShapes | internal/observability/metric_key.go:8-34 | the keys without labels, with one and with two, written out |
| MetricKeys.EscapeIsEach | internal/observability/metric_key.go:36-39 | the two replacements of escapeLabelValue escape each backslash and quote once |
| MetricKeys.KeyReadBack | internal/observability/metric_key.go:8-39 | name and labels can be read back from the key, for all label values |
| MetricKeys.KeysAreInjective | internal/observability/metric_key.go:8-39 | for names without an opening brace and label names without an equals sign two series share a key exactly when they are the same series |
| MetricKeys.BraceInNameCollides | internal/observability/metric_key.go:8-34 | every labelled series shares its key with the unlabelled series whose name is that key |
| MetricKeys.EqualsInLabelCollides | internal/observability/metric_key.go:22-31 | a label name with an equals sign can stand for two labels |
| MetricKeys.MetricsMean | internal/observability/metrics.go:42-62 | after any calls the value under the key of a series is the value a map keyed by name and labels would hold |
| MetricKeys.MeantExactly | internal/observability/metrics.go:42-62 | and that value is the sum of what was added, what was set last, and all observed values in order |
| MetricKeys.MemoryMetrics.AddCounter | internal/observability/metrics.go:42-47 | the counter under the key grows by the amount and nothing else changes |
| MetricKeys.MemoryMetrics.IncCounter | internal/observability/metrics.go:38-40 | the counter grows by one |
| MetricKeys.MemoryMetrics.SetGauge | internal/observability/metrics.go:49-54 | the gauge under the key is the value and nothing else changes |
| MetricKeys.MemoryMetrics.Observe | internal/observability/metrics.go:56-62 | the value is appended under the key and nothing else changes |
| MetricKeys.MemoryMetrics.Snapshot | internal/observability/metrics.go:64-79 | the snapshot holds for each series what its calls mean |
| Chunking.ChunkOrdinalFromID | internal/knowledge/retriever.go:121-134 | the digits after the last dash read as a 64-bit number, or zero |
| Chunking.OrdinalReadBack | internal/knowledge/retriever.go:121-134 | the ordinal printed into a chunk id is read back, for every document id and every 64-bit ordinal |
| Chunking.OrdinalMeans | internal/knowledge/retriever.go:121-134 | the ordinal of any id is the decimal number after its last dash in 64 bits, and zero when that is not a number |
| Chunking.ChunkIDIs | internal/admin/knowledge.go:462-462 | a chunk id is the document id, ":chunk-" and the ordinal in at least four digits, no longer than needed |
| Chunking.ChunkIDInjective | internal/admin/knowledge.go:462-462 | a chunk id names one document and one ordinal |
| Chunking.ChunkKnowledge | internal/admin/knowledge.go:452-469 | one chunk for each paragraph, numbered 1 to n in order, with the printed id |
| Chunking.ChunkingConserves | internal/admin/knowledge.go:452-469 | the chunk texts together are the content, up to white space |
| Chunking.ChunksAreParagraphs | internal/admin/knowledge.go:455-459 | every chunk is trimmed, not empty and has no empty line inside |
| Chunking.NoChunksExactlyWhenBlank | internal/admin/knowledge.go:455-459 | there are no chunks exactly for blank content |
| Chunking.ChunkingStable | internal/admin/knowledge.go:452-469 | paragraphs joined by empty lines are cut into themselves |
| Retrieval.TokensMean | internal/knowledge/retriever.go:106-110 | tokens are the maximal runs between separators: none empty, together the text without separators, as many as there are starts |
| Retrieval.SeparatorCodes | internal/knowledge/retriever.go:106-110 | the separators by their codes |
| Retrieval.ScoreMeans | internal/knowledge/retriever.go:86-104 | one for each token that occurs, two more for the whole query, two more again if the query has a character from U+4E00 to U+9FFF; nothing for a blank chunk |
| Retrieval.ScoreChunk | internal/knowledge/retriever.go:86-104 | the loop counts tokens and bonuses as specified |
| Retrieval.ScorePositive | internal/knowledge/retriever.go:46-49 | a chunk is a candidate exactly when it is not blank and a query token or the whole query occurs in it |
| Retrieval.Search | internal/knowledge/retriever.go:33-84 | for any documents: scores never increase along the result, equal scores go by document id in byte order and then by ordinal, every candidate left out scores no higher than any returned, there are as many as limit and candidates allow, and ranks count from one |
| Retrieval.TopIsBestFirst | internal/knowledge/retriever.go:68-83 | the correct results in terms of scores, ids and ordinals, without the order the sort uses |
| Retrieval.NothingBetterOmitted | internal/knowledge/retriever.go:68-83 | no candidate left out beats one returned |
| Retrieval.NormalizedTrim | internal/knowledge/pipeline.go:91-91 | trimming the query first makes no difference to what is searched for |
| Pipelines.CandidatesExactly | internal/knowledge/retriever.go:42-67 | candidates are exactly the chunks of ready documents with a positive score |
| Pipelines.SameChunkSameHit | internal/knowledge/pipeline.go:270-288 | in stored documents a chunk id names one candidate |
| Pipelines.TopIsBest | internal/knowledge/retriever.go:68-83 | on stored documents every correct search returns the same hits |
| Pipelines.BestBeatsRest | internal/knowledge/retriever.go:68-83 | the best hits fill the limit, and every one of them beats every candidate left out |
| Pipelines.RelevantExactly | internal/knowledge/pipeline.go:230-268 | the documents searched are those ready, active or without review, and of the space asked for; those held back are the ready ones of the space under another review |
| Pipelines.ExpectedIsBest | internal/knowledge/pipeline.go:82-228 | the expected results are hits of those documents, best score first, no better one left out, none below the threshold |
| Pipelines.GatedHits | internal/knowledge/pipeline.go:305-311 | something was held back by review exactly when a chunk of such a document has a positive score |
| Pipelines.IndexDocuments | internal/knowledge/pipeline.go:270-288 | on stored documents the index finds every chunk under its id |
| Pipelines.CollectExplanations | internal/knowledge/pipeline.go:122-130 | the candidates map holds one explanation for each chunk found |
| Pipelines.ListExplanations | internal/knowledge/pipeline.go:158-169 | the range over the map lists each positive candidate once, in any order |
| Pipelines.SortedExplanations | internal/knowledge/pipeline.go:171-171 | sorting what the map yields gives the order of the retriever back |
| Pipelines.Search | internal/knowledge/pipeline.go:82-228 | on stored documents with distinct ids, for every range order of the map, the results are the retriever's on the ready, review-active documents of the space, same chunks, scores, order and ranks, cut at the threshold: the highest scores first and no hit left out that scores higher; the reason given for an empty answer, and the number held back, are said by the documents |
| Recurrences.RecurrenceStore.ObserveRepairRecurrence | internal/admin/knowledge_recurrence.go:230-264 | the two scans and the append do what the specification of the ledger says |
| Recurrences.RecurrenceStore.SaveRepairRecurrence | internal/admin/knowledge_recurrence.go:96-110 | the record with the same tenant and id is replaced, or the record appended |
| Recurrences.RecurrenceStore.GetRepairRecurrence | internal/admin/knowledge_recurrence.go:304-311 | the first record with the tenant and id |
| Recurrences.ConfirmRecurrence | internal/admin/knowledge_recurrence_service.go:145-168 | an uninterrupted Confirm is a read and a save of the state machine; the first record with the id becomes confirmed and no other changes |
| Recurrences.DismissRecurrence | internal/admin/knowledge_recurrence_service.go:170-188 | an uninterrupted Dismiss is a read and a save of the state machine; the first record with the id becomes dismissed with the squashed reason and no other changes |
| Recurrences.RunKeeps | internal/admin/knowledge_recurrence.go:230-264 | when no audit id is used for two gaps, in every interleaving: record ids and observation keys are unique, each gap has at most one suspected record, every observation resolves to a record of its own gap, no count exceeds the observations |
| Recurrences.DetectExactly | internal/admin/knowledge_recurrence.go:230-264 | a new detection adds one observation that points at its record: the gap's suspected record with one occurrence more and the latest audit, answer and time, or else a new suspected record with one occurrence; any other leaves the ledger as it is |
| Recurrences.NewlySeenMeans | internal/admin/knowledge_recurrence.go:237-242 | a detection is new exactly when its ids are usable and no observation has its tenant, gap and audit |
| Recurrences.ReviewExactly | internal/admin/knowledge_recurrence_service.go:145-188 | a review saves exactly when its client holds a copy and, for a dismissal, the squashed reason has 1 to 240 characters; it saves that copy with the verdict, its date and reason, and nothing else changed |
| Recurrences.ReviewKeeps | internal/admin/knowledge_recurrence_service.go:145-188 | a review keeps the invariant; exact counts stay exact exactly when the saved copy counts what the stored record counts |
| Recurrences.CountsExactly | internal/admin/knowledge_recurrence_service.go:59-73 | throughout a run every count equals the observations pointing at the record, if and only if no review saves a count other than the stored one |
| Recurrences.TerminalKept | internal/admin/knowledge_recurrence_service.go:145-188 | a step changes a confirmed or dismissed record exactly when it is a review that saves over it a copy that differs; the record keeps its identity and stays closed |
| Recurrences.TerminalForever | internal/admin/knowledge_recurrence_service.go:145-188 | verdicts are final throughout a run if and only if every review that saves finds its target still suspected or already equal to what it saves |
| Recurrences.AtomicReviewIsHarmless | internal/admin/knowledge_recurrence_service.go:145-188 | a review that follows its read at once meets both conditions |
| Recurrences.RepeatedDetection | internal/admin/knowledge_recurrence.go:237-242 | detecting the same audit for the same gap again changes nothing and answers with a record of that gap |
| Recurrences.OccurrenceIsLost | internal/admin/knowledge_recurrence_service.go:145-168 | a run of four steps that ends with one occurrence too few |
| Recurrences.VerdictIsOverwritten | internal/admin/knowledge_recurrence_service.go:145-188 | a run of five steps in which a confirmed record ends dismissed |
| Recurrences.GapsAreMixed | internal/admin/knowledge_recurrence.go:243-263 | a run of two detections of one audit for two gaps that ends with two records of one id |
| Recurrences.LostOccurrence | internal/admin/knowledge_recurrence_service.go:145-168 | an occurrence detected between the read and the save of a review is lost from the count |
| Recurrences.LateDismissal | internal/admin/knowledge_recurrence_service.go:145-188 | of two operators who read the same suspected record the later one overwrites the verdict of the earlier |
| Recurrences.SharedAuditMixesGaps | internal/admin/knowledge_recurrence.go:243-263 | an audit id used for two gaps makes two records with one id, and the second observation resolves to the first gap's record |
| RecurrenceProjections.ListRepairRecurrences | internal/admin/knowledge_recurrence.go:313-334 | the loop, the stable sort and the limit compute the specified list |
| RecurrenceProjections.ProjectRecurrence | internal/admin/knowledge_recurrence_service.go:121-143 | the scan for a suspected record computes the specified projection |
| RecurrenceProjections.ListedMeans | internal/admin/knowledge_recurrence.go:313-334 | the list holds exactly the records asked for, by tenant, gap and status, that fewer than the limit of those asked for (twenty if none is given) are newer than, by descending update time and then id |
| RecurrenceProjections.ProjectionMeans | internal/admin/knowledge_recurrence_service.go:121-143 | in every reachable ledger a gap with records shows its suspected record exactly when it has one that fewer than a hundred of its records are newer than, otherwise the verdict of a record that none was updated later than |
| Verification.VerificationStore.AppendRepairVerification | internal/admin/knowledge_repair_verification.go:295-303 | an attempt with usable attempt, tenant and gap ids is appended, any other changes nothing |
| Verification.VerificationStore.ListRepairVerifications | internal/admin/knowledge_repair_verification.go:305-314 | the gap's attempts, latest first |
| Verification.SnapshotFingerprint | internal/admin/knowledge_repair_verification.go:432-447 | the loop and the sort compute the specified snapshot, whose meaning is SnapshotMeans |
| Verification.SnapshotIsSet | internal/admin/knowledge_repair_verification.go:432-447 | in whatever order documents are listed, two fingerprints agree exactly when the sets of entries do |
| Verification.CountsExactly | internal/admin/knowledge_repair_verification.go:434-437 | a document counts exactly when it is ready, active or without a review, and of the space, a missing space being the default one |
| Verification.SameEntry | internal/admin/knowledge_repair_verification.go:438-444 | two documents that count have one entry exactly when id, content hash, update time, lexical readiness and vector state agree; status and effective review then do |
| Verification.ReviewsExactly | internal/admin/knowledge.go:545-551 | a review counts as active when it is blank or says so, and as rejected or archived when it says that, white space around it aside |
| Verification.SnapshotMeans | internal/admin/knowledge_repair_verification.go:432-447 | two fingerprints agree exactly when each document that counts on one side is, unchanged, one that counts on the other |
| Verification.VerifiedMeans | internal/admin/knowledge_repair_verification.go:200-228 | unverified without a passed attempt; otherwise verified while the documents that count are those of the newest passed attempt, unchanged, and stale as soon as one is edited, added, gone or no longer counts |
| Verification.Project | internal/admin/knowledge_repair_verification.go:200-228 | the scan for the first passed attempt computes the specified projection, whose meaning is VerifiedMeans |
| PromotionServices.VerifiedInRun | internal/admin/knowledge_repair_verification.go:200-228 | in every run a gap is Verified exactly when the newest listed passed attempt was made at a step at which the tenant's documents held the same knowledge as now, document by document, and Stale when there is such an attempt and they do not |
| PromotionServices.ChangedKnowledgeIsStale | internal/admin/knowledge_repair_promotion_service.go:70-77 | in every run: when the knowledge changed since the newest passed attempt, the projection is Stale and a promotion in order is refused as stale and stores nothing |
| PromotionServices.EditedDocumentIsStale | internal/admin/knowledge_repair_verification.go:438-444 | knowledge has changed when a document that counted now has another content hash or update time, or no longer counts |
| PromotionServices.AttemptsMade | internal/admin/knowledge_repair_verification.go:114-169 | every attempt of a run was made by a verification step and holds the snapshot of the documents at that step |
| Verification.ListedAreLatest | internal/admin/knowledge_repair_verification.go:406-415 | with a clock that never stands still the listed attempts are the last hundred of the gap, latest first |
| Promotions.PromotionStore.PromoteRepairEval | internal/admin/knowledge_repair_promotion.go:164-194 | the scan with its running maximum and active index, the replay and the append do what the specification says |
| Promotions.PromotionStore.GetActiveRepairEvalPromotion | internal/admin/knowledge_repair_promotion.go:236-243 | on a ledger in order there is an active revision exactly when there is one at all, and its number is how many there are |
| Promotions.PromoteKeeps | internal/admin/knowledge_repair_promotion.go:164-194 | revisions of a gap stay numbered 1 to n in order with exactly the n-th active; a rejected or replayed promote changes nothing; existing records only lose their active flag |
| Promotions.PromoteOutcomes | internal/admin/knowledge_repair_promotion.go:164-194 | a promote is a replay exactly when the active revision of the gap is of the same attempt, support state and required documents, and refused exactly when it is none and the new record lacks a usable id, a question or a known support state, or repeats a document |
| PromotionServices.ValidateRequiredDocuments | internal/admin/knowledge_repair_promotion_service.go:110-133 | the loop checks the required ids in order |
| PromotionServices.CheckMeans | internal/admin/knowledge_repair_promotion_service.go:110-133 | the ids are accepted exactly when, trimmed, they are not empty, all different and all eligible now; then they are sorted |
| PromotionServices.PromoteRepair | internal/admin/knowledge_repair_promotion_service.go:53-108 | the chain of checks and the store write compute the specified answer |
| PromotionServices.VerifyRepair | internal/admin/knowledge_repair_verification.go:114-169 | verifying appends one attempt with the snapshot of the documents at that moment |
| PromotionServices.RunKeeps | internal/admin/knowledge_repair_promotion.go:164-194 | in every run of knowledge changes, verifications and promotions the ledger is in order and every revision carries the snapshot of a passed attempt |
| PromotionServices.RevisionsOnlyCleared | internal/admin/knowledge_repair_promotion.go:186-192 | over a whole run a revision stays where it is and only ever loses its active flag |
| PromotionServices.PromotionIsCurrent | internal/admin/knowledge_repair_promotion_service.go:70-107 | every promotion that answers with a revision, new or replayed, answers with the snapshot of the knowledge at that moment, for a resolved gap whose required documents are eligible now |
| PromotionServices.PromoteAnswers | internal/admin/knowledge_repair_promotion_service.go:53-108 | each answer of a promotion with its cause: a revision exactly for a well-formed request on a resolved gap, verified now by the attempt named, with no recurrence pending and distinct eligible documents; stale exactly when not so verified |
| PromotionServices.EligibleExactly | internal/admin/knowledge_repair_promotion_service.go:110-133 | a required document is eligible exactly when a document of that id counts |
| Checkpoints.NormalizeGapIDs | internal/admin/knowledge_quality_review_checkpoints.go:357-375 | ids are trimmed and sorted in the caller's array; a bad one leaves those before it trimmed |
| Checkpoints.HashInjective | internal/admin/knowledge_quality_review_checkpoints.go:405-408 | a key hash names one tenant and one key |
| Checkpoints.SameFingerprint | internal/admin/knowledge_quality_review_checkpoints.go:357-403 | two requests have one fingerprint exactly when their trimmed fields agree, their sets of trimmed gap ids are equal, and both or neither gave a list |
| Checkpoints.NoGapsIsNotEmptyGaps | internal/admin/knowledge_quality_review_checkpoints.go:393-403 | omitted and empty gap lists ask for the same thing under different fingerprints |
| Checkpoints.CheckpointStore.FindByIdempotency | internal/admin/knowledge_quality_review_checkpoints.go:427-436 | the first record of the tenant and key |
| Checkpoints.CheckpointStore.AppendCheckpoint | internal/admin/knowledge_quality_review_checkpoints.go:438-452 | appends exactly when the key is free; otherwise answers with the record or a conflict and changes nothing |
| Checkpoints.Create | internal/admin/knowledge_quality_review_checkpoints.go:194-245 | an uninterrupted create is the search and the append of the state machine, and answers as CreateAnswers says |
| Checkpoints.CreateAnswers | internal/admin/knowledge_quality_review_checkpoints.go:194-245 | every answer of an uninterrupted create with its cause: none for a request that is not in order or a new key under a failing projection, a new record for a new key, else the record of the key, or a conflict when that was made by another request; only a new record changes the ledger |
| Checkpoints.RunKeeps | internal/admin/knowledge_quality_review_checkpoints.go:194-245 | in every interleaving of searches and appends there is one record for each key, every answer is true of it, and one answer says it was created |
| Checkpoints.RunGrows | internal/admin/knowledge_quality_review_checkpoints.go:438-452 | the ledger only grows, at its end |
| Checkpoints.IdempotentCreate | internal/admin/knowledge_quality_review_checkpoints.go:194-245 | all answers for one key show the same checkpoint, to equal requests only, exactly one of them says created, and a conflict means a different request |
| Checkpoints.OnlyCreationsChange | internal/admin/knowledge_quality_review_checkpoints.go:194-245 | a conflicting or repeated create never changes the ledger |
| Checkpoints.SelectPredecessor | internal/admin/knowledge_quality_review_checkpoints.go:561-583 | of the records of the same tenant, spaces, time zone and length that end earlier, the one that ends latest, ties going to the later creation and then to the greater id; nothing exactly when there is no such record |
| Checkpoints.LaterMeans | internal/admin/knowledge_quality_review_checkpoints.go:575-583 | the two comparisons in terms of the fields: a predecessor has the same scope and ends before; later is by end, then creation, then id |
| Trends.ParsedWindows | internal/admin/knowledge_quality_trends.go:163-194 | given dates parse exactly when both are dates and they span 1 to 90 days; with neither given the window is the thirty days that end today |
| Trends.WindowIsDays | internal/admin/knowledge_quality_trends.go:370-372 | an instant is in the window exactly when its civil day is |
| Trends.ProjectEval | internal/admin/knowledge_quality_trends.go:316-335 | the loop selects and counts the observations in scope |
| Trends.SelectedExactly | internal/admin/knowledge_quality_trends.go:316-335 | an observation is selected, as often as it occurs, exactly when its gap and space are in scope and its time is in the window |
| Trends.EvalBuckets | internal/admin/knowledge_quality_trends.go:494-524 | slot k counts the observations of week k |
| Trends.CapNeverBinds | internal/admin/knowledge_quality_trends.go:495-499 | the cap of 13 never binds, and every day of the window has a bucket, that of its week |
| Trends.BucketIsWeek | internal/admin/knowledge_quality_trends.go:503-522 | a bucket's total is the number of observations of its seven days, each of its counts the number of those with that status; they add up exactly when no other status occurs |
| Trends.BucketsConserve | internal/admin/knowledge_quality_trends.go:316-366 | totals and counts of each status, added over all buckets, are the counts of the projection |

## Left out

- Timestamps, metadata, usage numbers and audit events of turns and messages: they are copied and decide nothing modelled here.
- Orchestrators.Orchestrator.Stream: a save that fails inside Complete, after which Fail runs when the gate is already free, is not modelled; Complete saves atomically.
- PersonaStreams.PersonaAgent.Stream: the paths before the provider call (preflight, questions about the model, no client) send no delta and are not modelled; the copy of fallback answers is left out.
- Sse.PresentationReader.Read: decoding of bytes to text in the browser is left out; a piece is a string. writeSSEJSON only encodes its value and calls writeSSE.
- Pipelines.Search: the vector stage is an interface with no implementation and is absent; snippets, matched terms, source labels and index status are left out; space and review status are compared, not copied into results.
- MetricKeys.KeysAreInjective: the conditions on names are sufficient and each is shown to be needed, but which single names outside them collide is not characterised.
- PromotionServices.VerifiedInRun: SHA-256 over an injective encoding is taken as injective, so a fingerprint is what is hashed; the same holds for policies, keys and requests.
- PromotionServices.PromotionIsCurrent: Promote is taken as one step although it reads the knowledge before it writes; a change of the knowledge in between is not modelled.
- AnswerStreams.StreamPersona: the deltas and the result of the agent are given together; that a delta the event sink refuses is the one the agent sees refused is not part of the statement, which is about runs that return an answer.
- Recurrences.RunKeeps: how an eligible gap is found for an audit, and the reopening of the gap inside Confirm, are outside; a detection step carries the gap.
- RecurrenceProjections.ProjectionMeans: whether a promotion asks for this projection is outside; a promotion is told whether a recurrence is pending.
- Trends.BucketsConserve: the civil day is any function of the instant for which a day starts at its first instant; verification and recurrence metrics, medians, traces and rankings are left out.
- Checkpoints.IdempotentCreate: the projection that fills a snapshot is a parameter; the file store's capacity limit is left out.
- The in-memory conversation store: the window may write into the array that store keeps; the model has stores that keep copies.
- Files, JSON, HTTP handlers, authentication, rate limits, configuration, language-model and speech clients, the browser interface apart from the two functions for server-sent events.
- Strings are sequences of characters, one a byte where the code counts bytes and one a code point in retrieval; white space, case and punctuation are the ASCII ones.
- Numbers: scores are natural numbers, confidences and metric values real numbers; 64-bit wrap-around is modelled where digits are read, elsewhere numbers are unbounded.
- Persona, memory, tool-policy, feedback and decision stores, router tables, skills, avatar and subtitle code: plain upserts, filters and lookups.
