# Xymphony Voice: a verified model of its hard parts

Xymphony Voice runs voice and text agents. A runtime owns turns and events while providers stream text and speech at
it; a context pipeline fits history into a token budget and summarizes what falls out; a control plane stores agents,
versions and sessions. This project models the parts in which several pieces of code have to agree and proves what they
promise together.

## How the pieces fit

**Turn orchestration.** `RuntimeSpec` has the runtime's fields as one value and every uninterrupted piece of code as a
function on it. `AgentRuntimeObject` has the same runtime as mutable objects with shared turn records and proves each
method equal to its function. `RuntimeMachine` adds what the event loop has suspended: one step runs one activity
from one suspension point to the next, and a schedule is any list of steps, including abandoning a task.
`RuntimeInvariants` and `ScheduleSafety` prove that each operation and each step keeps the invariant; `RunTheorems` and
`FaultTheorems` draw the conclusions for every schedule, and `StopTheorems` those about ending. These say what can never
go wrong; `TurnTheorems` and `InputTheorems` say what does happen: which step leads where, and that a turn nothing
interferes with is answered. `GuardTheorems` shows that the finalize guards are never leaked. `Bridge` puts transport
events into the schedule, `BridgeSchedules` shows that this adds no state a schedule of inputs cannot reach, and
`VoiceOutput` has the publish tasks. Awaiting a coroutine that never suspends is part of the step it happens in.

**Context window.** `ContextBudget` selects history, `LlmContext` gives way section by section, `PromptTheorems` says
what the prompt shows. `Summarization` has one `prepare` call in its suspended parts and as a method, `SummaryExits`
says which preparation each exit gives, `SummaryRuns` has runs with any number of overlapping calls and `SummaryOrder`
says when coverage moves forward in them. `RuntimeSummaries` puts the calls into the pipelines of the step machine,
and `OverlapWitness` is one such run. `SummaryLoss` says which messages a call gives back, and `SummaryInContext`
follows a stored summary into the request of the same turn. `MemoryLedger` has the ledger these read.

**Tools.** `ToolCallCollector` puts streamed deltas together, `ToolLoop` has the executor and the loop that feeds
results back, `ToolExits` says what each way out of both means, and `ToolBudget` how large the requests get.

**Documents and control plane.** `Chunking` and `ChunkTheorems`; `Pagination`; `VersionPublishing` (tables and
operations), `VersionEffects` (what each changes and when it is refused), `VersionHistory` (what holds over time) and
`VersionService` (the services updating rows in place).

## Where the code does something else than one would expect

- Chunking does not always return. The guard at `chunking.py:51` only catches a standstill in the first iteration.
  `ChunkTheorems.AlwaysReturnsIffOverlapAtMostOne` and `ChunkTheorems.NeverReturnsIff` say exactly when.
- `docs/status/phase-3-step-7.md`, section H, takes it that `prepare` calls of one session never overlap. Two pipelines
  on one turn make them overlap (`RunTheorems.TwoPipelinesSummarize`), and then the stored coverage can go back:
  `OverlapWitness.CoverageGoesBackInTheRuntime` is a run in which the turn's other pipeline has its generation fail and
  answers the turn, the next turn stores a newer summary, and the leftover call answers last. Coverage fails to grow
  exactly when the call that stores had dropped no more messages than the stored summary counts
  (`SummaryOrder.UpsertRaisesCoverageIff`), and that never happens while at most one waiting call
  belongs to an uncancelled turn (`RuntimeSummaries.CoverageRisesUnlessTwoAreLive`).
  What a stored summary covers stays exact even so (`RuntimeSummaries.StoredSummariesCoverTheRuntimeLedger`).
- The same document promises that messages past `through_sequence` always appear in `history_for_assembly`. When the
  provider answers the first request with a blank text, a call that nobody cancelled returns the old summary and the
  recent messages only, and the ones in between are in neither (`SummaryLoss.ABlankGenerationLosesTheQuestion`);
  `SummaryLoss.CallKeepsAllIff` is the exact condition over all exits. After a summary was stored they are all there,
  but the assembler can still drop them: `SummaryInContext.UncoveredReachRequestIff` says exactly when, and
  `SummaryInContext.AnUncoveredMessageCanBeLost` gives a case.
- `turn.fail` can raise out of the runtime (`FaultTheorems.AFailureDoesRaise`); `FaultTheorems.StepRaisesIff` says
  exactly in which steps, among them late ones of a call to `handle_input` that was not refused. A pipeline left on a
  finished, uncancelled turn still gets its tokens admitted
  (`RunTheorems.LeftoverPipelineStillSpeaks`).
- A session may be pinned to a draft, and then a later update makes the two hashes differ
  (`VersionHistory.PinHoldsForeverIff`).
- The context budget bounds a request without its tool messages only. A later request of the tool loop is within it
  exactly when the first one leaves room for what the loop has added (`ToolBudget.RequestFitsIff`);
  `ToolBudget.ToolAnswersCanExceedTheBudget` is a run in which it does not.

## Model

| member | source | states |
|---|---|---|
| RunTheorems.CurrentIsTheOnlyActiveTurn | packages/agent-runtime/src/xymphony_runtime/runtime.py:405-444 | In every interleaving the current turn id is None or names an ACTIVE turn, and a turn is non-terminal exactly when it is the current one |
| RunTheorems.CancelledSetIsExactUpToErrors | packages/agent-runtime/src/xymphony_runtime/runtime.py:390-472 | The cancelled-id set holds only CANCELLED or FAILED turns and every CANCELLED one |
| RunTheorems.TokensNeverDisagree | packages/agent-runtime/src/xymphony_runtime/runtime.py:275-306 | A suspended pipeline or speech-to-text task finds itself cancelled exactly when its turn is in the cancelled set, although a second pipeline on the turn replaces and drops the registered tokens |
| RunTheorems.AdmittedEventsAreConsecutive | packages/agent-runtime/src/xymphony_runtime/runtime.py:235-249 | The i-th admitted event has number i + 1 and the counter equals the length of the log: no event that took a number is ever dropped |
| RunTheorems.InterruptedExactlyWhenCancelled | packages/agent-runtime/src/xymphony_runtime/runtime.py:446-465 | Over whole runs a turn has one AGENT_INTERRUPTED in the log if it is CANCELLED and none otherwise |
| RunTheorems.CancelledTurnsStaySilent | packages/contracts/src/xymphony_contracts/events.py:222-228 | Once a turn is in the cancelled set, no token, response, TTS chunk, audio or transcript event of it is admitted in any continuation |
| RunTheorems.HistoryIsNeverRewritten | packages/agent-runtime/src/xymphony_runtime/runtime.py:235-249 | Event log and ledger only grow, and a terminal turn keeps its whole record in every continuation |
| RunTheorems.LedgerIsASequenceOfExchanges | packages/agent-runtime/src/xymphony_runtime/runtime.py:1049-1081 | The ledger is adjacent USER/ASSISTANT pairs numbered 1..2k, each of one COMPLETED turn; the user entry is one stripped, non-empty text, and the reply was admitted as a response event of that turn |
| RunTheorems.ExchangesQuoteTheirTurn | packages/agent-runtime/src/xymphony_runtime/runtime.py:273-288 | When resuming a pipeline extends the ledger it adds exactly the text the pipeline was started with and an admitted reply; for speech that text is an admitted final transcript of the turn, stripped |
| RuntimeInvariants.FinalTranscriptIsLast | packages/agent-runtime/src/xymphony_runtime/runtime.py:1031-1039 | The transcript used is the text of the last final transcript event of the turn, and none is found exactly when there is no such event |
| RunTheorems.ExchangesFollowTurnOrder | packages/agent-runtime/src/xymphony_runtime/runtime.py:275-291 | Pairs follow the turn sequence strictly, so no turn ever has two, even with two pipelines on it |
| RunTheorems.CompletingNeverRaises | packages/agent-runtime/src/xymphony_runtime/runtime.py:430-444 | Neither raise branch of `_complete_turn` is reachable and cancelling never raises: the only exception a turn operation lets out is `turn.fail` on a terminal turn |
| RunTheorems.ShutdownLeavesNothingActive | packages/agent-runtime/src/xymphony_runtime/runtime.py:194-209 | From the moment shutdown is requested all turns are terminal, none is current and the turns never change again |
| RunTheorems.StopReachesShutdown | packages/agent-runtime/src/xymphony_runtime/runtime.py:194-209 | `stop` on a running runtime makes every turn terminal in its first uninterrupted step |
| StopTheorems.StopCanAlwaysFinish | packages/agent-runtime/src/xymphony_runtime/runtime.py:490-495 | From every reachable state in which `stop` waits for its tasks, abandoning those still suspended and resuming it ends in a stopped runtime with exactly one SESSION_ENDED more |
| StopTheorems.StopFinishesIff | packages/agent-runtime/src/xymphony_runtime/runtime.py:490-495 | It ends exactly when none of the tasks it waits for is suspended any more |
| StopTheorems.RunWaitsForOlder | packages/agent-runtime/src/xymphony_runtime/runtime.py:490-495 | In every reachable state a waiting `stop` waits for tasks older than itself only, so it never waits for itself or in a circle |
| FaultTheorems.InputIsRefusedIff | packages/agent-runtime/src/xymphony_runtime/runtime.py:211-233 | Which inputs are refused in a reachable state, both directions, in terms a caller can look up; errors and shutdown never are; and besides refusals nothing is raised before the first suspension |
| RunTheorems.FinalTranscriptReleasesGuards | packages/agent-runtime/src/xymphony_runtime/runtime.py:314-362 | When the speech task reports its final transcript, its pipeline starts with the finalize guards already released |
| RunTheorems.SecondSpeechEndStartsPipeline | packages/agent-runtime/src/xymphony_runtime/runtime.py:962-967 | With those guards released a further end of speech starts a pipeline on the same turn |
| RunTheorems.TwoPipelinesOnOneTurn | packages/agent-runtime/src/xymphony_runtime/runtime.py:314-362 | From every reachable listening state and for every configuration in which a pipeline suspends at all, a final transcript followed by an end-of-speech input leaves two pipelines on one turn, at the same stage |
| RunTheorems.TwoPipelinesSummarize | packages/agent-runtime/src/xymphony_runtime/runtime.py:640-668 | With a summarizer both of these pipelines are suspended in `prepare` |
| FaultTheorems.AFailureDoesRaise | packages/agent-runtime/src/xymphony_runtime/runtime.py:759-783 | A concrete schedule in which `turn.fail` raises |
| FaultTheorems.StepRaisesIff | packages/agent-runtime/src/xymphony_runtime/runtime.py:699-871 | Every step of every schedule: it lets an exception out of a turn operation exactly when it resumes an activity that comes to `turn.fail` (language model, speech or transcription failure, exceeded budget, used-up tool loop) after another activity ended the turn without cancelling it; and then it is the transition error |
| FaultTheorems.FinalizeSpeechRaisesNothing | packages/agent-runtime/src/xymphony_runtime/runtime.py:314-362 | Ending speech raises nothing before it first suspends, with the guards held or released |
| FaultTheorems.RunPipelineRaisesNothing | packages/agent-runtime/src/xymphony_runtime/runtime.py:275-291 | A pipeline started on an active turn raises nothing before it first suspends, even when the budget or the iteration limit stops it at once |
| RunTheorems.LeftoverPipelineStillSpeaks | packages/agent-runtime/src/xymphony_runtime/runtime.py:747-754 | A pipeline left on a finished turn gets its next token admitted exactly when the turn is not in the cancelled set |
| ScheduleSafety.RunIsSafe | packages/agent-runtime/src/xymphony_runtime/runtime.py:185-638 | Every schedule of inputs, resumptions and abandonments keeps the whole-system invariant |
| ScheduleSafety.RunLeads | packages/agent-runtime/src/xymphony_runtime/runtime.py:185-638 | Any two points of a run are related by the history relation (append-only logs, frozen terminal turns, silent cancelled turns) |
| ScheduleSafety.ResumePipelineOk | packages/agent-runtime/src/xymphony_runtime/runtime.py:640-947 | Each resumption of a pipeline, at each of its suspension points and for each signal, keeps the invariant and raises at most from `turn.fail`; which state it leads to is in the rows of TurnTheorems and InputTheorems |
| ScheduleSafety.FinalizeSpeechOk | packages/agent-runtime/src/xymphony_runtime/runtime.py:314-362 | The speech finalizer keeps the invariant from every entry, guards held or not |
| ScheduleSafety.ResumeSttOk | packages/agent-runtime/src/xymphony_runtime/runtime.py:969-1029 | Each resumption of the speech-to-text task keeps the invariant |
| ScheduleSafety.HandleInputOk | packages/agent-runtime/src/xymphony_runtime/runtime.py:211-233 | Each input kind keeps the invariant, accepted or refused |
| ScheduleSafety.StopOk | packages/agent-runtime/src/xymphony_runtime/runtime.py:194-209 | The first part of `stop` keeps the invariant and leaves only terminal turns |
| ScheduleSafety.AbandonOk | packages/agent-runtime/src/xymphony_runtime/runtime.py:289-291 | Cancelling a task at a suspension point, which runs only its finally blocks, keeps the invariant |
| RuntimeInvariants.EmitKeeps | packages/agent-runtime/src/xymphony_runtime/dispatch.py:28-54 | Building and admitting an event whose turn passed the cancellation check neither loses a number nor breaks silence |
| RuntimeInvariants.BeginTurnKeeps | packages/agent-runtime/src/xymphony_runtime/runtime.py:405-428 | Beginning succeeds exactly when no turn is current, and then the fresh turn is the only active one |
| RuntimeInvariants.CompleteTurnKeeps | packages/agent-runtime/src/xymphony_runtime/runtime.py:430-444 | Completing succeeds exactly for a non-terminal turn and keeps the invariant |
| RuntimeInvariants.CancelTurnKeeps | packages/agent-runtime/src/xymphony_runtime/runtime.py:446-472 | Cancelling always succeeds on a known turn, changes nothing on a terminal one, and otherwise leaves it CANCELLED, in the set, and nothing current |
| RuntimeInvariants.FailTurnKeeps | packages/agent-runtime/src/xymphony_runtime/runtime.py:710-721 | Failing succeeds exactly for a non-terminal turn and keeps the invariant |
| RuntimeInvariants.HandleErrorKeeps | packages/agent-runtime/src/xymphony_runtime/runtime.py:390-403 | An ERROR input never raises and keeps the invariant |
| RuntimeInvariants.CommitKeeps | packages/agent-runtime/src/xymphony_runtime/runtime.py:285-288 | Persisting and completing, done without suspension, adds one pair of a turn that is COMPLETED afterwards |
| RuntimeInvariants.StopBeginKeeps | packages/agent-runtime/src/xymphony_runtime/runtime.py:194-198 | Requesting shutdown and cancelling the active turn leaves only terminal turns |
| TurnLifecycle.Turn.Transition | packages/agent-runtime/src/xymphony_runtime/turn.py:45-98 | A move succeeds exactly along the lifecycle table and changes nothing but the state, and the only error is the transition error |
| TurnLifecycle.Turn.Cancel | packages/agent-runtime/src/xymphony_runtime/turn.py:107-110 | Succeeds exactly on an ACTIVE turn, which is then CANCELLED and interrupted, with end time, flag and error code in agreement |
| TurnLifecycle.RuntimeTurn.Fail | packages/agent-runtime/src/xymphony_runtime/turn.py:112-115 | The shared record moves exactly as its value does |
| TurnLifecycle.RuntimeTurn.Transition | packages/agent-runtime/src/xymphony_runtime/turn.py:88-98 | The record changes its state exactly when the lifecycle table allows the move, and nothing else |
| AgentRuntimeObject.AgentRuntime.BeginTurn | packages/agent-runtime/src/xymphony_runtime/runtime.py:405-428 | On the object: the record filed under the new id is fresh, all other records are untouched, and the fields are those of the value model |
| AgentRuntimeObject.AgentRuntime.CompleteTurn | packages/agent-runtime/src/xymphony_runtime/runtime.py:430-444 | In place, with shared turn records: exactly the value model's step, and nothing changes when it raises |
| AgentRuntimeObject.AgentRuntime.CancelTurn | packages/agent-runtime/src/xymphony_runtime/runtime.py:446-472 | In place: tokens looked up and fired one by one, record and id set updated, exactly the value model's step; on an error, exactly the tokens and the id set have changed |
| AgentRuntimeObject.AgentRuntime.FailTurn | packages/agent-runtime/src/xymphony_runtime/runtime.py:710-721 | In place: exactly the value model's step |
| AgentRuntimeObject.AgentRuntime.HandleError | packages/agent-runtime/src/xymphony_runtime/runtime.py:390-403 | In place: exactly the value model's step |
| AgentRuntimeObject.AgentRuntime.CommitExchange | packages/agent-runtime/src/xymphony_runtime/runtime.py:285-288 | In place: ledger, record and current turn together, exactly the value model's step; on an error, exactly the pair has been persisted |
| AgentRuntimeObject.AgentRuntime.PersistTurnExchange | packages/agent-runtime/src/xymphony_runtime/runtime.py:1049-1081 | In place: two numbered entries, or none without a repository or for a cancelled turn |
| AgentRuntimeObject.AgentRuntime.StopBegin | packages/agent-runtime/src/xymphony_runtime/runtime.py:194-198 | In place: exactly the value model's step; on an error, exactly the shutdown flag, the tokens and the id set have changed |
| AgentRuntimeObject.AgentRuntime.OpenSpeech | packages/agent-runtime/src/xymphony_runtime/runtime.py:299-306 | In place: exactly the value model's step |
| AgentRuntimeObject.AgentRuntime.CleanupSttTurn | packages/agent-runtime/src/xymphony_runtime/runtime.py:962-967 | In place: exactly the value model's step |
| AgentRuntimeObject.AgentRuntime.FinalTranscriptForTurn | packages/agent-runtime/src/xymphony_runtime/runtime.py:1031-1039 | The overwriting forward scan finds the last final transcript of the turn |
| AgentRuntimeObject.AgentRuntime.AdmitEvent | packages/agent-runtime/src/xymphony_runtime/runtime.py:235-249 | Appends the event unless it is stale, and says which |
| AgentRuntimeObject.RuntimeContext.NextEventSequence | packages/agent-runtime/src/xymphony_runtime/context.py:28-30 | Hands out the next number |
| TurnTheorems.SpokenReplyCompletes | packages/agent-runtime/src/xymphony_runtime/runtime.py:275-291 | In every reachable state, when the speech of a pipeline whose turn has not ended ends, the ledger gains exactly the pair of its text and its reply, the turn is COMPLETED, nothing is current and the pipeline is gone |
| TurnTheorems.StreamedReplyCompletes | packages/agent-runtime/src/xymphony_runtime/runtime.py:788-803 | Without text-to-speech the same happens when the stream ends without calls, and the response is admitted first |
| TurnTheorems.PipelineAnswers | packages/agent-runtime/src/xymphony_runtime/runtime.py:640-947 | A pipeline nothing interferes with, through preparation, any number of tool rounds below the limit, deltas and audio, ends in the exchange of its text and the joined deltas of its last round, and exactly its tokens, its response and its audio are admitted, in order |
| InputTheorems.TypedTurnIsAnswered | packages/agent-runtime/src/xymphony_runtime/runtime.py:258-291 | From every reachable idle state a typed turn that nothing interferes with is begun, answered, persisted and COMPLETED in this way, and nothing of it is left suspended |
| GuardTheorems.SpokenTurnIsAnswered | packages/agent-runtime/src/xymphony_runtime/runtime.py:293-362 | From every reachable idle state a spoken turn that nothing interferes with is: its partial and final transcripts and the end of speech are admitted, and the exchange is that of the final transcript, stripped |
| GuardTheorems.RunHoldsGuards | packages/agent-runtime/src/xymphony_runtime/runtime.py:314-362 | In every reachable state each finalize guard is held by a suspended call that waits for the turn's speech task: none is leaked by a cancellation, a failure or an abandoned task |
| TurnTheorems.WaitingMovesOn | packages/agent-runtime/src/xymphony_runtime/runtime.py:640-698 | Each answer a pipeline waits for takes an uncancelled turn to the next stage of preparation or tool execution, and nothing else changes |
| InputTheorems.TypedTurnBegins | packages/agent-runtime/src/xymphony_runtime/runtime.py:258-273 | A typed text begins exactly one ACTIVE turn with the next turn number and suspends its pipeline for the stripped text at the first stage configured |
| InputTheorems.TypedTurnWithoutModel | packages/agent-runtime/src/xymphony_runtime/runtime.py:258-273 | Without a language model the turn is COMPLETED at once, with nothing said and nothing persisted |
| InputTheorems.SpeechBegins | packages/agent-runtime/src/xymphony_runtime/runtime.py:293-306 | The start of speech begins one ACTIVE turn, announces it, and leaves a tracked speech task suspended that reads the turn's empty queue |
| InputTheorems.FinalTranscriptStarts | packages/agent-runtime/src/xymphony_runtime/runtime.py:338-362 | The final transcript of a listening turn is admitted, the end of speech announced, the speech state released, and the pipeline started with the stripped transcript |
| InputTheorems.BlankTranscriptCompletes | packages/agent-runtime/src/xymphony_runtime/runtime.py:338-362 | A blank final transcript, or any without a language model, completes the turn and persists nothing |
| InputTheorems.TranscriptEndFinalizes | packages/agent-runtime/src/xymphony_runtime/runtime.py:1005-1006 | A transcript stream that ends without a final transcript ends the speech of a listening turn all the same: the end is announced, and the turn goes on with the last final transcript heard or is completed without one |
| InputTheorems.SpeechEndIsAwaited | packages/agent-runtime/src/xymphony_runtime/runtime.py:308-337 | An end of speech from outside is announced, puts the end mark last in the queue of the listening task, takes the guard and waits for that task |
| InputTheorems.AwaitedTranscript | packages/agent-runtime/src/xymphony_runtime/runtime.py:988-1004 | While a call waits for the speech task, its transcripts are admitted and the task ends with the final one, leaving the rest to the call that waits |
| InputTheorems.AwaitedSpeechFinishes | packages/agent-runtime/src/xymphony_runtime/runtime.py:338-362 | When that task is gone the call goes on: it starts the pipeline with the last final transcript, or completes the turn when there is none to answer |
| InputTheorems.FailureFailsTheTurn | packages/agent-runtime/src/xymphony_runtime/runtime.py:699-783 | In every reachable state, an activity that comes to fail a turn that is going on (provider failure, budget, iteration limit) fails it with the code of that failure, admits one error event, persists nothing and is gone |
| InputTheorems.ErrorInputFails | packages/agent-runtime/src/xymphony_runtime/runtime.py:390-403 | An ERROR input fails the current turn with its code, puts it into the cancelled set and admits one error event; without a turn it only admits the event |
| InputTheorems.CancellingInterrupts | packages/agent-runtime/src/xymphony_runtime/runtime.py:446-472 | Cancelling a turn that is going on fires exactly the tokens registered for it, admits one AGENT_INTERRUPTED and changes no other turn |
| InputTheorems.CancelInputCancels | packages/agent-runtime/src/xymphony_runtime/runtime.py:384-388 | A cancel input reaches the turn it names, or the current one when it names none |
| InputTheorems.CancelledPipelineEnds | packages/agent-runtime/src/xymphony_runtime/runtime.py:640-947 | A pipeline of a cancelled turn ends at the next thing it hears at any stage, with nothing admitted, nothing persisted, no turn touched and no exception |
| InputTheorems.AbandoningOnlyCleansUp | packages/agent-runtime/src/xymphony_runtime/runtime.py:289-291 | Cancelling a task at a suspension point drops the tokens registered for its turn or the guard it holds, and admits, persists and changes nothing else |
| StopTheorems.StopCancelsAndWaits | packages/agent-runtime/src/xymphony_runtime/runtime.py:194-209 | The first step of `stop` cancels the turn that is going on and no other, and waits for exactly the tracked tasks that are still suspended; without any it ends the session at once |
| Bridge.TransportIsNeverRejected | packages/agent-runtime/src/xymphony_runtime/bridge.py:304-400 | After any mix of runtime steps and transport events from any participants, no transport event is refused by `handle_input`, and nothing it calls raises before its first suspension |
| Bridge.BargeIn | packages/agent-runtime/src/xymphony_runtime/bridge.py:304-346 | A started event leaves the old turn CANCELLED and exactly the fresh turn ACTIVE |
| Bridge.FrameAccepted | packages/agent-runtime/src/xymphony_runtime/bridge.py:348-381 | With no turn active a frame opens one, which is then current and ACTIVE; it is queued last in the active turn's queue |
| Bridge.StepsAreSafe | packages/agent-runtime/src/xymphony_runtime/bridge.py:304-400 | The system invariant holds after every mix of steps and transport events |
| VoiceOutput.ChunkIndicesAreConsecutive | packages/agent-runtime/src/xymphony_runtime/bridge.py:192-261 | The frames of a turn carry 0, 1, 2, ... in the order handed to the transport, whatever order publish tasks run in |
| VoiceOutput.EveryFrameHasItsChunk | packages/agent-runtime/src/xymphony_runtime/bridge.py:178-261 | Each frame stems from an admitted TTS chunk of its turn |
| VoiceOutput.OneFramePerChunk | packages/agent-runtime/src/xymphony_runtime/bridge.py:178-190 | No TTS chunk yields two frames |
| VoiceOutput.NoFrameAfterCancellation | packages/agent-runtime/src/xymphony_runtime/bridge.py:192-261 | Once a turn is in the cancelled set the transport gets no further frame of it |
| VoiceOutput.OutputBookkeeping.PublishTtsOutput | packages/agent-runtime/src/xymphony_runtime/bridge.py:192-261 | The early returns and the index bookkeeping in place agree with the pure step |
| BridgeSchedules.BridgeRunIsASchedule | packages/agent-runtime/src/xymphony_runtime/bridge.py:304-400 | Every run with a transport ends in the state of a schedule of plain inputs, so each theorem about schedules holds with a transport attached |
| BridgeSchedules.BargeInListens | packages/agent-runtime/src/xymphony_runtime/bridge.py:304-327 | After a started event, whatever was going on, the fresh turn listens with its own task and queue |
| BridgeSchedules.EndedEventIsAwaited | packages/agent-runtime/src/xymphony_runtime/bridge.py:329-346 | An ended event reaches the finalizer of the listening turn: end of speech announced, end mark queued, speech task awaited |
| BridgeSchedules.TransportFailureFails | packages/agent-runtime/src/xymphony_runtime/bridge.py:390-396 | A transport failure has the effect of an ERROR input with the transport's code |
| VoiceOutput.TaskPublishesIff | packages/agent-runtime/src/xymphony_runtime/bridge.py:192-261 | A publish task hands over exactly one frame, for its chunk and with its turn's next index, exactly when the runtime runs with text-to-speech, the turn is not cancelled, the bridge is open and the audio is found; otherwise none |
| VoiceOutput.NewChunksGetTasks | packages/agent-runtime/src/xymphony_runtime/bridge.py:178-190 | After each step exactly the TTS chunks it admitted have a task more |
| MemoryLedger.SessionsAreIndependent | packages/agent-runtime/src/xymphony_runtime/persistence/memory.py:57-82 | However appends to sessions interleave, a session's ledger is what was appended to it, in order, numbered from 1 |
| MemoryLedger.InMemoryConversationRepository.Append | packages/agent-runtime/src/xymphony_runtime/persistence/memory.py:61-68 | One message more in its session's list, stamped with its position; every other list is unchanged |
| Conversation.CommittedMessagesToLlm | packages/agent-runtime/src/xymphony_runtime/conversation.py:74-82 | The loop yields the provider form of exactly the committed textual messages that are not tool messages, in order |
| Conversation.CountsIff | packages/agent-runtime/src/xymphony_runtime/conversation.py:58-82 | A message takes part exactly when it is committed, not a tool message, and some part of it has text; the model gets its role and its text and nothing about calls |
| Conversation.PartsInOrder | packages/agent-runtime/src/xymphony_runtime/conversation.py:39-49 | The text of parts is put together in their order |
| Conversation.MessageTextIsItsParts | packages/agent-runtime/src/xymphony_runtime/conversation.py:39-49 | A message has no text exactly when none of its parts has any; otherwise it is that of its parts joined |
| ContextBudget.KeptIsLongestFittingSuffix | packages/agent-runtime/src/xymphony_runtime/context_budget.py:93-102 | What is kept is a suffix that fits, and no longer suffix does |
| ContextBudget.SelectHistoryLoop | packages/agent-runtime/src/xymphony_runtime/context_budget.py:56-102 | The checks and the newest-first loop compute that suffix or raise |
| ContextBudget.AllKeptIffAllFits | packages/agent-runtime/src/xymphony_runtime/context_budget.py:93-102 | Everything is kept exactly when everything fits |
| ContextBudget.SelectionIsMonotone | packages/agent-runtime/src/xymphony_runtime/context_budget.py:56-102 | A larger budget or a removed section never makes selection fail nor keep less |
| ContextBudget.WouldDropIffOverBudget | packages/agent-runtime/src/xymphony_runtime/context_budget.py:104-120 | Answers yes exactly when prompt, user text and the whole history exceed the budget, and raises exactly when the first two do |
| ContextBudget.FewerExtrasCostNoMore | packages/agent-runtime/src/xymphony_runtime/context_budget.py:16-34 | Removing optional texts never raises the prompt's estimate |
| LlmContext.ChoosesFirstThatFits | packages/agent-runtime/src/xymphony_runtime/llm_context.py:47-150 | The nested handlers amount to the first candidate that fits in: full, minus memory, minus knowledge, minus summary |
| LlmContext.AssembleRaisesIff | packages/agent-runtime/src/xymphony_runtime/llm_context.py:47-150 | Raises exactly when the budget is below one or cannot hold the bare instructions and the user text |
| LlmContext.AssembledRequestFits | packages/agent-runtime/src/xymphony_runtime/llm_context.py:31-171 | With a budget: the request is an intact suffix of the counting history, the user text and the extra messages; without the extras the estimates sum to at most the budget |
| LlmContext.ExtraMessagesOnlyExtend | packages/agent-runtime/src/xymphony_runtime/llm_context.py:152-171 | Tool messages change nothing else in the request and never decide whether assembling raises |
| LlmContext.UnlimitedRequestHoldsEverything | packages/agent-runtime/src/xymphony_runtime/llm_context.py:43-47 | Without a budget assembling always succeeds, the request holds every counting message of the history, the user text and the extra messages, and its prompt is built from all the texts asked for |
| LlmContext.LimitedRequestIsLongest | packages/agent-runtime/src/xymphony_runtime/llm_context.py:31-171 | With a budget an assembled request holds the longest suffix of the counting history that fits beside the texts that stay, then the user text and the extra messages, and its prompt is built from the instructions and exactly those texts |
| PromptTheorems.PromptShowsEverything | packages/agent-runtime/src/xymphony_runtime/context_budget.py:16-34 | The prompt begins with the stripped instructions and then shows memory, summary and knowledge, each under its header, in this order and as far as they are not blank; with nothing to show it is empty |
| SummaryRuns.EverySummaryCoversItsPrefix | packages/agent-runtime/src/xymphony_runtime/summarization.py:109-245 | However calls overlap, every summary ever stored has folded in exactly the committed text messages up to its through_sequence |
| SummaryRuns.RunIsSound | packages/agent-runtime/src/xymphony_runtime/summarization.py:93-245 | Every run of appends and calls keeps: the stored chain covers exactly a prefix, each message once and in order, and the stored count is its size |
| SummaryOrder.UpsertRaisesCoverageIff | packages/agent-runtime/src/xymphony_runtime/summarization.py:218-233 | Whenever a summary is stored over another, whatever else waits: through_sequence increases exactly when the answered call had dropped more messages than the stored summary counts |
| SummaryOrder.CoverageRisesIff | packages/agent-runtime/src/xymphony_runtime/summarization.py:218-233 | Over a whole run with any overlap, through_sequence strictly increases at every upsert exactly when that holds at each |
| SummaryOrder.CoverageStrictlyIncreases | packages/agent-runtime/src/xymphony_runtime/summarization.py:93-245 | It strictly increases in every run in which the calls that store something do not overlap each other; cancelled, failed and refused calls may overlap freely |
| RuntimeSummaries.SummarizerSharesTheLedger | packages/agent-runtime/src/xymphony_runtime/runtime.py:640-668 | In every run of the runtime with its summarizer, what `prepare` reads is the ledger the pipelines write, and every waiting call is a pipeline suspended in it, for its own text |
| RuntimeSummaries.StoredSummariesCoverTheRuntimeLedger | packages/agent-runtime/src/xymphony_runtime/runtime.py:640-668 | However pipelines, inputs and summaries interleave, every summary ever stored has folded in exactly the committed text messages of the runtime's ledger up to its through_sequence |
| RuntimeSummaries.CoverageRisesUnlessTwoAreLive | packages/agent-runtime/src/xymphony_runtime/runtime.py:640-668 | As long as no two waiting calls belong to uncancelled turns, through_sequence strictly increases: a barge-in during summarizing does no harm |
| OverlapWitness.TwoSummariesOnOneTurn | packages/agent-runtime/src/xymphony_runtime/runtime.py:314-362 | A run of the runtime in which two pipelines of one turn wait for a summary of the same messages |
| OverlapWitness.CoverageGoesBackInTheRuntime | packages/agent-runtime/src/xymphony_runtime/summarization.py:218-233 | That run continued: one of them answers the turn, the next turn stores a newer summary, then the leftover call takes the stored through_sequence back from 3 to 1 |
| SummaryRuns.CancelledCallStoresNothing | packages/agent-runtime/src/xymphony_runtime/summarization.py:150-216 | A call that sees a cancellation at any check stores nothing |
| SummaryRuns.FoldedIsExactlyTheCovered | packages/agent-runtime/src/xymphony_runtime/summarization.py:138-142 | A counting message was folded in exactly when its sequence is within the coverage |
| SummaryRuns.AcceptCovers | packages/agent-runtime/src/xymphony_runtime/summarization.py:218-245 | An accepted summary extends the covered prefix to exactly the dropped messages |
| Summarization.ConversationSummarizer.Prepare | packages/agent-runtime/src/xymphony_runtime/summarization.py:93-245 | One uninterrupted call: every exit returns and stores what its suspended parts put end to end do; what each of them returns is in the rows of SummaryExits |
| SummaryInContext.JustStoredSummaryIsNeverDropped | packages/agent-runtime/src/xymphony_runtime/llm_context.py:47-150 | A summary just stored is in that turn's prompt for any knowledge, memory, history and extra messages |
| SummaryInContext.StoredSummaryFits | packages/agent-runtime/src/xymphony_runtime/summarization.py:247-264 | The fit check, made on the unstripped text, guarantees room for the stripped text that is stored |
| SummaryInContext.UncoveredReachRequestIff | packages/agent-runtime/src/xymphony_runtime/summarization.py:242-245 | After a summary was stored, the messages past its coverage go to the assembler complete, and all reach the request exactly when prompt, user text and they together fit |
| SummaryLoss.CallKeepsAllIff | packages/agent-runtime/src/xymphony_runtime/summarization.py:93-245 | Over all exits of a call: every message that counts is in the returned history or behind the returned summary, exactly unless a text was needed and either the call was cancelled before it asked, or the first text came back blank or to a cancelled turn; uncancelled, only the blank text is left |
| SummaryLoss.FirstAnswerKeepsIff | packages/agent-runtime/src/xymphony_runtime/summarization.py:155-178 | The answer to the first request loses nothing exactly unless it is blank or the turn is cancelled, and then it loses the uncovered messages, all of them and no others |
| SummaryLoss.ShorterAnswerKeepsAll | packages/agent-runtime/src/xymphony_runtime/summarization.py:180-245 | The answer to the request for a shorter text never loses a message |
| SummaryLoss.ABlankGenerationLosesTheQuestion | packages/agent-runtime/src/xymphony_runtime/summarization.py:174-178 | A concrete exchange: a blank text, nobody cancelled, and the question is neither in the returned history nor in a summary |
| SummaryInContext.AnUncoveredMessageCanBeLost | packages/agent-runtime/src/xymphony_runtime/summarization.py:180-245 | A concrete exchange in which the reply is neither in the stored summary nor in the request |
| SummaryExits.BeginExits | packages/agent-runtime/src/xymphony_runtime/summarization.py:109-153 | Without need for a summary a call returns the whole history and no text; otherwise, when the stored summary covers every message before the cut, it returns that text and exactly the longest suffix that fits; a text is asked for exactly when some dropped message is uncovered and the call is not cancelled |
| SummaryExits.CutIsUnique | packages/agent-runtime/src/xymphony_runtime/summarization.py:109-136 | There is one cut: the longest suffix that fits beside instructions and user text |
| SummaryExits.FirstAnswerExits | packages/agent-runtime/src/xymphony_runtime/summarization.py:155-185 | After the first answer: a failure returns the whole history, a blank text or a cancellation the old text and the recent messages, a text that leaves room is stored and returned stripped, any other asks for a shorter one |
| SummaryExits.ShorterAnswerExits | packages/agent-runtime/src/xymphony_runtime/summarization.py:185-245 | After the shorter answer: a text that leaves room is stored and returned, everything else returns the whole history and stores nothing |
| ToolLoop.Execute | packages/tools/src/xymphony_tools/executor.py:33-173 | Every exit returns a result for the same call; it is a failure exactly when it carries an error code, and then its output spells out the error |
| ToolLoop.HandlerDecidesIffReached | packages/tools/src/xymphony_tools/executor.py:48-137 | The checks come before the execution: which handler is registered influences the result exactly when the call was not cancelled, is registered, parses and passes its schema |
| ToolLoop.TranscriptShape | packages/agent-runtime/src/xymphony_runtime/runtime.py:687-871 | At most max_tool_iterations requests; the j-th is the first extended by j blocks, each answering what the model streamed in its round; the budget can only stop the first request |
| ToolLoop.EachRequestExtendsTheLast | packages/agent-runtime/src/xymphony_runtime/runtime.py:836-852 | Each request's messages are a prefix of the next, which adds one assistant message and one TOOL message per call with matching ids in order |
| ToolBudget.RequestFitsIff | packages/agent-runtime/src/xymphony_runtime/runtime.py:687-704 | The first request of a run is within the budget; the j-th one is exactly when the first one's estimate and that of what it carries from the tool loop together are |
| ToolBudget.ExtraMessagesCostTheirTotal | packages/agent-runtime/src/xymphony_runtime/llm_context.py:152-171 | Extra messages add exactly their own estimates to what the request holds without them |
| ToolBudget.ToolAnswersCanExceedTheBudget | packages/agent-runtime/src/xymphony_runtime/runtime.py:836-852 | A concrete run with a budget of eight tokens whose second request is estimated at fifteen |
| ToolLoop.RunLlmStream | packages/agent-runtime/src/xymphony_runtime/runtime.py:640-871 | The loops over iterations, chunks, calls and results send exactly the requests of the recursive definition and exit as it does; what each exit means is in the row of ToolExits.ExitMeans |
| ToolLoop.RunTools | packages/agent-runtime/src/xymphony_runtime/runtime.py:805-833 | One result per call in order, or none when the turn is gone before one of them |
| ToolLoop.ReadJoinsChunks | packages/agent-runtime/src/xymphony_runtime/runtime.py:746-757 | A stream is read to its end exactly when no chunk finds the turn gone, and then gives the deltas and the calls joined in order |
| ToolLoop.ReadStream | packages/agent-runtime/src/xymphony_runtime/runtime.py:746-757 | The loop over the chunks reads what that definition says, stopping at the first chunk that finds the turn gone |
| ToolExits.ExitMeans | packages/agent-runtime/src/xymphony_runtime/runtime.py:687-871 | Which way out the loop takes: a reply exactly when the last round requested was read to its end uncancelled, without failure and calls, and then it is that round's deltas joined; a provider failure exactly when that round failed, with its code; a cancelled, over-budget or used-up loop is found where it says, and all earlier rounds were answered in full |
| ToolExits.RoundMeans | packages/agent-runtime/src/xymphony_runtime/runtime.py:746-833 | How one round ends, each outcome both ways, in terms of its chunks, its checks, its failure and its calls |
| ToolExits.ResultNamesFirstObstacle | packages/tools/src/xymphony_tools/executor.py:33-173 | A call succeeds exactly when nothing stands in its way, and otherwise its error code names the first of the obstacles: cancelled before, not registered, arguments, schema, cancelled at the call, handler, cancelled after |
| ToolExits.SuccessTellsWhatWasReturned | packages/tools/src/xymphony_tools/executor.py:33-173 | What the model is told after a success: nothing for None, a text itself, a JSON value's dump, or its plain form when it cannot be dumped |
| ToolExits.BlanksDecideNothing | packages/tools/src/xymphony_tools/executor.py:33-173 | Blank arguments stand for the empty object, and blanks around arguments make no difference to the result of a call |
| ToolExits.WithoutExecutorNothingIsFound | packages/agent-runtime/src/xymphony_runtime/runtime.py:805-833 | Without a registry every call fails as not found |
| ToolCallCollector.CollectorDemultiplexes | packages/providers/src/xymphony_providers/openai_llm.py:47-66 | For every interleaving an index has an accumulator exactly when a delta named it, holding its own deltas' names and arguments joined in order and their last non-empty id |
| ToolCallCollector.InterleavingDoesNotMatter | packages/providers/src/xymphony_providers/openai_llm.py:47-82 | The calls depend only on the per-index subsequences |
| ToolCallCollector.SwappingNeighboursChangesNothing | packages/providers/src/xymphony_providers/openai_llm.py:47-82 | Adjacent deltas of different indices may change places |
| ToolCallCollector.StreamedCallsComeBack | packages/providers/src/xymphony_providers/openai_llm.py:47-82 | Calls cut into pieces and interleaved in any way come back, with an id made up where none arrived and an empty object for missing arguments; unchanged exactly when no id and no arguments text is empty |
| ToolCallCollector.Collector.FeedDelta | packages/providers/src/xymphony_providers/openai_llm.py:47-66 | In place: the accumulators stay those of all deltas fed so far |
| ToolCallCollector.Collector.ToToolCalls | packages/providers/src/xymphony_providers/openai_llm.py:68-82 | One call per index in increasing order, with made-up id and empty object where nothing arrived |
| ToolCallCollector.Collector.HasToolCalls | packages/providers/src/xymphony_providers/openai_llm.py:84-86 | True exactly when a delta was fed |
| ChunkTheorems.ChunksCoverTheText | packages/rag/src/xymphony_rag/chunking.py:26-57 | When it returns, the chunks are non-empty slices of the normalized text in order, each later one begins the overlap before the place where the text was split, blanks skipped, or stands still where the split lies within the overlap, and every non-space position is covered; there are none exactly for blank text |
| ChunkTheorems.ChunksRespectSizeIff | packages/rag/src/xymphony_rag/chunking.py:51-57 | Every chunk is within the size exactly when the guard after the first iteration does not fire, that is unless the first split falls within the overlap |
| ChunkTheorems.NeverReturnsIff | packages/rag/src/xymphony_rag/chunking.py:36-52 | Runs forever exactly when a rest reached after the first iteration has its split within the overlap, which as many iterations as characters decide |
| ChunkTheorems.AlwaysReturnsIffOverlapAtMostOne | packages/rag/src/xymphony_rag/chunking.py:36-52 | Settings return for every text exactly when the overlap is 0 or 1; for any larger overlap a text that never returns is given |
| Chunking.ShrinksOrStands | packages/rag/src/xymphony_rag/chunking.py:36-50 | One iteration strictly shrinks the rest exactly when the split exceeds the overlap, and otherwise leaves it as it is |
| Chunking.ForeverIffStuckLater | packages/rag/src/xymphony_rag/chunking.py:36-52 | Within as many iterations as characters the loop has exited or is at its fixed point for good |
| Chunking.SplitIsAtFirstSeparatorThatOccurs | packages/rag/src/xymphony_rag/chunking.py:60-74 | The split lies behind the last occurrence of the first separator in the list that occurs past position 0, or at the boundary |
| Chunking.ParagraphSeparatorsNeverMatch | packages/rag/src/xymphony_rag/chunking.py:26-31 | After normalization the two newline separators never decide a split |
| Chunking.NormalizingTidiesUp | packages/rag/src/xymphony_rag/chunking.py:26-26 | Normalizing keeps every non-space character in order, leaves single blanks, and is idempotent |
| Chunking.ChunkText | packages/rag/src/xymphony_rag/chunking.py:7-57 | The error cases in order and the loop; a standstill is reported where the code would go on forever |
| Chunking.FindSplitPosition | packages/rag/src/xymphony_rag/chunking.py:60-74 | The loop over separators returns the split position |
| ChunkTheorems.SettingsAreRefusedIff | packages/rag/src/xymphony_rag/chunking.py:15-24 | Blank text is never an error; otherwise the settings are refused exactly for a size or an overlap out of range, the first that applies |
| Pagination.FollowingCursorsListsTheProject | apps/api/src/xymphony_api/services.py:99-113 | Following the cursors from the start gives every row of the project once, in order, in max(1, ceil(n / limit)) pages, and then ends |
| Pagination.PagesAreSlices | apps/api/src/xymphony_api/repositories.py:63-86 | Page k is the slice of the listing from k * limit, and exists exactly when the listing reaches it or it is the first |
| Pagination.CursorListsRowsBehind | apps/api/src/xymphony_api/repositories.py:75-86 | A page lists exactly the project's rows behind its cursor row, whichever project that row belongs to |
| Pagination.ListingIsTheProject | apps/api/src/xymphony_api/repositories.py:287-312 | The listing holds exactly the project's rows, each once, strictly ordered even with tied times |
| Pagination.UnknownCursorStartsOver | apps/api/src/xymphony_api/repositories.py:75-84 | A cursor that names no row gives the first page again |
| Pagination.OrderIsUnique | apps/api/src/xymphony_api/repositories.py:85-86 | There is only one listing with the given rows in this order |
| Pagination.ListIsRefusedIff | apps/api/src/xymphony_api/services.py:99-113 | A listing is refused exactly for an unknown project |
| VersionPublishing.EveryRunIsConsistent | apps/api/src/xymphony_api/services.py:152-364 | Over every run each config_hash is the hash of the current fields, an agent's numbers are 1, 2, 3, ... in order of creation, publication times mark the published rows, and every session's version exists |
| VersionPublishing.MaxIsCount | apps/api/src/xymphony_api/repositories.py:131-135 | The highest version number of an agent is how many versions it has, so the next number leaves no gap |
| VersionPublishing.UpdateVersionKeeps | apps/api/src/xymphony_api/services.py:229-276 | Updating keeps hashes current, numbers gapless and pins intact; what it changes is in the row of VersionEffects.UpdateEffect |
| VersionPublishing.DeleteAgentKeeps | apps/api/src/xymphony_api/models.py:95-164 | Deleting an agent with its versions leaves no session without its version |
| VersionHistory.PublishedRowsAreFrozen | apps/api/src/xymphony_api/services.py:246-293 | Whatever happens next a published row stays exactly as it is, or its agent is deleted |
| VersionHistory.PublishedRefusesChanges | apps/api/src/xymphony_api/services.py:246-293 | Publishing again changes nothing, not even the time, and updating is refused |
| VersionHistory.NewSessionAgrees | apps/api/src/xymphony_api/services.py:311-367 | A new session carries the current hash of its version; without an explicit version that is the published one with the highest number |
| VersionHistory.PinnedPublishedRowStays | apps/api/src/xymphony_api/models.py:160-165 | A session and the published row it is pinned to are there, unchanged, in every continuation |
| VersionHistory.PinHoldsForeverIff | apps/api/src/xymphony_api/services.py:246-276 | For every hash function, a session's hash agrees with its version's in every continuation exactly when the version is published or no valid configuration would change its hash |
| VersionHistory.PinHoldsForeverIffPublished | apps/api/src/xymphony_api/services.py:322-355 | A session's hash agrees with its version's in every continuation exactly when the version is published (for a hash without collisions) |
| VersionPublishing.LatestPublished | apps/api/src/xymphony_api/repositories.py:142-160 | A published row of the agent with the highest number, or none exactly when there is no such row |
| VersionService.Services.UpdateVersion | apps/api/src/xymphony_api/services.py:229-276 | In place: the row is rewritten and rehashed exactly as the table step says (VersionEffects.UpdateEffect), and the tables stay consistent |
| VersionService.Services.PublishVersion | apps/api/src/xymphony_api/services.py:278-293 | In place: exactly the table step, tables consistent |
| VersionService.Services.CreateVersion | apps/api/src/xymphony_api/services.py:152-200 | In place: exactly the table step, tables consistent |
| VersionService.Services.CreateSession | apps/api/src/xymphony_api/services.py:311-367 | In place: exactly the table step, tables consistent |
| VersionService.Services.DeleteAgent | apps/api/src/xymphony_api/services.py:143-150 | In place: exactly the table step, tables consistent |
| VersionEffects.UpdateEffect | apps/api/src/xymphony_api/services.py:229-276 | An accepted update is one of a draft: each field the patch holds has its value, each other field its old one, the hash is that of the new row, and no other row and nothing else in the row has changed |
| VersionEffects.UpdateIsRefusedIff | apps/api/src/xymphony_api/services.py:229-276 | It is refused exactly for duplicate tools, a version that is not this agent's, or a published one, in this order, and then changes nothing |
| VersionEffects.EmptyPatchChangesNothing | apps/api/src/xymphony_api/services.py:229-276 | A patch that sets nothing leaves the tables as they are, hash included |
| VersionEffects.DisjointUpdatesCommute | apps/api/src/xymphony_api/services.py:229-276 | Two updates of one draft that set different fields end in the same tables in either order |
| VersionEffects.CreateVersionEffect | apps/api/src/xymphony_api/services.py:152-200 | Exactly for distinct tools and a known agent one draft is added, with the configuration asked for, the next number of the agent and its hash; all else stays |
| VersionEffects.PublishEffect | apps/api/src/xymphony_api/services.py:278-293 | Refused exactly when the version is not this agent's; a draft becomes published at that time and nothing else changes, and a published version stays as it is |
| VersionEffects.CreateSessionEffect | apps/api/src/xymphony_api/services.py:311-367 | Refused exactly when agent or version asked for is not there or, without one, when nothing is published; otherwise one session is added, pinned to that row and its hash |
| VersionEffects.DeleteAgentEffect | apps/api/src/xymphony_api/services.py:143-150 | Refused exactly for an unknown agent or one that sessions reference; otherwise the agent goes with exactly its versions |

## Left out

- Dashboard, HTTP routes, migrations, settings, logging, authentication: no protocol of their own.
- Provider, transport and database libraries: a provider is any sequence of chunks, suspensions and failures.
- Embeddings and hybrid search scores: floating point over foreign code.
- Timestamps other than a version's publication time, pydantic length limits, JSON encoding and UUID generation;
  new identities are assumed unused.
- Event listeners and the output sink: assumed not to call back into the runtime; `emit_stream_chunk` is not modelled.
- Session status synchronization at start and stop, and the metrics and log records along the way.
- Who consumes the speech-to-text audio queue: queues are written and dropped, never drained.
- A cancellation token is an identity with the turn it was made for; firing it adds it to a set, which is the one-way
  flag.
- Task cancellation during `stop`: a task may still take steps before its cancellation lands, so schedules are a
  superset of the real ones. Overlapping `stop` calls may each admit a SESSION_ENDED; no claim is made about their
  number.
- AudioIn stands for a frame with both data and duration, or without one of them; sample rate and channels play no part.
- Summary request text (`format_messages_for_summary`): the provider's answer is arbitrary, so its wording decides
  nothing.
- Summaries of several sessions side by side, and the organization filters of the in-memory stores.
- The handler keyword arguments the executor injects (`context`, `cancel`), and what the schema check looks at.
- The finish reason a model reports, and the events of the tool loop, which the orchestration model has instead.
- The bridge's lifecycle states and teardown: whether it may publish is an arbitrary flag at each publish task.
- Tool definitions, their attachment to versions, knowledge bases and documents in the control plane.
- Concurrent transactions: each service call is one step; the database's unique constraint on version numbers is not
  needed.
- Fields of agents other than their project; tags, names and descriptions change nothing that is proved here.
- ChunkText: reports a standstill instead of running forever, because a method that is verified has to end.
- PinHoldsForeverIffPublished: is the special case of PinHoldsForeverIff for a hash without collisions.
- Pagination over a table that changes between pages, where a deleted cursor row starts the listing over.
