/** What the interleaving argument says about the runtime, for every configuration and every schedule. */
module RunTheorems {
  import opened Common
  import opened PyStrings
  import opened Conversation
  import opened TurnLifecycle
  import opened Events
  import opened RuntimeSpec
  import opened RuntimeMachine
  import opened RuntimeInvariants
  import opened ScheduleSafety

  /** `_current_turn_id` is None or names the one turn that is not terminal. */
  lemma CurrentIsTheOnlyActiveTurn(c: Config, schedule: seq<Label>)
    ensures var r := Run(c, schedule).runtime;
      forall t :: t in r.turns ==> (!r.turns[t].state.IsTerminal() <==> r.current == Some(t))
    ensures var r := Run(c, schedule).runtime;
      r.current.Some? ==> r.current.value in r.turns && r.turns[r.current.value].state.Active?
  {
    RunIsSafe(c, schedule);
  }

  /** A CANCELLED turn is in the cancelled set, and everything in the set is CANCELLED or FAILED. */
  lemma CancelledSetIsExactUpToErrors(c: Config, schedule: seq<Label>, t: TurnId)
    ensures var r := Run(c, schedule).runtime;
      && (t in r.context.cancelled ==> t in r.turns && (r.turns[t].state.Cancelled? || r.turns[t].state.Failed?))
      && (t in r.turns && r.turns[t].state.Cancelled? ==> t in r.context.cancelled)
  {
    RunIsSafe(c, schedule);
  }

  /** Every suspended activity sees itself as cancelled exactly when its turn is in the cancelled set,
      even when a second pipeline has replaced or dropped the token registered for the turn. */
  lemma TokensNeverDisagree(c: Config, schedule: seq<Label>, id: TaskId)
    requires id in Run(c, schedule).activities
    requires Run(c, schedule).activities[id].Pipeline? || Run(c, schedule).activities[id].SttStream?
    ensures var s := Run(c, schedule);
      var a := s.activities[id];
      s.runtime.Gone(a.turn, a.token) <==> a.turn in s.runtime.context.cancelled
  {
    RunIsSafe(c, schedule);
  }

  /** The i-th admitted event carries number i + 1, so every number that was taken was admitted. */
  lemma AdmittedEventsAreConsecutive(c: Config, schedule: seq<Label>)
    ensures var r := Run(c, schedule).runtime;
      && r.context.sequence == |r.admitted|
      && (forall i :: 0 <= i < |r.admitted| ==> r.admitted[i].sequence == i + 1)
      && (r.admitted != [] ==>
            SequenceMonotonic(seq(|r.admitted|, i requires 0 <= i < |r.admitted| => r.admitted[i].sequence)))
  {
    RunIsSafe(c, schedule);
  }

  /** Exactly one interruption per CANCELLED turn, none for any other turn. */
  lemma InterruptedExactlyWhenCancelled(c: Config, schedule: seq<Label>, t: TurnId)
    ensures var r := Run(c, schedule).runtime;
      Interrupts(r.admitted, t) == if t in r.turns && r.turns[t].state.Cancelled? then 1 else 0
  {
    RunIsSafe(c, schedule);
  }

  /** Once a turn is in the cancelled set, none of its output is ever admitted again. */
  lemma CancelledTurnsStaySilent(c: Config, prefix: seq<Label>, schedule: seq<Label>, t: TurnId, i: nat)
    requires prefix <= schedule && t in Run(c, prefix).runtime.context.cancelled
    requires |Run(c, prefix).runtime.admitted| <= i < |Run(c, schedule).runtime.admitted|
    requires Run(c, schedule).runtime.admitted[i].turn == Some(t)
    ensures var payload := Run(c, schedule).runtime.admitted[i].payload;
      && !payload.LlmToken? && !payload.LlmResponse? && !payload.TtsChunk?
      && !payload.TranscriptFrame? && !payload.AudioFrame?
  {
    RunLeads(c, prefix, schedule);
  }

  /** Logs are append-only and a terminal turn keeps its record for good. */
  lemma HistoryIsNeverRewritten(c: Config, prefix: seq<Label>, schedule: seq<Label>)
    requires prefix <= schedule
    ensures var r, r' := Run(c, prefix).runtime, Run(c, schedule).runtime;
      && r.admitted <= r'.admitted
      && r.ledger <= r'.ledger
      && (forall t :: t in r.turns && r.turns[t].state.IsTerminal() ==> t in r'.turns && r'.turns[t] == r.turns[t])
  {
    RunLeads(c, prefix, schedule);
  }

  /** The k-th exchange: two adjacent, consecutively numbered entries of one completed turn. */
  ghost predicate IsExchange(r: Runtime, k: nat)
    requires 2 * k + 1 < |r.ledger|
  {
    var user, reply := r.ledger[2 * k], r.ledger[2 * k + 1];
    && user.role == User && reply.role == Assistant
    && user.sequence == Some(2 * k + 1) && reply.sequence == Some(2 * k + 2)
    && user.turn == reply.turn && user.turn in r.turns && r.turns[user.turn].state.Completed?
    && IsQuestion(user.parts) && WasSpoken(r.admitted, reply.turn, reply.parts)
  }

  lemma ExchangeAt(r: Runtime, k: nat)
    requires LedgerIsPaired(r) && 2 * k < |r.ledger|
    ensures 2 * k + 1 < |r.ledger| && IsExchange(r, k)
  {
    var i := 2 * k;
    assert i % 2 == 0 && (i + 1) % 2 == 1 && SamePair(i, i + 1);
  }

  /** The ledger is nothing but exchanges; each user entry is one stripped, non-empty text, and each reply was spoken
      as a response event of its turn. */
  lemma LedgerIsASequenceOfExchanges(c: Config, schedule: seq<Label>, k: nat)
    requires 2 * k < |Run(c, schedule).runtime.ledger|
    ensures 2 * k + 1 < |Run(c, schedule).runtime.ledger|
    ensures IsExchange(Run(c, schedule).runtime, k)
  {
    hide LedgerIsPaired, IsExchange;
    RunIsSafe(c, schedule);
    ExchangeAt(Run(c, schedule).runtime, k);
  }

  /** Exchanges follow the turn order strictly, so no turn has two. */
  lemma ExchangesFollowTurnOrder(c: Config, schedule: seq<Label>, j: nat, k: nat)
    requires j < k && 2 * k < |Run(c, schedule).runtime.ledger|
    ensures var r := Run(c, schedule).runtime;
      && r.ledger[2 * j].turn in r.turns && r.ledger[2 * k].turn in r.turns
      && r.turns[r.ledger[2 * j].turn].sequence < r.turns[r.ledger[2 * k].turn].sequence
      && r.ledger[2 * j].turn != r.ledger[2 * k].turn
  {
    RunIsSafe(c, schedule);
    assert !SamePair(2 * j, 2 * k);
  }

  /** The ledger grows by the pipeline's text and a reply that was admitted. */
  ghost predicate AddsPair(c: Config, r: Runtime, r': Runtime, p: Activity, reply: string)
    requires p.Pipeline?
  {
    && r'.ledger == WithPair(c, r.ledger, p.turn, p.userText, reply)
    && WasSpoken(r'.admitted, p.turn, [TextPart(Some(reply))])
  }

  ghost predicate AddsPairOrNothing(c: Config, r: Runtime, r': Runtime, p: Activity)
    requires p.Pipeline?
  {
    r'.ledger == r.ledger || exists reply :: AddsPair(c, r, r', p, reply)
  }

  lemma CommitAddsPair(c: Config, r: Runtime, p: Activity, reply: string)
    requires Inv(r) && p.Pipeline? && ActivityOk(r, p) && WasSpoken(r.admitted, p.turn, [TextPart(Some(reply))])
    ensures AddsPairOrNothing(c, r, Commit(c, r, p, reply).runtime, p)
  {
    hide LedgerIsPaired, LogIsGapless, TurnsAreNumbered, InterruptedOnce, TokensAgree, WithPair, CommitExchange,
         WasSpoken, IsStripped;
    if !r.turns[p.turn].state.IsTerminal() {
      CommitKeeps(c, r, p.turn, p.userText, reply);
      ActiveIsCurrent(r, p.turn);
      CommitEffect(c, r, p.turn, p.userText, reply);
      var done := CommitExchange(c, r, p.turn, p.userText, reply).value;
      assert Commit(c, r, p, reply).runtime == Leave(done, p);
      assert AddsPair(c, r, Leave(done, p), p, reply);
    }
  }

  lemma FailingAddsNothing(r: Runtime, t: TurnId, code: string)
    requires t in r.turns && FailTurn(r, t, code).Ok?
    ensures FailTurn(r, t, code).value.ledger == r.ledger
  {
  }

  lemma RespondingIsSpoken(r: Runtime, t: TurnId, text: string)
    requires MayEmit(r, Some(t), LlmResponse(text))
    ensures Emit(r, Some(t), LlmResponse(text)).ledger == r.ledger
    ensures WasSpoken(Emit(r, Some(t), LlmResponse(text)).admitted, t, [TextPart(Some(text))])
  {
    EmitAdmits(r, Some(t), LlmResponse(text));
    assert Emit(r, Some(t), LlmResponse(text)).admitted[|r.admitted|].payload == LlmResponse(text);
  }

  lemma SpeakingAddsPair(c: Config, r: Runtime, p: Activity, signal: Signal, fits: bool)
    requires Inv(r) && p.Pipeline? && ActivityOk(r, p) && p.stage.Speaking?
    ensures AddsPairOrNothing(c, r, ResumePipeline(c, r, p, signal, fits).runtime, p)
  {
    hide Inv, Commit, FailTurn, WasSpoken, WithPair, IsStripped;
    CommitAddsPair(c, r, p, p.stage.reply);
    if signal.ProviderFailed? && FailTurn(r, p.turn, signal.code).Ok? {
      var failed := FailTurn(r, p.turn, signal.code).value;
      FailTurnKeeps(r, p.turn, signal.code);
      FailingAddsNothing(r, p.turn, signal.code);
      ActivityStaysOk(r, failed, p);
      CommitAddsPair(c, failed, p, p.stage.reply);
      SameStart(c, r, failed, Commit(c, failed, p, p.stage.reply).runtime, p);
    }
  }

  lemma SameStart(c: Config, r: Runtime, mid: Runtime, r': Runtime, p: Activity)
    requires p.Pipeline? && AddsPairOrNothing(c, mid, r', p) && mid.ledger == r.ledger
    ensures AddsPairOrNothing(c, r, r', p)
  {
    hide WithPair, WasSpoken;
    if r'.ledger != r.ledger {
      var reply :| AddsPair(c, mid, r', p, reply);
      assert AddsPair(c, r, r', p, reply);
    }
  }

  lemma RespondingAddsPair(c: Config, r: Runtime, p: Activity, text: string)
    requires Inv(r) && p.Pipeline? && ActivityOk(r, p) && p.turn !in r.context.cancelled
    ensures AddsPairOrNothing(c, r, Respond(c, r, p, text).runtime, p)
  {
    hide Inv, Commit, Emit, WasSpoken, WithPair, IsStripped;
    EmitKeeps(r, Some(p.turn), LlmResponse(text));
    RespondingIsSpoken(r, p.turn, text);
    var emitted := Emit(r, Some(p.turn), LlmResponse(text));
    ActivityStaysOk(r, emitted, p);
    CommitAddsPair(c, emitted, p, text);
    SameStart(c, r, emitted, Commit(c, emitted, p, text).runtime, p);
  }

  lemma IteratingAddsNothing(c: Config, r: Runtime, p: Activity, i: nat, fits: bool, code: string)
    requires p.Pipeline? && p.turn in r.turns
    ensures FailPipeline(r, p, code).runtime.ledger == r.ledger
    ensures Iterate(c, r, p, i, fits).runtime.ledger == r.ledger
  {
    hide FailTurn;
    FailsWithoutPair(r, p, code);
    FailsWithoutPair(r, p, "tool_loop_limit_exceeded");
    FailsWithoutPair(r, p, "context_budget_exceeded");
  }

  lemma FailsWithoutPair(r: Runtime, p: Activity, code: string)
    requires p.Pipeline? && p.turn in r.turns
    ensures FailPipeline(r, p, code).runtime.ledger == r.ledger
  {
    hide FailTurn;
    if FailTurn(r, p.turn, code).Ok? {
      FailingAddsNothing(r, p.turn, code);
    }
  }

  lemma AfterSummaryAddsNothing(c: Config, r: Runtime, p: Activity, fits: bool)
    requires p.Pipeline? && p.turn in r.turns
    ensures Iterate(c, r, p, 0, fits).runtime.ledger == r.ledger
    ensures AfterRetrieval(c, r, p, fits).runtime.ledger == r.ledger
    ensures AfterSummary(c, r, p, fits).runtime.ledger == r.ledger
  {
    hide Iterate;
    IteratingAddsNothing(c, r, p, 0, fits, "");
  }

  lemma WaitingAddsNothing(c: Config, r: Runtime, p: Activity, signal: Signal, fits: bool)
    requires p.Pipeline? && p.turn in r.turns && !p.stage.Speaking? && !p.stage.Streaming?
    ensures ResumePipeline(c, r, p, signal, fits).runtime.ledger == r.ledger
  {
    hide Iterate, AfterSummary, Respond, Commit, Emit, FailTurn, FailPipeline;
    AfterSummaryAddsNothing(c, r, p, fits);
    if p.stage.Executing? {
      IteratingAddsNothing(c, r, p, p.stage.iteration + 1, fits, "");
    }
  }

  lemma StreamingAddsPair(c: Config, r: Runtime, p: Activity, signal: Signal, fits: bool)
    requires Inv(r) && p.Pipeline? && ActivityOk(r, p) && p.stage.Streaming?
    ensures AddsPairOrNothing(c, r, ResumePipeline(c, r, p, signal, fits).runtime, p)
  {
    hide Inv, Respond, FailPipeline, AddsPair, WasSpoken, IsStripped;
    if !r.Gone(p.turn, p.token) {
      match signal {
        case StreamEnd(_) => RespondingAddsPair(c, r, p, p.stage.text);
        case ProviderFailed(code) => FailsWithoutPair(r, p, code);
        case _ =>
      }
    }
  }

  /** One resumption of a pipeline leaves the ledger alone or adds its exchange. */
  lemma PipelineAddsPair(c: Config, r: Runtime, p: Activity, signal: Signal, fits: bool)
    requires Inv(r) && p.Pipeline? && ActivityOk(r, p)
    ensures AddsPairOrNothing(c, r, ResumePipeline(c, r, p, signal, fits).runtime, p)
  {
    hide Inv, ResumePipeline, AddsPair, WasSpoken, IsStripped;
    if p.stage.Speaking? {
      SpeakingAddsPair(c, r, p, signal, fits);
    } else if p.stage.Streaming? {
      StreamingAddsPair(c, r, p, signal, fits);
    } else {
      WaitingAddsNothing(c, r, p, signal, fits);
    }
  }

  /** When resuming a pipeline adds to the ledger, it adds exactly the text the pipeline was started with and a reply
      that was admitted; for speech, that text is a final transcript of the turn, stripped. */
  lemma ExchangesQuoteTheirTurn(c: Config, schedule: seq<Label>, id: TaskId, signal: Signal, fits: bool)
    requires id in Run(c, schedule).activities && Run(c, schedule).activities[id].Pipeline?
    ensures var s, s' := Run(c, schedule), Run(c, schedule + [Resume(id, signal, fits)]);
      var p, r, r' := s.activities[id], s.runtime, s'.runtime;
      && (r'.ledger != r.ledger ==>
            exists reply :: AddsPair(c, r, r', p, reply))
      && (p.nested ==> WasHeard(r.admitted, p.turn, p.userText))
  {
    hide Run, Inv, Strip, ResumePipeline, WithPair;
    RunIsSafe(c, schedule);
    var s := Run(c, schedule);
    OneMore(c, schedule, Resume(id, signal, fits));
    var p, r, r' := s.activities[id], s.runtime, Run(c, schedule + [Resume(id, signal, fits)]).runtime;
    PipelineAddsPair(c, r, p, signal, fits);
    var o := ResumePipeline(c, r, p, signal, fits);
    if r'.ledger != r.ledger {
      var reply :| AddsPair(c, r, o.runtime, p, reply);
      assert AddsPair(c, r, r', p, reply);
    }
  }

  /** Neither raise branch of `_complete_turn` is ever taken, nor does cancelling a turn ever raise:
      the only exception a turn operation lets out is `turn.fail` on a turn that is already terminal. */
  lemma CompletingNeverRaises(c: Config, schedule: seq<Label>, i: nat)
    requires i < |Run(c, schedule).faults|
    ensures Run(c, schedule).faults[i] == WhileFailing(InvalidStateTransition)
  {
    RunIsSafe(c, schedule);
  }

  /** From the moment shutdown is requested every turn is terminal and no turn is ever added;
      `stop` requests it before it does anything else and never takes it back. */
  lemma ShutdownLeavesNothingActive(c: Config, prefix: seq<Label>, schedule: seq<Label>)
    requires prefix <= schedule && Run(c, prefix).runtime.context.shutdown
    ensures var r, r' := Run(c, prefix).runtime, Run(c, schedule).runtime;
      && r'.context.shutdown && r'.current.None? && r'.turns == r.turns
      && forall t :: t in r'.turns ==> r'.turns[t].state.IsTerminal()
  {
    hide Run, LedgerIsPaired, LogIsGapless, TurnsAreNumbered, InterruptedOnce, TokensAgree;
    RunIsSafe(c, prefix);
    RunIsSafe(c, schedule);
    RunLeads(c, prefix, schedule);
    var r, r' := Run(c, prefix).runtime, Run(c, schedule).runtime;
    assert forall t :: t in r.turns ==> r.turns[t].state.IsTerminal();
  }

  /** Stopping a running runtime, from any reachable state, requests shutdown in its first step. */
  lemma StopReachesShutdown(c: Config, schedule: seq<Label>, reason: string)
    requires Run(c, schedule).runtime.running
    ensures var r := Run(c, schedule + [StopRuntime(reason)]).runtime;
      r.context.shutdown && forall t :: t in r.turns ==> r.turns[t].state.IsTerminal()
  {
    hide SystemInv, HandledOk, OutcomeOk;
    RunIsSafe(c, schedule);
    OneMore(c, schedule, StopRuntime(reason));
    StopOk(Run(c, schedule), reason);
  }

  lemma OneMore(c: Config, schedule: seq<Label>, l: Label)
    ensures Run(c, schedule + [l]) == Apply(c, Run(c, schedule), l)
  {
    assert (schedule + [l])[..|schedule|] == schedule;
  }

  // ---- What the guards do not prevent ----

  lemma FinalTranscriptAppend(log: seq<Event>, e: Event, t: TurnId)
    ensures FinalTranscript(log + [e], t)
      == if IsFinalTranscript(e, t) then Some(e.payload.text) else FinalTranscript(log, t)
  {
    assert (log + [e])[..|log|] == log;
  }

  /** A transcript starts a pipeline that suspends somewhere: to summarize, to retrieve, to recall or to stream. */
  predicate SpeechStartsPipeline(c: Config) {
    c.hasLlm && c.hasStt && (c.hasSummarizer || c.hasRetriever || c.hasMemory || c.maxToolIterations > 0)
  }

  /** Where a pipeline suspends first, given that a context budget does not stop it before. */
  function FirstStage(c: Config): Stage {
    if c.hasSummarizer then Summarizing
    else if c.hasRetriever then Retrieving
    else if c.hasMemory then Recalling
    else Streaming(0, "")
  }

  /** What a final transcript leaves behind: the pipeline it starts runs with every guard released. */
  ghost predicate PipelineWithoutGuards(c: Config, r: Runtime, o: Outcome, t: TurnId, text: string) {
    && o.next == Some(Pipeline(t, Strip(text), Token(t, r.tokenCount), true, FirstStage(c)))
    && o.faults == []
    && o.runtime.turns == r.turns && o.runtime.current == r.current && o.runtime.running == r.running
    && o.runtime.ledger == r.ledger
    && o.runtime.context.shutdown == r.context.shutdown && o.runtime.context.cancelled == r.context.cancelled
    && o.runtime.fired == r.fired && o.runtime.tokenCount == r.tokenCount + 1
    && t !in o.runtime.finalizing && t !in o.runtime.speechEnded && t !in o.runtime.sttTasks
    && FinalTranscript(o.runtime.admitted, t) == Some(text)
  }

  lemma RunPipelineSuspends(c: Config, r: Runtime, t: TurnId, userText: string, nested: bool)
    requires SpeechStartsPipeline(c) && t in r.turns && t !in r.context.cancelled && Token(t, r.tokenCount) !in r.fired
    ensures RunPipeline(c, r, t, userText, nested, true)
      == Outcome(EnterPipeline(r, t).0, Some(Pipeline(t, userText, Token(t, r.tokenCount), nested, FirstStage(c))), [])
  {
    hide FailPipeline, EndPipeline;
  }

  lemma FinishReleasesGuards(c: Config, r: Runtime, t: TurnId, text: string)
    requires SpeechStartsPipeline(c) && r.IsActive(t) && t !in r.context.cancelled && Strip(text) != ""
    requires Token(t, r.tokenCount) !in r.fired && FinalTranscript(r.admitted, t) == Some(text)
    ensures PipelineWithoutGuards(c, r, FinishSpeech(c, r, t, true), t, text)
  {
    hide FinalTranscript, Strip, RunPipeline, FirstStage;
    RunPipelineSuspends(c, CleanupSpeech(r, t), t, Strip(text), true);
  }

  /** The speech-to-text task reports its final transcript: its pipeline starts with every guard released. */
  lemma FinalTranscriptReleasesGuards(c: Config, r: Runtime, t: TurnId, token: Token, me: TaskId, text: string)
    requires SpeechStartsPipeline(c) && r.IsActive(t) && Strip(text) != ""
    requires t !in r.finalizing && t in r.sttTasks && r.sttTasks[t] == me && !r.Gone(t, token)
    requires Token(t, r.tokenCount) !in r.fired
    ensures PipelineWithoutGuards(c, r, ResumeStt(c, r, SttStream(t, token), me, Transcript(text, true), true), t, text)
  {
    hide FinalTranscript, FinishSpeech, AnnounceSpeechEnd, Strip, Emit;
    var payload := TranscriptFrame(text, true);
    var emitted := Emit(r, Some(t), payload);
    EmitAdmits(r, Some(t), payload);
    FinalTranscriptAppend(r.admitted, Event(r.context.sequence + 1, Some(t), payload), t);
    AnnouncingKeepsTranscript(emitted, t);
    var queued := PutAudio(AnnounceSpeechEnd(emitted, t), t, EndOfAudio);
    FinishReleasesGuards(c, queued, t, text);
  }

  lemma AnnouncingKeepsTranscript(r: Runtime, t: TurnId)
    ensures var announced := AnnounceSpeechEnd(r, t);
      && FinalTranscript(announced.admitted, t) == FinalTranscript(r.admitted, t)
      && announced == r.(context := announced.context, admitted := announced.admitted,
                         finalizing := r.finalizing + {t}, speechEnded := announced.speechEnded)
      && announced.context == r.context.(sequence := announced.context.sequence)
  {
    if t !in r.speechEnded {
      FinalTranscriptAppend(r.admitted, Event(r.context.sequence + 1, Some(t), UserSpeechEnded), t);
    }
  }

  /** With the guards released, a second end of speech starts a second pipeline on the same turn. */
  lemma SecondSpeechEndStartsPipeline(c: Config, r: Runtime, t: TurnId, me: TaskId, text: string)
    requires SpeechStartsPipeline(c) && r.IsActive(t) && t !in r.context.cancelled && Strip(text) != ""
    requires t !in r.finalizing && t !in r.sttTasks && FinalTranscript(r.admitted, t) == Some(text)
    requires Token(t, r.tokenCount) !in r.fired
    ensures FinalizeSpeech(c, r, t, me, true).next
      == Some(Pipeline(t, Strip(text), Token(t, r.tokenCount), true, FirstStage(c)))
    ensures var r' := FinalizeSpeech(c, r, t, me, true).runtime;
      && r'.turns == r.turns && r'.context.cancelled == r.context.cancelled && r'.ledger == r.ledger
      && r'.current == r.current && r'.running == r.running && r'.context.shutdown == r.context.shutdown
  {
    hide AnnounceSpeechEnd, FinalTranscript, Strip, FinishSpeech, FirstStage;
    AnnouncingKeepsTranscript(r, t);
    FinishReleasesGuards(c, PutAudio(AnnounceSpeechEnd(r, t), t, EndOfAudio), t, text);
  }

  /** From any reachable state in which the current turn is listening, a final transcript followed by an
      end-of-speech input leaves two pipelines on that turn. */
  lemma TwoPipelinesOnOneTurn(c: Config, schedule: seq<Label>, id: TaskId, text: string, unused: TurnId)
    requires SpeechStartsPipeline(c) && Strip(text) != ""
    requires var s := Run(c, schedule);
      && s.runtime.running && s.runtime.current.Some?
      && id in s.activities && s.activities[id].SttStream? && s.activities[id].turn == s.runtime.current.value
      && s.runtime.current.value in s.runtime.sttTasks && s.runtime.sttTasks[s.runtime.current.value] == id
      && s.runtime.current.value !in s.runtime.finalizing && unused !in s.runtime.turns
    ensures var t := Run(c, schedule).runtime.current.value;
      var s := Run(c, schedule + [Resume(id, Transcript(text, true), true), Deliver(SpeechEnded, unused, true)]);
      exists other :: id != other && id in s.activities && other in s.activities
        && s.activities[id].Pipeline? && s.activities[other].Pipeline?
        && s.activities[id].turn == s.activities[other].turn == t
        && s.activities[id].stage == s.activities[other].stage == FirstStage(c)
  {
    hide FirstStage, Run, Apply, FinalTranscript, Strip, LedgerIsPaired, LogIsGapless, TurnsAreNumbered,
         InterruptedOnce, TokensAgree;
    var s := Run(c, schedule);
    RunIsSafe(c, schedule);
    var r, t := s.runtime, s.runtime.current.value;
    var a := s.activities[id];
    ActiveIsCurrent(r, t);
    var first := Resume(id, Transcript(text, true), true);
    OneMore(c, schedule, first);
    var s1 := Run(c, schedule + [first]);
    var second := Deliver(SpeechEnded, unused, true);
    OneMore(c, schedule + [first], second);
    assert schedule + [first] + [second] == schedule + [first, second];
    FirstOfTwo(c, s, id, text);
    SecondOfTwo(c, s1, t, text, unused);
    assert s.nextTask in Run(c, schedule + [first, second]).activities;
  }

  /** With a summarizer both are suspended in `prepare`, on the same turn and for the same text. */
  lemma TwoPipelinesSummarize(c: Config, schedule: seq<Label>, id: TaskId, text: string, unused: TurnId)
    requires c.hasLlm && c.hasStt && c.hasSummarizer && Strip(text) != ""
    requires var s := Run(c, schedule);
      && s.runtime.running && s.runtime.current.Some?
      && id in s.activities && s.activities[id].SttStream? && s.activities[id].turn == s.runtime.current.value
      && s.runtime.current.value in s.runtime.sttTasks && s.runtime.sttTasks[s.runtime.current.value] == id
      && s.runtime.current.value !in s.runtime.finalizing && unused !in s.runtime.turns
    ensures var t := Run(c, schedule).runtime.current.value;
      var s := Run(c, schedule + [Resume(id, Transcript(text, true), true), Deliver(SpeechEnded, unused, true)]);
      exists other :: id != other && id in s.activities && other in s.activities
        && s.activities[id].Pipeline? && s.activities[other].Pipeline?
        && s.activities[id].turn == s.activities[other].turn == t
        && s.activities[id].stage == s.activities[other].stage == Summarizing
  {
    hide Run, Strip;
    TwoPipelinesOnOneTurn(c, schedule, id, text, unused);
  }

  lemma FirstOfTwo(c: Config, s: System, id: TaskId, text: string)
    requires SystemInv(s) && SpeechStartsPipeline(c) && Strip(text) != ""
    requires s.runtime.running && s.runtime.current.Some?
    requires id in s.activities && s.activities[id].SttStream? && s.activities[id].turn == s.runtime.current.value
    requires var t := s.runtime.current.value;
      && t in s.runtime.sttTasks && s.runtime.sttTasks[t] == id && t !in s.runtime.finalizing
      && s.runtime.IsActive(t) && t !in s.runtime.context.cancelled
    ensures var t, s1 := s.runtime.current.value, Apply(c, s, Resume(id, Transcript(text, true), true));
      && id in s1.activities && s1.activities[id].Pipeline? && s1.activities[id].turn == t
      && s1.activities[id].stage == FirstStage(c)
      && s1.activities[id].userText == Strip(text) && s1.runtime.ledger == s.runtime.ledger
      && s1.activities == s.activities[id := s1.activities[id]] && id < s1.nextTask && s1.nextTask == s.nextTask
      && ReadyForSecond(s1.runtime, t, text) && s1.runtime.turns == s.runtime.turns
      && s1.runtime.context.cancelled == s.runtime.context.cancelled
  {
    hide Core, ResumeStt, FirstStage, FinalTranscript, Strip;
    var r, t := s.runtime, s.runtime.current.value;
    assert TokensAgree(r) by {
      CoreParts(r);
    }
    TokensAreOlder(r, s.activities[id]);
    assert Token(t, r.tokenCount + 1) !in r.fired;
    FinalTranscriptReleasesGuards(c, r, t, s.activities[id].token, id, text);
  }

  lemma CoreParts(r: Runtime)
    requires Core(r)
    ensures TokensAgree(r)
  {
  }

  lemma TokensAreOlder(r: Runtime, a: Activity)
    requires TokensAgree(r) && a.SttStream? && a.token.turn == a.turn && a.turn !in r.context.cancelled
    ensures forall n :: n >= r.tokenCount ==> Token(a.turn, n) !in r.fired
    ensures !r.Gone(a.turn, a.token)
  {
  }

  predicate ReadyForSecond(r: Runtime, t: TurnId, text: string) {
    && r.running && !r.context.shutdown && r.current == Some(t) && r.IsActive(t)
    && t !in r.context.cancelled && t !in r.finalizing && t !in r.sttTasks
    && FinalTranscript(r.admitted, t) == Some(text)
    && Token(t, r.tokenCount) !in r.fired
  }

  lemma SecondOfTwo(c: Config, s: System, t: TurnId, text: string, unused: TurnId)
    requires SpeechStartsPipeline(c) && Strip(text) != "" && ReadyForSecond(s.runtime, t, text)
    requires unused !in s.runtime.turns
    ensures var s1 := Apply(c, s, Deliver(SpeechEnded, unused, true));
      && s.nextTask in s1.activities
      && s1.activities[s.nextTask].Pipeline? && s1.activities[s.nextTask].turn == t
      && s1.activities[s.nextTask].stage == FirstStage(c)
      && s1.runtime.turns == s.runtime.turns && s1.runtime.context.cancelled == s.runtime.context.cancelled
      && s1.activities[s.nextTask].userText == Strip(text) && s1.runtime.ledger == s.runtime.ledger
      && s1.activities == s.activities[s.nextTask := s1.activities[s.nextTask]] && s1.nextTask == s.nextTask + 2
      && s1.runtime.current == s.runtime.current && s1.runtime.running && !s1.runtime.context.shutdown
  {
    hide FinalizeSpeech, FirstStage, FinalTranscript, Strip;
    SecondSpeechEndStartsPipeline(c, s.runtime, t, s.nextTask, text);
  }

  /** The stale filter knows cancellation only: a pipeline left behind on a COMPLETED or FAILED turn that was
      not cancelled still has every token it receives admitted. */
  lemma LeftoverPipelineStillSpeaks(c: Config, schedule: seq<Label>, id: TaskId, delta: string, fits: bool)
    requires delta != "" && id in Run(c, schedule).activities
    requires Run(c, schedule).activities[id].Pipeline? && Run(c, schedule).activities[id].stage.Streaming?
    ensures var s, s' := Run(c, schedule), Run(c, schedule + [Resume(id, Delta(delta), fits)]);
      var t := s.activities[id].turn;
      s'.runtime.admitted == s.runtime.admitted
        + if t in s.runtime.context.cancelled then []
          else [Event(|s.runtime.admitted| + 1, Some(t), LlmToken(delta))]
  {
    RunIsSafe(c, schedule);
    TokensNeverDisagree(c, schedule, id);
    OneMore(c, schedule, Resume(id, Delta(delta), fits));
  }

  const SpeechConfig := Config(true, true, false, true, false, false, false, 4)

  const Listening: seq<Label> := [StartRuntime, Deliver(SpeechStarted, 7, true)]

  lemma ListeningState()
    ensures var s := Run(SpeechConfig, Listening);
      && s.nextTask == 2 && s.activities == map[1 := SttStream(7, Token(7, 0))]
      && s.runtime.running && s.runtime.current == Some(7) && s.runtime.turns.Keys == {7}
      && s.runtime.turns[7].state.Active?
      && s.runtime.context.cancelled == {} && s.runtime.finalizing == {} && s.runtime.sttTasks == map[7 := 1]
  {
    OneMore(SpeechConfig, [], StartRuntime);
    assert [] + [StartRuntime] == [StartRuntime];
    assert Listening == [StartRuntime] + [Deliver(SpeechStarted, 7, true)];
    OneMore(SpeechConfig, [StartRuntime], Deliver(SpeechStarted, 7, true));
  }

  lemma ReplyCompletes(c: Config, s: System, id: TaskId, other: TaskId)
    requires SystemInv(s) && !c.hasTts && id != other && id in s.activities && other in s.activities
    requires s.activities[id].Pipeline? && s.activities[id].stage.Streaming?
    requires s.runtime.IsActive(s.activities[id].turn)
    ensures var t, s' := s.activities[id].turn, Apply(c, s, Resume(id, StreamEnd(0), true));
      && other in s'.activities && s'.activities[other] == s.activities[other]
      && t in s'.runtime.turns && s'.runtime.turns[t].state.Completed? && t !in s'.runtime.context.cancelled
  {
    hide LedgerIsPaired, CommitExchange, Emit;
    var r, p := s.runtime, s.activities[id];
    ActiveIsCurrent(r, p.turn);
    GoneMeansCancelled(r, p);
    EmitAdmits(r, Some(p.turn), LlmResponse(p.stage.text));
    var emitted := Emit(r, Some(p.turn), LlmResponse(p.stage.text));
    CommitEffect(c, emitted, p.turn, p.userText, p.stage.text);
  }

  lemma GoneMeansCancelled(r: Runtime, p: Activity)
    requires Core(r) && p.Pipeline? && p.token.turn == p.turn
    ensures r.Gone(p.turn, p.token) <==> p.turn in r.context.cancelled
  {
  }
}
