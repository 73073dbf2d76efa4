/** The invariants of the runtime hold after every schedule, however the activities interleave. */
module ScheduleSafety {
  import opened Common
  import opened PyStrings
  import opened Conversation
  import opened TurnLifecycle
  import opened Events
  import opened RuntimeSpec
  import opened RuntimeMachine
  import opened RuntimeInvariants

  /** What is true of a suspended activity. Nothing says that a turn has at most one pipeline. */
  ghost predicate ActivityOk(r: Runtime, a: Activity) {
    match a
    case Pipeline(t, userText, token, nested, stage) =>
      && t in r.turns && token.turn == t && userText != "" && IsStripped(userText)
      && (nested ==> WasHeard(r.admitted, t, userText))
      && (stage.Speaking? ==> WasSpoken(r.admitted, t, [TextPart(Some(stage.reply))]))
    case AwaitingStt(t, _) => t in r.turns
    case SttStream(t, token) => t in r.turns && token.turn == t
    case Gathering(_, _) => r.context.shutdown
  }

  /** `_complete_turn` and `_cancel_turn` have never raised out of a step. */
  predicate OnlyFailingRaises(faults: seq<Fault>) {
    forall i :: 0 <= i < |faults| ==> faults[i] == WhileFailing(InvalidStateTransition)
  }

  ghost predicate SystemInv(s: System) {
    && Inv(s.runtime)
    && OnlyFailingRaises(s.faults)
    && (forall id :: id in s.activities ==> ActivityOk(s.runtime, s.activities[id]) && id < s.nextTask)
  }

  lemma CurrentIsKnown(s: System)
    requires SystemInv(s)
    ensures s.runtime.current.Some? ==> s.runtime.current.value in s.runtime.turns
  {
  }

  lemma ActivityHasTurn(s: System, id: TaskId)
    requires SystemInv(s) && id in s.activities
    ensures s.activities[id].Gathering? || s.activities[id].turn in s.runtime.turns
  {
  }

  lemma KnownActivities(s: System)
    requires SystemInv(s)
    ensures s.nextTask !in s.activities && s.nextTask + 1 !in s.activities
  {
  }

  ghost predicate OutcomeOk(r: Runtime, o: Outcome) {
    && Inv(o.runtime)
    && Leads(r, o.runtime)
    && (o.next.Some? ==> ActivityOk(o.runtime, o.next.value))
    && OnlyFailingRaises(o.faults)
  }

  lemma ActivityStaysOk(r: Runtime, r': Runtime, a: Activity)
    requires ActivityOk(r, a) && Leads(r, r')
    ensures ActivityOk(r', a)
  {
    hide Strip, IsStripped;
    if a.Pipeline? && a.nested {
      AdmittingKeepsHeard(r.admitted, r'.admitted, a.turn, a.userText);
    }
    if a.Pipeline? && a.stage.Speaking? {
      AdmittingKeepsSpoken(r.admitted, r'.admitted, a.turn, [TextPart(Some(a.stage.reply))]);
    }
  }

  predicate Registers(before: map<TurnId, Token>, after: map<TurnId, Token>, bound: nat) {
    forall t :: t in after ==>
      (t in before && after[t] == before[t]) || (after[t].turn == t && after[t].serial < bound)
  }

  /** Only queues, task handles, guards and registered tokens differ. */
  predicate OnlyPlumbing(r: Runtime, r': Runtime) {
    && r'.running == r.running && r'.context == r.context && r'.turns == r.turns && r'.current == r.current
    && r'.admitted == r.admitted && r'.ledger == r.ledger && r'.fired == r.fired
    && r.tokenCount <= r'.tokenCount
    && Registers(r.llmTokens, r'.llmTokens, r'.tokenCount)
    && Registers(r.ttsTokens, r'.ttsTokens, r'.tokenCount)
    && Registers(r.sttTokens, r'.sttTokens, r'.tokenCount)
  }

  lemma PlumbingKeeps(r: Runtime, r': Runtime)
    requires Inv(r) && OnlyPlumbing(r, r')
    ensures Inv(r') && Leads(r, r')
  {
    hide LedgerIsPaired, WasSpoken;
    LedgerKept(r, r');
  }

  lemma OutcomeAfter(r: Runtime, mid: Runtime, o: Outcome)
    requires Leads(r, mid) && OutcomeOk(mid, o)
    ensures OutcomeOk(r, o)
  {
    hide Inv, Leads;
    LeadsTransitive(r, mid, o.runtime);
  }

  // ---- Pipelines ----

  lemma RegistersLess(tokens: map<TurnId, Token>, t: TurnId, bound: nat)
    ensures Registers(tokens, tokens - {t}, bound) && Registers(tokens, tokens, bound)
  {
  }

  lemma LeavingIsPlumbing(r: Runtime, p: Activity)
    requires p.Pipeline?
    ensures OnlyPlumbing(r, Leave(r, p))
  {
    hide Registers;
    RegistersLess(r.llmTokens, p.turn, r.tokenCount);
    RegistersLess(r.ttsTokens, p.turn, r.tokenCount);
    RegistersLess(r.sttTokens, p.turn, r.tokenCount);
  }

  lemma EndPipelineOk(r: Runtime, p: Activity)
    requires Inv(r) && p.Pipeline?
    ensures OutcomeOk(r, EndPipeline(r, p))
  {
    hide Inv, Leads, OnlyPlumbing, Leave;
    LeavingIsPlumbing(r, p);
    PlumbingKeeps(r, Leave(r, p));
  }

  lemma FailPipelineOk(r: Runtime, p: Activity, code: string)
    requires Inv(r) && p.Pipeline? && p.turn in r.turns
    ensures OutcomeOk(r, FailPipeline(r, p, code))
  {
    hide Inv, Leads, FailTurn;
    LeadsReflexive(r);
    FailTurnKeeps(r, p.turn, code);
    if FailTurn(r, p.turn, code).Ok? {
      var failed := FailTurn(r, p.turn, code).value;
      EndPipelineOk(failed, p);
      OutcomeAfter(r, failed, EndPipeline(failed, p));
    } else {
      EndPipelineOk(r, p);
    }
  }

  lemma IterateOk(c: Config, r: Runtime, p: Activity, i: nat, fits: bool)
    requires Inv(r) && p.Pipeline? && ActivityOk(r, p)
    ensures OutcomeOk(r, Iterate(c, r, p, i, fits))
  {
    hide Inv, Leads, EndPipeline, FailPipeline;
    LeadsReflexive(r);
    FailPipelineOk(r, p, "tool_loop_limit_exceeded");
    FailPipelineOk(r, p, "context_budget_exceeded");
    EndPipelineOk(r, p);
  }

  lemma AfterSummaryOk(c: Config, r: Runtime, p: Activity, fits: bool)
    requires Inv(r) && p.Pipeline? && ActivityOk(r, p)
    ensures OutcomeOk(r, AfterSummary(c, r, p, fits))
    ensures OutcomeOk(r, AfterRetrieval(c, r, p, fits))
  {
    hide Inv, Leads, Iterate;
    LeadsReflexive(r);
    IterateOk(c, r, p, 0, fits);
  }

  lemma RunPipelineOk(c: Config, r: Runtime, t: TurnId, userText: string, nested: bool, fits: bool)
    requires Inv(r) && t in r.turns && userText != "" && IsStripped(userText)
    requires nested ==> WasHeard(r.admitted, t, userText)
    ensures OutcomeOk(r, RunPipeline(c, r, t, userText, nested, fits))
  {
    hide Inv, Leads, AfterSummary;
    var (entered, token) := EnterPipeline(r, t);
    PlumbingKeeps(r, entered);
    LeadsReflexive(entered);
    var p := Pipeline(t, userText, token, nested, Summarizing);
    AfterSummaryOk(c, entered, p, fits);
    OutcomeAfter(r, entered, RunPipeline(c, r, t, userText, nested, fits));
  }

  lemma CommitOk(c: Config, r: Runtime, p: Activity, reply: string)
    requires Inv(r) && p.Pipeline? && p.turn in r.turns && p.userText != "" && IsStripped(p.userText)
    requires WasSpoken(r.admitted, p.turn, [TextPart(Some(reply))])
    ensures OutcomeOk(r, Commit(c, r, p, reply))
  {
    hide Inv, Leads, EndPipeline, CommitExchange;
    if r.turns[p.turn].state.IsTerminal() {
      EndPipelineOk(r, p);
    } else {
      CommitKeeps(c, r, p.turn, p.userText, reply);
      var completed := CommitExchange(c, r, p.turn, p.userText, reply).value;
      EndPipelineOk(completed, p);
      OutcomeAfter(r, completed, EndPipeline(completed, p));
    }
  }

  lemma RespondOk(c: Config, r: Runtime, p: Activity, reply: string)
    requires Inv(r) && p.Pipeline? && ActivityOk(r, p) && p.turn !in r.context.cancelled
    ensures OutcomeOk(r, Respond(c, r, p, reply))
  {
    hide Inv, Leads, EndPipeline, Commit;
    var emitted := Emit(r, Some(p.turn), LlmResponse(reply));
    EmitKeeps(r, Some(p.turn), LlmResponse(reply));
    LeadsReflexive(emitted);
    assert emitted.admitted[|r.admitted|].payload == LlmResponse(reply);
    assert WasSpoken(emitted.admitted, p.turn, [TextPart(Some(reply))]);
    ActivityStaysOk(r, emitted, p);
    EndPipelineOk(emitted, p);
    CommitOk(c, emitted, p, reply);
    OutcomeAfter(r, emitted, Respond(c, r, p, reply));
  }

  lemma ResumeStreamingOk(c: Config, r: Runtime, p: Activity, signal: Signal, fits: bool)
    requires Inv(r) && p.Pipeline? && ActivityOk(r, p) && p.stage.Streaming?
    ensures OutcomeOk(r, ResumePipeline(c, r, p, signal, fits))
  {
    hide Inv, Leads, EndPipeline, FailPipeline, Respond, Emit;
    LeadsReflexive(r);
    EndPipelineOk(r, p);
    if !r.Gone(p.turn, p.token) {
      match signal {
        case Delta(delta) =>
          EmitKeeps(r, Some(p.turn), LlmToken(delta));
          ActivityStaysOk(r, Emit(r, Some(p.turn), LlmToken(delta)), p);
        case ProviderFailed(code) => FailPipelineOk(r, p, code);
        case StreamEnd(calls) => RespondOk(c, r, p, p.stage.text);
        case _ =>
      }
    }
  }

  lemma ResumeSpeakingOk(c: Config, r: Runtime, p: Activity, signal: Signal, fits: bool)
    requires Inv(r) && p.Pipeline? && ActivityOk(r, p) && p.stage.Speaking?
    ensures OutcomeOk(r, ResumePipeline(c, r, p, signal, fits))
  {
    hide Inv, Leads, Commit, FailTurn, Emit;
    LeadsReflexive(r);
    CommitOk(c, r, p, p.stage.reply);
    if !r.Gone(p.turn, p.token) {
      match signal {
        case Speech(audioRef) =>
          EmitKeeps(r, Some(p.turn), TtsChunk(audioRef));
          ActivityStaysOk(r, Emit(r, Some(p.turn), TtsChunk(audioRef)), p);
        case ProviderFailed(code) =>
          FailTurnKeeps(r, p.turn, code);
          if FailTurn(r, p.turn, code).Ok? {
            var failed := FailTurn(r, p.turn, code).value;
            ActivityStaysOk(r, failed, p);
            CommitOk(c, failed, p, p.stage.reply);
            OutcomeAfter(r, failed, Commit(c, failed, p, p.stage.reply));
          } else {
            EndPipelineOk(r, p);
          }
        case _ =>
      }
    }
  }

  lemma ResumePipelineOk(c: Config, r: Runtime, p: Activity, signal: Signal, fits: bool)
    requires Inv(r) && p.Pipeline? && ActivityOk(r, p)
    ensures OutcomeOk(r, ResumePipeline(c, r, p, signal, fits))
  {
    hide Inv, Leads, EndPipeline, AfterSummary, Iterate;
    LeadsReflexive(r);
    match p.stage {
      case Streaming(_, _) => ResumeStreamingOk(c, r, p, signal, fits);
      case Speaking(_) => ResumeSpeakingOk(c, r, p, signal, fits);
      case Executing(i, _) =>
        EndPipelineOk(r, p);
        IterateOk(c, r, p, i + 1, fits);
      case _ =>
        EndPipelineOk(r, p);
        AfterSummaryOk(c, r, p, fits);
        IterateOk(c, r, p, 0, fits);
    }
  }

  // ---- Speech ----

  lemma CompleteAfterSpeechOk(r: Runtime, t: TurnId)
    requires Inv(r) && t in r.turns && !r.turns[t].state.IsTerminal()
    ensures OutcomeOk(r, CompleteAfterSpeech(r, t))
  {
    hide Inv, Leads, CompleteTurn;
    CompleteTurnKeeps(r, t);
    var completed := CompleteTurn(r, t).value;
    PlumbingKeeps(completed, LeaveFinalizer(completed, t));
    LeadsTransitive(r, completed, LeaveFinalizer(completed, t));
  }

  lemma FinishSpeechOk(c: Config, r: Runtime, t: TurnId, fits: bool)
    requires Inv(r) && t in r.turns
    ensures OutcomeOk(r, FinishSpeech(c, r, t, fits))
  {
    hide Inv, Leads, RunPipeline, CompleteAfterSpeech, FinalTranscript;
    var cleaned := CleanupSpeech(r, t);
    PlumbingKeeps(r, cleaned);
    PlumbingKeeps(r, LeaveFinalizer(cleaned, t));
    if !r.turns[t].state.IsTerminal() {
      var transcript := FinalTranscript(cleaned.admitted, t);
      FinalTranscriptIsLast(cleaned.admitted, t);
      if transcript.Some? && Strip(transcript.value) != "" && c.hasLlm {
        RunPipelineOk(c, cleaned, t, Strip(transcript.value), true, fits);
      } else {
        CompleteAfterSpeechOk(cleaned, t);
      }
      OutcomeAfter(r, cleaned, FinishSpeech(c, r, t, fits));
    }
  }

  lemma AnnounceKeeps(r: Runtime, t: TurnId)
    requires Inv(r) && t in r.turns
    ensures var announced := AnnounceSpeechEnd(r, t);
      Inv(announced) && Leads(r, announced) && announced.turns == r.turns
  {
    hide Inv, Leads, Emit;
    var guarded := r.(finalizing := r.finalizing + {t});
    PlumbingKeeps(r, guarded);
    if t !in r.speechEnded {
      var marked := guarded.(speechEnded := r.speechEnded + {t});
      PlumbingKeeps(r, marked);
      EmitKeeps(marked, Some(t), UserSpeechEnded);
      LeadsTransitive(r, marked, AnnounceSpeechEnd(r, t));
    }
  }

  lemma FinalizeSpeechOk(c: Config, r: Runtime, t: TurnId, me: TaskId, fits: bool)
    requires Inv(r) && t in r.turns
    ensures OutcomeOk(r, FinalizeSpeech(c, r, t, me, fits))
  {
    hide Inv, Leads, FinishSpeech, CompleteAfterSpeech, AnnounceSpeechEnd;
    LeadsReflexive(r);
    if !r.turns[t].state.IsTerminal() && t !in r.finalizing {
      AnnounceKeeps(r, t);
      var announced := AnnounceSpeechEnd(r, t);
      if !c.hasStt {
        CompleteAfterSpeechOk(announced, t);
        OutcomeAfter(r, announced, CompleteAfterSpeech(announced, t));
      } else {
        var queued := PutAudio(announced, t, EndOfAudio);
        PlumbingKeeps(announced, queued);
        LeadsTransitive(r, announced, queued);
        FinishSpeechOk(c, queued, t, fits);
        OutcomeAfter(r, queued, FinishSpeech(c, queued, t, fits));
      }
    }
  }

  lemma ResumeSttOk(c: Config, r: Runtime, a: Activity, me: TaskId, signal: Signal, fits: bool)
    requires Inv(r) && a.SttStream? && ActivityOk(r, a)
    ensures OutcomeOk(r, ResumeStt(c, r, a, me, signal, fits))
  {
    hide Inv, Leads, FinalizeSpeech, Emit, FailTurn;
    LeadsReflexive(r);
    if !r.Gone(a.turn, a.token) {
      match signal {
        case Transcript(text, isFinal) =>
          var emitted := Emit(r, Some(a.turn), TranscriptFrame(text, isFinal));
          EmitKeeps(r, Some(a.turn), TranscriptFrame(text, isFinal));
          FinalizeSpeechOk(c, emitted, a.turn, me, fits);
          OutcomeAfter(r, emitted, FinalizeSpeech(c, emitted, a.turn, me, fits));
        case TranscriptEnd => FinalizeSpeechOk(c, r, a.turn, me, fits);
        case ProviderFailed(code) => FailTurnKeeps(r, a.turn, code);
        case _ =>
      }
    }
  }

  // ---- Inputs ----

  ghost predicate HandledOk(r: Runtime, h: Handled) {
    && OutcomeOk(r, h.outcome)
    && (h.spawned.Some? ==> ActivityOk(h.outcome.runtime, h.spawned.value))
  }

  lemma StaysPut(r: Runtime)
    requires Inv(r)
    ensures OutcomeOk(r, Finished(r))
  {
    LeadsReflexive(r);
  }

  lemma HandleTextOk(c: Config, r: Runtime, text: string, newTurn: TurnId, fits: bool)
    requires Inv(r) && newTurn !in r.turns && r.running && !r.context.shutdown
    ensures HandledOk(r, HandleText(c, r, text, newTurn, fits))
  {
    hide Inv, Leads, BeginTurn, RunPipeline, CompleteTurn;
    StaysPut(r);
    BeginTurnKeeps(r, newTurn);
    if Strip(text) != "" && BeginTurn(r, newTurn).Ok? {
      var begun := BeginTurn(r, newTurn).value;
      if c.hasLlm {
        RunPipelineOk(c, begun, newTurn, Strip(text), false, fits);
        OutcomeAfter(r, begun, RunPipeline(c, begun, newTurn, Strip(text), false, fits));
      } else {
        CompleteTurnKeeps(begun, newTurn);
        LeadsTransitive(r, begun, CompleteTurn(begun, newTurn).value);
      }
    }
  }

  lemma HandleSpeechStartedOk(c: Config, r: Runtime, newTurn: TurnId, sttTask: TaskId)
    requires Inv(r) && newTurn !in r.turns && r.running && !r.context.shutdown
    ensures HandledOk(r, HandleSpeechStarted(c, r, newTurn, sttTask))
  {
    hide Inv, Leads, BeginTurn, Emit;
    StaysPut(r);
    BeginTurnKeeps(r, newTurn);
    if BeginTurn(r, newTurn).Ok? {
      var begun := BeginTurn(r, newTurn).value;
      var announced := Emit(begun, Some(newTurn), UserSpeechStarted);
      EmitKeeps(begun, Some(newTurn), UserSpeechStarted);
      LeadsTransitive(r, begun, announced);
      if c.hasStt {
        var (listening, token) := OpenSpeech(announced, newTurn, sttTask);
        PlumbingKeeps(announced, listening);
        LeadsTransitive(r, announced, listening);
      }
    }
  }

  lemma HandleCancelOk(r: Runtime, target: Option<TurnId>)
    requires Inv(r)
    ensures HandledOk(r, HandleCancel(r, target))
  {
    hide Core, Leads, CancelTurn;
    StaysPut(r);
    var chosen := if target.Some? then target else r.current;
    if chosen.Some? {
      if chosen.value in r.turns {
        CancelTurnKeeps(r, chosen.value);
      } else {
        UnknownTurnIsRejected(r, chosen.value);
      }
    }
  }

  lemma UnknownTurnIsRejected(r: Runtime, t: TurnId)
    requires t !in r.turns
    ensures CancelTurn(r, t) == Err(InvalidRuntimeInput)
  {
  }

  lemma StopOk(s: System, reason: string)
    requires SystemInv(s)
    ensures HandledOk(s.runtime, Stop(s, reason))
    ensures var r := Stop(s, reason).outcome.runtime;
      && r.context.shutdown
      && (forall t :: t in r.turns ==> r.turns[t].state.IsTerminal())
  {
    hide Inv, Leads, StopBegin;
    var r := s.runtime;
    StopBeginKeeps(r);
    var closing := StopBegin(r).value;
    StopFinishKeeps(closing, reason);
    LeadsTransitive(r, closing, StopFinish(closing, reason));
  }

  lemma HandleInputOk(c: Config, s: System, input: Input, newTurn: TurnId, fits: bool)
    requires SystemInv(s) && newTurn !in s.runtime.turns
    ensures HandledOk(s.runtime, HandleInput(c, s, input, newTurn, fits))
  {
    hide Inv, Leads, HandleText, HandleSpeechStarted, FinalizeSpeech, HandleCancel, Stop, HandleError;
    var r := s.runtime;
    StaysPut(r);
    if r.running && !r.context.shutdown {
      match input {
        case TextInput(text) => HandleTextOk(c, r, text, newTurn, fits);
        case SpeechStarted => HandleSpeechStartedOk(c, r, newTurn, s.nextTask + 1);
        case SpeechEnded =>
          if r.HasActiveTurn() {
            FinalizeSpeechOk(c, r, r.current.value, s.nextTask, fits);
          }
        case AudioIn(data) =>
          if data.Some? && r.current.Some? {
            PlumbingKeeps(r, PutAudio(r, r.current.value, AudioData(data.value)));
          }
        case CancelInput(target) => HandleCancelOk(r, target);
        case Shutdown => StopOk(s, "user_stop");
        case ErrorInput(code) => HandleErrorKeeps(r, code);
      }
    }
  }

  // ---- Steps ----

  lemma ResumeActivityOk(c: Config, s: System, id: TaskId, signal: Signal, fits: bool)
    requires SystemInv(s) && id in s.activities
    ensures OutcomeOk(s.runtime, ResumeActivity(c, s, id, signal, fits))
  {
    hide Inv, Leads, ResumePipeline, ResumeStt, FinishSpeech, StopFinish;
    var r, a := s.runtime, s.activities[id];
    LeadsReflexive(r);
    match a {
      case Pipeline(_, _, _, _, _) => ResumePipelineOk(c, r, a, signal, fits);
      case SttStream(_, _) => ResumeSttOk(c, r, a, id, signal, fits);
      case AwaitingStt(t, _) => FinishSpeechOk(c, r, t, fits);
      case Gathering(reason, _) => StopFinishKeeps(r, reason);
    }
  }

  lemma AbandonOk(r: Runtime, a: Activity)
    requires Inv(r) && ActivityOk(r, a)
    ensures OutcomeOk(r, Finished(AbandonActivity(r, a)))
  {
    hide Inv, Leads;
    LeadsReflexive(r);
    match a {
      case Pipeline(_, _, _, _, _) => EndPipelineOk(r, a);
      case AwaitingStt(t, _) => PlumbingKeeps(r, LeaveFinalizer(r, t));
      case _ =>
    }
  }

  lemma SettleOk(s: System, id: TaskId, o: Outcome)
    requires SystemInv(s) && OutcomeOk(s.runtime, o) && id <= s.nextTask
    ensures var s' := Settle(s, id, o);
      && Inv(s'.runtime) && Leads(s.runtime, s'.runtime) && OnlyFailingRaises(s'.faults)
      && s'.runtime.turns == o.runtime.turns && s'.runtime.context == o.runtime.context
      && s'.nextTask == s.nextTask
      && (forall k :: k in s'.activities ==> ActivityOk(s'.runtime, s'.activities[k]) && (k < s.nextTask || k == id))
  {
    hide Inv, Leads;
    var s' := Settle(s, id, o);
    PlumbingKeeps(o.runtime, s'.runtime);
    LeadsTransitive(s.runtime, o.runtime, s'.runtime);
    forall k | k in s'.activities
      ensures ActivityOk(s'.runtime, s'.activities[k])
    {
      if k == id {
        ActivityStaysOk(o.runtime, s'.runtime, s'.activities[k]);
      } else {
        ActivityStaysOk(s.runtime, s'.runtime, s'.activities[k]);
      }
    }
  }

  lemma EnterOk(s: System, h: Handled)
    requires SystemInv(s) && HandledOk(s.runtime, h)
    ensures SystemInv(Enter(s, h)) && Leads(s.runtime, Enter(s, h).runtime)
  {
    hide Inv, Leads;
    SettleOk(s, s.nextTask, h.outcome);
    var settled := Settle(s, s.nextTask, h.outcome);
    if h.spawned.Some? {
      PlumbingKeeps(h.outcome.runtime, settled.runtime);
      ActivityStaysOk(h.outcome.runtime, settled.runtime, h.spawned.value);
    }
  }

  lemma StepOk(c: Config, s: System, l: Label)
    requires SystemInv(s)
    ensures SystemInv(Apply(c, s, l)) && Leads(s.runtime, Apply(c, s, l).runtime)
  {
    hide Inv, Leads, Stop, HandleInput, Enter, Settle, ResumeActivity, AbandonActivity, Start;
    LeadsReflexive(s.runtime);
    match l {
      case StartRuntime =>
        StartKeeps(s.runtime);
        forall id | id in s.activities
          ensures ActivityOk(Start(s.runtime), s.activities[id])
        {
          ActivityStaysOk(s.runtime, Start(s.runtime), s.activities[id]);
        }
      case StopRuntime(reason) =>
        StopOk(s, reason);
        EnterOk(s, Stop(s, reason));
      case Deliver(input, newTurn, fits) =>
        if newTurn !in s.runtime.turns {
          HandleInputOk(c, s, input, newTurn, fits);
          EnterOk(s, HandleInput(c, s, input, newTurn, fits));
        }
      case Resume(task, signal, fits) =>
        if task in s.activities {
          ResumeActivityOk(c, s, task, signal, fits);
          SettleOk(s, task, ResumeActivity(c, s, task, signal, fits));
        }
      case Abandon(task) =>
        if task in s.activities {
          AbandonOk(s.runtime, s.activities[task]);
          SettleOk(s, task, Finished(AbandonActivity(s.runtime, s.activities[task])));
        }
    }
  }

  // ---- Schedules ----

  /** Every schedule leads to a state in which all the invariants hold. */
  lemma {:induction false} RunIsSafe(c: Config, schedule: seq<Label>)
    ensures SystemInv(Run(c, schedule))
  {
    if schedule != [] {
      var before := schedule[..|schedule| - 1];
      RunIsSafe(c, before);
      StepOk(c, Run(c, before), schedule[|schedule| - 1]);
    }
  }

  /** What was true of the fields after a prefix of the schedule is only ever extended. */
  lemma {:induction false} RunLeads(c: Config, prefix: seq<Label>, schedule: seq<Label>)
    requires prefix <= schedule
    ensures Leads(Run(c, prefix).runtime, Run(c, schedule).runtime)
  {
    hide Leads, SystemInv, Apply;
    if prefix == schedule {
      LeadsReflexive(Run(c, schedule).runtime);
    } else {
      var before := schedule[..|schedule| - 1];
      RunLeads(c, prefix, before);
      RunIsSafe(c, before);
      StepOk(c, Run(c, before), schedule[|schedule| - 1]);
      LeadsTransitive(Run(c, prefix).runtime, Run(c, before).runtime, Run(c, schedule).runtime);
    }
  }
}
