/** Which steps let an exception out of a turn operation: exact conditions for every step of every schedule. */
module FaultTheorems {
  import opened Common
  import opened PyStrings
  import opened Conversation
  import opened TurnLifecycle
  import opened Events
  import opened RuntimeSpec
  import opened RuntimeMachine
  import opened RuntimeInvariants
  import opened ScheduleSafety
  import opened RunTheorems

  // ---- Code that raises nothing ----

  lemma FailingActive(r: Runtime, t: TurnId, code: string)
    requires t in r.turns && r.turns[t].WellFormed() && !r.turns[t].state.Created?
    ensures FailTurn(r, t, code).Ok? <==> !r.turns[t].state.IsTerminal()
    ensures FailTurn(r, t, code).Err? ==> FailTurn(r, t, code).error == InvalidStateTransition
  {
    hide Emit, ClearCurrent;
  }

  lemma NoneIsCreated(r: Runtime, t: TurnId)
    requires Core(r) && t in r.turns
    ensures r.turns[t].WellFormed() && !r.turns[t].state.Created?
    ensures !r.turns[t].state.IsTerminal() ==> t !in r.context.cancelled
  {
  }

  /** Failing from a pipeline raises exactly on a terminal turn. */
  lemma FailPipelineRaisesIff(r: Runtime, p: Activity, code: string)
    requires Core(r) && p.Pipeline? && p.turn in r.turns
    ensures FailPipeline(r, p, code).faults
      == if r.turns[p.turn].state.IsTerminal() then [WhileFailing(InvalidStateTransition)] else []
  {
    hide Core, FailTurn, Leave;
    NoneIsCreated(r, p.turn);
    FailingActive(r, p.turn, code);
  }

  /** The iteration begins with the budget used up, or the assembler refuses. */
  predicate IterationFails(c: Config, i: nat, fits: bool) {
    i >= c.maxToolIterations || !fits
  }

  lemma IterateRaisesIff(c: Config, r: Runtime, p: Activity, i: nat, fits: bool)
    requires Core(r) && p.Pipeline? && p.turn in r.turns && !r.Gone(p.turn, p.token)
    ensures Iterate(c, r, p, i, fits).faults
      == if IterationFails(c, i, fits) && r.turns[p.turn].state.IsTerminal()
         then [WhileFailing(InvalidStateTransition)] else []
  {
    hide Core, FailPipeline;
    FailPipelineRaisesIff(r, p, "tool_loop_limit_exceeded");
    FailPipelineRaisesIff(r, p, "context_budget_exceeded");
  }

  lemma FreshTokenIsNotGone(r: Runtime, t: TurnId)
    requires Core(r) && t !in r.context.cancelled
    ensures !EnterPipeline(r, t).0.Gone(t, EnterPipeline(r, t).1)
  {
  }

  lemma EnteringKeeps(r: Runtime, t: TurnId)
    requires Inv(r) && t in r.turns
    ensures Inv(EnterPipeline(r, t).0) && EnterPipeline(r, t).0.turns == r.turns
  {
    hide Inv, Leads;
    PlumbingKeeps(r, EnterPipeline(r, t).0);
  }

  lemma RunPipelineRaisesNothing(c: Config, r: Runtime, t: TurnId, userText: string, nested: bool, fits: bool)
    requires Inv(r) && t in r.turns && !r.turns[t].state.IsTerminal()
    ensures RunPipeline(c, r, t, userText, nested, fits).faults == []
  {
    hide Core, Iterate, EnterPipeline;
    NoneIsCreated(r, t);
    EnteringKeeps(r, t);
    FreshTokenIsNotGone(r, t);
    var (entered, token) := EnterPipeline(r, t);
    IterateRaisesIff(c, entered, Pipeline(t, userText, token, nested, Summarizing), 0, fits);
  }

  lemma CompleteAfterSpeechRaisesNothing(r: Runtime, t: TurnId)
    requires Inv(r) && t in r.turns && !r.turns[t].state.IsTerminal()
    ensures CompleteAfterSpeech(r, t).faults == []
  {
    hide Inv, CompleteTurn, Leads;
    CompleteTurnKeeps(r, t);
  }

  lemma FinishSpeechRaisesNothing(c: Config, r: Runtime, t: TurnId, fits: bool)
    requires Inv(r) && t in r.turns
    ensures FinishSpeech(c, r, t, fits).faults == []
  {
    hide Inv, Leads, RunPipeline, CompleteAfterSpeech, FinalTranscript, Strip;
    var cleaned := CleanupSpeech(r, t);
    PlumbingKeeps(r, cleaned);
    if !r.turns[t].state.IsTerminal() {
      var transcript := FinalTranscript(cleaned.admitted, t);
      CompleteAfterSpeechRaisesNothing(cleaned, t);
      if transcript.Some? {
        RunPipelineRaisesNothing(c, cleaned, t, Strip(transcript.value), true, fits);
      }
    }
  }

  lemma FinalizeSpeechRaisesNothing(c: Config, r: Runtime, t: TurnId, me: TaskId, fits: bool)
    requires Inv(r) && t in r.turns
    ensures FinalizeSpeech(c, r, t, me, fits).faults == []
  {
    hide Inv, Leads, FinishSpeech, CompleteAfterSpeech, AnnounceSpeechEnd;
    if !r.turns[t].state.IsTerminal() && t !in r.finalizing {
      var announced := AnnounceSpeechEnd(r, t);
      AnnounceKeeps(r, t);
      CompleteAfterSpeechRaisesNothing(announced, t);
      var queued := PutAudio(announced, t, EndOfAudio);
      PlumbingKeeps(announced, queued);
      FinishSpeechRaisesNothing(c, queued, t, fits);
    }
  }

  lemma CommitRaisesNothing(c: Config, r: Runtime, p: Activity, reply: string)
    requires Inv(r) && p.Pipeline? && ActivityOk(r, p) && WasSpoken(r.admitted, p.turn, [TextPart(Some(reply))])
    ensures Commit(c, r, p, reply).faults == []
  {
    hide Inv, Leads, CommitExchange, WasSpoken, IsStripped;
    if !r.turns[p.turn].state.IsTerminal() {
      CommitKeeps(c, r, p.turn, p.userText, reply);
    }
  }

  /** Handling an input raises nothing from a turn operation before it first suspends. */
  lemma HandlingRaisesNothing(c: Config, s: System, input: Input, newTurn: TurnId, fits: bool)
    requires SystemInv(s) && newTurn !in s.runtime.turns
    ensures HandleInput(c, s, input, newTurn, fits).outcome.faults == []
  {
    hide Core, RunPipeline, FinalizeSpeech, CancelTurn, HandleError, CompleteTurn, Strip, Leads;
    var r := s.runtime;
    if r.running && !r.context.shutdown {
      match input {
        case TextInput(text) =>
          BeginTurnKeeps(r, newTurn);
          if r.current.None? {
            var begun := BeginTurn(r, newTurn).value;
            CompleteTurnKeeps(begun, newTurn);
            RunPipelineRaisesNothing(c, begun, newTurn, Strip(text), false, fits);
          }
        case SpeechStarted =>
        case SpeechEnded =>
          if r.HasActiveTurn() {
            FinalizeSpeechRaisesNothing(c, r, r.current.value, s.nextTask, fits);
          }
        case AudioIn(_) =>
        case CancelInput(target) =>
          var chosen := if target.Some? then target else r.current;
          if chosen.Some? && chosen.value in r.turns {
            CancelTurnKeeps(r, chosen.value);
          }
        case Shutdown => StopBeginKeeps(r);
        case ErrorInput(code) => HandleErrorKeeps(r, code);
      }
    }
  }

  /** The exceptions `handle_input` raises before it first suspends, in terms of what a caller can look up: text and
      speech are refused while a turn is current, an end of speech without one, an unknown or missing turn to cancel,
      and incomplete input; reporting an error and shutting down are never refused. Besides these refusals that first
      part raises nothing. */
  lemma InputIsRefusedIff(c: Config, schedule: seq<Label>, input: Input, newTurn: TurnId, fits: bool)
    requires newTurn !in Run(c, schedule).runtime.turns
    ensures var s := Run(c, schedule);
      var r := s.runtime;
      HandleInput(c, s, input, newTurn, fits).error
        == if !r.running then Some(RuntimeNotRunning)
           else if r.context.shutdown then None
           else if (match input
                    case TextInput(text) => Strip(text) == "" || r.current.Some?
                    case SpeechStarted => r.current.Some?
                    case SpeechEnded => r.current.None?
                    case AudioIn(data) => data.None?
                    case CancelInput(target) =>
                      if target.Some? then target.value !in r.turns else r.current.None?
                    case Shutdown => false
                    case ErrorInput(_) => false)
           then Some(InvalidRuntimeInput) else None
    ensures HandleInput(c, Run(c, schedule), input, newTurn, fits).outcome.faults == []
  {
    hide Run, Core, RunPipeline, FinalizeSpeech, CancelTurn, HandleError, CompleteTurn, Strip;
    RunIsSafe(c, schedule);
    var s := Run(c, schedule);
    var r := s.runtime;
    ActiveMeansCurrent(r);
    HandlingRaisesNothing(c, s, input, newTurn, fits);
    if r.running && !r.context.shutdown {
      match input {
        case TextInput(text) =>
          BeginTurnKeeps(r, newTurn);
          if r.current.None? {
            CompleteTurnKeeps(BeginTurn(r, newTurn).value, newTurn);
          }
        case SpeechStarted => BeginTurnKeeps(r, newTurn);
        case CancelInput(target) =>
          var chosen := if target.Some? then target else r.current;
          if chosen.Some? && chosen.value in r.turns {
            CancelTurnKeeps(r, chosen.value);
          } else if chosen.Some? {
            UnknownTurnIsRejected(r, chosen.value);
          }
        case Shutdown => StopBeginKeeps(r);
        case ErrorInput(code) => HandleErrorKeeps(r, code);
        case _ =>
      }
    }
  }

  lemma ActiveMeansCurrent(r: Runtime)
    requires Core(r)
    ensures r.HasActiveTurn() <==> r.current.Some?
    ensures r.current.Some? ==> r.current.value in r.turns
  {
  }

  // ---- The exact condition ----

  /** The tool-loop iteration that a waiting pipeline comes to when it is resumed, if it comes to one. */
  function NextIteration(c: Config, stage: Stage): Option<nat> {
    match stage
    case Summarizing => if c.hasRetriever || c.hasMemory then None else Some(0)
    case Retrieving => if c.hasMemory then None else Some(0)
    case Recalling => Some(0)
    case Executing(i, remaining) => if remaining > 1 then None else Some(i + 1)
    case _ => None
  }

  /** The activity, resumed like this, calls `turn.fail`, unless it finds its turn cancelled first: a provider failed
      it, the tool loop has used its iterations up, or the context budget is exceeded. */
  predicate ComesToFail(c: Config, a: Activity, signal: Signal, fits: bool) {
    match a
    case Pipeline(_, _, _, _, stage) =>
      if stage.Streaming? || stage.Speaking? then signal.ProviderFailed?
      else signal.Ready? && NextIteration(c, stage).Some? && IterationFails(c, NextIteration(c, stage).value, fits)
    case SttStream(_, _) => signal.ProviderFailed?
    case _ => false
  }

  /** Some other activity has ended the turn without cancelling it. */
  predicate EndedUncancelled(r: Runtime, t: TurnId) {
    t in r.turns && r.turns[t].state.IsTerminal() && t !in r.context.cancelled
  }

  function Fault(raises: bool): seq<RuntimeMachine.Fault> {
    if raises then [WhileFailing(InvalidStateTransition)] else []
  }

  lemma WaitingRaisesIff(c: Config, r: Runtime, p: Activity, signal: Signal, fits: bool)
    requires Inv(r) && p.Pipeline? && ActivityOk(r, p) && !p.stage.Streaming? && !p.stage.Speaking?
    ensures ResumePipeline(c, r, p, signal, fits).faults
      == Fault(ComesToFail(c, p, signal, fits) && EndedUncancelled(r, p.turn))
  {
    hide Core, Iterate, Leave, IsStripped, WasHeard;
    GoneMeansCancelled(r, p);
    if !r.Gone(p.turn, p.token) && NextIteration(c, p.stage).Some? {
      IterateRaisesIff(c, r, p, NextIteration(c, p.stage).value, fits);
    }
  }

  lemma StreamingRaisesIff(c: Config, r: Runtime, p: Activity, signal: Signal, fits: bool)
    requires Inv(r) && p.Pipeline? && ActivityOk(r, p) && p.stage.Streaming?
    ensures ResumePipeline(c, r, p, signal, fits).faults
      == Fault(ComesToFail(c, p, signal, fits) && EndedUncancelled(r, p.turn))
  {
    hide Core, Commit, Leave, Emit, FailPipeline, IsStripped, WasHeard, WasSpoken;
    GoneMeansCancelled(r, p);
    if !r.Gone(p.turn, p.token) {
      match signal {
        case ProviderFailed(code) => FailPipelineRaisesIff(r, p, code);
        case StreamEnd(_) =>
          var emitted := Emit(r, Some(p.turn), LlmResponse(p.stage.text));
          EmitKeeps(r, Some(p.turn), LlmResponse(p.stage.text));
          RespondingIsSpoken(r, p.turn, p.stage.text);
          ActivityStaysOk(r, emitted, p);
          CommitRaisesNothing(c, emitted, p, p.stage.text);
        case _ =>
      }
    }
  }

  lemma SpeakingRaisesIff(c: Config, r: Runtime, p: Activity, signal: Signal, fits: bool)
    requires Inv(r) && p.Pipeline? && ActivityOk(r, p) && p.stage.Speaking?
    ensures ResumePipeline(c, r, p, signal, fits).faults
      == Fault(ComesToFail(c, p, signal, fits) && EndedUncancelled(r, p.turn))
  {
    hide Core, Commit, Leave, Emit, FailTurn, IsStripped, WasHeard, WasSpoken;
    GoneMeansCancelled(r, p);
    CommitRaisesNothing(c, r, p, p.stage.reply);
    if signal.ProviderFailed? {
      FailTurnKeeps(r, p.turn, signal.code);
      NoneIsCreated(r, p.turn);
      FailingActive(r, p.turn, signal.code);
      if FailTurn(r, p.turn, signal.code).Ok? {
        var failed := FailTurn(r, p.turn, signal.code).value;
        ActivityStaysOk(r, failed, p);
        CommitRaisesNothing(c, failed, p, p.stage.reply);
      }
    }
  }

  lemma SttRaisesIff(c: Config, r: Runtime, a: Activity, me: TaskId, signal: Signal, fits: bool)
    requires Inv(r) && a.SttStream? && ActivityOk(r, a)
    ensures ResumeStt(c, r, a, me, signal, fits).faults
      == Fault(ComesToFail(c, a, signal, fits) && EndedUncancelled(r, a.turn))
  {
    hide Core, FinalizeSpeech, Emit, FailTurn, Leads;
    SttGoneMeansCancelled(r, a);
    if !r.Gone(a.turn, a.token) {
      match signal {
        case Transcript(text, isFinal) =>
          EmitKeeps(r, Some(a.turn), TranscriptFrame(text, isFinal));
          EmitAdmits(r, Some(a.turn), TranscriptFrame(text, isFinal));
          FinalizeSpeechRaisesNothing(c, Emit(r, Some(a.turn), TranscriptFrame(text, isFinal)), a.turn, me, fits);
        case TranscriptEnd => FinalizeSpeechRaisesNothing(c, r, a.turn, me, fits);
        case ProviderFailed(code) =>
          NoneIsCreated(r, a.turn);
          FailingActive(r, a.turn, code);
        case _ =>
      }
    }
  }

  lemma SttGoneMeansCancelled(r: Runtime, a: Activity)
    requires Core(r) && a.SttStream? && a.token.turn == a.turn
    ensures r.Gone(a.turn, a.token) <==> a.turn in r.context.cancelled
  {
  }

  predicate Raises(c: Config, s: System, l: Label) {
    && l.Resume? && l.task in s.activities
    && ComesToFail(c, s.activities[l.task], l.signal, l.fits)
    && EndedUncancelled(s.runtime, s.activities[l.task].turn)
  }

  lemma ResumingRaisesIff(c: Config, s: System, id: TaskId, signal: Signal, fits: bool)
    requires SystemInv(s) && id in s.activities
    ensures ResumeActivity(c, s, id, signal, fits).faults == Fault(Raises(c, s, Resume(id, signal, fits)))
  {
    hide Inv, ResumePipeline, ResumeStt, FinishSpeech, ComesToFail, EndedUncancelled, IsStripped, WasHeard, WasSpoken;
    var a := s.activities[id];
    match a {
      case Pipeline(_, _, _, _, stage) =>
        if stage.Streaming? {
          StreamingRaisesIff(c, s.runtime, a, signal, fits);
        } else if stage.Speaking? {
          SpeakingRaisesIff(c, s.runtime, a, signal, fits);
        } else {
          WaitingRaisesIff(c, s.runtime, a, signal, fits);
        }
      case SttStream(_, _) => SttRaisesIff(c, s.runtime, a, id, signal, fits);
      case AwaitingStt(t, _) =>
        FinishSpeechRaisesNothing(c, s.runtime, t, fits);
        OthersNeverFail(c, a, signal, fits);
      case Gathering(_, _) => OthersNeverFail(c, a, signal, fits);
    }
  }

  lemma OthersNeverFail(c: Config, a: Activity, signal: Signal, fits: bool)
    requires a.AwaitingStt? || a.Gathering?
    ensures !ComesToFail(c, a, signal, fits)
  {
  }

  /** Every step of every schedule: it lets an exception out of a turn operation exactly when it resumes an activity
      that comes to fail its turn after some other activity has ended that turn without cancelling it; then it is the
      transition error. */
  lemma StepRaisesIff(c: Config, schedule: seq<Label>, l: Label)
    ensures var s := Run(c, schedule);
      Run(c, schedule + [l]).faults == s.faults + Fault(Raises(c, s, l))
  {
    hide Run, Inv, HandleInput, ResumeActivity, AbandonActivity, Stop, ComesToFail, EndedUncancelled;
    var s := Run(c, schedule);
    RunIsSafe(c, schedule);
    OneMore(c, schedule, l);
    assert s.faults + [] == s.faults;
    match l {
      case StartRuntime =>
      case StopRuntime(reason) => StoppingRaisesNothing(s, reason);
      case Deliver(input, newTurn, fits) =>
        if newTurn !in s.runtime.turns {
          HandlingRaisesNothing(c, s, input, newTurn, fits);
        }
      case Resume(id, signal, fits) =>
        if id in s.activities {
          ActivityHasTurn(s, id);
          ResumingRaisesIff(c, s, id, signal, fits);
        }
      case Abandon(_) =>
    }
  }

  lemma StoppingRaisesNothing(s: System, reason: string)
    requires SystemInv(s)
    ensures Stop(s, reason).outcome.faults == []
  {
    hide Core, StopBegin, StopFinish;
    StopBeginKeeps(s.runtime);
  }

  /** Two end-of-speech reports, a reply, and a late provider failure: the failure raises. */
  lemma AFailureDoesRaise()
    ensures Run(SpeechConfig, Listening
      + [Resume(1, Transcript("hi", true), true), Deliver(SpeechEnded, 8, true)]
      + [Resume(1, StreamEnd(0), true)] + [Resume(2, ProviderFailed("provider"), true)]).faults != []
  {
    hide SystemInv, Apply;
    ListeningState();
    var c, s := SpeechConfig, Run(SpeechConfig, Listening);
    RunIsSafe(c, Listening);
    assert Strip("hi") == "hi";
    var first, second := Resume(1, Transcript("hi", true), true), Deliver(SpeechEnded, 8, true);
    FirstOfTwo(c, s, 1, "hi");
    OneMore(c, Listening, first);
    var s1 := Run(c, Listening + [first]);
    SecondOfTwo(c, s1, 7, "hi", 8);
    OneMore(c, Listening + [first], second);
    var both := Listening + [first, second];
    assert Listening + [first] + [second] == both;
    RunIsSafe(c, both);
    ReplyCompletes(c, Run(c, both), 1, 2);
    OneMore(c, both, Resume(1, StreamEnd(0), true));
    StepRaisesIff(c, both + [Resume(1, StreamEnd(0), true)], Resume(2, ProviderFailed("provider"), true));
  }
}
