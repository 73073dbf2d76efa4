/** The finalize guards are never leaked: one is held exactly while a call waits for the turn's speech task. */
module GuardTheorems {
  import opened Common
  import opened PyStrings
  import opened TurnLifecycle
  import opened Events
  import opened RuntimeSpec
  import opened RuntimeMachine
  import opened RuntimeInvariants
  import opened ScheduleSafety
  import opened RunTheorems
  import opened StopTheorems
  import opened TurnTheorems
  import opened InputTheorems

  /** Some call waits for the speech task of the turn. */
  ghost predicate IsAwaited(s: System, t: TurnId) {
    exists id :: id in s.activities && s.activities[id].AwaitingStt? && s.activities[id].turn == t
  }

  ghost predicate GuardsAreHeld(s: System) {
    && (forall t :: t in s.runtime.finalizing ==> IsAwaited(s, t))
    && (forall t :: t in s.runtime.speechEnded ==> t in s.runtime.turns)
  }

  /** No guard is taken. */
  predicate TakesNoGuard(r: Runtime, r': Runtime) {
    r'.finalizing <= r.finalizing && r'.speechEnded <= r.speechEnded
  }

  /** A guard is taken for this turn only, and only by an activity that goes on to wait for its task. */
  predicate MayGuard(r: Runtime, o: Outcome, t: TurnId) {
    && o.runtime.speechEnded <= r.speechEnded + {t}
    && (o.runtime.finalizing <= r.finalizing
        || (o.runtime.finalizing <= r.finalizing + {t} && o.next.Some? && o.next.value.AwaitingStt?
            && o.next.value.turn == t))
  }

  lemma FailingTakesNoGuard(r: Runtime, t: TurnId, code: string)
    requires t in r.turns && FailTurn(r, t, code).Ok?
    ensures TakesNoGuard(r, FailTurn(r, t, code).value)
  {
    hide Emit;
    EmittingTakesNoGuard(r.(turns := r.turns[t := r.turns[t].Fail(code).value]), Some(t), ErrorRaised(code));
  }

  lemma LeavingTakesNoGuard(r: Runtime, p: Activity)
    requires p.Pipeline?
    ensures TakesNoGuard(r, Leave(r, p))
  {
  }

  lemma EmittingTakesNoGuard(r: Runtime, turn: Option<TurnId>, payload: Payload)
    ensures TakesNoGuard(r, Emit(r, turn, payload)) && TakesNoGuard(Emit(r, turn, payload), r)
  {
  }

  lemma FailPipelineTakesNoGuard(r: Runtime, p: Activity, code: string)
    requires p.Pipeline? && p.turn in r.turns
    ensures TakesNoGuard(r, FailPipeline(r, p, code).runtime)
  {
    hide FailTurn, Leave;
    LeavingTakesNoGuard(r, p);
    if FailTurn(r, p.turn, code).Ok? {
      FailingTakesNoGuard(r, p.turn, code);
      LeavingTakesNoGuard(FailTurn(r, p.turn, code).value, p);
    }
  }

  lemma IterateTakesNoGuard(c: Config, r: Runtime, p: Activity, i: nat, fits: bool)
    requires p.Pipeline? && p.turn in r.turns
    ensures TakesNoGuard(r, Iterate(c, r, p, i, fits).runtime)
    ensures TakesNoGuard(r, AfterRetrieval(c, r, p, fits).runtime)
    ensures TakesNoGuard(r, AfterSummary(c, r, p, fits).runtime)
  {
    hide FailPipeline, Leave;
    LeavingTakesNoGuard(r, p);
    FailPipelineTakesNoGuard(r, p, "tool_loop_limit_exceeded");
    FailPipelineTakesNoGuard(r, p, "context_budget_exceeded");
    if i != 0 {
      FirstIterationTakesNoGuard(c, r, p, fits);
    }
  }

  lemma FirstIterationTakesNoGuard(c: Config, r: Runtime, p: Activity, fits: bool)
    requires p.Pipeline? && p.turn in r.turns
    ensures TakesNoGuard(r, Iterate(c, r, p, 0, fits).runtime)
  {
    hide FailPipeline, Leave;
    LeavingTakesNoGuard(r, p);
    FailPipelineTakesNoGuard(r, p, "tool_loop_limit_exceeded");
    FailPipelineTakesNoGuard(r, p, "context_budget_exceeded");
  }

  lemma RunPipelineTakesNoGuard(c: Config, r: Runtime, t: TurnId, userText: string, nested: bool, fits: bool)
    requires t in r.turns
    ensures TakesNoGuard(r, RunPipeline(c, r, t, userText, nested, fits).runtime)
  {
    hide AfterSummary;
    var (entered, token) := EnterPipeline(r, t);
    IterateTakesNoGuard(c, entered, Pipeline(t, userText, token, nested, Summarizing), 0, fits);
  }

  lemma CompletingTakesNoGuard(r: Runtime, t: TurnId)
    requires t in r.turns && CompleteTurn(r, t).Ok?
    ensures TakesNoGuard(r, CompleteTurn(r, t).value)
  {
  }

  lemma CommitTakesNoGuard(c: Config, r: Runtime, p: Activity, reply: string)
    requires p.Pipeline? && p.turn in r.turns
    ensures TakesNoGuard(r, Commit(c, r, p, reply).runtime)
  {
    hide CompleteTurn, Leave;
    LeavingTakesNoGuard(r, p);
    var persisted := PersistExchange(c, r, p.turn, p.userText, reply);
    LeavingTakesNoGuard(persisted, p);
    if CompleteTurn(persisted, p.turn).Ok? {
      CompletingTakesNoGuard(persisted, p.turn);
      LeavingTakesNoGuard(CompleteTurn(persisted, p.turn).value, p);
    }
  }

  lemma PipelineTakesNoGuard(c: Config, r: Runtime, p: Activity, signal: Signal, fits: bool)
    requires p.Pipeline? && p.turn in r.turns
    ensures TakesNoGuard(r, ResumePipeline(c, r, p, signal, fits).runtime)
  {
    hide Iterate, AfterRetrieval, AfterSummary, Commit, FailPipeline, FailTurn, Leave, Emit;
    LeavingTakesNoGuard(r, p);
    IterateTakesNoGuard(c, r, p, if p.stage.Executing? then p.stage.iteration + 1 else 0, fits);
    if signal.ProviderFailed? {
      FailPipelineTakesNoGuard(r, p, signal.code);
    }
    match p.stage {
      case Streaming(_, text) =>
        var emitted := Emit(r, Some(p.turn), LlmResponse(text));
        EmittingTakesNoGuard(r, Some(p.turn), LlmResponse(text));
        EmitKeepsTurns(r, Some(p.turn), LlmResponse(text));
        LeavingTakesNoGuard(emitted, p);
        CommitTakesNoGuard(c, emitted, p, text);
        if signal.Delta? {
          EmittingTakesNoGuard(r, Some(p.turn), LlmToken(signal.delta));
        }
      case Speaking(reply) =>
        CommitTakesNoGuard(c, r, p, reply);
        if signal.Speech? {
          EmittingTakesNoGuard(r, Some(p.turn), TtsChunk(signal.audioRef));
        }
        if signal.ProviderFailed? && FailTurn(r, p.turn, signal.code).Ok? {
          FailingTakesNoGuard(r, p.turn, signal.code);
          FailingKeepsTurn(r, p.turn, signal.code);
          CommitTakesNoGuard(c, FailTurn(r, p.turn, signal.code).value, p, reply);
        }
      case _ =>
    }
  }

  lemma CleaningReleases(r: Runtime, t: TurnId)
    ensures var cleaned := CleanupSpeech(r, t);
      TakesNoGuard(r, cleaned) && t !in cleaned.finalizing && cleaned.turns == r.turns
  {
  }

  lemma CompleteAfterSpeechReleases(r: Runtime, t: TurnId)
    requires t in r.turns
    ensures var r' := CompleteAfterSpeech(r, t).runtime;
      r'.finalizing <= r.finalizing - {t} && r'.speechEnded <= r.speechEnded
  {
    hide CompleteTurn;
    if CompleteTurn(r, t).Ok? {
      CompletingTakesNoGuard(r, t);
    }
  }

  lemma FinishSpeechReleases(c: Config, r: Runtime, t: TurnId, fits: bool)
    requires t in r.turns
    ensures var r' := FinishSpeech(c, r, t, fits).runtime;
      TakesNoGuard(r, r') && t !in r'.finalizing
  {
    hide RunPipeline, CompleteAfterSpeech, FinalTranscript, Strip, CleanupSpeech;
    CleaningReleases(r, t);
    var cleaned := CleanupSpeech(r, t);
    CompleteAfterSpeechReleases(cleaned, t);
    var transcript := FinalTranscript(cleaned.admitted, t);
    if transcript.Some? {
      RunPipelineTakesNoGuard(c, cleaned, t, Strip(transcript.value), true, fits);
    }
  }

  lemma AnnouncingGuards(r: Runtime, t: TurnId)
    ensures var announced := AnnounceSpeechEnd(r, t);
      && announced.finalizing == r.finalizing + {t} && announced.speechEnded <= r.speechEnded + {t}
      && announced.turns == r.turns
  {
    hide Emit;
    var guarded := r.(finalizing := r.finalizing + {t}, speechEnded := r.speechEnded + {t});
    EmittingTakesNoGuard(guarded, Some(t), UserSpeechEnded);
    EmitKeepsTurns(guarded, Some(t), UserSpeechEnded);
  }

  lemma FinalizeSpeechMayGuard(c: Config, r: Runtime, t: TurnId, me: TaskId, fits: bool)
    requires t in r.turns
    ensures MayGuard(r, FinalizeSpeech(c, r, t, me, fits), t)
  {
    hide FinishSpeech, CompleteAfterSpeech, AnnounceSpeechEnd;
    AnnouncingGuards(r, t);
    var announced := AnnounceSpeechEnd(r, t);
    CompleteAfterSpeechReleases(announced, t);
    FinishSpeechReleases(c, PutAudio(announced, t, EndOfAudio), t, fits);
  }

  lemma SttMayGuard(c: Config, r: Runtime, a: Activity, me: TaskId, signal: Signal, fits: bool)
    requires a.SttStream? && a.turn in r.turns
    ensures MayGuard(r, ResumeStt(c, r, a, me, signal, fits), a.turn)
  {
    hide FinalizeSpeech, FailTurn, Emit;
    FinalizeSpeechMayGuard(c, r, a.turn, me, fits);
    if signal.Transcript? {
      var payload := TranscriptFrame(signal.text, signal.isFinal);
      EmittingTakesNoGuard(r, Some(a.turn), payload);
      EmitKeepsTurns(r, Some(a.turn), payload);
      FinalizeSpeechMayGuard(c, Emit(r, Some(a.turn), payload), a.turn, me, fits);
    }
    if signal.ProviderFailed? && FailTurn(r, a.turn, signal.code).Ok? {
      FailingTakesNoGuard(r, a.turn, signal.code);
    }
  }

  // ---- Steps ----

  /** What a resumed activity does to the guards: it takes one only to wait, and gives up the one it waited under. */
  lemma ResumingGuards(c: Config, s: System, id: TaskId, signal: Signal, fits: bool)
    requires id in s.activities && (s.activities[id].Gathering? || s.activities[id].turn in s.runtime.turns)
    ensures var a, o := s.activities[id], ResumeActivity(c, s, id, signal, fits);
      && (a.Gathering? ==> TakesNoGuard(s.runtime, o.runtime))
      && (!a.Gathering? ==> MayGuard(s.runtime, o, a.turn))
      && (a.AwaitingStt? ==> a.turn !in o.runtime.finalizing || o.next == Some(a))
  {
    hide ResumePipeline, ResumeStt, FinishSpeech, StopFinish;
    var a := s.activities[id];
    match a {
      case Pipeline(_, _, _, _, _) => PipelineTakesNoGuard(c, s.runtime, a, signal, fits);
      case SttStream(_, _) => SttMayGuard(c, s.runtime, a, id, signal, fits);
      case AwaitingStt(t, _) => FinishSpeechReleases(c, s.runtime, t, fits);
      case Gathering(reason, _) => StoppingTakesNoGuard(s.runtime, reason);
    }
  }

  lemma StoppingTakesNoGuard(r: Runtime, reason: string)
    ensures TakesNoGuard(r, StopFinish(r, reason))
  {
  }

  lemma CancellingTakesNoGuard(r: Runtime, t: TurnId)
    requires CancelTurn(r, t).Ok?
    ensures TakesNoGuard(r, CancelTurn(r, t).value)
  {
    hide Emit;
    if !r.turns[t].state.IsTerminal() {
      EmittingTakesNoGuard(MarkCancelled(r, t).(turns := r.turns[t := r.turns[t].Cancel().value]),
                           Some(t), AgentInterrupted);
    }
  }

  lemma StopTakesNoGuard(s: System, reason: string)
    ensures TakesNoGuard(s.runtime, Stop(s, reason).outcome.runtime)
  {
    hide CancelTurn, StopFinish;
    var closing := s.runtime.(context := s.runtime.context.(shutdown := true));
    if StopBegin(s.runtime).Ok? {
      if closing.HasActiveTurn() {
        CancellingTakesNoGuard(closing, closing.current.value);
      }
      StoppingTakesNoGuard(StopBegin(s.runtime).value, reason);
    }
  }

  lemma ErrorTakesNoGuard(r: Runtime, code: string)
    requires HandleError(r, code).Ok?
    ensures TakesNoGuard(r, HandleError(r, code).value)
  {
    hide Emit;
    if r.HasActiveTurn() {
      var t := r.current.value;
      EmittingTakesNoGuard(r.(turns := r.turns[t := r.turns[t].Fail(code).value],
                              context := r.context.(cancelled := r.context.cancelled + {t})),
                           Some(t), ErrorRaised(code));
    } else {
      EmittingTakesNoGuard(r, None, ErrorRaised(code));
    }
  }

  lemma TextTakesNoGuard(c: Config, r: Runtime, text: string, newTurn: TurnId, fits: bool)
    ensures TakesNoGuard(r, HandleText(c, r, text, newTurn, fits).outcome.runtime)
  {
    hide RunPipeline, CompleteTurn, Strip;
    if BeginTurn(r, newTurn).Ok? {
      var begun := BeginTurn(r, newTurn).value;
      RunPipelineTakesNoGuard(c, begun, newTurn, Strip(text), false, fits);
      if CompleteTurn(begun, newTurn).Ok? {
        CompletingTakesNoGuard(begun, newTurn);
      }
    }
  }

  lemma SpeechStartTakesNoGuard(c: Config, r: Runtime, newTurn: TurnId, sttTask: TaskId)
    ensures TakesNoGuard(r, HandleSpeechStarted(c, r, newTurn, sttTask).outcome.runtime)
  {
    hide Emit;
    if BeginTurn(r, newTurn).Ok? {
      EmittingTakesNoGuard(BeginTurn(r, newTurn).value, Some(newTurn), UserSpeechStarted);
    }
  }

  lemma CancelTakesNoGuard(r: Runtime, target: Option<TurnId>)
    ensures TakesNoGuard(r, HandleCancel(r, target).outcome.runtime)
  {
    hide CancelTurn;
    var chosen := if target.Some? then target else r.current;
    if chosen.Some? && CancelTurn(r, chosen.value).Ok? {
      CancellingTakesNoGuard(r, chosen.value);
    }
  }

  /** An input takes a guard only for the current turn, by the call that goes on to wait. */
  lemma InputMayGuard(c: Config, s: System, input: Input, newTurn: TurnId, fits: bool)
    requires SystemInv(s)
    ensures var o := HandleInput(c, s, input, newTurn, fits).outcome;
      TakesNoGuard(s.runtime, o.runtime)
      || (s.runtime.current.Some? && MayGuard(s.runtime, o, s.runtime.current.value))
  {
    hide SystemInv, Stop, HandleText, HandleSpeechStarted, HandleCancel, FinalizeSpeech, HandleError;
    var r := s.runtime;
    CurrentIsKnown(s);
    match input {
      case Shutdown => StopTakesNoGuard(s, "user_stop");
      case TextInput(text) => TextTakesNoGuard(c, r, text, newTurn, fits);
      case SpeechStarted => SpeechStartTakesNoGuard(c, r, newTurn, s.nextTask + 1);
      case CancelInput(target) => CancelTakesNoGuard(r, target);
      case SpeechEnded =>
        if r.HasActiveTurn() {
          FinalizeSpeechMayGuard(c, r, r.current.value, s.nextTask, fits);
        }
      case ErrorInput(code) =>
        if HandleError(r, code).Ok? {
          ErrorTakesNoGuard(r, code);
        }
      case AudioIn(_) =>
    }
  }

  lemma AbandoningGuards(r: Runtime, a: Activity)
    ensures TakesNoGuard(r, AbandonActivity(r, a))
    ensures a.AwaitingStt? ==> a.turn !in AbandonActivity(r, a).finalizing
  {
  }

  /** Every other activity stays, and guards whose holder is not the acting one stay held. */
  lemma StillHeld(s: System, s': System, id: TaskId, t: TurnId)
    requires GuardsAreHeld(s) && t in s.runtime.finalizing
    requires forall k :: k in s.activities && k != id ==> k in s'.activities && s'.activities[k] == s.activities[k]
    requires id in s.activities && s.activities[id].AwaitingStt? && s.activities[id].turn == t ==>
      id in s'.activities && s'.activities[id] == s.activities[id]
    ensures IsAwaited(s', t)
  {
    assert IsAwaited(s, t);
    var k :| k in s.activities && s.activities[k].AwaitingStt? && s.activities[k].turn == t;
    assert k in s'.activities && s'.activities[k] == s.activities[k];
  }

  lemma GuardsAfter(s: System, s': System, id: TaskId, o: Outcome, t: TurnId)
    requires GuardsAreHeld(s) && t in s.runtime.turns
    requires s.runtime.turns.Keys <= s'.runtime.turns.Keys
    requires s'.runtime.finalizing == o.runtime.finalizing && s'.runtime.speechEnded == o.runtime.speechEnded
    requires MayGuard(s.runtime, o, t) || TakesNoGuard(s.runtime, o.runtime)
    requires forall k :: k in s.activities && k != id ==> k in s'.activities && s'.activities[k] == s.activities[k]
    requires o.next.Some? ==> id in s'.activities && s'.activities[id] == o.next.value
    requires id in s.activities && s.activities[id].AwaitingStt? ==>
      s.activities[id].turn !in o.runtime.finalizing || o.next == Some(s.activities[id])
    ensures GuardsAreHeld(s')
  {
    forall u | u in s'.runtime.finalizing ensures IsAwaited(s', u) {
      if u in s.runtime.finalizing {
        StillHeld(s, s', id, u);
      } else {
        assert id in s'.activities && s'.activities[id].AwaitingStt? && s'.activities[id].turn == u;
      }
    }
  }

  lemma NoGuardAfter(s: System, s': System, id: TaskId, o: Outcome)
    requires GuardsAreHeld(s) && TakesNoGuard(s.runtime, o.runtime)
    requires s.runtime.turns.Keys <= s'.runtime.turns.Keys
    requires s'.runtime.finalizing == o.runtime.finalizing && s'.runtime.speechEnded == o.runtime.speechEnded
    requires forall k :: k in s.activities && k != id ==> k in s'.activities && s'.activities[k] == s.activities[k]
    requires id in s.activities && s.activities[id].AwaitingStt? ==>
      s.activities[id].turn !in o.runtime.finalizing || o.next == Some(s.activities[id])
    requires o.next.Some? ==> id in s'.activities && s'.activities[id] == o.next.value
    ensures GuardsAreHeld(s')
  {
    forall u | u in s'.runtime.finalizing ensures IsAwaited(s', u) {
      StillHeld(s, s', id, u);
    }
  }

  lemma TurnsStay(r: Runtime, r': Runtime)
    requires Leads(r, r')
    ensures r.turns.Keys <= r'.turns.Keys
  {
    hide WasSpoken;
  }

  lemma StepHoldsGuards(c: Config, s: System, l: Label)
    requires SystemInv(s) && GuardsAreHeld(s)
    ensures GuardsAreHeld(Apply(c, s, l))
  {
    hide SystemInv, GuardsAreHeld, HandleInput, ResumeActivity, AbandonActivity, Stop, Start, Leads, MayGuard,
         TakesNoGuard;
    var s' := Apply(c, s, l);
    StepOk(c, s, l);
    TurnsStay(s.runtime, s'.runtime);
    KnownActivities(s);
    match l {
      case StartRuntime => StartingHoldsGuards(s);
      case StopRuntime(reason) =>
        StopTakesNoGuard(s, reason);
        StopSpawnsNothing(s, reason);
        if s.runtime.running {
          NoGuardAfter(s, s', s.nextTask, Stop(s, reason).outcome);
        }
      case Deliver(input, newTurn, fits) =>
        if newTurn !in s.runtime.turns {
          InputMayGuard(c, s, input, newTurn, fits);
          CurrentIsKnown(s);
          var o := HandleInput(c, s, input, newTurn, fits).outcome;
          if TakesNoGuard(s.runtime, o.runtime) {
            NoGuardAfter(s, s', s.nextTask, o);
          } else {
            GuardsAfter(s, s', s.nextTask, o, s.runtime.current.value);
          }
        }
      case Resume(id, signal, fits) =>
        if id in s.activities {
          ActivityHasTurn(s, id);
          ResumingGuards(c, s, id, signal, fits);
          var o := ResumeActivity(c, s, id, signal, fits);
          if s.activities[id].Gathering? {
            NoGuardAfter(s, s', id, o);
          } else {
            GuardsAfter(s, s', id, o, s.activities[id].turn);
          }
        }
      case Abandon(id) =>
        if id in s.activities {
          AbandoningGuards(s.runtime, s.activities[id]);
          NoGuardAfter(s, s', id, Finished(AbandonActivity(s.runtime, s.activities[id])));
        }
    }
  }

  lemma StartingHoldsGuards(s: System)
    requires GuardsAreHeld(s)
    ensures GuardsAreHeld(s.(runtime := Start(s.runtime)))
  {
    hide Emit;
    EmittingTakesNoGuard(s.runtime.(running := true), None, SessionStarted);
    EmitKeepsTurns(s.runtime.(running := true), None, SessionStarted);
    var s' := s.(runtime := Start(s.runtime));
    forall t | t in s'.runtime.finalizing ensures IsAwaited(s', t) {
      StillHeld(s, s', s.nextTask, t);
    }
  }

  /** In every reachable state each finalize guard is held by a call that waits for the turn's speech task, so none is
      ever leaked, whatever is cancelled, fails or is abandoned. */
  lemma {:induction false} RunHoldsGuards(c: Config, schedule: seq<Label>)
    ensures GuardsAreHeld(Run(c, schedule))
  {
    hide Apply, SystemInv;
    if schedule != [] {
      var before := schedule[..|schedule| - 1];
      RunHoldsGuards(c, before);
      RunIsSafe(c, before);
      StepHoldsGuards(c, Run(c, before), schedule[|schedule| - 1]);
    }
  }

  lemma RunKnowsGuards(c: Config, schedule: seq<Label>)
    ensures GuardsAreKnown(Run(c, schedule).runtime)
  {
    hide Run, ActivityOk;
    RunHoldsGuards(c, schedule);
    RunIsSafe(c, schedule);
    var s := Run(c, schedule);
    forall t | t in s.runtime.finalizing ensures t in s.runtime.turns {
      assert IsAwaited(s, t);
      var id :| id in s.activities && s.activities[id].AwaitingStt? && s.activities[id].turn == t;
      ActivityHasTurn(s, id);
    }
  }

  /** From every reachable idle state a spoken turn that nothing interferes with is answered: for any transcripts, tool
      rounds, deltas and audio, the exchange of the final transcript and the reply is persisted, the turn is COMPLETED,
      and the log has grown by exactly its events. */
  lemma SpokenTurnIsAnswered(
      c: Config, schedule: seq<Label>, t: TurnId, partials: seq<string>, text: string,
      rounds: seq<ToolRound>, deltas: seq<string>, audio: seq<string>)
    requires IsIdle(Run(c, schedule)) && t !in Run(c, schedule).runtime.turns
    requires c.hasStt && c.hasLlm && Strip(text) != "" && |rounds| < c.maxToolIterations
    requires forall k :: 0 <= k < |rounds| ==> rounds[k].calls > 0
    ensures var s := Run(c, schedule);
      var id := s.nextTask + 1;
      var s' := Run(c, schedule + ([Deliver(SpeechStarted, t, true)]
                                   + (HeardSteps(id, partials, text) + TurnSteps(c, id, rounds, deltas, audio))));
      IsOneTurnOn(c, s, s', t, Strip(text), Joined(deltas),
                  [UserSpeechStarted] + (HeardSaid(partials, text) + TurnSaid(c, rounds, deltas, audio)))
  {
    hide Run, Strip, IsOneTurnOn, GuardsAreKnown;
    RunKnowsGuards(c, schedule);
    SpokenTurnAnswers(c, schedule, t, partials, text, rounds, deltas, audio);
  }
}
