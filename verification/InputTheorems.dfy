/** What inputs, transcripts, failures and cancellations do, and whole turns from the input that begins them. */
module InputTheorems {
  import opened Common
  import opened PyStrings
  import opened Conversation
  import opened TurnLifecycle
  import opened Events
  import opened RuntimeSpec
  import opened RuntimeMachine
  import opened RuntimeInvariants
  import opened ScheduleSafety
  import opened RunTheorems
  import opened FaultTheorems
  import opened TurnTheorems

  /** Running, with no turn current: the next turn may begin. */
  ghost predicate IsIdle(s: System) {
    SystemInv(s) && s.runtime.running && !s.runtime.context.shutdown && s.runtime.current.None?
  }

  /** A turn has been added; nothing else about turns, ledger and cancellations has changed, and the log has grown by
      exactly these events of the turn. */
  ghost predicate HasBegun(s: System, s': System, t: TurnId, said: seq<Payload>) {
    && SystemInv(s') && s'.runtime.running && !s'.runtime.context.shutdown
    && s'.runtime.current == Some(t) && t in s'.runtime.turns && s'.runtime.turns[t].state.Active?
    && s'.runtime.turns == s.runtime.turns[t := s'.runtime.turns[t]]
    && s'.runtime.ledger == s.runtime.ledger && s'.runtime.context.cancelled == s.runtime.context.cancelled
    && s'.runtime.admitted == s.runtime.admitted + EventsOf(t, said, |s.runtime.admitted|)
    && s'.nextTask == s.nextTask + 2 && s'.faults == s.faults
  }

  lemma BeginningEffect(r: Runtime, t: TurnId)
    requires Inv(r) && t !in r.turns && r.running && !r.context.shutdown && r.current.None?
    ensures var begun := BeginTurn(r, t);
      && begun.Ok? && Inv(begun.value) && t !in begun.value.context.cancelled
      && begun.value == r.(turns := r.turns[t := begun.value.turns[t]], current := Some(t),
                           context := r.context.(turnSequence := r.context.turnSequence + 1))
      && begun.value.turns[t].state.Active?
      && Token(t, begun.value.tokenCount) !in begun.value.fired
  {
    hide LedgerIsPaired, LogIsGapless, TurnsAreNumbered, InterruptedOnce;
    BeginTurnKeeps(r, t);
  }

  // ---- Typed turns ----

  lemma TypedTurnBegins(c: Config, s: System, text: string, t: TurnId)
    requires IsIdle(s) && t !in s.runtime.turns && Strip(text) != "" && c.hasLlm && c.maxToolIterations > 0
    ensures var s' := Apply(c, s, Deliver(TextInput(text), t, true));
      && HasBegun(s, s', t, []) && IsBusy(s', s.nextTask, t, Strip(text), FirstStage(c))
      && s'.activities - {s.nextTask} == s.activities
      && t in s'.runtime.llmTokens && t in s'.runtime.ttsTokens
      && s'.runtime.llmTokens[t] == s'.runtime.ttsTokens[t] == s'.activities[s.nextTask].token
  {
    hide Inv, ActivityOk, OnlyFailingRaises, Leads, RunPipeline, Strip, BeginTurn, FirstStage, SpeechStartsPipeline;
    StepOk(c, s, Deliver(TextInput(text), t, true));
    KnownActivities(s);
    BeginningEffect(s.runtime, t);
    var begun := BeginTurn(s.runtime, t).value;
    PipelineStarts(c, begun, t, Strip(text), false);
  }

  lemma PipelineStarts(c: Config, r: Runtime, t: TurnId, text: string, nested: bool)
    requires c.maxToolIterations > 0 && t in r.turns && t !in r.context.cancelled && Token(t, r.tokenCount) !in r.fired
    ensures RunPipeline(c, r, t, text, nested, true)
      == Outcome(EnterPipeline(r, t).0, Some(Pipeline(t, text, Token(t, r.tokenCount), nested, FirstStage(c))), [])
  {
    hide FailPipeline, EndPipeline;
  }

  /** Between the states one turn has been begun, answered and COMPLETED: its exchange is persisted, the log has grown
      by exactly its events, and nothing of it is left suspended. */
  ghost predicate IsOneTurnOn(
      c: Config, s: System, s': System, t: TurnId, text: string, reply: string, said: seq<Payload>)
  {
    && t in s'.runtime.turns && s'.runtime.turns[t].state.Completed? && s'.runtime.current.None?
    && s'.runtime.turns == s.runtime.turns[t := s'.runtime.turns[t]] && s'.activities == s.activities
    && s'.runtime.ledger == WithPair(c, s.runtime.ledger, t, text, reply)
    && s'.runtime.admitted == s.runtime.admitted + EventsOf(t, said, |s.runtime.admitted|)
    && s'.runtime.context.cancelled == s.runtime.context.cancelled && s'.faults == s.faults
  }

  /** From every reachable idle state a typed turn that nothing interferes with is answered: for any tool rounds, deltas
      and audio, its exchange is persisted, it is COMPLETED, and the log has grown by exactly its events. */
  lemma TypedTurnIsAnswered(
      c: Config, schedule: seq<Label>, text: string, t: TurnId,
      rounds: seq<ToolRound>, deltas: seq<string>, audio: seq<string>)
    requires IsIdle(Run(c, schedule)) && t !in Run(c, schedule).runtime.turns && Strip(text) != "" && c.hasLlm
    requires |rounds| < c.maxToolIterations && forall k :: 0 <= k < |rounds| ==> rounds[k].calls > 0
    ensures var s := Run(c, schedule);
      var labels := [Deliver(TextInput(text), t, true)] + TurnSteps(c, s.nextTask, rounds, deltas, audio);
      var s' := Run(c, schedule + labels);
      IsOneTurnOn(c, s, s', t, Strip(text), Joined(deltas), TurnSaid(c, rounds, deltas, audio))
  {
    hide Run, Apply, ApplyAll, SystemInv, Strip, TurnSteps, TurnSaid, WithPair, Joined, IsBusy, FirstStage;
    var s := Run(c, schedule);
    var begin := Deliver(TextInput(text), t, true);
    RunIsSafe(c, schedule);
    KnownActivities(s);
    TypedTurnBegins(c, s, text, t);
    var s1 := Apply(c, s, begin);
    PipelineAnswers(c, s1, s.nextTask, t, Strip(text), rounds, deltas, audio);
    RunThenAll(c, schedule, [begin] + TurnSteps(c, s.nextTask, rounds, deltas, audio));
    ApplyBoth(c, s, [begin], TurnSteps(c, s.nextTask, rounds, deltas, audio));
    ApplyOne(c, s, begin);
    assert s1.runtime.admitted == s.runtime.admitted;
  }

  /** Without a language model a typed turn is complete at once, with nothing said and nothing persisted. */
  lemma TypedTurnWithoutModel(c: Config, s: System, text: string, t: TurnId, fits: bool)
    requires IsIdle(s) && t !in s.runtime.turns && Strip(text) != "" && !c.hasLlm
    ensures var s' := Apply(c, s, Deliver(TextInput(text), t, fits));
      && t in s'.runtime.turns && s'.runtime.turns[t].state.Completed? && s'.runtime.current.None?
      && s'.runtime.turns == s.runtime.turns[t := s'.runtime.turns[t]] && s'.activities == s.activities
      && s'.runtime.ledger == s.runtime.ledger && s'.runtime.admitted == s.runtime.admitted
  {
    hide Inv, ActivityOk, OnlyFailingRaises, Leads, Strip, BeginTurn;
    KnownActivities(s);
    BeginningEffect(s.runtime, t);
    CompletingEffect(BeginTurn(s.runtime, t).value, t);
  }

  lemma CompletingEffect(r: Runtime, t: TurnId)
    requires t in r.turns && r.turns[t].state.Active? && r.current == Some(t) && t !in r.context.cancelled
    ensures var done := CompleteTurn(r, t);
      && done.Ok? && done.value == r.(turns := r.turns[t := done.value.turns[t]], current := None)
      && done.value.turns[t].state.Completed?
  {
  }

  // ---- Spoken turns ----

  /** The turn listens: its speech-to-text task runs, is tracked, and reads the turn's queue. */
  ghost predicate IsListening(s: System, id: TaskId, t: TurnId) {
    && SystemInv(s) && s.runtime.running && !s.runtime.context.shutdown
    && s.runtime.current == Some(t) && t !in s.runtime.context.cancelled
    && id in s.activities && s.activities[id].SttStream? && s.activities[id].turn == t
    && id in s.runtime.activeTasks && t in s.runtime.sttTasks && s.runtime.sttTasks[t] == id && t in s.runtime.sttQueues
    && t !in s.runtime.finalizing && t !in s.runtime.speechEnded
  }

  /** No guard is held for a turn that does not exist. */
  ghost predicate GuardsAreKnown(r: Runtime) {
    && (forall t :: t in r.finalizing ==> t in r.turns)
    && (forall t :: t in r.speechEnded ==> t in r.turns)
  }

  lemma SpeechBegins(c: Config, s: System, t: TurnId, fits: bool)
    requires IsIdle(s) && t !in s.runtime.turns && GuardsAreKnown(s.runtime) && c.hasStt
    ensures var s' := Apply(c, s, Deliver(SpeechStarted, t, fits));
      && HasBegun(s, s', t, [UserSpeechStarted]) && IsListening(s', s.nextTask + 1, t)
      && s'.activities - {s.nextTask + 1} == s.activities
      && s'.runtime.sttQueues == s.runtime.sttQueues[t := []]
      && t in s'.runtime.sttTokens && s'.runtime.sttTokens[t] == s'.activities[s.nextTask + 1].token
  {
    hide Inv, ActivityOk, OnlyFailingRaises, Leads, BeginTurn, Emit, LogIsGapless;
    StepOk(c, s, Deliver(SpeechStarted, t, fits));
    KnownActivities(s);
    BeginningEffect(s.runtime, t);
    var begun := BeginTurn(s.runtime, t).value;
    Gapless(begun);
    EmitSays(begun, t, UserSpeechStarted);
  }

  lemma Gapless(r: Runtime)
    requires Inv(r)
    ensures LogIsGapless(r)
  {
  }

  /** Without speech-to-text, the start of speech begins a turn and announces it, and nothing listens. */
  lemma SpeechBeginsUnheard(c: Config, s: System, t: TurnId, fits: bool)
    requires IsIdle(s) && t !in s.runtime.turns && !c.hasStt
    ensures var s' := Apply(c, s, Deliver(SpeechStarted, t, fits));
      HasBegun(s, s', t, [UserSpeechStarted]) && s'.activities == s.activities
  {
    hide Inv, ActivityOk, OnlyFailingRaises, Leads, BeginTurn, Emit, LogIsGapless;
    StepOk(c, s, Deliver(SpeechStarted, t, fits));
    KnownActivities(s);
    BeginningEffect(s.runtime, t);
    Gapless(BeginTurn(s.runtime, t).value);
    EmitSays(BeginTurn(s.runtime, t).value, t, UserSpeechStarted);
  }

  lemma PartialTranscript(c: Config, s: System, id: TaskId, t: TurnId, text: string, fits: bool)
    requires IsListening(s, id, t)
    ensures var s' := Apply(c, s, Resume(id, Transcript(text, false), fits));
      && IsListening(s', id, t) && OnlySaid(s, s', id, t, [TranscriptFrame(text, false)])
      && s'.runtime.sttQueues == s.runtime.sttQueues
  {
    hide SystemInv, Leads, FinalizeSpeech, FailTurn, Emit, LogIsGapless;
    StepOk(c, s, Resume(id, Transcript(text, false), fits));
    ListeningIsLive(s, id, t);
    EmitSays(s.runtime, t, TranscriptFrame(text, false));
  }

  lemma ListeningIsLive(s: System, id: TaskId, t: TurnId)
    requires IsListening(s, id, t)
    ensures t in s.runtime.turns && s.runtime.turns[t].state.Active? && !s.runtime.Gone(t, s.activities[id].token)
    ensures LogIsGapless(s.runtime) && forall n :: n >= s.runtime.tokenCount ==> Token(t, n) !in s.runtime.fired
  {
    SttGoneMeansCancelled(s.runtime, s.activities[id]);
  }

  /** The final transcript and the end of speech are admitted, and the turn's guards, queue and task are released. */
  lemma FinalTranscriptFinalizes(c: Config, r: Runtime, t: TurnId, me: TaskId, text: string, fits: bool)
    returns (cleaned: Runtime)
    requires LogIsGapless(r) && t in r.turns && !r.turns[t].state.IsTerminal() && t !in r.context.cancelled
    requires t !in r.finalizing && t !in r.speechEnded && t in r.sttTasks && r.sttTasks[t] == me && c.hasStt
    ensures IsCleaned(r, cleaned, t)
    ensures cleaned.admitted == r.admitted + EventsOf(t, [TranscriptFrame(text, true), UserSpeechEnded], |r.admitted|)
    ensures FinalizeSpeech(c, Emit(r, Some(t), TranscriptFrame(text, true)), t, me, fits)
      == FinishCleaned(c, cleaned, t, Some(text), fits)
  {
    hide Emit, FinalizeSpeech, FinishCleaned, FinalTranscript;
    var frame := TranscriptFrame(text, true);
    var emitted := Emit(r, Some(t), frame);
    EmitSays(r, t, frame);
    EmitAdmits(r, Some(t), frame);
    EventsOfConcat(t, [frame], [UserSpeechEnded], |r.admitted|);
    assert [frame] + [UserSpeechEnded] == [frame, UserSpeechEnded];
    FinalTranscriptAppend(r.admitted, Event(|r.admitted| + 1, Some(t), frame), t);
    assert emitted.admitted == r.admitted + [Event(|r.admitted| + 1, Some(t), frame)];
    cleaned := SpeechEndFinalizes(c, emitted, t, me, fits);
  }

  /** The end of speech is admitted, and the turn's guards, queue and task are released. */
  lemma SpeechEndFinalizes(c: Config, r: Runtime, t: TurnId, me: TaskId, fits: bool) returns (cleaned: Runtime)
    requires LogIsGapless(r) && t in r.turns && !r.turns[t].state.IsTerminal() && t !in r.context.cancelled
    requires t !in r.finalizing && t !in r.speechEnded && t in r.sttTasks && r.sttTasks[t] == me && c.hasStt
    ensures IsCleaned(r, cleaned, t)
    ensures cleaned.admitted == r.admitted + EventsOf(t, [UserSpeechEnded], |r.admitted|)
    ensures FinalizeSpeech(c, r, t, me, fits) == FinishCleaned(c, cleaned, t, FinalTranscript(r.admitted, t), fits)
  {
    hide Emit, RunPipeline, CompleteAfterSpeech, FinalTranscript, Strip;
    var guarded := r.(finalizing := r.finalizing + {t}, speechEnded := r.speechEnded + {t});
    var announced := AnnounceSpeechEnd(r, t);
    EmitSays(guarded, t, UserSpeechEnded);
    assert announced == Emit(guarded, Some(t), UserSpeechEnded);
    FinalTranscriptAppend(r.admitted, Event(|r.admitted| + 1, Some(t), UserSpeechEnded), t);
    assert announced.admitted == r.admitted + [Event(|r.admitted| + 1, Some(t), UserSpeechEnded)];
    cleaned := CleanupSpeech(PutAudio(announced, t, EndOfAudio), t);
  }

  /** What follows the cleanup, given the transcript found. */
  function FinishCleaned(c: Config, r: Runtime, t: TurnId, transcript: Option<string>, fits: bool): Outcome
    requires t in r.turns
  {
    if r.turns[t].state.IsTerminal() then Finished(LeaveFinalizer(r, t))
    else if transcript.Some? && Strip(transcript.value) != "" && c.hasLlm
    then RunPipeline(c, r, t, Strip(transcript.value), true, fits)
    else CompleteAfterSpeech(r, t)
  }

  /** The speech state of the turn has been released; only log and speech state differ. */
  ghost predicate IsCleaned(r: Runtime, r': Runtime, t: TurnId) {
    && r'.turns == r.turns && r'.current == r.current && r'.ledger == r.ledger && r'.running == r.running
    && r'.context == r.context.(sequence := r'.context.sequence)
    && r'.llmTokens == r.llmTokens && r'.ttsTokens == r.ttsTokens
    && r'.fired == r.fired && r'.tokenCount == r.tokenCount && r'.activeTasks == r.activeTasks
    && t !in r'.sttQueues && t !in r'.sttTasks && t !in r'.sttTokens && t !in r'.finalizing && t !in r'.speechEnded
  }

  lemma PipelineStartsAfterSpeech(c: Config, r: Runtime, t: TurnId, transcript: string)
    requires t in r.turns && r.turns[t].state.Active? && t !in r.context.cancelled && Token(t, r.tokenCount) !in r.fired
    requires c.hasLlm && c.maxToolIterations > 0 && Strip(transcript) != ""
    ensures FinishCleaned(c, r, t, Some(transcript), true)
      == Outcome(EnterPipeline(r, t).0,
                 Some(Pipeline(t, Strip(transcript), Token(t, r.tokenCount), true, FirstStage(c))), [])
  {
    hide Strip, RunPipeline, FirstStage, CompleteAfterSpeech;
    PipelineStarts(c, r, t, Strip(transcript), true);
  }

  /** The final transcript of a listening turn starts its pipeline, with the transcript stripped. */
  lemma FinalTranscriptStarts(c: Config, s: System, id: TaskId, t: TurnId, text: string)
    requires IsListening(s, id, t) && c.hasStt && c.hasLlm && c.maxToolIterations > 0 && Strip(text) != ""
    ensures var s' := Apply(c, s, Resume(id, Transcript(text, true), true));
      && IsBusy(s', id, t, Strip(text), FirstStage(c)) && s'.activities[id].nested
      && OnlySaid(s, s', id, t, [TranscriptFrame(text, true), UserSpeechEnded])
      && t !in s'.runtime.finalizing && t !in s'.runtime.sttQueues && t !in s'.runtime.sttTasks
      && t !in s'.runtime.sttTokens
  {
    hide SystemInv, Leads, FinalizeSpeech, FinishCleaned, FailTurn, Emit, LogIsGapless, Strip, FirstStage;
    StepOk(c, s, Resume(id, Transcript(text, true), true));
    ListeningIsLive(s, id, t);
    EmitTurns(s.runtime, t, TranscriptFrame(text, true));
    var cleaned := FinalTranscriptFinalizes(c, s.runtime, t, id, text, true);
    PipelineStartsAfterSpeech(c, cleaned, t, text);
  }

  lemma EmitTurns(r: Runtime, t: TurnId, payload: Payload)
    ensures Emit(r, Some(t), payload).turns == r.turns
  {
  }

  /** The speech task is gone, its turn COMPLETED and nothing current, with nothing persisted. */
  ghost predicate IsDismissed(s: System, s': System, id: TaskId, t: TurnId, said: seq<Payload>) {
    && SystemInv(s') && s'.runtime.current.None? && id !in s'.activities && s'.activities - {id} == s.activities - {id}
    && t in s'.runtime.turns && s'.runtime.turns[t].state.Completed?
    && s'.runtime.turns == s.runtime.turns[t := s'.runtime.turns[t]]
    && s'.runtime.ledger == s.runtime.ledger && s'.runtime.context.cancelled == s.runtime.context.cancelled
    && s'.runtime.admitted == s.runtime.admitted + EventsOf(t, said, |s.runtime.admitted|) && s'.faults == s.faults
  }

  /** A blank final transcript, or any without a language model, completes the turn without a reply. */
  lemma BlankTranscriptCompletes(c: Config, s: System, id: TaskId, t: TurnId, text: string, fits: bool)
    requires IsListening(s, id, t) && c.hasStt && (Strip(text) == "" || !c.hasLlm)
    ensures IsDismissed(s, Apply(c, s, Resume(id, Transcript(text, true), fits)), id, t,
                        [TranscriptFrame(text, true), UserSpeechEnded])
  {
    hide SystemInv, Leads, FinalizeSpeech, CompleteTurn, RunPipeline, FailTurn, Emit, LogIsGapless, Strip;
    StepOk(c, s, Resume(id, Transcript(text, true), fits));
    ListeningIsLive(s, id, t);
    EmitTurns(s.runtime, t, TranscriptFrame(text, true));
    var cleaned := FinalTranscriptFinalizes(c, s.runtime, t, id, text, fits);
    CompletingEffect(cleaned, t);
  }

  /** A transcript stream that ends without a final transcript ends the speech of a listening turn all the same: it is
      announced, and the turn goes on with the last final transcript heard, or is complete without one. */
  lemma TranscriptEndFinalizes(c: Config, s: System, id: TaskId, t: TurnId)
    requires IsListening(s, id, t) && c.hasStt && c.maxToolIterations > 0
    ensures var s' := Apply(c, s, Resume(id, TranscriptEnd, true));
      var transcript := FinalTranscript(s.runtime.admitted, t);
      if transcript.Some? && Strip(transcript.value) != "" && c.hasLlm
      then IsBusy(s', id, t, Strip(transcript.value), FirstStage(c)) && OnlySaid(s, s', id, t, [UserSpeechEnded])
      else IsDismissed(s, s', id, t, [UserSpeechEnded])
  {
    hide SystemInv, Leads, FinalizeSpeech, CompleteTurn, RunPipeline, FailTurn, Emit, LogIsGapless, Strip, FirstStage,
         FinalTranscript;
    StepOk(c, s, Resume(id, TranscriptEnd, true));
    ListeningIsLive(s, id, t);
    var transcript := FinalTranscript(s.runtime.admitted, t);
    var cleaned := SpeechEndFinalizes(c, s.runtime, t, id, true);
    if transcript.Some? && Strip(transcript.value) != "" && c.hasLlm {
      PipelineStartsAfterSpeech(c, cleaned, t, transcript.value);
    } else {
      CompletingEffect(cleaned, t);
    }
  }

  /** An end of speech reported from outside: it is announced, the queue of the listening task gets its end mark, the
      turn is guarded, and the call waits for that task. */
  lemma SpeechEndIsAwaited(c: Config, s: System, id: TaskId, t: TurnId, unused: TurnId, fits: bool)
    requires IsListening(s, id, t) && c.hasStt && unused !in s.runtime.turns
    ensures var s' := Apply(c, s, Deliver(SpeechEnded, unused, fits));
      && SystemInv(s') && s'.activities == s.activities[s.nextTask := AwaitingStt(t, id)]
      && OnlySaid(s, s'.(nextTask := s.nextTask), s.nextTask, t, [UserSpeechEnded])
      && s'.runtime.sttQueues == s.runtime.sttQueues[t := s.runtime.sttQueues[t] + [EndOfAudio]]
      && t in s'.runtime.finalizing && s'.runtime.current == Some(t)
  {
    hide SystemInv, Leads, FinishSpeech, CompleteAfterSpeech, Emit, LogIsGapless;
    StepOk(c, s, Deliver(SpeechEnded, unused, fits));
    ListeningIsLive(s, id, t);
    ListeningIds(s, id, t);
    var r := s.runtime;
    EmitSays(r.(finalizing := r.finalizing + {t}, speechEnded := r.speechEnded + {t}), t, UserSpeechEnded);
  }

  lemma ListeningIds(s: System, id: TaskId, t: TurnId)
    requires IsListening(s, id, t)
    ensures id < s.nextTask && s.nextTask !in s.activities
  {
  }

  function PartialSteps(id: TaskId, partials: seq<string>): seq<Label> {
    if partials == [] then [] else [Resume(id, Transcript(partials[0], false), true)] + PartialSteps(id, partials[1..])
  }

  function PartialFrames(partials: seq<string>): seq<Payload> {
    if partials == [] then [] else [TranscriptFrame(partials[0], false)] + PartialFrames(partials[1..])
  }

  lemma {:induction false} PartialsArrive(c: Config, s: System, id: TaskId, t: TurnId, partials: seq<string>)
    requires IsListening(s, id, t)
    ensures var s' := ApplyAll(c, s, PartialSteps(id, partials));
      IsListening(s', id, t) && OnlySaid(s, s', id, t, PartialFrames(partials))
    decreases |partials|
  {
    hide Apply, IsListening, OnlySaid;
    if partials == [] {
      SaidNothing(s, id, t);
    } else {
      var steps := PartialSteps(id, partials);
      PartialTranscript(c, s, id, t, partials[0], true);
      assert steps[1..] == PartialSteps(id, partials[1..]);
      PartialsArrive(c, Apply(c, s, steps[0]), id, t, partials[1..]);
      SaidTwice(s, Apply(c, s, steps[0]), ApplyAll(c, s, steps), id, t,
                [TranscriptFrame(partials[0], false)], PartialFrames(partials[1..]));
    }
  }

  function HeardSteps(id: TaskId, partials: seq<string>, text: string): seq<Label> {
    PartialSteps(id, partials) + [Resume(id, Transcript(text, true), true)]
  }

  function HeardSaid(partials: seq<string>, text: string): seq<Payload> {
    PartialFrames(partials) + [TranscriptFrame(text, true), UserSpeechEnded]
  }

  /** A listening turn that hears a final transcript and is not interfered with is answered. */
  lemma ListeningTurnAnswers(
      c: Config, s: System, id: TaskId, t: TurnId, partials: seq<string>, text: string,
      rounds: seq<ToolRound>, deltas: seq<string>, audio: seq<string>)
    requires IsListening(s, id, t) && c.hasStt && c.hasLlm && Strip(text) != "" && |rounds| < c.maxToolIterations
    requires forall k :: 0 <= k < |rounds| ==> rounds[k].calls > 0
    ensures IsAnswered(c, s, ApplyAll(c, s, HeardSteps(id, partials, text) + TurnSteps(c, id, rounds, deltas, audio)),
                       id, t, Strip(text), Joined(deltas),
                       HeardSaid(partials, text) + TurnSaid(c, rounds, deltas, audio))
  {
    hide Apply, ApplyAll, IsListening, IsBusy, OnlySaid, IsAnswered, PartialSteps, PartialFrames, TurnSteps, TurnSaid,
         Joined, Strip, FirstStage;
    var last := Resume(id, Transcript(text, true), true);
    var s1 := ApplyAll(c, s, PartialSteps(id, partials));
    var s2 := Apply(c, s1, last);
    PartialsArrive(c, s, id, t, partials);
    FinalTranscriptStarts(c, s1, id, t, text);
    SaidTwice(s, s1, s2, id, t, PartialFrames(partials), [TranscriptFrame(text, true), UserSpeechEnded]);
    ApplyBoth(c, s, PartialSteps(id, partials), [last]);
    ApplyOne(c, s1, last);
    PipelineAnswers(c, s2, id, t, Strip(text), rounds, deltas, audio);
    ApplyBoth(c, s, HeardSteps(id, partials, text), TurnSteps(c, id, rounds, deltas, audio));
    AnsweredAfter(c, s, s2, ApplyAll(c, s2, TurnSteps(c, id, rounds, deltas, audio)),
                  id, t, Strip(text), Joined(deltas),
                  HeardSaid(partials, text), TurnSaid(c, rounds, deltas, audio));
  }

  /** A spoken turn from an idle state whose guards belong to known turns. */
  lemma SpokenTurnAnswers(
      c: Config, schedule: seq<Label>, t: TurnId, partials: seq<string>, text: string,
      rounds: seq<ToolRound>, deltas: seq<string>, audio: seq<string>)
    requires IsIdle(Run(c, schedule)) && t !in Run(c, schedule).runtime.turns
    requires GuardsAreKnown(Run(c, schedule).runtime)
    requires c.hasStt && c.hasLlm && Strip(text) != "" && |rounds| < c.maxToolIterations
    requires forall k :: 0 <= k < |rounds| ==> rounds[k].calls > 0
    ensures var s := Run(c, schedule);
      var id := s.nextTask + 1;
      var s' := Run(c, schedule + ([Deliver(SpeechStarted, t, true)]
                                   + (HeardSteps(id, partials, text) + TurnSteps(c, id, rounds, deltas, audio))));
      IsOneTurnOn(c, s, s', t, Strip(text), Joined(deltas),
                  [UserSpeechStarted] + (HeardSaid(partials, text) + TurnSaid(c, rounds, deltas, audio)))
  {
    hide Run, Apply, ApplyAll, SystemInv, Strip, TurnSteps, TurnSaid, HeardSteps, HeardSaid, WithPair, Joined,
         IsListening, GuardsAreKnown;
    var s := Run(c, schedule);
    var begin, id := Deliver(SpeechStarted, t, true), s.nextTask + 1;
    var rest := HeardSteps(id, partials, text) + TurnSteps(c, id, rounds, deltas, audio);
    RunIsSafe(c, schedule);
    KnownActivities(s);
    SpeechBegins(c, s, t, true);
    ListeningTurnAnswers(c, Apply(c, s, begin), id, t, partials, text, rounds, deltas, audio);
    RunThenAll(c, schedule, [begin] + rest);
    ApplyBoth(c, s, [begin], rest);
    ApplyOne(c, s, begin);
    EventsOfConcat(t, [UserSpeechStarted], HeardSaid(partials, text) + TurnSaid(c, rounds, deltas, audio),
                   |s.runtime.admitted|);
  }

  // ---- Speech ended from outside ----

  /** While a call waits for the speech task, further transcripts are admitted, and the task ends with its last one. */
  lemma AwaitedTranscript(c: Config, s: System, id: TaskId, t: TurnId, text: string, isFinal: bool, fits: bool)
    requires SystemInv(s) && id in s.activities && s.activities[id].SttStream? && s.activities[id].turn == t
    requires t !in s.runtime.context.cancelled && t in s.runtime.finalizing
    ensures var s' := Apply(c, s, Resume(id, Transcript(text, isFinal), fits));
      && OnlySaid(s, s', id, t, [TranscriptFrame(text, isFinal)])
      && (isFinal <==> id !in s'.activities) && s'.runtime.finalizing == s.runtime.finalizing
  {
    hide Core, Leads, FinalizeSpeech, FailTurn, Emit, LogIsGapless;
    SttGoneMeansCancelled(s.runtime, s.activities[id]);
    Gapless(s.runtime);
    EmitSays(s.runtime, t, TranscriptFrame(text, isFinal));
    EmitKeepsGuards(s.runtime, t, TranscriptFrame(text, isFinal));
    GuardedReturns(c, Emit(s.runtime, Some(t), TranscriptFrame(text, isFinal)), t, id, fits);
  }

  /** And when its stream ends, the task ends without a word: finishing is left to the call that waits. */
  lemma AwaitedStreamEnds(c: Config, s: System, id: TaskId, t: TurnId, fits: bool)
    requires SystemInv(s) && id in s.activities && s.activities[id].SttStream? && s.activities[id].turn == t
    requires t in s.runtime.finalizing
    ensures var s' := Apply(c, s, Resume(id, TranscriptEnd, fits));
      OnlySaid(s, s', id, t, []) && id !in s'.activities && s'.runtime.finalizing == s.runtime.finalizing
  {
    hide Core, Leads, FinalizeSpeech;
    ActivityHasTurn(s, id);
    GuardedReturns(c, s.runtime, t, id, fits);
  }

  /** The call goes on waiting as long as the task is suspended. */
  lemma WaitsForTheTask(c: Config, s: System, id: TaskId, signal: Signal, fits: bool)
    requires id in s.activities && s.activities[id].AwaitingStt? && s.activities[id].task in s.activities
    ensures Apply(c, s, Resume(id, signal, fits)) == s
  {
  }

  lemma EmitKeepsGuards(r: Runtime, t: TurnId, payload: Payload)
    ensures Emit(r, Some(t), payload).finalizing == r.finalizing
  {
  }

  lemma GuardedReturns(c: Config, r: Runtime, t: TurnId, me: TaskId, fits: bool)
    requires t in r.turns && t in r.finalizing
    ensures FinalizeSpeech(c, r, t, me, fits) == Finished(r)
  {
  }

  /** The call that waited goes on once the task is gone: with the last final transcript it starts the pipeline, and
      without one it completes the turn. */
  lemma AwaitedSpeechFinishes(c: Config, s: System, id: TaskId, t: TurnId, task: TaskId)
    requires SystemInv(s) && s.runtime.running && !s.runtime.context.shutdown && s.runtime.current == Some(t)
    requires id in s.activities && s.activities[id] == AwaitingStt(t, task) && task !in s.activities
    requires c.maxToolIterations > 0
    ensures var s' := Apply(c, s, Resume(id, Ready, true));
      var transcript := FinalTranscript(s.runtime.admitted, t);
      if transcript.Some? && Strip(transcript.value) != "" && c.hasLlm
      then IsBusy(s', id, t, Strip(transcript.value), FirstStage(c)) && OnlySaid(s, s', id, t, [])
      else IsDismissed(s, s', id, t, [])
  {
    hide *;
    var transcript := FinalTranscript(s.runtime.admitted, t);
    if transcript.Some? && Strip(transcript.value) != "" && c.hasLlm {
      AwaitedTranscriptStarts(c, s, id, t, task, transcript.value);
    } else {
      AwaitedNothingCompletes(c, s, id, t, task);
    }
  }

  lemma AwaitedTranscriptStarts(c: Config, s: System, id: TaskId, t: TurnId, task: TaskId, text: string)
    requires SystemInv(s) && s.runtime.running && !s.runtime.context.shutdown && s.runtime.current == Some(t)
    requires id in s.activities && s.activities[id] == AwaitingStt(t, task) && task !in s.activities
    requires FinalTranscript(s.runtime.admitted, t) == Some(text) && Strip(text) != ""
    requires c.hasLlm && c.maxToolIterations > 0
    ensures var s' := Apply(c, s, Resume(id, Ready, true));
      IsBusy(s', id, t, Strip(text), FirstStage(c)) && OnlySaid(s, s', id, t, [])
  {
    hide Core, Leads, ActivityOk, OnlyFailingRaises, FinalTranscript, Strip, FinishSpeech, FinishCleaned, FirstStage;
    StepOk(c, s, Resume(id, Ready, true));
    CurrentIsLive(s.runtime, t);
    var cleaned := CleanedFinish(c, s.runtime, t);
    PipelineStartsAfterSpeech(c, cleaned, t, text);
  }

  lemma AwaitedNothingCompletes(c: Config, s: System, id: TaskId, t: TurnId, task: TaskId)
    requires SystemInv(s) && s.runtime.running && !s.runtime.context.shutdown && s.runtime.current == Some(t)
    requires id in s.activities && s.activities[id] == AwaitingStt(t, task) && task !in s.activities
    requires var transcript := FinalTranscript(s.runtime.admitted, t);
      transcript.None? || Strip(transcript.value) == "" || !c.hasLlm
    ensures IsDismissed(s, Apply(c, s, Resume(id, Ready, true)), id, t, [])
  {
    hide Core, Leads, ActivityOk, OnlyFailingRaises, FinalTranscript, Strip, FinishSpeech, CleanupSpeech, CompleteTurn,
         RunPipeline;
    StepOk(c, s, Resume(id, Ready, true));
    CurrentIsLive(s.runtime, t);
    var cleaned := CleanedFinish(c, s.runtime, t);
    CompletingEffect(cleaned, t);
  }

  /** Finishing speech cleans up and goes on with the last final transcript. */
  lemma CleanedFinish(c: Config, r: Runtime, t: TurnId) returns (cleaned: Runtime)
    requires t in r.turns
    ensures IsCleaned(r, cleaned, t) && cleaned.admitted == r.admitted && cleaned.context == r.context
    ensures FinishSpeech(c, r, t, true) == FinishCleaned(c, cleaned, t, FinalTranscript(r.admitted, t), true)
  {
    hide FinalTranscript, Strip, RunPipeline, CompleteAfterSpeech;
    cleaned := CleanupSpeech(r, t);
  }

  lemma CurrentIsLive(r: Runtime, t: TurnId)
    requires Core(r) && r.current == Some(t)
    ensures t in r.turns && r.turns[t].state.Active? && t !in r.context.cancelled
    ensures forall n :: n >= r.tokenCount ==> Token(t, n) !in r.fired
  {
  }

  // ---- Failures ----

  /** The code an activity fails its turn with. */
  function FailureCode(c: Config, a: Activity, signal: Signal): string
    requires a.Pipeline? || a.SttStream?
  {
    if signal.ProviderFailed? then signal.code
    else if a.Pipeline? && NextIteration(c, a.stage).Some? && NextIteration(c, a.stage).value >= c.maxToolIterations
    then "tool_loop_limit_exceeded"
    else "context_budget_exceeded"
  }

  /** The turn FAILED with this code, one error event says so, nothing is current and nothing was persisted. */
  ghost predicate HasFailed(s: System, s': System, id: TaskId, t: TurnId, code: string) {
    && t in s'.runtime.turns && s'.runtime.turns[t].state.Failed? && s'.runtime.turns[t].errorCode == Some(code)
    && s'.runtime.turns == s.runtime.turns[t := s'.runtime.turns[t]] && s'.runtime.current.None?
    && s'.runtime.admitted == s.runtime.admitted + EventsOf(t, [ErrorRaised(code)], |s.runtime.admitted|)
    && s'.runtime.ledger == s.runtime.ledger && s'.runtime.context.cancelled == s.runtime.context.cancelled
    && id !in s'.activities && s'.activities - {id} == s.activities - {id} && s'.faults == s.faults
  }

  lemma FailTurnEffect(r: Runtime, t: TurnId, code: string)
    requires LogIsGapless(r) && t in r.turns && r.turns[t].state.Active? && r.current == Some(t)
    requires t !in r.context.cancelled
    ensures var failed := FailTurn(r, t, code);
      && failed.Ok? && failed.value.turns == r.turns[t := failed.value.turns[t]]
      && failed.value.turns[t].state.Failed? && failed.value.turns[t].errorCode == Some(code)
      && failed.value.current.None? && failed.value.ledger == r.ledger
      && failed.value.admitted == r.admitted + EventsOf(t, [ErrorRaised(code)], |r.admitted|)
      && failed.value.context.cancelled == r.context.cancelled
  {
    hide Emit;
    EmitSays(r.(turns := r.turns[t := r.turns[t].Fail(code).value]), t, ErrorRaised(code));
  }

  lemma FailPipelineEffect(r: Runtime, p: Activity, code: string)
    requires p.Pipeline? && LogIsGapless(r) && p.turn in r.turns && r.turns[p.turn].state.Active?
    requires r.current == Some(p.turn) && p.turn !in r.context.cancelled
    ensures var o, failed := FailPipeline(r, p, code), FailTurn(r, p.turn, code);
      failed.Ok? && o == EndPipeline(failed.value, p)
  {
    hide FailTurn, EndPipeline, Leave;
    FailTurnEffect(r, p.turn, code);
  }

  /** In every reachable state: an activity that comes to fail its turn, while that turn is going on, fails it with the
      code of the failure, says so once, persists nothing and is gone. */
  lemma FailureFailsTheTurn(c: Config, schedule: seq<Label>, id: TaskId, signal: Signal, fits: bool)
    requires var s := Run(c, schedule);
      && id in s.activities && ComesToFail(c, s.activities[id], signal, fits)
      && (s.activities[id].Pipeline? || s.activities[id].SttStream?) && s.activities[id].turn in s.runtime.turns
      && !s.runtime.turns[s.activities[id].turn].state.IsTerminal()
    ensures var s := Run(c, schedule);
      HasFailed(s, Run(c, schedule + [Resume(id, signal, fits)]), id, s.activities[id].turn,
                FailureCode(c, s.activities[id], signal))
  {
    hide Run, Apply, SystemInv, HasFailed, ComesToFail, FailureCode;
    RunIsSafe(c, schedule);
    OneMore(c, schedule, Resume(id, signal, fits));
    var s := Run(c, schedule);
    var a := s.activities[id];
    ActiveTurnOf(s, id);
    if a.SttStream? {
      SttFails(c, s, id, signal, fits);
    } else {
      PipelineFails(c, s, id, signal, fits);
    }
  }

  lemma ActiveTurnOf(s: System, id: TaskId)
    requires SystemInv(s) && id in s.activities && (s.activities[id].Pipeline? || s.activities[id].SttStream?)
    requires s.activities[id].turn in s.runtime.turns && !s.runtime.turns[s.activities[id].turn].state.IsTerminal()
    ensures var t := s.activities[id].turn;
      && s.runtime.turns[t].state.Active? && s.runtime.current == Some(t) && t !in s.runtime.context.cancelled
      && !s.runtime.Gone(t, s.activities[id].token) && LogIsGapless(s.runtime)
  {
    ActiveIsCurrent(s.runtime, s.activities[id].turn);
    if s.activities[id].Pipeline? {
      GoneMeansCancelled(s.runtime, s.activities[id]);
    } else {
      SttGoneMeansCancelled(s.runtime, s.activities[id]);
    }
  }

  ghost predicate IsCurrentActivity(s: System, id: TaskId) {
    && id in s.activities && (s.activities[id].Pipeline? || s.activities[id].SttStream?)
    && var t := s.activities[id].turn;
      && t in s.runtime.turns && s.runtime.turns[t].state.Active? && s.runtime.current == Some(t)
      && t !in s.runtime.context.cancelled && !s.runtime.Gone(t, s.activities[id].token) && LogIsGapless(s.runtime)
  }

  lemma SttFails(c: Config, s: System, id: TaskId, signal: Signal, fits: bool)
    requires IsCurrentActivity(s, id) && s.activities[id].SttStream? && ComesToFail(c, s.activities[id], signal, fits)
    ensures HasFailed(s, Apply(c, s, Resume(id, signal, fits)), id, s.activities[id].turn,
                      FailureCode(c, s.activities[id], signal))
  {
    hide FailTurn, FinalizeSpeech, Emit, LogIsGapless;
    FailTurnEffect(s.runtime, s.activities[id].turn, signal.code);
  }

  /** What a pipeline that comes to fail does is fail, and nothing after it. */
  lemma ComingToFail(c: Config, r: Runtime, p: Activity, signal: Signal, fits: bool)
    requires p.Pipeline? && LogIsGapless(r) && p.turn in r.turns && r.turns[p.turn].state.Active?
    requires r.current == Some(p.turn) && p.turn !in r.context.cancelled && !r.Gone(p.turn, p.token)
    requires ComesToFail(c, p, signal, fits)
    ensures FailTurn(r, p.turn, FailureCode(c, p, signal)).Ok?
    ensures ResumePipeline(c, r, p, signal, fits)
      == EndPipeline(FailTurn(r, p.turn, FailureCode(c, p, signal)).value, p)
  {
    hide FailTurn, Respond, Emit, LogIsGapless, CommitExchange, FailPipeline, Leave;
    FailTurnEffect(r, p.turn, FailureCode(c, p, signal));
    FailPipelineEffect(r, p, FailureCode(c, p, signal));
  }

  lemma PipelineFails(c: Config, s: System, id: TaskId, signal: Signal, fits: bool)
    requires IsCurrentActivity(s, id) && s.activities[id].Pipeline? && ComesToFail(c, s.activities[id], signal, fits)
    ensures HasFailed(s, Apply(c, s, Resume(id, signal, fits)), id, s.activities[id].turn,
                      FailureCode(c, s.activities[id], signal))
  {
    hide FailTurn, ResumePipeline, ComesToFail, FailureCode, LogIsGapless;
    FailTurnEffect(s.runtime, s.activities[id].turn, FailureCode(c, s.activities[id], signal));
    ComingToFail(c, s.runtime, s.activities[id], signal, fits);
  }

  lemma ErrorEffect(r: Runtime, code: string)
    requires Inv(r)
    ensures var done := HandleError(r, code);
      && done.Ok? && done.value.current.None? && done.value.ledger == r.ledger
      && done.value.admitted == r.admitted + [Event(|r.admitted| + 1, r.current, ErrorRaised(code))]
      && (r.current.None? ==> done.value.turns == r.turns && done.value.context.cancelled == r.context.cancelled)
      && (r.current.Some? ==>
            var t := r.current.value;
            && t in done.value.turns && done.value.turns[t].state.Failed?
            && done.value.turns[t].errorCode == Some(code)
            && done.value.turns == r.turns[t := done.value.turns[t]]
            && done.value.context.cancelled == r.context.cancelled + {t})
  {
    hide LedgerIsPaired, TurnsAreNumbered, InterruptedOnce, TokensAgree, Emit;
    HandleErrorKeeps(r, code);
    if r.current.Some? {
      var t := r.current.value;
      var marked := r.(turns := r.turns[t := r.turns[t].Fail(code).value],
                       context := r.context.(cancelled := r.context.cancelled + {t}));
      EmitAdmits(marked, Some(t), ErrorRaised(code));
    } else {
      EmitAdmits(r, None, ErrorRaised(code));
    }
  }

  /** An ERROR input fails the current turn with its code, marks it cancelled and says so; without a turn it only says
      so. */
  lemma ErrorInputFails(c: Config, s: System, code: string, newTurn: TurnId, fits: bool)
    requires SystemInv(s) && s.runtime.running && !s.runtime.context.shutdown && newTurn !in s.runtime.turns
    ensures var r, r' := s.runtime, Apply(c, s, Deliver(ErrorInput(code), newTurn, fits)).runtime;
      && r'.current.None? && r'.ledger == r.ledger
      && r'.admitted == r.admitted + [Event(|r.admitted| + 1, r.current, ErrorRaised(code))]
      && (r.current.None? ==> r'.turns == r.turns && r'.context.cancelled == r.context.cancelled)
      && (r.current.Some? ==>
            var t := r.current.value;
            && t in r'.turns && r'.turns[t].state.Failed? && r'.turns[t].errorCode == Some(code)
            && r'.turns == r.turns[t := r'.turns[t]] && r'.context.cancelled == r.context.cancelled + {t})
  {
    hide Inv, HandleError, ActivityOk, OnlyFailingRaises;
    ErrorEffect(s.runtime, code);
  }

  // ---- Cancellation ----

  /** Cancelling a turn that is going on fires exactly the tokens registered for it, interrupts it once, and leaves
      nothing current. */
  lemma CancellingInterrupts(r: Runtime, t: TurnId)
    requires Core(r) && t in r.turns && !r.turns[t].state.IsTerminal()
    ensures var r' := CancelTurn(r, t).value;
      && r'.turns == r.turns[t := r'.turns[t]] && r'.turns[t].state.Cancelled? && r'.current.None?
      && r'.context.cancelled == r.context.cancelled + {t} && r'.ledger == r.ledger
      && r'.admitted == r.admitted + EventsOf(t, [AgentInterrupted], |r.admitted|)
      && (forall token :: token in r'.fired <==>
            || token in r.fired || (t in r.llmTokens && token == r.llmTokens[t])
            || (t in r.ttsTokens && token == r.ttsTokens[t]) || (t in r.sttTokens && token == r.sttTokens[t]))
  {
    hide LedgerIsPaired, TurnsAreNumbered, InterruptedOnce, TokensAgree;
    ActiveIsCurrent(r, t);
  }

  /** A cancel input reaches the turn it names, or the current one. */
  lemma CancelInputCancels(c: Config, s: System, target: Option<TurnId>, newTurn: TurnId, fits: bool)
    requires SystemInv(s) && s.runtime.running && !s.runtime.context.shutdown && newTurn !in s.runtime.turns
    requires target.Some? ==> target.value in s.runtime.turns
    requires target.None? ==> s.runtime.current.Some?
    ensures var chosen := if target.Some? then target.value else s.runtime.current.value;
      && chosen in s.runtime.turns
      && Apply(c, s, Deliver(CancelInput(target), newTurn, fits)).runtime
           == CancelTurn(s.runtime, chosen).value.(activeTasks := s.runtime.activeTasks - {s.nextTask})
  {
    hide Core, CancelTurn, Leads;
    var chosen := if target.Some? then target.value else s.runtime.current.value;
    CurrentIsKnown(s);
    CancelTurnKeeps(s.runtime, chosen);
  }

  /** The signals the stage of a pipeline reacts to. */
  predicate Expects(stage: Stage, signal: Signal) {
    match stage
    case Streaming(_, _) => signal.Delta? || signal.StreamEnd? || signal.ProviderFailed?
    case Speaking(_) => signal.Speech? || signal.SpeechEnd? || signal.ProviderFailed?
    case _ => signal.Ready?
  }

  lemma GoneEnds(c: Config, r: Runtime, p: Activity, signal: Signal, fits: bool)
    requires p.Pipeline? && p.turn in r.turns && r.turns[p.turn].state.IsTerminal()
    requires r.Gone(p.turn, p.token) && Expects(p.stage, signal)
    ensures ResumePipeline(c, r, p, signal, fits) == EndPipeline(r, p)
  {
    hide Respond, AfterSummary, AfterRetrieval, Iterate, FailPipeline, Emit, CommitExchange, FailTurn, Leave;
  }

  lemma LeavingEffect(r: Runtime, p: Activity)
    requires p.Pipeline?
    ensures var left := Leave(r, p);
      && left == r.(llmTokens := left.llmTokens, ttsTokens := left.ttsTokens, finalizing := left.finalizing)
      && p.turn !in left.llmTokens && p.turn !in left.ttsTokens
  {
    var dropped := LeavePipeline(r, p.turn);
    assert dropped == r.(llmTokens := dropped.llmTokens, ttsTokens := dropped.ttsTokens);
    if p.nested {
      assert Leave(r, p) == dropped.(finalizing := dropped.finalizing - {p.turn});
    }
  }

  lemma CancelledIsTerminal(r: Runtime, t: TurnId)
    requires Core(r) && t in r.context.cancelled
    ensures t in r.turns && r.turns[t].state.IsTerminal()
  {
  }

  /** A pipeline of a cancelled turn ends at the next thing it hears, whatever that is, without a trace: nothing
      admitted, nothing persisted, no turn touched, no exception. */
  lemma CancelledPipelineEnds(c: Config, s: System, id: TaskId, signal: Signal, fits: bool)
    requires SystemInv(s) && id in s.activities && s.activities[id].Pipeline?
    requires s.activities[id].turn in s.runtime.context.cancelled && Expects(s.activities[id].stage, signal)
    ensures var s' := Apply(c, s, Resume(id, signal, fits));
      && id !in s'.activities && OnlySaid(s, s', id, s.activities[id].turn, [])
      && s.activities[id].turn !in s'.runtime.llmTokens && s.activities[id].turn !in s'.runtime.ttsTokens
  {
    hide Core, ResumePipeline, ActivityOk, OnlyFailingRaises, Leave;
    CancelledIsTerminal(s.runtime, s.activities[id].turn);
    LeavingEffect(s.runtime, s.activities[id]);
    GoneEnds(c, s.runtime, s.activities[id], signal, fits);
  }

  /** An abandoned task leaves nothing behind and does nothing more: what its finally blocks release is released, no
      event is admitted, nothing is persisted, and no turn is touched. */
  lemma AbandoningOnlyCleansUp(c: Config, s: System, id: TaskId)
    requires id in s.activities
    ensures var a, r, s' := s.activities[id], s.runtime, Apply(c, s, Abandon(id));
      var r' := s'.runtime;
      && s'.activities == s.activities - {id} && s'.faults == s.faults && r'.activeTasks == r.activeTasks - {id}
      && r'.turns == r.turns && r'.current == r.current && r'.context == r.context && r'.running == r.running
      && r'.admitted == r.admitted && r'.ledger == r.ledger && r'.fired == r.fired
      && r'.sttQueues == r.sttQueues && r'.sttTasks == r.sttTasks && r'.sttTokens == r.sttTokens
      && r'.speechEnded == r.speechEnded
      && (if a.Pipeline? then r'.llmTokens == r.llmTokens - {a.turn} && r'.ttsTokens == r.ttsTokens - {a.turn}
          else r'.llmTokens == r.llmTokens && r'.ttsTokens == r.ttsTokens)
      && r'.finalizing
           == (if a.AwaitingStt? || (a.Pipeline? && a.nested) then r.finalizing - {a.turn} else r.finalizing)
  {
  }

  // ---- Starting ----

  /** Starting opens the session with one event, and does nothing to a runtime that is running. */
  lemma StartOpensTheSession(c: Config, s: System)
    requires SystemInv(s)
    ensures var s' := Apply(c, s, StartRuntime);
      && s'.activities == s.activities && s'.runtime.turns == s.runtime.turns && s'.runtime.ledger == s.runtime.ledger
      && (if s.runtime.running then s' == s
          else s'.runtime.running
               && s'.runtime.admitted == s.runtime.admitted + [Event(|s.runtime.admitted| + 1, None, SessionStarted)])
  {
    hide LedgerIsPaired, TurnsAreNumbered, InterruptedOnce, TokensAgree, ActivityOk, OnlyFailingRaises;
  }
}
