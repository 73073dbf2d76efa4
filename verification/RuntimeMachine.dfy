/**
 * The runtime together with everything the event loop has suspended: one step runs one activity from a
 * suspension point to the next. A schedule is any list of steps, in any order.
 */
module RuntimeMachine {
  import opened Common
  import opened PyStrings
  import opened TurnLifecycle
  import opened Events
  import opened RuntimeSpec

  /** Where an assistant pipeline is suspended. */
  datatype Stage =
    | Summarizing
    | Retrieving
    | Recalling
    | Streaming(iteration: nat, text: string)
    | Executing(iteration: nat, remaining: nat)
    | Speaking(reply: string)

  datatype Activity =
    | Pipeline(turn: TurnId, userText: string, token: Token, nested: bool, stage: Stage)
    | AwaitingStt(turn: TurnId, task: TaskId)
    | SttStream(turn: TurnId, token: Token)
    | Gathering(reason: string, pending: set<TaskId>)

  /** Exceptions that leave a turn operation, by the operation that raised them. */
  datatype Fault =
    | WhileCompleting(error: RuntimeError)
    | WhileFailing(error: RuntimeError)
    | WhileCancelling(error: RuntimeError)

  datatype System = System(runtime: Runtime, activities: map<TaskId, Activity>, nextTask: TaskId, faults: seq<Fault>)

  /** An audio frame without data or without duration comes with no data here. */
  datatype Input =
    | TextInput(text: string)
    | SpeechStarted
    | SpeechEnded
    | AudioIn(data: Option<string>)
    | CancelInput(target: Option<TurnId>)
    | Shutdown
    | ErrorInput(code: string)

  /** What a suspended activity is resumed with. */
  datatype Signal =
    | Ready
    | Delta(delta: string)
    | StreamEnd(calls: nat)
    | Speech(audioRef: string)
    | SpeechEnd
    | Transcript(text: string, isFinal: bool)
    | TranscriptEnd
    | ProviderFailed(code: string)

  /** What one step leaves behind: the fields, the activity if it suspended again, and any exception. */
  datatype Outcome = Outcome(runtime: Runtime, next: Option<Activity>, faults: seq<Fault>)

  function Finished(r: Runtime): Outcome {
    Outcome(r, None, [])
  }

  // ---- Assistant pipeline ----

  /** The finally blocks a pipeline runs however it ends. */
  function Leave(r: Runtime, p: Activity): Runtime
    requires p.Pipeline?
  {
    var left := LeavePipeline(r, p.turn);
    if p.nested then LeaveFinalizer(left, p.turn) else left
  }

  function EndPipeline(r: Runtime, p: Activity): Outcome
    requires p.Pipeline?
  {
    Finished(Leave(r, p))
  }

  function FailPipeline(r: Runtime, p: Activity, code: string): Outcome
    requires p.Pipeline? && p.turn in r.turns
  {
    match FailTurn(r, p.turn, code)
    case Err(e) => Outcome(Leave(r, p), None, [WhileFailing(e)])
    case Ok(failed) => EndPipeline(failed, p)
  }

  function Suspend(r: Runtime, p: Activity, stage: Stage): Outcome
    requires p.Pipeline?
  {
    Outcome(r, Some(p.(stage := stage)), [])
  }

  /** Top of one tool-loop iteration; `fits` says whether the context assembler accepts the budget. */
  function Iterate(c: Config, r: Runtime, p: Activity, i: nat, fits: bool): Outcome
    requires p.Pipeline? && p.turn in r.turns
  {
    if i >= c.maxToolIterations then FailPipeline(r, p, "tool_loop_limit_exceeded")
    else if r.Gone(p.turn, p.token) then EndPipeline(r, p)
    else if !fits then FailPipeline(r, p, "context_budget_exceeded")
    else Suspend(r, p, Streaming(i, ""))
  }

  function AfterRetrieval(c: Config, r: Runtime, p: Activity, fits: bool): Outcome
    requires p.Pipeline? && p.turn in r.turns
  {
    if c.hasMemory then Suspend(r, p, Recalling) else Iterate(c, r, p, 0, fits)
  }

  function AfterSummary(c: Config, r: Runtime, p: Activity, fits: bool): Outcome
    requires p.Pipeline? && p.turn in r.turns
  {
    if c.hasRetriever then Suspend(r, p, Retrieving) else AfterRetrieval(c, r, p, fits)
  }

  function RunPipeline(c: Config, r: Runtime, t: TurnId, userText: string, nested: bool, fits: bool): Outcome
    requires t in r.turns
  {
    var (entered, token) := EnterPipeline(r, t);
    var p := Pipeline(t, userText, token, nested, Summarizing);
    if c.hasSummarizer then Outcome(entered, Some(p), []) else AfterSummary(c, entered, p, fits)
  }

  /** Tail of the pipeline: persist the exchange and complete the turn, with nothing in between. */
  function Commit(c: Config, r: Runtime, p: Activity, reply: string): Outcome
    requires p.Pipeline? && p.turn in r.turns
  {
    if r.turns[p.turn].state.IsTerminal() then EndPipeline(r, p)
    else
      match CommitExchange(c, r, p.turn, p.userText, reply)
      case Err(e) =>
        Outcome(Leave(PersistExchange(c, r, p.turn, p.userText, reply), p), None, [WhileCompleting(e)])
      case Ok(completed) => EndPipeline(completed, p)
  }

  function Respond(c: Config, r: Runtime, p: Activity, reply: string): Outcome
    requires p.Pipeline? && p.turn in r.turns
  {
    var emitted := Emit(r, Some(p.turn), LlmResponse(reply));
    if emitted.turns[p.turn].state.IsTerminal() then EndPipeline(emitted, p)
    else if c.hasTts then Suspend(emitted, p, Speaking(reply))
    else Commit(c, emitted, p, reply)
  }

  /** One resumption of a pipeline; a signal its stage does not expect leaves it suspended. */
  function ResumePipeline(c: Config, r: Runtime, p: Activity, signal: Signal, fits: bool): Outcome
    requires p.Pipeline? && p.turn in r.turns
  {
    var gone := r.Gone(p.turn, p.token);
    match p.stage
    case Summarizing =>
      if !signal.Ready? then Outcome(r, Some(p), [])
      else if gone then EndPipeline(r, p) else AfterSummary(c, r, p, fits)
    case Retrieving =>
      if !signal.Ready? then Outcome(r, Some(p), [])
      else if gone then EndPipeline(r, p) else AfterRetrieval(c, r, p, fits)
    case Recalling =>
      if !signal.Ready? then Outcome(r, Some(p), [])
      else if gone then EndPipeline(r, p) else Iterate(c, r, p, 0, fits)
    case Streaming(i, text) =>
      (match signal
       case Delta(delta) =>
         if gone then EndPipeline(r, p)
         else if delta == "" then Outcome(r, Some(p), [])
         else Suspend(Emit(r, Some(p.turn), LlmToken(delta)), p, Streaming(i, text + delta))
       case ProviderFailed(code) =>
         if gone then EndPipeline(r, p) else FailPipeline(r, p, code)
       case StreamEnd(calls) =>
         if gone then EndPipeline(r, p)
         else if calls == 0 then Respond(c, r, p, text)
         else Suspend(r, p, Executing(i, calls))
       case _ => Outcome(r, Some(p), []))
    case Executing(i, remaining) =>
      if !signal.Ready? then Outcome(r, Some(p), [])
      else if gone then EndPipeline(r, p)
      else if remaining > 1 then Suspend(r, p, Executing(i, remaining - 1))
      else Iterate(c, r, p, i + 1, fits)
    case Speaking(reply) =>
      (match signal
       case Speech(audioRef) =>
         if gone then Commit(c, r, p, reply)
         else Suspend(Emit(r, Some(p.turn), TtsChunk(audioRef)), p, p.stage)
       case SpeechEnd => Commit(c, r, p, reply)
       case ProviderFailed(code) =>
         if gone then Commit(c, r, p, reply)
         else (match FailTurn(r, p.turn, code)
           case Err(e) => Outcome(Leave(r, p), None, [WhileFailing(e)])
           case Ok(failed) => Commit(c, failed, p, reply))
       case _ => Outcome(r, Some(p), []))
  }

  // ---- Speech finalizer ----

  function CompleteAfterSpeech(r: Runtime, t: TurnId): Outcome
    requires t in r.turns
  {
    match CompleteTurn(r, t)
    case Err(e) => Outcome(LeaveFinalizer(r, t), None, [WhileCompleting(e)])
    case Ok(completed) => Finished(LeaveFinalizer(completed, t))
  }

  /** From the end of the speech-to-text task on. The guards are released before the pipeline runs. */
  function FinishSpeech(c: Config, r: Runtime, t: TurnId, fits: bool): Outcome
    requires t in r.turns
  {
    var cleaned := CleanupSpeech(r, t);
    if cleaned.turns[t].state.IsTerminal() then Finished(LeaveFinalizer(cleaned, t))
    else
      var transcript := FinalTranscript(cleaned.admitted, t);
      if transcript.Some? && Strip(transcript.value) != "" && c.hasLlm then
        RunPipeline(c, cleaned, t, Strip(transcript.value), true, fits)
      else CompleteAfterSpeech(cleaned, t)
  }

  /** `_finalize_speech_turn`, called by the activity `me`. */
  function FinalizeSpeech(c: Config, r: Runtime, t: TurnId, me: TaskId, fits: bool): Outcome
    requires t in r.turns
  {
    if r.turns[t].state.IsTerminal() || t in r.finalizing then Finished(r)
    else
      var announced := AnnounceSpeechEnd(r, t);
      if !c.hasStt then CompleteAfterSpeech(announced, t)
      else
        var queued := PutAudio(announced, t, EndOfAudio);
        if t in queued.sttTasks && queued.sttTasks[t] != me
        then Outcome(queued, Some(AwaitingStt(t, queued.sttTasks[t])), [])
        else FinishSpeech(c, queued, t, fits)
  }

  // ---- Speech-to-text task ----

  function ResumeStt(c: Config, r: Runtime, a: Activity, me: TaskId, signal: Signal, fits: bool): Outcome
    requires a.SttStream? && a.turn in r.turns
  {
    var gone := r.Gone(a.turn, a.token);
    match signal
    case Transcript(text, isFinal) =>
      if gone then Finished(r)
      else
        var emitted := Emit(r, Some(a.turn), TranscriptFrame(text, isFinal));
        if isFinal then FinalizeSpeech(c, emitted, a.turn, me, fits) else Outcome(emitted, Some(a), [])
    case TranscriptEnd =>
      if gone then Finished(r) else FinalizeSpeech(c, r, a.turn, me, fits)
    case ProviderFailed(code) =>
      if gone then Finished(r)
      else (match FailTurn(r, a.turn, code)
        case Err(e) => Outcome(r, None, [WhileFailing(e)])
        case Ok(failed) => Finished(failed))
    case _ => Outcome(r, Some(a), [])
  }

  // ---- Inputs ----

  /** What handling an input leaves behind, with the speech-to-text task it may have created. */
  datatype Handled = Handled(outcome: Outcome, spawned: Option<Activity>, error: Option<RuntimeError>)

  function Rejected(r: Runtime, e: RuntimeError): Handled {
    Handled(Finished(r), None, Some(e))
  }

  function Accepted(o: Outcome): Handled {
    Handled(o, None, None)
  }

  function HandleText(c: Config, r: Runtime, text: string, newTurn: TurnId, fits: bool): Handled {
    if Strip(text) == "" then Rejected(r, InvalidRuntimeInput)
    else match BeginTurn(r, newTurn)
      case Err(e) => Rejected(r, e)
      case Ok(begun) =>
        if c.hasLlm then Accepted(RunPipeline(c, begun, newTurn, Strip(text), false, fits))
        else (match CompleteTurn(begun, newTurn)
          case Err(e) => Handled(Outcome(begun, None, [WhileCompleting(e)]), None, Some(e))
          case Ok(done) => Accepted(Finished(done)))
  }

  function HandleSpeechStarted(c: Config, r: Runtime, newTurn: TurnId, sttTask: TaskId): Handled {
    match BeginTurn(r, newTurn)
    case Err(e) => Rejected(r, e)
    case Ok(begun) =>
      var announced := Emit(begun, Some(newTurn), UserSpeechStarted);
      if !c.hasStt then Accepted(Finished(announced))
      else
        var (listening, token) := OpenSpeech(announced, newTurn, sttTask);
        Handled(Finished(listening), Some(SttStream(newTurn, token)), None)
  }

  function HandleCancel(r: Runtime, target: Option<TurnId>): Handled {
    var chosen := if target.Some? then target else r.current;
    if chosen.None? then Rejected(r, InvalidRuntimeInput)
    else match CancelTurn(r, chosen.value)
      case Ok(cancelled) => Accepted(Finished(cancelled))
      case Err(e) =>
        if chosen.value in r.turns then Handled(Outcome(r, None, [WhileCancelling(e)]), None, Some(e))
        else Rejected(r, e)
  }

  function Stop(s: System, reason: string): Handled {
    var r := s.runtime;
    match StopBegin(r)
    case Err(e) => Handled(Outcome(r, None, [WhileCancelling(e)]), None, Some(e))
    case Ok(closing) =>
      var pending := closing.activeTasks * s.activities.Keys;
      if pending == {} then Accepted(Finished(StopFinish(closing, reason)))
      else Accepted(Outcome(closing, Some(Gathering(reason, pending)), []))
  }

  function HandleInput(c: Config, s: System, input: Input, newTurn: TurnId, fits: bool): Handled {
    var r := s.runtime;
    if !r.running then Rejected(r, RuntimeNotRunning)
    else if r.context.shutdown then Accepted(Finished(r))
    else match input
      case TextInput(text) => HandleText(c, r, text, newTurn, fits)
      case SpeechStarted => HandleSpeechStarted(c, r, newTurn, s.nextTask + 1)
      case SpeechEnded =>
        if !r.HasActiveTurn() then Rejected(r, InvalidRuntimeInput)
        else Accepted(FinalizeSpeech(c, r, r.current.value, s.nextTask, fits))
      case AudioIn(data) =>
        if data.None? then Rejected(r, InvalidRuntimeInput)
        else Accepted(Finished(if r.current.Some? then PutAudio(r, r.current.value, AudioData(data.value)) else r))
      case CancelInput(target) => HandleCancel(r, target)
      case Shutdown => Stop(s, "user_stop")
      case ErrorInput(code) =>
        (match HandleError(r, code)
         case Err(e) => Handled(Outcome(r, None, [WhileFailing(e)]), None, Some(e))
         case Ok(done) => Accepted(Finished(done)))
  }

  // ---- Steps and schedules ----

  datatype Label =
    | StartRuntime
    | StopRuntime(reason: string)
    | Deliver(input: Input, newTurn: TurnId, fits: bool)
    | Resume(task: TaskId, signal: Signal, fits: bool)
    | Abandon(task: TaskId)

  /** The task `id` has run up to `o`: it is suspended again or done. */
  function Settle(s: System, id: TaskId, o: Outcome): System {
    System(
      if o.next.Some? then o.runtime else o.runtime.(activeTasks := o.runtime.activeTasks - {id}),
      if o.next.Some? then s.activities[id := o.next.value] else s.activities - {id},
      s.nextTask,
      s.faults + o.faults)
  }

  /** A call into the runtime gets two unused task identities: its own and one it may spawn. */
  function Enter(s: System, h: Handled): System {
    var settled := Settle(s, s.nextTask, h.outcome);
    settled.(nextTask := s.nextTask + 2,
             activities := if h.spawned.Some? then settled.activities[s.nextTask + 1 := h.spawned.value]
                           else settled.activities)
  }

  function ResumeActivity(c: Config, s: System, id: TaskId, signal: Signal, fits: bool): Outcome
    requires id in s.activities
    requires s.activities[id].Gathering? || s.activities[id].turn in s.runtime.turns
  {
    var a := s.activities[id];
    match a
    case Pipeline(_, _, _, _, _) => ResumePipeline(c, s.runtime, a, signal, fits)
    case SttStream(_, _) => ResumeStt(c, s.runtime, a, id, signal, fits)
    case AwaitingStt(t, task) =>
      if signal.Ready? && task !in s.activities then FinishSpeech(c, s.runtime, t, fits)
      else Outcome(s.runtime, Some(a), [])
    case Gathering(reason, pending) =>
      if signal.Ready? && pending !! s.activities.Keys then Finished(StopFinish(s.runtime, reason))
      else Outcome(s.runtime, Some(a), [])
  }

  /** Cancellation or a foreign exception at a suspension point: only the finally blocks run. */
  function AbandonActivity(r: Runtime, a: Activity): Runtime {
    match a
    case Pipeline(_, _, _, _, _) => Leave(r, a)
    case AwaitingStt(t, _) => LeaveFinalizer(r, t)
    case _ => r
  }

  /** One step. A label that names nothing suspended, or an identity already in use, changes nothing. */
  function Apply(c: Config, s: System, l: Label): System {
    match l
    case StartRuntime => s.(runtime := Start(s.runtime))
    case StopRuntime(reason) => if s.runtime.running then Enter(s, Stop(s, reason)) else s
    case Deliver(input, newTurn, fits) =>
      if newTurn in s.runtime.turns then s else Enter(s, HandleInput(c, s, input, newTurn, fits))
    case Resume(task, signal, fits) =>
      if task !in s.activities then s
      else if !s.activities[task].Gathering? && s.activities[task].turn !in s.runtime.turns then s
      else Settle(s, task, ResumeActivity(c, s, task, signal, fits))
    case Abandon(task) =>
      if task !in s.activities then s
      else Settle(s, task, Finished(AbandonActivity(s.runtime, s.activities[task])))
  }

  const Initial := System(Idle, map[], 0, [])

  /** The state a schedule leads to. */
  function Run(c: Config, schedule: seq<Label>): System {
    if schedule == [] then Initial
    else Apply(c, Run(c, schedule[..|schedule| - 1]), schedule[|schedule| - 1])
  }
}
