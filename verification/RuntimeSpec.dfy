/** The fields of the agent runtime as one value, and each uninterrupted piece of its code as a function on it. */
module RuntimeSpec {
  import opened Common
  import opened PyStrings
  import opened Conversation
  import opened TurnLifecycle
  import opened Events

  type TaskId = nat

  /** What is wired in when the runtime is built. */
  datatype Config = Config(
    hasLlm: bool, hasStt: bool, hasTts: bool, hasLedger: bool,
    hasSummarizer: bool, hasRetriever: bool, hasMemory: bool, maxToolIterations: int)

  /** A cancellation token, by identity; the turn it was made for is part of its identity. */
  datatype Token = Token(turn: TurnId, serial: nat)

  datatype AudioItem = AudioData(data: string) | EndOfAudio

  datatype Context = Context(
    sequence: nat, turnSequence: nat, cancelled: set<TurnId>, shutdown: bool)

  datatype Runtime = Runtime(
    running: bool,
    context: Context,
    turns: map<TurnId, Turn>,
    current: Option<TurnId>,
    admitted: seq<Event>,
    llmTokens: map<TurnId, Token>,
    ttsTokens: map<TurnId, Token>,
    sttTokens: map<TurnId, Token>,
    fired: set<Token>,
    tokenCount: nat,
    sttQueues: map<TurnId, seq<AudioItem>>,
    sttTasks: map<TurnId, TaskId>,
    activeTasks: set<TaskId>,
    finalizing: set<TurnId>,
    speechEnded: set<TurnId>,
    ledger: seq<Message>)
  {
    predicate IsActive(t: TurnId) {
      t in turns && !turns[t].state.IsTerminal()
    }

    /** The current turn, when it can still change. */
    predicate HasActiveTurn() {
      current.Some? && IsActive(current.value)
    }

    /** `cancel.cancelled or is_turn_cancelled(turn.id)`. */
    predicate Gone(t: TurnId, token: Token) {
      token in fired || t in context.cancelled
    }
  }

  const Idle := Runtime(
    false, Context(0, 0, {}, false), map[], None, [], map[], map[], map[], {}, 0, map[], map[], {}, {}, {}, [])

  /** Every built event takes the next sequence number, whether or not it is admitted later. */
  function BuildEvent(context: Context, turn: Option<TurnId>, payload: Payload): (Context, Event) {
    (context.(sequence := context.sequence + 1), Event(context.sequence + 1, turn, payload))
  }

  function AdmitEvent(r: Runtime, e: Event): Runtime {
    if e.IsStale(r.context.cancelled) then r else r.(admitted := r.admitted + [e])
  }

  function Emit(r: Runtime, turn: Option<TurnId>, payload: Payload): Runtime {
    var (context, e) := BuildEvent(r.context, turn, payload);
    AdmitEvent(r.(context := context), e)
  }

  function ClearCurrent(r: Runtime, t: TurnId): Runtime {
    if r.current == Some(t) then r.(current := None) else r
  }

  function Start(r: Runtime): Runtime {
    if r.running then r else Emit(r.(running := true), None, SessionStarted)
  }

  function BeginTurn(r: Runtime, newTurn: TurnId): Result<Runtime, RuntimeError> {
    if r.HasActiveTurn() then Err(InvalidRuntimeInput)
    else
      var n := r.context.turnSequence + 1;
      Ok(r.(context := r.context.(turnSequence := n),
            turns := r.turns[newTurn := NewTurn.(sequence := n, state := Active)],
            current := Some(newTurn)))
  }

  function CompleteTurn(r: Runtime, t: TurnId): Result<Runtime, RuntimeError>
    requires t in r.turns
  {
    if r.turns[t].state.IsTerminal() then Err(InvalidStateTransition)
    else if t in r.context.cancelled then Err(StaleTurnEvent)
    else match r.turns[t].Complete()
      case Err(e) => Err(e)
      case Ok(turn) => Ok(ClearCurrent(r.(turns := r.turns[t := turn]), t))
  }

  function TokensOf(r: Runtime, t: TurnId): set<Token> {
    (if t in r.llmTokens then {r.llmTokens[t]} else {})
    + (if t in r.sttTokens then {r.sttTokens[t]} else {})
    + (if t in r.ttsTokens then {r.ttsTokens[t]} else {})
  }

  /** The tokens of the turn fired and its identity in the cancelled set, before the turn itself moves. */
  function MarkCancelled(r: Runtime, t: TurnId): Runtime {
    r.(fired := r.fired + TokensOf(r, t), context := r.context.(cancelled := r.context.cancelled + {t}))
  }

  function CancelTurn(r: Runtime, t: TurnId): Result<Runtime, RuntimeError> {
    if t !in r.turns then Err(InvalidRuntimeInput)
    else if r.turns[t].state.IsTerminal() then Ok(r)
    else
      var marked := MarkCancelled(r, t);
      match r.turns[t].Cancel()
      case Err(e) => Err(e)
      case Ok(turn) =>
        Ok(ClearCurrent(Emit(marked.(turns := r.turns[t := turn]), Some(t), AgentInterrupted), t))
  }

  /** A provider or budget failure: the turn fails, an error event follows, the turn stops being current. */
  function FailTurn(r: Runtime, t: TurnId, code: string): Result<Runtime, RuntimeError>
    requires t in r.turns
  {
    match r.turns[t].Fail(code)
    case Err(e) => Err(e)
    case Ok(turn) =>
      Ok(ClearCurrent(Emit(r.(turns := r.turns[t := turn]), Some(t), ErrorRaised(code)), t))
  }

  /** An ERROR input also puts the turn it fails into the cancelled set, before its event is built. */
  function HandleError(r: Runtime, code: string): Result<Runtime, RuntimeError> {
    if r.HasActiveTurn() then
      var t := r.current.value;
      match r.turns[t].Fail(code)
      case Err(e) => Err(e)
      case Ok(turn) =>
        var marked := r.(turns := r.turns[t := turn],
                         context := r.context.(cancelled := r.context.cancelled + {t}));
        Ok(ClearCurrent(Emit(marked, Some(t), ErrorRaised(code)), t))
    else Ok(Emit(r, None, ErrorRaised(code)))
  }

  function PersistExchange(c: Config, r: Runtime, t: TurnId, userText: string, reply: string): Runtime {
    if !c.hasLedger || t in r.context.cancelled then r
    else
      var n := |r.ledger|;
      r.(ledger := AppendMessage(AppendMessage(r.ledger, TextEntry(n, t, User, userText)),
                                 TextEntry(n + 1, t, Assistant, reply)))
  }

  /** The end of a pipeline that succeeded: nothing runs between persisting and completing. */
  function CommitExchange(c: Config, r: Runtime, t: TurnId, userText: string, reply: string)
      : Result<Runtime, RuntimeError>
    requires t in r.turns
  {
    CompleteTurn(PersistExchange(c, r, t, userText, reply), t)
  }

  function NewToken(r: Runtime, t: TurnId): (Runtime, Token) {
    (r.(tokenCount := r.tokenCount + 1), Token(t, r.tokenCount))
  }

  /** Head of the assistant pipeline: one token registered for both streams. */
  function EnterPipeline(r: Runtime, t: TurnId): (Runtime, Token) {
    var (r1, token) := NewToken(r, t);
    (r1.(llmTokens := r1.llmTokens[t := token], ttsTokens := r1.ttsTokens[t := token]), token)
  }

  /** Its finally block drops whatever token the turn has, which need not be the one it registered. */
  function LeavePipeline(r: Runtime, t: TurnId): Runtime {
    r.(llmTokens := r.llmTokens - {t}, ttsTokens := r.ttsTokens - {t})
  }

  function OpenSpeech(r: Runtime, t: TurnId, task: TaskId): (Runtime, Token) {
    var (r1, token) := NewToken(r, t);
    (r1.(sttQueues := r1.sttQueues[t := []], sttTokens := r1.sttTokens[t := token],
         sttTasks := r1.sttTasks[t := task], activeTasks := r1.activeTasks + {task}), token)
  }

  function CleanupSpeech(r: Runtime, t: TurnId): Runtime {
    r.(sttQueues := r.sttQueues - {t}, sttTasks := r.sttTasks - {t}, sttTokens := r.sttTokens - {t},
       finalizing := r.finalizing - {t}, speechEnded := r.speechEnded - {t})
  }

  function LeaveFinalizer(r: Runtime, t: TurnId): Runtime {
    r.(finalizing := r.finalizing - {t})
  }

  /** The finalizer up to the point where it has announced the end of speech. */
  function AnnounceSpeechEnd(r: Runtime, t: TurnId): Runtime {
    var guarded := r.(finalizing := r.finalizing + {t});
    if t in r.speechEnded then guarded
    else Emit(guarded.(speechEnded := r.speechEnded + {t}), Some(t), UserSpeechEnded)
  }

  function PutAudio(r: Runtime, t: TurnId, item: AudioItem): Runtime {
    if t in r.sttQueues then r.(sttQueues := r.sttQueues[t := r.sttQueues[t] + [item]]) else r
  }

  predicate IsFinalTranscript(e: Event, t: TurnId) {
    e.turn == Some(t) && e.payload.TranscriptFrame? && e.payload.isFinal
  }

  /** The text of the turn's last final transcript in the log. */
  function FinalTranscript(log: seq<Event>, t: TurnId): Option<string> {
    if log == [] then None
    else
      var last := log[|log| - 1];
      if IsFinalTranscript(last, t) then Some(last.payload.text) else FinalTranscript(log[..|log| - 1], t)
  }

  function StopBegin(r: Runtime): Result<Runtime, RuntimeError> {
    var closing := r.(context := r.context.(shutdown := true));
    if closing.HasActiveTurn() then CancelTurn(closing, closing.current.value) else Ok(closing)
  }

  function StopFinish(r: Runtime, reason: string): Runtime {
    Emit(r, None, SessionEnded(reason)).(running := false, current := None)
  }
}
