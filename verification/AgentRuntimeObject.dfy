/**
 * The runtime as the object it is: fields updated in place and shared turn records. Every method is proved to
 * do to the fields exactly what its function in RuntimeSpec says.
 */
module AgentRuntimeObject {
  import opened Common
  import opened Conversation
  import opened TurnLifecycle
  import opened Events
  import opened RuntimeSpec

  class RuntimeContext {
    var sequence: nat
    var turnSequence: nat
    var cancelledTurnIds: set<TurnId>
    var shutdownRequested: bool

    function View(): Context
      reads this
    {
      Context(sequence, turnSequence, cancelledTurnIds, shutdownRequested)
    }

    constructor ()
      ensures View() == Idle.context
    {
      sequence, turnSequence, cancelledTurnIds, shutdownRequested := 0, 0, {}, false;
    }

    method NextEventSequence() returns (n: nat)
      modifies this`sequence
      ensures n == old(sequence) + 1 && sequence == n
    {
      sequence := sequence + 1;
      n := sequence;
    }

    method NextTurnSequence() returns (n: nat)
      modifies this`turnSequence
      ensures n == old(turnSequence) + 1 && turnSequence == n
    {
      turnSequence := turnSequence + 1;
      n := turnSequence;
    }

    method RequestShutdown()
      modifies this`shutdownRequested
      ensures shutdownRequested
    {
      shutdownRequested := true;
    }

    method CancelTurn(t: TurnId)
      modifies this`cancelledTurnIds
      ensures cancelledTurnIds == old(cancelledTurnIds) + {t}
    {
      cancelledTurnIds := cancelledTurnIds + {t};
    }
  }

  method MakeEvent(context: RuntimeContext, turn: Option<TurnId>, payload: Payload) returns (e: Event)
    modifies context`sequence
    ensures (context.View(), e) == BuildEvent(old(context.View()), turn, payload)
  {
    var n := context.NextEventSequence();
    e := Event(n, turn, payload);
  }

  ghost function TurnViews(turns: map<TurnId, RuntimeTurn>): (m: map<TurnId, Turn>)
    reads turns.Values
  {
    map t | t in turns :: turns[t].View()
  }

  /** Each record is filed under its own identity, so no two keys share a record. */
  ghost predicate Filed(turns: map<TurnId, RuntimeTurn>) {
    forall t :: t in turns ==> turns[t].id == t
  }

  ghost predicate Holds(turns: map<TurnId, RuntimeTurn>, turn: RuntimeTurn) {
    turn.id in turns && turns[turn.id] == turn
  }

  class AgentRuntime {
    const config: Config
    const context: RuntimeContext
    var running: bool
    var turns: map<TurnId, RuntimeTurn>
    var currentTurnId: Option<TurnId>
    var admittedEvents: seq<Event>
    var llmCancelTokens: map<TurnId, Token>
    var ttsCancelTokens: map<TurnId, Token>
    var sttCancelTokens: map<TurnId, Token>
    var firedTokens: set<Token>
    var tokenCount: nat
    var sttAudioQueues: map<TurnId, seq<AudioItem>>
    var sttTasks: map<TurnId, TaskId>
    var activeTasks: set<TaskId>
    var finalizingTurns: set<TurnId>
    var speechEndedTurnIds: set<TurnId>
    var ledger: seq<Message>

    ghost predicate Valid()
      reads this`turns
    {
      Filed(turns)
    }

    ghost function View(): Runtime
      reads this, context, turns.Values
    {
      Runtime(running, context.View(), TurnViews(turns), currentTurnId, admittedEvents,
              llmCancelTokens, ttsCancelTokens, sttCancelTokens, firedTokens, tokenCount,
              sttAudioQueues, sttTasks, activeTasks, finalizingTurns, speechEndedTurnIds, ledger)
    }

    constructor (config: Config)
      ensures Valid() && View() == Idle && this.config == config
    {
      this.config := config;
      context := new RuntimeContext();
      running := false;
      turns := map[];
      currentTurnId := None;
      admittedEvents := [];
      llmCancelTokens, ttsCancelTokens, sttCancelTokens := map[], map[], map[];
      firedTokens, tokenCount := {}, 0;
      sttAudioQueues, sttTasks, activeTasks := map[], map[], {};
      finalizingTurns, speechEndedTurnIds := {}, {};
      ledger := [];
    }

    method AdmitEvent(e: Event) returns (admitted: bool)
      requires Valid()
      modifies this`admittedEvents
      ensures Valid() && View() == RuntimeSpec.AdmitEvent(old(View()), e)
      ensures admitted <==> !e.IsStale(old(context.cancelledTurnIds))
    {
      if e.IsStale(context.cancelledTurnIds) {
        return false;
      }
      admittedEvents := admittedEvents + [e];
      return true;
    }

    method Emit(turn: Option<TurnId>, payload: Payload)
      requires Valid()
      modifies this`admittedEvents, context`sequence
      ensures Valid() && View() == RuntimeSpec.Emit(old(View()), turn, payload)
    {
      var e := MakeEvent(context, turn, payload);
      var _ := AdmitEvent(e);
    }

    method Start()
      requires Valid()
      modifies this`running, this`admittedEvents, context`sequence
      ensures Valid() && View() == RuntimeSpec.Start(old(View()))
    {
      if running {
        return;
      }
      running := true;
      Emit(None, SessionStarted);
    }

    method HasActiveTurn() returns (active: bool)
      ensures active <==> View().HasActiveTurn()
    {
      active := currentTurnId.Some? && currentTurnId.value in turns
        && !turns[currentTurnId.value].state.IsTerminal();
    }

    method FileNewTurn(newTurn: TurnId) returns (turn: RuntimeTurn)
      requires Valid() && newTurn !in turns
      modifies this`turns, this`currentTurnId, context`turnSequence
      ensures Valid() && fresh(turn) && turns == old(turns)[newTurn := turn]
      ensures var n := old(context.turnSequence) + 1;
        && context.View() == old(context.View()).(turnSequence := n)
        && TurnViews(turns) == old(TurnViews(turns))[newTurn := NewTurn.(sequence := n, state := Active)]
        && currentTurnId == Some(newTurn)
    {
      var n := context.NextTurnSequence();
      turn := new RuntimeTurn(newTurn, n);
      var _ := turn.Activate();
      assert turn.View() == NewTurn.(sequence := n, state := Active);
      assert TurnViews(turns) == old(TurnViews(turns));
      turns := turns[newTurn := turn];
      currentTurnId := Some(newTurn);
    }

    method BeginTurn(newTurn: TurnId) returns (r: Result<RuntimeTurn, RuntimeError>)
      requires Valid() && newTurn !in turns
      modifies this`turns, this`currentTurnId, context`turnSequence
      ensures Valid()
      ensures match RuntimeSpec.BeginTurn(old(View()), newTurn)
        case Err(e) => r == Err(e) && View() == old(View())
        case Ok(after) => r.Ok? && fresh(r.value) && turns == old(turns)[newTurn := r.value] && View() == after
    {
      hide Runtime.HasActiveTurn;
      var active := HasActiveTurn();
      if active {
        return Err(InvalidRuntimeInput);
      }
      var turn := FileNewTurn(newTurn);
      return Ok(turn);
    }

    /** Moving one record changes the view of its own turn only. */
    twostate lemma OnlyThisTurn(turn: RuntimeTurn)
      requires Valid() && Holds(turns, turn) && turns == old(turns)
      requires forall o :: o in turns.Values && o != turn ==> unchanged(o)
      ensures TurnViews(turns) == old(TurnViews(turns))[turn.id := turn.View()]
    {
      forall t | t in turns
        ensures TurnViews(turns)[t] == old(TurnViews(turns))[turn.id := turn.View()][t]
      {
        if t != turn.id {
          assert turns[t] in turns.Values && turns[t] != turn;
        }
      }
    }

    method ClearCurrent(t: TurnId)
      requires Valid()
      modifies this`currentTurnId
      ensures Valid() && View() == RuntimeSpec.ClearCurrent(old(View()), t)
    {
      if currentTurnId == Some(t) {
        currentTurnId := None;
      }
    }

    method CompleteTurn(turn: RuntimeTurn) returns (error: Option<RuntimeError>)
      requires Valid() && Holds(turns, turn)
      modifies this`currentTurnId, turn
      ensures Valid()
      ensures match RuntimeSpec.CompleteTurn(old(View()), turn.id)
        case Err(e) => error == Some(e) && View() == old(View())
        case Ok(after) => error == None && View() == after
    {
      if turn.state.IsTerminal() {
        return Some(InvalidStateTransition);
      }
      if turn.id in context.cancelledTurnIds {
        return Some(StaleTurnEvent);
      }
      error := turn.Complete();
      OnlyThisTurn(turn);
      if error.None? {
        ClearCurrent(turn.id);
      }
    }

    /** Fires whatever tokens are registered for the turn, in the order the runtime looks them up. */
    method FireTokens(t: TurnId)
      modifies this`firedTokens
      ensures firedTokens == old(firedTokens) + old(TokensOf(View(), t))
    {
      if t in llmCancelTokens {
        firedTokens := firedTokens + {llmCancelTokens[t]};
      }
      if t in sttCancelTokens {
        firedTokens := firedTokens + {sttCancelTokens[t]};
      }
      if t in ttsCancelTokens {
        firedTokens := firedTokens + {ttsCancelTokens[t]};
      }
    }

    method MarkTurn(t: TurnId)
      requires Valid()
      modifies this`firedTokens, context`cancelledTurnIds
      ensures Valid() && View() == MarkCancelled(old(View()), t)
    {
      hide TurnViews, Filed;
      FireTokens(t);
      context.CancelTurn(t);
    }

    method CancelTurn(t: TurnId) returns (error: Option<RuntimeError>)
      requires Valid()
      modifies this`currentTurnId, this`firedTokens, this`admittedEvents, context, turns.Values
      ensures Valid() && turns == old(turns)
      ensures match RuntimeSpec.CancelTurn(old(View()), t)
        case Err(e) => error == Some(e) && View() == if t in turns then MarkCancelled(old(View()), t) else old(View())
        case Ok(after) => error == None && View() == after
    {
      hide RuntimeSpec.Emit, RuntimeSpec.ClearCurrent, TokensOf;
      if t !in turns {
        return Some(InvalidRuntimeInput);
      }
      var turn := turns[t];
      if turn.state.IsTerminal() {
        return None;
      }
      MarkTurn(t);
      error := turn.Cancel();
      OnlyThisTurn(turn);
      if error.None? {
        Emit(Some(t), AgentInterrupted);
        ClearCurrent(t);
      }
    }

    /** The shape shared by the provider, budget and tool-loop failures of a turn. */
    method FailTurn(turn: RuntimeTurn, code: string) returns (error: Option<RuntimeError>)
      requires Valid() && Holds(turns, turn)
      modifies this`currentTurnId, this`admittedEvents, context`sequence, turn
      ensures Valid()
      ensures match RuntimeSpec.FailTurn(old(View()), turn.id, code)
        case Err(e) => error == Some(e) && View() == old(View())
        case Ok(after) => error == None && View() == after
    {
      hide RuntimeSpec.Emit, RuntimeSpec.ClearCurrent;
      error := turn.Fail(code);
      OnlyThisTurn(turn);
      if error.None? {
        Emit(Some(turn.id), ErrorRaised(code));
        ClearCurrent(turn.id);
      }
    }

    method HandleError(code: string) returns (error: Option<RuntimeError>)
      requires Valid()
      modifies this`currentTurnId, this`admittedEvents, context, turns.Values
      ensures Valid()
      ensures match RuntimeSpec.HandleError(old(View()), code)
        case Err(e) => error == Some(e) && View() == old(View())
        case Ok(after) => error == None && View() == after
    {
      hide RuntimeSpec.Emit, RuntimeSpec.ClearCurrent;
      var active := HasActiveTurn();
      if active {
        var turn := turns[currentTurnId.value];
        error := FailAndMark(turn, code);
        if error.None? {
          Emit(Some(turn.id), ErrorRaised(code));
          ClearCurrent(turn.id);
        }
      } else {
        Emit(None, ErrorRaised(code));
        error := None;
      }
    }

    /** Fails a turn and, when that is allowed, marks its identity as cancelled. */
    method FailAndMark(turn: RuntimeTurn, code: string) returns (error: Option<RuntimeError>)
      requires Valid() && Holds(turns, turn)
      modifies context`cancelledTurnIds, turn
      ensures Valid()
      ensures match old(View()).turns[turn.id].Fail(code)
        case Err(e) => error == Some(e) && View() == old(View())
        case Ok(failed) =>
          && error == None
          && View() == old(View()).(turns := old(View()).turns[turn.id := failed],
                                    context := old(context.View()).(
                                      cancelled := old(context.cancelledTurnIds) + {turn.id}))
    {
      error := turn.Fail(code);
      OnlyThisTurn(turn);
      if error.None? {
        context.CancelTurn(turn.id);
      }
    }

    method PersistTurnExchange(t: TurnId, userText: string, assistantText: string)
      requires Valid()
      modifies this`ledger
      ensures Valid() && View() == PersistExchange(config, old(View()), t, userText, assistantText)
    {
      if !config.hasLedger {
        return;
      }
      if t in context.cancelledTurnIds {
        return;
      }
      var n := |ledger|;
      var user := TextEntry(n, t, User, userText);
      var assistant := TextEntry(n + 1, t, Assistant, assistantText);
      ledger := AppendMessage(ledger, user);
      ledger := AppendMessage(ledger, assistant);
    }

    /** Persisting and completing with nothing in between, as the tail of the assistant pipeline does. */
    method CommitExchange(turn: RuntimeTurn, userText: string, assistantText: string)
        returns (error: Option<RuntimeError>)
      requires Valid() && Holds(turns, turn)
      modifies this`ledger, this`currentTurnId, turn
      ensures Valid()
      ensures match RuntimeSpec.CommitExchange(config, old(View()), turn.id, userText, assistantText)
        case Err(e) =>
          && error == Some(e)
          && View() == PersistExchange(config, old(View()), turn.id, userText, assistantText)
        case Ok(after) => error == None && View() == after
    {
      PersistTurnExchange(turn.id, userText, assistantText);
      error := CompleteTurn(turn);
    }

    method MintToken(t: TurnId) returns (token: Token)
      requires Valid()
      modifies this`tokenCount
      ensures Valid() && (View(), token) == NewToken(old(View()), t)
    {
      token := Token(t, tokenCount);
      tokenCount := tokenCount + 1;
    }

    method EnterPipeline(t: TurnId) returns (token: Token)
      requires Valid()
      modifies this`llmCancelTokens, this`ttsCancelTokens, this`tokenCount
      ensures Valid() && View() == RuntimeSpec.EnterPipeline(old(View()), t).0
      ensures token == RuntimeSpec.EnterPipeline(old(View()), t).1
    {
      token := MintToken(t);
      llmCancelTokens := llmCancelTokens[t := token];
      ttsCancelTokens := ttsCancelTokens[t := token];
    }

    method LeavePipeline(t: TurnId)
      requires Valid()
      modifies this`llmCancelTokens, this`ttsCancelTokens
      ensures Valid() && View() == RuntimeSpec.LeavePipeline(old(View()), t)
    {
      llmCancelTokens := llmCancelTokens - {t};
      ttsCancelTokens := ttsCancelTokens - {t};
    }

    method OpenSpeech(t: TurnId, task: TaskId) returns (token: Token)
      requires Valid()
      modifies this`sttAudioQueues, this`sttCancelTokens, this`tokenCount, this`activeTasks, this`sttTasks
      ensures Valid() && View() == RuntimeSpec.OpenSpeech(old(View()), t, task).0
      ensures token == RuntimeSpec.OpenSpeech(old(View()), t, task).1
    {
      hide TurnViews, Filed;
      token := MintToken(t);
      sttAudioQueues := sttAudioQueues[t := []];
      sttCancelTokens := sttCancelTokens[t := token];
      RegisterTask(t, task);
    }

    method RegisterTask(t: TurnId, task: TaskId)
      requires Valid()
      modifies this`activeTasks, this`sttTasks
      ensures Valid()
      ensures View() == old(View()).(activeTasks := old(activeTasks) + {task}, sttTasks := old(sttTasks)[t := task])
    {
      hide TurnViews, Filed;
      activeTasks := activeTasks + {task};
      sttTasks := sttTasks[t := task];
    }

    method CleanupSttTurn(t: TurnId)
      requires Valid()
      modifies this`sttAudioQueues, this`sttTasks, this`sttCancelTokens, this`finalizingTurns, this`speechEndedTurnIds
      ensures Valid() && View() == CleanupSpeech(old(View()), t)
    {
      hide TurnViews, Filed;
      DropStream(t);
      DropGuards(t);
    }

    method DropStream(t: TurnId)
      requires Valid()
      modifies this`sttAudioQueues, this`sttTasks, this`sttCancelTokens
      ensures Valid()
      ensures View() == old(View()).(sttQueues := old(sttAudioQueues) - {t}, sttTasks := old(sttTasks) - {t},
                                     sttTokens := old(sttCancelTokens) - {t})
    {
      hide TurnViews, Filed;
      sttAudioQueues, sttTasks, sttCancelTokens := sttAudioQueues - {t}, sttTasks - {t}, sttCancelTokens - {t};
    }

    method DropGuards(t: TurnId)
      requires Valid()
      modifies this`finalizingTurns, this`speechEndedTurnIds
      ensures Valid()
      ensures View() == old(View()).(finalizing := old(finalizingTurns) - {t},
                                     speechEnded := old(speechEndedTurnIds) - {t})
    {
      hide TurnViews, Filed;
      finalizingTurns, speechEndedTurnIds := finalizingTurns - {t}, speechEndedTurnIds - {t};
    }

    method AnnounceSpeechEnd(t: TurnId)
      requires Valid()
      modifies this`finalizingTurns, this`speechEndedTurnIds, this`admittedEvents, context`sequence
      ensures Valid() && View() == RuntimeSpec.AnnounceSpeechEnd(old(View()), t)
    {
      hide RuntimeSpec.Emit, TurnViews, Filed;
      finalizingTurns := finalizingTurns + {t};
      if t !in speechEndedTurnIds {
        speechEndedTurnIds := speechEndedTurnIds + {t};
        Emit(Some(t), UserSpeechEnded);
      }
    }

    method PutAudio(t: TurnId, item: AudioItem)
      requires Valid()
      modifies this`sttAudioQueues
      ensures Valid() && View() == RuntimeSpec.PutAudio(old(View()), t, item)
    {
      if t in sttAudioQueues {
        sttAudioQueues := sttAudioQueues[t := sttAudioQueues[t] + [item]];
      }
    }

    /** The forward scan that keeps overwriting its answer. */
    method FinalTranscriptForTurn(t: TurnId) returns (finalText: Option<string>)
      ensures finalText == FinalTranscript(admittedEvents, t)
    {
      finalText := None;
      for i := 0 to |admittedEvents|
        invariant finalText == FinalTranscript(admittedEvents[..i], t)
      {
        var e := admittedEvents[i];
        assert admittedEvents[..i + 1][..i] == admittedEvents[..i];
        if e.turn == Some(t) && e.payload.TranscriptFrame? {
          if e.payload.isFinal {
            finalText := Some(e.payload.text);
          }
        }
      }
      assert admittedEvents[..|admittedEvents|] == admittedEvents;
    }

    method StopBegin() returns (error: Option<RuntimeError>)
      requires Valid()
      modifies this`currentTurnId, this`firedTokens, this`admittedEvents, context, turns.Values
      ensures Valid()
      ensures match RuntimeSpec.StopBegin(old(View()))
        case Err(e) =>
          && error == Some(e) && old(currentTurnId).Some?
          && View() == MarkCancelled(old(View()).(context := old(context.View()).(shutdown := true)),
                                     old(currentTurnId).value)
        case Ok(after) => error == None && View() == after
    {
      hide RuntimeSpec.CancelTurn;
      context.RequestShutdown();
      error := None;
      var active := HasActiveTurn();
      if active {
        error := CancelTurn(currentTurnId.value);
      }
    }

    method StopFinish(reason: string)
      requires Valid()
      modifies this`running, this`currentTurnId, this`admittedEvents, context`sequence
      ensures Valid() && View() == RuntimeSpec.StopFinish(old(View()), reason)
    {
      Emit(None, SessionEnded(reason));
      running := false;
      currentTurnId := None;
    }
  }
}
