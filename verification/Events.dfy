/** Session events: a sequence number, the turn they belong to, and a payload that fixes their type. */
module Events {
  import opened Common
  import opened TurnLifecycle

  datatype Payload =
    | SessionStarted
    | SessionEnded(reason: string)
    | AudioFrame
    | UserSpeechStarted
    | UserSpeechEnded
    | TranscriptFrame(text: string, isFinal: bool)
    | LlmToken(delta: string)
    | LlmResponse(response: string)
    | TtsChunk(audioRef: string)
    | AgentInterrupted
    | ErrorRaised(code: string)
  {
    /** Output that must not surface once its turn has been cancelled. */
    predicate StaleIfTurnCancelled() {
      LlmToken? || LlmResponse? || TtsChunk? || AudioFrame? || TranscriptFrame?
    }
  }

  datatype Event = Event(sequence: nat, turn: Option<TurnId>, payload: Payload) {
    predicate IsStale(cancelled: set<TurnId>) {
      turn.Some? && payload.StaleIfTurnCancelled() && turn.value in cancelled
    }
  }

  /** Consecutive numbers starting at one or above. */
  predicate SequenceMonotonic(sequences: seq<int>) {
    && sequences != []
    && sequences[0] >= 1
    && forall i :: 0 <= i < |sequences| - 1 ==> sequences[i + 1] == sequences[i] + 1
  }

  predicate IsInterrupt(e: Event, t: TurnId) {
    e.turn == Some(t) && e.payload.AgentInterrupted?
  }

  /** How many interruptions of the turn the log holds. */
  function Interrupts(log: seq<Event>, t: TurnId): nat {
    if log == [] then 0
    else
      Interrupts(log[..|log| - 1], t) + if IsInterrupt(log[|log| - 1], t) then 1 else 0
  }

  lemma InterruptsAppend(log: seq<Event>, e: Event, t: TurnId)
    ensures Interrupts(log + [e], t) == Interrupts(log, t) + if IsInterrupt(e, t) then 1 else 0
  {
    assert (log + [e])[..|log|] == log;
  }
}
