/** The media bridge: transport events turned into runtime inputs, and TTS chunks turned into output frames. */
module Bridge {
  import opened Common
  import opened TurnLifecycle
  import opened Events
  import opened RuntimeSpec
  import opened RuntimeMachine
  import opened RuntimeInvariants
  import opened ScheduleSafety
  import opened FaultTheorems

  predicate VoiceInputEnabled(c: Config, r: Runtime) {
    r.running && !r.context.shutdown && c.hasStt
  }

  /** What a transport reports; any participant may report any of them at any time. */
  datatype TransportEvent =
    | InputStarted
    | InputEnded
    | FrameReceived(data: string)
    | TransportFailed(code: string)

  /** A handler stops at the first exception that handle_input raises. */
  datatype Handling = Handling(system: System, error: Option<RuntimeError>)

  function Call(c: Config, s: System, input: Input, newTurn: TurnId, fits: bool): Handling {
    var h := HandleInput(c, s, input, newTurn, fits);
    Handling(Enter(s, h), h.error)
  }

  function OnInputStarted(c: Config, s: System, newTurn: TurnId, fits: bool): Handling {
    if !VoiceInputEnabled(c, s.runtime) then Handling(s, None)
    else
      var cancelled :=
        if s.runtime.HasActiveTurn() then Call(c, s, CancelInput(s.runtime.current), newTurn, fits)
        else Handling(s, None);
      if cancelled.error.Some? then cancelled
      else Call(c, cancelled.system, SpeechStarted, newTurn, fits)
  }

  function OnInputEnded(c: Config, s: System, newTurn: TurnId, fits: bool): Handling {
    if !VoiceInputEnabled(c, s.runtime) || !s.runtime.HasActiveTurn() then Handling(s, None)
    else Call(c, s, SpeechEnded, newTurn, fits)
  }

  function OnFrame(c: Config, s: System, data: string, newTurn: TurnId, fits: bool): Handling {
    if !VoiceInputEnabled(c, s.runtime) then Handling(s, None)
    else
      var begun :=
        if s.runtime.HasActiveTurn() then Handling(s, None) else Call(c, s, SpeechStarted, newTurn, fits);
      if begun.error.Some? || !begun.system.runtime.HasActiveTurn() then begun
      else Call(c, begun.system, AudioIn(Some(data)), newTurn, fits)
  }

  function OnTransport(c: Config, s: System, e: TransportEvent, newTurn: TurnId, fits: bool): Handling {
    match e
    case InputStarted => OnInputStarted(c, s, newTurn, fits)
    case InputEnded => OnInputEnded(c, s, newTurn, fits)
    case FrameReceived(data) => OnFrame(c, s, data, newTurn, fits)
    case TransportFailed(code) =>
      if s.runtime.running then Call(c, s, ErrorInput(code), newTurn, fits) else Handling(s, None)
  }

  /** Steps of the runtime and transport events in any order. */
  datatype Step = Internal(inner: Label) | Transport(event: TransportEvent, newTurn: TurnId, fits: bool)

  function Advance(c: Config, s: System, step: Step): System {
    match step
    case Internal(l) => Apply(c, s, l)
    case Transport(e, newTurn, fits) =>
      if newTurn in s.runtime.turns then s else OnTransport(c, s, e, newTurn, fits).system
  }

  function RunSteps(c: Config, steps: seq<Step>): System {
    if steps == [] then Initial else Advance(c, RunSteps(c, steps[..|steps| - 1]), steps[|steps| - 1])
  }

  lemma CallOk(c: Config, s: System, input: Input, newTurn: TurnId, fits: bool)
    requires SystemInv(s) && newTurn !in s.runtime.turns
    ensures SystemInv(Call(c, s, input, newTurn, fits).system)
    ensures Leads(s.runtime, Call(c, s, input, newTurn, fits).system.runtime)
    ensures Call(c, s, input, newTurn, fits).system.faults == s.faults
  {
    hide SystemInv, HandledOk, Leads, HandleInput;
    HandlingRaisesNothing(c, s, input, newTurn, fits);
    HandleInputOk(c, s, input, newTurn, fits);
    EnterOk(s, HandleInput(c, s, input, newTurn, fits));
  }

  lemma CancelCallEffect(c: Config, s: System, t: TurnId, after: Runtime, newTurn: TurnId, fits: bool)
    requires VoiceInputEnabled(c, s.runtime) && CancelTurn(s.runtime, t) == Ok(after)
    ensures var h := Call(c, s, CancelInput(Some(t)), newTurn, fits);
      && h.error.None?
      && h.system.runtime == after.(activeTasks := after.activeTasks - {s.nextTask})
  {
    hide CancelTurn;
  }

  /** Cancelling the current turn is never rejected and leaves it CANCELLED with no turn current. */
  lemma CancellingCurrent(c: Config, s: System, newTurn: TurnId, fits: bool)
    requires SystemInv(s) && VoiceInputEnabled(c, s.runtime) && s.runtime.HasActiveTurn()
    requires newTurn !in s.runtime.turns
    ensures var t, h := s.runtime.current.value, Call(c, s, CancelInput(s.runtime.current), newTurn, fits);
      && h.error.None? && SystemInv(h.system) && Leads(s.runtime, h.system.runtime)
      && h.system.runtime.current.None? && VoiceInputEnabled(c, h.system.runtime)
      && h.system.runtime.turns.Keys == s.runtime.turns.Keys
      && h.system.runtime.turns[t].state.Cancelled? && h.system.faults == s.faults
  {
    hide Call, Core, Leads, CancelTurn;
    var t := s.runtime.current.value;
    CallOk(c, s, CancelInput(s.runtime.current), newTurn, fits);
    CancelTurnKeeps(s.runtime, t);
    CancelCallEffect(c, s, t, CancelTurn(s.runtime, t).value, newTurn, fits);
  }

  /** With no turn current, speech starts a fresh active turn and is never rejected. */
  lemma StartingSpeech(c: Config, s: System, newTurn: TurnId, fits: bool)
    requires SystemInv(s) && VoiceInputEnabled(c, s.runtime) && s.runtime.current.None?
    requires newTurn !in s.runtime.turns
    ensures var h := Call(c, s, SpeechStarted, newTurn, fits);
      && h.error.None? && SystemInv(h.system) && Leads(s.runtime, h.system.runtime)
      && VoiceInputEnabled(c, h.system.runtime)
      && h.system.runtime.current == Some(newTurn) && h.system.runtime.HasActiveTurn()
      && h.system.runtime.sttQueues == s.runtime.sttQueues[newTurn := []] && h.system.faults == s.faults
  {
    CallOk(c, s, SpeechStarted, newTurn, fits);
    hide Core, Leads, Emit;
    var r := s.runtime;
    BeginTurnKeeps(r, newTurn);
    EmitAdmits(BeginTurn(r, newTurn).value, Some(newTurn), UserSpeechStarted);
  }

  lemma BargeInFrom(c: Config, s: System, newTurn: TurnId, fits: bool)
    requires SystemInv(s) && newTurn !in s.runtime.turns && VoiceInputEnabled(c, s.runtime)
    ensures var r, h := s.runtime, OnInputStarted(c, s, newTurn, fits);
      var r' := h.system.runtime;
      && h.error.None? && h.system.faults == s.faults && SystemInv(h.system) && Leads(r, r')
      && r'.current == Some(newTurn) && newTurn in r'.turns
      && (forall t :: t in r'.turns ==> (!r'.turns[t].state.IsTerminal() <==> t == newTurn))
      && (forall t :: t in r.turns && r.IsActive(t) ==> t in r'.turns && r'.turns[t].state.Cancelled?)
  {
    hide Call;
    var r := s.runtime;
    if r.HasActiveTurn() {
      CancellingCurrent(c, s, newTurn, fits);
      var mid := Call(c, s, CancelInput(r.current), newTurn, fits).system;
      StartingSpeech(c, mid, newTurn, fits);
      LeadsTransitive(r, mid.runtime, Call(c, mid, SpeechStarted, newTurn, fits).system.runtime);
    } else {
      StartingSpeech(c, s, newTurn, fits);
    }
  }

  lemma TransportOk(c: Config, s: System, e: TransportEvent, newTurn: TurnId, fits: bool)
    requires SystemInv(s) && newTurn !in s.runtime.turns
    ensures var h := OnTransport(c, s, e, newTurn, fits);
      && h.error.None? && h.system.faults == s.faults
      && SystemInv(h.system) && Leads(s.runtime, h.system.runtime)
  {
    hide SystemInv, Call, Leads;
    LeadsReflexive(s.runtime);
    match e {
      case TransportFailed(code) =>
        if s.runtime.running {
          CallOk(c, s, ErrorInput(code), newTurn, fits);
          ErrorAccepted(c, s, code, newTurn, fits);
        }
      case InputStarted =>
        if VoiceInputEnabled(c, s.runtime) {
          BargeInFrom(c, s, newTurn, fits);
        }
      case InputEnded =>
        if VoiceInputEnabled(c, s.runtime) && s.runtime.HasActiveTurn() {
          CallOk(c, s, SpeechEnded, newTurn, fits);
          EndOfSpeechAccepted(c, s, newTurn, fits);
        }
      case FrameReceived(data) =>
        if VoiceInputEnabled(c, s.runtime) {
          FrameAccepted(c, s, data, newTurn, fits);
        }
    }
  }

  lemma ErrorAccepted(c: Config, s: System, code: string, newTurn: TurnId, fits: bool)
    requires SystemInv(s) && s.runtime.running
    ensures Call(c, s, ErrorInput(code), newTurn, fits).error.None?
  {
    hide Core, HandleError;
    HandleErrorKeeps(s.runtime, code);
  }

  lemma EndOfSpeechAccepted(c: Config, s: System, newTurn: TurnId, fits: bool)
    requires VoiceInputEnabled(c, s.runtime) && s.runtime.HasActiveTurn()
    ensures Call(c, s, SpeechEnded, newTurn, fits).error.None?
  {
  }

  lemma AudioAccepted(c: Config, s: System, data: string, newTurn: TurnId, fits: bool)
    requires VoiceInputEnabled(c, s.runtime) && s.runtime.HasActiveTurn()
    ensures var h := Call(c, s, AudioIn(Some(data)), newTurn, fits);
      && h.error.None?
      && h.system.faults == s.faults && h.system.runtime.turns == s.runtime.turns
      && h.system.runtime.current == s.runtime.current
      && h.system.runtime.sttQueues == PutAudio(s.runtime, s.runtime.current.value, AudioData(data)).sttQueues
  {
  }

  /** A frame is accepted in every reachable state; with no turn active it opens one, which is then current and active,
      and is queued in it. */
  lemma FrameAccepted(c: Config, s: System, data: string, newTurn: TurnId, fits: bool)
    requires SystemInv(s) && newTurn !in s.runtime.turns && VoiceInputEnabled(c, s.runtime)
    ensures var h := OnFrame(c, s, data, newTurn, fits);
      && h.error.None? && h.system.faults == s.faults
      && SystemInv(h.system) && Leads(s.runtime, h.system.runtime)
      && (s.runtime.current.None? ==>
            && h.system.runtime.current == Some(newTurn) && h.system.runtime.IsActive(newTurn)
            && h.system.runtime.sttQueues == s.runtime.sttQueues[newTurn := [AudioData(data)]])
      && (s.runtime.current.Some? && s.runtime.current.value in s.runtime.sttQueues ==>
            var t := s.runtime.current.value;
            h.system.runtime.sttQueues == s.runtime.sttQueues[t := s.runtime.sttQueues[t] + [AudioData(data)]])
  {
    hide Call, Core, Leads;
    CurrentHasActive(s);
    if s.runtime.HasActiveTurn() {
      AudioAccepted(c, s, data, newTurn, fits);
      AudioKeeps(c, s, data, newTurn, fits);
    } else {
      StartingSpeech(c, s, newTurn, fits);
      var begun := Call(c, s, SpeechStarted, newTurn, fits).system;
      AudioAccepted(c, begun, data, newTurn, fits);
      AudioKeeps(c, begun, data, newTurn, fits);
      LeadsTransitive(s.runtime, begun.runtime, Call(c, begun, AudioIn(Some(data)), newTurn, fits).system.runtime);
      assert begun.runtime.sttQueues[newTurn] + [AudioData(data)] == [AudioData(data)];
    }
  }

  lemma CurrentHasActive(s: System)
    requires SystemInv(s)
    ensures s.runtime.current.Some? <==> s.runtime.HasActiveTurn()
  {
  }

  /** An audio frame never begins a turn, so it needs no identity set aside for one. */
  lemma AudioKeeps(c: Config, s: System, data: string, newTurn: TurnId, fits: bool)
    requires SystemInv(s) && VoiceInputEnabled(c, s.runtime) && s.runtime.HasActiveTurn()
    ensures SystemInv(Call(c, s, AudioIn(Some(data)), newTurn, fits).system)
    ensures Leads(s.runtime, Call(c, s, AudioIn(Some(data)), newTurn, fits).system.runtime)
  {
    hide Inv, Leads, Enter;
    PlumbingKeeps(s.runtime, PutAudio(s.runtime, s.runtime.current.value, AudioData(data)));
    EnterOk(s, HandleInput(c, s, AudioIn(Some(data)), newTurn, fits));
  }

  // ---- Whole runs with a transport attached ----

  lemma AdvanceOk(c: Config, s: System, step: Step)
    requires SystemInv(s)
    ensures SystemInv(Advance(c, s, step)) && Leads(s.runtime, Advance(c, s, step).runtime)
  {
    hide SystemInv, Leads, Apply, OnTransport;
    LeadsReflexive(s.runtime);
    match step {
      case Internal(l) => StepOk(c, s, l);
      case Transport(e, newTurn, fits) =>
        if newTurn !in s.runtime.turns {
          TransportOk(c, s, e, newTurn, fits);
        }
    }
  }

  lemma {:induction false} StepsAreSafe(c: Config, steps: seq<Step>)
    ensures SystemInv(RunSteps(c, steps))
  {
    if steps != [] {
      StepsAreSafe(c, steps[..|steps| - 1]);
      AdvanceOk(c, RunSteps(c, steps[..|steps| - 1]), steps[|steps| - 1]);
    }
  }

  /** After any mix of runtime steps and transport events, no transport event is refused by handle_input, and nothing it
      calls raises before it first suspends. */
  lemma TransportIsNeverRejected(c: Config, steps: seq<Step>, e: TransportEvent, newTurn: TurnId, fits: bool)
    requires newTurn !in RunSteps(c, steps).runtime.turns
    ensures var s := RunSteps(c, steps);
      OnTransport(c, s, e, newTurn, fits).error.None? && OnTransport(c, s, e, newTurn, fits).system.faults == s.faults
  {
    StepsAreSafe(c, steps);
    TransportOk(c, RunSteps(c, steps), e, newTurn, fits);
  }

  /** Barge-in: whatever turn was active is CANCELLED, and exactly the fresh turn is active. */
  lemma BargeIn(c: Config, steps: seq<Step>, newTurn: TurnId, fits: bool)
    requires newTurn !in RunSteps(c, steps).runtime.turns && VoiceInputEnabled(c, RunSteps(c, steps).runtime)
    ensures var r := RunSteps(c, steps).runtime;
      var r' := RunSteps(c, steps + [Transport(InputStarted, newTurn, fits)]).runtime;
      && r'.current == Some(newTurn) && newTurn in r'.turns
      && (forall t :: t in r'.turns ==> (!r'.turns[t].state.IsTerminal() <==> t == newTurn))
      && (forall t :: t in r.turns && r.IsActive(t) ==> t in r'.turns && r'.turns[t].state.Cancelled?)
  {
    hide SystemInv, OnInputStarted;
    StepsAreSafe(c, steps);
    BargeInFrom(c, RunSteps(c, steps), newTurn, fits);
    assert (steps + [Transport(InputStarted, newTurn, fits)])[..|steps|] == steps;
  }
}
