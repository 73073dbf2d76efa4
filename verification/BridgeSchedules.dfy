/** A transport adds nothing to what inputs can do: every run with one is a schedule of deliveries. */
module BridgeSchedules {
  import opened Common
  import opened TurnLifecycle
  import opened Events
  import opened RuntimeSpec
  import opened RuntimeMachine
  import opened RuntimeInvariants
  import opened ScheduleSafety
  import opened RunTheorems
  import opened TurnTheorems
  import opened InputTheorems
  import opened GuardTheorems
  import opened Bridge

  lemma CallIsDelivery(c: Config, s: System, input: Input, newTurn: TurnId, fits: bool)
    requires newTurn !in s.runtime.turns
    ensures Call(c, s, input, newTurn, fits).system == Apply(c, s, Deliver(input, newTurn, fits))
  {
    hide HandleInput, Enter;
  }

  /** An audio frame needs no identity for a turn. */
  lemma AudioIgnoresIdentity(c: Config, s: System, data: Option<string>, a: TurnId, b: TurnId, fits: bool)
    ensures Call(c, s, AudioIn(data), a, fits) == Call(c, s, AudioIn(data), b, fits)
  {
    hide Enter;
  }

  lemma {:induction false} UnusedIdentity(used: set<TurnId>) returns (t: TurnId)
    ensures t !in used && forall u :: u in used ==> u < t
    decreases |used|
  {
    if |used| == 0 {
      t := 0;
    } else {
      var u := SomeMember(used);
      var rest := UnusedIdentity(used - {u});
      t := if rest > u then rest else u + 1;
      forall v | v in used ensures v < t {
        assert v == u || v in used - {u};
      }
    }
  }

  /** The deliveries a transport event stands for. */
  lemma TransportIsDeliveries(c: Config, s: System, e: TransportEvent, newTurn: TurnId, fits: bool)
    returns (labels: seq<Label>)
    requires SystemInv(s) && newTurn !in s.runtime.turns
    ensures ApplyAll(c, s, labels) == OnTransport(c, s, e, newTurn, fits).system
  {
    hide SystemInv, Call, Apply, Leads;
    labels := [];
    match e {
      case TransportFailed(code) =>
        if s.runtime.running {
          CallIsDelivery(c, s, ErrorInput(code), newTurn, fits);
          labels := [Deliver(ErrorInput(code), newTurn, fits)];
          ApplyOne(c, s, labels[0]);
        }
      case InputStarted =>
        if VoiceInputEnabled(c, s.runtime) {
          labels := StartedIsDeliveries(c, s, newTurn, fits);
        }
      case InputEnded =>
        if VoiceInputEnabled(c, s.runtime) && s.runtime.HasActiveTurn() {
          CallIsDelivery(c, s, SpeechEnded, newTurn, fits);
          labels := [Deliver(SpeechEnded, newTurn, fits)];
          ApplyOne(c, s, labels[0]);
        }
      case FrameReceived(data) =>
        if VoiceInputEnabled(c, s.runtime) {
          labels := FrameIsDeliveries(c, s, data, newTurn, fits);
        }
    }
  }

  lemma StartedIsDeliveries(c: Config, s: System, newTurn: TurnId, fits: bool) returns (labels: seq<Label>)
    requires SystemInv(s) && newTurn !in s.runtime.turns && VoiceInputEnabled(c, s.runtime)
    ensures ApplyAll(c, s, labels) == OnInputStarted(c, s, newTurn, fits).system
  {
    hide SystemInv, Call, Apply, Leads;
    var start := Deliver(SpeechStarted, newTurn, fits);
    if s.runtime.HasActiveTurn() {
      var cancel := Deliver(CancelInput(s.runtime.current), newTurn, fits);
      CancellingCurrent(c, s, newTurn, fits);
      CallIsDelivery(c, s, CancelInput(s.runtime.current), newTurn, fits);
      var mid := Apply(c, s, cancel);
      CallIsDelivery(c, mid, SpeechStarted, newTurn, fits);
      labels := [cancel, start];
      ApplyBoth(c, s, [cancel], [start]);
      ApplyOne(c, s, cancel);
      ApplyOne(c, mid, start);
      assert [cancel] + [start] == labels;
    } else {
      CallIsDelivery(c, s, SpeechStarted, newTurn, fits);
      labels := [start];
      ApplyOne(c, s, start);
    }
  }

  lemma FrameIsDeliveries(c: Config, s: System, data: string, newTurn: TurnId, fits: bool) returns (labels: seq<Label>)
    requires SystemInv(s) && newTurn !in s.runtime.turns && VoiceInputEnabled(c, s.runtime)
    ensures ApplyAll(c, s, labels) == OnFrame(c, s, data, newTurn, fits).system
  {
    hide SystemInv, Call, Apply, Leads;
    CurrentHasActive(s);
    if s.runtime.HasActiveTurn() {
      CallIsDelivery(c, s, AudioIn(Some(data)), newTurn, fits);
      labels := [Deliver(AudioIn(Some(data)), newTurn, fits)];
      ApplyOne(c, s, labels[0]);
    } else {
      var start := Deliver(SpeechStarted, newTurn, fits);
      StartingSpeech(c, s, newTurn, fits);
      CallIsDelivery(c, s, SpeechStarted, newTurn, fits);
      var mid := Apply(c, s, start);
      var unused := UnusedIdentity(mid.runtime.turns.Keys);
      CallIsDelivery(c, mid, AudioIn(Some(data)), unused, fits);
      AudioIgnoresIdentity(c, mid, Some(data), newTurn, unused, fits);
      var frame := Deliver(AudioIn(Some(data)), unused, fits);
      labels := [start, frame];
      ApplyBoth(c, s, [start], [frame]);
      ApplyOne(c, s, start);
      ApplyOne(c, mid, frame);
      assert [start] + [frame] == labels;
    }
  }

  /** Every run with a transport is a schedule, so whatever holds after every schedule holds with a transport. */
  lemma {:induction false} BridgeRunIsASchedule(c: Config, steps: seq<Step>) returns (schedule: seq<Label>)
    ensures Run(c, schedule) == RunSteps(c, steps)
    decreases |steps|
  {
    hide Run, Apply, OnTransport;
    if steps == [] {
      schedule := [];
      EmptyRun(c);
    } else {
      var init, last := steps[..|steps| - 1], steps[|steps| - 1];
      var before := BridgeRunIsASchedule(c, init);
      var s := RunSteps(c, init);
      StepsAreSafe(c, init);
      match last {
        case Internal(l) =>
          schedule := before + [l];
          OneMore(c, before, l);
        case Transport(e, newTurn, fits) =>
          schedule := before;
          if newTurn !in s.runtime.turns {
            var labels := TransportIsDeliveries(c, s, e, newTurn, fits);
            schedule := before + labels;
            RunThenAll(c, before, labels);
          }
      }
    }
  }

  lemma EmptyRun(c: Config)
    ensures Run(c, []) == Initial
  {
  }

  /** After a started event the fresh turn listens: its speech task runs, is tracked, and reads the turn's queue. */
  lemma BargeInListens(c: Config, steps: seq<Step>, newTurn: TurnId, fits: bool)
    requires newTurn !in RunSteps(c, steps).runtime.turns && VoiceInputEnabled(c, RunSteps(c, steps).runtime)
    ensures var s' := RunSteps(c, steps + [Transport(InputStarted, newTurn, fits)]);
      exists id :: IsListening(s', id, newTurn)
  {
    hide Run, RunSteps, Call, Apply, SystemInv, Leads, IsListening, GuardsAreKnown;
    var s := RunSteps(c, steps);
    StepsAreSafe(c, steps);
    NextStep(c, steps, Transport(InputStarted, newTurn, fits));
    var schedule := BridgeRunIsASchedule(c, steps);
    if s.runtime.HasActiveTurn() {
      var cancel := Deliver(CancelInput(s.runtime.current), newTurn, fits);
      CancellingCurrent(c, s, newTurn, fits);
      CallIsDelivery(c, s, CancelInput(s.runtime.current), newTurn, fits);
      OneMore(c, schedule, cancel);
      StartedListens(c, schedule + [cancel], newTurn, fits);
    } else {
      CurrentHasActive(s);
      StartedListens(c, schedule, newTurn, fits);
    }
  }

  lemma NextStep(c: Config, steps: seq<Step>, step: Step)
    ensures RunSteps(c, steps + [step]) == Advance(c, RunSteps(c, steps), step)
  {
    assert (steps + [step])[..|steps|] == steps;
  }

  lemma StartedListens(c: Config, schedule: seq<Label>, newTurn: TurnId, fits: bool)
    requires IsIdle(Run(c, schedule)) && newTurn !in Run(c, schedule).runtime.turns && c.hasStt
    ensures var s := Run(c, schedule);
      IsListening(Call(c, s, SpeechStarted, newTurn, fits).system, s.nextTask + 1, newTurn)
  {
    hide Run, Call, Apply, GuardsAreKnown, IsListening;
    var s := Run(c, schedule);
    RunKnowsGuards(c, schedule);
    SpeechBegins(c, s, newTurn, fits);
    CallIsDelivery(c, s, SpeechStarted, newTurn, fits);
  }

  /** An ended event reaches the finalizer of the listening turn: the end of speech is announced, the queue gets its end
      mark, and the call waits for the speech task. */
  lemma EndedEventIsAwaited(c: Config, s: System, id: TaskId, t: TurnId, newTurn: TurnId, fits: bool)
    requires IsListening(s, id, t) && c.hasStt && newTurn !in s.runtime.turns
    ensures var s' := OnTransport(c, s, InputEnded, newTurn, fits).system;
      && s'.activities == s.activities[s.nextTask := AwaitingStt(t, id)] && t in s'.runtime.finalizing
      && s'.runtime.admitted == s.runtime.admitted + EventsOf(t, [UserSpeechEnded], |s.runtime.admitted|)
      && s'.runtime.sttQueues == s.runtime.sttQueues[t := s.runtime.sttQueues[t] + [EndOfAudio]]
  {
    hide Call, Apply;
    ListeningIsLive(s, id, t);
    CallIsDelivery(c, s, SpeechEnded, newTurn, fits);
    SpeechEndIsAwaited(c, s, id, t, newTurn, fits);
  }

  /** A transport failure is an ERROR input with the transport's code. */
  lemma TransportFailureFails(c: Config, s: System, code: string, newTurn: TurnId, fits: bool)
    requires SystemInv(s) && s.runtime.running && newTurn !in s.runtime.turns
    ensures OnTransport(c, s, TransportFailed(code), newTurn, fits).system
      == Apply(c, s, Deliver(ErrorInput(code), newTurn, fits))
  {
    hide Call, Apply;
    CallIsDelivery(c, s, ErrorInput(code), newTurn, fits);
  }

  /** Audio events do nothing to a runtime that does not listen to voice. */
  lemma DisabledVoiceIsIgnored(c: Config, s: System, e: TransportEvent, newTurn: TurnId, fits: bool)
    requires !VoiceInputEnabled(c, s.runtime) && !e.TransportFailed?
    ensures OnTransport(c, s, e, newTurn, fits) == Handling(s, None)
  {
  }
}
