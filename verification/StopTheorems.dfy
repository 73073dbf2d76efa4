/** A runtime that is stopping can always come to its end. */
module StopTheorems {
  import opened Common
  import opened PyStrings
  import opened TurnLifecycle
  import opened Events
  import opened RuntimeSpec
  import opened RuntimeMachine
  import opened RuntimeInvariants
  import opened ScheduleSafety
  import opened RunTheorems
  import opened TurnTheorems
  import opened InputTheorems

  // ---- Only `stop` waits for other tasks, and only for older ones ----

  ghost predicate WaitsForOlder(s: System) {
    forall id :: id in s.activities && s.activities[id].Gathering? ==>
      forall task :: task in s.activities[id].pending ==> task < id
  }

  predicate NeverGathers(o: Outcome) {
    o.next.Some? ==> !o.next.value.Gathering?
  }

  lemma EmitKeepsTurns(r: Runtime, turn: Option<TurnId>, payload: Payload)
    ensures Emit(r, turn, payload).turns == r.turns
  {
  }

  lemma IterateNeverGathers(c: Config, r: Runtime, p: Activity, i: nat, fits: bool)
    requires p.Pipeline? && p.turn in r.turns
    ensures NeverGathers(Iterate(c, r, p, i, fits)) && NeverGathers(AfterRetrieval(c, r, p, fits))
    ensures NeverGathers(AfterSummary(c, r, p, fits))
  {
    hide FailTurn, Leave;
  }

  lemma RunPipelineNeverGathers(c: Config, r: Runtime, t: TurnId, userText: string, nested: bool, fits: bool)
    requires t in r.turns
    ensures NeverGathers(RunPipeline(c, r, t, userText, nested, fits))
  {
    hide AfterSummary;
    var (entered, token) := EnterPipeline(r, t);
    IterateNeverGathers(c, entered, Pipeline(t, userText, token, nested, Summarizing), 0, fits);
  }

  lemma CommitNeverGathers(c: Config, r: Runtime, p: Activity, reply: string)
    requires p.Pipeline? && p.turn in r.turns
    ensures NeverGathers(Commit(c, r, p, reply))
  {
    hide CommitExchange, PersistExchange, Leave;
  }

  lemma PipelineNeverGathers(c: Config, r: Runtime, p: Activity, signal: Signal, fits: bool)
    requires p.Pipeline? && p.turn in r.turns
    ensures NeverGathers(ResumePipeline(c, r, p, signal, fits))
  {
    hide Iterate, AfterRetrieval, AfterSummary, Commit, FailTurn, Leave, Emit;
    IterateNeverGathers(c, r, p, 0, fits);
    match p.stage {
      case Executing(i, _) => IterateNeverGathers(c, r, p, i + 1, fits);
      case Streaming(_, text) =>
        EmitKeepsTurns(r, Some(p.turn), LlmResponse(text));
        CommitNeverGathers(c, Emit(r, Some(p.turn), LlmResponse(text)), p, text);
      case Speaking(reply) =>
        CommitNeverGathers(c, r, p, reply);
        if signal.ProviderFailed? && FailTurn(r, p.turn, signal.code).Ok? {
          FailingKeepsTurn(r, p.turn, signal.code);
          CommitNeverGathers(c, FailTurn(r, p.turn, signal.code).value, p, reply);
        }
      case _ =>
    }
  }

  lemma FailingKeepsTurn(r: Runtime, t: TurnId, code: string)
    requires t in r.turns && FailTurn(r, t, code).Ok?
    ensures t in FailTurn(r, t, code).value.turns
  {
    hide Emit;
    EmitKeepsTurns(r.(turns := r.turns[t := r.turns[t].Fail(code).value]), Some(t), ErrorRaised(code));
  }

  lemma FinishSpeechNeverGathers(c: Config, r: Runtime, t: TurnId, fits: bool)
    requires t in r.turns
    ensures NeverGathers(FinishSpeech(c, r, t, fits))
  {
    hide RunPipeline, CompleteTurn, FinalTranscript, Strip;
    var cleaned := CleanupSpeech(r, t);
    var transcript := FinalTranscript(cleaned.admitted, t);
    if transcript.Some? {
      RunPipelineNeverGathers(c, cleaned, t, Strip(transcript.value), true, fits);
    }
  }

  lemma FinalizeSpeechNeverGathers(c: Config, r: Runtime, t: TurnId, me: TaskId, fits: bool)
    requires t in r.turns
    ensures NeverGathers(FinalizeSpeech(c, r, t, me, fits))
  {
    hide FinishSpeech, CompleteTurn, Emit;
    EmitKeepsTurns(r.(finalizing := r.finalizing + {t}, speechEnded := r.speechEnded + {t}), Some(t), UserSpeechEnded);
    FinishSpeechNeverGathers(c, PutAudio(AnnounceSpeechEnd(r, t), t, EndOfAudio), t, fits);
  }

  lemma SttNeverGathers(c: Config, r: Runtime, a: Activity, me: TaskId, signal: Signal, fits: bool)
    requires a.SttStream? && a.turn in r.turns
    ensures NeverGathers(ResumeStt(c, r, a, me, signal, fits))
  {
    hide FinalizeSpeech, FailTurn, Emit;
    FinalizeSpeechNeverGathers(c, r, a.turn, me, fits);
    if signal.Transcript? {
      var payload := TranscriptFrame(signal.text, signal.isFinal);
      EmitKeepsTurns(r, Some(a.turn), payload);
      FinalizeSpeechNeverGathers(c, Emit(r, Some(a.turn), payload), a.turn, me, fits);
    }
  }

  /** A resumed activity that waits for others was waiting for the same ones before. */
  lemma ResumedWaitsOn(c: Config, s: System, id: TaskId, signal: Signal, fits: bool)
    requires id in s.activities && (s.activities[id].Gathering? || s.activities[id].turn in s.runtime.turns)
    ensures var o := ResumeActivity(c, s, id, signal, fits);
      NeverGathers(o) || o.next == Some(s.activities[id])
  {
    hide ResumePipeline, ResumeStt, FinishSpeech, StopFinish;
    var a := s.activities[id];
    match a {
      case Pipeline(_, _, _, _, _) => PipelineNeverGathers(c, s.runtime, a, signal, fits);
      case SttStream(_, _) => SttNeverGathers(c, s.runtime, a, id, signal, fits);
      case AwaitingStt(t, _) => FinishSpeechNeverGathers(c, s.runtime, t, fits);
      case Gathering(_, _) =>
    }
  }

  /** `stop` waits for tasks that are suspended when it is called. */
  lemma StopWaitsForOthers(s: System, reason: string)
    ensures var o := Stop(s, reason).outcome;
      NeverGathers(o) || o.next.value.pending <= s.activities.Keys
  {
    hide StopBegin, StopFinish;
  }

  lemma TextNeverGathers(c: Config, r: Runtime, text: string, newTurn: TurnId, fits: bool)
    ensures var h := HandleText(c, r, text, newTurn, fits); NeverGathers(h.outcome) && h.spawned.None?
  {
    hide RunPipeline, CompleteTurn, Strip;
    if BeginTurn(r, newTurn).Ok? {
      RunPipelineNeverGathers(c, BeginTurn(r, newTurn).value, newTurn, Strip(text), false, fits);
    }
  }

  lemma SpeechStartedNeverGathers(c: Config, r: Runtime, newTurn: TurnId, sttTask: TaskId)
    ensures var h := HandleSpeechStarted(c, r, newTurn, sttTask);
      NeverGathers(h.outcome) && (h.spawned.Some? ==> !h.spawned.value.Gathering?)
  {
    hide BeginTurn, Emit, OpenSpeech;
  }

  lemma CancelNeverGathers(r: Runtime, target: Option<TurnId>)
    ensures var h := HandleCancel(r, target); NeverGathers(h.outcome) && h.spawned.None?
  {
    hide CancelTurn;
  }

  lemma InputWaitsForOthers(c: Config, s: System, input: Input, newTurn: TurnId, fits: bool)
    requires SystemInv(s) && newTurn !in s.runtime.turns
    ensures var h := HandleInput(c, s, input, newTurn, fits);
      && (NeverGathers(h.outcome) || h.outcome.next.value.pending <= s.activities.Keys)
      && (h.spawned.Some? ==> !h.spawned.value.Gathering?)
  {
    hide SystemInv, Stop, HandleText, HandleSpeechStarted, HandleCancel, FinalizeSpeech, HandleError;
    var r := s.runtime;
    CurrentIsKnown(s);
    match input {
      case Shutdown =>
        StopWaitsForOthers(s, "user_stop");
        StopSpawnsNothing(s, "user_stop");
      case TextInput(text) => TextNeverGathers(c, r, text, newTurn, fits);
      case SpeechStarted => SpeechStartedNeverGathers(c, r, newTurn, s.nextTask + 1);
      case CancelInput(target) => CancelNeverGathers(r, target);
      case SpeechEnded =>
        if r.HasActiveTurn() {
          FinalizeSpeechNeverGathers(c, r, r.current.value, s.nextTask, fits);
        }
      case _ =>
    }
  }

  lemma StopSpawnsNothing(s: System, reason: string)
    ensures Stop(s, reason).spawned.None?
  {
    hide StopBegin, StopFinish;
  }

  lemma StepWaitsForOlder(c: Config, s: System, l: Label)
    requires SystemInv(s) && WaitsForOlder(s)
    ensures WaitsForOlder(Apply(c, s, l))
  {
    hide Inv, ActivityOk, OnlyFailingRaises, HandleInput, ResumeActivity, AbandonActivity, Stop, Start;
    match l {
      case StartRuntime =>
      case StopRuntime(reason) =>
        StopWaitsForOthers(s, reason);
        StopSpawnsNothing(s, reason);
      case Deliver(input, newTurn, fits) =>
        if newTurn !in s.runtime.turns {
          InputWaitsForOthers(c, s, input, newTurn, fits);
        }
      case Resume(id, signal, fits) =>
        if id in s.activities && (s.activities[id].Gathering? || s.activities[id].turn in s.runtime.turns) {
          ResumedWaitsOn(c, s, id, signal, fits);
        }
      case Abandon(_) =>
    }
  }

  lemma {:induction false} RunWaitsForOlder(c: Config, schedule: seq<Label>)
    ensures WaitsForOlder(Run(c, schedule))
  {
    hide Apply, SystemInv;
    if schedule != [] {
      var before := schedule[..|schedule| - 1];
      RunWaitsForOlder(c, before);
      RunIsSafe(c, before);
      StepWaitsForOlder(c, Run(c, before), schedule[|schedule| - 1]);
    }
  }

  // ---- The end of `stop` ----

  /** These steps abandon tasks that the stopping call waits for, resume it, and leave the runtime stopped, with the end
      of the session as the one event more. */
  ghost predicate Finishes(c: Config, schedule: seq<Label>, id: TaskId, rest: seq<Label>)
    requires id in Run(c, schedule).activities && Run(c, schedule).activities[id].Gathering?
  {
    var s, s' := Run(c, schedule), Run(c, schedule + rest);
    && rest != [] && rest[|rest| - 1] == Resume(id, Ready, true)
    && (forall k :: 0 <= k < |rest| - 1 ==> rest[k].Abandon? && rest[k].task in s.activities[id].pending)
    && !s'.runtime.running && s'.runtime.current.None? && id !in s'.activities
    && s'.runtime.admitted
         == s.runtime.admitted + [Event(|s.runtime.admitted| + 1, None, SessionEnded(s.activities[id].reason))]
  }

  lemma NothingCommon<T>(a: set<T>, b: set<T>)
    requires |a * b| == 0
    ensures a !! b
  {
    assert a * b == {};
    assert forall x :: x in a && x in b ==> x in a * b;
  }

  lemma AbandoningAdmitsNothing(r: Runtime, a: Activity)
    ensures AbandonActivity(r, a).admitted == r.admitted
  {
  }

  lemma AbandonedTask(c: Config, s: System, id: TaskId, task: TaskId)
    requires SystemInv(s) && WaitsForOlder(s) && id in s.activities && s.activities[id].Gathering?
    requires task in s.activities && task in s.activities[id].pending
    ensures var s' := Apply(c, s, Abandon(task));
      && task != id && id in s'.activities && s'.activities[id] == s.activities[id]
      && s'.activities.Keys == s.activities.Keys - {task} && s'.runtime.admitted == s.runtime.admitted
  {
    hide SystemInv, AbandonActivity;
    AbandoningAdmitsNothing(s.runtime, s.activities[task]);
  }

  lemma NothingPending(c: Config, s: System, id: TaskId)
    requires SystemInv(s) && id in s.activities && s.activities[id].Gathering?
    requires s.activities[id].pending !! s.activities.Keys
    ensures var s' := Apply(c, s, Resume(id, Ready, true));
      && !s'.runtime.running && s'.runtime.current.None? && id !in s'.activities
      && s'.runtime.admitted
           == s.runtime.admitted + [Event(|s.runtime.admitted| + 1, None, SessionEnded(s.activities[id].reason))]
  {
    hide ActivityOk, OnlyFailingRaises, Emit, OneActiveTurn, CancelledIdsAgree, TurnsAreNumbered, InterruptedOnce,
         TokensAgree, LedgerIsPaired;
    EmitAdmits(s.runtime, None, SessionEnded(s.activities[id].reason));
  }

  lemma {:induction false} FinishingSteps(c: Config, schedule: seq<Label>, id: TaskId) returns (rest: seq<Label>)
    requires id in Run(c, schedule).activities && Run(c, schedule).activities[id].Gathering?
    ensures Finishes(c, schedule, id, rest)
    decreases |Run(c, schedule).activities[id].pending * Run(c, schedule).activities.Keys|
  {
    hide Run, Apply, SystemInv, WaitsForOlder;
    var s := Run(c, schedule);
    RunIsSafe(c, schedule);
    RunWaitsForOlder(c, schedule);
    var left := s.activities[id].pending * s.activities.Keys;
    if |left| == 0 {
      rest := [Resume(id, Ready, true)];
      NothingCommon(s.activities[id].pending, s.activities.Keys);
      NothingPending(c, s, id);
      OneMore(c, schedule, rest[0]);
    } else {
      var task := SomeMember(left);
      AbandonedTask(c, s, id, task);
      OneMore(c, schedule, Abandon(task));
      var s' := Run(c, schedule + [Abandon(task)]);
      assert s'.activities[id].pending * s'.activities.Keys == left - {task};
      var others := FinishingSteps(c, schedule + [Abandon(task)], id);
      rest := [Abandon(task)] + others;
      assert schedule + rest == schedule + [Abandon(task)] + others;
      assert forall k :: 0 < k < |rest| ==> rest[k] == others[k - 1];
    }
  }

  /** Whatever has happened, a `stop` that waits for its tasks can finish: abandoning the ones still suspended, as their
      cancellation does, and resuming it ends the session with one SESSION_ENDED event more. */
  lemma StopCanAlwaysFinish(c: Config, schedule: seq<Label>, id: TaskId)
    requires id in Run(c, schedule).activities && Run(c, schedule).activities[id].Gathering?
    ensures exists rest :: Finishes(c, schedule, id, rest)
  {
    hide Run, Finishes;
    var rest := FinishingSteps(c, schedule, id);
  }

  /** It finishes in exactly the resumptions that find none of those tasks suspended any more. */
  lemma StopFinishesIff(c: Config, schedule: seq<Label>, id: TaskId)
    requires id in Run(c, schedule).activities && Run(c, schedule).activities[id].Gathering?
    ensures id !in Run(c, schedule + [Resume(id, Ready, true)]).activities
      <==> Run(c, schedule).activities[id].pending !! Run(c, schedule).activities.Keys
  {
    hide Run, StopFinish;
    OneMore(c, schedule, Resume(id, Ready, true));
  }

  // ---- What stopping does at once ----

  /** The first step of `stop`, from every reachable running state: the turn that is going on is CANCELLED, every other
      turn stays as it is, and the call waits for exactly the tracked tasks that are still suspended; without any it
      ends the session at once. */
  lemma StopCancelsAndWaits(c: Config, schedule: seq<Label>, reason: string)
    requires Run(c, schedule).runtime.running && !Run(c, schedule).runtime.context.shutdown
    ensures var s, s' := Run(c, schedule), Run(c, schedule + [StopRuntime(reason)]);
      var r, r', pending := s.runtime, s'.runtime, s.runtime.activeTasks * s.activities.Keys;
      && r'.context.shutdown && r'.ledger == r.ledger && r'.current.None?
      && (r.current.None? ==> r'.turns == r.turns)
      && (r.current.Some? ==>
            var t := r.current.value;
            t in r'.turns && r'.turns[t].state.Cancelled? && r'.turns == r.turns[t := r'.turns[t]])
      && r'.running == (pending != {})
      && s'.activities
          == (if pending == {} then s.activities else s.activities[s.nextTask := Gathering(reason, pending)])
  {
    hide Run, Core, CancelTurn, ActivityOk, OnlyFailingRaises;
    var s := Run(c, schedule);
    RunIsSafe(c, schedule);
    OneMore(c, schedule, StopRuntime(reason));
    KnownActivities(s);
    ClosingEffect(s.runtime);
    if s.runtime.activeTasks * s.activities.Keys == {} {
      FinishKeepsTurns(StopBegin(s.runtime).value, reason);
    }
  }

  lemma FinishKeepsTurns(r: Runtime, reason: string)
    ensures var r' := StopFinish(r, reason);
      r'.turns == r.turns && r'.ledger == r.ledger && r'.context.shutdown == r.context.shutdown
      && r'.activeTasks == r.activeTasks
  {
  }

  /** A SHUTDOWN input does what a call to `stop` by the user does. */
  lemma ShutdownStops(c: Config, s: System, unused: TurnId, fits: bool)
    requires s.runtime.running && !s.runtime.context.shutdown && unused !in s.runtime.turns
    ensures Apply(c, s, Deliver(Shutdown, unused, fits)) == Apply(c, s, StopRuntime("user_stop"))
  {
    hide Stop;
  }

  lemma ClosingEffect(r: Runtime)
    requires Inv(r)
    ensures var closing := StopBegin(r);
      && closing.Ok? && closing.value.context.shutdown && closing.value.ledger == r.ledger
      && closing.value.activeTasks == r.activeTasks && closing.value.current.None?
      && closing.value.running == r.running
      && (r.current.None? ==> closing.value.turns == r.turns)
      && (r.current.Some? ==>
            var t := r.current.value;
            t in closing.value.turns && closing.value.turns[t].state.Cancelled?
            && closing.value.turns == r.turns[t := closing.value.turns[t]])
  {
    hide LedgerIsPaired, LogIsGapless, TurnsAreNumbered, InterruptedOnce, TokensAgree, CancelledIdsAgree, CancelTurn;
    StopBeginKeeps(r);
    var closing := r.(context := r.context.(shutdown := true));
    RequestKeeps(r, closing);
    if r.current.Some? {
      CancellingInterrupts(closing, r.current.value);
      CancelTurnKeeps(closing, r.current.value);
    }
  }
}
