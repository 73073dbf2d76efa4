/** What a turn comes to when nothing interferes: every step of a pipeline, and whole turns from input to completion. */
module TurnTheorems {
  import opened Common
  import opened PyStrings
  import opened Conversation
  import opened TurnLifecycle
  import opened Events
  import opened RuntimeSpec
  import opened RuntimeMachine
  import opened RuntimeInvariants
  import opened ScheduleSafety
  import opened RunTheorems

  // ---- Following one pipeline ----

  /** The current, uncancelled turn has a pipeline for this text at this stage. */
  ghost predicate IsBusy(s: System, id: TaskId, t: TurnId, text: string, stage: Stage) {
    && SystemInv(s) && s.runtime.running && !s.runtime.context.shutdown
    && s.runtime.current == Some(t) && t !in s.runtime.context.cancelled
    && id in s.activities && s.activities[id].Pipeline?
    && s.activities[id].turn == t && s.activities[id].userText == text && s.activities[id].stage == stage
  }

  /** The events of a turn with these payloads, numbered from the length of the log on. */
  function EventsOf(t: TurnId, payloads: seq<Payload>, start: nat): (events: seq<Event>)
    ensures |events| == |payloads|
    ensures forall k :: 0 <= k < |payloads| ==> events[k] == Event(start + k + 1, Some(t), payloads[k])
  {
    seq(|payloads|, k requires 0 <= k < |payloads| => Event(start + k + 1, Some(t), payloads[k]))
  }

  lemma EventsOfConcat(t: TurnId, a: seq<Payload>, b: seq<Payload>, start: nat)
    ensures EventsOf(t, a + b, start) == EventsOf(t, a, start) + EventsOf(t, b, start + |a|)
  {
  }

  /** From one state to a later one only this pipeline has moved: the turn has said exactly this, and nothing else that
      can be observed of the runtime has changed. */
  ghost predicate OnlySaid(s: System, s': System, id: TaskId, t: TurnId, said: seq<Payload>) {
    && s'.runtime.admitted == s.runtime.admitted + EventsOf(t, said, |s.runtime.admitted|)
    && s'.runtime.ledger == s.runtime.ledger && s'.runtime.turns == s.runtime.turns
    && s'.runtime.context.cancelled == s.runtime.context.cancelled
    && s'.activities - {id} == s.activities - {id} && s'.nextTask == s.nextTask && s'.faults == s.faults
  }

  lemma SaidTwice(s: System, s': System, s'': System, id: TaskId, t: TurnId, a: seq<Payload>, b: seq<Payload>)
    requires OnlySaid(s, s', id, t, a) && OnlySaid(s', s'', id, t, b)
    ensures OnlySaid(s, s'', id, t, a + b)
  {
    EventsOfConcat(t, a, b, |s.runtime.admitted|);
  }

  lemma SilentTwice(s: System, s': System, s'': System, id: TaskId, t: TurnId)
    requires OnlySaid(s, s', id, t, []) && OnlySaid(s', s'', id, t, [])
    ensures OnlySaid(s, s'', id, t, [])
  {
    SaidTwice(s, s', s'', id, t, [], []);
    var none: seq<Payload> := [];
    assert none + none == none;
  }

  lemma SaidNothing(s: System, id: TaskId, t: TurnId)
    ensures OnlySaid(s, s, id, t, [])
  {
  }

  lemma BusyIsLive(s: System, id: TaskId, t: TurnId, text: string, stage: Stage)
    requires IsBusy(s, id, t, text, stage)
    ensures t in s.runtime.turns && s.runtime.turns[t].state.Active?
    ensures !s.runtime.Gone(t, s.activities[id].token)
    ensures text != "" && LogIsGapless(s.runtime)
  {
    ActivityOkTurn(s, id);
    GoneMeansCancelled(s.runtime, s.activities[id]);
  }

  lemma ActivityOkTurn(s: System, id: TaskId)
    requires SystemInv(s) && id in s.activities && s.activities[id].Pipeline?
    ensures s.activities[id].token.turn == s.activities[id].turn && s.activities[id].turn in s.runtime.turns
  {
  }

  // ---- Steps ----

  /** Where a pipeline goes when what it waits for returns. */
  function NextStage(c: Config, stage: Stage): Stage {
    match stage
    case Summarizing => if c.hasRetriever then Retrieving else if c.hasMemory then Recalling else Streaming(0, "")
    case Retrieving => if c.hasMemory then Recalling else Streaming(0, "")
    case Recalling => Streaming(0, "")
    case Executing(i, remaining) => if remaining > 1 then Executing(i, remaining - 1) else Streaming(i + 1, "")
    case _ => stage
  }

  /** The stage waits for something other than a provider stream, and the next one is allowed to begin. */
  predicate MayMoveOn(c: Config, stage: Stage) {
    match stage
    case Streaming(_, _) => false
    case Speaking(_) => false
    case Executing(i, remaining) => remaining > 1 || i + 1 < c.maxToolIterations
    case _ => NextStage(c, stage).Streaming? ==> c.maxToolIterations > 0
  }

  lemma IterationBegins(c: Config, r: Runtime, p: Activity, i: nat)
    requires p.Pipeline? && p.turn in r.turns && !r.Gone(p.turn, p.token) && i < c.maxToolIterations
    ensures Iterate(c, r, p, i, true) == Outcome(r, Some(p.(stage := Streaming(i, ""))), [])
  {
  }

  lemma WaitingMovesOn(c: Config, s: System, id: TaskId, t: TurnId, text: string, stage: Stage)
    requires IsBusy(s, id, t, text, stage) && MayMoveOn(c, stage)
    ensures var s' := Apply(c, s, Resume(id, Ready, true));
      IsBusy(s', id, t, text, NextStage(c, stage)) && OnlySaid(s, s', id, t, [])
  {
    hide SystemInv, Leads, Iterate, FailPipeline, EndPipeline, Respond, Commit, FailTurn, Emit;
    StepOk(c, s, Resume(id, Ready, true));
    BusyIsLive(s, id, t, text, stage);
    ActivityOkTurn(s, id);
    var next := NextStage(c, stage);
    if next.Streaming? {
      IterationBegins(c, s.runtime, s.activities[id], next.iteration);
    }
  }

  function TokenOf(delta: string): seq<Payload> {
    if delta == "" then [] else [LlmToken(delta)]
  }

  lemma EmitSays(r: Runtime, t: TurnId, payload: Payload)
    requires LogIsGapless(r) && t !in r.context.cancelled
    ensures var r' := Emit(r, Some(t), payload);
      && r'.admitted == r.admitted + EventsOf(t, [payload], |r.admitted|)
      && r' == r.(context := r'.context, admitted := r'.admitted)
      && r'.context == r.context.(sequence := r'.context.sequence)
  {
  }

  lemma DeltaArrives(c: Config, s: System, id: TaskId, t: TurnId, text: string, i: nat, sofar: string, delta: string)
    requires IsBusy(s, id, t, text, Streaming(i, sofar))
    ensures var s' := Apply(c, s, Resume(id, Delta(delta), true));
      IsBusy(s', id, t, text, Streaming(i, sofar + delta)) && OnlySaid(s, s', id, t, TokenOf(delta))
  {
    hide SystemInv, Leads, Iterate, FailPipeline, EndPipeline, Respond, Commit, FailTurn, Emit, LogIsGapless;
    StepOk(c, s, Resume(id, Delta(delta), true));
    BusyIsLive(s, id, t, text, Streaming(i, sofar));
    ActivityOkTurn(s, id);
    EmitSays(s.runtime, t, LlmToken(delta));
    if delta == "" {
      assert sofar + delta == sofar;
    }
  }

  lemma CallsAreExecuted(c: Config, s: System, id: TaskId, t: TurnId, text: string, i: nat, sofar: string, calls: nat)
    requires IsBusy(s, id, t, text, Streaming(i, sofar)) && calls > 0
    ensures var s' := Apply(c, s, Resume(id, StreamEnd(calls), true));
      IsBusy(s', id, t, text, Executing(i, calls)) && OnlySaid(s, s', id, t, [])
  {
    hide SystemInv, Leads, Iterate, FailPipeline, EndPipeline, Respond, Commit, FailTurn, Emit, LogIsGapless;
    StepOk(c, s, Resume(id, StreamEnd(calls), true));
    BusyIsLive(s, id, t, text, Streaming(i, sofar));
    ActivityOkTurn(s, id);
  }

  lemma ReplyIsSpoken(c: Config, s: System, id: TaskId, t: TurnId, text: string, i: nat, reply: string)
    requires IsBusy(s, id, t, text, Streaming(i, reply)) && c.hasTts
    ensures var s' := Apply(c, s, Resume(id, StreamEnd(0), true));
      IsBusy(s', id, t, text, Speaking(reply)) && OnlySaid(s, s', id, t, [LlmResponse(reply)])
  {
    hide SystemInv, Leads, Iterate, FailPipeline, EndPipeline, Commit, FailTurn, Emit, LogIsGapless;
    StepOk(c, s, Resume(id, StreamEnd(0), true));
    BusyIsLive(s, id, t, text, Streaming(i, reply));
    ActivityOkTurn(s, id);
    EmitSays(s.runtime, t, LlmResponse(reply));
  }

  lemma AudioIsSpoken(c: Config, s: System, id: TaskId, t: TurnId, text: string, reply: string, audioRef: string)
    requires IsBusy(s, id, t, text, Speaking(reply))
    ensures var s' := Apply(c, s, Resume(id, Speech(audioRef), true));
      IsBusy(s', id, t, text, Speaking(reply)) && OnlySaid(s, s', id, t, [TtsChunk(audioRef)])
  {
    hide SystemInv, Leads, Iterate, FailPipeline, EndPipeline, Commit, FailTurn, Emit, LogIsGapless;
    StepOk(c, s, Resume(id, Speech(audioRef), true));
    BusyIsLive(s, id, t, text, Speaking(reply));
    ActivityOkTurn(s, id);
    EmitSays(s.runtime, t, TtsChunk(audioRef));
  }

  // ---- The end of an answered turn ----

  /** The pipeline is gone, its turn COMPLETED and nothing current, and exactly this was said and this exchange
      persisted. */
  ghost predicate IsAnswered(
      c: Config, s: System, s': System, id: TaskId, t: TurnId, text: string, reply: string, said: seq<Payload>)
  {
    && SystemInv(s') && s'.runtime.running && !s'.runtime.context.shutdown
    && s'.runtime.current.None? && id !in s'.activities && s'.activities - {id} == s.activities - {id}
    && t in s.runtime.turns && s'.runtime.turns.Keys == s.runtime.turns.Keys
    && s'.runtime.turns == s.runtime.turns[t := s'.runtime.turns[t]] && s'.runtime.turns[t].state.Completed?
    && s'.runtime.ledger == WithPair(c, s.runtime.ledger, t, text, reply)
    && s'.runtime.admitted == s.runtime.admitted + EventsOf(t, said, |s.runtime.admitted|)
    && s'.runtime.context.cancelled == s.runtime.context.cancelled
    && s'.nextTask == s.nextTask && s'.faults == s.faults
    && t !in s'.runtime.llmTokens && t !in s'.runtime.ttsTokens
  }

  /** Persisting and completing at the end of a pipeline of the current turn. */
  lemma CommitCompletes(c: Config, r: Runtime, p: Activity, reply: string)
    requires p.Pipeline? && p.turn in r.turns && r.turns[p.turn].state.Active?
    requires r.current == Some(p.turn) && p.turn !in r.context.cancelled
    ensures var o := Commit(c, r, p, reply);
      && o.next.None? && o.faults == [] && o.runtime.current.None?
      && o.runtime.turns == r.turns[p.turn := o.runtime.turns[p.turn]] && o.runtime.turns[p.turn].state.Completed?
      && o.runtime.ledger == WithPair(c, r.ledger, p.turn, p.userText, reply)
      && o.runtime.admitted == r.admitted && o.runtime.context == r.context && o.runtime.running == r.running
      && p.turn !in o.runtime.llmTokens && p.turn !in o.runtime.ttsTokens
      && (p.nested ==> p.turn !in o.runtime.finalizing)
  {
    hide CommitExchange, WithPair;
    CommitEffect(c, r, p.turn, p.userText, reply);
  }

  lemma SpeechEndCompletes(c: Config, s: System, id: TaskId, t: TurnId, text: string, reply: string, fits: bool)
    requires IsBusy(s, id, t, text, Speaking(reply))
    ensures IsAnswered(c, s, Apply(c, s, Resume(id, SpeechEnd, fits)), id, t, text, reply, [])
  {
    hide SystemInv, Leads, Iterate, FailPipeline, EndPipeline, Commit, FailTurn, Emit, LogIsGapless, WithPair;
    StepOk(c, s, Resume(id, SpeechEnd, fits));
    BusyIsLive(s, id, t, text, Speaking(reply));
    ActivityOkTurn(s, id);
    CommitCompletes(c, s.runtime, s.activities[id], reply);
  }

  lemma StreamEndCompletes(c: Config, s: System, id: TaskId, t: TurnId, text: string, i: nat, reply: string, fits: bool)
    requires IsBusy(s, id, t, text, Streaming(i, reply)) && !c.hasTts
    ensures IsAnswered(c, s, Apply(c, s, Resume(id, StreamEnd(0), fits)), id, t, text, reply, [LlmResponse(reply)])
  {
    hide SystemInv, Leads, Iterate, FailPipeline, EndPipeline, Commit, FailTurn, Emit, LogIsGapless, WithPair;
    StepOk(c, s, Resume(id, StreamEnd(0), fits));
    BusyIsLive(s, id, t, text, Streaming(i, reply));
    ActivityOkTurn(s, id);
    EmitSays(s.runtime, t, LlmResponse(reply));
    CommitCompletes(c, Emit(s.runtime, Some(t), LlmResponse(reply)), s.activities[id], reply);
  }

  lemma PipelineIsBusy(s: System, id: TaskId)
    requires SystemInv(s) && id in s.activities && s.activities[id].Pipeline?
    requires s.activities[id].turn in s.runtime.turns && !s.runtime.turns[s.activities[id].turn].state.IsTerminal()
    ensures var p := s.activities[id]; IsBusy(s, id, p.turn, p.userText, p.stage)
  {
    ActiveIsCurrent(s.runtime, s.activities[id].turn);
  }

  /** In every reachable state: when speech ends for a pipeline whose turn has not ended, the exchange is persisted and
      the turn COMPLETED. */
  lemma SpokenReplyCompletes(c: Config, schedule: seq<Label>, id: TaskId, fits: bool)
    requires var s := Run(c, schedule);
      && id in s.activities && s.activities[id].Pipeline? && s.activities[id].stage.Speaking?
      && s.activities[id].turn in s.runtime.turns && !s.runtime.turns[s.activities[id].turn].state.IsTerminal()
    ensures var s := Run(c, schedule);
      var p := s.activities[id];
      IsAnswered(c, s, Run(c, schedule + [Resume(id, SpeechEnd, fits)]), id, p.turn, p.userText, p.stage.reply, [])
  {
    hide Run, IsAnswered;
    var s := Run(c, schedule);
    RunIsSafe(c, schedule);
    OneMore(c, schedule, Resume(id, SpeechEnd, fits));
    PipelineIsBusy(s, id);
    SpeechEndCompletes(c, s, id, s.activities[id].turn, s.activities[id].userText, s.activities[id].stage.reply, fits);
  }

  /** The same without text-to-speech, when the stream ends without calls; the response is then admitted first. */
  lemma StreamedReplyCompletes(c: Config, schedule: seq<Label>, id: TaskId, fits: bool)
    requires !c.hasTts
    requires var s := Run(c, schedule);
      && id in s.activities && s.activities[id].Pipeline? && s.activities[id].stage.Streaming?
      && s.activities[id].turn in s.runtime.turns && !s.runtime.turns[s.activities[id].turn].state.IsTerminal()
    ensures var s := Run(c, schedule);
      var p := s.activities[id];
      IsAnswered(c, s, Run(c, schedule + [Resume(id, StreamEnd(0), fits)]), id, p.turn, p.userText, p.stage.text,
                 [LlmResponse(p.stage.text)])
  {
    hide Run, IsAnswered;
    var s := Run(c, schedule);
    RunIsSafe(c, schedule);
    OneMore(c, schedule, Resume(id, StreamEnd(0), fits));
    PipelineIsBusy(s, id);
    var p := s.activities[id];
    StreamEndCompletes(c, s, id, p.turn, p.userText, p.stage.iteration, p.stage.text, fits);
  }

  // ---- Several steps ----

  function ApplyAll(c: Config, s: System, labels: seq<Label>): System
    decreases |labels|
  {
    if labels == [] then s else ApplyAll(c, Apply(c, s, labels[0]), labels[1..])
  }

  lemma {:induction false} ApplyBoth(c: Config, s: System, a: seq<Label>, b: seq<Label>)
    ensures ApplyAll(c, s, a + b) == ApplyAll(c, ApplyAll(c, s, a), b)
    decreases |a|
  {
    hide Apply;
    if a == [] {
      assert a + b == b;
    } else {
      ApplyBoth(c, Apply(c, s, a[0]), a[1..], b);
      assert (a + b)[1..] == a[1..] + b;
    }
  }

  lemma ApplyOne(c: Config, s: System, l: Label)
    ensures ApplyAll(c, s, [l]) == Apply(c, s, l)
  {
    hide Apply;
  }

  lemma {:induction false} RunThenAll(c: Config, schedule: seq<Label>, labels: seq<Label>)
    ensures Run(c, schedule + labels) == ApplyAll(c, Run(c, schedule), labels)
    decreases |labels|
  {
    hide Run, Apply;
    if labels == [] {
      assert schedule + labels == schedule;
    } else {
      OneMore(c, schedule, labels[0]);
      RunThenAll(c, schedule + [labels[0]], labels[1..]);
      assert schedule + [labels[0]] + labels[1..] == schedule + labels;
    }
  }

  function Joined(deltas: seq<string>): string {
    if deltas == [] then "" else deltas[0] + Joined(deltas[1..])
  }

  function TokensOfDeltas(deltas: seq<string>): seq<Payload> {
    if deltas == [] then [] else TokenOf(deltas[0]) + TokensOfDeltas(deltas[1..])
  }

  function DeltaSteps(id: TaskId, deltas: seq<string>): seq<Label> {
    if deltas == [] then [] else [Resume(id, Delta(deltas[0]), true)] + DeltaSteps(id, deltas[1..])
  }

  lemma {:induction false} DeltasArrive(
      c: Config, s: System, id: TaskId, t: TurnId, text: string, i: nat, sofar: string, deltas: seq<string>)
    requires IsBusy(s, id, t, text, Streaming(i, sofar))
    ensures var s' := ApplyAll(c, s, DeltaSteps(id, deltas));
      && IsBusy(s', id, t, text, Streaming(i, sofar + Joined(deltas)))
      && OnlySaid(s, s', id, t, TokensOfDeltas(deltas))
    decreases |deltas|
  {
    hide Apply, IsBusy, OnlySaid, TokenOf;
    if deltas == [] {
      SaidNothing(s, id, t);
      assert sofar + "" == sofar;
    } else {
      var steps := DeltaSteps(id, deltas);
      DeltaArrives(c, s, id, t, text, i, sofar, deltas[0]);
      var s1 := Apply(c, s, steps[0]);
      assert steps[1..] == DeltaSteps(id, deltas[1..]);
      DeltasArrive(c, s1, id, t, text, i, sofar + deltas[0], deltas[1..]);
      assert sofar + deltas[0] + Joined(deltas[1..]) == sofar + Joined(deltas);
      SaidTwice(s, s1, ApplyAll(c, s, steps), id, t, TokenOf(deltas[0]), TokensOfDeltas(deltas[1..]));
    }
  }

  function ReadySteps(id: TaskId, n: nat): seq<Label> {
    if n == 0 then [] else [Resume(id, Ready, true)] + ReadySteps(id, n - 1)
  }

  /** After as many results as there were calls, the next iteration streams. */
  lemma {:induction false} ResultsArrive(c: Config, s: System, id: TaskId, t: TurnId, text: string, i: nat, calls: nat)
    requires IsBusy(s, id, t, text, Executing(i, calls)) && calls > 0 && i + 1 < c.maxToolIterations
    ensures var s' := ApplyAll(c, s, ReadySteps(id, calls));
      IsBusy(s', id, t, text, Streaming(i + 1, "")) && OnlySaid(s, s', id, t, [])
    decreases calls
  {
    hide Apply, IsBusy, OnlySaid;
    var steps := ReadySteps(id, calls);
    WaitingMovesOn(c, s, id, t, text, Executing(i, calls));
    assert steps[1..] == ReadySteps(id, calls - 1);
    if calls > 1 {
      ResultsArrive(c, Apply(c, s, steps[0]), id, t, text, i, calls - 1);
      SilentTwice(s, Apply(c, s, steps[0]), ApplyAll(c, s, steps), id, t);
    } else {
      assert steps == [steps[0]];
      ApplyOne(c, s, steps[0]);
    }
  }

  /** How many times a pipeline waits before it streams. */
  function WaitsOf(c: Config): nat {
    (if c.hasSummarizer then 1 else 0) + (if c.hasRetriever then 1 else 0) + (if c.hasMemory then 1 else 0)
  }

  lemma PreparationPasses(c: Config, s: System, id: TaskId, t: TurnId, text: string)
    requires IsBusy(s, id, t, text, FirstStage(c)) && c.maxToolIterations > 0
    ensures var s' := ApplyAll(c, s, ReadySteps(id, WaitsOf(c)));
      IsBusy(s', id, t, text, Streaming(0, "")) && OnlySaid(s, s', id, t, [])
  {
    hide Apply, IsBusy, OnlySaid, FirstStage, WaitsOf, NextStage;
    WaitsAre(c);
    WaitsPass(c, s, id, t, text, FirstStage(c), WaitsOf(c));
  }

  /** How many waits are left at a stage of the preparation. */
  function WaitsLeft(c: Config, stage: Stage): nat
    requires stage.Summarizing? || stage.Retrieving? || stage.Recalling? || stage == Streaming(0, "")
  {
    match stage
    case Summarizing => 1 + (if c.hasRetriever then 1 else 0) + (if c.hasMemory then 1 else 0)
    case Retrieving => 1 + if c.hasMemory then 1 else 0
    case Recalling => 1
    case _ => 0
  }

  lemma WaitsAre(c: Config)
    ensures var stage := FirstStage(c);
      && (stage.Summarizing? || stage.Retrieving? || stage.Recalling? || stage == Streaming(0, ""))
      && WaitsOf(c) == WaitsLeft(c, stage)
  {
  }

  lemma {:induction false} WaitsPass(
      c: Config, s: System, id: TaskId, t: TurnId, text: string, stage: Stage, n: nat)
    requires stage.Summarizing? || stage.Retrieving? || stage.Recalling? || stage == Streaming(0, "")
    requires IsBusy(s, id, t, text, stage) && c.maxToolIterations > 0 && n == WaitsLeft(c, stage)
    ensures var s' := ApplyAll(c, s, ReadySteps(id, n));
      IsBusy(s', id, t, text, Streaming(0, "")) && OnlySaid(s, s', id, t, [])
    decreases n
  {
    hide Apply, IsBusy, OnlySaid;
    var steps := ReadySteps(id, n);
    if n == 0 {
      SaidNothing(s, id, t);
    } else {
      WaitingMovesOn(c, s, id, t, text, stage);
      assert steps[1..] == ReadySteps(id, n - 1);
      WaitsPass(c, Apply(c, s, steps[0]), id, t, text, NextStage(c, stage), n - 1);
      SilentTwice(s, Apply(c, s, steps[0]), ApplyAll(c, s, steps), id, t);
    }
  }

  /** A round in which the model asks for tools, after some text. */
  datatype ToolRound = ToolRound(deltas: seq<string>, calls: nat)

  function RoundSteps(id: TaskId, round: ToolRound): seq<Label> {
    DeltaSteps(id, round.deltas) + [Resume(id, StreamEnd(round.calls), true)] + ReadySteps(id, round.calls)
  }

  function RoundsSteps(id: TaskId, rounds: seq<ToolRound>): seq<Label> {
    if rounds == [] then [] else RoundSteps(id, rounds[0]) + RoundsSteps(id, rounds[1..])
  }

  function RoundsTokens(rounds: seq<ToolRound>): seq<Payload> {
    if rounds == [] then [] else TokensOfDeltas(rounds[0].deltas) + RoundsTokens(rounds[1..])
  }

  lemma RoundPasses(c: Config, s: System, id: TaskId, t: TurnId, text: string, i: nat, round: ToolRound)
    requires IsBusy(s, id, t, text, Streaming(i, "")) && round.calls > 0 && i + 1 < c.maxToolIterations
    ensures var s' := ApplyAll(c, s, RoundSteps(id, round));
      IsBusy(s', id, t, text, Streaming(i + 1, "")) && OnlySaid(s, s', id, t, TokensOfDeltas(round.deltas))
  {
    hide Apply, ApplyAll, IsBusy, OnlySaid, DeltaSteps, ReadySteps, Joined, TokensOfDeltas;
    var deltas, end, ready := DeltaSteps(id, round.deltas), Resume(id, StreamEnd(round.calls), true),
      ReadySteps(id, round.calls);
    ApplyBoth(c, s, deltas + [end], ready);
    ApplyBoth(c, s, deltas, [end]);
    var s1 := ApplyAll(c, s, deltas);
    ApplyOne(c, s1, end);
    var s2 := Apply(c, s1, end);
    DeltasArrive(c, s, id, t, text, i, "", round.deltas);
    CallsAreExecuted(c, s1, id, t, text, i, "" + Joined(round.deltas), round.calls);
    ResultsArrive(c, s2, id, t, text, i, round.calls);
    var s3 := ApplyAll(c, s2, ready);
    SaidTwice(s, s1, s2, id, t, TokensOfDeltas(round.deltas), []);
    SaidTwice(s, s2, s3, id, t, TokensOfDeltas(round.deltas) + [], []);
    assert TokensOfDeltas(round.deltas) + [] + [] == TokensOfDeltas(round.deltas);
  }

  lemma {:induction false} RoundsPass(
      c: Config, s: System, id: TaskId, t: TurnId, text: string, i: nat, rounds: seq<ToolRound>)
    requires IsBusy(s, id, t, text, Streaming(i, "")) && i + |rounds| < c.maxToolIterations
    requires forall k :: 0 <= k < |rounds| ==> rounds[k].calls > 0
    ensures var s' := ApplyAll(c, s, RoundsSteps(id, rounds));
      IsBusy(s', id, t, text, Streaming(i + |rounds|, "")) && OnlySaid(s, s', id, t, RoundsTokens(rounds))
    decreases |rounds|
  {
    hide Apply, IsBusy, OnlySaid, RoundSteps, TokensOfDeltas;
    if rounds == [] {
      SaidNothing(s, id, t);
    } else {
      RoundPasses(c, s, id, t, text, i, rounds[0]);
      var s1 := ApplyAll(c, s, RoundSteps(id, rounds[0]));
      RoundsPass(c, s1, id, t, text, i + 1, rounds[1..]);
      ApplyBoth(c, s, RoundSteps(id, rounds[0]), RoundsSteps(id, rounds[1..]));
      SaidTwice(s, s1, ApplyAll(c, s1, RoundsSteps(id, rounds[1..])), id, t,
                TokensOfDeltas(rounds[0].deltas), RoundsTokens(rounds[1..]));
    }
  }

  function AudioSteps(id: TaskId, audio: seq<string>): seq<Label> {
    if audio == [] then [] else [Resume(id, Speech(audio[0]), true)] + AudioSteps(id, audio[1..])
  }

  function ChunksOf(audio: seq<string>): seq<Payload> {
    if audio == [] then [] else [TtsChunk(audio[0])] + ChunksOf(audio[1..])
  }

  lemma {:induction false} AudioPlays(
      c: Config, s: System, id: TaskId, t: TurnId, text: string, reply: string, audio: seq<string>)
    requires IsBusy(s, id, t, text, Speaking(reply))
    ensures var s' := ApplyAll(c, s, AudioSteps(id, audio));
      IsBusy(s', id, t, text, Speaking(reply)) && OnlySaid(s, s', id, t, ChunksOf(audio))
    decreases |audio|
  {
    hide Apply, IsBusy, OnlySaid;
    if audio == [] {
      SaidNothing(s, id, t);
    } else {
      var steps := AudioSteps(id, audio);
      AudioIsSpoken(c, s, id, t, text, reply, audio[0]);
      assert steps[1..] == AudioSteps(id, audio[1..]);
      AudioPlays(c, Apply(c, s, steps[0]), id, t, text, reply, audio[1..]);
      SaidTwice(s, Apply(c, s, steps[0]), ApplyAll(c, s, steps), id, t, [TtsChunk(audio[0])], ChunksOf(audio[1..]));
    }
  }

  // ---- Whole turns ----

  /** The last round: text without calls, then the audio if there is any. */
  function ReplySteps(c: Config, id: TaskId, deltas: seq<string>, audio: seq<string>): seq<Label> {
    DeltaSteps(id, deltas) + [Resume(id, StreamEnd(0), true)]
    + if c.hasTts then AudioSteps(id, audio) + [Resume(id, SpeechEnd, true)] else []
  }

  function ReplySaid(c: Config, deltas: seq<string>, audio: seq<string>): seq<Payload> {
    TokensOfDeltas(deltas) + [LlmResponse(Joined(deltas))] + if c.hasTts then ChunksOf(audio) else []
  }

  lemma AnsweredAfter(
      c: Config, s: System, mid: System, s': System, id: TaskId, t: TurnId, text: string, reply: string,
      before: seq<Payload>, said: seq<Payload>)
    requires OnlySaid(s, mid, id, t, before) && IsAnswered(c, mid, s', id, t, text, reply, said)
    ensures IsAnswered(c, s, s', id, t, text, reply, before + said)
  {
    hide SystemInv, WithPair;
    EventsOfConcat(t, before, said, |s.runtime.admitted|);
  }

  lemma ReplyAnswers(
      c: Config, s: System, id: TaskId, t: TurnId, text: string, i: nat, deltas: seq<string>, audio: seq<string>)
    requires IsBusy(s, id, t, text, Streaming(i, ""))
    ensures IsAnswered(c, s, ApplyAll(c, s, ReplySteps(c, id, deltas, audio)), id, t, text, Joined(deltas),
                       ReplySaid(c, deltas, audio))
  {
    hide Apply, ApplyAll, IsBusy, OnlySaid, IsAnswered, DeltaSteps, AudioSteps, Joined, TokensOfDeltas, ChunksOf;
    var reply, end := Joined(deltas), Resume(id, StreamEnd(0), true);
    assert "" + reply == reply;
    var s1 := ApplyAll(c, s, DeltaSteps(id, deltas));
    var s2 := Apply(c, s1, end);
    DeltasArrive(c, s, id, t, text, i, "", deltas);
    ApplyBoth(c, s, DeltaSteps(id, deltas), [end]);
    ApplyOne(c, s1, end);
    if !c.hasTts {
      StreamEndCompletes(c, s1, id, t, text, i, reply, true);
      AnsweredAfter(c, s, s1, s2, id, t, text, reply, TokensOfDeltas(deltas), [LlmResponse(reply)]);
      assert ReplySteps(c, id, deltas, audio) == DeltaSteps(id, deltas) + [end];
      assert ReplySaid(c, deltas, audio) == TokensOfDeltas(deltas) + [LlmResponse(reply)];
    } else {
      var last := Resume(id, SpeechEnd, true);
      var s3 := ApplyAll(c, s2, AudioSteps(id, audio));
      ReplyIsSpoken(c, s1, id, t, text, i, reply);
      AudioPlays(c, s2, id, t, text, reply, audio);
      SpeechEndCompletes(c, s3, id, t, text, reply, true);
      SaidTwice(s, s1, s2, id, t, TokensOfDeltas(deltas), [LlmResponse(reply)]);
      SaidTwice(s, s2, s3, id, t, TokensOfDeltas(deltas) + [LlmResponse(reply)], ChunksOf(audio));
      AnsweredAfter(c, s, s3, Apply(c, s3, last), id, t, text, reply, ReplySaid(c, deltas, audio), []);
      ApplyBoth(c, s, DeltaSteps(id, deltas) + [end], AudioSteps(id, audio) + [last]);
      ApplyBoth(c, s2, AudioSteps(id, audio), [last]);
      ApplyOne(c, s3, last);
      assert ReplySaid(c, deltas, audio) + [] == ReplySaid(c, deltas, audio);
    }
  }

  function TurnSteps(c: Config, id: TaskId, rounds: seq<ToolRound>, deltas: seq<string>, audio: seq<string>): seq<Label>
  {
    ReadySteps(id, WaitsOf(c)) + RoundsSteps(id, rounds) + ReplySteps(c, id, deltas, audio)
  }

  function TurnSaid(c: Config, rounds: seq<ToolRound>, deltas: seq<string>, audio: seq<string>): seq<Payload> {
    RoundsTokens(rounds) + ReplySaid(c, deltas, audio)
  }

  /** An undisturbed pipeline, from its first stage through any tool rounds to the end of speech: the exchange of its
      text and the joined deltas of the last round is persisted, the turn COMPLETED, and exactly the tokens, the
      response and the audio of the turn are admitted, in order. */
  lemma PipelineAnswers(
      c: Config, s: System, id: TaskId, t: TurnId, text: string,
      rounds: seq<ToolRound>, deltas: seq<string>, audio: seq<string>)
    requires IsBusy(s, id, t, text, FirstStage(c)) && |rounds| < c.maxToolIterations
    requires forall k :: 0 <= k < |rounds| ==> rounds[k].calls > 0
    ensures IsAnswered(c, s, ApplyAll(c, s, TurnSteps(c, id, rounds, deltas, audio)), id, t, text, Joined(deltas),
                       TurnSaid(c, rounds, deltas, audio))
  {
    hide Apply, ApplyAll, IsBusy, OnlySaid, IsAnswered, ReadySteps, RoundsSteps, ReplySteps, RoundsTokens, ReplySaid,
         Joined, FirstStage, WaitsOf;
    var ready, tools, reply := ReadySteps(id, WaitsOf(c)), RoundsSteps(id, rounds), ReplySteps(c, id, deltas, audio);
    var s1 := ApplyAll(c, s, ready);
    var s2 := ApplyAll(c, s1, tools);
    PreparationPasses(c, s, id, t, text);
    RoundsPass(c, s1, id, t, text, 0, rounds);
    ReplyAnswers(c, s2, id, t, text, |rounds|, deltas, audio);
    ApplyBoth(c, s, ready + tools, reply);
    ApplyBoth(c, s, ready, tools);
    SaidTwice(s, s1, s2, id, t, [], RoundsTokens(rounds));
    assert [] + RoundsTokens(rounds) == RoundsTokens(rounds);
    AnsweredAfter(c, s, s2, ApplyAll(c, s2, reply), id, t, text, Joined(deltas),
                  RoundsTokens(rounds), ReplySaid(c, deltas, audio));
  }
}
