/**
 * A conversation in which the stored coverage goes back: a spoken turn ends up with two pipelines, one of them answers
 * while the other still waits for its summary, and the next turn stores a newer summary before that one arrives.
 */
module OverlapWitness {
  import opened Common
  import opened PyStrings
  import opened Conversation
  import opened LlmContext
  import opened TurnLifecycle
  import opened Events
  import opened RuntimeSpec
  import opened RuntimeMachine
  import opened RuntimeInvariants
  import opened ScheduleSafety
  import opened RunTheorems
  import opened RuntimeSummaries
  import Summarization
  import SummaryRuns
  import SummaryOrder
  import SummaryInContext

  /** Language model, speech-to-text, ledger and summarizer. */
  const C := Config(true, true, false, true, true, false, false, 4)

  // ---- Steps of the runtime, as far as the conversation needs them ----

  datatype Scene = Scene(
    current: Option<TurnId>, turns: set<TurnId>, running: set<TaskId>, next: TaskId, ledger: seq<Message>)

  /** A running, reachable-looking system without cancellations. */
  ghost predicate Shows(s: System, scene: Scene) {
    && SystemInv(s) && s.runtime.running && !s.runtime.context.shutdown && s.runtime.context.cancelled == {}
    && s.runtime.current == scene.current && s.runtime.turns.Keys == scene.turns
    && s.activities.Keys == scene.running && s.nextTask == scene.next && s.runtime.ledger == scene.ledger
  }

  predicate IsAt(s: System, id: TaskId, t: TurnId, text: string, stage: Stage) {
    && id in s.activities && s.activities[id].Pipeline?
    && s.activities[id].turn == t && s.activities[id].userText == text && s.activities[id].stage == stage
  }

  ghost predicate SameOthers(s: System, s': System, id: TaskId) {
    forall k :: k in s.activities && k != id ==> k in s'.activities && s'.activities[k] == s.activities[k]
  }

  lemma TextBegins(s: System, scene: Scene, text: string, t: TurnId)
    requires Shows(s, scene) && scene.current.None? && t !in scene.turns && text != "" && Strip(text) == text
    ensures var s' := Apply(C, s, Deliver(TextInput(text), t, true));
      && Shows(s', Scene(Some(t), scene.turns + {t}, scene.running + {scene.next}, scene.next + 2, scene.ledger))
      && IsAt(s', scene.next, t, text, Summarizing) && SameOthers(s, s', scene.next)
      && s'.runtime.finalizing <= s.runtime.finalizing
  {
    hide Core, ActivityOk, Leads, RunPipeline, Strip;
    var l := Deliver(TextInput(text), t, true);
    StepOk(C, s, l);
    BeginTurnKeeps(s.runtime, t);
    var begun := BeginTurn(s.runtime, t).value;
    NothingFired(begun, t);
    RunPipelineSuspends(C, begun, t, text, false);
  }

  lemma NothingFired(r: Runtime, t: TurnId)
    requires Core(r) && t !in r.context.cancelled
    ensures forall n :: n >= r.tokenCount ==> Token(t, n) !in r.fired
  {
  }

  lemma ActiveCurrent(s: System, scene: Scene, t: TurnId)
    requires Shows(s, scene) && scene.current == Some(t)
    ensures t in s.runtime.turns && s.runtime.IsActive(t) && s.runtime.turns[t].state.Active?
  {
  }

  lemma LiveToken(s: System, scene: Scene, id: TaskId)
    requires Shows(s, scene) && id in s.activities && s.activities[id].Pipeline?
    ensures !s.runtime.Gone(s.activities[id].turn, s.activities[id].token)
    ensures s.activities[id].turn in s.runtime.turns
  {
    hide Core;
    GoneMeansCancelled(s.runtime, s.activities[id]);
  }

  lemma SummaryReturns(s: System, scene: Scene, id: TaskId, t: TurnId, text: string)
    requires Shows(s, scene) && IsAt(s, id, t, text, Summarizing)
    ensures var s' := Apply(C, s, Resume(id, Ready, true));
      && Shows(s', scene) && IsAt(s', id, t, text, Streaming(0, "")) && SameOthers(s, s', id)
      && s'.runtime.finalizing <= s.runtime.finalizing
  {
    hide SystemInv, Leads, Iterate, AfterRetrieval, EndPipeline, FailPipeline, Commit, Respond, FailTurn;
    StepOk(C, s, Resume(id, Ready, true));
    LiveToken(s, scene, id);
    GoesOnToStream(s.runtime, s.activities[id]);
  }

  lemma GoesOnToStream(r: Runtime, p: Activity)
    requires p.Pipeline? && p.turn in r.turns && !r.Gone(p.turn, p.token)
    ensures AfterSummary(C, r, p, true) == Outcome(r, Some(p.(stage := Streaming(0, ""))), [])
  {
  }

  lemma TokenArrives(s: System, scene: Scene, id: TaskId, t: TurnId, text: string, delta: string)
    requires Shows(s, scene) && IsAt(s, id, t, text, Streaming(0, "")) && delta != ""
    ensures var s' := Apply(C, s, Resume(id, Delta(delta), true));
      && Shows(s', scene) && IsAt(s', id, t, text, Streaming(0, delta)) && SameOthers(s, s', id)
      && s'.runtime.finalizing <= s.runtime.finalizing
  {
    hide SystemInv, Leads, Iterate, AfterSummary, AfterRetrieval, EndPipeline, FailPipeline, Commit, Respond, FailTurn;
    StepOk(C, s, Resume(id, Delta(delta), true));
    LiveToken(s, scene, id);
    assert "" + delta == delta;
  }

  function Exchange(n: nat, t: TurnId, text: string, reply: string): seq<Message> {
    [TextEntry(n, t, User, text).(sequence := Some(n + 1)),
     TextEntry(n + 1, t, Assistant, reply).(sequence := Some(n + 2))]
  }

  lemma ReplyEnds(s: System, scene: Scene, id: TaskId, t: TurnId, text: string, reply: string)
    requires Shows(s, scene) && IsAt(s, id, t, text, Streaming(0, reply)) && scene.current == Some(t)
    ensures var s' := Apply(C, s, Resume(id, StreamEnd(0), true));
      && Shows(s', Scene(None, scene.turns, scene.running - {id}, scene.next,
                         scene.ledger + Exchange(|scene.ledger|, t, text, reply)))
      && SameOthers(s, s', id) && s'.runtime.finalizing <= s.runtime.finalizing
  {
    hide SystemInv, Leads, Iterate, AfterSummary, AfterRetrieval, FailPipeline, Respond, FailTurn;
    StepOk(C, s, Resume(id, StreamEnd(0), true));
    LiveToken(s, scene, id);
    ActiveCurrent(s, scene, t);
    Answers(s.runtime, s.activities[id], reply);
  }

  lemma Answers(r: Runtime, p: Activity, reply: string)
    requires p.Pipeline? && p.turn in r.turns && r.turns[p.turn].state.Active? && r.current == Some(p.turn)
    requires p.turn !in r.context.cancelled
    ensures var o := Respond(C, r, p, reply);
      && o.next.None? && o.runtime.finalizing <= r.finalizing
      && o.runtime.running == r.running && o.runtime.turns.Keys == r.turns.Keys && o.runtime.current.None?
      && o.runtime.context.cancelled == r.context.cancelled && o.runtime.context.shutdown == r.context.shutdown
      && o.runtime.ledger == r.ledger + Exchange(|r.ledger|, p.turn, p.userText, reply)
  {
    hide CommitExchange, Emit;
    EmitAdmits(r, Some(p.turn), LlmResponse(reply));
    var emitted := Emit(r, Some(p.turn), LlmResponse(reply));
    CommitEffect(C, emitted, p.turn, p.userText, reply);
  }

  lemma SpeechBegins(s: System, scene: Scene, t: TurnId)
    requires Shows(s, scene) && scene.current.None? && t !in scene.turns && t !in s.runtime.finalizing
    ensures var s' := Apply(C, s, Deliver(SpeechStarted, t, true));
      && Shows(s', Scene(Some(t), scene.turns + {t}, scene.running + {scene.next + 1}, scene.next + 2, scene.ledger))
      && s'.activities[scene.next + 1].SttStream? && s'.activities[scene.next + 1].turn == t
      && t in s'.runtime.sttTasks && s'.runtime.sttTasks[t] == scene.next + 1 && t !in s'.runtime.finalizing
      && SameOthers(s, s', scene.next + 1)
  {
    hide Inv, ActivityOk, Leads, Emit;
    StepOk(C, s, Deliver(SpeechStarted, t, true));
    BeginTurnKeeps(s.runtime, t);
    EmitAdmits(BeginTurn(s.runtime, t).value, Some(t), UserSpeechStarted);
  }

  lemma TranscriptStarts(s: System, scene: Scene, id: TaskId, t: TurnId, text: string)
    requires Shows(s, scene) && scene.current == Some(t) && text != "" && Strip(text) == text
    requires id in s.activities && s.activities[id].SttStream? && s.activities[id].turn == t
    requires t in s.runtime.sttTasks && s.runtime.sttTasks[t] == id && t !in s.runtime.finalizing
    ensures var s' := Apply(C, s, Resume(id, Transcript(text, true), true));
      && Shows(s', scene) && IsAt(s', id, t, text, Summarizing) && ReadyForSecond(s'.runtime, t, text)
  {
    hide Core, Apply, Strip;
    StepOk(C, s, Resume(id, Transcript(text, true), true));
    ActiveCurrent(s, scene, t);
    FirstOfTwo(C, s, id, text);
  }

  lemma SpeechEndsAgain(s: System, scene: Scene, t: TurnId, text: string, unused: TurnId)
    requires Shows(s, scene) && scene.current == Some(t) && text != "" && Strip(text) == text
    requires ReadyForSecond(s.runtime, t, text) && unused !in scene.turns && scene.next !in scene.running
    ensures var s' := Apply(C, s, Deliver(SpeechEnded, unused, true));
      && Shows(s', scene.(running := scene.running + {scene.next}, next := scene.next + 2))
      && IsAt(s', scene.next, t, text, Summarizing) && SameOthers(s, s', scene.next)
  {
    hide SystemInv, Apply, Strip, ReadyForSecond;
    StepOk(C, s, Deliver(SpeechEnded, unused, true));
    SecondOfTwo(C, s, t, text, unused);
  }

  // ---- What the summarizer sees ----

  const S := SummaryInContext.SENTENCE
  const Tight := SummaryInContext.Tight
  const Four := SummaryInContext.Four

  const Ops: seq<SummaryRuns.Op> := [
    SummaryRuns.Call(0, S, false),
    SummaryRuns.Append(Four[0]), SummaryRuns.Append(Four[1]),
    SummaryRuns.Call(3, "u", false), SummaryRuns.Call(4, "u", false),
    SummaryRuns.Answer(4, Summarization.GenerationFailed, false),
    SummaryRuns.Append(Four[2]), SummaryRuns.Append(Four[3]),
    SummaryRuns.Call(6, "u", false),
    SummaryRuns.Answer(6, Summarization.Generated("s"), false),
    SummaryRuns.Answer(3, Summarization.Generated("s"), false)]

  /** The plans of the two pipelines of the second turn, and of the third turn's pipeline. */
  const Early := Summarization.Plan(None, Four[..2], "u", Four[..1], Four[1..2], Four[..1])
  const Late := Summarization.Plan(None, Four, "u", Four[..3], Four[3..], Four[..3])

  function Memory(n: nat): SummaryRuns.State
    requires n <= |Ops|
  {
    SummaryRuns.Run(Tight, Ops[..n])
  }

  lemma OneOpMore(n: nat)
    requires n < |Ops|
    ensures Memory(n + 1) == SummaryRuns.Step(Tight, Memory(n), Ops[n])
  {
    hide SummaryRuns.Run, SummaryRuns.Step, Ops;
    assert Ops[..n + 1] == Ops[..n] + [Ops[n]];
    SummaryOrder.OneStepMore(Tight, Ops[..n], Ops[n]);
  }

  /** With nothing to drop there is nothing to summarize. */
  lemma NothingToSummarize()
    ensures Summarization.Begin(Tight, None, [], S, false).Returned?
  {
    hide Strip;
    SummaryInContext.TightPrompts();
    SummaryInContext.ShortStrings();
  }

  lemma FirstExchangeIsThere()
    ensures Memory(1) == SummaryRuns.State([], None, map[], [])
    ensures Memory(3) == SummaryRuns.State(Four[..2], None, map[], [])
  {
    hide Summarization.Begin, SummaryInContext.SENTENCE, SummaryInContext.Tight;
    NothingToSummarize();
    OneOpMore(0);
    OneOpMore(1);
    OneOpMore(2);
    assert Four[..2] == [Four[0], Four[1]];
  }

  lemma EarlyBegins()
    ensures Summarization.Begin(Tight, None, Four[..2], "u", false) == Summarization.AwaitingFirst(Early)
    ensures Summarization.Begin(Tight, None, Four, "u", false) == Summarization.AwaitingFirst(Late)
  {
    hide Summarization.Begin, SummaryInContext.SENTENCE, SummaryInContext.Tight;
    SummaryInContext.ExchangesAreTexts();
    SummaryInContext.TightBeginDropsAllButOne(Four[..2]);
    SummaryInContext.TightBeginDropsAllButOne(Four);
    assert Four[..2][..1] == Four[..1] && Four[..2][1..] == Four[1..2];
  }

  lemma TwoCallsWait()
    ensures Memory(4) == SummaryRuns.State(Four[..2], None, map[3 := Summarization.AwaitingFirst(Early)], [])
    ensures Memory(5).calls.Keys == {3, 4}
    ensures Memory(6) == SummaryRuns.State(Four[..2], None, map[3 := Summarization.AwaitingFirst(Early)], [])
  {
    hide Summarization.Begin, SummaryInContext.SENTENCE, SummaryInContext.Tight;
    FirstExchangeIsThere();
    EarlyBegins();
    OneOpMore(3);
    OneOpMore(4);
    OneOpMore(5);
    assert Early.dropped != [];
    assert Memory(6).calls == map[3 := Summarization.AwaitingFirst(Early)];
  }

  lemma ThirdCallWaits()
    ensures Memory(8) == SummaryRuns.State(Four, None, map[3 := Summarization.AwaitingFirst(Early)], [])
    ensures Memory(9) == SummaryRuns.State(Four, None,
      map[3 := Summarization.AwaitingFirst(Early), 6 := Summarization.AwaitingFirst(Late)], [])
  {
    hide Summarization.Begin, SummaryInContext.SENTENCE, SummaryInContext.Tight;
    TwoCallsWait();
    EarlyBegins();
    OneOpMore(6);
    OneOpMore(7);
    OneOpMore(8);
    assert Four[..2] + [Four[2]] + [Four[3]] == Four;
  }

  lemma ThroughSequences()
    ensures Early.dropped != [] && Summarization.Accept(Early, "s").stored.summary.throughSequence == 1
    ensures Late.dropped != [] && Summarization.Accept(Late, "s").stored.summary.throughSequence == 3
  {
    hide Counting, Summarization.LastSeq, Strip, SummaryInContext.SENTENCE;
    SummaryInContext.ExchangesAreTexts();
    SummaryInContext.TextsCount(Four);
    SummaryInContext.TextsCount(Four[..2]);
    SummaryRuns.LastSeqIsLast(Four[..3], Four, 4);
    SummaryRuns.LastSeqIsLast(Four[..1], Four[..2], 2);
  }

  lemma AnswerIsStored(memory: SummaryRuns.State, call: nat, plan: Summarization.Plan)
    requires call in memory.calls && memory.calls[call] == Summarization.AwaitingFirst(plan)
    requires plan.dropped != [] && plan.userText == "u"
    ensures var stored := Summarization.Accept(plan, "s").stored;
      SummaryRuns.Step(Tight, memory, SummaryRuns.Answer(call, Summarization.Generated("s"), false))
        == SummaryRuns.State(memory.ledger, Some(stored), memory.calls - {call}, memory.upserts + [stored])
  {
    hide Summarization.AfterFirst, SummaryInContext.Tight, Summarization.LastSeq, Counting, Strip;
    SummaryInContext.TightAccepts(plan);
  }

  lemma CoverageGoesBack()
    ensures Memory(10).calls.Keys == {3} && Memory(11).calls.Keys == {}
    ensures var memory := Memory(11);
      && |memory.upserts| == 2 && memory.store == Some(memory.upserts[1])
      && memory.upserts[0].summary.throughSequence == 3 && memory.upserts[1].summary.throughSequence == 1
  {
    hide Summarization.Accept, SummaryRuns.Step, SummaryInContext.SENTENCE, SummaryInContext.Tight, Early, Late, Memory;
    ThirdCallWaits();
    ThroughSequences();
    OneOpMore(9);
    OneOpMore(10);
    PlansAskTheSame();
    AnswerIsStored(Memory(9), 6, Late);
    AnswerIsStored(Memory(10), 3, Early);
  }

  lemma PlansAskTheSame()
    ensures Early.userText == "u" && Late.userText == "u"
  {
  }

  // ---- The conversation ----

  const Moves: seq<Move> := [
    Go(StartRuntime),
    // Turn 1, typed and answered: the first two messages.
    Go(Deliver(TextInput(S), 1, true)),
    Summarized(0, Summarization.GenerationFailed, true),
    Go(Resume(0, Delta(S), true)), Go(Resume(0, StreamEnd(0), true)),
    // Turn 2, spoken: two pipelines call `prepare` on the same two messages.
    Go(Deliver(SpeechStarted, 2, true)),
    Go(Resume(3, Transcript("u", true), true)), Go(Deliver(SpeechEnded, 9, true)),
    // The generation for one of them fails, and it answers the turn.
    Summarized(4, Summarization.GenerationFailed, true),
    Go(Resume(4, Delta(S), true)), Go(Resume(4, StreamEnd(0), true)),
    // Turn 3, typed: its summary covers three messages.
    Go(Deliver(TextInput("u"), 3, true)),
    Summarized(6, Summarization.Generated("s"), true),
    // The other pipeline of turn 2 still gets its summary of one message.
    Summarized(3, Summarization.Generated("s"), true)]

  function After(n: nat): Joint
    requires n <= |Moves|
  {
    JointRun(C, Tight, Moves[..n])
  }

  lemma OneMoveMore(n: nat)
    requires n < |Moves|
    ensures After(n + 1) == Advance(C, Tight, After(n), Moves[n])
  {
    hide Advance, Moves;
    assert Moves[..n + 1][..n] == Moves[..n];
  }

  /** The joint run has come to this scene with these operations. */
  ghost predicate Here(j: Joint, scene: Scene, ops: nat)
    requires ops <= |Ops|
  {
    Shows(SystemOf(C, j), scene) && j.ops == Ops[..ops]
  }

  /** A step that neither persists anything nor starts to summarize. */
  lemma PlainStep(j: Joint, scene: Scene, ops: nat, l: Label, scene': Scene)
    requires ops <= |Ops| && Here(j, scene, ops) && Shows(Apply(C, SystemOf(C, j), l), scene')
    requires scene'.ledger == scene.ledger && NewCall(SystemOf(C, j), Apply(C, SystemOf(C, j), l), l) == []
    ensures Here(Take(C, j, l), scene', ops) && SystemOf(C, Take(C, j, l)) == Apply(C, SystemOf(C, j), l)
  {
    hide SystemOf, Apply, Ops, SystemInv, NewCall;
    StepOf(C, j, l);
  }

  /** A step in which a pipeline starts to summarize. */
  lemma CallingMove(j: Joint, scene: Scene, ops: nat, l: Label, scene': Scene, call: SummaryRuns.Op)
    requires ops < |Ops| && Here(j, scene, ops) && Shows(Apply(C, SystemOf(C, j), l), scene')
    requires scene'.ledger == scene.ledger && NewCall(SystemOf(C, j), Apply(C, SystemOf(C, j), l), l) == [call]
    requires Ops[ops] == call
    ensures Here(Take(C, j, l), scene', ops + 1) && SystemOf(C, Take(C, j, l)) == Apply(C, SystemOf(C, j), l)
  {
    hide SystemOf, Apply, Ops, SystemInv, NewCall;
    StepOf(C, j, l);
    assert Ops[..ops + 1] == Ops[..ops] + [call];
  }

  /** A step in which a reply is persisted. */
  lemma PersistingMove(j: Joint, scene: Scene, ops: nat, l: Label, scene': Scene, user: Message, reply: Message)
    requires ops + 1 < |Ops| && Here(j, scene, ops) && Shows(Apply(C, SystemOf(C, j), l), scene')
    requires scene'.ledger == scene.ledger + [user, reply]
    requires NewCall(SystemOf(C, j), Apply(C, SystemOf(C, j), l), l) == []
    requires Ops[ops] == SummaryRuns.Append(user) && Ops[ops + 1] == SummaryRuns.Append(reply)
    ensures Here(Take(C, j, l), scene', ops + 2) && SystemOf(C, Take(C, j, l)) == Apply(C, SystemOf(C, j), l)
  {
    hide SystemOf, Apply, Ops, SystemInv, NewCall;
    StepOf(C, j, l);
    TwoAppends(scene.ledger, user, reply);
    assert Ops[..ops + 2] == Ops[..ops] + [Ops[ops], Ops[ops + 1]];
  }

  lemma TwoAppends(before: seq<Message>, user: Message, reply: Message)
    ensures Appends(before, before + [user, reply]) == [SummaryRuns.Append(user), SummaryRuns.Append(reply)]
  {
    var after := before + [user, reply];
    assert after[..|after| - 1] == before + [user];
    assert (before + [user])[..|before|] == before;
    assert Appends(before, before) == [];
    assert Appends(before, before + [user]) == [SummaryRuns.Append(user)];
  }

  lemma AnsweredHere(j: Joint, scene: Scene, ops: nat, id: TaskId, g: Summarization.Generated)
    requires ops < |Ops| && Here(j, scene, ops) && Ops[ops] == SummaryRuns.Answer(id, g, false)
    ensures Here(Answered(j, id, g, false), scene, ops + 1)
    ensures SystemOf(C, Answered(j, id, g, false)) == SystemOf(C, j)
  {
    hide Ops, SystemInv, Run;
    assert Ops[..ops + 1] == Ops[..ops] + [Ops[ops]];
  }

  lemma Started()
    ensures Here(After(1), Scene(None, {}, {}, 0, []), 0)
    ensures SystemOf(C, After(1)).runtime.finalizing == {}
  {
    OneMoveMore(0);
    assert After(0) == Joint([], []);
    RunIsSafe(C, [StartRuntime]);
    OneMore(C, [], StartRuntime);
    assert [] + [StartRuntime] == [StartRuntime];
    assert Ops[..0] == [];
  }

  lemma TypedTurn(j: Joint, scene: Scene, ops: nat, text: string, t: TurnId)
    requires ops < |Ops| && Here(j, scene, ops) && scene.current.None? && t !in scene.turns
    requires text != "" && Strip(text) == text && scene.next !in scene.running
    requires Ops[ops] == SummaryRuns.Call(scene.next, text, false)
    ensures var j' := Advance(C, Tight, j, Go(Deliver(TextInput(text), t, true)));
      var s, s' := SystemOf(C, j), SystemOf(C, j');
      && Here(j', Scene(Some(t), scene.turns + {t}, scene.running + {scene.next}, scene.next + 2, scene.ledger),
              ops + 1)
      && IsAt(s', scene.next, t, text, Summarizing) && SameOthers(s, s', scene.next)
      && s'.runtime.finalizing <= s.runtime.finalizing
  {
    hide SystemOf, Apply, Ops, SystemInv, Take, Strip;
    var s, l := SystemOf(C, j), Deliver(TextInput(text), t, true);
    var s' := Apply(C, s, l);
    var scene' := Scene(Some(t), scene.turns + {t}, scene.running + {scene.next}, scene.next + 2, scene.ledger);
    TextBegins(s, scene, text, t);
    LiveToken(s', scene', scene.next);
    CallingMove(j, scene, ops, l, scene', Ops[ops]);
  }

  /** The pipeline goes on with the call it made already over. */
  lemma GoesOn(j: Joint, scene: Scene, ops: nat, id: TaskId, t: TurnId, text: string)
    requires ops <= |Ops| && Here(j, scene, ops) && IsAt(SystemOf(C, j), id, t, text, Summarizing)
    ensures var j' := Take(C, j, Resume(id, Ready, true));
      var s, s' := SystemOf(C, j), SystemOf(C, j');
      && Here(j', scene, ops) && IsAt(s', id, t, text, Streaming(0, "")) && SameOthers(s, s', id)
      && s'.runtime.finalizing <= s.runtime.finalizing
  {
    hide SystemOf, Apply, Ops, SystemInv, Take;
    SummaryReturns(SystemOf(C, j), scene, id, t, text);
    PlainStep(j, scene, ops, Resume(id, Ready, true), scene);
  }

  /** The answer ends the call, and the pipeline goes on. */
  lemma AnswerGoesOn(j: Joint, scene: Scene, ops: nat, id: TaskId, t: TurnId, text: string, g: Summarization.Generated)
    requires ops < |Ops| && Here(j, scene, ops) && IsAt(SystemOf(C, j), id, t, text, Summarizing)
    requires Ops[ops] == SummaryRuns.Answer(id, g, false) && id in Memory(ops).calls && id !in Memory(ops + 1).calls
    ensures var j' := Advance(C, Tight, j, Summarized(id, g, true));
      var s, s' := SystemOf(C, j), SystemOf(C, j');
      && Here(j', scene, ops + 1) && IsAt(s', id, t, text, Streaming(0, "")) && SameOthers(s, s', id)
  {
    hide SystemOf, Apply, Ops, SystemInv, Take;
    LiveToken(SystemOf(C, j), scene, id);
    AnsweredHere(j, scene, ops, id, g);
    GoesOn(Answered(j, id, g, false), scene, ops + 1, id, t, text);
  }

  lemma TokenMove(j: Joint, scene: Scene, ops: nat, id: TaskId, t: TurnId, text: string, delta: string)
    requires ops <= |Ops| && Here(j, scene, ops) && IsAt(SystemOf(C, j), id, t, text, Streaming(0, "")) && delta != ""
    ensures var j' := Advance(C, Tight, j, Go(Resume(id, Delta(delta), true)));
      var s, s' := SystemOf(C, j), SystemOf(C, j');
      && Here(j', scene, ops) && IsAt(s', id, t, text, Streaming(0, delta)) && SameOthers(s, s', id)
      && s'.runtime.finalizing <= s.runtime.finalizing
  {
    hide SystemOf, Apply, Ops, SystemInv, Take;
    TokenArrives(SystemOf(C, j), scene, id, t, text, delta);
    PlainStep(j, scene, ops, Resume(id, Delta(delta), true), scene);
  }

  lemma ReplyMove(j: Joint, scene: Scene, ops: nat, id: TaskId, t: TurnId, text: string, reply: string)
    requires ops + 1 < |Ops| && Here(j, scene, ops) && IsAt(SystemOf(C, j), id, t, text, Streaming(0, reply))
    requires scene.current == Some(t)
    requires var added := Exchange(|scene.ledger|, t, text, reply);
      Ops[ops] == SummaryRuns.Append(added[0]) && Ops[ops + 1] == SummaryRuns.Append(added[1])
    ensures var j' := Advance(C, Tight, j, Go(Resume(id, StreamEnd(0), true)));
      var s, s' := SystemOf(C, j), SystemOf(C, j');
      && Here(j', Scene(None, scene.turns, scene.running - {id}, scene.next,
                        scene.ledger + Exchange(|scene.ledger|, t, text, reply)), ops + 2)
      && SameOthers(s, s', id) && s'.runtime.finalizing <= s.runtime.finalizing
  {
    hide SystemOf, Apply, Ops, SystemInv, Take;
    var added := Exchange(|scene.ledger|, t, text, reply);
    ReplyEnds(SystemOf(C, j), scene, id, t, text, reply);
    PersistingMove(j, scene, ops, Resume(id, StreamEnd(0), true),
                   Scene(None, scene.turns, scene.running - {id}, scene.next, scene.ledger + added),
                   added[0], added[1]);
  }

  lemma SentenceIsText()
    ensures S != "" && Strip(S) == S && "u" != "" && Strip("u") == "u"
  {
    hide Strip, LStrip, RStrip;
    assert S[0] == 'a' && S[|S| - 1] == '.';
    StripOfStripped(S);
    StripOfStripped("u");
  }

  /** Turn 1: the first exchange is in the ledger. */
  lemma TypedTurnAnswered()
    ensures Here(After(5), Scene(None, {1}, {}, 2, Four[..2]), 3) && SystemOf(C, After(5)).runtime.finalizing == {}
  {
    hide Advance, SystemOf, Apply, Ops, SystemInv, Strip, JointRun, Moves, SummaryInContext.SENTENCE, Memory,
         SummaryRuns.Run;
    Started();
    SentenceIsText();
    FirstExchangeIsThere();
    OpsAre();
    MovesAre();
    OneMoveMore(1);
    TypedTurn(After(1), Scene(None, {}, {}, 0, []), 0, S, 1);
    var scene := Scene(Some(1), {1}, {0}, 2, []);
    assert Here(After(2), scene, 1);
    OneMoveMore(2);
    GoesOn(After(2), scene, 1, 0, 1, S);
    NotWaiting(After(2), 1, 0);
    OneMoveMore(3);
    TokenMove(After(3), scene, 1, 0, 1, S, S);
    OneMoveMore(4);
    ReplyMove(After(4), scene, 1, 0, 1, S, S);
    assert [] + Exchange(0, 1, S, S) == Four[..2];
    assert {0} - {0} == {};
  }

  lemma MovesAre()
    ensures |Moves| == 14
    ensures Moves[1] == Go(Deliver(TextInput(S), 1, true))
    ensures Moves[2] == Summarized(0, Summarization.GenerationFailed, true)
    ensures Moves[3] == Go(Resume(0, Delta(S), true)) && Moves[4] == Go(Resume(0, StreamEnd(0), true))
    ensures Moves[5] == Go(Deliver(SpeechStarted, 2, true))
    ensures Moves[6] == Go(Resume(3, Transcript("u", true), true)) && Moves[7] == Go(Deliver(SpeechEnded, 9, true))
    ensures Moves[8] == Summarized(4, Summarization.GenerationFailed, true)
    ensures Moves[9] == Go(Resume(4, Delta(S), true)) && Moves[10] == Go(Resume(4, StreamEnd(0), true))
    ensures Moves[11] == Go(Deliver(TextInput("u"), 3, true))
    ensures Moves[12] == Summarized(6, Summarization.Generated("s"), true)
    ensures Moves[13] == Summarized(3, Summarization.Generated("s"), true)
  {
  }

  lemma OpsAre()
    ensures |Ops| == 11
    ensures Ops[0] == SummaryRuns.Call(0, S, false)
    ensures Ops[1] == SummaryRuns.Append(Four[0]) && Ops[2] == SummaryRuns.Append(Four[1])
    ensures Ops[3] == SummaryRuns.Call(3, "u", false) && Ops[4] == SummaryRuns.Call(4, "u", false)
    ensures Ops[5] == SummaryRuns.Answer(4, Summarization.GenerationFailed, false)
    ensures Ops[6] == SummaryRuns.Append(Four[2]) && Ops[7] == SummaryRuns.Append(Four[3])
    ensures Ops[8] == SummaryRuns.Call(6, "u", false)
    ensures Ops[9] == SummaryRuns.Answer(6, Summarization.Generated("s"), false)
    ensures Ops[10] == SummaryRuns.Answer(3, Summarization.Generated("s"), false)
    ensures Four[..2] + Exchange(2, 2, "u", S) == Four
  {
  }

  lemma SpokenTurn(j: Joint, scene: Scene, ops: nat, t: TurnId)
    requires ops <= |Ops| && Here(j, scene, ops) && scene.current.None? && t !in scene.turns
    requires SystemOf(C, j).runtime.finalizing == {} && scene.next !in scene.running
    ensures var j' := Advance(C, Tight, j, Go(Deliver(SpeechStarted, t, true)));
      var s' := SystemOf(C, j');
      && Here(j', Scene(Some(t), scene.turns + {t}, scene.running + {scene.next + 1}, scene.next + 2, scene.ledger),
              ops)
      && s'.activities[scene.next + 1].SttStream? && s'.activities[scene.next + 1].turn == t
      && t in s'.runtime.sttTasks && s'.runtime.sttTasks[t] == scene.next + 1 && t !in s'.runtime.finalizing
  {
    hide SystemOf, Apply, Ops, SystemInv, Take;
    SpeechBegins(SystemOf(C, j), scene, t);
    PlainStep(j, scene, ops, Deliver(SpeechStarted, t, true),
              Scene(Some(t), scene.turns + {t}, scene.running + {scene.next + 1}, scene.next + 2, scene.ledger));
  }

  lemma TranscriptMove(j: Joint, scene: Scene, ops: nat, id: TaskId, t: TurnId, text: string)
    requires ops < |Ops| && Here(j, scene, ops) && scene.current == Some(t) && text != "" && Strip(text) == text
    requires var s := SystemOf(C, j);
      && id in s.activities && s.activities[id].SttStream? && s.activities[id].turn == t
      && t in s.runtime.sttTasks && s.runtime.sttTasks[t] == id && t !in s.runtime.finalizing
    requires Ops[ops] == SummaryRuns.Call(id, text, false)
    ensures var j' := Advance(C, Tight, j, Go(Resume(id, Transcript(text, true), true)));
      && Here(j', scene, ops + 1) && IsAt(SystemOf(C, j'), id, t, text, Summarizing)
      && ReadyForSecond(SystemOf(C, j').runtime, t, text)
  {
    hide SystemOf, Apply, Ops, SystemInv, Take, Strip, ReadyForSecond;
    var s, l := SystemOf(C, j), Resume(id, Transcript(text, true), true);
    TranscriptStarts(s, scene, id, t, text);
    LiveToken(Apply(C, s, l), scene, id);
    CallingMove(j, scene, ops, l, scene, Ops[ops]);
  }

  lemma SecondEndMove(j: Joint, scene: Scene, ops: nat, t: TurnId, text: string, unused: TurnId)
    requires ops < |Ops| && Here(j, scene, ops) && scene.current == Some(t) && text != "" && Strip(text) == text
    requires ReadyForSecond(SystemOf(C, j).runtime, t, text) && unused !in scene.turns && scene.next !in scene.running
    requires Ops[ops] == SummaryRuns.Call(scene.next, text, false)
    ensures var j' := Advance(C, Tight, j, Go(Deliver(SpeechEnded, unused, true)));
      var s, s' := SystemOf(C, j), SystemOf(C, j');
      && Here(j', scene.(running := scene.running + {scene.next}, next := scene.next + 2), ops + 1)
      && IsAt(s', scene.next, t, text, Summarizing) && SameOthers(s, s', scene.next)
  {
    hide SystemOf, Apply, Ops, SystemInv, Take, Strip, ReadyForSecond;
    var s, l := SystemOf(C, j), Deliver(SpeechEnded, unused, true);
    var scene' := scene.(running := scene.running + {scene.next}, next := scene.next + 2);
    SpeechEndsAgain(s, scene, t, text, unused);
    LiveToken(Apply(C, s, l), scene', scene.next);
    CallingMove(j, scene, ops, l, scene', Ops[ops]);
  }

  /** Turn 2: two pipelines of one turn wait for a summary of the same messages. */
  lemma TwoSummariesOnOneTurn()
    ensures Here(After(8), Scene(Some(2), {1, 2}, {3, 4}, 6, Four[..2]), 5)
    ensures IsAt(SystemOf(C, After(8)), 3, 2, "u", Summarizing) && IsAt(SystemOf(C, After(8)), 4, 2, "u", Summarizing)
    ensures MemoryOf(Tight, After(8)).calls.Keys == {3, 4}
  {
    hide Advance, SystemOf, Apply, Ops, SystemInv, Strip, JointRun, Moves, SummaryInContext.SENTENCE, SummaryRuns.Run,
         ReadyForSecond;
    TypedTurnAnswered();
    SentenceIsText();
    TwoCallsWait();
    OpsAre();
    MovesAre();
    OneMoveMore(5);
    SpokenTurn(After(5), Scene(None, {1}, {}, 2, Four[..2]), 3, 2);
    var scene := Scene(Some(2), {1, 2}, {3}, 4, Four[..2]);
    assert Here(After(6), scene, 3);
    OneMoveMore(6);
    TranscriptMove(After(6), scene, 3, 3, 2, "u");
    OneMoveMore(7);
    SecondEndMove(After(7), scene, 4, 2, "u", 9);
    assert {3} + {4} == {3, 4};
  }

  /** One of them answers the turn; the other one is left behind, still waiting. */
  lemma LeftBehind()
    ensures Here(After(11), Scene(None, {1, 2}, {3}, 6, Four), 8)
    ensures IsAt(SystemOf(C, After(11)), 3, 2, "u", Summarizing)
  {
    hide Advance, SystemOf, Apply, Ops, SystemInv, Strip, JointRun, Moves, SummaryInContext.SENTENCE, SummaryRuns.Run;
    TwoSummariesOnOneTurn();
    SentenceIsText();
    TwoCallsWait();
    OpsAre();
    MovesAre();
    var scene := Scene(Some(2), {1, 2}, {3, 4}, 6, Four[..2]);
    OneMoveMore(8);
    AnswerGoesOn(After(8), scene, 5, 4, 2, "u", Summarization.GenerationFailed);
    OneMoveMore(9);
    TokenMove(After(9), scene, 6, 4, 2, "u", S);
    OneMoveMore(10);
    ReplyMove(After(10), scene, 6, 4, 2, "u", S);
    assert {3, 4} - {4} == {3};
  }

  /** Turn 3 begins: its call and the leftover one wait together. */
  lemma ThirdTurnSummarizes()
    ensures Here(After(12), Scene(Some(3), {1, 2, 3}, {3, 6}, 8, Four), 9)
    ensures IsAt(SystemOf(C, After(12)), 3, 2, "u", Summarizing) && IsAt(SystemOf(C, After(12)), 6, 3, "u", Summarizing)
  {
    hide Advance, SystemOf, Apply, Ops, SystemInv, Strip, JointRun, Moves, SummaryInContext.SENTENCE, SummaryRuns.Run,
         SummaryInContext.Four;
    LeftBehind();
    SentenceIsText();
    OpsAre();
    MovesAre();
    OneMoveMore(11);
    TypedTurn(After(11), Scene(None, {1, 2}, {3}, 6, Four), 8, "u", 3);
    assert {1, 2} + {3} == {1, 2, 3} && {3} + {6} == {3, 6};
  }

  lemma BothSummariesArrive()
    ensures Here(After(14), Scene(Some(3), {1, 2, 3}, {3, 6}, 8, Four), 11)
  {
    hide Advance, SystemOf, Apply, Ops, SystemInv, JointRun, Moves, Memory, SummaryInContext.SENTENCE, SummaryRuns.Run,
         SummaryInContext.Four;
    ThirdTurnSummarizes();
    ThirdCallWaits();
    CoverageGoesBack();
    OpsAre();
    MovesAre();
    var scene := Scene(Some(3), {1, 2, 3}, {3, 6}, 8, Four);
    OneMoveMore(12);
    AnswerGoesOn(After(12), scene, 9, 6, 3, "u", Summarization.Generated("s"));
    OneMoveMore(13);
    AnswerGoesOn(After(13), scene, 10, 3, 2, "u", Summarization.Generated("s"));
  }

  /** Turn 3 stores a summary of three messages, and then the leftover call one of a single message: the stored coverage
      goes back from 3 to 1, in a run of the runtime itself. */
  lemma CoverageGoesBackInTheRuntime()
    ensures var memory := MemoryOf(Tight, JointRun(C, Tight, Moves));
      && |memory.upserts| == 2 && memory.store == Some(memory.upserts[1])
      && memory.upserts[0].summary.throughSequence == 3 && memory.upserts[1].summary.throughSequence == 1
    ensures SystemOf(C, JointRun(C, Tight, Moves)).runtime.ledger == Four
  {
    hide SystemOf, Ops, SystemInv, JointRun, Moves, SummaryRuns.Run, SummaryInContext.Four;
    BothSummariesArrive();
    CoverageGoesBack();
    OpsAre();
    MovesAre();
    assert Moves[..14] == Moves && Ops[..11] == Ops;
  }

  /** A summarizing pipeline whose call has returned goes on at once. */
  lemma NotWaiting(j: Joint, ops: nat, id: TaskId)
    requires ops <= |Ops| && j.ops == Ops[..ops] && id !in Memory(ops).calls && IsSummarizing(SystemOf(C, j), id)
    ensures Advance(C, Tight, j, Summarized(id, Summarization.GenerationFailed, true))
         == Take(C, j, Resume(id, Ready, true))
  {
    hide SystemOf, Ops, Take;
  }
}
