/**
 * Summarizing inside the runtime: the pipelines of the step machine call `prepare` where they suspend to summarize,
 * on the ledger that other pipelines are writing to.
 */
module RuntimeSummaries {
  import opened Common
  import opened PyStrings
  import opened Conversation
  import opened LlmContext
  import opened TurnLifecycle
  import opened Events
  import opened RuntimeSpec
  import opened RuntimeMachine
  import opened RuntimeInvariants
  import opened ScheduleSafety
  import RunTheorems
  import Summarization
  import SummaryRuns
  import SummaryOrder

  /** The steps the runtime has taken, and what they meant to the summarizer. */
  datatype Joint = Joint(labels: seq<Label>, ops: seq<SummaryRuns.Op>)

  function SystemOf(c: Config, j: Joint): System {
    Run(c, j.labels)
  }

  function MemoryOf(config: LlmConfig, j: Joint): SummaryRuns.State {
    SummaryRuns.Run(config, j.ops)
  }

  predicate IsSummarizing(s: System, id: TaskId) {
    id in s.activities && s.activities[id].Pipeline? && s.activities[id].stage.Summarizing?
  }

  /** What was persisted is appended to the ledger the summarizer reads. */
  function Appends(before: seq<Message>, after: seq<Message>): seq<SummaryRuns.Op>
    decreases |after|
  {
    if |after| <= |before| then []
    else Appends(before, after[..|after| - 1]) + [SummaryRuns.Append(after[|after| - 1])]
  }

  /** A pipeline that has just come to its summarizing stage calls `prepare` in that same step. */
  function NewCall(s: System, s': System, l: Label): seq<SummaryRuns.Op> {
    if !l.Deliver? && !l.Resume? then []
    else
      var id := if l.Deliver? then s.nextTask else l.task;
      if IsSummarizing(s', id) && !IsSummarizing(s, id) then
        var p := s'.activities[id];
        [SummaryRuns.Call(id, p.userText, s'.runtime.Gone(p.turn, p.token))]
      else []
  }

  function Take(c: Config, j: Joint, l: Label): Joint {
    var s := SystemOf(c, j);
    var s' := Apply(c, s, l);
    Joint(j.labels + [l], j.ops + Appends(s.runtime.ledger, s'.runtime.ledger) + NewCall(s, s', l))
  }

  datatype Move =
    | Go(step: Label)
    | Summarized(pipeline: TaskId, generated: Summarization.Generated, fits: bool)

  function Answered(j: Joint, id: TaskId, g: Summarization.Generated, gone: bool): Joint {
    j.(ops := j.ops + [SummaryRuns.Answer(id, g, gone)])
  }

  /** A summarizing pipeline goes on when its call has returned, which may take a second text. Abandoning it abandons
      its call. */
  function Advance(c: Config, config: LlmConfig, j: Joint, m: Move): Joint {
    var s, memory := SystemOf(c, j), MemoryOf(config, j);
    match m
    case Go(l) =>
      if l.Resume? && IsSummarizing(s, l.task) then j
      else if l.Abandon? && l.task in memory.calls then
        Take(c, Answered(j, l.task, Summarization.GenerationFailed, true), l)
      else Take(c, j, l)
    case Summarized(id, g, fits) =>
      if !IsSummarizing(s, id) then j
      else
        var p := s.activities[id];
        var heard := if id in memory.calls then Answered(j, id, g, s.runtime.Gone(p.turn, p.token)) else j;
        if id in MemoryOf(config, heard).calls then heard else Take(c, heard, Resume(id, Ready, fits))
  }

  function JointRun(c: Config, config: LlmConfig, moves: seq<Move>): Joint {
    if moves == [] then Joint([], [])
    else Advance(c, config, JointRun(c, config, moves[..|moves| - 1]), moves[|moves| - 1])
  }

  // ---- One ledger ----

  /** A waiting call belongs to a summarizing pipeline and was made with its text. */
  ghost predicate CallsArePipelines(s: System, memory: SummaryRuns.State) {
    forall id :: id in memory.calls ==>
      && IsSummarizing(s, id) && SummaryOrder.Waits(memory, id)
      && memory.calls[id].plan.userText == s.activities[id].userText
  }

  ghost predicate JointInv(c: Config, config: LlmConfig, j: Joint) {
    && MemoryOf(config, j).ledger == SystemOf(c, j).runtime.ledger
    && CallsArePipelines(SystemOf(c, j), MemoryOf(config, j))
  }

  lemma {:induction false} AppendsFollow(
      config: LlmConfig, ops: seq<SummaryRuns.Op>, before: seq<Message>, after: seq<Message>)
    requires SummaryRuns.Run(config, ops).ledger == before && before <= after && Numbered(after)
    ensures SummaryRuns.Run(config, ops + Appends(before, after)) == SummaryRuns.Run(config, ops).(ledger := after)
    decreases |after|
  {
    hide SummaryRuns.Run, SummaryRuns.Step;
    if |after| <= |before| {
      assert ops + [] == ops && after == before;
    } else {
      var init, last := after[..|after| - 1], after[|after| - 1];
      assert forall i :: 0 <= i < |init| ==> init[i] == after[i];
      AppendsFollow(config, ops, before, init);
      assert ops + Appends(before, after) == ops + Appends(before, init) + [SummaryRuns.Append(last)];
      SummaryOrder.OneStepMore(config, ops + Appends(before, init), SummaryRuns.Append(last));
      AppendingStep(config, SummaryRuns.Run(config, ops).(ledger := init), last);
      assert last.(sequence := Some(|init| + 1)) == last;
      assert init + [last] == after;
    }
  }

  lemma AppendingStep(config: LlmConfig, memory: SummaryRuns.State, m: Message)
    ensures SummaryRuns.Step(config, memory, SummaryRuns.Append(m))
      == memory.(ledger := memory.ledger + [m.(sequence := Some(|memory.ledger| + 1))])
  {
  }

  /** A step leaves every activity but its own as it is. */
  lemma OthersStay(c: Config, s: System, l: Label, id: TaskId)
    requires SystemInv(s) && id in s.activities
    requires !(l.Resume? && l.task == id) && !(l.Abandon? && l.task == id)
    ensures id in Apply(c, s, l).activities && Apply(c, s, l).activities[id] == s.activities[id]
  {
    hide Inv, HandleInput, ResumeActivity, AbandonActivity, Stop, Start, ActivityOk;
  }

  lemma StepOf(c: Config, j: Joint, l: Label)
    ensures SystemOf(c, Take(c, j, l)) == Apply(c, SystemOf(c, j), l)
  {
    hide Run, Apply, NewCall, Appends;
    RunTheorems.OneMore(c, j.labels, l);
  }

  lemma LedgerGrows(c: Config, s: System, l: Label)
    requires SystemInv(s)
    ensures s.runtime.ledger <= Apply(c, s, l).runtime.ledger && Numbered(Apply(c, s, l).runtime.ledger)
    ensures s.runtime.context.cancelled <= Apply(c, s, l).runtime.context.cancelled
    ensures SystemInv(Apply(c, s, l))
  {
    hide Apply, ActivityOk, OnlyFailingRaises;
    StepOk(c, s, l);
    CancelledGrows(s.runtime, Apply(c, s, l).runtime);
  }

  lemma CancelledGrows(r: Runtime, r': Runtime)
    requires Leads(r, r')
    ensures r.context.cancelled <= r'.context.cancelled && r.ledger <= r'.ledger
  {
    hide WasSpoken;
  }

  /** What a step of the runtime does to the summarizer's side: the new messages arrive, and at most one call begins, on
      the summary stored at that moment. */
  lemma TakeEffect(c: Config, config: LlmConfig, j: Joint, l: Label)
    requires JointInv(c, config, j)
    requires l.Resume? || l.Abandon? ==> l.task !in MemoryOf(config, j).calls
    ensures JointInv(c, config, Take(c, j, l))
    ensures var memory, memory' := MemoryOf(config, j), MemoryOf(config, Take(c, j, l));
      && memory'.store == memory.store && memory'.upserts == memory.upserts
      && (forall id :: id in memory.calls ==> id in memory'.calls && memory'.calls[id] == memory.calls[id])
      && (forall id :: id in memory'.calls && id !in memory.calls ==>
            SummaryOrder.Waits(memory', id) && memory'.calls[id].plan.existing == memory.store)
  {
    hide Run, Apply, SummaryRuns.Run, SummaryRuns.Step, SystemInv, Appends, SummaryRuns.StateInv;
    var s, s' := SystemOf(c, j), Apply(c, SystemOf(c, j), l);
    var memory := MemoryOf(config, j);
    RunIsSafe(c, j.labels);
    LedgerGrows(c, s, l);
    StepOf(c, j, l);
    AppendsFollow(config, j.ops, s.runtime.ledger, s'.runtime.ledger);
    var appended := j.ops + Appends(s.runtime.ledger, s'.runtime.ledger);
    forall id | id in memory.calls
      ensures id in s'.activities && s'.activities[id] == s.activities[id]
    {
      OthersStay(c, s, l, id);
    }
    var call := NewCall(s, s', l);
    if call == [] {
      assert appended + call == appended;
    } else {
      var id, p := call[0].call, s'.activities[call[0].call];
      assert call == [SummaryRuns.Call(id, p.userText, call[0].cancelled)];
      SummaryRuns.RunIsSound(config, appended);
      SummaryOrder.OneStepMore(config, appended, call[0]);
      CallingStep(config, SummaryRuns.Run(config, appended), id, p.userText, call[0].cancelled);
    }
  }

  lemma CallingStep(config: LlmConfig, memory: SummaryRuns.State, id: nat, userText: string, cancelled: bool)
    requires SummaryRuns.StateInv(memory) && id !in memory.calls
    ensures var memory' := SummaryRuns.Step(config, memory, SummaryRuns.Call(id, userText, cancelled));
      && memory'.store == memory.store && memory'.upserts == memory.upserts && memory'.ledger == memory.ledger
      && memory'.calls.Keys <= memory.calls.Keys + {id}
      && (forall k :: k in memory.calls ==> k in memory'.calls && memory'.calls[k] == memory.calls[k])
      && (id in memory'.calls ==>
            && SummaryOrder.Waits(memory', id)
            && memory'.calls[id].plan.existing == memory.store && memory'.calls[id].plan.userText == userText)
  {
    hide SummaryRuns.StoreCovers, SummaryRuns.PlanIsSound, SummaryRuns.Covers, Summarization.Begin;
    SummaryRuns.BeginEnds(config, memory.store, memory.ledger, userText, cancelled);
    if Summarization.Begin(config, memory.store, memory.ledger, userText, cancelled).AwaitingFirst? {
      SummaryRuns.BeginMakesSoundPlan(config, memory.store, memory.ledger, userText, cancelled);
    }
  }

  /** An answer moves only the call it answers; a cancelled or failed one ends the call or, once more, asks for nothing;
      and only an answer to a live call can store a summary, built on what that call knew. */
  lemma AnswerEffect(config: LlmConfig, j: Joint, id: TaskId, g: Summarization.Generated, gone: bool)
    requires id in MemoryOf(config, j).calls
    ensures var memory, memory' := MemoryOf(config, j), MemoryOf(config, Answered(j, id, g, gone));
      && SummaryOrder.Waits(memory, id) && memory'.ledger == memory.ledger
      && memory'.calls.Keys <= memory.calls.Keys
      && (forall k :: k in memory.calls && k != id ==> k in memory'.calls && memory'.calls[k] == memory.calls[k])
      && (id in memory'.calls ==>
            SummaryOrder.Waits(memory', id) && memory'.calls[id].plan == memory.calls[id].plan)
      && (memory'.upserts == memory.upserts ==> memory'.store == memory.store)
      && (memory'.upserts != memory.upserts ==>
            && !gone && id !in memory'.calls && memory'.store.Some?
            && memory'.upserts == memory.upserts + [memory'.store.value]
            && memory'.store.value.summary.throughSequence > Summarization.Through(memory.calls[id].plan.existing))
      && (gone ==> id !in memory'.calls)
  {
    hide SummaryRuns.Run, SummaryRuns.StateInv;
    SummaryOrder.OneStepMore(config, j.ops, SummaryRuns.Answer(id, g, gone));
    SummaryRuns.RunIsSound(config, j.ops);
    AnsweringStep(config, MemoryOf(config, j), id, g, gone);
  }

  lemma AnsweringStep(config: LlmConfig, memory: SummaryRuns.State, id: nat, g: Summarization.Generated, gone: bool)
    requires SummaryRuns.StateInv(memory) && id in memory.calls
    ensures var memory' := SummaryRuns.Step(config, memory, SummaryRuns.Answer(id, g, gone));
      && SummaryOrder.Waits(memory, id) && memory'.ledger == memory.ledger
      && memory'.calls.Keys <= memory.calls.Keys
      && (forall k :: k in memory.calls && k != id ==> k in memory'.calls && memory'.calls[k] == memory.calls[k])
      && (id in memory'.calls ==>
            SummaryOrder.Waits(memory', id) && memory'.calls[id].plan == memory.calls[id].plan)
      && (memory'.upserts == memory.upserts ==> memory'.store == memory.store)
      && (memory'.upserts != memory.upserts ==>
            && !gone && id !in memory'.calls && memory'.store.Some?
            && memory'.upserts == memory.upserts + [memory'.store.value]
            && memory'.store.value.summary.throughSequence > Summarization.Through(memory.calls[id].plan.existing))
      && (gone ==> id !in memory'.calls)
  {
    hide SummaryRuns.StoreCovers, SummaryRuns.PlanIsSound, SummaryRuns.Covers,
         Summarization.AfterFirst, Summarization.AfterShorter;
    var p := memory.calls[id];
    SummaryRuns.SoundCallDrops(p, memory.ledger);
    SummaryRuns.AnswerIsSound(config, p, memory.ledger, g, gone);
    SummaryRuns.AnswerKeepsPlan(config, p.plan, g, gone);
    GoneEnds(config, p.plan, g, gone);
  }

  lemma GoneEnds(config: LlmConfig, plan: Summarization.Plan, g: Summarization.Generated, gone: bool)
    requires plan.dropped != []
    ensures gone ==> Summarization.AfterFirst(config, plan, g, gone).Returned?
    ensures gone ==> Summarization.AfterShorter(config, plan, g, gone).Returned?
  {
    hide Strip, Summarization.SummaryFits;
  }

  lemma AdvanceKeeps(c: Config, config: LlmConfig, j: Joint, m: Move)
    requires JointInv(c, config, j)
    ensures JointInv(c, config, Advance(c, config, j, m))
  {
    hide Run, SummaryRuns.Run, Take;
    match m {
      case Go(l) =>
        if l.Abandon? && l.task in MemoryOf(config, j).calls {
          AnswerEffect(config, j, l.task, Summarization.GenerationFailed, true);
          TakeEffect(c, config, Answered(j, l.task, Summarization.GenerationFailed, true), l);
        } else if !(l.Resume? && IsSummarizing(SystemOf(c, j), l.task)) {
          TakeEffect(c, config, j, l);
        }
      case Summarized(id, g, fits) =>
        if IsSummarizing(SystemOf(c, j), id) {
          var p := SystemOf(c, j).activities[id];
          var gone := SystemOf(c, j).runtime.Gone(p.turn, p.token);
          if id in MemoryOf(config, j).calls {
            AnswerEffect(config, j, id, g, gone);
          }
          var heard := if id in MemoryOf(config, j).calls then Answered(j, id, g, gone) else j;
          if id !in MemoryOf(config, heard).calls {
            TakeEffect(c, config, heard, Resume(id, Ready, fits));
          }
        }
    }
  }

  /** In every run the summarizer reads the runtime's own ledger, and every waiting call is a pipeline suspended in
      it. */
  lemma {:induction false} SummarizerSharesTheLedger(c: Config, config: LlmConfig, moves: seq<Move>)
    ensures JointInv(c, config, JointRun(c, config, moves))
  {
    hide Advance;
    if moves != [] {
      SummarizerSharesTheLedger(c, config, moves[..|moves| - 1]);
      AdvanceKeeps(c, config, JointRun(c, config, moves[..|moves| - 1]), moves[|moves| - 1]);
    }
  }

  /** However pipelines, inputs and summaries interleave: every summary ever stored has folded in exactly the counting
      messages of the runtime's ledger up to its through_sequence. */
  lemma StoredSummariesCoverTheRuntimeLedger(c: Config, config: LlmConfig, moves: seq<Move>, i: nat, m: Message)
    requires i < |MemoryOf(config, JointRun(c, config, moves)).upserts|
    requires m in Counting(SystemOf(c, JointRun(c, config, moves)).runtime.ledger)
    ensures var j := JointRun(c, config, moves);
      var st := MemoryOf(config, j).upserts[i];
      && m.sequence.Some? && (m in st.folded <==> m.sequence.value <= st.summary.throughSequence)
      && st.summary.sourceMessageCount == |st.folded|
      && st.folded <= Counting(SystemOf(c, j).runtime.ledger)
  {
    hide JointRun, SummaryRuns.Run, Run;
    SummarizerSharesTheLedger(c, config, moves);
    SummaryRuns.EverySummaryCoversItsPrefix(config, JointRun(c, config, moves).ops, i, m);
  }

  // ---- Barge-ins are harmless ----

  /** No two waiting calls belong to turns that are both uncancelled. */
  ghost predicate OneLiveCall(c: Config, config: LlmConfig, j: Joint) {
    var s, memory := SystemOf(c, j), MemoryOf(config, j);
    forall a, b :: a in memory.calls && b in memory.calls && a != b ==>
      !IsLive(s, a) || !IsLive(s, b)
  }

  predicate IsLive(s: System, id: TaskId) {
    IsSummarizing(s, id) && s.activities[id].turn !in s.runtime.context.cancelled
  }

  /** Every live call builds on the stored summary, which is the last upsert and reaches furthest. */
  ghost predicate LiveIsCurrent(c: Config, config: LlmConfig, j: Joint) {
    var s, memory := SystemOf(c, j), MemoryOf(config, j);
    && SummaryOrder.Rises(memory.upserts)
    && memory.store == (if memory.upserts == [] then None else Some(memory.upserts[|memory.upserts| - 1]))
    && forall id :: id in memory.calls && SummaryOrder.Waits(memory, id) && IsLive(s, id) ==>
         memory.calls[id].plan.existing == memory.store
  }

  lemma LiveBefore(c: Config, s: System, l: Label, id: TaskId)
    requires SystemInv(s) && id in s.activities
    requires !(l.Resume? && l.task == id) && !(l.Abandon? && l.task == id)
    ensures IsLive(Apply(c, s, l), id) ==> IsLive(s, id)
  {
    hide Apply, SystemInv;
    OthersStay(c, s, l, id);
    LedgerGrows(c, s, l);
  }

  lemma TakeStaysCurrent(c: Config, config: LlmConfig, j: Joint, l: Label)
    requires JointInv(c, config, j) && LiveIsCurrent(c, config, j)
    requires l.Resume? || l.Abandon? ==> l.task !in MemoryOf(config, j).calls
    ensures LiveIsCurrent(c, config, Take(c, j, l))
  {
    hide Run, Apply, SummaryRuns.Run, Take, SystemInv, SummaryOrder.Rises;
    TakeEffect(c, config, j, l);
    RunIsSafe(c, j.labels);
    StepOf(c, j, l);
    forall id | id in MemoryOf(config, j).calls
      ensures IsLive(SystemOf(c, Take(c, j, l)), id) ==> IsLive(SystemOf(c, j), id)
    {
      LiveBefore(c, SystemOf(c, j), l, id);
    }
  }

  lemma LiveIsNotGone(c: Config, j: Joint, id: TaskId)
    requires IsSummarizing(SystemOf(c, j), id)
    ensures var s := SystemOf(c, j);
      s.runtime.Gone(s.activities[id].turn, s.activities[id].token) <==> !IsLive(s, id)
  {
    hide Run, Core;
    RunIsSafe(c, j.labels);
    RunTheorems.GoneMeansCancelled(SystemOf(c, j).runtime, SystemOf(c, j).activities[id]);
  }

  lemma AnswerStaysCurrent(c: Config, config: LlmConfig, j: Joint, id: TaskId, g: Summarization.Generated, gone: bool)
    requires JointInv(c, config, j) && LiveIsCurrent(c, config, j) && OneLiveCall(c, config, j)
    requires id in MemoryOf(config, j).calls && (!gone ==> IsLive(SystemOf(c, j), id))
    ensures LiveIsCurrent(c, config, Answered(j, id, g, gone))
  {
    hide Run, SummaryRuns.Run, SummaryOrder.Rises;
    AnswerEffect(config, j, id, g, gone);
    var memory, memory' := MemoryOf(config, j), MemoryOf(config, Answered(j, id, g, gone));
    if memory'.upserts != memory.upserts {
      SummaryOrder.RisesAppend(memory.upserts, memory'.store.value);
    }
  }

  lemma AdvanceStaysCurrent(c: Config, config: LlmConfig, j: Joint, m: Move)
    requires JointInv(c, config, j) && LiveIsCurrent(c, config, j) && OneLiveCall(c, config, j)
    ensures LiveIsCurrent(c, config, Advance(c, config, j, m))
  {
    hide Run, SummaryRuns.Run, Take, LiveIsCurrent, OneLiveCall;
    match m {
      case Go(l) =>
        if l.Abandon? && l.task in MemoryOf(config, j).calls {
          AnswerEffect(config, j, l.task, Summarization.GenerationFailed, true);
          AnswerStaysCurrent(c, config, j, l.task, Summarization.GenerationFailed, true);
          TakeStaysCurrent(c, config, Answered(j, l.task, Summarization.GenerationFailed, true), l);
        } else if !(l.Resume? && IsSummarizing(SystemOf(c, j), l.task)) {
          TakeStaysCurrent(c, config, j, l);
        }
      case Summarized(id, g, fits) =>
        if IsSummarizing(SystemOf(c, j), id) {
          LiveIsNotGone(c, j, id);
          var p := SystemOf(c, j).activities[id];
          var gone := SystemOf(c, j).runtime.Gone(p.turn, p.token);
          if id in MemoryOf(config, j).calls {
            AnswerEffect(config, j, id, g, gone);
            AnswerStaysCurrent(c, config, j, id, g, gone);
          }
          var heard := if id in MemoryOf(config, j).calls then Answered(j, id, g, gone) else j;
          if id !in MemoryOf(config, heard).calls {
            TakeStaysCurrent(c, config, heard, Resume(id, Ready, fits));
          }
        }
    }
  }

  /** As long as no two waiting calls belong to uncancelled turns, the coverage strictly increases at every upsert: a
      barge-in during summarizing does no harm, only a second pipeline on a turn that goes on does. */
  lemma {:induction false} CoverageRisesUnlessTwoAreLive(c: Config, config: LlmConfig, moves: seq<Move>)
    requires forall n :: 0 <= n < |moves| ==> OneLiveCall(c, config, JointRun(c, config, moves[..n]))
    ensures LiveIsCurrent(c, config, JointRun(c, config, moves))
    ensures SummaryOrder.Rises(MemoryOf(config, JointRun(c, config, moves)).upserts)
  {
    hide Advance, OneLiveCall;
    if moves == [] {
      assert MemoryOf(config, Joint([], [])) == SummaryRuns.State([], None, map[], []);
    } else {
      var init := moves[..|moves| - 1];
      forall n | 0 <= n < |init| ensures OneLiveCall(c, config, JointRun(c, config, init[..n])) {
        assert init[..n] == moves[..n];
      }
      CoverageRisesUnlessTwoAreLive(c, config, init);
      SummarizerSharesTheLedger(c, config, init);
      assert OneLiveCall(c, config, JointRun(c, config, moves[..|moves| - 1]));
      AdvanceStaysCurrent(c, config, JointRun(c, config, init), moves[|moves| - 1]);
    }
  }
}
