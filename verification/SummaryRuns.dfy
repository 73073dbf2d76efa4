/** Summaries over whole runs: appends and any number of overlapping `prepare` calls, in any order. */
module SummaryRuns {
  import opened Common
  import opened PyStrings
  import opened Conversation
  import opened ContextBudget
  import opened LlmContext
  import opened Summarization

  // ---- Coverage ----

  /** Counting messages carry strictly increasing ledger numbers. */
  ghost predicate Increasing(counting: seq<Message>, bound: int) {
    && (forall i :: 0 <= i < |counting| ==> counting[i].sequence.Some? && 1 <= counting[i].sequence.value <= bound)
    && (forall i, j :: 0 <= i < j < |counting| ==> counting[i].sequence.value < counting[j].sequence.value)
  }

  lemma {:induction false} CountingIsIncreasing(ledger: seq<Message>)
    requires Numbered(ledger)
    ensures Increasing(Counting(ledger), |ledger|)
  {
    if ledger != [] {
      var init := ledger[..|ledger| - 1];
      assert forall i :: 0 <= i < |init| ==> init[i] == ledger[i];
      CountingIsIncreasing(init);
    }
  }

  /** The provenance of a stored summary: its folded messages are the first counting messages of the ledger,
      in order and without repetition, up to and including the one numbered throughSequence. */
  ghost predicate Covers(st: Stored, ledger: seq<Message>) {
    && 0 < |st.folded| <= |Counting(ledger)|
    && st.folded == Counting(ledger)[..|st.folded|]
    && st.folded[|st.folded| - 1].sequence == Some(st.summary.throughSequence)
    && st.summary.sourceMessageCount == |st.folded|
    && st.summary.text != "" && IsStripped(st.summary.text)
  }

  ghost predicate StoreCovers(store: Option<Stored>, ledger: seq<Message>) {
    store.Some? ==> Covers(store.value, ledger)
  }

  /** Coverage in plain terms: a counting message was folded in exactly when its number is at most throughSequence. */
  lemma FoldedIsExactlyTheCovered(st: Stored, ledger: seq<Message>, m: Message)
    requires Numbered(ledger) && Covers(st, ledger) && m in Counting(ledger)
    ensures m.sequence.Some? && (m in st.folded <==> m.sequence.value <= st.summary.throughSequence)
  {
    CountingIsIncreasing(ledger);
    var counting := Counting(ledger);
    var i :| 0 <= i < |counting| && counting[i] == m;
    var n := |st.folded|;
    assert counting[n - 1] == st.folded[n - 1];
    if i < n {
      assert st.folded[i] == m;
    }
  }

  lemma CoverageSurvivesAppend(st: Stored, ledger: seq<Message>, ledger': seq<Message>)
    requires Covers(st, ledger) && ledger <= ledger'
    ensures Covers(st, ledger')
  {
    assert ledger' == ledger + ledger'[|ledger|..];
    CountingAppend(ledger, ledger'[|ledger|..]);
  }

  // ---- One call ----

  lemma {:induction false} UncoveredIsTail(
      messages: seq<Message>, counting: seq<Message>, through: int, n: nat, bound: int)
    requires Increasing(messages, bound) && n <= |messages|
    requires forall i :: 0 <= i < n ==> messages[i].sequence.value <= through
    requires forall i :: n <= i < |messages| ==> messages[i].sequence.value > through
    ensures Uncovered(messages, counting, through) == messages[n..]
  {
    if messages != [] {
      var rest := messages[1..];
      assert forall i :: 0 <= i < |rest| ==> rest[i] == messages[i + 1];
      UncoveredIsTail(rest, counting, through, if n == 0 then 0 else n - 1, bound);
    }
  }

  lemma {:induction false} LastSeqIsLast(messages: seq<Message>, counting: seq<Message>, bound: int)
    requires Increasing(messages, bound) && messages != []
    ensures LastSeq(messages, counting) == messages[|messages| - 1].sequence.value
  {
    if |messages| > 1 {
      var rest := messages[1..];
      assert forall i :: 0 <= i < |rest| ==> rest[i] == messages[i + 1];
      LastSeqIsLast(rest, counting, bound);
    }
  }

  lemma IncreasingPrefix(counting: seq<Message>, n: nat, bound: int)
    requires Increasing(counting, bound) && n <= |counting|
    ensures Increasing(counting[..n], bound)
  {
  }

  /** What a waiting call knows: it will fold exactly the dropped messages its summary base has not covered. */
  ghost predicate PlanIsSound(plan: Plan) {
    && Numbered(plan.history)
    && StoreCovers(plan.existing, plan.history)
    && 0 < |plan.dropped| <= |Counting(plan.history)|
    && plan.dropped == Counting(plan.history)[..|plan.dropped|]
    && plan.recent == Counting(plan.history)[|plan.dropped|..]
    && |FoldedOf(plan.existing)| < |plan.dropped|
    && plan.uncovered == plan.dropped[|FoldedOf(plan.existing)|..]
  }

  lemma BeginMakesSoundPlan(
      config: LlmConfig, store: Option<Stored>, ledger: seq<Message>, userText: string, cancelled: bool)
    requires Numbered(ledger) && StoreCovers(store, ledger)
    requires Begin(config, store, ledger, userText, cancelled).AwaitingFirst?
    ensures PlanIsSound(Begin(config, store, ledger, userText, cancelled).plan)
    ensures Begin(config, store, ledger, userText, cancelled).plan.existing == store
    ensures Begin(config, store, ledger, userText, cancelled).plan.history == ledger
    ensures Begin(config, store, ledger, userText, cancelled).plan.userText == userText
  {
    hide SelectHistory, ToLlm, Counting, Increasing, Covers, Uncovered;
    var plan := Begin(config, store, ledger, userText, cancelled).plan;
    var counting := Counting(ledger);
    CountingIsIncreasing(ledger);
    IncreasingPrefix(counting, |plan.dropped|, |ledger|);
    SplitAtCoverage(store, ledger, plan.dropped);
  }

  /** Filtering the dropped messages by number leaves exactly those past the folded ones. */
  lemma SplitAtCoverage(store: Option<Stored>, ledger: seq<Message>, dropped: seq<Message>)
    requires Numbered(ledger) && StoreCovers(store, ledger)
    requires |dropped| <= |Counting(ledger)| && dropped == Counting(ledger)[..|dropped|]
    ensures Uncovered(dropped, Counting(ledger), Through(store))
      == if |FoldedOf(store)| <= |dropped| then dropped[|FoldedOf(store)|..] else []
  {
    hide Counting;
    CountingIsIncreasing(ledger);
    var counting, n := Counting(ledger), |FoldedOf(store)|;
    IncreasingPrefix(counting, |dropped|, |ledger|);
    if store.Some? {
      assert counting[n - 1] == store.value.folded[n - 1];
    }
    UncoveredIsTail(dropped, counting, Through(store), if n <= |dropped| then n else |dropped|, |ledger|);
  }

  /** The base's folded messages followed by the uncovered ones are the dropped messages, nothing twice. */
  lemma FoldsToDropped(plan: Plan)
    requires PlanIsSound(plan)
    ensures FoldedOf(plan.existing) + plan.uncovered == plan.dropped
  {
    hide Counting;
    var counting, n := Counting(plan.history), |FoldedOf(plan.existing)|;
    assert FoldedOf(plan.existing) == counting[..n] == plan.dropped[..n];
    assert plan.dropped[..n] + plan.dropped[n..] == plan.dropped;
  }

  lemma LastDroppedIsNew(plan: Plan)
    requires PlanIsSound(plan)
    ensures plan.dropped[|plan.dropped| - 1].sequence == Some(LastSeq(plan.dropped, Counting(plan.history)))
    ensures LastSeq(plan.dropped, Counting(plan.history)) > Through(plan.existing)
  {
    hide Counting, LastSeq;
    CountingIsIncreasing(plan.history);
    var counting, n := Counting(plan.history), |FoldedOf(plan.existing)|;
    IncreasingPrefix(counting, |plan.dropped|, |plan.history|);
    LastSeqIsLast(plan.dropped, counting, |plan.history|);
    if plan.existing.Some? {
      assert counting[n - 1] == plan.existing.value.folded[n - 1];
    }
    assert plan.dropped[|plan.dropped| - 1] == counting[|plan.dropped| - 1];
  }

  /** An accepted summary covers every dropped message, reaches further than the one it was built on,
      and returns exactly the messages it does not cover. */
  lemma AcceptCovers(plan: Plan, text: string)
    requires PlanIsSound(plan) && Strip(text) != ""
    ensures var end := Accept(plan, text);
      && Covers(end.stored, plan.history)
      && end.stored.folded == plan.dropped
      && end.stored.summary.throughSequence > Through(plan.existing)
      && end.stored.folded + end.preparation.historyForAssembly == Counting(plan.history)
      && end.preparation.summaryText == Some(end.stored.summary.text)
  {
    hide Counting, LastSeq, Strip;
    FoldsToDropped(plan);
    LastDroppedIsNew(plan);
    assert plan.dropped + plan.recent == Counting(plan.history);
  }

  /** A cancelled call never reaches the store, at whichever check the cancellation is seen. */
  lemma CancelledCallStoresNothing(config: LlmConfig, store: Option<Stored>, history: seq<Message>, userText: string,
                                   first: Generated, shorter: Generated, before: bool, after: bool, late: bool)
    requires before || after || (late && first.Generated? && !SummaryFits(config, first.text, userText))
    ensures Outcome(config, store, history, userText, first, shorter, before, after, late).Returned?
  {
    hide SelectHistory, Counting, Uncovered, SummaryFits, Accept, ToLlm;
  }

  // ---- Runs ----

  datatype State = State(ledger: seq<Message>, store: Option<Stored>, calls: map<nat, Progress>, upserts: seq<Stored>)

  datatype Op =
    | Append(message: Message)
    | Call(call: nat, userText: string, cancelled: bool)
    | Answer(answered: nat, generated: Generated, cancelledNow: bool)

  /** A call that has returned is gone; one that upserts replaces the stored summary. */
  function Proceed(s: State, call: nat, next: Progress): State {
    match next
    case Returned(_) => s.(calls := s.calls - {call})
    case Upserted(_, st) => s.(calls := s.calls - {call}, store := Some(st), upserts := s.upserts + [st])
    case _ => s.(calls := s.calls[call := next])
  }

  function Step(config: LlmConfig, s: State, op: Op): State {
    match op
    case Append(m) => s.(ledger := AppendMessage(s.ledger, m))
    case Call(call, userText, cancelled) =>
      if call in s.calls then s else Proceed(s, call, Begin(config, s.store, s.ledger, userText, cancelled))
    case Answer(call, g, cancelled) =>
      if call !in s.calls then s
      else match s.calls[call]
        case AwaitingFirst(plan) =>
          if plan.dropped == [] then s else Proceed(s, call, AfterFirst(config, plan, g, cancelled))
        case AwaitingShorter(plan) =>
          if plan.dropped == [] then s else Proceed(s, call, AfterShorter(config, plan, g, cancelled))
        case _ => s
  }

  function Run(config: LlmConfig, ops: seq<Op>): State {
    if ops == [] then State([], None, map[], [])
    else Step(config, Run(config, ops[..|ops| - 1]), ops[|ops| - 1])
  }

  ghost predicate CallIsSound(p: Progress, ledger: seq<Message>) {
    && (p.AwaitingFirst? || p.AwaitingShorter?)
    && PlanIsSound(p.plan) && p.plan.history <= ledger
  }

  ghost predicate StateInv(s: State) {
    && Numbered(s.ledger)
    && StoreCovers(s.store, s.ledger)
    && (forall i :: 0 <= i < |s.upserts| ==> Covers(s.upserts[i], s.ledger))
    && (forall call :: call in s.calls ==> CallIsSound(s.calls[call], s.ledger))
  }

  lemma AppendKeeps(s: State, m: Message)
    requires StateInv(s)
    ensures StateInv(s.(ledger := AppendMessage(s.ledger, m)))
  {
    hide Covers, PlanIsSound;
    var ledger' := AppendMessage(s.ledger, m);
    if s.store.Some? {
      CoverageSurvivesAppend(s.store.value, s.ledger, ledger');
    }
    forall i | 0 <= i < |s.upserts|
      ensures Covers(s.upserts[i], ledger')
    {
      CoverageSurvivesAppend(s.upserts[i], s.ledger, ledger');
    }
  }

  lemma ProceedKeeps(s: State, call: nat, next: Progress)
    requires StateInv(s)
    requires next.Returned? || (next.Upserted? && Covers(next.stored, s.ledger)) || CallIsSound(next, s.ledger)
    ensures StateInv(Proceed(s, call, next))
  {
    hide Covers, PlanIsSound;
  }

  lemma SoundCallDrops(p: Progress, ledger: seq<Message>)
    requires CallIsSound(p, ledger)
    ensures p.plan.dropped != []
  {
  }

  lemma AnswerIsSound(config: LlmConfig, p: Progress, ledger: seq<Message>, g: Generated, cancelled: bool)
    requires CallIsSound(p, ledger)
    ensures var next :=
        if p.AwaitingFirst? then AfterFirst(config, p.plan, g, cancelled)
        else AfterShorter(config, p.plan, g, cancelled);
      && (next.Returned? || (next.Upserted? && Covers(next.stored, ledger)) || CallIsSound(next, ledger))
      && (next.Upserted? ==>
            next.stored.summary.throughSequence > Through(p.plan.existing)
            && next.stored.folded == FoldedOf(p.plan.existing) + p.plan.uncovered)
  {
    hide Covers, SummaryFits, Accept, Strip;
    var next :=
      if p.AwaitingFirst? then AfterFirst(config, p.plan, g, cancelled) else AfterShorter(config, p.plan, g, cancelled);
    var text := if g.Generated? then g.text else "";
    AnswerKeepsPlan(config, p.plan, g, cancelled);
    if next.Upserted? {
      AcceptCovers(p.plan, text);
      AcceptFolds(p.plan, text);
      CoverageSurvivesAppend(next.stored, p.plan.history, ledger);
    }
  }

  lemma AcceptFolds(plan: Plan, text: string)
    requires plan.dropped != []
    ensures Accept(plan, text).stored.folded == FoldedOf(plan.existing) + plan.uncovered
  {
  }

  lemma StepKeeps(config: LlmConfig, s: State, op: Op)
    requires StateInv(s)
    ensures StateInv(Step(config, s, op))
  {
    hide StoreCovers, PlanIsSound, Covers, Proceed, Begin, AfterFirst, AfterShorter;
    match op {
      case Append(m) => AppendKeeps(s, m);
      case Call(call, userText, cancelled) =>
        var begun := Begin(config, s.store, s.ledger, userText, cancelled);
        BeginEnds(config, s.store, s.ledger, userText, cancelled);
        if begun.AwaitingFirst? {
          BeginMakesSoundPlan(config, s.store, s.ledger, userText, cancelled);
        }
        ProceedKeeps(s, call, begun);
      case Answer(call, g, cancelled) =>
        if call in s.calls {
          SoundCallDrops(s.calls[call], s.ledger);
          AnswerIsSound(config, s.calls[call], s.ledger, g, cancelled);
          var p := s.calls[call];
          ProceedKeeps(s, call, if p.AwaitingFirst? then AfterFirst(config, p.plan, g, cancelled)
                                else AfterShorter(config, p.plan, g, cancelled));
        }
    }
  }

  lemma BeginEnds(config: LlmConfig, store: Option<Stored>, history: seq<Message>, userText: string, cancelled: bool)
    ensures Begin(config, store, history, userText, cancelled).Returned?
      || Begin(config, store, history, userText, cancelled).AwaitingFirst?
  {
  }

  lemma {:induction false} RunIsSound(config: LlmConfig, ops: seq<Op>)
    ensures StateInv(Run(config, ops))
  {
    hide Step;
    if ops != [] {
      RunIsSound(config, ops[..|ops| - 1]);
      StepKeeps(config, Run(config, ops[..|ops| - 1]), ops[|ops| - 1]);
    }
  }

  // ---- What holds over every run ----

  /** However calls overlap, every summary ever stored covers exactly the counting messages up to its number. */
  lemma EverySummaryCoversItsPrefix(config: LlmConfig, ops: seq<Op>, i: nat, m: Message)
    requires i < |Run(config, ops).upserts| && m in Counting(Run(config, ops).ledger)
    ensures var st := Run(config, ops).upserts[i];
      && m.sequence.Some? && (m in st.folded <==> m.sequence.value <= st.summary.throughSequence)
      && st.summary.sourceMessageCount == |st.folded|
      && st.folded <= Counting(Run(config, ops).ledger)
  {
    hide PlanIsSound;
    RunIsSound(config, ops);
    FoldedIsExactlyTheCovered(Run(config, ops).upserts[i], Run(config, ops).ledger, m);
  }

  lemma AnswerKeepsPlan(config: LlmConfig, plan: Plan, g: Generated, cancelled: bool)
    requires plan.dropped != []
    ensures AfterFirst(config, plan, g, cancelled).AwaitingShorter? ==>
      AfterFirst(config, plan, g, cancelled).plan == plan
    ensures !AfterFirst(config, plan, g, cancelled).AwaitingFirst?
    ensures AfterShorter(config, plan, g, cancelled).Returned? || AfterShorter(config, plan, g, cancelled).Upserted?
  {
    hide SummaryFits, Strip, Counting, LastSeq;
  }
}
