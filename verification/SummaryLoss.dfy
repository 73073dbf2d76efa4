/** Which messages one `prepare` call gives back: as history, or inside the summary it returns. */
module SummaryLoss {
  import opened Common
  import opened PyStrings
  import opened Conversation
  import opened ContextBudget
  import opened LlmContext
  import opened Summarization
  import opened SummaryRuns
  import SummaryInContext

  /** What the returned summary text stands for: the stored summary's messages, those of the one it was based on, or
      none when no text is returned. */
  function Carried(base: Option<Stored>, end: Progress): seq<Message>
    requires end.Returned? || end.Upserted?
  {
    if end.Upserted? then end.stored.folded
    else if end.preparation.summaryText.Some? then FoldedOf(base)
    else []
  }

  /** Neither in the history for assembly nor behind the returned summary. */
  predicate IsLost(end: Progress, base: Option<Stored>, m: Message)
    requires end.Returned? || end.Upserted?
  {
    m !in end.preparation.historyForAssembly && m !in Carried(base, end)
  }

  ghost predicate KeepsAll(history: seq<Message>, base: Option<Stored>, end: Progress)
    requires end.Returned? || end.Upserted?
  {
    forall m :: m in Counting(history) ==> !IsLost(end, base, m)
  }

  lemma InSplit(whole: seq<Message>, n: nat, m: Message)
    requires n <= |whole| && m in whole
    ensures m in whole[..n] || m in whole[n..]
  {
    assert whole == whole[..n] + whole[n..];
  }

  /** Numbered messages occur once, so what lies between two cuts lies in neither outer part. */
  lemma MiddleIsOutside(counting: seq<Message>, from: nat, to: nat, bound: int, m: Message)
    requires Increasing(counting, bound) && from <= to <= |counting| && m in counting
    ensures m in counting[from..to] <==> m !in counting[..from] && m !in counting[to..]
  {
    var i :| 0 <= i < |counting| && counting[i] == m;
    if i < from {
      assert counting[..from][i] == m;
    } else if i < to {
      assert counting[from..to][i - from] == m;
    } else {
      assert counting[to..][i - to] == m;
    }
  }

  /** Falling back to the earlier summary and the recent messages loses exactly the uncovered ones. */
  lemma FallingBackLosesUncovered(plan: Plan, m: Message)
    requires PlanIsSound(plan) && m in Counting(plan.history)
    ensures IsLost(Returned(Preparation(TextOf(plan.existing), plan.recent)), plan.existing, m) <==> m in plan.uncovered
  {
    hide Counting;
    CountingIsIncreasing(plan.history);
    var counting, n, k := Counting(plan.history), |FoldedOf(plan.existing)|, |plan.dropped|;
    MiddleIsOutside(counting, n, k, |plan.history|, m);
    assert FoldedOf(plan.existing) == counting[..n];
    assert plan.uncovered == counting[n..k];
  }

  lemma PlanDrops(plan: Plan)
    requires PlanIsSound(plan)
    ensures plan.dropped != []
  {
  }

  lemma UncoveredCounts(plan: Plan)
    requires PlanIsSound(plan)
    ensures plan.uncovered != [] && plan.uncovered[0] in Counting(plan.history)
  {
    hide Counting;
    var n := |FoldedOf(plan.existing)|;
    assert plan.uncovered[0] == plan.dropped[n] == Counting(plan.history)[n];
  }

  lemma {:induction false} CountingIsPart(history: seq<Message>)
    ensures forall m :: m in Counting(history) ==> m in history
  {
  }

  lemma AcceptKeepsAll(plan: Plan, text: string)
    requires PlanIsSound(plan)
    ensures KeepsAll(plan.history, plan.existing, Accept(plan, text))
  {
    hide Counting, LastSeq, Strip;
    FoldsToDropped(plan);
    forall m | m in Counting(plan.history) ensures !IsLost(Accept(plan, text), plan.existing, m) {
      InSplit(Counting(plan.history), |plan.dropped|, m);
    }
  }

  /** The answer to the first request ends the call with nothing lost, exactly unless it came back blank or finds the
      turn cancelled; then the uncovered messages are lost, all of them and no others. */
  lemma FirstAnswerKeepsIff(config: LlmConfig, plan: Plan, g: Generated, cancelled: bool)
    requires PlanIsSound(plan) && !AfterFirst(config, plan, g, cancelled).AwaitingShorter?
    ensures var end := AfterFirst(config, plan, g, cancelled);
      && (end.Returned? || end.Upserted?)
      && (KeepsAll(plan.history, plan.existing, end) <==> !(g.Generated? && (cancelled || Strip(g.text) == "")))
      && (!KeepsAll(plan.history, plan.existing, end) ==>
            forall m :: m in Counting(plan.history) ==> (IsLost(end, plan.existing, m) <==> m in plan.uncovered))
  {
    hide Counting, SummaryFits, Accept, Strip, PlanIsSound, IsLost;
    PlanDrops(plan);
    AnswerKeepsPlan(config, plan, g, cancelled);
    match g {
      case GenerationFailed => WholeHistoryKeepsAll(plan.history, plan.existing);
      case Generated(text) =>
        if cancelled || Strip(text) == "" {
          UncoveredCounts(plan);
          forall m | m in Counting(plan.history)
            ensures IsLost(AfterFirst(config, plan, g, cancelled), plan.existing, m) <==> m in plan.uncovered
          {
            FallingBackLosesUncovered(plan, m);
          }
        } else {
          AcceptKeepsAll(plan, text);
        }
    }
  }

  lemma WholeHistoryKeepsAll(history: seq<Message>, base: Option<Stored>)
    ensures KeepsAll(history, base, Returned(Preparation(None, history)))
  {
    hide Counting;
    CountingIsPart(history);
  }

  /** The answer to the request for a shorter text never loses anything. */
  lemma ShorterAnswerKeepsAll(config: LlmConfig, plan: Plan, g: Generated, cancelled: bool)
    requires PlanIsSound(plan)
    ensures var end := AfterShorter(config, plan, g, cancelled);
      (end.Returned? || end.Upserted?) && KeepsAll(plan.history, plan.existing, end)
  {
    hide Counting, SummaryFits, Accept, Strip, KeepsAll;
    PlanDrops(plan);
    AnswerKeepsPlan(config, plan, g, cancelled);
    WholeHistoryKeepsAll(plan.history, plan.existing);
    AcceptKeepsAll(plan, if g.Generated? then g.text else "");
  }

  /** A call that returns before it asks for a text loses something only when it would have asked but is cancelled. */
  lemma EarlyReturnKeepsIff(
      config: LlmConfig, store: Option<Stored>, history: seq<Message>, userText: string, cancelled: bool)
    requires Numbered(history) && StoreCovers(store, history)
    requires Begin(config, store, history, userText, cancelled).Returned?
    ensures KeepsAll(history, store, Begin(config, store, history, userText, cancelled))
      <==> !Begin(config, store, history, userText, false).AwaitingFirst?
  {
    hide SelectHistory, ToLlm, Counting, Covers, Uncovered, IsLost;
    var begun, uncancelled :=
      Begin(config, store, history, userText, cancelled), Begin(config, store, history, userText, false);
    WholeHistoryKeepsAll(history, store);
    if uncancelled.AwaitingFirst? {
      BeginMakesSoundPlan(config, store, history, userText, false);
      UncoveredCounts(uncancelled.plan);
      FallingBackLosesUncovered(uncancelled.plan, uncancelled.plan.uncovered[0]);
    } else if begun != Returned(Preparation(None, history)) {
      CoveredReturnKeepsAll(store, history, |Counting(history)| - |begun.preparation.historyForAssembly|);
    }
  }

  /** When every dropped message is covered, the stored summary and the recent messages hold everything. */
  lemma CoveredReturnKeepsAll(store: Option<Stored>, history: seq<Message>, dropped: nat)
    requires Numbered(history) && StoreCovers(store, history) && dropped <= |Counting(history)|
    requires Uncovered(Counting(history)[..dropped], Counting(history), Through(store)) == []
    ensures KeepsAll(history, store, Returned(Preparation(TextOf(store), Counting(history)[dropped..])))
  {
    hide Counting, Uncovered, Covers, IsLost;
    SplitAtCoverage(store, history, Counting(history)[..dropped]);
    FoldedArePrefix(store, history);
    forall m | m in Counting(history)
      ensures !IsLost(Returned(Preparation(TextOf(store), Counting(history)[dropped..])), store, m)
    {
      CoveredIsKept(store, Counting(history), dropped, m);
    }
  }

  lemma FoldedArePrefix(store: Option<Stored>, history: seq<Message>)
    requires StoreCovers(store, history)
    ensures FoldedOf(store) <= Counting(history)
  {
    hide Counting;
  }

  lemma CoveredIsKept(store: Option<Stored>, counting: seq<Message>, dropped: nat, m: Message)
    requires FoldedOf(store) <= counting && dropped <= |FoldedOf(store)| && m in counting
    ensures !IsLost(Returned(Preparation(TextOf(store), counting[dropped..])), store, m)
  {
    InSplit(counting, dropped, m);
    if m in counting[..dropped] {
      var i :| 0 <= i < dropped && counting[..dropped][i] == m;
      assert FoldedOf(store)[i] == m;
    }
  }

  /** Over all exits of a call: every message that counts is in the returned history or behind the returned summary,
      exactly unless a text was needed and either the call was cancelled before it asked, or the first text came back
      blank or to a cancelled turn. For a call that is not cancelled only the blank text is left. */
  lemma CallKeepsAllIff(config: LlmConfig, store: Option<Stored>, history: seq<Message>, userText: string,
                        first: Generated, shorter: Generated, before: bool, after: bool, late: bool)
    requires Numbered(history) && StoreCovers(store, history)
    ensures KeepsAll(history, store, Outcome(config, store, history, userText, first, shorter, before, after, late))
      <==> !(&& Begin(config, store, history, userText, false).AwaitingFirst?
             && (before || (first.Generated? && (after || Strip(first.text) == ""))))
  {
    hide Begin, AfterFirst, AfterShorter, KeepsAll, PlanIsSound, StoreCovers, Strip;
    var begun := Begin(config, store, history, userText, before);
    BeginEnds(config, store, history, userText, before);
    CancelledBeginReturns(config, store, history, userText);
    if begun.Returned? {
      EarlyReturnKeepsIff(config, store, history, userText, before);
    } else {
      BeginMakesSoundPlan(config, store, history, userText, before);
      PlanDrops(begun.plan);
      var next := AfterFirst(config, begun.plan, first, after);
      if next.AwaitingShorter? {
        ShorterNeedsText(config, begun.plan, first, after);
        ShorterAnswerKeepsAll(config, begun.plan, shorter, late);
      } else {
        FirstAnswerKeepsIff(config, begun.plan, first, after);
      }
    }
  }

  lemma CancelledBeginReturns(config: LlmConfig, store: Option<Stored>, history: seq<Message>, userText: string)
    ensures Begin(config, store, history, userText, true).Returned?
  {
  }

  lemma ShorterNeedsText(config: LlmConfig, plan: Plan, g: Generated, cancelled: bool)
    requires PlanIsSound(plan) && AfterFirst(config, plan, g, cancelled).AwaitingShorter?
    ensures AfterFirst(config, plan, g, cancelled).plan == plan
    ensures g.Generated? && !cancelled && Strip(g.text) != ""
  {
    hide SummaryFits, Strip, Counting, LastSeq;
  }

  /** A concrete exchange: the generation comes back blank, and the question is neither in the returned history nor in
      a summary, though nobody cancelled anything. */
  lemma ABlankGenerationLosesTheQuestion()
    ensures var history, question := SummaryInContext.Four[..2], SummaryInContext.Four[0];
      var begun := Begin(SummaryInContext.Tight, None, history, "u", false);
      && begun.AwaitingFirst? && begun.plan.dropped != [] && question in Counting(history)
      && AfterFirst(SummaryInContext.Tight, begun.plan, Generated(""), false)
           == Returned(Preparation(None, [SummaryInContext.Four[1]]))
      && IsLost(AfterFirst(SummaryInContext.Tight, begun.plan, Generated(""), false), None, question)
  {
    hide Begin, Counting, SummaryFits, Accept, Strip, SummaryInContext.SENTENCE, SummaryInContext.Tight;
    SummaryInContext.ExchangesAreTexts();
    SummaryInContext.TextsCount(SummaryInContext.Four[..2]);
    SummaryInContext.TightBeginDropsAllButOne(SummaryInContext.Four[..2]);
    assert SummaryInContext.Four[..2][1..] == [SummaryInContext.Four[1]];
    SummaryInContext.ShortStrings();
  }
}
