/** Which preparation each exit of a `prepare` call gives, in terms of budget, coverage and the texts that came back. */
module SummaryExits {
  import opened Common
  import opened PyStrings
  import opened Conversation
  import opened ContextBudget
  import opened LlmContext
  import opened Summarization
  import opened SummaryRuns

  /** Instructions and user text fit the budget, and the whole history does not fit beside them. */
  predicate OverflowsBudget(config: LlmConfig, history: seq<Message>, userText: string) {
    && config.maxInputTokens.Some?
    && Fits(config.systemInstructions, userText, config.maxInputTokens.value, NoExtras)
    && PromptTokens(config.systemInstructions, NoExtras) + ApproximateTokenCount(userText)
         + TotalTokens(ToLlm(Counting(history))) > config.maxInputTokens.value
  }

  /** The messages from this position on are the longest suffix that fits beside instructions and user text. */
  ghost predicate IsCut(config: LlmConfig, history: seq<Message>, userText: string, cut: nat) {
    && config.maxInputTokens.Some?
    && Fits(config.systemInstructions, userText, config.maxInputTokens.value, NoExtras)
    && 0 < cut <= |Counting(history)|
    && IsLongestWithin(ToLlm(Counting(history)), |Counting(history)| - cut,
                       Room(config.systemInstructions, userText, config.maxInputTokens.value, NoExtras))
  }

  lemma CutExists(config: LlmConfig, history: seq<Message>, userText: string) returns (cut: nat)
    requires OverflowsBudget(config, history, userText)
    ensures IsCut(config, history, userText, cut)
    ensures SelectHistory(ToLlm(Counting(history)), userText, config.systemInstructions, config.maxInputTokens.value,
                          NoExtras).Ok?
    ensures |SelectHistory(ToLlm(Counting(history)), userText, config.systemInstructions, config.maxInputTokens.value,
                           NoExtras).value| == |Counting(history)| - cut
  {
    hide Counting, KeepSuffix, TotalTokens, ApproximateTokenCount, PromptTokens, Newest;
    var all := ToLlm(Counting(history));
    var room := Room(config.systemInstructions, userText, config.maxInputTokens.value, NoExtras);
    KeptIsLongestFittingSuffix(all, room);
    AllKeptIffAllFits(all, room);
    cut := |Counting(history)| - |KeepSuffix(all, room)|;
  }

  /** There is one such position. */
  lemma CutIsUnique(config: LlmConfig, history: seq<Message>, userText: string, a: nat, b: nat)
    requires IsCut(config, history, userText, a) && IsCut(config, history, userText, b)
    ensures a == b
  {
    hide Counting, TotalTokens, ApproximateTokenCount, PromptTokens;
  }

  /** The number of messages the stored summary covers. */
  function Covered(store: Option<Stored>): nat {
    |FoldedOf(store)|
  }

  /** A call that need not summarize hands back the whole history and no text. Otherwise it cuts the history to the
      longest suffix that fits: when the stored summary covers every message before the cut, it returns that summary's
      text and the suffix at once; when not, it asks for a text, exactly if it is not cancelled, and plans to fold in
      what lies between the coverage and the cut. */
  lemma BeginExits(
      config: LlmConfig, store: Option<Stored>, history: seq<Message>, userText: string, cancelled: bool, cut: nat)
    requires Numbered(history) && StoreCovers(store, history)
    requires OverflowsBudget(config, history, userText) ==> IsCut(config, history, userText, cut)
    ensures var begun, counting := Begin(config, store, history, userText, cancelled), Counting(history);
      if !OverflowsBudget(config, history, userText) then begun == Returned(Preparation(None, history))
      else if cut <= Covered(store) then
        store.Some? && begun == Returned(Preparation(Some(store.value.summary.text), counting[cut..]))
      else if cancelled then begun == Returned(Preparation(TextOf(store), counting[cut..]))
      else begun == AwaitingFirst(Plan(store, history, userText, counting[..cut], counting[cut..],
                                       counting[Covered(store)..cut]))
  {
    hide SelectHistory, Counting, Covers, Uncovered, PromptTokens, ApproximateTokenCount, TotalTokens, IsCut;
    var instructions := config.systemInstructions;
    if config.maxInputTokens.Some? {
      WouldDropIffOverBudget(ToLlm(Counting(history)), userText, instructions, config.maxInputTokens.value);
    }
    if OverflowsBudget(config, history, userText) {
      var position := CutExists(config, history, userText);
      CutIsUnique(config, history, userText, position, cut);
      UncoveredUpToCut(store, history, cut, config, userText);
    }
  }

  lemma UncoveredUpToCut(store: Option<Stored>, history: seq<Message>, cut: nat, config: LlmConfig, userText: string)
    requires Numbered(history) && StoreCovers(store, history) && IsCut(config, history, userText, cut)
    ensures cut <= |Counting(history)|
    ensures Uncovered(Counting(history)[..cut], Counting(history), Through(store))
      == if cut <= Covered(store) then [] else Counting(history)[Covered(store)..cut]
    ensures cut <= Covered(store) ==> store.Some?
  {
    hide Counting, Uncovered;
    SplitAtCoverage(store, history, Counting(history)[..cut]);
  }

  /** What accepting a text stores and returns. */
  ghost predicate IsAccepted(plan: Plan, text: string, end: Progress) {
    && end.Upserted? && end.preparation == Preparation(Some(Strip(text)), plan.recent)
    && end.stored.summary.text == Strip(text) && end.stored.summary.sourceMessageCount == |plan.dropped|
    && end.stored.folded == plan.dropped
    && plan.dropped != []
    && plan.dropped[|plan.dropped| - 1].sequence == Some(end.stored.summary.throughSequence)
  }

  /** The text, as the only optional one, leaves room for the user text. */
  predicate LeavesRoom(config: LlmConfig, text: string, userText: string) {
    && config.maxInputTokens.Some? && config.maxInputTokens.value >= 1
    && PromptTokens(config.systemInstructions, Extras(Some(text), None, None)) + ApproximateTokenCount(userText)
         <= config.maxInputTokens.value
  }

  lemma AcceptIsAccepted(plan: Plan, text: string)
    requires PlanIsSound(plan)
    ensures IsAccepted(plan, text, Accept(plan, text))
  {
    hide Counting, LastSeq, Strip;
    FoldsToDropped(plan);
    LastDroppedIsNew(plan);
  }

  lemma FitsIffRoom(config: LlmConfig, text: string, userText: string)
    ensures SummaryFits(config, text, userText) <==> LeavesRoom(config, text, userText)
  {
    hide KeepSuffix, BuildSystemPrompt, ApproximateTokenCount;
  }

  /** After the first answer: a failure hands back the whole history, a cancelled turn or a blank text falls back to the
      earlier summary, a text that leaves room is stored and returned, and one that does not is asked for again. */
  lemma FirstAnswerExits(config: LlmConfig, plan: Plan, g: Generated, cancelled: bool)
    requires PlanIsSound(plan)
    ensures var end := AfterFirst(config, plan, g, cancelled);
      if g.GenerationFailed? then end == Returned(Preparation(None, plan.history))
      else if cancelled || Strip(g.text) == "" then end == Returned(Preparation(TextOf(plan.existing), plan.recent))
      else if LeavesRoom(config, g.text, plan.userText) then IsAccepted(plan, g.text, end)
      else end == AwaitingShorter(plan)
  {
    hide Counting, Strip, SummaryFits, LeavesRoom, Accept, PlanIsSound;
    AcceptIsAccepted(plan, if g.Generated? then g.text else "");
    FitsIffRoom(config, if g.Generated? then g.text else "", plan.userText);
  }

  /** After the shorter answer: a text that leaves room is stored and returned, and everything else hands back the whole
      history. */
  lemma ShorterAnswerExits(config: LlmConfig, plan: Plan, g: Generated, cancelled: bool)
    requires PlanIsSound(plan)
    ensures var end := AfterShorter(config, plan, g, cancelled);
      if g.Generated? && !cancelled && Strip(g.text) != "" && LeavesRoom(config, g.text, plan.userText)
      then IsAccepted(plan, g.text, end)
      else end == Returned(Preparation(None, plan.history))
  {
    hide Counting, SummaryFits, LeavesRoom, Accept, PlanIsSound, LStrip, RStrip;
    AcceptIsAccepted(plan, if g.Generated? then g.text else "");
    FitsIffRoom(config, if g.Generated? then g.text else "", plan.userText);
    StripOfStripped("");
  }
}
