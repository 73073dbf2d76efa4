/** How a summary that was just stored fares when the same turn assembles its request. */
module SummaryInContext {
  import opened Common
  import opened PyStrings
  import opened Conversation
  import opened ContextBudget
  import opened LlmContext
  import opened Summarization
  import SummaryRuns

  /** Stripping the summary first, as storing does, does not change the prompt. */
  lemma PromptIgnoresStripping(instructions: string, text: string)
    ensures BuildSystemPrompt(instructions, Extras(Some(Strip(text)), None, None))
      == BuildSystemPrompt(instructions, Extras(Some(text), None, None))
  {
    hide Strip, Join;
    StripOfStripped(Strip(text));
  }

  lemma AcceptedTextFits(config: LlmConfig, plan: Plan, g: Generated, cancelled: bool, next: Progress)
    requires plan.dropped != [] && next.Upserted?
    requires next == AfterFirst(config, plan, g, cancelled) || next == AfterShorter(config, plan, g, cancelled)
    ensures g.Generated? && Strip(g.text) != "" && SummaryFits(config, g.text, plan.userText)
    ensures next.preparation.summaryText == Some(Strip(g.text)) && next.preparation.historyForAssembly == plan.recent
  {
    hide SummaryFits, Strip, Counting, LastSeq;
  }

  /** The text that passed the fit check, stripped, still leaves room beside the instructions and the user text. */
  lemma StoredSummaryFits(config: LlmConfig, text: string, userText: string)
    requires SummaryFits(config, text, userText)
    ensures config.maxInputTokens.Some?
    ensures Fits(config.systemInstructions, userText, config.maxInputTokens.value,
                 Extras(Some(Strip(text)), None, None))
  {
    hide BuildSystemPrompt, Strip, ApproximateTokenCount;
    PromptIgnoresStripping(config.systemInstructions, text);
  }

  /** A summary the call has just stored survives the assembler's soft-fail chain in that turn, whatever the
      knowledge, the memory, the history and the extra messages are: its section is in the prompt. */
  lemma JustStoredSummaryIsNeverDropped(
      config: LlmConfig, plan: Plan, g: Generated, cancelled: bool, next: Progress,
      history: seq<Message>, knowledge: Option<string>, memory: Option<string>, extraMessages: seq<LlmMessage>)
    requires plan.dropped != [] && next.Upserted?
    requires next == AfterFirst(config, plan, g, cancelled) || next == AfterShorter(config, plan, g, cancelled)
    ensures var request := Assemble(history, plan.userText, config,
                                    Extras(next.preparation.summaryText, knowledge, memory), extraMessages);
      && request.Ok?
      && exists y: Extras ::
           && y.summary == next.preparation.summaryText && y.summary.Some?
           && request.value.system == BuildSystemPrompt(config.systemInstructions, y)
           && SUMMARY_SECTION_HEADER + "\n" + y.summary.value in Sections(config.systemInstructions, y)
  {
    hide SummaryFits, Choose, BuildSystemPrompt, Fits, KeepSuffix, Room, AfterFirst, AfterShorter, FirstThatFits,
         Strip, Counting;
    AcceptedTextFits(config, plan, g, cancelled, next);
    StoredSummaryFits(config, g.text, plan.userText);
    var x := Extras(Some(Strip(g.text)), knowledge, memory);
    var instructions, maxTokens := config.systemInstructions, config.maxInputTokens.value;
    var all := ToLlm(Counting(history));
    ChoosesFirstThatFits(all, plan.userText, instructions, maxTokens, x);
    FourCandidates(x, x.(memory := None), x.(memory := None, knowledge := None), NoExtras,
                   plan.userText, instructions, maxTokens);
    assert x.(memory := None, knowledge := None) == Extras(Some(Strip(g.text)), None, None);
    var y := Choose(all, plan.userText, instructions, maxTokens, x).value.extras;
    SectionIsPresent(instructions, y);
  }

  lemma SectionIsPresent(instructions: string, y: Extras)
    requires y.summary.Some? && y.summary.value != "" && IsStripped(y.summary.value)
    ensures SUMMARY_SECTION_HEADER + "\n" + y.summary.value in Sections(instructions, y)
  {
    hide Strip;
    StripOfStripped(y.summary.value);
    var section := SUMMARY_SECTION_HEADER + "\n" + y.summary.value;
    assert section in Section(SUMMARY_SECTION_HEADER, y.summary);
  }

  /** What an assembled request holds, given the texts that are kept. */
  lemma AssembledMessages(recent: seq<Message>, userText: string, config: LlmConfig, x: Extras, extra: seq<LlmMessage>)
    requires AllCount(recent) && config.maxInputTokens.Some?
    requires FirstThatFits(Chain(x), userText, config.systemInstructions, config.maxInputTokens.value).Some?
    ensures var instructions, maxTokens := config.systemInstructions, config.maxInputTokens.value;
      var y := FirstThatFits(Chain(x), userText, instructions, maxTokens).value;
      var request := Assemble(recent, userText, config, x, extra);
      && request.Ok?
      && request.value.messages
           == KeepSuffix(ToLlm(recent), Room(instructions, userText, maxTokens, y))
              + ([TextMessage(User, userText)] + extra)
  {
    hide Choose, BuildSystemPrompt, FirstThatFits, KeepSuffix, Room, Fits;
    CountingOfCounting(recent);
    ChoosesFirstThatFits(ToLlm(recent), userText, config.systemInstructions, config.maxInputTokens.value, x);
  }

  /** All of a history that counts reaches the request exactly when prompt, user text and all of it together fit. */
  lemma AllReachRequestIff(recent: seq<Message>, userText: string, config: LlmConfig, x: Extras, extra: seq<LlmMessage>)
    requires AllCount(recent) && config.maxInputTokens.Some?
    requires FirstThatFits(Chain(x), userText, config.systemInstructions, config.maxInputTokens.value).Some?
    ensures var instructions, maxTokens := config.systemInstructions, config.maxInputTokens.value;
      var y := FirstThatFits(Chain(x), userText, instructions, maxTokens).value;
      var request := Assemble(recent, userText, config, x, extra);
      && request.Ok?
      && (request.value.messages == ToLlm(recent) + ([TextMessage(User, userText)] + extra)
          <==> PromptTokens(instructions, y) + ApproximateTokenCount(userText) + TotalTokens(ToLlm(recent))
                 <= maxTokens)
  {
    hide Assemble, FirstThatFits, ApproximateTokenCount, TotalTokens, PromptTokens, KeepSuffix;
    AssembledMessages(recent, userText, config, x, extra);
    var instructions, maxTokens := config.systemInstructions, config.maxInputTokens.value;
    var y := FirstThatFits(Chain(x), userText, instructions, maxTokens).value;
    var room := Room(instructions, userText, maxTokens, y);
    AllKeptIffAllFits(ToLlm(recent), room);
    SameTail(KeepSuffix(ToLlm(recent), room), ToLlm(recent), [TextMessage(User, userText)] + extra);
  }

  /** After a summary was stored, the messages past its coverage are handed to the assembler complete; they all reach
      the request exactly when prompt, user text and they together stay within the budget. */
  lemma UncoveredReachRequestIff(config: LlmConfig, plan: Plan, text: string, x: Extras, extra: seq<LlmMessage>)
    requires SummaryRuns.PlanIsSound(plan) && config.maxInputTokens.Some?
    requires FirstThatFits(Chain(x), plan.userText, config.systemInstructions, config.maxInputTokens.value).Some?
    ensures var instructions, maxTokens := config.systemInstructions, config.maxInputTokens.value;
      var y := FirstThatFits(Chain(x), plan.userText, instructions, maxTokens).value;
      var recent := Accept(plan, text).preparation.historyForAssembly;
      var request := Assemble(recent, plan.userText, config, x, extra);
      && Accept(plan, text).stored.folded + recent == Counting(plan.history) && AllCount(recent) && request.Ok?
      && (request.value.messages == ToLlm(recent) + ([TextMessage(User, plan.userText)] + extra)
          <==> PromptTokens(instructions, y) + ApproximateTokenCount(plan.userText) + TotalTokens(ToLlm(recent))
                 <= maxTokens)
  {
    hide Assemble, FirstThatFits, ApproximateTokenCount, TotalTokens, PromptTokens, LastSeq, Counting;
    SummaryRuns.FoldsToDropped(plan);
    assert plan.dropped + plan.recent == Counting(plan.history);
    AllReachRequestIff(plan.recent, plan.userText, config, x, extra);
  }

  lemma SameTail(a: seq<LlmMessage>, b: seq<LlmMessage>, tail: seq<LlmMessage>)
    ensures a + tail == b + tail <==> a == b
  {
    if a + tail == b + tail {
      assert |a| == |b|;
      assert a == (a + tail)[..|a|];
      assert b == (b + tail)[..|b|];
    }
  }

  // ---- Two things that can go wrong ----

  /** Twenty-eight characters: seven tokens. */
  const SENTENCE := "a sentence of seven tokens.."

  /** Room for the user text and one sentence, or for the user text and a one-letter summary. */
  const Tight := LlmConfig("", Some(8), 1)

  /** A committed message of one of the two sides of a conversation. */
  ghost predicate IsText(m: Message, text: string) {
    && (m.role == User || m.role == Assistant) && m.status == Committed
    && text != "" && m.parts == [TextPart(Some(text))]
  }

  /** Texts only, the last one a sentence. */
  ghost predicate EndsInSentence(ledger: seq<Message>) {
    && Numbered(ledger) && ledger != []
    && (forall i :: 0 <= i < |ledger| ==> exists text :: IsText(ledger[i], text))
    && IsText(ledger[|ledger| - 1], SENTENCE)
  }

  lemma TextCounts(m: Message, text: string)
    requires IsText(m, text)
    ensures Counts(m) && MessageToLlm(m).value == TextMessage(m.role, text)
    ensures ApproximateTokenCount(text) > 0
  {
    assert PartsText(m.parts) == text + PartsText([]);
  }

  lemma {:induction false} TextsCount(ledger: seq<Message>)
    requires EndsInSentence(ledger)
    ensures AllCount(ledger) && Counting(ledger) == ledger
    ensures forall i :: 0 <= i < |ledger| ==> ApproximateTokenCount(ToLlm(ledger)[i].content) > 0
    ensures ToLlm(ledger)[|ledger| - 1].content == SENTENCE
  {
    hide ApproximateTokenCount, SENTENCE;
    forall i | 0 <= i < |ledger|
      ensures Counts(ledger[i]) && ApproximateTokenCount(MessageToLlm(ledger[i]).value.content) > 0
    {
      var text :| IsText(ledger[i], text);
      TextCounts(ledger[i], text);
    }
    TextCounts(ledger[|ledger| - 1], SENTENCE);
    CountingOfCounting(ledger);
  }

  lemma ShortStrings()
    ensures Strip("") == "" && Strip("s") == "s"
    ensures ApproximateTokenCount("u") == 1 && ApproximateTokenCount(SENTENCE) == 7
  {
    assert IsStripped("s");
    StripOfStripped("s");
    assert |SENTENCE| == 28;
  }

  lemma TightPrompts()
    ensures PromptTokens("", NoExtras) == 0 && ApproximateTokenCount("u") == 1
    ensures PromptTokens("", Extras(Some("s"), None, None)) == 6
  {
    hide Strip;
    ShortStrings();
    assert Sections("", NoExtras) == [];
    var x, section := Extras(Some("s"), None, None), SUMMARY_SECTION_HEADER + "\n" + "s";
    assert Section(SUMMARY_SECTION_HEADER, x.summary) == [section];
    assert Sections("", x) == [section];
    assert BuildSystemPrompt("", x) == section && |section| == 24;
  }

  /** When the newest message takes all the room, it is the only one kept. */
  lemma OnlyNewestIsKept(history: seq<LlmMessage>, room: nat)
    requires |history| >= 2 && ApproximateTokenCount(history[|history| - 1].content) == room
    requires ApproximateTokenCount(history[|history| - 2].content) > 0
    ensures KeepSuffix(history, room) == [history[|history| - 1]]
  {
    hide ApproximateTokenCount;
    var init := history[..|history| - 1];
    assert KeepSuffix(init, 0) == [];
    assert KeepSuffix(history, room) == [] + [history[|history| - 1]];
  }

  /** With room for the user text and one sentence, only the sentence at the end is selected. */
  lemma TightSelectsOne(history: seq<LlmMessage>)
    requires |history| >= 2 && history[|history| - 1].content == SENTENCE
    requires ApproximateTokenCount(history[|history| - 2].content) > 0
    ensures SelectHistory(history, "u", "", 8, NoExtras) == Ok([history[|history| - 1]])
  {
    hide BuildSystemPrompt, KeepSuffix, ApproximateTokenCount, Strip, SENTENCE;
    TightPrompts();
    ShortStrings();
    OnlyNewestIsKept(history, 7);
  }

  lemma TightBeginDropsAllButOne(ledger: seq<Message>)
    requires EndsInSentence(ledger) && |ledger| >= 2
    ensures Begin(Tight, None, ledger, "u", false)
      == AwaitingFirst(Plan(None, ledger, "u", ledger[..|ledger| - 1], ledger[|ledger| - 1..], ledger[..|ledger| - 1]))
  {
    hide SelectHistory, Counting, Uncovered, ApproximateTokenCount, SENTENCE;
    TextsCount(ledger);
    TightSelectsOne(ToLlm(ledger));
    SummaryRuns.SplitAtCoverage(None, ledger, ledger[..|ledger| - 1]);
  }

  lemma TightAccepts(plan: Plan)
    requires plan.dropped != [] && plan.userText == "u"
    ensures AfterFirst(Tight, plan, Generated("s"), false) == Accept(plan, "s")
  {
    hide BuildSystemPrompt, Counting, LastSeq, Strip, ApproximateTokenCount;
    TightPrompts();
    ShortStrings();
  }

  /** Two exchanges as the runtime persists them. */
  const Four: seq<Message> := [
    TextEntry(0, 1, User, SENTENCE).(sequence := Some(1)), TextEntry(1, 1, Assistant, SENTENCE).(sequence := Some(2)),
    TextEntry(2, 2, User, "u").(sequence := Some(3)), TextEntry(3, 2, Assistant, SENTENCE).(sequence := Some(4))]

  lemma ExchangesAreTexts()
    ensures EndsInSentence(Four) && EndsInSentence(Four[..2]) && IsText(Four[1], SENTENCE)
  {
    assert IsText(Four[0], SENTENCE) && IsText(Four[1], SENTENCE) && IsText(Four[2], "u") && IsText(Four[3], SENTENCE);
  }

  /** A message past the coverage can still be lost: neither the summary nor the request holds it. */
  lemma AnUncoveredMessageCanBeLost()
    ensures var ledger := Four[..2];
      var begun := Begin(Tight, None, ledger, "u", false);
      && begun.AwaitingFirst? && begun.plan.dropped != []
      && AfterFirst(Tight, begun.plan, Generated("s"), false).Upserted?
      && var end := AfterFirst(Tight, begun.plan, Generated("s"), false);
        var request := Assemble(end.preparation.historyForAssembly, "u", Tight,
                                Extras(end.preparation.summaryText, None, None), []);
        && Four[1] !in end.stored.folded && Four[1] in end.preparation.historyForAssembly
        && request.Ok? && request.value.messages == [TextMessage(User, "u")]
  {
    hide BuildSystemPrompt, Counting, LastSeq, Begin, AfterFirst, Assemble, Uncovered, Strip, Tight, SENTENCE;
    ExchangesAreTexts();
    TightBeginDropsAllButOne(Four[..2]);
    var plan := Begin(Tight, None, Four[..2], "u", false).plan;
    assert plan.dropped == [Four[0]] && plan.recent == [Four[1]];
    TightAccepts(plan);
    ShortStrings();
    LosesSentence([Four[1]]);
  }

  lemma NewestIsTooLarge(history: seq<LlmMessage>, room: nat)
    requires history != [] && ApproximateTokenCount(history[|history| - 1].content) > room
    ensures KeepSuffix(history, room) == []
  {
    hide ApproximateTokenCount;
  }

  lemma LosesSentence(recent: seq<Message>)
    requires recent == [Four[1]]
    ensures Assemble(recent, "u", Tight, Extras(Some("s"), None, None), []).Ok?
    ensures Assemble(recent, "u", Tight, Extras(Some("s"), None, None), []).value.messages == [TextMessage(User, "u")]
  {
    hide BuildSystemPrompt, ApproximateTokenCount, Counting, KeepSuffix, SENTENCE, Strip;
    ExchangesAreTexts();
    TextCounts(Four[1], SENTENCE);
    CountingOfCounting(recent);
    TightPrompts();
    ShortStrings();
    var all := ToLlm(recent);
    assert all == [TextMessage(Assistant, SENTENCE)];
    ChoosesFirstThatFits(all, "u", "", 8, Extras(Some("s"), None, None));
    NewestIsTooLarge(all, 1);
  }
}
