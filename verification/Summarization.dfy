/** Rolling conversation summaries: when one is made, what it covers, and when it is stored. */
module Summarization {
  import opened Common
  import opened PyStrings
  import opened Conversation
  import opened ContextBudget
  import opened LlmContext

  datatype ConversationSummary = ConversationSummary(throughSequence: int, text: string, sourceMessageCount: nat)

  /** A stored summary together with its provenance: every message that was fed into the chain of generations
      that led to it, in the order it was fed. */
  datatype Stored = Stored(summary: ConversationSummary, folded: seq<Message>)

  datatype Preparation = Preparation(summaryText: Option<string>, historyForAssembly: seq<Message>)

  /** The position a message is known by: its ledger number, or its place among the counting messages. */
  function MessageSeq(m: Message, counting: seq<Message>): int {
    if m.sequence.Some? then m.sequence.value else PlaceOf(m.id, counting, 1)
  }

  function PlaceOf(id: nat, counting: seq<Message>, place: nat): nat {
    if counting == [] then 0
    else if counting[0].id == id then place
    else PlaceOf(id, counting[1..], place + 1)
  }

  function Uncovered(messages: seq<Message>, counting: seq<Message>, through: int): seq<Message> {
    if messages == [] then []
    else
      (if MessageSeq(messages[0], counting) > through then [messages[0]] else [])
      + Uncovered(messages[1..], counting, through)
  }

  function LastSeq(messages: seq<Message>, counting: seq<Message>): int
    requires messages != []
  {
    var head := MessageSeq(messages[0], counting);
    if |messages| == 1 then head
    else
      var tail := LastSeq(messages[1..], counting);
      if head > tail then head else tail
  }

  function Through(existing: Option<Stored>): int {
    if existing.Some? then existing.value.summary.throughSequence else 0
  }

  function TextOf(existing: Option<Stored>): Option<string> {
    if existing.Some? then Some(existing.value.summary.text) else None
  }

  function FoldedOf(existing: Option<Stored>): seq<Message> {
    if existing.Some? then existing.value.folded else []
  }

  /** What a call has worked out by the time it asks the provider for a summary. */
  datatype Plan = Plan(
    existing: Option<Stored>, history: seq<Message>, userText: string,
    dropped: seq<Message>, recent: seq<Message>, uncovered: seq<Message>)

  /** How far a call has got: it has returned, it waits for a (first or shorter) text, or it has stored one. */
  datatype Progress =
    | Returned(preparation: Preparation)
    | AwaitingFirst(plan: Plan)
    | AwaitingShorter(plan: Plan)
    | Upserted(preparation: Preparation, stored: Stored)

  /** `prepare` up to its first request to the provider. */
  function Begin(
      config: LlmConfig, store: Option<Stored>, history: seq<Message>, userText: string, cancelled: bool): Progress
  {
    if config.maxInputTokens.None? then Returned(Preparation(None, history))
    else
      var maxTokens := config.maxInputTokens.value;
      var counting := Counting(history);
      var llmHistory := ToLlm(counting);
      match WouldDropHistory(llmHistory, userText, config.systemInstructions, maxTokens)
      case Err(_) => Returned(Preparation(None, history))
      case Ok(needsSummary) =>
        if !needsSummary then Returned(Preparation(None, history))
        else
          match SelectHistory(llmHistory, userText, config.systemInstructions, maxTokens, NoExtras)
          case Err(_) => Returned(Preparation(None, history))
          case Ok(selected) =>
            var dropCount: nat := |llmHistory| - |selected|;
            var dropped, recent := counting[..dropCount], counting[dropCount..];
            var uncovered := Uncovered(dropped, counting, Through(store));
            if uncovered == [] || cancelled then Returned(Preparation(TextOf(store), recent))
            else AwaitingFirst(Plan(store, history, userText, dropped, recent, uncovered))
  }

  /** Whether a prompt with this summary and nothing else optional leaves room for the user text. */
  function SummaryFits(config: LlmConfig, summaryText: string, userText: string): bool {
    config.maxInputTokens.Some?
    && SelectHistory([], userText, config.systemInstructions, config.maxInputTokens.value,
                     Extras(Some(summaryText), None, None)).Ok?
  }

  datatype Generated = Generated(text: string) | GenerationFailed

  function Accept(plan: Plan, text: string): Progress
    requires plan.dropped != []
  {
    var last := LastSeq(plan.dropped, Counting(plan.history));
    var summary := ConversationSummary(last, Strip(text), |plan.dropped|);
    Upserted(Preparation(Some(Strip(text)), plan.recent), Stored(summary, FoldedOf(plan.existing) + plan.uncovered))
  }

  /** From the first generation to the next suspension or the end. */
  function AfterFirst(config: LlmConfig, plan: Plan, g: Generated, cancelled: bool): Progress
    requires plan.dropped != []
  {
    match g
    case GenerationFailed => Returned(Preparation(None, plan.history))
    case Generated(text) =>
      if cancelled || Strip(text) == "" then Returned(Preparation(TextOf(plan.existing), plan.recent))
      else if !SummaryFits(config, text, plan.userText) then AwaitingShorter(plan)
      else Accept(plan, text)
  }

  /** From the shorter generation to the end; a failure counts as an empty text. */
  function AfterShorter(config: LlmConfig, plan: Plan, g: Generated, cancelled: bool): Progress
    requires plan.dropped != []
  {
    var shorter := if g.Generated? then g.text else "";
    if cancelled || Strip(shorter) == "" || !SummaryFits(config, shorter, plan.userText)
    then Returned(Preparation(None, plan.history))
    else Accept(plan, shorter)
  }

  // ---- The summarizer as the object it is ----

  /** Owns nothing but the handle on the one-summary store it reads and replaces. */
  class ConversationSummarizer {
    const config: LlmConfig
    var summary: Option<Stored>

    constructor (config: LlmConfig)
      ensures this.config == config && summary == None
    {
      this.config := config;
      summary := None;
    }

    /** One uninterrupted call: the provider's two possible answers and the cancellation checks are inputs.
        The store changes in the upsert only, and only to what the pure steps say. */
    method Prepare(history: seq<Message>, userText: string, first: Generated, shorter: Generated,
                   cancelledBefore: bool, cancelledAfterFirst: bool, cancelledAfterShorter: bool)
        returns (preparation: Preparation)
      modifies this
      ensures var end := Outcome(config, old(summary), history, userText, first, shorter,
                                 cancelledBefore, cancelledAfterFirst, cancelledAfterShorter);
        && preparation == end.preparation
        && summary == if end.Upserted? then Some(end.stored) else old(summary)
    {
      hide SelectHistory, ToLlm, Counting, Uncovered, SummaryFits, Strip;
      if config.maxInputTokens.None? {
        return Preparation(None, history);
      }
      var maxTokens := config.maxInputTokens.value;
      var counting := Counting(history);
      var llmHistory := CommittedMessagesToLlm(history);
      var selection := SelectHistoryLoop(llmHistory, userText, config.systemInstructions, maxTokens, NoExtras);
      if selection.Err? {
        return Preparation(None, history);
      }
      if !(|selection.value| < |llmHistory|) {
        return Preparation(None, history);
      }
      var dropCount := |llmHistory| - |selection.value|;
      var dropped, recent := counting[..dropCount], counting[dropCount..];
      var existing := summary;
      var uncovered := Uncovered(dropped, counting, Through(existing));
      if uncovered == [] {
        return Preparation(TextOf(existing), recent);
      }
      if cancelledBefore {
        return Preparation(TextOf(existing), recent);
      }
      var plan := Plan(existing, history, userText, dropped, recent, uncovered);
      if first.GenerationFailed? {
        return Preparation(None, history);
      }
      var text := first.text;
      if cancelledAfterFirst || Strip(text) == "" {
        return Preparation(TextOf(existing), recent);
      }
      if !SummaryFits(config, text, userText) {
        text := if shorter.Generated? then shorter.text else "";
        if cancelledAfterShorter || Strip(text) == "" || !SummaryFits(config, text, userText) {
          return Preparation(None, history);
        }
      }
      var accepted := Accept(plan, text);
      summary := Some(accepted.stored);
      return accepted.preparation;
    }
  }

  /** The steps of one call put end to end. */
  function Outcome(config: LlmConfig, store: Option<Stored>, history: seq<Message>, userText: string,
                   first: Generated, shorter: Generated,
                   cancelledBefore: bool, cancelledAfterFirst: bool, cancelledAfterShorter: bool): (end: Progress)
    ensures end.Returned? || end.Upserted?
  {
    var begun := Begin(config, store, history, userText, cancelledBefore);
    if !begun.AwaitingFirst? then begun
    else
      var next := AfterFirst(config, begun.plan, first, cancelledAfterFirst);
      if !next.AwaitingShorter? then next else AfterShorter(config, next.plan, shorter, cancelledAfterShorter)
  }
}
