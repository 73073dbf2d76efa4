/** Assembling one LLM request from history, user text and optional texts, giving way section by section. */
module LlmContext {
  import opened Common
  import opened PyStrings
  import opened Conversation
  import opened ContextBudget

  datatype LlmConfig = LlmConfig(systemInstructions: string, maxInputTokens: Option<int>, maxToolIterations: int)

  datatype LlmRequest = LlmRequest(messages: seq<LlmMessage>, system: string)

  /** What the soft-fail chain settles on: the optional texts that stay and the history that is kept. */
  datatype Choice = Choice(extras: Extras, kept: seq<LlmMessage>)

  function Attempt(history: seq<LlmMessage>, userText: string, instructions: string, maxTokens: int, x: Extras)
      : Result<Choice, RuntimeError>
  {
    match SelectHistory(history, userText, instructions, maxTokens, x)
    case Err(e) => Err(e)
    case Ok(kept) => Ok(Choice(x, kept))
  }

  /** The nested handlers as written: memory gives way first, then knowledge, then the summary. */
  function Choose(history: seq<LlmMessage>, userText: string, instructions: string, maxTokens: int, x: Extras)
      : Result<Choice, RuntimeError>
  {
    var full := Attempt(history, userText, instructions, maxTokens, x);
    if full.Ok? then full
    else if x.memory.Some? then
      var second := Attempt(history, userText, instructions, maxTokens, x.(memory := None));
      if second.Ok? then second
      else if x.knowledge.Some? then
        var third := Attempt(history, userText, instructions, maxTokens, x.(memory := None, knowledge := None));
        if third.Ok? then third
        else if x.summary.Some? then Attempt(history, userText, instructions, maxTokens, NoExtras)
        else third
      else if x.summary.Some? then Attempt(history, userText, instructions, maxTokens, NoExtras)
      else second
    else if x.knowledge.Some? then
      var second := Attempt(history, userText, instructions, maxTokens, x.(knowledge := None, memory := None));
      if second.Ok? then second
      else if x.summary.Some? then Attempt(history, userText, instructions, maxTokens, NoExtras)
      else second
    else if x.summary.Some? then Attempt(history, userText, instructions, maxTokens, NoExtras)
    else full
  }

  function Assemble(
      history: seq<Message>, userText: string, config: LlmConfig, x: Extras, extraMessages: seq<LlmMessage>)
      : Result<LlmRequest, RuntimeError>
  {
    var llmHistory := ToLlm(Counting(history));
    var choice :=
      if config.maxInputTokens.None? then Ok(Choice(x, llmHistory))
      else Choose(llmHistory, userText, config.systemInstructions, config.maxInputTokens.value, x);
    match choice
    case Err(e) => Err(e)
    case Ok(c) =>
      Ok(LlmRequest(c.kept + [TextMessage(User, userText)] + extraMessages,
                    BuildSystemPrompt(config.systemInstructions, c.extras)))
  }

  // ---- The chain as a list ----

  /** Four candidates, each giving up one more kind of text; absent kinds make neighbours coincide. */
  function Chain(x: Extras): seq<Extras> {
    [x, x.(memory := None), x.(memory := None, knowledge := None), NoExtras]
  }

  /** The first candidate that leaves room for the prompt and the user text. */
  function FirstThatFits(chain: seq<Extras>, userText: string, instructions: string, maxTokens: int)
      : (r: Option<Extras>)
    ensures r.Some? ==> Fits(instructions, userText, maxTokens, r.value) && r.value in chain
    ensures r.None? ==> forall y :: y in chain ==> !Fits(instructions, userText, maxTokens, y)
  {
    if chain == [] then None
    else if Fits(instructions, userText, maxTokens, chain[0]) then Some(chain[0])
    else FirstThatFits(chain[1..], userText, instructions, maxTokens)
  }

  lemma FourCandidates(
      a: Extras, b: Extras, c: Extras, d: Extras, userText: string, instructions: string, maxTokens: int)
    ensures FirstThatFits([a, b, c, d], userText, instructions, maxTokens)
      == if Fits(instructions, userText, maxTokens, a) then Some(a)
         else if Fits(instructions, userText, maxTokens, b) then Some(b)
         else if Fits(instructions, userText, maxTokens, c) then Some(c)
         else if Fits(instructions, userText, maxTokens, d) then Some(d)
         else None
  {
    hide Fits;
    assert [a, b, c, d][1..] == [b, c, d] && [b, c, d][1..] == [c, d] && [c, d][1..] == [d];
    assert FirstThatFits([c, d], userText, instructions, maxTokens)
      == if Fits(instructions, userText, maxTokens, c) then Some(c)
         else if Fits(instructions, userText, maxTokens, d) then Some(d) else None;
  }

  /** The nested handlers pick the first candidate that fits, with the longest suffix that fits beside it. */
  lemma ChoosesFirstThatFits(
      history: seq<LlmMessage>, userText: string, instructions: string, maxTokens: int, x: Extras)
    ensures Choose(history, userText, instructions, maxTokens, x)
      == match FirstThatFits(Chain(x), userText, instructions, maxTokens)
         case None => Err(ContextBudgetExceeded)
         case Some(y) => Ok(Choice(y, KeepSuffix(history, Room(instructions, userText, maxTokens, y))))
  {
    hide Fits, KeepSuffix, Room;
    FourCandidates(x, x.(memory := None), x.(memory := None, knowledge := None), NoExtras,
                   userText, instructions, maxTokens);
  }

  /** Giving up texts makes later candidates fit wherever earlier ones do, so only the last one decides. */
  lemma ChooseFailsIff(history: seq<LlmMessage>, userText: string, instructions: string, maxTokens: int, x: Extras)
    ensures Choose(history, userText, instructions, maxTokens, x).Err?
      <==> !Fits(instructions, userText, maxTokens, NoExtras)
  {
    hide PromptTokens, Choose;
    ChoosesFirstThatFits(history, userText, instructions, maxTokens, x);
    FourCandidates(x, x.(memory := None), x.(memory := None, knowledge := None), NoExtras,
                   userText, instructions, maxTokens);
    FewerExtrasCostNoMore(instructions, NoExtras, x);
    FewerExtrasCostNoMore(instructions, NoExtras, x.(memory := None));
    FewerExtrasCostNoMore(instructions, NoExtras, x.(memory := None, knowledge := None));
  }

  /** With a budget set, assembling raises exactly when the budget is below one or cannot hold the bare
      instructions and the user text, whatever the history and the optional texts are. */
  lemma AssembleRaisesIff(
      history: seq<Message>, userText: string, config: LlmConfig, x: Extras, extraMessages: seq<LlmMessage>)
    ensures Assemble(history, userText, config, x, extraMessages).Err?
      <==> config.maxInputTokens.Some?
           && (config.maxInputTokens.value < 1
               || PromptTokens(config.systemInstructions, NoExtras) + ApproximateTokenCount(userText)
                    > config.maxInputTokens.value)
  {
    hide Choose, PromptTokens, BuildSystemPrompt;
    if config.maxInputTokens.Some? {
      ChooseFailsIff(ToLlm(Counting(history)), userText, config.systemInstructions, config.maxInputTokens.value, x);
    }
  }

  /** Without a budget nothing is given up: the request holds every counting message of the history, the user text and
      the extra messages, and its prompt is built from all the texts asked for. */
  lemma UnlimitedRequestHoldsEverything(
      history: seq<Message>, userText: string, config: LlmConfig, x: Extras, extraMessages: seq<LlmMessage>)
    requires config.maxInputTokens.None?
    ensures Assemble(history, userText, config, x, extraMessages)
      == Ok(LlmRequest(ToLlm(Counting(history)) + [TextMessage(User, userText)] + extraMessages,
                       BuildSystemPrompt(config.systemInstructions, x)))
  {
  }

  /** The newest n messages stay within the room that is left, and no more of them do. */
  ghost predicate IsLongestWithin(all: seq<LlmMessage>, n: nat, room: int) {
    && n <= |all| && TotalTokens(Newest(all, n)) <= room
    && forall longer :: n < longer <= |all| ==> TotalTokens(Newest(all, longer)) > room
  }

  /** With a budget the request holds the longest suffix of the counting history that fits beside the prompt of the
      first candidate that fits, whatever else could have been kept or given up. */
  lemma LimitedRequestIsLongest(
      history: seq<Message>, userText: string, config: LlmConfig, x: Extras, extraMessages: seq<LlmMessage>)
    returns (y: Extras, n: nat)
    requires config.maxInputTokens.Some? && Assemble(history, userText, config, x, extraMessages).Ok?
    ensures FirstThatFits(Chain(x), userText, config.systemInstructions, config.maxInputTokens.value) == Some(y)
    ensures IsLongestWithin(ToLlm(Counting(history)), n,
                            Room(config.systemInstructions, userText, config.maxInputTokens.value, y))
    ensures Assemble(history, userText, config, x, extraMessages).value
      == LlmRequest(Newest(ToLlm(Counting(history)), n) + [TextMessage(User, userText)] + extraMessages,
                    BuildSystemPrompt(config.systemInstructions, y))
  {
    hide Choose, BuildSystemPrompt, KeepSuffix, TotalTokens, ApproximateTokenCount, FirstThatFits, Counting, Newest,
         PromptTokens, Room, Fits;
    var all, instructions, budget := ToLlm(Counting(history)), config.systemInstructions, config.maxInputTokens.value;
    ChoosesFirstThatFits(all, userText, instructions, budget, x);
    y := FirstThatFits(Chain(x), userText, instructions, budget).value;
    KeptIsLongestFittingSuffix(all, Room(instructions, userText, budget, y));
    n := |KeepSuffix(all, Room(instructions, userText, budget, y))|;
  }

  /** The newest n messages, the user text and the extra messages, with a prompt built from the texts y; all but
      the extra messages are within the budget. */
  predicate IsWithinBudget(
      request: LlmRequest, all: seq<LlmMessage>, userText: string, instructions: string, maxTokens: int,
      extraMessages: seq<LlmMessage>, n: nat, y: Extras)
  {
    && n <= |all|
    && request.messages == Newest(all, n) + [TextMessage(User, userText)] + extraMessages
    && request.system == BuildSystemPrompt(instructions, y)
    && ApproximateTokenCount(request.system) + ApproximateTokenCount(userText) + TotalTokens(Newest(all, n))
         <= maxTokens
  }

  /** A request is an intact suffix of the counting history, the user text, and the extra messages; its prompt
      is built from texts that were all asked for; and without the extra messages it stays within the budget. */
  lemma AssembledRequestFits(
      history: seq<Message>, userText: string, config: LlmConfig, x: Extras, extraMessages: seq<LlmMessage>)
    requires config.maxInputTokens.Some? && Assemble(history, userText, config, x, extraMessages).Ok?
    ensures exists n: nat, y: Extras ::
      && y in Chain(x)
      && IsWithinBudget(Assemble(history, userText, config, x, extraMessages).value, ToLlm(Counting(history)),
                        userText, config.systemInstructions, config.maxInputTokens.value, extraMessages, n, y)
  {
    hide Choose, BuildSystemPrompt, KeepSuffix, TotalTokens, ApproximateTokenCount, FirstThatFits, Counting, Newest;
    var all := ToLlm(Counting(history));
    var instructions, maxTokens := config.systemInstructions, config.maxInputTokens.value;
    ChoosesFirstThatFits(all, userText, instructions, maxTokens, x);
    var y := Choose(all, userText, instructions, maxTokens, x).value.extras;
    var kept := KeepSuffix(all, Room(instructions, userText, maxTokens, y));
    KeptIsLongestFittingSuffix(all, Room(instructions, userText, maxTokens, y));
    assert IsWithinBudget(Assemble(history, userText, config, x, extraMessages).value, all,
                          userText, instructions, maxTokens, extraMessages, |kept|, y);
  }

  /** Extra messages never influence the rest of the request. */
  lemma ExtraMessagesOnlyExtend(
      history: seq<Message>, userText: string, config: LlmConfig, x: Extras, extraMessages: seq<LlmMessage>)
    ensures Assemble(history, userText, config, x, extraMessages)
      == match Assemble(history, userText, config, x, [])
         case Err(e) => Err(e)
         case Ok(request) => Ok(request.(messages := request.messages + extraMessages))
  {
    hide Choose, BuildSystemPrompt;
    var llmHistory := ToLlm(Counting(history));
    var choice := if config.maxInputTokens.None? then Ok(Choice(x, llmHistory))
      else Choose(llmHistory, userText, config.systemInstructions, config.maxInputTokens.value, x);
    if choice.Ok? {
      var messages := choice.value.kept + [TextMessage(User, userText)];
      assert messages + [] == messages;
    }
  }
}
