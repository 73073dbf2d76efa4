/** How large the requests of the tool loop get: the budget is checked for what the first one holds only. */
module ToolBudget {
  import opened Common
  import opened PyStrings
  import opened Conversation
  import opened ContextBudget
  import opened LlmContext
  import opened ToolLoop
  import SummaryInContext

  /** The estimate of everything a request holds: its prompt and all its messages. */
  function RequestTokens(request: LlmRequest): nat {
    ApproximateTokenCount(request.system) + TotalTokens(request.messages)
  }

  /** Extra messages add exactly their own estimates to the request; with a budget it is within it exactly when what
      the request holds without them leaves that much room. */
  lemma ExtraMessagesCostTheirTotal(
      history: seq<Message>, userText: string, config: LlmConfig, x: Extras, extraMessages: seq<LlmMessage>)
    requires Assemble(history, userText, config, x, []).Ok?
    ensures Assemble(history, userText, config, x, extraMessages).Ok?
    ensures RequestTokens(Assemble(history, userText, config, x, extraMessages).value)
      == RequestTokens(Assemble(history, userText, config, x, []).value) + TotalTokens(extraMessages)
  {
    hide Assemble, TotalTokens, ApproximateTokenCount;
    ExtraMessagesOnlyExtend(history, userText, config, x, extraMessages);
    TotalOfConcat(Assemble(history, userText, config, x, []).value.messages, extraMessages);
  }

  /** Without extra messages a request is within the budget. */
  lemma BareRequestFits(history: seq<Message>, userText: string, config: LlmConfig, x: Extras)
    requires config.maxInputTokens.Some? && Assemble(history, userText, config, x, []).Ok?
    ensures RequestTokens(Assemble(history, userText, config, x, []).value) <= config.maxInputTokens.value
  {
    hide Assemble, BuildSystemPrompt, ApproximateTokenCount, TotalTokens, Newest, Counting, Chain;
    AssembledRequestFits(history, userText, config, x, []);
    var request, all := Assemble(history, userText, config, x, []).value, ToLlm(Counting(history));
    var n: nat, y: Extras :| y in Chain(x)
      && IsWithinBudget(request, all, userText, config.systemInstructions, config.maxInputTokens.value, [], n, y);
    assert request.messages == Newest(all, n) + [TextMessage(User, userText)];
    TotalOfConcat(Newest(all, n), [TextMessage(User, userText)]);
    TotalOfOne(TextMessage(User, userText));
  }

  lemma TotalOfOne(m: LlmMessage)
    ensures TotalTokens([m]) == ApproximateTokenCount(m.content)
  {
    hide ApproximateTokenCount;
    assert [m][..0] == [] && [m][1..] == [];
  }

  /** The messages of the tool loop that the j-th request carries. */
  function Carried(job: Job, rounds: nat -> Round, j: nat): seq<LlmMessage>
    requires j < |RunFrom(job, rounds, 0, []).requests|
  {
    var requests := RunFrom(job, rounds, 0, []).requests;
    if |requests[j].messages| < |requests[0].messages| then []
    else requests[j].messages[|requests[0].messages|..]
  }

  /** The first request is within the budget; the j-th one costs as much as the first and what it carries from the tool
      loop, so it is within the budget exactly when that sum is. */
  lemma RequestFitsIff(job: Job, rounds: nat -> Round, j: nat)
    requires job.config.maxInputTokens.Some? && j < |RunFrom(job, rounds, 0, []).requests|
    ensures var requests, budget := RunFrom(job, rounds, 0, []).requests, job.config.maxInputTokens.value;
      && RequestTokens(requests[0]) <= budget
      && requests[j].messages == requests[0].messages + Carried(job, rounds, j)
      && (RequestTokens(requests[j]) <= budget
          <==> RequestTokens(requests[0]) + TotalTokens(Carried(job, rounds, j)) <= budget)
  {
    hide Assemble, AnswersRound, RunFrom, Flatten, TotalTokens, ApproximateTokenCount;
    NothingSentWithoutFirst(job, rounds);
    TranscriptShape(job, rounds);
    var run, base := RunFrom(job, rounds, 0, []), RequestWith(job, []).value;
    var blocks :| IsTranscript(run, base, rounds, job.hasExecutor, 0, blocks);
    assert ExtendsBase(run.requests, base, 0, blocks, 0) && ExtendsBase(run.requests, base, 0, blocks, j);
    NoBlocks(blocks);
    assert base.messages + [] == base.messages;
    BareRequestFits(job.history, job.userText, job.config, job.extras);
    TotalOfConcat(base.messages, Flatten(blocks[..j]));
  }

  lemma NoBlocks(blocks: seq<seq<LlmMessage>>)
    ensures Flatten(blocks[..0]) == []
  {
  }

  // ---- A run that exceeds the budget ----

  const SENTENCE := SummaryInContext.SENTENCE

  const First := ToolCall("a", "lookup", "")
  const Second := ToolCall("b", "lookup", "")

  const Block := [
    AssistantMessage("", [First, Second]),
    LlmMessage(Tool, SENTENCE, Some("a"), []), LlmMessage(Tool, SENTENCE, Some("b"), [])]

  /** A registered tool without parameters that answers with a sentence. */
  const Answering := Surroundings(
    false, true, _ => Malformed(""), _ => None, false, _ => ReturnsText(SENTENCE), false)

  /** A round in which the model asks for both calls. */
  const Calling := Round(
    false, [Chunk(false, "", [First, Second])], None, false, _ => false, _ => Answering, false)

  const Small := Job([], "u", LlmConfig("", Some(8), 2), NoExtras, true)

  lemma AnsweringSucceeds(call: ToolCall)
    requires call.arguments == ""
    ensures Execute(call, Answering) == Success(call, SENTENCE)
  {
    hide Strip, SummaryInContext.SENTENCE;
    SummaryInContext.ShortStrings();
    assert ParseArguments(call, Answering) == Object(map[]);
  }

  lemma CallingIsRead()
    ensures Read(Calling.chunks) == Streamed("", [First, Second])
  {
    assert Calling.chunks[..0] == [];
    assert "" + "" == "" && [] + [First, Second] == [First, Second];
  }

  lemma CallingIsAnswered()
    ensures ResultsOf([First, Second], Calling, true, 2) == Some([Success(First, SENTENCE), Success(Second, SENTENCE)])
  {
    hide Execute, SummaryInContext.SENTENCE;
    AnsweringSucceeds(First);
    AnsweringSucceeds(Second);
    assert !Calling.goneBeforeCall(0) && !Calling.goneBeforeCall(1);
    assert Calling.surroundings(0) == Calling.surroundings(1) == Answering;
    assert ResultsOf([First, Second], Calling, true, 0) == Some([]);
    var first, second := Success(First, SENTENCE), Success(Second, SENTENCE);
    assert ResultOf(First, Answering, true) == first && ResultOf(Second, Answering, true) == second;
    assert [] + [first] == [first] && [first] + [second] == [first, second];
    assert ResultsOf([First, Second], Calling, true, 1) == Some([first]);
  }

  lemma CallingContinues()
    ensures AfterRequest(Calling, true) == Continues(Block)
  {
    hide Read, ResultsOf, SummaryInContext.SENTENCE;
    CallingIsRead();
    CallingIsAnswered();
    var results := [Success(First, SENTENCE), Success(Second, SENTENCE)];
    assert ToolMessages(results)
      == [LlmMessage(Tool, SENTENCE, Some("a"), []), LlmMessage(Tool, SENTENCE, Some("b"), [])];
  }

  lemma SmallRequest(extraMessages: seq<LlmMessage>)
    ensures RequestWith(Small, extraMessages) == Ok(LlmRequest([TextMessage(User, "u")] + extraMessages, ""))
  {
    hide Strip, ApproximateTokenCount;
    SummaryInContext.TightPrompts();
    assert BuildSystemPrompt("", NoExtras) == "";
    assert Counting([]) == [] && ToLlm([]) == [] && forall room :: KeepSuffix([], room) == [];
    assert [] + [TextMessage(User, "u")] + extraMessages == [TextMessage(User, "u")] + extraMessages;
  }

  lemma EmptyCostsNothing()
    ensures ApproximateTokenCount("") == 0
  {
  }

  lemma BlockCosts()
    ensures TotalTokens(Block) == 14
  {
    hide ApproximateTokenCount, TotalTokens, SummaryInContext.SENTENCE, Strip;
    SummaryInContext.ShortStrings();
    EmptyCostsNothing();
    TotalOfOne(Block[0]);
    TotalOfOne(Block[1]);
    TotalOfOne(Block[2]);
    TotalOfConcat([Block[0]], [Block[1]]);
    TotalOfConcat([Block[0]] + [Block[1]], [Block[2]]);
    assert [Block[0]] + [Block[1]] + [Block[2]] == Block;
  }

  /** With a budget of eight, the request after two tool answers of a sentence each costs fifteen. */
  lemma ToolAnswersCanExceedTheBudget()
    ensures var requests := RunFrom(Small, _ => Calling, 0, []).requests;
      && |requests| == 2 && RequestTokens(requests[0]) == 1 && RequestTokens(requests[1]) == 15
  {
    hide RequestWith, AfterRequest, SummaryInContext.SENTENCE, ApproximateTokenCount, TotalTokens, Block, Strip;
    var rounds: nat -> Round := _ => Calling;
    CallingContinues();
    SmallRequest([]);
    SmallRequest(Block);
    assert [] + Block == Block;
    assert RunFrom(Small, rounds, 2, Block + Block).requests == [];
    assert RunFrom(Small, rounds, 1, Block).requests == [LlmRequest([TextMessage(User, "u")] + Block, "")];
    assert RunFrom(Small, rounds, 0, []).requests
      == [LlmRequest([TextMessage(User, "u")] + [], ""), LlmRequest([TextMessage(User, "u")] + Block, "")];
    SummaryInContext.ShortStrings();
    EmptyCostsNothing();
    BlockCosts();
    TotalOfOne(TextMessage(User, "u"));
    TotalOfConcat([TextMessage(User, "u")], Block);
    assert [TextMessage(User, "u")] + [] == [TextMessage(User, "u")];
  }
}
