/** Running tools for a model: the executor, and the loop that feeds results back into the next request. */
module ToolLoop {
  import opened Common
  import opened PyStrings
  import opened Conversation
  import opened ContextBudget
  import opened LlmContext

  // ---- The executor ----

  datatype ToolErrorCode = Cancelled | ToolNotFound | InvalidArguments | ValidationFailed | ExecutionFailed

  datatype ToolResult = ToolResult(
    toolCallId: string, toolName: string, success: bool, output: string,
    error: Option<string>, errorCode: Option<ToolErrorCode>)

  type Arguments = map<string, string>

  datatype Parsed = Malformed(why: string) | NotAnObject(typeName: string) | Object(arguments: Arguments)

  /** What the handler does: raise, or return one of the kinds of value that are normalized differently. */
  datatype HandlerOutcome =
    | Raises(text: string)
    | ReturnsNone
    | ReturnsText(text: string)
    | ReturnsJson(dumped: Option<string>, text: string)
    | ReturnsOther(text: string)

  /** Everything outside the executor that one call meets: the registry, the JSON parser, the schema check, the
      handler, and the token as it reads at the three checks. */
  datatype Surroundings = Surroundings(
    cancelledBefore: bool, registered: bool, parse: string -> Parsed, violation: Arguments -> Option<string>,
    cancelledAtCall: bool, handler: Arguments -> HandlerOutcome, cancelledAfter: bool)

  function Failure(call: ToolCall, error: string, code: ToolErrorCode): ToolResult {
    ToolResult(call.id, call.name, false, "Error: " + error, Some(error), Some(code))
  }

  function Success(call: ToolCall, output: string): ToolResult {
    ToolResult(call.id, call.name, true, output, None, None)
  }

  function Output(o: HandlerOutcome): string
    requires !o.Raises?
  {
    match o
    case ReturnsNone => ""
    case ReturnsText(text) => text
    case ReturnsJson(dumped, text) => if dumped.Some? then dumped.value else text
    case ReturnsOther(text) => text
  }

  function ParseArguments(call: ToolCall, s: Surroundings): Parsed {
    var raw := Strip(call.arguments);
    if raw == "" then Object(map[]) else s.parse(raw)
  }

  /** Every way out yields a result for the same call, and it is a failure exactly when it carries an error. */
  function Execute(call: ToolCall, s: Surroundings): (r: ToolResult)
    ensures r.toolCallId == call.id && r.toolName == call.name
    ensures r.success <==> r.errorCode.None?
    ensures r.error.Some? <==> r.errorCode.Some?
    ensures r.error.Some? ==> r.output == "Error: " + r.error.value
  {
    if s.cancelledBefore then Failure(call, "Tool execution was cancelled before start.", Cancelled)
    else if !s.registered then Failure(call, "Tool '" + call.name + "' is not registered.", ToolNotFound)
    else
      match ParseArguments(call, s)
      case Malformed(why) => Failure(call, "Malformed JSON arguments: " + why, InvalidArguments)
      case NotAnObject(typeName) =>
        Failure(call, "Tool arguments must be a JSON object, got " + typeName + ".", InvalidArguments)
      case Object(arguments) =>
        var violation := s.violation(arguments);
        if violation.Some? then Failure(call, violation.value, ValidationFailed)
        else if s.cancelledAtCall then Failure(call, "Tool execution was cancelled.", Cancelled)
        else
          var outcome := s.handler(arguments);
          if outcome.Raises? then Failure(call, outcome.text, ExecutionFailed)
          else if s.cancelledAfter then Failure(call, "Tool execution was cancelled.", Cancelled)
          else Success(call, Output(outcome))
  }

  /** Whether the call gets as far as its handler. */
  predicate Reached(call: ToolCall, s: Surroundings) {
    var parsed := ParseArguments(call, s);
    && !s.cancelledBefore && s.registered && parsed.Object? && s.violation(parsed.arguments).None? && !s.cancelledAtCall
  }

  type Handler = Arguments -> HandlerOutcome

  function WithHandler(s: Surroundings, handler: Handler): Surroundings {
    s.(handler := handler)
  }

  /** A handler that is not reached, or that answers the parsed arguments alike, gives the same result. */
  lemma UnreachedHandlerIsIgnored(call: ToolCall, s: Surroundings, other: Handler)
    requires !Reached(call, s)
      || other(ParseArguments(call, s).arguments) == s.handler(ParseArguments(call, s).arguments)
    ensures Execute(call, WithHandler(s, other)) == Execute(call, s)
  {
    hide Strip;
    assert ParseArguments(call, WithHandler(s, other)) == ParseArguments(call, s);
  }

  /** The checks come before the execution: which handler is registered influences the result exactly when every check
      has been passed. */
  lemma HandlerDecidesIffReached(call: ToolCall, s: Surroundings)
    ensures Reached(call, s)
      <==> exists other: Handler :: Execute(call, WithHandler(s, other)) != Execute(call, s)
  {
    hide Strip;
    if Reached(call, s) {
      var failing, silent := (_: Arguments) => Raises(""), (_: Arguments) => ReturnsNone;
      assert ParseArguments(call, WithHandler(s, failing)) == ParseArguments(call, s);
      assert ParseArguments(call, WithHandler(s, silent)) == ParseArguments(call, s);
      assert Execute(call, WithHandler(s, failing)).errorCode == Some(ExecutionFailed);
      assert Execute(call, WithHandler(s, silent)).errorCode != Some(ExecutionFailed);
    } else {
      forall other: Handler ensures Execute(call, WithHandler(s, other)) == Execute(call, s) {
        UnreachedHandlerIsIgnored(call, s, other);
      }
    }
  }

  // ---- What one iteration meets ----

  datatype Chunk = Chunk(gone: bool, delta: string, calls: seq<ToolCall>)

  /** One round with the model: whether the turn is gone at each check, the chunks that arrive, how the stream
      ends, and the surroundings of each call. */
  datatype Round = Round(
    goneAtStart: bool, chunks: seq<Chunk>, failure: Option<string>, goneAfterStream: bool,
    goneBeforeCall: nat -> bool, surroundings: nat -> Surroundings, goneAfterCalls: bool)

  datatype Exit = Gone | BudgetExceeded | ProviderFailed(code: string) | Replied(text: string) | LimitExceeded

  datatype Streamed = StreamGone | Streamed(text: string, calls: seq<ToolCall>)

  function Read(chunks: seq<Chunk>): Streamed {
    if chunks == [] then Streamed("", [])
    else
      var last := chunks[|chunks| - 1];
      match Read(chunks[..|chunks| - 1])
      case StreamGone => StreamGone
      case Streamed(text, calls) => if last.gone then StreamGone else Streamed(text + last.delta, calls + last.calls)
  }

  function JoinedDeltas(chunks: seq<Chunk>): string {
    if chunks == [] then "" else chunks[0].delta + JoinedDeltas(chunks[1..])
  }

  function JoinedCalls(chunks: seq<Chunk>): seq<ToolCall> {
    if chunks == [] then [] else chunks[0].calls + JoinedCalls(chunks[1..])
  }

  lemma {:induction false} JoinedAppend(chunks: seq<Chunk>, chunk: Chunk)
    ensures JoinedDeltas(chunks + [chunk]) == JoinedDeltas(chunks) + chunk.delta
    ensures JoinedCalls(chunks + [chunk]) == JoinedCalls(chunks) + chunk.calls
  {
    if chunks == [] {
      assert ([] + [chunk])[1..] == [];
    } else {
      JoinedAppend(chunks[1..], chunk);
      assert (chunks + [chunk])[1..] == chunks[1..] + [chunk];
    }
  }

  /** A stream is read to its end exactly when no chunk finds the turn gone, and then gives the chunks' texts and calls
      joined in order. */
  lemma {:induction false} ReadJoinsChunks(chunks: seq<Chunk>)
    ensures Read(chunks).StreamGone? <==> exists k :: 0 <= k < |chunks| && chunks[k].gone
    ensures Read(chunks).Streamed? ==> Read(chunks) == Streamed(JoinedDeltas(chunks), JoinedCalls(chunks))
  {
    if chunks != [] {
      var init, last := chunks[..|chunks| - 1], chunks[|chunks| - 1];
      ReadJoinsChunks(init);
      JoinedAppend(init, last);
      assert chunks == init + [last];
      assert forall k :: 0 <= k < |init| ==> chunks[k] == init[k];
    }
  }

  /** The results of the first n calls, unless the turn is gone before one of them. Without an executor each call
      fails as not found. */
  function ResultsOf(calls: seq<ToolCall>, round: Round, hasExecutor: bool, n: nat): (r: Option<seq<ToolResult>>)
    requires n <= |calls|
    ensures r.Some? ==> |r.value| == n && forall k :: 0 <= k < n ==> r.value[k].toolCallId == calls[k].id
  {
    if n == 0 then Some([])
    else
      var before := ResultsOf(calls, round, hasExecutor, n - 1);
      if before.None? || round.goneBeforeCall(n - 1) then None
      else Some(before.value + [ResultOf(calls[n - 1], round.surroundings(n - 1), hasExecutor)])
  }

  function ResultOf(call: ToolCall, s: Surroundings, hasExecutor: bool): (r: ToolResult)
    ensures r.toolCallId == call.id
  {
    if hasExecutor then Execute(call, s)
    else Failure(call, "Tool '" + call.name + "' cannot be executed: no tool registry is configured.", ToolNotFound)
  }

  function AssistantMessage(text: string, calls: seq<ToolCall>): LlmMessage {
    LlmMessage(Assistant, text, None, calls)
  }

  function ToolMessage(result: ToolResult): LlmMessage {
    LlmMessage(Tool, result.output, Some(result.toolCallId), [])
  }

  function ToolMessages(results: seq<ToolResult>): (messages: seq<LlmMessage>)
    ensures |messages| == |results| && forall k :: 0 <= k < |results| ==> messages[k] == ToolMessage(results[k])
  {
    seq(|results|, k requires 0 <= k < |results| => ToolMessage(results[k]))
  }

  datatype RoundEnd = Ends(exit: Exit) | Continues(block: seq<LlmMessage>)

  /** From the first chunk to the end of the iteration. */
  function AfterRequest(round: Round, hasExecutor: bool): (end: RoundEnd)
    ensures end.Ends? ==> !end.exit.BudgetExceeded? && !end.exit.LimitExceeded?
  {
    match Read(round.chunks)
    case StreamGone => Ends(Gone)
    case Streamed(text, calls) =>
      if round.goneAfterStream then Ends(Gone)
      else if round.failure.Some? then Ends(ProviderFailed(round.failure.value))
      else if calls == [] then Ends(Replied(text))
      else
        var results := ResultsOf(calls, round, hasExecutor, |calls|);
        if results.None? || round.goneAfterCalls then Ends(Gone)
        else Continues([AssistantMessage(text, calls)] + ToolMessages(results.value))
  }

  /** What stays the same throughout the loop. */
  datatype Job = Job(history: seq<Message>, userText: string, config: LlmConfig, extras: Extras, hasExecutor: bool)

  function RequestWith(job: Job, extraMessages: seq<LlmMessage>): Result<LlmRequest, RuntimeError> {
    Assemble(job.history, job.userText, job.config, job.extras, extraMessages)
  }

  datatype LoopRun = LoopRun(requests: seq<LlmRequest>, exit: Exit)

  /** The requests sent from iteration i on, and how the loop ends. */
  function RunFrom(job: Job, rounds: nat -> Round, i: nat, extraMessages: seq<LlmMessage>): LoopRun
    decreases job.config.maxToolIterations - i
  {
    if i >= job.config.maxToolIterations then LoopRun([], LimitExceeded)
    else if rounds(i).goneAtStart then LoopRun([], Gone)
    else
      match RequestWith(job, extraMessages)
      case Err(_) => LoopRun([], BudgetExceeded)
      case Ok(request) =>
        match AfterRequest(rounds(i), job.hasExecutor)
        case Ends(exit) => LoopRun([request], exit)
        case Continues(block) =>
          var rest := RunFrom(job, rounds, i + 1, extraMessages + block);
          LoopRun([request] + rest.requests, rest.exit)
  }

  // ---- The loop ----

  method ReadStream(round: Round) returns (end: Streamed)
    ensures end == Read(round.chunks)
  {
    var parts := "";
    var accumulated: seq<ToolCall> := [];
    assert round.chunks[..|round.chunks|] == round.chunks;
    for k := 0 to |round.chunks|
      invariant Read(round.chunks[..k]) == Streamed(parts, accumulated)
    {
      var chunk := round.chunks[k];
      assert round.chunks[..k + 1][..k] == round.chunks[..k];
      if chunk.gone {
        GoneStaysGone(round.chunks, k + 1);
        return StreamGone;
      }
      if chunk.delta != "" {
        parts := parts + chunk.delta;
      }
      if chunk.calls != [] {
        accumulated := accumulated + chunk.calls;
      }
    }
    return Streamed(parts, accumulated);
  }

  lemma {:induction false} GoneStaysGone(chunks: seq<Chunk>, k: nat)
    requires k <= |chunks| && Read(chunks[..k]).StreamGone?
    ensures Read(chunks).StreamGone?
    decreases |chunks|
  {
    if k < |chunks| {
      assert chunks[..|chunks| - 1][..k] == chunks[..k];
      GoneStaysGone(chunks[..|chunks| - 1], k);
    } else {
      assert chunks[..k] == chunks;
    }
  }

  method RunTools(calls: seq<ToolCall>, round: Round, hasExecutor: bool) returns (results: Option<seq<ToolResult>>)
    ensures results == ResultsOf(calls, round, hasExecutor, |calls|)
  {
    hide ResultOf;
    var done: seq<ToolResult> := [];
    for k := 0 to |calls|
      invariant ResultsOf(calls, round, hasExecutor, k) == Some(done)
    {
      if round.goneBeforeCall(k) {
        MissingStaysMissing(calls, round, hasExecutor, k + 1, |calls|);
        return None;
      }
      done := done + [ResultOf(calls[k], round.surroundings(k), hasExecutor)];
    }
    return Some(done);
  }

  lemma {:induction false} MissingStaysMissing(calls: seq<ToolCall>, round: Round, hasExecutor: bool, n: nat, m: nat)
    requires n <= m <= |calls| && ResultsOf(calls, round, hasExecutor, n).None?
    ensures ResultsOf(calls, round, hasExecutor, m).None?
  {
    if n < m {
      MissingStaysMissing(calls, round, hasExecutor, n, m - 1);
    }
  }

  /** Prefixing requests already sent. */
  function Prepend(sent: seq<LlmRequest>, run: LoopRun): LoopRun {
    LoopRun(sent + run.requests, run.exit)
  }

  method AppendExchange(messages: seq<LlmMessage>, text: string, calls: seq<ToolCall>, results: seq<ToolResult>)
      returns (extended: seq<LlmMessage>)
    ensures extended == messages + ([AssistantMessage(text, calls)] + ToolMessages(results))
  {
    extended := messages + [AssistantMessage(text, calls)];
    for k := 0 to |results|
      invariant extended == messages + [AssistantMessage(text, calls)] + ToolMessages(results)[..k]
    {
      extended := extended + [ToolMessage(results[k])];
    }
    assert extended == messages + ([AssistantMessage(text, calls)] + ToolMessages(results));
  }

  /** The tool loop, with the messages it accumulates and the requests it sends. */
  method RunLlmStream(job: Job, rounds: nat -> Round) returns (run: LoopRun)
    ensures run == RunFrom(job, rounds, 0, [])
  {
    hide Assemble, Read, ResultsOf, RequestWith, ToolMessage;
    var extraMessages: seq<LlmMessage> := [];
    var sent: seq<LlmRequest> := [];
    var iteration := 0;
    assert Prepend(sent, RunFrom(job, rounds, 0, [])) == RunFrom(job, rounds, 0, []);
    while iteration < job.config.maxToolIterations
      invariant 0 <= iteration
      invariant Prepend(sent, RunFrom(job, rounds, iteration, extraMessages)) == RunFrom(job, rounds, 0, [])
    {
      var round := rounds(iteration);
      if round.goneAtStart {
        return LoopRun(sent, Gone);
      }
      var request := RequestWith(job, extraMessages);
      if request.Err? {
        return LoopRun(sent, BudgetExceeded);
      }
      OneRequestMore(job, rounds, iteration, extraMessages, sent);
      sent := sent + [request.value];
      var streamed := ReadStream(round);
      if streamed.StreamGone? || round.goneAfterStream {
        return LoopRun(sent, Gone);
      }
      if round.failure.Some? {
        return LoopRun(sent, ProviderFailed(round.failure.value));
      }
      if streamed.calls == [] {
        return LoopRun(sent, Replied(streamed.text));
      }
      var results := RunTools(streamed.calls, round, job.hasExecutor);
      if results.None? || round.goneAfterCalls {
        return LoopRun(sent, Gone);
      }
      extraMessages := AppendExchange(extraMessages, streamed.text, streamed.calls, results.value);
      iteration := iteration + 1;
    }
    return LoopRun(sent, LimitExceeded);
  }

  lemma OneRequestMore(job: Job, rounds: nat -> Round, i: nat, extraMessages: seq<LlmMessage>, sent: seq<LlmRequest>)
    requires i < job.config.maxToolIterations && !rounds(i).goneAtStart && RequestWith(job, extraMessages).Ok?
    ensures Prepend(sent, RunFrom(job, rounds, i, extraMessages))
      == match AfterRequest(rounds(i), job.hasExecutor)
         case Ends(exit) => LoopRun(sent + [RequestWith(job, extraMessages).value], exit)
         case Continues(block) =>
           Prepend(sent + [RequestWith(job, extraMessages).value], RunFrom(job, rounds, i + 1, extraMessages + block))
  {
    hide Assemble, AfterRequest;
    var request := RequestWith(job, extraMessages).value;
    match AfterRequest(rounds(i), job.hasExecutor)
    case Ends(_) =>
    case Continues(block) =>
      var rest := RunFrom(job, rounds, i + 1, extraMessages + block);
      assert sent + ([request] + rest.requests) == sent + [request] + rest.requests;
  }

  // ---- The transcript ----

  /** An assistant message with calls, followed by one tool message per call, in the order of the calls. */
  predicate IsBlock(block: seq<LlmMessage>) {
    && |block| > 1 && block[0].role == Assistant && block[0].toolCallId.None?
    && |block| == 1 + |block[0].toolCalls|
    && forall k :: 0 <= k < |block[0].toolCalls| ==>
         && block[1 + k].role == Tool && block[1 + k].toolCalls == []
         && block[1 + k].toolCallId == Some(block[0].toolCalls[k].id)
  }

  /** The block answers exactly what the model streamed in that round: its text and calls, and for each call what
      executing it there gave. */
  ghost predicate AnswersRound(block: seq<LlmMessage>, round: Round, hasExecutor: bool) {
    && IsBlock(block) && Read(round.chunks) == Streamed(block[0].content, block[0].toolCalls)
    && forall k :: 0 <= k < |block[0].toolCalls| ==>
         block[1 + k].content == ResultOf(block[0].toolCalls[k], round.surroundings(k), hasExecutor).output
  }

  lemma BlockForResults(text: string, calls: seq<ToolCall>, results: seq<ToolResult>)
    requires calls != [] && |results| == |calls|
    requires forall k :: 0 <= k < |calls| ==> results[k].toolCallId == calls[k].id
    ensures IsBlock([AssistantMessage(text, calls)] + ToolMessages(results))
  {
    var block := [AssistantMessage(text, calls)] + ToolMessages(results);
    forall k | 0 <= k < |calls|
      ensures block[1 + k].role == Tool && block[1 + k].toolCalls == [] && block[1 + k].toolCallId == Some(calls[k].id)
    {
      assert block[1 + k] == ToolMessage(results[k]);
    }
  }

  lemma {:induction false} ResultsAreOfCalls(calls: seq<ToolCall>, round: Round, hasExecutor: bool, n: nat)
    requires n <= |calls| && ResultsOf(calls, round, hasExecutor, n).Some?
    ensures forall k :: 0 <= k < n ==>
      ResultsOf(calls, round, hasExecutor, n).value[k] == ResultOf(calls[k], round.surroundings(k), hasExecutor)
    ensures forall k: nat :: k < n ==> !round.goneBeforeCall(k)
  {
    hide ResultOf;
    if n > 0 {
      ResultsAreOfCalls(calls, round, hasExecutor, n - 1);
    }
  }

  lemma {:induction false} NoResultsIff(calls: seq<ToolCall>, round: Round, hasExecutor: bool, n: nat)
    requires n <= |calls|
    ensures ResultsOf(calls, round, hasExecutor, n).None? <==> exists k: nat :: k < n && round.goneBeforeCall(k)
  {
    hide ResultOf;
    if n > 0 {
      NoResultsIff(calls, round, hasExecutor, n - 1);
    }
  }

  lemma ContinuingAddsABlock(round: Round, hasExecutor: bool)
    requires AfterRequest(round, hasExecutor).Continues?
    ensures AnswersRound(AfterRequest(round, hasExecutor).block, round, hasExecutor)
  {
    hide Read, IsBlock, ToolMessages, ResultsOf, ResultOf;
    var streamed := Read(round.chunks);
    var results := ResultsOf(streamed.calls, round, hasExecutor, |streamed.calls|).value;
    BlockForResults(streamed.text, streamed.calls, results);
    ResultsAreOfCalls(streamed.calls, round, hasExecutor, |streamed.calls|);
    ContentsOfResults(streamed.text, streamed.calls, results);
  }

  lemma ContentsOfResults(text: string, calls: seq<ToolCall>, results: seq<ToolResult>)
    ensures var block := [AssistantMessage(text, calls)] + ToolMessages(results);
      && |block| == 1 + |results|
      && forall k :: 0 <= k < |results| ==> block[1 + k].content == results[k].output
  {
    var block := [AssistantMessage(text, calls)] + ToolMessages(results);
    forall k | 0 <= k < |results| ensures block[1 + k].content == results[k].output {
      assert block[1 + k] == ToolMessage(results[k]);
    }
  }

  function Flatten(blocks: seq<seq<LlmMessage>>): seq<LlmMessage> {
    if blocks == [] then [] else Flatten(blocks[..|blocks| - 1]) + blocks[|blocks| - 1]
  }

  lemma FlattenAppend(blocks: seq<seq<LlmMessage>>, block: seq<LlmMessage>)
    ensures Flatten(blocks + [block]) == Flatten(blocks) + block
  {
    assert (blocks + [block])[..|blocks|] == blocks;
  }

  /** The j-th request is the first one extended by the first `from + j` blocks. */
  ghost predicate ExtendsBase(
      requests: seq<LlmRequest>, base: LlmRequest, from: nat, blocks: seq<seq<LlmMessage>>, j: nat)
    requires j < |requests|
  {
    && from + j <= |blocks|
    && requests[j] == base.(messages := base.messages + Flatten(blocks[..from + j]))
  }

  /** The j-th request carries j answered blocks behind what the first request carries. */
  ghost predicate IsTranscript(
      run: LoopRun, base: LlmRequest, rounds: nat -> Round, hasExecutor: bool, from: nat,
      blocks: seq<seq<LlmMessage>>)
  {
    && from <= |blocks|
    && (forall j :: 0 <= j < |blocks| ==> AnswersRound(blocks[j], rounds(j), hasExecutor))
    && forall j :: 0 <= j < |run.requests| ==> ExtendsBase(run.requests, base, from, blocks, j)
  }

  /** One request more in front. */
  lemma TranscriptStep(
      run: LoopRun, base: LlmRequest, rounds: nat -> Round, hasExecutor: bool, from: nat,
      blocks: seq<seq<LlmMessage>>, request: LlmRequest)
    requires IsTranscript(run, base, rounds, hasExecutor, from + 1, blocks)
    requires request == base.(messages := base.messages + Flatten(blocks[..from]))
    ensures IsTranscript(Prepend([request], run), base, rounds, hasExecutor, from, blocks)
  {
    hide AnswersRound, Flatten;
    var requests := [request] + run.requests;
    forall j | 0 <= j < |requests| ensures ExtendsBase(requests, base, from, blocks, j) {
      if j > 0 {
        assert ExtendsBase(run.requests, base, from + 1, blocks, j - 1);
        assert from + 1 + (j - 1) == from + j;
      }
    }
  }

  lemma {:induction false} RunIsTranscript(job: Job, rounds: nat -> Round, i: nat, done: seq<seq<LlmMessage>>)
    returns (blocks: seq<seq<LlmMessage>>)
    requires RequestWith(job, []).Ok? && |done| == i
    requires forall j :: 0 <= j < i ==> AnswersRound(done[j], rounds(j), job.hasExecutor)
    ensures done <= blocks
    ensures var run := RunFrom(job, rounds, i, Flatten(done));
      && IsTranscript(run, RequestWith(job, []).value, rounds, job.hasExecutor, i, blocks)
      && (|run.requests| > 0 ==> i + |run.requests| <= job.config.maxToolIterations)
      && !run.exit.BudgetExceeded?
      && (run.exit.LimitExceeded? && i <= job.config.maxToolIterations ==>
            i + |run.requests| == job.config.maxToolIterations)
    decreases job.config.maxToolIterations - i
  {
    hide Assemble, AfterRequest, AnswersRound, Flatten;
    var base, extraMessages := RequestWith(job, []).value, Flatten(done);
    ExtraMessagesOnlyExtend(job.history, job.userText, job.config, job.extras, extraMessages);
    blocks := done;
    assert done[..i] == done;
    if i < job.config.maxToolIterations && !rounds(i).goneAtStart {
      if AfterRequest(rounds(i), job.hasExecutor).Continues? {
        var block := AfterRequest(rounds(i), job.hasExecutor).block;
        ContinuingAddsABlock(rounds(i), job.hasExecutor);
        FlattenAppend(done, block);
        blocks := RunIsTranscript(job, rounds, i + 1, done + [block]);
        assert RunFrom(job, rounds, i, extraMessages)
          == Prepend([RequestWith(job, extraMessages).value], RunFrom(job, rounds, i + 1, Flatten(done + [block])));
        assert blocks[..i] == done;
        TranscriptStep(RunFrom(job, rounds, i + 1, Flatten(done + [block])), base, rounds, job.hasExecutor, i, blocks,
                       RequestWith(job, extraMessages).value);
      }
    }
  }

  lemma NothingSentWithoutFirst(job: Job, rounds: nat -> Round)
    ensures RequestWith(job, []).Err? ==> RunFrom(job, rounds, 0, []).requests == []
  {
  }

  /** For whatever the model, the tools and cancellation do: no more requests than allowed are sent; the j-th one is
      the first one extended by j blocks, each answering what the model streamed in its round, call by call; and
      the budget can end the loop only before its first request. */
  lemma TranscriptShape(job: Job, rounds: nat -> Round)
    ensures var run := RunFrom(job, rounds, 0, []);
      && (job.config.maxToolIterations >= 0 ==> |run.requests| <= job.config.maxToolIterations)
      && (run.exit.BudgetExceeded? ==> run.requests == [])
      && (run.exit.LimitExceeded? && job.config.maxToolIterations >= 0 ==>
            |run.requests| == job.config.maxToolIterations)
      && (run.requests != [] ==>
            exists blocks :: IsTranscript(run, RequestWith(job, []).value, rounds, job.hasExecutor, 0, blocks))
  {
    hide Assemble, AfterRequest, AnswersRound, IsTranscript;
    if RequestWith(job, []).Ok? {
      assert Flatten([]) == [];
      var blocks := RunIsTranscript(job, rounds, 0, []);
    }
  }

  /** Each request's messages are a prefix of the next one's, and what is added is one block. */
  lemma EachRequestExtendsTheLast(job: Job, rounds: nat -> Round, j: nat)
    requires j + 1 < |RunFrom(job, rounds, 0, []).requests|
    ensures var requests := RunFrom(job, rounds, 0, []).requests;
      && requests[j].messages <= requests[j + 1].messages
      && requests[j].system == requests[j + 1].system
      && AnswersRound(requests[j + 1].messages[|requests[j].messages|..], rounds(j), job.hasExecutor)
  {
    hide Assemble, AfterRequest, AnswersRound, RunFrom, Flatten;
    NothingSentWithoutFirst(job, rounds);
    TranscriptShape(job, rounds);
    var run, base := RunFrom(job, rounds, 0, []), RequestWith(job, []).value;
    var blocks :| IsTranscript(run, base, rounds, job.hasExecutor, 0, blocks);
    assert ExtendsBase(run.requests, base, 0, blocks, j) && ExtendsBase(run.requests, base, 0, blocks, j + 1);
    assert blocks[..j + 1] == blocks[..j] + [blocks[j]];
    FlattenAppend(blocks[..j], blocks[j]);
    assert run.requests[j + 1].messages == run.requests[j].messages + blocks[j];
  }
}
