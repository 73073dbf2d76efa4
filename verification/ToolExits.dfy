/** How the tool loop ends, and which obstacle a failed call names. */
module ToolExits {
  import opened Common
  import opened PyStrings
  import opened Conversation
  import opened LlmContext
  import opened ToolLoop

  // ---- The executor ----

  /** What stands in the way of a call, if this does. */
  function If(stands: bool, code: ToolErrorCode): seq<ToolErrorCode> {
    if stands then [code] else []
  }

  /** Everything that stands in the way of a call, in the order in which it counts; the later ones exist only when there
      are arguments to look at. */
  function Obstacles(call: ToolCall, s: Surroundings): seq<ToolErrorCode> {
    var parsed := ParseArguments(call, s);
    If(s.cancelledBefore, Cancelled) + If(!s.registered, ToolNotFound) + If(!parsed.Object?, InvalidArguments)
    + if parsed.Object? then
        If(s.violation(parsed.arguments).Some?, ValidationFailed) + If(s.cancelledAtCall, Cancelled)
        + If(s.handler(parsed.arguments).Raises?, ExecutionFailed) + If(s.cancelledAfter, Cancelled)
      else []
  }

  /** A result names the first obstacle that stands in the way, and is a success exactly when there is none. */
  lemma ResultNamesFirstObstacle(call: ToolCall, s: Surroundings)
    ensures Execute(call, s).success <==> Obstacles(call, s) == []
    ensures Obstacles(call, s) != [] ==> Execute(call, s).errorCode == Some(Obstacles(call, s)[0])
  {
    hide Strip;
  }

  /** What the model is told when a call succeeds: nothing for None, the text itself, the JSON form of a JSON value, and
      the plain text of what has none. */
  lemma SuccessTellsWhatWasReturned(call: ToolCall, s: Surroundings)
    requires Execute(call, s).success
    ensures ParseArguments(call, s).Object?
    ensures var returned := s.handler(ParseArguments(call, s).arguments);
      && (returned.ReturnsNone? ==> Execute(call, s).output == "")
      && (forall text :: returned == ReturnsText(text) || returned == ReturnsOther(text) ==>
            Execute(call, s).output == text)
      && (forall json, text :: returned == ReturnsJson(Some(json), text) ==> Execute(call, s).output == json)
      && (forall text :: returned == ReturnsJson(None, text) ==> Execute(call, s).output == text)
  {
    hide Strip;
  }

  /** Blank arguments stand for the empty object, and blanks around arguments make no difference to a call. */
  lemma BlanksDecideNothing(call: ToolCall, s: Surroundings, other: string)
    ensures Strip(call.arguments) == "" && s.parse("{}") == Object(map[]) ==>
      Execute(call, s) == Execute(call.(arguments := "{}"), s)
    ensures Strip(call.arguments) == Strip(other) ==> Execute(call, s) == Execute(call.(arguments := other), s)
    ensures Strip(call.arguments) != "" ==> ParseArguments(call, s) == s.parse(Strip(call.arguments))
  {
    hide Strip, Execute;
    StripOfStripped("{}");
    if Strip(call.arguments) == "" && s.parse("{}") == Object(map[]) {
      SameParseSameResult(call, s, "{}");
    }
    if Strip(call.arguments) == Strip(other) {
      SameParseSameResult(call, s, other);
    }
  }

  lemma SameParseSameResult(call: ToolCall, s: Surroundings, other: string)
    requires ParseArguments(call, s) == ParseArguments(call.(arguments := other), s)
    ensures Execute(call, s) == Execute(call.(arguments := other), s)
  {
    hide ParseArguments;
  }

  /** Without a registry every call fails as not found. */
  lemma WithoutExecutorNothingIsFound(call: ToolCall, s: Surroundings)
    ensures var r := ResultOf(call, s, false);
      !r.success && r.errorCode == Some(ToolNotFound) && r.toolName == call.name
  {
  }

  // ---- One round ----

  predicate IsReadThrough(round: Round) {
    (forall k :: 0 <= k < |round.chunks| ==> !round.chunks[k].gone) && !round.goneAfterStream
  }

  /** The model answers with this text and asks for nothing. */
  ghost predicate RoundReplies(round: Round, text: string) {
    IsReadThrough(round) && round.failure.None? && JoinedCalls(round.chunks) == [] && text == JoinedDeltas(round.chunks)
  }

  ghost predicate RoundFails(round: Round, code: string) {
    IsReadThrough(round) && round.failure == Some(code)
  }

  /** Some check finds the turn gone, from the first chunk to the last call. */
  ghost predicate RoundIsCutShort(round: Round) {
    || !IsReadThrough(round)
    || (&& round.failure.None? && JoinedCalls(round.chunks) != []
        && ((exists k: nat :: k < |JoinedCalls(round.chunks)| && round.goneBeforeCall(k)) || round.goneAfterCalls))
  }

  /** The model asks for tools and gets all its answers. */
  ghost predicate RoundContinues(round: Round) {
    && IsReadThrough(round) && round.failure.None? && JoinedCalls(round.chunks) != [] && !round.goneAfterCalls
    && forall k: nat :: k < |JoinedCalls(round.chunks)| ==> !round.goneBeforeCall(k)
  }

  lemma RoundMeans(round: Round, hasExecutor: bool)
    ensures var end := AfterRequest(round, hasExecutor);
      && (forall text :: end == Ends(Replied(text)) <==> RoundReplies(round, text))
      && (forall code :: end == Ends(ProviderFailed(code)) <==> RoundFails(round, code))
      && (end == Ends(Gone) <==> RoundIsCutShort(round))
      && (end.Continues? <==> RoundContinues(round))
      && (end.Ends? ==> end.exit.Replied? || end.exit.ProviderFailed? || end.exit.Gone?)
  {
    hide Read, ResultsOf, JoinedDeltas, JoinedCalls, ToolMessages;
    ReadJoinsChunks(round.chunks);
    if Read(round.chunks).Streamed? {
      var calls := Read(round.chunks).calls;
      NoResultsIff(calls, round, hasExecutor, |calls|);
    }
  }

  // ---- The loop ----

  /** What an exit says about a run that starts at one iteration and has sent its requests up to another. */
  ghost predicate ExitIsTrue(job: Job, rounds: nat -> Round, i: nat, upTo: nat, exit: Exit) {
    match exit
    case Replied(text) => i < upTo && RoundReplies(rounds(upTo - 1), text)
    case ProviderFailed(code) => i < upTo && RoundFails(rounds(upTo - 1), code)
    case Gone =>
      || (i < upTo && RoundIsCutShort(rounds(upTo - 1)))
      || (upTo < job.config.maxToolIterations && rounds(upTo).goneAtStart)
    case BudgetExceeded => upTo < job.config.maxToolIterations && !rounds(upTo).goneAtStart
    case LimitExceeded => upTo >= job.config.maxToolIterations && (i < upTo ==> RoundContinues(rounds(upTo - 1)))
  }

  /** The requests of the run were sent in rounds that were answered, all but possibly the last one, and none of them
      began gone. */
  ghost predicate RoundsAreAnswered(rounds: nat -> Round, i: nat, upTo: nat) {
    && (forall j: nat :: i <= j < upTo - 1 ==> RoundContinues(rounds(j)))
    && (forall j: nat :: i <= j < upTo ==> !rounds(j).goneAtStart)
  }

  lemma {:induction false} ExitFrom(job: Job, rounds: nat -> Round, i: nat, extraMessages: seq<LlmMessage>)
    ensures var run := RunFrom(job, rounds, i, extraMessages);
      ExitIsTrue(job, rounds, i, i + |run.requests|, run.exit) && RoundsAreAnswered(rounds, i, i + |run.requests|)
    decreases job.config.maxToolIterations - i
  {
    hide RequestWith, AfterRequest, RoundReplies, RoundFails, RoundIsCutShort, RoundContinues;
    if i < job.config.maxToolIterations && !rounds(i).goneAtStart && RequestWith(job, extraMessages).Ok? {
      RoundMeans(rounds(i), job.hasExecutor);
      var end := AfterRequest(rounds(i), job.hasExecutor);
      if end.Continues? {
        ExitFrom(job, rounds, i + 1, extraMessages + end.block);
      } else {
        RoundEndTruly(rounds(i), end.exit, job.hasExecutor);
      }
    }
  }

  lemma RoundEndTruly(round: Round, exit: Exit, hasExecutor: bool)
    requires AfterRequest(round, hasExecutor) == Ends(exit)
    ensures exit.Replied? || exit.ProviderFailed? || exit.Gone?
    ensures exit.Replied? ==> RoundReplies(round, exit.text)
    ensures exit.ProviderFailed? ==> RoundFails(round, exit.code)
    ensures exit.Gone? ==> RoundIsCutShort(round)
  {
    hide AfterRequest, RoundReplies, RoundFails, RoundIsCutShort, RoundContinues;
    RoundMeans(round, hasExecutor);
  }

  /** What each way out of the tool loop means. It replies with a text exactly when the last round requested was read to
      its end, uncancelled, without failure and without calls, and the text is that round's deltas joined; likewise for
      a failure and its code. All rounds before were answered tool rounds. */
  lemma ExitMeans(job: Job, rounds: nat -> Round)
    ensures var run := RunFrom(job, rounds, 0, []);
      var n := |run.requests|;
      && (forall text :: run.exit == Replied(text) <==> n > 0 && RoundReplies(rounds(n - 1), text))
      && (forall code :: run.exit == ProviderFailed(code) <==> n > 0 && RoundFails(rounds(n - 1), code))
      && (run.exit == Gone ==>
            || (n > 0 && RoundIsCutShort(rounds(n - 1)))
            || (n < job.config.maxToolIterations && rounds(n).goneAtStart))
      && (n > 0 && RoundIsCutShort(rounds(n - 1)) ==> run.exit == Gone)
      && (run.exit == LimitExceeded ==> n >= job.config.maxToolIterations && (n > 0 ==> RoundContinues(rounds(n - 1))))
      && (run.exit == BudgetExceeded ==> RequestWith(job, []).Err?)
      && (forall j: nat :: j < n - 1 ==> RoundContinues(rounds(j)))
      && (forall j: nat :: j < n ==> !rounds(j).goneAtStart)
  {
    hide RequestWith, AfterRequest, RunFrom, RoundReplies, RoundFails, RoundIsCutShort, RoundContinues;
    ExitFrom(job, rounds, 0, []);
    var run := RunFrom(job, rounds, 0, []);
    var n := |run.requests|;
    BudgetStopsFirst(job, rounds);
    if n > 0 {
      RoundMeans(rounds(n - 1), job.hasExecutor);
      LastRequestDecides(job, rounds);
    }
  }

  /** When the last round requested ends by itself, the loop ends with it, the way it ends. */
  lemma LastRequestDecides(job: Job, rounds: nat -> Round)
    requires RunFrom(job, rounds, 0, []).requests != []
    ensures var run := RunFrom(job, rounds, 0, []);
      var last := AfterRequest(rounds(|run.requests| - 1), job.hasExecutor);
      last.Ends? ==> run.exit == last.exit
  {
    hide RequestWith, AfterRequest;
    LastDecidesFrom(job, rounds, 0, []);
  }

  lemma {:induction false} LastDecidesFrom(job: Job, rounds: nat -> Round, i: nat, extraMessages: seq<LlmMessage>)
    requires RunFrom(job, rounds, i, extraMessages).requests != []
    ensures var run := RunFrom(job, rounds, i, extraMessages);
      var last := AfterRequest(rounds(i + |run.requests| - 1), job.hasExecutor);
      last.Ends? ==> run.exit == last.exit
    decreases job.config.maxToolIterations - i
  {
    hide RequestWith, AfterRequest;
    var end := AfterRequest(rounds(i), job.hasExecutor);
    if end.Continues? && RunFrom(job, rounds, i + 1, extraMessages + end.block).requests != [] {
      LastDecidesFrom(job, rounds, i + 1, extraMessages + end.block);
    }
  }

  lemma BudgetStopsFirst(job: Job, rounds: nat -> Round)
    ensures RunFrom(job, rounds, 0, []).exit == BudgetExceeded ==> RequestWith(job, []).Err?
  {
    hide RequestWith, RunFrom, IsTranscript;
    TranscriptShape(job, rounds);
    BudgetBeforeFirst(job, rounds);
  }

  lemma BudgetBeforeFirst(job: Job, rounds: nat -> Round)
    ensures RunFrom(job, rounds, 0, []).exit == BudgetExceeded && RunFrom(job, rounds, 0, []).requests == [] ==>
      RequestWith(job, []).Err?
  {
    hide RequestWith, AfterRequest;
  }
}
