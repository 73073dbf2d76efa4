/** Token estimation, system prompt building, and the selection of the history suffix that fits the budget. */
module ContextBudget {
  import opened Common
  import opened PyStrings
  import opened Conversation

  /** About four characters a token, rounded up; only the empty text costs nothing, so the code's floor of one
      token for a non-empty text never raises the estimate. */
  function ApproximateTokenCount(text: string): (n: nat)
    ensures n == 0 <==> text == ""
    ensures 4 * n >= |text| > 4 * n - 4 || text == ""
  {
    if text == "" then 0 else (|text| + 3) / 4
  }

  lemma EstimateIsMonotone(a: string, b: string)
    requires |a| <= |b|
    ensures ApproximateTokenCount(a) <= ApproximateTokenCount(b)
  {
  }

  const SUMMARY_SECTION_HEADER := "[Conversation summary]"
  const KNOWLEDGE_SECTION_HEADER := "[Retrieved context]"
  const MEMORY_SECTION_HEADER := "[Agent memory]"

  /** The optional texts that are folded into the system prompt. */
  datatype Extras = Extras(summary: Option<string>, knowledge: Option<string>, memory: Option<string>)

  const NoExtras := Extras(None, None, None)

  function Section(header: string, text: Option<string>): (r: seq<string>)
    ensures |r| <= 1 && (text.None? ==> r == [])
  {
    if text.Some? && Strip(text.value) != "" then [header + "\n" + Strip(text.value)] else []
  }

  function Sections(instructions: string, x: Extras): seq<string> {
    (if Strip(instructions) != "" then [Strip(instructions)] else [])
    + Section(MEMORY_SECTION_HEADER, x.memory)
    + Section(SUMMARY_SECTION_HEADER, x.summary)
    + Section(KNOWLEDGE_SECTION_HEADER, x.knowledge)
  }

  function BuildSystemPrompt(instructions: string, x: Extras): string {
    Join("\n\n", Sections(instructions, x))
  }

  /** Taking any one optional text away never lengthens the prompt. */
  lemma {:induction false} PromptShrinks(instructions: string, x: Extras)
    ensures |BuildSystemPrompt(instructions, x.(memory := None))| <= |BuildSystemPrompt(instructions, x)|
    ensures |BuildSystemPrompt(instructions, x.(summary := None))| <= |BuildSystemPrompt(instructions, x)|
    ensures |BuildSystemPrompt(instructions, x.(knowledge := None))| <= |BuildSystemPrompt(instructions, x)|
  {
    hide Join, Strip, Section;
    var head := if Strip(instructions) != "" then [Strip(instructions)] else [];
    var m := Section(MEMORY_SECTION_HEADER, x.memory);
    var s := Section(SUMMARY_SECTION_HEADER, x.summary);
    var k := Section(KNOWLEDGE_SECTION_HEADER, x.knowledge);
    JoinWithoutSection(head, m, s + k);
    JoinWithoutSection(head + m, s, k);
    JoinWithoutSection(head + m + s, k, []);
    assert Sections(instructions, x) == head + m + (s + k) == head + m + s + k == head + m + s + k + [];
    assert Sections(instructions, x.(memory := None)) == head + (s + k);
    assert Sections(instructions, x.(summary := None)) == head + m + k;
    assert Sections(instructions, x.(knowledge := None)) == head + m + s + [];
  }

  lemma {:induction false} JoinWithoutSection(before: seq<string>, section: seq<string>, after: seq<string>)
    requires |section| <= 1
    ensures |Join("\n\n", before + after)| <= |Join("\n\n", before + section + after)|
  {
    if section == [] {
      assert before + section + after == before + after;
    } else {
      JoinWithoutPart("\n\n", before, section[0], after);
      assert section == [section[0]];
    }
  }

  /** What the prompt costs with a set of optional texts. */
  function PromptTokens(instructions: string, x: Extras): nat {
    ApproximateTokenCount(BuildSystemPrompt(instructions, x))
  }

  /** The first set of optional texts is at most the second, section by section. */
  predicate Fewer(x: Extras, y: Extras) {
    && (x.memory == y.memory || x.memory.None?)
    && (x.summary == y.summary || x.summary.None?)
    && (x.knowledge == y.knowledge || x.knowledge.None?)
  }

  lemma FewerExtrasCostNoMore(instructions: string, x: Extras, y: Extras)
    requires Fewer(x, y)
    ensures PromptTokens(instructions, x) <= PromptTokens(instructions, y)
  {
    hide BuildSystemPrompt;
    var y1 := y.(memory := x.memory);
    var y2 := y1.(summary := x.summary);
    PromptShrinks(instructions, y);
    PromptShrinks(instructions, y1);
    PromptShrinks(instructions, y2);
    assert y2.(knowledge := x.knowledge) == x;
    assert |BuildSystemPrompt(instructions, x)| <= |BuildSystemPrompt(instructions, y)|;
    EstimateIsMonotone(BuildSystemPrompt(instructions, x), BuildSystemPrompt(instructions, y));
  }

  // ---- History selection ----

  function TotalTokens(history: seq<LlmMessage>): nat {
    if history == [] then 0
    else ApproximateTokenCount(history[0].content) + TotalTokens(history[1..])
  }

  lemma {:induction false} TotalOfConcat(a: seq<LlmMessage>, b: seq<LlmMessage>)
    ensures TotalTokens(a + b) == TotalTokens(a) + TotalTokens(b)
  {
    if a == [] {
      assert a + b == b;
    } else {
      TotalOfConcat(a[1..], b);
      assert (a + b)[1..] == a[1..] + b;
    }
  }

  /** The newest messages, walking back until one does not fit. */
  function KeepSuffix(history: seq<LlmMessage>, remaining: nat): (kept: seq<LlmMessage>)
    ensures |kept| <= |history| && kept == history[|history| - |kept|..]
  {
    if history == [] then []
    else
      var last := history[|history| - 1];
      var cost := ApproximateTokenCount(last.content);
      if cost > remaining then []
      else KeepSuffix(history[..|history| - 1], remaining - cost) + [last]
  }

  function Newest(history: seq<LlmMessage>, n: nat): seq<LlmMessage>
    requires n <= |history|
  {
    history[|history| - n..]
  }

  lemma {:induction false} KeptFits(history: seq<LlmMessage>, remaining: nat)
    ensures TotalTokens(KeepSuffix(history, remaining)) <= remaining
  {
    hide ApproximateTokenCount;
    if history != [] {
      var last := history[|history| - 1];
      var cost := ApproximateTokenCount(last.content);
      if cost <= remaining {
        var init := history[..|history| - 1];
        KeptFits(init, remaining - cost);
        TotalOfConcat(KeepSuffix(init, remaining - cost), [last]);
      }
    }
  }

  lemma {:induction false} LongerDoesNotFit(history: seq<LlmMessage>, remaining: nat, n: nat)
    requires |KeepSuffix(history, remaining)| < n <= |history|
    ensures TotalTokens(Newest(history, n)) > remaining
  {
    hide ApproximateTokenCount;
    var init, last := history[..|history| - 1], history[|history| - 1];
    var cost := ApproximateTokenCount(last.content);
    assert Newest(history, n) == Newest(init, n - 1) + [last];
    TotalOfConcat(Newest(init, n - 1), [last]);
    if cost <= remaining {
      LongerDoesNotFit(init, remaining - cost, n - 1);
    }
  }

  /** The kept suffix fits, and no longer suffix does. */
  lemma KeptIsLongestFittingSuffix(history: seq<LlmMessage>, remaining: nat)
    ensures KeepSuffix(history, remaining) == Newest(history, |KeepSuffix(history, remaining)|)
    ensures TotalTokens(KeepSuffix(history, remaining)) <= remaining
    ensures forall n :: |KeepSuffix(history, remaining)| < n <= |history| ==>
      TotalTokens(Newest(history, n)) > remaining
  {
    KeptFits(history, remaining);
    forall n | |KeepSuffix(history, remaining)| < n <= |history|
      ensures TotalTokens(Newest(history, n)) > remaining
    {
      LongerDoesNotFit(history, remaining, n);
    }
  }

  /** More room keeps at least as much. */
  lemma KeptGrowsWithRoom(history: seq<LlmMessage>, small: nat, large: nat)
    requires small <= large
    ensures |KeepSuffix(history, small)| <= |KeepSuffix(history, large)|
  {
    KeptIsLongestFittingSuffix(history, small);
    KeptIsLongestFittingSuffix(history, large);
  }

  /** Everything is kept exactly when everything fits. */
  lemma AllKeptIffAllFits(history: seq<LlmMessage>, remaining: nat)
    ensures KeepSuffix(history, remaining) == history <==> TotalTokens(history) <= remaining
    ensures |KeepSuffix(history, remaining)| == |history| <==> TotalTokens(history) <= remaining
  {
    KeptIsLongestFittingSuffix(history, remaining);
    var kept := KeepSuffix(history, remaining);
    assert Newest(history, |history|) == history;
  }

  /** The budget leaves room for the prompt and the user text. */
  predicate Fits(instructions: string, userText: string, maxTokens: int, x: Extras) {
    maxTokens >= 1 && PromptTokens(instructions, x) + ApproximateTokenCount(userText) <= maxTokens
  }

  function Room(instructions: string, userText: string, maxTokens: int, x: Extras): nat
    requires Fits(instructions, userText, maxTokens, x)
  {
    maxTokens - PromptTokens(instructions, x) - ApproximateTokenCount(userText)
  }

  /** What `select_history` returns, or the error it raises. */
  function SelectHistory(
      history: seq<LlmMessage>, userText: string, instructions: string, maxTokens: int, x: Extras)
      : (r: Result<seq<LlmMessage>, RuntimeError>)
    ensures r.Ok? ==> |r.value| <= |history| && r.value == history[|history| - |r.value|..]
  {
    if Fits(instructions, userText, maxTokens, x)
    then Ok(KeepSuffix(history, Room(instructions, userText, maxTokens, x)))
    else Err(ContextBudgetExceeded)
  }

  /** The checks in their order, then the loop over the history from its newest message. */
  method SelectHistoryLoop(
      history: seq<LlmMessage>, userText: string, instructions: string, maxTokens: int, x: Extras)
      returns (r: Result<seq<LlmMessage>, RuntimeError>)
    ensures r == SelectHistory(history, userText, instructions, maxTokens, x)
  {
    hide BuildSystemPrompt, ApproximateTokenCount, KeepSuffix, Reverse;
    if maxTokens < 1 {
      return Err(ContextBudgetExceeded);
    }
    var systemTokens := ApproximateTokenCount(BuildSystemPrompt(instructions, x));
    if systemTokens > maxTokens {
      return Err(ContextBudgetExceeded);
    }
    var remaining := maxTokens - systemTokens;
    var userTokens := ApproximateTokenCount(userText);
    if userTokens > remaining {
      return Err(ContextBudgetExceeded);
    }
    remaining := remaining - userTokens;

    var selectedNewestFirst: seq<LlmMessage> := [];
    var i := |history|;
    assert history[..i] == history;
    EmptyWalk(history, remaining);
    while i > 0
      invariant 0 <= i <= |history| && remaining >= 0
      invariant KeepSuffix(history, Room(instructions, userText, maxTokens, x))
        == KeepSuffix(history[..i], remaining) + Reverse(selectedNewestFirst)
    {
      var message := history[i - 1];
      var cost := ApproximateTokenCount(message.content);
      WalkBack(history, i, remaining, selectedNewestFirst);
      if cost > remaining {
        break;
      }
      selectedNewestFirst := selectedNewestFirst + [message];
      remaining := remaining - cost;
      i := i - 1;
    }
    if i == 0 {
      EmptyWalk(history, remaining);
      assert [] + Reverse(selectedNewestFirst) == Reverse(selectedNewestFirst);
    }
    return Ok(Reverse(selectedNewestFirst));
  }

  lemma EmptyWalk(history: seq<LlmMessage>, remaining: nat)
    ensures KeepSuffix(history[..0], remaining) == [] && Reverse([]) == []
  {
  }

  function Reverse(s: seq<LlmMessage>): seq<LlmMessage> {
    if s == [] then [] else [s[|s| - 1]] + Reverse(s[..|s| - 1])
  }

  /** One turn of the loop moves the message at i - 1 from one side to the other, or ends the suffix. */
  lemma WalkBack(history: seq<LlmMessage>, i: nat, remaining: nat, newestFirst: seq<LlmMessage>)
    requires 0 < i <= |history|
    ensures var cost := ApproximateTokenCount(history[i - 1].content);
      KeepSuffix(history[..i], remaining) + Reverse(newestFirst)
        == if cost > remaining then Reverse(newestFirst)
           else KeepSuffix(history[..i - 1], remaining - cost) + Reverse(newestFirst + [history[i - 1]])
  {
    hide ApproximateTokenCount;
    assert history[..i][..i - 1] == history[..i - 1];
    assert (newestFirst + [history[i - 1]])[..|newestFirst|] == newestFirst;
  }

  /** Whether budgeting without any optional text would drop history. */
  function WouldDropHistory(history: seq<LlmMessage>, userText: string, instructions: string, maxTokens: int)
      : Result<bool, RuntimeError>
  {
    match SelectHistory(history, userText, instructions, maxTokens, NoExtras)
    case Err(e) => Err(e)
    case Ok(selected) => Ok(|selected| < |history|)
  }

  /** It answers yes exactly when instructions, user text and the whole history together exceed the budget. */
  lemma WouldDropIffOverBudget(history: seq<LlmMessage>, userText: string, instructions: string, maxTokens: int)
    ensures WouldDropHistory(history, userText, instructions, maxTokens).Ok?
      <==> Fits(instructions, userText, maxTokens, NoExtras)
    ensures Fits(instructions, userText, maxTokens, NoExtras) ==>
      (WouldDropHistory(history, userText, instructions, maxTokens).value <==>
       PromptTokens(instructions, NoExtras) + ApproximateTokenCount(userText) + TotalTokens(history) > maxTokens)
  {
    if Fits(instructions, userText, maxTokens, NoExtras) {
      AllKeptIffAllFits(history, Room(instructions, userText, maxTokens, NoExtras));
    }
  }

  /** Dropping an optional text or raising the budget never makes selection fail or keep less. */
  lemma SelectionIsMonotone(
      history: seq<LlmMessage>, userText: string, instructions: string,
      maxTokens: int, x: Extras, maxTokens': int, x': Extras)
    requires maxTokens <= maxTokens' && Fewer(x', x)
    requires SelectHistory(history, userText, instructions, maxTokens, x).Ok?
    ensures SelectHistory(history, userText, instructions, maxTokens', x').Ok?
    ensures |SelectHistory(history, userText, instructions, maxTokens, x).value|
      <= |SelectHistory(history, userText, instructions, maxTokens', x').value|
  {
    hide PromptTokens;
    FewerExtrasCostNoMore(instructions, x', x);
    KeptGrowsWithRoom(history, Room(instructions, userText, maxTokens, x),
                      Room(instructions, userText, maxTokens', x'));
  }
}
